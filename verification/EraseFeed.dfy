/** The erase ledger beside a running Admission Authority: what the revocation stream makes of it. */
module EraseFeed {
  import opened Prelude
  import opened AdmissionDomain
  import opened AdmissionTables
  import opened AdmissionCommands
  import opened AdmissionInvariant
  import opened AdmissionPreservation
  import opened AdmissionHistory
  import opened AdmissionTheorems
  import Progress = AdmissionProgress
  import Rows = DeviceRows
  import E = DeviceErase

  datatype Hub = Hub(tables: State, ledger: E.Ledger)

  datatype HubStep = OnAdmission(step: Step) | OnErase(erase: E.EraseStep)

  const EmptyHub := Hub(EmptyState, E.EmptyLedger)

  ghost function Advance(a: Authority, hub: Hub, step: HubStep): Hub {
    match step
    case OnAdmission(inner) => hub.(tables := Apply(a, hub.tables, inner))
    case OnErase(erase) => hub.(ledger := E.Step(hub.tables.stream, hub.tables.claims, hub.ledger, erase))
  }

  ghost function RunHub(a: Authority, hub: Hub, steps: seq<HubStep>): Hub
    decreases |steps|
  {
    if steps == [] then hub else Advance(a, RunHub(a, hub, steps[..|steps| - 1]), steps[|steps| - 1])
  }

  ghost predicate HubReachable(a: Authority, hub: Hub) {
    exists steps: seq<HubStep> :: hub == RunHub(a, EmptyHub, steps)
  }

  /** A revocation of exactly this event and generation is in the stream. */
  ghost predicate InStream(stream: seq<ClaimEvent>, o: E.OperationId) {
    exists i :: 0 <= i < |stream| && stream[i].body.Revocation? && stream[i].id == o.event && stream[i].ref == o.ref
  }

  ghost predicate Fed(hub: Hub) {
    forall o :: o in hub.ledger.operations ==> InStream(hub.tables.stream, o)
  }

  ghost predicate HubOk(a: Authority, hub: Hub) {
    Inv(a, hub.tables) && E.LedgerOk(hub.ledger) && Fed(hub)
  }

  lemma {:induction false} MaterializedFromStream(operations: map<E.OperationId, E.Operation>,
                                                  claims: map<DeviceId, Claim>, stream: seq<ClaimEvent>, ttl: int,
                                                  o: E.OperationId)
    requires E.MaterializeAll(operations, claims, stream, ttl).Ok?
    requires o in E.MaterializeAll(operations, claims, stream, ttl).value && o !in operations
    ensures InStream(stream, o)
    decreases |stream|
  {
    if stream != [] {
      var n := |stream| - 1;
      if o in E.MaterializeAll(operations, claims, stream[..n], ttl).value {
        MaterializedFromStream(operations, claims, stream[..n], ttl, o);
        var i :| 0 <= i < n && stream[..n][i].body.Revocation? && stream[..n][i].id == o.event
          && stream[..n][i].ref == o.ref;
        assert stream[i] == stream[..n][i];
      } else {
        assert stream[n].body.Revocation? && stream[n].id == o.event && stream[n].ref == o.ref;
      }
    }
  }

  lemma StreamGrows(stream: seq<ClaimEvent>, stream': seq<ClaimEvent>, o: E.OperationId)
    requires stream <= stream' && InStream(stream, o)
    ensures InStream(stream', o)
  {
    var i :| 0 <= i < |stream| && stream[i].body.Revocation? && stream[i].id == o.event && stream[i].ref == o.ref;
    assert stream'[i] == stream[i];
  }

  lemma TouchesKeepKeys(hub: Hub, erase: E.EraseStep)
    requires !erase.Materialize?
    ensures E.Step(hub.tables.stream, hub.tables.claims, hub.ledger, erase).operations.Keys
      == hub.ledger.operations.Keys
  {
  }

  lemma AdvanceKeeps(a: Authority, hub: Hub, step: HubStep)
    requires HubOk(a, hub)
    ensures HubOk(a, Advance(a, hub, step))
    ensures Extends(hub.tables, Advance(a, hub, step).tables)
  {
    hide Inv, Extends, Apply, E.LedgerOk, InStream, E.MaterializeAll, E.Step;
    match step
    case OnAdmission(inner) =>
      StepKeeps(a, hub.tables, inner);
      StepExtends(a, hub.tables, inner);
      assert hub.tables.stream <= Apply(a, hub.tables, inner).stream by {
        StreamKept(hub.tables, Apply(a, hub.tables, inner));
      }
      forall o | o in hub.ledger.operations ensures InStream(Apply(a, hub.tables, inner).stream, o) {
        StreamGrows(hub.tables.stream, Apply(a, hub.tables, inner).stream, o);
      }
    case OnErase(erase) =>
      ExtendsReflexive(hub.tables);
      E.StepKeeps(hub.tables.stream, hub.tables.claims, hub.ledger, erase);
      StepFed(hub, erase);
  }

  lemma StreamKept(s: State, s': State)
    requires Extends(s, s')
    ensures s.stream <= s'.stream
  {
  }

  lemma StepFed(hub: Hub, erase: E.EraseStep)
    requires Fed(hub)
    ensures Fed(hub.(ledger := E.Step(hub.tables.stream, hub.tables.claims, hub.ledger, erase)))
  {
    hide InStream, E.MaterializeAll;
    if erase.Materialize? {
      var all := E.MaterializeAll(hub.ledger.operations, hub.tables.claims, hub.tables.stream, erase.ttl);
      if erase.ttl > 0 && all.Ok? {
        forall o | o in all.value ensures InStream(hub.tables.stream, o) {
          if o !in hub.ledger.operations {
            MaterializedFromStream(hub.ledger.operations, hub.tables.claims, hub.tables.stream, erase.ttl, o);
          }
        }
      }
    } else {
      TouchesKeepKeys(hub, erase);
    }
  }

  lemma {:induction false} RunKeepsHub(a: Authority, hub: Hub, steps: seq<HubStep>)
    requires HubOk(a, hub)
    ensures HubOk(a, RunHub(a, hub, steps)) && Extends(hub.tables, RunHub(a, hub, steps).tables)
    decreases |steps|
  {
    hide HubOk, Extends, Advance;
    if steps == [] {
      ExtendsReflexive(hub.tables);
    } else {
      var before := RunHub(a, hub, steps[..|steps| - 1]);
      RunKeepsHub(a, hub, steps[..|steps| - 1]);
      AdvanceKeeps(a, before, steps[|steps| - 1]);
      ExtendsTransitive(hub.tables, before.tables, Advance(a, before, steps[|steps| - 1]).tables);
    }
  }

  lemma ReachableOk(a: Authority, hub: Hub)
    requires HubReachable(a, hub)
    ensures HubOk(a, hub)
  {
    hide Inv, Extends, Advance;
    var steps: seq<HubStep> :| hub == RunHub(a, EmptyHub, steps);
    InvEmpty(a);
    RunKeepsHub(a, EmptyHub, steps);
  }

  // At most one operation each

  /** Each revocation event and each DeviceRef has at most one operation, so the lookup by device is
      unambiguous; every operation stands for a revocation of the stream. */
  lemma OneOperationEach(a: Authority, hub: Hub, o: E.OperationId, p: E.OperationId)
    requires HubReachable(a, hub) && o in hub.ledger.operations && p in hub.ledger.operations
    ensures hub.ledger.operations[o].sourceEvent == hub.ledger.operations[p].sourceEvent ==> o == p
    ensures hub.ledger.operations[o].ref == hub.ledger.operations[p].ref ==> o == p
    ensures InStream(hub.tables.stream, o)
  {
    hide HubReachable, BindingsOk, ProposalsOk, DecisionsOk, GrantsOk, LinksOk, StagesOk, ClaimsOk, DevicesOk,
      ResultsOk;
    hide E.SettledByEvidence, HasSource, Revisions, UpTo, TellsClaim;
    ReachableOk(a, hub);
    assert E.Consistent(o, hub.ledger.operations[o]) && E.Consistent(p, hub.ledger.operations[p]);
    assert InStream(hub.tables.stream, o) && InStream(hub.tables.stream, p);
    var stream := hub.tables.stream;
    var i :| 0 <= i < |stream| && stream[i].body.Revocation? && stream[i].id == o.event && stream[i].ref == o.ref;
    var j :| 0 <= j < |stream| && stream[j].body.Revocation? && stream[j].id == p.event && stream[j].ref == p.ref;
    if o.ref == p.ref {
      assert i < j ==> InOrder(stream[i], stream[j]);
      assert j < i ==> InOrder(stream[j], stream[i]);
    }
  }

  /** Under any interleaving an operation is settled exactly when one piece of evidence, and only one, is
      applied, and its row records that one. */
  lemma SettlementIsEvidence(a: Authority, hub: Hub, o: E.OperationId)
    requires HubReachable(a, hub) && o in hub.ledger.operations
    ensures E.SettledByEvidence(hub.ledger, o) && E.Consistent(o, hub.ledger.operations[o])
  {
    hide HubReachable, Inv, Fed, E.SettledByEvidence;
    ReachableOk(a, hub);
  }

  // From one moment to a later one

  ghost predicate EvidenceGrown(ledger: E.Ledger, ledger': E.Ledger) {
    forall k :: k in ledger.evidence ==> k in ledger'.evidence && ledger'.evidence[k] == ledger.evidence[k]
  }

  ghost predicate OperationsStay(ledger: E.Ledger, ledger': E.Ledger) {
    forall o :: o in ledger.operations ==> o in ledger'.operations && Stays(ledger.operations[o], ledger'.operations[o])
  }

  predicate Stays(operation: E.Operation, operation': E.Operation) {
    && (E.Settled(operation.state) ==> operation' == operation)
    && operation'.sourceEvent == operation.sourceEvent && operation'.ref == operation.ref
    && operation'.createdAt == operation.createdAt && operation'.publicKey == operation.publicKey
  }

  lemma EraseStepStays(hub: Hub, erase: E.EraseStep)
    requires E.LedgerOk(hub.ledger)
    ensures var ledger' := E.Step(hub.tables.stream, hub.tables.claims, hub.ledger, erase);
      OperationsStay(hub.ledger, ledger') && EvidenceGrown(hub.ledger, ledger')
  {
    forall o | o in hub.ledger.operations
      ensures var ledger' := E.Step(hub.tables.stream, hub.tables.claims, hub.ledger, erase);
        o in ledger'.operations && Stays(hub.ledger.operations[o], ledger'.operations[o])
    {
      hide E.Step, E.LedgerOk, E.Settled;
      E.SettledStays(hub.tables.stream, hub.tables.claims, hub.ledger, erase, o);
    }
    hide E.LedgerOk, Stays, OperationsStay;
    EvidenceStays(hub, erase);
  }

  lemma EvidenceStays(hub: Hub, erase: E.EraseStep)
    ensures EvidenceGrown(hub.ledger, E.Step(hub.tables.stream, hub.tables.claims, hub.ledger, erase))
  {
    hide E.MaterializeAll, E.AckedAt, E.Rearmed, E.DeliveredAt, E.ExpiredAt, E.PendingAt, E.AckEvidence;
  }

  /** A settled operation is never touched again, no operation and no evidence is ever dropped, and none
      changes the event, generation, birth or key it was created with. */
  lemma {:induction false} RunKeepsOperations(a: Authority, hub: Hub, steps: seq<HubStep>)
    requires HubOk(a, hub)
    ensures OperationsStay(hub.ledger, RunHub(a, hub, steps).ledger)
    ensures EvidenceGrown(hub.ledger, RunHub(a, hub, steps).ledger)
    decreases |steps|
  {
    hide Inv, Apply, E.LedgerOk, E.Step, E.Settled, Fed;
    if steps != [] {
      var before := RunHub(a, hub, steps[..|steps| - 1]);
      RunKeepsOperations(a, hub, steps[..|steps| - 1]);
      RunKeepsHub(a, hub, steps[..|steps| - 1]);
      var last := steps[|steps| - 1];
      if last.OnErase? { EraseStepStays(before, last.erase); }
    }
  }

  /** Once an acknowledgement is on record, its sequence number with other content is refused for good,
      and with the same content it changes nothing. */
  lemma SequenceReuseRefused(a: Authority, hub: Hub, ack: E.EraseAck, at: Moment, steps: seq<HubStep>,
                             other: E.EraseAck, later: Moment)
    requires HubOk(a, hub) && E.ApplyAck(hub.ledger, ack, at).Ok?
    requires other.operation == ack.operation && other.sequence == ack.sequence
    ensures var after := RunHub(a, hub.(ledger := E.ApplyAck(hub.ledger, ack, at).value), steps).ledger;
      E.ApplyAck(after, other, later) == if other == ack then Ok(after) else Err(E.Conflict)
  {
    hide Inv, Fed, RunHub, E.AckedAt, Extends;
    var acked := hub.(ledger := E.ApplyAck(hub.ledger, ack, at).value);
    assert HubOk(a, acked) by {
      assert acked == Advance(a, hub, OnErase(E.Acknowledge(ack, at)));
      AdvanceKeeps(a, hub, OnErase(E.Acknowledge(ack, at)));
    }
    hide E.LedgerOk;
    RunKeepsOperations(a, acked, steps);
    assert (ack.operation, ack.sequence) in acked.ledger.evidence;
    assert acked.ledger.evidence[(ack.operation, ack.sequence)].fingerprint == E.AckDigest(ack);
  }

  // When a pass succeeds

  /** The Claim still is at the generation this event revoked. */
  predicate Current(claims: map<DeviceId, Claim>, ref: DeviceRef) {
    ref.device in claims && ClaimRef(ref.device, claims[ref.device]) == ref
  }

  function IdOf(event: ClaimEvent): E.OperationId {
    E.EraseOf(event.id, event.ref)
  }

  /** Operations that exist agree with the stream about their event's generation. */
  ghost predicate Agrees(operations: map<E.OperationId, E.Operation>, stream: seq<ClaimEvent>) {
    && (forall o :: o in operations ==> operations[o].sourceEvent == o.event && operations[o].ref == o.ref)
    && (forall o, i :: o in operations && 0 <= i < |stream| && stream[i].id == o.event ==> stream[i].ref == o.ref)
    && (forall i, j :: 0 <= i < j < |stream| ==> stream[i].id != stream[j].id)
  }

  /** A pass over the first n events creates exactly the missing operations among them. */
  ghost predicate PassedTo(operations: map<E.OperationId, E.Operation>, claims: map<DeviceId, Claim>,
                           stream: seq<ClaimEvent>, ttl: int, n: nat, operations': map<E.OperationId, E.Operation>)
    requires n <= |stream|
  {
    && (forall o :: o in operations ==> o in operations' && operations'[o] == operations[o])
    && (forall o :: o in operations' && o !in operations ==>
          exists i :: Creates(operations, claims, stream, ttl, n, operations', o, i))
    && (forall i :: 0 <= i < n && stream[i].body.Revocation? ==> IdOf(stream[i]) in operations')
  }

  ghost predicate Creates(operations: map<E.OperationId, E.Operation>, claims: map<DeviceId, Claim>,
                          stream: seq<ClaimEvent>, ttl: int, n: nat, operations': map<E.OperationId, E.Operation>,
                          o: E.OperationId, i: int)
    requires n <= |stream| && o in operations'
  {
    && 0 <= i < n && stream[i].body.Revocation? && o == IdOf(stream[i]) && Current(claims, stream[i].ref)
    && operations'[o] == E.NewOperation(stream[i], claims[stream[i].ref.device], ttl)
  }

  ghost predicate AllCurrent(operations: map<E.OperationId, E.Operation>, claims: map<DeviceId, Claim>,
                             stream: seq<ClaimEvent>, n: nat)
    requires n <= |stream|
  {
    forall i :: 0 <= i < n && stream[i].body.Revocation? && IdOf(stream[i]) !in operations ==>
      Current(claims, stream[i].ref)
  }

  /** Only the event's own operation can stand for it, and a pass over earlier events cannot have made it. */
  lemma NotYetMade(operations: map<E.OperationId, E.Operation>, claims: map<DeviceId, Claim>, stream: seq<ClaimEvent>,
                   ttl: int, n: nat, before: map<E.OperationId, E.Operation>)
    requires Agrees(operations, stream) && n < |stream| && PassedTo(operations, claims, stream, ttl, n, before)
    ensures IdOf(stream[n]) in before <==> IdOf(stream[n]) in operations
    ensures IdOf(stream[n]) in before ==>
      var o := before[IdOf(stream[n])]; o.sourceEvent == stream[n].id && o.ref == stream[n].ref
    ensures forall o :: o in before && before[o].sourceEvent == stream[n].id ==> o == IdOf(stream[n])
  {
    forall o, i | o in before && Creates(operations, claims, stream, ttl, n, before, o, i)
      ensures before[o].sourceEvent != stream[n].id
    {
    }
    forall o | o in before && before[o].sourceEvent == stream[n].id ensures o in operations && o == IdOf(stream[n]) {
    }
  }

  lemma PassOne(operations: map<E.OperationId, E.Operation>, claims: map<DeviceId, Claim>, stream: seq<ClaimEvent>,
                ttl: int, n: nat, before: map<E.OperationId, E.Operation>)
    requires Agrees(operations, stream) && n < |stream| && PassedTo(operations, claims, stream, ttl, n, before)
    ensures var one := E.MaterializeOne(before, claims, stream[n], ttl);
      && (one.Ok? <==> (stream[n].body.Revocation? && IdOf(stream[n]) !in operations ==>
                          Current(claims, stream[n].ref)))
      && (one.Ok? ==> PassedTo(operations, claims, stream, ttl, n + 1, one.value))
  {
    hide Agrees, E.NewOperation;
    NotYetMade(operations, claims, stream, ttl, n, before);
    var one, m := E.MaterializeOne(before, claims, stream[n], ttl), n + 1;
    if one.Ok? {
      forall o | o in one.value && o !in operations
        ensures exists i :: Creates(operations, claims, stream, ttl, m, one.value, o, i)
      {
        if o in before {
          var i :| Creates(operations, claims, stream, ttl, n, before, o, i);
          assert Creates(operations, claims, stream, ttl, m, one.value, o, i);
        } else {
          assert Creates(operations, claims, stream, ttl, m, one.value, o, n);
        }
      }
    }
  }

  lemma {:induction false} PassTo(operations: map<E.OperationId, E.Operation>, claims: map<DeviceId, Claim>,
                                  stream: seq<ClaimEvent>, ttl: int, n: nat)
    requires Agrees(operations, stream) && n <= |stream|
    ensures var all := E.MaterializeAll(operations, claims, stream[..n], ttl);
      && (all.Ok? <==> AllCurrent(operations, claims, stream, n))
      && (all.Ok? ==> PassedTo(operations, claims, stream, ttl, n, all.value))
  {
    if n > 0 {
      PassTo(operations, claims, stream, ttl, n - 1);
      assert stream[..n][..n - 1] == stream[..n - 1];
      var before := E.MaterializeAll(operations, claims, stream[..n - 1], ttl);
      if before.Ok? { PassOne(operations, claims, stream, ttl, n - 1, before.value); }
      hide PassedTo, E.MaterializeOne, Agrees;
    }
  }

  lemma HubAgrees(a: Authority, hub: Hub)
    requires HubOk(a, hub)
    ensures Agrees(hub.ledger.operations, hub.tables.stream)
  {
    hide BindingsOk, ProposalsOk, DecisionsOk, GrantsOk, LinksOk, StagesOk, ClaimsOk, DevicesOk, ResultsOk;
    hide E.SettledByEvidence, HasSource, Revisions, UpTo, TellsClaim, InOrder;
    var operations, stream := hub.ledger.operations, hub.tables.stream;
    assert forall o :: o in operations ==> E.Consistent(o, operations[o]);
    forall o, i | o in operations && 0 <= i < |stream| && stream[i].id == o.event ensures stream[i].ref == o.ref {
      assert InStream(stream, o);
      var j :| 0 <= j < |stream| && stream[j].body.Revocation? && stream[j].id == o.event && stream[j].ref == o.ref;
    }
  }

  /** A pass succeeds exactly when the Claim of every revocation without an operation is still at the
      revoked generation. It then creates those operations and touches no other: what is materialised
      once is neither created nor able to fail again, re-armed or re-claimed as it may be. */
  lemma PassSucceedsWhenCurrent(a: Authority, hub: Hub, ttl: int)
    requires HubReachable(a, hub) && ttl > 0
    ensures var (ops, claims, stream) := (hub.ledger.operations, hub.tables.claims, hub.tables.stream);
      var all := E.MaterializeAll(ops, claims, stream, ttl);
      && (all.Ok? <==> AllCurrent(ops, claims, stream, |stream|))
      && (all.Ok? ==> PassedTo(ops, claims, stream, ttl, |stream|, all.value))
  {
    hide HubReachable, HubOk, Agrees, PassedTo, AllCurrent, E.MaterializeAll;
    ReachableOk(a, hub);
    HubAgrees(a, hub);
    PassTo(hub.ledger.operations, hub.tables.claims, hub.tables.stream, ttl, |hub.tables.stream|);
    assert hub.tables.stream[..|hub.tables.stream|] == hub.tables.stream;
  }

  // What is missed once

  /** A revocation without an operation whose Claim has moved on. */
  predicate Missed(hub: Hub, i: nat) {
    && i < |hub.tables.stream| && hub.tables.stream[i].body.Revocation?
    && IdOf(hub.tables.stream[i]) !in hub.ledger.operations
    && !Current(hub.tables.claims, hub.tables.stream[i].ref)
  }

  lemma {:induction false} LatestAt(stream: seq<ClaimEvent>, i: nat) returns (j: nat)
    requires i < |stream|
    ensures i <= j < |stream| && stream[j].ref.device == stream[i].ref.device
    ensures Latest(stream, stream[i].ref.device) == Some(stream[j])
    ensures forall k :: j < k < |stream| ==> stream[k].ref.device != stream[i].ref.device
    decreases |stream|
  {
    var n := |stream| - 1;
    if stream[n].ref.device == stream[i].ref.device {
      j := n;
    } else {
      j := LatestAt(stream[..n], i);
      assert stream[..n][i] == stream[i] && stream[..n][j] == stream[j];
      forall k | j < k < |stream| ensures stream[k].ref.device != stream[i].ref.device {
        if k < n { assert stream[..n][k] == stream[k]; }
      }
    }
  }

  /** A Claim is at the generation of a revocation exactly while that is its device's last event. */
  lemma CurrentWhileLast(a: Authority, s: State, i: nat)
    requires Inv(a, s) && i < |s.stream| && s.stream[i].body.Revocation?
    ensures Current(s.claims, s.stream[i].ref) <==>
      forall k :: i < k < |s.stream| ==> s.stream[k].ref.device != s.stream[i].ref.device
  {
    hide BindingsOk, ProposalsOk, DecisionsOk, GrantsOk, LinksOk, StagesOk, ClaimsOk, DevicesOk, ResultsOk;
    hide HasSource, Revisions, UpTo, Latest;
    var j := LatestAt(s.stream, i);
    assert TellsClaim(s.claims, s.stream[i].ref.device, Latest(s.stream, s.stream[i].ref.device));
    if i < j { assert InOrder(s.stream[i], s.stream[j]); }
  }

  lemma StaysPast(a: Authority, s: State, s': State, i: nat)
    requires Inv(a, s) && Inv(a, s') && s.stream <= s'.stream && i < |s.stream| && s.stream[i].body.Revocation?
    requires !Current(s.claims, s.stream[i].ref)
    ensures !Current(s'.claims, s.stream[i].ref) && s'.stream[i] == s.stream[i]
  {
    hide Inv;
    CurrentWhileLast(a, s, i);
    CurrentWhileLast(a, s', i);
    var k :| i < k < |s.stream| && s.stream[k].ref.device == s.stream[i].ref.device;
    assert s'.stream[k] == s.stream[k];
  }

  /** Once missed, a revocation stays missed, and no pass ever creates an operation for anything again. */
  lemma {:induction false} MissedForever(a: Authority, hub: Hub, i: nat, steps: seq<HubStep>)
    requires HubOk(a, hub) && Missed(hub, i)
    ensures Missed(RunHub(a, hub, steps), i)
    ensures RunHub(a, hub, steps).ledger.operations.Keys == hub.ledger.operations.Keys
    decreases |steps|
  {
    hide HubOk, Extends, Advance, Current;
    if steps != [] {
      var n := |steps| - 1;
      var before := RunHub(a, hub, steps[..n]);
      MissedForever(a, hub, i, steps[..n]);
      RunKeepsHub(a, hub, steps[..n]);
      StillMissed(a, before, i, steps[n]);
    }
  }

  lemma StillMissed(a: Authority, hub: Hub, i: nat, step: HubStep)
    requires HubOk(a, hub) && Missed(hub, i)
    ensures Missed(Advance(a, hub, step), i)
    ensures Advance(a, hub, step).ledger.operations.Keys == hub.ledger.operations.Keys
  {
    hide Inv, Extends, Apply, Current, Agrees, PassedTo, E.LedgerOk, Fed;
    match step
    case OnAdmission(inner) =>
      AdvanceKeeps(a, hub, step);
      StreamKept(hub.tables, Apply(a, hub.tables, inner));
      StaysPast(a, hub.tables, Apply(a, hub.tables, inner), i);
    case OnErase(erase) =>
      if erase.Materialize? {
        HubAgrees(a, hub);
        PassTo(hub.ledger.operations, hub.tables.claims, hub.tables.stream, erase.ttl, |hub.tables.stream|);
        assert hub.tables.stream[..|hub.tables.stream|] == hub.tables.stream;
      } else {
        TouchesKeepKeys(hub, erase);
      }
  }

  /** That is what an acknowledgement does when a Body comes back before the pass has run: the
      revocation of its last generation is missed. */
  lemma ReclaimBeforePassMisses(a: Authority, hub: Hub, i: nat, commandId: Id, request: Request, proofValid: bool,
                                eventId: Id, now: Moment)
    requires HubOk(a, hub) && i < |hub.tables.stream| && hub.tables.stream[i].body.Revocation?
    requires IdOf(hub.tables.stream[i]) !in hub.ledger.operations
    requires request.AckRequest? && AckTx(a, hub.tables, commandId, request, proofValid, eventId, now).1.Committed?
    requires request.grant in hub.tables.grants
    requires hub.tables.grants[request.grant].ref.device == hub.tables.stream[i].ref.device
    ensures Missed(hub.(tables := AckTx(a, hub.tables, commandId, request, proofValid, eventId, now).0), i)
  {
    hide Inv, E.LedgerOk, Fed, AckProblem, Rows.Spent;
    RevokedIsSpent(a, hub.tables, i);
    Rows.AckIsForAnother(a, hub.tables, request, proofValid, eventId, now, hub.tables.stream[i].ref);
    AckReclaims(a, hub.tables, commandId, request, proofValid, eventId, now);
  }

  lemma AckReclaims(a: Authority, s: State, commandId: Id, request: Request, proofValid: bool, eventId: Id, now: Moment)
    requires request.AckRequest? && AckTx(a, s, commandId, request, proofValid, eventId, now).1.Committed?
    ensures request.grant in s.grants
    ensures var s' := AckTx(a, s, commandId, request, proofValid, eventId, now).0;
      && Current(s'.claims, s.grants[request.grant].ref)
      && s.stream <= s'.stream
  {
    hide AckProblem, ActiveRow;
  }

  lemma {:induction false} LiftedRun(a: Authority, steps: seq<Step>)
    ensures exists lifted: seq<HubStep> :: RunHub(a, EmptyHub, lifted) == Hub(Run(a, EmptyState, steps), E.EmptyLedger)
    decreases |steps|
  {
    hide Apply;
    if steps == [] {
      assert RunHub(a, EmptyHub, []) == Hub(Run(a, EmptyState, steps), E.EmptyLedger);
    } else {
      var n := |steps| - 1;
      LiftedRun(a, steps[..n]);
      var lifted: seq<HubStep> :| RunHub(a, EmptyHub, lifted) == Hub(Run(a, EmptyState, steps[..n]), E.EmptyLedger);
      var more := lifted + [OnAdmission(steps[n])];
      assert more[..|lifted|] == lifted;
      assert RunHub(a, EmptyHub, more) == Hub(Run(a, EmptyState, steps), E.EmptyLedger);
    }
  }

  /** And it happens: a device admitted, removed and admitted again before any pass has run leaves a reachable
      state whose revocation can no longer be materialised. */
  lemma MissedIsReachable(a: Authority)
    requires a.proposalTtl > 0 && a.grantTtl > 0
    ensures exists hub :: HubReachable(a, hub) && Missed(hub, 1)
  {
    hide Run, Progress.Welcome;
    var n, m, r := Progress.Sample(a, "x"), Progress.Sample(a, "yy"), Progress.SampleRemoval(a, "z");
    Progress.SamplesAreWelcome(a, "x", "yy", "z");
    Progress.SamplesAreWelcome(a, "yy", "x", "z");
    Progress.ComesBack(a, n, m, r);
    var steps := Progress.RemovedAndBack(a, n, m, r);
    hide Progress.RemovedAndBack;
    LiftedRun(a, steps);
    var hub := Hub(Run(a, EmptyState, steps), E.EmptyLedger);
    assert HubReachable(a, hub);
    assert Missed(hub, 1);
  }

  lemma RevokedIsSpent(a: Authority, s: State, i: nat)
    requires Inv(a, s) && i < |s.stream| && s.stream[i].body.Revocation?
    ensures Rows.Spent(s.grants, s.acks, s.stream[i].ref)
  {
    hide BindingsOk, ProposalsOk, DecisionsOk, GrantsOk, LinksOk, StagesOk, ClaimsOk, DevicesOk, ResultsOk;
    hide Revisions, UpTo, Latest, TellsClaim, InOrder;
    assert HasSource(s.grants, s.acks, s.stream[i]);
    var g :| Sourced(s.grants, s.acks, s.stream[i], g);
  }

  // Clocks

  ghost function ClockAfter(steps: seq<HubStep>, clock: Moment): Moment
    decreases |steps|
  {
    if steps == [] then clock
    else
      var last := steps[|steps| - 1];
      if last.OnErase? && E.Reading(last.erase).Some? then E.Reading(last.erase).value
      else ClockAfter(steps[..|steps| - 1], clock)
  }

  /** No clock reading of the ledger's steps is earlier than the one before it. */
  ghost predicate Rising(steps: seq<HubStep>, clock: Moment)
    decreases |steps|
  {
    steps == [] ||
    var n := |steps| - 1;
    && Rising(steps[..n], clock)
    && (steps[n].OnErase? && E.Reading(steps[n].erase).Some? ==>
          ClockAfter(steps[..n], clock) <= E.Reading(steps[n].erase).value)
  }

  lemma {:induction false} RunLapsesPast(a: Authority, hub: Hub, steps: seq<HubStep>, clock: Moment)
    requires HubOk(a, hub) && E.LapsesPast(hub.ledger, clock) && Rising(steps, clock)
    ensures E.LapsesPast(RunHub(a, hub, steps).ledger, ClockAfter(steps, clock))
    decreases |steps|
  {
    hide Inv, Fed, Apply, E.LedgerOk, E.LapsesPast, E.Step, Extends;
    if steps != [] {
      var n := |steps| - 1;
      var before := RunHub(a, hub, steps[..n]);
      RunLapsesPast(a, hub, steps[..n], clock);
      RunKeepsHub(a, hub, steps[..n]);
      if steps[n].OnErase? {
        E.LapsesStayPast(before.tables.stream, before.tables.claims, before.ledger, steps[n].erase,
                         ClockAfter(steps[..n], clock));
      }
    }
  }

  // A pull among everything else

  /** What goes on between a pull's lookup and its re-arming, and between that and its delivery. */
  datatype Between = Between(first: seq<HubStep>, second: seq<HubStep>)

  datatype PullRequest = PullRequest(key: string, proofValid: bool, nonce: string, now: Moment, at: Moment, ttl: int)

  predicate Over(operation: E.Operation, now: Moment) {
    operation.state.Lapsed? || operation.command.deadline <= now
  }

  /** The Hub once the pull has re-armed the operation it saw, if it saw its attempt over. */
  ghost function RearmedHub(a: Authority, hub: Hub, o: E.OperationId, pull: PullRequest, first: seq<HubStep>): Hub
    requires o in hub.ledger.operations
  {
    var later := RunHub(a, hub, first);
    if Over(hub.ledger.operations[o], pull.now) then Advance(a, later, OnErase(E.Rearm(o, pull.now, pull.ttl)))
    else later
  }

  ghost function DeliveredHub(a: Authority, hub: Hub, o: E.OperationId, pull: PullRequest): Hub {
    Advance(a, hub, OnErase(E.Deliver(o, E.Attempt(o, pull.nonce), pull.at)))
  }

  function AnswerFrom(ledger: E.Ledger, o: E.OperationId): Option<E.EraseCommand> {
    if o !in ledger.operations || E.Ended(ledger.operations[o].state) then None
    else Some(ledger.operations[o].command)
  }

  /** A pull in its three locked sections: look up, re-arm what it saw to be over, deliver. */
  ghost function PullAmong(a: Authority, hub: Hub, o: E.OperationId, pull: PullRequest, between: Between)
    : (Hub, Result<Option<E.EraseCommand>, E.EraseProblem>)
    requires o in hub.ledger.operations
  {
    var seen := hub.ledger.operations[o];
    if !SameKey(seen.publicKey, pull.key) || !pull.proofValid then (hub, Err(E.WrongKey))
    else if E.Settled(seen.state) then (hub, Ok(None))
    else if Over(seen, pull.now) && pull.ttl <= 0 then (RunHub(a, hub, between.first), Err(E.BadTtl))
    else
      var rearmed := RearmedHub(a, hub, o, pull, between.first);
      if Over(seen, pull.now) && AnswerFrom(rearmed.ledger, o).None? then (rearmed, Ok(None))
      else
        var delivered := DeliveredHub(a, RunHub(a, rearmed, between.second), o, pull);
        (delivered, Ok(AnswerFrom(delivered.ledger, o)))
  }

  /** With nothing in between it is the pull of the ledger on its own. */
  lemma PullAlone(a: Authority, hub: Hub, o: E.OperationId, pull: PullRequest)
    requires o in hub.ledger.operations
    ensures var (after, answer) := PullAmong(a, hub, o, pull, Between([], []));
      && (after.ledger, answer)
           == E.Pull(hub.ledger, Some(o), pull.key, pull.proofValid, pull.nonce, pull.now, pull.at, pull.ttl)
      && after.tables == hub.tables
  {
    var seen := hub.ledger.operations[o];
    var rearmed := if Over(seen, pull.now) then E.Rearmed(seen, pull.now, pull.ttl) else seen;
    var delivered := E.DeliveredAt(rearmed, E.Attempt(o, pull.nonce), pull.at);
    assert hub.ledger.operations[o := rearmed][o := delivered] == hub.ledger.operations[o := delivered];
    assert hub.ledger.operations[o := seen] == hub.ledger.operations;
    assert RunHub(a, hub, []) == hub;
    if Over(seen, pull.now) && pull.ttl > 0 && !E.Settled(seen.state) {
      var again := RearmedHub(a, hub, o, pull, []);
      assert again.ledger.operations == hub.ledger.operations[o := rearmed];
      assert RunHub(a, again, []) == again;
    }
    hide E.Rearmed, E.DeliveredAt, SameKey;
  }

  // The deadline of an unsettled operation

  /** While an operation is unsettled its deadline does not move back. */
  ghost predicate DeadlinesHold(ledger: E.Ledger, ledger': E.Ledger) {
    forall o :: o in ledger.operations && o in ledger'.operations ==>
      ledger'.operations[o].deadline >= ledger.operations[o].deadline
  }

  lemma StepHoldsDeadlines(hub: Hub, erase: E.EraseStep, clock: Moment)
    requires E.LedgerOk(hub.ledger) && E.LapsesPast(hub.ledger, clock)
    requires E.Reading(erase).Some? ==> clock <= E.Reading(erase).value
    ensures DeadlinesHold(hub.ledger, E.Step(hub.tables.stream, hub.tables.claims, hub.ledger, erase))
  {
    hide E.LedgerOk;
    if erase.Materialize? && erase.ttl > 0 {
      var all := E.MaterializeAll(hub.ledger.operations, hub.tables.claims, hub.tables.stream, erase.ttl);
      if all.Ok? { E.MaterializeKeeps(hub.ledger, hub.tables.claims, hub.tables.stream, erase.ttl); }
    }
  }

  /** Over any run whose clock readings rise deadlines only rise. */
  lemma {:induction false} RunHoldsDeadlines(a: Authority, hub: Hub, steps: seq<HubStep>, clock: Moment)
    requires HubOk(a, hub) && E.LapsesPast(hub.ledger, clock) && Rising(steps, clock)
    ensures DeadlinesHold(hub.ledger, RunHub(a, hub, steps).ledger)
    decreases |steps|
  {
    hide Inv, Fed, Apply, E.LedgerOk, E.LapsesPast, E.Step, Extends, OperationsStay, EvidenceGrown;
    if steps != [] {
      var n := |steps| - 1;
      var before := RunHub(a, hub, steps[..n]);
      RunHoldsDeadlines(a, hub, steps[..n], clock);
      RunLapsesPast(a, hub, steps[..n], clock);
      RunKeepsHub(a, hub, steps[..n]);
      assert forall o :: o in hub.ledger.operations ==> o in before.ledger.operations by {
        RunKeepsOperations(a, hub, steps[..n]);
        OperationsThere(hub.ledger, before.ledger);
      }
      if steps[n].OnErase? { StepHoldsDeadlines(before, steps[n].erase, ClockAfter(steps[..n], clock)); }
    }
  }

  lemma OperationsThere(ledger: E.Ledger, ledger': E.Ledger)
    requires OperationsStay(ledger, ledger')
    ensures forall o :: o in ledger.operations ==> o in ledger'.operations
    ensures forall o :: o in ledger.operations && E.Settled(ledger.operations[o].state) ==>
      ledger'.operations[o] == ledger.operations[o]
  {
  }

  /** Re-arming with a clock reading from before the lock was taken still leaves every lapse in the past, and an
      unsettled operation running with its deadline behind that reading. */
  lemma LateRearm(hub: Hub, o: E.OperationId, now: Moment, ttl: int, clock: Moment)
    requires E.LapsesPast(hub.ledger, clock) && o in hub.ledger.operations && ttl > 0
    ensures var after := E.Step(hub.tables.stream, hub.tables.claims, hub.ledger, E.Rearm(o, now, ttl));
      && E.LapsesPast(after, clock) && o in after.operations
      && (E.Settled(after.operations[o].state) <==> E.Settled(hub.ledger.operations[o].state))
      && (!E.Settled(after.operations[o].state) ==>
            !E.Ended(after.operations[o].state) && after.operations[o].deadline > now)
  {
  }

  /** What delivery hands out: nothing when the operation is settled or past its deadline, else its command. */
  lemma DeliveryAnswers(a: Authority, hub: Hub, o: E.OperationId, pull: PullRequest, clock: Moment)
    requires HubOk(a, hub) && E.LapsesPast(hub.ledger, clock) && clock <= pull.at && o in hub.ledger.operations
    ensures var row := hub.ledger.operations[o];
      var answer := AnswerFrom(DeliveredHub(a, hub, o, pull).ledger, o);
      && (answer.None? <==> E.Settled(row.state) || row.deadline <= pull.at)
      && (answer.Some? ==> answer.value == E.EraseCommand(o, o.ref, row.deadline) && row.deadline > pull.at)
  {
    hide Inv, Fed, E.SettledByEvidence;
    assert E.Consistent(o, hub.ledger.operations[o]);
  }

  /** The readings of a pull and of what goes on around it, each no earlier than the ones before it; the
      re-arming uses the one taken before `first`. */
  ghost predicate ReadingsRise(pull: PullRequest, between: Between, clock: Moment) {
    && clock <= pull.now && Rising(between.first, pull.now)
    && Rising(between.second, ClockAfter(between.first, pull.now))
    && ClockAfter(between.second, ClockAfter(between.first, pull.now)) <= pull.at
  }

  lemma LaterClock(ledger: E.Ledger, clock: Moment, now: Moment)
    requires E.LapsesPast(ledger, clock) && clock <= now
    ensures E.LapsesPast(ledger, now)
  {
  }

  /** After the second section: the Hub is sound, its lapses are past, and the operation is settled exactly if it
      was settled before, else it has a deadline later than the first reading. */
  lemma AfterRearming(a: Authority, hub: Hub, o: E.OperationId, pull: PullRequest, first: seq<HubStep>)
    requires HubOk(a, hub) && o in hub.ledger.operations && pull.ttl > 0
    requires E.LapsesPast(hub.ledger, pull.now) && Rising(first, pull.now)
    ensures var rearmed := RearmedHub(a, hub, o, pull, first);
      && HubOk(a, rearmed) && o in rearmed.ledger.operations
      && E.LapsesPast(rearmed.ledger, ClockAfter(first, pull.now))
      && (E.Settled(hub.ledger.operations[o].state) ==> E.Settled(rearmed.ledger.operations[o].state))
      && (!E.Settled(rearmed.ledger.operations[o].state) ==>
            && rearmed.ledger.operations[o].deadline > pull.now
            && (Over(hub.ledger.operations[o], pull.now) ==> !E.Ended(rearmed.ledger.operations[o].state)))
  {
    hide Inv, Fed, RunHub, E.LapsesPast, Extends, E.Rearmed, E.SettledByEvidence, Rising;
    assert E.Consistent(o, hub.ledger.operations[o]);
    hide HubOk;
    RunKeepsHub(a, hub, first);
    RunLapsesPast(a, hub, first, pull.now);
    RunKeepsOperations(a, hub, first);
    RunHoldsDeadlines(a, hub, first, pull.now);
    var later := RunHub(a, hub, first);
    OperationsThere(hub.ledger, later.ledger);
    hide OperationsStay, EvidenceGrown;
    if Over(hub.ledger.operations[o], pull.now) {
      AdvanceKeeps(a, later, OnErase(E.Rearm(o, pull.now, pull.ttl)));
      LateRearm(later, o, pull.now, pull.ttl, ClockAfter(first, pull.now));
    }
  }

  lemma SoundRun(a: Authority, steps: seq<HubStep>, start: Moment)
    requires Rising(steps, start)
    ensures HubOk(a, RunHub(a, EmptyHub, steps))
    ensures E.LapsesPast(RunHub(a, EmptyHub, steps).ledger, ClockAfter(steps, start))
  {
    hide Inv, Fed, RunHub, E.LedgerOk, E.LapsesPast, Extends;
    assert HubOk(a, EmptyHub) && E.LapsesPast(E.EmptyLedger, start) by {
      InvEmpty(a);
      EmptyFed(a, start);
    }
    RunKeepsHub(a, EmptyHub, steps);
    RunLapsesPast(a, EmptyHub, steps, start);
  }

  lemma SoundPull(a: Authority, hub: Hub, clock: Moment, o: E.OperationId, pull: PullRequest, between: Between)
    requires HubOk(a, hub) && E.LapsesPast(hub.ledger, clock) && ReadingsRise(pull, between, clock)
    requires o in hub.ledger.operations && !E.Settled(hub.ledger.operations[o].state)
    requires SameKey(hub.ledger.operations[o].publicKey, pull.key) && pull.proofValid && pull.ttl > 0
    ensures PullOutcome(a, hub, o, pull, between)
  {
    hide HubOk, RunHub, E.Settled, E.LapsesPast, RearmedHub, DeliveredHub, Rising, ClockAfter;
    LaterClock(hub.ledger, clock, pull.now);
    AfterRearming(a, hub, o, pull, between.first);
    var rearmed := RearmedHub(a, hub, o, pull, between.first);
    var delivering := RunHub(a, rearmed, between.second);
    var c := ClockAfter(between.first, pull.now);
    RunKeepsHub(a, rearmed, between.second);
    RunLapsesPast(a, rearmed, between.second, c);
    RunHoldsDeadlines(a, rearmed, between.second, c);
    RunKeepsOperations(a, rearmed, between.second);
    OperationsThere(rearmed.ledger, delivering.ledger);
    hide OperationsStay, EvidenceGrown, Extends;
    DeliveryAnswers(a, delivering, o, pull, ClockAfter(between.second, c));
  }

  /** Nothing exactly when the operation is settled, or past the deadline it has, as its delivery comes; else its
      command with that deadline, still to come. That deadline is no earlier than the one the re-arming left, which
      is later than the first reading. */
  ghost predicate PullOutcome(a: Authority, hub: Hub, o: E.OperationId, pull: PullRequest, between: Between)
    requires o in hub.ledger.operations
  {
    var rearmed := RearmedHub(a, hub, o, pull, between.first);
    var delivering := RunHub(a, rearmed, between.second);
    var answer := PullAmong(a, hub, o, pull, between).1;
    && o in rearmed.ledger.operations && o in delivering.ledger.operations
    && var row := delivering.ledger.operations[o];
       && answer.Ok?
       && (answer.value.None? <==> E.Settled(row.state) || row.deadline <= pull.at)
       && (answer.value.Some? ==>
             answer.value.value == E.EraseCommand(o, o.ref, row.deadline) && row.deadline > pull.at)
       && (!E.Settled(row.state) ==> row.deadline >= rearmed.ledger.operations[o].deadline > pull.now)
  }

  /** The erase instruction never lapses: after any run, with anything at all between the pull's three locked
      sections and clock readings that rise, only a settlement, or a delivery too late even for the deadline the
      re-arming left, makes a proved pull of an unsettled operation come back empty. */
  lemma ProvedPullYieldsCommand(a: Authority, steps: seq<HubStep>, start: Moment, o: E.OperationId, pull: PullRequest,
                                between: Between)
    requires Rising(steps, start) && ReadingsRise(pull, between, ClockAfter(steps, start))
    requires o in RunHub(a, EmptyHub, steps).ledger.operations
    requires var operation := RunHub(a, EmptyHub, steps).ledger.operations[o];
      !E.Settled(operation.state) && SameKey(operation.publicKey, pull.key) && pull.proofValid && pull.ttl > 0
    ensures PullOutcome(a, RunHub(a, EmptyHub, steps), o, pull, between)
  {
    hide HubOk, RunHub, E.LapsesPast, PullOutcome;
    SoundRun(a, steps, start);
    SoundPull(a, RunHub(a, EmptyHub, steps), ClockAfter(steps, start), o, pull, between);
  }

  /** With nothing in between and one clock reading a proved pull always yields its command. */
  lemma LonePullYieldsCommand(a: Authority, steps: seq<HubStep>, start: Moment, o: E.OperationId, pull: PullRequest)
    requires Rising(steps, start) && ClockAfter(steps, start) <= pull.now == pull.at
    requires o in RunHub(a, EmptyHub, steps).ledger.operations
    requires var operation := RunHub(a, EmptyHub, steps).ledger.operations[o];
      !E.Settled(operation.state) && SameKey(operation.publicKey, pull.key) && pull.proofValid && pull.ttl > 0
    ensures var answer := PullAmong(a, RunHub(a, EmptyHub, steps), o, pull, Between([], [])).1;
      && answer.Ok? && answer.value.Some?
      && answer.value.value.operation == o && answer.value.value.ref == o.ref && answer.value.value.deadline > pull.now
  {
    var hub := RunHub(a, EmptyHub, steps);
    SoundRun(a, steps, start);
    PullAlone(a, hub, o, pull);
    assert E.LedgerOk(hub.ledger) by { hide Inv, Fed; }
    hide RunHub, HubOk, PullAmong, E.LapsesPast, E.LedgerOk, E.Pull, Rising, ClockAfter;
    E.PullYieldsCommand(hub.ledger, o, pull.key, pull.nonce, pull.now, pull.at, pull.ttl, ClockAfter(steps, start));
  }

  lemma EmptyFed(a: Authority, start: Moment)
    ensures E.LedgerOk(E.EmptyLedger) && Fed(EmptyHub) && E.LapsesPast(E.EmptyLedger, start)
  {
  }
}
