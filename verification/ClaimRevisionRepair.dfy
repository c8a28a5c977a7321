/** The startup repair of Claim histories whose re-activations were stamped revision 1, and both
    ways such a history was ever numbered. */
module ClaimRevisionRepair {
  import opened Prelude
  import opened AdmissionDomain
  import opened AdmissionTables
  import opened AdmissionCommands
  import opened AdmissionInvariant
  import opened AdmissionPreservation
  import opened AdmissionHistory
  import opened AdmissionTheorems
  import Progress = AdmissionProgress

  /** An outbox row: the event and the revision column beside it. */
  datatype Copy = Copy(event: ClaimEvent, revision: nat)

  /** Events are numbered per Owner Domain and device. */
  datatype Subject = Subject(domain: Id, device: DeviceId)

  function SubjectOf(event: ClaimEvent): Subject {
    Subject(event.ref.domain, event.ref.device)
  }

  /** Generations compare as tuples: domain, then Claim, then trust epoch. */
  predicate Newer(a: DeviceRef, b: DeviceRef) {
    || a.domainGeneration > b.domainGeneration
    || (a.domainGeneration == b.domainGeneration
        && (a.claimGeneration > b.claimGeneration
            || (a.claimGeneration == b.claimGeneration && a.trustEpoch > b.trustEpoch)))
  }

  // The numbers a history should carry

  /** The stream positions below n of one subject's events. */
  ghost function Positions(stream: seq<ClaimEvent>, subject: Subject, n: nat): (r: seq<nat>)
    requires n <= |stream|
    ensures forall k :: 0 <= k < |r| ==> r[k] < n && SubjectOf(stream[r[k]]) == subject
  {
    if n == 0 then []
    else Positions(stream, subject, n - 1) + (if SubjectOf(stream[n - 1]) == subject then [n - 1] else [])
  }

  ghost function Before(stream: seq<ClaimEvent>, i: nat): (r: Option<nat>)
    requires i < |stream|
    ensures r.Some? ==> r.value < i && SubjectOf(stream[r.value]) == SubjectOf(stream[i])
  {
    var earlier := Positions(stream, SubjectOf(stream[i]), i);
    if earlier == [] then None else Some(earlier[|earlier| - 1])
  }

  /** The revision an event ends up with: its own when that moves on, else one more than the event before it. */
  ghost function NewRevision(stream: seq<ClaimEvent>, i: nat): nat
    requires i < |stream|
    decreases i, 1
  {
    var previous := PreviousRevision(stream, i);
    if stream[i].revision > previous then stream[i].revision else previous + 1
  }

  ghost function PreviousRevision(stream: seq<ClaimEvent>, i: nat): nat
    requires i < |stream|
    decreases i, 0
  {
    if Before(stream, i).None? then 0 else NewRevision(stream, Before(stream, i).value)
  }

  /** Either the revision moves on, or this is the one known bug: a re-activation stamped 1 at a newer generation. */
  ghost predicate Explained(stream: seq<ClaimEvent>, i: nat)
    requires i < |stream|
  {
    || stream[i].revision > PreviousRevision(stream, i)
    || (stream[i].body.Activation? && stream[i].revision == 1
        && Before(stream, i).Some? && Newer(stream[i].ref, stream[Before(stream, i).value].ref))
  }

  ghost predicate Misnumbered(stream: seq<ClaimEvent>, i: nat)
    requires i < |stream|
  {
    NewRevision(stream, i) != stream[i].revision
  }

  ghost function Repaired(stream: seq<ClaimEvent>, i: nat): ClaimEvent
    requires i < |stream|
  {
    stream[i].(revision := NewRevision(stream, i))
  }

  ghost function RepairedStream(stream: seq<ClaimEvent>): (r: seq<ClaimEvent>)
    ensures |r| == |stream|
  {
    seq(|stream|, i requires 0 <= i < |stream| => Repaired(stream, i))
  }

  ghost function LastOf(stream: seq<ClaimEvent>, subject: Subject): Option<nat> {
    var all := Positions(stream, subject, |stream|);
    if all == [] then None else Some(all[|all| - 1])
  }

  /** The Claim row agrees with the last event of a history about to be renumbered. */
  ghost predicate ClaimAgrees(stream: seq<ClaimEvent>, claims: map<DeviceId, Claim>, i: nat)
    requires i < |stream|
  {
    var last := LastOf(stream, SubjectOf(stream[i]));
    && stream[i].ref.device in claims
    && last.Some? && last.value < |stream| && claims[stream[i].ref.device].revision == NewRevision(stream, last.value)
  }

  ghost predicate CopyAgrees(stream: seq<ClaimEvent>, outbox: map<Id, Copy>, i: nat)
    requires i < |stream|
  {
    stream[i].id in outbox && outbox[stream[i].id].event == stream[i]
  }

  ghost predicate Repairable(stream: seq<ClaimEvent>, outbox: map<Id, Copy>, claims: map<DeviceId, Claim>) {
    && (forall i :: 0 <= i < |stream| ==> Explained(stream, i))
    && (forall i :: 0 <= i < |stream| && Misnumbered(stream, i) ==> ClaimAgrees(stream, claims, i))
    && (forall i :: 0 <= i < |stream| && Misnumbered(stream, i) ==> CopyAgrees(stream, outbox, i))
  }

  ghost predicate DistinctIds(stream: seq<ClaimEvent>) {
    forall i, j :: 0 <= i < j < |stream| ==> stream[i].id != stream[j].id
  }

  /** Exactly the events at these positions have been rewritten, in the stream and in the outbox. */
  ghost predicate Rewritten(before: seq<ClaimEvent>, copies: map<Id, Copy>, touched: set<nat>,
                            stream: seq<ClaimEvent>, outbox: map<Id, Copy>)
  {
    && (forall i :: i in touched ==> i < |before|)
    && |stream| == |before| && outbox.Keys == copies.Keys
    && (forall i :: 0 <= i < |before| ==> stream[i] == if i in touched then Repaired(before, i) else before[i])
    && (forall i :: i in touched && before[i].id in copies ==>
          outbox[before[i].id] == Copy(Repaired(before, i), NewRevision(before, i)))
    && (forall id :: id in copies && (forall i :: i in touched ==> before[i].id != id) ==> outbox[id] == copies[id])
  }

  ghost function MisnumberedSet(stream: seq<ClaimEvent>): set<nat> {
    set i: nat | i < |stream| && Misnumbered(stream, i)
  }

  // Positions of one subject

  lemma {:induction false} PositionsPrefix(stream: seq<ClaimEvent>, subject: Subject, n: nat, k: nat)
    requires n <= |stream| && k < |Positions(stream, subject, n)|
    ensures Positions(stream, subject, Positions(stream, subject, n)[k]) == Positions(stream, subject, n)[..k]
  {
    var before := Positions(stream, subject, n - 1);
    if k < |before| {
      PositionsPrefix(stream, subject, n - 1, k);
      assert Positions(stream, subject, n)[..k] == before[..k];
    } else {
      assert Positions(stream, subject, n)[..k] == before;
    }
  }

  lemma {:induction false} PositionsComplete(stream: seq<ClaimEvent>, subject: Subject, n: nat, i: nat)
    requires n <= |stream| && i < n && SubjectOf(stream[i]) == subject
    ensures exists k :: 0 <= k < |Positions(stream, subject, n)| && Positions(stream, subject, n)[k] == i
  {
    var all := Positions(stream, subject, n);
    if i == n - 1 {
      assert all[|all| - 1] == i;
    } else {
      PositionsComplete(stream, subject, n - 1, i);
      var before := Positions(stream, subject, n - 1);
      var k :| 0 <= k < |before| && before[k] == i;
      assert all[k] == i;
    }
  }

  /** Walking a history in order, the event before is the one just visited. */
  lemma BeforeInHistory(stream: seq<ClaimEvent>, subject: Subject, k: nat)
    requires k < |Positions(stream, subject, |stream|)|
    ensures var history := Positions(stream, subject, |stream|);
      Before(stream, history[k]) == if k == 0 then None else Some(history[k - 1])
  {
    PositionsPrefix(stream, subject, |stream|, k);
  }

  /** Between an event and the one before it there is no other event of its subject. */
  lemma {:induction false} NothingBetween(stream: seq<ClaimEvent>, i: nat, j: nat)
    requires j < i < |stream| && SubjectOf(stream[j]) == SubjectOf(stream[i])
    ensures Before(stream, i).Some? && j <= Before(stream, i).value
  {
    PositionsComplete(stream, SubjectOf(stream[i]), i, j);
    PositionsAscend(stream, SubjectOf(stream[i]), i);
  }

  lemma {:induction false} PositionsAscend(stream: seq<ClaimEvent>, subject: Subject, n: nat)
    requires n <= |stream|
    ensures forall k, l :: 0 <= k < l < |Positions(stream, subject, n)| ==>
      Positions(stream, subject, n)[k] < Positions(stream, subject, n)[l]
  {
    if n > 0 { PositionsAscend(stream, subject, n - 1); }
  }

  // What a repair leaves

  /** Each subject's revisions strictly ascend after the repair. */
  lemma {:induction false} RepairAscends(stream: seq<ClaimEvent>, i: nat, j: nat)
    requires i < j < |stream| && SubjectOf(stream[i]) == SubjectOf(stream[j])
    ensures RepairedStream(stream)[i].revision < RepairedStream(stream)[j].revision
    decreases j
  {
    NothingBetween(stream, j, i);
    var b := Before(stream, j).value;
    assert NewRevision(stream, j) > PreviousRevision(stream, j) == NewRevision(stream, b);
    assert RepairedStream(stream)[j] == Repaired(stream, j) && RepairedStream(stream)[b] == Repaired(stream, b);
    if i < b { RepairAscends(stream, i, b); }
  }

  /** Nothing but the revision of re-activations stamped 1 changes: order, ids and contents stay. */
  lemma RepairTouchesResetsOnly(stream: seq<ClaimEvent>, outbox: map<Id, Copy>, claims: map<DeviceId, Claim>, i: nat)
    requires Repairable(stream, outbox, claims) && i < |stream|
    ensures RepairedStream(stream)[i] == stream[i].(revision := RepairedStream(stream)[i].revision)
    ensures RepairedStream(stream)[i] != stream[i] ==>
      && stream[i].body.Activation? && stream[i].revision == 1
      && Before(stream, i).Some? && Newer(stream[i].ref, stream[Before(stream, i).value].ref)
  {
    assert Explained(stream, i);
  }

  lemma {:induction false} SamePositions(stream: seq<ClaimEvent>, stream': seq<ClaimEvent>, subject: Subject, n: nat)
    requires |stream'| == |stream| && n <= |stream|
    requires forall i :: 0 <= i < |stream| ==> stream'[i].ref == stream[i].ref
    ensures Positions(stream', subject, n) == Positions(stream, subject, n)
  {
    if n > 0 { SamePositions(stream, stream', subject, n - 1); }
  }

  lemma {:induction false} SecondRepairKeeps(stream: seq<ClaimEvent>, i: nat)
    requires i < |stream|
    ensures NewRevision(RepairedStream(stream), i) == NewRevision(stream, i)
    ensures PreviousRevision(RepairedStream(stream), i) == PreviousRevision(stream, i)
    decreases i
  {
    var stream' := RepairedStream(stream);
    SamePositions(stream, stream', SubjectOf(stream[i]), i);
    if Before(stream, i).Some? { SecondRepairKeeps(stream, Before(stream, i).value); }
  }

  /** A second repair accepts what the first one left, whatever else is in the tables, and changes nothing. */
  lemma RepairIsIdempotent(stream: seq<ClaimEvent>, outbox: map<Id, Copy>, claims: map<DeviceId, Claim>)
    ensures Repairable(RepairedStream(stream), outbox, claims)
    ensures RepairedStream(RepairedStream(stream)) == RepairedStream(stream)
  {
    var stream' := RepairedStream(stream);
    forall i: nat | i < |stream|
      ensures !Misnumbered(stream', i) && Explained(stream', i) && Repaired(stream', i) == stream'[i]
    {
      assert stream'[i] == Repaired(stream, i);
      SecondRepairKeeps(stream, i);
    }
    assert RepairedStream(stream') == stream';
  }

  // The two producers

  /** Position of an event among its subject's events, from 1. */
  ghost function Rank(stream: seq<ClaimEvent>, i: nat): nat
    requires i < |stream|
  {
    |Positions(stream, SubjectOf(stream[i]), i)| + 1
  }

  /** The stream a producer writes for a history, and the revision each Claim row ends with. The row
      counts every event; the legacy producer stamped activations 1 all the same. */
  ghost function Produced(history: seq<ClaimEvent>, legacy: bool): (r: (seq<ClaimEvent>, map<DeviceId, nat>))
    ensures |r.0| == |history|
    decreases |history|
  {
    if history == [] then ([], map[])
    else
      var (stream, rows) := Produced(history[..|history| - 1], legacy);
      var event := history[|history| - 1];
      var revision := (if event.ref.device in rows then rows[event.ref.device] else 0) + 1;
      var stamped := if legacy && event.body.Activation? then 1 else revision;
      (stream + [event.(revision := stamped)], rows[event.ref.device := revision])
  }

  ghost predicate OneDomain(history: seq<ClaimEvent>, domain: Id) {
    forall i :: 0 <= i < |history| ==> history[i].ref.domain == domain
  }

  /** Every activation after a subject's first event is at a newer generation than the event before it. */
  ghost predicate ReauthorizationsAdvance(history: seq<ClaimEvent>) {
    forall i :: 0 <= i < |history| ==> Advances(history, i)
  }

  ghost predicate Advances(history: seq<ClaimEvent>, i: nat)
    requires i < |history|
  {
    history[i].body.Activation? && Before(history, i).Some? ==>
      Newer(history[i].ref, history[Before(history, i).value].ref)
  }

  lemma {:induction false} PositionsOfPrefix(stream: seq<ClaimEvent>, subject: Subject, n: nat, m: nat)
    requires m <= n <= |stream|
    ensures Positions(stream[..n], subject, m) == Positions(stream, subject, m)
  {
    if m > 0 { PositionsOfPrefix(stream, subject, n, m - 1); }
  }

  ghost function Stamped(history: seq<ClaimEvent>, legacy: bool, i: nat): ClaimEvent
    requires i < |history|
  {
    history[i].(revision := if legacy && history[i].body.Activation? then 1 else Rank(history, i))
  }

  ghost function RowCount(rows: map<DeviceId, nat>, device: DeviceId): nat {
    if device in rows then rows[device] else 0
  }

  ghost predicate CountsAll(history: seq<ClaimEvent>, domain: Id, rows: map<DeviceId, nat>) {
    forall d :: RowCount(rows, d) == |Positions(history, Subject(domain, d), |history|)|
  }

  /** A producer numbers each event by its place in its device's history. */
  lemma {:induction false} ProducedRanks(history: seq<ClaimEvent>, legacy: bool, domain: Id)
    requires OneDomain(history, domain)
    ensures forall i :: 0 <= i < |history| ==> Produced(history, legacy).0[i] == Stamped(history, legacy, i)
    ensures CountsAll(history, domain, Produced(history, legacy).1)
    decreases |history|
  {
    hide Positions;
    if history == [] {
      forall d ensures Positions(history, Subject(domain, d), 0) == [] { NoPositions(history, Subject(domain, d)); }
    } else {
      var n := |history| - 1;
      var earlier := history[..n];
      ProducedRanks(earlier, legacy, domain);
      forall i: nat | i < n ensures Stamped(earlier, legacy, i) == Stamped(history, legacy, i) {
        PositionsOfPrefix(history, SubjectOf(history[i]), n, i);
      }
      forall d
        ensures |Positions(history, Subject(domain, d), n + 1)|
             == |Positions(earlier, Subject(domain, d), n)| + if d == history[n].ref.device then 1 else 0
      {
        PositionsOfPrefix(history, Subject(domain, d), n, n);
        NextPosition(history, Subject(domain, d), n);
      }
      PositionsOfPrefix(history, SubjectOf(history[n]), n, n);
      assert RowCount(Produced(earlier, legacy).1, history[n].ref.device)
        == |Positions(earlier, SubjectOf(history[n]), n)|;
    }
  }

  lemma NoPositions(history: seq<ClaimEvent>, subject: Subject)
    ensures Positions(history, subject, 0) == []
  {
  }

  lemma NextPosition(history: seq<ClaimEvent>, subject: Subject, n: nat)
    requires n < |history|
    ensures Positions(history, subject, n + 1)
         == Positions(history, subject, n) + if SubjectOf(history[n]) == subject then [n] else []
  {
  }

  /** Walking back, the event before has the rank before. */
  lemma RankBefore(history: seq<ClaimEvent>, i: nat)
    requires i < |history|
    ensures Rank(history, i) == if Before(history, i).Some? then Rank(history, Before(history, i).value) + 1 else 1
  {
    if Before(history, i).Some? {
      PositionsPrefix(history, SubjectOf(history[i]), i, |Positions(history, SubjectOf(history[i]), i)| - 1);
    }
  }

  /** Repairing counts a legacy history as the present producer counts it. */
  lemma {:induction false} LegacyRank(history: seq<ClaimEvent>, legacy: seq<ClaimEvent>, i: nat)
    requires |legacy| == |history| && forall j :: 0 <= j < |history| ==> legacy[j] == Stamped(history, true, j)
    requires i < |history|
    ensures NewRevision(legacy, i) == Rank(history, i)
    ensures PreviousRevision(legacy, i) == Rank(history, i) - 1
    ensures Before(legacy, i) == Before(history, i)
    decreases i
  {
    hide Positions;
    SamePositions(history, legacy, SubjectOf(history[i]), i);
    RankBefore(history, i);
    assert legacy[i] == Stamped(history, true, i);
    if Before(history, i).Some? {
      LegacyRank(history, legacy, Before(history, i).value);
    }
  }

  /** A legacy history is repaired exactly when its re-activations advance, and then into what the
      present producer writes. */
  lemma RepairRefinesProducer(history: seq<ClaimEvent>, domain: Id, outbox: map<Id, Copy>, claims: map<DeviceId, Claim>)
    requires OneDomain(history, domain)
    requires forall i :: 0 <= i < |history| ==> CopyAgrees(Produced(history, true).0, outbox, i)
    requires forall d :: d in Produced(history, true).1 ==>
      d in claims && claims[d].revision == Produced(history, true).1[d]
    ensures Repairable(Produced(history, true).0, outbox, claims) <==> ReauthorizationsAdvance(history)
    ensures RepairedStream(Produced(history, true).0) == Produced(history, false).0
  {
    hide Positions, Produced, NewRevision, PreviousRevision, Before;
    var (legacy, rows) := Produced(history, true);
    ProducedRanks(history, true, domain);
    ProducedRanks(history, false, domain);
    forall i: nat | i < |history|
      ensures Repaired(legacy, i) == Stamped(history, false, i)
      ensures ClaimAgrees(legacy, claims, i)
      ensures Explained(legacy, i) <==> Advances(history, i)
    {
      assert legacy[i] == Stamped(history, true, i);
      LegacyRank(history, legacy, i);
      if Before(history, i).Some? {
        assert legacy[Before(history, i).value] == Stamped(history, true, Before(history, i).value);
      }
      RankBefore(history, i);
      RowsAgree(history, legacy, rows, domain, i, claims);
    }
  }

  lemma RowsAgree(history: seq<ClaimEvent>, legacy: seq<ClaimEvent>, rows: map<DeviceId, nat>, domain: Id, i: nat,
                  claims: map<DeviceId, Claim>)
    requires OneDomain(history, domain) && i < |history| && CountsAll(history, domain, rows)
    requires |legacy| == |history| && forall j :: 0 <= j < |history| ==> legacy[j] == Stamped(history, true, j)
    requires forall d :: d in rows ==> d in claims && claims[d].revision == rows[d]
    ensures ClaimAgrees(legacy, claims, i)
  {
    hide Positions, NewRevision, PreviousRevision;
    var subject := SubjectOf(history[i]);
    assert legacy[i] == Stamped(history, true, i);
    SamePositions(history, legacy, subject, |history|);
    PositionsComplete(history, subject, |history|, i);
    var all := Positions(history, subject, |history|);
    var last := all[|all| - 1];
    LegacyRank(history, legacy, last);
    PositionsPrefix(history, subject, |history|, |all| - 1);
    assert RowCount(rows, history[i].ref.device) == |all|;
  }

  // Admission histories

  /** The revisions read off the stream are those at the subject's positions. */
  lemma {:induction false} RevisionsAtPositions(stream: seq<ClaimEvent>, subject: Subject, n: nat, k: nat)
    requires n <= |stream| && OneDomain(stream, subject.domain)
    ensures |Revisions(stream[..n], subject.device)| == |Positions(stream, subject, n)|
    ensures k < |Positions(stream, subject, n)| ==>
      Revisions(stream[..n], subject.device)[k] == stream[Positions(stream, subject, n)[k]].revision
  {
    if n > 0 {
      RevisionsAtPositions(stream, subject, n - 1, k);
      assert stream[..n][..n - 1] == stream[..n - 1];
    }
  }

  lemma EventsInDomain(a: Authority, s: State)
    requires Reachable(a, s)
    ensures OneDomain(s.stream, a.domain)
  {
    hide BindingsOk, ProposalsOk, DecisionsOk, GrantsOk, LinksOk, StagesOk, ClaimsOk, DevicesOk, ResultsOk, Extends,
      Reachable;
    hide Revisions, UpTo, TellsClaim, Latest, InOrder;
    ReachableKeeps(a, s);
    forall i | 0 <= i < |s.stream| ensures s.stream[i].ref.domain == a.domain {
      assert HasSource(s.grants, s.acks, s.stream[i]);
      var g :| Sourced(s.grants, s.acks, s.stream[i], g);
      GrantFacts(a, s.proposals, s.decisions, s.grants, g);
    }
  }

  /** In every reachable state an event carries its rank, and the Claim row the rank of its last event. */
  lemma RevisionIsRank(a: Authority, s: State, i: nat)
    requires Reachable(a, s) && i < |s.stream|
    ensures s.stream[i].revision == Rank(s.stream, i)
  {
    hide Reachable, Revisions;
    EventsInDomain(a, s);
    var subject := SubjectOf(s.stream[i]);
    var n := |s.stream|;
    PositionsComplete(s.stream, subject, n, i);
    var k :| 0 <= k < |Positions(s.stream, subject, n)| && Positions(s.stream, subject, n)[k] == i;
    PositionsPrefix(s.stream, subject, n, k);
    RevisionsAtPositions(s.stream, subject, n, k);
    assert s.stream[..n] == s.stream;
    EventsAreNumbered(a, s, subject.device);
  }

  /** What Admission writes is what the present producer writes for the same history. */
  lemma AdmissionIsPresentProducer(a: Authority, s: State)
    requires Reachable(a, s)
    ensures OneDomain(s.stream, a.domain) && Produced(s.stream, false).0 == s.stream
    ensures forall d, legacy :: RowCount(Produced(s.stream, legacy).1, d) == CurrentRevision(s.claims, d)
  {
    hide Reachable, Positions, Produced, Revisions;
    EventsInDomain(a, s);
    forall d, legacy ensures RowCount(Produced(s.stream, legacy).1, d) == CurrentRevision(s.claims, d) {
      ProducedRanks(s.stream, legacy, a.domain);
      RevisionsAtPositions(s.stream, Subject(a.domain, d), |s.stream|, 0);
      assert s.stream[..|s.stream|] == s.stream;
      EventsAreNumbered(a, s, d);
    }
    ProducedRanks(s.stream, false, a.domain);
    forall i: nat | i < |s.stream| ensures Produced(s.stream, false).0[i] == s.stream[i] {
      RevisionIsRank(a, s, i);
      assert Produced(s.stream, false).0[i] == Stamped(s.stream, false, i);
    }
  }

  /** So the repair finds nothing to do in any state Admission reaches, whatever order Grants were
      acknowledged and revoked in. */
  lemma NothingToRepair(a: Authority, s: State, outbox: map<Id, Copy>, claims: map<DeviceId, Claim>)
    requires Reachable(a, s)
    ensures Repairable(s.stream, outbox, claims) && RepairedStream(s.stream) == s.stream
  {
    hide Reachable, Positions, NewRevision, PreviousRevision, Before, RepairedStream;
    forall i: nat | i < |s.stream| ensures !Misnumbered(s.stream, i) && Explained(s.stream, i) {
      RankIsKept(a, s, i);
    }
    UnchangedWhenNumbered(s.stream);
  }

  lemma {:induction false} RankIsKept(a: Authority, s: State, i: nat)
    requires Reachable(a, s) && i < |s.stream|
    ensures NewRevision(s.stream, i) == s.stream[i].revision > PreviousRevision(s.stream, i)
    decreases i
  {
    hide Reachable, Positions;
    RevisionIsRank(a, s, i);
    RankBefore(s.stream, i);
    if Before(s.stream, i).Some? {
      var b := Before(s.stream, i).value;
      RankIsKept(a, s, b);
      RevisionIsRank(a, s, b);
    }
  }

  lemma UnchangedWhenNumbered(stream: seq<ClaimEvent>)
    requires forall i: nat :: i < |stream| ==> !Misnumbered(stream, i)
    ensures RepairedStream(stream) == stream
  {
    forall i: nat | i < |stream| ensures RepairedStream(stream)[i] == stream[i] {
      assert !Misnumbered(stream, i);
    }
  }

  /** Had a legacy producer written a reachable history, the repair would restore it exactly when
      its re-activations advance. */
  lemma LegacyAdmissionIsRestored(a: Authority, s: State, outbox: map<Id, Copy>)
    requires Reachable(a, s)
    requires forall i :: 0 <= i < |s.stream| ==> CopyAgrees(Produced(s.stream, true).0, outbox, i)
    ensures Repairable(Produced(s.stream, true).0, outbox, s.claims) <==> ReauthorizationsAdvance(s.stream)
    ensures RepairedStream(Produced(s.stream, true).0) == s.stream
  {
    hide Reachable, Produced, Repairable, RepairedStream, CopyAgrees;
    AdmissionIsPresentProducer(a, s);
    forall d | d in Produced(s.stream, true).1
      ensures d in s.claims && s.claims[d].revision == Produced(s.stream, true).1[d]
    {
      assert RowCount(Produced(s.stream, true).1, d) == CurrentRevision(s.claims, d);
      RowsPositive(s.stream, true, d);
    }
    RepairRefinesProducer(s.stream, a.domain, outbox, s.claims);
  }

  /** And it may not: two Grants of one device acknowledged last first leave a reachable history the repair
      would refuse to restore. */
  lemma RefusalIsReachable(a: Authority)
    requires a.proposalTtl > 0 && a.grantTtl > 0
    ensures exists s :: Reachable(a, s) && !ReauthorizationsAdvance(s.stream)
  {
    hide Run, Apply, Progress.Welcome;
    var n, m := Progress.Sample(a, "x"), Progress.Sample(a, "yy");
    Progress.SamplesAreWelcome(a, "x", "yy", "z");
    Progress.SamplesAreWelcome(a, "yy", "x", "z");
    Progress.GenerationFalls(a, n, m);
    var handed := Progress.HandOverByHand(n) + Progress.HandOverByHand(m);
    var acks := [Progress.AckStep(m, Progress.RefOf(a, m, 2)), Progress.AckStep(n, Progress.RefOf(a, n, 1))];
    var s := Run(a, EmptyState, handed + acks);
    RunSplits(a, EmptyState, handed, acks);
    Progress.RunTwo(a, Run(a, EmptyState, handed), acks[0], acks[1]);
    assert Reachable(a, s);
    NotAdvancing(s.stream);
  }

  lemma NotAdvancing(stream: seq<ClaimEvent>)
    requires |stream| == 2 && stream[1].body.Activation? && SubjectOf(stream[0]) == SubjectOf(stream[1])
    requires !Newer(stream[1].ref, stream[0].ref)
    ensures !ReauthorizationsAdvance(stream)
  {
    NothingBetween(stream, 1, 0);
    assert !Advances(stream, 1);
  }

  lemma {:induction false} RowsPositive(history: seq<ClaimEvent>, legacy: bool, d: DeviceId)
    requires d in Produced(history, legacy).1
    ensures Produced(history, legacy).1[d] > 0
    decreases |history|
  {
    var earlier := history[..|history| - 1];
    if d in Produced(earlier, legacy).1 { RowsPositive(earlier, legacy, d); }
  }

  // The repair itself

  datatype RepairProblem =
    | NeedsRecovery // an ordering fault this migration has no evidence for
    | ClaimDisagrees
    | CopyDisagrees
    | RowMissing // the one row a query expected is not there

  /** A renumbering planned for one history: stream positions with their new revisions. */
  type Changes = seq<(nat, nat)>

  ghost predicate Renumbers(stream: seq<ClaimEvent>, change: (nat, nat)) {
    change.0 < |stream| && Misnumbered(stream, change.0) && change.1 == NewRevision(stream, change.0)
  }

  /** The plan holds, in order, exactly the misnumbered positions among those visited. */
  ghost predicate Planned(stream: seq<ClaimEvent>, visited: seq<nat>, changes: Changes) {
    && (forall c :: 0 <= c < |changes| ==> changes[c].0 in visited && Renumbers(stream, changes[c]))
    && (forall b, c :: 0 <= b < c < |changes| ==> changes[b].0 != changes[c].0)
    && (forall i :: i in visited && i < |stream| && Misnumbered(stream, i) ==> (i, NewRevision(stream, i)) in changes)
  }

  /** The first n rows grouped by subject, subjects in order of first appearance. */
  ghost predicate Grouped(stream: seq<ClaimEvent>, n: nat, subjects: seq<Subject>, histories: map<Subject, seq<nat>>)
    requires n <= |stream|
  {
    && (forall k :: 0 <= k < |subjects| ==> subjects[k] in histories)
    && (forall b, c :: 0 <= b < c < |subjects| ==> subjects[b] != subjects[c])
    && (forall h :: h in histories ==> h in subjects && histories[h] == Positions(stream, h, n) && histories[h] != [])
    && (forall h :: h !in histories ==> Positions(stream, h, n) == [])
  }

  lemma GroupedNone(stream: seq<ClaimEvent>)
    ensures Grouped(stream, 0, [], map[])
  {
  }

  lemma GroupNext(stream: seq<ClaimEvent>, n: nat, subjects: seq<Subject>, histories: map<Subject, seq<nat>>)
    requires n < |stream| && Grouped(stream, n, subjects, histories)
    ensures var subject := SubjectOf(stream[n]);
      if subject in histories then Grouped(stream, n + 1, subjects, histories[subject := histories[subject] + [n]])
      else Grouped(stream, n + 1, subjects + [subject], histories[subject := [n]])
  {
    hide Positions;
    forall h
      ensures Positions(stream, h, n + 1) == Positions(stream, h, n) + if SubjectOf(stream[n]) == h then [n] else []
    {
      NextPosition(stream, h, n);
    }
  }

  lemma GroupedAll(stream: seq<ClaimEvent>, subjects: seq<Subject>, histories: map<Subject, seq<nat>>)
    requires Grouped(stream, |stream|, subjects, histories)
    ensures forall i :: 0 <= i < |stream| ==> SubjectOf(stream[i]) in subjects
  {
    forall i: nat | i < |stream| ensures SubjectOf(stream[i]) in subjects {
      PositionsComplete(stream, SubjectOf(stream[i]), |stream|, i);
    }
  }

  method Histories(stream: seq<ClaimEvent>) returns (subjects: seq<Subject>, histories: map<Subject, seq<nat>>)
    ensures Grouped(stream, |stream|, subjects, histories)
  {
    hide Grouped;
    subjects, histories := [], map[];
    GroupedNone(stream);
    for n := 0 to |stream|
      invariant Grouped(stream, n, subjects, histories)
    {
      GroupNext(stream, n, subjects, histories);
      var subject := SubjectOf(stream[n]);
      if subject in histories {
        histories := histories[subject := histories[subject] + [n]];
      } else {
        subjects, histories := subjects + [subject], histories[subject := [n]];
      }
    }
  }

  /** Walk one history, counting on over re-activations that were stamped 1. */
  method Plan(stream: seq<ClaimEvent>, ghost subject: Subject, history: seq<nat>)
    returns (planned: Result<(Changes, nat), RepairProblem>)
    requires history == Positions(stream, subject, |stream|) && history != []
    ensures planned.Err? ==>
      planned.error == NeedsRecovery && exists k :: 0 <= k < |history| && !Explained(stream, history[k])
    ensures planned.Ok? ==>
      && (forall k :: 0 <= k < |history| ==> Explained(stream, history[k]))
      && Planned(stream, history, planned.value.0)
      && planned.value.1 == NewRevision(stream, history[|history| - 1])
  {
    hide Positions, NewRevision, Before, Explained, Misnumbered, Planned, Newer;
    PlannedNone(stream);
    var previous, previousRef: Option<DeviceRef>, changes: Changes := 0, None, [];
    for k := 0 to |history|
      invariant previousRef == if k == 0 then None else Some(stream[history[k - 1]].ref)
      invariant previous == if k == 0 then 0 else NewRevision(stream, history[k - 1])
      invariant forall j :: 0 <= j < k ==> Explained(stream, history[j])
      invariant Planned(stream, history[..k], changes)
    {
      VisitNext(stream, subject, k, changes);
      assert history[..k + 1] == history[..k] + [history[k]];
      var event := stream[history[k]];
      var candidate := event.revision;
      if candidate <= previous {
        if !(event.body.Activation? && event.revision == 1 && previousRef.Some?
             && Newer(event.ref, previousRef.value)) {
          return Err(NeedsRecovery);
        }
        candidate := previous + 1;
      }
      if candidate != event.revision {
        changes := changes + [(history[k], candidate)];
      }
      previous, previousRef := candidate, Some(event.ref);
    }
    assert history[..|history|] == history;
    return Ok((changes, previous));
  }

  lemma PlannedNone(stream: seq<ClaimEvent>)
    ensures Planned(stream, [], [])
  {
  }

  /** What one visit of a history works out. */
  lemma VisitNext(stream: seq<ClaimEvent>, subject: Subject, k: nat, changes: Changes)
    requires k < |Positions(stream, subject, |stream|)|
    requires Planned(stream, Positions(stream, subject, |stream|)[..k], changes)
    ensures var history := Positions(stream, subject, |stream|);
      var event := stream[history[k]];
      var previous := if k == 0 then 0 else NewRevision(stream, history[k - 1]);
      var candidate := if event.revision > previous then event.revision else previous + 1;
      && NewRevision(stream, history[k]) == candidate
      && (Explained(stream, history[k]) <==>
          event.revision > previous
          || (event.body.Activation? && event.revision == 1 && k > 0 && Newer(event.ref, stream[history[k - 1]].ref)))
      && Planned(stream, history[..k] + [history[k]],
                 if candidate != event.revision then changes + [(history[k], candidate)] else changes)
  {
    BeforeInHistory(stream, subject, k);
    var history := Positions(stream, subject, |stream|);
    hide Positions, Before;
    NewRevisionIs(stream, history[k]);
    PositionsOnce(stream, subject, k);
    PlannedNext(stream, history[..k], history[k], changes);
  }

  lemma NewRevisionIs(stream: seq<ClaimEvent>, i: nat)
    requires i < |stream|
    ensures var previous := PreviousRevision(stream, i);
      NewRevision(stream, i) == if stream[i].revision > previous then stream[i].revision else previous + 1
  {
  }

  lemma PositionsOnce(stream: seq<ClaimEvent>, subject: Subject, k: nat)
    requires k < |Positions(stream, subject, |stream|)|
    ensures Positions(stream, subject, |stream|)[k] !in Positions(stream, subject, |stream|)[..k]
  {
    PositionsAscend(stream, subject, |stream|);
  }

  lemma PlannedNext(stream: seq<ClaimEvent>, visited: seq<nat>, i: nat, changes: Changes)
    requires i < |stream| && i !in visited && Planned(stream, visited, changes)
    ensures Planned(stream, visited + [i],
                    if Misnumbered(stream, i) then changes + [(i, NewRevision(stream, i))] else changes)
  {
    hide NewRevision;
    var changes' := if Misnumbered(stream, i) then changes + [(i, NewRevision(stream, i))] else changes;
    forall j | j in visited + [i] && j < |stream| && Misnumbered(stream, j)
      ensures (j, NewRevision(stream, j)) in changes'
    {
      if j == i { assert changes'[|changes|] == (i, NewRevision(stream, i)); }
    }
  }

  lemma NothingRewritten(before: seq<ClaimEvent>, copies: map<Id, Copy>)
    ensures Rewritten(before, copies, {}, before, copies)
  {
  }

  lemma RewriteOne(before: seq<ClaimEvent>, copies: map<Id, Copy>, touched: set<nat>, stream: seq<ClaimEvent>,
                   outbox: map<Id, Copy>, i: nat)
    requires Rewritten(before, copies, touched, stream, outbox) && DistinctIds(before)
    requires i < |before| && i !in touched
    ensures before[i].id in outbox <==> before[i].id in copies
    ensures before[i].id in outbox ==> outbox[before[i].id] == copies[before[i].id]
    ensures before[i].id in outbox ==>
      Rewritten(before, copies, touched + {i}, stream[i := Repaired(before, i)],
                outbox[before[i].id := Copy(Repaired(before, i), NewRevision(before, i))])
  {
    hide Repaired, NewRevision;
    forall j | j in touched ensures before[j].id != before[i].id {
      assert i != j;
    }
  }

  /** All histories of these subjects are accounted for: repaired, or found in order. */
  ghost predicate RepairedSo(before: seq<ClaimEvent>, copies: map<Id, Copy>, claims: map<DeviceId, Claim>,
                             subjects: seq<Subject>, touched: set<nat>)
  {
    && touched == (set i: nat | i < |before| && SubjectOf(before[i]) in subjects && Misnumbered(before, i))
    && (forall i :: 0 <= i < |before| && SubjectOf(before[i]) in subjects ==>
          InOrderOrRepaired(before, copies, claims, i))
  }

  ghost predicate InOrderOrRepaired(before: seq<ClaimEvent>, copies: map<Id, Copy>, claims: map<DeviceId, Claim>,
                                    i: nat)
    requires i < |before|
  {
    Explained(before, i) && (Misnumbered(before, i) ==> ClaimAgrees(before, claims, i) && CopyAgrees(before, copies, i))
  }

  /** What a plan says about every event of its history. */
  lemma PlanCovers(before: seq<ClaimEvent>, copies: map<Id, Copy>, claims: map<DeviceId, Claim>, subject: Subject,
                   history: seq<nat>, changes: Changes, done: seq<Subject>, touched: set<nat>, touched': set<nat>)
    requires history == Positions(before, subject, |before|) && history != []
    requires (forall k :: 0 <= k < |history| ==> Explained(before, history[k])) && Planned(before, history, changes)
    requires changes != [] ==>
      subject.device in claims && claims[subject.device].revision == NewRevision(before, history[|history| - 1])
    requires forall c :: 0 <= c < |changes| ==> changes[c].0 < |before| && CopyAgrees(before, copies, changes[c].0)
    requires touched' == touched + set c | c in changes :: c.0
    requires RepairedSo(before, copies, claims, done, touched)
    ensures RepairedSo(before, copies, claims, done + [subject], touched')
  {
    hide Positions, NewRevision, Explained, Misnumbered, CopyAgrees;
    forall i: nat | i < |before| && SubjectOf(before[i]) == subject
      ensures InOrderOrRepaired(before, copies, claims, i)
        && (Misnumbered(before, i) <==> i in set c | c in changes :: c.0)
    {
      PositionsComplete(before, subject, |before|, i);
      assert i in history;
      if Misnumbered(before, i) { assert (i, NewRevision(before, i)) in changes; }
    }
    forall c | c in changes ensures SubjectOf(before[c.0]) == subject && Misnumbered(before, c.0) {
    }
  }

  lemma AllCovered(before: seq<ClaimEvent>, copies: map<Id, Copy>, claims: map<DeviceId, Claim>, subjects: seq<Subject>,
                   touched: set<nat>, stream: seq<ClaimEvent>, outbox: map<Id, Copy>)
    requires RepairedSo(before, copies, claims, subjects, touched) && Rewritten(before, copies, touched, stream, outbox)
    requires forall i :: 0 <= i < |before| ==> SubjectOf(before[i]) in subjects
    ensures Repairable(before, copies, claims) && touched == MisnumberedSet(before) && stream == RepairedStream(before)
  {
    hide Explained, ClaimAgrees, CopyAgrees, NewRevision, Rewritten;
    assert |stream| == |before|
      && forall i: nat :: i < |before| ==> stream[i] == if i in touched then Repaired(before, i) else before[i] by {
      RewrittenAt(before, copies, touched, stream, outbox);
    }
    forall i: nat | i < |before|
      ensures Explained(before, i)
      ensures (Misnumbered(before, i) ==> ClaimAgrees(before, claims, i) && CopyAgrees(before, copies, i))
    {
      assert SubjectOf(before[i]) in subjects;
      assert InOrderOrRepaired(before, copies, claims, i);
    }
    forall i: nat ensures i in touched <==> i in MisnumberedSet(before) {
    }
    forall i: nat | i < |before| ensures stream[i] == RepairedStream(before)[i] {
      assert i !in touched ==> !Misnumbered(before, i);
    }
  }

  lemma RewrittenAt(before: seq<ClaimEvent>, copies: map<Id, Copy>, touched: set<nat>, stream: seq<ClaimEvent>,
                    outbox: map<Id, Copy>)
    requires Rewritten(before, copies, touched, stream, outbox)
    ensures |stream| == |before|
    ensures forall i: nat :: i < |before| ==> stream[i] == if i in touched then Repaired(before, i) else before[i]
  {
  }

  lemma Unexplained(before: seq<ClaimEvent>, copies: map<Id, Copy>, claims: map<DeviceId, Claim>, history: seq<nat>)
    requires exists k :: 0 <= k < |history| && history[k] < |before| && !Explained(before, history[k])
    ensures !Repairable(before, copies, claims)
  {
  }

  lemma ClaimUnfit(before: seq<ClaimEvent>, copies: map<Id, Copy>, claims: map<DeviceId, Claim>, subject: Subject,
                   history: seq<nat>, changes: Changes)
    requires history == Positions(before, subject, |before|) && history != [] && Planned(before, history, changes)
    requires changes != []
    requires subject.device !in claims || claims[subject.device].revision != NewRevision(before, history[|history| - 1])
    ensures !Repairable(before, copies, claims)
  {
    hide Positions, NewRevision, Explained;
    var i := changes[0].0;
    assert Renumbers(before, changes[0]);
    assert Misnumbered(before, i) && !ClaimAgrees(before, claims, i);
  }

  /** The recovery tables the repair works on. */
  class ClaimHistory {
    var stream: seq<ClaimEvent>
    var outbox: map<Id, Copy>
    const claims: map<DeviceId, Claim>

    constructor (stream: seq<ClaimEvent>, outbox: map<Id, Copy>, claims: map<DeviceId, Claim>)
      ensures this.stream == stream && this.outbox == outbox && this.claims == claims
    {
      this.stream, this.outbox, this.claims := stream, outbox, claims;
    }

    /** Repair every history or none: one startup transaction. Says how many events it renumbered. */
    method Repair() returns (repaired: Result<nat, RepairProblem>)
      requires DistinctIds(stream)
      modifies this
      ensures repaired.Ok? <==> Repairable(old(stream), old(outbox), claims)
      ensures repaired.Ok? ==>
        && repaired.value == |MisnumberedSet(old(stream))|
        && stream == RepairedStream(old(stream))
        && Rewritten(old(stream), old(outbox), MisnumberedSet(old(stream)), stream, outbox)
      ensures repaired.Err? ==> stream == old(stream) && outbox == old(outbox)
    {
      hide Repairable, Rewritten, RepairedStream, RepairedSo, Positions, MisnumberedSet;
      var rows, copies := stream, outbox;
      var subjects, histories := Histories(rows);
      GroupedAll(rows, subjects, histories);
      var count := 0;
      ghost var touched: set<nat> := {};
      NothingRewritten(rows, copies);
      assert RepairedSo(rows, copies, claims, subjects[..0], {}) by { NothingCovered(rows, copies, claims); }
      var problem: Option<RepairProblem> := None;
      for k := 0 to |subjects|
        invariant problem.Some? ==> !Repairable(rows, copies, claims)
        invariant problem.None? ==> Rewritten(rows, copies, touched, stream, outbox) && count == |touched|
        invariant problem.None? ==> RepairedSo(rows, copies, claims, subjects[..k], touched)
      {
        if problem.None? {
          assert subjects[..k + 1] == subjects[..k] + [subjects[k]];
          problem, count, touched := RepairOne(rows, copies, subjects[k], histories[subjects[k]], count, subjects[..k],
                                               touched);
        }
      }
      if problem.Some? {
        stream, outbox := rows, copies;
        repaired := Err(problem.value);
      } else {
        assert subjects[..|subjects|] == subjects;
        AllCovered(rows, copies, claims, subjects, touched, stream, outbox);
        repaired := Ok(count);
      }
    }

    /** One subject's history: plan it, hold the plan against the Claim, then rewrite event by event. */
    method RepairOne(rows: seq<ClaimEvent>, ghost copies: map<Id, Copy>, subject: Subject, history: seq<nat>,
                     count: nat, ghost done: seq<Subject>, ghost touched: set<nat>)
      returns (problem: Option<RepairProblem>, count': nat, ghost touched': set<nat>)
      requires DistinctIds(rows) && subject !in done
      requires history == Positions(rows, subject, |rows|) && history != []
      requires Rewritten(rows, copies, touched, stream, outbox) && count == |touched|
      requires RepairedSo(rows, copies, claims, done, touched)
      modifies this
      ensures problem.Some? ==> !Repairable(rows, copies, claims)
      ensures problem.None? ==> Rewritten(rows, copies, touched', stream, outbox) && count' == |touched'|
      ensures problem.None? ==> RepairedSo(rows, copies, claims, done + [subject], touched')
    {
      hide Repairable, Rewritten, RepairedSo, Positions, Planned, NewRevision, Explained, ToTouch;
      problem, count', touched' := None, count, touched;
      var planned := Plan(rows, subject, history);
      if planned.Err? {
        Unexplained(rows, copies, claims, history);
        problem := Some(planned.error);
      } else {
        var (changes, last) := planned.value;
        var device := rows[history[|history| - 1]].ref.device;
        if changes == [] {
          PlanCovers(rows, copies, claims, subject, history, changes, done, touched, touched);
        } else if device !in claims || claims[device].revision != last {
          ClaimUnfit(rows, copies, claims, subject, history, changes);
          problem := Some(if device !in claims then RowMissing else ClaimDisagrees);
        } else {
          Untouched(rows, copies, claims, subject, history, changes, done, touched);
          problem, count', touched' := Rewrite(rows, copies, changes, count, touched);
          if problem.None? {
            PlanCovers(rows, copies, claims, subject, history, changes, done, touched, touched');
          }
        }
      }
    }

    /** Each event to renumber must still have its exact copy in the outbox; both are then rewritten. */
    method Rewrite(rows: seq<ClaimEvent>, ghost copies: map<Id, Copy>, changes: Changes, count: nat,
                   ghost touched: set<nat>)
      returns (problem: Option<RepairProblem>, count': nat, ghost touched': set<nat>)
      requires DistinctIds(rows) && Rewritten(rows, copies, touched, stream, outbox) && count == |touched|
      requires ToTouch(rows, changes, touched)
      modifies this
      ensures problem.Some? ==> !Repairable(rows, copies, claims)
      ensures problem.None? ==>
        && touched' == (touched + set c | c in changes :: c.0)
        && Rewritten(rows, copies, touched', stream, outbox) && count' == |touched'|
        && forall c :: 0 <= c < |changes| ==> changes[c].0 < |rows| && CopyAgrees(rows, copies, changes[c].0)
    {
      hide Rewritten, NewRevision, Positions, Repairable, ToTouch, RewrittenTo;
      problem, count', touched' := None, count, touched;
      StartRewriting(rows, copies, changes, touched, stream, outbox);
      var c := 0;
      while c < |changes| && problem.None?
        invariant 0 <= c <= |changes|
        invariant problem.Some? ==> !Repairable(rows, copies, claims)
        invariant problem.None? ==> RewrittenTo(rows, copies, changes, c, touched, touched', stream, outbox)
        invariant count' == |touched'|
        decreases |changes| - c, problem.None?
      {
        var (position, revision) := changes[c];
        RewriteNext(rows, copies, claims, changes, c, touched, touched', stream, outbox);
        var id := rows[position].id;
        if id !in outbox || outbox[id].event != rows[position] {
          problem := Some(if id !in outbox then RowMissing else CopyDisagrees);
        } else {
          var event := rows[position].(revision := revision);
          stream := stream[position := event];
          outbox := outbox[id := Copy(event, revision)];
          touched', count', c := touched' + {position}, count' + 1, c + 1;
        }
      }
      if problem.None? { DoneRewriting(rows, copies, changes, touched, touched', stream, outbox); }
    }
  }

  /** The first c planned changes are made, and nothing else. */
  ghost predicate RewrittenTo(before: seq<ClaimEvent>, copies: map<Id, Copy>, changes: Changes, c: nat, start: set<nat>,
                              touched: set<nat>, stream: seq<ClaimEvent>, outbox: map<Id, Copy>)
  {
    && c <= |changes| && |stream| == |before|
    && Rewritten(before, copies, touched, stream, outbox)
    && touched == (start + set b | b in changes[..c] :: b.0)
    && forall b :: 0 <= b < c ==> changes[b].0 < |before| && CopyAgrees(before, copies, changes[b].0)
  }

  lemma StartRewriting(before: seq<ClaimEvent>, copies: map<Id, Copy>, changes: Changes, touched: set<nat>,
                       stream: seq<ClaimEvent>, outbox: map<Id, Copy>)
    requires Rewritten(before, copies, touched, stream, outbox)
    ensures RewrittenTo(before, copies, changes, 0, touched, touched, stream, outbox)
  {
  }

  lemma RewriteNext(before: seq<ClaimEvent>, copies: map<Id, Copy>, claims: map<DeviceId, Claim>, changes: Changes,
                    c: nat, start: set<nat>, touched: set<nat>, stream: seq<ClaimEvent>, outbox: map<Id, Copy>)
    requires DistinctIds(before) && ToTouch(before, changes, start) && c < |changes|
    requires RewrittenTo(before, copies, changes, c, start, touched, stream, outbox)
    ensures changes[c].0 < |before| == |stream| && changes[c].0 !in touched
    ensures var i := changes[c].0;
      var event := before[i].(revision := changes[c].1);
      if event.id in outbox && outbox[event.id].event == before[i] then
        RewrittenTo(before, copies, changes, c + 1, start, touched + {i}, stream[i := event],
                    outbox[event.id := Copy(event, changes[c].1)])
      else !Repairable(before, copies, claims)
  {
    hide Rewritten, NewRevision;
    var i := changes[c].0;
    NotYetTouched(before, changes, start, c);
    RewriteOne(before, copies, touched, stream, outbox, i);
    assert changes[..c + 1] == changes[..c] + [changes[c]];
    assert Renumbers(before, changes[c]);
    if before[i].id !in outbox || outbox[before[i].id].event != before[i] {
      assert Misnumbered(before, i) && !CopyAgrees(before, copies, i);
    }
  }

  lemma DoneRewriting(before: seq<ClaimEvent>, copies: map<Id, Copy>, changes: Changes, start: set<nat>,
                      touched: set<nat>, stream: seq<ClaimEvent>, outbox: map<Id, Copy>)
    requires RewrittenTo(before, copies, changes, |changes|, start, touched, stream, outbox)
    ensures touched == start + set c | c in changes :: c.0
    ensures Rewritten(before, copies, touched, stream, outbox)
    ensures forall c :: 0 <= c < |changes| ==> changes[c].0 < |before| && CopyAgrees(before, copies, changes[c].0)
  {
    assert changes[..|changes|] == changes;
  }

  lemma NothingCovered(before: seq<ClaimEvent>, copies: map<Id, Copy>, claims: map<DeviceId, Claim>)
    ensures RepairedSo(before, copies, claims, [], {})
  {
  }

  ghost predicate ToTouch(before: seq<ClaimEvent>, changes: Changes, touched: set<nat>) {
    && (forall c :: 0 <= c < |changes| ==> changes[c].0 !in touched && Renumbers(before, changes[c]))
    && (forall b, c :: 0 <= b < c < |changes| ==> changes[b].0 != changes[c].0)
  }

  lemma Untouched(before: seq<ClaimEvent>, copies: map<Id, Copy>, claims: map<DeviceId, Claim>, subject: Subject,
                  history: seq<nat>, changes: Changes, done: seq<Subject>, touched: set<nat>)
    requires history == Positions(before, subject, |before|) && Planned(before, history, changes)
    requires RepairedSo(before, copies, claims, done, touched) && subject !in done
    ensures ToTouch(before, changes, touched)
  {
  }

  lemma NotYetTouched(before: seq<ClaimEvent>, changes: Changes, touched: set<nat>, c: nat)
    requires ToTouch(before, changes, touched) && c < |changes|
    ensures changes[c].0 !in touched + set b | b in changes[..c] :: b.0
  {
  }
}
