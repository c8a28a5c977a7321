/** The erase ledger: one Operation per revoked Claim generation, delivered again until a device's
    acknowledgement settles it. */
module DeviceErase {
  import opened Prelude
  import opened AdmissionDomain

  /** An operation's identity is a digest of its event and exact generation. */
  datatype OperationId = EraseOf(event: Id, ref: DeviceRef)

  datatype EraseCommand = EraseCommand(operation: OperationId, ref: DeviceRef, deadline: Moment)

  datatype EraseFingerprint = FingerprintOf(command: EraseCommand)

  datatype EraseState = Waiting | Pending | Delivered | Acked | Lapsed | Failed

  /** No later step changes a settled operation. */
  predicate Settled(state: EraseState) {
    state.Acked? || state.Failed?
  }

  predicate Ended(state: EraseState) {
    Settled(state) || state.Lapsed?
  }

  datatype Operation = Operation(
    sourceEvent: Id,
    ref: DeviceRef,
    command: EraseCommand,
    fingerprint: EraseFingerprint,
    manifestDigest: Digest,
    publicKey: string,
    state: EraseState,
    createdAt: Moment,
    deadline: Moment,
    attempts: nat,
    attempt: Option<Attempt>,
    deliveredAt: Option<Moment>,
    acknowledgedAt: Option<Moment>,
    result: Option<string>,
    resultCode: string)

  /** A delivery attempt is named by its operation and the nonce of the pull. */
  datatype Attempt = Attempt(operation: OperationId, nonce: string)

  datatype EraseAck = EraseAck(operation: OperationId, ref: DeviceRef, sequence: int, result: string,
                               resultCode: string, signature: string)

  datatype AckFingerprint = AckDigest(ack: EraseAck)

  datatype Evidence = Evidence(fingerprint: AckFingerprint, receivedAt: Moment, applied: bool, result: string,
                               resultCode: string)

  datatype Ledger = Ledger(operations: map<OperationId, Operation>, evidence: map<(OperationId, int), Evidence>)

  const EmptyLedger := Ledger(map[], map[])

  const ERASED := "erased"
  const DEADLINE_EXPIRED := "deadline-expired"
  const OPERATION_EXPIRED := "OPERATION_EXPIRED"

  datatype EraseProblem = Conflict | UnknownOperation | WrongKey | WrongGeneration | BadTtl

  // Materialisation

  function NewOperation(event: ClaimEvent, claim: Claim, ttl: int): Operation {
    var id := EraseOf(event.id, event.ref);
    var command := EraseCommand(id, event.ref, event.time + ttl);
    Operation(event.id, event.ref, command, FingerprintOf(command), claim.manifest.digest, claim.operationalKey,
              Waiting, event.time, event.time + ttl, 0, None, None, None, None, "")
  }

  ghost function MaterializeOne(operations: map<OperationId, Operation>, claims: map<DeviceId, Claim>,
                                event: ClaimEvent, ttl: int)
    : Result<map<OperationId, Operation>, EraseProblem>
  {
    var id := EraseOf(event.id, event.ref);
    if !event.body.Revocation? then Ok(operations)
    else if id in operations then
      if operations[id].sourceEvent != event.id || operations[id].ref != event.ref then Err(Conflict)
      else Ok(operations)
    else if exists o :: o in operations && operations[o].sourceEvent == event.id then Err(Conflict)
    else if event.ref.device !in claims
         || ClaimRef(event.ref.device, claims[event.ref.device]) != event.ref then Err(Conflict)
    else Ok(operations[id := NewOperation(event, claims[event.ref.device], ttl)])
  }

  /** One pass over the whole stream, all or nothing. */
  ghost function MaterializeAll(operations: map<OperationId, Operation>, claims: map<DeviceId, Claim>,
                                stream: seq<ClaimEvent>, ttl: int)
    : Result<map<OperationId, Operation>, EraseProblem>
    decreases |stream|
  {
    if stream == [] then Ok(operations)
    else
      match MaterializeAll(operations, claims, stream[..|stream| - 1], ttl)
      case Err(problem) => Err(problem)
      case Ok(before) => MaterializeOne(before, claims, stream[|stream| - 1], ttl)
  }

  // Deadlines and delivery

  function Lapse(operation: Operation): Operation {
    operation.(state := Lapsed, result := Some(DEADLINE_EXPIRED), resultCode := OPERATION_EXPIRED)
  }

  function ExpiredAt(operation: Operation, now: Moment): Operation {
    if !Ended(operation.state) && operation.deadline <= now then Lapse(operation) else operation
  }

  function PendingAt(operation: Operation, now: Moment): Operation {
    if operation.state.Waiting? && operation.deadline > now then operation.(state := Pending) else operation
  }

  /** A fresh deadline for an unsettled operation whose attempt is over; anything else is left alone. */
  function Rearmed(operation: Operation, now: Moment, ttl: int): Operation {
    if Settled(operation.state) then operation
    else if !operation.state.Lapsed? && operation.deadline > now then operation
    else
      var command := operation.command.(deadline := now + ttl);
      operation.(command := command, fingerprint := FingerprintOf(command), deadline := now + ttl, state := Pending,
                 result := None, resultCode := "", attempt := None, deliveredAt := None)
  }

  function DeliveredAt(operation: Operation, attempt: Attempt, at: Moment): Operation {
    if operation.deadline <= at then if Settled(operation.state) then operation else Lapse(operation)
    else if Ended(operation.state) then operation
    else operation.(attempts := operation.attempts + if operation.attempt != Some(attempt) then 1 else 0,
                    attempt := Some(attempt), deliveredAt := Some(at), state := Delivered)
  }

  // Acknowledgement

  predicate Applies(operation: Operation, at: Moment) {
    !Ended(operation.state) && operation.deadline > at
  }

  function AckedAt(operation: Operation, ack: EraseAck, at: Moment): Operation {
    if Ended(operation.state) then operation
    else if operation.deadline <= at then Lapse(operation)
    else operation.(acknowledgedAt := Some(at), result := Some(ack.result), resultCode := ack.resultCode,
                    state := if ack.result == ERASED then Acked else Failed)
  }

  function AckEvidence(operation: Operation, ack: EraseAck, at: Moment): Evidence {
    Evidence(AckDigest(ack), at, Applies(operation, at), ack.result, ack.resultCode)
  }

  function ApplyAck(ledger: Ledger, ack: EraseAck, at: Moment): Result<Ledger, EraseProblem> {
    var key := (ack.operation, ack.sequence);
    if ack.operation !in ledger.operations then Err(UnknownOperation)
    else if key in ledger.evidence then
      if ledger.evidence[key].fingerprint != AckDigest(ack) then Err(Conflict) else Ok(ledger)
    else
      var operation := ledger.operations[ack.operation];
      Ok(Ledger(ledger.operations[ack.operation := AckedAt(operation, ack, at)],
                ledger.evidence[key := AckEvidence(operation, ack, at)]))
  }

  // Steps: each is one locked transaction; a refused one changes nothing.

  datatype EraseStep =
    | Materialize(ttl: int)
    | Expire(now: Moment)
    | MarkPending(now: Moment)
    | Rearm(operation: OperationId, now: Moment, ttl: int)
    | Deliver(operation: OperationId, attempt: Attempt, at: Moment)
    | Acknowledge(ack: EraseAck, at: Moment)

  ghost function Step(stream: seq<ClaimEvent>, claims: map<DeviceId, Claim>, ledger: Ledger, step: EraseStep): Ledger {
    match step
    case Materialize(ttl) =>
      if ttl <= 0 then ledger
      else
        (match MaterializeAll(ledger.operations, claims, stream, ttl)
         case Err(_) => ledger
         case Ok(operations) => ledger.(operations := operations))
    case Expire(now) =>
      ledger.(operations := map o | o in ledger.operations :: ExpiredAt(ledger.operations[o], now))
    case MarkPending(now) =>
      ledger.(operations := map o | o in ledger.operations :: PendingAt(ledger.operations[o], now))
    case Rearm(o, now, ttl) =>
      if ttl <= 0 || o !in ledger.operations then ledger
      else ledger.(operations := ledger.operations[o := Rearmed(ledger.operations[o], now, ttl)])
    case Deliver(o, attempt, at) =>
      if o !in ledger.operations then ledger
      else ledger.(operations := ledger.operations[o := DeliveredAt(ledger.operations[o], attempt, at)])
    case Acknowledge(ack, at) =>
      var acked := ApplyAck(ledger, ack, at);
      if acked.Ok? then acked.value else ledger
  }

  // What every step keeps

  /** Row, command and fingerprint say the same thing, and the identity names event and generation. */
  predicate Consistent(o: OperationId, operation: Operation) {
    && operation.sourceEvent == o.event && operation.ref == o.ref
    && operation.command == EraseCommand(o, o.ref, operation.deadline)
    && operation.fingerprint == FingerprintOf(operation.command)
  }

  ghost predicate Applied(ledger: Ledger, o: OperationId, n: int) {
    (o, n) in ledger.evidence && ledger.evidence[(o, n)].applied
  }

  /** The outcome on the row is the outcome of this evidence. */
  predicate Settles(operation: Operation, evidence: Evidence) {
    && operation.state == (if evidence.result == ERASED then Acked else Failed)
    && operation.result == Some(evidence.result)
    && operation.resultCode == evidence.resultCode
    && operation.acknowledgedAt == Some(evidence.receivedAt)
  }

  /** Settled exactly when one piece of evidence, and only one, is applied; the row records that one. */
  ghost predicate SettledByEvidence(ledger: Ledger, o: OperationId)
    requires o in ledger.operations
  {
    && (Settled(ledger.operations[o].state) <==> exists n :: Applied(ledger, o, n))
    && (forall n, m :: Applied(ledger, o, n) && Applied(ledger, o, m) ==> n == m)
    && (forall n :: Applied(ledger, o, n) ==> Settles(ledger.operations[o], ledger.evidence[(o, n)]))
  }

  ghost predicate LedgerOk(ledger: Ledger) {
    && (forall o :: o in ledger.operations ==> Consistent(o, ledger.operations[o]))
    && (forall o, p :: o in ledger.operations && p in ledger.operations && o.event == p.event ==> o == p)
    && (forall o :: o in ledger.operations ==> SettledByEvidence(ledger, o))
    && (forall k :: k in ledger.evidence ==> k.0 in ledger.operations)
  }

  /** The same rows, none of them settled or unsettled; settled ones untouched. */
  predicate Kept(operation: Operation, operation': Operation) {
    && Settled(operation'.state) == Settled(operation.state)
    && (Settled(operation.state) ==> operation' == operation)
    && operation'.sourceEvent == operation.sourceEvent && operation'.ref == operation.ref
    && operation'.createdAt == operation.createdAt && operation'.publicKey == operation.publicKey
  }

  lemma RowsKept(ledger: Ledger, operations: map<OperationId, Operation>)
    requires LedgerOk(ledger) && operations.Keys == ledger.operations.Keys
    requires forall o :: o in operations ==> Kept(ledger.operations[o], operations[o]) && Consistent(o, operations[o])
    ensures LedgerOk(ledger.(operations := operations))
  {
    hide Consistent, Settled;
    var ledger' := ledger.(operations := operations);
    forall o | o in operations ensures SettledByEvidence(ledger', o) {
      assert SettledByEvidence(ledger, o);
      assert forall n :: Applied(ledger', o, n) == Applied(ledger, o, n);
    }
  }

  lemma MaterializeKeeps(ledger: Ledger, claims: map<DeviceId, Claim>, stream: seq<ClaimEvent>, ttl: int)
    requires LedgerOk(ledger) && MaterializeAll(ledger.operations, claims, stream, ttl).Ok?
    ensures LedgerOk(ledger.(operations := MaterializeAll(ledger.operations, claims, stream, ttl).value))
    ensures var operations := MaterializeAll(ledger.operations, claims, stream, ttl).value;
      forall o :: o in ledger.operations ==> o in operations && operations[o] == ledger.operations[o]
    decreases |stream|
  {
    if stream != [] {
      var before := MaterializeAll(ledger.operations, claims, stream[..|stream| - 1], ttl).value;
      MaterializeKeeps(ledger, claims, stream[..|stream| - 1], ttl);
      OneMoreKeeps(ledger.(operations := before), claims, stream[|stream| - 1], ttl);
    }
  }

  lemma OneMoreKeeps(ledger: Ledger, claims: map<DeviceId, Claim>, event: ClaimEvent, ttl: int)
    requires LedgerOk(ledger) && MaterializeOne(ledger.operations, claims, event, ttl).Ok?
    ensures LedgerOk(ledger.(operations := MaterializeOne(ledger.operations, claims, event, ttl).value))
  {
    hide Settles, SettledByEvidence;
    var operations := MaterializeOne(ledger.operations, claims, event, ttl).value;
    var ledger' := ledger.(operations := operations);
    forall o | o in operations ensures SettledByEvidence(ledger', o) {
      if o in ledger.operations { SameEvidence(ledger, ledger', o); } else { NoEvidence(ledger', o); }
    }
  }

  lemma SameEvidence(ledger: Ledger, ledger': Ledger, o: OperationId)
    requires o in ledger.operations && o in ledger'.operations && ledger'.operations[o] == ledger.operations[o]
    requires ledger'.evidence == ledger.evidence && SettledByEvidence(ledger, o)
    ensures SettledByEvidence(ledger', o)
  {
    assert forall n :: Applied(ledger', o, n) == Applied(ledger, o, n);
  }

  lemma NoEvidence(ledger: Ledger, o: OperationId)
    requires o in ledger.operations && !Settled(ledger.operations[o].state) && forall n :: (o, n) !in ledger.evidence
    ensures SettledByEvidence(ledger, o)
  {
    assert forall n :: !Applied(ledger, o, n);
  }

  lemma AckKeeps(ledger: Ledger, ack: EraseAck, at: Moment)
    requires LedgerOk(ledger) && ApplyAck(ledger, ack, at).Ok?
    ensures LedgerOk(ApplyAck(ledger, ack, at).value)
  {
    hide Consistent, Settled, Applies, SettledByEvidence, AckedAt;
    var key := (ack.operation, ack.sequence);
    if key !in ledger.evidence {
      var ledger' := ApplyAck(ledger, ack, at).value;
      forall o | o in ledger'.operations ensures Consistent(o, ledger'.operations[o]) && SettledByEvidence(ledger', o) {
        AckedConsistent(o, ledger.operations[o], ack, at);
        if o == ack.operation { AckSettles(ledger, ack, at); } else { AckLeavesOthers(ledger, ack, at, o); }
      }
    }
  }

  lemma AckedConsistent(o: OperationId, operation: Operation, ack: EraseAck, at: Moment)
    requires Consistent(o, operation)
    ensures Consistent(o, AckedAt(operation, ack, at))
  {
  }

  lemma AckLeavesOthers(ledger: Ledger, ack: EraseAck, at: Moment, o: OperationId)
    requires ApplyAck(ledger, ack, at).Ok? && o in ledger.operations && o != ack.operation
    requires SettledByEvidence(ledger, o)
    ensures SettledByEvidence(ApplyAck(ledger, ack, at).value, o)
  {
    hide Settles, AckedAt, Applies;
    assert forall n :: Applied(ApplyAck(ledger, ack, at).value, o, n) == Applied(ledger, o, n);
  }

  /** Fresh evidence settles its operation exactly when it is applied. */
  lemma AckSettles(ledger: Ledger, ack: EraseAck, at: Moment)
    requires ack.operation in ledger.operations && (ack.operation, ack.sequence) !in ledger.evidence
    requires SettledByEvidence(ledger, ack.operation)
    ensures SettledByEvidence(ApplyAck(ledger, ack, at).value, ack.operation)
  {
    var o := ack.operation;
    var ledger' := ApplyAck(ledger, ack, at).value;
    assert forall n :: n != ack.sequence ==> Applied(ledger', o, n) == Applied(ledger, o, n);
    assert Applied(ledger', o, ack.sequence) == Applies(ledger.operations[o], at);
  }

  ghost predicate EachKept(o: OperationId, operation: Operation, now: Moment, ttl: int, attempt: Option<Attempt>) {
    && Kept(operation, operation) && Consistent(o, operation)
    && Kept(operation, ExpiredAt(operation, now)) && Consistent(o, ExpiredAt(operation, now))
    && Kept(operation, PendingAt(operation, now)) && Consistent(o, PendingAt(operation, now))
    && Kept(operation, Rearmed(operation, now, ttl)) && Consistent(o, Rearmed(operation, now, ttl))
    && (attempt.Some? ==>
          Kept(operation, DeliveredAt(operation, attempt.value, now))
            && Consistent(o, DeliveredAt(operation, attempt.value, now)))
  }

  lemma StepKeeps(stream: seq<ClaimEvent>, claims: map<DeviceId, Claim>, ledger: Ledger, step: EraseStep)
    requires LedgerOk(ledger)
    ensures LedgerOk(Step(stream, claims, ledger, step))
  {
    hide LedgerOk, SettledByEvidence, Consistent, Kept, ExpiredAt, PendingAt, Rearmed, DeliveredAt;
    match step
    case Materialize(ttl) =>
      if ttl > 0 && MaterializeAll(ledger.operations, claims, stream, ttl).Ok? {
        MaterializeKeeps(ledger, claims, stream, ttl);
      }
    case Acknowledge(ack, at) =>
      if ApplyAck(ledger, ack, at).Ok? { AckKeeps(ledger, ack, at); }
    case Expire(now) =>
      EachTouched(ledger, now, 0, None);
      RowsKept(ledger, Step(stream, claims, ledger, step).operations);
    case MarkPending(now) =>
      EachTouched(ledger, now, 0, None);
      RowsKept(ledger, Step(stream, claims, ledger, step).operations);
    case Rearm(_, now, ttl) =>
      EachTouched(ledger, now, ttl, None);
      RowsKept(ledger, Step(stream, claims, ledger, step).operations);
    case Deliver(_, attempt, at) =>
      EachTouched(ledger, at, 0, Some(attempt));
      RowsKept(ledger, Step(stream, claims, ledger, step).operations);
  }

  lemma EachTouched(ledger: Ledger, now: Moment, ttl: int, attempt: Option<Attempt>)
    requires LedgerOk(ledger)
    ensures forall o :: o in ledger.operations ==> EachKept(o, ledger.operations[o], now, ttl, attempt)
  {
    forall o | o in ledger.operations ensures EachKept(o, ledger.operations[o], now, ttl, attempt) {
      assert Consistent(o, ledger.operations[o]);
    }
  }

  /** A settled operation never changes again, whatever step comes next; an operation never disappears. */
  lemma SettledStays(stream: seq<ClaimEvent>, claims: map<DeviceId, Claim>, ledger: Ledger, step: EraseStep,
                     o: OperationId)
    requires LedgerOk(ledger) && o in ledger.operations
    ensures o in Step(stream, claims, ledger, step).operations
    ensures var operation, operation' := ledger.operations[o], Step(stream, claims, ledger, step).operations[o];
      && (Settled(operation.state) ==> operation' == operation)
      && operation'.sourceEvent == operation.sourceEvent && operation'.ref == operation.ref
      && operation'.createdAt == operation.createdAt && operation'.publicKey == operation.publicKey
  {
    hide LedgerOk;
    if step.Materialize? && step.ttl > 0 && MaterializeAll(ledger.operations, claims, stream, step.ttl).Ok? {
      MaterializeKeeps(ledger, claims, stream, step.ttl);
    }
  }

  // Deadlines

  /** A lapse was seen by some clock: with readings that never fall, a lapsed deadline is past. */
  ghost predicate LapsesPast(ledger: Ledger, clock: Moment) {
    forall o :: o in ledger.operations && ledger.operations[o].state.Lapsed? ==> ledger.operations[o].deadline <= clock
  }

  function Reading(step: EraseStep): Option<Moment> {
    match step
    case Materialize(_) => None
    case Expire(now) => Some(now)
    case MarkPending(now) => Some(now)
    case Rearm(_, now, _) => Some(now)
    case Deliver(_, _, at) => Some(at)
    case Acknowledge(_, at) => Some(at)
  }

  lemma LapsesStayPast(stream: seq<ClaimEvent>, claims: map<DeviceId, Claim>, ledger: Ledger, step: EraseStep,
                       clock: Moment)
    requires LedgerOk(ledger) && LapsesPast(ledger, clock)
    requires Reading(step).Some? ==> clock <= Reading(step).value
    ensures LapsesPast(Step(stream, claims, ledger, step), if Reading(step).Some? then Reading(step).value else clock)
  {
    hide LedgerOk;
    if step.Materialize? && step.ttl > 0 && MaterializeAll(ledger.operations, claims, stream, step.ttl).Ok? {
      NewOnesWait(ledger.operations, claims, stream, step.ttl);
    }
  }

  lemma NewOnesWait(operations: map<OperationId, Operation>, claims: map<DeviceId, Claim>, stream: seq<ClaimEvent>,
                    ttl: int)
    requires MaterializeAll(operations, claims, stream, ttl).Ok?
    ensures var operations' := MaterializeAll(operations, claims, stream, ttl).value;
      forall o :: o in operations' ==>
        (o in operations && operations'[o] == operations[o]) || operations'[o].state.Waiting?
    decreases |stream|
  {
    if stream != [] { NewOnesWait(operations, claims, stream[..|stream| - 1], ttl); }
  }

  /** Re-arming strictly raises the deadline of an unsettled operation whose attempt is over, and keeps
      its identity, birth and key; an attempt still running keeps its deadline. */
  lemma RearmRaises(ledger: Ledger, o: OperationId, now: Moment, ttl: int, clock: Moment)
    requires LedgerOk(ledger) && LapsesPast(ledger, clock) && clock <= now && ttl > 0 && o in ledger.operations
    ensures var operation, rearmed := ledger.operations[o], Rearmed(ledger.operations[o], now, ttl);
      && rearmed.sourceEvent == operation.sourceEvent && rearmed.ref == operation.ref
      && rearmed.createdAt == operation.createdAt
      && rearmed.publicKey == operation.publicKey && rearmed.attempts == operation.attempts
      && Consistent(o, rearmed)
      && (rearmed != operation ==> rearmed.deadline > now >= operation.deadline)
      && (rearmed == operation ==> Settled(operation.state) || operation.deadline > now)
  {
  }

  // Pulls

  /** What a pull does once it found the operation of its DeviceRef. `now` is read before re-arming, `at` after. */
  function Pull(ledger: Ledger, found: Option<OperationId>, key: string, proofValid: bool, nonce: string, now: Moment,
                at: Moment, ttl: int)
    : (Ledger, Result<Option<EraseCommand>, EraseProblem>)
    requires found.Some? ==> found.value in ledger.operations
  {
    if found.None? then (ledger, Ok(None))
    else
      var o := found.value;
      var operation := ledger.operations[o];
      if !SameKey(operation.publicKey, key) || !proofValid then (ledger, Err(WrongKey))
      else if Settled(operation.state) then (ledger, Ok(None))
      else
        var over := operation.state.Lapsed? || operation.command.deadline <= now;
        if over && ttl <= 0 then (ledger, Err(BadTtl))
        else
          var rearmed := if over then Rearmed(operation, now, ttl) else operation;
          var delivered := DeliveredAt(rearmed, Attempt(o, nonce), at);
          (ledger.(operations := ledger.operations[o := delivered]),
           Ok(if Ended(delivered.state) then None else Some(delivered.command)))
  }

  /** A proved pull for an unsettled operation yields its command, with a deadline still to come, exactly
      when the second clock reading is before the deadline the first one left: always, with one reading. */
  lemma PullYieldsCommand(ledger: Ledger, o: OperationId, key: string, nonce: string, now: Moment, at: Moment, ttl: int,
                          clock: Moment)
    requires LedgerOk(ledger) && LapsesPast(ledger, clock) && clock <= now <= at && ttl > 0
    requires o in ledger.operations && !Settled(ledger.operations[o].state)
    requires SameKey(ledger.operations[o].publicKey, key)
    ensures var operation := ledger.operations[o];
      var deadline := if operation.deadline > now then operation.deadline else now + ttl;
      var answer := Pull(ledger, Some(o), key, true, nonce, now, at, ttl).1;
      && (at < deadline ==> answer == Ok(Some(EraseCommand(o, o.ref, deadline))))
      && (at >= deadline ==> answer == Ok(None))
      && (at == now ==> answer.Ok? && answer.value.Some? && answer.value.value.deadline > at)
  {
  }

  // The ledger, in place

  class DeviceEraseLedger {
    var operations: map<OperationId, Operation>
    var evidence: map<(OperationId, int), Evidence>

    ghost function Contents(): Ledger
      reads this
    {
      Ledger(operations, evidence)
    }

    constructor ()
      ensures Contents() == EmptyLedger
    {
      operations, evidence := map[], map[];
    }

    /** Project every revocation of the stream; a conflict rolls the whole pass back. */
    method MaterializeClaimEvents(stream: seq<ClaimEvent>, claims: map<DeviceId, Claim>, ttl: int)
      returns (created: Result<nat, EraseProblem>)
      modifies this
      ensures Contents() == Step(stream, claims, old(Contents()), Materialize(ttl))
      ensures ttl <= 0 ==> created == Err(BadTtl)
      ensures ttl > 0 ==>
        match MaterializeAll(old(operations), claims, stream, ttl)
        case Err(problem) => created == Err(problem)
        case Ok(all) => created == Ok(|all| - |old(operations)|) && |all| >= |old(operations)|
    {
      if ttl <= 0 {
        return Err(BadTtl);
      }
      var before := operations;
      var count := 0;
      var problem: Option<EraseProblem> := None;
      for i := 0 to |stream|
        invariant problem.None? ==> MaterializeAll(before, claims, stream[..i], ttl) == Ok(operations)
        invariant problem.None? ==> |operations| == |before| + count
        invariant problem.Some? ==> MaterializeAll(before, claims, stream[..i], ttl) == Err(problem.value)
        invariant evidence == old(evidence)
      {
        assert stream[..i + 1][..i] == stream[..i];
        if problem.None? {
          var made: bool;
          made, problem := MaterializeHere(stream[i], claims, ttl);
          count := count + if made then 1 else 0;
        }
      }
      assert stream[..|stream|] == stream;
      if problem.Some? {
        operations := before;
        created := Err(problem.value);
      } else {
        created := Ok(count);
      }
    }

    method MaterializeHere(event: ClaimEvent, claims: map<DeviceId, Claim>, ttl: int)
      returns (made: bool, problem: Option<EraseProblem>)
      modifies this`operations
      ensures match MaterializeOne(old(operations), claims, event, ttl)
        case Err(p) => problem == Some(p) && operations == old(operations)
        case Ok(all) => problem == None && operations == all
                        && |operations| == |old(operations)| + if made then 1 else 0
    {
      made, problem := false, None;
      if event.body.Revocation? {
        var ref := event.ref;
        var id := EraseOf(event.id, ref);
        if id in operations {
          if operations[id].sourceEvent != event.id || operations[id].ref != ref {
            problem := Some(Conflict);
          }
        } else if byEvent :| byEvent in operations && operations[byEvent].sourceEvent == event.id {
          if byEvent != id {
            problem := Some(Conflict);
          }
        } else if ref.device !in claims || ClaimRef(ref.device, claims[ref.device]) != ref {
          problem := Some(Conflict);
        } else {
          assert operations.Keys + {id} == operations[id := NewOperation(event, claims[ref.device], ttl)].Keys;
          operations := operations[id := NewOperation(event, claims[ref.device], ttl)];
          made := true;
        }
      }
    }

    method ExpireDue(now: Moment) returns (count: nat)
      modifies this`operations
      ensures Contents() == Step([], map[], old(Contents()), Expire(now))
      ensures count == |set o | o in old(operations) && !Ended(old(operations)[o].state)
        && old(operations)[o].deadline <= now|
    {
      var rest := set o | o in operations && !Ended(operations[o].state) && operations[o].deadline <= now;
      count := |rest|;
      while rest != {}
        invariant operations.Keys == old(operations.Keys) && rest <= operations.Keys
        invariant forall o :: o in operations ==>
          operations[o] == if o in rest then old(operations)[o] else ExpiredAt(old(operations)[o], now)
        invariant forall o :: o in rest ==> !Ended(old(operations)[o].state) && old(operations)[o].deadline <= now
        decreases rest
      {
        var o :| o in rest;
        operations := operations[o := operations[o].(state := Lapsed, result := Some(DEADLINE_EXPIRED),
                                                     resultCode := OPERATION_EXPIRED)];
        rest := rest - {o};
      }
    }

    method MarkAcceptedPending(now: Moment) returns (count: nat)
      modifies this`operations
      ensures Contents() == Step([], map[], old(Contents()), MarkPending(now))
      ensures count == |set o | o in old(operations) && old(operations)[o].state.Waiting?
        && old(operations)[o].deadline > now|
    {
      var rest := set o | o in operations && operations[o].state.Waiting? && operations[o].deadline > now;
      count := |rest|;
      while rest != {}
        invariant operations.Keys == old(operations.Keys) && rest <= operations.Keys
        invariant forall o :: o in operations ==>
          operations[o] == if o in rest then old(operations)[o] else PendingAt(old(operations)[o], now)
        invariant forall o :: o in rest ==> old(operations)[o].state.Waiting? && old(operations)[o].deadline > now
        decreases rest
      {
        var o :| o in rest;
        operations := operations[o := operations[o].(state := Pending)];
        rest := rest - {o};
      }
    }

    method RearmLapsed(o: OperationId, now: Moment, ttl: int) returns (operation: Result<Operation, EraseProblem>)
      modifies this`operations
      ensures Contents() == Step([], map[], old(Contents()), Rearm(o, now, ttl))
      ensures operation == if ttl <= 0 then Err(BadTtl)
                           else if o !in operations then Err(UnknownOperation) else Ok(operations[o])
    {
      if ttl <= 0 {
        return Err(BadTtl);
      }
      if o !in operations {
        return Err(UnknownOperation);
      }
      var row := operations[o];
      if !Settled(row.state) && (row.state.Lapsed? || row.deadline <= now) {
        var command := row.command.(deadline := now + ttl);
        operations := operations[o := row.(command := command, fingerprint := FingerprintOf(command),
                                           deadline := command.deadline, state := Pending, result := None,
                                           resultCode := "", attempt := None, deliveredAt := None)];
      }
      return Ok(operations[o]);
    }

    method AcceptDelivery(o: OperationId, attempt: Attempt, at: Moment)
      returns (operation: Result<Operation, EraseProblem>)
      modifies this`operations
      ensures Contents() == Step([], map[], old(Contents()), Deliver(o, attempt, at))
      ensures operation == if o !in operations then Err(UnknownOperation) else Ok(operations[o])
    {
      if o !in operations {
        return Err(UnknownOperation);
      }
      var row := operations[o];
      if row.deadline <= at {
        if !Settled(row.state) {
          operations := operations[o := row.(state := Lapsed, result := Some(DEADLINE_EXPIRED),
                                             resultCode := OPERATION_EXPIRED)];
        }
      } else if !Ended(row.state) {
        if row.attempt != Some(attempt) {
          row := row.(attempts := row.attempts + 1);
        }
        operations := operations[o := row.(attempt := Some(attempt), deliveredAt := Some(at), state := Delivered)];
      }
      return Ok(operations[o]);
    }

    method ApplyAckHere(ack: EraseAck, at: Moment) returns (operation: Result<Operation, EraseProblem>)
      modifies this
      ensures match ApplyAck(old(Contents()), ack, at)
        case Err(problem) => operation == Err(problem) && Contents() == old(Contents())
        case Ok(acked) => Contents() == acked && ack.operation in operations
                          && operation == Ok(operations[ack.operation])
    {
      var key := (ack.operation, ack.sequence);
      if ack.operation !in operations {
        return Err(UnknownOperation);
      }
      if key in evidence {
        if evidence[key].fingerprint != AckDigest(ack) {
          return Err(Conflict);
        }
        return Ok(operations[ack.operation]);
      }
      var row := operations[ack.operation];
      var ended := Ended(row.state);
      if !ended && row.deadline <= at {
        row := row.(state := Lapsed, result := Some(DEADLINE_EXPIRED), resultCode := OPERATION_EXPIRED);
        ended := true;
      }
      if !ended {
        row := row.(acknowledgedAt := Some(at), result := Some(ack.result), resultCode := ack.resultCode,
                    state := if ack.result == ERASED then Acked else Failed);
      }
      operations := operations[ack.operation := row];
      evidence := evidence[key := Evidence(AckDigest(ack), at, !ended, ack.result, ack.resultCode)];
      return Ok(row);
    }

    /** The acknowledging device must name the operation's generation and sign with its key. */
    method AcknowledgeErase(ack: EraseAck, signatureValid: bool, at: Moment)
      returns (operation: Result<Operation, EraseProblem>)
      modifies this
      ensures var ledger := old(Contents());
        if ack.operation !in ledger.operations then operation == Err(UnknownOperation) && Contents() == ledger
        else if ack.ref != ledger.operations[ack.operation].command.ref then
          operation == Err(WrongGeneration) && Contents() == ledger
        else if !signatureValid then operation == Err(WrongKey) && Contents() == ledger
        else
          && Contents() == Step([], map[], ledger, Acknowledge(ack, at))
          && operation == (if ApplyAck(ledger, ack, at).Ok? then Ok(Contents().operations[ack.operation])
                           else Err(ApplyAck(ledger, ack, at).error))
    {
      if ack.operation !in operations {
        return Err(UnknownOperation);
      }
      if ack.ref != operations[ack.operation].command.ref {
        return Err(WrongGeneration);
      }
      if !signatureValid {
        return Err(WrongKey);
      }
      operation := ApplyAckHere(ack, at);
    }

    /** The one operation of a DeviceRef; the stream holds at most one revocation of it. */
    method GetForDevice(ref: DeviceRef) returns (found: Option<OperationId>)
      ensures found.Some? ==> found.value in operations && operations[found.value].ref == ref
      ensures found.None? ==> forall o :: o in operations ==> operations[o].ref != ref
    {
      if o :| o in operations && operations[o].ref == ref {
        return Some(o);
      }
      return None;
    }

    /** Hand a returning device its erase command, re-armed when the last attempt is over. */
    method PullErase(ref: DeviceRef, key: string, proofValid: bool, nonce: string, now: Moment, at: Moment, ttl: int)
      returns (delivery: Result<Option<EraseCommand>, EraseProblem>, found: Option<OperationId>)
      requires forall o :: o in operations ==> operations[o].command.deadline == operations[o].deadline
      modifies this
      ensures found.Some? ==> found.value in old(operations) && old(operations)[found.value].ref == ref
      ensures found.None? ==> forall o :: o in old(operations) ==> old(operations)[o].ref != ref
      ensures (Contents(), delivery) == Pull(old(Contents()), found, key, proofValid, nonce, now, at, ttl)
    {
      found := GetForDevice(ref);
      if found.None? {
        return Ok(None), found;
      }
      var operation := operations[found.value];
      if !SameKey(operation.publicKey, key) || !proofValid {
        return Err(WrongKey), found;
      }
      if Settled(operation.state) {
        return Ok(None), found;
      }
      if operation.state.Lapsed? || operation.command.deadline <= now {
        var rearmed := RearmLapsed(found.value, now, ttl);
        if rearmed.Err? {
          return Err(rearmed.error), found;
        }
      }
      var delivered := AcceptDelivery(found.value, Attempt(found.value, nonce), at);
      assert operations == old(operations)[found.value := operations[found.value]];
      delivery := Ok(if Ended(operations[found.value].state) then None else Some(operations[found.value].command));
    }
  }
}
