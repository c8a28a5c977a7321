/** The directory row's second writer: Manifest assertions and output-policy updates read first and
    commit later by compare-and-set, interleaved with the Admission transactions. */
module DeviceRows {
  import opened Prelude
  import opened AdmissionDomain
  import opened AdmissionTables
  import opened AdmissionCommands
  import opened AdmissionInvariant
  import opened AdmissionPreservation
  import opened AdmissionHistory
  import opened AdmissionTheorems

  const POLICY_WRITE := "device.output-policy.write"

  // Reads

  function RowRef(domain: Id, device: DeviceId, row: DeviceRow): DeviceRef {
    DeviceRef(device, domain, row.domainGeneration, row.claimGeneration, row.trustEpoch)
  }

  datatype PolicyCommand = PolicyCommand(ref: DeviceRef, expectedRevision: nat, allowed: set<string>,
                                         inputs: Option<set<string>>)

  datatype Assertion = Assertion(ref: DeviceRef, key: string, declared: ManifestRef, signatureValid: bool)

  /** What a use case comes to, or what it still has to commit. */
  datatype Task =
    | Asserting(assertion: Assertion)
    | ClaimChecked(assertion: Assertion)
    | PolicyAsked(command: PolicyCommand, context: Context)
    | Ready(device: DeviceId, expected: DeviceRow, wanted: Wanted, principal: Option<Id>)
    | Finished(outcome: Outcome)

  datatype Wanted = NewManifest(manifest: ManifestRef) | NewPolicy(policy: OutputPolicy)

  datatype Outcome =
    | TaskRefused(problem: Problem)
    | ManifestUnchanged(manifest: ManifestRef)
    | PolicyStands(policy: OutputPolicy)
    | ChangeCommitted(wanted: Wanted)

  function PolicyRevisionOf(row: DeviceRow): nat {
    if row.policy.Some? then row.policy.value.revision else 0
  }

  /** Older clients omit inputs: an output-only edit keeps what was allowed of them. */
  function PolicyInputs(row: DeviceRow, command: PolicyCommand): Option<set<string>> {
    if command.inputs.Some? then command.inputs
    else if row.policy.Some? then row.policy.value.inputs
    else None
  }

  /** A retry: the current policy is the one this very command asked for. */
  predicate AlreadyApplied(row: DeviceRow, command: PolicyCommand) {
    && row.policy.Some?
    && row.policy.value.revision == command.expectedRevision + 1
    && row.policy.value.allowed == command.allowed
    && (command.inputs.None? || row.policy.value.inputs == command.inputs)
  }

  function ReadForPolicy(domain: Id, devices: map<DeviceId, DeviceRow>, command: PolicyCommand, context: Context): Task
  {
    var d := command.ref.device;
    if !context.HasScope(POLICY_WRITE) then Finished(TaskRefused(Forbidden))
    else if d !in devices || !devices[d].approved then Finished(TaskRefused(NotFound))
    else
      var row := devices[d];
      if context.actor.domain != domain || context.owner != row.owner then Finished(TaskRefused(BusinessOwnerMismatch))
      else if RowRef(domain, d, row) != command.ref then Finished(TaskRefused(RevisionConflict))
      else if PolicyRevisionOf(row) != command.expectedRevision then
        if AlreadyApplied(row, command) then Finished(PolicyStands(row.policy.value))
        else Finished(TaskRefused(RevisionConflict))
      else
        Ready(d, row, NewPolicy(OutputPolicy(PolicyRevisionOf(row) + 1, command.allowed, PolicyInputs(row, command))),
              Some(context.actor.principal))
  }

  function ReadClaim(claims: map<DeviceId, Claim>, assertion: Assertion): Task {
    var d := assertion.ref.device;
    if d !in claims || claims[d].domain != assertion.ref.domain
      || claims[d].state != Active then Finished(TaskRefused(NotFound))
    else if !SameKey(claims[d].operationalKey, assertion.key) || !assertion.signatureValid then
      Finished(TaskRefused(Unauthenticated))
    else ClaimChecked(assertion)
  }

  function ReadForManifest(domain: Id, devices: map<DeviceId, DeviceRow>, assertion: Assertion): Task {
    var d := assertion.ref.device;
    var declared := assertion.declared;
    if d !in devices || RowRef(domain, d, devices[d]) != assertion.ref then Finished(TaskRefused(NotFound))
    else
      var row := devices[d];
      if declared.id != row.manifest.id
        || declared.revision < row.manifest.revision then Finished(TaskRefused(RevisionConflict))
      else if declared.revision > row.manifest.revision then Ready(d, row, NewManifest(declared), None)
      else if declared != row.manifest then Finished(TaskRefused(RevisionConflict))
      else Finished(ManifestUnchanged(row.manifest))
  }

  function ChangeOf(wanted: Wanted, now: Moment): DeviceChange {
    match wanted
    case NewManifest(manifest) => AcceptManifest(manifest, now)
    case NewPolicy(policy) => SetPolicy(policy, now)
  }

  /** The audit record committed with the change. */
  function EventFor(task: Task, now: Moment): ManagementEvent
    requires task.Ready?
  {
    match task.wanted
    case NewManifest(manifest) =>
      ManagementEvent("live.eidolon.device.manifest-accepted.v1", task.principal, task.device, task.expected.owner, now,
                      ManifestAccepted(manifest, task.expected.manifest.digest))
    case NewPolicy(policy) =>
      ManagementEvent("device.output-policy.changed", task.principal, task.device, task.expected.owner, now,
                      PolicyChanged(task.expected.owner, policy))
  }

  // The commit, in place

  /** The device rows and the management audit ledger, behind the mutation lock. */
  class DeviceMutations {
    var devices: map<DeviceId, DeviceRow>
    var management: map<Id, ManagementEvent>

    constructor (devices: map<DeviceId, DeviceRow>, management: map<Id, ManagementEvent>)
      ensures this.devices == devices && this.management == management
    {
      this.devices, this.management := devices, management;
    }

    /** Compare, write the row, append the audit record; all of it or nothing. */
    method Commit(device: DeviceId, expected: Option<DeviceRow>, row: DeviceRow, eventId: Id, event: ManagementEvent)
      returns (committed: Result<DeviceRow, Problem>)
      modifies this
      ensures committed ==
        if event.subject != device then Err(InvalidArgument)
        else if (if device in old(devices) then Some(old(devices)[device])
                 else None) != expected then Err(RevisionConflict)
        else if eventId in old(management) && old(management)[eventId] != event then Err(IdempotencyConflict)
        else Ok(row)
      ensures committed.Ok? ==>
        devices == old(devices)[device := row] && management == old(management)[eventId := event]
      ensures committed.Err? ==> devices == old(devices) && management == old(management)
    {
      if event.subject != device {
        return Err(InvalidArgument);
      }
      var actual := if device in devices then Some(devices[device]) else None;
      if actual != expected {
        return Err(RevisionConflict);
      }
      var before := devices;
      devices := devices[device := row];
      if eventId in management {
        if management[eventId] != event {
          devices := before;
          return Err(IdempotencyConflict);
        }
      } else {
        management := management[eventId := event];
      }
      return Ok(row);
    }

    /** The rows and records as a part of the Admission tables. */
    ghost function Tables(): State
      reads this
    {
      EmptyState.(devices := devices, management := management)
    }

    /** The use cases' commit: the row they read with their change made. It lands, or is refused, as the step of the
        interleaved model says. */
    method CommitChange(device: DeviceId, expected: DeviceRow, change: DeviceChange, eventId: Id,
                        event: ManagementEvent)
      returns (committed: Result<DeviceRow, Problem>)
      modifies this
      ensures Tables() == CommitTx(old(Tables()), device, expected, change, eventId, event)
      ensures committed.Ok? <==> Lands(old(Tables()), device, expected, eventId, event)
      ensures committed.Ok? ==> device in devices && committed == Ok(devices[device])
    {
      var row: DeviceRow;
      match change {
        case AcceptManifest(manifest, now) =>
          row := expected.(manifest := manifest, updatedAt := now, aggregateRevision := expected.aggregateRevision + 1);
        case SetPolicy(policy, now) =>
          row := expected.(policy := Some(policy), updatedAt := now,
                           aggregateRevision := expected.aggregateRevision + 1);
      }
      committed := Commit(device, Some(expected), row, eventId, event);
    }
  }

  // Use cases among Admission transactions

  datatype System = System(tables: State, tasks: map<nat, Task>)

  datatype SystemStep =
    | Admission(step: Step)
    | Begin(id: nat, task: Task)
    | Check(id: nat)
    | Read(id: nat)
    | Commit(id: nat, eventId: Id, now: Moment)

  ghost predicate TaskLands(sys: System, step: SystemStep) {
    step.Commit? && step.id in sys.tasks && sys.tasks[step.id].Ready?
    && var task := sys.tasks[step.id];
       Lands(sys.tables, task.device, task.expected, step.eventId, EventFor(task, step.now))
  }

  ghost function CommitOutcome(sys: System, step: SystemStep): Outcome
    requires step.Commit? && step.id in sys.tasks && sys.tasks[step.id].Ready?
  {
    var task := sys.tasks[step.id];
    if TaskLands(sys, step) then ChangeCommitted(task.wanted)
    else if task.device !in sys.tables.devices
         || sys.tables.devices[task.device] != task.expected then TaskRefused(RevisionConflict)
    else TaskRefused(IdempotencyConflict)
  }

  /** One step: a whole Admission transaction, or one read or commit of a use case. Anything else is no step. */
  ghost function Advance(a: Authority, sys: System, step: SystemStep): System {
    match step
    case Admission(inner) =>
      if inner.CommitDevice? then sys else sys.(tables := Apply(a, sys.tables, inner))
    case Begin(id, task) =>
      if id in sys.tasks || !(task.Asserting? || task.PolicyAsked?) then sys else sys.(tasks := sys.tasks[id := task])
    case Check(id) =>
      if id !in sys.tasks || !sys.tasks[id].Asserting? then sys
      else sys.(tasks := sys.tasks[id := ReadClaim(sys.tables.claims, sys.tasks[id].assertion)])
    case Read(id) =>
      if id !in sys.tasks then sys
      else if sys.tasks[id].ClaimChecked? then
        sys.(tasks := sys.tasks[id := ReadForManifest(a.domain, sys.tables.devices, sys.tasks[id].assertion)])
      else if sys.tasks[id].PolicyAsked? then
        sys.(tasks := sys.tasks[id := ReadForPolicy(a.domain, sys.tables.devices, sys.tasks[id].command,
                                                    sys.tasks[id].context)])
      else sys
    case Commit(id, eventId, now) =>
      if id !in sys.tasks || !sys.tasks[id].Ready? then sys
      else
        var task := sys.tasks[id];
        System(CommitTx(sys.tables, task.device, task.expected, ChangeOf(task.wanted, now), eventId,
                        EventFor(task, now)),
               sys.tasks[id := Finished(CommitOutcome(sys, step))])
  }

  ghost function AdvanceAll(a: Authority, sys: System, steps: seq<SystemStep>): System
    decreases |steps|
  {
    if steps == [] then sys else Advance(a, AdvanceAll(a, sys, steps[..|steps| - 1]), steps[|steps| - 1])
  }

  ghost predicate SystemReachable(a: Authority, sys: System) {
    exists steps: seq<SystemStep> :: sys == AdvanceAll(a, System(EmptyState, map[]), steps)
  }

  /** The Admission step a system step takes, if it takes one. */
  ghost function StepTaken(sys: System, step: SystemStep): seq<Step> {
    match step
    case Admission(inner) => if inner.CommitDevice? then [] else [inner]
    case Commit(id, eventId, now) =>
      if id !in sys.tasks || !sys.tasks[id].Ready? then []
      else
        var task := sys.tasks[id];
        [CommitDevice(task.device, task.expected, ChangeOf(task.wanted, now), eventId, EventFor(task, now))]
    case _ => []
  }

  lemma AdvanceIsRun(a: Authority, sys: System, step: SystemStep)
    ensures Advance(a, sys, step).tables == Run(a, sys.tables, StepTaken(sys, step))
  {
    hide CreateTx, RecordStandingTx, WithdrawTx, ExpireTx, CancelTx, DecideTx, CollectTx, AckTx, RevokeTx, CommitTx,
      Lands;
    var taken := StepTaken(sys, step);
    if taken != [] {
      assert taken[..0] == [];
      assert Run(a, sys.tables, taken[..0]) == sys.tables;
    }
  }

  /** Every interleaving is some run of Admission transactions and commits. */
  lemma {:induction false} SystemRuns(a: Authority, sys: System, steps: seq<SystemStep>) returns (taken: seq<Step>)
    ensures AdvanceAll(a, sys, steps).tables == Run(a, sys.tables, taken)
    decreases |steps|
  {
    hide Apply, Advance;
    taken := [];
    if steps != [] {
      var n := |steps| - 1;
      taken := SystemRuns(a, sys, steps[..n]);
      var before := AdvanceAll(a, sys, steps[..n]);
      AdvanceIsRun(a, before, steps[n]);
      RunSplits(a, sys.tables, taken, StepTaken(before, steps[n]));
      taken := taken + StepTaken(before, steps[n]);
    }
  }

  lemma SystemTables(a: Authority, sys: System)
    requires SystemReachable(a, sys)
    ensures Reachable(a, sys.tables)
  {
    var steps: seq<SystemStep> :| sys == AdvanceAll(a, System(EmptyState, map[]), steps);
    var taken := SystemRuns(a, System(EmptyState, map[]), steps);
  }

  /** Under every interleaving a device row agrees with its Claim, and every active Claim has its row. */
  lemma RowsAgreeWithClaims(a: Authority, sys: System, d: DeviceId)
    requires SystemReachable(a, sys)
    ensures d in sys.tables.devices ==> d in sys.tables.claims && RowFits(sys.tables.claims[d], sys.tables.devices[d])
    ensures d in sys.tables.claims && sys.tables.claims[d].state == Active ==> d in sys.tables.devices
  {
    hide SystemReachable, Reachable, Extends;
    hide BindingsOk, ProposalsOk, DecisionsOk, GrantsOk, LinksOk, StagesOk, ClaimsOk, StreamOk, ResultsOk;
    SystemTables(a, sys);
    ReachableKeeps(a, sys.tables);
  }

  // A stale commit never lands

  lemma {:induction false} AdvanceSplits(a: Authority, sys: System, xs: seq<SystemStep>, ys: seq<SystemStep>)
    ensures AdvanceAll(a, sys, xs + ys) == AdvanceAll(a, AdvanceAll(a, sys, xs), ys)
    decreases |ys|
  {
    hide Advance;
    if ys == [] {
      assert xs + ys == xs;
    } else {
      assert (xs + ys)[..|xs + ys| - 1] == xs + ys[..|ys| - 1];
      AdvanceSplits(a, sys, xs, ys[..|ys| - 1]);
    }
  }

  lemma RowsAdvance(a: Authority, sys: System, steps: seq<SystemStep>, d: DeviceId)
    requires d in sys.tables.devices
    ensures d in AdvanceAll(a, sys, steps).tables.devices
    ensures RowFollows(sys.tables.devices[d], AdvanceAll(a, sys, steps).tables.devices[d])
  {
    hide ProposalsFollow, GrantsKept, Grown, WithdrawalsAdvance, ClaimsAdvance, StreamGrown, Advance, Run;
    var taken := SystemRuns(a, sys, steps);
    RunExtends(a, sys.tables, taken);
  }

  /** A row that looks the same again was never touched in between: its revision only rises. */
  lemma SameRowWasKept(a: Authority, sys: System, steps: seq<SystemStep>, k: nat, d: DeviceId)
    requires k <= |steps| && d in sys.tables.devices
    requires d in AdvanceAll(a, sys, steps).tables.devices
      && AdvanceAll(a, sys, steps).tables.devices[d] == sys.tables.devices[d]
    ensures d in AdvanceAll(a, sys, steps[..k]).tables.devices
      && AdvanceAll(a, sys, steps[..k]).tables.devices[d] == sys.tables.devices[d]
  {
    hide Advance, AdvanceAll;
    assert steps == steps[..k] + steps[k..];
    AdvanceSplits(a, sys, steps[..k], steps[k..]);
    RowsAdvance(a, sys, steps[..k], d);
    RowsAdvance(a, AdvanceAll(a, sys, steps[..k]), steps[k..], d);
  }

  /** A use case that read its row at `sys` lands later only if no step since then changed that row. */
  lemma StaleCommitNeverLands(a: Authority, sys: System, id: nat, steps: seq<SystemStep>, commit: SystemStep, k: nat)
    requires id in sys.tasks && sys.tasks[id].Ready? && k <= |steps|
    requires var task := sys.tasks[id];
      task.device in sys.tables.devices && sys.tables.devices[task.device] == task.expected
    requires commit.Commit? && commit.id == id && TaskLands(AdvanceAll(a, sys, steps), commit)
    ensures var task := sys.tasks[id];
      var devices := AdvanceAll(a, sys, steps[..k]).tables.devices;
      task.device in devices && devices[task.device] == task.expected
  {
    ReadyStays(a, sys, id, steps, k);
    ReadyStays(a, sys, id, steps, |steps|);
    assert steps[..|steps|] == steps;
    SameRowWasKept(a, sys, steps, k, sys.tasks[id].device);
  }

  /** What a use case has read stays what it will compare with, until it commits. */
  lemma {:induction false} ReadyStays(a: Authority, sys: System, id: nat, steps: seq<SystemStep>, k: nat)
    requires id in sys.tasks && sys.tasks[id].Ready? && k <= |steps|
    ensures var after := AdvanceAll(a, sys, steps[..k]).tasks;
      id in after && (after[id].Ready? || after[id].Finished?) && (after[id].Ready? ==> after[id] == sys.tasks[id])
    decreases k
  {
    if k > 0 {
      ReadyStays(a, sys, id, steps, k - 1);
      assert steps[..k][..k - 1] == steps[..k - 1];
      hide AdvanceAll, Apply, CommitTx, TaskLands, CommitOutcome;
      assert AdvanceAll(a, sys, steps[..k]) == Advance(a, AdvanceAll(a, sys, steps[..k - 1]), steps[k - 1]) by {
        LastStep(a, sys, steps[..k]);
      }
    }
  }

  lemma LastStep(a: Authority, sys: System, steps: seq<SystemStep>)
    requires steps != []
    ensures AdvanceAll(a, sys, steps) == Advance(a, AdvanceAll(a, sys, steps[..|steps| - 1]), steps[|steps| - 1])
  {
  }

  // Policies

  function PolicyAt(devices: map<DeviceId, DeviceRow>, d: DeviceId): Option<OutputPolicy> {
    if d in devices then devices[d].policy else None
  }

  function PolicyRevisionAt(devices: map<DeviceId, DeviceRow>, d: DeviceId): nat {
    if d in devices then PolicyRevisionOf(devices[d]) else 0
  }

  /** Prepared changes move on from the row they were prepared for. */
  ghost predicate TasksOk(sys: System) {
    forall id :: id in sys.tasks && sys.tasks[id].Ready? ==> MovesOn(sys.tasks[id].expected, sys.tasks[id].wanted)
  }

  predicate MovesOn(expected: DeviceRow, wanted: Wanted) {
    match wanted
    case NewManifest(manifest) => manifest.id == expected.manifest.id && manifest.revision > expected.manifest.revision
    case NewPolicy(policy) => policy.revision == PolicyRevisionOf(expected) + 1
  }

  lemma AdvanceKeepsTasks(a: Authority, sys: System, step: SystemStep)
    requires TasksOk(sys)
    ensures TasksOk(Advance(a, sys, step))
  {
    hide Apply, CommitTx, TaskLands;
  }

  lemma {:induction false} TasksStayOk(a: Authority, sys: System, steps: seq<SystemStep>)
    requires TasksOk(sys)
    ensures TasksOk(AdvanceAll(a, sys, steps))
    decreases |steps|
  {
    hide TasksOk, Advance;
    if steps != [] {
      TasksStayOk(a, sys, steps[..|steps| - 1]);
      AdvanceKeepsTasks(a, AdvanceAll(a, sys, steps[..|steps| - 1]), steps[|steps| - 1]);
    }
  }

  lemma RevocationRows(s: State, key: CommandKey, ref: DeviceRef, reason: string, eventId: Id, now: Moment)
    requires Revocable(s, ref)
    ensures RevokeNow(s, key, ref, reason, eventId, now).devices == RevokedRows(s.devices, ref, now)
  {
    UndoFrame(s, ref, now);
    hide Undo, Revocable, RevokedRows;
  }

  lemma RevokeRows(s: State, commandId: Id, ref: DeviceRef, reason: string, context: Context, eventId: Id, now: Moment)
    ensures var s' := RevokeTx(s, commandId, ref, reason, context, eventId, now).0;
      s'.devices == s.devices || s'.devices == RevokedRows(s.devices, ref, now)
  {
    hide RevokeProblem, RevokedRows, RevokeNow, Undo, Revocable, RevokedBefore, Replay;
    var key := CommandKey(context.actor.domain, RevokeKind, commandId);
    var done := RevokeTx(s, commandId, ref, reason, context, eventId, now).0;
    if done != s {
      assert Revocable(s, ref) by { NoProblem(s, ref, context); }
      if ref.device in s.claims && s.claims[ref.device].state == Revoked {
        assert done == Save(s, key, RevokeRequest(ref, reason), RevokedBefore(s.claims[ref.device], ref));
      } else {
        assert done == RevokeNow(s, key, ref, reason, eventId, now);
        assert done.devices == RevokedRows(s.devices, ref, now) by {
          RevocationRows(s, key, ref, reason, eventId, now);
        }
      }
    }
  }

  lemma AckRows(a: Authority, s: State, commandId: Id, request: Request, proofValid: bool, eventId: Id, now: Moment)
    requires request.AckRequest?
    ensures var s' := AckTx(a, s, commandId, request, proofValid, eventId, now).0;
      || s'.devices == s.devices
      || (AckProblem(s, request, proofValid, now).None? && Ackable(s, request, eventId)
          && var ref := s.grants[request.grant].ref;
             s'.devices == s.devices[ref.device := ActiveRow(s.devices, ref,
                                                             s.decisions[s.grants[request.grant].decision].owner,
                                                             s.proposals[request.enrollment].manifest, now)])
  {
    hide AckProblem, ActiveRow;
  }

  /** Admission never touches an output policy: a Body that comes back keeps its own. */
  lemma AdmissionKeepsPolicy(a: Authority, s: State, step: Step, d: DeviceId)
    requires !step.CommitDevice?
    ensures PolicyAt(Apply(a, s, step).devices, d) == PolicyAt(s.devices, d)
  {
    hide CreateTx, DecideTx, AckTx, RevokeTx, CommitTx, RecordStandingTx, WithdrawTx, ExpireTx, CancelTx, CollectTx,
      AckProblem;
    if WellFormed(step) {
      match step
      case Create(commandId, payload, verified, enrollment, challenge, ids, now) =>
        CreateLeavesRows(a, s, commandId, payload, verified, enrollment, challenge, ids, now);
      case Decide(commandId, request, context, ids, now) =>
        DecideLeavesRows(a, s, commandId, request, context, ids, now);
      case AckGrant(commandId, request, proofValid, eventId, now) =>
        AckRows(a, s, commandId, request, proofValid, eventId, now);
      case Revoke(commandId, ref, reason, context, eventId, now) =>
        RevokeRows(s, commandId, ref, reason, context, eventId, now);
      case _ =>
        QuietCommandsLeaveRows(a, s, step);
    }
  }

  /** The policy a step commits for a device, if it commits one. */
  ghost function PolicyLanded(sys: System, step: SystemStep, d: DeviceId): Option<OutputPolicy> {
    if TaskLands(sys, step) && sys.tasks[step.id].device == d && sys.tasks[step.id].wanted.NewPolicy?
    then Some(sys.tasks[step.id].wanted.policy) else None
  }

  /** Only a committed policy update changes a policy, and then to the policy it prepared, one revision up. */
  lemma PolicyStep(a: Authority, sys: System, step: SystemStep, d: DeviceId)
    requires TasksOk(sys)
    ensures var landed := PolicyLanded(sys, step, d);
      var devices' := Advance(a, sys, step).tables.devices;
      && PolicyAt(devices', d) == (if landed.Some? then landed else PolicyAt(sys.tables.devices, d))
      && (landed.Some? ==> PolicyRevisionAt(devices', d) == PolicyRevisionAt(sys.tables.devices, d) + 1)
  {
    hide Apply;
    if step.Admission? && !step.step.CommitDevice? {
      AdmissionKeepsPolicy(a, sys.tables, step.step, d);
    }
  }

  ghost function PoliciesLanded(a: Authority, sys: System, steps: seq<SystemStep>, d: DeviceId): nat
    decreases |steps|
  {
    if steps == [] then 0
    else
      PoliciesLanded(a, sys, steps[..|steps| - 1], d)
      + if PolicyLanded(AdvanceAll(a, sys, steps[..|steps| - 1]), steps[|steps| - 1], d).Some? then 1 else 0
  }

  /** Over any run the policy revision rises by exactly one per committed policy change. */
  lemma {:induction false} PolicyRevisionCounts(a: Authority, sys: System, steps: seq<SystemStep>, d: DeviceId)
    requires TasksOk(sys)
    ensures PolicyRevisionAt(AdvanceAll(a, sys, steps).tables.devices, d)
         == PolicyRevisionAt(sys.tables.devices, d) + PoliciesLanded(a, sys, steps, d)
    ensures PoliciesLanded(a, sys, steps, d) == 0 ==>
      PolicyAt(AdvanceAll(a, sys, steps).tables.devices, d) == PolicyAt(sys.tables.devices, d)
    decreases |steps|
  {
    hide Advance, TasksOk, PolicyLanded;
    if steps != [] {
      var n := |steps| - 1;
      PolicyRevisionCounts(a, sys, steps[..n], d);
      TasksStayOk(a, sys, steps[..n]);
      PolicyStep(a, AdvanceAll(a, sys, steps[..n]), steps[n], d);
    }
  }

  /** A retry of a committed policy update, before any later one commits, finds its own policy standing
      or is refused entry; it never prepares a second change. */
  lemma RetryFindsItsPolicy(a: Authority, read: map<DeviceId, DeviceRow>, command: PolicyCommand, context: Context,
                            sys: System, commit: SystemStep, steps: seq<SystemStep>)
    requires TasksOk(sys) && TaskLands(sys, commit) && sys.tasks[commit.id].wanted.NewPolicy?
    requires ReadForPolicy(a.domain, read, command, context) == sys.tasks[commit.id]
    requires PoliciesLanded(a, Advance(a, sys, commit), steps, command.ref.device) == 0
    ensures var devices := AdvanceAll(a, Advance(a, sys, commit), steps).tables.devices;
      var d := command.ref.device;
      var again := ReadForPolicy(a.domain, devices, command, context);
      && again.Finished?
      && (d in devices && devices[d].approved && devices[d].owner == context.owner
          && RowRef(a.domain, d, devices[d]) == command.ref
          ==> again.outcome == PolicyStands(sys.tasks[commit.id].wanted.policy))
  {
    hide Advance;
    AdvanceKeepsTasks(a, sys, commit);
    PolicyStep(a, sys, commit, command.ref.device);
    PolicyRevisionCounts(a, Advance(a, sys, commit), steps, command.ref.device);
  }

  // Manifests

  /** The same name, and a later declaration or the very same one. */
  predicate Onward(m: ManifestRef, m': ManifestRef) {
    m'.id == m.id && (m'.revision > m.revision || m' == m)
  }

  /** The Grant of this DeviceRef can no longer be acknowledged. */
  ghost predicate Spent(grants: map<Id, Grant>, acks: map<Id, Ack>, ref: DeviceRef) {
    exists g :: g in grants && grants[g].ref == ref && (g in acks || grants[g].revokedAt.Some?)
  }

  lemma RowRefIsSpent(a: Authority, s: State, d: DeviceId)
    requires Inv(a, s) && d in s.devices
    ensures Spent(s.grants, s.acks, RowRef(a.domain, d, s.devices[d]))
  {
    hide BindingsOk, ProposalsOk, DecisionsOk, GrantsOk, LinksOk, StagesOk, ClaimsOk, StreamOk, ResultsOk;
    var g := BackingGrant(s, d);
    assert RowFits(s.claims[d], s.devices[d]);
    GrantFacts(a, s.proposals, s.decisions, s.grants, g);
  }

  lemma SpentStays(s: State, s': State, ref: DeviceRef)
    requires Extends(s, s') && Spent(s.grants, s.acks, ref)
    ensures Spent(s'.grants, s'.acks, ref)
  {
    hide ProposalsFollow, WithdrawalsAdvance, ClaimsAdvance, DevicesAdvance, StreamGrown;
    var g :| g in s.grants && s.grants[g].ref == ref && (g in s.acks || s.grants[g].revokedAt.Some?);
    assert GrantKept(s.grants[g], s'.grants[g]);
  }

  /** An acknowledgement never brings back a DeviceRef whose Grant is spent. */
  lemma AckIsForAnother(a: Authority, s: State, request: Request, proofValid: bool, eventId: Id, now: Moment,
                        ref: DeviceRef)
    requires Inv(a, s) && request.AckRequest? && AckProblem(s, request, proofValid, now).None?
    requires Ackable(s, request, eventId)
    requires Spent(s.grants, s.acks, ref)
    ensures s.grants[request.grant].ref != ref
  {
    hide BindingsOk, ProposalsOk, DecisionsOk, GrantsOk, LinksOk, StagesOk, ClaimsOk, StreamOk, DevicesOk, ResultsOk;
    var g :| g in s.grants && s.grants[g].ref == ref && (g in s.acks || s.grants[g].revokedAt.Some?);
    if s.grants[request.grant].ref == ref {
      RefFixesGrant(a, s, g, request.grant);
    }
  }

  /** The Admission transactions leave the row of a spent DeviceRef its Manifest, and bring none back. */
  lemma AdmissionKeepsManifest(a: Authority, s: State, step: Step, d: DeviceId)
    requires Inv(a, s) && !step.CommitDevice? && d in Apply(a, s, step).devices
    requires Spent(s.grants, s.acks, RowRef(a.domain, d, Apply(a, s, step).devices[d]))
    ensures d in s.devices && s.devices[d].manifest == Apply(a, s, step).devices[d].manifest
    ensures RowRef(a.domain, d, s.devices[d]) == RowRef(a.domain, d, Apply(a, s, step).devices[d])
  {
    hide CreateTx, DecideTx, AckTx, RevokeTx, CommitTx, RecordStandingTx, WithdrawTx, ExpireTx, CancelTx, CollectTx,
      AckProblem;
    hide BindingsOk, ProposalsOk, DecisionsOk, LinksOk, StagesOk, ClaimsOk, StreamOk, DevicesOk, ResultsOk, GrantsOk,
      Spent;
    if WellFormed(step) {
      match step
      case Create(commandId, payload, verified, enrollment, challenge, ids, now) =>
        CreateLeavesRows(a, s, commandId, payload, verified, enrollment, challenge, ids, now);
      case Decide(commandId, request, context, ids, now) =>
        DecideLeavesRows(a, s, commandId, request, context, ids, now);
      case AckGrant(commandId, request, proofValid, eventId, now) =>
        AckKeepsManifest(a, s, step, d);
      case Revoke(commandId, ref, reason, context, eventId, now) =>
        RevokeRows(s, commandId, ref, reason, context, eventId, now);
      case _ =>
        QuietCommandsLeaveRows(a, s, step);
    }
  }

  lemma AckKeepsManifest(a: Authority, s: State, step: Step, d: DeviceId)
    requires Inv(a, s) && step.AckGrant? && step.request.AckRequest?
    requires var s' := AckTx(a, s, step.commandId, step.request, step.proofValid, step.eventId, step.now).0;
      d in s'.devices && Spent(s.grants, s.acks, RowRef(a.domain, d, s'.devices[d]))
    ensures var s' := AckTx(a, s, step.commandId, step.request, step.proofValid, step.eventId, step.now).0;
      d in s.devices && s'.devices[d] == s.devices[d]
  {
    hide AckTx, AckProblem, Inv, Spent;
    AckRows(a, s, step.commandId, step.request, step.proofValid, step.eventId, step.now);
    var s' := AckTx(a, s, step.commandId, step.request, step.proofValid, step.eventId, step.now).0;
    if s'.devices != s.devices {
      AckIsForAnother(a, s, step.request, step.proofValid, step.eventId, step.now, RowRef(a.domain, d, s'.devices[d]));
      RefInDomain(a, s, step.request.grant);
    }
  }

  lemma RefInDomain(a: Authority, s: State, g: Id)
    requires Inv(a, s) && g in s.grants
    ensures s.grants[g].ref.domain == a.domain
  {
    hide BindingsOk, ProposalsOk, DecisionsOk, GrantsOk, LinksOk, StagesOk, ClaimsOk, StreamOk, DevicesOk, ResultsOk;
    GrantFacts(a, s.proposals, s.decisions, s.grants, g);
  }

  lemma ManifestStep(a: Authority, sys: System, step: SystemStep, d: DeviceId)
    requires Inv(a, sys.tables) && TasksOk(sys) && d in Advance(a, sys, step).tables.devices
    requires Spent(sys.tables.grants, sys.tables.acks, RowRef(a.domain, d, Advance(a, sys, step).tables.devices[d]))
    ensures d in sys.tables.devices
    ensures RowRef(a.domain, d, sys.tables.devices[d]) == RowRef(a.domain, d, Advance(a, sys, step).tables.devices[d])
    ensures Onward(sys.tables.devices[d].manifest, Advance(a, sys, step).tables.devices[d].manifest)
  {
    hide Apply, Inv, Spent;
    if step.Admission? && !step.step.CommitDevice? {
      AdmissionKeepsManifest(a, sys.tables, step.step, d);
    }
  }

  lemma AdvanceKeeps(a: Authority, sys: System, step: SystemStep)
    requires Inv(a, sys.tables) && TasksOk(sys)
    ensures Inv(a, Advance(a, sys, step).tables) && TasksOk(Advance(a, sys, step))
    ensures Extends(sys.tables, Advance(a, sys, step).tables)
  {
    hide Inv, TasksOk, Extends, Advance, Run;
    AdvanceIsRun(a, sys, step);
    RunKeeps(a, sys.tables, StepTaken(sys, step));
    RunExtends(a, sys.tables, StepTaken(sys, step));
    AdvanceKeepsTasks(a, sys, step);
  }

  lemma {:induction false} ManifestSteps(a: Authority, sys: System, steps: seq<SystemStep>, d: DeviceId, ref: DeviceRef)
    requires Inv(a, sys.tables) && TasksOk(sys) && Spent(sys.tables.grants, sys.tables.acks, ref)
    ensures var end := AdvanceAll(a, sys, steps);
      && Inv(a, end.tables) && TasksOk(end) && Spent(end.tables.grants, end.tables.acks, ref)
      && (d in end.tables.devices && RowRef(a.domain, d, end.tables.devices[d]) == ref ==>
            && d in sys.tables.devices && RowRef(a.domain, d, sys.tables.devices[d]) == ref
            && Onward(sys.tables.devices[d].manifest, end.tables.devices[d].manifest))
    decreases |steps|
  {
    hide Inv, TasksOk, Extends, Advance, Spent, RowRef;
    if steps != [] {
      var n := |steps| - 1;
      var before := AdvanceAll(a, sys, steps[..n]);
      var end := AdvanceAll(a, sys, steps);
      ManifestSteps(a, sys, steps[..n], d, ref);
      AdvanceKeeps(a, before, steps[n]);
      SpentStays(before.tables, end.tables, ref);
      if d in end.tables.devices && RowRef(a.domain, d, end.tables.devices[d]) == ref {
        ManifestStep(a, before, steps[n], d);
      }
    }
  }

  /** While a device is at one DeviceRef its Manifest keeps its name and only moves on: between any two
      moments that show the same DeviceRef the declared revision rose, or the Manifest is the same. */
  lemma ManifestNeverRollsBack(a: Authority, sys: System, steps: seq<SystemStep>, d: DeviceId)
    requires SystemReachable(a, sys) && d in sys.tables.devices
    ensures d in AdvanceAll(a, sys, steps).tables.devices
    ensures var row, row' := sys.tables.devices[d], AdvanceAll(a, sys, steps).tables.devices[d];
      RowRef(a.domain, d, row') == RowRef(a.domain, d, row) ==> Onward(row.manifest, row'.manifest)
  {
    hide Inv, Extends, Advance, Spent, RowRef, Reachable, AdvanceAll;
    RowsAdvance(a, sys, steps, d);
    SystemTables(a, sys);
    ReachableKeeps(a, sys.tables);
    SystemTasks(a, sys);
    RowRefIsSpent(a, sys.tables, d);
    ManifestSteps(a, sys, steps, d, RowRef(a.domain, d, sys.tables.devices[d]));
  }

  lemma SystemTasks(a: Authority, sys: System)
    requires SystemReachable(a, sys)
    ensures TasksOk(sys)
  {
    var steps: seq<SystemStep> :| sys == AdvanceAll(a, System(EmptyState, map[]), steps);
    TasksStayOk(a, System(EmptyState, map[]), steps);
  }
}
