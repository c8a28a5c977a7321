/** What every run of Admission transactions guarantees, from the empty database on. */
module AdmissionTheorems {
  import opened Prelude
  import opened AdmissionDomain
  import opened AdmissionTables
  import opened AdmissionCommands
  import opened AdmissionInvariant
  import opened AdmissionPreservation
  import opened AdmissionHistory

  /** The tables after some run of transactions, in any order and with any inputs. */
  ghost predicate Reachable(a: Authority, s: State) {
    exists steps: seq<Step> :: s == Run(a, EmptyState, steps)
  }

  lemma ReachableKeeps(a: Authority, s: State)
    requires Reachable(a, s)
    ensures Inv(a, s) && Extends(EmptyState, s)
  {
    hide Inv, Extends;
    var steps: seq<Step> :| s == Run(a, EmptyState, steps);
    InvEmpty(a);
    RunKeeps(a, EmptyState, steps);
    RunExtends(a, EmptyState, steps);
  }

  lemma RunReachable(a: Authority, s: State, steps: seq<Step>)
    requires Reachable(a, s)
    ensures Reachable(a, Run(a, s, steps))
  {
    hide Apply;
    var before: seq<Step> :| s == Run(a, EmptyState, before);
    RunSplits(a, EmptyState, before, steps);
  }

  // Proposals

  /** A Proposal's revision counts its moves from pending review, every one of them allowed. */
  lemma ProposalCountsItsMoves(a: Authority, s: State, e: Id)
    requires Reachable(a, s) && e in s.proposals
    ensures s.proposals[e].revision >= 1
    ensures Path(PendingReview, s.proposals[e].state, s.proposals[e].revision - 1)
  {
    hide Inv, Path;
    ReachableKeeps(a, s);
    assert Begins(s.proposals[e]);
  }

  /** Between two moments a Proposal only moves along allowed transitions, one revision each. */
  lemma ProposalMovesAllowed(a: Authority, s: State, steps: seq<Step>, e: Id)
    requires e in s.proposals
    ensures e in Run(a, s, steps).proposals && Follows(s.proposals[e], Run(a, s, steps).proposals[e])
  {
    hide Follows;
    RunExtends(a, s, steps);
  }

  lemma {:induction false} NoPathFromTerminal(from: ProposalState, to: ProposalState, n: nat)
    requires Terminal(from) && Path(from, to, n)
    ensures n == 0
  {
    assert forall mid :: AllowedTransition(from, mid) ==> !Terminal(from);
  }

  /** A terminal Proposal is never touched again. */
  lemma TerminalForever(a: Authority, s: State, steps: seq<Step>, e: Id)
    requires e in s.proposals && Terminal(s.proposals[e].state)
    ensures e in Run(a, s, steps).proposals && Run(a, s, steps).proposals[e] == s.proposals[e]
  {
    ProposalMovesAllowed(a, s, steps, e);
    var p, p' := s.proposals[e], Run(a, s, steps).proposals[e];
    NoPathFromTerminal(p.state, p'.state, p'.revision - p.revision);
  }

  /** At most one Decision per Proposal, taken at revision 1 on the Manifest the Proposal carries. */
  lemma OneDecisionAtRevisionOne(a: Authority, s: State, d: Id, d': Id)
    requires Reachable(a, s)
    requires d in s.decisions && d' in s.decisions && s.decisions[d].enrollment == s.decisions[d'].enrollment
    ensures d == d' && s.decisions[d].expectedRevision == 1
    ensures s.decisions[d].enrollment in s.proposals
    ensures s.decisions[d].reviewed == s.proposals[s.decisions[d].enrollment].manifest
  {
    hide BindingsOk, ProposalsOk, GrantsOk, LinksOk, StagesOk, ClaimsOk, StreamOk, DevicesOk, ResultsOk, Extends;
    ReachableKeeps(a, s);
    assert DecisionOk(a, s.proposals, s.decisions[d]);
  }

  // Generations and DeviceRefs

  /** The Grants of a hardware identity carry exactly the generations 1..n, each once. */
  lemma GenerationsWithoutReuse(a: Authority, s: State, hardware: Id)
    requires Reachable(a, s)
    ensures forall k: nat :: Granted(s.grants, a.domain, hardware, k) <==>
      1 <= k <= MaxGeneration(s.grants, a.domain, hardware)
    ensures forall g, h :: g in s.grants && h in s.grants && SameIssue(s.grants[g], s.grants[h]) ==> g == h
  {
    hide BindingsOk, ProposalsOk, DecisionsOk, GrantsOk, LinksOk, StagesOk, ClaimsOk, StreamOk, DevicesOk, ResultsOk,
      Extends;
    ReachableKeeps(a, s);
    forall k: nat
      ensures Granted(s.grants, a.domain, hardware, k) <==> 1 <= k <= MaxGeneration(s.grants, a.domain, hardware)
    {
      GenerationsGapless(a, s.proposals, s.decisions, s.grants, hardware, k);
    }
    assert forall g, h :: g in s.grants && h in s.grants && SameIssue(s.grants[g], s.grants[h]) ==> g == h by {
      IssuesUnique(a, s.proposals, s.decisions, s.grants);
    }
  }

  lemma GenerationsGapless(a: Authority, proposals: map<Id, Proposal>, decisions: map<Id, Decision>,
                           grants: map<Id, Grant>, hardware: Id, k: nat)
    requires GrantsOk(a, proposals, decisions, grants)
    ensures Granted(grants, a.domain, hardware, k) <==> 1 <= k <= MaxGeneration(grants, a.domain, hardware)
  {
    hide GrantOk, SameIssue;
    var n := MaxGeneration(grants, a.domain, hardware);
    if Granted(grants, a.domain, hardware, k) {
      var g :| g in grants && grants[g].domain == a.domain && grants[g].hardware == hardware
        && grants[g].claimGeneration == k;
      assert GrantOk(a, proposals, decisions, grants[g]);
      GrantFacts(a, proposals, decisions, grants, g);
    }
    if 1 <= k < n {
      var g :| g in grants && grants[g].domain == a.domain && grants[g].hardware == hardware
        && grants[g].claimGeneration == n;
      assert Granted(grants, a.domain, grants[g].hardware, k);
    }
  }

  lemma IssuesUnique(a: Authority, proposals: map<Id, Proposal>, decisions: map<Id, Decision>, grants: map<Id, Grant>)
    requires GrantsOk(a, proposals, decisions, grants)
    ensures forall g, h :: g in grants && h in grants && SameIssue(grants[g], grants[h]) ==> g == h
  {
  }

  /** A device, and so the key it is derived from, has one hardware identity for good. */
  lemma KeyHasOneHardwareIdentity(a: Authority, s: State, steps: seq<Step>, e: Id, f: Id)
    requires Reachable(a, s)
    requires e in s.proposals && f in Run(a, s, steps).proposals
    requires s.proposals[e].device == Run(a, s, steps).proposals[f].device
    ensures s.proposals[e].hardware == Run(a, s, steps).proposals[f].hardware
  {
    var t := Run(a, s, steps);
    RunReachable(a, s, steps);
    ReachableKeeps(a, t);
    ProposalMovesAllowed(a, s, steps, e);
    DeviceFixesHardware(a, t, e, f);
  }

  /** A DeviceRef is granted at most once, activated at most once, revoked at most once,
      and never activated after it was revoked. */
  lemma DeviceRefLivesOnce(a: Authority, s: State, g: Id, h: Id, i: nat, j: nat)
    requires Reachable(a, s)
    ensures g in s.grants && h in s.grants && s.grants[g].ref == s.grants[h].ref ==> g == h
    ensures i < j < |s.stream| && s.stream[i].ref == s.stream[j].ref ==>
      s.stream[i].body.Activation? && s.stream[j].body.Revocation?
  {
    hide BindingsOk, ProposalsOk, DecisionsOk, GrantsOk, LinksOk, StagesOk, ClaimsOk, DevicesOk, ResultsOk, Extends;
    ReachableKeeps(a, s);
    if g in s.grants && h in s.grants && s.grants[g].ref == s.grants[h].ref {
      RefFixesGrant(a, s, g, h);
    }
    if i < j < |s.stream| {
      assert InOrder(s.stream[i], s.stream[j]);
    }
  }

  // Claims

  /** An active Claim comes from an approval whose Grant was acknowledged and stands; a revoked
      Claim's Grant is revoked; and all the rows agree about whose device it is and what it is. */
  lemma ClaimProvenance(a: Authority, s: State, c: DeviceId) returns (g: Id)
    requires Reachable(a, s) && c in s.claims
    ensures g in s.grants && s.grants[g].decision == s.claims[c].decision
    ensures var claim := s.claims[c];
      var grant := s.grants[g];
      && claim.decision in s.decisions && s.decisions[claim.decision].approve
      && s.decisions[claim.decision].enrollment == grant.enrollment && grant.enrollment in s.proposals
      && var p := s.proposals[grant.enrollment];
         && c == p.device && c == DeviceInstanceId(p.operationalKey)
         && claim.operationalKey == p.operationalKey && grant.operationalKeyId == KeyId(p.operationalKey)
         && claim.hardware == grant.hardware == p.hardware
         && claim.manifest == grant.manifest == p.manifest == s.decisions[claim.decision].reviewed
         && claim.owner == s.decisions[claim.decision].owner
         && ClaimRef(c, claim) == grant.ref
         && (claim.state == Active ==> g in s.acks && grant.revokedAt.None? && p.state == GrantAcknowledged)
         && (claim.state == Revoked ==> grant.revokedAt.Some?)
  {
    hide BindingsOk, ProposalsOk, DecisionsOk, GrantsOk, LinksOk, StagesOk, ClaimsOk, StreamOk, DevicesOk, ResultsOk,
      Extends;
    ReachableKeeps(a, s);
    g := BackingGrant(s, c);
    GrantFacts(a, s.proposals, s.decisions, s.grants, g);
    StageFacts(s.proposals, s.grants, s.acks, g);
    ProposalInDomain(a, s, s.grants[g].enrollment);
    DecisionFacts(a, s.proposals, s.decisions, s.claims[c].decision);
  }

  lemma DecisionFacts(a: Authority, proposals: map<Id, Proposal>, decisions: map<Id, Decision>, d: Id)
    requires DecisionsOk(a, proposals, decisions) && d in decisions
    ensures DecisionOk(a, proposals, decisions[d])
  {
  }

  /** Each device's Claim events are numbered 1..k, k being the Claim row's revision. */
  lemma EventsAreNumbered(a: Authority, s: State, d: DeviceId)
    requires Reachable(a, s)
    ensures Revisions(s.stream, d) == UpTo(CurrentRevision(s.claims, d))
  {
    hide BindingsOk, ProposalsOk, DecisionsOk, GrantsOk, LinksOk, StagesOk, ClaimsOk, DevicesOk, ResultsOk, Extends;
    ReachableKeeps(a, s);
  }

  /** A reader of the stream who keeps each device's last event knows its Claim. */
  lemma StreamTellsClaims(a: Authority, s: State, d: DeviceId)
    requires Reachable(a, s)
    ensures TellsClaim(s.claims, d, Latest(s.stream, d))
  {
    hide BindingsOk, ProposalsOk, DecisionsOk, GrantsOk, LinksOk, StagesOk, ClaimsOk, DevicesOk, ResultsOk, Extends;
    ReachableKeeps(a, s);
  }

  /** The last Grant acknowledged is the one a device's Claim shows, whatever generation the Claim was at; the
      revision counts on, and no other Claim is touched. */
  lemma LastAckWins(a: Authority, s: State, commandId: Id, request: Request, proofValid: bool, eventId: Id, now: Moment)
    requires request.AckRequest? && AckTx(a, s, commandId, request, proofValid, eventId, now).1.Committed?
    ensures request.grant in s.grants
    ensures var s' := AckTx(a, s, commandId, request, proofValid, eventId, now).0;
      var d := s.grants[request.grant].ref.device;
      && d in s'.claims && s'.claims == s.claims[d := s'.claims[d]]
      && s'.claims[d].state == Active && ClaimRef(d, s'.claims[d]) == s.grants[request.grant].ref
      && s'.claims[d].revision == CurrentRevision(s.claims, d) + 1
  {
    hide AckProblem, AckNow, ActiveRow, Replay;
    var event, saved := AckShape(s, CommandKey(a.domain, AckKind, commandId), request, eventId, now);
  }

  // When a Claim's generation falls

  /** The generation a device's Claim is at; 0 without one. */
  function GenerationOf(claims: map<DeviceId, Claim>, c: DeviceId): nat {
    if c in claims then claims[c].claimGeneration else 0
  }

  /** A committed acknowledgement of a Grant of this device that is older than the Claim it overwrites. */
  ghost predicate StaleAck(a: Authority, s: State, step: Step, c: DeviceId) {
    && step.AckGrant? && WellFormed(step) && ReplyOf(a, s, step).Committed?
    && step.request.grant in s.grants
    && s.grants[step.request.grant].ref.device == c
    && s.grants[step.request.grant].ref.claimGeneration < GenerationOf(s.claims, c)
  }

  lemma AckGeneration(a: Authority, s: State, step: Step, c: DeviceId)
    requires step.AckGrant? && WellFormed(step)
    ensures GenerationOf(Apply(a, s, step).claims, c) < GenerationOf(s.claims, c) <==> StaleAck(a, s, step, c)
  {
    hide AckProblem, AckNow, Replay, CurrentRevision;
    if ReplyOf(a, s, step).Committed? {
      LastAckWins(a, s, step.commandId, step.request, step.proofValid, step.eventId, step.now);
    }
  }

  /** A revocation leaves the generation of a Claim there is alone. */
  lemma UndoGeneration(s: State, ref: DeviceRef, now: Moment, c: DeviceId)
    requires Revocable(s, ref) && c in s.claims
    ensures GenerationOf(Undo(s, ref, now).claims, c) == GenerationOf(s.claims, c)
  {
    if ref.device in s.claims {
      hide RevokeGrantOf;
      var claim := s.claims[ref.device];
      assert Undo(s, ref, now).claims == s.claims[ref.device := claim.(state := Revoked, revision := claim.revision + 1,
                                                                       updatedAt := now, revokedAt := Some(now))];
    } else {
      UndoneElsewhere(s, ref, now);
      hide Undo;
    }
  }

  lemma UndoneElsewhere(s: State, ref: DeviceRef, now: Moment)
    requires Revocable(s, ref) && ref.device !in s.claims
    ensures var u := Undo(s, ref, now);
      ref.device in u.claims && u.claims == s.claims[ref.device := u.claims[ref.device]]
  {
    hide Reached, RevokedClaim, GrantForRef;
  }

  lemma RevokeGeneration(s: State, commandId: Id, ref: DeviceRef, reason: string, context: Context, eventId: Id,
                         now: Moment, c: DeviceId)
    ensures var s' := RevokeTx(s, commandId, ref, reason, context, eventId, now).0;
      GenerationOf(s'.claims, c) >= GenerationOf(s.claims, c)
  {
    hide RevokeProblem, RevokeNow, Undo, Revocable, RevokedBefore, Replay, Revokes;
    var key := CommandKey(context.actor.domain, RevokeKind, commandId);
    var done := RevokeTx(s, commandId, ref, reason, context, eventId, now).0;
    if done != s {
      assert Revocable(s, ref) by { NoProblem(s, ref, context); }
      if ref.device in s.claims && s.claims[ref.device].state == Revoked {
        assert done == Save(s, key, RevokeRequest(ref, reason), RevokedBefore(s.claims[ref.device], ref));
      } else {
        assert done == RevokeNow(s, key, ref, reason, eventId, now);
        RevokedClaims(s, key, ref, reason, eventId, now);
        if c in s.claims { UndoGeneration(s, ref, now, c); }
      }
    }
  }

  lemma RevokedClaims(s: State, key: CommandKey, ref: DeviceRef, reason: string, eventId: Id, now: Moment)
    requires Revocable(s, ref)
    ensures RevokeNow(s, key, ref, reason, eventId, now).claims == Undo(s, ref, now).claims
  {
    UndoFrame(s, ref, now);
    hide Undo, Revocable, RevokedRows;
  }

  lemma DecisionLeavesRows(a: Authority, s: State, e: Id, approve: bool, actor: Actor, owner: Id, reviewed: ManifestRef,
                           ids: DecisionIds, now: Moment)
    requires e in s.proposals
    ensures var decided := DecideInSession(a, s, e, approve, actor, owner, reviewed, ids, now);
      decided.Ok? ==> decided.value.devices == s.devices && decided.value.claims == s.claims
  {
    hide NewGrant, MaxGeneration;
  }

  lemma ProposalLeavesRows(a: Authority, s: State, key: CommandKey, payload: EnrollmentPayload, verified: Verified,
                           hardware: Id, enrollment: Id, challenge: string, now: Moment)
    ensures var proposed := Propose(a, s, key, payload, verified, hardware, enrollment, challenge, now);
      proposed.Ok? ==> proposed.value.devices == s.devices && proposed.value.claims == s.claims
  {
    hide NewProposal, CreatedResult;
  }

  lemma CreateLeavesRows(a: Authority, s: State, commandId: Id, payload: EnrollmentPayload, verified: Option<Verified>,
                         enrollment: Id, challenge: string, ids: DecisionIds, now: Moment)
    ensures var s' := CreateTx(a, s, commandId, payload, verified, enrollment, challenge, ids, now).0;
      s'.devices == s.devices && s'.claims == s.claims
  {
    hide CreateNow, HardwareRef;
    if verified.Some? && HardwareRef(verified.value.base).Some? {
      CreationLeavesRows(a, s, CommandKey(payload.domain, CreateKind, commandId), payload, verified.value,
                         HardwareRef(verified.value.base).value, enrollment, challenge, ids, now);
    }
  }

  lemma CreationLeavesRows(a: Authority, s: State, key: CommandKey, payload: EnrollmentPayload, verified: Verified,
                           hardware: Id, enrollment: Id, challenge: string, ids: DecisionIds, now: Moment)
    ensures var s' := CreateNow(a, s, key, payload, verified, hardware, enrollment, challenge, ids, now).0;
      s'.devices == s.devices && s'.claims == s.claims
  {
    hide Propose, StandingFor, DecideInSession;
    ProposalLeavesRows(a, s, key, payload, verified, hardware, enrollment, challenge, now);
    var proposed := Propose(a, s, key, payload, verified, hardware, enrollment, challenge, now);
    if proposed.Ok? {
      var jti := StandingFor(a, proposed.value, verified, KeyId(payload.operationalKey));
      if jti.Some? {
        var standing := proposed.value.standings[jti.value];
        DecisionLeavesRows(a, proposed.value, enrollment, true, standing.actor, standing.owner, payload.manifest, ids,
                           now);
      }
    }
  }

  lemma DecideLeavesRows(a: Authority, s: State, commandId: Id, request: Request, context: Context, ids: DecisionIds,
                         now: Moment)
    requires request.DecideRequest? && request.actor == context.actor
    ensures var s' := DecideTx(a, s, commandId, request, context, ids, now).0;
      s'.devices == s.devices && s'.claims == s.claims
  {
    hide DecideNow, DecideInSession, Replay;
    if request.enrollment in s.proposals {
      DecideOutcome(a.(domain := request.targetDomain), s, CommandKey(request.targetDomain, DecideKind, commandId),
                    request, ids, now);
      DecisionLeavesRows(a.(domain := request.targetDomain), s, request.enrollment, request.approve, request.actor,
                         request.targetOwner, request.reviewed, ids, now);
    }
  }

  lemma CollectLeavesRows(a: Authority, s: State, commandId: Id, enrollment: Id, revision: nat, challenge: string,
                          proof: string, proofValid: bool, sealed: string, now: Moment)
    ensures var s' := CollectTx(a, s, commandId, enrollment, revision, challenge, proof, proofValid, sealed, now).0;
      s'.devices == s.devices && s'.claims == s.claims
  {
    hide Replay, CollectedResult;
  }

  lemma CancelLeavesRows(s: State, commandId: Id, enrollment: Id, reason: string, context: Context, now: Moment)
    ensures var s' := CancelTx(s, commandId, enrollment, reason, context, now).0;
      s'.devices == s.devices && s'.claims == s.claims
  {
    hide Replay, Reached;
  }

  lemma StandingLeavesRows(s: State, jti: Id, keyId: KeyId, context: Context, now: Moment)
    ensures var s' := RecordStandingTx(s, jti, keyId, context, now).0; s'.devices == s.devices && s'.claims == s.claims
  {
  }

  lemma WithdrawalLeavesRows(s: State, principal: Id, context: Context, now: Moment)
    ensures var s' := WithdrawTx(s, principal, context, now).0; s'.devices == s.devices && s'.claims == s.claims
  {
    hide ValidPrincipal;
  }

  lemma ExpiryLeavesRows(s: State, now: Moment)
    ensures ExpireTx(s, now).devices == s.devices && ExpireTx(s, now).claims == s.claims
  {
    hide ExpiredProposals, LapsedGrants;
  }

  lemma QuietCommandsLeaveRows(a: Authority, s: State, step: Step)
    requires step.RecordStanding? || step.Withdraw? || step.ExpireDue? || step.Cancel? || step.Collect?
    ensures Apply(a, s, step).devices == s.devices && Apply(a, s, step).claims == s.claims
  {
    hide CreateTx, RecordStandingTx, WithdrawTx, ExpireTx, CancelTx, DecideTx, CollectTx, AckTx, RevokeTx, CommitTx;
    match step
    case RecordStanding(jti, keyId, context, now) => StandingLeavesRows(s, jti, keyId, context, now);
    case Withdraw(principal, context, now) => WithdrawalLeavesRows(s, principal, context, now);
    case ExpireDue(now) => ExpiryLeavesRows(s, now);
    case Cancel(commandId, enrollment, reason, context, now) =>
      CancelLeavesRows(s, commandId, enrollment, reason, context, now);
    case Collect(commandId, enrollment, revision, challenge, proof, proofValid, sealed, now) =>
      CollectLeavesRows(a, s, commandId, enrollment, revision, challenge, proof, proofValid, sealed, now);
  }

  /** A step takes a Claim to a lower generation exactly when it is such an acknowledgement: a caller can
      tell by comparing the Grant it is about to acknowledge with the Claim. */
  lemma GenerationFallsWhen(a: Authority, s: State, step: Step, c: DeviceId)
    ensures GenerationOf(Apply(a, s, step).claims, c) < GenerationOf(s.claims, c) <==> StaleAck(a, s, step, c)
  {
    hide CreateTx, DecideTx, AckTx, RevokeTx, CollectTx, GenerationOf;
    if WellFormed(step) {
      match step
      case AckGrant(_, _, _, _, _) => AckGeneration(a, s, step, c);
      case Revoke(commandId, ref, reason, context, eventId, now) =>
        RevokeGeneration(s, commandId, ref, reason, context, eventId, now, c);
      case Create(commandId, payload, verified, enrollment, challenge, ids, now) =>
        CreateLeavesRows(a, s, commandId, payload, verified, enrollment, challenge, ids, now);
      case Decide(commandId, request, context, ids, now) =>
        DecideLeavesRows(a, s, commandId, request, context, ids, now);
      case CommitDevice(_, _, _, _, _) =>
      case _ => QuietCommandsLeaveRows(a, s, step);
    }
  }

  /** The generation a Claim is at after the first i steps. */
  ghost function GenerationAt(a: Authority, s: State, steps: seq<Step>, c: DeviceId, i: nat): nat
    requires i <= |steps|
  {
    GenerationOf(Run(a, s, steps[..i]).claims, c)
  }

  ghost predicate NeverFalls(a: Authority, s: State, steps: seq<Step>, c: DeviceId) {
    forall i, j :: 0 <= i <= j <= |steps| ==> GenerationAt(a, s, steps, c, i) <= GenerationAt(a, s, steps, c, j)
  }

  ghost predicate NoStaleAcks(a: Authority, s: State, steps: seq<Step>, c: DeviceId) {
    forall i :: 0 <= i < |steps| ==> !StaleAck(a, Run(a, s, steps[..i]), steps[i], c)
  }

  lemma StepAt(a: Authority, s: State, steps: seq<Step>, c: DeviceId, i: nat)
    requires i < |steps|
    ensures GenerationAt(a, s, steps, c, i + 1) < GenerationAt(a, s, steps, c, i)
       <==> StaleAck(a, Run(a, s, steps[..i]), steps[i], c)
  {
    assert steps[..i + 1][..i] == steps[..i];
    hide Apply, StaleAck;
    GenerationFallsWhen(a, Run(a, s, steps[..i]), steps[i], c);
  }

  lemma {:induction false} RisesTo(a: Authority, s: State, steps: seq<Step>, c: DeviceId, i: nat, j: nat)
    requires i <= j <= |steps| && NoStaleAcks(a, s, steps, c)
    ensures GenerationAt(a, s, steps, c, i) <= GenerationAt(a, s, steps, c, j)
    decreases j
  {
    hide GenerationAt, StaleAck;
    if i < j {
      RisesTo(a, s, steps, c, i, j - 1);
      StepAt(a, s, steps, c, j - 1);
    }
  }

  /** Over a run a Claim's generation never falls exactly when no such acknowledgement commits in it. */
  lemma GenerationRisesUnless(a: Authority, s: State, steps: seq<Step>, c: DeviceId)
    ensures NeverFalls(a, s, steps, c) <==> NoStaleAcks(a, s, steps, c)
  {
    hide GenerationAt, StaleAck;
    if NoStaleAcks(a, s, steps, c) {
      forall i, j | 0 <= i <= j <= |steps|
        ensures GenerationAt(a, s, steps, c, i) <= GenerationAt(a, s, steps, c, j)
      {
        RisesTo(a, s, steps, c, i, j);
      }
    }
    if NeverFalls(a, s, steps, c) {
      forall i | 0 <= i < |steps| ensures !StaleAck(a, Run(a, s, steps[..i]), steps[i], c) {
        StepAt(a, s, steps, c, i);
        assert GenerationAt(a, s, steps, c, i) <= GenerationAt(a, s, steps, c, i + 1);
      }
    }
  }

  /** Whatever order Grants are acknowledged in, a Claim's revision never goes down. */
  lemma ClaimRevisionNeverFalls(a: Authority, s: State, steps: seq<Step>, c: DeviceId)
    requires c in s.claims
    ensures c in Run(a, s, steps).claims && Run(a, s, steps).claims[c].revision >= s.claims[c].revision
  {
    hide ProposalsFollow, GrantsKept;
    RunExtends(a, s, steps);
  }

  // Retries

  /** The key and canonical payload a command is saved under. */
  ghost function CommandOf(a: Authority, step: Step): Option<(CommandKey, Request)> {
    match step
    case Create(commandId, payload, _, _, _, _, _) =>
      Some((CommandKey(payload.domain, CreateKind, commandId), CreateRequest(payload)))
    case Cancel(commandId, enrollment, reason, context, _) =>
      Some((CommandKey(context.actor.domain, CancelKind, commandId), CancelRequest(enrollment, reason, context.actor)))
    case Decide(commandId, request, _, _, _) =>
      if WellFormed(step) then Some((CommandKey(request.targetDomain, DecideKind, commandId), request)) else None
    case Collect(commandId, enrollment, revision, challenge, proof, _, _, _) =>
      Some((CommandKey(a.domain, CollectKind, commandId),
            CollectRequest(enrollment, revision, Sha256(challenge), proof)))
    case AckGrant(commandId, request, _, _, _) =>
      if WellFormed(step) then Some((CommandKey(a.domain, AckKind, commandId), request)) else None
    case Revoke(commandId, ref, reason, context, _, _) =>
      Some((CommandKey(context.actor.domain, RevokeKind, commandId), RevokeRequest(ref, reason)))
    case _ => None
  }

  ghost function ReplyOf(a: Authority, s: State, step: Step): Reply
    requires CommandOf(a, step).Some?
  {
    match step
    case Create(commandId, payload, verified, enrollment, challenge, ids, now) =>
      CreateTx(a, s, commandId, payload, verified, enrollment, challenge, ids, now).1
    case Cancel(commandId, enrollment, reason, context, now) =>
      CancelTx(s, commandId, enrollment, reason, context, now).1
    case Decide(commandId, request, context, ids, now) => DecideTx(a, s, commandId, request, context, ids, now).1
    case Collect(commandId, enrollment, revision, challenge, proof, proofValid, sealed, now) =>
      CollectTx(a, s, commandId, enrollment, revision, challenge, proof, proofValid, sealed, now).1
    case AckGrant(commandId, request, proofValid, eventId, now) =>
      AckTx(a, s, commandId, request, proofValid, eventId, now).1
    case Revoke(commandId, ref, reason, context, eventId, now) =>
      RevokeTx(s, commandId, ref, reason, context, eventId, now).1
  }

  /** What a command is checked against before its id is looked up. */
  ghost predicate Authorized(a: Authority, step: Step) {
    match step
    case Create(_, payload, _, _, _, _, _) => payload.domain == a.domain
    case Cancel(_, _, _, context, _) => context.HasScope(APPROVE)
    case Decide(_, request, context, _, _) =>
      request.DecideRequest? && context.HasScope(APPROVE) && request.targetDomain == context.actor.domain
      && request.targetOwner == context.owner
    case Revoke(_, ref, _, context, _, _) => context.HasScope(REVOKE) && ref.domain == context.actor.domain
    case _ => true
  }

  /** A committed command was authorized and its result is on record. */
  lemma CommittedIsSaved(a: Authority, s: State, step: Step)
    requires CommandOf(a, step).Some? && ReplyOf(a, s, step).Committed?
    ensures Authorized(a, step)
    ensures var command := CommandOf(a, step).value;
      && command.0 !in s.results && command.0 in Apply(a, s, step).results
      && Apply(a, s, step).results[command.0] == SavedResult(command.1, ReplyOf(a, s, step).result)
  {
    match step
    case Create(commandId, payload, verified, enrollment, challenge, ids, now) =>
      hide CreateTx;
      CreateSaves(a, s, step);
    case Decide(commandId, request, context, ids, now) =>
      hide DecideTx;
      DecideSaves(a, s, commandId, request, context, ids, now);
    case Cancel(commandId, enrollment, reason, context, now) =>
      hide CancelTx;
      CancelSaves(s, commandId, enrollment, reason, context, now);
    case Collect(commandId, enrollment, revision, challenge, proof, proofValid, sealed, now) =>
      hide CollectTx;
      CollectSaves(a, s, commandId, enrollment, revision, challenge, proof, proofValid, sealed, now);
    case AckGrant(commandId, request, proofValid, eventId, now) =>
      hide AckTx;
      AckSaves(a, s, commandId, request, proofValid, eventId, now);
    case Revoke(commandId, ref, reason, context, eventId, now) =>
      hide RevokeTx;
      RevokeSaves(s, commandId, ref, reason, context, eventId, now);
  }

  lemma CancelSaves(s: State, commandId: Id, enrollment: Id, reason: string, context: Context, now: Moment)
    requires CancelTx(s, commandId, enrollment, reason, context, now).1.Committed?
    ensures context.HasScope(APPROVE)
    ensures var (s', r) := CancelTx(s, commandId, enrollment, reason, context, now);
      var key := CommandKey(context.actor.domain, CancelKind, commandId);
      key !in s.results && key in s'.results
      && s'.results[key] == SavedResult(CancelRequest(enrollment, reason, context.actor), r.result)
  {
  }

  lemma CollectSaves(a: Authority, s: State, commandId: Id, enrollment: Id, revision: nat, challenge: string,
                     proof: string, proofValid: bool, sealed: string, now: Moment)
    requires CollectTx(a, s, commandId, enrollment, revision, challenge, proof, proofValid, sealed, now).1.Committed?
    ensures var (s', r) := CollectTx(a, s, commandId, enrollment, revision, challenge, proof, proofValid, sealed, now);
      var key := CommandKey(a.domain, CollectKind, commandId);
      key !in s.results && key in s'.results
      && s'.results[key] == SavedResult(CollectRequest(enrollment, revision, Sha256(challenge), proof), r.result)
  {
    hide CollectProblem, Deliver, CollectedResult;
  }

  lemma AckSaves(a: Authority, s: State, commandId: Id, request: Request, proofValid: bool, eventId: Id, now: Moment)
    requires request.AckRequest? && AckTx(a, s, commandId, request, proofValid, eventId, now).1.Committed?
    ensures var (s', r) := AckTx(a, s, commandId, request, proofValid, eventId, now);
      var key := CommandKey(a.domain, AckKind, commandId);
      key !in s.results && key in s'.results && s'.results[key] == SavedResult(request, r.result)
  {
    hide AckProblem;
  }

  lemma RevokeSaves(s: State, commandId: Id, ref: DeviceRef, reason: string, context: Context, eventId: Id, now: Moment)
    requires RevokeTx(s, commandId, ref, reason, context, eventId, now).1.Committed?
    ensures context.HasScope(REVOKE) && ref.domain == context.actor.domain
    ensures var (s', r) := RevokeTx(s, commandId, ref, reason, context, eventId, now);
      var key := CommandKey(context.actor.domain, RevokeKind, commandId);
      key !in s.results && key in s'.results && s'.results[key] == SavedResult(RevokeRequest(ref, reason), r.result)
  {
    hide RevokeNow, Undo, Revocable, RevokeProblem, Revokes;
    if !(ref.device in s.claims && s.claims[ref.device].state == Revoked) {
      NoProblem(s, ref, context);
      var event, saved := RevokeShape(s, CommandKey(context.actor.domain, RevokeKind, commandId), ref, reason, eventId,
                                      now);
    }
  }

  /** The stages of a committed creation: standing proved, Proposal saved, perhaps decided. */
  lemma CreateUnfolds(a: Authority, s: State, step: Step) returns (asked: State, saved: State, jti: Option<Id>)
    requires step.Create?
    requires CreateTx(a, s, step.commandId, step.payload, step.verified, step.enrollment, step.challenge, step.ids,
                      step.now).1.Committed?
    ensures step.payload.domain == a.domain && step.verified.Some? && HardwareRef(step.verified.value.base).Some?
    ensures var hardware := HardwareRef(step.verified.value.base).value;
      var keyId := KeyId(step.payload.operationalKey);
      var key := CommandKey(a.domain, CreateKind, step.commandId);
      var result := CreatedResult(a, step.payload, step.enrollment, step.challenge, step.now);
      var proposal := NewProposal(a, step.payload, hardware, step.challenge, step.now);
      var (s', r) := CreateTx(a, s, step.commandId, step.payload, step.verified, step.enrollment, step.challenge,
                              step.ids, step.now);
      && key !in s.results && step.enrollment !in s.proposals
      && Ask(a, s, step.verified.value, hardware, keyId, step.now) == Ok(asked)
      && asked == s.(bindings := asked.bindings, vouchers := asked.vouchers)
      && saved == Save(asked.(proposals := s.proposals[step.enrollment := proposal]), key, CreateRequest(step.payload),
                       result)
      && r == Committed(result)
      && jti == StandingFor(a, saved, step.verified.value, keyId)
      && (jti.None? ==> s' == saved)
      && (jti.Some? ==>
            && jti.value in saved.standings
            && var standing := saved.standings[jti.value];
               DecideInSession(a, saved, step.enrollment, true, standing.actor, standing.owner, step.payload.manifest,
                               step.ids, step.now) == Ok(s'))
  {
    hide Ask, DecideInSession, HardwareRef, StandingFor;
    var hardware := HardwareRef(step.verified.value.base).value;
    var keyId := KeyId(step.payload.operationalKey);
    asked := Ask(a, s, step.verified.value, hardware, keyId, step.now).value;
    AskExtends(a, s, step.verified.value, hardware, keyId, step.now);
    var proposal := NewProposal(a, step.payload, hardware, step.challenge, step.now);
    saved := Save(asked.(proposals := s.proposals[step.enrollment := proposal]),
                  CommandKey(a.domain, CreateKind, step.commandId), CreateRequest(step.payload),
                  CreatedResult(a, step.payload, step.enrollment, step.challenge, step.now));
    jti := StandingFor(a, saved, step.verified.value, keyId);
    hide Extends;
  }

  lemma CreateSaves(a: Authority, s: State, step: Step)
    requires step.Create?
    requires CreateTx(a, s, step.commandId, step.payload, step.verified, step.enrollment, step.challenge, step.ids,
                      step.now).1.Committed?
    ensures var (s', r) := CreateTx(a, s, step.commandId, step.payload, step.verified, step.enrollment, step.challenge,
                                    step.ids, step.now);
      var key := CommandKey(step.payload.domain, CreateKind, step.commandId);
      step.payload.domain == a.domain && key !in s.results && key in s'.results
      && s'.results[key] == SavedResult(CreateRequest(step.payload), r.result)
  {
    var asked, saved, jti := CreateUnfolds(a, s, step);
    hide CreateTx, Ask, DecideInSession, HardwareRef, StandingFor, Extends;
    if jti.Some? {
      var standing := saved.standings[jti.value];
      DecisionExtends(a, saved, step.enrollment, true, standing.actor, standing.owner, step.payload.manifest, step.ids,
                      step.now);
    }
  }

  lemma DecideSaves(a: Authority, s: State, commandId: Id, request: Request, context: Context, ids: DecisionIds,
                    now: Moment)
    requires request.DecideRequest? && request.actor == context.actor
    requires DecideTx(a, s, commandId, request, context, ids, now).1.Committed?
    ensures var (s', r) := DecideTx(a, s, commandId, request, context, ids, now);
      var key := CommandKey(request.targetDomain, DecideKind, commandId);
      && context.HasScope(APPROVE) && request.targetDomain == context.actor.domain
      && request.targetOwner == context.owner
      && key !in s.results && key in s'.results && s'.results[key] == SavedResult(request, r.result)
  {
    hide DecideInSession;
  }

  /** A repeat of a saved command changes nothing and answers with the first result. */
  lemma RepeatIsReplayed(a: Authority, s: State, step: Step)
    requires CommandOf(a, step).Some? && Authorized(a, step)
    requires var command := CommandOf(a, step).value;
      command.0 in s.results && s.results[command.0].request == command.1
    ensures Apply(a, s, step) == s
    ensures ReplyOf(a, s, step) == Replayed(s.results[CommandOf(a, step).value.0].result)
  {
    hide Ask, DecideInSession, HardwareRef, StandingFor, CollectProblem, RevokeProblem, RevokeNow, AckProblem, AckNow;
  }

  /** A command id used again for another payload is refused and changes nothing. */
  lemma ReuseIsRefused(a: Authority, s: State, step: Step)
    requires CommandOf(a, step).Some?
    requires var command := CommandOf(a, step).value;
      command.0 in s.results && s.results[command.0].request != command.1
    ensures Apply(a, s, step) == s && ReplyOf(a, s, step).Refused?
    ensures Authorized(a, step) ==> ReplyOf(a, s, step) == Refused(IdempotencyConflict)
  {
    hide Ask, DecideInSession, HardwareRef, StandingFor, CollectProblem, RevokeProblem, RevokeNow, AckProblem, AckNow;
  }

  /** Step i of the run is a repeat: an authorized command whose result was already saved. */
  ghost predicate Repeats(a: Authority, s: State, step: Step) {
    && CommandOf(a, step).Some? && Authorized(a, step)
    && var command := CommandOf(a, step).value;
       command.0 in s.results && s.results[command.0].request == command.1
  }

  ghost predicate MarkedRepeats(a: Authority, s: State, steps: seq<Step>, repeat: seq<bool>) {
    |repeat| == |steps| && forall i :: 0 <= i < |steps| && repeat[i] ==> Repeats(a, Run(a, s, steps[..i]), steps[i])
  }

  ghost function Without(steps: seq<Step>, repeat: seq<bool>): seq<Step>
    requires |repeat| == |steps|
    decreases |steps|
  {
    if steps == [] then []
    else
      var n := |steps| - 1;
      Without(steps[..n], repeat[..n]) + (if repeat[n] then [] else [steps[n]])
  }

  /** Retries are invisible: dropping every repeat from a run ends in the same tables. */
  lemma {:induction false} RetriesAreInvisible(a: Authority, s: State, steps: seq<Step>, repeat: seq<bool>)
    requires MarkedRepeats(a, s, steps, repeat)
    ensures Run(a, s, steps) == Run(a, s, Without(steps, repeat))
    decreases |steps|
  {
    hide Apply, Repeats;
    if steps != [] {
      var n := |steps| - 1;
      forall i | 0 <= i < n && repeat[..n][i] ensures Repeats(a, Run(a, s, steps[..n][..i]), steps[..n][i]) {
        assert steps[..n][..i] == steps[..i];
      }
      RetriesAreInvisible(a, s, steps[..n], repeat[..n]);
      if repeat[n] {
        assert Repeats(a, Run(a, s, steps[..n]), steps[n]);
        RepeatChangesNothing(a, Run(a, s, steps[..n]), steps[n]);
        assert Without(steps, repeat) == Without(steps[..n], repeat[..n]);
      } else {
        var kept := Without(steps, repeat);
        assert kept[..|kept| - 1] == Without(steps[..n], repeat[..n]) && kept[|kept| - 1] == steps[n];
      }
    }
  }

  lemma RepeatChangesNothing(a: Authority, s: State, step: Step)
    requires Repeats(a, s, step)
    ensures Apply(a, s, step) == s
  {
    RepeatIsReplayed(a, s, step);
  }

  /** Once committed, a command repeated at any later point of the run answers with its first result. */
  lemma CommittedAnswersForever(a: Authority, s: State, step: Step, later: seq<Step>, again: Step)
    requires CommandOf(a, step).Some? && ReplyOf(a, s, step).Committed?
    requires CommandOf(a, again) == CommandOf(a, step) && Authorized(a, again)
    ensures Repeats(a, Run(a, Apply(a, s, step), later), again)
    ensures ReplyOf(a, Run(a, Apply(a, s, step), later), again) == Replayed(ReplyOf(a, s, step).result)
  {
    hide Apply, ReplyOf, CommandOf, Authorized, ProposalsFollow, GrantsKept;
    CommittedIsSaved(a, s, step);
    RunExtends(a, Apply(a, s, step), later);
    RepeatIsReplayed(a, Run(a, Apply(a, s, step), later), again);
  }

  // Collection

  /** A successful collection leaves its envelope on the enrollment's one Grant. */
  lemma CollectionOnRecord(a: Authority, s: State, step: Step)
    requires Inv(a, s) && step.Collect? && !ReplyOf(a, s, step).Refused?
    ensures var s' := Apply(a, s, step);
      var r := ReplyOf(a, s, step).result;
      && r.Collected? && r.enrollment == step.enrollment
      && r.grant in s'.grants && s'.grants[r.grant].enrollment == step.enrollment
      && s'.grants[r.grant].envelope == Some(r.envelope)
  {
    hide BindingsOk, ProposalsOk, DecisionsOk, GrantsOk, LinksOk, StagesOk, ClaimsOk, StreamOk, DevicesOk;
    hide CollectProblem, Deliver;
    var command := CommandOf(a, step).value;
    if command.0 in s.results {
      assert ResultOk(s.grants, s.results[command.0]);
    } else {
      CollectKeeps(a, s, step.commandId, step.enrollment, step.revision, step.challenge, step.proof, step.proofValid,
                   step.sealed, step.now);
      CommittedIsSaved(a, s, step);
      assert ResultOk(Apply(a, s, step).grants, Apply(a, s, step).results[command.0]);
    }
  }

  /** Every successful collection of an enrollment, under any command id, returns the one sealed envelope. */
  lemma OneEnvelope(a: Authority, s: State, first: Step, between: seq<Step>, second: Step)
    requires Reachable(a, s) && first.Collect? && second.Collect? && first.enrollment == second.enrollment
    requires !ReplyOf(a, s, first).Refused?
    requires !ReplyOf(a, Run(a, Apply(a, s, first), between), second).Refused?
    ensures ReplyOf(a, s, first).result.Collected?
    ensures ReplyOf(a, Run(a, Apply(a, s, first), between), second).result.Collected?
    ensures ReplyOf(a, Run(a, Apply(a, s, first), between), second).result.envelope
      == ReplyOf(a, s, first).result.envelope
  {
    hide Apply, ReplyOf, Inv, Extends;
    var t := Apply(a, s, first);
    var u := Run(a, t, between);
    var v := Apply(a, u, second);
    ReachableKeeps(a, s);
    CollectionOnRecord(a, s, first);
    StepKeeps(a, s, first);
    RunKeeps(a, t, between);
    CollectionOnRecord(a, u, second);
    StepKeeps(a, u, second);
    RunExtends(a, t, between);
    StepExtends(a, u, second);
    InvGrants(a, v);
    EnvelopeStays(a, t, u, v, ReplyOf(a, s, first).result.grant, ReplyOf(a, u, second).result.grant);
  }

  lemma EnvelopeStays(a: Authority, t: State, u: State, v: State, g: Id, h: Id)
    requires Extends(t, u) && Extends(u, v) && GrantsOk(a, v.proposals, v.decisions, v.grants)
    requires g in t.grants && t.grants[g].envelope.Some? && h in v.grants
    requires v.grants[h].enrollment == t.grants[g].enrollment
    ensures g == h && v.grants[h].envelope == t.grants[g].envelope
  {
    hide ProposalsFollow, Grown;
    assert GrantKept(t.grants[g], u.grants[g]) && GrantKept(u.grants[g], v.grants[g]);
  }

  // Withdrawal

  /** The standing that decided a creation, when one did. */
  ghost function DecidedBy(a: Authority, s: State, step: Step): Option<Id> {
    if step.Create? && step.verified.Some? && ReplyOf(a, s, step).Committed?
    then StandingFor(a, s, step.verified.value, KeyId(step.payload.operationalKey)) else None
  }

  /** A creation without a standing leaves its Proposal pending; with one, approved in that Controller's name. */
  lemma StandingDecidesProposal(a: Authority, s: State, step: Step)
    requires step.Create? && ReplyOf(a, s, step).Committed?
    ensures var s' := Apply(a, s, step);
      var e := step.enrollment;
      && e !in s.proposals && e in s'.proposals
      && (DecidedBy(a, s, step).None? ==> s'.proposals[e].state == PendingReview && s'.decisions == s.decisions)
      && (DecidedBy(a, s, step).Some? ==>
            && DecidedBy(a, s, step).value in s.standings
            && var standing := s.standings[DecidedBy(a, s, step).value];
               && s'.proposals[e].state == ApprovedAwaitingHandoff
               && step.ids.decision !in s.decisions && step.ids.decision in s'.decisions
               && s'.decisions[step.ids.decision].enrollment == e
               && s'.decisions[step.ids.decision].actor == standing.actor
               && s'.decisions[step.ids.decision].owner == standing.owner)
  {
    var asked, saved, jti := CreateUnfolds(a, s, step);
    hide CreateTx, Ask, HardwareRef, StandingFor, MaxGeneration;
    StandingDependsOn(a, s, saved, step.verified.value, KeyId(step.payload.operationalKey));
  }

  lemma StandingDependsOn(a: Authority, s: State, t: State, verified: Verified, keyId: KeyId)
    requires s.standings == t.standings && s.withdrawals == t.withdrawals
    ensures StandingFor(a, s, verified, keyId) == StandingFor(a, t, verified, keyId)
  {
  }

  /** The withdrawal moment of a Controller never moves back. */
  lemma WithdrawalNeverMovesBack(a: Authority, s: State, steps: seq<Step>, key: (Id, Id))
    requires key in s.withdrawals
    ensures key in Run(a, s, steps).withdrawals
    ensures Run(a, s, steps).withdrawals[key].withdrawnAt >= s.withdrawals[key].withdrawnAt
  {
    hide ProposalsFollow, GrantsKept, ClaimsAdvance, DevicesAdvance, Grown;
    RunExtends(a, s, steps);
  }

  /** Once a Controller is withdrawn at some moment, no standing it recorded at or before that moment
      ever decides a later Proposal, by voucher or by continuation, whatever happens in between. */
  lemma WithdrawalIsFinal(a: Authority, s: State, withdraw: Step, steps: seq<Step>, create: Step)
    requires withdraw.Withdraw? && withdraw.context.actor.domain == a.domain
    requires WithdrawTx(s, withdraw.principal, withdraw.context, withdraw.now).1.Ok?
    ensures var t := Run(a, Apply(a, s, withdraw), steps);
      var jti := DecidedBy(a, t, create);
      jti.Some? ==>
        && jti.value in t.standings
        && !(t.standings[jti.value].actor.principal == withdraw.principal
             && t.standings[jti.value].recordedAt <= withdraw.now)
  {
    hide ReplyOf, ValidPrincipal;
    var after := Apply(a, s, withdraw);
    var key := (a.domain, withdraw.principal);
    assert key in after.withdrawals && after.withdrawals[key].withdrawnAt >= withdraw.now;
    hide Apply;
    WithdrawalNeverMovesBack(a, after, steps, key);
  }

  // Standing to ask

  /** Base ids and operational keys stay in their one-to-one correspondence: bindings are permanent. */
  lemma BindingsArePermanent(a: Authority, s: State, steps: seq<Step>, b: Id, c: Id)
    requires Reachable(a, s) && b in s.bindings
    ensures var t := Run(a, s, steps);
      && b in t.bindings && t.bindings[b] == s.bindings[b]
      && (c in t.bindings && t.bindings[c].keyId == s.bindings[b].keyId ==> c == b)
  {
    RunReachable(a, s, steps);
    ReachableKeeps(a, Run(a, s, steps));
    RunExtends(a, s, steps);
    hide ProposalsFollow, GrantsKept, ProposalsOk, DecisionsOk, GrantsOk, LinksOk, StagesOk, ClaimsOk, StreamOk,
      DevicesOk, ResultsOk;
  }

  lemma AskSpendsVoucher(a: Authority, s: State, verified: Verified, hardware: Id, keyId: KeyId, now: Moment)
    ensures var asked := Ask(a, s, verified, hardware, keyId, now);
      asked.Ok? && verified.ByVoucher? ==> verified.jti !in s.vouchers && verified.jti in asked.value.vouchers
  {
  }

  /** A committed creation by voucher spends a voucher nobody spent before. */
  lemma CreationSpendsVoucher(a: Authority, s: State, step: Step)
    requires step.Create? && ReplyOf(a, s, step).Committed?
    ensures step.verified.Some?
    ensures step.verified.value.ByVoucher? ==>
      step.verified.value.jti !in s.vouchers && step.verified.value.jti in Apply(a, s, step).vouchers
  {
    hide CreateTx, DecideInSession, HardwareRef, StandingFor, Extends, Ask;
    var asked, saved, jti := CreateUnfolds(a, s, step);
    AskSpendsVoucher(a, s, step.verified.value, HardwareRef(step.verified.value.base).value,
                     KeyId(step.payload.operationalKey), step.now);
    if jti.Some? {
      var standing := saved.standings[jti.value];
      DecisionExtends(a, saved, step.enrollment, true, standing.actor, standing.owner, step.payload.manifest, step.ids,
                      step.now);
    }
  }

  /** A voucher backs at most one Proposal in any run. */
  lemma VoucherBacksOneProposal(a: Authority, s: State, first: Step, between: seq<Step>, second: Step)
    requires first.Create? && second.Create? && ReplyOf(a, s, first).Committed?
    requires ReplyOf(a, Run(a, Apply(a, s, first), between), second).Committed?
    ensures first.verified.Some? && second.verified.Some?
    ensures first.verified.value.ByVoucher? && second.verified.value.ByVoucher? ==>
      first.verified.value.jti != second.verified.value.jti
  {
    hide Apply, ReplyOf, ProposalsFollow, GrantsKept, ClaimsAdvance, DevicesAdvance;
    CreationSpendsVoucher(a, s, first);
    RunExtends(a, Apply(a, s, first), between);
    CreationSpendsVoucher(a, Run(a, Apply(a, s, first), between), second);
  }

  /** After a rejection, every later Proposal for that hardware identity came with a voucher. */
  lemma RejectionNeedsPresence(a: Authority, s: State, rejected: Id, steps: seq<Step>, create: Step)
    requires Reachable(a, s) && rejected in s.proposals && s.proposals[rejected].state == Rejected
    requires create.Create? && ReplyOf(a, Run(a, s, steps), create).Committed?
    ensures create.verified.Some?
    ensures HardwareRef(create.verified.value.base) == Some(s.proposals[rejected].hardware) ==>
      create.verified.value.ByVoucher?
  {
    hide Inv, Apply, DecideInSession, StandingFor, HardwareRef, PayloadProblem;
    TerminalForever(a, s, steps, rejected);
    ReachableKeeps(a, s);
    ProposalInDomain(a, s, rejected) by { assert ProposalsOk(a, s.bindings, s.proposals) by { InvProposals(a, s); } }
    hide Extends;
    var t := Run(a, s, steps);
    assert t.proposals[rejected].domain == a.domain;
    CreationSpendsVoucher(a, t, create);
  }

  lemma InvGrants(a: Authority, s: State)
    requires Inv(a, s)
    ensures GrantsOk(a, s.proposals, s.decisions, s.grants)
  {
  }

  lemma InvProposals(a: Authority, s: State)
    requires Inv(a, s)
    ensures ProposalsOk(a, s.bindings, s.proposals)
  {
  }
}
