/** The Admission Authority: an object whose commands change its tables in place, one locked
    transaction at a time. Each transaction is proved to do what `AdmissionCommands` says. */
module AdmissionAuthority {
  import opened Prelude
  import opened AdmissionDomain
  import opened AdmissionTables
  import opened AdmissionCommands
  import opened AdmissionInvariant
  import opened AdmissionPreservation

  // Queries

  lemma MaxGenerationUnique(grants: map<Id, Grant>, domain: Id, hardware: Id, n: nat)
    requires IsMaxGeneration(grants, domain, hardware, n)
    requires forall g :: g in grants && grants[g].domain == domain ==> grants[g].claimGeneration >= 1
    ensures MaxGeneration(grants, domain, hardware) == n
  {
    var m := MaxGeneration(grants, domain, hardware);
    if m != 0 { assert Granted(grants, domain, hardware, m); }
    if n != 0 { assert Granted(grants, domain, hardware, n); }
  }

  /** `max(claim_generation)` over the Grants of one hardware identity, or 0. */
  method MaxClaimGeneration(grants: map<Id, Grant>, domain: Id, hardware: Id) returns (n: nat)
    requires forall g :: g in grants && grants[g].domain == domain ==> grants[g].claimGeneration >= 1
    ensures n == MaxGeneration(grants, domain, hardware)
  {
    n := 0;
    var rest := grants.Keys;
    while rest != {}
      invariant rest <= grants.Keys
      invariant n == 0 || Granted(grants, domain, hardware, n)
      invariant forall g :: g in grants && g !in rest && grants[g].domain == domain && grants[g].hardware == hardware
                  ==> grants[g].claimGeneration <= n
      decreases rest
    {
      var g :| g in rest;
      if grants[g].domain == domain && grants[g].hardware == hardware && grants[g].claimGeneration > n {
        n := grants[g].claimGeneration;
        assert Granted(grants, domain, hardware, n);
      }
      rest := rest - {g};
    }
    MaxGenerationUnique(grants, domain, hardware, n);
  }

  lemma LaterTransitive(standings: map<Id, Standing>, x: Id, y: Id, z: Id)
    requires x in standings && y in standings && z in standings
    requires LaterStanding(standings, x, y) && LaterStanding(standings, y, z)
    ensures LaterStanding(standings, x, z)
  {
    if standings[x].recordedAt == standings[y].recordedAt == standings[z].recordedAt {
      TextLessTransitive(z, y, x);
    }
  }

  lemma LaterTotal(standings: map<Id, Standing>, x: Id, y: Id)
    requires x in standings && y in standings && x != y
    ensures LaterStanding(standings, x, y) || LaterStanding(standings, y, x)
  {
    TextLessTotal(x, y);
  }

  /** Later than every fitting standing already looked at. */
  ghost predicate BestOf(standings: map<Id, Standing>, rest: set<Id>, domain: Id, keyId: KeyId, best: Id)
    requires best in standings
  {
    forall j :: j in standings && j !in rest && j != best && StandingFits(standings[j], domain, keyId) ==>
      LaterStanding(standings, best, j)
  }

  /** `order by recorded_at desc, jti desc limit 1` over the standings of one key. */
  method LatestStandingForKey(standings: map<Id, Standing>, domain: Id, keyId: KeyId) returns (best: Option<Id>)
    ensures best == LatestStanding(standings, domain, keyId)
  {
    best := None;
    var rest := standings.Keys;
    while rest != {}
      invariant rest <= standings.Keys
      invariant best.None? ==> forall j :: j in standings && j !in rest ==> !StandingFits(standings[j], domain, keyId)
      invariant best.Some? ==>
        best.value in standings && best.value !in rest && StandingFits(standings[best.value], domain, keyId)
      invariant best.Some? ==> BestOf(standings, rest, domain, keyId, best.value)
      decreases rest
    {
      var j :| j in rest;
      rest := rest - {j};
      if StandingFits(standings[j], domain, keyId) {
        if best.None? {
          best := Some(j);
        } else if LaterStanding(standings, j, best.value) {
          var last := best.value;
          forall i | i in standings && i !in rest && i != j && StandingFits(standings[i], domain, keyId)
            ensures LaterStanding(standings, j, i)
          {
            if i != last { LaterTransitive(standings, j, last, i); }
          }
          best := Some(j);
        } else {
          LaterTotal(standings, j, best.value);
        }
      }
    }
    if best.Some? {
      LatestStandingUnique(standings, domain, keyId, best.value);
    }
  }

  lemma EnrollmentFixesGrant(a: Authority, s: State, g: Id)
    requires GrantsOk(a, s.proposals, s.decisions, s.grants) && g in s.grants
    ensures GrantOf(s.grants, s.grants[g].enrollment) == Some(g)
  {
  }

  lemma EnrollmentFixesDecision(a: Authority, s: State, d: Id)
    requires DecisionsOk(a, s.proposals, s.decisions) && d in s.decisions
    ensures DecisionOf(s.decisions, s.decisions[d].enrollment) == Some(d)
  {
  }

  lemma RefFixesLookup(a: Authority, s: State, g: Id)
    requires Inv(a, s) && g in s.grants
    ensures GrantForRef(s.grants, s.grants[g].ref) == Some(g)
  {
    hide LinksOk, StagesOk, ClaimsOk, StreamOk, DevicesOk, ResultsOk, BindingsOk, ProposalsOk, DecisionsOk, GrantsOk;
    RefFixesGrant(a, s, g, GrantForRef(s.grants, s.grants[g].ref).value);
  }

  class AdmissionAuthority {
    const authority: Authority

    var proposals: map<Id, Proposal>
    var decisions: map<Id, Decision>
    var grants: map<Id, Grant>
    var acks: map<Id, Ack>
    var claims: map<DeviceId, Claim>
    var results: map<CommandKey, SavedResult>
    var outbox: map<Id, ClaimEvent>
    var stream: seq<ClaimEvent>
    var bindings: map<Id, Binding>
    var vouchers: map<Id, Voucher>
    var standings: map<Id, Standing>
    var withdrawals: map<(Id, Id), Withdrawal>
    var devices: map<DeviceId, DeviceRow>
    var management: map<Id, ManagementEvent>

    function Tables(): State
      reads this
    {
      State(proposals, decisions, grants, acks, claims, results, outbox, stream, bindings, vouchers, standings,
            withdrawals, devices, management)
    }

    ghost predicate Valid()
      reads this
    {
      Inv(authority, Tables())
    }

    constructor (authority: Authority)
      ensures this.authority == authority && Tables() == EmptyState && Valid()
    {
      this.authority := authority;
      proposals, decisions, grants, acks, claims, results := map[], map[], map[], map[], map[], map[];
      outbox, stream, bindings, vouchers, standings, withdrawals := map[], [], map[], map[], map[], map[];
      devices, management := map[], map[];
      new;
      InvEmpty(authority);
    }

    // Standing

    method RecordCommissioningStanding(jti: Id, keyId: KeyId, context: Context, now: Moment)
      returns (problem: Option<Problem>)
      requires Valid()
      modifies this`standings
      ensures Valid()
      ensures (Tables(), problem) == RecordStandingTx(old(Tables()), jti, keyId, context, now)
    {
      hide BindingsOk, ProposalsOk, DecisionsOk, GrantsOk, LinksOk, StagesOk, ClaimsOk, StreamOk, DevicesOk, ResultsOk;
      if !context.HasScope(APPROVE) {
        return Some(Forbidden);
      }
      if jti in standings {
        var existing := standings[jti];
        if existing.keyId != keyId || existing.domain != context.actor.domain || existing.owner != context.owner
           || existing.actor != context.actor
        {
          return Some(IdempotencyConflict);
        }
        return None;
      }
      standings := standings[jti := Standing(keyId, context.actor.domain, context.owner, context.actor, now)];
      return None;
    }

    method WithdrawController(principal: Id, context: Context, now: Moment) returns (answer: Result<Moment, Problem>)
      requires Valid()
      modifies this`withdrawals
      ensures Valid()
      ensures (Tables(), answer) == WithdrawTx(old(Tables()), principal, context, now)
    {
      hide BindingsOk, ProposalsOk, DecisionsOk, GrantsOk, LinksOk, StagesOk, ClaimsOk, StreamOk, DevicesOk, ResultsOk;
      if !context.HasScope(APPROVE) {
        return Err(Forbidden);
      }
      if !ValidPrincipal(principal) {
        return Err(InvalidArgument);
      }
      var key := (context.actor.domain, principal);
      if key !in withdrawals {
        withdrawals := withdrawals[key := Withdrawal(now, context.actor)];
        return Ok(now);
      }
      if now > withdrawals[key].withdrawnAt {
        withdrawals := withdrawals[key := Withdrawal(now, context.actor)];
        return Ok(now);
      }
      return Ok(withdrawals[key].withdrawnAt);
    }

    method StandingOf(verified: Verified, keyId: KeyId) returns (jti: Option<Id>)
      ensures jti == StandingFor(authority, Tables(), verified, keyId)
    {
      if !authority.decideFromStanding {
        return None;
      }
      var candidate: Option<Id> := None;
      match verified {
        case ByVoucher(_, id, _) =>
          if id in standings {
            candidate := Some(id);
          }
        case ByContinuation(_) =>
          candidate := LatestStandingForKey(standings, authority.domain, keyId);
      }
      if candidate.None? || candidate.value !in standings
         || !StandingDecides(withdrawals, standings[candidate.value], authority.domain, keyId)
      {
        return None;
      }
      return candidate;
    }

    // Decision

    lemma GrantsNumbered()
      requires Valid()
      ensures forall g :: g in grants && grants[g].domain == authority.domain ==> grants[g].claimGeneration >= 1
    {
      hide Inv;
      GrantsAreNumbered(authority, Tables());
    }

    /** Record one Decision and what follows from it; a refused write leaves the caller to roll back. */
    method DecideHere(enrollment: Id, approve: bool, actor: Actor, owner: Id, reviewed: ManifestRef, ids: DecisionIds,
                      now: Moment)
      returns (problem: Option<Problem>)
      requires enrollment in proposals
      requires forall g :: g in grants && grants[g].domain == authority.domain ==> grants[g].claimGeneration >= 1
      modifies this`proposals, this`decisions, this`grants
      ensures var decided := DecideInSession(authority, old(Tables()), enrollment, approve, actor, owner, reviewed, ids,
                                             now);
        if problem.None? then decided == Ok(Tables()) else decided == Err(problem.value)
    {
      var proposal := proposals[enrollment];
      if ids.decision in decisions {
        return Some(Integrity);
      }
      decisions := decisions[ids.decision :=
        Decision(enrollment, approve, actor, authority.domain, owner, reviewed, proposal.revision, now)];
      proposals := proposals[enrollment := proposal.(
        state := if approve then ApprovedAwaitingHandoff else Rejected,
        revision := proposal.revision + 1,
        updatedAt := now)];
      if approve {
        if ids.grant in grants {
          return Some(Integrity);
        }
        var current := MaxClaimGeneration(grants, authority.domain, proposal.hardware);
        var ref := DeviceRef(proposal.device, authority.domain, authority.domainGeneration, current + 1, 1);
        grants := grants[ids.grant :=
          Grant(enrollment, ids.decision, authority.domain, proposal.hardware, current + 1, ref, reviewed,
                KeyId(proposal.operationalKey), None, now, now + authority.grantTtl, None, None)];
      }
      return None;
    }

    // Expiry

    /** Persist what deadlines ended: Proposals expire, and their Grants are revoked with them. */
    method ExpireDue(now: Moment) returns (count: nat)
      requires Valid()
      modifies this`proposals, this`grants
      ensures Valid()
      ensures Tables() == ExpireTx(old(Tables()), now)
      ensures count == |set e | e in old(proposals) && Due(old(proposals)[e], now)|
    {
      hide Inv;
      ghost var s := Tables();
      UniqueEnrollments(authority, s);
      count, proposals, grants := Sweep(proposals, grants, now);
      ExpireKeeps(authority, s, now);
    }

    // Creation

    /** Put the tables of a refused transaction back as it found them. */
    method RollBack(before: State)
      modifies this
      ensures Tables() == before
    {
      RollBackClaims(before);
      results, bindings, vouchers := before.results, before.bindings, before.vouchers;
      standings, withdrawals, devices, management := before.standings, before.withdrawals, before.devices,
        before.management;
    }

    method RollBackClaims(before: State)
      modifies this`proposals, this`decisions, this`grants, this`acks, this`claims, this`outbox, this`stream
      ensures proposals == before.proposals && decisions == before.decisions && grants == before.grants
      ensures acks == before.acks && claims == before.claims && outbox == before.outbox && stream == before.stream
    {
      proposals, decisions, grants := before.proposals, before.decisions, before.grants;
      acks, claims, outbox, stream := before.acks, before.claims, before.outbox, before.stream;
    }

    method SaveHere(key: CommandKey, request: Request, result: CommandResult)
      modifies this`results
      ensures Tables() == Save(old(Tables()), key, request, result)
    {
      results := results[key := SavedResult(request, result)];
    }

    /** Spend the voucher, then bind the base identity; a refusal may come after the first write. */
    method CommissionHere(base: Id, jti: Id, expiresAt: Moment, hardware: Id, keyId: KeyId, now: Moment)
      returns (problem: Option<Problem>)
      modifies this`bindings, this`vouchers
      ensures var asked := Commission(old(Tables()), authority.domain, base, jti, expiresAt, hardware, keyId, now);
        if problem.None? then asked == Ok(Tables()) else asked == Err(problem.value)
    {
      if jti in vouchers {
        return Some(Unauthenticated);
      }
      vouchers := vouchers[jti := Voucher(base, keyId, expiresAt, now)];
      if base in bindings {
        if bindings[base].keyId != keyId {
          return Some(Unauthenticated);
        }
        return None;
      }
      if held :| held in bindings && bindings[held].keyId == keyId {
        return Some(Unauthenticated);
      }
      bindings := bindings[base := Binding(authority.domain, hardware, keyId, now)];
      return None;
    }

    method AskHere(verified: Verified, hardware: Id, keyId: KeyId, now: Moment) returns (problem: Option<Problem>)
      modifies this`bindings, this`vouchers
      ensures var asked := Ask(authority, old(Tables()), verified, hardware, keyId, now);
        if problem.None? then asked == Ok(Tables()) else asked == Err(problem.value)
    {
      match verified {
        case ByVoucher(base, jti, expiresAt) =>
          problem := CommissionHere(base, jti, expiresAt, hardware, keyId, now);
        case ByContinuation(base) =>
          if !ContinuationBound(bindings, authority.domain, base, hardware, keyId) {
            return Some(Unauthenticated);
          }
          if RequiresFreshPresence(Tables(), authority.domain, hardware) {
            return Some(Forbidden);
          }
          return None;
      }
    }

    method CreateEnrollment(commandId: Id, payload: EnrollmentPayload, verified: Option<Verified>,
                            enrollment: Id, challenge: string, ids: DecisionIds, now: Moment) returns (reply: Reply)
      requires Valid()
      modifies this
      ensures Valid()
      ensures (Tables(), reply) == CreateTx(authority, old(Tables()), commandId, payload, verified, enrollment,
                                            challenge, ids, now)
    {
      hide Inv, CreateNow, HardwareRef, Replay;
      CreateKeeps(authority, Tables(), commandId, payload, verified, enrollment, challenge, ids, now);
      if payload.domain != authority.domain {
        return Refused(OwnerDomainMismatch);
      }
      var key := CommandKey(payload.domain, CreateKind, commandId);
      var request := CreateRequest(payload);
      var answer := Answer(Replay(results, key, request));
      if answer.Some? {
        return answer.value;
      }
      var invalid := PayloadProblem(payload, verified);
      if invalid.Some? {
        return Refused(invalid.value);
      }
      reply := CreateHere(key, payload, verified.value, HardwareRef(verified.value.base).value, enrollment, challenge,
                          ids, now);
    }

    /** Propose, and decide at once when a standing covers the key; a refusal puts everything back. */
    method CreateHere(key: CommandKey, payload: EnrollmentPayload, verified: Verified, hardware: Id, enrollment: Id,
                      challenge: string, ids: DecisionIds, now: Moment) returns (reply: Reply)
      requires Valid()
      modifies this
      ensures (Tables(), reply) == CreateNow(authority, old(Tables()), key, payload, verified, hardware, enrollment,
                                             challenge, ids, now)
    {
      hide Inv, Propose, DecidedFromStanding, CreateNow, Tables;
      var before := Tables();
      GrantsNumbered();
      CreateOutcome(authority, before, key, payload, verified, hardware, enrollment, challenge, ids, now);
      var refused := ProposeHere(key, payload, verified, hardware, enrollment, challenge, now);
      if refused.None? {
        refused := DecideFromStanding(payload, verified, enrollment, ids, now);
      }
      if refused.Some? {
        RollBack(before);
        reply := Refused(refused.value);
      } else {
        reply := Committed(CreatedResult(authority, payload, enrollment, challenge, now));
      }
    }

    /** The Decision a recorded standing takes on a Proposal that has just arrived, if one covers its key. */
    method DecideFromStanding(payload: EnrollmentPayload, verified: Verified, enrollment: Id, ids: DecisionIds,
                              now: Moment)
      returns (problem: Option<Problem>)
      requires enrollment in proposals
      requires forall g :: g in grants && grants[g].domain == authority.domain ==> grants[g].claimGeneration >= 1
      modifies this`proposals, this`decisions, this`grants
      ensures var decided := DecidedFromStanding(authority, old(Tables()), payload, verified, enrollment, ids, now);
        if problem.None? then decided == Ok(Tables()) else decided == Err(problem.value)
    {
      hide StandingFor, DecideInSession;
      problem := None;
      var jti := StandingOf(verified, KeyId(payload.operationalKey));
      if jti.Some? {
        StandingPresent(authority, Tables(), verified, KeyId(payload.operationalKey));
        var standing := standings[jti.value];
        problem := DecideHere(enrollment, true, standing.actor, standing.owner, payload.manifest, ids, now);
      }
    }

    /** The writes of a creation up to its saved result; a refusal may come after some of them. */
    method ProposeHere(key: CommandKey, payload: EnrollmentPayload, verified: Verified, hardware: Id, enrollment: Id,
                       challenge: string, now: Moment) returns (problem: Option<Problem>)
      modifies this`proposals, this`results, this`bindings, this`vouchers
      ensures var proposed := Propose(authority, old(Tables()), key, payload, verified, hardware, enrollment, challenge,
                                      now);
        if problem.None? then proposed == Ok(Tables()) else proposed == Err(problem.value)
      ensures problem.None? ==> enrollment in proposals
    {
      hide Ask;
      problem := AskHere(verified, hardware, KeyId(payload.operationalKey), now);
      if problem.Some? {
        return problem;
      }
      if enrollment in proposals {
        return Some(Integrity);
      }
      proposals := proposals[enrollment := NewProposal(authority, payload, hardware, challenge, now)];
      results := results[key := SavedResult(CreateRequest(payload),
                                            CreatedResult(authority, payload, enrollment, challenge, now))];
      return None;
    }

    // Cancellation and decision

    method CancelInTransaction(commandId: Id, enrollment: Id, reason: string, context: Context, now: Moment)
      returns (reply: Reply)
      requires Valid() && context.HasScope(APPROVE)
      modifies this`proposals, this`results
      ensures Valid()
      ensures (Tables(), reply) == CancelTx(old(Tables()), commandId, enrollment, reason, context, now)
    {
      hide Inv;
      CancelKeeps(authority, Tables(), commandId, enrollment, reason, context, now);
      var key := CommandKey(context.actor.domain, CancelKind, commandId);
      var request := CancelRequest(enrollment, reason, context.actor);
      var answer := Answer(Replay(results, key, request));
      if answer.Some? {
        return answer.value;
      }
      if enrollment !in proposals || proposals[enrollment].domain != context.actor.domain {
        return Refused(NotFound);
      }
      var proposal := proposals[enrollment];
      if !AllowedTransition(proposal.state, Canceled) {
        return Refused(TransitionProblem(proposal.state));
      }
      proposals := proposals[enrollment := proposal.(state := Canceled, revision := proposal.revision + 1,
                                                     updatedAt := now)];
      var result := CanceledResult(enrollment, proposal.revision + 1, now);
      results := results[key := SavedResult(request, result)];
      return Committed(result);
    }

    method DecideInTransaction(commandId: Id, request: Request, context: Context, ids: DecisionIds, now: Moment)
      returns (reply: Reply)
      requires Valid() && request.DecideRequest? && request.actor == context.actor && context.HasScope(APPROVE)
      requires request.targetDomain == context.actor.domain && request.targetOwner == context.owner
      modifies this
      ensures Valid()
      ensures (Tables(), reply) == DecideTx(authority, old(Tables()), commandId, request, context, ids, now)
    {
      hide Inv, DecideNow, Replay;
      DecideKeeps(authority, Tables(), commandId, request, context, ids, now);
      var key := CommandKey(request.targetDomain, DecideKind, commandId);
      var answer := Answer(Replay(results, key, request));
      if answer.Some? {
        return answer.value;
      }
      if request.enrollment !in proposals || proposals[request.enrollment].domain != context.actor.domain {
        return Refused(NotFound);
      }
      var proposal := proposals[request.enrollment];
      if proposal.state == Expired || proposal.expiresAt <= now {
        return Refused(ProposalExpired);
      }
      var target := if request.approve then ApprovedAwaitingHandoff else Rejected;
      if !AllowedTransition(proposal.state, target) {
        return Refused(TransitionProblem(proposal.state));
      }
      if proposal.revision != request.expectedRevision {
        return Refused(RevisionConflict);
      }
      if request.reviewed != proposal.manifest {
        return Refused(RevisionConflict);
      }
      InOwnDomain(authority, Tables(), request.enrollment);
      reply := DecideAndSave(key, request, ids, now);
    }

    /** The Decision, what follows from it and the saved result; a refusal puts everything back. */
    method DecideAndSave(key: CommandKey, request: Request, ids: DecisionIds, now: Moment) returns (reply: Reply)
      requires Valid() && request.DecideRequest? && request.enrollment in proposals
      requires request.enrollment in Tables().proposals
      modifies this
      ensures (Tables(), reply) == DecideNow(authority, old(Tables()), key, request, ids, now)
    {
      hide Inv, DecideInSession, DecideNow, Tables;
      var before := Tables();
      DecideOutcome(authority, before, key, request, ids, now);
      GrantsNumbered();
      var refused := DecideHere(request.enrollment, request.approve, request.actor, request.targetOwner,
                                request.reviewed, ids, now);
      if refused.Some? {
        RollBack(before);
        reply := Refused(refused.value);
      } else {
        var result := Decided(ids.decision, Tables().decisions[ids.decision],
                              if request.approve then Some(ids.grant) else None,
                              before.proposals[request.enrollment].revision, now);
        SaveHere(key, request, result);
        reply := Committed(result);
      }
    }

    // Collection, acknowledgement, revocation

    method CollectInTransaction(commandId: Id, enrollment: Id, revision: nat, challenge: string, proof: string,
                                proofValid: bool, sealed: string, now: Moment) returns (reply: Reply)
      requires Valid()
      modifies this`proposals, this`grants, this`results
      ensures Valid()
      ensures (Tables(), reply) == CollectTx(authority, old(Tables()), commandId, enrollment, revision, challenge,
                                             proof, proofValid, sealed, now)
    {
      hide Inv, CollectProblem, Deliver;
      CollectKeeps(authority, Tables(), commandId, enrollment, revision, challenge, proof, proofValid, sealed, now);
      var key := CommandKey(authority.domain, CollectKind, commandId);
      var request := CollectRequest(enrollment, revision, Sha256(challenge), proof);
      var answer := Answer(Replay(results, key, request));
      if answer.Some? {
        return answer.value;
      }
      var refused := CollectRefusal(enrollment, revision, challenge, proofValid, now);
      if refused.Some? {
        return Refused(refused.value);
      }
      Collectable(authority, Tables(), enrollment, revision, challenge, proofValid, now);
      var g := FindGrant(enrollment);
      if grants[g.value].envelope.None? {
        DeliverHere(enrollment, g.value, sealed, now);
      }
      var result := CollectedResult(enrollment, g.value, grants[g.value], revision, now);
      results := results[key := SavedResult(request, result)];
      return Committed(result);
    }

    /** Seal and deliver a Grant for the first and only time. */
    method DeliverHere(enrollment: Id, g: Id, sealed: string, now: Moment)
      requires enrollment in proposals && g in grants
      modifies this`proposals, this`grants
      ensures Tables() == Deliver(old(Tables()), enrollment, g, sealed, now)
      ensures g in grants && grants[g].envelope == Some(sealed)
    {
      var proposal := proposals[enrollment];
      grants := grants[g := grants[g].(envelope := Some(sealed), deliveredAt := Some(now))];
      proposals := proposals[enrollment := proposal.(state := GrantDelivered, revision := proposal.revision + 1,
                                                     updatedAt := now)];
    }

    method CollectRefusal(enrollment: Id, revision: nat, challenge: string, proofValid: bool, now: Moment)
      returns (problem: Option<Problem>)
      requires Valid()
      ensures problem == CollectProblem(authority, Tables(), enrollment, revision, challenge, proofValid, now)
    {
      hide Inv;
      if enrollment !in proposals || proposals[enrollment].domain != authority.domain {
        return Some(NotFound);
      }
      var proposal := proposals[enrollment];
      if proposal.state == ClaimRevoked {
        return Some(ClaimGenerationRevoked);
      }
      if proposal.state == GrantAcknowledged {
        return Some(ProposalTerminal);
      }
      if proposal.state == Expired || proposal.expiresAt <= now {
        return Some(ProposalExpired);
      }
      var g := FindGrant(enrollment);
      if g.Some? && grants[g.value].revokedAt.Some? {
        return Some(ClaimGenerationRevoked);
      }
      if g.Some? && proposal.state == GrantDelivered && grants[g.value].envelope.None? {
        return Some(ContractUnsupported);
      }
      var d := FindDecision(enrollment);
      if d.None? || !(proposal.state.ApprovedAwaitingHandoff? || proposal.state.GrantDelivered?) {
        return Some(DecisionRequired);
      }
      if decisions[d.value].expectedRevision != revision {
        return Some(RevisionConflict);
      }
      if proposal.challengeHash != Sha256(challenge) {
        return Some(HandoffProofInvalid);
      }
      if !proofValid {
        return Some(HandoffProofInvalid);
      }
      if g.None? {
        return Some(DecisionRequired);
      }
      if grants[g.value].expiresAt <= now {
        return Some(GrantExpired);
      }
      return None;
    }

    method FindGrant(enrollment: Id) returns (g: Option<Id>)
      requires Valid()
      ensures g == GrantOf(grants, enrollment)
    {
      hide BindingsOk, ProposalsOk, DecisionsOk, GrantsOk, LinksOk, StagesOk, ClaimsOk, StreamOk, DevicesOk, ResultsOk;
      if x :| x in grants && grants[x].enrollment == enrollment {
        EnrollmentFixesGrant(authority, Tables(), x);
        return Some(x);
      }
      return None;
    }

    method FindDecision(enrollment: Id) returns (d: Option<Id>)
      requires Valid()
      ensures d == DecisionOf(decisions, enrollment)
    {
      hide BindingsOk, ProposalsOk, DecisionsOk, GrantsOk, LinksOk, StagesOk, ClaimsOk, StreamOk, DevicesOk, ResultsOk;
      if x :| x in decisions && decisions[x].enrollment == enrollment {
        EnrollmentFixesDecision(authority, Tables(), x);
        return Some(x);
      }
      return None;
    }

    method AckInTransaction(commandId: Id, request: Request, proofValid: bool, eventId: Id, now: Moment)
      returns (reply: Reply)
      requires Valid() && request.AckRequest?
      modifies this`proposals, this`acks, this`claims, this`results, this`outbox, this`stream, this`devices
      ensures Valid()
      ensures (Tables(), reply) == AckTx(authority, old(Tables()), commandId, request, proofValid, eventId, now)
    {
      hide Inv, AckNow;
      AckKeeps(authority, Tables(), commandId, request, proofValid, eventId, now);
      var key := CommandKey(authority.domain, AckKind, commandId);
      var answer := Answer(Replay(results, key, request));
      if answer.Some? {
        return answer.value;
      }
      var refused := AckProblem(Tables(), request, proofValid, now);
      if refused.Some? {
        return Refused(refused.value);
      }
      if !Ackable(Tables(), request, eventId) {
        return Refused(Integrity);
      }
      var ref := grants[request.grant].ref;
      AckHere(key, request, eventId, now);
      return Committed(Acknowledged(ref, now));
    }

    /** Activate the Claim, move the Proposal, save the result, publish. */
    method AckHere(key: CommandKey, request: Request, eventId: Id, now: Moment)
      requires request.AckRequest? && Ackable(Tables(), request, eventId)
      modifies this`proposals, this`acks, this`claims, this`results, this`outbox, this`stream, this`devices
      ensures Tables() == AckNow(old(Tables()), key, request, eventId, now)
    {
      hide Activate;
      var grant := grants[request.grant];
      var owner := decisions[grant.decision].owner;
      var revision := ActivateHere(request, eventId, now);
      proposals := proposals[request.enrollment := Reached(proposals[request.enrollment], GrantAcknowledged, now)];
      results := results[key := SavedResult(request, Acknowledged(grant.ref, now))];
      AddClaimEvent(ClaimEvent(eventId, grant.ref, revision, now, Activation(owner, grant.manifest, grant.decision)));
    }

    /** Record the acknowledgement, insert or overwrite the Claim, project the directory row. */
    method ActivateHere(request: Request, eventId: Id, now: Moment) returns (revision: nat)
      requires request.AckRequest? && Ackable(Tables(), request, eventId)
      modifies this`acks, this`claims, this`devices
      ensures Tables() == Activate(old(Tables()), request, eventId, now)
      ensures grants[request.grant].ref.device in claims
      ensures revision == claims[grants[request.grant].ref.device].revision
    {
      hide ActiveRow;
      var proposal := proposals[request.enrollment];
      var grant := grants[request.grant];
      var device := grant.ref.device;
      acks := acks[request.grant := Ack(request.enrollment, grant.ref, now)];
      var owner := decisions[grant.decision].owner;
      revision := if device in claims then claims[device].revision + 1 else 1;
      claims := claims[device := ActiveClaim(grant, owner, proposal.operationalKey, now).(revision := revision)];
      devices := devices[device := ActiveRow(devices, grant.ref, owner, proposal.manifest, now)];
    }

    /** A Claim event is written to the outbox and appended to the stream in the same transaction. */
    method AddClaimEvent(event: ClaimEvent)
      modifies this`outbox, this`stream
      ensures Tables() == Publish(old(Tables()), event)
    {
      outbox := outbox[event.id := event];
      stream := stream + [event];
    }

    method RevokeClaim(commandId: Id, ref: DeviceRef, reason: string, context: Context, eventId: Id, now: Moment)
      returns (reply: Reply)
      requires Valid()
      modifies this`proposals, this`grants, this`claims, this`results, this`outbox, this`stream, this`devices
      ensures Valid()
      ensures (Tables(), reply) == RevokeTx(old(Tables()), commandId, ref, reason, context, eventId, now)
    {
      hide Inv, RevokedRows, Undo;
      RevokeKeeps(authority, Tables(), commandId, ref, reason, context, eventId, now);
      if !context.HasScope(REVOKE) {
        return Refused(Forbidden);
      }
      if ref.domain != context.actor.domain {
        return Refused(OwnerDomainMismatch);
      }
      var key := CommandKey(context.actor.domain, RevokeKind, commandId);
      var request := RevokeRequest(ref, reason);
      var answer := Answer(Replay(results, key, request));
      if answer.Some? {
        return answer.value;
      }
      var g := FindGrantForRef(ref);
      if ref.device in claims {
        var claim := claims[ref.device];
        if claim.owner != context.owner {
          return Refused(NotFound);
        }
        if ClaimRef(ref.device, claim) != ref {
          return Refused(GenerationConflict);
        }
        if claim.state == Revoked {
          var result := RevokedBefore(claim, ref);
          results := results[key := SavedResult(request, result)];
          return Committed(result);
        }
        if eventId in outbox {
          return Refused(Integrity);
        }
        RevokeActive(ref, now);
        var revision := ConcludeRevocation(key, ref, reason, eventId, now);
        return Committed(RevokedResult(ref, revision, Some(eventId), now));
      }
      if g.None? {
        return Refused(NotFound);
      }
      var grant := grants[g.value];
      if grant.decision !in decisions || grant.enrollment !in proposals {
        return Refused(Integrity);
      }
      if decisions[grant.decision].owner != context.owner {
        return Refused(NotFound);
      }
      if !AllowedTransition(proposals[grant.enrollment].state, ClaimRevoked) {
        return Refused(TransitionProblem(proposals[grant.enrollment].state));
      }
      if eventId in outbox {
        return Refused(Integrity);
      }
      RevokePending(ref, g.value, now);
      var revision := ConcludeRevocation(key, ref, reason, eventId, now);
      return Committed(RevokedResult(ref, revision, Some(eventId), now));
    }

    method FindGrantForRef(ref: DeviceRef) returns (g: Option<Id>)
      requires Valid()
      ensures g == GrantForRef(grants, ref)
    {
      hide Inv;
      if x :| x in grants && grants[x].ref == ref {
        RefFixesLookup(authority, Tables(), x);
        return Some(x);
      }
      return None;
    }

    /** Revoke the Claim of a device that has one, and the Grant its decision minted. */
    method RevokeActive(ref: DeviceRef, now: Moment)
      requires Valid() && ref.device in claims
      modifies this`grants, this`claims
      ensures Tables() == Undo(old(Tables()), ref, now) && ref.device in claims
    {
      hide Inv;
      var claim := claims[ref.device];
      claims := claims[ref.device := claim.(state := Revoked, revision := claim.revision + 1, updatedAt := now,
                                            revokedAt := Some(now))];
      if g :| g in grants && grants[g].decision == claim.decision {
        DecisionFixes(authority, old(Tables()), g);
        grants := grants[g := grants[g].(revokedAt := Some(now))];
      }
    }

    /** Revoke a Grant nobody acknowledged: the device gets a Claim that was never active. */
    method RevokePending(ref: DeviceRef, g: Id, now: Moment)
      requires ref.device !in claims && GrantForRef(grants, ref) == Some(g)
      requires grants[g].decision in decisions && grants[g].enrollment in proposals
      modifies this`proposals, this`grants, this`claims
      ensures Tables() == Undo(old(Tables()), ref, now) && ref.device in claims
    {
      var grant := grants[g];
      var proposal := proposals[grant.enrollment];
      proposals := proposals[grant.enrollment := Reached(proposal, ClaimRevoked, now)];
      grants := grants[g := grant.(revokedAt := Some(now))];
      claims := claims[ref.device := RevokedClaim(grant, decisions[grant.decision].owner, proposal.operationalKey,
                                                  now)];
    }

    /** The directory row, the saved result and the event follow the Claim. */
    method ConcludeRevocation(key: CommandKey, ref: DeviceRef, reason: string, eventId: Id, now: Moment)
      returns (revision: nat)
      requires ref.device in claims
      modifies this`results, this`outbox, this`stream, this`devices
      ensures revision == old(claims)[ref.device].revision
      ensures Tables() == Publish(Save(ProjectRevoked(old(Tables()), ref, now), key, RevokeRequest(ref, reason),
                                       RevokedResult(ref, revision, Some(eventId), now)),
                                  ClaimEvent(eventId, ref, revision, now, Revocation(reason)))
    {
      revision := claims[ref.device].revision;
      devices := RevokedRows(devices, ref, now);
      results := results[key := SavedResult(RevokeRequest(ref, reason),
                                            RevokedResult(ref, revision, Some(eventId), now))];
      AddClaimEvent(ClaimEvent(eventId, ref, revision, now, Revocation(reason)));
    }

    // Whole commands: look the command id up, let deadlines take effect, then the transaction.

    method CancelEnrollment(commandId: Id, enrollment: Id, reason: string, context: Context, swept: Moment, now: Moment)
      returns (reply: Reply)
      requires Valid()
      modifies this
      ensures Valid()
      ensures var s := old(Tables());
        var answer := Answer(Replay(s.results, CommandKey(context.actor.domain, CancelKind, commandId),
                                    CancelRequest(enrollment, reason, context.actor)));
        if !context.HasScope(APPROVE) then Tables() == s && reply == Refused(Forbidden)
        else if answer.Some? then Tables() == s && reply == answer.value
        else (Tables(), reply) == CancelTx(ExpireTx(s, swept), commandId, enrollment, reason, context, now)
    {
      hide Inv, CancelTx, ExpireTx;
      if !context.HasScope(APPROVE) {
        return Refused(Forbidden);
      }
      var answer := Answer(Replay(results, CommandKey(context.actor.domain, CancelKind, commandId),
                                  CancelRequest(enrollment, reason, context.actor)));
      if answer.Some? {
        return answer.value;
      }
      var _ := ExpireDue(swept);
      reply := CancelInTransaction(commandId, enrollment, reason, context, now);
    }

    method DecideEnrollment(commandId: Id, request: Request, context: Context, ids: DecisionIds, swept: Moment,
                            now: Moment)
      returns (reply: Reply)
      requires Valid() && request.DecideRequest? && request.actor == context.actor
      modifies this
      ensures Valid()
      ensures var s := old(Tables());
        var answer := Answer(Replay(s.results, CommandKey(request.targetDomain, DecideKind, commandId), request));
        if !context.HasScope(APPROVE) then Tables() == s && reply == Refused(Forbidden)
        else if request.targetDomain != context.actor.domain then Tables() == s && reply == Refused(OwnerDomainMismatch)
        else if request.targetOwner != context.owner then Tables() == s && reply == Refused(BusinessOwnerMismatch)
        else if answer.Some? then Tables() == s && reply == answer.value
        else (Tables(), reply) == DecideTx(authority, ExpireTx(s, swept), commandId, request, context, ids, now)
    {
      hide Inv, DecideTx, ExpireTx;
      if !context.HasScope(APPROVE) {
        return Refused(Forbidden);
      }
      if request.targetDomain != context.actor.domain {
        return Refused(OwnerDomainMismatch);
      }
      if request.targetOwner != context.owner {
        return Refused(BusinessOwnerMismatch);
      }
      var answer := Answer(Replay(results, CommandKey(request.targetDomain, DecideKind, commandId), request));
      if answer.Some? {
        return answer.value;
      }
      var _ := ExpireDue(swept);
      reply := DecideInTransaction(commandId, request, context, ids, now);
    }

    method CollectClaimGrant(commandId: Id, enrollment: Id, revision: nat, challenge: string, proof: string,
                             proofValid: bool, sealed: string, swept: Moment, now: Moment) returns (reply: Reply)
      requires Valid()
      modifies this
      ensures Valid()
      ensures var s := old(Tables());
        var answer := Answer(Replay(s.results, CommandKey(authority.domain, CollectKind, commandId),
                                    CollectRequest(enrollment, revision, Sha256(challenge), proof)));
        if answer.Some? then Tables() == s && reply == answer.value
        else (Tables(), reply) == CollectTx(authority, ExpireTx(s, swept), commandId, enrollment, revision, challenge,
                                            proof, proofValid, sealed, now)
    {
      hide Inv, CollectTx, ExpireTx;
      var answer := Answer(Replay(results, CommandKey(authority.domain, CollectKind, commandId),
                                  CollectRequest(enrollment, revision, Sha256(challenge), proof)));
      if answer.Some? {
        return answer.value;
      }
      var _ := ExpireDue(swept);
      reply := CollectInTransaction(commandId, enrollment, revision, challenge, proof, proofValid, sealed, now);
    }

    method AckClaimGrant(commandId: Id, request: Request, proofValid: bool, eventId: Id, swept: Moment, now: Moment)
      returns (reply: Reply)
      requires Valid() && request.AckRequest?
      modifies this
      ensures Valid()
      ensures var s := old(Tables());
        var answer := Answer(Replay(s.results, CommandKey(authority.domain, AckKind, commandId), request));
        if answer.Some? then Tables() == s && reply == answer.value
        else (Tables(), reply) == AckTx(authority, ExpireTx(s, swept), commandId, request, proofValid, eventId, now)
    {
      hide Inv, AckTx, ExpireTx;
      var answer := Answer(Replay(results, CommandKey(authority.domain, AckKind, commandId), request));
      if answer.Some? {
        return answer.value;
      }
      var _ := ExpireDue(swept);
      reply := AckInTransaction(commandId, request, proofValid, eventId, now);
    }
  }

  lemma GrantsAreNumbered(a: Authority, s: State)
    requires Inv(a, s)
    ensures forall g :: g in s.grants && s.grants[g].domain == a.domain ==> s.grants[g].claimGeneration >= 1
  {
    hide BindingsOk, ProposalsOk, DecisionsOk, LinksOk, StagesOk, ClaimsOk, StreamOk, DevicesOk, ResultsOk;
    forall g | g in s.grants ensures s.grants[g].claimGeneration >= 1 {
      GrantFacts(a, s.proposals, s.decisions, s.grants, g);
    }
  }

  lemma Collectable(a: Authority, s: State, enrollment: Id, revision: nat, challenge: string, proofValid: bool,
                    now: Moment)
    requires CollectProblem(a, s, enrollment, revision, challenge, proofValid, now).None?
    ensures enrollment in s.proposals && GrantOf(s.grants, enrollment).Some?
  {
  }

  /** What a creation comes to, outcome by outcome. */
  lemma CreateOutcome(a: Authority, s: State, key: CommandKey, payload: EnrollmentPayload, verified: Verified,
                      hardware: Id, enrollment: Id, challenge: string, ids: DecisionIds, now: Moment)
    ensures var created := CreateNow(a, s, key, payload, verified, hardware, enrollment, challenge, ids, now);
      var proposed := Propose(a, s, key, payload, verified, hardware, enrollment, challenge, now);
      if proposed.Err? then created == (s, Refused(proposed.error))
      else
        var decided := DecidedFromStanding(a, proposed.value, payload, verified, enrollment, ids, now);
        created == if decided.Err? then (s, Refused(decided.error))
                   else (decided.value, Committed(CreatedResult(a, payload, enrollment, challenge, now)))
  {
    hide Propose, DecidedFromStanding;
  }

  lemma StandingPresent(a: Authority, s: State, verified: Verified, keyId: KeyId)
    ensures var jti := StandingFor(a, s, verified, keyId); jti.Some? ==> jti.value in s.standings
  {
  }

  lemma InOwnDomain(a: Authority, s: State, e: Id)
    requires Inv(a, s) && e in s.proposals
    ensures s.proposals[e].domain == a.domain
  {
    hide BindingsOk, DecisionsOk, GrantsOk, LinksOk, StagesOk, ClaimsOk, StreamOk, DevicesOk, ResultsOk;
  }

  lemma DecisionFixes(a: Authority, s: State, g: Id)
    requires Inv(a, s) && g in s.grants
    ensures GrantForDecision(s.grants, s.grants[g].decision) == Some(g)
  {
    hide BindingsOk, ProposalsOk, DecisionsOk, GrantsOk, LinksOk, StagesOk, ClaimsOk, StreamOk, DevicesOk, ResultsOk;
    DecisionFixesGrant(a, s.proposals, s.decisions, s.grants, g, s.grants[g].decision);
  }

  lemma UniqueEnrollments(a: Authority, s: State)
    requires Inv(a, s)
    ensures forall g, h :: g in s.grants && h in s.grants && s.grants[g].enrollment == s.grants[h].enrollment ==> g == h
  {
    hide BindingsOk, ProposalsOk, DecisionsOk, LinksOk, StagesOk, ClaimsOk, StreamOk, DevicesOk, ResultsOk;
  }

  /** The rows one expiry pass loads, and what it leaves of them. */
  method Sweep(m: map<Id, Proposal>, n: map<Id, Grant>, now: Moment)
    returns (count: nat, m': map<Id, Proposal>, n': map<Id, Grant>)
    requires forall g, h :: g in n && h in n && n[g].enrollment == n[h].enrollment ==> g == h
    ensures m' == ExpiredProposals(m, now) && n' == LapsedGrants(m, n, now)
    ensures count == |set e | e in m && Due(m[e], now)|
  {
    hide SweptProposals, SweptGrants, Lapsed, ExpiredProposals, LapsedGrants, Due, Reached;
    SweepStarts(m, n, now);
    var due := set e | e in m && Due(m[e], now);
    count, m', n' := |due|, m, n;
    var rest := due;
    ghost var done: set<Id> := {};
    while rest != {}
      invariant rest !! done && rest + done == due
      invariant SweptProposals(m, m', done, now)
      invariant SweptGrants(n, n', done, now)
      decreases rest
    {
      var e :| e in rest;
      assert e in due;
      SweepProposal(m, m', done, e, now);
      m' := m'[e := Reached(m'[e], Expired, now)];
      if g :| g in n' && n'[g].enrollment == e {
        SweptKeys(n, n', done, g, now);
        SweepGrant(n, n', done, e, g, now);
        n' := n'[g := Lapsed(n'[g], now)];
      } else {
        NothingToSweep(n, n', done, e, now);
      }
      rest, done := rest - {e}, done + {e};
    }
    SweptAll(m, m', n, n', done, now);
  }

  // The sweep, one Proposal at a time

  ghost predicate SweptProposals(m: map<Id, Proposal>, m': map<Id, Proposal>, done: set<Id>, now: Moment) {
    m'.Keys == m.Keys && forall e :: e in m ==> m'[e] == if e in done then Reached(m[e], Expired, now) else m[e]
  }

  ghost predicate SweptGrants(m: map<Id, Grant>, m': map<Id, Grant>, done: set<Id>, now: Moment) {
    m'.Keys == m.Keys && forall g :: g in m ==> m'[g] == SweptGrant(m[g], done, now)
  }

  ghost function SweptGrant(grant: Grant, done: set<Id>, now: Moment): Grant {
    if grant.enrollment in done && grant.revokedAt.None? then grant.(revokedAt := Some(now)) else grant
  }

  lemma SweepStarts(m: map<Id, Proposal>, n: map<Id, Grant>, now: Moment)
    ensures SweptProposals(m, m, {}, now) && SweptGrants(n, n, {}, now)
  {
  }

  lemma SweptKeys(m: map<Id, Grant>, m': map<Id, Grant>, done: set<Id>, g: Id, now: Moment)
    requires SweptGrants(m, m', done, now) && g in m'
    ensures g in m && m[g].enrollment == m'[g].enrollment
  {
  }

  lemma SweepProposal(m: map<Id, Proposal>, m': map<Id, Proposal>, done: set<Id>, e: Id, now: Moment)
    requires SweptProposals(m, m', done, now) && e in m && e !in done
    ensures e in m' && m'[e] == m[e] && SweptProposals(m, m'[e := Reached(m[e], Expired, now)], done + {e}, now)
  {
  }

  function Lapsed(grant: Grant, now: Moment): Grant {
    if grant.revokedAt.None? then grant.(revokedAt := Some(now)) else grant
  }

  lemma SweptMore(grant: Grant, done: set<Id>, e: Id, now: Moment)
    requires e !in done
    ensures SweptGrant(grant, done, now).enrollment == grant.enrollment
    ensures SweptGrant(grant, done + {e}, now) == if grant.enrollment == e then Lapsed(grant, now)
                                                  else SweptGrant(grant, done, now)
    ensures grant.enrollment == e ==> SweptGrant(grant, done, now) == grant
  {
  }

  lemma SweepGrant(m: map<Id, Grant>, m': map<Id, Grant>, done: set<Id>, e: Id, g: Id, now: Moment)
    requires SweptGrants(m, m', done, now) && e !in done
    requires g in m' && m'[g].enrollment == e
    requires forall h :: h in m && m[h].enrollment == e ==> h == g
    ensures m'[g] == m[g] && SweptGrants(m, m'[g := Lapsed(m'[g], now)], done + {e}, now)
  {
    hide SweptGrant, Lapsed;
    forall h | h in m ensures m'[g := Lapsed(m'[g], now)][h] == SweptGrant(m[h], done + {e}, now) {
      SweptMore(m[h], done, e, now);
      SweptMore(m[g], done, e, now);
    }
    SweptMore(m[g], done, e, now);
  }

  lemma NothingToSweep(m: map<Id, Grant>, m': map<Id, Grant>, done: set<Id>, e: Id, now: Moment)
    requires SweptGrants(m, m', done, now) && e !in done && forall g :: g in m' ==> m'[g].enrollment != e
    ensures SweptGrants(m, m', done + {e}, now)
  {
    hide SweptGrant;
    forall g | g in m ensures m'[g] == SweptGrant(m[g], done + {e}, now) {
      SweptMore(m[g], done, e, now);
    }
  }

  lemma SweptAll(m: map<Id, Proposal>, m': map<Id, Proposal>, n: map<Id, Grant>, n': map<Id, Grant>, due: set<Id>,
                 now: Moment)
    requires due == set e | e in m && Due(m[e], now)
    requires SweptProposals(m, m', due, now) && SweptGrants(n, n', due, now)
    ensures m' == ExpiredProposals(m, now) && n' == LapsedGrants(m, n, now)
  {
  }
}
