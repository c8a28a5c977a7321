/** What each Admission transaction does to the tables, as a function of the tables and its inputs.
    Fresh identifiers, clock readings, sealed envelopes and the outcome of signature checks are inputs. */
module AdmissionCommands {
  import opened Prelude
  import opened AdmissionDomain
  import opened AdmissionTables

  datatype DecisionIds = DecisionIds(decision: Id, grant: Id)

  datatype Step =
    | Create(commandId: Id, payload: EnrollmentPayload, verified: Option<Verified>,
             enrollment: Id, challenge: string, ids: DecisionIds, now: Moment)
    | RecordStanding(jti: Id, keyId: KeyId, context: Context, now: Moment)
    | Withdraw(principal: Id, context: Context, now: Moment)
    | ExpireDue(now: Moment)
    | Cancel(commandId: Id, enrollment: Id, reason: string, context: Context, now: Moment)
    | Decide(commandId: Id, request: Request, context: Context, ids: DecisionIds, now: Moment)
    | Collect(commandId: Id, enrollment: Id, revision: nat, challenge: string, proof: string,
              proofValid: bool, sealed: string, now: Moment)
    | AckGrant(commandId: Id, request: Request, proofValid: bool, eventId: Id, now: Moment)
    | Revoke(commandId: Id, ref: DeviceRef, reason: string, context: Context, eventId: Id, now: Moment)
    | CommitDevice(device: DeviceId, expected: DeviceRow, change: DeviceChange, eventId: Id, event: ManagementEvent)

  datatype DeviceChange =
    | AcceptManifest(manifest: ManifestRef, now: Moment)
    | SetPolicy(policy: OutputPolicy, now: Moment)

  // Creation

  /** Spend a voucher and bind its base identity; both happen or neither does. */
  ghost function Commission(s: State, domain: Id, base: Id, jti: Id, expiresAt: Moment, hardware: Id, keyId: KeyId,
                            now: Moment)
    : Result<State, Problem>
  {
    if jti in s.vouchers then Err(Unauthenticated)
    else
      var spent := s.(vouchers := s.vouchers[jti := Voucher(base, keyId, expiresAt, now)]);
      if base in s.bindings then
        if s.bindings[base].keyId != keyId then Err(Unauthenticated) else Ok(spent)
      else if BindingForKey(s.bindings, keyId).Some? then Err(Unauthenticated)
      else Ok(spent.(bindings := s.bindings[base := Binding(domain, hardware, keyId, now)]))
  }

  predicate ContinuationBound(bindings: map<Id, Binding>, domain: Id, base: Id, hardware: Id, keyId: KeyId) {
    base in bindings && bindings[base].domain == domain && bindings[base].keyId == keyId
    && bindings[base].hardware == hardware
  }

  /** The durable part of proving standing to ask. */
  ghost function Ask(a: Authority, s: State, verified: Verified, hardware: Id, keyId: KeyId, now: Moment)
    : Result<State, Problem>
  {
    match verified
    case ByVoucher(base, jti, expiresAt) => Commission(s, a.domain, base, jti, expiresAt, hardware, keyId, now)
    case ByContinuation(base) =>
      if !ContinuationBound(s.bindings, a.domain, base, hardware, keyId) then Err(Unauthenticated)
      else if RequiresFreshPresence(s, a.domain, hardware) then Err(Forbidden)
      else Ok(s)
  }

  /** A row that still speaks for its key: right domain and key, by a Controller that could decide,
      and recorded after that Controller was last withdrawn. */
  predicate StandingDecides(withdrawals: map<(Id, Id), Withdrawal>, standing: Standing, domain: Id, keyId: KeyId) {
    && StandingFits(standing, domain, keyId)
    && standing.actor.domain == domain
    && APPROVE in standing.actor.scopes
    && ((domain, standing.actor.principal) in withdrawals
        ==> standing.recordedAt > withdrawals[(domain, standing.actor.principal)].withdrawnAt)
  }

  /** The jti of the standing a Proposal arrives with, if one decides it. */
  ghost function StandingFor(a: Authority, s: State, verified: Verified, keyId: KeyId): (r: Option<Id>)
    ensures r.Some? ==> r.value in s.standings && StandingDecides(s.withdrawals, s.standings[r.value], a.domain, keyId)
  {
    if !a.decideFromStanding then None
    else
      var candidate := match verified
        case ByVoucher(_, jti, _) => if jti in s.standings then Some(jti) else None
        case ByContinuation(_) => LatestStanding(s.standings, a.domain, keyId);
      if candidate.Some? && candidate.value in s.standings
         && StandingDecides(s.withdrawals, s.standings[candidate.value], a.domain, keyId) then candidate
      else None
  }

  function PayloadProblem(payload: EnrollmentPayload, verified: Option<Verified>): Option<Problem> {
    if payload.evidenceDigest != Sha256(payload.evidence) then Some(InvalidArgument)
    else if payload.device != DeviceInstanceId(payload.operationalKey) then Some(InvalidArgument)
    else if verified.None? || payload.scheme != SchemeOf(verified.value) then Some(Unauthenticated)
    else if HardwareRef(verified.value.base).None? then Some(InvalidArgument)
    else if payload.manifest.digest != Sha256(payload.manifestDocument) then Some(InvalidArgument)
    else None
  }

  function NewProposal(a: Authority, payload: EnrollmentPayload, hardware: Id, challenge: string, now: Moment): Proposal
  {
    Proposal(payload.device, hardware, payload.domain, PendingReview, 1, payload.manifest, payload.handoffKey,
             payload.operationalKey, Sha256(challenge), now, now + a.proposalTtl, now)
  }

  ghost function CreateTx(a: Authority, s: State, commandId: Id, payload: EnrollmentPayload, verified: Option<Verified>,
                          enrollment: Id, challenge: string, ids: DecisionIds, now: Moment): (State, Reply)
  {
    var key := CommandKey(payload.domain, CreateKind, commandId);
    var answer := Answer(Replay(s.results, key, CreateRequest(payload)));
    if payload.domain != a.domain then (s, Refused(OwnerDomainMismatch))
    else if answer.Some? then (s, answer.value)
    else if PayloadProblem(payload, verified).Some? then (s, Refused(PayloadProblem(payload, verified).value))
    else
      CreateNow(a, s, key, payload, verified.value, HardwareRef(verified.value.base).value, enrollment, challenge, ids,
                now)
  }

  /** A Proposal and its saved result; when a standing decides it, the Decision comes with it or neither does. */
  ghost function CreateNow(a: Authority, s: State, key: CommandKey, payload: EnrollmentPayload, verified: Verified,
                           hardware: Id, enrollment: Id, challenge: string, ids: DecisionIds,
                           now: Moment): (State, Reply)
  {
    var result := CreatedResult(a, payload, enrollment, challenge, now);
    match Propose(a, s, key, payload, verified, hardware, enrollment, challenge, now)
    case Err(problem) => (s, Refused(problem))
    case Ok(saved) =>
      match DecidedFromStanding(a, saved, payload, verified, enrollment, ids, now)
      case Err(problem) => (s, Refused(problem))
      case Ok(decided) => (decided, Committed(result))
  }

  ghost function DecidedFromStanding(a: Authority, s: State, payload: EnrollmentPayload, verified: Verified,
                                     enrollment: Id, ids: DecisionIds, now: Moment): Result<State, Problem>
    requires enrollment in s.proposals
  {
    match StandingFor(a, s, verified, KeyId(payload.operationalKey))
    case None => Ok(s)
    case Some(jti) =>
      var standing := s.standings[jti];
      DecideInSession(a, s, enrollment, true, standing.actor, standing.owner, payload.manifest, ids, now)
  }

  function CreatedResult(a: Authority, payload: EnrollmentPayload, enrollment: Id, challenge: string, now: Moment)
    : CommandResult
  {
    Created(enrollment, challenge, now + a.proposalTtl, payload.manifest, now)
  }

  /** Standing proved, the Proposal added and the command's result saved. */
  ghost function Propose(a: Authority, s: State, key: CommandKey, payload: EnrollmentPayload, verified: Verified,
                         hardware: Id, enrollment: Id, challenge: string, now: Moment): (r: Result<State, Problem>)
    ensures r.Ok? ==> enrollment in r.value.proposals
  {
    match Ask(a, s, verified, hardware, KeyId(payload.operationalKey), now)
    case Err(problem) => Err(problem)
    case Ok(asked) =>
      if enrollment in s.proposals then Err(Integrity)
      else Ok(Save(asked.(proposals := s.proposals[enrollment := NewProposal(a, payload, hardware, challenge, now)]),
                   key, CreateRequest(payload), CreatedResult(a, payload, enrollment, challenge, now)))
  }

  // Standing and withdrawal

  function RecordStandingTx(s: State, jti: Id, keyId: KeyId, context: Context, now: Moment): (State, Option<Problem>) {
    var standing := Standing(keyId, context.actor.domain, context.owner, context.actor, now);
    if !context.HasScope(APPROVE) then (s, Some(Forbidden))
    else if jti in s.standings then
      (s, if s.standings[jti].(recordedAt := now) == standing then None else Some(IdempotencyConflict))
    else (s.(standings := s.standings[jti := standing]), None)
  }

  predicate ValidPrincipal(principal: Id) {
    Strip(principal) != "" && |principal| <= 128
  }

  function WithdrawTx(s: State, principal: Id, context: Context, now: Moment): (State, Result<Moment, Problem>) {
    var key := (context.actor.domain, principal);
    if !context.HasScope(APPROVE) then (s, Err(Forbidden))
    else if !ValidPrincipal(principal) then (s, Err(InvalidArgument))
    else if key in s.withdrawals && now <= s.withdrawals[key].withdrawnAt then (s, Ok(s.withdrawals[key].withdrawnAt))
    else (s.(withdrawals := s.withdrawals[key := Withdrawal(now, context.actor)]), Ok(now))
  }

  // Expiry and cancellation

  predicate Due(proposal: Proposal, now: Moment) {
    !Terminal(proposal.state) && proposal.expiresAt <= now
  }

  function ExpiredProposals(proposals: map<Id, Proposal>, now: Moment): map<Id, Proposal> {
    map e | e in proposals :: if Due(proposals[e], now) then Reached(proposals[e], Expired, now) else proposals[e]
  }

  predicate Lapses(proposals: map<Id, Proposal>, grant: Grant, now: Moment) {
    grant.enrollment in proposals && Due(proposals[grant.enrollment], now) && grant.revokedAt.None?
  }

  function LapsedGrants(proposals: map<Id, Proposal>, grants: map<Id, Grant>, now: Moment): map<Id, Grant> {
    map g | g in grants :: if Lapses(proposals, grants[g], now) then grants[g].(revokedAt := Some(now)) else grants[g]
  }

  function ExpireTx(s: State, now: Moment): State {
    s.(proposals := ExpiredProposals(s.proposals, now), grants := LapsedGrants(s.proposals, s.grants, now))
  }

  function CancelTx(s: State, commandId: Id, enrollment: Id, reason: string, context: Context, now: Moment)
    : (State, Reply)
  {
    var key := CommandKey(context.actor.domain, CancelKind, commandId);
    var request := CancelRequest(enrollment, reason, context.actor);
    var answer := Answer(Replay(s.results, key, request));
    if !context.HasScope(APPROVE) then (s, Refused(Forbidden))
    else if answer.Some? then (s, answer.value)
    else if enrollment !in s.proposals
         || s.proposals[enrollment].domain != context.actor.domain then (s, Refused(NotFound))
    else if !AllowedTransition(s.proposals[enrollment].state, Canceled) then
      (s, Refused(TransitionProblem(s.proposals[enrollment].state)))
    else
      var result := CanceledResult(enrollment, s.proposals[enrollment].revision + 1, now);
      (Save(Move(s, enrollment, Canceled, now), key, request, result), Committed(result))
  }

  // Decision

  /** Record one Decision on a Proposal and, when it approves, mint the Grant of the next generation. */
  ghost function DecideInSession(a: Authority, s: State, enrollment: Id, approve: bool, actor: Actor, owner: Id,
                                 reviewed: ManifestRef, ids: DecisionIds, now: Moment): Result<State, Problem>
    requires enrollment in s.proposals
  {
    var p := s.proposals[enrollment];
    if ids.decision in s.decisions then Err(Integrity)
    else
      var decision := Decision(enrollment, approve, actor, a.domain, owner, reviewed, p.revision, now);
      var moved := Move(s, enrollment, if approve then ApprovedAwaitingHandoff else Rejected, now)
        .(decisions := s.decisions[ids.decision := decision]);
      if !approve then Ok(moved)
      else if ids.grant in s.grants then Err(Integrity)
      else
        var generation := MaxGeneration(s.grants, a.domain, p.hardware) + 1;
        var grant := NewGrant(a, p, enrollment, ids.decision, generation, reviewed, now);
        Ok(moved.(grants := s.grants[ids.grant := grant]))
  }

  function NewGrant(a: Authority, p: Proposal, enrollment: Id, decision: Id, generation: nat, reviewed: ManifestRef,
                    now: Moment): Grant
  {
    Grant(enrollment, decision, a.domain, p.hardware, generation,
          DeviceRef(p.device, a.domain, a.domainGeneration, generation, 1),
          reviewed, KeyId(p.operationalKey), None, now, now + a.grantTtl, None, None)
  }

  ghost function DecideTx(a: Authority, s: State, commandId: Id, request: Request, context: Context, ids: DecisionIds,
                          now: Moment)
    : (State, Reply)
    requires request.DecideRequest? && request.actor == context.actor
  {
    var key := CommandKey(request.targetDomain, DecideKind, commandId);
    var answer := Answer(Replay(s.results, key, request));
    if !context.HasScope(APPROVE) then (s, Refused(Forbidden))
    else if request.targetDomain != context.actor.domain then (s, Refused(OwnerDomainMismatch))
    else if request.targetOwner != context.owner then (s, Refused(BusinessOwnerMismatch))
    else if answer.Some? then (s, answer.value)
    else if request.enrollment !in s.proposals || s.proposals[request.enrollment].domain != context.actor.domain then
      (s, Refused(NotFound))
    else
      var p := s.proposals[request.enrollment];
      var target := if request.approve then ApprovedAwaitingHandoff else Rejected;
      if p.state == Expired || p.expiresAt <= now then (s, Refused(ProposalExpired))
      else if !AllowedTransition(p.state, target) then (s, Refused(TransitionProblem(p.state)))
      else if p.revision != request.expectedRevision then (s, Refused(RevisionConflict))
      else if request.reviewed != p.manifest then (s, Refused(RevisionConflict))
      else
        DecideNow(a.(domain := request.targetDomain), s, key, request, ids, now)
  }

  ghost function DecideNow(a: Authority, s: State, key: CommandKey, request: Request, ids: DecisionIds, now: Moment)
    : (State, Reply)
    requires request.DecideRequest? && request.enrollment in s.proposals
  {
    match DecideInSession(a, s, request.enrollment, request.approve, request.actor, request.targetOwner,
                          request.reviewed, ids, now)
    case Err(problem) => (s, Refused(problem))
    case Ok(decided) =>
      var result := Decided(ids.decision, decided.decisions[ids.decision],
                            if request.approve then Some(ids.grant) else None, s.proposals[request.enrollment].revision,
                            now);
      (Save(decided, key, request, result), Committed(result))
  }

  // Collection

  /** Everything `collect_claim_grant` refuses before it touches the Grant. */
  ghost function CollectProblem(a: Authority, s: State, enrollment: Id, revision: nat, challenge: string,
                                proofValid: bool, now: Moment)
    : Option<Problem>
  {
    if enrollment !in s.proposals || s.proposals[enrollment].domain != a.domain then Some(NotFound)
    else
      var p := s.proposals[enrollment];
      var g := GrantOf(s.grants, enrollment);
      var d := DecisionOf(s.decisions, enrollment);
      if p.state == ClaimRevoked then Some(ClaimGenerationRevoked)
      else if p.state == GrantAcknowledged then Some(ProposalTerminal)
      else if p.state == Expired || p.expiresAt <= now then Some(ProposalExpired)
      else if g.Some? && s.grants[g.value].revokedAt.Some? then Some(ClaimGenerationRevoked)
      else if g.Some? && p.state == GrantDelivered && s.grants[g.value].envelope.None? then Some(ContractUnsupported)
      else if d.None? || !(p.state.ApprovedAwaitingHandoff? || p.state.GrantDelivered?) then Some(DecisionRequired)
      else if s.decisions[d.value].expectedRevision != revision then Some(RevisionConflict)
      else if p.challengeHash != Sha256(challenge) then Some(HandoffProofInvalid)
      else if !proofValid then Some(HandoffProofInvalid)
      else if g.None? then Some(DecisionRequired)
      else if s.grants[g.value].expiresAt <= now then Some(GrantExpired)
      else None
  }

  ghost function CollectTx(a: Authority, s: State, commandId: Id, enrollment: Id, revision: nat, challenge: string,
                           proof: string, proofValid: bool, sealed: string, now: Moment): (State, Reply)
  {
    var key := CommandKey(a.domain, CollectKind, commandId);
    var request := CollectRequest(enrollment, revision, Sha256(challenge), proof);
    var answer := Answer(Replay(s.results, key, request));
    var problem := CollectProblem(a, s, enrollment, revision, challenge, proofValid, now);
    if answer.Some? then (s, answer.value)
    else if problem.Some? then (s, Refused(problem.value))
    else
      var g := GrantOf(s.grants, enrollment).value;
      var delivered := if s.grants[g].envelope.Some? then s else Deliver(s, enrollment, g, sealed, now);
      var result := CollectedResult(enrollment, g, delivered.grants[g], revision, now);
      (Save(delivered, key, request, result), Committed(result))
  }

  function CollectedResult(enrollment: Id, g: Id, grant: Grant, revision: nat, now: Moment): CommandResult
    requires grant.envelope.Some?
  {
    Collected(enrollment, g, grant.envelope.value, grant.expiresAt, grant.decision, revision,
              if grant.deliveredAt.Some? then grant.deliveredAt.value else now)
  }

  function Deliver(s: State, enrollment: Id, g: Id, sealed: string, now: Moment): State
    requires enrollment in s.proposals && g in s.grants
  {
    Move(s, enrollment, GrantDelivered, now)
      .(grants := s.grants[g := s.grants[g].(envelope := Some(sealed), deliveredAt := Some(now))])
  }

  // Acknowledgement

  function AckProblem(s: State, request: Request, proofValid: bool, now: Moment): Option<Problem>
    requires request.AckRequest?
  {
    if request.enrollment !in s.proposals || request.grant !in s.grants
       || s.grants[request.grant].enrollment != request.enrollment then Some(NotFound)
    else
      var p := s.proposals[request.enrollment];
      var grant := s.grants[request.grant];
      if grant.revokedAt.Some? || p.state == ClaimRevoked then Some(ClaimGenerationRevoked)
      else if grant.expiresAt <= now then Some(GrantExpired)
      else if !AllowedTransition(p.state, GrantAcknowledged) then Some(TransitionProblem(p.state))
      else if request.storedGeneration != grant.ref.claimGeneration || request.storedEpoch != grant.ref.trustEpoch then
        Some(GenerationConflict)
      else if !proofValid then Some(Unauthenticated)
      else None
  }

  function ActiveClaim(grant: Grant, owner: Id, operationalKey: string, now: Moment): Claim {
    Claim(grant.ref.domain, owner, grant.hardware, grant.ref.domainGeneration, grant.ref.claimGeneration,
          grant.ref.trustEpoch, grant.manifest, grant.decision, operationalKey, Active, 1, Some(now), now, None)
  }

  function AckTx(a: Authority, s: State, commandId: Id, request: Request, proofValid: bool, eventId: Id, now: Moment)
    : (State, Reply)
    requires request.AckRequest?
  {
    var key := CommandKey(a.domain, AckKind, commandId);
    var answer := Answer(Replay(s.results, key, request));
    var problem := AckProblem(s, request, proofValid, now);
    if answer.Some? then (s, answer.value)
    else if problem.Some? then (s, Refused(problem.value))
    else if !Ackable(s, request, eventId) then (s, Refused(Integrity))
    else (AckNow(s, key, request, eventId, now), Committed(Acknowledged(s.grants[request.grant].ref, now)))
  }

  predicate Ackable(s: State, request: Request, eventId: Id)
    requires request.AckRequest?
  {
    && request.enrollment in s.proposals && request.grant in s.grants
    && request.grant !in s.acks && s.grants[request.grant].decision in s.decisions && eventId !in s.outbox
  }

  /** The acknowledgement, the active Claim and its directory row. */
  function Activate(s: State, request: Request, eventId: Id, now: Moment): (t: State)
    requires request.AckRequest? && Ackable(s, request, eventId)
    ensures t.proposals == s.proposals && s.grants[request.grant].ref.device in t.claims
  {
    var grant := s.grants[request.grant];
    var p := s.proposals[request.enrollment];
    var owner := s.decisions[grant.decision].owner;
    var claim := ActiveClaim(grant, owner, p.operationalKey, now);
    var acked := s.(acks := s.acks[request.grant := Ack(request.enrollment, grant.ref, now)]);
    var claimed := UpsertClaim(acked, grant.ref.device, claim);
    ProjectActive(claimed, grant.ref, owner, p.manifest, now)
  }

  function AckNow(s: State, key: CommandKey, request: Request, eventId: Id, now: Moment): State
    requires request.AckRequest? && Ackable(s, request, eventId)
  {
    var grant := s.grants[request.grant];
    var owner := s.decisions[grant.decision].owner;
    var claimed := Activate(s, request, eventId, now);
    var moved := Move(claimed, request.enrollment, GrantAcknowledged, now);
    Publish(Save(moved, key, request, Acknowledged(grant.ref, now)),
            ClaimEvent(eventId, grant.ref, claimed.claims[grant.ref.device].revision, now,
                       Activation(owner, grant.manifest, grant.decision)))
  }

  // Revocation

  function RevokedClaim(grant: Grant, owner: Id, operationalKey: string, now: Moment): Claim {
    Claim(grant.ref.domain, owner, grant.hardware, grant.ref.domainGeneration, grant.ref.claimGeneration,
          grant.ref.trustEpoch, grant.manifest, grant.decision, operationalKey, Revoked, 1, None, now, Some(now))
  }

  /** Everything `revoke_claim` refuses once the command is known to be new. */
  ghost function RevokeProblem(s: State, ref: DeviceRef, context: Context): Option<Problem> {
    var g := GrantForRef(s.grants, ref);
    if ref.device in s.claims then
      if s.claims[ref.device].owner != context.owner then Some(NotFound)
      else if ClaimRef(ref.device, s.claims[ref.device]) != ref then Some(GenerationConflict)
      else None
    else if g.None? then Some(NotFound)
    else
      var grant := s.grants[g.value];
      if grant.decision !in s.decisions || grant.enrollment !in s.proposals then Some(Integrity)
      else if s.decisions[grant.decision].owner != context.owner then Some(NotFound)
      else if !AllowedTransition(s.proposals[grant.enrollment].state, ClaimRevoked) then
        Some(TransitionProblem(s.proposals[grant.enrollment].state))
      else None
  }

  /** Revoke the Grant of a decision, when there is one. */
  ghost function RevokeGrantOf(grants: map<Id, Grant>, decision: Id, now: Moment): map<Id, Grant> {
    match GrantForDecision(grants, decision)
    case None => grants
    case Some(g) => grants[g := grants[g].(revokedAt := Some(now))]
  }

  ghost predicate Revocable(s: State, ref: DeviceRef) {
    || ref.device in s.claims
    || (GrantForRef(s.grants, ref).Some?
        && s.grants[GrantForRef(s.grants, ref).value].decision in s.decisions
        && s.grants[GrantForRef(s.grants, ref).value].enrollment in s.proposals)
  }

  /** The tables once the Claim is gone, before the directory row and the event follow. */
  ghost function Undo(s: State, ref: DeviceRef, now: Moment): State
    requires Revocable(s, ref)
  {
    if ref.device in s.claims then
      var claim := s.claims[ref.device];
      s.(claims := s.claims[ref.device := claim.(state := Revoked, revision := claim.revision + 1,
                                                 updatedAt := now, revokedAt := Some(now))],
         grants := RevokeGrantOf(s.grants, claim.decision, now))
    else
      var g := GrantForRef(s.grants, ref).value;
      var grant := s.grants[g];
      var moved := Move(s, grant.enrollment, ClaimRevoked, now)
        .(grants := s.grants[g := grant.(revokedAt := Some(now))]);
      UpsertClaim(moved, ref.device, RevokedClaim(grant, s.decisions[grant.decision].owner,
                                                  s.proposals[grant.enrollment].operationalKey, now))
  }

  ghost function RevokeTx(s: State, commandId: Id, ref: DeviceRef, reason: string, context: Context, eventId: Id,
                          now: Moment)
    : (State, Reply)
  {
    var key := CommandKey(context.actor.domain, RevokeKind, commandId);
    var request := RevokeRequest(ref, reason);
    var answer := Answer(Replay(s.results, key, request));
    var problem := RevokeProblem(s, ref, context);
    if !context.HasScope(REVOKE) then (s, Refused(Forbidden))
    else if ref.domain != context.actor.domain then (s, Refused(OwnerDomainMismatch))
    else if answer.Some? then (s, answer.value)
    else if problem.Some? then (s, Refused(problem.value))
    else if ref.device in s.claims && s.claims[ref.device].state == Revoked then
      var result := RevokedBefore(s.claims[ref.device], ref);
      (Save(s, key, request, result), Committed(result))
    else if eventId in s.outbox then (s, Refused(Integrity))
    else
      assert Revocable(s, ref);
      var revision := Undo(s, ref, now).claims[ref.device].revision;
      (RevokeNow(s, key, ref, reason, eventId, now), Committed(RevokedResult(ref, revision, Some(eventId), now)))
  }

  function RevokedBefore(claim: Claim, ref: DeviceRef): CommandResult {
    RevokedResult(ref, claim.revision, None, if claim.revokedAt.Some? then claim.revokedAt.value else claim.updatedAt)
  }

  ghost function RevokeNow(s: State, key: CommandKey, ref: DeviceRef, reason: string, eventId: Id, now: Moment): State
    requires Revocable(s, ref)
  {
    var undone := Undo(s, ref, now);
    var revision := undone.claims[ref.device].revision;
    Publish(Save(ProjectRevoked(undone, ref, now), key, RevokeRequest(ref, reason),
                 RevokedResult(ref, revision, Some(eventId), now)),
            ClaimEvent(eventId, ref, revision, now, Revocation(reason)))
  }

  // The directory row's second writer: a compare-and-set from its own lock domain.

  function Changed(row: DeviceRow, change: DeviceChange): DeviceRow {
    match change
    case AcceptManifest(manifest, now) =>
      row.(manifest := manifest, updatedAt := now, aggregateRevision := row.aggregateRevision + 1)
    case SetPolicy(policy, now) =>
      row.(policy := Some(policy), updatedAt := now, aggregateRevision := row.aggregateRevision + 1)
  }

  predicate Lands(s: State, device: DeviceId, expected: DeviceRow, eventId: Id, event: ManagementEvent) {
    && event.subject == device
    && device in s.devices && s.devices[device] == expected
    && (eventId in s.management ==> s.management[eventId] == event)
  }

  function CommitTx(s: State, device: DeviceId, expected: DeviceRow, change: DeviceChange, eventId: Id,
                    event: ManagementEvent): State
  {
    if !Lands(s, device, expected, eventId, event) then s
    else s.(devices := s.devices[device := Changed(expected, change)],
            management := s.management[eventId := event])
  }

  // Runs

  ghost predicate WellFormed(step: Step) {
    && (step.Decide? ==> step.request.DecideRequest? && step.request.actor == step.context.actor)
    && (step.AckGrant? ==> step.request.AckRequest?)
  }

  ghost function Apply(a: Authority, s: State, step: Step): State {
    if !WellFormed(step) then s
    else match step
      case Create(commandId, payload, verified, enrollment, challenge, ids, now) =>
        CreateTx(a, s, commandId, payload, verified, enrollment, challenge, ids, now).0
      case RecordStanding(jti, keyId, context, now) => RecordStandingTx(s, jti, keyId, context, now).0
      case Withdraw(principal, context, now) => WithdrawTx(s, principal, context, now).0
      case ExpireDue(now) => ExpireTx(s, now)
      case Cancel(commandId, enrollment, reason, context, now) =>
        CancelTx(s, commandId, enrollment, reason, context, now).0
      case Decide(commandId, request, context, ids, now) => DecideTx(a, s, commandId, request, context, ids, now).0
      case Collect(commandId, enrollment, revision, challenge, proof, proofValid, sealed, now) =>
        CollectTx(a, s, commandId, enrollment, revision, challenge, proof, proofValid, sealed, now).0
      case AckGrant(commandId, request, proofValid, eventId, now) =>
        AckTx(a, s, commandId, request, proofValid, eventId, now).0
      case Revoke(commandId, ref, reason, context, eventId, now) =>
        RevokeTx(s, commandId, ref, reason, context, eventId, now).0
      case CommitDevice(device, expected, change, eventId, event) =>
        CommitTx(s, device, expected, change, eventId, event)
  }

  ghost function Run(a: Authority, s: State, steps: seq<Step>): State
    decreases |steps|
  {
    if steps == [] then s else Apply(a, Run(a, s, steps[..|steps| - 1]), steps[|steps| - 1])
  }
}
