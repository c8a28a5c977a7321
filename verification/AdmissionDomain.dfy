/** Admission states, Controller context, commands and the rows of the Admission tables. */
module AdmissionDomain {
  import opened Prelude

  datatype ProposalState =
    | PendingReview
    | ApprovedAwaitingHandoff
    | GrantDelivered
    | GrantAcknowledged
    | Rejected
    | Expired
    | Canceled
    | ClaimRevoked

  predicate Terminal(state: ProposalState) {
    state.GrantAcknowledged? || state.Rejected? || state.Expired? || state.Canceled? || state.ClaimRevoked?
  }

  predicate AllowedTransition(current: ProposalState, target: ProposalState) {
    match current
    case PendingReview => target.ApprovedAwaitingHandoff? || target.Rejected? || target.Expired? || target.Canceled?
    case ApprovedAwaitingHandoff => target.GrantDelivered? || target.Expired? || target.ClaimRevoked?
    case GrantDelivered => target.GrantAcknowledged? || target.Expired? || target.ClaimRevoked?
    case _ => false
  }

  /** What `require_transition` raises when the move is not allowed. */
  function TransitionProblem(current: ProposalState): Problem {
    if Terminal(current) then ProposalTerminal else RevisionConflict
  }

  datatype Problem =
    | Forbidden
    | OwnerDomainMismatch
    | BusinessOwnerMismatch
    | InvalidArgument
    | Unauthenticated
    | IdempotencyConflict
    | NotFound
    | ProposalExpired
    | ProposalTerminal
    | RevisionConflict
    | ClaimGenerationRevoked
    | ContractUnsupported
    | DecisionRequired
    | HandoffProofInvalid
    | GrantExpired
    | GenerationConflict
    | Integrity // a primary key or unique column refused the write

  /** A Controller as an ActorRef names it. A context's Owner Domain is always its actor's. */
  datatype Actor = Actor(principal: Id, domain: Id, scopes: set<string>)

  datatype Context = Context(actor: Actor, owner: Id) {
    predicate HasScope(scope: string) {
      scope in actor.scopes
    }
  }

  const APPROVE := "device.claim.approve"
  const REVOKE := "device.claim.revoke"

  datatype DeviceRef = DeviceRef(
    device: DeviceId,
    domain: Id,
    domainGeneration: nat,
    claimGeneration: nat,
    trustEpoch: nat)

  datatype ManifestRef = ManifestRef(id: Id, revision: nat, digest: Digest)

  // Digests stand for the hash functions of the contract: all that matters of them here is
  // that different inputs have different digests.

  datatype Digest = Sha256(bytes: string)

  datatype KeyId = KeyId(publicKey: string)

  const SPKI_SCHEME := "p256-spki:"

  function BareKey(key: string): string {
    if SPKI_SCHEME <= key then key[|SPKI_SCHEME|..] else key
  }

  /** Admission and Device Control spell one key in two ways. */
  predicate SameKey(recorded: string, presented: string) {
    BareKey(recorded) == BareKey(presented)
  }

  datatype DeviceId = DeviceInstanceId(publicKey: string)

  /** The permanent identity of a base id: case and surrounding blanks do not fork it. */
  function HardwareRef(base: Id): Option<Id> {
    var canonical := Fold(Strip(base));
    if canonical == "" || |canonical| > 128 then None else Some("hardware-" + canonical)
  }

  function Strip(s: string): string {
    if s == "" then s
    else if s[0] == ' ' then Strip(s[1..])
    else if s[|s| - 1] == ' ' then Strip(s[..|s| - 1])
    else s
  }

  function Fold(s: string): string {
    if s == "" then s
    else [if 'A' <= s[0] <= 'Z' then (s[0] as int - 'A' as int + 'a' as int) as char else s[0]] + Fold(s[1..])
  }

  // Rows, one datatype per table; the primary key is the key of the map that holds them.

  datatype Proposal = Proposal(
    device: DeviceId,
    hardware: Id,
    domain: Id,
    state: ProposalState,
    revision: nat,
    manifest: ManifestRef,
    handoffKey: string,
    operationalKey: string,
    challengeHash: Digest,
    createdAt: Moment,
    expiresAt: Moment,
    updatedAt: Moment)

  datatype Decision = Decision(
    enrollment: Id,
    approve: bool,
    actor: Actor,
    domain: Id,
    owner: Id,
    reviewed: ManifestRef,
    expectedRevision: nat,
    decidedAt: Moment)

  datatype Grant = Grant(
    enrollment: Id,
    decision: Id,
    domain: Id,
    hardware: Id,
    claimGeneration: nat,
    ref: DeviceRef,
    manifest: ManifestRef,
    operationalKeyId: KeyId,
    envelope: Option<string>,
    issuedAt: Moment,
    expiresAt: Moment,
    deliveredAt: Option<Moment>,
    revokedAt: Option<Moment>)

  datatype Ack = Ack(enrollment: Id, ref: DeviceRef, acknowledgedAt: Moment)

  datatype ClaimState = Active | Revoked

  datatype Claim = Claim(
    domain: Id,
    owner: Id,
    hardware: Id,
    domainGeneration: nat,
    claimGeneration: nat,
    trustEpoch: nat,
    manifest: ManifestRef,
    decision: Id,
    operationalKey: string,
    state: ClaimState,
    revision: nat,
    activatedAt: Option<Moment>,
    updatedAt: Moment,
    revokedAt: Option<Moment>)

  function ClaimRef(device: DeviceId, claim: Claim): DeviceRef {
    DeviceRef(device, claim.domain, claim.domainGeneration, claim.claimGeneration, claim.trustEpoch)
  }

  datatype ClaimEventBody =
    | Activation(owner: Id, manifest: ManifestRef, decision: Id)
    | Revocation(reason: string)

  /** One claim-activated or claim-revoked event; `revision` is its aggregate revision. */
  datatype ClaimEvent = ClaimEvent(id: Id, ref: DeviceRef, revision: nat, time: Moment, body: ClaimEventBody)

  datatype Binding = Binding(domain: Id, hardware: Id, keyId: KeyId, boundAt: Moment)

  datatype Voucher = Voucher(base: Id, keyId: KeyId, expiresAt: Moment, consumedAt: Moment)

  datatype Standing = Standing(keyId: KeyId, domain: Id, owner: Id, actor: Actor, recordedAt: Moment)

  datatype Withdrawal = Withdrawal(withdrawnAt: Moment, actor: Actor)

  datatype OutputPolicy = OutputPolicy(revision: nat, allowed: set<string>, inputs: Option<set<string>>)

  /** The directory row of a device: what the Claim projects, plus Manifest and output policy. */
  datatype DeviceRow = DeviceRow(
    manifest: ManifestRef,
    policy: Option<OutputPolicy>,
    enrolledAt: Moment,
    updatedAt: Moment,
    domainGeneration: nat,
    claimGeneration: nat,
    trustEpoch: nat,
    aggregateRevision: nat,
    owner: Id,
    approved: bool)

  datatype ManagementEvent = ManagementEvent(
    eventType: string,
    principal: Option<Id>, // nothing: the device itself
    subject: DeviceId,
    owner: Id,
    occurredAt: Moment,
    data: ManagementData)

  datatype ManagementData =
    | ManifestAccepted(manifest: ManifestRef, superseded: Digest)
    | PolicyChanged(owner: Id, policy: OutputPolicy)

  // Commands and what is kept of them for a retry.

  /** What the commissioning verifier established about a proof. */
  datatype Verified =
    | ByVoucher(base: Id, jti: Id, expiresAt: Moment)
    | ByContinuation(base: Id)

  datatype Scheme = VoucherScheme | EnrolledBaseKeyScheme

  function SchemeOf(verified: Verified): Scheme {
    if verified.ByVoucher? then VoucherScheme else EnrolledBaseKeyScheme
  }

  datatype EnrollmentPayload = EnrollmentPayload(
    domain: Id,
    device: DeviceId,
    evidence: string,
    evidenceDigest: Digest,
    handoffKey: string,
    operationalKey: string,
    manifest: ManifestRef,
    manifestDocument: string,
    nonce: string,
    proof: string,
    scheme: Scheme)

  /** The canonical payload a command is fingerprinted by. */
  datatype Request =
    | CreateRequest(payload: EnrollmentPayload)
    | CancelRequest(enrollment: Id, reason: string, actor: Actor)
    | DecideRequest(enrollment: Id, approve: bool, targetDomain: Id, targetOwner: Id,
                    expectedRevision: nat, reviewed: ManifestRef, actor: Actor)
    | CollectRequest(enrollment: Id, revision: nat, challengeHash: Digest, proof: string)
    | AckRequest(enrollment: Id, grant: Id, proof: string, storedGeneration: nat, storedEpoch: nat)
    | RevokeRequest(ref: DeviceRef, reason: string)

  datatype CommandKind = CreateKind | CancelKind | DecideKind | CollectKind | AckKind | RevokeKind

  datatype CommandKey = CommandKey(domain: Id, kind: CommandKind, commandId: Id)

  datatype CommandResult =
    | Created(enrollment: Id, challenge: string, expiresAt: Moment, manifest: ManifestRef, occurredAt: Moment)
    | CanceledResult(enrollment: Id, revision: nat, occurredAt: Moment)
    | Decided(decision: Id, decided: Decision, granted: Option<Id>, revision: nat, occurredAt: Moment)
    | Collected(enrollment: Id, grant: Id, envelope: string, expiresAt: Moment, decision: Id, revision: nat,
                occurredAt: Moment)
    | Acknowledged(ref: DeviceRef, occurredAt: Moment)
    | RevokedResult(ref: DeviceRef, revision: nat, eventId: Option<Id>, occurredAt: Moment)

  datatype SavedResult = SavedResult(request: Request, result: CommandResult)

  datatype Reply =
    | Refused(problem: Problem)
    | Committed(result: CommandResult)
    | Replayed(result: CommandResult)
}
