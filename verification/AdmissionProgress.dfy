/** Admission goes through: what a commissioned device needs to be admitted from any state, and concrete
    runs that show what later Grants and removals can do. */
module AdmissionProgress {
  import opened Prelude
  import opened AdmissionDomain
  import opened AdmissionTables
  import opened AdmissionCommands
  import opened AdmissionInvariant
  import opened AdmissionPreservation
  import opened AdmissionHistory
  import opened AdmissionTheorems

  datatype CommandIds = CommandIds(create: Id, decide: Id, collect: Id, ack: Id)

  datatype Times = Times(created: Moment, approved: Moment, collected: Moment, acked: Moment)

  /** One device on its way in: its payload, voucher and proofs, what the Grant is sealed to, the Controller
      that approves it when no standing does, and the ids and moments of the steps. */
  datatype Newcomer = Newcomer(
    payload: EnrollmentPayload,
    base: Id,
    jti: Id,
    voucherExpiresAt: Moment,
    enrollment: Id,
    challenge: string,
    decision: Id,
    grant: Id,
    eventId: Id,
    commands: CommandIds,
    times: Times,
    collectProof: string,
    ackProof: string,
    sealed: string,
    context: Context)

  function VoucherOf(n: Newcomer): Verified {
    ByVoucher(n.base, n.jti, n.voucherExpiresAt)
  }

  function KeyIdOf(n: Newcomer): KeyId {
    KeyId(n.payload.operationalKey)
  }

  function IdsOf(n: Newcomer): DecisionIds {
    DecisionIds(n.decision, n.grant)
  }

  function CreateStep(n: Newcomer): Step {
    Create(n.commands.create, n.payload, Some(VoucherOf(n)), n.enrollment, n.challenge, IdsOf(n), n.times.created)
  }

  function ApprovalOf(n: Newcomer): Request {
    DecideRequest(n.enrollment, true, n.context.actor.domain, n.context.owner, 1, n.payload.manifest, n.context.actor)
  }

  function ApproveStep(n: Newcomer): Step {
    Decide(n.commands.decide, ApprovalOf(n), n.context, IdsOf(n), n.times.approved)
  }

  function CollectStep(n: Newcomer): Step {
    Collect(n.commands.collect, n.enrollment, 1, n.challenge, n.collectProof, true, n.sealed, n.times.collected)
  }

  function AckOf(n: Newcomer, ref: DeviceRef): Request {
    AckRequest(n.enrollment, n.grant, n.ackProof, ref.claimGeneration, ref.trustEpoch)
  }

  function AckStep(n: Newcomer, ref: DeviceRef): Step {
    AckGrant(n.commands.ack, AckOf(n, ref), true, n.eventId, n.times.acked)
  }

  function RefOf(a: Authority, n: Newcomer, generation: nat): DeviceRef {
    DeviceRef(n.payload.device, a.domain, a.domainGeneration, generation, 1)
  }

  function CreateKey(domain: Id, n: Newcomer): CommandKey {
    CommandKey(domain, CreateKind, n.commands.create)
  }

  function DecideKey(domain: Id, n: Newcomer): CommandKey {
    CommandKey(domain, DecideKind, n.commands.decide)
  }

  function CollectKey(domain: Id, n: Newcomer): CommandKey {
    CommandKey(domain, CollectKind, n.commands.collect)
  }

  function AckKey(domain: Id, n: Newcomer): CommandKey {
    CommandKey(domain, AckKind, n.commands.ack)
  }

  predicate Unused(results: map<CommandKey, SavedResult>, domain: Id, n: Newcomer) {
    && CreateKey(domain, n) !in results && DecideKey(domain, n) !in results
    && CollectKey(domain, n) !in results && AckKey(domain, n) !in results
  }

  /** Who approves, and when. */
  datatype Approver = Approver(actor: Actor, owner: Id, at: Moment)

  ghost function Speaking(a: Authority, s: State, n: Newcomer): Option<Id> {
    StandingFor(a, s, VoucherOf(n), KeyIdOf(n))
  }

  function ByHand(n: Newcomer): Approver {
    Approver(n.context.actor, n.context.owner, n.times.approved)
  }

  /** The Controller of the standing the voucher arrives with, at creation; without one, the newcomer's own. */
  ghost function ApproverOf(a: Authority, s: State, n: Newcomer): Approver {
    match Speaking(a, s, n)
    case None => ByHand(n)
    case Some(jti) => Approver(s.standings[jti].actor, s.standings[jti].owner, n.times.created)
  }

  /** A Proposal well made, an unspent voucher, ids nobody used, no deadline passed, and, when no standing
      decides, a Controller that may approve. */
  ghost predicate Welcome(a: Authority, s: State, n: Newcomer) {
    && n.payload.domain == a.domain
    && PayloadProblem(n.payload, Some(VoucherOf(n))).None?
    && Unused(s.results, a.domain, n)
    && n.jti !in s.vouchers && n.enrollment !in s.proposals && n.decision !in s.decisions && n.grant !in s.grants
    && BaseFits(s.bindings, n.base, KeyIdOf(n))
    && (Speaking(a, s, n).None? ==> MayApprove(a, n))
    && InTime(a, n, ApproverOf(a, s, n))
  }

  predicate MayApprove(a: Authority, n: Newcomer) {
    && n.context.actor.domain == a.domain && n.context.HasScope(APPROVE)
    && n.times.approved < n.times.created + a.proposalTtl
  }

  predicate InTime(a: Authority, n: Newcomer, who: Approver) {
    n.times.collected < n.times.created + a.proposalTtl && n.times.collected < who.at + a.grantTtl
  }

  /** The base id is this key's, or both are new. */
  predicate BaseFits(bindings: map<Id, Binding>, base: Id, keyId: KeyId) {
    if base in bindings then bindings[base].keyId == keyId
    else forall b :: b in bindings ==> bindings[b].keyId != keyId
  }

  // Creation

  function AfterAsk(a: Authority, s: State, n: Newcomer, hardware: Id): State {
    s.(vouchers := s.vouchers[n.jti := Voucher(n.base, KeyIdOf(n), n.voucherExpiresAt, n.times.created)],
       bindings := if n.base in s.bindings then s.bindings
                   else s.bindings[n.base := Binding(a.domain, hardware, KeyIdOf(n), n.times.created)])
  }

  function Proposing(a: Authority, n: Newcomer, hardware: Id): Proposal {
    NewProposal(a, n.payload, hardware, n.challenge, n.times.created)
  }

  function AfterCreate(a: Authority, s: State, n: Newcomer, hardware: Id): State {
    Save(AfterAsk(a, s, n, hardware).(proposals := s.proposals[n.enrollment := Proposing(a, n, hardware)]),
         CreateKey(a.domain, n), CreateRequest(n.payload),
         CreatedResult(a, n.payload, n.enrollment, n.challenge, n.times.created))
  }

  lemma VoucherAsks(a: Authority, s: State, n: Newcomer, hardware: Id)
    requires n.jti !in s.vouchers && BaseFits(s.bindings, n.base, KeyIdOf(n))
    ensures Ask(a, s, VoucherOf(n), hardware, KeyIdOf(n), n.times.created) == Ok(AfterAsk(a, s, n, hardware))
  {
    if n.base in s.bindings {
    } else {
      assert BindingForKey(s.bindings, KeyIdOf(n)).None?;
    }
  }

  lemma PayloadNames(n: Newcomer)
    requires PayloadProblem(n.payload, Some(VoucherOf(n))).None?
    ensures HardwareRef(n.base).Some?
  {
  }

  lemma ProposalGoesThrough(a: Authority, s: State, n: Newcomer, hardware: Id)
    requires n.jti !in s.vouchers && n.enrollment !in s.proposals && BaseFits(s.bindings, n.base, KeyIdOf(n))
    ensures Propose(a, s, CreateKey(a.domain, n), n.payload, VoucherOf(n), hardware, n.enrollment, n.challenge,
                    n.times.created)
         == Ok(AfterCreate(a, s, n, hardware))
  {
    VoucherAsks(a, s, n, hardware);
    hide Ask, NewProposal, CreatedResult;
  }

  // Approval, by a standing or by hand

  ghost function Granting(a: Authority, s: State, n: Newcomer, who: Approver): Grant
    requires n.enrollment in s.proposals
  {
    var p := s.proposals[n.enrollment];
    NewGrant(a, p, n.enrollment, n.decision, MaxGeneration(s.grants, a.domain, p.hardware) + 1, n.payload.manifest,
             who.at)
  }

  function Deciding(a: Authority, n: Newcomer, who: Approver): Decision {
    Decision(n.enrollment, true, who.actor, a.domain, who.owner, n.payload.manifest, 1, who.at)
  }

  /** The tables once approved: one Decision, one Grant of the next generation. */
  ghost function AfterDecision(a: Authority, s: State, n: Newcomer, who: Approver): State
    requires n.enrollment in s.proposals
  {
    s.(proposals := s.proposals[n.enrollment := Reached(s.proposals[n.enrollment], ApprovedAwaitingHandoff, who.at)],
       decisions := s.decisions[n.decision := Deciding(a, n, who)],
       grants := s.grants[n.grant := Granting(a, s, n, who)])
  }

  ghost function AfterApprove(a: Authority, s: State, n: Newcomer): State
    requires n.enrollment in s.proposals
  {
    Save(AfterDecision(a, s, n, ByHand(n)), DecideKey(a.domain, n), ApprovalOf(n),
         Decided(n.decision, Deciding(a, n, ByHand(n)), Some(n.grant), 1, n.times.approved))
  }

  lemma DecisionGoesThrough(a: Authority, s: State, n: Newcomer, who: Approver)
    requires n.enrollment in s.proposals && s.proposals[n.enrollment].revision == 1
    requires n.decision !in s.decisions && n.grant !in s.grants
    ensures DecideInSession(a, s, n.enrollment, true, who.actor, who.owner, n.payload.manifest, IdsOf(n), who.at)
         == Ok(AfterDecision(a, s, n, who))
  {
    hide MaxGeneration, NewGrant;
  }

  lemma StandingDecides(a: Authority, s: State, c: State, n: Newcomer)
    requires c.standings == s.standings && c.withdrawals == s.withdrawals
    requires n.enrollment in c.proposals && c.proposals[n.enrollment].revision == 1
    requires n.decision !in c.decisions && n.grant !in c.grants
    ensures DecidedFromStanding(a, c, n.payload, VoucherOf(n), n.enrollment, IdsOf(n), n.times.created)
         == Ok(if Speaking(a, s, n).None? then c else AfterDecision(a, c, n, ApproverOf(a, s, n)))
  {
    StandingDependsOn(a, s, c, VoucherOf(n), KeyIdOf(n));
    hide StandingFor;
    if Speaking(a, s, n).Some? { DecisionGoesThrough(a, c, n, ApproverOf(a, s, n)); }
    hide DecideInSession, AfterDecision;
  }

  lemma CreatedRow(a: Authority, s: State, n: Newcomer, hardware: Id)
    ensures var c := AfterCreate(a, s, n, hardware);
      && c.standings == s.standings && c.withdrawals == s.withdrawals
      && c.decisions == s.decisions && c.grants == s.grants
      && n.enrollment in c.proposals && c.proposals[n.enrollment].revision == 1
  {
  }

  /** A creation goes through, and with a standing that decides, its approval with it. */
  lemma CreationGoesThrough(a: Authority, s: State, n: Newcomer)
    requires Welcome(a, s, n)
    ensures HardwareRef(n.base).Some?
    ensures var c := AfterCreate(a, s, n, HardwareRef(n.base).value);
      && n.enrollment in c.proposals
      && Apply(a, s, CreateStep(n)) == if Speaking(a, s, n).None? then c
                                       else AfterDecision(a, c, n, ApproverOf(a, s, n))
  {
    PayloadNames(n);
    hide PayloadProblem, HardwareRef, MaxGeneration;
    var hardware := HardwareRef(n.base).value;
    var c := AfterCreate(a, s, n, hardware);
    ProposalGoesThrough(a, s, n, hardware);
    CreatedRow(a, s, n, hardware);
    hide AfterCreate, Propose;
    StandingDecides(a, s, c, n);
    hide DecidedFromStanding, AfterDecision, Speaking, ApproverOf;
  }

  /** Pending, and waiting for somebody to decide. */
  predicate AwaitsApproval(a: Authority, s: State, n: Newcomer) {
    && n.enrollment in s.proposals && s.proposals[n.enrollment].state == PendingReview
    && s.proposals[n.enrollment].domain == a.domain && s.proposals[n.enrollment].revision == 1
    && s.proposals[n.enrollment].manifest == n.payload.manifest
    && s.proposals[n.enrollment].expiresAt > n.times.approved
    && n.context.actor.domain == a.domain && n.context.HasScope(APPROVE)
    && DecideKey(a.domain, n) !in s.results && n.decision !in s.decisions && n.grant !in s.grants
  }

  lemma ApprovalGoesThrough(a: Authority, s: State, n: Newcomer)
    requires AwaitsApproval(a, s, n)
    ensures n.enrollment in s.proposals && Apply(a, s, ApproveStep(n)) == AfterApprove(a, s, n)
  {
    hide DecideTx, AfterApprove, DecideNow;
    DecideGets(a, s, n);
    DecideCommits(a, s, n);
  }

  lemma DecideGets(a: Authority, s: State, n: Newcomer)
    requires AwaitsApproval(a, s, n)
    ensures DecideTx(a, s, n.commands.decide, ApprovalOf(n), n.context, IdsOf(n), n.times.approved)
         == DecideNow(a, s, DecideKey(a.domain, n), ApprovalOf(n), IdsOf(n), n.times.approved)
  {
    assert a.(domain := a.domain) == a;
    hide DecideNow;
  }

  lemma DecideCommits(a: Authority, s: State, n: Newcomer)
    requires AwaitsApproval(a, s, n)
    ensures DecideNow(a, s, DecideKey(a.domain, n), ApprovalOf(n), IdsOf(n), n.times.approved).0
      == AfterApprove(a, s, n)
  {
    DecisionGoesThrough(a, s, n, ByHand(n));
    hide DecideInSession, NewGrant, MaxGeneration;
  }

  // Collection

  /** Approved and waiting to be collected. */
  predicate AwaitsCollection(a: Authority, s: State, n: Newcomer) {
    && n.enrollment in s.proposals && n.grant in s.grants && n.decision in s.decisions
    && Collectable(a, s.proposals[n.enrollment], s.grants[n.grant], n)
    && s.decisions[n.decision].enrollment == n.enrollment && s.decisions[n.decision].expectedRevision == 1
    && CollectKey(a.domain, n) !in s.results
  }

  predicate Collectable(a: Authority, p: Proposal, grant: Grant, n: Newcomer) {
    && p.domain == a.domain && p.state == ApprovedAwaitingHandoff && p.expiresAt > n.times.collected
    && p.challengeHash == Sha256(n.challenge)
    && grant.enrollment == n.enrollment && grant.envelope.None? && grant.revokedAt.None?
    && grant.expiresAt > n.times.collected
  }

  /** The tables after collection: the Grant sealed and delivered. */
  function AfterCollect(a: Authority, s: State, n: Newcomer): State
    requires n.enrollment in s.proposals && n.grant in s.grants
  {
    var delivered := Deliver(s, n.enrollment, n.grant, n.sealed, n.times.collected);
    Save(delivered, CollectKey(a.domain, n), CollectRequest(n.enrollment, 1, Sha256(n.challenge), n.collectProof),
         CollectedResult(n.enrollment, n.grant, delivered.grants[n.grant], 1, n.times.collected))
  }

  lemma LookupsAgree(a: Authority, s: State, n: Newcomer)
    requires Inv(a, s) && AwaitsCollection(a, s, n)
    ensures GrantOf(s.grants, n.enrollment) == Some(n.grant)
    ensures DecisionOf(s.decisions, n.enrollment) == Some(n.decision)
  {
    hide BindingsOk, ProposalsOk, LinksOk, StagesOk, ClaimsOk, StreamOk, DevicesOk, ResultsOk, GrantOk, DecisionOk,
      Granted, SameIssue;
  }

  lemma NothingToRefuse(a: Authority, s: State, n: Newcomer)
    requires AwaitsCollection(a, s, n)
    requires GrantOf(s.grants, n.enrollment) == Some(n.grant)
    requires DecisionOf(s.decisions, n.enrollment) == Some(n.decision)
    ensures CollectProblem(a, s, n.enrollment, 1, n.challenge, true, n.times.collected).None?
  {
  }

  lemma CollectionGoesThrough(a: Authority, s: State, n: Newcomer)
    requires Inv(a, s) && AwaitsCollection(a, s, n)
    ensures n.enrollment in s.proposals && n.grant in s.grants
    ensures Apply(a, s, CollectStep(n)) == AfterCollect(a, s, n)
  {
    hide Inv, AwaitsCollection, AfterCollect, CollectTx, CollectProblem;
    LookupsAgree(a, s, n);
    NothingToRefuse(a, s, n);
    UndeliveredYet(a, s, n);
    CollectCommits(a, s, n);
  }

  lemma UndeliveredYet(a: Authority, s: State, n: Newcomer)
    requires AwaitsCollection(a, s, n)
    ensures n.enrollment in s.proposals && n.grant in s.grants && s.grants[n.grant].envelope.None?
    ensures CollectKey(a.domain, n) !in s.results
  {
  }

  lemma CollectCommits(a: Authority, s: State, n: Newcomer)
    requires n.enrollment in s.proposals && n.grant in s.grants && s.grants[n.grant].envelope.None?
    requires GrantOf(s.grants, n.enrollment) == Some(n.grant) && CollectKey(a.domain, n) !in s.results
    requires CollectProblem(a, s, n.enrollment, 1, n.challenge, true, n.times.collected).None?
    ensures CollectTx(a, s, n.commands.collect, n.enrollment, 1, n.challenge, n.collectProof, true, n.sealed,
                      n.times.collected).0
         == AfterCollect(a, s, n)
  {
    var delivered := Deliver(s, n.enrollment, n.grant, n.sealed, n.times.collected);
    assert delivered.grants[n.grant].envelope == Some(n.sealed);
    hide CollectProblem, Deliver, CollectedResult;
  }

  // Acknowledgement

  /** Delivered and waiting to be acknowledged. */
  predicate AwaitsAck(s: State, n: Newcomer) {
    && n.enrollment in s.proposals && n.grant in s.grants && n.grant !in s.acks
    && s.grants[n.grant].decision in s.decisions && n.eventId !in s.outbox
    && s.proposals[n.enrollment].state == GrantDelivered
    && s.grants[n.grant].enrollment == n.enrollment && s.grants[n.grant].revokedAt.None?
    && s.grants[n.grant].expiresAt > n.times.acked
  }

  lemma AckGoesThrough(a: Authority, s: State, n: Newcomer)
    requires AwaitsAck(s, n) && AckKey(a.domain, n) !in s.results
    ensures var request := AckOf(n, s.grants[n.grant].ref);
      && Ackable(s, request, n.eventId)
      && Apply(a, s, AckStep(n, s.grants[n.grant].ref))
           == AckNow(s, AckKey(a.domain, n), request, n.eventId, n.times.acked)
  {
    hide AckNow;
  }

  /** What an acknowledgement brings, and what it leaves alone. */
  ghost predicate Acknowledged(a: Authority, s: State, s': State, n: Newcomer)
    requires n.grant in s.grants
  {
    var grant := s.grants[n.grant];
    && grant.decision in s.decisions
    && ActivatedClaim(s, s', grant, s.decisions[grant.decision].owner)
    && s'.acks.Keys == s.acks.Keys + {n.grant} && s'.outbox.Keys == s.outbox.Keys + {n.eventId}
    && s'.results.Keys == s.results.Keys + {AckKey(a.domain, n)}
    && s'.proposals.Keys == s.proposals.Keys
    && (forall e :: e in s.proposals && e != n.enrollment ==> s'.proposals[e] == s.proposals[e])
    && s'.decisions == s.decisions && s'.grants == s.grants && s'.vouchers == s.vouchers && s'.bindings == s.bindings
    && s'.standings == s.standings && s'.withdrawals == s.withdrawals
    && s'.stream == s.stream + [AckEvent(s, n)]
  }

  /** The Claim is active at the Grant's generation, counted on, and every other Claim is as it was. */
  ghost predicate ActivatedClaim(s: State, s': State, grant: Grant, owner: Id) {
    var d := grant.ref.device;
    && d in s'.claims && s'.claims == s.claims[d := s'.claims[d]]
    && s'.claims[d].state == Active && ClaimRef(d, s'.claims[d]) == grant.ref && s'.claims[d].owner == owner
    && s'.claims[d].decision == grant.decision && s'.claims[d].manifest == grant.manifest
    && s'.claims[d].revision == CurrentRevision(s.claims, d) + 1
  }

  ghost function AckEvent(s: State, n: Newcomer): ClaimEvent
    requires n.grant in s.grants && s.grants[n.grant].decision in s.decisions
  {
    var grant := s.grants[n.grant];
    ClaimEvent(n.eventId, grant.ref, CurrentRevision(s.claims, grant.ref.device) + 1, n.times.acked,
               Activation(s.decisions[grant.decision].owner, grant.manifest, grant.decision))
  }

  /** A delivered Grant is acknowledged into an active Claim at its own generation, whatever Claim the device has. */
  lemma AckActivates(a: Authority, s: State, n: Newcomer)
    requires AwaitsAck(s, n) && AckKey(a.domain, n) !in s.results
    ensures Acknowledged(a, s, Apply(a, s, AckStep(n, s.grants[n.grant].ref)), n)
  {
    AckGoesThrough(a, s, n);
    hide Apply, AckNow, Acknowledged, Acks;
    var request := AckOf(n, s.grants[n.grant].ref);
    var event, saved := AckShape(s, AckKey(a.domain, n), request, n.eventId, n.times.acked);
    AcksAcknowledge(a, s, Apply(a, s, AckStep(n, s.grants[n.grant].ref)), n, event, saved);
  }

  lemma AcksAcknowledge(a: Authority, s: State, s': State, n: Newcomer, event: ClaimEvent, saved: SavedResult)
    requires n.grant in s.grants && n.enrollment in s.proposals && Acks(s, s', n.enrollment, n.grant, event)
    requires event.id == n.eventId && event.time == n.times.acked
    requires s'.results == s.results[AckKey(a.domain, n) := saved]
    ensures Acknowledged(a, s, s', n)
  {
    hide ActiveRow;
  }

  // From the door to the Grant

  function HandOverByHand(n: Newcomer): seq<Step> {
    [CreateStep(n), ApproveStep(n), CollectStep(n)]
  }

  function HandOverByStanding(n: Newcomer): seq<Step> {
    [CreateStep(n), CollectStep(n)]
  }

  /** With a standing that decides, nobody has to approve. */
  ghost function HandOver(a: Authority, s: State, n: Newcomer): seq<Step> {
    if Speaking(a, s, n).None? then HandOverByHand(n) else HandOverByStanding(n)
  }

  /** Everything but Proposals, Decisions, Grants, bindings, vouchers and results is as it was. */
  predicate Elsewhere(s: State, s': State) {
    && s'.acks == s.acks && s'.claims == s.claims && s'.outbox == s.outbox && s'.stream == s.stream
    && s'.devices == s.devices && s'.standings == s.standings && s'.withdrawals == s.withdrawals
    && s'.management == s.management
  }

  /** What a device handed its Grant has brought into the tables, and that nothing else moved. */
  ghost predicate HandedOver(a: Authority, s: State, s': State, n: Newcomer, who: Approver, generation: nat) {
    && n.enrollment in s'.proposals && s'.proposals == s.proposals[n.enrollment := s'.proposals[n.enrollment]]
    && s'.decisions == s.decisions[n.decision := Deciding(a, n, who)]
    && n.grant in s'.grants && s'.grants == s.grants[n.grant := s'.grants[n.grant]]
    && Holds(a, s'.proposals[n.enrollment], s'.grants[n.grant], n, who, generation)
    && Brought(a, s, s', n) && Elsewhere(s, s')
  }

  /** The voucher spent, the base id bound, the commands on record. */
  predicate Brought(a: Authority, s: State, s': State, n: Newcomer) {
    && s'.vouchers.Keys == s.vouchers.Keys + {n.jti}
    && n.base in s'.bindings && s'.bindings[n.base].keyId == KeyIdOf(n)
    && s.results.Keys + {CreateKey(a.domain, n), CollectKey(a.domain, n)} <= s'.results.Keys
    && s'.results.Keys <= s.results.Keys + {CreateKey(a.domain, n), DecideKey(a.domain, n), CollectKey(a.domain, n)}
  }

  predicate Holds(a: Authority, p: Proposal, grant: Grant, n: Newcomer, who: Approver, generation: nat) {
    && p.state == GrantDelivered && Some(p.hardware) == HardwareRef(n.base)
    && grant.enrollment == n.enrollment && grant.decision == n.decision && grant.domain == a.domain
    && grant.hardware == p.hardware && grant.claimGeneration == generation && grant.ref == RefOf(a, n, generation)
    && grant.envelope == Some(n.sealed) && grant.revokedAt.None? && grant.expiresAt == who.at + a.grantTtl
  }

  predicate CreatedFrom(a: Authority, s: State, c: State, n: Newcomer) {
    && HardwareRef(n.base).Some?
    && c.proposals == s.proposals[n.enrollment := Proposing(a, n, HardwareRef(n.base).value)]
    && c.decisions == s.decisions && c.grants == s.grants && Elsewhere(s, c)
    && c.vouchers.Keys == s.vouchers.Keys + {n.jti}
    && n.base in c.bindings && c.bindings[n.base].keyId == KeyIdOf(n)
    && c.results.Keys == s.results.Keys + {CreateKey(a.domain, n)}
  }

  ghost predicate ApprovedFrom(a: Authority, c: State, d: State, n: Newcomer, who: Approver) {
    && n.enrollment in c.proposals
    && d.proposals == c.proposals[n.enrollment := Reached(c.proposals[n.enrollment], ApprovedAwaitingHandoff, who.at)]
    && d.decisions == c.decisions[n.decision := Deciding(a, n, who)]
    && d.grants == c.grants[n.grant := Granting(a, c, n, who)]
    && Elsewhere(c, d) && d.vouchers == c.vouchers && d.bindings == c.bindings
    && c.results.Keys <= d.results.Keys <= c.results.Keys + {DecideKey(a.domain, n)}
  }

  predicate CollectedFrom(a: Authority, d: State, e: State, n: Newcomer) {
    && n.enrollment in d.proposals && n.grant in d.grants
    && e.proposals == d.proposals[n.enrollment := Reached(d.proposals[n.enrollment], GrantDelivered, n.times.collected)]
    && e.grants == d.grants[n.grant := Sealed(d.grants[n.grant], n)]
    && e.decisions == d.decisions && Elsewhere(d, e) && e.vouchers == d.vouchers && e.bindings == d.bindings
    && e.results.Keys == d.results.Keys + {CollectKey(a.domain, n)}
  }

  function Sealed(grant: Grant, n: Newcomer): Grant {
    grant.(envelope := Some(n.sealed), deliveredAt := Some(n.times.collected))
  }

  lemma CreatedFacts(a: Authority, s: State, n: Newcomer)
    requires Welcome(a, s, n) && HardwareRef(n.base).Some?
    ensures CreatedFrom(a, s, AfterCreate(a, s, n, HardwareRef(n.base).value), n)
  {
    hide HardwareRef, NewProposal, PayloadProblem, CreatedResult, Speaking, ApproverOf, InTime;
  }

  lemma DecidedFacts(a: Authority, c: State, n: Newcomer, who: Approver)
    requires n.enrollment in c.proposals
    ensures ApprovedFrom(a, c, AfterDecision(a, c, n, who), n, who)
  {
    hide Granting, Deciding;
  }

  lemma ApprovedFacts(a: Authority, c: State, n: Newcomer)
    requires n.enrollment in c.proposals
    ensures ApprovedFrom(a, c, AfterApprove(a, c, n), n, ByHand(n))
  {
    hide Granting, Deciding, ApprovalOf;
  }

  lemma CollectedFacts(a: Authority, d: State, n: Newcomer)
    requires n.enrollment in d.proposals && n.grant in d.grants
    ensures CollectedFrom(a, d, AfterCollect(a, d, n), n)
  {
  }

  lemma ReadyToApprove(a: Authority, s: State, c: State, n: Newcomer)
    requires Welcome(a, s, n) && Speaking(a, s, n).None? && CreatedFrom(a, s, c, n)
    ensures AwaitsApproval(a, c, n)
  {
    hide HardwareRef, PayloadProblem, BaseFits, Speaking, InTime;
  }

  lemma ReadyToCollect(a: Authority, s: State, c: State, d: State, n: Newcomer)
    requires Welcome(a, s, n) && CreatedFrom(a, s, c, n) && ApprovedFrom(a, c, d, n, ApproverOf(a, s, n))
    ensures AwaitsCollection(a, d, n)
  {
    hide HardwareRef, PayloadProblem, BaseFits, MaxGeneration, Speaking, ApproverOf, MayApprove;
  }

  lemma TwiceUpdated<K, V>(m: map<K, V>, k: K, v: V, w: V)
    ensures m[k := v][k := w] == m[k := w]
  {
  }

  /** The Proposal in the end. */
  function Settling(a: Authority, n: Newcomer, who: Approver, hardware: Id): Proposal {
    Reached(Reached(Proposing(a, n, hardware), ApprovedAwaitingHandoff, who.at), GrantDelivered, n.times.collected)
  }

  /** The rows the steps left. */
  lemma RowsLeft(a: Authority, s: State, c: State, d: State, e: State, n: Newcomer, who: Approver)
    requires CreatedFrom(a, s, c, n) && ApprovedFrom(a, c, d, n, who) && CollectedFrom(a, d, e, n)
    ensures HardwareRef(n.base).Some?
    ensures e.proposals == s.proposals[n.enrollment := Settling(a, n, who, HardwareRef(n.base).value)]
    ensures e.decisions == s.decisions[n.decision := Deciding(a, n, who)]
    ensures e.grants == s.grants[n.grant := Sealed(Granting(a, c, n, who), n)]
  {
    var hardware := HardwareRef(n.base).value;
    var p := Proposing(a, n, hardware);
    var q := Reached(p, ApprovedAwaitingHandoff, who.at);
    TwiceUpdated(s.proposals, n.enrollment, p, q);
    TwiceUpdated(s.proposals, n.enrollment, q, Settling(a, n, who, hardware));
    TwiceUpdated(s.grants, n.grant, Granting(a, c, n, who), Sealed(Granting(a, c, n, who), n));
    hide Proposing, Reached, Sealed, HardwareRef, Granting, Deciding, Elsewhere;
  }

  lemma RowsHold(a: Authority, s: State, c: State, n: Newcomer, who: Approver)
    requires Welcome(a, s, n) && CreatedFrom(a, s, c, n)
    ensures n.enrollment in c.proposals
    ensures var hardware := HardwareRef(n.base).value;
      Holds(a, Settling(a, n, who, hardware), Sealed(Granting(a, c, n, who), n), n, who,
            MaxGeneration(s.grants, a.domain, hardware) + 1)
  {
    hide HardwareRef, PayloadProblem, BaseFits, MaxGeneration, Unused, Elsewhere, Speaking, ApproverOf, InTime;
  }

  lemma KeysLeft(a: Authority, s: State, c: State, d: State, e: State, n: Newcomer, who: Approver)
    requires CreatedFrom(a, s, c, n) && ApprovedFrom(a, c, d, n, who) && CollectedFrom(a, d, e, n)
    ensures Elsewhere(s, e) && Brought(a, s, e, n)
  {
    hide HardwareRef, Proposing, Granting, Deciding, Reached, Sealed, CreateKey, DecideKey, CollectKey;
  }

  lemma AllSteps(a: Authority, s: State, c: State, d: State, e: State, n: Newcomer, who: Approver)
    requires Welcome(a, s, n)
    requires CreatedFrom(a, s, c, n) && ApprovedFrom(a, c, d, n, who) && CollectedFrom(a, d, e, n)
    ensures HardwareRef(n.base).Some?
    ensures HandedOver(a, s, e, n, who, MaxGeneration(s.grants, a.domain, HardwareRef(n.base).value) + 1)
  {
    hide CreatedFrom, ApprovedFrom, CollectedFrom, Holds, Brought, Elsewhere, HardwareRef, Welcome, Settling, Sealed,
      Granting, Deciding, MaxGeneration;
    KeysLeft(a, s, c, d, e, n, who);
    RowsLeft(a, s, c, d, e, n, who);
    RowsHold(a, s, c, n, who);
  }

  lemma RunOne(a: Authority, s: State, x: Step)
    ensures Run(a, s, [x]) == Apply(a, s, x)
  {
    hide Apply;
    assert [x][..0] == [];
    assert Run(a, s, []) == s;
  }

  lemma RunTwo(a: Authority, s: State, x: Step, y: Step)
    ensures Run(a, s, [x, y]) == Apply(a, Apply(a, s, x), y)
  {
    hide Apply;
    RunOne(a, s, x);
    assert [x, y][..1] == [x];
  }

  lemma RunThree(a: Authority, s: State, x: Step, y: Step, z: Step)
    ensures Run(a, s, [x, y, z]) == Apply(a, Apply(a, Apply(a, s, x), y), z)
  {
    hide Apply;
    RunTwo(a, s, x, y);
    assert [x, y, z][..2] == [x, y];
  }

  /** Create, and approve unless a standing did: the Proposal waits to be collected. */
  lemma Approves(a: Authority, s: State, n: Newcomer) returns (c: State, d: State)
    requires Inv(a, s) && Welcome(a, s, n)
    ensures d == if Speaking(a, s, n).None? then Apply(a, Apply(a, s, CreateStep(n)), ApproveStep(n))
                 else Apply(a, s, CreateStep(n))
    ensures CreatedFrom(a, s, c, n) && ApprovedFrom(a, c, d, n, ApproverOf(a, s, n)) && Inv(a, d)
  {
    hide Inv, Apply, HardwareRef, AfterCreate, AfterApprove, AfterDecision, Welcome, Speaking;
    hide CreatedFrom, ApprovedFrom, AwaitsApproval;
    CreationGoesThrough(a, s, n);
    c := AfterCreate(a, s, n, HardwareRef(n.base).value);
    CreatedFacts(a, s, n);
    StepKeeps(a, s, CreateStep(n));
    if Speaking(a, s, n).None? {
      ReadyToApprove(a, s, c, n);
      ApprovalGoesThrough(a, c, n);
      d := AfterApprove(a, c, n);
      ApprovedFacts(a, c, n);
      StepKeeps(a, c, ApproveStep(n));
    } else {
      d := AfterDecision(a, c, n, ApproverOf(a, s, n));
      DecidedFacts(a, c, n, ApproverOf(a, s, n));
    }
  }

  /** A commissioned device is admitted from any state in the invariant: create, approve unless a standing
      decides, and collect go through, and it holds the Grant of its hardware identity's next generation,
      decided in the name of the standing's Controller or of the one that approved. */
  lemma HandOverGoesThrough(a: Authority, s: State, n: Newcomer)
    requires Inv(a, s) && Welcome(a, s, n)
    ensures HardwareRef(n.base).Some?
    ensures HandedOver(a, s, Run(a, s, HandOver(a, s, n)), n, ApproverOf(a, s, n),
                       MaxGeneration(s.grants, a.domain, HardwareRef(n.base).value) + 1)
  {
    hide Inv, Apply, HardwareRef, AfterCollect, Welcome, Run, MaxGeneration, Speaking, ApproverOf;
    hide CreatedFrom, ApprovedFrom, CollectedFrom, AwaitsCollection, HandedOver;
    var c, d := Approves(a, s, n);
    RunTwo(a, s, CreateStep(n), CollectStep(n));
    RunThree(a, s, CreateStep(n), ApproveStep(n), CollectStep(n));
    ReadyToCollect(a, s, c, d, n);
    CollectionGoesThrough(a, d, n);
    CollectedFacts(a, d, n);
    AllSteps(a, s, c, d, AfterCollect(a, d, n), n, ApproverOf(a, s, n));
  }

  // Removal

  datatype Removal = Removal(command: Id, ref: DeviceRef, reason: string, context: Context, eventId: Id, at: Moment)

  function RemoveStep(r: Removal): Step {
    Revoke(r.command, r.ref, r.reason, r.context, r.eventId, r.at)
  }

  function RemoveKey(r: Removal): CommandKey {
    CommandKey(r.context.actor.domain, RevokeKind, r.command)
  }

  /** A new command of the owner for an active Claim, at the generation the Claim is at. */
  predicate Removable(s: State, r: Removal) {
    && r.ref.device in s.claims && s.claims[r.ref.device].state == Active
    && ClaimRef(r.ref.device, s.claims[r.ref.device]) == r.ref
    && s.claims[r.ref.device].owner == r.context.owner
    && r.context.HasScope(REVOKE) && r.context.actor.domain == r.ref.domain
    && RemoveKey(r) !in s.results && r.eventId !in s.outbox
  }

  /** The Claim revoked and counted on, its Grant marked, its row withdrawn, one event; nothing else moved. */
  ghost predicate Removed(s: State, s': State, r: Removal, g: Id)
    requires r.ref.device in s.claims && g in s.grants
  {
    var claim := s.claims[r.ref.device];
    && s'.claims == s.claims[r.ref.device := claim.(state := Revoked, revision := claim.revision + 1,
                                                    updatedAt := r.at, revokedAt := Some(r.at))]
    && s'.grants == s.grants[g := s.grants[g].(revokedAt := Some(r.at))]
    && r.ref.device in s'.devices && !s'.devices[r.ref.device].approved
    && (forall d :: d in s.devices && d != r.ref.device ==> d in s'.devices && s'.devices[d] == s.devices[d])
    && s'.stream == s.stream + [ClaimEvent(r.eventId, r.ref, claim.revision + 1, r.at, Revocation(r.reason))]
    && s'.outbox.Keys == s.outbox.Keys + {r.eventId} && s'.results.Keys == s.results.Keys + {RemoveKey(r)}
    && s'.proposals == s.proposals && s'.decisions == s.decisions && s'.acks == s.acks
    && s'.vouchers == s.vouchers && s'.bindings == s.bindings
    && s'.standings == s.standings && s'.withdrawals == s.withdrawals
  }

  /** An active Claim is revoked by its owner, for any reason and at any moment. */
  lemma RemovalGoesThrough(a: Authority, s: State, r: Removal) returns (g: Id)
    requires Inv(a, s) && Removable(s, r)
    ensures g in s.grants && s.grants[g].ref == r.ref && s.grants[g].revokedAt.None?
    ensures Removed(s, Apply(a, s, RemoveStep(r)), r, g)
  {
    hide Apply, Inv, Undo, Undone, RevokeNow, Backs, Removed, Revocable, SameGeneration;
    RemovalCommits(a, s, r);
    RowStands(a, s, r.ref.device);
    g := UndoActive(a, s, r.ref, r.at);
    RemovalWrites(s, r, g);
  }

  /** What the revocation leaves, given what it undoes. */
  lemma RemovalWrites(s: State, r: Removal, g: Id)
    requires Revocable(s, r.ref) && r.eventId !in s.outbox && r.ref.device in s.claims && g in s.grants
    requires var u := Undo(s, r.ref, r.at);
      && u == s.(grants := s.grants[g := s.grants[g].(revokedAt := Some(r.at))], claims := u.claims)
      && r.ref.device in u.claims && u.claims == s.claims[r.ref.device := u.claims[r.ref.device]]
      && var claim := s.claims[r.ref.device];
         u.claims[r.ref.device]
           == claim.(state := Revoked, revision := claim.revision + 1, updatedAt := r.at, revokedAt := Some(r.at))
    requires r.ref.device in s.devices && SameGeneration(s.devices[r.ref.device], r.ref)
    ensures Removed(s, RevokeNow(s, RemoveKey(r), r.ref, r.reason, r.eventId, r.at), r, g)
  {
    hide Undo, RevokeNow, Removed, Revokes, Revocable, RemoveKey, SameGeneration;
    var event, saved := RevokeShape(s, RemoveKey(r), r.ref, r.reason, r.eventId, r.at);
    UndoneRemoves(s, Undo(s, r.ref, r.at), RevokeNow(s, RemoveKey(r), r.ref, r.reason, r.eventId, r.at), r, g, event,
                  saved);
  }

  lemma UndoneRemoves(s: State, u: State, s': State, r: Removal, g: Id, event: ClaimEvent, saved: SavedResult)
    requires Revokes(s, s', u, event) && s'.results == s.results[RemoveKey(r) := saved]
    requires event == ClaimEvent(r.eventId, r.ref, event.revision, r.at, Revocation(r.reason))
    requires r.ref.device in s.claims && g in s.grants
    requires u == s.(grants := s.grants[g := s.grants[g].(revokedAt := Some(r.at))], claims := u.claims)
    requires u.claims == s.claims[r.ref.device := u.claims[r.ref.device]]
    requires var claim := s.claims[r.ref.device];
      u.claims[r.ref.device]
        == claim.(state := Revoked, revision := claim.revision + 1, updatedAt := r.at, revokedAt := Some(r.at))
    requires r.ref.device in s.devices && SameGeneration(s.devices[r.ref.device], r.ref)
    ensures Removed(s, s', r, g)
  {
  }

  lemma RemovalCommits(a: Authority, s: State, r: Removal)
    requires Removable(s, r)
    ensures Revocable(s, r.ref)
    ensures Apply(a, s, RemoveStep(r)) == RevokeNow(s, RemoveKey(r), r.ref, r.reason, r.eventId, r.at)
  {
    hide RevokeNow, Undo;
  }

  lemma RowStands(a: Authority, s: State, d: DeviceId)
    requires Inv(a, s) && d in s.claims && s.claims[d].state == Active
    ensures d in s.devices && SameGeneration(s.devices[d], ClaimRef(d, s.claims[d]))
  {
    hide BindingsOk, ProposalsOk, DecisionsOk, GrantsOk, LinksOk, StagesOk, ClaimsOk, StreamOk, ResultsOk;
  }

  // Two Grants of one device

  /** The same Body twice: one base id and key, everything else its own. */
  predicate Twins(n: Newcomer, m: Newcomer) {
    && n.base == m.base && n.payload.operationalKey == m.payload.operationalKey && n.payload.device == m.payload.device
    && n.jti != m.jti && n.enrollment != m.enrollment && n.decision != m.decision && n.grant != m.grant
    && n.eventId != m.eventId && n.commands.create != m.commands.create && n.commands.decide != m.commands.decide
    && n.commands.collect != m.commands.collect && n.commands.ack != m.commands.ack
  }

  /** Acknowledged before a Grant approved by hand runs out. */
  predicate AcksInTime(a: Authority, n: Newcomer) {
    n.times.acked < n.times.approved + a.grantTtl
  }

  lemma NoGrants(domain: Id, hardware: Id)
    ensures MaxGeneration(map[], domain, hardware) == 0
  {
    var n := MaxGeneration(map[], domain, hardware);
    assert !Granted(map[], domain, hardware, n);
  }

  lemma OneGrant(grants: map<Id, Grant>, g: Id)
    requires grants.Keys == {g}
    ensures MaxGeneration(grants, grants[g].domain, grants[g].hardware) == grants[g].claimGeneration
  {
    var n := MaxGeneration(grants, grants[g].domain, grants[g].hardware);
    assert g in grants;
    if n != 0 { assert Granted(grants, grants[g].domain, grants[g].hardware, n); }
  }

  /** Without recorded standings nobody's voucher decides anything. */
  lemma NobodySpeaks(a: Authority, s: State, n: Newcomer)
    requires s.standings == map[]
    ensures Speaking(a, s, n).None? && ApproverOf(a, s, n) == ByHand(n) && HandOver(a, s, n) == HandOverByHand(n)
  {
  }

  /** After the first hand-over the door is open to its twin. */
  lemma TwinWelcome(a: Authority, s: State, n: Newcomer, m: Newcomer)
    requires Welcome(a, EmptyState, n) && Welcome(a, EmptyState, m) && Twins(n, m)
    requires HandedOver(a, EmptyState, s, n, ByHand(n), 1)
    ensures Welcome(a, s, m)
  {
    NobodySpeaks(a, EmptyState, m);
    assert s.standings == map[] by { assert Elsewhere(EmptyState, s); }
    NobodySpeaks(a, s, m);
    hide PayloadProblem, Holds, Speaking, ApproverOf;
  }

  /** The first device of an empty database is approved by hand, into generation 1. */
  lemma FirstHandOver(a: Authority, n: Newcomer)
    requires Welcome(a, EmptyState, n)
    ensures HandedOver(a, EmptyState, Run(a, EmptyState, HandOverByHand(n)), n, ByHand(n), 1)
    ensures Inv(a, Run(a, EmptyState, HandOverByHand(n)))
  {
    hide Welcome, HandedOver, Inv, Run, HardwareRef, MaxGeneration, HandOverByHand;
    InvEmpty(a);
    NobodySpeaks(a, EmptyState, n);
    HandOverGoesThrough(a, EmptyState, n);
    NoGrants(a.domain, HardwareRef(n.base).value);
    RunKeeps(a, EmptyState, HandOverByHand(n));
  }

  lemma FirstGrantMax(a: Authority, s: State, n: Newcomer)
    requires HandedOver(a, EmptyState, s, n, ByHand(n), 1)
    ensures HardwareRef(n.base).Some? && MaxGeneration(s.grants, a.domain, HardwareRef(n.base).value) == 1
  {
    hide HardwareRef;
    assert s.grants.Keys == {n.grant};
    OneGrant(s.grants, n.grant);
  }

  /** And its twin into generation 2. */
  lemma TwinHandOver(a: Authority, s: State, n: Newcomer, m: Newcomer)
    requires Welcome(a, EmptyState, n) && Welcome(a, EmptyState, m) && Twins(n, m)
    requires Inv(a, s) && HandedOver(a, EmptyState, s, n, ByHand(n), 1)
    ensures HandedOver(a, s, Run(a, s, HandOverByHand(m)), m, ByHand(m), 2)
  {
    assert n.base == m.base;
    assert s.standings == map[] by { assert Elsewhere(EmptyState, s); }
    TwinWelcome(a, s, n, m);
    hide Welcome, HandedOver, Inv, Run, HardwareRef, MaxGeneration, HandOverByHand, Twins;
    NobodySpeaks(a, s, m);
    FirstGrantMax(a, s, n);
    HandOverGoesThrough(a, s, m);
  }

  lemma AwaitsAckNow(a: Authority, s: State, s': State, n: Newcomer, generation: nat)
    requires HandedOver(a, s, s', n, ByHand(n), generation) && AcksInTime(a, n)
    requires n.grant !in s.acks && n.eventId !in s.outbox
    ensures AwaitsAck(s', n) && s'.grants[n.grant].ref == RefOf(a, n, generation)
    ensures s'.grants[n.grant].decision == n.decision && s'.decisions[n.decision].owner == n.context.owner
  {
    hide HardwareRef;
  }

  lemma StillAwaits(a: Authority, s: State, s': State, n: Newcomer, m: Newcomer)
    requires AwaitsAck(s, n) && Twins(n, m) && m.grant in s.grants && Acknowledged(a, s, s', m)
    requires AckKey(a.domain, n) !in s.results
    ensures AwaitsAck(s', n) && s'.grants[n.grant] == s.grants[n.grant] && AckKey(a.domain, n) !in s'.results
  {
    hide ActivatedClaim, AckEvent;
  }

  lemma StillAwaitsAfterHandOver(a: Authority, s: State, s': State, n: Newcomer, m: Newcomer)
    requires AwaitsAck(s, n) && Twins(n, m) && HandedOver(a, s, s', m, ByHand(m), 2)
    requires AckKey(a.domain, n) !in s.results && AckKey(a.domain, m) !in s.results
    ensures AwaitsAck(s', n) && s'.grants[n.grant] == s.grants[n.grant]
    ensures AckKey(a.domain, n) !in s'.results && AckKey(a.domain, m) !in s'.results
    ensures s'.stream == s.stream && s'.claims == s.claims
  {
    hide Holds;
  }

  lemma FirstFresh(a: Authority, s: State, n: Newcomer, m: Newcomer)
    requires HandedOver(a, EmptyState, s, n, ByHand(n), 1)
    ensures AckKey(a.domain, n) !in s.results && AckKey(a.domain, m) !in s.results
    ensures s.acks == map[] && s.outbox == map[] && s.stream == [] && s.claims == map[] && s.standings == map[]
  {
    hide Holds;
  }

  /** Both delivered, neither acknowledged. */
  ghost predicate BothDelivered(a: Authority, s: State, n: Newcomer, m: Newcomer) {
    && AwaitsAck(s, n) && AwaitsAck(s, m)
    && s.grants[n.grant].ref == RefOf(a, n, 1) && s.grants[m.grant].ref == RefOf(a, m, 2)
    && AckKey(a.domain, n) !in s.results && AckKey(a.domain, m) !in s.results
    && s.stream == [] && s.claims == map[]
  }

  lemma TwinsDelivered(a: Authority, n: Newcomer, m: Newcomer)
    requires Welcome(a, EmptyState, n) && Welcome(a, EmptyState, m) && Twins(n, m)
    requires AcksInTime(a, n) && AcksInTime(a, m)
    ensures BothDelivered(a, Run(a, EmptyState, HandOverByHand(n) + HandOverByHand(m)), n, m)
  {
    hide Welcome, HandedOver, Twins, AwaitsAck, Inv, Run, HandOverByHand, AckKey, RefOf;
    var first := Run(a, EmptyState, HandOverByHand(n));
    FirstHandOver(a, n);
    TwinHandOver(a, first, n, m);
    var handed := Run(a, first, HandOverByHand(m));
    RunSplits(a, EmptyState, HandOverByHand(n), HandOverByHand(m));
    FirstFresh(a, first, n, m);
    AwaitsAckNow(a, EmptyState, first, n, 1);
    AwaitsAckNow(a, first, handed, m, 2);
    InGrants(first, n);
    StillAwaitsAfterHandOver(a, first, handed, n, m);
  }

  lemma InGrants(s: State, n: Newcomer)
    requires AwaitsAck(s, n)
    ensures n.grant in s.grants
  {
  }

  /** Two Grants of one device, acknowledged last first: the Claim ends at the lower generation. */
  lemma GenerationFalls(a: Authority, n: Newcomer, m: Newcomer)
    requires Welcome(a, EmptyState, n) && Welcome(a, EmptyState, m) && Twins(n, m)
    requires AcksInTime(a, n) && AcksInTime(a, m)
    ensures var handed := Run(a, EmptyState, HandOverByHand(n) + HandOverByHand(m));
      var once := Apply(a, handed, AckStep(m, RefOf(a, m, 2)));
      var twice := Apply(a, once, AckStep(n, RefOf(a, n, 1)));
      var d := n.payload.device;
      && d in once.claims && once.claims[d].state == Active && once.claims[d].claimGeneration == 2
      && d in twice.claims && twice.claims[d].state == Active && twice.claims[d].claimGeneration == 1
      && |twice.stream| == 2 && twice.stream[0].body.Activation? && twice.stream[1].body.Activation?
      && twice.stream[0].ref == RefOf(a, m, 2) && twice.stream[1].ref == RefOf(a, n, 1)
  {
    TwinsDelivered(a, n, m);
    assert n.payload.device == m.payload.device;
    hide Welcome, Twins, AwaitsAck, Acknowledged, Run, Apply, AckKey;
    var handed := Run(a, EmptyState, HandOverByHand(n) + HandOverByHand(m));
    AckActivates(a, handed, m);
    var once := Apply(a, handed, AckStep(m, RefOf(a, m, 2)));
    InGrants(handed, m);
    StillAwaits(a, handed, once, n, m);
    AckActivates(a, once, n);
    InGrants(once, n);
    ClaimShown(a, handed, once, m);
    ClaimShown(a, once, Apply(a, once, AckStep(n, RefOf(a, n, 1))), n);
  }

  lemma ClaimShown(a: Authority, s: State, s': State, n: Newcomer)
    requires n.grant in s.grants && Acknowledged(a, s, s', n)
    ensures var ref := s.grants[n.grant].ref;
      && ref.device in s'.claims && s'.claims[ref.device].state == Active
      && s'.claims[ref.device].claimGeneration == ref.claimGeneration
    ensures |s'.stream| == |s.stream| + 1 && s.stream <= s'.stream
    ensures s'.stream[|s.stream|].ref == s.grants[n.grant].ref && s'.stream[|s.stream|].body.Activation?
  {
  }

  // One device removed and back

  /** The removal of this device at generation 1 by its owner. */
  predicate RemovesFirst(a: Authority, n: Newcomer, m: Newcomer, r: Removal) {
    && r.ref == RefOf(a, n, 1) && r.context.owner == n.context.owner && r.context.actor.domain == a.domain
    && r.context.HasScope(REVOKE) && r.eventId != n.eventId && r.eventId != m.eventId
  }

  /** One device has been admitted and removed, and nothing else has happened. */
  ghost predicate Away(a: Authority, s: State, n: Newcomer, r: Removal) {
    && s.proposals.Keys == {n.enrollment} && s.decisions.Keys == {n.decision} && s.acks.Keys == {n.grant}
    && s.grants.Keys == {n.grant} && s.grants[n.grant].domain == a.domain && s.grants[n.grant].claimGeneration == 1
    && Some(s.grants[n.grant].hardware) == HardwareRef(n.base)
    && s.vouchers.Keys == {n.jti} && s.standings == map[]
    && n.base in s.bindings && s.bindings[n.base].keyId == KeyIdOf(n)
    && s.results.Keys <= {CreateKey(a.domain, n), DecideKey(a.domain, n), CollectKey(a.domain, n), AckKey(a.domain, n),
                          RemoveKey(r)}
    && s.outbox.Keys == {n.eventId, r.eventId}
    && |s.stream| == 2 && s.stream[1].body.Revocation? && s.stream[1].ref == RefOf(a, n, 1)
  }

  /** Admitted from the empty database, acknowledged, removed. */
  ghost predicate Departed(a: Authority, s1: State, s2: State, s3: State, n: Newcomer, r: Removal) {
    && HandedOver(a, EmptyState, s1, n, ByHand(n), 1)
    && n.grant in s1.grants && s1.grants[n.grant].ref == RefOf(a, n, 1) && Acknowledged(a, s1, s2, n)
    && r.ref == RefOf(a, n, 1) && r.ref.device in s2.claims && n.grant in s2.grants && Removed(s2, s3, r, n.grant)
  }

  lemma DepartedRows(a: Authority, s1: State, s2: State, s3: State, n: Newcomer, r: Removal)
    requires Departed(a, s1, s2, s3, n, r)
    ensures s3.grants.Keys == {n.grant} && s3.grants[n.grant].domain == a.domain
    ensures s3.grants[n.grant].claimGeneration == 1 && Some(s3.grants[n.grant].hardware) == HardwareRef(n.base)
    ensures s3.proposals.Keys == {n.enrollment} && s3.decisions.Keys == {n.decision}
  {
    hide HardwareRef, Brought, Elsewhere, Deciding, ActivatedClaim, AckEvent;
    assert s1.grants.Keys == {n.grant} && s1.proposals.Keys == {n.enrollment} && s1.decisions.Keys == {n.decision};
    assert s3.grants.Keys == s2.grants.Keys;
  }

  lemma DepartedKeys(a: Authority, s1: State, s2: State, s3: State, n: Newcomer, r: Removal)
    requires Departed(a, s1, s2, s3, n, r)
    ensures s3.results.Keys <= {CreateKey(a.domain, n), DecideKey(a.domain, n), CollectKey(a.domain, n),
                                AckKey(a.domain, n), RemoveKey(r)}
    ensures s3.vouchers.Keys == {n.jti} && n.base in s3.bindings && s3.bindings[n.base].keyId == KeyIdOf(n)
    ensures s3.standings == map[] && s3.acks.Keys == {n.grant} && s3.outbox.Keys == {n.eventId, r.eventId}
  {
    hide Holds, HardwareRef, CreateKey, DecideKey, CollectKey, AckKey, RemoveKey, Deciding, ActivatedClaim, AckEvent;
  }

  lemma DepartedStream(a: Authority, s1: State, s2: State, s3: State, n: Newcomer, r: Removal)
    requires Departed(a, s1, s2, s3, n, r)
    ensures |s3.stream| == 2 && s3.stream[1].body.Revocation? && s3.stream[1].ref == RefOf(a, n, 1)
  {
    hide Holds, HardwareRef, Brought, Deciding, ActivatedClaim, AckEvent;
    assert s1.stream == [];
  }

  lemma DepartedIsAway(a: Authority, s1: State, s2: State, s3: State, n: Newcomer, r: Removal)
    requires Departed(a, s1, s2, s3, n, r)
    ensures Away(a, s3, n, r)
  {
    DepartedRows(a, s1, s2, s3, n, r);
    DepartedKeys(a, s1, s2, s3, n, r);
    DepartedStream(a, s1, s2, s3, n, r);
    hide Departed, HardwareRef, CreateKey, DecideKey, CollectKey, AckKey, RemoveKey;
  }

  /** The door is open again to the Body's twin, which gets the next generation. */
  lemma WelcomeBack(a: Authority, s: State, n: Newcomer, m: Newcomer, r: Removal)
    requires Welcome(a, EmptyState, m) && Twins(n, m) && Away(a, s, n, r)
    ensures Welcome(a, s, m)
  {
    NobodySpeaks(a, EmptyState, m);
    NobodySpeaks(a, s, m);
    hide PayloadProblem, HardwareRef, Speaking, ApproverOf;
  }

  lemma StillOneGrant(a: Authority, s: State, n: Newcomer, r: Removal)
    requires Away(a, s, n, r)
    ensures HardwareRef(n.base).Some? && MaxGeneration(s.grants, a.domain, HardwareRef(n.base).value) == 1
    ensures s.standings == map[]
  {
    hide HardwareRef;
    OneGrant(s.grants, n.grant);
  }

  lemma ReadyToRemove(a: Authority, s1: State, s2: State, n: Newcomer, m: Newcomer, r: Removal)
    requires HandedOver(a, EmptyState, s1, n, ByHand(n), 1) && RemovesFirst(a, n, m, r)
    requires n.grant in s1.grants && s1.grants[n.grant].ref == RefOf(a, n, 1) && Acknowledged(a, s1, s2, n)
    ensures Removable(s2, r) && r.ref.device in s2.claims && r.ref == RefOf(a, n, 1)
    ensures n.grant in s2.grants && s2.grants[n.grant].ref == r.ref
  {
    hide HardwareRef;
  }

  lemma ReadyToAckAgain(a: Authority, s: State, s': State, n: Newcomer, m: Newcomer, r: Removal)
    requires Twins(n, m) && Away(a, s, n, r) && HandedOver(a, s, s', m, ByHand(m), 2)
    requires r.eventId != m.eventId && AcksInTime(a, m)
    ensures AwaitsAck(s', m) && s'.grants[m.grant].ref == RefOf(a, m, 2)
    ensures AckKey(a.domain, m) !in s'.results && s'.stream == s.stream
  {
    assert m.grant !in s.acks && m.eventId !in s.outbox by { hide HandedOver, HardwareRef; }
    AwaitsAckNow(a, s, s', m, 2);
    hide Holds, HardwareRef, AwaitsAck;
  }

  function RemovedAndBack(a: Authority, n: Newcomer, m: Newcomer, r: Removal): seq<Step> {
    HandOverByHand(n) + [AckStep(n, RefOf(a, n, 1)), RemoveStep(r)] + HandOverByHand(m) + [AckStep(m, RefOf(a, m, 2))]
  }

  lemma RunInTurn(a: Authority, s: State, x: seq<Step>, y: Step, z: Step, v: seq<Step>, w: Step)
    ensures Run(a, s, x + [y, z] + v + [w]) == Apply(a, Run(a, Apply(a, Apply(a, Run(a, s, x), y), z), v), w)
  {
    hide Apply, Run;
    RunSplits(a, s, x + [y, z] + v, [w]);
    RunSplits(a, s, x + [y, z], v);
    RunSplits(a, s, x, [y, z]);
    RunTwo(a, Run(a, s, x), y, z);
    RunOne(a, Run(a, s, x + [y, z] + v), w);
  }

  lemma Departs(a: Authority, n: Newcomer, m: Newcomer, r: Removal)
    requires Welcome(a, EmptyState, n) && AcksInTime(a, n) && RemovesFirst(a, n, m, r)
    ensures var s := Apply(a, Apply(a, Run(a, EmptyState, HandOverByHand(n)), AckStep(n, RefOf(a, n, 1))),
                           RemoveStep(r));
      Inv(a, s) && Away(a, s, n, r)
  {
    hide Welcome, HandedOver, AwaitsAck, Acknowledged, Removed, Removable, Away, Inv, Run, Apply, HandOverByHand,
      AckKey, RefOf;
    var s1 := Run(a, EmptyState, HandOverByHand(n));
    FirstHandOver(a, n);
    FirstFresh(a, s1, n, n);
    AwaitsAckNow(a, EmptyState, s1, n, 1);
    InGrants(s1, n);
    AckActivates(a, s1, n);
    var s2 := Apply(a, s1, AckStep(n, RefOf(a, n, 1)));
    StepKeeps(a, s1, AckStep(n, RefOf(a, n, 1)));
    ReadyToRemove(a, s1, s2, n, m, r);
    var g := RemovalGoesThrough(a, s2, r);
    SameGrant(a, s2, n.grant, g);
    StepKeeps(a, s2, RemoveStep(r));
    DepartedIsAway(a, s1, s2, Apply(a, s2, RemoveStep(r)), n, r);
  }

  lemma SameGrant(a: Authority, s: State, g: Id, h: Id)
    requires Inv(a, s) && g in s.grants && h in s.grants && s.grants[g].ref == s.grants[h].ref
    ensures g == h
  {
    hide BindingsOk, ProposalsOk, DecisionsOk, GrantsOk, LinksOk, StagesOk, ClaimsOk, StreamOk, DevicesOk, ResultsOk;
    RefFixesGrant(a, s, g, h);
  }

  lemma Returns(a: Authority, s: State, n: Newcomer, m: Newcomer, r: Removal)
    requires Inv(a, s) && Away(a, s, n, r) && Welcome(a, EmptyState, m) && Twins(n, m)
    requires r.eventId != m.eventId && AcksInTime(a, m)
    ensures var s' := Apply(a, Run(a, s, HandOverByHand(m)), AckStep(m, RefOf(a, m, 2)));
      var d := n.payload.device;
      && s.stream <= s'.stream && d in s'.claims && s'.claims[d].state == Active && s'.claims[d].claimGeneration == 2
  {
    assert n.base == m.base && n.payload.device == m.payload.device;
    hide Welcome, HandedOver, AwaitsAck, Acknowledged, Away, Twins, Inv, Run, Apply, HardwareRef, MaxGeneration,
      HandOverByHand, AckKey;
    WelcomeBack(a, s, n, m, r);
    StillOneGrant(a, s, n, r);
    NobodySpeaks(a, s, m);
    HandOverGoesThrough(a, s, m);
    var s4 := Run(a, s, HandOverByHand(m));
    ReadyToAckAgain(a, s, s4, n, m, r);
    AckActivates(a, s4, m);
    InGrants(s4, m);
    ClaimShown(a, s4, Apply(a, s4, AckStep(m, RefOf(a, m, 2))), m);
  }

  lemma AwayStream(a: Authority, s: State, n: Newcomer, r: Removal)
    requires Away(a, s, n, r)
    ensures |s.stream| == 2 && s.stream[1].body.Revocation? && s.stream[1].ref == RefOf(a, n, 1)
  {
  }

  /** A device admitted, removed and admitted again: its revocation is in the stream, its Claim one generation on. */
  lemma ComesBack(a: Authority, n: Newcomer, m: Newcomer, r: Removal)
    requires Welcome(a, EmptyState, n) && Welcome(a, EmptyState, m) && Twins(n, m)
    requires AcksInTime(a, n) && AcksInTime(a, m) && RemovesFirst(a, n, m, r)
    ensures var s := Run(a, EmptyState, RemovedAndBack(a, n, m, r));
      var d := n.payload.device;
      && |s.stream| >= 2 && s.stream[1].body.Revocation? && s.stream[1].ref == RefOf(a, n, 1)
      && d in s.claims && s.claims[d].state == Active && s.claims[d].claimGeneration == 2
  {
    hide Welcome, Twins, Inv, Run, Apply, Away, HandOverByHand;
    RunInTurn(a, EmptyState, HandOverByHand(n), AckStep(n, RefOf(a, n, 1)), RemoveStep(r), HandOverByHand(m),
              AckStep(m, RefOf(a, m, 2)));
    Departs(a, n, m, r);
    var s := Apply(a, Apply(a, Run(a, EmptyState, HandOverByHand(n)), AckStep(n, RefOf(a, n, 1))), RemoveStep(r));
    Returns(a, s, n, m, r);
    AwayStream(a, s, n, r);
  }

  // Such devices exist

  function SampleContext(a: Authority): Context {
    Context(Actor("controller", a.domain, {APPROVE, REVOKE}), "owner")
  }

  function SamplePayload(a: Authority): EnrollmentPayload {
    EnrollmentPayload(a.domain, DeviceInstanceId("key"), "evidence", Sha256("evidence"), "handoff", "key",
                      ManifestRef("manifest", 1, Sha256("document")), "document", "nonce", "proof", VoucherScheme)
  }

  function Sample(a: Authority, tag: string): Newcomer {
    Newcomer(SamplePayload(a), "b", tag, 1, tag, "challenge", tag, tag, tag, CommandIds(tag, tag, tag, tag),
             Times(0, 0, 0, 0), "proof", "proof", "sealed", SampleContext(a))
  }

  function SampleRemoval(a: Authority, tag: string): Removal {
    Removal(tag, RefOf(a, Sample(a, tag), 1), "removed", SampleContext(a), tag, 0)
  }

  /** Three tags make two twins that are welcome in an empty database and a removal of the first. */
  lemma SamplesAreWelcome(a: Authority, tag: string, other: string, third: string)
    requires a.proposalTtl > 0 && a.grantTtl > 0 && tag != other && third != tag && third != other
    ensures Welcome(a, EmptyState, Sample(a, tag)) && AcksInTime(a, Sample(a, tag))
    ensures Twins(Sample(a, tag), Sample(a, other))
    ensures RemovesFirst(a, Sample(a, tag), Sample(a, other), SampleRemoval(a, third))
  {
    NobodySpeaks(a, EmptyState, Sample(a, tag));
    hide Speaking, ApproverOf;
    assert Strip("b") == "b" && Fold("b") == "b" + Fold("") && HardwareRef("b").Some?;
  }
}
