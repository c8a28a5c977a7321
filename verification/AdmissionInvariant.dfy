/** What the Admission tables keep across every transaction. */
module AdmissionInvariant {
  import opened Prelude
  import opened AdmissionDomain
  import opened AdmissionTables
  import opened AdmissionCommands

  /** Base ids and operational keys are in a partial one-to-one correspondence. */
  ghost predicate BindingsOk(a: Authority, bindings: map<Id, Binding>) {
    && (forall b :: b in bindings ==> bindings[b].domain == a.domain && HardwareRef(b) == Some(bindings[b].hardware))
    && (forall b, c :: b in bindings && c in bindings && bindings[b].keyId == bindings[c].keyId ==> b == c)
  }

  ghost predicate Bound(bindings: map<Id, Binding>, keyId: KeyId, hardware: Id) {
    exists b :: b in bindings && bindings[b].keyId == keyId && bindings[b].hardware == hardware
  }

  ghost predicate ProposalsOk(a: Authority, bindings: map<Id, Binding>, proposals: map<Id, Proposal>) {
    forall e :: e in proposals ==> ProposalOk(a, bindings, proposals[e])
  }

  ghost predicate ProposalOk(a: Authority, bindings: map<Id, Binding>, p: Proposal) {
    && p.domain == a.domain
    && p.device == DeviceInstanceId(p.operationalKey)
    && Bound(bindings, KeyId(p.operationalKey), p.hardware)
    && RevisionFits(p.state, p.revision)
  }

  predicate RevisionFits(state: ProposalState, revision: nat) {
    match state
    case PendingReview => revision == 1
    case ApprovedAwaitingHandoff | Rejected | Canceled => revision == 2
    case GrantDelivered => revision == 3
    case GrantAcknowledged => revision == 4
    case Expired => 2 <= revision <= 4
    case ClaimRevoked => 3 <= revision <= 4
  }

  ghost predicate DecisionsOk(a: Authority, proposals: map<Id, Proposal>, decisions: map<Id, Decision>) {
    && (forall d :: d in decisions ==> DecisionOk(a, proposals, decisions[d]))
    && (forall d, e :: d in decisions && e in decisions && decisions[d].enrollment == decisions[e].enrollment ==>
          d == e)
  }

  ghost predicate DecisionOk(a: Authority, proposals: map<Id, Proposal>, d: Decision) {
    && d.enrollment in proposals
    && d.domain == a.domain
    && d.expectedRevision == 1
    && d.reviewed == proposals[d.enrollment].manifest
    && DecisionStage(d.approve, proposals[d.enrollment].state)
  }

  predicate DecisionStage(approve: bool, state: ProposalState) {
    if approve then !state.PendingReview? && !state.Rejected? && !state.Canceled? else state.Rejected?
  }

  ghost predicate GrantsOk(a: Authority, proposals: map<Id, Proposal>, decisions: map<Id, Decision>,
                           grants: map<Id, Grant>)
  {
    && (forall g :: g in grants ==> GrantOk(a, proposals, decisions, grants[g]))
    && (forall g, h :: g in grants && h in grants && grants[g].enrollment == grants[h].enrollment ==> g == h)
    && (forall g, h :: g in grants && h in grants && SameIssue(grants[g], grants[h]) ==> g == h)
    && (forall g, k: nat :: g in grants && 1 <= k < grants[g].claimGeneration
          ==> Granted(grants, a.domain, grants[g].hardware, k))
  }

  predicate SameIssue(g: Grant, h: Grant) {
    g.hardware == h.hardware && g.claimGeneration == h.claimGeneration
  }

  ghost predicate GrantOk(a: Authority, proposals: map<Id, Proposal>, decisions: map<Id, Decision>, grant: Grant) {
    && grant.enrollment in proposals
    && grant.decision in decisions
    && decisions[grant.decision].enrollment == grant.enrollment
    && decisions[grant.decision].approve
    && grant.domain == a.domain
    && grant.claimGeneration >= 1
    && var p := proposals[grant.enrollment];
       && grant.hardware == p.hardware
       && grant.manifest == p.manifest
       && grant.operationalKeyId == KeyId(p.operationalKey)
       && grant.ref == DeviceRef(p.device, a.domain, a.domainGeneration, grant.claimGeneration, 1)
  }

  ghost predicate HasDecision(decisions: map<Id, Decision>, enrollment: Id) {
    exists d :: d in decisions && decisions[d].enrollment == enrollment
  }

  ghost predicate HasGrant(grants: map<Id, Grant>, decision: Id) {
    exists g :: g in grants && grants[g].decision == decision
  }

  /** How far a Grant has come, by the state of its Proposal. */
  predicate GrantStage(state: ProposalState, grant: Grant, acked: bool) {
    match state
    case ApprovedAwaitingHandoff => grant.envelope.None? && grant.revokedAt.None? && !acked
    case GrantDelivered => grant.envelope.Some? && grant.deliveredAt.Some? && grant.revokedAt.None? && !acked
    case GrantAcknowledged => grant.envelope.Some? && grant.deliveredAt.Some? && acked
    case Expired | ClaimRevoked => grant.revokedAt.Some? && !acked
    case _ => false
  }

  predicate GrantStaged(proposals: map<Id, Proposal>, grant: Grant, acked: bool) {
    grant.enrollment in proposals && GrantStage(proposals[grant.enrollment].state, grant, acked)
  }

  /** States only a Decision leads to. */
  predicate Settled(state: ProposalState) {
    !state.PendingReview? && !state.Canceled? && !state.Expired?
  }

  /** Every approval has its Grant, and every state only a Decision leads to has its Decision. */
  ghost predicate LinksOk(proposals: map<Id, Proposal>, decisions: map<Id, Decision>, grants: map<Id, Grant>) {
    && (forall d :: d in decisions && decisions[d].approve ==> HasGrant(grants, d))
    && (forall e :: e in proposals && Settled(proposals[e].state) ==> HasDecision(decisions, e))
  }

  ghost predicate StagesOk(proposals: map<Id, Proposal>, grants: map<Id, Grant>, acks: map<Id, Ack>) {
    && (forall g :: g in grants ==> GrantStaged(proposals, grants[g], g in acks))
    && (forall g :: g in acks ==>
          g in grants && acks[g].enrollment == grants[g].enrollment && acks[g].ref == grants[g].ref)
  }

  /** Grant g is where this Claim comes from. */
  ghost predicate Backs(proposals: map<Id, Proposal>, decisions: map<Id, Decision>, grants: map<Id, Grant>,
                        acks: map<Id, Ack>, device: DeviceId, claim: Claim, g: Id)
  {
    && g in grants
    && grants[g].decision == claim.decision
    && grants[g].ref == ClaimRef(device, claim)
    && grants[g].hardware == claim.hardware
    && grants[g].manifest == claim.manifest
    && grants[g].enrollment in proposals
    && proposals[grants[g].enrollment].operationalKey == claim.operationalKey
    && claim.decision in decisions
    && decisions[claim.decision].owner == claim.owner
    && (claim.state == Active ==> g in acks && grants[g].revokedAt.None?)
    && (claim.state == Revoked ==> grants[g].revokedAt.Some?)
  }

  ghost predicate Backed(proposals: map<Id, Proposal>, decisions: map<Id, Decision>, grants: map<Id, Grant>,
                         acks: map<Id, Ack>, device: DeviceId, claim: Claim)
  {
    claim.revision >= 1 && exists g :: Backs(proposals, decisions, grants, acks, device, claim, g)
  }

  ghost predicate ClaimsOk(proposals: map<Id, Proposal>, decisions: map<Id, Decision>, grants: map<Id, Grant>,
                           acks: map<Id, Ack>, claims: map<DeviceId, Claim>)
  {
    forall c :: c in claims ==> Backed(proposals, decisions, grants, acks, c, claims[c])
  }

  /** The revisions of one device's events, in stream order. */
  ghost function Revisions(stream: seq<ClaimEvent>, device: DeviceId): seq<nat>
    decreases |stream|
  {
    if stream == [] then []
    else
      var last := stream[|stream| - 1];
      Revisions(stream[..|stream| - 1], device) + (if last.ref.device == device then [last.revision] else [])
  }

  ghost function Latest(stream: seq<ClaimEvent>, device: DeviceId): Option<ClaimEvent>
    decreases |stream|
  {
    if stream == [] then None
    else
      var last := stream[|stream| - 1];
      if last.ref.device == device then Some(last) else Latest(stream[..|stream| - 1], device)
  }

  ghost function UpTo(n: nat): seq<nat> {
    seq(n, i => i + 1)
  }

  ghost function CurrentRevision(claims: map<DeviceId, Claim>, device: DeviceId): nat {
    if device in claims then claims[device].revision else 0
  }

  /** Two events of one DeviceRef can only be its activation followed by its revocation. */
  predicate InOrder(earlier: ClaimEvent, later: ClaimEvent) {
    earlier.ref == later.ref ==> earlier.body.Activation? && later.body.Revocation?
  }

  /** An event speaks of a Grant that was acknowledged, or of one that was revoked. */
  ghost predicate Sourced(grants: map<Id, Grant>, acks: map<Id, Ack>, event: ClaimEvent, g: Id) {
    && g in grants && grants[g].ref == event.ref
    && (event.body.Activation? ==> g in acks)
    && (event.body.Revocation? ==> grants[g].revokedAt.Some?)
  }

  ghost predicate HasSource(grants: map<Id, Grant>, acks: map<Id, Ack>, event: ClaimEvent) {
    exists g :: Sourced(grants, acks, event, g)
  }

  /** Claims are the last word of their device's events. */
  ghost predicate TellsClaim(claims: map<DeviceId, Claim>, device: DeviceId, latest: Option<ClaimEvent>) {
    match latest
    case None => device !in claims
    case Some(event) =>
      && device in claims
      && ClaimRef(device, claims[device]) == event.ref
      && (claims[device].state == Active) == event.body.Activation?
      && claims[device].revision == event.revision
  }

  ghost predicate StreamOk(grants: map<Id, Grant>, acks: map<Id, Ack>, claims: map<DeviceId, Claim>,
                           outbox: map<Id, ClaimEvent>, stream: seq<ClaimEvent>)
  {
    && (forall i :: 0 <= i < |stream| ==> stream[i].id in outbox && outbox[stream[i].id] == stream[i])
    && (forall i, j :: 0 <= i < j < |stream| ==> stream[i].id != stream[j].id)
    && (forall i :: 0 <= i < |stream| ==> HasSource(grants, acks, stream[i]))
    && (forall i, j :: 0 <= i < j < |stream| ==> InOrder(stream[i], stream[j]))
    && (forall d :: Revisions(stream, d) == UpTo(CurrentRevision(claims, d)))
    && (forall d :: TellsClaim(claims, d, Latest(stream, d)))
  }

  predicate RowFits(claim: Claim, row: DeviceRow) {
    && row.domainGeneration == claim.domainGeneration
    && row.claimGeneration == claim.claimGeneration
    && row.trustEpoch == claim.trustEpoch
    && row.owner == claim.owner
    && (row.approved <==> claim.state == Active)
  }

  ghost predicate DevicesOk(claims: map<DeviceId, Claim>, devices: map<DeviceId, DeviceRow>) {
    && (forall d :: d in devices ==> d in claims && RowFits(claims[d], devices[d]))
    && (forall d :: d in claims && claims[d].state == Active ==> d in devices)
  }

  /** A saved collection result holds the one envelope of its enrollment's Grant. */
  ghost predicate ResultsOk(grants: map<Id, Grant>, results: map<CommandKey, SavedResult>) {
    forall k :: k in results ==> ResultOk(grants, results[k])
  }

  predicate ResultOk(grants: map<Id, Grant>, saved: SavedResult) {
    && saved.request.CollectRequest? == saved.result.Collected?
    && (saved.result.Collected? ==>
      var r := saved.result;
      && saved.request.enrollment == r.enrollment
      && r.grant in grants && grants[r.grant].enrollment == r.enrollment
      && grants[r.grant].envelope == Some(r.envelope))
  }

  ghost predicate Inv(a: Authority, s: State) {
    && BindingsOk(a, s.bindings)
    && ProposalsOk(a, s.bindings, s.proposals)
    && DecisionsOk(a, s.proposals, s.decisions)
    && GrantsOk(a, s.proposals, s.decisions, s.grants)
    && LinksOk(s.proposals, s.decisions, s.grants)
    && StagesOk(s.proposals, s.grants, s.acks)
    && ClaimsOk(s.proposals, s.decisions, s.grants, s.acks, s.claims)
    && StreamOk(s.grants, s.acks, s.claims, s.outbox, s.stream)
    && DevicesOk(s.claims, s.devices)
    && ResultsOk(s.grants, s.results)
  }

  // Consequences used below and by the run theorems

  lemma KeyFixesHardware(a: Authority, bindings: map<Id, Binding>, keyId: KeyId, h: Id, i: Id)
    requires BindingsOk(a, bindings) && Bound(bindings, keyId, h) && Bound(bindings, keyId, i)
    ensures h == i
  {
  }

  lemma DeviceFixesHardware(a: Authority, s: State, e: Id, f: Id)
    requires BindingsOk(a, s.bindings) && ProposalsOk(a, s.bindings, s.proposals)
    requires e in s.proposals && f in s.proposals && s.proposals[e].device == s.proposals[f].device
    ensures s.proposals[e].operationalKey == s.proposals[f].operationalKey
    ensures s.proposals[e].hardware == s.proposals[f].hardware
  {
    var k, l := s.proposals[e].operationalKey, s.proposals[f].operationalKey;
    KeyFixesHardware(a, s.bindings, KeyId(k), s.proposals[e].hardware, s.proposals[f].hardware);
  }

  /** At most one Grant ever carries a DeviceRef. */
  lemma RefFixesGrant(a: Authority, s: State, g: Id, h: Id)
    requires BindingsOk(a, s.bindings) && ProposalsOk(a, s.bindings, s.proposals)
    requires GrantsOk(a, s.proposals, s.decisions, s.grants)
    requires g in s.grants && h in s.grants && s.grants[g].ref == s.grants[h].ref
    ensures g == h
  {
    DeviceFixesHardware(a, s, s.grants[g].enrollment, s.grants[h].enrollment);
  }

  lemma InvEmpty(a: Authority)
    ensures Inv(a, EmptyState)
  {
  }

  // What a transaction may do to rows that exist

  /** The Proposal is untouched or made one allowed move. */
  predicate Moved(p: Proposal, p': Proposal) {
    || p' == p
    || (AllowedTransition(p.state, p'.state)
        && p' == p.(state := p'.state, revision := p.revision + 1, updatedAt := p'.updatedAt))
  }

  /** Only delivery and revocation marks of a Grant change, and neither is ever taken back. */
  predicate GrantKept(g: Grant, g': Grant) {
    && g' == g.(envelope := g'.envelope, deliveredAt := g'.deliveredAt, revokedAt := g'.revokedAt)
    && (g.envelope.Some? ==> g'.envelope == g.envelope)
    && (g.revokedAt.Some? ==> g'.revokedAt.Some?)
  }

  ghost predicate ProposalsKept(proposals: map<Id, Proposal>, proposals': map<Id, Proposal>) {
    forall e :: e in proposals ==> e in proposals' && Moved(proposals[e], proposals'[e])
  }

  ghost predicate GrantsKept(grants: map<Id, Grant>, grants': map<Id, Grant>) {
    forall g :: g in grants ==> g in grants' && GrantKept(grants[g], grants'[g])
  }

  /** Rows are added, never changed or dropped. */
  ghost predicate Grown<K, V>(m: map<K, V>, m': map<K, V>) {
    forall k :: k in m ==> k in m' && m'[k] == m[k]
  }

  // Frames: one group of the invariant at a time

  lemma MovesKeepProposals(a: Authority, bindings: map<Id, Binding>, bindings': map<Id, Binding>,
                           proposals: map<Id, Proposal>, proposals': map<Id, Proposal>)
    requires ProposalsOk(a, bindings, proposals)
    requires bindings' == bindings || Grown(bindings, bindings')
    requires proposals'.Keys == proposals.Keys && ProposalsKept(proposals, proposals')
    ensures ProposalsOk(a, bindings', proposals')
  {
    forall e | e in proposals' ensures ProposalOk(a, bindings', proposals'[e]) {
      assert ProposalOk(a, bindings, proposals[e]) && Moved(proposals[e], proposals'[e]);
      var b :| b in bindings && bindings[b].keyId == KeyId(proposals[e].operationalKey)
        && bindings[b].hardware == proposals[e].hardware;
      assert b in bindings';
    }
  }

  lemma MovesKeepDecisions(a: Authority, proposals: map<Id, Proposal>, proposals': map<Id, Proposal>,
                           decisions: map<Id, Decision>)
    requires DecisionsOk(a, proposals, decisions) && ProposalsKept(proposals, proposals')
    ensures DecisionsOk(a, proposals', decisions)
  {
    forall d | d in decisions ensures DecisionOk(a, proposals', decisions[d]) {
      assert DecisionOk(a, proposals, decisions[d])
        && Moved(proposals[decisions[d].enrollment], proposals'[decisions[d].enrollment]);
    }
  }

  lemma GrantStaysOk(a: Authority, proposals: map<Id, Proposal>, proposals': map<Id, Proposal>,
                     decisions: map<Id, Decision>, decisions': map<Id, Decision>, grant: Grant, grant': Grant)
    requires GrantOk(a, proposals, decisions, grant) && GrantKept(grant, grant')
    requires ProposalsKept(proposals, proposals') && Grown(decisions, decisions')
    ensures GrantOk(a, proposals', decisions', grant')
  {
    assert Moved(proposals[grant.enrollment], proposals'[grant.enrollment]);
  }

  lemma MovesKeepGrants(a: Authority, proposals: map<Id, Proposal>, proposals': map<Id, Proposal>,
                        decisions: map<Id, Decision>, grants: map<Id, Grant>, grants': map<Id, Grant>)
    requires GrantsOk(a, proposals, decisions, grants)
    requires ProposalsKept(proposals, proposals')
    requires grants'.Keys == grants.Keys && GrantsKept(grants, grants')
    ensures GrantsOk(a, proposals', decisions, grants')
  {
    SameGenerations(a, grants, grants');
    forall g | g in grants' ensures GrantOk(a, proposals', decisions, grants'[g]) {
      GrantStaysOk(a, proposals, proposals', decisions, decisions, grants[g], grants'[g]);
    }
    forall g, h | g in grants' && h in grants' && SameIssue(grants'[g], grants'[h]) ensures g == h {
      assert SameIssue(grants[g], grants[h]);
    }
  }

  lemma MovesKeepHasGrant(decisions: map<Id, Decision>, grants: map<Id, Grant>, grants': map<Id, Grant>)
    requires forall d :: d in decisions && decisions[d].approve ==> HasGrant(grants, d)
    requires GrantsKept(grants, grants')
    ensures forall d :: d in decisions && decisions[d].approve ==> HasGrant(grants', d)
  {
    forall d | d in decisions && decisions[d].approve ensures HasGrant(grants', d) {
      var g :| g in grants && grants[g].decision == d;
      assert g in grants';
    }
  }

  /** Claims nobody touched keep their backing, as long as no Grant is revoked under one. */
  lemma ClaimsStay(s: State, s': State)
    requires ClaimsOk(s.proposals, s.decisions, s.grants, s.acks, s.claims)
    requires s'.claims == s.claims && s.acks.Keys <= s'.acks.Keys
    requires ProposalsKept(s.proposals, s'.proposals) && Grown(s.decisions, s'.decisions)
    requires GrantsKept(s.grants, s'.grants)
    requires forall g :: g in s.acks && g in s.grants ==> s'.grants[g] == s.grants[g]
    ensures ClaimsOk(s'.proposals, s'.decisions, s'.grants, s'.acks, s'.claims)
  {
    forall c | c in s'.claims ensures Backed(s'.proposals, s'.decisions, s'.grants, s'.acks, c, s'.claims[c]) {
      var g :| Backs(s.proposals, s.decisions, s.grants, s.acks, c, s.claims[c], g);
      BackingStays(s, s', c, g);
    }
  }

  lemma BackingStays(s: State, s': State, c: DeviceId, g: Id)
    requires c in s.claims && c in s'.claims && s'.claims[c] == s.claims[c]
    requires Backs(s.proposals, s.decisions, s.grants, s.acks, c, s.claims[c], g)
    requires s.acks.Keys <= s'.acks.Keys
    requires ProposalsKept(s.proposals, s'.proposals) && Grown(s.decisions, s'.decisions)
    requires GrantsKept(s.grants, s'.grants)
    requires s.claims[c].state == Active ==> s'.grants[g].revokedAt == s.grants[g].revokedAt
    ensures Backs(s'.proposals, s'.decisions, s'.grants, s'.acks, c, s'.claims[c], g)
  {
    assert Moved(s.proposals[s.grants[g].enrollment], s'.proposals[s.grants[g].enrollment]);
    assert GrantKept(s.grants[g], s'.grants[g]);
  }

  /** The stream stays in step when it, its outbox copies and the Claims are left alone. */
  lemma StreamStays(s: State, s': State)
    requires StreamOk(s.grants, s.acks, s.claims, s.outbox, s.stream)
    requires s'.claims == s.claims && s'.outbox == s.outbox && s'.stream == s.stream
    requires GrantsKept(s.grants, s'.grants) && s.acks.Keys <= s'.acks.Keys
    ensures StreamOk(s'.grants, s'.acks, s'.claims, s'.outbox, s'.stream)
  {
    forall i | 0 <= i < |s'.stream| ensures HasSource(s'.grants, s'.acks, s'.stream[i]) {
      SourceStays(s.grants, s'.grants, s.acks, s'.acks, s.stream[i]);
    }
  }

  lemma SourceStays(grants: map<Id, Grant>, grants': map<Id, Grant>, acks: map<Id, Ack>, acks': map<Id, Ack>,
                    event: ClaimEvent)
    requires HasSource(grants, acks, event) && GrantsKept(grants, grants') && acks.Keys <= acks'.Keys
    ensures HasSource(grants', acks', event)
  {
    var g :| Sourced(grants, acks, event, g);
    assert GrantKept(grants[g], grants'[g]);
    assert Sourced(grants', acks', event, g);
  }

  lemma ResultsStay(grants: map<Id, Grant>, grants': map<Id, Grant>, results: map<CommandKey, SavedResult>)
    requires ResultsOk(grants, results) && GrantsKept(grants, grants')
    ensures ResultsOk(grants', results)
  {
    forall k | k in results ensures ResultOk(grants', results[k]) {
      if results[k].result.Collected? {
        assert ResultOk(grants, results[k])
          && GrantKept(grants[results[k].result.grant], grants'[results[k].result.grant]);
      }
    }
  }

  lemma SameGenerations(a: Authority, grants: map<Id, Grant>, grants': map<Id, Grant>)
    requires grants'.Keys == grants.Keys && GrantsKept(grants, grants')
    requires forall g, k: nat :: g in grants && 1 <= k < grants[g].claimGeneration ==>
      Granted(grants, a.domain, grants[g].hardware, k)
    ensures forall g, k: nat :: g in grants' && 1 <= k < grants'[g].claimGeneration ==>
      Granted(grants', a.domain, grants'[g].hardware, k)
  {
    forall g, k: nat | g in grants' && 1 <= k < grants'[g].claimGeneration
      ensures Granted(grants', a.domain, grants'[g].hardware, k)
    {
      assert Granted(grants, a.domain, grants[g].hardware, k);
      var h :| h in grants && grants[h].domain == a.domain && grants[h].hardware == grants[g].hardware
        && grants[h].claimGeneration == k;
      assert h in grants';
    }
  }
}
