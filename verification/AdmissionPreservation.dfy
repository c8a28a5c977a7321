/** Every Admission transaction keeps the invariant. */
module AdmissionPreservation {
  import opened Prelude
  import opened AdmissionDomain
  import opened AdmissionTables
  import opened AdmissionCommands
  import opened AdmissionInvariant

  // Creation

  lemma AskKeeps(a: Authority, s: State, verified: Verified, hardware: Id, keyId: KeyId, now: Moment)
    requires BindingsOk(a, s.bindings) && HardwareRef(verified.base) == Some(hardware)
    ensures var asked := Ask(a, s, verified, hardware, keyId, now);
      asked.Ok? ==>
        && asked.value == s.(bindings := asked.value.bindings, vouchers := asked.value.vouchers)
        && BindingsOk(a, asked.value.bindings)
        && Grown(s.bindings, asked.value.bindings)
        && Bound(asked.value.bindings, keyId, hardware)
  {
    hide HardwareRef;
    var asked := Ask(a, s, verified, hardware, keyId, now);
    if asked.Ok? {
      assert asked.value == s.(bindings := asked.value.bindings, vouchers := asked.value.vouchers);
      var bindings := asked.value.bindings;
      assert verified.base in bindings && bindings[verified.base].keyId == keyId
        && bindings[verified.base].hardware == hardware;
      assert bindings == s.bindings || (verified.base !in s.bindings && BindingForKey(s.bindings, keyId).None?
                                        && bindings == s.bindings[verified.base := bindings[verified.base]]);
    }
  }

  lemma SavingKeeps(a: Authority, s: State, key: CommandKey, request: Request, result: CommandResult)
    requires Inv(a, s)
    requires ResultOk(s.grants, SavedResult(request, result))
    ensures Inv(a, Save(s, key, request, result))
  {
    hide BindingsOk, ProposalsOk, DecisionsOk, GrantsOk, LinksOk, StagesOk, ClaimsOk, StreamOk, DevicesOk, ResultsOk;
    ResultSaved(s.grants, s.results, key, SavedResult(request, result));
  }

  lemma ProposingKeeps(a: Authority, s: State, s': State, e: Id, p: Proposal)
    requires Inv(a, s) && e !in s.proposals
    requires BindingsOk(a, s'.bindings) && Grown(s.bindings, s'.bindings)
    requires ProposalOk(a, s'.bindings, p) && p.state == PendingReview
    requires s' == s.(proposals := s.proposals[e := p], bindings := s'.bindings, vouchers := s'.vouchers)
    ensures Inv(a, s')
  {
    hide BindingsOk, ProposalsOk, DecisionsOk, GrantsOk, LinksOk, StagesOk, ClaimsOk, StreamOk, DevicesOk, ResultsOk;
    ProposalAdded(a, s, s', e, p);
    MovesKeepDecisions(a, s.proposals, s'.proposals, s.decisions);
    MovesKeepGrants(a, s.proposals, s'.proposals, s.decisions, s.grants, s.grants);
    ClaimsStay(s, s');
  }

  lemma ProposalAdded(a: Authority, s: State, s': State, e: Id, p: Proposal)
    requires ProposalsOk(a, s.bindings, s.proposals)
    requires LinksOk(s.proposals, s.decisions, s.grants) && StagesOk(s.proposals, s.grants, s.acks)
    requires e !in s.proposals && Grown(s.bindings, s'.bindings)
    requires ProposalOk(a, s'.bindings, p) && p.state == PendingReview
    requires s' == s.(proposals := s.proposals[e := p], bindings := s'.bindings, vouchers := s'.vouchers)
    ensures ProposalsOk(a, s'.bindings, s'.proposals)
    ensures LinksOk(s'.proposals, s'.decisions, s'.grants) && StagesOk(s'.proposals, s'.grants, s'.acks)
  {
    hide Bound, HasGrant, HasDecision, GrantStage;
    MovesKeepProposals(a, s.bindings, s'.bindings, s.proposals, s.proposals);
  }

  // Decision

  ghost predicate Undecided(s: State, e: Id, actorDomain: Id) {
    e in s.proposals && s.proposals[e].state == PendingReview && s.proposals[e].domain == actorDomain
  }

  lemma PendingHasNoDecision(a: Authority, s: State, e: Id)
    requires DecisionsOk(a, s.proposals, s.decisions) && StagesOk(s.proposals, s.grants, s.acks)
    requires Undecided(s, e, a.domain)
    ensures !HasDecision(s.decisions, e)
    ensures forall g :: g in s.grants ==> s.grants[g].enrollment != e
  {
    forall d | d in s.decisions ensures s.decisions[d].enrollment != e {
      assert DecisionOk(a, s.proposals, s.decisions[d]);
    }
  }

  /** The Grant of the next generation neither repeats a generation nor leaves a gap. */
  lemma NextGenerationFits(a: Authority, proposals: map<Id, Proposal>, decisions: map<Id, Decision>,
                           grants: map<Id, Grant>, g: Id, grant: Grant)
    requires GrantsOk(a, proposals, decisions, grants) && g !in grants
    requires GrantOk(a, proposals, decisions, grant)
    requires grant.claimGeneration == MaxGeneration(grants, a.domain, grant.hardware) + 1
    requires forall h :: h in grants ==> grants[h].enrollment != grant.enrollment
    ensures GrantsOk(a, proposals, decisions, grants[g := grant])
  {
    var grants' := grants[g := grant];
    forall h | h in grants ensures !SameIssue(grants[h], grant) {
      assert GrantOk(a, proposals, decisions, grants[h]);
    }
    forall h, k: nat | h in grants' && 1 <= k < grants'[h].claimGeneration
      ensures Granted(grants', a.domain, grants'[h].hardware, k)
    {
      hide GrantOk, SameIssue;
      NoGap(a, proposals, decisions, grants, grants'[h].hardware, k,
            if h == g then MaxGeneration(grants, a.domain, grant.hardware) else k);
      GrantedStays(grants, grants', a.domain, grants'[h].hardware, k);
    }
  }

  /** Below a generation that was granted, or at it, every generation was granted. */
  lemma NoGap(a: Authority, proposals: map<Id, Proposal>, decisions: map<Id, Decision>, grants: map<Id, Grant>,
              hardware: Id, k: nat, n: nat)
    requires GrantsOk(a, proposals, decisions, grants) && 1 <= k <= n && Granted(grants, a.domain, hardware, n)
    ensures Granted(grants, a.domain, hardware, k)
  {
    hide GrantOk, SameIssue;
    var top :| top in grants && grants[top].domain == a.domain && grants[top].hardware == hardware
      && grants[top].claimGeneration == n;
  }

  lemma GrantedStays(grants: map<Id, Grant>, grants': map<Id, Grant>, domain: Id, hardware: Id, k: nat)
    requires Granted(grants, domain, hardware, k)
    requires forall g :: g in grants ==> g in grants' && grants'[g] == grants[g]
    ensures Granted(grants', domain, hardware, k)
  {
    var h :| h in grants && grants[h].domain == domain && grants[h].hardware == hardware
      && grants[h].claimGeneration == k;
    assert h in grants';
  }

  lemma DecidingKeeps(a: Authority, s: State, e: Id, approve: bool, actor: Actor, owner: Id, reviewed: ManifestRef,
                      ids: DecisionIds, now: Moment)
    requires Inv(a, s) && Undecided(s, e, a.domain) && reviewed == s.proposals[e].manifest
    ensures var decided := DecideInSession(a, s, e, approve, actor, owner, reviewed, ids, now);
      decided.Ok? ==> Inv(a, decided.value) && ids.decision !in s.decisions
  {
    hide BindingsOk, ProposalsOk, DecisionsOk, GrantsOk, LinksOk, StagesOk, ClaimsOk, StreamOk, DevicesOk, ResultsOk,
      DecideInSession, ProposalOk, DecisionOk, GrantOk, ProposalsKept, GrantsKept, Grown, MaxGeneration;
    var decided := DecideInSession(a, s, e, approve, actor, owner, reviewed, ids, now);
    if decided.Ok? {
      var s' := decided.value;
      ProposalInDomain(a, s, e);
      PendingHasNoDecision(a, s, e);
      DecidedShape(a, s, e, approve, actor, owner, reviewed, ids, now);
      MovesKeepProposals(a, s.bindings, s.bindings, s.proposals, s'.proposals);
      DecisionAdded(a, s, s', e, ids.decision);
      GrantAdded(a, s, s', e, approve, ids);
      LinksDecided(s.proposals, s'.proposals, s.decisions, s.grants, e, ids.decision, s'.decisions[ids.decision],
                   ids.grant, if approve then s'.grants[ids.grant]
                              else NewGrant(a, s.proposals[e], e, ids.decision, 1, reviewed, now));
      StagesDecided(a, s, s', e, approve, ids);
      ClaimsStay(s, s');
      StreamStays(s, s');
      ResultsStay(s.grants, s'.grants, s.results);
    }
  }

  lemma DecisionWritten(a: Authority, s: State, e: Id, approve: bool, actor: Actor, owner: Id, reviewed: ManifestRef,
                        ids: DecisionIds, now: Moment)
    requires e in s.proposals
    ensures var decided := DecideInSession(a, s, e, approve, actor, owner, reviewed, ids, now);
      decided.Ok? ==> ids.decision in decided.value.decisions && decided.value.results == s.results
  {
    hide MaxGeneration;
  }

  lemma DecideOutcome(a: Authority, s: State, key: CommandKey, request: Request, ids: DecisionIds, now: Moment)
    requires request.DecideRequest? && request.enrollment in s.proposals
    ensures var decided := DecideInSession(a, s, request.enrollment, request.approve, request.actor,
                                           request.targetOwner, request.reviewed, ids, now);
      if decided.Err? then DecideNow(a, s, key, request, ids, now) == (s, Refused(decided.error))
      else
        && ids.decision in decided.value.decisions
        && var result := Decided(ids.decision, decided.value.decisions[ids.decision],
                                 if request.approve then Some(ids.grant) else None,
                                 s.proposals[request.enrollment].revision, now);
        DecideNow(a, s, key, request, ids, now) == (Save(decided.value, key, request, result), Committed(result))
  {
    DecisionWritten(a, s, request.enrollment, request.approve, request.actor, request.targetOwner, request.reviewed,
                    ids, now);
    hide DecideInSession;
  }

  lemma DecidedShape(a: Authority, s: State, e: Id, approve: bool, actor: Actor, owner: Id, reviewed: ManifestRef,
                     ids: DecisionIds, now: Moment)
    requires e in s.proposals && ProposalOk(a, s.bindings, s.proposals[e])
    requires s.proposals[e].state == PendingReview && reviewed == s.proposals[e].manifest
    requires DecideInSession(a, s, e, approve, actor, owner, reviewed, ids, now).Ok?
    ensures var s' := DecideInSession(a, s, e, approve, actor, owner, reviewed, ids, now).value;
      && s' == s.(proposals := s'.proposals, decisions := s'.decisions, grants := s'.grants)
      && e in s'.proposals && s'.proposals == s.proposals[e := s'.proposals[e]]
      && s'.proposals[e].state == (if approve then ApprovedAwaitingHandoff else Rejected)
      && ProposalsKept(s.proposals, s'.proposals)
      && ids.decision !in s.decisions && ids.decision in s'.decisions
      && s'.decisions == s.decisions[ids.decision := s'.decisions[ids.decision]]
      && s'.decisions[ids.decision].enrollment == e && s'.decisions[ids.decision].approve == approve
      && DecisionOk(a, s'.proposals, s'.decisions[ids.decision])
      && GrantsKept(s.grants, s'.grants) && Grown(s.decisions, s'.decisions)
      && (forall g :: g in s.grants ==> g in s'.grants && s'.grants[g] == s.grants[g])
      && (!approve ==> s'.grants == s.grants)
      && (approve ==>
        && ids.grant !in s.grants && ids.grant in s'.grants && s'.grants == s.grants[ids.grant := s'.grants[ids.grant]]
        && s'.grants[ids.grant].enrollment == e && s'.grants[ids.grant].decision == ids.decision
        && s'.grants[ids.grant].envelope.None? && s'.grants[ids.grant].revokedAt.None?
        && GrantOk(a, s'.proposals, s'.decisions, s'.grants[ids.grant])
        && s'.grants[ids.grant].claimGeneration == MaxGeneration(s.grants, a.domain, s'.grants[ids.grant].hardware) + 1)
  {
  }

  lemma DecisionAdded(a: Authority, s: State, s': State, e: Id, d: Id)
    requires DecisionsOk(a, s.proposals, s.decisions) && !HasDecision(s.decisions, e) && d !in s.decisions
    requires ProposalsKept(s.proposals, s'.proposals)
    requires d in s'.decisions && s'.decisions == s.decisions[d := s'.decisions[d]]
    requires DecisionOk(a, s'.proposals, s'.decisions[d]) && s'.decisions[d].enrollment == e
    ensures DecisionsOk(a, s'.proposals, s'.decisions)
  {
    MovesKeepDecisions(a, s.proposals, s'.proposals, s.decisions);
  }

  lemma GrantAdded(a: Authority, s: State, s': State, e: Id, approve: bool, ids: DecisionIds)
    requires GrantsOk(a, s.proposals, s.decisions, s.grants)
    requires ProposalsKept(s.proposals, s'.proposals)
    requires ids.decision !in s.decisions && ids.decision in s'.decisions
    requires s'.decisions == s.decisions[ids.decision := s'.decisions[ids.decision]]
    requires forall g :: g in s.grants ==> s.grants[g].enrollment != e
    requires if !approve then s'.grants == s.grants
             else ids.grant !in s.grants && ids.grant in s'.grants
                  && s'.grants == s.grants[ids.grant := s'.grants[ids.grant]]
                  && GrantOk(a, s'.proposals, s'.decisions, s'.grants[ids.grant])
                  && s'.grants[ids.grant].enrollment == e
                  && s'.grants[ids.grant].claimGeneration
                    == MaxGeneration(s.grants, a.domain, s'.grants[ids.grant].hardware) + 1
    ensures GrantsOk(a, s'.proposals, s'.decisions, s'.grants)
  {
    forall g | g in s.grants ensures GrantOk(a, s'.proposals, s'.decisions, s.grants[g]) {
      GrantStaysOk(a, s.proposals, s'.proposals, s.decisions, s'.decisions, s.grants[g], s.grants[g]);
    }
    assert GrantsOk(a, s'.proposals, s'.decisions, s.grants);
    if approve {
      NextGenerationFits(a, s'.proposals, s'.decisions, s.grants, ids.grant, s'.grants[ids.grant]);
    }
  }

  lemma LinksDecided(proposals: map<Id, Proposal>, proposals': map<Id, Proposal>, decisions: map<Id, Decision>,
                     grants: map<Id, Grant>, e: Id, d: Id, decision: Decision, g: Id, grant: Grant)
    requires LinksOk(proposals, decisions, grants)
    requires e in proposals' && proposals' == proposals[e := proposals'[e]]
    requires d !in decisions && decision.enrollment == e
    requires decision.approve ==> g !in grants && grant.decision == d
    ensures LinksOk(proposals', decisions[d := decision], if decision.approve then grants[g := grant] else grants)
  {
    var decisions' := decisions[d := decision];
    var grants' := if decision.approve then grants[g := grant] else grants;
    forall x | x in decisions' && decisions'[x].approve ensures HasGrant(grants', x) {
      if x == d {
        assert g in grants' && grants'[g].decision == d;
      } else {
        var h :| h in grants && grants[h].decision == x;
        assert h in grants' && grants'[h].decision == x;
      }
    }
    forall f | f in proposals' && Settled(proposals'[f].state) ensures HasDecision(decisions', f) {
      if f == e {
        assert d in decisions' && decisions'[d].enrollment == e;
      } else {
        var x :| x in decisions && decisions[x].enrollment == f;
        assert x in decisions' && decisions'[x].enrollment == f;
      }
    }
  }

  lemma StagesDecided(a: Authority, s: State, s': State, e: Id, approve: bool, ids: DecisionIds)
    requires StagesOk(s.proposals, s.grants, s.acks)
    requires e in s'.proposals && s'.proposals == s.proposals[e := s'.proposals[e]]
    requires s'.proposals[e].state == if approve then ApprovedAwaitingHandoff else Rejected
    requires forall g :: g in s.grants ==> s.grants[g].enrollment != e
    requires s'.acks == s.acks
    requires if !approve then s'.grants == s.grants
             else ids.grant !in s.grants && ids.grant in s'.grants
                  && s'.grants == s.grants[ids.grant := s'.grants[ids.grant]]
                  && s'.grants[ids.grant].enrollment == e && s'.grants[ids.grant].decision == ids.decision
                  && s'.grants[ids.grant].envelope.None? && s'.grants[ids.grant].revokedAt.None?
    ensures StagesOk(s'.proposals, s'.grants, s'.acks)
  {
  }

  lemma CreateKeeps(a: Authority, s: State, commandId: Id, payload: EnrollmentPayload, verified: Option<Verified>,
                    enrollment: Id, challenge: string, ids: DecisionIds, now: Moment)
    requires Inv(a, s)
    ensures Inv(a, CreateTx(a, s, commandId, payload, verified, enrollment, challenge, ids, now).0)
  {
    hide BindingsOk, ProposalsOk, DecisionsOk, GrantsOk, LinksOk, StagesOk, ClaimsOk, StreamOk, DevicesOk, ResultsOk,
      DecideInSession, Ask, HardwareRef;
    var key := CommandKey(payload.domain, CreateKind, commandId);
    if payload.domain == a.domain && Answer(Replay(s.results, key, CreateRequest(payload))).None?
       && PayloadProblem(payload, verified).None?
    {
      var hardware := HardwareRef(verified.value.base).value;
      var keyId := KeyId(payload.operationalKey);
      var asked := Ask(a, s, verified.value, hardware, keyId, now);
      AskKeeps(a, s, verified.value, hardware, keyId, now);
      if asked.Ok? && enrollment !in s.proposals {
        var p := NewProposal(a, payload, hardware, challenge, now);
        var proposed := asked.value.(proposals := s.proposals[enrollment := p]);
        ProposingKeeps(a, s, proposed, enrollment, p);
        var result := CreatedResult(a, payload, enrollment, challenge, now);
        SavingKeeps(a, proposed, key, CreateRequest(payload), result);
        var saved := Save(proposed, key, CreateRequest(payload), result);
        var jti := StandingFor(a, saved, verified.value, keyId);
        if jti.Some? {
          var standing := saved.standings[jti.value];
          DecidingKeeps(a, saved, enrollment, true, standing.actor, standing.owner, payload.manifest, ids, now);
        }
      }
    }
  }

  lemma ProposalInDomain(a: Authority, s: State, e: Id)
    requires ProposalsOk(a, s.bindings, s.proposals) && e in s.proposals
    ensures ProposalOk(a, s.bindings, s.proposals[e])
  {
  }

  lemma DecideKeeps(a: Authority, s: State, commandId: Id, request: Request, context: Context, ids: DecisionIds,
                    now: Moment)
    requires Inv(a, s) && request.DecideRequest? && request.actor == context.actor
    ensures Inv(a, DecideTx(a, s, commandId, request, context, ids, now).0)
  {
    hide BindingsOk, ProposalsOk, DecisionsOk, GrantsOk, LinksOk, StagesOk, ClaimsOk, StreamOk, DevicesOk, ResultsOk;
    if request.enrollment in s.proposals && s.proposals[request.enrollment].domain == request.targetDomain
       && s.proposals[request.enrollment].state == PendingReview
       && request.reviewed == s.proposals[request.enrollment].manifest
    {
      ProposalInDomain(a, s, request.enrollment);
      assert a.(domain := request.targetDomain) == a;
      DecidingKeeps(a, s, request.enrollment, request.approve, context.actor, request.targetOwner, request.reviewed,
                    ids, now);
      var decided := DecideInSession(a, s, request.enrollment, request.approve, context.actor, request.targetOwner,
                                     request.reviewed, ids, now);
      if decided.Ok? {
        var result := Decided(ids.decision, decided.value.decisions[ids.decision],
                              if request.approve then Some(ids.grant) else None,
                              s.proposals[request.enrollment].revision, now);
        SavingKeeps(a, decided.value, CommandKey(request.targetDomain, DecideKind, commandId), request, result);
      }
    }
  }

  // Moves of existing Proposals

  /** A transaction that only moves Proposals, none of them into a state that needs a new Decision. */
  lemma MovesKeep(a: Authority, s: State, s': State)
    requires Inv(a, s)
    requires s' == s.(proposals := s'.proposals, grants := s'.grants)
    requires s'.proposals.Keys == s.proposals.Keys && ProposalsKept(s.proposals, s'.proposals)
    requires s'.grants.Keys == s.grants.Keys && GrantsKept(s.grants, s'.grants)
    requires forall g :: g in s.acks && g in s.grants ==> s'.grants[g] == s.grants[g]
    requires forall g :: g in s'.grants ==> GrantStaged(s'.proposals, s'.grants[g], g in s.acks)
    requires forall e :: e in s'.proposals && Settled(s'.proposals[e].state) ==> Settled(s.proposals[e].state)
    ensures Inv(a, s')
  {
    hide BindingsOk, ProposalsOk, DecisionsOk, GrantsOk, LinksOk, StagesOk, ClaimsOk, StreamOk, DevicesOk, ResultsOk;
    MovesKeepProposals(a, s.bindings, s.bindings, s.proposals, s'.proposals);
    MovesKeepDecisions(a, s.proposals, s'.proposals, s.decisions);
    MovesKeepGrants(a, s.proposals, s'.proposals, s.decisions, s.grants, s'.grants);
    LinksMoved(s.proposals, s'.proposals, s.decisions, s.grants, s'.grants);
    assert StagesOk(s'.proposals, s'.grants, s'.acks) by { MarksKeepStages(s, s'); }
    ClaimsStay(s, s');
    StreamStays(s, s');
    ResultsStay(s.grants, s'.grants, s.results);
  }

  lemma LinksMoved(proposals: map<Id, Proposal>, proposals': map<Id, Proposal>, decisions: map<Id, Decision>,
                   grants: map<Id, Grant>, grants': map<Id, Grant>)
    requires LinksOk(proposals, decisions, grants)
    requires proposals'.Keys == proposals.Keys && GrantsKept(grants, grants')
    requires forall e :: e in proposals' && Settled(proposals'[e].state) ==> Settled(proposals[e].state)
    ensures LinksOk(proposals', decisions, grants')
  {
    MovesKeepHasGrant(decisions, grants, grants');
  }

  lemma MarksKeepStages(s: State, s': State)
    requires StagesOk(s.proposals, s.grants, s.acks)
    requires s'.acks == s.acks && s'.grants.Keys == s.grants.Keys && GrantsKept(s.grants, s'.grants)
    requires forall g :: g in s'.grants ==> GrantStaged(s'.proposals, s'.grants[g], g in s.acks)
    ensures StagesOk(s'.proposals, s'.grants, s'.acks)
  {
  }

  lemma ExpireKeeps(a: Authority, s: State, now: Moment)
    requires Inv(a, s)
    ensures Inv(a, ExpireTx(s, now))
  {
    hide BindingsOk, ProposalsOk, DecisionsOk, GrantsOk, LinksOk, StagesOk, ClaimsOk, StreamOk, DevicesOk, ResultsOk;
    var s' := ExpireTx(s, now);
    ExpiryStages(s, now);
    MovesKeep(a, s, s');
  }

  lemma ExpiryStages(s: State, now: Moment)
    requires StagesOk(s.proposals, s.grants, s.acks)
    ensures var s' := ExpireTx(s, now);
      && ProposalsKept(s.proposals, s'.proposals)
      && GrantsKept(s.grants, s'.grants)
      && (forall g :: g in s.acks && g in s.grants ==> s'.grants[g] == s.grants[g])
      && (forall g :: g in s'.grants ==> GrantStaged(s'.proposals, s'.grants[g], g in s.acks))
      && (forall e :: e in s'.proposals && Settled(s'.proposals[e].state) ==> Settled(s.proposals[e].state))
  {
    var s' := ExpireTx(s, now);
    forall g | g in s.grants
      ensures GrantKept(s.grants[g], s'.grants[g]) && GrantStaged(s'.proposals, s'.grants[g], g in s.acks)
      ensures g in s.acks ==> s'.grants[g] == s.grants[g]
    {
      assert GrantStaged(s.proposals, s.grants[g], g in s.acks);
    }
  }

  lemma CancelKeeps(a: Authority, s: State, commandId: Id, enrollment: Id, reason: string, context: Context,
                    now: Moment)
    requires Inv(a, s)
    ensures Inv(a, CancelTx(s, commandId, enrollment, reason, context, now).0)
  {
    hide BindingsOk, ProposalsOk, DecisionsOk, GrantsOk, LinksOk, StagesOk, ClaimsOk, StreamOk, DevicesOk, ResultsOk;
    if enrollment in s.proposals && AllowedTransition(s.proposals[enrollment].state, Canceled) {
      var moved := Move(s, enrollment, Canceled, now);
      CancelStages(s, enrollment, now);
      MovesKeep(a, s, moved);
      var result := CanceledResult(enrollment, s.proposals[enrollment].revision + 1, now);
      SavingKeeps(a, moved, CommandKey(context.actor.domain, CancelKind, commandId),
                  CancelRequest(enrollment, reason, context.actor), result);
    }
  }

  lemma CancelStages(s: State, e: Id, now: Moment)
    requires StagesOk(s.proposals, s.grants, s.acks)
    requires e in s.proposals && s.proposals[e].state == PendingReview
    ensures forall g :: g in s.grants ==> GrantStaged(Move(s, e, Canceled, now).proposals, s.grants[g], g in s.acks)
  {
  }

  lemma CollectKeeps(a: Authority, s: State, commandId: Id, enrollment: Id, revision: nat, challenge: string,
                     proof: string, proofValid: bool, sealed: string, now: Moment)
    requires Inv(a, s)
    ensures Inv(a, CollectTx(a, s, commandId, enrollment, revision, challenge, proof, proofValid, sealed, now).0)
  {
    hide BindingsOk, ProposalsOk, DecisionsOk, GrantsOk, LinksOk, StagesOk, ClaimsOk, StreamOk, DevicesOk, ResultsOk;
    var key := CommandKey(a.domain, CollectKind, commandId);
    var request := CollectRequest(enrollment, revision, Sha256(challenge), proof);
    if Answer(Replay(s.results, key, request)).None?
       && CollectProblem(a, s, enrollment, revision, challenge, proofValid, now).None?
    {
      var g := GrantOf(s.grants, enrollment).value;
      var delivered := if s.grants[g].envelope.Some? then s else Deliver(s, enrollment, g, sealed, now);
      if s.grants[g].envelope.None? {
        DeliverKeeps(a, s, enrollment, g, sealed, now);
      }
      var result := CollectedResult(enrollment, g, delivered.grants[g], revision, now);
      SavingKeeps(a, delivered, key, request, result);
    }
  }

  lemma DeliverKeeps(a: Authority, s: State, e: Id, g: Id, sealed: string, now: Moment)
    requires Inv(a, s)
    requires e in s.proposals && (s.proposals[e].state.ApprovedAwaitingHandoff? || s.proposals[e].state.GrantDelivered?)
    requires g in s.grants && s.grants[g].enrollment == e && s.grants[g].envelope.None?
    ensures Inv(a, Deliver(s, e, g, sealed, now))
  {
    hide BindingsOk, ProposalsOk, DecisionsOk, GrantsOk, LinksOk, StagesOk, ClaimsOk, StreamOk, DevicesOk, ResultsOk;
    DeliveryStages(a, s, e, g);
    var p := Reached(s.proposals[e], GrantDelivered, now);
    var grant := s.grants[g].(envelope := Some(sealed), deliveredAt := Some(now));
    MarkOne(a, s.proposals, s.decisions, s.grants, s.acks, e, g, p, grant);
    MovesKeep(a, s, s.(proposals := s.proposals[e := p], grants := s.grants[g := grant]));
  }

  /** One Proposal and its Grant move on together. */
  lemma MarkOne(a: Authority, proposals: map<Id, Proposal>, decisions: map<Id, Decision>, grants: map<Id, Grant>,
                acks: map<Id, Ack>, e: Id, g: Id, p: Proposal, grant: Grant)
    requires GrantsOk(a, proposals, decisions, grants) && StagesOk(proposals, grants, acks)
    requires e in proposals && g in grants && grants[g].enrollment == e && g !in acks
    requires Moved(proposals[e], p) && GrantKept(grants[g], grant) && GrantStage(p.state, grant, false)
    ensures ProposalsKept(proposals, proposals[e := p]) && GrantsKept(grants, grants[g := grant])
    ensures forall h :: h in acks && h in grants ==> grants[g := grant][h] == grants[h]
    ensures forall h :: h in grants ==> GrantStaged(proposals[e := p], grants[g := grant][h], h in acks)
  {
    assert grant.enrollment == e && GrantStaged(proposals[e := p], grant, false);
    hide GrantKept, GrantStage, GrantOk, Granted, SameIssue, Moved;
    forall h | h in grants ensures GrantStaged(proposals[e := p], grants[g := grant][h], h in acks) {
      assert GrantStaged(proposals, grants[h], h in acks);
    }
    assert forall f :: f in proposals ==> Moved(proposals[f], proposals[f]) by { UnmovedIsMoved(proposals); }
    assert forall h :: h in grants ==> GrantKept(grants[h], grants[h]) by { UnmarkedIsKept(grants); }
  }

  lemma UnmovedIsMoved(proposals: map<Id, Proposal>)
    ensures forall f :: f in proposals ==> Moved(proposals[f], proposals[f])
  {
  }

  lemma UnmarkedIsKept(grants: map<Id, Grant>)
    ensures forall h :: h in grants ==> GrantKept(grants[h], grants[h])
  {
  }

  lemma DeliveryStages(a: Authority, s: State, e: Id, g: Id)
    requires StagesOk(s.proposals, s.grants, s.acks)
    requires e in s.proposals && (s.proposals[e].state.ApprovedAwaitingHandoff? || s.proposals[e].state.GrantDelivered?)
    requires g in s.grants && s.grants[g].enrollment == e && s.grants[g].envelope.None?
    ensures s.proposals[e].state == ApprovedAwaitingHandoff && g !in s.acks && s.grants[g].revokedAt.None?
  {
    assert GrantStaged(s.proposals, s.grants[g], g in s.acks);
  }

  // Claim events

  /** Appending the next event of a device keeps the stream telling every Claim. */
  lemma StreamAppended(s: State, s': State, event: ClaimEvent)
    requires StreamOk(s.grants, s.acks, s.claims, s.outbox, s.stream)
    requires GrantsKept(s.grants, s'.grants) && s.acks.Keys <= s'.acks.Keys
    requires event.id !in s.outbox && s'.outbox == s.outbox[event.id := event] && s'.stream == s.stream + [event]
    requires event.ref.device in s'.claims && s'.claims == s.claims[event.ref.device := s'.claims[event.ref.device]]
    requires event.revision == CurrentRevision(s.claims, event.ref.device) + 1
    requires TellsClaim(s'.claims, event.ref.device, Some(event))
    requires HasSource(s'.grants, s'.acks, event)
    requires forall i :: 0 <= i < |s.stream| ==> InOrder(s.stream[i], event)
    ensures StreamOk(s'.grants, s'.acks, s'.claims, s'.outbox, s'.stream)
  {
    hide HasSource, GrantsKept, InOrder;
    forall i | 0 <= i < |s'.stream| ensures HasSource(s'.grants, s'.acks, s'.stream[i]) {
      if i < |s.stream| {
        SourceStays(s.grants, s'.grants, s.acks, s'.acks, s.stream[i]);
      }
    }
    forall d
      ensures Revisions(s'.stream, d) == UpTo(CurrentRevision(s'.claims, d))
      ensures TellsClaim(s'.claims, d, Latest(s'.stream, d))
    {
      ToldOnce(s.claims, s'.claims, s.stream, event, d);
    }
  }

  /** One more event, one more revision: the stream tells every device's Claim again. */
  lemma ToldOnce(claims: map<DeviceId, Claim>, claims': map<DeviceId, Claim>, stream: seq<ClaimEvent>,
                 event: ClaimEvent, d: DeviceId)
    requires event.ref.device in claims' && claims' == claims[event.ref.device := claims'[event.ref.device]]
    requires event.revision == CurrentRevision(claims, event.ref.device) + 1
    requires TellsClaim(claims', event.ref.device, Some(event))
    requires Revisions(stream, d) == UpTo(CurrentRevision(claims, d)) && TellsClaim(claims, d, Latest(stream, d))
    ensures Revisions(stream + [event], d) == UpTo(CurrentRevision(claims', d))
    ensures TellsClaim(claims', d, Latest(stream + [event], d))
  {
    hide Revisions, Latest, UpTo;
    EventAppended(stream, event, d);
    UpToNext(CurrentRevision(claims, d));
    assert UpTo(CurrentRevision(claims, d)) + [] == UpTo(CurrentRevision(claims, d));
  }

  lemma EventAppended(stream: seq<ClaimEvent>, event: ClaimEvent, d: DeviceId)
    ensures Revisions(stream + [event], d)
      == Revisions(stream, d) + (if event.ref.device == d then [event.revision] else [])
    ensures Latest(stream + [event], d) == if event.ref.device == d then Some(event) else Latest(stream, d)
  {
    assert (stream + [event])[..|stream|] == stream;
  }

  lemma UpToNext(n: nat)
    ensures UpTo(n + 1) == UpTo(n) + [n + 1]
  {
  }

  lemma NoEarlierEvent(a: Authority, s: State, event: ClaimEvent, g: Id)
    requires BindingsOk(a, s.bindings) && ProposalsOk(a, s.bindings, s.proposals)
    requires GrantsOk(a, s.proposals, s.decisions, s.grants)
    requires StreamOk(s.grants, s.acks, s.claims, s.outbox, s.stream)
    requires g in s.grants && s.grants[g].ref == event.ref && s.grants[g].revokedAt.None?
    requires event.body.Activation? ==> g !in s.acks
    ensures forall i :: 0 <= i < |s.stream| ==> InOrder(s.stream[i], event)
  {
    hide BindingsOk, ProposalsOk, GrantsOk;
    forall i | 0 <= i < |s.stream| ensures InOrder(s.stream[i], event) {
      if s.stream[i].ref == event.ref {
        var h :| Sourced(s.grants, s.acks, s.stream[i], h);
        RefFixesGrant(a, s, g, h);
      }
    }
  }

  // Acknowledgement and revocation

  /** One Claim is written; the other Claims' Grants are left alone. */
  lemma ClaimWritten(s: State, s': State, c: DeviceId, g: Id)
    requires ClaimsOk(s.proposals, s.decisions, s.grants, s.acks, s.claims)
    requires c in s'.claims && s'.claims == s.claims[c := s'.claims[c]]
    requires s'.claims[c].revision >= 1 && Backs(s'.proposals, s'.decisions, s'.grants, s'.acks, c, s'.claims[c], g)
    requires ProposalsKept(s.proposals, s'.proposals) && Grown(s.decisions, s'.decisions)
    requires GrantsKept(s.grants, s'.grants) && s.acks.Keys <= s'.acks.Keys
    requires forall h :: h in s.grants && s.grants[h].ref.device != c ==> s'.grants[h] == s.grants[h]
    ensures ClaimsOk(s'.proposals, s'.decisions, s'.grants, s'.acks, s'.claims)
  {
    forall d | d in s'.claims ensures Backed(s'.proposals, s'.decisions, s'.grants, s'.acks, d, s'.claims[d]) {
      if d != c {
        assert Backed(s.proposals, s.decisions, s.grants, s.acks, d, s.claims[d]);
        var h :| Backs(s.proposals, s.decisions, s.grants, s.acks, d, s.claims[d], h);
        assert s.grants[h].ref.device == d;
        BackingStays(s, s', d, h);
      }
    }
  }

  lemma DeviceWritten(claims: map<DeviceId, Claim>, claims': map<DeviceId, Claim>, devices: map<DeviceId, DeviceRow>,
                      devices': map<DeviceId, DeviceRow>, c: DeviceId)
    requires DevicesOk(claims, devices)
    requires c in claims' && claims' == claims[c := claims'[c]]
    requires c in devices' ==> RowFits(claims'[c], devices'[c])
    requires claims'[c].state == Active ==> c in devices'
    requires forall d :: d != c ==> (d in devices' <==> d in devices) && (d in devices ==> devices'[d] == devices[d])
    ensures DevicesOk(claims', devices')
  {
  }

  lemma AckKeeps(a: Authority, s: State, commandId: Id, request: Request, proofValid: bool, eventId: Id, now: Moment)
    requires Inv(a, s) && request.AckRequest?
    ensures Inv(a, AckTx(a, s, commandId, request, proofValid, eventId, now).0)
  {
    hide BindingsOk, ProposalsOk, DecisionsOk, GrantsOk, LinksOk, StagesOk, ClaimsOk, StreamOk, DevicesOk, ResultsOk;
    hide Answer, Replay, AckNow, Acks;
    var s' := AckTx(a, s, commandId, request, proofValid, eventId, now).0;
    if s' != s {
      var key := CommandKey(a.domain, AckKind, commandId);
      var event, saved := AckShape(s, key, request, eventId, now);
      AckStepKeeps(a, s, s', request.enrollment, request.grant, event);
      ResultSaved(s.grants, s.results, key, saved);
    }
  }

  /** The rows an acknowledgement writes. */
  ghost predicate Acks(s: State, s': State, e: Id, g: Id, event: ClaimEvent) {
    && e in s.proposals && g in s.grants && s.grants[g].decision in s.decisions
    && event.id !in s.outbox && event.ref == s.grants[g].ref
    && var d := event.ref.device;
       var owner := s.decisions[s.grants[g].decision].owner;
       && event.revision == CurrentRevision(s.claims, d) + 1
       && event.body == Activation(owner, s.grants[g].manifest, s.grants[g].decision)
       && s'.proposals == s.proposals[e := Reached(s.proposals[e], GrantAcknowledged, event.time)]
       && s'.acks == s.acks[g := Ack(e, s.grants[g].ref, event.time)]
       && s'.claims == s.claims[d := ActiveClaim(s.grants[g], owner, s.proposals[e].operationalKey,
                                                 event.time).(revision := event.revision)]
       && s'.outbox == s.outbox[event.id := event] && s'.stream == s.stream + [event]
       && s'.devices == s.devices[d := ActiveRow(s.devices, event.ref, owner, s.proposals[e].manifest, event.time)]
       && s'.bindings == s.bindings && s'.decisions == s.decisions && s'.grants == s.grants
       && s'.vouchers == s.vouchers && s'.standings == s.standings && s'.withdrawals == s.withdrawals
       && s'.management == s.management
  }

  lemma AckShape(s: State, key: CommandKey, request: Request, eventId: Id, now: Moment)
    returns (event: ClaimEvent, saved: SavedResult)
    requires request.AckRequest? && Ackable(s, request, eventId)
    ensures var s' := AckNow(s, key, request, eventId, now);
      && Acks(s, s', request.enrollment, request.grant, event) && event.id == eventId && event.time == now
      && saved.request.AckRequest? && saved.result.Acknowledged?
      && s'.results == s.results[key := saved]
  {
    hide ActiveRow;
    var grant := s.grants[request.grant];
    event := ClaimEvent(eventId, grant.ref, CurrentRevision(s.claims, grant.ref.device) + 1, now,
                        Activation(s.decisions[grant.decision].owner, grant.manifest, grant.decision));
    saved := SavedResult(request, Acknowledged(grant.ref, now));
  }

  lemma AckStepKeeps(a: Authority, s: State, s': State, e: Id, g: Id, event: ClaimEvent)
    requires Inv(a, s) && Acks(s, s', e, g, event)
    requires s.proposals[e].state == GrantDelivered && s.grants[g].enrollment == e && s.grants[g].revokedAt.None?
    ensures BindingsOk(a, s'.bindings) && ProposalsOk(a, s'.bindings, s'.proposals)
    ensures DecisionsOk(a, s'.proposals, s'.decisions)
    ensures GrantsOk(a, s'.proposals, s'.decisions, s'.grants) && LinksOk(s'.proposals, s'.decisions, s'.grants)
    ensures StagesOk(s'.proposals, s'.grants, s'.acks)
    ensures ClaimsOk(s'.proposals, s'.decisions, s'.grants, s'.acks, s'.claims)
    ensures StreamOk(s'.grants, s'.acks, s'.claims, s'.outbox, s'.stream)
    ensures DevicesOk(s'.claims, s'.devices) && s'.grants == s.grants
  {
    hide BindingsOk, ProposalsOk, DecisionsOk, GrantsOk, LinksOk, StagesOk, ClaimsOk, StreamOk, DevicesOk, ResultsOk;
    AckTables(a, s, s', e, g, s'.proposals[e]);
    GrantFacts(a, s.proposals, s.decisions, s.grants, g);
    assert Backs(s'.proposals, s'.decisions, s'.grants, s'.acks, event.ref.device, s'.claims[event.ref.device], g);
    ClaimWritten(s, s', event.ref.device, g);
    NoEarlierEvent(a, s, event, g);
    assert Sourced(s'.grants, s'.acks, event, g);
    StreamAppended(s, s', event);
    DeviceWritten(s.claims, s'.claims, s.devices, s'.devices, event.ref.device);
  }

  lemma ResultSaved(grants: map<Id, Grant>, results: map<CommandKey, SavedResult>, key: CommandKey, saved: SavedResult)
    requires ResultsOk(grants, results) && ResultOk(grants, saved)
    ensures ResultsOk(grants, results[key := saved])
  {
  }

  lemma GrantFacts(a: Authority, proposals: map<Id, Proposal>, decisions: map<Id, Decision>, grants: map<Id, Grant>,
                   g: Id)
    requires GrantsOk(a, proposals, decisions, grants) && g in grants
    ensures GrantOk(a, proposals, decisions, grants[g])
  {
  }

  lemma AckTables(a: Authority, s: State, s': State, e: Id, g: Id, p: Proposal)
    requires Inv(a, s)
    requires e in s.proposals && g in s.grants && s.grants[g].enrollment == e && s.proposals[e].state == GrantDelivered
    requires p == Reached(s.proposals[e], GrantAcknowledged, p.updatedAt)
    requires s'.bindings == s.bindings && s'.decisions == s.decisions && s'.grants == s.grants
    requires s'.proposals == s.proposals[e := p]
    requires g in s'.acks && s'.acks == s.acks[g := s'.acks[g]] && s'.acks[g].enrollment == e
    requires s'.acks[g].ref == s.grants[g].ref
    ensures BindingsOk(a, s'.bindings) && ProposalsOk(a, s'.bindings, s'.proposals)
    ensures DecisionsOk(a, s'.proposals, s'.decisions)
    ensures GrantsOk(a, s'.proposals, s'.decisions, s'.grants) && LinksOk(s'.proposals, s'.decisions, s'.grants)
    ensures StagesOk(s'.proposals, s'.grants, s'.acks)
    ensures ProposalsKept(s.proposals, s'.proposals) && g !in s.acks
  {
    hide BindingsOk, ProposalsOk, DecisionsOk, GrantsOk, LinksOk, StagesOk, ClaimsOk, StreamOk, DevicesOk, ResultsOk;
    MovesKeepProposals(a, s.bindings, s.bindings, s.proposals, s'.proposals);
    MovesKeepDecisions(a, s.proposals, s'.proposals, s.decisions);
    MovesKeepGrants(a, s.proposals, s'.proposals, s.decisions, s.grants, s.grants);
    LinksMoved(s.proposals, s'.proposals, s.decisions, s.grants, s.grants);
    AckStages(a, s.proposals, s.decisions, s.grants, s.acks, e, g, p, s'.acks[g]);
  }

  lemma AckStages(a: Authority, proposals: map<Id, Proposal>, decisions: map<Id, Decision>, grants: map<Id, Grant>,
                  acks: map<Id, Ack>, e: Id, g: Id, p: Proposal, ack: Ack)
    requires GrantsOk(a, proposals, decisions, grants) && StagesOk(proposals, grants, acks)
    requires e in proposals && g in grants && grants[g].enrollment == e
    requires proposals[e].state == GrantDelivered && p.state == GrantAcknowledged
    requires ack.enrollment == e && ack.ref == grants[g].ref
    ensures StagesOk(proposals[e := p], grants, acks[g := ack]) && g !in acks
  {
    hide GrantOk, Granted, SameIssue;
    assert GrantStaged(proposals, grants[g], g in acks);
    assert forall h :: h in grants && grants[h].enrollment == e ==> h == g;
    forall h | h in grants ensures GrantStaged(proposals[e := p], grants[h], h in acks[g := ack]) {
      assert GrantStaged(proposals, grants[h], h in acks);
    }
  }

  /** What one revocation does, before the directory row and the event follow. */
  ghost predicate Undone(a: Authority, s: State, u: State, ref: DeviceRef, g: Id) {
    && u == s.(proposals := u.proposals, grants := u.grants, claims := u.claims)
    && ref.device in u.claims && u.claims == s.claims[ref.device := u.claims[ref.device]]
    && u.claims[ref.device].revision == CurrentRevision(s.claims, ref.device) + 1
    && (ref.device in s.claims ==> u.claims[ref.device].owner == s.claims[ref.device].owner)
    && u.claims[ref.device].state == Revoked && ClaimRef(ref.device, u.claims[ref.device]) == ref
    && ProposalsKept(s.proposals, u.proposals) && GrantsKept(s.grants, u.grants)
    && g in s.grants && s.grants[g].ref == ref && s.grants[g].revokedAt.None? && u.grants[g].revokedAt.Some?
    && u.grants == s.grants[g := u.grants[g]]
  }

  /** Revoking an active Claim marks exactly the Grant that backs it. */
  lemma UndoActive(a: Authority, s: State, ref: DeviceRef, now: Moment) returns (g: Id)
    requires Inv(a, s) && ref.device in s.claims && s.claims[ref.device].state == Active
    requires ClaimRef(ref.device, s.claims[ref.device]) == ref
    ensures Undone(a, s, Undo(s, ref, now), ref, g)
    ensures Backs(s.proposals, s.decisions, s.grants, s.acks, ref.device, s.claims[ref.device], g)
    ensures Undo(s, ref, now) == s.(grants := s.grants[g := s.grants[g].(revokedAt := Some(now))],
                                    claims := Undo(s, ref, now).claims)
    ensures Undo(s, ref, now).claims == s.claims[ref.device := Undo(s, ref, now).claims[ref.device]]
    ensures g in s.grants && s.grants[g].ref == ref && s.grants[g].revokedAt.None?
    ensures var claim := s.claims[ref.device];
      Undo(s, ref, now).claims[ref.device]
        == claim.(state := Revoked, revision := claim.revision + 1, updatedAt := now, revokedAt := Some(now))
  {
    hide BindingsOk, ProposalsOk, DecisionsOk, GrantsOk, LinksOk, StagesOk, ClaimsOk, StreamOk, DevicesOk, ResultsOk;
    var claim := s.claims[ref.device];
    g := BackingGrant(s, ref.device);
    DecisionFixesGrant(a, s.proposals, s.decisions, s.grants, g, claim.decision);
  }

  lemma BackingGrant(s: State, c: DeviceId) returns (g: Id)
    requires ClaimsOk(s.proposals, s.decisions, s.grants, s.acks, s.claims) && c in s.claims
    ensures Backs(s.proposals, s.decisions, s.grants, s.acks, c, s.claims[c], g)
  {
    assert Backed(s.proposals, s.decisions, s.grants, s.acks, c, s.claims[c]);
    g :| Backs(s.proposals, s.decisions, s.grants, s.acks, c, s.claims[c], g);
  }

  lemma DecisionFixesGrant(a: Authority, proposals: map<Id, Proposal>, decisions: map<Id, Decision>,
                           grants: map<Id, Grant>, g: Id, d: Id)
    requires GrantsOk(a, proposals, decisions, grants) && g in grants && grants[g].decision == d
    ensures GrantForDecision(grants, d) == Some(g)
  {
    var h := GrantForDecision(grants, d);
    assert GrantOk(a, proposals, decisions, grants[g]) && GrantOk(a, proposals, decisions, grants[h.value]);
  }

  /** Revoking before acknowledgement writes a Claim that was never active. */
  lemma UndoPending(a: Authority, s: State, ref: DeviceRef, context: Context, now: Moment) returns (g: Id)
    requires Inv(a, s) && ref.device !in s.claims && RevokeProblem(s, ref, context).None? && Revocable(s, ref)
    ensures Undone(a, s, Undo(s, ref, now), ref, g) && g !in s.acks
    ensures var u := Undo(s, ref, now);
      var e := s.grants[g].enrollment;
      && e in s.proposals && AllowedTransition(s.proposals[e].state, ClaimRevoked)
      && u.proposals == s.proposals[e := Reached(s.proposals[e], ClaimRevoked, now)]
      && u.grants[g] == s.grants[g].(revokedAt := Some(now))
      && Backs(u.proposals, u.decisions, u.grants, u.acks, ref.device, u.claims[ref.device], g)
  {
    hide BindingsOk, ProposalsOk, DecisionsOk, GrantsOk, LinksOk, StagesOk, ClaimsOk, StreamOk, DevicesOk, ResultsOk;
    g := GrantForRef(s.grants, ref).value;
    GrantFacts(a, s.proposals, s.decisions, s.grants, g);
    StageFacts(s.proposals, s.grants, s.acks, g);
  }

  lemma StageFacts(proposals: map<Id, Proposal>, grants: map<Id, Grant>, acks: map<Id, Ack>, g: Id)
    requires StagesOk(proposals, grants, acks) && g in grants
    ensures GrantStaged(proposals, grants[g], g in acks)
  {
  }

  lemma UndoneKeeps(a: Authority, s: State, ref: DeviceRef, context: Context, now: Moment) returns (g: Id)
    requires Inv(a, s) && RevokeProblem(s, ref, context).None? && Revocable(s, ref)
    requires ref.device in s.claims ==> s.claims[ref.device].state == Active
    ensures Undone(a, s, Undo(s, ref, now), ref, g)
    ensures var u := Undo(s, ref, now);
      && ProposalsOk(a, u.bindings, u.proposals) && DecisionsOk(a, u.proposals, u.decisions)
      && GrantsOk(a, u.proposals, u.decisions, u.grants) && LinksOk(u.proposals, u.decisions, u.grants)
      && StagesOk(u.proposals, u.grants, u.acks)
      && ClaimsOk(u.proposals, u.decisions, u.grants, u.acks, u.claims)
      && ResultsOk(u.grants, u.results)
  {
    hide BindingsOk, ProposalsOk, DecisionsOk, GrantsOk, LinksOk, StagesOk, ClaimsOk, StreamOk, DevicesOk, ResultsOk;
    hide Undo, Revocable, RevokeProblem, Backs, Undone;
    NoProblem(s, ref, context);
    var u := Undo(s, ref, now);
    if ref.device in s.claims {
      g := UndoActive(a, s, ref, now);
      UndoneFrame(a, s, u, ref, g);
      RevokedStages(s, u, ref, g, now);
      StillBacked(s, u, ref, g, now);
    } else {
      g := PendingStages(a, s, ref, context, now);
    }
    UndoneFrame(a, s, u, ref, g);
    UndoneRest(a, s, u, ref, g);
  }

  lemma PendingStages(a: Authority, s: State, ref: DeviceRef, context: Context, now: Moment) returns (g: Id)
    requires Inv(a, s) && ref.device !in s.claims && RevokeProblem(s, ref, context).None? && Revocable(s, ref)
    ensures var u := Undo(s, ref, now);
      && Undone(a, s, u, ref, g)
      && Backs(u.proposals, u.decisions, u.grants, u.acks, ref.device, u.claims[ref.device], g)
      && u.proposals.Keys == s.proposals.Keys
      && (forall e :: e in u.proposals && Settled(u.proposals[e].state) ==> Settled(s.proposals[e].state))
      && StagesOk(u.proposals, u.grants, u.acks)
  {
    hide BindingsOk, ProposalsOk, DecisionsOk, GrantsOk, LinksOk, StagesOk, ClaimsOk, StreamOk, DevicesOk, ResultsOk;
    hide Undo, Revocable, RevokeProblem, Backs, ProposalsKept, GrantsKept;
    g := UndoPending(a, s, ref, context, now);
    var u := Undo(s, ref, now);
    var e := s.grants[g].enrollment;
    MarkOne(a, s.proposals, s.decisions, s.grants, s.acks, e, g, u.proposals[e], u.grants[g]);
    MarksKeepStages(s, u);
  }

  lemma UndoneFrame(a: Authority, s: State, u: State, ref: DeviceRef, g: Id)
    requires Undone(a, s, u, ref, g)
    ensures u == s.(proposals := u.proposals, grants := u.grants, claims := u.claims)
    ensures ref.device in u.claims && u.claims[ref.device].state == Revoked && g in u.grants && g in s.grants
  {
  }

  lemma UndoneRest(a: Authority, s: State, u: State, ref: DeviceRef, g: Id)
    requires Inv(a, s) && Undone(a, s, u, ref, g) && ref.device in u.claims
    requires Backs(u.proposals, u.decisions, u.grants, u.acks, ref.device, u.claims[ref.device], g)
    requires u.proposals.Keys == s.proposals.Keys
    requires forall e :: e in u.proposals && Settled(u.proposals[e].state) ==> Settled(s.proposals[e].state)
    ensures ProposalsOk(a, u.bindings, u.proposals) && DecisionsOk(a, u.proposals, u.decisions)
    ensures GrantsOk(a, u.proposals, u.decisions, u.grants) && LinksOk(u.proposals, u.decisions, u.grants)
    ensures ClaimsOk(u.proposals, u.decisions, u.grants, u.acks, u.claims)
    ensures ResultsOk(u.grants, u.results)
  {
    hide BindingsOk, ProposalsOk, DecisionsOk, GrantsOk, LinksOk, StagesOk, ClaimsOk, StreamOk, DevicesOk, ResultsOk;
    hide Backs, ProposalsKept, GrantsKept;
    MovesKeepProposals(a, s.bindings, s.bindings, s.proposals, u.proposals);
    MovesKeepDecisions(a, s.proposals, u.proposals, s.decisions);
    MovesKeepGrants(a, s.proposals, u.proposals, s.decisions, s.grants, u.grants);
    LinksMoved(s.proposals, u.proposals, s.decisions, s.grants, u.grants);
    ClaimWritten(s, u, ref.device, g);
    ResultsStay(s.grants, u.grants, s.results);
  }

  lemma StillBacked(s: State, u: State, ref: DeviceRef, g: Id, now: Moment)
    requires ref.device in s.claims && ref.device in u.claims
    requires Backs(s.proposals, s.decisions, s.grants, s.acks, ref.device, s.claims[ref.device], g)
    requires u.proposals == s.proposals && u.decisions == s.decisions && g in u.grants
    requires u.grants[g] == s.grants[g].(revokedAt := Some(now))
    requires var claim := s.claims[ref.device];
      u.claims[ref.device] == claim.(state := Revoked, revision := claim.revision + 1, updatedAt := now,
                                     revokedAt := Some(now))
    ensures Backs(u.proposals, u.decisions, u.grants, u.acks, ref.device, u.claims[ref.device], g)
  {
  }

  lemma RevokedStages(s: State, u: State, ref: DeviceRef, g: Id, now: Moment)
    requires StagesOk(s.proposals, s.grants, s.acks) && ref.device in s.claims && s.claims[ref.device].state == Active
    requires Backs(s.proposals, s.decisions, s.grants, s.acks, ref.device, s.claims[ref.device], g)
    requires u.proposals == s.proposals && u.acks == s.acks
    requires u.grants == s.grants[g := s.grants[g].(revokedAt := Some(now))]
    ensures StagesOk(u.proposals, u.grants, u.acks)
  {
    assert GrantStaged(s.proposals, s.grants[g], true);
  }

  lemma RowFacts(claims: map<DeviceId, Claim>, devices: map<DeviceId, DeviceRow>, d: DeviceId)
    requires DevicesOk(claims, devices)
    ensures d in devices ==> d in claims && RowFits(claims[d], devices[d])
  {
  }

  /** The rows a revocation writes when there is something to revoke. */
  ghost predicate Revokes(s: State, s': State, u: State, event: ClaimEvent) {
    && event.id !in s.outbox && event.body.Revocation?
    && event.ref.device in u.claims && event.revision == u.claims[event.ref.device].revision
    && s'.proposals == u.proposals && s'.grants == u.grants && s'.claims == u.claims && s'.acks == u.acks
    && s'.bindings == u.bindings && s'.decisions == u.decisions
    && s'.outbox == s.outbox[event.id := event] && s'.stream == s.stream + [event]
    && s'.devices == RevokedRows(s.devices, event.ref, event.time)
    && s'.vouchers == s.vouchers && s'.standings == s.standings && s'.withdrawals == s.withdrawals
    && s'.management == s.management
  }

  lemma RevokeShape(s: State, key: CommandKey, ref: DeviceRef, reason: string, eventId: Id, now: Moment)
    returns (event: ClaimEvent, saved: SavedResult)
    requires Revocable(s, ref) && eventId !in s.outbox
    ensures var s' := RevokeNow(s, key, ref, reason, eventId, now);
      && saved.request.RevokeRequest? && saved.result.RevokedResult? && s'.results == s.results[key := saved]
      && event.ref == ref && event.time == now && event.id == eventId && event.body == Revocation(reason)
      && Revokes(s, s', Undo(s, ref, now), event)
      && ref.device in Undo(s, ref, now).claims
      && saved == SavedResult(RevokeRequest(ref, reason),
                              RevokedResult(ref, Undo(s, ref, now).claims[ref.device].revision, Some(eventId), now))
  {
    UndoFrame(s, ref, now);
    hide Undo, Revocable, RevokedRows;
    event := ClaimEvent(eventId, ref, Undo(s, ref, now).claims[ref.device].revision, now, Revocation(reason));
    saved := SavedResult(RevokeRequest(ref, reason), RevokedResult(ref, event.revision, Some(eventId), now));
  }

  lemma UndoFrame(s: State, ref: DeviceRef, now: Moment)
    requires Revocable(s, ref)
    ensures var u := Undo(s, ref, now);
      u == s.(proposals := u.proposals, grants := u.grants, claims := u.claims) && ref.device in u.claims
  {
  }

  lemma NoProblem(s: State, ref: DeviceRef, context: Context)
    requires RevokeProblem(s, ref, context).None?
    ensures Revocable(s, ref)
    ensures ref.device in s.claims ==> ClaimRef(ref.device, s.claims[ref.device]) == ref
  {
  }

  lemma RevokeKeeps(a: Authority, s: State, commandId: Id, ref: DeviceRef, reason: string, context: Context,
                    eventId: Id, now: Moment)
    requires Inv(a, s)
    ensures Inv(a, RevokeTx(s, commandId, ref, reason, context, eventId, now).0)
  {
    hide BindingsOk, ProposalsOk, DecisionsOk, GrantsOk, LinksOk, StagesOk, ClaimsOk, StreamOk, DevicesOk, ResultsOk;
    hide RevokeProblem, Revocable, Undo, Revokes, RevokeNow;
    var key := CommandKey(context.actor.domain, RevokeKind, commandId);
    var s' := RevokeTx(s, commandId, ref, reason, context, eventId, now).0;
    if s' != s {
      NoProblem(s, ref, context);
      if ref.device in s.claims && s.claims[ref.device].state == Revoked {
        ResultSaved(s.grants, s.results, key,
                    SavedResult(RevokeRequest(ref, reason), RevokedBefore(s.claims[ref.device], ref)));
      } else {
        var event, saved := RevokeShape(s, key, ref, reason, eventId, now);
        RevokeStepKeeps(a, s, s', context, event);
        ResultSaved(s'.grants, s.results, key, saved);
      }
    }
  }

  lemma RevokeStepKeeps(a: Authority, s: State, s': State, context: Context, event: ClaimEvent)
    requires Inv(a, s) && RevokeProblem(s, event.ref, context).None? && Revocable(s, event.ref)
    requires event.ref.device in s.claims ==> s.claims[event.ref.device].state == Active
    requires Revokes(s, s', Undo(s, event.ref, event.time), event)
    ensures BindingsOk(a, s'.bindings) && ProposalsOk(a, s'.bindings, s'.proposals)
    ensures DecisionsOk(a, s'.proposals, s'.decisions)
    ensures GrantsOk(a, s'.proposals, s'.decisions, s'.grants) && LinksOk(s'.proposals, s'.decisions, s'.grants)
    ensures StagesOk(s'.proposals, s'.grants, s'.acks)
    ensures ClaimsOk(s'.proposals, s'.decisions, s'.grants, s'.acks, s'.claims)
    ensures StreamOk(s'.grants, s'.acks, s'.claims, s'.outbox, s'.stream)
    ensures DevicesOk(s'.claims, s'.devices) && ResultsOk(s'.grants, s.results)
  {
    hide BindingsOk, ProposalsOk, DecisionsOk, GrantsOk, LinksOk, StagesOk, ClaimsOk, StreamOk, DevicesOk, ResultsOk;
    hide Undo, RevokeProblem, Revocable;
    var g := UndoneKeeps(a, s, event.ref, context, event.time);
    NoEarlierEvent(a, s, event, g);
    assert Sourced(s'.grants, s'.acks, event, g);
    StreamAppended(s, s', event);
    RowFacts(s.claims, s.devices, event.ref.device);
    NoProblem(s, event.ref, context);
    DeviceWritten(s.claims, s'.claims, s.devices, s'.devices, event.ref.device);
  }

  // The remaining steps

  lemma CommitKeeps(a: Authority, s: State, device: DeviceId, expected: DeviceRow, change: DeviceChange, eventId: Id,
                    event: ManagementEvent)
    requires Inv(a, s)
    ensures Inv(a, CommitTx(s, device, expected, change, eventId, event))
  {
    hide BindingsOk, ProposalsOk, DecisionsOk, GrantsOk, LinksOk, StagesOk, ClaimsOk, StreamOk, ResultsOk;
  }

  /** Every transaction keeps the invariant. */
  lemma StepKeeps(a: Authority, s: State, step: Step)
    requires Inv(a, s)
    ensures Inv(a, Apply(a, s, step))
  {
    hide BindingsOk, ProposalsOk, DecisionsOk, GrantsOk, LinksOk, StagesOk, ClaimsOk, StreamOk, DevicesOk, ResultsOk;
    hide CreateTx, ExpireTx, CancelTx, DecideTx, CollectTx, AckTx, RevokeTx, CommitTx;
    if WellFormed(step) {
      match step
      case Create(commandId, payload, verified, enrollment, challenge, ids, now) =>
        CreateKeeps(a, s, commandId, payload, verified, enrollment, challenge, ids, now);
      case RecordStanding(jti, keyId, context, now) =>
      case Withdraw(principal, context, now) =>
      case ExpireDue(now) => ExpireKeeps(a, s, now);
      case Cancel(commandId, enrollment, reason, context, now) =>
        CancelKeeps(a, s, commandId, enrollment, reason, context, now);
      case Decide(commandId, request, context, ids, now) => DecideKeeps(a, s, commandId, request, context, ids, now);
      case Collect(commandId, enrollment, revision, challenge, proof, proofValid, sealed, now) =>
        CollectKeeps(a, s, commandId, enrollment, revision, challenge, proof, proofValid, sealed, now);
      case AckGrant(commandId, request, proofValid, eventId, now) =>
        AckKeeps(a, s, commandId, request, proofValid, eventId, now);
      case Revoke(commandId, ref, reason, context, eventId, now) =>
        RevokeKeeps(a, s, commandId, ref, reason, context, eventId, now);
      case CommitDevice(device, expected, change, eventId, event) =>
        CommitKeeps(a, s, device, expected, change, eventId, event);
    }
  }

  /** Every reachable state satisfies the invariant. */
  lemma {:induction false} RunKeeps(a: Authority, s: State, steps: seq<Step>)
    requires Inv(a, s)
    ensures Inv(a, Run(a, s, steps))
    decreases |steps|
  {
    hide Inv, Apply;
    if steps != [] {
      RunKeeps(a, s, steps[..|steps| - 1]);
      StepKeeps(a, Run(a, s, steps[..|steps| - 1]), steps[|steps| - 1]);
    }
  }
}
