/** What holds between any two moments of a run of Admission transactions. */
module AdmissionHistory {
  import opened Prelude
  import opened AdmissionDomain
  import opened AdmissionTables
  import opened AdmissionCommands
  import opened AdmissionInvariant
  import opened AdmissionPreservation

  /** n allowed moves lead from one Proposal state to another. */
  ghost predicate Path(from: ProposalState, to: ProposalState, n: nat)
    decreases n
  {
    if n == 0 then from == to
    else exists mid :: AllowedTransition(from, mid) && Path(mid, to, n - 1)
  }

  lemma {:induction false} PathExtends(from: ProposalState, mid: ProposalState, to: ProposalState, m: nat, n: nat)
    requires Path(from, mid, m) && Path(mid, to, n)
    ensures Path(from, to, m + n)
    decreases m
  {
    if m > 0 {
      var next :| AllowedTransition(from, next) && Path(next, mid, m - 1);
      PathExtends(next, mid, to, m - 1, n);
    }
  }

  lemma OneMove(from: ProposalState, to: ProposalState)
    requires AllowedTransition(from, to)
    ensures Path(from, to, 1)
  {
    assert Path(to, to, 0);
  }

  /** Same Proposal, some allowed moves later: one revision for each move, nothing else changed. */
  ghost predicate Follows(p: Proposal, p': Proposal) {
    && p'.revision >= p.revision
    && Path(p.state, p'.state, p'.revision - p.revision)
    && p' == p.(state := p'.state, revision := p'.revision, updatedAt := p'.updatedAt)
    && (p'.revision == p.revision ==> p' == p)
  }

  /** A Proposal as a run first shows it: pending, or already decided by a standing. */
  ghost predicate Begins(p: Proposal) {
    p.revision >= 1 && Path(PendingReview, p.state, p.revision - 1)
  }

  predicate RowFollows(row: DeviceRow, row': DeviceRow) {
    row' == row || row'.aggregateRevision > row.aggregateRevision
  }

  // One predicate per table

  ghost predicate ProposalsFollow(m: map<Id, Proposal>, m': map<Id, Proposal>) {
    && (forall e :: e in m ==> e in m' && Follows(m[e], m'[e]))
    && (forall e :: e in m' && e !in m ==> Begins(m'[e]))
  }

  ghost predicate WithdrawalsAdvance(m: map<(Id, Id), Withdrawal>, m': map<(Id, Id), Withdrawal>) {
    forall k :: k in m ==> k in m' && m'[k].withdrawnAt >= m[k].withdrawnAt
  }

  ghost predicate ClaimsAdvance(m: map<DeviceId, Claim>, m': map<DeviceId, Claim>) {
    forall c :: c in m ==> c in m' && m'[c].revision >= m[c].revision
  }

  ghost predicate DevicesAdvance(m: map<DeviceId, DeviceRow>, m': map<DeviceId, DeviceRow>) {
    forall d :: d in m ==> d in m' && RowFollows(m[d], m'[d])
  }

  ghost predicate StreamGrown(stream: seq<ClaimEvent>, stream': seq<ClaimEvent>) {
    stream <= stream'
  }

  /** Nothing durable is ever taken back. */
  ghost predicate Extends(s: State, s': State) {
    && ProposalsFollow(s.proposals, s'.proposals)
    && Grown(s.decisions, s'.decisions)
    && GrantsKept(s.grants, s'.grants)
    && Grown(s.acks, s'.acks)
    && Grown(s.bindings, s'.bindings)
    && Grown(s.vouchers, s'.vouchers)
    && Grown(s.standings, s'.standings)
    && WithdrawalsAdvance(s.withdrawals, s'.withdrawals)
    && Grown(s.results, s'.results)
    && ClaimsAdvance(s.claims, s'.claims)
    && Grown(s.outbox, s'.outbox)
    && StreamGrown(s.stream, s'.stream)
    && DevicesAdvance(s.devices, s'.devices)
    && Grown(s.management, s'.management)
  }

  lemma ProposalsReflexive(m: map<Id, Proposal>)
    ensures ProposalsFollow(m, m)
  {
  }

  lemma GrownReflexive<K, V>(m: map<K, V>)
    ensures Grown(m, m)
  {
  }

  lemma RowAdded<K, V>(m: map<K, V>, k: K, v: V)
    requires k !in m
    ensures Grown(m, m[k := v])
  {
  }

  lemma ExtendsReflexive(s: State)
    ensures Extends(s, s)
  {
    hide ProposalsFollow, Grown;
    ProposalsReflexive(s.proposals);
    GrownReflexive(s.decisions);
    GrownReflexive(s.acks);
    GrownReflexive(s.bindings);
    GrownReflexive(s.vouchers);
    GrownReflexive(s.standings);
    GrownReflexive(s.results);
    GrownReflexive(s.outbox);
    GrownReflexive(s.management);
  }

  lemma FollowsTransitive(p: Proposal, q: Proposal, r: Proposal)
    requires Follows(p, q) && Follows(q, r)
    ensures Follows(p, r)
  {
    PathExtends(p.state, q.state, r.state, q.revision - p.revision, r.revision - q.revision);
  }

  lemma BeginsThenFollows(p: Proposal, q: Proposal)
    requires Begins(p) && Follows(p, q)
    ensures Begins(q)
  {
    PathExtends(PendingReview, p.state, q.state, p.revision - 1, q.revision - p.revision);
  }

  lemma ProposalsFollowTransitive(s: map<Id, Proposal>, t: map<Id, Proposal>, u: map<Id, Proposal>)
    requires ProposalsFollow(s, t) && ProposalsFollow(t, u)
    ensures ProposalsFollow(s, u)
  {
    hide Follows, Begins;
    forall e | e in u ensures e in s ==> Follows(s[e], u[e]) ensures e !in s ==> Begins(u[e]) {
      if e in s {
        FollowsTransitive(s[e], t[e], u[e]);
      } else if e in t {
        BeginsThenFollows(t[e], u[e]);
      }
    }
  }

  lemma GrantsKeptTransitive(s: map<Id, Grant>, t: map<Id, Grant>, u: map<Id, Grant>)
    requires GrantsKept(s, t) && GrantsKept(t, u)
    ensures GrantsKept(s, u)
  {
    forall g | g in s ensures g in u && GrantKept(s[g], u[g]) {
      assert GrantKept(s[g], t[g]) && GrantKept(t[g], u[g]);
    }
  }

  lemma GrownTransitive<K, V>(s: map<K, V>, t: map<K, V>, u: map<K, V>)
    requires Grown(s, t) && Grown(t, u)
    ensures Grown(s, u)
  {
  }

  lemma ExtendsTransitive(s: State, t: State, u: State)
    requires Extends(s, t) && Extends(t, u)
    ensures Extends(s, u)
  {
    hide ProposalsFollow, GrantsKept, Grown;
    ProposalsFollowTransitive(s.proposals, t.proposals, u.proposals);
    GrantsKeptTransitive(s.grants, t.grants, u.grants);
    GrownTransitive(s.decisions, t.decisions, u.decisions);
    GrownTransitive(s.acks, t.acks, u.acks);
    GrownTransitive(s.bindings, t.bindings, u.bindings);
    GrownTransitive(s.vouchers, t.vouchers, u.vouchers);
    GrownTransitive(s.standings, t.standings, u.standings);
    GrownTransitive(s.results, t.results, u.results);
    GrownTransitive(s.outbox, t.outbox, u.outbox);
    GrownTransitive(s.management, t.management, u.management);
  }

  // Every transaction extends the tables

  lemma MovedFollows(p: Proposal, p': Proposal)
    requires Moved(p, p')
    ensures Follows(p, p')
  {
    if p' != p { OneMove(p.state, p'.state); }
  }

  lemma MovesFollow(m: map<Id, Proposal>, m': map<Id, Proposal>)
    requires m'.Keys == m.Keys && ProposalsKept(m, m')
    ensures ProposalsFollow(m, m')
  {
    hide Follows, Moved;
    forall e | e in m ensures e in m' && Follows(m[e], m'[e]) {
      MovedFollows(m[e], m'[e]);
    }
  }

  lemma OneMoveFollows(m: map<Id, Proposal>, e: Id, target: ProposalState, now: Moment)
    requires e in m && AllowedTransition(m[e].state, target)
    ensures ProposalsFollow(m, m[e := Reached(m[e], target, now)])
  {
    MovesFollow(m, m[e := Reached(m[e], target, now)]);
  }

  lemma ProposalBegins(m: map<Id, Proposal>, e: Id, p: Proposal)
    requires e !in m && p.state == PendingReview && p.revision == 1
    ensures ProposalsFollow(m, m[e := p])
  {
  }

  lemma GrantMarked(m: map<Id, Grant>, g: Id, grant: Grant)
    requires g in m && GrantKept(m[g], grant)
    ensures GrantsKept(m, m[g := grant])
  {
  }

  lemma GrantIssued(m: map<Id, Grant>, g: Id, grant: Grant)
    requires g !in m
    ensures GrantsKept(m, m[g := grant])
  {
  }

  lemma DecisionExtends(a: Authority, s: State, e: Id, approve: bool, actor: Actor, owner: Id, reviewed: ManifestRef,
                        ids: DecisionIds, now: Moment)
    requires e in s.proposals && s.proposals[e].state == PendingReview
    ensures var decided := DecideInSession(a, s, e, approve, actor, owner, reviewed, ids, now);
      decided.Ok? ==>
        var s' := decided.value;
        && Extends(s, s') && ids.decision in s'.decisions
        && s' == s.(proposals := s'.proposals, decisions := s'.decisions, grants := s'.grants)
  {
    hide ProposalsFollow, Grown, GrantsKept, WithdrawalsAdvance, ClaimsAdvance, StreamGrown, DevicesAdvance,
      MaxGeneration;
    var decided := DecideInSession(a, s, e, approve, actor, owner, reviewed, ids, now);
    if decided.Ok? {
      ExtendsReflexive(s);
      OneMoveFollows(s.proposals, e, if approve then ApprovedAwaitingHandoff else Rejected, now);
      RowAdded(s.decisions, ids.decision, decided.value.decisions[ids.decision]);
      if approve {
        GrantIssued(s.grants, ids.grant, decided.value.grants[ids.grant]);
      }
    }
  }

  lemma SaveExtends(s: State, key: CommandKey, request: Request, result: CommandResult)
    requires key !in s.results
    ensures Extends(s, Save(s, key, request, result))
  {
    hide ProposalsFollow, Grown, GrantsKept, WithdrawalsAdvance, ClaimsAdvance, StreamGrown, DevicesAdvance;
    ExtendsReflexive(s);
    RowAdded(s.results, key, SavedResult(request, result));
  }

  lemma AskExtends(a: Authority, s: State, verified: Verified, hardware: Id, keyId: KeyId, now: Moment)
    ensures var asked := Ask(a, s, verified, hardware, keyId, now);
      asked.Ok? ==>
        && Extends(s, asked.value)
        && asked.value == s.(bindings := asked.value.bindings, vouchers := asked.value.vouchers)
  {
    hide ProposalsFollow, Grown, GrantsKept, WithdrawalsAdvance, ClaimsAdvance, StreamGrown, DevicesAdvance;
    var asked := Ask(a, s, verified, hardware, keyId, now);
    ExtendsReflexive(s);
    if asked.Ok? && verified.ByVoucher? {
      RowAdded(s.vouchers, verified.jti, asked.value.vouchers[verified.jti]);
      if verified.base !in s.bindings {
        RowAdded(s.bindings, verified.base, asked.value.bindings[verified.base]);
      }
    }
  }

  lemma ProposalAddedExtends(s: State, e: Id, p: Proposal)
    requires e !in s.proposals && p.state == PendingReview && p.revision == 1
    ensures Extends(s, s.(proposals := s.proposals[e := p]))
  {
    hide ProposalsFollow, Grown, GrantsKept, WithdrawalsAdvance, ClaimsAdvance, StreamGrown, DevicesAdvance;
    ExtendsReflexive(s);
    ProposalBegins(s.proposals, e, p);
  }

  lemma CreateExtends(a: Authority, s: State, commandId: Id, payload: EnrollmentPayload, verified: Option<Verified>,
                      enrollment: Id, challenge: string, ids: DecisionIds, now: Moment)
    ensures Extends(s, CreateTx(a, s, commandId, payload, verified, enrollment, challenge, ids, now).0)
  {
    hide Extends, Ask, DecideInSession, HardwareRef, StandingFor;
    ExtendsReflexive(s);
    var key := CommandKey(payload.domain, CreateKind, commandId);
    var s' := CreateTx(a, s, commandId, payload, verified, enrollment, challenge, ids, now).0;
    if s' != s {
      var hardware := HardwareRef(verified.value.base).value;
      var keyId := KeyId(payload.operationalKey);
      var asked := Ask(a, s, verified.value, hardware, keyId, now).value;
      AskExtends(a, s, verified.value, hardware, keyId, now);
      var p := NewProposal(a, payload, hardware, challenge, now);
      var proposed := asked.(proposals := s.proposals[enrollment := p]);
      ProposalAddedExtends(asked, enrollment, p);
      ExtendsTransitive(s, asked, proposed);
      var saved := Save(proposed, key, CreateRequest(payload), CreatedResult(a, payload, enrollment, challenge, now));
      SaveExtends(proposed, key, CreateRequest(payload), CreatedResult(a, payload, enrollment, challenge, now));
      ExtendsTransitive(s, proposed, saved);
      var jti := StandingFor(a, saved, verified.value, keyId);
      if jti.Some? {
        var standing := saved.standings[jti.value];
        DecisionExtends(a, saved, enrollment, true, standing.actor, standing.owner, payload.manifest, ids, now);
        ExtendsTransitive(s, saved, s');
      }
    }
  }

  lemma SavedExtends(s: State, s': State, key: CommandKey, request: Request, result: CommandResult)
    requires Extends(s, s') && key !in s'.results
    ensures Extends(s, Save(s', key, request, result))
  {
    hide Extends, Save;
    SaveExtends(s', key, request, result);
    ExtendsTransitive(s, s', Save(s', key, request, result));
  }

  lemma DecideNowExtends(a: Authority, s: State, key: CommandKey, request: Request, ids: DecisionIds, now: Moment)
    requires request.DecideRequest? && request.enrollment in s.proposals && key !in s.results
    requires s.proposals[request.enrollment].state == PendingReview
    ensures Extends(s, DecideNow(a, s, key, request, ids, now).0)
  {
    hide Extends, DecideInSession, DecideNow, Save;
    DecideOutcome(a, s, key, request, ids, now);
    var decided := DecideInSession(a, s, request.enrollment, request.approve, request.actor, request.targetOwner,
                                   request.reviewed, ids, now);
    if decided.Err? {
      ExtendsReflexive(s);
    } else {
      assert Extends(s, decided.value) && key !in decided.value.results by {
        DecisionExtends(a, s, request.enrollment, request.approve, request.actor, request.targetOwner, request.reviewed,
                        ids, now);
      }
      SavedExtends(s, decided.value, key, request,
                   Decided(ids.decision, decided.value.decisions[ids.decision],
                           if request.approve then Some(ids.grant) else None, s.proposals[request.enrollment].revision,
                           now));
    }
  }

  lemma DecideExtends(a: Authority, s: State, commandId: Id, request: Request, context: Context, ids: DecisionIds,
                      now: Moment)
    requires request.DecideRequest? && request.actor == context.actor
    ensures Extends(s, DecideTx(a, s, commandId, request, context, ids, now).0)
  {
    hide Extends, DecideNow;
    ExtendsReflexive(s);
    var s' := DecideTx(a, s, commandId, request, context, ids, now).0;
    if s' != s {
      DecideNowExtends(a.(domain := request.targetDomain), s, CommandKey(request.targetDomain, DecideKind, commandId),
                       request, ids, now);
    }
  }

  lemma ExpireExtends(s: State, now: Moment)
    ensures Extends(s, ExpireTx(s, now))
  {
    hide ProposalsFollow, Grown, WithdrawalsAdvance, ClaimsAdvance, StreamGrown, DevicesAdvance;
    ExtendsReflexive(s);
    MovesFollow(s.proposals, ExpiredProposals(s.proposals, now));
  }

  lemma MoveExtends(s: State, e: Id, target: ProposalState, now: Moment)
    requires e in s.proposals && AllowedTransition(s.proposals[e].state, target)
    ensures Extends(s, Move(s, e, target, now))
  {
    hide ProposalsFollow, Grown, GrantsKept, WithdrawalsAdvance, ClaimsAdvance, StreamGrown, DevicesAdvance;
    ExtendsReflexive(s);
    OneMoveFollows(s.proposals, e, target, now);
  }

  lemma MarkExtends(s: State, g: Id, grant: Grant)
    requires g in s.grants && GrantKept(s.grants[g], grant)
    ensures Extends(s, s.(grants := s.grants[g := grant]))
  {
    hide ProposalsFollow, Grown, GrantsKept, WithdrawalsAdvance, ClaimsAdvance, StreamGrown, DevicesAdvance;
    ExtendsReflexive(s);
    GrantMarked(s.grants, g, grant);
  }

  lemma CancelExtends(s: State, commandId: Id, enrollment: Id, reason: string, context: Context, now: Moment)
    ensures Extends(s, CancelTx(s, commandId, enrollment, reason, context, now).0)
  {
    hide Extends;
    ExtendsReflexive(s);
    var s' := CancelTx(s, commandId, enrollment, reason, context, now).0;
    if s' != s {
      var moved := Move(s, enrollment, Canceled, now);
      MoveExtends(s, enrollment, Canceled, now);
      SaveExtends(moved, CommandKey(context.actor.domain, CancelKind, commandId),
                  CancelRequest(enrollment, reason, context.actor),
                  CanceledResult(enrollment, s.proposals[enrollment].revision + 1, now));
      ExtendsTransitive(s, moved, s');
    }
  }

  lemma DeliverExtends(s: State, e: Id, g: Id, sealed: string, now: Moment)
    requires e in s.proposals && g in s.grants && s.proposals[e].state == ApprovedAwaitingHandoff
    requires s.grants[g].envelope.None?
    ensures Extends(s, Deliver(s, e, g, sealed, now))
  {
    hide Extends;
    var grant := s.grants[g].(envelope := Some(sealed), deliveredAt := Some(now));
    MoveExtends(s, e, GrantDelivered, now);
    MarkExtends(Move(s, e, GrantDelivered, now), g, grant);
    ExtendsTransitive(s, Move(s, e, GrantDelivered, now), Deliver(s, e, g, sealed, now));
  }

  lemma CollectExtends(a: Authority, s: State, commandId: Id, enrollment: Id, revision: nat, challenge: string,
                       proof: string, proofValid: bool, sealed: string, now: Moment)
    ensures Extends(s, CollectTx(a, s, commandId, enrollment, revision, challenge, proof, proofValid, sealed, now).0)
  {
    hide Extends, Deliver;
    ExtendsReflexive(s);
    var s' := CollectTx(a, s, commandId, enrollment, revision, challenge, proof, proofValid, sealed, now).0;
    if s' != s {
      var g := GrantOf(s.grants, enrollment).value;
      var delivered := if s.grants[g].envelope.Some? then s else Deliver(s, enrollment, g, sealed, now);
      if s.grants[g].envelope.None? {
        DeliverExtends(s, enrollment, g, sealed, now);
        DeliverFrame(s, enrollment, g, sealed, now);
      }
      SaveExtends(delivered, CommandKey(a.domain, CollectKind, commandId),
                  CollectRequest(enrollment, revision, Sha256(challenge), proof),
                  CollectedResult(enrollment, g, delivered.grants[g], revision, now));
      ExtendsTransitive(s, delivered, s');
    }
  }

  lemma DeliverFrame(s: State, e: Id, g: Id, sealed: string, now: Moment)
    requires e in s.proposals && g in s.grants
    ensures Deliver(s, e, g, sealed, now).results == s.results && g in Deliver(s, e, g, sealed, now).grants
    ensures Deliver(s, e, g, sealed, now).grants[g].envelope == Some(sealed)
  {
  }

  lemma ClaimsFollow(m: map<DeviceId, Claim>, c: DeviceId, claim: Claim)
    requires claim.revision == CurrentRevision(m, c) + 1
    ensures ClaimsAdvance(m, m[c := claim])
  {
  }

  lemma StreamAppends(stream: seq<ClaimEvent>, event: ClaimEvent)
    ensures StreamGrown(stream, stream + [event])
  {
  }

  lemma RowsFollow(m: map<DeviceId, DeviceRow>, d: DeviceId, row: DeviceRow)
    requires d in m ==> row.aggregateRevision > m[d].aggregateRevision
    ensures DevicesAdvance(m, m[d := row])
  {
  }

  lemma AckExtends(a: Authority, s: State, commandId: Id, request: Request, proofValid: bool, eventId: Id, now: Moment)
    requires request.AckRequest?
    ensures Extends(s, AckTx(a, s, commandId, request, proofValid, eventId, now).0)
  {
    hide ProposalsFollow, Grown, GrantsKept, WithdrawalsAdvance, ClaimsAdvance, StreamGrown, DevicesAdvance, AckNow;
    ExtendsReflexive(s);
    var s' := AckTx(a, s, commandId, request, proofValid, eventId, now).0;
    if s' != s {
      var e, g := request.enrollment, request.grant;
      var event, saved := AckShape(s, CommandKey(a.domain, AckKind, commandId), request, eventId, now);
      OneMoveFollows(s.proposals, e, GrantAcknowledged, event.time);
      RowAdded(s.acks, g, s'.acks[g]);
      RowAdded(s.outbox, event.id, event);
      RowAdded(s.results, CommandKey(a.domain, AckKind, commandId), saved);
      ClaimsFollow(s.claims, event.ref.device, s'.claims[event.ref.device]);
      StreamAppends(s.stream, event);
      RowsFollow(s.devices, event.ref.device, s'.devices[event.ref.device]);
    }
  }

  lemma UndoActiveExtends(s: State, ref: DeviceRef, now: Moment)
    requires ref.device in s.claims
    ensures var u := Undo(s, ref, now);
      ProposalsFollow(s.proposals, u.proposals) && GrantsKept(s.grants, u.grants) && ClaimsAdvance(s.claims, u.claims)
  {
    hide ProposalsFollow, GrantsKept, ClaimsAdvance, GrantKept;
    var claim := s.claims[ref.device];
    ProposalsReflexive(s.proposals);
    RevokedGrantsKept(s.grants, claim.decision, now);
    ClaimsFollow(s.claims, ref.device,
                 claim.(state := Revoked, revision := claim.revision + 1, updatedAt := now, revokedAt := Some(now)));
  }

  lemma RevokedGrantsKept(m: map<Id, Grant>, decision: Id, now: Moment)
    ensures GrantsKept(m, RevokeGrantOf(m, decision, now))
  {
    hide GrantsKept;
    GrantsReflexive(m);
    var h := GrantForDecision(m, decision);
    if h.Some? {
      GrantMarked(m, h.value, m[h.value].(revokedAt := Some(now)));
    }
  }

  lemma UndoPendingExtends(s: State, ref: DeviceRef, now: Moment)
    requires ref.device !in s.claims && Revocable(s, ref)
    requires AllowedTransition(s.proposals[s.grants[GrantForRef(s.grants, ref).value].enrollment].state, ClaimRevoked)
    ensures var u := Undo(s, ref, now);
      ProposalsFollow(s.proposals, u.proposals) && GrantsKept(s.grants, u.grants) && ClaimsAdvance(s.claims, u.claims)
  {
    hide ProposalsFollow, GrantsKept, ClaimsAdvance, GrantKept;
    var g := GrantForRef(s.grants, ref).value;
    OneMoveFollows(s.proposals, s.grants[g].enrollment, ClaimRevoked, now);
    assert GrantKept(s.grants[g], s.grants[g].(revokedAt := Some(now))) by { RevokedGrantKept(s.grants[g], now); }
    GrantMarked(s.grants, g, s.grants[g].(revokedAt := Some(now)));
    ClaimsFollow(s.claims, ref.device, Undo(s, ref, now).claims[ref.device]);
  }

  lemma RevokedGrantKept(grant: Grant, now: Moment)
    ensures GrantKept(grant, grant.(revokedAt := Some(now)))
  {
  }

  lemma GrantsReflexive(m: map<Id, Grant>)
    ensures GrantsKept(m, m)
  {
  }

  lemma RevokeExtends(s: State, commandId: Id, ref: DeviceRef, reason: string, context: Context, eventId: Id,
                      now: Moment)
    ensures Extends(s, RevokeTx(s, commandId, ref, reason, context, eventId, now).0)
  {
    hide ProposalsFollow, Grown, GrantsKept, WithdrawalsAdvance, ClaimsAdvance, StreamGrown, DevicesAdvance;
    hide RevokeNow, Undo, Revocable, RevokeProblem, RevokedRows;
    ExtendsReflexive(s);
    var key := CommandKey(context.actor.domain, RevokeKind, commandId);
    var s' := RevokeTx(s, commandId, ref, reason, context, eventId, now).0;
    if s' != s {
      if ref.device in s.claims && s.claims[ref.device].state == Revoked {
        RowAdded(s.results, key, s'.results[key]);
      } else {
        NoProblem(s, ref, context);
        RevokeNowExtends(s, key, ref, reason, context, eventId, now);
      }
    }
  }

  lemma RevokeNowExtends(s: State, key: CommandKey, ref: DeviceRef, reason: string, context: Context, eventId: Id,
                         now: Moment)
    requires RevokeProblem(s, ref, context).None? && Revocable(s, ref) && key !in s.results && eventId !in s.outbox
    ensures Extends(s, RevokeNow(s, key, ref, reason, eventId, now))
  {
    hide ProposalsFollow, Grown, GrantsKept, WithdrawalsAdvance, ClaimsAdvance, StreamGrown, DevicesAdvance;
    hide RevokeNow, Undo, RevokedRows;
    if ref.device in s.claims {
      UndoActiveExtends(s, ref, now);
    } else {
      UndoPendingExtends(s, ref, now);
    }
    hide Revocable, RevokeProblem;
    UndoFrame(s, ref, now);
    var event, saved := RevokeShape(s, key, ref, reason, eventId, now);
    ExtendsReflexive(s);
    RowAdded(s.outbox, event.id, event);
    RowAdded(s.results, key, saved);
    StreamAppends(s.stream, event);
    RevokedRowsFollow(s.devices, ref, now);
  }

  lemma RevokedRowsFollow(m: map<DeviceId, DeviceRow>, ref: DeviceRef, now: Moment)
    ensures DevicesAdvance(m, RevokedRows(m, ref, now))
  {
  }

  lemma CommitExtends(s: State, device: DeviceId, expected: DeviceRow, change: DeviceChange, eventId: Id,
                      event: ManagementEvent)
    ensures Extends(s, CommitTx(s, device, expected, change, eventId, event))
  {
    hide ProposalsFollow, GrantsKept, WithdrawalsAdvance, ClaimsAdvance, StreamGrown, DevicesAdvance;
    ExtendsReflexive(s);
    if Lands(s, device, expected, eventId, event) {
      RowsFollow(s.devices, device, Changed(expected, change));
    }
  }

  lemma StandingExtends(s: State, jti: Id, keyId: KeyId, context: Context, now: Moment)
    ensures Extends(s, RecordStandingTx(s, jti, keyId, context, now).0)
  {
    hide ProposalsFollow, GrantsKept, WithdrawalsAdvance, ClaimsAdvance, StreamGrown, DevicesAdvance;
    ExtendsReflexive(s);
  }

  lemma WithdrawExtends(s: State, principal: Id, context: Context, now: Moment)
    ensures Extends(s, WithdrawTx(s, principal, context, now).0)
  {
    hide ProposalsFollow, Grown, GrantsKept, ClaimsAdvance, StreamGrown, DevicesAdvance, ValidPrincipal;
    ExtendsReflexive(s);
  }

  lemma StepExtends(a: Authority, s: State, step: Step)
    ensures Extends(s, Apply(a, s, step))
  {
    hide Extends, CreateTx, ExpireTx, CancelTx, DecideTx, CollectTx, AckTx, RevokeTx, RecordStandingTx, WithdrawTx,
      CommitTx;
    ExtendsReflexive(s);
    if WellFormed(step) {
      match step
      case Create(commandId, payload, verified, enrollment, challenge, ids, now) =>
        CreateExtends(a, s, commandId, payload, verified, enrollment, challenge, ids, now);
      case RecordStanding(jti, keyId, context, now) => StandingExtends(s, jti, keyId, context, now);
      case Withdraw(principal, context, now) => WithdrawExtends(s, principal, context, now);
      case ExpireDue(now) => ExpireExtends(s, now);
      case Cancel(commandId, enrollment, reason, context, now) =>
        CancelExtends(s, commandId, enrollment, reason, context, now);
      case Decide(commandId, request, context, ids, now) => DecideExtends(a, s, commandId, request, context, ids, now);
      case Collect(commandId, enrollment, revision, challenge, proof, proofValid, sealed, now) =>
        CollectExtends(a, s, commandId, enrollment, revision, challenge, proof, proofValid, sealed, now);
      case AckGrant(commandId, request, proofValid, eventId, now) =>
        AckExtends(a, s, commandId, request, proofValid, eventId, now);
      case Revoke(commandId, ref, reason, context, eventId, now) =>
        RevokeExtends(s, commandId, ref, reason, context, eventId, now);
      case CommitDevice(device, expected, change, eventId, event) =>
        CommitExtends(s, device, expected, change, eventId, event);
    }
  }

  /** Nothing durable is taken back by any run. */
  lemma {:induction false} RunExtends(a: Authority, s: State, steps: seq<Step>)
    ensures Extends(s, Run(a, s, steps))
    decreases |steps|
  {
    hide Extends, Apply;
    if steps == [] {
      ExtendsReflexive(s);
    } else {
      var before := Run(a, s, steps[..|steps| - 1]);
      RunExtends(a, s, steps[..|steps| - 1]);
      StepExtends(a, before, steps[|steps| - 1]);
      ExtendsTransitive(s, before, Run(a, s, steps));
    }
  }

  lemma {:induction false} RunSplits(a: Authority, s: State, xs: seq<Step>, ys: seq<Step>)
    ensures Run(a, s, xs + ys) == Run(a, Run(a, s, xs), ys)
    decreases |ys|
  {
    hide Apply;
    if ys == [] {
      assert xs + ys == xs;
    } else {
      assert (xs + ys)[..|xs + ys| - 1] == xs + ys[..|ys| - 1];
      RunSplits(a, s, xs, ys[..|ys| - 1]);
    }
  }
}
