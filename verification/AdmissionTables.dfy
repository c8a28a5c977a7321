/** The Admission tables as one value, and the queries and writes of the Admission store. */
module AdmissionTables {
  import opened Prelude
  import opened AdmissionDomain

  /** Deployment constants of one Authority. */
  datatype Authority = Authority(
    domain: Id,
    domainGeneration: nat,
    proposalTtl: int,
    grantTtl: int,
    decideFromStanding: bool)

  datatype State = State(
    proposals: map<Id, Proposal>,
    decisions: map<Id, Decision>,
    grants: map<Id, Grant>,
    acks: map<Id, Ack>,
    claims: map<DeviceId, Claim>,
    results: map<CommandKey, SavedResult>,
    outbox: map<Id, ClaimEvent>,
    stream: seq<ClaimEvent>,
    bindings: map<Id, Binding>,
    vouchers: map<Id, Voucher>,
    standings: map<Id, Standing>,
    withdrawals: map<(Id, Id), Withdrawal>,
    devices: map<DeviceId, DeviceRow>,
    management: map<Id, ManagementEvent>)

  const EmptyState := State(map[], map[], map[], map[], map[], map[], map[], [], map[], map[], map[], map[], map[],
                            map[])

  // Lookups by a column that is not the primary key.

  ghost function DecisionOf(decisions: map<Id, Decision>, enrollment: Id): (r: Option<Id>)
    ensures r.None? ==> forall d :: d in decisions ==> decisions[d].enrollment != enrollment
    ensures r.Some? ==> r.value in decisions && decisions[r.value].enrollment == enrollment
  {
    if d :| d in decisions && decisions[d].enrollment == enrollment then Some(d) else None
  }

  ghost function GrantOf(grants: map<Id, Grant>, enrollment: Id): (r: Option<Id>)
    ensures r.None? ==> forall g :: g in grants ==> grants[g].enrollment != enrollment
    ensures r.Some? ==> r.value in grants && grants[r.value].enrollment == enrollment
  {
    if g :| g in grants && grants[g].enrollment == enrollment then Some(g) else None
  }

  ghost function GrantForRef(grants: map<Id, Grant>, ref: DeviceRef): (r: Option<Id>)
    ensures r.None? ==> forall g :: g in grants ==> grants[g].ref != ref
    ensures r.Some? ==> r.value in grants && grants[r.value].ref == ref
  {
    if g :| g in grants && grants[g].ref == ref then Some(g) else None
  }

  ghost function GrantForDecision(grants: map<Id, Grant>, decision: Id): (r: Option<Id>)
    ensures r.None? ==> forall g :: g in grants ==> grants[g].decision != decision
    ensures r.Some? ==> r.value in grants && grants[r.value].decision == decision
  {
    if g :| g in grants && grants[g].decision == decision then Some(g) else None
  }

  ghost function BindingForKey(bindings: map<Id, Binding>, keyId: KeyId): (r: Option<Id>)
    ensures r.None? ==> forall b :: b in bindings ==> bindings[b].keyId != keyId
    ensures r.Some? ==> r.value in bindings && bindings[r.value].keyId == keyId
  {
    if b :| b in bindings && bindings[b].keyId == keyId then Some(b) else None
  }

  // The highest Claim generation any Grant of a hardware identity carries; 0 without one.

  ghost predicate Granted(grants: map<Id, Grant>, domain: Id, hardware: Id, generation: nat) {
    exists g :: g in grants && grants[g].domain == domain && grants[g].hardware == hardware
                && grants[g].claimGeneration == generation
  }

  ghost predicate IsMaxGeneration(grants: map<Id, Grant>, domain: Id, hardware: Id, generation: nat) {
    && (forall g :: g in grants && grants[g].domain == domain && grants[g].hardware == hardware
          ==> grants[g].claimGeneration <= generation)
    && (generation == 0 || Granted(grants, domain, hardware, generation))
  }

  lemma {:induction false} MaxGenerationExists(grants: map<Id, Grant>, domain: Id, hardware: Id)
    ensures exists n: nat :: IsMaxGeneration(grants, domain, hardware, n)
    decreases |grants|
  {
    if grants == map[] {
      assert IsMaxGeneration(grants, domain, hardware, 0);
    } else {
      var g :| g in grants;
      var rest := grants - {g};
      assert |grants| == |rest| + 1 by { assert rest.Keys == grants.Keys - {g}; }
      MaxGenerationExists(rest, domain, hardware);
      var n: nat :| IsMaxGeneration(rest, domain, hardware, n);
      assert Granted(rest, domain, hardware, n) ==> Granted(grants, domain, hardware, n);
      var fits := grants[g].domain == domain && grants[g].hardware == hardware;
      var m := if fits && grants[g].claimGeneration > n then grants[g].claimGeneration else n;
      assert m != n ==> Granted(grants, domain, hardware, m);
      forall x | x in grants && grants[x].domain == domain && grants[x].hardware == hardware
        ensures grants[x].claimGeneration <= m
      {
        if x != g { assert x in rest && rest[x] == grants[x]; }
      }
      assert IsMaxGeneration(grants, domain, hardware, m);
    }
  }

  ghost function MaxGeneration(grants: map<Id, Grant>, domain: Id, hardware: Id): (n: nat)
    ensures IsMaxGeneration(grants, domain, hardware, n)
  {
    MaxGenerationExists(grants, domain, hardware);
    var n: nat :| IsMaxGeneration(grants, domain, hardware, n);
    n
  }

  // The standing a continuation is answered by: latest first, then highest jti.

  predicate LaterStanding(standings: map<Id, Standing>, a: Id, b: Id)
    requires a in standings && b in standings
  {
    standings[a].recordedAt > standings[b].recordedAt
    || (standings[a].recordedAt == standings[b].recordedAt && TextLess(b, a))
  }

  predicate StandingFits(standing: Standing, domain: Id, keyId: KeyId) {
    standing.domain == domain && standing.keyId == keyId
  }

  ghost predicate IsLatestStanding(standings: map<Id, Standing>, domain: Id, keyId: KeyId, jti: Id) {
    && jti in standings && StandingFits(standings[jti], domain, keyId)
    && (forall j :: j in standings && j != jti && StandingFits(standings[j], domain, keyId)
          ==> LaterStanding(standings, jti, j))
  }

  ghost function LatestStanding(standings: map<Id, Standing>, domain: Id, keyId: KeyId): Option<Id> {
    if jti :| IsLatestStanding(standings, domain, keyId, jti) then Some(jti) else None
  }

  lemma LatestStandingUnique(standings: map<Id, Standing>, domain: Id, keyId: KeyId, jti: Id)
    requires IsLatestStanding(standings, domain, keyId, jti)
    ensures LatestStanding(standings, domain, keyId) == Some(jti)
  {
    var other := LatestStanding(standings, domain, keyId).value;
    if other != jti {
      assert LaterStanding(standings, jti, other) && LaterStanding(standings, other, jti);
      if standings[jti].recordedAt == standings[other].recordedAt {
        TextLessAsymmetric(jti, other);
      }
    }
  }

  /** Rejected before, or removed: such a Body needs a Controller beside it again. */
  predicate RequiresFreshPresence(s: State, domain: Id, hardware: Id) {
    || (exists e :: e in s.proposals && s.proposals[e].domain == domain && s.proposals[e].hardware == hardware
                    && s.proposals[e].state == Rejected)
    || (exists d :: d in s.claims && s.claims[d].domain == domain && s.claims[d].hardware == hardware
                    && s.claims[d].state == Revoked)
  }

  datatype Earlier = Fresh | Answered(result: CommandResult) | Reused

  /** The saved result of a command id, unless another payload was saved under it. */
  function Replay(results: map<CommandKey, SavedResult>, key: CommandKey, request: Request): Earlier {
    if key !in results then Fresh
    else if results[key].request != request then Reused
    else Answered(results[key].result)
  }

  /** The reply of a command whose id was used before, or nothing when it is fresh. */
  function Answer(earlier: Earlier): Option<Reply> {
    match earlier
    case Fresh => None
    case Answered(result) => Some(Replayed(result))
    case Reused => Some(Refused(IdempotencyConflict))
  }

  function Save(s: State, key: CommandKey, request: Request, result: CommandResult): State {
    s.(results := s.results[key := SavedResult(request, result)])
  }

  /** A Claim event goes to the outbox and to the recovery stream in one write. */
  function Publish(s: State, event: ClaimEvent): State {
    s.(outbox := s.outbox[event.id := event], stream := s.stream + [event])
  }

  function Reached(proposal: Proposal, state: ProposalState, now: Moment): Proposal {
    proposal.(state := state, revision := proposal.revision + 1, updatedAt := now)
  }

  function Move(s: State, enrollment: Id, state: ProposalState, now: Moment): State
    requires enrollment in s.proposals
  {
    s.(proposals := s.proposals[enrollment := Reached(s.proposals[enrollment], state, now)])
  }

  /** Insert the Claim, or overwrite every column of the one this Body had, counting on. */
  function UpsertClaim(s: State, device: DeviceId, claim: Claim): State {
    s.(claims := s.claims[device := claim.(revision := ClaimRevision(s, device, claim))])
  }

  function ClaimRevision(s: State, device: DeviceId, claim: Claim): nat {
    if device in s.claims then s.claims[device].revision + 1 else claim.revision
  }

  function ProjectActive(s: State, ref: DeviceRef, owner: Id, manifest: ManifestRef, now: Moment): State {
    s.(devices := s.devices[ref.device := ActiveRow(s.devices, ref, owner, manifest, now)])
  }

  /** A Body that comes back keeps its output policy and counts on. */
  function ActiveRow(devices: map<DeviceId, DeviceRow>, ref: DeviceRef, owner: Id, manifest: ManifestRef, now: Moment)
    : DeviceRow
  {
    DeviceRow(
      manifest,
      if ref.device in devices then devices[ref.device].policy else None,
      now, now, ref.domainGeneration, ref.claimGeneration, ref.trustEpoch,
      if ref.device in devices then devices[ref.device].aggregateRevision + 1 else 1,
      owner, true)
  }

  predicate SameGeneration(row: DeviceRow, ref: DeviceRef) {
    row.domainGeneration == ref.domainGeneration && row.claimGeneration == ref.claimGeneration
    && row.trustEpoch == ref.trustEpoch
  }

  /** Only the row of exactly this generation is marked revoked. */
  function RevokedRows(devices: map<DeviceId, DeviceRow>, ref: DeviceRef, now: Moment): map<DeviceId, DeviceRow> {
    if ref.device !in devices || !SameGeneration(devices[ref.device], ref) then devices
    else
      var row := devices[ref.device];
      devices[ref.device := row.(approved := false, updatedAt := now, aggregateRevision := row.aggregateRevision + 1)]
  }

  function ProjectRevoked(s: State, ref: DeviceRef, now: Moment): State {
    s.(devices := RevokedRows(s.devices, ref, now))
  }
}
