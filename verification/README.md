# Device Authority proofs

A Dafny model of the Hub's Admission Authority and of what hangs off it, with proofs about every run.

The Admission tables are maps keyed by their primary keys; a transaction is a function from tables and inputs to tables
and reply, and the class `AdmissionAuthority` carries the commands out in place and is proved to do exactly that. Fresh
ids, clock readings, the sealed envelope and the outcome of signature checks are inputs of a step, so every theorem holds
for any values of them: clocks need not advance, and a colliding id is a refused write. Digests, key ids and device ids
are injective constructors.

- `Prelude`, `AdmissionDomain`, `AdmissionTables`, `AdmissionCommands`: values, rows, queries, and each transaction.
- `AdmissionInvariant`, `AdmissionPreservation`, `AdmissionHistory`, `AdmissionTheorems`: what the tables keep, what a run
  never takes back, and the properties of all reachable states and all runs.
- `AdmissionProgress`: what goes through from any state, and concrete runs behind the conditions below.
- `AdmissionAuthority`: the commands in place, with their loops and rollbacks.
- `ClaimRevisionRepair`: the startup renumbering of legacy Claim histories, refined against both producers.
- `DeviceRows`: Manifest assertions and policy updates, split into read and commit, among Admission transactions.
- `DeviceErase`, `EraseFeed`: the erase ledger, and what the revocation stream of a running Authority makes of it.
- `SmartHomeExecute`: idempotent execution as interleaved calls over the durable receipts, with crashes.
- `Observations`: both observation caches and a reader of the change stream.
- `RegistryImporter`: the registry sync and its convergence.
- `AuthorityBootstrap`: database marker, anchor and bootstrap file across crashes.
- `Pages`: Claim-event and Proposal pages read while transactions go on.

`dafny verify dfyconfig.toml` checks the project.

Where the code does not bear out the stronger reading of its own words, the code is kept and the exact condition proved:

- The Claim row's generation can go down: exactly by a committed acknowledgement of a Grant older than the Claim
  (`GenerationFallsWhen`, `GenerationRisesUnless`, `GenerationFalls`). Its revision cannot.
- The erase projection says every revocation becomes an operation. It does exactly while the Claim is still at the
  revoked generation when the first pass runs; once missed, no pass ever succeeds again (`PassSucceedsWhenCurrent`,
  `ReclaimBeforePassMisses`, `MissedIsReachable`, `MissedForever`).
- The SQLite observation numbers are those of the memory cache exactly while no forget drops the newest row; otherwise a
  reader can miss a row for good (`SqliteMatchesMemory`, `ForgottenNumberIsReused`).
- A pull reads the clock twice and takes the lock three times; it comes back empty exactly when a settlement came in
  between or the second reading is past the deadline there is by then (`PullYieldsCommand`, `ProvedPullYieldsCommand`).
- First installation accepts a bootstrap with extra keys, but a crash behind its database commit is then not recoverable
  (`RecoveryNeedsExactBootstrap`).
- While the anchor is missing the database row is not compared with the configuration: a start under another Owner's
  goes through once with that Owner's bootstrap; from then on exactly starts under the row's own Owner are accepted
  (`MissingAnchorIsNotCompared`).
- The idempotency of execution ends exactly with its window (`SecondPerformPastWindow`).
- The repair is accepted exactly when the re-activations advance; since Grants may be acknowledged in any order they need
  not (`RepairRefinesProducer`, `RefusalIsReachable`).

## Model

| member | source | states |
|---|---|---|
| `AdmissionAuthority.AdmissionAuthority.RecordCommissioningStanding` | hub/admission/application.py:511-543 | Needs the approve scope; the first standing of a jti is stored with key, domain, owner, Controller and moment; the same one again changes nothing, another under that jti is refused; the tables stay in the invariant |
| `AdmissionAuthority.AdmissionAuthority.WithdrawController` | hub/admission/application.py:478-509 | Stores or moves forward the withdrawal moment of a Controller, never back, and answers the moment that now stands; the tables stay in the invariant |
| `AdmissionAuthority.LatestStandingForKey` | hub/admission/persistence.py:435-457 | The loop finds the standing of a key that is latest by moment and then by jti, or none when the key has none |
| `AdmissionAuthority.AdmissionAuthority.StandingOf` | hub/admission/application.py:424-476 | The standing a Proposal arrives with: by jti for a voucher, the latest of its key for a continuation, and only if it fits domain and key, carries the approve scope and was recorded after the last withdrawal |
| `AdmissionAuthority.MaxClaimGeneration` | hub/admission/persistence.py:165-177 | The loop finds the highest Claim generation any Grant of the hardware identity carries, 0 without one |
| `AdmissionAuthority.AdmissionAuthority.DecideHere` | hub/admission/application.py:790-915 | One Decision at the Proposal's revision, the Proposal moved and counted, and for an approval the Grant of the next generation; a refused write is reported |
| `AdmissionAuthority.AdmissionAuthority.ExpireDue` | hub/admission/application.py:545-589 | The loop expires exactly the open Proposals past their deadline, revokes exactly their unrevoked Grants and counts them; the invariant is kept |
| `AdmissionAuthority.AdmissionAuthority.CommissionHere` | hub/admission/persistence.py:305-386 | A voucher is spent at most once and a base id bound to one key and a key to one base id, or the step is refused |
| `AdmissionAuthority.AdmissionAuthority.AskHere` | hub/admission/application.py:299-353 | Standing to ask: a voucher commissions; a continuation needs its issued binding and no earlier rejection or removal |
| `AdmissionAuthority.AdmissionAuthority.CreateEnrollment` | hub/admission/application.py:156-422 | The whole creation: refusals in order, replay, standing proved, Proposal and result stored, decided at once by a recorded standing, or all of it rolled back; the invariant is kept |
| `AdmissionAuthority.AdmissionAuthority.CancelEnrollment` | hub/admission/application.py:591-678 | Scope, replay, expiry, then the transaction: a pending Proposal of the caller's domain is canceled and the result saved, anything else refused unchanged |
| `AdmissionAuthority.AdmissionAuthority.DecideEnrollment` | hub/admission/application.py:680-788 | Authorization, replay and expiry, then the transaction: an unexpired pending Proposal at the expected revision and reviewed Manifest is decided, anything else refused unchanged |
| `AdmissionAuthority.AdmissionAuthority.CollectClaimGrant` | hub/admission/application.py:917-1105 | Replay and expiry, then the refusals in order, or the Grant's one envelope: sealed and delivered on the first collection, repeated afterwards |
| `AdmissionAuthority.AdmissionAuthority.AckClaimGrant` | hub/admission/application.py:1107-1294 | Replay and expiry, then the refusals in order, or: acknowledgement, Claim inserted or overwritten and counted on, directory row, Proposal, result and Claim event in one transaction |
| `AdmissionAuthority.AdmissionAuthority.RevokeClaim` | hub/admission/application.py:1296-1479 | The refusals in order, or: the Claim (or the never acknowledged Grant) revoked, row, result and event in one transaction; a Claim revoked before answers without an event |
| `AdmissionPreservation.StepKeeps` | hub/admission/application.py:156-1479 | Every transaction keeps the whole invariant: bindings, Proposals, Decisions, Grants, stages, Claims with provenance, stream, directory rows and results |
| `AdmissionPreservation.RunKeeps` | hub/admission/application.py:156-1479 | So does every run of transactions, in any order and with any inputs |
| `AdmissionPreservation.NextGenerationFits` | hub/admission/application.py:836-888 | Minting max + 1 neither repeats nor skips a generation of the hardware identity |
| `AdmissionHistory.RunExtends` | hub/admission/persistence.py:165-221 | Over any run nothing durable is taken back: Proposals only move on, Decisions, acknowledgements, bindings, vouchers, standings, results and events stay, the stream is only appended to |
| `AdmissionTheorems.ProposalCountsItsMoves` | hub/admission/domain.py:68-104 | In every reachable state a Proposal's revision is 1 plus the number of allowed moves that lead to its state |
| `AdmissionTheorems.ProposalMovesAllowed` | hub/admission/domain.py:68-104 | Between any two moments of a run a Proposal only moves along allowed transitions, one revision each, and nothing else of it changes |
| `AdmissionTheorems.TerminalForever` | hub/admission/domain.py:68-104 | A terminal Proposal is never touched again |
| `AdmissionTheorems.OneDecisionAtRevisionOne` | hub/admission/application.py:790-834 | At most one Decision per Proposal, taken at revision 1 on the Manifest the Proposal carries |
| `AdmissionTheorems.GenerationsWithoutReuse` | hub/admission/application.py:846-888 | The Grants of a hardware identity carry exactly the generations 1..n, each once |
| `AdmissionTheorems.KeyHasOneHardwareIdentity` | hub/admission/persistence.py:305-351 | Over any run a device, and the key it is derived from, has one hardware identity |
| `AdmissionTheorems.DeviceRefLivesOnce` | hub/admission/application.py:1155-1212 | Per DeviceRef at most one Grant, and of two events the earlier is its activation and the later its revocation: never two of a kind, never an activation after a revocation |
| `AdmissionTheorems.ClaimProvenance` | hub/admission/application.py:1149-1225 | Behind every Claim stands an approving Decision, its Grant and its Proposal, agreeing on device, key, hardware, Manifest and owner; active means acknowledged, unrevoked and grant_acknowledged, revoked means the Grant is revoked |
| `AdmissionTheorems.EventsAreNumbered` | hub/admission/persistence.py:202-220 | Each device's Claim events are numbered exactly 1..k, k being the Claim row's revision |
| `AdmissionTheorems.StreamTellsClaims` | hub/admission/persistence.py:599-636 | The last event of a device tells its Claim: generation, state and revision |
| `AdmissionTheorems.GenerationFallsWhen` | hub/admission/application.py:1149-1212 | From any state a step takes a Claim to a lower generation exactly when it is a committed acknowledgement of a Grant of that device older than the Claim |
| `AdmissionTheorems.GenerationRisesUnless` | hub/admission/application.py:1149-1212 | Over any run a Claim's generation never falls exactly when no such acknowledgement commits in it |
| `AdmissionTheorems.ClaimRevisionNeverFalls` | hub/admission/persistence.py:202-220 | Over any run a Claim's revision never goes down |
| `AdmissionTheorems.CommittedIsSaved` | hub/admission/persistence.py:555-596 | A committed command was authorized, was new, and leaves its request and result on record |
| `AdmissionTheorems.RepeatIsReplayed` | hub/admission/persistence.py:555-575 | A repeat of a saved command changes nothing and answers with the saved result |
| `AdmissionTheorems.ReuseIsRefused` | hub/admission/persistence.py:555-575 | A command id used for another payload is refused and changes nothing |
| `AdmissionTheorems.RetriesAreInvisible` | hub/admission/persistence.py:555-596 | Dropping every repeat from a run, wherever it stands, ends in identical tables |
| `AdmissionTheorems.CommittedAnswersForever` | hub/admission/persistence.py:555-596 | A committed command repeated at any later point of a run answers with its first result |
| `AdmissionTheorems.OneEnvelope` | hub/admission/application.py:944-1078 | Any two successful collections of an enrollment, under any command ids and whatever lies between, return the same envelope |
| `AdmissionTheorems.StandingDecidesProposal` | hub/admission/application.py:395-420 | A committed creation leaves its Proposal pending without a standing, and approved in the standing's Controller and owner with one |
| `AdmissionTheorems.WithdrawalNeverMovesBack` | hub/admission/persistence.py:459-494 | Over any run the withdrawal moment of a Controller never moves back |
| `AdmissionTheorems.WithdrawalIsFinal` | hub/admission/application.py:424-476 | Once a Controller is withdrawn at w, no standing it recorded at or before w decides any later Proposal, by voucher or continuation, whatever is recorded or withdrawn in between |
| `AdmissionTheorems.BindingsArePermanent` | hub/admission/persistence.py:305-351 | Bindings are never changed, and stay a partial one-to-one map between base ids and keys |
| `AdmissionTheorems.VoucherBacksOneProposal` | hub/admission/persistence.py:353-386 | In any run a voucher backs at most one committed creation |
| `AdmissionTheorems.RejectionNeedsPresence` | hub/admission/persistence.py:504-536 | After a rejection for a hardware identity every later Proposal for it was created by voucher |
| `AdmissionProgress.HandOverGoesThrough` | hub/admission/application.py:156-1105 | From any state in the invariant, under either decide_from_standing and at any moments before the deadlines, a well-made Proposal with an unspent voucher and unused ids is created, approved (by the standing its voucher has, or else by hand) and collected: one Decision in that Controller's name, the Grant of the hardware identity's next generation, and nothing else moved |
| `AdmissionProgress.AckActivates` | hub/admission/application.py:1107-1294 | A delivered, unrevoked, unexpired Grant of any DeviceRef is acknowledged into an active Claim at its generation with one activation event, whatever Claim the device has, the revision counted on and every other Claim left alone |
| `AdmissionProgress.RemovalGoesThrough` | hub/admission/application.py:1296-1479 | An active Claim is revoked by its owner, for any reason and at any moment: the Claim ends revoked and counted on, exactly its Grant is marked, its row is withdrawn, one revocation event is published, nothing else moves |
| `AdmissionProgress.GenerationFalls` | hub/admission/application.py:1149-1212 | It happens: two Grants of one device acknowledged last first take the active Claim from generation 2 to 1 |
| `AdmissionProgress.ComesBack` | hub/admission/application.py:836-888 | A device admitted, removed and admitted again by a second voucher is active one generation on, its revocation in the stream |
| `AdmissionProgress.SamplesAreWelcome` | hub/admission/application.py:156-422 | Under any Authority with positive deadlines concrete Proposals meet every condition of these runs, so they exist |
| `ClaimRevisionRepair.Plan` | hub/adapters/persistence/claim_revision_migration.py:28-46 | The inner loop renumbers one history: refused exactly when some event is neither moving on nor the known reset, else it plans exactly the misnumbered events with their new revisions |
| `ClaimRevisionRepair.ClaimHistory.Repair` | hub/adapters/persistence/claim_revision_migration.py:18-63 | The repair succeeds exactly on repairable tables, then stream and outbox copies are rewritten at exactly the misnumbered positions and it counts them; otherwise nothing changes |
| `ClaimRevisionRepair.RepairTouchesResetsOnly` | hub/adapters/persistence/claim_revision_migration.py:32-43 | A repaired event keeps everything but its revision, and only activations stamped 1 at a newer generation than the event before change |
| `ClaimRevisionRepair.RepairAscends` | hub/adapters/persistence/claim_revision_migration.py:24-46 | After the repair each subject's revisions strictly ascend |
| `ClaimRevisionRepair.RepairIsIdempotent` | hub/adapters/persistence/claim_revision_migration.py:1-7 | A second repair accepts what the first left, whatever else is in the tables, and changes nothing |
| `ClaimRevisionRepair.RepairRefinesProducer` | hub/adapters/persistence/claim_revision_migration.py:24-59 | Over the stream of the legacy producer the repair is accepted exactly when every re-activation is at a newer generation, and yields the stream of the present producer |
| `ClaimRevisionRepair.AdmissionIsPresentProducer` | hub/admission/persistence.py:202-220 | In every reachable Admission state the stream is what the present producer writes and the Claim rows hold its counts |
| `ClaimRevisionRepair.NothingToRepair` | hub/adapters/persistence/claim_revision_migration.py:18-63 | On every reachable Admission state the repair finds nothing to do, even after out-of-order acknowledgements and revocations before them |
| `ClaimRevisionRepair.LegacyAdmissionIsRestored` | hub/adapters/persistence/claim_revision_migration.py:24-59 | Had the legacy producer written a reachable history, the repair would restore it exactly when its re-activations advance |
| `ClaimRevisionRepair.RefusalIsReachable` | hub/adapters/persistence/claim_revision_migration.py:34-41 | Under any Authority with positive deadlines some reachable history does not advance, so its legacy form would be refused |
| `DeviceRows.DeviceMutations.Commit` | hub/adapters/persistence/repositories.py:214-246 | The compare-and-set: subject, expected row and event id are checked, then row and audit record are written, or nothing is |
| `DeviceRows.DeviceMutations.CommitChange` | hub/device_control/output_policy.py:125-147 | The use case's commit leaves exactly what the commit step of the interleaved model leaves, and lands exactly when that one lands |
| `DeviceRows.RowsAgreeWithClaims` | hub/admission/persistence.py:223-293 | Under every interleaving of Admission transactions with Manifest and policy updates a device row has its Claim's generations and owner and is approved exactly when the Claim is active; every active Claim has its row |
| `DeviceRows.StaleCommitNeverLands` | hub/adapters/persistence/repositories.py:222-238 | A commit lands only if no step between its read and itself changed the row |
| `DeviceRows.SameRowWasKept` | hub/adapters/persistence/repositories.py:228-236 | A row that looks the same at two moments was the same at every moment between |
| `DeviceRows.PolicyStep` | hub/device_control/output_policy.py:101-147 | A step changes a device's output policy exactly when it commits a policy update, then to the prepared policy, one revision up |
| `DeviceRows.AdmissionKeepsPolicy` | hub/admission/persistence.py:223-273 | No Admission transaction touches an output policy: a Body that comes back keeps its own |
| `DeviceRows.PolicyRevisionCounts` | hub/device_control/output_policy.py:101-147 | Over any run the policy revision rises by exactly the number of committed policy changes |
| `DeviceRows.RetryFindsItsPolicy` | hub/device_control/output_policy.py:107-122 | A retry of a committed policy update, before any later one, finds its own policy standing or is refused entry, and never prepares a second change |
| `DeviceRows.ManifestNeverRollsBack` | hub/device_control/application.py:209-256 | Between two moments at the same DeviceRef the Manifest keeps its name and its declared revision rose, or it is the same Manifest |
| `DeviceErase.DeviceEraseLedger.MaterializeClaimEvents` | hub/adapters/persistence/device_erase.py:78-179 | The pass over the stream creates the operations the specification says and counts them; on a conflict the ledger is as before |
| `DeviceErase.DeviceEraseLedger.ExpireDue` | hub/adapters/persistence/device_erase.py:181-202 | The loop lapses exactly the unsettled operations past their deadline and counts them |
| `DeviceErase.DeviceEraseLedger.MarkAcceptedPending` | hub/adapters/persistence/device_erase.py:204-217 | The loop marks exactly the waiting operations before their deadline pending and counts them |
| `DeviceErase.DeviceEraseLedger.RearmLapsed` | hub/adapters/persistence/device_erase.py:283-332 | A settled or still running operation is left alone, any other gets a fresh deadline, command and fingerprint; unknown ids and non-positive ttls are refused |
| `DeviceErase.DeviceEraseLedger.AcceptDelivery` | hub/adapters/persistence/device_erase.py:334-366 | A late delivery lapses an unsettled operation, an ended one is left alone, else the attempt is recorded and counted once per attempt |
| `DeviceErase.DeviceEraseLedger.ApplyAckHere` | hub/adapters/persistence/device_erase.py:368-419 | An acknowledgement is refused, answered from its evidence, or recorded and, if the operation still runs, applied to it |
| `DeviceErase.DeviceEraseLedger.PullErase` | hub/device_control/application.py:328-377 | The pull with nothing between its three locked sections: it answers nothing, refuses a wrong key, or re-arms what is over and delivers |
| `DeviceErase.StepKeeps` | hub/adapters/persistence/device_erase.py:181-419 | Every ledger step keeps row, command and fingerprint in agreement, one operation per event, and settlement by exactly one applied piece of evidence |
| `DeviceErase.SettledStays` | hub/adapters/persistence/device_erase.py:296-419 | No step changes a settled operation, and none changes an operation's event, generation, birth or key |
| `DeviceErase.RearmRaises` | hub/adapters/persistence/device_erase.py:283-332 | With clock readings that never fall, re-arming strictly raises the deadline and keeps identity, birth, key and attempt count |
| `DeviceErase.PullYieldsCommand` | hub/device_control/application.py:336-377 | A proved pull for an unsettled operation yields its command with a future deadline exactly when the second clock reading is before the deadline the first one left; with one reading always |
| `EraseFeed.OneOperationEach` | hub/adapters/persistence/device_erase.py:269-281 | In every reachable state each revocation event and each DeviceRef has at most one operation, and each operation its revocation in the stream |
| `EraseFeed.SettlementIsEvidence` | hub/adapters/persistence/device_erase.py:368-419 | Under any interleaving an operation is acknowledged or failed exactly when exactly one of its evidence rows is applied, and its outcome is that row's |
| `EraseFeed.RunKeepsOperations` | hub/adapters/persistence/device_erase.py:181-419 | Over any run a settled operation is never changed and no operation or evidence is dropped |
| `EraseFeed.SequenceReuseRefused` | hub/adapters/persistence/device_erase.py:380-389 | For good, a sequence number with other content is refused and with the same content changes nothing |
| `EraseFeed.PassSucceedsWhenCurrent` | hub/adapters/persistence/device_erase.py:78-179 | A pass succeeds exactly when the Claim of every revocation without operation is still at the revoked generation, then creates exactly those operations and touches no other |
| `EraseFeed.ReclaimBeforePassMisses` | hub/adapters/persistence/device_erase.py:138-147 | An acknowledgement for a device whose last revocation has no operation yet makes that revocation missed |
| `EraseFeed.MissedForever` | hub/adapters/persistence/device_erase.py:138-147 | A missed revocation stays missed, and no pass ever creates an operation again |
| `EraseFeed.MissedIsReachable` | hub/adapters/persistence/device_erase.py:138-147 | Under any Authority with positive deadlines a concrete run reaches a missed revocation |
| `EraseFeed.RunHoldsDeadlines` | hub/adapters/persistence/device_erase.py:283-332 | Over any run whose clock readings rise an operation's deadline never moves back |
| `EraseFeed.PullAlone` | hub/device_control/application.py:328-377 | A pull in three locked sections with nothing in between is the pull of the ledger on its own |
| `EraseFeed.ProvedPullYieldsCommand` | hub/device_control/application.py:336-377 | After any run, with any steps between its locked sections and clock readings that rise, a proved pull of an unsettled operation comes back empty exactly when the operation is settled or past the deadline it then has as its delivery comes, else with its command and that deadline, still to come; that deadline is no earlier than the one the re-arming left, which is later than the first reading |
| `EraseFeed.LonePullYieldsCommand` | hub/device_control/application.py:336-377 | With nothing in between and one clock reading it always yields the command |
| `SmartHomeExecute.SmartHomeRuntime.BeginReceipt` | hub/integration/ledger.py:91-107 | Prunes, then returns the row of a repeat within the window, refuses another fingerprint with the pruning rolled back, or starts a row |
| `SmartHomeExecute.SmartHomeRuntime.AdmitCall` | hub/smarthome/runtime.py:139-158 | The locked section: answer from the record, join the call in flight, or carry the request out |
| `SmartHomeExecute.SettleFirst` | hub/integration/ledger.py:150-160 | The loop settles the first unknown item of the target and nothing else |
| `SmartHomeExecute.SmartHomeRuntime.ReconcileReceipt` | hub/integration/ledger.py:131-147 | A recorded result changes exactly when it has an unknown item for the target |
| `SmartHomeExecute.DoKeeps` | hub/smarthome/runtime.py:139-184 | Every step of interleaved calls keeps one runner per key, waiters on it, and every held result between the first and the recorded one |
| `SmartHomeExecute.AtMostOnePerform` | hub/smarthome/runtime.py:139-184 | Within the window, crashes included, at most one call at a time carries a request out |
| `SmartHomeExecute.NoPerformAfterResult` | hub/smarthome/runtime.py:139-184 | Once a result is on record no perform of that request is ever in progress again |
| `SmartHomeExecute.OneResultForAll` | hub/smarthome/runtime.py:139-184 | Any two answers, whenever given, agree but for items that went from unknown to succeeded |
| `SmartHomeExecute.RecordedRefines` | hub/integration/ledger.py:109-147 | What is recorded only ever settles items from unknown to succeeded |
| `SmartHomeExecute.SecondPerformPastWindow` | hub/integration/ledger.py:95-106 | In any process in the invariant where a call runs the key, an arriving call starts a second perform beside it exactly when the row is past its window |
| `SmartHomeExecute.SecondPerformIsReachable` | hub/integration/ledger.py:95-106 | Two calls from the empty process end in two performs exactly when the second comes past the window of the first |
| `SmartHomeExecute.PerformsWhen` | hub/smarthome/runtime.py:139-158 | Exactly when an arriving call carries the request out itself |
| `Observations.MemoryObservationCache.Put` | hub/integration/observation.py:167-179 | A changed fact takes the next number, an unchanged one keeps its own; other Owners are untouched |
| `Observations.SqliteObservationCache.Put` | hub/integration/observation.py:71-101 | The same with the highest live number plus one; other Owners are untouched |
| `Observations.SqliteObservationCache.LatestNumber` | hub/integration/observation.py:120-127 | The highest number among the Owner's live rows, 0 without one |
| `Observations.MemoryObservationCache.Forget` | hub/integration/observation.py:181-184 | Exactly the named rows of the Owner go |
| `Observations.SqliteObservationCache.Forget` | hub/integration/observation.py:103-110 | Exactly the named rows of the Owner go |
| `Observations.ChangesAfter` | hub/integration/observation.py:145-152 | The rows after the cursor, all of them, sorted by number |
| `Observations.ReplicaHoldsLiveTargets` | hub/integration/observation.py:167-212 | A reader that applies what is after its cursor and advances holds the current value of every live target after each read, across any puts and forgets |
| `Observations.SqliteMatchesMemory` | hub/integration/observation.py:71-110 | The SQLite cache matches the memory cache at every step exactly on runs where no forget drops the Owner's newest row |
| `Observations.SqliteReplicaHoldsLiveTargets` | hub/integration/observation.py:71-110 | So on those runs a reader of the SQLite cache, too, holds the current value of every live target after each read |
| `Observations.PassedIsNeverSeen` | hub/integration/observation.py:145-152 | A row whose number the reader is past stays unseen through any further puts, forgets and reads that leave it as it is |
| `Observations.ForgottenNumberIsReused` | hub/integration/observation.py:88-93 | A run where the newest row is forgotten: its number is given out again, and a reader past it never sees the new row, however long it reads on |
| `RegistryImporter.RegistryImporter.UniqueNameHere` | hub/smarthome/importer.py:231-242 | The loop returns the first numbered form of a name nobody else in the area has, or none |
| `RegistryImporter.RegistryImporter.AreaId` | hub/smarthome/importer.py:252-261 | The loop ends and returns the first free area id |
| `RegistryImporter.RegistryImporter.EnsureAreaHere` | hub/smarthome/importer.py:205-219 | The area of that name, a new one, or none when no more fit |
| `RegistryImporter.RegistryImporter.SyncHere` | hub/smarthome/importer.py:123-203 | A pass leaves registry and report as specified, or stops at the first refused write with what was written before |
| `RegistryImporter.FreeCandidateExists` | hub/smarthome/importer.py:252-261 | Among one more area candidates than there are areas one is free |
| `RegistryImporter.FirstPassSettles` | hub/smarthome/importer.py:131-202 | One completed pass from any sound registry settles areas, placements, facts and orphans, and keeps names unique per area |
| `RegistryImporter.LaterPasses` | hub/smarthome/importer.py:131-202 | From then on a pass cannot fail, changes only names (and when they were synced), each to a strictly lower candidate, keeps names unique per area, and writes nothing exactly when every name is quiet |
| `RegistryImporter.OwnNameIsFree` | hub/smarthome/importer.py:231-242 | A device can keep its own name, so the candidate it is offered is never above it |
| `RegistryImporter.ImporterConverges` | hub/smarthome/importer.py:131-202 | After at most as many passes as the names stand high every later pass leaves the registry exactly as it is |
| `AuthorityBootstrap.HubDatabase.InitializeSchema` | hub/adapters/persistence/database.py:89-168 | A start is refused unchanged, or makes its up to three writes in order |
| `AuthorityBootstrap.CrashesRecover` | hub/adapters/persistence/database.py:89-168 | From first installation with the exact bootstrap, crash after any write and restart any number of times: no start is refused for its lineage, and a completed one leaves database and anchor with the bootstrap's lineage and no bootstrap |
| `AuthorityBootstrap.RecoveryNeedsExactBootstrap` | hub/adapters/persistence/database.py:362-370 | Behind a crash after the database commit the restart goes through exactly when the bootstrap holds its five keys and no other |
| `AuthorityBootstrap.MissingAnchorIsNotCompared` | hub/adapters/persistence/database.py:362-370 | With the anchor missing a start goes through exactly with the bootstrap of the configured Owner for the row's state, whoever's the row is; after it and any further starts, exactly the starts configured for the row's own Owner are accepted |
| `AuthorityBootstrap.AnchorAllowsOneLineage` | hub/adapters/persistence/database.py:125-130 | Once an anchor exists, no start, lost database or new bootstrap lets an empty database start a second lineage |
| `Pages.ClaimEventPage` | hub/admission/persistence.py:638-663 | A page is the first rows after the cursor, or the gap refusal exactly when the cursor is ahead or gone or the rows are not consecutive |
| `Pages.PageOnce` | hub/admission/persistence.py:638-663 | Table, cursor and limit determine the page |
| `Pages.WalkHasNoGap` | hub/admission/persistence.py:638-663 | Whatever the tables were, a walk reads positions 1, 2, 3, ... up to its cursor, none twice, none left out |
| `Pages.GapStopsTheWalk` | hub/admission/persistence.py:658-660 | While a position is missing no walk gets past it |
| `Pages.GapIsRefused` | hub/admission/persistence.py:658-660 | The page right before a missing position is refused when anything lies behind it |
| `Pages.WalkReadsTheStream` | hub/admission/application.py:1740-1761 | With any Admission transactions between the requests, the events read are the stream's first ones in order, the next page is not refused, and is empty only when the walk has caught up |
| `Pages.ListProposals` | hub/admission/persistence.py:87-117 | The first rows after the cursor by creation and id, at most the limit, none of the queried states left out before the last |
| `Pages.NoProposalTwice` | hub/admission/application.py:1668-1702 | With any Admission transactions between the requests a walk returns no Proposal twice |
| `Pages.StayingProposalsReturned` | hub/admission/application.py:1668-1702 | With any Admission transactions between the requests a finished walk returned every Proposal that was there from its start and matched at every request |

## Left out

- HTTP, configuration, composition and the WebSocket and mDNS clients: plumbing.
- Cryptography: proofs are verified or not, sealing returns some value, digests are injective.
- The in-memory device directory and its projection after an acknowledgement: not agreed with Claims after a revocation.
- Audit events of Proposals and Decisions in the outbox: only Claim events are modelled, in outbox and stream.
- Publication of the outbox and its retry columns.
- `get_enrollment_recovery`, `base_identity_for_key`, `get_claim` and the Claim list: reads that add easy members; the
  Claim list sorts on a field that changes.
- The `suspended` Claim state: nothing sets it.
- Display names and the last-management columns of a device row: nothing compared here depends on them but equality.
- Schema column and index reconciliation: table-by-table comparison; a start is taken to find the schema it expects.
- Partly written anchors and file-system refusals: each of the three writes is taken as atomic.
- Which bytes a row or document serialises to: rows are values.
- The waiting inside `changes_since`: a read takes effect when it returns, and an empty answer changes no reader.
- Providers, command effects and `satisfied`: the outcome of a perform and of an observation are inputs, so which of two
  unknown commands of one device is settled is not claimed, and a pending item may be lost.
- `MemoryLedger`: its eviction can drop a request in flight; the protocol is proved over the durable receipts.
- Receipt timestamps other than the submission.
- Data's registry API is not part of this model beyond appending, replacing by id and refusing a second device of one id.
- Channel revocation delivery: an easier twin of the erase ledger.
- HardwareRef: strips blanks only and folds ASCII case only, where the code strips and folds Unicode.
- Clip: collapses blank, tab, newline and carriage return, where the code collapses all Unicode white space.
- Run: transactions are atomic steps; the lookup before the lock and the expiry before a command are steps of their own
  in `CancelEnrollment`, `DecideEnrollment`, `CollectClaimGrant` and `AckClaimGrant`.
- ManagementEvent: the size limit of its data is not modelled.
- PullErase: one call without other steps between its locked sections; `EraseFeed.PullAmong` has them apart.
- GetForDevice: the model's ledger may hold several operations of a DeviceRef; `OneOperationEach` shows a run never does.
