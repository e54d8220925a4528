# A verified model of the assignment authority

The repository decides which device runs a network function. Its core, `src/fabric.cpp`, places a
function, issues a lease, an attempt and a fencing token, indexes exclusive claims, accounts for the
demand on every device, suspends authority when evidence moves, journals every change before applying
it, and rebuilds itself after a crash. Around it stand the write-ahead journal, the wire framing, the
canonical binary and JSON encodings, and the checksums they rest on.

This project states that logic in Dafny and proves what it promises, for every input, every run and
every crash point. Where a promise is false of the code, the code is kept as it is, a run or an input
that breaks the promise is exhibited, and the exact condition under which it holds is proved.

`dafny verify dfyconfig.toml` checks everything.

## How it is organised

- **Authority machine.** `Types`, `Units`, `Ordered`, `Decisions`, `Ranking`, `Claims`, `Idempotency`
  and `Machine` give every operation as a function on a `World`: the state, the journal, the store's
  answers to coming commits, and history variables (tokens ever issued). `Steps` and `Traces` break
  each operation into micro-steps, one commit with the memory change that belongs to it, so the points
  between micro-steps are exactly where a crash can cut. `Runs` adds crashes that keep any prefix of the
  journal, and restarts.
- **Decisions, over the stored fields.** `Criteria` says what fresh, heard, listed, permitted, matched and
  observed mean of a record. `Suitability`, `Choice`, `Admission`, `Standing`, `Reports`, `Ingestion` and
  `Budget` state in those terms alone when each operation succeeds and what it leaves behind.
- **Whole-run theorems.** `Refinement`, `Exclusion`, `Holders`, `Audit`, `Revalidation`, `Agreement`,
  `Capacity`, `Conservation`, `Restart`, `Dormancy`, `Fences`, `Effects`, `Identifiers`, `Withdrawal`,
  `Delivery` and `Snapshots`, which carries them across compaction.
- **Counterexamples.** `Scenario` brings up a deployment of two devices from an empty store;
  `Counterexamples` runs it into each failure the conditions shut out.
- **The runtime object.** `Fabric.Impl` is the mutable object of the source; each method is proved equal
  to the machine's function, so the theorems above are theorems about it.
- **Journal.** `Journal` (records and scan), `Disk` (headers and snapshot file), `Storage` (open, append,
  replay), `Compaction` (crash points), `StoreBytes` (what is accepted, byte by byte) and
  `JournalStore.Impl` (the mutable store).
- **Bytes.** `Bytes`, `Crc`, `Sha`, `Frames`, `Codec`, `Cursor`, `Wire`, `Json`, `JsonTrip`, `JsonDump`,
  `JsonAccept`, `JsonGrammar`.

Identities are natural numbers with 0 for the empty token, except in the byte-level modules, where they
are the bytes themselves. A digest that the source compares as an identity is modelled as the content
it was taken of, which is injectivity of the hash where it is used.

## Where the code and its documentation disagree

The model follows the code.

- Exclusion is promised without reservation. It needs a hypothesis at three places, each exact and each
  with a run that breaks it: `reauthorize` and an Applied report on a degraded record regain a claim
  unchecked, a supplied plan is vetted under its rule's key mode instead of its own, and the network-wide
  scope has no identity and is never compared.
- `docs/proof-obligations.md` line 11 promises that stale or superseded evidence cannot justify current
  authority. Only planning asks whether topology and policy were accepted since the restart;
  `apply_plan` authorizes a supplied plan on evidence from before it.
- `docs/architecture.md` line 73 has placement, replacement, revocation and re-authorization each require
  an admitting grant that lists the requested action. Placement requires one only where the rule asks for
  authority, replacement asks for the action Place and never for Replace, and a revocation that names no
  grant needs none.
- A withdrawal leaves a degraded record degraded, since liveness is judged before the grant, and an Applied
  report then gives it authority again. A supplied plan may name a withdrawn grant under a rule that asks
  for no authority.
- `replace` supersedes the holder of the new claim, not the record it names: replacing a shared assignment
  leaves both in authority.
- A suspended record is suspended again by every revalidation, and each time its demand is released
  again, so a device can be loaded beyond its capacity.
- `include/nof/journal.hpp` calls compaction crash-safe in both orders. The recovered state is; the
  sequence counter is not, so records acknowledged after a crash that lost the base record are skipped
  by replay. A snapshot within 36 bytes of its bound is written but refused by every later open.
- A duplicate delivery is documented to return the identical result. An accepted apply is filed under
  the request rebuilt from its plan, so only self-contained requests are answered; the rest, every
  accepted supplied plan and every accepted replace are refused as duplicates.
- An effect report on a record with a full history journals a record that no longer decodes, after which
  no process can start on that journal.
- Identifier counters are lifted from live records only, so a restart without a snapshot can reissue the
  identifier of a finished assignment and make it a holder again.
- `JsonValue::dump` is documented to refuse a document longer than its bound. It tests the bound only
  where a value begins.
- A class code is written in two bytes and only the low one is read, so accepted bytes are not always
  canonical.

## Model

| member | source | states |
|---|---|---|
| `Units.CapacityAdmits` | include/nof/units.hpp:124-146 | admits exactly when every component of the true, unbounded sum stays within the capacity, so overflow and exhaustion are one refusal |
| `Units.CheckedAdd` | include/nof/checked.hpp:66-73 | nothing exactly when the sum does not fit in 64 bits, the sum otherwise |
| `Decisions.EligibleStages` | src/fabric.cpp:1144-1344 | a device is refused with the reason of the first of the eight stages of `evaluate_device` that does not pass, and is eligible when all do; what each stage requires of the records is Suitability.SuitableIs |
| `Criteria.GrantIs` | src/authority.cpp:97-150 | a grant is admitted exactly when it is not withdrawn, of the policy generation, unexpired, fresh, has uses left, lists action, class and kind, and covers host, scope and requirement; a recheck asks the same but for the uses |
| `Criteria.GrantRefusalIsTrue` | src/authority.cpp:97-150 | the reason of a refused grant is true of the grant |
| `Criteria.MatchIs` | src/capability.cpp:122-169 | a capability matches exactly when it is not revoked, of the incarnation, fresh, the version is within its range and every required semantic is supported and neither denied nor unknown |
| `Criteria.MismatchIsTrue` | src/capability.cpp:122-169 | the reason of a mismatch is true of the capability record |
| `Criteria.LivenessIs` | src/fabric.cpp:2082-2104 | a device counts as alive, degraded or dead exactly when a heard, fresh observation of that incarnation says so |
| `Suitability.SuitableIs` | src/fabric.cpp:1144-1344 | a device is eligible exactly when its kind, affinity, capability, room, observation, dependencies, exclusivity and a heard grant meet the request over the stored fields, and then binds the generation of a fully matching capability |
| `Ranking.PackedRankAgrees` | src/fabric.cpp:1346-1381 | comparing (packed rank, device) is comparing the candidate tuple, both ways, and the packed rank fits in 64 bits |
| `Ranking.Utilization` | src/fabric.cpp:1041-1058 | never above one million, even when the four-component totals wrap around |
| `Ranking.Select` | src/fabric.cpp:2465-2473 | the selection loop returns the first candidate that no other precedes |
| `Ranking.SelectionIgnoresOrder` | src/fabric.cpp:2465-2473 | the selected device is the unique minimum of the candidate set, whatever the enumeration order or repetition |
| `Choice.PlannedIff` | src/fabric.cpp:2320-2578 | a request is planned if and only if topology and policy were heard in this lifetime, are fresh and recent enough, the function is described consistently, a rule exists, no holder is in the way of a request that does not replace, and some considered device is suitable |
| `Choice.PlanIs` | src/fabric.cpp:2440-2578 | the plan names a suitable device that no suitable one was passed over for: a fallback only without an offload, DPU before SmartNIC before NIC, then the scope's host, then preferred hosts, then the less utilised, then the smaller identifier; and binds the current generations and the first permitting grant |
| `Choice.ChosenIs` | src/fabric.cpp:1383-1400 | when no considered device is suitable the reason is that of the device that comes first in the same preference |
| `Choice.InUseIsRatio` | src/fabric.cpp:1041-1058 | while nothing wraps around, utilisation is the true ratio of the four counted components in parts per million |
| `Claims.InsertFrame` | src/fabric.cpp:1719-1727 | an insertion changes one assignment and the claims; evidence, epoch and grants up to their use counter stay |
| `Claims.InsertKeepsSound` | src/fabric.cpp:1628-1727 | every index entry names a holder of exactly that claim, after any insertion whatever |
| `Claims.ConflictLookupIsExact` | src/fabric.cpp:1085-1119 | the index lookup answers exactly what a scan of all holders would, and names one of them |
| `Claims.InsertKeepsExclusive` | src/fabric.cpp:1628-1727 | exclusion survives an insertion if and only if the record overlaps no other holder, and then the indexes stay complete |
| `Claims.InsertCommitted` | src/fabric.cpp:1642-1700 | the general accounting law: clamped subtraction of the old demand, then addition of the new one if it holds authority, an overflow stored as zero |
| `Claims.InsertNeverOvercounts` | src/fabric.cpp:1642-1700 | the accounted demand never exceeds the real load of the holders, whatever is released twice |
| `Claims.InsertConserves` | src/fabric.cpp:1642-1700 | accounting equals the real load after an insertion if and only if the replaced record was absent, held authority or had nothing to subtract, and the new sum fits |
| `Idempotency.RememberIsFifo` | src/fabric.cpp:1563-1584 | keys stay the duplicate-free arrival order within the bound; re-recording keeps the position and a full table loses exactly its oldest entry |
| `Idempotency.RememberAlike` | src/fabric.cpp:1563-1584 | tables that answer alike keep answering alike after the same recording |
| `Delivery.RedeliveryChangesNothing` | src/fabric.cpp:1563-1626 | while a request identifier is remembered, no operation under it changes anything, and every delivery that reaches the table gets the recorded answer if it is the same request and a duplicate refusal otherwise |
| `Delivery.TableStaysBounded` | src/fabric.cpp:1563-1626 | in every run the table keys equal the duplicate-free FIFO order and stay within the bound |
| `Delivery.RebuiltIsDeliveredIff` | src/fabric.cpp:3566-3579 | the request rebuilt from a plan equals the delivered one exactly when the delivered one was self-contained |
| `Delivery.AcceptedApplyRedelivery` | src/fabric.cpp:3618-3682 | redelivering an accepted apply never places twice, and returns the stored answer exactly for self-contained requests; any other is refused as a duplicate delivery |
| `Delivery.AcceptedPlanRedelivery` | src/fabric.cpp:3706-3750 | an accepted supplied plan is filed under a rebuilt request and compared by its own digest, so its redelivery is always refused as a duplicate |
| `Delivery.AcceptedReplaceRedelivery` | src/fabric.cpp:3828-3864 | an accepted replace asks for replacement and its rebuilt request does not, so its redelivery is always refused as a duplicate |
| `Delivery.AcceptedRevokeRedelivery` | src/fabric.cpp:3752-3826 | redelivering a revoke that stored its answer returns that answer, as far as it decodes under the default bounds, and changes nothing |
| `Delivery.AcceptedReauthorizeRedelivery` | src/fabric.cpp:3866-3981 | the same for a reauthorize that gave authority back |
| `Delivery.AcceptedReportRedelivery` | src/fabric.cpp:3997-4137 | the same for an effect report that was stored |
| `Delivery.RefusalIsRepeated` | src/fabric.cpp:1595-1626 | a remembered refusal of apply, apply_plan or replace is repeated with its reason and changes nothing |
| `Traces.AuthorizeFacts` | src/fabric.cpp:3336-3480 | what `authorize_locked` established about exclusivity when its checks pass: the holder it displaces and a clear lookup under the rule's key mode |
| `Traces.ApplyLockedTrace` | src/fabric.cpp:3618-3682 | an apply is a legal sequence of commit-and-update micro-steps that keep the exclusivity guard |
| `Runs.OperationTrace` | src/fabric.cpp:2830-4137 | every operation equals a legal sequence of micro-steps, so crash points are the points between them; a safe operation is guarded throughout |
| `Steps.DoWrites` | src/fabric.cpp:1719-1763 | a micro-step inserts exactly the record it stores and otherwise leaves assignments, claims, evidence and counters alone |
| `Holders.HoldersChange` | src/fabric.cpp:2830-4137 | across every operation, whatever it commits, whoever holds authority afterwards held it before with the same claim, except the one record the operation answered with |
| `Refinement.ApplyRecordRespects` | src/fabric.cpp:1818-2010 | replaying a record depends only on the durable part of the state and determines it |
| `Refinement.DoMatchesReplay` | src/fabric.cpp:1480-1502 | memory moves under a live step exactly as replaying the committed record would move it |
| `Refinement.ReplayRefinesEveryRun` | src/fabric.cpp:1731-2010 | in every run with crashes, restarts and refused commits, the live functions, topology, capabilities, policy, grants, assignments, per-source marks and answers are what a replay of the journal gives |
| `Refinement.SnapshotThenTail` | src/fabric.cpp:406-911 | a snapshot of the live state followed by the tail recovers what the full log recovers |
| `Refinement.SnapshotKeepsOrderIffAscending` | src/fabric.cpp:571-600 | the eviction order survives a snapshot if and only if it already was the key order |
| `Refinement.SnapshotCanEvictTheYounger` | src/fabric.cpp:862-905 | a table for which it does not: after a snapshot the next recording evicts the younger entry |
| `Snapshots.SnapshotAgreesInRuns` | src/fabric.cpp:406-911 | in every run a snapshot of the running fabric followed by any records recovers what its whole journal followed by them recovers |
| `Snapshots.SnapshotKeepsExclusion` | src/fabric.cpp:406-911 | compaction anywhere in a safe run keeps exclusion for every surviving part of the later journal |
| `Snapshots.SnapshotKeepsFences` | src/fabric.cpp:406-911 | and keeps the carried tokens distinct and at most the highest epoch |
| `Snapshots.SnapshotKeepsEffects` | src/fabric.cpp:406-911 | and keeps, with room for two effects, the Applied effect behind every verified record |
| `Snapshots.SnapshotRestartIsConservative` | src/fabric.cpp:2592-2768 | a start from the snapshot and any named tail is conservative, in the epoch a start from the whole journal takes |
| `Snapshots.SnapshotKeepsIdentifiers` | src/fabric.cpp:922-989 | a snapshot keeps the counters: no identifier the counter had passed is issued after a restart from it |
| `Snapshots.CompactedStoreRecovers` | src/journal.cpp:726-823 | compacting the machine's own journal on the store: every crash point reopens to the same durable core |
| `Exclusion.MicroKeepsExclusive` | src/fabric.cpp:1628-1727 | every guarded micro-step keeps at most one holder per claim and complete, sound indexes |
| `Exclusion.CrashAnywhereExclusion` | src/fabric.cpp:3543-3579 | in every run whose supplied plans and re-entries meet no conflicting holder in the indexes, with crashes keeping any journal prefix, every prefix replays to at most one exclusive holder per scope and class and none beside a whole-scope holder |
| `Exclusion.ClaimIsSafeIffUnconflicted` | src/fabric.cpp:1085-1119 | taking up an exclusive claim keeps exclusion if and only if the lookup for that claim finds nobody else |
| `Exclusion.ReauthorizeIsSafeIff` | src/fabric.cpp:3896-3967 | a successful reauthorize keeps exclusion if and only if the indexes name no conflicting holder |
| `Exclusion.AppliedReportIsSafeIff` | src/fabric.cpp:4084-4097 | an Applied report on a degraded record keeps exclusion under exactly the same condition |
| `Exclusion.PlacementIsSafeIff` | src/fabric.cpp:3402-3414 | an accepted exclusive plan keeps exclusion if and only if the lookup for its own claim, excusing the holder it displaces, finds nobody |
| `Counterexamples.ReauthorizationMakesTwoHolders` | src/fabric.cpp:3896-3967 | a run from an empty store in which reauthorize gives back a claim that was taken while its record was suspended |
| `Counterexamples.AppliedReportMakesTwoHolders` | src/fabric.cpp:4084-4097 | a run in which an Applied report makes a degraded record a holder beside the one that took its claim |
| `Counterexamples.SuppliedPlanMakesTwoHolders` | src/fabric.cpp:3402-3414 | a run in which a supplied whole-scope plan under a per-class rule displaces one of two holders and is placed beside the other |
| `Counterexamples.NetworkWideClaimsAreUnchecked` | src/fabric.cpp:1088-1090 | a run in which one class of the network-wide scope, which has no identity, is placed exclusively twice |
| `Audit.AuditExclusivity` | src/export.cpp:589-690 | the exclusivity report is empty exactly when no two exclusive holders collide, the network-wide scope included |
| `Audit.CountClaims` | src/export.cpp:600-640 | the counting pass leaves every per-scope and per-class counter equal to the number of its holders |
| `Audit.NetworkPlacementIsCleanIff` | src/fabric.cpp:1085-1119 | an accepted exclusive plan for the network-wide scope leaves its holders disjoint if and only if no network-wide holder of that class, or whole-scope one, existed before |
| `Audit.ApartRunsAuditClean` | src/export.cpp:589-690 | in every run that meets no conflicting holder in the indexes and none on the network-wide scope, the exclusivity report of the running fabric is clean |
| `Revalidation.ValidityReadsEvidence` | src/fabric.cpp:2016-2147 | validity depends only on evidence, epoch and grants up to their use counter, which storing a transition never changes |
| `Revalidation.RevalidationIsPointwise` | src/fabric.cpp:2194-2263 | the loop computes the pointwise revision of the state it started from |
| `Revalidation.RevalidationIsSound` | src/fabric.cpp:2194-2263 | after a successful pass at t every authority holder is valid at t, every live record became its revision, evidence is untouched, and checked = suspended + degraded + unchanged; what valid means over the stored fields is Standing.ValidityIs |
| `Standing.ValidityIs` | src/fabric.cpp:2016-2147 | a record is valid exactly when the stored device, policy, capability, observation, generation, epoch and grant fields uphold it, degraded exactly when its target does but is observed degraded, and any other verdict is a reason that is true of those fields |
| `Standing.RevalidationJudges` | src/fabric.cpp:2194-2263 | a successful pass leaves finished and upheld records untouched, degrades exactly those whose target stands but is observed degraded, and suspends every other with a true reason; only lifecycle and trace change |
| `Standing.HoldersStand` | src/fabric.cpp:2194-2263 | after a successful pass the stored evidence upholds every authority holder |
| `Standing.EvidenceLeavesStanding` | src/fabric.cpp:2875-3306 | so it does after any accepted topology, capability, policy, observation or withdrawal |
| `Revalidation.TallyBalances` | src/fabric.cpp:2194-2263 | the tally adds up however the loop ends, cancellation and refused commits included |
| `Revalidation.ValidIsLeftAlone` | src/fabric.cpp:2207-2263 | a valid assignment comes out of a successful pass exactly as it went in |
| `Agreement.MatchIsAntitone` | src/capability.cpp:122-169 | requiring less never makes a capability unsuitable |
| `Agreement.PlacerAgreesWithRevalidator` | src/fabric.cpp:3336-3586 | a record accepted by apply is valid at the same instant exactly when its kind is listed by the rule and its bound capability evidence is current; only a host fallback can fail the first, only a rule without require_capability the second |
| `Agreement.PlacementSurvivesRevalidation` | src/fabric.cpp:2194-2263 | under require_capability, and HostStack listed for a host fallback, the next revalidation leaves the placed record untouched |
| `Admission.AdmissibleIs` | src/fabric.cpp:3336-3480 | a placement is authorized exactly when the plan is unaltered and current, its device suitable, the holder in its way may be displaced within the budget, and, where the rule asks for authority, the named grant, or some heard one, permits it |
| `Admission.SuppliedPlanAcceptedIff` | src/fabric.cpp:3706-3750 | while the store accepts commits, a fresh apply_plan succeeds if and only if the plan is admissible and no counter is exhausted |
| `Admission.PlacementIsPermitted` | src/fabric.cpp:3336-3480 | when the rule asks for authority, every accepted apply, apply_plan and replace rests on a grant heard in this lifetime that permits the placement and has uses left, and the grant the record names does too |
| `Admission.RecordIs` | src/fabric.cpp:3486-3586 | the record of a placement carries the plan's fields, the next identifier, lease, attempt and fencing token, and the current schema |
| `Admission.AppliedIsChosen` | src/fabric.cpp:3618-3682 | an accepted apply lies on the device its plan was rightly made for, under the request's own terms |
| `Admission.ReplacedIsChosen` | src/fabric.cpp:3828-3864 | an accepted replace does so for the request completed from the record it names, and that record is superseded exactly when it is the holder in the way of the new claim; otherwise it keeps its authority |
| `Counterexamples.ReplacedSharedKeepsAuthority` | src/fabric.cpp:3828-3864 | a run in which a replaced shared assignment keeps its authority beside its replacement |
| `Admission.ReplaceIsNeverAsked` | src/authority.cpp:97-150 | whether a grant lists the action Replace makes no difference to any admission |
| `Admission.RevokedIff` | src/fabric.cpp:3752-3826 | a revocation is carried out exactly when the record is not revoked, nothing is cancelled, the store accepts it and, for an authority holder with a named grant, that grant permits revoking it |
| `Admission.ReauthorizedIff` | src/fabric.cpp:3866-3981 | reauthorize gives new tokens, the named grant and the current bindings exactly when the record is suspended or degraded, its target stands, and the grant permits it |
| `Budget.ReplayCountsAll` | src/fabric.cpp:1818-2010 | a replay finds exactly the journaled reassignments of every scope and class, in order |
| `Budget.NoteChargesOne` | src/fabric.cpp:2167-2192 | a reassignment is charged in memory before its commit, to its own scope and class only, and the newest are kept |
| `Ingestion.LearnableIs` | src/fabric.cpp:1504-1544 | a report is learned exactly when its source reports later than ever before, it does not go back in generation or contradict its own generation, and it is about listed devices |
| `Ingestion.RepetitionIs` | src/fabric.cpp:1504-1544 | an exact repetition is answered and ignored, an older report regresses, and a different one at the same sequence conflicts |
| `Ingestion.SubmitIs` | src/fabric.cpp:2830-3306 | telling the fabric something takes effect exactly when it runs, recovery was accepted unless it is a withdrawal, the report is learnable and the store accepts it; then exactly that is known |
| `Ingestion.LifetimeMovesOn` | src/fabric.cpp:2830-3306 | through all operations of a lifetime no source goes back or changes its mind, no generation decreases, no grant is reissued and no withdrawal is taken back |
| `Ingestion.RunsAreVouched` | src/fabric.cpp:1818-2010 | in every run every journaled topology is strictly ordered and every grant named, and so is what the fabric knows |
| `Ingestion.NothingHeardAfterStart` | src/fabric.cpp:2699-2727 | after a start a source counts as heard only for a sequence above everything journaled from it |
| `Withdrawal.WithdrawalEndsAuthority` | src/fabric.cpp:3260-3306 | a withdrawal that takes effect leaves no authority holder under the grant |
| `Withdrawal.WithdrawnStaysOut` | src/fabric.cpp:3336-3480 | in every run that keeps the withdrawal in the journal, no operation, restart or crash puts a holder under the grant again, but for two kinds of call a caller can recognise beforehand |
| `Counterexamples.WithdrawnGrantIsNamed` | src/fabric.cpp:3706-3750 | a run of the first kind: a supplied plan names the withdrawn grant under a rule that asks for no authority |
| `Counterexamples.WithdrawnGrantIsRevived` | src/fabric.cpp:4084-4097 | a run of the second kind: an Applied report on a degraded record that names it |
| `Capacity.AccountingNeverOvercounts` | src/fabric.cpp:1642-1700 | in every run the accounted demand of every device is at most the sum over its authority holders |
| `Capacity.RunConserves` | src/fabric.cpp:1642-1727 | within an operation whose steps never release an unheld demand, accounting stays the real load of every device and component |
| `Capacity.PlacementFits` | src/fabric.cpp:1239-1244 | while accounting is exact, an accepted placement leaves the real load of the device within its capacity |
| `Conservation.RunsConserve` | src/fabric.cpp:922-989 | every start makes accounting exact and conserving operations keep it so, over whole runs with crashes and restarts |
| `Conservation.EveryPlacementFits` | src/fabric.cpp:1239-1244 | in every conserving run each accepted apply, apply_plan or replace leaves the real load of its device within capacity |
| `Counterexamples.DoubleReleaseOverloads` | src/fabric.cpp:1674-1699 | a run in which revalidating a suspended record releases its demand again and a device of capacity ten is made to carry twelve |
| `Restart.RestartIsConservative` | src/fabric.cpp:2699-2762 | whatever was snapshotted and journaled, a successful start ends with no authority holder, empty indexes, zero committed demand, no observations, and an epoch above every journaled one |
| `Dormancy.NothingPlacedUntilHeard` | src/fabric.cpp:2345-2364 | after a successful start, through any operations, as long as a topology or a policy of this lifetime is missing no operation other than apply_plan adds an authority holder |
| `Dormancy.NothingHeldUntilHeard` | src/fabric.cpp:2345-2364 | hence without apply_plan nothing holds authority until both have been accepted in this lifetime |
| `Dormancy.UnheardKeepsUndegraded` | src/fabric.cpp:2016-2147 | while either is missing no operation makes a record degraded, so no effect report can promote one |
| `Dormancy.SuppliedPlanPlacedIff` | src/fabric.cpp:3336-3480 | right after a start a supplied plan is placed if and only if its generations, target, kind, capability, demand and authority pass and its rule asks for no fresh observation; whether topology and policy were re-accepted is not asked |
| `Counterexamples.SuppliedPlanIsPlacedUnheard` | src/fabric.cpp:3706-3750 | a run in which apply_plan gains authority after a restart although neither topology nor policy was accepted since |
| `Fences.FencesNeverRepeat` | src/fabric.cpp:130-140 | over any number of restarts that lose no committed epoch record, issued (epoch, sequence) pairs are strictly increasing and running assignments carry distinct tokens |
| `Fences.StoppedTokenIsBelow` | src/fabric.cpp:2699-2727 | in such runs every token issued before a stop carries an epoch below that of every later lifetime |
| `Fences.StaleReportChangesNothing` | src/fabric.cpp:4039-4044 | in every run that loses no committed epoch record, a report with a token issued before any stop of the fabric changes nothing in later lifetimes and is refused unless remembered |
| `Fences.LostEpochRepeatsTokens` | src/fabric.cpp:2703-2727 | if a crash takes the epoch record, the next lifetime issues the same token again |
| `Effects.VerifiedMeansApplied` | src/fabric.cpp:4060-4133 | in every run, with room for two effects, an AppliedVerified record carries an Applied effect of its current attempt, token, generation, device incarnation and bound capability generation |
| `Reports.ReportStoredIff` | src/fabric.cpp:3997-4137 | a report is stored exactly when its token, epoch, attempt, generation, device incarnation and bound capability generation are the record's, it is no repetition, the record is not finished, an Applied outcome finds it dispatched, acknowledged or degraded, and the store accepts; then lifecycle, reason, effect and trace are as reported |
| `Reports.MismatchIsReported` | src/fabric.cpp:4039-4060 | a refused report changes nothing and the reason names a field that does not match |
| `Effects.OneEffectIsNotEnough` | src/fabric.cpp:1546-1560 | with room for one effect an Unknown report displaces the evidence of a verified record |
| `Counterexamples.OneEffectForgets` | src/fabric.cpp:1546-1560 | a run under such a bound that ends with a verified record whose Applied effect is gone |
| `Identifiers.FinishedForGoodIff` | src/assignment.cpp:107-144 | a terminal assignment is terminal for the rest of the lifetime, under every legal sequence of steps, if and only if the identifier counter has passed it |
| `Identifiers.FinishedThroughLifetime` | src/assignment.cpp:107-144 | such an assignment stays terminal through all operations of the lifetime |
| `Identifiers.UnspentIsRevived` | src/fabric.cpp:100-145 | the steps that take an identifier the counter has not passed and revive the record stored under it |
| `Identifiers.RestartKnowsIdsIffHighestIsLive` | src/fabric.cpp:929-944 | without a snapshot the rebuilt counter reaches an identifier exactly when some live record is at or above it |
| `Identifiers.RebuiltTokens` | src/fabric.cpp:929-960 | leases, attempts and fences of the current epoch are lifted to the highest one a live record carries |
| `Identifiers.FinishedForGoodIffBelowLive` | src/fabric.cpp:929-944 | in every run, when a lifetime begins, a terminal assignment is terminal for all of it if and only if some live record has a higher identifier |
| `Identifiers.NewIdentifierHoldsNothing` | src/fabric.cpp:3486-3586 | in every run the next placement overwrites no authority holder, at worst a terminal record |
| `Counterexamples.RevokedIdentifierReturns` | src/fabric.cpp:929-944 | a run that places, revokes, crashes and restarts, after which the next placement makes the revoked identifier a holder again |
| `Effects.CommittedDecodesIff` | src/fabric.cpp:4075-4083 | every committed record decodes, except exactly an effect report on a record whose history is full |
| `Counterexamples.FullHistoryStopsDecoding` | src/fabric.cpp:4075-4083 | under any bounds, a run that fills a suspended record's history by revalidations and then reports an effect on it; the last record does not decode and no start succeeds |
| `Effects.UndecodableStaysRefused` | src/wire.cpp:797-806 | in every continuation whose crashes keep the undecodable record, no process runs on that journal from the first crash on |
| `Fabric.CountUses` | src/fabric.cpp:1704-1717 | the reset-and-count loops leave every grant with exactly its number of authority-holding users |
| `Fabric.Impl.constructor` | src/fabric.cpp:2580-2584 | a new object is the empty world |
| `Fabric.Impl.Commit` | src/fabric.cpp:1480-1502 | the record is journaled or refused; memory is not touched |
| `Fabric.Impl.AcquireClaims` | src/fabric.cpp:1628-1660 | both indexes and the committed demand move as specified |
| `Fabric.Impl.ReleaseClaims` | src/fabric.cpp:1662-1702 | the record's own index entries leave and its demand is subtracted, clamped |
| `Fabric.Impl.RefreshAuthorityUsage` | src/fabric.cpp:1704-1717 | use counters equal the authority holders per grant |
| `Fabric.Impl.InsertAssignment` | src/fabric.cpp:1719-1727 | release, store, acquire and refresh equal the insertion function |
| `Fabric.Impl.RecordIdempotency` | src/fabric.cpp:1563-1584 | the eviction loop equals the FIFO table |
| `Fabric.Impl.StoreAssignment` | src/fabric.cpp:1731-1763 | journal first, then memory, or neither |
| `Fabric.Impl.NoteReassignment` | src/fabric.cpp:2167-2192 | memory changes even when the commit is then refused |
| `Fabric.Impl.RecordRefusal` | src/fabric.cpp:1595-1626 | a refusal is committed before it is remembered |
| `Fabric.Impl.IssueTokens` | src/fabric.cpp:100-145 | counters move up and each new token is recorded as issued |
| `Fabric.Impl.Place` | src/fabric.cpp:3486-3586 | supersede, note and create, each cut short by a refused commit |
| `Fabric.Impl.EvaluateCandidates` | src/fabric.cpp:2440-2463 | the evaluation loop yields the ranked eligible and refused candidates in topology order |
| `Fabric.Impl.ChooseTarget` | src/fabric.cpp:2465-2578 | the selection loop, run over the eligible and else over the refused candidates, gives the chosen plan or the refusal reason |
| `Fabric.Impl.PlanLocked` | src/fabric.cpp:2320-2578 | equals the planning function of the state machine, refusals in their order |
| `Fabric.Impl.AuthorizeLocked` | src/fabric.cpp:3336-3586 | equals the authorization function of the state machine |
| `Fabric.Impl.ApplyLocked` | src/fabric.cpp:3618-3682 | equals the apply function of the state machine |
| `Fabric.Impl.Apply` | src/fabric.cpp:3693-3704 | equals the apply operation behind its running and recovery guards |
| `Fabric.Impl.ApplyPlan` | src/fabric.cpp:3706-3750 | equals the supplied-plan operation |
| `Fabric.Impl.Replace` | src/fabric.cpp:3828-3864 | equals the replacement operation, with fields filled from the current record |
| `Fabric.Impl.Revoke` | src/fabric.cpp:3752-3826 | equals the revocation operation |
| `Fabric.Impl.RevokeFound` | src/fabric.cpp:3783-3826 | the revocation of a found record: already revoked, cancelled, not admitted, refused by the store, or stored |
| `Fabric.Impl.SubmitEvidence` | src/fabric.cpp:2830-3306 | check, commit, learn and, where the source does, revalidate |
| `Fabric.Impl.Reauthorize` | src/fabric.cpp:3866-3981 | equals the re-authorization operation |
| `Fabric.Impl.ReportEffect` | src/fabric.cpp:3997-4137 | equals the effect-report operation, duplicate scan included |
| `Fabric.Impl.RevalidateLocked` | src/fabric.cpp:2194-2263 | one pass over the identifiers that were live when it began, with its tally and failure |
| `Fabric.Impl.ReplayJournal` | src/fabric.cpp:2655-2697 | fails at the first undecodable record, otherwise folds `apply_record` |
| `Fabric.Impl.RebuildIndexes` | src/fabric.cpp:922-989 | claims, counters and use counts rebuilt from the live records |
| `Fabric.Impl.SuspendLive` | src/fabric.cpp:2729-2760 | every live record that is not suspended is suspended and journaled |
| `Fabric.Impl.RecoverState` | src/fabric.cpp:2640-2698 | replay over the base state and rebuild |
| `Fabric.Impl.BeginLifetime` | src/fabric.cpp:2727-2768 | reset what belongs to a lifetime, suspend, run |
| `Fabric.Impl.StartProcess` | src/fabric.cpp:2592-2768 | equals the start function: its success and, on success, the whole new state |
| `Journal.LookOfEncoded` | src/journal.cpp:88-157 | a stored record is read back whatever follows it |
| `Journal.LookOfCut` | src/journal.cpp:92-125 | a proper prefix of a stored record is an interrupted write, never damage |
| `Journal.CompleteIsLargest` | src/journal.cpp:88-157 | the complete-record prefix is the longest one that fits in the cut |
| `Journal.TruncationIsNeverDamage` | src/journal.cpp:88-157 | a well-formed journal cut at any byte scans clean or torn, never damaged, with exactly its complete records |
| `Journal.CutAtGoodIsClean` | src/journal.cpp:536-579 | for arbitrary bytes, cutting at the last good offset rescans clean with the same records, whose sequences strictly increase |
| `Journal.ScanOfAppend` | src/journal.cpp:610-667 | appending a record with a higher sequence to a clean journal extends its scan by exactly that record |
| `Journal.ScanRecords` | src/journal.cpp:88-157 | the scan loop reports offset, last sequence, count, discarded bytes and tail of the specified scan |
| `StoreBytes.LookIs` | src/journal.cpp:88-157 | what stands in front of arbitrary bytes: cut short, oversized, corrupt, or a record with these fields under a matching checksum |
| `StoreBytes.ScanClassifies` | src/journal.cpp:88-157 | whatever the bytes, the scan takes the intact records with rising sequences and classifies the rest by its own bytes: torn exactly when too short for what it announces, damaged for oversize, corruption or regression in every other case |
| `StoreBytes.OpenJudgesTail` | src/journal.cpp:536-579 | open keeps a clean journal, cuts a torn tail only where the policy allows, cuts damage only under TruncateDamagedTail, and otherwise refuses with the reason of the tail |
| `StoreBytes.DamageIsRefused` | src/journal.cpp:546-554 | a complete record whose checksum, kind or sequence is wrong refuses the store unless damage may be cut away |
| `StoreBytes.GoodHeaderIs` | src/journal.cpp:159-180 | a journal header is accepted exactly when magic, versions, size, checksum and identity are right at their offsets |
| `StoreBytes.GoodSnapshotIs` | src/journal.cpp:486-534 | a snapshot is accepted exactly when magic, versions, length, both checksums and the bound are right |
| `StoreBytes.OpensIff` | src/journal.cpp:349-579 | a store opens exactly when header and snapshot are good, the file is within the read limit and the policy tolerates the tail; an empty file when it is given a 32-byte identity |
| `StoreBytes.AppendedIff` | src/journal.cpp:610-667 | a record is appended exactly when its payload is within the record bound, the file within twice the journal bound and the counter not exhausted; otherwise nothing changes |
| `StoreBytes.CompactedIff` | src/journal.cpp:726-823 | compaction goes through exactly when the snapshot is within its bound and covers no less than the one in place |
| `Disk.HeaderReadsBack` | src/journal.cpp:159-180 | a written journal header is accepted with its identity and creation time, whatever follows |
| `Disk.SnapshotReadsBackIff` | src/journal.cpp:486-534 | a written snapshot reads back if and only if payload plus header fit the bound; otherwise it is refused as oversized |
| `Storage.OpenIsValid` | src/journal.cpp:536-579 | opening repairs the tail without changing the records, and the store then agrees with its files |
| `Storage.ReopenForgetsOnlyTheCounter` | src/journal.cpp:536-545 | reopening a valid store gives back files and memory except that the counter comes from the records alone |
| `Storage.AppendExtends` | src/journal.cpp:610-667 | a successful append adds exactly its record and keeps the store valid |
| `Storage.AppendVisibleIff` | src/journal.cpp:669-716 | an acknowledged record is seen by the next replay if and only if the counter was not behind the snapshot |
| `Compaction.CompactCompletes` | src/journal.cpp:726-823 | compaction without a crash ends in the last crash point's files and memory |
| `Compaction.CrashIsRecoverableIff` | src/journal.cpp:726-823 | a crash at any point, any byte of the base record included, reopens if and only if the snapshot had not been swapped in or fits the read bound; and with which memory and records |
| `Compaction.CompactionIsCrashSafe` | src/journal.cpp:726-823 | with a readable snapshot of the current state every crash point recovers that same logical state |
| `Compaction.CrashRecoversOldOrSnapshot` | src/journal.cpp:726-823 | what each crash point recovers: the old logical state before the snapshot swap, the snapshot's after it |
| `Compaction.AppendAfterCrashVisibleIff` | src/journal.cpp:536-545 | after a crash in the base record, later appends are visible if and only if the whole base record was written or the snapshot covers nothing |
| `JournalStore.ReplayAgreesWithScan` | src/journal.cpp:669-716 | on a journal the scan accepted, replay visits exactly the uncovered non-base records |
| `JournalStore.VisitAll` | src/journal.cpp:684-716 | the replay loop computes the specified visit, stops quietly at an incomplete tail and refuses a corrupt record |
| `JournalStore.BuildRecord` | src/journal.cpp:643-653 | the buffer filled in place is the encoded record |
| `JournalStore.Impl.constructor` | src/journal.cpp:319-341 | the store starts over the given files |
| `JournalStore.Impl.Open` | src/journal.cpp:349-579 | fresh file, header checks, snapshot checks, scan and tail policy; a refusal leaves the files alone |
| `JournalStore.Impl.Append` | src/journal.cpp:610-667 | size, cap and sequence checks, then record and counters |
| `JournalStore.Impl.Replay` | src/journal.cpp:669-716 | hands over exactly the visible records of a valid store |
| `JournalStore.Impl.Compact` | src/journal.cpp:726-823 | snapshot, fresh journal, base record, or the refusal |
| `Crc.TableStep` | src/digest.cpp:172-180 | one table step equals feeding eight bits to the shift register |
| `Crc.BuildTable` | src/digest.cpp:41-54 | entry i is the register advanced eight times from i |
| `Crc.TableCrc32c` | src/digest.cpp:172-180 | the table-driven checksum equals the bit-by-bit CRC32C of section 12.1 of RFC 3720 |
| `Sha.PaddingFillsBlocks` | src/digest.cpp:136-158 | the padding of section 5.1.1 of FIPS 180-4 fills whole blocks with the fewest zeros |
| `Sha.PaddingIsInjective` | src/digest.cpp:136-158 | messages within the 64-bit length are recovered from their padding |
| `Sha.Sha256.constructor` | src/digest.cpp:58-62 | nothing absorbed, nothing waiting |
| `Sha.Sha256.Update` | src/digest.cpp:113-131 | the message grows by the data; whole blocks are absorbed, the rest waits, bits are counted modulo 2^64 |
| `Sha.Sha256.PadZeros` | src/digest.cpp:140-142 | the zero loop ends after exactly the gap |
| `Sha.Sha256.Finish` | src/digest.cpp:136-158 | the result is the fold of the block function over the padded message |
| `Sha.HashChunks` | src/digest.cpp:113-158 | any sequence of update calls then finish hashes the concatenation |
| `Frames.EncodeFrame` | src/service.cpp:167-190 | the buffer filled in place is the encoded frame, or the payload is refused |
| `Frames.DecodeOfEncode` | src/service.cpp:192-229 | decoding inverts encoding |
| `Frames.EncodeOfDecode` | src/service.cpp:192-229 | the bytes of an accepted frame are its only encoding |
| `Frames.NextIsStable` | src/service.cpp:235-266 | a verdict once reached does not depend on later bytes |
| `Frames.ChunksDoNotMatter` | src/service.cpp:231-266 | any split of a stream into feeds gives the same frames, the same first error and, without one, the same remainder |
| `Frames.FramesAreRecovered` | src/service.cpp:167-266 | encoded frames are recovered exactly and an unfinished tail stays pending |
| `Frames.DrainReencodes` | src/service.cpp:235-266 | the stream is the emitted frames re-encoded followed by the remainder: no byte invented or lost |
| `Frames.FinishIffWholeFrames` | src/service.cpp:268-273 | finish accepts exactly the streams that are concatenations of encoded frames |
| `Frames.FrameDecoder.constructor` | include/nof/service.hpp:81-98 | nothing pending |
| `Frames.FrameDecoder.Feed` | src/service.cpp:231-233 | pending bytes grow by the chunk |
| `Frames.FrameDecoder.Take` | src/service.cpp:235-266 | one frame, nothing yet, or a refusal that leaves the pending bytes alone |
| `Frames.FrameDecoder.Finish` | src/service.cpp:268-273 | succeeds exactly when nothing is pending |
| `Frames.TakeAll` | src/service.cpp:235-266 | calling next until it has no frame drains the pending bytes |
| `Frames.ReadConnection` | src/service.cpp:231-273 | over a whole connection: frames and first error of the concatenated stream, and finish succeeds exactly on whole frames |
| `Codec.ItemBack` | src/canonical.cpp:66-271 | every primitive field followed by any bytes is read back and leaves those bytes |
| `Codec.ItemCanonicalIff` | src/canonical.cpp:145-271 | what was read is within bounds and rewrites to the same bytes unless a class carried a high byte |
| `Codec.ClassHighByteIsDropped` | src/wire.cpp:768-769 | a class with a non-zero high byte is read as the plain class |
| `Codec.ListBack` | src/wire.cpp:797-816 | a counted collection within its bound is read back and leaves exactly the rest |
| `Cursor.Writer.Append` | src/canonical.cpp:66-82 | bytes are appended or refused at the bound |
| `Cursor.Writer.WriteItem` | src/wire.cpp:14-56 | one field through the sticky writer |
| `Cursor.Writer.WriteItems` | src/wire.cpp:14-56 | the buffer is the encoding unless the flag is up, and the flag is up exactly when a field was unwritable or the encoding does not fit |
| `Cursor.Reader.ReadItem` | src/wire.cpp:61-140 | one field, unless an earlier one failed |
| `Cursor.Reader.ReadItems` | src/wire.cpp:61-140 | straight-line sticky reads report the first failure exactly as the codec does |
| `Wire.RoundTripIff` | src/wire.cpp:726-818 | decoding an encoded record followed by any bytes returns it and leaves those bytes, if and only if both collections are within the decoder's bounds; otherwise it is refused |
| `Wire.EncodingIsPrefixFree` | src/wire.cpp:726-761 | the encoding is injective and no encoding is a proper prefix of another |
| `Wire.TruncationIsRefused` | src/wire.cpp:763-818 | every proper prefix of an encoded record is refused |
| `Wire.DecodeExtends` | src/wire.cpp:763-818 | what was decoded does not depend on what follows |
| `Wire.AcceptedIsCanonicalIff` | src/wire.cpp:763-818 | accepted bytes are within bounds and are the record's canonical encoding if and only if the class was spelled plainly |
| `JsonTrip.StringBack` | src/canonical.cpp:442-533 | a quoted string is read back if it is ASCII and refused otherwise |
| `JsonTrip.EscapedIsPrintable` | src/canonical.cpp:21-58 | escapes follow section 7 of RFC 8259: printable ASCII only, no bare quote, no control character |
| `JsonTrip.ValueBack` | src/canonical.cpp:422-690 | reading a printed value inside a document gives it back with the rest of the text exactly when it is ASCII and not nested too deep |
| `JsonTrip.ParseOfPrintIff` | src/canonical.cpp:314-714 | the printed text parses if and only if every string is ASCII and nesting is within the limit, and then as the value with non-negative Int read as UInt |
| `JsonTrip.NormPrints` | src/canonical.cpp:328-405 | printing what was read back gives identical text |
| `JsonDump.DumpIff` | src/canonical.cpp:328-416 | dump succeeds if and only if nesting is at most 64 and the last nested value begins within the bound; a document no longer than the bound always succeeds |
| `JsonDump.DumpCanExceedItsBound` | src/canonical.cpp:337-344 | a document longer than the bound can be produced |
| `JsonDump.PrintParsePrint` | src/canonical.cpp:314-714 | dump, parse, dump: the normalised value and byte-identical text |
| `JsonDump.AppendEscaped` | src/canonical.cpp:21-58 | the loop appends the escaped text |
| `JsonDump.Printer.constructor` | src/canonical.cpp:407-416 | empty output, no error |
| `JsonDump.Printer.Value` | src/canonical.cpp:328-405 | one value appended with its depth and size guards, or the first error |
| `JsonDump.Printer.AllItems` | src/canonical.cpp:372-385 | the array loop |
| `JsonDump.Printer.AllMembers` | src/canonical.cpp:386-403 | the object loop |
| `JsonAccept.AcceptedIsStable` | src/canonical.cpp:422-714 | every accepted document stands for a value that prints and parses back to itself up to the sign class of non-negative numbers |
| `JsonGrammar.ParsedIff` | src/canonical.cpp:422-714 | a text is accepted as a value exactly when it spells that value: a grammar of whitespace, escapes, 64-bit integers, literals, arrays, objects with distinct keys in any order, and nesting, stated without the reader |
| `JsonGrammar.FractionIsUnsupported` | src/canonical.cpp:534-600 | digits that go on with a fraction or an exponent are refused as unsupported |

## Left out

- Sockets, server threads, worker queue, client, opcode dispatch and file primitives: I/O. Each fabric operation runs under one mutex, so it is one atomic step of the model.
- Clock, boot-id and store-id generation: times and identities are inputs. An operation reads one time stamp.
- Structural validators of topology, policy, observation, scope and bounds: easy; their results are hypotheses such as strictly ordered devices. Scope identities are inputs, not derived by hashing, and scope specifications are not stored.
- SHA-256 compression arithmetic and the layout of the eight output words: the block function is a parameter.
- Memory-only mode, `shutdown`, `seal` and restarting the same object: a restart is a new process on the store.
- Compaction as an event of a run: it is modelled on the store, and the run theorems are carried to a start from a snapshot by the lemmas of `Snapshots`; the snapshot is a faithful encoding of the state: `encode_state` is modelled by what it keeps and loses, not byte by byte.
- Writes that fail half way: a failing append leaves no bytes. Interrupted writes appear as truncations of the journal and of the base record.
- The store's read limit is unbounded arithmetic: options near 2^63 bytes, where the source would wrap around, are not distinguished.
- The reassignment list, observations and restart floors: not part of the replay refinement, because the source rebuilds or resets them on purpose; `Budget` states what a replay finds of the reassignments.
- Codecs of records other than assignments, and the other sections of `collect_invariants`: the same shape as what is proved, only longer.
- Statistics, explanations, text and JSON builders, `to_string` tables, tools, benchmarks and tests: presentational.
- The JSON reader's cursor: reading is modelled as functions on the remaining text rather than as an object that advances a position.
- Refinement.SnapshotThenTail: relates the durable core only; the eviction order of the idempotency table is lost by a snapshot unless it was ascending, as SnapshotKeepsOrderIffAscending states.
- Fabric.Impl.StartProcess: on failure only the failure is promised, since a failed start leaves an object that is not used.
- Fences.FencesNeverRepeat: needs that no crash loses a committed epoch record; LostEpochRepeatsTokens shows why.
