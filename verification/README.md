# Komari: verified models of its stateful cores

Komari is a server-monitoring panel: agents on many machines report to it, and it stores their metrics,
decides what they may do, meters and bills their traffic, and watches the routes they use. This project
models the parts of it whose correctness depends on long histories or on exact arithmetic, and proves what
those parts promise, for every input, every interleaving and every run.

| part | files | what is proved |
|---|---|---|
| Privileged delivery | `PrivilegedDelivery`, `PrivilegedInvariants`, `PrivilegedContracts`, `PrivilegedStore`, `PrivilegedReader` | the per-node state machine of revisions, approvals, leased host operations and observations keeps its invariants over all runs, every transaction answers exactly when it should and leaves exactly what was asked for, whatever is allowed was asked for, confirmed and observed, and the lock-free reader agrees with the locked one |
| Refresh-credential rotation | `Rotation`, `RotationInvariants`, `RotationTheorems`, `RotationContracts`, `RotationStore` | rotation is one linear chain, a named generation is refreshed once, a lost response can be had again, reuse revokes, revocation lasts until a new key, deadlines do not move |
| Deletion against writers | `DeletionGate`, `DeletionProtocol`, `DeletionRuns` | once a client or a ping task is deleted nothing of it is stored again while its guard is up, in every interleaving, and the guard stays up exactly until a deletion of it fails; what no guard concerns is stored |
| Report batching | `ReportBatch`, `ReportWriter` | a batch is the same as one report at a time; what a failed write does to the pending slice |
| Return-route rules | `RoutePrefixes`, `RouteTrie`, `RouteGenerator` | the linked trie is longest-prefix match; merging and the generator give every prefix one owner |
| Return-route hysteresis | `RouteHysteresis` | events are confirmed, chained and never missed |
| Traffic calibration | `Calibration`, `CalibrationLedger`, `CycleCache` | a calibrated total is billed exactly; a calibrated direction shows its target exactly when it is reachable; cached values are never stale |
| Traffic ledger | `TrafficDeltas`, `TrafficBuckets` | what each record is charged; counter traffic is conserved; interval, day and direct sums agree |
| Billing | `Money`, `AmountText`, `BillingLedger`, `BillingAccrual` | rounding, reversals, text round trips, price versions and daily accrual |

How the models are built:

- A database transaction is one atomic step: it commits, or it leaves every table as it was. Tables are maps.
- Clock readings, random tokens, query results and contention are parameters, so a theorem about all runs
  is a theorem about all of them.
- Where the program changes things in place there is a class or an array method, and each of its methods is
  proved equal to a specification function; the theorems are about those functions.
- Digests are idealised as injective, random tokens as fresh.

`dafny verify dfyconfig.toml` checks everything.

Promises that hold only under a condition, each with the condition proved exact:

- The guard of a deleted client or ping task is lowered again exactly when a deletion of it fails
  (`DeletionProtocol.GuardStaysIff`), and a deletion fails exactly when the store or the database refuses or there is no
  row to delete (`LoweringIff`), so deleting twice reopens it: `DeletionRuns.DeletedTwiceThenWritten` is the run in which
  a report of the deleted client, or a ping of the deleted task, is then stored. Whether writers can bring back what was
  deleted is decided by its guard alone (`DeletionRuns.GuardDecides`).
- A direction calibration shows its target if and only if the target is shown already, or is a reduction of a cycle
  that is not saturated, or is a growth onto a newest day that is not clamped at zero by an earlier correction
  (`Calibration.DirectionCalibrationExactIff`). `ClampedDayMissesTarget` and `SaturatedCycleMissesTarget` are the two
  ways to miss.
- A charge and its reversal cancel in a display currency if and only if the charge's exact conversion is not 2^63,
  the one magnitude that only the negative sign can hold (`BillingLedger.ReversalCancelsIff`); exactly then voiding
  contributes nothing (`VoidingContributesNothing`). `VoidedChargeLingers` is a voided charge whose reversal alone is
  left in the period total.
- Cleanup changes the answer to exactly one kind of request, known by its gate: the replay, after the recovery window
  and inside the enrollment, of a consumed token whose use record the cleanup drops
  (`RotationTheorems.CleanupIsInvisible`). A run reaches it by reapproving the machine after its first deadline
  (`ReapprovedReplayIsForgotten`), because reapproval does not extend use records; in every run that does not reapprove
  the machine, cleanup is invisible (`CleanupInvisibleWithoutReapproval`).

And one side effect is stated exactly: a failed report write leaves the caller's pending reports shifted,
unless every blocked report stood behind every kept one (`ReportBatch.ShiftedUnchangedIff`); after the retry no kept
report is lost, and `ReportWriter.MetricWriter.FlushTwice` says which are stored twice; none, under the very same
condition (`ReportBatch.NothingRepeatedIff`).

## Model

| member | source | states |
|---|---|---|
| `PrivilegedInvariants.EveryRunIsSafe` | database/privilegeddelivery/host.go:43-345 | in every run from an empty history: at most one host operation per revision, of that revision's approval generation; every pending revision is the desired one; a delivered target that lists actions has its operation at phase 3; applied never exceeds desired and names a delivered or failed row; the stored observation is of the applied row |
| `PrivilegedInvariants.EveryRunEvolves` | database/privilegeddelivery/privilegeddelivery.go:114-160 | between any two points of a run: settings and hash never change, Failed and Superseded are final, Delivered can only become Failed, operation phases never decrease and are final from 4 on, desired, applied, sequence and generations never decrease, receipts stay |
| `PrivilegedInvariants.ApplyKeeps` | database/privilegeddelivery/state.go:37-76 | every single transaction, rolled back or committed, keeps the invariant and lets records only evolve |
| `PrivilegedInvariants.DeliveryNeedsCompletedOperation` | database/privilegeddelivery/host.go:189-297 | the only step into Delivered is an observation of the desired revision, and when its approval lists actions that observation names the operation of this approval at phase 3 |
| `PrivilegedInvariants.RepeatedReceiptIsInert` | database/privilegeddelivery/state.go:278-300 | a stored receipt presented again with equal content changes nothing at all |
| `PrivilegedInvariants.BaselineWrittenOnce` | database/privilegeddelivery/baseline.go:45-62 | the installation baseline is written once and stays as it is until the client itself is deleted |
| `PrivilegedInvariants.AllowedOnlyWhenObserved` | database/clients/deployment_profile.go:944-998 | in every reachable state a capability allowed by that one state was effective in the stored observation of the applied, delivered revision, and the desired revision is neither failed nor superseded and grants it too |
| `PrivilegedContracts.SaveCommitsIff` | database/privilegeddelivery/privilegeddelivery.go:115-137 | a save commits exactly for the caller who saw the desired revision, asked for children only with their master and for a known mode, and whose mode can be resolved |
| `PrivilegedContracts.SaveLeaves` | database/privilegeddelivery/privilegeddelivery.go:138-158 | the next revision carries exactly the requested capabilities and the requested, negotiated or profile mode, unconfirmed and over the applied one; every open row is superseded and loses its nonce, every other row stays |
| `PrivilegedContracts.ConfirmCommitsIff` | database/privilegeddelivery/privilegeddelivery.go:214-254 | a confirmation commits exactly for a named user and the live target, if it is delivered or still approved, or can be approved and the host supports the actions that lead to it |
| `PrivilegedContracts.ConfirmLeaves` | database/privilegeddelivery/privilegeddelivery.go:232-281 | a valid approval is left alone; otherwise the next approval binds target, hash, generation, service, mode, nonce and exactly the host actions that are needed, for half an hour |
| `PrivilegedContracts.ArrivalAnswers` | database/privilegeddelivery/privilegeddelivery.go:290-319 | the legacy receipt stamps the arrival of a live row once and nothing else |
| `PrivilegedContracts.ClaimCommitsIff` | database/privilegeddelivery/host.go:46-94 | a claim is answered exactly to the holder of the nonce of the live target, for the operation that claimed it before or while it can be claimed |
| `PrivilegedContracts.ClaimLeaves` | database/privilegeddelivery/host.go:95-107 | a claim uses the approval up, for ten minutes and never longer than the approval; asking again changes nothing |
| `PrivilegedContracts.HostReportCommitsIff` | database/privilegeddelivery/host.go:116-157 | a host report is recorded exactly when it is a legal step: forward, final at failure, success only for the target, in the lease and with local authentication |
| `PrivilegedContracts.HostReportLeaves` | database/privilegeddelivery/host.go:158-181 | the report is written into its operation; it fails the row only while the operation is the target's |
| `PrivilegedContracts.ObservationCommitsIff` | database/privilegeddelivery/host.go:192-270 | an observation is accepted exactly when it is of this approval, timely, backed by its host operation, and shows exactly the approved settings in force |
| `PrivilegedContracts.ObservationLeaves` | database/privilegeddelivery/host.go:275-294 | the row is delivered and applied, the node carries the observation, and the profile follows it |
| `PrivilegedContracts.FailureAnswers` | database/privilegeddelivery/host.go:301-345 | a failure is recorded exactly when it names the approval of a target on its way and says why |
| `PrivilegedContracts.NegotiationAnswers` | database/privilegeddelivery/state.go:201-236 | negotiation is refused exactly to malformed claims and to another service, and otherwise stores what the agent says |
| `PrivilegedContracts.LockedReadAnswers` | database/privilegeddelivery/state.go:151-183 | a locked read changes at most one thing: a lapsed approval of the target expires |
| `PrivilegedContracts.SnapshotTells` | database/privilegeddelivery/state.go:151-199 | a snapshot is exactly the state row, the desired and applied revisions as stored, the desired one with the cursor of the node, and the newest host operation of the desired one |
| `PrivilegedContracts.BaselineAnswers` | database/privilegeddelivery/baseline.go:29-162 | a baseline is refused, skipped or installed exactly as stated, and installs exactly the requested settings, approved without expiry and without host actions |
| `PrivilegedContracts.FirstUse` | database/privilegeddelivery/state.go:37-63 | without a state row a transaction does what it would do over a fresh one whose desired revision is the newest stored |
| `PrivilegedContracts.EveryRunIsTraced` | database/privilegeddelivery/privilegeddelivery.go:114-160 | in every run, every row was asked for, every approval confirmed by a named user or at installation, and the stored observation reported |
| `PrivilegedContracts.AllowedWasAskedAndConfirmed` | database/clients/deployment_profile.go:944-998 | in every run, whatever capability is allowed was asked for as the applied and as the desired revision, confirmed, and reported effective |
| `PrivilegedStore.AllSupported` | database/privilegeddelivery/state.go:259-276 | true exactly when every required action was negotiated |
| `PrivilegedStore.DeliveryStore.SaveSettings` | database/privilegeddelivery/privilegeddelivery.go:114-160 | the step-by-step save is exactly the save transaction, refusals included |
| `PrivilegedStore.DeliveryStore.ConfirmRevision` | database/privilegeddelivery/privilegeddelivery.go:210-283 | the step-by-step confirmation is exactly the confirm transaction |
| `PrivilegedStore.DeliveryStore.ReportReceived` | database/privilegeddelivery/privilegeddelivery.go:290-319 | the legacy receipt is exactly the report transaction: it stamps the arrival once and never approves or completes |
| `PrivilegedStore.DeliveryStore.PrepareOperation` | database/privilegeddelivery/host.go:43-111 | claiming a host operation is exactly the prepare transaction |
| `PrivilegedStore.DeliveryStore.ReportOperation` | database/privilegeddelivery/host.go:113-185 | host progress is exactly the host-report transaction, stale operations included |
| `PrivilegedStore.DeliveryStore.ObserveDaemon` | database/privilegeddelivery/host.go:189-297 | an observation is exactly the observe transaction: the deployment profile follows it, and a profile that cannot be read refuses it |
| `PrivilegedStore.DeliveryStore.FailApplication` | database/privilegeddelivery/host.go:301-345 | a bound failure is exactly the fail transaction |
| `PrivilegedStore.DeliveryStore.NegotiateProtocol` | database/privilegeddelivery/state.go:201-236 | negotiation is exactly the negotiate transaction |
| `PrivilegedStore.DeliveryStore.ReadLocked` | database/privilegeddelivery/state.go:151-199 | the locked reader may expire a lapsed approval and never renews one, and the snapshot it returns shows the tables as it leaves them |
| `PrivilegedStore.NewestFor` | database/privilegeddelivery/state.go:185-195 | the newest operation of a revision, and none exactly when it has none |
| `PrivilegedStore.DeliveryStore.InstallBaseline` | database/privilegeddelivery/baseline.go:29-162 | the installation baseline is exactly the baseline transaction, with the eligibility it uses up and the profile and reset day it starts |
| `PrivilegedReader.BumpOrSameView` | database/privilegeddelivery/state.go:65-76 | every transaction bumps the update sequence or leaves the state, rows and target operation alone |
| `PrivilegedReader.SequenceBrackets` | database/privilegeddelivery/state.go:84-87 | along any history the sequence never decreases, and while it stands still so does the view |
| `PrivilegedReader.Attempt` | database/privilegeddelivery/state.go:92-146 | one bracketed pass, with each query placed anywhere in the history, returns the only snapshot of one committed state, in which the locked reader would write nothing |
| `PrivilegedReader.OneAnswer` | database/privilegeddelivery/state.go:151-199 | committed tables have only one snapshot to show |
| `PrivilegedReader.GetState` | database/privilegeddelivery/state.go:88-149 | a consistent answer is what the locked reader returns from one committed state; the locked fallback, an unknown client and giving up are each explained by the history |
| `PrivilegedReader.CheckCapability` | database/clients/deployment_profile.go:944-998 | three queries, each of its own committed state: what is allowed was allowed, and seen effective, in the state the first query saw; a refusal of something allowed there means that a row has failed since |
| `RotationInvariants.AfterKeeps` | database/enrollment/rotation.go:57-189 | every transaction keeps token ownership, the linear chain, the use records and the deadline bounds |
| `RotationInvariants.MigrationNeverLengthens` | database/enrollment/lifecycle.go:87-115 | migration sets the absolute deadline once, bounds the refresh deadline by it and never lengthens it, and touches nothing else |
| `RotationInvariants.ChainGrows` | database/enrollment/rotation.go:170-188 | the token consumed by a rotation was never granted before, so the chain grows at its end |
| `RotationInvariants.RecoveryIsIdle` | database/enrollment/rotation.go:99-118 | recovery returns a response that was granted before and changes no table |
| `RotationTheorems.EveryRunIsLinear` | database/enrollment/rotation.go:57-212 | any two successful refreshes with the same token, or of one machine with the same generation, got the same response, and no consumed token is current again |
| `RotationTheorems.GenerationsOnlyGrow` | database/enrollment/rotation.go:174-187 | between any two points of a run generations never decrease |
| `RotationTheorems.SuccessIsRotationOrRecovery` | database/enrollment/rotation.go:99-188 | a success describes the pair now stored, within the absolute deadline, and is a rotation by one generation or an idle recovery |
| `RotationContracts.RefusedAtTheGate` | database/enrollment/rotation.go:61-101 | every refusal before the token is looked at, in order, and none of them changes anything |
| `RotationContracts.CurrentToken` | database/enrollment/rotation.go:141-200 | the current token is exchanged exactly for the caller who names the current generation; the response and every column of the row are as stated |
| `RotationContracts.PreviousToken` | database/enrollment/rotation.go:102-121 | inside the window the same request gets the sealed response again, any other a conflict |
| `RotationContracts.OtherToken` | database/enrollment/rotation.go:122-140 | any other token is refused, except that the use of a consumed one by an upgraded client revokes the chain |
| `RotationContracts.GrantFollowsExpectation` | database/enrollment/rotation.go:118-146 | whoever names a generation and succeeds, by rotation or recovery, gets the one after it; an upgraded machine cannot rotate without naming one |
| `RotationContracts.StaleExpectationConflicts` | database/enrollment/rotation.go:141-143 | the current token with another expectation is a conflict and changes nothing |
| `RotationContracts.OneWinnerPerGeneration` | database/enrollment/rotation.go:52-54 | in every run, all successful refreshes of a machine that named one generation got the very same response |
| `RotationContracts.LostResponseRecovers` | database/enrollment/rotation.go:102-121 | right after a rotation the same request gets the same response for a minute, a legacy client for ten, and nothing moves |
| `RotationContracts.HandOverEnds` | database/enrollment/rotation.go:155-158 | the access token that a rotation replaces resolves for at most a minute more |
| `RotationContracts.MigratedIsForward` | database/enrollment/lifecycle.go:96-126 | a row from before deadlines existed gets the deadline of its age but at least the grace, and keeps an earlier or expired refresh deadline |
| `RotationContracts.AccessResolvesIff` | database/enrollment/enrollment.go:392-412 | an access token resolves exactly while it is current or being handed over, its machine is not revoked and no deadline has passed |
| `RotationTheorems.ReuseRevokesExactly` | database/enrollment/rotation.go:119-139 | a request revokes the chain if and only if it passes the gate under protocol 2 with a recorded consumed token outside the recovery window |
| `RotationTheorems.ReplayOfConsumedTokenRevokes` | database/enrollment/rotation.go:119-139 | a token consumed by a rotation and replayed after any run without re-enrollment or expiry cleanup revokes the chain |
| `RotationTheorems.RunKeepsUse` | database/enrollment/lifecycle.go:141-148 | a use record survives everything but enrollment of its machine and cleanup at its expiry |
| `RotationTheorems.RevokedUntilNewKey` | database/enrollment/enrollment.go:392-412 | once revoked, nothing of the machine rotates and none of its tokens resolves until it is enrolled under a different key |
| `RotationTheorems.ResolvesToOwner` | database/enrollment/enrollment.go:392-412 | an access token resolves only to the machine it was minted for and only before its deadlines; a refresh lookup finds the same machine |
| `RotationTheorems.RefreshingNeverMovesDeadline` | database/enrollment/lifecycle.go:68-83 | without approval or enrollment the absolute deadline stays, and every response granted meanwhile ends by it, whatever the policy edits |
| `RotationTheorems.EnrollmentBounded` | database/enrollment/enrollment.go:436-511 | enrollment is refused to a revoked machine under its old key, is bounded by the new absolute deadline and clears its use records |
| `RotationContracts.EnrollmentAnswers` | database/enrollment/enrollment.go:436-511 | an enrollment is refused exactly to a revoked key or without tokens or policy; it keeps nothing of the old chain but its age and generation |
| `RotationContracts.ReapprovalAnswers` | database/enrollment/lifecycle.go:158-190 | reapproval answers the administrator who saw this generation and key, outside a recovery; it moves both deadlines and keeps every token |
| `RotationContracts.InitializationLeaves` | database/enrollment/lifecycle.go:115-137 | startup brings every row forward and touches no token |
| `RotationContracts.CleanupLeaves` | database/enrollment/lifecycle.go:141-148 | a cleanup drops exactly the sealed responses whose window is over, with the request they answer, and the use records past their expiry |
| `RotationContracts.PolicyAnswers` | database/enrollment/lifecycle.go:45-67 | a policy is saved exactly by the administrator who saw the current revision, and only in range |
| `RotationTheorems.CleanupIsInvisible` | database/enrollment/lifecycle.go:141-148 | after a cleanup every later request gets the answer it would have got, except exactly those at the gate of the late replay, which are rejected instead of revoking |
| `RotationTheorems.CleanupInvisibleWithoutReapproval` | database/enrollment/lifecycle.go:141-148 | in every run that never reapproves a machine, no later request of it can tell whether a cleanup happened |
| `RotationTheorems.ReapprovedReplayIsForgotten` | database/enrollment/lifecycle.go:141-190 | the run that shows it: enrolled, refreshed, reapproved on day 181; a replay on day 182 revokes, and after a cleanup is merely rejected |
| `RotationStore.CredentialStore.RotateOnce` | database/enrollment/rotation.go:66-189 | the step-by-step rotation is exactly the rotate transaction |
| `RotationStore.CredentialStore.RotateProof` | database/enrollment/rotation.go:57-212 | with up to six tries against a busy database at most one transaction takes effect, that of the first free try |
| `RotationStore.CredentialStore.RotateVerified` | database/enrollment/rotation.go:53-63 | the same from the token and request as presented |
| `RotationStore.CredentialStore.MigrateRow` | database/enrollment/lifecycle.go:87-115 | the step-by-step migration is the migration function |
| `RotationStore.CredentialStore.IssueCredential` | database/enrollment/enrollment.go:436-511 | issuing is exactly the issue transaction, for new and existing machines |
| `RotationStore.CredentialStore.RevokeCredential` | database/enrollment/enrollment.go:381-389 | revoking is exactly the revoke step |
| `RotationStore.CredentialStore.ReapproveCredential` | database/enrollment/lifecycle.go:158-190 | reapproval is exactly the reapprove transaction |
| `RotationStore.CredentialStore.InitializeLifecycle` | database/enrollment/lifecycle.go:116-137 | the loop migrates exactly the rows that need it, each once |
| `RotationStore.CredentialStore.CleanupLifecycle` | database/enrollment/lifecycle.go:141-148 | whatever can still be recovered stays; no sealed response outlives its window; exactly the use records past their expiry go, and nothing else of a row changes |
| `RotationStore.CredentialStore.SaveCredentialPolicy` | database/enrollment/lifecycle.go:45-67 | a policy edit is a compare-and-set on its revision |
| `RotationStore.CredentialStore.ResolveAccessToken` | database/enrollment/enrollment.go:392-412 | the answer is the machine the token resolves to, whichever matching row the query returns first |
| `DeletionGate.WhoMayEnter` | database/metricstore/operation_gate.go:12-40 | up to 1024 writers may be in at once while no deletion is, and a deletion only when nobody is |
| `DeletionGate.ExclusiveIsAlone` | database/metricstore/operation_gate.go:16-40 | a holder of the whole weight excludes every other holder |
| `DeletionGate.OperationGate.TryAcquire` | database/metricstore/operation_gate.go:22-32 | the exclusive lease is granted exactly when nothing is held |
| `DeletionGate.OperationGate.TryAcquireShared` | database/metricstore/operation_gate.go:34-36 | a shared lease is granted while weight is free, never beside an exclusive one |
| `DeletionGate.DeletionGuards.BlockEntityWrites` | database/metricstore/deletion_guard.go:19-26 | raises the guard of exactly this entity; the empty name is never blocked, now or later |
| `DeletionGate.DeletionGuards.BlockPingTaskWrites` | database/metricstore/deletion_guard.go:41-47 | blocks exactly the listed tasks in addition |
| `DeletionGate.DeletionGuards.UnblockPingTaskWrites` | database/metricstore/deletion_guard.go:49-55 | unblocks exactly the listed tasks |
| `DeletionProtocol.RunKeeps` | database/metricstore/operation_gate.go:12-40 | every interleaving keeps leases and phases consistent |
| `DeletionProtocol.DeleteCleans` | database/metricstore/metricstore.go:1740-1781 | the step that finishes the exclusive delete of a client or of ping tasks leaves no point, no traffic state and no writer that could still add one |
| `DeletionProtocol.DeletedStaysDeleted` | database/clients/client.go:28-45 | in every interleaving of any number of report and ping writers and of deletions of clients and tasks, after the exclusive delete and while the guard stays up, the store holds nothing of what was deleted and no writer past its recheck carries it |
| `DeletionProtocol.MoveStaysClean` | database/metricstore/report.go:329-352 | while the guard is up no step of a writer adds a point or state of what it guards |
| `DeletionProtocol.GuardedPassesNothing` | database/metricstore/metricstore.go:1026-1036 | while the guard of a client or task is up, no step of any process lets an item of it pass the first check or the second |
| `DeletionProtocol.GuardedRunPassesNothing` | database/metricstore/metricstore.go:1026-1036 | over every interleaving under a raised guard, what a writer carries of its subject it carried at the start |
| `DeletionProtocol.WriteStoresPrefix` | database/metricstore/report.go:421-428 | a write stores a prefix of its batch, the whole of it unless it failed on the way; an emptied batch is not written |
| `DeletionRuns.WriterAlone` | database/metricstore/metricstore.go:1026-1083 | a report batch or a ping that meets a free gate stores exactly the items that no guard concerns, and of reports their traffic states |
| `DeletionProtocol.OnlyFailureLowersGuard` | database/tasks/ping.go:55-61 | a raised guard comes down in exactly one kind of step, the last one of a failed deletion that covers it |
| `DeletionProtocol.OnlyDeletionRaisesGuard` | database/tasks/ping.go:51-55 | a guard comes up in exactly one kind of step, the first of a deletion that covers it; the empty name has none |
| `DeletionProtocol.GuardStaysIff` | database/clients/client.go:29-35 | the guard is up throughout a run if and only if no step of it ends a failed deletion of what it guards |
| `DeletionProtocol.LoweringIff` | database/tasks/ping.go:64-95 | a deletion fails if and only if the store or the database refused, or there is no row |
| `DeletionProtocol.CleanUnlessDeletionFails` | database/clients/client.go:28-45 | what was deleted stays clean and guarded as long as no deletion of it fails |
| `DeletionRuns.DeletionSucceeds` | database/tasks/ping.go:51-95 | a deletion that the store and the database go along with leaves neither points, states nor rows of its target, touches nothing else and leaves the guard up |
| `DeletionRuns.SecondDeletionReopens` | database/clients/client.go:55-64 | deleting a client or tasks whose rows are gone fails and lowers exactly their guards |
| `DeletionRuns.LateItemLands` | database/metricstore/report.go:421-428 | with the guard down a late report of the client, or a late ping of the task, is stored |
| `DeletionRuns.DeletedTwiceThenWritten` | database/clients/client.go:28-64 | from any idle system: deleted successfully, deleted again, written once, and the report or ping is stored for a client or task that no longer exists |
| `DeletionRuns.GuardDecides` | database/metricstore/report.go:329-352 | in a quiet system no writers can bring back what was deleted if and only if its guard is up |
| `ReportBatch.UpperBoundSaturates` | database/metricstore/report.go:541-557 | for every rate and every positive duration: the overflow guards compute the exact bound, saturated at 64 bits; a negative rate, or a duration whose rounding up overflows, leaves the allowance alone |
| `ReportBatch.ConsecutiveReports` | database/metricstore/report.go:399-418 | the next report of an entity is stored strictly later, and its traffic is zero or exactly the growth of the counter within the bound |
| `ReportBatch.FirstReport` | database/metricstore/report.go:372-411 | the first report after a restart is charged, per direction, the growth over the newest stored counter, or nothing without one; the time counts from the newer of the two |
| `ReportBatch.TimesIncrease` | database/metricstore/report.go:399-401 | stored times of an entity strictly increase along any list |
| `ReportBatch.StateIsLastReport` | database/metricstore/report.go:412-417 | the traffic state is always the last stored report of its entity |
| `ReportBatch.LatestBefore` | database/metricstore/report.go:470-479 | the newest sample strictly before a time, and none exactly when there is none |
| `ReportBatch.ShiftedUnchangedIff` | database/metricstore/report.go:329-352 | after a failed write the pending reports are unchanged if and only if no blocked report came before a kept one |
| `ReportBatch.KeptByBoth` | database/metricstore/report.go:302-345 | filtering twice keeps, in order, exactly what neither reading of the guard blocks |
| `ReportBatch.NothingRepeatedIff` | database/metricstore/report.go:302-352 | a retry stores nothing twice if and only if no blocked report came before a kept one |
| `ReportBatch.RetryKeeps` | database/metricstore/report.go:302-323 | a retry keeps everything kept before and repeats exactly the kept reports at or behind their number |
| `ReportBatch.RetryWrites` | database/metricstore/report.go:302-323 | a failed flush and a retry store what was written, the kept reports of the failed batch, the repeated ones and the rest, one at a time |
| `ReportWriter.FilterInPlace` | database/metricstore/report.go:329-335 | filtering in place leaves the kept reports in front and the old ones behind |
| `ReportWriter.LatestIgnores` | database/metricstore/report.go:470-479 | points of other entities do not change a lookup |
| `ReportWriter.OneInBatch` | database/metricstore/report.go:363-419 | preparing a report against pending values is writing it after the earlier ones |
| `ReportWriter.MetricWriter.RestoreCounters` | database/metricstore/report.go:372-397 | restoring fills the state from the newest stored counters, and a lookup that fails counts as finding nothing |
| `ReportWriter.MetricWriter.PrepareBatch` | database/metricstore/report.go:359-419 | the batch loop computes exactly the points and states of one report at a time |
| `ReportWriter.MetricWriter.WriteReportBatch` | database/metricstore/report.go:325-430 | a batch that lands is the one-at-a-time fold of its kept reports; one that fails stores nothing and shifts the slice |
| `ReportWriter.MetricWriter.WritePendingReports` | database/metricstore/report.go:302-323 | whatever the batches and however the guard changes between its readings, the store holds the one-at-a-time result of what each batch kept, and a failure is described exactly |
| `ReportWriter.SteadyGuardKeeps` | database/metricstore/report.go:302-323 | under a steady guard any split into batches keeps the same reports, so one batch or many give the same points and states |
| `ReportWriter.MetricWriter.FlushTwice` | database/metricstore/report.go:236-284 | after a failed flush and a successful one nothing kept is lost, and the reports stored twice are exactly those at or behind the number of kept ones; none, if and only if blocked reports stood last |
| `RoutePrefixes.MatchIsLongest` | database/tasks/return_route_rules.go:765-794 | for distinct prefixes the match is the group of the longest one containing the address, and empty exactly when none does |
| `RoutePrefixes.MergedOwner` | database/tasks/return_route_rules.go:700-733 | after merging, base rules win on equal prefixes and every other prefix keeps its BGP group |
| `RoutePrefixes.MergeKeepsDistinct` | database/tasks/return_route_rules.go:712-729 | merging keeps prefixes distinct and the base rules in front |
| `RoutePrefixes.MergedMatch` | database/tasks/return_route_rules.go:700-733 | a merged document answers with the longer of the two matches, and the base one when they tie |
| `RoutePrefixes.MatchLengthIff` | database/tasks/return_route_rules.go:783-792 | a match is at least some length exactly when a rule of that length or more contains the address |
| `RouteTrie.PrefixMatcher.Insert` | database/tasks/return_route_rules.go:737-761 | inserting a rule names exactly the node of its prefix |
| `RouteTrie.BuildMatcher` | database/tasks/return_route_rules.go:735-763 | the linked trie holds at every path the group of the last rule for it |
| `RouteTrie.PrefixMatcher.Lookup` | database/tasks/return_route_rules.go:765-794 | walking the trie answers the longest-prefix match |
| `RouteGenerator.CompilePrefixes` | database/tasks/return_route_rules.go:478-493 | a document is refused exactly when a prefix occurs twice, and otherwise gives its rules in order |
| `RouteGenerator.MergeRules` | database/tasks/return_route_rules.go:700-733 | the merging loops compute the merge |
| `RouteGenerator.ResolveAutomatic` | tools/update_return_route_bgp_rules.py:53-62 | equal automatic prefixes go to the first group in order of priority |
| `RouteGenerator.OwnsIffFirst` | tools/update_return_route_bgp_rules.py:53-62 | a group owns an automatic prefix exactly when it lists it and no group before it does |
| `RouteGenerator.SortNetworks` | tools/update_return_route_bgp_rules.py:39-40 | the networks of a set, each once, by family, address and length |
| `RouteGenerator.ClaimMaintained` | tools/update_return_route_bgp_rules.py:64-84 | the overlap check fails exactly when two groups maintain overlapping prefixes |
| `RouteGenerator.MaintainedOuterFirst` | tools/update_return_route_bgp_rules.py:73-73 | in processing order no maintained prefix contains an earlier one |
| `RouteGenerator.ApplyMaintained` | tools/update_return_route_bgp_rules.py:86-97 | a maintained prefix replaces everything it contains in every group, and no maintained prefix is lost |
| `RouteGenerator.ResolvePrefixGroups` | tools/update_return_route_bgp_rules.py:43-102 | fails exactly for unknown groups or overlaps, and otherwise returns, sorted, exactly the maintained prefixes and the uncovered automatic ones of their owners |
| `RouteGenerator.OverlappingIff` | tools/update_return_route_bgp_rules.py:43-102 | two groups overlap exactly when a maintained prefix of one starts with one of the other |
| `RouteGenerator.KeptIff` | tools/update_return_route_bgp_rules.py:43-102 | a group keeps exactly what it maintains, and the automatic prefixes that it is the first to list and that no maintained prefix contains |
| `RouteGenerator.PriorityThenOthers` | tools/update_return_route_bgp_rules.py:43-102 | groups are resolved in the order of the priority list, the known ones only, and then all the others |
| `RouteGenerator.OneOwner` | tools/update_return_route_bgp_rules.py:43-102 | each prefix of the output has one owner |
| `RouteGenerator.GeneratedCompiles` | database/tasks/return_route_rules.go:546-562 | the generator's own output always passes the uniqueness check of the panel |
| `RouteGenerator.MaintainedAddressResolves` | tools/update_return_route_bgp_rules.py:86-97 | in the rules compiled from the output, every address inside a maintained prefix resolves to the group that maintains it |
| `RouteGenerator.MaintainedAfterMerge` | database/tasks/return_route_rules.go:700-733 | and it still does after merging with any base document, unless a base rule of at least that length contains the address |
| `RouteHysteresis.RouteStatus.AdvanceLine` | database/tasks/return_route.go:754-802 | the branch-by-branch update is the advance function |
| `RouteHysteresis.RouteStatus.ApplyObservation` | database/tasks/return_route.go:804-814 | identified, undecided and failed probes are each applied as specified |
| `RouteHysteresis.EventsAreConfirmed` | database/tasks/return_route.go:782-801 | an event fires only when its line was each of the last required effective observations |
| `RouteHysteresis.ConfirmedLineIsCurrent` | database/tasks/return_route.go:782-793 | a line seen in the last required effective observations is the current line |
| `RouteHysteresis.StateMeansLine` | database/tasks/return_route.go:754-802 | healthy means current equals expected, switched means current is another line |
| `RouteHysteresis.ObservationDecides` | database/tasks/return_route.go:754-814 | what each observation does, told by the history alone: exactly a confirmed line that is not the current one fires, with its kind and origin, and becomes current; the expected one is taken at once while none is known |
| `RouteHysteresis.EventsChain` | database/tasks/return_route.go:762-801 | the first event leaves the expected line, each later one leaves where the previous went, recoveries follow switches, and the last leads to the current line |
| `Calibration.TargetsBillExactly` | database/trafficledger/calibration_total.go:17-56 | for all five counting types the directions bill to exactly the total |
| `Calibration.TargetsKeepTheRest` | database/trafficledger/calibration_total.go:13-56 | a sum is split in the effective ratio to within one; the larger or smaller direction takes the total and the other keeps its value unless that would be charged |
| `Calibration.DirectionCalibrationExactIff` | database/trafficledger/calibration.go:441-544 | for every cycle the allocation exists, and the corrected days show the target if and only if it is shown already, or it is a reduction of an unsaturated cycle, or a growth onto an unclamped newest day |
| `Calibration.TakesAll` | database/trafficledger/calibration.go:527-543 | a greedy reduction takes all of it and makes no day negative |
| `Calibration.NewestGiveFirst` | database/trafficledger/calibration.go:527-543 | a day gives something only when every newer one has given all it shows, which with the exact total determines every part |
| `Calibration.TotalIsExactOrMax` | database/trafficledger/calibration.go:806-811 | a saturating total is the exact sum or the largest 64-bit value |
| `Calibration.AddsClamped` | database/trafficledger/calibration.go:796-804 | signed addition is the exact sum clamped to zero and to 64 bits |
| `Calibration.ClampedDayMissesTarget` | database/trafficledger/calibration.go:523-526 | the concrete upward calibration over a clamped day that shows nothing |
| `Calibration.SaturatedCycleMissesTarget` | database/trafficledger/calibration.go:806-811 | the concrete downward calibration of a saturated cycle that shows six for a target of five |
| `CalibrationLedger.SnapshotFollowsRaw` | database/trafficledger/calibration.go:125-140 | until the next calibration the billable value is the billable raw usage plus the offset, floored at zero and capped |
| `CalibrationLedger.SnapshotShowsDays` | database/trafficledger/calibration.go:110-142 | without a total calibration a snapshot shows the capped sums of its corrected days; after a change of counting type the measured ones |
| `CalibrationLedger.DirectionsOfDays` | database/trafficledger/calibration.go:110-142 | each direction of a day is its own measurement and the correction stored for the day |
| `CalibrationLedger.LatestIsNewest` | database/trafficledger/calibration.go:735-760 | the newest calibration is the one inserted last among those of the latest time |
| `CalibrationLedger.AllocateReduction` | database/trafficledger/calibration.go:527-543 | the allocation fails exactly when the days do not hold the reduction, and otherwise is the greedy one |
| `CalibrationLedger.AllocateCalibration` | database/trafficledger/calibration.go:518-544 | growth goes to the newest day, reductions are greedy |
| `CalibrationLedger.CycleCalibrations.LoadSnapshot` | database/trafficledger/calibration.go:110-142 | the snapshot loop shows what the newest calibration says |
| `CalibrationLedger.CycleCalibrations.WriteRows` | database/trafficledger/calibration.go:480-502 | every day's correction grows by its part, and at least one row is written |
| `CalibrationLedger.CycleCalibrations.CalibrateCycle` | database/trafficledger/calibration.go:441-516 | a calibration spreads the difference and never fails for a target that is not negative; only plain directions already shown, in a complete history, record nothing |
| `CalibrationLedger.CycleCalibrations.CalibrateCurrentCycle` | database/trafficledger/calibration.go:433-439 | after a direction calibration each direction shows its target if and only if it was reachable |
| `CalibrationLedger.CycleCalibrations.CalibrateBillableCycle` | database/trafficledger/calibration_total.go:58-72 | after a total calibration the snapshot bills exactly the total |
| `CycleCache.ExpiryIsEarliest` | database/trafficledger/calibration.go:677-681 | an entry expires after the time to live or at the earliest reset |
| `CycleCache.CycleCacheState.Store` | database/trafficledger/calibration.go:701-708 | a load is published only if the generation has not moved |
| `CycleCache.CycleCacheState.InvalidateAll` | database/trafficledger/calibration.go:712-718 | invalidation clears the entry and moves the generation |
| `CycleCache.EveryRunIsSafe` | database/trafficledger/calibration.go:644-718 | every interleaving keeps the entry newer than every invalidation |
| `CycleCache.NeverStale` | database/trafficledger/calibration.go:644-718 | a read that begins after an invalidation returns only values of a load that began after it |
| `CycleCache.OnlyGoodLoadsPublished` | database/trafficledger/calibration.go:692-708 | no failed or cancelled load is ever published |
| `CycleCache.AnswersFitTheCaller` | database/trafficledger/calibration.go:644-667 | in every interleaving a caller gets values that it loaded itself, or that were loaded for its database, less than fifteen seconds before its time and with no reset in between |
| `CycleCache.FittingEntryAnswers` | database/trafficledger/calibration.go:645-651 | whoever calls for the database of the entry within its time is answered at once, and nobody else is |
| `CycleCache.PublishedIff` | database/trafficledger/calibration.go:701-708 | in every interleaving a successful load is published if and only if nothing was invalidated since it began |
| `CycleCache.ColdCallLoads` | database/trafficledger/calibration.go:644-709 | a call that finds nothing that fits loads for itself, returns that and leaves it in the cache, or returns the error and leaves the cache |
| `CycleCache.SecondLookAnswers` | database/trafficledger/calibration.go:660-668 | a call that waited for its turn finds what was loaded meanwhile |
| `CycleCache.SingleFlight` | database/trafficledger/calibration.go:652-656 | no two callers load at the same time |
| `TrafficDeltas.FindCounterRecovery` | database/trafficledger/trafficledger.go:769-779 | the loop finds the recovery |
| `TrafficDeltas.RecoveryIsFirst` | database/trafficledger/trafficledger.go:769-779 | it is the first record to reach the baseline with everything up to it inside the window |
| `TrafficDeltas.RecoveryIff` | database/trafficledger/trafficledger.go:769-779 | a recovery is exactly the first record back at the counter with everything up to it within half an hour |
| `TrafficDeltas.TrafficIsConserved` | database/trafficledger/trafficledger.go:705-740 | without stored deltas, or with those that reports write, all deltas are non-negative and the final baseline is the initial one plus all deltas minus the drops given up |
| `TrafficDeltas.RecordIsCharged` | database/trafficledger/trafficledger.go:725-738 | a record that does not drop is charged its stored delta up to four times the growth and 64 MiB, the growth beyond that or without one, nothing for a negative one; the walk goes on from its counter |
| `TrafficDeltas.DropIsSkipped` | database/trafficledger/trafficledger.go:709-724 | a drop is charged nothing; if the counter is back within half an hour the record that recovers is charged the growth over the counter before the drop |
| `TrafficDeltas.GrowthWithoutDrops` | database/trafficledger/trafficledger.go:705-740 | when no drop is given up the traffic is exactly the growth of the counter over the range |
| `TrafficDeltas.RisingLosesNothing` | database/trafficledger/trafficledger.go:705-740 | where the counter never runs backwards no drop is given up |
| `TrafficDeltas.TrafficDeltasByRecord` | database/trafficledger/trafficledger.go:705-740 | the pass with its moving baseline and jumps computes the deltas |
| `TrafficDeltas.CorrelatedDiscontinuities` | database/trafficledger/trafficledger.go:742-759 | a record is forced exactly when both counters drop and do not recover on one record |
| `TrafficDeltas.DiscontinuityIff` | database/trafficledger/trafficledger.go:742-759 | a record is forced exactly when both directions drop and there is no record at which both are back for the first time |
| `TrafficBuckets.BucketsAddUp` | database/trafficledger/trafficledger.go:568-578 | adding up by key and over the keys is adding up what has one of the keys |
| `TrafficBuckets.SumTrafficDeltas` | database/trafficledger/trafficledger.go:685-703 | the direct sum of all deltas |
| `TrafficBuckets.RisingTrafficIsGrowth` | database/trafficledger/trafficledger.go:685-740 | where neither counter runs backwards the traffic is the growth of each direction's own counter over its own baseline |
| `TrafficBuckets.DirectionsAreSeparate` | database/trafficledger/trafficledger.go:685-703 | each direction is metered by its own counter, stored delta and mark |
| `TrafficBuckets.ForcedIff` | database/trafficledger/trafficledger.go:685-703 | the direct sum gives up exactly the correlated drops |
| `TrafficBuckets.UsageByInterval` | database/trafficledger/trafficledger.go:549-590 | increments per interval, in order of time, that add up to the direct sum exactly |
| `TrafficBuckets.UsagesByDay` | database/trafficledger/trafficledger.go:607-641 | one row per day of the range that adds up to the records inside it, and to the direct sum when all are |
| `Money.RoundIsNearest` | database/billing/currency.go:199-216 | rounding is to the nearest and halves go away from zero |
| `Money.RoundIsOdd` | database/billing/currency.go:199-216 | rounding is odd |
| `Money.NearestIsUnique` | database/billing/currency.go:199-216 | only one value is nearest, so the rule determines the result |
| `Money.RoundScales` | database/billing/currency.go:199-203 | the result does not depend on lowest terms |
| `AmountText.ParseIsExact` | database/billing/currency.go:94-147 | a text is accepted exactly when it spells an amount that fits 64 bits, and the answer is its decimal value times one million |
| `AmountText.ParseAfterFormat` | database/billing/currency.go:156-174 | parsing the printed form of any 64-bit amount returns it, the smallest included |
| `AmountText.SignsAreRead` | database/billing/currency.go:100-154 | a plus is read as nothing and a minus as the negative |
| `AmountText.FormatLooksLike` | database/billing/currency.go:156-174 | a minus for a negative amount, whole units without leading zeros, a point, and always six decimals |
| `AmountText.FormatIsInjective` | database/billing/currency.go:156-174 | no two amounts print alike |
| `AmountText.ParseAmountMicros` | database/billing/currency.go:94-147 | the step-by-step parser gives that answer |
| `AmountText.FormatAmountMicros` | database/billing/currency.go:156-174 | the printer with its extra branch gives that form |
| `BillingLedger.RoundRatio` | database/billing/currency.go:199-216 | the step-by-step rounding is the rounded value or an overflow error |
| `BillingLedger.ConvertIsNearest` | database/billing/currency.go:176-216 | a conversion multiplies by the rate it goes to and divides by the rate it comes from, to the nearest 64-bit value, exactly when both rates are quoted and there is one |
| `BillingLedger.ReversalConverts` | database/billing/currency.go:176-197 | whenever an amount converts, its negation converts to the negative, exactly unless the smallest 64-bit value is involved |
| `BillingLedger.Ledger.VoidEntry` | database/billing/entries.go:105-147 | voiding appends one mirrored entry, or finds it, and refuses reversals and empty reasons |
| `BillingLedger.VoidAnswers` | database/billing/entries.go:105-147 | voiding answers exactly for a visible reason and an entry that is no reversal, with the reversal it has or a new one that mirrors it |
| `BillingLedger.Ledger.AddEntry` | database/billing/accrual.go:103-108 | one entry per key: a stored one is kept as it was, a new one is appended, and all others stay where they are |
| `BillingLedger.Ledger.CreateAddonEntry` | database/billing/entries.go:43-103 | accepted exactly for a named client and key and a decimal amount that is not negative, and either a known key, or a known client and currency and a successful lookup of the exchange rates; sending it again changes nothing |
| `BillingLedger.AddonKeysDistinct` | database/billing/entries.go:31-61 | keys of different add-ons never meet, and tell machines without a colon in their name and caller keys apart |
| `BillingLedger.VoidKeeps` | database/billing/entries.go:105-147 | every reversal mirrors exactly one original |
| `BillingLedger.EveryLedgerOk` | database/billing/entries.go:43-147 | every run of charges and voidings keeps keys unique and every reversal a mirror of one original |
| `BillingLedger.AtMostOneReversal` | database/billing/entries.go:116-124 | in every run no entry has two reversals and no reversal is reversed |
| `BillingLedger.ReversalMirrors` | database/billing/entries.go:125-143 | in every run a reversal has the client, day, currency, rates and negated amount of its original |
| `BillingLedger.EntriesStay` | database/billing/entries.go:43-147 | entries are only ever appended |
| `BillingLedger.ReversalCancelsIff` | database/billing/query.go:1097-1110 | a charge and its reversal add up to zero in a display currency exactly when the exact conversion of the charge is not 2^63 |
| `BillingLedger.VoidingContributesNothing` | database/billing/query.go:1013-1019 | in every run, voiding makes a category of a period total what it would be without the entry, if and only if the entry does not count there or cancels |
| `BillingLedger.VoidedChargeLingers` | database/billing/query.go:1097-1110 | a charge that does not convert but whose reversal does: after voiding, the period total is the smallest 64-bit value |
| `BillingLedger.VoidingTwiceIsOnce` | database/billing/entries.go:119-124 | voiding an entry again changes nothing |
| `BillingLedger.EntryShows` | database/billing/query.go:1097-1110 | an entry is shown by the rates it was booked under, and as it is in its own currency |
| `BillingLedger.SumPeriod` | database/billing/query.go:1112-1124 | the 64-bit accumulators hold, wrapped, the exact sums of their categories, which split the total without loss; exact when the total fits |
| `BillingLedger.AddonIsTotalledOnce` | database/billing/query.go:1112-1124 | each kind of add-on is totalled in its own category and in no other |
| `BillingLedger.PeriodIncludesItsEnds` | database/billing/query.go:991-996 | both end days of a period count, for every client of the query |
| `BillingLedger.WrapAdds` | database/billing/query.go:1112-1124 | wrapping at every addition gives what wrapping the exact sum once gives |
| `BillingAccrual.AmountIsBounded` | database/billing/accrual.go:205-212 | a day never costs more than the price, so the ratio always fits |
| `BillingAccrual.AccrualEntry` | database/billing/accrual.go:141-192 | the entry of a day is the rounded share of its slice, absent when that is zero |
| `BillingAccrual.AccrueVersion` | database/billing/accrual.go:77-110 | starting after the watermark and stopping with the version's life misses no due day |
| `BillingAccrual.EnsureAccruedThrough` | database/billing/accrual.go:46-115 | afterwards exactly the due entries through the day are there, and nothing older has changed |
| `BillingAccrual.PriceBook.CapturePriceVersion` | database/billing/price_versions.go:47-66 | an edit of price, cycle, currency or expiry closes what is open and starts the new terms at the same instant, and nothing else does |
| `BillingAccrual.CaptureLeaves` | database/billing/price_versions.go:47-66 | an edit ends every open version and starts the new terms at the same instant, and changes nothing else |
| `BillingAccrual.PriceBook.CloseOpenVersions` | database/billing/price_versions.go:83-90 | every open version ends at the given time |
| `BillingAccrual.EveryBookOk` | database/billing/price_versions.go:47-90 | every run with non-decreasing clocks keeps versions in sequence and entries as expected without gaps |
| `BillingAccrual.VersionsNeverOverlap` | database/billing/price_versions.go:47-90 | at most one version is in force at any instant and at most one is open |
| `BillingAccrual.ManyRunsEqualOne` | database/billing/accrual.go:46-115 | catching up in one run or in many, with edits in between, gives the same entries |
| `BillingAccrual.SlicesTile` | database/billing/accrual.go:141-155 | the daily slices add up to the life of a version: from its start to the given day, its end or its expiry, whichever is first |
| `BillingAccrual.ChargedIff` | database/billing/accrual.go:141-155 | a day of a version charges for an instant exactly when the instant lies in the day, the version is in force then and has not expired |
| `BillingAccrual.NoInstantChargedTwice` | database/billing/accrual.go:141-155 | in every run no instant is charged twice, by two versions or by two days |
| `BillingAccrual.EntryIsNearest` | database/billing/accrual.go:156-165 | the entry of a day is the amount nearest to price times charged time over the cycle, and there is none when that is nothing |
| `BillingAccrual.DueIff` | database/billing/accrual.go:53-100 | a day of a version with a valid currency, a price and a cycle is due exactly when it is worth at least half a micro |
| `BillingAccrual.AccruedSumIsNear` | database/billing/accrual.go:156-158 | the sum of the daily amounts is within half a micro per day of price times time over cycle |
| `BillingAccrual.StoredEntriesAreNear` | database/billing/accrual.go:46-115 | so are the entries stored in every run, over the time the version has been in force |

## Left out

- SQL, JSON, protobuf and base64 encodings, encryption, signatures and certificates: a hash is its input, sealing keeps the value, a proof of possession has already been checked.
- HTTP, notifications, file watching, ASN and exchange-rate downloads, startup and shutdown, backups and configuration reload: input and output only.
- The numbers of the protobuf enumerations are not part of the sources; the restored phase is taken to be 5, and the proofs only need it to be at least 4.
- String lengths are counted in characters, where the program counts bytes.
- Sequence numbers and generations are unbounded; the program's are 64-bit and would wrap.
- Privileged delivery: rows saved under protocol 1, error texts and their truncation, reasons and task identifiers; fields of the deployment profile that it neither reads nor writes; the capability check of a node that has not negotiated protocol 2.
- `RESTORED` after Delivered is recorded as Failed on a current revision, as in the code.
- Rotation: device enrollment attempts before a pair is issued, key identifiers, audit times and reasons; rows from before deadlines existed start without a pending recovery; the legacy refresh call is a protocol 1 rotation; a fingerprint is the key itself.
- Deletion: a store-to-store migration copies points without asking the guard and is not one of the writers; deletion of all records, and the deletion of an entity that raises no guard, are not modelled; a point is listed once per entity and task, and a store call that deletes the points of one client or one task is atomic.
- ReportBatch.Points: the twelve gauges of a report are one opaque point; counters pass through floating point in the store and are exact here.
- ReportWriter.MetricWriter.WritePendingReports: the memory a batch shares with the slice is modelled by taking the front of the slice out and putting back what the batch left in it.
- The report queue, its worker and its counters: plumbing around the batch writer.
- RouteGenerator.ResolvePrefixGroups: automatic prefixes enter as sets, after collapsing, which is a library call; the order of the groups without a priority, which is by name, enters as a list.
- DeletionGate.OperationGate.TryAcquireShared: the queue of waiters of the semaphore is a library's; a caller that waits is one that tries again later, in any order.
- Parsing of addresses and prefixes: both enter as bits, already masked and unmapped.
- Carrier and CN2 classification, custom lines, confidence values and repeat notifications.
- RouteHysteresis.EventsAreConfirmed: a probe without a result neither confirms nor interrupts, as in the code; the task does not change during the sequence.
- Calibration: reset schedules, the first-day table and its recovery, and hourly corrections; days and raw usage enter as lists.
- CalibrationLedger.CycleCalibrations.CalibrateBillableCycle: the exact total is stated for clocks that do not run backwards between calibrations, because the newest one is found by its time.
- CycleCache: what a load computes; a load is identified by who made it and when it began.
- TrafficDeltas.TrafficIsConserved: stored deltas that differ from the growth of the counter are charged as `RecordIsCharged` says and make no claim to balance.
- TrafficBuckets: sums are unbounded, where the program's 64-bit sums would wrap.
- BillingAccrual.EnsureAccruedThrough: a billing cycle above 106751 days overflows 64-bit nanoseconds in the program and is exact here; the two-second coordination window only skips repeated work; amounts in dollars are not modelled.
- BillingAccrual.ManyRunsEqualOne: stated for runs that accrue complete days and edit at non-decreasing times.
- BillingLedger: currency names are canonical already; one-time entries of non-recurring prices are ordinary added entries; type and currency filters of queries.
- Traffic resets, pagination, sessions, one-time passwords, install tokens, the maintenance queue and masking: not modelled.
