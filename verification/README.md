# Verified models of the release and audit harness

This project models, in Dafny, the parts of the repository's release, audit and maintenance
scripts that are protocols rather than plumbing, and proves what they are written to guarantee.
`dafny verify dfyconfig.toml` checks all of it.

What is modelled, one group of files per source:

- **Acceptance deadlines** (`AcceptanceDeadlines`, `AcceptanceTheorems`, `AcceptanceVerdict`,
  `AcceptanceTiming`, `AcceptanceDeadlineBound`, `AcceptanceSettlement`, `AcceptanceCleanupSafety`,
  `AcceptanceOverlapWindow`, `DeadlineScheduler`): nested cooperative deadlines with drain windows,
  as a transition system with a clock and FIFO timers. One event is one timer or one settling
  operation together with all the promise reactions it sets off. What a plan reports, and when its
  timers fire, is told from the events. The cleanup-safety property the code aims at is false in
  general; the exact runs, and the exact timeouts, for which it fails are characterised, and the
  shipped timeouts are among them.
- **Command supervision** (`CommandSupervision`, `CommandTheorems`): one child process against
  a soft, a kill and a hard timer, in every interleaving with signal settlements and child events.
- **Smoke plan** (`SmokePlan`, `SmokePlanTheorems`, `SmokePlanSeconds`): the plan that must undo
  what it attempted unless undoing is unsafe, the order of its steps, and its published worst-case
  time.
- **Cleanup transaction** (`CleanupTransaction`): an abortable PostgreSQL transaction with a
  bounded rollback, over every way its queries can turn out.
- **Pre-push** (`PrePushLock`, `PrePushExclusion`, `PrePushOutcomes`, `PrePushCache`,
  `AffectedWorkspaces`): the file lock as interleaved file-system steps of many processes with
  crashes, the sequential object, and the worklist that finds the affected workspaces.
- **Tenant provisioning** (`TenantProvisioning`, `TenantTheorems`, `ServerReplies`): any number of
  instances, each with a promise map, sharing a done marker and a lock on a server where any
  request can fail, before or after taking effect, and where locks and markers expire. That at
  most one call is in flight is false in general; when it holds is stated and proved.
- **Findings migration** (`FindingsMigration`): create-only reindexing that may be cut short and
  rerun.
- **Canonical printing and fingerprints** (`CanonicalJson`, `CanonicalJsonDecoding`,
  `CanonicalJsonTheorems`, `JsonReader`, `JsonRoundTrip`, `FingerprintPreimage`): the canonical
  printer down to code units, with escapes; a reader of JSON text after RFC 8259 that gets back
  what was printed; and unique decodability of what is hashed.
- **Fixture materialization** (`FixtureObjects`, `FixtureContent`, `FixtureMaterialization`,
  `FixtureOverrides`): the deep copy and the writes on a heap of mutable objects, which writes the
  override tables ask for, and the content they leave.
- **Teardown barrier** (`TeardownBarrier`): nothing is deleted before every run that could still
  write is known to be terminal.
- **Request multiplexing** (`CdpSession`) and the **seeder's generators** (`StressGraph`,
  `TraceSequence`).

## Main results

The theorems, by name; the table below gives their statements first, and after them the
operations they are about and the steps that tie imperative code to its specification.

- Acceptance plan: `CleanupOverlapsIff`, `CleanupCanOverlapIff`, `ShippedTimeoutsCanOverlap`,
  `CleanupWaitsForPhases`, `WithheldOnlyForCause`, `ResolvesIff`, `SomeRunResolves`,
  `WorkReports`, `CleanupReports`, `CleanupCalledIff`, `OperationFailureIff`, `DrainsForCause`,
  `TimersFireOnTime`, `DeadlineHoldsIff`, `SomeRunOverruns`, `GuardAloneIsNotEnough`,
  `PlanMeetsItsDeadline`, `SettlesByTimeAlone`, `RunsAreBounded`.
- Command supervision: `SettlesOnceInTime`, `SettlesByTimeAlone`, `LateEventsChangeNothing`,
  `ReportsIff`, `ExitFailsIff`, `SucceedsIff`, `SuccessIsBeforeTheSoftDeadline`, `TimeoutVerdict`,
  `TimeoutWaitsForKill`, `SurroundingsAreFree`, `RunCallbacks`.
- Smoke plan: `ExecuteSmokeCommandPlan`, `NothingAfterUnsafe`, `OutcomesInOrder`, `StopIsUndone`,
  `RestartIsAwaited`, `ResetIsUndone`, `UpIsUndone`, `StepsAreInTurn`,
  `PublishedPlanIsCompensated`, `PublishedPlanIsInOrder`, `RunTimeBound`, `PublishedBoundHolds`,
  `PublishedSeconds`.
- Cleanup transaction: `ExecuteAbortablePostgresTransaction`,
  `ExecuteConnectedAbortablePostgresTransaction`.
- Pre-push: `IntactIffClean`, `MutualExclusion`, `AtomicRunsExclude`, `InterleavedStepsCanRace`,
  `ReleaseRemovesOwn`, `AtomicReleaseRemovesOwn`, `CleanIffExclusive`, `StaleLockIsTakenOver`,
  `CachedMeansVerified`, `ToldIff`, `ReceiptIsLast`, `ExpandAffectedWorkspaces`.
- Provisioning: `TwoAtWorkNeedAGap`, `OneEnsureInFlight`, `GapLetsSecondIn`, `OutageLetsTwoIn`,
  `ExpiryLetsTwoIn`, `LockHeldIffOwned`, `ReleaseSparesOthers`, `OneOpenAttempt`,
  `DoneMeansEnsured`, `CachedUnlessLost`, `SuccessCanGoUnmarked`, `CachedLossMeansFailure`,
  `LoserCanCacheFailure`, `OutcomeIff`, `MarkerSparesTheCall`.
- Migration: `MergeAt`, `OffersArrive`, `NewcomersAreOffered`, `MergeIsCreateOnly`,
  `RerunReachesTheSame`, `SecondRunAddsNothing`, `SourceIndicesAreSources`, `SourceNameIff`,
  `MigrateFindingsIndices`.
- Printing and fingerprints: `PrintsEqualIffAlike`, `UniquelyDecodable`, `LoneUndefinedCollides`,
  `KeyOrderIsIrrelevant`, `PrintsReadBack`, `QuoteReads`, `QuoteIsShortest`,
  `PreimageDecidesEveryPart`, `PreimageReadsBack`.
- Fixture materialization: `MaterializeFixture`, `SetInAt`, `LastWriteDecides`, `OtherPathsKeep`,
  `OverrideWrites`, `PartsOfJoin`, `TrimIff`.
- Teardown: `Cleanup`, `DeletionsAreThese`.
- Chrome session: `SettlesAtMostOnce`, `SettledIff`, `LateRepliesAreIgnored`, `FirstOutcomeStays`,
  `CloseSettlesAll`.
- Seeder: `GenerateWorkflowGraph`, `EveryNodeReachable`, `OneIncomingEdge`, `Acyclic`,
  `DependencyCounts`, `GenerateTraceSequence`, `AbnormalEndIsLast`, `AbnormalEndTellsStatus`,
  `TerminalRunEndsSo`.

## Model

| member | source | states |
|---|---|---|
| AcceptanceCleanupSafety.CleanupOverlapsIff | backend/scripts/findings-opensearch-acceptance.ts:609-628 | the cleanup is called with a phase operation still active exactly in the runs where the work deadline fired on an already draining phase whose drain window then ran out |
| AcceptanceOverlapWindow.CleanupCanOverlapIff | backend/scripts/findings-opensearch-acceptance.ts:631-730 | for all timeouts that pass the guard: some run overlaps if and only if the deadlines are accepted and some phase timeout lies below the work timeout while the phase can still be draining when the work deadline fires |
| AcceptanceOverlapWindow.ShippedTimeoutsCanOverlap | backend/scripts/findings-opensearch-acceptance.ts:59-80 | the shipped constants pass the guard, yet the fourth and fifth phase, and only these, have such a window |
| AcceptanceCleanupSafety.CleanupWaitsForPhases | backend/scripts/findings-opensearch-acceptance.ts:701-719 | with headroom, in every other run the cleanup starts only after every started phase operation has settled |
| AcceptanceCleanupSafety.WithheldOnlyForCause | backend/scripts/findings-opensearch-acceptance.ts:702-705 | cleanup is suppressed only while a phase is really active or after a phase itself rejected with a drain error, and then it is never also called |
| AcceptanceVerdict.ResolvesIff | backend/scripts/findings-opensearch-acceptance.ts:676-730 | for all timeouts and runs: the plan resolves if and only if its timeouts are accepted and, besides the clock, nothing happened but that every phase fulfilled in turn and then the cleanup did |
| AcceptanceVerdict.SomeRunResolves | backend/scripts/findings-opensearch-acceptance.ts:676-730 | wherever the timeouts are accepted, some run resolves |
| AcceptanceVerdict.WorkReports | backend/scripts/findings-opensearch-acceptance.ts:609-628 | in every run the error of the work is fixed by the event that ends it and by whether a timer had fired before: a late phase is a missed deadline, an early rejection its own error, an expired drain window a drain failure unless the work deadline had hit too |
| AcceptanceVerdict.CleanupReports | backend/scripts/findings-opensearch-acceptance.ts:711-719 | the same for a called cleanup |
| AcceptanceVerdict.CleanupCalledIff | backend/scripts/findings-opensearch-acceptance.ts:702-720 | in a settled plan the cleanup was called if and only if the work reported no drain failure and its timeouts are accepted; otherwise it reports which of the two it was |
| AcceptanceVerdict.OperationFailureIff | backend/scripts/findings-opensearch-acceptance.ts:609-612 | the work fails with the error of a phase if and only if a phase rejects with it before any timer fires, and with a missed deadline only after one has |
| AcceptanceVerdict.DrainsForCause | backend/scripts/findings-opensearch-acceptance.ts:575-604 | in every run whatever drains was stopped by the timer its state names, and whatever still races was not stopped |
| AcceptanceTiming.TimersFireOnTime | backend/scripts/findings-opensearch-acceptance.ts:580-604 | for all timeouts and runs, each timer fires exactly its own timeout or drain window after what it waits from began: the plan, the phase, the end of the work, the first timer that stopped it |
| AcceptanceDeadlineBound.DeadlineHoldsIff | backend/scripts/findings-opensearch-acceptance.ts:631-730 | for all timeouts whatever: every run stays within the plan deadline if and only if the longest the work can take, its valid phases up to their or the work deadline plus one drain window, and then the cleanup fit before it |
| AcceptanceDeadlineBound.SomeRunOverruns | backend/scripts/findings-opensearch-acceptance.ts:647-663 | where they do not fit, a run that is still unsettled after the plan deadline |
| AcceptanceTheorems.GuardAloneIsNotEnough | backend/scripts/findings-opensearch-acceptance.ts:563-568 | the guard does not decide this: with a work timeout that is rejected only later, it passes and the cleanup still runs after the plan deadline |
| AcceptanceTheorems.PlanMeetsItsDeadline | backend/scripts/findings-opensearch-acceptance.ts:653-663 | with headroom the absolute timer never is what stops the work or the cleanup, and no state lies after the plan deadline |
| AcceptanceSettlement.SettlesByTimeAlone | backend/scripts/findings-opensearch-acceptance.ts:598-616 | for all timeouts and from every reachable state, timers and the clock alone settle the plan even if every operation hangs, and within the plan deadline wherever that holds |
| AcceptanceTheorems.RunsAreBounded | backend/scripts/findings-opensearch-acceptance.ts:631-730 | with headroom, no run, whatever its operations do, has more events than a bound fixed by the timeouts |
| CommandTheorems.SettlesOnceInTime | scripts/production-compose-smoke.js:776-887 | in every interleaving the promise settles at most once, by the hard bound, and certainly once time has passed it |
| CommandTheorems.SettlesByTimeAlone | scripts/production-compose-smoke.js:821-853 | from every reachable state timers and the clock alone settle the command by its hard bound, whatever the child and the signals do not do |
| CommandTheorems.LateEventsChangeNothing | scripts/production-compose-smoke.js:776-784 | once settled, no later event changes the settlement |
| CommandTheorems.ReportsIff | scripts/production-compose-smoke.js:855-887 | every result but a timeout is reported if and only if the child tells it by its first error or close before any timer: the error, a failing exit, a capture that failed or grew too long, or the output |
| CommandTheorems.ExitFailsIff | scripts/production-compose-smoke.js:868-876 | a failing exit is reported if and only if it comes before any timer and child error, and forbids cleanup if and only if its status is 86 |
| CommandTheorems.SucceedsIff | scripts/production-compose-smoke.js:862-887 | success with an output happens if and only if the child closed with status 0 before any timer or child error, with captured stdout intact and within its bound, and that is the output |
| CommandTheorems.SuccessIsBeforeTheSoftDeadline | scripts/production-compose-smoke.js:821-831 | such a close comes no later than the soft deadline |
| CommandTheorems.TimeoutVerdict | scripts/production-compose-smoke.js:785-853 | a timeout is reported as safe for cleanup exactly when by then the child closed, the soft signal settled and the kill succeeded, and with a cause exactly when a signal failed or the child reported an error |
| CommandTheorems.TimeoutWaitsForKill | scripts/production-compose-smoke.js:808-841 | a timed-out command never settles before its kill deadline, even when the child has closed |
| CommandTheorems.SurroundingsAreFree | scripts/production-compose-smoke.js:799-867 | in every run the child may still report one error and one close, and each signal may settle once, either way, after its timer fired |
| CommandTheorems.RunCallbacks | scripts/production-compose-smoke.js:726-887 | the callbacks of the class, run in the order of any possible events, leave the closure in exactly the state the theorems speak of |
| SmokePlan.ExecuteSmokeCommandPlan | scripts/production-compose-smoke.js:911-1034 | for every command list and every outcome of every step, the run is a plan run and the error thrown is the first failure |
| SmokePlanTheorems.NothingAfterUnsafe | scripts/production-compose-smoke.js:966-1034 | no step runs after a cleanup-unsafe error |
| SmokePlanTheorems.OutcomesInOrder | scripts/production-compose-smoke.js:911-1034 | the i-th entry of a run is what the i-th call came to, and a command the list lacks fails at once and safely |
| SmokePlanTheorems.StopIsUndone | scripts/production-compose-smoke.js:970-999 | without an unsafe error, an attempted OpenSearch stop is followed by an attempted restart |
| SmokePlanTheorems.RestartIsAwaited | scripts/production-compose-smoke.js:980-987 | without an unsafe error, a restart that passed after an attempted stop is followed by an attempt to see the backend recover |
| SmokePlanTheorems.ResetIsUndone | scripts/production-compose-smoke.js:1000-1015 | without an unsafe error, an attempted database reset is followed by an attempted drop |
| SmokePlanTheorems.UpIsUndone | scripts/production-compose-smoke.js:1016-1030 | without an unsafe error, `down` is run if and only if `up` was attempted and the stack is not kept, and then exactly once and last |
| SmokePlanTheorems.StepsAreInTurn | scripts/production-compose-smoke.js:939-1030 | in every run `up` comes after a passed `config` and `build`, OpenSearch initialisation after a passed `up`, the probe after that, every other step after a passed probe, and `down` after a passed `build` |
| SmokePlanTheorems.PublishedPlanIsCompensated | scripts/production-compose-smoke.js:315-612 | the undoing of stop, reset and `up` for the command lists the script builds, for every wait timeout and both profiles |
| SmokePlanTheorems.PublishedPlanIsInOrder | scripts/production-compose-smoke.js:315-612 | the same order for the command lists the script builds; where the main block passes the run is the list, each command once and in order, with only the stack to take down |
| SmokePlanTheorems.RunTimeBound | scripts/production-compose-smoke.js:911-1034 | whatever passes or fails, a run takes at most the sum of all timeouts, one probe, and one retry of recovery and drop |
| SmokePlanTheorems.PublishedBoundHolds | scripts/production-compose-smoke.js:614-630 | the published worst-case seconds bound every run of the built plan whose steps keep their own bounds |
| SmokePlanSeconds.PublishedSeconds | scripts/production-compose-smoke.js:614-630 | the published seconds in closed form for every wait timeout and both profiles, 10420 and 5800 for the default wait, the values the tests of the repository name |
| CleanupTransaction.ExecuteAbortablePostgresTransaction | backend/scripts/findings-opensearch-acceptance.ts:391-452 | exactly which queries are sent, with a rollback if and only if the transaction began and no COMMIT was reported as done; one release on every path; all effects or none; the connection is destroyed if and only if a rollback was due and did not succeed in time, and otherwise returns with a transaction open if and only if BEGIN took effect but was reported as failed |
| CleanupTransaction.ExecuteConnectedAbortablePostgresTransaction | backend/scripts/findings-opensearch-acceptance.ts:454-468 | a signal that aborts around connecting gives the connection back unused; otherwise everything the transaction promises holds, queries, commit, release, destruction and the lost BEGIN |
| PrePushLock.IntactIffClean | scripts/pre-push.js:41-67 | over whole runs, with crashes and takeovers: all live locks stay in place at all times if and only if no stale removal hits a live lock |
| PrePushLock.MutualExclusion | scripts/pre-push.js:41-67 | in such runs at most one live process holds the guard, and the lock file names it |
| PrePushLock.AtomicRunsExclude | scripts/pre-push.js:44-65 | if create-and-write and inspect-and-remove are not interleaved with others, at most one live process holds the guard |
| PrePushLock.InterleavedStepsCanRace | scripts/pre-push.js:44-65 | counter-run: interleaved, two live processes both hold the guard |
| PrePushLock.ReleaseRemovesOwn | scripts/pre-push.js:81-84 | in such runs a release removes the process's own lock and no other |
| PrePushLock.AtomicReleaseRemovesOwn | scripts/pre-push.js:81-84 | under the same granularity a release removes the process's own lock and no other |
| PrePushExclusion.CleanIffExclusive | scripts/pre-push.js:41-67 | exact for exclusion itself: a run is clean if and only if neither it nor anything it can come to from any of its points without a further stale removal has two live holders |
| PrePushExclusion.StaleLockIsTakenOver | scripts/pre-push.js:41-67 | from every clean run whose lock has a live owner: when the owner crashes, a new process finds, removes and replaces the lock, and the run stays clean |
| PrePushLock.CachedMeansVerified | scripts/pre-push.js:38-39 | in every run, a process is told `cached` only if an earlier run with the same key finished with result 0 |
| PrePushOutcomes.ToldIff | scripts/pre-push.js:38-84 | in every run a process is told `cached`, `busy`, a failure to acquire, or how its verification went, if and only if an event told it: a matching receipt, a lock of a live owner, a second removal, its release |
| PrePushOutcomes.ReceiptIsLast | scripts/pre-push.js:72-79 | in every run the receipt is that of the last completed verification |
| AffectedWorkspaces.ExpandAffectedWorkspaces | scripts/pre-push.js:135-147 | for every dependency graph, cyclic ones included, it terminates with exactly the names some chain of dependents links to a changed one |
| TenantTheorems.TwoAtWorkNeedAGap | backend/src/common/redis/provisioning-lock.service.ts:54-70 | across all instances, interleavings, failing requests and expiries: of two attempts at work for one organization, one was let through by a failed request for the lock or outlived its lock |
| TenantTheorems.OneEnsureInFlight | backend/src/app.controller.ts:109-120 | so where neither happens in a run, at most one tenant-creating call per organization is in flight |
| TenantTheorems.GapLetsSecondIn | backend/src/common/redis/provisioning-lock.service.ts:54-70 | and a gap is enough: with a call in flight, no lock standing and no marker, a new instance starts a second call although every request succeeds again |
| TenantTheorems.OutageLetsTwoIn | backend/src/common/redis/provisioning-lock.service.ts:66-69 | counter-run: an outage lets two calls go ahead without a lock |
| TenantTheorems.ExpiryLetsTwoIn | backend/src/common/redis/provisioning-lock.service.ts:23-23 | counter-run: with no failure at all, a call that outlasts its lock is joined by a second one |
| TenantTheorems.LockHeldIffOwned | backend/src/common/redis/provisioning-lock.service.ts:54-93 | a lock stands exactly while the attempt that set it is at work with it, or because that attempt failed to release it |
| TenantTheorems.ReleaseSparesOthers | backend/src/common/redis/provisioning-lock.service.ts:77-93 | a release never deletes the lock of another attempt still at work |
| TenantTheorems.OneOpenAttempt | backend/src/app.controller.ts:70-72 | each instance has at most one open attempt per organization |
| TenantTheorems.DoneMeansEnsured | backend/src/app.controller.ts:113-116 | the done marker is there only after a tenant-creating call that returned true |
| TenantTheorems.CachedUnlessLost | backend/src/app.controller.ts:105-116 | an instance that caches success lost the lock, or the tenant was created; it was marked too, and still is unless the marker expired, wherever the instance saw the marker or its own write took effect |
| TenantTheorems.SuccessCanGoUnmarked | backend/src/common/redis/provisioning-lock.service.ts:116-124 | counter-run: a lost marker write leaves a cached success with no marker |
| TenantTheorems.CachedLossMeansFailure | backend/src/app.controller.ts:109-120 | a success cached for losing the lock, with nothing created and nobody at work, means that a tenant-creating call returned false or threw |
| TenantTheorems.LoserCanCacheFailure | backend/src/app.controller.ts:109-110 | counter-run: it happens, the loser goes on reporting success after the winner failed |
| TenantTheorems.OutcomeIff | backend/src/app.controller.ts:105-120 | in every run an attempt has an outcome if and only if an event gave it: a standing marker read, a taken lock found, its call returning false or throwing, its marker write |
| TenantTheorems.MarkerSparesTheCall | backend/src/app.controller.ts:105-107 | an attempt that reads a standing marker makes no tenant-creating call, however the run goes on |
| FindingsMigration.MergeAt | backend/scripts/migrate-findings-opensearch.ts:123-150 | documents of the target stay; any other id holds what the first source offering it has; nothing else comes in |
| FindingsMigration.OffersArrive | backend/scripts/migrate-findings-opensearch.ts:124-142 | every document of the organization in a source that the pipeline takes ends in the target |
| FindingsMigration.NewcomersAreOffered | backend/scripts/migrate-findings-opensearch.ts:124-142 | what is new in the target is a document of the organization in some source, as the pipeline rewrites it |
| FindingsMigration.MergeIsCreateOnly | backend/scripts/migrate-findings-opensearch.ts:138-140 | no existing target document is changed or lost |
| FindingsMigration.RerunReachesTheSame | backend/scripts/migrate-findings-opensearch.ts:123-150 | from whatever an interrupted run left, a complete run reaches the same target as one without interruption |
| FindingsMigration.SecondRunAddsNothing | backend/scripts/migrate-findings-opensearch.ts:123-150 | migration is idempotent |
| FindingsMigration.SourceIndicesAreSources | backend/src/analytics/findings-index-template.ts:405-429 | the planned sources are exactly the existing legacy indices, each once, in name order, never the target |
| FindingsMigration.SourceNameIff | backend/src/analytics/findings-index-template.ts:410-421 | a legacy index is named by the organization's prefix and then either a date or the old stable suffix |
| FindingsMigration.Cluster.MigrateFindingsIndices | backend/scripts/migrate-findings-opensearch.ts:83-160 | a dry run changes nothing; an applied run leaves all other indices alone and the target between its old content and the full merge, at the full merge with an exact count if and only if every request completes; otherwise it names the first that did not, with what was created up to there |
| CanonicalJsonTheorems.PrintsEqualIffAlike | scripts/security-component-audit-utils.ts:141-155 | two values print alike if and only if they are equal up to key order, up to the one collision below |
| CanonicalJsonTheorems.UniquelyDecodable | scripts/security-component-audit-utils.ts:141-155 | on JSON values, printing to the same text means being equal up to key order |
| CanonicalJsonTheorems.LoneUndefinedCollides | scripts/security-component-audit-utils.ts:142-144 | the collision: an array of one undefined prints like an empty array |
| CanonicalJsonTheorems.KeyOrderIsIrrelevant | scripts/security-component-audit-utils.ts:146-152 | reordering keys never changes the print |
| JsonRoundTrip.PrintsReadBack | scripts/security-component-audit-utils.ts:141-155 | a reader of JSON text written after RFC 8259 gets back from every print the value, up to key order and the collision, with the keys ascending in every object |
| JsonRoundTrip.QuoteReads | scripts/security-component-audit-utils.ts:150-154 | a quoted string reads as itself, escapes and surrogates included, whatever follows it |
| JsonRoundTrip.QuoteIsShortest | scripts/security-component-audit-utils.ts:150-154 | no text that reads as a string is shorter than its quoted form, whose escapes have no capital digits |
| FingerprintPreimage.PreimageReadsBack | scripts/security-component-audit-utils.ts:249-268 | what is hashed reads as an object with exactly the seven parts under their names, an absent one left out |
| FingerprintPreimage.PreimageDecidesEveryPart | scripts/security-component-audit-utils.ts:249-268 | equal preimages if and only if component id, inputs, params, both overrides, docker build and contract are equal up to key order, an absent part differing from every present one |
| FixtureMaterialization.MaterializeFixture | scripts/security-component-audit-utils.ts:201-216 | inputs and params are new trees that share no object with the source or each other, with the content of the source and the overrides written in; nothing existing is modified |
| FixtureContent.SetInAt | scripts/security-component-audit-utils.ts:173-187 | after one write, what stands at any path: the text at its own, objects above, nothing below, and elsewhere what was there unless something above it gave way |
| FixtureContent.LastWriteDecides | scripts/security-component-audit-utils.ts:189-199 | over any list of writes, the last one comparable with a path decides what stands there, so the last override reads back its value |
| FixtureContent.OtherPathsKeep | scripts/security-component-audit-utils.ts:189-199 | a path that no override reaches keeps its value, exactly unless some array or scalar above it gave way |
| FixtureOverrides.OverrideWrites | scripts/security-component-audit-utils.ts:189-199 | an override asks for the trimmed text of its variable at the path between its dots, and for nothing where the variable is missing or blank or the path has no part |
| FixtureOverrides.PartsOfJoin | scripts/security-component-audit-utils.ts:173-175 | a path is the list of the non-empty pieces between the dots |
| FixtureOverrides.TrimIff | scripts/security-component-audit-utils.ts:195-195 | trimming takes off all the blanks at both ends and nothing else |
| TeardownBarrier.Cleanup | scripts/browser-target-journey.js:369-482 | deletions are issued if and only if the barrier passes; the runs are then the seeded ones, the browser's and those the discovery lists, every unseeded one was seen to have ended, and no id is doubled when the seeded ones are not; exactly the unseeded runs that had not ended are cancelled |
| CdpSession.SettlesAtMostOnce | scripts/release-benchmark.ts:158-243 | over every run the commands sent are those below the next id, each settles at most once, and the pending ones are exactly those sent that have not settled |
| TeardownBarrier.DeletionsAreThese | scripts/browser-target-journey.js:441-477 | the deletions are exactly those that have something to delete, the rows for exactly the accounted runs, each once and in order |
| CdpSession.SettledIff | scripts/release-benchmark.ts:176-243 | a command has an outcome if and only if, while it was pending, a message with its own id said so, its own timer ran out, or the session closed |
| CdpSession.LateRepliesAreIgnored | scripts/release-benchmark.ts:176-186 | in every run in which a command has settled, by reply, timeout or closing, a further message with its id leaves the whole session as it was |
| CdpSession.FirstOutcomeStays | scripts/release-benchmark.ts:158-243 | however a run goes on, a settled command keeps its outcome |
| CdpSession.CloseSettlesAll | scripts/release-benchmark.ts:236-243 | after closing, every command ever sent has settled exactly once |
| StressGraph.GenerateWorkflowGraph | backend/scripts/seed-stress-test.ts:417-556 | for every template, node count and random choice the graph is a tree of the stated size in generation order, each edge coming from the node before or, where the branching template branches, from the node drawn |
| StressGraph.EveryNodeReachable | backend/scripts/seed-stress-test.ts:417-546 | every node of a generated graph can be reached from the entry point |
| StressGraph.OneIncomingEdge | backend/scripts/seed-stress-test.ts:417-546 | every other node has exactly one incoming edge, the entry point none |
| StressGraph.Acyclic | backend/scripts/seed-stress-test.ts:417-546 | no path of at least one edge returns to its start |
| StressGraph.DependencyCounts | backend/scripts/seed-stress-test.ts:578-581 | compiled dependency counts are 0 for the entry point and 1 for every other node |
| TraceSequence.GenerateTraceSequence | backend/scripts/seed-stress-test.ts:605-754 | for every status, limit and random choice a trace is the node blocks in order, complete unless the limit was reached, each with as much of its chosen progress as its share and the limit allow and its exchange exactly when wanted and fitting |
| TraceSequence.AbnormalEndIsLast | backend/scripts/seed-stress-test.ts:693-751 | a failure or a skip is the last event of the trace, so there is at most one |
| TraceSequence.AbnormalEndTellsStatus | backend/scripts/seed-stress-test.ts:693-737 | a failure stands only in traces of failed, timed-out, terminated and stale runs, a skip only in those of cancelled ones |
| TraceSequence.TerminalRunEndsSo | backend/scripts/seed-stress-test.ts:693-737 | a run that failed, was cancelled, timed out or was stopped ends with that event exactly when the trace reaches the last node |
| AcceptanceDeadlines.ExecInv | backend/scripts/findings-opensearch-acceptance.ts:631-730 | the invariant holds in every state of every run whose timeouts leave headroom |
| CommandSupervision.RunCommand | scripts/production-compose-smoke.js:721-753 | an invalid capture bound and a failed spawn are refused at once; otherwise the supervised run starts with three timers pending and nothing settled |
| CommandSupervision.CommandRun.constructor | scripts/production-compose-smoke.js:726-771 | the closure state right after a successful spawn |
| CommandSupervision.CommandRun.Settle | scripts/production-compose-smoke.js:776-784 | the first settlement wins and cancels all three timers; a later one changes nothing |
| CommandSupervision.CommandRun.OnSoftTimer | scripts/production-compose-smoke.js:823-831 | the whole closure state after the soft timer is the transition function's |
| CommandSupervision.CommandRun.OnKillTimer | scripts/production-compose-smoke.js:832-841 | the whole closure state after the kill timer is the transition function's |
| CommandSupervision.CommandRun.OnHardTimer | scripts/production-compose-smoke.js:842-853 | the hard timer settles whatever is unsettled, as unsafe unless all settlement was proved |
| CommandSupervision.CommandRun.OnSoftSettled | scripts/production-compose-smoke.js:799-830 | the closure state after the soft signal settles, with the first termination failure kept |
| CommandSupervision.CommandRun.OnKillSettled | scripts/production-compose-smoke.js:799-840 | the closure state after the kill signal settles, with its failure noted |
| CommandSupervision.CommandRun.OnData | scripts/production-compose-smoke.js:758-766 | the capture counts every byte and keeps chunks up to the bound |
| CommandSupervision.CommandRun.OnStdoutError | scripts/production-compose-smoke.js:767-769 | a stdout error marks the capture as failed |
| CommandSupervision.CommandRun.OnChildError | scripts/production-compose-smoke.js:855-861 | a child error rejects, unless the run has timed out |
| CommandSupervision.CommandRun.OnChildClose | scripts/production-compose-smoke.js:862-887 | the closure state and the settlement after the child closes, in every order of failure causes |
| CommandSupervision.CommandRun.Handle | scripts/production-compose-smoke.js:758-887 | one event of any kind takes the closure where the transition system goes |
| CommandTheorems.NeverStuck | scripts/production-compose-smoke.js:821-853 | an unsettled run always goes on without help from the child |
| SmokePlan.RunOpening | scripts/production-compose-smoke.js:940-945 | the fixed opening runs in order, up to its first failure, and `up` counts as attempted once it was started |
| SmokePlan.RunLoop | scripts/production-compose-smoke.js:946-964 | the loop runs every other command in list order up to the first failure, and its progress flags say exactly what was attempted and completed |
| SmokePlan.RunMain | scripts/production-compose-smoke.js:939-968 | the whole try block against its declarative description |
| SmokePlan.RunRecovery | scripts/production-compose-smoke.js:970-999 | the OpenSearch recovery runs exactly the steps still missing |
| SmokePlan.RunDrop | scripts/production-compose-smoke.js:1000-1015 | the database is dropped only when a reset was attempted and no drop completed |
| SmokePlan.RunDown | scripts/production-compose-smoke.js:1016-1030 | the stack goes down only when `up` was attempted and it is not to be kept |
| SmokePlan.RunPlan | scripts/production-compose-smoke.js:930-1033 | the four blocks together, each passed over once an error was unsafe |
| SmokePlan.RunUndoing | scripts/production-compose-smoke.js:969-1031 | the finally block: the three undoing blocks, each passed over once an error was unsafe, with the first error kept |
| SmokePlan.RunRestart | scripts/production-compose-smoke.js:975-979 | the restart runs exactly when it has not completed |
| SmokePlan.RunBackend | scripts/production-compose-smoke.js:980-987 | the backend wait runs exactly when OpenSearch is back and it has not completed |
| CleanupTransaction.RollbackPostgresCleanup | backend/scripts/findings-opensearch-acceptance.ts:355-389 | one ROLLBACK is sent; a late one releases and destroys the connection once and reports failure; only one in time counts as done |
| CleanupTransaction.RunStatements | backend/scripts/findings-opensearch-acceptance.ts:410-419 | the statements take effect in order up to the first failure or abort, which it reports; the one that stops counts exactly when it was sent and took effect, and none after it is sent |
| CleanupTransaction.RunTransaction | backend/scripts/findings-opensearch-acceptance.ts:400-428 | all statements are committed exactly when COMMIT is reached and takes effect, and nothing otherwise; exactly when a rollback is due |
| PrePushCache.CacheDirectory.Acquire | scripts/pre-push.js:31-70 | undisturbed, acquiring never gives up: a receipt, else a live owner, else the lock, over a stale one if need be |
| PrePushCache.CacheDirectory.Complete | scripts/pre-push.js:72-79 | the receipt then carries the guard's key |
| PrePushCache.CacheDirectory.Release | scripts/pre-push.js:81-84 | only a lock with the guard's own token is removed |
| PrePushCache.CacheDirectory.Verify | scripts/pre-push.js:350-371 | exit code, receipt and lock of one push, in each of the cached, busy, passing and failing cases, a failing one with the status of its verification |
| AffectedWorkspaces.QueueDependents | scripts/pre-push.js:140-144 | every dependent of the changed name is in the set afterwards, new ones are queued, nothing unaffected comes in |
| TenantProvisioning.AppController.ValidateAuth | backend/src/app.controller.ts:70-72 | a request starts an attempt exactly when the instance has no entry for the organization |
| TenantProvisioning.AppController.OnSettled | backend/src/app.controller.ts:82-97 | only a successful attempt stays in the promise map |
| FindingsMigration.Cluster.Reindex | backend/scripts/migrate-findings-opensearch.ts:125-142 | one request creates only missing documents, reports how many, counts every document the pipeline rejects as a failure, and touches no other index |
| FindingsMigration.Cluster.Request | backend/scripts/migrate-findings-opensearch.ts:143-149 | a request is taken as complete if and only if it was not cut short and nothing was rejected; it has then brought in everything its source offers, and its count is the growth of the target |
| FindingsMigration.Cluster.ReindexAll | backend/scripts/migrate-findings-opensearch.ts:123-150 | the loop ends with the full merge and the exact growth if and only if every request completes, or stops at the first that does not, naming its source |
| CanonicalJsonDecoding.QuoteUnique | scripts/security-component-audit-utils.ts:150-150 | a quoted string can be read back from the start of any text, whatever it contains |
| CanonicalJsonDecoding.ArrayUnique | scripts/security-component-audit-utils.ts:142-144 | an array print can be read back from the start of any text |
| CanonicalJsonDecoding.ObjectUnique | scripts/security-component-audit-utils.ts:146-152 | an object print can be read back from the start of any text, up to key order |
| CanonicalJsonDecoding.ValueUnique | scripts/security-component-audit-utils.ts:141-155 | the same for any value |
| FixtureObjects.CloneFixtureValue | scripts/security-component-audit-utils.ts:157-171 | every object of the copy is fresh and stands at one path only, whatever was shared before; the copy agrees with the source at every path; nothing existing is modified |
| FixtureMaterialization.CopyHasContent | scripts/security-component-audit-utils.ts:157-171 | a copy has the content of its source |
| FixtureMaterialization.SetFixturePath | scripts/security-component-audit-utils.ts:173-187 | the in-place write has the effect on the content that SetInAt describes |
| FixtureMaterialization.ApplyEnvOverrides | scripts/security-component-audit-utils.ts:189-199 | overrides with a value and a path are written in order, the others are skipped |
| TeardownBarrier.DiscoverRuns | scripts/browser-target-journey.js:398-405 | the runs are the recorded ones and those of the workflow that were not seeded, with the status reported last; a malformed id fails the discovery |
| TeardownBarrier.WaitForTerminalRun | scripts/browser-target-journey.js:356-367 | succeeds if and only if one of 60 requests, none before it failing, reports a terminal status |
| TeardownBarrier.CancelUnfinished | scripts/browser-target-journey.js:416-439 | exactly the unseeded runs not known to be terminal are cancelled; it passes if and only if all of them become terminal |
| TeardownBarrier.Delete | scripts/browser-target-journey.js:375-381 | each deletion is attempted even when an earlier one failed |
| TeardownBarrier.Barrier | scripts/browser-target-journey.js:383-440 | discovery and cancellation together: passes if and only if both do, with no deletion |
| TeardownBarrier.Discovery | scripts/browser-target-journey.js:383-414 | a failed, malformed or overlong discovery does not count, and a skipped one leaves the recorded runs |
| CdpSession.Session.SendCommand | scripts/release-benchmark.ts:216-234 | a command takes the next id and waits with its own timer |
| CdpSession.Session.OnMessage | scripts/release-benchmark.ts:170-187 | a message settles the waiter with its id and no other |
| CdpSession.Session.OnTimeout | scripts/release-benchmark.ts:222-225 | a timeout rejects its own command |
| CdpSession.Session.CloseSession | scripts/release-benchmark.ts:236-243 | closing rejects every waiter and cancels its timer |
| StressGraph.CompileActions | backend/scripts/seed-stress-test.ts:558-576 | the entry point depends on nothing, every other node on the source of its one incoming edge |
| TraceSequence.TraceNode | backend/scripts/seed-stress-test.ts:636-751 | the events of one node form a block of the grammar and the limit is exceeded by at most one event |
| AcceptanceSettlement.NeverStuck | backend/scripts/findings-opensearch-acceptance.ts:598-616 | an unsettled plan always has a timer to fire or time to pass |

## Left out

- Acceptance plan: modelled on values as a state machine over macro-steps (one timer or settlement with its promise reactions), not as an object with fields; interleavings of single promise reactions are not modelled.
- The remaining functions of the acceptance script (drift probe, zero-pass loop, deletion proofs, large fixtures, barrier delay): left out as smaller than the deadline plan and the transaction.
- Process-tree termination: the two signals are events that settle with success or failure; what `taskkill` and `kill` do is not modelled.
- Command supervision: a failing `unref`, the identity of error causes and UTF-8 decoding of the output are not modelled; timer delays are exact.
- Smoke commands: names and timeouts are modelled, arguments and environment are not; that a step keeps its own bound is an assumption of the time results, established for one command by SettlesOnceInTime.
- Cleanup transaction: a rollback that never settles, and statements as anything but opaque effects.
- Pre-push: file errors other than a file that already exists, process-id reuse, and the selection of commands from changed files; the cache object has no other process at work, PrePushLock has.
- Provisioning: crashes of instances and the login and session code of the controller; a lock or marker can expire at any moment, its life time in seconds is not modelled.
- FindingsMigration.Cluster.MigrateFindingsIndices: does not model the storage-id reconciliation that follows the loop and may update the contract classification, its validation version and the normalized severity of target documents; its contract describes the target before that step.
- Migration: pipeline, template, setting and mapping requests, and changes or deletions by others during a run; the ingest pipeline is any function that rewrites or rejects a document.
- Fingerprints: SHA-256 and the cut to 16 digits; the result is about what is hashed. Numbers are their JSON text, so that distinct finite numbers have distinct texts is assumed; NaN and negative zero are left out.
- Fixture materialization: cyclic fixtures, on which the copy does not terminate; members inherited from a prototype, so path parts such as `__proto__`; the members of the fixture other than inputs and params, which stay shared.
- Teardown: the HTTP requests, waiting between status requests and the text of error messages; each is an outcome chosen freely.
- Chrome session: connecting, the socket itself and sending after a close.
- Seeder: labels, positions, timestamps and message texts; weights of random choices, of which any outcome is allowed; fresh ids are assumed distinct.
- Freshness summaries and skip decisions of the audit ledgers, the lifecycle transport double, and the worker-crash inventory: left out as easier than what is here.
