# Wazuh operator: a verified model of the cluster controller

This project models the reconcile loop of the Wazuh operator's cluster controller and the admission webhook in front of
it, and proves what they keep over whole runs: repeated passes, failed and ambiguous API calls, crashes, stale reads and
other writers.

| file | what it models |
|---|---|
| `OptimisticRetry.dfy` | an object as the history of its versions, and the retry loop that re-reads, overlays and conditionally writes it |
| `CredentialRotation.dfy`, `CredentialOutcome.dfy` | rotation of the API and authd credentials: the hash in the status, the hash annotations on up to three workloads; which changes restart which of them |
| `Conditions.dfy` | the condition list of the status |
| `StatusWrites.dfy`, `StatusOutcome.dfy` | the drain and condition writers, and `updateStatus`, whose attempts share one condition slice; when it succeeds and what it then says |
| `Rollouts.dfy` | the list of certificate rollouts |
| `RestartStatus.dfy` | the rolling-restart status |
| `Orchestrator.dfy` | one-pod-at-a-time restarts of one StatefulSet, together with its controller and the kubelet |
| `RestartRuns.dfy` | restarts across StatefulSets: workers and master, and the indexer's node pools |
| `Drain.dfy` | draining a pod before a scale-down |
| `ResourceNames.dfy`, `Deletion.dfy` | the 27 listed resources, the finalizer and the ordered cleanup |
| `ReconcilePass.dfy`, `PassOutcome.dfy` | one whole pass as a trace of its stages; how far it gets and what it reports |
| `Watches.dfy` | watch handlers as inverses of forward resolution |
| `NodePools.dfy`, `Admission.dfy` | node-pool validation with 32-bit counters, defaulting, validation, update rules |

Conventions. Component reconcilers and API calls are arbitrary outcomes given as parameters. Clocks are parameters and
do not run backwards where that matters. The credential hash is an arbitrary string. The phrase "own write" means a write
by the operator, "foreign" one by anybody else. State that the source changes in place is a class field or an array;
a method proved equal to a function is followed by lemmas about that function.

Properties that the code or its documentation suggests and that turn out not to hold are kept as results: a lemma with a
concrete case, and the exact condition under which the property does hold.

- A workload can keep the stamp of an abandoned hash (`AbandonedHash`, `CarryAfterPassIff`).
- A component reconcile that updates its workload replaces the pod template and with it the hash annotations
  (`internal/shared/patch/merge.go`), so a workload can be restarted again for a hash it already had. The exact price is
  one restart per erased stamp (`RestartsPerChange`, attained by `ErasedStampRestartsAgain`); at most once per change holds
  where the stamps are left alone (`AtMostOncePerChange`).
- A stale read of an earlier stamp can lose a rotation (`StaleReadLosesRotation`); a restart is sure to stamp its workload
  iff no version within the lag of its reads is one it passes over (`RestartSureIff`).
- A pass that starts from a cached cluster object can undo what was stored since: it drops or reopens rollouts
  (`StaleStartUndoes`, `RunContinuesIff`), moves the start of a restart streak (`StaleStartMovesStreak`, `StoredMeansStreak`)
  and puts an older drain back (`StaleStartUnsticks`).
- Conflict retries of the status write show in the conditions when attempts take different branches
  (`RoundsTransparentIff`), which steady readings allow when one of them fails (`FailingReadingShows`,
  `SteadyReadingsTransparentIff`).
- Two worker pods can be down at once during a rolling restart (`TwoWorkersDown`, `CallSafeIff`), so can a worker and the
  master (`MasterFollowsAbsentWorker`, `ManagersOneDownIff`), and pods of two node pools (`UnreadyPoolPodIgnored`,
  `PoolsOneDownIff`, `IndexerPoolCallSafeIff`). The node-pool results concern a topology that admission excludes
  (`AdmittedIsSimple`) and that `internal/opensearch/validation/nodepool_validator.go` refuses too while replicas are set.
- The drained pod need not be the one a scale-down removes: the check asks about the topmost pod, and raising the count
  during a drain makes that another one (`RaisedCountMovesTop`, `SafeIff`, `FirstScaleDownDrained`).
- A scale-down can remove pods nobody drained, and after the first drained one it always does (`SafeIff`,
  `OnlyOneSafeScaleDown`, `FailedStartScalesDown`, `FailedReconcileForgetsDrain`, `PendingWaitsForever`); the retry and
  rollback branches never act (`RetryNeverActs`). A refused drain start does not hold the scale-down back, although it
  stores a pending drain (`RefusedStartGoesOn`, `BecomesPendingIff`).
- A reference-mode cluster with custom secret names misses changes of its secrets (`ReferenceSecretsEnqueueIff`), and a
  rule in another namespace is not found from its cluster (`DependentFoundIff`).
- 32-bit counters can turn away node pools with enough nodes (`OverflowRejects`, `ExactWithoutOverflow`).
- The mode of a cluster can change in two accepted updates (`ModeChangesThroughEmpty`). In the webhook alone so can the
  topology, through a spec without the indexer or with a negative replica count (`TopologyChangesThroughAbsent`,
  `TopologyChangesThroughNegative`). The schema in front of the webhook insists on a positive replica count, and with it
  the webhook accepts no node pools at all: every admitted indexer is simple (`AdmittedIsSimple`), although the
  documentation describes the advanced mode.

## Model

| member | source | states |
|---|---|---|
| `OptimisticRetry.StoredObject.RetryOnConflict` | internal/utils/retry.go:210-264 | the loop of at most four attempts behaves as its specification for every interleaving, staleness and failure; RetryEndsAt and RetryFailsIff say what that is |
| `OptimisticRetry.RetrySerial` | internal/utils/retry.go:228-264 | every own write is one atomic application of the overlay to the then current version |
| `OptimisticRetry.NoLostUpdate` | internal/utils/retry.go:228-264 | everything outside the write set ends as the last foreign writer left it |
| `OptimisticRetry.SuccessWrites` | internal/utils/retry.go:228-264 | a loop that always writes succeeds only with its own write in place |
| `OptimisticRetry.QuietRetry` | internal/utils/retry.go:228-264 | without interference a loop leaves own writes only and, unless it fails, a settled object |
| `OptimisticRetry.RetryMeets` | internal/utils/retry.go:228-264 | a loop that succeeds, or finds nothing, has met a version within the lag of its reads that left nothing to do, or written its own |
| `OptimisticRetry.RetryEndsAt` | internal/utils/retry.go:228-264 | the loop ends with the first attempt that succeeds, fails for good or is cancelled, else with the fourth: retryable errors are retried and no others |
| `OptimisticRetry.RetryProgress` | internal/utils/retry.go:178-264 | lost races are made up for: after up to three of them, an attempt with a current read that nobody overtakes ends the loop with its write, or with nothing to write |
| `OptimisticRetry.RetryFailsIff` | internal/utils/retry.go:178-264 | where only races can go wrong, the loop fails iff all four attempts lose theirs, and then it has written nothing |
| `OptimisticRetry.DeletionEndsLoop` | internal/utils/retry.go:178-264 | losing to a deletion reports the object as not found and is not retried |
| `CredentialRotation.CredentialReconciler.TriggerRestartWithHash` | controllers/wazuhcluster_controller.go:1721-1805 | the restart trigger is the retry loop over the annotation overlay |
| `CredentialRotation.CredentialReconciler.ReconcileApiCredentials` | controllers/wazuhcluster_controller.go:1495-1568 | the new status hash, the three workloads and the error are those of one rotation of the API credential |
| `CredentialRotation.CredentialReconciler.ReconcileAuthdCredentials` | controllers/wazuhcluster_controller.go:1643-1712 | the same for the authd credential, with the dashboard untouched and the workers only when not master-only |
| `CredentialRotation.Rotate` | controllers/wazuhcluster_controller.go:1495-1568 | a rotation that errors leaves the stored hash unchanged |
| `CredentialRotation.RestartWriteSet` | controllers/wazuhcluster_controller.go:1727-1761 | a restart is skipped exactly for zero replicas or a present hash, and otherwise changes exactly its three annotations |
| `CredentialRotation.RestartLosesNothing` | controllers/wazuhcluster_controller.go:1727-1761 | a restart trigger loses no foreign update outside its three annotations |
| `CredentialRotation.OtherCredentialKeepsKey` | controllers/wazuhcluster_controller.go:1721-1805 | a restart for one credential keeps the hash annotation of the other |
| `CredentialRotation.RestartsPerChange` | controllers/wazuhcluster_controller.go:1495-1568 | over any run with errors, crashes, stale reads, lost status writes and any other writers, component reconciles included, a workload is restarted at most once per change of the hash and once per change of its stamp by others |
| `CredentialRotation.AtMostOncePerChange` | controllers/wazuhcluster_controller.go:1495-1568 | where nobody else changes the stamp, at most once per change of the hash |
| `CredentialRotation.ErasedStampRestartsAgain` | internal/shared/patch/merge.go:27-60 | the bound is attained for every n: on one hash, n replacements of the pod template between passes that fail on the workers restart the master n + 1 times |
| `CredentialRotation.QuietPassStampsMissing` | controllers/wazuhcluster_controller.go:1513-1567 | an error-free rotation without interference stamps exactly the required workloads that still miss the hash, and moves the stored hash |
| `CredentialRotation.CompletionUnderInterference` | controllers/wazuhcluster_controller.go:1513-1567 | with other writers at work and reads of any lag, a rotation that moves the stored hash leaves a required workload carrying it, unless a version its reads reach is absent, at zero replicas, or older than the pass and carrying the hash, or others change the stamp while the pass restarts workloads |
| `CredentialRotation.SureCompletion` | controllers/wazuhcluster_controller.go:1513-1567 | a workload whose reachable versions before the pass all run and lack the hash, and that others keep running with its stamp untouched, ends carrying it |
| `CredentialRotation.RestartSureIff` | controllers/wazuhcluster_controller.go:1721-1762 | for every script and failure, and all interference that leaves the stamp and the replicas alone, a tolerated restart stamps a running workload that lacks the hash iff no version within the lag is one it passes over |
| `CredentialRotation.StaleReadLosesRotation` | controllers/wazuhcluster_controller.go:1513-1567 | a rotation from a to b and back in which reads that lag by one version leave every workload at b with a stored |
| `CredentialRotation.CarryAfterPassIff` | controllers/wazuhcluster_controller.go:1513-1567 | after an error-free pass the workloads carry the hash iff the pass rotated or they carried it before |
| `CredentialRotation.ExactlyOnce` | controllers/wazuhcluster_controller.go:1495-1568 | after any run on one hash that ends with an error-free rotation, a workload that lacked it carries it; it was restarted exactly once if others left its stamp alone, and at most once more than they changed it otherwise |
| `CredentialRotation.ExactlyOnceUnderInterference` | controllers/wazuhcluster_controller.go:1495-1568 | the same with interference and lagging reads in the last pass, unless a version it can have read makes the workload be passed over or others change the stamp meanwhile |
| `CredentialRotation.AbandonedHash` | controllers/wazuhcluster_controller.go:1517-1519 | a pass that fails midway followed by a secret that returns to the stored hash leaves the abandoned stamp for good |
| `CredentialOutcome.ApiRotationInOrder` | controllers/wazuhcluster_controller.go:1523-1567 | a change of the API credential restarts master, workers and dashboard in this order under its own annotation, stops at the first failure, and moves the stored hash only after the last |
| `CredentialOutcome.AuthdRotationInOrder` | controllers/wazuhcluster_controller.go:1681-1711 | a change of the authd credential restarts the master and, unless authd runs on the master only, then the workers; never the dashboard |
| `CredentialOutcome.RotationRestarts` | controllers/wazuhcluster_controller.go:1523-1567 | without faults the rotation succeeds: exactly those workloads get one more version with the three annotations set, unless absent, at zero replicas or already carrying the hash |
| `CredentialOutcome.BlindRun` | controllers/wazuhcluster_controller.go:1497-1511 | passes that find no manager, no secret, an unreadable one or no API password keep the stored hash and restart nothing |
| `CredentialOutcome.RotationAfterAbsence` | controllers/wazuhcluster_controller.go:1497-1567 | a secret that changes while it cannot be read is still a change: the first pass that reads it restarts the workloads |
| `CredentialOutcome.FirstHashRestartsNothing` | controllers/wazuhcluster_controller.go:1523-1528 | without a stored hash the first one read is adopted and nothing is restarted |
| `CredentialOutcome.SwitchedOffForgets` | controllers/wazuhcluster_controller.go:1662-1668 | authd switched off forgets its hash, so that a later password counts as the first one |
| `Conditions.ConditionList.UpdateCondition` | controllers/wazuhcluster_controller.go:1160-1187 | the in-place update is replacement at the first entry of the type or an append |
| `Conditions.ListMeansCalls` | controllers/wazuhcluster_controller.go:1160-1187 | for every call sequence: one entry per type in first-seen order, with the content of the latest call and the time of the latest call that changed the status |
| `Conditions.TransitionTimesAdvance` | controllers/wazuhcluster_controller.go:1160-1187 | transition times never move back or into the future, and move only with the status |
| `StatusWrites.UpdateDrainStatus` | controllers/wazuhcluster_controller.go:1851-1874 | the drain writer is the retry loop over its overlay, and success means its drain status is the last one written |
| `StatusWrites.PersistCondition` | controllers/wazuhcluster_controller.go:1191-1207 | on success the working copy takes the stored conditions, on failure its own update |
| `StatusWrites.DrainWriteLosesNothing` | controllers/wazuhcluster_controller.go:1854-1873 | a drain write loses no foreign update outside Drain and LastUpdateTime |
| `StatusWrites.ConditionWriteLosesNothing` | controllers/wazuhcluster_controller.go:1193-1204 | a condition write loses no foreign update outside its condition type |
| `StatusWrites.UpdateConditionInSlice` | controllers/wazuhcluster_controller.go:1160-1187 | the update on a slice: in place, in spare capacity, or in a new array, as slices alias |
| `StatusWrites.UpdateStatusAttempt` | controllers/wazuhcluster_controller.go:1335-1360 | one attempt on the shared slice yields the written and the working conditions of the value model |
| `StatusWrites.UpdateStatus` | controllers/wazuhcluster_controller.go:1211-1381 | the attempt the call ends with, its error, and the stored cluster and the working copy it leaves, whether it succeeds or fails |
| `StatusWrites.RoundsAddUp` | controllers/wazuhcluster_controller.go:1335-1380 | after any number of attempts, failed calls included, the working copy holds what those attempts add up to on the shared slice |
| `StatusWrites.UpdateStatusPersists` | controllers/wazuhcluster_controller.go:1335-1380 | a successful call puts the working copy's rollouts, security, drain and rolling restart over whatever others wrote, together with the phase of its last readings and the conditions its attempts add up to, which depend on the working copy and not on stored conditions |
| `StatusWrites.SameBranchTransparent` | controllers/wazuhcluster_controller.go:1335-1380 | attempts that take the same branch persist what a single attempt would |
| `StatusWrites.RetriesTransparentIff` | controllers/wazuhcluster_controller.go:1335-1380 | retries are invisible for every working copy iff no attempt takes another branch than the last |
| `StatusWrites.RoundsTransparentIff` | controllers/wazuhcluster_controller.go:1211-1381 | the retries before the round that writes are invisible for every working copy iff no earlier attempt takes another branch |
| `StatusWrites.OneBranchPersists` | controllers/wazuhcluster_controller.go:1211-1381 | what a successful call persists when its attempts agree: phase and conditions of one attempt on the working copy |
| `StatusWrites.SteadyReadingsTransparentIff` | controllers/wazuhcluster_controller.go:1226-1346 | with steady readings, failing ones included, retries are invisible iff the re-read clusters decide the branch alike |
| `StatusWrites.SteadyReadingsTransparent` | controllers/wazuhcluster_controller.go:1214-1380 | with readings that neither fail nor change, what a successful call persists is the phase and the conditions of one attempt |
| `StatusWrites.FailingReadingShows` | controllers/wazuhcluster_controller.go:1226-1230 | a reading that fails in both attempts and a component status cleared in between: the first attempt shows in what the second persists |
| `StatusWrites.StatusWriteLosesNothingElse` | controllers/wazuhcluster_controller.go:1335-1380 | whatever its attempts meet, the call loses no foreign update outside the fields it copies or computes |
| `StatusOutcome.UpdateStatusProgress` | controllers/wazuhcluster_controller.go:1211-1381 | lost races are made up for: an attempt with a current read that nobody overtakes ends the call with its write in place |
| `StatusOutcome.UpdateStatusFailsIff` | controllers/wazuhcluster_controller.go:1211-1381 | where only races can go wrong, the call fails iff all four attempts lose theirs |
| `StatusOutcome.UpdateStatusEnds` | controllers/wazuhcluster_controller.go:1211-1381 | every call ends after at most four attempts, and a cancellation counts only while waiting for another one |
| `StatusOutcome.PersistedReflectsReadings` | controllers/wazuhcluster_controller.go:1226-1365 | what a successful call has written: component statuses are the last readings, the stored ones where a reading failed; the phase is Running iff each is present and, where read, fully ready; the conditions of that phase with their reasons and times, all others as in the working copy |
| `StatusOutcome.RunningIffReady` | controllers/wazuhcluster_controller.go:1235-1365 | with readings that do not fail, the written phase is Running iff the written statuses are all present and ready, else Creating |
| `StatusOutcome.ConditionIsPersisted` | controllers/wazuhcluster_controller.go:1191-1207 | a successful condition write leaves the condition false with its reason and message |
| `Rollouts.RolloutTracker.CheckAndUpdatePendingRollouts` | controllers/wazuhcluster_controller.go:777-848 | the check marks exactly the unfinished entries probed ready and reports whether any stays unfinished |
| `Rollouts.RolloutTracker.AddPendingRollouts` | controllers/wazuhcluster_controller.go:851-893 | the new list, time and flag after recording requests |
| `Rollouts.RolloutTracker.FinishPass` | controllers/wazuhcluster_controller.go:708-761 | the pending flag, the pending count and the requeue interval at the end of a pass |
| `Rollouts.PendingLookup` | controllers/wazuhcluster_controller.go:860-892 | the pending map holds exactly the unfinished entries |
| `Rollouts.LengthSplits` | controllers/wazuhcluster_controller.go:860-892 | the list length is the finished count plus the size of the pending map |
| `Rollouts.AddRefines` | controllers/wazuhcluster_controller.go:851-893 | recording requests is map overwrite; the finished history is untouched |
| `Rollouts.LastRequestWins` | controllers/wazuhcluster_controller.go:851-893 | among duplicate components the last request wins |
| `Rollouts.UnnamedKept` | controllers/wazuhcluster_controller.go:851-893 | a component no request names keeps its pending rollout |
| `Rollouts.CheckRefines` | controllers/wazuhcluster_controller.go:777-848 | a check moves exactly the completed rollouts from the map to the history |
| `Rollouts.StaleStepIff` | controllers/wazuhcluster_controller.go:786-892 | a pass that starts from an older list saves a continuation of the stored one iff it completes again, alike, what was completed since, and appends again, unfinished, what was appended since |
| `Rollouts.RunContinuesIff` | controllers/wazuhcluster_controller.go:786-892 | over any run, cached starts included, every stored list continues the one before iff every saved pass meets that condition |
| `Rollouts.RunContinues` | controllers/wazuhcluster_controller.go:786-892 | between passes that meet it the component sequence grows only by appending and finished entries never change |
| `Rollouts.FreshRunContinues` | controllers/wazuhcluster_controller.go:786-892 | over any run whose passes start from the latest status it always does so |
| `Rollouts.StaleStartUndoes` | controllers/wazuhcluster_controller.go:786-892 | a cached start drops a recorded rollout, or makes a completed one pending again |
| `Rollouts.RunConserves` | controllers/wazuhcluster_controller.go:786-892 | over any run, cached starts included, the list has one unfinished entry per component and its length is conserved |
| `Rollouts.SignalsAgree` | controllers/wazuhcluster_controller.go:708-724 | in every run, flag, metric, in-progress status and the five second requeue hold exactly when an entry is unfinished |
| `RestartStatus.RestartTracker.UpdateRollingRestartStatus` | controllers/wazuhcluster_controller.go:914-984 | the new status of the three components, or none |
| `RestartStatus.EntryMeansStreak` | controllers/wazuhcluster_controller.go:914-984 | an entry exists iff the latest result is active, and starts when the current unbroken streak did |
| `RestartStatus.StoredMeansStreak` | controllers/wazuhcluster_controller.go:914-984 | over runs with lost status writes and cached starts, an entry is stored iff the last saved result is active, and its start time is that of the current streak of the reports it descends from |
| `RestartStatus.FreshLineage` | controllers/wazuhcluster_controller.go:914-984 | if every pass starts from the latest status, those are the saved reports |
| `RestartStatus.StaleStartMovesStreak` | controllers/wazuhcluster_controller.go:914-984 | a cached start moves the start of an unbroken streak |
| `RestartStatus.StatusMeansReports` | controllers/wazuhcluster_controller.go:727-749 | the status is absent iff no entry exists, and its flag holds iff some entry is in progress |
| `Orchestrator.OrchestrateRestart` | internal/shared/rolling/orchestrator.go:54-184 | the decision, with failing lists, health checks and deletions: the topmost outdated pod is deleted only when all owned pods are ready and the cluster is healthy |
| `Orchestrator.OrchestrateNodePools` | internal/opensearch/reconciler/indexer_rolling_restart.go:114-188 | one decision per call, for the first pool that cannot be passed; unreadable pools are passed over |
| `Orchestrator.OrchestrateManager` | internal/wazuh/reconciler/cluster_rolling_restart.go:44-175 | the master has its part only if the workers' part neither failed nor left an outdated worker; an unreadable worker set ends the call |
| `Orchestrator.GoesOnIff` | internal/wazuh/reconciler/cluster_rolling_restart.go:44-94 | the master has its part iff the worker set does not exist, needs no update or lists no outdated pod |
| `Orchestrator.ManagerHealth` | internal/wazuh/reconciler/manager_health_checker.go:47-70 | healthy iff every listed pod is ready |
| `Orchestrator.DeletionIs` | internal/shared/rolling/orchestrator.go:54-184 | a call deletes iff its guards hold, and then the topmost outdated pod |
| `Orchestrator.PhaseIs` | internal/shared/rolling/orchestrator.go:54-184 | idle iff no update is pending, complete iff one is and no outdated pod is listed |
| `Orchestrator.IndexerHealth` | internal/opensearch/reconciler/indexer_health_checker.go:48-71 | healthy iff not red, no shard moving or initializing, and enough nodes |
| `Orchestrator.CallSafeIff` | internal/shared/rolling/orchestrator.go:54-184 | a call keeps at most one pod down iff it does not delete while an ordinal is absent |
| `Orchestrator.NeverTwoDown` | docs/usage/operations/upgrade-guide.md:171-190 | over any run whose health answers vouch for absent pods, no two pods are down at once |
| `Orchestrator.IndexerVouches` | internal/opensearch/reconciler/indexer_health_checker.go:48-71 | a healthy indexer of one set has no absent pod |
| `Orchestrator.TwoWorkersDown` | internal/wazuh/reconciler/manager_health_checker.go:47-70 | the manager checker does not vouch: a run with two of three workers down |
| `Orchestrator.EachPodReplacedOnce` | internal/shared/rolling/orchestrator.go:54-184 | over any run, replaced plus still outdated pods add up to the initially outdated ones |
| `RestartRuns.DeleteSafeAcross` | internal/shared/rolling/orchestrator.go:122-173 | deleting the topmost outdated pod keeps at most one pod of all sets down iff its set has no absent ordinal and the other sets serve |
| `RestartRuns.ManagerCallSafeIff` | internal/wazuh/reconciler/cluster_rolling_restart.go:44-175 | the exact condition for a manager call: no worker is deleted while a worker is absent or the master down, no master while a manager is absent or a worker terminates |
| `RestartRuns.ManagersOneDownIff` | docs/usage/operations/upgrade-guide.md:171-190 | over any run, at most one manager is down in every state iff every call met that condition |
| `RestartRuns.MasterFollowsAbsentWorker` | internal/wazuh/reconciler/cluster_rolling_restart.go:66-94 | a run in which the master is deleted while the last replaced worker is still absent |
| `RestartRuns.PoolCallSafeIff` | internal/opensearch/reconciler/indexer_rolling_restart.go:114-188 | the exact condition for a call on node pools: the pool of the deleted pod has no absent ordinal and the other pools serve |
| `RestartRuns.PoolsOneDownIff` | docs/usage/operations/upgrade-guide.md:171-190 | over any run, at most one indexer pod of all pools is down in every state iff every call met that condition |
| `RestartRuns.UnreadyPoolPodIgnored` | internal/opensearch/reconciler/indexer_rolling_restart.go:133-172 | a run of two old pools: once the first pod's successor has joined, and before it is ready, the next call deletes the pod of the second pool |
| `RestartRuns.IndexerVouchesAcross` | internal/opensearch/reconciler/indexer_health_checker.go:48-71 | with one node count for all pools, a healthy indexer has no absent pod in any pool |
| `RestartRuns.IndexerPoolCallSafeIff` | internal/opensearch/reconciler/indexer_health_checker.go:48-71 | with the answer of the indexer's health check a call on node pools is safe iff every pod of the other pools is ready and stays |
| `Drain.Moved` | internal/shared/drain/state.go:77-117 | an allowed transition reaches its phase |
| `Drain.TransitionTable` | internal/shared/drain/state.go:31-59 | the allowed transitions, and no others |
| `Drain.CompleteIsVerified` | internal/shared/drain/state.go:31-59 | on any path of allowed transitions from idle, complete comes right after pending, draining and verifying |
| `Drain.TransitionEffect` | internal/shared/drain/state.go:77-117 | what each transition resets and what it keeps |
| `Drain.ClampNearest` | internal/shared/drain/state.go:148-157 | the stored progress is the percentage nearest to the reported one |
| `Drain.DrainReconciler.TransitionTo` | internal/shared/drain/state.go:31-117 | the transition table and the fields each phase resets; a disallowed transition changes nothing |
| `Drain.DrainReconciler.StartDrain` | internal/wazuh/reconciler/worker_reconciler.go:538-590 | the status after a start that is accepted, refused or impossible |
| `Drain.DrainReconciler.MonitorDrainProgress` | internal/wazuh/reconciler/worker_reconciler.go:594-625 | progress is clamped and completion moves to verification where the table allows it |
| `Drain.DrainReconciler.CheckScaleDownDrain` | internal/wazuh/reconciler/worker_reconciler.go:407-522 | verdict, status and drainer of a scale-down check, in every phase and for every answer |
| `Drain.VerdictIff` | internal/wazuh/reconciler/worker_reconciler.go:407-522 | exactly when a check lets a finished drain through and when it reports an error |
| `Drain.DrainerIff` | internal/wazuh/reconciler/worker_reconciler.go:538-556 | a drainer is held iff there was one or a start found its client |
| `Drain.DrainHasOrigin` | internal/shared/drain/state.go:128-146 | over every run, a drain under way was started by an earlier pass on the topmost pod and carries the replica counts of that pass |
| `Drain.ProgressIsPercentage` | internal/shared/drain/state.go:148-157 | over every run the stored progress is a percentage, and full when complete |
| `Drain.FindsEmptyIff` | internal/wazuh/reconciler/worker_reconciler.go:476-497 | a pod is found empty exactly when it is the drained and topmost one and a live drainer answers empty for an enabled scale-down |
| `Drain.SafeIff` | controllers/wazuhcluster_controller.go:554-594 | all pods a scale-down removes were drained and found empty iff a live drainer verified the top pod, exactly one pod goes, and it is the one the drain was started on |
| `Drain.DrainBlocks` | internal/wazuh/reconciler/worker_reconciler.go:462-474 | a pending or running drain blocks the scale-down whatever the drainer answers |
| `Drain.FailedStartScalesDown` | internal/wazuh/reconciler/worker_reconciler.go:571-580 | a refused start lowers the count undrained in the same pass and stores a pending drain |
| `Drain.FailedReconcileForgetsDrain` | controllers/wazuhcluster_controller.go:575-594 | a reconcile that fails after a finished drain makes the next pass scale down unverified |
| `Drain.RetryNeverActs` | controllers/wazuhcluster_controller.go:2029-2126 | over every run, cached starts included, the rollback check changes nothing and no retry is due or awaited |
| `Drain.RetryBranches` | controllers/wazuhcluster_controller.go:2029-2087 | on a failed status with a retry time: overdue makes the drain pending, ahead leaves everything, and the very instant does neither |
| `Drain.RollbackCheck` | controllers/wazuhcluster_controller.go:2090-2126 | a finished rollback becomes a failed drain, an unfinished one stays |
| `Drain.StuckForever` | internal/shared/drain/state.go:31-59 | a stored pending or complete phase stays until a manual reset or a cached start from an older status |
| `Drain.StaleStartUnsticks` | controllers/wazuhcluster_controller.go:554-594 | a saved pass that starts from a cached running drain puts that drain back over a stuck one |
| `Drain.OnlyOneSafeScaleDown` | controllers/wazuhcluster_controller.go:575-580 | after one drained scale-down whose status is saved, none is drained until a manual reset or a cached start |
| `Drain.PendingWaitsForever` | internal/wazuh/reconciler/worker_reconciler.go:462-474 | a stored pending drain makes every later wanted scale-down wait until a manual reset or a cached start |
| `Drain.FirstScaleDownDrained` | docs/usage/features/drain-strategy.md:72-80 | without faults the first scale-down waits for its drain and its verification, and is safe iff one pod goes and the count is what it was when the drain started |
| `Drain.SteadyScaleDownDrained` | docs/usage/features/drain-strategy.md:72-80 | while the count does not change, the first pod it removes is the one that was drained and found empty |
| `Drain.RaisedCountMovesTop` | internal/wazuh/reconciler/worker_reconciler.go:476-497 | a run without faults in which the count is raised during a drain: another pod than the drained one is verified and removed |
| `ResourceNames.SuffixFree` | controllers/wazuhcluster_controller.go:1039-1133 | no listed suffix of a kind ends another one of that kind |
| `ResourceNames.ListedDisjoint` | controllers/wazuhcluster_controller.go:1039-1133 | a resource listed for two clusters means they are the same cluster |
| `Deletion.ClusterController.DeleteRange` | controllers/wazuhcluster_controller.go:1045-1056 | one deletion loop continues the cleanup or stops it at its first failure |
| `Deletion.ClusterController.CleanupResources` | controllers/wazuhcluster_controller.go:1033-1157 | the five loops are one ordered cleanup of the 27 resources, successful iff all are done |
| `Deletion.ClusterController.HandleDeletion` | controllers/wazuhcluster_controller.go:989-1028 | the finalizer goes only after a completed cleanup |
| `Deletion.ClusterController.Reconcile` | controllers/wazuhcluster_controller.go:180-212 | the lifecycle part of a pass: deletion, finalizer in a pass of its own, then creation |
| `Deletion.CleanupIsPrefix` | controllers/wazuhcluster_controller.go:1033-1157 | a cleanup removes exactly a prefix of the list, and at most the one resource whose deletion failed ambiguously |
| `Deletion.CleanupCompletesIff` | controllers/wazuhcluster_controller.go:1033-1157 | a cleanup completes iff no deletion fails |
| `Deletion.KindsInTurn` | controllers/wazuhcluster_controller.go:1033-1157 | workloads go before services, services before configuration, secrets last |
| `Deletion.StoppedCleanupKeepsRest` | controllers/wazuhcluster_controller.go:1033-1157 | a cleanup that stops leaves everything of a later kind |
| `Deletion.NoResourceWithoutFinalizer` | controllers/wazuhcluster_controller.go:198-212 | in every state of every run, a cluster without the finalizer, or gone, has no listed resource |
| `Deletion.CreatesOnlyWithFinalizer` | controllers/wazuhcluster_controller.go:198-212 | listed resources appear only in passes on a live cluster with the finalizer |
| `Deletion.FinalizerComesFirst` | controllers/wazuhcluster_controller.go:198-212 | a live cluster gets its finalizer in a pass that creates nothing, and only the next one creates |
| `Deletion.CleanPassFinishes` | controllers/wazuhcluster_controller.go:989-1028 | a pass gives up the finalizer iff no deletion fails and its update lands |
| `Deletion.OtherClustersUntouched` | controllers/wazuhcluster_controller.go:1033-1157 | deleting one cluster leaves every listed resource of any other |
| `ReconcilePass.VerifyRollbackComplete` | controllers/wazuhcluster_controller.go:2090-2126 | a rollback check never changes which retry is due or awaited, and an indexer error skips the manager |
| `ReconcilePass.HandleRetry` | controllers/wazuhcluster_controller.go:2036-2059 | the pass ends here iff the retry is due or still ahead, with an immediate or a positive requeue |
| `ReconcilePass.Reconcile` | controllers/wazuhcluster_controller.go:151-773 | the pass ends in the first stage that does not let it past, with the trace and result of the stages up to it |
| `ReconcilePass.TraceIsWhatHappens` | controllers/wazuhcluster_controller.go:151-773 | a stage is in the trace iff it acts and every earlier stage lets the pass on |
| `ReconcilePass.TraceInOrder` | controllers/wazuhcluster_controller.go:151-773 | the trace keeps the stage order, each stage at most once |
| `ReconcilePass.LiveClusterComesBack` | controllers/wazuhcluster_controller.go:199-772 | every pass on a live cluster fails, requeues at once, or after a positive delay |
| `ReconcilePass.WorkloadsGuarded` | controllers/wazuhcluster_controller.go:199-456 | workloads are touched only on a live cluster with finalizer and certificates, outside dry-run |
| `ReconcilePass.DrainRestartIsAlone` | controllers/wazuhcluster_controller.go:2029-2087 | at most one drain is restarted per pass, only when due, and that pass touches no workload |
| `ReconcilePass.BecomesPendingIff` | controllers/wazuhcluster_controller.go:459-594 | the stored drain of a component becomes pending in a pass iff its retry is due and that write lands, or its start is refused and a later status write lands |
| `ReconcilePass.RefusedStartGoesOn` | controllers/wazuhcluster_controller.go:459-594 | a pass whose drain start is refused goes on and applies the component |
| `ReconcilePass.WaitsIff` | internal/wazuh/reconciler/worker_reconciler.go:407-522 | a scale-down check waits exactly while a drain is pending, running, just started or verified as not empty; the rollback check makes no difference |
| `ReconcilePass.DrainKeepsComponent` | controllers/wazuhcluster_controller.go:459-594 | a drain under way, as the check of the stored status finds it, keeps its component and every later stage from happening |
| `ReconcilePass.RotationFollowsComponents` | controllers/wazuhcluster_controller.go:517-627 | credentials are rotated only after all three components were applied successfully in the same pass |
| `PassOutcome.EarlyStagesIff` | controllers/wazuhcluster_controller.go:151-300 | exactly when deletion, finalizer, first status, rollout check and drain retries happen, on what the pass meets |
| `PassOutcome.PreparationIff` | controllers/wazuhcluster_controller.go:300-456 | exactly when references are resolved, certificates made and a dry run ends the pass |
| `PassOutcome.ComponentsIff` | controllers/wazuhcluster_controller.go:459-627 | exactly when drains are checked, the three components applied and the credentials rotated |
| `PassOutcome.LateStagesIff` | controllers/wazuhcluster_controller.go:627-772 | exactly when exposure is reconciled, rollouts recorded, pods restarted and the status written |
| `PassOutcome.RecoveryIs` | controllers/wazuhcluster_controller.go:2029-2126 | the retry and rollback logic of the pass is that of the drain protocol |
| `PassOutcome.ResultIs` | controllers/wazuhcluster_controller.go:151-773 | the result of every pass as a function of what it meets: which failures, which requeues and after how long |
| `Watches.FindClustersForComponent` | controllers/wazuhcluster_controller.go:2279-2404 | the clusters enqueued for a manager, indexer or dashboard, in list order; none when listing fails |
| `Watches.LookupInvertsResolution` | controllers/wazuhcluster_controller.go:2145-2404 | a cluster is enqueued for an object iff resolving its reference fetches that object |
| `Watches.ManagerLookup` | controllers/wazuhcluster_controller.go:2279-2318 | a cluster is enqueued for a manager iff its manager reference has that name and namespace, its own when empty; and iff it resolves to it |
| `Watches.IndexerLookup` | controllers/wazuhcluster_controller.go:2320-2361 | the same for the indexer reference |
| `Watches.DashboardLookup` | controllers/wazuhcluster_controller.go:2363-2404 | the same for the dashboard reference |
| `Watches.FindClustersForSecret` | controllers/wazuhcluster_controller.go:2456-2512 | the clusters enqueued for a secret, in list order |
| `Watches.WatchedNames` | controllers/wazuhcluster_controller.go:2471-2498 | the five names one cluster is compared with |
| `Watches.SecretLookup` | controllers/wazuhcluster_controller.go:2456-2512 | a cluster is enqueued for a secret iff they share a namespace and the name is one of its generated or given ones |
| `Watches.ApiReferenceIs` | controllers/wazuhcluster_controller.go:1455-1476 | which secret and keys the API credentials are read from |
| `Watches.AuthdReadIff` | controllers/wazuhcluster_controller.go:1570-1613 | a secret is read for authd iff authd is not disabled and a named reference, new or legacy, switches passwords on |
| `Watches.InlineSecretsEnqueue` | controllers/wazuhcluster_controller.go:1455-1493 | for an inline cluster every secret read for a credential hash enqueues it |
| `Watches.ReferenceSecretsEnqueueIff` | controllers/wazuhcluster_controller.go:2456-2512 | for a reference-mode cluster such a secret enqueues it iff it has a default name |
| `Watches.CustomSecretMissed` | controllers/wazuhcluster_controller.go:2471-2498 | a reference-mode cluster whose custom secret is read but never enqueues it |
| `Watches.FindClustersForDependent` | controllers/wazuhcluster_controller.go:2408-2452 | a rule or decoder enqueues its forward target |
| `Watches.FindDependents` | controllers/wazuhrule_controller.go:160-197 | the rules, decoders or filebeat configurations enqueued for a cluster, in list order |
| `Watches.DependentFoundIff` | controllers/wazuhfilebeat_controller.go:125-158 | a dependent of the cluster is found iff the lookup spans all namespaces or they share one, and what is found maps back |
| `Watches.CrossNamespaceRuleMissed` | controllers/wazuhdecoder_controller.go:160-197 | a rule or decoder in another namespace than its cluster is not found from it |
| `NodePools.HasRole` | api/v1/nodepool_types.go:193-200 | found iff the role is listed |
| `NodePools.CountNodes` | api/v1/wazuhcluster_types.go:1364-1383 | the 32-bit count is the wrapped true count |
| `NodePools.GetTotalReplicas` | api/v1/wazuhcluster_types.go:1322-1331 | the wrapped total of the pools, or the simple count |
| `NodePools.ValidateNodePools` | api/v1/wazuhcluster_webhook.go:348-421 | the exact errors and warnings, pool by pool, with duplicates defined by earlier positions |
| `NodePools.ProblemsAre` | api/v1/wazuhcluster_webhook.go:348-421 | an error is reported iff its rule is broken, with the index of the pool or the count found |
| `NodePools.WarningsAre` | api/v1/wazuhcluster_webhook.go:384-420 | a warning names each pool with both roles, and one says that no pool has the data role |
| `NodePools.LabelIff` | api/v1/wazuhcluster_webhook.go:363-376 | a name is well formed iff the automaton of the pattern accepts it |
| `NodePools.NodesAdd` | api/v1/wazuhcluster_types.go:1322-1383 | node and replica counts add up pool by pool |
| `NodePools.AcceptedIff` | api/v1/wazuhcluster_webhook.go:348-421 | no error iff non-empty, well named, distinct, non-negative and the wrapped counts suffice |
| `NodePools.AcceptedHaveNodes` | api/v1/wazuhcluster_webhook.go:405-413 | wrap-around never lets pools in with too few nodes |
| `NodePools.ExactWithoutOverflow` | api/v1/wazuhcluster_webhook.go:405-413 | without overflow acceptance is exactly well-formedness with enough nodes |
| `NodePools.OverflowRejects` | api/v1/wazuhcluster_webhook.go:387-413 | two pools with over four billion cluster managers that are turned away |
| `NodePools.QuorumSurvivesOneLoss` | api/v1/wazuhcluster_webhook.go:405-408 | accepted cluster managers keep a strict majority after losing one; three is the least such number |
| `Admission.ValidateGatewayApiConfig` | api/v1/wazuhcluster_webhook.go:489-510 | no error iff at most one exposure is enabled and an enabled gateway is named; each error is reported iff its rule is broken |
| `Admission.ValidateManagerSpec` | api/v1/wazuhcluster_webhook.go:279-309 | no error iff the manager specification is valid; each error iff its rule is broken |
| `Admission.ValidateIndexerSpec` | api/v1/wazuhcluster_webhook.go:312-345 | no error iff replicas and pools are not both set and the pools pass; each error iff its rule is broken, both set hiding the others |
| `Admission.ValidateReferences` | api/v1/wazuhcluster_webhook.go:193-213 | an error iff some reference has an empty name |
| `Admission.ValidateInlineMode` | api/v1/wazuhcluster_webhook.go:165-190 | no error iff every inline component is valid; each error iff its rule is broken |
| `Admission.ValidateDrainConfig` | api/v1/wazuhcluster_webhook.go:458-487 | an error iff some drain setting is negative |
| `Admission.ValidateTlsConfig` | api/v1/wazuhcluster_webhook.go:439-455 | an error iff custom certificates come without a named certificate authority |
| `Admission.ValidIff` | api/v1/wazuhcluster_webhook.go:113-162 | validity, which the results on runs speak of, is breaking none of the rules behind the errors |
| `Admission.VersionIff` | api/v1/wazuhcluster_webhook.go:265-276 | a version is accepted iff it is three decimal numerals joined by dots |
| `Admission.ValidateCluster` | api/v1/wazuhcluster_webhook.go:113-162 | no error iff the specification is valid, and the errors are exactly those of the rules the request breaks, on its fields |
| `Admission.ClusterResource.Default` | api/v1/wazuhcluster_webhook.go:48-71 | the defaulted specification |
| `Admission.ClusterResource.ValidateUpdate` | api/v1/wazuhcluster_webhook.go:233-262 | an error iff the transition changes mode or topology directly, and the warning iff the indexer's total shrinks |
| `Admission.ClusterResource.Apply` | api/v1/wazuhcluster_webhook.go:81-102 | the webhook's part: a request is stored, defaulted, iff it is accepted |
| `Admission.ClusterResource.Submit` | api/v1/wazuhcluster_types.go:209-211 | the request as a whole: stored iff schema and webhook let it through |
| `Admission.AdmittedIsSimple` | api/v1/wazuhcluster_types.go:205-211 | behind the schema every admitted indexer is simple and has no node pools |
| `Admission.AdmitsIff` | api/v1/wazuhcluster_types.go:205-211 | what the schema adds to the webhook: no node pools and no negative replica count |
| `Admission.DefaultingIsStable` | api/v1/wazuhcluster_webhook.go:48-71 | defaulting is idempotent and keeps mode and topology |
| `Admission.DefaultingFillsGaps` | api/v1/wazuhcluster_webhook.go:48-71 | defaulting sets transport encryption, three indexer nodes and one dashboard exactly where nothing is set, and keeps the rest |
| `Admission.ModeConstant` | api/v1/wazuhcluster_webhook.go:233-244 | along any accepted run that keeps some component, the mode is constant |
| `Admission.TopologyConstant` | api/v1/wazuhcluster_webhook.go:246-254 | along any accepted run that keeps the indexer with non-negative replicas, the topology is constant |
| `Admission.ModeChangesThroughEmpty` | api/v1/wazuhcluster_webhook.go:233-244 | any two specifications of opposite modes are connected through an empty one, which the schema allows too, though not directly |
| `Admission.TopologyChangesThroughAbsent` | api/v1/wazuhcluster_webhook.go:246-254 | in the webhook alone, a simple and an advanced specification are connected through one without the indexer, though not directly |
| `Admission.TopologyChangesThroughNegative` | api/v1/wazuhcluster_webhook.go:246-254 | in the webhook alone they are also connected through a negative replica count, which the schema refuses |

## Left out

- QuietPassStampsMissing: excludes other writers during the pass, because with them "exactly the missing ones" has no fixed before state; CompletionUnderInterference covers interference.
- CarryAfterPassIff: stated without interference during the pass, where "already carried" has one meaning; CompletionUnderInterference gives the rotating half in any environment, and a pass that does not rotate writes nothing.
- ExactlyOnce: its last pass meets no interference; ExactlyOnceUnderInterference is the statement for any environment.
- FirstScaleDownDrained: holds for runs without the faults that affect a drain; those faults have lemmas of their own.
- Apply: the webhook alone; Submit adds the schema's replica minimums. Other schema rules, and deletion requests, which are always accepted, are not modelled.
- ValidateNodePools: names are byte strings, and the name pattern is a predicate and an automaton, not a regular expression engine.
- Component reconcilers, the certificate reconciler, the drainers and the health clients are outcomes, not bodies.
- Node-pool scale-down drains, which share the indexer's drain status, and drain timeouts, feasibility checks and the back-off computation that nothing calls.
- IndexerVouches: the reported node count is taken never to exceed the pods that are up; a node that OpenSearch has not yet dropped is not modelled.
- IndexerVouchesAcross: takes the node count the same way.
- IndexerPoolCallSafeIff: takes the node count the same way.
- Submit: of the schema only the replica minimums of the indexer and the dashboard.
- Cached reads of the cluster object at the start of a pass are modelled for the credential hash, rollouts, restart status and drain, not for conditions, the finalizer or the specification.
- The finalizers of rules and decoders, whose cleanup deletes nothing.
- Rollouts reported before an early error return are dropped by the code and not tracked here.
- Whether phase Running means ready when reading a component's status failed: the code keeps the old component status.
- Spontaneous pod failures in the restart runs; replica changes during a rolling restart.
- Texts of messages, events, logs, traces, metrics other than the pending rollout count, and agent metrics collection.
- Gateway, ingress and network policy enablement checks, dry-run evaluation texts, and the other controllers, which fetch and delegate.
- Sub-second and duration rounding: time is an integer.
