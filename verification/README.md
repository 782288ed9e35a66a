# A verified model of the LiteBoxd control plane

LiteBoxd keeps one SQLite row per sandbox as the source of truth and drives Kubernetes towards it.
API calls, a TTL cleaner, a startup monitor, a reconciler, a deletion service and a purge all step over
the same rows and cluster objects. This project models those steps in Dafny and proves what they keep,
over whole runs and under interleaving where the code is concurrent.

Verify everything with `dafny verify dfyconfig.toml`.

| File | Contents |
|---|---|
| Base, Text | optional values, instants and int64 durations, failing calls; the parts of Go's string functions decisions depend on; object names |
| Store | the `sandboxes` table, each UPDATE as a guarded row transition, and a class with the same statements |
| Cluster | Deployments, pods, claims, volumes, attachments; API calls with provenance checks; the deletion snapshot |
| Backoff | the retry delay in wrapping int64 |
| Deletion, DeletionRuns, DeletionTiming, DeletionFrame, DeletionLiveness | the deletion service: decisions, the service that performs them, and theorems about its runs, its timing, its frame, its termination and liveness |
| Startup, StartupMonitor | the startup classifier and the monitor that polls it |
| Reconcile, ReconcileOutcome, ReconcileRun | what the reconciler does to one row, what that leaves of it, and the pass over all rows |
| SandboxApi, Ttl | Stop, Start, Restart, Delete, the TTL cleaner, and the books of stopped time |
| System | the whole control plane as a statement-level state machine |
| SystemCore | what every step keeps; Retain safety and the frame between sandboxes, over all runs |
| SystemSafety | leak freedom, sandbox by sandbox |
| SystemConsent | nothing is deleted before somebody asked for it |
| SystemRace | how a worker that overtakes a Create call leads to a leak, and what can never be put right after it |
| Templates | the versioned template store under racing writers |
| NetworkPolicy | policy names and the egress allowlist reconciler |
| PvcView | the claim view: outer join, order, filters, pages |
| Domains | normalisation of egress domain lists |
| ExecSession | the exec stream of the Go SDK: two goroutines and a reader |
| RootfsHandshake | the rootfs mount protocol between the wrapper and the helper container |

Two layers recur. A *decision* is a pure function from a row and a snapshot to the list of database
statements and cluster calls; a *service* is a class whose methods issue those calls one by one, may fail
at each of them, and are proved to perform exactly a prefix of the decided list (all of it when they
succeed). Theorems about runs are about the decisions, broken off anywhere.

## Assumptions

- Sandbox ids are distinct 8-character strings (backend/internal/service/sandbox.go:951-954), and a
  persistent row stores the runtime and claim names derived from its id (lines 171-180).
- Template ids are never handed out twice; version ids may collide, which the primary key then refuses.
- A Deployment brings pods only while it exists, and nothing brings Deployments or claims back.
- A finalizer may delay removal for any time; clearing the finalizers of a marked object removes it.
- Clocks are parameters. Runs of the TTL books are shorter than 292 years, so no int64 duration saturates.
- In the TTL books Stop, Start and Restart are single steps and the Deployment persists. A call that scales
  and then fails to write its row is not a step of that ledger; `SandboxApi` models it.
- In the rootfs protocol umount succeeds and a generation stands for its process (no pid reuse).
- In the exec stream the reader passes non-empty buffers.

## Findings

- Deletion is absorbing for every worker statement, but not for the unguarded last writes of Create,
  Restart, Stop and Start: `Store.UnguardedWriteAbsorbsIff` says exactly when such a write breaks it. One
  that lands after completion leaves a row that is wanted deleted, completed and not `deleted`. Once no
  call for it is under way such a row stays that way for ever, in every continuation of every run: the
  pending and expiry queries and the purge never select it, another delete call does nothing, and the
  reconciler, which does list it, makes no call for it (`SystemRace.ZombiesStayForever`,
  `Store.ZombiesAreStuck`, `SandboxApi.DeleteIgnoresZombies`).
- Create inserts the row before it makes the cluster objects. If the deletion service takes the row up in
  between, it completes truthfully, the Deployment made afterwards leaks, and the last write of Create
  turns the row into one of those: `SystemRace.OvertakenCreateLeaks` is such a run, step by step.
  Only one kind of read does the harm: a worker that may be about to record this very sandbox as deleted
  (its row is `verifying`, or to the reconciler active and terminating) looks for the Deployment or pods and
  finds none while Create is under way. Without such a read nothing leaks (`SystemSafety.LeakFreedom`);
  after any such read, whatever came before it, a leak can follow (`SystemRace.EveryHasteCanLeak`).
  `SystemCore.RetainSafety` needs no condition at all.
- At force level 2 the attachments are deleted before the provenance check of the volume. If a claim is
  bound to a volume that another sandbox claims, that sandbox loses its attachments and the pass then
  fails (`DeletionFrame.MisboundClaimLosesAttachments`). `DeletionFrame.OthersLoseAttachmentsIff` says for
  every pass, broken off anywhere, whether another sandbox loses one, and `DeletionFrame.DetachedExactly`
  which; Deployment, claim, pods and volumes of others are always kept.
- The retry delay wraps. It is the documented one exactly for 0 to 29 attempts and for 31, 32, 34, 36,
  38 to 43, 45, 51 and 52; after every other number of attempts it is negative or zero, so the retry is
  immediate (`Backoff.RetryIsDocumentedIff`).
- A late write of the startup monitor makes a stopped sandbox look running; a second Stop is then accepted
  and the stopped time before it is forgotten (`Ttl.LateMonitorForgetsAnHour`). `Ttl.TtlConservation` gives
  the exact ledger: stopped time is conserved if and only if no accepted Stop found one still running.
- A persistent sandbox that becomes ready between the last poll and the deadline of the startup monitor is
  recorded as failed, next to the pod fields of a running pod, with the bare time-out as its reason exactly
  when its claim is bound and its Deployment present (`StartupMonitor.LateReadinessIsFailure`).
- A TTL over 9223372036 seconds wraps, and the expiry is then wrong: 9223372037 seconds make a sandbox
  that is born expired, 18446744074 seconds one that lives for less than a second
  (`SandboxApi.ExpiryIsExactIff`).
- Reconciling twice changes a row exactly when its objects are missing, its grace period ran out between
  the passes, and it is live, neither terminating nor stopped, and not already lost for that reason; it is
  then declared lost (`Reconcile.ReconcileIsIdempotentIff`, `Reconcile.CrossingMakesLost`).
- The reconciler never clears the pod fields of a persistent row that waits for its pod, yet counts the row
  as drifted and fixed at every pass; in every other case a live row that was fixed is in order at the next
  look (`ReconcileOutcome.FixedAwakeRowsStayFixedIff`).
- A TERM before the launch makes the rootfs wrapper launch its command without the overlay
  (`RootfsHandshake.TermBeforeLaunchBreaksIt`), because the mounted file outlives the unmount. Exactly:
  the overlay is missing at a launch if and only if the helper has unmounted it again since its last mount,
  which takes a TERM (`RootfsHandshake.LaunchIsMountedIff`).
- An unmount acknowledgement can be withdrawn before the wrapper reads it, because the announcement file
  still names the generation (`RootfsHandshake.UnmountAnswerMayBeWithdrawn`). It stays up to the helper's
  next reading of that announcement, and the third move of the helper after that reading takes it back
  (`RootfsHandshake.AcknowledgementStays`, `RootfsHandshake.RereadingTakesItBack`).
- The page offset of the claim view wraps in int64. Page 92233720368547760 of 100 lines makes the slice
  bound negative and the call panics; page 288230376151711745 of 64 lines shows the lines of page 1
  (`PvcView.WrappedOffsets`). A page is right exactly when its offset did not wrap, or wrapped to a place
  beyond the view (`PvcView.PageIsRightIff`).

## Model

| member | source | states |
|---|---|---|
| Store.DeletionIsAbsorbing | backend/internal/store/sandbox.go:327-495 | for any interleaving of the guarded worker statements, however stale their arguments: a row wanted deleted stays so, then stays terminating or deleted, `deleted` is final, and a set `deletion_started_at` never changes |
| Store.UnguardedWriteAbsorbsIff | backend/internal/store/sandbox.go:400-453 | exactly when an unguarded status write respects absorption |
| Store.ZombiesAreStuck | backend/internal/store/sandbox.go:300-453 | a completed row overwritten by a late write stays that way under every sequence of statements except that very row's deletion request, change of phase, completion or status write of `deleted`, and no pending, expiry or purge query selects it |
| Store.RowAfterKeepsStatic | backend/internal/store/sandbox.go:327-495 | no UPDATE changes a row's identity, storage settings, TTL or creation time |
| Store.RequestStartsOver | backend/internal/store/sandbox.go:327-341 | a request resets phase, level, attempts and clock of the deletion, due at once and not before, but keeps the instant of the first request; a deleted row ignores it |
| Store.CompletionEndsIt | backend/internal/store/sandbox.go:368-379 | a completed row is selected by neither worker again, and by the purge exactly from its retention on |
| Store.SelectionsAreDisjoint | backend/internal/store/sandbox.go:300-395 | no row is ever selected by two of deletion worker, TTL cleaner and purge, whatever their clocks, and what is due stays due |
| Store.SandboxStore.RequestDeletion | backend/internal/store/sandbox.go:327-341 | new table state; an accepted request on a row that is not deleted makes it due at once |
| Store.SandboxStore.Complete | backend/internal/store/sandbox.go:368-379 | new table state of a completion |
| Store.SandboxStore.ObservedIfActive | backend/internal/store/sandbox.go:479-495 | the guarded observation writes exactly live rows and reports whether it did |
| Store.SandboxStore.ListRows | backend/internal/store/sandbox.go:212-221 | every row once |
| Store.SandboxStore.PurgeHistory | backend/internal/store/sandbox.go:723-731 | removes exactly the finished rows older than the cutoff, all of them `deleted`, or fails and removes none |
| Cluster.Client.TakeSnapshot | backend/internal/k8s/persistent_runtime.go:515-557 | a snapshot shows the named Deployment and claim, exactly the labelled pods, and the volume and attachments behind the claim |
| Cluster.Client.ClearPvcFinalizers | backend/internal/k8s/persistent_runtime.go:429-445 | succeeds only past the provenance check; new cluster state |
| Cluster.Client.RemovePv | backend/internal/k8s/persistent_runtime.go:456-471 | succeeds only past the provenance check; new cluster state |
| Cluster.RefusedExactly | backend/internal/k8s/persistent_runtime.go:559-626 | exactly which objects the provenance checks refuse |
| Cluster.OneCallOneObject | backend/internal/k8s/persistent_runtime.go:389-513 | a refused call changes nothing; no call touches or creates any object but the one it names |
| Cluster.DeletionMarksWhatIsHeld | backend/internal/k8s/persistent_runtime.go:389-406 | deleting removes exactly what no finalizer holds, and marks the rest |
| Cluster.DeleteAndReleaseRemove | backend/internal/k8s/persistent_runtime.go:408-505 | deleting and releasing remove an object of one's own in either order, whatever its state |
| Backoff.RetryNeverLaterThanAMinute | backend/internal/service/sandbox_deletion.go:298-304 | for every attempt count the delay is at most 60 seconds |
| Backoff.RetryDoublesThenCaps | backend/internal/service/sandbox_deletion.go:298-304 | min(60 s, 10 s times 2 to the n) for 0 to 29 attempts |
| Backoff.RetryFirstWrapsAtThirty | backend/internal/service/sandbox_deletion.go:298-304 | the int64 product first overflows at 30 attempts, where the delay is negative |
| Backoff.RetryImmediateFromFiftyFour | backend/internal/service/sandbox_deletion.go:298-304 | the delay is 0 for every count from 54 on |
| Backoff.RetryIsDocumentedIff | backend/internal/service/sandbox_deletion.go:298-304 | the exact set of attempt counts with the documented delay; at every other count the retry is immediate |
| Deletion.AttemptStaysDueWithinAMinute | backend/internal/service/sandbox_deletion.go:61-70 | a counted attempt leaves the row selectable by the pending query within a minute, at once from 54 attempts |
| Deletion.DeletionService.ProcessSandbox | backend/internal/service/sandbox_deletion.go:61-109 | one pass performs a prefix of the plan for the cluster as found, all of it on success; without a snapshot only the attempt and its error are recorded |
| Deletion.DeletionService.QuiesceRuntime | backend/internal/service/sandbox_deletion.go:111-139 | performs exactly the quiescing decision |
| Deletion.DeletionService.DeleteVolume | backend/internal/service/sandbox_deletion.go:141-158 | performs exactly the storage decision |
| Deletion.DeletionService.ForceRuntime | backend/internal/service/sandbox_deletion.go:160-177 | level 0: force-deletes every listed pod in order, then releases a stuck Deployment, then bumps the level |
| Deletion.DeletionService.ForceClaim | backend/internal/service/sandbox_deletion.go:178-186 | level 1: releases the claim only if policy, runtime and threshold allow |
| Deletion.DeletionService.DropVolume | backend/internal/service/sandbox_deletion.go:222-237 | attachments first, then volume finalizers, then the volume; stops at the first refusal |
| Deletion.DeletionService.ForceStorage | backend/internal/service/sandbox_deletion.go:187-193 | level 2: detaches and removes the volume once the delay is over, then bumps the level |
| Deletion.DeletionService.VerifyGone | backend/internal/service/sandbox_deletion.go:199-220 | completes exactly when nothing is left, else goes to force cleanup |
| DeletionRuns.EscalationDiscipline | backend/internal/service/sandbox_deletion.go:160-220 | over every sequence of passes and views: phase graph, no early phase after force cleanup, level up by at most one per pass to at most 3, and no cluster call from level 3 on |
| DeletionRuns.TopLevelIsSilent | backend/internal/service/sandbox_deletion.go:195-220 | at level 3 a pass makes no cluster call and alternates force cleanup and verifying until nothing is left |
| DeletionRuns.EmptyPassLowersRank | backend/internal/service/sandbox_deletion.go:92-108 | a pass over an empty cluster lowers the rank by exactly one |
| DeletionRuns.EmptyClusterCompletes | backend/internal/service/sandbox_deletion.go:92-220 | from any phase, unknown ones included, completion after exactly rank (at most 5) passes and never before |
| DeletionTiming.QuiescingOutcome | backend/internal/service/sandbox_deletion.go:111-139 | a whole pass: when the runtime is deleted, and the exact conditions of force cleanup (pods left behind, 45 s after the request), of deleting storage and of checking |
| DeletionTiming.StorageOutcome | backend/internal/service/sandbox_deletion.go:141-158 | a whole pass: when the claim is deleted, when it is waited for, and force cleanup exactly for pods or 2 minutes after the request |
| DeletionTiming.PodsAreForced | backend/internal/service/sandbox_deletion.go:160-177 | level 0 forces every pod seen, in order, then releases a stuck Deployment |
| DeletionTiming.ClaimIsForced | backend/internal/service/sandbox_deletion.go:178-186 | level 1 releases the claim exactly if it is not retained, nothing runs and 5 minutes have passed |
| DeletionTiming.VolumeIsForced | backend/internal/service/sandbox_deletion.go:187-193 | level 2 detaches and removes the volume exactly if it is there and 15 minutes have passed |
| DeletionTiming.CheckingOutcome | backend/internal/service/sandbox_deletion.go:199-220 | checking completes exactly when nothing is seen, and else goes back to force cleanup, without a call |
| DeletionTiming.NoForceBeforeItsTime | backend/internal/service/sandbox_deletion.go:160-197 | over every run, broken off anywhere: no forceful call outside force cleanup, and none on claim or volume before its time since the request |
| DeletionTiming.NoEscalationBeforeItsTime | backend/internal/service/sandbox_deletion.go:111-158 | over every run, broken off anywhere: force cleanup is not entered before 45 s, respectively 2 minutes |
| DeletionTiming.StuckPodsAreForced | backend/internal/service/sandbox_deletion.go:126-177 | from 45 s on, two whole passes force-delete every pod that outlived its Deployment |
| DeletionFrame.PassTouchesOnlyItsOwn | backend/internal/service/sandbox_deletion.go:111-237 | an undisturbed pass, broken off anywhere, touches only the sandbox's Deployment, claim, named or labelled pods, the volumes claimed by its claim, and the attachments of the volume its claim names |
| DeletionFrame.OtherSandboxesUntouched | backend/internal/k8s/persistent_runtime.go:389-625 | in an undisturbed pass every other sandbox keeps Deployment, claim, pods and volumes, and its attachments unless the deleted claim is bound to its volume |
| DeletionFrame.OthersLoseAttachmentsIff | backend/internal/service/sandbox_deletion.go:187-237 | over every pass, broken off anywhere: another sandbox loses an attachment exactly when the record's claim is bound to its volume and the pass got to an attachment call of force level 2 past the delay |
| DeletionFrame.DetachedExactly | backend/internal/service/sandbox_deletion.go:222-237 | exactly which attachments of the whole cluster a pass deletes: those of its snapshot it got to, in that branch only |
| DeletionFrame.MisboundClaimLosesAttachments | backend/internal/service/sandbox_deletion.go:222-237 | a misbound claim costs the other sandbox all attachments of that volume before the provenance check refuses |
| DeletionFrame.PassSplits | backend/internal/service/sandbox_deletion.go:61-109 | the row view and the cluster view of a pass together are the pass on the world |
| DeletionLiveness.CooperativeDeletionCompletes | backend/internal/service/sandbox_deletion.go:61-220 | every cooperative deletion completes within the computed number of passes, due at each, never escalating |
| DeletionLiveness.RequestedDeletionCompletes | backend/internal/service/sandbox_deletion.go:265-296 | from `requested`: at most 6 passes for a persistent sandbox, 4 for an ordinary one |
| Startup.ClassifyIsExact | backend/internal/service/persistent_status.go:51-232 | on the pod's own fields, message texts, exit codes and waiting reasons: ready exactly when the pod runs and is ready; failed exactly when there is evidence and no readiness, always with a reason |
| Startup.PodFailureIsExact | backend/internal/service/persistent_status.go:129-189 | a pod failure is reported exactly for a failed phase or a failed container |
| Startup.FirstStorageEventCounts | backend/internal/service/persistent_status.go:67-117 | the reason is that of the first warning that reports lost storage, prefixed by its kind |
| Startup.FirstBrokenContainerCounts | backend/internal/service/persistent_status.go:168-189 | the reason is that of the first broken container |
| Startup.FirstConditionCounts | backend/internal/service/persistent_status.go:87-103 | the reason is that of the first failing condition |
| Startup.ReasonNamesTheKind | backend/internal/service/persistent_status.go:51-65 | the text of a failure tells storage and start apart, and storage evidence wins |
| Startup.WaitingNamesTheObstacle | backend/internal/service/persistent_status.go:191-220 | a pending startup names the first thing missing: claim, Deployment, pod, readiness |
| StartupMonitor.Monitor.Run | backend/internal/service/persistent_status.go:234-294 | the row is written at most once: by the first decisive poll, else as a failure at the deadline, explained by the last look or the last reason for waiting; a row on its way out stays as it is |
| StartupMonitor.MonitorWriteIsAbsorbed | backend/internal/service/persistent_status.go:315-332 | the monitor's write, however late, keeps deletion absorbing, changes only live rows, and leaves stopped time and deadline alone |
| StartupMonitor.ConclusionsAreJustified | backend/internal/service/persistent_status.go:248-260 | `running` is concluded exactly of a pod that runs and is ready, `failed` exactly on evidence, with a reason |
| StartupMonitor.DeadlineIsFailure | backend/internal/service/persistent_status.go:267-290 | at the deadline always `failed`, explained by the last look, or without one by the last reason for waiting |
| StartupMonitor.LateReadinessIsFailure | backend/internal/service/persistent_status.go:209-290 | a pod that is ready only at the deadline, whatever the polls before it, leaves a failed row with that pod's fields; the reason is the bare time-out exactly when claim and Deployment are in place |
| Reconcile.ReconcileIsIdempotent | backend/internal/service/sandbox_reconcile.go:88-190 | a second pass leaves desired state, status, reason, pod fields and stopped time of every row as the first left them, at any two clocks that do not straddle the grace period |
| Reconcile.ReconcileIsIdempotentIff | backend/internal/service/sandbox_reconcile.go:119-158 | over all rows, views and pairs of clocks: exactly when a second pass changes something |
| Reconcile.CrossingMakesLost | backend/internal/service/sandbox_reconcile.go:247-258 | what it then changes: the row is declared lost, for the reason of its kind, and nothing else |
| Reconcile.PassFollowsEvidence | backend/internal/service/sandbox_reconcile.go:276-371 | the pass over a snapshot: running exactly for a ready pod, failed exactly on evidence or an earlier failure without readiness, pending otherwise |
| Reconcile.StoppedIdempotent | backend/internal/service/sandbox_reconcile.go:387-472 | the stopped branch settles in one pass whether or not the leftover pod is still visible |
| Reconcile.StoppedResult | backend/internal/service/sandbox_reconcile.go:387-472 | the row content a stopped sandbox is left with |
| Reconcile.StartupIdempotent | backend/internal/service/sandbox_reconcile.go:276-371 | the startup branch settles in one pass and never makes a row stopped |
| Reconcile.OrdinaryPassAgrees | backend/internal/service/sandbox_reconcile.go:160-190 | an ordinary row drifts exactly when it disagrees with its pod, and one pass makes it agree |
| Reconcile.MissingOutcome | backend/internal/service/sandbox_reconcile.go:119-158 | a row without objects ends deleted if it was terminating, lost after the grace period, unchanged otherwise |
| Reconcile.StartupPassAgrees | backend/internal/service/sandbox_reconcile.go:276-371 | a persistent row with a pod drifts exactly when it differs from what the verdict and the pod say, and one pass makes it say that |
| Reconcile.RemedyKeepsIdentity | backend/internal/service/sandbox_reconcile.go:88-190 | no remedy changes a row's identity or storage settings |
| ReconcileOutcome.LostExactlyAfterGrace | backend/internal/service/sandbox_reconcile.go:119-158 | a vanished row is lost exactly from 600 seconds after it was last seen, or created, and untouched before |
| ReconcileOutcome.VanishedOutcome | backend/internal/service/sandbox_reconcile.go:231-245 | a vanished row that was terminating is recorded as deleted; stopped and deleted ones are left alone |
| ReconcileOutcome.OrdinaryOutcome | backend/internal/service/sandbox_reconcile.go:160-190 | an ordinary row takes fields and status from its last listed pod, mark before phase |
| ReconcileOutcome.AsleepOutcome | backend/internal/service/sandbox_reconcile.go:374-472 | a sandbox scaled to zero that remembers its stop stays stopped, keeps or gets its instant, and loses a leftover pod |
| ReconcileOutcome.AwakeOutcome | backend/internal/service/sandbox_reconcile.go:276-371 | any other persistent row: running exactly for a ready pod, failed exactly on evidence or an earlier failure, else pending |
| ReconcileOutcome.FixedAwakeRowsStayFixedIff | backend/internal/service/sandbox_reconcile.go:335-368 | a second look finds a fixed row in order, except exactly for leftover pod fields of a sandbox that waits for its pod, which are counted as fixed at every pass and never cleared |
| ReconcileOutcome.DepartingOutcome | backend/internal/service/sandbox_reconcile.go:489-561 | rows wanted deleted are never written, and drift as long as anything is left |
| ReconcileOutcome.UnfixedIsUntouched | backend/internal/service/sandbox_reconcile.go:85-190 | only drifted rows are fixed, and a row not fixed is untouched, as is the cluster |
| ReconcileRun.ReconcileService.Run | backend/internal/service/sandbox_reconcile.go:50-215 | fixed <= drift <= rows + orphans; orphans are exactly the labelled ids without a row on a stable view; on a reliable run every row is its specified result, the counters are exact, and exactly the leftover pods are marked |
| ReconcileRun.ReconcileService.Sweep | backend/internal/service/sandbox_reconcile.go:88-190 | the row loop: counters, index of unclaimed pods and table agree with a log of per-row results |
| ReconcileRun.ReconcileService.HandleStopped | backend/internal/service/sandbox_reconcile.go:387-472 | performs the stopped remedy, stopping at the first error |
| ReconcileRun.ReconcileService.HandleStartup | backend/internal/service/sandbox_reconcile.go:276-371 | performs the startup remedy |
| ReconcileRun.ReconcileService.HandleMissing | backend/internal/service/sandbox_reconcile.go:119-158 | performs the remedy for a row whose objects are gone |
| ReconcileRun.BuildPodMap | backend/internal/service/sandbox_reconcile.go:76-83 | the loop builds the index of labelled pods |
| ReconcileRun.PodIndexFindsLast | backend/internal/service/sandbox_reconcile.go:76-83 | the index holds exactly the labelled ids, each with its last listed pod |
| ReconcileRun.CrossedOff | backend/internal/service/sandbox_reconcile.go:191-202 | on a stable view what remains in the index is exactly the orphans |
| ReconcileRun.CorrectLogCounts | backend/internal/service/sandbox_reconcile.go:85-190 | the counters equal the number of rows that drift, respectively get fixed |
| ReconcileRun.ReconcileTouchesOnlyItsOwn | backend/internal/service/sandbox_reconcile.go:405-433 | reconciling a row touches only that sandbox's own pods; all others keep everything |
| SandboxApi.ExpiryIsExactIff | backend/internal/service/sandbox.go:905-910 | the expiry is creation plus TTL exactly when the TTL fits an int64 duration |
| SandboxApi.DeleteIgnoresZombies | backend/internal/service/sandbox.go:493-508 | a delete call does nothing for a completed row that was overwritten |
| SandboxApi.ChosenPodIsBest | backend/internal/k8s/persistent_runtime.go:60-102 | a ready running pod that is not on its way out is preferred, the youngest of several |
| SandboxApi.SandboxService.Stop | backend/internal/service/sandbox.go:564-596 | guard order, error kinds; on success the Deployment has no replica and is otherwise as before, as is everything else, and the row says stopped since now; a failed write leaves the row |
| SandboxApi.SandboxService.Start | backend/internal/service/sandbox.go:598-631 | guard order, error kinds; on success one replica, and the deadline moved by the stopped time |
| SandboxApi.SandboxService.Restart | backend/internal/service/sandbox.go:530-562 | guard order; marks at most the sandbox's own current pod |
| SandboxApi.SandboxService.FindPod | backend/internal/k8s/persistent_runtime.go:52-102 | the pod named after the sandbox, else a best labelled one by priority and age |
| SandboxApi.SandboxService.Delete | backend/internal/service/sandbox.go:493-528 | idempotent; requests deletion exactly for rows not already on their way out |
| SandboxApi.SandboxService.CleanExpired | backend/internal/service/sandbox.go:823-841 | requests deletion of exactly the rows that are wanted, neither stopped nor on their way out, and whose TTL ran out |
| Ttl.TtlConservation | backend/internal/service/sandbox.go:598-631 | over every run of Stop, Start, Restart, reconcile passes and monitor writes: deadline = creation + TTL + completed stopped time - time forgotten by repeated stops; nothing is forgotten exactly when no accepted Stop found one running |
| Ttl.CallsFollowTheLedger | backend/internal/service/sandbox.go:530-631 | Stop, Start and Restart do to table and cluster what the ledger's steps do to row and replica count, and nothing when refused |
| Ttl.StoppedSaysSo | backend/internal/service/sandbox_reconcile.go:374-472 | without monitor writes a stopped sandbox always says so and no time is forgotten |
| Ttl.ExpiresExactlyOnUptime | backend/internal/store/sandbox.go:300-313 | the cleaner selects a non-stopped live sandbox exactly when its time with a replica has reached the TTL |
| Ttl.LateMonitorForgetsAnHour | backend/internal/service/persistent_status.go:248-255 | a concrete run in which a late monitor write costs an hour of the deadline |
| SystemCore.StepKeepsCore | backend/cmd/server/main.go:159-189 | every step of every worker keeps: rows match what was inserted, names are derived, queued statements are for their sandbox and queued calls aimed at it, and deletions spare retained claims |
| SystemCore.RetainSafety | backend/internal/service/sandbox_deletion.go:239-252 | in every run without exception: after Create no step but the cluster's own changes the claim of a retained sandbox |
| SystemCore.WorkersSpareOthers | backend/internal/k8s/persistent_runtime.go:389-625 | in every run, however stale the worker's reads: a call made for one sandbox leaves every other sandbox's row, Deployment, claim, pods and volumes alone |
| SystemSafety.LeakFreedom | backend/internal/service/sandbox_deletion.go:199-220 | in every interleaving of statements, calls and reads, also after a purge: when the table says that a sandbox is gone, it has no Deployment, no pod and, unless retained, no claim, provided that no worker about to record this sandbox as deleted found no Deployment or pods of it during its Create call |
| SystemRace.EveryHasteCanLeak | backend/internal/service/sandbox.go:212-300 | that condition excludes nothing harmless: from every reachable state, every such read can be followed by steps after which the sandbox is said to be gone and its Deployment or pod is there |
| SystemSafety.StepKeepsInv | backend/cmd/server/main.go:159-189 | every step of every worker, except such a read of this very sandbox, keeps the invariant of leak freedom |
| SystemSafety.DeletionIsHonest | backend/internal/service/sandbox_deletion.go:199-242 | what a deletion worker decides from its reads claims nothing that is not still true, and spares retained claims |
| SystemSafety.ReconcileIsHonest | backend/internal/service/sandbox_reconcile.go:231-244 | the reconciler records a sandbox as deleted only when nothing of it is left |
| SystemSafety.GoneStays | backend/internal/store/sandbox.go:723-731 | absence is stable under everything the cluster and the workers do |
| SystemRace.OvertakenCreateLeaks | backend/internal/service/sandbox.go:212-300 | a reachable state, step by step: a deletion that overtakes Create completes over a truly empty cluster, the Deployment made next leaks, and the row ends completed and not `deleted` |
| SystemRace.ZombiesStayForever | backend/internal/store/sandbox.go:300-395 | in every continuation of every run such a row, once no call for it is under way, stays so, is selected by no pending, expiry or purge query, is ignored by delete calls, and no worker makes a call for it |
| SystemConsent.NothingIsDeletedUnasked | backend/internal/service/sandbox.go:493-528 | in every run: until a delete call or the TTL cleaner asked for it, no pending query selects the sandbox, and no worker's call for it touches any Deployment, claim, volume or attachment or removes a pod by force |
| Templates.HistoryIsContiguous | backend/internal/store/template.go:257-332 | in every race each live template's versions are exactly 1 to latest |
| Templates.VersionsAreImmutable | backend/internal/store/template.go:350-373 | a stored version never changes while its template lives, and a gone template id stays gone |
| Templates.UpdateAddsOneVersion | backend/internal/store/template.go:257-332 | an update changes nothing or, based on the current row, adds exactly the next version; no concurrent change is lost |
| Templates.RollbackRestoresTarget | backend/internal/store/template.go:435-501 | a rollback changes nothing or adds exactly one version whose specification is the stored target's |
| Templates.LaterUpdateWins | backend/internal/store/template.go:257-290 | of two updates the later wins where it names a field, the earlier where only it does, and what neither names stays |
| Templates.RollbackNoteNamesTarget | backend/internal/store/template.go:435-501 | a rollback without a note is noted with the target's number, readable back |
| Templates.CommitWinsIffFirst | backend/internal/store/sqlite.go:71-83 | a commit goes through exactly when the template lives and nobody committed since the read |
| Templates.TemplateStore.Create | backend/internal/store/template.go:30-103 | template and first version, or neither; exact success condition |
| Templates.TemplateStore.Update | backend/internal/store/template.go:257-332 | exact success condition and new tables of an undisturbed update |
| Templates.TemplateStore.Rollback | backend/internal/store/template.go:435-501 | exact success condition and new tables of an undisturbed rollback |
| Templates.TemplateStore.Write | backend/internal/store/template.go:291-326 | UPDATE then INSERT, rolled back when a constraint fails |
| Templates.TemplateStore.GetVersionByName | backend/internal/store/template.go:376-386 | found exactly for versions 1 to latest of a template of that name |
| Templates.TemplateStore.Delete | backend/internal/store/template.go:335-347 | removes the template with its versions, or reports that there is none |
| NetworkPolicy.PolicyNameRoundTrip | backend/internal/k8s/network_policy.go:392-406 | printing and parsing policy names are inverse |
| NetworkPolicy.Reconciler.RunOnce | backend/internal/service/network_policy_reconciler.go:37-123 | without failures a sandbox has a policy exactly if it is wanted, not over, and its template version allows the internet with domains, and then one rule per domain with its text; unmanaged policies are untouched; with failures no entitled sandbox loses its policy |
| NetworkPolicy.PolicyForPermits | backend/internal/k8s/network_policy.go:408-440 | the policy of a list of domains is determined by: one rule each, in order, a pattern exactly for a star and a dot |
| NetworkPolicy.Reconciler.RemoveOthers | backend/internal/service/network_policy_reconciler.go:78-111 | the cleanup loop deletes nothing that should exist |
| NetworkPolicy.Reconciler.ApplyPolicy | backend/internal/k8s/network_policy.go:344-361 | creates or replaces exactly one policy |
| NetworkPolicy.Reconciler.Lookup | backend/internal/service/network_policy_reconciler.go:125-145 | a successful lookup is the specified entitlement |
| NetworkPolicy.ConvergenceIsStable | backend/internal/service/network_policy_reconciler.go:37-123 | a second run over the same rows changes nothing |
| PvcView.ListMappings | backend/internal/service/sandbox_pvc.go:13-122 | the requested page of the filtered, name-sorted outer join; unknown states are refused; clamped page and size |
| PvcView.DbMapHoldsNewest | backend/internal/service/sandbox_pvc.go:124-152 | per claim the first of the most recently updated relevant rows |
| PvcView.ViewIsExact | backend/internal/service/sandbox_pvc.go:52-98 | exactly the lines that pass the filters, each once, by ascending claim name |
| PvcView.LineTells | backend/internal/service/sandbox_pvc.go:56-85 | state and source of a line by which sides know the claim; the row gives the sandbox, the cluster its facts |
| PvcView.LessIsLexicographic | backend/internal/service/sandbox_pvc.go:46-50 | the order of names is the lexicographic one |
| PvcView.SortedNamesAreUnique | backend/internal/service/sandbox_pvc.go:46-50 | the sorted enumeration is determined by the set of names |
| PvcView.SortNames | backend/internal/service/sandbox_pvc.go:46-50 | sorts the names |
| PvcView.PagesConcatenate | backend/internal/service/sandbox_pvc.go:100-121 | the pages one after the other are the whole view |
| PvcView.PageIsRightIff | backend/internal/service/sandbox_pvc.go:101-111 | a page is the right slice exactly when its offset did not wrap, or wrapped to or beyond the end of the view; every page up to 92233720368547758 is right |
| PvcView.WrappedOffsets | backend/internal/service/sandbox_pvc.go:101-111 | page numbers at which the call panics, respectively shows page 1 instead |
| Domains.NormalizeAllowedDomains | backend/internal/service/template.go:112-144 | rejects exactly the lists with an unacceptable value, else gives the distinct canonical values |
| Domains.NormalizationIsIdempotent | backend/internal/service/template.go:112-144 | normalising twice changes nothing; the result is duplicate-free and valid |
| Domains.NormalizedExactly | backend/internal/service/template.go:112-144 | a list is rejected exactly if a canonical value is neither a host name nor a wildcard before one; else the result holds exactly the canonical values |
| Domains.AcceptedExactly | backend/internal/service/template.go:112-144 | schemes, ports, paths and further stars need no rule of their own: host names exclude them |
| Domains.DistinctIsFirstOccurrences | backend/internal/service/template.go:136-142 | nothing lost or invented, no duplicates, order of first occurrence |
| Domains.ValidDomainsAreHostNames | backend/internal/service/template.go:146-173 | the check accepts exactly the host names of section 2.3.4 of RFC 1035 with leading digits as in section 2.1 of RFC 1123, labels told by their first, last and inner characters |
| Domains.SplitThenJoin | backend/internal/service/template.go:150-155 | splitting at dots loses nothing |
| Domains.JoinThenSplit | backend/internal/service/template.go:150-155 | labels are recovered by splitting |
| ExecSession.StreamIsFaithful | sdk/go/exec_session.go:45-122 | in every interleaving the bytes read are a prefix of the transcript, and all of it at end of file without Close |
| ExecSession.NoLostWakeUp | sdk/go/exec_session.go:94-122 | a blocked reader with data buffered is woken by the goroutine's next step, and is never left alone |
| ExecSession.ExitCodeIsFaithful | sdk/go/exec_session.go:64-89 | once the session is over `Wait` answers the code of the message that ended it, or zero if it was closed locally |
| ExecSession.FlagsHaveCauses | sdk/go/exec_session.go:45-122 | closed exactly after Close, over exactly after the goroutine returned, a token only after a signal, end of file only after one of the first two |
| ExecSession.ReadEnds | sdk/go/exec_session.go:94-122 | every Read of a session that is over or closed ends, with what fits of the buffer, or with end of file exactly if it is empty |
| ExecSession.GoroutineFinishes | sdk/go/exec_session.go:45-91 | the goroutine always has a step and only finitely many |
| RootfsHandshake.LaunchIsMounted | backend/internal/k8s/persistent_runtime.go:720-800 | whatever dies and restarts, an unsignalled wrapper launches into its own mounted overlay |
| RootfsHandshake.LaunchIsMountedIff | backend/internal/k8s/persistent_runtime.go:720-860 | signals or not: every launch comes after a mount of that generation, and the overlay is missing exactly when the helper's last move on it was an unmount, which takes a TERM |
| RootfsHandshake.UnmountedFileIsTrue | backend/internal/k8s/persistent_runtime.go:837-860 | an unmount acknowledgement is never premature or stale |
| RootfsHandshake.TermBeforeLaunchBreaksIt | backend/internal/k8s/persistent_runtime.go:740-787 | a reachable state in which a TERM before launch leads to a launch without the overlay |
| RootfsHandshake.UnmountAnswerMayBeWithdrawn | backend/internal/k8s/persistent_runtime.go:923-940 | a reachable state in which the acknowledgement is taken back before the wrapper saw it |
| RootfsHandshake.FileSurvivesIff | backend/internal/k8s/persistent_runtime.go:855-861 | exactly which steps remove an acknowledgement |
| RootfsHandshake.AcknowledgementStays | backend/internal/k8s/persistent_runtime.go:837-860 | in every run an acknowledgement stays, and stays true, up to the helper's next reading of an announcement of that generation |
| RootfsHandshake.RereadingTakesItBack | backend/internal/k8s/persistent_runtime.go:855-931 | that reading takes it back: it is there for exactly two more moves of the helper and gone with the third, unless the helper dies |
| RootfsHandshake.HelperStopsAfterTerm | backend/internal/k8s/persistent_runtime.go:911-965 | after a TERM the helper is gone within sixteen moves of its own, in every run |
| RootfsHandshake.HelperHasAMove | backend/internal/k8s/persistent_runtime.go:837-965 | the helper is never stuck, whatever the wrapper does |

## Left out

- SystemSafety.LeakFreedom: assumes that no worker was hasty about this very sandbox (`System.Hasty`); without that it is false of the code, see SystemRace.EveryHasteCanLeak and SystemRace.OvertakenCreateLeaks.
- DeletionFrame.PassTouchesOnlyItsOwn: the calls of the pass act on the cluster its snapshot was taken in; SystemCore.WorkersSpareOthers is the frame when the cluster changes in between.
- DeletionFrame.OtherSandboxesUntouched: as above.
- SystemCore.WorkersSpareOthers: says nothing about attachments, which carry no owner; which of them a pass deletes is DeletionFrame.DetachedExactly.
- DeletionLiveness.RequestedDeletionCompletes: the hypotheses about the cluster are needed, since the code escalates levels without waiting for their thresholds and can then verify forever.
- ExecSession: modelled on values as a state machine, since the source synchronises goroutines through channels; the websocket itself, stdin and resizing are left out.
- RootfsHandshake: modelled on values, one step per file or mount operation; the bind mounts inside the overlay are one step.
- Templates: description filters, listing and pagination of templates, and spec defaults.
- Startup monitor: the ticker and the deadline clock; the polls that happened before the deadline are a parameter.
- Deletion worker: the order in which one batch of pending records is processed.
- Reads of the storage part of a deletion snapshot (claim, volume, attachments) are one step in System; Deployment and pods are separate earlier steps, which is what leak freedom rests on.
- ReplicaSets and garbage collection: a Deployment's pods appear and vanish as steps of the cluster.
- Status history, reconcile items, logs and metrics: nothing reads them back.
- Non-ASCII lower-casing beyond the two characters that map to ASCII letters, since no rule tells other results apart.
- `UpdatedAt` of records held in memory between statements; only the stored column matters.
- The early exit of the policy reconciler when no dynamic client is configured.
- Building of pod, Deployment and policy manifests beyond the fields that later decisions read.
- HTTP handlers, authentication, gateway proxy, installer, prepull, CLI, web UI and the Python SDK.
