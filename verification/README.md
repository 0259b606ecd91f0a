# litestream-operator: a verified model

The operator keeps SQLite databases in Kubernetes replicated to S3 by Litestream. It injects a sidecar into
application pods and can restore a database *in place*: it locks the source, pauses replication, scales the
application to zero, waits for its pods to go, runs a restore Job on the volume, and undoes all of it. This project
models that protocol and the path, text, injection and status logic it rests on, and proves what they promise.

`dafny verify dfyconfig.toml` checks the whole project.

## Layout

| module | what it holds |
|---|---|
| `ApiTypes`, `Text`, `Paths` | the API objects, strings and lines, slash-separated paths |
| `LitestreamConfig` | the litestream.yml renderer, a decoder, the round trip |
| `SpecHash` | the text that is hashed to trigger rollouts, a decoder, exactly which specs share a text |
| `Mounts` | the two longest-prefix mount searches, as loops, and their agreement |
| `Injection` | the admission webhook as an object that changes a pod in place; idempotence, framing, hash coverage |
| `SameFile` | mount tables; when sidecar, init containers and restore Job reach the application's file |
| `Startup` | the init-container scripts over any number of attempts |
| `Conditions`, `SidecarHealth`, `ReplicaStatus` | the status of a LitestreamReplica over any sequence of passes |
| `RestoreProtocol` | the restore protocol as a state machine, one API call per step |
| `RestoreSafety` | its joint invariant over lease, phase, Job, workload and the pass in flight |
| `RestoreTheorems` | the safety promises over every run |
| `RestoreFence` | how a Job can come to be created without the pause, exactly |
| `RestoreLeases` | leases that outlive their restore, and who starves on them |
| `RestoreRecovery` | crash recovery |
| `RestorePasses`, `RestoreLaws` | what one complete pass does, phase by phase, and written out on the objects |
| `RestoreProgress`, `FairSchedules`, `RestoreLiveness` | progress under fair schedules, and exactly when there is none |
| `RestoreScenarios`, `RestoreCounts` | runs of whole passes; when the application gets its replica count back |
| `RestoreReconciler` | the controller's handlers, imperative and early-returning, proved against the state machine |
| `TornRelease` | what happens when a lock release and the write after it come apart |

## How the protocol is modelled

A pass of the restore controller is kept in flight as a program counter (`Pc`), so every other actor may step between
any two of its calls: the replica controller, the workload's pods coming and going, Jobs reporting conditions, users
creating and deleting restores, sources, ConfigMaps and (unlocked) workloads. Any call may fail, and the process may
die at any point. `Next` is one step of anybody; `IsRun` is a run from a state without leases and Jobs. Where a failing
input is a longer story it is told as `Reaches`, a path of allowed steps; `RestoreScenarios.ReachedInRun` turns a path
from an initial state into a run.

Assumptions on runs (`Allowed`, `Initial` and the shape of `World`):

- A lock release and the status or finalizer write after it take effect together (restore controller, lines 602 and
  615, 631 and 644, 167 and 189). `TornRelease` shows that this is needed and what exactly is lost without it.
- While a source's lease is held, only the operator changes that source's workload or the lease.
- Distinct sources target distinct workloads; restore specs do not change.
- Removing a restore object removes the Job, ConfigMap and Lease it owns.
- A workload that wants no pods gets none; a decided Job keeps its verdict.
- `running` is both the `status.replicas` the controller reads and the number of pods that exist. A terminating pod that
  `status.replicas` no longer counts is outside the model, so "no pod runs" is as good as that status field.
- Reads are current: a read and the decision taken on it are one step.
- One restore pass is in flight at a time, as with the controller's single worker, and no restore starts in the legacy
  Validating phase.

Two best-effort calls whose errors the controller ignores (deleting its lease and clearing the pause flag in a cleanup)
are part of the step that writes the outcome, each with its own success flag.

## Where the code falls short of what it says

Each of these is kept as the code has it, shown on an input, and bounded by an exact condition.

- **Release and commit are two writes.** A torn release by a restore that still needs its lock loses the guard
  (`TornRelease.GuardLostIffTorn`), and leads from an initial state to two Jobs on one volume
  (`TornRelease.TornReleaseTwoWriters`).
- **The replica count is recorded before the lock is taken.** What comes back is the application's count exactly when
  it still was the recorded one while the restore waited for the lock (`RestoreCounts.CountBackIff`). Overlapping
  restores leave the application at 0 (`RestoreCounts.OverlapLost`), and a rescale before the lock is lost
  (`RestoreCounts.RescaleLost`).
- **ConfigMap names can collide.** A restore named like its source, or whose source's ConfigMap name is taken by a
  restore, scales the application down or waits for the pause and never gets further; otherwise an uncontended restore
  always comes to its end (`RestoreLiveness.ProgressIff`, `RestoreLiveness.SharedNameStuck`,
  `RestoreLiveness.ForeignConfigStuck`).
- **failRestore keeps the lock.** A restore that ends this way holds its lease (`RestoreLeases.LeakIff`,
  `RestoreLeases.FailsWithLock`), and until it is deleted every other restore of the source waits in vain
  (`RestoreLeases.StarvedForGood`).
- **The pause is read once.** A Job is created without it exactly when a user took it away after the pass had read it
  (`RestoreFence.PausedAtCreationIff`, `RestoreFence.UnpausedUnderPass`).
- **The Job mounts the volume at the directory of the file**, not where the application mounts it. It writes the
  application's file only if that directory is itself the mount (`SameFile.JobWritesDatabaseIff`,
  `SameFile.JobMissesDatabase`).
- **The mount searches compare text.** They find the mount that serves the database exactly when its path is clean
  (`SameFile.SearchFindsServerIff`, `SameFile.SearchMissesServer`).
- **The hash is said to cover every field that affects injected containers.** It does not cover the sidecar's resources,
  the bootstrap image or the container selection (`Injection.SameInjectionIff`, `Injection.HashMissesResources`).
- **The hashed text is ambiguous** when bootstrap SQL ends in a line that reads like a run-as line
  (`SpecHash.EqualTextIff`, `SpecHash.ReadBackIff`, `SpecHash.AmbiguousCollides`).
- **Manual recovery is said to block start-up beside an unread archive.** No such container is injected; start-up is safe
  exactly with backup enabled and automatic recovery (`Startup.StartupSafeIff`).
- **The Ready condition goes stale** when the replica-count or rollout guard cuts a pass short
  (`ReplicaStatus.MirrorsIff`, `ReplicaStatus.StaleReady`).

## Model

| member | source | states |
|---|---|---|
| `RestoreSafety.StepKeeps` | internal/controller/litestreamrestore_controller.go:72-646 | every step of any actor, with any call failing, keeps the joint invariant of lease holders, phases, Jobs, workload counts, ConfigMaps and the pass in flight |
| `RestoreSafety.RunInv` | internal/controller/litestreamrestore_controller.go:72-646 | the joint invariant holds in every state of every run, for any number of restores, creations and deletions |
| `RestoreTheorems.SingleWriter` | internal/controller/litestreamrestore_controller.go:342-618 | in every reachable state, a running InPlace Job implies that its restore holds the lease and the application wants no pod and has none |
| `RestoreTheorems.OneJobPerSource` | internal/controller/litestreamrestore_controller.go:342-505 | two InPlace Jobs of one source never run at the same time |
| `RestoreTheorems.LockExclusive` | internal/controller/litestreamrestore_controller.go:342-422 | an InPlace restore in Fencing, Restoring or Resuming is the recorded lease holder, so there is at most one per source |
| `RestoreTheorems.LeaseKept` | internal/controller/litestreamrestore_controller.go:677-689 | a lease vanishes or changes hands only in a concluding or finalizing call of its own holder |
| `RestoreTheorems.GatedScaleUp` | internal/controller/litestreamrestore_controller.go:564-618 | besides a user's write to an unlocked workload, the only step that raises a desired count is the scale-up of a Resuming pass that holds the lease and whose own Job reached Complete |
| `RestoreTheorems.CountWrittenOnce` | internal/controller/litestreamrestore_controller.go:916-918 | a recorded originalReplicas is never changed by any step |
| `RestoreTheorems.CompletedByConclude` | internal/controller/litestreamrestore_controller.go:600-617 | an InPlace restore becomes Completed only from Resuming, in the concluding call of its own pass, which leaves workloads alone |
| `RestoreTheorems.CountConserved` | internal/controller/litestreamrestore_controller.go:584-617 | on completion with the workload present and readable, the desired count equals the recorded one, 0 included |
| `RestoreTheorems.CountConservedOverRun` | internal/controller/litestreamrestore_controller.go:318-336 | over any run, the count recorded at some point is the desired count when the restore completes later |
| `RestoreTheorems.CountUnderLock` | internal/controller/litestreamrestore_controller.go:318-336 | what a pass records while another restore has the lock is 0 exactly when the application is scaled down: always in its Restoring, until the scale-up in its Resuming |
| `RestoreCounts.CountBackIff` | internal/controller/litestreamrestore_controller.go:318-336 | over any run, the desired count after completion is the one found in AcquiringLock exactly when that one was the recorded one |
| `RestoreCounts.OverlapLost` | internal/controller/litestreamrestore_controller.go:318-336 | from any initial state with two fresh restores of one application there is a run after which the second is Completed and the application wants 0 pods |
| `RestoreCounts.RescaleLost` | internal/controller/litestreamrestore_controller.go:318-336 | from any initial state there is a run in which a user rescales to any m before the lock and the old count is back on completion |
| `RestoreTheorems.FencedAtCreation` | internal/controller/litestreamrestore_controller.go:430-495 | an InPlace Job is created only by its own pass, with lease held and application fenced, and with the pause set and mirrored unless a user has taken just that away since the pass read it |
| `RestoreFence.PausedAtCreationIff` | internal/controller/litestreamrestore_controller.go:430-495 | over any run, from the gate of Fencing to Job creation, the pause is in place at creation exactly when no user write took it away in between for good |
| `RestoreFence.UnpausedUnderPass` | internal/controller/litestreamrestore_controller.go:486-495 | the flag cleared just before the call, the Job is created all the same |
| `RestoreTheorems.HandshakeKept` | internal/controller/litestreamreplica_controller.go:143-170 | a pass of the replica controller, for any source, never undoes "flag set and ConfigMap paused" |
| `RestoreTheorems.MirrorIsExact` | internal/controller/litestreamreplica_controller.go:143-176 | after a replica pass the ConfigMap reads as paused exactly when the flag was set |
| `RestoreTheorems.ToPVCLeavesAlone` | internal/controller/litestreamrestore_controller.go:291-316 | no call of a ToPVC restore's pass, cleanup and finalization included, writes a lease, a pause flag or a workload |
| `RestoreTheorems.ToPVCPhases` | internal/controller/litestreamrestore_controller.go:346-350 | AcquiringLock, Fencing and Resuming are unreachable for a ToPVC restore |
| `RestoreTheorems.PhaseOrder` | internal/controller/litestreamrestore_controller.go:93-151 | no step lowers the phase rank, Failed is final, Completed is left only for Failed by a pass that found the source gone, be it put back since |
| `RestoreTheorems.BoundedPhaseChanges` | internal/controller/litestreamrestore_controller.go:894-926 | over any stretch of a run the phase of a restore changes at most seven times |
| `RestoreLeases.LeakIff` | internal/controller/litestreamrestore_controller.go:894-899 | an InPlace restore that ends keeps its lease exactly when it held it and ended by a plain failRestore or the best-effort deletion failed |
| `RestoreLeases.FailsWithLock` | internal/controller/litestreamrestore_controller.go:93-125 | with source or backup gone, a pass over a restore that holds the lock makes it Failed and leaves it the lock |
| `RestoreLeases.StarvedForGood` | internal/controller/litestreamrestore_controller.go:390-405 | over any stretch of a run in which that restore is not deleted, a restore waiting for the lock stays in AcquiringLock or becomes Failed |
| `RestoreRecovery.OneCut` | internal/controller/litestreamrestore_controller.go:156-193 | a pass cut at any call, in the middle of a cleanup included, then a complete pass, leaves the world of one complete pass |
| `RestoreRecovery.CrashRecovery` | internal/controller/litestreamrestore_controller.go:270-646 | any number of passes, each cut after an arbitrary call, followed by a complete one, leave the same world as one uncut pass |
| `RestoreLaws.VerdictIff` | internal/controller/litestreamrestore_controller.go:520-556 | a Job has succeeded, failed or neither exactly as its first True condition of kind Complete or Failed says, by index |
| `RestoreLaws.FailedJobFences` | internal/controller/litestreamrestore_controller.go:543-552 | an InPlace restore in Restoring whose Job failed is Failed after one pass, with the lock free, replication resumed and every workload as it was |
| `RestoreLaws.MissingJobFences` | internal/controller/litestreamrestore_controller.go:513-518 | so is one whose Job is gone |
| `RestoreLaws.CompletedJobResumes` | internal/controller/litestreamrestore_controller.go:520-541 | one whose Job completed is in Resuming after one pass, and nothing else has changed |
| `RestoreLaws.RunningJobWaits` | internal/controller/litestreamrestore_controller.go:558-559 | while the Job is undecided a pass changes nothing |
| `RestoreLaws.DeletedInPlace` | internal/controller/litestreamrestore_controller.go:156-193 | deleting an InPlace restore removes it, its Job, its ConfigMap and its own lease, scales nothing, and leaves the pause on exactly when it was on and the phase was Fencing, Restoring or Validating |
| `RestoreLaws.DeletedElsewise` | internal/controller/litestreamrestore_controller.go:156-193 | deleting a ToPVC restore, or one whose source is gone, touches no source |
| `RestoreLaws.PendingResolves` | internal/controller/litestreamrestore_controller.go:270-337 | a Pending InPlace restore gets the claim behind the longest covering mount of the chosen container, the file databasePath/databaseName and the mount's subPath, and the workload's count, 1 when unset |
| `RestoreLaws.PendingFails` | internal/controller/litestreamrestore_controller.go:274-278 | without workload, container, covering mount or claim it fails and nothing else is written |
| `RestoreLaws.UnreadableFails` | internal/controller/litestreamrestore_controller.go:319-330 | a workload that cannot be read at either read of Pending fails the restore, and no count is recorded |
| `RestoreLaws.UnreadableAtGate` | internal/controller/litestreamrestore_controller.go:452-457 | a workload that cannot be read at the gate fails the restore, which keeps the lock |
| `RestoreLaws.UnreadableAtScaleUp` | internal/controller/litestreamrestore_controller.go:589-617 | a workload that cannot be read at scale-up is passed over: Completed, lock free, nothing scaled |
| `RestoreLaws.SkippedOnlyUnreadable` | internal/controller/litestreamrestore_controller.go:589-598 | no other call leads to a completion without scale-up |
| `RestoreLaws.SourceVanished` | internal/controller/litestreamrestore_controller.go:649-674 | with the source deleted under the pass, setting or clearing its flag ends the pass and changes nothing |
| `RestoreLaws.LeaseTaken` | internal/controller/litestreamrestore_controller.go:381-387 | a lease created by somebody else in the meantime ends the pass and stays as it is |
| `RestoreLaws.CleanupIsBestEffort` | internal/controller/litestreamrestore_controller.go:624-646 | lease and pause flag go exactly as the two ignored calls come through; the phase is written last or not at all; no workload changes |
| `RestoreLaws.FreeLockIsTaken` | internal/controller/litestreamrestore_controller.go:356-421 | one pass takes a free or own lock, sets the pause flag and moves on to Fencing |
| `RestoreLaws.HeldLockWaits` | internal/controller/litestreamrestore_controller.go:390-405 | a pass over a restore that waits for another's lock changes nothing |
| `RestoreLaws.FencingWaits` | internal/controller/litestreamrestore_controller.go:430-450 | until flag and paused ConfigMap are there, a Fencing pass does no more than set the flag |
| `RestoreLaws.FencingStartsJob` | internal/controller/litestreamrestore_controller.go:452-505 | then it scales to zero; with a pod left it ends there, without one it writes the source's config and starts the Job on the stored target |
| `RestoreLaws.ResumingCompletes` | internal/controller/litestreamrestore_controller.go:564-618 | a Resuming pass clears the flag; with an unpaused ConfigMap it scales to the recorded count, frees the lock and completes |
| `RestoreLaws.ToPVCStarts` | internal/controller/litestreamrestore_controller.go:291-316 | the first pass of a ToPVC restore starts a Job on the claim and path of its own spec, no subPath, with the source's config |
| `RestoreLaws.ToPVCUntargeted` | internal/controller/litestreamrestore_controller.go:199-201 | without a target it fails |
| `RestoreLaws.ToPVCEnds` | internal/controller/litestreamrestore_controller.go:520-556 | its Job's verdict makes it Completed or Failed, and only the phase is written |
| `RestoreLaws.OverIsLeftAlone` | internal/controller/litestreamrestore_controller.go:114-118 | a pass over a restore that is over changes nothing while the source is there |
| `RestoreLaws.SourceGoneFails` | internal/controller/litestreamrestore_controller.go:92-107 | with the source gone a live restore fails, even a completed one |
| `RestoreLaws.NoBackupFails` | internal/controller/litestreamrestore_controller.go:122-125 | without an S3 backup a live restore fails, whatever its phase |
| `RestoreLaws.ValidatingMovesOn` | internal/controller/litestreamrestore_controller.go:135-144 | the legacy phase goes on to Resuming or Completed |
| `RestoreProgress.ActAdvances` | internal/controller/litestreamrestore_controller.go:270-618 | from every unfinished, uncontended, unblocked state a turn of any actor keeps or lowers the measure, and a turn of the awaited actor lowers it or settles the restore |
| `RestoreLiveness.Progress` | internal/controller/litestreamrestore_controller.go:127-150 | unblocked and with a usable source, under every fair schedule the restore becomes Completed or Failed with the lease free, and after Completed with replication on and the recorded count desired |
| `RestoreLiveness.ProgressIff` | internal/controller/litestreamrestore_controller.go:93-150 | for any source, usable or not, and any fair schedule: an uncontended InPlace restore comes to its end exactly when no ConfigMap name it has yet to pass is taken by the other kind |
| `RestoreLiveness.SharedNameStuck` | internal/controller/litestreamrestore_controller.go:820-834 | a restore named like its source scales the application to zero and stays in Fencing without a Job under every schedule |
| `RestoreLiveness.ForeignConfigStuck` | internal/controller/litestreamrestore_controller.go:437-449 | with the source's ConfigMap owned by a restore, a Fencing restore stays there under every schedule |
| `TornRelease.GuardLostIffTorn` | internal/controller/litestreamrestore_controller.go:600-617 | a call breaks "every restore in a locked phase or with a running Job holds its lease" exactly when it is a torn release by a restore in a locked phase or with a running Job |
| `TornRelease.ContendedReached` | internal/controller/litestreamrestore_controller.go:270-505 | from any initial state with two fresh restores of one application there is a run to a state where one runs its Job and the other waits for the lock |
| `TornRelease.TornReleaseTwoWriters` | internal/controller/litestreamrestore_controller.go:166-191 | from such an initial state, one deletion whose finalizer write is lost after the lease is gone leads to two running Jobs |
| `RestoreReconciler.Cluster.Reconcile` | internal/controller/litestreamrestore_controller.go:72-151 | one pass, with every call succeeding or failing on its own and the process dying anywhere, leaves exactly the world the state machine says |
| `RestoreReconciler.ReconcileKeeps` | internal/controller/litestreamrestore_controller.go:72-151 | a whole pass keeps the joint invariant, whatever its calls come to, unless a release is torn |
| `RestoreReconciler.SuccessIsPass` | internal/controller/litestreamrestore_controller.go:72-151 | with every call succeeding Reconcile is one complete pass, so the laws of RestoreLaws are about it |
| `RestoreReconciler.Cluster.ReconcilePending` | internal/controller/litestreamrestore_controller.go:270-337 | resolve, store the target once, then record the count or start the ToPVC Job, call for call |
| `RestoreReconciler.Cluster.ResolveTarget` | internal/controller/litestreamrestore_controller.go:198-265 | the target of either mode, or none where the source returns an error |
| `RestoreReconciler.Cluster.ReconcileAcquiringLock` | internal/controller/litestreamrestore_controller.go:342-422 | take a free lease, wait for a held one, pause, move to Fencing, call for call |
| `RestoreReconciler.Cluster.ReconcileFencing` | internal/controller/litestreamrestore_controller.go:426-505 | re-pause, wait for the mirrored pause, then scale down, drain and start the Job, call for call |
| `RestoreReconciler.Cluster.ReconcileRestoring` | internal/controller/litestreamrestore_controller.go:510-560 | act on the Job's verdict: wait, go on, or fail with cleanup; a missing Job fails |
| `RestoreReconciler.Cluster.JobVerdict` | internal/controller/litestreamrestore_controller.go:520-556 | the loop returns the verdict of the first Complete or Failed condition that is True |
| `RestoreReconciler.Cluster.ReconcileResuming` | internal/controller/litestreamrestore_controller.go:564-618 | clear the pause flag, wait for the ConfigMap, scale up, conclude, call for call |
| `RestoreReconciler.Cluster.FailRestoreWithCleanup` | internal/controller/litestreamrestore_controller.go:624-646 | InPlace: release, resume, Failed, never scale up; ToPVC: Failed alone |
| `RestoreReconciler.Cluster.HandleFinalization` | internal/controller/litestreamrestore_controller.go:156-193 | release, resume outside the mid-restore phases, let the object and all it owns go |
| `RestoreReconciler.Cluster.SetStatus` | internal/controller/litestreamrestore_controller.go:902-926 | phase written, Job name kept when none is given, count written at most once |
| `RestoreReconciler.Cluster.ReconcileLitestreamConfig` | internal/controller/litestreamreplica_controller.go:143-176 | the pause flag is mirrored into the source's ConfigMap, which a restore's ConfigMap of the same name blocks |
| `LitestreamConfig.RoundTrip` | internal/controller/litestreamreplica_controller.go:177-224 | for newline-free fields, decoding a rendered litestream.yml gives exactly the normalised content |
| `LitestreamConfig.FileReads` | internal/controller/litestreamreplica_controller.go:177-224 | the whole file, key by key in literals: joined path, plain-HTTP scheme for a bare endpoint, each optional key exactly when set |
| `LitestreamConfig.EqualTextEqualContent` | internal/controller/litestreamreplica_controller.go:177-224 | equal files have equal normalised content |
| `LitestreamConfig.NeverPausedText` | internal/controller/litestreamreplica_controller.go:171-224 | no spec at all renders to the paused text, "dbs: []" and a newline |
| `SpecHash.DecodesText` | internal/controller/litestreamreplica_controller.go:657-681 | decoding the pre-hash text gives the hashed fields, up to a trailing run-as line in the SQL |
| `SpecHash.EqualTextIff` | internal/controller/litestreamreplica_controller.go:657-681 | two specs have equal text exactly when their canonical hashed fields are equal |
| `SpecHash.SameTextIffSameFields` | internal/controller/litestreamreplica_controller.go:655-681 | field by field: plain specs have equal text exactly when image, mode, name, path, enabled, each S3 field, log level, sync interval, SQL and both run-as fields are equal |
| `SpecHash.TextReads` | internal/controller/litestreamreplica_controller.go:657-681 | the text, key by key in literals |
| `SpecHash.ReadBackIff` | internal/controller/litestreamreplica_controller.go:673-680 | the hashed fields can be read back exactly when the SQL does not end in a line taken for an unset run-as field |
| `SpecHash.PlainSqlUnambiguous` | internal/controller/litestreamreplica_controller.go:673-680 | SQL without a line that starts like a run-as line is unambiguous |
| `SpecHash.AmbiguousCollides` | internal/controller/litestreamreplica_controller.go:673-680 | every ambiguous spec shares its text with a spec of other SQL that runs as somebody else |
| `Mounts.LongestIsUnique` | internal/webhook/sidecar_injector.go:462-472 | the search's answer is the one longest covering mount, the first among equals |
| `Mounts.EqualLengthEqualPath` | internal/webhook/sidecar_injector.go:464-472 | two covering mounts of equal length are mounted at the same path |
| `Mounts.FindVolumeForPath` | internal/webhook/sidecar_injector.go:442-486 | the webhook's loops return the longest covering mount of the chosen container, or the matching error |
| `Mounts.ResolveInPlaceTarget` | internal/controller/litestreamrestore_controller.go:213-264 | the controller's loops return claim, file path and subPath of the longest covering mount, or the matching error |
| `Mounts.SearchesAgree` | internal/controller/litestreamrestore_controller.go:222-264 | the controller succeeds exactly when the webhook does and the volume is a claim, with the same volume and subPath; other errors are the same |
| `Mounts.ContainerChosenIff` | internal/webhook/sidecar_injector.go:447-460 | the container searched is the first of that name, or the first of all without a name, by index; each error exactly when its list is so |
| `Mounts.FoundIff` | internal/webhook/sidecar_injector.go:442-486 | the webhook's answer is the longest covering mount of the chosen container, by index; NotCovered exactly when it has none |
| `Mounts.ResolvedIff` | internal/controller/litestreamrestore_controller.go:213-264 | the controller's target is the claim behind that mount, databasePath/databaseName, and the mount's subPath |
| `Injection.Pod.Handle` | internal/webhook/sidecar_injector.go:73-108 | pod and response after a request are those of the admission function; every error leaves the pod as it was |
| `Injection.Pod.Inject` | internal/webhook/sidecar_injector.go:151-244 | sidecar, volumes, annotations and init containers are added iff a covering mount is found |
| `Injection.PatchedIff` | internal/webhook/sidecar_injector.go:73-147 | each response exactly when annotations, containers, reference and mounts are so; the namespace of the reference is the pod's own when empty; what is not patched is not changed |
| `Injection.SidecarRuns` | internal/webhook/sidecar_injector.go:159-214 | the sidecar's name, image, command, port, resources, credentials and log level, on the application's mount, reading the ConfigMap the replica controller writes |
| `Injection.RestoreRuns` | internal/webhook/sidecar_injector.go:300-342 | the restore container: the database file, on the same mount, config, credentials and identity |
| `Injection.BootstrapRuns` | internal/webhook/sidecar_injector.go:371-430 | the bootstrap container: the same file, its image, SQL volume and identity |
| `Injection.ManualRecoveryInits` | internal/webhook/sidecar_injector.go:232-241 | under manual recovery a patched pod has its own init containers, then the bootstrap one if there is SQL |
| `Injection.Scraped` | internal/webhook/sidecar_injector.go:218-229 | the three scrape annotations afterwards, the pod's own value where it had one |
| `Injection.AdmittedTwice` | internal/webhook/sidecar_injector.go:73-119 | a second request changes nothing; after a patch that holds for any later state of the store |
| `Injection.AdmissionFramed` | internal/webhook/sidecar_injector.go:201-241 | original containers and volumes stay a prefix, the original init containers stay one unbroken stretch with at most one new container on either side, non-empty annotations are kept and only three keys are written |
| `Injection.InitOrder` | internal/webhook/sidecar_injector.go:234-241 | restore is first exactly with backup enabled and recovery "automatic", bootstrap last exactly with SQL |
| `Injection.SameInjectionIff` | internal/webhook/sidecar_injector.go:151-244 | with equal hashed fields two specs inject the same pod exactly when mount, sidecar resources and any used bootstrap image agree |
| `Injection.EqualTextSamePod` | internal/controller/litestreamreplica_controller.go:655-681 | unambiguous specs with equal text, container, resources and bootstrap image inject the same pod |
| `Injection.HashMissesResources` | internal/controller/litestreamreplica_controller.go:655-681 | every spec has a twin with the same text and another injected pod |
| `SameFile.SearchFindsServerIff` | internal/webhook/sidecar_injector.go:462-472 | on any dot-free mounts the textual search finds the mount that serves a clean path component-wise exactly when that mount's path is clean and not the root above it |
| `SameFile.SearchMissesServer` | internal/webhook/sidecar_injector.go:462-472 | a trailing slash on the serving mount makes the searches settle on a mount above it |
| `SameFile.InjectedSeesDirectory` | internal/webhook/sidecar_injector.go:164-188 | where the mount found serves, an injected container sees the directory where the application does exactly when its second mount does not hide it |
| `SameFile.InjectionSeesDatabase` | internal/webhook/sidecar_injector.go:266-291 | where the mount found serves and the database path is outside /etc/litestream and /bootstrap, sidecar and both init containers see the database directory at the application's volume, subPath and remainder |
| `SameFile.JobWritesDatabaseIff` | internal/controller/litestreamrestore_controller.go:745-752 | for any absolute dot-free target, redundant slashes and names of several components included, the Job writes the application's file exactly when the mount serving its directory is mounted there and is the one resolved, no mount lies on the file, and /etc/litestream is neither |
| `SameFile.JobWritesCleanDatabaseIff` | internal/controller/litestreamrestore_controller.go:198-265 | for clean paths and a one-component name: exactly when the mount the controller finds is databasePath itself, with the same two provisos |
| `SameFile.JobMissesDatabase` | internal/controller/litestreamrestore_controller.go:745-752 | with the volume mounted anywhere above the database directory the Job writes another file |
| `Startup.RestoreFirst` | internal/webhook/sidecar_injector.go:308-341 | past the restore container, in any run, there is a database or there is no archive |
| `Startup.StartupSafeIff` | internal/webhook/sidecar_injector.go:232-241 | over all runs, the application never starts beside an unread archive iff backup is enabled with automatic recovery; SQL never overrides an archive iff that holds or there is no SQL |
| `Startup.DatabaseKept` | internal/webhook/sidecar_injector.go:308-312 | no init container touches a database that is there |
| `Startup.DatabaseComesFrom` | internal/webhook/sidecar_injector.go:308-341 | out of the archive by a restore that succeeds, or from the SQL; a failed restore leaves none and holds the pod |
| `Conditions.TruthOfWith` | internal/controller/litestreamreplica_controller.go:685-694 | setting a condition keeps types unique, decides its own truth and no other's |
| `Conditions.SinceOfWith` | internal/controller/litestreamreplica_controller.go:685-694 | the transition time moves exactly when the status does |
| `SidecarHealth.LitestreamContainerState` | internal/controller/litestreamreplica_controller.go:308-352 | the nested loops report the tally of running and failing sidecars |
| `SidecarHealth.HealthyIff` | internal/controller/litestreamreplica_controller.go:303-362 | healthy, none found and unhealthy, each exactly as some container status named litestream runs, exists or is broken, with the five waiting reasons in literals |
| `SidecarHealth.OneStatus` | internal/controller/litestreamreplica_controller.go:325-338 | what one container status adds to the tally |
| `SidecarHealth.OrderIrrelevant` | internal/controller/litestreamreplica_controller.go:308-352 | pods in another order give the same report, up to the order of listed failures |
| `ReplicaStatus.StatusObject.UpdateStatus` | internal/controller/litestreamreplica_controller.go:367-545 | the status after a pass, on every exit path |
| `ReplicaStatus.FullPassTruth` | internal/controller/litestreamreplica_controller.go:396-545 | a pass that no guard stops says exactly what it saw: phase, ready, health, and each condition with status, reason and generation |
| `ReplicaStatus.StoppedTruth` | internal/controller/litestreamreplica_controller.go:402-431 | a guard's exit sets its own condition and phase Error, and leaves health and Ready condition as they were |
| `ReplicaStatus.MissingTruth` | internal/controller/litestreamreplica_controller.go:374-394 | without its workload: phase Error, nothing ready or healthy, four conditions False with that reason |
| `ReplicaStatus.FirstPassStamps` | internal/controller/litestreamreplica_controller.go:685-694 | the first pass over a new object gives every condition its own time and generation |
| `ReplicaStatus.PassKeeps` | internal/controller/litestreamreplica_controller.go:367-545 | every pass keeps: unique types, backupHealthy iff ReplicationHealthy is True, ready iff phase Ready and then Ready is True |
| `ReplicaStatus.StatusInvariant` | internal/controller/litestreamreplica_controller.go:367-545 | the same in every state of any sequence of passes, failed status patches included |
| `ReplicaStatus.MirrorsIff` | internal/controller/litestreamreplica_controller.go:402-431 | after a pass ready mirrors the Ready condition unless a guard stopped it while the condition was True |
| `ReplicaStatus.StaleReady` | internal/controller/litestreamreplica_controller.go:402-411 | a history in which ready is false while the Ready condition is True |

## Left out

- The Kubernetes client, caches, watches, requeue times, events, logging and RBAC: reads are current, writes touch only the changed fields.
- SHA-256 and its truncation: claims are about the text that is hashed.
- The litestream and sqlite3 programs and the shell: each script is its branches with an arbitrary outcome, and a failed restore leaves no file.
- Status messages, start and completion times, and the conditions of a LitestreamRestore.
- The BootstrapApplied condition, which is set before the status patch is taken.
- Metrics scraping and lag arithmetic: "above the limit" is an input.
- `reconcileTargetAnnotation`, `patchWorkloadPodTemplate`, `removeWorkloadAnnotations`: map updates that would only add easy members.
- The validating webhooks, the replica's own finalizer, image, force and timestamp options of the Job, generated code and manifests.
- Paths with `.` or `..` components, in mounts and in databasePath: components are compared as they stand, without resolving them.
- RestoreTheorems.CountConserved: says nothing when the workload could not be read at scale-up, because the controller then completes without scaling.
- RestoreLiveness.ProgressIff: is about a restore without competitor; with one, RestoreLeases says how it can starve.
