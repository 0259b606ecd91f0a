/**
 What one complete pass comes to, written out on the objects: the Job's conditions, the phase, the lists of the pod
 spec. Every law here is about Pass, the whole of Reconcile with its calls succeeding.
 */
module RestoreLaws {
  import opened ApiTypes
  import opened LitestreamConfig
  import opened RestoreProtocol
  import opened RestoreSafety
  import opened RestorePasses
  import opened RestoreTheorems
  import opened Mounts
  import R = RestoreReconciler

  // ---------------------------------------------------------------- the verdict of a Job

  /** The condition at i is of that kind and True, and no earlier Complete or Failed condition is. */
  ghost predicate DecidedAt(conditions: seq<JobCondition>, i: nat, kind: JobConditionType) {
    && i < |conditions| && conditions[i] == JobCondition(kind, true)
    && forall j :: 0 <= j < i ==> !(conditions[j].status && (conditions[j].kind == JobComplete || conditions[j].kind == JobFailed))
  }

  lemma {:induction false} DecidedIs(conditions: seq<JobCondition>, i: nat, kind: JobConditionType)
    requires DecidedAt(conditions, i, kind) && (kind == JobComplete || kind == JobFailed)
    ensures VerdictOf(conditions) == if kind == JobComplete then Succeeded else Broken
  {
    if i > 0 {
      assert !(conditions[0].status && (conditions[0].kind == JobComplete || conditions[0].kind == JobFailed));
      DecidedIs(conditions[1..], i - 1, kind);
    }
  }

  lemma {:induction false} UndecidedIs(conditions: seq<JobCondition>)
    requires forall j :: 0 <= j < |conditions| ==>
      !(conditions[j].status && (conditions[j].kind == JobComplete || conditions[j].kind == JobFailed))
    ensures VerdictOf(conditions) == Running
  {
    if conditions != [] {
      assert !(conditions[0].status && (conditions[0].kind == JobComplete || conditions[0].kind == JobFailed));
      UndecidedIs(conditions[1..]);
    }
  }

  lemma {:induction false} DecidedSomewhere(conditions: seq<JobCondition>) returns (i: nat, kind: JobConditionType)
    requires exists j :: 0 <= j < |conditions| && conditions[j].status && (conditions[j].kind == JobComplete || conditions[j].kind == JobFailed)
    ensures DecidedAt(conditions, i, kind) && (kind == JobComplete || kind == JobFailed)
  {
    i := 0;
    while !(conditions[i].status && (conditions[i].kind == JobComplete || conditions[i].kind == JobFailed))
      invariant i < |conditions|
      invariant forall j :: 0 <= j < i ==> !(conditions[j].status && (conditions[j].kind == JobComplete || conditions[j].kind == JobFailed))
      decreases |conditions| - i
    {
      i := i + 1;
    }
    kind := conditions[i].kind;
  }

  /** Complete or failed, whichever is the first to be True; otherwise the Job is still running. */
  lemma VerdictIff(conditions: seq<JobCondition>)
    ensures VerdictOf(conditions) == Succeeded <==> exists i: nat :: DecidedAt(conditions, i, JobComplete)
    ensures VerdictOf(conditions) == Broken <==> exists i: nat :: DecidedAt(conditions, i, JobFailed)
    ensures VerdictOf(conditions) == Running <==>
      forall j :: 0 <= j < |conditions| ==>
        !(conditions[j].status && (conditions[j].kind == JobComplete || conditions[j].kind == JobFailed))
  {
    if forall j :: 0 <= j < |conditions| ==>
         !(conditions[j].status && (conditions[j].kind == JobComplete || conditions[j].kind == JobFailed)) {
      UndecidedIs(conditions);
    } else {
      var i, kind := DecidedSomewhere(conditions);
      DecidedIs(conditions, i, kind);
    }
    forall i: nat, kind | DecidedAt(conditions, i, kind) && (kind == JobComplete || kind == JobFailed)
      ensures VerdictOf(conditions) == if kind == JobComplete then Succeeded else Broken
    {
      DecidedIs(conditions, i, kind);
    }
  }

  // ---------------------------------------------------------------- what follows from it

  /** An InPlace restore whose Job failed: Failed, lock free, replication resumed, the application left as it is. */
  lemma FailedJobFences(w: World, r: string, i: nat)
    requires Inv(w) && Able(w, r) && w.restores[r].phase == Restoring
    requires r in w.jobs && DecidedAt(w.jobs[r].conditions, i, JobFailed)
    ensures
      var w', s := Pass(w, r), w.restores[r].source;
      && r in w'.restores && w'.restores[r].phase == Failed && s !in w'.leases && w'.workloads == w.workloads
      && s in w'.sources && !w'.sources[s].paused && w'.sources[s].spec == w.sources[s].spec
  {
    assert PhaseOk(w, r);
    DecidedIs(w.jobs[r].conditions, i, JobFailed);
    PassJobBroken(w, r);
  }

  /** So is one whose Job is gone. */
  lemma MissingJobFences(w: World, r: string)
    requires Inv(w) && Able(w, r) && w.restores[r].phase == Restoring && r !in w.jobs
    ensures
      var w', s := Pass(w, r), w.restores[r].source;
      && r in w'.restores && w'.restores[r].phase == Failed && s !in w'.leases && w'.workloads == w.workloads
      && s in w'.sources && !w'.sources[s].paused
  {
    assert PhaseOk(w, r);
    PassJobBroken(w, r);
  }

  /** Whose Job completed: Resuming, and nothing else changes yet. */
  lemma CompletedJobResumes(w: World, r: string, i: nat)
    requires Inv(w) && Able(w, r) && w.restores[r].phase == Restoring
    requires r in w.jobs && DecidedAt(w.jobs[r].conditions, i, JobComplete)
    ensures Pass(w, r) == w.(restores := w.restores[r := w.restores[r].(phase := Resuming)])
  {
    assert PhaseOk(w, r);
    DecidedIs(w.jobs[r].conditions, i, JobComplete);
    PassJobSucceeded(w, r);
  }

  /** Whose Job has not decided: nothing. */
  lemma RunningJobWaits(w: World, r: string)
    requires Inv(w) && Able(w, r) && w.restores[r].phase == Restoring && r in w.jobs
    requires forall j :: 0 <= j < |w.jobs[r].conditions| ==>
      var c := w.jobs[r].conditions[j]; !(c.status && (c.kind == JobComplete || c.kind == JobFailed))
    ensures Pass(w, r) == w
  {
    assert PhaseOk(w, r);
    UndecidedIs(w.jobs[r].conditions);
    PassIdle(w, r);
  }

  // ---------------------------------------------------------------- finalization

  lemma FinalizePass(w: World, r: string)
    requires w.worker.None? && r in w.restores && w.restores[r].finalizer && w.restores[r].deleting
    ensures
      exists release, resume ::
        && Enter(w, r, true) == Some(AtFinalize(release, resume))
        && Pass(w, r) == Stop(RemoveRestore(Cleanup(w, r, w.restores[r].source, release, resume, ALL_OK), r))
  {
    var x := w.restores[r];
    var pc := Enter(w, r, true).value;
    assert pc.AtFinalize?;
    var w0, b := Begin(w, r, true), Busy(r, pc, Unmarked);
    assert w0 == w.(worker := Some(b));
    assert Exec(w0, ALL_OK) == ExecFinalize(w0, b, x, ALL_OK);
    FinishNext(w0, Exec(w0, ALL_OK));
    var w1 := Cleanup(w0, r, x.source, pc.release, pc.resume, ALL_OK);
    R.CleanupOf(w, r, pc, x.source, pc.release, pc.resume, ALL_OK);
    R.RemovalOf(w1, r);
    R.RemovalOf(Cleanup(w, r, x.source, pc.release, pc.resume, ALL_OK), r);
  }

  /** What goes with the object: its Job, its own ConfigMap, a lease it holds. Workloads and all other objects stay. */
  ghost predicate Removed(w: World, w': World, r: string)
    requires r in w.restores
  {
    && w'.restores == w.restores - {r} && w'.jobs == w.jobs - {r} && w'.workloads == w.workloads
    && w'.leases == (if Holds(w, r) then w.leases - {w.restores[r].source} else w.leases)
    && w'.configs == (if r in w.configs && w.configs[r].owner == OfRestore then w.configs - {r} else w.configs)
  }

  /**
   Deleting an InPlace restore: it goes with its lock and Job, nothing is scaled, and the pause stays exactly when it was
   on and the restore was in the middle of the restore proper.
   */
  lemma DeletedInPlace(w: World, r: string)
    requires w.worker.None? && r in w.restores && w.restores[r].finalizer && w.restores[r].deleting
    requires w.restores[r].mode == InPlace && w.restores[r].source in w.sources
    ensures
      var w', s, phase := Pass(w, r), w.restores[r].source, w.restores[r].phase;
      && Removed(w, w', r)
      && w'.sources == w.sources[s := w.sources[s].(paused :=
           w.sources[s].paused && (phase == Fencing || phase == Restoring || phase == Validating))]
  {
    FinalizePass(w, r);
    var x, s := w.restores[r], w.restores[r].source;
    assert w.sources[s := w.sources[s]] == w.sources;
    FinalEntry(w, r);
    FinalCleanup(w, r, true, Enter(w, r, true).value.resume);
  }

  lemma FinalEntry(w: World, r: string)
    requires r in w.restores && w.restores[r].finalizer && w.restores[r].deleting
    ensures
      var x := w.restores[r];
      Enter(w, r, true) == Some(AtFinalize(x.mode == InPlace,
        && x.mode == InPlace && x.source in w.sources && w.sources[x.source].paused
        && x.phase != Fencing && x.phase != Restoring && x.phase != Validating))
  {
  }

  lemma FinalCleanup(w: World, r: string, release: bool, resume: bool)
    requires w.worker.None? && r in w.restores
    ensures
      var w' := Stop(RemoveRestore(Cleanup(w, r, w.restores[r].source, release, resume, ALL_OK), r));
      && Removed(w, w', r)
      && w'.sources == SetPausedOff(w, w.restores[r].source, resume)
  {
    var s := w.restores[r].source;
    var w1 := Cleanup(w, r, s, release, resume, ALL_OK);
    assert w1 == w.(leases := w1.leases, sources := w1.sources);
    assert w1.leases == if release && Holds(w, r) then w.leases - {s} else w.leases;
    assert Holds(w1, r) == (Holds(w, r) && !release);
    assert Release(w1, r).leases == if Holds(w, r) then w.leases - {s} else w.leases;
  }

  ghost function SetPausedOff(w: World, s: string, resume: bool): map<string, Source> {
    if resume && s in w.sources then w.sources[s := w.sources[s].(paused := false)] else w.sources
  }

  /** Deleting a ToPVC restore, or one whose source is gone: no source is touched. */
  lemma DeletedElsewise(w: World, r: string)
    requires w.worker.None? && r in w.restores && w.restores[r].finalizer && w.restores[r].deleting
    requires w.restores[r].mode == ToPVC || w.restores[r].source !in w.sources
    ensures Removed(w, Pass(w, r), r) && Pass(w, r).sources == w.sources
  {
    FinalizePass(w, r);
    FinalEntry(w, r);
    FinalCleanup(w, r, w.restores[r].mode == InPlace, false);
  }

  // ---------------------------------------------------------------- a Pending InPlace restore

  /** spec.replicas, 1 when unset. */
  ghost function CountOf(wl: Workload): nat {
    match wl.replicas
    case None => 1
    case Some(n) => n
  }

  /**
   With the claim behind the longest covering mount of the chosen container: target and count are written, the count once,
   the target unless there is one, and the restore queues for the lock.
   */
  lemma PendingResolves(w: World, r: string, k: nat, i: nat, claim: string)
    requires Able(w, r) && w.restores[r].finalizer && w.restores[r].phase == Pending && w.restores[r].source in w.workloads
    requires
      var wl, spec := w.workloads[w.restores[r].source], w.sources[w.restores[r].source].spec;
      && Settles(wl.pod.containers, spec.databasePath, spec.container, k, i)
      && ClaimOf(wl.pod.volumes, wl.pod.containers[k].mounts[i].volume) == Some(claim)
    ensures
      var x := w.restores[r];
      var wl, spec := w.workloads[x.source], w.sources[x.source].spec;
      var target := Target(claim, spec.databasePath + "/" + spec.databaseName, wl.pod.containers[k].mounts[i].subPath);
      Pass(w, r) == w.(restores := w.restores[r := x.(
        phase := AcquiringLock,
        resolved := if x.resolved.pvc == "" then target else x.resolved,
        originalReplicas := if x.originalReplicas.None? then Some(CountOf(wl)) else x.originalReplicas)])
  {
    var x := w.restores[r];
    SettlesIs(w.workloads[x.source].pod.containers, w.sources[x.source].spec.databasePath, w.sources[x.source].spec.container, k, i);
    PassResolved(w, r);
  }

  /** Without workload, container, covering mount or claim it fails. */
  lemma PendingFails(w: World, r: string)
    requires Able(w, r) && w.restores[r].finalizer && w.restores[r].phase == Pending
    requires
      var s := w.restores[r].source;
      || s !in w.workloads
      || forall k: nat, i: nat :: Settles(w.workloads[s].pod.containers, w.sources[s].spec.databasePath, w.sources[s].spec.container, k, i) ==>
           ClaimOf(w.workloads[s].pod.volumes, w.workloads[s].pod.containers[k].mounts[i].volume).None?
    ensures Pass(w, r) == w.(restores := w.restores[r := w.restores[r].(phase := Failed)])
  {
    var s := w.restores[r].source;
    if s in w.workloads {
      var pod, spec := w.workloads[s].pod, w.sources[s].spec;
      if InPlaceTarget(pod, spec).Ok? {
        ResolvedIff(pod, spec, InPlaceTarget(pod, spec).value);
      }
    }
    PassUnresolved(w, r);
  }

  /** A workload that cannot be read fails the restore too, at either of the two reads; nothing is recorded. */
  lemma UnreadableFails(w: World, r: string, io: Io)
    requires w.worker.None? && Able(w, r) && w.restores[r].finalizer && w.restores[r].phase == Pending
    requires !io.readable && io.ok
    ensures
      var began := Begin(w, r, false);
      began.worker.Some? && Exec(began, io) == w.(restores := w.restores[r := w.restores[r].(phase := Failed)])
    ensures
      var atRead := w.(worker := Some(Busy(r, AtReadReplicas, Unmarked)));
      var next := Exec(atRead, io);
      next.worker.Some? && Exec(next, io) == w.(restores := w.restores[r := w.restores[r].(phase := Failed)])
  {
    var began := Begin(w, r, false);
    var b := Busy(r, FAIL_RESTORE, Unmarked);
    assert began == w.(worker := Some(b));
    assert Exec(began, io) == ExecStatus(began, b, w.restores[r], io);
    var atRead := w.(worker := Some(Busy(r, AtReadReplicas, Unmarked)));
    assert Exec(atRead, io) == ExecReadReplicas(atRead, atRead.worker.value, w.restores[r], io) == began;
  }

  /** A workload that cannot be read at the gate of Fencing: the restore fails, and keeps the lock. */
  lemma UnreadableAtGate(w: World, r: string, text: string, io: Io)
    requires w.worker.None? && r in w.restores && !io.readable && io.ok
    ensures
      var next := Exec(w.(worker := Some(Busy(r, AtScaleDown(text), Unmarked))), io);
      next.worker.Some? && Exec(next, io) == w.(restores := w.restores[r := w.restores[r].(phase := Failed)])
  {
    var b := Busy(r, AtScaleDown(text), Unmarked);
    var w0 := w.(worker := Some(b));
    var w1 := w.(worker := Some(Busy(r, FAIL_RESTORE, Unmarked)));
    assert Exec(w0, io) == ExecScaleDown(w0, b, w.restores[r], io) == w1;
    assert Exec(w1, io) == ExecStatus(w1, w1.worker.value, w.restores[r], io);
  }

  /** A workload that cannot be read at scale-up: the restore completes without it, and lets the lock go. */
  lemma UnreadableAtScaleUp(w: World, r: string, count: nat, io: Io)
    requires w.worker.None? && Holds(w, r) && w.restores[r].mode == InPlace && !io.readable && io.ok && io.released
    ensures
      var next := Exec(w.(worker := Some(Busy(r, AtScaleUp(count), Unmarked))), io);
      && next.worker.Some?
      && Exec(next, io) == w.(restores := w.restores[r := w.restores[r].(phase := Completed)],
                              leases := w.leases - {w.restores[r].source})
  {
    var x := w.restores[r];
    var b := Busy(r, AtScaleUp(count), Unmarked);
    var w0 := w.(worker := Some(b));
    var w1 := w.(worker := Some(Busy(r, Concluding(x, true), Unmarked)));
    assert Exec(w0, io) == ExecScaleUp(w0, b, x, io) == w1;
    assert Exec(w1, io) == ExecConclude(w1, w1.worker.value, x, io);
    assert Holds(w1, r);
  }

  /** A cleanup does what its two best-effort calls come to, and the final write last: failing, it leaves the phase. */
  lemma CleanupIsBestEffort(w: World, r: string, phase: Phase, io: Io)
    requires w.worker.None? && Holds(w, r) && w.restores[r].source in w.sources
    ensures
      var s := w.restores[r].source;
      var w' := Exec(w.(worker := Some(Busy(r, AtConclude(phase, true, true, false), Unmarked))), io);
      && w'.worker.None? && w'.workloads == w.workloads
      && (s !in w'.leases <==> io.released)
      && s in w'.sources && w'.sources[s].paused == (w.sources[s].paused && !io.resumed)
      && r in w'.restores && w'.restores[r].phase == (if io.ok then phase else w.restores[r].phase)
  {
    var x := w.restores[r];
    var b := Busy(r, AtConclude(phase, true, true, false), Unmarked);
    var w0 := w.(worker := Some(b));
    assert Exec(w0, io) == ExecConclude(w0, b, x, io);
    assert Holds(w0, r);
  }

  /** A source deleted under the pass: its flag cannot be written, and the pass ends there. */
  lemma SourceVanished(w: World, r: string, pc: Pc, io: Io)
    requires w.worker.None? && r in w.restores && w.restores[r].source !in w.sources
    requires pc.AtPause? || pc.AtRepause? || pc.AtResume?
    ensures Exec(w.(worker := Some(Busy(r, pc, Unmarked))), io) == w
  {
    var b := Busy(r, pc, Unmarked);
    var w0 := w.(worker := Some(b));
    if pc.AtResume? {
      assert Exec(w0, io) == ExecResume(w0, b, w.restores[r], io);
    } else {
      assert Exec(w0, io) == ExecPause(w0, b, w.restores[r], io);
    }
  }

  /** A lease taken by somebody else in the meantime: the pass ends there. */
  lemma LeaseTaken(w: World, r: string, pause: bool, io: Io)
    requires w.worker.None? && r in w.restores && w.restores[r].source in w.leases
    ensures Exec(w.(worker := Some(Busy(r, AtAcquireLease(pause), Unmarked))), io) == w
  {
    var b := Busy(r, AtAcquireLease(pause), Unmarked);
    var w0 := w.(worker := Some(b));
    assert Exec(w0, io) == ExecAcquireLease(w0, b, w.restores[r], io);
  }

  predicate BoundToConclude(w: World) {
    w.worker.Some? && w.worker.value.pc.AtConclude?
  }

  lemma EarlyGoesElsewhere(w: World, io: Io)
    requires w.worker.Some? && Early(w.worker.value.pc)
    ensures !BoundToConclude(Exec(w, io))
  {
  }

  lemma LockGoesElsewhere(w: World, io: Io)
    requires w.worker.Some? && (w.worker.value.pc.AtAcquireLease? || w.worker.value.pc.AtPause? || w.worker.value.pc.AtRepause?)
    ensures !BoundToConclude(Exec(w, io))
  {
  }

  lemma JobGoesElsewhere(w: World, io: Io)
    requires w.worker.Some? && (w.worker.value.pc.AtScaleDown? || w.worker.value.pc.AtJobConfig? || w.worker.value.pc.AtCreateJob?)
    ensures !BoundToConclude(Exec(w, io))
  {
  }

  lemma EndingStops(w: World, io: Io)
    requires w.worker.Some? && Ending(w.worker.value.pc)
    ensures Exec(w, io).worker.None?
  {
    var b := w.worker.value;
    if b.name in w.restores {
      if b.pc.AtConclude? {
        assert Exec(w, io) == ExecConclude(w, b, w.restores[b.name], io);
      } else {
        assert Exec(w, io) == ExecFinalize(w, b, w.restores[b.name], io);
      }
    }
  }

  lemma LateSkips(w: World, io: Io)
    requires w.worker.Some? && Late(w.worker.value.pc)
    ensures BoundToConclude(Exec(w, io)) && Exec(w, io).worker.value.pc.skipped ==> w.worker.value.pc.AtScaleUp? && !io.readable
  {
    var b := w.worker.value;
    if b.name in w.restores {
      var x := w.restores[b.name];
      match b.pc
      case AtResume => assert Exec(w, io) == ExecResume(w, b, x, io);
      case AtAwaitUnpaused => assert Exec(w, io) == ExecAwaitUnpaused(w, b, x);
      case AtScaleUp(_) => assert Exec(w, io) == ExecScaleUp(w, b, x, io);
    }
  }

  /** A completion without scale-up comes from an unreadable workload only. */
  lemma SkippedOnlyUnreadable(w: World, io: Io)
    requires w.worker.Some?
    ensures BoundToConclude(Exec(w, io)) && Exec(w, io).worker.value.pc.skipped ==> w.worker.value.pc.AtScaleUp? && !io.readable
  {
    var b := w.worker.value;
    if Early(b.pc) {
      EarlyGoesElsewhere(w, io);
    } else if Ending(b.pc) {
      EndingStops(w, io);
    } else if Late(b.pc) {
      LateSkips(w, io);
    } else if b.pc.AtScaleDown? || b.pc.AtJobConfig? || b.pc.AtCreateJob? {
      JobGoesElsewhere(w, io);
    } else {
      LockGoesElsewhere(w, io);
    }
  }

  // ---------------------------------------------------------------- a ToPVC restore

  /** A live ToPVC restore of a usable source, with no pass in flight. */
  ghost predicate Detached(w: World, r: string) {
    && w.worker.None? && r in w.restores && w.restores[r].mode == ToPVC
    && w.restores[r].finalizer && !w.restores[r].deleting && Usable(w, r)
  }

  /** Its first pass starts a Job on the claim and path of its own spec, with the source's config and no subPath. */
  lemma ToPVCStarts(w: World, r: string, pvc: string, path: string)
    requires Detached(w, r) && w.restores[r].phase == Pending && (r in w.configs ==> w.configs[r].owner == OfRestore)
    requires w.restores[r].target.Some? && w.restores[r].target.value.pvc == pvc && w.restores[r].target.value.path == path
    ensures
      var x := w.restores[r];
      Pass(w, r) == w.(
        restores := w.restores[r := x.(phase := Restoring, jobNamed := true,
                                       resolved := if x.resolved.pvc == "" then Target(pvc, path, "") else x.resolved)],
        configs := w.configs[r := ConfigMap(OfRestore, Render(w.sources[x.source].spec))],
        jobs := if r in w.jobs then w.jobs else w.jobs[r := Job(Target(pvc, path, ""), [])])
  {
    var x := w.restores[r];
    var text := Render(w.sources[x.source].spec);
    var w0 := Begin(w, r, true);
    var b := Busy(r, AtJobConfig(Target(pvc, path, ""), text), Unmarked);
    if x.resolved.pvc == "" {
      ToPVCStores(w, r, Target(pvc, path, ""), text);
      var x1 := x.(resolved := Target(pvc, path, ""));
      FinishJob(PutRestore(w, r, x1).(worker := Some(b)), b, x1);
    } else {
      assert w0 == w.(worker := Some(b));
      FinishJob(w0, b, x);
    }
  }

  lemma ToPVCStores(w: World, r: string, target: Target, text: string)
    requires Detached(w, r) && w.restores[r].phase == Pending && w.restores[r].resolved.pvc == ""
    requires w.restores[r].target.Some? && target == Target(w.restores[r].target.value.pvc, w.restores[r].target.value.path, "")
    requires text == Render(w.sources[w.restores[r].source].spec)
    ensures
      var x1 := w.restores[r].(resolved := target);
      Pass(w, r) == Finish(PutRestore(w, r, x1).(worker := Some(Busy(r, AtJobConfig(target, text), Unmarked))))
  {
    var x := w.restores[r];
    var b := Busy(r, AtStoreTarget(target, text), Unmarked);
    var w0 := Begin(w, r, true);
    assert w0 == w.(worker := Some(b));
    assert Exec(w0, ALL_OK) == ExecStoreTarget(w0, b, x, ALL_OK);
    FinishNext(w0, Exec(w0, ALL_OK));
  }

  /** A pass whose only call writes the status. */
  lemma StatusPass(w: World, r: string, phase: Phase)
    requires w.worker.None? && r in w.restores && Enter(w, r, true) == Some(AtStatus(phase, false, None))
    ensures Pass(w, r) == w.(restores := w.restores[r := w.restores[r].(phase := phase)])
  {
    var b := Busy(r, AtStatus(phase, false, None), Unmarked);
    var w0 := Begin(w, r, true);
    assert w0 == w.(worker := Some(b));
    assert Exec(w0, ALL_OK) == ExecStatus(w0, b, w.restores[r], ALL_OK);
    FinishNext(w0, Exec(w0, ALL_OK));
    assert SetStatus(w.restores[r], phase, false, None) == w.restores[r].(phase := phase);
  }

  /** Without a target in its spec it fails. */
  lemma ToPVCUntargeted(w: World, r: string)
    requires Detached(w, r) && w.restores[r].phase == Pending && w.restores[r].target.None?
    ensures Pass(w, r) == w.(restores := w.restores[r := w.restores[r].(phase := Failed)])
  {
    StatusPass(w, r, Failed);
  }

  /** Its Job decides it: Completed or Failed, and nothing but the phase is written. */
  lemma ToPVCEnds(w: World, r: string, i: nat, kind: JobConditionType)
    requires Detached(w, r) && w.restores[r].phase == Restoring && w.restores[r].jobNamed
    requires r in w.jobs && DecidedAt(w.jobs[r].conditions, i, kind) && (kind == JobComplete || kind == JobFailed)
    ensures Pass(w, r) == w.(restores := w.restores[r := w.restores[r].(phase := if kind == JobComplete then Completed else Failed)])
  {
    DecidedIs(w.jobs[r].conditions, i, kind);
    StatusPass(w, r, if kind == JobComplete then Completed else Failed);
  }

  lemma ToPVCJobGone(w: World, r: string)
    requires Detached(w, r) && w.restores[r].phase == Restoring && w.restores[r].jobNamed && r !in w.jobs
    ensures Pass(w, r) == w.(restores := w.restores[r := w.restores[r].(phase := Failed)])
  {
    StatusPass(w, r, Failed);
  }

  // ---------------------------------------------------------------- the remaining entries

  /** A restore that is over is left alone while its source is there. */
  lemma OverIsLeftAlone(w: World, r: string)
    requires w.worker.None? && r in w.restores && w.restores[r].finalizer && !w.restores[r].deleting
    requires w.restores[r].phase == Completed || w.restores[r].phase == Failed
    requires w.restores[r].source in w.sources
    ensures Pass(w, r) == w
  {
  }

  /** With the source gone it fails, be it completed. */
  lemma SourceGoneFails(w: World, r: string)
    requires w.worker.None? && r in w.restores && w.restores[r].finalizer && !w.restores[r].deleting
    requires w.restores[r].source !in w.sources
    ensures Pass(w, r) == w.(restores := w.restores[r := w.restores[r].(phase := Failed)])
  {
    StatusPass(w, r, Failed);
  }

  /** Without a backup to S3 a live restore fails, in every phase. */
  lemma NoBackupFails(w: World, r: string)
    requires w.worker.None? && r in w.restores && w.restores[r].finalizer && !w.restores[r].deleting
    requires w.restores[r].phase != Completed && w.restores[r].phase != Failed && w.restores[r].source in w.sources
    requires
      var backup := w.sources[w.restores[r].source].spec.backup;
      !backup.enabled || backup.s3.None?
    ensures Pass(w, r) == w.(restores := w.restores[r := w.restores[r].(phase := Failed)])
  {
    StatusPass(w, r, Failed);
  }

  /** A held lock is waited for. */
  lemma HeldLockWaits(w: World, r: string)
    requires Able(w, r) && w.restores[r].finalizer && w.restores[r].phase == AcquiringLock
    requires w.restores[r].source in w.leases && w.leases[w.restores[r].source] != r
    ensures Pass(w, r) == w
  {
    StatusPass(w, r, AcquiringLock);
    assert w.restores[r := w.restores[r].(phase := AcquiringLock)] == w.restores;
  }

  /** A free or own lock is taken, replication is paused, and the restore moves on to Fencing. */
  lemma FreeLockIsTaken(w: World, r: string)
    requires Able(w, r) && w.restores[r].finalizer && w.restores[r].phase == AcquiringLock
    requires w.restores[r].source in w.leases ==> w.leases[w.restores[r].source] == r
    ensures
      var x := w.restores[r];
      Pass(w, r) == w.(restores := w.restores[r := x.(phase := Fencing)], leases := w.leases[x.source := r],
                       sources := w.sources[x.source := w.sources[x.source].(paused := true)])
  {
    PassLock(w, r);
  }

  /** Fencing waits for flag and ConfigMap, sets the flag again if need be, and touches nothing else until both are there. */
  lemma FencingWaits(w: World, r: string)
    requires Able(w, r) && w.restores[r].finalizer && w.restores[r].phase == Fencing
    requires
      var s := w.restores[r].source;
      !w.sources[s].paused || s !in w.configs || w.configs[s].text != "dbs: []\n"
    ensures
      var s := w.restores[r].source;
      Pass(w, r) == w.(sources := w.sources[s := w.sources[s].(paused := true)])
  {
    var s := w.restores[r].source;
    if w.sources[s].paused {
      assert w.sources[s := w.sources[s].(paused := true)] == w.sources;
      PassIdle(w, r);
    } else {
      PassRepause(w, r);
    }
  }

  /** Then it scales to zero; with a pod left it waits, without one it starts the Job on the stored target. */
  lemma FencingStartsJob(w: World, r: string)
    requires Able(w, r) && w.restores[r].finalizer && w.restores[r].phase == Fencing
    requires
      var s := w.restores[r].source;
      w.sources[s].paused && s in w.configs && w.configs[s].text == "dbs: []\n" && (r in w.configs ==> w.configs[r].owner == OfRestore)
    ensures
      var x, s := w.restores[r], w.restores[r].source;
      var w1 := if s in w.workloads then w.(workloads := w.workloads[s := w.workloads[s].(replicas := Some(0))]) else w;
      Pass(w, r) ==
      if s in w.workloads && w.workloads[s].running > 0 then w1
      else w1.(restores := w.restores[r := x.(phase := Restoring, jobNamed := true)],
               configs := w.configs[r := ConfigMap(OfRestore, Render(w.sources[s].spec))],
               jobs := if r in w.jobs then w.jobs else w.jobs[r := Job(x.resolved, [])])
  {
    PassFence(w, r);
  }

  /**
   Resuming clears the flag and waits for the ConfigMap; then it scales to the recorded count, 1 without a record, lets
   the lock go and is done.
   */
  lemma ResumingCompletes(w: World, r: string)
    requires Able(w, r) && Holds(w, r) && w.restores[r].finalizer && w.restores[r].phase == Resuming
    ensures
      var x, s := w.restores[r], w.restores[r].source;
      var n := if x.originalReplicas.Some? then x.originalReplicas.value else 1;
      var w1 := w.(sources := w.sources[s := w.sources[s].(paused := false)]);
      var w2 := if n > 0 && s in w.workloads then w1.(workloads := w.workloads[s := w.workloads[s].(replicas := Some(n))]) else w1;
      Pass(w, r) ==
      if s !in w.configs || w.configs[s].text == "dbs: []\n" then w1
      else w2.(restores := w.restores[r := x.(phase := Completed)], leases := w.leases - {s})
  {
    PassResuming(w, r);
  }

  /** The legacy phase is stepped over. */
  lemma ValidatingMovesOn(w: World, r: string)
    requires w.worker.None? && r in w.restores && w.restores[r].finalizer && !w.restores[r].deleting && Usable(w, r)
    requires w.restores[r].phase == Validating
    ensures
      Pass(w, r) == w.(restores := w.restores[r := w.restores[r].(phase := if w.restores[r].mode == ToPVC then Completed else Resuming)])
  {
    StatusPass(w, r, if w.restores[r].mode == ToPVC then Completed else Resuming);
  }
}
