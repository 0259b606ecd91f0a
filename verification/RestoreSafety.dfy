/**
 What every reachable state of the restore protocol satisfies, for any number of restores,
 creations, deletions, failed calls and crashes.
 */
module RestoreSafety {
  import opened ApiTypes
  import opened LitestreamConfig
  import opened RestoreProtocol

  // ---------------------------------------------------------------- the invariant

  predicate Locked(phase: Phase) {
    phase == Fencing || phase == Restoring || phase == Resuming
  }

  /** A lease is held by an InPlace restore of that source which cannot vanish unnoticed. */
  ghost predicate LeaseOk(w: World, s: string)
    requires s in w.leases
  {
    var h := w.leases[s];
    && h in w.restores
    && var x := w.restores[h];
       x.mode == InPlace && x.source == s && x.finalizer && x.phase != Pending
  }

  /** Where a restore stands fits its mode, its lease and the workload. */
  ghost predicate PhaseOk(w: World, r: string)
    requires r in w.restores
  {
    var x := w.restores[r];
    && x.phase != Validating
    && (!x.finalizer ==> x.phase == Pending && !x.deleting)
    && (x.mode == ToPVC ==> x.phase == Pending || x.phase == Restoring || Terminal(x.phase))
    && (x.mode == InPlace && Locked(x.phase) ==> Holds(w, r))
    && (x.mode == InPlace && x.phase != Pending && x.phase != Failed ==> x.originalReplicas.Some?)
    && (x.phase == Restoring ==> x.jobNamed)
    && (x.mode == InPlace && x.phase == Restoring ==> Quiet(w, x.source))
    && (x.mode == InPlace && x.phase == Resuming && x.source in w.workloads ==>
          var n := Desired(w.workloads[x.source]); n == 0 || n == ResumeCount(x))
    && (x.phase == Resuming || x.phase == Completed ==> r in w.succeeded)
  }

  /** A running InPlace Job has its restore behind it and the application out of the way. */
  ghost predicate JobOk(w: World, r: string)
    requires r in w.restores
  {
    var x := w.restores[r];
    && (x.mode == InPlace && r in w.jobs ==> x.phase != Pending && x.phase != AcquiringLock)
    && (x.mode == InPlace && JobRuns(w, r) ==>
          && Holds(w, r) && Quiet(w, x.source)
          && (x.phase == Fencing || x.phase == Restoring || x.phase == Failed))
    && (r in w.jobs && VerdictOf(w.jobs[r].conditions) == Succeeded ==> r in w.succeeded)
  }

  ghost predicate StatusOk(w: World, r: string, x: Restore, pc: Pc)
    requires pc.AtStatus?
  {
    match pc.phase
    case Failed => !pc.nameJob && pc.replicas.None?
    case AcquiringLock => x.mode == InPlace && (x.phase == AcquiringLock || (x.phase == Pending && pc.replicas.Some?))
    case Fencing => x.mode == InPlace && x.phase == AcquiringLock && Holds(w, r)
    case Restoring =>
      && pc.nameJob
      && (if x.mode == ToPVC then x.phase == Pending else x.phase == Fencing && Quiet(w, x.source))
    case Resuming => x.mode == InPlace && x.phase == Restoring && r in w.succeeded && !JobRuns(w, r)
    case Completed => x.mode == ToPVC && x.phase == Restoring && r in w.succeeded
    case _ => false
  }

  /** Facts a pass in flight established and nobody else can undo. */
  ghost predicate PcOk(w: World, b: Busy, x: Restore) {
    match b.pc
    case AtAddFinalizer => true
    case AtStoreTarget(_, text) => x.phase == Pending && text != PAUSED_CONFIG
    case AtReadReplicas => x.phase == Pending && x.mode == InPlace
    case AtStatus(_, _, _) => StatusOk(w, b.name, x, b.pc)
    case AtAcquireLease(_) => x.phase == AcquiringLock && x.mode == InPlace
    case AtPause => x.phase == AcquiringLock && x.mode == InPlace && Holds(w, b.name)
    case AtRepause => x.phase == Fencing && x.mode == InPlace
    case AtScaleDown(text) =>
      && x.phase == Fencing && x.mode == InPlace && text != PAUSED_CONFIG
      && FenceOk(w, b, x)
    case AtJobConfig(_, text) => text != PAUSED_CONFIG && MayCreateJob(w, b, x)
    case AtCreateJob(_) => MayCreateJob(w, b, x)
    case AtResume => x.phase == Resuming && x.mode == InPlace
    case AtAwaitUnpaused => x.phase == Resuming && x.mode == InPlace
    case AtScaleUp(count) => x.phase == Resuming && x.mode == InPlace && count == ResumeCount(x)
    case AtConclude(phase, release, _, skipped) =>
      && x.mode == InPlace && release && !JobRuns(w, b.name)
      && (phase == Failed || phase == Completed)
      && (phase == Failed ==> x.phase == Restoring)
      && (phase == Completed ==>
            && x.phase == Resuming
            && (!skipped && x.source in w.workloads ==> Desired(w.workloads[x.source]) == ResumeCount(x)))
    case AtFinalize(release, resume) => x.deleting && release == (x.mode == InPlace) && (resume ==> release)
  }

  /** Past the gate of Fencing the pause is in place, unless a user has undone it since. */
  ghost predicate FenceOk(w: World, b: Busy, x: Restore) {
    b.mark == PauseBroken || (b.mark == Unmarked && PauseSeen(w, x.source))
  }

  ghost predicate MayCreateJob(w: World, b: Busy, x: Restore) {
    if x.mode == ToPVC then x.phase == Pending
    else x.phase == Fencing && Quiet(w, x.source) && FenceOk(w, b, x)
  }

  /** The source is missing, or was until a user put it back under this pass. */
  predicate FoundGone(w: World, b: Busy, x: Restore) {
    b.mark == SourceBack || (b.mark == Unmarked && x.source !in w.sources)
  }

  /** A terminal restore only runs a pass when it is being deleted or its source is gone. */
  ghost predicate TerminalPassOk(w: World, b: Busy, x: Restore) {
    Terminal(x.phase) ==> b.pc.AtFinalize? || (b.pc == FAIL_RESTORE && FoundGone(w, b, x))
  }

  ghost predicate WorkerOk(w: World) {
    w.worker.Some? && !w.worker.value.pc.AtAddFinalizer? ==>
      var b := w.worker.value;
      && b.name in w.restores
      && var x := w.restores[b.name]; x.finalizer && PcOk(w, b, x) && TerminalPassOk(w, b, x)
  }

  /** Leases, restores, Jobs and workloads fit together. */
  ghost predicate Core(w: World) {
    && (forall s :: s in w.leases ==> LeaseOk(w, s))
    && (forall r :: r in w.restores ==> PhaseOk(w, r))
    && (forall r :: r in w.restores ==> JobOk(w, r))
    && w.jobs.Keys <= w.restores.Keys
    && w.succeeded <= w.restores.Keys
  }

  /** A restore's own ConfigMap never reads as paused. */
  ghost predicate ConfigsOk(w: World) {
    forall k :: k in w.configs && w.configs[k].owner == OfRestore ==> w.configs[k].text != PAUSED_CONFIG
  }

  ghost predicate Inv(w: World) {
    Core(w) && ConfigsOk(w) && WorkerOk(w)
  }

  lemma InitialInv(w: World)
    requires Initial(w)
    ensures Inv(w)
  {
    forall r | r in w.restores
      ensures PhaseOk(w, r) && JobOk(w, r)
    {
      var x := w.restores[r];
      assert x == FreshRestore(x.mode, x.source, x.target);
    }
  }

  // ---------------------------------------------------------------- what each kind of write does to the core

  predicate SameCore(w: World, w': World) {
    && w'.restores == w.restores && w'.leases == w.leases && w'.workloads == w.workloads
    && w'.jobs == w.jobs && w'.succeeded == w.succeeded
  }

  lemma CoreSame(w: World, w': World)
    requires Core(w) && SameCore(w, w')
    ensures Core(w')
  {
    forall r | r in w'.restores
      ensures PhaseOk(w', r) && JobOk(w', r)
    {
      assert PhaseOk(w, r) && JobOk(w, r);
    }
    forall s | s in w'.leases
      ensures LeaseOk(w', s)
    {
      assert LeaseOk(w, s);
    }
  }

  /** A status or metadata write of one restore. */
  lemma CorePut(w: World, r: string, x: Restore)
    requires Core(w) && r in w.restores
    requires x.mode == w.restores[r].mode && x.source == w.restores[r].source
    requires w.restores[r].finalizer ==> x.finalizer
    requires x.phase == Pending ==> w.restores[r].phase == Pending
    requires PhaseOk(PutRestore(w, r, x), r) && JobOk(PutRestore(w, r, x), r)
    ensures Core(PutRestore(w, r, x))
  {
    var w' := PutRestore(w, r, x);
    forall q | q in w'.restores
      ensures PhaseOk(w', q) && JobOk(w', q)
    {
      if q != r {
        assert PhaseOk(w, q) && JobOk(w, q);
        assert w'.restores[q] == w.restores[q];
      }
    }
    forall s | s in w'.leases
      ensures LeaseOk(w', s)
    {
      assert LeaseOk(w, s);
    }
  }

  /** A write to the workload of s: only a restore that holds the lease of s can tell. */
  lemma CoreWorkload(w: World, s: string, w': World)
    requires Core(w)
    requires w' == w.(workloads := w'.workloads)
    requires forall t :: t != s ==> (t in w.workloads <==> t in w'.workloads)
    requires forall t :: t != s && t in w.workloads ==> w.workloads[t] == w'.workloads[t]
    requires s in w.leases ==> PhaseOk(w', w.leases[s]) && JobOk(w', w.leases[s])
    ensures Core(w')
  {
    forall q | q in w'.restores
      ensures PhaseOk(w', q) && JobOk(w', q)
    {
      assert PhaseOk(w, q) && JobOk(w, q);
      var x := w.restores[q];
      assert Holds(w', q) == Holds(w, q);
      if x.source != s {
        assert Quiet(w', x.source) == Quiet(w, x.source);
      }
    }
    forall t | t in w'.leases
      ensures LeaseOk(w', t)
    {
      assert LeaseOk(w, t);
    }
  }

  lemma CoreAcquire(w: World, r: string)
    requires Core(w) && r in w.restores
    requires
      var x := w.restores[r];
      x.mode == InPlace && x.finalizer && x.phase != Pending && x.source !in w.leases
    ensures Core(w.(leases := w.leases[w.restores[r].source := r]))
  {
    var s := w.restores[r].source;
    var w' := w.(leases := w.leases[s := r]);
    forall q | q in w'.restores
      ensures PhaseOk(w', q) && JobOk(w', q)
    {
      assert PhaseOk(w, q) && JobOk(w, q);
      assert Holds(w, q) ==> Holds(w', q);
    }
    forall t | t in w'.leases
      ensures LeaseOk(w', t)
    {
      assert t != s ==> LeaseOk(w, t);
    }
  }

  lemma CoreRelease(w: World, r: string)
    requires Core(w)
    requires r in w.restores ==> !Locked(w.restores[r].phase) && !JobRuns(w, r)
    ensures Core(Release(w, r))
  {
    if Holds(w, r) {
      var w' := Release(w, r);
      forall q | q in w'.restores
        ensures PhaseOk(w', q) && JobOk(w', q)
      {
        assert PhaseOk(w, q) && JobOk(w, q);
        assert q != r && Holds(w, q) ==> Holds(w', q);
      }
      forall t | t in w'.leases
        ensures LeaseOk(w', t)
      {
        assert LeaseOk(w, t);
      }
    }
  }

  /** A change to the Job of r that does not take it out of the succeeded set. */
  lemma CoreJob(w: World, r: string, w': World)
    requires Core(w) && r in w.restores
    requires w' == w.(jobs := w'.jobs, succeeded := w'.succeeded)
    requires w.succeeded <= w'.succeeded <= w.succeeded + {r}
    requires w'.jobs - {r} == w.jobs - {r}
    requires JobOk(w', r)
    ensures Core(w')
  {
    forall q | q in w'.restores
      ensures PhaseOk(w', q) && JobOk(w', q)
    {
      assert PhaseOk(w, q) && JobOk(w, q);
      if q != r {
        assert q in w'.jobs - {r} <==> q in w.jobs - {r};
        assert q in w.jobs ==> (w'.jobs - {r})[q] == (w.jobs - {r})[q];
      }
    }
    forall t | t in w'.leases
      ensures LeaseOk(w', t)
    {
      assert LeaseOk(w, t);
    }
    forall q | q in w'.jobs
      ensures q in w'.restores
    {
      assert q != r ==> q in w'.jobs - {r};
    }
  }

  /** What removing restore r leaves of another one. */
  lemma RemoveSpares(w: World, r: string, q: string)
    requires q in w.restores && q != r && PhaseOk(w, q) && JobOk(w, q)
    ensures q in RemoveRestore(w, r).restores && PhaseOk(RemoveRestore(w, r), q) && JobOk(RemoveRestore(w, r), q)
  {
    var w' := RemoveRestore(w, r);
    assert w'.restores[q] == w.restores[q] && w'.workloads == w.workloads;
    assert Holds(w, q) ==> Holds(w', q);
    assert q in w.jobs ==> w'.jobs[q] == w.jobs[q];
  }

  lemma RemoveLeases(w: World, r: string, t: string)
    requires t in RemoveRestore(w, r).leases && LeaseOk(w, t)
    ensures LeaseOk(RemoveRestore(w, r), t)
  {
    assert w.leases[t] != r;
  }

  lemma CoreRemove(w: World, r: string)
    requires Core(w)
    ensures Core(RemoveRestore(w, r))
  {
    var w' := RemoveRestore(w, r);
    forall q | q in w'.restores
      ensures PhaseOk(w', q) && JobOk(w', q)
    {
      RemoveSpares(w, r, q);
    }
    forall t | t in w'.leases
      ensures LeaseOk(w', t)
    {
      RemoveLeases(w, r, t);
    }
  }

  predicate SameWorkload(w: World, w': World, s: string) {
    (s in w.workloads <==> s in w'.workloads) && (s in w.workloads ==> w.workloads[s] == w'.workloads[s])
  }

  // ---------------------------------------------------------------- the calls of a pass

  /** A pass in flight past the finalizer, with the status it works on. */
  ghost predicate Standing(w: World, b: Busy, x: Restore) {
    && Inv(w) && w.worker == Some(b) && b.name in w.restores && x == w.restores[b.name]
  }

  lemma StopKeeps(w: World, w': World)
    requires Core(w) && ConfigsOk(w)
    requires SameCore(w, w') && w'.configs == w.configs && w'.worker.None?
    ensures Inv(w')
  {
    CoreSame(w, w');
  }

  lemma AddFinalizerKeeps(w: World, b: Busy, x: Restore)
    requires Standing(w, b, x) && b.pc.AtAddFinalizer?
    ensures Inv(Stop(PutRestore(w, b.name, x.(finalizer := true))))
  {
    assert PhaseOk(w, b.name) && JobOk(w, b.name);
    CorePut(w, b.name, x.(finalizer := true));
    StopKeeps(PutRestore(w, b.name, x.(finalizer := true)), Stop(PutRestore(w, b.name, x.(finalizer := true))));
  }

  lemma StoreTargetKeeps(w: World, b: Busy, x: Restore, io: Io)
    requires Standing(w, b, x) && b.pc.AtStoreTarget?
    ensures Inv(ExecStoreTarget(w, b, x, io))
  {
    if io.ok {
      StoreTargetCore(w, b, x);
      CoreSame(PutRestore(w, b.name, x.(resolved := b.pc.target)), ExecStoreTarget(w, b, x, io));
    } else {
      CoreSame(w, Stop(w));
    }
  }

  lemma StoreTargetCore(w: World, b: Busy, x: Restore)
    requires Standing(w, b, x) && b.pc.AtStoreTarget?
    ensures Core(PutRestore(w, b.name, x.(resolved := b.pc.target)))
  {
    assert PhaseOk(w, b.name) && JobOk(w, b.name);
    CorePut(w, b.name, x.(resolved := b.pc.target));
  }

  lemma ReadReplicasKeeps(w: World, b: Busy, x: Restore, io: Io)
    requires Standing(w, b, x) && b.pc.AtReadReplicas?
    ensures Inv(ExecReadReplicas(w, b, x, io))
  {
    CoreSame(w, ExecReadReplicas(w, b, x, io));
  }

  lemma StatusPhaseOk(w: World, b: Busy, x: Restore)
    requires Standing(w, b, x) && b.pc.AtStatus?
    ensures
      var w' := PutRestore(w, b.name, SetStatus(x, b.pc.phase, b.pc.nameJob, b.pc.replicas));
      PhaseOk(w', b.name) && JobOk(w', b.name)
  {
    assert PhaseOk(w, b.name) && JobOk(w, b.name) && StatusOk(w, b.name, x, b.pc);
  }

  lemma StatusKeeps(w: World, b: Busy, x: Restore, io: Io)
    requires Standing(w, b, x) && b.pc.AtStatus?
    ensures Inv(ExecStatus(w, b, x, io))
  {
    var x' := SetStatus(x, b.pc.phase, b.pc.nameJob, b.pc.replicas);
    assert x.finalizer && b.pc.phase != Pending;
    StatusPhaseOk(w, b, x);
    CorePut(w, b.name, x');
    CoreSame(PutRestore(w, b.name, x'), ExecStatus(w, b, x, io.(ok := true)));
    CoreSame(w, Stop(w));
  }

  lemma AcquireLeaseKeeps(w: World, b: Busy, x: Restore, io: Io)
    requires Standing(w, b, x) && b.pc.AtAcquireLease?
    ensures Inv(ExecAcquireLease(w, b, x, io))
  {
    var w' := ExecAcquireLease(w, b, x, io);
    if w'.worker.None? {
      CoreSame(w, w');
    } else {
      CoreAcquire(w, b.name);
      CoreSame(w.(leases := w.leases[x.source := b.name]), w');
    }
  }

  lemma PauseKeeps(w: World, b: Busy, x: Restore, io: Io)
    requires Standing(w, b, x) && (b.pc.AtPause? || b.pc.AtRepause?)
    ensures Inv(ExecPause(w, b, x, io))
  {
    CoreSame(w, ExecPause(w, b, x, io));
  }

  /** Past the scale-down gate the application is fenced. */
  lemma GateKeeps(w: World, b: Busy, x: Restore)
    requires Standing(w, b, x) && b.pc.AtScaleDown? && Quiet(w, x.source)
    ensures Inv(Goto(w, b, AtJobConfig(x.resolved, b.pc.text)))
  {
    var w' := Goto(w, b, AtJobConfig(x.resolved, b.pc.text));
    CoreSame(w, w');
    assert MayCreateJob(w', w'.worker.value, x);
  }

  lemma ScaledDownKeeps(w: World, b: Busy, x: Restore)
    requires Standing(w, b, x) && b.pc.AtScaleDown? && x.source in w.workloads
    ensures Inv(Scale(w, x.source, 0))
  {
    var w1 := Scale(w, x.source, 0);
    assert PhaseOk(w, b.name) && JobOk(w, b.name);
    assert PhaseOk(w1, b.name) && JobOk(w1, b.name);
    CoreWorkload(w, x.source, w1);
  }

  lemma ScaleDownKeeps(w: World, b: Busy, x: Restore, io: Io)
    requires Standing(w, b, x) && b.pc.AtScaleDown?
    ensures Inv(ExecScaleDown(w, b, x, io))
  {
    if !io.readable {
      CoreSame(w, Goto(w, b, FAIL_RESTORE));
    } else if x.source !in w.workloads {
      GateKeeps(w, b, x);
    } else if w.workloads[x.source].replicas != Some(0) && !io.ok {
      CoreSame(w, Stop(w));
    } else {
      var w1 := Scale(w, x.source, 0);
      ScaledDownKeeps(w, b, x);
      if w1.workloads[x.source].running > 0 {
        CoreSame(w1, Stop(w1));
      } else {
        GateKeeps(w1, b, x);
      }
    }
  }

  lemma JobConfigKeeps(w: World, b: Busy, x: Restore, io: Io)
    requires Standing(w, b, x) && b.pc.AtJobConfig?
    ensures Inv(ExecJobConfig(w, b, io))
  {
    CoreSame(w, ExecJobConfig(w, b, io));
  }

  lemma CreateJobKeeps(w: World, b: Busy, x: Restore, io: Io)
    requires Standing(w, b, x) && b.pc.AtCreateJob?
    ensures Inv(ExecCreateJob(w, b, io))
  {
    assert PhaseOk(w, b.name) && JobOk(w, b.name) && MayCreateJob(w, b, x);
    var w' := ExecCreateJob(w, b, io);
    if b.name !in w.jobs && io.ok {
      CreatedJobCore(w, b, x);
      CoreSame(w.(jobs := w.jobs[b.name := Job(b.pc.target, [])]), w');
    } else {
      CoreSame(w, w');
    }
  }

  lemma CreatedJobCore(w: World, b: Busy, x: Restore)
    requires Standing(w, b, x) && b.pc.AtCreateJob? && b.name !in w.jobs
    ensures Core(w.(jobs := w.jobs[b.name := Job(b.pc.target, [])]))
  {
    assert PhaseOk(w, b.name) && JobOk(w, b.name) && MayCreateJob(w, b, x);
    CoreJob(w, b.name, w.(jobs := w.jobs[b.name := Job(b.pc.target, [])]));
  }

  lemma ResumeKeeps(w: World, b: Busy, x: Restore, io: Io)
    requires Standing(w, b, x) && b.pc.AtResume?
    ensures Inv(ExecResume(w, b, x, io))
  {
    CoreSame(w, ExecResume(w, b, x, io));
  }

  lemma AwaitUnpausedWorker(w: World, b: Busy, x: Restore)
    requires w.worker == Some(b) && b.name in w.restores && x == w.restores[b.name]
    requires WorkerOk(w) && b.pc.AtAwaitUnpaused?
    requires PhaseOk(w, b.name) && JobOk(w, b.name)
    ensures WorkerOk(ExecAwaitUnpaused(w, b, x))
  {
  }

  lemma AwaitUnpausedKeeps(w: World, b: Busy, x: Restore)
    requires Standing(w, b, x) && b.pc.AtAwaitUnpaused?
    ensures Inv(ExecAwaitUnpaused(w, b, x))
  {
    AwaitUnpausedWorker(w, b, x);
    CoreSame(w, ExecAwaitUnpaused(w, b, x));
  }

  lemma ScaledUpOk(w: World, b: Busy, x: Restore)
    requires w.worker == Some(b) && b.name in w.restores && x == w.restores[b.name] && x.source in w.workloads
    requires WorkerOk(w) && b.pc.AtScaleUp? && PhaseOk(w, b.name) && JobOk(w, b.name)
    ensures
      var w1 := Scale(w, x.source, b.pc.count);
      PhaseOk(w1, b.name) && JobOk(w1, b.name)
  {
  }

  lemma ScaleUpCore(w: World, b: Busy, x: Restore, io: Io)
    requires Standing(w, b, x) && b.pc.AtScaleUp?
    ensures Core(ExecScaleUp(w, b, x, io))
  {
    var w' := ExecScaleUp(w, b, x, io);
    assert PhaseOk(w, b.name) && JobOk(w, b.name);
    if x.source in w.workloads {
      var w1 := Scale(w, x.source, b.pc.count);
      ScaledUpOk(w, b, x);
      assert w.leases[x.source] == b.name;
      CoreWorkload(w, x.source, w1);
      assert SameCore(w, w') || SameCore(w1, w');
      if SameCore(w1, w') {
        CoreSame(w1, w');
      } else {
        CoreSame(w, w');
      }
    } else {
      CoreSame(w, w');
    }
  }

  lemma ScaleUpWorker(w: World, b: Busy, x: Restore, io: Io)
    requires w.worker == Some(b) && b.name in w.restores && x == w.restores[b.name]
    requires WorkerOk(w) && b.pc.AtScaleUp?
    requires PhaseOk(w, b.name) && JobOk(w, b.name)
    ensures WorkerOk(ExecScaleUp(w, b, x, io))
  {
  }

  lemma ScaleUpKeeps(w: World, b: Busy, x: Restore, io: Io)
    requires Standing(w, b, x) && b.pc.AtScaleUp?
    ensures Inv(ExecScaleUp(w, b, x, io))
  {
    ScaleUpCore(w, b, x, io);
    ScaleUpWorker(w, b, x, io);
  }

  /** The status write that ends a cleanup leaves the restore neither locked nor with a running Job. */
  lemma ConcludedPhaseOk(w: World, b: Busy, x: Restore)
    requires Standing(w, b, x) && b.pc.AtConclude?
    ensures
      var w1 := PutRestore(w, b.name, SetStatus(x, b.pc.phase, false, None));
      Core(w1) && !Locked(w1.restores[b.name].phase) && !JobRuns(w1, b.name)
  {
    ConcludedRestoreOk(w, b, x);
    CorePut(w, b.name, SetStatus(x, b.pc.phase, false, None));
  }

  lemma ConcludedRestoreOk(w: World, b: Busy, x: Restore)
    requires Standing(w, b, x) && b.pc.AtConclude?
    ensures
      var w1 := PutRestore(w, b.name, SetStatus(x, b.pc.phase, false, None));
      && PhaseOk(w, b.name) && JobOk(w, b.name) && PhaseOk(w1, b.name) && JobOk(w1, b.name)
      && !Locked(w1.restores[b.name].phase) && !JobRuns(w1, b.name)
  {
    assert PhaseOk(w, b.name) && JobOk(w, b.name);
  }

  /** Releasing before or after the status write comes to the same. */
  lemma ConcludeOrder(w: World, b: Busy, x: Restore, io: Io)
    requires b.name in w.restores && x == w.restores[b.name] && b.pc.AtConclude? && io.ok
    ensures
      var w1 := PutRestore(w, b.name, SetStatus(x, b.pc.phase, false, None));
      SameCore(if b.pc.release && io.released then Release(w1, b.name) else w1, ExecConclude(w, b, x, io))
  {
  }

  lemma ConcludeCore(w: World, b: Busy, x: Restore, io: Io)
    requires Standing(w, b, x) && b.pc.AtConclude? && io.ok
    ensures Core(ExecConclude(w, b, x, io))
  {
    var w1 := PutRestore(w, b.name, SetStatus(x, b.pc.phase, false, None));
    ConcludedPhaseOk(w, b, x);
    ConcludeOrder(w, b, x, io);
    if b.pc.release && io.released {
      CoreRelease(w1, b.name);
      CoreSame(Release(w1, b.name), ExecConclude(w, b, x, io));
    } else {
      CoreSame(w1, ExecConclude(w, b, x, io));
    }
  }

  lemma ConcludeKeeps(w: World, b: Busy, x: Restore, io: Io)
    requires Standing(w, b, x) && b.pc.AtConclude?
    requires !Torn(w, io)
    ensures Inv(ExecConclude(w, b, x, io))
  {
    if io.ok {
      ConcludeCore(w, b, x, io);
    } else {
      CoreSame(w, ExecConclude(w, b, x, io));
    }
  }

  /** Releasing or not makes no difference once the restore is gone. */
  lemma FinalizeCore(w: World, b: Busy, x: Restore, io: Io)
    requires b.name in w.restores && x == w.restores[b.name] && b.pc.AtFinalize?
    requires io.ok
    ensures SameCore(RemoveRestore(w, b.name), ExecFinalize(w, b, x, io))
    ensures ExecFinalize(w, b, x, io).configs == RemoveRestore(w, b.name).configs
  {
    var w1 := Cleanup(w, b.name, x.source, b.pc.release, b.pc.resume, io);
    assert w1.restores == w.restores;
    assert RemoveRestore(w1, b.name).leases == RemoveRestore(w, b.name).leases;
  }

  lemma FinalizeKeeps(w: World, b: Busy, x: Restore, io: Io)
    requires Standing(w, b, x) && b.pc.AtFinalize?
    requires !Torn(w, io)
    ensures Inv(ExecFinalize(w, b, x, io))
  {
    var w' := ExecFinalize(w, b, x, io);
    if io.ok {
      FinalizeCore(w, b, x, io);
      CoreRemove(w, b.name);
      CoreSame(RemoveRestore(w, b.name), w');
    } else {
      CoreSame(w, w');
    }
  }

  predicate BeforeJobCall(pc: Pc) {
    || pc.AtAddFinalizer? || pc.AtStoreTarget? || pc.AtReadReplicas? || pc.AtAcquireLease? || pc.AtPause?
    || pc.AtRepause? || pc.AtScaleDown?
  }

  lemma FirstCallsKeep(w: World, b: Busy, x: Restore, io: Io)
    requires Standing(w, b, x) && BeforeJobCall(b.pc)
    ensures Inv(Exec(w, io))
  {
    match b.pc
    case AtAddFinalizer =>
      AddFinalizerKeeps(w, b, x);
      CoreSame(w, Stop(w));
    case AtStoreTarget(_, _) => StoreTargetKeeps(w, b, x, io);
    case AtReadReplicas => ReadReplicasKeeps(w, b, x, io);
    case AtAcquireLease(_) => AcquireLeaseKeeps(w, b, x, io);
    case AtPause => PauseKeeps(w, b, x, io);
    case AtRepause => PauseKeeps(w, b, x, io);
    case AtScaleDown(_) => ScaleDownKeeps(w, b, x, io);
  }

  lemma LaterCallsKeep(w: World, b: Busy, x: Restore, io: Io)
    requires Standing(w, b, x) && !Torn(w, io) && !BeforeJobCall(b.pc)
    ensures Inv(Exec(w, io))
  {
    match b.pc
    case AtStatus(_, _, _) => StatusKeeps(w, b, x, io);
    case AtJobConfig(_, _) => JobConfigKeeps(w, b, x, io);
    case AtCreateJob(_) => CreateJobKeeps(w, b, x, io);
    case AtResume => ResumeKeeps(w, b, x, io);
    case AtAwaitUnpaused => AwaitUnpausedKeeps(w, b, x);
    case AtScaleUp(_) => ScaleUpKeeps(w, b, x, io);
    case AtConclude(_, _, _, _) => ConcludeKeeps(w, b, x, io);
    case AtFinalize(_, _) => FinalizeKeeps(w, b, x, io);
  }

  lemma CallKeeps(w: World, io: Io)
    requires Inv(w) && w.worker.Some? && !Torn(w, io)
    ensures Inv(Exec(w, io))
  {
    var b := w.worker.value;
    if b.name !in w.restores {
      CoreSame(w, Stop(w));
    } else if BeforeJobCall(b.pc) {
      FirstCallsKeep(w, b, w.restores[b.name], io);
    } else {
      LaterCallsKeep(w, b, w.restores[b.name], io);
    }
  }

  // ---------------------------------------------------------------- the start of a pass

  ghost predicate EntryOk(w: World, r: string, pc: Option<Pc>)
    requires r in w.restores
  {
    pc.Some? ==> PcOk(w, Busy(r, pc.value, Unmarked), w.restores[r])
  }

  lemma EnterPendingOk(w: World, r: string, text: string, readable: bool)
    requires r in w.restores && w.restores[r].phase == Pending && text != PAUSED_CONFIG
    ensures EntryOk(w, r, EnterPending(w, w.restores[r], text, readable))
  {
  }

  lemma EnterAcquiringLockOk(w: World, r: string, src: Source)
    requires r in w.restores && w.restores[r].phase == AcquiringLock && PhaseOk(w, r)
    ensures EntryOk(w, r, EnterAcquiringLock(w, r, w.restores[r], src))
  {
  }

  lemma EnterFencingOk(w: World, r: string, src: Source, text: string)
    requires r in w.restores && w.restores[r].phase == Fencing && PhaseOk(w, r) && text != PAUSED_CONFIG
    requires w.restores[r].source in w.sources && src == w.sources[w.restores[r].source]
    ensures EntryOk(w, r, EnterFencing(w, w.restores[r], src, text))
  {
  }

  lemma EnterRestoringOk(w: World, r: string, src: Source)
    requires r in w.restores && w.restores[r].phase == Restoring && PhaseOk(w, r) && JobOk(w, r)
    ensures EntryOk(w, r, EnterRestoring(w, r, w.restores[r], src))
  {
  }

  lemma EnterOk(w: World, r: string, readable: bool)
    requires r in w.restores && PhaseOk(w, r) && JobOk(w, r)
    ensures
      var pc := Enter(w, r, readable);
      pc.Some? && !pc.value.AtAddFinalizer? ==>
        && w.restores[r].finalizer
        && PcOk(w, Busy(r, pc.value, Unmarked), w.restores[r])
        && TerminalPassOk(w, Busy(r, pc.value, Unmarked), w.restores[r])
  {
    var x := w.restores[r];
    if x.finalizer && x.source in w.sources && !x.deleting && !Terminal(x.phase) {
      var src := w.sources[x.source];
      NeverPausedText(src.spec);
      match x.phase
      case Pending => EnterPendingOk(w, r, Render(src.spec), readable);
      case AcquiringLock => EnterAcquiringLockOk(w, r, src);
      case Fencing => EnterFencingOk(w, r, src, Render(src.spec));
      case Restoring => EnterRestoringOk(w, r, src);
      case Resuming =>
    }
  }

  lemma BeginKeeps(w: World, r: string, readable: bool)
    requires Inv(w)
    ensures Inv(Begin(w, r, readable))
  {
    if w.worker.None? && r in w.restores {
      BeginWorker(w, r, readable);
      WorkerOnly(w, Begin(w, r, readable));
    }
  }

  lemma WorkerOnly(w: World, w': World)
    requires Inv(w) && w' == w.(worker := w'.worker) && WorkerOk(w')
    ensures Inv(w')
  {
    CoreSame(w, w');
  }

  lemma BeginWorker(w: World, r: string, readable: bool)
    requires w.worker.None? && r in w.restores && PhaseOk(w, r) && JobOk(w, r)
    ensures WorkerOk(Begin(w, r, readable))
  {
    EnterOk(w, r, readable);
    var w' := Begin(w, r, readable);
    if w'.worker.Some? {
      PcOkHere(w, w', w'.worker.value, w.restores[r]);
    }
  }

  /** What a pass relies on lies in the objects, not in the worker. */
  lemma PcOkHere(w: World, w': World, b: Busy, x: Restore)
    requires SameCore(w, w') && w'.sources == w.sources && w'.configs == w.configs
    ensures PcOk(w, b, x) == PcOk(w', b, x)
    ensures TerminalPassOk(w, b, x) == TerminalPassOk(w', b, x)
  {
  }

  // ---------------------------------------------------------------- the other actors

  /** The pass in flight sees nothing it relied on taken away. */
  ghost predicate Spared(w: World, w': World) {
    w.worker.Some? ==>
      var b := w.worker.value;
      && w'.worker == w.worker
      && (b.name in w.restores && !b.pc.AtAddFinalizer? ==>
            var x := w.restores[b.name];
            && b.name in w'.restores && w'.restores[b.name] == x
            && (Holds(w, b.name) ==> Holds(w', b.name))
            && (Holds(w, b.name) && Quiet(w, x.source) ==> Quiet(w', x.source))
            && (PauseSeen(w, x.source) ==> PauseSeen(w', x.source))
            && (x.source !in w.sources ==> x.source !in w'.sources)
            && (JobRuns(w', b.name) ==> JobRuns(w, b.name))
            && (b.name in w.succeeded ==> b.name in w'.succeeded)
            && (Holds(w, b.name) && x.source in w'.workloads ==>
                  x.source in w.workloads && Desired(w'.workloads[x.source]) == Desired(w.workloads[x.source])))
  }

  lemma SparedWorker(w: World, w': World)
    requires WorkerOk(w) && Spared(w, w') && w'.worker == w.worker
    requires forall r :: r in w.restores ==> PhaseOk(w, r)
    ensures WorkerOk(w')
  {
    if w.worker.Some? && !w.worker.value.pc.AtAddFinalizer? {
      assert PhaseOk(w, w.worker.value.name);
    }
  }

  lemma ReplicateKeeps(w: World, s: string)
    requires Inv(w)
    ensures Inv(ReplicaPass(w, s))
  {
    var w' := ReplicaPass(w, s);
    CoreSame(w, w');
    ReplicateSpares(w, s);
    SparedWorker(w, w');
  }

  lemma ReplicateSpares(w: World, s: string)
    ensures Spared(w, ReplicaPass(w, s))
  {
    if w.worker.Some? && w.worker.value.name in w.restores {
      var t := w.restores[w.worker.value.name].source;
      assert PauseSeen(w, t) ==> PauseSeen(ReplicaPass(w, s), t);
    }
  }

  /** Pods only move towards the desired count, so a fenced application stays fenced. */
  lemma RunningKeeps(w: World, s: string, n: nat)
    requires Inv(w) && s in w.workloads
    requires Desired(w.workloads[s]) == 0 && w.workloads[s].running == 0 ==> n == 0
    ensures Inv(SetRunning(w, s, n))
  {
    var w' := SetRunning(w, s, n);
    if s in w.leases {
      assert LeaseOk(w, s);
      RunningHolderOk(w, s, n);
    }
    CoreWorkload(w, s, w');
    RunningSpares(w, s, n);
    SparedWorker(w, w');
  }

  lemma RunningHolderOk(w: World, s: string, n: nat)
    requires s in w.workloads && s in w.leases && w.leases[s] in w.restores
    requires Desired(w.workloads[s]) == 0 && w.workloads[s].running == 0 ==> n == 0
    requires PhaseOk(w, w.leases[s]) && JobOk(w, w.leases[s])
    ensures PhaseOk(SetRunning(w, s, n), w.leases[s]) && JobOk(SetRunning(w, s, n), w.leases[s])
  {
  }

  lemma RunningSpares(w: World, s: string, n: nat)
    requires s in w.workloads
    requires Desired(w.workloads[s]) == 0 && w.workloads[s].running == 0 ==> n == 0
    ensures Spared(w, SetRunning(w, s, n))
  {
    assert forall t :: Quiet(w, t) ==> Quiet(SetRunning(w, s, n), t);
  }

  lemma DrainKeeps(w: World, s: string)
    requires Inv(w)
    ensures Inv(DrainOne(w, s))
  {
    var w' := DrainOne(w, s);
    if w' != w {
      var n := w'.workloads[s].running;
      assert w' == SetRunning(w, s, n);
      RunningKeeps(w, s, n);
    }
  }

  lemma GrowKeeps(w: World, s: string)
    requires Inv(w)
    ensures Inv(GrowOne(w, s))
  {
    var w' := GrowOne(w, s);
    if w' != w {
      var n := w'.workloads[s].running;
      assert w' == SetRunning(w, s, n);
      RunningKeeps(w, s, n);
    }
  }

  lemma ReportKeeps(w: World, r: string, conditions: seq<JobCondition>)
    requires Inv(w)
    ensures Inv(ReportJob(w, r, conditions))
  {
    if JobRuns(w, r) {
      var w' := ReportJob(w, r, conditions);
      assert PhaseOk(w, r) && JobOk(w, r);
      assert w'.jobs - {r} == w.jobs - {r};
      CoreJob(w, r, w');
      SparedWorker(w, w');
    }
  }

  lemma JobGoneKeeps(w: World, r: string)
    requires Inv(w)
    ensures Inv(w.(jobs := w.jobs - {r}))
  {
    var w' := w.(jobs := w.jobs - {r});
    if r in w.restores {
      assert PhaseOk(w, r) && JobOk(w, r);
      CoreJob(w, r, w');
    } else {
      assert w'.jobs == w.jobs;
    }
    SparedWorker(w, w');
  }

  lemma CreateRestoreKeeps(w: World, r: string, mode: Mode, s: string, target: Option<Target>)
    requires Inv(w) && r !in w.restores
    ensures Inv(PutRestore(w, r, FreshRestore(mode, s, target)))
  {
    var w' := PutRestore(w, r, FreshRestore(mode, s, target));
    forall q | q in w'.restores
      ensures PhaseOk(w', q) && JobOk(w', q)
    {
      if q != r {
        assert PhaseOk(w, q) && JobOk(w, q);
        assert w'.restores[q] == w.restores[q];
      }
    }
    forall t | t in w'.leases
      ensures LeaseOk(w', t)
    {
      assert LeaseOk(w, t);
    }
    CreateSpares(w, r, FreshRestore(mode, s, target));
    SparedWorker(w, w');
  }

  lemma CreateSpares(w: World, r: string, x: Restore)
    requires r !in w.restores
    ensures Spared(w, PutRestore(w, r, x))
  {
  }

  lemma DeleteKeeps(w: World, r: string)
    requires Inv(w)
    ensures Inv(Delete(w, r))
  {
    if r in w.restores {
      assert PhaseOk(w, r) && JobOk(w, r);
      if w.restores[r].finalizer {
        CorePut(w, r, w.restores[r].(deleting := true));
        DeletingWorker(w, r);
      } else {
        CoreRemove(w, r);
        RemovedSpares(w, r);
        SparedWorker(w, RemoveRestore(w, r));
      }
    }
  }

  lemma DeletingWorker(w: World, r: string)
    requires WorkerOk(w) && r in w.restores
    ensures WorkerOk(PutRestore(w, r, w.restores[r].(deleting := true)))
  {
  }

  /** Only a restore without finalizer goes at once, and no pass in flight stands past that. */
  lemma RemovedSpares(w: World, r: string)
    requires WorkerOk(w) && ConfigsOk(w) && r in w.restores && !w.restores[r].finalizer
    ensures Spared(w, RemoveRestore(w, r))
  {
    var w' := RemoveRestore(w, r);
    if w.worker.Some? && w.worker.value.name in w.restores && !w.worker.value.pc.AtAddFinalizer? {
      var b := w.worker.value;
      var x := w.restores[b.name];
      assert b.name != r && w'.restores[b.name] == x;
    }
  }

  /** A user's write to source s or its ConfigMap: the pass that works on s is marked, others see nothing. */
  lemma UserWriteKeeps(w: World, s: string, w': World)
    requires Inv(w)
    requires UserWrite(w, s, w')
    ensures Inv(w')
  {
    CoreSame(w, w');
    if w.worker.Some? && !w.worker.value.pc.AtAddFinalizer? {
      var b := w.worker.value;
      var x := w.restores[b.name];
      if x.source != s {
        ElsewhereUnseen(w, s, w', x.source);
        SparedWorker(w, w');
      } else {
        MarkedPass(w, s, w', b, x);
      }
    }
  }

  lemma ElsewhereUnseen(w: World, s: string, w': World, t: string)
    requires w'.sources - {s} == w.sources - {s} && w'.configs - {s} == w.configs - {s} && t != s
    ensures PauseSeen(w, t) == PauseSeen(w', t)
    ensures t in w.sources <==> t in w'.sources
  {
    assert t in w.sources - {s} <==> t in w'.sources - {s};
    assert t in w.configs - {s} <==> t in w'.configs - {s};
    assert t in w.sources ==> (w.sources - {s})[t] == w.sources[t];
    assert t in w'.sources ==> (w'.sources - {s})[t] == w'.sources[t];
    assert t in w.configs ==> (w.configs - {s})[t] == w.configs[t];
    assert t in w'.configs ==> (w'.configs - {s})[t] == w'.configs[t];
  }

  /** A marked pass no longer claims what the write undid. */
  lemma MarkedPass(w: World, s: string, w': World, b: Busy, x: Restore)
    requires UserWrite(w, s, w') && w.worker == Some(b) && b.name in w.restores && x == w.restores[b.name] && x.source == s
    requires PcOk(w, b, x) && TerminalPassOk(w, b, x)
    ensures w'.worker.Some? && PcOk(w', w'.worker.value, x) && TerminalPassOk(w', w'.worker.value, x)
  {
    var b' := w'.worker.value;
    assert b'.name == b.name && b'.pc == b.pc;
    assert FenceOk(w, b, x) ==> FenceOk(w', b', x);
    assert FoundGone(w, b, x) ==> FoundGone(w', b', x);
  }

  /** A user's write touches one source and its ConfigMap, and may mark the pass. */
  predicate UserWrite(w: World, s: string, w': World) {
    && SameCore(w, w')
    && (if w.worker.None? then w'.worker.None?
        else w'.worker == Some(w.worker.value.(mark := MarkOf(w, w.worker.value, s, w'))))
    && w'.sources - {s} == w.sources - {s} && w'.configs - {s} == w.configs - {s}
    && (forall k :: k in w'.configs ==> k in w.configs && w'.configs[k] == w.configs[k])
  }

  lemma PutSourceWrites(w: World, s: string, spec: ReplicaSpec, paused: bool)
    ensures UserWrite(w, s, Next(w, PutSource(s, spec, paused)))
  {
    var w' := w.(sources := w.sources[s := Source(spec, paused)]);
    assert w'.sources - {s} == w.sources - {s};
    MarkedWrites(w, s, w');
  }

  lemma DropSourceWrites(w: World, s: string)
    ensures UserWrite(w, s, Next(w, DropSource(s)))
  {
    var w' := RemoveSource(w, s);
    MarkedWrites(w, s, w') by {
      assert w'.configs == w.configs || w'.configs == w.configs - {s};
      assert w'.sources - {s} == w.sources - {s} && w'.configs - {s} == w.configs - {s};
    }
  }

  lemma MarkedWrites(w: World, s: string, w': World)
    requires SameCore(w, w') && w'.worker == w.worker
    requires w'.sources - {s} == w.sources - {s} && w'.configs - {s} == w.configs - {s}
    requires forall k :: k in w'.configs ==> k in w.configs && w'.configs[k] == w.configs[k]
    ensures UserWrite(w, s, Marked(w, s, w'))
  {
  }

  lemma DropConfigWrites(w: World, s: string)
    ensures UserWrite(w, s, Next(w, DropConfig(s)))
  {
    var w' := w.(configs := w.configs - {s});
    assert w'.configs - {s} == w.configs - {s};
    MarkedWrites(w, s, w');
  }

  lemma PutWorkloadKeeps(w: World, s: string, wl: Option<Workload>)
    requires Inv(w) && s !in w.leases
    ensures Inv(Next(w, PutWorkload(s, wl)))
  {
    var w' := Next(w, PutWorkload(s, wl));
    CoreWorkload(w, s, w');
    PutWorkloadSpares(w, s, wl);
    SparedWorker(w, w');
  }

  lemma PutWorkloadSpares(w: World, s: string, wl: Option<Workload>)
    requires Inv(w) && s !in w.leases
    ensures Spared(w, Next(w, PutWorkload(s, wl)))
  {
    var w' := Next(w, PutWorkload(s, wl));
    if w.worker.Some? && w.worker.value.name in w.restores && !w.worker.value.pc.AtAddFinalizer? {
      var b := w.worker.value;
      var x := w.restores[b.name];
      assert x.source != s ==> SameWorkload(w, w', x.source);
    }
  }

  // ---------------------------------------------------------------- every step, every run

  lemma StepKeeps(w: World, step: Step)
    requires Inv(w) && Allowed(w, step)
    ensures Inv(Next(w, step))
  {
    match step
    case StartPass(r, readable) => BeginKeeps(w, r, readable);
    case Call(io) => if w.worker.Some? { CallKeeps(w, io); }
    case Crash => CoreSame(w, Stop(w));
    case Replicate(s) => ReplicateKeeps(w, s);
    case Drain(s) => DrainKeeps(w, s);
    case Grow(s) => GrowKeeps(w, s);
    case JobReports(r, conditions) => ReportKeeps(w, r, conditions);
    case JobGone(r) => JobGoneKeeps(w, r);
    case CreateRestore(r, mode, s, target) => if r !in w.restores { CreateRestoreKeeps(w, r, mode, s, target); }
    case DeleteRestore(r) => DeleteKeeps(w, r);
    case PutSource(s, spec, paused) =>
      PutSourceWrites(w, s, spec, paused);
      UserWriteKeeps(w, s, Next(w, step));
    case DropSource(s) =>
      DropSourceWrites(w, s);
      UserWriteKeeps(w, s, Next(w, step));
    case DropConfig(s) =>
      DropConfigWrites(w, s);
      UserWriteKeeps(w, s, Next(w, step));
    case PutWorkload(s, wl) => PutWorkloadKeeps(w, s, wl);
  }

  /** Every state of every run satisfies the invariant. */
  lemma {:induction false} RunInv(ws: seq<World>, steps: seq<Step>, i: nat)
    requires IsRun(ws, steps) && i < |ws|
    ensures Inv(ws[i])
  {
    if i == 0 {
      InitialInv(ws[0]);
    } else {
      RunInv(ws, steps, i - 1);
      StepKeeps(ws[i - 1], steps[i - 1]);
    }
  }
}
