/** The promises of the restore protocol, each over every state or every step of every run. */
module RestoreTheorems {
  import opened ApiTypes
  import opened LitestreamConfig
  import opened RestoreProtocol
  import opened RestoreSafety

  // ---------------------------------------------------------------- what one call can write

  predicate Early(pc: Pc) { pc.AtAddFinalizer? || pc.AtStoreTarget? || pc.AtReadReplicas? || pc.AtStatus? }
  predicate Fence(pc: Pc) {
    pc.AtAcquireLease? || pc.AtPause? || pc.AtRepause? || pc.AtScaleDown? || pc.AtJobConfig? || pc.AtCreateJob?
  }
  predicate Ending(pc: Pc) { pc.AtConclude? || pc.AtFinalize? }
  predicate Late(pc: Pc) { pc.AtResume? || pc.AtAwaitUnpaused? || pc.AtScaleUp? }

  lemma EarlyFrame(w: World, io: Io)
    requires w.worker.Some? && Early(w.worker.value.pc)
    ensures Exec(w, io) == w.(restores := Exec(w, io).restores, worker := Exec(w, io).worker)
  {
  }

  lemma FenceKeepsRestores(w: World, io: Io)
    requires w.worker.Some? && Fence(w.worker.value.pc)
    ensures Exec(w, io).restores == w.restores
  {
  }

  lemma FenceFrame(w: World, io: Io)
    requires w.worker.Some? && Fence(w.worker.value.pc)
    ensures
      var pc, w' := w.worker.value.pc, Exec(w, io);
      && (pc.AtAcquireLease? || w'.leases == w.leases)
      && (pc.AtScaleDown? || w'.workloads == w.workloads)
      && (pc.AtCreateJob? || w'.jobs == w.jobs)
  {
    var b := w.worker.value;
    if b.name in w.restores {
      var x := w.restores[b.name];
      match b.pc
      case AtAcquireLease(_) => assert Exec(w, io) == ExecAcquireLease(w, b, x, io);
      case AtPause => assert Exec(w, io) == ExecPause(w, b, x, io);
      case AtRepause => assert Exec(w, io) == ExecPause(w, b, x, io);
      case AtScaleDown(_) => assert Exec(w, io) == ExecScaleDown(w, b, x, io);
      case AtJobConfig(_, _) => assert Exec(w, io) == ExecJobConfig(w, b, io);
      case AtCreateJob(_) => assert Exec(w, io) == ExecCreateJob(w, b, io);
    }
  }

  lemma LateFrame(w: World, io: Io)
    requires w.worker.Some? && Late(w.worker.value.pc)
    ensures
      var w' := Exec(w, io);
      && w' == w.(sources := w'.sources, workloads := w'.workloads, worker := w'.worker)
      && (w.worker.value.pc.AtScaleUp? || w'.workloads == w.workloads)
  {
    var b := w.worker.value;
    if b.name in w.restores {
      var x := w.restores[b.name];
      match b.pc
      case AtResume => assert Exec(w, io) == ExecResume(w, b, x, io);
      case AtAwaitUnpaused => assert Exec(w, io) == ExecAwaitUnpaused(w, b, x);
      case AtScaleUp(_) => assert Exec(w, io) == ExecScaleUp(w, b, x, io);
    }
  }

  lemma EndingFrame(w: World, io: Io)
    requires w.worker.Some? && Ending(w.worker.value.pc)
    ensures Exec(w, io).workloads == w.workloads
    ensures w.worker.value.pc.AtConclude? ==> Exec(w, io).jobs == w.jobs
  {
    var b := w.worker.value;
    if b.name in w.restores {
      if b.pc.AtConclude? {
        assert Exec(w, io) == ExecConclude(w, b, w.restores[b.name], io);
      } else {
        assert Exec(w, io) == ExecFinalize(w, b, w.restores[b.name], io);
      }
    }
  }

  /** Early, Fence, Late and Ending are all there is. */
  lemma CallFrame(w: World, io: Io)
    requires w.worker.Some?
    ensures
      var pc, w' := w.worker.value.pc, Exec(w, io);
      && (Early(pc) || Fence(pc) || Late(pc) || Ending(pc))
      && (!pc.AtAcquireLease? && !Ending(pc) ==> w'.leases == w.leases)
      && (!pc.AtScaleDown? && !pc.AtScaleUp? ==> w'.workloads == w.workloads)
      && (!pc.AtCreateJob? && !pc.AtFinalize? ==> w'.jobs == w.jobs)
      && (Fence(pc) || Late(pc) ==> w'.restores == w.restores)
  {
    var pc := w.worker.value.pc;
    if Early(pc) {
      EarlyFrame(w, io);
    } else if Fence(pc) {
      FenceFrame(w, io);
      FenceKeepsRestores(w, io);
    } else if Late(pc) {
      LateFrame(w, io);
    } else {
      EndingFrame(w, io);
    }
  }

  lemma AcquireLeases(w: World, io: Io, s: string)
    requires w.worker.Some? && s in w.leases && w.worker.value.pc.AtAcquireLease?
    ensures s in Exec(w, io).leases && Exec(w, io).leases[s] == w.leases[s]
  {
    var b := w.worker.value;
    if b.name in w.restores {
      assert Exec(w, io) == ExecAcquireLease(w, b, w.restores[b.name], io);
    }
  }

  lemma EndingLeases(w: World, io: Io, s: string)
    requires w.worker.Some? && s in w.leases && Ending(w.worker.value.pc) && w.leases[s] != w.worker.value.name
    ensures s in Exec(w, io).leases && Exec(w, io).leases[s] == w.leases[s]
  {
    var b := w.worker.value;
    if b.name in w.restores {
      CleanupSpares(w, b.name, w.restores[b.name].source, b.pc.release, b.pc.resume, io, s);
      if b.pc.AtConclude? {
        assert Exec(w, io) == ExecConclude(w, b, w.restores[b.name], io);
      } else {
        assert Exec(w, io) == ExecFinalize(w, b, w.restores[b.name], io);
      }
    }
  }

  lemma CleanupSpares(w: World, r: string, t: string, release: bool, resume: bool, io: Io, s: string)
    requires s in w.leases && w.leases[s] != r
    ensures
      var w' := Cleanup(w, r, t, release, resume, io);
      && s in w'.leases && w'.leases[s] == w.leases[s]
      && s in Release(w', r).leases && Release(w', r).leases[s] == w.leases[s]
  {
  }

  lemma CallLeases(w: World, io: Io, s: string)
    requires w.worker.Some? && s in w.leases
    ensures
      var b, w' := w.worker.value, Exec(w, io);
      || (s in w'.leases && w'.leases[s] == w.leases[s])
      || (w.leases[s] == b.name && (b.pc.AtConclude? || b.pc.AtFinalize?))
  {
    var b := w.worker.value;
    if Ending(b.pc) && w.leases[s] != b.name {
      EndingLeases(w, io, s);
    } else if Ending(b.pc) {
    } else if b.pc.AtAcquireLease? {
      AcquireLeases(w, io, s);
    } else {
      CallFrame(w, io);
    }
  }

  lemma CallWorkloads(w: World, io: Io, s: string)
    requires w.worker.Some? && s in w.workloads
    ensures
      var b, w' := w.worker.value, Exec(w, io);
      && s in w'.workloads
      && (|| w'.workloads[s] == w.workloads[s]
          || Desired(w'.workloads[s]) == 0
          || (b.pc.AtScaleUp? && b.name in w.restores && w.restores[b.name].source == s))
  {
    CallFrame(w, io);
  }

  lemma CallJobs(w: World, io: Io, r: string)
    requires w.worker.Some? && r !in w.jobs && r in Exec(w, io).jobs
    ensures w.worker.value.name == r && w.worker.value.pc.AtCreateJob?
  {
    CallFrame(w, io);
  }

  /** The status or metadata the call at pc writes back. */
  function Written(x: Restore, pc: Pc): Restore {
    match pc
    case AtAddFinalizer => x.(finalizer := true)
    case AtStoreTarget(target, _) => x.(resolved := target)
    case AtStatus(phase, nameJob, replicas) => SetStatus(x, phase, nameJob, replicas)
    case AtConclude(phase, _, _, _) => SetStatus(x, phase, false, None)
    case _ => x
  }

  lemma StoreTargetWrites(w: World, b: Busy, y: Restore, io: Io, r: string)
    requires w.worker == Some(b) && b.pc.AtStoreTarget? && b.name in w.restores && y == w.restores[b.name] && r in w.restores
    ensures
      && r in Exec(w, io).restores
      && (Exec(w, io).restores[r] == w.restores[r] || (b.name == r && Exec(w, io).restores[r] == Written(y, b.pc)))
  {
    assert Exec(w, io) == ExecStoreTarget(w, b, y, io);
  }

  lemma StatusWrites(w: World, b: Busy, y: Restore, io: Io, r: string)
    requires w.worker == Some(b) && b.pc.AtStatus? && b.name in w.restores && y == w.restores[b.name] && r in w.restores
    ensures
      && r in Exec(w, io).restores
      && (Exec(w, io).restores[r] == w.restores[r] || (b.name == r && Exec(w, io).restores[r] == Written(y, b.pc)))
  {
    assert Exec(w, io) == ExecStatus(w, b, y, io);
  }

  lemma EarlyWrites(w: World, io: Io, r: string)
    requires w.worker.Some? && Early(w.worker.value.pc) && r in w.restores && r in Exec(w, io).restores
    ensures
      var b, x, x' := w.worker.value, w.restores[r], Exec(w, io).restores[r];
      x' == x || (b.name == r && x' == Written(x, b.pc))
  {
    var b := w.worker.value;
    if b.name in w.restores {
      var y := w.restores[b.name];
      match b.pc
      case AtAddFinalizer =>
      case AtStoreTarget(_, _) => StoreTargetWrites(w, b, y, io, r);
      case AtReadReplicas => assert Exec(w, io) == ExecReadReplicas(w, b, y, io);
      case AtStatus(_, _, _) => StatusWrites(w, b, y, io, r);
    }
  }

  lemma EndingWrites(w: World, io: Io, r: string)
    requires w.worker.Some? && Ending(w.worker.value.pc) && r in w.restores && r in Exec(w, io).restores
    ensures
      var b, x, x' := w.worker.value, w.restores[r], Exec(w, io).restores[r];
      x' == x || (b.name == r && x' == Written(x, b.pc))
  {
  }

  lemma CallRestores(w: World, io: Io, r: string)
    requires w.worker.Some? && r in w.restores && r in Exec(w, io).restores
    ensures
      var b, x, x' := w.worker.value, w.restores[r], Exec(w, io).restores[r];
      x' == x || (b.name == r && x' == Written(x, b.pc))
  {
    var pc := w.worker.value.pc;
    if Fence(pc) {
      FenceKeepsRestores(w, io);
    } else if Late(pc) {
      LateFrame(w, io);
    } else if Early(pc) {
      EarlyWrites(w, io, r);
    } else {
      EndingWrites(w, io, r);
    }
  }

  /** Steps other than a call leave a surviving restore alone, but for the deletion mark. */
  lemma OtherStepsSpare(w: World, step: Step, r: string)
    requires !step.Call? && r in w.restores && r in Next(w, step).restores
    ensures
      var x, x' := w.restores[r], Next(w, step).restores[r];
      x' == x || x' == x.(deleting := true)
  {
  }

  // ---------------------------------------------------------------- one writer

  /** While an InPlace restore Job runs, its restore holds the lease and the application has no pod and wants none. */
  lemma SingleWriter(ws: seq<World>, steps: seq<Step>, i: nat, r: string)
    requires IsRun(ws, steps) && i < |ws|
    requires r in ws[i].jobs && JobRuns(ws[i], r)
    ensures r in ws[i].restores
    ensures ws[i].restores[r].mode == InPlace ==> Holds(ws[i], r) && Quiet(ws[i], ws[i].restores[r].source)
  {
    RunInv(ws, steps, i);
    assert JobOk(ws[i], r);
  }

  /** Two InPlace Jobs over one source never run together. */
  lemma OneJobPerSource(ws: seq<World>, steps: seq<Step>, i: nat, r: string, q: string)
    requires IsRun(ws, steps) && i < |ws|
    requires JobRuns(ws[i], r) && JobRuns(ws[i], q)
    requires r in ws[i].restores && q in ws[i].restores
    requires ws[i].restores[r].mode == InPlace && ws[i].restores[q].mode == InPlace
    requires ws[i].restores[r].source == ws[i].restores[q].source
    ensures r == q
  {
    SingleWriter(ws, steps, i, r);
    SingleWriter(ws, steps, i, q);
  }

  // ---------------------------------------------------------------- the lock

  /** A restore in a locked phase is the recorded holder, so there is at most one per source. */
  lemma LockExclusive(ws: seq<World>, steps: seq<Step>, i: nat, r: string, q: string)
    requires IsRun(ws, steps) && i < |ws|
    requires r in ws[i].restores && q in ws[i].restores
    requires ws[i].restores[r].mode == InPlace && Locked(ws[i].restores[r].phase)
    ensures ws[i].leases.Keys >= {ws[i].restores[r].source} && ws[i].leases[ws[i].restores[r].source] == r
    ensures
      (&& ws[i].restores[q].mode == InPlace && Locked(ws[i].restores[q].phase)
       && ws[i].restores[q].source == ws[i].restores[r].source) ==> q == r
  {
    RunInv(ws, steps, i);
    assert PhaseOk(ws[i], r) && PhaseOk(ws[i], q);
  }

  /** The pass of r is about to delete its lease. */
  predicate Lets(w: World, r: string, step: Step) {
    && step.Call? && w.worker.Some? && w.worker.value.name == r
    && (w.worker.value.pc.AtConclude? || w.worker.value.pc.AtFinalize?)
  }

  lemma OtherStepsKeepLeases(w: World, step: Step)
    requires !step.Call? && !step.DeleteRestore?
    ensures Next(w, step).leases == w.leases
  {
  }

  /** A lease disappears or changes hands only when its holder's own pass concludes or finalizes. */
  lemma LeaseKept(w: World, step: Step, s: string)
    requires Inv(w) && Allowed(w, step) && s in w.leases
    requires !Lets(w, w.leases[s], step)
    ensures s in Next(w, step).leases && Next(w, step).leases[s] == w.leases[s]
  {
    match step
    case Call(io) => if w.worker.Some? { CallLeases(w, io, s); }
    case DeleteRestore(r) => DeleteKeepsLease(w, r, s);
    case _ => OtherStepsKeepLeases(w, step);
  }

  lemma DeleteKeepsLease(w: World, r: string, s: string)
    requires s in w.leases && LeaseOk(w, s)
    ensures s in Delete(w, r).leases && Delete(w, r).leases[s] == w.leases[s]
  {
  }

  // ---------------------------------------------------------------- scaling

  /** The pass of r stands at its scale-up, in phase Resuming, with the lease, after its own Job completed. */
  predicate Resumes(w: World, r: string, s: string) {
    && w.worker.Some? && w.worker.value.name == r && w.worker.value.pc.AtScaleUp?
    && r in w.restores && w.restores[r].source == s && w.restores[r].mode == InPlace
    && w.restores[r].phase == Resuming && Holds(w, r) && r in w.succeeded
  }

  lemma CallScales(w: World, io: Io, s: string)
    requires Inv(w) && w.worker.Some? && s in w.workloads
    ensures
      var w' := Exec(w, io);
      && s in w'.workloads
      && (Desired(w'.workloads[s]) > Desired(w.workloads[s]) ==> Resumes(w, w.worker.value.name, s))
  {
    CallWorkloads(w, io, s);
    var b := w.worker.value;
    if b.pc.AtScaleUp? && b.name in w.restores {
      assert PhaseOk(w, b.name);
    }
  }

  /**
   The only step that raises the count of a workload, other than a user's write to a workload whose
   lease is free, is the scale-up of a Resuming pass whose own Job reached Complete.
   */
  lemma GatedScaleUp(w: World, step: Step, s: string)
    requires Inv(w) && Allowed(w, step)
    requires s in w.workloads && s in Next(w, step).workloads
    requires Desired(Next(w, step).workloads[s]) > Desired(w.workloads[s])
    ensures (step.PutWorkload? && step.source == s && s !in w.leases) ||
            (step.Call? && w.worker.Some? && Resumes(w, w.worker.value.name, s))
  {
    match step
    case Call(io) => if w.worker.Some? { CallScales(w, io, s); }
    case _ =>
  }

  // ---------------------------------------------------------------- the recorded count

  /** originalReplicas is written once. */
  lemma CountWrittenOnce(w: World, step: Step, r: string)
    requires r in w.restores && w.restores[r].originalReplicas.Some?
    requires r in Next(w, step).restores
    ensures Next(w, step).restores[r].originalReplicas == w.restores[r].originalReplicas
  {
    match step
    case Call(io) => if w.worker.Some? { CallRestores(w, io, r); }
    case _ => OtherStepsSpare(w, step, r);
  }

  predicate Completes(w: World, step: Step, r: string) {
    && r in w.restores && r in Next(w, step).restores
    && w.restores[r].phase != Completed && Next(w, step).restores[r].phase == Completed
  }

  lemma StatusIsOk(w: World)
    requires WorkerOk(w) && w.worker.Some?
    ensures
      var b := w.worker.value;
      b.pc.AtStatus? ==> b.name in w.restores && StatusOk(w, b.name, w.restores[b.name], b.pc)
  {
  }

  lemma CompletedByConclude(w: World, step: Step, r: string)
    requires Inv(w) && Completes(w, step, r) && w.restores[r].mode == InPlace
    ensures step.Call? && w.worker.Some?
    ensures w.worker.value.name == r && w.worker.value.pc.AtConclude? && w.worker.value.pc.phase == Completed
    ensures Next(w, step).workloads == w.workloads && w.restores[r].phase == Resuming
  {
    if !step.Call? {
      OtherStepsSpare(w, step, r);
    } else if w.worker.Some? {
      StatusIsOk(w);
      CallRestores(w, step.io, r);
    }
  }

  /**
   When an InPlace restore completes with its workload there, the workload wants exactly the recorded
   number of pods, unless the workload could not be read at scale-up.
   */
  lemma CountConserved(w: World, step: Step, r: string)
    requires Inv(w) && Completes(w, step, r) && w.restores[r].mode == InPlace
    ensures w.worker.Some? && w.worker.value.pc.AtConclude? && w.restores[r].originalReplicas.Some?
    ensures
      var s := w.restores[r].source;
      !w.worker.value.pc.skipped && s in Next(w, step).workloads ==>
        Desired(Next(w, step).workloads[s]) == w.restores[r].originalReplicas.value
  {
    CompletedByConclude(w, step, r);
    assert PhaseOk(w, r);
  }

  ghost predicate SameCount(w: World, w': World, r: string) {
    && r in w.restores && r in w'.restores
    && (w.restores[r].originalReplicas.Some? ==> w'.restores[r].originalReplicas == w.restores[r].originalReplicas)
  }

  lemma RunKeepsCount(ws: seq<World>, steps: seq<Step>, k: nat, r: string)
    requires IsRun(ws, steps) && k < |steps| && r in ws[k].restores && r in ws[k + 1].restores
    ensures SameCount(ws[k], ws[k + 1], r)
  {
    var w, step, w' := ws[k], steps[k], ws[k + 1];
    assert w' == Next(w, step);
    if w.restores[r].originalReplicas.Some? {
      CountWrittenOnce(w, step, r);
    }
  }

  lemma {:induction false} CountKept(ws: seq<World>, i: nat, j: nat, r: string)
    requires i <= j < |ws| && r in ws[i].restores && ws[i].restores[r].originalReplicas.Some?
    requires forall k :: i <= k < j ==> SameCount(ws[k], ws[k + 1], r)
    ensures r in ws[j].restores && ws[j].restores[r].originalReplicas == ws[i].restores[r].originalReplicas
    decreases j - i
  {
    if i < j {
      CountKept(ws, i, j - 1, r);
      assert SameCount(ws[j - 1], ws[j - 1 + 1], r);
    }
  }

  lemma RunKeepsCounts(ws: seq<World>, steps: seq<Step>, i: nat, j: nat, r: string)
    requires IsRun(ws, steps) && i <= j < |ws|
    requires forall k :: i <= k <= j ==> r in ws[k].restores
    ensures forall k :: i <= k < j ==> SameCount(ws[k], ws[k + 1], r)
  {
    forall k | i <= k < j ensures SameCount(ws[k], ws[k + 1], r) {
      RunKeepsCount(ws, steps, k, r);
    }
  }

  /** Over any run: the count once recorded is the count the application gets back on completion. */
  lemma CountConservedOverRun(ws: seq<World>, steps: seq<Step>, i: nat, j: nat, r: string)
    requires IsRun(ws, steps) && i <= j < |steps|
    requires forall k :: i <= k <= j ==> r in ws[k].restores
    requires ws[i].restores[r].originalReplicas.Some?
    requires Completes(ws[j], steps[j], r) && ws[j].restores[r].mode == InPlace
    ensures ws[j].worker.Some? && ws[j].worker.value.pc.AtConclude?
    ensures
      var s := ws[j].restores[r].source;
      !ws[j].worker.value.pc.skipped && s in ws[j].workloads ==>
        Desired(ws[j].workloads[s]) == ws[i].restores[r].originalReplicas.value
  {
    RunInv(ws, steps, j);
    RunKeepsCounts(ws, steps, i, j, r);
    CountKept(ws, i, j, r);
    CompletedWithCount(ws[j], steps[j], r);
  }

  lemma CompletedWithCount(w: World, step: Step, r: string)
    requires Inv(w) && Completes(w, step, r) && w.restores[r].mode == InPlace
    ensures w.worker.Some? && w.worker.value.pc.AtConclude? && w.restores[r].originalReplicas.Some?
    ensures
      var s := w.restores[r].source;
      !w.worker.value.pc.skipped && s in w.workloads ==> Desired(w.workloads[s]) == w.restores[r].originalReplicas.value
  {
    CompletedByConclude(w, step, r);
    CountConserved(w, step, r);
  }

  /**
   What a pass records while another restore a has the lock: 0 exactly when the application is scaled down, which it is
   during Restoring; during Resuming it is that or already back at a's own count.
   */
  lemma CountUnderLock(w: World, io: Io, a: string)
    requires Inv(w) && w.worker.Some? && w.worker.value.pc.AtReadReplicas? && io.readable
    requires a in w.restores && w.restores[a].mode == InPlace && Locked(w.restores[a].phase)
    requires w.worker.value.name in w.restores && w.restores[w.worker.value.name].source == w.restores[a].source
    ensures
      var w', s := Exec(w, io), w.restores[a].source;
      && w'.worker.Some? && w'.worker.value.pc.AtStatus? && w'.worker.value.pc.replicas.Some?
      && var n := w'.worker.value.pc.replicas.value;
         && (n == 0 <==> (s in w.workloads ==> Desired(w.workloads[s]) == 0))
         && (w.restores[a].phase == Restoring ==> n == 0)
         && (w.restores[a].phase == Resuming ==> n == 0 || n == ResumeCount(w.restores[a]))
  {
    assert PhaseOk(w, a);
  }

  // ---------------------------------------------------------------- the fence handshake

  predicate CreatesJob(w: World, step: Step, r: string) {
    r in w.restores && r !in w.jobs && r in Next(w, step).jobs
  }

  /**
   An InPlace Job is created only while its restore holds the lease and the application is fenced, and with the
   pause flag set and seen in the ConfigMap, unless a user has taken just that away since the pass read it.
   */
  lemma FencedAtCreation(w: World, step: Step, r: string)
    requires Inv(w) && CreatesJob(w, step, r) && w.restores[r].mode == InPlace
    ensures step.Call? && w.worker.Some? && w.worker.value.name == r
    ensures Holds(w, r) && Quiet(w, w.restores[r].source)
    ensures FenceOk(w, w.worker.value, w.restores[r])
  {
    JobsOnlyByCall(w, step, r);
    CallJobs(w, step.io, r);
    assert PhaseOk(w, r) && MayCreateJob(w, w.worker.value, w.restores[r]);
  }

  lemma JobsOnlyByCall(w: World, step: Step, r: string)
    requires CreatesJob(w, step, r)
    ensures step.Call? && w.worker.Some?
  {
  }

  /** The replica controller never undoes the handshake, for any source. */
  lemma HandshakeKept(w: World, s: string, t: string)
    requires PauseSeen(w, t)
    ensures PauseSeen(ReplicaPass(w, s), t)
  {
  }

  /** A config map the replica controller wrote reads as paused exactly when the flag was set. */
  lemma MirrorIsExact(w: World, s: string)
    requires s in w.sources && (s in w.configs ==> w.configs[s].owner == OfSource)
    ensures s in ReplicaPass(w, s).configs
    ensures ReplicaPass(w, s).configs[s].text == "dbs: []\n" <==> w.sources[s].paused
    ensures !w.sources[s].paused ==> ReplicaPass(w, s).configs[s].text == Render(w.sources[s].spec)
    ensures ReplicaPass(w, s).configs[s].owner == OfSource && ReplicaPass(w, s) == w.(configs := ReplicaPass(w, s).configs)
  {
    NeverPausedText(w.sources[s].spec);
  }

  // ---------------------------------------------------------------- ToPVC restores stay away

  /** No call of a ToPVC restore's pass writes a lease, a pause flag or a workload. */
  lemma ToPVCLeavesAlone(w: World, io: Io)
    requires Inv(w) && w.worker.Some? && w.worker.value.name in w.restores
    requires w.restores[w.worker.value.name].mode == ToPVC
    ensures
      var w' := Exec(w, io);
      w'.leases == w.leases && w'.sources == w.sources && w'.workloads == w.workloads
  {
    ToPVCHoldsNothing(w, w.worker.value.name);
    match w.worker.value.pc
    case AtAddFinalizer =>
    case AtStoreTarget(_, _) =>
    case AtReadReplicas =>
    case AtStatus(_, _, _) =>
    case AtAcquireLease(_) =>
    case AtPause =>
    case AtRepause =>
    case AtScaleDown(_) =>
    case AtJobConfig(_, _) =>
    case AtCreateJob(_) =>
    case AtResume =>
    case AtAwaitUnpaused =>
    case AtScaleUp(_) =>
    case AtConclude(_, _, _, _) =>
    case AtFinalize(_, _) =>
  }

  lemma ToPVCHoldsNothing(w: World, r: string)
    requires Inv(w) && r in w.restores && w.restores[r].mode == ToPVC
    ensures !Holds(w, r)
  {
    assert forall s :: s in w.leases ==> LeaseOk(w, s);
  }

  /** AcquiringLock, Fencing and Resuming are unreachable for it. */
  lemma ToPVCPhases(ws: seq<World>, steps: seq<Step>, i: nat, r: string)
    requires IsRun(ws, steps) && i < |ws|
    requires r in ws[i].restores && ws[i].restores[r].mode == ToPVC
    ensures ws[i].restores[r].phase == Pending || ws[i].restores[r].phase == Restoring ||
            Terminal(ws[i].restores[r].phase)
  {
    RunInv(ws, steps, i);
    assert PhaseOk(ws[i], r);
  }

  // ---------------------------------------------------------------- phase order

  function Rank(phase: Phase): nat {
    match phase
    case Pending => 0
    case AcquiringLock => 1
    case Fencing => 2
    case Restoring => 3
    case Validating => 4
    case Resuming => 5
    case Completed => 6
    case Failed => 7
  }

  lemma CallRaises(w: World, io: Io, r: string)
    requires Inv(w) && w.worker.Some? && r in w.restores && r in Exec(w, io).restores
    ensures
      var p, p' := w.restores[r].phase, Exec(w, io).restores[r].phase;
      && Rank(p) <= Rank(p')
      && (p == Completed && p' != Completed ==>
            && p' == Failed && w.worker.value.name == r
            && FoundGone(w, w.worker.value, w.restores[r]))
  {
    CallRestores(w, io, r);
    var b := w.worker.value;
    if b.name == r && b.pc.AtStatus? {
      assert StatusOk(w, r, w.restores[r], b.pc);
    }
  }

  /**
   No step lowers the phase of a restore; Failed is final, and Completed is left only for Failed, by a pass that found
   the source object gone, even if a user has put it back since.
   */
  lemma PhaseOrder(w: World, step: Step, r: string)
    requires Inv(w) && r in w.restores && r in Next(w, step).restores
    ensures
      var p, p' := w.restores[r].phase, Next(w, step).restores[r].phase;
      && Rank(p) <= Rank(p')
      && (p == Failed ==> p' == Failed)
      && (p == Completed && p' != Completed ==>
            && p' == Failed && step.Call? && w.worker.Some? && w.worker.value.name == r
            && FoundGone(w, w.worker.value, w.restores[r]))
  {
    match step
    case Call(io) => if w.worker.Some? { CallRaises(w, io, r); }
    case _ => OtherStepsSpare(w, step, r);
  }

  /** How often the phase of r changes along a stretch of worlds. */
  ghost function PhaseChanges(ws: seq<World>, r: string): nat
    requires forall w :: w in ws ==> r in w.restores
  {
    if |ws| < 2 then 0
    else (if ws[0].restores[r].phase != ws[1].restores[r].phase then 1 else 0) + PhaseChanges(ws[1..], r)
  }

  ghost predicate IsStretch(ws: seq<World>, steps: seq<Step>) {
    && |ws| == |steps| + 1 && Inv(ws[0])
    && forall i :: 0 <= i < |steps| ==> Allowed(ws[i], steps[i]) && ws[i + 1] == Next(ws[i], steps[i])
  }

  /** While a restore exists its phase changes at most seven times, however long the run. */
  lemma {:induction false} BoundedPhaseChanges(ws: seq<World>, steps: seq<Step>, r: string)
    requires IsStretch(ws, steps)
    requires forall w :: w in ws ==> r in w.restores
    ensures PhaseChanges(ws, r) + Rank(ws[0].restores[r].phase) <= 7
  {
    if |ws| >= 2 {
      assert ws[1] in ws && ws[1] == Next(ws[0], steps[0]);
      StepKeeps(ws[0], steps[0]);
      PhaseOrder(ws[0], steps[0], r);
      BoundedPhaseChanges(ws[1..], steps[1..], r);
      SamePhaseSameRank(ws[0].restores[r].phase, ws[1].restores[r].phase);
    }
  }

  lemma SamePhaseSameRank(p: Phase, q: Phase)
    ensures Rank(p) == Rank(q) <==> p == q
  {
  }
}
