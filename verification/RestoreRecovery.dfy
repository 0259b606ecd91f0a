/**
 Crash recovery. A pass may die between any two of its calls, or in the middle of a cleanup; running one
 complete pass afterwards leaves the very same world as if the first pass had never been cut.
 */
module RestoreRecovery {
  import opened ApiTypes
  import opened LitestreamConfig
  import opened RestoreProtocol
  import opened RestoreSafety

  // ---------------------------------------------------------------- cut passes

  /** The pass in flight after k successful calls. */
  function Calls(w: World, k: nat): World
    decreases k
  {
    if k == 0 || w.worker.None? then w else Calls(Exec(w, ALL_OK), k - 1)
  }

  /**
   A pass over r that makes k calls and dies at the next one. That call fails; if it belongs to a cleanup,
   the lease may already be deleted and the pause flag cleared, as io says.
   */
  datatype Cut = Cut(k: nat, io: Io)

  predicate CutsPass(w: World, r: string, cut: Cut) {
    Calls(Begin(w, r, true), cut.k).worker.Some? && !cut.io.ok
  }

  function CutPass(w: World, r: string, cut: Cut): World
    requires CutsPass(w, r, cut)
  {
    Stop(Exec(Calls(Begin(w, r, true), cut.k), cut.io))
  }

  /** Any number of cut passes, one after the other. */
  ghost predicate CutRun(ws: seq<World>, r: string, cuts: seq<Cut>) {
    && |ws| == |cuts| + 1
    && ws[0].worker.None? && ConfigsOk(ws[0])
    && forall i :: 0 <= i < |cuts| ==> CutsPass(ws[i], r, cuts[i]) && ws[i + 1] == CutPass(ws[i], r, cuts[i])
  }

  // ---------------------------------------------------------------- where a second pass would come by

  predicate Live(w: World, x: Restore) {
    && x.finalizer && !x.deleting && x.source in w.sources
    && w.sources[x.source].spec.backup.enabled && w.sources[x.source].spec.backup.s3.Some?
  }

  /** A Pending pass has resolved its target and need not store it again, or stores what is there. */
  predicate Stored(w: World, x: Restore) {
    && Live(w, x) && x.phase == Pending
    && var target := TargetOf(w, x, true);
       target.Some? && (x.resolved.pvc != "" || x.resolved == target.value)
  }

  /** A Fencing pass has come through the scale-down gate. */
  predicate Gated(w: World, x: Restore) {
    && Live(w, x) && x.phase == Fencing && PauseSeen(w, x.source)
    && (x.source in w.workloads ==>
          w.workloads[x.source].replicas == Some(0) && w.workloads[x.source].running == 0)
  }

  /** A pass is about to write, or has written, the Job's ConfigMap and Job. */
  predicate JobStage(w: World, x: Restore, target: Target, text: string) {
    && x.source in w.sources && text == Render(w.sources[x.source].spec)
    && if x.phase == Pending then x.mode == ToPVC && Stored(w, x) && TargetOf(w, x, true) == Some(target)
       else Gated(w, x) && target == x.resolved
  }

  predicate Configured(w: World, r: string, x: Restore) {
    && r in w.configs && x.source in w.sources
    && w.configs[r] == ConfigMap(OfRestore, Render(w.sources[x.source].spec))
  }

  function JobTarget(w: World, x: Restore): Target {
    if x.phase == Pending && TargetOf(w, x, true).Some? then TargetOf(w, x, true).value else x.resolved
  }

  /** A Resuming pass has seen replication switched back on. */
  predicate Awake(w: World, x: Restore) {
    && Live(w, x) && x.phase == Resuming && !w.sources[x.source].paused
    && x.source in w.configs && w.configs[x.source].text != PAUSED_CONFIG
  }

  /** A second pass, started here, would come by the point at which the first one stands, with the same locals. */
  predicate Midway(w: World, b: Busy, x: Restore)
    requires b.name in w.restores
  {
    b.mark.Unmarked? &&
    (|| Enter(w, b.name, true) == Some(b.pc)
     || match b.pc
        case AtReadReplicas => x.mode == InPlace && Stored(w, x)
        case AtJobConfig(target, text) => JobStage(w, x, target, text)
        case AtCreateJob(target) => JobStage(w, x, target, JobText(w, x)) && Configured(w, b.name, x)
        case AtStatus(phase, nameJob, replicas) =>
          || (&& b.pc == AtStatus(AcquiringLock, false, Some(CountNow(w, x)))
              && x.mode == InPlace && Stored(w, x))
          || (&& b.pc == AtStatus(Restoring, true, None)
              && JobStage(w, x, JobTarget(w, x), JobText(w, x)) && Configured(w, b.name, x) && b.name in w.jobs)
        case AtScaleUp(count) => Awake(w, x) && count == ResumeCount(x) > 0
        case AtConclude(_, _, _, _) =>
          && Awake(w, x) && b.pc == Concluding(x, false)
          && (ResumeCount(x) > 0 && x.source in w.workloads ==>
                w.workloads[x.source].replicas == Some(ResumeCount(x)))
        case _ => false)
  }

  function JobText(w: World, x: Restore): string {
    if x.source in w.sources then Render(w.sources[x.source].spec) else ""
  }

  ghost predicate Standing(w: World, b: Busy, x: Restore) {
    w.worker == Some(b) && b.name in w.restores && x == w.restores[b.name] && ConfigsOk(w)
  }

  // ---------------------------------------------------------------- replaying a cut pass

  /** A new pass over what the cut one left ends where the cut one would have ended. */
  ghost predicate Replays(w: World, r: string) {
    Finish(Begin(Stop(w), r, true)) == Finish(w)
  }

  /** Two calls on the same path end alike. */
  lemma ReplayVia(w: World, b: Busy, w1: World)
    requires w1.worker.Some? && Exec(w1, ALL_OK) == w
    requires Finish(Begin(Stop(w), b.name, true)) == Finish(w1)
    ensures Replays(w, b.name)
  {
  }

  lemma ReplayEntry(w: World, b: Busy, x: Restore)
    requires Standing(w, b, x) && b.mark.Unmarked? && Enter(w, b.name, true) == Some(b.pc)
    ensures Replays(w, b.name)
  {
    EnterIgnoresWorker(w, b.name);
    assert Begin(Stop(w), b.name, true) == w;
  }

  lemma EnterIgnoresWorker(w: World, r: string)
    requires r in w.restores
    ensures Enter(Stop(w), r, true) == Enter(w, r, true)
  {
  }

  /** From the stored target on, a new pass stands again where the target has just been handled. */
  lemma ReplayStored(w: World, b: Busy, x: Restore)
    requires Standing(w, b, x) && b.mark.Unmarked? && Stored(w, x)
    requires b.pc == AfterTarget(x, TargetOf(w, x, true).value, JobText(w, x))
    ensures Replays(w, b.name)
  {
    EnterIgnoresWorker(w, b.name);
    if x.resolved.pvc == "" {
      var w1 := Begin(Stop(w), b.name, true);
      assert w1.worker == Some(b.(pc := AtStoreTarget(x.resolved, JobText(w, x))));
      assert w1.restores[b.name := x] == w.restores;
      ReplayVia(w, b, w1);
    } else {
      assert Begin(Stop(w), b.name, true) == w;
    }
  }

  lemma ReplayReadReplicas(w: World, b: Busy, x: Restore)
    requires Standing(w, b, x) && b.mark.Unmarked? && x.mode == InPlace && Stored(w, x)
    requires b.pc == AtStatus(AcquiringLock, false, Some(CountNow(w, x)))
    ensures Replays(w, b.name)
  {
    var w1 := Goto(w, b, AtReadReplicas);
    ReplayStored(w1, b.(pc := AtReadReplicas), x);
    assert Stop(w1) == Stop(w);
    assert Exec(w1, ALL_OK) == w;
    ReplayVia(w, b, w1);
  }

  /** Through the gate a second time: nothing is scaled, nobody is running. */
  lemma ReplayGate(w: World, b: Busy, x: Restore)
    requires Standing(w, b, x) && b.mark.Unmarked? && Gated(w, x)
    requires b.pc == AtJobConfig(x.resolved, JobText(w, x))
    ensures Replays(w, b.name)
  {
    EnterIgnoresWorker(w, b.name);
    var w1 := Begin(Stop(w), b.name, true);
    assert w1 == Goto(w, b, AtScaleDown(JobText(w, x)));
    assert x.source in w.workloads ==> Scale(w1, x.source, 0).workloads == w.workloads;
    ReplayVia(w, b, w1);
  }

  lemma ReplayJobConfig(w: World, b: Busy, x: Restore)
    requires Standing(w, b, x) && b.mark.Unmarked? && b.pc.AtJobConfig? && JobStage(w, x, b.pc.target, b.pc.text)
    ensures Replays(w, b.name)
  {
    if x.phase == Pending {
      ReplayStored(w, b, x);
    } else {
      ReplayGate(w, b, x);
    }
  }

  lemma ConfigTakenAsIs(w: World, b: Busy, target: Target, text: string)
    requires w.worker == Some(b) && b.name in w.restores && b.pc == AtCreateJob(target)
    requires b.name in w.configs && w.configs[b.name] == ConfigMap(OfRestore, text)
    ensures
      var w1 := Goto(w, b, AtJobConfig(target, text));
      Stop(w1) == Stop(w) && Exec(w1, ALL_OK) == w
  {
    var w1 := Goto(w, b, AtJobConfig(target, text));
    assert w.configs[b.name := ConfigMap(OfRestore, text)] == w.configs;
    assert Exec(w1, ALL_OK) == ExecJobConfig(w1, w1.worker.value, ALL_OK);
  }

  lemma ReplayCreateJob(w: World, b: Busy, x: Restore)
    requires Standing(w, b, x) && b.mark.Unmarked? && b.pc.AtCreateJob?
    requires JobStage(w, x, b.pc.target, JobText(w, x)) && Configured(w, b.name, x)
    ensures Replays(w, b.name)
  {
    var pc := AtJobConfig(b.pc.target, JobText(w, x));
    var w1 := Goto(w, b, pc);
    ReplayJobConfig(w1, b.(pc := pc), x);
    ConfigTakenAsIs(w, b, b.pc.target, JobText(w, x));
    ReplayVia(w, b, w1);
  }

  lemma JobTakenAsIs(w: World, b: Busy, target: Target)
    requires w.worker == Some(b) && b.name in w.restores && b.name in w.jobs && b.pc == AtStatus(Restoring, true, None)
    ensures
      var w1 := Goto(w, b, AtCreateJob(target));
      Stop(w1) == Stop(w) && Exec(w1, ALL_OK) == w
  {
  }

  lemma ReplayJobCreated(w: World, b: Busy, x: Restore)
    requires Standing(w, b, x) && b.mark.Unmarked? && b.pc == AtStatus(Restoring, true, None)
    requires JobStage(w, x, JobTarget(w, x), JobText(w, x)) && Configured(w, b.name, x) && b.name in w.jobs
    ensures Replays(w, b.name)
  {
    var pc := AtCreateJob(JobTarget(w, x));
    var w1 := Goto(w, b, pc);
    ReplayCreateJob(w1, b.(pc := pc), x);
    JobTakenAsIs(w, b, JobTarget(w, x));
    ReplayVia(w, b, w1);
  }

  lemma ReplayAwake(w: World, b: Busy, x: Restore)
    requires Standing(w, b, x) && b.mark.Unmarked? && Awake(w, x)
    requires b.pc == if ResumeCount(x) > 0 then AtScaleUp(ResumeCount(x)) else Concluding(x, false)
    ensures Replays(w, b.name)
  {
    EnterIgnoresWorker(w, b.name);
    var w1 := Begin(Stop(w), b.name, true);
    assert w1 == Goto(w, b, AtAwaitUnpaused);
    ReplayVia(w, b, w1);
  }

  lemma ScaledAlready(w: World, b: Busy, x: Restore)
    requires w.worker == Some(b) && b.name in w.restores && x == w.restores[b.name] && b.pc == Concluding(x, false)
    requires x.source in w.workloads ==> w.workloads[x.source].replicas == Some(ResumeCount(x))
    ensures
      var w1 := Goto(w, b, AtScaleUp(ResumeCount(x)));
      Stop(w1) == Stop(w) && Exec(w1, ALL_OK) == w
  {
    var w1 := Goto(w, b, AtScaleUp(ResumeCount(x)));
    assert x.source in w.workloads ==> Scale(w1, x.source, ResumeCount(x)).workloads == w.workloads;
    assert Exec(w1, ALL_OK) == ExecScaleUp(w1, w1.worker.value, x, ALL_OK);
  }

  lemma ReplayConclude(w: World, b: Busy, x: Restore)
    requires Standing(w, b, x) && b.mark.Unmarked? && Awake(w, x) && b.pc == Concluding(x, false)
    requires ResumeCount(x) > 0 && x.source in w.workloads ==> w.workloads[x.source].replicas == Some(ResumeCount(x))
    ensures Replays(w, b.name)
  {
    if ResumeCount(x) == 0 {
      ReplayAwake(w, b, x);
    } else {
      var pc := AtScaleUp(ResumeCount(x));
      var w1 := Goto(w, b, pc);
      ReplayAwake(w1, b.(pc := pc), x);
      ScaledAlready(w, b, x);
      ReplayVia(w, b, w1);
    }
  }

  lemma MidwayReplays(w: World, b: Busy, x: Restore)
    requires Standing(w, b, x) && Midway(w, b, x)
    ensures Replays(w, b.name)
  {
    if Enter(w, b.name, true) == Some(b.pc) {
      ReplayEntry(w, b, x);
    } else {
      match b.pc
      case AtReadReplicas => ReplayStored(w, b, x);
      case AtJobConfig(_, _) => ReplayJobConfig(w, b, x);
      case AtCreateJob(_) => ReplayCreateJob(w, b, x);
      case AtStatus(_, _, _) =>
        if b.pc.phase == Restoring {
          ReplayJobCreated(w, b, x);
        } else {
          ReplayReadReplicas(w, b, x);
        }
      case AtScaleUp(_) => ReplayAwake(w, b, x);
      case AtConclude(_, _, _, _) => ReplayConclude(w, b, x);
    }
  }

  // ---------------------------------------------------------------- every call leaves the pass midway

  ghost predicate MidwayIn(w: World, r: string) {
    && ConfigsOk(w)
    && (w.worker.Some? ==>
          w.worker.value.name == r && r in w.restores && Midway(w, w.worker.value, w.restores[r]))
  }

  lemma BeginMidway(w: World, r: string)
    requires w.worker.None? && ConfigsOk(w)
    ensures MidwayIn(Begin(w, r, true), r)
    ensures Stop(Begin(w, r, true)) == w
  {
    if r in w.restores && Begin(w, r, true).worker.Some? {
      EnterIgnoresWorker(Begin(w, r, true), r);
    }
  }

  lemma AfterStoreTarget(w: World, b: Busy, x: Restore)
    requires Standing(w, b, x) && Midway(w, b, x) && b.pc.AtStoreTarget?
    ensures MidwayIn(ExecStoreTarget(w, b, x, ALL_OK), b.name)
  {
    var w' := ExecStoreTarget(w, b, x, ALL_OK);
    var x' := w'.restores[b.name];
    assert TargetOf(w', x', true) == TargetOf(w, x, true);
    assert Stored(w', x');
  }

  lemma AfterLock(w: World, b: Busy, x: Restore)
    requires Standing(w, b, x) && Midway(w, b, x) && (b.pc.AtAcquireLease? || b.pc.AtPause?)
    ensures MidwayIn(Exec(w, ALL_OK), b.name)
  {
  }

  lemma AfterScaleDown(w: World, b: Busy, x: Restore)
    requires Standing(w, b, x) && Midway(w, b, x) && b.pc.AtScaleDown?
    ensures MidwayIn(ExecScaleDown(w, b, x, ALL_OK), b.name)
  {
  }

  /** Writing the Job's own ConfigMap cannot overwrite the paused one the gate has just read. */
  lemma JobConfigKeepsStage(w: World, b: Busy, x: Restore)
    requires Standing(w, b, x) && b.pc.AtJobConfig? && JobStage(w, x, b.pc.target, b.pc.text)
    requires ExecJobConfig(w, b, ALL_OK).worker.Some?
    ensures
      var w' := ExecJobConfig(w, b, ALL_OK);
      JobStage(w', x, b.pc.target, b.pc.text) && Configured(w', b.name, x)
  {
    var w' := ExecJobConfig(w, b, ALL_OK);
    NeverPausedText(w.sources[x.source].spec);
    assert TargetOf(w', x, true) == TargetOf(w, x, true);
    assert PauseSeen(w, x.source) ==> PauseSeen(w', x.source);
  }

  lemma MidwayToJob(w: World, b: Busy, x: Restore)
    requires Standing(w, b, x) && Midway(w, b, x) && b.pc.AtJobConfig?
    ensures b.mark.Unmarked? && JobStage(w, x, b.pc.target, b.pc.text)
  {
  }

  lemma AfterJobConfig(w: World, b: Busy, x: Restore)
    requires Standing(w, b, x) && b.mark.Unmarked? && b.pc.AtJobConfig? && JobStage(w, x, b.pc.target, b.pc.text)
    ensures MidwayIn(ExecJobConfig(w, b, ALL_OK), b.name)
  {
    if ExecJobConfig(w, b, ALL_OK).worker.Some? {
      JobConfigKeepsStage(w, b, x);
    }
  }

  lemma AfterCreateJob(w: World, b: Busy, x: Restore)
    requires Standing(w, b, x) && Midway(w, b, x) && b.pc.AtCreateJob?
    ensures MidwayIn(ExecCreateJob(w, b, ALL_OK), b.name)
  {
    var w' := ExecCreateJob(w, b, ALL_OK);
    assert TargetOf(w', x, true) == TargetOf(w, x, true);
    assert JobStage(w', x, b.pc.target, JobText(w, x));
  }

  lemma AfterResume(w: World, b: Busy, x: Restore)
    requires Standing(w, b, x) && Midway(w, b, x) && b.pc.AtResume?
    ensures MidwayIn(ExecResume(w, b, x, ALL_OK), b.name)
  {
  }

  lemma AfterAwaitUnpaused(w: World, b: Busy, x: Restore)
    requires Standing(w, b, x) && Midway(w, b, x) && b.pc.AtAwaitUnpaused?
    ensures MidwayIn(ExecAwaitUnpaused(w, b, x), b.name)
  {
  }

  lemma AfterScaleUp(w: World, b: Busy, x: Restore)
    requires Standing(w, b, x) && Midway(w, b, x) && b.pc.AtScaleUp?
    ensures MidwayIn(ExecScaleUp(w, b, x, ALL_OK), b.name)
  {
  }

  lemma AfterReadReplicas(w: World, b: Busy, x: Restore)
    requires Standing(w, b, x) && Midway(w, b, x) && b.pc.AtReadReplicas?
    ensures MidwayIn(ExecReadReplicas(w, b, x, ALL_OK), b.name)
  {
    var w' := ExecReadReplicas(w, b, x, ALL_OK);
    assert TargetOf(w', x, true) == TargetOf(w, x, true);
    assert Stored(w', x) && CountNow(w', x) == CountNow(w, x);
  }

  /** The calls that end a pass. */
  predicate Last(pc: Pc) {
    pc.AtAddFinalizer? || pc.AtStatus? || pc.AtRepause? || pc.AtConclude? || pc.AtFinalize?
  }

  lemma LastEnds(w: World, io: Io)
    requires w.worker.Some? && Last(w.worker.value.pc) && ConfigsOk(w)
    ensures Exec(w, io).worker.None? && ConfigsOk(Exec(w, io))
  {
    var pc := w.worker.value.pc;
    if pc.AtConclude? || pc.AtFinalize? {
      CleanupEnds(w, io);
    }
  }

  lemma CleanupEnds(w: World, io: Io)
    requires w.worker.Some? && (w.worker.value.pc.AtConclude? || w.worker.value.pc.AtFinalize?)
    ensures Exec(w, io).worker.None?
    ensures forall k :: k in Exec(w, io).configs ==> k in w.configs && Exec(w, io).configs[k] == w.configs[k]
  {
  }

  lemma CallMidway(w: World, r: string)
    requires MidwayIn(w, r) && w.worker.Some?
    ensures MidwayIn(Exec(w, ALL_OK), r)
  {
    if Last(w.worker.value.pc) {
      LastEnds(w, ALL_OK);
    } else {
      MidCallMidway(w, w.worker.value, w.restores[r]);
    }
  }

  lemma MidCallMidway(w: World, b: Busy, x: Restore)
    requires Standing(w, b, x) && Midway(w, b, x) && !Last(b.pc)
    ensures MidwayIn(Exec(w, ALL_OK), b.name)
  {
    match b.pc
    case AtStoreTarget(_, _) => AfterStoreTarget(w, b, x);
    case AtReadReplicas => AfterReadReplicas(w, b, x);
    case AtAcquireLease(_) => AfterLock(w, b, x);
    case AtPause => AfterLock(w, b, x);
    case AtScaleDown(_) => AfterScaleDown(w, b, x);
    case AtJobConfig(_, _) =>
      MidwayToJob(w, b, x);
      AfterJobConfig(w, b, x);
    case AtCreateJob(_) => AfterCreateJob(w, b, x);
    case AtResume => AfterResume(w, b, x);
    case AtAwaitUnpaused => AfterAwaitUnpaused(w, b, x);
    case AtScaleUp(_) => AfterScaleUp(w, b, x);
  }

  // ---------------------------------------------------------------- the failing call

  lemma SameScale(w: World, s: string, n: nat)
    ensures s in w.workloads && w.workloads[s].replicas == Some(n) ==> Scale(w, s, n) == w
  {
    if s in w.workloads && w.workloads[s].replicas == Some(n) {
      assert w.workloads[s := w.workloads[s].(replicas := Some(n))] == w.workloads;
    }
  }

  lemma ScaleDownFails(w: World, b: Busy, x: Restore, io: Io)
    requires w.worker == Some(b) && b.name in w.restores && x == w.restores[b.name] && b.pc.AtScaleDown? && !io.ok
    ensures Stop(Exec(w, io)) == Stop(w)
  {
    assert Exec(w, io) == ExecScaleDown(w, b, x, io);
    SameScale(w, x.source, 0);
  }

  lemma ScaleUpFails(w: World, b: Busy, x: Restore, io: Io)
    requires w.worker == Some(b) && b.name in w.restores && x == w.restores[b.name] && b.pc.AtScaleUp? && !io.ok
    ensures Stop(Exec(w, io)) == Stop(w)
  {
    assert Exec(w, io) == ExecScaleUp(w, b, x, io);
    SameScale(w, x.source, b.pc.count);
  }

  lemma OtherCallFails(w: World, io: Io)
    requires w.worker.Some? && !io.ok
    requires var pc := w.worker.value.pc; !pc.AtConclude? && !pc.AtFinalize? && !pc.AtScaleDown? && !pc.AtScaleUp?
    ensures Stop(Exec(w, io)) == Stop(w)
  {
  }

  /** A failed call writes nothing, unless it belongs to a cleanup. */
  lemma FailureWritesNothing(w: World, io: Io)
    requires w.worker.Some? && !io.ok && !w.worker.value.pc.AtConclude? && !w.worker.value.pc.AtFinalize?
    ensures Stop(Exec(w, io)) == Stop(w)
  {
    var b := w.worker.value;
    if b.name in w.restores {
      var x := w.restores[b.name];
      match b.pc
      case AtScaleDown(_) => ScaleDownFails(w, b, x, io);
      case AtScaleUp(_) => ScaleUpFails(w, b, x, io);
      case _ => OtherCallFails(w, io);
    }
  }

  function LeasesAfter(w: World, r: string, release: bool): map<string, string> {
    if release && Holds(w, r) then w.leases - {w.restores[r].source} else w.leases
  }

  function SourcesAfter(w: World, s: string, resume: bool): map<string, Source> {
    if resume && s in w.sources then w.sources[s := w.sources[s].(paused := false)] else w.sources
  }

  lemma CleanupIs(w: World, r: string, s: string, release: bool, resume: bool, io: Io)
    ensures
      Cleanup(w, r, s, release, resume, io) ==
      w.(leases := LeasesAfter(w, r, release && io.released), sources := SourcesAfter(w, s, resume && io.resumed))
  {
  }

  /** A cleanup begun and then done again is the cleanup done once. */
  lemma CleanupTwice(w: World, w1: World, r: string, s: string, release: bool, resume: bool, io: Io)
    requires resume ==> s in w.sources && w.sources[s].paused
    requires w1.restores == w.restores
    requires w1.leases == LeasesAfter(w, r, release && io.released)
    requires w1.sources == SourcesAfter(w, s, resume && io.resumed)
    ensures LeasesAfter(w1, r, release) == LeasesAfter(w, r, release)
    ensures SourcesAfter(w1, s, resume && w1.sources[s].paused) == SourcesAfter(w, s, resume)
  {
    if resume {
      assert SourcesAfter(w, s, true)[s] == w.sources[s].(paused := false);
    }
  }

  lemma FinishConclude(w: World, b: Busy, x: Restore)
    requires w.worker == Some(b) && b.name in w.restores && x == w.restores[b.name] && b.pc.AtConclude?
    ensures
      Finish(w) == w.(restores := w.restores[b.name := SetStatus(x, b.pc.phase, false, None)],
                      leases := LeasesAfter(w, b.name, b.pc.release),
                      sources := SourcesAfter(w, x.source, b.pc.resume), worker := None)
  {
    CleanupIs(w, b.name, x.source, b.pc.release, b.pc.resume, ALL_OK);
    assert Exec(w, ALL_OK) == ExecConclude(w, b, x, ALL_OK);
    assert Finish(w) == Finish(Exec(w, ALL_OK));
  }

  /** What a torn cleanup leaves behind. */
  lemma TornIs(w: World, b: Busy, x: Restore, io: Io)
    requires w.worker == Some(b) && b.name in w.restores && x == w.restores[b.name] && !io.ok
    requires b.pc.AtConclude? || b.pc.AtFinalize?
    ensures
      Stop(Exec(w, io)) == w.(leases := LeasesAfter(w, b.name, b.pc.release && io.released),
                              sources := SourcesAfter(w, x.source, b.pc.resume && io.resumed), worker := None)
  {
    CleanupIs(w, b.name, x.source, b.pc.release, b.pc.resume, io);
  }

  /** The failure cleanup of a Restoring pass. */
  lemma TornFailedReplays(w: World, b: Busy, x: Restore, io: Io)
    requires Standing(w, b, x) && b.pc.AtConclude? && b.mark.Unmarked? && !io.ok
    requires Enter(w, b.name, true) == Some(b.pc)
    ensures Finish(Begin(Stop(Exec(w, io)), b.name, true)) == Finish(w)
  {
    var w1 := Stop(Exec(w, io));
    TornIs(w, b, x, io);
    TornFailedEntry(w, w1, b, x, io);
    var pc := AtConclude(b.pc.phase, b.pc.release, b.pc.resume && w1.sources[x.source].paused, b.pc.skipped);
    var w2 := Begin(w1, b.name, true);
    BeginAgain(w1, b, pc);
    CleanupTwice(w, w2, b.name, x.source, b.pc.release, b.pc.resume, io);
    FinishConclude(w, b, x);
    FinishConclude(w2, b.(pc := pc), x);
  }

  lemma TornFailedEntry(w: World, w1: World, b: Busy, x: Restore, io: Io)
    requires Standing(w, b, x) && b.pc.AtConclude? && Enter(w, b.name, true) == Some(b.pc)
    requires w1 == w.(leases := w1.leases, sources := SourcesAfter(w, x.source, b.pc.resume && io.resumed), worker := None)
    ensures b.pc.resume ==> x.source in w.sources && w.sources[x.source].paused && x.source in w1.sources
    ensures Enter(w1, b.name, true) ==
            Some(AtConclude(b.pc.phase, b.pc.release, b.pc.resume && w1.sources[x.source].paused, b.pc.skipped))
  {
  }

  /** The conclusion of a Resuming pass: only the lease is at stake, and the pass comes by here again. */
  lemma TornCompletedReplays(w: World, b: Busy, x: Restore, io: Io)
    requires Standing(w, b, x) && b.pc == Concluding(x, false) && !io.ok
    requires Midway(w, b, x) && Awake(w, x)
    ensures Finish(Begin(Stop(Exec(w, io)), b.name, true)) == Finish(w)
  {
    var w1 := Stop(Exec(w, io)).(worker := Some(b));
    TornIs(w, b, x, io);
    assert w1.sources == w.sources;
    assert Awake(w1, x) && Enter(w1, b.name, true) == Enter(w, b.name, true) == Some(AtAwaitUnpaused);
    assert Midway(w1, b, x);
    MidwayReplays(w1, b, x);
    assert Stop(w1) == Stop(Exec(w, io));
    CleanupTwice(w, w1, b.name, x.source, b.pc.release, b.pc.resume, io);
    FinishConclude(w, b, x);
    FinishConclude(w1, b, x);
  }

  lemma FinalizeWrites(w: World, b: Busy, x: Restore)
    requires w.worker == Some(b) && b.name in w.restores && x == w.restores[b.name] && b.pc.AtFinalize?
    ensures Exec(w, ALL_OK) ==
            Stop(RemoveRestore(Cleanup(w, b.name, x.source, b.pc.release, b.pc.resume, ALL_OK), b.name))
  {
  }

  /** Removing a restore also takes a lease it may still hold. */
  lemma RemovesAlike(w1: World, w0: World, r: string)
    requires r in w1.restores && w0.worker.None?
    requires w1.(leases := w0.leases, worker := None) == w0
    requires w0.leases == w1.leases || w0.leases == LeasesAfter(w1, r, true)
    ensures Stop(RemoveRestore(w1, r)) == RemoveRestore(w0, r)
  {
  }

  lemma FinishFinalize(w: World, b: Busy, x: Restore)
    requires w.worker == Some(b) && b.name in w.restores && x == w.restores[b.name] && b.pc.AtFinalize?
    ensures
      var w0 := w.(leases := LeasesAfter(w, b.name, true), sources := SourcesAfter(w, x.source, b.pc.resume), worker := None);
      Finish(w) == RemoveRestore(w0, b.name)
  {
    var w1 := Cleanup(w, b.name, x.source, b.pc.release, b.pc.resume, ALL_OK);
    CleanupIs(w, b.name, x.source, b.pc.release, b.pc.resume, ALL_OK);
    var w0 := w.(leases := LeasesAfter(w, b.name, true), sources := SourcesAfter(w, x.source, b.pc.resume), worker := None);
    RemovesAlike(w1, w0, b.name);
    FinalizeWrites(w, b, x);
    assert Finish(w) == Finish(Exec(w, ALL_OK));
  }

  lemma TornFinalizeEntry(w: World, w1: World, b: Busy, x: Restore, io: Io)
    requires Standing(w, b, x) && b.pc.AtFinalize? && Enter(w, b.name, true) == Some(b.pc)
    requires w1 == w.(leases := w1.leases, sources := SourcesAfter(w, x.source, b.pc.resume && io.resumed), worker := None)
    ensures b.pc.resume ==> x.source in w.sources && w.sources[x.source].paused && x.source in w1.sources
    ensures Enter(w1, b.name, true) ==
            Some(AtFinalize(b.pc.release, b.pc.resume && w1.sources[x.source].paused))
  {
  }

  lemma BeginAgain(w1: World, b: Busy, pc: Pc)
    requires w1.worker.None? && b.name in w1.restores && b.mark.Unmarked? && Enter(w1, b.name, true) == Some(pc)
    ensures Begin(w1, b.name, true) == w1.(worker := Some(b.(pc := pc)))
  {
  }

  lemma FinalizesAlike(w: World, w2: World, b: Busy, b2: Busy, x: Restore)
    requires w.worker == Some(b) && b.name in w.restores && x == w.restores[b.name] && b.pc.AtFinalize?
    requires w2.worker == Some(b2) && b2.name == b.name && b.name in w2.restores && x == w2.restores[b.name] && b2.pc.AtFinalize?
    requires
      && LeasesAfter(w2, b.name, true) == LeasesAfter(w, b.name, true)
      && SourcesAfter(w2, x.source, b2.pc.resume) == SourcesAfter(w, x.source, b.pc.resume)
      && w2.(leases := w.leases, sources := w.sources, worker := w.worker) == w
    ensures Finish(w2) == Finish(w)
  {
    FinishFinalize(w, b, x);
    FinishFinalize(w2, b2, x);
  }

  lemma TornFinalizeReplays(w: World, b: Busy, x: Restore, io: Io)
    requires Standing(w, b, x) && b.pc.AtFinalize? && b.mark.Unmarked? && !io.ok
    requires Enter(w, b.name, true) == Some(b.pc)
    ensures Finish(Begin(Stop(Exec(w, io)), b.name, true)) == Finish(w)
  {
    TornIs(w, b, x, io);
    FinalizesFrom(w, Stop(Exec(w, io)), b, x, io);
  }

  /** What a torn finalization leaves, w1, is finalized alike. */
  lemma FinalizesFrom(w: World, w1: World, b: Busy, x: Restore, io: Io)
    requires Standing(w, b, x) && b.pc.AtFinalize? && b.mark.Unmarked? && Enter(w, b.name, true) == Some(b.pc)
    requires w1 == w.(leases := LeasesAfter(w, b.name, b.pc.release && io.released),
                      sources := SourcesAfter(w, x.source, b.pc.resume && io.resumed), worker := None)
    ensures Finish(Begin(w1, b.name, true)) == Finish(w)
  {
    TornFinalizeEntry(w, w1, b, x, io);
    var pc := AtFinalize(b.pc.release, b.pc.resume && w1.sources[x.source].paused);
    var w2 := Begin(w1, b.name, true);
    BeginAgain(w1, b, pc);
    CleanupTwice(w, w2, b.name, x.source, true, b.pc.resume, io.(released := b.pc.release && io.released));
    FinalizesAlike(w, w2, b, b.(pc := pc), x);
  }

  // ---------------------------------------------------------------- the theorem

  lemma FailureReplays(w: World, r: string, io: Io)
    requires MidwayIn(w, r) && w.worker.Some? && !io.ok
    ensures Finish(Begin(Stop(Exec(w, io)), r, true)) == Finish(w)
  {
    var b := w.worker.value;
    var x := w.restores[r];
    if b.pc.AtFinalize? {
      TornFinalizeReplays(w, b, x, io);
    } else if b.pc.AtConclude? && Enter(w, r, true) == Some(b.pc) {
      TornFailedReplays(w, b, x, io);
    } else if b.pc.AtConclude? {
      TornCompletedReplays(w, b, x, io);
    } else {
      FailureWritesNothing(w, io);
      MidwayReplays(w, b, x);
    }
  }

  lemma {:induction false} CallsMidway(w: World, r: string, k: nat)
    requires MidwayIn(w, r)
    ensures MidwayIn(Calls(w, k), r)
    ensures Finish(Calls(w, k)) == Finish(w)
    decreases k
  {
    if k > 0 && w.worker.Some? {
      CallMidway(w, r);
      CallsMidway(Exec(w, ALL_OK), r, k - 1);
    }
  }

  /** One cut pass, then a complete one: as if only the complete one had run. */
  lemma OneCut(w: World, r: string, cut: Cut)
    requires w.worker.None? && ConfigsOk(w) && CutsPass(w, r, cut)
    ensures Pass(CutPass(w, r, cut), r) == Pass(w, r)
    ensures CutPass(w, r, cut).worker.None? && ConfigsOk(CutPass(w, r, cut))
  {
    BeginMidway(w, r);
    CallsMidway(Begin(w, r, true), r, cut.k);
    var w1 := Calls(Begin(w, r, true), cut.k);
    FailureReplays(w1, r, cut.io);
    FailureKeepsConfigs(w1, cut.io);
  }

  lemma FailureKeepsConfigs(w: World, io: Io)
    requires w.worker.Some? && !io.ok && ConfigsOk(w)
    ensures ConfigsOk(Stop(Exec(w, io)))
  {
    if Last(w.worker.value.pc) {
      LastEnds(w, io);
    } else {
      FailureWritesNothing(w, io);
      assert ConfigsOk(Stop(w));
    }
  }

  /** Crash recovery: however often a pass over r was cut short, one complete pass makes up for it. */
  lemma {:induction false} CrashRecovery(ws: seq<World>, r: string, cuts: seq<Cut>)
    requires CutRun(ws, r, cuts)
    ensures Pass(ws[|cuts|], r) == Pass(ws[0], r)
  {
    if cuts != [] {
      OneCut(ws[0], r, cuts[0]);
      CrashRecovery(ws[1..], r, cuts[1..]);
    }
  }
}
