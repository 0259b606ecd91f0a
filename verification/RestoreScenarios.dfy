/** Runs of whole passes, put together from the results of single ones. */
module RestoreScenarios {
  import opened ApiTypes
  import opened LitestreamConfig
  import opened RestoreProtocol
  import opened RestoreSafety
  import opened RestorePasses

  // ---------------------------------------------------------------- reachable by allowed steps

  ghost predicate IsPath(ws: seq<World>, steps: seq<Step>) {
    && |ws| == |steps| + 1
    && forall i :: 0 <= i < |steps| ==> Allowed(ws[i], steps[i]) && ws[i + 1] == Next(ws[i], steps[i])
  }

  ghost predicate PathBetween(ws: seq<World>, steps: seq<Step>, w: World, w': World) {
    IsPath(ws, steps) && ws[0] == w && ws[|steps|] == w'
  }

  ghost predicate Reaches(w: World, w': World) {
    exists ws, steps :: PathBetween(ws, steps, w, w')
  }

  lemma ReachesSelf(w: World)
    ensures Reaches(w, w)
  {
    assert PathBetween([w], [], w, w);
  }

  lemma ReachesStep(w: World, step: Step)
    requires Allowed(w, step)
    ensures Reaches(w, Next(w, step))
  {
    assert PathBetween([w, Next(w, step)], [step], w, Next(w, step));
  }

  lemma JoinPaths(a: seq<World>, p: seq<Step>, b: seq<World>, q: seq<Step>)
    requires IsPath(a, p) && IsPath(b, q) && a[|p|] == b[0]
    ensures IsPath(a + b[1..], p + q) && (a + b[1..])[|p| + |q|] == b[|q|]
  {
    var ws, steps := a + b[1..], p + q;
    forall i | 0 <= i < |steps| ensures Allowed(ws[i], steps[i]) && ws[i + 1] == Next(ws[i], steps[i]) {
      if i < |p| {
        assert ws[i] == a[i] && steps[i] == p[i] && ws[i + 1] == a[i + 1];
      } else {
        var k := i - |p|;
        assert ws[i] == b[k] && steps[i] == q[k] && ws[i + 1] == b[k + 1];
      }
    }
  }

  lemma ReachesOn(u: World, v: World, w: World)
    requires Reaches(u, v) && Reaches(v, w)
    ensures Reaches(u, w)
  {
    var a, p :| PathBetween(a, p, u, v);
    var b, q :| PathBetween(b, q, v, w);
    JoinPaths(a, p, b, q);
    assert PathBetween(a + b[1..], p + q, u, w);
  }

  /** What is reached from an initial world is a state of a run. */
  lemma ReachedInRun(w: World, w': World)
    requires Initial(w) && Reaches(w, w')
    ensures exists ws, steps :: IsRun(ws, steps) && ws[|steps|] == w'
    ensures Inv(w')
  {
    var ws, steps :| PathBetween(ws, steps, w, w');
    assert IsRun(ws, steps) && ws[|steps|] == w';
    RunInv(ws, steps, |steps|);
  }

  lemma {:induction false} ReachesFinish(w: World)
    ensures Reaches(w, Finish(w))
    decreases WorkLeft(w)
  {
    if w.worker.None? {
      ReachesSelf(w);
    } else {
      ReachesStep(w, Call(ALL_OK));
      ReachesFinish(Exec(w, ALL_OK));
      ReachesOn(w, Exec(w, ALL_OK), Finish(w));
    }
  }

  lemma ReachesPass(w: World, r: string)
    ensures Reaches(w, Pass(w, r))
  {
    ReachesStep(w, StartPass(r, true));
    ReachesFinish(Begin(w, r, true));
    ReachesOn(w, Begin(w, r, true), Pass(w, r));
  }

  // ---------------------------------------------------------------- waiting for the pods

  function DrainAll(w: World, s: string): World
    decreases if s in w.workloads then w.workloads[s].running else 0
  {
    if s in w.workloads && w.workloads[s].running > Desired(w.workloads[s]) then DrainAll(DrainOne(w, s), s) else w
  }

  lemma {:induction false} DrainedToZero(w: World, s: string)
    requires s in w.workloads && Desired(w.workloads[s]) == 0
    ensures DrainAll(w, s) == SetRunning(w, s, 0)
    decreases w.workloads[s].running
  {
    if w.workloads[s].running > 0 {
      DrainedToZero(DrainOne(w, s), s);
    }
  }

  lemma {:induction false} ReachesDrained(w: World, s: string)
    ensures Reaches(w, DrainAll(w, s))
    decreases if s in w.workloads then w.workloads[s].running else 0
  {
    if s in w.workloads && w.workloads[s].running > Desired(w.workloads[s]) {
      ReachesStep(w, Drain(s));
      ReachesDrained(DrainOne(w, s), s);
      ReachesOn(w, DrainOne(w, s), DrainAll(w, s));
    } else {
      ReachesSelf(w);
    }
  }

  // ---------------------------------------------------------------- a new restore queues up

  ghost predicate Fresh(w: World, r: string) {
    && Able(w, r) && OwnConfigs(w, r) && r !in w.jobs
    && var x := w.restores[r];
       x == FreshRestore(InPlace, x.source, x.target) && TargetOf(w, x, true).Some?
  }

  function Queued(w: World, x: Restore): Restore
    requires TargetOf(w, x, true).Some?
  {
    x.(finalizer := true, phase := AcquiringLock, resolved := TargetOf(w, x, true).value,
       originalReplicas := Some(CountNow(w, x)))
  }

  function QueuedUp(w: World, r: string): World
    requires r in w.restores && TargetOf(w, w.restores[r], true).Some?
  {
    PutRestore(w, r, Queued(w, w.restores[r]))
  }

  /** Two passes: the finalizer, then target and count. */
  lemma QueuesUp(w: World, r: string)
    requires Fresh(w, r)
    ensures Reaches(w, QueuedUp(w, r))
  {
    var x := w.restores[r];
    PassUnfinalized(w, r);
    var w1 := Pass(w, r);
    assert TargetOf(w1, x.(finalizer := true), true) == TargetOf(w, x, true);
    PassResolved(w1, r);
    assert Pass(w1, r) == QueuedUp(w, r);
    ReachesPass(w, r);
    ReachesPass(w1, r);
    ReachesOn(w, w1, QueuedUp(w, r));
  }

  // ---------------------------------------------------------------- a queued restore starts its Job

  /** A queued restore with a free lock and ConfigMap names of its own. */
  ghost predicate InLine(w: World, r: string) {
    && Able(w, r) && OwnConfigs(w, r) && r !in w.jobs && w.restores[r].source !in w.leases
    && w.restores[r].finalizer && w.restores[r].phase == AcquiringLock && !w.restores[r].jobNamed
  }

  lemma QueuedInLine(w: World, r: string)
    requires Fresh(w, r) && w.restores[r].source !in w.leases
    ensures InLine(QueuedUp(w, r), r) && Reaches(w, QueuedUp(w, r))
  {
    QueuesUp(w, r);
  }

  function Fenced(w: World, r: string): World
    requires r in w.restores && w.restores[r].source in w.sources
  {
    var x := w.restores[r];
    w.(restores := w.restores[r := x.(phase := Fencing)],
       leases := w.leases[x.source := r],
       sources := w.sources[x.source := w.sources[x.source].(paused := true)],
       configs := w.configs[x.source := ConfigMap(OfSource, PAUSED_CONFIG)])
  }

  /** Lock and pause, and the replica controller mirrors the pause. */
  lemma Fences(w: World, r: string)
    requires InLine(w, r)
    ensures Reaches(w, Fenced(w, r)) && AtGate(Fenced(w, r), r)
  {
    var s := w.restores[r].source;
    PassLock(w, r);
    assert ReplicaPass(Pass(w, r), s) == Fenced(w, r);
    ReachesPass(w, r);
    ReachesStep(Pass(w, r), Replicate(s));
    ReachesOn(w, Pass(w, r), Fenced(w, r));
  }

  function Stopped(w: World, s: string): World {
    if s in w.workloads then w.(workloads := w.workloads[s := w.workloads[s].(replicas := Some(0), running := 0)]) else w
  }

  function Started(w: World, r: string): World
    requires r in w.restores && w.restores[r].source in w.sources
  {
    var x := w.restores[r];
    Stopped(w, x.source).(
      restores := w.restores[r := x.(phase := Restoring, jobNamed := true)],
      configs := w.configs[r := ConfigMap(OfRestore, Render(w.sources[x.source].spec))],
      jobs := w.jobs[r := Job(x.resolved, [])])
  }

  /** A fenced restore: its pause is seen, and the name of its ConfigMap is free. */
  ghost predicate AtGate(w: World, r: string) {
    && Able(w, r) && w.restores[r].finalizer && w.restores[r].phase == Fencing
    && PauseSeen(w, w.restores[r].source) && OwnConfigs(w, r) && r !in w.jobs
  }

  /** Once no pod is left the next pass starts the Job. */
  lemma StartsJob(w: World, r: string)
    requires AtGate(w, r)
    requires w.restores[r].source in w.workloads ==> w.workloads[w.restores[r].source].running == 0
    ensures Pass(w, r) == Started(w, r)
  {
    PassFence(w, r);
    assert ScaledDown(w, w.restores[r].source).workloads == Stopped(w, w.restores[r].source).workloads;
  }

  /** Scale down, drain, start the Job. */
  lemma StartsAfterDrain(w: World, r: string)
    requires AtGate(w, r)
    ensures Reaches(w, Started(w, r))
  {
    var s := w.restores[r].source;
    if s in w.workloads && w.workloads[s].running > 0 {
      StopsFirst(w, r);
      var w2 := Stopped(w, s);
      assert AtGate(w2, r);
      StartsJob(w2, r);
      ReachesPass(w2, r);
      assert Started(w2, r) == Started(w, r);
      ReachesOn(w, w2, Started(w, r));
    } else {
      StartsJob(w, r);
      ReachesPass(w, r);
    }
  }

  lemma StopsFirst(w: World, r: string)
    requires AtGate(w, r) && w.restores[r].source in w.workloads && w.workloads[w.restores[r].source].running > 0
    ensures Reaches(w, Stopped(w, w.restores[r].source))
  {
    var s := w.restores[r].source;
    PassFence(w, r);
    var w1 := Pass(w, r);
    ReachesPass(w, r);
    DrainedToZero(w1, s);
    ReachesDrained(w1, s);
    assert DrainAll(w1, s) == Stopped(w, s);
    ReachesOn(w, w1, Stopped(w, s));
  }

  function WithJob(w: World, r: string): World
    requires r in w.restores && w.restores[r].source in w.sources
  {
    Started(Fenced(w, r), r)
  }

  lemma StartsRestore(w: World, r: string)
    requires InLine(w, r)
    ensures Reaches(w, WithJob(w, r)) && JobUnderway(WithJob(w, r), r)
  {
    Fences(w, r);
    StartsAfterDrain(Fenced(w, r), r);
    ReachesOn(w, Fenced(w, r), WithJob(w, r));
  }

  // ---------------------------------------------------------------- and completes

  const SUCCESS := [JobCondition(JobComplete, true)]

  /** Its Job runs, and it has the lock. */
  ghost predicate JobUnderway(w: World, r: string) {
    && Able(w, r) && Holds(w, r) && w.restores[r].finalizer && w.restores[r].phase == Restoring && w.restores[r].jobNamed
    && JobRuns(w, r)
    && (w.restores[r].source in w.configs ==> w.configs[w.restores[r].source] == ConfigMap(OfSource, PAUSED_CONFIG))
  }

  function Awoken(w: World, r: string): World
    requires r in w.restores && r in w.jobs && w.restores[r].source in w.sources
  {
    var x := w.restores[r];
    w.(restores := w.restores[r := x.(phase := Resuming)],
       jobs := w.jobs[r := w.jobs[r].(conditions := SUCCESS)],
       succeeded := w.succeeded + {r},
       sources := w.sources[x.source := w.sources[x.source].(paused := false)],
       configs := w.configs[x.source := ConfigMap(OfSource, Render(w.sources[x.source].spec))])
  }

  lemma EntersResuming(w: World, r: string)
    requires JobUnderway(w, r)
    ensures
      var w1 := ReportJob(w, r, SUCCESS);
      && VerdictOf(SUCCESS) == Succeeded
      && Pass(w1, r) == PutRestore(w1, r, w.restores[r].(phase := Resuming))
      && Reaches(w, Pass(w1, r))
  {
    var w1 := ReportJob(w, r, SUCCESS);
    PassJobSucceeded(w1, r);
    ReachesStep(w, JobReports(r, SUCCESS));
    ReachesPass(w1, r);
    ReachesOn(w, w1, Pass(w1, r));
  }

  lemma Awakes(w: World, r: string)
    requires JobUnderway(w, r)
    ensures Reaches(w, Awoken(w, r))
  {
    var s := w.restores[r].source;
    EntersResuming(w, r);
    var w2 := Pass(ReportJob(w, r, SUCCESS), r);
    PassResuming(w2, r);
    var w3 := Pass(w2, r);
    assert w3 == w2.(sources := w.sources[s := w.sources[s].(paused := false)]);
    assert ReplicaPass(w3, s) == Awoken(w, r);
    ReachesPass(w2, r);
    ReachesStep(w3, Replicate(s));
    ReachesOn(w2, w3, Awoken(w, r));
    ReachesOn(w, w2, Awoken(w, r));
  }

  function Finished(w: World, r: string): World
    requires r in w.restores && r in w.jobs && w.restores[r].source in w.sources
  {
    var x := w.restores[r];
    var w1 := Awoken(w, r);
    var w2 := if ResumeCount(x) > 0 && x.source in w.workloads then Scale(w1, x.source, ResumeCount(x)) else w1;
    w2.(restores := w.restores[r := x.(phase := Completed)], leases := w.leases - {x.source})
  }

  /** The Job completes; replication is resumed and mirrored; scale up and conclude. */
  lemma CompletesRestore(w: World, r: string)
    requires JobUnderway(w, r)
    ensures Reaches(w, Finished(w, r))
  {
    var s := w.restores[r].source;
    Awakes(w, r);
    var w4 := Awoken(w, r);
    NeverPausedText(w.sources[s].spec);
    PassResuming(w4, r);
    assert w4.sources[s := w4.sources[s].(paused := false)] == w4.sources;
    assert Pass(w4, r) == Finished(w, r);
    ReachesPass(w4, r);
    ReachesOn(w, w4, Finished(w, r));
  }

  // ---------------------------------------------------------------- two restores of one source

  /** A second fresh restore q of the same source. */
  ghost predicate Second(w: World, r: string, q: string) {
    Fresh(w, q) && q != r && r in w.restores && w.restores[q].source == w.restores[r].source
  }

  lemma StillFresh(w: World, r: string, q: string, w': World)
    requires Second(w, r, q) && w'.worker.None?
    requires q in w'.restores && w'.restores[q] == w.restores[q] && r in w'.restores && w'.restores[r].source == w.restores[r].source
    requires Usable(w', q) && OwnConfigs(w', q) && q !in w'.jobs
    requires
      var s := w.restores[q].source;
      && s in w.workloads && s in w'.workloads && w'.workloads[s].pod == w.workloads[s].pod
      && w'.sources[s].spec == w.sources[s].spec
    ensures Second(w', r, q)
  {
  }

  /** r has the application down when q comes up. */
  lemma SecondBehind(w: World, r: string, q: string)
    requires InLine(w, r) && Second(w, r, q)
    ensures Second(WithJob(w, r), r, q) && CountNow(WithJob(w, r), w.restores[q]) == 0
  {
    StillFresh(w, r, q, WithJob(w, r));
  }

  /** q queues up while r's Job runs. */
  lemma QueuesBehind(w: World, r: string, q: string)
    requires JobUnderway(w, r) && Second(w, r, q)
    ensures
      var w' := QueuedUp(w, q);
      && Reaches(w, w') && JobUnderway(w', r) && InLine(w'.(leases := map[]), q)
      && w'.restores[q].originalReplicas == Some(CountNow(w, w.restores[q]))
  {
    QueuesUp(w, q);
  }
}
