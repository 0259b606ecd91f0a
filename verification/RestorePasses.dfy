/** What one complete, successful pass over an InPlace restore does, phase by phase. */
module RestorePasses {
  import opened ApiTypes
  import opened LitestreamConfig
  import opened RestoreProtocol
  import opened RestoreSafety

  /** The source is there and has a backup to restore from. */
  predicate Usable(w: World, r: string)
    requires r in w.restores
  {
    var s := w.restores[r].source;
    s in w.sources && w.sources[s].spec.backup.enabled && w.sources[s].spec.backup.s3.Some?
  }

  /** A live InPlace restore of a usable source, with no pass in flight. */
  ghost predicate Able(w: World, r: string) {
    w.worker.None? && r in w.restores && w.restores[r].mode == InPlace && !w.restores[r].deleting && Usable(w, r)
  }

  /** The lease of its source is free or its own. */
  ghost predicate Uncontended(w: World, r: string)
    requires r in w.restores
  {
    w.restores[r].source in w.leases ==> w.leases[w.restores[r].source] == r
  }

  /** Source and restore have a ConfigMap name each, and each name is not taken by the other kind. */
  predicate OwnConfigs(w: World, r: string)
    requires r in w.restores
  {
    var s := w.restores[r].source;
    && r != s
    && (s in w.configs ==> w.configs[s].owner == OfSource)
    && (r in w.configs ==> w.configs[r].owner == OfRestore)
  }

  /** One call further in a complete pass. */
  lemma FinishNext(w: World, w': World)
    requires w.worker.Some? && w' == Exec(w, ALL_OK)
    ensures Finish(w) == Finish(w')
    ensures w'.worker.None? ==> Finish(w) == w'
  {
  }

  lemma PassUnfinalized(w: World, r: string)
    requires w.worker.None? && r in w.restores && !w.restores[r].finalizer
    ensures Pass(w, r) == PutRestore(w, r, w.restores[r].(finalizer := true))
  {
    var w0 := Begin(w, r, true);
    FinishNext(w0, Exec(w0, ALL_OK));
  }

  lemma PassUnresolved(w: World, r: string)
    requires Able(w, r) && w.restores[r].finalizer && w.restores[r].phase == Pending
    requires TargetOf(w, w.restores[r], true).None?
    ensures Pass(w, r) == PutRestore(w, r, SetStatus(w.restores[r], Failed, false, None))
  {
    var w0 := Begin(w, r, true);
    FinishNext(w0, Exec(w0, ALL_OK));
  }

  /** From reading the count on. */
  lemma FinishCount(w: World, b: Busy, x: Restore)
    requires w.worker == Some(b) && b.pc.AtReadReplicas? && b.name in w.restores && x == w.restores[b.name]
    ensures Finish(w) == Stop(PutRestore(w, b.name, SetStatus(x, AcquiringLock, false, Some(CountNow(w, x)))))
  {
    var w1 := Exec(w, ALL_OK);
    FinishNext(w, w1);
    FinishNext(w1, Exec(w1, ALL_OK));
  }

  lemma BeginResolved(w: World, r: string)
    requires Able(w, r) && w.restores[r].finalizer && w.restores[r].phase == Pending
    requires TargetOf(w, w.restores[r], true).Some?
    ensures
      var x, w0 := w.restores[r], Begin(w, r, true);
      var x1 := x.(resolved := TargetOf(w, x, true).value);
      if x.resolved.pvc != "" then w0 == w.(worker := Some(Busy(r, AtReadReplicas, Unmarked)))
      else w0.worker.Some? && Exec(w0, ALL_OK) == PutRestore(w, r, x1).(worker := Some(Busy(r, AtReadReplicas, Unmarked)))
  {
  }

  lemma PassResolved(w: World, r: string)
    requires Able(w, r) && w.restores[r].finalizer && w.restores[r].phase == Pending
    requires TargetOf(w, w.restores[r], true).Some?
    ensures
      var x := w.restores[r];
      var x1 := if x.resolved.pvc == "" then x.(resolved := TargetOf(w, x, true).value) else x;
      Pass(w, r) == PutRestore(w, r, SetStatus(x1, AcquiringLock, false, Some(CountNow(w, x))))
  {
    var x := w.restores[r];
    var w0 := Begin(w, r, true);
    BeginResolved(w, r);
    var w1 := if x.resolved.pvc == "" then Exec(w0, ALL_OK) else w0;
    if x.resolved.pvc == "" {
      FinishNext(w0, w1);
    }
    FinishCount(w1, w1.worker.value, w1.restores[r]);
  }

  /** With the lease in hand. */
  lemma FinishLocked(w: World, b: Busy, x: Restore)
    requires w.worker == Some(b) && b.name in w.restores && x == w.restores[b.name] && x.source in w.sources
    requires b.pc == if w.sources[x.source].paused then AtStatus(Fencing, false, None) else AtPause
    ensures
      Finish(w) == w.(restores := w.restores[b.name := SetStatus(x, Fencing, false, None)],
                      sources := w.sources[x.source := w.sources[x.source].(paused := true)], worker := None)
  {
    if w.sources[x.source].paused {
      FinishNext(w, Exec(w, ALL_OK));
      assert w.sources[x.source := w.sources[x.source].(paused := true)] == w.sources;
    } else {
      var w1 := Exec(w, ALL_OK);
      FinishNext(w, w1);
      FinishNext(w1, Exec(w1, ALL_OK));
    }
  }

  lemma PassLock(w: World, r: string)
    requires Able(w, r) && Uncontended(w, r) && w.restores[r].finalizer && w.restores[r].phase == AcquiringLock
    ensures
      var x := w.restores[r];
      Pass(w, r) == w.(restores := w.restores[r := SetStatus(x, Fencing, false, None)],
                       leases := w.leases[x.source := r],
                       sources := w.sources[x.source := w.sources[x.source].(paused := true)])
  {
    var x := w.restores[r];
    var s := x.source;
    var w0 := Begin(w, r, true);
    if s in w.leases {
      assert w.leases[s := r] == w.leases;
      FinishLocked(w0, w0.worker.value, x);
    } else {
      var w1 := Exec(w0, ALL_OK);
      FinishNext(w0, w1);
      FinishLocked(w1, w1.worker.value, x);
    }
  }

  lemma PassRepause(w: World, r: string)
    requires Able(w, r) && w.restores[r].finalizer && w.restores[r].phase == Fencing
    requires !w.sources[w.restores[r].source].paused
    ensures Pass(w, r) == SetPaused(w, w.restores[r].source, true)
  {
    var w0 := Begin(w, r, true);
    FinishNext(w0, Exec(w0, ALL_OK));
  }

  /** From the gate on: the Job's ConfigMap, the Job, the status. */
  lemma FinishJob(w: World, b: Busy, x: Restore)
    requires w.worker == Some(b) && b.name in w.restores && x == w.restores[b.name] && b.pc.AtJobConfig?
    requires b.name in w.configs ==> w.configs[b.name].owner == OfRestore
    ensures
      Finish(w) == w.(restores := w.restores[b.name := SetStatus(x, Restoring, true, None)],
                      configs := w.configs[b.name := ConfigMap(OfRestore, b.pc.text)],
                      jobs := if b.name in w.jobs then w.jobs else w.jobs[b.name := Job(b.pc.target, [])],
                      worker := None)
  {
    var w1 := ExecJobConfig(w, b, ALL_OK);
    FinishNext(w, w1);
    var w2 := ExecCreateJob(w1, w1.worker.value, ALL_OK);
    FinishNext(w1, w2);
    FinishNext(w2, ExecStatus(w2, w2.worker.value, x, ALL_OK));
  }

  function ScaledDown(w: World, s: string): World {
    if s in w.workloads then Scale(w, s, 0) else w
  }

  /** Through the gate: the application is scaled down, and with no pod left the Job is next. */
  lemma FenceGate(w: World, r: string)
    requires Able(w, r) && w.restores[r].finalizer && w.restores[r].phase == Fencing
    requires PauseSeen(w, w.restores[r].source)
    ensures
      var x := w.restores[r];
      var w1 := ScaledDown(w, x.source);
      var pc := AtJobConfig(x.resolved, Render(w.sources[x.source].spec));
      Pass(w, r) == if x.source in w.workloads && w.workloads[x.source].running > 0 then w1
                    else Finish(w1.(worker := Some(Busy(r, pc, Unmarked))))
  {
    var x := w.restores[r];
    var b := Busy(r, AtScaleDown(Render(w.sources[x.source].spec)), Unmarked);
    var w0 := Begin(w, r, true);
    assert w0 == w.(worker := Some(b));
    assert Exec(w0, ALL_OK) == ExecScaleDown(w0, b, x, ALL_OK);
    FinishNext(w0, Exec(w0, ALL_OK));
  }

  /** A fencing pass scales down, and goes on to the Job when no pod is left. */
  lemma PassFence(w: World, r: string)
    requires Able(w, r) && w.restores[r].finalizer && w.restores[r].phase == Fencing
    requires PauseSeen(w, w.restores[r].source) && (r in w.configs ==> w.configs[r].owner == OfRestore)
    ensures
      var x := w.restores[r];
      var w1 := ScaledDown(w, x.source);
      var done := w1.(restores := w.restores[r := SetStatus(x, Restoring, true, None)],
                      configs := w.configs[r := ConfigMap(OfRestore, Render(w.sources[x.source].spec))],
                      jobs := if r in w.jobs then w.jobs else w.jobs[r := Job(x.resolved, [])]);
      Pass(w, r) == if x.source in w.workloads && w.workloads[x.source].running > 0 then w1 else done
  {
    var x := w.restores[r];
    FenceGate(w, r);
    if !(x.source in w.workloads && w.workloads[x.source].running > 0) {
      var b := Busy(r, AtJobConfig(x.resolved, Render(w.sources[x.source].spec)), Unmarked);
      FinishJob(ScaledDown(w, x.source).(worker := Some(b)), b, x);
    }
  }

  /** A ConfigMap of the Job's name that a source controls: the application is scaled down, and there the pass ends. */
  lemma PassRefused(w: World, r: string)
    requires Able(w, r) && w.restores[r].finalizer && w.restores[r].phase == Fencing
    requires PauseSeen(w, w.restores[r].source) && r in w.configs && w.configs[r].owner == OfSource
    ensures Pass(w, r) == ScaledDown(w, w.restores[r].source)
  {
    var x := w.restores[r];
    FenceGate(w, r);
    var b := Busy(r, AtJobConfig(x.resolved, Render(w.sources[x.source].spec)), Unmarked);
    var w1 := ScaledDown(w, x.source).(worker := Some(b));
    assert Exec(w1, ALL_OK) == ExecJobConfig(w1, b, ALL_OK);
    FinishNext(w1, Exec(w1, ALL_OK));
  }

  lemma PassUnusable(w: World, r: string)
    requires w.worker.None? && r in w.restores && w.restores[r].finalizer && !w.restores[r].deleting
    requires !Usable(w, r) && !Terminal(w.restores[r].phase)
    ensures Pass(w, r) == PutRestore(w, r, SetStatus(w.restores[r], Failed, false, None))
  {
    var w0 := Begin(w, r, true);
    FinishNext(w0, Exec(w0, ALL_OK));
  }

  lemma PassIdle(w: World, r: string)
    requires Able(w, r) && w.restores[r].finalizer
    requires
      var x := w.restores[r];
      || (x.phase == Fencing && w.sources[x.source].paused && !PauseSeen(w, x.source))
      || (x.phase == Restoring && x.jobNamed && JobRuns(w, r))
    ensures Pass(w, r) == w
  {
  }

  lemma PassJobSucceeded(w: World, r: string)
    requires Able(w, r) && w.restores[r].finalizer && w.restores[r].phase == Restoring && w.restores[r].jobNamed
    requires r in w.jobs && VerdictOf(w.jobs[r].conditions) == Succeeded
    ensures Pass(w, r) == PutRestore(w, r, SetStatus(w.restores[r], Resuming, false, None))
  {
    var w0 := Begin(w, r, true);
    FinishNext(w0, Exec(w0, ALL_OK));
  }

  lemma PassJobBroken(w: World, r: string)
    requires Able(w, r) && w.restores[r].finalizer && w.restores[r].phase == Restoring && w.restores[r].jobNamed
    requires Holds(w, r) && (r in w.jobs ==> VerdictOf(w.jobs[r].conditions) == Broken)
    ensures
      var x := w.restores[r];
      Pass(w, r) == w.(restores := w.restores[r := SetStatus(x, Failed, false, None)],
                       leases := w.leases - {x.source},
                       sources := w.sources[x.source := w.sources[x.source].(paused := false)])
  {
    var x := w.restores[r];
    var w0 := Begin(w, r, true);
    var b := Busy(r, FailWithCleanup(x, w.sources[x.source]), Unmarked);
    assert w0 == w.(worker := Some(b));
    assert Exec(w0, ALL_OK) == ExecConclude(w0, b, x, ALL_OK);
    FinishNext(w0, Exec(w0, ALL_OK));
    assert !w.sources[x.source].paused ==>
        w.sources[x.source := w.sources[x.source].(paused := false)] == w.sources;
  }

  /** With replication back on: scale up, release, complete. */
  lemma FinishAwake(w: World, b: Busy, x: Restore)
    requires w.worker == Some(b) && b.name in w.restores && x == w.restores[b.name] && b.pc.AtAwaitUnpaused?
    requires x.mode == InPlace && Holds(w, b.name)
    requires x.source in w.configs && w.configs[x.source].text != PAUSED_CONFIG
    ensures
      var w1 := if ResumeCount(x) > 0 && x.source in w.workloads then Scale(w, x.source, ResumeCount(x)) else w;
      Finish(w) == w1.(restores := w.restores[b.name := SetStatus(x, Completed, false, None)],
                       leases := w.leases - {x.source}, worker := None)
  {
    var w1 := Exec(w, ALL_OK);
    FinishNext(w, w1);
    if ResumeCount(x) > 0 {
      var w2 := Exec(w1, ALL_OK);
      FinishNext(w1, w2);
      FinishNext(w2, Exec(w2, ALL_OK));
    } else {
      FinishNext(w1, Exec(w1, ALL_OK));
    }
  }

  lemma FinishAsleep(w: World, b: Busy, x: Restore)
    requires w.worker == Some(b) && b.name in w.restores && x == w.restores[b.name] && b.pc.AtAwaitUnpaused?
    requires x.source !in w.configs || w.configs[x.source].text == PAUSED_CONFIG
    ensures Finish(w) == Stop(w)
  {
    FinishNext(w, Exec(w, ALL_OK));
  }

  lemma PassResuming(w: World, r: string)
    requires Able(w, r) && w.restores[r].finalizer && Holds(w, r) && w.restores[r].phase == Resuming
    ensures
      var x := w.restores[r];
      var w1 := w.(sources := w.sources[x.source := w.sources[x.source].(paused := false)]);
      var w2 := if ResumeCount(x) > 0 && x.source in w.workloads then Scale(w1, x.source, ResumeCount(x)) else w1;
      Pass(w, r) == if x.source !in w.configs || w.configs[x.source].text == PAUSED_CONFIG then w1
                    else w2.(restores := w.restores[r := SetStatus(x, Completed, false, None)],
                             leases := w.leases - {x.source})
  {
    var x := w.restores[r];
    var w0 := Begin(w, r, true);
    var w1 := w0;
    if w.sources[x.source].paused {
      w1 := Exec(w0, ALL_OK);
      FinishNext(w0, w1);
    } else {
      assert w.sources[x.source := w.sources[x.source].(paused := false)] == w.sources;
    }
    if x.source !in w.configs || w.configs[x.source].text == PAUSED_CONFIG {
      FinishAsleep(w1, w1.worker.value, x);
    } else {
      FinishAwake(w1, w1.worker.value, x);
    }
  }
}
