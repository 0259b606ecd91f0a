/**
 The restore controller as it is written: a pass that reads and writes the cluster step by step and returns
 early. Every handler is proved against the state machine, call for call, for a process that may die after
 any number of calls.
 */
module RestoreReconciler {
  import opened ApiTypes
  import opened LitestreamConfig
  import opened RestoreProtocol
  import opened RestoreSafety
  import Mounts

  ghost function At(w: World, name: string, pc: Pc): World {
    w.(worker := Some(Busy(name, pc, Unmarked)))
  }

  /** What the state machine makes of a pass that starts with the given call, if any. */
  ghost function From(w: World, name: string, entry: Option<Pc>, outcomes: seq<Io>): World {
    if entry.None? then w else Drive(At(w, name, entry.value), outcomes)
  }

  /** No call of the pass in flight is a release whose following write is lost. */
  ghost predicate NeverTorn(w: World, outcomes: seq<Io>)
    decreases |outcomes|
  {
    w.worker.Some? && outcomes != [] ==>
      !Torn(w, outcomes[0]) && NeverTorn(Exec(w, outcomes[0]), outcomes[1..])
  }

  /** Whatever its calls come to, and wherever the process dies, a pass keeps the joint invariant. */
  lemma {:induction false} PassKeeps(w: World, outcomes: seq<Io>)
    requires Inv(w) && NeverTorn(w, outcomes)
    ensures Inv(Drive(w, outcomes))
    decreases |outcomes|
  {
    if w.worker.None? {
    } else if outcomes == [] {
      StepKeeps(w, Crash);
    } else {
      StepKeeps(w, Call(outcomes[0]));
      PassKeeps(Exec(w, outcomes[0]), outcomes[1..]);
    }
  }

  /** So does the method Reconcile below, whose effect on the cluster is this value. */
  lemma ReconcileKeeps(w: World, name: string, readable: bool, outcomes: seq<Io>)
    requires Inv(w) && NeverTorn(Begin(w, name, readable), outcomes)
    ensures Inv(Drive(Begin(w, name, readable), outcomes))
  {
    StepKeeps(w, StartPass(name, readable));
    PassKeeps(Begin(w, name, readable), outcomes);
  }

  /** With every call succeeding, and the process living long enough, Reconcile is one complete pass. */
  lemma {:induction false} SuccessIsFinish(w: World, outcomes: seq<Io>)
    requires WorkLeft(w) <= |outcomes| && forall i :: 0 <= i < |outcomes| ==> outcomes[i] == ALL_OK
    ensures Drive(w, outcomes) == Finish(w)
    decreases |outcomes|
  {
    if w.worker.Some? {
      SuccessIsFinish(Exec(w, ALL_OK), outcomes[1..]);
    }
  }

  lemma SuccessIsPass(w: World, name: string, outcomes: seq<Io>)
    requires w.worker.None? && |outcomes| >= 9 && forall i :: 0 <= i < |outcomes| ==> outcomes[i] == ALL_OK
    ensures Drive(Begin(w, name, true), outcomes) == Pass(w, name)
  {
    SuccessIsFinish(Begin(w, name, true), outcomes);
  }

  /** A call after which nothing is left to do ends the pass. */
  lemma LastCall(w: World, name: string, pc: Pc, outcomes: seq<Io>)
    requires outcomes != [] && Exec(At(w, name, pc), outcomes[0]).worker.None?
    ensures Drive(At(w, name, pc), outcomes) == Exec(At(w, name, pc), outcomes[0])
  {
    assert Drive(Exec(At(w, name, pc), outcomes[0]), outcomes[1..]) == Exec(At(w, name, pc), outcomes[0]);
  }

  lemma FailedCall(w: World, name: string, pc: Pc, outcomes: seq<Io>)
    requires name in w.restores && w.worker.None? && outcomes != [] && !outcomes[0].ok
    requires pc.AtStoreTarget? || pc.AtAcquireLease? || pc.AtRepause?
    ensures Drive(At(w, name, pc), outcomes) == w
  {
    assert Exec(At(w, name, pc), outcomes[0]) == w;
    LastCall(w, name, pc, outcomes);
  }

  lemma AwaitCall(w: World, name: string, io: Io)
    requires name in w.restores && w.worker.None?
    ensures
      var x := w.restores[name];
      Exec(At(w, name, AtAwaitUnpaused), io) ==
      if x.source !in w.configs || w.configs[x.source].text == PAUSED_CONFIG then w
      else At(w, name, if ResumeCount(x) > 0 then AtScaleUp(ResumeCount(x)) else Concluding(x, false))
  {
  }

  lemma CleanupOf(w: World, name: string, pc: Pc, s: string, release: bool, resume: bool, io: Io)
    requires w.worker.None?
    ensures Stop(Cleanup(At(w, name, pc), name, s, release, resume, io)) == Cleanup(w, name, s, release, resume, io)
  {
    assert Holds(At(w, name, pc), name) == Holds(w, name);
  }

  lemma RemovalOf(w: World, name: string)
    ensures Stop(RemoveRestore(w, name)) == RemoveRestore(Stop(w), name)
  {
    assert Holds(Stop(w), name) == Holds(w, name);
  }

  lemma ConcludeCall(w: World, name: string, pc: Pc, outcomes: seq<Io>)
    requires name in w.restores && w.worker.None? && pc.AtConclude? && outcomes != []
    ensures
      var x := w.restores[name];
      var w1 := Cleanup(w, name, x.source, pc.release, pc.resume, outcomes[0]);
      Drive(At(w, name, pc), outcomes) == if outcomes[0].ok then PutRestore(w1, name, x.(phase := pc.phase)) else w1
  {
    var x := w.restores[name];
    CleanupOf(w, name, pc, x.source, pc.release, pc.resume, outcomes[0]);
    ConcludeWrites(w, name, pc, x, outcomes[0]);
    LastCall(w, name, pc, outcomes);
  }

  lemma ConcludeWrites(w: World, name: string, pc: Pc, x: Restore, io: Io)
    requires pc.AtConclude? && name in w.restores && x == w.restores[name]
    ensures
      var w1 := Stop(Cleanup(At(w, name, pc), name, x.source, pc.release, pc.resume, io));
      Exec(At(w, name, pc), io) == if io.ok then PutRestore(w1, name, x.(phase := pc.phase)) else w1
  {
    assert SetStatus(x, pc.phase, false, None) == x.(phase := pc.phase);
  }

  lemma FinalizeCall(w: World, name: string, pc: Pc, outcomes: seq<Io>)
    requires name in w.restores && w.worker.None? && pc.AtFinalize? && outcomes != []
    ensures
      var w1 := Cleanup(w, name, w.restores[name].source, pc.release, pc.resume, outcomes[0]);
      Drive(At(w, name, pc), outcomes) == if outcomes[0].ok then RemoveRestore(w1, name) else w1
  {
    var source := w.restores[name].source;
    CleanupOf(w, name, pc, source, pc.release, pc.resume, outcomes[0]);
    RemovalOf(Cleanup(At(w, name, pc), name, source, pc.release, pc.resume, outcomes[0]), name);
    LastCall(w, name, pc, outcomes);
  }

  class Cluster {
    var restores: map<string, Restore>
    var sources: map<string, Source>
    var configs: map<string, ConfigMap>
    var leases: map<string, string>
    var workloads: map<string, Workload>
    var jobs: map<string, Job>
    ghost var succeeded: set<string>

    // What the calls to come will meet with; the process dies when they run out.
    var outcomes: seq<Io>

    ghost function Now(): World
      reads this
    {
      World(restores, sources, configs, leases, workloads, jobs, succeeded, None)
    }

    /** setStatus, the last write of most passes. */
    method SetStatus(name: string, phase: Phase, nameJob: bool, replicas: Option<nat>)
      requires name in restores
      modifies this`restores, this`outcomes
      ensures Now() == Drive(At(old(Now()), name, AtStatus(phase, nameJob, replicas)), old(outcomes))
    {
      if outcomes == [] { return; }
      var io := outcomes[0];
      outcomes := outcomes[1..];
      if !io.ok { return; }
      var x := restores[name];
      var jobNamed := x.jobNamed;
      if nameJob { jobNamed := true; }
      var count := x.originalReplicas;
      if replicas.Some? && count.None? { count := replicas; }
      restores := restores[name := x.(phase := phase, jobNamed := jobNamed, originalReplicas := count)];
    }

    method FailRestore(name: string)
      requires name in restores
      modifies this`restores, this`outcomes
      ensures Now() == Drive(At(old(Now()), name, FAIL_RESTORE), old(outcomes))
    {
      SetStatus(name, Failed, false, None);
    }

    /** An existing Job is taken as is. */
    method CreateJob(name: string, target: Target)
      requires name in restores
      modifies this`restores, this`jobs, this`outcomes
      ensures Now() == Drive(At(old(Now()), name, AtCreateJob(target)), old(outcomes))
    {
      if outcomes == [] { return; }
      var io := outcomes[0];
      outcomes := outcomes[1..];
      if !io.ok { return; }
      if name !in jobs {
        jobs := jobs[name := Job(target, [])];
      }
      assert At(Now(), name, AtStatus(Restoring, true, None)) == Exec(At(old(Now()), name, AtCreateJob(target)), io);
      SetStatus(name, Restoring, true, None);
    }

    /** The Job's ConfigMap, the Job, and the move to Restoring. */
    method StartJob(name: string, target: Target, text: string)
      requires name in restores
      modifies this`restores, this`configs, this`jobs, this`outcomes
      ensures Now() == Drive(At(old(Now()), name, AtJobConfig(target, text)), old(outcomes))
    {
      if outcomes == [] { return; }
      var io := outcomes[0];
      outcomes := outcomes[1..];
      if !io.ok || (name in configs && configs[name].owner == OfSource) { return; }
      configs := configs[name := ConfigMap(OfRestore, text)];
      assert At(Now(), name, AtCreateJob(target)) == Exec(At(old(Now()), name, AtJobConfig(target, text)), io);
      CreateJob(name, target);
    }

    /** resolveRestoreTarget. */
    method ResolveTarget(x: Restore, readable: bool) returns (target: Option<Target>)
      requires x.source in sources
      ensures target == TargetOf(Now(), x, readable)
    {
      if x.mode == ToPVC {
        if x.target.None? { return None; }
        return Some(Target(x.target.value.pvc, x.target.value.path, ""));
      }
      if !readable || x.source !in workloads { return None; }
      var r := Mounts.ResolveInPlaceTarget(workloads[x.source].pod, sources[x.source].spec);
      match r
      case Err(_) => return None;
      case Ok(t) => return Some(t);
    }

    method RecordReplicas(name: string)
      requires name in restores
      modifies this`restores, this`outcomes
      ensures Now() == Drive(At(old(Now()), name, AtReadReplicas), old(outcomes))
    {
      if outcomes == [] { return; }
      var io := outcomes[0];
      outcomes := outcomes[1..];
      var source := restores[name].source;
      if !io.readable {
        FailRestore(name);
        return;
      }
      var count := 0;
      if source in workloads {
        count := if workloads[source].replicas.None? then 1 else workloads[source].replicas.value;
      }
      SetStatus(name, AcquiringLock, false, Some(count));
    }

    /** What a Pending pass does once its target is stored. */
    method LeavePending(name: string, target: Target, text: string)
      requires name in restores
      modifies this`restores, this`configs, this`jobs, this`outcomes
      ensures Now() == Drive(At(old(Now()), name, AfterTarget(old(restores[name]), target, text)), old(outcomes))
    {
      if restores[name].mode == ToPVC {
        StartJob(name, target, text);
      } else {
        RecordReplicas(name);
      }
    }

    method ReconcilePending(name: string, text: string, readable: bool)
      requires name in restores && restores[name].source in sources
      modifies this`restores, this`configs, this`jobs, this`outcomes
      ensures Now() == From(old(Now()), name, EnterPending(old(Now()), old(restores[name]), text, readable), old(outcomes))
    {
      var x := restores[name];
      var target := ResolveTarget(x, readable);
      if target.None? {
        FailRestore(name);
        return;
      }
      if x.resolved.pvc == "" {
        if outcomes == [] { return; }
        var io := outcomes[0];
        outcomes := outcomes[1..];
        ghost var pc := AtStoreTarget(target.value, text);
        if !io.ok {
          FailedCall(old(Now()), name, pc, old(outcomes));
          return;
        }
        restores := restores[name := x.(resolved := target.value)];
        assert At(Now(), name, AfterTarget(x, target.value, text)) == Exec(At(old(Now()), name, pc), io);
      }
      LeavePending(name, target.value, text);
    }

    /** With the lease in hand: pause replication and move on to Fencing. */
    method PauseAndFence(name: string, pause: bool)
      requires name in restores
      modifies this`restores, this`sources, this`outcomes
      ensures Now() == Drive(At(old(Now()), name, if pause then AtPause else AtStatus(Fencing, false, None)), old(outcomes))
    {
      var source := restores[name].source;
      if pause {
        if outcomes == [] { return; }
        var io := outcomes[0];
        outcomes := outcomes[1..];
        if !io.ok || source !in sources { return; }
        sources := sources[source := sources[source].(paused := true)];
      }
      SetStatus(name, Fencing, false, None);
    }

    method ReconcileAcquiringLock(name: string)
      requires name in restores && restores[name].source in sources
      modifies this`restores, this`sources, this`leases, this`outcomes
      ensures
        var w, x := old(Now()), old(restores[name]);
        Now() == From(w, name, EnterAcquiringLock(w, name, x, w.sources[x.source]), old(outcomes))
    {
      var x := restores[name];
      if x.mode == ToPVC {
        SetStatus(name, Fencing, false, None);
        return;
      }
      var pause := !sources[x.source].paused;
      if x.source !in leases {
        if outcomes == [] { return; }
        var io := outcomes[0];
        outcomes := outcomes[1..];
        if !io.ok {
          FailedCall(old(Now()), name, AtAcquireLease(pause), old(outcomes));
          return;
        }
        leases := leases[x.source := name];
      } else if leases[x.source] != name {
        SetStatus(name, AcquiringLock, false, None);
        return;
      }
      PauseAndFence(name, pause);
    }

    /** Scale to zero and wait for the pods to go; then start the Job. */
    method ScaleDown(name: string, text: string)
      requires name in restores
      modifies this`restores, this`workloads, this`configs, this`jobs, this`outcomes
      ensures Now() == Drive(At(old(Now()), name, AtScaleDown(text)), old(outcomes))
    {
      if outcomes == [] { return; }
      var io := outcomes[0];
      outcomes := outcomes[1..];
      var x := restores[name];
      if !io.readable {
        FailRestore(name);
        return;
      }
      if x.source in workloads {
        var wl := workloads[x.source];
        if wl.replicas != Some(0) {
          if !io.ok { return; }
          workloads := workloads[x.source := wl.(replicas := Some(0))];
        } else {
          assert workloads[x.source := wl.(replicas := Some(0))] == workloads;
        }
        if wl.running > 0 { return; }
      }
      StartJob(name, x.resolved, text);
    }

    method ReconcileFencing(name: string, text: string)
      requires name in restores && restores[name].source in sources
      modifies this`restores, this`sources, this`workloads, this`configs, this`jobs, this`outcomes
      ensures
        var w, x := old(Now()), old(restores[name]);
        Now() == From(w, name, EnterFencing(w, x, w.sources[x.source], text), old(outcomes))
    {
      var source := restores[name].source;
      if !sources[source].paused {
        if outcomes == [] { return; }
        var io := outcomes[0];
        outcomes := outcomes[1..];
        if !io.ok {
          FailedCall(old(Now()), name, AtRepause, old(outcomes));
          return;
        }
        sources := sources[source := sources[source].(paused := true)];
        assert Now() == Exec(At(old(Now()), name, AtRepause), io);
        LastCall(old(Now()), name, AtRepause, old(outcomes));
        return;
      }
      if source !in configs || configs[source].text != PAUSED_CONFIG { return; }
      ScaleDown(name, text);
    }

    /** releaseRestoreLock and resumeReplication, best effort. */
    method CleanUp(name: string, source: string, release: bool, resume: bool, io: Io)
      requires name in restores && restores[name].source == source
      modifies this`sources, this`leases
      ensures Now() == Cleanup(old(Now()), name, source, release, resume, io)
    {
      if release && io.released && source in leases && leases[source] == name {
        leases := leases - {source};
      }
      if resume && io.resumed && source in sources {
        sources := sources[source := sources[source].(paused := false)];
      }
    }

    /** Clean up, then write the final phase. */
    method Conclude(name: string, phase: Phase, release: bool, resume: bool, skipped: bool)
      requires name in restores
      modifies this`restores, this`sources, this`leases, this`outcomes
      ensures Now() == Drive(At(old(Now()), name, AtConclude(phase, release, resume, skipped)), old(outcomes))
    {
      if outcomes == [] { return; }
      var io := outcomes[0];
      outcomes := outcomes[1..];
      var x := restores[name];
      ghost var pc := AtConclude(phase, release, resume, skipped);
      ConcludeCall(old(Now()), name, pc, old(outcomes));
      CleanUp(name, x.source, release, resume, io);
      if !io.ok { return; }
      restores := restores[name := x.(phase := phase)];
    }

    /** The loop over the Job's conditions. */
    method JobVerdict(conditions: seq<JobCondition>) returns (v: Verdict)
      ensures v == VerdictOf(conditions)
    {
      for i := 0 to |conditions|
        invariant VerdictOf(conditions) == VerdictOf(conditions[i..])
      {
        var c := conditions[i];
        assert conditions[i..][0] == c && conditions[i..][1..] == conditions[i + 1..];
        match c.kind
        case JobComplete => if c.status { return Succeeded; }
        case JobFailed => if c.status { return Broken; }
        case JobOther =>
      }
      return Running;
    }

    method FailRestoreWithCleanup(name: string)
      requires name in restores && restores[name].source in sources
      modifies this`restores, this`sources, this`leases, this`outcomes
      ensures
        var w, x := old(Now()), old(restores[name]);
        Now() == Drive(At(w, name, FailWithCleanup(x, w.sources[x.source])), old(outcomes))
    {
      var x := restores[name];
      if x.mode != ToPVC {
        Conclude(name, Failed, true, sources[x.source].paused, false);
      } else {
        SetStatus(name, Failed, false, None);
      }
    }

    method ReconcileRestoring(name: string)
      requires name in restores && restores[name].source in sources
      modifies this`restores, this`sources, this`leases, this`outcomes
      ensures
        var w, x := old(Now()), old(restores[name]);
        Now() == From(w, name, EnterRestoring(w, name, x, w.sources[x.source]), old(outcomes))
    {
      var x := restores[name];
      if !x.jobNamed { return; }
      if name !in jobs {
        FailRestoreWithCleanup(name);
        return;
      }
      var verdict := JobVerdict(jobs[name].conditions);
      match verdict
      case Running =>
      case Succeeded => SetStatus(name, if x.mode == ToPVC then Completed else Resuming, false, None);
      case Broken => FailRestoreWithCleanup(name);
    }

    method ScaleUp(name: string, count: nat)
      requires name in restores
      modifies this`restores, this`sources, this`leases, this`workloads, this`outcomes
      ensures Now() == Drive(At(old(Now()), name, AtScaleUp(count)), old(outcomes))
    {
      if outcomes == [] { return; }
      var io := outcomes[0];
      outcomes := outcomes[1..];
      var x := restores[name];
      if io.readable && x.source in workloads {
        var wl := workloads[x.source];
        if wl.replicas != Some(count) {
          if !io.ok { return; }
          workloads := workloads[x.source := wl.(replicas := Some(count))];
        } else {
          assert workloads[x.source := wl.(replicas := Some(count))] == workloads;
        }
      }
      Conclude(name, Completed, x.mode == InPlace, false, !io.readable);
    }

    /** Wait for the ConfigMap to show replication switched back on. */
    method AwaitUnpaused(name: string)
      requires name in restores
      modifies this`restores, this`sources, this`leases, this`workloads, this`outcomes
      ensures Now() == Drive(At(old(Now()), name, AtAwaitUnpaused), old(outcomes))
    {
      if outcomes == [] { return; }
      var io := outcomes[0];
      outcomes := outcomes[1..];
      var x := restores[name];
      AwaitCall(old(Now()), name, io);
      if x.source !in configs || configs[x.source].text == PAUSED_CONFIG { return; }
      var count := 1;
      if x.originalReplicas.Some? { count := x.originalReplicas.value; }
      if count > 0 {
        ScaleUp(name, count);
      } else {
        Conclude(name, Completed, x.mode == InPlace, false, false);
      }
    }

    method ReconcileResuming(name: string)
      requires name in restores && restores[name].source in sources
      modifies this`restores, this`sources, this`leases, this`workloads, this`outcomes
      ensures
        var w, x := old(Now()), old(restores[name]);
        Now() == Drive(At(w, name, if w.sources[x.source].paused then AtResume else AtAwaitUnpaused), old(outcomes))
    {
      var source := restores[name].source;
      if sources[source].paused {
        if outcomes == [] { return; }
        var io := outcomes[0];
        outcomes := outcomes[1..];
        if !io.ok { return; }
        sources := sources[source := sources[source].(paused := false)];
      }
      AwaitUnpaused(name);
    }

    /** Clean up and let the object go, and with it everything it owns. */
    method HandleFinalization(name: string, release: bool, resume: bool)
      requires name in restores
      modifies this
      ensures Now() == Drive(At(old(Now()), name, AtFinalize(release, resume)), old(outcomes))
    {
      if outcomes == [] { return; }
      var io := outcomes[0];
      outcomes := outcomes[1..];
      var source := restores[name].source;
      FinalizeCall(old(Now()), name, AtFinalize(release, resume), old(outcomes));
      CleanUp(name, source, release, resume, io);
      if !io.ok { return; }
      if source in leases && leases[source] == name {
        leases := leases - {source};
      }
      restores := restores - {name};
      jobs := jobs - {name};
      if name in configs && configs[name].owner == OfRestore {
        configs := configs - {name};
      }
      succeeded := succeeded - {name};
    }

    method AddFinalizer(name: string)
      requires name in restores
      modifies this`restores, this`outcomes
      ensures Now() == Drive(At(old(Now()), name, AtAddFinalizer), old(outcomes))
    {
      if outcomes == [] { return; }
      var io := outcomes[0];
      outcomes := outcomes[1..];
      if !io.ok { return; }
      restores := restores[name := restores[name].(finalizer := true)];
    }

    /** The dispatch over the phase of a live restore. */
    method ReconcilePhase(name: string, readable: bool)
      requires name in restores && restores[name].source in sources
      requires restores[name].finalizer && !restores[name].deleting && !Terminal(restores[name].phase)
      requires sources[restores[name].source].spec.backup.enabled && sources[restores[name].source].spec.backup.s3.Some?
      modifies this
      ensures Now() == From(old(Now()), name, Enter(old(Now()), name, readable), old(outcomes))
    {
      var x := restores[name];
      var text := Render(sources[x.source].spec);
      match x.phase
      case Pending => ReconcilePending(name, text, readable);
      case AcquiringLock => ReconcileAcquiringLock(name);
      case Fencing => ReconcileFencing(name, text);
      case Restoring => ReconcileRestoring(name);
      case Validating => SetStatus(name, if x.mode == ToPVC then Completed else Resuming, false, None);
      case Resuming => ReconcileResuming(name);
    }

    /** One pass of the restore controller, as far as its process lives. */
    method Reconcile(name: string, readable: bool)
      modifies this
      ensures Now() == Drive(Begin(old(Now()), name, readable), old(outcomes))
    {
      if name !in restores { return; }
      var x := restores[name];
      if !x.finalizer {
        AddFinalizer(name);
        return;
      }
      if x.source !in sources {
        if x.deleting {
          HandleFinalization(name, x.mode == InPlace, false);
        } else {
          FailRestore(name);
        }
        return;
      }
      var src := sources[x.source];
      if x.deleting {
        HandleFinalization(name, x.mode == InPlace, x.mode == InPlace && !MidRestore(x.phase) && src.paused);
        return;
      }
      if Terminal(x.phase) { return; }
      if !src.spec.backup.enabled || src.spec.backup.s3.None? {
        FailRestore(name);
        return;
      }
      ReconcilePhase(name, readable);
    }

    /** The replica controller's half: mirror the pause flag into the source's ConfigMap. */
    method ReconcileLitestreamConfig(source: string)
      modifies this`configs
      ensures Now() == ReplicaPass(old(Now()), source)
    {
      if source !in sources { return; }
      var text := PAUSED_CONFIG;
      if !sources[source].paused {
        text := Render(sources[source].spec);
      }
      if source in configs && configs[source].owner == OfRestore { return; }
      configs := configs[source := ConfigMap(OfSource, text)];
    }
  }
}
