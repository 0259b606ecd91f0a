/**
 Progress, and exactly when there is none. Under every fair schedule of the restore controller, the replica
 controller, the pods and the Job, an uncontended InPlace restore comes to its end, unless a ConfigMap name it needs
 is taken; then it is stuck for good, whatever the schedule.
 */
module RestoreLiveness {
  import opened ApiTypes
  import opened LitestreamConfig
  import opened RestoreProtocol
  import opened RestoreSafety
  import opened RestorePasses
  import opened RestoreProgress
  import F = FairSchedules

  // ---------------------------------------------------------------- schedules

  ghost function TakeTurn(w: World, r: string, a: Actor): World {
    if r in w.restores then Act(w, r, a) else w
  }

  ghost predicate FairTo(schedule: nat -> Actor) {
    F.Fair(schedule, (a: Actor) => a.kind)
  }

  predicate Over(w: World, r: string) {
    r in w.restores && Terminal(w.restores[r].phase)
  }

  /** The world after n turns, until the restore is over. */
  ghost function After(w: World, r: string, schedule: nat -> Actor, n: nat): World {
    F.Turns((v, a) => TakeTurn(v, r, a), v => Over(v, r), w, schedule, 0, n)
  }

  /** A live InPlace restore that nobody competes with, in a reachable state. */
  ghost predicate Underway(w: World, r: string) {
    && Inv(w) && w.worker.None? && r in w.restores
    && w.restores[r].mode == InPlace && !w.restores[r].deleting && !Terminal(w.restores[r].phase)
    && Uncontended(w, r)
  }

  // ---------------------------------------------------------------- nothing in the way

  ghost predicate OnTheWay(w: World, r: string) {
    Inv(w) && Clear(w, r) && !Terminal(w.restores[r].phase)
  }

  ghost function MeasureOf(w: World, r: string): F.Measure {
    if r in w.restores then F.Measure(Stage(w, r), PodsLeft(w, r)) else F.Measure(0, 0)
  }

  lemma TurnHelps(w: World, r: string, a: Actor)
    requires OnTheWay(w, r)
    ensures
      var w' := TakeTurn(w, r, a);
      if Over(w', r) then Settled(w', r)
      else
        && OnTheWay(w', r) && F.NotAbove(MeasureOf(w', r), MeasureOf(w, r))
        && (a.kind == Awaited(MeasureOf(w, r).stage) ==> F.Below(MeasureOf(w', r), MeasureOf(w, r)))
  {
    ActAdvances(w, r, a);
  }

  /** Progress: with nothing in the way the restore settles under every fair schedule. */
  lemma Progress(w: World, r: string, schedule: nat -> Actor)
    requires OnTheWay(w, r) && FairTo(schedule)
    ensures exists n: nat :: Over(After(w, r, schedule, n), r) && Settled(After(w, r, schedule, n), r)
  {
    var step := (v, a) => TakeTurn(v, r, a);
    var done := v => Over(v, r);
    var good := v => OnTheWay(v, r);
    var measure := v => MeasureOf(v, r);
    var kind := (a: Actor) => a.kind;
    assert F.Helps(step, done, good, measure, Awaited, kind) by {
      forall v, a | OnTheWay(v, r)
        ensures
          var v' := TakeTurn(v, r, a);
          Over(v', r) || (&& OnTheWay(v', r) && F.NotAbove(MeasureOf(v', r), MeasureOf(v, r))
                          && (a.kind == Awaited(MeasureOf(v, r).stage) ==> F.Below(MeasureOf(v', r), MeasureOf(v, r))))
      {
        TurnHelps(v, r, a);
      }
    }
    var n := F.Converges(step, done, good, measure, Awaited, kind, w, schedule, 0);
    var v, a := F.SteppedInto(step, done, good, measure, Awaited, kind, w, schedule, 0, n);
    TurnHelps(v, r, a);
    assert After(w, r, schedule, n) == TakeTurn(v, r, a);
  }

  // ---------------------------------------------------------------- no backup to restore from

  ghost predicate Hopeless(w: World, r: string) {
    && w.worker.None? && r in w.restores && !w.restores[r].deleting && !Terminal(w.restores[r].phase)
    && !Usable(w, r)
  }

  ghost function PassesLeft(w: World, r: string): F.Measure {
    F.Measure(if r in w.restores && w.restores[r].finalizer then 1 else 2, 0)
  }

  lemma HopelessTurn(w: World, r: string, a: Actor)
    requires Hopeless(w, r)
    ensures
      var w' := TakeTurn(w, r, a);
      Over(w', r) || (&& Hopeless(w', r) && F.NotAbove(PassesLeft(w', r), PassesLeft(w, r))
                      && (a.kind == Restorer ==> F.Below(PassesLeft(w', r), PassesLeft(w, r))))
  {
    if a.kind != Restorer {
      HopelessOther(w, r, a);
    } else if w.restores[r].finalizer {
      PassUnusable(w, r);
    } else {
      PassUnfinalized(w, r);
    }
  }

  lemma HopelessOther(w: World, r: string, a: Actor)
    requires Hopeless(w, r) && a.kind != Restorer
    ensures Hopeless(Act(w, r, a), r) && Act(w, r, a).restores == w.restores
  {
  }

  /** Without source or backup it fails, whatever its phase. */
  lemma FailsAtOnce(w: World, r: string, schedule: nat -> Actor)
    requires Hopeless(w, r) && FairTo(schedule)
    ensures exists n: nat :: Over(After(w, r, schedule, n), r)
  {
    var step := (v, a) => TakeTurn(v, r, a);
    var done := v => Over(v, r);
    var good := v => Hopeless(v, r);
    var measure := v => PassesLeft(v, r);
    var kind := (a: Actor) => a.kind;
    var awaited := (stage: nat) => Restorer;
    assert F.Helps(step, done, good, measure, awaited, kind) by {
      forall v, a | Hopeless(v, r)
        ensures
          var v' := TakeTurn(v, r, a);
          Over(v', r) || (&& Hopeless(v', r) && F.NotAbove(PassesLeft(v', r), PassesLeft(v, r))
                          && (a.kind == Restorer ==> F.Below(PassesLeft(v', r), PassesLeft(v, r))))
      {
        HopelessTurn(v, r, a);
      }
    }
    var n := F.Converges(step, done, good, measure, awaited, kind, w, schedule, 0);
    assert Over(After(w, r, schedule, n), r);
  }

  // ---------------------------------------------------------------- a ConfigMap name is taken

  ghost predicate Stuck(w: World, r: string) {
    Inv(w) && Able(w, r) && Uncontended(w, r) && Blocked(w, r)
  }

  lemma ReplicatorKeepsBlocked(w: World, r: string)
    requires Able(w, r) && Uncontended(w, r) && Blocked(w, r)
    ensures
      var w' := ReplicaPass(w, w.restores[r].source);
      Able(w', r) && Uncontended(w', r) && Blocked(w', r)
  {
    var x := w.restores[r];
    assert TargetOf(ReplicaPass(w, x.source), x, true) == TargetOf(w, x, true);
  }

  lemma PodsKeepBlocked(w: World, r: string, n: nat)
    requires Able(w, r) && Uncontended(w, r) && Blocked(w, r) && w.restores[r].source in w.workloads
    ensures
      var w' := SetRunning(w, w.restores[r].source, n);
      Able(w', r) && Uncontended(w', r) && Blocked(w', r)
  {
    var x := w.restores[r];
    assert TargetOf(SetRunning(w, x.source, n), x, true) == TargetOf(w, x, true);
  }

  lemma EarlyPassKeepsBlocked(w: World, r: string)
    requires Stuck(w, r) && w.restores[r].phase != Fencing
    ensures Able(Pass(w, r), r) && Uncontended(Pass(w, r), r) && Blocked(Pass(w, r), r)
  {
    var x := w.restores[r];
    assert PhaseOk(w, r);
    if !x.finalizer {
      PassUnfinalized(w, r);
      assert TargetOf(Pass(w, r), x.(finalizer := true), true) == TargetOf(w, x, true);
    } else if x.phase == Pending {
      PassResolved(w, r);
    } else {
      PassLock(w, r);
    }
  }

  /** In Fencing the pass waits for a pause that is never mirrored, or is refused its own ConfigMap every time. */
  lemma FencingPassKeepsBlocked(w: World, r: string)
    requires Stuck(w, r) && w.restores[r].phase == Fencing
    ensures Able(Pass(w, r), r) && Uncontended(Pass(w, r), r) && Blocked(Pass(w, r), r)
    ensures Pass(w, r).restores == w.restores && Pass(w, r).jobs == w.jobs
  {
    var s := w.restores[r].source;
    assert PhaseOk(w, r);
    if !w.sources[s].paused {
      PassRepause(w, r);
    } else if !PauseSeen(w, s) {
      PassIdle(w, r);
    } else {
      assert w.configs[s].owner == OfSource && r in w.configs && w.configs[r].owner == OfSource;
      PassRefused(w, r);
    }
  }

  lemma StuckTurn(w: World, r: string, a: Actor)
    requires Stuck(w, r)
    ensures Stuck(TakeTurn(w, r, a), r)
  {
    ActKeeps(w, r, a);
    var s := w.restores[r].source;
    match a.kind
    case Restorer =>
      if w.restores[r].phase == Fencing {
        FencingPassKeepsBlocked(w, r);
      } else {
        EarlyPassKeepsBlocked(w, r);
      }
    case Replicator => ReplicatorKeepsBlocked(w, r);
    case PodKeeper =>
      PodKeeperMoves(w, r, a);
      if s in w.workloads {
        PodsKeepBlocked(w, r, Act(w, r, a).workloads[s].running);
      }
    case JobRunner => JobsKeepBlocked(w, r, a);
  }

  lemma PodKeeperMoves(w: World, r: string, a: Actor)
    requires r in w.restores && a.kind == PodKeeper
    ensures
      var s := w.restores[r].source;
      if s !in w.workloads then Act(w, r, a) == w
      else s in Act(w, r, a).workloads && Act(w, r, a) == SetRunning(w, s, Act(w, r, a).workloads[s].running)
  {
    var s := w.restores[r].source;
    if s in w.workloads {
      assert SetRunning(w, s, w.workloads[s].running) == w;
    }
  }

  lemma JobsKeepBlocked(w: World, r: string, a: Actor)
    requires Stuck(w, r) && a.kind == JobRunner
    ensures Able(Act(w, r, a), r) && Uncontended(Act(w, r, a), r) && Blocked(Act(w, r, a), r)
  {
    var x := w.restores[r];
    assert TargetOf(Act(w, r, a), x, true) == TargetOf(w, x, true);
  }

  /** Then it is never over, under no schedule at all. */
  lemma StuckForGood(w: World, r: string, schedule: nat -> Actor, n: nat)
    requires Stuck(w, r)
    ensures Stuck(After(w, r, schedule, n), r) && !Over(After(w, r, schedule, n), r)
  {
    var step := (v, a) => TakeTurn(v, r, a);
    var kept := v => Stuck(v, r);
    forall v, a | Stuck(v, r) ensures Stuck(TakeTurn(v, r, a), r) {
      StuckTurn(v, r, a);
    }
    F.HoldsForGood(step, v => Over(v, r), kept, w, schedule, 0, n);
    assert kept(After(w, r, schedule, n));
  }

  // ---------------------------------------------------------------- the theorem

  /** Under a fair schedule an uncontended restore comes to its end exactly when it is not blocked. */
  lemma ProgressIff(w: World, r: string, schedule: nat -> Actor)
    requires Underway(w, r) && FairTo(schedule)
    ensures (exists n: nat :: Over(After(w, r, schedule, n), r)) <==> !Blocked(w, r)
  {
    if Blocked(w, r) {
      forall n: nat ensures !Over(After(w, r, schedule, n), r) {
        StuckForGood(w, r, schedule, n);
      }
    } else if Usable(w, r) {
      Progress(w, r, schedule);
    } else {
      FailsAtOnce(w, r, schedule);
    }
  }

  /** Stuck in Fencing without a Job, with the application scaled to zero. */
  ghost predicate StuckDown(w: World, r: string) {
    && Stuck(w, r) && w.restores[r].phase == Fencing && r !in w.jobs
    && (w.restores[r].source in w.workloads ==> Desired(w.workloads[w.restores[r].source]) == 0)
  }

  lemma StuckDownTurn(w: World, r: string, a: Actor)
    requires StuckDown(w, r)
    ensures StuckDown(TakeTurn(w, r, a), r)
  {
    StuckTurn(w, r, a);
    match a.kind
    case Restorer => StuckDownPass(w, r);
    case Replicator =>
    case PodKeeper => PodKeeperMoves(w, r, a);
    case JobRunner =>
  }

  lemma StuckDownPass(w: World, r: string)
    requires StuckDown(w, r)
    ensures
      var w', s := Pass(w, r), w.restores[r].source;
      && w'.restores == w.restores && w'.jobs == w.jobs
      && (s in w'.workloads ==> Desired(w'.workloads[s]) == 0)
  {
    var s := w.restores[r].source;
    FencingPassKeepsBlocked(w, r);
    if !w.sources[s].paused {
      PassRepause(w, r);
    } else if !PauseSeen(w, s) {
      PassIdle(w, r);
    } else {
      PassRefused(w, r);
    }
  }

  lemma StuckDownForGood(w: World, r: string, schedule: nat -> Actor, n: nat)
    requires StuckDown(w, r)
    ensures StuckDown(After(w, r, schedule, n), r)
  {
    var step := (v, a) => TakeTurn(v, r, a);
    var kept := v => StuckDown(v, r);
    forall v, a | StuckDown(v, r) ensures StuckDown(TakeTurn(v, r, a), r) {
      StuckDownTurn(v, r, a);
    }
    F.HoldsForGood(step, v => Over(v, r), kept, w, schedule, 0, n);
    assert kept(After(w, r, schedule, n));
  }

  /**
   The failing input: a restore named like its source. Its first pass through the gate scales the application to zero
   and is refused the ConfigMap; from then on it stays in Fencing without a Job and the application stays down.
   */
  lemma SharedNameStuck(w: World, r: string, schedule: nat -> Actor, n: nat)
    requires Inv(w) && Able(w, r) && w.restores[r].source == r && w.restores[r].phase == Fencing && r !in w.jobs
    requires PauseSeen(w, r)
    ensures StuckDown(After(Pass(w, r), r, schedule, n), r)
  {
    assert PhaseOk(w, r);
    assert w.configs[r].owner == OfSource;
    PassRefused(w, r);
    StuckTurn(w, r, Actor(Restorer, true));
    StuckDownForGood(Pass(w, r), r, schedule, n);
  }

  /** The mirrored input: the ConfigMap of the source belongs to a restore of that name, so the pause is never seen. */
  lemma ForeignConfigStuck(w: World, r: string, schedule: nat -> Actor, n: nat)
    requires Inv(w) && Able(w, r) && w.restores[r].phase == Fencing
    requires w.restores[r].source in w.configs && w.configs[w.restores[r].source].owner == OfRestore
    ensures
      var w' := After(w, r, schedule, n);
      r in w'.restores && BeforeJob(w'.restores[r].phase) && Stuck(w', r)
  {
    assert PhaseOk(w, r);
    StuckForGood(w, r, schedule, n);
  }
}
