/**
 The way of an InPlace restore to its end, with calls that succeed, no deletions and no competitor: a measure that
 no actor raises, and that the one actor the restore is waiting for lowers.
 */
module RestoreProgress {
  import opened ApiTypes
  import opened LitestreamConfig
  import opened RestoreProtocol
  import opened RestoreSafety
  import opened RestorePasses

  // ---------------------------------------------------------------- the actors

  datatype Kind = Restorer | Replicator | PodKeeper | JobRunner

  /** succeeds only matters to the JobRunner. */
  datatype Actor = Actor(kind: Kind, succeeds: bool)

  function Outcome(succeeds: bool): seq<JobCondition> {
    [JobCondition(if succeeds then JobComplete else JobFailed, true)]
  }

  function Act(w: World, r: string, a: Actor): World
    requires r in w.restores
  {
    var s := w.restores[r].source;
    match a.kind
    case Restorer => Pass(w, r)
    case Replicator => ReplicaPass(w, s)
    case PodKeeper => if DrainOne(w, s) != w then DrainOne(w, s) else GrowOne(w, s)
    case JobRunner => ReportJob(w, r, Outcome(a.succeeds))
  }

  predicate BeforeJob(phase: Phase) {
    phase == Pending || phase == AcquiringLock || phase == Fencing
  }

  /**
   The restore cannot get past Fencing: a ConfigMap name is taken by the other kind, and the restore has yet to
   come through there.
   */
  predicate Blocked(w: World, r: string)
    requires r in w.restores
  {
    var x := w.restores[r];
    && Usable(w, r) && BeforeJob(x.phase) && !OwnConfigs(w, r)
    && (x.phase == Pending ==> TargetOf(w, x, true).Some?)
  }

  /** Nothing stands in the way of r. */
  ghost predicate Clear(w: World, r: string) {
    Able(w, r) && Uncontended(w, r) && !Blocked(w, r)
  }

  /** The restore is over, the lease is free, and after a success the application is back at its count. */
  ghost predicate Settled(w: World, r: string) {
    && r in w.restores
    && var x := w.restores[r];
       && Terminal(x.phase) && x.source !in w.leases
       && (x.phase == Completed ==>
             && x.source in w.sources && !w.sources[x.source].paused
             && x.originalReplicas.Some?
             && (x.source in w.workloads ==> Desired(w.workloads[x.source]) == x.originalReplicas.value))
  }

  // ---------------------------------------------------------------- the measure

  /** How far r is from its end; each stage waits for one kind of actor. */
  ghost function Stage(w: World, r: string): nat
    requires r in w.restores
  {
    var x := w.restores[r];
    var s := x.source;
    match x.phase
    case Pending => if !x.finalizer then 13 else 12
    case AcquiringLock => 11
    case Fencing =>
      if s !in w.sources || !w.sources[s].paused then 10
      else if !PauseSeen(w, s) then 9
      else if s in w.workloads && w.workloads[s].replicas != Some(0) then 8
      else if s in w.workloads && w.workloads[s].running > 0 then 7
      else 6
    case Restoring => if JobRuns(w, r) then 5 else 4
    case Resuming =>
      if s in w.sources && w.sources[s].paused then 3
      else if s !in w.configs || w.configs[s].text == PAUSED_CONFIG then 2
      else 1
    case _ => 0
  }

  ghost function PodsLeft(w: World, r: string): nat
    requires r in w.restores
  {
    var s := w.restores[r].source;
    if Stage(w, r) == 7 && s in w.workloads then w.workloads[s].running else 0
  }

  function Awaited(stage: nat): Kind {
    if stage == 9 || stage == 2 then Replicator
    else if stage == 7 then PodKeeper
    else if stage == 5 then JobRunner
    else Restorer
  }

  ghost predicate Less(w': World, w: World, r: string)
    requires r in w.restores && r in w'.restores
  {
    Stage(w', r) < Stage(w, r) || (Stage(w', r) == Stage(w, r) && PodsLeft(w', r) < PodsLeft(w, r))
  }

  ghost predicate NotMore(w': World, w: World, r: string)
    requires r in w.restores && r in w'.restores
  {
    Stage(w', r) < Stage(w, r) || (Stage(w', r) == Stage(w, r) && PodsLeft(w', r) <= PodsLeft(w, r))
  }

  /** What an actor must achieve from an unfinished state. */
  ghost predicate Advances(w: World, r: string, a: Actor, w': World)
    requires r in w.restores
  {
    && r in w'.restores
    && (Settled(w', r) || (Clear(w', r) && !Terminal(w'.restores[r].phase) && NotMore(w', w, r)))
    && (a.kind == Awaited(Stage(w, r)) && !Settled(w', r) ==> Less(w', w, r))
  }

  // ---------------------------------------------------------------- the actors other than the restorer

  lemma ReplicatorKeepsClear(w: World, r: string)
    requires Clear(w, r)
    ensures Clear(ReplicaPass(w, w.restores[r].source), r)
  {
    var x := w.restores[r];
    var w' := ReplicaPass(w, x.source);
    assert TargetOf(w', x, true) == TargetOf(w, x, true);
    assert OwnConfigs(w, r) ==> OwnConfigs(w', r);
  }

  lemma ReplicatorAdvances(w: World, r: string, a: Actor)
    requires Clear(w, r) && ConfigsOk(w) && !Terminal(w.restores[r].phase) && a.kind == Replicator
    ensures Advances(w, r, a, Act(w, r, a))
  {
    NeverPausedText(w.sources[w.restores[r].source].spec);
    ReplicatorKeepsClear(w, r);
  }

  /** Moving pods changes no stage but the one that waits for them to go. */
  lemma RunningStage(w: World, r: string, n: nat)
    requires Clear(w, r) && w.restores[r].source in w.workloads
    requires n <= w.workloads[w.restores[r].source].running || Desired(w.workloads[w.restores[r].source]) > 0
    ensures Clear(SetRunning(w, w.restores[r].source, n), r) && NotMore(SetRunning(w, w.restores[r].source, n), w, r)
    ensures Stage(w, r) == 7 && n < w.workloads[w.restores[r].source].running ==>
              Less(SetRunning(w, w.restores[r].source, n), w, r)
  {
    var w' := SetRunning(w, w.restores[r].source, n);
    assert w'.restores == w.restores && w'.sources == w.sources && w'.configs == w.configs && w'.jobs == w.jobs;
  }

  lemma PodKeeperAdvances(w: World, r: string, a: Actor)
    requires Clear(w, r) && !Terminal(w.restores[r].phase) && a.kind == PodKeeper
    ensures Advances(w, r, a, Act(w, r, a))
  {
    var s := w.restores[r].source;
    var w' := Act(w, r, a);
    if w' != w {
      var n := w'.workloads[s].running;
      assert w' == SetRunning(w, s, n);
      RunningStage(w, r, n);
    } else {
      assert Stage(w, r) != 7;
    }
  }

  lemma JobRunnerAdvances(w: World, r: string, a: Actor)
    requires Clear(w, r) && !Terminal(w.restores[r].phase) && a.kind == JobRunner
    ensures Advances(w, r, a, Act(w, r, a))
  {
  }

  // ---------------------------------------------------------------- the restorer advances

  ghost predicate Ready(w: World, r: string) {
    Clear(w, r) && PhaseOk(w, r) && JobOk(w, r) && !Terminal(w.restores[r].phase)
  }

  lemma UnfinalizedAdvances(w: World, r: string, a: Actor)
    requires Ready(w, r) && a.kind == Restorer && w.restores[r].phase == Pending && !w.restores[r].finalizer
    ensures Advances(w, r, a, Act(w, r, a))
  {
    PassUnfinalized(w, r);
    var x := w.restores[r];
    assert TargetOf(Pass(w, r), x.(finalizer := true), true) == TargetOf(w, x, true);
  }

  lemma ResolvedAdvances(w: World, r: string, a: Actor)
    requires Ready(w, r) && a.kind == Restorer && w.restores[r].phase == Pending && w.restores[r].finalizer
    requires TargetOf(w, w.restores[r], true).Some?
    ensures Advances(w, r, a, Act(w, r, a))
  {
    PassResolved(w, r);
  }

  lemma PendingAdvances(w: World, r: string, a: Actor)
    requires Ready(w, r) && a.kind == Restorer && w.restores[r].phase == Pending
    requires w.restores[r].source !in w.leases
    ensures Advances(w, r, a, Act(w, r, a))
  {
    if !w.restores[r].finalizer {
      UnfinalizedAdvances(w, r, a);
    } else if TargetOf(w, w.restores[r], true).None? {
      PassUnresolved(w, r);
    } else {
      ResolvedAdvances(w, r, a);
    }
  }

  lemma LockAdvances(w: World, r: string, a: Actor)
    requires Ready(w, r) && a.kind == Restorer && w.restores[r].phase == AcquiringLock
    ensures Advances(w, r, a, Act(w, r, a))
  {
    PassLock(w, r);
  }

  lemma FenceAdvances(w: World, r: string, a: Actor)
    requires Ready(w, r) && a.kind == Restorer && w.restores[r].phase == Fencing
    ensures Advances(w, r, a, Act(w, r, a))
  {
    var s := w.restores[r].source;
    if Stage(w, r) == 10 {
      PassRepause(w, r);
    } else if Stage(w, r) == 9 {
      PassIdle(w, r);
    } else {
      PassFence(w, r);
      FencedAdvances(w, r, a);
    }
  }

  lemma FencedAdvances(w: World, r: string, a: Actor)
    requires Ready(w, r) && a.kind == Restorer && w.restores[r].phase == Fencing && PauseSeen(w, w.restores[r].source)
    ensures Advances(w, r, a, Act(w, r, a))
  {
    PassFence(w, r);
    var x := w.restores[r];
    var w' := Pass(w, r);
    if x.source in w.workloads && w.workloads[x.source].running > 0 {
      assert Stage(w', r) == 7 && Stage(w, r) >= 7;
    } else {
      assert w'.restores[r].phase == Restoring;
    }
  }

  lemma RestoringAdvances(w: World, r: string, a: Actor)
    requires Ready(w, r) && a.kind == Restorer && w.restores[r].phase == Restoring
    ensures Advances(w, r, a, Act(w, r, a))
  {
    if JobRuns(w, r) {
      PassIdle(w, r);
    } else {
      if r in w.jobs && VerdictOf(w.jobs[r].conditions) == Succeeded {
        PassJobSucceeded(w, r);
      } else {
        PassJobBroken(w, r);
      }
    }
  }

  lemma ResumingAdvances(w: World, r: string, a: Actor)
    requires Ready(w, r) && a.kind == Restorer && w.restores[r].phase == Resuming
    ensures Advances(w, r, a, Act(w, r, a))
  {
    PassResuming(w, r);
  }

  // ---------------------------------------------------------------- every actor

  lemma FinishKeeps(w: World)
    requires Inv(w)
    ensures Inv(Finish(w))
    decreases WorkLeft(w)
  {
    if w.worker.Some? {
      CallKeeps(w, ALL_OK);
      FinishKeeps(Exec(w, ALL_OK));
    }
  }

  lemma ActKeeps(w: World, r: string, a: Actor)
    requires Inv(w) && r in w.restores
    ensures Inv(Act(w, r, a))
  {
    var s := w.restores[r].source;
    match a.kind
    case Restorer =>
      BeginKeeps(w, r, true);
      FinishKeeps(Begin(w, r, true));
    case Replicator => ReplicateKeeps(w, s);
    case PodKeeper =>
      DrainKeeps(w, s);
      GrowKeeps(w, s);
    case JobRunner => ReportKeeps(w, r, Outcome(a.succeeds));
  }

  lemma ActAdvances(w: World, r: string, a: Actor)
    requires Inv(w) && Clear(w, r) && !Terminal(w.restores[r].phase)
    ensures Advances(w, r, a, Act(w, r, a)) && Inv(Act(w, r, a))
  {
    ActKeeps(w, r, a);
    assert PhaseOk(w, r) && JobOk(w, r);
    match a.kind
    case Replicator => ReplicatorAdvances(w, r, a);
    case PodKeeper => PodKeeperAdvances(w, r, a);
    case JobRunner => JobRunnerAdvances(w, r, a);
    case Restorer =>
      match w.restores[r].phase
      case Pending =>
        assert w.restores[r].source in w.leases ==> LeaseOk(w, w.restores[r].source);
        PendingAdvances(w, r, a);
      case AcquiringLock => LockAdvances(w, r, a);
      case Fencing => FenceAdvances(w, r, a);
      case Restoring => RestoringAdvances(w, r, a);
      case Resuming => ResumingAdvances(w, r, a);
  }
}
