/** The status of a LitestreamReplica over any sequence of passes of its controller. */
module ReplicaStatus {
  import opened ApiTypes
  import opened Conditions
  import opened SidecarHealth

  const TARGET_READY := "TargetReady"
  const SIDECAR_READY := "SidecarReady"
  const REPLICATION_HEALTHY := "ReplicationHealthy"
  const REPLICATION_PAUSED := "ReplicationPaused"
  const READY := "Ready"
  const TOO_MANY_REPLICAS := "ReplicaCountExceeded"
  const UNSAFE_ROLLOUT := "UnsafeRolloutStrategy"

  datatype Phase = Unset | Pending | Ready | Paused | Error

  datatype Status = Status(phase: Phase, ready: bool, backupHealthy: bool, conditions: seq<Condition>, generation: int)

  const NEW := Status(Unset, false, false, [], 0)

  // ---------------------------------------------------------------- what a pass looks at

  datatype IntOrString = Number(n: int) | Words(s: string)

  datatype Strategy = Strategy(kind: string, maxSurge: Option<IntOrString>)

  /** Recreate, or a rolling update that never adds a pod. */
  predicate RolloutSafe(s: Strategy) {
    (s.kind != "" && s.kind != "RollingUpdate") || s.maxSurge == Some(Number(0)) || s.maxSurge == Some(Words("0"))
  }

  /** strategy: only a Deployment has one. */
  datatype WorkloadView = WorkloadView(desired: nat, ready: nat, strategy: Option<Strategy>, annotated: bool)

  /** pods: none when they cannot be listed. lagging: the scraped lag is above the configured limit. */
  datatype Seen = Seen(
    workload: Option<WorkloadView>,
    paused: bool,
    enabled: bool,
    pods: Option<seq<PodView>>,
    lagging: bool,
    generation: int,
    now: int)

  predicate SidecarsHealthy(seen: Seen) {
    seen.pods.Some? && ReportOf(TallyOf(seen.pods.value)).RunningIn?
  }

  /** A guard cuts the pass short: more than one writer, or a rollout that could run two. */
  predicate GuardStops(seen: Seen) {
    seen.workload.Some? &&
    var wl := seen.workload.value; wl.desired > 1 || (wl.strategy.Some? && !RolloutSafe(wl.strategy.value))
  }

  // ---------------------------------------------------------------- one pass

  function Says(kind: string, status: bool, reason: string, seen: Seen): Condition {
    Condition(kind, status, reason, seen.generation, seen.now)
  }

  function Put(s: Status, c: Condition): Status {
    s.(conditions := With(s.conditions, c))
  }

  function Drop(s: Status, kind: string): Status {
    s.(conditions := Without(s.conditions, kind))
  }

  function WorkloadMissing(s: Status, seen: Seen): Status {
    var reason := "WorkloadNotFound";
    Put(Put(Put(Put(s.(phase := Error, ready := false, backupHealthy := false),
      Says(TARGET_READY, false, reason, seen)),
      Says(SIDECAR_READY, false, reason, seen)),
      Says(REPLICATION_HEALTHY, false, reason, seen)),
      Says(READY, false, reason, seen))
  }

  function Stopped(s: Status, kind: string, reason: string, seen: Seen): Status {
    Put(s.(phase := Error, ready := false), Says(kind, true, reason, seen))
  }

  function PausedSaid(s: Status, seen: Seen): Status {
    Put(s, Says(REPLICATION_PAUSED, seen.paused, if seen.paused then "PauseAnnotationSet" else "ReplicationActive", seen))
  }

  function HealthSaid(s: Status, seen: Seen): Status {
    var up := SidecarsHealthy(seen);
    var sidecar := if up then "SidecarRunning" else "SidecarUnhealthy";
    if !seen.enabled then
      Put(Put(s.(backupHealthy := false), Says(SIDECAR_READY, false, "BackupDisabled", seen)),
          Says(REPLICATION_HEALTHY, false, "BackupDisabled", seen))
    else if up && seen.lagging then
      Put(Put(s.(backupHealthy := false), Says(SIDECAR_READY, true, sidecar, seen)),
          Says(REPLICATION_HEALTHY, false, "ReplicationLagExceeded", seen))
    else
      Put(Put(s.(backupHealthy := up), Says(SIDECAR_READY, up, sidecar, seen)),
          Says(REPLICATION_HEALTHY, up, sidecar, seen))
  }

  function ReadySaid(s: Status, wl: WorkloadView, seen: Seen): Status {
    if seen.paused then Put(s.(phase := Paused, ready := false), Says(READY, false, "ReplicationPaused", seen))
    else if wl.annotated && wl.ready > 0 then Put(s.(phase := Ready, ready := true), Says(READY, true, "WorkloadReady", seen))
    else Put(s.(phase := Pending, ready := false), Says(READY, false, "WorkloadNotReady", seen))
  }

  function Cleared(s: Status, wl: WorkloadView): Status {
    if wl.strategy.Some? then Drop(s, UNSAFE_ROLLOUT) else s
  }

  /** updateStatus. */
  function Updated(s: Status, seen: Seen): Status {
    var s0 := s.(generation := seen.generation);
    if seen.workload.None? then WorkloadMissing(s0, seen)
    else
      var wl := seen.workload.value;
      var s1 := Put(s0, Says(TARGET_READY, true, "WorkloadFound", seen));
      if wl.desired > 1 then Stopped(s1, TOO_MANY_REPLICAS, "TooManyReplicas", seen)
      else
        var s2 := Drop(s1, TOO_MANY_REPLICAS);
        if wl.strategy.Some? && !RolloutSafe(wl.strategy.value) then
          Stopped(s2, UNSAFE_ROLLOUT, "UnsafeRolloutStrategy", seen)
        else ReadySaid(HealthSaid(PausedSaid(Cleared(s2, wl), seen), seen), wl, seen)
  }

  /** The status object of a LitestreamReplica, updated in place. */
  class StatusObject {
    var phase: Phase
    var ready: bool
    var backupHealthy: bool
    var conditions: seq<Condition>
    var generation: int

    ghost function Value(): Status
      reads this
    {
      Status(phase, ready, backupHealthy, conditions, generation)
    }

    /** meta.SetStatusCondition. */
    method SetCondition(c: Condition)
      modifies this`conditions
      ensures conditions == With(old(conditions), c)
    {
      var i := 0;
      while i < |conditions| && conditions[i].kind != c.kind
        invariant i <= |conditions| && conditions == old(conditions)
        invariant forall k :: 0 <= k < i ==> conditions[k].kind != c.kind
      {
        i := i + 1;
      }
      if i == |conditions| {
        WithNew(conditions, c);
        conditions := conditions + [c];
      } else {
        WithAt(conditions, i, c);
        var was := conditions[i];
        conditions := conditions[i := c.(since := if was.status == c.status then was.since else c.since)];
      }
    }

    /** meta.RemoveStatusCondition. */
    method RemoveCondition(kind: string)
      modifies this`conditions
      ensures conditions == Without(old(conditions), kind)
    {
      var kept := [];
      for i := 0 to |conditions|
        invariant conditions == old(conditions) && kept == Without(conditions[..i], kind)
      {
        assert conditions[..i + 1] == conditions[..i] + [conditions[i]];
        WithoutLast(conditions[..i], conditions[i], kind);
        if conditions[i].kind != kind {
          kept := kept + [conditions[i]];
        }
      }
      assert conditions[..|conditions|] == conditions;
      conditions := kept;
    }

    method SayHealth(seen: Seen)
      modifies this`backupHealthy, this`conditions
      ensures Value() == HealthSaid(old(Value()), seen)
    {
      if !seen.enabled {
        backupHealthy := false;
        SetCondition(Says(SIDECAR_READY, false, "BackupDisabled", seen));
        SetCondition(Says(REPLICATION_HEALTHY, false, "BackupDisabled", seen));
        return;
      }
      var healthy := false;
      if seen.pods.Some? {
        var report;
        healthy, report := LitestreamContainerState(seen.pods.value);
      }
      backupHealthy := healthy;
      var reason := if healthy then "SidecarRunning" else "SidecarUnhealthy";
      SetCondition(Says(SIDECAR_READY, healthy, reason, seen));
      var replicating := healthy;
      if healthy && seen.lagging {
        replicating, reason, backupHealthy := false, "ReplicationLagExceeded", false;
      }
      SetCondition(Says(REPLICATION_HEALTHY, replicating, reason, seen));
    }

    method SayReady(wl: WorkloadView, seen: Seen)
      modifies this`phase, this`ready, this`conditions
      ensures Value() == ReadySaid(old(Value()), wl, seen)
    {
      if seen.paused {
        phase, ready := Paused, false;
        SetCondition(Says(READY, false, "ReplicationPaused", seen));
        return;
      }
      if wl.annotated && wl.ready > 0 {
        phase, ready := Ready, true;
        SetCondition(Says(READY, true, "WorkloadReady", seen));
      } else {
        phase, ready := Pending, false;
        SetCondition(Says(READY, false, "WorkloadNotReady", seen));
      }
    }

    method UpdateStatus(seen: Seen)
      modifies this
      ensures Value() == Updated(old(Value()), seen)
    {
      generation := seen.generation;
      if seen.workload.None? {
        phase, ready, backupHealthy := Error, false, false;
        SetCondition(Says(TARGET_READY, false, "WorkloadNotFound", seen));
        SetCondition(Says(SIDECAR_READY, false, "WorkloadNotFound", seen));
        SetCondition(Says(REPLICATION_HEALTHY, false, "WorkloadNotFound", seen));
        SetCondition(Says(READY, false, "WorkloadNotFound", seen));
        return;
      }
      var wl := seen.workload.value;
      SetCondition(Says(TARGET_READY, true, "WorkloadFound", seen));
      if wl.desired > 1 {
        phase, ready := Error, false;
        SetCondition(Says(TOO_MANY_REPLICAS, true, "TooManyReplicas", seen));
        return;
      }
      RemoveCondition(TOO_MANY_REPLICAS);
      if wl.strategy.Some? {
        if !RolloutSafe(wl.strategy.value) {
          phase, ready := Error, false;
          SetCondition(Says(UNSAFE_ROLLOUT, true, "UnsafeRolloutStrategy", seen));
          return;
        }
        RemoveCondition(UNSAFE_ROLLOUT);
      }
      SetCondition(Says(REPLICATION_PAUSED, seen.paused, if seen.paused then "PauseAnnotationSet" else "ReplicationActive", seen));
      SayHealth(seen);
      SayReady(wl, seen);
    }
  }

  // ---------------------------------------------------------------- the invariant

  ghost predicate StatusOk(s: Status) {
    && Unique(s.conditions)
    && (s.backupHealthy <==> IsTrue(s.conditions, "ReplicationHealthy"))
    && (s.ready <==> s.phase == Ready)
    && (s.ready ==> IsTrue(s.conditions, "Ready"))
  }

  /** The condition of that type is there, with that status and reason, for the generation the pass has seen. */
  ghost predicate Reads(s: Status, kind: string, status: bool, reason: string, seen: Seen) {
    var c := Find(s.conditions, kind);
    c.Some? && c.value == Condition(kind, status, reason, seen.generation, c.value.since)
  }

  ghost predicate SameReading(s: Status, s': Status, kind: string) {
    Find(s'.conditions, kind) == Find(s.conditions, kind)
  }

  /** A workload that a guard must not let through: several writers, or a rollout that may add a pod to the old one. */
  ghost predicate TwoWriters(seen: Seen) {
    && seen.workload.Some?
    && (|| seen.workload.value.desired > 1
        || (&& seen.workload.value.strategy.Some?
            && seen.workload.value.strategy.value.kind in ["", "RollingUpdate"]
            && seen.workload.value.strategy.value.maxSurge !in [Some(Number(0)), Some(Words("0"))]))
  }

  lemma GuardsStopTwoWriters(seen: Seen)
    ensures GuardStops(seen) <==> TwoWriters(seen)
  {
  }

  /** Without its workload: an error, and nothing is ready or healthy. */
  lemma MissingTruth(s: Status, seen: Seen)
    requires Unique(s.conditions) && seen.workload.None?
    ensures
      var s' := Updated(s, seen);
      && Unique(s'.conditions) && s'.phase == Error && !s'.ready && !s'.backupHealthy && s'.generation == seen.generation
      && (forall kind | kind in ["TargetReady", "SidecarReady", "ReplicationHealthy", "Ready"] ::
            Reads(s', kind, false, "WorkloadNotFound", seen))
  {
    var reason := "WorkloadNotFound";
    var c1, c2, c3, c4 := Says(TARGET_READY, false, reason, seen), Says(SIDECAR_READY, false, reason, seen),
        Says(REPLICATION_HEALTHY, false, reason, seen), Says(READY, false, reason, seen);
    TruthOfWith(s.conditions, c1);
    TruthOfWith(With(s.conditions, c1), c2);
    TruthOfWith(With(With(s.conditions, c1), c2), c3);
    TruthOfWith(With(With(With(s.conditions, c1), c2), c3), c4);
  }

  /** The word for the state of replication. */
  ghost function ReplicationReason(seen: Seen): string {
    if !seen.enabled then "BackupDisabled"
    else if SidecarsHealthy(seen) && seen.lagging then "ReplicationLagExceeded"
    else if SidecarsHealthy(seen) then "SidecarRunning"
    else "SidecarUnhealthy"
  }

  lemma HealthTruth(s: Status, seen: Seen)
    requires Unique(s.conditions)
    ensures
      var s' := HealthSaid(s, seen);
      && Unique(s'.conditions)
      && (s'.backupHealthy <==> seen.enabled && SidecarsHealthy(seen) && !seen.lagging)
      && Reads(s', "ReplicationHealthy", s'.backupHealthy, ReplicationReason(seen), seen)
      && Reads(s', "SidecarReady", seen.enabled && SidecarsHealthy(seen),
               if !seen.enabled then "BackupDisabled" else if SidecarsHealthy(seen) then "SidecarRunning" else "SidecarUnhealthy",
               seen)
      && (forall kind :: kind != "SidecarReady" && kind != "ReplicationHealthy" ==> SameReading(s, s', kind))
      && s'.phase == s.phase && s'.ready == s.ready && s'.generation == s.generation
  {
    var up := SidecarsHealthy(seen);
    var sidecar := if up then "SidecarRunning" else "SidecarUnhealthy";
    var replicating := seen.enabled && up && !seen.lagging;
    var c := if !seen.enabled then Says(SIDECAR_READY, false, "BackupDisabled", seen) else Says(SIDECAR_READY, up, sidecar, seen);
    var d := if !seen.enabled then Says(REPLICATION_HEALTHY, false, "BackupDisabled", seen)
             else if up && seen.lagging then Says(REPLICATION_HEALTHY, false, "ReplicationLagExceeded", seen)
             else Says(REPLICATION_HEALTHY, up, sidecar, seen);
    assert HealthSaid(s, seen) == Put(Put(s.(backupHealthy := replicating), c), d);
    TruthOfWith(s.conditions, c);
    TruthOfWith(With(s.conditions, c), d);
  }

  /** Where the pass leaves the object: paused before all, else ready or pending. */
  ghost function PhaseSeen(wl: WorkloadView, seen: Seen): Phase {
    if seen.paused then Paused else if wl.annotated && wl.ready > 0 then Ready else Pending
  }

  lemma ReadyTruth(s: Status, wl: WorkloadView, seen: Seen)
    requires Unique(s.conditions)
    ensures
      var s', phase := ReadySaid(s, wl, seen), PhaseSeen(wl, seen);
      && Unique(s'.conditions) && s'.backupHealthy == s.backupHealthy && s'.generation == s.generation
      && s'.phase == phase && (s'.ready <==> phase == Ready)
      && Reads(s', "Ready", phase == Ready,
               if phase == Paused then "ReplicationPaused" else if phase == Ready then "WorkloadReady" else "WorkloadNotReady", seen)
      && (forall kind :: kind != "Ready" ==> SameReading(s, s', kind))
  {
    var up := !seen.paused && wl.annotated && wl.ready > 0;
    var c := Says(READY, up, if seen.paused then "ReplicationPaused" else if up then "WorkloadReady" else "WorkloadNotReady", seen);
    TruthOfWith(s.conditions, c);
  }

  /** The status before any health is looked at. */
  function Opened(s: Status, seen: Seen): Status
    requires seen.workload.Some?
  {
    var s1 := Put(s.(generation := seen.generation), Says(TARGET_READY, true, "WorkloadFound", seen));
    if seen.workload.value.desired > 1 then s1 else Drop(s1, TOO_MANY_REPLICAS)
  }

  lemma OpenedTruth(s: Status, seen: Seen)
    requires Unique(s.conditions) && seen.workload.Some?
    ensures
      var s' := Opened(s, seen);
      && Unique(s'.conditions) && Reads(s', "TargetReady", true, "WorkloadFound", seen)
      && (forall kind :: kind != "TargetReady" && kind != "ReplicaCountExceeded" ==> SameReading(s, s', kind))
      && (seen.workload.value.desired <= 1 ==> !IsTrue(s'.conditions, "ReplicaCountExceeded"))
      && s' == s.(generation := seen.generation, conditions := s'.conditions)
  {
    var c := Says(TARGET_READY, true, "WorkloadFound", seen);
    TruthOfWith(s.conditions, c);
    TruthOfWithout(With(s.conditions, c), TOO_MANY_REPLICAS);
  }

  /** A guard's exit: its own condition, phase Error, not ready; health and the Ready condition stay as they were. */
  lemma StoppedTruth(s: Status, seen: Seen)
    requires Unique(s.conditions) && TwoWriters(seen)
    ensures
      var s', wl := Updated(s, seen), seen.workload.value;
      && Unique(s'.conditions)
      && s'.phase == Error && !s'.ready && s'.backupHealthy == s.backupHealthy && s'.generation == seen.generation
      && Reads(s', "TargetReady", true, "WorkloadFound", seen)
      && (IsTrue(s'.conditions, "ReplicaCountExceeded") <==> wl.desired > 1)
      && (wl.desired > 1 ==> Reads(s', "ReplicaCountExceeded", true, "TooManyReplicas", seen))
      && (wl.desired <= 1 ==> Reads(s', "UnsafeRolloutStrategy", true, "UnsafeRolloutStrategy", seen))
      && SameReading(s, s', "Ready") && SameReading(s, s', "ReplicationHealthy") && SameReading(s, s', "SidecarReady")
  {
    GuardsStopTwoWriters(seen);
    OpenedTruth(s, seen);
    var s1 := Opened(s, seen);
    assert SameReading(s, s1, "Ready") && SameReading(s, s1, "ReplicationHealthy") && SameReading(s, s1, "SidecarReady");
    if seen.workload.value.desired > 1 {
      TruthOfWith(s1.conditions, Says(TOO_MANY_REPLICAS, true, "TooManyReplicas", seen));
    } else {
      TruthOfWith(s1.conditions, Says(UNSAFE_ROLLOUT, true, "UnsafeRolloutStrategy", seen));
    }
  }

  lemma ClearedTruth(s: Status, wl: WorkloadView, seen: Seen)
    requires Unique(s.conditions)
    ensures
      var s' := PausedSaid(Cleared(s, wl), seen);
      && Unique(s'.conditions) && s' == s.(conditions := s'.conditions)
      && SameReading(s, s', "ReplicaCountExceeded") && SameReading(s, s', "TargetReady")
      && (wl.strategy.Some? ==> !IsTrue(s'.conditions, "UnsafeRolloutStrategy"))
      && Reads(s', "ReplicationPaused", seen.paused, if seen.paused then "PauseAnnotationSet" else "ReplicationActive", seen)
  {
    var c := Says(REPLICATION_PAUSED, seen.paused, if seen.paused then "PauseAnnotationSet" else "ReplicationActive", seen);
    TruthOfWithout(s.conditions, UNSAFE_ROLLOUT);
    TruthOfWith(Cleared(s, wl).conditions, c);
  }

  /** A pass that runs to its end says exactly what it saw. */
  lemma FullPassTruth(s: Status, seen: Seen)
    requires Unique(s.conditions) && seen.workload.Some? && !TwoWriters(seen)
    ensures
      var s', wl := Updated(s, seen), seen.workload.value;
      && Unique(s'.conditions) && s'.generation == seen.generation
      && (s'.backupHealthy <==> seen.enabled && SidecarsHealthy(seen) && !seen.lagging)
      && Reads(s', "ReplicationHealthy", s'.backupHealthy, ReplicationReason(seen), seen)
      && Reads(s', "SidecarReady", seen.enabled && SidecarsHealthy(seen),
               if !seen.enabled then "BackupDisabled" else if SidecarsHealthy(seen) then "SidecarRunning" else "SidecarUnhealthy",
               seen)
      && s'.phase == PhaseSeen(wl, seen) && (s'.ready <==> s'.phase == Ready)
      && Reads(s', "Ready", s'.ready,
               if s'.phase == Paused then "ReplicationPaused" else if s'.ready then "WorkloadReady" else "WorkloadNotReady", seen)
      && Reads(s', "ReplicationPaused", seen.paused, if seen.paused then "PauseAnnotationSet" else "ReplicationActive", seen)
      && Reads(s', "TargetReady", true, "WorkloadFound", seen)
      && !IsTrue(s'.conditions, "ReplicaCountExceeded")
      && (wl.strategy.Some? ==> !IsTrue(s'.conditions, "UnsafeRolloutStrategy"))
  {
    var wl := seen.workload.value;
    GuardsStopTwoWriters(seen);
    OpenedTruth(s, seen);
    var s1 := Opened(s, seen);
    ClearedTruth(s1, wl, seen);
    var s2 := PausedSaid(Cleared(s1, wl), seen);
    SameReadingTwice(s2, wl, seen, "ReplicationPaused");
    SameReadingTwice(s2, wl, seen, "TargetReady");
    SameReadingTwice(s2, wl, seen, "ReplicaCountExceeded");
    SameReadingTwice(s2, wl, seen, "UnsafeRolloutStrategy");
    HealthTruth(s2, seen);
    ReadyTruth(HealthSaid(s2, seen), wl, seen);
    assert SameReading(HealthSaid(s2, seen), ReadySaid(HealthSaid(s2, seen), wl, seen), "ReplicationHealthy");
    assert SameReading(HealthSaid(s2, seen), ReadySaid(HealthSaid(s2, seen), wl, seen), "SidecarReady");
  }

  /** What the pass has said before it looks at health stays said. */
  lemma SameReadingTwice(s: Status, wl: WorkloadView, seen: Seen, kind: string)
    requires Unique(s.conditions) && kind != "SidecarReady" && kind != "ReplicationHealthy" && kind != "Ready"
    ensures SameReading(s, ReadySaid(HealthSaid(s, seen), wl, seen), kind)
  {
    HealthTruth(s, seen);
    var s1 := HealthSaid(s, seen);
    ReadyTruth(s1, wl, seen);
    assert SameReading(s, s1, kind) && SameReading(s1, ReadySaid(s1, wl, seen), kind);
  }

  /** Every pass keeps the invariant. */
  lemma PassKeeps(s: Status, seen: Seen)
    requires StatusOk(s)
    ensures StatusOk(Updated(s, seen))
  {
    if seen.workload.None? {
      MissingTruth(s, seen);
      assert Reads(Updated(s, seen), "ReplicationHealthy", false, "WorkloadNotFound", seen);
    } else if TwoWriters(seen) {
      StoppedTruth(s, seen);
    } else {
      FullPassTruth(s, seen);
    }
  }

  lemma PutStamped(s: Status, kind: string, status: bool, reason: string, seen: Seen)
    requires AllStamped(s.conditions, seen.generation, seen.now)
    ensures AllStamped(Put(s, Says(kind, status, reason, seen)).conditions, seen.generation, seen.now)
  {
    StampWith(s.conditions, Says(kind, status, reason, seen), seen.generation, seen.now);
  }

  lemma HealthStamped(s: Status, seen: Seen)
    requires AllStamped(s.conditions, seen.generation, seen.now)
    ensures AllStamped(HealthSaid(s, seen).conditions, seen.generation, seen.now)
  {
    forall x: Status, kind, status, reason | AllStamped(x.conditions, seen.generation, seen.now)
      ensures AllStamped(Put(x, Says(kind, status, reason, seen)).conditions, seen.generation, seen.now)
    {
      PutStamped(x, kind, status, reason, seen);
    }
  }

  /** The first pass over a new object dates all it says from that pass. */
  lemma FirstPassStamps(seen: Seen)
    ensures AllStamped(Updated(NEW, seen).conditions, seen.generation, seen.now)
  {
    forall x: Status, kind, status, reason | AllStamped(x.conditions, seen.generation, seen.now)
      ensures AllStamped(Put(x, Says(kind, status, reason, seen)).conditions, seen.generation, seen.now)
    {
      PutStamped(x, kind, status, reason, seen);
    }
    forall x: Status, kind | AllStamped(x.conditions, seen.generation, seen.now)
      ensures AllStamped(Drop(x, kind).conditions, seen.generation, seen.now)
    {
      StampWithout(x.conditions, kind, seen.generation, seen.now);
    }
    forall x: Status | AllStamped(x.conditions, seen.generation, seen.now)
      ensures AllStamped(HealthSaid(x, seen).conditions, seen.generation, seen.now)
    {
      HealthStamped(x, seen);
    }
  }

  /** Any sequence of passes from a new object; a pass whose status patch fails leaves the status as it was. */
  ghost predicate IsHistory(ss: seq<Status>, seen: seq<Seen>) {
    && |ss| == |seen| + 1 && ss[0] == NEW
    && forall i :: 0 <= i < |seen| ==> ss[i + 1] == Updated(ss[i], seen[i]) || ss[i + 1] == ss[i]
  }

  lemma {:induction false} StatusInvariant(ss: seq<Status>, seen: seq<Seen>, i: nat)
    requires IsHistory(ss, seen) && i < |ss|
    ensures StatusOk(ss[i])
  {
    if i > 0 {
      StatusInvariant(ss, seen, i - 1);
      PassKeeps(ss[i - 1], seen[i - 1]);
    }
  }

  // ---------------------------------------------------------------- ready and the Ready condition

  ghost predicate Mirrors(s: Status) {
    s.ready <==> IsTrue(s.conditions, "Ready")
  }

  /** The Ready condition mirrors ready after a pass, unless a guard stopped the pass while the condition was True. */
  lemma MirrorsIff(s: Status, seen: Seen)
    requires StatusOk(s)
    ensures Mirrors(Updated(s, seen)) <==> !(TwoWriters(seen) && IsTrue(s.conditions, "Ready"))
  {
    if seen.workload.None? {
      MissingTruth(s, seen);
      assert Reads(Updated(s, seen), "Ready", false, "WorkloadNotFound", seen);
    } else if TwoWriters(seen) {
      StoppedTruth(s, seen);
    } else {
      FullPassTruth(s, seen);
    }
  }

  const HEALTHY := Seen(Some(WorkloadView(1, 1, None, true)), false, false, None, false, 1, 0)
  const SCALED_OUT := Seen(Some(WorkloadView(2, 2, None, true)), false, false, None, false, 1, 1)

  /** A history that leaves the two apart: a ready workload is scaled to two. */
  lemma StaleReady()
    ensures
      var s := Updated(Updated(NEW, HEALTHY), SCALED_OUT);
      IsHistory([NEW, Updated(NEW, HEALTHY), s], [HEALTHY, SCALED_OUT]) && !s.ready && IsTrue(s.conditions, "Ready")
  {
    FullPassTruth(NEW, HEALTHY);
    StoppedTruth(Updated(NEW, HEALTHY), SCALED_OUT);
  }
}
