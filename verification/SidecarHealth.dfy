/** How the controller judges the Litestream sidecars of a workload's pods. */
module SidecarHealth {
  import opened ApiTypes
  import opened Injection

  datatype ContainerStatus = ContainerStatus(name: string, running: bool, waiting: Option<string>, exitCode: Option<int>)

  datatype PodView = PodView(name: string, statuses: seq<ContainerStatus>)

  datatype Failure = Waiting(pod: string, reason: string) | Exited(pod: string, code: int)

  datatype Report = NoneFound | Unhealthy(failures: seq<Failure>) | RunningIn(count: nat) | NotYet

  predicate FailureReason(reason: string) {
    reason in {"CrashLoopBackOff", "OOMKilled", "Error", "ImagePullBackOff", "ErrImagePull"}
  }

  predicate IsSidecar(cs: ContainerStatus) {
    cs.name == SIDECAR
  }

  predicate Failing(cs: ContainerStatus) {
    (cs.waiting.Some? && FailureReason(cs.waiting.value)) || (cs.exitCode.Some? && cs.exitCode.value != 0)
  }

  /** What the loops gather: running sidecars, failures in order, and whether any sidecar was seen. */
  datatype Tally = Tally(running: nat, failures: seq<Failure>, found: bool)

  const EMPTY := Tally(0, [], false)

  function FailuresOf(pod: string, cs: ContainerStatus): seq<Failure> {
    (if cs.waiting.Some? && FailureReason(cs.waiting.value) then [Waiting(pod, cs.waiting.value)] else []) +
    (if cs.exitCode.Some? && cs.exitCode.value != 0 then [Exited(pod, cs.exitCode.value)] else [])
  }

  function Add(t: Tally, pod: string, cs: ContainerStatus): Tally {
    if !IsSidecar(cs) then t
    else Tally(t.running + (if cs.running then 1 else 0), t.failures + FailuresOf(pod, cs), true)
  }

  function AddPod(t: Tally, pod: string, statuses: seq<ContainerStatus>): Tally {
    if statuses == [] then t
    else Add(AddPod(t, pod, statuses[..|statuses| - 1]), pod, statuses[|statuses| - 1])
  }

  function TallyOf(pods: seq<PodView>): Tally {
    if pods == [] then EMPTY
    else AddPod(TallyOf(pods[..|pods| - 1]), pods[|pods| - 1].name, pods[|pods| - 1].statuses)
  }

  function ReportOf(t: Tally): Report {
    if !t.found then NoneFound
    else if t.failures != [] then Unhealthy(t.failures)
    else if t.running > 0 then RunningIn(t.running)
    else NotYet
  }

  /** litestreamContainerState. */
  method LitestreamContainerState(pods: seq<PodView>) returns (healthy: bool, report: Report)
    ensures report == ReportOf(TallyOf(pods))
    ensures healthy <==> report.RunningIn?
  {
    var running, failures, noneFound := 0, [], true;
    for i := 0 to |pods|
      invariant TallyOf(pods[..i]) == Tally(running, failures, !noneFound)
    {
      var pod := pods[i];
      assert pods[..i + 1][..i] == pods[..i];
      for k := 0 to |pod.statuses|
        invariant AddPod(TallyOf(pods[..i]), pod.name, pod.statuses[..k]) == Tally(running, failures, !noneFound)
      {
        var cs := pod.statuses[k];
        assert pod.statuses[..k + 1][..k] == pod.statuses[..k];
        if cs.name != SIDECAR { continue; }
        ghost var before := failures;
        noneFound := false;
        if cs.running { running := running + 1; }
        if cs.waiting.Some? && FailureReason(cs.waiting.value) {
          failures := failures + [Waiting(pod.name, cs.waiting.value)];
        }
        if cs.exitCode.Some? && cs.exitCode.value != 0 {
          failures := failures + [Exited(pod.name, cs.exitCode.value)];
        }
        assert failures == before + FailuresOf(pod.name, cs);
      }
      assert pod.statuses[..|pod.statuses|] == pod.statuses;
    }
    assert pods[..|pods|] == pods;
    report := if noneFound then NoneFound
              else if |failures| > 0 then Unhealthy(failures)
              else if running > 0 then RunningIn(running)
              else NotYet;
    healthy := report.RunningIn?;
  }

  // ---------------------------------------------------------------- what the tally means

  /** Gathering two lists of pods, one after the other. */
  function Join(t: Tally, u: Tally): Tally {
    Tally(t.running + u.running, t.failures + u.failures, t.found || u.found)
  }

  lemma {:induction false} AddPodJoins(t: Tally, pod: string, statuses: seq<ContainerStatus>)
    ensures AddPod(t, pod, statuses) == Join(t, AddPod(EMPTY, pod, statuses))
  {
    if statuses != [] {
      AddPodJoins(t, pod, statuses[..|statuses| - 1]);
    }
  }

  lemma {:induction false} TallyJoins(a: seq<PodView>, b: seq<PodView>)
    ensures TallyOf(a + b) == Join(TallyOf(a), TallyOf(b))
  {
    if b == [] {
      assert a + b == a;
    } else {
      var n := |b| - 1;
      assert (a + b)[..|a + b| - 1] == a + b[..n];
      TallyJoins(a, b[..n]);
      AddPodJoins(TallyOf(a + b[..n]), b[n].name, b[n].statuses);
      AddPodJoins(TallyOf(b[..n]), b[n].name, b[n].statuses);
    }
  }

  lemma {:induction false} StatusesJoin(pod: string, a: seq<ContainerStatus>, b: seq<ContainerStatus>)
    ensures AddPod(EMPTY, pod, a + b) == Join(AddPod(EMPTY, pod, a), AddPod(EMPTY, pod, b))
  {
    if b == [] {
      assert a + b == a;
    } else {
      var n := |b| - 1;
      assert (a + b)[..|a + b| - 1] == a + b[..n];
      StatusesJoin(pod, a, b[..n]);
    }
  }

  /** What one container status contributes; with the two joins this determines every tally. */
  lemma OneStatus(pod: string, cs: ContainerStatus)
    ensures
      TallyOf([PodView(pod, [cs])]) ==
      if cs.name != "litestream" then Tally(0, [], false)
      else Tally(if cs.running then 1 else 0,
                 (if && cs.waiting.Some?
                     && cs.waiting.value in ["CrashLoopBackOff", "OOMKilled", "Error", "ImagePullBackOff", "ErrImagePull"]
                  then [Waiting(pod, cs.waiting.value)] else []) +
                 (if cs.exitCode.Some? && cs.exitCode.value != 0 then [Exited(pod, cs.exitCode.value)] else []), true)
  {
    assert [cs][..0] == [] && [PodView(pod, [cs])][..0] == [];
    assert AddPod(EMPTY, pod, [cs]) == Add(EMPTY, pod, cs);
  }

  /** The same counts and the same failures, in whatever order. */
  ghost predicate Alike(t: Tally, u: Tally) {
    t.running == u.running && multiset(t.failures) == multiset(u.failures) && t.found == u.found
  }

  lemma AlikeJoin(a: Tally, b: Tally, b1: Tally, b2: Tally, x: Tally)
    requires Alike(a, Join(b1, b2)) && b == Join(Join(b1, x), b2)
    ensures Alike(Join(a, x), b)
  {
  }

  lemma Cancel(m: multiset<PodView>, n: multiset<PodView>, x: PodView)
    requires m + multiset{x} == n + multiset{x}
    ensures m == n
  {
    assert m == (m + multiset{x}) - multiset{x};
    assert n == (n + multiset{x}) - multiset{x};
  }

  lemma TakeOut(a: seq<PodView>, b: seq<PodView>) returns (k: nat)
    requires multiset(a) == multiset(b) && a != []
    ensures k < |b| && b[k] == a[|a| - 1] && b == b[..k] + [b[k]] + b[k + 1..]
    ensures multiset(a[..|a| - 1]) == multiset(b[..k] + b[k + 1..])
  {
    var n := |a| - 1;
    assert a == a[..n] + [a[n]];
    assert a[n] in multiset(b);
    k :| 0 <= k < |b| && b[k] == a[n];
    assert b == b[..k] + [b[k]] + b[k + 1..];
    assert multiset(b) == multiset(b[..k] + b[k + 1..]) + multiset{a[n]};
    assert multiset(a) == multiset(a[..n]) + multiset{a[n]};
    Cancel(multiset(a[..n]), multiset(b[..k] + b[k + 1..]), a[n]);
  }

  /** The order of the pods does not matter to the tally. */
  lemma {:induction false} TallyAlike(a: seq<PodView>, b: seq<PodView>)
    requires multiset(a) == multiset(b)
    ensures Alike(TallyOf(a), TallyOf(b))
  {
    if a == [] {
      assert |multiset(b)| == 0;
    } else {
      var n := |a| - 1;
      var k := TakeOut(a, b);
      var x, b1, b2 := a[n], b[..k], b[k + 1..];
      TallyAlike(a[..n], b1 + b2);
      assert a == a[..n] + [x];
      TallyJoins(a[..n], [x]);
      TallyJoins(b1 + [x], b2);
      TallyJoins(b1, [x]);
      TallyJoins(b1, b2);
      AlikeJoin(TallyOf(a[..n]), TallyOf(b), TallyOf(b1), TallyOf(b2), TallyOf([x]));
    }
  }

  /** Nor to the report, but for the order in which failures are listed. */
  lemma OrderIrrelevant(a: seq<PodView>, b: seq<PodView>)
    requires multiset(a) == multiset(b)
    ensures
      var p, q := ReportOf(TallyOf(a)), ReportOf(TallyOf(b));
      if p.Unhealthy? then q.Unhealthy? && multiset(p.failures) == multiset(q.failures) else p == q
  {
    TallyAlike(a, b);
    assert |multiset(TallyOf(a).failures)| == |TallyOf(a).failures|;
    assert |multiset(TallyOf(b).failures)| == |TallyOf(b).failures|;
  }

  ghost predicate SomeRuns(statuses: seq<ContainerStatus>) {
    exists k :: 0 <= k < |statuses| && IsSidecar(statuses[k]) && statuses[k].running
  }

  ghost predicate SomeFails(statuses: seq<ContainerStatus>) {
    exists k :: 0 <= k < |statuses| && IsSidecar(statuses[k]) && Failing(statuses[k])
  }

  lemma {:induction false} PodTallyMeans(pod: string, statuses: seq<ContainerStatus>)
    ensures
      var t := AddPod(EMPTY, pod, statuses);
      && (t.running > 0 <==> SomeRuns(statuses))
      && (t.failures != [] <==> SomeFails(statuses))
      && (SomeRuns(statuses) ==> t.found)
  {
    if statuses != [] {
      var n := |statuses| - 1;
      PodTallyMeans(pod, statuses[..n]);
      assert statuses == statuses[..n] + [statuses[n]];
      assert SomeRuns(statuses) <==> SomeRuns(statuses[..n]) || (IsSidecar(statuses[n]) && statuses[n].running);
      assert SomeFails(statuses) <==> SomeFails(statuses[..n]) || (IsSidecar(statuses[n]) && Failing(statuses[n]));
    }
  }

  lemma {:induction false} TallyMeans(pods: seq<PodView>)
    ensures
      var t := TallyOf(pods);
      && (t.running > 0 <==> exists i :: 0 <= i < |pods| && SomeRuns(pods[i].statuses))
      && (t.failures != [] <==> exists i :: 0 <= i < |pods| && SomeFails(pods[i].statuses))
      && (t.running > 0 ==> t.found)
  {
    if pods != [] {
      var n := |pods| - 1;
      TallyMeans(pods[..n]);
      PodTallyMeans(pods[n].name, pods[n].statuses);
      AddPodJoins(TallyOf(pods[..n]), pods[n].name, pods[n].statuses);
      assert pods == pods[..n] + [pods[n]];
      assert forall i :: 0 <= i < n ==> pods[i] == pods[..n][i];
    }
  }

  /** The sidecar of that status is stuck or broken. */
  ghost predicate IsBroken(cs: ContainerStatus) {
    || (&& cs.waiting.Some?
        && cs.waiting.value in ["CrashLoopBackOff", "OOMKilled", "Error", "ImagePullBackOff", "ErrImagePull"])
    || (cs.exitCode.Some? && cs.exitCode.value != 0)
  }

  ghost predicate SidecarAt(pods: seq<PodView>, i: nat, k: nat) {
    i < |pods| && k < |pods[i].statuses| && pods[i].statuses[k].name == "litestream"
  }

  /** Healthy exactly when some sidecar runs and none is broken; no sidecar at all is told apart. */
  lemma HealthyIff(pods: seq<PodView>)
    ensures
      ReportOf(TallyOf(pods)).RunningIn? <==>
      && (exists i: nat, k: nat :: SidecarAt(pods, i, k) && pods[i].statuses[k].running)
      && !(exists i: nat, k: nat :: SidecarAt(pods, i, k) && IsBroken(pods[i].statuses[k]))
    ensures ReportOf(TallyOf(pods)).NoneFound? <==> !(exists i: nat, k: nat :: SidecarAt(pods, i, k))
    ensures ReportOf(TallyOf(pods)).Unhealthy? <==> exists i: nat, k: nat :: SidecarAt(pods, i, k) && IsBroken(pods[i].statuses[k])
  {
    TallyMeans(pods);
    FoundMeans(pods);
    RunsAndFails(pods);
    assert TallyOf(pods).failures != [] ==> TallyOf(pods).found;
  }

  lemma RunsAndFails(pods: seq<PodView>)
    ensures
      (exists i :: 0 <= i < |pods| && SomeRuns(pods[i].statuses)) <==>
      exists i: nat, k: nat :: SidecarAt(pods, i, k) && pods[i].statuses[k].running
    ensures
      (exists i :: 0 <= i < |pods| && SomeFails(pods[i].statuses)) <==>
      exists i: nat, k: nat :: SidecarAt(pods, i, k) && IsBroken(pods[i].statuses[k])
  {
    if exists i :: 0 <= i < |pods| && SomeRuns(pods[i].statuses) {
      var i :| 0 <= i < |pods| && SomeRuns(pods[i].statuses);
      var k :| 0 <= k < |pods[i].statuses| && IsSidecar(pods[i].statuses[k]) && pods[i].statuses[k].running;
      assert SidecarAt(pods, i, k);
    }
    if exists i :: 0 <= i < |pods| && SomeFails(pods[i].statuses) {
      var i :| 0 <= i < |pods| && SomeFails(pods[i].statuses);
      var k :| 0 <= k < |pods[i].statuses| && IsSidecar(pods[i].statuses[k]) && Failing(pods[i].statuses[k]);
      assert SidecarAt(pods, i, k) && IsBroken(pods[i].statuses[k]);
    }
    forall i: nat, k: nat | SidecarAt(pods, i, k)
      ensures pods[i].statuses[k].running ==> SomeRuns(pods[i].statuses)
      ensures IsBroken(pods[i].statuses[k]) ==> SomeFails(pods[i].statuses)
    {
      assert IsBroken(pods[i].statuses[k]) ==> Failing(pods[i].statuses[k]);
    }
  }

  lemma {:induction false} PodFoundMeans(pod: string, statuses: seq<ContainerStatus>)
    ensures AddPod(EMPTY, pod, statuses).found <==> exists k :: 0 <= k < |statuses| && statuses[k].name == "litestream"
    ensures AddPod(EMPTY, pod, statuses).failures != [] ==> AddPod(EMPTY, pod, statuses).found
  {
    if statuses != [] {
      var n := |statuses| - 1;
      PodFoundMeans(pod, statuses[..n]);
      assert forall k :: 0 <= k < n ==> statuses[k] == statuses[..n][k];
    }
  }

  lemma {:induction false} FoundMeans(pods: seq<PodView>)
    ensures TallyOf(pods).found <==> exists i: nat, k: nat :: SidecarAt(pods, i, k)
    ensures TallyOf(pods).failures != [] ==> TallyOf(pods).found
  {
    if pods != [] {
      var n := |pods| - 1;
      FoundMeans(pods[..n]);
      PodFoundMeans(pods[n].name, pods[n].statuses);
      AddPodJoins(TallyOf(pods[..n]), pods[n].name, pods[n].statuses);
      FoundStep(pods, n);
    }
  }

  lemma FoundStep(pods: seq<PodView>, n: nat)
    requires n + 1 == |pods|
    ensures
      (exists i: nat, k: nat :: SidecarAt(pods, i, k)) <==>
      || (exists i: nat, k: nat :: SidecarAt(pods[..n], i, k))
      || exists k :: 0 <= k < |pods[n].statuses| && pods[n].statuses[k].name == "litestream"
  {
    if exists i: nat, k: nat :: SidecarAt(pods, i, k) {
      var i: nat, k: nat :| SidecarAt(pods, i, k);
      assert i < n ==> SidecarAt(pods[..n], i, k);
    }
    if exists i: nat, k: nat :: SidecarAt(pods[..n], i, k) {
      var i: nat, k: nat :| SidecarAt(pods[..n], i, k);
      assert SidecarAt(pods, i, k);
    }
    if exists k :: 0 <= k < |pods[n].statuses| && pods[n].statuses[k].name == "litestream" {
      var k :| 0 <= k < |pods[n].statuses| && pods[n].statuses[k].name == "litestream";
      assert SidecarAt(pods, n, k);
    }
  }
}
