/**
 Does the application get its replica count back? The count is read before the lock is taken, so what comes back is
 the count of that moment, not the one the restore found when it took the application down.
 */
module RestoreCounts {
  import opened ApiTypes
  import opened LitestreamConfig
  import opened RestoreProtocol
  import opened RestoreSafety
  import opened RestoreTheorems
  import opened RestorePasses
  import opened RestoreScenarios

  /**
   Over any run: the count an InPlace restore found while it was waiting for the lock is the count after its
   completion exactly when it still was the recorded one.
   */
  lemma CountBackIff(ws: seq<World>, steps: seq<Step>, a: nat, j: nat, r: string)
    requires IsRun(ws, steps) && a <= j < |steps|
    requires forall k :: a <= k <= j ==> r in ws[k].restores
    requires ws[a].restores[r].mode == InPlace && ws[a].restores[r].phase == AcquiringLock
    requires Completes(ws[j], steps[j], r) && ws[j].restores[r].mode == InPlace
    requires ws[j].restores[r].source == ws[a].restores[r].source
    requires ws[j].worker.Some? && ws[j].worker.value.pc.AtConclude? ==> !ws[j].worker.value.pc.skipped
    requires ws[a].restores[r].source in ws[a].workloads && ws[a].restores[r].source in ws[j].workloads
    ensures ws[a].restores[r].originalReplicas.Some?
    ensures
      var s := ws[a].restores[r].source;
      Desired(ws[j].workloads[s]) == Desired(ws[a].workloads[s]) <==>
      Desired(ws[a].workloads[s]) == ws[a].restores[r].originalReplicas.value
  {
    RunInv(ws, steps, a);
    assert PhaseOk(ws[a], r);
    CountConservedOverRun(ws, steps, a, j, r);
  }

  /** The application wants n pods, and one or two fresh restores of it are about to run. */
  ghost predicate Before(w: World, r: string, n: nat) {
    && Initial(w) && Fresh(w, r)
    && w.restores[r].source in w.workloads && Desired(w.workloads[w.restores[r].source]) == n
  }

  // ---------------------------------------------------------------- rescaled before the lock

  /** A user scales the application to m pods while the restore waits for the lock. */
  function Rescaled(w: World, s: string, m: nat): World
    requires s in w.workloads
  {
    w.(workloads := w.workloads[s := w.workloads[s].(replicas := Some(m))])
  }

  lemma RescaledInLine(w: World, r: string, m: nat)
    requires InLine(w, r) && w.restores[r].source in w.workloads
    ensures
      var w' := Rescaled(w, w.restores[r].source, m);
      InLine(w', r) && Reaches(w, w')
  {
    var s := w.restores[r].source;
    ReachesStep(w, PutWorkload(s, Some(w.workloads[s].(replicas := Some(m)))));
  }

  /** From the head of the line to completion: the recorded count is what the application wants in the end. */
  lemma CompletedCount(w: World, r: string)
    requires InLine(w, r) && w.restores[r].source in w.workloads
    ensures
      var w', s := Finished(WithJob(w, r), r), w.restores[r].source;
      && Reaches(w, w') && r in w'.restores && w'.restores[r].phase == Completed
      && s in w'.workloads && Desired(w'.workloads[s]) == ResumeCount(w.restores[r])
      && w'.restores.Keys == w.restores.Keys
  {
    StartsRestore(w, r);
    var w1 := WithJob(w, r);
    CompletesRestore(w1, r);
    ReachesOn(w, w1, Finished(w1, r));
  }

  /** The failing input: a user rescales the application from n to m before the lock is taken, and gets n back. */
  lemma RescaleLost(w: World, r: string, n: nat, m: nat)
    requires Before(w, r, n)
    ensures
      var s := w.restores[r].source;
      exists w1, w2 ::
        && Reaches(w, w1) && r in w1.restores && w1.restores[r].phase == AcquiringLock
        && s in w1.workloads && Desired(w1.workloads[s]) == m
        && Reaches(w1, w2) && r in w2.restores && w2.restores[r].phase == Completed
        && s in w2.workloads && Desired(w2.workloads[s]) == n
  {
    var s := w.restores[r].source;
    QueuedInLine(w, r);
    var w0 := QueuedUp(w, r);
    RescaledInLine(w0, r, m);
    var w1 := Rescaled(w0, s, m);
    ReachesOn(w, w0, w1);
    CompletedCount(w1, r);
    var w2 := Finished(WithJob(w1, r), r);
    assert Reaches(w, w1) && Reaches(w1, w2);
  }

  // ---------------------------------------------------------------- overlapping restores

  /** Once r is done, q is in line with its 0. */
  lemma NextInLine(w: World, r: string, q: string)
    requires JobUnderway(w, r) && q != r && q in w.restores && w.restores[q].source == w.restores[r].source
    requires InLine(w.(leases := map[]), q)
    ensures
      var w' := Finished(w, r);
      && Reaches(w, w') && InLine(w', q) && w'.restores[q] == w.restores[q]
      && r in w'.restores && w'.restores[r].phase == Completed
      && (w.restores[r].source in w.workloads ==> w.restores[r].source in w'.workloads)
  {
    CompletesRestore(w, r);
  }

  /** From the moment r is in line to the end of both. */
  lemma OverlapEnds(w: World, r: string, q: string) returns (w': World)
    requires InLine(w, r) && Second(w, r, q) && w.restores[r].source in w.workloads
    ensures
      var s := w.restores[r].source;
      && Reaches(w, w') && q in w'.restores && w'.restores[q].phase == Completed
      && s in w'.workloads && Desired(w'.workloads[s]) == 0
  {
    StartsRestore(w, r);
    SecondBehind(w, r, q);
    var w1 := WithJob(w, r);
    QueuesBehind(w1, r, q);
    var w2 := QueuedUp(w1, q);
    NextInLine(w2, r, q);
    var w3 := Finished(w2, r);
    CompletedCount(w3, q);
    w' := Finished(WithJob(w3, q), q);
    ReachesOn(w, w1, w2);
    ReachesOn(w, w2, w3);
    ReachesOn(w, w3, w');
  }

  /** The failing input: two restores of one application that wants n pods overlap, and it is left at 0. */
  lemma OverlapLost(w: World, r: string, q: string, n: nat)
    requires Before(w, r, n) && Second(w, r, q)
    ensures
      var s := w.restores[r].source;
      exists w' :: Reaches(w, w') && q in w'.restores && w'.restores[q].phase == Completed
                   && s in w'.workloads && Desired(w'.workloads[s]) == 0
  {
    QueuedInLine(w, r);
    var w1 := QueuedUp(w, r);
    StillFresh(w, r, q, w1);
    var w' := OverlapEnds(w1, r, q);
    ReachesOn(w, w1, w');
  }
}
