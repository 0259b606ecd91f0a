/**
 What a lock release that is torn from the write after it costs. The controller deletes the Lease first and
 writes the status or removes the finalizer afterwards, so the write can be lost while the Lease is gone.
 */
module TornRelease {
  import opened ApiTypes
  import opened LitestreamConfig
  import opened RestoreProtocol
  import opened RestoreSafety
  import opened RestorePasses
  import opened RestoreScenarios

  /** Every InPlace restore that is in a locked phase or has a running Job holds its source's lease. */
  ghost predicate Guarded(w: World) {
    forall r :: r in w.restores && w.restores[r].mode == InPlace && (JobRuns(w, r) || Locked(w.restores[r].phase)) ==>
      Holds(w, r)
  }

  lemma InvGuards(w: World)
    requires Inv(w)
    ensures Guarded(w)
  {
    forall r | r in w.restores && w.restores[r].mode == InPlace && (JobRuns(w, r) || Locked(w.restores[r].phase))
      ensures Holds(w, r)
    {
      assert PhaseOk(w, r) && JobOk(w, r);
    }
  }

  /** A torn call deletes the lease and writes neither restores nor Jobs. */
  lemma TornWrites(w: World, io: Io)
    requires Torn(w, io)
    ensures
      var r := w.worker.value.name;
      var w' := Exec(w, io);
      w'.restores == w.restores && w'.jobs == w.jobs && w'.leases == w.leases - {w.restores[r].source}
  {
  }

  /** A call breaks the guard exactly when it is a torn release by a restore that still needs its lease. */
  lemma GuardLostIffTorn(w: World, io: Io)
    requires Inv(w) && w.worker.Some?
    ensures
      var r := w.worker.value.name;
      Guarded(Exec(w, io)) <==> !(Torn(w, io) && (JobRuns(w, r) || Locked(w.restores[r].phase)))
  {
    var r := w.worker.value.name;
    var w' := Exec(w, io);
    if !Torn(w, io) {
      StepKeeps(w, Call(io));
      InvGuards(w');
    } else {
      TornWrites(w, io);
      InvGuards(w);
      TornGuard(w, r, w');
      var s := w.restores[r].source;
      assert s in w.leases && LeaseOk(w, s);
    }
  }

  lemma TornGuard(w: World, r: string, w': World)
    requires Holds(w, r) && Guarded(w)
    requires w'.restores == w.restores && w'.jobs == w.jobs && w'.leases == w.leases - {w.restores[r].source}
    ensures forall q ::
      q in w.restores && q != r && w.restores[q].mode == InPlace && (JobRuns(w', q) || Locked(w'.restores[q].phase)) ==>
        Holds(w', q)
    ensures !Holds(w', r)
  {
    forall q | q in w.restores && q != r && w.restores[q].mode == InPlace
               && (JobRuns(w', q) || Locked(w'.restores[q].phase))
      ensures Holds(w', q)
    {
      assert Holds(w, q);
    }
  }

  const TEAR := Io(false, true, true, false)

  /** A user deletes r; its pass releases the lock and loses the finalizer write. */
  function TornDeletion(w: World, r: string): World {
    Next(Next(Next(w, DeleteRestore(r)), StartPass(r, true)), Call(TEAR))
  }

  lemma TornDeletionIs(w: World, r: string)
    requires w.worker.None? && Holds(w, r) && w.restores[r].finalizer && w.restores[r].mode == InPlace
    ensures
      var x := w.restores[r];
      TornDeletion(w, r) == w.(restores := w.restores[r := x.(deleting := true)], leases := w.leases - {x.source})
  {
    var x := w.restores[r].(deleting := true);
    var w1 := Next(w, DeleteRestore(r));
    assert w1 == PutRestore(w, r, x);
    var w2 := Begin(w1, r, true);
    var b := w2.worker.value;
    assert b.name == r && b.pc.AtFinalize? && b.pc.release;
    assert Exec(w2, TEAR) == ExecFinalize(w2, b, x, TEAR);
    assert Holds(w2, r);
  }

  /** r's Job runs on a source whose application is down, and q waits for the lock r holds. */
  ghost predicate Contended(w: World, r: string, q: string) {
    && JobUnderway(w, r) && q in w.restores && q != r && w.restores[q].source == w.restores[r].source
    && InLine(w.(leases := map[]), q)
  }

  /** Any two fresh restores of one application get there: r fences and starts its Job, q queues up behind it. */
  lemma ContendedReached(w: World, r: string, q: string) returns (w': World)
    requires Initial(w) && Fresh(w, r) && Second(w, r, q)
    ensures Reaches(w, w') && Contended(w', r, q)
  {
    QueuedInLine(w, r);
    var w1 := QueuedUp(w, r);
    StillFresh(w, r, q, w1);
    StartsRestore(w1, r);
    SecondBehind(w1, r, q);
    var w2 := WithJob(w1, r);
    QueuesBehind(w2, r, q);
    w' := QueuedUp(w2, q);
    ReachesOn(w, w1, w2);
    ReachesOn(w, w2, w');
  }

  /** While r's Job still runs, q takes the lock and starts a Job of its own. */
  lemma SecondWriter(w: World, r: string, q: string)
    requires Contended(w, r, q)
    ensures
      var torn := TornDeletion(w, r);
      exists w' :: Reaches(torn, w') && JobRuns(w', r) && JobRuns(w', q)
  {
    TornDeletionIs(w, r);
    var torn := TornDeletion(w, r);
    StartsRestore(torn, q);
    assert Reaches(torn, WithJob(torn, q));
  }

  /** From an initial state to two writers on one volume, with a single torn release on the way. */
  lemma TornReleaseTwoWriters(w: World, r: string, q: string)
    requires Initial(w) && Fresh(w, r) && Second(w, r, q)
    ensures exists w1, w2 ::
      Reaches(w, w1) && Reaches(TornDeletion(w1, r), w2) && JobRuns(w2, r) && JobRuns(w2, q)
  {
    var w1 := ContendedReached(w, r, q);
    SecondWriter(w1, r, q);
  }
}
