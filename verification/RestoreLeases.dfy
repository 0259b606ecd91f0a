/**
 Leases that outlive their restore. failRestore writes Failed and keeps the lock, so a restore that fails this way
 blocks every later restore of its source until somebody deletes it.
 */
module RestoreLeases {
  import opened ApiTypes
  import opened RestoreProtocol
  import opened RestoreSafety
  import opened RestoreTheorems
  import opened RestorePasses

  predicate Ends(w: World, step: Step, r: string) {
    && r in w.restores && r in Next(w, step).restores
    && !Terminal(w.restores[r].phase) && Terminal(Next(w, step).restores[r].phase)
  }

  /** A restore comes to its end in a call of its own pass: a plain status write or a cleanup. */
  lemma EndsInOwnPass(w: World, step: Step, r: string)
    requires Inv(w) && Ends(w, step, r)
    ensures step.Call? && w.worker.Some? && w.worker.value.name == r
    ensures w.worker.value.pc.AtStatus? || w.worker.value.pc.AtConclude?
  {
    if !step.Call? {
      OtherStepsSpare(w, step, r);
    } else if w.worker.Some? {
      CallRestores(w, step.io, r);
    }
  }

  lemma ConcludeLeases(w: World, io: Io)
    requires w.worker.Some? && w.worker.value.pc.AtConclude? && w.worker.value.pc.release
    requires Holds(w, w.worker.value.name)
    ensures
      var s := w.restores[w.worker.value.name].source;
      Exec(w, io).leases == if io.released then w.leases - {s} else w.leases
    ensures Exec(w, io).restores.Keys == w.restores.Keys
    ensures Exec(w, io).restores[w.worker.value.name].source == w.restores[w.worker.value.name].source
  {
    var b := w.worker.value;
    assert Exec(w, io) == ExecConclude(w, b, w.restores[b.name], io);
  }

  lemma StatusLeases(w: World, io: Io)
    requires w.worker.Some? && w.worker.value.pc.AtStatus? && w.worker.value.name in w.restores
    ensures Exec(w, io).leases == w.leases && Exec(w, io).restores.Keys == w.restores.Keys
    ensures Exec(w, io).restores[w.worker.value.name].source == w.restores[w.worker.value.name].source
  {
    var b := w.worker.value;
    assert Exec(w, io) == ExecStatus(w, b, w.restores[b.name], io);
  }

  /**
   An InPlace restore that ends keeps the lease exactly when it held it and ended by a plain failRestore, or when the
   best-effort deletion in its cleanup did not come through.
   */
  lemma LeakIff(w: World, step: Step, r: string)
    requires Inv(w) && Ends(w, step, r) && w.restores[r].mode == InPlace
    ensures step.Call? && w.worker.Some?
    ensures Holds(Next(w, step), r) <==> Holds(w, r) && (w.worker.value.pc.AtStatus? || !step.io.released)
  {
    EndsInOwnPass(w, step, r);
    assert PhaseOk(w, r);
    if w.worker.value.pc.AtConclude? {
      ConcludeLeases(w, step.io);
    } else {
      StatusLeases(w, step.io);
    }
  }

  /** A restore that is over, is not being deleted, and still has the lock of its source. */
  ghost predicate Leaked(w: World, r: string) {
    Holds(w, r) && Terminal(w.restores[r].phase) && !w.restores[r].deleting
  }

  /** The failing input: the backup is switched off, or the source deleted, under a restore that has the lock. */
  lemma FailsWithLock(w: World, r: string)
    requires w.worker.None? && Holds(w, r) && w.restores[r].finalizer && !w.restores[r].deleting
    requires !Terminal(w.restores[r].phase) && !Usable(w, r)
    ensures Leaked(Pass(w, r), r) && Pass(w, r).restores[r].phase == Failed
  {
    PassUnusable(w, r);
  }

  lemma LeakStays(w: World, step: Step, r: string)
    requires Inv(w) && Allowed(w, step) && Leaked(w, r) && step != DeleteRestore(r)
    ensures Leaked(Next(w, step), r)
  {
    var s := w.restores[r].source;
    assert LeaseOk(w, s);
    LeaseKept(w, step, s);
    StepKeeps(w, step);
    assert LeaseOk(Next(w, step), s);
    PhaseOrder(w, step, r);
    LiveStaysLive(w, step, r);
  }

  lemma LiveStaysLive(w: World, step: Step, r: string)
    requires r in w.restores && r in Next(w, step).restores && step != DeleteRestore(r)
    ensures Next(w, step).restores[r].deleting == w.restores[r].deleting
  {
    if step.Call? && w.worker.Some? {
      CallRestores(w, step.io, r);
    } else {
      OthersStayLive(w, step, r);
    }
  }

  lemma OthersStayLive(w: World, step: Step, r: string)
    requires r in w.restores && r in Next(w, step).restores && step != DeleteRestore(r)
    requires !(step.Call? && w.worker.Some?)
    ensures Next(w, step).restores[r] == w.restores[r]
  {
  }

  /** Nobody else gets past the lock: a restore that waits for it goes on waiting, or fails. */
  lemma WaiterStays(w: World, step: Step, r: string, q: string)
    requires Inv(w) && Allowed(w, step) && Leaked(w, r) && step != DeleteRestore(r)
    requires q != r && q in w.restores && q in Next(w, step).restores && w.restores[q].mode == InPlace
    requires w.restores[q].source == w.restores[r].source && Waits(w.restores[q].phase)
    ensures Waits(Next(w, step).restores[q].phase)
    ensures Next(w, step).restores[q].mode == InPlace && Next(w, step).restores[q].source == w.restores[q].source
  {
    var w' := Next(w, step);
    LeakStays(w, step, r);
    StepKeeps(w, step);
    PhaseOrder(w, step, q);
    KeepsIdentity(w, step, q);
    KeepsIdentity(w, step, r);
    assert PhaseOk(w', q) && LeaseOk(w', w.restores[r].source);
    if w'.restores[q].phase == Completed {
      CompletedByConclude(w, step, q);
    }
  }

  predicate Waits(phase: Phase) {
    phase == AcquiringLock || phase == Failed
  }

  lemma KeepsIdentity(w: World, step: Step, q: string)
    requires q in w.restores && q in Next(w, step).restores
    ensures Next(w, step).restores[q].mode == w.restores[q].mode && Next(w, step).restores[q].source == w.restores[q].source
  {
    if step.Call? && w.worker.Some? {
      CallRestores(w, step.io, q);
    } else if !step.Call? {
      OtherStepsSpare(w, step, q);
    }
  }

  /** r sits on the lock and q, a restore of the same source, waits for it. */
  ghost predicate Starves(w: World, r: string, q: string) {
    && Inv(w) && Leaked(w, r)
    && q != r && q in w.restores && w.restores[q].mode == InPlace
    && w.restores[q].source == w.restores[r].source && Waits(w.restores[q].phase)
  }

  lemma StarvesOn(w: World, step: Step, r: string, q: string)
    requires Starves(w, r, q) && Allowed(w, step) && step != DeleteRestore(r) && q in Next(w, step).restores
    ensures Starves(Next(w, step), r, q)
  {
    StepKeeps(w, step);
    LeakStays(w, step, r);
    WaiterStays(w, step, r, q);
    KeepsIdentity(w, step, r);
  }

  /** Over any stretch of a run in which r is not deleted, a waiting restore never leaves AcquiringLock but for Failed. */
  lemma StarvedForGood(ws: seq<World>, steps: seq<Step>, r: string, q: string)
    requires IsStretch(ws, steps) && Starves(ws[0], r, q)
    requires forall i :: 0 <= i < |steps| ==> steps[i] != DeleteRestore(r)
    requires forall i :: 0 <= i < |ws| ==> q in ws[i].restores
    ensures Starves(ws[|steps|], r, q)
  {
    forall i | 0 <= i < |steps| ensures Starves(ws[i], r, q) ==> Starves(ws[i + 1], r, q) {
      if Starves(ws[i], r, q) {
        assert steps[i] != DeleteRestore(r) && q in ws[i + 1].restores;
        StarvesOn(ws[i], steps[i], r, q);
      }
    }
    StarvedAlong(ws, r, q, |steps|);
  }

  lemma {:induction false} StarvedAlong(ws: seq<World>, r: string, q: string, n: nat)
    requires n < |ws| && Starves(ws[0], r, q)
    requires forall i :: 0 <= i < n ==> Starves(ws[i], r, q) ==> Starves(ws[i + 1], r, q)
    ensures Starves(ws[n], r, q)
  {
    if n > 0 {
      StarvedAlong(ws, r, q, n - 1);
      assert Starves(ws[n - 1], r, q) ==> Starves(ws[n - 1 + 1], r, q);
    }
  }
}
