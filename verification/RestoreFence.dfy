/**
 How long the pause lasts. A Fencing pass reads flag and ConfigMap once and then makes its calls, so a user may undo
 the pause under it; this is exactly how a Job comes to be created without it.
 */
module RestoreFence {
  import opened ApiTypes
  import opened LitestreamConfig
  import opened RestoreProtocol
  import opened RestoreSafety

  /** The pass of InPlace restore r of source s is past the gate and has not created its Job yet. */
  ghost predicate PastGate(w: World, r: string, s: string) {
    && w.worker.Some? && w.worker.value.name == r
    && (w.worker.value.pc.AtScaleDown? || w.worker.value.pc.AtJobConfig? || w.worker.value.pc.AtCreateJob?)
    && r in w.restores && w.restores[r].mode == InPlace && w.restores[r].source == s
  }

  predicate WritesSource(step: Step, s: string) {
    (step.PutSource? || step.DropSource? || step.DropConfig?) && step.source == s
  }

  /** A user's write that takes the pause away. */
  ghost predicate Undoes(w: World, step: Step, w': World, s: string) {
    WritesSource(step, s) && PauseSeen(w, s) && !PauseSeen(w', s)
  }

  lemma CallKeepsPause(w: World, io: Io, r: string, s: string)
    requires Inv(w) && PastGate(w, r, s) && PauseSeen(w, s)
    ensures PauseSeen(Exec(w, io), s)
  {
    var b, x := w.worker.value, w.restores[r];
    match b.pc
    case AtScaleDown(_) => assert Exec(w, io) == ExecScaleDown(w, b, x, io);
    case AtJobConfig(_, _) => assert Exec(w, io) == ExecJobConfig(w, b, io);
    case AtCreateJob(_) => assert Exec(w, io) == ExecCreateJob(w, b, io);
  }

  lemma DeleteKeepsPause(w: World, q: string, s: string)
    requires ConfigsOk(w) && PauseSeen(w, s)
    ensures PauseSeen(Delete(w, q), s)
  {
  }

  lemma OtherStepsKeepFlag(w: World, step: Step, s: string)
    requires s in w.sources && !WritesSource(step, s) && !step.Call? && !step.DeleteRestore?
    ensures s in Next(w, step).sources && Next(w, step).sources[s] == w.sources[s]
  {
  }

  lemma OtherStepsKeepConfig(w: World, step: Step, s: string)
    requires PauseSeen(w, s) && !WritesSource(step, s) && !step.Call? && !step.DeleteRestore?
    ensures s in Next(w, step).configs && Next(w, step).configs[s].text == PAUSED_CONFIG
  {
  }

  /** Nobody but a user who writes to the source takes the pause away under such a pass. */
  lemma OnlyUsersUndo(w: World, step: Step, r: string, s: string)
    requires Inv(w) && PastGate(w, r, s) && PauseSeen(w, s) && !WritesSource(step, s)
    ensures PauseSeen(Next(w, step), s)
  {
    match step
    case Call(io) => CallKeepsPause(w, io, r, s);
    case DeleteRestore(q) => DeleteKeepsPause(w, q, s);
    case _ =>
      OtherStepsKeepFlag(w, step, s);
      OtherStepsKeepConfig(w, step, s);
  }

  lemma RunUndo(ws: seq<World>, steps: seq<Step>, k: nat, r: string, s: string)
    requires IsRun(ws, steps) && k < |steps| && PastGate(ws[k], r, s)
    ensures PauseSeen(ws[k], s) && !PauseSeen(ws[k + 1], s) ==> Undoes(ws[k], steps[k], ws[k + 1], s)
  {
    RunInv(ws, steps, k);
    var w, step, w' := ws[k], steps[k], ws[k + 1];
    assert w' == Next(w, step);
    if PauseSeen(w, s) && !WritesSource(step, s) {
      OnlyUsersUndo(w, step, r, s);
    }
  }

  /** Between i and j a user took the pause away and it did not come back. */
  ghost predicate UndoneBetween(ws: seq<World>, steps: seq<Step>, i: nat, j: nat, s: string)
    requires i <= j < |ws| && |ws| == |steps| + 1
  {
    exists k :: i <= k < j && Undoes(ws[k], steps[k], ws[k + 1], s) && GoneFrom(ws, k + 1, j, s)
  }

  ghost predicate GoneFrom(ws: seq<World>, i: nat, j: nat, s: string)
    requires j < |ws|
  {
    forall m :: i <= m <= j ==> !PauseSeen(ws[m], s)
  }

  lemma {:induction false} LastUndo(ws: seq<World>, steps: seq<Step>, i: nat, j: nat, s: string)
    requires i <= j < |ws| && |ws| == |steps| + 1 && PauseSeen(ws[i], s)
    requires forall k :: i <= k < j && PauseSeen(ws[k], s) && !PauseSeen(ws[k + 1], s) ==>
      Undoes(ws[k], steps[k], ws[k + 1], s)
    ensures PauseSeen(ws[j], s) <==> !UndoneBetween(ws, steps, i, j, s)
    decreases j - i
  {
    if !PauseSeen(ws[j], s) {
      if PauseSeen(ws[j - 1], s) {
        assert Undoes(ws[j - 1], steps[j - 1], ws[j - 1 + 1], s) && GoneFrom(ws, j, j, s);
      } else {
        LastUndo(ws, steps, i, j - 1, s);
        var k :| i <= k < j - 1 && Undoes(ws[k], steps[k], ws[k + 1], s) && GoneFrom(ws, k + 1, j - 1, s);
        assert GoneFrom(ws, k + 1, j, s);
      }
    }
  }

  lemma RunUndoes(ws: seq<World>, steps: seq<Step>, i: nat, j: nat, r: string, s: string)
    requires IsRun(ws, steps) && i <= j < |ws|
    requires forall k :: i <= k <= j ==> PastGate(ws[k], r, s)
    ensures forall k :: i <= k < j && PauseSeen(ws[k], s) && !PauseSeen(ws[k + 1], s) ==>
      Undoes(ws[k], steps[k], ws[k + 1], s)
  {
    forall k | i <= k < j && PauseSeen(ws[k], s) && !PauseSeen(ws[k + 1], s)
      ensures Undoes(ws[k], steps[k], ws[k + 1], s)
    {
      RunUndo(ws, steps, k, r, s);
    }
  }

  /**
   Over any run: from the state i in which the pass entered the gate to the state j in which it creates its Job, the
   pause is in place at j exactly when no user took it away in between for good.
   */
  lemma PausedAtCreationIff(ws: seq<World>, steps: seq<Step>, i: nat, j: nat, r: string, s: string)
    requires IsRun(ws, steps) && i <= j < |ws|
    requires forall k :: i <= k <= j ==> PastGate(ws[k], r, s)
    requires ws[i].worker.Some? && ws[i].worker.value.mark.Unmarked?
    ensures PauseSeen(ws[j], s) <==> !UndoneBetween(ws, steps, i, j, s)
  {
    EntersPaused(ws, steps, i, r, s);
    RunUndoes(ws, steps, i, j, r, s);
    LastUndo(ws, steps, i, j, s);
  }

  lemma EntersPaused(ws: seq<World>, steps: seq<Step>, i: nat, r: string, s: string)
    requires IsRun(ws, steps) && i < |ws| && PastGate(ws[i], r, s) && ws[i].worker.value.mark.Unmarked?
    ensures PauseSeen(ws[i], s)
  {
    RunInv(ws, steps, i);
    assert FenceOk(ws[i], ws[i].worker.value, ws[i].restores[r]);
  }

  /** The failing input: the pause flag is cleared just before the Job is created, and the Job is created all the same. */
  lemma UnpausedUnderPass(w: World, r: string, s: string, spec: ReplicaSpec)
    requires Inv(w) && PastGate(w, r, s) && w.worker.value.pc.AtCreateJob? && w.worker.value.mark.Unmarked? && r !in w.jobs
    ensures
      var cleared := Next(w, PutSource(s, spec, false));
      var w' := Next(cleared, Call(ALL_OK));
      && Allowed(w, PutSource(s, spec, false)) && Allowed(cleared, Call(ALL_OK))
      && PauseSeen(w, s) && cleared.worker.value.mark == PauseBroken
      && r in w'.jobs && !PauseSeen(cleared, s)
  {
    assert FenceOk(w, w.worker.value, w.restores[r]);
    var cleared := Next(w, PutSource(s, spec, false));
    var b := w.worker.value.(mark := PauseBroken);
    assert cleared.worker == Some(b) && cleared.restores == w.restores;
    assert Exec(cleared, ALL_OK) == ExecCreateJob(cleared, b, ALL_OK);
  }
}
