/**
 Termination under fair schedules, for any system whose states carry a measure that no turn raises and that
 the turn of one awaited kind of actor lowers.
 */
module FairSchedules {

  /** The state after n turns of the schedule from turn `from` on; a finished state stays. */
  ghost function Turns<S, A>(step: (S, A) -> S, done: S -> bool, x: S, schedule: nat -> A, from: nat, n: nat): S
    decreases n
  {
    if n == 0 || done(x) then x else Turns(step, done, step(x, schedule(from)), schedule, from + 1, n - 1)
  }

  ghost predicate Occurs<A, K>(schedule: nat -> A, kind: A -> K, k: K, n: nat) {
    exists m: nat :: n <= m && kind(schedule(m)) == k
  }

  /** Every kind of actor keeps getting its turn. */
  ghost predicate Fair<A, K(!new)>(schedule: nat -> A, kind: A -> K) {
    forall k, n: nat :: Occurs(schedule, kind, k, n)
  }

  /** A lexicographic measure of a state. */
  datatype Measure = Measure(stage: nat, rest: nat)

  predicate Below(m: Measure, n: Measure) {
    m.stage < n.stage || (m.stage == n.stage && m.rest < n.rest)
  }

  predicate NotAbove(m: Measure, n: Measure) {
    m == n || Below(m, n)
  }

  /** What one turn must do for an unfinished good state. */
  ghost predicate Helps<S(!new), A(!new), K>(
    step: (S, A) -> S, done: S -> bool, good: S -> bool, measure: S -> Measure, awaited: nat -> K, kind: A -> K)
  {
    forall x, a :: good(x) && !done(x) ==>
      var y := step(x, a);
      || done(y)
      || (&& good(y) && NotAbove(measure(y), measure(x))
          && (kind(a) == awaited(measure(x).stage) ==> Below(measure(y), measure(x))))
  }

  lemma {:induction false} TurnsCompose<S, A>(
    step: (S, A) -> S, done: S -> bool, x: S, schedule: nat -> A, from: nat, m: nat, n: nat)
    ensures Turns(step, done, Turns(step, done, x, schedule, from, m), schedule, from + m, n) ==
            Turns(step, done, x, schedule, from, m + n)
    decreases m
  {
    if m > 0 && !done(x) {
      TurnsCompose(step, done, step(x, schedule(from)), schedule, from + 1, m - 1, n);
    }
  }

  /** Up to the turn of the awaited kind the measure stays or drops; with it, it drops. */
  lemma {:induction false} DropsAtTurn<S(!new), A(!new), K>(
    step: (S, A) -> S, done: S -> bool, good: S -> bool, measure: S -> Measure, awaited: nat -> K, kind: A -> K,
    x: S, schedule: nat -> A, from: nat, m: nat)
    requires Helps(step, done, good, measure, awaited, kind)
    requires good(x) && kind(schedule(from + m)) == awaited(measure(x).stage)
    ensures
      var y := Turns(step, done, x, schedule, from, m + 1);
      done(y) || (good(y) && Below(measure(y), measure(x)))
    decreases m
  {
    if !done(x) {
      var y := step(x, schedule(from));
      if m > 0 && !done(y) {
        if measure(y) == measure(x) {
          DropsAtTurn(step, done, good, measure, awaited, kind, y, schedule, from + 1, m - 1);
        } else {
          StaysBelow(step, done, good, measure, awaited, kind, y, schedule, from + 1, m);
        }
      } else {
        assert Turns(step, done, y, schedule, from + 1, 0) == y;
      }
    }
  }

  lemma {:induction false} StaysBelow<S(!new), A(!new), K>(
    step: (S, A) -> S, done: S -> bool, good: S -> bool, measure: S -> Measure, awaited: nat -> K, kind: A -> K,
    x: S, schedule: nat -> A, from: nat, m: nat)
    requires Helps(step, done, good, measure, awaited, kind) && good(x)
    ensures
      var y := Turns(step, done, x, schedule, from, m);
      done(y) || (good(y) && NotAbove(measure(y), measure(x)))
    decreases m
  {
    if m > 0 && !done(x) {
      var y := step(x, schedule(from));
      if !done(y) {
        StaysBelow(step, done, good, measure, awaited, kind, y, schedule, from + 1, m - 1);
      } else {
        assert Turns(step, done, y, schedule, from + 1, m - 1) == y;
      }
    }
  }

  /** A good state finishes under every fair schedule. */
  lemma {:induction false} Converges<S(!new), A(!new), K(!new)>(
    step: (S, A) -> S, done: S -> bool, good: S -> bool, measure: S -> Measure, awaited: nat -> K, kind: A -> K,
    x: S, schedule: nat -> A, from: nat)
    returns (n: nat)
    requires Helps(step, done, good, measure, awaited, kind)
    requires good(x) && Fair(schedule, kind)
    ensures done(Turns(step, done, x, schedule, from, n))
    decreases measure(x).stage, measure(x).rest
  {
    if done(x) {
      return 0;
    }
    var m := NextDrop(step, done, good, measure, awaited, kind, x, schedule, from);
    var y := Turns(step, done, x, schedule, from, m);
    if done(y) {
      n := m;
    } else {
      var k := Converges(step, done, good, measure, awaited, kind, y, schedule, from + m);
      TurnsCompose(step, done, x, schedule, from, m, k);
      n := m + k;
    }
  }

  /** A fair schedule comes to the awaited kind, and by then the measure has dropped. */
  lemma NextDrop<S(!new), A(!new), K(!new)>(
    step: (S, A) -> S, done: S -> bool, good: S -> bool, measure: S -> Measure, awaited: nat -> K, kind: A -> K,
    x: S, schedule: nat -> A, from: nat)
    returns (m: nat)
    requires Helps(step, done, good, measure, awaited, kind)
    requires good(x) && Fair(schedule, kind)
    ensures
      var y := Turns(step, done, x, schedule, from, m);
      done(y) || (good(y) && Below(measure(y), measure(x)))
  {
    assert Occurs(schedule, kind, awaited(measure(x).stage), from);
    var t: nat :| from <= t && kind(schedule(t)) == awaited(measure(x).stage);
    DropsAtTurn(step, done, good, measure, awaited, kind, x, schedule, from, t - from);
    m := t - from + 1;
  }

  /** A finished state was stepped into from a good one. */
  lemma {:induction false} SteppedInto<S(!new), A(!new), K>(
    step: (S, A) -> S, done: S -> bool, good: S -> bool, measure: S -> Measure, awaited: nat -> K, kind: A -> K,
    x: S, schedule: nat -> A, from: nat, n: nat)
    returns (y: S, a: A)
    requires Helps(step, done, good, measure, awaited, kind)
    requires good(x) && !done(x) && done(Turns(step, done, x, schedule, from, n))
    ensures good(y) && !done(y) && Turns(step, done, x, schedule, from, n) == step(y, a)
    decreases n
  {
    var z := step(x, schedule(from));
    if done(z) {
      assert Turns(step, done, z, schedule, from + 1, n - 1) == z;
      return x, schedule(from);
    }
    y, a := SteppedInto(step, done, good, measure, awaited, kind, z, schedule, from + 1, n - 1);
  }

  /** What every turn keeps holds for good, whatever the schedule. */
  lemma {:induction false} HoldsForGood<S(!new), A(!new)>(
    step: (S, A) -> S, done: S -> bool, kept: S -> bool, x: S, schedule: nat -> A, from: nat, n: nat)
    requires forall y, a :: kept(y) ==> kept(step(y, a))
    requires kept(x)
    ensures kept(Turns(step, done, x, schedule, from, n))
    decreases n
  {
    if n > 0 && !done(x) {
      HoldsForGood(step, done, kept, step(x, schedule(from)), schedule, from + 1, n - 1);
    }
  }
}
