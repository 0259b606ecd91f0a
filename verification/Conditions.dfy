/** The list of conditions in a status: one entry per condition type, updated in place. */
module Conditions {
  import opened ApiTypes

  /** since: the time of the last change of status. */
  datatype Condition = Condition(kind: string, status: bool, reason: string, generation: int, since: int)

  function Find(conditions: seq<Condition>, kind: string): Option<Condition> {
    if conditions == [] then None
    else if conditions[0].kind == kind then Some(conditions[0])
    else Find(conditions[1..], kind)
  }

  predicate IsTrue(conditions: seq<Condition>, kind: string) {
    Find(conditions, kind).Some? && Find(conditions, kind).value.status
  }

  ghost predicate Unique(conditions: seq<Condition>) {
    forall i, j :: 0 <= i < j < |conditions| ==> conditions[i].kind != conditions[j].kind
  }

  /** An update keeps the time of the last change unless the status changes. */
  function Refreshed(was: Condition, c: Condition): Condition {
    if was.status == c.status then c.(since := was.since) else c
  }

  function With(conditions: seq<Condition>, c: Condition): seq<Condition> {
    if conditions == [] then [c]
    else if conditions[0].kind == c.kind then [Refreshed(conditions[0], c)] + conditions[1..]
    else [conditions[0]] + With(conditions[1..], c)
  }

  function Without(conditions: seq<Condition>, kind: string): seq<Condition> {
    if conditions == [] then []
    else (if conditions[0].kind == kind then [] else [conditions[0]]) + Without(conditions[1..], kind)
  }

  lemma {:induction false} FindWith(conditions: seq<Condition>, c: Condition, kind: string)
    ensures
      var was := Find(conditions, c.kind);
      Find(With(conditions, c), kind) ==
      if kind == c.kind then Some(if was.Some? then Refreshed(was.value, c) else c) else Find(conditions, kind)
  {
    if conditions == [] {
      assert [c][1..] == [];
    } else {
      FindWith(conditions[1..], c, kind);
      var rest := With(conditions[1..], c);
      assert ([conditions[0]] + rest)[1..] == rest;
      assert ([Refreshed(conditions[0], c)] + conditions[1..])[1..] == conditions[1..];
    }
  }

  lemma {:induction false} FindWithout(conditions: seq<Condition>, gone: string, kind: string)
    ensures Find(Without(conditions, gone), kind) == if kind == gone then None else Find(conditions, kind)
  {
    if conditions != [] {
      FindWithout(conditions[1..], gone, kind);
      var rest := Without(conditions[1..], gone);
      assert ([conditions[0]] + rest)[1..] == rest;
      assert [] + rest == rest;
    }
  }

  lemma {:induction false} FindNone(conditions: seq<Condition>, kind: string)
    ensures Find(conditions, kind).None? <==> forall i :: 0 <= i < |conditions| ==> conditions[i].kind != kind
  {
    if conditions != [] {
      FindNone(conditions[1..], kind);
      assert forall i :: 1 <= i < |conditions| ==> conditions[i] == conditions[1..][i - 1];
    }
  }

  lemma UniqueCons(c: Condition, rest: seq<Condition>)
    ensures Unique([c] + rest) <==> Unique(rest) && Find(rest, c.kind).None?
  {
    FindNone(rest, c.kind);
    var all := [c] + rest;
    assert forall i :: 0 <= i < |rest| ==> all[i + 1] == rest[i];
    if Unique(all) {
      forall i, j | 0 <= i < j < |rest| ensures rest[i].kind != rest[j].kind {
        assert all[i + 1].kind != all[j + 1].kind;
      }
      forall i | 0 <= i < |rest| ensures rest[i].kind != c.kind {
        assert all[0].kind != all[i + 1].kind;
      }
    }
  }

  lemma {:induction false} WithUnique(conditions: seq<Condition>, c: Condition)
    requires Unique(conditions)
    ensures Unique(With(conditions, c))
  {
    if conditions != [] {
      var first, rest := conditions[0], conditions[1..];
      assert conditions == [first] + rest;
      UniqueCons(first, rest);
      if first.kind == c.kind {
        UniqueCons(Refreshed(first, c), rest);
      } else {
        WithUnique(rest, c);
        FindWith(rest, c, first.kind);
        UniqueCons(first, With(rest, c));
      }
    }
  }

  lemma {:induction false} WithoutUnique(conditions: seq<Condition>, kind: string)
    requires Unique(conditions)
    ensures Unique(Without(conditions, kind))
  {
    if conditions != [] {
      var first, rest := conditions[0], conditions[1..];
      assert conditions == [first] + rest;
      UniqueCons(first, rest);
      WithoutUnique(rest, kind);
      FindWithout(rest, kind, first.kind);
      UniqueCons(first, Without(rest, kind));
      assert [] + Without(rest, kind) == Without(rest, kind);
    }
  }

  // ---------------------------------------------------------------- the loops that update the list

  lemma {:induction false} WithSkips(conditions: seq<Condition>, i: nat, c: Condition)
    requires i <= |conditions| && forall k :: 0 <= k < i ==> conditions[k].kind != c.kind
    ensures With(conditions, c) == conditions[..i] + With(conditions[i..], c)
  {
    if i == 0 {
      assert conditions[..0] == [] && conditions[0..] == conditions;
    } else {
      var rest := conditions[1..];
      WithSkips(rest, i - 1, c);
      assert rest[i - 1..] == conditions[i..] && [conditions[0]] + rest[..i - 1] == conditions[..i];
    }
  }

  /** Where the first entry of that type stands, it alone is rewritten. */
  lemma WithAt(conditions: seq<Condition>, i: nat, c: Condition)
    requires i < |conditions| && conditions[i].kind == c.kind
    requires forall k :: 0 <= k < i ==> conditions[k].kind != c.kind
    ensures With(conditions, c) == conditions[i := Refreshed(conditions[i], c)]
  {
    WithSkips(conditions, i, c);
    assert conditions[i..][1..] == conditions[i + 1..];
  }

  lemma WithNew(conditions: seq<Condition>, c: Condition)
    requires forall k :: 0 <= k < |conditions| ==> conditions[k].kind != c.kind
    ensures With(conditions, c) == conditions + [c]
  {
    WithSkips(conditions, |conditions|, c);
    assert conditions[..|conditions|] == conditions && conditions[|conditions|..] == [];
  }

  lemma {:induction false} WithoutLast(conditions: seq<Condition>, c: Condition, kind: string)
    ensures Without(conditions + [c], kind) == Without(conditions, kind) + if c.kind == kind then [] else [c]
  {
    var all := conditions + [c];
    var last := if c.kind == kind then [] else [c];
    if conditions == [] {
      assert all == [c] && all[1..] == [] && Without(all[1..], kind) == [];
    } else {
      var first := if conditions[0].kind == kind then [] else [conditions[0]];
      var rest := Without(conditions[1..], kind);
      assert all[0] == conditions[0] && all[1..] == conditions[1..] + [c];
      WithoutLast(conditions[1..], c, kind);
      assert Without(all, kind) == first + (rest + last);
      assert first + (rest + last) == (first + rest) + last;
    }
  }

  /** Setting a condition decides its own truth and no other's. */
  lemma TruthOfWith(conditions: seq<Condition>, c: Condition)
    requires Unique(conditions)
    ensures Unique(With(conditions, c))
    ensures forall kind :: IsTrue(With(conditions, c), kind) <==> if kind == c.kind then c.status else IsTrue(conditions, kind)
    ensures forall kind :: kind != c.kind ==> Find(With(conditions, c), kind) == Find(conditions, kind)
    ensures Find(With(conditions, c), c.kind).Some? && Find(With(conditions, c), c.kind).value.(since := c.since) == c
  {
    WithUnique(conditions, c);
    forall kind
      ensures IsTrue(With(conditions, c), kind) <==> if kind == c.kind then c.status else IsTrue(conditions, kind)
      ensures kind != c.kind ==> Find(With(conditions, c), kind) == Find(conditions, kind)
    {
      FindWith(conditions, c, kind);
    }
    FindWith(conditions, c, c.kind);
  }

  lemma TruthOfWithout(conditions: seq<Condition>, gone: string)
    requires Unique(conditions)
    ensures Unique(Without(conditions, gone))
    ensures forall kind :: IsTrue(Without(conditions, gone), kind) <==> kind != gone && IsTrue(conditions, kind)
    ensures forall kind :: Find(Without(conditions, gone), kind) == if kind == gone then None else Find(conditions, kind)
  {
    WithoutUnique(conditions, gone);
    forall kind
      ensures IsTrue(Without(conditions, gone), kind) <==> kind != gone && IsTrue(conditions, kind)
      ensures Find(Without(conditions, gone), kind) == if kind == gone then None else Find(conditions, kind)
    {
      FindWithout(conditions, gone, kind);
    }
  }

  /** Every condition on the list dates from that time and generation. */
  ghost predicate AllStamped(conditions: seq<Condition>, generation: int, now: int) {
    forall c :: c in conditions ==> c.generation == generation && c.since == now
  }

  lemma {:induction false} StampWith(conditions: seq<Condition>, c: Condition, generation: int, now: int)
    requires AllStamped(conditions, generation, now) && c.generation == generation && c.since == now
    ensures AllStamped(With(conditions, c), generation, now)
  {
    if conditions != [] {
      StampWith(conditions[1..], c, generation, now);
    }
  }

  lemma {:induction false} StampWithout(conditions: seq<Condition>, kind: string, generation: int, now: int)
    requires AllStamped(conditions, generation, now)
    ensures AllStamped(Without(conditions, kind), generation, now)
  {
    if conditions != [] {
      StampWithout(conditions[1..], kind, generation, now);
    }
  }

  /** The time of the last change moves exactly when the status does. */
  lemma SinceOfWith(conditions: seq<Condition>, c: Condition)
    requires Find(conditions, c.kind).Some?
    ensures
      var was, now := Find(conditions, c.kind).value, Find(With(conditions, c), c.kind);
      now.Some? && now.value.since == if now.value.status == was.status then was.since else c.since
  {
    FindWith(conditions, c, c.kind);
  }
}
