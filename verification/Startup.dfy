/**
 Starting an injected pod. Init containers run in order, each again until it exits 0; the pod may be restarted at
 any time, with or without its disk. While the application runs, database and archive are out of our hands.
 */
module Startup {
  import opened ApiTypes
  import opened Injection
  import opened Mounts

  datatype Content = Missing | Original | Restored | Bootstrapped

  /** Init container `pc` is next; untouched: the application has not run since the last (re)start. */
  datatype State = State(pc: nat, content: Content, archive: bool, untouched: bool)

  /** ok: the program the script calls succeeds. leaves: a failed sqlite3 leaves a file behind. */
  datatype Outcome = Outcome(ok: bool, leaves: bool)

  datatype Event = RunInit(outcome: Outcome) | Restart(lost: bool) | Live(content: Content, archive: bool)

  // ---------------------------------------------------------------- the scripts

  /** The restore script asks for the archive only when there is no file; a failed restore leaves none. */
  function RunRestore(content: Content, archive: bool, o: Outcome): (bool, Content) {
    if content != Missing then (true, content)
    else if !o.ok then (false, Missing)
    else (true, if archive then Restored else Missing)
  }

  /** The bootstrap script ends in an echo, so it exits 0 even when sqlite3 fails. */
  function RunBootstrap(content: Content, o: Outcome): (bool, Content) {
    if content != Missing then (true, content)
    else (true, if o.ok || o.leaves then Bootstrapped else Missing)
  }

  function RunScript(program: Program, s: State, o: Outcome): (bool, Content) {
    match program
    case RestoreIfMissing(_) => RunRestore(s.content, s.archive, o)
    case BootstrapIfMissing(_) => RunBootstrap(s.content, o)
    case Command(_) => (o.ok, s.content)
  }

  // ---------------------------------------------------------------- runs

  function Step(inits: seq<Container>, s: State, e: Event): State {
    match e
    case RunInit(o) =>
      if s.pc >= |inits| then s else
        var (ok, content) := RunScript(inits[s.pc].program, s, o);
        s.(pc := if ok then s.pc + 1 else s.pc, content := content)
    case Restart(lost) => State(0, if lost then Missing else s.content, s.archive, true)
    case Live(content, archive) =>
      if s.pc < |inits| then s else s.(content := content, archive := archive, untouched := false)
  }

  ghost predicate IsRun(inits: seq<Container>, ss: seq<State>, es: seq<Event>) {
    && |ss| == |es| + 1
    && ss[0].pc == 0 && ss[0].untouched
    && forall i :: 0 <= i < |es| ==> ss[i + 1] == Step(inits, ss[i], es[i])
  }

  /** The event feeds the bootstrap SQL to sqlite3. */
  predicate AppliesSql(inits: seq<Container>, s: State, e: Event) {
    e.RunInit? && s.pc < |inits| && inits[s.pc].program.BootstrapIfMissing? && s.content == Missing
  }

  /** The application is just being let in. */
  predicate Starting(inits: seq<Container>, s: State) {
    s.pc == |inits| && s.untouched
  }

  /** Bootstrap SQL only ever meets a database that exists neither here nor in the archive. */
  ghost predicate BootstrapSafe(inits: seq<Container>) {
    forall ss: seq<State>, es: seq<Event>, i: int | IsRun(inits, ss, es) && 0 <= i < |es| && AppliesSql(inits, ss[i], es[i]) :: !ss[i].archive
  }

  /** The application never starts without its database while the archive has one. */
  ghost predicate StartSafe(inits: seq<Container>) {
    forall ss: seq<State>, es: seq<Event>, i: int | IsRun(inits, ss, es) && 0 <= i < |ss| && Starting(inits, ss[i]) ::
      ss[i].content != Missing || !ss[i].archive
  }

  // ---------------------------------------------------------------- with a restore in front

  lemma {:induction false} RestoreFirst(inits: seq<Container>, ss: seq<State>, es: seq<Event>, i: nat)
    requires inits != [] && inits[0].program.RestoreIfMissing? && IsRun(inits, ss, es) && i < |ss|
    ensures ss[i].pc > 0 && ss[i].untouched ==> ss[i].content != Missing || !ss[i].archive
    ensures ss[i].pc < |inits| ==> ss[i].untouched
  {
    if i > 0 {
      RestoreFirst(inits, ss, es, i - 1);
      assert ss[i] == Step(inits, ss[i - 1], es[i - 1]);
    }
  }

  lemma RestoreFirstIsSafe(inits: seq<Container>)
    requires inits != [] && inits[0].program.RestoreIfMissing?
    ensures BootstrapSafe(inits) && StartSafe(inits)
  {
    forall ss: seq<State>, es: seq<Event>, i: int | IsRun(inits, ss, es) && 0 <= i < |ss|
      ensures ss[i].pc > 0 && ss[i].untouched ==> ss[i].content != Missing || !ss[i].archive
      ensures ss[i].pc < |inits| ==> ss[i].untouched
    {
      RestoreFirst(inits, ss, es, i);
    }
  }

  // ---------------------------------------------------------------- without one

  const FAILS := Outcome(false, false)
  const WORKS := Outcome(true, true)

  /** From an empty disk beside a full archive, straight up to init container n. */
  function StraightTo(n: nat): (r: (seq<State>, seq<Event>))
    ensures |r.0| == n + 1 && |r.1| == n
    ensures forall i :: 0 <= i <= n ==> r.0[i] == State(i, Missing, true, true)
    ensures forall i :: 0 <= i < n ==> r.1[i] == RunInit(WORKS)
  {
    (seq(n + 1, i requires 0 <= i <= n => State(i, Missing, true, true)), seq(n, i => RunInit(WORKS)))
  }

  /** Commands alone never look at the archive. */
  lemma StraightRun(inits: seq<Container>, n: nat)
    requires n <= |inits| && forall i :: 0 <= i < n ==> inits[i].program.Command?
    ensures IsRun(inits, StraightTo(n).0, StraightTo(n).1)
  {
  }

  lemma NoRestoreUnsafeStart(inits: seq<Container>, n: nat)
    requires n <= |inits| <= n + 1 && forall i :: 0 <= i < n ==> inits[i].program.Command?
    requires |inits| == n + 1 ==> inits[n].program.BootstrapIfMissing?
    ensures !StartSafe(inits)
  {
    StraightRun(inits, n);
    var (ss, es) := StraightTo(n);
    if |inits| == n {
      assert Starting(inits, ss[n]);
    } else {
      var ss', es' := ss + [State(n + 1, Missing, true, true)], es + [RunInit(FAILS)];
      forall i | 0 <= i < |es'| ensures ss'[i + 1] == Step(inits, ss'[i], es'[i]) {
        if i < n {
          assert ss[i + 1] == Step(inits, ss[i], es[i]);
        }
      }
      assert IsRun(inits, ss', es') && Starting(inits, ss'[n + 1]);
    }
  }

  lemma NoRestoreUnsafeBootstrap(inits: seq<Container>, n: nat)
    requires |inits| == n + 1 && forall i :: 0 <= i < n ==> inits[i].program.Command?
    requires inits[n].program.BootstrapIfMissing?
    ensures !BootstrapSafe(inits)
  {
    StraightRun(inits, n);
    var (ss, es) := StraightTo(n);
    var ss', es' := ss + [Step(inits, ss[n], RunInit(WORKS))], es + [RunInit(WORKS)];
    forall i | 0 <= i < |es'| ensures ss'[i + 1] == Step(inits, ss'[i], es'[i]) {
      if i < n {
        assert ss[i + 1] == Step(inits, ss[i], es[i]);
      }
    }
    assert IsRun(inits, ss', es') && AppliesSql(inits, ss'[n], es'[n]);
  }

  lemma CommandsNeverBootstrap(inits: seq<Container>)
    requires forall i :: 0 <= i < |inits| ==> inits[i].program.Command?
    ensures BootstrapSafe(inits)
  {
  }

  // ---------------------------------------------------------------- what becomes of the database

  /** An init container never touches a database that is there. */
  lemma DatabaseKept(inits: seq<Container>, s: State, o: Outcome)
    ensures s.content != Missing ==> Step(inits, s, RunInit(o)).content == s.content
    ensures Step(inits, s, RunInit(o)).archive == s.archive && Step(inits, s, RunInit(o)).untouched == s.untouched
  {
  }

  /**
   Where a database comes from: out of the archive by a restore that succeeds, or from the SQL; a failed restore leaves
   none and holds the pod where it is, and a restore that finds no archive lets it go on without.
   */
  lemma DatabaseComesFrom(inits: seq<Container>, s: State, o: Outcome)
    requires s.pc < |inits| && s.content == Missing
    ensures
      var s' := Step(inits, s, RunInit(o));
      match inits[s.pc].program
      case RestoreIfMissing(_) =>
        && (s'.content == Restored <==> o.ok && s.archive) && (s'.content == Missing <==> !(o.ok && s.archive))
        && (s'.pc == s.pc + 1 <==> o.ok) && (s'.pc == s.pc <==> !o.ok)
      case BootstrapIfMissing(_) =>
        && s'.pc == s.pc + 1 && (s'.content == Bootstrapped <==> o.ok || o.leaves) && (s'.content == Missing <==> !(o.ok || o.leaves))
      case Command(_) => s'.content == Missing && (s'.pc == s.pc + 1 <==> o.ok) && (s'.pc == s.pc <==> !o.ok)
  {
  }

  // ---------------------------------------------------------------- the injected pod

  ghost predicate OwnInitsOnly(pod: PodValue) {
    forall i :: 0 <= i < |pod.spec.initContainers| ==> pod.spec.initContainers[i].program.Command?
  }

  lemma InitsOf(pod: PodValue, db: Replica, m: ResolvedMount)
    requires OwnInitsOnly(pod)
    ensures
      var inits := Injected(pod, db, m).spec.initContainers;
      var n := |pod.spec.initContainers|;
      && (RestoresOnStart(db.spec) ==> inits != [] && inits[0].program.RestoreIfMissing?)
      && (!RestoresOnStart(db.spec) ==>
            && |inits| == (if Bootstraps(db.spec) then n + 1 else n)
            && (forall i :: 0 <= i < n ==> inits[i].program.Command?)
            && (Bootstraps(db.spec) ==> inits[n].program.BootstrapIfMissing?))
  {
  }

  /**
   Startup safety of an injected pod, over every run: the application never starts beside an unread archive exactly
   when backup is enabled with automatic recovery; bootstrap SQL never overrides an archive exactly when that holds
   or there is no bootstrap SQL.
   */
  lemma StartupSafeIff(pod: PodValue, db: Replica, m: ResolvedMount)
    requires OwnInitsOnly(pod)
    ensures
      StartSafe(Injected(pod, db, m).spec.initContainers) <==>
      db.spec.backup.enabled && db.spec.recoveryMode == "automatic"
    ensures
      BootstrapSafe(Injected(pod, db, m).spec.initContainers) <==>
      (db.spec.backup.enabled && db.spec.recoveryMode == "automatic") || db.spec.bootstrap.sql == ""
  {
    var inits := Injected(pod, db, m).spec.initContainers;
    var n := |pod.spec.initContainers|;
    InitsOf(pod, db, m);
    if RestoresOnStart(db.spec) {
      RestoreFirstIsSafe(inits);
    } else {
      NoRestoreUnsafeStart(inits, n);
      if Bootstraps(db.spec) {
        NoRestoreUnsafeBootstrap(inits, n);
      } else {
        CommandsNeverBootstrap(inits);
      }
    }
  }
}
