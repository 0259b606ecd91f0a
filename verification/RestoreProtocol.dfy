/**
 The restore protocol as a state machine. A pass of the restore controller is kept in flight as a
 program counter, so that every other actor may step between any two of its API calls.

 A name stands for an object in one namespace. A Job is keyed by its restore (the controller names it
 "<restore>-restore"), a lease and a workload by the source (LitestreamReplica) they belong to, and a
 ConfigMap "<name>-litestream" by <name>, which a source and a restore may share.
 */
module RestoreProtocol {
  import opened ApiTypes
  import opened LitestreamConfig
  import Mounts

  // ---------------------------------------------------------------- state

  datatype Mode = InPlace | ToPVC

  datatype Phase =
    Pending | AcquiringLock | Fencing | Restoring | Validating | Resuming | Completed | Failed

  /** spec.target, spec.mode and spec.sourceRef never change; the rest is metadata and status. */
  datatype Restore = Restore(
    mode: Mode,
    source: string,
    target: Option<Target>,
    finalizer: bool,
    deleting: bool,
    phase: Phase,
    jobNamed: bool,
    originalReplicas: Option<nat>,
    resolved: Target)

  datatype Source = Source(spec: ReplicaSpec, paused: bool)

  datatype Owner = OfSource | OfRestore

  datatype ConfigMap = ConfigMap(owner: Owner, text: string)

  datatype Workload = Workload(pod: PodSpec, replicas: Option<nat>, running: nat)

  datatype JobConditionType = JobComplete | JobFailed | JobOther

  datatype JobCondition = JobCondition(kind: JobConditionType, status: bool)

  datatype Job = Job(target: Target, conditions: seq<JobCondition>)

  datatype Verdict = Running | Succeeded | Broken

  /** Where a pass stands: the API call it is about to make, with the locals it still needs. */
  datatype Pc =
    | AtAddFinalizer
    | AtStoreTarget(target: Target, text: string)
    | AtReadReplicas
    | AtStatus(phase: Phase, nameJob: bool, replicas: Option<nat>)
    | AtAcquireLease(pause: bool)
    | AtPause
    | AtRepause
    | AtScaleDown(text: string)
    | AtJobConfig(target: Target, text: string)
    | AtCreateJob(target: Target)
    | AtResume
    | AtAwaitUnpaused
    | AtScaleUp(count: nat)
    | AtConclude(phase: Phase, release: bool, resume: bool, skipped: bool)
    | AtFinalize(release: bool, resume: bool)

  /** What users did to the source of a pass in flight: nothing that matters, undo the pause, or put the source back. */
  datatype Mark = Unmarked | PauseBroken | SourceBack

  datatype Busy = Busy(name: string, pc: Pc, mark: Mark)

  /** succeeded is a history variable: the restores whose own Job has been seen to reach Complete. */
  datatype World = World(
    restores: map<string, Restore>,
    sources: map<string, Source>,
    configs: map<string, ConfigMap>,
    leases: map<string, string>,
    workloads: map<string, Workload>,
    jobs: map<string, Job>,
    succeeded: set<string>,
    worker: Option<Busy>)

  // ---------------------------------------------------------------- readings

  /** spec.replicas, 1 when unset. */
  function Desired(wl: Workload): nat {
    if wl.replicas.None? then 1 else wl.replicas.value
  }

  /** The count a Pending pass records. */
  function CountNow(w: World, x: Restore): nat {
    if x.source in w.workloads then Desired(w.workloads[x.source]) else 0
  }

  /** The first Complete or Failed condition that is True decides a Job. */
  function VerdictOf(conditions: seq<JobCondition>): Verdict {
    if conditions == [] then Running
    else if conditions[0].kind == JobComplete && conditions[0].status then Succeeded
    else if conditions[0].kind == JobFailed && conditions[0].status then Broken
    else VerdictOf(conditions[1..])
  }

  predicate JobRuns(w: World, r: string) {
    r in w.jobs && VerdictOf(w.jobs[r].conditions) == Running
  }

  predicate Holds(w: World, r: string) {
    r in w.restores && w.restores[r].source in w.leases && w.leases[w.restores[r].source] == r
  }

  /** The application is fenced: no workload, or one that wants no pods and has none. */
  predicate Quiet(w: World, s: string) {
    s in w.workloads ==> Desired(w.workloads[s]) == 0 && w.workloads[s].running == 0
  }

  predicate PauseSeen(w: World, s: string) {
    s in w.sources && w.sources[s].paused && s in w.configs && w.configs[s].text == PAUSED_CONFIG
  }

  /** The count a Resuming pass scales to. */
  function ResumeCount(x: Restore): nat {
    if x.originalReplicas.None? then 1 else x.originalReplicas.value
  }

  predicate MidRestore(phase: Phase) {
    phase == Fencing || phase == Restoring || phase == Validating
  }

  predicate Terminal(phase: Phase) {
    phase == Completed || phase == Failed
  }

  // ---------------------------------------------------------------- the start of a pass

  const FAIL_RESTORE := AtStatus(Failed, false, None)

  /** readable: a Get of the workload does not fail for another reason than not-found. */
  function TargetOf(w: World, x: Restore, readable: bool): Option<Target> {
    if x.mode == ToPVC then
      if x.target.None? then None else Some(Target(x.target.value.pvc, x.target.value.path, ""))
    else if !readable || x.source !in w.workloads || x.source !in w.sources then None
    else
      match Mounts.InPlaceTarget(w.workloads[x.source].pod, w.sources[x.source].spec)
      case Err(_) => None
      case Ok(target) => Some(target)
  }

  function AfterTarget(x: Restore, target: Target, text: string): Pc {
    if x.mode == ToPVC then AtJobConfig(target, text) else AtReadReplicas
  }

  function EnterPending(w: World, x: Restore, text: string, readable: bool): Option<Pc> {
    match TargetOf(w, x, readable)
    case None => Some(FAIL_RESTORE)
    case Some(target) =>
      Some(if x.resolved.pvc == "" then AtStoreTarget(target, text) else AfterTarget(x, target, text))
  }

  function EnterAcquiringLock(w: World, r: string, x: Restore, src: Source): Option<Pc> {
    if x.mode == ToPVC then Some(AtStatus(Fencing, false, None))
    else if x.source !in w.leases then Some(AtAcquireLease(!src.paused))
    else if w.leases[x.source] != r then Some(AtStatus(AcquiringLock, false, None))
    else if !src.paused then Some(AtPause)
    else Some(AtStatus(Fencing, false, None))
  }

  function EnterFencing(w: World, x: Restore, src: Source, text: string): Option<Pc> {
    if !src.paused then Some(AtRepause)
    else if x.source !in w.configs || w.configs[x.source].text != PAUSED_CONFIG then None
    else Some(AtScaleDown(text))
  }

  function EnterRestoring(w: World, r: string, x: Restore, src: Source): Option<Pc> {
    if !x.jobNamed then None
    else if r !in w.jobs then Some(FailWithCleanup(x, src))
    else
      match VerdictOf(w.jobs[r].conditions)
      case Running => None
      case Succeeded => Some(AtStatus(if x.mode == ToPVC then Completed else Resuming, false, None))
      case Broken => Some(FailWithCleanup(x, src))
  }

  function FailWithCleanup(x: Restore, src: Source): Pc {
    if x.mode == ToPVC then AtStatus(Failed, false, None) else AtConclude(Failed, true, src.paused, false)
  }

  /** The call the pass makes first, or none: Reconcile up to its first write. */
  function Enter(w: World, r: string, readable: bool): Option<Pc>
    requires r in w.restores
  {
    var x := w.restores[r];
    if !x.finalizer then Some(AtAddFinalizer)
    else if x.source !in w.sources then
      if x.deleting then Some(AtFinalize(x.mode == InPlace, false)) else Some(FAIL_RESTORE)
    else
      var src := w.sources[x.source];
      var text := Render(src.spec);
      if x.deleting then Some(AtFinalize(x.mode == InPlace, x.mode == InPlace && !MidRestore(x.phase) && src.paused))
      else if Terminal(x.phase) then None
      else if !src.spec.backup.enabled || src.spec.backup.s3.None? then Some(FAIL_RESTORE)
      else
        match x.phase
        case Pending => EnterPending(w, x, text, readable)
        case AcquiringLock => EnterAcquiringLock(w, r, x, src)
        case Fencing => EnterFencing(w, x, src, text)
        case Restoring => EnterRestoring(w, r, x, src)
        case Validating => Some(AtStatus(if x.mode == ToPVC then Completed else Resuming, false, None))
        case Resuming => Some(if src.paused then AtResume else AtAwaitUnpaused)
        case Completed => None
        case Failed => None
  }

  function Begin(w: World, r: string, readable: bool): World {
    if w.worker.Some? || r !in w.restores then w
    else
      match Enter(w, r, readable)
      case None => w
      case Some(pc) => w.(worker := Some(Busy(r, pc, Unmarked)))
  }

  // ---------------------------------------------------------------- one call of a pass

  /**
   ok: the call at hand succeeds. readable: see TargetOf. released, resumed: the two best-effort
   calls of a cleanup, whose errors the controller ignores, take effect.
   */
  datatype Io = Io(ok: bool, readable: bool, released: bool, resumed: bool)

  const ALL_OK := Io(true, true, true, true)

  function Stop(w: World): World {
    w.(worker := None)
  }

  function Goto(w: World, b: Busy, pc: Pc): World {
    w.(worker := Some(b.(pc := pc)))
  }

  /** setStatus: the Job name is kept when none is given, originalReplicas is written at most once. */
  function SetStatus(x: Restore, phase: Phase, nameJob: bool, replicas: Option<nat>): Restore {
    x.(phase := phase,
       jobNamed := x.jobNamed || nameJob,
       originalReplicas := if x.originalReplicas.None? then replicas else x.originalReplicas)
  }

  function SetPaused(w: World, s: string, paused: bool): World {
    if s in w.sources then w.(sources := w.sources[s := w.sources[s].(paused := paused)]) else w
  }

  function Scale(w: World, s: string, n: nat): World
    requires s in w.workloads
  {
    w.(workloads := w.workloads[s := w.workloads[s].(replicas := Some(n))])
  }

  /** releaseRestoreLock: only a lease this restore holds is deleted. */
  function Release(w: World, r: string): World {
    if Holds(w, r) then w.(leases := w.leases - {w.restores[r].source}) else w
  }

  function PutRestore(w: World, r: string, x: Restore): World {
    w.(restores := w.restores[r := x])
  }

  /** An upper bound on the calls a pass still makes. */
  function CallsLeft(pc: Pc): (n: nat)
    ensures 1 <= n <= 9
  {
    match pc
    case AtStoreTarget(_, _) => 9
    case AtAcquireLease(_) => 9
    case AtReadReplicas => 8
    case AtPause => 8
    case AtScaleDown(_) => 8
    case AtJobConfig(_, _) => 7
    case AtCreateJob(_) => 6
    case AtResume => 5
    case AtAwaitUnpaused => 4
    case AtScaleUp(_) => 3
    case _ => 1
  }

  function WorkLeft(w: World): nat {
    if w.worker.None? then 0 else CallsLeft(w.worker.value.pc)
  }

  function ExecStatus(w: World, b: Busy, x: Restore, io: Io): (w': World)
    requires b.pc.AtStatus?
    ensures WorkLeft(w') < CallsLeft(b.pc)
    ensures w' == w.(restores := w'.restores, worker := w'.worker)
  {
    if !io.ok then Stop(w)
    else Stop(PutRestore(w, b.name, SetStatus(x, b.pc.phase, b.pc.nameJob, b.pc.replicas)))
  }

  function ExecStoreTarget(w: World, b: Busy, x: Restore, io: Io): (w': World)
    requires b.pc.AtStoreTarget?
    ensures WorkLeft(w') < CallsLeft(b.pc)
    ensures w' == w.(restores := w'.restores, worker := w'.worker)
  {
    if !io.ok then Stop(w)
    else Goto(PutRestore(w, b.name, x.(resolved := b.pc.target)), b, AfterTarget(x, b.pc.target, b.pc.text))
  }

  function ExecReadReplicas(w: World, b: Busy, x: Restore, io: Io): (w': World)
    requires b.pc.AtReadReplicas?
    ensures WorkLeft(w') < CallsLeft(b.pc)
    ensures w' == w.(worker := w'.worker)
  {
    if !io.readable then Goto(w, b, FAIL_RESTORE)
    else Goto(w, b, AtStatus(AcquiringLock, false, Some(CountNow(w, x))))
  }

  function ExecAcquireLease(w: World, b: Busy, x: Restore, io: Io): (w': World)
    requires b.pc.AtAcquireLease?
    ensures WorkLeft(w') < CallsLeft(b.pc)
    ensures w' == w.(leases := w'.leases, worker := w'.worker)
  {
    if !io.ok || x.source in w.leases then Stop(w)
    else Goto(w.(leases := w.leases[x.source := b.name]), b,
              if b.pc.pause then AtPause else AtStatus(Fencing, false, None))
  }

  function ExecPause(w: World, b: Busy, x: Restore, io: Io): (w': World)
    requires b.pc.AtPause? || b.pc.AtRepause?
    ensures WorkLeft(w') < CallsLeft(b.pc)
    ensures w' == w.(sources := w'.sources, worker := w'.worker)
  {
    if !io.ok || x.source !in w.sources then Stop(w)
    else if b.pc.AtPause? then Goto(SetPaused(w, x.source, true), b, AtStatus(Fencing, false, None))
    else Stop(SetPaused(w, x.source, true))
  }

  function ExecScaleDown(w: World, b: Busy, x: Restore, io: Io): (w': World)
    requires b.pc.AtScaleDown?
    ensures WorkLeft(w') < CallsLeft(b.pc)
    ensures w' == w.(workloads := w'.workloads, worker := w'.worker)
  {
    if !io.readable then Goto(w, b, FAIL_RESTORE)
    else if x.source !in w.workloads then Goto(w, b, AtJobConfig(x.resolved, b.pc.text))
    else if w.workloads[x.source].replicas != Some(0) && !io.ok then Stop(w)
    else
      var w1 := Scale(w, x.source, 0);
      if w1.workloads[x.source].running > 0 then Stop(w1) else Goto(w1, b, AtJobConfig(x.resolved, b.pc.text))
  }

  /** CreateOrUpdate of the Job's own ConfigMap; one that a source controls cannot be adopted. */
  function ExecJobConfig(w: World, b: Busy, io: Io): (w': World)
    requires b.pc.AtJobConfig?
    ensures WorkLeft(w') < CallsLeft(b.pc)
    ensures w' == w.(configs := w'.configs, worker := w'.worker)
  {
    if !io.ok || (b.name in w.configs && w.configs[b.name].owner == OfSource) then Stop(w)
    else Goto(w.(configs := w.configs[b.name := ConfigMap(OfRestore, b.pc.text)]), b, AtCreateJob(b.pc.target))
  }

  /** An existing Job is taken as is. */
  function ExecCreateJob(w: World, b: Busy, io: Io): (w': World)
    requires b.pc.AtCreateJob?
    ensures WorkLeft(w') < CallsLeft(b.pc)
    ensures w' == w.(jobs := w'.jobs, worker := w'.worker)
  {
    if !io.ok then Stop(w)
    else Goto(if b.name in w.jobs then w else w.(jobs := w.jobs[b.name := Job(b.pc.target, [])]), b,
              AtStatus(Restoring, true, None))
  }

  function ExecResume(w: World, b: Busy, x: Restore, io: Io): (w': World)
    requires b.pc.AtResume?
    ensures WorkLeft(w') < CallsLeft(b.pc)
    ensures w' == w.(sources := w'.sources, worker := w'.worker)
  {
    if !io.ok || x.source !in w.sources then Stop(w)
    else Goto(SetPaused(w, x.source, false), b, AtAwaitUnpaused)
  }

  function Concluding(x: Restore, skipped: bool): Pc {
    AtConclude(Completed, x.mode == InPlace, false, skipped)
  }

  function ExecAwaitUnpaused(w: World, b: Busy, x: Restore): (w': World)
    requires b.pc.AtAwaitUnpaused?
    ensures WorkLeft(w') < CallsLeft(b.pc)
    ensures w' == w.(worker := w'.worker)
  {
    if x.source !in w.configs || w.configs[x.source].text == PAUSED_CONFIG then Stop(w)
    else Goto(w, b, if ResumeCount(x) > 0 then AtScaleUp(ResumeCount(x)) else Concluding(x, false))
  }

  function ExecScaleUp(w: World, b: Busy, x: Restore, io: Io): (w': World)
    requires b.pc.AtScaleUp?
    ensures WorkLeft(w') < CallsLeft(b.pc)
    ensures w' == w.(workloads := w'.workloads, worker := w'.worker)
  {
    if !io.readable then Goto(w, b, Concluding(x, true))
    else if x.source !in w.workloads then Goto(w, b, Concluding(x, false))
    else if w.workloads[x.source].replicas != Some(b.pc.count) && !io.ok then Stop(w)
    else Goto(Scale(w, x.source, b.pc.count), b, Concluding(x, false))
  }

  /** The best-effort half of a cleanup: delete an own lease, clear the pause flag. */
  function Cleanup(w: World, r: string, s: string, release: bool, resume: bool, io: Io): World {
    var w1 := if release && io.released then Release(w, r) else w;
    if resume && io.resumed then SetPaused(w1, s, false) else w1
  }

  function ExecConclude(w: World, b: Busy, x: Restore, io: Io): (w': World)
    requires b.pc.AtConclude?
    ensures WorkLeft(w') < CallsLeft(b.pc)
    ensures w' == w.(restores := w'.restores, leases := w'.leases, sources := w'.sources, worker := w'.worker)
  {
    var w1 := Cleanup(w, b.name, x.source, b.pc.release, b.pc.resume, io);
    if !io.ok then Stop(w1) else Stop(PutRestore(w1, b.name, SetStatus(x, b.pc.phase, false, None)))
  }

  /** Removing the object removes what it owns: its Job, its ConfigMap and a lease it still holds. */
  function RemoveRestore(w: World, r: string): World {
    Release(w, r).(
      restores := w.restores - {r},
      jobs := w.jobs - {r},
      configs := if r in w.configs && w.configs[r].owner == OfRestore then w.configs - {r} else w.configs,
      succeeded := w.succeeded - {r})
  }

  function ExecFinalize(w: World, b: Busy, x: Restore, io: Io): (w': World)
    requires b.pc.AtFinalize?
    ensures WorkLeft(w') < CallsLeft(b.pc)
  {
    var w1 := Cleanup(w, b.name, x.source, b.pc.release, b.pc.resume, io);
    if !io.ok then Stop(w1) else Stop(RemoveRestore(w1, b.name))
  }

  /** The pass makes the call it stands at; every call brings it closer to its end. */
  function Exec(w: World, io: Io): (w': World)
    requires w.worker.Some?
    ensures WorkLeft(w') < WorkLeft(w)
  {
    var b := w.worker.value;
    if b.name !in w.restores then Stop(w)
    else
      var x := w.restores[b.name];
      match b.pc
      case AtAddFinalizer => if io.ok then Stop(PutRestore(w, b.name, x.(finalizer := true))) else Stop(w)
      case AtStoreTarget(_, _) => ExecStoreTarget(w, b, x, io)
      case AtReadReplicas => ExecReadReplicas(w, b, x, io)
      case AtStatus(_, _, _) => ExecStatus(w, b, x, io)
      case AtAcquireLease(_) => ExecAcquireLease(w, b, x, io)
      case AtPause => ExecPause(w, b, x, io)
      case AtRepause => ExecPause(w, b, x, io)
      case AtScaleDown(_) => ExecScaleDown(w, b, x, io)
      case AtJobConfig(_, _) => ExecJobConfig(w, b, io)
      case AtCreateJob(_) => ExecCreateJob(w, b, io)
      case AtResume => ExecResume(w, b, x, io)
      case AtAwaitUnpaused => ExecAwaitUnpaused(w, b, x)
      case AtScaleUp(_) => ExecScaleUp(w, b, x, io)
      case AtConclude(_, _, _, _) => ExecConclude(w, b, x, io)
      case AtFinalize(_, _) => ExecFinalize(w, b, x, io)
  }

  // ---------------------------------------------------------------- everything that can happen

  datatype Step =
    | StartPass(name: string, readable: bool)
    | Call(io: Io)
    | Crash
    | Replicate(source: string)
    | Drain(source: string)
    | Grow(source: string)
    | JobReports(name: string, conditions: seq<JobCondition>)
    | JobGone(name: string)
    | CreateRestore(name: string, mode: Mode, source: string, target: Option<Target>)
    | DeleteRestore(name: string)
    | PutSource(source: string, spec: ReplicaSpec, paused: bool)
    | DropSource(source: string)
    | DropConfig(source: string)
    | PutWorkload(source: string, workload: Option<Workload>)

  /** reconcileLitestreamConfig: the pause flag is mirrored into the source's ConfigMap. */
  function ReplicaPass(w: World, s: string): World {
    if s !in w.sources || (s in w.configs && w.configs[s].owner == OfRestore) then w
    else
      var text := if w.sources[s].paused then PAUSED_CONFIG else Render(w.sources[s].spec);
      w.(configs := w.configs[s := ConfigMap(OfSource, text)])
  }

  function SetRunning(w: World, s: string, n: nat): World
    requires s in w.workloads
  {
    w.(workloads := w.workloads[s := w.workloads[s].(running := n)])
  }

  function DrainOne(w: World, s: string): World {
    if s in w.workloads && w.workloads[s].running > Desired(w.workloads[s])
    then SetRunning(w, s, w.workloads[s].running - 1) else w
  }

  function GrowOne(w: World, s: string): World {
    if s in w.workloads && w.workloads[s].running < Desired(w.workloads[s])
    then SetRunning(w, s, w.workloads[s].running + 1) else w
  }

  /** An undecided Job reports any conditions; a decided one keeps its verdict. */
  function ReportJob(w: World, r: string, conditions: seq<JobCondition>): World {
    if !JobRuns(w, r) then w
    else w.(jobs := w.jobs[r := w.jobs[r].(conditions := conditions)],
            succeeded := if VerdictOf(conditions) == Succeeded then w.succeeded + {r} else w.succeeded)
  }

  const NO_TARGET := Target("", "", "")

  function FreshRestore(mode: Mode, source: string, target: Option<Target>): Restore {
    Restore(mode, source, target, false, false, Pending, false, None, NO_TARGET)
  }

  /** A restore that carries the finalizer stays until the controller lets it go. */
  function Delete(w: World, r: string): World {
    if r !in w.restores then w
    else if w.restores[r].finalizer then PutRestore(w, r, w.restores[r].(deleting := true))
    else RemoveRestore(w, r)
  }

  /** After a user's write to s: the first one to undo the pause, or to put a missing source back, marks the pass. */
  function MarkOf(w: World, b: Busy, s: string, w': World): Mark {
    if b.mark != Unmarked || b.name !in w.restores || w.restores[b.name].source != s then b.mark
    else if s !in w.sources && s in w'.sources then SourceBack
    else if PauseSeen(w, s) && !PauseSeen(w', s) then PauseBroken
    else Unmarked
  }

  function Marked(w: World, s: string, w': World): World {
    if w.worker.None? then w'
    else w'.(worker := Some(w.worker.value.(mark := MarkOf(w, w.worker.value, s, w'))))
  }

  /** Removing a source removes the ConfigMap it owns. */
  function RemoveSource(w: World, s: string): World {
    w.(sources := w.sources - {s},
       configs := if s in w.configs && w.configs[s].owner == OfSource then w.configs - {s} else w.configs)
  }

  function Next(w: World, step: Step): World {
    match step
    case StartPass(r, readable) => Begin(w, r, readable)
    case Call(io) => if w.worker.Some? then Exec(w, io) else w
    case Crash => Stop(w)
    case Replicate(s) => ReplicaPass(w, s)
    case Drain(s) => DrainOne(w, s)
    case Grow(s) => GrowOne(w, s)
    case JobReports(r, conditions) => ReportJob(w, r, conditions)
    case JobGone(r) => w.(jobs := w.jobs - {r})
    case CreateRestore(r, mode, s, target) =>
      if r in w.restores then w else PutRestore(w, r, FreshRestore(mode, s, target))
    case DeleteRestore(r) => Delete(w, r)
    case PutSource(s, spec, paused) => Marked(w, s, w.(sources := w.sources[s := Source(spec, paused)]))
    case DropSource(s) => Marked(w, s, RemoveSource(w, s))
    case DropConfig(s) => Marked(w, s, w.(configs := w.configs - {s}))
    case PutWorkload(s, wl) =>
      w.(workloads := if wl.None? then w.workloads - {s} else w.workloads[s := wl.value])
  }

  /** The pass deleted its lease but the write that should follow it failed. */
  predicate Torn(w: World, io: Io) {
    && w.worker.Some?
    && io.released && !io.ok
    && ((w.worker.value.pc.AtConclude? && w.worker.value.pc.release) ||
        (w.worker.value.pc.AtFinalize? && w.worker.value.pc.release))
    && Holds(w, w.worker.value.name)
  }

  /**
   The two assumptions on runs: a lease release and the write after it are not torn apart, and while a
   source's lease is held nobody but the operator replaces, adds or removes its workload.
   */
  predicate Allowed(w: World, step: Step) {
    match step
    case Call(io) => !Torn(w, io)
    case PutWorkload(s, _) => s !in w.leases
    case _ => true
  }

  predicate Initial(w: World) {
    && w.worker.None?
    && w.leases == map[] && w.jobs == map[] && w.succeeded == {}
    && (forall r :: r in w.restores ==>
          var x := w.restores[r]; x == FreshRestore(x.mode, x.source, x.target))
    && (forall k :: k in w.configs ==> w.configs[k].owner == OfSource)
  }

  ghost predicate IsRun(ws: seq<World>, steps: seq<Step>) {
    && |ws| == |steps| + 1
    && Initial(ws[0])
    && forall i :: 0 <= i < |steps| ==> Allowed(ws[i], steps[i]) && ws[i + 1] == Next(ws[i], steps[i])
  }

  // ---------------------------------------------------------------- whole passes

  /** The pass in flight, given what its next calls come to; the process dies when they run out. */
  function Drive(w: World, outcomes: seq<Io>): World
    decreases |outcomes|
  {
    if w.worker.None? then w
    else if outcomes == [] then Stop(w)
    else Drive(Exec(w, outcomes[0]), outcomes[1..])
  }

  /** The pass in flight, run to its end with every call succeeding. */
  function Finish(w: World): World
    decreases WorkLeft(w)
  {
    if w.worker.None? then w else Finish(Exec(w, ALL_OK))
  }

  /** One complete pass over restore r. */
  function Pass(w: World, r: string): World {
    Finish(Begin(w, r, true))
  }
}
