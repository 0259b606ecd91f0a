/**
 Whose file is it? Where a path lands in a container is decided by the container's mount table, component by
 component. The application, the injected containers and the restore Job each have a table of their own.
 */
module SameFile {
  import opened ApiTypes
  import opened Text
  import opened Paths
  import opened Mounts
  import opened LitestreamConfig
  import opened Injection

  // ---------------------------------------------------------------- mount tables

  /** What Kubernetes demands of a container's mounts: no path twice. Paths are taken to be clean. */
  ghost predicate MountTable(mounts: seq<VolumeMount>) {
    && (forall i :: 0 <= i < |mounts| ==> Clean(mounts[i].mountPath))
    && (forall i, j :: 0 <= i < j < |mounts| ==> mounts[i].mountPath != mounts[j].mountPath)
  }

  function At(mounts: seq<VolumeMount>, i: nat): seq<string>
    requires i < |mounts|
  {
    Parts(mounts[i].mountPath)
  }

  /** The deepest mount point above a path serves it; a path mounted over twice is served by none. */
  ghost predicate Serves(mounts: seq<VolumeMount>, parts: seq<string>, i: nat) {
    && i < |mounts| && At(mounts, i) <= parts
    && (forall j :: 0 <= j < |mounts| && j != i && At(mounts, j) <= parts ==> |At(mounts, j)| < |At(mounts, i)|)
  }

  datatype Place = Place(volume: string, subPath: string, rest: seq<string>)

  ghost predicate LandsAt(mounts: seq<VolumeMount>, parts: seq<string>, place: Place) {
    exists i: nat :: Serves(mounts, parts, i) && place == PlaceBy(mounts, parts, i)
  }

  ghost function PlaceBy(mounts: seq<VolumeMount>, parts: seq<string>, i: nat): Place
    requires Serves(mounts, parts, i)
  {
    Place(mounts[i].volume, mounts[i].subPath, parts[|At(mounts, i)|..])
  }

  lemma ServerIsUnique(mounts: seq<VolumeMount>, parts: seq<string>, i: nat, j: nat)
    requires Serves(mounts, parts, i) && Serves(mounts, parts, j)
    ensures i == j
  {
  }

  // ---------------------------------------------------------------- the search and the table

  lemma CoversIff(mount: string, path: string)
    requires Clean(mount) && Clean(path)
    ensures TextCovers(mount, path) <==> Parts(mount) <= Parts(path) && (Parts(mount) == [] ==> Parts(path) == [])
  {
    if Parts(mount) != [] {
      CoversIffPrefix(mount, path);
    } else if Parts(path) != [] {
      var parts := Parts(path);
      assert path[1] == parts[0][0] && Plain(parts[0]);
      assert parts[0][0] in parts[0];
      assert (mount + "/")[1] == '/';
    }
  }

  lemma RootIsShortest(parts: seq<string>)
    requires AllPlain(parts) && parts != []
    ensures |Joined(parts)| > 1
  {
    assert Plain(parts[0]);
  }

  lemma CleanIsNotEmpty(path: string)
    requires Clean(path)
    ensures path != ""
  {
    JoinedLength(Parts(path));
  }

  lemma DeeperIsLonger(a: string, b: string, parts: seq<string>)
    requires Clean(a) && Clean(b) && Parts(a) <= parts && Parts(b) <= parts && |Parts(a)| < |Parts(b)|
    ensures |a| < |b|
  {
    RootIsShortest(Parts(b));
    LongerText(Parts(a), Parts(b), parts);
  }

  lemma SamePartsSamePath(a: string, b: string)
    requires Clean(a) && Clean(b) && Parts(a) == Parts(b)
    ensures a == b
  {
  }

  lemma SameDepthSamePath(a: string, b: string, parts: seq<string>)
    requires Clean(a) && Clean(b) && Parts(a) <= parts && Parts(b) <= parts && |Parts(a)| == |Parts(b)|
    ensures a == b
  {
    assert Parts(a) == parts[..|Parts(a)|];
    assert Parts(b) == parts[..|Parts(b)|];
    SamePartsSamePath(a, b);
  }

  /** Text length orders the clean prefixes of one path as their depth does. */
  lemma LengthIsDepth(a: string, b: string, parts: seq<string>)
    requires Clean(a) && Clean(b) && Parts(a) <= parts && Parts(b) <= parts
    ensures |a| < |b| <==> |Parts(a)| < |Parts(b)|
    ensures |a| == |b| <==> a == b
  {
    if |Parts(a)| < |Parts(b)| {
      DeeperIsLonger(a, b, parts);
    } else if |Parts(b)| < |Parts(a)| {
      DeeperIsLonger(b, a, parts);
    } else {
      SameDepthSamePath(a, b, parts);
    }
  }

  /** No mount path has a dot component; redundant slashes are allowed. */
  ghost predicate Dotless(mounts: seq<VolumeMount>) {
    forall i :: 0 <= i < |mounts| ==> AllPlain(Parts(mounts[i].mountPath))
  }

  /** What a search takes for a cover of a clean path is a clean mount above it. */
  lemma CoverIsAbove(mount: VolumeMount, path: string)
    requires Clean(path) && mount.mountPath != "" && Covers(mount, path)
    ensures Clean(mount.mountPath) && Parts(mount.mountPath) <= Parts(path)
    ensures Parts(mount.mountPath) == [] ==> Parts(path) == []
  {
    CoverIsClean(mount.mountPath, path);
    CoversIff(mount.mountPath, path);
  }

  lemma CleanServerIsLongest(mounts: seq<VolumeMount>, path: string, i: nat)
    requires Clean(path) && Serves(mounts, Parts(path), i) && Clean(mounts[i].mountPath)
    requires At(mounts, i) == [] ==> Parts(path) == []
    ensures IsLongest(mounts, path, i)
  {
    var parts := Parts(path);
    CoversIff(mounts[i].mountPath, path);
    CleanIsNotEmpty(mounts[i].mountPath);
    forall j | 0 <= j < |mounts| && j != i && Covers(mounts[j], path)
      ensures |mounts[j].mountPath| < |mounts[i].mountPath|
    {
      if mounts[j].mountPath != "" {
        CoverIsAbove(mounts[j], path);
        assert At(mounts, j) <= parts;
        DeeperIsLonger(mounts[j].mountPath, mounts[i].mountPath, parts);
      }
    }
  }

  /**
   On any mounts without dot components: both longest-prefix searches find the mount that serves a clean path exactly
   when that mount's path is clean, and not the root above a deeper path.
   */
  lemma SearchFindsServerIff(mounts: seq<VolumeMount>, path: string, i: nat)
    requires Dotless(mounts) && Clean(path) && Serves(mounts, Parts(path), i)
    ensures
      LongestMount(mounts, path) == Some(i) <==>
      Clean(mounts[i].mountPath) && (At(mounts, i) == [] ==> Parts(path) == [])
  {
    LongestIsUnique(mounts, path, i);
    if IsLongest(mounts, path, i) {
      CoverIsAbove(mounts[i], path);
    } else if Clean(mounts[i].mountPath) && (At(mounts, i) == [] ==> Parts(path) == []) {
      CleanServerIsLongest(mounts, path, i);
    }
  }

  /** On a table of clean paths what is found serves. */
  lemma FoundServes(mounts: seq<VolumeMount>, path: string, i: nat)
    requires MountTable(mounts) && Clean(path) && LongestMount(mounts, path) == Some(i)
    ensures Serves(mounts, Parts(path), i)
  {
    var parts := Parts(path);
    LongestIsUnique(mounts, path, i);
    CoversIff(mounts[i].mountPath, path);
    forall j | 0 <= j < |mounts| && j != i && At(mounts, j) <= parts
      ensures |At(mounts, j)| < |At(mounts, i)|
    {
      CoversIff(mounts[j].mountPath, path);
      LengthIsDepth(mounts[j].mountPath, mounts[i].mountPath, parts);
    }
  }

  function TwoMounts(top: string, deep: string): seq<VolumeMount> {
    [VolumeMount("outer", top, "", false), VolumeMount("inner", deep, "", false)]
  }

  /** The failing input: a mount at /data/db/, with its slash, serves /data/db; the searches settle on /data. */
  lemma SearchMissesServer(top: seq<string>, below: seq<string>)
    requires AllPlain(top + below) && top != [] && below != []
    ensures
      var path := Joined(top + below);
      var mounts := TwoMounts(Joined(top), path + "/");
      Clean(path) && Dotless(mounts) && Serves(mounts, Parts(path), 1) && LongestMount(mounts, path) == Some(0)
  {
    var parts := top + below;
    var path := Joined(parts);
    var mounts := TwoMounts(Joined(top), path + "/");
    TopIsPlain(top, below);
    CleanIsJoined(top);
    CleanIsJoined(parts);
    PartsAppend(path, "");
    assert path + "/" + "" == path + "/";
    assert At(mounts, 0) == top && At(mounts, 1) == parts;
    CoversIff(Joined(top), path);
    CleanIsNotEmpty(Joined(top));
    assert Covers(mounts[0], path);
    assert !Covers(mounts[1], path);
    LongestIsUnique(mounts, path, 0);
  }

  lemma TopIsPlain(top: seq<string>, below: seq<string>)
    requires AllPlain(top + below)
    ensures AllPlain(top)
  {
    assert forall i :: 0 <= i < |top| ==> (top + below)[i] == top[i];
  }

  // ---------------------------------------------------------------- the injected containers

  ghost predicate SameDirectory(a: seq<VolumeMount>, b: seq<VolumeMount>, parts: seq<string>) {
    exists place :: LandsAt(a, parts, place) && LandsAt(b, parts, place)
  }

  /** A second mount hides the first one's view of a path when it lies above the path and not above the first. */
  ghost predicate Hides(extra: VolumeMount, data: VolumeMount, parts: seq<string>) {
    Parts(extra.mountPath) <= parts && |Parts(data.mountPath)| <= |Parts(extra.mountPath)|
  }

  lemma OwnMountServes(data: VolumeMount, extra: VolumeMount, parts: seq<string>)
    requires Parts(data.mountPath) <= parts
    ensures Serves([data, extra], parts, 0) <==> !Hides(extra, data, parts)
    ensures Serves([data, extra], parts, 1) ==> |Parts(data.mountPath)| < |Parts(extra.mountPath)|
  {
    var mounts := [data, extra];
    assert At(mounts, 0) == Parts(data.mountPath) && At(mounts, 1) == Parts(extra.mountPath);
  }

  /**
   With the mount found serving the directory, an injected container sees the directory where the application does
   exactly when its second mount does not hide it.
   */
  lemma InjectedSeesDirectory(app: seq<VolumeMount>, path: string, i: nat, extra: VolumeMount)
    requires LongestMount(app, path) == Some(i) && Serves(app, Parts(path), i)
    ensures
      var data := DataMount(ResolvedMount(app[i].volume, app[i].mountPath, app[i].subPath));
      SameDirectory(app, [data, extra], Parts(path)) <==> !Hides(extra, data, Parts(path))
  {
    var parts := Parts(path);
    var data := DataMount(ResolvedMount(app[i].volume, app[i].mountPath, app[i].subPath));
    var own := [data, extra];
    OwnMountServes(data, extra, parts);
    if !Hides(extra, data, parts) {
      assert PlaceBy(app, parts, i) == PlaceBy(own, parts, 0);
      assert LandsAt(app, parts, PlaceBy(app, parts, i)) && LandsAt(own, parts, PlaceBy(own, parts, 0));
    }
    if SameDirectory(app, own, parts) {
      var place :| LandsAt(app, parts, place) && LandsAt(own, parts, place);
      var k: nat :| Serves(app, parts, k) && place == PlaceBy(app, parts, k);
      var j: nat :| Serves(own, parts, j) && place == PlaceBy(own, parts, j);
      ServerIsUnique(app, parts, i, k);
      assert |place.rest| == |parts| - |Parts(data.mountPath)| == |parts| - |At(own, j)|;
    }
  }

  /** What every container of an injection has for its two mounts. */
  lemma InjectedMounts(pod: PodValue, db: Replica, m: ResolvedMount, c: Container)
    requires c == Sidecar(db.spec, m) || c == RestoreInit(db.spec, m) || c == BootstrapInit(db.spec, m)
    ensures c.mounts == [DataMount(m), if c.name == BOOTSTRAP_CONTAINER then BOOTSTRAP_MOUNT else CONFIG_MOUNT]
  {
  }

  /**
   Same file, first half: with a database path outside /etc/litestream and /bootstrap whose serving mount is found, the
   sidecar and both init containers of an injected pod see the directory where the application container sees it.
   */
  lemma InjectionSeesDatabase(pod: PodValue, db: Replica, m: ResolvedMount, k: nat, c: Container, i: nat)
    requires FindMount(pod.spec.containers, db.spec.databasePath, db.spec.container) == Ok(m)
    requires Settles(pod.spec.containers, db.spec.databasePath, db.spec.container, k, i)
    requires Serves(pod.spec.containers[k].mounts, Parts(db.spec.databasePath), i)
    requires !(Parts(CONFIG_PATH) <= Parts(db.spec.databasePath)) && !(Parts(BOOTSTRAP_PATH) <= Parts(db.spec.databasePath))
    requires c == Sidecar(db.spec, m) || c == RestoreInit(db.spec, m) || c == BootstrapInit(db.spec, m)
    ensures SameDirectory(pod.spec.containers[k].mounts, c.mounts, Parts(db.spec.databasePath))
  {
    var app := pod.spec.containers[k];
    SettlesIs(pod.spec.containers, db.spec.databasePath, db.spec.container, k, i);
    LongestIsUnique(app.mounts, db.spec.databasePath, i);
    InjectedMounts(pod, db, m, c);
    InjectedSeesDirectory(app.mounts, db.spec.databasePath, i, c.mounts[1]);
  }

  // ---------------------------------------------------------------- the restore Job

  /** buildRestoreJob: the claim is mounted at the directory of the target file. */
  function JobMounts(target: Target): seq<VolumeMount> {
    [VolumeMount("target", Dir(target.path), target.subPath, false),
     VolumeMount("litestream-config", CONFIG_PATH, "", true)]
  }

  function JobVolumes(target: Target, restore: string): seq<Volume> {
    [Volume("target", Claim(target.pvc)), Volume("litestream-config", ConfigMapSource(restore + "-litestream"))]
  }

  /** A file on a persistent volume. */
  datatype File = File(claim: string, subPath: string, rest: seq<string>)

  ghost predicate OpensFile(volumes: seq<Volume>, mounts: seq<VolumeMount>, parts: seq<string>, file: File) {
    exists place :: LandsAt(mounts, parts, place)
      && ClaimOf(volumes, place.volume) == Some(file.claim) && file.subPath == place.subPath && file.rest == place.rest
  }

  ghost predicate SameTarget(pod: PodSpec, app: Container, target: Target, restore: string) {
    var parts := Parts(target.path);
    exists file :: OpensFile(pod.volumes, app.mounts, parts, file) && OpensFile(JobVolumes(target, restore), JobMounts(target), parts, file)
  }

  function DirParts(target: Target): seq<string>
    requires Parts(target.path) != []
  {
    Parts(target.path)[..|Parts(target.path)| - 1]
  }

  /** The Job's own config mount lies at the file or at its directory. */
  ghost predicate ConfigInTheWay(parts: seq<string>)
    requires parts != []
  {
    Parts(CONFIG_PATH) == parts || Parts(CONFIG_PATH) == parts[..|parts| - 1]
  }

  ghost predicate FileMounted(mounts: seq<VolumeMount>, parts: seq<string>) {
    exists j: nat :: j < |mounts| && At(mounts, j) == parts
  }

  lemma PrefixFrom(c: seq<string>, parts: seq<string>)
    requires parts != []
    ensures c <= parts && |parts| - 1 <= |c| <==> c == parts[..|parts| - 1] || c == parts
  {
    assert parts[..|parts|] == parts;
    if c <= parts && |parts| - 1 <= |c| {
      assert c == parts[..|c|];
    }
  }

  /** The file as the Job sees it: through the target mount, unless the config mount is in the way. */
  lemma JobOpens(mounts: seq<VolumeMount>, parts: seq<string>)
    requires |mounts| == 2 && parts != [] && At(mounts, 0) == parts[..|parts| - 1]
    ensures Serves(mounts, parts, 0) <==> At(mounts, 1) != parts[..|parts| - 1] && At(mounts, 1) != parts
  {
    assert mounts == [mounts[0], mounts[1]];
    OwnMountServes(mounts[0], mounts[1], parts);
    PrefixFrom(At(mounts, 1), parts);
  }

  /** A mount is above a file exactly when it is above its directory or on the file. */
  lemma AboveFile(a: seq<string>, parts: seq<string>)
    requires parts != []
    ensures a <= parts <==> a <= parts[..|parts| - 1] || a == parts
  {
    var d := parts[..|parts| - 1];
    if a <= parts && |a| <= |d| {
      assert a == parts[..|a|] == d[..|a|];
    } else if a <= parts {
      assert a == parts[..|a|] == parts;
    }
  }

  /** The file as the application sees it: through the mount that serves its directory, or one on the file itself. */
  lemma AppOpens(mounts: seq<VolumeMount>, parts: seq<string>, i: nat)
    requires parts != [] && Serves(mounts, parts[..|parts| - 1], i)
    ensures forall k: nat :: Serves(mounts, parts, k) ==> if FileMounted(mounts, parts) then At(mounts, k) == parts else k == i
    ensures !FileMounted(mounts, parts) ==> Serves(mounts, parts, i)
  {
    forall j | 0 <= j < |mounts|
      ensures At(mounts, j) <= parts <==> At(mounts, j) <= parts[..|parts| - 1] || At(mounts, j) == parts
    {
      AboveFile(At(mounts, j), parts);
    }
    if FileMounted(mounts, parts) {
      var j: nat :| j < |mounts| && At(mounts, j) == parts;
    }
  }

  lemma ClaimOfTarget(target: Target, restore: string)
    ensures ClaimOf(JobVolumes(target, restore), "target") == Some(target.pvc)
    ensures ClaimOf(JobVolumes(target, restore), "litestream-config") == None
  {
    var v := JobVolumes(target, restore);
    assert v[1..][1..] == [];
  }

  /** What a table opens through a given mount. */
  lemma OpensThrough(v: seq<Volume>, mounts: seq<VolumeMount>, parts: seq<string>, i: nat, file: File)
    requires Serves(mounts, parts, i)
    ensures
      OpensFile(v, mounts, parts, file) <==>
      && ClaimOf(v, mounts[i].volume) == Some(file.claim)
      && file.subPath == mounts[i].subPath && file.rest == parts[|At(mounts, i)|..]
  {
    var here := PlaceBy(mounts, parts, i);
    assert LandsAt(mounts, parts, here);
    if OpensFile(v, mounts, parts, file) {
      var place :| LandsAt(mounts, parts, place)
        && ClaimOf(v, place.volume) == Some(file.claim) && file.subPath == place.subPath && file.rest == place.rest;
      var k: nat :| Serves(mounts, parts, k) && place == PlaceBy(mounts, parts, k);
      ServerIsUnique(mounts, parts, i, k);
    }
  }

  lemma OpensByServer(v: seq<Volume>, mounts: seq<VolumeMount>, parts: seq<string>, file: File) returns (k: nat)
    requires OpensFile(v, mounts, parts, file)
    ensures Serves(mounts, parts, k) && ClaimOf(v, mounts[k].volume) == Some(file.claim)
    ensures file.subPath == mounts[k].subPath && file.rest == parts[|At(mounts, k)|..]
  {
    var place :| LandsAt(mounts, parts, place)
      && ClaimOf(v, place.volume) == Some(file.claim) && file.subPath == place.subPath && file.rest == place.rest;
    k :| Serves(mounts, parts, k) && place == PlaceBy(mounts, parts, k);
  }

  /** The mount that serves the directory is mounted there, and is the one the target names. */
  ghost predicate LinedUp(pod: PodSpec, mounts: seq<VolumeMount>, k: nat, target: Target)
    requires k < |mounts| && Parts(target.path) != []
  {
    && At(mounts, k) == DirParts(target)
    && ClaimOf(pod.volumes, mounts[k].volume) == Some(target.pvc) && mounts[k].subPath == target.subPath
  }

  lemma JobTable(target: Target)
    requires IsFile(target.path)
    ensures Parts(target.path) != []
    ensures At(JobMounts(target), 0) == DirParts(target) && At(JobMounts(target), 1) == Parts(CONFIG_PATH)
  {
    DirOf(target.path);
  }

  lemma LinedUpSame(pod: PodSpec, app: Container, target: Target, restore: string, k: nat)
    requires IsFile(target.path) && Parts(target.path) != [] && Serves(app.mounts, DirParts(target), k)
    requires LinedUp(pod, app.mounts, k, target)
    requires !FileMounted(app.mounts, Parts(target.path)) && !ConfigInTheWay(Parts(target.path))
    ensures SameTarget(pod, app, target, restore)
  {
    var parts, job := Parts(target.path), JobMounts(target);
    JobTable(target);
    AppOpens(app.mounts, parts, k);
    JobOpens(job, parts);
    ClaimOfTarget(target, restore);
    var file := File(target.pvc, target.subPath, parts[|parts| - 1..]);
    OpensThrough(pod.volumes, app.mounts, parts, k, file);
    OpensThrough(JobVolumes(target, restore), job, parts, 0, file);
  }

  lemma JobServer(target: Target, restore: string, file: File)
    requires IsFile(target.path) && OpensFile(JobVolumes(target, restore), JobMounts(target), Parts(target.path), file)
    ensures Parts(target.path) != []
    ensures Serves(JobMounts(target), Parts(target.path), 0) && !ConfigInTheWay(Parts(target.path))
    ensures file.claim == target.pvc && file.subPath == target.subPath && |file.rest| == 1
  {
    var parts, job := Parts(target.path), JobMounts(target);
    JobTable(target);
    ClaimOfTarget(target, restore);
    var l := OpensByServer(JobVolumes(target, restore), job, parts, file);
    assert l == 0;
    JobOpens(job, parts);
  }

  lemma SameLinedUp(pod: PodSpec, app: Container, target: Target, restore: string, k: nat)
    requires IsFile(target.path) && Parts(target.path) != [] && Serves(app.mounts, DirParts(target), k)
    requires SameTarget(pod, app, target, restore)
    ensures LinedUp(pod, app.mounts, k, target)
    ensures !FileMounted(app.mounts, Parts(target.path)) && !ConfigInTheWay(Parts(target.path))
  {
    var parts := Parts(target.path);
    var file :| OpensFile(pod.volumes, app.mounts, parts, file)
      && OpensFile(JobVolumes(target, restore), JobMounts(target), parts, file);
    JobServer(target, restore, file);
    var j := OpensByServer(pod.volumes, app.mounts, parts, file);
    AppOpens(app.mounts, parts, k);
    assert |At(app.mounts, j)| == |parts| - 1;
    assert At(app.mounts, k) == parts[..|parts| - 1];
  }

  /**
   Same file, second half: the InPlace Job writes the file the application reads exactly when the mount that serves
   the file's directory is mounted there, is the one the target names, no mount lies on the file, and the Job's config
   mount is not in the way.
   */
  lemma JobWritesDatabaseIff(pod: PodSpec, app: Container, target: Target, restore: string, k: nat)
    requires IsFile(target.path) && Parts(target.path) != [] && Serves(app.mounts, DirParts(target), k)
    ensures
      SameTarget(pod, app, target, restore) <==>
      && LinedUp(pod, app.mounts, k, target)
      && !FileMounted(app.mounts, Parts(target.path)) && !ConfigInTheWay(Parts(target.path))
  {
    if SameTarget(pod, app, target, restore) {
      SameLinedUp(pod, app, target, restore, k);
    } else if && LinedUp(pod, app.mounts, k, target)
              && !FileMounted(app.mounts, Parts(target.path)) && !ConfigInTheWay(Parts(target.path)) {
      LinedUpSame(pod, app, target, restore, k);
    }
  }

  lemma TargetIs(pod: PodSpec, spec: ReplicaSpec, target: Target, k: nat, i: nat)
    requires InPlaceTarget(pod, spec) == Ok(target) && Settles(pod.containers, spec.databasePath, spec.container, k, i)
    ensures ClaimOf(pod.volumes, pod.containers[k].mounts[i].volume) == Some(target.pvc)
    ensures pod.containers[k].mounts[i].subPath == target.subPath
    ensures target.path == spec.databasePath + "/" + spec.databaseName
  {
    SettlesIs(pod.containers, spec.databasePath, spec.container, k, i);
  }

  /**
   For a clean path, clean mount paths and a name of one component: exactly when the mount the controller finds in the
   container the spec asks for is databasePath itself.
   */
  lemma JobWritesCleanDatabaseIff(pod: PodSpec, spec: ReplicaSpec, k: nat, target: Target, restore: string, i: nat)
    requires InPlaceTarget(pod, spec) == Ok(target) && Settles(pod.containers, spec.databasePath, spec.container, k, i)
    requires MountTable(pod.containers[k].mounts)
    requires Clean(spec.databasePath) && Parts(spec.databasePath) != [] && Plain(spec.databaseName)
    ensures Parts(target.path) != []
    ensures
      var app := pod.containers[k];
      SameTarget(pod, app, target, restore) <==>
      && app.mounts[i].mountPath == spec.databasePath
      && !FileMounted(app.mounts, Parts(target.path)) && !ConfigInTheWay(Parts(target.path))
  {
    var d := Parts(spec.databasePath);
    var app := pod.containers[k];
    TargetIs(pod, spec, target, k, i);
    FileIn(spec.databasePath, spec.databaseName);
    LongestIsUnique(app.mounts, spec.databasePath, i);
    FoundServes(app.mounts, spec.databasePath, i);
    assert DirParts(target) == d;
    JobWritesDatabaseIff(pod, app, target, restore, i);
    if At(app.mounts, i) == d {
      SamePartsSamePath(app.mounts[i].mountPath, spec.databasePath);
    }
  }

  function AppAt(mountPath: string): Container {
    Container("app", "app", Command([]), [], [], [VolumeMount("vol", mountPath, "", false)], None, None)
  }

  function PodAt(mountPath: string): PodSpec {
    PodSpec([AppAt(mountPath)], [], [Volume("vol", Claim("pvc"))])
  }

  lemma FoundAbove(top: seq<string>, below: seq<string>)
    requires AllPlain(top + below) && top != []
    ensures Clean(Joined(top)) && Clean(Joined(top + below)) && Parts(Joined(top)) == top && Parts(Joined(top + below)) == top + below
    ensures LongestMount(AppAt(Joined(top)).mounts, Joined(top + below)) == Some(0)
  {
    TopIsPlain(top, below);
    CleanIsJoined(top);
    CleanIsJoined(top + below);
    CoversIff(Joined(top), Joined(top + below));
    CleanIsNotEmpty(Joined(top));
    LongestIsUnique(AppAt(Joined(top)).mounts, Joined(top + below), 0);
  }

  /**
   The failing input: a volume mounted above the database directory (say at /data for /data/db). The controller
   resolves a target, and the Job writes beside the database.
   */
  lemma JobMissesDatabase(spec: ReplicaSpec, restore: string, top: seq<string>, below: seq<string>)
    requires AllPlain(top + below) && top != [] && below != [] && Plain(spec.databaseName)
    requires spec.container == "" && spec.databasePath == Joined(top + below)
    ensures
      var pod, app := PodAt(Joined(top)), AppAt(Joined(top));
      var target := InPlaceTarget(pod, spec);
      target.Ok? && !SameTarget(pod, app, target.value, restore)
  {
    FoundAbove(top, below);
    var pod, app := PodAt(Joined(top)), AppAt(Joined(top));
    LongestIsUnique(app.mounts, spec.databasePath, 0);
    assert Settles(pod.containers, spec.databasePath, spec.container, 0, 0);
    SettlesIs(pod.containers, spec.databasePath, spec.container, 0, 0);
    JobWritesCleanDatabaseIff(pod, spec, 0, InPlaceTarget(pod, spec).value, restore, 0);
  }
}
