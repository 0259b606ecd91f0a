/** The admission webhook that adds the Litestream containers to a pod. */
module Injection {
  import opened ApiTypes
  import opened Text
  import opened Mounts
  import opened SpecHash
  import opened LitestreamConfig

  const SIDECAR := "litestream"
  const RESTORE_CONTAINER := "litestream-restore"
  const BOOTSTRAP_CONTAINER := "db-bootstrap"
  const CONFIG_VOLUME := "litestream-config"
  const CONFIG_PATH := "/etc/litestream"
  const BOOTSTRAP_VOLUME := "db-bootstrap-sql"
  const BOOTSTRAP_PATH := "/bootstrap"
  const DEFAULT_IMAGE := "litestream/litestream:0.5.14"
  const DEFAULT_BOOTSTRAP_IMAGE := "keinos/sqlite3:latest"
  const METRICS_PORT := 9090
  const DEFAULT_RESOURCES := Resources(map["ephemeral-storage" := "1Gi"], map[])

  const INJECT := "litestream.io/inject"
  const CONFIG := "litestream.io/config"
  const SCRAPE := "prometheus.io/scrape"
  const PORT := "prometheus.io/port"
  const METRICS_PATH := "prometheus.io/path"

  /** A pod as the webhook sees it. */
  datatype PodValue = PodValue(spec: PodSpec, annotations: map<string, string>)

  /** A LitestreamReplica object. */
  datatype Replica = Replica(name: string, spec: ReplicaSpec)

  datatype Response = NotAsked | AlreadyPresent | NoReference | Patched | Errored

  // ---------------------------------------------------------------- the injected containers

  function OrElse(value: string, default: string): string {
    if value == "" then default else value
  }

  function DataMount(m: ResolvedMount): VolumeMount {
    VolumeMount(m.volume, m.mountPath, m.subPath, false)
  }

  const CONFIG_MOUNT := VolumeMount(CONFIG_VOLUME, CONFIG_PATH, "", true)
  const BOOTSTRAP_MOUNT := VolumeMount(BOOTSTRAP_VOLUME, BOOTSTRAP_PATH, "", true)

  function Credentials(secret: string): seq<EnvVar> {
    [FromSecret("LITESTREAM_ACCESS_KEY_ID", secret, "ACCESS_KEY_ID"),
     FromSecret("LITESTREAM_SECRET_ACCESS_KEY", secret, "SECRET_ACCESS_KEY")]
  }

  function SidecarResources(spec: ReplicaSpec): Resources {
    if spec.backup.resources.Some? then spec.backup.resources.value else DEFAULT_RESOURCES
  }

  function SidecarEnv(spec: ReplicaSpec): seq<EnvVar> {
    (if spec.backup.enabled && spec.backup.s3.Some? then Credentials(spec.backup.s3.value.secretRef) else []) +
    (if spec.backup.logLevel != "" then [Literal("LITESTREAM_LOG_LEVEL", spec.backup.logLevel)] else [])
  }

  function Sidecar(spec: ReplicaSpec, m: ResolvedMount): Container {
    Container(SIDECAR, OrElse(spec.image, DEFAULT_IMAGE),
              Command(["replicate", "-config", "/etc/litestream/litestream.yml"]),
              SidecarEnv(spec), [METRICS_PORT], [DataMount(m), CONFIG_MOUNT], Some(SidecarResources(spec)), None)
  }

  function Identity(spec: ReplicaSpec): Option<SecurityContext> {
    if spec.runAsUser.None? && spec.runAsGroup.None? then None
    else Some(SecurityContext(spec.runAsUser, spec.runAsGroup))
  }

  function RestoreInit(spec: ReplicaSpec, m: ResolvedMount): Container {
    Container(RESTORE_CONTAINER, OrElse(spec.image, DEFAULT_IMAGE), RestoreIfMissing(DatabaseFile(spec)),
              if spec.backup.s3.Some? then Credentials(spec.backup.s3.value.secretRef) else [],
              [], [DataMount(m), CONFIG_MOUNT], None, Identity(spec))
  }

  function BootstrapInit(spec: ReplicaSpec, m: ResolvedMount): Container {
    Container(BOOTSTRAP_CONTAINER, OrElse(spec.bootstrap.image, DEFAULT_BOOTSTRAP_IMAGE),
              BootstrapIfMissing(DatabaseFile(spec)), [], [], [DataMount(m), BOOTSTRAP_MOUNT], None, Identity(spec))
  }

  predicate RestoresOnStart(spec: ReplicaSpec) {
    spec.backup.enabled && spec.recoveryMode == RECOVERY_AUTOMATIC
  }

  predicate Bootstraps(spec: ReplicaSpec) {
    spec.bootstrap.sql != ""
  }

  // ---------------------------------------------------------------- one injection

  function SetIfEmpty(a: map<string, string>, key: string, value: string): map<string, string> {
    if key in a && a[key] != "" then a else a[key := value]
  }

  function ScrapeAnnotations(a: map<string, string>): map<string, string> {
    SetIfEmpty(SetIfEmpty(SetIfEmpty(a, SCRAPE, "true"), PORT, "9090"), METRICS_PATH, "/metrics")
  }

  function ConfigVolumeOf(name: string): Volume {
    Volume(CONFIG_VOLUME, ConfigMapSource(name + "-litestream"))
  }

  function BootstrapVolumeOf(name: string): Volume {
    Volume(BOOTSTRAP_VOLUME, ConfigMapSource(name + "-bootstrap-sql"))
  }

  function Injected(pod: PodValue, db: Replica, m: ResolvedMount): PodValue {
    var front := if RestoresOnStart(db.spec) then [RestoreInit(db.spec, m)] else [];
    var back := if Bootstraps(db.spec) then [BootstrapInit(db.spec, m)] else [];
    var volumes := [ConfigVolumeOf(db.name)] + if Bootstraps(db.spec) then [BootstrapVolumeOf(db.name)] else [];
    PodValue(PodSpec(pod.spec.containers + [Sidecar(db.spec, m)],
                     front + pod.spec.initContainers + back,
                     pod.spec.volumes + volumes),
             ScrapeAnnotations(pod.annotations))
  }

  predicate HasSidecar(containers: seq<Container>) {
    exists i :: 0 <= i < |containers| && containers[i].name == SIDECAR
  }

  // ---------------------------------------------------------------- one admission request

  /** strings.Cut at the first slash. */
  function Cut(ref: string): (r: Option<(string, string)>)
    ensures r.Some? ==> ref == r.value.0 + "/" + r.value.1 && '/' !in r.value.0
    ensures r.None? <==> '/' !in ref
  {
    if ref == "" then None
    else if ref[0] == '/' then assert ref == "" + "/" + ref[1..]; Some(("", ref[1..]))
    else
      match Cut(ref[1..])
      case None => assert ref == [ref[0]] + ref[1..]; None
      case Some((ns, name)) =>
        assert ref == [ref[0]] + ref[1..] == ([ref[0]] + ns) + "/" + name;
        Some(([ref[0]] + ns, name))
  }

  function Annotation(a: map<string, string>, key: string): string {
    if key in a then a[key] else ""
  }

  /** store: the LitestreamReplica objects by namespace and name. */
  function Referenced(ref: string, namespace: string, store: map<(string, string), Replica>): Option<Replica> {
    match Cut(ref)
    case None => None
    case Some((ns, name)) =>
      var key := (if ns == "" then namespace else ns, name);
      if key in store then Some(store[key]) else None
  }

  function Admitted(pod: PodValue, namespace: string, store: map<(string, string), Replica>): (PodValue, Response) {
    var ref := Annotation(pod.annotations, CONFIG);
    if Annotation(pod.annotations, INJECT) != "true" then (pod, NotAsked)
    else if HasSidecar(pod.spec.containers) then (pod, AlreadyPresent)
    else if ref == "" then (pod, NoReference)
    else
      match Referenced(ref, namespace, store)
      case None => (pod, Errored)
      case Some(db) =>
        match FindMount(pod.spec.containers, db.spec.databasePath, db.spec.container)
        case Err(_) => (pod, Errored)
        case Ok(m) => (Injected(pod, db, m), Patched)
  }

  // ---------------------------------------------------------------- the webhook, in place

  class Pod {
    var containers: seq<Container>
    var initContainers: seq<Container>
    var volumes: seq<Volume>
    var annotations: map<string, string>

    ghost function Value(): PodValue
      reads this
    {
      PodValue(PodSpec(containers, initContainers, volumes), annotations)
    }

    method AlreadyInjected() returns (found: bool)
      ensures found <==> HasSidecar(containers)
    {
      for i := 0 to |containers|
        invariant forall k :: 0 <= k < i ==> containers[k].name != SIDECAR
      {
        if containers[i].name == SIDECAR { return true; }
      }
      return false;
    }

    method SetAnnotationIfEmpty(key: string, value: string)
      modifies this`annotations
      ensures annotations == SetIfEmpty(old(annotations), key, value)
    {
      if key !in annotations || annotations[key] == "" {
        annotations := annotations[key := value];
      }
    }

    method AddScrapeAnnotations()
      modifies this`annotations
      ensures annotations == ScrapeAnnotations(old(annotations))
    {
      SetAnnotationIfEmpty(SCRAPE, "true");
      SetAnnotationIfEmpty(PORT, "9090");
      SetAnnotationIfEmpty(METRICS_PATH, "/metrics");
    }

    method InjectAutoRestoreContainer(spec: ReplicaSpec, m: ResolvedMount)
      modifies this`initContainers
      ensures initContainers == [RestoreInit(spec, m)] + old(initContainers)
    {
      var image := spec.image;
      if image == "" { image := DEFAULT_IMAGE; }
      var env := [];
      if spec.backup.s3.Some? { env := Credentials(spec.backup.s3.value.secretRef); }
      var c := Container(RESTORE_CONTAINER, image, RestoreIfMissing(DatabaseFile(spec)), env, [],
                         [DataMount(m), CONFIG_MOUNT], None, Identity(spec));
      initContainers := [c] + initContainers;
    }

    method InjectBootstrapContainer(db: Replica, m: ResolvedMount)
      modifies this`initContainers, this`volumes
      ensures initContainers == old(initContainers) + [BootstrapInit(db.spec, m)]
      ensures volumes == old(volumes) + [BootstrapVolumeOf(db.name)]
    {
      var image := db.spec.bootstrap.image;
      if image == "" { image := DEFAULT_BOOTSTRAP_IMAGE; }
      var c := Container(BOOTSTRAP_CONTAINER, image, BootstrapIfMissing(DatabaseFile(db.spec)), [], [],
                         [DataMount(m), BOOTSTRAP_MOUNT], None, Identity(db.spec));
      initContainers := initContainers + [c];
      volumes := volumes + [BootstrapVolumeOf(db.name)];
    }

    method AddSidecar(db: Replica, m: ResolvedMount)
      modifies this`containers, this`volumes
      ensures containers == old(containers) + [Sidecar(db.spec, m)]
      ensures volumes == old(volumes) + [ConfigVolumeOf(db.name)]
    {
      var image := db.spec.image;
      if image == "" { image := DEFAULT_IMAGE; }
      var env := [];
      if db.spec.backup.enabled && db.spec.backup.s3.Some? {
        env := Credentials(db.spec.backup.s3.value.secretRef);
      }
      if db.spec.backup.logLevel != "" {
        env := env + [Literal("LITESTREAM_LOG_LEVEL", db.spec.backup.logLevel)];
      }
      assert env == SidecarEnv(db.spec);
      var sidecar := Container(SIDECAR, image, Command(["replicate", "-config", "/etc/litestream/litestream.yml"]),
                               env, [METRICS_PORT], [DataMount(m), CONFIG_MOUNT], Some(SidecarResources(db.spec)), None);
      containers := containers + [sidecar];
      volumes := volumes + [ConfigVolumeOf(db.name)];
    }

    /** inject: nothing is changed unless a covering mount is found. */
    method Inject(db: Replica) returns (ok: bool)
      modifies this
      ensures
        var found := FindMount(old(containers), db.spec.databasePath, db.spec.container);
        ok == found.Ok? && Value() == if ok then Injected(old(Value()), db, found.value) else old(Value())
    {
      var found := FindVolumeForPath(PodSpec(containers, initContainers, volumes), db.spec.databasePath, db.spec.container);
      if found.Err? { return false; }
      var m := found.value;
      AddSidecar(db, m);
      AddScrapeAnnotations();
      if db.spec.backup.enabled && db.spec.recoveryMode == RECOVERY_AUTOMATIC {
        InjectAutoRestoreContainer(db.spec, m);
      }
      if db.spec.bootstrap.sql != "" {
        InjectBootstrapContainer(db, m);
      }
      return true;
    }

    method Handle(namespace: string, store: map<(string, string), Replica>) returns (response: Response)
      modifies this
      ensures (Value(), response) == Admitted(old(Value()), namespace, store)
    {
      if INJECT !in annotations || annotations[INJECT] != "true" { return NotAsked; }
      var present := AlreadyInjected();
      if present { return AlreadyPresent; }
      if CONFIG !in annotations || annotations[CONFIG] == "" { return NoReference; }
      var db := Referenced(annotations[CONFIG], namespace, store);
      if db.None? { return Errored; }
      var ok := Inject(db.value);
      return if ok then Patched else Errored;
    }
  }

  // ---------------------------------------------------------------- idempotent

  lemma InjectedHasSidecar(pod: PodValue, db: Replica, m: ResolvedMount)
    ensures HasSidecar(Injected(pod, db, m).spec.containers)
  {
    var c := Injected(pod, db, m).spec.containers;
    assert c[|pod.spec.containers|].name == SIDECAR;
  }

  /** A second request changes nothing, whatever happened to the store in between if the first one patched. */
  lemma AdmittedTwice(
    pod: PodValue, namespace: string, store: map<(string, string), Replica>,
    namespace': string, store': map<(string, string), Replica>)
    ensures
      var (once, response) := Admitted(pod, namespace, store);
      && Admitted(once, namespace, store).0 == once
      && (response == Patched ==> Admitted(once, namespace', store') == (once, AlreadyPresent))
  {
    var (once, response) := Admitted(pod, namespace, store);
    if response == Patched {
      var db := Referenced(Annotation(pod.annotations, CONFIG), namespace, store).value;
      var m := FindMount(pod.spec.containers, db.spec.databasePath, db.spec.container).value;
      InjectedHasSidecar(pod, db, m);
    }
  }

  // ---------------------------------------------------------------- framed

  predicate Ours(name: string) {
    name == RESTORE_CONTAINER || name == BOOTSTRAP_CONTAINER
  }

  /** The containers stand unbroken in the new list from index k on, with at most one more on either side. */
  ghost predicate Stretch(own: seq<Container>, inits: seq<Container>, k: nat) {
    k <= 1 && k + |own| <= |inits| <= k + |own| + 1 && inits[k..k + |own|] == own
  }

  /** An admission adds at the ends only and keeps every annotation that says something. */
  lemma AdmissionFramed(pod: PodValue, namespace: string, store: map<(string, string), Replica>)
    ensures
      var pod' := Admitted(pod, namespace, store).0;
      && pod.spec.containers <= pod'.spec.containers && |pod'.spec.containers| <= |pod.spec.containers| + 1
      && pod.spec.volumes <= pod'.spec.volumes
      && (exists k :: Stretch(pod.spec.initContainers, pod'.spec.initContainers, k))
      && (forall key :: key in pod.annotations && pod.annotations[key] != "" ==>
            key in pod'.annotations && pod'.annotations[key] == pod.annotations[key])
      && (forall key :: key in pod'.annotations && key !in {SCRAPE, PORT, METRICS_PATH} ==>
            key in pod.annotations && pod'.annotations[key] == pod.annotations[key])
  {
    var (pod', response) := Admitted(pod, namespace, store);
    var own := pod.spec.initContainers;
    if response == Patched {
      var db := Referenced(Annotation(pod.annotations, CONFIG), namespace, store).value;
      assert Stretch(own, pod'.spec.initContainers, if RestoresOnStart(db.spec) then 1 else 0);
    } else {
      assert Stretch(own, own, 0);
    }
  }

  /** Among the init containers restore comes first and bootstrap last, each exactly when the spec asks for it. */
  lemma InitOrder(pod: PodValue, db: Replica, m: ResolvedMount)
    requires forall i :: 0 <= i < |pod.spec.initContainers| ==> !Ours(pod.spec.initContainers[i].name)
    ensures
      var inits := Injected(pod, db, m).spec.initContainers;
      var restores := db.spec.backup.enabled && db.spec.recoveryMode == "automatic";
      forall i :: 0 <= i < |inits| ==>
        && (inits[i].name == "litestream-restore" <==> i == 0 && restores)
        && (inits[i].name == "db-bootstrap" <==> i == |inits| - 1 && db.spec.bootstrap.sql != "")
  {
  }

  // ---------------------------------------------------------------- which requests are answered how

  lemma {:induction false} CutUnique(ns: string, name: string)
    requires '/' !in ns
    ensures Cut(ns + "/" + name) == Some((ns, name))
  {
    var ref := ns + "/" + name;
    if ns != "" {
      assert ref[1..] == ns[1..] + "/" + name;
      assert ns[0] in ns;
      CutUnique(ns[1..], name);
      assert [ns[0]] + ns[1..] == ns;
    } else {
      assert ref[1..] == name;
    }
  }

  /** The reference names that object: a slash after the namespace, which is the pod's own when empty. */
  ghost predicate Names(ref: string, namespace: string, store: map<(string, string), Replica>, ns: string, name: string, db: Replica) {
    && ref == ns + "/" + name && '/' !in ns
    && var key := (if ns == "" then namespace else ns, name); key in store && store[key] == db
  }

  lemma ReferencedIff(ref: string, namespace: string, store: map<(string, string), Replica>, db: Replica)
    ensures Referenced(ref, namespace, store) == Some(db) <==> exists ns, name :: Names(ref, namespace, store, ns, name, db)
  {
    if Referenced(ref, namespace, store) == Some(db) {
      var (ns, name) := Cut(ref).value;
      assert Names(ref, namespace, store, ns, name, db);
    }
    if exists ns, name :: Names(ref, namespace, store, ns, name, db) {
      var ns, name :| Names(ref, namespace, store, ns, name, db);
      CutUnique(ns, name);
    }
  }

  ghost predicate Asks(pod: PodValue) {
    "litestream.io/inject" in pod.annotations && pod.annotations["litestream.io/inject"] == "true"
  }

  ghost predicate Carries(pod: PodValue) {
    exists i :: 0 <= i < |pod.spec.containers| && pod.spec.containers[i].name == "litestream"
  }

  ghost predicate Refers(pod: PodValue) {
    "litestream.io/config" in pod.annotations && pod.annotations["litestream.io/config"] != ""
  }

  /**
   A request is patched exactly when the pod asks, has no sidecar, refers to an existing object, and the container that
   object asks for has a mount over the database path. What is not patched is not changed.
   */
  lemma PatchedIff(pod: PodValue, namespace: string, store: map<(string, string), Replica>)
    ensures
      var (pod', response) := Admitted(pod, namespace, store);
      && (response == NotAsked <==> !Asks(pod))
      && (response == AlreadyPresent <==> Asks(pod) && Carries(pod))
      && (response == NoReference <==> Asks(pod) && !Carries(pod) && !Refers(pod))
      && (response == Patched <==>
            && Asks(pod) && !Carries(pod) && Refers(pod)
            && exists ns, name, db, k: nat, i: nat ::
                 && Names(pod.annotations["litestream.io/config"], namespace, store, ns, name, db)
                 && Settles(pod.spec.containers, db.spec.databasePath, db.spec.container, k, i))
      && (response != Patched ==> pod' == pod)
  {
    if Asks(pod) && !Carries(pod) && Refers(pod) {
      FoundForPatch(pod, namespace, store);
    }
  }

  lemma FoundForPatch(pod: PodValue, namespace: string, store: map<(string, string), Replica>)
    requires Refers(pod)
    ensures
      (var db := Referenced(pod.annotations["litestream.io/config"], namespace, store);
       db.Some? && FindMount(pod.spec.containers, db.value.spec.databasePath, db.value.spec.container).Ok?) <==>
      exists ns, name, db, k: nat, i: nat ::
        && Names(pod.annotations["litestream.io/config"], namespace, store, ns, name, db)
        && Settles(pod.spec.containers, db.spec.databasePath, db.spec.container, k, i)
  {
    var ref := pod.annotations["litestream.io/config"];
    var found := Referenced(ref, namespace, store);
    if found.Some? && FindMount(pod.spec.containers, found.value.spec.databasePath, found.value.spec.container).Ok? {
      var db := found.value;
      ReferencedIff(ref, namespace, store, db);
      var ns, name :| Names(ref, namespace, store, ns, name, db);
      var k, i := SettledAt(pod.spec.containers, db.spec.databasePath, db.spec.container);
      assert Names(ref, namespace, store, ns, name, db)
        && Settles(pod.spec.containers, db.spec.databasePath, db.spec.container, k, i);
    }
    if exists ns, name, db, k: nat, i: nat ::
         && Names(ref, namespace, store, ns, name, db)
         && Settles(pod.spec.containers, db.spec.databasePath, db.spec.container, k, i) {
      var ns, name, db, k: nat, i: nat :|
        && Names(ref, namespace, store, ns, name, db)
        && Settles(pod.spec.containers, db.spec.databasePath, db.spec.container, k, i);
      ReferencedIff(ref, namespace, store, db);
      SettlesIs(pod.spec.containers, db.spec.databasePath, db.spec.container, k, i);
    }
  }

  // ---------------------------------------------------------------- what a patched pod runs

  /** The object and the mount a patched pod was given. */
  lemma PatchedFrom(pod: PodValue, namespace: string, store: map<(string, string), Replica>)
      returns (ns: string, name: string, db: Replica, k: nat, i: nat)
    requires Admitted(pod, namespace, store).1 == Patched
    ensures Refers(pod) && Names(pod.annotations["litestream.io/config"], namespace, store, ns, name, db)
    ensures Settles(pod.spec.containers, db.spec.databasePath, db.spec.container, k, i)
    ensures
      var m := pod.spec.containers[k].mounts[i];
      Admitted(pod, namespace, store).0 == Injected(pod, db, ResolvedMount(m.volume, m.mountPath, m.subPath))
  {
    db := Referenced(pod.annotations["litestream.io/config"], namespace, store).value;
    ReferencedIff(pod.annotations["litestream.io/config"], namespace, store, db);
    ns, name :| Names(pod.annotations["litestream.io/config"], namespace, store, ns, name, db);
    k, i := SettledAt(pod.spec.containers, db.spec.databasePath, db.spec.container);
    SettlesIs(pod.spec.containers, db.spec.databasePath, db.spec.container, k, i);
  }

  /** A container sees the data at the application's mount, writable. */
  ghost predicate SeesData(c: Container, m: ResolvedMount) {
    |c.mounts| == 2 && c.mounts[0] == VolumeMount(m.volume, m.mountPath, m.subPath, false)
  }

  /** A container reads litestream.yml from the ConfigMap the replica controller writes for that object. */
  ghost predicate ReadsConfig(c: Container, volumes: seq<Volume>, name: string) {
    && |c.mounts| == 2 && c.mounts[1] == VolumeMount("litestream-config", "/etc/litestream", "", true)
    && Volume("litestream-config", ConfigMapSource(name + "-litestream")) in volumes
  }

  /** Access to the bucket: both keys of the secret, and nothing without a destination. */
  ghost predicate HasCredentials(env: seq<EnvVar>, s3: Option<S3Destination>) {
    forall e :: e in env && e.FromSecret? <==>
      && s3.Some?
      && (|| e == FromSecret("LITESTREAM_ACCESS_KEY_ID", s3.value.secretRef, "ACCESS_KEY_ID")
          || e == FromSecret("LITESTREAM_SECRET_ACCESS_KEY", s3.value.secretRef, "SECRET_ACCESS_KEY"))
  }

  lemma SidecarRuns(pod: PodValue, db: Replica, m: ResolvedMount)
    ensures
      var pod' := Injected(pod, db, m);
      |pod'.spec.containers| == |pod.spec.containers| + 1 &&
      var c := pod'.spec.containers[|pod.spec.containers|];
      && c.name == "litestream" && c.program == Command(["replicate", "-config", "/etc/litestream/litestream.yml"])
      && c.image == (if db.spec.image == "" then "litestream/litestream:0.5.14" else db.spec.image)
      && c.ports == [9090] && SeesData(c, m) && ReadsConfig(c, pod'.spec.volumes, db.name)
      && HasCredentials(c.env, if db.spec.backup.enabled then db.spec.backup.s3 else None)
      && (forall level :: Literal("LITESTREAM_LOG_LEVEL", level) in c.env <==> level == db.spec.backup.logLevel && level != "")
      && (db.spec.backup.resources.Some? ==> c.resources == db.spec.backup.resources)
      && (db.spec.backup.resources.None? ==> c.resources == Some(Resources(map["ephemeral-storage" := "1Gi"], map[])))
  {
    var pod' := Injected(pod, db, m);
    assert pod'.spec.volumes[|pod.spec.volumes|] == ConfigVolumeOf(db.name);
  }

  ghost predicate RunsAs(c: Container, spec: ReplicaSpec) {
    c.security == if spec.runAsUser.None? && spec.runAsGroup.None? then None
                  else Some(SecurityContext(spec.runAsUser, spec.runAsGroup))
  }

  /** The restore container works on the database file, with the sidecar's config and credentials. */
  lemma RestoreRuns(pod: PodValue, db: Replica, m: ResolvedMount)
    requires db.spec.backup.enabled && db.spec.recoveryMode == "automatic"
    ensures
      var pod' := Injected(pod, db, m);
      |pod'.spec.initContainers| > 0 &&
      var c := pod'.spec.initContainers[0];
      && c.name == "litestream-restore" && c.program == RestoreIfMissing(db.spec.databasePath + "/" + db.spec.databaseName)
      && c.image == (if db.spec.image == "" then "litestream/litestream:0.5.14" else db.spec.image)
      && SeesData(c, m) && ReadsConfig(c, pod'.spec.volumes, db.name)
      && HasCredentials(c.env, db.spec.backup.s3) && RunsAs(c, db.spec)
  {
    var pod' := Injected(pod, db, m);
    assert pod'.spec.volumes[|pod.spec.volumes|] == ConfigVolumeOf(db.name);
  }

  /** The bootstrap container works on the same file, with the SQL of the object's ConfigMap. */
  lemma BootstrapRuns(pod: PodValue, db: Replica, m: ResolvedMount)
    requires db.spec.bootstrap.sql != ""
    ensures
      var pod' := Injected(pod, db, m);
      |pod'.spec.initContainers| > 0 &&
      var c := pod'.spec.initContainers[|pod'.spec.initContainers| - 1];
      && c.name == "db-bootstrap" && c.program == BootstrapIfMissing(db.spec.databasePath + "/" + db.spec.databaseName)
      && c.image == (if db.spec.bootstrap.image == "" then "keinos/sqlite3:latest" else db.spec.bootstrap.image)
      && SeesData(c, m) && c.mounts[1] == VolumeMount("db-bootstrap-sql", "/bootstrap", "", true)
      && Volume("db-bootstrap-sql", ConfigMapSource(db.name + "-bootstrap-sql")) in pod'.spec.volumes
      && RunsAs(c, db.spec)
  {
    var pod' := Injected(pod, db, m);
    assert pod'.spec.volumes[|pod.spec.volumes| + 1] == BootstrapVolumeOf(db.name);
  }

  /** The init containers of a patched pod: the pod's own, with restore in front and bootstrap behind as the object asks. */
  lemma PatchedInits(pod: PodValue, namespace: string, store: map<(string, string), Replica>)
    requires Admitted(pod, namespace, store).1 == Patched
    ensures
      var inits, own := Admitted(pod, namespace, store).0.spec.initContainers, pod.spec.initContainers;
      exists ns, name, db ::
        && Refers(pod) && Names(pod.annotations["litestream.io/config"], namespace, store, ns, name, db)
        && var k := if db.spec.backup.enabled && db.spec.recoveryMode == "automatic" then 1 else 0;
           |inits| == k + |own| + (if db.spec.bootstrap.sql != "" then 1 else 0) && inits[k..k + |own|] == own
  {
    var ns, name, db, k, i := PatchedFrom(pod, namespace, store);
    assert Names(pod.annotations["litestream.io/config"], namespace, store, ns, name, db);
  }

  /** Manual recovery: no restore container, whatever the archive holds. */
  lemma ManualRecoveryInits(pod: PodValue, namespace: string, store: map<(string, string), Replica>, ns: string, name: string, db: Replica)
    requires Admitted(pod, namespace, store).1 == Patched && Refers(pod)
    requires Names(pod.annotations["litestream.io/config"], namespace, store, ns, name, db) && db.spec.recoveryMode == "manual"
    ensures
      var inits, own := Admitted(pod, namespace, store).0.spec.initContainers, pod.spec.initContainers;
      if db.spec.bootstrap.sql == "" then inits == own
      else |inits| == |own| + 1 && inits[..|own|] == own && inits[|own|].program.BootstrapIfMissing?
  {
    CutUnique(ns, name);
    var ns', name', db', k, i := PatchedFrom(pod, namespace, store);
    CutUnique(ns', name');
    assert db' == db;
  }

  /** The scrape annotations are there afterwards, with the pod's own values where it had any. */
  lemma Scraped(pod: PodValue, namespace: string, store: map<(string, string), Replica>, key: string, value: string)
    requires Admitted(pod, namespace, store).1 == Patched
    requires (key, value) in {("prometheus.io/scrape", "true"), ("prometheus.io/port", "9090"), ("prometheus.io/path", "/metrics")}
    ensures
      var a := Admitted(pod, namespace, store).0.annotations;
      && key in a && a[key] == if key in pod.annotations && pod.annotations[key] != "" then pod.annotations[key] else value
  {
    var ns, name, db, k, i := PatchedFrom(pod, namespace, store);
  }

  // ---------------------------------------------------------------- what the hash does and does not cover

  /**
   With equal hashed fields, two specs inject the same containers into a pod exactly when they agree on the
   mount found, the sidecar's resources and, where it is used, the bootstrap image.
   */
  lemma SameInjectionIff(pod: PodValue, name: string, a: ReplicaSpec, b: ReplicaSpec, m: ResolvedMount, n: ResolvedMount)
    requires HashedFields(a) == HashedFields(b)
    ensures
      Injected(pod, Replica(name, a), m) == Injected(pod, Replica(name, b), n) <==>
      && m == n
      && SidecarResources(a) == SidecarResources(b)
      && (Bootstraps(a) ==> OrElse(a.bootstrap.image, DEFAULT_BOOTSTRAP_IMAGE) == OrElse(b.bootstrap.image, DEFAULT_BOOTSTRAP_IMAGE))
  {
    var p, q := Injected(pod, Replica(name, a), m), Injected(pod, Replica(name, b), n);
    var k := |pod.spec.containers|;
    assert p.spec.containers[k] == Sidecar(a, m) && q.spec.containers[k] == Sidecar(b, n);
    if p == q {
      assert Sidecar(a, m).mounts[0] == Sidecar(b, n).mounts[0];
      if Bootstraps(a) {
        var last := |p.spec.initContainers| - 1;
        assert p.spec.initContainers[last] == BootstrapInit(a, m) && q.spec.initContainers[last] == BootstrapInit(b, n);
      }
    } else if m == n {
      assert SidecarEnv(a) == SidecarEnv(b) && Identity(a) == Identity(b);
    }
  }

  /** The promise holds for the fields that are hashed: equal text, equal pod, up to what the text leaves out. */
  lemma EqualTextSamePod(pod: PodValue, name: string, a: ReplicaSpec, b: ReplicaSpec, m: ResolvedMount)
    requires OneLineHead(HashedFields(a)) && OneLineHead(HashedFields(b))
    requires Unambiguous(HashedFields(a)) && Unambiguous(HashedFields(b))
    requires HashText(a) == HashText(b)
    requires a.backup.resources == b.backup.resources && a.bootstrap.image == b.bootstrap.image && a.container == b.container
    ensures Injected(pod, Replica(name, a), m) == Injected(pod, Replica(name, b), m)
    ensures FindMount(pod.spec.containers, a.databasePath, a.container) == FindMount(pod.spec.containers, b.databasePath, b.container)
  {
    TextIsInjective(a, b);
    SameInjectionIff(pod, name, a, b, m, m);
  }

  /** The text does not cover the sidecar's resources: every spec has a twin with that text and another pod. */
  lemma HashMissesResources(pod: PodValue, name: string, a: ReplicaSpec, m: ResolvedMount)
    ensures exists b: ReplicaSpec ::
      HashText(b) == HashText(a) && Injected(pod, Replica(name, b), m) != Injected(pod, Replica(name, a), m)
  {
    var r := SidecarResources(a);
    var other := r.(requests := if "cpu" in r.requests then r.requests - {"cpu"} else r.requests["cpu" := "1"]);
    assert other != r;
    var b := a.(backup := a.backup.(resources := Some(other)));
    assert HashedFields(b) == HashedFields(a);
    SameInjectionIff(pod, name, b, a, m, m);
  }
}
