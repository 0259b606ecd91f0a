/**
 Which volume mount holds the database. The admission webhook and the restore controller
 each search for it with a loop of their own; both loops are here, with what they share.
 */
module Mounts {
  import opened ApiTypes
  import opened Text
  import opened Paths

  datatype MountError = NoContainers | ContainerNotFound | NotCovered | NotAClaim

  datatype Result<+T> = Ok(value: T) | Err(error: MountError)

  datatype ResolvedMount = ResolvedMount(volume: string, mountPath: string, subPath: string)

  predicate Covers(mount: VolumeMount, path: string) {
    TextCovers(mount.mountPath, path)
  }

  // ---------------------------------------------------------------- the longest covering mount

  /** The first among the covering mounts of greatest, non-zero length. */
  ghost predicate IsLongest(mounts: seq<VolumeMount>, path: string, i: nat) {
    && i < |mounts|
    && Covers(mounts[i], path)
    && mounts[i].mountPath != ""
    && (forall j :: 0 <= j < |mounts| && Covers(mounts[j], path) ==>
          |mounts[j].mountPath| < |mounts[i].mountPath| || (i <= j && |mounts[j].mountPath| == |mounts[i].mountPath|))
  }

  ghost predicate NoneCovers(mounts: seq<VolumeMount>, path: string) {
    forall j :: 0 <= j < |mounts| && Covers(mounts[j], path) ==> mounts[j].mountPath == ""
  }

  function LongestMount(mounts: seq<VolumeMount>, path: string): (best: Option<nat>)
    ensures best.Some? ==> IsLongest(mounts, path, best.value)
    ensures best.None? ==> NoneCovers(mounts, path)
  {
    if mounts == [] then None else
      var n := |mounts| - 1;
      var best := LongestMount(mounts[..n], path);
      var bestLen := if best.None? then 0 else |mounts[best.value].mountPath|;
      if Covers(mounts[n], path) && |mounts[n].mountPath| > bestLen then Some(n) else best
  }

  /** The search is determined: nothing else is a longest mount. */
  lemma LongestIsUnique(mounts: seq<VolumeMount>, path: string, i: nat)
    ensures IsLongest(mounts, path, i) <==> LongestMount(mounts, path) == Some(i)
  {
    var best := LongestMount(mounts, path);
    if IsLongest(mounts, path, i) {
      assert best.Some?;
      assert Covers(mounts[best.value], path) && Covers(mounts[i], path);
    }
  }

  lemma CoveringIsPrefix(mount: VolumeMount, path: string)
    requires Covers(mount, path)
    ensures mount.mountPath <= path
  {
    if mount.mountPath != path {
      var p := mount.mountPath + "/";
      assert path[..|p|] == p;
      assert path[..|mount.mountPath|] == path[..|p|][..|mount.mountPath|];
      assert p[..|mount.mountPath|] == mount.mountPath;
    }
  }

  /** Two covering mounts of equal length are mounted at the same path. */
  lemma EqualLengthEqualPath(a: VolumeMount, b: VolumeMount, path: string)
    requires Covers(a, path) && Covers(b, path)
    requires |a.mountPath| == |b.mountPath|
    ensures a.mountPath == b.mountPath
  {
    CoveringIsPrefix(a, path);
    CoveringIsPrefix(b, path);
    assert a.mountPath == path[..|a.mountPath|] && b.mountPath == path[..|b.mountPath|];
  }

  // ---------------------------------------------------------------- container choice

  function FirstNamed(containers: seq<Container>, name: string): (c: Option<Container>)
    ensures c.Some? ==> c.value in containers && c.value.name == name
    ensures c.None? ==> forall i :: 0 <= i < |containers| ==> containers[i].name != name
  {
    if containers == [] then None
    else if containers[0].name == name then Some(containers[0])
    else FirstNamed(containers[1..], name)
  }

  /** The application container: the named one, or the first when no name is given. */
  function TargetContainer(containers: seq<Container>, name: string): Result<Container> {
    if containers == [] then Err(NoContainers)
    else if name == "" then Ok(containers[0])
    else
      match FirstNamed(containers, name)
      case None => Err(ContainerNotFound)
      case Some(c) => Ok(c)
  }

  lemma {:induction false} FirstNamedSkips(containers: seq<Container>, name: string, i: nat)
    requires i <= |containers|
    requires forall k :: 0 <= k < i ==> containers[k].name != name
    ensures FirstNamed(containers, name) == FirstNamed(containers[i..], name)
  {
    if i == 0 {
      assert containers[0..] == containers;
    } else {
      assert containers[0].name != name;
      FirstNamedSkips(containers[1..], name, i - 1);
      assert containers[1..][i - 1..] == containers[i..];
    }
  }

  // ---------------------------------------------------------------- what the two searches compute

  function MountOf(c: Container, path: string): Result<VolumeMount> {
    match LongestMount(c.mounts, path)
    case None => Err(NotCovered)
    case Some(i) => Ok(c.mounts[i])
  }

  function AppMount(containers: seq<Container>, path: string, name: string): Result<VolumeMount> {
    match TargetContainer(containers, name)
    case Err(e) => Err(e)
    case Ok(c) => MountOf(c, path)
  }

  /** The webhook's answer. */
  function FindMount(containers: seq<Container>, path: string, name: string): Result<ResolvedMount> {
    match AppMount(containers, path, name)
    case Err(e) => Err(e)
    case Ok(m) => Ok(ResolvedMount(m.volume, m.mountPath, m.subPath))
  }

  function ClaimOf(volumes: seq<Volume>, name: string): (claim: Option<string>)
    ensures claim.Some? ==> Volume(name, Claim(claim.value)) in volumes
    ensures claim.None? ==> forall c :: Volume(name, Claim(c)) !in volumes
  {
    if volumes == [] then None
    else if volumes[0].name == name && volumes[0].source.Claim? then Some(volumes[0].source.claim)
    else ClaimOf(volumes[1..], name)
  }

  /** The controller's answer for an InPlace restore. */
  function InPlaceTarget(pod: PodSpec, spec: ReplicaSpec): Result<Target> {
    match AppMount(pod.containers, spec.databasePath, spec.container)
    case Err(e) => Err(e)
    case Ok(m) =>
      match ClaimOf(pod.volumes, m.volume)
      case None => Err(NotAClaim)
      case Some(claim) => Ok(Target(claim, spec.databasePath + "/" + spec.databaseName, m.subPath))
  }

  // ---------------------------------------------------------------- the two searches

  /** sidecar_injector.go, findVolumeForPath. */
  method FindVolumeForPath(pod: PodSpec, dbPath: string, containerName: string) returns (r: Result<ResolvedMount>)
    ensures r == FindMount(pod.containers, dbPath, containerName)
  {
    if |pod.containers| == 0 { return Err(NoContainers); }
    var target := pod.containers[0];
    if containerName != "" {
      var i := 0;
      while i < |pod.containers| && pod.containers[i].name != containerName
        invariant i <= |pod.containers|
        invariant forall k :: 0 <= k < i ==> pod.containers[k].name != containerName
      {
        i := i + 1;
      }
      FirstNamedSkips(pod.containers, containerName, i);
      if i == |pod.containers| { return Err(ContainerNotFound); }
      target := pod.containers[i];
    }
    var bestMatch: Option<VolumeMount>, bestLen := None, 0;
    for i := 0 to |target.mounts|
      invariant MountOf(target.(mounts := target.mounts[..i]), dbPath) ==
                (if bestMatch.None? then Err(NotCovered) else Ok(bestMatch.value))
      invariant bestLen == if bestMatch.None? then 0 else |bestMatch.value.mountPath|
    {
      var vm := target.mounts[i];
      assert target.mounts[..i + 1][..i] == target.mounts[..i];
      if Covers(vm, dbPath) && |vm.mountPath| > bestLen {
        bestMatch, bestLen := Some(vm), |vm.mountPath|;
      }
    }
    assert target.mounts[..|target.mounts|] == target.mounts;
    if bestMatch.None? { return Err(NotCovered); }
    return Ok(ResolvedMount(bestMatch.value.volume, bestMatch.value.mountPath, bestMatch.value.subPath));
  }

  /** litestreamrestore_controller.go, the InPlace half of resolveRestoreTarget. */
  method ResolveInPlaceTarget(pod: PodSpec, spec: ReplicaSpec) returns (r: Result<Target>)
    ensures r == InPlaceTarget(pod, spec)
  {
    var dbPath := spec.databasePath;
    var target := ChooseContainer(pod.containers, spec.container);
    if target.Err? { return Err(target.error); }
    var bestMatch := FindLongest(target.value.mounts, dbPath);
    if bestMatch.None? { return Err(NotCovered); }
    var m := target.value.mounts[bestMatch.value];
    var claim := FindClaim(pod.volumes, m.volume);
    if claim.None? { return Err(NotAClaim); }
    return Ok(Target(claim.value, dbPath + "/" + spec.databaseName, m.subPath));
  }

  /** Its choice of container. */
  method ChooseContainer(containers: seq<Container>, name: string) returns (r: Result<Container>)
    ensures r == TargetContainer(containers, name)
  {
    if |containers| == 0 { return Err(NoContainers); }
    if name == "" { return Ok(containers[0]); }
    for i := 0 to |containers|
      invariant forall k :: 0 <= k < i ==> containers[k].name != name
    {
      if containers[i].name == name {
        FirstNamedSkips(containers, name, i);
        return Ok(containers[i]);
      }
    }
    FirstNamedSkips(containers, name, |containers|);
    return Err(ContainerNotFound);
  }

  /** Its search for the best match. */
  method FindLongest(mounts: seq<VolumeMount>, path: string) returns (best: Option<nat>)
    ensures best == LongestMount(mounts, path)
  {
    var bestLen := 0;
    best := None;
    for i := 0 to |mounts|
      invariant best == LongestMount(mounts[..i], path)
      invariant bestLen == if best.None? then 0 else |mounts[best.value].mountPath|
    {
      assert mounts[..i + 1][..i] == mounts[..i];
      if Covers(mounts[i], path) && |mounts[i].mountPath| > bestLen {
        best, bestLen := Some(i), |mounts[i].mountPath|;
      }
    }
    assert mounts[..|mounts|] == mounts;
  }

  /** The volume loop that ends resolveRestoreTarget. */
  method FindClaim(volumes: seq<Volume>, name: string) returns (claim: Option<string>)
    ensures claim == ClaimOf(volumes, name)
  {
    for i := 0 to |volumes|
      invariant ClaimOf(volumes, name) == ClaimOf(volumes[i..], name)
    {
      var vol := volumes[i];
      assert volumes[i..][0] == vol && volumes[i..][1..] == volumes[i + 1..];
      if vol.name == name && vol.source.Claim? { return Some(vol.source.claim); }
    }
    return None;
  }

  // ---------------------------------------------------------------- agreement

  /**
   On one pod spec the controller resolves a target exactly when the webhook finds a mount and
   that mount's volume is a claim; the two then name the same mount and subPath.
   */
  lemma SearchesAgree(pod: PodSpec, spec: ReplicaSpec)
    ensures
      var hook := FindMount(pod.containers, spec.databasePath, spec.container);
      var ctrl := InPlaceTarget(pod, spec);
      && (ctrl.Ok? <==> hook.Ok? && exists claim :: Volume(hook.value.volume, Claim(claim)) in pod.volumes)
      && (ctrl.Ok? ==> && ctrl.value.subPath == hook.value.subPath
                       && Volume(hook.value.volume, Claim(ctrl.value.pvc)) in pod.volumes
                       && hook.value.mountPath <= spec.databasePath)
      && (ctrl.Err? && ctrl.error != NotAClaim ==> hook == Err(ctrl.error))
  {
    var hook := FindMount(pod.containers, spec.databasePath, spec.container);
    var ctrl := InPlaceTarget(pod, spec);
    if hook.Ok? {
      var m := AppMount(pod.containers, spec.databasePath, spec.container).value;
      CoveringIsPrefix(m, spec.databasePath);
      var claim := ClaimOf(pod.volumes, m.volume);
    }
  }

  // ---------------------------------------------------------------- what is found, in terms of the lists

  /** The container at k is the one the spec asks for: the first of that name, or the first of all without a name. */
  ghost predicate Chosen(containers: seq<Container>, name: string, k: nat) {
    && k < |containers|
    && if name == "" then k == 0
       else containers[k].name == name && forall j :: 0 <= j < k ==> containers[j].name != name
  }

  lemma {:induction false} FirstNamedIs(containers: seq<Container>, name: string, k: nat)
    requires k < |containers| && containers[k].name == name && forall j :: 0 <= j < k ==> containers[j].name != name
    ensures FirstNamed(containers, name) == Some(containers[k])
  {
    FirstNamedSkips(containers, name, k);
  }

  lemma FirstNamedAt(containers: seq<Container>, name: string) returns (k: nat)
    requires FirstNamed(containers, name).Some?
    ensures k < |containers| && containers[k].name == name && forall j :: 0 <= j < k ==> containers[j].name != name
  {
    k := 0;
    while k < |containers| && containers[k].name != name
      invariant k <= |containers| && forall j :: 0 <= j < k ==> containers[j].name != name
    {
      k := k + 1;
    }
  }

  /** Which container is searched, and when there is none. */
  lemma ContainerChosenIff(containers: seq<Container>, name: string)
    ensures forall k: nat :: Chosen(containers, name, k) ==> TargetContainer(containers, name) == Ok(containers[k])
    ensures TargetContainer(containers, name).Ok? <==> exists k: nat :: Chosen(containers, name, k)
    ensures TargetContainer(containers, name) == Err(NoContainers) <==> |containers| == 0
    ensures TargetContainer(containers, name) == Err(ContainerNotFound) <==>
      |containers| > 0 && name != "" && forall k :: 0 <= k < |containers| ==> containers[k].name != name
  {
    if |containers| > 0 && name != "" {
      forall k: nat | Chosen(containers, name, k) ensures TargetContainer(containers, name) == Ok(containers[k]) {
        FirstNamedIs(containers, name, k);
      }
      if FirstNamed(containers, name).Some? {
        var k := FirstNamedAt(containers, name);
        assert Chosen(containers, name, k);
      }
    } else if |containers| > 0 {
      assert Chosen(containers, name, 0);
    }
  }

  lemma ChosenIsUnique(containers: seq<Container>, name: string, k: nat, l: nat)
    requires Chosen(containers, name, k) && Chosen(containers, name, l)
    ensures k == l
  {
  }

  /** The mount at i of the chosen container k is the longest that covers the path. */
  ghost predicate Settles(containers: seq<Container>, path: string, name: string, k: nat, i: nat) {
    Chosen(containers, name, k) && IsLongest(containers[k].mounts, path, i)
  }

  lemma SettlesIs(containers: seq<Container>, path: string, name: string, k: nat, i: nat)
    requires Settles(containers, path, name, k, i)
    ensures AppMount(containers, path, name) == Ok(containers[k].mounts[i])
  {
    ContainerChosenIff(containers, name);
    LongestIsUnique(containers[k].mounts, path, i);
  }

  lemma SettledAt(containers: seq<Container>, path: string, name: string) returns (k: nat, i: nat)
    requires AppMount(containers, path, name).Ok?
    ensures Settles(containers, path, name, k, i)
  {
    ContainerChosenIff(containers, name);
    k :| Chosen(containers, name, k);
    i := LongestMount(containers[k].mounts, path).value;
  }

  /**
   Both searches: the answer is the longest covering mount of the container the spec asks for, by index; it is NotCovered
   exactly when that container has no such mount.
   */
  lemma FoundIff(containers: seq<Container>, path: string, name: string, m: ResolvedMount)
    ensures
      FindMount(containers, path, name) == Ok(m) <==>
      exists k: nat, i: nat :: Settles(containers, path, name, k, i) && containers[k].mounts[i].volume == m.volume
        && containers[k].mounts[i].mountPath == m.mountPath && containers[k].mounts[i].subPath == m.subPath
    ensures
      FindMount(containers, path, name) == Err(NotCovered) <==>
      exists k: nat :: Chosen(containers, name, k) && NoneCovers(containers[k].mounts, path)
  {
    if FindMount(containers, path, name).Ok? {
      var k, i := SettledAt(containers, path, name);
      SettlesIs(containers, path, name, k, i);
    }
    forall k: nat, i: nat | Settles(containers, path, name, k, i)
      ensures AppMount(containers, path, name) == Ok(containers[k].mounts[i])
    {
      SettlesIs(containers, path, name, k, i);
    }
    NotCoveredIff(containers, path, name);
  }

  lemma NotCoveredIff(containers: seq<Container>, path: string, name: string)
    ensures
      AppMount(containers, path, name) == Err(NotCovered) <==>
      exists k: nat :: Chosen(containers, name, k) && NoneCovers(containers[k].mounts, path)
  {
    ContainerChosenIff(containers, name);
    forall k: nat | Chosen(containers, name, k)
      ensures LongestMount(containers[k].mounts, path).None? <==> NoneCovers(containers[k].mounts, path)
    {
      var best := LongestMount(containers[k].mounts, path);
    }
  }

  /** The controller's target: the claim behind that mount, the database file, and the mount's subPath. */
  lemma ResolvedIff(pod: PodSpec, spec: ReplicaSpec, target: Target)
    ensures
      InPlaceTarget(pod, spec) == Ok(target) <==>
      && target.path == spec.databasePath + "/" + spec.databaseName
      && exists k: nat, i: nat :: Settles(pod.containers, spec.databasePath, spec.container, k, i)
           && ClaimOf(pod.volumes, pod.containers[k].mounts[i].volume) == Some(target.pvc)
           && pod.containers[k].mounts[i].subPath == target.subPath
  {
    if InPlaceTarget(pod, spec).Ok? {
      var k, i := SettledAt(pod.containers, spec.databasePath, spec.container);
      SettlesIs(pod.containers, spec.databasePath, spec.container, k, i);
    }
    forall k: nat, i: nat | Settles(pod.containers, spec.databasePath, spec.container, k, i)
      ensures AppMount(pod.containers, spec.databasePath, spec.container) == Ok(pod.containers[k].mounts[i])
    {
      SettlesIs(pod.containers, spec.databasePath, spec.container, k, i);
    }
  }
}
