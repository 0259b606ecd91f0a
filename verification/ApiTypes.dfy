/** The API objects of the operator, reduced to the fields its logic reads or writes. */
module ApiTypes {

  datatype Option<+T> = None | Some(value: T)

  // runAsUser and runAsGroup are 64-bit in the API.
  type Int64 = x: int | -0x8000_0000_0000_0000 <= x < 0x8000_0000_0000_0000

  // ---------------------------------------------------------------- LitestreamReplica

  datatype S3Destination = S3Destination(
    endpoint: string, bucket: string, path: string, region: string, secretRef: string)

  datatype Resources = Resources(limits: map<string, string>, requests: map<string, string>)

  datatype Backup = Backup(
    enabled: bool,
    s3: Option<S3Destination>,
    retention: string,
    syncInterval: string,
    logLevel: string,
    resources: Option<Resources>,
    autoRecover: bool)

  datatype Bootstrap = Bootstrap(sql: string, image: string)

  datatype ReplicaSpec = ReplicaSpec(
    databaseName: string,
    databasePath: string,
    container: string,
    image: string,
    backup: Backup,
    recoveryMode: string,
    bootstrap: Bootstrap,
    runAsUser: Option<Int64>,
    runAsGroup: Option<Int64>)

  const RECOVERY_AUTOMATIC := "automatic"

  // ---------------------------------------------------------------- pods

  datatype VolumeMount = VolumeMount(volume: string, mountPath: string, subPath: string, readOnly: bool)

  datatype EnvVar = Literal(name: string, value: string) | FromSecret(name: string, secret: string, key: string)

  datatype SecurityContext = SecurityContext(runAsUser: Option<Int64>, runAsGroup: Option<Int64>)

  /** What a container runs. The two operator scripts are kept as their kind and database file. */
  datatype Program =
    | Command(words: seq<string>)
    | RestoreIfMissing(database: string)
    | BootstrapIfMissing(database: string)

  datatype Container = Container(
    name: string,
    image: string,
    program: Program,
    env: seq<EnvVar>,
    ports: seq<nat>,
    mounts: seq<VolumeMount>,
    resources: Option<Resources>,
    security: Option<SecurityContext>)

  datatype VolumeSource = Claim(claim: string) | ConfigMapSource(configMap: string) | OtherSource

  datatype Volume = Volume(name: string, source: VolumeSource)

  datatype PodSpec = PodSpec(
    containers: seq<Container>,
    initContainers: seq<Container>,
    volumes: seq<Volume>)

  // ---------------------------------------------------------------- LitestreamRestore

  /** Where a restore Job writes: claim, file path, and subPath of the volume mount. */
  datatype Target = Target(pvc: string, path: string, subPath: string)
}
