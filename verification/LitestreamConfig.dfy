/**
 The litestream.yml renderer, the text written while replication is paused, and a line
 decoder that recovers from a rendered file everything the renderer was given.
 */
module LitestreamConfig {
  import opened ApiTypes
  import opened Text

  const PAUSED_CONFIG := "dbs: []\n"

  /** The key prefixes of the rendered file. */
  const PATH_KEY := "  - path: "
  const ENDPOINT_KEY := "      endpoint: "
  const REGION_KEY := "      region: "
  const BUCKET_KEY := "      bucket: "
  const S3_PATH_KEY := "      path: "
  const RETENTION_KEY := "      retention: "
  const SYNC_KEY := "      sync-interval: "
  const PATH_STYLE := "      force-path-style: true"
  const AUTO_RECOVER := "      auto-recover: true"

  function DatabaseFile(spec: ReplicaSpec): string {
    spec.databasePath + "/" + spec.databaseName
  }

  /** An endpoint without a scheme is taken to be plain HTTP. */
  function WithScheme(endpoint: string): string {
    if HasPrefix(endpoint, "http://") || HasPrefix(endpoint, "https://") then endpoint else "http://" + endpoint
  }

  function Line(key: string, value: string): seq<string> {
    if value == "" then [] else [key + value]
  }

  function RenderReplica(s3: S3Destination, backup: Backup): seq<string> {
    (if s3.endpoint == "" then [] else [ENDPOINT_KEY + WithScheme(s3.endpoint)] + [PATH_STYLE]) +
    (Line(REGION_KEY, s3.region) +
     ([BUCKET_KEY + s3.bucket] +
      ((if s3.path == "" then [] else [S3_PATH_KEY + TrimSlashes(s3.path)]) +
       (Line(RETENTION_KEY, backup.retention) +
        (Line(SYNC_KEY, backup.syncInterval) +
         (if backup.autoRecover then [AUTO_RECOVER] else []))))))
  }

  function HeadLines(path: string): seq<string> {
    ["addr: \":9090\"", "dbs:", PATH_KEY + path]
  }

  function RenderLines(spec: ReplicaSpec): seq<string> {
    HeadLines(DatabaseFile(spec)) +
    (if spec.backup.enabled && spec.backup.s3.Some? then
       ["    replica:", "      type: s3"] + RenderReplica(spec.backup.s3.value, spec.backup)
     else [])
  }

  /** The whole litestream.yml of a replica: every append of the renderer ends a line. */
  function Render(spec: ReplicaSpec): string {
    Unlines(RenderLines(spec))
  }

  // ---------------------------------------------------------------- what the file says

  datatype ReplicaConfig = ReplicaConfig(
    endpoint: Option<string>,
    region: Option<string>,
    bucket: string,
    path: Option<string>,
    retention: Option<string>,
    syncInterval: Option<string>,
    autoRecover: bool)

  datatype Config = Config(path: string, replica: Option<ReplicaConfig>)

  function Given(value: string): Option<string> {
    if value == "" then None else Some(value)
  }

  /** The content a spec asks for: joined path, endpoint with scheme, trimmed prefix, optional keys iff set. */
  function Normalised(spec: ReplicaSpec): Config {
    Config(DatabaseFile(spec),
           if spec.backup.enabled && spec.backup.s3.Some? then
             Some(NormalisedReplica(spec.backup.s3.value, spec.backup))
           else None)
  }

  function NormalisedReplica(s3: S3Destination, backup: Backup): ReplicaConfig {
    ReplicaConfig(
      if s3.endpoint == "" then None else Some(WithScheme(s3.endpoint)),
      Given(s3.region),
      s3.bucket,
      if s3.path == "" then None else Some(TrimSlashes(s3.path)),
      Given(backup.retention),
      Given(backup.syncInterval),
      backup.autoRecover)
  }

  ghost predicate OneLineFields(spec: ReplicaSpec) {
    && OneLine(spec.databasePath) && OneLine(spec.databaseName)
    && OneLine(spec.backup.retention) && OneLine(spec.backup.syncInterval)
    && (spec.backup.s3.Some? ==>
          var s3 := spec.backup.s3.value;
          OneLine(s3.endpoint) && OneLine(s3.region) && OneLine(s3.bucket) && OneLine(s3.path))
  }

  // ---------------------------------------------------------------- decoder

  /** Takes the value of `key` off the front, when the first line carries that key. */
  function TakeField(lines: seq<string>, key: string): (Option<string>, seq<string>) {
    if lines != [] && HasPrefix(lines[0], key) then (Some(lines[0][|key|..]), lines[1..]) else (None, lines)
  }

  /** Takes the given line off the front, when it is there. */
  function TakeLine(lines: seq<string>, line: string): (bool, seq<string>) {
    if lines != [] && lines[0] == line then (true, lines[1..]) else (false, lines)
  }

  function DecodeReplica(lines: seq<string>): Option<ReplicaConfig> {
    var (endpoint, l1) := TakeField(lines, ENDPOINT_KEY);
    var (pathStyle, l2) := TakeLine(l1, PATH_STYLE);
    var (region, l3) := TakeField(l2, REGION_KEY);
    var (bucket, l4) := TakeField(l3, BUCKET_KEY);
    var (path, l5) := TakeField(l4, S3_PATH_KEY);
    var (retention, l6) := TakeField(l5, RETENTION_KEY);
    var (sync, l7) := TakeField(l6, SYNC_KEY);
    var (recover, l8) := TakeLine(l7, AUTO_RECOVER);
    if bucket.None? || l8 != [] || pathStyle != endpoint.Some? then None
    else Some(ReplicaConfig(endpoint, region, bucket.value, path, retention, sync, recover))
  }

  function DecodeLines(lines: seq<string>): Option<Config> {
    if |lines| < 3 || lines[0] != "addr: \":9090\"" || lines[1] != "dbs:" || !HasPrefix(lines[2], PATH_KEY) then None
    else
      var path := lines[2][|PATH_KEY|..];
      if |lines| == 3 then Some(Config(path, None))
      else if |lines| < 5 || lines[3] != "    replica:" || lines[4] != "      type: s3" then None
      else
        match DecodeReplica(lines[5..])
        case None => None
        case Some(replica) => Some(Config(path, Some(replica)))
  }

  function Decode(text: string): Option<Config> {
    DecodeLines(Lines(text))
  }

  // ---------------------------------------------------------------- round trip

  /** The seventh column tells the fields of a replica apart. */
  ghost predicate OtherThan(lines: seq<string>, key: string) {
    |key| > 6 && (lines == [] || (|lines[0]| > 6 && lines[0][6] != key[6]))
  }

  lemma SkipsField(lines: seq<string>, key: string)
    requires OtherThan(lines, key)
    ensures TakeField(lines, key) == (None, lines)
  {
    if lines != [] {
      assert |lines[0]| >= |key| ==> lines[0][..|key|][6] == lines[0][6];
    }
  }

  lemma TakesField(key: string, value: string, rest: seq<string>)
    ensures TakeField([key + value] + rest, key) == (Some(value), rest)
  {
    assert ([key + value] + rest)[1..] == rest;
    assert (key + value)[|key|..] == value && (key + value)[..|key|] == key;
  }

  function FieldLine(key: string, value: Option<string>): seq<string> {
    if value.None? then [] else [key + value.value]
  }

  lemma TakesOptional(key: string, value: Option<string>, rest: seq<string>)
    requires OtherThan(rest, key)
    ensures TakeField(FieldLine(key, value) + rest, key) == (value, rest)
  {
    if value.None? {
      assert FieldLine(key, value) + rest == rest;
      SkipsField(rest, key);
    } else {
      TakesField(key, value.value, rest);
    }
  }

  /** A field in front of lines that are other than `key` keeps them other than `key`. */
  lemma StaysOther(first: string, value: Option<string>, rest: seq<string>, key: string)
    requires |first| > 6 && |key| > 6 && first[6] != key[6] && OtherThan(rest, key)
    ensures OtherThan(FieldLine(first, value) + rest, key)
  {
    if value.None? {
      assert FieldLine(first, value) + rest == rest;
    } else {
      assert (first + value.value)[6] == first[6];
    }
  }

  function TailLines(r: ReplicaConfig): seq<string> {
    FieldLine(S3_PATH_KEY, r.path) +
    (FieldLine(RETENTION_KEY, r.retention) + (FieldLine(SYNC_KEY, r.syncInterval) + RecoverLine(r)))
  }

  function RecoverLine(r: ReplicaConfig): seq<string> {
    if r.autoRecover then [AUTO_RECOVER] else []
  }

  lemma DecodesTail(r: ReplicaConfig)
    ensures
      var (path, l5) := TakeField(TailLines(r), S3_PATH_KEY);
      var (retention, l6) := TakeField(l5, RETENTION_KEY);
      var (sync, l7) := TakeField(l6, SYNC_KEY);
      var (recover, l8) := TakeLine(l7, AUTO_RECOVER);
      (path, retention, sync, recover, l8) == (r.path, r.retention, r.syncInterval, r.autoRecover, [])
  {
    var d := RecoverLine(r);
    assert d != [] ==> d[1..] == [];
    var c := FieldLine(SYNC_KEY, r.syncInterval) + d;
    var b := FieldLine(RETENTION_KEY, r.retention) + c;
    TakesOptional(SYNC_KEY, r.syncInterval, d);
    StaysOther(SYNC_KEY, r.syncInterval, d, RETENTION_KEY);
    TakesOptional(RETENTION_KEY, r.retention, c);
    StaysOther(SYNC_KEY, r.syncInterval, d, S3_PATH_KEY);
    StaysOther(RETENTION_KEY, r.retention, c, S3_PATH_KEY);
    TakesOptional(S3_PATH_KEY, r.path, b);
  }

  function EndpointLines(endpoint: Option<string>): seq<string> {
    if endpoint.None? then [] else [ENDPOINT_KEY + endpoint.value] + [PATH_STYLE]
  }

  function ReplicaLines(r: ReplicaConfig): seq<string> {
    EndpointLines(r.endpoint) + (FieldLine(REGION_KEY, r.region) + ([BUCKET_KEY + r.bucket] + TailLines(r)))
  }

  lemma TakesEndpoint(endpoint: Option<string>, rest: seq<string>)
    requires OtherThan(rest, ENDPOINT_KEY) && OtherThan(rest, PATH_STYLE)
    ensures
      var (e, l1) := TakeField(EndpointLines(endpoint) + rest, ENDPOINT_KEY);
      e == endpoint && TakeLine(l1, PATH_STYLE) == (endpoint.Some?, rest)
  {
    if endpoint.None? {
      assert EndpointLines(endpoint) + rest == rest;
      SkipsField(rest, ENDPOINT_KEY);
    } else {
      assert EndpointLines(endpoint) + rest == [ENDPOINT_KEY + endpoint.value] + ([PATH_STYLE] + rest);
      TakesField(ENDPOINT_KEY, endpoint.value, [PATH_STYLE] + rest);
      assert ([PATH_STYLE] + rest)[1..] == rest;
    }
  }

  lemma DecodesReplica(r: ReplicaConfig)
    ensures DecodeReplica(ReplicaLines(r)) == Some(r)
  {
    var d := TailLines(r);
    var c := [BUCKET_KEY + r.bucket] + d;
    var b := FieldLine(REGION_KEY, r.region) + c;
    assert c[0][6] == 'b';
    TakesField(BUCKET_KEY, r.bucket, d);
    TakesOptional(REGION_KEY, r.region, c);
    StaysOther(REGION_KEY, r.region, c, ENDPOINT_KEY);
    StaysOther(REGION_KEY, r.region, c, PATH_STYLE);
    TakesEndpoint(r.endpoint, b);
    DecodesTail(r);
  }

  /** The renderer prints the lines of the normalised content. */
  lemma RendersReplica(s3: S3Destination, backup: Backup)
    ensures RenderReplica(s3, backup) == ReplicaLines(NormalisedReplica(s3, backup))
  {
  }

  lemma DecodesHead(path: string, replica: Option<ReplicaConfig>, body: seq<string>)
    requires replica.None? ==> body == []
    requires replica.Some? ==> body != [] && DecodeReplica(body) == replica
    ensures
      var rest := if replica.None? then [] else ["    replica:", "      type: s3"] + body;
      DecodeLines(HeadLines(path) + rest) == Some(Config(path, replica))
  {
    var rest := if replica.None? then [] else ["    replica:", "      type: s3"] + body;
    var lines := HeadLines(path) + rest;
    assert lines[2] == PATH_KEY + path;
    assert lines[2][|PATH_KEY|..] == path && lines[2][..|PATH_KEY|] == PATH_KEY;
    if replica.Some? {
      assert lines[3] == "    replica:" && lines[4] == "      type: s3" && lines[5..] == body;
    }
  }

  lemma DecodesRendered(spec: ReplicaSpec)
    ensures DecodeLines(RenderLines(spec)) == Some(Normalised(spec))
  {
    if spec.backup.enabled && spec.backup.s3.Some? {
      RendersReplica(spec.backup.s3.value, spec.backup);
      DecodesReplica(NormalisedReplica(spec.backup.s3.value, spec.backup));
      DecodesHead(DatabaseFile(spec), Normalised(spec).replica, RenderReplica(spec.backup.s3.value, spec.backup));
    } else {
      DecodesHead(DatabaseFile(spec), None, []);
    }
  }

  lemma {:induction false} TrimKeepsOneLine(s: string)
    requires OneLine(s)
    ensures OneLine(TrimSlashes(s))
  {
    var t := TrimSlashes(s);
    assert t == s[..|t|];
  }

  ghost predicate AllOneLine(lines: seq<string>) {
    forall l :: l in lines ==> OneLine(l)
  }

  lemma OneLineReplica(s3: S3Destination, backup: Backup)
    requires OneLine(s3.endpoint) && OneLine(s3.region) && OneLine(s3.bucket) && OneLine(s3.path)
    requires OneLine(backup.retention) && OneLine(backup.syncInterval)
    ensures AllOneLine(RenderReplica(s3, backup))
  {
    TrimKeepsOneLine(s3.path);
    assert AllOneLine(Line(REGION_KEY, s3.region));
    assert AllOneLine(Line(RETENTION_KEY, backup.retention));
    assert AllOneLine(Line(SYNC_KEY, backup.syncInterval));
    assert AllOneLine([BUCKET_KEY + s3.bucket]);
    assert AllOneLine([S3_PATH_KEY + TrimSlashes(s3.path)]);
    assert AllOneLine([ENDPOINT_KEY + WithScheme(s3.endpoint), PATH_STYLE]);
  }

  lemma OneLineRendered(spec: ReplicaSpec)
    requires OneLineFields(spec)
    ensures AllOneLine(RenderLines(spec))
  {
    assert AllOneLine(["addr: \":9090\"", "dbs:", PATH_KEY + DatabaseFile(spec)]);
    if spec.backup.enabled && spec.backup.s3.Some? {
      OneLineReplica(spec.backup.s3.value, spec.backup);
    }
  }

  /** Config round trip: decoding a rendered litestream.yml gives back the normalised content. */
  lemma {:induction false} RoundTrip(spec: ReplicaSpec)
    requires OneLineFields(spec)
    ensures Decode(Render(spec)) == Some(Normalised(spec))
  {
    OneLineRendered(spec);
    LinesOfUnlines(RenderLines(spec));
    DecodesRendered(spec);
  }

  /** Hence equal files mean equal content. */
  lemma EqualTextEqualContent(a: ReplicaSpec, b: ReplicaSpec)
    requires OneLineFields(a) && OneLineFields(b)
    requires Render(a) == Render(b)
    ensures Normalised(a) == Normalised(b)
  {
    RoundTrip(a);
    RoundTrip(b);
  }

  // ---------------------------------------------------------------- the file, key by key

  /** The whole file, as it is written. */
  lemma FileReads(spec: ReplicaSpec)
    ensures
      Render(spec) ==
      "addr: \":9090\"\n" + ("dbs:\n" + ("  - path: " + (spec.databasePath + "/" + spec.databaseName) + "\n" +
      (if spec.backup.enabled && spec.backup.s3.Some? then
         "    replica:\n" + ("      type: s3\n" + ReplicaText(spec.backup.s3.value, spec.backup))
       else "")))
  {
    var on := spec.backup.enabled && spec.backup.s3.Some?;
    var replica := if on then RenderReplica(spec.backup.s3.value, spec.backup) else [];
    var rest := if on then ["    replica:", "      type: s3"] + replica else [];
    var head := HeadLines(DatabaseFile(spec));
    UnlinesThree(head[0], head[1], head[2], rest);
    assert head == [head[0], head[1], head[2]];
    if on {
      UnlinesTwo("    replica:", "      type: s3", replica);
      assert "    replica:" + "\n" == "    replica:\n" && "      type: s3" + "\n" == "      type: s3\n";
      ReplicaReads(spec.backup.s3.value, spec.backup);
    }
    assert "addr: \":9090\"" + "\n" == "addr: \":9090\"\n" && "dbs:" + "\n" == "dbs:\n";
  }

  /** The keys of the replica, each there exactly when its field is set; a bare endpoint is plain HTTP. */
  function ReplicaText(s3: S3Destination, backup: Backup): string {
    (if s3.endpoint == "" then "" else
       "      endpoint: " + (if "http://" <= s3.endpoint || "https://" <= s3.endpoint then s3.endpoint else "http://" + s3.endpoint)
       + "\n" + "      force-path-style: true\n") +
    ((if s3.region == "" then "" else "      region: " + s3.region + "\n") +
     (("      bucket: " + s3.bucket + "\n") +
      ((if s3.path == "" then "" else "      path: " + TrimSlashes(s3.path) + "\n") +
       ((if backup.retention == "" then "" else "      retention: " + backup.retention + "\n") +
        ((if backup.syncInterval == "" then "" else "      sync-interval: " + backup.syncInterval + "\n") +
         (if backup.autoRecover then "      auto-recover: true\n" else ""))))))
  }

  lemma UnlinesTwo(a: string, b: string, rest: seq<string>)
    ensures Unlines([a, b] + rest) == a + "\n" + (b + "\n" + Unlines(rest))
  {
    assert ([a, b] + rest)[1..] == [b] + rest && ([b] + rest)[1..] == rest;
  }

  lemma UnlinesThree(a: string, b: string, c: string, rest: seq<string>)
    ensures Unlines([a, b, c] + rest) == a + "\n" + (b + "\n" + (c + "\n" + Unlines(rest)))
  {
    assert ([a, b, c] + rest)[1..] == [b, c] + rest;
    UnlinesTwo(b, c, rest);
  }

  lemma UnlinesOne(line: string)
    ensures Unlines([line]) == line + "\n"
  {
    assert [line][1..] == [];
  }

  lemma EndpointReads(s3: S3Destination)
    requires s3.endpoint != ""
    ensures
      Unlines([ENDPOINT_KEY + WithScheme(s3.endpoint)] + [PATH_STYLE]) ==
      "      endpoint: " + (if "http://" <= s3.endpoint || "https://" <= s3.endpoint then s3.endpoint else "http://" + s3.endpoint)
      + "\n" + "      force-path-style: true\n"
  {
    var line := ENDPOINT_KEY + WithScheme(s3.endpoint);
    UnlinesAppend([line], [PATH_STYLE]);
    UnlinesOne(line);
    UnlinesOne(PATH_STYLE);
    assert PATH_STYLE + "\n" == "      force-path-style: true\n";
  }

  lemma LineReads(key: string, value: string)
    ensures Unlines(Line(key, value)) == if value == "" then "" else key + value + "\n"
  {
    UnlinesOne(key + value);
  }

  function TimingLines(backup: Backup): seq<string> {
    Line(RETENTION_KEY, backup.retention) + (Line(SYNC_KEY, backup.syncInterval) + if backup.autoRecover then [AUTO_RECOVER] else [])
  }

  lemma TimingReads(backup: Backup)
    ensures
      Unlines(TimingLines(backup)) ==
      (if backup.retention == "" then "" else "      retention: " + backup.retention + "\n") +
      ((if backup.syncInterval == "" then "" else "      sync-interval: " + backup.syncInterval + "\n") +
       (if backup.autoRecover then "      auto-recover: true\n" else ""))
  {
    var g := if backup.autoRecover then [AUTO_RECOVER] else [];
    var f, d := Line(SYNC_KEY, backup.syncInterval), Line(RETENTION_KEY, backup.retention);
    UnlinesAppend(d, f + g);
    UnlinesAppend(f, g);
    LineReads(RETENTION_KEY, backup.retention);
    LineReads(SYNC_KEY, backup.syncInterval);
    UnlinesOne(AUTO_RECOVER);
    assert AUTO_RECOVER + "\n" == "      auto-recover: true\n";
  }

  lemma ReplicaReads(s3: S3Destination, backup: Backup)
    ensures Unlines(RenderReplica(s3, backup)) == ReplicaText(s3, backup)
  {
    var e := if s3.endpoint == "" then [] else [ENDPOINT_KEY + WithScheme(s3.endpoint)] + [PATH_STYLE];
    var d := TimingLines(backup);
    var c := if s3.path == "" then [] else [S3_PATH_KEY + TrimSlashes(s3.path)];
    var b := [BUCKET_KEY + s3.bucket];
    var a := Line(REGION_KEY, s3.region);
    assert RenderReplica(s3, backup) == e + (a + (b + (c + d)));
    UnlinesAppend(e, a + (b + (c + d)));
    UnlinesAppend(a, b + (c + d));
    UnlinesAppend(b, c + d);
    UnlinesAppend(c, d);
    if s3.endpoint != "" {
      EndpointReads(s3);
    }
    LineReads(REGION_KEY, s3.region);
    UnlinesOne(BUCKET_KEY + s3.bucket);
    UnlinesOne(S3_PATH_KEY + TrimSlashes(s3.path));
    TimingReads(backup);
  }

  /** The pause handshake reads the file back: no spec at all renders to the paused text. */
  lemma NeverPausedText(spec: ReplicaSpec)
    ensures Render(spec) != PAUSED_CONFIG == "dbs: []\n"
  {
    assert Render(spec)[0] == 'a' && PAUSED_CONFIG[0] == 'd';
  }
}
