/**
 The text that injectionSpecHash feeds to SHA-256, a decoder for it, and exactly which specs share a text.
 Bootstrap SQL is the one field that may span lines, and it is followed by the optional run-as lines.
 */
module SpecHash {
  import opened ApiTypes
  import opened Text

  datatype HashedS3 = HashedS3(endpoint: string, bucket: string, path: string, secretRef: string)

  /** The fields of a spec that the hash is about. */
  datatype Hashed = Hashed(
    image: string,
    recoveryMode: string,
    databaseName: string,
    databasePath: string,
    enabled: bool,
    s3: Option<HashedS3>,
    logLevel: string,
    syncInterval: string,
    sql: string,
    runAsUser: Option<Int64>,
    runAsGroup: Option<Int64>)

  function HashedFields(spec: ReplicaSpec): Hashed {
    Hashed(spec.image, spec.recoveryMode, spec.databaseName, spec.databasePath, spec.backup.enabled,
           match spec.backup.s3
           case None => None
           case Some(s3) => Some(HashedS3(s3.endpoint, s3.bucket, s3.path, s3.secretRef)),
           spec.backup.logLevel, spec.backup.syncInterval, spec.bootstrap.sql, spec.runAsUser, spec.runAsGroup)
  }

  ghost predicate OneLineHead(h: Hashed) {
    && OneLine(h.image) && OneLine(h.recoveryMode) && OneLine(h.databaseName) && OneLine(h.databasePath)
    && (h.s3.Some? ==> && OneLine(h.s3.value.endpoint) && OneLine(h.s3.value.bucket)
                       && OneLine(h.s3.value.path) && OneLine(h.s3.value.secretRef))
    && OneLine(h.logLevel) && OneLine(h.syncInterval)
  }

  // ---------------------------------------------------------------- the text

  const SPEC_KEYS := ["image=", "recovery.mode=", "databaseName=", "databasePath=", "backup.enabled="]
  const S3_KEYS := ["s3.endpoint=", "s3.bucket=", "s3.path=", "s3.secretRef="]
  const BACKUP_KEYS := ["backup.logLevel=", "backup.syncInterval="]
  const SQL_KEY := "bootstrap.sql="
  const USER_KEY := "runAsUser="
  const GROUP_KEY := "runAsGroup="

  /** One key=value line per key, then the rest of the text. */
  function Fields(keys: seq<string>, values: seq<string>, rest: string): string
    requires |keys| == |values|
  {
    if keys == [] then rest else keys[0] + values[0] + "\n" + Fields(keys[1..], values[1..], rest)
  }

  function SpecValues(h: Hashed): seq<string> {
    [h.image, h.recoveryMode, h.databaseName, h.databasePath, if h.enabled then "true" else "false"]
  }

  function S3Values(s3: HashedS3): seq<string> {
    [s3.endpoint, s3.bucket, s3.path, s3.secretRef]
  }

  /** A run-as field as it follows the line before it: a newline, then key and number. */
  function RunAs(key: string, id: Option<Int64>): string {
    if id.None? then "" else "\n" + (key + ShowInt(id.value))
  }

  /** The text up to its last newline, from the SQL on. */
  function Trailer(h: Hashed): string {
    h.sql + RunAs(USER_KEY, h.runAsUser) + RunAs(GROUP_KEY, h.runAsGroup)
  }

  function BackupText(h: Hashed): string {
    Fields(BACKUP_KEYS, [h.logLevel, h.syncInterval], SQL_KEY + (Trailer(h) + "\n"))
  }

  function S3Text(h: Hashed): string {
    if h.s3.None? then BackupText(h) else Fields(S3_KEYS, S3Values(h.s3.value), BackupText(h))
  }

  function TextOf(h: Hashed): string {
    Fields(SPEC_KEYS, SpecValues(h), S3Text(h))
  }

  /** What injectionSpecHash hashes. */
  function HashText(spec: ReplicaSpec): string {
    TextOf(HashedFields(spec))
  }

  // ---------------------------------------------------------------- decoder

  function TakeValues(text: string, keys: seq<string>): (r: Option<(seq<string>, string)>)
    ensures r.Some? ==> |r.value.0| == |keys|
    decreases |keys|
  {
    if keys == [] then Some(([], text))
    else if !HasPrefix(text, keys[0]) then None
    else
      var t := text[|keys[0]|..];
      var i := FirstBreak(t);
      if i == |t| then None
      else
        match TakeValues(t[i + 1..], keys[1..])
        case None => None
        case Some((values, rest)) => Some(([t[..i]] + values, rest))
  }

  /** Where the last newline is, or -1. */
  function LastBreak(s: string): (i: int)
    ensures -1 <= i < |s|
    ensures i >= 0 ==> s[i] == '\n'
    ensures forall j :: i < j < |s| ==> s[j] != '\n'
  {
    if s == "" then -1 else
      var n := |s| - 1;
      if s[n] == '\n' then n else LastBreak(s[..n])
  }

  predicate IsInt64(n: int) {
    -0x8000_0000_0000_0000 <= n < 0x8000_0000_0000_0000
  }

  /** The number on a run-as line. */
  function RunAsId(line: string, key: string): Option<Int64> {
    if !HasPrefix(line, key) then None
    else
      match ParseInt(line[|key|..])
      case None => None
      case Some(n) => if IsInt64(n) then Some(n) else None
  }

  /** Takes a trailing run-as line off a text of several lines. */
  function Peel(text: string, key: string): (Option<Int64>, string) {
    var k := LastBreak(text);
    if k < 0 then (None, text) else PeelAt(text[..k], text[k + 1..], key)
  }

  function PeelAt(front: string, line: string, key: string): (Option<Int64>, string) {
    var id := RunAsId(line, key);
    (id, if id.None? then front + "\n" + line else front)
  }

  function DecodeTrailer(text: string): (string, Option<Int64>, Option<Int64>) {
    var (group, t1) := Peel(text, GROUP_KEY);
    var (user, sql) := Peel(t1, USER_KEY);
    (sql, user, group)
  }

  function DecodeSql(text: string): Option<(string, Option<Int64>, Option<Int64>)> {
    if HasPrefix(text, SQL_KEY) && text[|text| - 1] == '\n' then Some(DecodeTrailer(text[|SQL_KEY|..|text| - 1])) else None
  }

  function DecodeBackup(v: seq<string>, s3: Option<HashedS3>, text: string): Option<Hashed>
    requires |v| == 5
  {
    match TakeValues(text, BACKUP_KEYS)
    case None => None
    case Some((b, rest)) =>
      match DecodeSql(rest)
      case None => None
      case Some((sql, user, group)) =>
        Some(Hashed(v[0], v[1], v[2], v[3], v[4] == "true", s3, b[0], b[1], sql, user, group))
  }

  function DecodeS3(v: seq<string>, text: string): Option<Hashed>
    requires |v| == 5
  {
    if !HasPrefix(text, "s3.") then DecodeBackup(v, None, text)
    else
      match TakeValues(text, S3_KEYS)
      case None => None
      case Some((d, rest)) => DecodeBackup(v, Some(HashedS3(d[0], d[1], d[2], d[3])), rest)
  }

  function DecodeText(text: string): Option<Hashed> {
    match TakeValues(text, SPEC_KEYS)
    case None => None
    case Some((v, rest)) => DecodeS3(v, rest)
  }

  // ---------------------------------------------------------------- which fields a text stands for

  /**
   The one ambiguity: SQL whose last line reads like a run-as line, with that field and the ones after
   it unset, has the text of a spec in which the field is set.
   */
  function Canonical(h: Hashed): Hashed {
    var (group, t1) := if h.runAsUser.None? && h.runAsGroup.None? then Peel(h.sql, GROUP_KEY) else (h.runAsGroup, h.sql);
    var (user, t2) := if h.runAsUser.None? then Peel(t1, USER_KEY) else (h.runAsUser, t1);
    h.(sql := t2, runAsUser := user, runAsGroup := group)
  }

  /** The text ends in a run-as line after at least one other line. */
  ghost predicate EndsInRunAs(text: string, key: string) {
    exists p: string, n: Int64 :: text == p + RunAs(key, Some(n))
  }

  /** The SQL does not end in a line that is taken for an unset run-as field. */
  ghost predicate Unambiguous(h: Hashed) {
    && (h.runAsUser.None? ==> !EndsInRunAs(h.sql, USER_KEY))
    && (h.runAsUser.None? && h.runAsGroup.None? ==> !EndsInRunAs(h.sql, GROUP_KEY))
  }

  // ---------------------------------------------------------------- the head lines

  ghost predicate AllOneLine(values: seq<string>) {
    forall i :: 0 <= i < |values| ==> OneLine(values[i])
  }

  lemma TakesValue(key: string, value: string, more: string)
    requires OneLine(value)
    ensures
      var text := key + value + "\n" + more;
      && HasPrefix(text, key)
      && var t := text[|key|..]; FirstBreak(t) == |value| < |t| && t[..|value|] == value && t[|value| + 1..] == more
  {
    var text, t := key + value + "\n" + more, value + "\n" + more;
    assert text == key + t;
    assert text[..|key|] == key && text[|key|..] == t;
    FirstBreakOfLine(value, more);
    assert t[..|value|] == value && t[|value| + 1..] == more;
  }

  lemma {:induction false} TakesFields(keys: seq<string>, values: seq<string>, rest: string)
    requires |keys| == |values| && AllOneLine(values)
    ensures TakeValues(Fields(keys, values, rest), keys) == Some((values, rest))
  {
    if keys != [] {
      var key, value := keys[0], values[0];
      var more := Fields(keys[1..], values[1..], rest);
      TakesValue(key, value, more);
      TakesFields(keys[1..], values[1..], rest);
      assert [value] + values[1..] == values;
    }
  }

  // ---------------------------------------------------------------- the trailing lines

  lemma {:induction false} LastBreakOfLine(p: string, line: string)
    requires OneLine(line)
    ensures LastBreak(p + "\n" + line) == |p|
  {
    if line != "" {
      var s, n := p + "\n" + line, |line| - 1;
      assert s[|s| - 1] == line[n] && s[..|s| - 1] == p + "\n" + line[..n];
      LastBreakOfLine(p, line[..n]);
    }
  }

  lemma RunAsIdIff(line: string, key: string, n: Int64)
    ensures RunAsId(line, key) == Some(n) <==> line == key + ShowInt(n)
  {
    if line == key + ShowInt(n) {
      assert line[..|key|] == key && line[|key|..] == ShowInt(n);
      ParseIntIffShown(ShowInt(n), n);
    }
    if RunAsId(line, key) == Some(n) {
      ParseIntIffShown(line[|key|..], n);
      assert line == line[..|key|] + line[|key|..];
    }
  }

  lemma PeeledAt(front: string, line: string, key: string)
    ensures
      var (id, p) := PeelAt(front, line, key);
      front + "\n" + line == p + RunAs(key, id) && (id.Some? ==> p == front)
  {
    var id := RunAsId(line, key);
    if id.Some? {
      RunAsIdIff(line, key, id.value);
      assert front + "\n" + line == front + ("\n" + line);
    }
  }

  /** What a peel takes off is all it takes off. */
  lemma PeeledBack(text: string, key: string)
    ensures
      var (id, p) := Peel(text, key);
      text == p + RunAs(key, id) && if id.None? then p == text else |p| < |text|
  {
    var k := LastBreak(text);
    if k >= 0 {
      var front, line := text[..k], text[k + 1..];
      assert text == front + "\n" + line;
      PeeledAt(front, line, key);
    }
  }

  lemma PeelsLine(p: string, key: string, n: Int64)
    requires OneLine(key)
    ensures Peel(p + RunAs(key, Some(n)), key) == (Some(n), p)
  {
    var line := key + ShowInt(n);
    var text := p + RunAs(key, Some(n));
    ShowIntOneLine(n);
    assert text == p + "\n" + line;
    LastBreakOfLine(p, line);
    assert text[..|p|] == p && text[|p| + 1..] == line;
    RunAsIdIff(line, key, n);
  }

  lemma PeelsOnly(p: string, n: Int64)
    ensures Peel(p + RunAs(USER_KEY, Some(n)), GROUP_KEY) == (None, p + RunAs(USER_KEY, Some(n)))
  {
    var line := USER_KEY + ShowInt(n);
    var text := p + RunAs(USER_KEY, Some(n));
    ShowIntOneLine(n);
    assert text == p + "\n" + line;
    LastBreakOfLine(p, line);
    assert text[|p| + 1..] == line && line[5] == 'U';
    assert |line| >= |GROUP_KEY| ==> line[..|GROUP_KEY|][5] == line[5];
  }

  lemma DecodesTrailer(h: Hashed)
    ensures
      var c := Canonical(h);
      DecodeTrailer(Trailer(h)) == (c.sql, c.runAsUser, c.runAsGroup) && Trailer(c) == Trailer(h)
  {
    var withUser := h.sql + RunAs(USER_KEY, h.runAsUser);
    assert Trailer(h) == withUser + RunAs(GROUP_KEY, h.runAsGroup);
    if h.runAsGroup.Some? {
      PeelsLine(withUser, GROUP_KEY, h.runAsGroup.value);
    } else {
      assert Trailer(h) == withUser;
    }
    if h.runAsUser.Some? {
      PeelsLine(h.sql, USER_KEY, h.runAsUser.value);
      PeelsOnly(h.sql, h.runAsUser.value);
    } else {
      assert withUser == h.sql;
      PeeledBack(h.sql, GROUP_KEY);
      PeeledBack(Peel(h.sql, GROUP_KEY).1, USER_KEY);
      PeeledBack(h.sql, USER_KEY);
    }
  }

  // ---------------------------------------------------------------- the theorems

  lemma DecodesSql(h: Hashed)
    ensures var c := Canonical(h); DecodeSql(SQL_KEY + (Trailer(h) + "\n")) == Some((c.sql, c.runAsUser, c.runAsGroup))
  {
    var t := Trailer(h);
    var text := SQL_KEY + (t + "\n");
    assert text[..|SQL_KEY|] == SQL_KEY && text[|SQL_KEY|..|text| - 1] == t;
    DecodesTrailer(h);
  }

  lemma S3Flag(h: Hashed)
    ensures HasPrefix(S3Text(h), "s3.") == h.s3.Some?
  {
    if h.s3.Some? {
      var t := S3Text(h);
      assert t[0] == 's' && t[1] == '3' && t[2] == '.';
      assert t[..3] == "s3.";
    } else {
      assert S3Text(h)[0] == 'b';
    }
  }

  lemma DecodesBackup(h: Hashed, s3: Option<HashedS3>)
    requires OneLine(h.logLevel) && OneLine(h.syncInterval)
    ensures DecodeBackup(SpecValues(h), s3, BackupText(h)) == Some(Canonical(h).(s3 := s3))
  {
    TakesFields(BACKUP_KEYS, [h.logLevel, h.syncInterval], SQL_KEY + (Trailer(h) + "\n"));
    DecodesSql(h);
  }

  lemma ValuesOfS3(s3: HashedS3)
    ensures var d := S3Values(s3); |d| == 4 && HashedS3(d[0], d[1], d[2], d[3]) == s3
    ensures OneLine(s3.endpoint) && OneLine(s3.bucket) && OneLine(s3.path) && OneLine(s3.secretRef) ==> AllOneLine(S3Values(s3))
  {
  }

  lemma DecodesS3(h: Hashed)
    requires OneLineHead(h)
    ensures DecodeS3(SpecValues(h), S3Text(h)) == Some(Canonical(h))
  {
    S3Flag(h);
    DecodesBackup(h, h.s3);
    if h.s3.Some? {
      var text := S3Text(h);
      ValuesOfS3(h.s3.value);
      TakesFields(S3_KEYS, S3Values(h.s3.value), BackupText(h));
      assert TakeValues(text, S3_KEYS) == Some((S3Values(h.s3.value), BackupText(h)));
      assert DecodeS3(SpecValues(h), text) == DecodeBackup(SpecValues(h), h.s3, BackupText(h));
    }
  }

  /** Decoding gives back the hashed fields, up to the one ambiguity. */
  lemma DecodesText(h: Hashed)
    requires OneLineHead(h)
    ensures DecodeText(TextOf(h)) == Some(Canonical(h))
  {
    TakesFields(SPEC_KEYS, SpecValues(h), S3Text(h));
    DecodesS3(h);
  }

  lemma CanonicalText(h: Hashed)
    ensures TextOf(Canonical(h)) == TextOf(h)
  {
    DecodesTrailer(h);
    var c := Canonical(h);
    assert BackupText(c) == BackupText(h);
    assert S3Text(c) == S3Text(h);
  }

  /** Exactly which specs share a text, and so a hash. */
  lemma EqualTextIff(a: ReplicaSpec, b: ReplicaSpec)
    requires OneLineHead(HashedFields(a)) && OneLineHead(HashedFields(b))
    ensures HashText(a) == HashText(b) <==> Canonical(HashedFields(a)) == Canonical(HashedFields(b))
  {
    DecodesText(HashedFields(a));
    DecodesText(HashedFields(b));
    CanonicalText(HashedFields(a));
    CanonicalText(HashedFields(b));
  }

  /** Peeling finds a line exactly when the text ends in one. */
  lemma PeelsIff(text: string, key: string)
    requires OneLine(key)
    ensures Peel(text, key).0.Some? <==> EndsInRunAs(text, key)
  {
    PeeledBack(text, key);
    if EndsInRunAs(text, key) {
      var p: string, n: Int64 :| text == p + RunAs(key, Some(n));
      PeelsLine(p, key, n);
    }
  }

  /** A canonical form differs from the fields in what it peels, and then in SQL and run-as fields both. */
  lemma CanonicalIff(h: Hashed)
    ensures
      var c := Canonical(h);
      && (c == h <==> Unambiguous(h))
      && (c != h ==> c.sql != h.sql && (c.runAsUser, c.runAsGroup) != (h.runAsUser, h.runAsGroup))
  {
    if h.runAsUser.None? {
      PeelsIff(h.sql, USER_KEY);
      PeeledBack(h.sql, USER_KEY);
      if h.runAsGroup.None? {
        PeelsIff(h.sql, GROUP_KEY);
        PeeledBack(h.sql, GROUP_KEY);
        PeeledBack(Peel(h.sql, GROUP_KEY).1, USER_KEY);
      }
    }
  }

  /** The hashed fields can be read back from the text exactly when the SQL does not end in a run-as line. */
  lemma ReadBackIff(spec: ReplicaSpec)
    requires OneLineHead(HashedFields(spec))
    ensures DecodeText(HashText(spec)) == Some(HashedFields(spec)) <==> Unambiguous(HashedFields(spec))
  {
    DecodesText(HashedFields(spec));
    CanonicalIff(HashedFields(spec));
  }

  /** Injective: unambiguous specs with equal text agree on every hashed field. */
  lemma TextIsInjective(a: ReplicaSpec, b: ReplicaSpec)
    requires OneLineHead(HashedFields(a)) && OneLineHead(HashedFields(b))
    requires Unambiguous(HashedFields(a)) && Unambiguous(HashedFields(b))
    requires HashText(a) == HashText(b)
    ensures HashedFields(a) == HashedFields(b)
  {
    ReadBackIff(a);
    ReadBackIff(b);
  }

  /** The two specs agree on every field that is hashed. */
  ghost predicate SameHashedFields(a: ReplicaSpec, b: ReplicaSpec) {
    && a.image == b.image && a.recoveryMode == b.recoveryMode
    && a.databaseName == b.databaseName && a.databasePath == b.databasePath
    && a.backup.enabled == b.backup.enabled
    && (a.backup.s3.None? <==> b.backup.s3.None?)
    && (a.backup.s3.Some? && b.backup.s3.Some? ==>
          && a.backup.s3.value.endpoint == b.backup.s3.value.endpoint && a.backup.s3.value.bucket == b.backup.s3.value.bucket
          && a.backup.s3.value.path == b.backup.s3.value.path && a.backup.s3.value.secretRef == b.backup.s3.value.secretRef)
    && a.backup.logLevel == b.backup.logLevel && a.backup.syncInterval == b.backup.syncInterval
    && a.bootstrap.sql == b.bootstrap.sql && a.runAsUser == b.runAsUser && a.runAsGroup == b.runAsGroup
  }

  /** No field but the SQL spans lines, and the SQL does not end in a line taken for an unset run-as field. */
  ghost predicate PlainSpec(spec: ReplicaSpec) {
    && OneLine(spec.image) && OneLine(spec.recoveryMode) && OneLine(spec.databaseName) && OneLine(spec.databasePath)
    && (spec.backup.s3.Some? ==>
          && OneLine(spec.backup.s3.value.endpoint) && OneLine(spec.backup.s3.value.bucket)
          && OneLine(spec.backup.s3.value.path) && OneLine(spec.backup.s3.value.secretRef))
    && OneLine(spec.backup.logLevel) && OneLine(spec.backup.syncInterval)
    && (spec.runAsUser.None? ==> !EndsInRunAs(spec.bootstrap.sql, "runAsUser="))
    && (spec.runAsUser.None? && spec.runAsGroup.None? ==> !EndsInRunAs(spec.bootstrap.sql, "runAsGroup="))
  }

  /** Field by field: plain specs have equal text exactly when they agree on every hashed field. */
  lemma SameTextIffSameFields(a: ReplicaSpec, b: ReplicaSpec)
    requires PlainSpec(a) && PlainSpec(b)
    ensures HashText(a) == HashText(b) <==> SameHashedFields(a, b)
  {
    assert Unambiguous(HashedFields(a)) && Unambiguous(HashedFields(b));
    if HashText(a) == HashText(b) {
      TextIsInjective(a, b);
      assert a.backup.s3.Some? && b.backup.s3.Some? ==> HashedFields(a).s3.value == HashedFields(b).s3.value;
    }
  }

  /** The text of a spec, key by key. */
  lemma TextReads(spec: ReplicaSpec)
    ensures
      HashText(spec) ==
      "image=" + spec.image + "\n" + (
      "recovery.mode=" + spec.recoveryMode + "\n" + (
      "databaseName=" + spec.databaseName + "\n" + (
      "databasePath=" + spec.databasePath + "\n" + (
      "backup.enabled=" + (if spec.backup.enabled then "true" else "false") + "\n" + TextAfterEnabled(spec)))))
  {
    var h := HashedFields(spec);
    FiveFields(SpecValues(h), S3Text(h));
    S3Reads(spec);
  }

  function TextAfterEnabled(spec: ReplicaSpec): string {
    if spec.backup.s3.None? then TextAfterS3(spec) else
      "s3.endpoint=" + spec.backup.s3.value.endpoint + "\n" + (
      "s3.bucket=" + spec.backup.s3.value.bucket + "\n" + (
      "s3.path=" + spec.backup.s3.value.path + "\n" + (
      "s3.secretRef=" + spec.backup.s3.value.secretRef + "\n" + TextAfterS3(spec))))
  }

  function TextAfterS3(spec: ReplicaSpec): string {
    "backup.logLevel=" + spec.backup.logLevel + "\n" + (
    "backup.syncInterval=" + spec.backup.syncInterval + "\n" + (
    "bootstrap.sql=" + (spec.bootstrap.sql + "\n" + (
    (if spec.runAsUser.None? then "" else "runAsUser=" + ShowInt(spec.runAsUser.value) + "\n") +
    (if spec.runAsGroup.None? then "" else "runAsGroup=" + ShowInt(spec.runAsGroup.value) + "\n")))))
  }

  lemma FieldsStep(keys: seq<string>, values: seq<string>, rest: string)
    requires |keys| == |values| > 0
    ensures Fields(keys, values, rest) == keys[0] + values[0] + "\n" + Fields(keys[1..], values[1..], rest)
  {
  }

  lemma FiveFields(v: seq<string>, rest: string)
    requires |v| == 5
    ensures
      Fields(SPEC_KEYS, v, rest) ==
      "image=" + v[0] + "\n" + ("recovery.mode=" + v[1] + "\n" + ("databaseName=" + v[2] + "\n" + (
      "databasePath=" + v[3] + "\n" + ("backup.enabled=" + v[4] + "\n" + rest))))
  {
    var k := SPEC_KEYS;
    FieldsStep(k, v, rest);
    FieldsStep(k[1..], v[1..], rest);
    FieldsStep(k[1..][1..], v[1..][1..], rest);
    FieldsStep(k[1..][1..][1..], v[1..][1..][1..], rest);
    FieldsStep(k[1..][1..][1..][1..], v[1..][1..][1..][1..], rest);
  }

  lemma S3Reads(spec: ReplicaSpec)
    ensures S3Text(HashedFields(spec)) == TextAfterEnabled(spec)
  {
    var h := HashedFields(spec);
    BackupReads(spec);
    if h.s3.Some? {
      var k, v := S3_KEYS, S3Values(h.s3.value);
      FieldsStep(k, v, BackupText(h));
      FieldsStep(k[1..], v[1..], BackupText(h));
      FieldsStep(k[1..][1..], v[1..][1..], BackupText(h));
      FieldsStep(k[1..][1..][1..], v[1..][1..][1..], BackupText(h));
    }
  }

  lemma BackupReads(spec: ReplicaSpec)
    ensures BackupText(HashedFields(spec)) == TextAfterS3(spec)
  {
    var h := HashedFields(spec);
    var rest := SQL_KEY + (Trailer(h) + "\n");
    var v := [h.logLevel, h.syncInterval];
    FieldsStep(BACKUP_KEYS, v, rest);
    FieldsStep(BACKUP_KEYS[1..], v[1..], rest);
    TrailerReads(h);
  }

  lemma TrailerReads(h: Hashed)
    ensures
      Trailer(h) + "\n" == h.sql + "\n" + (
      (if h.runAsUser.None? then "" else "runAsUser=" + ShowInt(h.runAsUser.value) + "\n") +
      (if h.runAsGroup.None? then "" else "runAsGroup=" + ShowInt(h.runAsGroup.value) + "\n"))
  {
  }

  lemma RunAsEnd(p: string, key: string, n: Int64)
    ensures var text := p + RunAs(key, Some(n)); text[|p|] == '\n' && HasPrefix(text[|p| + 1..], key)
  {
    var text, line := p + RunAs(key, Some(n)), key + ShowInt(n);
    assert text[|p| + 1..] == line && line[..|key|] == key;
  }

  lemma NoRunAsEnd(text: string, key: string)
    requires forall i :: 0 <= i < |text| && text[i] == '\n' ==> !HasPrefix(text[i + 1..], key)
    ensures !EndsInRunAs(text, key)
  {
    forall p: string, n: Int64 ensures text != p + RunAs(key, Some(n)) {
      RunAsEnd(p, key, n);
    }
  }

  /** No line of the SQL starts like a run-as line: then it is unambiguous. */
  lemma PlainSqlUnambiguous(h: Hashed)
    requires forall i :: 0 <= i < |h.sql| && h.sql[i] == '\n' ==>
      !HasPrefix(h.sql[i + 1..], USER_KEY) && !HasPrefix(h.sql[i + 1..], GROUP_KEY)
    ensures Unambiguous(h)
  {
    NoRunAsEnd(h.sql, USER_KEY);
    NoRunAsEnd(h.sql, GROUP_KEY);
  }

  /** Any ambiguous spec collides with one that runs as somebody else. */
  lemma AmbiguousCollides(spec: ReplicaSpec)
    requires !Unambiguous(HashedFields(spec))
    ensures exists other: ReplicaSpec ::
      HashText(other) == HashText(spec) && other.bootstrap.sql != spec.bootstrap.sql &&
      (other.runAsUser, other.runAsGroup) != (spec.runAsUser, spec.runAsGroup)
  {
    var h := HashedFields(spec);
    CanonicalText(h);
    CanonicalIff(h);
    var c := Canonical(h);
    var other := spec.(bootstrap := spec.bootstrap.(sql := c.sql), runAsUser := c.runAsUser, runAsGroup := c.runAsGroup);
    assert HashedFields(other) == c;
  }
}
