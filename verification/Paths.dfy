/** Absolute slash-separated paths, as text and as components. */
module Paths {
  import opened Text

  /** Index of the first slash, or the length of the text. */
  function FirstSlash(s: string): (i: nat)
    ensures i <= |s|
    ensures forall k :: 0 <= k < i ==> s[k] != '/'
    ensures i < |s| ==> s[i] == '/'
  {
    if s == "" || s[0] == '/' then 0 else 1 + FirstSlash(s[1..])
  }

  /** The components of a path; empty ones do not count. */
  function Parts(path: string): seq<string>
    decreases |path|
  {
    if path == "" then [] else
      var i := FirstSlash(path);
      (if i == 0 then [] else [path[..i]]) + (if i == |path| then [] else Parts(path[i + 1..]))
  }

  function Joined(parts: seq<string>): string {
    if parts == [] then "" else "/" + parts[0] + Joined(parts[1..])
  }

  predicate Plain(part: string) {
    part != "" && part != "." && part != ".." && '/' !in part
  }

  ghost predicate AllPlain(parts: seq<string>) {
    forall i :: 0 <= i < |parts| ==> Plain(parts[i])
  }

  /** The root, or slash-led plain components. */
  ghost predicate Clean(path: string) {
    AllPlain(Parts(path)) && path == if Parts(path) == [] then "/" else Joined(Parts(path))
  }

  // ---------------------------------------------------------------- joining and splitting

  lemma FirstSlashOf(part: string, rest: string)
    requires '/' !in part && (rest == "" || rest[0] == '/')
    ensures FirstSlash(part + rest) == |part|
  {
    var s := part + rest;
    assert forall k :: 0 <= k < |part| ==> s[k] == part[k];
    assert rest != "" ==> s[|part|] == '/';
  }

  /** A leading slash does not count. */
  lemma PartsAfterSlash(path: string)
    requires path == "" || path[0] == '/'
    ensures Parts(path) == if path == "" then [] else Parts(path[1..])
  {
    assert path != "" ==> FirstSlash(path) == 0;
  }

  lemma PartsStep(head: string, rest: string)
    requires Plain(head) && (rest == "" || rest[0] == '/')
    ensures Parts(head + rest) == [head] + Parts(rest)
  {
    var s := head + rest;
    FirstSlashOf(head, rest);
    assert s[..|head|] == head;
    PartsAfterSlash(rest);
    if rest != "" {
      assert s[|head| + 1..] == rest[1..];
    }
  }

  lemma JoinedStep(parts: seq<string>)
    requires parts != []
    ensures
      var rest := Joined(parts[1..]);
      && Joined(parts) != "" && Joined(parts)[0] == '/' && Joined(parts)[1..] == parts[0] + rest
      && (rest == "" || rest[0] == '/')
  {
    assert Joined(parts) == "/" + (parts[0] + Joined(parts[1..]));
  }

  lemma {:induction false} PartsOfJoined(parts: seq<string>)
    requires AllPlain(parts)
    ensures Parts(Joined(parts)) == parts
  {
    if parts != [] {
      var head, rest := parts[0], Joined(parts[1..]);
      JoinedStep(parts);
      PartsAfterSlash(Joined(parts));
      PartsStep(head, rest);
      PartsOfJoined(parts[1..]);
      assert parts == [head] + parts[1..];
    }
  }

  lemma {:induction false} JoinedAppend(a: seq<string>, b: seq<string>)
    ensures Joined(a + b) == Joined(a) + Joined(b)
  {
    if a == [] {
      assert a + b == b;
    } else {
      assert (a + b)[0] == a[0] && (a + b)[1..] == a[1..] + b;
      JoinedAppend(a[1..], b);
    }
  }

  lemma {:induction false} JoinedLength(parts: seq<string>)
    ensures |Joined(parts)| >= |parts|
    ensures parts != [] ==> Joined(parts)[0] == '/'
  {
    if parts != [] {
      JoinedLength(parts[1..]);
    }
  }

  /** Clean paths are told apart by their components. */
  lemma CleanIsJoined(parts: seq<string>)
    requires AllPlain(parts) && parts != []
    ensures Clean(Joined(parts)) && Parts(Joined(parts)) == parts
  {
    PartsOfJoined(parts);
  }

  // ---------------------------------------------------------------- prefixes

  /** The textual test of the two mount searches, for a path that is not the root. */
  predicate TextCovers(mount: string, path: string) {
    mount == path || HasPrefix(path, mount + "/")
  }

  lemma {:induction false} SlashPrefixIsPartPrefix(a: seq<string>, b: seq<string>)
    requires AllPlain(a) && AllPlain(b)
    requires Joined(a) + "/" <= Joined(b)
    ensures a <= b
  {
    if a != [] {
      assert b != [];
      var x, y := a[0], b[0];
      var s, t := Joined(a[1..]) + "/", Joined(b[1..]);
      JoinedLength(a[1..]);
      JoinedLength(b[1..]);
      assert Joined(a) + "/" == "/" + (x + s) && Joined(b) == "/" + (y + t);
      HeadsAgree(x, s, y, t);
      SlashPrefixIsPartPrefix(a[1..], b[1..]);
      assert a == [x] + a[1..] && b == [y] + b[1..];
    }
  }

  /** Two slash-free words in front of slashes are equal when one text is a prefix of the other. */
  lemma HeadsAgree(x: string, s: string, y: string, t: string)
    requires '/' !in x && '/' !in y && s != "" && s[0] == '/' && (t == "" || t[0] == '/')
    requires "/" + (x + s) <= "/" + (y + t)
    ensures x == y && s <= t
  {
    var u, v := x + s, y + t;
    assert forall k :: 0 <= k < |u| ==> ("/" + u)[k + 1] == u[k] && ("/" + v)[k + 1] == v[k];
    assert u <= v;
    FirstSlashOf(x, s);
    FirstSlashOf(y, t);
    SameFirstSlash(u, v);
    assert x == u[..|x|] && y == v[..|y|];
    assert s == u[|x|..] && t == v[|y|..];
  }

  lemma SameFirstSlash(u: string, v: string)
    requires u <= v && FirstSlash(u) < |u|
    ensures FirstSlash(v) == FirstSlash(u)
  {
    var i, j := FirstSlash(u), FirstSlash(v);
    assert v[i] == '/';
    assert j < |u| ==> u[j] == v[j];
  }

  lemma PrefixCovers(a: seq<string>, b: seq<string>)
    requires a <= b
    ensures TextCovers(Joined(a), Joined(b))
  {
    var rest := b[|a|..];
    assert a + rest == b;
    JoinedAppend(a, rest);
    JoinedLength(rest);
    if rest == [] {
      assert a == b;
    } else {
      var path, mount := Joined(b), Joined(a);
      assert path[..|mount| + 1] == mount + "/";
    }
  }

  /** For clean paths other than the root, the textual test is component prefix. */
  lemma CoversIffPrefix(mount: string, path: string)
    requires Clean(mount) && Clean(path) && Parts(mount) != []
    ensures TextCovers(mount, path) <==> Parts(mount) <= Parts(path)
  {
    var a, b := Parts(mount), Parts(path);
    if a <= b {
      PrefixCovers(a, b);
    }
    if mount != path && HasPrefix(path, mount + "/") {
      JoinedLength(a);
      assert |path| > 1 && b != [];
      assert Joined(a) + "/" <= Joined(b);
      SlashPrefixIsPartPrefix(a, b);
    }
  }

  /** Among prefixes of one path, more components is more text. */
  lemma LongerText(a: seq<string>, b: seq<string>, parts: seq<string>)
    requires a <= parts && b <= parts && |a| < |b|
    ensures |Joined(a)| < |Joined(b)|
  {
    var rest := b[|a|..];
    assert b == a + rest;
    JoinedAppend(a, rest);
    JoinedLength(rest);
  }

  lemma {:induction false} CoverIsJoined(mount: string, parts: seq<string>) returns (k: nat)
    requires AllPlain(parts) && mount != "" && TextCovers(mount, Joined(parts))
    ensures k <= |parts| && mount == Joined(parts[..k])
    decreases |parts|
  {
    var path := Joined(parts);
    if mount == path {
      assert parts[..|parts|] == parts;
      return |parts|;
    }
    var rest := CoverStep(mount, parts);
    if rest == "" {
      assert parts[..1] == [parts[0]];
      return 1;
    }
    k := CoverIsJoined(rest, parts[1..]);
    assert parts[..k + 1] == [parts[0]] + parts[1..][..k];
    k := k + 1;
  }

  /** A proper cover of a path takes its first component whole. */
  lemma CoverStep(mount: string, parts: seq<string>) returns (rest: string)
    requires AllPlain(parts) && mount != "" && HasPrefix(Joined(parts), mount + "/")
    ensures parts != [] && mount == "/" + parts[0] + rest
    ensures rest != "" ==> TextCovers(rest, Joined(parts[1..]))
  {
    var path, m := Joined(parts), |mount|;
    assert mount + "/" <= path && path[m] == (mount + "/")[m] == '/';
    var head := "/" + parts[0];
    var tail := Joined(parts[1..]);
    assert path == head + tail;
    assert Plain(parts[0]) && forall j :: 1 <= j < |head| ==> path[j] == parts[0][j - 1];
    assert mount == path[..m];
    rest := mount[|head|..];
    assert mount == head + rest;
    var n := |rest|;
    assert tail[..n] == rest && tail[n] == '/';
    assert tail[..n + 1] == rest + "/";
  }

  /** Whatever text covers a clean path is clean itself, unless it is empty. */
  lemma CoverIsClean(mount: string, path: string)
    requires Clean(path) && mount != "" && TextCovers(mount, path)
    ensures Clean(mount)
  {
    if mount != path {
      assert Parts(path) != [] by {
        assert |path| > 1;
      }
      var k := CoverIsJoined(mount, Parts(path));
      assert k > 0;
      CleanIsJoined(Parts(path)[..k]);
    }
  }

  // ---------------------------------------------------------------- the directory of a file

  function LastSlash(s: string): (i: int)
    ensures -1 <= i < |s|
    ensures i >= 0 ==> s[i] == '/'
    ensures forall j :: i < j < |s| ==> s[j] != '/'
  {
    if s == "" then -1 else
      var n := |s| - 1;
      if s[n] == '/' then n else LastSlash(s[..n])
  }

  function Shown(parts: seq<string>): string {
    if parts == [] then "/" else Joined(parts)
  }

  /** filepath.Dir of an absolute path without dot components: cut at the last slash, then clean. */
  function Dir(path: string): string {
    Shown(Parts(path[..LastSlash(path) + 1]))
  }

  /** A slash in between joins the components of two texts. */
  lemma {:induction false} PartsAppend(a: string, b: string)
    ensures Parts(a + "/" + b) == Parts(a) + Parts(b)
    decreases |a|
  {
    var s := a + "/" + b;
    if a == "" {
      assert s[1..] == b;
      PartsAfterSlash(s);
    } else {
      var i := FirstSlash(a);
      SlashStays(a, b);
      assert s[..i] == a[..i];
      if i == |a| {
        assert s[i + 1..] == b && a[..i] == a;
      } else {
        assert s[i + 1..] == a[i + 1..] + "/" + b;
        PartsAppend(a[i + 1..], b);
      }
    }
  }

  lemma SlashStays(a: string, b: string)
    ensures FirstSlash(a + "/" + b) == FirstSlash(a)
  {
    var s, i := a + "/" + b, FirstSlash(a);
    assert forall k :: 0 <= k < |a| ==> s[k] == a[k];
    assert s[|a|] == '/';
  }

  /** An absolute path of a file, free of dot components. */
  ghost predicate IsFile(path: string) {
    path != "" && path[0] == '/' && path[|path| - 1] != '/' && AllPlain(Parts(path))
  }

  lemma PartsOfName(name: string)
    requires name != "" && '/' !in name
    ensures Parts(name) == [name]
  {
    FirstSlashOf(name, "");
    assert name + "" == name && name[..|name|] == name;
  }

  lemma PartsOfFile(front: string, name: string)
    requires name != "" && '/' !in name
    ensures Parts(front + "/" + name) == Parts(front) + [name] && Parts(front + "/") == Parts(front)
  {
    PartsAppend(front, name);
    PartsOfName(name);
    PartsAppend(front, "");
    assert front + "/" + "" == front + "/";
  }

  lemma CutAtSlash(path: string, k: nat)
    requires k < |path| && path[k] == '/' && forall j :: k < j < |path| ==> path[j] != '/'
    ensures path == path[..k] + "/" + path[k + 1..] && path[..k + 1] == path[..k] + "/" && '/' !in path[k + 1..]
  {
  }

  lemma ShownDir(d: seq<string>, name: string)
    requires AllPlain(d + [name])
    ensures Parts(Shown(d)) == (d + [name])[..|d|]
  {
    assert AllPlain(d) by {
      assert forall i :: 0 <= i < |d| ==> d[i] == (d + [name])[i];
    }
    PartsOfShown(d);
  }

  /** The components of a file are those of its directory and its name. */
  lemma DirOf(path: string)
    requires IsFile(path)
    ensures Parts(path) != [] && Parts(Dir(path)) == Parts(path)[..|Parts(path)| - 1]
  {
    var k := LastSlash(path);
    CutAtSlash(path, k);
    PartsOfFile(path[..k], path[k + 1..]);
    ShownDir(Parts(path[..k]), path[k + 1..]);
  }

  lemma PartsOfShown(parts: seq<string>)
    requires AllPlain(parts)
    ensures Parts(Shown(parts)) == parts
  {
    if parts == [] {
      assert "/"[1..] == "";
    } else {
      PartsOfJoined(parts);
    }
  }

  /** Joining a clean directory and a plain name. */
  lemma FileIn(dir: string, name: string)
    requires Clean(dir) && Parts(dir) != [] && Plain(name)
    ensures var file := dir + "/" + name; IsFile(file) && Parts(file) == Parts(dir) + [name]
  {
    var file := dir + "/" + name;
    PartsAppend(dir, name);
    PartsOfName(name);
    JoinedLength(Parts(dir));
    assert file[|file| - 1] == name[|name| - 1];
  }
}
