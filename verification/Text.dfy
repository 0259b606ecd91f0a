/** Strings as the operator uses them: prefixes, lines, trimming, and decimal integers. */
module Text {
  import opened ApiTypes

  predicate HasPrefix(s: string, prefix: string) {
    |prefix| <= |s| && s[..|prefix|] == prefix
  }

  ghost predicate OneLine(s: string) {
    '\n' !in s
  }

  // ---------------------------------------------------------------- lines

  /** The text made of the given lines, each ended by a newline. */
  function Unlines(lines: seq<string>): string {
    if lines == [] then "" else lines[0] + "\n" + Unlines(lines[1..])
  }

  /** Index of the first newline, or the length of the text. */
  function FirstBreak(s: string): (i: nat)
    ensures i <= |s|
    ensures '\n' !in s[..i]
    ensures i < |s| ==> s[i] == '\n'
  {
    if s == "" || s[0] == '\n' then 0 else
      var i := 1 + FirstBreak(s[1..]);
      assert s[..i] == [s[0]] + s[1..][..i - 1];
      i
  }

  /** The newline-ended lines of a text; an unended last line counts as a line. */
  function Lines(s: string): seq<string>
    decreases |s|
  {
    if s == "" then [] else
      var i := FirstBreak(s);
      if i == |s| then [s] else [s[..i]] + Lines(s[i + 1..])
  }

  lemma {:induction false} FirstBreakOfLine(line: string, rest: string)
    requires OneLine(line)
    ensures FirstBreak(line + "\n" + rest) == |line|
  {
    var s := line + "\n" + rest;
    var i := FirstBreak(s);
    assert forall k :: 0 <= k < |line| ==> s[k] == line[k];
    assert s[|line|] == '\n' && forall k :: 0 <= k < i ==> s[k] in s[..i];
  }

  lemma {:induction false} LinesOfUnlines(lines: seq<string>)
    requires forall l :: l in lines ==> OneLine(l)
    ensures Lines(Unlines(lines)) == lines
  {
    if lines == [] {
    } else {
      var line, rest := lines[0], Unlines(lines[1..]);
      var s := Unlines(lines);
      assert s == line + "\n" + rest;
      FirstBreakOfLine(line, rest);
      assert s[..|line|] == line && s[|line| + 1..] == rest;
      LinesOfUnlines(lines[1..]);
    }
  }

  lemma {:induction false} UnlinesAppend(a: seq<string>, b: seq<string>)
    ensures Unlines(a + b) == Unlines(a) + Unlines(b)
  {
    if a == [] {
      assert a + b == b;
    } else {
      assert (a + b)[0] == a[0] && (a + b)[1..] == a[1..] + b;
      UnlinesAppend(a[1..], b);
    }
  }

  // ---------------------------------------------------------------- trimming

  /** strings.TrimRight for the single cut character '/'. */
  function TrimSlashes(s: string): (t: string)
    ensures t <= s
    ensures t == "" || t[|t| - 1] != '/'
    ensures forall i :: |t| <= i < |s| ==> s[i] == '/'
  {
    if s != "" && s[|s| - 1] == '/' then TrimSlashes(s[..|s| - 1]) else s
  }

  // ---------------------------------------------------------------- decimal integers

  function Digit(d: nat): (c: char)
    requires d < 10
    ensures '0' <= c <= '9' && c as int - '0' as int == d
  {
    '0' + d as char
  }

  /** The decimal digits of a natural number, without leading zeros. */
  function ShowNat(n: nat): (s: string)
    ensures s != "" && forall c :: c in s ==> '0' <= c <= '9'
  {
    if n < 10 then [Digit(n)] else ShowNat(n / 10) + [Digit(n % 10)]
  }

  /** The %d rendering. */
  function ShowInt(n: int): string {
    if n < 0 then "-" + ShowNat(-n) else ShowNat(n)
  }

  function ParseNat(s: string): Option<nat> {
    if s == "" || !('0' <= s[|s| - 1] <= '9') then None else
      var d := s[|s| - 1] as int - '0' as int;
      if |s| == 1 then Some(d) else
        var high := ParseNat(s[..|s| - 1]);
        if high.None? || high.value == 0 then None else Some(10 * high.value + d)
  }

  /** The number a canonical decimal text denotes; any other text denotes none. */
  function ParseInt(s: string): Option<int> {
    if s != "" && s[0] == '-' then
      match ParseNat(s[1..])
      case None => None
      case Some(n) => if n == 0 then None else Some(-(n as int))
    else
      match ParseNat(s)
      case None => None
      case Some(n) => Some(n)
  }

  lemma {:induction false} ParseShowNat(n: nat)
    ensures ParseNat(ShowNat(n)) == Some(n)
  {
    if n >= 10 {
      var s := ShowNat(n);
      assert s[..|s| - 1] == ShowNat(n / 10) && s[|s| - 1] == Digit(n % 10);
      ParseShowNat(n / 10);
      assert |s| > 1;
    }
  }

  lemma {:induction false} ShowParseNat(s: string)
    requires ParseNat(s).Some?
    ensures ShowNat(ParseNat(s).value) == s
  {
    var last := s[|s| - 1];
    if |s| == 1 {
      assert s == [Digit(last as int - '0' as int)];
    } else {
      var high := ParseNat(s[..|s| - 1]);
      ShowParseNat(s[..|s| - 1]);
      var n := ParseNat(s).value;
      assert n / 10 == high.value && n % 10 == last as int - '0' as int;
      assert s == s[..|s| - 1] + [last];
    }
  }

  lemma ParseShowInt(n: int)
    ensures ParseInt(ShowInt(n)) == Some(n)
  {
    var s := ShowInt(n);
    if n < 0 {
      ParseShowNat(-n);
      assert s[1..] == ShowNat(-n);
    } else {
      ParseShowNat(n);
      assert s[0] in s;
    }
  }

  lemma ShowParseInt(s: string)
    requires ParseInt(s).Some?
    ensures ShowInt(ParseInt(s).value) == s
  {
    if s != "" && s[0] == '-' {
      ShowParseNat(s[1..]);
      assert s == "-" + s[1..];
    } else {
      ShowParseNat(s);
    }
  }

  /** Printing and parsing are inverse on both sides. */
  lemma ParseIntIffShown(s: string, n: int)
    ensures ParseInt(s) == Some(n) <==> s == ShowInt(n)
  {
    ParseShowInt(n);
    if ParseInt(s) == Some(n) {
      ShowParseInt(s);
    }
  }

  lemma ShowIntOneLine(n: int)
    ensures OneLine(ShowInt(n))
  {
  }
}
