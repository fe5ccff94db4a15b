/** The SemVer 2.0.0 grammar that both sides of the signed-update path accept: versions, their text,
    and the one way to read a text back (sections 2, 9 and 10 of SemVer 2.0.0). */
module Semver {
  import opened Wrappers

  /** Three core numbers as written, and the dot-separated identifiers after `-` and `+`. */
  datatype Version = Version(major: string, minor: string, patch: string,
                             pre: Option<seq<string>>, build: Option<seq<string>>)

  predicate IsDigit(c: char) { '0' <= c <= '9' }

  predicate IsIdentChar(c: char) {
    IsDigit(c) || 'a' <= c <= 'z' || 'A' <= c <= 'Z' || c == '-'
  }

  predicate AllDigits(s: string) { forall i | 0 <= i < |s| :: IsDigit(s[i]) }

  predicate AllIdentChars(s: string) { forall i | 0 <= i < |s| :: IsIdentChar(s[i]) }

  predicate LeadingZero(s: string) { |s| > 1 && s[0] == '0' }

  /** `0|[1-9]\d*` */
  predicate IsNumber(s: string) { s != "" && AllDigits(s) && !LeadingZero(s) }

  /** `[0-9A-Za-z-]+` */
  predicate IsIdentifier(s: string) { s != "" && AllIdentChars(s) }

  /** A prerelease identifier: one made of digits only has no leading zero. */
  predicate IsPreIdentifier(s: string) { IsIdentifier(s) && !(AllDigits(s) && LeadingZero(s)) }

  predicate WellFormed(v: Version) {
    && IsNumber(v.major) && IsNumber(v.minor) && IsNumber(v.patch)
    && (v.pre.Some? ==> v.pre.value != [] && forall i | 0 <= i < |v.pre.value| :: IsPreIdentifier(v.pre.value[i]))
    && (v.build.Some? ==>
          v.build.value != [] && forall i | 0 <= i < |v.build.value| :: IsIdentifier(v.build.value[i]))
  }

  // ---------------------------------------------------------------- text

  function Join(parts: seq<string>): string {
    if parts == [] then "" else if |parts| == 1 then parts[0] else parts[0] + "." + Join(parts[1..])
  }

  function Tail(mark: char, parts: Option<seq<string>>): string {
    match parts case None => "" case Some(p) => [mark] + Join(p)
  }

  function Dot(s: string): string {
    ['.'] + s
  }

  function Render(v: Version): string {
    v.major + Dot(v.minor + Dot(v.patch + (Tail('-', v.pre) + Tail('+', v.build))))
  }

  // ---------------------------------------------------------------- reading

  /** The first place of `c` in `s`, or the length of `s`. */
  function Index(s: string, c: char): (k: nat)
    ensures k <= |s|
  {
    if s == "" || s[0] == c then 0 else 1 + Index(s[1..], c)
  }

  lemma {:induction false} IndexIsFirst(s: string, c: char)
    ensures var k := Index(s, c);
      && (k < |s| ==> s[k] == c) && forall i | 0 <= i < k :: s[i] != c
  {
    if s != "" && s[0] != c {
      IndexIsFirst(s[1..], c);
      var t := s[1..];
      assert forall i | 0 < i < |s| :: s[i] == t[i - 1];
    }
  }

  function Split(s: string): (parts: seq<string>)
    ensures parts != []
    decreases |s|
  {
    var k := Index(s, '.');
    if k == |s| then [s] else [s[..k]] + Split(s[k + 1..])
  }

  /** The length of the digits that `s` starts with. */
  function DigitRun(s: string): (n: nat)
    ensures n <= |s| && AllDigits(s[..n]) && (n < |s| ==> !IsDigit(s[n]))
  {
    if s == "" || !IsDigit(s[0]) then 0 else 1 + DigitRun(s[1..])
  }

  /** A number at the start of `s`, and the rest. */
  function ReadNumber(s: string): Option<(string, string)> {
    var n := DigitRun(s);
    if IsNumber(s[..n]) then Some((s[..n], s[n..])) else None
  }

  /** A number, a dot, and the rest. */
  function ReadNumberDot(s: string): Option<(string, string)> {
    match ReadNumber(s)
    case None => None
    case Some((n, rest)) => if rest == "" || rest[0] != '.' then None else Some((n, rest[1..]))
  }

  /** The three numbers at the start of `s`, and the rest. */
  function ReadCore(s: string): Option<(string, string, string, string)> {
    match ReadNumberDot(s)
    case None => None
    case Some((a, s1)) =>
      match ReadNumberDot(s1)
      case None => None
      case Some((b, s2)) =>
        match ReadNumber(s2)
        case None => None
        case Some((c, rest)) => Some((a, b, c, rest))
  }

  predicate AllPreIdentifiers(parts: seq<string>) {
    forall i | 0 <= i < |parts| :: IsPreIdentifier(parts[i])
  }

  predicate AllIdentifiers(parts: seq<string>) {
    forall i | 0 <= i < |parts| :: IsIdentifier(parts[i])
  }

  /** The parts after the core: `(prerelease, build)`. */
  function ReadTail(t: string): Option<(Option<seq<string>>, Option<seq<string>>)> {
    if t != "" && t[0] == '-' then
      var q := Index(t, '+');
      var pre := Split(t[1..q]);
      if !AllPreIdentifiers(pre) then None
      else
        var build := ReadBuild(t[q..]);
        if build.None? then None else Some((Some(pre), build.value))
    else
      var build := ReadBuild(t);
      if build.None? then None else Some((None, build.value))
  }

  function ReadBuild(t: string): Option<Option<seq<string>>> {
    if t == "" then Some(None)
    else if t[0] != '+' then None
    else if AllIdentifiers(Split(t[1..])) then Some(Some(Split(t[1..]))) else None
  }

  function Parse(s: string): Option<Version> {
    match ReadCore(s)
    case None => None
    case Some((a, b, c, rest)) =>
      match ReadTail(rest)
      case None => None
      case Some((pre, build)) => Some(Version(a, b, c, pre, build))
  }

  // ---------------------------------------------------------------- splitting and joining

  lemma {:induction false} JoinSplit(s: string)
    ensures Join(Split(s)) == s
    decreases |s|
  {
    var k := Index(s, '.');
    IndexIsFirst(s, '.');
    if k < |s| {
      JoinSplit(s[k + 1..]);
      assert Split(s)[1..] == Split(s[k + 1..]);
      assert s == s[..k] + "." + s[k + 1..];
    }
  }

  lemma {:induction false} IndexAfter(a: string, b: string, c: char)
    requires forall i | 0 <= i < |a| :: a[i] != c
    ensures Index(a + b, c) == |a| + Index(b, c)
  {
    if a == "" {
      assert a + b == b;
    } else {
      assert (a + b)[1..] == a[1..] + b;
      IndexAfter(a[1..], b, c);
    }
  }

  lemma {:induction false} SplitJoin(parts: seq<string>)
    requires parts != [] && forall i, j | 0 <= i < |parts| && 0 <= j < |parts[i]| :: parts[i][j] != '.'
    ensures Split(Join(parts)) == parts
  {
    if |parts| == 1 {
      IndexAfter(parts[0], "", '.');
      assert parts[0] + "" == parts[0];
    } else {
      var rest := Join(parts[1..]);
      IndexAfter(parts[0], "." + rest, '.');
      assert Join(parts) == parts[0] + ("." + rest);
      assert Join(parts)[..|parts[0]|] == parts[0] && Join(parts)[|parts[0]| + 1..] == rest;
      SplitJoin(parts[1..]);
    }
  }

  lemma {:induction false} JoinKeepsOut(parts: seq<string>, c: char)
    requires c != '.' && forall i, j | 0 <= i < |parts| && 0 <= j < |parts[i]| :: parts[i][j] != c
    ensures forall i | 0 <= i < |Join(parts)| :: Join(parts)[i] != c
  {
    if |parts| > 1 {
      JoinKeepsOut(parts[1..], c);
      var rest := Join(parts[1..]);
      assert forall i | 0 <= i < |rest| :: rest[i] != c;
    }
  }

  lemma {:induction false} DigitRunAfter(a: string, b: string)
    requires AllDigits(a) && (b == "" || !IsDigit(b[0]))
    ensures DigitRun(a + b) == |a|
  {
    if a == "" {
      assert a + b == b;
    } else {
      assert (a + b)[1..] == a[1..] + b;
      DigitRunAfter(a[1..], b);
    }
  }

  // ---------------------------------------------------------------- reading a rendered version back

  lemma ReadNumberRendered(n: string, rest: string)
    requires IsNumber(n) && (rest == "" || !IsDigit(rest[0]))
    ensures ReadNumber(n + rest) == Some((n, rest))
  {
    DigitRunAfter(n, rest);
    assert (n + rest)[..|n|] == n && (n + rest)[|n|..] == rest;
  }

  lemma ReadNumberDotRendered(n: string, rest: string)
    requires IsNumber(n)
    ensures ReadNumberDot(n + Dot(rest)) == Some((n, rest))
  {
    ReadNumberRendered(n, Dot(rest));
    assert Dot(rest)[1..] == rest;
  }

  lemma ReadCoreRendered(a: string, b: string, c: string, rest: string)
    requires IsNumber(a) && IsNumber(b) && IsNumber(c) && (rest == "" || !IsDigit(rest[0]))
    ensures ReadCore(a + Dot(b + Dot(c + rest))) == Some((a, b, c, rest))
  {
    ReadNumberDotRendered(a, b + Dot(c + rest));
    ReadNumberDotRendered(b, c + rest);
    ReadNumberRendered(c, rest);
  }

  lemma IdentifiersHaveNoMarks(parts: seq<string>)
    requires AllIdentifiers(parts)
    ensures forall i, j | 0 <= i < |parts| && 0 <= j < |parts[i]| :: parts[i][j] != '.' && parts[i][j] != '+'
  {
    forall i, j | 0 <= i < |parts| && 0 <= j < |parts[i]| ensures parts[i][j] != '.' && parts[i][j] != '+' {
      assert IsIdentifier(parts[i]);
      assert IsIdentChar(parts[i][j]);
    }
  }

  lemma ReadBuildRendered(build: Option<seq<string>>)
    requires build.Some? ==> build.value != [] && AllIdentifiers(build.value)
    ensures ReadBuild(Tail('+', build)) == Some(build)
  {
    if build.Some? {
      IdentifiersHaveNoMarks(build.value);
      SplitJoin(build.value);
      assert Tail('+', build)[1..] == Join(build.value);
    }
  }

  lemma ReadTailRendered(pre: Option<seq<string>>, build: Option<seq<string>>)
    requires pre.Some? ==> pre.value != [] && AllPreIdentifiers(pre.value)
    requires build.Some? ==> build.value != [] && AllIdentifiers(build.value)
    ensures ReadTail(Tail('-', pre) + Tail('+', build)) == Some((pre, build))
  {
    ReadBuildRendered(build);
    var b := Tail('+', build);
    if pre.Some? {
      assert AllIdentifiers(pre.value);
      IdentifiersHaveNoMarks(pre.value);
      JoinKeepsOut(pre.value, '+');
      SplitJoin(pre.value);
      var a := Tail('-', pre);
      assert Index(b, '+') == 0;
      IndexAfter(a, b, '+');
      assert (a + b)[1..|a|] == Join(pre.value) && (a + b)[|a|..] == b;
    } else {
      assert Tail('-', pre) + b == b;
    }
  }

  /** Reading a rendered version gives it back, so a text has one reading. */
  lemma ParseRendered(v: Version)
    requires WellFormed(v)
    ensures Parse(Render(v)) == Some(v)
  {
    var rest := Tail('-', v.pre) + Tail('+', v.build);
    ReadCoreRendered(v.major, v.minor, v.patch, rest);
    ReadTailRendered(v.pre, v.build);
  }

  lemma ReadBuildSound(t: string)
    requires ReadBuild(t).Some?
    ensures var build := ReadBuild(t).value;
      && Tail('+', build) == t
      && (build.Some? ==> build.value != [] && AllIdentifiers(build.value))
  {
    if t != "" {
      JoinSplit(t[1..]);
      assert t == ['+'] + t[1..];
    }
  }

  lemma ReadTailSound(t: string)
    requires ReadTail(t).Some?
    ensures var (pre, build) := ReadTail(t).value;
      && Tail('-', pre) + Tail('+', build) == t
      && (pre.Some? ==> pre.value != [] && AllPreIdentifiers(pre.value))
      && (build.Some? ==> build.value != [] && AllIdentifiers(build.value))
  {
    if t != "" && t[0] == '-' {
      var q := Index(t, '+');
      IndexIsFirst(t, '+');
      JoinSplit(t[1..q]);
      ReadBuildSound(t[q..]);
      assert t == ['-'] + t[1..q] + t[q..];
    } else {
      ReadBuildSound(t);
      assert Tail('-', None) + t == t;
    }
  }

  lemma ReadNumberSound(s: string)
    requires ReadNumber(s).Some?
    ensures var (n, rest) := ReadNumber(s).value; IsNumber(n) && n + rest == s
  {
  }

  lemma ReadNumberDotSound(s: string)
    requires ReadNumberDot(s).Some?
    ensures var (n, rest) := ReadNumberDot(s).value; IsNumber(n) && n + Dot(rest) == s
  {
    ReadNumberSound(s);
    var (n, rest) := ReadNumber(s).value;
    assert Dot(rest[1..]) == rest;
  }

  /** What is read is well formed and renders to the text that was read. */
  lemma ParseSound(s: string)
    requires Parse(s).Some?
    ensures WellFormed(Parse(s).value) && Render(Parse(s).value) == s
  {
    ReadNumberDotSound(s);
    var (a, s1) := ReadNumberDot(s).value;
    ReadNumberDotSound(s1);
    var (b, s2) := ReadNumberDot(s1).value;
    ReadNumberSound(s2);
    var (c, rest) := ReadNumber(s2).value;
    ReadTailSound(rest);
  }

  /** The reader accepts exactly the texts of well-formed versions. */
  lemma ParseIffGrammar(s: string)
    ensures Parse(s).Some? <==> exists v :: WellFormed(v) && Render(v) == s
  {
    if Parse(s).Some? {
      ParseSound(s);
    }
    forall v | WellFormed(v) && Render(v) == s ensures Parse(s).Some? {
      ParseRendered(v);
    }
  }
}
