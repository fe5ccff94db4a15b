/** Precedence of versions (section 11 of SemVer 2.0.0) and the two comparators that must agree with it:
    the state agent's, on C strings, and the add-on's, on parsed components. */
module SemverOrder {
  import opened Wrappers
  import opened Semver

  // ---------------------------------------------------------------- precedence

  function DigitValue(c: char): int
    requires IsDigit(c)
  {
    c as int - '0' as int
  }

  function Value(s: string): nat
    requires AllDigits(s)
  {
    if s == "" then 0 else 10 * Value(s[..|s| - 1]) + DigitValue(s[|s| - 1])
  }

  function Sign(a: int, b: int): int {
    if a < b then -1 else if a > b then 1 else 0
  }

  /** Lexical order in ASCII; a proper prefix comes first. */
  function CompareText(a: string, b: string): int {
    if a == "" && b == "" then 0
    else if a == "" then -1
    else if b == "" then 1
    else if a[0] != b[0] then Sign(a[0] as int, b[0] as int)
    else CompareText(a[1..], b[1..])
  }

  function CompareIdentifier(a: string, b: string): int {
    if AllDigits(a) && AllDigits(b) then Sign(Value(a), Value(b))
    else if AllDigits(a) then -1
    else if AllDigits(b) then 1
    else CompareText(a, b)
  }

  function CompareLists(a: seq<string>, b: seq<string>): int {
    if a == [] && b == [] then 0
    else if a == [] then -1
    else if b == [] then 1
    else if CompareIdentifier(a[0], b[0]) != 0 then CompareIdentifier(a[0], b[0])
    else CompareLists(a[1..], b[1..])
  }

  function ComparePre(a: Option<seq<string>>, b: Option<seq<string>>): int {
    match (a, b)
    case (None, None) => 0
    case (None, Some(_)) => 1
    case (Some(_), None) => -1
    case (Some(x), Some(y)) => CompareLists(x, y)
  }

  function CompareCore(v: Version, w: Version): int
    requires WellFormed(v) && WellFormed(w)
  {
    if Value(v.major) != Value(w.major) then Sign(Value(v.major), Value(w.major))
    else if Value(v.minor) != Value(w.minor) then Sign(Value(v.minor), Value(w.minor))
    else Sign(Value(v.patch), Value(w.patch))
  }

  function Precedence(v: Version, w: Version): int
    requires WellFormed(v) && WellFormed(w)
  {
    if CompareCore(v, w) != 0 then CompareCore(v, w) else ComparePre(v.pre, w.pre)
  }

  // ---------------------------------------------------------------- a total preorder

  lemma {:induction false} TextAntisymmetric(a: string, b: string)
    ensures CompareText(a, b) == -CompareText(b, a)
    ensures CompareText(a, b) == 0 <==> a == b
    ensures -1 <= CompareText(a, b) <= 1
    decreases |a|
  {
    if a != "" && b != "" && a[0] == b[0] {
      TextAntisymmetric(a[1..], b[1..]);
      assert a == [a[0]] + a[1..] && b == [b[0]] + b[1..];
    }
  }

  lemma {:induction false} TextTransitive(a: string, b: string, c: string)
    requires CompareText(a, b) <= 0 && CompareText(b, c) <= 0
    ensures CompareText(a, c) <= 0
    ensures CompareText(a, c) == 0 <==> CompareText(a, b) == 0 && CompareText(b, c) == 0
    decreases |a|
  {
    if a != "" && b != "" && c != "" && a[0] == b[0] == c[0] {
      TextTransitive(a[1..], b[1..], c[1..]);
    }
  }

  lemma IdentifierAntisymmetric(a: string, b: string)
    ensures CompareIdentifier(a, b) == -CompareIdentifier(b, a)
  {
    TextAntisymmetric(a, b);
  }

  lemma IdentifierTransitive(a: string, b: string, c: string)
    requires CompareIdentifier(a, b) <= 0 && CompareIdentifier(b, c) <= 0
    ensures CompareIdentifier(a, c) <= 0
    ensures CompareIdentifier(a, c) == 0 <==> CompareIdentifier(a, b) == 0 && CompareIdentifier(b, c) == 0
  {
    if !AllDigits(a) && !AllDigits(b) && !AllDigits(c) {
      TextTransitive(a, b, c);
    }
  }

  lemma {:induction false} ListsAntisymmetric(a: seq<string>, b: seq<string>)
    ensures CompareLists(a, b) == -CompareLists(b, a)
  {
    if a != [] && b != [] {
      IdentifierAntisymmetric(a[0], b[0]);
      ListsAntisymmetric(a[1..], b[1..]);
    }
  }

  lemma {:induction false} ListsTransitive(a: seq<string>, b: seq<string>, c: seq<string>)
    requires CompareLists(a, b) <= 0 && CompareLists(b, c) <= 0
    ensures CompareLists(a, c) <= 0
    ensures CompareLists(a, c) == 0 <==> CompareLists(a, b) == 0 && CompareLists(b, c) == 0
  {
    if a != [] && b != [] && c != [] {
      IdentifierTransitive(a[0], b[0], c[0]);
      if CompareIdentifier(a[0], b[0]) == 0 && CompareIdentifier(b[0], c[0]) == 0 {
        ListsTransitive(a[1..], b[1..], c[1..]);
      }
    }
  }

  /** Precedence is a total preorder that ignores build metadata. */
  lemma PrecedenceIsTotalPreorder(u: Version, v: Version, w: Version, build: Option<seq<string>>)
    requires WellFormed(u) && WellFormed(v) && WellFormed(w) && WellFormed(u.(build := build))
    ensures Precedence(u, u) == 0
    ensures Precedence(u, v) == -Precedence(v, u)
    ensures Precedence(u, v) <= 0 && Precedence(v, w) <= 0 ==> Precedence(u, w) <= 0
    ensures Precedence(u.(build := build), v) == Precedence(u, v)
  {
    if u.pre.Some? {
      ListsAntisymmetric(u.pre.value, u.pre.value);
      if v.pre.Some? {
        ListsAntisymmetric(u.pre.value, v.pre.value);
        if w.pre.Some? && Precedence(u, v) <= 0 && Precedence(v, w) <= 0 {
          if CompareCore(u, v) == 0 && CompareCore(v, w) == 0 {
            ListsTransitive(u.pre.value, v.pre.value, w.pre.value);
          }
        }
      }
    }
  }

  // ---------------------------------------------------------------- numbers by length

  function Pow10(n: nat): nat {
    if n == 0 then 1 else 10 * Pow10(n - 1)
  }

  lemma {:induction false} ValueBelow(s: string)
    requires AllDigits(s)
    ensures Value(s) < Pow10(|s|)
  {
    if s != "" { ValueBelow(s[..|s| - 1]); }
  }

  lemma {:induction false} ValueAbove(s: string)
    requires s != "" && AllDigits(s) && s[0] != '0'
    ensures Pow10(|s| - 1) <= Value(s)
  {
    if |s| > 1 {
      var front := s[..|s| - 1];
      assert front[0] == s[0];
      ValueAbove(front);
    }
  }

  lemma {:induction false} Pow10Grows(m: nat, n: nat)
    requires m <= n
    ensures 1 <= Pow10(m) <= Pow10(n)
    decreases n
  {
    if n > 0 { Pow10Grows(if m < n then m else m - 1, n - 1); }
  }

  lemma ShorterIsSmaller(a: string, b: string)
    requires IsNumber(a) && IsNumber(b) && |a| < |b|
    ensures Value(a) < Value(b)
  {
    ValueBelow(a);
    ValueAbove(b);
    Pow10Grows(|a|, |b| - 1);
  }

  /** Comparing two texts of equal length that end in one more character each. */
  lemma {:induction false} TextSnoc(a: string, b: string, x: char, y: char)
    requires |a| == |b|
    ensures CompareText(a + [x], b + [y])
         == if CompareText(a, b) != 0 then CompareText(a, b) else Sign(x as int, y as int)
  {
    if a == "" {
      assert a + [x] == [x] && b + [y] == [y];
      assert [x][1..] == "" && [y][1..] == "";
    } else {
      assert (a + [x])[1..] == a[1..] + [x] && (b + [y])[1..] == b[1..] + [y];
      TextSnoc(a[1..], b[1..], x, y);
    }
  }

  lemma LastDigitDecides(a: nat, b: nat, x: nat, y: nat)
    requires x < 10 && y < 10
    ensures Sign(10 * a + x, 10 * b + y) == if a != b then Sign(a, b) else Sign(x, y)
  {
  }

  lemma {:induction false} EqualLengthByText(a: string, b: string)
    requires AllDigits(a) && AllDigits(b) && |a| == |b|
    ensures Sign(Value(a), Value(b)) == CompareText(a, b)
  {
    if a != "" {
      var x, y, a', b' := a[|a| - 1], b[|b| - 1], a[..|a| - 1], b[..|b| - 1];
      EqualLengthByText(a', b');
      TextSnoc(a', b', x, y);
      assert a == a' + [x] && b == b' + [y];
      LastDigitDecides(Value(a'), Value(b'), DigitValue(x), DigitValue(y));
    }
  }

  /** Without leading zeros, numbers compare by length first and then by their digits. */
  lemma NumbersByLength(a: string, b: string)
    requires IsNumber(a) && IsNumber(b)
    ensures Sign(Value(a), Value(b))
         == if |a| != |b| then Sign(|a|, |b|) else CompareText(a, b)
  {
    if |a| < |b| {
      ShorterIsSmaller(a, b);
    } else if |b| < |a| {
      ShorterIsSmaller(b, a);
    } else {
      EqualLengthByText(a, b);
    }
  }

  // ---------------------------------------------------------------- the add-on's comparator

  /** The pattern alone, before the check for leading zeros in numeric prerelease identifiers. */
  predicate MatchesPattern(v: Version) {
    && IsNumber(v.major) && IsNumber(v.minor) && IsNumber(v.patch)
    && (v.pre.Some? ==> v.pre.value != [] && AllIdentifiers(v.pre.value))
    && (v.build.Some? ==> v.build.value != [] && AllIdentifiers(v.build.value))
  }

  predicate ZeroCheckPasses(v: Version) {
    v.pre.Some? ==> forall i | 0 <= i < |v.pre.value| :: !(AllDigits(v.pre.value[i]) && LeadingZero(v.pre.value[i]))
  }

  /** What `_semver_components` returns: the core numbers and the prerelease identifiers. */
  datatype Components = Components(major: nat, minor: nat, patch: nat, pre: seq<string>)

  function SemverComponents(s: string): Result<Components> {
    match Parse(s)
    case None => Refused
    case Some(v) =>
      ParseSound(s);
      Accepted(ComponentsOf(v))
  }

  function CutBuild(t: string): Option<seq<string>> {
    if t == "" then None else Some(Split(t[1..]))
  }

  /** The prerelease and build parts of what follows the core, whatever they consist of. */
  function CutTail(t: string): (Option<seq<string>>, Option<seq<string>>) {
    if t != "" && t[0] == '-' then (Some(Split(t[1..Index(t, '+')])), CutBuild(t[Index(t, '+')..]))
    else (None, CutBuild(t))
  }

  lemma CutBuildRendered(build: Option<seq<string>>)
    requires build.Some? ==> build.value != [] && AllIdentifiers(build.value)
    ensures CutBuild(Tail('+', build)) == build
  {
    if build.Some? {
      IdentifiersHaveNoMarks(build.value);
      SplitJoin(build.value);
      assert Tail('+', build)[1..] == Join(build.value);
    }
  }

  lemma CutTailRendered(pre: Option<seq<string>>, build: Option<seq<string>>)
    requires pre.Some? ==> pre.value != [] && AllIdentifiers(pre.value)
    requires build.Some? ==> build.value != [] && AllIdentifiers(build.value)
    ensures CutTail(Tail('-', pre) + Tail('+', build)) == (pre, build)
  {
    CutBuildRendered(build);
    var b := Tail('+', build);
    if pre.Some? {
      IdentifiersHaveNoMarks(pre.value);
      JoinKeepsOut(pre.value, '+');
      SplitJoin(pre.value);
      var a := Tail('-', pre);
      assert Index(b, '+') == 0;
      IndexAfter(a, b, '+');
      assert (a + b)[1..|a|] == Join(pre.value) && (a + b)[|a|..] == b;
    } else {
      assert Tail('-', pre) + b == b;
    }
  }

  /** A text matches the pattern in one way only. */
  lemma OnePatternReading(v: Version, w: Version)
    requires MatchesPattern(v) && MatchesPattern(w) && Render(v) == Render(w)
    ensures v == w
  {
    ReadCoreRendered(v.major, v.minor, v.patch, Tail('-', v.pre) + Tail('+', v.build));
    ReadCoreRendered(w.major, w.minor, w.patch, Tail('-', w.pre) + Tail('+', w.build));
    CutTailRendered(v.pre, v.build);
    CutTailRendered(w.pre, w.build);
  }

  /** The regular expression followed by the zero check of what it captured accepts what the C scanner accepts. */
  lemma PatternThenZeroCheck(s: string, v: Version)
    requires MatchesPattern(v) && Render(v) == s
    ensures SemverComponents(s).Accepted? <==> ZeroCheckPasses(v)
    ensures SemverComponents(s).Accepted? ==> WellFormed(v) && SemverComponents(s).value == ComponentsOf(v)
  {
    if ZeroCheckPasses(v) { ParseRendered(v); }
    if Parse(s).Some? {
      ParseSound(s);
      OnePatternReading(v, Parse(s).value);
    }
  }

  /** Only texts that match the pattern are accepted. */
  lemma ComponentsMatchPattern(s: string)
    requires SemverComponents(s).Accepted?
    ensures exists v :: MatchesPattern(v) && Render(v) == s
  {
    ParseSound(s);
    assert MatchesPattern(Parse(s).value);
  }

  function ComponentsOf(v: Version): Components
    requires WellFormed(v)
  {
    Components(Value(v.major), Value(v.minor), Value(v.patch), if v.pre.Some? then v.pre.value else [])
  }

  lemma PreTails(a: seq<string>)
    requires a != [] && AllPreIdentifiers(a)
    ensures IsPreIdentifier(a[0]) && AllPreIdentifiers(a[1..])
  {
    forall i | 0 <= i < |a| - 1 ensures IsPreIdentifier(a[1..][i]) { assert a[1..][i] == a[i + 1]; }
  }

  lemma SameIdentifier(a: string, b: string)
    requires IsPreIdentifier(a) && IsPreIdentifier(b)
    ensures CompareIdentifier(a, b) == 0 <==> a == b
    ensures -1 <= CompareIdentifier(a, b) <= 1
  {
    TextAntisymmetric(a, b);
    if AllDigits(a) && AllDigits(b) {
      NumbersByLength(a, b);
    }
  }

  /** The loop over paired identifiers; without a decision the shorter list comes first. */
  method ComparePrereleases(left: seq<string>, right: seq<string>) returns (r: int)
    requires AllPreIdentifiers(left) && AllPreIdentifiers(right)
    ensures r == CompareLists(left, right)
  {
    var i := 0;
    while i < |left| && i < |right|
      invariant i <= |left| && i <= |right|
      invariant AllPreIdentifiers(left[i..]) && AllPreIdentifiers(right[i..])
      invariant CompareLists(left, right) == CompareLists(left[i..], right[i..])
    {
      var l, r := left[i], right[i];
      PreTails(left[i..]);
      PreTails(right[i..]);
      SameIdentifier(l, r);
      if l != r {
        if AllDigits(l) && AllDigits(r) {
          return if Value(l) < Value(r) then -1 else 1;
        }
        if AllDigits(l) != AllDigits(r) {
          return if AllDigits(l) then -1 else 1;
        }
        return if CompareText(l, r) < 0 then -1 else 1;
      }
      assert left[i..][1..] == left[i + 1..] && right[i..][1..] == right[i + 1..];
      i := i + 1;
    }
    r := if |left| == |right| then 0 else if |left| < |right| then -1 else 1;
  }

  function CoreLess(l: Components, r: Components): bool {
    l.major < r.major || (l.major == r.major && (l.minor < r.minor || (l.minor == r.minor && l.patch < r.patch)))
  }

  method CompareComponents(left: Components, right: Components, ghost v: Version, ghost w: Version) returns (r: int)
    requires WellFormed(v) && WellFormed(w) && left == ComponentsOf(v) && right == ComponentsOf(w)
    ensures r == Precedence(v, w)
  {
    if (left.major, left.minor, left.patch) != (right.major, right.minor, right.patch) {
      return if CoreLess(left, right) then -1 else 1;
    }
    if left.pre == [] && right.pre == [] {
      return 0;
    }
    if left.pre == [] {
      return 1;
    }
    if right.pre == [] {
      return -1;
    }
    r := ComparePrereleases(left.pre, right.pre);
  }

  /** The add-on's comparator: refused unless both texts are versions, and then their precedence. */
  method CompareSemver(left: string, right: string) returns (r: Result<int>)
    ensures r.Accepted? <==> Parse(left).Some? && Parse(right).Some?
    ensures r.Accepted? ==>
      && WellFormed(Parse(left).value) && WellFormed(Parse(right).value)
      && r.value == Precedence(Parse(left).value, Parse(right).value)
  {
    var l, q := SemverComponents(left), SemverComponents(right);
    if l.Refused? || q.Refused? {
      return Refused;
    }
    ParseSound(left);
    ParseSound(right);
    var c := CompareComponents(l.value, q.value, Parse(left).value, Parse(right).value);
    r := Accepted(c);
  }
}
