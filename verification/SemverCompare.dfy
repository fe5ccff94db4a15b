/** The state agent's version comparator, which works on the texts themselves. */
module SemverCompare {
  import opened Wrappers
  import opened Semver
  import opened SemverOrder
  import opened SemverScanner

  const UINT32_MAX := 0xFFFF_FFFF

  /** Every core number fits the agent's 32-bit slots. */
  predicate FitsU32(v: Version)
    requires WellFormed(v)
  {
    Value(v.major) <= UINT32_MAX && Value(v.minor) <= UINT32_MAX && Value(v.patch) <= UINT32_MAX
  }

  // ---------------------------------------------------------------- the core numbers

  function CoreNumber(v: Version, i: nat): string
    requires i < 3
  {
    if i == 0 then v.major else if i == 1 then v.minor else v.patch
  }

  /** The text from the `i`-th core number on. */
  function CoreFrom(v: Version, i: nat): string
    requires i <= 3
    decreases 3 - i
  {
    if i == 3 then Tail('-', v.pre) + Tail('+', v.build)
    else CoreNumber(v, i) + (if i < 2 then Dot(CoreFrom(v, i + 1)) else CoreFrom(v, i + 1))
  }

  lemma RenderIsCoreFrom(v: Version)
    ensures Render(v) == CoreFrom(v, 0)
  {
    assert CoreFrom(v, 2) == v.patch + CoreFrom(v, 3);
    assert CoreFrom(v, 1) == v.minor + Dot(CoreFrom(v, 2));
  }

  /** What `strtoul` finds at the start of the remaining text. */
  lemma NumberAhead(v: Version, i: nat)
    requires WellFormed(v) && i < 3
    ensures DigitRun(CoreFrom(v, i)) == |CoreNumber(v, i)| > 0
    ensures CoreFrom(v, i)[..|CoreNumber(v, i)|] == CoreNumber(v, i)
    ensures CoreFrom(v, i)[|CoreNumber(v, i)|..] == if i < 2 then Dot(CoreFrom(v, i + 1)) else CoreFrom(v, i + 1)
  {
    DigitRunAfter(CoreNumber(v, i), if i < 2 then Dot(CoreFrom(v, i + 1)) else CoreFrom(v, i + 1));
  }

  /** `parse_core_version` fails on a version exactly when a number exceeds 32 bits. */
  method ParseCoreVersion(s: string, ghost v: Version) returns (ok: bool, out: seq<nat>)
    requires WellFormed(v) && s == Render(v)
    ensures ok <==> FitsU32(v)
    ensures ok ==> out == [Value(v.major), Value(v.minor), Value(v.patch)]
  {
    RenderIsCoreFrom(v);
    out := [];
    var rest := s;
    for i := 0 to 3
      invariant rest == CoreFrom(v, i)
      invariant |out| == i
      invariant forall j | 0 <= j < i :: out[j] == Value(CoreNumber(v, j)) <= UINT32_MAX
    {
      NumberAhead(v, i);
      var n := DigitRun(rest);
      var value := Value(rest[..n]);
      if n == 0 || value > UINT32_MAX {
        assert Value(CoreNumber(v, i)) > UINT32_MAX;
        return false, [];
      }
      out := out + [value];
      rest := rest[n..];
      if i < 2 {
        if At(rest, 0) != '.' {
          return false, [];
        }
        rest := rest[1..];
      }
    }
    ok := true;
  }

  // ---------------------------------------------------------------- the prerelease text

  /** The text between the first `-` and the first `+`, unless the `+` comes first. */
  function SemverPrerelease(version: string): Option<string> {
    IndexIsFirst(version, '-');
    IndexIsFirst(version, '+');
    var dash, build := Index(version, '-'), Index(version, '+');
    if dash == |version| || (build < |version| && dash > build) then None
    else if build < |version| then Some(version[dash + 1..build])
    else Some(version[dash + 1..])
  }

  function CoreText(v: Version): string {
    v.major + Dot(v.minor + Dot(v.patch))
  }

  lemma CoreThenTail(v: Version)
    requires WellFormed(v)
    ensures Render(v) == CoreText(v) + (Tail('-', v.pre) + Tail('+', v.build))
    ensures forall i | 0 <= i < |CoreText(v)| :: CoreText(v)[i] != '-' && CoreText(v)[i] != '+'
  {
    var tail := Tail('-', v.pre) + Tail('+', v.build);
    assert Dot(v.patch + tail) == Dot(v.patch) + tail;
    assert Dot(v.minor + Dot(v.patch + tail)) == Dot(v.minor + Dot(v.patch)) + tail;
  }

  lemma PrereleaseBetween(core: string, pre: string, rest: string)
    requires forall i | 0 <= i < |core| :: core[i] != '-' && core[i] != '+'
    requires forall i | 0 <= i < |pre| :: pre[i] != '+'
    requires rest == "" || rest[0] == '+'
    ensures SemverPrerelease(core + (['-'] + pre + rest)) == Some(pre)
  {
    var text := core + (['-'] + pre + rest);
    IndexAfter(core, ['-'] + pre + rest, '-');
    IndexAfter(core + ['-'] + pre, rest, '+');
    assert text == core + ['-'] + pre + rest;
    assert text[|core| + 1..|core| + 1 + |pre|] == pre;
    assert rest == "" ==> text[|core| + 1..] == pre;
  }

  lemma PrereleaseOfRendered(v: Version)
    requires WellFormed(v)
    ensures SemverPrerelease(Render(v)) == if v.pre.Some? then Some(Join(v.pre.value)) else None
  {
    CoreThenTail(v);
    var core, tail := CoreText(v), Tail('-', v.pre) + Tail('+', v.build);
    if v.pre.Some? {
      IdentifiersHaveNoMarks(v.pre.value);
      JoinKeepsOut(v.pre.value, '+');
      PrereleaseBetween(core, Join(v.pre.value), Tail('+', v.build));
    } else {
      IndexAfter(core, tail, '-');
      IndexAfter(core, tail, '+');
      assert tail == Tail('+', v.build);
    }
  }

  // ---------------------------------------------------------------- one identifier

  lemma {:induction false} TextByPrefix(a: string, b: string, n: nat)
    requires n == if |a| < |b| then |a| else |b|
    ensures CompareText(a, b)
         == if CompareText(a[..n], b[..n]) != 0 then CompareText(a[..n], b[..n]) else Sign(|a|, |b|)
  {
    if n == 0 {
      assert a[..0] == "" && b[..0] == "";
    } else {
      assert a[..n][1..] == a[1..][..n - 1] && b[..n][1..] == b[1..][..n - 1];
      TextByPrefix(a[1..], b[1..], n - 1);
    }
  }

  method IsNumeric(s: string) returns (numeric: bool)
    ensures numeric <==> AllDigits(s)
  {
    numeric := true;
    for i := 0 to |s|
      invariant numeric <==> AllDigits(s[..i])
    {
      numeric := numeric && IsDigit(s[i]);
      assert s[..i + 1] == s[..i] + [s[i]];
    }
    assert s[..|s|] == s;
  }

  /** Numbers by length and then by bytes; otherwise by the common bytes and then by length. */
  method ComparePrereleaseIdentifier(left: string, right: string) returns (r: int)
    requires IsPreIdentifier(left) && IsPreIdentifier(right)
    ensures r == CompareIdentifier(left, right)
  {
    var leftNumeric := IsNumeric(left);
    var rightNumeric := IsNumeric(right);
    if leftNumeric != rightNumeric {
      return if leftNumeric then -1 else 1;
    }
    if leftNumeric {
      NumbersByLength(left, right);
      if |left| != |right| {
        return if |left| < |right| then -1 else 1;
      }
    }
    var common := if |left| < |right| then |left| else |right|;
    TextByPrefix(left, right, common);
    TextAntisymmetric(left[..common], right[..common]);
    var compared := CompareText(left[..common], right[..common]);
    if compared != 0 {
      return if compared < 0 then -1 else 1;
    }
    if |left| == |right| {
      return 0;
    }
    r := if |left| < |right| then -1 else 1;
  }

  // ---------------------------------------------------------------- the dotted lists

  /** The identifiers from offset `o` on; the offset past the last one leaves none. */
  function Pieces(pre: string, o: nat): seq<string> {
    if o >= |pre| then [] else Split(pre[o..])
  }

  method PartLength(pre: string, offset: nat) returns (part: nat)
    requires offset < |pre|
    ensures part == Index(pre[offset..], '.')
  {
    part := 0;
    while offset + part < |pre| && pre[offset + part] != '.'
      invariant offset + part <= |pre|
      invariant forall i | offset <= i < offset + part :: pre[i] != '.'
    {
      part := part + 1;
    }
    FirstIndex(pre[offset..], part, '.');
  }

  lemma NextPiece(pre: string, o: nat, k: nat)
    requires o < |pre| && AllPreIdentifiers(Pieces(pre, o)) && k == Index(pre[o..], '.')
    ensures Pieces(pre, o) == [pre[o..o + k]] + Pieces(pre, o + k + 1)
    ensures IsPreIdentifier(pre[o..o + k])
    ensures AllPreIdentifiers(Pieces(pre, o + k + 1))
  {
    var s := pre[o..];
    var parts := Pieces(pre, o);
    PreTails(parts);
    assert s[..k] == pre[o..o + k];
    if k == |s| {
      assert s[..k] == s;
      assert parts == [s] + [];
    } else {
      assert s[k + 1..] == pre[o + k + 1..];
      assert parts[1..] == Split(s[k + 1..]);
      assert IsPreIdentifier(parts[1..][0]);
    }
  }

  lemma ConsCompared(x: string, a: seq<string>, y: string, b: seq<string>)
    ensures CompareLists([x] + a, [y] + b)
         == if CompareIdentifier(x, y) != 0 then CompareIdentifier(x, y) else CompareLists(a, b)
  {
    assert ([x] + a)[1..] == a && ([y] + b)[1..] == b;
  }

  method TakePart(pre: string, o: nat) returns (part: string, next: nat)
    requires o < |pre| && AllPreIdentifiers(Pieces(pre, o))
    ensures o < next && IsPreIdentifier(part) && AllPreIdentifiers(Pieces(pre, next))
    ensures Pieces(pre, o) == [part] + Pieces(pre, next)
  {
    var n := PartLength(pre, o);
    NextPiece(pre, o, n);
    part, next := pre[o..o + n], o + n + 1;
  }

  method CompareDotted(left: string, right: string) returns (r: int)
    requires AllPreIdentifiers(Pieces(left, 0)) && AllPreIdentifiers(Pieces(right, 0))
    ensures r == CompareLists(Pieces(left, 0), Pieces(right, 0))
  {
    var l: nat, q: nat := 0, 0;
    while l < |left| && q < |right|
      invariant AllPreIdentifiers(Pieces(left, l)) && AllPreIdentifiers(Pieces(right, q))
      invariant CompareLists(Pieces(left, 0), Pieces(right, 0)) == CompareLists(Pieces(left, l), Pieces(right, q))
      decreases |left| - l
    {
      var leftPart, leftNext := TakePart(left, l);
      var rightPart, rightNext := TakePart(right, q);
      ConsCompared(leftPart, Pieces(left, leftNext), rightPart, Pieces(right, rightNext));
      var compared := ComparePrereleaseIdentifier(leftPart, rightPart);
      if compared != 0 {
        return compared;
      }
      l, q := leftNext, rightNext;
    }
    if l >= |left| && q >= |right| {
      return 0;
    }
    r := if l >= |left| then -1 else 1;
  }

  // ---------------------------------------------------------------- the whole comparison

  lemma PrereleasePieces(v: Version)
    requires WellFormed(v) && v.pre.Some?
    ensures Pieces(Join(v.pre.value), 0) == v.pre.value
  {
    IdentifiersHaveNoMarks(v.pre.value);
    SplitJoin(v.pre.value);
    var pre := Join(v.pre.value);
    assert IsPreIdentifier(v.pre.value[0]);
    assert pre != "" && pre[0..] == pre;
  }

  /** The agent's verdict: precedence while every core number fits 32 bits, and 0 otherwise. */
  function AgentVerdict(v: Version, w: Version): int
    requires WellFormed(v) && WellFormed(w)
  {
    if FitsU32(v) && FitsU32(w) then Precedence(v, w) else 0
  }

  method ComparePrerelease(left: string, right: string, ghost v: Version, ghost w: Version) returns (r: int)
    requires WellFormed(v) && WellFormed(w) && left == Render(v) && right == Render(w)
    ensures r == ComparePre(v.pre, w.pre)
  {
    PrereleaseOfRendered(v);
    PrereleaseOfRendered(w);
    var l, q := SemverPrerelease(left), SemverPrerelease(right);
    if l.None? && q.None? {
      return 0;
    }
    if l.None? {
      return 1;
    }
    if q.None? {
      return -1;
    }
    PrereleasePieces(v);
    PrereleasePieces(w);
    r := CompareDotted(l.value, q.value);
  }

  method CompareSemver(left: string, right: string, ghost v: Version, ghost w: Version) returns (r: int)
    requires WellFormed(v) && WellFormed(w) && left == Render(v) && right == Render(w)
    ensures r == AgentVerdict(v, w)
  {
    var leftOk, l := ParseCoreVersion(left, v);
    var rightOk, q := ParseCoreVersion(right, w);
    if !leftOk || !rightOk {
      return 0;
    }
    for i := 0 to 3
      invariant forall j | 0 <= j < i :: l[j] == q[j]
    {
      assert l[0] == Value(v.major) && l[1] == Value(v.minor) && q[0] == Value(w.major) && q[1] == Value(w.minor);
      assert (i > 0 ==> l[0] == q[0]) && (i > 1 ==> l[1] == q[1]);
      if l[i] < q[i] {
        return -1;
      }
      if l[i] > q[i] {
        return 1;
      }
    }
    assert l[0] == q[0] && l[1] == q[1] && l[2] == q[2];
    r := ComparePrerelease(left, right, v, w);
  }

  /** Both texts are versions within the agent's 32 bits, and the first comes after the second. */
  predicate Newer(version: string, installed: string) {
    && Parse(version).Some? && Parse(installed).Some?
    && var v, w := Parse(version).value, Parse(installed).value;
       WellFormed(v) && WellFormed(w) && FitsU32(v) && FitsU32(w) && Precedence(v, w) > 0
  }

  /** The agent's gate: the version is checked, and anything that is not above the installed one is refused. It lets
      through exactly the newer versions, so an overflow never lets an update through. */
  method AcceptVersion(version: string, installed: string) returns (accepted: bool)
    requires CString(version) && Parse(installed).Some?
    ensures accepted <==> Newer(version, installed)
  {
    accepted := ParseSemverStrict(version);
    ParseIffGrammar(version);
    if !accepted {
      return;
    }
    ParseSound(version);
    ParseSound(installed);
    var compared := CompareSemver(version, installed, Parse(version).value, Parse(installed).value);
    accepted := compared > 0;
  }

  /** Both comparators on the same two texts: they agree, or a core number overflows and the agent sees no
      difference. */
  method CompareBothWays(left: string, right: string) returns (addon: int, agent: int)
    requires Parse(left).Some? && Parse(right).Some?
    ensures WellFormed(Parse(left).value) && WellFormed(Parse(right).value)
    ensures addon == Precedence(Parse(left).value, Parse(right).value)
    ensures FitsU32(Parse(left).value) && FitsU32(Parse(right).value) ==> agent == addon
    ensures !(FitsU32(Parse(left).value) && FitsU32(Parse(right).value)) ==> agent == 0
    ensures agent > 0 <==> Newer(left, right)
  {
    ParseSound(left);
    ParseSound(right);
    var verdict := SemverOrder.CompareSemver(left, right);
    addon := verdict.value;
    agent := CompareSemver(left, right, Parse(left).value, Parse(right).value);
  }

  /** Such versions exist: 10000000000.0.0 is above 1.0.0, and the agent calls them equal. */
  lemma OverflowHappens()
    ensures var v, w := Version("10000000000", "0", "0", None, None), Version("1", "0", "0", None, None);
      WellFormed(v) && WellFormed(w) && Precedence(v, w) == 1 && AgentVerdict(v, w) == 0
  {
    var big := "10000000000";
    ValueAbove(big);
    assert Pow10(10) == 10_000_000_000;
    assert Value("1") == 1;
  }
}
