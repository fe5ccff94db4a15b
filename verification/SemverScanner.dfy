/** The state agent's version scanner, which walks a C string character by character, accepts exactly
    the grammar of `Semver`. */
module SemverScanner {
  import opened Wrappers
  import opened Semver

  /** The character at offset `p` of a C string; the terminator is NUL. */
  function At(s: string, p: nat): char {
    if p < |s| then s[p] else '\0'
  }

  predicate CString(s: string) {
    forall i | 0 <= i < |s| :: s[i] != '\0'
  }

  // ---------------------------------------------------------------- splitting at a dot

  lemma FirstIndex(t: string, k: nat, c: char)
    requires k <= |t| && (forall i | 0 <= i < k :: t[i] != c) && (k < |t| ==> t[k] == c)
    ensures Index(t, c) == k
  {
    assert t == t[..k] + t[k..];
    IndexAfter(t[..k], t[k..], c);
  }

  lemma SplitAtDot(s: string, start: nat, p: nat, e: nat)
    requires start <= p < e <= |s| && AllIdentChars(s[start..p]) && s[p] == '.'
    ensures Split(s[start..e]) == [s[start..p]] + Split(s[p + 1..e])
  {
    var t := s[start..e];
    assert forall i | 0 <= i < p - start :: t[i] == s[start..p][i];
    FirstIndex(t, p - start, '.');
    assert t[..p - start] == s[start..p] && t[p - start + 1..] == s[p + 1..e];
  }

  lemma SplitUndotted(s: string, start: nat, e: nat)
    requires start <= e <= |s| && AllIdentChars(s[start..e])
    ensures Split(s[start..e]) == [s[start..e]]
  {
    FirstIndex(s[start..e], e - start, '.');
  }

  /** A character that is neither a dot nor allowed in an identifier spoils the identifier it is in. */
  lemma {:induction false} BadCharacter(t: string, k: nat)
    requires k < |t| && t[k] != '.' && !IsIdentChar(t[k])
    ensures exists i :: 0 <= i < |Split(t)| && !IsIdentifier(Split(t)[i])
    decreases |t|
  {
    var d := Index(t, '.');
    IndexIsFirst(t, '.');
    if k < d {
      assert t[..d][k] == t[k];
      assert !IsIdentifier(Split(t)[0]);
    } else if d < |t| {
      assert t[d + 1..][k - d - 1] == t[k];
      BadCharacter(t[d + 1..], k - d - 1);
      var i :| 0 <= i < |Split(t[d + 1..])| && !IsIdentifier(Split(t[d + 1..])[i]);
      assert Split(t)[i + 1] == Split(t[d + 1..])[i];
    }
  }

  /** A complete prerelease identifier at a dot: it and the rest must be good. */
  lemma PreDot(s: string, start: nat, p: nat, e: nat)
    requires start <= p < e <= |s| && AllIdentChars(s[start..p]) && s[p] == '.'
    ensures AllPreIdentifiers(Split(s[start..e]))
       <==> IsPreIdentifier(s[start..p]) && AllPreIdentifiers(Split(s[p + 1..e]))
  {
    SplitAtDot(s, start, p, e);
    var head, rest := s[start..p], Split(s[p + 1..e]);
    var all := [head] + rest;
    assert all[0] == head && forall i | 0 <= i < |rest| :: all[i + 1] == rest[i];
    if IsPreIdentifier(head) && AllPreIdentifiers(rest) {
      forall i | 0 <= i < |all| ensures IsPreIdentifier(all[i]) { if i > 0 { assert all[i] == rest[i - 1]; } }
    }
  }

  lemma BuildDot(s: string, start: nat, p: nat, e: nat)
    requires start <= p < e <= |s| && AllIdentChars(s[start..p]) && s[p] == '.'
    ensures AllIdentifiers(Split(s[start..e]))
       <==> IsIdentifier(s[start..p]) && AllIdentifiers(Split(s[p + 1..e]))
  {
    SplitAtDot(s, start, p, e);
    var head, rest := s[start..p], Split(s[p + 1..e]);
    var all := [head] + rest;
    assert all[0] == head && forall i | 0 <= i < |rest| :: all[i + 1] == rest[i];
    if IsIdentifier(head) && AllIdentifiers(rest) {
      forall i | 0 <= i < |all| ensures IsIdentifier(all[i]) { if i > 0 { assert all[i] == rest[i - 1]; } }
    }
  }

  lemma BadIdentifier(s: string, start: nat, p: nat, e: nat)
    requires start <= p < e <= |s| && s[p] != '.' && !IsIdentChar(s[p])
    ensures !AllIdentifiers(Split(s[start..e])) && !AllPreIdentifiers(Split(s[start..e]))
  {
    assert s[start..e][p - start] == s[p];
    BadCharacter(s[start..e], p - start);
    var i :| 0 <= i < |Split(s[start..e])| && !IsIdentifier(Split(s[start..e])[i]);
  }

  /** The last identifier decides alone. */
  lemma LastIdentifier(s: string, start: nat, e: nat)
    requires start <= e <= |s| && AllIdentChars(s[start..e])
    ensures AllPreIdentifiers(Split(s[start..e])) <==> IsPreIdentifier(s[start..e])
    ensures AllIdentifiers(Split(s[start..e])) <==> IsIdentifier(s[start..e])
  {
    SplitUndotted(s, start, e);
    assert Split(s[start..e])[0] == s[start..e];
  }

  /** The scanner's flags decide whether the identifier it has walked over is good. */
  lemma IdentifierByFlags(s: string, a: nat, p: nat, numeric: bool)
    requires a <= p <= |s| && AllIdentChars(s[a..p]) && numeric == AllDigits(s[a..p])
    ensures IsPreIdentifier(s[a..p]) <==> a < p && !(numeric && p - a > 1 && s[a] == '0')
  {
  }

  lemma Extended(s: string, a: nat, p: nat)
    requires a <= p < |s| && AllIdentChars(s[a..p]) && IsIdentChar(s[p])
    ensures AllIdentChars(s[a..p + 1])
    ensures AllDigits(s[a..p + 1]) == (AllDigits(s[a..p]) && IsDigit(s[p]))
  {
    var t, u := s[a..p], s[a..p + 1];
    assert u[p - a] == s[p] && forall i | 0 <= i < |t| :: u[i] == t[i];
  }

  // ---------------------------------------------------------------- the loops

  method ScanDigits(s: string, start: nat) returns (p: nat)
    requires start <= |s|
    ensures start <= p <= |s| && p - start == DigitRun(s[start..])
  {
    p := start;
    while IsDigit(At(s, p))
      invariant start <= p <= |s| && AllDigits(s[start..p])
      decreases |s| - p
    {
      Extended(s, start, p);
      p := p + 1;
    }
    assert s[start..] == s[start..p] + s[p..];
    DigitRunAfter(s[start..p], s[p..]);
  }

  /** One core number at `start`: refused unless it starts with a digit and has no leading zero. */
  method ScanNumber(s: string, start: nat) returns (ok: bool, p: nat)
    requires start <= |s|
    ensures p <= |s| && ok == ReadNumber(s[start..]).Some?
    ensures ok ==> start < p && ReadNumber(s[start..]) == Some((s[start..p], s[p..]))
  {
    if !IsDigit(At(s, start)) {
      return false, start;
    }
    if At(s, start) == '0' && IsDigit(At(s, start + 1)) {
      p := ScanDigits(s, start);
      assert s[start..][1] == s[start + 1];
      assert s[start..] == s[start..start + 2] + s[start + 2..];
      return false, start;
    }
    p := ScanDigits(s, start);
    assert s[start..][..p - start] == s[start..p] && s[start..][p - start..] == s[p..];
    assert s[start..][0] == s[start];
    ok := true;
  }

  lemma PlusBound(s: string, start: nat)
    requires start <= |s|
    ensures var e := start + Index(s[start..], '+');
      && (forall i | start <= i < e :: s[i] != '+') && (e < |s| ==> s[e] == '+')
  {
    var t := s[start..];
    IndexIsFirst(t, '+');
    assert forall i | start <= i < |s| :: s[i] == t[i - start];
  }

  /** From just after `-` to `e`, which is the end or the first `+`. */
  method ScanPrerelease(s: string, start: nat, ghost e: nat) returns (ok: bool, p: nat)
    requires CString(s) && start <= e <= |s|
    requires (forall i | start <= i < e :: s[i] != '+') && (e < |s| ==> s[e] == '+')
    ensures p <= |s| && ok == AllPreIdentifiers(Split(s[start..e])) && (ok ==> p == e)
  {
    p := start;
    var saw, identStart, identifierStart, identifierNumeric := false, true, start, true;
    while At(s, p) != '\0' && At(s, p) != '+'
      invariant start <= identifierStart <= p <= e
      invariant AllPreIdentifiers(Split(s[start..e])) == AllPreIdentifiers(Split(s[identifierStart..e]))
      invariant AllIdentChars(s[identifierStart..p])
      invariant identStart == !saw == (p == identifierStart)
      invariant identifierNumeric == AllDigits(s[identifierStart..p])
      decreases |s| - p
    {
      if s[p] == '.' {
        PreDot(s, identifierStart, p, e);
        IdentifierByFlags(s, identifierStart, p, identifierNumeric);
        if identStart || !saw {
          return false, p;
        }
        if identifierNumeric && p - identifierStart > 1 && s[identifierStart] == '0' {
          return false, p;
        }
        identStart, saw, identifierStart, identifierNumeric := true, false, p + 1, true;
      } else {
        if !IsIdentChar(s[p]) {
          BadIdentifier(s, identifierStart, p, e);
          return false, p;
        }
        identifierNumeric := identifierNumeric && IsDigit(s[p]);
        identStart, saw := false, true;
        Extended(s, identifierStart, p);
      }
      p := p + 1;
    }
    LastIdentifier(s, identifierStart, e);
    IdentifierByFlags(s, identifierStart, e, identifierNumeric);
    ok := !(identStart || !saw) &&
          !(identifierNumeric && p - identifierStart > 1 && s[identifierStart] == '0');
  }

  /** From just after `+` to the end. */
  method ScanBuild(s: string, start: nat) returns (ok: bool, p: nat)
    requires CString(s) && start <= |s|
    ensures p <= |s| && ok == AllIdentifiers(Split(s[start..])) && (ok ==> p == |s|)
  {
    p := start;
    var saw, identStart := false, true;
    ghost var identifierStart := start;
    assert s[start..|s|] == s[start..];
    while At(s, p) != '\0'
      invariant start <= identifierStart <= p <= |s|
      invariant AllIdentifiers(Split(s[start..])) == AllIdentifiers(Split(s[identifierStart..|s|]))
      invariant AllIdentChars(s[identifierStart..p])
      invariant identStart == !saw == (p == identifierStart)
      decreases |s| - p
    {
      if s[p] == '.' {
        BuildDot(s, identifierStart, p, |s|);
        if identStart || !saw {
          return false, p;
        }
        identStart, saw := true, false;
        identifierStart := p + 1;
      } else {
        if !IsIdentChar(s[p]) {
          BadIdentifier(s, identifierStart, p, |s|);
          return false, p;
        }
        identStart, saw := false, true;
        Extended(s, identifierStart, p);
      }
      p := p + 1;
    }
    LastIdentifier(s, identifierStart, |s|);
    ok := !(identStart || !saw);
  }

  // ---------------------------------------------------------------- the whole scanner

  /** How far the core has been read after `part` numbers. */
  ghost predicate CoreProgress(s: string, part: nat, p: nat)
    requires p <= |s|
  {
    match part
    case 0 => p == 0
    case 1 => ReadNumberDot(s).Some? && ReadNumberDot(s).value.1 == s[p..]
    case 2 =>
      && ReadNumberDot(s).Some? && ReadNumberDot(ReadNumberDot(s).value.1).Some?
      && ReadNumberDot(ReadNumberDot(s).value.1).value.1 == s[p..]
    case _ => ReadCore(s).Some? && ReadCore(s).value.3 == s[p..]
  }

  method ScanCore(value: string) returns (ok: bool, p: nat)
    ensures p <= |value| && ok == ReadCore(value).Some?
    ensures ok ==> ReadCore(value).value.3 == value[p..]
  {
    p := 0;
    assert value[0..] == value;
    for part := 0 to 3
      invariant p <= |value| && CoreProgress(value, part, p)
    {
      var number, q := ScanNumber(value, p);
      if !number {
        return false, p;
      }
      p := q;
      if part < 2 {
        if At(value, p) != '.' {
          return false, p;
        }
        assert value[p..][1..] == value[p + 1..];
        p := p + 1;
      }
    }
    ok := true;
  }

  /** `parse_semver_strict` */
  method ParseSemverStrict(value: string) returns (ok: bool)
    requires CString(value)
    ensures ok <==> exists v :: WellFormed(v) && Render(v) == value
  {
    ParseIffGrammar(value);
    var core, p := ScanCore(value);
    if !core {
      return false;
    }
    ok := ScanTail(value, p);
  }

  method ScanTail(value: string, start: nat) returns (ok: bool)
    requires CString(value) && start <= |value|
    ensures ok == ReadTail(value[start..]).Some?
  {
    var p := start;
    if At(value, p) == '-' {
      PlusBound(value, p + 1);
      var pre, q := ScanPrerelease(value, p + 1, p + 1 + Index(value[p + 1..], '+'));
      TailAfterDash(value, p);
      if !pre {
        return false;
      }
      p := q;
    }
    assert ReadTail(value[start..]).Some? <==> ReadBuild(value[p..]).Some?;
    if At(value, p) == '+' {
      var build, q := ScanBuild(value, p + 1);
      assert value[p..][1..] == value[p + 1..];
      if !build {
        return false;
      }
      p := q;
      return At(value, p) == '\0';
    }
    ok := At(value, p) == '\0';
  }

  lemma TailAfterDash(s: string, p: nat)
    requires p < |s| && s[p] == '-'
    ensures var e := p + 1 + Index(s[p + 1..], '+');
      ReadTail(s[p..]).Some? <==> AllPreIdentifiers(Split(s[p + 1..e])) && ReadBuild(s[e..]).Some?
  {
    var t := s[p..];
    var e := p + 1 + Index(s[p + 1..], '+');
    assert t == ['-'] + s[p + 1..];
    IndexAfter(['-'], s[p + 1..], '+');
    assert t[1..e - p] == s[p + 1..e] && t[e - p..] == s[e..];
  }
}
