/** The FNV-1a revisions that the state agent gives to settings and plans: what they are sure to notice and what
    they are sure to ignore. */
module Fnv {
  import opened Wrappers
  import opened Bytes

  const MODULUS: int := 0x1_0000_0000_0000_0000
  const PRIME: int := 1099511628211
  const OFFSET: U64 := 14695981039346656037

  type U64 = h: int | 0 <= h < 0x1_0000_0000_0000_0000

  // ---------------------------------------------------------------- one byte

  /** Exclusive or of the lowest `n` bits. */
  function Xor(a: nat, b: nat, n: nat): (r: nat) {
    if n == 0 then 0 else (if a % 2 == b % 2 then 0 else 1) + 2 * Xor(a / 2, b / 2, n - 1)
  }

  function Pow2(n: nat): nat {
    if n == 0 then 1 else 2 * Pow2(n - 1)
  }

  lemma XorBits(a: nat, b: nat, n: nat)
    requires n > 0
    ensures Xor(a, b, n) / 2 == Xor(a / 2, b / 2, n - 1)
    ensures Xor(a, b, n) % 2 == if a % 2 == b % 2 then 0 else 1
  {
  }

  lemma {:induction false} XorTwice(a: nat, b: nat, n: nat)
    requires a < Pow2(n)
    ensures Xor(a, b, n) < Pow2(n) && Xor(Xor(a, b, n), b, n) == a
  {
    if n > 0 {
      XorTwice(a / 2, b / 2, n - 1);
      XorBits(a, b, n);
      XorBits(Xor(a, b, n), b, n);
    }
  }

  lemma {:induction false} XorCommutes(a: nat, b: nat, n: nat)
    ensures Xor(a, b, n) == Xor(b, a, n)
  {
    if n > 0 {
      XorCommutes(a / 2, b / 2, n - 1);
    }
  }

  /** `h ^= b` for a byte `b`. */
  function XorByte(h: U64, b: Byte): (r: U64) {
    XorStaysByte(h % 256, b);
    256 * (h / 256) + Xor(h % 256, b, 8)
  }

  lemma XorStaysByte(a: nat, b: nat)
    requires a < 256
    ensures Xor(a, b, 8) < 256
  {
    assert Pow2(8) == 256;
    XorTwice(a, b, 8);
  }

  /** `h *= prime`, wrapping. */
  function Multiply(h: U64): U64 {
    h * PRIME % MODULUS
  }

  function Step(h: U64, b: Byte): U64 {
    Multiply(XorByte(h, b))
  }

  lemma XorByteLow(h: U64, b: Byte)
    ensures XorByte(h, b) / 256 == h / 256 && XorByte(h, b) % 256 == Xor(h % 256, b, 8)
  {
    assert Pow2(8) == 256;
    XorTwice(h % 256, b, 8);
  }

  lemma XorByteInjective(h: U64, g: U64, b: Byte)
    requires XorByte(h, b) == XorByte(g, b)
    ensures h == g
  {
    assert Pow2(8) == 256;
    XorByteLow(h, b);
    XorByteLow(g, b);
    XorTwice(h % 256, b, 8);
    XorTwice(g % 256, b, 8);
  }

  lemma XorByteTellsBytes(h: U64, b: Byte, c: Byte)
    requires XorByte(h, b) == XorByte(h, c)
    ensures b == c
  {
    assert Pow2(8) == 256;
    XorByteLow(h, b);
    XorByteLow(h, c);
    XorCommutes(h % 256, b, 8);
    XorCommutes(h % 256, c, 8);
    XorTwice(b, h % 256, 8);
    XorTwice(c, h % 256, 8);
  }

  const INVERSE: int := 14886173955864302971
  const CARRY: int := 887285111055

  /** The prime is odd, so multiplication by it can be undone. */
  lemma MultiplyInjective(h: U64, g: U64)
    requires Multiply(h) == Multiply(g)
    ensures h == g
  {
    assert PRIME * INVERSE == 1 + CARRY * MODULUS;
    var t := h * PRIME / MODULUS - g * PRIME / MODULUS;
    assert (h - g) * PRIME == t * MODULUS;
    assert (h - g) * PRIME * INVERSE == t * MODULUS * INVERSE;
    assert h - g == (t * INVERSE - CARRY * (h - g)) * MODULUS;
  }

  /** A step tells different states apart, and different bytes. */
  lemma StepInjective(h: U64, g: U64, b: Byte, c: Byte)
    ensures h != g ==> Step(h, b) != Step(g, b)
    ensures b != c ==> Step(h, b) != Step(h, c)
  {
    if Step(h, b) == Step(g, b) {
      MultiplyInjective(XorByte(h, b), XorByte(g, b));
      XorByteInjective(h, g, b);
    }
    if Step(h, b) == Step(h, c) {
      MultiplyInjective(XorByte(h, b), XorByte(h, c));
      XorByteTellsBytes(h, b, c);
    }
  }

  // ---------------------------------------------------------------- many bytes

  function Hash(h: U64, s: seq<Byte>): U64 {
    if s == [] then h else Step(Hash(h, s[..|s| - 1]), s[|s| - 1])
  }

  lemma {:induction false} HashTellsStates(h: U64, g: U64, s: seq<Byte>)
    requires h != g
    ensures Hash(h, s) != Hash(g, s)
  {
    if s != [] {
      HashTellsStates(h, g, s[..|s| - 1]);
      StepInjective(Hash(h, s[..|s| - 1]), Hash(g, s[..|s| - 1]), s[|s| - 1], 0);
    }
  }

  /** `s` and `t` are equally long and differ at `i` and nowhere else. */
  predicate DifferAt(s: seq<Byte>, t: seq<Byte>, i: nat) {
    |s| == |t| && i < |s| && s[i] != t[i] && s[..i] == t[..i] && s[i + 1..] == t[i + 1..]
  }

  lemma {:induction false} HashJoins(h: U64, s: seq<Byte>, t: seq<Byte>)
    ensures Hash(h, s + t) == Hash(Hash(h, s), t)
  {
    if t == [] {
      assert s + t == s;
    } else {
      assert (s + t)[..|s + t| - 1] == s + t[..|t| - 1];
      HashJoins(h, s, t[..|t| - 1]);
    }
  }

  lemma HashTellsOneByte(h: U64, s: seq<Byte>, t: seq<Byte>, i: nat)
    requires DifferAt(s, t, i)
    ensures Hash(h, s) != Hash(h, t)
  {
    var g := Hash(h, s[..i]);
    assert s == s[..i] + [s[i]] + s[i + 1..] && t == t[..i] + [t[i]] + t[i + 1..];
    HashJoins(h, s[..i] + [s[i]], s[i + 1..]);
    HashJoins(h, t[..i] + [t[i]], t[i + 1..]);
    assert (s[..i] + [s[i]])[..i] == s[..i] && (t[..i] + [t[i]])[..i] == t[..i];
    StepInjective(g, g, s[i], t[i]);
    HashTellsStates(Step(g, s[i]), Step(g, t[i]), s[i + 1..]);
  }

  /** `fnv64_update` */
  method Update(h: U64, data: seq<Byte>) returns (r: U64)
    ensures r == Hash(h, data)
  {
    r := h;
    for i := 0 to |data|
      invariant r == Hash(h, data[..i])
    {
      assert data[..i + 1][..i] == data[..i];
      r := Step(r, data[i]);
    }
    assert data[..|data|] == data;
  }

  // ---------------------------------------------------------------- piece by piece

  function HashPieces(h: U64, pieces: seq<seq<Byte>>): U64 {
    if pieces == [] then h else Hash(HashPieces(h, pieces[..|pieces| - 1]), pieces[|pieces| - 1])
  }

  /** All pieces but number `j` are equal, and that one differs in byte `i` only. */
  predicate PiecesDifferAt(ps: seq<seq<Byte>>, qs: seq<seq<Byte>>, j: nat, i: nat) {
    && |ps| == |qs| && j < |ps| && DifferAt(ps[j], qs[j], i)
    && forall k | 0 <= k < |ps| && k != j :: ps[k] == qs[k]
  }

  lemma {:induction false} PiecesTellOneByte(h: U64, ps: seq<seq<Byte>>, qs: seq<seq<Byte>>, j: nat, i: nat)
    requires PiecesDifferAt(ps, qs, j, i)
    ensures HashPieces(h, ps) != HashPieces(h, qs)
    decreases |ps|
  {
    var n := |ps| - 1;
    if j == n {
      assert ps[..n] == qs[..n];
      HashTellsOneByte(HashPieces(h, ps[..n]), ps[n], qs[n], i);
    } else {
      PiecesTellOneByte(h, ps[..n], qs[..n], j, i);
      HashTellsStates(HashPieces(h, ps[..n]), HashPieces(h, qs[..n]), ps[n]);
    }
  }

  // ---------------------------------------------------------------- settings

  const STATE_BIN_SIZE := 236

  /** Offset and length of the persistent parts of the device state. */
  const RANGES: seq<(Byte, Byte)> :=
    [(0x09, 1), (0x10, 4), (0x15, 8), (0x21, 8), (0x2c, 100), (0x91, 17), (0xa3, 20), (0xb8, 17), (0xca, 13), (0xe7, 1)]

  predicate InRange(r: (Byte, Byte), i: nat) {
    r.0 <= i < r.0 + r.1
  }

  predicate Persistent(i: nat) {
    exists j | 0 <= j < |RANGES| :: InRange(RANGES[j], i)
  }

  lemma RangesFit(j: nat)
    requires j < |RANGES|
    ensures RANGES[j].0 + RANGES[j].1 <= STATE_BIN_SIZE
    ensures j > 0 ==> RANGES[j - 1].0 + RANGES[j - 1].1 <= RANGES[j].0
  {
  }

  lemma {:induction false} RangesAscend(j: nat, k: nat)
    requires j < k < |RANGES|
    ensures RANGES[j].0 + RANGES[j].1 <= RANGES[k].0
  {
    RangesFit(k);
    if j < k - 1 {
      RangesAscend(j, k - 1);
    }
  }

  lemma RangesDisjoint(j: nat, k: nat, i: nat)
    requires j < |RANGES| && k < |RANGES| && InRange(RANGES[j], i) && InRange(RANGES[k], i)
    ensures j == k
  {
    if j < k {
      RangesAscend(j, k);
    } else if k < j {
      RangesAscend(k, j);
    }
  }

  /** What is hashed for a range: its offset, its length and its bytes. */
  function Piece(state: seq<Byte>, j: nat): seq<Byte>
    requires |state| == STATE_BIN_SIZE && j < |RANGES|
  {
    RangesFit(j);
    var r := RANGES[j];
    [r.0, r.1] + state[r.0..r.0 + r.1]
  }

  function SettingsPieces(state: seq<Byte>, n: nat): seq<seq<Byte>>
    requires |state| == STATE_BIN_SIZE && n <= |RANGES|
  {
    seq(n, j requires 0 <= j < n => Piece(state, j))
  }

  /** `settings_rev_from_state`; an unreadable or odd-sized state gives the initial value. */
  function SettingsRev(state: Option<seq<Byte>>): U64 {
    if state.None? || |state.value| != STATE_BIN_SIZE then OFFSET
    else HashPieces(OFFSET, SettingsPieces(state.value, |RANGES|))
  }

  method HashRange(h: U64, state: seq<Byte>, j: nat) returns (r: U64)
    requires |state| == STATE_BIN_SIZE && j < |RANGES|
    ensures r == Hash(h, Piece(state, j))
  {
    RangesFit(j);
    var (off, len) := RANGES[j];
    HashJoins(h, [off], [len]);
    HashJoins(h, [off, len], state[off..off + len]);
    assert [off] + [len] == [off, len];
    r := Update(h, [off]);
    r := Update(r, [len]);
    r := Update(r, state[off..off + len]);
  }

  method ComputeSettingsRev(state: Option<seq<Byte>>) returns (h: U64)
    ensures h == SettingsRev(state)
  {
    h := OFFSET;
    if state.None? || |state.value| != STATE_BIN_SIZE {
      return;
    }
    for i := 0 to |RANGES|
      invariant h == HashPieces(OFFSET, SettingsPieces(state.value, i))
    {
      assert SettingsPieces(state.value, i + 1)[..i] == SettingsPieces(state.value, i);
      h := HashRange(h, state.value, i);
    }
  }

  lemma SamePiece(s: seq<Byte>, t: seq<Byte>, j: nat)
    requires |s| == |t| == STATE_BIN_SIZE && j < |RANGES|
    requires forall k | 0 <= k < |s| && InRange(RANGES[j], k) :: s[k] == t[k]
    ensures Piece(s, j) == Piece(t, j)
  {
    RangesFit(j);
    var r := RANGES[j];
    assert s[r.0..r.0 + r.1] == t[r.0..r.0 + r.1];
  }

  /** States that agree on every persistent byte have the same revision, whatever the other bytes are. */
  lemma RuntimeBytesIgnored(s: seq<Byte>, t: seq<Byte>)
    requires |s| == |t| == STATE_BIN_SIZE
    requires forall k | 0 <= k < |s| && Persistent(k) :: s[k] == t[k]
    ensures SettingsRev(Some(s)) == SettingsRev(Some(t))
  {
    forall j | 0 <= j < |RANGES| ensures Piece(s, j) == Piece(t, j) {
      forall k | 0 <= k < |s| && InRange(RANGES[j], k) ensures s[k] == t[k] { assert Persistent(k); }
      SamePiece(s, t, j);
    }
    assert SettingsPieces(s, |RANGES|) == SettingsPieces(t, |RANGES|);
  }

  lemma OnePieceDiffers(s: seq<Byte>, t: seq<Byte>, i: nat, j: nat)
    requires |s| == |t| == STATE_BIN_SIZE && i < |s| && j < |RANGES| && InRange(RANGES[j], i) && s[i] != t[i]
    requires forall k | 0 <= k < |s| && InRange(RANGES[j], k) && k != i :: s[k] == t[k]
    ensures DifferAt(Piece(s, j), Piece(t, j), 2 + i - RANGES[j].0)
  {
    RangesFit(j);
    var r := RANGES[j];
    var p, q, at := Piece(s, j), Piece(t, j), 2 + i - r.0;
    assert forall k | 2 <= k < |p| :: p[k] == s[r.0 + (k - 2)] && q[k] == t[r.0 + (k - 2)];
    assert forall k | 0 <= k < |p| && k != at :: p[k] == q[k];
  }

  /** States that differ in exactly one persistent byte have different revisions. */
  lemma OneSettingNoticed(s: seq<Byte>, t: seq<Byte>, i: nat)
    requires |s| == |t| == STATE_BIN_SIZE && i < |s| && Persistent(i) && s[i] != t[i]
    requires forall k | 0 <= k < |s| && Persistent(k) && k != i :: s[k] == t[k]
    ensures SettingsRev(Some(s)) != SettingsRev(Some(t))
  {
    var j :| 0 <= j < |RANGES| && InRange(RANGES[j], i);
    forall k | 0 <= k < |s| && InRange(RANGES[j], k) && k != i ensures s[k] == t[k] { assert Persistent(k); }
    OnePieceDiffers(s, t, i, j);
    var ps, qs := SettingsPieces(s, |RANGES|), SettingsPieces(t, |RANGES|);
    forall m | 0 <= m < |RANGES| && m != j ensures ps[m] == qs[m] {
      forall k | 0 <= k < |s| && InRange(RANGES[m], k) ensures s[k] == t[k] {
        assert Persistent(k);
        if k == i { RangesDisjoint(j, m, i); }
      }
      SamePiece(s, t, m);
    }
    PiecesTellOneByte(OFFSET, ps, qs, j, 2 + i - RANGES[j].0);
  }

  // ---------------------------------------------------------------- plans

  const PLAN_RECORD_SIZE := 47
  const SKIP_FROM := 0x11
  const SKIP_TO := 0x1d

  /** The bytes of a record on either side of its execution state and sync time. */
  function RecordPieces(plan: seq<Byte>, i: nat): seq<seq<Byte>>
    requires PLAN_RECORD_SIZE * (i + 1) <= |plan|
  {
    var at := PLAN_RECORD_SIZE * i;
    [plan[at..at + SKIP_FROM], plan[at + SKIP_TO..at + PLAN_RECORD_SIZE]]
  }

  function PlanPieces(plan: seq<Byte>, n: nat): seq<seq<Byte>>
    requires PLAN_RECORD_SIZE * n <= |plan|
  {
    if n == 0 then [] else PlanPieces(plan, n - 1) + RecordPieces(plan, n - 1)
  }

  /** `plans_rev_from_files`: the count, and then the records, or the whole file when its size does not fit. */
  function PlansRev(idx: Option<seq<Byte>>, plan: Option<seq<Byte>>): U64 {
    if idx.None? || idx.value == [] || plan.None? then OFFSET
    else
      var count := idx.value[0];
      var h := Hash(OFFSET, [count]);
      if |plan.value| != count * PLAN_RECORD_SIZE then Hash(h, plan.value)
      else HashPieces(h, PlanPieces(plan.value, count))
  }

  lemma HashTwoPieces(h: U64, ps: seq<seq<Byte>>, a: seq<Byte>, b: seq<Byte>)
    ensures HashPieces(h, ps + [a, b]) == Hash(Hash(HashPieces(h, ps), a), b)
  {
    var all := ps + [a, b];
    assert all[..|all| - 1] == ps + [a];
    assert (ps + [a])[..|ps|] == ps;
  }

  method ComputePlansRev(idx: Option<seq<Byte>>, plan: Option<seq<Byte>>) returns (h: U64)
    ensures h == PlansRev(idx, plan)
  {
    h := OFFSET;
    if idx.None? || idx.value == [] || plan.None? {
      return;
    }
    var count: int, data := idx.value[0], plan.value;
    h := Update(h, [idx.value[0]]);
    if |data| != count * PLAN_RECORD_SIZE {
      h := Update(h, data);
      return;
    }
    ghost var h0 := h;
    for i := 0 to count
      invariant h == HashPieces(h0, PlanPieces(data, i))
    {
      var at := i * PLAN_RECORD_SIZE;
      HashTwoPieces(h0, PlanPieces(data, i), data[at..at + SKIP_FROM], data[at + SKIP_TO..at + PLAN_RECORD_SIZE]);
      h := Update(h, data[at..at + SKIP_FROM]);
      h := Update(h, data[at + SKIP_TO..at + PLAN_RECORD_SIZE]);
    }
  }

  /** A byte of the plan file outside execution state and sync time. */
  predicate Schedules(p: nat) {
    p % PLAN_RECORD_SIZE < SKIP_FROM || p % PLAN_RECORD_SIZE >= SKIP_TO
  }

  lemma InRecord(p: nat, i: nat)
    requires PLAN_RECORD_SIZE * i <= p < PLAN_RECORD_SIZE * (i + 1)
    ensures p / PLAN_RECORD_SIZE == i && p % PLAN_RECORD_SIZE == p - PLAN_RECORD_SIZE * i
  {
  }

  /** `s` and `t` agree on the schedule bytes of record `i`, except perhaps at `p`. */
  predicate RecordAgrees(s: seq<Byte>, t: seq<Byte>, i: nat, p: int)
    requires |s| == |t| && PLAN_RECORD_SIZE * (i + 1) <= |s|
  {
    var at := PLAN_RECORD_SIZE * i;
    && (forall k | at <= k < at + SKIP_FROM && k != p :: s[k] == t[k])
    && (forall k | at + SKIP_TO <= k < at + PLAN_RECORD_SIZE && k != p :: s[k] == t[k])
  }

  lemma AgreesByRecord(s: seq<Byte>, t: seq<Byte>, i: nat, p: int)
    requires |s| == |t| && PLAN_RECORD_SIZE * (i + 1) <= |s|
    requires forall k | 0 <= k < |s| && Schedules(k) && k != p :: s[k] == t[k]
    ensures RecordAgrees(s, t, i, p)
  {
    var at := PLAN_RECORD_SIZE * i;
    forall k | at <= k < at + SKIP_FROM && k != p ensures s[k] == t[k] {
      InRecord(k, i);
      assert Schedules(k);
    }
    forall k | at + SKIP_TO <= k < at + PLAN_RECORD_SIZE && k != p ensures s[k] == t[k] {
      InRecord(k, i);
      assert Schedules(k);
    }
  }

  lemma RecordSame(s: seq<Byte>, t: seq<Byte>, i: nat, p: int)
    requires |s| == |t| && PLAN_RECORD_SIZE * (i + 1) <= |s| && RecordAgrees(s, t, i, p)
    requires !(PLAN_RECORD_SIZE * i <= p < PLAN_RECORD_SIZE * (i + 1))
    ensures RecordPieces(s, i) == RecordPieces(t, i)
  {
    var at := PLAN_RECORD_SIZE * i;
    assert s[at..at + SKIP_FROM] == t[at..at + SKIP_FROM];
    assert s[at + SKIP_TO..at + PLAN_RECORD_SIZE] == t[at + SKIP_TO..at + PLAN_RECORD_SIZE];
  }

  lemma {:induction false} PiecesSame(s: seq<Byte>, t: seq<Byte>, n: nat, p: int)
    requires |s| == |t| && PLAN_RECORD_SIZE * n <= |s| && !(0 <= p < PLAN_RECORD_SIZE * n) && AgreeBelow(s, t, n, p)
    ensures PlanPieces(s, n) == PlanPieces(t, n)
  {
    if n > 0 {
      PiecesSame(s, t, n - 1, p);
      RecordSame(s, t, n - 1, p);
    }
  }

  /** Plan files that agree outside execution state and sync time have the same revision. */
  lemma ExecutionStateIgnored(idx: seq<Byte>, s: seq<Byte>, t: seq<Byte>)
    requires idx != [] && |s| == |t| == idx[0] * PLAN_RECORD_SIZE
    requires forall k | 0 <= k < |s| && Schedules(k) :: s[k] == t[k]
    ensures PlansRev(Some(idx), Some(s)) == PlansRev(Some(idx), Some(t))
  {
    AgreesBelow(s, t, idx[0], -1);
    PiecesSame(s, t, idx[0], -1);
  }

  lemma OneByteOfSlice(s: seq<Byte>, t: seq<Byte>, a: nat, b: nat, p: nat)
    requires |s| == |t| && a <= p < b <= |s| && s[p] != t[p]
    requires forall k | a <= k < b && k != p :: s[k] == t[k]
    ensures DifferAt(s[a..b], t[a..b], p - a)
  {
    var u, v := s[a..b], t[a..b];
    assert forall k | 0 <= k < |u| && k != p - a :: u[k] == s[a + k] && v[k] == t[a + k] && u[k] == v[k];
  }

  /** Hashing the record that holds the differing byte. */
  lemma RecordNoticed(g: U64, s: seq<Byte>, t: seq<Byte>, i: nat, p: nat)
    requires |s| == |t| && PLAN_RECORD_SIZE * (i + 1) <= |s| && RecordAgrees(s, t, i, p)
    requires PLAN_RECORD_SIZE * i <= p < PLAN_RECORD_SIZE * (i + 1) && Schedules(p) && s[p] != t[p]
    ensures Hash(Hash(g, RecordPieces(s, i)[0]), RecordPieces(s, i)[1])
         != Hash(Hash(g, RecordPieces(t, i)[0]), RecordPieces(t, i)[1])
  {
    InRecord(p, i);
    var at := PLAN_RECORD_SIZE * i;
    var mid, low, high := at + SKIP_FROM, at + SKIP_TO, at + PLAN_RECORD_SIZE;
    if p < mid {
      OneByteOfSlice(s, t, at, mid, p);
      HashTellsOneByte(g, s[at..mid], t[at..mid], p - at);
      assert s[low..high] == t[low..high];
      HashTellsStates(Hash(g, s[at..mid]), Hash(g, t[at..mid]), s[low..high]);
    } else {
      assert s[at..mid] == t[at..mid];
      OneByteOfSlice(s, t, low, high, p);
      HashTellsOneByte(Hash(g, s[at..mid]), s[low..high], t[low..high], p - low);
    }
  }

  lemma HashRecordPieces(h: U64, plan: seq<Byte>, n: nat)
    requires n > 0 && PLAN_RECORD_SIZE * n <= |plan|
    ensures HashPieces(h, PlanPieces(plan, n))
         == Hash(Hash(HashPieces(h, PlanPieces(plan, n - 1)), RecordPieces(plan, n - 1)[0]),
                 RecordPieces(plan, n - 1)[1])
  {
    HashTwoPieces(h, PlanPieces(plan, n - 1), RecordPieces(plan, n - 1)[0], RecordPieces(plan, n - 1)[1]);
  }

  /** A difference made by earlier records outlives an equal record. */
  lemma DifferenceCarried(h: U64, s: seq<Byte>, t: seq<Byte>, n: nat)
    requires n > 0 && |s| == |t| && PLAN_RECORD_SIZE * n <= |s|
    requires HashPieces(h, PlanPieces(s, n - 1)) != HashPieces(h, PlanPieces(t, n - 1))
    requires RecordPieces(s, n - 1) == RecordPieces(t, n - 1)
    ensures HashPieces(h, PlanPieces(s, n)) != HashPieces(h, PlanPieces(t, n))
  {
    HashRecordPieces(h, s, n);
    HashRecordPieces(h, t, n);
    var a, b, r := HashPieces(h, PlanPieces(s, n - 1)), HashPieces(h, PlanPieces(t, n - 1)), RecordPieces(s, n - 1);
    HashTellsStates(a, b, r[0]);
    HashTellsStates(Hash(a, r[0]), Hash(b, r[0]), r[1]);
  }

  /** The first `n` records agree on their schedule bytes, except perhaps at `p`. */
  predicate AgreeBelow(s: seq<Byte>, t: seq<Byte>, n: nat, p: int)
    requires |s| == |t| && PLAN_RECORD_SIZE * n <= |s|
  {
    n == 0 || (RecordAgrees(s, t, n - 1, p) && AgreeBelow(s, t, n - 1, p))
  }

  lemma {:induction false} AgreesBelow(s: seq<Byte>, t: seq<Byte>, n: nat, p: int)
    requires |s| == |t| && PLAN_RECORD_SIZE * n <= |s|
    requires forall k | 0 <= k < |s| && Schedules(k) && k != p :: s[k] == t[k]
    ensures AgreeBelow(s, t, n, p)
  {
    if n > 0 {
      AgreesByRecord(s, t, n - 1, p);
      AgreesBelow(s, t, n - 1, p);
    }
  }

  lemma LastRecordNoticed(h: U64, s: seq<Byte>, t: seq<Byte>, n: nat, p: nat)
    requires n > 0 && |s| == |t| && PLAN_RECORD_SIZE * n <= |s| && AgreeBelow(s, t, n, p)
    requires PLAN_RECORD_SIZE * (n - 1) <= p < PLAN_RECORD_SIZE * n && Schedules(p) && s[p] != t[p]
    ensures HashPieces(h, PlanPieces(s, n)) != HashPieces(h, PlanPieces(t, n))
  {
    PiecesSame(s, t, n - 1, p);
    RecordNoticed(HashPieces(h, PlanPieces(s, n - 1)), s, t, n - 1, p);
    HashRecordPieces(h, s, n);
    HashRecordPieces(h, t, n);
  }

  lemma {:induction false} PiecesNotice(h: U64, s: seq<Byte>, t: seq<Byte>, n: nat, p: nat)
    requires |s| == |t| && PLAN_RECORD_SIZE * n <= |s| && AgreeBelow(s, t, n, p)
    requires p < PLAN_RECORD_SIZE * n && Schedules(p) && s[p] != t[p]
    ensures HashPieces(h, PlanPieces(s, n)) != HashPieces(h, PlanPieces(t, n))
  {
    if p >= PLAN_RECORD_SIZE * (n - 1) {
      LastRecordNoticed(h, s, t, n, p);
    } else {
      PiecesNotice(h, s, t, n - 1, p);
      RecordSame(s, t, n - 1, p);
      DifferenceCarried(h, s, t, n);
    }
  }

  /** Plan files that differ in exactly one byte outside execution state and sync time have different revisions. */
  lemma OneScheduleByteNoticed(idx: seq<Byte>, s: seq<Byte>, t: seq<Byte>, p: nat)
    requires idx != [] && |s| == |t| == idx[0] * PLAN_RECORD_SIZE && p < |s|
    requires Schedules(p) && s[p] != t[p]
    requires forall k | 0 <= k < |s| && Schedules(k) && k != p :: s[k] == t[k]
    ensures PlansRev(Some(idx), Some(s)) != PlansRev(Some(idx), Some(t))
  {
    AgreesBelow(s, t, idx[0], p);
    PiecesNotice(Hash(OFFSET, [idx[0]]), s, t, idx[0], p);
  }
}
