/** The remaining-length field of MQTT packets (section 2.2.3 of MQTT 3.1.1). */
module MqttLength {
  import opened Wrappers
  import opened Bytes

  const MAX_LENGTH := 268_435_455

  /** Seven bits to a byte, lowest first; the top bit says that more follow. */
  function Encode(n: nat): (s: seq<Byte>)
    ensures s != []
  {
    if n < 128 then [n] else [n % 128 + 128] + Encode(n / 128)
  }

  /** The number at the start of `s` in at most `left` bytes, and how many bytes it takes. */
  function Decode(s: seq<Byte>, left: nat): Option<(nat, nat)> {
    if left == 0 || s == [] then None
    else if s[0] < 128 then Some((s[0], 1))
    else
      match Decode(s[1..], left - 1)
      case None => None
      case Some((v, used)) => Some((s[0] - 128 + 128 * v, used + 1))
  }

  /** Continuation bytes and a last byte that is needed. */
  predicate Shortest(s: seq<Byte>) {
    s != [] && (if |s| == 1 then s[0] < 128 else s[0] >= 128 && s[1..] != [0] && Shortest(s[1..]))
  }

  function Pow128(k: nat): nat {
    if k == 0 then 1 else 128 * Pow128(k - 1)
  }

  lemma {:induction false} EncodeDecode(n: nat, rest: seq<Byte>, left: nat)
    requires 1 <= left && n < Pow128(left)
    ensures Decode(Encode(n) + rest, left) == Some((n, |Encode(n)|))
    ensures |Encode(n)| <= left && Shortest(Encode(n))
    ensures Encode(n) == [0] <==> n == 0
    decreases left
  {
    if n >= 128 {
      EncodeDecode(n / 128, rest, left - 1);
      assert Encode(n)[1..] == Encode(n / 128);
      assert (Encode(n) + rest)[1..] == Encode(n / 128) + rest;
    }
  }

  lemma {:induction false} DecodeEncode(s: seq<Byte>, left: nat)
    requires Shortest(s) && |s| <= left
    ensures Decode(s, left).Some?
    ensures var (n, used) := Decode(s, left).value;
      used == |s| && n < Pow128(|s|) && Encode(n) == s && (n == 0 <==> s == [0])
    decreases |s|
  {
    if |s| > 1 {
      DecodeEncode(s[1..], left - 1);
      var (v, used) := Decode(s[1..], left - 1).value;
      var n := s[0] - 128 + 128 * v;
      assert n / 128 == v && n % 128 == s[0] - 128;
      assert s == [s[0]] + s[1..];
    }
  }

  lemma Pow128Values()
    ensures Pow128(1) == 128 && Pow128(2) == 16_384 && Pow128(3) == 2_097_152 && Pow128(4) == MAX_LENGTH + 1
  {
  }

  /** The codec is a bijection between 0..268435455 and the shortest forms of at most four bytes. */
  lemma LengthCodecIsBijection(n: nat, s: seq<Byte>)
    ensures n <= MAX_LENGTH ==>
      Shortest(Encode(n)) && |Encode(n)| <= 4 && Decode(Encode(n), 4) == Some((n, |Encode(n)|))
    ensures Shortest(s) && |s| <= 4 ==>
      Decode(s, 4).Some? && Decode(s, 4).value.0 <= MAX_LENGTH && Encode(Decode(s, 4).value.0) == s
  {
    Pow128Values();
    if n <= MAX_LENGTH {
      EncodeDecode(n, [], 4);
      assert Encode(n) + [] == Encode(n);
    }
    if Shortest(s) && |s| <= 4 {
      DecodeEncode(s, 4);
      PowGrows(|s|);
    }
  }

  lemma PowGrows(k: nat)
    requires k <= 4
    ensures Pow128(k) <= Pow128(4)
  {
    Pow128Values();
    assert k == 0 || k == 1 || k == 2 || k == 3 || k == 4;
  }

  // ---------------------------------------------------------------- the loops

  method EncodeRemainingLength(length: int) returns (r: Result<seq<Byte>>)
    ensures r.Accepted? <==> 0 <= length <= MAX_LENGTH
    ensures r.Accepted? ==> r.value == Encode(length)
  {
    if !(0 <= length <= MAX_LENGTH) {
      return Refused;
    }
    var encoded, left := [], length;
    while true
      invariant 0 <= left && encoded + Encode(left) == Encode(length)
      decreases left
    {
      var digit := left % 128;
      var more := left / 128;
      if more > 0 {
        digit := digit + 128;
      }
      assert Encode(left) == [digit] + (if more > 0 then Encode(more) else []);
      encoded := encoded + [digit];
      left := more;
      if left == 0 {
        return Accepted(encoded);
      }
    }
  }

  /** A digit times the multiplier that the loop has reached after `index` bytes, which is 128 to the `index`. */
  function Weight(digit: nat, index: nat): nat {
    if index == 0 then digit else 128 * Weight(digit, index - 1)
  }

  lemma {:induction false} WeightSplits(digit: nat, v: nat, index: nat)
    ensures Weight(digit + 128 * v, index) == Weight(digit, index) + Weight(v, index + 1)
  {
    if index > 0 {
      WeightSplits(digit, v, index - 1);
    }
  }

  /** A number whose first `index` bytes are already in `value`. */
  function Combine(value: nat, index: nat, tail: Option<(nat, nat)>): Option<(nat, nat)> {
    match tail case None => None case Some((v, used)) => Some((value + Weight(v, index), index + used))
  }

  lemma CombineStep(t: seq<Byte>, left: nat, value: nat, index: nat)
    requires t != [] && left > 0 && t[0] >= 128
    ensures Combine(value, index, Decode(t, left))
         == Combine(value + Weight(t[0] - 128, index), index + 1, Decode(t[1..], left - 1))
  {
    match Decode(t[1..], left - 1)
    case None =>
    case Some((v, used)) => WeightSplits(t[0] - 128, v, index);
  }

  /** The number at `offset` and the offset behind it. */
  method DecodeRemainingLength(data: seq<Byte>, offset: nat) returns (r: Result<(nat, nat)>)
    requires offset <= |data|
    ensures match Decode(data[offset..], 4)
      case None => r.Refused?
      case Some((v, used)) => r == Accepted((v, offset + used))
  {
    var value: nat := 0;
    for index := 0 to 4
      invariant offset + index <= |data|
      invariant Decode(data[offset..], 4) == Combine(value, index, Decode(data[offset + index..], 4 - index))
    {
      if offset + index >= |data| {
        return Refused;
      }
      var digit := data[offset + index];
      assert data[offset + index..][1..] == data[offset + index + 1..];
      if digit < 128 {
        return Accepted((value + Weight(digit, index), offset + index + 1));
      }
      CombineStep(data[offset + index..], 4 - index, value, index);
      value := value + Weight(digit - 128, index);
    }
    r := Refused;
  }
}
