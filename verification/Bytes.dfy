/** Bytes, and unsigned big-endian integers of 16 and 32 bits. */
module Bytes {
  type Byte = b: int | 0 <= b < 256

  function Be16(n: nat): seq<Byte>
    requires n < 0x1_0000
  {
    [n / 0x100, n % 0x100]
  }

  function FromBe16(b: seq<Byte>): nat
    requires |b| == 2
  {
    (b[0] as int) * 0x100 + b[1]
  }

  function Be32(n: nat): seq<Byte>
    requires n < 0x1_0000_0000
  {
    [n / 0x100 / 0x100 / 0x100, n / 0x100 / 0x100 % 0x100, n / 0x100 % 0x100, n % 0x100]
  }

  function FromBe32(b: seq<Byte>): nat
    requires |b| == 4
  {
    (((b[0] as int) * 0x100 + b[1]) * 0x100 + b[2]) * 0x100 + b[3]
  }

  lemma Be16RoundTrip(n: nat)
    requires n < 0x1_0000
    ensures FromBe16(Be16(n)) == n
  {
  }

  lemma Be32RoundTrip(n: nat)
    requires n < 0x1_0000_0000
    ensures FromBe32(Be32(n)) == n
  {
  }

  lemma FromBe32RoundTrip(b: seq<Byte>)
    requires |b| == 4
    ensures FromBe32(b) < 0x1_0000_0000 && Be32(FromBe32(b)) == b
  {
    var h := ((b[0] as int) * 0x100 + b[1]) * 0x100 + b[2];
    assert FromBe32(b) / 0x100 == h && FromBe32(b) % 0x100 == b[3];
  }

  /** Taking `got` off the front of what remains of `all` after `at` bytes. */
  lemma TakeMore(all: seq<Byte>, at: nat, got: seq<Byte>, rest: seq<Byte>)
    requires at <= |all| && all[at..] == got + rest
    ensures at + |got| <= |all| && all[..at] + got == all[..at + |got|] && rest == all[at + |got|..]
  {
    assert all == all[..at] + (got + rest);
  }
}
