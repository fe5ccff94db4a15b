/** Cutting a TCP stream into MQTT packets. */
module MqttStream {
  import opened Wrappers
  import opened Bytes
  import opened MqttLength

  const MAX_PACKET_BYTES := 256 * 1024

  /** A packet: its first byte, the length of the body and the body. */
  function BuildPacket(first: Byte, body: seq<Byte>): (p: seq<Byte>)
    ensures p != []
  {
    [first] + Encode(|body|) + body
  }

  datatype Received = Packet(bytes: seq<Byte>) | Closed | Malformed

  /** The first packet of a stream that ends where the connection closes. */
  function FirstPacket(stream: seq<Byte>): Received {
    if stream == [] then Closed
    else
      match Decode(stream[1..], 4)
      case None => Malformed
      case Some((remaining, used)) =>
        if remaining > MAX_PACKET_BYTES || 1 + used + remaining > |stream| then Malformed
        else Packet(stream[..1 + used + remaining])
  }

  lemma {:induction false} DecodeWithin(s: seq<Byte>, left: nat)
    requires Decode(s, left).Some?
    ensures 1 <= Decode(s, left).value.1 <= |s| && Decode(s, left).value.1 <= left
    ensures forall t :: Decode(s[..Decode(s, left).value.1] + t, left) == Decode(s, left)
    decreases left
  {
    var (v, used) := Decode(s, left).value;
    if s[0] < 128 {
      forall t ensures Decode(s[..used] + t, left) == Decode(s, left) {
        assert (s[..used] + t)[0] == s[0];
      }
    } else {
      DecodeWithin(s[1..], left - 1);
      forall t ensures Decode(s[..used] + t, left) == Decode(s, left) {
        assert (s[..used] + t)[1..] == s[1..][..used - 1] + t;
      }
    }
  }

  /** A built packet at the front of a stream is the first packet. */
  lemma BuiltPacketIsFirst(first: Byte, body: seq<Byte>, rest: seq<Byte>)
    requires |body| <= MAX_PACKET_BYTES
    ensures FirstPacket(BuildPacket(first, body) + rest) == Packet(BuildPacket(first, body))
  {
    var p := BuildPacket(first, body);
    Pow128Values();
    EncodeDecode(|body|, body + rest, 4);
    assert (p + rest)[1..] == Encode(|body|) + (body + rest);
    assert (p + rest)[..|p|] == p;
  }

  /** What the parsers check again about a received packet: its length field covers exactly the rest of it. */
  predicate LengthMatches(packet: seq<Byte>) {
    packet != [] &&
    match Decode(packet[1..], 4)
    case None => false
    case Some((remaining, used)) => 1 + used + remaining == |packet|
  }

  lemma ReceivedLengthMatches(stream: seq<Byte>)
    requires FirstPacket(stream).Packet?
    ensures LengthMatches(FirstPacket(stream).bytes)
    ensures FirstPacket(stream).bytes <= stream
  {
    var (remaining, used) := Decode(stream[1..], 4).value;
    var p := FirstPacket(stream).bytes;
    DecodeWithin(stream[1..], 4);
    assert p[1..] == stream[1..][..used] + p[1 + used..];
  }

  // ---------------------------------------------------------------- the whole stream

  function Prepend(packets: seq<seq<Byte>>, tail: Option<seq<seq<Byte>>>): Option<seq<seq<Byte>>> {
    match tail case None => None case Some(ps) => Some(packets + ps)
  }

  /** All packets up to the close, if every one is well formed. */
  function Split(stream: seq<Byte>): Option<seq<seq<Byte>>>
    decreases |stream|
  {
    match FirstPacket(stream)
    case Closed => Some([])
    case Malformed => None
    case Packet(p) =>
      ReceivedLengthMatches(stream);
      Prepend([p], Split(stream[|p|..]))
  }

  datatype Unit = Unit(first: Byte, body: seq<Byte>)

  function Packets(units: seq<Unit>): seq<seq<Byte>> {
    if units == [] then [] else [BuildPacket(units[0].first, units[0].body)] + Packets(units[1..])
  }

  function Concat(packets: seq<seq<Byte>>): seq<Byte> {
    if packets == [] then [] else packets[0] + Concat(packets[1..])
  }

  /** Any built packets, one after the other, come apart into the same packets. */
  lemma {:induction false} SplitConcat(units: seq<Unit>)
    requires forall i | 0 <= i < |units| :: |units[i].body| <= MAX_PACKET_BYTES
    ensures Split(Concat(Packets(units))) == Some(Packets(units))
  {
    if units != [] {
      var u := units[0];
      var p := BuildPacket(u.first, u.body);
      var rest := Concat(Packets(units[1..]));
      assert Packets(units)[1..] == Packets(units[1..]);
      assert Concat(Packets(units)) == p + rest;
      BuiltPacketIsFirst(u.first, u.body, rest);
      SplitConcat(units[1..]);
      assert (p + rest)[|p|..] == rest;
    }
  }

  // ---------------------------------------------------------------- receiving

  /** The bytes that will still arrive, in pieces; an empty piece is the end. */
  function Arriving(pieces: seq<seq<Byte>>): seq<Byte> {
    if pieces == [] || pieces[0] == [] then [] else pieces[0] + Arriving(pieces[1..])
  }

  function Low7(digit: Byte): nat {
    if digit < 128 then digit else digit - 128
  }

  lemma DigitStep(digit: Byte, rest: seq<Byte>, left: nat, value: nat, index: nat)
    requires left > 0
    ensures Combine(value, index, Decode([digit] + rest, left)) ==
      if digit < 128 then Some((value + Weight(Low7(digit), index), index + 1))
      else Combine(value + Weight(Low7(digit), index), index + 1, Decode(rest, left - 1))
  {
    assert ([digit] + rest)[1..] == rest;
    if digit >= 128 {
      CombineStep([digit] + rest, left, value, index);
    }
  }

  class Connection {
    var pieces: seq<seq<Byte>>

    ghost function Stream(): seq<Byte>
      reads this
    {
      Arriving(pieces)
    }

    constructor (pieces: seq<seq<Byte>>)
      ensures Stream() == Arriving(pieces)
    {
      this.pieces := pieces;
    }

    /** `recv`: at most `n` bytes of what has arrived; none at the end. */
    method Recv(n: nat) returns (bytes: seq<Byte>)
      requires n > 0
      modifies this
      ensures |bytes| <= n && old(Stream()) == bytes + Stream()
      ensures bytes == [] <==> old(Stream()) == []
    {
      if pieces == [] || pieces[0] == [] {
        return [];
      }
      var piece := pieces[0];
      if |piece| <= n {
        pieces := pieces[1..];
        return piece;
      }
      bytes := piece[..n];
      ghost var later := pieces[1..];
      pieces := [piece[n..]] + pieces[1..];
      assert pieces[1..] == later && piece == piece[..n] + piece[n..];
    }

    method RecvDigit() returns (got: bool, digit: Byte)
      modifies this
      ensures got ==> old(Stream()) == [digit] + Stream()
      ensures !got ==> old(Stream()) == []
    {
      var current := Recv(1);
      if current == [] {
        return false, 0;
      }
      got, digit := true, current[0];
      assert current == [digit];
    }

    /** The length field, a byte at a time; a number beyond the limit is refused as soon as it shows. */
    method RecvLength() returns (ok: bool, remaining: nat, digits: seq<Byte>)
      modifies this
      ensures ok ==> Decode(old(Stream()), 4) == Some((remaining, |digits|)) && remaining <= MAX_PACKET_BYTES
      ensures ok ==> old(Stream()) == digits + Stream()
      ensures !ok ==> Decode(old(Stream()), 4).None? || Decode(old(Stream()), 4).value.0 > MAX_PACKET_BYTES
    {
      ghost var all := Stream();
      digits, remaining := [], 0;
      for index := 0 to 4
        invariant |digits| == index && all == digits + Stream() && remaining <= MAX_PACKET_BYTES
        invariant Decode(all, 4) == Combine(remaining, index, Decode(Stream(), 4 - index))
      {
        var got, digit := RecvDigit();
        if !got {
          return false, 0, [];
        }
        assert digits + ([digit] + Stream()) == (digits + [digit]) + Stream();
        DigitStep(digit, Stream(), 4 - index, remaining, index);
        digits := digits + [digit];
        remaining := remaining + Weight(Low7(digit), index);
        if remaining > MAX_PACKET_BYTES {
          return false, 0, [];
        }
        if digit < 128 {
          return true, remaining, digits;
        }
      }
      ok := false;
    }

    method RecvBody(remaining: nat) returns (ok: bool, body: seq<Byte>)
      modifies this
      ensures ok <==> remaining <= |old(Stream())|
      ensures ok ==> |body| == remaining && old(Stream()) == body + Stream()
    {
      ghost var all := Stream();
      body := [];
      while |body| < remaining
        invariant |body| <= remaining && all == body + Stream()
      {
        var chunk := Recv(remaining - |body|);
        if chunk == [] {
          return false, [];
        }
        assert body + (chunk + Stream()) == (body + chunk) + Stream();
        body := body + chunk;
      }
      ok := true;
    }

    /** `recv_packet`: whatever the pieces, the first packet of the stream, and no byte more is taken. */
    method RecvPacket() returns (r: Received)
      modifies this
      ensures r == FirstPacket(old(Stream()))
      ensures r.Packet? ==> old(Stream()) == r.bytes + Stream()
    {
      ghost var all := Stream();
      var first := Recv(1);
      if first == [] {
        return Closed;
      }
      assert all[1..] == Stream();
      var ok, remaining, digits := RecvLength();
      if !ok {
        return Malformed;
      }
      assert all == first + digits + Stream();
      var body;
      ok, body := RecvBody(remaining);
      if !ok {
        return Malformed;
      }
      assert all == (first + digits + body) + Stream();
      r := Packet(first + digits + body);
    }
  }

  lemma PrependJoins(a: seq<seq<Byte>>, b: seq<seq<Byte>>, tail: Option<seq<seq<Byte>>>)
    ensures Prepend(a, Prepend(b, tail)) == Prepend(a + b, tail)
    ensures Prepend([], tail) == tail && Prepend(a, Some([])) == Some(a)
  {
    assert a + [] == a;
    match tail
    case None =>
    case Some(ps) => assert a + (b + ps) == (a + b) + ps && [] + ps == ps;
  }

  lemma SplitStep(stream: seq<Byte>, rest: seq<Byte>)
    requires FirstPacket(stream).Packet? && stream == FirstPacket(stream).bytes + rest
    ensures Split(stream) == Prepend([FirstPacket(stream).bytes], Split(rest)) && |rest| < |stream|
  {
    ReceivedLengthMatches(stream);
    assert stream[|FirstPacket(stream).bytes|..] == rest;
  }

  /** Packets until the connection closes, as the broker's loop takes them. */
  method ReceiveAll(connection: Connection) returns (r: Option<seq<seq<Byte>>>)
    modifies connection
    ensures r == Split(old(connection.Stream()))
  {
    ghost var all := connection.Stream();
    var packets: seq<seq<Byte>> := [];
    PrependJoins([], [], Split(all));
    while true
      invariant Split(all) == Prepend(packets, Split(connection.Stream()))
      decreases |connection.Stream()|
    {
      ghost var before := connection.Stream();
      var packet := connection.RecvPacket();
      match packet {
        case Closed =>
          PrependJoins(packets, [], None);
          return Some(packets);
        case Malformed => return None;
        case Packet(p) =>
          SplitStep(before, connection.Stream());
          PrependJoins(packets, [p], Split(connection.Stream()));
          packets := packets + [p];
      }
    }
  }

  /** Built packets sent in any pieces arrive as those packets. */
  method ReceiveBuilt(connection: Connection, ghost units: seq<Unit>) returns (r: Option<seq<seq<Byte>>>)
    requires forall i | 0 <= i < |units| :: |units[i].body| <= MAX_PACKET_BYTES
    requires connection.Stream() == Concat(Packets(units))
    modifies connection
    ensures r == Some(Packets(units))
  {
    SplitConcat(units);
    r := ReceiveAll(connection);
  }
}
