/** The signed-update upload: the add-on packs manifest, signature and artifact into one body, and the
    state agent unpacks it while the body arrives in pieces. */
module OtaFrame {
  import opened Wrappers
  import opened Bytes

  const MAGIC: seq<Byte> := [0x50, 0x4c, 0x41, 0x46, 0x4f, 0x54, 0x41, 0x31] // "PLAFOTA1"
  const HEADER_LEN := 20
  const SIG_LEN := 64
  const MAX_MANIFEST_BYTES := 16 * 1024
  const MAX_ARTIFACT_BYTES := 32 * 1024 * 1024
  const MAX_UPDATE_UPLOAD_BYTES := 32 * 1024 * 1024 + 16 * 1024 + 64 + 20

  datatype Parts = Parts(manifest: seq<Byte>, signature: seq<Byte>, artifact: seq<Byte>)

  /** The limits that the agent puts on the three parts. */
  predicate WithinLimits(p: Parts) {
    && 1 <= |p.manifest| <= MAX_MANIFEST_BYTES
    && |p.signature| == SIG_LEN
    && 1 <= |p.artifact| <= MAX_ARTIFACT_BYTES
  }

  // ---------------------------------------------------------------- the add-on's builder

  function Header(m: nat, s: nat, a: nat): (h: seq<Byte>)
    requires m < 0x1_0000_0000 && s < 0x1_0000_0000 && a < 0x1_0000_0000
    ensures |h| == HEADER_LEN
  {
    MAGIC + Be32(m) + Be32(s) + Be32(a)
  }

  function BuildUpdateFrame(p: Parts): Result<seq<Byte>> {
    if |p.signature| != 64 then Refused
    else if |p.manifest| == 0 || |p.artifact| == 0 then Refused
    else if |p.manifest| > 0xFFFF_FFFF || |p.artifact| > 0xFFFF_FFFF then Refused
    else Accepted(Header(|p.manifest|, |p.signature|, |p.artifact|) + p.manifest + p.signature + p.artifact)
  }

  // ---------------------------------------------------------------- what the agent accepts

  /** The three lengths that a header announces, if the header is acceptable. */
  function ReadHeader(h: seq<Byte>): Option<(nat, nat, nat)>
    requires |h| == HEADER_LEN
  {
    var m, s, a := FromBe32(h[8..12]), FromBe32(h[12..16]), FromBe32(h[16..20]);
    if h[..8] != MAGIC || m == 0 || m > MAX_MANIFEST_BYTES || s != SIG_LEN || a == 0 || a > MAX_ARTIFACT_BYTES
    then None else Some((m, s, a))
  }

  function ParseFrame(body: seq<Byte>): Option<Parts> {
    if |body| < HEADER_LEN + SIG_LEN then None
    else
      match ReadHeader(body[..HEADER_LEN])
      case None => None
      case Some((m, s, a)) =>
        if HEADER_LEN + m + s + a != |body| then None
        else
          var rest := body[HEADER_LEN..];
          Some(Parts(rest[..m], rest[m..m + s], rest[m + s..]))
  }

  lemma HeaderRoundTrip(m: nat, s: nat, a: nat)
    requires 1 <= m <= MAX_MANIFEST_BYTES && s == SIG_LEN && 1 <= a <= MAX_ARTIFACT_BYTES
    ensures ReadHeader(Header(m, s, a)) == Some((m, s, a))
  {
    var h := Header(m, s, a);
    assert h[..8] == MAGIC && h[8..12] == Be32(m) && h[12..16] == Be32(s) && h[16..20] == Be32(a);
    Be32RoundTrip(m);
    Be32RoundTrip(s);
    Be32RoundTrip(a);
  }

  lemma HeaderOnto(h: seq<Byte>)
    requires |h| == HEADER_LEN && ReadHeader(h).Some?
    ensures var (m, s, a) := ReadHeader(h).value;
      && 1 <= m <= MAX_MANIFEST_BYTES && s == SIG_LEN && 1 <= a <= MAX_ARTIFACT_BYTES
      && h == Header(m, s, a)
  {
    FromBe32RoundTrip(h[8..12]);
    FromBe32RoundTrip(h[12..16]);
    FromBe32RoundTrip(h[16..20]);
    assert h == h[..8] + h[8..12] + h[12..16] + h[16..20];
  }

  lemma {:induction false} Drop4(h: seq<Byte>, m: seq<Byte>, s: seq<Byte>, a: seq<Byte>)
    ensures (h + m + s + a)[..|h|] == h
    ensures (h + m + s + a)[|h|..] == m + s + a
    ensures (m + s + a)[..|m|] == m && (m + s + a)[|m|..|m| + |s|] == s && (m + s + a)[|m| + |s|..] == a
  {
    assert h + m + s + a == h + (m + s + a);
  }

  /** Within the limits, the builder succeeds and the agent's reading gives the parts back. */
  lemma FrameRoundTrip(p: Parts)
    requires WithinLimits(p)
    ensures BuildUpdateFrame(p).Accepted?
    ensures ParseFrame(BuildUpdateFrame(p).value) == Some(p)
  {
    var h := Header(|p.manifest|, |p.signature|, |p.artifact|);
    HeaderRoundTrip(|p.manifest|, |p.signature|, |p.artifact|);
    Drop4(h, p.manifest, p.signature, p.artifact);
  }

  /** Every body that the agent accepts is the builder's image of the parts it reads. */
  lemma FrameOnto(body: seq<Byte>)
    requires ParseFrame(body).Some?
    ensures WithinLimits(ParseFrame(body).value)
    ensures BuildUpdateFrame(ParseFrame(body).value) == Accepted(body)
  {
    var h, rest := body[..HEADER_LEN], body[HEADER_LEN..];
    HeaderOnto(h);
    var (m, s, a) := ReadHeader(h).value;
    assert body == h + rest[..m] + rest[m..m + s] + rest[m + s..];
  }

  function Zeros(n: nat): seq<Byte> {
    seq(n, _ => 0)
  }

  /** The client's size limit is the size of the largest body the agent accepts. */
  lemma UploadLimitIsExact(body: seq<Byte>)
    ensures ParseFrame(body).Some? ==> |body| <= MAX_UPDATE_UPLOAD_BYTES
    ensures exists b :: ParseFrame(b).Some? && |b| == MAX_UPDATE_UPLOAD_BYTES
  {
    if ParseFrame(body).Some? {
      FrameOnto(body);
    }
    var p := Parts(Zeros(MAX_MANIFEST_BYTES), Zeros(SIG_LEN), Zeros(MAX_ARTIFACT_BYTES));
    FrameRoundTrip(p);
  }

  // ---------------------------------------------------------------- the arriving body

  /** What a `read` of the connection finds next. */
  datatype Chunk = Data(bytes: seq<Byte>) | Interrupted | Failed

  /** The bytes the connection still delivers: everything before it fails or ends. */
  function Delivered(socket: seq<Chunk>): seq<Byte> {
    if socket == [] || socket[0].Failed? || socket[0] == Data([]) then []
    else (if socket[0].Data? then socket[0].bytes else []) + Delivered(socket[1..])
  }

  class BodyReader {
    const prefetched: seq<Byte>
    var prefetchedOff: nat
    var socket: seq<Chunk>
    var contentRemaining: nat

    ghost predicate Valid()
      reads this
    {
      prefetchedOff <= |prefetched|
    }

    /** The bytes not yet handed out. */
    ghost function Available(): seq<Byte>
      reads this
      requires Valid()
    {
      prefetched[prefetchedOff..] + Delivered(socket)
    }

    constructor (prefetched: seq<Byte>, socket: seq<Chunk>, contentLength: nat)
      ensures Valid() && Available() == prefetched + Delivered(socket) && contentRemaining == contentLength
    {
      this.prefetched, prefetchedOff, this.socket := prefetched, 0, socket;
      contentRemaining := contentLength;
    }

    /** One `read` of at most `want` bytes; none means the connection failed or ended. */
    method ReadSocket(want: nat) returns (got: seq<Byte>, again: bool)
      requires Valid() && want > 0
      modifies `socket
      ensures got != [] || again || Delivered(old(socket)) == []
      ensures |got| <= want && Delivered(old(socket)) == got + Delivered(socket)
      ensures again ==> got == [] && |socket| < |old(socket)|
    {
      if socket == [] || socket[0].Failed? || socket[0] == Data([]) {
        return [], false;
      }
      if socket[0].Interrupted? {
        socket := socket[1..];
        return [], true;
      }
      var bytes := socket[0].bytes;
      if |bytes| <= want {
        socket := socket[1..];
        return bytes, false;
      }
      got, again := bytes[..want], false;
      ghost var rest := socket[1..];
      socket := [Data(bytes[want..])] + socket[1..];
      assert socket[1..] == rest;
      assert bytes == bytes[..want] + bytes[want..];
    }

    /** One step of the loop in `body_read_exact`: prefetched bytes first, then the connection. */
    method Next(want: nat) returns (got: seq<Byte>, again: bool)
      requires Valid() && want > 0
      modifies `prefetchedOff, `socket
      ensures Valid()
      ensures got != [] || again || old(Available()) == []
      ensures |got| <= want && old(Available()) == got + Available()
      ensures again ==> got == [] && |socket| < |old(socket)|
    {
      if prefetchedOff < |prefetched| {
        var avail := |prefetched| - prefetchedOff;
        var take := if want < avail then want else avail;
        got, again := prefetched[prefetchedOff..prefetchedOff + take], false;
        prefetchedOff := prefetchedOff + take;
        assert prefetched[old(prefetchedOff)..] == got + prefetched[prefetchedOff..];
        return;
      }
      got, again := ReadSocket(want);
    }

    /** Exactly `len` bytes from the prefetched part and then the connection, or failure. */
    method ReadExact(len: nat) returns (ok: bool, dst: seq<Byte>)
      requires Valid()
      modifies this
      ensures Valid()
      ensures ok <==> len <= old(contentRemaining) && len <= |old(Available())|
      ensures ok ==> dst == old(Available())[..len] && Available() == old(Available())[len..]
      ensures ok ==> contentRemaining == old(contentRemaining) - len
    {
      if len > contentRemaining {
        return false, [];
      }
      ghost var all := Available();
      dst := [];
      while |dst| < len
        invariant Valid() && |dst| <= len
        invariant |dst| <= |all| && dst == all[..|dst|] && Available() == all[|dst|..]
        invariant contentRemaining == old(contentRemaining) - |dst|
        decreases len - |dst|, |socket|
      {
        var got, again := Next(len - |dst|);
        if got == [] && !again {
          return false, [];
        }
        TakeMore(all, |dst|, got, Available());
        dst := dst + got;
        contentRemaining := contentRemaining - |got|;
      }
      ok := true;
    }
  }

  // ---------------------------------------------------------------- the upload handler

  datatype Reception = Received(parts: Parts, remaining: nat) | Rejected(status: nat)

  /** The artifact is copied out in pieces of at most 8 KiB. */
  method ReadArtifact(reader: BodyReader, len: nat) returns (ok: bool, artifact: seq<Byte>)
    requires reader.Valid() && len <= reader.contentRemaining
    modifies reader
    ensures reader.Valid()
    ensures ok <==> len <= |old(reader.Available())|
    ensures ok ==> artifact == old(reader.Available())[..len]
    ensures ok ==> reader.contentRemaining == old(reader.contentRemaining) - len
  {
    ghost var all := reader.Available();
    artifact := [];
    var left := len;
    while left > 0
      invariant reader.Valid() && 0 <= left <= len && left <= reader.contentRemaining
      invariant len - left <= |all| && artifact == all[..len - left] && reader.Available() == all[len - left..]
      invariant reader.contentRemaining == old(reader.contentRemaining) - (len - left)
    {
      var chunk := if left < 8192 then left else 8192;
      var got, bytes := reader.ReadExact(chunk);
      if !got {
        return false, [];
      }
      TakeMore(all, len - left, bytes, reader.Available());
      artifact := artifact + bytes;
      left := left - chunk;
    }
    ok := true;
  }

  /** Manifest, signature and artifact after a header that announced `m`, `s` and `a` bytes. */
  method ReadParts(reader: BodyReader, m: nat, s: nat, a: nat) returns (r: Reception)
    requires reader.Valid() && reader.contentRemaining == m + s + a
    modifies reader
    ensures r.Received? <==> m + s + a <= |old(reader.Available())|
    ensures r.Rejected? ==> r.status == 400
    ensures r.Received? ==>
      var rest := old(reader.Available())[..m + s + a];
      r == Received(Parts(rest[..m], rest[m..m + s], rest[m + s..]), 0)
  {
    ghost var all := reader.Available();
    var ok, manifest := reader.ReadExact(m);
    if !ok {
      return Rejected(400);
    }
    var signature;
    ok, signature := reader.ReadExact(s);
    if !ok {
      return Rejected(400);
    }
    var artifact;
    ok, artifact := ReadArtifact(reader, a);
    if !ok {
      return Rejected(400);
    }
    ghost var rest := all[..m + s + a];
    assert rest[..m] == all[..m] && rest[m..m + s] == all[m..][..s] && rest[m + s..] == all[m..][s..][..a];
    // The handler refuses trailing data here; there never is any.
    assert reader.contentRemaining == 0;
    r := Received(Parts(manifest, signature, artifact), reader.contentRemaining);
  }

  /** The status that refuses a header, checked in the agent's order. */
  function HeaderStatus(h: seq<Byte>): nat
    requires |h| == HEADER_LEN
  {
    var m, s, a := FromBe32(h[8..12]), FromBe32(h[12..16]), FromBe32(h[16..20]);
    if h[..8] != MAGIC || m == 0 then 400
    else if m > MAX_MANIFEST_BYTES then 413
    else if s != SIG_LEN then 400
    else if a == 0 || a > MAX_ARTIFACT_BYTES then 413
    else 202
  }

  /** Receiving a body of `contentLength` bytes, some of them read along with the request's headers: the
      upload is taken exactly when the announced bytes arrive and form a frame, and nothing is left over. */
  method ReceiveUpdate(prefetched: seq<Byte>, socket: seq<Chunk>, contentLength: nat) returns (r: Reception)
    ensures var all := prefetched + Delivered(socket);
      && (r.Received? <==> |prefetched| <= contentLength <= |all| && ParseFrame(all[..contentLength]).Some?)
      && (r.Received? ==> ParseFrame(all[..contentLength]) == Some(r.parts) && r.remaining == 0)
      && (r.Rejected? ==>
            r.status == if HEADER_LEN + SIG_LEN <= contentLength && |prefetched| <= contentLength &&
                           HEADER_LEN <= |all| && HeaderStatus(all[..HEADER_LEN]) == 413 then 413 else 400)
  {
    if contentLength < HEADER_LEN + SIG_LEN || |prefetched| > contentLength {
      return Rejected(400);
    }
    var reader := new BodyReader(prefetched, socket, contentLength);
    ghost var all := reader.Available();
    var ok, header := reader.ReadExact(HEADER_LEN);
    if !ok {
      return Rejected(400);
    }
    assert contentLength <= |all| ==> all[..contentLength][..HEADER_LEN] == header;
    if HeaderStatus(header) != 202 {
      return Rejected(HeaderStatus(header));
    }
    var m, s, a := FromBe32(header[8..12]), FromBe32(header[12..16]), FromBe32(header[16..20]);
    if HEADER_LEN + m + s + a != contentLength {
      return Rejected(400);
    }
    assert contentLength <= |all| ==> all[..contentLength][HEADER_LEN..] == all[HEADER_LEN..][..m + s + a];
    r := ReadParts(reader, m, s, a);
  }

  /** End to end: a built frame, cut anywhere between prefetched bytes and the connection, and delivered in
      any pieces, arrives as the parts it was built from with nothing remaining. */
  method ReceiveBuilt(p: Parts, prefetched: seq<Byte>, socket: seq<Chunk>) returns (r: Reception)
    requires WithinLimits(p)
    requires prefetched + Delivered(socket) == BuildUpdateFrame(p).value
    ensures r == Received(p, 0)
  {
    FrameRoundTrip(p);
    ghost var all := prefetched + Delivered(socket);
    assert all[..|all|] == all;
    var length := HEADER_LEN + |p.manifest| + |p.signature| + |p.artifact|;
    r := ReceiveUpdate(prefetched, socket, length);
  }
}
