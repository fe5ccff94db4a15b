/** The circular buffer that keeps the latest part of go2rtc's log. */
module LogBuffer {
  import opened Bytes

  const CHUNK_COUNT := 16
  const CHUNK_SIZE := 0x1_0000

  type Write = seq<Byte>

  // ---------------------------------------------------------------- what the buffer remembers

  /** The chunks in reading order, each with the writes it holds, and the number of writes given up. */
  datatype Log = Log(live: seq<seq<Write>>, dropped: nat)

  function Joined(ws: seq<Write>): seq<Byte> {
    if ws == [] then [] else Joined(ws[..|ws| - 1]) + ws[|ws| - 1]
  }

  /** The writes of all chunks, in order. */
  function Writes(live: seq<seq<Write>>): seq<Write> {
    if live == [] then [] else Writes(live[..|live| - 1]) + live[|live| - 1]
  }

  /** The bytes of all chunks, in order. */
  function Contents(live: seq<seq<Write>>): seq<Byte> {
    if live == [] then [] else Contents(live[..|live| - 1]) + Joined(live[|live| - 1])
  }

  const EMPTY := Log([[]], 0)

  /** A write goes to the last chunk if it fits, else to a new one; the seventeenth chunk pushes out the oldest. */
  function Append(log: Log, p: Write): Log
    requires log.live != []
  {
    var n := |log.live| - 1;
    if |Joined(log.live[n])| + |p| <= CHUNK_SIZE then log.(live := log.live[..n] + [log.live[n] + [p]])
    else if |log.live| < CHUNK_COUNT then log.(live := log.live + [[p]])
    else Log(log.live[1..] + [[p]], log.dropped + |log.live[0]|)
  }

  // ---------------------------------------------------------------- over whole runs

  datatype Operation = Written(p: Write) | Reset

  /** The buffer after these operations. */
  function After(ops: seq<Operation>): (log: Log)
    ensures log.live != []
  {
    if ops == [] then EMPTY
    else
      var before := After(ops[..|ops| - 1]);
      match ops[|ops| - 1]
      case Written(p) => Append(before, p)
      case Reset => EMPTY
  }

  /** Everything written since the last reset. */
  function SinceReset(ops: seq<Operation>): seq<Write> {
    if ops == [] then []
    else
      match ops[|ops| - 1]
      case Written(p) => SinceReset(ops[..|ops| - 1]) + [p]
      case Reset => []
  }

  lemma {:induction false} WritesSplit(a: seq<seq<Write>>, b: seq<seq<Write>>)
    ensures Writes(a + b) == Writes(a) + Writes(b)
  {
    if b == [] {
      assert a + b == a;
    } else {
      var n := |b| - 1;
      assert (a + b)[..|a + b| - 1] == a + b[..n];
      WritesSplit(a, b[..n]);
    }
  }

  /** The writes that an append pushes out. */
  function PushedOut(log: Log, p: Write): seq<Write>
    requires log.live != []
  {
    if |Joined(log.live[|log.live| - 1])| + |p| <= CHUNK_SIZE || |log.live| < CHUNK_COUNT then [] else log.live[0]
  }

  lemma AppendLoses(log: Log, p: Write)
    requires log.live != []
    ensures Append(log, p).dropped == log.dropped + |PushedOut(log, p)|
    ensures Writes(log.live) + [p] == PushedOut(log, p) + Writes(Append(log, p).live)
  {
    var n := |log.live| - 1;
    var last := log.live[n];
    if |Joined(last)| + |p| <= CHUNK_SIZE {
      var live := log.live[..n] + [last + [p]];
      assert live[..n] == log.live[..n];
      assert Writes(log.live[..n]) + last + [p] == Writes(log.live[..n]) + (last + [p]);
    } else {
      var longer := log.live + [[p]];
      assert longer[..|log.live|] == log.live;
      if |log.live| >= CHUNK_COUNT {
        var first: seq<seq<Write>> := [log.live[0]];
        assert longer == first + (log.live[1..] + [[p]]);
        WritesSplit(first, log.live[1..] + [[p]]);
        assert first[..0] == [] && [] + log.live[0] == log.live[0];
      }
    }
  }

  /** Neighbouring chunks hold more than one chunk's worth between them. */
  predicate Paired(live: seq<seq<Write>>) {
    forall j | 0 <= j < |live| - 1 :: |Joined(live[j])| + |Joined(live[j + 1])| > CHUNK_SIZE
  }

  lemma JoinedSnoc(ws: seq<Write>, p: Write)
    ensures Joined(ws + [p]) == Joined(ws) + p
  {
    assert (ws + [p])[..|ws|] == ws;
  }

  lemma AppendStaysPaired(log: Log, p: Write)
    requires log.live != [] && Paired(log.live)
    ensures Paired(Append(log, p).live)
  {
    var n := |log.live| - 1;
    var live := Append(log, p).live;
    JoinedSnoc(log.live[n], p);
    JoinedSnoc([], p);
    assert [] + [p] == [p];
    if |Joined(log.live[n])| + |p| > CHUNK_SIZE && |log.live| >= CHUNK_COUNT {
      forall j | 0 <= j < |live| - 1 ensures |Joined(live[j])| + |Joined(live[j + 1])| > CHUNK_SIZE {
        assert live[j] == log.live[j + 1];
        if j + 1 < |live| - 1 {
          assert live[j + 1] == log.live[j + 2];
        }
      }
    }
  }

  /** What holds after every run: the buffer has the latest writes since the reset, it has given up writes only
      when all sixteen chunks were in use, and neighbouring chunks are well filled. */
  predicate Faithful(log: Log, ws: seq<Write>) {
    && 1 <= |log.live| <= CHUNK_COUNT && Paired(log.live)
    && log.dropped <= |ws| && Writes(log.live) == ws[log.dropped..]
    && (log.dropped > 0 ==> |log.live| == CHUNK_COUNT)
  }

  lemma AppendIsFaithful(log: Log, ws: seq<Write>, p: Write)
    requires Faithful(log, ws)
    ensures Faithful(Append(log, p), ws + [p])
  {
    AppendLoses(log, p);
    AppendStaysPaired(log, p);
    var lost := PushedOut(log, p);
    var all := ws + [p];
    assert all[log.dropped..] == lost + Writes(Append(log, p).live);
    assert all[log.dropped + |lost|..] == all[log.dropped..][|lost|..];
  }

  lemma {:induction false} RunIsFaithful(ops: seq<Operation>)
    ensures Faithful(After(ops), SinceReset(ops))
  {
    if ops != [] && ops[|ops| - 1].Written? {
      RunIsFaithful(ops[..|ops| - 1]);
      AppendIsFaithful(After(ops[..|ops| - 1]), SinceReset(ops[..|ops| - 1]), ops[|ops| - 1].p);
    } else {
      var one: seq<seq<Write>> := [[]];
      assert one[..0] == [] && Writes(one) == [];
    }
  }

  lemma {:induction false} JoinedSplit(a: seq<Write>, b: seq<Write>)
    ensures Joined(a + b) == Joined(a) + Joined(b)
  {
    if b == [] {
      assert a + b == a;
    } else {
      var n := |b| - 1;
      assert (a + b)[..|a + b| - 1] == a + b[..n];
      JoinedSplit(a, b[..n]);
    }
  }

  lemma {:induction false} ContentsAreWrites(live: seq<seq<Write>>)
    ensures Contents(live) == Joined(Writes(live))
  {
    if live != [] {
      var n := |live| - 1;
      ContentsAreWrites(live[..n]);
      JoinedSplit(Writes(live[..n]), live[n]);
    }
  }

  lemma {:induction false} PairsAreBig(live: seq<seq<Write>>, k: nat)
    requires |live| == 2 * k && Paired(live)
    ensures |Contents(live)| >= k * (CHUNK_SIZE + 1)
  {
    if k > 0 {
      var n := |live| - 2;
      PairsAreBig(live[..n], k - 1);
      assert live[..n + 1][..n] == live[..n];
      assert |Joined(live[n])| + |Joined(live[n + 1])| > CHUNK_SIZE;
    }
  }

  /** After any writes and resets, the output is a suffix, cut between writes, of what was written since the last
      reset; nothing is missing unless sixteen chunks are in use, and then more than 8 x 65536 bytes are there. */
  lemma OutputIsRecentSuffix(ops: seq<Operation>)
    ensures var log, ws := After(ops), SinceReset(ops);
      && log.dropped <= |ws| && Contents(log.live) == Joined(ws[log.dropped..])
      && (|log.live| < CHUNK_COUNT ==> log.dropped == 0)
      && (log.dropped > 0 ==> |Contents(log.live)| > 8 * CHUNK_SIZE)
  {
    RunIsFaithful(ops);
    ContentsAreWrites(After(ops).live);
    if After(ops).dropped > 0 {
      PairsAreBig(After(ops).live, 8);
    }
  }

  // ---------------------------------------------------------------- the buffer

  /** The chunk `j` places after chunk `r`, around the ring. */
  function Around(r: nat, j: nat): nat {
    if r + j < CHUNK_COUNT then r + j else r + j - CHUNK_COUNT
  }

  class CircularBuffer {
    var chunks: seq<seq<Byte>>
    var r: nat
    var w: nat
    ghost var log: Log

    ghost predicate Shape()
      reads this
    {
      && 1 <= |chunks| <= CHUNK_COUNT && r < |chunks| && w < |chunks|
      && (w < r ==> |chunks| == CHUNK_COUNT)
      && |log.live| == (if r <= w then w - r + 1 else w + CHUNK_COUNT - r + 1)
    }

    ghost predicate Valid()
      reads this
    {
      Shape() && forall j | 0 <= j < |log.live| :: chunks[Around(r, j)] == Joined(log.live[j])
    }

    constructor ()
      ensures Valid() && log == EMPTY
    {
      chunks, r, w := [[]], 0, 0;
      log := EMPTY;
    }

    /** Moving on to the next chunk, which takes over the oldest when the ring is full. */
    method Advance()
      requires Valid()
      modifies this
      ensures Shape() && w < |chunks| && chunks[w] == []
      ensures log == Log((if |old(log).live| < CHUNK_COUNT then old(log).live else old(log).live[1..]) + [[]],
                         old(log).dropped + if |old(log).live| < CHUNK_COUNT then 0 else |old(log).live[0]|)
      ensures Valid()
    {
      log := Log((if |log.live| < CHUNK_COUNT then log.live else log.live[1..]) + [[]],
                 log.dropped + if |log.live| < CHUNK_COUNT then 0 else |log.live[0]|);
      w := w + 1;
      if w == CHUNK_COUNT {
        w := 0;
      }
      if r == w {
        r := r + 1;
        if r == CHUNK_COUNT {
          r := 0;
        }
      }
      if w == |chunks| {
        chunks := chunks + [[]];
      } else {
        chunks := chunks[w := []];
      }
    }

    /** Adding to the current chunk. */
    method AppendToChunk(p: Write)
      requires Valid()
      modifies this
      ensures Valid()
      ensures var n := |old(log).live| - 1;
        log == old(log).(live := old(log).live[..n] + [old(log).live[n] + [p]])
    {
      ghost var n := |log.live| - 1;
      JoinedSnoc(log.live[n], p);
      assert Around(r, n) == w;
      chunks := chunks[w := chunks[w] + p];
      log := log.(live := log.live[..n] + [log.live[n] + [p]]);
      assert forall j | 0 <= j < n :: Around(r, j) != w && log.live[j] == old(log).live[j];
    }

    method Write(p: Write) returns (n: nat)
      requires Valid()
      modifies this
      ensures Valid() && n == |p| && log == Append(old(log), p)
    {
      n := |p|;
      ghost var last := |log.live| - 1;
      assert Around(r, last) == w && chunks[w] == Joined(log.live[last]);
      if |chunks[w]| + n > CHUNK_SIZE {
        Advance();
        ghost var live := log.live;
        assert live[|live| - 1] == [] && live[|live| - 1] + [p] == [p];
      }
      AppendToChunk(p);
    }

    /** The bytes handed to the writer. */
    method WriteTo() returns (buf: seq<Byte>)
      requires Valid()
      ensures buf == Contents(log.live)
    {
      buf := [];
      var i := r;
      ghost var j := 0;
      while true
        invariant 0 <= j < |log.live| && i == Around(r, j)
        invariant buf == Contents(log.live[..j])
        decreases |log.live| - j
      {
        assert log.live[..j + 1][..j] == log.live[..j];
        buf := buf + chunks[i];
        if i == w {
          assert log.live[..j + 1] == log.live;
          break;
        }
        i := i + 1;
        if i == CHUNK_COUNT {
          i := 0;
        }
        j := j + 1;
      }
    }

    method Reset()
      requires Valid()
      modifies this
      ensures Valid() && log == EMPTY
    {
      chunks := chunks[0 := []];
      r, w := 0, 0;
      log := EMPTY;
    }
  }

  /** Any writes and resets, and then the output. */
  method Run(ops: seq<Operation>) returns (buf: seq<Byte>)
    ensures buf == Contents(After(ops).live)
  {
    var b := new CircularBuffer();
    for i := 0 to |ops|
      invariant b.Valid() && fresh(b) && b.log == After(ops[..i])
    {
      assert ops[..i + 1][..i] == ops[..i];
      match ops[i] {
        case Written(p) => var _ := b.Write(p);
        case Reset => b.Reset();
      }
    }
    assert ops[..|ops|] == ops;
    buf := b.WriteTo();
  }
}
