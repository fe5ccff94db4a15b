/** Staging an uploaded agent: the order of file operations by which `pending.json` never stands without the
    complete candidate it describes, whatever fails and whenever the power goes. */
module Staging {
  import opened Wrappers
  import opened Bytes
  import opened Disk
  import opened OtaFrame
  import UpdateFs

  /** What `pending.json` records of the candidate. */
  datatype Meta = Meta(version: string, sha256: string, size: nat)

  /** Hashing, the text of the record, and which status texts mean that a transaction is under way. */
  datatype Codec = Codec(sha: seq<Byte> -> string, encode: Meta -> seq<Byte>, blocks: seq<Byte> -> bool)

  predicate CandidateElf(data: seq<Byte>) {
    && 52 <= |data|
    && data[..4] == [0x7f, 0x45, 0x4c, 0x46] && data[4] == 1 && data[5] == 1
    && (data[16] as int) + 256 * (data[17] as int) == 2 && (data[18] as int) + 256 * (data[19] as int) == 40
  }

  /** A complete candidate with the recorded size and hash. */
  predicate Describes(c: Codec, m: Meta, f: File) {
    f.synced && |f.data| == m.size && c.sha(f.data) == m.sha256 && CandidateElf(f.data)
  }

  /** A present `pending.json` is complete and describes the candidate that is there. */
  ghost predicate Safe(c: Codec, d: Dir) {
    Pending in d ==>
      Candidate in d && exists m :: d[Pending] == File(c.encode(m), true) && Describes(c, m, d[Candidate])
  }

  /** While `pending.json` stands, neither it nor the candidate changes. */
  predicate Fixed(d: Dir, d': Dir) {
    Pending in d && Pending in d' ==>
      d[Pending] == d'[Pending] && Candidate in d && Get(d', Candidate) == Some(d[Candidate])
  }

  /** Every state passed through is safe, and every step between two of them keeps what is pending. */
  ghost predicate Good(c: Codec, passed: seq<Dir>) {
    passed != [] ==>
      var n := |passed| - 1;
      Safe(c, passed[n]) && (n > 0 ==> Fixed(passed[n - 1], passed[n])) && Good(c, passed[..n])
  }

  lemma GoodStep(c: Codec, passed: seq<Dir>, d: Dir)
    requires passed != [] && Good(c, passed) && Safe(c, d) && Fixed(passed[|passed| - 1], d)
    ensures Good(c, passed + [d])
  {
    assert (passed + [d])[..|passed|] == passed;
  }

  lemma {:induction false} GoodAt(c: Codec, passed: seq<Dir>, k: nat)
    requires Good(c, passed) && k < |passed|
    ensures Safe(c, passed[k])
    ensures k + 1 < |passed| ==> Fixed(passed[k], passed[k + 1])
  {
    if k + 2 < |passed| {
      GoodAt(c, passed[..|passed| - 1], k);
    } else if k + 2 == |passed| {
      assert Good(c, passed[..|passed| - 1]);
    }
  }

  lemma SafeElsewhere(c: Codec, d: Dir, d': Dir)
    requires Safe(c, d) && Get(d', Pending) == Get(d, Pending) && Get(d', Candidate) == Get(d, Candidate)
    ensures Safe(c, d') && Fixed(d, d')
  {
  }

  /** Steps that touch neither `pending.json` nor the candidate. */
  lemma {:induction false} GoodElsewhere(c: Codec, early: seq<Dir>, late: seq<Dir>, where: set<Name>)
    requires early != [] && early <= late && Good(c, early) && Pending !in where && Candidate !in where
    requires StatesBut(late, |early|, early[|early| - 1], where)
    ensures Good(c, late)
    decreases |late|
  {
    var d := early[|early| - 1];
    if |late| == |early| {
      assert late == early;
    } else {
      var init := late[..|late| - 1];
      GoodElsewhere(c, early, init, where);
      assert Safe(c, d);
      assert SameBut(d, late[|late| - 1], where);
      SafeElsewhere(c, d, late[|late| - 1]);
      if |init| > |early| {
        assert SameBut(d, init[|init| - 1], where);
        SafeElsewhere(c, d, init[|init| - 1]);
        SafeElsewhere(c, init[|init| - 1], late[|late| - 1]);
      }
    }
  }

  /** A power cut in a safe state leaves a safe state. */
  lemma TornIsSafe(c: Codec, d: Dir, found: Dir)
    requires Safe(c, d) && Torn(d, found)
    ensures Safe(c, found)
  {
    if Pending in found {
      var m :| d[Pending] == File(c.encode(m), true) && Describes(c, m, d[Candidate]);
      assert found[Pending] == d[Pending] && found[Candidate] == d[Candidate];
    }
  }

  /** A record that stands without its candidate is not safe. `unlink` of the record must not fail while that of the
      candidate works, nor may the two removals persist out of order. */
  lemma RecordAloneIsUnsafe(c: Codec, d: Dir)
    requires Pending in d
    ensures !Safe(c, d - {Candidate})
  {
  }

  // ---------------------------------------------------------------- what a power cut can bring back

  datatype Standing = Standing(record: File, candidate: File)

  /** If a record stands, it is this one, beside this candidate. */
  predicate Holds(d: Dir, r: Option<Standing>) {
    Pending in d ==> r.Some? && d[Pending] == r.value.record && Get(d, Candidate) == Some(r.value.candidate)
  }

  predicate Stands(passed: seq<Dir>, from: nat, r: Option<Standing>) {
    |passed| <= from || (Holds(passed[|passed| - 1], r) && Stands(passed[..|passed| - 1], from, r))
  }

  /** The states from number `from` on show at most one record and candidate. */
  ghost predicate Agree(passed: seq<Dir>, from: nat) {
    exists r :: Stands(passed, from, r)
  }

  /** A record stands in every state from number `from` on. */
  predicate AlwaysPending(passed: seq<Dir>, from: nat) {
    |passed| <= from || (Pending in passed[|passed| - 1] && AlwaysPending(passed[..|passed| - 1], from))
  }

  /** No record appears, and one that always stood still does. */
  predicate Carried(early: seq<Dir>, from: nat, late: seq<Dir>, from': nat) {
    && (Stands(early, from, None) ==> Stands(late, from', None))
    && (AlwaysPending(early, from) ==> AlwaysPending(late, from'))
  }

  lemma {:induction false} StandsLater(passed: seq<Dir>, from: nat, from': nat, r: Option<Standing>)
    requires Stands(passed, from, r) && from <= from'
    ensures Stands(passed, from', r)
  {
    if |passed| > from' { StandsLater(passed[..|passed| - 1], from, from', r); }
  }

  lemma {:induction false} PendingLater(passed: seq<Dir>, from: nat, from': nat)
    requires AlwaysPending(passed, from) && from <= from'
    ensures AlwaysPending(passed, from')
  {
    if |passed| > from' { PendingLater(passed[..|passed| - 1], from, from'); }
  }

  /** A later directory sync. */
  lemma Synced(passed: seq<Dir>, from: nat, from': nat)
    requires from <= from'
    ensures Agree(passed, from) ==> Agree(passed, from')
    ensures Carried(passed, from, passed, from')
  {
    if Agree(passed, from) {
      var r :| Stands(passed, from, r);
      StandsLater(passed, from, from', r);
    }
    if Stands(passed, from, None) { StandsLater(passed, from, from', None); }
    if AlwaysPending(passed, from) { PendingLater(passed, from, from'); }
  }

  lemma {:induction false} StandsAt(passed: seq<Dir>, from: nat, r: Option<Standing>, k: nat)
    requires Stands(passed, from, r) && from <= k < |passed|
    ensures Holds(passed[k], r)
  {
    if k < |passed| - 1 { StandsAt(passed[..|passed| - 1], from, r, k); }
  }

  lemma {:induction false} PendingAt(passed: seq<Dir>, from: nat, k: nat)
    requires AlwaysPending(passed, from) && from <= k < |passed|
    ensures Pending in passed[k]
  {
    if k < |passed| - 1 { PendingAt(passed[..|passed| - 1], from, k); }
  }

  lemma {:induction false} NoneMeansAny(passed: seq<Dir>, from: nat, r: Option<Standing>)
    requires Stands(passed, from, None)
    ensures Stands(passed, from, r)
  {
    if |passed| > from { NoneMeansAny(passed[..|passed| - 1], from, r); }
  }

  /** A step in which no record appears. */
  lemma AgreeStep(passed: seq<Dir>, from: nat, d: Dir)
    requires from < |passed| && Agree(passed, from)
    requires Pending in d ==> Pending in passed[|passed| - 1] && Fixed(passed[|passed| - 1], d)
    ensures Agree(passed + [d], from)
    ensures Stands(passed, from, None) ==> Stands(passed + [d], from, None)
    ensures Pending in d && AlwaysPending(passed, from) ==> AlwaysPending(passed + [d], from)
  {
    assert (passed + [d])[..|passed|] == passed;
    var r :| Stands(passed, from, r);
    assert Stands(passed + [d], from, r);
  }

  /** A step in which one appears, and none was there. */
  lemma AgreeNew(passed: seq<Dir>, from: nat, d: Dir)
    requires Stands(passed, from, None) && Pending in d && Candidate in d
    ensures Agree(passed + [d], from)
  {
    var r := Some(Standing(d[Pending], d[Candidate]));
    NoneMeansAny(passed, from, r);
    assert (passed + [d])[..|passed|] == passed;
    assert Stands(passed + [d], from, r);
  }

  lemma {:induction false} StandsElsewhere(early: seq<Dir>, late: seq<Dir>, from: nat, where: set<Name>,
                                           r: Option<Standing>)
    requires from < |early| && early <= late && Stands(early, from, r) && Pending !in where && Candidate !in where
    requires StatesBut(late, |early|, early[|early| - 1], where)
    ensures Stands(late, from, r)
    decreases |late|
  {
    if |late| == |early| {
      assert late == early;
    } else {
      StandsElsewhere(early, late[..|late| - 1], from, where, r);
      var d, d' := early[|early| - 1], late[|late| - 1];
      assert Get(d', Pending) == Get(d, Pending) && Get(d', Candidate) == Get(d, Candidate);
    }
  }

  lemma {:induction false} PendingElsewhere(early: seq<Dir>, late: seq<Dir>, from: nat, where: set<Name>)
    requires from < |early| && early <= late && AlwaysPending(early, from) && Pending !in where
    requires StatesBut(late, |early|, early[|early| - 1], where)
    ensures AlwaysPending(late, from)
    decreases |late|
  {
    if |late| == |early| {
      assert late == early;
    } else {
      PendingElsewhere(early, late[..|late| - 1], from, where);
      assert Get(late[|late| - 1], Pending) == Get(early[|early| - 1], Pending);
    }
  }

  /** Steps that touch neither `pending.json` nor the candidate. */
  lemma Elsewhere(c: Codec, early: seq<Dir>, late: seq<Dir>, from: nat, where: set<Name>)
    requires from < |early| && early <= late && Good(c, early) && Agree(early, from)
    requires Pending !in where && Candidate !in where && StatesBut(late, |early|, early[|early| - 1], where)
    ensures Good(c, late) && Agree(late, from) && Carried(early, from, late, from)
  {
    GoodElsewhere(c, early, late, where);
    var r :| Stands(early, from, r);
    StandsElsewhere(early, late, from, where, r);
    if Stands(early, from, None) { StandsElsewhere(early, late, from, where, None); }
    if AlwaysPending(early, from) { PendingElsewhere(early, late, from, where); }
  }

  /** Every state is good, and those that a power cut can bring back show at most one record. */
  ghost predicate Sound(c: Codec, fs: FileSystem)
    reads fs
  {
    fs.Valid() && Good(c, fs.passed) && Agree(fs.passed, fs.updateDurable)
  }

  // ---------------------------------------------------------------- writing records

  method DurableUnlink(fs: FileSystem, ghost c: Codec, n: Name)
    requires Sound(c, fs) && !fs.recordSticks && Where(n) == Update
    requires n == Candidate ==> Pending !in fs.live
    modifies fs
    ensures Sound(c, fs)
    ensures n != Pending ==> Carried(old(fs.passed), old(fs.updateDurable), fs.passed, fs.updateDurable)
    ensures fs.live == old(fs.live) || fs.live == old(fs.live) - {n}
    ensures n == Pending || !fs.unlinkFails ==> fs.live == old(fs.live) - {n}
  {
    ghost var early, d, from := fs.passed, fs.live, fs.updateDurable;
    var ok := fs.Unlink(n);
    if ok {
      if n != Pending && n != Candidate {
        SafeElsewhere(c, d, fs.live);
      }
      GoodStep(c, early, fs.live);
      AgreeStep(early, from, fs.live);
      if n != Pending && AlwaysPending(early, from) { PendingAt(early, from, |early| - 1); }
      var _ := fs.SyncDirectory(Update);
      Synced(fs.passed, from, fs.updateDurable);
    }
  }

  /** A new file with these bytes, synced. */
  method WriteSynced(fs: FileSystem, ghost c: Codec, tmp: Name, bytes: seq<Byte>) returns (ok: bool)
    requires Sound(c, fs) && tmp != Pending && tmp != Candidate
    modifies fs`live, fs`passed
    ensures Sound(c, fs) && SameBut(old(fs.live), fs.live, {tmp})
    ensures Carried(old(fs.passed), fs.updateDurable, fs.passed, fs.updateDurable)
    ensures ok ==> Get(fs.live, tmp) == Some(File(bytes, true))
    ensures !fs.faulty && tmp !in old(fs.live) ==> ok
  {
    ghost var early, d := fs.passed, fs.live;
    ok := fs.Create(tmp);
    if !ok {
      return;
    }
    ghost var s1, d1 := fs.passed, fs.live;
    ok := fs.WriteAll(tmp, bytes);
    if ok {
      assert [] + bytes == bytes;
      ok := fs.Sync(tmp);
    }
    assert StatesBut(fs.passed, |s1|, d1, {tmp});
    StatesButJoin(s1, fs.passed, |early|, d, d1, {tmp});
    Elsewhere(c, early, fs.passed, fs.updateDurable, {tmp});
  }

  /** The rename that installs a record keeps the directory safe. */
  lemma InstalledIsSafe(c: Codec, m: Meta, d: Dir, tmp: Name, final: Name)
    requires (tmp, final) == (PendingTmp, Pending) || (tmp, final) == (StatusTmp, Status)
    requires Safe(c, d) && Get(d, tmp) == Some(File(c.encode(m), true))
    requires final == Pending ==> Pending !in d && Candidate in d && Describes(c, m, d[Candidate])
    ensures var d' := d[final := d[tmp]] - {tmp};
      && Safe(c, d') && Fixed(d, d') && Get(d', final) == Some(File(c.encode(m), true))
      && SameBut(d, d', {tmp, final})
  {
    var d' := d[final := d[tmp]] - {tmp};
    if final == Pending {
      assert d'[Pending] == File(c.encode(m), true) && d'[Candidate] == d[Candidate];
    } else {
      SafeElsewhere(c, d, d');
    }
  }

  /** The rename of a record into place. */
  method RenameRecord(fs: FileSystem, ghost c: Codec, tmp: Name, final: Name, ghost m: Meta) returns (ok: bool)
    requires Sound(c, fs)
    requires (tmp, final) == (PendingTmp, Pending) || (tmp, final) == (StatusTmp, Status)
    requires Get(fs.live, tmp) == Some(File(c.encode(m), true))
    requires final == Pending ==> Candidate in fs.live && Describes(c, m, fs.live[Candidate])
    requires final == Pending ==> Stands(fs.passed, fs.updateDurable, None)
    modifies fs`live, fs`passed
    ensures Sound(c, fs) && SameBut(old(fs.live), fs.live, {tmp, final})
    ensures ok ==> Get(fs.live, final) == Some(File(c.encode(m), true))
    ensures !ok ==> fs.live == old(fs.live)
    ensures final == Status ==> Carried(old(fs.passed), fs.updateDurable, fs.passed, fs.updateDurable)
    ensures !fs.faulty ==> ok
  {
    ghost var early, from := fs.passed, fs.updateDurable;
    ghost var d := fs.live[final := fs.live[tmp]] - {tmp};
    if final == Pending { StandsAt(early, from, None, |early| - 1); }
    InstalledIsSafe(c, m, fs.live, tmp, final);
    GoodStep(c, early, d);
    if final == Pending {
      AgreeNew(early, from, d);
    } else {
      AgreeStep(early, from, d);
      if AlwaysPending(early, from) { PendingAt(early, from, |early| - 1); }
    }
    ok := fs.Rename(tmp, final);
  }

  /** The directory sync; a record that may not last is taken back. */
  method SyncRecord(fs: FileSystem, ghost c: Codec, final: Name) returns (ok: bool)
    requires Sound(c, fs) && !fs.recordSticks && (final == Pending || final == Status)
    modifies fs
    ensures Sound(c, fs)
    ensures final == Pending || ok ==> fs.live == if ok then old(fs.live) else old(fs.live) - {final}
    ensures SameBut(old(fs.live), fs.live, {final})
    ensures ok && Pending in fs.live ==> AlwaysPending(fs.passed, fs.updateDurable) || final != Pending
    ensures final == Status ==> Carried(old(fs.passed), old(fs.updateDurable), fs.passed, fs.updateDurable)
    ensures !fs.faulty ==> ok
  {
    ghost var from := fs.updateDurable;
    ok := fs.SyncDirectory(Update);
    Synced(fs.passed, from, fs.updateDurable);
    if !ok {
      DurableUnlink(fs, c, final);
    }
  }

  method InstallRecord(fs: FileSystem, ghost c: Codec, tmp: Name, final: Name, ghost m: Meta) returns (ok: bool)
    requires Sound(c, fs) && !fs.recordSticks
    requires (tmp, final) == (PendingTmp, Pending) || (tmp, final) == (StatusTmp, Status)
    requires Get(fs.live, tmp) == Some(File(c.encode(m), true))
    requires final == Pending ==> Candidate in fs.live && Describes(c, m, fs.live[Candidate])
    requires final == Pending ==> Stands(fs.passed, fs.updateDurable, None)
    modifies fs
    ensures Sound(c, fs) && SameBut(old(fs.live), fs.live, {tmp, final})
    ensures final == Pending ==> Get(fs.live, Pending) == if ok then Some(File(c.encode(m), true)) else None
    ensures final == Pending && ok ==> AlwaysPending(fs.passed, fs.updateDurable)
    ensures final == Status ==> Carried(old(fs.passed), old(fs.updateDurable), fs.passed, fs.updateDurable)
    ensures !fs.faulty ==> ok
  {
    if final == Pending { StandsAt(fs.passed, fs.updateDurable, None, |fs.passed| - 1); }
    ok := RenameRecord(fs, c, tmp, final, m);
    if ok {
      ok := SyncRecord(fs, c, final);
    }
  }

  /** Replacing `final` by way of `tmp`. `pending.json` appears only beside the candidate that it describes, and only
      when no power cut can bring back another. */
  method WriteAtomicJson(fs: FileSystem, ghost c: Codec, tmp: Name, final: Name, json: seq<Byte>, ghost m: Meta)
    returns (ok: bool)
    requires Sound(c, fs) && !fs.recordSticks
    requires (tmp, final) == (PendingTmp, Pending) || (tmp, final) == (StatusTmp, Status)
    requires json == c.encode(m)
    requires final == Pending ==> Candidate in fs.live && Describes(c, m, fs.live[Candidate])
    requires final == Pending ==> Stands(fs.passed, fs.updateDurable, None)
    modifies fs
    ensures Sound(c, fs) && SameBut(old(fs.live), fs.live, {tmp, final})
    ensures final == Pending ==> Get(fs.live, Pending) == if ok then Some(File(json, true)) else None
    ensures final == Pending && ok ==> AlwaysPending(fs.passed, fs.updateDurable)
    ensures final == Status ==> Carried(old(fs.passed), old(fs.updateDurable), fs.passed, fs.updateDurable)
    ensures !fs.faulty && !fs.unlinkFails ==> ok
  {
    if final == Pending { StandsAt(fs.passed, fs.updateDurable, None, |fs.passed| - 1); }
    DurableUnlink(fs, c, tmp);
    ok := WriteSynced(fs, c, tmp, json);
    assert Get(fs.live, Pending) == Get(old(fs.live), Pending);
    assert Get(fs.live, Candidate) == Get(old(fs.live), Candidate);
    if ok {
      ok := InstallRecord(fs, c, tmp, final, m);
    }
  }

  // ---------------------------------------------------------------- the candidate

  method ReceiveChunk(fs: FileSystem, ghost c: Codec, reader: BodyReader, chunk: nat) returns (ok: bool)
    requires Sound(c, fs) && reader.Valid() && chunk <= reader.contentRemaining
    requires CandidateTmp in fs.live && !fs.live[CandidateTmp].synced
    modifies fs`live, fs`passed, reader
    ensures Sound(c, fs) && reader.Valid() && SameBut(old(fs.live), fs.live, {CandidateTmp})
    ensures CandidateTmp in fs.live && !fs.live[CandidateTmp].synced
    ensures ok ==> reader.contentRemaining == old(reader.contentRemaining) - chunk
    ensures ok ==> chunk <= |old(reader.Available())| && reader.Available() == old(reader.Available())[chunk..]
    ensures ok ==> fs.live[CandidateTmp].data == old(fs.live)[CandidateTmp].data + old(reader.Available())[..chunk]
    ensures !fs.faulty && chunk <= |old(reader.Available())| ==> ok
  {
    var bytes;
    ok, bytes := reader.ReadExact(chunk);
    if !ok {
      return;
    }
    ghost var early := fs.passed;
    ok := fs.WriteAll(CandidateTmp, bytes);
    Elsewhere(c, early, fs.passed, fs.updateDurable, {CandidateTmp});
  }

  /** The uploaded bytes, in pieces of at most 8 KiB, into the new file `tmp`. */
  method ReceiveCandidate(fs: FileSystem, ghost c: Codec, reader: BodyReader, len: nat) returns (ok: bool)
    requires Sound(c, fs) && reader.Valid() && len <= reader.contentRemaining
    requires Get(fs.live, CandidateTmp) == Some(File([], false))
    modifies fs`live, fs`passed, reader
    ensures Sound(c, fs) && reader.Valid() && SameBut(old(fs.live), fs.live, {CandidateTmp})
    ensures CandidateTmp in fs.live && !fs.live[CandidateTmp].synced
    ensures ok ==> len <= |old(reader.Available())| && fs.live[CandidateTmp].data == old(reader.Available())[..len]
    ensures !fs.faulty && len <= |old(reader.Available())| ==> ok
  {
    var left := len;
    ghost var all := reader.Available();
    assert all[..0] == [] && all[0..] == all;
    while left > 0
      invariant Sound(c, fs) && reader.Valid() && SameBut(old(fs.live), fs.live, {CandidateTmp})
      invariant 0 <= left <= len && left <= reader.contentRemaining
      invariant len - left <= |all| && reader.Available() == all[len - left..]
      invariant Get(fs.live, CandidateTmp) == Some(File(all[..len - left], false))
    {
      var chunk := if left < 8192 then left else 8192;
      ghost var rest := all[len - left..];
      ok := ReceiveChunk(fs, c, reader, chunk);
      if !ok {
        return;
      }
      TakeMore(all, len - left, rest[..chunk], rest[chunk..]);
      left := left - chunk;
    }
    ok := true;
  }

  /** `sha256sum`, the comparison with the manifest, and the ELF check of the received file. */
  method CheckCandidate(fs: FileSystem, c: Codec, m: Meta, len: nat) returns (ok: bool)
    requires fs.Valid() && CandidateTmp in fs.live && fs.live[CandidateTmp].synced && m.size == len
    ensures ok ==> Describes(c, m, fs.live[CandidateTmp])
    ensures !fs.faulty && Describes(c, m, fs.live[CandidateTmp]) ==> ok
  {
    var data := fs.live[CandidateTmp].data;
    var hashFails := fs.Fault();
    if hashFails || c.sha(data) != m.sha256 {
      return false;
    }
    var readFails := fs.Fault();
    ok := !readFails && |data| == len && CandidateElf(data);
  }

  method FreshCandidate(fs: FileSystem, ghost c: Codec) returns (ok: bool)
    requires Sound(c, fs) && !fs.recordSticks
    modifies fs
    ensures Sound(c, fs) && SameBut(old(fs.live), fs.live, {CandidateTmp})
    ensures ok ==> Get(fs.live, CandidateTmp) == Some(File([], false))
    ensures !fs.faulty && !fs.unlinkFails ==> ok
  {
    DurableUnlink(fs, c, CandidateTmp);
    ghost var early := fs.passed;
    ok := fs.Create(CandidateTmp);
    Elsewhere(c, early, fs.passed, fs.updateDurable, {CandidateTmp});
  }

  /** The complete, checked and synced candidate under its temporary name; on failure that name is free. */
  method PrepareCandidate(fs: FileSystem, c: Codec, reader: BodyReader, m: Meta, len: nat) returns (ok: bool)
    requires Sound(c, fs) && !fs.recordSticks && reader.Valid()
    requires len <= reader.contentRemaining && m.size == len
    modifies fs, reader
    ensures Sound(c, fs) && SameBut(old(fs.live), fs.live, {CandidateTmp})
    ensures ok ==> len <= |old(reader.Available())|
    ensures ok ==> Get(fs.live, CandidateTmp) == Some(File(old(reader.Available())[..len], true))
    ensures ok ==> Describes(c, m, fs.live[CandidateTmp])
    ensures !fs.faulty && !fs.unlinkFails && len <= |old(reader.Available())| ==>
      (Describes(c, m, File(old(reader.Available())[..len], true)) ==> ok)
  {
    ok := FreshCandidate(fs, c);
    if !ok {
      return;
    }
    ok := ReceiveCandidate(fs, c, reader, len);
    if ok {
      ghost var early := fs.passed;
      ok := fs.Sync(CandidateTmp);
      Elsewhere(c, early, fs.passed, fs.updateDurable, {CandidateTmp});
    }
    if ok {
      ok := CheckCandidate(fs, c, m, len);
    }
    if !ok {
      DurableUnlink(fs, c, CandidateTmp);
    }
  }

  lemma CandidateInstalled(c: Codec, passed: seq<Dir>, d: Dir)
    requires passed != [] && Good(c, passed) && passed[|passed| - 1] == d && Pending !in d && CandidateTmp in d
    ensures Good(c, passed + [d[Candidate := d[CandidateTmp]] - {CandidateTmp}])
  {
    GoodStep(c, passed, d[Candidate := d[CandidateTmp]] - {CandidateTmp});
  }

  method InstallCandidate(fs: FileSystem, ghost c: Codec) returns (ok: bool)
    requires Sound(c, fs) && !fs.recordSticks && Pending !in fs.live && CandidateTmp in fs.live
    modifies fs
    ensures Sound(c, fs) && Pending !in fs.live
    ensures ok ==> Get(fs.live, Candidate) == Some(old(fs.live)[CandidateTmp])
    ensures ok ==> Stands(fs.passed, fs.updateDurable, None)
    ensures !fs.faulty ==> ok
  {
    ghost var early, from := fs.passed, fs.updateDurable;
    CandidateInstalled(c, early, fs.live);
    AgreeStep(early, from, fs.live[Candidate := fs.live[CandidateTmp]] - {CandidateTmp});
    ok := fs.Rename(CandidateTmp, Candidate);
    if !ok {
      DurableUnlink(fs, c, CandidateTmp);
      return;
    }
    ok := fs.SyncDirectory(Update);
    Synced(fs.passed, from, fs.updateDurable);
    if !ok {
      DurableUnlink(fs, c, Candidate);
    }
  }

  /** `pending.json` and then `status.json`; when either fails, the record goes before the candidate does. */
  method RecordCandidate(fs: FileSystem, c: Codec, m: Meta) returns (ok: bool)
    requires Sound(c, fs) && !fs.recordSticks && Stands(fs.passed, fs.updateDurable, None)
    requires Candidate in fs.live && Describes(c, m, fs.live[Candidate])
    modifies fs
    ensures Sound(c, fs)
    ensures Get(fs.live, Pending) == if ok then Some(File(c.encode(m), true)) else None
    ensures ok ==> Get(fs.live, Candidate) == Get(old(fs.live), Candidate) && AlwaysPending(fs.passed, fs.updateDurable)
    ensures !ok && !fs.unlinkFails ==> Candidate !in fs.live
    ensures !fs.faulty && !fs.unlinkFails ==> ok
  {
    var json := c.encode(m);
    ok := WriteAtomicJson(fs, c, PendingTmp, Pending, json, m);
    assert Get(fs.live, Candidate) == Get(old(fs.live), Candidate);
    if !ok {
      DurableUnlink(fs, c, Candidate);
      return;
    }
    ghost var d := fs.live;
    ok := WriteAtomicJson(fs, c, StatusTmp, Status, json, m);
    assert Get(fs.live, Candidate) == Get(d, Candidate) && Get(fs.live, Pending) == Get(d, Pending);
    if !ok {
      DurableUnlink(fs, c, Pending);
      DurableUnlink(fs, c, Candidate);
    }
  }

  /** `stage_update_candidate`: whatever fails on the way, every state passed through is safe; in the end the
      upload is pending with exactly the received bytes, or nothing is pending. */
  method StageUpdateCandidate(fs: FileSystem, c: Codec, reader: BodyReader, m: Meta, len: nat) returns (ok: bool)
    requires Sound(c, fs) && !fs.recordSticks && reader.Valid() && Pending !in fs.live
    requires len <= reader.contentRemaining && m.size == len
    modifies fs, reader
    ensures Sound(c, fs)
    ensures ok ==> len <= |old(reader.Available())|
    ensures ok ==> Get(fs.live, Candidate) == Some(File(old(reader.Available())[..len], true))
    ensures Get(fs.live, Pending) == if ok then Some(File(c.encode(m), true)) else None
    ensures ok ==> AlwaysPending(fs.passed, fs.updateDurable)
    ensures !fs.faulty && !fs.unlinkFails ==>
      (ok <==> len <= |old(reader.Available())| && Describes(c, m, File(old(reader.Available())[..len], true)))
  {
    var dirsFail := fs.Fault();
    if dirsFail {
      return false;
    }
    ok := PrepareCandidate(fs, c, reader, m, len);
    assert Get(fs.live, Pending) == Get(old(fs.live), Pending);
    if !ok {
      return;
    }
    ok := InstallCandidate(fs, c);
    if !ok {
      return;
    }
    ok := RecordCandidate(fs, c, m);
  }

  // ---------------------------------------------------------------- uploads and everything around them

  datatype UploadResult = Staged | Busy | NotStaged

  /** Whether an earlier update is still under way. */
  method UpdateTransactionOutstanding(fs: FileSystem, c: Codec) returns (outstanding: bool)
    ensures Pending in fs.live ==> outstanding
    ensures outstanding ==> Pending in fs.live || (Status in fs.live && c.blocks(fs.live[Status].data))
  {
    if Pending in fs.live {
      return true;
    }
    var readFails := fs.Fault();
    if Status !in fs.live || readFails {
      return false;
    }
    outstanding := c.blocks(fs.live[Status].data);
  }

  /** An upload past its signature check. While something is pending it changes nothing at all. */
  method Upload(fs: FileSystem, c: Codec, reader: BodyReader, m: Meta, len: nat, lockHeld: bool)
    returns (r: UploadResult)
    requires Sound(c, fs) && !fs.recordSticks && reader.Valid() && len <= reader.contentRemaining
    modifies fs, reader
    ensures Sound(c, fs)
    ensures Pending in old(fs.live) || lockHeld ==> r != Staged && fs.passed == old(fs.passed)
    ensures r == Busy ==> fs.passed == old(fs.passed)
    ensures r == Staged ==> m.size == len <= |old(reader.Available())|
    ensures r == Staged ==> Get(fs.live, Candidate) == Some(File(old(reader.Available())[..len], true))
    ensures r == Staged ==> Get(fs.live, Pending) == Some(File(c.encode(m), true))
    ensures r == Staged ==> AlwaysPending(fs.passed, fs.updateDurable)
    ensures r != Staged && Pending !in old(fs.live) ==> Pending !in fs.live
  {
    if m.size != len {
      return NotStaged;
    }
    var dirsFail := fs.Fault();
    if dirsFail {
      return NotStaged;
    }
    if lockHeld {
      return Busy;
    }
    var outstanding := UpdateTransactionOutstanding(fs, c);
    if outstanding {
      return Busy;
    }
    var ok := StageUpdateCandidate(fs, c, reader, m, len);
    r := if ok then Staged else NotStaged;
  }

  /** `durable_cleanup`: the record goes first. */
  method Cleanup(fs: FileSystem, ghost c: Codec) returns (ok: bool)
    requires Sound(c, fs) && !fs.recordSticks
    modifies fs
    ensures Sound(c, fs)
    ensures Pending !in fs.live && (!fs.unlinkFails ==> Candidate !in fs.live)
  {
    ghost var s0, from := fs.passed, fs.updateDurable;
    var gone := fs.Unlink(Pending);
    if gone {
      GoodStep(c, s0, fs.live);
      AgreeStep(s0, from, fs.live);
    }
    ghost var s1 := fs.passed;
    gone := fs.Unlink(Candidate);
    if gone {
      GoodStep(c, s1, fs.live);
      AgreeStep(s1, from, fs.live);
    }
    ok := fs.SyncDirectory(Update);
    Synced(fs.passed, from, fs.updateDurable);
  }

  /** Copying binaries touches neither `pending.json` nor the candidate. */
  lemma {:induction false} CopyingIsElsewhere(c: Codec, early: seq<Dir>, late: seq<Dir>, data: seq<Byte>,
                                              op: UpdateFs.Operation)
    requires early != [] && early <= late && Good(c, early)
    requires UpdateFs.CopyStates(late, |early|, early[|early| - 1], data, UpdateFs.Temporary(op),
                                 UpdateFs.Destination(op))
    ensures StatesBut(late, |early|, early[|early| - 1], {UpdateFs.Temporary(op), UpdateFs.Destination(op)})
    decreases |late|
  {
    if |late| > |early| {
      CopyingIsElsewhere(c, early, late[..|late| - 1], data, op);
    }
  }

  method CopyBinary(fs: FileSystem, ghost c: Codec, op: UpdateFs.Operation) returns (ok: bool)
    requires Sound(c, fs)
    modifies fs
    ensures Sound(c, fs) && Carried(old(fs.passed), old(fs.updateDurable), fs.passed, fs.updateDurable)
  {
    ghost var early, d, from := fs.passed, fs.live, fs.updateDurable;
    ok := UpdateFs.Perform(fs, op);
    CopyingIsElsewhere(c, early, fs.passed,
                       if UpdateFs.Source(op) in d then d[UpdateFs.Source(op)].data else [], op);
    Elsewhere(c, early, fs.passed, from, {UpdateFs.Temporary(op), UpdateFs.Destination(op)});
    Synced(fs.passed, from, fs.updateDurable);
  }

  /** The update directory goes back to state `d`. */
  lemma BackToSafe(c: Codec, other: Dir, d: Dir, found: Dir)
    requires Safe(c, d) && Torn(Mixed(other, d), found)
    ensures Safe(c, found) && (Pending in found <==> Pending in d)
    ensures Pending in d ==>
      found[Pending] == d[Pending] && Candidate in d && Get(found, Candidate) == Get(d, Candidate)
  {
    MixedGet(other, d, Pending);
    MixedGet(other, d, Candidate);
    SafeElsewhere(c, d, Mixed(other, d));
    TornIsSafe(c, Mixed(other, d), found);
  }

  /** A power cut at any moment since the start: what comes back up is safe. A record that stood before it and stands
      after it is the same, beside the same candidate; one that no power cut could undo still stands. */
  method LosePower(fs: FileSystem, ghost c: Codec)
    requires Sound(c, fs)
    modifies fs
    ensures Sound(c, fs) && Fixed(old(fs.live), fs.live)
    ensures AlwaysPending(old(fs.passed), old(fs.updateDurable)) ==>
      Pending in fs.live && AlwaysPending(fs.passed, fs.updateDurable)
  {
    ghost var all, from := fs.passed, fs.updateDurable;
    ghost var local, update := fs.PowerCut();
    GoodAt(c, all, update);
    BackToSafe(c, all[local], all[update], fs.live);
    ghost var r :| Stands(all, from, r);
    StandsAt(all, from, r, update);
    StandsAt(all, from, r, |all| - 1);
    if AlwaysPending(all, from) { PendingAt(all, from, update); }
    assert [fs.live][..0] == [];
    if Pending in fs.live {
      assert Stands([fs.live], 0, Some(Standing(fs.live[Pending], fs.live[Candidate])));
    } else {
      assert Stands([fs.live], 0, None);
    }
  }

  /** A staged upload outlives a power cut: the record and the received bytes are there. */
  method UploadOutlivesPowerCut(fs: FileSystem, c: Codec, reader: BodyReader, m: Meta, len: nat, lockHeld: bool)
    returns (r: UploadResult)
    requires Sound(c, fs) && !fs.recordSticks && reader.Valid() && len <= reader.contentRemaining
    modifies fs, reader
    ensures Sound(c, fs)
    ensures r == Staged ==> len <= |old(reader.Available())|
    ensures r == Staged ==> Get(fs.live, Pending) == Some(File(c.encode(m), true))
    ensures r == Staged ==> Get(fs.live, Candidate) == Some(File(old(reader.Available())[..len], true))
  {
    r := Upload(fs, c, reader, m, len, lockHeld);
    LosePower(fs, c);
  }

  /** What may happen to the update directory. */
  datatype Event =
    | Uploading(meta: Meta, prefetched: seq<Byte>, socket: seq<Chunk>, length: nat, lockHeld: bool)
    | Copying(operation: UpdateFs.Operation)
    | CleaningUp
    | PowerLoss

  /** Over any sequence of uploads, binary copies, cleanups and power cuts, the directory is safe in every
      state it passes through, and after every restart. */
  method Lifetime(fs: FileSystem, c: Codec, events: seq<Event>)
    requires Sound(c, fs) && !fs.recordSticks
    modifies fs
    ensures Sound(c, fs) && Safe(c, fs.live)
  {
    for i := 0 to |events|
      invariant Sound(c, fs)
    {
      match events[i] {
        case Uploading(m, prefetched, socket, length, lockHeld) =>
          var reader := new BodyReader(prefetched, socket, length);
          var _ := Upload(fs, c, reader, m, length, lockHeld);
        case Copying(op) =>
          var _ := CopyBinary(fs, c, op);
        case CleaningUp =>
          var _ := Cleanup(fs, c);
        case PowerLoss =>
          LosePower(fs, c);
      }
    }
  }
}
