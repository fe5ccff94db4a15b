/** The helper that copies agent binaries: backup, activate and restore. */
module UpdateFs {
  import opened Wrappers
  import opened Bytes
  import opened Disk

  const MAX_BINARY_BYTES := 64 * 1024 * 1024

  /** A little-endian 32-bit ARM executable of acceptable size. */
  predicate ValidElf(data: seq<Byte>) {
    && 52 <= |data| <= MAX_BINARY_BYTES
    && data[..4] == [0x7f, 0x45, 0x4c, 0x46] && data[4] == 1 && data[5] == 1
    && (data[16] as int) + 256 * (data[17] as int) == 2 && (data[18] as int) + 256 * (data[19] as int) == 40
  }

  /** A state that copying `data` to `dest` through `tmp` may show, starting from `d0`: the destination is the
      old file or the complete new one, and nothing else but `tmp` differs. */
  predicate CopyState(d0: Dir, d: Dir, data: seq<Byte>, tmp: Name, dest: Name) {
    && SameBut(d0, d, {tmp, dest})
    && (Get(d, dest) == Get(d0, dest) || Get(d, dest) == Some(File(data, true)))
  }

  /** Filling a fresh `tmp` with the bytes of `source`, read in pieces of at most 8 KiB. */
  method CopyInto(fs: FileSystem, source: Name, tmp: Name) returns (ok: bool)
    requires fs.Valid() && source in fs.live && source != tmp && Get(fs.live, tmp) == Some(File([], false))
    modifies fs`live, fs`passed
    ensures fs.Valid() && old(fs.passed) <= fs.passed
    ensures StatesBut(fs.passed, |old(fs.passed)|, old(fs.live), {tmp})
    ensures SameBut(old(fs.live), fs.live, {tmp}) && tmp in fs.live && !fs.live[tmp].synced
    ensures ok ==> fs.live[tmp].data == old(fs.live)[source].data
    ensures !fs.faulty ==> ok
  {
    var data := fs.live[source].data;
    var offset := 0;
    while offset < |data|
      invariant fs.Valid() && old(fs.passed) <= fs.passed
      invariant 0 <= offset <= |data|
      invariant StatesBut(fs.passed, |old(fs.passed)|, old(fs.live), {tmp})
      invariant SameBut(old(fs.live), fs.live, {tmp}) && Get(fs.live, tmp) == Some(File(data[..offset], false))
    {
      var fault := fs.Fault();
      if fault {
        return false;
      }
      var got: nat := *;
      if !(1 <= got <= 8192 && got <= |data| - offset) {
        got := 1;
      }
      ghost var early, d1 := fs.passed, fs.live;
      ok := fs.WriteAll(tmp, data[offset..offset + got]);
      StatesButJoin(early, fs.passed, |old(fs.passed)|, old(fs.live), d1, {tmp});
      if !ok {
        return false;
      }
      assert data[..offset + got] == data[..offset] + data[offset..offset + got];
      offset := offset + got;
    }
    assert data[..offset] == data;
    ok := true;
  }

  /** A new empty `tmp`, whatever was there before. */
  method FreshTemporary(fs: FileSystem, tmp: Name) returns (ok: bool)
    requires fs.Valid() && tmp != Pending
    modifies fs`live, fs`passed
    ensures fs.Valid() && old(fs.passed) <= fs.passed
    ensures StatesBut(fs.passed, |old(fs.passed)|, old(fs.live), {tmp}) && SameBut(old(fs.live), fs.live, {tmp})
    ensures ok ==> Get(fs.live, tmp) == Some(File([], false))
    ensures !fs.faulty && !fs.unlinkFails ==> ok
  {
    var _ := fs.Unlink(tmp);
    ok := fs.Create(tmp);
  }

  /** `fchmod`, `fsync` and `close`. */
  method Seal(fs: FileSystem, tmp: Name, written: bool) returns (ok: bool)
    requires fs.Valid() && tmp in fs.live
    modifies fs`live, fs`passed
    ensures fs.Valid() && old(fs.passed) <= fs.passed
    ensures StatesBut(fs.passed, |old(fs.passed)|, old(fs.live), {tmp}) && SameBut(old(fs.live), fs.live, {tmp})
    ensures ok ==> written && Get(fs.live, tmp) == Some(old(fs.live)[tmp].(synced := true))
    ensures !fs.faulty && written ==> ok
  {
    var chmodFails := fs.Fault();
    ok := written && !chmodFails;
    if ok {
      ok := fs.Sync(tmp);
    }
    var closeFails := fs.Fault();
    ok := ok && !closeFails;
  }

  /** The complete, synced temporary: every state on the way differs from the start in `tmp` only. */
  method Prepare(fs: FileSystem, source: Name, tmp: Name) returns (ok: bool)
    requires fs.Valid() && source in fs.live && source != tmp && tmp != Pending
    modifies fs`live, fs`passed
    ensures fs.Valid() && old(fs.passed) <= fs.passed
    ensures StatesBut(fs.passed, |old(fs.passed)|, old(fs.live), {tmp}) && SameBut(old(fs.live), fs.live, {tmp})
    ensures ok ==> Get(fs.live, tmp) == Some(File(old(fs.live)[source].data, true))
    ensures !fs.faulty && !fs.unlinkFails ==> ok
  {
    ghost var n, d0 := |fs.passed|, fs.live;
    ok := FreshTemporary(fs, tmp);
    if !ok {
      return;
    }
    assert Get(fs.live, source) == Get(d0, source);
    ghost var s1, d1 := fs.passed, fs.live;
    ok := CopyInto(fs, source, tmp);
    ghost var s2, d2 := fs.passed, fs.live;
    ok := Seal(fs, tmp, ok);
    StatesButJoin(s1, s2, n, d0, d1, {tmp});
    StatesButJoin(s2, fs.passed, n, d0, d2, {tmp});
  }

  /** The states from number `from` on are copy states. */
  predicate CopyStates(passed: seq<Dir>, from: nat, d0: Dir, data: seq<Byte>, tmp: Name, dest: Name) {
    |passed| <= from || (CopyState(d0, passed[|passed| - 1], data, tmp, dest) &&
                         CopyStates(passed[..|passed| - 1], from, d0, data, tmp, dest))
  }

  lemma {:induction false} CopyStateAt(passed: seq<Dir>, from: nat, d0: Dir, data: seq<Byte>, tmp: Name, dest: Name,
                                       k: nat)
    requires CopyStates(passed, from, d0, data, tmp, dest) && from <= k < |passed|
    ensures CopyState(d0, passed[k], data, tmp, dest)
    decreases |passed|
  {
    if k < |passed| - 1 { CopyStateAt(passed[..|passed| - 1], from, d0, data, tmp, dest, k); }
  }

  /** The state that the directory of `n` goes back to. */
  function Back(n: Name, local: nat, update: nat): nat {
    if Where(n) == Local then local else update
  }

  /** What a power cut finds under name `n`. */
  lemma CutFinds(passed: seq<Dir>, local: nat, update: nat, n: Name, found: Dir)
    requires local < |passed| && update < |passed| && Torn(Mixed(passed[local], passed[update]), found)
    ensures var d := passed[Back(n, local, update)];
      && (n in found <==> n in d)
      && (n in d && d[n].synced ==> found[n] == d[n])
  {
    MixedGet(passed[local], passed[update], n);
  }

  /** A power cut, of whatever state since the last syncs. If the destination's directory goes back to a moment of
      the copy, the destination is exactly as it was or exactly as copied; if to one before, it is as it was then. */
  lemma CutLeavesOldOrNew(passed: seq<Dir>, from: nat, d0: Dir, data: seq<Byte>, tmp: Name, dest: Name,
                          local: nat, update: nat, found: Dir)
    requires CopyStates(passed, from, d0, data, tmp, dest) && local < |passed| && update < |passed|
    requires Torn(Mixed(passed[local], passed[update]), found)
    requires dest in d0 ==> d0[dest].synced
    ensures var k := Back(dest, local, update);
      && (from <= k ==> Get(found, dest) == Get(d0, dest) || Get(found, dest) == Some(File(data, true)))
      && (k < from && (dest in passed[k] ==> passed[k][dest].synced) ==> Get(found, dest) == Get(passed[k], dest))
  {
    var k := Back(dest, local, update);
    CutFinds(passed, local, update, dest, found);
    if from <= k { CopyStateAt(passed, from, d0, data, tmp, dest, k); }
  }

  /** Other synced files of a directory that goes back to a moment of the copy are unchanged. */
  lemma CutKeepsOthers(passed: seq<Dir>, from: nat, d0: Dir, data: seq<Byte>, tmp: Name, dest: Name,
                       local: nat, update: nat, found: Dir, n: Name)
    requires CopyStates(passed, from, d0, data, tmp, dest) && local < |passed| && update < |passed|
    requires Torn(Mixed(passed[local], passed[update]), found)
    requires n in d0 && n != tmp && n != dest && d0[n].synced && from <= Back(n, local, update)
    ensures Get(found, n) == Some(d0[n])
  {
    var k := Back(n, local, update);
    CutFinds(passed, local, update, n, found);
    CopyStateAt(passed, from, d0, data, tmp, dest, k);
    assert Get(passed[k], n) == Get(d0, n);
  }

  lemma {:induction false} PreparingIsCopying(passed: seq<Dir>, from: nat, d0: Dir, data: seq<Byte>, tmp: Name,
                                              dest: Name)
    requires tmp != dest && StatesBut(passed, from, d0, {tmp})
    ensures CopyStates(passed, from, d0, data, tmp, dest)
    decreases |passed|
  {
    if |passed| > from {
      assert CopyState(d0, passed[|passed| - 1], data, tmp, dest);
      PreparingIsCopying(passed[..|passed| - 1], from, d0, data, tmp, dest);
    }
  }

  lemma RenamedState(d0: Dir, d: Dir, data: seq<Byte>, tmp: Name, dest: Name)
    requires tmp != dest && SameBut(d0, d, {tmp}) && Get(d, tmp) == Some(File(data, true))
    ensures CopyState(d0, d[dest := d[tmp]] - {tmp}, data, tmp, dest)
  {
  }

  lemma UnlinkedState(d0: Dir, d: Dir, data: seq<Byte>, tmp: Name, dest: Name)
    requires tmp != dest && CopyState(d0, d, data, tmp, dest)
    ensures CopyState(d0, d - {tmp}, data, tmp, dest)
  {
  }

  lemma CopyStatesStep(early: seq<Dir>, d: Dir, n: nat, d0: Dir, data: seq<Byte>, tmp: Name, dest: Name)
    requires CopyStates(early, n, d0, data, tmp, dest) && CopyState(d0, d, data, tmp, dest)
    ensures CopyStates(early + [d], n, d0, data, tmp, dest)
  {
    assert (early + [d])[..|early|] == early;
  }

  /** The removal of `tmp` after a failure. */
  method Discard(fs: FileSystem, tmp: Name, dest: Name, ghost n: nat, ghost d0: Dir, ghost data: seq<Byte>)
    requires fs.Valid() && tmp != dest && CopyState(d0, fs.live, data, tmp, dest)
    requires CopyStates(fs.passed, n, d0, data, tmp, dest)
    modifies fs`live, fs`passed
    ensures fs.Valid() && old(fs.passed) <= fs.passed
    ensures CopyStates(fs.passed, n, d0, data, tmp, dest)
  {
    UnlinkedState(d0, fs.live, data, tmp, dest);
    CopyStatesStep(fs.passed, fs.live - {tmp}, n, d0, data, tmp, dest);
    var _ := fs.Unlink(tmp);
  }

  /** How much of the directory that does not hold `n` is permanent. */
  ghost function OtherDurable(fs: FileSystem, n: Name): nat
    reads fs
  {
    if Where(n) == Local then fs.updateDurable else fs.localDurable
  }

  /** `rename`, the directory sync, and the removal of `tmp` when either failed. */
  method Replace(fs: FileSystem, tmp: Name, dest: Name, prepared: bool,
                 ghost n: nat, ghost d0: Dir, ghost data: seq<Byte>)
    returns (ok: bool)
    requires fs.Valid() && tmp != dest && Where(tmp) == Where(dest)
    requires n <= |fs.passed| && SameBut(d0, fs.live, {tmp})
    requires prepared ==> Get(fs.live, tmp) == Some(File(data, true))
    requires CopyStates(fs.passed, n, d0, data, tmp, dest)
    modifies fs
    ensures fs.Valid() && old(fs.passed) <= fs.passed
    ensures CopyStates(fs.passed, n, d0, data, tmp, dest)
    ensures ok ==> prepared && Get(fs.live, dest) == Some(File(data, true)) && tmp !in fs.live
    ensures fs.Durable(Where(dest)) == if ok then |fs.passed| - 1 else old(fs.Durable(Where(dest)))
    ensures OtherDurable(fs, dest) == old(OtherDurable(fs, dest))
    ensures !fs.faulty ==> ok == prepared
  {
    ok := false;
    if prepared {
      RenamedState(d0, fs.live, data, tmp, dest);
      CopyStatesStep(fs.passed, fs.live[dest := fs.live[tmp]] - {tmp}, n, d0, data, tmp, dest);
      ok := fs.Rename(tmp, dest);
      if ok {
        ok := fs.SyncDirectory(Where(dest));
      }
    }
    if !ok {
      Discard(fs, tmp, dest, n, d0, data);
    }
  }

  /** Copying `source` over `dest` by way of `tmp`: at every moment the destination is the old file or the
      complete new one, success means the new one is there for good, and whatever `tmp` held does not matter. */
  method AtomicCopyElf(fs: FileSystem, source: Name, tmp: Name, dest: Name) returns (ok: bool)
    requires fs.Valid() && source != tmp && source != dest && tmp != dest && tmp != Pending
    requires Where(tmp) == Where(dest)
    modifies fs
    ensures fs.Valid() && old(fs.passed) <= fs.passed
    ensures source !in old(fs.live) ==> !ok && fs.passed == old(fs.passed)
    ensures source in old(fs.live) ==>
      CopyStates(fs.passed, |old(fs.passed)|, old(fs.live), old(fs.live)[source].data, tmp, dest)
    ensures ok ==> source in old(fs.live) && ValidElf(old(fs.live)[source].data)
    ensures ok ==> Get(fs.live, dest) == Some(File(old(fs.live)[source].data, true)) && tmp !in fs.live
    ensures fs.Durable(Where(dest)) == if ok then |fs.passed| - 1 else old(fs.Durable(Where(dest)))
    ensures OtherDurable(fs, dest) == old(OtherDurable(fs, dest))
    ensures !fs.faulty && !fs.unlinkFails ==>
      (ok <==> source in old(fs.live) && ValidElf(old(fs.live)[source].data))
  {
    var openFails := fs.Fault();
    if source !in fs.live || openFails {
      return false;
    }
    var data := fs.live[source].data;
    var checkFails := fs.Fault();
    if !ValidElf(data) || checkFails {
      return false;
    }
    ok := Prepare(fs, source, tmp);
    PreparingIsCopying(fs.passed, |old(fs.passed)|, old(fs.live), data, tmp, dest);
    ok := Replace(fs, tmp, dest, ok, |old(fs.passed)|, old(fs.live), data);
  }

  // ---------------------------------------------------------------- the operations

  datatype Operation = Backup | Activate | Restore

  function Source(op: Operation): Name {
    match op case Backup => Active case Activate => Candidate case Restore => Previous
  }

  function Temporary(op: Operation): Name {
    match op case Backup => PreviousTmp case Activate => ActiveTmp case Restore => RestoreTmp
  }

  function Destination(op: Operation): Name {
    match op case Backup => Previous case Activate => Active case Restore => Active
  }

  method Perform(fs: FileSystem, op: Operation) returns (ok: bool)
    requires fs.Valid()
    modifies fs
    ensures fs.Valid() && old(fs.passed) <= fs.passed
    ensures fs.localDurable >= old(fs.localDurable) && fs.updateDurable >= old(fs.updateDurable)
    ensures CopyStates(fs.passed, |old(fs.passed)|, old(fs.live),
              if Source(op) in old(fs.live) then old(fs.live)[Source(op)].data else [], Temporary(op), Destination(op))
    ensures ok ==> Source(op) in old(fs.live)
    ensures ok ==> Get(fs.live, Destination(op)) == Some(File(old(fs.live)[Source(op)].data, true))
    ensures ok ==> fs.Durable(Where(Destination(op))) == |fs.passed| - 1
    ensures !fs.faulty && !fs.unlinkFails ==>
      (ok <==> Source(op) in old(fs.live) && ValidElf(old(fs.live)[Source(op)].data))
  {
    ok := AtomicCopyElf(fs, Source(op), Temporary(op), Destination(op));
  }

  /** File `n` is `f` in every state from number `from` on. */
  predicate Kept(passed: seq<Dir>, from: nat, n: Name, f: File) {
    |passed| <= from || (Get(passed[|passed| - 1], n) == Some(f) && Kept(passed[..|passed| - 1], from, n, f))
  }

  lemma {:induction false} KeptAt(passed: seq<Dir>, from: nat, n: Name, f: File, k: nat)
    requires Kept(passed, from, n, f) && from <= k < |passed|
    ensures Get(passed[k], n) == Some(f)
  {
    if k < |passed| - 1 {
      KeptAt(passed[..|passed| - 1], from, n, f, k);
    }
  }

  lemma {:induction false} CopyKeeps(early: seq<Dir>, late: seq<Dir>, from: nat, n: Name, f: File,
                                     d0: Dir, data: seq<Byte>, tmp: Name, dest: Name)
    requires early <= late && Kept(early, from, n, f) && n != tmp && n != dest && Get(d0, n) == Some(f)
    requires CopyStates(late, |early|, d0, data, tmp, dest)
    ensures Kept(late, from, n, f)
    decreases |late|
  {
    if |late| > |early| {
      CopyKeeps(early, late[..|late| - 1], from, n, f, d0, data, tmp, dest);
    } else {
      assert late == early;
    }
  }

  /** One attempt after a backup, complete, failed or cut short; the backup outlives it. */
  method Attempt(fs: FileSystem, ghost from: nat, ghost f: File) returns (ghost next: nat)
    requires fs.Valid() && f.synced && from <= fs.updateDurable && Kept(fs.passed, from, Previous, f)
    modifies fs
    ensures fs.Valid() && next <= fs.updateDurable && Kept(fs.passed, next, Previous, f)
  {
    KeptAt(fs.passed, from, Previous, f, |fs.passed| - 1);
    var restoring: bool := *;
    var op := if restoring then Restore else Activate;
    ghost var early, d0 := fs.passed, fs.live;
    var _ := Perform(fs, op);
    CopyKeeps(early, fs.passed, from, Previous, f, d0,
              if Source(op) in d0 then d0[Source(op)].data else [], Temporary(op), Destination(op));
    next := from;
    var cut: bool := *;
    if cut {
      ghost var all := fs.passed;
      ghost var local, update := fs.PowerCut();
      KeptAt(all, from, Previous, f, update);
      CutFinds(all, local, update, Previous, fs.live);
      next := 0;
    }
  }

  /** After a successful backup, any number of activations and restorations, each of which may fail or be cut
      short by a power loss at any moment, leave a final successful restore with the original bytes. */
  method BackupActivateRestore(fs: FileSystem, attempts: nat) returns (backedUp: bool, restored: bool)
    requires fs.Valid()
    modifies fs
    ensures backedUp ==> Active in old(fs.live)
    ensures backedUp && restored ==> Get(fs.live, Active) == Some(File(old(fs.live)[Active].data, true))
    ensures !fs.faulty && !fs.unlinkFails ==>
      (backedUp <==> Active in old(fs.live) && ValidElf(old(fs.live)[Active].data)) && (backedUp ==> restored)
  {
    restored := false;
    backedUp := Perform(fs, Backup);
    if !backedUp {
      return;
    }
    ghost var f := File(old(fs.live)[Active].data, true);
    ghost var from: nat := fs.updateDurable;
    assert Kept(fs.passed, from, Previous, f);
    for i := 0 to attempts
      invariant fs.Valid() && from <= fs.updateDurable && Kept(fs.passed, from, Previous, f)
    {
      from := Attempt(fs, from, f);
    }
    KeptAt(fs.passed, from, Previous, f, |fs.passed| - 1);
    restored := Perform(fs, Restore);
  }
}
