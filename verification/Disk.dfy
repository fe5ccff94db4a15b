/** The agent's directory and its update directory as the feeder's programs see them, and what a power cut can
    leave of them.

    The operations in one directory persist in the order they were made, and at least up to the last sync of that
    directory that succeeded; the two directories persist independently. The bytes of a file are safe once the
    file was synced, and arbitrary before that. */
module Disk {
  import opened Wrappers
  import opened Bytes

  datatype Name =
    | Active | ActiveTmp | RestoreTmp
    | Candidate | CandidateTmp | Previous | PreviousTmp
    | Pending | PendingTmp | Status | StatusTmp

  datatype Place = Local | Update

  function Where(n: Name): Place {
    if n == Active || n == ActiveTmp || n == RestoreTmp then Local else Update
  }

  datatype File = File(data: seq<Byte>, synced: bool)

  type Dir = map<Name, File>

  function Get(d: Dir, n: Name): Option<File> {
    if n in d then Some(d[n]) else None
  }

  /** What may be found of directory `d` after a power cut: the same names, and the same bytes in synced files. */
  predicate Torn(d: Dir, after: Dir) {
    && after.Keys == d.Keys
    && forall n | n in d && d[n].synced :: after[n] == d[n]
  }

  /** The one directory as in `local`, the other as in `update`. */
  function Mixed(local: Dir, update: Dir): Dir {
    map n | n in local.Keys + update.Keys && (if Where(n) == Local then n in local else n in update) ::
      if Where(n) == Local then local[n] else update[n]
  }

  lemma MixedGet(local: Dir, update: Dir, n: Name)
    ensures Get(Mixed(local, update), n) == if Where(n) == Local then Get(local, n) else Get(update, n)
  {
  }

  /** `d` and `d0` hold the same files, except perhaps under the names in `where`. */
  predicate SameBut(d0: Dir, d: Dir, where: set<Name>) {
    forall n | n !in where :: Get(d, n) == Get(d0, n)
  }

  /** The states from number `from` on differ from `d0` at most in `where`. */
  predicate StatesBut(passed: seq<Dir>, from: nat, d0: Dir, where: set<Name>) {
    |passed| <= from || (SameBut(d0, passed[|passed| - 1], where) &&
                         StatesBut(passed[..|passed| - 1], from, d0, where))
  }

  lemma {:induction false} StatesButJoin(early: seq<Dir>, late: seq<Dir>, from: nat, d0: Dir, d1: Dir, where: set<Name>)
    requires early <= late && from <= |early| && StatesBut(early, from, d0, where)
    requires SameBut(d0, d1, where) && StatesBut(late, |early|, d1, where)
    ensures StatesBut(late, from, d0, where)
    decreases |late|
  {
    if |late| > |early| {
      StatesButJoin(early, late[..|late| - 1], from, d0, d1, where);
    } else {
      assert early == late;
    }
  }

  class FileSystem {
    var live: Dir
    /** Every directory state since the last start, oldest first; the last one is `live`. */
    var passed: seq<Dir>
    /** The states that the last successful sync of each directory made permanent. */
    var localDurable: nat
    var updateDurable: nat
    /** Whether operations other than `unlink` may fail. */
    const faulty: bool
    /** Whether `unlink` of an existing file may fail, other than `pending.json`; and whether that of `pending.json`
        may. */
    const unlinkFails: bool
    const recordSticks: bool

    ghost predicate Valid()
      reads this
    {
      localDurable < |passed| && updateDurable < |passed| && passed[|passed| - 1] == live
    }

    function Durable(p: Place): nat
      reads this
    {
      if p == Local then localDurable else updateDurable
    }

    constructor (d: Dir, faulty: bool, unlinkFails: bool, recordSticks: bool)
      ensures Valid() && live == d && passed == [d] && this.faulty == faulty
      ensures this.unlinkFails == unlinkFails && this.recordSticks == recordSticks
    {
      live, passed, localDurable, updateDurable := d, [d], 0, 0;
      this.faulty, this.unlinkFails, this.recordSticks := faulty, unlinkFails, recordSticks;
    }

    /** One step that leaves the directories as `d`. */
    ghost predicate Became(before: seq<Dir>, d: Dir)
      reads this
    {
      live == d && passed == before + [d]
    }

    method Fault() returns (fault: bool)
      ensures fault ==> faulty
    {
      fault := *;
      fault := fault && faulty;
    }

    predicate MaySurvive(n: Name) {
      if n == Pending then recordSticks else unlinkFails
    }

    method Unlink(n: Name) returns (ok: bool)
      requires Valid()
      modifies `live, `passed
      ensures Valid()
      ensures ok ==> n in old(live) && Became(old(passed), old(live) - {n})
      ensures !ok ==> live == old(live) && passed == old(passed) && (n in live ==> MaySurvive(n))
    {
      var fault: bool := *;
      ok := n in live && !(fault && MaySurvive(n));
      if ok {
        live := live - {n};
        passed := passed + [live];
      }
    }

    /** `open` with `O_CREAT | O_EXCL`. */
    method Create(n: Name) returns (ok: bool)
      requires Valid()
      modifies `live, `passed
      ensures Valid()
      ensures ok ==> n !in old(live) && Became(old(passed), old(live)[n := File([], false)])
      ensures !ok ==> live == old(live) && passed == old(passed) && (n in live || faulty)
    {
      var fault := Fault();
      ok := n !in live && !fault;
      if ok {
        live := live[n := File([], false)];
        passed := passed + [live];
      }
    }

    /** One `write`, which may take fewer bytes than offered. */
    method Write(n: Name, bytes: seq<Byte>) returns (written: nat)
      requires Valid() && n in live && bytes != []
      modifies `live, `passed
      ensures Valid()
      ensures written <= |bytes| && (written == 0 ==> faulty && live == old(live) && passed == old(passed))
      ensures written > 0 ==>
        Became(old(passed), old(live)[n := File(old(live)[n].data + bytes[..written], false)])
    {
      var fault := Fault();
      if fault {
        return 0;
      }
      written := *;
      if !(1 <= written <= |bytes|) {
        written := |bytes|;
      }
      live := live[n := File(live[n].data + bytes[..written], false)];
      passed := passed + [live];
    }

    method Sync(n: Name) returns (ok: bool)
      requires Valid() && n in live
      modifies `live, `passed
      ensures Valid()
      ensures ok ==> Became(old(passed), old(live)[n := old(live)[n].(synced := true)])
      ensures !ok ==> faulty && live == old(live) && passed == old(passed)
    {
      var fault := Fault();
      ok := !fault;
      if ok {
        live := live[n := live[n].(synced := true)];
        passed := passed + [live];
      }
    }

    method Rename(from: Name, to: Name) returns (ok: bool)
      requires Valid() && from in live && from != to && Where(from) == Where(to)
      modifies `live, `passed
      ensures Valid()
      ensures ok ==> Became(old(passed), old(live)[to := old(live)[from]] - {from})
      ensures !ok ==> faulty && live == old(live) && passed == old(passed)
    {
      var fault := Fault();
      ok := !fault;
      if ok {
        live := live[to := live[from]] - {from};
        passed := passed + [live];
      }
    }

    method SyncDirectory(place: Place) returns (ok: bool)
      requires Valid()
      modifies `localDurable, `updateDurable
      ensures Valid()
      ensures place == Local ==> updateDurable == old(updateDurable)
      ensures place == Update ==> localDurable == old(localDurable)
      ensures ok ==> Durable(place) == |passed| - 1
      ensures !ok ==> faulty && Durable(place) == old(Durable(place))
    {
      var fault := Fault();
      ok := !fault;
      if ok {
        if place == Local {
          localDurable := |passed| - 1;
        } else {
          updateDurable := |passed| - 1;
        }
      }
    }

    /** Writing everything, in however many pieces the system takes. */
    method WriteAll(n: Name, bytes: seq<Byte>) returns (ok: bool)
      requires Valid() && n in live && !live[n].synced
      modifies `live, `passed
      ensures Valid() && old(passed) <= passed
      ensures StatesBut(passed, |old(passed)|, old(live), {n})
      ensures SameBut(old(live), live, {n}) && n in live && !live[n].synced
      ensures ok ==> live[n].data == old(live)[n].data + bytes
      ensures !faulty ==> ok
    {
      var offset := 0;
      while offset < |bytes|
        invariant Valid() && old(passed) <= passed && 0 <= offset <= |bytes|
        invariant StatesBut(passed, |old(passed)|, old(live), {n})
        invariant SameBut(old(live), live, {n}) && n in live
        invariant live[n] == File(old(live)[n].data + bytes[..offset], false)
      {
        var written := Write(n, bytes[offset..]);
        if written == 0 {
          return false;
        }
        assert bytes[..offset + written] == bytes[..offset] + bytes[offset..][..written];
        offset := offset + written;
      }
      assert bytes[..offset] == bytes;
      ok := true;
    }

    /** A power cut: each directory is back up with some state not older than its last sync, unsynced files torn. */
    method PowerCut() returns (ghost local: nat, ghost update: nat)
      requires Valid()
      modifies this
      ensures Valid() && passed == [live]
      ensures old(localDurable) <= local < |old(passed)| && old(updateDurable) <= update < |old(passed)|
      ensures Torn(Mixed(old(passed)[local], old(passed)[update]), live)
    {
      var kept := PickState(localDurable);
      var keptUpdate := PickState(updateDurable);
      local, update := kept, keptUpdate;
      var mixed := Mixed(passed[kept], passed[keptUpdate]);
      var found: Dir := *;
      if !Torn(mixed, found) {
        found := mixed;
      }
      live, passed, localDurable, updateDurable := found, [found], 0, 0;
    }

    method PickState(durable: nat) returns (k: nat)
      requires durable < |passed|
      ensures durable <= k < |passed|
    {
      k := *;
      if !(durable <= k < |passed|) {
        k := |passed| - 1;
      }
    }
  }
}
