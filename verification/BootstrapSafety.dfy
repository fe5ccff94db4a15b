/** What the payload keeps, whatever fails and whenever the power goes; and exactly when its failure handler does
    not. */
module BootstrapSafety {
  import opened Wrappers
  import opened Bytes
  import opened Bootstrap

  // ---------------------------------------------------------------- safe states

  /** A startup script that names only slots with OEM firmware `g`. While an OTA's choice stands, the other slot
      holds it. A script written in part names nothing. */
  predicate Harmless(g: Image, d: Device, f: StartFile) {
    match f
    case OtaStart(t) => ImageOf(d, Other(t)) == g
    case Garbage => true
    case _ => ImageOf(d, Starts(f).value) == g
  }

  predicate HarmlessIndex(g: Image, d: Device, i: IndexFile) {
    i.Selects? ==> ImageOf(d, i.slot) == g
  }

  predicate Safe(g: Image, d: Device) {
    Harmless(g, d, d.app) && HarmlessIndex(g, d, d.index) && (d.ota1 == g || d.ota2 == g)
  }

  predicate AllSafe(g: Image, passed: seq<Device>) {
    passed == [] || (Safe(g, passed[|passed| - 1]) && AllSafe(g, passed[..|passed| - 1]))
  }

  /** No startup script written in part was ever in place. */
  predicate Whole(passed: seq<Device>) {
    passed == [] || (!passed[|passed| - 1].app.Garbage? && Whole(passed[..|passed| - 1]))
  }

  /** Slot `s`, the settings and a completed snapshot stay as they are. */
  predicate Keeps(s: Slot, d: Device, d': Device) {
    && ImageOf(d', s) == ImageOf(d, s) && d'.settings == d.settings
    && (Completed(d) ==> d'.snapshot == d.snapshot)
  }

  /** Every step from state number `from` on keeps them. */
  predicate Spared(s: Slot, passed: seq<Device>, from: nat) {
    |passed| <= from || |passed| < 2 ||
    (Keeps(s, passed[|passed| - 2], passed[|passed| - 1]) && Spared(s, passed[..|passed| - 1], from))
  }

  lemma ReachingSafe(g: Image, m: Machine, d: Device)
    requires AllSafe(g, m.passed)
    ensures AllSafe(g, Reaching(m, d).passed) <==> Safe(g, d)
  {
    assert (m.passed + [d])[..|m.passed|] == m.passed;
  }

  lemma ReachingWhole(m: Machine, d: Device)
    requires Whole(m.passed)
    ensures Whole(Reaching(m, d).passed) <==> !d.app.Garbage?
  {
    assert (m.passed + [d])[..|m.passed|] == m.passed;
  }

  lemma ReachingSpared(s: Slot, m: Machine, d: Device, from: nat)
    requires Valid(m) && Spared(s, m.passed, from) && Keeps(s, m.d, d)
    ensures Spared(s, Reaching(m, d).passed, from)
  {
    assert (m.passed + [d])[..|m.passed|] == m.passed;
  }

  lemma {:induction false} SafePrefix(g: Image, early: seq<Device>, late: seq<Device>)
    requires early <= late && AllSafe(g, late)
    ensures AllSafe(g, early)
    decreases |late|
  {
    if early != late { SafePrefix(g, early, late[..|late| - 1]); }
  }

  lemma {:induction false} WholePrefix(early: seq<Device>, late: seq<Device>)
    requires early <= late && Whole(late)
    ensures Whole(early)
    decreases |late|
  {
    if early != late { WholePrefix(early, late[..|late| - 1]); }
  }

  lemma {:induction false} SafeAt(g: Image, passed: seq<Device>, k: nat)
    requires AllSafe(g, passed) && k < |passed|
    ensures Safe(g, passed[k])
  {
    if k < |passed| - 1 { SafeAt(g, passed[..|passed| - 1], k); }
  }

  lemma {:induction false} WholeAt(passed: seq<Device>, k: nat)
    requires Whole(passed) && k < |passed|
    ensures !passed[k].app.Garbage?
  {
    if k < |passed| - 1 { WholeAt(passed[..|passed| - 1], k); }
  }

  /** Between any two states from number `from - 1` on. */
  lemma {:induction false} SparedBetween(s: Slot, passed: seq<Device>, from: nat, i: nat, k: nat)
    requires Spared(s, passed, from) && from <= i + 1 && i <= k < |passed|
    ensures Keeps(s, passed[i], passed[k])
    decreases |passed|
  {
    if i < k {
      var init := passed[..|passed| - 1];
      if k < |passed| - 1 {
        SparedBetween(s, init, from, i, k);
      } else {
        SparedBetween(s, init, from, i, k - 1);
      }
    }
  }

  // ---------------------------------------------------------------- what the script knows while nothing has failed
  //
  // The commands are checked one by one against what the successful ones before them guarantee.

  datatype Saving = Untouched | Cleared | Copied | Marked | Saved

  datatype Know = Know(start: Option<StartFile>, index: Option<Slot>, app: Option<StartFile>, selected: Option<Slot>,
                       compared: bool, restored: bool, saving: Saving, synced: bool)

  const NOTHING := Know(None, None, None, None, false, false, Untouched, false)

  /** `open` says that there was no completed snapshot to begin with. */
  ghost predicate Knows(k: Know, t: Slot, g: Image, open: bool, settings: seq<Byte>, m: Machine) {
    Valid(m) && Holds(k, t, g, open, settings, m.d) && (k.synced ==> m.durable == |m.passed| - 1)
  }

  ghost predicate Holds(k: Know, t: Slot, g: Image, open: bool, settings: seq<Byte>, d: Device) {
    && ImageOf(d, Other(t)) == g && d.settings == settings
    && (k.start.Some? ==> d.appNew == k.start)
    && (k.index.Some? ==> d.indexNew == Some(Selects(k.index.value)))
    && (k.app.Some? ==> d.app == k.app.value)
    && (k.selected.Some? ==> d.index == Selects(k.selected.value))
    && (k.compared ==> d.restore == Some(g))
    && (k.restored ==> ImageOf(d, t) == g)
    && match k.saving
       case Untouched => open ==> !Completed(d)
       case Cleared => d.snapshot.None?
       case Copied => d.snapshot.None? && d.snapshotNew == Some(Snapshot(settings, false))
       case Marked => d.snapshot.None? && d.snapshotNew == Some(Snapshot(settings, true))
       case Saved => d.snapshot == Some(Snapshot(settings, true))
  }

  function Learn(c: Command, k: Know): Know {
    match c
    case Check => k
    case CompareCopy(_) => k.(compared := true)
    case Flush => k.(synced := true)
    case WriteStart(f) => k.(start := Some(f), synced := false)
    case InstallStart => k.(app := k.start, start := None, synced := false)
    case WriteIndex(slot) => k.(index := Some(slot), synced := false)
    case InstallIndex => k.(selected := k.index, index := None, synced := false)
    case DropSnapshot => k.(saving := Cleared, synced := false)
    case CopySnapshot => k.(saving := Copied, synced := false)
    case MarkSnapshot => k.(saving := Marked, synced := false)
    case InstallSnapshot => k.(saving := Saved, synced := false)
    case CopyDonor(_) => k.(compared := false, synced := false)
    case InstallCopy(_) => k.(restored := true, compared := false, synced := false)
  }

  /** Whether `c` is harmless, whatever becomes of it, once that much is known. */
  predicate Allowed(c: Command, k: Know, t: Slot, open: bool) {
    match c
    case InstallStart =>
      && k.start.Some? && (k.start.value.SafeStart? || k.start.value.ProductionStart?)
      && (Starts(k.start.value) == Some(Other(t)) || k.restored)
    case InstallIndex => k.index.Some? && (k.index.value == Other(t) || k.restored)
    case DropSnapshot => open && k.saving == Untouched
    case CopySnapshot => k.saving == Cleared
    case MarkSnapshot => k.saving == Copied
    case InstallSnapshot => k.saving == Marked
    case CopyDonor(target) => target == t
    case CompareCopy(target) => target == t
    case InstallCopy(target) => target == t && k.compared
    case _ => true
  }

  predicate Checked(cs: seq<Command>, k: Know, t: Slot, open: bool)
    decreases |cs|
  {
    cs == [] || (Allowed(cs[0], k, t, open) && Checked(cs[1..], Learn(cs[0], k), t, open))
  }

  function Learned(cs: seq<Command>, k: Know): Know
    decreases |cs|
  {
    if cs == [] then k else Learned(cs[1..], Learn(cs[0], k))
  }

  lemma {:induction false} CheckedBoth(a: seq<Command>, b: seq<Command>, k: Know, t: Slot, open: bool)
    requires Checked(a, k, t, open) && Checked(b, Learned(a, k), t, open)
    ensures Checked(a + b, k, t, open) && Learned(a + b, k) == Learned(b, Learned(a, k))
    decreases |a|
  {
    if a == [] {
      assert a + b == b;
    } else {
      CheckedBoth(a[1..], b, Learn(a[0], k), t, open);
      assert (a + b)[1..] == a[1..] + b;
    }
  }

  // ---------------------------------------------------------------- one command

  /** The device while command `c` is at work. */
  function Midway(c: Command, d: Device, fate: Fate): Device {
    var half := Half(c, d, fate.data);
    if fate.end == Refuses || half.None? then d else half.value
  }

  /** A step that spares the donor, is safe, puts no half-written script in place and keeps a restored slot. */
  ghost predicate Fine(t: Slot, g: Image, d: Device, d': Device) {
    && Keeps(Other(t), d, d') && (Safe(g, d) ==> Safe(g, d')) && (d'.app.Garbage? ==> d.app.Garbage?)
    && (ImageOf(d, t) == g ==> ImageOf(d', t) == g)
  }

  lemma MidwayFine(c: Command, k: Know, t: Slot, g: Image, open: bool, settings: seq<Byte>, d: Device, fate: Fate)
    requires Holds(k, t, g, open, settings, d) && Allowed(c, k, t, open)
    ensures Fine(t, g, d, Midway(c, d, fate))
  {
  }

  lemma DoneFine(c: Command, k: Know, t: Slot, g: Image, open: bool, settings: seq<Byte>, d: Device, fate: Fate)
    requires Holds(k, t, g, open, settings, d) && Allowed(c, k, t, open) && Possible(c, Midway(c, d, fate))
    ensures Fine(t, g, Midway(c, d, fate), Done(c, Midway(c, d, fate)))
  {
  }

  lemma DoneLearns(c: Command, k: Know, t: Slot, g: Image, open: bool, settings: seq<Byte>, d: Device, fate: Fate)
    requires Holds(k, t, g, open, settings, d) && Allowed(c, k, t, open) && Possible(c, Midway(c, d, fate))
    requires fate.end == Works
    ensures Holds(Learn(c, k), t, g, open, settings, Done(c, Midway(c, d, fate)))
  {
  }

  /** Where a command leads: to its midway state, if it has one, and then to its end, if it gets there. */
  lemma DoShape(c: Command, m: Machine, fates: nat -> Fate)
    requires Valid(m) && m.on
    ensures var fate := fates(m.clock);
      var b := if Half(c, m.d, fate.data).Some? && fate.end != Refuses then Reaching(m, Midway(c, m.d, fate)) else m;
      var r := Do(c, m, fates);
      && b.d == Midway(c, m.d, fate)
      && ((r.d == b.d && r.passed == b.passed)
          || (Possible(c, b.d) && r.d == Done(c, b.d) && r.passed == Reaching(b, r.d).passed))
      && (Succeeds(c, m, fates) ==>
            && Possible(c, b.d) && r.d == Done(c, b.d)
            && (Learn(c, NOTHING.(synced := true)).synced ==> r.passed == m.passed)
            && (c.Flush? ==> r.durable == |r.passed| - 1) && (!c.Flush? ==> r.durable == m.durable))
  {
  }

  lemma CommandSpares(c: Command, k: Know, t: Slot, g: Image, open: bool, settings: seq<Byte>, m: Machine,
                      fates: nat -> Fate, from: nat)
    requires Knows(k, t, g, open, settings, m) && Allowed(c, k, t, open) && Spared(Other(t), m.passed, from)
    ensures var r := Do(c, m, fates);
      && Spared(Other(t), r.passed, from) && ImageOf(r.d, Other(t)) == g && r.d.settings == settings
      && (ImageOf(m.d, t) == g ==> ImageOf(r.d, t) == g)
  {
    if m.on {
      var fate := fates(m.clock);
      var mid := Midway(c, m.d, fate);
      DoShape(c, m, fates);
      MidwayFine(c, k, t, g, open, settings, m.d, fate);
      ReachingSpared(Other(t), m, mid, from);
      if Possible(c, mid) {
        DoneFine(c, k, t, g, open, settings, m.d, fate);
        ReachingSpared(Other(t), Reaching(m, mid), Done(c, mid), from);
        if mid == m.d { ReachingSpared(Other(t), m, Done(c, mid), from); }
      }
    }
  }

  lemma CommandSafe(c: Command, k: Know, t: Slot, g: Image, open: bool, settings: seq<Byte>, m: Machine,
                    fates: nat -> Fate)
    requires Knows(k, t, g, open, settings, m) && Allowed(c, k, t, open) && AllSafe(g, m.passed)
    ensures AllSafe(g, Do(c, m, fates).passed)
  {
    if m.on {
      var fate := fates(m.clock);
      var mid := Midway(c, m.d, fate);
      DoShape(c, m, fates);
      MidwayFine(c, k, t, g, open, settings, m.d, fate);
      ReachingSafe(g, m, mid);
      if Possible(c, mid) {
        DoneFine(c, k, t, g, open, settings, m.d, fate);
        ReachingSafe(g, Reaching(m, mid), Done(c, mid));
        ReachingSafe(g, m, Done(c, mid));
      }
    }
  }

  lemma CommandWhole(c: Command, k: Know, t: Slot, g: Image, open: bool, settings: seq<Byte>, m: Machine,
                     fates: nat -> Fate)
    requires Knows(k, t, g, open, settings, m) && Allowed(c, k, t, open) && Whole(m.passed)
    ensures Whole(Do(c, m, fates).passed)
  {
    if m.on {
      var fate := fates(m.clock);
      var mid := Midway(c, m.d, fate);
      DoShape(c, m, fates);
      MidwayFine(c, k, t, g, open, settings, m.d, fate);
      ReachingWhole(m, mid);
      if Possible(c, mid) {
        DoneFine(c, k, t, g, open, settings, m.d, fate);
        ReachingWhole(Reaching(m, mid), Done(c, mid));
        ReachingWhole(m, Done(c, mid));
      }
    }
  }

  lemma CommandLearns(c: Command, k: Know, t: Slot, g: Image, open: bool, settings: seq<Byte>, m: Machine,
                      fates: nat -> Fate)
    requires Knows(k, t, g, open, settings, m) && Allowed(c, k, t, open) && Succeeds(c, m, fates)
    ensures Knows(Learn(c, k), t, g, open, settings, Do(c, m, fates))
  {
    DoShape(c, m, fates);
    DoneLearns(c, k, t, g, open, settings, m.d, fates(m.clock));
  }

  // ---------------------------------------------------------------- a checked script

  lemma {:induction false} StrictSpares(cs: seq<Command>, k: Know, t: Slot, g: Image, open: bool, settings: seq<Byte>,
                                        m: Machine, fates: nat -> Fate, from: nat)
    requires Knows(k, t, g, open, settings, m) && Checked(cs, k, t, open) && Spared(Other(t), m.passed, from)
    ensures var (r, ok) := Strict(cs, m, fates);
      && Spared(Other(t), r.passed, from) && ImageOf(r.d, Other(t)) == g && r.d.settings == settings
      && (ImageOf(m.d, t) == g ==> ImageOf(r.d, t) == g)
      && (ok ==> Knows(Learned(cs, k), t, g, open, settings, r))
    decreases |cs|
  {
    if cs != [] {
      CommandSpares(cs[0], k, t, g, open, settings, m, fates, from);
      if Succeeds(cs[0], m, fates) {
        CommandLearns(cs[0], k, t, g, open, settings, m, fates);
        StrictSpares(cs[1..], Learn(cs[0], k), t, g, open, settings, Do(cs[0], m, fates), fates, from);
      }
    }
  }

  lemma {:induction false} StrictSafe(cs: seq<Command>, k: Know, t: Slot, g: Image, open: bool, settings: seq<Byte>,
                                      m: Machine, fates: nat -> Fate)
    requires Knows(k, t, g, open, settings, m) && Checked(cs, k, t, open) && AllSafe(g, m.passed)
    ensures AllSafe(g, Strict(cs, m, fates).0.passed)
    decreases |cs|
  {
    if cs != [] {
      CommandSafe(cs[0], k, t, g, open, settings, m, fates);
      if Succeeds(cs[0], m, fates) {
        CommandLearns(cs[0], k, t, g, open, settings, m, fates);
        StrictSafe(cs[1..], Learn(cs[0], k), t, g, open, settings, Do(cs[0], m, fates), fates);
      }
    }
  }

  lemma {:induction false} StrictWhole(cs: seq<Command>, k: Know, t: Slot, g: Image, open: bool, settings: seq<Byte>,
                                       m: Machine, fates: nat -> Fate)
    requires Knows(k, t, g, open, settings, m) && Checked(cs, k, t, open) && Whole(m.passed)
    ensures Whole(Strict(cs, m, fates).0.passed)
    decreases |cs|
  {
    if cs != [] {
      CommandWhole(cs[0], k, t, g, open, settings, m, fates);
      if Succeeds(cs[0], m, fates) {
        CommandLearns(cs[0], k, t, g, open, settings, m, fates);
        StrictWhole(cs[1..], Learn(cs[0], k), t, g, open, settings, Do(cs[0], m, fates), fates);
      }
    }
  }

  // ---------------------------------------------------------------- the script passes the check

  lemma SelectChecked(f: StartFile, slot: Slot, k: Know, t: Slot, open: bool)
    requires (f.SafeStart? || f.ProductionStart?) && Starts(f) == Some(slot) && (slot == Other(t) || k.restored)
    ensures Checked(Select(f, slot), k, t, open)
    ensures Learned(Select(f, slot), k)
            == k.(start := None, index := None, app := Some(f), selected := Some(slot), synced := true)
  {
    var k1 := k.(start := Some(f), synced := false);
    var k2 := k.(start := None, app := Some(f), synced := false);
    assert [WriteStart(f), Check, InstallStart][1..] == [Check, InstallStart];
    assert [Check, InstallStart][1..] == [InstallStart];
    assert Checked([InstallStart], k1, t, open) && Learned([InstallStart], k1) == k2;
    assert Checked(SelectStart(f), k, t, open) && Learned(SelectStart(f), k) == k2;
    SelectIndexChecked(slot, k2, t, open);
    CheckedBoth(SelectStart(f), SelectIndex(slot), k, t, open);
  }

  lemma SelectIndexChecked(slot: Slot, k: Know, t: Slot, open: bool)
    requires slot == Other(t) || k.restored
    ensures Checked(SelectIndex(slot), k, t, open)
    ensures Learned(SelectIndex(slot), k) == k.(index := None, selected := Some(slot), synced := true)
  {
    var k1 := k.(index := Some(slot), synced := false);
    assert [Check, WriteIndex(slot), InstallIndex, Flush][1..] == [WriteIndex(slot), InstallIndex, Flush];
    assert [WriteIndex(slot), InstallIndex, Flush][1..] == [InstallIndex, Flush];
    assert [InstallIndex, Flush][1..] == [Flush];
    assert Checked([InstallIndex, Flush], k1, t, open);
  }

  lemma SnapshotChecked(d: Device, k: Know, t: Slot)
    requires k.saving == Untouched
    ensures Checked(TakeSnapshot(d), k, t, !Completed(d))
    ensures Completed(d) ==> Learned(TakeSnapshot(d), k) == k
    ensures !Completed(d) ==> Learned(TakeSnapshot(d), k) == k.(saving := Saved, synced := true)
  {
    if !Completed(d) {
      var cs := [DropSnapshot, CopySnapshot, MarkSnapshot, InstallSnapshot, Flush];
      var k3 := k.(saving := Marked, synced := false);
      assert cs[1..] == [CopySnapshot, MarkSnapshot, InstallSnapshot, Flush];
      assert cs[1..][1..] == [MarkSnapshot, InstallSnapshot, Flush];
      assert cs[1..][1..][1..] == [InstallSnapshot, Flush];
      assert [InstallSnapshot, Flush][1..] == [Flush];
      assert Checked([InstallSnapshot, Flush], k3, t, true);
      assert Learned([InstallSnapshot, Flush], k3) == k.(saving := Saved, synced := true);
      assert Checked([MarkSnapshot, InstallSnapshot, Flush], k.(saving := Copied, synced := false), t, true);
    }
  }

  lemma RestoreChecked(k: Know, t: Slot, open: bool)
    ensures Checked(RestoreSlot(t), k, t, open)
    ensures Learned(RestoreSlot(t), k) == k.(compared := false, restored := true, synced := true)
  {
    var cs := RestoreSlot(t);
    var k2 := k.(compared := true, synced := false);
    assert cs[1..] == [CompareCopy(t), Check, InstallCopy(t), Flush];
    assert cs[1..][1..] == [Check, InstallCopy(t), Flush];
    assert cs[1..][1..][1..] == [InstallCopy(t), Flush];
    assert [InstallCopy(t), Flush][1..] == [Flush];
    assert Checked([InstallCopy(t), Flush], k2, t, open);
    assert Learned([Flush], Learn(InstallCopy(t), k2)) == k.(compared := false, restored := true, synced := true);
    assert Checked([Check, InstallCopy(t), Flush], k2, t, open);
  }

  lemma CheckChecked(k: Know, t: Slot, open: bool)
    ensures Checked([Check], k, t, open) && Learned([Check], k) == k
  {
  }

  lemma RestoringChecked(t: Slot, d: Device)
    ensures Checked(Restoring(t, d), NOTHING, t, !Completed(d))
    ensures var k := Learned(Restoring(t, d), NOTHING); k.restored && (!Completed(d) ==> k.saving == Saved)
  {
    var open := !Completed(d);
    var donor := Select(SafeStart(Other(t)), Other(t));
    var a := [Check] + TakeSnapshot(d);
    CheckChecked(NOTHING, t, open);
    SnapshotChecked(d, NOTHING, t);
    CheckedBoth([Check], TakeSnapshot(d), NOTHING, t, open);
    var k := Learned(a, NOTHING);
    CheckChecked(k, t, open);
    CheckedBoth(a, [Check], NOTHING, t, open);
    SelectChecked(SafeStart(Other(t)), Other(t), k, t, open);
    CheckedBoth(a + [Check], donor, NOTHING, t, open);
    var k1 := Learned(donor, k);
    CheckChecked(k1, t, open);
    CheckedBoth(a + [Check] + donor, [Check], NOTHING, t, open);
    RestoreChecked(k1, t, open);
    CheckedBoth(a + [Check] + donor + [Check], RestoreSlot(t), NOTHING, t, open);
  }

  lemma FinishingChecked(k: Know, t: Slot, open: bool)
    requires k.restored
    ensures Checked(Finishing(), k, t, open)
    ensures Learned(Finishing(), k)
            == k.(start := None, index := None, app := Some(ProductionStart), selected := Some(Ota1), synced := true)
  {
    SelectChecked(ProductionStart, Ota1, k, t, open);
    CheckChecked(Learned(Select(ProductionStart, Ota1), k), t, open);
    CheckedBoth(Select(ProductionStart, Ota1), [Check], k, t, open);
  }

  // ---------------------------------------------------------------- the script up to its first failure

  lemma BodySpares(t: Slot, m: Machine, fates: nat -> Fate, from: nat)
    requires Valid(m) && Spared(Other(t), m.passed, from)
    ensures var (r, safe, finished) := Body(t, m, fates);
      var g := ImageOf(m.d, Other(t));
      && Valid(r) && Spared(Other(t), r.passed, from) && r.d.settings == m.d.settings
      && ImageOf(r.d, Other(t)) == g && ImageOf(r.d, safe) == g
      && (finished ==>
            && r.d.ota1 == g && r.d.ota2 == g && r.d.app == ProductionStart && r.d.index == Selects(Ota1)
            && r.durable == |r.passed| - 1
            && (!Completed(m.d) ==> r.d.snapshot == Some(Snapshot(m.d.settings, true))))
  {
    var g := ImageOf(m.d, Other(t));
    var open := !Completed(m.d);
    RestoringChecked(t, m.d);
    StrictSpares(Restoring(t, m.d), NOTHING, t, g, open, m.d.settings, m, fates, from);
    var (m1, restored) := Strict(Restoring(t, m.d), m, fates);
    if restored {
      var k := Learned(Restoring(t, m.d), NOTHING);
      FinishingChecked(k, t, open);
      StrictSpares(Finishing(), k, t, g, open, m.d.settings, m1, fates, from);
    }
  }

  lemma BodySafe(t: Slot, g: Image, m: Machine, fates: nat -> Fate)
    requires Valid(m) && ImageOf(m.d, Other(t)) == g && AllSafe(g, m.passed)
    ensures AllSafe(g, Body(t, m, fates).0.passed)
  {
    var open := !Completed(m.d);
    RestoringChecked(t, m.d);
    StrictSafe(Restoring(t, m.d), NOTHING, t, g, open, m.d.settings, m, fates);
    StrictSpares(Restoring(t, m.d), NOTHING, t, g, open, m.d.settings, m, fates, |m.passed|);
    var (m1, restored) := Strict(Restoring(t, m.d), m, fates);
    if restored {
      var k := Learned(Restoring(t, m.d), NOTHING);
      FinishingChecked(k, t, open);
      StrictSafe(Finishing(), k, t, g, open, m.d.settings, m1, fates);
    }
  }

  lemma BodyWhole(t: Slot, m: Machine, fates: nat -> Fate)
    requires Valid(m) && Whole(m.passed)
    ensures Whole(Body(t, m, fates).0.passed)
  {
    var g := ImageOf(m.d, Other(t));
    var open := !Completed(m.d);
    RestoringChecked(t, m.d);
    StrictWhole(Restoring(t, m.d), NOTHING, t, g, open, m.d.settings, m, fates);
    StrictSpares(Restoring(t, m.d), NOTHING, t, g, open, m.d.settings, m, fates, |m.passed|);
    var (m1, restored) := Strict(Restoring(t, m.d), m, fates);
    if restored {
      var k := Learned(Restoring(t, m.d), NOTHING);
      FinishingChecked(k, t, open);
      StrictWhole(Finishing(), k, t, g, open, m.d.settings, m1, fates);
    }
  }
}
