/** The failure handler, which goes on after a failed command, and whole lives of a feeder: exactly when they are
    safe, and exactly when a half-written startup script is put in place. */
module BootstrapRuns {
  import opened Wrappers
  import opened Bytes
  import opened Bootstrap
  import opened BootstrapSafety

  // ---------------------------------------------------------------- the failure handler

  predicate Moves(fate: Fate) {
    fate.end == Works || fate.end == Dies
  }

  /** The power is still on after `n` commands. */
  predicate Alive(m: Machine, fates: nat -> Fate, n: nat) {
    if n == 0 then m.on else Alive(m, fates, n - 1) && fates(m.clock + n - 1).end != Dies
  }

  /** A leftover startup script that names another slot is moved into place: `cat >` fails before it truncates the
      file, and `mv` works. */
  predicate InstallsStaleStart(g: Image, m: Machine, fates: nat -> Fate) {
    && m.d.appNew.Some? && !Harmless(g, m.d, m.d.appNew.value)
    && Alive(m, fates, 2) && fates(m.clock).end == Refuses && Moves(fates(m.clock + 2))
  }

  /** The same with a leftover slot index. */
  predicate InstallsStaleIndex(g: Image, m: Machine, fates: nat -> Fate) {
    && m.d.indexNew.Some? && !HarmlessIndex(g, m.d, m.d.indexNew.value)
    && Alive(m, fates, 5) && fates(m.clock + 4).end == Refuses && Moves(fates(m.clock + 5))
  }

  predicate InstallsStale(g: Image, m: Machine, fates: nat -> Fate) {
    InstallsStaleStart(g, m, fates) || InstallsStaleIndex(g, m, fates)
  }

  /** A half-written startup script is moved into place: `cat >` fails half-way, or leaves one from before as it
      is, and `mv` works. */
  predicate InstallsGarbage(m: Machine, fates: nat -> Fate) {
    && Alive(m, fates, 2) && Moves(fates(m.clock + 2))
    && (fates(m.clock).end == Breaks || (fates(m.clock).end == Refuses && m.d.appNew == Some(Garbage)))
  }

  lemma LenientThree(a: Command, b: Command, c: Command, m: Machine, fates: nat -> Fate)
    ensures Lenient([a, b, c], m, fates) == Do(c, Do(b, Do(a, m, fates), fates), fates)
  {
    assert [a, b, c][1..] == [b, c] && [b, c][1..] == [c] && [c][1..] == [];
    assert Lenient([c], Do(b, Do(a, m, fates), fates), fates) == Do(c, Do(b, Do(a, m, fates), fates), fates);
  }

  lemma {:induction false} LenientBoth(a: seq<Command>, b: seq<Command>, m: Machine, fates: nat -> Fate)
    ensures Lenient(a + b, m, fates) == Lenient(b, Lenient(a, m, fates), fates)
    decreases |a|
  {
    if a == [] {
      assert a + b == b;
    } else {
      LenientBoth(a[1..], b, Do(a[0], m, fates), fates);
      assert (a + b)[1..] == a[1..] + b;
    }
  }

  /** `r` is `m` after a new startup script was written, or not. */
  predicate AfterWriteStart(f: StartFile, m: Machine, r: Machine, fates: nat -> Fate) {
    var half := m.d.(appNew := Some(Garbage));
    var full := m.d.(appNew := Some(f));
    if !m.on then r == m
    else
      && r.clock == m.clock + 1 && r.on == (fates(m.clock).end != Dies)
      && match fates(m.clock).end
         case Refuses => r.d == m.d && r.passed == m.passed
         case Breaks => r.d == half && r.passed == m.passed + [half]
         case _ => r.d == full && r.passed == m.passed + [half] + [full]
  }

  predicate AfterWriteIndex(slot: Slot, m: Machine, r: Machine, fates: nat -> Fate) {
    var half := m.d.(indexNew := Some(Torn));
    var full := m.d.(indexNew := Some(Selects(slot)));
    if !m.on then r == m
    else
      && r.clock == m.clock + 1 && r.on == (fates(m.clock).end != Dies)
      && match fates(m.clock).end
         case Refuses => r.d == m.d && r.passed == m.passed
         case Breaks => r.d == half && r.passed == m.passed + [half]
         case _ => r.d == full && r.passed == m.passed + [half] + [full]
  }

  lemma WriteStartDone(f: StartFile, m: Machine, fates: nat -> Fate)
    requires Valid(m)
    ensures Valid(Do(WriteStart(f), m, fates)) && AfterWriteStart(f, m, Do(WriteStart(f), m, fates), fates)
  {
  }

  lemma WriteIndexDone(slot: Slot, m: Machine, fates: nat -> Fate)
    requires Valid(m)
    ensures Valid(Do(WriteIndex(slot), m, fates)) && AfterWriteIndex(slot, m, Do(WriteIndex(slot), m, fates), fates)
  {
  }

  /** `r` is `m` after a command that changes nothing. */
  predicate AfterIdle(m: Machine, r: Machine, fates: nat -> Fate) {
    && r.d == m.d && r.passed == m.passed
    && if m.on then r.clock == m.clock + 1 && r.on == (fates(m.clock).end != Dies) else r.clock == m.clock && !r.on
  }

  predicate AfterInstall(m: Machine, r: Machine, fates: nat -> Fate) {
    && (m.on ==> r.clock == m.clock + 1 && r.on == (fates(m.clock).end != Dies)) && (!m.on ==> !r.on)
    && if m.on && Moves(fates(m.clock)) && m.d.appNew.Some?
       then r.d == m.d.(app := m.d.appNew.value, appNew := None) && r.passed == m.passed + [r.d]
       else r.d == m.d && r.passed == m.passed
  }

  predicate AfterInstallIndex(m: Machine, r: Machine, fates: nat -> Fate) {
    && (m.on ==> r.clock == m.clock + 1 && r.on == (fates(m.clock).end != Dies)) && (!m.on ==> !r.on)
    && if m.on && Moves(fates(m.clock)) && m.d.indexNew.Some?
       then r.d == m.d.(index := m.d.indexNew.value, indexNew := None) && r.passed == m.passed + [r.d]
       else r.d == m.d && r.passed == m.passed
  }

  lemma InstallDone(m: Machine, fates: nat -> Fate)
    requires Valid(m)
    ensures Valid(Do(InstallStart, m, fates)) && AfterInstall(m, Do(InstallStart, m, fates), fates)
  {
  }

  lemma InstallIndexDone(m: Machine, fates: nat -> Fate)
    requires Valid(m)
    ensures Valid(Do(InstallIndex, m, fates)) && AfterInstallIndex(m, Do(InstallIndex, m, fates), fates)
  {
  }

  lemma IdleDone(c: Command, m: Machine, fates: nat -> Fate)
    requires Valid(m) && (c.Check? || c.Flush?)
    ensures Valid(Do(c, m, fates)) && AfterIdle(m, Do(c, m, fates), fates)
    ensures c.Flush? && m.on && fates(m.clock).end == Works ==> Do(c, m, fates).durable == |m.passed| - 1
  {
  }

  /** The states that writing passes are as safe as the one before. */
  lemma WriteStartSafe(g: Image, f: StartFile, m: Machine, r: Machine, fates: nat -> Fate)
    requires Valid(m) && AllSafe(g, m.passed) && AfterWriteStart(f, m, r, fates)
    ensures AllSafe(g, r.passed)
  {
    SafeAt(g, m.passed, |m.passed| - 1);
    var half := m.d.(appNew := Some(Garbage));
    ReachingSafe(g, m, half);
    ReachingSafe(g, Reaching(m, half), m.d.(appNew := Some(f)));
  }

  lemma WriteStartWhole(f: StartFile, m: Machine, r: Machine, fates: nat -> Fate)
    requires Valid(m) && Whole(m.passed) && AfterWriteStart(f, m, r, fates)
    ensures Whole(r.passed)
  {
    WholeAt(m.passed, |m.passed| - 1);
    var half := m.d.(appNew := Some(Garbage));
    ReachingWhole(m, half);
    ReachingWhole(Reaching(m, half), m.d.(appNew := Some(f)));
  }

  lemma WriteIndexSafe(g: Image, slot: Slot, m: Machine, r: Machine, fates: nat -> Fate)
    requires Valid(m) && AllSafe(g, m.passed) && AfterWriteIndex(slot, m, r, fates)
    ensures AllSafe(g, r.passed)
  {
    SafeAt(g, m.passed, |m.passed| - 1);
    var half := m.d.(indexNew := Some(Torn));
    ReachingSafe(g, m, half);
    ReachingSafe(g, Reaching(m, half), m.d.(indexNew := Some(Selects(slot))));
  }

  lemma WriteIndexWhole(slot: Slot, m: Machine, r: Machine, fates: nat -> Fate)
    requires Valid(m) && Whole(m.passed) && AfterWriteIndex(slot, m, r, fates)
    ensures Whole(r.passed)
  {
    WholeAt(m.passed, |m.passed| - 1);
    var half := m.d.(indexNew := Some(Torn));
    ReachingWhole(m, half);
    ReachingWhole(Reaching(m, half), m.d.(indexNew := Some(Selects(slot))));
  }

  lemma InstallSafeIff(g: Image, m: Machine, r: Machine, fates: nat -> Fate)
    requires Valid(m) && AllSafe(g, m.passed) && AfterInstall(m, r, fates)
    ensures AllSafe(g, r.passed) <==>
      !(m.on && m.d.appNew.Some? && Moves(fates(m.clock)) && !Harmless(g, m.d, m.d.appNew.value))
  {
    SafeAt(g, m.passed, |m.passed| - 1);
    if m.d.appNew.Some? { ReachingSafe(g, m, m.d.(app := m.d.appNew.value, appNew := None)); }
  }

  lemma InstallWholeIff(m: Machine, r: Machine, fates: nat -> Fate)
    requires Valid(m) && Whole(m.passed) && AfterInstall(m, r, fates)
    ensures Whole(r.passed) <==> !(m.on && m.d.appNew == Some(Garbage) && Moves(fates(m.clock)))
  {
    if m.d.appNew.Some? { ReachingWhole(m, m.d.(app := m.d.appNew.value, appNew := None)); }
  }

  lemma InstallIndexSafeIff(g: Image, m: Machine, r: Machine, fates: nat -> Fate)
    requires Valid(m) && AllSafe(g, m.passed) && AfterInstallIndex(m, r, fates)
    ensures AllSafe(g, r.passed) <==>
      !(m.on && m.d.indexNew.Some? && Moves(fates(m.clock)) && !HarmlessIndex(g, m.d, m.d.indexNew.value))
  {
    SafeAt(g, m.passed, |m.passed| - 1);
    if m.d.indexNew.Some? { ReachingSafe(g, m, m.d.(index := m.d.indexNew.value, indexNew := None)); }
  }

  lemma InstallIndexWhole(m: Machine, r: Machine, fates: nat -> Fate)
    requires Valid(m) && Whole(m.passed) && AfterInstallIndex(m, r, fates)
    ensures Whole(r.passed)
  {
    WholeAt(m.passed, |m.passed| - 1);
    if m.d.indexNew.Some? { ReachingWhole(m, m.d.(index := m.d.indexNew.value, indexNew := None)); }
  }

  lemma AliveSteps(m: Machine, fates: nat -> Fate)
    ensures Alive(m, fates, 1) <==> m.on && fates(m.clock).end != Dies
    ensures Alive(m, fates, 2) <==> Alive(m, fates, 1) && fates(m.clock + 1).end != Dies
    ensures Alive(m, fates, 3) <==> Alive(m, fates, 2) && fates(m.clock + 2).end != Dies
    ensures Alive(m, fates, 4) <==> Alive(m, fates, 3) && fates(m.clock + 3).end != Dies
    ensures Alive(m, fates, 5) <==> Alive(m, fates, 4) && fates(m.clock + 4).end != Dies
  {
  }

  /** `r` is `m` after the three commands that select a startup script, by way of `m1` and `m2`. */
  predicate StartPart(f: StartFile, m: Machine, m1: Machine, m2: Machine, r: Machine, fates: nat -> Fate) {
    && Valid(m) && Valid(m1) && Valid(m2) && Valid(r)
    && AfterWriteStart(f, m, m1, fates) && AfterIdle(m1, m2, fates) && AfterInstall(m2, r, fates)
  }

  lemma StartPartRuns(f: StartFile, m: Machine, fates: nat -> Fate) returns (m1: Machine, m2: Machine)
    requires Valid(m)
    ensures StartPart(f, m, m1, m2, Lenient(SelectStart(f), m, fates), fates)
  {
    LenientThree(WriteStart(f), Check, InstallStart, m, fates);
    m1 := Do(WriteStart(f), m, fates);
    WriteStartDone(f, m, fates);
    m2 := Do(Check, m1, fates);
    IdleDone(Check, m1, fates);
    InstallDone(m2, fates);
  }

  lemma StartPartSafeIff(g: Image, safe: Slot, m: Machine, m1: Machine, m2: Machine, r: Machine, fates: nat -> Fate)
    requires StartPart(SafeStart(safe), m, m1, m2, r, fates) && AllSafe(g, m.passed) && ImageOf(m.d, safe) == g
    ensures AllSafe(g, r.passed) <==> !InstallsStaleStart(g, m, fates)
  {
    AliveSteps(m, fates);
    WriteStartSafe(g, SafeStart(safe), m, m1, fates);
    InstallSafeIff(g, m2, r, fates);
  }

  lemma StartPartWholeIff(safe: Slot, m: Machine, m1: Machine, m2: Machine, r: Machine, fates: nat -> Fate)
    requires StartPart(SafeStart(safe), m, m1, m2, r, fates) && Whole(m.passed)
    ensures Whole(r.passed) <==> !InstallsGarbage(m, fates)
  {
    AliveSteps(m, fates);
    WriteStartWhole(SafeStart(safe), m, m1, fates);
    InstallWholeIff(m2, r, fates);
  }

  lemma StartPartLeaves(f: StartFile, m: Machine, m1: Machine, m2: Machine, r: Machine, fates: nat -> Fate)
    requires StartPart(f, m, m1, m2, r, fates)
    ensures r.d == m.d.(app := r.d.app, appNew := r.d.appNew)
    ensures (r.on <==> Alive(m, fates, 3)) && (r.on ==> r.clock == m.clock + 3)
  {
    AliveSteps(m, fates);
  }

  predicate IndexPart(slot: Slot, m: Machine, m1: Machine, m2: Machine, r: Machine, fates: nat -> Fate) {
    && Valid(m) && Valid(m1) && Valid(m2) && Valid(r)
    && AfterIdle(m, m1, fates) && AfterWriteIndex(slot, m1, m2, fates) && AfterInstallIndex(m2, r, fates)
  }

  /** The last command, `sync`, adds no state. */
  lemma IndexPartRuns(slot: Slot, m: Machine, fates: nat -> Fate) returns (m1: Machine, m2: Machine, m3: Machine)
    requires Valid(m)
    ensures IndexPart(slot, m, m1, m2, m3, fates)
    ensures AfterIdle(m3, Lenient(SelectIndex(slot), m, fates), fates)
    ensures m3.on && fates(m3.clock).end == Works ==>
      Lenient(SelectIndex(slot), m, fates).durable == |m3.passed| - 1
  {
    IndexPartUnfolds(slot, m, fates);
    m1 := Do(Check, m, fates);
    IdleDone(Check, m, fates);
    m2 := Do(WriteIndex(slot), m1, fates);
    WriteIndexDone(slot, m1, fates);
    m3 := Do(InstallIndex, m2, fates);
    InstallIndexDone(m2, fates);
    IdleDone(Flush, m3, fates);
  }

  /** What `InstallsStaleIndex` says, seen from where the index part starts. */
  predicate MovesStaleIndex(g: Image, m: Machine, fates: nat -> Fate) {
    && m.d.indexNew.Some? && !HarmlessIndex(g, m.d, m.d.indexNew.value)
    && Alive(m, fates, 2) && fates(m.clock + 1).end == Refuses && Moves(fates(m.clock + 2))
  }

  lemma IndexPartSafeIff(g: Image, slot: Slot, m: Machine, m1: Machine, m2: Machine, r: Machine, fates: nat -> Fate)
    requires IndexPart(slot, m, m1, m2, r, fates) && AllSafe(g, m.passed) && ImageOf(m.d, slot) == g
    ensures AllSafe(g, r.passed) <==> !MovesStaleIndex(g, m, fates)
  {
    AliveSteps(m, fates);
    WriteIndexSafe(g, slot, m1, m2, fates);
    InstallIndexSafeIff(g, m2, r, fates);
  }

  lemma IndexPartWhole(slot: Slot, m: Machine, m1: Machine, m2: Machine, r: Machine, fates: nat -> Fate)
    requires IndexPart(slot, m, m1, m2, r, fates) && Whole(m.passed)
    ensures Whole(r.passed)
  {
    WriteIndexWhole(slot, m1, m2, fates);
    InstallIndexWhole(m2, r, fates);
  }

  lemma IndexPartUnfolds(slot: Slot, m: Machine, fates: nat -> Fate)
    ensures Lenient(SelectIndex(slot), m, fates)
            == Do(Flush, Do(InstallIndex, Do(WriteIndex(slot), Do(Check, m, fates), fates), fates), fates)
  {
    assert [Check, WriteIndex(slot), InstallIndex, Flush][1..] == [WriteIndex(slot), InstallIndex, Flush];
    LenientThree(WriteIndex(slot), InstallIndex, Flush, Do(Check, m, fates), fates);
  }

  lemma StaleIndexCarries(g: Image, f: StartFile, m: Machine, m1: Machine, m2: Machine, r: Machine, fates: nat -> Fate)
    requires StartPart(f, m, m1, m2, r, fates)
    ensures MovesStaleIndex(g, r, fates) <==> InstallsStaleIndex(g, m, fates)
    ensures r.d.ota1 == m.d.ota1 && r.d.ota2 == m.d.ota2
  {
    StartPartLeaves(f, m, m1, m2, r, fates);
    AliveSteps(m, fates);
    AliveSteps(r, fates);
  }

  /** Exactly when the handler, for given failures, keeps every state safe. */
  lemma HandlerSafeIff(g: Image, safe: Slot, m: Machine, fates: nat -> Fate)
    requires Valid(m) && AllSafe(g, m.passed) && ImageOf(m.d, safe) == g
    ensures AllSafe(g, Handler(safe, m, fates).passed) <==> !InstallsStale(g, m, fates)
  {
    var r := HandlerParts(safe, m, fates);
    var m1, m2 := StartPartRuns(SafeStart(safe), m, fates);
    StartPartSafeIff(g, safe, m, m1, m2, r, fates);
    StaleIndexCarries(g, SafeStart(safe), m, m1, m2, r, fates);
    if AllSafe(g, r.passed) {
      IndexPartRunsSafeIff(g, safe, r, fates);
    } else if AllSafe(g, Handler(safe, m, fates).passed) {
      SafePrefix(g, r.passed, Handler(safe, m, fates).passed);
    }
  }

  lemma HandlerParts(safe: Slot, m: Machine, fates: nat -> Fate) returns (r: Machine)
    requires Valid(m)
    ensures r == Lenient(SelectStart(SafeStart(safe)), m, fates) && Valid(r)
    ensures Handler(safe, m, fates) == Lenient(SelectIndex(safe), r, fates)
    ensures r.passed <= Handler(safe, m, fates).passed
  {
    r := Lenient(SelectStart(SafeStart(safe)), m, fates);
    LenientBoth(SelectStart(SafeStart(safe)), SelectIndex(safe), m, fates);
  }

  lemma IndexPartRunsSafeIff(g: Image, slot: Slot, m: Machine, fates: nat -> Fate)
    requires Valid(m) && AllSafe(g, m.passed) && ImageOf(m.d, slot) == g
    ensures AllSafe(g, Lenient(SelectIndex(slot), m, fates).passed) <==> !MovesStaleIndex(g, m, fates)
  {
    var m1, m2, m3 := IndexPartRuns(slot, m, fates);
    IndexPartSafeIff(g, slot, m, m1, m2, m3, fates);
  }

  /** Exactly when the handler keeps every state safe whatever fails: the files it would move into place are absent,
      or name nothing, or name a slot with OEM firmware. */
  lemma HandlerAlwaysSafeIff(g: Image, safe: Slot, m: Machine)
    requires Valid(m) && m.on && AllSafe(g, m.passed) && ImageOf(m.d, safe) == g
    ensures (forall fates: nat -> Fate :: AllSafe(g, Handler(safe, m, fates).passed)) <==>
      && (m.d.appNew.Some? ==> Harmless(g, m.d, m.d.appNew.value))
      && (m.d.indexNew.Some? ==> HarmlessIndex(g, m.d, m.d.indexNew.value))
  {
    if m.d.appNew.Some? && !Harmless(g, m.d, m.d.appNew.value) {
      var fates := UnsafeScript(g, safe, m);
    } else if m.d.indexNew.Some? && !HarmlessIndex(g, m.d, m.d.indexNew.value) {
      var fates := UnsafeIndex(g, safe, m);
    } else {
      forall fates: nat -> Fate ensures AllSafe(g, Handler(safe, m, fates).passed) {
        HandlerSafeIff(g, safe, m, fates);
      }
    }
  }

  lemma UnsafeScript(g: Image, safe: Slot, m: Machine) returns (fates: nat -> Fate)
    requires Valid(m) && m.on && AllSafe(g, m.passed) && ImageOf(m.d, safe) == g
    requires m.d.appNew.Some? && !Harmless(g, m.d, m.d.appNew.value)
    ensures !AllSafe(g, Handler(safe, m, fates).passed)
  {
    fates := n => if n == m.clock then Fate(Refuses, []) else Fate(Works, []);
    StaleScriptInstalled(g, m, fates);
    HandlerSafeIff(g, safe, m, fates);
  }

  lemma UnsafeIndex(g: Image, safe: Slot, m: Machine) returns (fates: nat -> Fate)
    requires Valid(m) && m.on && AllSafe(g, m.passed) && ImageOf(m.d, safe) == g
    requires m.d.indexNew.Some? && !HarmlessIndex(g, m.d, m.d.indexNew.value)
    ensures !AllSafe(g, Handler(safe, m, fates).passed)
  {
    fates := n => if n == m.clock + 4 then Fate(Refuses, []) else Fate(Works, []);
    StaleIndexInstalled(g, m, fates);
    HandlerSafeIff(g, safe, m, fates);
  }

  lemma StaleScriptInstalled(g: Image, m: Machine, fates: nat -> Fate)
    requires m.on && forall n: nat :: fates(n) == if n == m.clock then Fate(Refuses, []) else Fate(Works, [])
    ensures InstallsStaleStart(g, m, fates) <==> m.d.appNew.Some? && !Harmless(g, m.d, m.d.appNew.value)
  {
    AliveSteps(m, fates);
  }

  lemma StaleIndexInstalled(g: Image, m: Machine, fates: nat -> Fate)
    requires m.on && forall n: nat :: fates(n) == if n == m.clock + 4 then Fate(Refuses, []) else Fate(Works, [])
    ensures InstallsStaleIndex(g, m, fates) <==> m.d.indexNew.Some? && !HarmlessIndex(g, m.d, m.d.indexNew.value)
  {
    AliveSteps(m, fates);
  }

  /** Exactly when the handler puts a half-written startup script in place, so that nothing starts any more. */
  lemma HandlerGarbageIff(safe: Slot, m: Machine, fates: nat -> Fate)
    requires Valid(m) && Whole(m.passed)
    ensures Whole(Handler(safe, m, fates).passed) <==> !InstallsGarbage(m, fates)
  {
    var f := SafeStart(safe);
    LenientBoth(SelectStart(f), SelectIndex(safe), m, fates);
    var r := Lenient(SelectStart(f), m, fates);
    var m1, m2 := StartPartRuns(f, m, fates);
    StartPartWholeIff(safe, m, m1, m2, r, fates);
    if Whole(r.passed) {
      var m3, m4, m5 := IndexPartRuns(safe, r, fates);
      IndexPartWhole(safe, r, m3, m4, m5, fates);
    } else if Whole(Handler(safe, m, fates).passed) {
      WholePrefix(r.passed, Handler(safe, m, fates).passed);
    }
  }

  /** A command that touches neither slots nor snapshots. */
  predicate Selecting(c: Command) {
    c.Check? || c.WriteStart? || c.InstallStart? || c.WriteIndex? || c.InstallIndex? || c.Flush?
  }

  lemma {:induction false} LenientSpares(s: Slot, cs: seq<Command>, m: Machine, fates: nat -> Fate, from: nat)
    requires Valid(m) && Spared(s, m.passed, from) && forall c | c in cs :: Selecting(c)
    ensures var r := Lenient(cs, m, fates); Spared(s, r.passed, from) && Keeps(s, m.d, r.d)
    decreases |cs|
  {
    if cs != [] {
      SelectingSpares(s, cs[0], m, fates, from);
      LenientSpares(s, cs[1..], Do(cs[0], m, fates), fates, from);
    }
  }

  lemma SelectingKeeps(s: Slot, c: Command, d: Device, fate: Fate)
    requires Selecting(c)
    ensures Keeps(s, d, Midway(c, d, fate))
    ensures Possible(c, Midway(c, d, fate)) ==> Keeps(s, d, Done(c, Midway(c, d, fate)))
    ensures Possible(c, Midway(c, d, fate)) ==> Keeps(s, Midway(c, d, fate), Done(c, Midway(c, d, fate)))
  {
  }

  lemma SelectingSpares(s: Slot, c: Command, m: Machine, fates: nat -> Fate, from: nat)
    requires Valid(m) && Spared(s, m.passed, from) && Selecting(c)
    ensures var r := Do(c, m, fates); Spared(s, r.passed, from) && Keeps(s, m.d, r.d)
  {
    if m.on {
      var mid := Midway(c, m.d, fates(m.clock));
      DoShape(c, m, fates);
      SelectingKeeps(s, c, m.d, fates(m.clock));
      ReachingSpared(s, m, mid, from);
      if Possible(c, mid) {
        ReachingSpared(s, Reaching(m, mid), Done(c, mid), from);
        ReachingSpared(s, m, Done(c, mid), from);
      }
    }
  }

  /** The next `n` commands work. */
  predicate AllWork(m: Machine, fates: nat -> Fate, n: nat) {
    if n == 0 then m.on else AllWork(m, fates, n - 1) && fates(m.clock + n - 1).end == Works
  }

  /** A handler whose commands all work selects the fallback for good. */
  lemma HandlerSelects(safe: Slot, m: Machine, fates: nat -> Fate)
    requires Valid(m) && AllWork(m, fates, 7)
    ensures var r := Handler(safe, m, fates);
      && r.d == m.d.(app := SafeStart(safe), appNew := None, index := Selects(safe), indexNew := None)
      && r.durable == |r.passed| - 1
  {
    WorkSteps(m, fates);
    var r := HandlerParts(safe, m, fates);
    var m1, m2 := StartPartRuns(SafeStart(safe), m, fates);
    StartPartSelects(SafeStart(safe), m, m1, m2, r, fates);
    IndexPartRunsSelects(safe, r, fates);
  }

  lemma StartPartSelects(f: StartFile, m: Machine, m1: Machine, m2: Machine, r: Machine, fates: nat -> Fate)
    requires StartPart(f, m, m1, m2, r, fates) && m.on && fates(m.clock).end == Works
    requires fates(m.clock + 1).end == Works && fates(m.clock + 2).end == Works
    ensures r.d == m.d.(app := f, appNew := None) && r.on && r.clock == m.clock + 3
  {
  }

  lemma IndexPartRunsSelects(slot: Slot, m: Machine, fates: nat -> Fate)
    requires Valid(m) && m.on && fates(m.clock).end == Works && fates(m.clock + 1).end == Works
    requires fates(m.clock + 2).end == Works && fates(m.clock + 3).end == Works
    ensures var r := Lenient(SelectIndex(slot), m, fates);
      r.d == m.d.(index := Selects(slot), indexNew := None) && r.durable == |r.passed| - 1
  {
    var m1, m2, m3 := IndexPartRuns(slot, m, fates);
    IndexPartSelects(slot, m, m1, m2, m3, fates);
  }

  lemma WorkSteps(m: Machine, fates: nat -> Fate)
    requires AllWork(m, fates, 7)
    ensures m.on && fates(m.clock).end == Works && fates(m.clock + 1).end == Works && fates(m.clock + 2).end == Works
    ensures fates(m.clock + 3).end == Works && fates(m.clock + 4).end == Works && fates(m.clock + 5).end == Works
    ensures fates(m.clock + 6).end == Works
  {
    assert AllWork(m, fates, 6);
    assert AllWork(m, fates, 5);
    assert AllWork(m, fates, 4);
    assert AllWork(m, fates, 3);
    assert AllWork(m, fates, 2);
    assert AllWork(m, fates, 1);
    assert AllWork(m, fates, 0);
  }

  lemma IndexPartSelects(slot: Slot, m: Machine, m1: Machine, m2: Machine, r: Machine, fates: nat -> Fate)
    requires IndexPart(slot, m, m1, m2, r, fates) && m.on && fates(m.clock).end == Works
    requires fates(m.clock + 1).end == Works && fates(m.clock + 2).end == Works
    ensures r.d == m.d.(index := Selects(slot), indexNew := None) && r.on && r.clock == m.clock + 3
  {
  }

  // ---------------------------------------------------------------- one run of the payload

  /** Whatever fails: the donor slot is never written, a completed snapshot is never replaced, the settings stay. */
  lemma PayloadSpares(t: Slot, m: Machine, fates: nat -> Fate)
    requires Valid(m)
    ensures Valid(Payload(t, m, fates).0) && Spared(Other(t), Payload(t, m, fates).0.passed, |m.passed|)
  {
    var m0 := Do(Check, m, fates);
    IdleDone(Check, m, fates);
    if Succeeds(Check, m, fates) {
      BodySpares(t, m0, fates, |m.passed|);
      var (m1, safe, finished) := Body(t, m0, fates);
      LenientSpares(Other(t), Select(SafeStart(safe), safe), m1, fates, |m.passed|);
    }
  }

  /** A finished run leaves the donor's firmware in both slots, OTA1 selected, and a completed snapshot, and a power
      cut cannot undo it. */
  lemma PayloadFinishes(t: Slot, m: Machine, fates: nat -> Fate)
    requires Valid(m) && Payload(t, m, fates).1
    ensures var r := Payload(t, m, fates).0;
      var g := ImageOf(m.d, Other(t));
      && r.d.ota1 == g && r.d.ota2 == g && r.d.app == ProductionStart && r.d.index == Selects(Ota1)
      && r.d.snapshot == (if Completed(m.d) then m.d.snapshot else Some(Snapshot(m.d.settings, true)))
      && r.durable == |r.passed| - 1
  {
    var m0 := Do(Check, m, fates);
    IdleDone(Check, m, fates);
    BodySpares(t, m0, fates, |m.passed|);
    PayloadKeeps(t, m, fates);
  }

  lemma PayloadKeeps(t: Slot, m: Machine, fates: nat -> Fate)
    requires Valid(m)
    ensures Keeps(Other(t), m.d, Payload(t, m, fates).0.d)
  {
    PayloadSpares(t, m, fates);
    PayloadGrows(t, m, fates);
    var r := Payload(t, m, fates).0;
    SparedBetween(Other(t), r.passed, |m.passed|, |m.passed| - 1, |r.passed| - 1);
  }

  lemma {:induction false} StrictGrows(cs: seq<Command>, m: Machine, fates: nat -> Fate)
    requires Valid(m)
    ensures m.passed <= Strict(cs, m, fates).0.passed
    decreases |cs|
  {
    if cs != [] && Succeeds(cs[0], m, fates) { StrictGrows(cs[1..], Do(cs[0], m, fates), fates); }
  }

  lemma BodyGrows(t: Slot, m: Machine, fates: nat -> Fate)
    requires Valid(m)
    ensures Valid(Body(t, m, fates).0) && m.passed <= Body(t, m, fates).0.passed
  {
    StrictGrows(Restoring(t, m.d), m, fates);
    StrictGrows(Finishing(), Strict(Restoring(t, m.d), m, fates).0, fates);
  }

  lemma PayloadGrows(t: Slot, m: Machine, fates: nat -> Fate)
    requires Valid(m)
    ensures Valid(Payload(t, m, fates).0) && m.passed <= Payload(t, m, fates).0.passed
  {
    BodyGrows(t, Do(Check, m, fates), fates);
  }

  /** The state in which the failure handler starts, if it does. */
  function HandlerStarts(t: Slot, m: Machine, fates: nat -> Fate): Option<Machine> {
    if !Succeeds(Check, m, fates) || !IsElf(ImageOf(m.d, Other(t))) then None
    else
      var (m1, _, finished) := Body(t, Do(Check, m, fates), fates);
      if finished then None else Some(m1)
  }

  /** Exactly when every state of a run is safe. Up to its first failure it always is. */
  lemma PayloadSafeIff(t: Slot, g: Image, m: Machine, fates: nat -> Fate)
    requires Valid(m) && AllSafe(g, m.passed) && ImageOf(m.d, Other(t)) == g
    ensures AllSafe(g, Payload(t, m, fates).0.passed) <==>
      var h := HandlerStarts(t, m, fates); h.None? || !InstallsStale(g, h.value, fates)
  {
    var m0 := Do(Check, m, fates);
    IdleDone(Check, m, fates);
    if HandlerStarts(t, m, fates).Some? {
      BodySpares(t, m0, fates, |m.passed|);
      BodySafe(t, g, m0, fates);
      var (m1, safe, finished) := Body(t, m0, fates);
      HandlerSafeIff(g, safe, m1, fates);
    } else if Succeeds(Check, m, fates) {
      BodySafe(t, g, m0, fates);
    }
  }

  /** Exactly when a run puts a half-written startup script in place. */
  lemma PayloadGarbageIff(t: Slot, m: Machine, fates: nat -> Fate)
    requires Valid(m) && Whole(m.passed)
    ensures Whole(Payload(t, m, fates).0.passed) <==>
      var h := HandlerStarts(t, m, fates); h.None? || !InstallsGarbage(h.value, fates)
  {
    var m0 := Do(Check, m, fates);
    IdleDone(Check, m, fates);
    if HandlerStarts(t, m, fates).Some? {
      BodySpares(t, m0, fates, |m.passed|);
      BodyWhole(t, m0, fates);
      var (m1, safe, finished) := Body(t, m0, fates);
      HandlerGarbageIff(safe, m1, fates);
    } else if Succeeds(Check, m, fates) {
      BodyWhole(t, m0, fates);
    }
  }

  // ---------------------------------------------------------------- whole lives

  /** The failure handler runs in this event, starting from the machine given. */
  function HandlerIn(m: Machine, e: Event): Option<Machine> {
    if e.Boots? && m.on && m.d.app.OtaStart? then HandlerStarts(m.d.app.slot, m.(clock := 0), e.fates) else None
  }

  predicate StepInstallsStale(g: Image, m: Machine, e: Event) {
    HandlerIn(m, e).Some? && InstallsStale(g, HandlerIn(m, e).value, e.fates)
  }

  predicate StepInstallsGarbage(m: Machine, e: Event) {
    HandlerIn(m, e).Some? && InstallsGarbage(HandlerIn(m, e).value, e.fates)
  }

  lemma OtaSafe(x: Slot, g: Image, payload: Image, part: Image, m: Machine)
    requires Valid(m) && AllSafe(g, m.passed) && ImageOf(m.d, x) == g
    requires Starts(m.d.app) == Some(x) && !m.d.app.OtaStart?
    ensures AllSafe(g, Ota(x, payload, part, m).passed)
  {
    var m1 := Reaching(m, m.d.(index := Foreign));
    ReachingSafe(g, m, m1.d);
    var m2 := Reaching(m1, WithImage(m1.d, Other(x), part));
    ReachingSafe(g, m1, m2.d);
    var m3 := Reaching(m2, WithImage(m2.d, Other(x), payload));
    ReachingSafe(g, m2, m3.d);
    ReachingSafe(g, m3, m3.d.(app := OtaStart(Other(x))));
  }

  lemma OtaWhole(x: Slot, payload: Image, part: Image, m: Machine)
    requires Valid(m) && Whole(m.passed)
    ensures Whole(Ota(x, payload, part, m).passed)
  {
    WholeAt(m.passed, |m.passed| - 1);
    var m1 := Reaching(m, m.d.(index := Foreign));
    ReachingWhole(m, m1.d);
    var m2 := Reaching(m1, WithImage(m1.d, Other(x), part));
    ReachingWhole(m1, m2.d);
    var m3 := Reaching(m2, WithImage(m2.d, Other(x), payload));
    ReachingWhole(m2, m3.d);
    ReachingWhole(m3, m3.d.(app := OtaStart(Other(x))));
  }

  lemma StepSafeIff(g: Image, m: Machine, e: Event)
    requires Valid(m) && AllSafe(g, m.passed)
    ensures AllSafe(g, Step(m, e).passed) <==> !StepInstallsStale(g, m, e)
  {
    SafeAt(g, m.passed, |m.passed| - 1);
    match e
    case OtaInstalls(payload, part) =>
      if Starts(m.d.app).Some? && !m.d.app.OtaStart? { OtaSafe(Starts(m.d.app).value, g, payload, part, m); }
    case Boots(fates) =>
      if m.on && m.d.app.OtaStart? { PayloadSafeIff(m.d.app.slot, g, m.(clock := 0), fates); }
    case PowerLoss(found) =>
      if found < |m.passed| {
        SafeAt(g, m.passed, found);
        assert [m.passed[found]][..0] == [];
      }
  }

  lemma StepGarbageIff(m: Machine, e: Event)
    requires Valid(m) && Whole(m.passed)
    ensures Whole(Step(m, e).passed) <==> !StepInstallsGarbage(m, e)
  {
    match e
    case OtaInstalls(payload, part) =>
      if Starts(m.d.app).Some? { OtaWhole(Starts(m.d.app).value, payload, part, m); }
    case Boots(fates) =>
      if m.on && m.d.app.OtaStart? { PayloadGarbageIff(m.d.app.slot, m.(clock := 0), fates); }
    case PowerLoss(found) =>
      if found < |m.passed| {
        WholeAt(m.passed, found);
        assert [m.passed[found]][..0] == [];
      }
  }

  /** Every state of every power-on is safe. */
  predicate SafeLife(g: Image, m: Machine, events: seq<Event>) {
    AllSafe(g, Life(m, events).passed) && (events == [] || SafeLife(g, m, events[..|events| - 1]))
  }

  predicate WholeLife(m: Machine, events: seq<Event>) {
    Whole(Life(m, events).passed) && (events == [] || WholeLife(m, events[..|events| - 1]))
  }

  /** No failure handler moves a leftover file that names another slot into place. */
  predicate NeverStale(g: Image, m: Machine, events: seq<Event>) {
    events == [] ||
    var n := |events| - 1;
    NeverStale(g, m, events[..n]) && !StepInstallsStale(g, Life(m, events[..n]), events[n])
  }

  /** No failure handler moves a half-written startup script into place. */
  predicate NeverGarbage(m: Machine, events: seq<Event>) {
    events == [] ||
    var n := |events| - 1;
    NeverGarbage(m, events[..n]) && !StepInstallsGarbage(Life(m, events[..n]), events[n])
  }

  /** Over any OTA installations, boots and power cuts, with commands failing anywhere: what is selected to start
      always holds OEM firmware, and some slot does, if and only if no failure handler moves a leftover file that
      names another slot into place. */
  lemma {:induction false} LifeSafeIff(g: Image, m: Machine, events: seq<Event>)
    requires Valid(m) && AllSafe(g, m.passed)
    ensures SafeLife(g, m, events) <==> NeverStale(g, m, events)
  {
    if events != [] {
      var n := |events| - 1;
      LifeSafeIff(g, m, events[..n]);
      if SafeLife(g, m, events[..n]) {
        assert AllSafe(g, Life(m, events[..n]).passed);
        StepSafeIff(g, Life(m, events[..n]), events[n]);
      }
    }
  }

  /** Over the same lives: the feeder always has a startup script to run, if and only if no failure handler moves a
      half-written one into place. */
  lemma {:induction false} LifeGarbageIff(m: Machine, events: seq<Event>)
    requires Valid(m) && Whole(m.passed)
    ensures WholeLife(m, events) <==> NeverGarbage(m, events)
  {
    if events != [] {
      var n := |events| - 1;
      LifeGarbageIff(m, events[..n]);
      if WholeLife(m, events[..n]) {
        assert Whole(Life(m, events[..n]).passed);
        StepGarbageIff(Life(m, events[..n]), events[n]);
      }
    }
  }

  // ---------------------------------------------------------------- the snapshot over whole lives

  /** Every step keeps a completed snapshot. */
  predicate SnapshotsKept(passed: seq<Device>) {
    |passed| < 2 ||
    var n := |passed| - 1;
    SnapshotsKept(passed[..n]) && (Completed(passed[n - 1]) ==> passed[n].snapshot == passed[n - 1].snapshot)
  }

  lemma {:induction false} SnapshotBetween(passed: seq<Device>, i: nat, k: nat)
    requires SnapshotsKept(passed) && i <= k < |passed| && Completed(passed[i])
    ensures passed[k].snapshot == passed[i].snapshot
    decreases |passed|
  {
    if i < k {
      var init := passed[..|passed| - 1];
      SnapshotBetween(init, i, if k < |passed| - 1 then k else k - 1);
    }
  }

  lemma {:induction false} SparedKeepsSnapshots(s: Slot, passed: seq<Device>, from: nat)
    requires Spared(s, passed, from) && from <= |passed| && SnapshotsKept(passed[..from])
    ensures SnapshotsKept(passed)
    decreases |passed|
  {
    if |passed| == from {
      assert passed[..from] == passed;
    } else if |passed| >= 2 {
      assert passed[..|passed| - 1][..from] == passed[..from];
      SparedKeepsSnapshots(s, passed[..|passed| - 1], from);
    }
  }

  lemma ReachingKeepsSnapshot(m: Machine, d: Device)
    requires Valid(m) && SnapshotsKept(m.passed) && d.snapshot == m.d.snapshot
    ensures SnapshotsKept(Reaching(m, d).passed)
  {
    assert (m.passed + [d])[..|m.passed|] == m.passed;
  }

  lemma OtaKeepsSnapshot(x: Slot, payload: Image, part: Image, m: Machine)
    requires Valid(m) && SnapshotsKept(m.passed)
    ensures var r := Ota(x, payload, part, m);
      SnapshotsKept(r.passed) && m.passed <= r.passed && r.durable == m.durable
  {
    var m1 := Reaching(m, m.d.(index := Foreign));
    ReachingKeepsSnapshot(m, m1.d);
    var m2 := Reaching(m1, WithImage(m1.d, Other(x), part));
    ReachingKeepsSnapshot(m1, m2.d);
    var m3 := Reaching(m2, WithImage(m2.d, Other(x), payload));
    ReachingKeepsSnapshot(m2, m3.d);
    ReachingKeepsSnapshot(m3, m3.d.(app := OtaStart(Other(x))));
  }

  lemma BodyDurable(t: Slot, m: Machine, fates: nat -> Fate)
    requires Valid(m)
    ensures m.durable <= Body(t, m, fates).0.durable
  {
  }

  lemma PayloadKeepsSnapshot(t: Slot, m: Machine, fates: nat -> Fate)
    requires Valid(m) && SnapshotsKept(m.passed)
    ensures var r := Payload(t, m, fates).0;
      SnapshotsKept(r.passed) && m.passed <= r.passed && m.durable <= r.durable
  {
    PayloadSpares(t, m, fates);
    PayloadGrows(t, m, fates);
    var r := Payload(t, m, fates).0;
    assert r.passed[..|m.passed|] == m.passed;
    SparedKeepsSnapshots(Other(t), r.passed, |m.passed|);
    BodyGrows(t, Do(Check, m, fates), fates);
    BodyDurable(t, Do(Check, m, fates), fates);
  }

  /** A completed snapshot that a power cut cannot undo. */
  predicate Secure(m: Machine, snapshot: Snapshot) {
    && Valid(m) && SnapshotsKept(m.passed)
    && snapshot.complete && m.passed[m.durable].snapshot == Some(snapshot)
  }

  lemma SecureLater(m: Machine, r: Machine, snapshot: Snapshot)
    requires Secure(m, snapshot) && Valid(r) && SnapshotsKept(r.passed)
    requires m.passed <= r.passed && m.durable <= r.durable
    ensures Secure(r, snapshot)
  {
    SnapshotBetween(r.passed, m.durable, r.durable);
  }

  lemma StepKeepsSnapshot(m: Machine, e: Event, snapshot: Snapshot)
    requires Secure(m, snapshot)
    ensures Secure(Step(m, e), snapshot)
  {
    match e
    case OtaInstalls(payload, part) =>
      if m.on && Starts(m.d.app).Some? && !m.d.app.OtaStart? {
        OtaKeepsSnapshot(Starts(m.d.app).value, payload, part, m);
        SecureLater(m, Step(m, e), snapshot);
      }
    case Boots(fates) =>
      if m.on && m.d.app.OtaStart? {
        PayloadKeepsSnapshot(m.d.app.slot, m.(clock := 0), fates);
        SecureLater(m, Step(m, e), snapshot);
      }
    case PowerLoss(found) =>
      if m.durable <= found < |m.passed| { SnapshotBetween(m.passed, m.durable, found); }
  }

  /** The first completed snapshot, once synced, is the snapshot for ever: no installation, run, failure or power cut
      replaces it. */
  lemma {:induction false} SnapshotForLife(m: Machine, events: seq<Event>, snapshot: Snapshot)
    requires Secure(m, snapshot)
    ensures Secure(Life(m, events), snapshot) && Life(m, events).d.snapshot == Some(snapshot)
  {
    if events != [] {
      SnapshotForLife(m, events[..|events| - 1], snapshot);
      StepKeepsSnapshot(Life(m, events[..|events| - 1]), events[|events| - 1], snapshot);
    }
    var r := Life(m, events);
    assert Secure(r, snapshot);
    SnapshotBetween(r.passed, r.durable, |r.passed| - 1);
  }
}
