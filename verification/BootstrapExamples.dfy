/** Two lives of a feeder. In the first a startup script left over from a run that lost power is put in place by the
    failure handler of the next run and starts the payload again. In the second the handler puts a half-written
    script in place. */
module BootstrapExamples {
  import opened Wrappers
  import opened Bytes
  import opened Bootstrap
  import opened BootstrapSafety
  import opened BootstrapRuns

  // ---------------------------------------------------------------- commands that work

  ghost predicate AllWorkBut(fates: nat -> Fate, n: nat, g: Image) {
    forall i: nat :: fates(i) == if i == n then Fate(Dies, g) else Fate(Works, g)
  }

  lemma StrictStep(cs: seq<Command>, m: Machine, fates: nat -> Fate) returns (m1: Machine)
    requires cs != [] && Strict(cs, m, fates).1
    ensures m1 == Do(cs[0], m, fates) && Succeeds(cs[0], m, fates) && Strict(cs, m, fates) == Strict(cs[1..], m1, fates)
  {
    m1 := Do(cs[0], m, fates);
  }

  lemma StrictStart(cs: seq<Command>, m: Machine, m1: Machine, fates: nat -> Fate)
    requires cs != [] && Succeeds(cs[0], m, fates) && m1 == Do(cs[0], m, fates)
    ensures Strict(cs, m, fates) == Strict(cs[1..], m1, fates)
  {
  }

  lemma {:induction false} StrictBoth(a: seq<Command>, b: seq<Command>, m: Machine, fates: nat -> Fate)
    requires Strict(a, m, fates).1
    ensures Strict(a + b, m, fates) == Strict(b, Strict(a, m, fates).0, fates)
    decreases |a|
  {
    if a == [] {
      assert a + b == b;
    } else {
      var m1 := StrictStep(a, m, fates);
      StrictBoth(a[1..], b, m1, fates);
      assert (a + b)[1..] == a[1..] + b && (a + b)[0] == a[0];
      StrictStart(a + b, m, m1, fates);
    }
  }

  lemma StrictOne(a: Command, m: Machine, fates: nat -> Fate)
    requires Succeeds(a, m, fates)
    ensures Strict([a], m, fates) == (Do(a, m, fates), true)
  {
    assert [a][1..] == [];
  }

  lemma StrictThree(a: Command, b: Command, c: Command, m: Machine, m1: Machine, m2: Machine, fates: nat -> Fate)
    requires Succeeds(a, m, fates) && m1 == Do(a, m, fates) && Succeeds(b, m1, fates)
    requires m2 == Do(b, m1, fates) && Succeeds(c, m2, fates)
    ensures Strict([a, b, c], m, fates) == (Do(c, m2, fates), true)
  {
    assert [a, b, c][1..] == [b, c] && [b, c][1..] == [c];
    StrictOne(c, m2, fates);
  }

  /** The power is on, the clock stands at `n`, and the next command works. */
  predicate Ready(m: Machine, d: Device, n: nat) {
    Valid(m) && m.on && m.d == d && m.clock == n
  }

  lemma CheckWorks(m: Machine, d: Device, n: nat, fates: nat -> Fate)
    requires Ready(m, d, n) && fates(n).end == Works
    ensures Strict([Check], m, fates).1 && Ready(Strict([Check], m, fates).0, d, n + 1)
  {
    StrictOne(Check, m, fates);
    IdleDone(Check, m, fates);
  }

  lemma StartWorks(f: StartFile, m: Machine, d: Device, n: nat, fates: nat -> Fate)
    requires Ready(m, d, n) && fates(n).end == Works && fates(n + 1).end == Works && fates(n + 2).end == Works
    ensures var r := Strict(SelectStart(f), m, fates); r.1 && Ready(r.0, d.(app := f, appNew := None), n + 3)
  {
    var m1 := Do(WriteStart(f), m, fates);
    WriteStartDone(f, m, fates);
    var m2 := Do(Check, m1, fates);
    IdleDone(Check, m1, fates);
    InstallDone(m2, fates);
    StrictThree(WriteStart(f), Check, InstallStart, m, m1, m2, fates);
  }

  lemma IndexWorks(slot: Slot, m: Machine, d: Device, n: nat, fates: nat -> Fate)
    requires Ready(m, d, n) && fates(n).end == Works && fates(n + 1).end == Works
    requires fates(n + 2).end == Works && fates(n + 3).end == Works
    ensures var r := Strict(SelectIndex(slot), m, fates);
      r.1 && Ready(r.0, d.(index := Selects(slot), indexNew := None), n + 4)
  {
    CheckWorks(m, d, n, fates);
    var m0 := Strict([Check], m, fates).0;
    var m1 := Do(WriteIndex(slot), m0, fates);
    WriteIndexDone(slot, m0, fates);
    var m2 := Do(InstallIndex, m1, fates);
    InstallIndexDone(m1, fates);
    IdleDone(Flush, m2, fates);
    StrictThree(WriteIndex(slot), InstallIndex, Flush, m0, m1, m2, fates);
    StrictBoth([Check], [WriteIndex(slot), InstallIndex, Flush], m, fates);
    assert [Check] + [WriteIndex(slot), InstallIndex, Flush] == SelectIndex(slot);
  }

  lemma SelectWorks(f: StartFile, slot: Slot, m: Machine, d: Device, n: nat, fates: nat -> Fate, dies: nat, g: Image)
    requires Ready(m, d, n) && AllWorkBut(fates, dies, g) && n + 7 <= dies
    ensures var r := Strict(Select(f, slot), m, fates);
      r.1 && Ready(r.0, d.(app := f, appNew := None, index := Selects(slot), indexNew := None), n + 7)
  {
    StartWorks(f, m, d, n, fates);
    IndexWorks(slot, Strict(SelectStart(f), m, fates).0, d.(app := f, appNew := None), n + 3, fates);
    StrictBoth(SelectStart(f), SelectIndex(slot), m, fates);
  }

  lemma CopyDone(t: Slot, m: Machine, fates: nat -> Fate)
    requires Valid(m) && m.on && fates(m.clock).end == Works
    ensures Ready(Do(CopyDonor(t), m, fates), m.d.(restore := Some(fates(m.clock).data)), m.clock + 1)
    ensures ImageOf(m.d, Other(t)) == fates(m.clock).data ==> Possible(CompareCopy(t), Do(CopyDonor(t), m, fates).d)
  {
  }

  lemma CompareDone(t: Slot, m: Machine, fates: nat -> Fate)
    requires Valid(m) && m.on && fates(m.clock).end == Works
    ensures Ready(Do(CompareCopy(t), m, fates), m.d, m.clock + 1)
  {
  }

  lemma InstallCopyDone(t: Slot, m: Machine, fates: nat -> Fate)
    requires Valid(m) && m.on && fates(m.clock).end == Works && m.d.restore.Some?
    ensures Ready(Do(InstallCopy(t), m, fates), WithImage(m.d, t, m.d.restore.value).(restore := None), m.clock + 1)
  {
  }

  lemma RestoreWorks(t: Slot, m: Machine, d: Device, n: nat, fates: nat -> Fate, dies: nat, g: Image)
    requires Ready(m, d, n) && AllWorkBut(fates, dies, g) && n + 5 <= dies && ImageOf(d, Other(t)) == g
    ensures var r := Strict(RestoreSlot(t), m, fates); r.1 && Ready(r.0, WithImage(d, t, g).(restore := None), n + 5)
  {
    var m1 := Do(CopyDonor(t), m, fates);
    CopyDone(t, m, fates);
    var m2 := Do(CompareCopy(t), m1, fates);
    CompareDone(t, m1, fates);
    IdleDone(Check, m2, fates);
    StrictThree(CopyDonor(t), CompareCopy(t), Check, m, m1, m2, fates);
    var m3 := Do(Check, m2, fates);
    var m4 := Do(InstallCopy(t), m3, fates);
    InstallCopyDone(t, m3, fates);
    assert [InstallCopy(t), Flush][1..] == [Flush];
    StrictOne(Flush, m4, fates);
    IdleDone(Flush, m4, fates);
    StrictBoth([CopyDonor(t), CompareCopy(t), Check], [InstallCopy(t), Flush], m, fates);
    assert [CopyDonor(t), CompareCopy(t), Check] + [InstallCopy(t), Flush] == RestoreSlot(t);
  }

  /** The first ten commands: preflight, safe donor, services. */
  function Securing(t: Slot): seq<Command> {
    [Check] + [Check] + Select(SafeStart(Other(t)), Other(t)) + [Check]
  }

  function Secured(t: Slot, d: Device): Device {
    d.(app := SafeStart(Other(t)), appNew := None, index := Selects(Other(t)), indexNew := None)
  }

  lemma TwoChecksWork(m: Machine, d: Device, n: nat, fates: nat -> Fate)
    requires Ready(m, d, n) && fates(n).end == Works && fates(n + 1).end == Works
    ensures Strict([Check] + [Check], m, fates).1 && Ready(Strict([Check] + [Check], m, fates).0, d, n + 2)
  {
    CheckWorks(m, d, n, fates);
    CheckWorks(Strict([Check], m, fates).0, d, n + 1, fates);
    StrictBoth([Check], [Check], m, fates);
  }

  lemma SecuringWorks(t: Slot, m: Machine, d: Device, n: nat, fates: nat -> Fate, dies: nat, g: Image)
    requires Ready(m, d, n) && AllWorkBut(fates, dies, g) && n + 10 <= dies
    ensures var r := Strict(Securing(t), m, fates); r.1 && Ready(r.0, Secured(t, d), n + 10)
  {
    var donor := Select(SafeStart(Other(t)), Other(t));
    TwoChecksWork(m, d, n, fates);
    var m2 := Strict([Check] + [Check], m, fates).0;
    SelectWorks(SafeStart(Other(t)), Other(t), m2, d, n + 2, fates, dies, g);
    StrictBoth([Check] + [Check], donor, m, fates);
    var m3 := Strict([Check] + [Check] + donor, m, fates).0;
    CheckWorks(m3, Secured(t, d), n + 9, fates);
    StrictBoth([Check] + [Check] + donor, [Check], m, fates);
  }

  /** With a completed snapshot and nothing failing, the slot is restored after fifteen commands. */
  lemma RestoringWorks(t: Slot, m: Machine, d: Device, n: nat, fates: nat -> Fate, dies: nat, g: Image)
    requires Ready(m, d, n) && Completed(d) && AllWorkBut(fates, dies, g) && n + 15 <= dies
    requires ImageOf(d, Other(t)) == g
    ensures var r := Strict(Restoring(t, d), m, fates);
      r.1 && Ready(r.0, WithImage(Secured(t, d), t, g).(restore := None), n + 15)
  {
    SecuringWorks(t, m, d, n, fates, dies, g);
    RestoreWorks(t, Strict(Securing(t), m, fates).0, Secured(t, d), n + 10, fates, dies, g);
    StrictBoth(Securing(t), RestoreSlot(t), m, fates);
    assert [Check] + TakeSnapshot(d) == [Check];
    assert Restoring(t, d) == Securing(t) + RestoreSlot(t);
  }

  // ---------------------------------------------------------------- the lives

  /** Both slots hold OEM firmware, and the one in OTA2 is running. */
  function AtHome(g: Image, settings: seq<Byte>): Machine {
    var d := Device(g, g, None, OemStart(Ota2), None, Foreign, None, Some(Snapshot(settings, true)), None, settings);
    Machine(d, [d], 0, 0, true)
  }

  /** Everything works, until the power goes after the production script was written and before it is moved into
      place. */
  function CutShort(g: Image): nat -> Fate {
    (n: nat) => if n == 17 then Fate(Dies, g) else Fate(Works, g)
  }

  /** The preflight fails, and then the first command of the handler. */
  function TwoFailures(end: End): nat -> Fate {
    (n: nat) => if n == 1 then Fate(Refuses, []) else if n == 2 then Fate(end, []) else Fate(Works, [])
  }

  /** The device after an OTA into OTA1. */
  function Installed(d: Device, payload: Image): Device {
    d.(ota1 := payload, app := OtaStart(Ota1), index := Foreign)
  }

  lemma OtaInstalled(m: Machine, payload: Image, part: Image)
    requires Valid(m) && m.on && Starts(m.d.app) == Some(Ota2) && !m.d.app.OtaStart?
    ensures var r := Step(m, OtaInstalls(payload, part)); Valid(r) && r.on && r.d == Installed(m.d, payload)
  {
  }

  /** The first run restores the slot and loses power with the production script beside the old one. */
  lemma FirstRun(m: Machine, g: Image, payload: Image)
    requires Valid(m) && m.on && IsElf(g) && Completed(m.d) && m.d.app == OtaStart(Ota1) && m.d.ota2 == g
    ensures var r := Step(m, Boots(CutShort(g)));
      && Valid(r) && !r.on
      && r.d == m.d.(ota1 := g, app := SafeStart(Ota2), appNew := Some(ProductionStart), index := Selects(Ota2),
                     indexNew := None, restore := None)
  {
    var fates := CutShort(g);
    var m0 := m.(clock := 0);
    IdleDone(Check, m0, fates);
    var m1 := Do(Check, m0, fates);
    RestoringWorks(Ota1, m1, m.d, 1, fates, 17, g);
    var m2 := Strict(Restoring(Ota1, m.d), m1, fates).0;
    FinishingDies(m2, fates);
    HandlerOff(Ota1, Strict(Finishing(), m2, fates).0, fates);
  }

  lemma FinishingDies(m: Machine, fates: nat -> Fate)
    requires Valid(m) && m.on && fates(m.clock).end == Works && fates(m.clock + 1).end == Dies
    ensures var r := Strict(Finishing(), m, fates);
      !r.1 && Valid(r.0) && !r.0.on && r.0.d == m.d.(appNew := Some(ProductionStart))
  {
    WriteStartDone(ProductionStart, m, fates);
    var m1 := Do(WriteStart(ProductionStart), m, fates);
    IdleDone(Check, m1, fates);
    var cs := Finishing();
    assert cs[0] == WriteStart(ProductionStart) && cs[1..][0] == Check;
  }

  lemma {:induction false} LenientOff(cs: seq<Command>, m: Machine, fates: nat -> Fate)
    requires !m.on
    ensures Lenient(cs, m, fates) == m
    decreases |cs|
  {
    if cs != [] { LenientOff(cs[1..], m, fates); }
  }

  lemma HandlerOff(safe: Slot, m: Machine, fates: nat -> Fate)
    requires !m.on
    ensures Handler(safe, m, fates) == m
  {
    LenientOff(Select(SafeStart(safe), safe), m, fates);
  }

  /** The failed preflight leaves the device to the handler as it is. */
  lemma PreflightFails(m: Machine, end: End)
    requires Valid(m) && m.on && m.clock == 0 && m.d.app == OtaStart(Ota1) && IsElf(m.d.ota2)
    ensures var h := HandlerStarts(Ota1, m, TwoFailures(end));
      && h.Some? && Ready(h.value, m.d, 2) && h.value.passed == m.passed
      && Payload(Ota1, m, TwoFailures(end)).0 == Handler(Ota2, h.value, TwoFailures(end))
  {
    var fates := TwoFailures(end);
    IdleDone(Check, m, fates);
    var m1 := Do(Check, m, fates);
    IdleDone(Check, m1, fates);
    assert Restoring(Ota1, m.d)[0] == Check;
  }

  /** A life in which every failure is one the payload can meet, and which ends with the payload selected. */
  lemma StaleScriptStartsPayload(g: Image, payload: Image, part: Image, settings: seq<Byte>)
    returns (events: seq<Event>)
    requires IsElf(g) && payload != g
    ensures Valid(AtHome(g, settings)) && AllSafe(g, AtHome(g, settings).passed)
    ensures |events| == 5 && !SafeLife(g, AtHome(g, settings), events)
    ensures StepInstallsStale(g, Life(AtHome(g, settings), events[..4]), events[4])
  {
    var m := AtHome(g, settings);
    assert m.passed[..0] == [];
    var m1 := Step(m, OtaInstalls(payload, part));
    OtaInstalled(m, payload, part);
    var m2 := Step(m1, Boots(CutShort(g)));
    FirstRun(m1, g, payload);
    events := [OtaInstalls(payload, part), Boots(CutShort(g)), PowerLoss(|m2.passed| - 1), OtaInstalls(payload, part),
               Boots(TwoFailures(Refuses))];
    LifeOfFour(m, events);
    SecondRun(m2, g, payload, part);
    StaleEndsSafety(g, m, events);
  }

  /** After the power cut the next OTA and the next boot. */
  lemma SecondRun(m: Machine, g: Image, payload: Image, part: Image)
    requires Valid(m) && m.d.app == SafeStart(Ota2) && m.d.appNew == Some(ProductionStart) && m.d.ota2 == g
    requires IsElf(g) && payload != g
    ensures var r := Step(Step(m, PowerLoss(|m.passed| - 1)), OtaInstalls(payload, part));
      StepInstallsStale(g, r, Boots(TwoFailures(Refuses)))
  {
    var m3 := Step(m, PowerLoss(|m.passed| - 1));
    OtaInstalled(m3, payload, part);
    var m4 := Step(m3, OtaInstalls(payload, part));
    PreflightFails(m4.(clock := 0), Refuses);
    StaleInstalled(g, m4);
  }

  lemma StaleEndsSafety(g: Image, m: Machine, events: seq<Event>)
    requires Valid(m) && AllSafe(g, m.passed) && events != []
    requires StepInstallsStale(g, Life(m, events[..|events| - 1]), events[|events| - 1])
    ensures !SafeLife(g, m, events)
  {
    LifeSafeIff(g, m, events);
  }

  lemma StaleInstalled(g: Image, m: Machine)
    requires Valid(m) && m.on && m.d.app == OtaStart(Ota1) && m.d.appNew == Some(ProductionStart) && m.d.ota1 != g
    requires var h := HandlerStarts(Ota1, m.(clock := 0), TwoFailures(Refuses)); h.Some? && Ready(h.value, m.d, 2)
    ensures StepInstallsStale(g, m, Boots(TwoFailures(Refuses)))
  {
    AliveSteps(HandlerStarts(Ota1, m.(clock := 0), TwoFailures(Refuses)).value, TwoFailures(Refuses));
  }

  lemma LifeOfFour(m: Machine, events: seq<Event>)
    requires |events| >= 4
    ensures Life(m, events[..4]) == Step(Step(Step(Step(m, events[0]), events[1]), events[2]), events[3])
  {
    assert events[..4][..3] == events[..3] && events[..3][..2] == events[..2] && events[..2][..1] == events[..1];
    assert events[..1][..0] == [];
    assert Life(m, events[..1]) == Step(m, events[0]);
    assert Life(m, events[..2]) == Step(Step(m, events[0]), events[1]);
    assert Life(m, events[..3]) == Step(Step(Step(m, events[0]), events[1]), events[2]);
  }

  /** A life that ends with no startup script that could run. */
  lemma HandlerLeavesGarbage(g: Image, payload: Image, part: Image, settings: seq<Byte>)
    requires IsElf(g)
    ensures var events := [OtaInstalls(payload, part), Boots(TwoFailures(Breaks))];
      !WholeLife(AtHome(g, settings), events) && Whole(AtHome(g, settings).passed)
  {
    var m := AtHome(g, settings);
    var events := [OtaInstalls(payload, part), Boots(TwoFailures(Breaks))];
    assert m.passed[..0] == [];
    var m1 := Step(m, OtaInstalls(payload, part));
    OtaInstalled(m, payload, part);
    PreflightFails(m1.(clock := 0), Breaks);
    AliveSteps(HandlerStarts(Ota1, m1.(clock := 0), TwoFailures(Breaks)).value, TwoFailures(Breaks));
    assert events[..1][..0] == [];
    assert Life(m, events[..1]) == m1;
    LifeGarbageIff(m, events);
  }
}
