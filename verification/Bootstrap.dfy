/** The bootstrap payload: a script that runs once from the slot an OTA put it in, installs services, puts the
    OEM firmware back into that slot and selects a slot to start from. Every command may fail, before it changes
    anything or half-way, and the power may go at any moment; writes persist in the order they were made. */
module Bootstrap {
  import opened Wrappers
  import opened Bytes

  type Image = seq<Byte>

  datatype Slot = Ota1 | Ota2

  function Other(s: Slot): Slot {
    if s == Ota1 then Ota2 else Ota1
  }

  /** Who wrote a startup script, and the slot it starts; `Garbage` is a script written in part. */
  datatype StartFile = OemStart(slot: Slot) | OtaStart(slot: Slot) | SafeStart(slot: Slot) | ProductionStart | Garbage

  /** The slot index as the payload wrote it, as anything else wrote it, or written in part. */
  datatype IndexFile = Selects(slot: Slot) | Foreign | Torn

  /** A copy of the feeder's settings and schedules, and whether it carries its completion mark. */
  datatype Snapshot = Snapshot(data: seq<Byte>, complete: bool)

  datatype Device = Device(ota1: Image, ota2: Image, restore: Option<Image>,
                           app: StartFile, appNew: Option<StartFile>,
                           index: IndexFile, indexNew: Option<IndexFile>,
                           snapshot: Option<Snapshot>, snapshotNew: Option<Snapshot>,
                           settings: seq<Byte>)

  function ImageOf(d: Device, s: Slot): Image {
    if s == Ota1 then d.ota1 else d.ota2
  }

  function WithImage(d: Device, s: Slot, image: Image): Device {
    if s == Ota1 then d.(ota1 := image) else d.(ota2 := image)
  }

  /** The slot that a startup script starts. */
  function Starts(f: StartFile): Option<Slot> {
    match f
    case OemStart(s) => Some(s)
    case OtaStart(s) => Some(s)
    case SafeStart(s) => Some(s)
    case ProductionStart => Some(Ota1)
    case Garbage => None
  }

  predicate Completed(d: Device) {
    d.snapshot.Some? && d.snapshot.value.complete
  }

  // ---------------------------------------------------------------- commands

  /** `Check` stands for a command, or several, that change nothing modelled here. */
  datatype Command =
    | Check
    | WriteStart(f: StartFile)      // > app_start.sh.new
    | InstallStart                  // mv app_start.sh.new app_start.sh
    | WriteIndex(slot: Slot)        // > index.bin.new
    | InstallIndex                  // mv index.bin.new index.bin
    | Flush                         // sync
    | DropSnapshot                  // rm -rf preinstall-state preinstall-state.new
    | CopySnapshot                  // cp to preinstall-state.new
    | MarkSnapshot                  // touch preinstall-state.new/complete
    | InstallSnapshot               // mv preinstall-state.new preinstall-state
    | CopyDonor(target: Slot)       // cp DONOR TARGET.restore
    | CompareCopy(target: Slot)     // cmp DONOR TARGET.restore
    | InstallCopy(target: Slot)     // mv TARGET.restore TARGET

  /** A command works, fails before it changes anything, fails half-way, or the power goes while it works. */
  datatype End = Works | Refuses | Breaks | Dies

  /** `data` is what a file holds while it is half-written. */
  datatype Fate = Fate(end: End, data: seq<Byte>)

  /** Whether the files a command needs are there. */
  predicate Possible(c: Command, d: Device) {
    match c
    case InstallStart => d.appNew.Some?
    case InstallIndex => d.indexNew.Some?
    case MarkSnapshot => d.snapshotNew.Some?
    case InstallSnapshot => d.snapshotNew.Some? && d.snapshot.None?
    case CompareCopy(t) => d.restore == Some(ImageOf(d, Other(t)))
    case InstallCopy(_) => d.restore.Some?
    case _ => true
  }

  function Partly(s: Option<Snapshot>, data: seq<Byte>): Option<Snapshot> {
    if s.Some? then Some(Snapshot(data, s.value.complete)) else None
  }

  /** What a command leaves half-done; moving a file into place has no such state. What a copy of the donor turns
      out to be is not known before it is compared. */
  function Half(c: Command, d: Device, data: seq<Byte>): Option<Device> {
    match c
    case WriteStart(_) => Some(d.(appNew := Some(Garbage)))
    case WriteIndex(_) => Some(d.(indexNew := Some(Torn)))
    case DropSnapshot => Some(d.(snapshot := Partly(d.snapshot, data), snapshotNew := Partly(d.snapshotNew, data)))
    case CopySnapshot => Some(d.(snapshotNew := Some(Snapshot(data, false))))
    case CopyDonor(_) => Some(d.(restore := Some(data)))
    case _ => None
  }

  function Done(c: Command, d: Device): Device
    requires Possible(c, d)
  {
    match c
    case WriteStart(f) => d.(appNew := Some(f))
    case InstallStart => d.(app := d.appNew.value, appNew := None)
    case WriteIndex(slot) => d.(indexNew := Some(Selects(slot)))
    case InstallIndex => d.(index := d.indexNew.value, indexNew := None)
    case DropSnapshot => d.(snapshot := None, snapshotNew := None)
    case CopySnapshot => d.(snapshotNew := Some(Snapshot(d.settings, false)))
    case MarkSnapshot => d.(snapshotNew := Some(d.snapshotNew.value.(complete := true)))
    case InstallSnapshot => d.(snapshot := d.snapshotNew, snapshotNew := None)
    case InstallCopy(t) => WithImage(d, t, d.restore.value).(restore := None)
    case _ => d
  }

  /** The device, every state since it was started (the last is `d`), the state that the last `sync` made
      permanent, how many commands have run, and whether the power is on. */
  datatype Machine = Machine(d: Device, passed: seq<Device>, durable: nat, clock: nat, on: bool)

  predicate Valid(m: Machine) {
    m.durable < |m.passed| && m.passed[|m.passed| - 1] == m.d
  }

  function Reaching(m: Machine, d: Device): Machine {
    m.(d := d, passed := m.passed + [d])
  }

  /** The device while command `c` is at work. */
  function Begun(c: Command, m: Machine, fate: Fate): Machine {
    match Half(c, m.d, fate.data)
    case None => m
    case Some(half) => if fate.end == Refuses then m else Reaching(m, half)
  }

  function Ended(c: Command, m: Machine, fate: Fate): Machine
    requires m.passed != []
  {
    if !(fate.end == Works || fate.end == Dies) || !Possible(c, m.d) then m
    else if c.Flush? then (if fate.end == Works then m.(durable := |m.passed| - 1) else m)
    else if c.Check? || c.CompareCopy? then m
    else Reaching(m, Done(c, m.d))
  }

  function Do(c: Command, m: Machine, fates: nat -> Fate): (r: Machine)
    ensures Valid(m) ==> Valid(r) && m.durable <= r.durable
    ensures m.passed <= r.passed
  {
    if !m.on || m.passed == [] then m
    else
      var fate := fates(m.clock);
      Ended(c, Begun(c, m, fate), fate).(clock := m.clock + 1, on := fate.end != Dies)
  }

  predicate Succeeds(c: Command, m: Machine, fates: nat -> Fate) {
    m.on && fates(m.clock).end == Works && Possible(c, m.d)
  }

  /** `set -e`: the first failure ends it. */
  function Strict(cs: seq<Command>, m: Machine, fates: nat -> Fate): (r: (Machine, bool))
    ensures Valid(m) ==> Valid(r.0) && m.durable <= r.0.durable
    decreases |cs|
  {
    if cs == [] then (m, true)
    else if Succeeds(cs[0], m, fates) then Strict(cs[1..], Do(cs[0], m, fates), fates)
    else (Do(cs[0], m, fates), false)
  }

  /** `set +e`: every command is tried. */
  function Lenient(cs: seq<Command>, m: Machine, fates: nat -> Fate): (r: Machine)
    ensures Valid(m) ==> Valid(r) && m.durable <= r.durable
    ensures m.passed <= r.passed
    decreases |cs|
  {
    if cs == [] then m else Lenient(cs[1..], Do(cs[0], m, fates), fates)
  }

  // ---------------------------------------------------------------- the script

  /** The startup script; `chmod` changes nothing that matters here. */
  function SelectStart(f: StartFile): seq<Command> {
    [WriteStart(f), Check, InstallStart]
  }

  /** `mkdir -p`, `write_index` and `sync`. */
  function SelectIndex(slot: Slot): seq<Command> {
    [Check, WriteIndex(slot), InstallIndex, Flush]
  }

  /** `select_safe_donor` and `select_production_ota1`. */
  function Select(f: StartFile, slot: Slot): seq<Command> {
    SelectStart(f) + SelectIndex(slot)
  }

  /** The settings and schedules are copied once: a completed copy is left alone, an incomplete one is redone. */
  function TakeSnapshot(d: Device): seq<Command> {
    if Completed(d) then [] else [DropSnapshot, CopySnapshot, MarkSnapshot, InstallSnapshot, Flush]
  }

  function RestoreSlot(t: Slot): seq<Command> {
    [CopyDonor(t), CompareCopy(t), Check, InstallCopy(t), Flush]
  }

  /** From the trap on to the restored slot: preflight, snapshot, copy of the startup script, safe donor, services,
      slot. Nothing before the snapshot changes whether there is a completed one. */
  function Restoring(t: Slot, d: Device): seq<Command> {
    [Check] + TakeSnapshot(d) + [Check] + Select(SafeStart(Other(t)), Other(t)) + [Check] + RestoreSlot(t)
  }

  /** The rest, with OTA1 as the fallback. */
  function Finishing(): seq<Command> {
    Select(ProductionStart, Ota1) + [Check]
  }

  predicate IsElf(image: Image) {
    |image| >= 4 && image[..4] == [0x7f, 0x45, 0x4c, 0x46]
  }

  /** `fail_safe`. */
  function Handler(safe: Slot, m: Machine, fates: nat -> Fate): Machine {
    Lenient(Select(SafeStart(safe), safe), m, fates)
  }

  /** How far the script gets with `set -e`: the machine, the slot to fall back to, and whether it finished. */
  function Body(t: Slot, m: Machine, fates: nat -> Fate): (r: (Machine, Slot, bool)) {
    var (m1, restored) := Strict(Restoring(t, m.d), m, fates);
    if !restored then (m1, Other(t), false)
    else
      var (m2, finished) := Strict(Finishing(), m1, fates);
      (m2, Ota1, finished)
  }

  /** One execution of the payload from slot `t`. Before the trap is set a failure only ends it. */
  function Payload(t: Slot, m: Machine, fates: nat -> Fate): (r: (Machine, bool)) {
    var m0 := Do(Check, m, fates);
    if !Succeeds(Check, m, fates) || !IsElf(ImageOf(m.d, Other(t))) then (m0, false)
    else
      var (m1, safe, finished) := Body(t, m0, fates);
      if finished then (m1, true) else (Handler(safe, m1, fates), false)
  }

  // ---------------------------------------------------------------- the device around the payload

  /** An OTA of the payload with `part` of it written on the way; a boot; a power cut that leaves state `found`. */
  datatype Event = OtaInstalls(payload: Image, part: Image) | Boots(fates: nat -> Fate) | PowerLoss(found: nat)

  /** The OEM firmware in slot `x` installs the payload into the other slot and starts it next. From its first
      write on, the slot index is the OTA's. */
  function Ota(x: Slot, payload: Image, part: Image, m: Machine): Machine {
    var m1 := Reaching(m, m.d.(index := Foreign));
    var m2 := Reaching(m1, WithImage(m1.d, Other(x), part));
    var m3 := Reaching(m2, WithImage(m2.d, Other(x), payload));
    Reaching(m3, m3.d.(app := OtaStart(Other(x))))
  }

  function Step(m: Machine, e: Event): (r: Machine)
    ensures Valid(m) ==> Valid(r)
  {
    match e
    case OtaInstalls(payload, part) =>
      if m.on && Starts(m.d.app).Some? && !m.d.app.OtaStart? then Ota(Starts(m.d.app).value, payload, part, m) else m
    case Boots(fates) =>
      if m.on && m.d.app.OtaStart? then Payload(m.d.app.slot, m.(clock := 0), fates).0 else m
    case PowerLoss(found) =>
      if m.durable <= found < |m.passed| then Machine(m.passed[found], [m.passed[found]], 0, 0, true) else m
  }

  function Life(m: Machine, events: seq<Event>): (r: Machine)
    ensures Valid(m) ==> Valid(r)
  {
    if events == [] then m else Step(Life(m, events[..|events| - 1]), events[|events| - 1])
  }
}
