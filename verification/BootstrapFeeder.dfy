/** The script and the device it runs on as an object that its commands change. */
module BootstrapFeeder {
  import opened Wrappers
  import opened Bytes
  import opened Bootstrap
  import opened BootstrapSafety
  import opened BootstrapRuns

  class Feeder {
    var d: Device
    var passed: seq<Device>
    var durable: nat
    var clock: nat
    var on: bool

    function View(): Machine
      reads this
    {
      Machine(d, passed, durable, clock, on)
    }

    constructor (d: Device)
      ensures View() == Machine(d, [d], 0, 0, true) && Valid(View())
    {
      this.d, passed, durable, clock, on := d, [d], 0, 0, true;
    }

    method Become(m: Machine)
      modifies this
      ensures View() == m
    {
      d, passed, durable, clock, on := m.d, m.passed, m.durable, m.clock, m.on;
    }

    /** One command after the other; with `set -e` the first failure ends it. */
    method Execute(cs: seq<Command>, errexit: bool, fates: nat -> Fate) returns (ok: bool)
      requires Valid(View())
      modifies this
      ensures Valid(View())
      ensures errexit ==> (View(), ok) == Strict(cs, old(View()), fates)
      ensures !errexit ==> View() == Lenient(cs, old(View()), fates)
    {
      ok := true;
      var i := 0;
      while i < |cs| && (ok || !errexit)
        invariant 0 <= i <= |cs| && Valid(View())
        invariant errexit && ok ==> Strict(cs[i..], View(), fates) == Strict(cs, old(View()), fates)
        invariant errexit && !ok ==> (View(), false) == Strict(cs, old(View()), fates)
        invariant !errexit ==> Lenient(cs[i..], View(), fates) == Lenient(cs, old(View()), fates)
        decreases |cs| - i, ok
      {
        assert cs[i..][0] == cs[i] && cs[i..][1..] == cs[i + 1..];
        ok := Succeeds(cs[i], View(), fates);
        Become(Do(cs[i], View(), fates));
        i := i + 1;
      }
    }

    /** The script: up to the trap, to the restored slot with the donor as the fallback, and on with OTA1. */
    method RunPayload(t: Slot, fates: nat -> Fate) returns (finished: bool)
      requires Valid(View())
      modifies this
      ensures Valid(View()) && (View(), finished) == Payload(t, old(View()), fates)
      ensures Spared(Other(t), passed, |old(passed)|)
      ensures finished ==> d.ota1 == d.ota2 == ImageOf(old(d), Other(t)) && d.app == ProductionStart
    {
      PayloadSpares(t, View(), fates);
      if Payload(t, View(), fates).1 { PayloadFinishes(t, View(), fates); }
      var started := Succeeds(Check, View(), fates);
      var donor := ImageOf(d, Other(t));
      Become(Do(Check, View(), fates));
      if !started || !IsElf(donor) {
        return false;
      }
      var safe := Other(t);
      finished := Execute(Restoring(t, d), true, fates);
      if finished {
        safe := Ota1;
        finished := Execute(Finishing(), true, fates);
      }
      if !finished {
        var _ := Execute(Select(SafeStart(safe), safe), false, fates);
      }
    }

    method Handle(e: Event)
      requires Valid(View())
      modifies this
      ensures Valid(View()) && View() == Step(old(View()), e)
    {
      match e
      case OtaInstalls(payload, part) =>
        if on && Starts(d.app).Some? && !d.app.OtaStart? {
          Become(Ota(Starts(d.app).value, payload, part, View()));
        }
      case Boots(fates) =>
        if on && d.app.OtaStart? {
          clock := 0;
          var _ := RunPayload(d.app.slot, fates);
        }
      case PowerLoss(found) =>
        if durable <= found < |passed| {
          Become(Machine(passed[found], [passed[found]], 0, 0, true));
        }
    }
  }

  /** A feeder with a safe device, through any events: as long as no failure handler moved a leftover file into place,
      everything since its last start was safe; as long as none moved a half-written script into place, it has a
      startup script. */
  method Operate(d: Device, events: seq<Event>, ghost g: Image) returns (feeder: Feeder)
    requires Safe(g, d)
    ensures fresh(feeder) && Valid(feeder.View())
    ensures var m := Machine(d, [d], 0, 0, true);
      && feeder.View() == Life(m, events)
      && (NeverStale(g, m, events) ==> AllSafe(g, feeder.passed) && Safe(g, feeder.d))
      && (!d.app.Garbage? && NeverGarbage(m, events) ==> Whole(feeder.passed) && !feeder.d.app.Garbage?)
  {
    feeder := new Feeder(d);
    ghost var m := feeder.View();
    for i := 0 to |events|
      invariant fresh(feeder) && Valid(feeder.View()) && feeder.View() == Life(m, events[..i])
    {
      assert events[..i + 1][..i] == events[..i];
      feeder.Handle(events[i]);
    }
    assert events[..|events|] == events;
    OperatedSafely(g, d, events);
  }

  lemma OperatedSafely(g: Image, d: Device, events: seq<Event>)
    requires Safe(g, d)
    ensures var m := Machine(d, [d], 0, 0, true);
      && (NeverStale(g, m, events) ==> AllSafe(g, Life(m, events).passed) && Safe(g, Life(m, events).d))
      && (!d.app.Garbage? && NeverGarbage(m, events) ==>
            Whole(Life(m, events).passed) && !Life(m, events).d.app.Garbage?)
  {
    var m := Machine(d, [d], 0, 0, true);
    assert m.passed[..0] == [];
    LifeSafeIff(g, m, events);
    var r := Life(m, events);
    if NeverStale(g, m, events) { SafeAt(g, r.passed, |r.passed| - 1); }
    if !d.app.Garbage? && NeverGarbage(m, events) {
      LifeGarbageIff(m, events);
      WholeAt(r.passed, |r.passed| - 1);
    }
  }
}
