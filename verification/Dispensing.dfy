/** The projector and the backend's snapshot handling as objects, proved against `DispensingModel`. */
module Dispensing {
  import opened Wrappers
  import opened DispensingModel

  class DispensingStatusProjector {
    var currentState: Option<Progress>
    var available: bool
    var connectionGeneration: Option<nat>
    var runtimeEventGeneration: nat

    ghost function View(): Projector
      reads this
    {
      Projector(currentState, available, connectionGeneration, runtimeEventGeneration)
    }

    constructor ()
      ensures View() == INITIAL.projector
    {
      currentState, available, connectionGeneration, runtimeEventGeneration := None, false, None, 0;
    }

    method MarkUnavailable()
      modifies this
      ensures View() == old(View()).(available := false)
    {
      available := false;
    }

    method OnFeederConnected(generation: nat)
      modifies this
      ensures View() == old(View()).(connection := Some(generation), available := false)
    {
      connectionGeneration := Some(generation);
      MarkUnavailable();
    }

    method OnFeederDisconnected()
      modifies this
      ensures View() == old(View()).(connection := None, available := false)
    {
      connectionGeneration := None;
      MarkUnavailable();
    }

    method RuntimeSnapshotStarted(request: Request)
      modifies this
      ensures View() == SnapshotStarted(old(View()), request)
    {
      if connectionGeneration != Some(request.connection) {
        return;
      }
      MarkUnavailable();
    }

    method Publish(progress: Progress)
      modifies this
      ensures View() == Shown(old(View()), progress)
    {
      currentState := Some(progress);
      available := true;
    }

    /** Refused from another connection or from before a grain event; a failure only hides the status. */
    method ApplyRuntimeSnapshot(request: Request, outcome: Outcome) returns (applied: bool)
      modifies this
      ensures View() == SnapshotApplied(old(View()), request, outcome)
      ensures applied <==> SnapshotShows(old(View()), request, outcome).Some?
    {
      if connectionGeneration != Some(request.connection) {
        return false;
      }
      if request.events != runtimeEventGeneration {
        return false;
      }
      if outcome.Failure? {
        MarkUnavailable();
        return false;
      }
      var progress := MotorProgress(outcome.state);
      if progress.None? {
        MarkUnavailable();
        return false;
      }
      Publish(progress.value);
      applied := true;
    }

    method ApplyGrainEvent(progress: Progress, generation: nat) returns (applied: bool)
      modifies this
      ensures View() == GrainApplied(old(View()), progress, generation)
      ensures applied <==> GrainAccepted(old(View()), progress, generation)
    {
      if connectionGeneration != Some(generation) {
        return false;
      }
      if progress != Running && progress != Blocked && progress != Idle {
        return false;
      }
      runtimeEventGeneration := runtimeEventGeneration + 1;
      Publish(progress);
      applied := true;
    }
  }

  class Backend {
    const projector: DispensingStatusProjector
    var isOnline: bool
    var connectionGeneration: nat
    var runtimeSnapshotPending: Option<Request>
    var lastHeartbeatCount: int
    var nextMessageId: nat
    ghost var journal: seq<Fact>

    ghost function View(): System
      reads this, projector
    {
      System(projector.View(), isOnline, connectionGeneration, runtimeSnapshotPending, lastHeartbeatCount, journal)
    }

    ghost predicate Valid()
      reads this, projector
    {
      nextMessageId == |journal| && Inv(View())
    }

    constructor ()
      ensures Valid() && View() == INITIAL && fresh(projector)
    {
      projector := new DispensingStatusProjector();
      isOnline, connectionGeneration, runtimeSnapshotPending, lastHeartbeatCount := false, 0, None, 0;
      nextMessageId, journal := 0, [];
    }

    method Record(ghost f: Fact)
      modifies `journal, `nextMessageId
      ensures journal == old(journal) + [f] && nextMessageId == old(nextMessageId) + 1
    {
      journal := journal + [f];
      nextMessageId := nextMessageId + 1;
    }

    method GoOffline()
      requires nextMessageId == |journal|
      modifies this, projector
      ensures nextMessageId == |journal| && View() == DispensingModel.GoOffline(old(View()))
    {
      isOnline := false;
      runtimeSnapshotPending := None;
      Record(WentOffline);
      projector.OnFeederDisconnected();
    }

    /** The pending request is cleared and its result goes to the projector. */
    method Deliver(request: Request, outcome: Outcome)
      requires nextMessageId == |journal|
      modifies this, projector
      ensures nextMessageId == |journal| && View() == DispensingModel.Deliver(old(View()), request, outcome)
    {
      runtimeSnapshotPending := None;
      Record(Answered(request.id, SnapshotShows(projector.View(), request, outcome)));
      var _ := projector.ApplyRuntimeSnapshot(request, outcome);
    }

    method RequestRuntimeSnapshot(sendOk: bool) returns (requested: bool)
      requires nextMessageId == |journal|
      modifies this, projector
      ensures nextMessageId == |journal| && View() == RequestSnapshot(old(View()), sendOk)
      ensures requested <==> old(isOnline) && sendOk
    {
      if !isOnline {
        return false;
      }
      var request := Request(nextMessageId, connectionGeneration, projector.runtimeEventGeneration);
      runtimeSnapshotPending := Some(request);
      Record(Asked);
      projector.RuntimeSnapshotStarted(request);
      if !sendOk {
        Deliver(request, Failure);
        return false;
      }
      requested := true;
    }

    method HeartbeatCb(count: int, sendOk: bool)
      requires nextMessageId == |journal|
      modifies this, projector
      ensures nextMessageId == |journal| && View() == Heartbeat(old(View()), count, sendOk)
    {
      if count < lastHeartbeatCount {
        if isOnline {
          GoOffline();
        }
      }
      lastHeartbeatCount := count;
      if !isOnline {
        isOnline := true;
        connectionGeneration := connectionGeneration + 1;
        Record(WentOnline);
        projector.OnFeederConnected(connectionGeneration);
        var _ := RequestRuntimeSnapshot(sendOk);
      }
    }

    method HeartbeatWatchdogTrigger()
      requires nextMessageId == |journal|
      modifies this, projector
      ensures nextMessageId == |journal| && View() == Step(old(View()), ConnectionLost(false))
    {
      if isOnline {
        GoOffline();
      }
    }

    method AttrGetServiceCb(id: nat, outcome: Outcome)
      requires nextMessageId == |journal|
      modifies this, projector
      ensures nextMessageId == |journal| && View() == Answer(old(View()), id, outcome)
    {
      var pending := runtimeSnapshotPending;
      if pending.None? || id != pending.value.id {
        return;
      }
      if pending.value.connection != connectionGeneration {
        runtimeSnapshotPending := None;
        return;
      }
      Deliver(pending.value, outcome);
    }

    method RuntimeSnapshotTimeout(id: nat, connection: nat)
      requires nextMessageId == |journal|
      modifies this, projector
      ensures nextMessageId == |journal| && View() == TimedOut(old(View()), id, connection)
    {
      var pending := runtimeSnapshotPending;
      if pending.None? || id != pending.value.id || connection != pending.value.connection {
        return;
      }
      Deliver(pending.value, Failure);
    }

    method FoodOutputProgress(progress: Progress)
      requires nextMessageId == |journal|
      modifies this, projector
      ensures nextMessageId == |journal| && View() == GrainEvent(old(View()), progress)
    {
      var applied := projector.ApplyGrainEvent(progress, connectionGeneration);
      if applied {
        Record(Grain(progress));
      }
    }

    method HomeAssistantStatusCb(sendOk: bool)
      requires nextMessageId == |journal|
      modifies this, projector
      ensures nextMessageId == |journal| && View() == Birth(old(View()), sendOk)
    {
      projector.MarkUnavailable();
      var _ := RequestRuntimeSnapshot(sendOk);
    }

    /** Any event, in any state. */
    method Handle(e: Event)
      requires Valid()
      modifies this, projector
      ensures Valid() && View() == Step(old(View()), e)
    {
      StepKept(View(), e);
      match e {
        case HeartbeatReceived(count, sendOk) => HeartbeatCb(count, sendOk);
        case ConnectionLost(always) =>
          if always {
            GoOffline();
          } else {
            HeartbeatWatchdogTrigger();
          }
        case SnapshotAnswer(id, outcome) => AttrGetServiceCb(id, outcome);
        case SnapshotTimeout(id, connection) => RuntimeSnapshotTimeout(id, connection);
        case GrainReported(progress) => FoodOutputProgress(progress);
        case HomeAssistantBirth(sendOk) => HomeAssistantStatusCb(sendOk);
      }
    }
  }

  /** A new backend, fed any events: whatever is then on display is fresh, and no request had two results. */
  method Operate(events: seq<Event>) returns (backend: Backend)
    ensures fresh(backend) && fresh(backend.projector) && backend.Valid() && backend.View() == Run(events)
    ensures Fresh(backend.View()) && ResultsUnique(backend.journal)
  {
    backend := new Backend();
    for i := 0 to |events|
      invariant fresh(backend) && fresh(backend.projector) && backend.Valid()
      invariant backend.View() == Run(events[..i])
    {
      assert events[..i + 1][..i] == events[..i];
      backend.Handle(events[i]);
    }
    assert events[..|events|] == events;
    FreshInv(backend.View());
    OrderlyMeansUnique(backend.journal);
  }
}
