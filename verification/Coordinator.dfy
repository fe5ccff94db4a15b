/** `FeederStateCoordinator` in its own form: an object whose methods update its attributes. Each method
    is proved against the function of the same name in `CoordinatorModel`, and keeps its invariant. */
module Coordinator {
  import opened Wrappers
  import opened FeedPlans
  import opened CoordinatorModel
  import M = CoordinatorModel
  import opened CoordinatorSafety
  import opened CoordinatorHistory
  import opened CoordinatorRuns
  import opened CoordinatorTheorems

  /** What the executor, the timers and everyone else have been handed so far. */
  datatype Outside = Outside(calls: seq<AgentCall>, timers: seq<Timer>, unfired: set<nat>, nextId: nat,
                             latestAt: nat, mirroredAt: nat)
  {
    function Scheduling(t: Timer): Outside {
      this.(timers := timers + [t], unfired := unfired + {|timers|})
    }

    function Firing(k: nat): Outside {
      this.(unfired := unfired - {k})
    }
  }

  class FeederStateCoordinator {
    const env: Env

    var state: FeederState
    var connected: bool
    var healthy: bool
    var latest: Option<CoreRead>
    var latestRev: Option<string>
    var pending: Option<Pending>
    var queue: seq<Request>
    var applying: bool
    var generation: nat
    var token: Option<nat>
    var refresh: bool
    var waiters: nat
    var ackTimer: Option<nat>
    var verifyTimer: Option<nat>
    var outside: Outside

    // what has happened so far, and how much that is
    ghost var journal: seq<Entry>
    var moment: nat

    ghost predicate Valid()
      reads this
    {
      moment == |journal|
    }

    ghost function View(): Coord
      reads this
    {
      Coord(state, connected, healthy, latest, latestRev, pending, queue, applying, generation, token,
            refresh, waiters, ackTimer, verifyTimer, outside.calls, outside.timers, outside.unfired,
            outside.nextId, outside.latestAt, outside.mirroredAt, journal)
    }

    constructor (env: Env)
      ensures Valid() && this.env == env && View() == INITIAL && Sound(View())
    {
      this.env := env;
      state, connected, healthy, latest, latestRev := Disconnected, false, false, None, None;
      pending, queue, applying, generation, token := None, [], false, 0, None;
      refresh, waiters, ackTimer, verifyTimer := false, 0, None, None;
      outside := Outside([], [], {}, 0, 0, 0);
      journal, moment := [], 0;
      new;
      RunKept(env, []);
    }

    method Enter(ghost e: Entry)
      requires Valid()
      modifies this`journal, this`moment
      ensures Valid() && View() == M.Log(old(View()), e)
    {
      journal := journal + [e];
      moment := moment + 1;
    }

    method CancelAckTimeout()
      requires Valid()
      modifies this`ackTimer
      ensures Valid() && View() == M.CancelAckTimeout(old(View()))
    {
      if ackTimer.Some? {
        ackTimer := None;
      }
    }

    method CancelTimers()
      requires Valid()
      modifies this`ackTimer, this`verifyTimer
      ensures Valid() && View() == M.CancelTimers(old(View()))
    {
      CancelAckTimeout();
      if verifyTimer.Some? {
        verifyTimer := None;
      }
    }

    method Degrade()
      requires Valid()
      modifies this`state, this`journal, this`moment
      ensures Valid() && View() == M.Degrade(old(View()))
    {
      state := Disconnected;
      Enter(Available(false));
    }

    method DropPending()
      requires Valid()
      modifies this`pending, this`ackTimer, this`verifyTimer, this`journal, this`moment
      ensures Valid() && View() == M.DropPending(old(View()))
    {
      if pending.Some? {
        Enter(WriteFailed(pending.value.id));
      }
      CancelTimers();
      pending := None;
    }

    method FinishSnapshots(plans: Option<seq<FeederPlan>>, readAt: nat)
      requires Valid()
      modifies this`waiters, this`journal, this`moment
      ensures Valid() && View() == M.FinishSnapshots(old(View()), plans, readAt)
    {
      if waiters > 0 {
        Enter(SnapshotAnswered(waiters, plans, readAt));
        waiters := 0;
      }
    }

    method ScheduleVerification()
      requires Valid()
      modifies this`outside, this`verifyTimer
      ensures Valid() && View() == M.ScheduleVerification(old(View()))
    {
      if pending.Some? {
        verifyTimer := Some(|outside.timers|);
        outside := outside.Scheduling(Timer(VerifyTimer, pending.value.id));
      }
    }

    method Commit(truth: CoreRead, readAt: nat) returns (projected: bool)
      requires Valid()
      modifies this`applying, this`outside, this`latest, this`latestRev, this`journal, this`moment
      ensures Valid() && View() == M.Commit(env, old(View()), truth, readAt)
      ensures projected == env.sinkOk(old(moment))
    {
      applying := true;
      projected := env.sinkOk(moment);
      outside := outside.(latestAt := readAt, mirroredAt := moment);
      Enter(Mirrored(truth, readAt, projected));
      applying := false;
      latest := Some(truth);
      latestRev := Some(truth.coreRev);
    }

    /** Searches the queue from its end for a request to the same control. */
    method QueueWrite(request: Request) returns (accepted: bool)
      requires Valid()
      modifies this`queue
      ensures Valid() && (View(), accepted) == M.QueueWrite(old(View()), request)
    {
      var i := |queue|;
      assert queue[..i] == queue;
      while i > 0
        invariant 0 <= i <= |queue| && queue == old(queue)
        invariant LastIndexOf(queue, request.control) == LastIndexOf(queue[..i], request.control)
      {
        i := i - 1;
        assert queue[..i + 1][..i] == queue[..i];
        if queue[i].control == request.control {
          queue := queue[i := request];
          return true;
        }
      }
      if |queue| >= MAX_QUEUED_WRITES {
        return false;
      }
      queue := queue + [request];
      return true;
    }

    /** The pending write ends with this entry. */
    method Close(e: Entry, next: FeederState)
      requires Valid()
      modifies this`pending, this`state, this`journal, this`moment
      ensures Valid() && View() == M.Log(old(View()), e).(pending := None, state := next)
    {
      Enter(e);
      pending := None;
      state := next;
    }

    method Begin(request: Request)
      requires Valid()
      modifies this`pending, this`outside, this`state, this`journal, this`moment
      ensures Valid() && View() == M.Begin(old(View()), request)
    {
      var stage := if request.freshPreflight then Preparing else AwaitingAck;
      pending := Some(Pending(outside.nextId, request, stage, None, request.goal, None, 0, None,
                              request.freshPreflight, moment, 0, 0, 0, 0, 0, 0));
      Enter(Started(outside.nextId, generation, request.freshPreflight));
      outside := outside.(nextId := outside.nextId + 1);
      state := PendingState;
    }

    // -------------------------------------------------------------- writes

    method StartNextWrite()
      requires Valid()
      modifies this
      ensures Valid() && View() == M.StartNextWrite(env, old(View()))
      decreases 0, |queue|, 0
    {
      if pending.None? && state == Ready && queue != [] {
        var request := queue[0];
        queue := queue[1..];
        StartWrite(request);
      }
    }

    method StartWrite(request: Request)
      requires Valid()
      modifies this
      ensures Valid() && View() == M.StartWrite(env, old(View()), request)
      decreases 0, |queue|, 4
    {
      Begin(request);
      if request.freshPreflight {
        Submit(ReadMethod(request), WritePreflight);
      } else {
        PublishPending(latest);
      }
    }

    method PublishPending(truth: Option<CoreRead>)
      requires Valid()
      modifies this
      ensures Valid() && View() == M.PublishPending(env, old(View()), truth)
      decreases 0, |queue|, 2
    {
      if pending.None? || truth.None? {
        CompleteFailedWrite(false);
        return;
      }
      var p := pending.value;
      var nowMs := env.nowMs(moment);
      var prepared := Prepare(p.request.change, p.goal, truth.value, nowMs);
      if prepared.Refused? {
        CompleteFailedWrite(false);
        return;
      }
      var receipt := env.publish(moment);
      if receipt.None? {
        Enter(PublisherFailed(p.id));
        CompleteFailedWrite(false);
        return;
      }
      pending := Some(p.(receipt := receipt, stage := AwaitingAck, goal := prepared.value.goal,
                         baseline := truth, readAt := outside.latestAt, publishedAt := moment,
                         preparedMs := nowMs));
      Enter(Published(p.id, generation, outside.latestAt, truth.value, prepared.value.outgoing,
                      receipt.value));
      ackTimer := Some(|outside.timers|);
      outside := outside.Scheduling(Timer(AckTimer, p.id));
    }

    method CompleteFailedWrite(degraded: bool)
      requires Valid()
      modifies this
      ensures Valid() && View() == M.CompleteFailedWrite(env, old(View()), degraded)
      decreases 0, |queue|, if degraded then 0 else 1
    {
      DropPending();
      if degraded {
        Degrade();
        return;
      }
      if latest.Some? {
        var projected := Commit(latest.value, outside.latestAt);
        if !projected {
          Degrade();
          return;
        }
      }
      state := Ready;
      StartNextWrite();
    }

    method Submit(readMethod: Method, purpose: Purpose)
      requires Valid()
      modifies this
      ensures Valid() && View() == M.Submit(env, old(View()), readMethod, purpose)
      decreases 0, |queue|, 3
    {
      if token.Some? {
        refresh := true;
        return;
      }
      if env.submitOk(moment) {
        EnterCall(readMethod, purpose);
      } else {
        Enter(SubmissionRefused);
        HandleAgentFailure(purpose);
      }
    }

    /** The executor took the call. */
    method EnterCall(readMethod: Method, purpose: Purpose)
      requires Valid()
      modifies this`token, this`outside, this`journal, this`moment
      ensures Valid() && View() == M.Submitted(old(View()), M.NextCall(old(View()), readMethod, purpose))
    {
      token := Some(|outside.calls|);
      var call := AgentCall(readMethod, purpose, generation, moment,
                            if pending.Some? then Some(pending.value.id) else None,
                            if pending.Some? then Some(pending.value.stage) else None);
      Enter(ReadSubmitted(|outside.calls|, call));
      outside := outside.(calls := outside.calls + [call]);
    }

    method HandleAgentFailure(purpose: Purpose)
      requires Valid()
      modifies this
      ensures Valid() && View() == M.HandleAgentFailure(env, old(View()), purpose)
      decreases 0, |queue|, 2
    {
      healthy := false;
      Enter(Available(false));
      if purpose == Verify && pending.Some? {
        RetryVerification(true);
      } else if purpose == PlanSnapshot {
        FinishSnapshots(None, 0);
        state := Disconnected;
      } else if purpose == WritePreflight {
        CompleteFailedWrite(true);
      } else {
        state := Disconnected;
      }
    }

    method Recount() returns (p: Pending)
      requires pending.Some?
      requires Valid()
      modifies this`pending
      ensures p == old(pending.value).(retryCount := old(pending.value).retryCount + 1)
      ensures Valid() && View() == old(View()).(pending := Some(p))
    {
      p := pending.value.(retryCount := pending.value.retryCount + 1);
      pending := Some(p);
    }

    method RetryVerification(apiFailure: bool)
      requires Valid()
      modifies this
      ensures Valid() && View() == M.RetryVerification(env, old(View()), apiFailure)
      decreases if apiFailure then 0 else 3, |queue|, 1
    {
      if pending.None? {
        return;
      }
      var p := Recount();
      if p.retryCount < VERIFY_ATTEMPTS {
        ScheduleVerification();
        return;
      }
      state := Diverged;
      ghost var c := View();
      assert c == old(View()).(pending := Some(p), state := Diverged);
      if p.lastObserved.None? {
        CompleteFailedWrite(apiFailure);
        assert View() == M.CompleteFailedWrite(env, c, apiFailure);
        return;
      }
      Diverge(p, p.lastObserved.value, apiFailure);
      assert View() == M.Diverge(env, c, p, p.lastObserved.value, apiFailure);
    }

    method Diverge(p: Pending, actual: CoreRead, apiFailure: bool)
      requires Valid()
      modifies this
      ensures Valid() && View() == M.Diverge(env, old(View()), p, actual, apiFailure)
      decreases if apiFailure then 0 else 3, |queue|, 0
    {
      var projected := Commit(actual, p.observedAt);
      if apiFailure || !projected {
        Close(WriteDiverged(p.id), state);
        Degrade();
        return;
      }
      Close(WriteDiverged(p.id), Ready);
      AnnounceAvailable();
      if !p.request.change.NormalizePlans? {
        MaybeNormalize(actual);
      }
      StartNextWrite();
    }

    method AnnounceAvailable()
      requires Valid()
      modifies this
      ensures Valid() && View() == M.AnnounceAvailable(env, old(View()))
      decreases 2, |queue|, 0
    {
      Enter(Available(true));
      var request := env.onAvailable(moment);
      if request.Some? {
        var _ := RequestWrite(request.value);
      }
    }

    method RequestWrite(request: Request) returns (accepted: bool)
      requires Valid()
      modifies this
      ensures Valid() && (View(), accepted) == M.RequestWrite(env, old(View()), request)
      decreases 1, |queue|, 0
    {
      if applying {
        return false;
      }
      if !connected || !healthy {
        return false;
      }
      if pending.Some? {
        if pending.value.stage == Preparing && pending.value.request.control == request.control {
          pending := Some(pending.value.(request := request));
          return true;
        }
        accepted := QueueWrite(request);
        return;
      }
      if state != Ready || latest.None? {
        return false;
      }
      if token.Some? {
        accepted := QueueWrite(request);
        return;
      }
      StartWrite(request);
      return true;
    }

    method MaybeNormalize(truth: CoreRead)
      requires Valid()
      modifies this
      ensures Valid() && View() == M.MaybeNormalize(env, old(View()), truth)
      decreases 2, |queue|, 0
    {
      var rewrite := AutomaticRewrite(truth.plans, env.nowMs(moment));
      if rewrite.Some? && env.canNormalize {
        var _ := RequestWrite(NormalizationRequest(rewrite.value));
      }
    }

    // -------------------------------------------------------------- reads

    method ReconcileFromFeeder()
      requires Valid()
      modifies this
      ensures Valid() && View() == M.ReconcileFromFeeder(env, old(View()))
    {
      if !connected || token.Some? {
        return;
      }
      state := Reconciling;
      Submit(CoreMethod, Reconcile);
    }

    method RefreshRevisions()
      requires Valid()
      modifies this
      ensures Valid() && View() == M.RefreshRevisions(env, old(View()))
    {
      if !connected || token.Some? {
        refresh := true;
        return;
      }
      refresh := false;
      Submit(RevisionsMethod, Heartbeat);
    }

    method HandleRevisionSnapshot(value: AgentValue)
      requires Valid()
      modifies this
      ensures Valid() && View() == M.HandleRevisionSnapshot(env, old(View()), value)
    {
      if !value.RevisionValue? {
        HandleAgentFailure(Heartbeat);
      } else if latestRev.None? || value.coreRev != latestRev.value {
        Submit(CoreMethod, Reconcile);
      }
    }

    method HandleReconciledTruth(value: AgentValue, readAt: nat)
      requires Valid()
      modifies this
      ensures Valid() && View() == M.HandleReconciledTruth(env, old(View()), value, readAt)
    {
      if !value.TruthValue? {
        HandleAgentFailure(Reconcile);
        return;
      }
      var projected := Commit(value.truth, readAt);
      if !projected {
        Degrade();
        return;
      }
      state := Ready;
      MaybeNormalize(value.truth);
      AnnounceAvailable();
      StartNextWrite();
    }

    method HandleWritePreflight(value: AgentValue, call: AgentCall, readAt: nat)
      requires Valid()
      modifies this
      ensures Valid() && View() == M.HandleWritePreflight(env, old(View()), value, call, readAt)
    {
      if pending.None? || pending.value.stage != Preparing {
        return;
      }
      if !value.TruthValue? {
        CompleteFailedWrite(false);
        return;
      }
      var projected := Commit(value.truth, readAt);
      if !projected {
        CompleteFailedWrite(true);
        return;
      }
      pending := Some(pending.value.(preflightAt := call.at));
      PublishPending(Some(value.truth));
    }

    method HandleVerificationTruth(value: AgentValue, operation: nat, call: AgentCall, readAt: nat)
      requires Valid()
      modifies this
      ensures Valid() && View() == M.HandleVerificationTruth(env, old(View()), value, operation, call, readAt)
    {
      if pending.None? || pending.value.stage != Verifying {
        return;
      }
      if !value.TruthValue? {
        RetryVerification(false);
        return;
      }
      var p := pending.value.(lastObserved := Some(value.truth), observedAt := readAt);
      pending := Some(p);
      if p.goal.None? || !Matches(p.goal.value, value.truth) {
        RetryVerification(false);
        return;
      }
      var projected := Commit(value.truth, readAt);
      if !projected {
        CompleteFailedWrite(true);
        return;
      }
      AcceptVerified(p, operation, call, readAt, value.truth);
    }

    method AcceptVerified(p: Pending, operation: nat, call: AgentCall, readAt: nat, truth: CoreRead)
      requires Valid()
      modifies this
      ensures Valid() && View() == M.AcceptVerified(env, old(View()), p, operation, call, readAt, truth)
    {
      Close(Verified(p, operation, call, readAt, truth), Ready);
      AnnounceAvailable();
      MaybeNormalize(truth);
      StartNextWrite();
    }

    method HandlePlanSnapshot(value: AgentValue, readAt: nat)
      requires Valid()
      modifies this
      ensures Valid() && View() == M.HandlePlanSnapshot(env, old(View()), value, readAt)
    {
      if !value.TruthValue? {
        FinishSnapshots(None, 0);
        return;
      }
      var projected := Commit(value.truth, readAt);
      SnapshotMirrored(projected);
      AnswerSnapshot(value.truth, readAt, projected);
    }

    method SnapshotMirrored(projected: bool)
      requires Valid()
      modifies this
      ensures Valid() && View() == M.SnapshotMirrored(env, old(View()), projected)
    {
      if !projected {
        Degrade();
      } else if state == Disconnected {
        state := Ready;
        AnnounceAvailable();
      }
    }

    method AnswerSnapshot(truth: CoreRead, readAt: nat, projected: bool)
      requires Valid()
      modifies this
      ensures Valid() && View() == M.AnswerSnapshot(env, old(View()), truth, readAt, projected)
    {
      FinishSnapshots(Some(truth.plans), readAt);
      if projected && state == Ready {
        MaybeNormalize(truth);
      }
    }

    method MaybeProcessDeferred()
      requires Valid()
      modifies this
      ensures Valid() && View() == M.MaybeProcessDeferred(env, old(View()))
    {
      if token.Some? {
        return;
      }
      if pending.Some? && pending.value.stage == Preparing {
        Submit(ReadMethod(pending.value.request), WritePreflight);
      } else if waiters > 0 && pending.None? {
        Submit(CoreMethod, PlanSnapshot);
      } else if pending.None? && state == Ready && queue != [] {
        var request := queue[0];
        queue := queue[1..];
        StartWrite(request);
      } else if refresh && pending.None? {
        RefreshRevisions();
      }
    }

    method Dispatch(operation: nat, call: AgentCall, value: AgentValue, readAt: nat)
      requires Valid()
      modifies this
      ensures Valid() && View() == M.Dispatch(env, old(View()), operation, call, value, readAt)
    {
      match call.purpose
      case Heartbeat => HandleRevisionSnapshot(value);
      case Reconcile => HandleReconciledTruth(value, readAt);
      case WritePreflight => HandleWritePreflight(value, call, readAt);
      case Verify => HandleVerificationTruth(value, operation, call, readAt);
      case PlanSnapshot => HandlePlanSnapshot(value, readAt);
    }

    method AgentCallComplete(operation: nat, result: AgentResult)
      requires Valid()
      modifies this
      ensures Valid() && View() == M.AgentCallComplete(env, old(View()), operation, result)
    {
      if operation >= |outside.calls| || outside.calls[operation].generation != generation || token != Some(operation) {
        return;
      }
      var call := outside.calls[operation];
      token := None;
      match result
      case Failed =>
        Enter(ReadFailed(operation, call));
        HandleAgentFailure(call.purpose);
        MaybeProcessDeferred();
      case Returned(value) =>
        healthy := true;
        var readAt := moment;
        Enter(ReadReturned(operation, value));
        Dispatch(operation, call, value, readAt);
        MaybeProcessDeferred();
    }

    // -------------------------------------------------------------- events

    method OnFeederConnected()
      requires Valid()
      modifies this
      ensures Valid() && View() == M.OnFeederConnected(env, old(View()))
    {
      if connected && state != Disconnected {
        return;
      }
      BeginSession();
      Enter(Available(false));
      state := Connected;
      ReconcileFromFeeder();
    }

    method BeginSession()
      requires Valid()
      modifies this`generation, this`connected, this`journal, this`moment
      ensures Valid() && View() == M.BeginSession(old(View()))
    {
      if !connected {
        generation := generation + 1;
        connected := true;
        Enter(SessionBegan(generation));
      }
    }

    method AbandonWork()
      requires Valid()
      modifies this`token, this`pending, this`queue, this`ackTimer, this`verifyTimer
      ensures Valid() && View() == M.AbandonWork(old(View()))
    {
      token := None;
      CancelTimers();
      pending := None;
      queue := [];
    }

    method EndSession()
      requires Valid()
      modifies this
      ensures Valid() && View() == M.EndSession(old(View()))
    {
      AbandonWork();
      ghost var c := View();
      connected, healthy, generation := false, false, generation + 1;
      assert View() == c.(connected := false, healthy := false, generation := c.generation + 1);
      state := Disconnected;
      Enter(SessionEnded);
    }

    method OnFeederDisconnected()
      requires Valid()
      modifies this
      ensures Valid() && View() == M.OnFeederDisconnected(old(View()))
    {
      EndSession();
      Enter(Available(false));
    }

    method OnShutdown()
      requires Valid()
      modifies this
      ensures Valid() && View() == M.OnShutdown(old(View()))
    {
      EndSession();
      refresh := false;
      waiters := 0;
    }

    method OnHeartbeat()
      requires Valid()
      modifies this
      ensures Valid() && View() == M.OnHeartbeat(env, old(View()))
    {
      if !connected {
        OnFeederConnected();
      } else if state == Disconnected || !healthy {
        ReconcileFromFeeder();
      } else if pending.Some? {
        refresh := true;
      } else {
        RefreshRevisions();
      }
    }

    method OnStateHint()
      requires Valid()
      modifies this
      ensures Valid() && View() == M.OnStateHint(env, old(View()))
    {
      if state == Ready && pending.None? {
        refresh := true;
        RefreshRevisions();
      }
    }

    method RequestPlanSnapshot()
      requires Valid()
      modifies this
      ensures Valid() && View() == M.RequestPlanSnapshot(env, old(View()))
    {
      waiters := waiters + 1;
      if !connected {
        FinishSnapshots(None, 0);
      } else if token.None? && pending.None? {
        Submit(CoreMethod, PlanSnapshot);
      }
    }

    method OnMqttAck(receipt: Receipt, success: bool) returns (matched: bool)
      requires Valid()
      modifies this
      ensures Valid() && (View(), matched) == M.OnMqttAck(env, old(View()), receipt, success)
    {
      if pending.None? || pending.value.stage != AwaitingAck || pending.value.receipt != Some(receipt) {
        return false;
      }
      var p := pending.value;
      CancelAckTimeout();
      var ackedAt := moment;
      Enter(Acknowledged(p.id, p.publishedAt, receipt, success));
      if !success {
        CompleteFailedWrite(false);
        return true;
      }
      if p.request.ackOnly {
        FinishUnverified(p);
        return true;
      }
      BeginVerification(p, ackedAt);
      return true;
    }

    /** A write that asks for no verification is over with its acknowledgement. */
    method FinishUnverified(p: Pending)
      requires Valid()
      modifies this
      ensures Valid() && View() == M.StartNextWrite(env, M.Log(M.CancelTimers(old(View())), WriteUnverified(p.id))
                                              .(pending := None, state := Ready))
    {
      CancelTimers();
      Close(WriteUnverified(p.id), Ready);
      StartNextWrite();
    }

    method BeginVerification(p: Pending, ackedAt: nat)
      requires Valid()
      modifies this
      ensures Valid()
      ensures View() == M.ScheduleVerification(
                          old(View()).(pending := Some(p.(stage := Verifying, ackedAt := ackedAt)),
                                       state := VerifyingState))
    {
      pending := Some(p.(stage := Verifying, ackedAt := ackedAt));
      state := VerifyingState;
      ScheduleVerification();
    }

    method OnAckTimeout(pendingId: nat)
      requires Valid()
      modifies this
      ensures Valid() && View() == M.OnAckTimeout(env, old(View()), pendingId)
    {
      ackTimer := None;
      if pending.Some? && pending.value.id == pendingId {
        Enter(AckTimedOut(pendingId, pending.value.stage));
        CompleteFailedWrite(false);
      }
    }

    method OnVerificationTimer(pendingId: nat)
      requires Valid()
      modifies this
      ensures Valid() && View() == M.OnVerificationTimer(env, old(View()), pendingId)
    {
      verifyTimer := None;
      if pending.None? || pending.value.id != pendingId {
        return;
      }
      if token.Some? {
        ScheduleVerification();
      } else {
        Submit(ReadMethod(pending.value.request), Verify);
      }
    }

    method OnTimer(timer: nat)
      requires Valid()
      modifies this
      ensures Valid() && View() == M.OnTimer(env, old(View()), timer)
    {
      if timer in outside.unfired && timer < |outside.timers| {
        outside := outside.Firing(timer);
        match outside.timers[timer].kind
        case AckTimer => OnAckTimeout(outside.timers[timer].pendingId);
        case VerifyTimer => OnVerificationTimer(outside.timers[timer].pendingId);
      }
    }

    /** One event; the invariant that all claims about runs rest on is kept. */
    method Handle(e: Event)
      requires Valid() && Sound(View())
      modifies this
      ensures Valid() && View() == Step(env, old(View()), e) && Sound(View())
    {
      StepKept(env, View(), e);
      match e
      case FeederConnected => OnFeederConnected();
      case FeederDisconnected => OnFeederDisconnected();
      case HeartbeatSeen => OnHeartbeat();
      case StateHint => OnStateHint();
      case WriteRequested(request) => var _ := RequestWrite(request);
      case SnapshotRequested => RequestPlanSnapshot();
      case AckReceived(receipt, success) => var _ := OnMqttAck(receipt, success);
      case TimerFires(timer) => OnTimer(timer);
      case ReadCompletes(operation, result) => AgentCallComplete(operation, result);
      case Shutdown => OnShutdown();
    }
  }

  /** A new coordinator, fed any events against any outside. Whatever it did, its own journal tells of no
      verified write that did not happen, of nothing mirrored that was not read, of no command out of
      turn, and of at most four verification reads for each write; and the truth it holds was read. */
  method Operate(env: Env, events: seq<Event>) returns (feeder: FeederStateCoordinator)
    ensures fresh(feeder) && feeder.Valid() && feeder.View() == Run(env, events)
    ensures VerifiedWritesHappened(feeder.journal)
    ensures MirrorsReads(feeder.journal)
    ensures PublishesWithDiscipline(feeder.journal)
    ensures forall id :: VerifyReads(feeder.journal, id) <= 4
    ensures feeder.latest.Some? ==>
      exists r | 0 <= r < |feeder.journal| :: IsRead(feeder.journal[r], feeder.latest.value)
  {
    feeder := new FeederStateCoordinator(env);
    for i := 0 to |events|
      invariant fresh(feeder) && feeder.Valid() && feeder.env == env
      invariant feeder.View() == Run(env, events[..i]) && Sound(feeder.View())
    {
      assert events[..i + 1][..i] == events[..i];
      feeder.Handle(events[i]);
    }
    assert events[..|events|] == events;
    JournalReliable(feeder.journal);
    forall id: nat ensures VerifyReads(feeder.journal, id) <= 4 { VerifyReadsBounded(feeder.journal, id); }
    TruthProvenance(env, events);
  }
}
