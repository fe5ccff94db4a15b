/** A write that waits for its preflight is never stranded: some read is in flight, and when it completes
    the preflight is submitted or the write is given up. */
module CoordinatorPreflight {
  import opened Wrappers
  import opened CoordinatorModel

  ghost predicate Busy(c: Coord) {
    c.pending.Some? && c.pending.value.stage == Preparing ==> c.token.Some?
  }

  lemma {:induction false} StartNextBusy(env: Env, c: Coord)
    requires Busy(c)
    ensures Busy(StartNextWrite(env, c))
    decreases 0, |c.queue|, 0
  {
    if c.pending.None? && c.state == Ready && c.queue != [] {
      StartWriteBusy(env, c.(queue := c.queue[1..]), c.queue[0]);
    }
  }

  lemma {:induction false} StartWriteBusy(env: Env, c: Coord, request: Request)
    ensures Busy(StartWrite(env, c, request))
    decreases 0, |c.queue|, 4
  {
    var c1 := Begin(c, request);
    if request.freshPreflight {
      PreflightBusy(env, c1, ReadMethod(request));
    } else {
      PublishBusy(env, c1, c1.latest);
    }
  }

  lemma {:induction false} PreflightBusy(env: Env, c: Coord, readMethod: Method)
    ensures Busy(Submit(env, c, readMethod, WritePreflight))
    decreases 0, |c.queue|, 3
  {
    var c0 := Log(c, SubmissionRefused);
    if c.token.None? && !env.submitOk(|c.journal|) {
      CompleteFailedBusy(env, Announce(c0.(healthy := false), false), true);
    }
  }

  lemma {:induction false} PublishBusy(env: Env, c: Coord, truth: Option<CoreRead>)
    ensures Busy(PublishPending(env, c, truth))
    decreases 0, |c.queue|, 2
  {
    if c.pending.None? || truth.None? {
      CompleteFailedBusy(env, c, false);
    } else {
      var p := c.pending.value;
      if Prepare(p.request.change, p.goal, truth.value, env.nowMs(|c.journal|)).Refused? {
        CompleteFailedBusy(env, c, false);
      } else if env.publish(|c.journal|).None? {
        CompleteFailedBusy(env, Log(c, PublisherFailed(p.id)), false);
      }
    }
  }

  lemma {:induction false} CompleteFailedBusy(env: Env, c: Coord, degraded: bool)
    ensures Busy(CompleteFailedWrite(env, c, degraded))
    decreases 0, |c.queue|, if degraded then 0 else 1
  {
    var c1 := DropPending(c);
    if !degraded {
      if c1.latest.Some? {
        var c2 := Commit(env, c1, c1.latest.value, c1.latestAt);
        if env.sinkOk(|c1.journal|) { StartNextBusy(env, c2.(state := Ready)); }
      } else {
        StartNextBusy(env, c1.(state := Ready));
      }
    }
  }

  lemma RequestBusy(env: Env, c: Coord, request: Request)
    requires Busy(c)
    ensures Busy(RequestWrite(env, c, request).0)
  {
    StartWriteBusy(env, c, request);
  }

  lemma AvailableBusy(env: Env, c: Coord)
    requires Busy(c)
    ensures Busy(AnnounceAvailable(env, c))
  {
    var c1 := Announce(c, true);
    match env.onAvailable(|c1.journal|)
    case None =>
    case Some(request) => RequestBusy(env, c1, request);
  }

  lemma NormalizeBusy(env: Env, c: Coord, truth: CoreRead)
    requires Busy(c)
    ensures Busy(MaybeNormalize(env, c, truth))
  {
    var rewrite := AutomaticRewrite(truth.plans, env.nowMs(|c.journal|));
    if rewrite.Some? { RequestBusy(env, c, NormalizationRequest(rewrite.value)); }
  }

  lemma DivergeBusy(env: Env, c: Coord, p: Pending, actual: CoreRead, apiFailure: bool)
    ensures Busy(Diverge(env, c, p, actual, apiFailure))
  {
    var c1 := Log(Commit(env, c, actual, p.observedAt), WriteDiverged(p.id)).(pending := None);
    if !apiFailure && env.sinkOk(|c.journal|) {
      var c2 := AnnounceAvailable(env, c1.(state := Ready));
      AvailableBusy(env, c1.(state := Ready));
      NormalizeBusy(env, c2, actual);
      StartNextBusy(env, if p.request.change.NormalizePlans? then c2 else MaybeNormalize(env, c2, actual));
    }
  }

  lemma RetryBusy(env: Env, c: Coord, apiFailure: bool)
    requires Busy(c)
    ensures Busy(RetryVerification(env, c, apiFailure))
  {
    if c.pending.Some? {
      var p := c.pending.value.(retryCount := c.pending.value.retryCount + 1);
      if p.retryCount < VERIFY_ATTEMPTS {
        ScheduleBusy(c.(pending := Some(p)));
      } else {
        GivenUpBusy(env, c.(pending := Some(p), state := Diverged), p, apiFailure);
      }
    }
  }

  lemma ScheduleBusy(c: Coord)
    requires Busy(c)
    ensures Busy(ScheduleVerification(c))
  {
  }

  lemma GivenUpBusy(env: Env, c: Coord, p: Pending, apiFailure: bool)
    ensures Busy(if p.lastObserved.None? then CompleteFailedWrite(env, c, apiFailure)
                 else Diverge(env, c, p, p.lastObserved.value, apiFailure))
  {
    if p.lastObserved.None? {
      CompleteFailedBusy(env, c, apiFailure);
    } else {
      DivergeBusy(env, c, p, p.lastObserved.value, apiFailure);
    }
  }

  lemma FailureBusy(env: Env, c: Coord, purpose: Purpose)
    requires Busy(c)
    ensures Busy(HandleAgentFailure(env, c, purpose))
  {
    var c0 := Announce(c.(healthy := false), false);
    if purpose == Verify {
      RetryBusy(env, c0, true);
    } else if purpose == WritePreflight {
      CompleteFailedBusy(env, c0, true);
    }
  }

  lemma SubmitBusy(env: Env, c: Coord, readMethod: Method, purpose: Purpose)
    requires Busy(c)
    ensures Busy(Submit(env, c, readMethod, purpose))
  {
    if c.token.None? && !env.submitOk(|c.journal|) { FailureBusy(env, Log(c, SubmissionRefused), purpose); }
  }

  /** Whatever a completed read left behind, a waiting preflight is taken up. */
  lemma DeferredBusy(env: Env, c: Coord)
    ensures Busy(MaybeProcessDeferred(env, c))
  {
    if c.token.None? {
      if c.pending.Some? && c.pending.value.stage == Preparing {
        PreflightBusy(env, c, ReadMethod(c.pending.value.request));
      } else if c.waiters > 0 && c.pending.None? {
        SubmitBusy(env, c, CoreMethod, PlanSnapshot);
      } else if c.pending.None? && c.state == Ready && c.queue != [] {
        StartWriteBusy(env, c.(queue := c.queue[1..]), c.queue[0]);
      } else if c.refresh && c.pending.None? {
        RefreshBusy(env, c);
      }
    }
  }

  lemma RefreshBusy(env: Env, c: Coord)
    requires Busy(c)
    ensures Busy(RefreshRevisions(env, c))
  {
    if c.connected && c.token.None? { SubmitBusy(env, c.(refresh := false), RevisionsMethod, Heartbeat); }
  }

  lemma ReconcileBusy(env: Env, c: Coord)
    requires Busy(c)
    ensures Busy(ReconcileFromFeeder(env, c))
  {
    if c.connected && c.token.None? { SubmitBusy(env, c.(state := Reconciling), CoreMethod, Reconcile); }
  }

  lemma ConnectedBusy(env: Env, c: Coord)
    requires Busy(c)
    ensures Busy(OnFeederConnected(env, c))
  {
    if !c.connected || c.state == Disconnected {
      ReconcileBusy(env, Announce(BeginSession(c), false).(state := Connected));
    }
  }

  lemma HeartbeatBusy(env: Env, c: Coord)
    requires Busy(c)
    ensures Busy(OnHeartbeat(env, c))
  {
    if !c.connected {
      ConnectedBusy(env, c);
    } else if c.state == Disconnected || !c.healthy {
      ReconcileBusy(env, c);
    } else if c.pending.None? {
      RefreshBusy(env, c);
    }
  }

  lemma SnapshotRequestBusy(env: Env, c: Coord)
    requires Busy(c)
    ensures Busy(RequestPlanSnapshot(env, c))
  {
    if c.connected && c.token.None? && c.pending.None? {
      SubmitBusy(env, c.(waiters := c.waiters + 1), CoreMethod, PlanSnapshot);
    }
  }

  lemma AckBusy(env: Env, c: Coord, receipt: Receipt, success: bool)
    requires Busy(c)
    ensures Busy(OnMqttAck(env, c, receipt, success).0)
  {
    if AckMatches(c, receipt) {
      var p := c.pending.value;
      var c1 := Log(CancelAckTimeout(c), Acknowledged(p.id, p.publishedAt, receipt, success));
      if !success {
        CompleteFailedBusy(env, c1, false);
      } else if p.request.ackOnly {
        StartNextBusy(env, Log(CancelTimers(c1), WriteUnverified(p.id)).(pending := None, state := Ready));
      }
    }
  }

  lemma TimerBusy(env: Env, c: Coord, timer: nat)
    requires Busy(c)
    ensures Busy(OnTimer(env, c, timer))
  {
    if timer in c.unfired && timer < |c.timers| {
      var d := c.(unfired := c.unfired - {timer});
      match c.timers[timer].kind
      case AckTimer => AckTimeoutBusy(env, d, c.timers[timer].pendingId);
      case VerifyTimer => VerificationTimerBusy(env, d, c.timers[timer].pendingId);
    }
  }

  lemma AckTimeoutBusy(env: Env, c: Coord, pendingId: nat)
    requires Busy(c)
    ensures Busy(OnAckTimeout(env, c, pendingId))
  {
    if c.pending.Some? {
      CompleteFailedBusy(env, Log(c.(ackTimer := None), AckTimedOut(pendingId, c.pending.value.stage)), false);
    }
  }

  lemma VerificationTimerBusy(env: Env, c: Coord, pendingId: nat)
    requires Busy(c)
    ensures Busy(OnVerificationTimer(env, c, pendingId))
  {
    if c.pending.Some? {
      SubmitBusy(env, c.(verifyTimer := None), ReadMethod(c.pending.value.request), Verify);
    }
  }

  lemma CompletionBusy(env: Env, c: Coord, token: nat, result: AgentResult)
    requires Busy(c)
    ensures Busy(AgentCallComplete(env, c, token, result))
  {
    if token < |c.calls| && c.calls[token].generation == c.generation && c.token == Some(token) {
      var call := c.calls[token];
      match result
      case Failed =>
        DeferredBusy(env, HandleAgentFailure(env, Log(c.(token := None), ReadFailed(token, call)), call.purpose));
      case Returned(value) =>
        DeferredBusy(env, Dispatch(env, Log(c.(token := None, healthy := true), ReadReturned(token, value)),
                                   token, call, value, |c.journal|));
    }
  }

  lemma StepBusy(env: Env, c: Coord, e: Event)
    requires Busy(c)
    ensures Busy(Step(env, c, e))
  {
    match e
    case FeederConnected => ConnectedBusy(env, c);
    case FeederDisconnected =>
    case HeartbeatSeen => HeartbeatBusy(env, c);
    case StateHint => RefreshBusy(env, c.(refresh := true));
    case WriteRequested(request) => RequestBusy(env, c, request);
    case SnapshotRequested => SnapshotRequestBusy(env, c);
    case AckReceived(receipt, success) => AckBusy(env, c, receipt, success);
    case TimerFires(timer) => TimerBusy(env, c, timer);
    case ReadCompletes(token, result) => CompletionBusy(env, c, token, result);
    case Shutdown =>
  }
}
