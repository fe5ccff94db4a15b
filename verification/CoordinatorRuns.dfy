/** Every event keeps the invariant, so every run does; and what that says about whole runs. */
module CoordinatorRuns {
  import opened Wrappers
  import opened FeedPlans
  import opened CoordinatorModel
  import opened CoordinatorHistory
  import opened CoordinatorSafety
  import opened CoordinatorPreflight

  // ---------------------------------------------------------------- completed reads

  /** The state in which the result of the read in flight is handled. */
  ghost predicate Delivered(c: Coord, token: nat, call: AgentCall, value: AgentValue, readAt: nat) {
    && Inv(c) && c.connected && c.token.None?
    && SessionStart(c.journal) <= call.at < readAt && readAt + 1 == |c.journal|
    && c.journal[call.at] == ReadSubmitted(token, call) && call.generation == c.generation
    && c.journal[readAt] == ReadReturned(token, value)
    && Answered(c, call)
  }

  /** What is known of a read while its result is handled. */
  ghost predicate Answered(c: Coord, call: AgentCall) {
    && OwnedRead(c, call)
    && (call.purpose == Verify && Punctual(c.journal) ==>
          c.pending.Some? && call.owner == Some(c.pending.value.id))
  }

  lemma TokenReleased(c: Coord)
    requires Inv(c) && c.token.Some?
    ensures var d := c.(token := None); Inv(d) && d.connected && Answered(d, c.calls[c.token.value])
  {
  }

  /** A read that failed is entered. If it was to verify another write than the pending one, the pending
      write's verification is no longer undisturbed. */
  lemma FailureEntered(c: Coord)
    requires Inv(c) && c.token.Some?
    ensures var k := c.token.value;
      var d := Log(c.(token := None), ReadFailed(k, c.calls[k]));
      && Inv(d) && d.connected && d.token.None?
      && (c.calls[k].purpose == Verify && d.pending.Some? ==> MayCheck(d))
  {
    var k := c.token.value;
    TokenReleased(c);
    NeutralLog(c.(token := None), ReadFailed(k, c.calls[k]));
  }

  lemma HealthyKept(c: Coord)
    requires Core(c) && c.connected
    ensures Core(c.(healthy := true))
    ensures Settled(c) ==> Settled(c.(healthy := true))
  {
  }

  lemma ResultEntered(c: Coord, value: AgentValue)
    requires Inv(c) && c.token.Some?
    ensures var k := c.token.value;
      Delivered(Log(c.(token := None, healthy := true), ReadReturned(k, value)), k, c.calls[k], value,
                |c.journal|)
  {
    var k := c.token.value;
    var d := c.(token := None);
    TokenReleased(c);
    HealthyKept(d);
    var e := ReadReturned(k, value);
    assert c.journal[c.calls[k].at].ReadSubmitted?;
    assert Justified(c.journal, e);
    NeutralLog(d.(healthy := true), e);
  }

  lemma ReconciledKept(env: Env, c: Coord, token: nat, call: AgentCall, value: AgentValue, readAt: nat)
    requires Delivered(c, token, call, value, readAt) && call.purpose == Reconcile
    ensures var r := HandleReconciledTruth(env, c, value, readAt); Inv(r) && SameSession(c, r)
  {
    if !value.TruthValue? {
      HandleFailureKept(env, c, Reconcile);
    } else {
      var c1 := Commit(env, c, value.truth, readAt);
      CommitKept(env, c, value.truth, readAt);
      if !env.sinkOk(|c.journal|) {
        DegradeKept(c1);
      } else {
        StateKept(c1, Ready);
        MaybeNormalizeKept(env, c1.(state := Ready), value.truth);
        var c2 := MaybeNormalize(env, c1.(state := Ready), value.truth);
        AnnounceAvailableKept(env, c2);
        StartNextKept(env, AnnounceAvailable(env, c2));
      }
    }
  }

  /** After a preflight the latest truth is its answer, and the write may be published. */
  lemma PreflightReady(env: Env, c: Coord, token: nat, call: AgentCall, truth: CoreRead, readAt: nat)
    requires Delivered(c, token, call, TruthValue(truth), readAt) && call.purpose == WritePreflight
    ensures var d := Commit(env, c, truth, readAt)
                     .(pending := Some(c.pending.value.(preflightAt := call.at)));
      Inv(d) && Committed(d) && ReadyToPublish(d)
  {
    CommitKept(env, c, truth, readAt);
  }

  lemma PreflightKept(env: Env, c: Coord, token: nat, call: AgentCall, value: AgentValue, readAt: nat)
    requires Delivered(c, token, call, value, readAt) && call.purpose == WritePreflight
    ensures var r := HandleWritePreflight(env, c, value, call, readAt); Inv(r) && SameSession(c, r)
  {
    if !value.TruthValue? {
      CompleteFailedKept(env, c, false);
    } else {
      var c1 := Commit(env, c, value.truth, readAt);
      if !env.sinkOk(|c.journal|) {
        CommitKept(env, c, value.truth, readAt);
        CompleteFailedKept(env, c1, true);
      } else {
        PreflightReady(env, c, token, call, value.truth, readAt);
        PublishKept(env, c1.(pending := Some(c.pending.value.(preflightAt := call.at))));
      }
    }
  }

  lemma ObservedKept(c: Coord, token: nat, call: AgentCall, truth: CoreRead, readAt: nat)
    requires Delivered(c, token, call, TruthValue(truth), readAt) && c.pending.Some?
    ensures var d := c.(pending := Some(c.pending.value.(lastObserved := Some(truth), observedAt := readAt)));
      Delivered(d, token, call, TruthValue(truth), readAt)
  {
  }

  /** The journal entry of a verified write is justified. */
  lemma VerifiedIsJustified(c: Coord, token: nat, call: AgentCall, truth: CoreRead, readAt: nat)
    requires Core(c) && c.connected && Answered(c, call) && call.purpose == Verify
    requires c.pending.Some? && c.pending.value.stage == Verifying && c.pending.value.ackedAt < readAt
    requires SessionStart(c.journal) <= call.at < readAt < |c.journal|
    requires c.journal[call.at] == ReadSubmitted(token, call) && call.generation == c.generation
    requires c.journal[readAt] == ReadReturned(token, TruthValue(truth))
    requires c.pending.value.goal.Some? && Matches(c.pending.value.goal.value, truth)
    ensures Justified(c.journal, Verified(c.pending.value, token, call, readAt, truth))
  {
    var p := c.pending.value;
    MatchMeansEffect(p.request.change, p.goal, p.baseline.value, p.preparedMs,
                     c.journal[p.publishedAt].outgoing, truth);
    assert VerifiedHistory(c.journal, p, token, call, readAt, truth, c.generation);
  }

  /** Entering "verified" and going on with the queue. */
  lemma VerifiedKept(env: Env, c1: Coord, token: nat, call: AgentCall, truth: CoreRead, readAt: nat)
    requires Core(c1) && Committed(c1) && c1.connected && c1.token.None? && c1.pending.Some?
    requires Justified(c1.journal, Verified(c1.pending.value, token, call, readAt, truth))
    ensures var r := AcceptVerified(env, c1, c1.pending.value, token, call, readAt, truth);
      Inv(r) && SameSession(c1, r)
  {
    var e := Verified(c1.pending.value, token, call, readAt, truth);
    ResolveKept(c1, e);
    StateKept(Log(c1, e).(pending := None), Ready);
    var c2 := Log(c1, e).(pending := None, state := Ready);
    AnnounceAvailableKept(env, c2);
    MaybeNormalizeKept(env, AnnounceAvailable(env, c2), truth);
    StartNextKept(env, MaybeNormalize(env, AnnounceAvailable(env, c2), truth));
  }

  /** The observed truth matches: it is committed, and the write is verified. */
  lemma MatchKept(env: Env, c: Coord, token: nat, call: AgentCall, truth: CoreRead, readAt: nat)
    requires Delivered(c, token, call, TruthValue(truth), readAt) && call.purpose == Verify
    requires c.pending.Some? && c.pending.value.stage == Verifying
    requires c.pending.value.goal.Some? && Matches(c.pending.value.goal.value, truth)
    ensures var c1 := Commit(env, c, truth, readAt);
      && Core(c1) && Committed(c1) && c1.connected && c1.token.None? && c1.pending == c.pending
      && Justified(c1.journal, Verified(c.pending.value, token, call, readAt, truth))
  {
    var c1 := Commit(env, c, truth, readAt);
    CommitKept(env, c, truth, readAt);
    VerifiedIsJustified(c1, token, call, truth, readAt);
  }

  lemma ObservationKept(env: Env, c: Coord, token: nat, call: AgentCall, truth: CoreRead, readAt: nat)
    requires Delivered(c, token, call, TruthValue(truth), readAt) && call.purpose == Verify
    requires c.pending.Some? && c.pending.value.stage == Verifying
    ensures var r := HandleVerificationTruth(env, c, TruthValue(truth), token, call, readAt);
      Inv(r) && SameSession(c, r)
  {
    var p := c.pending.value.(lastObserved := Some(truth), observedAt := readAt);
    var c0 := c.(pending := Some(p));
    ObservedKept(c, token, call, truth, readAt);
    if p.goal.None? || !Matches(p.goal.value, truth) {
      RetryKept(env, c0, false);
    } else {
      MatchCommitted(env, c0, token, call, truth, readAt);
    }
  }

  lemma MatchCommitted(env: Env, c: Coord, token: nat, call: AgentCall, truth: CoreRead, readAt: nat)
    requires Delivered(c, token, call, TruthValue(truth), readAt) && call.purpose == Verify
    requires c.pending.Some? && c.pending.value.stage == Verifying
    requires c.pending.value.goal.Some? && Matches(c.pending.value.goal.value, truth)
    ensures var c1 := Commit(env, c, truth, readAt);
      var r := if env.sinkOk(|c.journal|) then AcceptVerified(env, c1, c.pending.value, token, call, readAt, truth)
               else CompleteFailedWrite(env, c1, true);
      Inv(r) && SameSession(c, r)
  {
    var c1 := Commit(env, c, truth, readAt);
    MatchKept(env, c, token, call, truth, readAt);
    if env.sinkOk(|c.journal|) {
      VerifiedKept(env, c1, token, call, truth, readAt);
    } else {
      CompleteFailedKept(env, c1, true);
    }
  }

  lemma VerificationKept(env: Env, c: Coord, token: nat, call: AgentCall, value: AgentValue, readAt: nat)
    requires Delivered(c, token, call, value, readAt) && call.purpose == Verify
    ensures var r := HandleVerificationTruth(env, c, value, token, call, readAt);
      Inv(r) && SameSession(c, r)
  {
    if c.pending.Some? && c.pending.value.stage == Verifying {
      if value.TruthValue? {
        ObservationKept(env, c, token, call, value.truth, readAt);
      } else {
        RetryKept(env, c, false);
      }
    }
  }

  lemma SnapshotKept(env: Env, c: Coord, token: nat, call: AgentCall, value: AgentValue, readAt: nat)
    requires Delivered(c, token, call, value, readAt) && call.purpose == PlanSnapshot
    ensures var r := HandlePlanSnapshot(env, c, value, readAt); Inv(r) && SameSession(c, r)
  {
    if !value.TruthValue? {
      FinishKept(c, None, 0);
    } else {
      var c1 := Commit(env, c, value.truth, readAt);
      CommitKept(env, c, value.truth, readAt);
      SnapshotMirroredKept(env, c1, env.sinkOk(|c.journal|));
      SnapshotAnswerKept(env, c1, SnapshotMirrored(env, c1, env.sinkOk(|c.journal|)), value.truth, readAt,
                         env.sinkOk(|c.journal|));
    }
  }

  lemma SnapshotMirroredKept(env: Env, c1: Coord, ok: bool)
    requires Inv(c1) && Committed(c1) && c1.connected
    ensures var c2 := SnapshotMirrored(env, c1, ok); Inv(c2) && SameSession(c1, c2) && c1.journal <= c2.journal
  {
    if !ok {
      DegradeKept(c1);
    } else if c1.state == Disconnected {
      StateKept(c1, Ready);
      AnnounceAvailableKept(env, c1.(state := Ready));
    }
  }

  lemma SnapshotAnswerKept(env: Env, c: Coord, c2: Coord, truth: CoreRead, readAt: nat, ok: bool)
    requires Inv(c2) && c.journal <= c2.journal
    requires readAt < |c.journal| && c.journal[readAt].ReadReturned?
    requires c.journal[readAt].value == TruthValue(truth)
    ensures var r := AnswerSnapshot(env, c2, truth, readAt, ok); Inv(r) && SameSession(c2, r)
  {
    assert c2.journal[readAt] == c.journal[readAt];
    FinishKept(c2, Some(truth.plans), readAt);
    MaybeNormalizeKept(env, FinishSnapshots(c2, Some(truth.plans), readAt), truth);
  }

  lemma RevisionKept(env: Env, c: Coord, token: nat, call: AgentCall, value: AgentValue, readAt: nat)
    requires Delivered(c, token, call, value, readAt) && call.purpose == Heartbeat
    ensures var r := HandleRevisionSnapshot(env, c, value); Inv(r) && SameSession(c, r)
  {
    if !value.RevisionValue? {
      HandleFailureKept(env, c, Heartbeat);
    } else if c.latestRev != Some(value.coreRev) {
      SubmitKept(env, c, CoreMethod, Reconcile);
    }
  }

  lemma DispatchKept(env: Env, c: Coord, token: nat, call: AgentCall, value: AgentValue, readAt: nat)
    requires Delivered(c, token, call, value, readAt)
    ensures var r := Dispatch(env, c, token, call, value, readAt); Inv(r) && SameSession(c, r)
  {
    match call.purpose
    case Heartbeat => RevisionKept(env, c, token, call, value, readAt);
    case Reconcile => ReconciledKept(env, c, token, call, value, readAt);
    case WritePreflight => PreflightKept(env, c, token, call, value, readAt);
    case Verify => VerificationKept(env, c, token, call, value, readAt);
    case PlanSnapshot => SnapshotKept(env, c, token, call, value, readAt);
  }

  lemma RefreshRevisionsKept(env: Env, c: Coord)
    requires Inv(c)
    ensures Inv(RefreshRevisions(env, c)) && SameSession(c, RefreshRevisions(env, c))
  {
    if !c.connected || c.token.Some? {
      RefreshKept(c, true);
    } else {
      RefreshKept(c, false);
      SubmitKept(env, c.(refresh := false), RevisionsMethod, Heartbeat);
    }
  }

  lemma DeferredKept(env: Env, c: Coord)
    requires Inv(c) && c.connected
    ensures Inv(MaybeProcessDeferred(env, c)) && SameSession(c, MaybeProcessDeferred(env, c))
  {
    if c.token.None? {
      if c.pending.Some? && c.pending.value.stage == Preparing {
        SubmitKept(env, c, ReadMethod(c.pending.value.request), WritePreflight);
      } else if c.waiters > 0 && c.pending.None? {
        SubmitKept(env, c, CoreMethod, PlanSnapshot);
      } else if c.pending.None? && c.state == Ready && c.queue != [] {
        StartNextKept(env, c);
      } else if c.refresh && c.pending.None? {
        RefreshRevisionsKept(env, c);
      }
    }
  }

  lemma CompletionKept(env: Env, c: Coord, token: nat, result: AgentResult)
    requires Inv(c)
    ensures Inv(AgentCallComplete(env, c, token, result))
  {
    if token < |c.calls| && c.calls[token].generation == c.generation && c.token == Some(token) {
      match result
      case Failed =>
        var c1 := Log(c.(token := None), ReadFailed(token, c.calls[token]));
        FailureEntered(c);
        HandleFailureKept(env, c1, c.calls[token].purpose);
        DeferredKept(env, HandleAgentFailure(env, c1, c.calls[token].purpose));
      case Returned(value) =>
        var c2 := Log(c.(token := None, healthy := true), ReadReturned(token, value));
        ResultEntered(c, value);
        DispatchKept(env, c2, token, c.calls[token], value, |c.journal|);
        DeferredKept(env, Dispatch(env, c2, token, c.calls[token], value, |c.journal|));
    }
  }

  // ---------------------------------------------------------------- events

  lemma ReconcileKept(env: Env, c: Coord)
    requires Inv(c)
    ensures Inv(ReconcileFromFeeder(env, c))
  {
    if c.connected && c.token.None? {
      StateKept(c, Reconciling);
      SubmitKept(env, c.(state := Reconciling), CoreMethod, Reconcile);
    }
  }

  lemma SessionBegins(c: Coord)
    requires Inv(c) && !c.connected
    ensures Inv(BeginSession(c))
  {
    GoodAppend(c.journal, SessionBegan(c.generation + 1));
    var h := c.journal + [SessionBegan(c.generation + 1)];
    assert forall i | 0 <= i < |c.journal| :: h[i] == c.journal[i];
  }

  lemma ConnectedKept(env: Env, c: Coord)
    requires Inv(c)
    ensures Inv(OnFeederConnected(env, c))
  {
    if !c.connected {
      SessionBegins(c);
      SessionOpenKept(env, BeginSession(c));
    } else if c.state == Disconnected {
      SessionOpenKept(env, c);
    }
  }

  lemma SessionOpenKept(env: Env, c: Coord)
    requires Inv(c) && c.connected
    ensures Inv(ReconcileFromFeeder(env, Announce(c, false).(state := Connected)))
  {
    AnnounceKept(c, false);
    StateKept(Announce(c, false), Connected);
    ReconcileKept(env, Announce(c, false).(state := Connected));
  }

  lemma SessionEnds(c: Coord)
    requires Inv(c)
    ensures Inv(EndSession(c))
  {
    CancelledTimers(c);
    GoodAppend(c.journal, SessionEnded);
    var h := c.journal + [SessionEnded];
    assert forall i | 0 <= i < |c.journal| :: h[i] == c.journal[i];
  }

  lemma ShutdownKept(c: Coord)
    requires Inv(c)
    ensures Inv(OnShutdown(c))
  {
    SessionEnds(c);
    RefreshKept(EndSession(c), false);
    WaitersKept(EndSession(c).(refresh := false), 0);
  }

  lemma HeartbeatKept(env: Env, c: Coord)
    requires Inv(c)
    ensures Inv(OnHeartbeat(env, c))
  {
    if !c.connected {
      ConnectedKept(env, c);
    } else if c.state == Disconnected || !c.healthy {
      ReconcileKept(env, c);
    } else if c.pending.Some? {
      RefreshKept(c, true);
    } else {
      RefreshRevisionsKept(env, c);
    }
  }

  lemma SnapshotRequestKept(env: Env, c: Coord)
    requires Inv(c)
    ensures Inv(RequestPlanSnapshot(env, c))
  {
    var c1 := c.(waiters := c.waiters + 1);
    WaitersKept(c, c.waiters + 1);
    if !c.connected {
      FinishKept(c1, None, 0);
    } else if c.token.None? && c.pending.None? {
      SubmitKept(env, c1, CoreMethod, PlanSnapshot);
    }
  }

  lemma AckEntered(c: Coord, receipt: Receipt, success: bool)
    requires Inv(c) && AckMatches(c, receipt)
    ensures var p := c.pending.value;
      var c1 := Log(CancelAckTimeout(c), Acknowledged(p.id, p.publishedAt, receipt, success));
      Inv(c1) && MayDrop(c1) && c1.connected && Committed(c1)
  {
    var d := CancelAckTimeout(c);
    assert Inv(d);
    NeutralLog(d, Acknowledged(c.pending.value.id, c.pending.value.publishedAt, receipt, success));
  }

  /** The acknowledgement pays for one verification read. */
  lemma AcceptedCounted(c: Coord, receipt: Receipt)
    requires Inv(c) && AckMatches(c, receipt)
    requires Inv(Log(CancelAckTimeout(c),
                     Acknowledged(c.pending.value.id, c.pending.value.publishedAt, receipt, true)))
    ensures var p := c.pending.value;
      var c1 := Log(CancelAckTimeout(c), Acknowledged(p.id, p.publishedAt, receipt, true));
      var c2 := c1.(pending := Some(p.(stage := Verifying, ackedAt := |c.journal|)), state := VerifyingState);
      Inv(c2) && MayCheck(c2) && Counted(c2, 1)
  {
  }

  lemma AcceptedKept(c: Coord, receipt: Receipt)
    requires Inv(c) && AckMatches(c, receipt)
    ensures var p := c.pending.value;
      var c1 := Log(CancelAckTimeout(c), Acknowledged(p.id, p.publishedAt, receipt, true));
      Inv(ScheduleVerification(c1.(pending := Some(p.(stage := Verifying, ackedAt := |c.journal|)),
                                   state := VerifyingState)))
  {
    AckEntered(c, receipt, true);
    var p := c.pending.value;
    var c1 := Log(CancelAckTimeout(c), Acknowledged(p.id, p.publishedAt, receipt, true));
    var c2 := c1.(pending := Some(p.(stage := Verifying, ackedAt := |c.journal|)), state := VerifyingState);
    AcceptedCounted(c, receipt);
    ScheduleKept(c2);
  }

  lemma AckKept(env: Env, c: Coord, receipt: Receipt, success: bool)
    requires Inv(c)
    ensures Inv(OnMqttAck(env, c, receipt, success).0)
  {
    if AckMatches(c, receipt) {
      var p := c.pending.value;
      var c1 := Log(CancelAckTimeout(c), Acknowledged(p.id, p.publishedAt, receipt, success));
      if !success {
        AckEntered(c, receipt, success);
        CompleteFailedKept(env, c1, false);
      } else if p.request.ackOnly {
        AckEntered(c, receipt, success);
        CancelledTimers(c1);
        var c2 := Log(CancelTimers(c1), WriteUnverified(p.id)).(pending := None);
        ResolveKept(CancelTimers(c1), WriteUnverified(p.id));
        StateKept(c2, Ready);
        StartNextKept(env, c2.(state := Ready));
      } else {
        AcceptedKept(c, receipt);
      }
    }
  }

  /** Whether this timer was set for the pending write. */
  predicate OwnTimer(c: Coord, timer: nat) {
    && timer in c.unfired && timer < |c.timers|
    && c.pending.Some? && c.timers[timer].pendingId == c.pending.value.id
  }

  lemma TimerGone(c: Coord, timer: nat)
    requires Inv(c) && timer in c.unfired
    ensures Inv(c.(unfired := c.unfired - {timer}, ackTimer := None))
    ensures Inv(c.(unfired := c.unfired - {timer}, verifyTimer := None))
  {
    if c.pending.Some? { TimerSpent(c.timers, c.unfired, timer, c.pending.value.id); }
  }

  lemma AckTimerFired(c: Coord, timer: nat)
    requires Inv(c) && OwnTimer(c, timer) && c.timers[timer].kind == AckTimer
    ensures var p := c.pending.value;
      var d := Log(c.(unfired := c.unfired - {timer}, ackTimer := None), AckTimedOut(p.id, p.stage));
      Inv(d) && d.connected && MayDrop(d) && Committed(d)
  {
    TimerGone(c, timer);
    assert UnfiredTimer(c, c.timers[timer]);
    var d := c.(unfired := c.unfired - {timer}, ackTimer := None);
    NeutralLog(d, AckTimedOut(c.pending.value.id, c.pending.value.stage));
  }

  lemma VerifyTimerFired(c: Coord, timer: nat)
    requires Inv(c) && Busy(c) && OwnTimer(c, timer) && c.timers[timer].kind == VerifyTimer
    ensures var d := c.(unfired := c.unfired - {timer}, verifyTimer := None);
      && Inv(d) && d.connected && MayCheck(d) && Counted(d, 1)
      && (d.token.None? ==> MaySubmit(d, Verify))
  {
    TimerGone(c, timer);
    TimerSpent(c.timers, c.unfired, timer, c.pending.value.id);
  }

  lemma TimerKept(env: Env, c: Coord, timer: nat)
    requires Inv(c) && Busy(c)
    ensures Inv(OnTimer(env, c, timer))
  {
    if timer in c.unfired && timer < |c.timers| {
      TimerGone(c, timer);
      if OwnTimer(c, timer) {
        OwnTimerKept(env, c, timer);
      }
    }
  }

  lemma OwnTimerKept(env: Env, c: Coord, timer: nat)
    requires Inv(c) && Busy(c) && OwnTimer(c, timer)
    ensures Inv(OnTimer(env, c, timer))
  {
    match c.timers[timer].kind
    case AckTimer =>
      var p := c.pending.value;
      AckTimerFired(c, timer);
      CompleteFailedKept(env, Log(c.(unfired := c.unfired - {timer}, ackTimer := None),
                                  AckTimedOut(p.id, p.stage)), false);
    case VerifyTimer =>
      var d := c.(unfired := c.unfired - {timer}, verifyTimer := None);
      VerifyTimerFired(c, timer);
      if c.token.Some? {
        ScheduleKept(d);
      } else {
        SubmitKept(env, d, ReadMethod(c.pending.value.request), Verify);
      }
  }

  /** The invariant between events. */
  ghost predicate Sound(c: Coord) {
    Inv(c) && Busy(c)
  }

  /** Every event keeps the invariant. */
  lemma StepKept(env: Env, c: Coord, e: Event)
    requires Sound(c)
    ensures Sound(Step(env, c, e))
  {
    StepBusy(env, c, e);
    match e
    case FeederConnected => ConnectedKept(env, c);
    case FeederDisconnected =>
      SessionEnds(c);
      AnnounceKept(EndSession(c), false);
    case HeartbeatSeen => HeartbeatKept(env, c);
    case StateHint =>
      RefreshKept(c, true);
      RefreshRevisionsKept(env, c.(refresh := true));
    case WriteRequested(request) => RequestKept(env, c, request);
    case SnapshotRequested => SnapshotRequestKept(env, c);
    case AckReceived(receipt, success) => AckKept(env, c, receipt, success);
    case TimerFires(timer) => TimerKept(env, c, timer);
    case ReadCompletes(token, result) => CompletionKept(env, c, token, result);
    case Shutdown => ShutdownKept(c);
  }

  /** The invariant holds after every sequence of events, against every outside. */
  lemma {:induction false} RunKept(env: Env, events: seq<Event>)
    ensures Sound(Run(env, events))
  {
    if events != [] {
      RunKept(env, events[..|events| - 1]);
      StepKept(env, Run(env, events[..|events| - 1]), events[|events| - 1]);
    }
  }
}
