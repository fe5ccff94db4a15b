/** Two runs of the coordinator, event by event. The first verifies a plan write, so that the claims about
    verified writes are about something. In the second an acknowledgement timeout runs although the
    acknowledgement came, and a later write is verified by a read from before its acknowledgement. */
module CoordinatorExamples {
  import opened Wrappers
  import opened FeedPlans
  import opened CoordinatorModel
  import opened CoordinatorTheorems

  // ---------------------------------------------------------------- the outside

  const PLAN := FeederPlan(5, 0, 8, false, 0, "08:00", "", [1], ["Monday"], 1, 0, 0, 0, 0, 0, None)
  const BEFORE: CoreRead := FeederTruth("r0", map[], {}, 1, [PLAN])
  const AFTER: CoreRead := FeederTruth("r1", map[], {}, 0, [])
  const RECEIPT := Receipt("plans", "m")
  const GOAL := PlanCollection([], 5, Delete)
  const OUTGOING: FeederTruth := WithPlans(BEFORE, [])

  function Delete5(control: string): Request {
    WriteRequest(control, None, false, true, false, DeletePlan(5))
  }

  /** Everything succeeds. */
  const ENV := Env(_ => true, _ => true, _ => Some(RECEIPT), _ => 0, _ => None, false)

  lemma DeletePrepared()
    ensures Prepare(DeletePlan(5), None, BEFORE, 0) == Accepted(Prepared(Some(GOAL), OUTGOING))
    ensures Matches(GOAL, AFTER)
  {
    var plans := [PLAN];
    assert plans[..0] == [] && Without(plans, 5) == [];
    assert plans[0].id == 5 && Has(plans, 5);
    assert DeletedCollection(plans, 5) == Accepted([]);
    assert BaselineRecordKept(PLAN, [], 5, Delete);
    assert PredicateAccepts(plans, [], 5, Delete);
  }

  lemma RunSnoc(events: seq<Event>, e: Event)
    ensures Run(ENV, events + [e]) == Step(ENV, Run(ENV, events), e)
  {
    assert (events + [e])[..|events|] == events;
  }

  // ---------------------------------------------------------------- the common start

  const CALL0 := AgentCall(CoreMethod, Reconcile, 1, 2, None, None)
  const CALL1 := AgentCall(CoreMethod, WritePreflight, 1, 7, Some(0), Some(Preparing))
  const CALL2 := AgentCall(CoreMethod, Verify, 1, 12, Some(0), Some(Verifying))

  function C1(): Coord {
    INITIAL.(state := Reconciling, connected := true, generation := 1, token := Some(0), calls := [CALL0],
             journal := [SessionBegan(1), Available(false), ReadSubmitted(0, CALL0)])
  }

  lemma Step1()
    ensures Step(ENV, INITIAL, FeederConnected) == C1()
  {
  }

  function C2(): Coord {
    C1().(state := Ready, healthy := true, token := None, latest := Some(BEFORE), latestRev := Some("r0"),
          latestAt := 3, mirroredAt := 4,
          journal := C1().journal + [ReadReturned(0, TruthValue(BEFORE)), Mirrored(BEFORE, 3, true),
                                     Available(true)])
  }

  lemma Step2()
    ensures Step(ENV, C1(), ReadCompletes(0, Returned(TruthValue(BEFORE)))) == C2()
  {
    var c := Log(C1().(token := None, healthy := true), ReadReturned(0, TruthValue(BEFORE)));
    assert HandleReconciledTruth(ENV, c, TruthValue(BEFORE), 3) == C2();
  }

  /** The first write, waiting for its preflight. */
  function Preparing0(): Pending {
    Pending(0, Delete5("a"), Preparing, None, None, None, 0, None, true, 6, 0, 0, 0, 0, 0, 0)
  }

  function C3(): Coord {
    C2().(state := PendingState, pending := Some(Preparing0()), nextId := 1, token := Some(1),
          calls := [CALL0, CALL1],
          journal := C2().journal + [Started(0, 1, true), ReadSubmitted(1, CALL1)])
  }

  lemma Step3()
    ensures Step(ENV, C2(), WriteRequested(Delete5("a"))) == C3()
  {
    assert Begin(C2(), Delete5("a")).pending == Some(Preparing0());
    assert RequestWrite(ENV, C2(), Delete5("a")).0 == StartWrite(ENV, C2(), Delete5("a"));
  }

  function Published0(): Pending {
    Preparing0().(preflightAt := 7, receipt := Some(RECEIPT), stage := AwaitingAck, goal := Some(GOAL),
                  baseline := Some(BEFORE), readAt := 8, publishedAt := 10)
  }

  function C4(): Coord {
    C3().(pending := Some(Published0()), token := None, latestAt := 8, mirroredAt := 9,
          timers := [Timer(AckTimer, 0)], unfired := {0}, ackTimer := Some(0),
          journal := C3().journal + [ReadReturned(1, TruthValue(BEFORE)), Mirrored(BEFORE, 8, true),
                                     Published(0, 1, 8, BEFORE, OUTGOING, RECEIPT)])
  }

  lemma Step4()
    ensures Step(ENV, C3(), ReadCompletes(1, Returned(TruthValue(BEFORE)))) == C4()
  {
    DeletePrepared();
    var c := Log(C3().(token := None, healthy := true), ReadReturned(1, TruthValue(BEFORE)));
    var c1 := Commit(ENV, c, BEFORE, 8).(pending := Some(Preparing0().(preflightAt := 7)));
    assert PublishPending(ENV, c1, Some(BEFORE)) == C4();
    assert HandleWritePreflight(ENV, c, TruthValue(BEFORE), CALL1, 8) == C4();
  }

  function C5(): Coord {
    C4().(state := VerifyingState, pending := Some(Published0().(stage := Verifying, ackedAt := 11)),
          ackTimer := None, verifyTimer := Some(1),
          timers := [Timer(AckTimer, 0), Timer(VerifyTimer, 0)], unfired := {0, 1},
          journal := C4().journal + [Acknowledged(0, 10, RECEIPT, true)])
  }

  lemma Step5()
    ensures Step(ENV, C4(), AckReceived(RECEIPT, true)) == C5()
  {
    assert {0} + {1} == {0, 1};
  }

  const START: seq<Event> :=
    [FeederConnected, ReadCompletes(0, Returned(TruthValue(BEFORE))), WriteRequested(Delete5("a")),
     ReadCompletes(1, Returned(TruthValue(BEFORE))), AckReceived(RECEIPT, true)]

  lemma StartReached()
    ensures Run(ENV, START) == C5()
  {
    RunSnoc([], FeederConnected);
    Step1();
    assert [] + [FeederConnected] == START[..1];
    RunSnoc(START[..1], START[1]);
    Step2();
    assert START[..1] + [START[1]] == START[..2];
    RunSnoc(START[..2], START[2]);
    Step3();
    assert START[..2] + [START[2]] == START[..3];
    RunSnoc(START[..3], START[3]);
    Step4();
    assert START[..3] + [START[3]] == START[..4];
    RunSnoc(START[..4], START[4]);
    Step5();
    assert START[..4] + [START[4]] == START;
  }

  // ---------------------------------------------------------------- a verified write

  function G6(): Coord {
    C5().(verifyTimer := None, unfired := {0}, token := Some(2), calls := [CALL0, CALL1, CALL2],
          journal := C5().journal + [ReadSubmitted(2, CALL2)])
  }

  lemma StepG6()
    ensures Step(ENV, C5(), TimerFires(1)) == G6()
  {
    assert {0, 1} - {1} == {0};
  }

  function Observed0(): Pending {
    C5().pending.value.(lastObserved := Some(AFTER), observedAt := 13)
  }

  lemma StepG7()
    ensures var c := Step(ENV, G6(), ReadCompletes(2, Returned(TruthValue(AFTER))));
      |c.journal| > 15 && c.journal[15] == Verified(Observed0(), 2, CALL2, 13, AFTER)
  {
    DeletePrepared();
    var c := Log(G6().(token := None, healthy := true), ReadReturned(2, TruthValue(AFTER)));
    var c1 := Commit(ENV, c.(pending := Some(Observed0())), AFTER, 13);
    assert HandleVerificationTruth(ENV, c, TruthValue(AFTER), 2, CALL2, 13)
        == AcceptVerified(ENV, c1, Observed0(), 2, CALL2, 13, AFTER);
    var v := Log(c1, Verified(Observed0(), 2, CALL2, 13, AFTER));
    assert |v.journal| == 16;
    var d := AnnounceAvailable(ENV, v.(pending := None, state := Ready));
    assert AcceptVerified(ENV, c1, Observed0(), 2, CALL2, 13, AFTER) == d;
  }

  /** A delete with a fresh preflight that is verified. */
  lemma VerifiedWriteHappens()
    ensures var events := START + [TimerFires(1)] + [ReadCompletes(2, Returned(TruthValue(AFTER)))];
      && |Run(ENV, events).journal| > 15
      && Run(ENV, events).journal[15].Verified? && Run(ENV, events).journal[15].write.preflighted
  {
    StartReached();
    RunSnoc(START, TimerFires(1));
    StepG6();
    RunSnoc(START + [TimerFires(1)], ReadCompletes(2, Returned(TruthValue(AFTER))));
    StepG7();
  }

  // ---------------------------------------------------------------- a late timeout

  const CALL3 := AgentCall(CoreMethod, WritePreflight, 1, 19, Some(1), Some(Preparing))
  const CALL4 := AgentCall(CoreMethod, Verify, 1, 23, Some(1), Some(AwaitingAck))

  function B6(): Coord {
    C5().(queue := [Delete5("b")])
  }

  lemma StepB6()
    ensures Step(ENV, C5(), WriteRequested(Delete5("b"))) == B6()
  {
    assert LastIndexOf([], "b") == None;
  }

  function B7(): Coord {
    B6().(verifyTimer := None, unfired := {0}, token := Some(2), calls := [CALL0, CALL1, CALL2],
          journal := B6().journal + [ReadSubmitted(2, CALL2)])
  }

  lemma StepB7()
    ensures Step(ENV, B6(), TimerFires(1)) == B7()
  {
    assert {0, 1} - {1} == {0};
  }

  /** The second write, whose preflight has to wait for the read in flight. */
  function Preparing1(): Pending {
    Pending(1, Delete5("b"), Preparing, None, None, None, 0, None, true, 16, 0, 0, 0, 0, 0, 0)
  }

  function B8(): Coord {
    B7().(state := PendingState, pending := Some(Preparing1()), queue := [], nextId := 2, refresh := true,
          unfired := {}, mirroredAt := 15,
          journal := B7().journal + [AckTimedOut(0, Verifying), WriteFailed(0), Mirrored(BEFORE, 8, true),
                                     Started(1, 1, true)])
  }

  /** The state in which the first write fails. */
  function TimedOut(): Coord {
    Log(B7().(unfired := {}, ackTimer := None), AckTimedOut(0, Verifying))
  }

  /** Ready again, with the truth from before the first write. */
  function ReadyAgain(): Coord {
    Commit(ENV, DropPending(TimedOut()), BEFORE, 8).(state := Ready)
  }

  lemma TimeoutFailsWrite()
    ensures Step(ENV, B7(), TimerFires(0)) == CompleteFailedWrite(ENV, TimedOut(), false)
  {
    assert {0} - {0} == {};
    assert OnTimer(ENV, B7(), 0) == OnAckTimeout(ENV, B7().(unfired := {}), 0);
  }

  lemma FailureStartsNext()
    ensures CompleteFailedWrite(ENV, TimedOut(), false) == StartWrite(ENV, ReadyAgain().(queue := []), Delete5("b"))
  {
    assert [Delete5("b")][1..] == [];
    assert StartNextWrite(ENV, ReadyAgain()) == StartWrite(ENV, ReadyAgain().(queue := []), Delete5("b"));
  }

  /** The first write was acknowledged, and its acknowledgement times out all the same. */
  lemma StepB8()
    ensures Step(ENV, B7(), TimerFires(0)) == B8()
  {
    TimeoutFailsWrite();
    FailureStartsNext();
    var c := Begin(ReadyAgain().(queue := []), Delete5("b"));
    assert c.(refresh := true) == B8();
  }

  function B9(): Coord {
    B8().(healthy := false, pending := Some(Preparing1().(retryCount := 1)), token := Some(3),
          calls := [CALL0, CALL1, CALL2, CALL3], verifyTimer := Some(2),
          timers := [Timer(AckTimer, 0), Timer(VerifyTimer, 0), Timer(VerifyTimer, 1)], unfired := {2},
          journal := B8().journal + [ReadFailed(2, CALL2), Available(false), ReadSubmitted(3, CALL3)])
  }

  /** The orphaned read fails, and a verification of the second write is scheduled before it is even published. */
  lemma StepB9()
    ensures Step(ENV, B8(), ReadCompletes(2, AgentResult.Failed)) == B9()
  {
    assert {} + {2} == {2};
    var c := Announce(Log(B8().(token := None, healthy := false), ReadFailed(2, CALL2)), false);
    var c1 := ScheduleVerification(c.(pending := Some(Preparing1().(retryCount := 1))));
    assert RetryVerification(ENV, c, true) == c1;
    assert MaybeProcessDeferred(ENV, c1) == Submit(ENV, c1, CoreMethod, WritePreflight);
  }

  function Published1(): Pending {
    Preparing1().(retryCount := 1, preflightAt := 19, receipt := Some(RECEIPT), stage := AwaitingAck,
                  goal := Some(GOAL), baseline := Some(BEFORE), readAt := 20, publishedAt := 22)
  }

  function B10(): Coord {
    B9().(healthy := true, pending := Some(Published1()), token := None, latestAt := 20, mirroredAt := 21,
          timers := B9().timers + [Timer(AckTimer, 1)], unfired := {2, 3}, ackTimer := Some(3),
          journal := B9().journal + [ReadReturned(3, TruthValue(BEFORE)), Mirrored(BEFORE, 20, true),
                                     Published(1, 1, 20, BEFORE, OUTGOING, RECEIPT)])
  }

  lemma StepB10()
    ensures Step(ENV, B9(), ReadCompletes(3, Returned(TruthValue(BEFORE)))) == B10()
  {
    DeletePrepared();
    var c := Log(B9().(token := None, healthy := true), ReadReturned(3, TruthValue(BEFORE)));
    var c1 := Commit(ENV, c, BEFORE, 20).(pending := Some(Preparing1().(retryCount := 1, preflightAt := 19)));
    assert {2} + {3} == {2, 3};
    assert PublishPending(ENV, c1, Some(BEFORE)) == B10();
    assert HandleWritePreflight(ENV, c, TruthValue(BEFORE), CALL3, 20) == B10();
  }

  function B11(): Coord {
    B10().(verifyTimer := None, unfired := {3}, token := Some(4),
           calls := [CALL0, CALL1, CALL2, CALL3, CALL4],
           journal := B10().journal + [ReadSubmitted(4, CALL4)])
  }

  lemma StepB11()
    ensures Step(ENV, B10(), TimerFires(2)) == B11()
  {
    assert {2, 3} - {2} == {3};
  }

  function B12(): Coord {
    B11().(state := VerifyingState, pending := Some(Published1().(stage := Verifying, ackedAt := 24)),
           ackTimer := None, verifyTimer := Some(4),
           timers := B11().timers + [Timer(VerifyTimer, 1)], unfired := {3, 4},
           journal := B11().journal + [Acknowledged(1, 22, RECEIPT, true)])
  }

  lemma StepB12()
    ensures Step(ENV, B11(), AckReceived(RECEIPT, true)) == B12()
  {
    assert {3} + {4} == {3, 4};
  }

  function Observed1(): Pending {
    B12().pending.value.(lastObserved := Some(AFTER), observedAt := 25)
  }

  lemma StepB13()
    ensures var c := Step(ENV, B12(), ReadCompletes(4, Returned(TruthValue(AFTER))));
      && |c.journal| > 27 && c.journal[27] == Verified(Observed1(), 4, CALL4, 25, AFTER)
      && c.journal[13] == B12().journal[13]
  {
    DeletePrepared();
    var c := Log(B12().(token := None, healthy := true), ReadReturned(4, TruthValue(AFTER)));
    var c1 := Commit(ENV, c.(pending := Some(Observed1())), AFTER, 25);
    assert HandleVerificationTruth(ENV, c, TruthValue(AFTER), 4, CALL4, 25)
        == AcceptVerified(ENV, c1, Observed1(), 4, CALL4, 25, AFTER);
    var v := Log(c1, Verified(Observed1(), 4, CALL4, 25, AFTER));
    assert |v.journal| == 28;
    var d := AnnounceAvailable(ENV, v.(pending := None, state := Ready));
    assert AcceptVerified(ENV, c1, Observed1(), 4, CALL4, 25, AFTER) == d;
  }

  const LATE: seq<Event> :=
    [WriteRequested(Delete5("b")), TimerFires(1), TimerFires(0), ReadCompletes(2, AgentResult.Failed),
     ReadCompletes(3, Returned(TruthValue(BEFORE))), TimerFires(2), AckReceived(RECEIPT, true),
     ReadCompletes(4, Returned(TruthValue(AFTER)))]

  lemma Onward(n: nat, c: Coord, d: Coord)
    requires n < |LATE| && Run(ENV, START + LATE[..n]) == c && Step(ENV, c, LATE[n]) == d
    ensures Run(ENV, START + LATE[..n + 1]) == d
  {
    RunSnoc(START + LATE[..n], LATE[n]);
    assert START + LATE[..n] + [LATE[n]] == START + LATE[..n + 1];
  }

  lemma OrphanInFlight()
    ensures Run(ENV, START + LATE[..2]) == B7()
  {
    StartReached();
    assert START + LATE[..0] == START;
    StepB6();
    Onward(0, C5(), B6());
    StepB7();
    Onward(1, B6(), B7());
  }

  lemma LateTimeoutReached()
    ensures Run(ENV, START + LATE[..3]) == B8()
  {
    OrphanInFlight();
    StepB8();
    Onward(2, B7(), B8());
  }

  lemma SecondWriteAcknowledged()
    ensures Run(ENV, START + LATE[..7]) == B12()
  {
    LateTimeoutReached();
    StepB9();
    Onward(3, B8(), B9());
    StepB10();
    Onward(4, B9(), B10());
    StepB11();
    Onward(5, B10(), B11());
    StepB12();
    Onward(6, B11(), B12());
  }

  /** After one late timeout, a write is reported verified by a read that was submitted for it before it was
      acknowledged. */
  lemma LateTimeoutLetsEarlyReadVerify()
    ensures var j := Run(ENV, START + LATE).journal;
      && |j| > 27 && LateTimeout(j[13])
      && j[27].Verified? && j[27].write.preflighted && j[27].check.at < j[27].write.ackedAt
      && j[27].check.stage == Some(AwaitingAck)
  {
    SecondWriteAcknowledged();
    StepB13();
    Onward(7, B12(), Step(ENV, B12(), LATE[7]));
    assert LATE[..8] == LATE;
    TimeoutEntered();
  }

  lemma TimeoutEntered()
    ensures B12().journal[13] == AckTimedOut(0, Verifying)
  {
    assert |B7().journal| == 13;
    assert B8().journal[13] == AckTimedOut(0, Verifying);
  }
}
