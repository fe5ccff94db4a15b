/** The coordinator's invariant, and that every event keeps it. */
module CoordinatorSafety {
  import opened Wrappers
  import opened FeedPlans
  import opened PlanNormalization
  import opened CoordinatorModel
  import opened CoordinatorHistory

  // ---------------------------------------------------------------- invariant

  /** Without a connection there is no work of any kind. */
  ghost predicate SessionInv(c: Coord) {
    && Live(c.journal) == (if c.connected then Some(c.generation) else None)
    && (!c.connected ==> c.state == Disconnected && c.pending.None? && c.queue == [] && c.token.None?
                         && !c.healthy)
    && !c.applying
  }

  ghost predicate CallInv(c: Coord) {
    && NumbersBelow(c.journal, c.nextId, |c.calls|)
    && forall k | 0 <= k < |c.calls| ::
         c.calls[k].at < |c.journal| && c.journal[c.calls[k].at] == ReadSubmitted(k, c.calls[k])
  }

  /** At most the last call submitted is in flight, and it belongs to this session. */
  ghost predicate TokenInv(c: Coord) {
    c.token.Some? ==>
      && c.token.value + 1 == |c.calls|
      && c.calls[c.token.value].generation == c.generation
      && SessionStart(c.journal) <= c.calls[c.token.value].at
      && Undelivered(c.journal, c.token.value)
      && OwnedRead(c, c.calls[c.token.value])
  }

  /** A preflight in flight belongs to the pending write. A verification in flight belongs to the pending
      write, or to a write that was resolved before the pending one started. */
  ghost predicate OwnedRead(c: Coord, call: AgentCall) {
    && (call.purpose == WritePreflight ==>
          c.pending.Some? && c.pending.value.stage == Preparing && c.pending.value.createdAt < call.at)
    && (call.purpose == Verify ==>
          && call.owner.Some? && call.owner.value < c.nextId
          && (c.pending.Some? ==> CheckFor(c.journal, c.pending.value, call)))
  }

  /** The stage of the pending write tells when a verification read was submitted. */
  ghost predicate CheckFor(h: seq<Entry>, p: Pending, call: AgentCall) {
    if call.owner == Some(p.id) then
      && p.receipt.Some? && p.publishedAt < call.at
      && (call.stage == Some(Verifying) || call.stage == Some(AwaitingAck))
      && (call.stage == Some(Verifying) ==> p.stage == Verifying && p.ackedAt < call.at)
      && (call.stage == Some(AwaitingAck) && p.stage == Verifying ==> call.at < p.ackedAt)
      && (NoForeignFailure(h, p.id, p.createdAt) ==> call.stage == Some(Verifying))
    else
      call.at < p.createdAt && (p.preflighted ==> p.stage == Preparing)
  }

  ghost predicate Committed(c: Coord) {
    && c.latest.Some? && CommittedRead(c.journal, c.latestAt, c.mirroredAt)
    && IsRead(c.journal[c.latestAt], c.latest.value)
  }

  ghost predicate TruthInv(c: Coord) {
    && (c.latest.Some? ==> c.latestAt < |c.journal| && IsRead(c.journal[c.latestAt], c.latest.value))
    && (c.pending.Some? || c.state == Ready ==> Committed(c))
  }

  ghost predicate PendingInv(c: Coord, p: Pending) {
    && p.id < c.nextId
    && Open(c.journal) == Some(p.id)
    && SessionStart(c.journal) <= p.createdAt < |c.journal|
    && c.journal[p.createdAt] == Started(p.id, c.generation, p.preflighted)
    && (p.lastObserved.Some? ==>
          SessionStart(c.journal) <= p.observedAt < |c.journal| &&
          IsRead(c.journal[p.observedAt], p.lastObserved.value))
    && (p.stage == Preparing ==> p.preflighted && p.receipt.None?)
    && (p.receipt.None? ==> Unpublished(c.journal, p.id))
    && (p.receipt.Some? ==> PublishedAs(c.journal, p, c.generation))
    && (p.stage == Verifying ==> p.receipt.Some? && AcknowledgedAs(c.journal, p))
  }

  ghost predicate WriteInv(c: Coord) {
    && (c.pending.None? ==> Open(c.journal) == None)
    && (c.pending.Some? ==> PendingInv(c, c.pending.value))
  }

  ghost predicate QueueInv(c: Coord) {
    && |c.queue| <= MAX_QUEUED_WRITES
    && forall i, j | 0 <= i < j < |c.queue| :: c.queue[i].control != c.queue[j].control
  }

  ghost predicate TimerInv(c: Coord) {
    forall k | k in c.unfired :: k < |c.timers| && UnfiredTimer(c, c.timers[k])
  }

  ghost predicate UnfiredTimer(c: Coord, t: Timer) {
    && t.pendingId < c.nextId
    && (t.kind == AckTimer && c.pending.Some? && t.pendingId == c.pending.value.id ==>
          c.pending.value.receipt.Some?)
  }

  /** How many unfired timers will verify a write. */
  ghost function Checks(timers: seq<Timer>, unfired: set<nat>, id: nat): nat {
    if timers == [] then 0
    else
      var n := |timers| - 1;
      Checks(timers[..n], unfired, id)
      + (if n in unfired && timers[n] == Timer(VerifyTimer, id) then 1 else 0)
  }

  /** Verification reads made and scheduled for the pending write are paid for by its acknowledgement and
      its retries; `spare` more could be made. */
  ghost predicate Counted(c: Coord, spare: nat) {
    c.pending.Some? ==>
      var p := c.pending.value;
      VerifyReads(c.journal, p.id) + Checks(c.timers, c.unfired, p.id) + spare
      <= p.retryCount + (if p.stage == Verifying then 1 else 0)
  }

  /** Verification waits for the acknowledgement, unless the failure of another write's read set it off. */
  ghost predicate Calm(c: Coord) {
    c.pending.Some? && NoForeignFailure(c.journal, c.pending.value.id, c.pending.value.createdAt)
    && c.pending.value.stage != Verifying ==>
      Checks(c.timers, c.unfired, c.pending.value.id) == 0
  }

  ghost predicate VerifyInFlight(c: Coord) {
    c.token.Some? && c.token.value < |c.calls| && c.calls[c.token.value].purpose == Verify
  }

  /** Verification reads belong to the pending write. */
  ghost predicate Tidy(c: Coord) {
    && (VerifyInFlight(c) ==> c.pending.Some? && c.calls[c.token.value].owner == Some(c.pending.value.id))
    && (c.pending.Some? ==> NoForeignFailure(c.journal, c.pending.value.id, c.pending.value.createdAt))
  }

  ghost predicate Core(c: Coord) {
    && SessionInv(c) && CallInv(c) && TokenInv(c) && TruthInv(c) && WriteInv(c) && QueueInv(c)
    && TimerInv(c) && Counted(c, 0) && Calm(c) && (Punctual(c.journal) ==> Tidy(c))
    && GoodJournal(c.journal)
  }

  /** The pending write, if any, has attempts left and is past the moment of publication. */
  ghost predicate Settled(c: Coord) {
    c.pending.Some? ==>
      && c.pending.value.retryCount < VERIFY_ATTEMPTS
      && (c.pending.value.stage == AwaitingAck ==> c.pending.value.receipt.Some?)
  }

  ghost predicate Inv(c: Coord) {
    Core(c) && Settled(c)
  }

  // ---------------------------------------------------------------- counting timers

  lemma {:induction false} TimerAdded(timers: seq<Timer>, unfired: set<nat>, t: Timer, id: nat)
    ensures Checks(timers + [t], unfired + {|timers|}, id)
            == Checks(timers, unfired, id) + (if t == Timer(VerifyTimer, id) then 1 else 0)
  {
    assert (timers + [t])[..|timers|] == timers;
    LaterTimer(timers, unfired, |timers|, id);
  }

  lemma {:induction false} LaterTimer(timers: seq<Timer>, unfired: set<nat>, k: nat, id: nat)
    requires |timers| <= k
    ensures Checks(timers, unfired + {k}, id) == Checks(timers, unfired, id)
    ensures Checks(timers, unfired - {k}, id) == Checks(timers, unfired, id)
  {
    if timers != [] { LaterTimer(timers[..|timers| - 1], unfired, k, id); }
  }

  lemma {:induction false} TimerSpent(timers: seq<Timer>, unfired: set<nat>, k: nat, id: nat)
    requires k < |timers| && k in unfired
    ensures Checks(timers, unfired, id)
            == Checks(timers, unfired - {k}, id) + (if timers[k] == Timer(VerifyTimer, id) then 1 else 0)
  {
    var n := |timers| - 1;
    if k == n {
      LaterTimer(timers[..n], unfired, k, id);
    } else {
      TimerSpent(timers[..n], unfired, k, id);
    }
  }

  lemma {:induction false} NoTimersFor(timers: seq<Timer>, unfired: set<nat>, id: nat)
    requires forall k | k in unfired && k < |timers| :: timers[k].pendingId != id
    ensures Checks(timers, unfired, id) == 0
  {
    if timers != [] { NoTimersFor(timers[..|timers| - 1], unfired, id); }
  }

  /** The session goes on. */
  ghost predicate SameSession(c: Coord, d: Coord) {
    d.connected == c.connected && d.generation == c.generation
  }

  // ---------------------------------------------------------------- journal entries

  /** Entries that neither start nor end a session or a write, nor submit a read. */
  ghost predicate Neutral(e: Entry) {
    e.SubmissionRefused? || e.Mirrored? || e.PublisherFailed? || e.Acknowledged? || e.Available?
    || e.SnapshotAnswered? || e.ReadReturned? || e.ReadFailed? || e.AckTimedOut?
  }

  lemma PendingStays(c: Coord, e: Entry)
    requires c.pending.Some? && PendingInv(c, c.pending.value) && (Neutral(e) || e.ReadSubmitted?)
    ensures PendingInv(Log(c, e), c.pending.value)
  {
    var h := c.journal + [e];
    assert forall i | 0 <= i < |c.journal| :: h[i] == c.journal[i];
  }

  lemma NeutralLog(c: Coord, e: Entry)
    requires Core(c) && Neutral(e) && Justified(c.journal, e)
    requires e.ReadReturned? || e.ReadFailed? ==> c.token.None? && e.token < |c.calls|
    ensures Core(Log(c, e))
    ensures Settled(c) ==> Settled(Log(c, e))
    ensures SessionStart(c.journal + [e]) == SessionStart(c.journal)
  {
    if c.pending.Some? { PendingStays(c, e); }
    GoodAppend(c.journal, e);
    NeutralReads(c, e);
  }

  lemma NeutralReads(c: Coord, e: Entry)
    requires SessionInv(c) && CallInv(c) && TokenInv(c) && WriteInv(c) && Neutral(e) && Justified(c.journal, e)
    requires Punctual(c.journal) ==> Tidy(c)
    requires e.ReadReturned? || e.ReadFailed? ==> c.token.None? && e.token < |c.calls|
    ensures var d := Log(c, e);
      && SessionInv(d) && CallInv(d) && TokenInv(d) && (Punctual(d.journal) ==> Tidy(d))
      && SessionStart(d.journal) == SessionStart(c.journal)
  {
    var h := c.journal + [e];
    assert forall i | 0 <= i < |c.journal| :: h[i] == c.journal[i];
  }

  lemma CommitKept(env: Env, c: Coord, truth: CoreRead, readAt: nat)
    requires Core(c) && SessionStart(c.journal) <= readAt < |c.journal| && IsRead(c.journal[readAt], truth)
    ensures Core(Commit(env, c, truth, readAt)) && Committed(Commit(env, c, truth, readAt))
    ensures Settled(c) ==> Settled(Commit(env, c, truth, readAt))
  {
    var e := Mirrored(truth, readAt, env.sinkOk(|c.journal|));
    NeutralLog(c, e);
    MirroredCommits(c, e);
  }

  /** The truth just mirrored becomes the latest one. */
  lemma MirroredCommits(c: Coord, e: Entry)
    requires e.Mirrored? && SessionStart(c.journal) <= e.readAt < |c.journal| && IsRead(c.journal[e.readAt], e.truth)
    requires Parsed(e.truth) && Core(Log(c, e)) && SessionStart(c.journal + [e]) == SessionStart(c.journal)
    ensures var d := Log(c, e).(latest := Some(e.truth), latestRev := Some(e.truth.coreRev), latestAt := e.readAt,
                                mirroredAt := |c.journal|, applying := false);
      Core(d) && Committed(d)
  {
    var h := c.journal + [e];
    assert h[e.readAt] == c.journal[e.readAt] && h[|c.journal|] == e;
  }

  lemma AnnounceKept(c: Coord, available: bool)
    requires Core(c)
    ensures Core(Announce(c, available))
    ensures Settled(c) ==> Settled(Announce(c, available))
  {
    NeutralLog(c, Available(available));
  }

  /** Nothing in flight needs the pending write. */
  ghost predicate MayDrop(c: Coord) {
    && (c.token.Some? ==> c.token.value < |c.calls| && c.calls[c.token.value].purpose != WritePreflight)
    && (Punctual(c.journal) ==> !VerifyInFlight(c))
  }

  ghost predicate Resolves(e: Entry) {
    e.WriteFailed? || e.WriteUnverified? || e.WriteDiverged? || e.Verified?
  }

  lemma ResolvedSession(c: Coord, e: Entry)
    requires SessionInv(c) && CallInv(c) && TokenInv(c) && MayDrop(c) && Resolves(e)
    ensures var d := Log(c, e).(pending := None); SessionInv(d) && CallInv(d) && TokenInv(d) && Open(d.journal) == None
  {
    var h := c.journal + [e];
    assert forall i | 0 <= i < |c.journal| :: h[i] == c.journal[i];
  }

  lemma ResolvedTruth(c: Coord, e: Entry)
    requires TruthInv(c) && Resolves(e)
    ensures TruthInv(Log(c, e).(pending := None))
    ensures Committed(c) ==> Committed(Log(c, e).(pending := None))
  {
    var h := c.journal + [e];
    assert forall i | 0 <= i < |c.journal| :: h[i] == c.journal[i];
  }

  /** Closing the pending write, whatever the outcome entered in the journal. */
  lemma ResolveKept(c: Coord, e: Entry)
    requires Core(c) && MayDrop(c) && Justified(c.journal, e)
    requires Resolves(e)
    ensures Inv(Log(c, e).(pending := None))
    ensures Committed(c) ==> Committed(Log(c, e).(pending := None))
  {
    GoodAppend(c.journal, e);
    ResolvedSession(c, e);
    ResolvedTruth(c, e);
  }

  lemma CancelledTimers(c: Coord)
    requires Core(c)
    ensures Core(CancelTimers(c))
    ensures Settled(c) ==> Settled(CancelTimers(c))
  {
  }

  /** Whether a verification of the pending write may be scheduled. */
  ghost predicate MayCheck(c: Coord) {
    && c.pending.Some?
    && (NoForeignFailure(c.journal, c.pending.value.id, c.pending.value.createdAt) ==>
          c.pending.value.stage == Verifying)
  }

  /** Whether a read with this purpose may be submitted now. */
  ghost predicate MaySubmit(c: Coord, purpose: Purpose) {
    && (purpose == WritePreflight ==> c.pending.Some? && c.pending.value.stage == Preparing)
    && (purpose == Verify ==>
          && MayCheck(c) && Counted(c, 1)
          && c.pending.value.stage != Preparing && c.pending.value.receipt.Some?)
  }

  /** `call` is what submitting a read now records. */
  ghost predicate IsNextCall(c: Coord, call: AgentCall) {
    call == NextCall(c, call.readMethod, call.purpose)
  }

  lemma SubmittedKept(c: Coord, call: AgentCall)
    requires Inv(c) && c.connected && c.token.None? && MaySubmit(c, call.purpose) && IsNextCall(c, call)
    ensures Inv(Submitted(c, call))
  {
    var e := ReadSubmitted(|c.calls|, call);
    SubmittedReads(c, call);
    GoodAppend(c.journal, e);
    SubmittedWrites(c, call);
    SubmittedCalls(c, call);
    SubmittedTruth(c, call);
    SubmittedToken(c, call);
  }

  lemma SubmittedReads(c: Coord, call: AgentCall)
    requires SessionInv(c) && c.connected && c.token.None? && MaySubmit(c, call.purpose) && IsNextCall(c, call)
    requires Settled(c) && Counted(c, 0)
    ensures Justified(c.journal, ReadSubmitted(|c.calls|, call))
    ensures Counted(Submitted(c, call), 0)
  {
  }

  lemma SubmittedWrites(c: Coord, call: AgentCall)
    requires WriteInv(c) && TimerInv(c) && Calm(c)
    ensures WriteInv(Submitted(c, call)) && TimerInv(Submitted(c, call)) && Calm(Submitted(c, call))
  {
    if c.pending.Some? { PendingStays(c, ReadSubmitted(|c.calls|, call)); }
  }

  lemma SubmittedToken(c: Coord, call: AgentCall)
    requires SessionInv(c) && c.connected && MaySubmit(c, call.purpose) && IsNextCall(c, call)
    requires c.pending.Some? ==> PendingInv(c, c.pending.value)
    requires Punctual(c.journal) ==> Tidy(c)
    requires Undelivered(c.journal + [ReadSubmitted(|c.calls|, call)], |c.calls|)
    ensures SessionInv(Submitted(c, call)) && TokenInv(Submitted(c, call))
    ensures Punctual(Submitted(c, call).journal) ==> Tidy(Submitted(c, call))
  {
  }

  lemma SubmittedTruth(c: Coord, call: AgentCall)
    requires TruthInv(c)
    ensures TruthInv(Submitted(c, call))
  {
    var h := c.journal + [ReadSubmitted(|c.calls|, call)];
    assert forall i | 0 <= i < |c.journal| :: h[i] == c.journal[i];
  }

  lemma SubmittedCalls(c: Coord, call: AgentCall)
    requires CallInv(c) && call.at == |c.journal| && (call.owner.Some? ==> call.owner.value < c.nextId)
    ensures CallInv(Log(c, ReadSubmitted(|c.calls|, call)).(calls := c.calls + [call]))
    ensures Undelivered(c.journal + [ReadSubmitted(|c.calls|, call)], |c.calls|)
  {
    NumbersGrow(c.journal, c.nextId, |c.calls|, c.nextId, |c.calls| + 1);
    NextNumbersUnused(c.journal, c.nextId, |c.calls|);
    var d := Log(c, ReadSubmitted(|c.calls|, call)).(calls := c.calls + [call]);
    forall k | 0 <= k < |d.calls|
      ensures d.calls[k].at < |d.journal| && d.journal[d.calls[k].at] == ReadSubmitted(k, d.calls[k])
    {
      if k < |c.calls| { assert d.calls[k] == c.calls[k]; }
    }
  }

  lemma StartedKept(c: Coord, request: Request)
    requires Inv(c) && c.pending.None? && c.connected && Committed(c)
    ensures Core(Begin(c, request)) && Committed(Begin(c, request))
  {
    var e := Started(c.nextId, c.generation, request.freshPreflight);
    GoodAppend(c.journal, e);
    StartedPending(c, request);
    StartedReads(c, request);
    StartedTruth(c, request);
    NoTimersFor(c.timers, c.unfired, c.nextId);
  }

  lemma StartedPending(c: Coord, request: Request)
    requires SessionInv(c) && CallInv(c) && c.connected
    ensures WriteInv(Begin(c, request)) && VerifyReads(Begin(c, request).journal, c.nextId) == 0
  {
    NextNumbersUnused(c.journal, c.nextId, |c.calls|);
  }

  lemma StartedReads(c: Coord, request: Request)
    requires SessionInv(c) && CallInv(c) && TokenInv(c) && c.pending.None? && c.connected
    requires Punctual(c.journal) ==> Tidy(c)
    ensures var d := Begin(c, request);
      SessionInv(d) && CallInv(d) && TokenInv(d) && (Punctual(d.journal) ==> Tidy(d))
  {
    var h := c.journal + [Started(c.nextId, c.generation, request.freshPreflight)];
    assert forall i | 0 <= i < |c.journal| :: h[i] == c.journal[i];
    NumbersGrow(c.journal, c.nextId, |c.calls|, c.nextId + 1, |c.calls|);
  }

  lemma StartedTruth(c: Coord, request: Request)
    requires TruthInv(c) && Committed(c)
    ensures TruthInv(Begin(c, request)) && Committed(Begin(c, request))
  {
    var h := c.journal + [Started(c.nextId, c.generation, request.freshPreflight)];
    assert forall i | 0 <= i < |c.journal| :: h[i] == c.journal[i];
  }

  /** What publishing needs to know of the pending write: nothing was published for it yet and, if it
      asked for a preflight, the latest truth is the answer to that and nothing is in flight. */
  ghost predicate ReadyToPublish(c: Coord) {
    && c.pending.Some? && c.pending.value.receipt.None? && c.pending.value.stage != Verifying
    && c.pending.value.retryCount < VERIFY_ATTEMPTS && MayDrop(c)
    && (c.pending.value.preflighted ==>
          && c.token.None?
          && c.pending.value.createdAt < c.pending.value.preflightAt
          && ReadPair(c.journal, c.pending.value.preflightAt, c.latestAt, WritePreflight))
  }

  /** The pending write after publication. */
  ghost function AfterPublication(c: Coord, ready: Prepared, receipt: Receipt, nowMs: int): Pending
    requires c.pending.Some?
  {
    c.pending.value.(receipt := Some(receipt), stage := AwaitingAck, goal := ready.goal,
                     baseline := c.latest, readAt := c.latestAt, publishedAt := |c.journal|,
                     preparedMs := nowMs)
  }

  lemma PrepareAgain(change: PlanChange, goal: Option<TruthPredicate>, truth: CoreRead, nowMs: int)
    requires change.PatchPlan? ==> ValidPatch(change.patch)
    requires Prepare(change, goal, truth, nowMs).Accepted?
    ensures var ready := Prepare(change, goal, truth, nowMs);
      Prepare(change, ready.value.goal, truth, nowMs) == ready
  {
  }

  lemma PublishedPendingInv(c: Coord, ready: Prepared, receipt: Receipt, nowMs: int)
    requires Core(c) && ReadyToPublish(c) && Committed(c)
    requires Prepare(c.pending.value.request.change, c.pending.value.goal, c.latest.value, nowMs)
             == Accepted(ready)
    ensures var p := c.pending.value;
      var e := Published(p.id, c.generation, c.latestAt, c.latest.value, ready.outgoing, receipt);
      PublishedAs(c.journal + [e], AfterPublication(c, ready, receipt, nowMs), c.generation)
  {
    var p := c.pending.value;
    var e := Published(p.id, c.generation, c.latestAt, c.latest.value, ready.outgoing, receipt);
    var h := c.journal + [e];
    assert forall i | 0 <= i < |c.journal| :: h[i] == c.journal[i];
    PrepareAgain(p.request.change, p.goal, c.latest.value, nowMs);
  }

  lemma PublishedKept(c: Coord, ready: Prepared, receipt: Receipt, nowMs: int)
    requires Core(c) && c.connected && ReadyToPublish(c) && Committed(c)
    requires Prepare(c.pending.value.request.change, c.pending.value.goal, c.latest.value, nowMs)
             == Accepted(ready)
    ensures var p := c.pending.value;
      Inv(Log(c, Published(p.id, c.generation, c.latestAt, c.latest.value, ready.outgoing, receipt))
          .(pending := Some(AfterPublication(c, ready, receipt, nowMs)),
            timers := c.timers + [Timer(AckTimer, p.id)],
            unfired := c.unfired + {|c.timers|}, ackTimer := Some(|c.timers|)))
  {
    PublishedPendingInv(c, ready, receipt, nowMs);
    PublishedWith(c, ready.outgoing, receipt, AfterPublication(c, ready, receipt, nowMs));
  }

  lemma PublishedWith(c: Coord, outgoing: FeederTruth, receipt: Receipt, p: Pending)
    requires Core(c) && c.connected && ReadyToPublish(c) && Committed(c)
    requires p == c.pending.value.(receipt := Some(receipt), stage := AwaitingAck, goal := p.goal,
                                   baseline := c.latest, readAt := c.latestAt, publishedAt := |c.journal|,
                                   preparedMs := p.preparedMs)
    requires var e := Published(p.id, c.generation, c.latestAt, c.latest.value, outgoing, receipt);
      PublishedAs(c.journal + [e], p, c.generation)
    ensures Inv(Log(c, Published(p.id, c.generation, c.latestAt, c.latest.value, outgoing, receipt))
                .(pending := Some(p), timers := c.timers + [Timer(AckTimer, p.id)],
                  unfired := c.unfired + {|c.timers|}, ackTimer := Some(|c.timers|)))
  {
    var e := Published(p.id, c.generation, c.latestAt, c.latest.value, outgoing, receipt);
    assert Justified(c.journal, e);
    GoodAppend(c.journal, e);
    PublishedReads(c, p, e);
    PublishedWrite(c, p, e);
    TimerAdded(c.timers, c.unfired, Timer(AckTimer, p.id), p.id);
  }

  lemma PublishedReads(c: Coord, p: Pending, e: Entry)
    requires Core(c) && c.connected && ReadyToPublish(c) && e.Published? && e.pendingId == p.id < c.nextId
    requires p.id == c.pending.value.id && p.createdAt == c.pending.value.createdAt && p.stage == AwaitingAck
    requires p.preflighted == c.pending.value.preflighted
    ensures var d := Log(c, e).(pending := Some(p));
      SessionInv(d) && CallInv(d) && TokenInv(d) && (Punctual(d.journal) ==> Tidy(d))
  {
    var h := c.journal + [e];
    assert forall i | 0 <= i < |c.journal| :: h[i] == c.journal[i];
  }

  lemma PublishedWrite(c: Coord, p: Pending, e: Entry)
    requires Core(c) && ReadyToPublish(c) && Committed(c) && e.Published?
    requires PublishedAs(c.journal + [e], p, c.generation)
    requires p == c.pending.value.(receipt := p.receipt, stage := AwaitingAck, goal := p.goal, baseline := p.baseline,
                                   readAt := p.readAt, publishedAt := p.publishedAt, preparedMs := p.preparedMs)
    ensures var d := Log(c, e).(pending := Some(p)); WriteInv(d) && TruthInv(d)
  {
    var h := c.journal + [e];
    assert forall i | 0 <= i < |c.journal| :: h[i] == c.journal[i];
  }

  lemma StateKept(c: Coord, s: FeederState)
    requires Core(c) && (s == Ready ==> Committed(c)) && (!c.connected ==> s == Disconnected)
    ensures Core(c.(state := s))
    ensures Settled(c) ==> Settled(c.(state := s))
  {
  }

  /** Degrading: the state API is marked down and Home Assistant is told. */
  lemma DegradeKept(c: Coord)
    requires Inv(c)
    ensures Inv(Degrade(c))
  {
    StateKept(c, Disconnected);
    AnnounceKept(c.(state := Disconnected), false);
  }

  lemma ScheduleKept(c: Coord)
    requires Core(c) && MayCheck(c) && Counted(c, 1)
    ensures Core(ScheduleVerification(c))
    ensures Settled(c) ==> Settled(ScheduleVerification(c))
  {
    var p := c.pending.value;
    TimerAdded(c.timers, c.unfired, Timer(VerifyTimer, p.id), p.id);
  }

  lemma PopKept(c: Coord)
    requires Inv(c) && c.queue != []
    ensures Inv(c.(queue := c.queue[1..]))
  {
  }

  lemma FailedResolved(c: Coord)
    requires Core(c) && c.connected && MayDrop(c)
    ensures Inv(DropPending(c)) && (Committed(c) ==> Committed(DropPending(c)))
  {
    CancelledTimers(c);
    if c.pending.Some? {
      ResolveKept(CancelTimers(c), WriteFailed(c.pending.value.id));
    }
  }

  lemma RefreshKept(c: Coord, refresh: bool)
    requires Inv(c)
    ensures Inv(c.(refresh := refresh))
  {
  }

  lemma RefusedKept(c: Coord, purpose: Purpose)
    requires Inv(c) && MaySubmit(c, purpose)
    ensures Inv(Log(c, SubmissionRefused)) && (purpose == Verify ==> MayCheck(Log(c, SubmissionRefused)))
  {
    NeutralLog(c, SubmissionRefused);
  }

  // ---------------------------------------------------------------- the writing cycle

  lemma {:induction false} StartNextKept(env: Env, c: Coord)
    requires Inv(c)
    ensures Inv(StartNextWrite(env, c)) && SameSession(c, StartNextWrite(env, c))
    decreases 0, |c.queue|, 0
  {
    if c.pending.None? && c.state == Ready && c.queue != [] {
      PopKept(c);
      StartWriteKept(env, c.(queue := c.queue[1..]), c.queue[0]);
    }
  }

  lemma {:induction false} StartWriteKept(env: Env, c: Coord, request: Request)
    requires Inv(c) && c.pending.None? && c.connected && Committed(c)
    ensures Inv(StartWrite(env, c, request)) && SameSession(c, StartWrite(env, c, request))
    decreases 0, |c.queue|, 4
  {
    var c1 := Begin(c, request);
    StartedKept(c, request);
    if request.freshPreflight {
      SubmitKept(env, c1, ReadMethod(request), WritePreflight);
    } else {
      PublishKept(env, c1);
    }
  }

  lemma {:induction false} PublishKept(env: Env, c: Coord)
    requires Core(c) && c.connected && ReadyToPublish(c) && Committed(c)
    ensures Inv(PublishPending(env, c, c.latest)) && SameSession(c, PublishPending(env, c, c.latest))
    decreases 0, |c.queue|, 2
  {
    var p := c.pending.value;
    var nowMs := env.nowMs(|c.journal|);
    var prepared := Prepare(p.request.change, p.goal, c.latest.value, nowMs);
    if prepared.Refused? {
      CompleteFailedKept(env, c, false);
    } else if env.publish(|c.journal|).None? {
      NeutralLog(c, PublisherFailed(p.id));
      CompleteFailedKept(env, Log(c, PublisherFailed(p.id)), false);
    } else {
      PublishedKept(c, prepared.value, env.publish(|c.journal|).value, nowMs);
    }
  }

  lemma {:induction false} CompleteFailedKept(env: Env, c: Coord, degraded: bool)
    requires Core(c) && c.connected && MayDrop(c) && (!degraded ==> Committed(c))
    ensures Inv(CompleteFailedWrite(env, c, degraded))
    ensures SameSession(c, CompleteFailedWrite(env, c, degraded))
    decreases 0, |c.queue|, if degraded then 0 else 1
  {
    var c1 := DropPending(c);
    FailedResolved(c);
    if degraded {
      DegradeKept(c1);
    } else {
      var c2 := Commit(env, c1, c1.latest.value, c1.latestAt);
      CommitKept(env, c1, c1.latest.value, c1.latestAt);
      if !env.sinkOk(|c1.journal|) {
        DegradeKept(c2);
      } else {
        StateKept(c2, Ready);
        StartNextKept(env, c2.(state := Ready));
      }
    }
  }

  lemma {:induction false} SubmitKept(env: Env, c: Coord, readMethod: Method, purpose: Purpose)
    requires Inv(c) && c.connected && (c.token.None? ==> MaySubmit(c, purpose))
    ensures Inv(Submit(env, c, readMethod, purpose)) && SameSession(c, Submit(env, c, readMethod, purpose))
    decreases 0, |c.queue|, 3
  {
    if c.token.None? && !env.submitOk(|c.journal|) {
      RefusedKept(c, purpose);
      HandleFailureKept(env, Log(c, SubmissionRefused), purpose);
    } else {
      SubmissionTakenKept(env, c, readMethod, purpose);
    }
  }

  lemma SubmissionTakenKept(env: Env, c: Coord, readMethod: Method, purpose: Purpose)
    requires Inv(c) && c.connected && (c.token.None? ==> MaySubmit(c, purpose))
    requires c.token.Some? || env.submitOk(|c.journal|)
    ensures Inv(Submit(env, c, readMethod, purpose)) && SameSession(c, Submit(env, c, readMethod, purpose))
  {
    if c.token.Some? {
      RefreshKept(c, true);
    } else {
      SubmittedKept(c, NextCall(c, readMethod, purpose));
    }
  }

  lemma {:induction false} HandleFailureKept(env: Env, c: Coord, purpose: Purpose)
    requires Core(c) && c.connected && c.token.None? && Settled(c)
    requires purpose == Verify && c.pending.Some? ==> MayCheck(c)
    ensures Inv(HandleAgentFailure(env, c, purpose))
    ensures SameSession(c, HandleAgentFailure(env, c, purpose))
    decreases 0, |c.queue|, 2
  {
    var c0 := Announce(c.(healthy := false), false);
    UnhealthyKept(c);
    if purpose == Verify && c.pending.Some? {
      RetryKept(env, c0, true);
    } else if purpose == PlanSnapshot {
      FinishKept(c0, None, 0);
      StateKept(FinishSnapshots(c0, None, 0), Disconnected);
    } else if purpose == WritePreflight {
      CompleteFailedKept(env, c0, true);
    } else {
      StateKept(c0, Disconnected);
    }
  }

  lemma UnhealthyKept(c: Coord)
    requires Core(c)
    ensures Core(Announce(c.(healthy := false), false))
    ensures Settled(c) ==> Settled(Announce(c.(healthy := false), false))
  {
    var d := c.(healthy := false);
    assert Core(d);
    AnnounceKept(d, false);
  }

  lemma WaitersKept(c: Coord, n: nat)
    requires Core(c)
    ensures Core(c.(waiters := n))
    ensures Settled(c) ==> Settled(c.(waiters := n))
  {
  }

  lemma FinishKept(c: Coord, plans: Option<seq<FeederPlan>>, readAt: nat)
    requires Core(c)
    requires plans.Some? ==>
      && readAt < |c.journal| && c.journal[readAt].ReadReturned? && c.journal[readAt].value.TruthValue?
      && c.journal[readAt].value.truth.plans == plans.value
    ensures Core(FinishSnapshots(c, plans, readAt))
    ensures Settled(c) ==> Settled(FinishSnapshots(c, plans, readAt))
  {
    if c.waiters > 0 {
      WaitersKept(c, 0);
      NeutralLog(c.(waiters := 0), SnapshotAnswered(c.waiters, plans, readAt));
    }
  }

  /** The pending write with one more verification attempt counted. */
  function Recounted(c: Coord): Coord
    requires c.pending.Some?
  {
    c.(pending := Some(c.pending.value.(retryCount := c.pending.value.retryCount + 1)))
  }

  lemma RecountedKept(c: Coord)
    requires Core(c) && c.connected && c.token.None? && MayCheck(c)
    ensures Core(Recounted(c)) && Committed(c) && MayCheck(Recounted(c)) && Counted(Recounted(c), 1)
  {
  }

  lemma RescheduledKept(c: Coord)
    requires Core(c) && c.connected && c.token.None? && MayCheck(c) && Settled(c)
    requires c.pending.value.retryCount + 1 < VERIFY_ATTEMPTS
    ensures Inv(ScheduleVerification(Recounted(c)))
  {
    RecountedKept(c);
    ScheduleKept(Recounted(c));
  }

  lemma GivenUpKept(c: Coord)
    requires Core(c) && c.connected && c.token.None? && MayCheck(c)
    ensures var c1 := Recounted(c).(state := Diverged); Core(c1) && Committed(c1)
  {
    RecountedKept(c);
    StateKept(Recounted(c), Diverged);
  }

  lemma {:induction false} RetryKept(env: Env, c: Coord, apiFailure: bool)
    requires Core(c) && c.connected && c.token.None? && MayCheck(c) && Settled(c)
    ensures Inv(RetryVerification(env, c, apiFailure))
    ensures SameSession(c, RetryVerification(env, c, apiFailure))
    decreases if apiFailure then 0 else 3, |c.queue|, 1
  {
    var p := Recounted(c).pending.value;
    if p.retryCount < VERIFY_ATTEMPTS {
      RescheduledKept(c);
    } else {
      GivenUpKept(c);
      if p.lastObserved.None? {
        CompleteFailedKept(env, Recounted(c).(state := Diverged), apiFailure);
      } else {
        DivergedKept(env, Recounted(c).(state := Diverged), apiFailure);
      }
    }
  }

  lemma {:induction false} DivergedKept(env: Env, c: Coord, apiFailure: bool)
    requires Core(c) && c.connected && c.token.None? && c.pending.Some?
    requires c.pending.value.lastObserved.Some?
    ensures var r := Diverge(env, c, c.pending.value, c.pending.value.lastObserved.value, apiFailure);
      Inv(r) && SameSession(c, r)
    decreases if apiFailure then 0 else 3, |c.queue|, 0
  {
    var p := c.pending.value;
    var actual := p.lastObserved.value;
    var d := Commit(env, c, actual, p.observedAt);
    CommitKept(env, c, actual, p.observedAt);
    ResolveKept(d, WriteDiverged(p.id));
    var c1 := Log(d, WriteDiverged(p.id)).(pending := None);
    if apiFailure || !env.sinkOk(|c.journal|) {
      DegradeKept(c1);
    } else {
      StateKept(c1, Ready);
      var c2 := AnnounceAvailable(env, c1.(state := Ready));
      AnnounceAvailableKept(env, c1.(state := Ready));
      var c3 := if p.request.change.NormalizePlans? then c2 else MaybeNormalize(env, c2, actual);
      if !p.request.change.NormalizePlans? { MaybeNormalizeKept(env, c2, actual); }
      StartNextKept(env, c3);
    }
  }

  lemma {:induction false} AnnounceAvailableKept(env: Env, c: Coord)
    requires Inv(c)
    ensures Inv(AnnounceAvailable(env, c)) && SameSession(c, AnnounceAvailable(env, c))
    decreases 2, |c.queue|, 0
  {
    var c1 := Announce(c, true);
    AnnounceKept(c, true);
    match env.onAvailable(|c1.journal|)
    case None =>
    case Some(request) => RequestKept(env, c1, request);
  }

  lemma QueueKept(c: Coord, request: Request)
    requires Inv(c) && c.connected
    ensures Inv(QueueWrite(c, request).0) && SameSession(c, QueueWrite(c, request).0)
  {
    QueueStaysDistinct(c, request);
    var d := c.(queue := QueueWrite(c, request).0.queue);
    assert d == QueueWrite(c, request).0;
  }

  lemma QueueStaysDistinct(c: Coord, request: Request)
    requires QueueInv(c)
    ensures QueueInv(QueueWrite(c, request).0)
  {
  }

  lemma {:induction false} RequestKept(env: Env, c: Coord, request: Request)
    requires Inv(c)
    ensures Inv(RequestWrite(env, c, request).0) && SameSession(c, RequestWrite(env, c, request).0)
    decreases 1, |c.queue|, 0
  {
    if c.connected && c.healthy {
      if c.pending.Some? {
        if c.pending.value.stage != Preparing || c.pending.value.request.control != request.control {
          QueueKept(c, request);
        }
      } else if c.state == Ready && c.latest.Some? {
        if c.token.Some? {
          QueueKept(c, request);
        } else {
          StartWriteKept(env, c, request);
        }
      }
    }
  }

  lemma {:induction false} MaybeNormalizeKept(env: Env, c: Coord, truth: CoreRead)
    requires Inv(c)
    ensures Inv(MaybeNormalize(env, c, truth)) && SameSession(c, MaybeNormalize(env, c, truth))
    decreases 2, |c.queue|, 0
  {
    var rewrite := AutomaticRewrite(truth.plans, env.nowMs(|c.journal|));
    if rewrite.Some? && env.canNormalize {
      RequestKept(env, c, NormalizationRequest(rewrite.value));
    }
  }
}
