/** The verified-write coordinator as a state machine: one function per method of
    `FeederStateCoordinator`, over a value that holds its attributes and a journal of everything it
    exchanges with the outside. */
module CoordinatorModel {
  import opened Wrappers
  import opened FeedPlans
  import opened PlanNormalization

  // ---------------------------------------------------------------- data exchanged

  datatype Value = Null | Bool(b: bool) | Number(n: int) | Text(s: string)

  datatype FeederTruth = FeederTruth(coreRev: string, settings: map<string, Value>, persistent: set<string>,
                                     planCount: int, plans: seq<FeederPlan>)

  /** What `FeederTruth.from_dict` lets through: an exact count and distinct plan IDs. */
  predicate Parsed(t: FeederTruth) {
    t.planCount == |t.plans| && DistinctIds(t.plans)
  }

  type CoreRead = t: FeederTruth | Parsed(t) witness FeederTruth("", map[], {}, 0, [])

  datatype AgentValue = TruthValue(truth: CoreRead) | RevisionValue(coreRev: string) | OtherValue

  datatype AgentResult = Returned(value: AgentValue) | Failed

  datatype TruthPredicate =
    | SettingEquals(name: string, wanted: Value)
    | PlanCollection(expected: seq<FeederPlan>, target: int, operation: PlanOperation)
    | PlanIds(rewrite: Normalization)

  predicate Matches(p: TruthPredicate, t: FeederTruth) {
    match p
    case SettingEquals(name, wanted) =>
      name in t.persistent && (if name in t.settings then t.settings[name] else Null) == wanted
    case PlanCollection(expected, target, operation) =>
      PredicateMatches(expected, target, operation, t.planCount, t.plans)
    case PlanIds(n) => RewriteMatches(n, t.planCount, t.plans)
  }

  datatype PlanChange = NoPlanChange | PatchPlan(patch: PlanPatch) | DeletePlan(planId: int)
                      | NormalizePlans(rewrite: Normalization)

  datatype WriteRequest = WriteRequest(control: string, goal: Option<TruthPredicate>, ackOnly: bool,
                                       freshPreflight: bool, rawDiagnostics: bool, change: PlanChange)

  predicate ValidRequest(r: WriteRequest) {
    && (r.change.PatchPlan? ==> ValidPatch(r.change.patch))
    && (r.change.DeletePlan? ==> 1 <= r.change.planId <= 9)
  }

  /** Requests as their constructors let them through. */
  type Request = r: WriteRequest | ValidRequest(r)
    witness WriteRequest("", None, false, false, false, NoPlanChange)

  datatype Receipt = Receipt(ackKind: string, messageId: string)

  // ---------------------------------------------------------------- state

  datatype FeederState = Disconnected | Connected | Reconciling | Ready | PendingState | VerifyingState
                       | Diverged
  datatype Stage = Preparing | AwaitingAck | Verifying
  datatype Purpose = Reconcile | Heartbeat | WritePreflight | Verify | PlanSnapshot
  datatype Method = CoreMethod | CoreRawMethod | RevisionsMethod

  /** A read handed to the executor. `at` is its place in the journal; `owner` and `stage` are the write
      that was pending when it was submitted and how far that write was. Its operation token is its index
      in `calls`. */
  datatype AgentCall = AgentCall(readMethod: Method, purpose: Purpose, generation: nat, at: nat,
                                 owner: Option<nat>, stage: Option<Stage>)

  datatype TimerKind = AckTimer | VerifyTimer
  datatype Timer = Timer(kind: TimerKind, pendingId: nat)

  /** A pending write. The attributes from `createdAt` on are places in the journal, standing for the
      moments the write was created, read for, published, acknowledged and last observed;
      `preparedMs` is the clock at publication. */
  datatype Pending = Pending(id: nat, request: Request, stage: Stage, receipt: Option<Receipt>,
                             goal: Option<TruthPredicate>, baseline: Option<CoreRead>, retryCount: nat,
                             lastObserved: Option<CoreRead>, preflighted: bool, createdAt: nat,
                             preflightAt: nat, readAt: nat, publishedAt: nat, ackedAt: nat,
                             observedAt: nat, preparedMs: int)

  datatype Entry =
    | SessionBegan(generation: nat)
    | SessionEnded
    | ReadSubmitted(token: nat, call: AgentCall)
    | SubmissionRefused
    | ReadReturned(token: nat, value: AgentValue)
    | ReadFailed(token: nat, call: AgentCall)
    | Mirrored(truth: FeederTruth, readAt: nat, projected: bool)
    | Started(pendingId: nat, generation: nat, preflighted: bool)
    | Published(pendingId: nat, generation: nat, readAt: nat, baseline: CoreRead, outgoing: FeederTruth,
                receipt: Receipt)
    | PublisherFailed(pendingId: nat)
    | Acknowledged(pendingId: nat, publishedAt: nat, receipt: Receipt, success: bool)
    | AckTimedOut(pendingId: nat, stage: Stage)
    | Verified(write: Pending, token: nat, check: AgentCall, readAt: nat, observed: CoreRead)
    | WriteFailed(pendingId: nat)
    | WriteUnverified(pendingId: nat)
    | WriteDiverged(pendingId: nat)
    | Available(available: bool)
    | SnapshotAnswered(waiters: nat, plans: Option<seq<FeederPlan>>, readAt: nat)

  datatype Coord = Coord(
    state: FeederState, connected: bool, healthy: bool, latest: Option<CoreRead>,
    latestRev: Option<string>, pending: Option<Pending>, queue: seq<Request>, applying: bool,
    generation: nat, token: Option<nat>, refresh: bool, waiters: nat, ackTimer: Option<nat>,
    verifyTimer: Option<nat>,
    // bookkeeping of the outside: the calls, timers and write numbers handed out so far, and the timers
    // that have not fired
    calls: seq<AgentCall>, timers: seq<Timer>, unfired: set<nat>, nextId: nat,
    latestAt: nat, mirroredAt: nat, journal: seq<Entry>)

  const INITIAL := Coord(Disconnected, false, false, None, None, None, [], false, 0, None, false, 0, None,
                         None, [], [], {}, 0, 0, 0, [])

  /** What the outside answers at each place of the journal: whether the truth sink, the executor and
      the publisher succeed, the clock, and a request that the availability sink makes when it is told
      that the feeder is available. */
  datatype Env = Env(sinkOk: nat -> bool, submitOk: nat -> bool, publish: nat -> Option<Receipt>,
                     nowMs: nat -> int, onAvailable: nat -> Option<Request>, canNormalize: bool)

  datatype Event =
    | FeederConnected
    | FeederDisconnected
    | HeartbeatSeen
    | StateHint
    | WriteRequested(request: Request)
    | SnapshotRequested
    | AckReceived(receipt: Receipt, success: bool)
    | TimerFires(timer: nat)
    | ReadCompletes(token: nat, result: AgentResult)
    | Shutdown

  const MAX_QUEUED_WRITES := 8
  const VERIFY_ATTEMPTS := 4

  function Log(c: Coord, e: Entry): Coord {
    c.(journal := c.journal + [e])
  }

  // ---------------------------------------------------------------- small steps

  function Announce(c: Coord, available: bool): Coord {
    Log(c, Available(available))
  }

  /** Cancelling a timer forgets its handle; its callback may already be on its way. */
  function CancelAckTimeout(c: Coord): Coord {
    c.(ackTimer := None)
  }

  function CancelTimers(c: Coord): Coord {
    CancelAckTimeout(c).(verifyTimer := None)
  }

  function Degrade(c: Coord): Coord {
    Announce(c.(state := Disconnected), false)
  }

  function DropPending(c: Coord): Coord {
    CancelTimers(if c.pending.Some? then Log(c, WriteFailed(c.pending.value.id)) else c).(pending := None)
  }

  function FinishSnapshots(c: Coord, plans: Option<seq<FeederPlan>>, readAt: nat): Coord {
    if c.waiters == 0 then c else Log(c.(waiters := 0), SnapshotAnswered(c.waiters, plans, readAt))
  }

  function ScheduleVerification(c: Coord): Coord {
    match c.pending
    case None => c
    case Some(p) => c.(timers := c.timers + [Timer(VerifyTimer, p.id)], unfired := c.unfired + {|c.timers|},
                       verifyTimer := Some(|c.timers|))
  }

  /** `_commit_verified_truth`: whether the projection succeeded is the journal's last entry. */
  function Commit(env: Env, c: Coord, truth: CoreRead, readAt: nat): Coord {
    Log(c, Mirrored(truth, readAt, env.sinkOk(|c.journal|)))
      .(latest := Some(truth), latestRev := Some(truth.coreRev), latestAt := readAt,
        mirroredAt := |c.journal|, applying := false)
  }

  function ReadMethod(r: Request): Method {
    if r.rawDiagnostics then CoreRawMethod else CoreMethod
  }

  function LastIndexOf(queue: seq<Request>, control: string): (k: Option<nat>)
    ensures k.Some? ==> k.value < |queue| && queue[k.value].control == control
    ensures k.None? ==> forall i | 0 <= i < |queue| :: queue[i].control != control
  {
    if queue == [] then None
    else if queue[|queue| - 1].control == control then Some(|queue| - 1)
    else LastIndexOf(queue[..|queue| - 1], control)
  }

  function QueueWrite(c: Coord, request: Request): (Coord, bool) {
    var k := LastIndexOf(c.queue, request.control);
    if k.Some? then (c.(queue := c.queue[k.value := request]), true)
    else if |c.queue| >= MAX_QUEUED_WRITES then (c, false)
    else (c.(queue := c.queue + [request]), true)
  }

  function FreshPending(c: Coord, request: Request): Pending {
    Pending(c.nextId, request, if request.freshPreflight then Preparing else AwaitingAck, None,
            request.goal, None, 0, None, request.freshPreflight, |c.journal|, 0, 0, 0, 0, 0, 0)
  }

  function Begin(c: Coord, request: Request): Coord {
    Log(c, Started(c.nextId, c.generation, request.freshPreflight))
      .(pending := Some(FreshPending(c, request)), nextId := c.nextId + 1, state := PendingState)
  }

  function NextCall(c: Coord, readMethod: Method, purpose: Purpose): AgentCall {
    AgentCall(readMethod, purpose, c.generation, |c.journal|,
              if c.pending.Some? then Some(c.pending.value.id) else None,
              if c.pending.Some? then Some(c.pending.value.stage) else None)
  }

  function Submitted(c: Coord, call: AgentCall): Coord {
    Log(c, ReadSubmitted(|c.calls|, call)).(token := Some(|c.calls|), calls := c.calls + [call])
  }

  datatype Prepared = Prepared(goal: Option<TruthPredicate>, outgoing: FeederTruth)

  function WithPlans(t: FeederTruth, plans: seq<FeederPlan>): FeederTruth {
    t.(planCount := |plans|, plans := plans)
  }

  /** The part of `_publish_pending` before the publisher is called. The constructor in the patch
      branch stands outside the `try`, so it must not raise. */
  function Prepare(change: PlanChange, goal: Option<TruthPredicate>, truth: CoreRead, nowMs: int)
    : Result<Prepared>
    requires change.PatchPlan? ==> ValidPatch(change.patch)
  {
    match change
    case NoPlanChange => Accepted(Prepared(goal, truth))
    case PatchPlan(patch) => (
      match PatchedCollection(truth.plans, patch, nowMs)
      case Refused => Refused
      case Accepted(expected) =>
        var operation := PatchOperation(truth.plans, patch);
        assert PredicateAccepts(truth.plans, expected, patch.planId, operation) by {
          PatchedIsAccepted(truth.plans, patch, nowMs);
        }
        Accepted(Prepared(Some(PlanCollection(expected, patch.planId, operation)),
                          WithPlans(truth, expected))))
    case DeletePlan(id) => (
      match DeletedCollection(truth.plans, id)
      case Refused => Refused
      case Accepted(expected) =>
        if !PredicateAccepts(truth.plans, expected, id, Delete) then Refused
        else Accepted(Prepared(Some(PlanCollection(expected, id, Delete)), WithPlans(truth, expected))))
    case NormalizePlans(n) =>
      if truth.plans != n.baseline || !Lossless(n.baseline) || !RewriteAccepted(n) then Refused
      else Accepted(Prepared(Some(PlanIds(n)), WithPlans(truth, n.normalized)))
  }

  /** The rewrite to publish, if any; building it ends in a rewrite or a refusal, never in an
      exception of another kind. */
  function AutomaticRewrite(plans: seq<FeederPlan>, nowMs: int): Option<Normalization> {
    var outcome := BuildNormalization(plans, nowMs);
    assert outcome.Normalized? || outcome.Refusal? by { NormalizationNeverFails(plans, nowMs); }
    if outcome.Normalized? && outcome.value.mapping != [] then Some(outcome.value) else None
  }

  function NormalizationRequest(n: Normalization): Request {
    WriteRequest("food.plan_id_normalization", None, false, false, false, NormalizePlans(n))
  }

  // ---------------------------------------------------------------- writes
  //
  // These call each other. Starting the next write takes one request off the queue, and nothing in the
  // cycle adds to it, so the queue's length is the measure.

  function StartNextWrite(env: Env, c: Coord): (r: Coord)
    ensures c.journal <= r.journal
    decreases 0, |c.queue|, 0
  {
    if c.pending.None? && c.state == Ready && c.queue != []
    then StartWrite(env, c.(queue := c.queue[1..]), c.queue[0])
    else c
  }

  function StartWrite(env: Env, c: Coord, request: Request): (r: Coord)
    ensures c.journal <= r.journal
    decreases 0, |c.queue|, 4
  {
    var c1 := Begin(c, request);
    if request.freshPreflight then Submit(env, c1, ReadMethod(request), WritePreflight)
    else PublishPending(env, c1, c1.latest)
  }

  function PublishPending(env: Env, c: Coord, truth: Option<CoreRead>): (r: Coord)
    ensures c.journal <= r.journal
    decreases 0, |c.queue|, 2
  {
    if c.pending.None? || truth.None? then CompleteFailedWrite(env, c, false)
    else
      var p := c.pending.value;
      var nowMs := env.nowMs(|c.journal|);
      match Prepare(p.request.change, p.goal, truth.value, nowMs)
      case Refused => CompleteFailedWrite(env, c, false)
      case Accepted(ready) =>
        match env.publish(|c.journal|)
        case None => CompleteFailedWrite(env, Log(c, PublisherFailed(p.id)), false)
        case Some(receipt) =>
          var p' := p.(receipt := Some(receipt), stage := AwaitingAck, goal := ready.goal,
                       baseline := truth, readAt := c.latestAt, publishedAt := |c.journal|,
                       preparedMs := nowMs);
          Log(c, Published(p.id, c.generation, c.latestAt, truth.value, ready.outgoing, receipt))
            .(pending := Some(p'), timers := c.timers + [Timer(AckTimer, p.id)],
              unfired := c.unfired + {|c.timers|}, ackTimer := Some(|c.timers|))
  }

  function CompleteFailedWrite(env: Env, c: Coord, degraded: bool): (r: Coord)
    ensures c.journal <= r.journal
    decreases 0, |c.queue|, if degraded then 0 else 1
  {
    var c1 := DropPending(c);
    assert c.journal <= c1.journal && c1.queue == c.queue;
    if degraded then Degrade(c1)
    else if c1.latest.Some? then
      var c2 := Commit(env, c1, c1.latest.value, c1.latestAt);
      assert c1.journal <= c2.journal && c2.queue == c.queue;
      if !env.sinkOk(|c1.journal|) then Degrade(c2)
      else StartNextWrite(env, c2.(state := Ready))
    else StartNextWrite(env, c1.(state := Ready))
  }

  function Submit(env: Env, c: Coord, readMethod: Method, purpose: Purpose): (r: Coord)
    ensures c.journal <= r.journal
    decreases 0, |c.queue|, 3
  {
    if c.token.Some? then c.(refresh := true)
    else if env.submitOk(|c.journal|) then
      Submitted(c, NextCall(c, readMethod, purpose))
    else HandleAgentFailure(env, Log(c, SubmissionRefused), purpose)
  }

  function HandleAgentFailure(env: Env, c: Coord, purpose: Purpose): (r: Coord)
    ensures c.journal <= r.journal
    decreases 0, |c.queue|, 2
  {
    var c0 := Announce(c.(healthy := false), false);
    if purpose == Verify && c.pending.Some? then RetryVerification(env, c0, true)
    else if purpose == PlanSnapshot then FinishSnapshots(c0, None, 0).(state := Disconnected)
    else if purpose == WritePreflight then CompleteFailedWrite(env, c0, true)
    else c0.(state := Disconnected)
  }

  function RetryVerification(env: Env, c: Coord, apiFailure: bool): (r: Coord)
    ensures apiFailure ==> c.journal <= r.journal
    decreases if apiFailure then 0 else 3, |c.queue|, 1
  {
    if c.pending.None? then c
    else
      var p := c.pending.value.(retryCount := c.pending.value.retryCount + 1);
      var c0 := c.(pending := Some(p));
      if p.retryCount < VERIFY_ATTEMPTS then ScheduleVerification(c0)
      else
        var c1 := c0.(state := Diverged);
        if p.lastObserved.None? then CompleteFailedWrite(env, c1, apiFailure)
        else Diverge(env, c1, p, p.lastObserved.value, apiFailure)
  }

  /** Giving up on write `p` after `actual` was observed: the observed truth wins. */
  function Diverge(env: Env, c: Coord, p: Pending, actual: CoreRead, apiFailure: bool): (r: Coord)
    ensures apiFailure ==> c.journal <= r.journal
    decreases if apiFailure then 0 else 3, |c.queue|, 0
  {
    var c1 := Log(Commit(env, c, actual, p.observedAt), WriteDiverged(p.id)).(pending := None);
    if apiFailure || !env.sinkOk(|c.journal|) then Degrade(c1)
    else
      var c2 := AnnounceAvailable(env, c1.(state := Ready));
      var c3 := if p.request.change.NormalizePlans? then c2 else MaybeNormalize(env, c2, actual);
      StartNextWrite(env, c3)
  }

  /** The availability sink may make a write request of its own before it returns. */
  function AnnounceAvailable(env: Env, c: Coord): (r: Coord)
    ensures c.journal <= r.journal
    decreases 2, |c.queue|, 0
  {
    var c1 := Announce(c, true);
    match env.onAvailable(|c1.journal|)
    case None => c1
    case Some(request) => RequestWrite(env, c1, request).0
  }

  function RequestWrite(env: Env, c: Coord, request: Request): (r: (Coord, bool))
    ensures c.journal <= r.0.journal
    decreases 1, |c.queue|, 0
  {
    if c.applying || !c.connected || !c.healthy then (c, false)
    else if c.pending.Some? then
      if c.pending.value.stage == Preparing && c.pending.value.request.control == request.control
      then (c.(pending := Some(c.pending.value.(request := request))), true)
      else QueueWrite(c, request)
    else if c.state != Ready || c.latest.None? then (c, false)
    else if c.token.Some? then QueueWrite(c, request)
    else (StartWrite(env, c, request), true)
  }

  function MaybeNormalize(env: Env, c: Coord, truth: CoreRead): (r: Coord)
    ensures c.journal <= r.journal
    decreases 2, |c.queue|, 0
  {
    var rewrite := AutomaticRewrite(truth.plans, env.nowMs(|c.journal|));
    if rewrite.Some? && env.canNormalize
    then RequestWrite(env, c, NormalizationRequest(rewrite.value)).0
    else c
  }

  // ---------------------------------------------------------------- reads

  function ReconcileFromFeeder(env: Env, c: Coord): Coord {
    if !c.connected || c.token.Some? then c
    else Submit(env, c.(state := Reconciling), CoreMethod, Reconcile)
  }

  function RefreshRevisions(env: Env, c: Coord): Coord {
    if !c.connected || c.token.Some? then c.(refresh := true)
    else Submit(env, c.(refresh := false), RevisionsMethod, Heartbeat)
  }

  function HandleRevisionSnapshot(env: Env, c: Coord, value: AgentValue): Coord {
    if !value.RevisionValue? then HandleAgentFailure(env, c, Heartbeat)
    else if c.latestRev != Some(value.coreRev) then Submit(env, c, CoreMethod, Reconcile)
    else c
  }

  function HandleReconciledTruth(env: Env, c: Coord, value: AgentValue, readAt: nat): Coord {
    if !value.TruthValue? then HandleAgentFailure(env, c, Reconcile)
    else
      var c1 := Commit(env, c, value.truth, readAt);
      if !env.sinkOk(|c.journal|) then Degrade(c1)
      else
        var c2 := MaybeNormalize(env, c1.(state := Ready), value.truth);
        StartNextWrite(env, AnnounceAvailable(env, c2))
  }

  function HandleWritePreflight(env: Env, c: Coord, value: AgentValue, call: AgentCall, readAt: nat): Coord {
    if c.pending.None? || c.pending.value.stage != Preparing then c
    else if !value.TruthValue? then CompleteFailedWrite(env, c, false)
    else
      var c1 := Commit(env, c, value.truth, readAt);
      if !env.sinkOk(|c.journal|) then CompleteFailedWrite(env, c1, true)
      else PublishPending(env, c1.(pending := Some(c.pending.value.(preflightAt := call.at))),
                          Some(value.truth))
  }

  function HandleVerificationTruth(env: Env, c: Coord, value: AgentValue, token: nat, call: AgentCall,
                                   readAt: nat): Coord
  {
    if c.pending.None? || c.pending.value.stage != Verifying then c
    else if !value.TruthValue? then RetryVerification(env, c, false)
    else
      var truth := value.truth;
      var p := c.pending.value.(lastObserved := Some(truth), observedAt := readAt);
      var c0 := c.(pending := Some(p));
      if p.goal.None? || !Matches(p.goal.value, truth) then RetryVerification(env, c0, false)
      else
        var c1 := Commit(env, c0, truth, readAt);
        if !env.sinkOk(|c0.journal|) then CompleteFailedWrite(env, c1, true)
        else AcceptVerified(env, c1, p, token, call, readAt, truth)
  }

  function AcceptVerified(env: Env, c: Coord, p: Pending, token: nat, call: AgentCall, readAt: nat,
                          truth: CoreRead): Coord
  {
    var c1 := Log(c, Verified(p, token, call, readAt, truth)).(pending := None, state := Ready);
    StartNextWrite(env, MaybeNormalize(env, AnnounceAvailable(env, c1), truth))
  }

  function HandlePlanSnapshot(env: Env, c: Coord, value: AgentValue, readAt: nat): Coord {
    if !value.TruthValue? then FinishSnapshots(c, None, 0)
    else
      var ok := env.sinkOk(|c.journal|);
      var c2 := SnapshotMirrored(env, Commit(env, c, value.truth, readAt), ok);
      AnswerSnapshot(env, c2, value.truth, readAt, ok)
  }

  /** After the snapshot was mirrored: degraded, announced again, or as it was. */
  function SnapshotMirrored(env: Env, c: Coord, ok: bool): Coord {
    if !ok then Degrade(c)
    else if c.state == Disconnected then AnnounceAvailable(env, c.(state := Ready))
    else c
  }

  function AnswerSnapshot(env: Env, c: Coord, truth: CoreRead, readAt: nat, ok: bool): Coord {
    var c1 := FinishSnapshots(c, Some(truth.plans), readAt);
    if ok && c1.state == Ready then MaybeNormalize(env, c1, truth) else c1
  }

  function MaybeProcessDeferred(env: Env, c: Coord): Coord {
    if c.token.Some? then c
    else if c.pending.Some? && c.pending.value.stage == Preparing
    then Submit(env, c, ReadMethod(c.pending.value.request), WritePreflight)
    else if c.waiters > 0 && c.pending.None? then Submit(env, c, CoreMethod, PlanSnapshot)
    else if c.pending.None? && c.state == Ready && c.queue != []
    then StartWrite(env, c.(queue := c.queue[1..]), c.queue[0])
    else if c.refresh && c.pending.None? then RefreshRevisions(env, c)
    else c
  }

  function Dispatch(env: Env, c: Coord, token: nat, call: AgentCall, value: AgentValue, readAt: nat): Coord {
    match call.purpose
    case Heartbeat => HandleRevisionSnapshot(env, c, value)
    case Reconcile => HandleReconciledTruth(env, c, value, readAt)
    case WritePreflight => HandleWritePreflight(env, c, value, call, readAt)
    case Verify => HandleVerificationTruth(env, c, value, token, call, readAt)
    case PlanSnapshot => HandlePlanSnapshot(env, c, value, readAt)
  }

  /** `_agent_call_complete`; a completion for a call that was never submitted does not exist. */
  function AgentCallComplete(env: Env, c: Coord, token: nat, result: AgentResult): Coord {
    if token >= |c.calls| || c.calls[token].generation != c.generation || c.token != Some(token) then c
    else
      var call := c.calls[token];
      var c1 := c.(token := None);
      match result
      case Failed => MaybeProcessDeferred(env, HandleAgentFailure(env, Log(c1, ReadFailed(token, call)), call.purpose))
      case Returned(value) =>
        var c2 := Log(c1.(healthy := true), ReadReturned(token, value));
        MaybeProcessDeferred(env, Dispatch(env, c2, token, call, value, |c.journal|))
  }

  // ---------------------------------------------------------------- events

  function OnFeederConnected(env: Env, c: Coord): Coord {
    if c.connected && c.state != Disconnected then c
    else ReconcileFromFeeder(env, Announce(BeginSession(c), false).(state := Connected))
  }

  function BeginSession(c: Coord): Coord {
    if c.connected then c
    else Log(c, SessionBegan(c.generation + 1)).(generation := c.generation + 1, connected := true)
  }

  function AbandonWork(c: Coord): Coord {
    CancelTimers(c).(token := None, pending := None, queue := [])
  }

  function EndSession(c: Coord): Coord {
    Log(AbandonWork(c), SessionEnded)
      .(connected := false, healthy := false, generation := c.generation + 1, state := Disconnected)
  }

  function OnFeederDisconnected(c: Coord): Coord {
    Announce(EndSession(c), false)
  }

  function OnShutdown(c: Coord): Coord {
    EndSession(c).(refresh := false, waiters := 0)
  }

  function OnHeartbeat(env: Env, c: Coord): Coord {
    if !c.connected then OnFeederConnected(env, c)
    else if c.state == Disconnected || !c.healthy then ReconcileFromFeeder(env, c)
    else if c.pending.Some? then c.(refresh := true)
    else RefreshRevisions(env, c)
  }

  function OnStateHint(env: Env, c: Coord): Coord {
    if c.state == Ready && c.pending.None? then RefreshRevisions(env, c.(refresh := true)) else c
  }

  function RequestPlanSnapshot(env: Env, c: Coord): Coord {
    var c1 := c.(waiters := c.waiters + 1);
    if !c.connected then FinishSnapshots(c1, None, 0)
    else if c.token.None? && c.pending.None? then Submit(env, c1, CoreMethod, PlanSnapshot)
    else c1
  }

  predicate AckMatches(c: Coord, receipt: Receipt) {
    c.pending.Some? && c.pending.value.stage == AwaitingAck && c.pending.value.receipt == Some(receipt)
  }

  function OnMqttAck(env: Env, c: Coord, receipt: Receipt, success: bool): (Coord, bool) {
    if !AckMatches(c, receipt) then (c, false)
    else
      var p := c.pending.value;
      var c1 := Log(CancelAckTimeout(c), Acknowledged(p.id, p.publishedAt, receipt, success));
      if !success then (CompleteFailedWrite(env, c1, false), true)
      else if p.request.ackOnly then
        (StartNextWrite(env, Log(CancelTimers(c1), WriteUnverified(p.id)).(pending := None, state := Ready)),
         true)
      else
        (ScheduleVerification(c1.(pending := Some(p.(stage := Verifying, ackedAt := |c.journal|)),
                                  state := VerifyingState)), true)
  }

  function OnAckTimeout(env: Env, c: Coord, pendingId: nat): Coord {
    var c1 := c.(ackTimer := None);
    if c.pending.Some? && c.pending.value.id == pendingId
    then CompleteFailedWrite(env, Log(c1, AckTimedOut(pendingId, c.pending.value.stage)), false)
    else c1
  }

  function OnVerificationTimer(env: Env, c: Coord, pendingId: nat): Coord {
    var c1 := c.(verifyTimer := None);
    if c.pending.None? || c.pending.value.id != pendingId then c1
    else if c.token.Some? then ScheduleVerification(c1)
    else Submit(env, c1, ReadMethod(c.pending.value.request), Verify)
  }

  /** A timer fires at most once, at any time, even after it was cancelled. */
  function OnTimer(env: Env, c: Coord, timer: nat): Coord {
    if timer !in c.unfired || timer >= |c.timers| then c
    else
      var c1 := c.(unfired := c.unfired - {timer});
      match c.timers[timer].kind
      case AckTimer => OnAckTimeout(env, c1, c.timers[timer].pendingId)
      case VerifyTimer => OnVerificationTimer(env, c1, c.timers[timer].pendingId)
  }

  function Step(env: Env, c: Coord, e: Event): Coord {
    match e
    case FeederConnected => OnFeederConnected(env, c)
    case FeederDisconnected => OnFeederDisconnected(c)
    case HeartbeatSeen => OnHeartbeat(env, c)
    case StateHint => OnStateHint(env, c)
    case WriteRequested(request) => RequestWrite(env, c, request).0
    case SnapshotRequested => RequestPlanSnapshot(env, c)
    case AckReceived(receipt, success) => OnMqttAck(env, c, receipt, success).0
    case TimerFires(timer) => OnTimer(env, c, timer)
    case ReadCompletes(token, result) => AgentCallComplete(env, c, token, result)
    case Shutdown => OnShutdown(c)
  }

  /** Every run: any events in any order, against any outside. */
  function Run(env: Env, events: seq<Event>): Coord {
    if events == [] then INITIAL else Step(env, Run(env, events[..|events| - 1]), events[|events| - 1])
  }
}
