/** The dispensing status shown in Home Assistant: a runtime projection fed by grain events and by snapshots that
    are asked for, over every interleaving of connections, requests, answers, timeouts and events. */
module DispensingModel {
  import opened Wrappers

  datatype Progress = Idle | Running | Blocked | Error | Recovering

  /** A snapshot request: its message id, and the connection and grain-event counts when it was made. */
  datatype Request = Request(id: nat, connection: nat, events: nat)

  datatype Outcome = Motor(state: int) | Failure

  // ---------------------------------------------------------------- the projector

  datatype Projector = Projector(current: Option<Progress>, available: bool, connection: Option<nat>, events: nat)

  function MotorProgress(motor: int): Option<Progress> {
    if motor == 1 then Some(Running)
    else if motor == 2 then Some(Idle)
    else if motor == 3 then Some(Recovering)
    else None
  }

  function Shown(p: Projector, progress: Progress): Projector {
    p.(current := Some(progress), available := true)
  }

  function SnapshotStarted(p: Projector, r: Request): Projector {
    if p.connection == Some(r.connection) then p.(available := false) else p
  }

  /** What an accepted snapshot shows. */
  function SnapshotShows(p: Projector, r: Request, o: Outcome): Option<Progress> {
    if p.connection == Some(r.connection) && r.events == p.events && o.Motor? then MotorProgress(o.state) else None
  }

  function SnapshotApplied(p: Projector, r: Request, o: Outcome): Projector {
    if p.connection != Some(r.connection) || r.events != p.events then p
    else
      match SnapshotShows(p, r, o)
      case None => p.(available := false)
      case Some(progress) => Shown(p, progress)
  }

  predicate GrainAccepted(p: Projector, progress: Progress, connection: nat) {
    p.connection == Some(connection) && (progress == Running || progress == Blocked || progress == Idle)
  }

  function GrainApplied(p: Projector, progress: Progress, connection: nat): Projector {
    if GrainAccepted(p, progress, connection) then Shown(p.(events := p.events + 1), progress) else p
  }

  // ---------------------------------------------------------------- the backend around it

  datatype Fact =
    | WentOnline
    | WentOffline
    | Asked
    | Answered(request: nat, shown: Option<Progress>)
    | Grain(progress: Progress)

  datatype System = System(projector: Projector, online: bool, generation: nat, pending: Option<Request>,
                           lastCount: int, journal: seq<Fact>)

  const INITIAL := System(Projector(None, false, None, 0), false, 0, None, 0, [])

  function GoOffline(s: System): System {
    s.(online := false, pending := None,
       projector := s.projector.(connection := None, available := false), journal := s.journal + [WentOffline])
  }

  /** A result reaches the projector. */
  function Deliver(s: System, r: Request, o: Outcome): System {
    s.(pending := None, projector := SnapshotApplied(s.projector, r, o),
       journal := s.journal + [Answered(r.id, SnapshotShows(s.projector, r, o))])
  }

  /** A fresh request replaces the pending one; sending it may fail. */
  function RequestSnapshot(s: System, sendOk: bool): System {
    if !s.online then s
    else
      var r := Request(|s.journal|, s.generation, s.projector.events);
      var asked := s.(pending := Some(r), projector := SnapshotStarted(s.projector, r), journal := s.journal + [Asked]);
      if sendOk then asked else Deliver(asked, r, Failure)
  }

  function GoOnline(s: System, sendOk: bool): System {
    RequestSnapshot(
      s.(online := true, generation := s.generation + 1,
         projector := s.projector.(connection := Some(s.generation + 1), available := false),
         journal := s.journal + [WentOnline]),
      sendOk)
  }

  function Heartbeat(s: System, count: int, sendOk: bool): System {
    var s1 := if count < s.lastCount && s.online then GoOffline(s) else s;
    var s2 := s1.(lastCount := count);
    if s2.online then s2 else GoOnline(s2, sendOk)
  }

  function Answer(s: System, id: nat, o: Outcome): System {
    if s.pending.None? || s.pending.value.id != id then s
    else if s.pending.value.connection != s.generation then s.(pending := None)
    else Deliver(s, s.pending.value, o)
  }

  function TimedOut(s: System, id: nat, connection: nat): System {
    if s.pending.None? || s.pending.value.id != id || s.pending.value.connection != connection then s
    else Deliver(s, s.pending.value, Failure)
  }

  function GrainEvent(s: System, progress: Progress): System {
    if GrainAccepted(s.projector, progress, s.generation) then
      s.(projector := GrainApplied(s.projector, progress, s.generation), journal := s.journal + [Grain(progress)])
    else s
  }

  function Birth(s: System, sendOk: bool): System {
    RequestSnapshot(s.(projector := s.projector.(available := false)), sendOk)
  }

  datatype Event =
    | HeartbeatReceived(count: int, sendOk: bool)
    | ConnectionLost(always: bool)
    | SnapshotAnswer(id: nat, outcome: Outcome)
    | SnapshotTimeout(id: nat, connection: nat)
    | GrainReported(progress: Progress)
    | HomeAssistantBirth(sendOk: bool)

  function Step(s: System, e: Event): System {
    match e
    case HeartbeatReceived(count, sendOk) => Heartbeat(s, count, sendOk)
    case ConnectionLost(always) => if s.online || always then GoOffline(s) else s
    case SnapshotAnswer(id, o) => Answer(s, id, o)
    case SnapshotTimeout(id, connection) => TimedOut(s, id, connection)
    case GrainReported(progress) => GrainEvent(s, progress)
    case HomeAssistantBirth(sendOk) => Birth(s, sendOk)
  }

  function Run(events: seq<Event>): System {
    if events == [] then INITIAL else Step(Run(events[..|events| - 1]), events[|events| - 1])
  }

  // ---------------------------------------------------------------- reading the journal

  predicate Turns(f: Fact) { f.WentOnline? || f.WentOffline? }

  function Grains(j: seq<Fact>): nat {
    if j == [] then 0 else Grains(j[..|j| - 1]) + if j[|j| - 1].Grain? then 1 else 0
  }

  /** What the current connection showed last. */
  function LastShown(j: seq<Fact>): Option<Progress> {
    if j == [] then None
    else
      match j[|j| - 1]
      case WentOnline => None
      case WentOffline => None
      case Grain(p) => Some(p)
      case Answered(_, Some(p)) => Some(p)
      case _ => LastShown(j[..|j| - 1])
  }

  /** The connection was not turned on or off since fact `k`. */
  predicate SameConnection(j: seq<Fact>, k: nat) {
    k < |j| && forall m | k <= m < |j| :: !Turns(j[m])
  }

  predicate NoGrainSince(j: seq<Fact>, k: nat) {
    forall m | k <= m < |j| :: !j[m].Grain?
  }

  predicate Unanswered(j: seq<Fact>, k: nat) {
    forall m | 0 <= m < |j| :: j[m].Answered? ==> j[m].request != k
  }

  /** A fact that may follow `j`: an answer is for an earlier request not answered yet, and one that is shown was
      asked for in the same connection after the last grain event. */
  predicate Follows(j: seq<Fact>, f: Fact) {
    f.Answered? ==>
      && f.request < |j| && j[f.request].Asked? && Unanswered(j, f.request)
      && (f.shown.Some? ==> SameConnection(j, f.request) && NoGrainSince(j, f.request))
  }

  predicate Orderly(j: seq<Fact>) {
    j == [] || (Orderly(j[..|j| - 1]) && Follows(j[..|j| - 1], j[|j| - 1]))
  }

  predicate PendingInv(s: System) {
    s.pending.Some? ==>
      var r := s.pending.value;
      && s.online && r.connection == s.generation
      && r.id < |s.journal| && s.journal[r.id].Asked? && SameConnection(s.journal, r.id) && Unanswered(s.journal, r.id)
      && r.events == Grains(s.journal[..r.id])
  }

  predicate Inv(s: System) {
    && s.projector.connection == (if s.online then Some(s.generation) else None)
    && s.projector.events == Grains(s.journal)
    && Orderly(s.journal) && PendingInv(s)
    && (s.projector.available ==> s.online && s.projector.current.Some? && LastShown(s.journal) == s.projector.current)
  }

  // ---------------------------------------------------------------- every step keeps the invariant

  lemma {:induction false} GrainsGrow(j: seq<Fact>, k: nat)
    requires k <= |j|
    ensures Grains(j[..k]) <= Grains(j)
    ensures Grains(j[..k]) == Grains(j) ==> NoGrainSince(j, k)
    decreases |j|
  {
    if k == |j| {
      assert j[..k] == j;
    } else {
      var init := j[..|j| - 1];
      GrainsGrow(init, k);
      assert init[..k] == j[..k];
      if Grains(j[..k]) == Grains(j) {
        forall m | k <= m < |j| ensures !j[m].Grain? {
          if m < |j| - 1 { assert j[m] == init[m]; }
        }
      }
    }
  }

  lemma OrderlySnoc(j: seq<Fact>, f: Fact)
    requires Orderly(j) && Follows(j, f)
    ensures Orderly(j + [f])
  {
    assert (j + [f])[..|j|] == j;
  }

  lemma Snoc(j: seq<Fact>, f: Fact)
    ensures Grains(j + [f]) == Grains(j) + if f.Grain? then 1 else 0
    ensures LastShown(j + [f]) ==
      match f
      case WentOnline => None
      case WentOffline => None
      case Grain(p) => Some(p)
      case Answered(_, Some(p)) => Some(p)
      case _ => LastShown(j)
  {
    assert (j + [f])[..|j|] == j;
  }

  lemma GoOfflineKept(s: System)
    requires Inv(s)
    ensures Inv(GoOffline(s))
  {
    Snoc(s.journal, WentOffline);
    OrderlySnoc(s.journal, WentOffline);
  }

  /** A pending request stays pending over a fact that is neither a turn nor its answer. */
  lemma PendingSnoc(s: System, f: Fact)
    requires PendingInv(s) && !Turns(f) && (f.Answered? && s.pending.Some? ==> f.request != s.pending.value.id)
    ensures PendingInv(s.(journal := s.journal + [f]))
  {
    if s.pending.Some? {
      var k := s.pending.value.id;
      assert (s.journal + [f])[..k] == s.journal[..k];
    }
  }

  lemma DeliverFollows(s: System, r: Request, o: Outcome)
    requires Inv(s) && s.pending == Some(r)
    ensures Follows(s.journal, Answered(r.id, SnapshotShows(s.projector, r, o)))
  {
    GrainsGrow(s.journal, r.id);
  }

  lemma DeliverKept(s: System, r: Request, o: Outcome)
    requires Inv(s) && s.pending == Some(r)
    ensures Inv(Deliver(s, r, o))
  {
    var f := Answered(r.id, SnapshotShows(s.projector, r, o));
    DeliverFollows(s, r, o);
    OrderlySnoc(s.journal, f);
    Snoc(s.journal, f);
  }

  lemma RequestSnapshotKept(s: System, sendOk: bool)
    requires Inv(s)
    ensures Inv(RequestSnapshot(s, sendOk))
  {
    if s.online {
      var r := Request(|s.journal|, s.generation, s.projector.events);
      var j := s.journal + [Asked];
      var asked := s.(pending := Some(r), projector := SnapshotStarted(s.projector, r), journal := j);
      OrderlySnoc(s.journal, Asked);
      Snoc(s.journal, Asked);
      assert j[..r.id] == s.journal;
      UnaskedIsUnanswered(s.journal, |s.journal|);
      assert Inv(asked);
      if !sendOk {
        DeliverKept(asked, r, Failure);
      }
    }
  }

  /** Answers are for earlier requests only. */
  lemma {:induction false} UnaskedIsUnanswered(j: seq<Fact>, k: nat)
    requires Orderly(j) && |j| <= k
    ensures Unanswered(j, k)
  {
    if j != [] {
      UnaskedIsUnanswered(j[..|j| - 1], k);
      forall m | 0 <= m < |j| ensures j[m].Answered? ==> j[m].request != k {
        if m < |j| - 1 { assert j[m] == j[..|j| - 1][m]; }
      }
    }
  }

  lemma GoOnlineKept(s: System, sendOk: bool)
    requires Inv(s) && !s.online
    ensures Inv(GoOnline(s, sendOk))
  {
    Snoc(s.journal, WentOnline);
    OrderlySnoc(s.journal, WentOnline);
    RequestSnapshotKept(
      s.(online := true, generation := s.generation + 1,
         projector := s.projector.(connection := Some(s.generation + 1), available := false),
         journal := s.journal + [WentOnline]),
      sendOk);
  }

  lemma HeartbeatKept(s: System, count: int, sendOk: bool)
    requires Inv(s)
    ensures Inv(Heartbeat(s, count, sendOk))
  {
    GoOfflineKept(s);
    var s1 := if count < s.lastCount && s.online then GoOffline(s) else s;
    var s2 := s1.(lastCount := count);
    assert Inv(s2);
    if !s2.online {
      GoOnlineKept(s2, sendOk);
    }
  }

  lemma GrainEventKept(s: System, progress: Progress)
    requires Inv(s)
    ensures Inv(GrainEvent(s, progress))
  {
    if GrainAccepted(s.projector, progress, s.generation) {
      Snoc(s.journal, Grain(progress));
      OrderlySnoc(s.journal, Grain(progress));
      PendingSnoc(s, Grain(progress));
    }
  }

  lemma StepKept(s: System, e: Event)
    requires Inv(s)
    ensures Inv(Step(s, e))
  {
    match e
    case HeartbeatReceived(count, sendOk) => HeartbeatKept(s, count, sendOk);
    case ConnectionLost(_) => GoOfflineKept(s);
    case SnapshotAnswer(id, o) =>
      if s.pending.Some? { DeliverKept(s, s.pending.value, o); }
    case SnapshotTimeout(_, _) =>
      if s.pending.Some? { DeliverKept(s, s.pending.value, Failure); }
    case GrainReported(progress) => GrainEventKept(s, progress);
    case HomeAssistantBirth(sendOk) => RequestSnapshotKept(s.(projector := s.projector.(available := false)), sendOk);
  }

  lemma {:induction false} RunKept(events: seq<Event>)
    ensures Inv(Run(events))
  {
    if events != [] {
      RunKept(events[..|events| - 1]);
      StepKept(Run(events[..|events| - 1]), events[|events| - 1]);
    }
  }

  // ---------------------------------------------------------------- what every run promises

  /** Fact `n` put `p` on display: a grain event, or the answer to a request made after the last grain event and in
      the same connection. */
  predicate Displays(j: seq<Fact>, n: nat, p: Progress) {
    && n < |j|
    && match j[n]
       case Grain(q) => q == p
       case Answered(k, shown) =>
         shown == Some(p) && k < n && j[k].Asked? &&
         (forall m | k <= m < n :: !Turns(j[m]) && !j[m].Grain?)
       case _ => false
  }

  /** Fact `f` may come after the fact on display: it neither turns the connection nor shows anything. */
  predicate Silent(f: Fact) {
    f.Asked? || (f.Answered? && f.shown.None?)
  }

  lemma {:induction false} LastShownDisplays(j: seq<Fact>) returns (n: nat)
    requires Orderly(j) && LastShown(j).Some?
    ensures Displays(j, n, LastShown(j).value)
    ensures forall m | n < m < |j| :: Silent(j[m])
  {
    var init := j[..|j| - 1];
    var f := j[|j| - 1];
    if f.Grain? || (f.Answered? && f.shown.Some?) {
      n := |j| - 1;
      if f.Answered? {
        assert forall m | 0 <= m < |init| :: init[m] == j[m];
      }
    } else {
      n := LastShownDisplays(init);
      assert forall m | 0 <= m < |init| :: init[m] == j[m];
    }
  }

  /** The status is available only while the feeder is connected, and then it shows the latest grain event of this
      connection, or a snapshot that was asked for after it in this connection. */
  ghost predicate Fresh(s: System) {
    s.projector.available ==>
      && s.online && s.projector.connection == Some(s.generation) && s.projector.current.Some?
      && exists n: nat :: Displays(s.journal, n, s.projector.current.value) &&
                     forall m | n < m < |s.journal| :: Silent(s.journal[m])
  }

  lemma FreshInv(s: System)
    requires Inv(s)
    ensures Fresh(s)
  {
    if s.projector.available {
      var n := LastShownDisplays(s.journal);
    }
  }

  /** After any events. */
  lemma StatusIsFresh(events: seq<Event>)
    ensures Fresh(Run(events))
  {
    RunKept(events);
    FreshInv(Run(events));
  }

  lemma {:induction false} OrderlyAt(j: seq<Fact>, m: nat)
    requires Orderly(j) && m < |j|
    ensures Follows(j[..m], j[m])
  {
    if m < |j| - 1 {
      OrderlyAt(j[..|j| - 1], m);
      assert j[..|j| - 1][..m] == j[..m];
    }
  }

  /** No request gets two results, and every result is for a request made earlier. */
  ghost predicate ResultsUnique(j: seq<Fact>) {
    && (forall a | 0 <= a < |j| && j[a].Answered? :: j[a].request < a && j[j[a].request].Asked?)
    && (forall a, b | 0 <= a < b < |j| && j[a].Answered? && j[b].Answered? :: j[a].request != j[b].request)
  }

  lemma OrderlyMeansUnique(j: seq<Fact>)
    requires Orderly(j)
    ensures ResultsUnique(j)
  {
    forall a | 0 <= a < |j| && j[a].Answered? ensures j[a].request < a && j[j[a].request].Asked? {
      OrderlyAt(j, a);
    }
    forall a, b | 0 <= a < b < |j| && j[a].Answered? && j[b].Answered? ensures j[a].request != j[b].request {
      OrderlyAt(j, b);
      assert j[..b][a] == j[a];
    }
  }

  lemma OneResultPerRequest(events: seq<Event>)
    ensures ResultsUnique(Run(events).journal)
  {
    RunKept(events);
    OrderlyMeansUnique(Run(events).journal);
  }
}
