/** What the invariant says about whole runs: any events in any order, against any outside. */
module CoordinatorTheorems {
  import opened Wrappers
  import opened FeedPlans
  import opened PlanNormalization
  import opened CoordinatorModel
  import opened CoordinatorHistory
  import opened CoordinatorSafety
  import opened CoordinatorPreflight
  import opened CoordinatorRuns

  // ---------------------------------------------------------------- reading a good journal

  ghost predicate NoSessionChange(h: seq<Entry>, from: nat, to: nat) {
    forall i | from <= i < to && i < |h| :: !h[i].SessionBegan? && !h[i].SessionEnded?
  }

  lemma {:induction false} SessionUnbroken(h: seq<Entry>, from: nat)
    requires SessionStart(h) <= from
    ensures NoSessionChange(h, from, |h|)
  {
    if from < |h| {
      SessionUnbroken(h[..|h| - 1], from);
    }
  }

  lemma {:induction false} UnpublishedMeans(h: seq<Entry>, id: nat, i: nat)
    requires Unpublished(h, id) && i < |h| && h[i].Published?
    ensures h[i].pendingId != id
  {
    if i < |h| - 1 { UnpublishedMeans(h[..|h| - 1], id, i); }
  }

  lemma {:induction false} UndeliveredMeans(h: seq<Entry>, token: nat, i: nat)
    requires Undelivered(h, token) && i < |h| && h[i].ReadReturned?
    ensures h[i].token != token
  {
    if i < |h| - 1 { UndeliveredMeans(h[..|h| - 1], token, i); }
  }

  lemma {:induction false} NoForeignFailureMeans(h: seq<Entry>, id: nat, from: nat)
    ensures NoForeignFailure(h, id, from) <==> forall i | from < i < |h| :: !ForeignFailure(h[i], id)
  {
    if |h| > from + 1 {
      NoForeignFailureMeans(h[..|h| - 1], id, from);
      assert forall i | from < i < |h| - 1 :: h[i] == h[..|h| - 1][i];
    }
  }

  /** An acknowledgement timeout that hit a write after its acknowledgement. */
  ghost predicate LateTimeout(e: Entry) {
    e.AckTimedOut? && e.stage == Verifying
  }

  lemma {:induction false} PunctualMeans(h: seq<Entry>)
    ensures Punctual(h) <==> forall t | SessionStart(h) <= t < |h| :: !LateTimeout(h[t])
  {
    if h != [] && !h[|h| - 1].SessionBegan? && !h[|h| - 1].SessionEnded? {
      PunctualMeans(h[..|h| - 1]);
      assert forall i | 0 <= i < |h| - 1 :: h[i] == h[..|h| - 1][i];
    }
  }

  lemma PrefixEntries(j: seq<Entry>, v: nat)
    requires v <= |j|
    ensures forall i | 0 <= i < v :: j[..v][i] == j[i]
  {
  }

  /** A journal before entry `i` that is not punctual holds a late timeout of the same session. */
  lemma LateTimeoutBefore(j: seq<Entry>, i: nat)
    requires i <= |j| && !Punctual(j[..i])
    ensures exists t | 0 <= t < i :: LateTimeout(j[t]) && NoSessionChange(j, t, i)
  {
    PunctualMeans(j[..i]);
    var t :| SessionStart(j[..i]) <= t < i && LateTimeout(j[..i][t]);
    SessionUnbroken(j[..i], t);
    PrefixEntries(j, i);
    assert LateTimeout(j[t]) && NoSessionChange(j, t, i);
  }

  // ---------------------------------------------------------------- stories

  /** A verified write that was started with a fresh preflight: in one unbroken session the write started,
      a core read was submitted and returned, the collection built from that read was published, a
      success acknowledgement with the same receipt arrived, and a core read that was submitted for this
      write after the publication and returned after the acknowledgement shows the change and nothing
      else. */
  ghost predicate PlanWriteStory(j: seq<Entry>, v: nat, p: Pending, check: AgentCall, observedAt: nat,
                                 observed: FeederTruth, g: nat)
  {
    && p.createdAt < p.preflightAt < p.readAt < p.publishedAt < p.ackedAt < observedAt < v < |j|
    && p.publishedAt < check.at < observedAt && check.owner == Some(p.id)
    && NoSessionChange(j, p.createdAt, v)
    && j[p.createdAt] == Started(p.id, g, true)
    && ReadPair(j, p.preflightAt, p.readAt, WritePreflight)
    && p.receipt.Some? && p.baseline.Some? && IsRead(j[p.readAt], p.baseline.value)
    && j[p.publishedAt].Published?
    && j[p.publishedAt] == Published(p.id, g, p.readAt, p.baseline.value, j[p.publishedAt].outgoing,
                                     p.receipt.value)
    && j[p.ackedAt] == Acknowledged(p.id, p.publishedAt, p.receipt.value, true)
    && ReadPair(j, check.at, observedAt, Verify) && IsRead(j[observedAt], observed)
    && match p.request.change
       case PatchPlan(patch) =>
         && PatchedCollection(p.baseline.value.plans, patch, p.preparedMs)
            == Accepted(j[p.publishedAt].outgoing.plans)
         && PatchTookEffect(p.baseline.value.plans, patch, observed.plans)
       case DeletePlan(id) =>
         && DeletedCollection(p.baseline.value.plans, id) == Accepted(j[p.publishedAt].outgoing.plans)
         && DeleteTookEffect(p.baseline.value.plans, id, observed.plans)
       case _ => true
  }

  /** A verified automatic rewrite: built from a read of this session, published, acknowledged, and the
      collection observed after the acknowledgement has canonical identifiers and the plans of that
      read, one for one. */
  ghost predicate RewriteStory(j: seq<Entry>, v: nat, p: Pending, n: Normalization, observedAt: nat,
                               observed: FeederTruth)
  {
    && p.readAt < p.publishedAt < p.ackedAt < observedAt < v < |j|
    && p.createdAt < p.publishedAt && NoSessionChange(j, p.createdAt, v) && NoSessionChange(j, p.readAt, v)
    && p.receipt.Some? && p.baseline.Some? && IsRead(j[p.readAt], p.baseline.value)
    && p.baseline.value.plans == n.baseline
    && j[p.publishedAt].Published? && j[p.publishedAt].pendingId == p.id
    && j[p.publishedAt].outgoing.plans == n.normalized
    && j[p.ackedAt] == Acknowledged(p.id, p.publishedAt, p.receipt.value, true)
    && IsRead(j[observedAt], observed)
    && (forall i | 0 <= i < |observed.plans| :: Canonical(observed.plans[i].id))
    && exists perm :: ContentBijection(n.baseline, observed.plans, perm)
  }

  lemma PreparedCollection(p: Pending, outgoing: FeederTruth)
    requires p.baseline.Some?
    requires Prepare(p.request.change, p.goal, p.baseline.value, p.preparedMs)
             == Accepted(Prepared(p.goal, outgoing))
    ensures p.request.change.PatchPlan? ==>
      PatchedCollection(p.baseline.value.plans, p.request.change.patch, p.preparedMs)
      == Accepted(outgoing.plans)
    ensures p.request.change.DeletePlan? ==>
      DeletedCollection(p.baseline.value.plans, p.request.change.planId) == Accepted(outgoing.plans)
    ensures p.request.change.NormalizePlans? ==>
      && p.baseline.value.plans == p.request.change.rewrite.baseline
      && outgoing.plans == p.request.change.rewrite.normalized
  {
  }

  /** The history that justifies the verification entered at `v`. */
  lemma HistoryOf(j: seq<Entry>, v: nat) returns (g: nat)
    requires GoodJournal(j) && v < |j| && j[v].Verified?
    ensures VerifiedHistory(j[..v], j[v].write, j[v].token, j[v].check, j[v].readAt, j[v].observed, g)
    ensures NoSessionChange(j[..v], j[v].write.createdAt, v)
    ensures forall i | 0 <= i < v :: j[..v][i] == j[i]
  {
    assert JustifiedAt(j, v);
    g :| VerifiedHistory(j[..v], j[v].write, j[v].token, j[v].check, j[v].readAt, j[v].observed, g);
    SessionUnbroken(j[..v], j[v].write.createdAt);
    PrefixEntries(j, v);
  }

  lemma PlanWriteTold(j: seq<Entry>, v: nat)
    requires GoodJournal(j) && v < |j| && j[v].Verified? && j[v].write.preflighted
    ensures exists g :: PlanWriteStory(j, v, j[v].write, j[v].check, j[v].readAt, j[v].observed, g)
  {
    var g := HistoryOf(j, v);
    PreparedCollection(j[v].write, j[j[v].write.publishedAt].outgoing);
    assert PlanWriteStory(j, v, j[v].write, j[v].check, j[v].readAt, j[v].observed, g);
  }

  lemma RewriteTold(j: seq<Entry>, v: nat)
    requires GoodJournal(j) && v < |j| && j[v].Verified? && j[v].write.request.change.NormalizePlans?
    ensures RewriteStory(j, v, j[v].write, j[v].write.request.change.rewrite, j[v].readAt, j[v].observed)
  {
    var g := HistoryOf(j, v);
    PreparedCollection(j[v].write, j[j[v].write.publishedAt].outgoing);
    SessionUnbroken(j[..v], j[v].write.readAt);
  }

  // ---------------------------------------------------------------- a journal one can rely on

  /** Every verified write with a preflight has its story. */
  ghost predicate VerifiedWritesHappened(j: seq<Entry>) {
    forall v | 0 <= v < |j| && j[v].Verified? && j[v].write.preflighted ::
      exists g :: PlanWriteStory(j, v, j[v].write, j[v].check, j[v].readAt, j[v].observed, g)
  }

  /** What is mirrored to Home Assistant or answered to a plan request was returned by a core read. */
  ghost predicate MirrorsReads(j: seq<Entry>) {
    && (forall i | 0 <= i < |j| && j[i].Mirrored? :: exists r | 0 <= r < i :: IsRead(j[r], j[i].truth))
    && (forall i | 0 <= i < |j| && j[i].SnapshotAnswered? && j[i].plans.Some? ::
          exists r, t | 0 <= r < i :: IsRead(j[r], t) && t.plans == j[i].plans.value)
  }

  /** A command goes out only in a live session, after a read of that session was committed, for the
      one write that is open, and no earlier command went out for that write. */
  ghost predicate DisciplinedAt(j: seq<Entry>, i: nat)
    requires i < |j| && j[i].Published?
  {
    && Live(j[..i]) == Some(j[i].generation) && Open(j[..i]) == Some(j[i].pendingId)
    && (exists m :: CommittedRead(j[..i], j[i].readAt, m))
    && forall k | 0 <= k < i && j[k].Published? :: j[k].pendingId != j[i].pendingId
  }

  ghost predicate PublishesWithDiscipline(j: seq<Entry>) {
    forall i | 0 <= i < |j| && j[i].Published? :: DisciplinedAt(j, i)
  }

  lemma MirrorsTold(j: seq<Entry>)
    requires GoodJournal(j)
    ensures MirrorsReads(j)
  {
    forall i | 0 <= i < |j| && j[i].Mirrored? ensures exists r | 0 <= r < i :: IsRead(j[r], j[i].truth) {
      assert JustifiedAt(j, i);
      assert IsRead(j[j[i].readAt], j[i].truth);
    }
    forall i | 0 <= i < |j| && j[i].SnapshotAnswered? && j[i].plans.Some?
      ensures exists r, t | 0 <= r < i :: IsRead(j[r], t) && t.plans == j[i].plans.value
    {
      assert JustifiedAt(j, i);
      assert IsRead(j[j[i].readAt], j[j[i].readAt].value.truth);
    }
  }

  lemma PublicationTold(j: seq<Entry>, i: nat)
    requires GoodJournal(j) && i < |j| && j[i].Published?
    ensures DisciplinedAt(j, i)
  {
    assert JustifiedAt(j, i);
    forall k | 0 <= k < i && j[k].Published? ensures j[k].pendingId != j[i].pendingId {
      UnpublishedMeans(j[..i], j[i].pendingId, k);
    }
  }

  lemma {:induction false} VerifyReadsBounded(h: seq<Entry>, id: nat)
    requires GoodJournal(h)
    ensures VerifyReads(h, id) <= VERIFY_ATTEMPTS
  {
    if h != [] {
      var front := h[..|h| - 1];
      assert JustifiedAt(h, |h| - 1);
      forall n: nat | n < |front| ensures JustifiedAt(front, n) {
        assert JustifiedAt(h, n);
        assert front[..n] == h[..n];
      }
      VerifyReadsBounded(front, id);
    }
  }

  /** All of this holds of every good journal. */
  lemma JournalReliable(j: seq<Entry>)
    requires GoodJournal(j)
    ensures VerifiedWritesHappened(j) && MirrorsReads(j) && PublishesWithDiscipline(j)
  {
    forall v | 0 <= v < |j| && j[v].Verified? && j[v].write.preflighted
      ensures exists g :: PlanWriteStory(j, v, j[v].write, j[v].check, j[v].readAt, j[v].observed, g)
    {
      PlanWriteTold(j, v);
    }
    MirrorsTold(j);
    forall i | 0 <= i < |j| && j[i].Published? ensures DisciplinedAt(j, i) { PublicationTold(j, i); }
  }

  // ---------------------------------------------------------------- main results

  lemma VerifiedPlanWrite(env: Env, events: seq<Event>, v: nat)
    requires v < |Run(env, events).journal| && Run(env, events).journal[v].Verified?
    requires Run(env, events).journal[v].write.preflighted
    ensures var j := Run(env, events).journal;
      exists g :: PlanWriteStory(j, v, j[v].write, j[v].check, j[v].readAt, j[v].observed, g)
  {
    RunKept(env, events);
    PlanWriteTold(Run(env, events).journal, v);
  }

  lemma VerifiedRewrite(env: Env, events: seq<Event>, v: nat)
    requires v < |Run(env, events).journal| && Run(env, events).journal[v].Verified?
    requires Run(env, events).journal[v].write.request.change.NormalizePlans?
    ensures var j := Run(env, events).journal;
      RewriteStory(j, v, j[v].write, j[v].write.request.change.rewrite, j[v].readAt, j[v].observed)
  {
    RunKept(env, events);
    RewriteTold(Run(env, events).journal, v);
  }

  /** Exactly when the verifying read was submitted only after the acknowledgement: it was submitted for
      this write while the write was already waiting for verification. */
  lemma CheckedAfterAck(env: Env, events: seq<Event>, v: nat)
    requires v < |Run(env, events).journal| && Run(env, events).journal[v].Verified?
    ensures var e := Run(env, events).journal[v];
      e.write.ackedAt < e.check.at <==> e.check.owner == Some(e.write.id) && e.check.stage == Some(Verifying)
  {
    RunKept(env, events);
    var g := HistoryOf(Run(env, events).journal, v);
  }

  /** A write with a preflight was checked only after its acknowledgement, unless a verification read of
      another write failed while it was pending. */
  lemma UndisturbedCheckFollowsAck(env: Env, events: seq<Event>, v: nat)
    requires v < |Run(env, events).journal| && Run(env, events).journal[v].Verified?
    requires Run(env, events).journal[v].write.preflighted
    requires var j := Run(env, events).journal;
      forall i | j[v].write.createdAt < i < v :: !ForeignFailure(j[i], j[v].write.id)
    ensures Run(env, events).journal[v].write.ackedAt < Run(env, events).journal[v].check.at
  {
    var j := Run(env, events).journal;
    RunKept(env, events);
    var g := HistoryOf(j, v);
    NoForeignFailureMeans(j[..v], j[v].write.id, j[v].write.createdAt);
  }

  /** Such a failure happens only in a session in which an acknowledgement timeout hit a write that had
      been acknowledged already. */
  lemma ForeignFailureFollowsLateTimeout(env: Env, events: seq<Event>, i: nat)
    requires i < |Run(env, events).journal| && Run(env, events).journal[i].ReadFailed?
    requires var j := Run(env, events).journal;
      j[i].call.purpose == Verify && j[i].call.owner != Open(j[..i])
    ensures var j := Run(env, events).journal;
      exists t | 0 <= t < i :: LateTimeout(j[t]) && NoSessionChange(j, t, i)
  {
    var j := Run(env, events).journal;
    RunKept(env, events);
    assert JustifiedAt(j, i);
    LateTimeoutBefore(j, i);
  }

  /** So does a verification, of any write, by a read submitted before the acknowledgement. */
  lemma EarlyCheckFollowsLateTimeout(env: Env, events: seq<Event>, v: nat)
    requires v < |Run(env, events).journal| && Run(env, events).journal[v].Verified?
    requires Run(env, events).journal[v].check.at <= Run(env, events).journal[v].write.ackedAt
    ensures var j := Run(env, events).journal;
      exists t | 0 <= t < v :: LateTimeout(j[t]) && NoSessionChange(j, t, v)
  {
    var j := Run(env, events).journal;
    RunKept(env, events);
    var g := HistoryOf(j, v);
    LateTimeoutBefore(j, v);
  }

  /** Everything mirrored to Home Assistant, held as latest truth or answered to a plan request was
      returned by a core read; a collection built for publishing never is one of these by itself. */
  lemma TruthProvenance(env: Env, events: seq<Event>)
    ensures var c := Run(env, events);
      && MirrorsReads(c.journal)
      && (c.latest.Some? ==> exists r | 0 <= r < |c.journal| :: IsRead(c.journal[r], c.latest.value))
  {
    RunKept(env, events);
    MirrorsTold(Run(env, events).journal);
  }

  lemma PublicationDiscipline(env: Env, events: seq<Event>, i: nat)
    requires i < |Run(env, events).journal| && Run(env, events).journal[i].Published?
    ensures DisciplinedAt(Run(env, events).journal, i)
  {
    RunKept(env, events);
    PublicationTold(Run(env, events).journal, i);
  }

  /** A write starts only in a live session and only when no other write is open. */
  lemma OneWriteAtATime(env: Env, events: seq<Event>, i: nat)
    requires i < |Run(env, events).journal| && Run(env, events).journal[i].Started?
    ensures var j := Run(env, events).journal;
      Open(j[..i]) == None && Live(j[..i]) == Some(j[i].generation)
  {
    RunKept(env, events);
    assert JustifiedAt(Run(env, events).journal, i);
  }

  /** A read's result is used at most once, and only in the session that submitted it. */
  lemma ReadsDeliveredOnce(env: Env, events: seq<Event>, i: nat)
    requires i < |Run(env, events).journal| && Run(env, events).journal[i].ReadReturned?
    ensures var j := Run(env, events).journal;
      && (forall k | 0 <= k < i && j[k].ReadReturned? :: j[k].token != j[i].token)
      && exists at | 0 <= at < i :: j[at].ReadSubmitted? && j[at].token == j[i].token
                                    && NoSessionChange(j, at, i)
  {
    var j := Run(env, events).journal;
    RunKept(env, events);
    assert JustifiedAt(j, i);
    forall k | 0 <= k < i && j[k].ReadReturned? ensures j[k].token != j[i].token {
      UndeliveredMeans(j[..i], j[i].token, k);
    }
    var at :| SessionStart(j[..i]) <= at < i && j[..i][at].ReadSubmitted? && j[..i][at].token == j[i].token;
    SessionUnbroken(j[..i], at);
    PrefixEntries(j, i);
  }

  /** No write causes more than four verification reads. */
  lemma AtMostFourVerifications(env: Env, events: seq<Event>, id: nat)
    ensures VerifyReads(Run(env, events).journal, id) <= 4
  {
    RunKept(env, events);
    VerifyReadsBounded(Run(env, events).journal, id);
  }

  /** A write that waits for its preflight is never stranded: a read of this session is in flight. */
  lemma NeverStranded(env: Env, events: seq<Event>)
    ensures var c := Run(env, events);
      c.pending.Some? && c.pending.value.stage == Preparing ==>
        c.token.Some? && c.token.value + 1 == |c.calls| && c.calls[c.token.value].generation == c.generation
  {
    RunKept(env, events);
  }

  /** While MQTT is disconnected the coordinator is idle; and its queue is always bounded. */
  lemma IdleWhenDisconnected(env: Env, events: seq<Event>)
    ensures var c := Run(env, events);
      && (!c.connected ==> && c.state == Disconnected && c.pending.None? && c.queue == []
                           && c.token.None? && !c.healthy)
      && |c.queue| <= 8
      && forall i, k | 0 <= i < k < |c.queue| :: c.queue[i].control != c.queue[k].control
  {
    RunKept(env, events);
  }

  /** In every reachable state, a completion of any read but the one in flight (which is the last one
      submitted, and of this generation) and an acknowledgement that does not match change nothing; nor
      does a timer for a write that is no longer pending, except for forgetting a timer handle. */
  lemma LateEventsIgnored(env: Env, events: seq<Event>, token: nat, result: AgentResult, receipt: Receipt,
                          success: bool, timer: nat)
    ensures var c := Run(env, events);
      && (c.token.Some? ==>
            c.token.value + 1 == |c.calls| && c.calls[c.token.value].generation == c.generation)
      && (c.token != Some(token) ==> Step(env, c, ReadCompletes(token, result)) == c)
      && (!AckMatches(c, receipt) ==> Step(env, c, AckReceived(receipt, success)) == c)
      && (timer in c.unfired && !OwnTimer(c, timer) ==>
            var d := Step(env, c, TimerFires(timer));
            d == c.(unfired := c.unfired - {timer}, ackTimer := d.ackTimer, verifyTimer := d.verifyTimer))
  {
    RunKept(env, events);
    LateTimerIgnored(env, Run(env, events), timer);
  }

  lemma LateTimerIgnored(env: Env, c: Coord, timer: nat)
    requires Inv(c)
    ensures timer in c.unfired && !OwnTimer(c, timer) ==>
      var d := Step(env, c, TimerFires(timer));
      d == c.(unfired := c.unfired - {timer}, ackTimer := d.ackTimer, verifyTimer := d.verifyTimer)
  {
  }
}
