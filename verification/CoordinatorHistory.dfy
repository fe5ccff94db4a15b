/** What a journal of the coordinator says, and when each of its entries is justified by the entries
    before it. The safety claims about whole runs are these justifications. */
module CoordinatorHistory {
  import opened Wrappers
  import opened FeedPlans
  import opened PlanNormalization
  import opened CoordinatorModel

  /** The generation of the session that is open at the end of `h`. */
  ghost function Live(h: seq<Entry>): Option<nat> {
    if h == [] then None
    else match h[|h| - 1]
      case SessionBegan(g) => Some(g)
      case SessionEnded => None
      case _ => Live(h[..|h| - 1])
  }

  /** Where the current stretch without connection changes starts. */
  ghost function SessionStart(h: seq<Entry>): (n: nat)
    ensures n <= |h|
  {
    if h == [] then 0
    else if h[|h| - 1].SessionBegan? || h[|h| - 1].SessionEnded? then |h|
    else SessionStart(h[..|h| - 1])
  }

  /** The write that has started and is not resolved at the end of `h`. */
  ghost function Open(h: seq<Entry>): Option<nat> {
    if h == [] then None
    else match h[|h| - 1]
      case Started(id, _, _) => Some(id)
      case WriteFailed(_) => None
      case WriteUnverified(_) => None
      case WriteDiverged(_) => None
      case Verified(_, _, _, _, _) => None
      case SessionEnded => None
      case _ => Open(h[..|h| - 1])
  }

  ghost predicate IsVerifyRead(e: Entry, id: nat) {
    e.ReadSubmitted? && e.call.purpose == Verify && e.call.owner == Some(id)
  }

  /** How many verification reads have been submitted for a write. */
  ghost function VerifyReads(h: seq<Entry>, id: nat): nat {
    if h == [] then 0
    else VerifyReads(h[..|h| - 1], id) + (if IsVerifyRead(h[|h| - 1], id) then 1 else 0)
  }

  /** No write of this session was timed out while it was being verified. */
  ghost predicate Punctual(h: seq<Entry>) {
    h != [] ==>
      match h[|h| - 1]
      case SessionBegan(_) => true
      case SessionEnded => true
      case AckTimedOut(_, Verifying) => false
      case _ => Punctual(h[..|h| - 1])
  }

  /** A verification read that failed although it was not made for write `id`. */
  ghost predicate ForeignFailure(e: Entry, id: nat) {
    e.ReadFailed? && e.call.purpose == Verify && e.call.owner != Some(id)
  }

  /** No such failure after entry `from`. */
  ghost predicate NoForeignFailure(h: seq<Entry>, id: nat, from: nat) {
    |h| <= from + 1 || (NoForeignFailure(h[..|h| - 1], id, from) && !ForeignFailure(h[|h| - 1], id))
  }

  ghost predicate Unpublished(h: seq<Entry>, id: nat) {
    h != [] ==>
      && Unpublished(h[..|h| - 1], id)
      && (h[|h| - 1].Published? ==> h[|h| - 1].pendingId != id)
  }

  ghost predicate Undelivered(h: seq<Entry>, token: nat) {
    h != [] ==>
      && Undelivered(h[..|h| - 1], token)
      && (h[|h| - 1].ReadReturned? ==> h[|h| - 1].token != token)
  }

  /** The journal mentions only writes numbered below `writes` and calls below `calls`. */
  ghost predicate NumbersBelow(h: seq<Entry>, writes: nat, calls: nat) {
    h != [] ==>
      && NumbersBelow(h[..|h| - 1], writes, calls)
      && var e := h[|h| - 1];
         && (e.Published? ==> e.pendingId < writes)
         && (e.ReadSubmitted? && e.call.owner.Some? ==> e.call.owner.value < writes)
         && (e.ReadReturned? ==> e.token < calls)
  }

  lemma {:induction false} NumbersGrow(h: seq<Entry>, writes: nat, calls: nat, writes': nat, calls': nat)
    requires NumbersBelow(h, writes, calls) && writes <= writes' && calls <= calls'
    ensures NumbersBelow(h, writes', calls')
  {
    if h != [] { NumbersGrow(h[..|h| - 1], writes, calls, writes', calls'); }
  }

  /** The next numbers have not been used yet. */
  lemma {:induction false} NextNumbersUnused(h: seq<Entry>, writes: nat, calls: nat)
    requires NumbersBelow(h, writes, calls)
    ensures Unpublished(h, writes) && VerifyReads(h, writes) == 0 && Undelivered(h, calls)
  {
    if h != [] { NextNumbersUnused(h[..|h| - 1], writes, calls); }
  }

  ghost predicate IsRead(e: Entry, t: FeederTruth) {
    e.ReadReturned? && e.value.TruthValue? && e.value.truth == t
  }

  /** Entry `at` submits a read and entry `readAt` is its result. */
  ghost predicate ReadPair(h: seq<Entry>, at: nat, readAt: nat, purpose: Purpose) {
    && at < readAt < |h|
    && h[at].ReadSubmitted? && h[at].call.purpose == purpose
    && h[readAt].ReadReturned? && h[readAt].token == h[at].token
  }

  /** A read of this session has been mirrored to Home Assistant and is being used. */
  ghost predicate CommittedRead(h: seq<Entry>, readAt: nat, mirroredAt: nat) {
    && SessionStart(h) <= readAt < mirroredAt < |h|
    && h[mirroredAt].Mirrored? && h[mirroredAt].readAt == readAt
    && IsRead(h[readAt], h[mirroredAt].truth)
  }

  /** What a verified truth shows of the requested change, compared with the read it was based on. */
  ghost predicate TookEffect(change: PlanChange, goal: Option<TruthPredicate>, before: FeederTruth,
                             after: FeederTruth)
  {
    match change
    case PatchPlan(patch) => PatchTookEffect(before.plans, patch, after.plans)
    case DeletePlan(id) => DeleteTookEffect(before.plans, id, after.plans)
    case NormalizePlans(n) =>
      && (forall i | 0 <= i < |after.plans| :: Canonical(after.plans[i].id))
      && exists perm :: ContentBijection(before.plans, after.plans, perm)
    case NoPlanChange => goal.Some? && Matches(goal.value, after)
  }

  /** The write was published, in generation `g`, with exactly the collection its request asks for. */
  ghost predicate PublishedAs(h: seq<Entry>, p: Pending, g: nat) {
    && SessionStart(h) <= p.createdAt < p.publishedAt < |h|
    && SessionStart(h) <= p.readAt < p.publishedAt
    && p.receipt.Some? && p.baseline.Some? && IsRead(h[p.readAt], p.baseline.value)
    && h[p.publishedAt].Published?
    && h[p.publishedAt] == Published(p.id, g, p.readAt, p.baseline.value, h[p.publishedAt].outgoing,
                                     p.receipt.value)
    && Prepare(p.request.change, p.goal, p.baseline.value, p.preparedMs)
       == Accepted(Prepared(p.goal, h[p.publishedAt].outgoing))
    && (p.preflighted ==>
          p.createdAt < p.preflightAt && ReadPair(h, p.preflightAt, p.readAt, WritePreflight))
  }

  ghost predicate AcknowledgedAs(h: seq<Entry>, p: Pending) {
    && p.receipt.Some? && p.publishedAt < p.ackedAt < |h|
    && h[p.ackedAt] == Acknowledged(p.id, p.publishedAt, p.receipt.value, true)
  }

  /** The whole history of a verified write, in one session: started, published from a read of that
      session (submitted after the start, if the request asks for a fresh preflight), acknowledged with
      its own receipt, and observed to have taken effect by a read that returned after that. When that
      read was submitted is the last four conjuncts. */
  ghost predicate VerifiedHistory(h: seq<Entry>, p: Pending, token: nat, check: AgentCall, readAt: nat,
                                  observed: FeederTruth, g: nat)
  {
    && Live(h) == Some(g)
    && SessionStart(h) <= p.createdAt < |h| && h[p.createdAt] == Started(p.id, g, p.preflighted)
    && PublishedAs(h, p, g) && AcknowledgedAs(h, p)
    && p.ackedAt < readAt && SessionStart(h) <= check.at && ReadPair(h, check.at, readAt, Verify)
    && h[check.at] == ReadSubmitted(token, check) && check.generation == g
    && IsRead(h[readAt], observed)
    && TookEffect(p.request.change, p.goal, p.baseline.value, observed)
    && (p.preflighted ==> check.owner == Some(p.id) && p.publishedAt < check.at)
    && (p.ackedAt < check.at <==> check.owner == Some(p.id) && check.stage == Some(Verifying))
    && (check.owner == Some(p.id) && NoForeignFailure(h, p.id, p.createdAt) ==> p.ackedAt < check.at)
    && (Punctual(h) ==> p.ackedAt < check.at)
  }

  ghost predicate Justified(h: seq<Entry>, e: Entry) {
    match e
    case SessionBegan(_) => Live(h) == None
    case ReadSubmitted(_, call) =>
      && Live(h) == Some(call.generation) && call.at == |h|
      && (call.purpose == Verify ==>
            call.owner.Some? && VerifyReads(h, call.owner.value) < VERIFY_ATTEMPTS)
    case ReadReturned(token, _) =>
      && Undelivered(h, token)
      && exists at | SessionStart(h) <= at < |h| :: h[at].ReadSubmitted? && h[at].token == token
    case ReadFailed(_, call) =>
      Punctual(h) && call.purpose == Verify ==> call.owner.Some? && Open(h) == call.owner
    case Mirrored(truth, readAt, _) => readAt < |h| && IsRead(h[readAt], truth)
    case Started(_, g, _) => Open(h) == None && Live(h) == Some(g)
    case Published(id, g, readAt, baseline, _, _) =>
      && Live(h) == Some(g) && Open(h) == Some(id) && Unpublished(h, id)
      && (exists m :: CommittedRead(h, readAt, m)) && IsRead(h[readAt], baseline)
    case Acknowledged(id, publishedAt, receipt, _) =>
      && Open(h) == Some(id) && publishedAt < |h|
      && h[publishedAt].Published? && h[publishedAt].pendingId == id && h[publishedAt].receipt == receipt
    case Verified(p, token, check, readAt, observed) =>
      Open(h) == Some(p.id) && exists g :: VerifiedHistory(h, p, token, check, readAt, observed, g)
    case SnapshotAnswered(_, plans, readAt) =>
      plans.Some? ==>
        && readAt < |h| && h[readAt].ReadReturned? && h[readAt].value.TruthValue?
        && h[readAt].value.truth.plans == plans.value
    case _ => true
  }

  ghost predicate JustifiedAt(h: seq<Entry>, n: nat)
    requires n < |h|
  {
    Justified(h[..n], h[n])
  }

  ghost predicate GoodJournal(h: seq<Entry>) {
    forall n: nat {:trigger JustifiedAt(h, n)} | n < |h| :: JustifiedAt(h, n)
  }

  lemma GoodAppend(h: seq<Entry>, e: Entry)
    requires GoodJournal(h) && Justified(h, e)
    ensures GoodJournal(h + [e])
  {
    forall n: nat | n < |h + [e]| ensures JustifiedAt(h + [e], n) {
      if n < |h| {
        assert JustifiedAt(h, n);
        assert (h + [e])[..n] == h[..n] && (h + [e])[n] == h[n];
      } else {
        assert (h + [e])[..n] == h;
      }
    }
  }

  // ---------------------------------------------------------------- a matched predicate means the change happened

  /** If the predicate prepared for a write matches an observed truth, the change took effect. */
  lemma MatchMeansEffect(change: PlanChange, goal: Option<TruthPredicate>, before: CoreRead, nowMs: int,
                         outgoing: FeederTruth, after: CoreRead)
    requires change.PatchPlan? ==> ValidPatch(change.patch)
    requires Prepare(change, goal, before, nowMs) == Accepted(Prepared(goal, outgoing))
    requires goal.Some? && Matches(goal.value, after)
    ensures TookEffect(change, goal, before, after)
  {
    match change
    case NoPlanChange =>
    case PatchPlan(patch) => PatchVerifiedIffEffective(before.plans, patch, nowMs, after.plans);
    case DeletePlan(id) => DeleteVerifiedIffEffective(before.plans, id, after.plans);
    case NormalizePlans(n) => NormalizationEffect(n, before, after);
  }

  lemma NormalizationEffect(n: Normalization, before: CoreRead, after: CoreRead)
    requires before.plans == n.baseline && RewriteAccepted(n)
    requires RewriteMatches(n, after.planCount, after.plans)
    ensures TookEffect(NormalizePlans(n), None, before, after)
  {
    MatchedTruthIsStable(n, after.planCount, after.plans, 0);
    forall i | 0 <= i < |after.plans| ensures Canonical(after.plans[i].id) {
      assert Has(n.normalized, after.plans[i].id);
    }
  }
}
