/** Automatic rewriting of feeder plan IDs to the canonical IDs 1 to 9. */
module PlanNormalization {
  import opened Wrappers
  import opened IdSeqs
  import opened FeedPlans

  datatype IdMapping = IdMapping(recordIndex: nat, sourceId: int, targetId: int)

  datatype Normalization = Normalization(baseline: seq<FeederPlan>, normalized: seq<FeederPlan>,
                                         mapping: seq<IdMapping>)

  /** `OutOfIds` is `next()` on an exhausted iterator, `SelfRejected` the generated rewrite failing
      the constructor of its own predicate; neither is caught by the caller. */
  datatype Outcome = Normalized(value: Normalization) | Refusal(mapping: seq<IdMapping>)
                   | OutOfIds | SelfRejected

  const SYNC_TIME_LIMIT: int := 0xFFFF_FFFF_FFFF_FFFF

  predicate Canonical(id: int) {
    1 <= id <= 9
  }

  // ---------------------------------------------------------------- lossless check

  predicate DaysNamed(p: FeederPlan) {
    && |p.days| == |p.daysRaw|
    && forall i | 0 <= i < |p.daysRaw| :: 0 <= p.daysRaw[i] <= 7 && p.days[i] == LowerDayName(p.daysRaw[i])
  }

  function LowerDayName(day: int): string
    requires 0 <= day <= 7
  {
    ["invalid", "monday", "tuesday", "wednesday", "thursday", "friday", "saturday", "sunday"][day]
  }

  predicate LosslessRecord(p: FeederPlan) {
    && p.opaqueHex == Some("00000000000000000000")
    && (p.oneShotRaw == 0 || p.oneShotRaw == 1)
    && p.oneShot == (p.oneShotRaw == 1)
    && p.oneShot == (p.daysRaw == [])
    && p.executionState == 0
    && 0 <= p.hourUtc <= 23 && 0 <= p.minute <= 59
    && p.timeUtc == FormatTime(p.hourUtc, p.minute)
    && Ascending(p.daysRaw)
    && DaysNamed(p)
  }

  /** `validate_lossless_plan_normalization`; a record's hour and minute are in range by parsing. */
  predicate Lossless(plans: seq<FeederPlan>) {
    TransportFieldsValid(plans) && forall i | 0 <= i < |plans| :: LosslessRecord(plans[i])
  }

  // ---------------------------------------------------------------- assigning IDs

  /** `sorted(set(range(low, 10)) - used)` */
  function FreeIds(plans: seq<FeederPlan>, low: int): (ids: seq<int>)
    requires low <= 10
    ensures forall k | 0 <= k < |ids| :: low <= ids[k] <= 9
    decreases 10 - low
  {
    if low == 10 then []
    else if Has(plans, low) then FreeIds(plans, low + 1)
    else [low] + FreeIds(plans, low + 1)
  }

  function CountForeign(plans: seq<FeederPlan>): (n: nat)
    ensures n <= |plans|
  {
    if plans == [] then 0
    else CountForeign(plans[..|plans| - 1]) + (if Canonical(plans[|plans| - 1].id) then 0 else 1)
  }

  /** The mapping for the first `n` records; each foreign ID takes the next free one. */
  function Assign(plans: seq<FeederPlan>, free: seq<int>, n: nat): (m: Option<seq<IdMapping>>)
    requires n <= |plans|
  {
    if n == 0 then Some([])
    else
      var front := Assign(plans, free, n - 1);
      if front == None || Canonical(plans[n - 1].id) then front
      else if |front.value| < |free| then
        Some(front.value + [IdMapping(n - 1, plans[n - 1].id, free[|front.value|])])
      else None
  }

  /** The mapping entry of record `index`, if it has one. */
  function Entry(mapping: seq<IdMapping>, index: nat): (e: Option<IdMapping>)
    ensures e.Some? ==> e.value in mapping && e.value.recordIndex == index
  {
    if mapping == [] then None
    else if mapping[|mapping| - 1].recordIndex == index then Some(mapping[|mapping| - 1])
    else Entry(mapping[..|mapping| - 1], index)
  }

  function Rewritten(plan: FeederPlan, entry: Option<IdMapping>, index: nat, nowMs: int): FeederPlan {
    match entry
    case None => plan
    case Some(e) => plan.(id := e.targetId, syncTime := Max(plan.syncTime + 1, nowMs + index))
  }

  function Rewrite(plans: seq<FeederPlan>, mapping: seq<IdMapping>, nowMs: int): (r: seq<FeederPlan>)
    ensures |r| == |plans|
    ensures forall i | 0 <= i < |r| :: r[i] == Rewritten(plans[i], Entry(mapping, i), i, nowMs)
  {
    seq(|plans|, i requires 0 <= i < |plans| => Rewritten(plans[i], Entry(mapping, i), i, nowMs))
  }

  // ---------------------------------------------------------------- predicate

  predicate RewriteOf(before: FeederPlan, after: FeederPlan, entry: Option<IdMapping>) {
    && before.PreservedContent() == after.PreservedContent()
    && match entry
       case Some(e) =>
         && before.id == e.sourceId && after.id == e.targetId && before.id != after.id
         && before.(id := after.id, syncTime := after.syncTime) == after
       case None => before == after
  }

  /** Whether the constructor of `PlanIdNormalizationPredicate` accepts the rewrite. */
  predicate RewriteAccepted(n: Normalization) {
    && n.mapping != [] && |n.baseline| == |n.normalized|
    && Distinct(seq(|n.mapping|, i requires 0 <= i < |n.mapping| => n.mapping[i].recordIndex as int))
    && (forall k | 0 <= k < |n.mapping| :: n.mapping[k].recordIndex < |n.baseline|)
    && DistinctIds(n.normalized)
    && (forall i | 0 <= i < |n.normalized| :: Canonical(n.normalized[i].id))
    && forall i | 0 <= i < |n.baseline| :: RewriteOf(n.baseline[i], n.normalized[i], Entry(n.mapping, i))
  }

  predicate PreservedIn(p: FeederPlan, found: Option<FeederPlan>) {
    found.Some? && found.value.PreservedContent() == p.PreservedContent()
  }

  /** `PlanIdNormalizationPredicate.matches` */
  predicate RewriteMatches(n: Normalization, count: int, actual: seq<FeederPlan>) {
    && count == |n.normalized| && |actual| == |n.normalized|
    && DistinctIds(actual)
    && IdsWithin(actual, n.normalized) && IdsWithin(n.normalized, actual)
    && forall i | 0 <= i < |n.normalized| :: PreservedIn(n.normalized[i], Lookup(actual, n.normalized[i].id))
  }

  // ---------------------------------------------------------------- the transform

  predicate SyncTimesAdvance(plans: seq<FeederPlan>, mapping: seq<IdMapping>) {
    forall i | 0 <= i < |plans| && Entry(mapping, i).Some? :: plans[i].syncTime < SYNC_TIME_LIMIT
  }

  function BuildNormalization(plans: seq<FeederPlan>, nowMs: int): Outcome {
    if |plans| > 9 || !DistinctIds(plans) then Refusal([])
    else
      match Assign(plans, FreeIds(plans, 1), |plans|)
      case None => OutOfIds
      case Some(mapping) =>
        if mapping == [] then Normalized(Normalization(plans, plans, []))
        else if !SyncTimesAdvance(plans, mapping) || !Lossless(plans) then Refusal(mapping)
        else
          var n := Normalization(plans, Rewrite(plans, mapping, nowMs), mapping);
          if RewriteAccepted(n) then Normalized(n) else SelfRejected
  }

  // ---------------------------------------------------------------- enough IDs

  ghost function CanonicalIds(plans: seq<FeederPlan>): set<int> {
    set i | 0 <= i < |plans| && Canonical(plans[i].id) :: plans[i].id
  }

  lemma {:induction false} CanonicalCount(plans: seq<FeederPlan>)
    requires DistinctIds(plans)
    ensures |CanonicalIds(plans)| + CountForeign(plans) == |plans|
  {
    if plans != [] {
      CanonicalCount(plans[..|plans| - 1]);
      CanonicalIdsStep(plans);
    }
  }

  lemma CanonicalIdsStep(plans: seq<FeederPlan>)
    requires DistinctIds(plans) && plans != []
    ensures var front, id := CanonicalIds(plans[..|plans| - 1]), plans[|plans| - 1].id;
      && id !in front
      && CanonicalIds(plans) == if Canonical(id) then front + {id} else front
  {
    var front := plans[..|plans| - 1];
    assert forall i | 0 <= i < |front| :: front[i] == plans[i];
    forall x ensures x in CanonicalIds(plans) <==>
                     x in CanonicalIds(front) || (x == plans[|plans| - 1].id && Canonical(x))
    {
      if x in CanonicalIds(front) {
        var i :| 0 <= i < |front| && front[i].id == x;
        assert plans[i].id == x;
      }
    }
  }

  /** The canonical IDs from `low` on that are in use. */
  function Taken(plans: seq<FeederPlan>, low: int): set<int> {
    set x | low <= x <= 9 && Has(plans, x)
  }

  lemma TakenStep(plans: seq<FeederPlan>, low: int)
    requires low <= 9
    ensures Taken(plans, low) == Taken(plans, low + 1) + if Has(plans, low) then {low} else {}
    ensures |Taken(plans, low)| == |Taken(plans, low + 1)| + if Has(plans, low) then 1 else 0
  {
    var rest := Taken(plans, low + 1);
    assert Taken(plans, low) == rest + if Has(plans, low) then {low} else {};
  }

  lemma {:induction false} FreeCount(plans: seq<FeederPlan>, low: int)
    requires 1 <= low <= 10
    ensures |FreeIds(plans, low)| == 10 - low - |Taken(plans, low)|
    decreases 10 - low
  {
    if low == 10 {
      assert Taken(plans, low) == {};
    } else {
      FreeCount(plans, low + 1);
      TakenStep(plans, low);
    }
  }

  /** Nine IDs are always enough: there are at least as many free IDs as foreign records. */
  lemma EnoughFreeIds(plans: seq<FeederPlan>)
    requires |plans| <= 9 && DistinctIds(plans)
    ensures CountForeign(plans) <= |FreeIds(plans, 1)|
  {
    CanonicalCount(plans);
    FreeCount(plans, 1);
    assert CanonicalIds(plans) == set x | 1 <= x <= 9 && Has(plans, x) by {
      forall x ensures x in CanonicalIds(plans) <==> 1 <= x <= 9 && Has(plans, x) {
        if 1 <= x <= 9 && Has(plans, x) {
          var i :| 0 <= i < |plans| && plans[i].id == x;
          assert plans[i].id in CanonicalIds(plans);
        }
      }
    }
  }

  // ---------------------------------------------------------------- the mapping

  lemma {:induction false} FreeIdsAreFree(plans: seq<FeederPlan>, low: int)
    requires 1 <= low <= 10
    ensures var ids := FreeIds(plans, low);
      && (forall k | 0 <= k < |ids| :: !Has(plans, ids[k]))
      && Distinct(ids)
    decreases 10 - low
  {
    if low < 10 {
      FreeIdsAreFree(plans, low + 1);
    }
  }

  /** What the mapping of the first `n` records says. */
  ghost predicate MappingOf(plans: seq<FeederPlan>, free: seq<int>, n: nat, m: seq<IdMapping>) {
    && |m| <= |free|
    && (forall k | 0 <= k < |m| ::
          && m[k].recordIndex < n <= |plans|
          && m[k].sourceId == plans[m[k].recordIndex].id
          && !Canonical(m[k].sourceId)
          && m[k].targetId == free[k])
    && (forall j, k | 0 <= j < k < |m| :: m[j].recordIndex < m[k].recordIndex)
  }

  lemma {:induction false} AssignSucceeds(plans: seq<FeederPlan>, free: seq<int>, n: nat)
    requires n <= |plans| && CountForeign(plans[..n]) <= |free|
    ensures Assign(plans, free, n).Some?
    ensures |Assign(plans, free, n).value| == CountForeign(plans[..n])
  {
    if n > 0 {
      assert plans[..n][..n - 1] == plans[..n - 1];
      AssignSucceeds(plans, free, n - 1);
    }
  }

  lemma {:induction false} AssignMaps(plans: seq<FeederPlan>, free: seq<int>, n: nat)
    requires n <= |plans| && CountForeign(plans[..n]) <= |free|
    ensures Assign(plans, free, n).Some?
    ensures |Assign(plans, free, n).value| == CountForeign(plans[..n])
    ensures MappingOf(plans, free, n, Assign(plans, free, n).value)
  {
    if n > 0 {
      assert plans[..n][..n - 1] == plans[..n - 1];
      AssignMaps(plans, free, n - 1);
    }
  }

  /** Exactly the foreign records among the first `n` have an entry. */
  lemma {:induction false} EntryIffForeign(plans: seq<FeederPlan>, free: seq<int>, n: nat, i: nat)
    requires n <= |plans| && CountForeign(plans[..n]) <= |free|
    requires i < |plans|
    ensures Assign(plans, free, n).Some?
    ensures Entry(Assign(plans, free, n).value, i).Some? <==> i < n && !Canonical(plans[i].id)
  {
    if n > 0 {
      assert plans[..n][..n - 1] == plans[..n - 1];
      AssignSucceeds(plans, free, n - 1);
      EntryIffForeign(plans, free, n - 1, i);
      var front := Assign(plans, free, n - 1).value;
      if !Canonical(plans[n - 1].id) {
        var entry := IdMapping(n - 1, plans[n - 1].id, free[|front|]);
        assert (front + [entry])[..|front|] == front;
      }
    }
  }

  /** The mapping computed for a whole collection, with everything known about it. */
  ghost predicate GoodMapping(plans: seq<FeederPlan>, m: seq<IdMapping>) {
    && MappingOf(plans, FreeIds(plans, 1), |plans|, m)
    && forall i | 0 <= i < |plans| :: Entry(m, i).Some? <==> !Canonical(plans[i].id)
  }

  lemma MappingIsGood(plans: seq<FeederPlan>)
    requires |plans| <= 9 && DistinctIds(plans)
    ensures Assign(plans, FreeIds(plans, 1), |plans|).Some?
    ensures GoodMapping(plans, Assign(plans, FreeIds(plans, 1), |plans|).value)
    ensures (Assign(plans, FreeIds(plans, 1), |plans|).value == []) <==>
            forall i | 0 <= i < |plans| :: Canonical(plans[i].id)
  {
    var free := FreeIds(plans, 1);
    assert plans[..|plans|] == plans;
    EnoughFreeIds(plans);
    AssignMaps(plans, free, |plans|);
    var m := Assign(plans, free, |plans|).value;
    forall i | 0 <= i < |plans| ensures Entry(m, i).Some? <==> !Canonical(plans[i].id) {
      EntryIffForeign(plans, free, |plans|, i);
    }
    if m != [] {
      assert !Canonical(plans[m[0].recordIndex].id);
    }
  }

  // ---------------------------------------------------------------- the rewrite

  /** The entry found for a record, as a position in the mapping. */
  lemma EntryPosition(plans: seq<FeederPlan>, m: seq<IdMapping>, i: nat) returns (k: nat)
    requires GoodMapping(plans, m) && i < |plans| && Entry(m, i).Some?
    ensures k < |m| && m[k] == Entry(m, i).value && m[k].recordIndex == i
    ensures Entry(m, i).value.sourceId == plans[i].id
    ensures k < |FreeIds(plans, 1)| && Entry(m, i).value.targetId == FreeIds(plans, 1)[k]
  {
    k :| 0 <= k < |m| && m[k] == Entry(m, i).value;
  }

  /** Every record gets a canonical ID: its own, or a free one. */
  lemma RewrittenIdCanonical(plans: seq<FeederPlan>, m: seq<IdMapping>, nowMs: int, i: nat)
    requires GoodMapping(plans, m) && i < |plans|
    ensures var r := Rewritten(plans[i], Entry(m, i), i, nowMs);
      && Canonical(r.id)
      && RewriteOf(plans[i], r, Entry(m, i))
  {
    if Entry(m, i).Some? {
      var k := EntryPosition(plans, m, i);
      FreeIdsAreFree(plans, 1);
      assert FreeIds(plans, 1)[k] != plans[i].id;
    }
  }

  lemma RewrittenIdsDiffer(plans: seq<FeederPlan>, m: seq<IdMapping>, nowMs: int, i: nat, j: nat)
    requires GoodMapping(plans, m) && DistinctIds(plans) && i < j < |plans|
    ensures Rewritten(plans[i], Entry(m, i), i, nowMs).id != Rewritten(plans[j], Entry(m, j), j, nowMs).id
  {
    FreeIdsAreFree(plans, 1);
    if Entry(m, i).Some? && Entry(m, j).Some? {
      var k := EntryPosition(plans, m, i);
      var l := EntryPosition(plans, m, j);
      assert k != l;
    } else if Entry(m, i).Some? {
      var k := EntryPosition(plans, m, i);
    } else if Entry(m, j).Some? {
      var l := EntryPosition(plans, m, j);
    }
  }

  lemma RewriteIsAccepted(plans: seq<FeederPlan>, m: seq<IdMapping>, nowMs: int)
    requires GoodMapping(plans, m) && DistinctIds(plans) && m != []
    ensures RewriteAccepted(Normalization(plans, Rewrite(plans, m, nowMs), m))
  {
    var r := Rewrite(plans, m, nowMs);
    forall i | 0 <= i < |plans| ensures Canonical(r[i].id) && RewriteOf(plans[i], r[i], Entry(m, i)) {
      RewrittenIdCanonical(plans, m, nowMs, i);
    }
    forall i, j | 0 <= i < j < |r| ensures r[i].id != r[j].id {
      RewrittenIdsDiffer(plans, m, nowMs, i, j);
    }
  }

  // ---------------------------------------------------------------- main results

  predicate AllCanonical(plans: seq<FeederPlan>) {
    forall i | 0 <= i < |plans| :: Canonical(plans[i].id)
  }

  predicate ForeignSyncTimesAdvance(plans: seq<FeederPlan>) {
    forall i | 0 <= i < |plans| && !Canonical(plans[i].id) :: plans[i].syncTime < SYNC_TIME_LIMIT
  }

  /** Whatever the collection, building a normalization never exhausts the IDs and never fails its
      own check; it refuses exactly what cannot be rewritten without loss. */
  lemma NormalizationNeverFails(plans: seq<FeederPlan>, nowMs: int)
    ensures var o := BuildNormalization(plans, nowMs);
      && (o.Normalized? || o.Refusal?)
      && (o.Normalized? <==>
           && |plans| <= 9 && DistinctIds(plans)
           && (AllCanonical(plans) || (Lossless(plans) && ForeignSyncTimesAdvance(plans))))
  {
    if |plans| <= 9 && DistinctIds(plans) {
      MappingIsGood(plans);
      var m := Assign(plans, FreeIds(plans, 1), |plans|).value;
      if m != [] {
        RewriteIsAccepted(plans, m, nowMs);
      }
    }
  }

  /** A record of the rewrite: canonical ones are untouched, the others change ID and sync time only,
      and the sync time strictly advances. */
  ghost predicate MovedOrKept(before: FeederPlan, after: FeederPlan) {
    if Canonical(before.id) then after == before
    else after.syncTime > before.syncTime && after == before.(id := after.id, syncTime := after.syncTime)
  }

  lemma NormalizationMovesForeignOnly(plans: seq<FeederPlan>, nowMs: int)
    requires BuildNormalization(plans, nowMs).Normalized?
    ensures var n := BuildNormalization(plans, nowMs).value;
      && n.baseline == plans && |n.normalized| == |plans|
      && DistinctIds(n.normalized)
      && (forall i | 0 <= i < |plans| :: Canonical(n.normalized[i].id))
      && (forall i | 0 <= i < |plans| :: MovedOrKept(plans[i], n.normalized[i]))
  {
    MappingIsGood(plans);
    var m := Assign(plans, FreeIds(plans, 1), |plans|).value;
    if m != [] {
      RewriteIsAccepted(plans, m, nowMs);
      var r := Rewrite(plans, m, nowMs);
      forall i | 0 <= i < |plans| ensures MovedOrKept(plans[i], r[i]) {
        assert Entry(m, i).Some? <==> !Canonical(plans[i].id);
      }
    }
  }

  /** `perm[i]` is where the baseline's record `i` is found again. */
  ghost predicate ContentBijection(baseline: seq<FeederPlan>, actual: seq<FeederPlan>, perm: seq<nat>) {
    && |perm| == |baseline| == |actual|
    && (forall i | 0 <= i < |perm| :: perm[i] < |actual|)
    && (forall i, j | 0 <= i < j < |perm| :: perm[i] != perm[j])
    && forall i | 0 <= i < |perm| ::
         actual[perm[i]].PreservedContent() == baseline[i].PreservedContent()
  }

  lemma {:induction false} LocateAll(wanted: seq<FeederPlan>, actual: seq<FeederPlan>) returns (perm: seq<nat>)
    requires IdsWithin(wanted, actual)
    ensures |perm| == |wanted|
    ensures forall i | 0 <= i < |perm| :: perm[i] < |actual| && actual[perm[i]].id == wanted[i].id
  {
    perm := [];
    if wanted != [] {
      var front, last := wanted[..|wanted| - 1], wanted[|wanted| - 1];
      var head := LocateAll(front, actual);
      assert Has(actual, last.id);
      var k: nat :| k < |actual| && actual[k].id == last.id;
      perm := head + [k];
    }
  }

  lemma NinePlansAtMost(plans: seq<FeederPlan>)
    requires DistinctIds(plans) && forall i | 0 <= i < |plans| :: Canonical(plans[i].id)
    ensures |plans| <= 9
  {
    IdSeqs.DistinctCount(Ids(plans));
    var s := set x | x in Ids(plans);
    assert s <= {1, 2, 3, 4, 5, 6, 7, 8, 9};
    IdSeqs.SubsetCount(s, {1, 2, 3, 4, 5, 6, 7, 8, 9});
  }

  /** Any truth that an accepted rewrite's predicate matches is a content-preserving bijection of the
      baseline, and normalizing that truth again changes nothing. */
  lemma MatchedTruthIsStable(n: Normalization, count: int, actual: seq<FeederPlan>, nowMs: int)
    requires RewriteAccepted(n) && RewriteMatches(n, count, actual)
    ensures exists perm :: ContentBijection(n.baseline, actual, perm)
    ensures BuildNormalization(actual, nowMs) == Normalized(Normalization(actual, actual, []))
  {
    NinePlansAtMost(n.normalized);
    var perm := LocateAll(n.normalized, actual);
    forall i | 0 <= i < |perm|
      ensures actual[perm[i]].PreservedContent() == n.baseline[i].PreservedContent()
    {
      LookupFinds(actual, perm[i]);
      assert PreservedIn(n.normalized[i], Lookup(actual, n.normalized[i].id));
      assert RewriteOf(n.baseline[i], n.normalized[i], Entry(n.mapping, i));
    }
    forall i, j | 0 <= i < j < |perm| ensures perm[i] != perm[j] {
      assert n.normalized[i].id != n.normalized[j].id;
    }
    assert ContentBijection(n.baseline, actual, perm);
    forall i | 0 <= i < |actual| ensures Canonical(actual[i].id) {
      assert Has(n.normalized, actual[i].id);
    }
    MappingIsGood(actual);
  }
}
