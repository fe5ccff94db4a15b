/** Feeding-plan records, the collection builders, and the predicate that decides from a
    fresh read whether a plan write really happened. */
module FeedPlans {
  import opened Wrappers
  import opened IdSeqs

  /** `days` is a multiset because the fingerprint sorts the weekdays before comparing them. */
  datatype Semantic = Semantic(id: int, hourUtc: int, minute: int, oneShot: bool, days: multiset<int>,
                               portions: int, enableAudioRaw: int, audioTimes: int, skipEndTime: int)

  datatype Stable = Stable(semantic: Semantic, opaqueHex: Option<string>)

  datatype Content = Content(hourUtc: int, minute: int, oneShot: bool, oneShotRaw: int, timeUtc: string,
                             daysRaw: seq<int>, days: seq<string>, portions: int, enableAudioRaw: int,
                             audioTimes: int, skipEndTime: int, opaqueHex: Option<string>)

  datatype FeederPlan = FeederPlan(
    id: int, minute: int, hourUtc: int, oneShot: bool, oneShotRaw: int, timeUtc: string,
    timeLocalCandidate: string, daysRaw: seq<int>, days: seq<string>, portions: int,
    enableAudioRaw: int, audioTimes: int, executionState: int, syncTime: int, skipEndTime: int,
    opaqueHex: Option<string>)
  {
    function SemanticFingerprint(): Semantic {
      Semantic(id, hourUtc, minute, oneShot, multiset(daysRaw), portions, enableAudioRaw, audioTimes,
               skipEndTime)
    }

    function StableFingerprint(): Stable {
      Stable(SemanticFingerprint(), opaqueHex)
    }

    /** The preservation fingerprint without the ID. */
    function PreservedContent(): Content {
      Content(hourUtc, minute, oneShot, oneShotRaw, timeUtc, daysRaw, days, portions, enableAudioRaw,
              audioTimes, skipEndTime, opaqueHex)
    }
  }

  datatype PlanPatch = PlanPatch(planId: int, hourUtc: int, minute: int, daysRaw: seq<int>, portions: int)

  datatype PlanOperation = Update | Create | Delete

  predicate Ascending(days: seq<int>) {
    forall i, j | 0 <= i < j < |days| :: days[i] <= days[j]
  }

  /** What `PlanPatch.__post_init__` lets through; it has sorted the weekdays by then. */
  predicate ValidPatch(p: PlanPatch) {
    && 1 <= p.planId <= 255
    && 0 <= p.hourUtc <= 23 && 0 <= p.minute <= 59
    && Ascending(p.daysRaw) && Distinct(p.daysRaw)
    && (forall i | 0 <= i < |p.daysRaw| :: 1 <= p.daysRaw[i] <= 7)
    && 0 <= p.portions <= 255
  }

  function Ids(plans: seq<FeederPlan>): (ids: seq<int>)
    ensures |ids| == |plans| && forall i | 0 <= i < |plans| :: ids[i] == plans[i].id
  {
    seq(|plans|, i requires 0 <= i < |plans| => plans[i].id)
  }

  predicate DistinctIds(plans: seq<FeederPlan>) {
    forall i, j | 0 <= i < j < |plans| :: plans[i].id != plans[j].id
  }

  predicate Has(plans: seq<FeederPlan>, id: int) {
    exists i | 0 <= i < |plans| :: plans[i].id == id
  }

  /** `{plan.id: plan for plan in plans}.get(id)`: a later record hides an earlier one. */
  function Lookup(plans: seq<FeederPlan>, id: int): (r: Option<FeederPlan>)
    ensures r.Some? ==> r.value.id == id
  {
    if plans == [] then None
    else if plans[|plans| - 1].id == id then Some(plans[|plans| - 1])
    else Lookup(plans[..|plans| - 1], id)
  }

  /** In a collection with distinct IDs the dictionary finds each record. */
  lemma {:induction false} LookupFinds(plans: seq<FeederPlan>, i: int)
    requires DistinctIds(plans) && 0 <= i < |plans|
    ensures Lookup(plans, plans[i].id) == Some(plans[i])
  {
    if i < |plans| - 1 {
      LookupFinds(plans[..|plans| - 1], i);
    }
  }

  lemma {:induction false} LookupMisses(plans: seq<FeederPlan>, id: int)
    requires !Has(plans, id)
    ensures Lookup(plans, id) == None
  {
    if plans != [] {
      var front := plans[..|plans| - 1];
      assert forall i | 0 <= i < |front| :: front[i] == plans[i];
      LookupMisses(front, id);
    }
  }

  predicate AudioFieldValid(p: FeederPlan) {
    p.enableAudioRaw == 0 || p.enableAudioRaw == 1
  }

  predicate TransportFieldsValid(plans: seq<FeederPlan>) {
    forall i | 0 <= i < |plans| :: AudioFieldValid(plans[i])
  }

  // ---------------------------------------------------------------- builders

  function Digit(n: int): char
    requires 0 <= n < 10
  {
    "0123456789"[n]
  }

  /** `f"{hour:02d}:{minute:02d}"`, on values below one hundred. */
  function FormatTime(hour: int, minute: int): string
    requires 0 <= hour < 100 && 0 <= minute < 100
  {
    [Digit(hour / 10), Digit(hour % 10), ':', Digit(minute / 10), Digit(minute % 10)]
  }

  /** `Weekday(day).name`, which exists for 0 to 7 only. */
  function DayName(day: int): string
    requires 0 <= day <= 7
  {
    ["INVALID", "MONDAY", "TUESDAY", "WEDNESDAY", "THURSDAY", "FRIDAY", "SATURDAY", "SUNDAY"][day]
  }

  /** `create_plan_from_patch`; the patch's weekdays are sorted already. */
  function NewPlan(patch: PlanPatch, nowMs: int): FeederPlan
    requires ValidPatch(patch)
  {
    var time := FormatTime(patch.hourUtc, patch.minute);
    FeederPlan(
      patch.planId, patch.minute, patch.hourUtc, patch.daysRaw == [],
      if patch.daysRaw == [] then 1 else 0, time, time, patch.daysRaw,
      seq(|patch.daysRaw|, i requires 0 <= i < |patch.daysRaw| => DayName(patch.daysRaw[i])),
      patch.portions, 0, 0, 0, nowMs, 0, None)
  }

  function Max(a: int, b: int): int {
    if a >= b then a else b
  }

  function PatchedPlan(plan: FeederPlan, patch: PlanPatch, nowMs: int): FeederPlan
    requires ValidPatch(patch)
  {
    plan.(hourUtc := patch.hourUtc, minute := patch.minute, oneShot := patch.daysRaw == [],
          oneShotRaw := if patch.daysRaw == [] then 1 else 0,
          timeUtc := FormatTime(patch.hourUtc, patch.minute),
          daysRaw := patch.daysRaw, portions := patch.portions,
          syncTime := Max(plan.syncTime + 1, nowMs))
  }

  function PatchedIfTarget(plan: FeederPlan, patch: PlanPatch, nowMs: int): (r: FeederPlan)
    requires ValidPatch(patch)
    ensures r.id == plan.id && r.enableAudioRaw == plan.enableAudioRaw
  {
    if plan.id == patch.planId then PatchedPlan(plan, patch, nowMs) else plan
  }

  function ReplaceTarget(plans: seq<FeederPlan>, patch: PlanPatch, nowMs: int): (r: seq<FeederPlan>)
    requires ValidPatch(patch)
    ensures |r| == |plans|
    ensures forall i | 0 <= i < |r| :: r[i] == PatchedIfTarget(plans[i], patch, nowMs)
  {
    seq(|plans|, i requires 0 <= i < |plans| => PatchedIfTarget(plans[i], patch, nowMs))
  }

  /** Where a stable sort by ID puts a new last record into an ordered collection. */
  function InsertPosition(plans: seq<FeederPlan>, id: int): (k: nat)
    ensures k <= |plans|
  {
    if plans == [] then 0
    else if plans[|plans| - 1].id <= id then |plans|
    else InsertPosition(plans[..|plans| - 1], id)
  }

  function InsertById(plans: seq<FeederPlan>, x: FeederPlan): seq<FeederPlan> {
    var k := InsertPosition(plans, x.id);
    plans[..k] + [x] + plans[k..]
  }

  /** `sorted(plans, key=lambda plan: plan.id)` */
  function SortPlans(plans: seq<FeederPlan>): seq<FeederPlan> {
    if plans == [] then []
    else InsertById(SortPlans(plans[..|plans| - 1]), plans[|plans| - 1])
  }

  function PatchedCollection(baseline: seq<FeederPlan>, patch: PlanPatch, nowMs: int)
    : Result<seq<FeederPlan>>
    requires ValidPatch(patch)
  {
    if !TransportFieldsValid(baseline) then Refused
    else if !Has(baseline, patch.planId) then Accepted(SortPlans(baseline + [NewPlan(patch, nowMs)]))
    else Accepted(ReplaceTarget(baseline, patch, nowMs))
  }

  /** `build_patched_plan_collection`: the update branch appends record by record. */
  method BuildPatchedPlanCollection(baseline: seq<FeederPlan>, patch: PlanPatch, nowMs: int)
    returns (r: Result<seq<FeederPlan>>)
    requires ValidPatch(patch)
    ensures r == PatchedCollection(baseline, patch, nowMs)
  {
    if !TransportFieldsValid(baseline) {
      return Refused;
    }
    if !Has(baseline, patch.planId) {
      return Accepted(SortPlans(baseline + [NewPlan(patch, nowMs)]));
    }
    var expected: seq<FeederPlan> := [];
    for i := 0 to |baseline|
      invariant |expected| == i
      invariant forall k | 0 <= k < i :: expected[k] == PatchedIfTarget(baseline[k], patch, nowMs)
    {
      if baseline[i].id != patch.planId {
        expected := expected + [baseline[i]];
      } else {
        expected := expected + [PatchedPlan(baseline[i], patch, nowMs)];
      }
    }
    r := Accepted(expected);
    assert expected == ReplaceTarget(baseline, patch, nowMs);
  }

  function Without(plans: seq<FeederPlan>, planId: int): seq<FeederPlan> {
    if plans == [] then []
    else
      var front, last := plans[..|plans| - 1], plans[|plans| - 1];
      if last.id != planId then Without(front, planId) + [last] else Without(front, planId)
  }

  function DeletedCollection(baseline: seq<FeederPlan>, planId: int): Result<seq<FeederPlan>> {
    if !(1 <= planId <= 9) then Refused
    else if !Has(baseline, planId) then Refused
    else if !TransportFieldsValid(Without(baseline, planId)) then Refused
    else Accepted(Without(baseline, planId))
  }

  // ---------------------------------------------------------------- predicate

  predicate IdsWithin(a: seq<FeederPlan>, b: seq<FeederPlan>) {
    forall i | 0 <= i < |a| :: Has(b, a[i].id)
  }

  predicate FeederOwnedFieldsEqual(p: FeederPlan, q: FeederPlan) {
    && p.enableAudioRaw == q.enableAudioRaw && p.audioTimes == q.audioTimes
    && p.skipEndTime == q.skipEndTime && p.opaqueHex == q.opaqueHex
  }

  predicate BaselineRecordKept(p: FeederPlan, expected: seq<FeederPlan>, target: int,
                               operation: PlanOperation)
  {
    (operation == Delete && p.id == target) ||
    var e := Lookup(expected, p.id);
    && e.Some?
    && (p.id != target ==> p.StableFingerprint() == e.value.StableFingerprint())
    && (p.id == target && operation == Update ==> FeederOwnedFieldsEqual(p, e.value))
  }

  /** Whether the constructor of `PlanCollectionPredicate` accepts its arguments. */
  predicate PredicateAccepts(baseline: seq<FeederPlan>, expected: seq<FeederPlan>, target: int,
                             operation: PlanOperation)
  {
    && DistinctIds(baseline) && DistinctIds(expected)
    && (match operation
        case Update =>
          && IdsWithin(baseline, expected) && IdsWithin(expected, baseline) && Has(baseline, target)
        case Create =>
          && !Has(baseline, target) && Has(expected, target) && IdsWithin(baseline, expected)
        case Delete =>
          && Has(baseline, target) && !Has(expected, target) && IdsWithin(expected, baseline)
          && forall i | 0 <= i < |baseline| :: baseline[i].id == target || Has(expected, baseline[i].id))
    && forall i | 0 <= i < |baseline| :: BaselineRecordKept(baseline[i], expected, target, operation)
  }

  predicate RecordMatches(wanted: FeederPlan, found: Option<FeederPlan>, target: int,
                          operation: PlanOperation)
  {
    && found.Some?
    && if operation == Create && wanted.id == target && wanted.opaqueHex == None
       then found.value.SemanticFingerprint() == wanted.SemanticFingerprint()
       else found.value.StableFingerprint() == wanted.StableFingerprint()
  }

  /** `PlanCollectionPredicate.matches`, for an `expected` collection the constructor accepted. */
  predicate PredicateMatches(expected: seq<FeederPlan>, target: int, operation: PlanOperation,
                             count: int, actual: seq<FeederPlan>)
  {
    && count == |expected| && |actual| == |expected|
    && IdsWithin(expected, actual) && IdsWithin(actual, expected)
    && forall i | 0 <= i < |expected| ::
         RecordMatches(expected[i], Lookup(actual, expected[i].id), target, operation)
  }

  // ---------------------------------------------------------------- meaning

  function PatchOperation(baseline: seq<FeederPlan>, patch: PlanPatch): PlanOperation {
    if Has(baseline, patch.planId) then Update else Create
  }

  /** Every plan of `baseline` but `target` is still there, its stable fingerprint unchanged, and
      no other plan has appeared. */
  ghost predicate OthersUntouched(baseline: seq<FeederPlan>, target: int, actual: seq<FeederPlan>) {
    && (forall i | 0 <= i < |baseline| && baseline[i].id != target ::
          StillThere(baseline[i], actual))
    && (forall j | 0 <= j < |actual| && actual[j].id != target :: Has(baseline, actual[j].id))
  }

  ghost predicate StillThere(p: FeederPlan, actual: seq<FeederPlan>) {
    exists j | 0 <= j < |actual| :: actual[j].StableFingerprint() == p.StableFingerprint()
  }

  /** `q` shows the patched schedule and keeps what the feeder owns of the old record, if any. */
  ghost predicate ShowsPatch(baseline: seq<FeederPlan>, patch: PlanPatch, q: FeederPlan) {
    && q.id == patch.planId
    && q.hourUtc == patch.hourUtc && q.minute == patch.minute && q.portions == patch.portions
    && multiset(q.daysRaw) == multiset(patch.daysRaw) && q.oneShot == (patch.daysRaw == [])
    && (forall i | 0 <= i < |baseline| && baseline[i].id == patch.planId ::
          FeederOwnedFieldsEqual(baseline[i], q))
    && (!Has(baseline, patch.planId) ==>
          q.enableAudioRaw == 0 && q.audioTimes == 0 && q.skipEndTime == 0)
  }

  ghost predicate PatchTookEffect(baseline: seq<FeederPlan>, patch: PlanPatch, actual: seq<FeederPlan>) {
    && OthersUntouched(baseline, patch.planId, actual)
    && exists j | 0 <= j < |actual| :: ShowsPatch(baseline, patch, actual[j])
  }

  ghost predicate DeleteTookEffect(baseline: seq<FeederPlan>, planId: int, actual: seq<FeederPlan>) {
    OthersUntouched(baseline, planId, actual) && !Has(actual, planId)
  }

  // ---------------------------------------------------------------- sorting

  ghost predicate OrderedById(plans: seq<FeederPlan>) {
    forall i, j | 0 <= i < j < |plans| :: plans[i].id <= plans[j].id
  }

  lemma {:induction false} InsertPositionSplits(plans: seq<FeederPlan>, id: int)
    requires OrderedById(plans)
    ensures var k := InsertPosition(plans, id);
      && (forall i | 0 <= i < k :: plans[i].id <= id)
      && (forall i | k <= i < |plans| :: id < plans[i].id)
  {
    if plans != [] && plans[|plans| - 1].id > id {
      InsertPositionSplits(plans[..|plans| - 1], id);
    }
  }

  /** Sorting reorders the collection by ID and neither loses nor adds a record. */
  lemma {:induction false} SortPlansSorts(plans: seq<FeederPlan>)
    ensures OrderedById(SortPlans(plans))
    ensures multiset(SortPlans(plans)) == multiset(plans)
  {
    if plans != [] {
      var front, last := plans[..|plans| - 1], plans[|plans| - 1];
      SortPlansSorts(front);
      InsertKeepsOrder(SortPlans(front), last);
      InsertAddsOne(SortPlans(front), last);
      assert plans == front + [last];
    }
  }

  lemma InsertKeepsOrder(plans: seq<FeederPlan>, x: FeederPlan)
    requires OrderedById(plans)
    ensures OrderedById(InsertById(plans, x))
  {
    InsertPositionSplits(plans, x.id);
  }

  lemma InsertAddsOne(plans: seq<FeederPlan>, x: FeederPlan)
    ensures multiset(InsertById(plans, x)) == multiset(plans) + multiset{x}
  {
    var k := InsertPosition(plans, x.id);
    assert plans == plans[..k] + plans[k..];
  }

  lemma SortPlansMembers(plans: seq<FeederPlan>)
    ensures |SortPlans(plans)| == |plans|
    ensures forall p :: p in SortPlans(plans) <==> p in plans
  {
    SortPlansSorts(plans);
    assert |multiset(SortPlans(plans))| == |SortPlans(plans)|;
    forall p ensures p in SortPlans(plans) <==> p in plans {
      assert p in SortPlans(plans) <==> p in multiset(SortPlans(plans));
    }
  }

  lemma InsertKeepsDistinct(plans: seq<FeederPlan>, x: FeederPlan)
    requires DistinctIds(plans) && !Has(plans, x.id)
    ensures DistinctIds(InsertById(plans, x))
  {
  }

  lemma {:induction false} SortKeepsDistinct(plans: seq<FeederPlan>)
    requires DistinctIds(plans)
    ensures DistinctIds(SortPlans(plans))
  {
    if plans != [] {
      var front, last := plans[..|plans| - 1], plans[|plans| - 1];
      SortKeepsDistinct(front);
      SortPlansMembers(front);
      var s := SortPlans(front);
      forall i | 0 <= i < |s| ensures s[i].id != last.id {
        assert s[i] in front;
      }
      InsertKeepsDistinct(s, last);
    }
  }

  // ---------------------------------------------------------------- the patched collection

  /** What a patched collection looks like, record by record. */
  ghost predicate PatchedShape(baseline: seq<FeederPlan>, patch: PlanPatch, nowMs: int,
                               expected: seq<FeederPlan>)
    requires ValidPatch(patch)
  {
    && DistinctIds(expected)
    && (forall i | 0 <= i < |baseline| && baseline[i].id != patch.planId :: baseline[i] in expected)
    && (forall j | 0 <= j < |expected| && expected[j].id != patch.planId :: expected[j] in baseline)
    && Has(expected, patch.planId)
    && forall j | 0 <= j < |expected| && expected[j].id == patch.planId ::
         TargetShape(baseline, patch, nowMs, expected[j])
  }

  ghost predicate TargetShape(baseline: seq<FeederPlan>, patch: PlanPatch, nowMs: int, e: FeederPlan)
    requires ValidPatch(patch)
  {
    if Has(baseline, patch.planId)
    then exists i | 0 <= i < |baseline| && baseline[i].id == patch.planId ::
           e == PatchedPlan(baseline[i], patch, nowMs)
    else e == NewPlan(patch, nowMs)
  }

  lemma UpdatedShape(baseline: seq<FeederPlan>, patch: PlanPatch, nowMs: int)
    requires ValidPatch(patch) && DistinctIds(baseline) && Has(baseline, patch.planId)
    ensures PatchedShape(baseline, patch, nowMs, ReplaceTarget(baseline, patch, nowMs))
  {
    var expected := ReplaceTarget(baseline, patch, nowMs);
    forall i | 0 <= i < |baseline| && baseline[i].id != patch.planId ensures baseline[i] in expected {
      assert expected[i] == baseline[i];
    }
    var t :| 0 <= t < |baseline| && baseline[t].id == patch.planId;
    assert expected[t].id == patch.planId;
    forall i, j | 0 <= i < j < |expected| ensures expected[i].id != expected[j].id {
      assert baseline[i].id != baseline[j].id;
    }
  }

  lemma SameIdSameIndex(plans: seq<FeederPlan>, i: nat, j: nat)
    requires DistinctIds(plans) && i < |plans| && j < |plans| && plans[i].id == plans[j].id
    ensures i == j
  {
  }

  lemma CreatedShape(baseline: seq<FeederPlan>, patch: PlanPatch, nowMs: int)
    requires ValidPatch(patch) && DistinctIds(baseline) && !Has(baseline, patch.planId)
    ensures PatchedShape(baseline, patch, nowMs, SortPlans(baseline + [NewPlan(patch, nowMs)]))
  {
    var created := NewPlan(patch, nowMs);
    var all := baseline + [created];
    var expected := SortPlans(all);
    SortKeepsDistinct(all);
    SortPlansMembers(all);
    forall i | 0 <= i < |baseline| ensures baseline[i] in expected {
      assert all[i] in all;
    }
    assert all[|baseline|] in all;
    var t :| 0 <= t < |expected| && expected[t] == created;
    forall j | 0 <= j < |expected| ensures expected[j] in baseline || expected[j] == created {
      assert expected[j] in all;
    }
    forall j | 0 <= j < |expected| && expected[j].id == patch.planId ensures expected[j] == created {
      SameIdSameIndex(expected, j, t);
    }
  }

  lemma PatchedHasShape(baseline: seq<FeederPlan>, patch: PlanPatch, nowMs: int)
    requires ValidPatch(patch) && DistinctIds(baseline) && TransportFieldsValid(baseline)
    ensures PatchedShape(baseline, patch, nowMs, PatchedCollection(baseline, patch, nowMs).value)
  {
    if Has(baseline, patch.planId) {
      UpdatedShape(baseline, patch, nowMs);
    } else {
      CreatedShape(baseline, patch, nowMs);
    }
  }

  lemma PatchedKeepsRecord(baseline: seq<FeederPlan>, patch: PlanPatch, nowMs: int,
                           expected: seq<FeederPlan>, i: int)
    requires ValidPatch(patch) && DistinctIds(baseline) && PatchedShape(baseline, patch, nowMs, expected)
    requires 0 <= i < |baseline|
    ensures BaselineRecordKept(baseline[i], expected, patch.planId, PatchOperation(baseline, patch))
    ensures Has(expected, baseline[i].id)
  {
    if baseline[i].id != patch.planId {
      var j :| 0 <= j < |expected| && expected[j] == baseline[i];
      LookupFinds(expected, j);
    } else {
      var j :| 0 <= j < |expected| && expected[j].id == patch.planId;
      LookupFinds(expected, j);
      assert TargetShape(baseline, patch, nowMs, expected[j]);
    }
  }

  /** The builder's output is never rejected by the predicate's constructor. */
  lemma PatchedIsAccepted(baseline: seq<FeederPlan>, patch: PlanPatch, nowMs: int)
    requires ValidPatch(patch) && DistinctIds(baseline) && TransportFieldsValid(baseline)
    ensures PatchedCollection(baseline, patch, nowMs).Accepted?
    ensures PredicateAccepts(baseline, PatchedCollection(baseline, patch, nowMs).value, patch.planId,
                             PatchOperation(baseline, patch))
  {
    var expected := PatchedCollection(baseline, patch, nowMs).value;
    PatchedHasShape(baseline, patch, nowMs);
    forall i | 0 <= i < |baseline|
      ensures BaselineRecordKept(baseline[i], expected, patch.planId, PatchOperation(baseline, patch))
      ensures Has(expected, baseline[i].id)
    {
      PatchedKeepsRecord(baseline, patch, nowMs, expected, i);
    }
    forall j | 0 <= j < |expected| && expected[j].id != patch.planId ensures Has(baseline, expected[j].id) {
      var i :| 0 <= i < |baseline| && baseline[i] == expected[j];
    }
  }

  // ---------------------------------------------------------------- verified if and only if effective

  /** For the target record, the predicate's comparison is exactly `ShowsPatch`. */
  lemma TargetMatchesIffShown(baseline: seq<FeederPlan>, patch: PlanPatch, nowMs: int, e: FeederPlan,
                              q: FeederPlan)
    requires ValidPatch(patch) && DistinctIds(baseline) && TargetShape(baseline, patch, nowMs, e)
    requires q.id == patch.planId
    ensures RecordMatches(e, Some(q), patch.planId, PatchOperation(baseline, patch))
       <==> ShowsPatch(baseline, patch, q)
  {
    if Has(baseline, patch.planId) {
      var i :| 0 <= i < |baseline| && baseline[i].id == patch.planId &&
               e == PatchedPlan(baseline[i], patch, nowMs);
      forall k | 0 <= k < |baseline| && baseline[k].id == patch.planId ensures k == i {
      }
    }
  }

  lemma OtherMatchesIffStable(e: FeederPlan, actual: seq<FeederPlan>, j: int, target: int,
                              operation: PlanOperation)
    requires DistinctIds(actual) && 0 <= j < |actual| && actual[j].id == e.id && e.id != target
    ensures RecordMatches(e, Lookup(actual, e.id), target, operation)
       <==> actual[j].StableFingerprint() == e.StableFingerprint()
  {
    LookupFinds(actual, j);
  }

  lemma MatchShowsOther(e: FeederPlan, actual: seq<FeederPlan>, target: int, operation: PlanOperation)
    requires DistinctIds(actual) && Has(actual, e.id) && e.id != target
    ensures RecordMatches(e, Lookup(actual, e.id), target, operation) <==> StillThere(e, actual)
  {
    var j :| 0 <= j < |actual| && actual[j].id == e.id;
    OtherMatchesIffStable(e, actual, j, target, operation);
    if StillThere(e, actual) {
      var k :| 0 <= k < |actual| && actual[k].StableFingerprint() == e.StableFingerprint();
      assert actual[k].id == actual[k].StableFingerprint().semantic.id == e.id;
      assert k == j;
    }
  }

  lemma PatchMatchImpliesEffect(baseline: seq<FeederPlan>, patch: PlanPatch, nowMs: int,
                                expected: seq<FeederPlan>, actual: seq<FeederPlan>)
    requires ValidPatch(patch) && DistinctIds(baseline) && DistinctIds(actual)
    requires PatchedShape(baseline, patch, nowMs, expected)
    requires PredicateMatches(expected, patch.planId, PatchOperation(baseline, patch), |actual|, actual)
    ensures PatchTookEffect(baseline, patch, actual)
  {
    var op := PatchOperation(baseline, patch);
    forall i | 0 <= i < |baseline| && baseline[i].id != patch.planId ensures StillThere(baseline[i], actual) {
      var j :| 0 <= j < |expected| && expected[j] == baseline[i];
      MatchShowsOther(expected[j], actual, patch.planId, op);
    }
    forall j | 0 <= j < |actual| && actual[j].id != patch.planId ensures Has(baseline, actual[j].id) {
      var k :| 0 <= k < |expected| && expected[k].id == actual[j].id;
      var i :| 0 <= i < |baseline| && baseline[i] == expected[k];
    }
    var t :| 0 <= t < |expected| && expected[t].id == patch.planId;
    var j :| 0 <= j < |actual| && actual[j].id == patch.planId;
    LookupFinds(actual, j);
    TargetMatchesIffShown(baseline, patch, nowMs, expected[t], actual[j]);
  }

  lemma SameIdsSameLength(a: seq<FeederPlan>, b: seq<FeederPlan>)
    requires DistinctIds(a) && DistinctIds(b) && IdsWithin(a, b) && IdsWithin(b, a)
    ensures |a| == |b|
  {
    forall x ensures x in Ids(a) <==> x in Ids(b) {
      if x in Ids(a) {
        var i :| 0 <= i < |a| && Ids(a)[i] == x;
        assert Has(b, a[i].id);
        var j :| 0 <= j < |b| && b[j].id == x;
        assert Ids(b)[j] == x;
      }
      if x in Ids(b) {
        var j :| 0 <= j < |b| && Ids(b)[j] == x;
        assert Has(a, b[j].id);
        var i :| 0 <= i < |a| && a[i].id == x;
        assert Ids(a)[i] == x;
      }
    }
    SameValuesSameLength(Ids(a), Ids(b));
  }

  lemma StillThereHas(p: FeederPlan, actual: seq<FeederPlan>)
    requires StillThere(p, actual)
    ensures Has(actual, p.id)
  {
    var k :| 0 <= k < |actual| && actual[k].StableFingerprint() == p.StableFingerprint();
    assert actual[k].id == actual[k].StableFingerprint().semantic.id;
  }

  lemma PatchEffectSameIds(baseline: seq<FeederPlan>, patch: PlanPatch, nowMs: int,
                           expected: seq<FeederPlan>, actual: seq<FeederPlan>)
    requires ValidPatch(patch) && DistinctIds(baseline) && PatchedShape(baseline, patch, nowMs, expected)
    requires PatchTookEffect(baseline, patch, actual)
    ensures IdsWithin(expected, actual) && IdsWithin(actual, expected)
  {
    forall j | 0 <= j < |expected| ensures Has(actual, expected[j].id) {
      if expected[j].id != patch.planId {
        var i :| 0 <= i < |baseline| && baseline[i] == expected[j];
        StillThereHas(baseline[i], actual);
      }
    }
    forall j | 0 <= j < |actual| ensures Has(expected, actual[j].id) {
      if actual[j].id != patch.planId {
        var i :| 0 <= i < |baseline| && baseline[i].id == actual[j].id;
        assert baseline[i] in expected;
      }
    }
  }

  lemma PatchEffectImpliesMatch(baseline: seq<FeederPlan>, patch: PlanPatch, nowMs: int,
                                expected: seq<FeederPlan>, actual: seq<FeederPlan>)
    requires ValidPatch(patch) && DistinctIds(baseline) && DistinctIds(actual)
    requires PatchedShape(baseline, patch, nowMs, expected)
    requires PatchTookEffect(baseline, patch, actual)
    ensures PredicateMatches(expected, patch.planId, PatchOperation(baseline, patch), |actual|, actual)
  {
    var op := PatchOperation(baseline, patch);
    PatchEffectSameIds(baseline, patch, nowMs, expected, actual);
    SameIdsSameLength(expected, actual);
    forall i | 0 <= i < |expected|
      ensures RecordMatches(expected[i], Lookup(actual, expected[i].id), patch.planId, op)
    {
      if expected[i].id != patch.planId {
        MatchShowsOther(expected[i], actual, patch.planId, op);
        var k :| 0 <= k < |baseline| && baseline[k] == expected[i];
      } else {
        var j :| 0 <= j < |actual| && ShowsPatch(baseline, patch, actual[j]);
        LookupFinds(actual, j);
        TargetMatchesIffShown(baseline, patch, nowMs, expected[i], actual[j]);
      }
    }
  }

  /** A truth matches the predicate built for a patch exactly when the patch took effect in it. */
  lemma PatchVerifiedIffEffective(baseline: seq<FeederPlan>, patch: PlanPatch, nowMs: int,
                                  actual: seq<FeederPlan>)
    requires ValidPatch(patch) && DistinctIds(baseline) && TransportFieldsValid(baseline)
    requires DistinctIds(actual)
    ensures PredicateMatches(PatchedCollection(baseline, patch, nowMs).value, patch.planId,
                             PatchOperation(baseline, patch), |actual|, actual)
       <==> PatchTookEffect(baseline, patch, actual)
  {
    var expected := PatchedCollection(baseline, patch, nowMs).value;
    PatchedHasShape(baseline, patch, nowMs);
    if PredicateMatches(expected, patch.planId, PatchOperation(baseline, patch), |actual|, actual) {
      PatchMatchImpliesEffect(baseline, patch, nowMs, expected, actual);
    }
    if PatchTookEffect(baseline, patch, actual) {
      PatchEffectImpliesMatch(baseline, patch, nowMs, expected, actual);
    }
  }

  // ---------------------------------------------------------------- deletion

  lemma {:induction false} WithoutMembers(plans: seq<FeederPlan>, planId: int)
    ensures forall p :: p in Without(plans, planId) <==> p in plans && p.id != planId
  {
    if plans != [] {
      var front, last := plans[..|plans| - 1], plans[|plans| - 1];
      WithoutMembers(front, planId);
      assert plans == front + [last];
    }
  }

  lemma {:induction false} WithoutKeepsDistinct(plans: seq<FeederPlan>, planId: int)
    requires DistinctIds(plans)
    ensures DistinctIds(Without(plans, planId))
  {
    if plans != [] {
      var front, last := plans[..|plans| - 1], plans[|plans| - 1];
      WithoutKeepsDistinct(front, planId);
      WithoutMembers(front, planId);
      var r := Without(front, planId);
      forall i | 0 <= i < |r| ensures r[i].id != last.id {
        assert r[i] in front;
      }
    }
  }

  /** What a collection with one plan taken out looks like. */
  ghost predicate DeletedShape(baseline: seq<FeederPlan>, planId: int, expected: seq<FeederPlan>) {
    && DistinctIds(expected)
    && (forall i | 0 <= i < |baseline| && baseline[i].id != planId :: baseline[i] in expected)
    && (forall j | 0 <= j < |expected| :: expected[j] in baseline && expected[j].id != planId)
  }

  lemma DeletedHasShape(baseline: seq<FeederPlan>, planId: int)
    requires DistinctIds(baseline)
    ensures DeletedShape(baseline, planId, Without(baseline, planId))
  {
    var expected := Without(baseline, planId);
    WithoutKeepsDistinct(baseline, planId);
    WithoutMembers(baseline, planId);
    assert forall j | 0 <= j < |expected| :: expected[j] in expected;
  }

  lemma DeletedIsAccepted(baseline: seq<FeederPlan>, planId: int)
    requires DistinctIds(baseline) && DeletedCollection(baseline, planId).Accepted?
    ensures PredicateAccepts(baseline, DeletedCollection(baseline, planId).value, planId, Delete)
  {
    var expected := Without(baseline, planId);
    DeletedHasShape(baseline, planId);
    forall i | 0 <= i < |baseline| && baseline[i].id != planId
      ensures Lookup(expected, baseline[i].id) == Some(baseline[i]) && Has(expected, baseline[i].id)
    {
      var j :| 0 <= j < |expected| && expected[j] == baseline[i];
      LookupFinds(expected, j);
    }
    forall j | 0 <= j < |expected| ensures Has(baseline, expected[j].id) {
      var i :| 0 <= i < |baseline| && baseline[i] == expected[j];
    }
  }

  /** A truth matches the predicate built for a delete exactly when that plan, and only it, is gone. */
  lemma DeleteVerifiedIffEffective(baseline: seq<FeederPlan>, planId: int, actual: seq<FeederPlan>)
    requires DistinctIds(baseline) && DistinctIds(actual) && DeletedCollection(baseline, planId).Accepted?
    ensures PredicateMatches(DeletedCollection(baseline, planId).value, planId, Delete, |actual|, actual)
       <==> DeleteTookEffect(baseline, planId, actual)
  {
    var expected := Without(baseline, planId);
    DeletedHasShape(baseline, planId);
    if PredicateMatches(expected, planId, Delete, |actual|, actual) {
      DeleteMatchImpliesEffect(baseline, planId, expected, actual);
    }
    if DeleteTookEffect(baseline, planId, actual) {
      DeleteEffectImpliesMatch(baseline, planId, expected, actual);
    }
  }

  lemma DeleteMatchImpliesEffect(baseline: seq<FeederPlan>, planId: int, expected: seq<FeederPlan>,
                                 actual: seq<FeederPlan>)
    requires DistinctIds(baseline) && DistinctIds(actual) && DeletedShape(baseline, planId, expected)
    requires PredicateMatches(expected, planId, Delete, |actual|, actual)
    ensures DeleteTookEffect(baseline, planId, actual)
  {
    forall i | 0 <= i < |baseline| && baseline[i].id != planId ensures StillThere(baseline[i], actual) {
      var j :| 0 <= j < |expected| && expected[j] == baseline[i];
      MatchShowsOther(expected[j], actual, planId, Delete);
    }
    forall j | 0 <= j < |actual| ensures Has(baseline, actual[j].id) && actual[j].id != planId {
      var k :| 0 <= k < |expected| && expected[k].id == actual[j].id;
      var i :| 0 <= i < |baseline| && baseline[i] == expected[k];
    }
  }

  lemma DeleteEffectImpliesMatch(baseline: seq<FeederPlan>, planId: int, expected: seq<FeederPlan>,
                                 actual: seq<FeederPlan>)
    requires DistinctIds(baseline) && DistinctIds(actual) && DeletedShape(baseline, planId, expected)
    requires DeleteTookEffect(baseline, planId, actual)
    ensures PredicateMatches(expected, planId, Delete, |actual|, actual)
  {
    forall i | 0 <= i < |expected|
      ensures Has(actual, expected[i].id)
      ensures RecordMatches(expected[i], Lookup(actual, expected[i].id), planId, Delete)
    {
      assert expected[i] in baseline;
      var k :| 0 <= k < |baseline| && baseline[k] == expected[i];
      StillThereHas(baseline[k], actual);
      MatchShowsOther(expected[i], actual, planId, Delete);
    }
    forall j | 0 <= j < |actual| ensures Has(expected, actual[j].id) {
      var i :| 0 <= i < |baseline| && baseline[i].id == actual[j].id;
      assert baseline[i] in expected;
    }
    SameIdsSameLength(expected, actual);
  }

  // ---------------------------------------------------------------- algebra

  /** Equal stable fingerprints, record by record and in the same order. */
  ghost predicate SameSchedule(a: seq<FeederPlan>, b: seq<FeederPlan>) {
    |a| == |b| && forall i | 0 <= i < |a| :: a[i].StableFingerprint() == b[i].StableFingerprint()
  }

  lemma PatchTwiceRecord(plan: FeederPlan, first: PlanPatch, second: PlanPatch, t1: int, t2: int, t3: int)
    requires ValidPatch(first) && ValidPatch(second) && first.planId == second.planId
    ensures PatchedIfTarget(PatchedIfTarget(plan, first, t1), second, t2).StableFingerprint()
         == PatchedIfTarget(plan, second, t3).StableFingerprint()
  {
  }

  lemma UpdateTwice(baseline: seq<FeederPlan>, first: PlanPatch, second: PlanPatch, t1: int, t2: int,
                    t3: int)
    requires ValidPatch(first) && ValidPatch(second) && first.planId == second.planId
    requires TransportFieldsValid(baseline) && Has(baseline, first.planId)
    ensures var once := ReplaceTarget(baseline, first, t1);
      && TransportFieldsValid(once) && Has(once, first.planId)
      && SameSchedule(ReplaceTarget(once, second, t2), ReplaceTarget(baseline, second, t3))
  {
    var once := ReplaceTarget(baseline, first, t1);
    forall i | 0 <= i < |once|
      ensures AudioFieldValid(once[i])
      ensures PatchedIfTarget(once[i], second, t2).StableFingerprint()
           == PatchedIfTarget(baseline[i], second, t3).StableFingerprint()
    {
      assert AudioFieldValid(baseline[i]);
      PatchTwiceRecord(baseline[i], first, second, t1, t2, t3);
    }
    var t :| 0 <= t < |baseline| && baseline[t].id == first.planId;
    assert once[t].id == first.planId;
  }

  lemma CreateThenUpdate(sorted: seq<FeederPlan>, a: FeederPlan, b: FeederPlan, patch: PlanPatch, nowMs: int)
    requires ValidPatch(patch) && a.id == b.id == patch.planId && !Has(sorted, patch.planId)
    requires PatchedPlan(a, patch, nowMs).StableFingerprint() == b.StableFingerprint()
    ensures SameSchedule(ReplaceTarget(InsertById(sorted, a), patch, nowMs), InsertById(sorted, b))
  {
    var k := InsertPosition(sorted, patch.planId);
    var r, s := ReplaceTarget(InsertById(sorted, a), patch, nowMs), InsertById(sorted, b);
    forall i | 0 <= i < |r| ensures r[i].StableFingerprint() == s[i].StableFingerprint() {
      if i != k {
        var j := if i < k then i else i - 1;
        assert s[i] == sorted[j] == InsertById(sorted, a)[i];
        assert sorted[j].id != patch.planId;
      }
    }
  }

  /** Patching an ID twice leaves the schedule of the later patch alone. */
  lemma LaterPatchWins(baseline: seq<FeederPlan>, first: PlanPatch, second: PlanPatch, t1: int, t2: int,
                       t3: int)
    requires ValidPatch(first) && ValidPatch(second) && first.planId == second.planId
    requires TransportFieldsValid(baseline)
    ensures var once := PatchedCollection(baseline, first, t1);
      && once.Accepted?
      && PatchedCollection(once.value, second, t2).Accepted?
      && PatchedCollection(baseline, second, t3).Accepted?
      && SameSchedule(PatchedCollection(once.value, second, t2).value,
                      PatchedCollection(baseline, second, t3).value)
  {
    var id := first.planId;
    if Has(baseline, id) {
      UpdateTwice(baseline, first, second, t1, t2, t3);
    } else {
      CreatedCanBePatched(baseline, first, t1);
      var a, b := NewPlan(first, t1), NewPlan(second, t3);
      assert PatchedPlan(a, second, t2).StableFingerprint() == b.StableFingerprint();
      CreateThenUpdate(SortPlans(baseline), a, b, second, t2);
      SortAppended(baseline, b);
    }
  }

  lemma SortAppended(baseline: seq<FeederPlan>, x: FeederPlan)
    ensures SortPlans(baseline + [x]) == InsertById(SortPlans(baseline), x)
  {
    assert (baseline + [x])[..|baseline|] == baseline;
  }

  lemma CreatedCanBePatched(baseline: seq<FeederPlan>, patch: PlanPatch, nowMs: int)
    requires ValidPatch(patch) && TransportFieldsValid(baseline) && !Has(baseline, patch.planId)
    ensures !Has(SortPlans(baseline), patch.planId)
    ensures var once := InsertById(SortPlans(baseline), NewPlan(patch, nowMs));
      && SortPlans(baseline + [NewPlan(patch, nowMs)]) == once
      && TransportFieldsValid(once) && Has(once, patch.planId)
  {
    var sorted, created := SortPlans(baseline), NewPlan(patch, nowMs);
    SortPlansMembers(baseline);
    SortAppended(baseline, created);
    forall i | 0 <= i < |sorted| ensures AudioFieldValid(sorted[i]) && sorted[i].id != patch.planId {
      assert sorted[i] in baseline;
      var k :| 0 <= k < |baseline| && baseline[k] == sorted[i];
    }
    var k := InsertPosition(sorted, created.id);
    var once := InsertById(sorted, created);
    assert once[k] == created;
    forall i | 0 <= i < |once| ensures AudioFieldValid(once[i]) {
      if i < k { assert once[i] == sorted[i]; } else if i > k { assert once[i] == sorted[i - 1]; }
    }
  }

  lemma {:induction false} WithoutAbsent(plans: seq<FeederPlan>, planId: int)
    requires !Has(plans, planId)
    ensures Without(plans, planId) == plans
  {
    if plans != [] {
      var front := plans[..|plans| - 1];
      forall i | 0 <= i < |front| ensures front[i].id != planId { assert plans[i].id != planId; }
      WithoutAbsent(front, planId);
    }
  }

  lemma {:induction false} WithoutConcat(a: seq<FeederPlan>, b: seq<FeederPlan>, planId: int)
    ensures Without(a + b, planId) == Without(a, planId) + Without(b, planId)
  {
    if b == [] {
      assert a + b == a;
    } else {
      var front := b[..|b| - 1];
      assert (a + b)[..|a + b| - 1] == a + front;
      WithoutConcat(a, front, planId);
    }
  }

  lemma WithoutSandwich(a: seq<FeederPlan>, x: FeederPlan, b: seq<FeederPlan>)
    requires !Has(a, x.id) && !Has(b, x.id)
    ensures Without(a + [x] + b, x.id) == a + b
  {
    WithoutConcat(a + [x], b, x.id);
    WithoutConcat(a, [x], x.id);
    WithoutAbsent(a, x.id);
    WithoutAbsent(b, x.id);
  }

  lemma WithoutInserted(sorted: seq<FeederPlan>, x: FeederPlan)
    requires !Has(sorted, x.id)
    ensures Without(InsertById(sorted, x), x.id) == sorted
  {
    var k := InsertPosition(sorted, x.id);
    WithoutSandwich(sorted[..k], x, sorted[k..]);
    assert sorted == sorted[..k] + sorted[k..];
  }

  /** Creating a plan and deleting it again gives the baseline back, ordered by ID. */
  lemma CreateThenDelete(baseline: seq<FeederPlan>, patch: PlanPatch, nowMs: int)
    requires ValidPatch(patch) && patch.planId <= 9 && TransportFieldsValid(baseline)
    requires !Has(baseline, patch.planId)
    ensures var created := PatchedCollection(baseline, patch, nowMs);
      && created.Accepted?
      && DeletedCollection(created.value, patch.planId) == Accepted(SortPlans(baseline))
  {
    CreatedCanBePatched(baseline, patch, nowMs);
    WithoutInserted(SortPlans(baseline), NewPlan(patch, nowMs));
    SortPlansMembers(baseline);
    var sorted := SortPlans(baseline);
    forall i | 0 <= i < |sorted| ensures AudioFieldValid(sorted[i]) {
      assert sorted[i] in baseline;
      var k :| 0 <= k < |baseline| && baseline[k] == sorted[i];
    }
  }
}
