/** The supervisor-assessment test-data generator (generate_test_data.cjs): the
    assessment items are grouped by level category, every worker draws a tier
    and 5 to 10 items per category (fewer when the category is smaller), every
    item gets a level by `weightedRandom`, and the uploaded records are
    summarised by entity. The HTTP calls are left out: the workers, the items and
    the verified records are parameters, and so are the values `Math.random()`
    and the shuffling sort produce. */
module GenTestData {
  import opened Common
  import GenAssessments

  type Tier = GenAssessments.Tier

  // --------------------------------------------------------- weightedRandom ----

  function RealSum(ws: seq<real>): real
  {
    if ws == [] then 0.0 else RealSum(ws[..|ws| - 1]) + ws[|ws| - 1]
  }

  lemma RealSumSnoc(ws: seq<real>, i: nat)
    requires i < |ws|
    ensures RealSum(ws[..i + 1]) == RealSum(ws[..i]) + ws[i]
  {
    assert ws[..i + 1][..i] == ws[..i];
  }

  /** The position the loop stops at for the scaled draw `x`: the first from `i`
      on whose running weight reaches `x`, or else the last position. */
  function ReachIndex(ws: seq<real>, x: real, i: nat, n: nat): (k: nat)
    requires 0 < n <= |ws| && i < n
    ensures i <= k < n
    ensures k < n - 1 ==> x <= RealSum(ws[..k + 1])
    ensures i < k ==> RealSum(ws[..k]) < x
    decreases n - i
  {
    if i == n - 1 || x <= RealSum(ws[..i + 1]) then i else ReachIndex(ws, x, i + 1, n)
  }

  lemma ReachStep(ws: seq<real>, x: real, i: nat, n: nat)
    requires 0 < n <= |ws| && i < n
    ensures i == n - 1 || x <= RealSum(ws[..i + 1]) ==> ReachIndex(ws, x, i, n) == i
    ensures i < n - 1 && RealSum(ws[..i + 1]) < x ==> ReachIndex(ws, x, i, n) == ReachIndex(ws, x, i + 1, n)
  {
  }

  /** What `weightedRandom(items, weights)` returns for the draw `u`: `undefined`
      (None) for no items, and otherwise always one of the items. */
  function WeightedPick<T>(items: seq<T>, ws: seq<real>, u: real): (r: Option<T>)
    requires |ws| == |items|
    ensures r.None? <==> items == []
    ensures r.Some? ==> r.value in items
  {
    if items == [] then None else Some(items[PickIndex(ws, u)])
  }

  /** The position `weightedRandom` stops at for the draw `u`. */
  function PickIndex(ws: seq<real>, u: real): (k: nat)
    requires ws != []
    ensures k < |ws|
  {
    ReachIndex(ws, u * RealSum(ws), 0, |ws|)
  }

  /** The loop of `weightedRandom`, subtracting one weight after the other from
      the scaled draw. */
  method WeightedRandom<T>(items: seq<T>, weights: seq<real>, u: real) returns (r: Option<T>)
    requires |weights| == |items|
    ensures r == WeightedPick(items, weights, u)
  {
    if items == [] {
      return None;
    }
    var random := u * RealSum(weights);
    ghost var x := random;
    var i := 0;
    while i < |items|
      invariant i < |items|
      invariant random == x - RealSum(weights[..i])
      invariant PickIndex(weights, u) == ReachIndex(weights, x, i, |items|)
      decreases |items| - i
    {
      RealSumSnoc(weights, i);
      ReachStep(weights, x, i, |items|);
      random := random - weights[i];
      if random <= 0.0 || i == |items| - 1 {
        return Some(items[i]);
      }
      i := i + 1;
    }
  }

  // ------------------------------------------------------------ the tiers ----

  /** The tier for the draw `rand`: below 0.2 excellent, below 0.7 good, else
      average. */
  function TierOf(rand: real): Tier
  {
    if rand < 0.2 then GenAssessments.Excellent
    else if rand < 0.7 then GenAssessments.Good
    else GenAssessments.Average
  }

  /** The two generators give the same tier for the same draw. */
  lemma TierAgreesWithPythonGenerator(u: real)
    requires 0.0 <= u < 1.0
    ensures TierOf(u) == GenAssessments.TierOf(u)
  {
    GenAssessments.TierIntervals(u);
  }

  /** The level of one item for the tier, drawn by `weightedRandom`. */
  function LevelFor(t: Tier, u: real): (level: int)
    ensures level in GenAssessments.LevelSet(t)
  {
    match t
    case Excellent => WeightedPick([3, 4, 5], [0.1, 0.4, 0.5], u).value
    case Good => WeightedPick([2, 3, 4], [0.2, 0.5, 0.3], u).value
    case Average => WeightedPick([1, 2, 3], [0.2, 0.5, 0.3], u).value
  }

  /** The weights of an excellent worker's levels reach 3 up to the draw 0.1,
      4 up to 0.5 and 5 above. */
  lemma ExcellentLevelIntervals(u: real)
    requires 0.0 <= u < 1.0
    ensures LevelFor(GenAssessments.Excellent, u) == 3 <==> u <= 0.1
    ensures LevelFor(GenAssessments.Excellent, u) == 4 <==> 0.1 < u <= 0.5
    ensures LevelFor(GenAssessments.Excellent, u) == 5 <==> 0.5 < u
  {
    var ws := [0.1, 0.4, 0.5];
    assert ws[..1] == [0.1] && ws[..2] == [0.1, 0.4] && ws[..3] == ws;
    assert RealSum(ws[..1]) == 0.1;
    assert RealSum(ws[..2]) == 0.5;
    assert RealSum(ws) == 1.0;
  }

  // ------------------------------------------------------- getRandomItems ----

  datatype Item = Item(id: int, category: string, itemName: string)

  /** `array.slice(0, count)`, which stops at the end of the array. */
  function Slice<T>(s: seq<T>, count: nat): (r: seq<T>)
    ensures |r| == if count <= |s| then count else |s|
  {
    if count <= |s| then s[..count] else s
  }

  /** `getRandomItems(list, count)`, where `shuffled` is what sorting a copy of
      `list` with the random comparator gave: some arrangement of the same
      items. */
  function RandomItems(list: seq<Item>, count: nat, shuffled: seq<Item>): (r: seq<Item>)
    requires multiset(shuffled) == multiset(list)
    ensures |r| == if count <= |list| then count else |list|
    ensures multiset(r) <= multiset(list)
  {
    var r := Slice(shuffled, count);
    assert |shuffled| == |list| by {
      assert |multiset(shuffled)| == |multiset(list)|;
    }
    assert shuffled == r + shuffled[|r|..];
    assert multiset(shuffled) == multiset(r) + multiset(shuffled[|r|..]);
    r
  }

  /** `Math.floor(Math.random() * 6) + 5`. */
  function RequestedCount(u: real): (n: int)
    requires 0.0 <= u < 1.0
    ensures 5 <= n <= 10
  {
    ScaledFloor(u, 6);
    (u * 6.0).Floor + 5
  }

  // ------------------------------------------------------------- grouping ----

  datatype Buckets = Buckets(level2: seq<Item>, level3: seq<Item>, level4: seq<Item>)

  function ItemsIn(items: seq<Item>, c: string): (r: seq<Item>)
    ensures forall k :: 0 <= k < |r| ==> r[k] in items && r[k].category == c
  {
    if items == [] then []
    else
      var last := items[|items| - 1];
      ItemsIn(items[..|items| - 1], c) + (if last.category == c then [last] else [])
  }

  /** The `forEach` over the items: an item of category Level2, Level3 or Level4
      joins that list, in order; any other item is passed over. */
  method GroupItems(items: seq<Item>) returns (b: Buckets)
    ensures b == Buckets(ItemsIn(items, "Level2"), ItemsIn(items, "Level3"), ItemsIn(items, "Level4"))
  {
    b := Buckets([], [], []);
    for i := 0 to |items|
      invariant b == Buckets(ItemsIn(items[..i], "Level2"), ItemsIn(items[..i], "Level3"), ItemsIn(items[..i], "Level4"))
    {
      assert items[..i + 1][..i] == items[..i];
      var item := items[i];
      if item.category == "Level2" {
        b := b.(level2 := b.level2 + [item]);
      } else if item.category == "Level3" {
        b := b.(level3 := b.level3 + [item]);
      } else if item.category == "Level4" {
        b := b.(level4 := b.level4 + [item]);
      }
    }
    assert items[..|items|] == items;
  }

  // ----------------------------------------------------------- generation ----

  /** The values drawn for one worker: the tier draw, the three count draws, the
      outcome of each shuffling sort, and one draw per selected item. */
  datatype WorkerDraw = WorkerDraw(
    tierDraw: real, count2: real, count3: real, count4: real,
    shuffled2: seq<Item>, shuffled3: seq<Item>, shuffled4: seq<Item>, levelDraws: seq<real>)

  function Min(a: int, b: int): int { if a <= b then a else b }

  predicate DrawFits(b: Buckets, d: WorkerDraw)
  {
    && 0.0 <= d.tierDraw < 1.0
    && 0.0 <= d.count2 < 1.0 && 0.0 <= d.count3 < 1.0 && 0.0 <= d.count4 < 1.0
    && multiset(d.shuffled2) == multiset(b.level2)
    && multiset(d.shuffled3) == multiset(b.level3)
    && multiset(d.shuffled4) == multiset(b.level4)
    && |d.levelDraws| == Min(RequestedCount(d.count2), |b.level2|)
      + Min(RequestedCount(d.count3), |b.level3|) + Min(RequestedCount(d.count4), |b.level4|)
  }

  predicate AllFit(b: Buckets, ds: seq<WorkerDraw>)
  {
    forall i :: 0 <= i < |ds| ==> DrawFits(b, ds[i])
  }

  /** The items selected for one worker. */
  function Selected(b: Buckets, d: WorkerDraw): (items: seq<Item>)
    requires DrawFits(b, d)
    ensures |items| == |d.levelDraws| <= 30
  {
    RandomItems(b.level2, Min(RequestedCount(d.count2), |b.level2|), d.shuffled2)
      + RandomItems(b.level3, Min(RequestedCount(d.count3), |b.level3|), d.shuffled3)
      + RandomItems(b.level4, Min(RequestedCount(d.count4), |b.level4|), d.shuffled4)
  }

  /** One element of `allAssessments`. */
  datatype Assessment = Assessment(employeeId: string, category: string, itemName: string, level: int)

  datatype Worker = Worker(employeeId: string)

  /** What the draws decide for one worker: its items and the level of each. */
  datatype WorkerPlan = WorkerPlan(worker: Worker, items: seq<Item>, levels: seq<int>)

  function PlanOf(w: Worker, b: Buckets, d: WorkerDraw): (p: WorkerPlan)
    requires DrawFits(b, d)
    ensures p.worker == w && p.items == Selected(b, d) && |p.levels| == |p.items|
  {
    var t := TierOf(d.tierDraw);
    WorkerPlan(w, Selected(b, d), seq(|d.levelDraws|, k requires 0 <= k < |d.levelDraws| => LevelFor(t, d.levelDraws[k])))
  }

  /** At most 30 items per worker, every item from one of the three lists, every
      level in the set of the worker's tier. */
  lemma PlanOfFits(w: Worker, b: Buckets, d: WorkerDraw)
    requires DrawFits(b, d)
    ensures |PlanOf(w, b, d).items| <= 30
    ensures forall item :: item in PlanOf(w, b, d).items ==> item in b.level2 || item in b.level3 || item in b.level4
    ensures forall k :: 0 <= k < |PlanOf(w, b, d).levels| ==>
      PlanOf(w, b, d).levels[k] in GenAssessments.LevelSet(TierOf(d.tierDraw))
  {
    var r2 := RandomItems(b.level2, Min(RequestedCount(d.count2), |b.level2|), d.shuffled2);
    var r3 := RandomItems(b.level3, Min(RequestedCount(d.count3), |b.level3|), d.shuffled3);
    var r4 := RandomItems(b.level4, Min(RequestedCount(d.count4), |b.level4|), d.shuffled4);
    forall item | item in r2 + r3 + r4 ensures item in b.level2 || item in b.level3 || item in b.level4 {
      if item in r2 {
        assert item in multiset(b.level2);
      } else if item in r3 {
        assert item in multiset(b.level3);
      } else {
        assert item in multiset(b.level4);
      }
    }
  }

  /** The plan of every worker, one per draw. It mirrors the plan list of the
      Python generator, over this generator's own workers, buckets and draws. */
  function Plans(ws: seq<Worker>, b: Buckets, ds: seq<WorkerDraw>): (ps: seq<WorkerPlan>)
    requires |ds| == |ws| && AllFit(b, ds)
    ensures |ps| == |ws|
  {
    seq(|ws|, i requires 0 <= i < |ws| => PlanOf(ws[i], b, ds[i]))
  }

  function PlanAssessments(p: WorkerPlan): seq<Assessment>
  {
    var n := Min(|p.items|, |p.levels|);
    seq(n, k requires 0 <= k < n => Assessment(p.worker.employeeId, p.items[k].category, p.items[k].itemName, p.levels[k]))
  }

  /** `allAssessments` after the planned workers. */
  function AllAssessments(ps: seq<WorkerPlan>): seq<Assessment>
  {
    if ps == [] then [] else AllAssessments(ps[..|ps| - 1]) + PlanAssessments(ps[|ps| - 1])
  }

  lemma AllAssessmentsStep(ps: seq<WorkerPlan>, i: nat)
    requires i < |ps|
    ensures AllAssessments(ps[..i + 1]) == AllAssessments(ps[..i]) + PlanAssessments(ps[i])
  {
    assert ps[..i + 1][..i] == ps[..i];
  }

  /** The inner loop for one worker. */
  method AssessItems(worker: Worker, selectedItems: seq<Item>, t: Tier, levelDraws: seq<real>)
    returns (block: seq<Assessment>)
    requires |levelDraws| == |selectedItems|
    ensures |block| == |selectedItems|
    ensures forall k :: 0 <= k < |block| ==> block[k] == Assessment(
      worker.employeeId, selectedItems[k].category, selectedItems[k].itemName, LevelFor(t, levelDraws[k]))
  {
    block := [];
    for k := 0 to |selectedItems|
      invariant |block| == k
      invariant forall j :: 0 <= j < k ==> block[j] == Assessment(
        worker.employeeId, selectedItems[j].category, selectedItems[j].itemName, LevelFor(t, levelDraws[j]))
    {
      var item := selectedItems[k];
      var level: Option<int>;
      match t {
        case Excellent => level := WeightedRandom([3, 4, 5], [0.1, 0.4, 0.5], levelDraws[k]);
        case Good => level := WeightedRandom([2, 3, 4], [0.2, 0.5, 0.3], levelDraws[k]);
        case Average => level := WeightedRandom([1, 2, 3], [0.2, 0.5, 0.3], levelDraws[k]);
      }
      block := block + [Assessment(worker.employeeId, item.category, item.itemName, level.value)];
    }
  }

  /** One pass of the worker loop. */
  method AssessWorker(worker: Worker, b: Buckets, d: WorkerDraw) returns (block: seq<Assessment>)
    requires DrawFits(b, d)
    ensures block == PlanAssessments(PlanOf(worker, b, d))
  {
    var tier := TierOf(d.tierDraw);
    var num2 := RequestedCount(d.count2);
    var num3 := RequestedCount(d.count3);
    var num4 := RequestedCount(d.count4);
    var selectedItems := RandomItems(b.level2, Min(num2, |b.level2|), d.shuffled2)
      + RandomItems(b.level3, Min(num3, |b.level3|), d.shuffled3)
      + RandomItems(b.level4, Min(num4, |b.level4|), d.shuffled4);
    block := AssessItems(worker, selectedItems, tier, d.levelDraws);
  }

  /** The worker loop: `allAssessments` and `totalAssessments`. */
  method GenerateAssessments(ws: seq<Worker>, b: Buckets, ds: seq<WorkerDraw>)
    returns (allAssessments: seq<Assessment>, totalAssessments: nat)
    requires |ds| == |ws| && AllFit(b, ds)
    ensures allAssessments == AllAssessments(Plans(ws, b, ds))
    ensures totalAssessments == |allAssessments|
  {
    ghost var ps := Plans(ws, b, ds);
    allAssessments := [];
    totalAssessments := 0;
    for i := 0 to |ws|
      invariant allAssessments == AllAssessments(ps[..i])
      invariant totalAssessments == |allAssessments|
    {
      var block := AssessWorker(ws[i], b, ds[i]);
      AllAssessmentsStep(ps, i);
      allAssessments := allAssessments + block;
      totalAssessments := totalAssessments + |block|;
    }
    assert ps[..|ws|] == ps;
  }

  /** No worker gets more than 30 assessments. */
  lemma {:induction false} AllAssessmentsCount(ws: seq<Worker>, b: Buckets, ds: seq<WorkerDraw>, n: nat)
    requires |ds| == |ws| && AllFit(b, ds) && n <= |ws|
    ensures |AllAssessments(Plans(ws, b, ds)[..n])| <= 30 * n
  {
    if n > 0 {
      var ps := Plans(ws, b, ds);
      assert ps[..n][..n - 1] == ps[..n - 1];
      AllAssessmentsCount(ws, b, ds, n - 1);
      PlanOfFits(ws[n - 1], b, ds[n - 1]);
    }
  }

  // ----------------------------------------------------- summary by entity ----

  /** A record of `GET /api/results/assessment`, as far as the summary reads it. */
  datatype VerifiedRecord = VerifiedRecord(entity: string, employeeId: string, level: int)

  datatype EntityStats = EntityStats(workers: set<string>, assessments: nat, totalLevel: int)

  /** One record added to `byEntity`. */
  function AddRecord(m: map<string, EntityStats>, r: VerifiedRecord): map<string, EntityStats>
  {
    var s := if r.entity in m then m[r.entity] else EntityStats({}, 0, 0);
    m[r.entity := EntityStats(s.workers + {r.employeeId}, s.assessments + 1, s.totalLevel + r.level)]
  }

  function Summary(rs: seq<VerifiedRecord>): map<string, EntityStats>
  {
    if rs == [] then map[] else AddRecord(Summary(rs[..|rs| - 1]), rs[|rs| - 1])
  }

  /** The `forEach` filling `byEntity`. */
  method SummarizeByEntity(verifiedData: seq<VerifiedRecord>) returns (byEntity: map<string, EntityStats>)
    ensures byEntity == Summary(verifiedData)
  {
    byEntity := map[];
    for i := 0 to |verifiedData|
      invariant byEntity == Summary(verifiedData[..i])
    {
      assert verifiedData[..i + 1][..i] == verifiedData[..i];
      var record := verifiedData[i];
      if record.entity !in byEntity {
        byEntity := byEntity[record.entity := EntityStats({}, 0, 0)];
      }
      var s := byEntity[record.entity];
      byEntity := byEntity[record.entity := EntityStats(s.workers + {record.employeeId}, s.assessments + 1, s.totalLevel + record.level)];
    }
    assert verifiedData[..|verifiedData|] == verifiedData;
  }

  function CountEntity(rs: seq<VerifiedRecord>, e: string): nat
  {
    if rs == [] then 0 else CountEntity(rs[..|rs| - 1], e) + (if rs[|rs| - 1].entity == e then 1 else 0)
  }

  function LevelTotal(rs: seq<VerifiedRecord>, e: string): int
  {
    if rs == [] then 0 else LevelTotal(rs[..|rs| - 1], e) + (if rs[|rs| - 1].entity == e then rs[|rs| - 1].level else 0)
  }

  function EntitiesOf(rs: seq<VerifiedRecord>): set<string>
  {
    set i | 0 <= i < |rs| :: rs[i].entity
  }

  function WorkersOf(rs: seq<VerifiedRecord>, e: string): set<string>
  {
    set i | 0 <= i < |rs| && rs[i].entity == e :: rs[i].employeeId
  }

  lemma EntitiesSnoc(rs: seq<VerifiedRecord>)
    requires rs != []
    ensures EntitiesOf(rs) == EntitiesOf(rs[..|rs| - 1]) + {rs[|rs| - 1].entity}
  {
    var init := rs[..|rs| - 1];
    forall e | e in EntitiesOf(rs) ensures e in EntitiesOf(init) + {rs[|rs| - 1].entity} {
      var i :| 0 <= i < |rs| && rs[i].entity == e;
      if i < |init| { assert init[i] == rs[i]; }
    }
    forall e | e in EntitiesOf(init) ensures e in EntitiesOf(rs) {
      var i :| 0 <= i < |init| && init[i].entity == e;
      assert rs[i] == init[i];
    }
  }

  lemma WorkersSnoc(rs: seq<VerifiedRecord>, e: string)
    requires rs != []
    ensures WorkersOf(rs, e) == WorkersOf(rs[..|rs| - 1], e)
      + (if rs[|rs| - 1].entity == e then {rs[|rs| - 1].employeeId} else {})
  {
    var init := rs[..|rs| - 1];
    var last := rs[|rs| - 1];
    forall x | x in WorkersOf(rs, e)
      ensures x in WorkersOf(init, e) + (if last.entity == e then {last.employeeId} else {})
    {
      var i :| 0 <= i < |rs| && rs[i].entity == e && rs[i].employeeId == x;
      if i < |init| { assert init[i] == rs[i]; }
    }
    forall x | x in WorkersOf(init, e) ensures x in WorkersOf(rs, e) {
      var i :| 0 <= i < |init| && init[i].entity == e && init[i].employeeId == x;
      assert rs[i] == init[i];
    }
  }

  /** The entities of the summary are exactly those of the records. */
  lemma {:induction false} SummaryKeys(rs: seq<VerifiedRecord>)
    ensures Summary(rs).Keys == EntitiesOf(rs)
  {
    if rs != [] {
      SummaryKeys(rs[..|rs| - 1]);
      EntitiesSnoc(rs);
    }
  }

  /** For each entity, the worker set holds the distinct employee ids of its
      records, and the count and the level total are over its records. */
  lemma {:induction false} SummaryExact(rs: seq<VerifiedRecord>, e: string)
    requires e in Summary(rs)
    ensures Summary(rs)[e].workers == WorkersOf(rs, e)
    ensures Summary(rs)[e].assessments == CountEntity(rs, e)
    ensures Summary(rs)[e].totalLevel == LevelTotal(rs, e)
  {
    var init := rs[..|rs| - 1];
    var last := rs[|rs| - 1];
    WorkersSnoc(rs, e);
    if e in Summary(init) {
      SummaryExact(init, e);
    } else {
      assert e == last.entity;
      SummaryKeys(init);
      assert WorkersOf(init, e) == {} && CountEntity(init, e) == 0 && LevelTotal(init, e) == 0 by {
        NoRecordsOf(init, e);
      }
    }
  }

  lemma {:induction false} NoRecordsOf(rs: seq<VerifiedRecord>, e: string)
    requires e !in EntitiesOf(rs)
    ensures WorkersOf(rs, e) == {} && CountEntity(rs, e) == 0 && LevelTotal(rs, e) == 0
  {
    if rs != [] {
      EntitiesSnoc(rs);
      WorkersSnoc(rs, e);
      NoRecordsOf(rs[..|rs| - 1], e);
    }
  }

  /** The sum of the per-entity assessment counts. */
  ghost function TotalAssessments(m: map<string, EntityStats>): nat
    decreases m.Keys
  {
    if m == map[] then 0
    else
      var e :| e in m;
      m[e].assessments + TotalAssessments(m - {e})
  }

  lemma {:induction false} TotalWithout(m: map<string, EntityStats>, e: string)
    requires e in m
    ensures TotalAssessments(m) == m[e].assessments + TotalAssessments(m - {e})
    decreases m.Keys
  {
    var f :| f in m && TotalAssessments(m) == m[f].assessments + TotalAssessments(m - {f});
    if f != e {
      TotalWithout(m - {f}, e);
      TotalWithout(m - {e}, f);
      assert (m - {f}) - {e} == (m - {e}) - {f};
    }
  }

  /** The per-entity assessment counts add up to the number of records. */
  lemma {:induction false} SummaryTotal(rs: seq<VerifiedRecord>)
    ensures TotalAssessments(Summary(rs)) == |rs|
  {
    if rs != [] {
      var init := rs[..|rs| - 1];
      var last := rs[|rs| - 1];
      SummaryTotal(init);
      var before := Summary(init);
      var after := Summary(rs);
      TotalWithout(after, last.entity);
      if last.entity in before {
        TotalWithout(before, last.entity);
        assert after - {last.entity} == before - {last.entity};
      } else {
        assert after - {last.entity} == before;
      }
    }
  }
}
