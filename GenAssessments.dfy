/** The test-assessment generator script (generate_test_assessments.py): the
    assessment items are put into the lists of their level category, and for every
    worker a performance tier is drawn, 5 to 10 items of each category are sampled,
    every sampled item gets a level drawn for the tier, and one row per item is
    written with the worker's timestamp, after which the timestamp moves on by 5 to
    15 minutes. The database is left out; the values of `random()`, `randint` and
    `sample` are parameters, and a timestamp is its number of minutes after the
    start time. */
module GenAssessments {
  import opened Common

  // ------------------------------------------------------- random.choices ----

  function Sum(ws: seq<nat>): nat
  {
    if ws == [] then 0 else Sum(ws[..|ws| - 1]) + ws[|ws| - 1]
  }

  /** `bisect(cum_weights, x, i, len(ws) - 1)` over the running sums of `ws`: the
      first position from `i` on, short of the last, whose running sum exceeds
      `x`, or else the last position. */
  function ChoiceIndex(ws: seq<nat>, x: real, i: nat): (k: nat)
    requires i < |ws|
    ensures i <= k < |ws|
    ensures i < k ==> Sum(ws[..k]) as real <= x
    ensures k < |ws| - 1 ==> x < Sum(ws[..k + 1]) as real
    decreases |ws| - i
  {
    if i == |ws| - 1 || x < Sum(ws[..i + 1]) as real then i else ChoiceIndex(ws, x, i + 1)
  }

  /** `random.choices(population, weights)[0]` for the draw `u` of `random()`. */
  function Choice<T>(population: seq<T>, ws: seq<nat>, u: real): (r: T)
    requires |population| == |ws| > 0
    ensures r in population
  {
    population[ChoiceIndex(ws, u * Sum(ws) as real, 0)]
  }

  datatype Tier = Excellent | Good | Average

  /** The performance tier, weighted 20/50/30. */
  function TierOf(u: real): Tier
  {
    Choice([Excellent, Good, Average], [20, 50, 30], u)
  }

  /** The tier falls to the draws below 0.2, from 0.2 below 0.7, and from 0.7. */
  lemma TierIntervals(u: real)
    requires 0.0 <= u < 1.0
    ensures TierOf(u) == Excellent <==> u < 0.2
    ensures TierOf(u) == Good <==> 0.2 <= u < 0.7
    ensures TierOf(u) == Average <==> 0.7 <= u
  {
    var ws: seq<nat> := [20, 50, 30];
    assert ws[..1] == [20] && ws[..2] == [20, 50] && ws[..3] == ws;
    assert Sum(ws[..1]) == 20;
    assert Sum(ws[..2]) == 70;
    assert Sum(ws) == 100;
  }

  /** The levels a tier can give. */
  function LevelSet(t: Tier): set<int>
  {
    match t
    case Excellent => {3, 4, 5}
    case Good => {2, 3, 4}
    case Average => {1, 2, 3}
  }

  /** The level of one item for the tier, with its own draw. */
  function LevelFor(t: Tier, u: real): (level: int)
    ensures level in LevelSet(t)
    ensures 1 <= level <= 5
  {
    match t
    case Excellent => Choice([3, 4, 5], [10, 40, 50], u)
    case Good => Choice([2, 3, 4], [20, 50, 30], u)
    case Average => Choice([1, 2, 3], [20, 50, 30], u)
  }

  // ---------------------------------------------------- items by category ----

  datatype DbItem = DbItem(id: int, category: string, itemName: string)

  datatype ItemRef = ItemRef(id: int, itemName: string)

  datatype Buckets = Buckets(level2: seq<ItemRef>, level3: seq<ItemRef>, level4: seq<ItemRef>)

  predicate KnownCategory(c: string)
  {
    c == "Level2" || c == "Level3" || c == "Level4"
  }

  function RefsIn(items: seq<DbItem>, c: string): seq<ItemRef>
  {
    if items == [] then []
    else
      var last := items[|items| - 1];
      RefsIn(items[..|items| - 1], c) + (if last.category == c then [ItemRef(last.id, last.itemName)] else [])
  }

  datatype ScriptError = KeyError(category: string) | ValueError

  lemma RefsInStep(items: seq<DbItem>, i: nat, c: string)
    requires i < |items|
    ensures RefsIn(items[..i + 1], c)
      == RefsIn(items[..i], c) + (if items[i].category == c then [ItemRef(items[i].id, items[i].itemName)] else [])
  {
    assert items[..i + 1][..i] == items[..i];
  }

  /** The grouping loop: the items join the list of their category in query order;
      an item of any other category raises `KeyError` and stops the script. */
  method GroupItems(items: seq<DbItem>) returns (r: Result<Buckets, ScriptError>)
    ensures r.Ok? <==> forall k :: 0 <= k < |items| ==> KnownCategory(items[k].category)
    ensures r.Ok? ==> r.value == Buckets(RefsIn(items, "Level2"), RefsIn(items, "Level3"), RefsIn(items, "Level4"))
    ensures r.Err? ==> exists i :: (0 <= i < |items| && r.error == KeyError(items[i].category)
      && !KnownCategory(items[i].category) && forall k :: 0 <= k < i ==> KnownCategory(items[k].category))
  {
    var b := Buckets([], [], []);
    for i := 0 to |items|
      invariant forall k :: 0 <= k < i ==> KnownCategory(items[k].category)
      invariant b == Buckets(RefsIn(items[..i], "Level2"), RefsIn(items[..i], "Level3"), RefsIn(items[..i], "Level4"))
    {
      RefsInStep(items, i, "Level2");
      RefsInStep(items, i, "Level3");
      RefsInStep(items, i, "Level4");
      var item := items[i];
      var ref := ItemRef(item.id, item.itemName);
      if item.category == "Level2" {
        b := b.(level2 := b.level2 + [ref]);
      } else if item.category == "Level3" {
        b := b.(level3 := b.level3 + [ref]);
      } else if item.category == "Level4" {
        b := b.(level4 := b.level4 + [ref]);
      } else {
        return Err(KeyError(item.category));
      }
    }
    assert items[..|items|] == items;
    return Ok(b);
  }

  /** Every listed item comes from the query, with the category of its list. */
  lemma {:induction false} RefsInSound(items: seq<DbItem>, c: string, k: int)
    requires 0 <= k < |RefsIn(items, c)|
    ensures exists i :: (0 <= i < |items| && items[i].category == c
      && RefsIn(items, c)[k] == ItemRef(items[i].id, items[i].itemName))
  {
    var init := items[..|items| - 1];
    if k < |RefsIn(init, c)| {
      RefsInSound(init, c, k);
      var i :| 0 <= i < |init| && init[i].category == c && RefsIn(init, c)[k] == ItemRef(init[i].id, init[i].itemName);
      assert items[i] == init[i];
    } else {
      assert RefsIn(items, c)[k] == ItemRef(items[|items| - 1].id, items[|items| - 1].itemName);
    }
  }

  // -------------------------------------------------------------- sampling ----

  /** `randint(5, min(10, n))` as drawn, with the positions `sample` picked. */
  datatype SampleDraw = SampleDraw(size: int, positions: seq<nat>)

  function Min(a: int, b: int): int { if a <= b then a else b }

  /** A draw `randint` and `sample` can produce for a list of `n` items. */
  predicate SampleFits(d: SampleDraw, n: nat)
  {
    && 5 <= d.size <= Min(10, n)
    && |d.positions| == d.size
    && (forall k :: 0 <= k < |d.positions| ==> d.positions[k] < n)
    && (forall j, k :: 0 <= j < k < |d.positions| ==> d.positions[j] != d.positions[k])
  }

  /** `random.sample(items, size)`: the items at the drawn positions. */
  function Sample(list: seq<ItemRef>, d: SampleDraw): (r: seq<ItemRef>)
    requires SampleFits(d, |list|)
    ensures |r| == d.size && 5 <= |r| <= 10
    ensures forall k :: 0 <= k < |r| ==> r[k] in list
  {
    seq(|d.positions|, k requires 0 <= k < |d.positions| => list[d.positions[k]])
  }

  /** Items with different ids lead to a sample without repetition. */
  lemma SampleDistinct(list: seq<ItemRef>, d: SampleDraw)
    requires SampleFits(d, |list|)
    requires forall i, j :: 0 <= i < j < |list| ==> list[i].id != list[j].id
    ensures forall i, j :: 0 <= i < j < |Sample(list, d)| ==> Sample(list, d)[i].id != Sample(list, d)[j].id
  {
    var r := Sample(list, d);
    forall i, j | 0 <= i < j < |r| ensures r[i].id != r[j].id {
      var p, q := d.positions[i], d.positions[j];
      if p < q {
        assert list[p].id != list[q].id;
      } else {
        assert list[q].id != list[p].id;
      }
    }
  }

  // ------------------------------------------------------------ generation ----

  datatype DbWorker = DbWorker(id: int, employeeId: string, name: string, entity: string)

  /** The values drawn for one worker. */
  datatype WorkerDraw = WorkerDraw(
    tierDraw: real, level2: SampleDraw, level3: SampleDraw, level4: SampleDraw,
    levelDraws: seq<real>, minutes: int)

  predicate DrawFits(b: Buckets, d: WorkerDraw)
  {
    && 0.0 <= d.tierDraw < 1.0
    && SampleFits(d.level2, |b.level2|) && SampleFits(d.level3, |b.level3|) && SampleFits(d.level4, |b.level4|)
    && |d.levelDraws| == d.level2.size + d.level3.size + d.level4.size
    && (forall k :: 0 <= k < |d.levelDraws| ==> 0.0 <= d.levelDraws[k] < 1.0)
    && 5 <= d.minutes <= 15
  }

  predicate AllFit(b: Buckets, ds: seq<WorkerDraw>)
  {
    forall i :: 0 <= i < |ds| ==> DrawFits(b, ds[i])
  }

  /** The items sampled for a worker: its Level2, Level3 and Level4 samples. */
  function Selected(b: Buckets, d: WorkerDraw): (items: seq<ItemRef>)
    requires DrawFits(b, d)
    ensures |items| == |d.levelDraws| && 15 <= |items| <= 30
  {
    Sample(b.level2, d.level2) + Sample(b.level3, d.level3) + Sample(b.level4, d.level4)
  }

  /** What the draws decide for one worker: the sampled items, the level of
      each, and the minutes the timestamp then moves on. */
  datatype WorkerPlan = WorkerPlan(worker: DbWorker, items: seq<ItemRef>, levels: seq<int>, minutes: int)

  function PlanOf(w: DbWorker, b: Buckets, d: WorkerDraw): (p: WorkerPlan)
    requires DrawFits(b, d)
    ensures p.worker == w && p.items == Selected(b, d) && p.minutes == d.minutes
    ensures |p.levels| == |p.items|
  {
    var t := TierOf(d.tierDraw);
    WorkerPlan(w, Selected(b, d), seq(|d.levelDraws|, k requires 0 <= k < |d.levelDraws| => LevelFor(t, d.levelDraws[k])), d.minutes)
  }

  /** A worker gets 15 to 30 items, every level of its tier, and a move of 5 to
      15 minutes. */
  predicate PlanFits(p: WorkerPlan)
  {
    && |p.items| == |p.levels| && 15 <= |p.items| <= 30
    && (forall k :: 0 <= k < |p.levels| ==> 1 <= p.levels[k] <= 5)
    && 5 <= p.minutes <= 15
  }

  lemma PlanOfFits(w: DbWorker, b: Buckets, d: WorkerDraw)
    requires DrawFits(b, d)
    ensures PlanFits(PlanOf(w, b, d))
    ensures forall k :: 0 <= k < |PlanOf(w, b, d).levels| ==> PlanOf(w, b, d).levels[k] in LevelSet(TierOf(d.tierDraw))
  {
  }

  function Plans(ws: seq<DbWorker>, b: Buckets, ds: seq<WorkerDraw>): (ps: seq<WorkerPlan>)
    requires |ds| == |ws| && AllFit(b, ds)
    ensures |ps| == |ws|
  {
    seq(|ws|, i requires 0 <= i < |ws| => PlanOf(ws[i], b, ds[i]))
  }

  /** One row of `supervisor_assessments`; `at` is in minutes after the start. */
  datatype AssessmentRow = AssessmentRow(
    workerId: int, itemId: int, level: int, assessedBy: string, at: int, comment: string)

  function Comment(w: DbWorker): string
  {
    "Test assessment for " + w.name
  }

  function ItemRow(w: DbWorker, item: ItemRef, level: int, at: int): AssessmentRow
  {
    AssessmentRow(w.id, item.id, level, "Test Supervisor", at, Comment(w))
  }

  /** The rows written for one worker, all at the worker's timestamp. */
  function PlanRows(p: WorkerPlan, at: int): (rows: seq<AssessmentRow>)
  {
    var n := Min(|p.items|, |p.levels|);
    seq(n, k requires 0 <= k < n => ItemRow(p.worker, p.items[k], p.levels[k], at))
  }

  /** The minutes the timestamp has moved on after the planned workers. */
  function Elapsed(ps: seq<WorkerPlan>): int
  {
    if ps == [] then 0 else Elapsed(ps[..|ps| - 1]) + ps[|ps| - 1].minutes
  }

  /** The rows for the planned workers, the first of them at minute 0, each next
      one when the timestamp has moved on after the ones before. */
  function Rows(ps: seq<WorkerPlan>): seq<AssessmentRow>
  {
    if ps == [] then []
    else
      var init := ps[..|ps| - 1];
      Rows(init) + PlanRows(ps[|ps| - 1], Elapsed(init))
  }

  predicate AllPlansFit(ps: seq<WorkerPlan>)
  {
    forall i :: 0 <= i < |ps| ==> PlanFits(ps[i])
  }

  lemma PlansFit(ws: seq<DbWorker>, b: Buckets, ds: seq<WorkerDraw>)
    requires |ds| == |ws| && AllFit(b, ds)
    ensures AllPlansFit(Plans(ws, b, ds))
  {
    forall i | 0 <= i < |ws| ensures PlanFits(Plans(ws, b, ds)[i]) {
      PlanOfFits(ws[i], b, ds[i]);
    }
  }

  lemma InitFits(ps: seq<WorkerPlan>)
    requires ps != [] && AllPlansFit(ps)
    ensures AllPlansFit(ps[..|ps| - 1]) && PlanFits(ps[|ps| - 1])
  {
    var init := ps[..|ps| - 1];
    forall i | 0 <= i < |init| ensures PlanFits(init[i]) {
      assert init[i] == ps[i];
    }
  }

  /** 15 to 30 rows per worker. */
  lemma {:induction false} RowsCount(ps: seq<WorkerPlan>)
    requires AllPlansFit(ps)
    ensures 15 * |ps| <= |Rows(ps)| <= 30 * |ps|
  {
    if ps != [] {
      InitFits(ps);
      RowsCount(ps[..|ps| - 1]);
    }
  }

  /** The timestamp moves on 5 to 15 minutes per worker. */
  lemma {:induction false} ElapsedBounds(ps: seq<WorkerPlan>)
    requires AllPlansFit(ps)
    ensures 5 * |ps| <= Elapsed(ps) <= 15 * |ps|
  {
    if ps != [] {
      InitFits(ps);
      ElapsedBounds(ps[..|ps| - 1]);
    }
  }

  predicate RowShape(row: AssessmentRow)
  {
    row.assessedBy == "Test Supervisor" && 1 <= row.level <= 5
  }

  /** Every row of a worker is for one of its sampled items, by the test
      supervisor, with a level in 1..5, at the worker's timestamp, with the
      worker's comment. */
  lemma PlanRowsShape(p: WorkerPlan, at: int)
    requires PlanFits(p)
    ensures |PlanRows(p, at)| == |p.items|
    ensures forall k :: 0 <= k < |PlanRows(p, at)| ==>
      var row := PlanRows(p, at)[k];
      && RowShape(row) && row.at == at
      && row.workerId == p.worker.id && row.itemId == p.items[k].id && row.level == p.levels[k]
      && row.comment == "Test assessment for " + p.worker.name
  {
  }

  /** What holds of every row written so far: its shape, and a timestamp
      between the start and the current one. */
  predicate RowsWithin(rows: seq<AssessmentRow>, now: int)
  {
    forall k :: 0 <= k < |rows| ==> RowShape(rows[k]) && 0 <= rows[k].at <= now
  }

  lemma WithinAppend(init: seq<AssessmentRow>, block: seq<AssessmentRow>, at: int, now: int)
    requires 0 <= at <= now && RowsWithin(init, at)
    requires forall k :: 0 <= k < |block| ==> RowShape(block[k]) && block[k].at == at
    ensures RowsWithin(init + block, now)
  {
    var rows := init + block;
    forall k | 0 <= k < |rows| ensures RowShape(rows[k]) && 0 <= rows[k].at <= now {
      if k < |init| {
        assert rows[k] == init[k];
      } else {
        assert rows[k] == block[k - |init|];
      }
    }
  }

  /** Every row is by the test supervisor with a level in 1..5, and none is
      before the start or after the final timestamp. */
  lemma {:induction false} RowsShape(ps: seq<WorkerPlan>)
    requires AllPlansFit(ps)
    ensures RowsWithin(Rows(ps), Elapsed(ps))
  {
    if ps != [] {
      var init := ps[..|ps| - 1];
      InitFits(ps);
      RowsShape(init);
      ElapsedBounds(init);
      PlanRowsShape(ps[|ps| - 1], Elapsed(init));
      WithinAppend(Rows(init), PlanRows(ps[|ps| - 1], Elapsed(init)), Elapsed(init), Elapsed(ps));
    }
  }

  predicate Ordered(rows: seq<AssessmentRow>)
  {
    forall j, k :: 0 <= j < k < |rows| ==> rows[j].at <= rows[k].at
  }

  lemma OrderedAppend(init: seq<AssessmentRow>, block: seq<AssessmentRow>, at: int)
    requires Ordered(init)
    requires forall k :: 0 <= k < |init| ==> init[k].at <= at
    requires forall k :: 0 <= k < |block| ==> block[k].at == at
    ensures Ordered(init + block)
  {
    var rows := init + block;
    forall j, k | 0 <= j < k < |rows| ensures rows[j].at <= rows[k].at {
      if k < |init| {
        assert rows[j] == init[j] && rows[k] == init[k];
      } else if j < |init| {
        assert rows[j] == init[j] && rows[k] == block[k - |init|];
      } else {
        assert rows[j] == block[j - |init|] && rows[k] == block[k - |init|];
      }
    }
  }

  /** The timestamps never go back: a later row is never earlier. */
  lemma {:induction false} RowsOrdered(ps: seq<WorkerPlan>)
    requires AllPlansFit(ps)
    ensures Ordered(Rows(ps))
  {
    if ps != [] {
      var init := ps[..|ps| - 1];
      InitFits(ps);
      RowsOrdered(init);
      RowsShape(init);
      PlanRowsShape(ps[|ps| - 1], Elapsed(init));
      OrderedAppend(Rows(init), PlanRows(ps[|ps| - 1], Elapsed(init)), Elapsed(init));
    }
  }

  /** The inner loop: one row per sampled item, with a level drawn for the tier. */
  method InsertItems(worker: DbWorker, selectedItems: seq<ItemRef>, tier: Tier, levelDraws: seq<real>, at: int)
    returns (block: seq<AssessmentRow>)
    requires |levelDraws| == |selectedItems|
    ensures |block| == |selectedItems|
    ensures forall k :: 0 <= k < |block| ==> block[k] == ItemRow(worker, selectedItems[k], LevelFor(tier, levelDraws[k]), at)
  {
    block := [];
    for k := 0 to |selectedItems|
      invariant |block| == k
      invariant forall j :: 0 <= j < k ==> block[j] == ItemRow(worker, selectedItems[j], LevelFor(tier, levelDraws[j]), at)
    {
      var item := selectedItems[k];
      var level := LevelFor(tier, levelDraws[k]);
      block := block + [AssessmentRow(worker.id, item.id, level, "Test Supervisor", at, "Test assessment for " + worker.name)];
    }
  }

  /** One pass of the worker loop: draw the tier, sample each category, then
      insert the items. */
  method WorkerBlock(worker: DbWorker, b: Buckets, d: WorkerDraw, at: int) returns (block: seq<AssessmentRow>)
    requires DrawFits(b, d)
    ensures block == PlanRows(PlanOf(worker, b, d), at)
  {
    var tier := TierOf(d.tierDraw);
    var selectedItems := Sample(b.level2, d.level2);
    selectedItems := selectedItems + Sample(b.level3, d.level3);
    selectedItems := selectedItems + Sample(b.level4, d.level4);
    block := InsertItems(worker, selectedItems, tier, d.levelDraws, at);
  }

  /** The generation loop for `ws`, starting at minute 0: returns the rows,
      `assessments_created` and the final timestamp. */
  method GenerateRows(ws: seq<DbWorker>, b: Buckets, ds: seq<WorkerDraw>)
    returns (rows: seq<AssessmentRow>, assessmentsCreated: nat, at: int)
    requires |ds| == |ws| && AllFit(b, ds)
    ensures rows == Rows(Plans(ws, b, ds)) && at == Elapsed(Plans(ws, b, ds))
    ensures assessmentsCreated == |rows|
  {
    ghost var ps := Plans(ws, b, ds);
    rows := [];
    assessmentsCreated := 0;
    at := 0;
    for i := 0 to |ws|
      invariant rows == Rows(ps[..i]) && at == Elapsed(ps[..i])
      invariant assessmentsCreated == |rows|
    {
      var d := ds[i];
      var block := WorkerBlock(ws[i], b, d, at);
      assert ps[..i + 1][..i] == ps[..i];
      assert ps[i] == PlanOf(ws[i], b, d);
      rows := rows + block;
      assessmentsCreated := assessmentsCreated + |block|;
      at := at + d.minutes;
    }
    assert ps[..|ws|] == ps;
  }

  function BucketsOf(items: seq<DbItem>): Buckets
  {
    Buckets(RefsIn(items, "Level2"), RefsIn(items, "Level3"), RefsIn(items, "Level4"))
  }

  predicate AllKnown(items: seq<DbItem>)
  {
    forall k :: 0 <= k < |items| ==> KnownCategory(items[k].category)
  }

  /** A category too small for `randint(5, min(10, len(items)))`. */
  predicate SomeShort(b: Buckets)
  {
    |b.level2| < 5 || |b.level3| < 5 || |b.level4| < 5
  }

  /** The whole script: group the items, then generate. For the first worker a
      category with fewer than 5 items makes `randint` raise, and nothing is
      committed. The result holds the rows and `assessments_created`. */
  method Run(ws: seq<DbWorker>, items: seq<DbItem>, ds: seq<WorkerDraw>)
    returns (r: Result<(seq<AssessmentRow>, nat), ScriptError>)
    requires |ds| == |ws|
    requires AllKnown(items) && !SomeShort(BucketsOf(items)) ==> AllFit(BucketsOf(items), ds)
    ensures r.Err? && r.error.KeyError? <==> !AllKnown(items)
    ensures r.Err? && r.error == ValueError <==> AllKnown(items) && ws != [] && SomeShort(BucketsOf(items))
    ensures r.Ok? ==> ws == [] || AllFit(BucketsOf(items), ds)
    ensures r.Ok? && ws != [] ==> r.value.0 == Rows(Plans(ws, BucketsOf(items), ds))
    ensures r.Ok? ==> r.value.1 == |r.value.0| && (ws == [] ==> r.value.0 == [])
  {
    var grouped := GroupItems(items);
    if grouped.Err? {
      return Err(grouped.error);
    }
    var b := grouped.value;
    if ws == [] {
      return Ok(([], 0));
    }
    if |b.level2| < 5 || |b.level3| < 5 || |b.level4| < 5 {
      return Err(ValueError);
    }
    var rows, created, _ := GenerateRows(ws, b, ds);
    return Ok((rows, created));
  }

  /** A successful run writes 15 to 30 rows per worker, in timestamp order, all
      by the test supervisor with levels 1 to 5, within 5 to 15 minutes per
      worker of the start. */
  lemma RunRows(ws: seq<DbWorker>, b: Buckets, ds: seq<WorkerDraw>)
    requires |ds| == |ws| && AllFit(b, ds)
    ensures var ps := Plans(ws, b, ds);
      && 15 * |ws| <= |Rows(ps)| <= 30 * |ws|
      && Ordered(Rows(ps))
      && RowsWithin(Rows(ps), Elapsed(ps))
      && 5 * |ws| <= Elapsed(ps) <= 15 * |ws|
  {
    var ps := Plans(ws, b, ds);
    PlansFit(ws, b, ds);
    RowsCount(ps);
    RowsOrdered(ps);
    RowsShape(ps);
    ElapsedBounds(ps);
  }
}
