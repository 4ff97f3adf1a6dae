/** The cumulative skill-level rules of the API server (src/index.tsx): a worker holds
    Level N (N = 2..4) only when every item of the categories Level2 through LevelN is
    satisfied, a category being complete only when it has at least one item and all of
    them are satisfied. The server states this rule in four places, modelled here one
    by one, together with the per-row level of an uploaded assessment and the
    "final level" of the comprehensive export. */
module SkillLevel {
  import opened Common

  /** Item counts of one assessment category for one worker. */
  datatype CategoryStats = CategoryStats(total: int, satisfied: int)

  /** A category is complete when it has at least one item and all are satisfied. */
  predicate Complete(st: CategoryStats)
  {
    st.total > 0 && st.satisfied == st.total
  }

  /** Bulk assessment upload: the level written to `workers.current_level` from the
      per-category counts of Level2, Level3 and Level4. */
  function BulkFinalLevel(l2: CategoryStats, l3: CategoryStats, l4: CategoryStats): (level: int)
    ensures 1 <= level <= 4
    ensures level >= 2 <==> Complete(l2)
    ensures level >= 3 <==> Complete(l2) && Complete(l3)
    ensures level == 4 <==> Complete(l2) && Complete(l3) && Complete(l4)
  {
    var hasLevel2 := Complete(l2);
    var hasLevel3 := Complete(l3);
    var hasLevel4 := Complete(l4);
    var a := 1;
    var b := if hasLevel2 then 2 else a;
    var c := if hasLevel2 && hasLevel3 then 3 else b;
    if hasLevel2 && hasLevel3 && hasLevel4 then 4 else c
  }

  /** The level only grows when a category's counts become complete. */
  lemma BulkFinalLevelMonotone(l2: CategoryStats, l3: CategoryStats, l4: CategoryStats,
                               m2: CategoryStats, m3: CategoryStats, m4: CategoryStats)
    requires Complete(l2) ==> Complete(m2)
    requires Complete(l3) ==> Complete(m3)
    requires Complete(l4) ==> Complete(m4)
    ensures BulkFinalLevel(l2, l3, l4) <= BulkFinalLevel(m2, m3, m4)
  {
  }

  /** One row of the per-category query of the batch upload: category name, number of
      items of the position in that category, and how many of them are satisfied. */
  datatype CategoryRow = CategoryRow(category: string, totalItems: int, satisfiedItems: int)

  /** The `categoryMap` of the batch upload: category name to "fully satisfied";
      a later row for the same category overwrites an earlier one. */
  function CategoryMap(rows: seq<CategoryRow>): (m: map<string, bool>)
    ensures m.Keys == set r | r in rows :: r.category
    ensures forall c :: c in m ==>
      (m[c] <==> Complete(StatsOf(LastRowFor(rows, c).value)))
    decreases |rows|
  {
    if rows == [] then map[]
    else
      var last := rows[|rows| - 1];
      var m := CategoryMap(rows[..|rows| - 1]);
      CategoriesSnoc(rows);
      m[last.category := last.satisfiedItems == last.totalItems && last.totalItems > 0]
  }

  /** The loop of the batch upload that fills `categoryMap` with one `set` per
      category row. */
  method BuildCategoryMap(rows: seq<CategoryRow>) returns (categoryMap: map<string, bool>)
    ensures categoryMap == CategoryMap(rows)
  {
    categoryMap := map[];
    for i := 0 to |rows|
      invariant categoryMap == CategoryMap(rows[..i])
    {
      assert rows[..i + 1][..i] == rows[..i];
      var cat := rows[i];
      var isFullySatisfied := cat.satisfiedItems == cat.totalItems && cat.totalItems > 0;
      categoryMap := categoryMap[cat.category := isFullySatisfied];
    }
    assert rows[..|rows|] == rows;
  }

  lemma CategoriesSnoc(rows: seq<CategoryRow>)
    requires rows != []
    ensures (set r | r in rows :: r.category)
      == (set r | r in rows[..|rows| - 1] :: r.category) + {rows[|rows| - 1].category}
  {
    assert rows == rows[..|rows| - 1] + [rows[|rows| - 1]];
  }

  function StatsOf(r: CategoryRow): CategoryStats
  {
    CategoryStats(r.totalItems, r.satisfiedItems)
  }

  /** The last row of `rows` for category `c`, if any. */
  function LastRowFor(rows: seq<CategoryRow>, c: string): (r: Option<CategoryRow>)
    ensures r.None? <==> forall i :: 0 <= i < |rows| ==> rows[i].category != c
    ensures r.Some? ==> r.value in rows && r.value.category == c
    decreases |rows|
  {
    if rows == [] then None
    else if rows[|rows| - 1].category == c then Some(rows[|rows| - 1])
    else LastRowFor(rows[..|rows| - 1], c)
  }

  /** `categoryMap.get(c) === true`. */
  predicate MapComplete(m: map<string, bool>, c: string)
  {
    c in m && m[c]
  }

  /** Batch upload, last batch: the achieved level of one worker at one position,
      checked from the highest level down with cumulative requirements. */
  function BatchAchievedLevel(rows: seq<CategoryRow>): (level: int)
    ensures 1 <= level <= 4
    ensures level >= 2 <==> MapComplete(CategoryMap(rows), "Level2")
    ensures level >= 3 <==> MapComplete(CategoryMap(rows), "Level2")
                            && MapComplete(CategoryMap(rows), "Level3")
    ensures level == 4 <==> MapComplete(CategoryMap(rows), "Level2")
                            && MapComplete(CategoryMap(rows), "Level3")
                            && MapComplete(CategoryMap(rows), "Level4")
  {
    var categoryMap := CategoryMap(rows);
    var level2Complete := MapComplete(categoryMap, "Level2");
    var level3Complete := MapComplete(categoryMap, "Level3");
    var level4Complete := MapComplete(categoryMap, "Level4");
    if level2Complete && level3Complete && level4Complete then 4
    else if level2Complete && level3Complete then 3
    else if level2Complete then 2
    else 1
  }

  /** Stats of category `c` as the batch query reports them; zero items when absent. */
  function StatsFor(rows: seq<CategoryRow>, c: string): CategoryStats
  {
    match LastRowFor(rows, c)
    case None => CategoryStats(0, 0)
    case Some(r) => StatsOf(r)
  }

  /** The batch rule and the bulk rule agree on the same category counts. */
  lemma {:induction false} BatchAgreesWithBulk(rows: seq<CategoryRow>)
    ensures BatchAchievedLevel(rows)
      == BulkFinalLevel(StatsFor(rows, "Level2"), StatsFor(rows, "Level3"), StatsFor(rows, "Level4"))
  {
    var m := CategoryMap(rows);
    forall c | c in ["Level2", "Level3", "Level4"]
      ensures MapComplete(m, c) <==> Complete(StatsFor(rows, c))
    {
      var last := LastRowFor(rows, c);
      if last.Some? {
        assert last.value in rows;
        assert c in m;
      } else {
        assert c !in m;
      }
    }
  }

  /** One row of the worker-analysis query: a category, an item and whether any
      assessment of it reached level 2 (`is_satisfied` as 0/1 or a boolean). */
  datatype AnalysisRow = AnalysisRow(category: string, itemName: string, isSatisfied: JsValue)

  predicate RowSatisfied(r: AnalysisRow)
  {
    r.isSatisfied == Num(1) || r.isSatisfied == Bool(true)
  }

  /** Number of rows of category `c`. */
  function CountCategory(rows: seq<AnalysisRow>, c: string): nat
  {
    if rows == [] then 0
    else CountCategory(rows[..|rows| - 1], c) + (if rows[|rows| - 1].category == c then 1 else 0)
  }

  /** Number of satisfied rows of category `c`. */
  function CountSatisfied(rows: seq<AnalysisRow>, c: string): nat
  {
    if rows == [] then 0
    else
      var last := rows[|rows| - 1];
      CountSatisfied(rows[..|rows| - 1], c) + (if last.category == c && RowSatisfied(last) then 1 else 0)
  }

  /** The `levelSatisfaction` table of the worker analysis: for each category that
      occurs in the rows, its number of items and of satisfied items. */
  method LevelSatisfaction(rows: seq<AnalysisRow>) returns (m: map<string, CategoryStats>)
    ensures m.Keys == set r | r in rows :: r.category
    ensures forall c :: c in m ==>
      m[c] == CategoryStats(CountCategory(rows, c), CountSatisfied(rows, c))
  {
    m := map[];
    for i := 0 to |rows|
      invariant m.Keys == set r | r in rows[..i] :: r.category
      invariant forall c :: c in m ==>
        m[c] == CategoryStats(CountCategory(rows[..i], c), CountSatisfied(rows[..i], c))
    {
      var item := rows[i];
      assert rows[..i + 1][..i] == rows[..i];
      if item.category !in m {
        CountNone(rows[..i], item.category);
        m := m[item.category := CategoryStats(0, 0)];
      }
      var st := m[item.category];
      st := st.(total := st.total + 1);
      if RowSatisfied(item) {
        st := st.(satisfied := st.satisfied + 1);
      }
      m := m[item.category := st];
    }
    assert rows[..|rows|] == rows;
  }

  lemma {:induction false} CountNone(rows: seq<AnalysisRow>, c: string)
    requires c !in set r | r in rows :: r.category
    ensures CountCategory(rows, c) == 0 && CountSatisfied(rows, c) == 0
  {
    if rows != [] {
      var init := rows[..|rows| - 1];
      assert rows[|rows| - 1] in rows;
      assert forall r :: r in init ==> r in rows;
      CountNone(init, c);
    }
  }

  /** The category names the analysis looks up for level `n`: "Level2", then "Level 2". */
  function LevelKey(n: int): string
    requires 2 <= n <= 4
  {
    "Level" + [('0' as int + n) as char]
  }

  function LevelKeySpaced(n: int): string
    requires 2 <= n <= 4
  {
    "Level " + [('0' as int + n) as char]
  }

  /** `levelSatisfaction[levelKey] || levelSatisfaction[levelKey2]`. */
  function StatsLookup(m: map<string, CategoryStats>, n: int): Option<CategoryStats>
    requires 2 <= n <= 4
  {
    if LevelKey(n) in m then Some(m[LevelKey(n)])
    else if LevelKeySpaced(n) in m then Some(m[LevelKeySpaced(n)])
    else None
  }

  predicate LevelDone(m: map<string, CategoryStats>, n: int)
    requires 2 <= n <= 4
  {
    StatsLookup(m, n).Some? && Complete(StatsLookup(m, n).value)
  }

  /** Worker analysis: the highest level N such that every level 2..N is complete,
      found by a loop that stops at the first incomplete level. */
  method AnalysisFinalLevel(m: map<string, CategoryStats>) returns (finalLevel: int)
    ensures 1 <= finalLevel <= 4
    ensures finalLevel >= 2 <==> LevelDone(m, 2)
    ensures finalLevel >= 3 <==> LevelDone(m, 2) && LevelDone(m, 3)
    ensures finalLevel == 4 <==> LevelDone(m, 2) && LevelDone(m, 3) && LevelDone(m, 4)
  {
    finalLevel := 1;
    var level := 2;
    while level <= 4
      invariant 2 <= level <= 5
      invariant finalLevel == level - 1
      invariant forall k :: 2 <= k < level ==> LevelDone(m, k)
    {
      var stats := StatsLookup(m, level);
      if stats.Some? && stats.value.satisfied == stats.value.total && stats.value.total > 0 {
        finalLevel := level;
      } else {
        break;
      }
      level := level + 1;
    }
  }

  /** The analysis rule agrees with the bulk rule on the stats it looks up. */
  lemma AnalysisAgreesWithBulk(m: map<string, CategoryStats>, level: int)
    requires 1 <= level <= 4
    requires level >= 2 <==> LevelDone(m, 2)
    requires level >= 3 <==> LevelDone(m, 2) && LevelDone(m, 3)
    requires level == 4 <==> LevelDone(m, 2) && LevelDone(m, 3) && LevelDone(m, 4)
    ensures level == BulkFinalLevel(Stats(m, 2), Stats(m, 3), Stats(m, 4))
  {
    assert LevelDone(m, 2) <==> Complete(Stats(m, 2));
    assert LevelDone(m, 3) <==> Complete(Stats(m, 3));
    assert LevelDone(m, 4) <==> Complete(Stats(m, 4));
  }

  function Stats(m: map<string, CategoryStats>, n: int): CategoryStats
    requires 2 <= n <= 4
  {
    match StatsLookup(m, n)
    case None => CategoryStats(0, 0)
    case Some(st) => st
  }

  /** The two count rows the level recalculation reads for one level: the number of
      items of the category and the number of the worker's assessments that satisfy
      one. `None` is a row the query did not return (`null`). */
  datatype LevelCounts = LevelCounts(items: Option<int>, satisfied: Option<int>)

  /** Both rows present, at least one item, and as many satisfied assessments as items. */
  predicate CountsComplete(c: LevelCounts)
  {
    c.items.Some? && c.satisfied.Some? && c.items.value > 0 && c.satisfied.value == c.items.value
  }

  /** `row?.count || 0`. */
  function CountOrZero(o: Option<int>): int
  {
    if o.Some? then o.value else 0
  }

  /** The counts as category stats, a missing row counting as zero. */
  function CountsStats(c: LevelCounts): CategoryStats
  {
    CategoryStats(CountOrZero(c.items), CountOrZero(c.satisfied))
  }

  /** Level recalculation: `hasAllLevel3` and `hasAllLevel4` include the levels below,
      and the three `if`s raise the level in turn. */
  function RecalcFinalLevel(l2: LevelCounts, l3: LevelCounts, l4: LevelCounts): (level: int)
    ensures 1 <= level <= 4
    ensures level >= 2 <==> CountsComplete(l2)
    ensures level >= 3 <==> CountsComplete(l2) && CountsComplete(l3)
    ensures level == 4 <==> CountsComplete(l2) && CountsComplete(l3) && CountsComplete(l4)
  {
    var hasAllLevel2 := CountsComplete(l2);
    var hasAllLevel3 := hasAllLevel2 && CountsComplete(l3);
    var hasAllLevel4 := hasAllLevel2 && hasAllLevel3 && CountsComplete(l4);
    var a := 1;
    var b := if hasAllLevel2 then 2 else a;
    var c := if hasAllLevel3 then 3 else b;
    if hasAllLevel4 then 4 else c
  }

  /** The recalculation and the bulk rule agree, a missing count row counting as zero. */
  lemma RecalcAgreesWithBulk(l2: LevelCounts, l3: LevelCounts, l4: LevelCounts)
    ensures RecalcFinalLevel(l2, l3, l4) == BulkFinalLevel(CountsStats(l2), CountsStats(l3), CountsStats(l4))
  {
    assert CountsComplete(l2) <==> Complete(CountsStats(l2));
    assert CountsComplete(l3) <==> Complete(CountsStats(l3));
    assert CountsComplete(l4) <==> Complete(CountsStats(l4));
  }

  /** One worker as the recalculation sees it. */
  datatype WorkerLevelCounts = WorkerLevelCounts(employeeId: JsValue, l2: LevelCounts, l3: LevelCounts, l4: LevelCounts)

  /** One entry of the recalculation's `results`. */
  datatype RecalcRow = RecalcRow(
    employeeId: JsValue, finalLevel: int,
    level2Count: int, level2Total: int, level3Count: int, level3Total: int, level4Count: int, level4Total: int)

  function RecalcRowOf(w: WorkerLevelCounts): RecalcRow
  {
    RecalcRow(w.employeeId, RecalcFinalLevel(w.l2, w.l3, w.l4),
              CountOrZero(w.l2.satisfied), CountOrZero(w.l2.items),
              CountOrZero(w.l3.satisfied), CountOrZero(w.l3.items),
              CountOrZero(w.l4.satisfied), CountOrZero(w.l4.items))
  }

  /** The recalculation loop over all workers: every worker is counted, and the
      response shows the rows of the first 20. */
  method RecalculateLevels(workers: seq<WorkerLevelCounts>) returns (updatedCount: nat, shown: seq<RecalcRow>)
    ensures updatedCount == |workers|
    ensures |shown| == if |workers| < 20 then |workers| else 20
    ensures forall k :: 0 <= k < |shown| ==> shown[k] == RecalcRowOf(workers[k])
  {
    updatedCount := 0;
    var results: seq<RecalcRow> := [];
    for i := 0 to |workers|
      invariant updatedCount == i && |results| == i
      invariant forall k :: 0 <= k < i ==> results[k] == RecalcRowOf(workers[k])
    {
      var worker := workers[i];
      var finalLevel := RecalcFinalLevel(worker.l2, worker.l3, worker.l4);
      results := results + [RecalcRow(worker.employeeId, finalLevel,
        CountOrZero(worker.l2.satisfied), CountOrZero(worker.l2.items),
        CountOrZero(worker.l3.satisfied), CountOrZero(worker.l3.items),
        CountOrZero(worker.l4.satisfied), CountOrZero(worker.l4.items))];
      updatedCount := updatedCount + 1;
    }
    shown := if |results| < 20 then results else results[..20];
  }

  /** `RESULT` of an uploaded assessment row counts as satisfied only for
      `true`, `'TRUE'`, `'true'` or `1`. */
  predicate IsSatisfiedValue(v: JsValue)
  {
    v == Bool(true) || v == Str("TRUE") || v == Str("true") || v == Num(1)
  }

  /** The item category lower-cased with all whitespace removed. */
  function NormalizedCategory(category: string): string
  {
    StripSpaces(ToLower(category))
  }

  /** Bulk assessment upload: the level stored for one row. `result` and `resultUpper`
      are the row's `result` and `RESULT` columns; `category` is the matched item's. */
  function RowLevel(result: JsValue, resultUpper: JsValue, category: string): (level: int)
    ensures 1 <= level <= 4
    ensures !IsSatisfiedValue(Or(result, resultUpper)) ==> level == 1
    ensures IsSatisfiedValue(Or(result, resultUpper)) ==>
      && (level == 2 <==> NormalizedCategory(category) == "level2")
      && (level == 3 <==> NormalizedCategory(category) == "level3")
      && (level == 4 <==> NormalizedCategory(category) == "level4")
  {
    var resultValue := Or(result, resultUpper);
    var isSatisfied := resultValue == Bool(true) || resultValue == Str("TRUE")
                       || resultValue == Str("true") || resultValue == Num(1);
    if !isSatisfied then 1
    else
      var normalizedCategory := StripSpaces(ToLower(category));
      if normalizedCategory == "level2" then 2
      else if normalizedCategory == "level3" then 3
      else if normalizedCategory == "level4" then 4
      else 1
  }

  /** Positions whose final level needs both the written test and the assessment. */
  const BothTestPositions: set<string> := {
    "CUTTING", "BEVELING", "BENDING", "LS WELDING", "FIT UP", "CS WELDING",
    "VTMT", "BRACKET FU", "BRACKET WELD", "UT REPAIR", "DOOR FRAME FU",
    "DOOR FRAME WELD", "FLATNESS", "BLASTING", "METALIZING", "PAINTING",
    "ASSEMBLY", "IM CABLE"
  }

  /** Comprehensive export: the final level of one worker from the latest written-test
      score (None when the worker has no result), the stored supervisor level
      (None for NULL) and the position (None for NULL). */
  function ExportFinalLevel(writtenTestScore: Option<real>, currentLevel: Option<int>,
                            position: Option<string>): (finalLevel: int)
    ensures var score := if writtenTestScore.Some? then writtenTestScore.value else 0.0;
      var supervisorLevel := if currentLevel.Some? && currentLevel.value != 0 then currentLevel.value else 1;
      var pos := if position.Some? then position.value else "";
      && (pos in BothTestPositions && score >= 60.0 ==> finalLevel == supervisorLevel)
      && (pos in BothTestPositions && score < 60.0 ==> finalLevel == 1)
      && (pos !in BothTestPositions ==> finalLevel == supervisorLevel)
    ensures finalLevel == 1 || (currentLevel.Some? && finalLevel == currentLevel.value)
  {
    var score := match writtenTestScore case Some(s) => s case None => 0.0;
    var supervisorLevel := match currentLevel case Some(l) => (if l != 0 then l else 1) case None => 1;
    var pos := match position case Some(p) => p case None => "";
    if pos in BothTestPositions then (if score >= 60.0 then supervisorLevel else 1)
    else supervisorLevel
  }
}
