/** The supervisor assessment session of the browser client (public/static/app.js):
    the items of a process are filtered and shuffled, the supervisor marks them one
    after the other as satisfied or not, and at the end the results are tallied per
    level category and a final level is computed and sent with every result row.
    The DOM, the alerts and the HTTP calls are left out; the random draws of the
    shuffle are parameters. */
module ClientAssessment {
  import opened Common
  import opened SkillLevel

  // ------------------------------------------------------------- shuffling ----

  /** The index `Math.floor(u * (i + 1))` drawn for position `i`. */
  function Pick(u: real, i: nat): (j: nat)
    requires 0.0 <= u < 1.0
    ensures j <= i
  {
    ScaledFloor(u, i + 1);
    (u * (i + 1) as real).Floor
  }

  predicate Draws(draws: seq<real>)
  {
    forall k :: 0 <= k < |draws| ==> 0.0 <= draws[k] < 1.0
  }

  function Swap<T>(s: seq<T>, i: nat, j: nat): (r: seq<T>)
    requires i < |s| && j < |s|
    ensures |r| == |s| && r[i] == s[j] && r[j] == s[i]
    ensures forall k :: 0 <= k < |s| && k != i && k != j ==> r[k] == s[k]
  {
    s[i := s[j]][j := s[i]]
  }

  /** The Fisher–Yates passes for positions `i`, `i - 1`, ..., 1 of `s`; the draw
      for position `k` is `draws[k]`. */
  function FisherYates<T>(s: seq<T>, draws: seq<real>, i: int): seq<T>
    requires i < |s| && |draws| == |s| && Draws(draws)
    decreases i
  {
    if i <= 0 then s
    else FisherYates(Swap(s, i, Pick(draws[i], i)), draws, i - 1)
  }

  lemma SwapPermutes<T>(s: seq<T>, i: nat, j: nat)
    requires i < |s| && j < |s|
    ensures multiset(Swap(s, i, j)) == multiset(s)
  {
    var t := s[i := s[j]];
    assert multiset(t) == multiset(s) - multiset{s[i]} + multiset{s[j]};
    assert t[j] == (if i == j then s[j] else s[j]);
  }

  /** The passes only exchange elements: the result is a permutation of the input. */
  lemma {:induction false} FisherYatesPermutes<T>(s: seq<T>, draws: seq<real>, i: int)
    requires i < |s| && |draws| == |s| && Draws(draws)
    ensures |FisherYates(s, draws, i)| == |s|
    ensures multiset(FisherYates(s, draws, i)) == multiset(s)
    decreases i
  {
    if i > 0 {
      var j := Pick(draws[i], i);
      SwapPermutes(s, i, j);
      FisherYatesPermutes(Swap(s, i, j), draws, i - 1);
    }
  }

  lemma FisherYatesStep<T>(s: seq<T>, draws: seq<real>, i: nat)
    requires 0 < i < |s| && |draws| == |s| && Draws(draws)
    ensures FisherYates(s, draws, i) == FisherYates(Swap(s, i, Pick(draws[i], i)), draws, i - 1)
  {
  }

  /** `shuffleArray`: a copy of the input shuffled in place from the last position
      down to position 1; the input itself is a value and stays as it was. */
  method ShuffleArray<T>(input: seq<T>, draws: seq<real>) returns (shuffled: seq<T>)
    requires |draws| == |input| && Draws(draws)
    ensures shuffled == FisherYates(input, draws, |input| - 1)
    ensures |shuffled| == |input| && multiset(shuffled) == multiset(input)
  {
    var a := new T[|input|](k requires 0 <= k < |input| => input[k]);
    assert a[..] == input;
    var i := a.Length - 1;
    while i > 0
      invariant -1 <= i < a.Length
      invariant FisherYates(a[..], draws, i) == FisherYates(input, draws, |input| - 1)
      decreases i
    {
      var j := Pick(draws[i], i);
      ghost var before := a[..];
      a[i], a[j] := a[j], a[i];
      assert a[..] == Swap(before, i, j);
      FisherYatesStep(before, draws, i);
      i := i - 1;
    }
    shuffled := a[..];
    FisherYatesPermutes(input, draws, |input| - 1);
  }

  // ------------------------------------------------------ level extraction ----

  /** The level a category names: `general`, or the number `N` of `Level N`. */
  datatype LevelKey = General | Level(n: nat)

  /** `result.category || '기타'`. */
  function CategoryText(category: Option<string>): (c: string)
    ensures c != []
    ensures category.Some? && category.value != [] ==> c == category.value
    ensures !(category.Some? && category.value != []) ==> c == "기타"
  {
    if category.Some? && category.value != [] then category.value else "기타"
  }

  /** End of the run of characters satisfying `p` that starts at `q`. */
  function RunEnd(s: string, q: nat, p: char -> bool): (r: nat)
    requires q <= |s|
    ensures q <= r <= |s|
    ensures forall k :: q <= k < r ==> p(s[k])
    ensures r == |s| || !p(s[r])
    decreases |s| - q
  {
    if q < |s| && p(s[q]) then RunEnd(s, q + 1, p) else q
  }

  /** A case-insensitive `level` starting at `p`, followed by optional whitespace
      and at least one digit: where `/level\s*(\d+)/i` matches. */
  predicate LevelWordAt(s: string, p: nat)
  {
    && p + 5 <= |s|
    && ToLower(s[p..p + 5]) == "level"
    && var q := RunEnd(s, p + 5, IsSpace); q < |s| && IsDigit(s[q])
  }

  /** An `l` or `L` followed by a digit: where `/l(\d+)/i` matches. */
  predicate ShortFormAt(s: string, p: nat)
  {
    p + 1 < |s| && (s[p] == 'l' || s[p] == 'L') && IsDigit(s[p + 1])
  }

  /** The leftmost `level` match at or after `p`. */
  function FirstLevelWord(s: string, p: nat): (r: Option<nat>)
    requires p <= |s|
    ensures r.Some? ==> p <= r.value < |s| && LevelWordAt(s, r.value)
    ensures r.Some? ==> forall q :: p <= q < r.value ==> !LevelWordAt(s, q)
    ensures r.None? ==> forall q :: p <= q < |s| ==> !LevelWordAt(s, q)
    decreases |s| - p
  {
    if p == |s| then None else if LevelWordAt(s, p) then Some(p) else FirstLevelWord(s, p + 1)
  }

  /** The leftmost `l`-and-digit match at or after `p`. */
  function FirstShortForm(s: string, p: nat): (r: Option<nat>)
    requires p <= |s|
    ensures r.Some? ==> p <= r.value < |s| && ShortFormAt(s, r.value)
    ensures r.Some? ==> forall q :: p <= q < r.value ==> !ShortFormAt(s, q)
    ensures r.None? ==> forall q :: p <= q < |s| ==> !ShortFormAt(s, q)
    decreases |s| - p
  {
    if p == |s| then None else if ShortFormAt(s, p) then Some(p) else FirstShortForm(s, p + 1)
  }

  /** `parseInt` of a string of decimal digits. */
  function DigitsValue(d: string): nat
  {
    if d == [] then 0 else 10 * DigitsValue(d[..|d| - 1]) + (if IsDigit(d[|d| - 1]) then d[|d| - 1] as int - '0' as int else 0)
  }

  /** The digits of the group `(\d+)` that starts at `q`. */
  function DigitsAt(s: string, q: nat): string
    requires q <= |s|
  {
    s[q..RunEnd(s, q, IsDigit)]
  }

  /** The level key of `completeAssessment` for one category. */
  function LevelOf(category: string): (k: LevelKey)
    ensures k == General <==>
      (forall p :: 0 <= p < |category| ==> !LevelWordAt(category, p) && !ShortFormAt(category, p))
  {
    match FirstLevelWord(category, 0)
    case Some(p) =>
      Level(DigitsValue(DigitsAt(category, RunEnd(category, p + 5, IsSpace))))
    case None =>
      match FirstShortForm(category, 0)
      case Some(p) => Level(DigitsValue(DigitsAt(category, p + 1)))
      case None => General
  }

  /** A result without a category is tallied under `general`: the placeholder
      names no level. */
  lemma UncategorisedIsGeneral(category: Option<string>)
    requires !(category.Some? && category.value != [])
    ensures LevelOf(CategoryText(category)) == General
  {
    var s := CategoryText(category);
    forall p | 0 <= p < |s| ensures !LevelWordAt(s, p) && !ShortFormAt(s, p) { }
  }

  /** The leftmost `level` match decides the level, whatever follows it. */
  lemma LevelOfLeftmostWord(s: string, p: nat)
    requires LevelWordAt(s, p)
    requires forall q :: 0 <= q < p ==> !LevelWordAt(s, q)
    ensures LevelOf(s) == Level(DigitsValue(DigitsAt(s, RunEnd(s, p + 5, IsSpace))))
  {
    LeftmostLevelWord(s, 0, p);
  }

  /** Without any `level` match, the leftmost `l` followed by digits decides. */
  lemma LevelOfLeftmostShortForm(s: string, p: nat)
    requires forall q :: 0 <= q < |s| ==> !LevelWordAt(s, q)
    requires ShortFormAt(s, p)
    requires forall q :: 0 <= q < p ==> !ShortFormAt(s, q)
    ensures LevelOf(s) == Level(DigitsValue(DigitsAt(s, p + 1)))
  {
    assert FirstLevelWord(s, 0) == None;
    LeftmostShortForm(s, 0, p);
  }

  lemma {:induction false} LeftmostLevelWord(s: string, q: nat, p: nat)
    requires q <= p && LevelWordAt(s, p)
    requires forall k :: q <= k < p ==> !LevelWordAt(s, k)
    ensures FirstLevelWord(s, q) == Some(p)
    decreases p - q
  {
    if q < p {
      LeftmostLevelWord(s, q + 1, p);
    }
  }

  lemma {:induction false} LeftmostShortForm(s: string, q: nat, p: nat)
    requires q <= p && ShortFormAt(s, p)
    requires forall k :: q <= k < p ==> !ShortFormAt(s, k)
    ensures FirstShortForm(s, q) == Some(p)
    decreases p - q
  {
    if q < p {
      LeftmostShortForm(s, q + 1, p);
    }
  }

  predicate AllDigits(d: string)
  {
    forall k :: 0 <= k < |d| ==> IsDigit(d[k])
  }

  /** "Level 2", "LEVEL  3", "level4": any spelling of `level`, any whitespace,
      then the digits. */
  lemma LevelOfSpelledLevel(w: string, sp: string, d: string)
    requires |w| == 5 && ToLower(w) == "level"
    requires forall k :: 0 <= k < |sp| ==> IsSpace(sp[k])
    requires d != [] && AllDigits(d)
    ensures LevelOf(w + sp + d) == Level(DigitsValue(d))
  {
    var s := w + sp + d;
    SpelledLevelParts(w, sp, d);
    assert LevelWordAt(s, 0);
    LevelOfLeftmostWord(s, 0);
  }

  lemma SpelledLevelParts(w: string, sp: string, d: string)
    requires |w| == 5 && ToLower(w) == "level"
    requires forall k :: 0 <= k < |sp| ==> IsSpace(sp[k])
    requires d != [] && AllDigits(d)
    ensures var s := w + sp + d;
      && s[..5] == w && RunEnd(s, 5, IsSpace) == 5 + |sp| && IsDigit(s[5 + |sp|])
      && DigitsAt(s, 5 + |sp|) == d
  {
    var s := w + sp + d;
    assert s[..5] == w;
    assert !IsSpace(s[5 + |sp|]) by { assert s[5 + |sp|] == d[0]; }
    SpaceRun(s, 5, |sp|);
    DigitRun(s, 5 + |sp|);
    assert s[5 + |sp|..] == d;
  }

  lemma {:induction false} SpaceRun(s: string, q: nat, n: nat)
    requires q + n <= |s|
    requires forall k :: q <= k < q + n ==> IsSpace(s[k])
    requires q + n == |s| || !IsSpace(s[q + n])
    ensures RunEnd(s, q, IsSpace) == q + n
    decreases n
  {
    if n > 0 {
      SpaceRun(s, q + 1, n - 1);
    }
  }

  lemma {:induction false} DigitRun(s: string, q: nat)
    requires q <= |s|
    requires forall k :: q <= k < |s| ==> IsDigit(s[k])
    ensures RunEnd(s, q, IsDigit) == |s|
    decreases |s| - q
  {
    if q < |s| {
      DigitRun(s, q + 1);
    }
  }

  /** "L2", "l3": a letter l and the digits. */
  lemma LevelOfShortForm(c: char, d: string)
    requires c == 'l' || c == 'L'
    requires d != [] && AllDigits(d)
    ensures LevelOf([c] + d) == Level(DigitsValue(d))
  {
    var s := [c] + d;
    assert forall k :: 1 <= k < |s| ==> s[k] == d[k - 1];
    forall q | 0 <= q < |s| ensures !LevelWordAt(s, q) {
      NoLevelWordBeforeDigit(s, q);
    }
    assert ShortFormAt(s, 0);
    LevelOfLeftmostShortForm(s, 0);
    DigitRun(s, 1);
    assert DigitsAt(s, 1) == s[1..] == d;
  }

  /** No `level` starts one place before a digit. */
  lemma NoLevelWordBeforeDigit(s: string, q: nat)
    requires q + 1 < |s| ==> IsDigit(s[q + 1])
    ensures !LevelWordAt(s, q)
  {
    if q + 5 <= |s| {
      assert ToLower(s[q..q + 5])[1] == LowerChar(s[q + 1]);
    }
  }

  // ----------------------------------------------------------- the session ----

  /** An assessment item; a `null` process id marks an item of every process. */
  datatype Item = Item(id: int, itemName: string, category: Option<string>, processId: Option<int>)

  /** One entry of `assessmentResults`. */
  datatype Entry = Entry(itemId: int, itemName: string, category: Option<string>, satisfied: bool)

  /** Per-level tally of `levelResults`. */
  datatype Tally = Tally(total: nat, satisfied: nat, items: seq<Entry>)

  /** One row of the submitted `assessments`. */
  datatype PayloadRow = PayloadRow(itemId: int, level: int)

  function KeyOfEntry(e: Entry): LevelKey
  {
    LevelOf(CategoryText(e.category))
  }

  /** The items offered for a process: its own and the general ones. */
  function ItemsFor(all: seq<Item>, processId: int): (r: seq<Item>)
    ensures forall k :: 0 <= k < |r| ==> r[k] in all && (r[k].processId == Some(processId) || r[k].processId == None)
    ensures forall x :: x in all && (x.processId == Some(processId) || x.processId == None) ==> x in r
    ensures |r| <= |all|
  {
    if all == [] then []
    else
      var last := all[|all| - 1];
      ItemsFor(all[..|all| - 1], processId) + (if last.processId == Some(processId) || last.processId == None then [last] else [])
  }

  /** `levelResults` after the `forEach` over the given results, with `keyOf`
      the category-to-level extraction. */
  function Tallies(rs: seq<Entry>, keyOf: Entry -> LevelKey): map<LevelKey, Tally>
  {
    if rs == [] then map[]
    else
      var m := Tallies(rs[..|rs| - 1], keyOf);
      var e := rs[|rs| - 1];
      var k := keyOf(e);
      var t := if k in m then m[k] else Tally(0, 0, []);
      m[k := Tally(t.total + 1, t.satisfied + (if e.satisfied then 1 else 0), t.items + [e])]
  }

  /** The results with level key `k`, in order. */
  function EntriesWith(rs: seq<Entry>, keyOf: Entry -> LevelKey, k: LevelKey): seq<Entry>
  {
    if rs == [] then []
    else EntriesWith(rs[..|rs| - 1], keyOf, k) + (if keyOf(rs[|rs| - 1]) == k then [rs[|rs| - 1]] else [])
  }

  function SatisfiedCount(rs: seq<Entry>): nat
  {
    if rs == [] then 0 else SatisfiedCount(rs[..|rs| - 1]) + (if rs[|rs| - 1].satisfied then 1 else 0)
  }

  /** Exactly the levels that occur are tallied; each tally holds, in order, the
      results of its level, their number and how many are satisfied. */
  lemma {:induction false} TalliesExact(rs: seq<Entry>, keyOf: Entry -> LevelKey, k: LevelKey)
    ensures k in Tallies(rs, keyOf) <==> EntriesWith(rs, keyOf, k) != []
    ensures k in Tallies(rs, keyOf) ==>
      var t := Tallies(rs, keyOf)[k];
      && t.items == EntriesWith(rs, keyOf, k)
      && t.total == |t.items| && t.satisfied == SatisfiedCount(t.items)
  {
    if rs != [] {
      var init := rs[..|rs| - 1];
      TalliesExact(init, keyOf, k);
      var e := rs[|rs| - 1];
      var m := Tallies(init, keyOf);
      if keyOf(e) == k {
        var items := EntriesWith(init, keyOf, k);
        assert EntriesWith(rs, keyOf, k) == items + [e];
        assert (items + [e])[..|items + [e]| - 1] == items;
        assert SatisfiedCount(items + [e]) == SatisfiedCount(items) + (if e.satisfied then 1 else 0);
      } else {
        assert EntriesWith(rs, keyOf, k) == EntriesWith(init, keyOf, k);
        assert Tallies(rs, keyOf) == m[keyOf(e) := Tallies(rs, keyOf)[keyOf(e)]];
      }
    }
  }

  /** A tallied level has at least one result, and no more satisfied than results. */
  lemma TallyBounds(rs: seq<Entry>, keyOf: Entry -> LevelKey, k: LevelKey)
    requires k in Tallies(rs, keyOf)
    ensures 0 < Tallies(rs, keyOf)[k].total
    ensures Tallies(rs, keyOf)[k].satisfied <= Tallies(rs, keyOf)[k].total
  {
    TalliesExact(rs, keyOf, k);
    SatisfiedAtMostAll(Tallies(rs, keyOf)[k].items);
  }

  lemma {:induction false} SatisfiedAtMostAll(rs: seq<Entry>)
    ensures SatisfiedCount(rs) <= |rs|
  {
    if rs != [] {
      SatisfiedAtMostAll(rs[..|rs| - 1]);
    }
  }

  /** A level group that exists with every result satisfied. */
  predicate GroupDone(m: map<LevelKey, Tally>, n: nat)
  {
    Level(n) in m && m[Level(n)].satisfied == m[Level(n)].total
  }

  /** The final level of `completeAssessment`. */
  function ClientFinalLevel(m: map<LevelKey, Tally>): (level: int)
    ensures 1 <= level <= 4
    ensures level >= 2 <==> GroupDone(m, 2)
    ensures level >= 3 <==> GroupDone(m, 2) && GroupDone(m, 3)
    ensures level == 4 <==> GroupDone(m, 2) && GroupDone(m, 3) && GroupDone(m, 4)
  {
    if GroupDone(m, 2) then
      if GroupDone(m, 3) then
        if GroupDone(m, 4) then 4 else 3
      else 2
    else 1
  }

  function StatsOfTally(m: map<LevelKey, Tally>, n: nat): CategoryStats
  {
    if Level(n) in m then CategoryStats(m[Level(n)].total, m[Level(n)].satisfied) else CategoryStats(0, 0)
  }

  /** On the tallies of any session, the client's final level is the server's
      cumulative level of the bulk upload. */
  lemma ClientAgreesWithBulk(rs: seq<Entry>, keyOf: Entry -> LevelKey)
    ensures var m := Tallies(rs, keyOf);
      ClientFinalLevel(m) == BulkFinalLevel(StatsOfTally(m, 2), StatsOfTally(m, 3), StatsOfTally(m, 4))
  {
    var m := Tallies(rs, keyOf);
    if Level(2) in m { TallyBounds(rs, keyOf, Level(2)); }
    if Level(3) in m { TallyBounds(rs, keyOf, Level(3)); }
    if Level(4) in m { TallyBounds(rs, keyOf, Level(4)); }
  }

  /** `assessmentResults.map(...)`: every row carries the session's final level. */
  function Payload(rs: seq<Entry>, finalLevel: int): (p: seq<PayloadRow>)
    ensures |p| == |rs|
    ensures forall k :: 0 <= k < |rs| ==> p[k].itemId == rs[k].itemId && p[k].level == finalLevel
  {
    seq(|rs|, k requires 0 <= k < |rs| => PayloadRow(rs[k].itemId, finalLevel))
  }

  /** The tally loop of `completeAssessment`. */
  method TallyResults(rs: seq<Entry>, keyOf: Entry -> LevelKey) returns (levelResults: map<LevelKey, Tally>)
    ensures levelResults == Tallies(rs, keyOf)
  {
    levelResults := map[];
    for i := 0 to |rs|
      invariant levelResults == Tallies(rs[..i], keyOf)
    {
      assert rs[..i + 1][..i] == rs[..i];
      var result := rs[i];
      var level := keyOf(result);
      var t := if level in levelResults then levelResults[level] else Tally(0, 0, []);
      levelResults := levelResults[level := Tally(t.total + 1, t.satisfied + (if result.satisfied then 1 else 0), t.items + [result])];
    }
    assert rs[..|rs|] == rs;
  }

  /** `completeAssessment`: the tallies, the final level and the rows sent to the
      server. */
  method CompleteAssessment(results: seq<Entry>) returns (finalLevel: int, payload: seq<PayloadRow>)
    ensures finalLevel == ClientFinalLevel(Tallies(results, KeyOfEntry))
    ensures payload == Payload(results, finalLevel)
  {
    var levelResults := TallyResults(results, KeyOfEntry);
    finalLevel := ClientFinalLevel(levelResults);
    payload := Payload(results, finalLevel);
  }

  /** What a call to `recordAssessment` leads to. */
  datatype Outcome = ShowNext | Completed(finalLevel: int, payload: seq<PayloadRow>) | Crashed

  /** Why `startAssessment` stops. */
  datatype StartOutcome = Started | NothingSelected | NoItems

  /** The session globals `assessmentItems`, `currentAssessmentIndex` and
      `assessmentResults`. */
  class Session {
    var items: seq<Item>
    var index: int
    var results: seq<Entry>

    /** Every result so far records the item at its position. */
    ghost predicate Valid()
      reads this
    {
      && 0 <= index <= |items|
      && |results| == index
      && forall k :: 0 <= k < index ==>
        results[k].itemId == items[k].id && results[k].itemName == items[k].itemName
        && results[k].category == items[k].category
    }

    constructor()
      ensures items == [] && index == 0 && results == []
      ensures Valid()
    {
      items := [];
      index := 0;
      results := [];
    }

    /** `startAssessment`: both selections are required; the items of the process
        are filtered, and when there are some they are shuffled and the session
        starts over. */
    method Start(workerId: Option<int>, processId: Option<int>, all: seq<Item>, draws: seq<real>)
      returns (outcome: StartOutcome)
      requires Draws(draws)
      requires processId.Some? ==> |draws| == |ItemsFor(all, processId.value)|
      modifies this
      ensures workerId.None? || processId.None? ==>
        outcome == NothingSelected && items == old(items) && index == old(index) && results == old(results)
      ensures workerId.Some? && processId.Some? && ItemsFor(all, processId.value) == [] ==>
        outcome == NoItems && items == [] && index == old(index) && results == old(results)
      ensures workerId.Some? && processId.Some? && ItemsFor(all, processId.value) != [] ==>
        && outcome == Started && index == 0 && results == []
        && items == FisherYates(ItemsFor(all, processId.value), draws, |draws| - 1)
        && multiset(items) == multiset(ItemsFor(all, processId.value))
      ensures outcome == Started ==> Valid()
    {
      if workerId.None? || processId.None? {
        return NothingSelected;
      }
      items := ItemsFor(all, processId.value);
      if items == [] {
        return NoItems;
      }
      items := ShuffleArray(items, draws);
      index := 0;
      results := [];
      outcome := Started;
    }

    /** `recordAssessment`: the item at the index is recorded with the mark and the
        index moves on; at the last item the session completes. With no item at
        the index the client fails on `item.id` before changing anything. */
    method Record(satisfied: bool) returns (outcome: Outcome)
      requires Valid()
      modifies this
      ensures Valid() && items == old(items)
      ensures old(index) == |items| ==> outcome == Crashed && index == old(index) && results == old(results)
      ensures old(index) < |items| ==>
        && results == old(results) + [Entry(items[old(index)].id, items[old(index)].itemName, items[old(index)].category, satisfied)]
        && index == old(index) + 1
        && (outcome.Completed? <==> index == |items|)
        && (outcome.Completed? ==>
              outcome.finalLevel == ClientFinalLevel(Tallies(results, KeyOfEntry))
              && outcome.payload == Payload(results, outcome.finalLevel))
        && (!outcome.Completed? ==> outcome == ShowNext)
    {
      if index == |items| {
        return Crashed;
      }
      var item := items[index];
      ghost var prev := results;
      results := results + [Entry(item.id, item.itemName, item.category, satisfied)];
      assert forall k :: 0 <= k < |prev| ==> results[k] == prev[k];
      index := index + 1;
      if index < |items| {
        outcome := ShowNext;
      } else {
        var finalLevel, payload := CompleteAssessment(results);
        outcome := Completed(finalLevel, payload);
      }
    }
  }
}
