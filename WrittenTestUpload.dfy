/** The written-test bulk upload of the API server (src/index.tsx,
    POST /api/written-test-results/bulk): the lookup maps loaded from the
    database, the first pass that matches every uploaded answer to a worker, a
    position and a quiz and groups the accepted answers by worker, position and test
    date, and the second pass that scores every group and stores it. */
module WrittenTestUpload {
  import opened Common
  import opened Normalize

  // ---------------------------------------------------------------- lookups ----

  /** A JavaScript `Map` filled by `set` in order: a later pair replaces an earlier
      one with the same key. */
  function LastWins<K, V>(pairs: seq<(K, V)>): map<K, V>
  {
    if pairs == [] then map[]
    else LastWins(pairs[..|pairs| - 1])[pairs[|pairs| - 1].0 := pairs[|pairs| - 1].1]
  }

  function PairKeys<K, V>(pairs: seq<(K, V)>): set<K>
  {
    set i | 0 <= i < |pairs| :: pairs[i].0
  }

  /** Exactly the keys of the pairs are in the map. */
  lemma {:induction false} LastWinsKeys<K, V>(pairs: seq<(K, V)>)
    ensures LastWins(pairs).Keys == PairKeys(pairs)
  {
    if pairs != [] {
      var init := pairs[..|pairs| - 1];
      LastWinsKeys(init);
      var last := pairs[|pairs| - 1].0;
      forall k | k in PairKeys(pairs) ensures k in PairKeys(init) + {last} {
        var i :| 0 <= i < |pairs| && pairs[i].0 == k;
        if i < |init| { assert init[i] == pairs[i]; }
      }
      forall k | k in PairKeys(init) ensures k in PairKeys(pairs) {
        var i :| 0 <= i < |init| && init[i].0 == k;
        assert pairs[i] == init[i];
      }
    }
  }

  /** The value under a key is the one of the last pair with that key. */
  lemma {:induction false} LastWinsValue<K, V>(pairs: seq<(K, V)>, i: int)
    requires 0 <= i < |pairs|
    requires forall j :: i < j < |pairs| ==> pairs[j].0 != pairs[i].0
    ensures pairs[i].0 in LastWins(pairs) && LastWins(pairs)[pairs[i].0] == pairs[i].1
  {
    if i < |pairs| - 1 {
      var init := pairs[..|pairs| - 1];
      assert init[i] == pairs[i];
      forall j | i < j < |init| ensures init[j].0 != init[i].0 {
        assert init[j] == pairs[j];
      }
      LastWinsValue(init, i);
    }
  }

  datatype DbWorker = DbWorker(id: int, employeeId: string, entity: string)
  datatype DbPosition = DbPosition(id: int, name: string)
  datatype DbQuiz = DbQuiz(id: int, processId: int, question: string, correctAnswer: string)

  /** The two spellings-to-key functions of the upload: the position name and the
      question text are looked up by these. */
  datatype Keying = Keying(position: string -> string, question: string -> string)

  /** The server's keying: trimmed, upper-cased position names and
      `normalizeQuestion`. */
  const ServerKeying: Keying := Keying(NormalizeField, NormalizeQuestion)

  /** The three lookup maps of the upload, with the keying they were built by. */
  datatype Lookups = Lookups(
    keying: Keying, workers: map<string, int>, positions: map<string, int>, quizzes: map<string, int>)

  /** `String(n)` of an integer id, as written into the template keys. */
  function IdString(n: int): (r: string)
    ensures r != []
  {
    JsString(Num(n))
  }

  /** `${employee_id}-${entity}`. */
  function WorkerKey(employeeId: string, entity: string): string
  {
    employeeId + "-" + entity
  }

  /** `${process_id}-${normalizedQuestion}`. */
  function QuizKey(processId: int, normalizedQuestion: string): string
  {
    IdString(processId) + "-" + normalizedQuestion
  }

  function WorkerPairs(ws: seq<DbWorker>): (r: seq<(string, int)>)
    ensures |r| == |ws|
    ensures forall i :: 0 <= i < |ws| ==> r[i] == (WorkerKey(ws[i].employeeId, ws[i].entity), ws[i].id)
  {
    seq(|ws|, i requires 0 <= i < |ws| => (WorkerKey(ws[i].employeeId, ws[i].entity), ws[i].id))
  }

  function PositionPairs(ps: seq<DbPosition>, key: string -> string): (r: seq<(string, int)>)
    ensures |r| == |ps|
    ensures forall i :: 0 <= i < |ps| ==> r[i] == (key(ps[i].name), ps[i].id)
  {
    seq(|ps|, i requires 0 <= i < |ps| => (key(ps[i].name), ps[i].id))
  }

  function QuizPairs(qs: seq<DbQuiz>, key: string -> string): (r: seq<(string, int)>)
    ensures |r| == |qs|
    ensures forall i :: 0 <= i < |qs| ==> r[i] == (QuizKey(qs[i].processId, key(qs[i].question)), qs[i].id)
  {
    seq(|qs|, i requires 0 <= i < |qs| => (QuizKey(qs[i].processId, key(qs[i].question)), qs[i].id))
  }

  /** The loop over `workersResult`: every worker is `set` under its composite key. */
  method LoadWorkerMap(ws: seq<DbWorker>) returns (workerMap: map<string, int>)
    ensures workerMap == LastWins(WorkerPairs(ws))
  {
    workerMap := map[];
    for i := 0 to |ws|
      invariant workerMap == LastWins(WorkerPairs(ws)[..i])
    {
      assert WorkerPairs(ws)[..i + 1][..i] == WorkerPairs(ws)[..i];
      var compositeKey := WorkerKey(ws[i].employeeId, ws[i].entity);
      workerMap := workerMap[compositeKey := ws[i].id];
    }
    assert WorkerPairs(ws)[..|ws|] == WorkerPairs(ws);
  }

  /** The loop over `positionsResult`: every position is `set` under its trimmed,
      upper-cased name. */
  method LoadPositionMap(ps: seq<DbPosition>, key: string -> string) returns (positionMap: map<string, int>)
    ensures positionMap == LastWins(PositionPairs(ps, key))
  {
    positionMap := map[];
    for i := 0 to |ps|
      invariant positionMap == LastWins(PositionPairs(ps, key)[..i])
    {
      assert PositionPairs(ps, key)[..i + 1][..i] == PositionPairs(ps, key)[..i];
      var normalizedName := key(ps[i].name);
      positionMap := positionMap[normalizedName := ps[i].id];
    }
    assert PositionPairs(ps, key)[..|ps|] == PositionPairs(ps, key);
  }

  /** The loop over `quizzesResult`: every quiz is `set` under its process id and
      normalised question. */
  method LoadQuizMap(qs: seq<DbQuiz>, key: string -> string) returns (quizMap: map<string, int>)
    ensures quizMap == LastWins(QuizPairs(qs, key))
  {
    quizMap := map[];
    for i := 0 to |qs|
      invariant quizMap == LastWins(QuizPairs(qs, key)[..i])
    {
      assert QuizPairs(qs, key)[..i + 1][..i] == QuizPairs(qs, key)[..i];
      var quizKey := QuizKey(qs[i].processId, key(qs[i].question));
      quizMap := quizMap[quizKey := qs[i].id];
    }
    assert QuizPairs(qs, key)[..|qs|] == QuizPairs(qs, key);
  }

  /** A database worker is found under its composite key unless a later worker
      has the same key. */
  lemma WorkerFound(ws: seq<DbWorker>, i: int)
    requires 0 <= i < |ws|
    requires forall j :: i < j < |ws| ==>
      WorkerKey(ws[j].employeeId, ws[j].entity) != WorkerKey(ws[i].employeeId, ws[i].entity)
    ensures var k := WorkerKey(ws[i].employeeId, ws[i].entity);
      k in LastWins(WorkerPairs(ws)) && LastWins(WorkerPairs(ws))[k] == ws[i].id
  {
    LastWinsValue(WorkerPairs(ws), i);
  }

  /** A position is found by any spelling with the same trimmed, upper-cased name. */
  lemma PositionFoundByAnySpelling(ps: seq<DbPosition>, key: string -> string, spelling: string)
    ensures key(spelling) in LastWins(PositionPairs(ps, key))
      <==> exists i :: 0 <= i < |ps| && key(ps[i].name) == key(spelling)
  {
    LastWinsKeys(PositionPairs(ps, key));
    if key(spelling) in LastWins(PositionPairs(ps, key)) {
      var i :| 0 <= i < |PositionPairs(ps, key)| && PositionPairs(ps, key)[i].0 == key(spelling);
      assert key(ps[i].name) == key(spelling);
    }
    if exists i :: 0 <= i < |ps| && key(ps[i].name) == key(spelling) {
      var i :| 0 <= i < |ps| && key(ps[i].name) == key(spelling);
      assert PositionPairs(ps, key)[i].0 == key(spelling);
    }
  }

  /** A quiz is found by any spelling of its question with the same key, under
      the process id it belongs to. */
  lemma QuizFoundByAnySpelling(qs: seq<DbQuiz>, key: string -> string, processId: int, spelling: string)
    ensures QuizKey(processId, key(spelling)) in LastWins(QuizPairs(qs, key))
      <==> exists i :: 0 <= i < |qs| && QuizKey(qs[i].processId, key(qs[i].question)) == QuizKey(processId, key(spelling))
  {
    var pairs := QuizPairs(qs, key);
    var k := QuizKey(processId, key(spelling));
    LastWinsKeys(pairs);
    if k in LastWins(pairs) {
      var i :| 0 <= i < |pairs| && pairs[i].0 == k;
      assert QuizKey(qs[i].processId, key(qs[i].question)) == k;
    }
    if exists i :: 0 <= i < |qs| && QuizKey(qs[i].processId, key(qs[i].question)) == k {
      var i :| 0 <= i < |qs| && QuizKey(qs[i].processId, key(qs[i].question)) == k;
      assert pairs[i].0 == k;
    }
  }

  /** The maps the server loads from the three tables. */
  function ServerLookups(ws: seq<DbWorker>, ps: seq<DbPosition>, qs: seq<DbQuiz>): Lookups
  {
    Lookups(ServerKeying, LastWins(WorkerPairs(ws)), LastWins(PositionPairs(ps, ServerKeying.position)),
            LastWins(QuizPairs(qs, ServerKeying.question)))
  }

  /** The three lookup maps of the upload. */
  method LoadLookups(ws: seq<DbWorker>, ps: seq<DbPosition>, qs: seq<DbQuiz>, keying: Keying)
    returns (l: Lookups)
    ensures l.keying == keying
    ensures l.workers == LastWins(WorkerPairs(ws))
    ensures l.positions == LastWins(PositionPairs(ps, keying.position))
    ensures l.quizzes == LastWins(QuizPairs(qs, keying.question))
  {
    var workerMap := LoadWorkerMap(ws);
    var positionMap := LoadPositionMap(ps, keying.position);
    var quizMap := LoadQuizMap(qs, keying.question);
    l := Lookups(keying, workerMap, positionMap, quizMap);
  }

  // ------------------------------------------------------------ first pass ----

  /** One uploaded answer row. */
  datatype ResultRow = ResultRow(
    employeeId: string, entity: string, position: string, question: string,
    selectedAnswer: string, isCorrect: int, testDate: string)

  datatype Answer = Answer(quizId: int, selectedAnswer: string, isCorrect: int)

  /** A row that passed the three lookups, with the group it joins. */
  datatype Accepted = Accepted(key: string, workerId: int, processId: int, testDate: string, answer: Answer)

  /** `${worker.id}-${positionId}-${result.test_date}`. */
  function GroupKey(workerId: int, processId: int, testDate: string): string
  {
    IdString(workerId) + "-" + IdString(processId) + "-" + testDate
  }

  lemma GroupKeyParts(w: nat, p: nat, d: string)
    ensures GroupKey(w, p, d) == NatToString(w) + ['-'] + (NatToString(p) + ['-'] + d)
  {
    assert IdString(w) == NatToString(w) && IdString(p) == NatToString(p);
  }

  /** For database ids, which are never negative, the group key spells out its
      worker, position and date unambiguously: one key per group. */
  lemma GroupKeyInjective(w1: nat, p1: nat, d1: string, w2: nat, p2: nat, d2: string)
    requires GroupKey(w1, p1, d1) == GroupKey(w2, p2, d2)
    ensures w1 == w2 && p1 == p2 && d1 == d2
  {
    var a1, b1, a2, b2 := NatToString(w1), NatToString(p1), NatToString(w2), NatToString(p2);
    GroupKeyParts(w1, p1, d1);
    GroupKeyParts(w2, p2, d2);
    SplitAtSeparator(a1, a2, '-', b1 + ['-'] + d1, b2 + ['-'] + d2);
    SplitAtSeparator(b1, b2, '-', d1, d2);
    NatToStringInjective(w1, w2);
    NatToStringInjective(p1, p2);
  }

  /** Why a row is skipped. */
  datatype Skip = WorkerNotFound | PositionNotFound | QuizNotFound

  /** The three lookups of one row, in the order of the source; a position id of 0
      counts as missing, as `!positionId` does. */
  function Classify(l: Lookups, r: ResultRow): Result<Accepted, Skip>
  {
    var compositeKey := WorkerKey(r.employeeId, r.entity);
    if compositeKey !in l.workers then Err(WorkerNotFound)
    else
      var workerId := l.workers[compositeKey];
      var normalizedPosition := l.keying.position(r.position);
      if normalizedPosition !in l.positions || l.positions[normalizedPosition] == 0 then Err(PositionNotFound)
      else
        var positionId := l.positions[normalizedPosition];
        var quizKey := QuizKey(positionId, l.keying.question(r.question));
        if quizKey !in l.quizzes then Err(QuizNotFound)
        else
          Ok(Accepted(GroupKey(workerId, positionId, r.testDate), workerId, positionId, r.testDate,
                      Answer(l.quizzes[quizKey], r.selectedAnswer, r.isCorrect)))
  }

  /** A row is skipped for its worker exactly when no stored worker has its
      employee id and entity, spelled as stored. */
  lemma WorkerNotFoundIff(ws: seq<DbWorker>, ps: seq<DbPosition>, qs: seq<DbQuiz>, r: ResultRow)
    ensures Classify(ServerLookups(ws, ps, qs), r) == Err(WorkerNotFound)
      <==> forall i :: 0 <= i < |ws| ==> WorkerKey(ws[i].employeeId, ws[i].entity) != WorkerKey(r.employeeId, r.entity)
  {
    var pairs := WorkerPairs(ws);
    LastWinsKeys(pairs);
    var k := WorkerKey(r.employeeId, r.entity);
    if k in LastWins(pairs) {
      var i :| 0 <= i < |pairs| && pairs[i].0 == k;
      assert WorkerKey(ws[i].employeeId, ws[i].entity) == k;
    } else {
      forall i | 0 <= i < |ws| ensures WorkerKey(ws[i].employeeId, ws[i].entity) != k {
        assert pairs[i].0 == WorkerKey(ws[i].employeeId, ws[i].entity);
      }
    }
  }

  /** A group of `groupedResults`. */
  datatype Group = Group(workerId: int, processId: int, testDate: string, answers: seq<Answer>)

  /** Add one accepted row: a new group when its key is new, else push its answer. */
  function AddAnswer(groups: map<string, Group>, a: Accepted): (r: map<string, Group>)
    ensures r.Keys == groups.Keys + {a.key}
    ensures forall k :: k in groups && k != a.key ==> r[k] == groups[k]
  {
    if a.key in groups then
      groups[a.key := groups[a.key].(answers := groups[a.key].answers + [a.answer])]
    else
      groups[a.key := Group(a.workerId, a.processId, a.testDate, [a.answer])]
  }

  /** `groupedResults` after the first pass. */
  function GroupAll(l: Lookups, rows: seq<ResultRow>): map<string, Group>
  {
    if rows == [] then map[]
    else
      var g := GroupAll(l, rows[..|rows| - 1]);
      match Classify(l, rows[|rows| - 1])
      case Ok(a) => AddAnswer(g, a)
      case Err(_) => g
  }

  /** The accepted rows, in upload order: the reference the grouping is checked against. */
  function AcceptedRows(l: Lookups, rows: seq<ResultRow>): seq<Accepted>
  {
    if rows == [] then []
    else
      var init := AcceptedRows(l, rows[..|rows| - 1]);
      match Classify(l, rows[|rows| - 1])
      case Ok(a) => init + [a]
      case Err(_) => init
  }

  /** The answers of the accepted rows with key `k`, in upload order. */
  function AnswersWithKey(acc: seq<Accepted>, k: string): seq<Answer>
  {
    if acc == [] then []
    else AnswersWithKey(acc[..|acc| - 1], k) + (if acc[|acc| - 1].key == k then [acc[|acc| - 1].answer] else [])
  }

  function AcceptedKeys(acc: seq<Accepted>): set<string>
  {
    set i | 0 <= i < |acc| :: acc[i].key
  }

  /** First accepted row with key `k`. */
  function FirstWithKey(acc: seq<Accepted>, k: string): (a: Accepted)
    requires k in AcceptedKeys(acc)
    ensures a in acc && a.key == k
  {
    if acc[0].key == k then acc[0]
    else
      assert k in AcceptedKeys(acc[1..]) by {
        var i :| 0 <= i < |acc| && acc[i].key == k;
        assert acc[1..][i - 1] == acc[i];
      }
      FirstWithKey(acc[1..], k)
  }

  /** The body of the first-pass loop for one row: the three lookups, each
      skipping the row when it fails, then the push onto the row's group. */
  method ProcessResult(l: Lookups, groups: map<string, Group>, result: ResultRow)
    returns (groups': map<string, Group>, accepted: bool)
    ensures accepted <==> Classify(l, result).Ok?
    ensures accepted ==> groups' == AddAnswer(groups, Classify(l, result).value)
    ensures !accepted ==> groups' == groups
  {
    groups' := groups;
    accepted := false;
    var compositeKey := WorkerKey(result.employeeId, result.entity);
    if compositeKey !in l.workers {
      return;
    }
    var workerId := l.workers[compositeKey];
    var normalizedPosition := l.keying.position(result.position);
    if normalizedPosition !in l.positions || l.positions[normalizedPosition] == 0 {
      return;
    }
    var positionId := l.positions[normalizedPosition];
    var quizKey := QuizKey(positionId, l.keying.question(result.question));
    if quizKey !in l.quizzes {
      return;
    }
    var groupKey := GroupKey(workerId, positionId, result.testDate);
    var answer := Answer(l.quizzes[quizKey], result.selectedAnswer, result.isCorrect);
    var group := if groupKey in groups then groups[groupKey]
                 else Group(workerId, positionId, result.testDate, []);
    groups' := groups[groupKey := group.(answers := group.answers + [answer])];
    accepted := true;
    assert groupKey !in groups ==> [] + [answer] == [answer];
  }

  /** The first-pass loop: every row is counted as a success or as skipped. */
  method GroupResults(l: Lookups, rows: seq<ResultRow>)
    returns (groups: map<string, Group>, successCount: nat, skippedCount: nat)
    ensures groups == GroupAll(l, rows)
    ensures successCount == |AcceptedRows(l, rows)|
    ensures successCount + skippedCount == |rows|
  {
    groups := map[];
    successCount := 0;
    skippedCount := 0;
    for i := 0 to |rows|
      invariant groups == GroupAll(l, rows[..i])
      invariant successCount == |AcceptedRows(l, rows[..i])|
      invariant successCount + skippedCount == i
    {
      assert rows[..i + 1][..i] == rows[..i];
      var accepted;
      groups, accepted := ProcessResult(l, groups, rows[i]);
      if accepted {
        successCount := successCount + 1;
      } else {
        skippedCount := skippedCount + 1;
      }
    }
    assert rows[..|rows|] == rows;
  }

  /** The groups are exactly those the accepted rows `acc` call for: one per key,
      holding in order the answers with that key and the header of the first of them. */
  ghost predicate GroupsMatch(g: map<string, Group>, acc: seq<Accepted>)
  {
    && g.Keys == AcceptedKeys(acc)
    && forall k :: k in g ==>
      && g[k].answers == AnswersWithKey(acc, k)
      && g[k].workerId == FirstWithKey(acc, k).workerId
      && g[k].processId == FirstWithKey(acc, k).processId
      && g[k].testDate == FirstWithKey(acc, k).testDate
  }

  /** Exactly the keys of the accepted rows become groups; each group holds, in
      upload order, the answers of the accepted rows with its key and no other, and
      carries the worker, position and date of the first of them. */
  lemma {:induction false} GroupingIsExact(l: Lookups, rows: seq<ResultRow>)
    ensures GroupsMatch(GroupAll(l, rows), AcceptedRows(l, rows))
  {
    if rows != [] {
      var init := rows[..|rows| - 1];
      GroupingIsExact(l, init);
      match Classify(l, rows[|rows| - 1])
      case Err(_) =>
      case Ok(a) => GroupsMatchStep(GroupAll(l, init), AcceptedRows(l, init), a);
    }
  }

  lemma GroupsMatchStep(g0: map<string, Group>, acc0: seq<Accepted>, a: Accepted)
    requires GroupsMatch(g0, acc0)
    ensures GroupsMatch(AddAnswer(g0, a), acc0 + [a])
  {
    var acc := acc0 + [a];
    var g := AddAnswer(g0, a);
    AcceptedKeysSnoc(acc0, a);
    if a.key !in g0 {
      NewGroupMatches(g0, acc0, a);
    }
    forall k | k in g
      ensures g[k].answers == AnswersWithKey(acc, k)
      ensures k in AcceptedKeys(acc) && FirstWithKey(acc, k).workerId == g[k].workerId
      ensures FirstWithKey(acc, k).processId == g[k].processId
      ensures FirstWithKey(acc, k).testDate == g[k].testDate
    {
      AnswersWithKeySnoc(acc0, a, k);
      if k in g0 {
        FirstWithKeyExtend(acc0, a, k);
      }
    }
  }

  lemma AnswersWithKeySnoc(acc0: seq<Accepted>, a: Accepted, k: string)
    ensures AnswersWithKey(acc0 + [a], k) == AnswersWithKey(acc0, k) + (if a.key == k then [a.answer] else [])
  {
    var acc := acc0 + [a];
    assert acc[..|acc| - 1] == acc0;
  }

  /** The row that opens a group gives it its header and its only answer. */
  lemma NewGroupMatches(g0: map<string, Group>, acc0: seq<Accepted>, a: Accepted)
    requires GroupsMatch(g0, acc0) && a.key !in g0
    ensures var g := AddAnswer(g0, a);
      && g[a.key].answers == AnswersWithKey(acc0 + [a], a.key)
      && FirstWithKey(acc0 + [a], a.key) == a
  {
    var acc := acc0 + [a];
    assert acc[..|acc| - 1] == acc0;
    assert AnswersWithKey(acc0, a.key) == [] by { NoAnswersWithoutKey(acc0, a.key); }
    FirstWithKeyNew(acc0, a);
  }

  lemma AcceptedKeysSnoc(acc0: seq<Accepted>, a: Accepted)
    ensures AcceptedKeys(acc0 + [a]) == AcceptedKeys(acc0) + {a.key}
  {
    var acc := acc0 + [a];
    assert acc[|acc0|] == a;
    forall k | k in AcceptedKeys(acc) ensures k in AcceptedKeys(acc0) + {a.key} {
      var i :| 0 <= i < |acc| && acc[i].key == k;
      if i < |acc0| { assert acc0[i] == acc[i]; }
    }
    forall k | k in AcceptedKeys(acc0) ensures k in AcceptedKeys(acc) {
      var i :| 0 <= i < |acc0| && acc0[i].key == k;
      assert acc[i] == acc0[i];
    }
  }

  lemma {:induction false} NoAnswersWithoutKey(acc: seq<Accepted>, k: string)
    requires k !in AcceptedKeys(acc)
    ensures AnswersWithKey(acc, k) == []
  {
    if acc != [] {
      var init := acc[..|acc| - 1];
      assert k !in AcceptedKeys(init) by {
        forall i | 0 <= i < |init| ensures init[i].key != k {
          assert init[i] == acc[i];
        }
      }
      NoAnswersWithoutKey(init, k);
      assert acc[|acc| - 1].key != k;
    }
  }

  lemma {:induction false} FirstWithKeyExtend(acc: seq<Accepted>, a: Accepted, k: string)
    requires k in AcceptedKeys(acc)
    ensures k in AcceptedKeys(acc + [a])
    ensures FirstWithKey(acc + [a], k) == FirstWithKey(acc, k)
  {
    var i :| 0 <= i < |acc| && acc[i].key == k;
    assert (acc + [a])[i] == acc[i];
    if acc[0].key != k {
      assert k in AcceptedKeys(acc[1..]) by { assert acc[1..][i - 1] == acc[i]; }
      assert (acc + [a])[1..] == acc[1..] + [a];
      FirstWithKeyExtend(acc[1..], a, k);
    }
  }

  lemma {:induction false} FirstWithKeyNew(acc: seq<Accepted>, a: Accepted)
    requires a.key !in AcceptedKeys(acc)
    ensures a.key in AcceptedKeys(acc + [a])
    ensures FirstWithKey(acc + [a], a.key) == a
  {
    assert (acc + [a])[|acc|] == a;
    if acc != [] {
      assert acc[0].key != a.key;
      assert a.key !in AcceptedKeys(acc[1..]) by {
        forall i | 0 <= i < |acc[1..]| ensures acc[1..][i].key != a.key {
          assert acc[1..][i] == acc[i + 1];
        }
      }
      assert (acc + [a])[1..] == acc[1..] + [a];
      FirstWithKeyNew(acc[1..], a);
    }
  }

  // ----------------------------------------------------------- second pass ----

  /** Answers with `is_correct === 1`. */
  function CorrectCount(answers: seq<Answer>): (n: nat)
    ensures n <= |answers|
  {
    if answers == [] then 0
    else CorrectCount(answers[..|answers| - 1]) + (if answers[|answers| - 1].isCorrect == 1 then 1 else 0)
  }

  /** `totalQuestions > 0 ? (correctAnswers / totalQuestions) * 100 : 0`, exactly. */
  function Score(answers: seq<Answer>): (s: real)
    ensures 0.0 <= s <= 100.0
    ensures answers == [] ==> s == 0.0
  {
    if |answers| > 0 then (CorrectCount(answers) as real / |answers| as real) * 100.0 else 0.0
  }

  /** `score >= 80`. */
  predicate Passed(answers: seq<Answer>)
  {
    Score(answers) >= 80.0
  }

  /** The pass mark as an integer comparison: at least 80 percent of a non-empty
      group is correct. */
  lemma PassedIff(answers: seq<Answer>)
    ensures Passed(answers) <==> |answers| > 0 && 100 * CorrectCount(answers) >= 80 * |answers|
  {
    if answers != [] {
      PassedIffNonEmpty(answers);
    }
  }

  lemma PassedIffNonEmpty(answers: seq<Answer>)
    requires answers != []
    ensures Passed(answers) <==> 100 * CorrectCount(answers) >= 80 * |answers|
  {
    ThresholdScaled(|answers|, CorrectCount(answers));
  }

  /** `n` correct out of `m` scores at least 80 exactly when 80 percent are correct. */
  lemma ThresholdScaled(m: nat, n: nat)
    requires m > 0
    ensures (n as real / m as real) * 100.0 >= 80.0 <==> 100 * n >= 80 * m
  {
    var t, c := m as real, n as real;
    var s := (c / t) * 100.0;
    assert s * t == c * 100.0;
    if s >= 80.0 {
      assert (s - 80.0) * t >= 0.0;
      assert c * 100.0 >= 80.0 * t;
    } else {
      assert (80.0 - s) * t > 0.0;
      assert c * 100.0 < 80.0 * t;
    }
  }

  /** A stored written-test result with its answers. */
  datatype StoredResult = StoredResult(score: real, passed: bool, answers: seq<Answer>)

  type ResultKey = (int, int, string)

  function ResultKeyOf(g: Group): ResultKey
  {
    (g.workerId, g.processId, g.testDate)
  }

  function StoredOf(g: Group): (r: StoredResult)
    ensures r.answers == g.answers
    ensures r.passed <==> |g.answers| > 0 && 100 * CorrectCount(g.answers) >= 80 * |g.answers|
  {
    PassedIff(g.answers);
    StoredResult(Score(g.answers), Passed(g.answers), g.answers)
  }

  /** Every group sits under the key spelled from its own worker, position and date. */
  ghost predicate KeyedByHeader(groups: map<string, Group>)
  {
    forall k :: k in groups ==> k == GroupKey(groups[k].workerId, groups[k].processId, groups[k].testDate)
  }

  /** The first pass keeps every group under the key of its header, so two groups
      never share a stored result. */
  lemma {:induction false} GroupsKeyedByHeader(l: Lookups, rows: seq<ResultRow>)
    ensures KeyedByHeader(GroupAll(l, rows))
  {
    if rows != [] {
      GroupsKeyedByHeader(l, rows[..|rows| - 1]);
    }
  }

  function ResultKeys(groups: map<string, Group>, ks: set<string>): set<ResultKey>
    requires ks <= groups.Keys
  {
    set k | k in ks :: ResultKeyOf(groups[k])
  }

  lemma ResultKeysAdd(groups: map<string, Group>, ks: set<string>, g: string)
    requires ks <= groups.Keys && g in groups
    ensures ResultKeys(groups, ks + {g}) == ResultKeys(groups, ks) + {ResultKeyOf(groups[g])}
  {
  }

  /** The stored results once the groups in `done` are written. */
  ghost predicate StoredSoFar(groups: map<string, Group>, initial: map<ResultKey, StoredResult>,
                              results: map<ResultKey, StoredResult>, done: set<string>)
    requires done <= groups.Keys
  {
    && results.Keys == initial.Keys + ResultKeys(groups, done)
    && (forall k :: k in done ==> results[ResultKeyOf(groups[k])] == StoredOf(groups[k]))
    && (forall t :: t in initial && t !in ResultKeys(groups, done) ==> results[t] == initial[t])
  }

  lemma StoreStep(groups: map<string, Group>, initial: map<ResultKey, StoredResult>,
                  results: map<ResultKey, StoredResult>, done: set<string>, g: string,
                  results': map<ResultKey, StoredResult>)
    requires KeyedByHeader(groups) && done <= groups.Keys && g in groups && g !in done
    requires StoredSoFar(groups, initial, results, done)
    requires results' == results[ResultKeyOf(groups[g]) := StoredOf(groups[g])]
    ensures StoredSoFar(groups, initial, results', done + {g})
  {
    var t := ResultKeyOf(groups[g]);
    forall k | k in done ensures ResultKeyOf(groups[k]) != t {
      assert k != g;
    }
    ResultKeysAdd(groups, done, g);
  }

  /** The `written_test_results` and `written_test_answers` tables, keyed by
      (worker_id, process_id, test_date). */
  class ResultStore {
    var results: map<ResultKey, StoredResult>

    constructor(initial: map<ResultKey, StoredResult>)
      ensures results == initial
    {
      results := initial;
    }

    /** The second pass: every group updates the stored result with its key, or
        inserts one, with its score, its pass flag and exactly its answers. */
    method StoreGroups(groups: map<string, Group>)
      requires KeyedByHeader(groups)
      modifies this
      ensures results.Keys == old(results).Keys + ResultKeys(groups, groups.Keys)
      ensures forall k :: k in groups ==> results[ResultKeyOf(groups[k])] == StoredOf(groups[k])
      ensures forall t :: t in old(results) && t !in ResultKeys(groups, groups.Keys) ==>
        results[t] == old(results)[t]
    {
      var remaining := groups.Keys;
      ghost var done: set<string> := {};
      while remaining != {}
        invariant remaining + done == groups.Keys && remaining !! done
        invariant StoredSoFar(groups, old(results), results, done)
        decreases remaining
      {
        var groupKey :| groupKey in remaining;
        var group := groups[groupKey];
        ghost var before := results;
        results := results[ResultKeyOf(group) := StoredOf(group)];
        StoreStep(groups, old(results), before, done, groupKey, results);
        remaining := remaining - {groupKey};
        done := done + {groupKey};
      }
      assert done == groups.Keys;
    }

    /** The whole upload: load the lookups, group the rows, store every group, and
        report the numbers of accepted rows, skipped rows and rows. */
    method UploadResults(ws: seq<DbWorker>, ps: seq<DbPosition>, qs: seq<DbQuiz>, rows: seq<ResultRow>)
      returns (success: nat, skipped: nat, total: nat)
      modifies this
      ensures var l := ServerLookups(ws, ps, qs); var groups := GroupAll(l, rows);
        && success == |AcceptedRows(l, rows)| && success + skipped == total && total == |rows|
        && results.Keys == old(results).Keys + ResultKeys(groups, groups.Keys)
        && (forall k :: k in groups ==> results[ResultKeyOf(groups[k])] == StoredOf(groups[k]))
        && (forall t :: t in old(results) && t !in ResultKeys(groups, groups.Keys) ==>
              results[t] == old(results)[t])
    {
      var l := LoadLookups(ws, ps, qs, ServerKeying);
      var groups;
      groups, success, skipped := GroupResults(l, rows);
      GroupsKeyedByHeader(l, rows);
      StoreGroups(groups);
      total := |rows|;
    }
  }
}
