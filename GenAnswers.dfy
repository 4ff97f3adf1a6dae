/** The answer-sheet generators for written-test results
    (generate_all_test_answers.cjs and generate_answers_from_db.cjs): every result
    gets 30 answer rows, one per quiz of its process, each either the correct
    answer 'A' or the wrong answer 'B', after a fixed pattern computed from the
    result's number of correct answers. The rows are modelled; the SQL text, the
    file writes and the database query are left out. */
module GenAnswers {
  import opened Common

  const TotalQuestions: nat := 30
  const CuttingQuizIds: seq<int> := [1, 2, 3, 4, 5, 11, 12, 13, 14, 15, 16, 17, 18, 19, 20, 21, 22, 23, 24, 25, 26, 27, 28, 29, 30, 31, 32, 33, 34, 35]
  const BevelingQuizIds: seq<int> := [6, 7, 8, 9, 10, 36, 37, 38, 39, 40, 41, 42, 43, 44, 45, 46, 47, 48, 49, 50, 51, 52, 53, 54, 55, 56, 57, 58, 59, 60]

  /** A written-test result: `processId` 1 is cutting, anything else beveling. */
  datatype TestResult = TestResult(id: int, processId: int, score: real)

  /** One tuple of the INSERT: (result_id, quiz_id, selected_answer, is_correct). */
  datatype AnswerRow = AnswerRow(resultId: int, quizId: int, selectedAnswer: char, isCorrect: int)

  function QuizIds(processId: int): (ids: seq<int>)
    ensures |ids| == TotalQuestions
  {
    if processId == 1 then CuttingQuizIds else BevelingQuizIds
  }

  /** `Math.round((score / 100) * 30)`, on exact reals. */
  function CorrectCount(score: real): (n: int)
    ensures 0.0 <= score <= 100.0 ==> 0 <= n <= 30
  {
    (score * 30.0 / 100.0 + 0.5).Floor
  }

  /** `Math.ceil(n / 5)`. */
  function CeilFifth(n: nat): nat
  {
    (n + 4) / 5
  }

  function RowFor(r: TestResult, i: nat, wrong: bool): AnswerRow
    requires i < TotalQuestions
  {
    AnswerRow(r.id, QuizIds(r.processId)[i], if wrong then 'B' else 'A', if wrong then 0 else 1)
  }

  /** The answer is 'A' exactly when the row is marked correct and 'B' exactly
      when it is marked wrong; the quiz comes from the list of the result's
      process. */
  lemma RowForMarks(r: TestResult, i: nat, wrong: bool)
    requires i < TotalQuestions
    ensures RowFor(r, i, wrong).selectedAnswer == 'A' <==> RowFor(r, i, wrong).isCorrect == 1
    ensures RowFor(r, i, wrong).selectedAnswer == 'B' <==> RowFor(r, i, wrong).isCorrect == 0
    ensures RowFor(r, i, wrong).quizId == (if r.processId == 1 then CuttingQuizIds[i] else BevelingQuizIds[i])
  {
  }

  // ------------------------------------------------------- block patterns ----

  /** The 30 questions form 5 categories of 6; a block pattern marks wrong the
      last `w[c]` questions of category `c`. */
  predicate BlockWrong(w: seq<int>, i: nat)
    requires |w| == 5 && i < TotalQuestions
  {
    i % 6 >= 6 - w[i / 6]
  }

  function CountBlockWrong(w: seq<int>, n: nat): nat
    requires |w| == 5 && n <= TotalQuestions
  {
    if n == 0 then 0 else CountBlockWrong(w, n - 1) + (if BlockWrong(w, n - 1) then 1 else 0)
  }

  predicate BlockSizes(w: seq<int>)
  {
    |w| == 5 && forall c :: 0 <= c < 5 ==> 0 <= w[c] <= 6
  }

  lemma DivMod6(c: nat, k: nat)
    requires k < 6
    ensures (6 * c + k) / 6 == c && (6 * c + k) % 6 == k
  {
  }

  lemma StepAt(w: seq<int>, c: nat, k: nat)
    requires BlockSizes(w) && c < 5 && k < 6
    ensures CountBlockWrong(w, 6 * c + k + 1) == CountBlockWrong(w, 6 * c + k) + (if k >= 6 - w[c] then 1 else 0)
  {
    DivMod6(c, k);
  }

  /** Within category `c`, the first `k` questions hold the wrong ones past
      position `6 - w[c]`. */
  lemma {:induction false} BlockPrefix(w: seq<int>, c: nat, k: nat)
    requires BlockSizes(w) && c < 5 && k <= 6
    ensures CountBlockWrong(w, 6 * c + k) == CountBlockWrong(w, 6 * c) + (if k <= 6 - w[c] then 0 else k - (6 - w[c]))
  {
    if k > 0 {
      BlockPrefix(w, c, k - 1);
      StepAt(w, c, k - 1);
    }
  }

  lemma OneBlock(w: seq<int>, c: nat)
    requires BlockSizes(w) && c < 5
    ensures CountBlockWrong(w, 6 * c + 6) == CountBlockWrong(w, 6 * c) + w[c]
  {
    BlockPrefix(w, c, 6);
  }

  /** A block pattern marks wrong exactly the sum of its block sizes. */
  lemma CountBlocks(w: seq<int>)
    requires BlockSizes(w)
    ensures CountBlockWrong(w, TotalQuestions) == w[0] + w[1] + w[2] + w[3] + w[4]
  {
    OneBlock(w, 0);
    OneBlock(w, 1);
    OneBlock(w, 2);
    OneBlock(w, 3);
    OneBlock(w, 4);
  }

  /** The rows of a sheet marked wrong. */
  function CountWrongRows(rows: seq<AnswerRow>): nat
  {
    if rows == [] then 0 else CountWrongRows(rows[..|rows| - 1]) + (if rows[|rows| - 1].isCorrect == 0 then 1 else 0)
  }

  /** A sheet following a block pattern has as many wrong rows as the pattern
      marks. */
  lemma {:induction false} CountWrongRowsPattern(r: TestResult, w: seq<int>, rows: seq<AnswerRow>, n: nat)
    requires BlockSizes(w) && n <= TotalQuestions && |rows| == n
    requires forall i :: 0 <= i < n ==> rows[i] == RowFor(r, i, BlockWrong(w, i))
    ensures CountWrongRows(rows) == CountBlockWrong(w, n)
  {
    if n > 0 {
      CountWrongRowsPattern(r, w, rows[..n - 1], n - 1);
    }
  }

  // ---------------------------------------- generate_all_test_answers.cjs ----

  /** The wrong answers per category the script computes. */
  function WrongPerCategory(correctCount: int): nat
    requires 0 <= correctCount <= TotalQuestions
  {
    CeilFifth(TotalQuestions - correctCount)
  }

  function AsWrittenBlocks(correctCount: int): (w: seq<int>)
    requires 0 <= correctCount <= TotalQuestions
    ensures BlockSizes(w)
  {
    var k := WrongPerCategory(correctCount);
    [k, k, k, k, k]
  }

  /** The loop body of `generateAnswers` for question `i`. */
  function AllAnswersRow(r: TestResult, correctCount: int, i: nat): AnswerRow
    requires 0 <= correctCount <= TotalQuestions && i < TotalQuestions
  {
    var isCorrect := if i < correctCount then 1 else 0;
    var positionInCategory := i % 6;
    var wrongPerCategory := WrongPerCategory(correctCount);
    var actualIsCorrect :=
      if positionInCategory >= 6 - wrongPerCategory then 0
      else if correctCount > 0 then 1
      else isCorrect;
    AnswerRow(r.id, QuizIds(r.processId)[i], if actualIsCorrect == 1 then 'A' else 'B', actualIsCorrect)
  }

  /** Question `i` is wrong exactly when its position in its category is among
      the last `ceil(wrongCount / 5)`; the same in every category, and all 30
      wrong when no answer is correct. */
  lemma AllAnswersPattern(r: TestResult, correctCount: int, i: nat)
    requires 0 <= correctCount <= TotalQuestions && i < TotalQuestions
    ensures AllAnswersRow(r, correctCount, i) == RowFor(r, i, BlockWrong(AsWrittenBlocks(correctCount), i))
    ensures correctCount == 0 ==> AllAnswersRow(r, correctCount, i).isCorrect == 0
  {
  }

  /** The 30 rows for one result. */
  method AnswersForResult(r: TestResult) returns (answers: seq<AnswerRow>)
    requires 0.0 <= r.score <= 100.0
    ensures |answers| == TotalQuestions
    ensures forall i :: 0 <= i < TotalQuestions ==> answers[i] == AllAnswersRow(r, CorrectCount(r.score), i)
  {
    var correctCount := CorrectCount(r.score);
    var wrongCount := TotalQuestions - correctCount;
    var quizIds := if r.processId == 1 then CuttingQuizIds else BevelingQuizIds;
    assert quizIds == QuizIds(r.processId);
    answers := [];
    for i := 0 to TotalQuestions
      invariant |answers| == i
      invariant forall j :: 0 <= j < i ==> answers[j] == AllAnswersRow(r, correctCount, j)
    {
      var quizId := quizIds[i];
      var isCorrect := if i < correctCount then 1 else 0;
      var selectedAnswer := if isCorrect == 1 then 'A' else 'B';
      var actualIsCorrect := isCorrect;
      var actualAnswer := selectedAnswer;
      var positionInCategory := i % 6;
      var wrongPerCategory := CeilFifth(wrongCount);
      if positionInCategory >= 6 - wrongPerCategory {
        actualIsCorrect := 0;
        actualAnswer := 'B';
      } else if correctCount > 0 {
        actualIsCorrect := 1;
        actualAnswer := 'A';
      }
      answers := answers + [AnswerRow(r.id, quizId, actualAnswer, actualIsCorrect)];
    }
  }

  function ResultAnswers(r: TestResult): (rows: seq<AnswerRow>)
    requires 0.0 <= r.score <= 100.0
    ensures |rows| == TotalQuestions
  {
    seq(TotalQuestions, i requires 0 <= i < TotalQuestions => AllAnswersRow(r, CorrectCount(r.score), i))
  }

  predicate Scored(results: seq<TestResult>)
  {
    forall k :: 0 <= k < |results| ==> 0.0 <= results[k].score <= 100.0
  }

  function AllAnswers(results: seq<TestResult>): seq<AnswerRow>
    requires Scored(results)
  {
    if results == [] then [] else AllAnswers(results[..|results| - 1]) + ResultAnswers(results[|results| - 1])
  }

  /** The `forEach` over the results; the number of rows is the announced
      `testResults.length * 30`. */
  method GenerateAnswers(results: seq<TestResult>) returns (rows: seq<AnswerRow>)
    requires Scored(results)
    ensures rows == AllAnswers(results)
    ensures |rows| == |results| * TotalQuestions
  {
    rows := [];
    for k := 0 to |results|
      invariant Scored(results[..k]) && rows == AllAnswers(results[..k])
      invariant |rows| == k * TotalQuestions
    {
      assert results[..k + 1][..k] == results[..k];
      var answers := AnswersForResult(results[k]);
      assert answers == ResultAnswers(results[k]);
      rows := rows + answers;
    }
    assert results[..|results|] == results;
  }

  /** The sheet of a result holds `5 * ceil(wrongCount / 5)` wrong answers. */
  lemma AsWrittenWrongCount(correctCount: int)
    requires 0 <= correctCount <= TotalQuestions
    ensures CountBlockWrong(AsWrittenBlocks(correctCount), TotalQuestions) == 5 * WrongPerCategory(correctCount)
  {
    var w := AsWrittenBlocks(correctCount);
    var k := WrongPerCategory(correctCount);
    CountBlocks(w);
    assert w[0] + w[1] + w[2] + w[3] + w[4] == k + k + k + k + k;
  }

  /** The sheet the script writes for a result has `5 * ceil(wrongCount / 5)`
      wrong rows. */
  lemma AsWrittenSheetCount(r: TestResult, answers: seq<AnswerRow>)
    requires 0.0 <= r.score <= 100.0 && |answers| == TotalQuestions
    requires forall i :: 0 <= i < TotalQuestions ==> answers[i] == AllAnswersRow(r, CorrectCount(r.score), i)
    ensures CountWrongRows(answers) == 5 * WrongPerCategory(CorrectCount(r.score))
  {
    var cc := CorrectCount(r.score);
    forall i | 0 <= i < TotalQuestions ensures answers[i] == RowFor(r, i, BlockWrong(AsWrittenBlocks(cc), i)) {
      AllAnswersPattern(r, cc, i);
    }
    CountWrongRowsPattern(r, AsWrittenBlocks(cc), answers, TotalQuestions);
    AsWrittenWrongCount(cc);
  }

  /** So the sheet agrees with the result's correct count only when the wrong
      count is a multiple of 5. */
  lemma AsWrittenAgreesIff(correctCount: int)
    requires 0 <= correctCount <= TotalQuestions
    ensures CountBlockWrong(AsWrittenBlocks(correctCount), TotalQuestions) == TotalQuestions - correctCount
      <==> (TotalQuestions - correctCount) % 5 == 0
  {
    AsWrittenWrongCount(correctCount);
  }

  /** A score of 96.7 gives 29 correct answers, but its sheet has 5 wrong ones. */
  lemma AsWrittenCounterexample()
    ensures CorrectCount(96.7) == 29
    ensures CountBlockWrong(AsWrittenBlocks(29), TotalQuestions) == 5
  {
    AsWrittenWrongCount(29);
  }

  // ------------------------------------------------- the corrected pattern ----

  /** The wrong answers spread over the categories: `wrongCount / 5` in each and
      one more in the first `wrongCount % 5`. */
  function SpreadBlocks(correctCount: int): (w: seq<int>)
    requires 0 <= correctCount <= TotalQuestions
    ensures BlockSizes(w)
  {
    seq(5, c requires 0 <= c < 5 => SpreadInCategory(TotalQuestions - correctCount, c))
  }

  function SpreadInCategory(wrongCount: nat, c: nat): int
  {
    wrongCount / 5 + (if c < wrongCount % 5 then 1 else 0)
  }

  /** The corrected sheet has exactly `30 - correctCount` wrong answers, and the
      categories differ by at most one wrong answer. */
  lemma SpreadWrongCount(correctCount: int)
    requires 0 <= correctCount <= TotalQuestions
    ensures CountBlockWrong(SpreadBlocks(correctCount), TotalQuestions) == TotalQuestions - correctCount
    ensures forall c, d :: 0 <= c < 5 && 0 <= d < 5 ==>
      SpreadBlocks(correctCount)[c] - SpreadBlocks(correctCount)[d] <= 1
  {
    var w := SpreadBlocks(correctCount);
    CountBlocks(w);
    var wc := TotalQuestions - correctCount;
    var r := wc % 5;
    assert w[0] + w[1] + w[2] + w[3] + w[4] == 5 * (wc / 5) + r by {
      if r == 0 {
      } else if r == 1 {
      } else if r == 2 {
      } else if r == 3 {
      } else {
      }
    }
  }

  /** The corrected loop body for question `i`. */
  function SpreadRow(r: TestResult, correctCount: int, i: nat): AnswerRow
    requires 0 <= correctCount <= TotalQuestions && i < TotalQuestions
  {
    RowFor(r, i, BlockWrong(SpreadBlocks(correctCount), i))
  }

  lemma SpreadRowAt(r: TestResult, correctCount: int, i: nat)
    requires 0 <= correctCount <= TotalQuestions && i < TotalQuestions
    ensures SpreadRow(r, correctCount, i) == RowFor(r, i, i % 6 >= 6 - SpreadInCategory(TotalQuestions - correctCount, i / 6))
  {
  }

  /** The corrected sheet for one result. */
  method SpreadAnswersForResult(r: TestResult) returns (answers: seq<AnswerRow>)
    requires 0.0 <= r.score <= 100.0
    ensures |answers| == TotalQuestions
    ensures forall i :: 0 <= i < TotalQuestions ==> answers[i] == SpreadRow(r, CorrectCount(r.score), i)
  {
    var correctCount := CorrectCount(r.score);
    var wrongCount := TotalQuestions - correctCount;
    var quizIds := if r.processId == 1 then CuttingQuizIds else BevelingQuizIds;
    assert quizIds == QuizIds(r.processId);
    answers := [];
    for i := 0 to TotalQuestions
      invariant |answers| == i
      invariant forall j :: 0 <= j < i ==> answers[j] == SpreadRow(r, correctCount, j)
    {
      var categoryIndex := i / 6;
      var wrongInCategory := SpreadInCategory(wrongCount, categoryIndex);
      var wrong := i % 6 >= 6 - wrongInCategory;
      SpreadRowAt(r, correctCount, i);
      answers := answers + [AnswerRow(r.id, quizIds[i], if wrong then 'B' else 'A', if wrong then 0 else 1)];
    }
  }

  /** The corrected sheet of a result has as many correct answers as its score
      says. */
  lemma SpreadSheetMatchesScore(r: TestResult, answers: seq<AnswerRow>)
    requires 0.0 <= r.score <= 100.0 && |answers| == TotalQuestions
    requires forall i :: 0 <= i < TotalQuestions ==> answers[i] == SpreadRow(r, CorrectCount(r.score), i)
    ensures CountWrongRows(answers) == TotalQuestions - CorrectCount(r.score)
  {
    forall i | 0 <= i < TotalQuestions ensures answers[i] == RowFor(r, i, BlockWrong(SpreadBlocks(CorrectCount(r.score)), i)) {
    }
    CountWrongRowsPattern(r, SpreadBlocks(CorrectCount(r.score)), answers, TotalQuestions);
    SpreadWrongCount(CorrectCount(r.score));
  }

  // ------------------------------------------ generate_answers_from_db.cjs ----

  /** The condition of the database-driven script for question `i`. */
  predicate FromDbWrong(correctCount: int, i: nat)
    requires 0 <= correctCount <= TotalQuestions && i < TotalQuestions
  {
    i % 6 >= 6 - CeilFifth(TotalQuestions - correctCount) && i >= TotalQuestions - (TotalQuestions - correctCount)
  }

  /** The 30 rows the database-driven script writes for one result. */
  method FromDbAnswersForResult(r: TestResult) returns (answers: seq<AnswerRow>)
    requires 0.0 <= r.score <= 100.0
    ensures |answers| == TotalQuestions
    ensures forall i :: 0 <= i < TotalQuestions ==> answers[i] == RowFor(r, i, FromDbWrong(CorrectCount(r.score), i))
  {
    var correctCount := CorrectCount(r.score);
    var quizIds := if r.processId == 1 then CuttingQuizIds else BevelingQuizIds;
    assert quizIds == QuizIds(r.processId);
    answers := [];
    for i := 0 to TotalQuestions
      invariant |answers| == i
      invariant forall j :: 0 <= j < i ==> answers[j] == RowFor(r, j, FromDbWrong(correctCount, j))
    {
      var quizId := quizIds[i];
      var wrongPerCategory := CeilFifth(TotalQuestions - correctCount);
      var positionInCategory := i % 6;
      var isCorrect := 1;
      var selectedAnswer := 'A';
      if positionInCategory >= 6 - wrongPerCategory && i >= TotalQuestions - (TotalQuestions - correctCount) {
        isCorrect := 0;
        selectedAnswer := 'B';
      }
      assert AnswerRow(r.id, quizId, selectedAnswer, isCorrect) == RowFor(r, i, FromDbWrong(correctCount, i));
      answers := answers + [AnswerRow(r.id, quizId, selectedAnswer, isCorrect)];
    }
  }

  function FromDbSheet(r: TestResult): (rows: seq<AnswerRow>)
    requires 0.0 <= r.score <= 100.0
    ensures |rows| == TotalQuestions
  {
    seq(TotalQuestions, i requires 0 <= i < TotalQuestions => RowFor(r, i, FromDbWrong(CorrectCount(r.score), i)))
  }

  function FromDbAnswers(results: seq<TestResult>): seq<AnswerRow>
    requires Scored(results)
  {
    if results == [] then [] else FromDbAnswers(results[..|results| - 1]) + FromDbSheet(results[|results| - 1])
  }

  /** The `forEach` over the fetched results: 30 rows per result. */
  method FromDbGenerate(results: seq<TestResult>) returns (rows: seq<AnswerRow>)
    requires Scored(results)
    ensures rows == FromDbAnswers(results)
    ensures |rows| == |results| * TotalQuestions
  {
    rows := [];
    for k := 0 to |results|
      invariant Scored(results[..k]) && rows == FromDbAnswers(results[..k])
      invariant |rows| == k * TotalQuestions
    {
      assert results[..k + 1][..k] == results[..k];
      var answers := FromDbAnswersForResult(results[k]);
      assert answers == FromDbSheet(results[k]);
      rows := rows + answers;
    }
    assert results[..|results|] == results;
  }

  function CountFromDbWrong(correctCount: int, n: nat): nat
    requires 0 <= correctCount <= TotalQuestions && n <= TotalQuestions
  {
    if n == 0 then 0 else CountFromDbWrong(correctCount, n - 1) + (if FromDbWrong(correctCount, n - 1) then 1 else 0)
  }

  /** Every wrong answer lies at a position from `correctCount` on, so there are
      at most `30 - correctCount` of them. */
  lemma {:induction false} FromDbWrongBound(correctCount: int, n: nat)
    requires 0 <= correctCount <= TotalQuestions && n <= TotalQuestions
    ensures CountFromDbWrong(correctCount, n) <= if n <= correctCount then 0 else n - correctCount
  {
    if n > 0 {
      FromDbWrongBound(correctCount, n - 1);
    }
  }

  /** A sheet following the database-driven condition has as many wrong rows
      as positions where the condition holds. */
  lemma {:induction false} CountFromDbRows(r: TestResult, rows: seq<AnswerRow>, n: nat)
    requires 0.0 <= r.score <= 100.0 && n <= TotalQuestions && |rows| == n
    requires forall i :: 0 <= i < n ==> rows[i] == RowFor(r, i, FromDbWrong(CorrectCount(r.score), i))
    ensures CountWrongRows(rows) == CountFromDbWrong(CorrectCount(r.score), n)
  {
    if n > 0 {
      CountFromDbRows(r, rows[..n - 1], n - 1);
    }
  }

  /** The sheet the database-driven script writes for a result has at most
      `30 - correctCount` wrong rows. */
  lemma FromDbSheetWrongBound(r: TestResult, answers: seq<AnswerRow>)
    requires 0.0 <= r.score <= 100.0 && |answers| == TotalQuestions
    requires forall i :: 0 <= i < TotalQuestions ==> answers[i] == RowFor(r, i, FromDbWrong(CorrectCount(r.score), i))
    ensures CountWrongRows(answers) <= TotalQuestions - CorrectCount(r.score)
  {
    CountFromDbRows(r, answers, TotalQuestions);
    FromDbWrongBound(CorrectCount(r.score), TotalQuestions);
  }

  /** A score of 83.3 gives 25 correct answers, but its sheet has only one
      wrong answer, at the last question. */
  lemma FromDbCounterexample()
    ensures CorrectCount(83.3) == 25
    ensures CountFromDbWrong(25, TotalQuestions) == 1
  {
    FromDbWrongBound(25, 25);
    assert !FromDbWrong(25, 25) && !FromDbWrong(25, 26) && !FromDbWrong(25, 27) && !FromDbWrong(25, 28);
    assert FromDbWrong(25, 29);
  }

  /** The sheet the script writes for a result scored 83.3 has 25 correct
      answers implied by the score, yet only one wrong row. */
  lemma FromDbSheetCounterexample(r: TestResult, answers: seq<AnswerRow>)
    requires r.score == 83.3 && |answers| == TotalQuestions
    requires forall i :: 0 <= i < TotalQuestions ==> answers[i] == RowFor(r, i, FromDbWrong(CorrectCount(r.score), i))
    ensures CorrectCount(r.score) == 25
    ensures CountWrongRows(answers) == 1
  {
    FromDbCounterexample();
    CountFromDbRows(r, answers, TotalQuestions);
  }
}
