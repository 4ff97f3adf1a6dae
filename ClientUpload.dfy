/** The spreadsheet uploads and the written test of the browser client
    (public/static/app.js): quiz rows in two column layouts with the answer mapping
    of the second, the required-field checks that stop at the first bad row,
    worker rows in two layouts, the scoring of a submitted test, and the label of
    the detailed download. A spreadsheet row is the map from column header to cell
    value that the sheet reader produces; reading the file, the alerts and the HTTP
    calls are left out. */
module ClientUpload {
  import opened Common

  /** A spreadsheet row: header to cell. */
  type Row = map<string, JsValue>

  /** `row[header]`: an absent cell reads as `undefined`. */
  function Cell(row: Row, header: string): (v: JsValue)
    ensures header !in row ==> v == Undefined
  {
    if header in row then row[header] else Undefined
  }

  // ----------------------------------------------------------------- quizzes ----

  datatype Quiz = Quiz(
    processId: JsValue, question: JsValue, optionA: JsValue, optionB: JsValue,
    optionC: JsValue, optionD: JsValue, correctAnswer: JsValue)

  predicate IsChoice(v: JsValue)
  {
    v == Str("A") || v == Str("B") || v == Str("C") || v == Str("D")
  }

  /** The answer column of the second layout: a non-empty string is trimmed and
      upper-cased, and "1".."4" become "A".."D"; any other cell is kept as it is. */
  function MapFormat2Answer(v: JsValue): (r: JsValue)
    ensures !(v.Str? && v.s != []) ==> r == v
    ensures v.Str? && v.s != [] && ToUpper(Trim(v.s)) !in {"1", "2", "3", "4"} ==> r == Str(ToUpper(Trim(v.s)))
  {
    if v.Str? && v.s != [] then
      var u := ToUpper(Trim(v.s));
      if u == "1" then Str("A")
      else if u == "2" then Str("B")
      else if u == "3" then Str("C")
      else if u == "4" then Str("D")
      else Str(u)
    else v
  }

  /** The second layout accepts an answer exactly when it is a string that, trimmed,
      is one of A..D or a..d or 1..4. */
  lemma MapFormat2AnswerValid(v: JsValue)
    ensures IsChoice(MapFormat2Answer(v)) <==>
      v.Str? && Trim(v.s) in {"A", "B", "C", "D", "a", "b", "c", "d", "1", "2", "3", "4"}
  {
    if v.Str? && v.s != [] {
      var t := Trim(v.s);
      var u := ToUpper(t);
      if |t| == 1 {
        assert t == [t[0]] && u == [UpperChar(t[0])];
      } else {
        assert |u| != 1;
      }
    } else if v.Str? {
      assert Trim(v.s) == [];
    }
  }

  /** Which letter each answer cell yields: a letter comes from itself in either case or
      from its number, after trimming, and from nothing else. */
  lemma MapFormat2AnswerLetters(v: JsValue)
    ensures MapFormat2Answer(v) == Str("A") <==> v.Str? && Trim(v.s) in {"A", "a", "1"}
    ensures MapFormat2Answer(v) == Str("B") <==> v.Str? && Trim(v.s) in {"B", "b", "2"}
    ensures MapFormat2Answer(v) == Str("C") <==> v.Str? && Trim(v.s) in {"C", "c", "3"}
    ensures MapFormat2Answer(v) == Str("D") <==> v.Str? && Trim(v.s) in {"D", "d", "4"}
  {
    MapFormat2AnswerValid(v);
    if v.Str? && v.s != [] {
      var t := Trim(v.s);
      var u := ToUpper(t);
      if |t| == 1 {
        assert t == [t[0]] && u == [UpperChar(t[0])];
      } else {
        assert |u| != 1;
      }
    } else if v.Str? {
      assert Trim(v.s) == [];
    }
  }

  /** The quiz of a row in the first layout ("Process ID", "Question", ...). */
  function Format1Quiz(row: Row): Quiz
  {
    Quiz(Cell(row, "Process ID"), Cell(row, "Question"), Cell(row, "Option A"), Cell(row, "Option B"),
         Or(Cell(row, "Option C"), Str("")), Or(Cell(row, "Option D"), Str("")), Cell(row, "Correct Answer"))
  }

  /** The quiz of a row in the second layout ("번호", "질문", "1)" .. "4)", "정답"),
      for the process chosen in the form. */
  function Format2Quiz(row: Row, processId: int): Quiz
  {
    Quiz(Num(processId), Cell(row, "질문"), Or(Cell(row, "1)"), Str("")), Or(Cell(row, "2)"), Str("")),
         Or(Cell(row, "3)"), Str("")), Or(Cell(row, "4)"), Str("")), MapFormat2Answer(Cell(row, "정답")))
  }

  /** `rows.map(...)` in the first layout. */
  function Format1Quizzes(rows: seq<Row>): (qs: seq<Quiz>)
    ensures |qs| == |rows| && forall k :: 0 <= k < |rows| ==> qs[k] == Format1Quiz(rows[k])
  {
    seq(|rows|, k requires 0 <= k < |rows| => Format1Quiz(rows[k]))
  }

  /** `rows.map(...)` in the second layout. */
  function Format2Quizzes(rows: seq<Row>, processId: int): (qs: seq<Quiz>)
    ensures |qs| == |rows| && forall k :: 0 <= k < |rows| ==> qs[k] == Format2Quiz(rows[k], processId)
  {
    seq(|rows|, k requires 0 <= k < |rows| => Format2Quiz(rows[k], processId))
  }

  /** Why a quiz upload stops before anything is sent. */
  datatype QuizError =
    | EmptySheet
    | NoProcessSelected
    | UnsupportedQuizLayout
    | MissingQuizField(row: nat)
    | InvalidAnswer(row: nat)

  predicate HasRequiredFields(q: Quiz)
  {
    Truthy(q.processId) && Truthy(q.question) && Truthy(q.optionA) && Truthy(q.optionB) && Truthy(q.correctAnswer)
  }

  predicate QuizOk(q: Quiz)
  {
    HasRequiredFields(q) && IsChoice(q.correctAnswer)
  }

  /** The error for the first bad quiz, numbered from 1, as the validation loop
      reports it. */
  function QuizProblem(q: Quiz, rowNumber: nat): QuizError
    requires !QuizOk(q)
  {
    if !HasRequiredFields(q) then MissingQuizField(rowNumber) else InvalidAnswer(rowNumber)
  }

  predicate AllQuizzesOk(quizzes: seq<Quiz>)
  {
    forall k :: 0 <= k < |quizzes| ==> QuizOk(quizzes[k])
  }

  /** `e` is the error of the first bad quiz, numbered from 1. */
  ghost predicate RejectsQuizzes(quizzes: seq<Quiz>, e: QuizError)
  {
    exists i :: 0 <= i < |quizzes| && !QuizOk(quizzes[i])
      && (forall k :: 0 <= k < i ==> QuizOk(quizzes[k])) && e == QuizProblem(quizzes[i], i + 1)
  }

  /** The validation loop: stops at the first quiz that misses a required field or
      whose answer is not A..D, and names its 1-based position. */
  method ValidateQuizzes(quizzes: seq<Quiz>) returns (r: Result<(), QuizError>)
    ensures r.Ok? <==> AllQuizzesOk(quizzes)
    ensures r.Err? ==> RejectsQuizzes(quizzes, r.error)
  {
    for i := 0 to |quizzes|
      invariant forall k :: 0 <= k < i ==> QuizOk(quizzes[k])
    {
      var quiz := quizzes[i];
      if !Truthy(quiz.processId) || !Truthy(quiz.question) || !Truthy(quiz.optionA)
        || !Truthy(quiz.optionB) || !Truthy(quiz.correctAnswer) {
        return Err(MissingQuizField(i + 1));
      }
      if !IsChoice(quiz.correctAnswer) {
        return Err(InvalidAnswer(i + 1));
      }
    }
    return Ok(());
  }

  /** The quiz upload up to the request: the layout is told by the first row. */
  method BuildQuizzes(rows: seq<Row>, processSelection: Option<int>) returns (r: Result<seq<Quiz>, QuizError>)
    ensures rows == [] ==> r == Err(EmptySheet)
    ensures r.Ok? ==> |r.value| == |rows| && forall k :: 0 <= k < |rows| ==> QuizOk(r.value[k])
    ensures rows != [] && "Process ID" in rows[0] && "Question" in rows[0] ==>
      var quizzes := Format1Quizzes(rows);
      && (r.Ok? <==> AllQuizzesOk(quizzes))
      && (r.Ok? ==> r.value == quizzes)
      && (r.Err? ==> RejectsQuizzes(quizzes, r.error))
    ensures rows != [] && !("Process ID" in rows[0] && "Question" in rows[0]) && "번호" in rows[0] && "질문" in rows[0] ==>
      && (processSelection.None? ==> r == Err(NoProcessSelected))
      && (processSelection.Some? ==>
            var quizzes := Format2Quizzes(rows, processSelection.value);
            && (r.Ok? <==> AllQuizzesOk(quizzes))
            && (r.Ok? ==> r.value == quizzes)
            && (r.Err? ==> RejectsQuizzes(quizzes, r.error)))
    ensures rows != [] && !("Process ID" in rows[0] && "Question" in rows[0]) && !("번호" in rows[0] && "질문" in rows[0]) ==>
      r == Err(UnsupportedQuizLayout)
  {
    if rows == [] {
      return Err(EmptySheet);
    }
    var firstRow := rows[0];
    var quizzes: seq<Quiz>;
    if "Process ID" in firstRow && "Question" in firstRow {
      quizzes := Format1Quizzes(rows);
    } else if "번호" in firstRow && "질문" in firstRow {
      if processSelection.None? {
        return Err(NoProcessSelected);
      }
      var processId := processSelection.value;
      quizzes := Format2Quizzes(rows, processId);
    } else {
      return Err(UnsupportedQuizLayout);
    }
    var valid := ValidateQuizzes(quizzes);
    if valid.Err? {
      return Err(valid.error);
    }
    return Ok(quizzes);
  }

  // ----------------------------------------------------------------- workers ----

  /** A worker of the upload, every field a string. */
  datatype Worker = Worker(
    employeeId: string, name: string, entity: string, team: string, position: string, startDate: string)

  /** `String(v || '')`. */
  function TextOf(v: JsValue): (s: string)
    ensures Truthy(v) && v.Str? ==> s == v.s
    ensures !Truthy(v) ==> s == ""
  {
    JsString(Or(v, Str("")))
  }

  /** `convertExcelDate`: an empty cell gives "", a day serial number is turned
      into a calendar date by `serialDate`, anything else is spelled out. */
  function ConvertExcelDate(v: JsValue, serialDate: int -> string): (s: string)
    ensures !Truthy(v) ==> s == ""
    ensures v.Str? ==> s == v.s
  {
    if !Truthy(v) then "" else if v.Num? then serialDate(v.n) else JsString(v)
  }

  /** A row of the first layout: No, Entity, Name, Employee ID, Team, Position,
      Start to work date. */
  function Format1Worker(row: Row, serialDate: int -> string): Worker
  {
    Worker(TextOf(Cell(row, "Employee ID")), TextOf(Cell(row, "Name")), TextOf(Cell(row, "Entity")),
           TextOf(Cell(row, "Team")), TextOf(Cell(row, "Position")),
           ConvertExcelDate(Cell(row, "Start to work date"), serialDate))
  }

  /** A row of the second layout: Company is the entity, Department the team. */
  function Format2Worker(row: Row, serialDate: int -> string): Worker
  {
    Worker(TextOf(Cell(row, "Employee ID")), TextOf(Cell(row, "Name")), TextOf(Cell(row, "Company")),
           TextOf(Cell(row, "Department")), TextOf(Cell(row, "Position")),
           ConvertExcelDate(Cell(row, "start to work"), serialDate))
  }

  /** `rows.map(...)` in the first layout. */
  function Format1Workers(rows: seq<Row>, serialDate: int -> string): (ws: seq<Worker>)
    ensures |ws| == |rows| && forall k :: 0 <= k < |rows| ==> ws[k] == Format1Worker(rows[k], serialDate)
  {
    seq(|rows|, k requires 0 <= k < |rows| => Format1Worker(rows[k], serialDate))
  }

  /** `rows.map(...)` in the second layout. */
  function Format2Workers(rows: seq<Row>, serialDate: int -> string): (ws: seq<Worker>)
    ensures |ws| == |rows| && forall k :: 0 <= k < |rows| ==> ws[k] == Format2Worker(rows[k], serialDate)
  {
    seq(|rows|, k requires 0 <= k < |rows| => Format2Worker(rows[k], serialDate))
  }

  predicate WorkerComplete(w: Worker)
  {
    w.employeeId != [] && w.name != [] && w.entity != [] && w.team != [] && w.position != [] && w.startDate != []
  }

  datatype WorkerError = EmptyWorkerSheet | UnsupportedWorkerLayout | MissingWorkerField(row: nat)

  predicate AllWorkersComplete(workers: seq<Worker>)
  {
    forall k :: 0 <= k < |workers| ==> WorkerComplete(workers[k])
  }

  /** `e` names the sheet row of the first incomplete worker, the header being row 1. */
  ghost predicate RejectsWorkers(workers: seq<Worker>, e: WorkerError)
  {
    exists i :: 0 <= i < |workers| && !WorkerComplete(workers[i])
      && (forall k :: 0 <= k < i ==> WorkerComplete(workers[k])) && e == MissingWorkerField(i + 2)
  }

  /** The required-field loop: the first incomplete worker is reported by its sheet
      row, counting the header as row 1. */
  method ValidateWorkers(workers: seq<Worker>) returns (r: Result<(), WorkerError>)
    ensures r.Ok? <==> AllWorkersComplete(workers)
    ensures r.Err? ==> RejectsWorkers(workers, r.error)
  {
    for i := 0 to |workers|
      invariant forall k :: 0 <= k < i ==> WorkerComplete(workers[k])
    {
      var worker := workers[i];
      if worker.employeeId == [] || worker.name == [] || worker.entity == []
        || worker.team == [] || worker.position == [] || worker.startDate == [] {
        return Err(MissingWorkerField(i + 2));
      }
    }
    return Ok(());
  }

  /** The worker upload up to the request: the layout is told by the first row. */
  method BuildWorkers(rows: seq<Row>, serialDate: int -> string) returns (r: Result<seq<Worker>, WorkerError>)
    ensures rows == [] ==> r == Err(EmptyWorkerSheet)
    ensures r.Ok? ==> |r.value| == |rows| && forall k :: 0 <= k < |rows| ==> WorkerComplete(r.value[k])
    ensures rows != [] && "Entity" in rows[0] && "Team" in rows[0] ==>
      var workers := Format1Workers(rows, serialDate);
      && (r.Ok? <==> AllWorkersComplete(workers))
      && (r.Ok? ==> r.value == workers)
      && (r.Err? ==> RejectsWorkers(workers, r.error))
    ensures rows != [] && !("Entity" in rows[0] && "Team" in rows[0]) && "Company" in rows[0] && "Department" in rows[0] ==>
      var workers := Format2Workers(rows, serialDate);
      && (r.Ok? <==> AllWorkersComplete(workers))
      && (r.Ok? ==> r.value == workers)
      && (r.Err? ==> RejectsWorkers(workers, r.error))
    ensures rows != [] && !("Entity" in rows[0] && "Team" in rows[0]) && !("Company" in rows[0] && "Department" in rows[0]) ==>
      r == Err(UnsupportedWorkerLayout)
  {
    if rows == [] {
      return Err(EmptyWorkerSheet);
    }
    var firstRow := rows[0];
    var workers: seq<Worker>;
    if "Entity" in firstRow && "Team" in firstRow {
      workers := Format1Workers(rows, serialDate);
    } else if "Company" in firstRow && "Department" in firstRow {
      workers := Format2Workers(rows, serialDate);
    } else {
      return Err(UnsupportedWorkerLayout);
    }
    var valid := ValidateWorkers(workers);
    if valid.Err? {
      return Err(valid.error);
    }
    return Ok(workers);
  }

  // ------------------------------------------------------------ written test ----

  datatype TestQuiz = TestQuiz(id: int, correctAnswer: string)

  datatype SubmittedAnswer = SubmittedAnswer(quizId: int, selected: Option<string>, isCorrect: bool)

  /** What `submitTest` posts; the score is absent where the client divides 0 by 0. */
  datatype Submission = Submission(score: Option<real>, passed: bool, correct: nat, answers: seq<SubmittedAnswer>)

  datatype SubmitError = NotAllAnswered

  /** `selectedAnswers[quiz.id] === quiz.correct_answer`. */
  predicate AnsweredCorrectly(selected: map<int, string>, q: TestQuiz)
  {
    q.id in selected && selected[q.id] == q.correctAnswer
  }

  function CorrectTotal(quizzes: seq<TestQuiz>, selected: map<int, string>): (n: nat)
    ensures n <= |quizzes|
  {
    if quizzes == [] then 0
    else CorrectTotal(quizzes[..|quizzes| - 1], selected) + (if AnsweredCorrectly(selected, quizzes[|quizzes| - 1]) then 1 else 0)
  }

  /** The pass mark of the written test: `(correct / total) * 100 >= 60`. */
  predicate TestPassed(correct: nat, total: nat)
  {
    total > 0 && (correct as real / total as real) * 100.0 >= 60.0
  }

  /** The pass mark as an integer comparison: at least 60 percent correct, and no
      pass for a test without questions. */
  lemma TestPassedIff(correct: nat, total: nat)
    ensures TestPassed(correct, total) <==> total > 0 && 100 * correct >= 60 * total
  {
    if total > 0 {
      var t, c := total as real, correct as real;
      var s := (c / t) * 100.0;
      assert s * t == c * 100.0;
      if s >= 60.0 {
        assert (s - 60.0) * t >= 0.0;
        assert c * 100.0 >= 60.0 * t;
      } else {
        assert (60.0 - s) * t > 0.0;
        assert c * 100.0 < 60.0 * t;
      }
    }
  }

  /** `submitTest`: refused unless as many answers were chosen as there are
      quizzes; otherwise each quiz is marked and the score and pass are computed. */
  method SubmitTest(quizzes: seq<TestQuiz>, selected: map<int, string>) returns (r: Result<Submission, SubmitError>)
    ensures |selected.Keys| != |quizzes| <==> r == Err(NotAllAnswered)
    ensures r.Ok? ==>
      var sub := r.value;
      && sub.correct == CorrectTotal(quizzes, selected)
      && |sub.answers| == |quizzes|
      && (forall k :: 0 <= k < |quizzes| ==>
            sub.answers[k].quizId == quizzes[k].id
            && sub.answers[k].selected == (if quizzes[k].id in selected then Some(selected[quizzes[k].id]) else None)
            && (sub.answers[k].isCorrect <==> AnsweredCorrectly(selected, quizzes[k])))
      && (sub.passed <==> |quizzes| > 0 && 100 * sub.correct >= 60 * |quizzes|)
      && (sub.score.Some? <==> |quizzes| > 0)
      && (|quizzes| > 0 ==> sub.score == Some((sub.correct as real / |quizzes| as real) * 100.0))
      && (sub.passed <==> sub.score.Some? && sub.score.value >= 60.0)
  {
    if |selected.Keys| != |quizzes| {
      return Err(NotAllAnswered);
    }
    var correctCount := 0;
    var answers: seq<SubmittedAnswer> := [];
    for i := 0 to |quizzes|
      invariant correctCount == CorrectTotal(quizzes[..i], selected)
      invariant |answers| == i
      invariant forall k :: 0 <= k < i ==>
        answers[k].quizId == quizzes[k].id
        && answers[k].selected == (if quizzes[k].id in selected then Some(selected[quizzes[k].id]) else None)
        && (answers[k].isCorrect <==> AnsweredCorrectly(selected, quizzes[k]))
    {
      assert quizzes[..i + 1][..i] == quizzes[..i];
      var quiz := quizzes[i];
      var isCorrect := quiz.id in selected && selected[quiz.id] == quiz.correctAnswer;
      if isCorrect {
        correctCount := correctCount + 1;
      }
      var choice := if quiz.id in selected then Some(selected[quiz.id]) else None;
      answers := answers + [SubmittedAnswer(quiz.id, choice, isCorrect)];
    }
    assert quizzes[..|quizzes|] == quizzes;
    var score := if |quizzes| > 0 then Some((correctCount as real / |quizzes| as real) * 100.0) else None;
    var passed := TestPassed(correctCount, |quizzes|);
    TestPassedIff(correctCount, |quizzes|);
    return Ok(Submission(score, passed, correctCount, answers));
  }

  // -------------------------------------------------------- detailed download ----

  /** The "평가 결과" column: no level gives "N/A", level 3 and above "만족"
      (satisfied), lower levels "불만족" (not satisfied). */
  function EvaluationLabel(level: Option<int>): (text: string)
    ensures level.None? <==> text == "N/A"
    ensures text == "만족" <==> level.Some? && level.value >= 3
    ensures text == "불만족" <==> level.Some? && level.value < 3
  {
    if level.Some? then (if level.value >= 3 then "만족" else "불만족") else "N/A"
  }
}
