# Skill-level evaluation: a verified model

This Dafny project models the core of a web application that records the skill
level of production workers by position. The application has four parts:

- an API server (`src/index.tsx`). It:
  - upserts workers;
  - takes written-test answer sheets in bulk;
  - derives a worker's final level (1 to 4) from supervisor assessments;
  - exports a comprehensive report.
- a browser client (`public/static/app.js`). It:
  - reads workers and quizzes from Excel sheets;
  - runs a supervisor assessment session;
  - grades an online written test;
  - labels assessment results.
- three generators of test data (`generate_test_assessments.py`,
  `generate_test_data.cjs`, `generate_all_test_answers.cjs`).
- one generator of answer sheets from the database (`generate_answers_from_db.cjs`).

The rule that ties it together: a worker holds level N (N = 2..4) only when every
item of the categories Level2 through LevelN is satisfied. A category counts as
complete only when it has at least one item and all of them are satisfied.

The model has one module per core concern:

- `Common`: JavaScript values and truthiness, `||`, `trim`, ASCII case mapping,
  decimal strings.
- `SkillLevel`: the server's level rules. The server states the cumulative rule in
  four places: the bulk upload, the batch upload, the worker analysis and the level
  recalculation. All four are modelled, and each is proved equal to the bulk rule.
  Also the per-row level and the export's final level.
- `Normalize`: the team, position and entity normalisers; the question key of the
  written-test upload; the repair of dotted test dates.
- `WorkerUpsert`: `POST /api/workers/bulk`, as a class over the worker table.
- `WrittenTestUpload`: `POST /api/written-test-results/bulk`. It covers:
  - the three lookup maps;
  - the first pass, which validates and groups rows;
  - the second pass, which scores each group and writes it into a class over the
    results table.
- `ClientUpload`: the client's quiz and worker sheet readers, the online test
  grading and the evaluation label.
- `ClientAssessment`: the client's assessment session. It:
  - filters and Fisher–Yates-shuffles the items;
  - records results one by one;
  - extracts each level from the category text;
  - tallies results per level;
  - computes the final level.
- `GenAssessments`: the Python generator of supervisor assessments. It models
  `random.choices`, `randint` and `sample`, and the rows with their timestamps.
- `GenTestData`: the JavaScript generator of supervisor assessments, with
  `weightedRandom` and the per-entity summary.
- `GenAnswers`: the two answer-sheet generators, as written, plus a corrected
  pattern.

Random draws, database rows and the current time are parameters. Every imperative
loop of the core is a `method`, proved against a function of its inputs. The
properties the application relies on are lemmas about those functions.

## Model

| member | source | states |
|---|---|---|
| SkillLevel.BulkFinalLevel | src/index.tsx:1696-1704 | The bulk level is 1..4. It is at least 2 iff Level2 is complete, at least 3 iff Level2 and Level3 are complete, and 4 iff all three are complete. |
| SkillLevel.BulkFinalLevelMonotone | src/index.tsx:1696-1704 | Completing more categories never lowers the bulk level. |
| SkillLevel.CategoryMap | src/index.tsx:2783-2791 | The batch `categoryMap` has exactly the categories of the rows. Each maps to "complete" judged on the last row for that category. |
| SkillLevel.BuildCategoryMap | src/index.tsx:2780-2791 | The `for` loop with `categoryMap.set` builds exactly the map CategoryMap characterises. |
| SkillLevel.LastRowFor | src/index.tsx:2783-2791 | Finds the row that decides a category. None iff no row has the category; otherwise a row of the category. |
| SkillLevel.BatchAchievedLevel | src/index.tsx:2796-2809 | The batch level is 1..4, with the same cumulative iff-characterisation read through `categoryMap.get(..) === true`. |
| SkillLevel.BatchAgreesWithBulk | src/index.tsx:2780-2809 | On the same per-category counts, the batch rule and the bulk rule give the same level. |
| SkillLevel.LevelSatisfaction | src/index.tsx:1092-1103 | The analysis table has exactly the categories that occur. Each holds its row count and its satisfied-row count. |
| SkillLevel.AnalysisFinalLevel | src/index.tsx:1106-1117 | The loop that stops at the first incomplete level yields the cumulative level. Each level is looked up as "LevelN", then as "Level N". |
| SkillLevel.AnalysisAgreesWithBulk | src/index.tsx:1106-1117 | The analysis level equals the bulk rule applied to the stats it looks up. |
| SkillLevel.RecalcFinalLevel | src/index.tsx:1753-1797 | The recalculated level is 1..4. It is at least 2 iff both Level 2 count rows exist, there is an item and every item is satisfied; each higher level also needs all the levels below. |
| SkillLevel.RecalcAgreesWithBulk | src/index.tsx:1753-1797 | The recalculation gives the bulk rule's level, with a missing count row counting as zero. |
| SkillLevel.RecalculateLevels | src/index.tsx:1735-1818 | Every worker is counted in `updatedCount`. The response shows the first 20 workers' rows (or all, if fewer), each with its recalculated level and its `\|\| 0` counts. |
| SkillLevel.RowLevel | src/index.tsx:1589-1598 | An unsatisfied row is level 1. A satisfied row is level 2, 3 or 4 exactly when its category, lower-cased with whitespace removed, is "level2", "level3" or "level4". |
| SkillLevel.ExportFinalLevel | src/index.tsx:2437-2463 | For both-test positions, a score below 60 gives level 1; otherwise the supervisor level. A missing score counts as 0, and a missing or zero supervisor level as 1. |
| Common.Or | src/index.tsx:1589 | JavaScript `a \|\| b`: the result is truthy iff either operand is, and it is `a` when `a` is truthy. |
| Common.Trim | src/index.tsx:448-450 | `trim()`: a slice of the input with no whitespace at either end. Everything cut off is whitespace. |
| Common.StripSpacesOne | src/index.tsx:2176 | `replace(/\s+/g, '')` removes a single character iff it is whitespace. |
| Common.StripSpacesAppend | src/index.tsx:2176 | Whitespace removal of a concatenation is the concatenation of the removals, so the other characters are kept in their order. |
| Common.TrimOfTrimmed | src/index.tsx:448-450 | Trimming a string with no whitespace at either end leaves it unchanged. |
| Common.ToUpperIdempotent | src/index.tsx:448-450 | Upper-casing twice equals upper-casing once. |
| Normalize.NormalizeField | src/index.tsx:449-450 | A normalised team or position is no longer than the input, has no lower-case letter, and has no whitespace at either end. |
| Normalize.NormalizeFieldIdempotent | src/index.tsx:449-450 | Normalising a field twice gives the same result as once. |
| Normalize.NormalizeFieldOfPlain | src/index.tsx:449-450 | A word with no whitespace and no lower-case letter is already normal. |
| Normalize.StandardizeEntity | src/index.tsx:448-456 | A stored entity is never the short form VN, CN or TW. |
| Normalize.StandardizeEntityMapping | src/index.tsx:448-456 | CSVN comes exactly from VN or CSVN, CSCN from CN or CSCN, and CSTW from TW or CSTW, after trimming and upper-casing. Any other wording is kept normalised. |
| Normalize.StandardizeEntityIdempotent | src/index.tsx:448-456 | Standardising an already standard entity changes nothing, so re-uploading a worker finds the same key. |
| Normalize.RemoveQuotes | src/index.tsx:2909 | No quote character of the class is left. Text with no capitals becomes free of capitals and quotes. |
| Normalize.RemoveQuotesOne | src/index.tsx:2909 | A single character is removed iff it is in the quote class. |
| Normalize.RemoveQuotesAppend | src/index.tsx:2909 | The filter of a concatenation is the concatenation of the filters, so the remaining characters are kept in their order. |
| Normalize.RemoveQuotesNoQuotes | src/index.tsx:2909 | A text without quote characters is unchanged. |
| Normalize.CollapseSpaces | src/index.tsx:2910 | Clean text becomes tidy: every whitespace is a single plain space. The result is empty iff the input is, and it starts with a space iff the input does. |
| Normalize.CollapseSpacesKeepsText | src/index.tsx:2910 | A character that is not whitespace is kept, in front of the collapsed rest. |
| Normalize.CollapseSpacesRun | src/index.tsx:2910 | A maximal run of whitespace of any length and kind becomes exactly one plain space, in front of the collapsed rest. |
| Normalize.DropTrailingQuestionMarks | src/index.tsx:2911 | The result is the longest prefix ending in something other than `?` or `？`. Only question marks were removed. |
| Normalize.StripSuffix | src/index.tsx:2912-2913 | When the word followed only by `?` ends the text, the text is cut where that match starts; otherwise it is unchanged. |
| Normalize.NormalizeQuestion | src/index.tsx:2904-2915 | The key has no capitals, no quotes, no runs or other kinds of whitespace, and no space at either end. |
| Normalize.NormalizeQuestionOfPlain | src/index.tsx:2904-2915 | A question already in key form is its own key: no whitespace, quote or capital, no trailing question mark, and neither suffix at its end. |
| Normalize.NormalizeQuestionIgnoresCase | src/index.tsx:2904-2906 | A question with no whitespace at either end has the same key as its upper-cased spelling. |
| Normalize.PlainKeyStages | src/index.tsx:2904-2910 | The first four stages leave a text with no whitespace, quotes or capitals unchanged. |
| Normalize.KeyOfQuestionMark | src/index.tsx:2904-2915 | The key of "a?" is "a". |
| Normalize.NormalizeQuestionNotIdempotent | src/index.tsx:2904-2915 | The key is not idempotent. "a?무엇인가요" keys to "a?", whose own key is "a". |
| Normalize.DotsToDashes | src/index.tsx:2177 | Every dot becomes a dash; nothing else changes. |
| Normalize.DropTrailing | src/index.tsx:2178 | Removing a trailing run of one character (`-` in the dates, `?` in the question suffixes) gives the longest prefix that does not end in that character. Only that character was removed. |
| Normalize.NormalizeDate | src/index.tsx:2174-2178 | The repaired date has no dot and no whitespace, does not end in a dash, and is the spaceless, dashed date minus its trailing dashes. |
| Normalize.NormalizeDottedDate | src/index.tsx:2174-2178 | "YYYY. MM. DD." becomes "YYYY-MM-DD" for any digit strings. |
| Normalize.NormalizeDateFixesNormalized | src/index.tsx:2174-2178 | A date already in repaired form is left unchanged, so the repair can be run again safely. |
| WorkerUpsert.RecordOf | src/index.tsx:461-489 | The stored columns are the name and start date as given, with team and position normalised. |
| WorkerUpsert.Upsert | src/index.tsx:458-489 | After one worker, the row under their key holds their columns. The keys gain at most that key; every other row is unchanged. |
| WorkerUpsert.UploadKeys | src/index.tsx:446-459 | Every uploaded worker's (employee id, standard entity) key is among the upload's keys. |
| WorkerUpsert.UploadKeysFromWorkers | src/index.tsx:446-459 | Each upload key belongs to some uploaded worker. |
| WorkerUpsert.ApplyAllKeys | src/index.tsx:446-490 | After the upload, the table holds exactly the old keys plus the uploaded keys. |
| WorkerUpsert.InsertsAreNewKeys | src/index.tsx:476-489 | The table grows by exactly the number of inserts, which is at most the number of workers. |
| WorkerUpsert.InsertsCountNewKeys | src/index.tsx:476-489 | The insert count equals the number of uploaded keys not already in the table. |
| WorkerUpsert.ReuploadInsertsNothing | src/index.tsx:458-489 | Uploading the same file a second time only updates rows. |
| WorkerUpsert.LastWriteWins | src/index.tsx:461-475 | The last worker of the upload with a given key decides that key's row. |
| WorkerUpsert.UntouchedRowsKept | src/index.tsx:446-490 | A stored worker whose key is not in the upload keeps their row. |
| WorkerUpsert.WorkerTable.BulkUpsert | src/index.tsx:439-499 | The table becomes the fold of the upsert over the workers. `count` is the number of workers, `inserted` the number of new keys, and `inserted + updated == count`. |
| WrittenTestUpload.LastWinsKeys | src/index.tsx:2881-2891 | A `Map` filled by `set` has exactly the keys that were set. |
| WrittenTestUpload.LastWinsValue | src/index.tsx:2881-2891 | The value under a key is that of the last `set` with that key. |
| WrittenTestUpload.LoadWorkerMap | src/index.tsx:2881-2891 | The worker map sends `${employee_id}-${entity}` to the id of the last worker with that key. |
| WrittenTestUpload.LoadPositionMap | src/index.tsx:2895-2900 | The position map sends the trimmed, upper-cased name to the id of the last position with that name. |
| WrittenTestUpload.LoadQuizMap | src/index.tsx:2918-2924 | The quiz map sends `${process_id}-${normalised question}` to the id of the last quiz with that key. |
| WrittenTestUpload.WorkerFound | src/index.tsx:2881-2891 | A stored worker is found under their composite key unless a later worker shares the key. |
| WrittenTestUpload.PositionFoundByAnySpelling | src/index.tsx:2895-2900 | A spelling finds a position iff some stored position has the same trimmed, upper-cased name. |
| WrittenTestUpload.QuizFoundByAnySpelling | src/index.tsx:2918-2924 | A question spelling finds a quiz iff some stored quiz has the same process and the same question key. |
| WrittenTestUpload.LoadLookups | src/index.tsx:2881-2924 | The three loading loops produce the last-wins maps of the three tables. |
| WrittenTestUpload.GroupKeyInjective | src/index.tsx:2972 | For database ids, equal group keys mean the same worker, position and test date. |
| WrittenTestUpload.WorkerNotFoundIff | src/index.tsx:2943-2950 | A row is skipped for its worker iff no stored worker has its employee id and entity. |
| WrittenTestUpload.ProcessResult | src/index.tsx:2942-2995 | A row is accepted iff all three lookups succeed. An accepted row opens its group or appends its answer; a skipped row changes nothing. |
| WrittenTestUpload.GroupResults | src/index.tsx:2941-2996 | The first pass yields the grouping of the accepted rows. The success count is the number of accepted rows, and `success + skipped` is the number of rows. |
| WrittenTestUpload.GroupingIsExact | src/index.tsx:2972-2988 | There is one group per key of the accepted rows. Each group's header comes from its first row, and it holds that key's answers in upload order. |
| WrittenTestUpload.GroupsKeyedByHeader | src/index.tsx:2972-2981 | Each group sits under the key spelled from its own worker, position and date. |
| WrittenTestUpload.CorrectCount | src/index.tsx:3005 | The count of `is_correct === 1` answers is at most the number of answers. |
| WrittenTestUpload.Score | src/index.tsx:3004-3006 | The score is between 0 and 100; an empty group scores 0. |
| WrittenTestUpload.PassedIff | src/index.tsx:3004-3007 | A group passes iff it is non-empty and 100 × correct ≥ 80 × total. |
| WrittenTestUpload.ThresholdScaled | src/index.tsx:3006-3007 | For m > 0, (n/m)·100 ≥ 80 iff 100n ≥ 80m. |
| WrittenTestUpload.StoredOf | src/index.tsx:3004-3051 | A stored result keeps the group's answers. Its pass flag is the integer 80% rule. |
| WrittenTestUpload.ResultStore.StoreGroups | src/index.tsx:3001-3056 | Every group is written under its (worker, process, date) key with its score, pass flag and answers. Existing results under those keys are replaced; other results are kept. |
| WrittenTestUpload.ResultStore.UploadResults | src/index.tsx:2858-3063 | The whole upload: counts as in the first pass, with `total` the number of rows, and the results table as after `StoreGroups` of the first pass's groups. |
| ClientUpload.MapFormat2Answer | public/static/app.js:628-636 | Only non-empty strings are changed; every other value is passed through. A non-empty string that is not "1".."4" once trimmed and upper-cased becomes its trimmed, upper-cased text. |
| ClientUpload.MapFormat2AnswerLetters | public/static/app.js:628-636 | The cell yields "A" iff it is a string whose trim is "A", "a" or "1"; likewise "B" for B, b, 2, "C" for C, c, 3 and "D" for D, d, 4. |
| ClientUpload.MapFormat2AnswerValid | public/static/app.js:628-661 | A layout-2 answer cell becomes a valid choice iff it is a string whose trim is one of A–D, a–d or 1–4. |
| ClientUpload.ValidateQuizzes | public/static/app.js:653-663 | Ok iff every quiz has its required fields and an answer among A–D. Otherwise the error names the first bad quiz, with its 1-based row. |
| ClientUpload.BuildQuizzes | public/static/app.js:595-663 | An empty sheet is an error. The first row's headers pick layout 1 or 2, and anything else is unsupported. Layout 2 without a selected process is an error. In a recognised layout (with a process for layout 2), the result is Ok iff every mapped quiz is valid, and then holds the mapped quizzes. Otherwise the error is that of the first bad quiz, with its 1-based row. |
| ClientUpload.ConvertExcelDate | public/static/app.js:8-22 | A falsy cell gives the empty string; a string cell is returned as is. |
| ClientUpload.ValidateWorkers | public/static/app.js:1591-1599 | Ok iff every worker has all six fields. Otherwise the error names the first incomplete worker, with their sheet row (index + 2). |
| ClientUpload.BuildWorkers | public/static/app.js:1556-1599 | An empty sheet is an error. The first row's headers pick layout 1 or 2, and anything else is unsupported. In a recognised layout, the result is Ok iff every mapped worker is complete, and then holds the mapped workers. Otherwise the error gives the sheet row (index + 2) of the first incomplete worker. |
| ClientUpload.CorrectTotal | public/static/app.js:2794-2805 | The number of correct answers is at most the number of quizzes. |
| ClientUpload.TestPassedIff | public/static/app.js:2807-2808 | A written test passes iff it has quizzes and 100 × correct ≥ 60 × total. |
| ClientUpload.SubmitTest | public/static/app.js:2780-2808 | The test is refused iff the number of answered quizzes differs from the number of quizzes. Otherwise there is one answer per quiz, each marked correct iff its choice is the quiz's answer; the correct count and the 60% pass rule follow. The posted score is correct/total·100, present iff there are quizzes, and the test passes iff that score is at least 60. |
| ClientUpload.EvaluationLabel | public/static/app.js:2385-2388 | "N/A" iff there is no level; "만족" iff the level is at least 3; "불만족" iff it is below 3. |
| ClientAssessment.Pick | public/static/app.js:1818 | `Math.floor(random() * (i + 1))` is at most i. |
| ClientAssessment.FisherYatesPermutes | public/static/app.js:1815-1822 | The shuffle keeps the length and is a permutation of its input. |
| ClientAssessment.ShuffleArray | public/static/app.js:1815-1822 | The loop computes the Fisher–Yates shuffle for the draws, so the result is a permutation of the input. |
| ClientAssessment.ItemsFor | public/static/app.js:1786-1788 | The offered items are exactly those of the process plus the general ones (no process); nothing else is offered. |
| ClientAssessment.CategoryText | public/static/app.js:1892 | A missing or empty category becomes "기타"; any other category is kept. |
| ClientAssessment.UncategorisedIsGeneral | public/static/app.js:1892-1899 | A result without a category, placeholder "기타", is tallied under "general". |
| ClientAssessment.LevelOf | public/static/app.js:1894-1899 | The category is "general" iff it contains neither "level" (any case) followed by optional whitespace and a digit, nor "l"/"L" followed by a digit. |
| ClientAssessment.LevelOfLeftmostWord | public/static/app.js:1896-1899 | The level comes from the digits after the leftmost "level" word. |
| ClientAssessment.LevelOfLeftmostShortForm | public/static/app.js:1896-1899 | With no "level" word, the level comes from the digits after the leftmost "l"+digit. |
| ClientAssessment.LevelOfSpelledLevel | public/static/app.js:1896-1899 | "Level 2", "LEVEL2" or "level  3" give the number spelled after the word. |
| ClientAssessment.LevelOfShortForm | public/static/app.js:1896-1899 | "L2" or "l3" give the number after the letter. |
| ClientAssessment.TalliesExact | public/static/app.js:1889-1914 | Exactly the levels that occur are tallied. Each tally lists its level's results in order, with their count and their satisfied count. |
| ClientAssessment.TallyBounds | public/static/app.js:1889-1914 | Every tally is non-empty, and its satisfied count is at most its total. |
| ClientAssessment.TallyResults | public/static/app.js:1889-1914 | The `forEach` computes the per-level tallies. |
| ClientAssessment.ClientFinalLevel | public/static/app.js:1917-1934 | The client level is 1..4 with the cumulative iff-characterisation over the tallies of levels 2, 3 and 4. |
| ClientAssessment.ClientAgreesWithBulk | public/static/app.js:1917-1934 | The client rule and the server's bulk rule give the same level on the same counts. |
| ClientAssessment.Payload | public/static/app.js:1938-1941 | One payload row per result, with the result's item and the final level. |
| ClientAssessment.CompleteAssessment | public/static/app.js:1884-1941 | The final level and the payload are those of the tallied results. |
| ClientAssessment.Session.Start | public/static/app.js:1771-1806 | Nothing changes without a worker and a process. With no items, the session is emptied. Otherwise the items are a shuffled permutation of the process's items, with index 0 and no results. |
| ClientAssessment.Session.Record | public/static/app.js:1865-1882 | Appends the result for the current item and advances the index. The session completes iff that was the last item, and then it carries the final level and payload. Recording past the end is reported as a crash. |
| GenAssessments.ChoiceIndex | generate_test_assessments.py:51 | The chosen index is the first whose running weight sum exceeds x, or else the last. |
| GenAssessments.Choice | generate_test_assessments.py:51 | `random.choices(..)[0]` returns a member of the population. |
| GenAssessments.TierIntervals | generate_test_assessments.py:51 | Draws below 0.2 give excellent, 0.2 up to 0.7 give good, and from 0.7 average. |
| GenAssessments.LevelFor | generate_test_assessments.py:66-71 | A tier's level is among its three levels: excellent 3–5, good 2–4, average 1–3. |
| GenAssessments.GroupItems | generate_test_assessments.py:28-36 | Ok iff every category is Level2, Level3 or Level4, and then each list holds that category's items in order. Otherwise the error is the KeyError of the first unknown category. |
| GenAssessments.RefsInSound | generate_test_assessments.py:35-36 | Every entry of a category list comes from an item of that category. |
| GenAssessments.Sample | generate_test_assessments.py:59-61 | A sample has the drawn size, 5 to 10, and takes its entries from the list. |
| GenAssessments.SampleDistinct | generate_test_assessments.py:59-61 | Sampling a list with distinct ids never repeats an item. |
| GenAssessments.Selected | generate_test_assessments.py:54-61 | A worker gets 15 to 30 items, one level draw each. |
| GenAssessments.PlanOfFits | generate_test_assessments.py:48-71 | Every level of a worker's plan lies in the level set of the drawn tier. |
| GenAssessments.RowsCount | generate_test_assessments.py:64-87 | n workers give between 15n and 30n rows. |
| GenAssessments.ElapsedBounds | generate_test_assessments.py:90 | After n workers, the timestamp has moved on between 5n and 15n minutes. |
| GenAssessments.PlanRowsShape | generate_test_assessments.py:74-85 | Each of a worker's rows carries the worker, the item, its level, 'Test Supervisor', "Test assessment for <name>" and the worker's timestamp. |
| GenAssessments.RowsShape | generate_test_assessments.py:74-90 | Every row is well formed, and its timestamp is never later than the final one. |
| GenAssessments.RowsOrdered | generate_test_assessments.py:74-90 | Row timestamps never decrease. |
| GenAssessments.InsertItems | generate_test_assessments.py:64-87 | The inner loop gives one row per selected item, in order, with that item's drawn level. |
| GenAssessments.WorkerBlock | generate_test_assessments.py:49-87 | A worker's rows are those of their plan. |
| GenAssessments.GenerateRows | generate_test_assessments.py:44-90 | The outer loop gives the rows and final timestamp of the plans. The counter equals the number of rows. |
| GenAssessments.Run | generate_test_assessments.py:28-94 | An unknown category fails with KeyError. With workers and an item list shorter than 5, it fails with ValueError. Otherwise it gives the plans' rows and their count. |
| GenAssessments.RunRows | generate_test_assessments.py:44-90 | The script's rows are 15n to 30n in number, ordered and well formed, and span 5n to 15n minutes. |
| GenTestData.ReachIndex | generate_test_data.cjs:157-169 | The picked index is the first where the running weight sum reaches x, or else the last. |
| GenTestData.WeightedPick | generate_test_data.cjs:157-169 | `weightedRandom` gives nothing only for an empty list; otherwise a member of the items. |
| GenTestData.WeightedRandom | generate_test_data.cjs:157-169 | The subtracting loop returns the item at the first index whose running weight sum reaches `u` × total. |
| GenTestData.TierAgreesWithPythonGenerator | generate_test_data.cjs:46-50 | The JavaScript tier cut-offs at 0.2 and 0.7 give the same tier as the Python 20/50/30 weights. |
| GenTestData.LevelFor | generate_test_data.cjs:66-80 | A tier's level is among the same three levels as in the Python generator. |
| GenTestData.ExcellentLevelIntervals | generate_test_data.cjs:68-71 | Excellent gives 3 for draws up to 0.1, 4 up to 0.5 and 5 above. |
| GenTestData.RandomItems | generate_test_data.cjs:152-155 | `getRandomItems` returns min(count, length) items, a sub-multiset of the list. |
| GenTestData.RequestedCount | generate_test_data.cjs:53-55 | `floor(random() * 6) + 5` lies between 5 and 10. |
| GenTestData.GroupItems | generate_test_data.cjs:22-32 | Each list holds the items of its category in order; items of other categories are dropped. |
| GenTestData.Selected | generate_test_data.cjs:57-61 | A worker gets at most 30 items, one level draw each. |
| GenTestData.PlanOfFits | generate_test_data.cjs:57-80 | The selected items come from the three lists, and every level lies in the tier's level set. |
| GenTestData.AssessItems | generate_test_data.cjs:64-90 | The inner loop pushes one assessment per item, in order, with its drawn level. |
| GenTestData.AssessWorker | generate_test_data.cjs:44-90 | A worker's assessments are those of their plan. |
| GenTestData.GenerateAssessments | generate_test_data.cjs:41-91 | The outer loop gives all planned assessments. `totalAssessments` equals their number. |
| GenTestData.AllAssessmentsCount | generate_test_data.cjs:41-91 | n workers give at most 30n assessments. |
| GenTestData.SummarizeByEntity | generate_test_data.cjs:122-134 | The `forEach` computes the per-entity summary. |
| GenTestData.SummaryKeys | generate_test_data.cjs:122-134 | The summary has exactly the entities of the records. |
| GenTestData.SummaryExact | generate_test_data.cjs:122-134 | Each entity's summary holds the set of its employee ids, its record count and the sum of its levels. |
| GenTestData.NoRecordsOf | generate_test_data.cjs:122-134 | An entity with no records has no workers, no assessments and level total 0. |
| GenTestData.SummaryTotal | generate_test_data.cjs:122-134 | The per-entity assessment counts add up to the number of records. |
| GenAnswers.QuizIds | generate_all_test_answers.cjs:86-97 | Each process has a list of 30 quiz ids. |
| GenAnswers.CorrectCount | generate_all_test_answers.cjs:93 | `Math.round(score / 100 * 30)` lies in 0..30 for scores in 0..100. |
| GenAnswers.RowForMarks | generate_all_test_answers.cjs:119-127 | The answer is 'A' iff the row is marked correct, and 'B' iff it is marked wrong. The quiz comes from the result's process list. |
| GenAnswers.AllAnswersPattern | generate_all_test_answers.cjs:103-125 | As written, every category of 6 gets its last ⌈wrong/5⌉ answers wrong. A zero score marks every answer wrong. |
| GenAnswers.AnswersForResult | generate_all_test_answers.cjs:103-128 | The loop writes 30 rows following that pattern. |
| GenAnswers.GenerateAnswers | generate_all_test_answers.cjs:92-132 | All results' rows, 30 per result. |
| GenAnswers.AsWrittenWrongCount | generate_all_test_answers.cjs:114-125 | As written, the number of wrong rows is 5 × ⌈wrong/5⌉. |
| GenAnswers.AsWrittenSheetCount | generate_all_test_answers.cjs:103-128 | A generated sheet has 5 × ⌈(30 − correct)/5⌉ wrong rows. |
| GenAnswers.AsWrittenAgreesIff | generate_all_test_answers.cjs:114-125 | The sheet matches the score iff the wrong count is a multiple of 5. |
| GenAnswers.AsWrittenCounterexample | generate_all_test_answers.cjs:93-125 | Score 96.7 means 29 correct, yet the sheet has 5 wrong rows. |
| GenAnswers.SpreadWrongCount | generate_all_test_answers.cjs:114-117 | The corrected pattern marks exactly 30 − correct rows wrong, and no two categories differ by more than one wrong row. |
| GenAnswers.SpreadAnswersForResult | generate_all_test_answers.cjs:103-128 | The corrected loop writes 30 rows following the corrected pattern. |
| GenAnswers.SpreadSheetMatchesScore | generate_all_test_answers.cjs:103-128 | A corrected sheet has exactly 30 − correct wrong rows, matching its score. |
| GenAnswers.FromDbAnswersForResult | generate_answers_from_db.cjs:33-52 | The loop writes 30 rows. A row is wrong iff it is among the last ⌈wrong/5⌉ of its category and lies in the final `wrong` positions. |
| GenAnswers.FromDbGenerate | generate_answers_from_db.cjs:26-56 | All results' rows, 30 per result. |
| GenAnswers.FromDbWrongBound | generate_answers_from_db.cjs:38-49 | The from-database condition holds at no more than 30 − correct of the 30 positions. |
| GenAnswers.CountFromDbRows | generate_answers_from_db.cjs:33-52 | A sheet written by that condition has exactly as many wrong rows as positions where it holds. |
| GenAnswers.FromDbSheetWrongBound | generate_answers_from_db.cjs:33-52 | The sheet the script writes for a result has at most 30 − correct wrong rows. |
| GenAnswers.FromDbCounterexample | generate_answers_from_db.cjs:27-49 | Score 83.3 means 25 correct, yet the condition holds at only 1 position. |
| GenAnswers.FromDbSheetCounterexample | generate_answers_from_db.cjs:27-52 | The sheet the script writes for a result scored 83.3 implies 25 correct, yet has only 1 wrong row. |

## Left out

- Database access (D1/SQLite), HTTP handling, `fetch`, the DOM, `alert`, logging, Excel parsing and the SQL text the generators write. Each is an effect around the modelled logic. Rows, request bodies and sheet rows are inputs.
- Concurrency: the server's awaits run one after another, so each request is modelled as sequential.
- Floating point: scores, weights and draws are exact reals. `Math.round` is floor(x + 0.5) and `Math.ceil(n / 5)` is (n + 4) / 5. Rounding effects of IEEE doubles are not modelled.
- Randomness: every `Math.random()`, `random.choices`, `randint` and `random.sample` value is a parameter of the draw datatypes. The `sort(() => 0.5 - Math.random())` of `getRandomItems` is modelled as an arbitrary permutation.
- Time: the generator's `datetime.now()` start and its `strftime` text are left out. A timestamp is its number of minutes after the start.
- ClientUpload.ConvertExcelDate: the Excel-serial-to-ISO conversion of numeric cells and `Date` cells are a parameter. Only the falsy and string cases are stated.
- Common.ToUpper, Common.ToLower: only ASCII letters change case. Unicode case mapping is not modelled.
- Normalize.RemoveQuotes: the quote class is taken as it appears in the source text, where its "smart quote" entries are plain ASCII quotes. U+2018, U+2019, U+201C and U+201D are therefore kept.
- Normalize.NormalizeQuestion: its own contract states only the shape of the key. The relation to the input is stated per stage: Common.Trim and Common.ToLower; RemoveQuotesOne and RemoveQuotesAppend; CollapseSpacesKeepsText and CollapseSpacesRun; DropTrailingQuestionMarks and StripSuffix. For the whole key it is stated by NormalizeQuestionOfPlain and NormalizeQuestionIgnoresCase. The latter covers only questions with no whitespace at either end, because the model does not prove that trimming commutes with case mapping. No lemma says that extra whitespace inside a question, or quotes added to it, leave the key unchanged.
- Normalize.StandardizeEntity: its contract only excludes the short forms. The full mapping is the lemma StandardizeEntityMapping.
- The `try`/`catch` around each row and each group of the written-test upload is left out. The modelled steps cannot throw, so no row is skipped with `❌ Error`. The error message strings and the 10-message cut are left out too.
- WrittenTestUpload: the 20-/25-question score check (`isValidScore`) only logs a warning. Database ids are parameters, and a new result's `last_row_id` is not modelled: results are keyed by (worker, process, date).
- WrittenTestUpload.GroupKeyInjective: stated for non-negative ids, as database ids are.
- SkillLevel.LevelSatisfaction: a category named like an `Object.prototype` member (e.g. "constructor") does not behave like JavaScript's `{}` lookup. It is treated as an ordinary key.
- GenTestData.GroupItems: an item category named like an `Object.prototype` member ("constructor", "__proto__") finds a truthy inherited value without `push`, so the script throws a TypeError. The model passes such an item over like any other unknown category.
- GenTestData.SummarizeByEntity: a record entity named "constructor" or "__proto__" makes `.workers.add` throw in the script. The model treats it as an ordinary key.
- WorkerUpsert.WorkerTable.BulkUpsert: worker fields are strings here. In the source, a missing or non-string entity, team or position makes `trim()` throw part-way through the loop (src/index.tsx:448-450). The request then fails through `errorHandler`, but the rows of the earlier workers are already written. The model does not capture that partial write.
- SkillLevel.RecalculateLevels: the count queries are inputs. The route counts the items of the spaced categories ('Level 2' etc.) over all items, not per position, and it writes nothing back to the workers table; both follow the source.
- Common.JsValue: numbers are integers only. A fractional cell value, such as an employee id or an answer of 1.5 that `String(..)` would turn into "1.5", cannot be represented.
- GenAssessments.ChoiceIndex: `bisect` over the cumulative weights is given as its linear definition.
- GenAssessments.Run: the final `ZeroDivisionError` with no workers, when printing the average, is not modelled. The run with no workers ends with no rows. The verification query and the average printing are left out.
- GenTestData: the upload, the verification fetch and the `avgLevel` printing are left out. The per-entity summary they print is modelled.
- GenAnswers.AnswersForResult, GenAnswers.GenerateAnswers, GenAnswers.FromDbAnswersForResult and GenAnswers.FromDbGenerate: scores are taken to lie in 0..100, as stored percentages do. Outside that range the source's arithmetic is not modelled.
- GenAnswers.FromDbGenerate: the `wrangler` shell-out and the parsing of its JSON output are left out. The results are a parameter.
- The dashboard statistics loop (src/index.tsx:217-304), the chatbot endpoint and the remaining CRUD endpoints are not part of this model.

## Findings

| source | as written | input that shows it | evidently intended | confidence | as-written member | corrected member |
|---|---|---|---|---|---|---|
| generate_all_test_answers.cjs:114-125 | Every category of 6 gets its last ⌈wrong/5⌉ answers wrong, so a sheet has 5·⌈wrong/5⌉ wrong answers. | score 96.7: 29 correct, 1 wrong, yet 5 answers are marked wrong | The wrong answers spread over the 5 categories, adding up to 30 − correct, so the sheet matches its score | not executed | GenAnswers.AsWrittenCounterexample | GenAnswers.SpreadSheetMatchesScore |
| generate_answers_from_db.cjs:39-46 | A row is wrong only if it is both among the last ⌈wrong/5⌉ of its category and within the last `wrong` positions, so most categories get none. | score 83.3: 25 correct, 5 wrong, yet only 1 answer is marked wrong | The same even spread with exactly 30 − correct wrong answers | not executed | GenAnswers.FromDbSheetCounterexample | GenAnswers.SpreadSheetMatchesScore |
