# faspo-model-service scoring pipeline, in Dafny

This project models the scoring pipeline of the faspo model service and proves
properties of it. A `POST /score` request carries a list of financial documents.
Each document has a type key, a period and sheets of heterogeneous cells. The
request handler runs four stages in order:

1. **Validation** checks that every required document type is present for
   exactly N consecutive years. If not, it answers 400 and names the first
   failing type.
2. **Summary** adds up the N documents of each required type, cell by cell.
   The two label columns are copied from the first document.
3. **Scoring** turns every summary sheet into a scoring document. Each cell of
   its table is `r*c/(r+c)` of a row sum `r` and a column sum `c`, or NaN.
   The documents are numbered `SC1`, `SC2`, ...
4. **Final** reads the four scoring documents and the optional cashflow and
   loan documents. It picks a coefficient from a decision table and writes a
   ten-row verdict sheet.

On success the handler queues one background post per derived document, then
one per sheet of that document, and answers 201 with the final document's id.
An HTTP exception passes through unchanged. Any other exception becomes
500 "Internal Server Error".

Files, one module each:

- `model.dfy`: documents, sheets, cells, failures, configuration and the id/clock source.
- `arith.dfy`: Python's `sum` over cells, the arithmetic on its results, and the scoring cross value.
- `validation.dfy`: `validate_input`.
- `summary.dfy`: `calculate_summary_document`.
- `scoring.dfy`: `calculate_scoring_documents`.
- `final.dfy`: `calculate_final_document`.
- `dispatch.dfy`: the background task queue and the order in which it is filled.
- `handler.dfy`: the `score_` handler.

Each stage is a specification function returning `Outcome<T>`, which is
`Ok(value)` or `Fail(failure)`. A failure is `HttpError(status, detail)` or
`Unexpected`; `Unexpected` stands for any non-HTTP Python exception
(IndexError, TypeError, KeyError, ZeroDivisionError). Where the source loops and
appends, a method with the same loops is proved equal to that function. The
task queue is a class whose `AddTask` appends to its `queued` field.

Ids and timestamps come from an `Env` whose `token(k)` is the k-th fresh id of
the request and whose `clock(k)` is the timestamp of the document with id
`token(k)`. The ids are drawn in the order the source calls `secrets.token_hex`.
That turns out to be the order the queue is filled in (`Handler.QueueIds`).

## Model

| member | source | states |
|---|---|---|
| Arith.SumCellsMeaning | src/service/score.py:69 | Python's `sum` of cells raises TypeError iff some cell is a string or None. Otherwise it is NaN iff some cell is NaN, and otherwise the real sum of the cells, booleans counting 1 or 0. |
| Arith.SumCellsPermutation | src/service/score.py:69 | `sum` gives the same result for any reordering of its cells. |
| Arith.TotalPermutation | src/service/score.py:69 | The real sum of the cells' values does not depend on their order. |
| Validation.YearsMembership | src/service/score.py:19-20 | A year is in the type's set of periods iff some document of that type has that year. |
| Validation.YearsAppend | src/service/score.py:19-20 | The years collected from two runs of documents are the union of each run's years. |
| Validation.CheckTypeVerdict | src/service/score.py:22-32 | For N >= 1 one required type passes iff its years are exactly N consecutive years. Otherwise the check raises 400 "Missing required document type t for all periods". |
| Validation.CheckTypesAccepts | src/service/score.py:22-34 | The loop over the required types passes iff every type has N consecutive years. |
| Validation.CheckTypesRejects | src/service/score.py:22-32 | A failing loop raises the 400 error naming the first failing type in configured order. |
| Validation.ValidateVerdict | src/service/score.py:11-34 | `validate_input` returns true iff every required type has exactly N consecutive years. Otherwise it raises the 400 error for the first failing type. |
| Validation.OtherTypesIgnored | src/service/score.py:19-26 | Inserting a document of a type that is not required, anywhere in the input, never changes the verdict. |
| Validation.YearBounds | src/service/score.py:26 | `min` and `max` of a non-empty set of years: the least and the greatest member. |
| Validation.ValidateInput | src/service/score.py:11-34 | The two loops, one filling the `periods` map and one checking the types, compute exactly the verdict `Validate`. |
| Summary.MaxPeriod | src/service/score.py:93 | `max` of the periods is one of the periods, and no period is later. |
| Summary.SummaryGuard | src/service/score.py:45-51 | The wrong number of documents, or a first document whose type is not required, raises the 500 error. Conversely, with the right count and a required first type the 500 error is never raised, whatever the other documents' types: only the first document's type is checked. |
| Summary.SummaryMetadata | src/service/score.py:84-100 | A summary has id `token(base)` and key and name with the "S" and " - Summary" suffixes. Its layer is 2, its order is copied, and its period is the latest input period. Its version is 1 by "faspo-model-service". It has one sheet per sheet of the first document, each with the next fresh id, the summary as owner, the suffixed name, the copied number, the first document's row count and row width. |
| Summary.SummaryCellValue | src/service/score.py:62-71 | Columns 0 and 1 are the first document's cells. Every other cell exists in every document, holds only numbers or booleans there, and is their real sum, or NaN iff one of them is NaN. |
| Summary.SummaryFixture | test/unit/service/test_score.py:42-70 | The three test documents of type 001 summarise to key "001S", period 1972-01-01 and the summed rows the test expects, three times each number. |
| Summary.SummaryFixtureMissingPeriod | test/unit/service/test_score.py:73-79 | Without the first test document the summary raises the 500 error. |
| Summary.SummaryPermutation | src/service/score.py:68-69 | Reordering the input documents leaves every summed cell unchanged. |
| Summary.SummarizeRow | src/service/score.py:62-71 | The row loop succeeds iff every output cell can be computed, and then builds the summary row. |
| Summary.SummarizeSheet | src/service/score.py:56-71 | The sheet loop succeeds iff the sheet can be summarised, and then builds the summary rows. |
| Summary.CalculateSummary | src/service/score.py:37-100 | The guard and nested loops compute exactly `Summarize`: the guard's error, an unexpected error, or the summary document. |
| Scoring.KeysEndInSMeaning | src/service/score.py:114 | The `all(...)` test is true iff every key is non-empty and ends in "S". It cannot raise when every key is non-empty. |
| Scoring.ParseNatToString | src/service/score.py:138 | The decimal text of an ordinal reads back as that ordinal. |
| Scoring.NatToStringInjective | src/service/score.py:138-141 | Different ordinals give different texts, so different keys and names. |
| Scoring.MinLen | src/service/score.py:129 | `zip(*items)` yields as many tuples as the shortest row has cells. |
| Scoring.ColumnCells | src/service/score.py:129 | Tuple `k` of `zip(*items)[2:]` holds cell `k + 2` of every row, in row order. |
| Scoring.ScoreGuard | src/service/score.py:111-121 | The wrong number of summaries raises the 500 error. With the right count and no empty key, a key without the "S" suffix raises the 500 error (an empty key met first raises IndexError instead). Success implies the right count and all keys ending in "S". |
| Scoring.SourcesAreAllSheets | src/service/score.py:125-126 | The nested loops visit exactly the summary sheets, in document order then sheet order, each with a document of the input. |
| Scoring.SourcesOrder | src/service/score.py:125-126 | The sheets of document `k` are visited right after the sheets of the documents before it, in order, each paired with document `k` itself. So a scoring document takes its subject and period from the summary that holds its sheet. |
| Scoring.ScoringDocumentsShape | src/service/score.py:123-162 | One scoring document per summary sheet, in visiting order. Number `m + 1` has key "SC<m+1>", name "Scoring document #<m+1>", layer 3, order m+1, and its source's subject and period. Its one sheet is "Scoring" numbered 1, owned by it, and holds that sheet's scoring table. All keys start with "SC" and no two are equal. |
| Scoring.CrossMeaning | src/service/score.py:131 | The cross value is NaN iff a sum is NaN or the two sums cancel. Otherwise it is `r*c/(r+c)`, half the harmonic mean, and symmetric in `r` and `c`. |
| Scoring.ScoreItemsMeaning | src/service/score.py:129-131 | A table can be scored iff every column past the labels and every row tail holds only numbers or booleans. Cell (i, k) then crosses the real sum of row `i` past the labels with the real sum of column `k + 2`. The table has one row per row and one column per column of the shortest row past the labels. |
| Scoring.LabelsIgnored | src/service/score.py:129-130 | Changing only the two label columns never changes a scoring table. |
| Scoring.FixtureSums | test/unit/service/test_score.py:63 | The summary sheet the unit tests build has row sums 30 and 78 and column sums 18, 24, 30 and 36. |
| Scoring.FixtureTable | test/unit/service/test_score.py:115-120 | The first tested scoring table (documents 1, 3 and 4), in exact rationals: 11.25, 40/3, 15, 180/11 and 14.625, 312/17, 65/3, 468/19. |
| Scoring.FixtureTable2 | test/unit/service/test_score.py:122-126 | The second tested scoring table (document 2): row sums 9 and 21 crossed with column sums 12 and 18 give 36/7, 6 and 84/11, 126/13. |
| Scoring.ScoreDocumentSheets | src/service/score.py:126-160 | The inner loop over one summary's sheets succeeds iff every sheet can be scored. It then yields that summary's scoring documents, numbered on from the documents made before. |
| Scoring.ScoreAllSheets | src/service/score.py:123-162 | The nested loops succeed iff every summary sheet can be scored. They then yield the scoring documents of all sheets, numbered from 1 in visiting order. Any failure is unexpected. |
| Scoring.CalculateScoring | src/service/score.py:103-162 | The guard and loops compute exactly `Score`. |
| Final.Coefficient | src/service/score.py:204-214 | The coefficient is 0.1, 0.2, 0.5 or 0.8 exactly for (loans, suspicious) = (T,T), (F,T), (T,F), (F,F). |
| Final.RowAverageMeaning | src/service/score.py:199-202 | An average exists iff sheet 0 has a last row that is non-empty and holds only numbers or booleans. It is NaN iff that row holds a NaN, and otherwise the row's real sum over its length. |
| Final.FinalGuard | src/service/score.py:180-190 | The 500 error is raised exactly when there are not four scoring documents or some key lacks the "SC" prefix. Every later failure is unexpected. |
| Final.FlagsMeaning | src/service/score.py:192-197 | `hasLoans` holds iff there are loan documents. The loan, cashflow and capital amounts are the real sums of column 5 of sheet 0, column 1 of sheet 0 and column 4 of sheet 1, or 0 without documents. Each amount is NaN iff its column holds a NaN. The flags exist iff those columns exist and are numeric. Suspicious iff cashflow > 10 * capital, never without cashflow documents. |
| Final.FinalScoreMeaning | src/service/score.py:216-219 | The final score is `c*(avg1 + avg2 + avg4) + (1-c)*avg3`, and NaN iff an average is NaN. |
| Final.FinalDocumentShape | src/service/score.py:221-258 | The final document has id `token(base)`, key "FC", name "Final scoring", layer 4, order 1, and the first scoring document's subject and period. Its version is 1 by "faspo-model-service". It has one sheet "Final scoring" numbered 1, with the next id, owned by it, of ten rows. |
| Final.FinalRows | src/service/score.py:244-255 | The ten rows are numbered 1 to 10 and carry the fixed labels in order. |
| Final.FinalVerdict | src/service/score.py:192-258 | The verdict rows hold the loan flag and amount, the suspicion flag, the cashflow and capital sums, the four averages, and the final score of those averages under the coefficient the flags select. |
| Final.FixtureFlags | test/unit/service/test_score.py:180-265 | With the tests' auxiliary documents: none gives no loans, no suspicion and zero sums. The cashflow document gives cashflow 201 against capital 12, which is suspicious. The loan document gives a loan amount of 1. Both together give both flags. |
| Final.FixtureAverages | test/unit/service/test_score.py:186-187 | The last rows of the two tested scoring tables average to 614549/31008 (the tests' 19.81904669762642) and 1239/143 (8.664335664335663). |
| Final.FixtureScores | test/unit/service/test_score.py:190-265 | From those averages, the final score under each of the four coefficients is the exact rational of the tests' 42.605752587196086, 25.515723170018838, 34.06073787860746 and 22.66738493382263. |
| Dispatch.UnitsOf | src/api/v1/score.py:57-59 | One document gives one unit for itself, first, then one per sheet. |
| Dispatch.UnitsAppend | src/api/v1/score.py:56 | The units of two runs of documents are those of the first run followed by those of the second. |
| Dispatch.UnitsLength | src/api/v1/score.py:56-59 | The number of units is the number of documents plus the number of all their sheets. |
| Dispatch.UnitsOrder | src/api/v1/score.py:56-59 | Document `k`'s unit comes right after all units of the documents before it, and its sheets follow it in sheet order. |
| Dispatch.UnitsIds | src/api/v1/score.py:56-59 | Documents whose ids were drawn one after another give a queue whose k-th unit has id `token(base + k)`. |
| Dispatch.BackgroundTasks.AddTask | src/api/v1/score.py:57 | `add_task` appends exactly one task to the end of the queue. |
| Dispatch.Tasks | src/api/v1/score.py:57-59 | Every unit becomes one task with the request's correlation id, in order. |
| Dispatch.EnqueueDocument | src/api/v1/score.py:57-59 | The inner loop appends the document's task, then one task per sheet, and nothing else. |
| Dispatch.EnqueueAll | src/api/v1/score.py:56-59 | The fan-out appends the tasks of every document's units, document by document, and nothing else. |
| Handler.Filter | src/api/v1/score.py:34-45 | Filtering keeps only documents of the key. |
| Handler.FilterAppend | src/api/v1/score.py:34-45 | Filtering keeps the input order: it distributes over concatenation. |
| Handler.FilterCount | src/api/v1/score.py:34-45 | Filtering keeps every document of the key, as often as it occurs, and no other document. |
| Handler.Groups | src/api/v1/score.py:34-39 | There is one group per required type, in configured order: group `k` is the filter of the input by type `k`, whose contents `Handler.FilterCount` and `Handler.FilterAppend` state. |
| Handler.YearsCount | src/service/score.py:20 | A type's distinct years never outnumber its documents. They are as many iff no year repeats. |
| Handler.Summaries | src/api/v1/score.py:47 | On success there is one summary per group. |
| Handler.SummariesOk | src/api/v1/score.py:47 | The summaries succeed iff every group passes the summary's checks. Every failure is the 500 error or unexpected. |
| Handler.SummariesAt | src/api/v1/score.py:47 | Summary `k` is what `calculate_summary_document` makes of group `k`, with ids drawn after the units of the summaries before it. |
| Handler.SummariesKeys | src/api/v1/score.py:47 | Summary `k` has group `k`'s key with the suffix "S". |
| Handler.SummarizeGroups | src/api/v1/score.py:47 | The comprehension summarises the groups in order, each with ids after those drawn before it, and stops at the first failure. |
| Handler.ErrorResponse | src/api/v1/score.py:65-73 | An HTTP exception keeps its status and detail. Any other failure becomes 500 "Internal Server Error". |
| Handler.ResponseStatus | src/api/v1/score.py:30-73 | Every response is 201 with the final id, 400, or 500 "Internal Server Error". It is 201 iff every stage succeeded, and 400 iff validation raised its HTTP error. |
| Handler.ValidationGate | src/api/v1/score.py:31 | For N >= 1 the response is 400 iff some required type lacks N consecutive years, and it names the first such type. |
| Handler.RepeatedYearBreaksGroup | src/api/v1/score.py:34-39 | A year repeated within a required type leaves its group with more than N documents, even when validation passes. |
| Handler.RepeatedYearIsServerError | src/service/score.py:45-51 | Such an input passes validation, and the request then fails with 500 "Internal Server Error". |
| Handler.GroupsHaveAllPeriods | src/api/v1/score.py:34-47 | After validation, when no year repeats within a required type, every group has exactly N documents. |
| Handler.ScoringGuardPasses | src/api/v1/score.py:47-50 | After successful summaries the scoring stage's guard never raises. Scoring can then fail only unexpectedly. |
| Handler.FinalGuardAfterScoring | src/api/v1/score.py:50-53 | The final stage's guard passes iff the summaries have four sheets between them. |
| Handler.AfterValidationFailure | src/api/v1/score.py:47-53 | Past validation every failure is the 500 error or unexpected. |
| Handler.QueueIds | src/api/v1/score.py:56-59 | The k-th queued post is of the object whose id is the k-th fresh id of the request. |
| Handler.QueueIdsDistinct | src/api/v1/score.py:56-59 | With distinct fresh ids, no two queued posts share an id. |
| Handler.QueueLength | src/api/v1/score.py:56-59 | A successful request queues (number of required types) + 14 posts: with the default two types, 16. |
| Handler.FinishRequest | src/api/v1/score.py:50-64 | Scoring, then the rest: the response is that of the remaining stages. The queue receives their posts on success and nothing on failure. |
| Handler.FinalizeAndDispatch | src/api/v1/score.py:53-64 | The final stage, then the fan-out and 201. Nothing is queued when the final stage fails. |
| Handler.ScoreRequest | src/api/v1/score.py:18-73 | The handler answers `Respond` and appends to the queue exactly the tasks of the pipeline's units on success, and nothing on failure. |

## Left out

- Floating point: numbers are reals and NaN is a separate cell, so rounding is not modelled. The test literals are matched as exact rationals. For example, `13.333333333333334` is 40/3 in `Scoring.FixtureTable`, and `19.81904669762642` is 614549/31008 in `Final.FixtureAverages`. The exact values can differ from the tests' floats in the last digit: 1239/143 is 8.664335664335665, where the test has 8.664335664335663.
- Final.FinalScoreMeaning: states the score in exact real arithmetic. Python's left-to-right float rounding is not modelled.
- Ids and timestamps: `secrets.token_hex` and `datetime.now()` are the `Env` oracle. Timestamps are integers.
- Handler.QueueIdsDistinct: assumes an injective id oracle. `token_hex(16)` is unique only with overwhelming probability.
- Validation.ValidateVerdict, Handler.ValidationGate: need N >= 1. With N = 0 an absent type reaches `max` of a missing key, a KeyError. `CheckType` models that path, but the verdict lemmas do not characterise it.
- Background execution: the tasks run `post_data` from `src/service/data_target.py` (network I/O), which is not part of this model. Only the contents and order of the queue are modelled.
- Queued document posts carry the full derived document. The source posts `Document(**doc.model_dump())`, a projection whose class is not part of this model.
- Configuration loading (`src/core/config.py`): the four settings are the `Config` parameter. `Model.DefaultConfig` holds their default values.
- Logging, pydantic validation and aliases, FastAPI request parsing and header handling: not modelled.
- Python's `min`/`max` over the year set are specified as least and greatest elements. `Validation.YearBounds` computes them by one pass, without modelling CPython's iteration order.
- Helper split: `score_` is modelled as three methods (`ScoreRequest`, `FinishRequest`, `FinalizeAndDispatch`), and the scoring loops as two (`ScoreAllSheets`, `ScoreDocumentSheets`). Together they follow the source's control flow.
- Cell types: cells are number, NaN, boolean, text or null, as `src/model/sheet.py:20` allows. An `int` and a `float` of equal value are not told apart.
- Optional auxiliary lists: `None` and the empty list behave alike in the source (`bool(...)` is false for both), and the model passes the empty list.

## Notes on the code's behaviour

These follow the code as written:

- Validation counts distinct years in a set. Two documents of a required type in the same year therefore pass validation when the years are otherwise consecutive. The group then has more than N documents, and the summary stage answers 500, not 400 (`Handler.RepeatedYearIsServerError`).
- The summary guard checks the type of the first document only, and the summary's columns are taken from row 0 of the first document.
- A scoring table's width is set by the shortest row, because `zip` truncates. A scoring cell is also NaN when a row or column sum is NaN, not only when the two sums cancel.
- The 400 detail names the first failing required type in configured order.
