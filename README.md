# Fatigue monitor scoring core, in Dafny

This project models the server-side scoring and comparison engine of a fatigue monitor
for healthcare workers. A worker checks in at the start of a shift: vital signs and a
face-expression label are scored. During the shift the worker answers a questionnaire:
FAS (fatigue), PSQI (sleep quality) and one physical-activity answer. At check-out
everything is scored again and compared with the stored check-in. The report endpoints
filter, sort, count, export and look up past sessions.

The modules follow the route files:

- `Wrappers`, `Http`: Option / Result / Outcome, and the 400 / 404 failures with their messages.
- `Builtins`: the JavaScript built-ins the handlers rely on, stated on Dafny values.
  - `reduce` sum, `filter`, ASCII `toLowerCase`, `includes`, `split` / `join`, `reverse`, and `${n}`.
- `Scoring`: the sub-scores, the total and the classification.
  - The biometric table, written out twice in the source, is modelled once, as `CalculateBiometricScores`, with one method per block.
  - The FAS and PSQI buckets are modelled once too.
  - The classification is modelled once, as `Classify`.
- `Recommendations`: both recommendation generators.
  - Each is an imperative method that pushes onto a list.
  - Each is proved equal to a declarative rule table; the list's shape is proved about that table.
- `CheckInData`: the check-in record and the single-slot store that holds the latest one.
  - The store is a class with one mutable field.
- `CheckIn`, `Questionnaire`, `CheckOut`: the three submit handlers.
  - Validation comes first, in the source's order.
  - Then scoring, aggregation, and the comparison with the check-in.
- `Reports`: the report endpoints.
  - The history query (date, unit and user filters, then sort newest first) and the risk-level and shift filters.
  - The integer parts of the summary statistics and the per-unit aggregation.
  - The trend chart, the export format check with the CSV serialiser, and session lookup.

Handlers that change state (check-in, and check-out reading the store) are methods.
Each is proved equal to a function that gives the handler's outcome, and the properties
are proved about those functions. Vital signs are `real`. Answers, sub-scores and totals
are unbounded `int`.

## Model

| member | source | states |
|---|---|---|
| Builtins.Filter | server/routes/reports.ts:138-145 | `filter` keeps exactly the elements satisfying the test and never grows the list |
| Builtins.FilterIsSubsequence | server/routes/reports.ts:138-140 | a filtered list is a subsequence of its input: the order is kept |
| Builtins.FilterMultiset | server/routes/reports.ts:196-202 | filtering keeps every copy of an accepted element and no copy of a rejected one |
| Builtins.ToLower | server/routes/checkout.ts:129 | `toLowerCase` keeps the length, leaves no capital letter, turns each capital into the small letter at the same alphabet position and keeps every other character |
| Builtins.ToLowerIdempotent | server/routes/checkout.ts:129 | lower-casing an already lower-cased string changes nothing |
| Builtins.SameLowerCase | server/routes/checkout.ts:129 | strings that are equal ignoring case lower to the same string |
| Builtins.Contains | server/routes/checkout.ts:130-135 | `includes` holds exactly when the keyword occurs at some position |
| Builtins.SplitJoin | server/routes/reports.ts:313 | splitting a join gives the parts back when no part holds the separator |
| Builtins.JoinAvoids | server/routes/reports.ts:313 | a character absent from every part is absent from their join |
| Builtins.NatToStringValue | server/routes/reports.ts:309-312 | the decimal text of a number reads back as that number |
| Builtins.SumBounds | server/routes/checkout.ts:81 | a sum of values in [lo, hi] lies between the length times lo and the length times hi |
| Scoring.Total | server/routes/checkout.ts:249 | the `reduce` over `Object.values(scores)` equals the sum of the seven named components |
| Scoring.TotalBounds | server/routes/checkout.ts:249 | seven sub-scores in [0, 3] total between 0 and 21 |
| Scoring.AnyCriticalFields | server/routes/checkout.ts:266 | `Object.values(scores).some(s => s >= 3)` holds iff one of the seven fields is at least 3 |
| Scoring.Classify | server/routes/checkout.ts:141-146 | the classes partition the integers: at most 5 Fit, 6..9 Mild, 10..14 Moderate, 15 and up Severe (each an iff) |
| Scoring.ClassifyMonotone | server/routes/checkout.ts:141-146 | a higher total never gives a milder class |
| Scoring.LabelsDistinct | server/routes/checkout.ts:141-146 | the four label strings are distinct, so a label identifies its class |
| Scoring.FasScore | server/routes/checkout.ts:80-86 | the FAS score is in [0, 3] |
| Scoring.PsqiScore | server/routes/checkout.ts:88-94 | the PSQI score is in [0, 3] |
| Scoring.QuestionnaireScoresMonotone | server/routes/checkout.ts:80-94 | both scores are monotone step functions of the answer sum |
| Scoring.FasDocumentedRanges | server/routes/questionnaire.ts:26-33 | for valid answers the sum is 3..15, and the score is 0, 1, 2 or 3 exactly on 3-5, 6-8, 9-11 and 12-15 |
| Scoring.PsqiDocumentedRanges | server/routes/questionnaire.ts:35-42 | for valid answers the sum is 4..16, and the score is 0, 1, 2 or 3 exactly on 4-6, 7-9, 10-12 and 13-16 |
| Scoring.BpSeverity | server/routes/checkout.ts:98-105 | BP score in [0, 3]; 0 iff 95 <= sbp < 140 and 65 <= dbp < 90; 3 iff sbp >= 180, sbp < 80, dbp >= 110 or dbp < 50 |
| Scoring.HrSeverity | server/routes/checkout.ts:107-115 | HR score in [0, 3]; 0 iff 60 <= bpm <= 100; 3 iff bpm > 120 or bpm < 40 |
| Scoring.TempSeverity | server/routes/checkout.ts:117-125 | temperature score in [0, 3]; 0 iff 36.5 <= temp <= 37.5; 3 iff temp > 38.5 or temp < 35.5 |
| Scoring.HrMonotoneAwayFromNormal | server/routes/checkout.ts:107-115 | the HR score grows as bpm moves away from the normal band, on either side |
| Scoring.TempMonotoneAwayFromNormal | server/routes/checkout.ts:117-125 | the temperature score grows as the temperature moves away from the normal band, on either side |
| Scoring.FaceSeverity | server/routes/checkout.ts:127-136 | face score in [0, 3]; 0 iff the lower-cased label mentions none of the six keywords |
| Scoring.CriticalFaceKeywordWins | server/routes/checkout.ts:130-131 | a label mentioning "severe" or "exhausted" scores 3 whatever else it says |
| Scoring.FaceSeverityIgnoresCase | server/routes/checkout.ts:129 | labels equal ignoring case get the same face score |
| Scoring.ScoreBloodPressure | server/routes/checkout.ts:98-105 | the BP if-chain yields the reference BP severity of (sbp, dbp) |
| Scoring.ScoreHeartRate | server/routes/checkout.ts:107-115 | the HR if-chain yields the reference HR severity of bpm |
| Scoring.ScoreTemperature | server/routes/checkout.ts:117-125 | the temperature if-chain yields the reference temperature severity |
| Scoring.ScoreFace | server/routes/checkout.ts:127-136 | lower-casing the label, then the keyword if-chain, yields the reference face severity |
| Scoring.FaceFirstMatch | server/routes/checkout.ts:129-135 | the face score is the first matching keyword pair of the lower-cased label, checked from level 3 down |
| Scoring.CalculateBiometricScores | server/routes/checkout.ts:96-139 | the first-match-wins if-chains give the worst level among the triggered conditions, for all four scores |
| Scoring.BiometricExamples | server/routes/checkout.ts:98-125 | the worked BP, HR and temperature examples, e.g. 185/70 is 3 and 120/80 is 0 |
| Scoring.QuestionnaireExamples | server/routes/questionnaire.ts:26-42 | worked FAS and PSQI examples from the documented ranges |
| Scoring.SevereFaceExamples | server/routes/checkout.ts:127-131 | "Severe Fatigue" and "SEVERE" both score 3 |
| Scoring.MildFaceExample | server/routes/checkout.ts:134-135 | "Mild Fatigue" scores 1 |
| Scoring.NeutralFaceExample | server/routes/checkout.ts:127-136 | "Neutral" scores 0 |
| Recommendations.Select | server/routes/checkout.ts:148-200 | a rule table yields at most one message per rule |
| Recommendations.SelectGroup | server/routes/checkout.ts:156-158 | a group of messages under one condition is all pushed or none |
| Recommendations.SelectAppend | server/routes/checkout.ts:148-200 | consecutive blocks of the table contribute consecutive blocks of the list |
| Recommendations.SelectInTableOrder | server/routes/checkout.ts:148-200 | the list is a subsequence of the table's messages: pushes happen in table order |
| Recommendations.SelectMembership | server/routes/checkout.ts:148-200 | a message is in the list iff some rule with that message fires |
| Recommendations.CheckOutTotalBlock | server/routes/checkout.ts:155-165 | the total-score block is the first matching tier of >= 15, >= 10 and >= 6, or nothing |
| Recommendations.CheckOutDeltaBlock | server/routes/checkout.ts:167-177 | the delta block is the first matching tier of >= 6, >= 3 and <= -2, or nothing |
| Recommendations.CheckOutComponentBlock | server/routes/checkout.ts:179-191 | the component messages come in the order bp, hr, temp, face, each iff that score is >= 2 |
| Recommendations.CheckOutFallbackBlock | server/routes/checkout.ts:193-197 | the fallback adds the two stable messages exactly when nothing else fired |
| Recommendations.CheckOutBlocks | server/routes/checkout.ts:148-200 | the list is the total tier, then the delta tier, then the components, then the fallback |
| Recommendations.CheckOutHeadEmpty | server/routes/checkout.ts:194 | the first three blocks are all empty exactly when the fallback condition holds |
| Recommendations.PushTotalTier | server/routes/checkout.ts:155-165 | the total-score block appends exactly the total tier's messages to the list |
| Recommendations.PushDeltaTier | server/routes/checkout.ts:167-177 | the delta block appends exactly the delta tier's messages to the list |
| Recommendations.PushComponentCautions | server/routes/checkout.ts:179-191 | the component block appends one caution per component scoring 2 or more, in the order bp, hr, temp, face |
| Recommendations.GenerateRecommendations | server/routes/checkout.ts:148-200 | the imperative push sequence builds exactly the rule table's list |
| Recommendations.CheckOutRecommendationsShape | server/routes/checkout.ts:148-200 | 1 to 8 messages; exactly the two stable messages iff nothing else fired, and they never appear otherwise |
| Recommendations.CheckOutRecommendationsOrdered | server/routes/checkout.ts:148-200 | the list follows the table order |
| Recommendations.QuestionnaireTierBlock | server/routes/questionnaire.ts:54-69 | exactly one tier fires: three messages at >= 15, >= 10 or >= 6, else the two "fit" messages |
| Recommendations.QuestionnaireComponentBlock | server/routes/questionnaire.ts:72-80 | then fas >= 2, psqi >= 2 and pa >= 3 each add their message, in that order |
| Recommendations.QuestionnaireBlocks | server/routes/questionnaire.ts:51-83 | the list is the tier messages followed by the component messages |
| Recommendations.GetRecommendations | server/routes/questionnaire.ts:51-83 | the imperative push sequence builds exactly the rule table's list |
| Recommendations.QuestionnaireRecommendationsShape | server/routes/questionnaire.ts:51-83 | 2 to 6 messages, beginning with the tier's messages, 3 of them at >= 6 and otherwise 2 |
| CheckInData.CheckInStore.constructor | server/routes/checkinData.ts:28 | the slot starts empty |
| CheckInData.CheckInStore.SetLatestCheckIn | server/routes/checkinData.ts:30-32 | the slot then holds exactly the record |
| CheckInData.CheckInStore.GetLatestCheckIn | server/routes/checkinData.ts:34-36 | returns the slot's content |
| CheckInData.SetThenGet | server/routes/checkinData.ts:30-36 | a get after a set returns the record that was set |
| CheckInData.LastWriteWins | server/routes/checkinData.ts:30-32 | after two sets a get returns the second record and never the first |
| CheckInData.GetIsStable | server/routes/checkinData.ts:34-36 | two gets in a row agree with each other and with the slot |
| CheckInData.FreshStoreIsEmpty | server/routes/checkinData.ts:28 | a get on a fresh store returns nothing |
| CheckIn.HandleCheckInSubmit | server/routes/checkin.ts:52-102 | answers the reference outcome; on success the store holds exactly the returned record, and on a rejection it is not written |
| CheckIn.CheckInRejections | server/routes/checkin.ts:60-69 | missing fields iff a field is missing or falsy; "Invalid biometrics" iff the fields are present and a vital is not a number or the label is not a string; success otherwise |
| CheckIn.CheckInRecordFacts | server/routes/checkin.ts:71-93 | the record copies the id and timestamp; fas, psqi and pa are 0; the total is the sum, in [0, 12]; the record is never "Severe Fatigue" |
| CheckIn.CheckInBiometricParts | server/routes/checkin.ts:4-43 | the record's bp, hr, temp and face parts are the reference biometric severities |
| Questionnaire.HandleQuestionnaireSubmit | server/routes/questionnaire.ts:85-162 | the handler answers exactly the reference outcome |
| Questionnaire.QuestionnaireRejections | server/routes/questionnaire.ts:90-119 | each of the four rejections happens iff its check is the first to fail; success iff all pass |
| Questionnaire.QuestionnaireResponseFacts | server/routes/questionnaire.ts:122-151 | pa is passed through; the total is fas + psqi + pa, in [0, 9]; the class is only Fit or Mild; 2 to 6 recommendations |
| CheckOut.DefaultSnapshotConsistent | server/routes/checkout.ts:56-76 | the built-in fallback snapshot's total and class agree with its sub-scores |
| CheckOut.SnapshotSource | server/routes/checkout.ts:53-77 | the stored check-in (its scores, total and biometrics) is used when there is one, and otherwise the fallback with total 6 and the default vitals |
| CheckOut.ComponentDeltas | server/routes/checkout.ts:254-262 | the component deltas sum to the difference of the totals |
| CheckOut.HandleCheckOut | server/routes/checkout.ts:202-314 | reads the store and answers exactly the reference outcome, with pa range-checked |
| CheckOut.ScoreCheckOut | server/routes/checkout.ts:233-247 | the seven sub-scores are the FAS and PSQI buckets, pa as given, and the shared biometric scores |
| CheckOut.CompareCheckOut | server/routes/checkout.ts:249-303 | the total, class, delta against the baseline, component deltas, escalation flag and recommendations are those of the reference comparison, whose properties CheckOut.CheckOutResponseFacts and CheckOut.EscalationCriteria prove |
| CheckOut.HandleGetCheckInData | server/routes/checkout.ts:316-335 | returns the stored check-in, or, when the slot is empty, the fallback snapshot: default id, scores (1, 2, 0, 1, 1, 0, 1), total 6, "Mild Fatigue" and vitals 120/80, 72 bpm, 36.8 °C, "Neutral" |
| CheckOut.CheckOutRejections | server/routes/checkout.ts:207-228 | each rejection happens iff its check is the first to fail; success iff all checks pass |
| CheckOut.CheckOutResponseFacts | server/routes/checkout.ts:233-303 | sub-scores in [0, 3]; total is their sum in [0, 21]; class of the total; delta and seven component deltas against the baseline; 1 to 8 recommendations |
| CheckOut.DeltaIsSumOfComponentDeltas | server/routes/checkout.ts:251-262 | against a consistent baseline the total delta is the sum of the component deltas |
| CheckOut.SevereImpliesCritical | server/routes/checkout.ts:265-267 | a total of 15 or more from scores in [0, 3] forces some score to be 3 |
| CheckOut.EscalationCriteria | server/routes/checkout.ts:265-267 | escalation iff delta >= 3, some score >= 3, or Severe; the Severe clause is implied by the others |
| CheckOut.CheckInAndCheckOutAgree | server/routes/checkin.ts:4-43 | the check-in and check-out copies of the biometric scoring give the same four scores |
| CheckOut.UncheckedPaExceedsScale | server/routes/checkout.ts:207-228 | as written, pa = 4 with maximal answers and critical vitals is accepted with total 22; the corrected check rejects it |
| CheckOut.AsWrittenAgreesOnScale | server/routes/checkout.ts:207-228 | the handler as written and the corrected one give the same answer whenever pa is absent or in [0, 3] |
| CheckOut.ValidatedTotalOnScale | server/routes/checkout.ts:236-249 | with the pa check, an accepted request has every score in [0, 3] and a total in [0, 21] |
| Reports.InsertNewest | server/routes/reports.ts:148 | inserting gives the same records plus the new one |
| Reports.InsertNewestSorted | server/routes/reports.ts:148 | inserting into a newest-first list keeps it newest first |
| Reports.SortNewestFirst | server/routes/reports.ts:148 | the sort gives a newest-first permutation of its input |
| Reports.FilterKeepsNewestFirst | server/routes/reports.ts:196-202 | filtering a newest-first list leaves it newest first |
| Reports.FilterIfMultiset | server/routes/reports.ts:126-146 | an optional filter step drops exactly the records its active test rejects |
| Reports.GenerateMockDataSelects | server/routes/reports.ts:125-148 | the query is newest first; it keeps every copy of each record in range, in the unit (ignoring case) and of the user, and nothing else |
| Reports.FilterIfOrder | server/routes/reports.ts:196-202 | an optional filter step keeps order and sortedness, and an inactive one changes nothing |
| Reports.FilterRiskAndShiftSelects | server/routes/reports.ts:196-202 | the risk filter matches exactly and the shift filter ignores case; order is kept; an absent or "all" value keeps everything |
| Reports.RiskDistribution.Bump | server/routes/reports.ts:165 | `acc[risk]++` raises that counter by one and leaves the others |
| Reports.DistributionSnoc | server/routes/reports.ts:164-167 | one more record bumps exactly its own level's counter |
| Reports.DistributionTotal | server/routes/reports.ts:164-167 | the four counters add up to the number of records |
| Reports.CalculateSummaryStats | server/routes/reports.ts:151-183 | total_sessions is the record count and the distribution counts each level, via the empty-list branch or the loop |
| Reports.SummaryStatsFacts | server/routes/reports.ts:152-159 | the counters sum to total_sessions; the distribution is all zero iff the list is empty |
| Reports.UnitStatSnoc | server/routes/reports.ts:250-264 | one more record changes only its unit's entry, by one session at its level |
| Reports.UnitStatAbsent | server/routes/reports.ts:251-258 | a unit that has not been seen has the zero entry |
| Reports.AggregateUnits | server/routes/reports.ts:250-264 | the reduce builds, per unit present, its record count and risk distribution |
| Reports.UnitStatsFacts | server/routes/reports.ts:250-264 | one entry per unit present, named after it, with at least one session and counters summing to its count |
| Reports.TrendFacts | server/routes/reports.ts:207-211 | at most seven points, the first records in reverse, so a newest-first history charts oldest to newest |
| Reports.HandleHistoryGet | server/routes/reports.ts:185-229 | details are the queried and filtered records of the current user; the summary and trend are computed from them |
| Reports.HistoryDetailsFacts | server/routes/reports.ts:190-202 | the history is always one user's (default "user123"), newest first, and holds exactly the records passing every filter |
| Reports.HandleReportsGet | server/routes/reports.ts:231-289 | details are the queried and filtered records of all users; the summary and per-unit entries are computed from them |
| Reports.ReportsDetailsFacts | server/routes/reports.ts:236-245 | the management report applies no user filter and holds exactly the records passing the others, newest first |
| Reports.CsvFields | server/routes/reports.ts:308-312 | a row has one field per header column |
| Reports.CsvRowFields | server/routes/reports.ts:308-312 | a row of separator-free text splits on commas into the 14 fields in header order, with the recommendation last, in quotes |
| Reports.CsvHeaderColumns | server/routes/reports.ts:307 | the header line is the 14 column names joined by commas, ended by a newline |
| Reports.CsvLines | server/routes/reports.ts:305-317 | the document is the header followed by one newline-separated row per record |
| Reports.ExportFormatCheck | server/routes/reports.ts:295-330 | 400 with the format message iff the format is not "csv" or "pdf"; "csv" gives the CSV of the query and "pdf" its record count |
| Reports.FindSession | server/routes/reports.ts:347 | `find` returns nothing iff no record has the id, and otherwise the first record that has it |
| Reports.SessionDetailLookup | server/routes/reports.ts:341-354 | 404 "Session not found" iff no stored record has the id; otherwise a stored record with that id |
| Reports.SubsequenceTransitive | server/routes/reports.ts:196-202 | a subsequence of a subsequence is a subsequence, so chained filters keep order |

## Left out

- Network, Express routing, `res.status().json()`, headers, `console.log` and the supervisor-notification stub. Handlers return a `Result`, and failures carry the 400/404 status.
- The 500 "Internal server error" paths. Nothing in the model can throw.
- Type checks the source does not make are not modelled. Answers and `pa_answer` are integers here: a fractional or non-numeric answer in a JSON body is not represented.
  - CheckOut.CheckOutRequest: at check-out the source tests only that the biometrics object is present (server/routes/checkout.ts:207). The model takes well-typed vitals and a string label there, because JavaScript's coercion of arbitrary JSON values in `<` and `>=` is not modelled. So the model does not capture that:
    - a missing or NaN vital fails every comparison at server/routes/checkout.ts:98-125 and scores 0, so absent vitals look healthy;
    - a numeric string is coerced to its number, and `null` compares as 0;
    - a missing or non-string `face_label` makes `toLowerCase` throw at server/routes/checkout.ts:129, which the handler answers with the 500 at server/routes/checkout.ts:307-313.
- CheckIn.RawBiometrics: a vital is `Finite`, `NaN` or not a number. The source's `typeof v === 'number' && !isNaN(v)` also accepts `Infinity` (for instance JSON `1e999`), which would be stored and score 3. Infinite vitals are not represented.
- `toLowerCase` is modelled on ASCII letters only. Unicode case mapping is not represented.
- Numbers are exact: JavaScript floating point (for instance `0.1 + 0.2` in vitals) is not modelled. Vitals are compared against decimal constants only.
- CheckIn.HandleCheckInSubmit: the stored record holds the typed vitals, not the raw request object. Extra fields in the request's `biometrics` are not kept.
- Dates are opaque: each record carries its text and an integer instant. Parsing, invalid dates (NaN comparisons), empty `from`/`to` strings, `toLocaleDateString` labels, the ISO export date and the session timeline offsets are not modelled.
- Reports.CalculateSummaryStats: `avg_total_score`, `trend_change` and `toFixed(1)` rounding are floating point and left out. Only the integer parts are modelled.
- Reports.AggregateUnits: `avg_score` is left out, and so is the order of `Object.values(unitStats)`; the model returns a map. Unit names that collide with `Object.prototype` keys are not modelled.
- Reports.SortNewestFirst: the model is an insertion sort. It is proved newest first and a permutation of its input. The stability of JavaScript's `sort` for equal dates is not proved.
- Reports.GenerateMockData: the mock dataset's literal contents are not modelled. The dataset is a parameter.
- The PDF export's stub message; only its record count is modelled.
- Reports.CsvRowFields and Reports.CsvLines assume the text fields contain no comma or newline. The source does not escape them, so otherwise a row does not split back into 14 fields.
- `handleQuestionnaireGet` (server/routes/questionnaire.ts:164-170) only returns a fixed message. It is not modelled.
- CheckOut.HandleCheckOut follows the corrected validation, which range-checks `pa_answer` (see Findings). So do CheckOut.CheckOutRejections, CheckOut.CheckOutResponseFacts and CheckOut.ValidatedTotalOnScale, which are stated about the corrected outcome. The code as written is modelled by CheckOut.ValidateCheckOutAsWritten and CheckOut.CheckOutOutcomeAsWritten. CheckOut.AsWrittenAgreesOnScale proves that the two differ only when pa is given and lies outside [0, 3].
- The `duration_ms` logging and the `user_id`/`date` query parameters that `handleGetCheckInData` reads but ignores.

## Findings

| source | as written | input that shows it | evidently intended | confidence | as-written member | corrected member |
|---|---|---|---|---|---|---|
| server/routes/checkout.ts:207-228 | check-out validates the FAS and PSQI answers but never range-checks `pa_answer`, unlike server/routes/questionnaire.ts:114-119 | FAS [5,5,5], PSQI [4,4,4,4], pa 4, vitals 185/70, 125 bpm, 38.6 °C, "Severe Fatigue": accepted, total 22 | reject pa outside [0, 3] with "Invalid Physical Activity answer", keeping the total within 0..21 | not executed | CheckOut.UncheckedPaExceedsScale | CheckOut.ValidatedTotalOnScale |
