# Student-risk teacher dashboard: data-shaping rules

This project models the three places where a React front end for a
student-risk monitoring service does more than render. The backend owns every
record; these rules reshape its responses for display:

- **At-risk ranking** (`TeacherDashboard`). The dashboard keeps the logged-in
  teacher's students and reads the newest risk record of each. It counts the
  High ones and collects a ranking entry for every Medium or High student. The
  entry's issue is the first decoded reason, falling back to "General Risk".
  The entries are sorted by score, highest first, and the first five are kept.
- **Roster enrichment and search** (`StudentsPage`). The roster page merges
  each of the teacher's students with their newest risk record and newest
  weekly metric. Fixed defaults apply when a list is empty or a lookup fails.
  The page then filters the roster with a case-insensitive substring search on
  name and roll number.
- **Manual weekly update** (`WeeklyUpdates`). The form maps its three-valued
  homework status to a rate and builds the `POST /metrics/` body. After
  success it clears the score fields and shows a success message. After
  failure it shows a fixed error message and leaves the form as it was.

Shared pieces:
- `Roster` holds the records as received and the teacher filter that all three
  pages apply.
- `Numbers` models JavaScript's `parseInt`, used on the stored user id and on
  the score fields.
- `Common` holds `Option`, an order-preserving `Filter` and a subsequence
  predicate.

Every HTTP response is a parameter: the student list, each student's risk
history and metrics, and whether the metric post succeeded. The same goes for
the stored `user_id`, the `JSON.parse` of a reasons field, and today's date.
A failing request is `None` or `LookupFailed`. It follows the source's
`catch` branches: the dashboard keeps its previous state, a roster row gets
the fallback values, and the form shows the error message.

Three facts about the code shape the model:
- On failure the form shows the fixed text "Failed to submit update. Please
  try again."; it does not show the backend's error detail.
- The form has no week-start field. The date is computed afresh at each submit
  (`weekStart` here), so it is not part of the form state.
- The spreadsheet upload tab is a static placeholder with no parsing code, so
  there is no bulk importer to model.

## Model

| member | source | states |
|---|---|---|
| `Roster.MyStudents` | src/pages/TeacherDashboard.jsx:50-55 | The kept students are exactly those whose `teacher_id` equals the parsed stored id. They stay in the backend's order, as a subsequence of the list, and each is kept as many times as the backend lists it. No student is kept when no id is stored, when it is empty, or when it parses to NaN. |
| `Roster.SessionTeacher` | src/pages/TeacherDashboard.jsx:50-54 | The truthiness test on the stored id: nothing stored or the empty string gives no teacher; any other string gives `parseInt` of it. |
| `Roster.SessionTeacherReadsLoginId` | src/pages/TeacherDashboard.jsx:50-54 | Reading back the string form of a stored numeric id yields that id. |
| `Common.Filter` | src/pages/StudentsPage.jsx:62-65 | `filter` keeps exactly the elements that satisfy the predicate, in their original order (a subsequence). Each kept element occurs as often as in the input, and a rejected one not at all. |
| `Numbers.ParseIntFormatInt` | src/pages/TeacherDashboard.jsx:54 | Round trip: `parseInt(String(n)) == n` for every integer `n`. |
| `Numbers.ParseIntReadsLeadingNumber` | src/pages/WeeklyUpdates.jsx:59-61 | `parseInt` reads the number at the start of the string and stops at the first non-digit after it (`"85.5"` gives 85). |
| `Numbers.ParseIntNaNRule` | src/pages/WeeklyUpdates.jsx:59-61 | `parseInt` gives a number exactly when, after the leading white space, a digit or a sign followed by a digit comes next; otherwise NaN. A negative result needs a minus sign. |
| `Numbers.NoDigitIsNaN` | src/pages/WeeklyUpdates.jsx:59-61 | A string with no decimal digit, including the empty string, parses to NaN. |
| `Numbers.FormatNat` | src/pages/LoginPage.jsx:25 | The decimal rendering of a natural number is a non-empty string of digits whose value is that number. |
| `TeacherDashboard.Issue` | src/pages/TeacherDashboard.jsx:76-88 | The issue shown (the first of `Reasons`, the decoded field, or "General Risk" when that is falsy) is never blank. When decoding fails it is the raw field itself, or "General Risk" if that field is empty. When decoding succeeds it is the first reason if that is non-empty, and "General Risk" if the list is empty or its first reason is empty. |
| `TeacherDashboard.ColorFor` | src/pages/TeacherDashboard.jsx:91 | The red class exactly for High, the orange class exactly for every other level. |
| `TeacherDashboard.ScanHistories` | src/pages/TeacherDashboard.jsx:57-95 | The `forEach` loop leaves the High counter at `CountHigh` of the histories. It leaves `riskList` equal to `Collect`: one `EntryFor` each Medium/High student, pushed in student order. |
| `TeacherDashboard.CountHighCountsHighStudents` | src/pages/TeacherDashboard.jsx:68-72 | `CountHigh`, the final `highRisk` counter and so `highRiskCount`, equals the number of students with a non-empty history whose newest level is High. Empty histories count for nothing. |
| `TeacherDashboard.CollectCountsAtRiskStudents` | src/pages/TeacherDashboard.jsx:74-93 | Before sorting, the ranking (`Collect`) has exactly one entry per student whose newest level is Medium or High. |
| `TeacherDashboard.CollectedEntries` | src/pages/TeacherDashboard.jsx:64-93 | An entry is in the unsorted ranking if and only if it is the entry built for some student whose newest record is Medium or High. |
| `TeacherDashboard.RankedEntriesAreAtRisk` | src/pages/TeacherDashboard.jsx:75-91 | Every entry's level is High or Medium. High entries get the red class and Medium entries the orange class. No entry has a blank issue. |
| `TeacherDashboard.HighRiskAreRanked` | src/pages/TeacherDashboard.jsx:68-75 | The High count is at most the number of ranking entries, which is at most the number of students. |
| `TeacherDashboard.SortByScoreSortsAndPermutes` | src/pages/TeacherDashboard.jsx:97-99 | `SortByScore`, the comparator sort's result, is ordered by score, non-increasing, and is a permutation of the collected entries (same multiset). |
| `TeacherDashboard.InsertByScoreAt` | src/pages/TeacherDashboard.jsx:99 | The stable order puts a new entry after every entry that scores at least as high, and before every entry that scores lower. |
| `TeacherDashboard.InsertLast` | src/pages/TeacherDashboard.jsx:99 | One insertion-sort step on the array: it shifts the lower-scoring part of the prefix right and writes the entry into the gap. The array's first `i+1` cells become the prefix with the entry inserted, and the rest of the array is unchanged. |
| `TeacherDashboard.SortRiskList` | src/pages/TeacherDashboard.jsx:99 | The in-place sort leaves the array equal to `SortByScore` of its old contents: highest score first, with equal scores kept in collection order. |
| `TeacherDashboard.TopRisk` | src/pages/TeacherDashboard.jsx:101-103 | `slice(0, 5)` keeps at most 5 entries, as a prefix of the sorted list. It keeps exactly 5 when there are at least 5, and the whole list when there are at most 5. |
| `TeacherDashboard.TopRiskKeepsHighestScores` | src/pages/TeacherDashboard.jsx:101-103 | On a sorted list, every kept entry scores at least as high as every entry cut off. |
| `TeacherDashboard.RankingShape` | src/pages/TeacherDashboard.jsx:97-102 | The widget's list, `slice(0, 5)` of `SortByScore` of `Collect`, has at most 5 entries, is sorted by score and holds only Medium/High students; the High count is at most the number of students. |
| `TeacherDashboard.OverviewShape` | src/pages/TeacherDashboard.jsx:104-112 | Every state `OverviewOf` produces (the `setStats` and `setAtRiskStudents` values) has those properties. |
| `TeacherDashboard.FetchData` | src/pages/TeacherDashboard.jsx:41-133 | The new state is `OverviewOf` the inputs, and `None` (state kept) when any request fails. The ranking has at most 5 entries, is sorted by score and holds only Medium/High students. The High count never exceeds `totalStudents`. |
| `StudentsPage.Enrich` | src/pages/StudentsPage.jsx:23-48 | One student's row meets `EnrichedFrom`: the failed-lookup fallback, or the Low/0.0/"No recent data" defaults for an empty history and 0/0 for empty metrics, otherwise the newest record of each list. |
| `StudentsPage.EnrichRoster` | src/pages/StudentsPage.jsx:23-49 | The enriched roster has the same length and order as the teacher's students, and each row keeps its student record. A failed lookup gives Low, 0.0, 0, 0 and no issue. An empty history gives Low, 0.0 and "No recent data"; otherwise the row takes history[0]'s level, score and reasons. An empty metrics list gives 0 and 0; otherwise the row takes metrics[0]'s attendance and homework rate. |
| `StudentsPage.OneFailureLeavesOthers` | src/pages/StudentsPage.jsx:45-47 | When one student's lookup fails, that student gets the fallback row and every other row is unchanged. |
| `StudentsPage.FetchStudents` | src/pages/StudentsPage.jsx:13-56 | The stored rows are the teacher's students in order, each enriched from its own lookup by the `EnrichedFrom` rules. They are empty when `GET /students/` fails. |
| `StudentsPage.ToLower` | src/pages/StudentsPage.jsx:63-64 | Lower-casing keeps the length and maps each character independently. |
| `StudentsPage.IncludesIffOccurs` | src/pages/StudentsPage.jsx:63-64 | `Includes`, the model of `includes(t)`, holds if and only if `t` occurs at some position of the string. |
| `StudentsPage.MatchesSearchIffOccurs` | src/pages/StudentsPage.jsx:62-65 | `MatchesSearch` holds exactly when the lower-cased term occurs in the lower-cased name or in the lower-cased roll number. |
| `StudentsPage.MatchesSearchIgnoresTermCase` | src/pages/StudentsPage.jsx:62-65 | The search decision depends only on the lower-cased term. |
| `StudentsPage.FilteredStudents` | src/pages/StudentsPage.jsx:62-65 | The search result is an order-preserving subsequence of the roster. A row is in it if and only if its lower-cased name or roll number contains the lower-cased term, and a matching row keeps its multiplicity. The empty term keeps every row. |
| `WeeklyUpdates.HomeworkRateScale` | src/pages/WeeklyUpdates.jsx:52-54 | `HomeworkRateOf`, the three-point scale: the rate is 50 exactly for "Partial" and 0 exactly for "Missing". It is 100 exactly for every other status, "Completed" included. |
| `WeeklyUpdates.HomeworkRate` | src/pages/WeeklyUpdates.jsx:52-54 | The sequential `if`s compute the three-point scale. |
| `WeeklyUpdates.PayloadCarriesFormNumbers` | src/pages/WeeklyUpdates.jsx:56-63 | `BuildPayload` is the payload literal. With whole numbers in the two score fields, the payload carries those numbers as `attendance_score` and `test_score_average`. It also copies `student_id` and the behaviour toggle as `behavior_flag`. |
| `WeeklyUpdates.PayloadIgnoresUnsentFields` | src/pages/WeeklyUpdates.jsx:56-63 | Missing assignments, late submissions, fees pending and meeting presence do not reach the payload. Two forms that differ only in those fields send the same payload. |
| `WeeklyUpdates.ClearScores` | src/pages/WeeklyUpdates.jsx:69-74 | After success, attendance and assignment score become empty and the behaviour toggle false. Student, homework status, missing assignments, late submissions, fees and meeting presence are unchanged. |
| `WeeklyUpdates.ClearedFormSendsNoScores` | src/pages/WeeklyUpdates.jsx:59-74 | Submitting a just-cleared form again sends NaN for both scores and no behaviour flag, for the same student. |
| `WeeklyUpdates.WeeklyUpdatesPage.constructor` | src/pages/WeeklyUpdates.jsx:7-23 | The initial state: no students, not loading, no messages, and the default form ("Completed", fees false, meeting true, behaviour false). |
| `WeeklyUpdates.WeeklyUpdatesPage.FetchStudents` | src/pages/WeeklyUpdates.jsx:26-41 | The selector holds exactly the teacher's students. A failed request leaves the list as it was, and nothing else changes. |
| `WeeklyUpdates.WeeklyUpdatesPage.HandleSubmit` | src/pages/WeeklyUpdates.jsx:43-82 | The payload sent is built from the form as it was at submit time. `loading` is false afterwards and the student list is unchanged. On success: the success message is set, the error message is empty, and the form's scores are cleared. On failure: the success message is empty, the error message is the fixed text, and the form is unchanged. |

## Left out

- HTTP (`src/services/api.js`, axios) is not modelled. Each response body, and whether each request succeeded, is a parameter.
- The concurrency of `Promise.all` is not modelled. The result order equals the input order, so the fan-out is a sequential map. Rejection of any request is a single failure outcome.
- `localStorage` is a parameter: the stored `user_id` as an optional string.
- Login, logout, routing, the sidebar layout, JSX rendering, Tailwind classes and the mock chart data are not modelled. They are presentation with no rule beyond trivial branches.
- `JSON.parse` is a parameter of type `string -> Option<seq<string>>`. Its failure gives `None`. The model does not cover a reasons field that decodes to something other than an array of strings: a JSON string would yield its first character, and `null` would make `reasons[0]` throw.
- Risk scores are modelled as `real`, so NaN and floating-point rounding are not modelled. Neither is the `(score*100).toFixed(0)` display in the detail overlay.
- Weekly-metric values are modelled as integers.
- Student records are modelled by the four fields the rules read. The object spread in the enrichment is modelled by keeping the student record whole.
- The form's per-field `onChange` handlers are not modelled. Each replaces one form field.
- The browser's constraint validation (`required`, `min`, `max`) can block the submit event. It is not modelled: `HandleSubmit` accepts any form.
- `null` response bodies and missing or non-string fields are not modelled. In the source, a `null` history body on the roster page throws and takes the fallback row.
- The spreadsheet upload tab is a static placeholder with no parsing code.
- `WeeklyUpdates.WeeklyUpdatesPage.HandleSubmit`: the submit is modelled as one step. While the POST is pending, only the submit button is disabled, and edits made to the form in that time are not modelled. In the source, the form that is cleared on success, or kept on failure, is the form as it stands when the POST settles (the reset is a functional update of the current state). The model states it of the form at submit time. The payload itself is built from the submit-time form in both.
- The `console.error` logging in the `catch` branches (TeacherDashboard.jsx:131, StudentsPage.jsx:46 and 54, WeeklyUpdates.jsx:37 and 77) is not modelled: it only writes to the browser console.
- `TeacherDashboard.FetchData`: the component's `loading` flag is not a field. The method returns the new state, and `None` means the previous state is kept.
- `TeacherDashboard.SortByScoreSortsAndPermutes`: stability is built into `SortByScore`, which inserts each entry after all entries with an equal score. It is not stated as a separate lemma.
- `StudentsPage.FilteredStudents`: `toLowerCase` maps the ASCII letters A-Z only. Unicode case mapping is not modelled.
- `Numbers.ParseIntReadsLeadingNumber`: `parseInt` is modelled for decimal input only. It does not cover the `0x` hexadecimal prefix, the non-ASCII white space that `parseInt` also skips, or precision loss above 2^53. The stored id and the number inputs never produce these.
