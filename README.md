# Supply-chain diagnostic questionnaire: a Dafny model

The modelled system is a small web questionnaire. A visitor goes through four steps:
- A first form takes their name, role and company.
- A sequence of statements from a fixed catalog follows. Each is answered on a 1–5 scale, with yes/no, or from a dropdown.
- A form asks for their email.
- A results page shows a radar chart of per-dimension scores and four paragraphs of written feedback.

The per-dimension score is the mean of the answers filed under that dimension. A server route builds a prompt from the answers and asks a language model for feedback. It parses the labelled sections of the reply, and it falls back to fixed placeholder feedback whenever the model cannot be used. An admin dashboard averages the stored per-dimension scores of all submissions.

The model has one module per source file.

| module | file | form |
|---|---|---|
| `Types` | `src/lib/types.ts` | records as datatypes; a JavaScript object used as a dictionary is `CategoryScores(order, data)`, its keys in insertion order plus a map |
| `Text` | — | the string built-ins the code uses: `trim` and `\s`, `split`/`join`, `indexOf`, upper-casing for the `/i` flag, `toFixed(1)` |
| `ScoreUtils` | `src/lib/utils.ts` | `calculateCategoryScores`, as methods with loops proved against reference functions |
| `AdminPage` | `src/app/admin/page.tsx` | `calculateAverages` as methods with loops; the dashboard's state as a class |
| `FeedbackRoute` | `src/app/api/feedback/route.ts` | the reply parser as functions; the prompt builder as methods; the POST policy as a method |
| `QuestionFlow` | `src/components/QuestionFlow.tsx` | the component as a class whose method is `handleAnswer`; whole runs as functions |
| `DiagnosticPage` | `src/app/diagnostic/page.tsx` | the page as a class whose methods are the three handlers; rendering as a function |
| `EmailForm` | `src/components/EmailForm.tsx` | the validators as functions |
| `UserInfoForm` | `src/components/UserInfoForm.tsx` | the validators as functions |
| `ResultsPage` | `src/components/ResultsPage.tsx` | chart data and tick labels as functions |

The statement catalog, which `src/lib/statements` defines, is not part of this model. It is a parameter `catalog: seq<Statement>` throughout.

Network calls are parameters holding their outcome, and so are the environment variable holding the API key, the generated id and the clock:
- `FeedbackRoute.CallOutcome`: the model call fails, or yields the reply's text.
- `DiagnosticPage.FeedbackCall`: the feedback request throws, or yields feedback.
- `AdminPage.SubmissionsResponse`: the submissions request throws, or yields a body whose list may be missing.

Scores are `real`s.

Where the record type and the code disagree, the model follows the code. `Feedback` in `src/lib/types.ts:52-56` declares three fields. The route returns four (a `summary` as well), and the results page shows all four. The model's `Feedback` has all four.

## Model

| member | source | states |
|---|---|---|
| Types.FindStatement | src/lib/utils.ts:12 | `find` yields nothing exactly when no catalog statement has the id; otherwise it yields a statement with that id, namely the one at the first index holding the id |
| Types.FindIndex | src/lib/utils.ts:12 | the index found holds the id and no earlier index does |
| Types.DuplicateIdResolvesToFirst | src/lib/utils.ts:12 | when two catalog statements share an id, the lookup resolves to the earlier one |
| ScoreUtils.DimensionsOf | src/lib/utils.ts:11-22 | a dimension is listed exactly when at least one answer is filed under it |
| ScoreUtils.DimensionsDistinct | src/lib/utils.ts:16-18 | no dimension key is created twice |
| ScoreUtils.MeanScores | src/lib/utils.ts:15-29 | no dimension of the result has a count of 0 |
| ScoreUtils.Finalize | src/lib/utils.ts:24-29 | every entry becomes its sum divided by its count; the keys and their order stay as they were |
| ScoreUtils.FoldAnswer | src/lib/utils.ts:11-22 | one pass of the answer loop keeps the invariant: the keys are the dimensions resolved so far, in first-seen order, each holding the sum and the number of its values so far |
| ScoreUtils.AnswerFiled | src/lib/utils.ts:15-21 | an answer that resolves keeps that invariant: the entry is created at 0/0 if missing, then gets the value and one more count |
| ScoreUtils.FiledTotals | src/lib/utils.ts:16-21 | after a resolved answer, every entry holds the sum and number of its values including that answer |
| ScoreUtils.NextValues | src/lib/utils.ts:15-21 | a resolved answer adds its value to its own dimension and to no other |
| ScoreUtils.UnknownAnswerFolded | src/lib/utils.ts:12-13 | an answer whose statement is missing changes neither the keys nor any entry |
| ScoreUtils.CalculateCategoryScores | src/lib/utils.ts:7-32 | the result is a well-formed dictionary whose keys, in first-seen order, are the resolved dimensions, each holding the mean of its answer values and their number |
| ScoreUtils.FinalizedMeans | src/lib/utils.ts:24-29 | dividing the accumulated sums by the counts gives exactly the per-dimension means |
| ScoreUtils.ValuesForNonEmpty | src/lib/utils.ts:12-21 | a dimension has values exactly when some answer's statement is found and carries that dimension |
| ScoreUtils.KeysAreResolvedDimensions | src/lib/utils.ts:15-18 | the result's keys are exactly the dimensions of the answers whose statement is found |
| ScoreUtils.ValuesForAppend | src/lib/utils.ts:11-22 | the values of two answer lists in a row are those of the first followed by those of the second |
| ScoreUtils.UnknownAnswerAddsNoKey | src/lib/utils.ts:12-13 | inserting an answer with an unknown statement id anywhere leaves the key list unchanged |
| ScoreUtils.UnknownAnswerNoValue | src/lib/utils.ts:12-13 | inserting such an answer anywhere leaves every dimension's values unchanged |
| ScoreUtils.UnknownAnswerIgnored | src/lib/utils.ts:12-13 | inserting such an answer anywhere leaves the scores and counts unchanged, and nothing fails |
| ScoreUtils.SumAppend | src/lib/utils.ts:20 | (proof helper) sums add up over concatenation |
| ScoreUtils.PickMatch | src/lib/utils.ts:11-22 | (proof helper) an element of a permutation can be found and removed, leaving a permutation of the rest |
| ScoreUtils.SumPermutation | src/lib/utils.ts:20 | reordering values leaves their sum unchanged |
| ScoreUtils.ValuesForAround | src/lib/utils.ts:11-22 | a dimension's values around one answer split into the values before it, its own, and the values after it |
| ScoreUtils.ValuesForPermutation | src/lib/utils.ts:11-22 | reordering the answers permutes each dimension's values |
| ScoreUtils.PermutationInvariant | src/lib/utils.ts:11-29 | any reordering of the answers gives the same scores and counts |
| ScoreUtils.ValuesComeFromAnswers | src/lib/utils.ts:20 | every value filed under a dimension lies within any bounds that all answer values respect |
| ScoreUtils.SumBounds | src/lib/utils.ts:20 | n values in 1..5 sum to between n and 5n |
| ScoreUtils.MeanBounds | src/lib/utils.ts:28 | a total between n and 5n divided by n lies in [1, 5] |
| ScoreUtils.NonNegativeFactor | src/lib/utils.ts:28 | (proof helper) a real whose product with a positive real is non-negative is non-negative |
| ScoreUtils.ScoresWithinScale | src/lib/utils.ts:24-29 | if every answer value is in 1..5, every resulting score is in [1, 5] |
| ScoreUtils.SharedDimensionExample | src/lib/utils.ts:11-29 | statements 1 and 2 in one dimension, answered 4 and 2, give that dimension score 3 with count 2 |
| AdminPage.MergeKeys | src/app/admin/page.tsx:35-38 | a key is in the merged list exactly when it was known or is among the new keys; the known keys keep their places at the front |
| AdminPage.MergeKeysDistinct | src/app/admin/page.tsx:36-38 | merging never creates a key twice |
| AdminPage.KeysDistinct | src/app/admin/page.tsx:34-38 | the union of keys holds no key twice |
| AdminPage.FleetAverages | src/app/admin/page.tsx:34-47 | no averaged dimension has a count of 0 |
| AdminPage.AddEntry | src/app/admin/page.tsx:35-41 | one entry of one submission keeps the invariant: the keys are the union merged so far, each holding the sum and number of the stored scores seen so far |
| AdminPage.EntryFolded | src/app/admin/page.tsx:36-40 | creating a missing entry at 0/0 and then adding the stored score and one count keeps that invariant |
| AdminPage.EntryTotals | src/app/admin/page.tsx:39-40 | after one entry, the entry's total includes that submission's stored score, and every other total is unchanged |
| AdminPage.NewTotal | src/app/admin/page.tsx:39-40 | the updated total is the earlier one plus this submission's score, with the count one higher |
| AdminPage.MergeStep | src/app/admin/page.tsx:35-38 | merging one more key either keeps the list or appends that key |
| AdminPage.EntryAdded | src/app/admin/page.tsx:35-41 | an update to one key that is correct for that key keeps the invariant for all keys |
| AdminPage.FoldSubmission | src/app/admin/page.tsx:34-42 | one submission's entries fold in as the invariant requires: its keys are merged into the union, and its stored scores are added |
| AdminPage.SubmissionAdded | src/app/admin/page.tsx:34-42 | once all of a submission's entries are folded, the totals cover that submission |
| AdminPage.AverageScores | src/app/admin/page.tsx:32-47 | for a list of submissions, each key of the union holds the plain mean of the stored per-submission scores for that key, and the number of submissions holding it |
| AdminPage.Dashboard.constructor | src/app/admin/page.tsx:8-10 | starts with no submissions, an empty averages dictionary, and loading |
| AdminPage.Dashboard.CalculateAverages | src/app/admin/page.tsx:29-50 | an empty list returns early and leaves the averages as they were; otherwise the averages become the fleet means |
| AdminPage.Dashboard.FetchSubmissions | src/app/admin/page.tsx:16-27 | a missing list counts as an empty one; a failed request changes nothing but the loading flag; loading always ends |
| AdminPage.KeysHaveScores | src/app/admin/page.tsx:34-41 | a key is in the union exactly when some submission has a stored score for it |
| AdminPage.KeysAreUnion | src/app/admin/page.tsx:34-38 | the result's keys are exactly the union of the submissions' category keys |
| AdminPage.CountIsHoldingSubmissions | src/app/admin/page.tsx:40 | a key's count is the number of submissions whose scores contain that key |
| AdminPage.StoredCountIgnored | src/app/admin/page.tsx:39-40 | two submission lists that differ only in their stored counts give the same keys and averages |
| AdminPage.SameStoredScores | src/app/admin/page.tsx:39 | lists with the same stored scores give the same per-key score lists |
| AdminPage.SameKeys | src/app/admin/page.tsx:35-38 | lists with the same key orders give the same union |
| AdminPage.UnweightedExample | src/app/admin/page.tsx:39-47 | stored scores 2 (from 1 answer) and 4 (from 3 answers) average to 3, not to the weighted 3.5 |
| AdminPage.SumRealsBounds | src/app/admin/page.tsx:39 | n reals in [lo, hi] sum to between n·lo and n·hi |
| AdminPage.StoredScoresWithin | src/app/admin/page.tsx:39 | if every stored score is in [1, 5], so is every score collected for a key |
| AdminPage.AveragesWithinScale | src/app/admin/page.tsx:45-47 | if every stored score is in [1, 5], every average is too |
| Text.TrimStart | src/components/ResultsPage.tsx:15 | the leading half of `trim`: a suffix of the input after a run of whitespace, starting with a non-space when non-empty |
| Text.TrimEnd | src/components/ResultsPage.tsx:15 | the trailing half of `trim`: a prefix of the input before a run of whitespace, ending with a non-space when non-empty |
| Text.Trim | src/components/ResultsPage.tsx:15 | `trim` removes leading and trailing whitespace: the result is empty exactly when the input is all whitespace, otherwise it starts and ends with a non-space; an input without whitespace is unchanged; the result is a contiguous piece of the input with only whitespace before it and after it |
| Text.TrimWindow | src/components/ResultsPage.tsx:15 | the trimmed text sits in the input right after the leading whitespace removed, with only whitespace after it |
| Text.IndexOf | src/components/ResultsPage.tsx:15 | the first position holding the character, or the length when there is none |
| Text.Split | src/components/ResultsPage.tsx:15 | `split` gives at least one piece, no piece holds the separator, and the first piece is the text before the first separator |
| Text.JoinSplit | src/components/ResultsPage.tsx:51-53 | joining the pieces of a split with the same separator gives the text back |
| Text.SplitCount | src/components/ResultsPage.tsx:51-52 | a split gives one piece more than there are separators |
| Text.Upper | src/app/api/feedback/route.ts:105-108 | the canonical form of the `/i` flag: exactly the ASCII lower-case letters change, each to the letter 32 code points below, and no lower-case letter remains |
| Text.NatToString | src/app/api/feedback/route.ts:86 | `String(n)` for n ≥ 0: non-empty decimal digits, with no leading zero, that denote n |
| Text.IntToString | src/app/api/feedback/route.ts:86 | `String(n)`: a minus sign exactly when n is negative, then digits without a leading zero that denote the magnitude |
| Text.NearestTenths | src/app/api/feedback/route.ts:78 | the number of tenths nearest to x, within half a tenth, ties going up |
| Text.ToFixed1 | src/app/api/feedback/route.ts:78 | `toFixed(1)`: a minus sign exactly when the number is negative; the digits before the point and the one digit after it denote the nearest number of tenths of the magnitude |
| Text.FixedLayout | src/app/api/feedback/route.ts:78 | (proof helper) where the sign, the digits, the point and the last digit sit in a one-decimal text |
| Text.DigitValue | src/app/api/feedback/route.ts:78 | (proof helper) a single digit denotes its own value |
| Text.RoundTenths | src/components/ResultsPage.tsx:16 | `Number(x.toFixed(1))` lies within 0.05 of x |
| FeedbackRoute.SpaceRunEnd | src/app/api/feedback/route.ts:105-108 | `\s*` taken greedily: a maximal run of whitespace |
| FeedbackRoute.LastNonNewline | src/app/api/feedback/route.ts:105-108 | the last position of a range that `[^\n]` can match, if there is one |
| FeedbackRoute.CaptureStart | src/app/api/feedback/route.ts:105-108 | where a capture starts after `\s*` backtracks: the first position after a run of whitespace that is not a newline; there is none only when everything after is newlines |
| FeedbackRoute.AfterColon | src/app/api/feedback/route.ts:105-108 | with a `:` at the position, taken or given back: when a non-newline follows, the capture starts after the `:`, past whitespace only; when only newlines follow, the `:` itself starts the capture; without a `:` it is the plain capture start |
| FeedbackRoute.AfterWatchLabel | src/app/api/feedback/route.ts:108 | after `WATCH-OUT`: an `S` is taken when a non-newline follows it, and the colon step continues after it; without an `S` the colon step starts at the position itself |
| FeedbackRoute.LabelEnd | src/app/api/feedback/route.ts:105-108 | the label part matches exactly when the section's label, in either watch-outs spelling, stands at the position in any case; the match ends right after the label, and the dashed spelling takes precedence |
| FeedbackRoute.StartAt | src/app/api/feedback/route.ts:105-108 | the pattern matches at a position exactly when the label stands there and some non-newline follows the label; the capture start holds a non-newline |
| FeedbackRoute.LineEnd | src/app/api/feedback/route.ts:105-108 | `[^\n]+` runs to the next newline or the end |
| FeedbackRoute.CaptureEnd | src/app/api/feedback/route.ts:105-108 | the capture continues over each newline that is followed by a non-empty line not starting with a stop label, and ends before a blank line, a stop label or the end |
| FeedbackRoute.Hits | src/app/api/feedback/route.ts:105-108 | marks each position where the label's pattern matches |
| FeedbackRoute.FirstHit | src/app/api/feedback/route.ts:105-108 | the first marked position, if any |
| FeedbackRoute.FindMatch | src/app/api/feedback/route.ts:105-108 | `match` takes the leftmost position where the pattern matches; none means no position matches |
| FeedbackRoute.Capture | src/app/api/feedback/route.ts:105-108 | there is no capture exactly when the pattern matches at no position; a capture is never empty and never starts with a newline |
| FeedbackRoute.DefaultTrimmed | src/app/api/feedback/route.ts:111-114 | the four defaults are non-empty and trimmed |
| FeedbackRoute.SectionText | src/app/api/feedback/route.ts:110-115 | a section is the trimmed capture; an absent label, or a capture that is all whitespace, gives the section's default; the text is always non-empty and trimmed |
| FeedbackRoute.ParseFeedback | src/app/api/feedback/route.ts:104-116 | each field is its own section's text; every field is non-empty and trimmed, and it is the section's default when the section has no capture |
| FeedbackRoute.FieldsAreSections | src/app/api/feedback/route.ts:110-115 | (proof helper) four fields set to the four section texts give each section its text |
| FeedbackRoute.AbsentLabelDefaults | src/app/api/feedback/route.ts:105-115 | a section whose label occurs nowhere in the reply, in any case, gets its default |
| FeedbackRoute.LabelledLineExamples | src/app/api/feedback/route.ts:105-115 | `SUMMARY: x` and `summary:x` give the summary `x`; `Watch-outs: y` and `WATCHOUT y` give the watch-outs `y` |
| FeedbackRoute.SummaryExample | src/app/api/feedback/route.ts:105 | (proof helper) the two summary examples, step by step |
| FeedbackRoute.DashedWatchExample | src/app/api/feedback/route.ts:108 | (proof helper) the dashed watch-outs example, step by step |
| FeedbackRoute.PlainWatchExample | src/app/api/feedback/route.ts:108 | (proof helper) the undashed watch-outs example, step by step |
| FeedbackRoute.EmptyReplyDefaults | src/app/api/feedback/route.ts:110-115 | an empty reply gives the four defaults |
| FeedbackRoute.EmptySection | src/app/api/feedback/route.ts:110-115 | an empty reply gives each section its default |
| FeedbackRoute.ColonGivenBack | src/app/api/feedback/route.ts:105 | a label followed by `:` and then only newlines captures the `:` itself, which the optional `:?` gives back |
| FeedbackRoute.WatchOutsRunToBlankLine | src/app/api/feedback/route.ts:108 | the watch-outs capture runs over every non-empty line up to the first blank line or the end, whatever labels follow |
| FeedbackRoute.EarlierLabelsDoNotStop | src/app/api/feedback/route.ts:105-107 | a SUMMARY line stops neither the observation nor the change capture; a KEY OBSERVATION line does not stop the change capture |
| FeedbackRoute.OtherInitialNoStop | src/app/api/feedback/route.ts:105-107 | a line whose first letter begins no stop label does not stop a capture |
| FeedbackRoute.PlaceholderFeedback | src/app/api/feedback/route.ts:121-128 | the summary is the greeting, then the user's name, then the closing sentence; the other three fields are fixed texts |
| FeedbackRoute.PlaceholderDependsOnlyOnName | src/app/api/feedback/route.ts:121-128 | only the summary depends on the user: two names give the same summary exactly when they are equal, and the other three fields are constants |
| FeedbackRoute.MiddleDetermined | src/app/api/feedback/route.ts:123 | (proof helper) text with the same prefix and suffix is equal exactly when the middles are |
| FeedbackRoute.AnalysisContext | src/app/api/feedback/route.ts:69-99 | the prompt opens with the preamble naming the user and closes with the instructions naming the four labels the parser reads |
| FeedbackRoute.BuildAnalysisContext | src/app/api/feedback/route.ts:69-99 | the text accumulated with `+=` is exactly `AnalysisContext`: the preamble, the scores heading, the score lines, the responses heading, the response lines and the instructions, in that order |
| FeedbackRoute.AppendScoreLines | src/app/api/feedback/route.ts:77-79 | appends one line per dictionary entry, in entry order |
| FeedbackRoute.AppendResponses | src/app/api/feedback/route.ts:82-89 | appends the Q/A/Context lines of each answer whose statement is found, in answer order |
| FeedbackRoute.Assoc | src/app/api/feedback/route.ts:74-96 | (proof helper) appending is associative, so the `+=` steps build the same text |
| FeedbackRoute.Regroup | src/app/api/feedback/route.ts:85-87 | (proof helper) three appended lines form one block |
| FeedbackRoute.ResponseLinesAppend | src/app/api/feedback/route.ts:82-89 | the response lines of two answer lists in a row are those of the first followed by those of the second |
| FeedbackRoute.UnknownAnswerSkipped | src/app/api/feedback/route.ts:83-88 | inserting an answer with an unknown statement id anywhere leaves the prompt unchanged |
| FeedbackRoute.UnknownAnswerNoLines | src/app/api/feedback/route.ts:83-88 | such an answer contributes no response lines wherever it stands |
| FeedbackRoute.UnknownAnswerAlone | src/app/api/feedback/route.ts:84 | on its own, such an answer gives no lines |
| FeedbackRoute.ContextOpensWithPreamble | src/app/api/feedback/route.ts:74-76 | the prompt begins with the preamble naming the user, role and company, then the scores heading |
| FeedbackRoute.OpensWith | src/app/api/feedback/route.ts:74-76 | (proof helper) a concatenation begins with its first part, followed by its second |
| FeedbackRoute.Framed | src/app/api/feedback/route.ts:74-96 | (proof helper) a concatenation of three parts starts with the first and ends with the last |
| FeedbackRoute.Nest | src/app/api/feedback/route.ts:74-96 | (proof helper) the six `+=` steps regroup as preamble, body and instructions |
| FeedbackRoute.Post | src/app/api/feedback/route.ts:8-64 | always answers 200. An unreadable body gives the placeholder for "User". A missing or empty key gives the placeholder for the caller's name, with no call. Otherwise the prompt built from the body is sent; a failed call gives the placeholder for "User", and a completed one gives the parsed reply |
| QuestionFlow.AnswerOptions | src/components/QuestionFlow.tsx:37-89 | scale buttons submit exactly 1, 2, 3, 4, 5 in that order, Yes submits 5 and No 1, dropdown buttons submit the options' values in option order, and anything else offers nothing |
| QuestionFlow.Answered | src/components/QuestionFlow.tsx:20-35 | appends exactly one answer, for the current statement and with the chosen value, and clears the selection; before the last statement the index moves on by one and nothing is handed on; on the last one the index stays and the full list is handed on |
| QuestionFlow.InProgressPreserved | src/components/QuestionFlow.tsx:13-31 | a step before the last keeps the list one answer per earlier statement, in catalog order |
| QuestionFlow.CompletionCoversCatalog | src/components/QuestionFlow.tsx:26-34 | the list handed on holds one answer per catalog statement, in catalog order |
| QuestionFlow.RunInProgress | src/components/QuestionFlow.tsx:13-31 | after k < n choices from the start, the index is k, the answers are those the choices make, and nothing has been handed on |
| QuestionFlow.RunCompletes | src/components/QuestionFlow.tsx:13-34 | after one choice per statement, exactly the answers those choices make are handed on, in catalog order |
| QuestionFlow.FixedButtonsOnScale | src/components/QuestionFlow.tsx:41-64 | every value a scale or yes/no button submits is in 1..5 |
| QuestionFlow.Flow.constructor | src/components/QuestionFlow.tsx:13-15 | the first statement is shown, with no answers and nothing selected |
| QuestionFlow.Flow.HandleAnswer | src/components/QuestionFlow.tsx:20-35 | the new state and the list handed on are those of one step, as `Answered` describes |
| DiagnosticPage.GreetingName | src/app/diagnostic/page.tsx:78 | the user's name when there is stored user info with a non-empty name, and `there` otherwise |
| DiagnosticPage.Render | src/app/diagnostic/page.tsx:74-89 | each step shows its own view; the results step shows the results only when there is feedback, and otherwise shows nothing |
| DiagnosticPage.Page.constructor | src/app/diagnostic/page.tsx:14-19 | starts at the user-info step with no user info, answers, scores or feedback, and not loading |
| DiagnosticPage.Page.HandleUserInfoSubmit | src/app/diagnostic/page.tsx:21-24 | stores the user info and moves to the questions step; nothing else changes |
| DiagnosticPage.Page.HandleQuestionsComplete | src/app/diagnostic/page.tsx:26-29 | stores the answers and moves to the email step; nothing else changes |
| DiagnosticPage.Page.HandleEmailSubmit | src/app/diagnostic/page.tsx:31-72 | sets the email on the stored user info. Computes the scores from the stored answers before any request, and posts those same user info, answers and scores for feedback. If that request throws, there is no feedback and nothing is saved. Otherwise the feedback is stored and a submission with the same user info, answers and scores is saved. Either way it ends at the results step, not loading |
| EmailForm.IsValidEmail | src/components/EmailForm.tsx:21-23 | accepts exactly the strings the pattern `^[^\s@]+@[^\s@]+\.[^\s@]+$` matches |
| EmailForm.PatternSplitsAtFirstAt | src/components/EmailForm.tsx:22 | the pattern matches exactly when the text has no whitespace, its first `@` is preceded by something, nothing after it is an `@`, and a `.` after it is neither the first nor the last character after it |
| EmailForm.SplitMatches | src/components/EmailForm.tsx:22 | such a text matches the pattern |
| EmailForm.MatchSplits | src/components/EmailForm.tsx:22 | a match puts the only `@` at its first `@`, with an inner dot after it |
| EmailForm.IsValid | src/components/EmailForm.tsx:25 | the trim check adds nothing: the result is exactly the pattern check |
| EmailForm.ValidIsNotBlank | src/components/EmailForm.tsx:25 | an accepted address is not blank |
| EmailForm.HandleSubmit | src/components/EmailForm.tsx:14-19 | submits exactly when the address matches the pattern, and passes it on unchanged |
| EmailForm.SubmitDisabled | src/components/EmailForm.tsx:76 | the button is disabled exactly when the address does not match or a submission is loading |
| EmailForm.SurroundingSpaceRefused | src/components/EmailForm.tsx:22 | an address with a leading space is refused, although trimming would make it valid |
| EmailForm.DomainMayStartWithDot | src/components/EmailForm.tsx:22 | `a@.b.c` is accepted: the pattern's character class admits `.` |
| UserInfoForm.IsValid | src/components/UserInfoForm.tsx:22 | the button is enabled exactly when name, role and company each hold something other than whitespace |
| UserInfoForm.HandleSubmit | src/components/UserInfoForm.tsx:15-20 | submits exactly when the three fields are non-empty as typed, passing them on untrimmed, with an empty email |
| UserInfoForm.EnabledSubmits | src/components/UserInfoForm.tsx:17-22 | whenever the button is enabled, submitting passes the fields on |
| UserInfoForm.WhitespaceFieldPassesOnlySubmit | src/components/UserInfoForm.tsx:17-22 | a field of spaces passes the submit check but keeps the button disabled |
| ResultsPage.ShortLabel | src/components/ResultsPage.tsx:15 | the label is the category name before its first `&`, trimmed; a name without `&` is just trimmed; the label never holds `&` |
| ResultsPage.ChartData | src/components/ResultsPage.tsx:14-18 | one point per dictionary entry, in entry order, each with its short label, full mark 5, and its score rounded to within 0.05 |
| ResultsPage.SharedPrefixSameLabel | src/components/ResultsPage.tsx:15 | two categories that agree before their `&` get the same label |
| ResultsPage.PrefixBeforeAmpersand | src/components/ResultsPage.tsx:15 | the first `&` of `prefix & rest` comes right after the prefix, when the prefix has none |
| ResultsPage.SecondSpace | src/components/ResultsPage.tsx:51-52 | finds the second space of a label, if it has one; otherwise the label has at most one space |
| ResultsPage.TickFormatter | src/components/ResultsPage.tsx:49-56 | a label with at most one space is unchanged; any other label is cut before its second space, and `...` is appended |
| ResultsPage.ManyPiecesIffTwoSpaces | src/components/ResultsPage.tsx:52 | splitting at spaces gives more than two pieces exactly when the label has two spaces |
| ResultsPage.FirstTwoWords | src/components/ResultsPage.tsx:53 | the first two pieces, joined by a space, are the text before the second space |
| ResultsPage.JoinTwo | src/components/ResultsPage.tsx:53 | (proof helper) joining two pieces puts the separator between them |
| ResultsPage.SliceAcrossSpace | src/components/ResultsPage.tsx:53 | (proof helper) the text before the second space is the first word, the space and the second word |

## Left out

- Network and storage are not modelled, and neither is JSON. That covers `fetch`, `request.json()`, `response.json()`, `NextResponse`, the model API's request and response shape (`data.content[0].text`), and the file store of `src/app/api/submissions/route.ts`. Each request is a parameter holding its outcome. A failed model call covers a non-OK status, a thrown fetch and an unexpected body alike.
- `FeedbackRoute.RequestBody.Malformed` stands for every error thrown before the model is called. The first of these is an unreadable request body.
- On the diagnostic page, the feedback response's JSON is taken to be a `Feedback`. The route always answers with one. A body of another shape, which the page would store as is, is not modelled. The outcome of the save request changes nothing on the page and is not modelled.
- `generateId` and `formatDate` (src/lib/utils.ts:37-53) use the clock, randomness and locale formatting. The id and the timestamp are parameters of `HandleEmailSubmit`.
- Scores are `real`, not IEEE-754 doubles, so the model does not capture rounding in sums and quotients. `toFixed(1)` in the chart is `RoundTenths`. It is stated only to be within 0.05 of the score, because the model does not capture how doubles round ties. The prompt's score lines use `ToFixed1`. Its output is not proved to be digit-exact.
- Property order of JavaScript objects is modelled as insertion order. JavaScript lists integer-like keys first; dimension names are words, and that rule is left out.
- ScoreUtils.CalculateCategoryScores: a dimension named like a member of `Object.prototype` (`constructor`, `toString`, `valueOf`, `hasOwnProperty`, `__proto__`) is filed as an ordinary key. In the source, `!categoryScores[category]` sees the inherited member and creates no own entry, `+=` then stores `NaN` over the inherited member, and `Object.keys` does not list the key. Dimension names are plain words, and this case is left out.
- ScoreUtils.FoldAnswer: the same `Object.prototype` names are not modelled in one pass of the answer loop, for the same reason.
- AdminPage.AverageScores: the same `Object.prototype` names are filed as ordinary keys of the fleet averages. In the source, `!totals[category]` creates no own entry for them, and the key is missing from `Object.entries`.
- AdminPage.AddEntry: the same `Object.prototype` names are not modelled in one entry of one submission, for the same reason.
- JavaScript strings are UTF-16 code units. The model's strings are sequences of code points. The case-insensitive match upper-cases ASCII letters only, which is all the labels need.
- The intermediate render while `handleEmailSubmit` awaits is left out: the email step with the loading flag set. The method states only the state it ends in.
- `DiagnosticPage.Page` handlers require the step whose view wires them, because the page only renders each handler's form at that step.
- `QuestionFlow.Flow.HandleAnswer` requires an existing current statement, because the handler reads its id. The progress bar and percentage are display only.
- The prompt's fixed instruction and placeholder prose are constants. Their wording is not analysed.
- JSX markup, styling, the booking link, the home page, and the results page's score list and text blocks are not modelled. They are display only.
