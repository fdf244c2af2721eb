# SurvivalIndex API — core model

SurvivalIndex rates software projects on how likely they are to survive the
AI era. Six "survival levers" are scored from 0 to 10. The scores come from a
language model, or from a demo generator when the service runs in demo mode.
They are combined by fixed weights into a survival score and a tier (S to F),
and the rating is stored against the project.

The model also covers the rest of the core:
- the project submission workflow, where anyone submits a project and an admin approves or rejects it;
- the user ratings endpoints, which post a rating, list ratings and average them;
- the project listing service, with filters, pagination and the leaderboard;
- the catalogue-seeding script, which validates new projects and inserts them.

Each component is one Dafny module in one file:

- `values.dfy`: `Option`, `Result` and JavaScript truthiness.
- `text.dfy`: substring search, `trim`, `parseInt`, `Number` on whole numbers, number rendering, and the camel-case to words rendering of lever names.
- `sorting.dfy`: a stable sort by a real key, as `Array.prototype.sort` behaves.
- `domain.dfy`: levers, scores, projects and ratings.
- `scoring.dfy`: the weights, the weighted score, the tiers and `toFixed`.
- `response.dfy`: how the model's reply text is turned into JSON.
- `github.dfy`: the GitHub URL pattern and `analyzeGitHub`.
- `prompt.dfy`: the scoring prompt.
- `demo.dfy`: the demo score generator, written as a method.
- `judge.dfy`: `scoreLeverswithLLM` and `evaluateProject`, written as methods.
- `judge_service.dfy`: the class `AIJudgeService`, which owns the project and rating tables, with single, batch and stale re-evaluation.
- `submissions.dfy`: the class `SubmissionStore` and the submission routes.
- `ratings.dfy`: the class `UserRatings` and the rating routes.
- `paging.dfy`: the page arithmetic shared by the list endpoints.
- `project_service.dfy`: `getAllProjects` and `getLeaderboard`.
- `project_template.dfy`: `validateProject` and the class `Catalogue` for the script's `main`.

Some parts of the system are not deterministic or call outside code. These become parameters:
- the language model call and `JSON.parse`;
- the GitHub queries;
- `Math.random`, given as a `Draws` record of six numbers in [0, 1) plus one for the confidence;
- the clock, given as `now` or a clock function indexed by a call counter;
- `toLocaleString`, given as a `Formatter`;
- the fixed guide text of the prompt.

Numbers are exact reals. `toFixed(n)` is rounding half away from zero at n decimals.

## Model

| member | source | states |
|---|---|---|
| Scoring.WeightsSumToOne | src/agents/judge.js:22-29 | the six lever weights sum to exactly 1 |
| Scoring.CalculateWeightedScore | src/agents/judge.js:407-417 | the weighted score lies within any interval that holds all six lever scores |
| Scoring.WeightedScoreIsDot | src/agents/judge.js:407-417 | the weighted score is the dot product of the weights with the scores |
| Scoring.WeightedScoreInRange | src/agents/judge.js:407-417 | scores within 0..10 give a weighted score within 0..10 |
| Scoring.WeightedScoreMonotone | src/agents/judge.js:407-417 | raising any lever score never lowers the weighted score |
| Scoring.CalculateTier | src/agents/judge.js:422-429 | S iff score >= 9; A iff 8 <= score < 9; B, C and D on the next whole-number bands; F iff score < 5 |
| Scoring.TierMonotone | src/agents/judge.js:422-429 | a higher score never gets a lower tier |
| Scoring.RoundHalfAway | src/agents/judge.js:57 | the rounded integer is within 1/2 of its argument, and is floor(y + 1/2) for non-negative y |
| Scoring.RoundHalfAwayMonotone | src/agents/judge.js:57 | rounding preserves order |
| Scoring.RoundHalfAwayOfInt | src/agents/judge.js:57 | rounding an integer returns it |
| Scoring.ToFixed1 | src/agents/judge.js:203-208 | `toFixed(1)` moves its argument by at most 0.05 |
| Scoring.ToFixed2 | src/agents/judge.js:57 | `toFixed(2)` moves its argument by at most 0.005 |
| Scoring.ToFixed1IsTenths | src/agents/judge.js:203-208 | `toFixed(1)` gives a whole number of tenths |
| Scoring.ToFixed1Monotone | src/agents/judge.js:203-208 | `toFixed(1)` preserves order |
| Scoring.ToFixed1OfTenths | src/agents/judge.js:203-208 | `toFixed(1)` leaves a number of tenths unchanged |
| Scoring.TierOfUnroundedScoreCanDisagree | src/agents/judge.js:50-57 | the tier comes from the unrounded score: 8.996 gets tier A, but its stored score 9.00 would be tier S |
| Scoring.SameSideOfBoundary | src/agents/judge.js:50-57 | a score at least 0.005 below a whole-number boundary stays on its side of that boundary after `toFixed(2)` |
| Scoring.TierAgreesAwayFromBoundaries | src/agents/judge.js:50-57 | away from the last 0.005 below each boundary, the stored score and the tier agree |
| ResponseParser.FenceMatch | src/agents/judge.js:385-388 | the match is the leftmost opener followed by the first closing fence after it; there is no match iff no opener has a closer after it |
| ResponseParser.FencedBody | src/agents/judge.js:385-388 | the captured body exists iff the fence matches; it occurs in the text where the match starts and is exactly the text of the match's span |
| ResponseParser.FenceFound | src/agents/judge.js:385-388 | a fenced block with no backticks before it or inside it is found at its position |
| ResponseParser.JsonFenceRoundTrip | src/agents/judge.js:385-388 | text before a "```json" block, the block and any rest give back exactly the block's body |
| ResponseParser.PlainFenceRoundTrip | src/agents/judge.js:385-388 | without a "```json" block, a plain "```" block's body is extracted |
| ResponseParser.UnfencedIsWhole | src/agents/judge.js:385-388 | a reply without backticks is used whole |
| ResponseParser.ParseClaudeResponse | src/agents/judge.js:382-402 | succeeds iff the trimmed extracted text parses and `scores`, `confidence` and `reasoning` are all truthy; every failure has the one message "Failed to parse AI response" |
| ResponseParser.ZeroConfidenceRejected | src/agents/judge.js:392-394 | a well-formed reply whose confidence is 0 is refused, because 0 is falsy |
| ResponseParser.ReplyRoundTrip | src/agents/judge.js:382-402 | a serialised object with the required fields, wrapped in a "```json" block with padding, parses back to that object |
| GitHub.ParseGitHubUrl | src/agents/judge.js:82 | a match has a non-empty owner and repository without slashes, spelled in the URL after "github.com/"; no match means no occurrence of the host is followed by two segments |
| GitHub.MatchFrom | src/agents/judge.js:82 | the pattern matches at the first occurrence of the host that is followed by two segments |
| GitHub.ParseGitHubUrlRoundTrip | src/agents/judge.js:82 | a URL built from a prefix, the host, an owner, "/", a repository and a rest starting with "/" gives back exactly that owner and repository |
| GitHub.StripGitSuffix | src/agents/judge.js:93 | a trailing ".git" is removed, and nothing else changes |
| GitHub.StripGitSuffixOfAppended | src/agents/judge.js:93 | removing ".git" undoes appending it |
| GitHub.AnalyzeGitHub | src/agents/judge.js:74-129 | null without a client or without a URL match; otherwise metrics iff both host queries succeed. Every repository field (stars, forks, issues, watchers, language, size, wiki and pages flags, the three timestamps, licence, description, topics) is copied from the repository record, topics default to [] when absent, the commit count is the commit query's, and the project is active iff it has more than 10 commits |
| GitHub.ActivityThreshold | src/agents/judge.js:123 | exactly 10 recent commits is inactive, and 11 is active |
| Prompt.YearText | src/agents/judge.js:265 | the year as digits when it is truthy, otherwise "Unknown" |
| Prompt.TopicsText | src/agents/judge.js:277 | the joined topics, or "None" when the join is empty |
| Prompt.MetricsBlock | src/agents/judge.js:267-278 | the metrics block is the empty line iff there are no GitHub metrics |
| Prompt.PromptEndsWithGuide | src/agents/judge.js:280-377 | the prompt ends with the fixed guide text |
| Prompt.MetricsBlockIffMetrics | src/agents/judge.js:267-278 | the prompt has the "GITHUB METRICS" heading iff metrics are given |
| Prompt.HeadingNotInFixedLines | src/agents/judge.js:252-265 | the metrics heading appears in no fixed line of the prompt |
| Prompt.InfoFallbacks | src/agents/judge.js:258-265 | a missing website, GitHub URL or tags shows "N/A", and a missing year shows "Unknown"; present values are shown as given |
| Prompt.PromptSeesRenderedFields | src/agents/judge.js:249-278 | two projects that render the same fields get the same prompt |
| Demo.ScoreOfDemoScores | src/agents/judge.js:165-209 | each lever's demo score is its base plus its draw times its width, plus the lever's bonuses, rounded to tenths and capped at 10 |
| Demo.DemoScoreBounds | src/agents/judge.js:169-209 | every demo score lies between its lever's base and 10, and is a whole number of tenths |
| Demo.DemoScoresBounds | src/agents/judge.js:169-209 | all six demo scores lie in their ranges |
| Demo.MoreTraitsNoLower | src/agents/judge.js:177-199 | gaining any trait (famous, old, open-source, popular) never lowers a demo score |
| Demo.StarsBonusIsStrict | src/agents/judge.js:197-199 | exactly 10000 stars earns no bonus |
| Demo.FamousIsExactName | src/agents/judge.js:177-178 | a project is famous iff its name is exactly one of the six listed names |
| Demo.RankedIsLowestTwo | src/agents/judge.js:212-214 | the first two levers of the stable ascending sort are the lowest and second-lowest; ties go to declaration order |
| Demo.PickLowestTwo | src/agents/judge.js:212-214 | the levers picked are the lowest and the second-lowest, with ties broken by declaration order |
| Demo.SortedIsLowestTwo | src/agents/judge.js:212-214 | for any list of the levers in declaration order, the sorted list starts with the lowest two |
| Demo.LowestTwoUnique | src/agents/judge.js:212-214 | the lowest two levers are determined by the scores alone |
| Demo.ShowTenthsDot | src/agents/judge.js:219-227 | a score shown in a template has a decimal point iff it is not a whole number |
| Demo.ShowTenthsInjective | src/agents/judge.js:219-227 | different scores are shown differently |
| Demo.KeyHasNoSpace | src/agents/judge.js:230-231 | lever keys contain no spaces |
| Demo.LeverNameRecoverable | src/agents/judge.js:230-231 | the words a suggestion shows identify the lever |
| Demo.GenerateDemoScores | src/agents/judge.js:165-243 | the scores are the demo scores of the project's traits and lie in their ranges, and the confidence lies in [0.85, 0.95). The reasoning is the templated text, and the suggestions name the lowest two levers |
| Demo.SynthesiseScores | src/agents/judge.js:168-209 | the step-by-step bonuses give exactly the demo scores, within their ranges |
| Judge.GitHubDataOf | src/agents/judge.js:40-42 | without a GitHub URL there is no analysis; with one, the result is what `analyzeGitHub` gives |
| Judge.ScoresFromJson | src/agents/judge.js:51-56 | the scores are read iff every lever key holds a number, and each score is that number |
| Judge.ReplyFromJson | src/agents/judge.js:55-60 | a reply is read iff it is an object whose `scores` give all six numbers, whose confidence is a number and which has a reasoning; the read reply takes those values |
| Judge.ScoreWithModel | src/agents/judge.js:140-159 | a failed model call is passed on unchanged. After a successful call, a parse failure gives "Failed to parse AI response", a readable reply gives exactly that reply, and an unreadable one gives the non-numeric message |
| Judge.ZeroConfidenceFails | src/agents/judge.js:392-394 | a model reply with confidence 0 fails the evaluation |
| Judge.ToFixed2InRange | src/agents/judge.js:57 | rounding keeps a score within 0..10 |
| Judge.EvaluationOf | src/agents/judge.js:45-64 | the evaluation carries the reply's scores, confidence and reasoning. Its tier comes from the unrounded weighted score, and its survival score is that score to two decimals. It has no suggestions field |
| Judge.ScoreLevers | src/agents/judge.js:134-160 | in demo mode, the demo scores within their ranges, a confidence in [0.85, 0.95) and the demo reasoning for those scores; otherwise the model's reply |
| Judge.EvaluateProject | src/agents/judge.js:35-69 | a failure carries the "AI Judge evaluation failed: " prefix. A success has the tier and score computed as above, plus the GitHub analysis of the project. In demo mode it always succeeds, with the demo scores and their demo reasoning, a confidence in [0.85, 0.95) and a survival score of at least 5 |
| Judge.DemoEvaluationBounds | src/agents/judge.js:165-209 | demo scores always give a survival score between 5 and 10 |
| JudgeService.SuggestionsOrNull | src/services/aiJudgeService.js:41 | suggestions are stored iff they are present and truthy |
| JudgeService.KeptOr | src/services/aiJudgeService.js:61-63 | on update, a column keeps its old value when no GitHub data is new |
| JudgeService.RatingOf | src/services/aiJudgeService.js:27-66 | the upserted rating has the evaluation's fields, its suggestions under `|| null`, and the current time. GitHub columns come from the new data, else are kept from the old rating (update) or left null (create) |
| JudgeService.JudgeSuggestionsAreNull | src/services/aiJudgeService.js:41 | a judged rating never stores suggestions, because the evaluation has none |
| JudgeService.Attempted | src/services/aiJudgeService.js:11-75 | an unknown project fails with "Project with ID n not found" and changes nothing. A failed evaluation changes no rating. A success upserts exactly that project's rating |
| JudgeService.RunBatch | src/services/aiJudgeService.js:80-106 | one outcome per id, in order; ratings stay keyed by project |
| JudgeService.SuccessesAndFailuresPartition | src/services/aiJudgeService.js:97-103 | successes plus failures equal the number of ids |
| JudgeService.FailuresAreFailedIds | src/services/aiJudgeService.js:88-94 | each reported failure is a failed id with its error |
| JudgeService.Report | src/services/aiJudgeService.js:97-105 | total = successful + failed, and each count matches its list |
| JudgeService.StaleIds | src/services/aiJudgeService.js:112-133 | the re-evaluated ids are exactly the listed projects with no rating or a rating older than the cutoff |
| JudgeService.CutoffIsExclusive | src/services/aiJudgeService.js:121-124 | a rating made exactly at the cutoff is not stale, and one a millisecond earlier is |
| JudgeService.StaleIdsAntitone | src/services/aiJudgeService.js:112-128 | a larger age threshold re-evaluates no more projects |
| JudgeService.AIJudgeService.EvaluateAndStoreProject | src/services/aiJudgeService.js:11-75 | the new tables and the result are those of `Attempted`; the project table is unchanged |
| JudgeService.AIJudgeService.BatchEvaluate | src/services/aiJudgeService.js:80-106 | the ids are evaluated one after another; the new tables and the report are those of `RunBatch` |
| JudgeService.AIJudgeService.EvaluateEach | src/services/aiJudgeService.js:84-95 | the loop's results and errors are the successes and failures of the sequential run |
| JudgeService.AIJudgeService.ReevaluateStaleProjects | src/services/aiJudgeService.js:111-135 | exactly the stale projects, each listed once, are batch-evaluated in table order |
| Submissions.WrittenLogoIsMisreadEmoji | src/routes/submissions.js:73 | the default logo as written is the UTF-8 bytes of the package emoji read as Windows-1252: four characters, not the emoji |
| Submissions.YearCreatedOf | src/routes/submissions.js:75 | null when absent; otherwise the parsed number, or a failure when it does not parse |
| Submissions.YearCreatedOfRendered | src/routes/submissions.js:75 | a year written as digits is read back as itself |
| Submissions.NewSubmission | src/routes/submissions.js:65-84 | a new submission is pending and unreviewed, copies the request's fields, and falls back to the package emoji for a missing logo |
| Submissions.ProjectFrom | src/routes/submissions.js:197-214 | the approved project copies the submission's 13 listing fields |
| Submissions.SubmissionStore.Create | src/routes/submissions.js:12-99 | 400 for missing fields, an existing project name, or a pending submission of the same name; 500 for an unreadable year. Returns 201 iff admissible, and only then adds exactly one new pending submission |
| Submissions.SubmissionStore.Approve | src/routes/submissions.js:180-238 | 404 unknown, 400 already reviewed, 500 on a taken project name. Returns 200 iff pending and the name is free; it then adds the project and marks the submission approved by the admin. Otherwise nothing changes |
| Submissions.SubmissionStore.Reject | src/routes/submissions.js:244-285 | 404 unknown, 400 already reviewed, 400 without a reason. Returns 200 iff pending with a reason, and then only that submission becomes rejected |
| Submissions.SubmissionStore.CountPending | src/routes/submissions.js:140-151 | the count is the number of pending submissions: zero iff none is pending, and never more than the number of submissions |
| Submissions.SubmissionStore.Get | src/routes/submissions.js:157-174 | the stored submission with 200 iff the id exists, else 404 |
| Submissions.SubmissionStore.Delete | src/routes/submissions.js:291-304 | removes exactly that submission; an unknown id gives 500 |
| Submissions.WithStatus | src/routes/submissions.js:108 | without a status, all rows; otherwise exactly the rows with that status, each as often as in the table |
| Submissions.ListSubmissions | src/routes/submissions.js:105-134 | with page 1 and limit 20 by default, fails (500) iff the offset `(page - 1) * limit` is NaN or negative or the limit does not `parseInt`. Otherwise it returns the database slice of the filtered rows sorted newest first (a negative limit counts back from the end), the filtered total, `Math.ceil(total / limit)` and the parsed page and limit |
| Submissions.ListedByDefault | src/routes/submissions.js:107-117 | without page and limit, the 20 newest matching submissions, reported as page 1 |
| Submissions.ReportedPageIsServed | src/routes/submissions.js:115-125 | when page and limit are whole numbers, the page and limit the reply reports are the ones the offset was computed from |
| Submissions.ListedSubmissions | src/routes/submissions.js:108-116 | every listed submission is stored and has the requested status, and the page is newest first |
| Paging.TotalPagesIsCeiling | src/services/projectService.js:54 | for a positive limit, the page count is the least n with n × limit >= total; a zero limit gives no number |
| Paging.HasNextPageIffMoreRows | src/services/projectService.js:55 | there is a next page iff rows remain after `page` pages |
| Paging.Window | src/services/projectService.js:44-45 | the window holds the `take` rows that follow the first `skip`, or fewer at the end |
| Paging.Slice | src/services/projectService.js:44-45 | a non-negative take is the window; a negative take gives the last -take rows before the final `skip` rows (or all of them), in order |
| Paging.NegativeTakeReversed | src/services/projectService.js:44-45 | a negative take is the positive take on the reversed rows, reversed back |
| Paging.NegativeTakeIsSuffix | src/services/projectService.js:122 | with nothing skipped, a negative take is the last -take rows |
| Paging.PagesCover | src/services/projectService.js:29 | row k is entry k mod limit of page k div limit + 1 |
| Paging.PageFilledIffWithinCount | src/services/projectService.js:29-55 | a page has rows iff its number is within the page count |
| ProjectService.FilterMeaning | src/services/projectService.js:13-24 | the built filter keeps a row iff it matches the type and category given, and any score bound keeps only rated rows within the bounds |
| ProjectService.Filter | src/services/projectService.js:35-36 | exactly the rows that satisfy the filter, each as often as in the table |
| ProjectService.GetAllProjects | src/services/projectService.js:10-59 | succeeds iff page and limit parse and the skip is not negative. It returns the database slice of the filtered rows, newest first (a negative limit counts back from the end), with the page figures |
| ProjectService.ListedRowMatches | src/services/projectService.js:10-46 | every listed row is a stored row that satisfies the filters |
| ProjectService.ListedNewestFirst | src/services/projectService.js:41-43 | a listed page is ordered newest first |
| ProjectService.DefaultsListFirstTwenty | src/services/projectService.js:11 | without page and limit, the first 20 matching rows, with no previous page |
| ProjectService.RatedRows | src/services/projectService.js:114-118 | exactly the rows that have an AI rating, each as often as in the table |
| ProjectService.GetLeaderboard | src/services/projectService.js:112-129 | as written, it takes the first `limit` rated rows in table order (the last -limit for a negative limit), then sorts them by descending score; it holds as many rows as the absolute value of the limit (or all rated rows when fewer), a permutation of those taken |
| ProjectService.LeaderboardNegativeLimit | src/services/projectService.js:122-128 | a negative limit puts the last -limit rated rows of the table on the board |
| ProjectService.LeaderboardRowRated | src/services/projectService.js:112-123 | every leaderboard row is rated |
| ProjectService.LeaderboardDescending | src/services/projectService.js:126-128 | the leaderboard is ordered by descending score |
| ProjectService.LeaderboardTiesKeepOrder | src/services/projectService.js:126-128 | rows with equal scores keep their table order |
| ProjectService.LeaderboardCanMissTopScore | src/services/projectService.js:112-128 | with limit 1, a lower-scored row listed first crowds out the top-scored row |
| ProjectService.TopLeaderboard | src/services/projectService.js:112-128 | corrected: the board is in descending score order and, for a non-negative limit, holds min(limit, rated) rows |
| ProjectService.TopLeaderboardKeepsBest | src/services/projectService.js:112-128 | corrected: no rated row left out scores higher than a row shown |
| ProjectTemplate.IncludesIsIn | prisma/add-projects-template.js:123-127 | `includes` is membership |
| ProjectTemplate.FailedChecks | prisma/add-projects-template.js:116-140 | no check fails iff the project is valid |
| ProjectTemplate.ReportLists | prisma/add-projects-template.js:116-140 | an error is reported iff its check failed |
| ProjectTemplate.ValidateProject | prisma/add-projects-template.js:116-140 | no errors iff the project is valid |
| ProjectTemplate.ValidateProjectReportsEachCheck | prisma/add-projects-template.js:116-140 | each of the five messages is reported iff its field fails its check: blank name, unknown type, unknown category, blank description, non-boolean selfHostable |
| ProjectTemplate.ValidateProjectInCheckOrder | prisma/add-projects-template.js:116-140 | errors come in check order, at most five, and the category message names the given category |
| ProjectTemplate.AtMostFiveErrors | prisma/add-projects-template.js:116-140 | any list in check order has at most five errors |
| ProjectTemplate.WhiteSpaceNameRefused | prisma/add-projects-template.js:119 | a name of only white space is refused |
| ProjectTemplate.FailingIndices | prisma/add-projects-template.js:152-163 | an index is reported iff that project has errors |
| ProjectTemplate.DuplicateNames | prisma/add-projects-template.js:171-177 | a name is reported iff it is already catalogued and some new project has it |
| ProjectTemplate.Insertion | prisma/add-projects-template.js:187-198 | existing entries are kept; the catalogue gains exactly the new names; success count <= number of new projects |
| ProjectTemplate.FreshNamesAllInserted | prisma/add-projects-template.js:187-198 | distinct fresh names are all inserted and counted |
| ProjectTemplate.RepeatedNameFailsOnce | prisma/add-projects-template.js:187-198 | a name repeated within the list is inserted once, and the second insert fails |
| ProjectTemplate.FailingIffInvalid | prisma/add-projects-template.js:152-167 | some index fails iff not all projects are valid |
| ProjectTemplate.Catalogue.ValidateAll | prisma/add-projects-template.js:152-167 | the loop reports exactly the failing indices, and errors iff not all projects are valid |
| ProjectTemplate.Catalogue.InsertAll | prisma/add-projects-template.js:187-198 | the new catalogue and the count are those of `Insertion` |
| ProjectTemplate.Catalogue.AddProjects | prisma/add-projects-template.js:143-205 | an empty list stops first, then invalid entries, then names already present; the catalogue changes only when the projects are added |
| Ratings.InOrder | src/routes/ratings.js:24-31 | the checked array holds the six submitted scores in lever order |
| Ratings.ScoresInRange | src/routes/ratings.js:33-39 | accepted iff every given score is within 0..10 |
| Ratings.AcceptedIffGivenWithin | src/routes/ratings.js:24-39 | the array check accepts iff every given lever score is within 0..10; a missing score passes |
| Ratings.Stored | src/routes/ratings.js:51-63 | a rating can be stored iff all six scores are given, and it holds them |
| Ratings.UserRatings.Post | src/routes/ratings.js:10-69 | 400 for an out-of-range score, 404 for an unknown project, 500 for an unreadable id or a missing score; a 201 reply exactly when every check passes, appending exactly one rating |
| Ratings.RatingsFor | src/routes/ratings.js:98-102 | exactly the ratings of that project, each as often as in the table |
| Ratings.Averages | src/routes/ratings.js:111-118 | each lever's average is the mean of its scores |
| Ratings.AverageRatings | src/routes/ratings.js:96-127 | succeeds iff the id reads as a number. The averages are null iff there are no ratings, and otherwise each is sum / count |
| Ratings.ListRatings | src/routes/ratings.js:75-90 | succeeds iff the id reads as a number; returns exactly the project's ratings, as many of each as the table holds, newest first |
| Ratings.SumWithin | src/routes/ratings.js:111-118 | bounds on every score bound the sum by count × bound |
| Ratings.AverageWithin | src/routes/ratings.js:111-118 | the average of scores within bounds is within those bounds |
| Ratings.AverageOfEqualScores | src/routes/ratings.js:111-118 | the average of equal scores is that score |
| Ratings.ReportedAveragesWithin | src/routes/ratings.js:96-127 | every reported average of a valid store is within 0..10 |
| Sorting.SortBy | src/agents/judge.js:212 | the sort gives a sorted permutation of its input |
| Sorting.SortByIsStable | src/services/projectService.js:126-128 | elements with equal keys keep their input order |
| Text.Trim | src/agents/judge.js:389 | the result is the input without leading and trailing white space |
| Text.TrimIdempotent | src/agents/judge.js:389 | trimming twice is trimming once |
| Text.DecimalNumberOfRendered | src/routes/submissions.js:115 | `Number` reads back any integer's decimal rendering |
| Text.DecimalNumberIsParseInt | src/routes/submissions.js:115-125 | where `Number` reads non-blank text as a whole number, `parseInt` reads the same number |
| Text.ParseIntOfBlank | src/routes/submissions.js:116 | `parseInt` finds no number in blank text, which `Number` reads as 0 |
| Text.ParseIntOfRendered | src/routes/ratings.js:43 | `parseInt` reads back any integer's decimal rendering, whatever non-digit text follows |
| Text.HumanizeRoundTrip | src/agents/judge.js:230-231 | lower-casing and spacing a camel-case name loses nothing |
| Text.HumanizeIsLowerCase | src/agents/judge.js:230-231 | the rendered lever name has no capitals |
| Domain.AllWithinEveryLever | src/routes/ratings.js:33-39 | all scores within bounds iff each lever's score is |

## Left out

- Demo.GenerateDemoScores: the lowest and second-lowest levers are returned as extra out-parameters so that their property can be stated. The source keeps them local.
- Judge.ScoresFromJson: a reply in which some lever score is not a JSON number fails the evaluation. In the source, `evaluateProject` still succeeds then: a missing or non-numeric score makes the weighted score NaN, and a numeric string such as "7" is coerced by the arithmetic (`"7" * 0.20`). Only storing the rating can fail, when the database's float column refuses the value.
- Judge.ReplyFromJson: a confidence that is truthy but not a JSON number (a string such as "0.9") fails the evaluation with the non-numeric message. The source checks the confidence only for truthiness and passes it through `evaluateProject` unchanged; only storing the rating can fail on it.
- Floating point is not modelled. All arithmetic is exact, and `toFixed` is rounding half away from zero on exact reals.
- `toLocaleString` is a `Formatter` parameter, and the guide section of the prompt is a parameter. Neither text is reproduced.
- `Math.random`, the clock, the language model, `JSON.parse` and the GitHub queries are parameters. The stale cutoff's `setDate(getDate() - daysOld)` (JudgeService.Cutoff) is a fixed day length, so time zones and daylight saving are not modelled. The 90-day window of the commit query is not modelled: the commit count is the query's parameter, which takes no date.
- GitHub.AnalyzeGitHub: the one-page limit of 100 commits is not imposed on the commit count the query returns.
- The listing order of the database is the table order of the sequence given. Prisma's behaviour is written out for the cases the core relies on: inclusive bounds, a relation filter that needs a row, and skip/take.
- ProjectService.GetAllProjects: a page or limit that does not parse, and a negative skip, become an error result. The database refuses these, with a message the model does not reproduce.
- ProjectService.GetAllProjects: the score bounds are taken as numbers. A `minScore` or `maxScore` that `parseFloat` reads as NaN is not modelled.
- Submissions.ListSubmissions: `Number` is modelled on blank text and on signed strings of decimal digits. Fractions, exponents, hexadecimal and "Infinity", which `Number` reads as numbers, are treated like NaN, so they give the failed listing.
- Submissions.SubmissionStore.Create: a year that does not parse is modelled as the 500 reply, which is where the database's refusal of NaN ends. Other database failures are not modelled.
- The route handlers read ids with `parseInt`. The submission methods take the id as a number; the rating routes parse it.
- Ratings.UserRatings.Post: a missing lever score is refused as a failed insert (500). This assumes the rating's score columns are required, because the schema is not part of this model. String-valued scores are not modelled.
- ProjectService: `getProjectById`, `createProject`, `updateProject` and `deleteProject` are single database calls with no logic of their own, so they are not modelled.
- The asynchronous and concurrent parts are not modelled: `Promise.all`, awaiting, and the interleaving of requests. The batch loop is sequential in the source, and the model keeps that.
- Authentication, the export routes, the seed script and the server wiring are not part of this model. The 500 message of the central error handler is the one constant used from it.
- The script's `process.exit` paths are outcomes of `AddProjects`: nothing to add, invalid entries, or names already present. Console output is not modelled.
- Replies are a status code and a message. The records the routes echo back are not modelled: the created submission, the approved project and the `triggerAIEvaluation` flag.
- ProjectService.GetLeaderboard: the default limit of 100 is not modelled; the caller always gives the limit.
- In-place sorts are modelled on values by a stable sort function. `Array.prototype.sort` is stable, so the order is the same.
- JudgeService.AIJudgeService.ReevaluateStaleProjects: the default of 30 days is not modelled; the caller always gives the number of days.

## Findings

| source | as written | input that shows it | evidently intended | confidence | as-written member | corrected member |
|---|---|---|---|---|---|---|
| src/routes/submissions.js:73 | the default logo is the four characters U+00F0 U+0178 U+201C U+00A6 (the package emoji's UTF-8 bytes read as Windows-1252) | a submission without a logo | the package emoji U+1F4E6, as the rest of the system uses | not executed | Submissions.WrittenLogoIsMisreadEmoji | Submissions.NewSubmission |
| src/services/projectService.js:112-128 | `take: limit` is applied in table order before the rows are sorted by score, so the leaderboard is the best of an arbitrary `limit` rows | two rated rows [low, high], with low listed first, and limit 1 | the `limit` highest-scored rated projects | not executed | ProjectService.LeaderboardCanMissTopScore | ProjectService.TopLeaderboardKeepsBest |
