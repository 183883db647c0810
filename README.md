# Interview session model

This project models the core of an AI mock-interview web app, built with Next.js and React, in Dafny:

- **The interview page** (`app/interview/page.jsx`). It runs three rounds. In each round the page loads a question, takes a typed answer, has the answer evaluated and shows the review. After the last round it shows the summary.
- **The two API routes the page posts to**: `POST /api/generate-question` and `POST /api/evaluate-answer`.
- **The two cards that present results**: the per-answer evaluation card and the end-of-session summary card.

The page is modelled as the class `Interview.Session`, whose fields are the page's state variables. The class invariant `Valid()` describes the reachable states:

- the round index stays below 3;
- there is one score per reviewed round;
- at most one question id is recorded per round;
- a clean error and a cleared answer hold while loading;
- an evaluation whose score is the last score exists once a round is reviewed.

Each asynchronous handler is split in two:

- a method for the part before its `await`, which returns the payload it posts;
- a method that takes the reply as a parameter.

The routes are pure functions from the parsed request body to a status and a response body. The AI helper library they call is a function-typed parameter.

JavaScript semantics are written out where the code relies on them:

- truthiness;
- destructuring of `null`/`undefined`;
- the `trim` whitespace set;
- UTF-16 string length;
- `split(/\s+/).filter(Boolean)`;
- `JSON.stringify` dropping `undefined` members and writing `undefined` array entries as `null`;
- `res.ok`;
- the round-half-up behaviour of `toFixed(1)`.

JSON objects are ordered member lists, and a lookup finds the last member with the key.

The page and the routes do not agree on their contract, and the model exposes this as it is written:

- The page posts `{ questionId, answer, difficulty }` to the evaluation route. The route requires `role`, `question` and `answer`, so every evaluation request the page builds is refused with the missing-fields error (`Interview.PageEvaluationRequestRejected`, `Interview.SubmitToRoute`).
- The page reads `data.questionId` from the question route, which never sends one. The page therefore stores `undefined` and appends `undefined` to `askedQuestionIds` (`Interview.PageQuestionRequestGetsNoId`, `Interview.LoadFromRoute`).

Two things the model states as the code does them:

- `askedQuestionIds` is appended to without a duplicate check.
- The question route ignores `excludeIds`, so nothing prevents a repeated question.

## Model

| member | source | states |
|---|---|---|
| Interview.Session.constructor | app/interview/page.jsx:48-58 | Initial state: phase "loading", round 0, `question`/`questionId` "", empty answer, `null` evaluation, no scores, no asked ids, no error; the class invariant holds |
| Interview.Session.LoadQuestion | app/interview/page.jsx:61-75 | In the summary nothing happens and nothing is posted; otherwise phase becomes "loading", answer, evaluation and error are cleared, and `{ role, difficulty, excludeIds: askedQuestionIds }` is posted; round, question, id, scores and asked ids unchanged; invariant kept |
| Interview.Session.CompleteLoad | app/interview/page.jsx:77-93 | Always ends in "answering". An ok reply sets `question`/`questionId` from the body and appends the body's `questionId` (even `undefined`, no duplicate check) to `askedQuestionIds` with no error. A non-ok reply or a network failure keeps question, id and asked ids and sets a non-empty error (body's error, else "Failed to generate question", or the network message). Answer, evaluation, scores and round unchanged |
| Interview.Session.EditAnswer | app/interview/page.jsx:236-241 | Typing while answering changes only `answer` |
| Interview.Session.Submit | app/interview/page.jsx:99-112 | Posts exactly when the trimmed answer has at least 10 UTF-16 units. Otherwise it sets "Please write a more complete answer." and stays answering with answer, evaluation and scores unchanged. If it posts, it clears the error, enters "evaluating" and posts `{ questionId, answer, difficulty }` |
| Interview.Session.CompleteSubmit | app/interview/page.jsx:115-130 | On an ok reply it stores the evaluation, appends exactly its score to `scores` and enters "reviewed". On failure it returns to "answering" with a non-empty error, and `scores` and `evaluation` are as they were. The answer is unchanged either way |
| Interview.Session.Next | app/interview/page.jsx:133-139 | From "reviewed" in the last round it goes to the summary with the round unchanged and no load. Otherwise the round goes up by exactly one and a new load starts (the effect keyed on `currentQ`). Scores and asked ids are unchanged |
| Interview.Session.ProgressValue | app/interview/page.jsx:147-148 | Within [0, 100]; it is 100 exactly when the last round is reviewed |
| Interview.Session.WordCount | app/interview/page.jsx:145 | Zero exactly for a blank answer, and equal to the number of word starts of the untrimmed answer |
| Interview.ReplyError | app/interview/page.jsx:79-91 | The error a failed reply leaves is never empty |
| Interview.Succeeded | app/interview/page.jsx:79 | `res.ok` holds exactly for a delivered response with status 200 to 299 |
| Interview.IdsAsJson | app/interview/page.jsx:74 | `JSON.stringify` writes each id as a string and each `undefined` as `null`; reading `null` back as no id recovers the list |
| Interview.Json | app/interview/page.jsx:112 | The parsed body of each posted literal is an object. A route reading the question payload sees `role`, `difficulty` and `excludeIds`. A route reading the answer payload sees `answer` and `difficulty`, `undefined` for `role` and `question`, and `questionId` only when the page has one |
| Interview.SummaryHasEveryScore | app/interview/page.jsx:133-136 | The summary is only reached with exactly 3 scores |
| Interview.StartSession | app/interview/page.jsx:48-97 | Mounting yields the initial state in "loading" with round 0, no scores and no asked ids |
| Interview.PlayRound | app/interview/page.jsx:64-139 | One round with a sufficient answer and a successful evaluation appends that score. The page then moves to the next load, or to the summary after round 3 |
| Interview.RunSession | app/interview/page.jsx:13-139 | Three such rounds reach the summary with the three scores in round order, whatever the loads returned |
| Interview.SubmitRound | app/interview/page.jsx:99-130 | The posted payload carries the current id and answer, and the answer survives. Only an ok reply adds a score; a failure restores "answering" |
| Interview.ResubmitAfterFailure | app/interview/page.jsx:117-121 | After a failed evaluation, submitting again posts the identical payload, and a success then completes the round |
| Interview.PageEvaluationRequestRejected | app/interview/page.jsx:112 | The evaluation route answers every payload the page builds with 400 "role, question, and answer are required" |
| Interview.SubmitToRoute | app/interview/page.jsx:109-121 | Wired to that route, every submit that posts ends back in "answering" with that error and the scores unchanged, so no round can be reviewed |
| Interview.PageQuestionRequestGetsNoId | app/interview/page.jsx:86 | The question route answers the page's request with status 200 and the generated question, but with no `questionId` |
| Interview.LoadFromRoute | app/interview/page.jsx:71-88 | Wired to that route, a successful load stores the question, leaves `questionId` undefined and appends `undefined` to `askedQuestionIds` |
| SummaryCard.SumBounds | components/SummaryCard.jsx:8 | Scores within [lo, hi] sum to between lo·n and hi·n |
| SummaryCard.Sum | components/SummaryCard.jsx:8 | The `reduce` sum of scores on the 0 to 10 scale lies between 0 and 10 per score |
| SummaryCard.RoundTenths | components/SummaryCard.jsx:8 | `toFixed(1)` in tenths: nearest tenth of num/den, ties upward in magnitude, sign restored |
| SummaryCard.AverageTenths | components/SummaryCard.jsx:8 | NaN (None) exactly for no scores; otherwise the mean rounded to tenths |
| SummaryCard.Verdict | components/SummaryCard.jsx:10-17 | Each of the four verdicts holds exactly on its band: ≥ 8.0, [6.0, 8.0), [4.0, 6.0), and below 4.0 or NaN; lower bounds are inclusive |
| SummaryCard.VerdictColor | components/SummaryCard.jsx:19-26 | Its own copy of the thresholds always yields the colour of the verdict |
| SummaryCard.ColorFollowsVerdict | components/SummaryCard.jsx:19-26 | The colour is a function of the verdict, and distinct verdicts get distinct colours |
| SummaryCard.VerdictMonotone | components/SummaryCard.jsx:10-17 | A larger average never gets a lower verdict |
| SummaryCard.AverageWithinScale | components/SummaryCard.jsx:8 | Scores in [0, 10] give an average in [0.0, 10.0] |
| SummaryCard.SolidExample | components/SummaryCard.jsx:8-26 | [7, 9, 5] gives 7.0, "Solid Performance", blue |
| SummaryCard.OutstandingExample | components/SummaryCard.jsx:8-17 | [8, 8, 8] gives 8.0, "Outstanding" |
| SummaryCard.RoundedMeanDecidesTier | components/SummaryCard.jsx:8-17 | The tier is read off the rounded mean: a raw mean just below 8 that rounds to 8.0 is "Outstanding" |
| SummaryCard.Decimal | components/SummaryCard.jsx:52 | Interpolating a number writes a non-empty string of decimal digits |
| SummaryCard.DecimalRoundTrip | components/SummaryCard.jsx:52 | Those digits read back as the number |
| SummaryCard.Breakdown | components/SummaryCard.jsx:49-56 | One row per score in input order: caption "Q" + (i+1), bar value s·10, score s |
| SummaryCard.BreakdownLabelsNumberRounds | components/SummaryCard.jsx:49-56 | Row i's caption reads back as round i+1, and distinct rows have distinct captions |
| EvaluationCard.ScoreTier | components/EvaluationCard.jsx:17-24 | Strong exactly from 8, Fair exactly on [5, 8), Weak exactly below 5 |
| EvaluationCard.ScoreColor | components/EvaluationCard.jsx:17-22 | The badge classes are the badge of the score's tier |
| EvaluationCard.BarColor | components/EvaluationCard.jsx:24 | The bar colour, with its own thresholds, is the bar colour of the score's tier |
| EvaluationCard.BadgeAndBarShareTier | components/EvaluationCard.jsx:17-24 | Badge and bar colours are both functions of the tier, and each is injective on tiers, so they always show the same tier |
| EvaluationCard.TierMonotone | components/EvaluationCard.jsx:17-24 | A higher score never gets a lower tier |
| EvaluationCard.BarWidth | components/EvaluationCard.jsx:48 | The width is ten times the score, within [0, 100] for scores in [0, 10] |
| EvaluationCard.Assessments | components/EvaluationCard.jsx:26-30 | Exactly three boxes: Technical Accuracy, Clarity, Depth, each bound to its field, with distinct titles as keys |
| EvaluationCard.ListItems | components/EvaluationCard.jsx:74-79 | One entry per item, in the original order, with pairwise distinct keys (also used for the improvements list) |
| EvaluateAnswerApi.Post | app/api/evaluate-answer/route.js:4-19 | 400 "role, question, and answer are required" exactly when a field is missing or falsy. 400 "Answer is too short to evaluate." exactly for a string answer whose trim is under 10 units. 200 with `{ evaluation }` exactly when both pass and the evaluator returns. Everything else is 500 "Failed to evaluate answer. Check your API key." |
| EvaluateAnswerApi.MissingFields | app/api/evaluate-answer/route.js:7 | Only a parsed, destructurable body can miss a field, and a destructurable value that is not an object misses all of them |
| EvaluateAnswerApi.HasStringAnswer | app/api/evaluate-answer/route.js:10 | A body that passes the field check with a string answer is an object that misses no field |
| EvaluateAnswerApi.TooShort | app/api/evaluate-answer/route.js:10 | Only a body with a string answer can be too short, and every non-empty blank answer is |
| EvaluateAnswerApi.Admitted | app/api/evaluate-answer/route.js:13 | A body reaches the evaluator exactly when it has a string answer that is not too short, and then it misses no field |
| EvaluateAnswerApi.RejectionSkipsEvaluator | app/api/evaluate-answer/route.js:6-12 | A rejected request gets the same 400/500 response whatever the evaluator would do |
| EvaluateAnswerApi.EmptyAndBlankAnswers | app/api/evaluate-answer/route.js:7-12 | The field check comes first: an empty answer gets the missing-fields message, and a non-empty blank answer gets the too-short message |
| EvaluateAnswerApi.BodyWithoutRoleRejected | app/api/evaluate-answer/route.js:6-9 | Any object without a `role` member gets the 400 missing-fields response |
| GenerateQuestionApi.Post | app/api/generate-question/route.js:4-16 | 400 "role and difficulty are required" exactly when one of them is missing or falsy. 200 with `{ question }` exactly when the generator returns. Everything else is 500 "Failed to generate question. Check your API key." |
| GenerateQuestionApi.MissingFields | app/api/generate-question/route.js:7 | Only a parsed, destructurable body can miss a field, and a destructurable value that is not an object misses both |
| GenerateQuestionApi.Admitted | app/api/generate-question/route.js:10 | A body reaches the generator only as an object, and a parsed destructurable body reaches it exactly when it misses no field |
| GenerateQuestionApi.RejectionSkipsGenerator | app/api/generate-question/route.js:6-9 | A rejected request gets the same 400/500 response whatever the generator would do |
| GenerateQuestionApi.OnlyRoleAndDifficultyMatter | app/api/generate-question/route.js:6-10 | Bodies that agree on `role` and `difficulty` get the same response, so `excludeIds` is ignored and nothing prevents a repeat |
| GenerateQuestionApi.NeverSendsQuestionId | app/api/generate-question/route.js:11 | No response of the route carries a `questionId` |
| Protocol.Lookup | app/api/evaluate-answer/route.js:6 | A key that no member has reads as `undefined` |
| Protocol.LookupFindsLast | app/api/evaluate-answer/route.js:6 | A member that no later member overrides is the value read for its key |
| Protocol.Property | app/api/evaluate-answer/route.js:6 | Reading a key of a value that is not an object gives `undefined` |
| Protocol.Truthy | app/api/evaluate-answer/route.js:7 | A value is falsy exactly when it is `undefined`, `null`, `false`, `0` or `""` |
| Protocol.Destructurable | app/api/evaluate-answer/route.js:6 | Destructuring throws exactly on `undefined` and `null`, so every truthy value can be destructured |
| Text.TrimStart | app/api/evaluate-answer/route.js:10 | Drops exactly the leading whitespace: a suffix preceded only by whitespace that does not itself start with whitespace |
| Text.TrimEnd | app/api/evaluate-answer/route.js:10 | Drops exactly the trailing whitespace, the mirror image of `Text.TrimStart` |
| Text.TrimIsInfix | app/api/evaluate-answer/route.js:10 | `trim` yields an infix with only whitespace outside it, and its ends are not whitespace |
| Text.Trim | app/interview/page.jsx:100 | `trim` is never longer than its input and neither starts nor ends with whitespace |
| Text.TrimEmptyIffBlank | app/interview/page.jsx:100 | A string trims to "" exactly when it is all whitespace |
| Text.TrimIdempotent | app/interview/page.jsx:100 | Trimming twice is trimming once |
| Text.Utf16Length | app/interview/page.jsx:100 | `length` counts between one and two units per character |
| Text.TrimmedLength | app/interview/page.jsx:100 | `trim().length` counts one or two units per remaining character and is never more than the untrimmed `length` |
| Text.TrimmedLengthZeroIffBlank | app/interview/page.jsx:100 | The trimmed length is 0 exactly for blank strings |
| Text.SplitWhitespace | app/interview/page.jsx:145 | `split(/\s+/)` always yields at least one piece, and no piece contains whitespace (the shape only; `Text.SplitCountsWordStarts` states how many pieces are non-empty) |
| Text.NonEmpty | app/interview/page.jsx:145 | `filter(Boolean)` keeps exactly the non-empty pieces of its input, as a multiset (each as often as it occurs there), and is never longer than its input |
| Text.SplitCountsWordStarts | app/interview/page.jsx:145 | For every string, the non-empty pieces of the split are as many as the word starts |
| Text.WordCount | app/interview/page.jsx:145 | The word count equals the number of word starts (a non-whitespace character at the start or after whitespace) |
| Text.WordCountZeroIffBlank | app/interview/page.jsx:145 | The word count is 0 exactly for blank answers |

## Left out

- The AI helper library (`generateQuestion`, `evaluateAnswer`) is not part of this model. Its behaviour is a function parameter that returns a value or throws. The generator is taken to return a string.
- Parsing a request body that is not JSON, and a reply whose body `res.json()` cannot parse, are modelled only as their outcome: `Unparseable` for the routes, `NetworkFailure` for the page. The bytes, headers and `fetch` itself are left out.
- Response bodies are reduced to the four keys the routes write and the page reads (`error`, `question`, `questionId`, `evaluation`). A non-string `error` or `question` in a reply is not modelled.
- Interview.Session.CompleteSubmit: requires an ok reply to carry an evaluation. With none, the page's state updater reads `.score` of `undefined` during React's next render, outside the handler's `try`, and the page crashes; that crash is not modelled.
- Scores are integers, and the evaluation card's and summary's arithmetic is exact. A fractional or non-numeric score from the evaluator is not modelled.
- SummaryCard.AverageTenths: the mean is exact, not binary floating point. Where the exact mean is a tie between tenths that no double represents, JavaScript can round differently. For example 3/20 = 0.15 is stored just below 0.15, so `toFixed(1)` gives "0.1", while the model gives 0.2. The page's sessions of three integer scores never produce such a tie.
- The text that `toFixed` and the template literals produce (`"7.0"`, `"70%"`) is left out. The model keeps the tenths and the numbers.
- Interview.Session.ProgressValue: computed on exact reals rather than doubles.
- React scheduling is left out, and each handler's two halves are atomic steps: effect timing, StrictMode's double effects, and interleaving between a pending reply and further input. The code has no guard against a stale reply, and the model adds none.
- Text.SplitWhitespace: the contract does not state which pieces `split(/\s+/)` yields, only that there is at least one and none contains whitespace. The page uses only the number of non-empty pieces, which `Text.WordCount` ties to the independent `WordStarts` count.
- Text.NonEmpty: the contract states the kept pieces as a multiset, not their order; the page uses only their number.
- The load effect reads `askedQuestionIds` from a stale closure. The model posts the current list, which is what the closure holds whenever loads complete before the next round starts, as in `Interview.RunSession`.
- `handleRestart` and the back button only navigate (`router.push("/")`) and are left out. So are `app/page.jsx` and `app/layout.jsx` (landing page and layout markup), the header's `Math.min` counter, all styling, and `console.error` logging.
- Strings are sequences of Unicode scalar values, so a lone UTF-16 surrogate cannot be represented.
