# AI interview and resume coach — a Dafny model of its core logic

The application runs mock job interviews and analyses resumes with a
large-language-model completion service. Under the UI and the service calls sits a
small amount of sequential logic, and this project models it and proves properties
of it:

- **Question-source policy** (`Selection`, `NextQuestionRoute`). The next interview
  question either comes from the resume digest (a random eligible category and item)
  or follows up on the previous answer. The policy exists twice: in `getNextQuestion`
  and inline in `POST /api/next-question`. The route also merges an answer
  evaluation into its reply.
- **Prompt builders** (`Prompts`). These are the texts sent to the completion
  service: the numbered transcripts, the optional job section and the follow-up
  placeholders.
- **Interview panel** (`InterviewPanel`). The page is a state machine: the start
  guard, the minute countdown, answer submission with its running counters, ending,
  resetting, and the tiers of the average and last scores.
- **Report** (`SummaryRoute`, `FeedbackCard`). `POST /api/interview/summary`
  validates the request and assembles the final report. The feedback card shows
  that report with defaults, a rounded average and colour tiers.
- **JSON recovery from free text** (`FeedbackParser`, `ResumeAnalyzer`).
  `parseLLMResponse` and `analyzeResume` both cut the text from the first `{` to the
  last `}` out of a completion.
- **Usage counters and trial gates** (`Usage`). These cover the dashboard statistics
  and their PATCH increment, the resume-analysis trial gate, the interview plan
  check and the interview counter bump.

Shared modules:

- `Wrappers` holds `Option` and `Result`.
- `Text` holds the JavaScript string primitives used: `trim`, `join`, `indexOf`,
  `lastIndexOf`, `substring`, `String(n)` and `parseInt`.
- `Json` holds JSON values with ordered object fields, truthiness, `||`, `?.`,
  spread and `Object.assign`.
- `Tiers` holds the "≥ 7 green, ≥ 4 amber, otherwise red" classification.

What the model takes as parameters instead of computing:

- **Completion service.** It is a parameter `llm: Prompt -> Reply`. A reply is
  either a failed call or the completion's content, which may be missing.
- **`JSON.parse`.** It is a parameter `parse: string -> Option<Value>`.
- **Random draws.** The three `Math.random()` outcomes of the question policy are a
  value `Draws(coin, category, item)`. Each index is taken modulo the list's length.
  This reaches exactly the positions that `Math.floor(Math.random() * n)` reaches,
  namely every index below the length (`Selection.EveryItemReachable`). A
  caller-supplied index below the length is therefore the special case where the
  draw already is the index.
- **Database.** The `User` table is a finite map from user id to row. Failures of
  individual database calls are the flags of `Usage.Faults`. The summary route's
  store insert is a parameter, as are the clock and `JSON.stringify`.
- **Sign-in.** The signed-in user is an optional user id. The routes refuse it with
  `!userId`, so an empty id is refused like a missing one.

Four behaviours of the code that are easy to miss, and which the model follows:

- When the summary route fails, it answers 500 with an error body and stores no
  report. No placeholder report is produced (`SummaryRoute.Summarize`).
- The interview page records a reply whatever the stage is when the reply
  arrives, including after the interview has ended (`InterviewPanel.Receive`, and
  the finding below).
- The next-question route has no `try`. A failed completion or an unparseable
  reply escapes the handler instead of producing an empty digest
  (`NextQuestionRoute.NextQuestion` answers `Unhandled`).
- The resume digest's experience key is `experience`, both in the prompts and in
  the route. No rule of the model depends on key names.

## Model

| member | source | states |
|---|---|---|
| Text.TrimEmptyIffBlank | src/app/interviewpanel/page.tsx:158 | `s.trim()` is empty exactly when every character of `s` is JavaScript white space, which is what the blank-answer guard tests |
| Text.IndexOf | src/lib/groq.ts:103 | `indexOf(c)` is -1 exactly when `c` is absent; otherwise it is a position holding `c`, and no earlier position holds `c` |
| Text.LastIndexOf | src/lib/groq.ts:104 | `lastIndexOf(c)` is -1 exactly when `c` is absent; otherwise it is a position holding `c`, and no later position holds `c` |
| Text.Substring | src/lib/groq.ts:105 | for bounds inside the string, `substring(a, b)` is the slice between them, with the bounds swapped when the start exceeds the end |
| Text.ParseIntOfIntToString | src/app/interviewpanel/page.tsx:183 | `parseInt(String(n))` gives back `n` for every integer, negative ones included |
| Json.Or | src/app/libs/parsefeedback.ts:8-10 | `x \|\| d` keeps a truthy `x` and otherwise yields `d`, so a truthy default makes the result truthy |
| Json.SpreadObject | src/app/api/next-question/route.ts:133-135 | spreading an object keeps its key set and the value every key reads as |
| Json.AssignFacts | src/app/api/next-question/route.ts:130 | after `Object.assign(target, src)` a key of `src` reads as in `src`, any other key reads as in `target`, and the key set is the union |
| Json.ParseContent | src/app/api/next-question/route.ts:105-106 | `JSON.parse(content \|\| '{}')`: missing or empty content is the empty object; otherwise the parser's result, and its failure throws |
| Prompts.OrText | src/lib/prompts.ts:43-44 | an empty string is replaced by the placeholder and any other string is kept |
| Prompts.SummaryTranscriptSnoc | src/lib/prompts.ts:86-88 | the empty history gives the empty transcript, and one more entry appends a blank line and `QUESTION k: q` / `ANSWER k: a` numbered with its 1-based position |
| Prompts.BatchTranscriptSnoc | src/lib/prompts.ts:162-164 | the empty history gives the empty transcript, and one more entry appends the `---` separator and its question/response block numbered with its 1-based position |
| Prompts.JobSectionIffTruthy | src/lib/prompts.ts:96 | the final-summary prompt contains the job-requirements section with the job description when the description is truthy, and contains no such section otherwise |
| Prompts.ResumeQuestionQuotesItem | src/lib/prompts.ts:25 | the resume-question prompt contains `this <category>: "<item>"`, with the item verbatim inside the quotes |
| Prompts.FollowUpPlaceholders | src/lib/prompts.ts:43-44 | the follow-up prompt shows the previous question or "Not asked yet", and the answer or "No response yet" |
| Prompts.Render | src/lib/prompts.ts:1-253 | every prompt builder produces a non-empty text |
| Prompts.CompleteJson | src/lib/interviewUtils.ts:54-61 | a failed completion call throws; otherwise the result is the parse of the content, `'{}'` standing in for missing content |
| Selection.Eligible | src/lib/interviewUtils.ts:42 | the eligible categories are digest entries whose value is a non-empty array, each with its items; every such entry is listed; there are none exactly when no entry has items |
| Selection.EligibleInEntryOrder | src/lib/interviewUtils.ts:42 | `filter` keeps entry order: there are exactly as many categories as entries with items, and the entry at position `i` is the category whose index is the number of entries with items before `i` |
| Selection.SelectSource | src/lib/interviewUtils.ts:38-52 | the resume is used exactly when `!previousQuestion \|\| historyLength >= 2 \|\| coin` holds and some entry has items; the chosen category is an eligible entry and the item is one of its elements; a previous question, a short history and a failed coin always follow up; an empty digest always follows up |
| Selection.EveryItemReachable | src/lib/interviewUtils.ts:44-45 | when the policy asks from the resume, every item of every eligible category is chosen by some outcome of the draws |
| Selection.ChoosePrompt | src/lib/interviewUtils.ts:40-52 | exactly one builder makes the prompt: the resume question with the chosen category and item, or the follow-up with `previousQuestion \|\| ''` and `userAnswer \|\| ''`; it is never the empty initial string |
| NextQuestionRoute.HistoryLength | src/app/api/next-question/route.ts:7-45 | an omitted history defaults to `[]` of length 0, a `null` history throws on `.length`, and an array gives its length |
| NextQuestionRoute.CollectIsEligible | src/app/api/next-question/route.ts:51-52 | the route's `Object.entries(...).filter(...)` collects the same categories, in the same order, as the shared policy |
| NextQuestionRoute.RouteSourceAgrees | src/app/api/next-question/route.ts:43-96 | for the same previous question, history, digest and draws, the route's selection equals `getNextQuestion`'s |
| NextQuestionRoute.MissingHistoryIsEmpty | src/app/api/next-question/route.ts:43-46 | an omitted history behaves as the empty one, so with a previous question and a failed coin the route always follows up |
| NextQuestionRoute.NextQuestion | src/app/api/next-question/route.ts:6-136 | the answer is 400 exactly when the resume text, role or level is missing or empty, and then no completion is requested; otherwise the answer is 200 or an escaped exception |
| NextQuestionRoute.ResponseBodyFields | src/app/api/next-question/route.ts:133-136 | the reply body has every field of the output plus `resumeHighlights` equal to the digest, and `resumeHighlights` wins |
| NextQuestionRoute.EvaluationOnlyOnConversation | src/app/api/next-question/route.ts:109-131 | the evaluation call can change the reply only when the output says `source: 'conversation'` and an answer was given |
| NextQuestionRoute.EvaluationOverwrites | src/app/api/next-question/route.ts:130 | with an evaluation, each evaluation field overwrites the same-named output field, and `resumeHighlights` still wins |
| NextQuestionRoute.ReplyPassesThrough | src/app/api/next-question/route.ts:133-136 | without an evaluation, the reply is exactly the output's fields plus the digest |
| Tiers.Classify | src/Components/Feedback.tsx:92-96 | a score is green exactly when at least 7, amber exactly when in `[4, 7)`, and red otherwise, `NaN` included |
| Tiers.ClassifyMonotone | src/Components/Feedback.tsx:92-96 | a higher score never gets a worse colour: green stays green and amber never drops to red |
| Tiers.ClassifyTenthsOfWhole | src/app/interviewpanel/page.tsx:339-341 | the tenths-based thresholds agree with the whole-number ones on whole scores |
| InterviewPanel.Start | src/app/interviewpanel/page.tsx:125-136 | an empty resume text, role or level leaves the panel unchanged; otherwise the interview starts with the full duration, the fixed opening question and both counters at zero, and the history is kept as it was |
| InterviewPanel.End | src/app/interviewpanel/page.tsx:138-145 | ending completes the interview and stops listening, from any stage |
| InterviewPanel.EndIdempotent | src/app/interviewpanel/page.tsx:138-145 | ending twice equals ending once, and ending changes nothing except the stage and the microphone |
| InterviewPanel.Tick | src/app/interviewpanel/page.tsx:67-78 | no countdown outside an interview or with no time left; more than one minute left decrements by one; the last minute ends the interview at 0; time never becomes negative |
| InterviewPanel.Countdown | src/app/interviewpanel/page.tsx:67-83 | from an interview with `t` minutes left, `k < t` firings leave `t - k` minutes and the `t`-th firing ends it |
| InterviewPanel.StoppedClock | src/app/interviewpanel/page.tsx:68 | once the interview is not running, no number of firings changes the panel |
| InterviewPanel.Submit | src/app/interviewpanel/page.tsx:157-168 | a blank answer sends nothing; any other answer sends the current question and the answer |
| InterviewPanel.RequestOf | src/app/interviewpanel/page.tsx:163-173 | the posted body carries the answer and the setup fields but never a conversation history |
| InterviewPanel.ParsedNumber | src/app/interviewpanel/page.tsx:183 | a numeric score parses back to itself |
| InterviewPanel.AddScore | src/app/interviewpanel/page.tsx:193 | the running total is the sum when both sides are numbers and `NaN` when either is `NaN` |
| InterviewPanel.Receive | src/app/interviewpanel/page.tsx:175-194 | a failed request, a non-OK response or a `null` body changes nothing; otherwise exactly one turn with the pending question and answer is appended, the reply's follow-up question becomes current, the answer is cleared, the answered count rises by one and the parsed score is added to the total; stage and time are untouched, whatever the stage |
| InterviewPanel.ReceiveInInterview | src/app/interviewpanel/page.tsx:182-194 | a reply arriving outside an interview is dropped; inside one it is handled as the page handles it |
| InterviewPanel.Reset | src/app/interviewpanel/page.tsx:373-378 | "Start New Interview" returns to setup with an empty history and leaves the counters as they are |
| InterviewPanel.SumOfNaN | src/app/interviewpanel/page.tsx:193 | a running total is `NaN` exactly when some summand is `NaN` |
| InterviewPanel.SumScoresNaN | src/app/interviewpanel/page.tsx:183-193 | the total a history implies is `NaN` exactly when some recorded score does not parse |
| InterviewPanel.SumScoresSnoc | src/app/interviewpanel/page.tsx:188-193 | recording one more turn adds its parsed score to the total |
| InterviewPanel.InitialValid | src/app/interviewpanel/page.tsx:20-32 | the mounted state is consistent |
| InterviewPanel.StepPreservesValid | src/app/interviewpanel/page.tsx:157-195 | with replies dropped outside an interview, every offered event keeps the time non-negative, the setup history empty, and during and after an interview one history entry per answered question with the total equal to the sum of the parsed scores |
| InterviewPanel.GuardedReplyPreservesValid | src/app/interviewpanel/page.tsx:182-194 | a reply accepted during an interview keeps the history length equal to the answered count and the total equal to the history's sum |
| InterviewPanel.LateReplyBreaksHistory | src/app/interviewpanel/page.tsx:182-194 | a reply to an answer submitted before ending, arriving after the reset, leaves an entry in the setup history, and the next interview starts with one entry and zero answered questions |
| InterviewPanel.LateReplyChangesSummary | src/app/interviewpanel/page.tsx:182-194 | a reply delivered after the interview ended raises "Questions Answered" by one while the screen stays completed; the guarded handler leaves it unchanged |
| InterviewPanel.LateReplyRecoloursAverage | src/app/interviewpanel/page.tsx:331-341 | ending before the first reply shows 0 answered and a red average; the late reply, scored 10, makes it 1 answered and green |
| InterviewPanel.PanelNeverTriggersHistoryRule | src/app/interviewpanel/page.tsx:166-172 | because the panel never sends a history, a previous question and a failed coin always lead to a follow-up question |
| InterviewPanel.AverageTierThresholds | src/app/interviewpanel/page.tsx:338-341 | the average is green exactly when `total / answered >= 6.95` and amber exactly when it lies in `[3.95, 6.95)`, the values that display as 7.0 and 4.0 |
| InterviewPanel.ScoreTier | src/app/interviewpanel/page.tsx:481-487 | the last score is green exactly when it parses to at least 7, a score that does not parse is red, and a numeric score is classified as itself |
| SummaryRoute.ToQA | src/lib/prompts.ts:87 | an entry's question and answer are interpolated as `String(v)`, and a `null` entry throws |
| SummaryRoute.ToHistory | src/lib/prompts.ts:86-88 | the transcript turns follow the history entry by entry, and it fails exactly when some entry is `null` |
| SummaryRoute.AnalysesField | src/app/api/interview/summary/route.ts:55-56 | reading `analyses` throws exactly on a `null` batch reply; otherwise it gives a truthy value, `[]` when the field is missing or falsy and the field itself when it is truthy |
| SummaryRoute.MapTarget | src/app/api/interview/summary/route.ts:80 | `.map` succeeds exactly on an array and then runs over its elements |
| SummaryRoute.Analyses | src/app/api/interview/summary/route.ts:55-80 | a `null` batch reply throws, a missing or falsy `analyses` gives `[]`, and an array is taken as it is |
| SummaryRoute.StampFacts | src/app/api/interview/summary/route.ts:80-84 | the i-th stamped analysis reads `position` as i + 1, `ofTotal` as the history length, and every other key as the analysis the model gave |
| SummaryRoute.ReportHasShape | src/app/api/interview/summary/route.ts:78-91 | `fullAnalysis` holds one stamped copy per analysis, the i-th with `position` i + 1 and `ofTotal` the total, and metadata whose role, level and `totalQuestions` are the ones given |
| SummaryRoute.AssembleFacts | src/app/api/interview/summary/route.ts:78-91 | the report has one stamped analysis per analysis returned (not per history entry), the i-th stamped with `position` i + 1 and `ofTotal` the history length, and metadata with the request's role and level and `totalQuestions` equal to the history length |
| SummaryRoute.ErrorDetails | src/app/api/interview/summary/route.ts:119-124 | the failure body has exactly the keys `error` and `details` |
| SummaryRoute.Summarize | src/app/api/interview/summary/route.ts:14-38 | a missing or empty user id gives 401, and nothing else does; a blank resume text, role or level gives 400; a missing or empty history array gives 400; a 500 carries only an error body; no other status occurs |
| SummaryRoute.NullEntryFails | src/app/api/interview/summary/route.ts:117-125 | a history holding a `null` entry ends in a 500 and never in a report |
| SummaryRoute.SuccessCarriesReport | src/app/api/interview/summary/route.ts:111-115 | a 200 body carries exactly the serialized assembled report and the stored record's id |
| FeedbackCard.OverallEvaluation | src/Components/Feedback.tsx:47-54 | a missing overall evaluation becomes the default with score 0 and "No evaluation available"; a present one is used as it is |
| FeedbackCard.QuestionAnalyses | src/Components/Feedback.tsx:57 | missing analyses become `[]` |
| FeedbackCard.MetadataOf | src/Components/Feedback.tsx:58-63 | missing metadata becomes empty strings and `totalQuestions` 0 |
| FeedbackCard.ScoreSumBounds | src/Components/Feedback.tsx:68-70 | when every question score lies in `[lo, hi]`, the sum of `n` scores lies in `[n·lo, n·hi]` |
| FeedbackCard.AverageWithinScores | src/Components/Feedback.tsx:66-72 | the rounded average lies between the lowest and highest question scores |
| FeedbackCard.RoundedMeanWithin | src/Components/Feedback.tsx:67-71 | `Math.round(s / n)` stays within `[lo, hi]` when `s / n` does |
| FeedbackCard.AverageTierThresholds | src/Components/Feedback.tsx:112-116 | the average is green exactly when the exact mean is at least 6.5, and amber exactly when it lies in `[3.5, 6.5)` |
| FeedbackCard.VerdictTier | src/Components/Feedback.tsx:191-195 | the verdict is green exactly for `Hire`, amber exactly for `Borderline`, and red for everything else, `Strong Hire` and a missing verdict included |
| FeedbackCard.ShownOr | src/Components/Feedback.tsx:196-199 | a truthy verdict or rationale is shown as it is, and otherwise the placeholder is shown |
| FeedbackCard.Render | src/Components/Feedback.tsx:74-219 | no data shows only the empty card; otherwise it shows the overall score and its tier, the average and its tier exactly when there are analyses, the verdict with placeholders, and one tier per question |
| FeedbackCard.MissingEvaluationShowsDefaults | src/Components/Feedback.tsx:47-54 | a report without an overall evaluation shows score 0 in red, and a red "No recommendation" badge with "No rationale provided" |
| FeedbackParser.BraceSpan | src/app/libs/parsefeedback.ts:3 | a match exists exactly when a `}` comes after the first `{`, and the match is the inclusive slice between the first `{` and the last `}` |
| FeedbackParser.BraceSpanIsGreedyMatch | src/app/libs/parsefeedback.ts:3 | the match opens with `{` and closes with `}`, with no `{` before it and no `}` after it; there is no match only when no `}` follows any `{` |
| FeedbackParser.Fields | src/app/libs/parsefeedback.ts:7-11 | reading the fields fails exactly on a `null` document |
| FeedbackParser.ParseLLMResponse | src/app/libs/parsefeedback.ts:1-20 | no match, a parse failure or a `null` document give exactly the fallback triple; otherwise falsy fields become "0", "" and "Next question not found."; the follow-up question is never falsy |
| FeedbackParser.ScoreAndQuestionTruthy | src/app/libs/parsefeedback.ts:8-10 | the returned score and follow-up question are always truthy |
| ResumeAnalyzer.RolesOrDefault | src/lib/groq.ts:32 | `roles` defaults to `['General']` only when the argument is missing |
| ResumeAnalyzer.AnalyzeResume | src/lib/groq.ts:30-111 | a missing key throws before any request; with a key, a transport failure propagates and otherwise the extraction decides |
| ResumeAnalyzer.CandidateSpan | src/lib/groq.ts:103-105 | when a `{` precedes a later `}`, the text passed to the parser is the inclusive slice between the first `{` and the last `}`, starting with `{` and ending with `}` |
| ResumeAnalyzer.CandidateMatchesParser | src/lib/groq.ts:103-105 | whenever the feedback parser's pattern matches, the analyzer cuts out exactly the same text |
| ResumeAnalyzer.CandidateOutOfOrder | src/lib/groq.ts:105 | a missing `{` makes the start clamp to 0, and a `}` before the first `{` swaps the bounds |
| ResumeAnalyzer.Extract | src/lib/groq.ts:100-111 | missing content or a parse failure is always the one error "Invalid JSON response from LLM", never a partial result |
| Usage.StatsConsistent | src/app/api/user/stats/route.ts:27-37 | the sessions are the two counters with `NULL` as 0; the time is 15 minutes per resume and 30 per interview; the last activity is the creation date; an empty or missing status reads `active` |
| Usage.GetStats | src/app/api/user/stats/route.ts:9-23 | exactly a missing or empty user id gives 401, a failed or empty lookup gives 404, otherwise the row's statistics; the table is never changed |
| Usage.ReadWrite | src/app/api/user/stats/route.ts:82 | writing one counter changes that counter and nothing else in the row |
| Usage.Patch | src/app/api/user/stats/route.ts:51-95 | exactly a missing or empty user id gives 401; a type other than the strings `resume` and `interview` gives 400; success bumps exactly the named counter of the caller's row by one (`NULL` as 0) and reports the new value; every failure leaves the table unchanged |
| Usage.PatchThenStats | src/app/api/user/stats/route.ts:33-35 | a successful PATCH raises the session count by exactly one and the time by 15 or 30, and changes no other user's statistics |
| Usage.Analyze | src/app/api/analyze/route.ts:11-76 | exactly a missing or empty user id gives 401; an unreadable body gives 500; an unknown user gives 404; a trial user with exactly one analysis gets 403 before any analysis or write; a failed analysis gives 500 with the table unchanged; the only change to the table is a bump of the caller's resume counter, which a success makes unless the update fails; success returns the analyzer's result |
| Usage.InsertFailureKeepsBump | src/app/api/analyze/route.ts:42-63 | when storing the record fails, the answer is 500 but the resume counter stays bumped |
| Usage.TrialGateSkipsPastOne | src/app/api/analyze/route.ts:33 | a trial user whose counter went 0 → 1 → 2 (an analysis, then a PATCH) is accepted for another analysis |
| Usage.AnalyzeGated | src/app/api/analyze/route.ts:33 | with the gate `resumeUsed >= 1`, a trial user who has used any analysis gets 403, and the table changes only by the caller's bump |
| Usage.SpentTrialStaysSpent | src/app/api/analyze/route.ts:33-45 | with the corrected gate, no analysis and no PATCH makes a spent trial unspent, so every later analysis is refused |
| Usage.CheckPlan | src/app/api/interview/check-plan/route.ts:13-27 | a missing user id, a failed lookup or an unknown user gives 404; 403 exactly for a trial user with `interviewUsed >= 1` (`NULL` does not count); otherwise the stored plan and counter unchanged; the table is never written |
| Usage.PaidPlansNeverRefused | src/app/api/interview/check-plan/route.ts:23-27 | any plan other than trial passes the check, whatever its counter |
| Usage.BumpInterview | src/app/api/interview/route.ts:8-33 | a missing or empty `user-id` header gives 400; a failed or empty lookup and a failed update give 500 and change nothing; success raises only that row's interview counter by one (`NULL` as 0) |
| Usage.BumpAgreesWithPatch | src/app/api/interview/route.ts:24-27 | the interview bump leaves the same status and table as a PATCH of the interview counter |
| Usage.BumpSpendsInterviewTrial | src/app/api/interview/check-plan/route.ts:23 | a trial user at zero interviews passes the plan check, and after one bump is refused |

## Left out

- Completion calls, `JSON.parse`, `axios`, Supabase and Clerk are parameters or
  maps, as described above. Network, latency and concurrent requests are not
  modelled. In particular the PATCH's read-then-write increment can lose updates
  under concurrency.
- The route's inline prompt texts differ from `prompts.ts` only in indentation. The
  route is modelled with the same prompt values. The fixed instruction paragraphs of
  the resume-analysis, resume-question, follow-up and evaluation prompts are kept as
  constants. No property depends on their wording.
- Prompts.Render abbreviates the closing instructions of the final-summary and
  batch-analysis prompts (src/lib/prompts.ts:100-150 and 171-252). The JSON schema
  and the guideline lists are replaced by one short sentence each. Of the role and
  level interpolations in those closing paragraphs, one of each is kept, where the
  source repeats them at lines 184, 198, 199, 235, 250 and 251. Their wording carries
  no logic, and the properties proved about these prompts concern the opening, the
  transcript and the job-description section.
- Request fields that are not strings are left out. A `trim` or template
  interpolation on a number or object is not modelled. A non-string
  `followUpQuestion` is sent by the panel as an absent previous question.
- Floating point is left out. `toFixed(1)` is modelled as rounding a half away
  from zero on exact decimals. The binary representation of ties is not modelled.
  `parseInt` reads decimal digits only: hexadecimal prefixes and scores with
  fractional parts are not modelled.
- Speech input and output, the Clerk and Stripe webhooks, the pricing, dashboard,
  resume and landing pages, charts and the ATS score colours of the resume page are
  not modelled. They are UI, media or third-party glue.
- `src/lib/userStats.ts`, `src/lib/stripe-config.ts`, the model-listing test
  route and the PDF type declarations are not modelled. They are fetch wrappers,
  constants and declarations with no logic.
- React effects, refs, timer scheduling and re-render ordering are not modelled. A
  timer firing is one explicit transition, and a state update is applied as a
  whole-state transition.
- `analyzeResume` and `evaluateAnswer` of the interview utilities are single
  completion calls on fixed prompts. They are modelled only through their prompt
  values, `Prompts.ResumeAnalysis` and `Prompts.Evaluation`.
- SummaryRoute.Summarize does not model the store's own constraints. Whether
  inserting a second report for the same user id conflicts is decided by the
  `insert` parameter.
- Usage.Analyze does not model the analysis table's constraints either. Whether
  storing the record fails is the `insert` flag of `Faults`.
- An object-valued `conversationHistory` in the next-question route has no
  `length`. The model treats it like any non-array value, as length `undefined`.
  That makes `>= 2` false.
- A summary request body that is not JSON is outside `SummaryRoute.SummaryRequest`,
  which holds already-parsed fields. The route reads the body inside its `try`
  (src/app/api/interview/summary/route.ts:23-24), so such a body gets a 500 from
  the catch-all at lines 117-125.
- A next-question request body that is not JSON, or that is `null`, cannot be
  written as a `NextQuestionRoute.Request`. The route reads and destructures the
  body outside any `try` (src/app/api/next-question/route.ts:7), so such a body
  escapes the handler.
- FeedbackCard.AverageWithinScores: scores are taken to be the integers the card's
  interface declares. A string score (which the `reduce` sum at
  src/Components/Feedback.tsx:68-70 would concatenate) and a fractional score
  (which changes what `Math.round` rounds) are not modelled.
- The stats routes' outer `catch` blocks answer 500 for exceptions the modelled
  paths cannot raise, apart from an unreadable PATCH body, which is modelled.

## Findings

| source | as written | input that shows it | evidently intended | confidence | as-written member | corrected member |
|---|---|---|---|---|---|---|
| src/app/interviewpanel/page.tsx:182-194 | the reply handler records the turn and bumps the answered count whatever the stage is when the reply arrives | submit the first answer, then press "End Interview" before the reply arrives: the completed screen first shows 0 questions answered and a red average, and the reply, scored 10, turns it into 1 answered and a green average (`InterviewPanel.LateReplyRecoloursAverage`) | a reply arriving outside a running interview is dropped | medium, not executed | InterviewPanel.LateReplyBreaksHistory | InterviewPanel.StepPreservesValid |
| src/app/api/analyze/route.ts:33 | the resume trial gate refuses only when `resumeUsed === 1` | a trial user analyses once (counter 0 → 1), then sends `PATCH /api/user/stats` with type `resume` (counter 2): every later analysis passes the gate | a trial user who has used any analysis is refused, as the interview gate does with `>= 1` | medium, not executed | Usage.TrialGateSkipsPastOne | Usage.SpentTrialStaysSpent |
