# Dog-training assistant: verified model of the core

This project models, in Dafny, the decision logic of a dog-training mobile
app and proves properties about it. The app has a chat assistant backed by a
language model, training plans stored in a hosted database, and a sign-up
flow. The model covers:

- **The chat service.** A question is classified as basic, training or complex by
  regular expressions. Recent chat history is trimmed to fit the question type.
  The guards come first: no user gives the sign-in prompt, and no dog gives the
  add-your-dog prompt. The fast path answers age, breed and name questions
  without calling the model. The model and token budget follow the question
  type. A thrown error always becomes one of two fallback texts. The training
  level, current focus, performance status and recent achievements helpers are
  modelled too (`chat_context.dfy`, `chat_response.dfy`, `training_analytics.dfy`).
- **The data service.**
  - Saving a plan normalises and validates its steps, then fills in defaults for
    the stored procedure's arguments (`plan_save.dfy`).
  - The training data handed to the assistant enriches each plan with its
    progress, average rating and session count (`plan_enrichment.dfy`).
  - Saving a session parses string ids the way `parseInt(s, 10)` does
    (`session_save.dfy`).
- **The alert store.** The store is a class with the four fields that `showAlert`
  and `hideAlert` overwrite (`alert.dfy`).
- **The sign-up handler.** The form is a class. The handler is split at its
  `await` point: the checks run first, then the outcome of the account creation,
  which is an input (`sign_up.dfy`).
- **The root layout's redirect rule** (`layout.dfy`).

Shared pieces: `wrappers.dfy` holds Option, Result and thrown errors.
`records.dfy` holds the database rows. `text.dfy` holds ASCII case folding,
substring search and decimal digits.

Regular expressions are not interpreted. Each one is a `Pattern`, and what it
matches is a `Matcher` parameter. The properties therefore hold for any
engine. The ghost predicate `ChatContext.Faithful` states what a correct engine
does with these patterns: a listed word anywhere, in any case, makes its pattern
match. The patterns that are plain word alternations match only through their
words. Each fast-path question also matches the basic pattern it refines.

## Model

| member | source | states |
|---|---|---|
| ChatContext.LiteralMatcherIsFaithful | services/openai.ts:54-66 | an engine that recognises exactly the listed words meets the faithfulness conditions, so they are satisfiable |
| ChatContext.AnyMatches | services/openai.ts:68-73 | `patterns.some(p => p.test(text))` holds iff some pattern in the list matches |
| ChatContext.ClassifyQuery | services/openai.ts:52-75 | basic iff a basic pattern matches; training iff no basic pattern but a training pattern matches; complex iff neither |
| ChatContext.BasicWordWins | services/openai.ts:54-70 | a message containing "age", "sit", "stay" or "come" in any case is basic, whatever else it contains |
| ChatContext.TrainingIffTrainingWord | services/openai.ts:61-73 | under a faithful engine a message is training iff no basic pattern matches and it contains one of train, exercise, practice, behavior, behaviour, progress, improvement |
| ChatContext.TrainToStayIsBasic | services/openai.ts:54-70 | "How do I train my dog to stay?" is basic, not training: the basic check runs first |
| ChatContext.LastN | services/openai.ts:85-100 | `slice(-n)` keeps the last min(n, length) elements, in order |
| ChatContext.TrainingTurns | services/openai.ts:91-92 | the filter never lengthens the history |
| ChatContext.TrainingTurnsMembers | services/openai.ts:91-92 | a turn is kept iff it is in the history and its own message classifies as training |
| ChatContext.TrainingTurnsAppend | services/openai.ts:91-92 | filtering distributes over concatenation, so order is kept |
| ChatContext.SelectTurns | services/openai.ts:82-104 | at most 1, 3 or 5 turns for basic, training or complex; all come from the history; basic and complex keep exactly the most recent min(1, n) or min(5, n) turns; training keeps exactly the last min(3, k) of the k turns whose own message classifies as training, in order |
| ChatContext.TrainingSelectionIgnoresOlder | services/openai.ts:91-93 | once the recent part holds three training turns, older history has no influence |
| ChatContext.NonTrainingTurnIgnored | services/openai.ts:91-93 | appending a non-training turn leaves a training query's context unchanged |
| ChatContext.Expand | services/openai.ts:85-88 | `flatMap` to a user and an assistant message doubles the length |
| ChatContext.ExpandAt | services/openai.ts:85-103 | position 2k is the user message and 2k+1 the stored reply of turn k |
| ChatContext.OptimizedContext | services/openai.ts:78-105 | the context has exactly two messages per selected turn, at most 2, 6 or 10 in all, in turn order |
| ChatResponse.FastReply | services/openai.ts:122-140 | the age question wins over breed, breed over name; the breed answer depends on whether the breed is truthy; no answer iff none of the three questions matches |
| ChatResponse.FastPathQuestionsAreBasic | services/openai.ts:125-127 | any question the fast path answers would also be classified basic |
| ChatResponse.PlansOf | services/openai.ts:160 | the enriched plans, read back as plans, element by element |
| ChatResponse.InProgressPlans | services/openai.ts:162-163 | the kept plans come from the input and are in progress |
| ChatResponse.InProgressPlansMembers | services/openai.ts:162-163 | a plan is kept iff it is in the input and in progress |
| ChatResponse.InProgressPlansAppend | services/openai.ts:162-163 | the filter distributes over concatenation, so input order is kept |
| ChatResponse.ActivePlans | services/openai.ts:162-169 | exactly the last min(2, k) of the k in-progress plans, in order, each as its title, progress and `analyzePerformance` result |
| ChatResponse.ActiveEntries | services/openai.ts:165-169 | one entry per plan, in order: its title, progress and performance |
| ChatResponse.ActivePlansAreInProgress | services/openai.ts:162-169 | every entry describes an in-progress plan of the input |
| ChatResponse.Summarize | services/openai.ts:156-161 | a dog's summary carries its name, breed, age in years and `determineTrainingLevel` of the plans |
| ChatResponse.Summaries | services/openai.ts:156-161 | one summary per dog, in order |
| ChatResponse.Analyze | services/openai.ts:155-170 | every dog in order with its name, breed, age in years and training level over the plans; the active plans are `ActivePlans` of the plans, at most two |
| ChatResponse.SystemPromptFor | services/openai.ts:149-185 | the base prompt iff the query is basic; the status analysis iff complex; for training the first dog's name, breed or "Unknown breed" when it is empty, age and training level |
| ChatResponse.Prepare | services/openai.ts:113-199 | a missing or empty user id gives the sign-in prompt before any fetch; a failed fetch is thrown; no dogs gives the add-your-dog prompt; then the fast path; any other message reaches the model, with gpt-4-1106-preview and 500 or 300 tokens for complex or training, gpt-3.5-turbo and 150 for basic, temperature 0.7, the system prompt for its query type and the first dog, and the optimised context followed by the question |
| ChatResponse.FallbackText | services/openai.ts:207-216 | the "simpler way" text iff the error is an Error whose message contains "maximum context length"; the retry text otherwise |
| ChatResponse.EmptyReplyGivesRetryText | services/openai.ts:201-215 | an empty model reply ends in the retry text |
| ChatResponse.GenerateChatResponse | services/openai.ts:107-217 | the two guard prompts; a failed fetch becomes a fallback text rather than a thrown error |
| ChatResponse.ModelOutcomeMapping | services/openai.ts:194-216 | once the model is asked, a failure becomes the simpler-way text iff it is a context-length Error and the retry text otherwise; an empty reply gives the retry text; a non-empty reply is returned unchanged |
| ChatResponse.FastPathIgnoresModel | services/openai.ts:122-140 | a fast-path answer is the same whatever the history and whatever the model would have said |
| ChatResponse.HowOldIsRex | services/openai.ts:130-132 | a concrete case: "How old is my dog?" about Rex, aged 3, gives "Rex is 3 years old." |
| TrainingAnalytics.CompletedPlans | services/openai.ts:221 | a plan is kept iff it is in the input and completed |
| TrainingAnalytics.DetermineTrainingLevel | services/openai.ts:220-232 | beginner when nothing is completed; advanced iff some completed plan is advanced; intermediate iff some completed plan is intermediate and none is advanced |
| TrainingAnalytics.LevelIgnoresDog | services/openai.ts:220-232 | the level does not depend on the dog argument, only on the plans |
| TrainingAnalytics.UnfinishedPlanIgnored | services/openai.ts:221 | adding a plan that is not completed leaves the level unchanged |
| TrainingAnalytics.CompletedAdvancedWins | services/openai.ts:223-228 | adding a completed advanced plan makes the level advanced |
| TrainingAnalytics.FirstIncomplete | services/openai.ts:235 | `find(step => !step.completed)`: every earlier step is completed and the found one is not |
| TrainingAnalytics.GetCurrentFocus | services/openai.ts:234-243 | null iff the plan has no steps or all are completed; otherwise the title, description and day of the first incomplete step |
| TrainingAnalytics.GetPerformanceStatus | services/openai.ts:262-267 | just started iff the rating is null or 0; excellent iff at least 4; good iff in [3, 4); needs support iff nonzero and below 3 |
| TrainingAnalytics.StatusMonotone | services/openai.ts:263-266 | a higher positive rating never gives a lower status |
| TrainingAnalytics.AnalyzePerformance | services/openai.ts:245-260 | progress and rating are passed through; consistency is regular iff there is at least one session; the status is `getPerformanceStatus` of the average rating, just started iff it is null or 0 |
| TrainingAnalytics.HighlyRated | services/openai.ts:271 | the kept sessions come from the input and are rated 4 or more |
| TrainingAnalytics.HighlyRatedMembers | services/openai.ts:271 | a session is kept iff it is in the input and rated 4 or more |
| TrainingAnalytics.HighlyRatedAppend | services/openai.ts:271 | the filter distributes over concatenation, so order is kept |
| TrainingAnalytics.GetRecentAchievements | services/openai.ts:269-277 | at most three achievements, exactly the first min(3, n) highly rated sessions, in order |
| TrainingAnalytics.LaterSessionsIgnored | services/openai.ts:276 | sessions after three highly rated ones have no influence |
| PlanEnrichment.CompletedCount | services/database.ts:645 | the completed-step count is at most the number of steps |
| PlanEnrichment.CompletedCountIsTotal | services/database.ts:645-646 | the count equals the number of steps iff every step is completed |
| PlanEnrichment.Progress | services/database.ts:644-647 | progress lies in [0, 100] and is 0 for a plan without steps |
| PlanEnrichment.ProgressFullIffAllCompleted | services/database.ts:645-647 | for a plan with steps, progress is 100 iff every step is completed |
| PlanEnrichment.SessionsOfMembers | services/database.ts:651 | a session summary is collected iff it belongs to one of the plan's steps |
| PlanEnrichment.TruthyRatings | services/database.ts:652-653 | `filter(Boolean)` keeps only nonzero, non-null ratings and never lengthens the list |
| PlanEnrichment.TruthyRatingsMembers | services/database.ts:650-653 | a value is kept iff some session carries it as a nonzero rating |
| PlanEnrichment.SumBounds | services/database.ts:655 | the sum of n values in [lo, hi] lies in [n*lo, n*hi] |
| PlanEnrichment.AverageRating | services/database.ts:654-656 | null iff there are no ratings; otherwise the value times the count is the sum, i.e. the mean |
| PlanEnrichment.AverageRatingWithinScale | services/database.ts:654-656 | the average of ratings in [lo, hi] lies in [lo, hi] |
| PlanEnrichment.AllCountedIffAllRated | services/database.ts:650-662 | the kept ratings are as many as the sessions iff every session has a nonzero rating |
| PlanEnrichment.EnhancePlan | services/database.ts:643-663 | the plan is kept as it is; progress is `Progress` of its steps, so in [0, 100], 0 without steps and 100 iff all are completed; the count is the number of truthy ratings, equal to the number of sessions iff every session has a nonzero rating; the average is their mean, null iff the count is 0 |
| PlanEnrichment.EnhancePlans | services/database.ts:643 | one enriched plan per plan, in order |
| PlanEnrichment.AssembleTrainingData | services/database.ts:582-672 | the dogs error is thrown first, then the plans, sessions and chat errors in that order; success iff all four reads succeed; the plans are `EnhancePlans` of the fetched plans, and the dogs, sessions and chat history are passed through |
| PlanSave.Coalesce | services/database.ts:212-213 | `a ?? b` is a when a is a number, otherwise b, including when a is null |
| PlanSave.FormatStep | services/database.ts:209-214 | the title and description are copied; the camelCase day and duration win over the snake_case ones when they are numbers |
| PlanSave.NullDayPassesGuard | services/database.ts:201-212 | a step whose day number is null, not undefined, passes the guard and is saved with an undefined day |
| PlanSave.NormalizeSteps | services/database.ts:197-215 | fails with "Missing required step data" iff some step lacks a title, description, day or duration; otherwise one formatted step per input step, in order |
| PlanSave.RpcArgsFor | services/database.ts:220-233 | the title defaults to "Training Plan", the description and behaviour to "", the status to not started; the other fields and the steps are passed through |
| PlanSave.SaveTrainingPlan | services/database.ts:195-262 | an incomplete step fails with the step error; a saved plan carries its dog's name |
| PlanSave.SaveCallsProcedure | services/database.ts:220-258 | with complete steps the procedure receives the defaulted arguments and the normalised steps; its error is rethrown; a null answer fails with "No data returned from create_training_plan"; a row is returned with its dog name |
| PlanSave.IncompleteStepNeverReachesProcedure | services/database.ts:197-207 | with an incomplete step the outcome is the step error whatever the procedure would do |
| SessionSave.SkipSpaces | services/database.ts:698-701 | the result is the suffix left after dropping the leading whitespace: every dropped character is whitespace and the result does not start with whitespace |
| SessionSave.LeadingDigits | services/database.ts:698-701 | the longest prefix of decimal digits |
| SessionSave.ParseInt | services/database.ts:698-701 | `parseInt(s, 10)` never yields a string |
| SessionSave.ParseIntReadsDecimal | services/database.ts:697-702 | parseInt reads back the decimal text of every integer, negative ones included, also when followed by text that does not start with a digit |
| SessionSave.NoDigitsIsNaN | services/database.ts:697-702 | text without any digit parses to NaN |
| SessionSave.SanitizeId | services/database.ts:697-702 | a string id is replaced by its parse, any other value is kept |
| SessionSave.SanitizeSession | services/database.ts:695-703 | only the two ids change, and neither is a string afterwards |
| SessionSave.SanitizeIdempotent | services/database.ts:695-703 | sanitising an already sanitised session changes nothing |
| SessionSave.SanitizeDecimalIds | services/database.ts:695-703 | ids given as decimal text are saved as those integers |
| Alert.ShowReplaces | utils/alert.ts:21-22 | showing an alert leaves no trace of the previous one (no queue) and stores exactly the given title, message and callback, visible |
| Alert.HideKeepsContent | utils/alert.ts:23 | hiding clears only `visible`; the title, message and callback stay |
| Alert.HideIdempotent | utils/alert.ts:23 | hiding twice is hiding once, and hiding a hidden alert changes nothing |
| Alert.ShowThenHide | utils/alert.ts:21-23 | show then hide leaves the shown content, invisible |
| Alert.AlertStore.constructor | utils/alert.ts:16-20 | the store starts invisible with an empty title, message and callback |
| Alert.AlertStore.ShowAlert | utils/alert.ts:21-22 | the new state is `Shown` of the old one, with exactly the given fields and `visible` true |
| Alert.AlertStore.HideAlert | utils/alert.ts:23 | the new state is `Hidden` of the old one, and the other three fields are unchanged |
| SignUp.Validate | app/auth/sign-up.tsx:31-56 | the checks in order: not loaded, then email mismatch, then password mismatch, then a password shorter than 8 UTF-16 code units; accepted iff loaded, both pairs match and the password has 8 or more code units |
| SignUp.FourEmojiPasswordAccepted | app/auth/sign-up.tsx:51 | four emoji are eight code units, so such a password is accepted |
| SignUp.BmpPasswordLength | app/auth/sign-up.tsx:51 | for Basic Multilingual Plane text the length check counts characters |
| Text.Utf16Length | app/auth/sign-up.tsx:51 | `password.length` counts UTF-16 code units: between the number of characters and twice that |
| SignUp.EmailCheckComesFirst | app/auth/sign-up.tsx:35-50 | an email mismatch is reported whatever the passwords are |
| SignUp.LengthCheckNeedsMatch | app/auth/sign-up.tsx:43-56 | a password mismatch is reported before the length is looked at |
| SignUp.FailureText | app/auth/sign-up.tsx:71 | the first error's message when it is non-empty, otherwise "An error occurred"; never empty |
| SignUp.OnlyFirstErrorShown | app/auth/sign-up.tsx:71 | errors after the first have no influence |
| SignUp.SignUpScreen.constructor | app/auth/sign-up.tsx:21-28 | the form starts empty, not pending and not loading |
| SignUp.SignUpScreen.BeginSignUp | app/auth/sign-up.tsx:30-58 | not loaded changes nothing; an email mismatch, then a password mismatch, shows its alert and changes nothing else; a short password sets the password error only; otherwise the error is cleared and `loading` is raised; it proceeds iff the checks accept |
| SignUp.SignUpScreen.FinishSignUp | app/auth/sign-up.tsx:60-76 | success sets pending verification; a failure with an error list shows the first message; a failure without one throws before any alert; `loading` ends false in every case |
| SignUp.SignUpScreen.OnSignUpPress | app/auth/sign-up.tsx:30-76 | the attempt is made iff the checks accept; not loaded changes nothing; an email or password mismatch shows its alert and changes nothing else; a short password sets the password error only; after an attempt `loading` is false and the password error empty; success sets pending verification; a failure with an error list alerts `FailureText`, one without throws with no alert |
| Layout.RedirectTarget | app/_layout.tsx:39-49 | no redirect iff not loaded, or signed in and already in the "(authenticated)" group; "/" iff loaded and signed out; "/(authenticated)/(tabs)" iff loaded, signed in and outside the group; at most one target |
| Layout.SignedOutIgnoresSegments | app/_layout.tsx:46-47 | a signed-out user is sent to "/" from any route |
| Layout.OnlyFirstSegmentMatters | app/_layout.tsx:42 | only the first route segment affects the decision |
| Layout.RedirectSettles | app/_layout.tsx:42-48 | on the route a redirect chose, the rule sends the user nowhere new; a signed-in user on the tabs route is not redirected |
| Layout.Render | app/_layout.tsx:51-65 | an empty placeholder iff not loaded; otherwise the stack, which includes the "(authenticated)" group |
| Layout.NothingBeforeLoad | app/_layout.tsx:40-57 | before loading there is no redirect and only the placeholder |

## Left out

- Network and database I/O. The database reads, the stored procedure and the model call are inputs or function parameters. Logging (`console.*`) and the `debugTrainingPlan` call after saving a plan are not modelled.
- Regular-expression matching is not interpreted. The `Matcher` parameter stands for it, and `Faithful` states only the facts the proofs need. Case folding is ASCII only.
- ChatResponse.Prepare: the system prompt is kept as structured data (the base prompt, the analysis, or the dog line). The prompt text and the `JSON.stringify` layout of the analysis are not modelled.
- ChatResponse.GenerateChatResponse: its own contract states only the guards and the fetch failure. The fast path and the model outcomes are stated by `FastPathIgnoresModel`, `HowOldIsRex` and `ModelOutcomeMapping`.
- Any error thrown inside the chat service is modelled as an input failure with an `isError` flag and a message. The service never rethrows.
- `dog.age` and `dog.age_years` are read by the chat service, but the Dog row type declares no such columns. Both are optional numbers, and a missing age renders as "undefined" in the fast-path answer.
- Progress and average rating use exact rationals, not IEEE doubles.
- Ratings are whole numbers. A null rating is modelled as absent, and `filter(Boolean)` drops it together with 0.
- The three reads in `getTrainingDataForAI` run in parallel. The model checks their errors in the source's order, which is the order a caller observes.
- A null `plans.data` (which makes `plans` undefined) is not modelled. The plans payload is always a list.
- SessionSave.ParseInt: numbers beyond 2^53 lose precision in JavaScript and are exact here. Only the common JavaScript whitespace characters are skipped, not every Unicode space separator.
- The insert of the sanitised session and its result handling in `saveTrainingSession` are not modelled; only the id sanitisation is.
- SignUp.SignUpScreen.FinishSignUp: the two account-creation calls are one input outcome. The email verification screen (`onPressVerify`), the code field and the navigation are not modelled.
- Editing the form fields is plain assignment to the class's public fields; the text-input bindings are not modelled.
- The layout effect's re-run on `isSignedIn` changes, the router itself, and the token cache are not modelled.
