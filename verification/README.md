# Echo front end — a Dafny model of its client-side logic

Echo is a pronunciation-practice web application. A learner picks a word,
sentence or text, records a clip of themselves reading it, sends the clip out
to be scored, and the application stores the evaluation as progress on that
resource. This project models the client side of that loop and proves its
properties:

- the recorder hook: the tolerance window, start/stop/pause/resume/clear, the
  one-second tick and the automatic stop at the upper bound, the advisory
  duration verdict, and the release of object URLs, microphone streams and
  timers;
- the two evaluation hooks: the parallel three-way join and the sequential
  record spread, with their `isEvaluating`/`isSaving`/`error` discipline;
- the practice page's attempt and save bookkeeping;
- the display helpers (capitalisation, word truncation, difficulty labels,
  the flat-to-nested evaluation conversion, score bands, ordinal days, the
  resource table's status, situation, description and duration columns);
- the in-memory progress table with its create-or-update;
- the resource service's join of resources with progress, with its 404 and
  error branches;
- the browsing logic shared by the two resource managers (filter, category
  and difficulty counts, pages of ten) and both managers, one driven by URL
  parameters and one by component state;
- URL building, header defaulting and response handling of the HTTP base
  service;
- session restore, login and logout;
- the generic data hook's loading/error wrapper and the resource loader;
- the waveform player's event flags and its `m:ss` time display.

Browser and network effects are inputs. A service call is an `Outcome`
(`Ok(value)` or `Throw(thrown)`). Media streams, timers and object URLs are
opaque numbers, and ghost sets track which of them are live. The intermediate
state a hook shows while an awaited call is pending is a ghost `pending`
snapshot. The calls a hook issues are a ghost `calls` sequence. Hooks and
components whose state changes step by step are classes. Pure helpers are
functions with lemmas about them.

Shared modules: `Wrappers` (Option, Outcome, error messages, JavaScript
truthiness of strings), `Text` (decimal numerals, `padStart`, ASCII case,
`trim`, `split`/`join`, `replace`, `parseInt`, a lexicographic order),
`Seqs` (`findIndex`/`find`) and `Model` (the records).

## Model

| member | source | states |
|---|---|---|
| Recorder.ToleranceWindow | src/hooks/evaluationApi/useAudioRecorder.ts:28-30 | for a target of at least 1 s and a non-negative tolerance, 1 ≤ minDuration ≤ duration ≤ maxDuration |
| Recorder.DefaultWindow | src/hooks/evaluationApi/useAudioRecorder.ts:22-30 | the defaults 10 s and 20% give the window [8, 12] |
| Recorder.DurationVerdict | src/hooks/evaluationApi/useAudioRecorder.ts:60-73 | no error exactly when min ≤ time ≤ max (the `isValidDuration` flag of lines 283-284); "too short" iff time < min; "too long" iff time > max and not too short |
| Recorder.AudioRecorder.constructor | src/hooks/evaluationApi/useAudioRecorder.ts:20-47 | idle state: not recording, time 0, no clip, no error, no refs, nothing live |
| Recorder.AudioRecorder.ProgressPercentage | src/hooks/evaluationApi/useAudioRecorder.ts:286 | never above 100; NaN (None) only for 0/0; equal to time/duration·100 while time ≤ duration, and exactly 100 past the target or for a zero target with time recorded |
| Recorder.AudioRecorder.FormattedTime | src/hooks/evaluationApi/useAudioRecorder.ts:246-249 | exactly two digits that read back as recordingTime mod 60 |
| Recorder.AudioRecorder.Tick | src/hooks/evaluationApi/useAudioRecorder.ts:171-176 | adds exactly one second; if that reaches maxDuration while recording, the recording stops as in Stop (the effect at lines 77-81), with the new clip's URL the only URL added; otherwise nothing else changes, live URLs included |
| Recorder.AudioRecorder.AutoStop | src/hooks/evaluationApi/useAudioRecorder.ts:77-81 | stops exactly when recording and time ≥ maxDuration; leaves the time and chunks alone |
| Recorder.AudioRecorder.Stop | src/hooks/evaluationApi/useAudioRecorder.ts:49-75 | a live recorder is finalised (clip built from the chunks, fresh URL, microphone released, as in onstop at lines 134-150); the timer is always cleared; the error becomes the duration verdict; a clip is never discarded |
| Recorder.AudioRecorder.OnStop | src/hooks/evaluationApi/useAudioRecorder.ts:134-150 | the clip is built from the collected chunks with the recorder's type, gets a fresh live URL, recording and pause end, the microphone stream is released; time, chunks, timer and error are kept |
| Recorder.AudioRecorder.ReleaseTimer | src/hooks/evaluationApi/useAudioRecorder.ts:54-57 | a running interval is cleared and forgotten; every other field is kept |
| Recorder.AudioRecorder.Start | src/hooks/evaluationApi/useAudioRecorder.ts:83-192 | returns true iff supported and access granted; unsupported sets "not supported" and changes nothing else; otherwise the old URL is revoked and time, clip and error reset; a failure records the message or "An unknown error occurred"; success starts recording with a new stream and timer |
| Recorder.AudioRecorder.ResetForStart | src/hooks/evaluationApi/useAudioRecorder.ts:93-105 | the old clip's URL is revoked and the state record is reset |
| Recorder.AudioRecorder.Begin | src/hooks/evaluationApi/useAudioRecorder.ts:116-176 | granted access: a fresh recorder over the stream, empty chunks, recording, no error, the interval live |
| Recorder.AudioRecorder.Pause | src/hooks/evaluationApi/useAudioRecorder.ts:194-208 | acts only while recording and not paused: paused and the timer released; otherwise a no-op; the time is kept |
| Recorder.AudioRecorder.Resume | src/hooks/evaluationApi/useAudioRecorder.ts:210-226 | acts only while recording and paused: unpaused with a new live timer; the time is not reset |
| Recorder.AudioRecorder.Clear | src/hooks/evaluationApi/useAudioRecorder.ts:228-240 | the URL is revoked; clip, URL, error and time reset; isRecording untouched |
| Recorder.AudioRecorder.ClearError | src/hooks/evaluationApi/useAudioRecorder.ts:242-244 | only the error is cleared; recording flags, time, clip, timer, stream, chunks, recorder object and the live timers, streams and URLs all stay as they were |
| Recorder.AudioRecorder.DataAvailable | src/hooks/evaluationApi/useAudioRecorder.ts:128-132 | a non-empty chunk is appended, an empty one ignored |
| Recorder.AudioRecorder.RecorderError | src/hooks/evaluationApi/useAudioRecorder.ts:152-160 | "Recording failed" and not recording; the interval is not cleared; time, clip, timer, stream, chunks, recorder object and live URLs unchanged |
| Recorder.AudioRecorder.Cleanup | src/hooks/evaluationApi/useAudioRecorder.ts:251-263 | timer, stream and URL released; the state record, the chunks and the recorder object are not reset |
| Recorder.AutoStopScenario | src/hooks/evaluationApi/useAudioRecorder.ts:77-81 | with the defaults, a recording that runs on stops itself at 12 s, keeps its clip and has no duration error |
| ParallelEvaluation.Join | src/hooks/evaluationHooks/useAudioEvaluation.ts:69-80 | the joined record carries exactly the scoring answer's scores, the feedback's tip lists and the classification |
| ParallelEvaluation.Failure | src/hooks/evaluationHooks/useAudioEvaluation.ts:48-67 | no failure iff all four calls succeed; an analysis failure is the one reported |
| ParallelEvaluation.AudioEvaluation.constructor | src/hooks/evaluationHooks/useAudioEvaluation.ts:24-32 | idle flags, no evaluation, no error |
| ParallelEvaluation.AudioEvaluation.EvaluateAudio | src/hooks/evaluationHooks/useAudioEvaluation.ts:41-100 | evaluating with no error while pending; the three calls issued only after the analysis succeeds; a result stored only when all succeed, else the message (or fallback) recorded and the prior evaluation kept; evaluating false on every exit |
| ParallelEvaluation.AudioEvaluation.SaveUserProgress | src/hooks/evaluationHooks/useAudioEvaluation.ts:105-149 | saving with no error while pending; returns true iff the save succeeded; failure records the message or "Failed to save user progress"; saving false afterwards |
| ParallelEvaluation.AudioEvaluation.ClearEvaluation | src/hooks/evaluationHooks/useAudioEvaluation.ts:151-160 | back to the initial state |
| SequentialEvaluation.Spread | src/hooks/evaluationApi/useAudioEvaluation.ts:61-64 | keys are the union; feedback fields win; other scoring fields kept |
| SequentialEvaluation.SpreadIdempotent | src/hooks/evaluationApi/useAudioEvaluation.ts:61-64 | spreading the same feedback again changes nothing |
| SequentialEvaluation.SpreadDisjoint | src/hooks/evaluationApi/useAudioEvaluation.ts:61-64 | with disjoint keys the spread loses no scoring field and its order does not matter |
| SequentialEvaluation.Failure | src/hooks/evaluationApi/useAudioEvaluation.ts:45-59 | no failure iff all three calls succeed; otherwise the first failing call's error |
| SequentialEvaluation.CallsIssued | src/hooks/evaluationApi/useAudioEvaluation.ts:45-59 | scoring is called iff the analysis succeeded, feedback iff both earlier calls did |
| SequentialEvaluation.AudioEvaluation.constructor | src/hooks/evaluationApi/useAudioEvaluation.ts:24-32 | idle flags, no evaluation, no error |
| SequentialEvaluation.AudioEvaluation.EvaluateAudio | src/hooks/evaluationApi/useAudioEvaluation.ts:38-84 | as the parallel hook, with calls in sequence and the spread as the stored result |
| SequentialEvaluation.AudioEvaluation.SaveUserProgress | src/hooks/evaluationApi/useAudioEvaluation.ts:89-133 | as the parallel hook's save |
| SequentialEvaluation.AudioEvaluation.ClearEvaluation | src/hooks/evaluationApi/useAudioEvaluation.ts:135-144 | back to the initial state |
| ResourceView.PanelFor | src/components/ResourceView.tsx:245-277 | a non-empty error wins; otherwise the evaluation if any; otherwise the placeholder |
| ResourceView.LevelAreaFor | src/components/ResourceView.tsx:278-286 | no level card iff no progress and no current level; the stored classification wins when non-empty |
| ResourceView.TagColorsCycle | src/components/ResourceView.tsx:200-201 | tag colours repeat with period three and neighbours differ |
| ResourceView.ResourceView.constructor | src/components/ResourceView.tsx:27-48 | the loaded resource, no analysis, no current level, a fresh evaluation hook |
| ResourceView.ResourceView.HandleEvaluationComplete | src/components/ResourceView.tsx:50-72 | the loaded resource gains exactly one attempt and the nested evaluation; without a resource nothing is stored |
| ResourceView.ResourceView.HandleSaveProgress | src/components/ResourceView.tsx:74-118 | sends exactly when the resource, its id, its evaluation and the user's audio analysis are present; the user is not checked, and the one save call carries the user id as it is (possibly absent) beside the completed record; success marks the resource completed; the hook's evaluation, analysis and evaluating flag are kept and only its saving flag and error follow the save; no save-once latch |
| ResourceUtils.CapitalizeFirstLetter | src/utils/resourceUtils.ts:3-5 | same length; first character upper-cased, the rest unchanged |
| ResourceUtils.CapitalizeIdempotent | src/utils/resourceUtils.ts:3-5 | capitalising twice is capitalising once |
| ResourceUtils.TruncateText | src/utils/resourceUtils.ts:7-15 | "" stays ""; at most wordLimit words are returned unchanged; longer texts keep their first wordLimit words followed by "..." |
| ResourceUtils.KeptWords | src/utils/resourceUtils.ts:7-15 | the kept words form a prefix of the text and split back into themselves |
| ResourceUtils.TruncateTextIdempotent | src/utils/resourceUtils.ts:7-15 | truncating a truncated text changes nothing |
| ResourceUtils.TruncateTextWordBound | src/utils/resourceUtils.ts:7-15 | the result has at most wordLimit words |
| ResourceUtils.MapDifficulty | src/utils/resourceUtils.ts:17-28 | "0"/0, "1"/1 and "2"/2 map to Easy, Intermediate and Difficult, in both directions; anything else is Unknown |
| ResourceUtils.MapDifficultyAgrees | src/utils/resourceUtils.ts:17-28 | a whole number and its decimal text get the same label |
| ResourceUtils.TransformEvaluation | src/utils/resourceUtils.ts:30-49 | scores and classification copied, the four tip lists nested, the URL attached |
| ResourceUtils.Flatten | src/utils/resourceUtils.ts:30-49 | the inverse reading of a nested record |
| ResourceUtils.TransformRoundTrip | src/utils/resourceUtils.ts:30-49 | nesting and flattening are inverse |
| EvaluationCard.NormalizedTips | src/components/EvaluationCard.tsx:88 | a nested record's tips, or the flat record's tip fields |
| EvaluationCard.SameTipsEitherShape | src/components/EvaluationCard.tsx:88 | a flat record and its nested form show the same tips and total |
| EvaluationCard.OverallScoreFeedback | src/components/EvaluationCard.tsx:96-104 | the four score bands, each as an if-and-only-if |
| EvaluationCard.OverallScoreFeedbackMonotonic | src/components/EvaluationCard.tsx:96-104 | a higher score never gets a lower band |
| EvaluationCard.DaySuffix | src/components/EvaluationCard.tsx:107-119 | one of st/nd/rd/th; 4 to 20 take "th" |
| EvaluationCard.DaySuffixIsEnglish | src/components/EvaluationCard.tsx:107-119 | for days 1 to 31 the suffix is the English ordinal one |
| EvaluationCard.DayWithSuffix | src/components/EvaluationCard.tsx:107-119 | the day's decimal digits followed by its suffix |
| EvaluationCard.FormatDate | src/components/EvaluationCard.tsx:121-130 | "" exactly for a missing or empty date; otherwise "Month day-suffix, " followed by a numeral that reads back as the year |
| EvaluationCard.Toggled | src/components/EvaluationCard.tsx:89-94 | only the named section flips; a never-toggled section counts as closed |
| EvaluationCard.ToggleTwice | src/components/EvaluationCard.tsx:89-94 | toggling twice restores what every section shows |
| EvaluationCard.InitiallyOnlySpeedOpen | src/components/EvaluationCard.tsx:85-87 | initially only Speed is open |
| EvaluationCard.SectionToggles.constructor | src/components/EvaluationCard.tsx:85-87 | the initial open map |
| EvaluationCard.SectionToggles.HandleToggle | src/components/EvaluationCard.tsx:89-94 | the map becomes its toggle; only the named section changes |
| ProgressStore.GetResourceType | src/data/mockups/userData.ts:239-244 | 2 iff "word_", 3 iff "text_", 1 for "sentence_" and anything else |
| ProgressStore.PrefixesExclusive | src/data/mockups/userData.ts:239-244 | an id carries at most one of the three prefixes |
| ProgressStore.ResourceTypeOfPrefixed | src/data/mockups/userData.ts:239-244 | the type of a prefixed id does not depend on the rest |
| ProgressStore.UpsertUpdatesInPlace | src/data/mockups/userData.ts:203-220 | an existing record is rewritten at its index with one more attempt, completed, the new evaluation, same id and type |
| ProgressStore.UpsertAppends | src/data/mockups/userData.ts:221-236 | a new record with one attempt, typed by prefix, is appended |
| ProgressStore.UpsertLeavesOthers | src/data/mockups/userData.ts:203-236 | other resources' records keep place and content; the list grows by at most one |
| ProgressStore.UpsertKeepsUnique | src/data/mockups/userData.ts:203-236 | at most one record per resource is preserved |
| ProgressStore.ProgressTable.constructor | src/data/mockups/userData.ts:27-60 | the given applications and progress map |
| ProgressStore.ProgressTable.UserApplicationByUid | src/data/mockups/userData.ts:184-188 | None iff no application belongs to the user; otherwise the first of theirs in table order |
| ProgressStore.ProgressTable.ProgressByUserUid | src/data/mockups/userData.ts:174-182 | [] for an unknown user, else their application's list |
| ProgressStore.ProgressTable.ResourceProgressByUserUid | src/data/mockups/userData.ts:246-252 | the first record of the user for that resource, None iff there is none |
| ProgressStore.ProgressTable.CreateOrUpdateEvaluation | src/data/mockups/userData.ts:190-237 | no application: "User application not found" (line 195-199) and nothing changes; else the user's list becomes its upsert, other lists untouched, and the one-record-per-resource invariant kept |
| ResourceService.ProgressListOf | src/services/api/createResourceService.ts:118-120 | an array payload, else [] |
| ResourceService.ResourceWithProgressOf | src/services/api/createResourceService.ts:43-74 | resource fields copied; progress present iff a record for the resource exists; then completion, attempts and evaluation come from it, else false/0/none |
| ResourceService.FirstRecordWins | src/services/api/createResourceService.ts:47-49 | with several records the earliest is used |
| ResourceService.WithProgressAll | src/services/api/createResourceService.ts:122-124 | one joined entry per resource, in order |
| ResourceService.WithProgressAllKeepsResources | src/services/api/createResourceService.ts:122-124 | joining never reorders or drops resources |
| ResourceService.InjectId | src/services/api/createResourceService.ts:83-97 | a record without "id" gains the requested one, other fields kept; a record with one, and a missing record, unchanged |
| ResourceService.InjectIdIdempotent | src/services/api/createResourceService.ts:83-97 | injecting again changes nothing |
| ResourceService.GetById | src/services/api/createResourceService.ts:83-97 | status and message kept, data injected |
| ResourceService.GetAllWithProgress | src/services/api/createResourceService.ts:111-134 | Ok iff both calls succeed; failures rethrown with the prefix; the joined list with status 200 |
| ResourceService.RethrowNamesTheError | src/services/api/createResourceService.ts:131-133 | the rethrown message embeds the inner error as `${error}` renders it, "<name>: <message>", so a failed fetch shows as "TypeError: Failed to fetch" and an API error as "Error: …" |
| ResourceService.GetByCategoryWithProgress | src/services/api/createResourceService.ts:136-167 | Ok iff both calls succeed; 404 iff no resource; otherwise joined with its one record, with the "Resource with ID '…' and progress loaded successfully" message |
| ResourceService.GetByDifficultyWithProgress | src/services/api/createResourceService.ts:169-195 | as getAllWithProgress over one difficulty, with the "Resources with difficulty '…' and progress loaded successfully" message |
| ResourceService.GetByIdWithProgress | src/services/api/createResourceService.ts:197-231 | Ok iff the resource call succeeds and either no resource was found or the progress call succeeds; a missing resource answers 404 before progress is fetched; a found one is joined, with the success message; failures rethrown with the prefix |
| Seqs.FirstIndex | src/data/mockups/userData.ts:203-205 | the least index satisfying the predicate, None iff there is none |
| Seqs.Find | src/services/api/createResourceService.ts:47-49 | the first element satisfying the predicate, None iff there is none |
| Browsing.Filter | src/hooks/resourceHooks/useResourceManager.ts:92-104 | the kept resources are exactly those matching category (case-insensitively, or "all") and difficulty |
| Browsing.FilterAppend | src/hooks/resourceHooks/useResourceManager.ts:92-104 | filtering distributes over concatenation |
| Browsing.FilterAllKeepsEverything | src/hooks/resourceHooks/useResourceManager.ts:95-101 | with "all" and "all" nothing is dropped |
| Browsing.FilterIdempotent | src/hooks/resourceHooks/useResourceManager.ts:92-104 | filtering twice is filtering once |
| Browsing.Page | src/hooks/resourceHooks/useResourceManager.ts:106-110 | at most 10 items; for page p ≥ 1 the slice [(p-1)·10, p·10) clamped to the list; NaN gives [] |
| Browsing.PageWithin | src/hooks/resourceHooks/useResourceManager.ts:106-110 | every item of a page is in the list |
| Browsing.TotalPages | src/hooks/resourceHooks/useResourceManager.ts:112 | the least n with n·10 ≥ length |
| Browsing.PagesUpToPrefix | src/hooks/resourceHooks/useResourceManager.ts:106-112 | the first k pages concatenate to the list's first k·10 items |
| Browsing.PagesCoverList | src/hooks/resourceHooks/useResourceManager.ts:106-112 | all pages concatenated, in order, are exactly the list |
| Browsing.PageBeyondEnd | src/hooks/resourceHooks/useResourceManager.ts:106-112 | a page after the last one is empty |
| Browsing.CategoryEntries | src/hooks/resourceHooks/useResourceManager.ts:69-73 | only non-empty trimmed categories are counted |
| Browsing.SortNames | src/hooks/resourceHooks/useResourceManager.ts:76-78 | the names strictly sorted, same multiset |
| Browsing.InsertSorted | src/hooks/resourceHooks/useResourceManager.ts:76-78 | inserting a name not yet present into a strictly sorted list keeps it strictly sorted |
| Browsing.SumOverCoversAll | src/hooks/resourceHooks/useResourceManager.ts:63-79 | the counts over all distinct names add up to the number of entries |
| Browsing.TalliedStep | src/hooks/resourceHooks/useResourceManager.ts:72 | one map update keeps every count equal to the entry's multiplicity |
| Browsing.TallyCategories | src/hooks/resourceHooks/useResourceManager.ts:64-75 | the loop leaves the map counting every trimmed category and the insertion order distinct |
| Browsing.TallyAll | src/hooks/resourceHooks/useResourceManager.ts:64-75 | after every resource, the map counts each trimmed category of all resources and the order lists each once |
| Browsing.CategoriesWithCount | src/hooks/resourceHooks/useResourceManager.ts:63-79 | names strictly sorted; a name appears iff some resource has it; each count is its number of occurrences; counts sum to the number of entries |
| Browsing.Tally | src/hooks/resourceHooks/useResourceManager.ts:83-88 | never more than the number of resources |
| Browsing.TallySumBound | src/hooks/resourceHooks/useResourceManager.ts:81-90 | the three difficulty counts together never exceed the number of resources |
| Browsing.DifficultyCounts | src/hooks/resourceHooks/useResourceManager.ts:81-90 | exactly the keys "0", "1", "2", each the number of resources of that difficulty |
| Browsing.NextSelection | src/hooks/resourceHooks/useResourceManager.ts:124 | "all" iff the chip is the current one or "all"; otherwise the chip |
| Browsing.ChooseTwiceClears | src/hooks/resourceHooks/useResourceManager.ts:123-139 | choosing a different chip selects it, choosing it again clears to "all" |
| UrlResourceManager.ParamOr | src/hooks/resourceHooks/useResourceManager.ts:22-25 | a present non-empty parameter, else the fallback |
| UrlResourceManager.LoadedList | src/hooks/resourceHooks/useResourceManager.ts:51-55 | the list on success, [] for null or failure |
| UrlResourceManager.SelectedCategory | src/hooks/resourceHooks/useResourceManager.ts:125-129 | only category and page change, page becomes 1 |
| UrlResourceManager.SelectedDifficulty | src/hooks/resourceHooks/useResourceManager.ts:134-138 | only difficulty and page change, page becomes 1 |
| UrlResourceManager.SelectedPage | src/hooks/resourceHooks/useResourceManager.ts:141-146 | writing a page's numeral reads back as that page and leaves type, category and difficulty as they were |
| UrlResourceManager.ResetParams | src/hooks/resourceHooks/useResourceManager.ts:114-121 | after a type change the type reads as the new one (when non-empty), the category as "all", the difficulty as "0" and the page as 1 |
| UrlResourceManager.DefaultParams | src/hooks/resourceHooks/useResourceManager.ts:22-25 | empty parameters give words, all, "0", page 1 |
| UrlResourceManager.ResourceManager.constructor | src/hooks/resourceHooks/useResourceManager.ts:17-29 | given parameters and no resources |
| UrlResourceManager.ResourceManager.PaginatedResources | src/hooks/resourceHooks/useResourceManager.ts:106-110 | at most 10 loaded resources, each kept by the filter |
| UrlResourceManager.ResourceManager.LoadResources | src/hooks/resourceHooks/useResourceManager.ts:46-61 | fetches iff there is a user; the list becomes the result or [] |
| UrlResourceManager.ResourceManager.HandleResourceTypeChange | src/hooks/resourceHooks/useResourceManager.ts:114-121 | the parameters become type, "all", "0", "1" |
| UrlResourceManager.ResourceManager.HandleCategoryChange | src/hooks/resourceHooks/useResourceManager.ts:123-130 | the category follows the chip rule, the page becomes 1, nothing else changes |
| UrlResourceManager.ResourceManager.HandleDifficultyChange | src/hooks/resourceHooks/useResourceManager.ts:132-139 | the difficulty follows the chip rule, the page becomes 1, nothing else changes |
| UrlResourceManager.ResourceManager.HandlePageChange | src/hooks/resourceHooks/useResourceManager.ts:141-146 | the page parameter reads back as the given page |
| StateResourceManager.ResourceManager.constructor | src/hooks/useResourceManager.ts:19-25 | words, all, all, page 1, no resources |
| StateResourceManager.ResourceManager.PaginatedResources | src/hooks/useResourceManager.ts:107-111 | at most 10 loaded resources, each kept by the filter |
| StateResourceManager.ResourceManager.LoadResources | src/hooks/useResourceManager.ts:42-58 | fetches iff there is a user; success goes back to page 1; failure empties the list |
| StateResourceManager.ResourceManager.HandleResourceTypeChange | src/hooks/useResourceManager.ts:115-120 | the type set, page 1, both filters "all" |
| StateResourceManager.ResourceManager.HandleCategoryChange | src/hooks/useResourceManager.ts:122-124 | the chip rule; the page resets to 1 exactly when the category changed (effect at lines 103-105) |
| StateResourceManager.ResourceManager.HandleDifficultyChange | src/hooks/useResourceManager.ts:126-128 | the chip rule; the page resets to 1 exactly when the difficulty changed |
| StateResourceManager.ResourceManager.HandlePageChange | src/hooks/useResourceManager.ts:145 | the page is set, nothing else changes |
| StateResourceManager.SelectionChangesUnlessAllTwice | src/hooks/useResourceManager.ts:103-105 | a chip click leaves the selection unchanged only when "all" is clicked while "all" is selected |
| ResourceTable.StatusOf | src/components/ResourceTable.tsx:80-84 | completed, in progress (attempts > 0) or pending, each as an if-and-only-if |
| ResourceTable.Description | src/components/ResourceTable.tsx:26-36 | texts truncated to at most five words, other types shown whole |
| ResourceTable.Situation | src/components/ResourceTable.tsx:115-119 | never empty; the matching category if non-empty, else the first category, else "-" |
| ResourceTable.SituationShowsFirstCategory | src/components/ResourceTable.tsx:115-119 | with no match the first category is shown |
| ResourceTable.Round | src/components/ResourceTable.tsx:42 | the nearest integer, halves rounding up |
| ResourceTable.FormatDuration | src/components/ResourceTable.tsx:38-43 | "-" iff missing or NaN; otherwise the rounded seconds followed by " sec" |
| ResourceTable.TableBodyOf | src/components/ResourceTable.tsx:78-149 | the "no resources" row iff the list is empty; otherwise one row per resource, in order, each showing that resource's status, description, situation, duration and word count and opening that resource |
| Text.NatToStringRoundTrip | src/components/EvaluationCard.tsx:107-119 | a decimal numeral reads back as its number |
| Text.TwoDigits | src/components/AudioPlayer.tsx:98 | `padStart(2, "0")` of a number below 100: two digits that read back as it |
| Text.JoinSplit | src/utils/resourceUtils.ts:10-14 | joining the pieces of a split gives the text back |
| Text.SplitJoin | src/utils/resourceUtils.ts:10-14 | splitting a join of separator-free words gives the words back |
| Text.ParseIntRoundTrip | src/hooks/resourceHooks/useResourceManager.ts:25 | `parseInt` of `String(i)` is i |
| Text.ParseIntNaN | src/hooks/resourceHooks/useResourceManager.ts:25 | a text not starting with a sign or digit parses to NaN |
| Text.LexLessTransitive | src/hooks/resourceHooks/useResourceManager.ts:78 | the name order is transitive (with irreflexive, total and asymmetric lemmas beside it) |
| BaseService.BuildUrl | src/services/api/baseService.ts:10-40 | without parameters the base plus endpoint; otherwise each ":key" replaced in turn |
| BaseService.AbsentPlaceholder | src/services/api/baseService.ts:27-36 | a key without a placeholder leaves the URL alone |
| BaseService.ReplacedPlaceholder | src/services/api/baseService.ts:27-36 | the first ":key" is replaced by the encoded value |
| BaseService.Headers.Set | src/services/api/baseService.ts:42-52 | one header set, the others kept |
| BaseService.RequestHeaders | src/services/api/baseService.ts:42-69 | Authorization "Bearer token" with a token, otherwise the caller's Authorization if any; Accept defaults to JSON; Content-Type present iff given or there is a body; custom headers kept; nothing else added |
| BaseService.AuthenticatedHeaders | src/services/api/baseService.ts:42-52 | the custom headers plus the bearer token when one is stored |
| BaseService.PrepareHeaders | src/services/api/baseService.ts:62-69 | the headers sent are RequestHeaders |
| BaseService.ErrorDetail | src/services/api/baseService.ts:77-78 | the body's non-empty detail, else the status text |
| BaseService.ApiErrorMessageParts | src/services/api/baseService.ts:79 | the message starts with the prefix, ends with the detail, and its status parses back |
| BaseService.ResponseOf | src/services/api/baseService.ts:76-87 | not ok: the API error; DELETE: null data; otherwise the parsed body; message "<method> Success" with GET as default |
| BaseService.FileResponseOf | src/services/api/baseService.ts:106-119 | not ok: the upload error; otherwise the body and "File upload completed" |
| BaseService.MakeRequest | src/services/api/baseService.ts:54-88 | the URL and headers sent are BuildUrl's and RequestHeaders; a rejected fetch is rethrown unchanged; otherwise the result is ResponseOf |
| AuthSession.Cleared | src/context/authProvider.tsx:62-66 | "user" and "token" removed, every other key kept |
| AuthSession.AuthProvider.constructor | src/context/authProvider.tsx:8-11 | no user, loading, no profile |
| AuthSession.AuthProvider.Restore | src/context/authProvider.tsx:12-30 | both items present and parsable: the user restored; otherwise both items removed; loading ends |
| AuthSession.AuthProvider.LoadProfile | src/context/authProvider.tsx:32-54 | fetched iff loading has ended and there is a user, for that user's id; profile set on success; profile loading ends |
| AuthSession.AuthProvider.Login | src/context/authProvider.tsx:56-60 | the user set and both items stored |
| AuthSession.AuthProvider.Logout | src/context/authProvider.tsx:62-66 | no user and both items removed |
| AuthSession.ReloadAfterLogin | src/context/authProvider.tsx:12-66 | a reload after login restores the same user; after logout it restores none |
| GenericResource.ResourceHook.constructor | src/hooks/usersApi/GenericResource.ts:34-42 | nothing loaded, not loading, no error |
| GenericResource.ResourceHook.HandleAsync | src/hooks/usersApi/GenericResource.ts:46-67 | loading with no error while pending; the outcome passed on; failure records the message or "An unexpected error occurred"; loading ends |
| GenericResource.ResourceHook.GetAll | src/hooks/usersApi/GenericResource.ts:69-74 | success stores and returns the list; failure keeps it and rethrows |
| GenericResource.ResourceHook.GetById | src/hooks/usersApi/GenericResource.ts:76-84 | success stores and returns the item |
| GenericResource.ResourceHook.GetAllWithProgress | src/hooks/usersApi/GenericResource.ts:106-115 | success stores and returns the joined list |
| GenericResource.ResourceHook.GetByIdWithProgress | src/hooks/usersApi/GenericResource.ts:117-129 | success stores and returns the joined resource |
| GenericResource.ResourceHook.GetByCategoryWithProgress | src/hooks/usersApi/GenericResource.ts:131-143 | the category is handed to a service call that looks a resource up by id; a success stores that single record or null in the list state and returns it; a failure keeps the state, records the message and rethrows |
| GenericResource.ResourceHook.Refresh | src/hooks/usersApi/GenericResource.ts:159-161 | behaves as GetAll |
| ResourceLoader.ResourceLoader.constructor | src/hooks/resourceHooks/useResource.ts:16-19 | no resource, loading, no error |
| ResourceLoader.ResourceLoader.LoadResource | src/hooks/resourceHooks/useResource.ts:35-66 | no user or id: only loading ends; missing type: "Invalid resource type or ID"; unknown type: "Unsupported resource type"; otherwise the fetched resource or the message (or "An error occurred"), and only the chosen hook changes, its joined resource and error following the fetch; loading ends in every case |
| AudioPlayer.SecondsInMinute | src/components/AudioPlayer.tsx:96-97 | fewer than 60, and minutes·60 + seconds is the whole seconds of the time |
| AudioPlayer.FormatTime | src/components/AudioPlayer.tsx:94-99 | "0:00" for NaN or negative; otherwise minutes, ":", two-digit seconds below 60, with minutes·60 + seconds = floor(time) |
| AudioPlayer.FormatTimeWholeSeconds | src/components/AudioPlayer.tsx:94-99 | a whole number of seconds shows as its minutes and seconds |
| AudioPlayer.WholeSecondsSplit | src/components/AudioPlayer.tsx:96-97 | for m·60 + s seconds with s < 60, the minutes are m and the seconds s |
| AudioPlayer.Player.constructor | src/components/AudioPlayer.tsx:16-21 | loading, not playing, zero times, rate 1, no engine; observing iff the container exists |
| AudioPlayer.Player.InitializeWaveSurfer | src/components/AudioPlayer.tsx:23-62 | no-op when an engine exists; otherwise loading restarts, error and time cleared, one engine created |
| AudioPlayer.Player.Resize | src/components/AudioPlayer.tsx:68-75 | an engine is created exactly on the first positive width while observing, and observing stops; at most one engine per run of the mount effect (per clip and colours) |
| AudioPlayer.Player.OnReady | src/components/AudioPlayer.tsx:42-45 | duration set, loading ends |
| AudioPlayer.Player.OnError | src/components/AudioPlayer.tsx:46-50 | the load error shown, loading ends, so the controls are disabled (lines 105, 133) |
| AudioPlayer.Player.OnPlayState | src/components/AudioPlayer.tsx:51-52 | the playing flag follows the engine |
| AudioPlayer.Player.OnFinish | src/components/AudioPlayer.tsx:53-56 | not playing, engine back at 0 |
| AudioPlayer.Player.OnTimeUpdate | src/components/AudioPlayer.tsx:57 | the shown time follows the engine |
| AudioPlayer.Player.TogglePlayPause | src/components/AudioPlayer.tsx:86 | a live engine switches play/pause; no engine, nothing |
| AudioPlayer.Player.HandleSpeedChange | src/components/AudioPlayer.tsx:87-92 | applies to engine and shown rate only when an engine exists |
| AudioPlayer.Player.Cleanup | src/components/AudioPlayer.tsx:79-83 | observer disconnected, engine destroyed, no further engine possible |
| AudioPlayer.Player.PropsChanged | src/components/AudioPlayer.tsx:64-84 | a new clip or colour re-runs the effect: the old engine destroyed, a new observer connected when the container exists, the shown state kept |
| AudioPlayer.SwitchClipScenario | src/components/AudioPlayer.tsx:23-84 | after a clip change the next positive width creates one fresh engine, loading again with no error |
| AudioPlayer.LoadScenario | src/components/AudioPlayer.tsx:64-92 | mount, resizes, ready and a speed change: one engine, enabled controls, rate 1.5 |

## Left out

- Browser media and timing: `getUserMedia`, `MediaRecorder`, `Blob`, `URL.createObjectURL`, track stopping, `setInterval` and `setTimeout` are opaque handles and explicit steps (`Tick`, `Stop`); the 100 ms deferral of the verdict is part of the same step.
- Recorder.AudioRecorder.Start: a start issued while already recording leaks the running interval in the source; the model tracks the leak (the earlier interval stays in the live set beside the new one) but does not model the leaked interval going on ticking.
- Recorder.AudioRecorder.Start: a failure of the `MediaRecorder` constructor after access is granted is not distinguished from a refused microphone.
- Recorder.AudioRecorder: the derived flags `canRecord`, `canStop`, `canPause` (modelled as written: recording and already paused), `hasRecording` and `isValidDuration` are plain functions without contracts.
- Network and transport: `fetch`, JSON bodies, `FormData` and the evaluation and user services are inputs (`Outcome` values).
- `Promise.all` concurrency: the join is "all outcomes are Ok"; interleavings are not modelled.
- React rendering, JSX, icons, styling, WaveSurfer and ResizeObserver internals; the Pagination component's page range.
- `JSON.parse` / `JSON.stringify` of the stored user are function parameters.
- Unicode case mapping and `trim` beyond the listed white-space characters: case is ASCII only.
- `localeCompare` is a code-unit lexicographic order (`Text.LexLess`).
- `Math.round` is `floor(x + 0.5)`; numbers printed in exponent form are not modelled; durations are exact reals or NaN.
- Invalid dates: `FormatDate` takes the calendar fields of an already parsed date.
- ResourceUtils.TruncateText: negative word limits are not modelled (the limit is a `nat`).
- Browsing.Tally: the prototype keys of the counting object (such as "constructor") are not modelled.
- Browsing.Filter: resources always carry a category list, so the `!resource?.categories` branch is not modelled; a NaN difficulty is not modelled.
- BaseService.RequestHeaders: header names are case-insensitive in the source; the model uses lower-case names throughout, and custom headers are given as a lower-case map.
- BaseService.ErrorDetail: the error body's `detail` is taken to be a string or absent; a non-string detail (such as a list of validation errors), which the source would render through `${}` as "[object Object]" or "", is not modelled.
- EvaluationCard.NormalizedTips: the model follows the declared types, in which all four tip lists are required, so the `?? []` fallback for a list missing at run time is not modelled.
- BaseService.BuildUrl: `encodeURIComponent` is an uninterpreted function parameter.
- ResourceService.GetById: non-object payloads are not modelled; the typed resource records (words, sentences, texts) share one record shape.
- UrlResourceManager.ResourceManager and StateResourceManager.ResourceManager: the `loading` flag they pass through from the generic hook is not part of the managers, and resource types outside words/sentences/texts (which select no hook) are not modelled.
- GenericResource.ResourceHook: `getByCategory` and `getByDifficulty` differ from `GetAll`, and `getByDifficultyWithProgress` from `GetAllWithProgress`, only in the service call, which is an input, so they are the same methods. `getByCategoryWithProgress` is modelled on its own (`GetByCategoryWithProgress`), because its service call answers one record by id rather than a list.
- AudioPlayer.Player: the engine's own loading, decoding and playback clock are not modelled; events are method calls from a live engine.
