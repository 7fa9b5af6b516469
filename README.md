# Viral Money Machine, modelled in Dafny

This project models the core of Viral Money Machine. The system finds
viral short videos, scores them with a language model, and turns them into
scripts, generated videos and scheduled posts for affiliate marketing. It
has three parts.

- **The Express server.**
  - `MemStorage` (server/storage.ts) is the in-memory store. It has one
    table and one id counter per record kind, and it is seeded with sample
    rows.
  - The route handlers (server/routes.ts) validate the input, read the
    store, call the model and write back.
  - The normalisation of the model's replies is in server/openai.ts.
- **The Python agent** (viral_ai_agent.py). It covers dashboard
  statistics, script generation, the fallback replies used when the model
  fails, and the field check of interactive generation.
- **The React client.** It covers:
  - the posting calendar grid;
  - the script formatter and the generate form;
  - the badges and labels of the video and post lists;
  - the request-building handlers of the creator, scheduler and
    viral-agent pages.

How each part is modelled:

- **The store** is a Dafny `class` with one `map` field per table and one
  counter field per table.
  - Its create and update methods state the whole new state.
  - Its class invariant `Valid` keeps each table's keys exactly 1 up to its
    counter less one.
  - Its list getters are specified by the table read in key order: the
    result is a permutation of that and is sorted by the source's sort key.
- **Route handlers** are methods over the store. The reply of the language
  model is a parameter (`Result` of the parsed reply or the error message),
  and so is the current time.
- **The agent's database** is a class holding its rows as sequences.
- **Falsy defaults.** JavaScript's `x || d` and Python's `.get(k, d)` are
  written out, in `JsSemantics` and at each use. `0`, `""` and `false` are
  falsy where the source relies on it.
- **Integer parsing.** `parseInt` and Python's `int()` are modelled
  character by character, and `trim`/`strip` by their whitespace classes.
- **Client components and pages** are pure functions. Each handler returns
  the request it would send, or a list of them in order.

## Model

| member | source | states |
|---|---|---|
| Text.Strip | client/src/components/creator-agent/script-generator.tsx:123 | `trim`/`strip`: the result is empty exactly when the input is all whitespace, never starts or ends with whitespace, and is the input itself when that has no surrounding whitespace |
| Text.LeadingSpaces | viral_ai_agent.py:464 | the count of leading whitespace characters: all of them are whitespace and the next one is not |
| Text.TrailingSpaces | viral_ai_agent.py:464 | the count of trailing whitespace characters, with the same two-sided property |
| Text.StripPadded | viral_ai_agent.py:464 | stripping whitespace padding from a word that has no surrounding whitespace gives back the word |
| Text.LeadingSpacesOfPadded | viral_ai_agent.py:464 | whitespace padding before a word is counted exactly |
| Text.TrailingSpacesOfPadded | viral_ai_agent.py:464 | whitespace padding after a word is counted exactly |
| Text.StripKeeps | viral_ai_agent.py:464 | a character that is not whitespace survives stripping |
| Text.NatToDecimal | client/src/components/viral-agent/video-results-table.tsx:41 | a decimal numeral with no leading zero whose digit value is the number |
| Text.HexDigitValue | server/routes.ts:67 | a digit's value is below 16, and below 10 exactly for decimal digits |
| Text.DecimalDigit | client/src/components/viral-agent/video-results-table.tsx:41 | the digit character whose value is the given digit |
| JsSemantics.OrNull | server/storage.ts:415-417 | `x \|\| null` is null exactly when `x` is falsy, and `x` otherwise |
| JsSemantics.OrDefault | server/storage.ts:414 | `x \|\| d` is `d` exactly when `x` is falsy, and `x` otherwise |
| JsSemantics.ParseInt | server/routes.ts:67 | `parseInt` gives a number only when the text after leading whitespace starts with a digit or a sign |
| JsSemantics.Clamp | server/openai.ts:75 | `Math.max(0, Math.min(100, x))` lies in 0..100, is `x` exactly when `x` is in range, and is the nearer end otherwise |
| JsSemantics.LeadingDigits | server/routes.ts:67 | the longest prefix of radix digits that `parseInt` reads |
| JsSemantics.ParseIntToString | server/routes.ts:67 | `parseInt` reads back any integer from its decimal form when a non-digit (or nothing) follows |
| JsSemantics.UnsignedParse | server/routes.ts:67 | without a sign, `parseInt` is the magnitude parse |
| JsSemantics.SignedParse | server/routes.ts:67 | a leading minus negates the magnitude parse |
| JsSemantics.MagnitudeOfNumeral | server/routes.ts:67 | a decimal numeral followed by a non-digit parses as its digit value |
| JsSemantics.LeadingDigitsOfNumeral | server/routes.ts:67 | the digit run read from a numeral followed by a non-digit is exactly the numeral |
| Sorting.Insert | server/storage.ts:399-403 | inserting into a sorted list keeps it sorted and adds exactly the element |
| Sorting.SortedCons | server/storage.ts:399-403 | an element no larger than a sorted list's head extends it sorted |
| Sorting.SortBy | server/storage.ts:399-403 | `sort` with a key comparator returns a sorted permutation of its input |
| Schema.NewUser | server/storage.ts:391-396 | the stored user has the new id, and every input field can be read back from it |
| Schema.NewViralVideo | server/storage.ts:409-424 | a falsy status becomes "pending" and a truthy one is stored as given; falsy captions, hashtags and transcript become null; every other field is copied and both timestamps are the creation time |
| Schema.ViralVideoInputKept | server/storage.ts:409-424 | the input can be read back from the stored row exactly when it names a status and none of its optional texts is the empty string: only falsy values are lost |
| Schema.ViralVideoMergeLaws | server/storage.ts:426-433 | two successive `{...video, ...updates}` merges equal one merge with the combined patch, and repeating a merge changes nothing but the update time |
| Schema.MergeViralVideo | server/storage.ts:430 | every field the patch names takes its value, every other field keeps the stored one, and `updated_at` is the update time |
| Schema.ScorePatchEffect | server/routes.ts:82-85 | the analysis patch sets only `ai_score`, `status` "processed" and `updated_at` |
| Schema.NewAffiliateProduct | server/storage.ts:446-460 | falsy commission amount, gravity and refund rate become null; flags that are not true become null; the rest is copied |
| Schema.AffiliateProductInputKept | server/storage.ts:446-460 | the input can be read back from the stored product exactly when no optional field holds its type's zero: `false` flags and zero figures come back as null |
| Schema.NewScript | server/storage.ts:473-486 | a falsy status becomes "draft"; `ai_generated` is true or null; the text fields are copied and both timestamps are the creation time |
| Schema.ScriptMergeLaws | server/storage.ts:488-495 | script merges compose and are idempotent; the approval patch sets only the status and refreshes `updated_at` |
| Schema.MergeScript | server/storage.ts:492 | every field the patch names takes its value, every other field keeps the stored one, and `updated_at` is the update time |
| Schema.NewVideo | server/storage.ts:508-521 | a falsy status becomes "generating"; a falsy script id, file name or duration (0 included) becomes null |
| Schema.VideoMergeLaws | server/storage.ts:523-530 | video merges compose, are idempotent, add no timestamp, and the empty patch changes nothing |
| Schema.MergeVideo | server/storage.ts:527 | every field the patch names takes its value and every other field keeps the stored one; no timestamp is set |
| Schema.NewScheduledPost | server/storage.ts:543-557 | a falsy status becomes "scheduled"; a falsy video id, caption or hashtags becomes null; platform, time and `posted_at` are kept |
| Schema.ScheduledPostMergeLaws | server/storage.ts:559-566 | post merges compose and are idempotent; the cancel patch sets only the status, with no timestamp |
| Schema.MergeScheduledPost | server/storage.ts:563 | every field the patch names takes its value and every other field keeps the stored one; no timestamp is set |
| Schema.NewAnalytics | server/storage.ts:581-595 | falsy video id, views, engagement, revenue and conversion (0 included) become null; the date is the creation time |
| SampleData.ViralVideoSampleCount | server/storage.ts:91-164 | the sample data holds 6 viral videos |
| SampleData.AffiliateProductSampleCount | server/storage.ts:167-256 | the sample data holds 8 affiliate products |
| SampleData.ScriptSampleCount | server/storage.ts:259-310 | the sample data holds 5 scripts |
| SampleData.AnalyticsSampleCount | server/storage.ts:313-338 | the sample data holds 3 analytics rows |
| Storage.InKeyOrder | server/storage.ts:399-403 | the rows of a key range in ascending key order, holding exactly the rows under those keys |
| Storage.KeyOrder | server/storage.ts:399-403 | a table's `values()` in insertion order, which is id order: one row per id 1..counter-1 |
| Storage.Listed | server/storage.ts:399-403 | a list getter's result: a permutation of the table in id order, sorted by the key |
| Storage.ForVideo | server/storage.ts:575-579 | the filter keeps exactly the rows of the given video, with their multiplicities |
| Storage.FirstWithUsername | server/storage.ts:387-389 | `find` stops at the first row with the username, and no earlier row has it |
| Storage.SeedViralVideos | server/storage.ts:341-350 | the seeding loop stores sample `i` under id `i+1` with its own clock reading, and the counter ends one past the last id |
| Storage.SeedAffiliateProducts | server/storage.ts:352-359 | as for viral videos, and each row's `id` field is its key |
| Storage.SeedScripts | server/storage.ts:361-370 | as for viral videos |
| Storage.SeedAnalytics | server/storage.ts:372-379 | as for viral videos, and each row's `id` field is its key |
| Storage.MemStorage.constructor | server/storage.ts:77-89 | every counter starts at 1; users, videos and scheduled posts start empty; the four sample tables are seeded in order |
| Storage.MemStorage.GetUser | server/storage.ts:383-385 | a user exactly for ids 1..counter-1, the stored row |
| Storage.MemStorage.GetUserByUsername | server/storage.ts:387-389 | absent exactly when no user has the username; otherwise the user with the smallest id that has it |
| Storage.MemStorage.CreateUser | server/storage.ts:391-396 | the new id is the old counter, fresh and above every existing id; the table gains exactly the new row and reads it back |
| Storage.MemStorage.GetViralVideos | server/storage.ts:399-403 | all viral videos, newest first: a permutation of the table, sorted by descending `created_at` |
| Storage.MemStorage.GetViralVideo | server/storage.ts:405-407 | present exactly for ids 1..counter-1 |
| Storage.MemStorage.CreateViralVideo | server/storage.ts:409-424 | stores `NewViralVideo` under a fresh id, the old counter, and increments it; `get` then returns exactly the created row |
| Storage.MemStorage.UpdateViralVideo | server/storage.ts:426-433 | undefined and nothing written exactly when the id is absent; otherwise the merge with a fresh `updated_at`, written back |
| Storage.MemStorage.GetAffiliateProducts | server/storage.ts:436-440 | all products, newest first |
| Storage.MemStorage.GetAffiliateProduct | server/storage.ts:442-444 | present exactly for ids 1..counter-1 |
| Storage.MemStorage.CreateAffiliateProduct | server/storage.ts:446-460 | stores `NewAffiliateProduct` under a fresh id and increments the counter; `get` returns it |
| Storage.MemStorage.GetScripts | server/storage.ts:463-467 | all scripts, newest first |
| Storage.MemStorage.GetScript | server/storage.ts:469-471 | present exactly for ids 1..counter-1 |
| Storage.MemStorage.CreateScript | server/storage.ts:473-486 | stores `NewScript` under a fresh id and increments the counter; `get` returns it |
| Storage.MemStorage.UpdateScript | server/storage.ts:488-495 | undefined exactly for an absent id; otherwise the merge with a refreshed `updated_at` |
| Storage.MemStorage.GetVideos | server/storage.ts:498-502 | all videos, by descending `generated_at` |
| Storage.MemStorage.GetVideo | server/storage.ts:504-506 | present exactly for ids 1..counter-1 |
| Storage.MemStorage.CreateVideo | server/storage.ts:508-521 | stores `NewVideo` under a fresh id and increments the counter; `get` returns it |
| Storage.MemStorage.UpdateVideo | server/storage.ts:523-530 | undefined exactly for an absent id; otherwise the merge, with no timestamp added |
| Storage.MemStorage.GetScheduledPosts | server/storage.ts:533-537 | all posts, by ascending `scheduled_time` |
| Storage.MemStorage.GetScheduledPost | server/storage.ts:539-541 | present exactly for ids 1..counter-1 |
| Storage.MemStorage.CreateScheduledPost | server/storage.ts:543-557 | stores `NewScheduledPost` under a fresh id and increments the counter; `get` returns it |
| Storage.MemStorage.UpdateScheduledPost | server/storage.ts:559-566 | undefined exactly for an absent id; otherwise the merge, with no timestamp added |
| Storage.MemStorage.GetAnalytics | server/storage.ts:569-573 | all analytics rows, by descending date |
| Storage.MemStorage.GetAnalyticsByVideo | server/storage.ts:575-579 | exactly the rows of that video, each as often as it is stored (the multiset of the table's rows for that video), newest first |
| Storage.MemStorage.CreateAnalytics | server/storage.ts:581-595 | stores `NewAnalytics` under a fresh id and increments the counter; the row is then listed |
| Folds.Mean | server/routes.ts:25-30 | 0 for no rows, else the mean times the count is the sum |
| Folds.Filter | viral_ai_agent.py:524 | the comprehension keeps exactly the elements that satisfy the condition |
| Folds.SumRealAppend | server/routes.ts:23 | the sum over a concatenation is the sum of the sums |
| Folds.SumIntAppend | server/routes.ts:24 | the same for integer sums |
| Folds.SumRealRemove | server/routes.ts:23 | removing one row takes its figure off the sum |
| Folds.SumIntRemove | server/routes.ts:24 | the same for integer sums |
| Folds.SumRealPermutation | server/routes.ts:23 | a sum does not depend on the order of the rows |
| Folds.SumIntPermutation | server/routes.ts:24 | the same for integer sums |
| Folds.RemoveAt | server/routes.ts:23-24 | removing an index removes one copy of that element |
| Folds.SumRealBounds | server/routes.ts:25-30 | when every figure lies in a range, the sum lies within the count times its ends |
| Folds.MeanBounds | server/routes.ts:25-30 | the mean of figures within a range lies in that range |
| Folds.QuotientBounds | server/routes.ts:25-30 | a quotient whose product with a positive count lies within the count times a range lies in the range |
| Folds.MeanPermutation | server/routes.ts:25-30 | a mean does not depend on the order of the rows |
| Folds.FilterPermutation | viral_ai_agent.py:524 | how many elements satisfy a condition does not depend on their order |
| Folds.FilterAsSum | viral_ai_agent.py:524 | counting the kept elements is summing 1 over the elements that satisfy the condition |
| OpenAi.NormalizeAnalysis | server/openai.ts:72-80 | the score is clamped to 0..100: a falsy or missing score gives 0, a negative one 0, one above 100 gives 100, and one in range is kept; a missing quality gives "good"; missing lists give [] |
| OpenAi.AnalysisRoundTrip | server/openai.ts:74-80 | normalising the reply form of an analysis returns the analysis, so nothing a valid analysis holds is lost |
| OpenAi.NormalizeAnalysisIdempotent | server/openai.ts:74-80 | normalising an analysis again changes nothing |
| OpenAi.AnalyzeViralVideo | server/openai.ts:72-84 | success exactly when the reply arrived, and then the result is the reply normalised (score clamped to 0..100, `||` defaults for the quality and the lists); a failure message starts with "Failed to analyze viral video: " followed by the cause |
| OpenAi.NormalizeScript | server/openai.ts:153-165 | a falsy title gives "Untitled Script"; missing texts give ""; missing hashtags give []; a falsy engagement (0 included) gives 50, a negative one 0, one above 100 gives 100, and one in 1..100 is kept |
| OpenAi.ScriptRoundTrip | server/openai.ts:155-165 | a generated script comes back unchanged from its reply form exactly when its title is set and its engagement is in 1..100; an engagement of 0 comes back as 50 |
| OpenAi.NormalizeScriptNotIdempotent | server/openai.ts:164 | a negative engagement is clamped to 0, and normalising that again gives 50: the `\|\| 50` default runs before the clamp |
| OpenAi.GenerateScript | server/openai.ts:153-169 | success exactly when the reply arrived, and then the result is the reply normalised (title defaulted, sections and hashtags kept, engagement clamped with a falsy value read as 50); the failure message starts with "Failed to generate script: " followed by the cause |
| OpenAi.ScoreContentAuthenticity | server/openai.ts:205-210 | a failed call or an empty reply gives 50; otherwise a numeric `parseInt` of the reply is clamped to 0..100 (the nearer end when outside), and NaN stays NaN |
| OpenAi.ClampNumber | server/openai.ts:206 | `Math.max`/`Math.min` on NaN gives NaN; a number in 0..100 is kept, a negative one gives 0 and one above 100 gives 100 |
| OpenAi.AuthenticityOfNumeral | server/openai.ts:205-206 | a reply that starts with a score 0..100, followed by a non-digit, gives that score |
| Routes.GetDashboardStats | server/routes.ts:17-43 | revenue and views summed, engagement and conversion averaged over all analytics rows (null as 0), independent of the list order; videos and viral videos counted whatever their score; all zero with no rows |
| Routes.Stats | server/routes.ts:17-43 | videos and viral videos counted; revenue and views summed over the analytics rows; engagement and conversion averages times the row count equal their sums; all zero with no rows |
| Routes.StatsAverageBounds | server/routes.ts:25-30 | when every row's engagement and conversion lie in a range containing 0, so do the averages |
| Routes.StatsAddRow | server/routes.ts:23-24 | one more analytics row adds its revenue and its views to the totals |
| Routes.AnalyzeVideo | server/routes.ts:65-91 | an unknown or unparsable id gives 404 with no model call and no write; a failed call gives 500 with no write; otherwise only the score (0..100), status "processed" and `updated_at` change on that row |
| Routes.GenerateScriptRoute | server/routes.ts:133-164 | any of the five fields falsy gives 400 with no call and no script; a failed call gives 500 and no script; otherwise one new draft, AI-generated, with the model's title and full script and the four inputs copied |
| Routes.PatchScript | server/routes.ts:166-180 | 404 "Script not found" exactly when the store has no row for the parsed id; otherwise the merged row |
| Routes.PatchVideo | server/routes.ts:202-216 | 404 "Video not found" exactly for an absent id; otherwise the merged row |
| Routes.PatchScheduledPost | server/routes.ts:238-252 | 404 "Post not found" exactly for an absent id; otherwise the merged row |
| Routes.PostViralVideo | server/routes.ts:55-63 | an invalid body gives 400 "Invalid video data" and no write; otherwise the created row is returned and stored |
| Routes.PostAffiliateProduct | server/routes.ts:103-111 | an invalid body gives 400 "Invalid product data" and no write; otherwise the created row |
| Routes.PostScript | server/routes.ts:123-131 | an invalid body gives 400 "Invalid script data" and no write; otherwise the created row |
| Routes.PostVideo | server/routes.ts:192-200 | an invalid body gives 400 "Invalid video data" and no write; otherwise the created row |
| Routes.PostScheduledPost | server/routes.ts:228-236 | an invalid body gives 400 "Invalid post data" and no write; otherwise the created row |
| Routes.PostAnalytics | server/routes.ts:274-282 | an invalid body gives 400 "Invalid analytics data" and no write; otherwise the created row |
| Routes.AnalyticsByVideo | server/routes.ts:264-272 | an unparsable id gives no rows; otherwise exactly the stored rows of that video, each as often as it is stored, newest first |
| Routes.FoundId | server/routes.ts:67-71 | an id that is found is exactly one that parses and is a key of the table; otherwise the route answers 404 |
| Routes.ContentScore | server/routes.ts:285-298 | falsy content gives 400 "Content is required" with no model call; otherwise the content is sent and the reply is exactly the authenticity score of the model's reply, in 0..100 when numeric, 50 on a failed call |
| Agent.AgentDatabase.constructor | viral_ai_agent.py:124-128 | on a fresh database file, the store starts with the given viral videos, no scripts, and ids from 1 |
| Agent.AgentDatabase.InsertScript | viral_ai_agent.py:231-246 | appends the script with a fresh id, one no existing script has, and its creation time |
| Agent.AnalyzeViralVideo | viral_ai_agent.py:376-387 | the reply itself, or on failure score 0, quality "unknown" and the "analysis_failed" theme |
| Agent.AnalysisFallbackNormal | viral_ai_agent.py:381-387 | the fallback analysis is already in normal form |
| Agent.AnalysisFallback | viral_ai_agent.py:381-387 | the failure analysis: score 0, quality "unknown", and one-item theme, factor and recommendation lists |
| Agent.GenerateScript | viral_ai_agent.py:428-442 | the reply itself, or on failure the "Error generating script" record with engagement 0 and hashtag "#error" |
| Agent.ScriptFallbackEngagement | viral_ai_agent.py:432-442 | normalised by the server's rules, the fallback's engagement 0 becomes 50 |
| Agent.ScriptFallback | viral_ai_agent.py:432-442 | the failure script: its title, full script, "#error" hashtag and engagement 0, and non-empty hook, problem, solution, proof and call to action |
| Agent.DropUnderscores | viral_ai_agent.py:464 | removing digit-group underscores leaves only digits, and leaves plain digits alone |
| Agent.PyParseInt | viral_ai_agent.py:464 | `int(s.strip())`: a number only when something other than whitespace is left |
| Agent.PyParseIntRejects | viral_ai_agent.py:464-468 | a reply with a character that is not whitespace, a sign, a digit or an underscore (as in "85/100") does not parse, so the score falls back to 50 |
| Agent.PyParseIntOfNumeral | viral_ai_agent.py:464 | `int()` reads back any integer's decimal form, whatever whitespace surrounds it |
| Agent.PyParseOfStripped | viral_ai_agent.py:464 | a string that strips to an integer's decimal form parses to that integer |
| Agent.PyStr | viral_ai_agent.py:464 | an integer's decimal form: a minus exactly for negatives, ending in a digit |
| Agent.PyParseIntOfBlank | viral_ai_agent.py:464-468 | a blank reply does not parse |
| Agent.ScoreContentAuthenticity | viral_ai_agent.py:444-468 | the parsed reply, or 50 on a failed call, a missing reply or a parse failure; never clamped |
| Agent.AuthenticityUnclamped | viral_ai_agent.py:464 | any integer reply, 150 or -3 included, is returned as is |
| Agent.GenerateContentScript | viral_ai_agent.py:483-508 | title from the reply or "Generated Script", content from `full_script` or "Content generation failed", the four inputs but not the key message copied, AI-generated, "generated"; the script is appended under a fresh id |
| Agent.FailedGenerationTitle | viral_ai_agent.py:493-494 | a failed generation yields the fallback's title and content, not the defaults |
| Agent.AllFilledIffNoneBlank | viral_ai_agent.py:592-594 | generation proceeds exactly when none of the five inputs is blank |
| Agent.StripInputs | viral_ai_agent.py:586-590 | each stripped input is empty exactly when it was blank, and has no whitespace at either end |
| Agent.GenerateScriptInteractive | viral_ai_agent.py:582-598 | nothing is generated or stored exactly when a stripped input is empty; otherwise one script is appended under the next id, which then advances by one: the model's title or "Generated Script", its full script or "Content generation failed", the four stripped selections (the key message is only sent to the model), AI-generated, status "generated" |
| Agent.Stats | viral_ai_agent.py:510-525 | revenue 5600 and conversion 4.2 always; scripts counted; total views are the sum of the videos' views; the viral count is the number of videos scoring above 85; the average engagement times the count is the engagement sum, and 0 with no videos |
| Agent.GetDashboardStats | viral_ai_agent.py:510-525 | over the stored videos and scripts: the views summed, the engagement averaged (0 with no videos), the videos scoring above 85 counted, the scripts counted, and the fixed revenue and conversion figures |
| Agent.StatsOrderIndependent | viral_ai_agent.py:515-524 | the statistics do not depend on the order the rows are read in |
| Agent.StatsAddVideo | viral_ai_agent.py:515-524 | one more video adds its views, and counts as viral exactly when its score is above 85 (85 itself does not) |
| Calendar.DaysInMonth | client/src/components/scheduler-agent/posting-calendar.tsx:17-18 | 28 to 31 days; 29 exactly for February of a leap year, 28 exactly for February of another, 30 exactly for April, June, September and November |
| Calendar.MonthsMakeYear | client/src/components/scheduler-agent/posting-calendar.tsx:17-18 | the twelve months add up to the year's 365 or 366 days |
| Calendar.YearStep | client/src/components/scheduler-agent/posting-calendar.tsx:19 | each year adds its own length to the day count |
| Calendar.FirstWeekday | client/src/components/scheduler-agent/posting-calendar.tsx:16-19 | the weekday of the first of the month is in 0..6 |
| Calendar.NextMonthWeekday | client/src/components/scheduler-agent/posting-calendar.tsx:16-19 | a month starts on the weekday after the previous month's last day, across the turn of the year too |
| Calendar.KnownWeekdays | client/src/components/scheduler-agent/posting-calendar.tsx:19 | 1 January 2024 is a Monday and 1 March 2024 a Friday |
| Calendar.GetDaysInMonth | client/src/components/scheduler-agent/posting-calendar.tsx:13-34 | the grid has the starting weekday's number of blank cells, then days 1 to the last in order |
| Calendar.GridShape | client/src/components/scheduler-agent/posting-calendar.tsx:21-33 | the grid fits six weeks, and the next month starts where it ends |
| Calendar.EventColor | client/src/components/scheduler-agent/posting-calendar.tsx:44-48 | primary on every multiple of 3, secondary on the other multiples of 5, one of the three colours always |
| Calendar.HasEventOnDay | client/src/components/scheduler-agent/posting-calendar.tsx:39-42 | a day has an event exactly when its colour is not the accent |
| Calendar.EventColorMatchesEvent | client/src/components/scheduler-agent/posting-calendar.tsx:39-48 | the colour is not the accent exactly when the day has an event; multiples of 15 take the primary colour |
| Calendar.CellClass | client/src/components/scheduler-agent/posting-calendar.tsx:81-89 | blank cells grey, today highlighted, event days coloured, the rest plain |
| Calendar.OnlyBlankCellsGrey | client/src/components/scheduler-agent/posting-calendar.tsx:81-89 | a cell is greyed out exactly when it is blank |
| ScriptGenerator.ReplaceAbsent | client/src/components/creator-agent/script-generator.tsx:50-57 | replacing a pattern that does not occur changes nothing |
| ScriptGenerator.CopiedUntilReplaced | client/src/components/creator-agent/script-generator.tsx:50-57 | the text before the first replacement is copied unchanged |
| ScriptGenerator.SuffixAbsent | client/src/components/creator-agent/script-generator.tsx:50-57 | a pattern absent from a text is absent from every suffix of it |
| ScriptGenerator.ShiftOccurrence | client/src/components/creator-agent/script-generator.tsx:50-57 | an occurrence past a prefix is an occurrence in the rest |
| ScriptGenerator.NoneStartsInReplacement | client/src/components/creator-agent/script-generator.tsx:50-57 | no occurrence of a marker starts inside a replacement text that lacks its first character |
| ScriptGenerator.NoneStartsAtCopied | client/src/components/creator-agent/script-generator.tsx:50-57 | no occurrence starts at a copied character that did not start one before |
| ScriptGenerator.CopiedOrBlocked | client/src/components/creator-agent/script-generator.tsx:50-57 | an occurrence cannot start where the copied text runs into a character the marker lacks |
| ScriptGenerator.ReplaceLeavesNone | client/src/components/creator-agent/script-generator.tsx:50-57 | a global replace leaves no occurrence of the pattern, nor of a marker that was absent, when labels and markers share no starting character |
| ScriptGenerator.ReplaceAll | client/src/components/creator-agent/script-generator.tsx:50-57 | `replace(/p/g, r)` with a replacement at least as long as the pattern never shortens the text, and with a shorter one never lengthens it |
| ScriptGenerator.ReplaceAllChars | client/src/components/creator-agent/script-generator.tsx:50-57 | `replace(/p/g, r)` puts nothing in the text but its own characters and the replacement's |
| ScriptGenerator.CopyPrefix | client/src/components/creator-agent/script-generator.tsx:50-57 | where no occurrence starts in a prefix, the prefix is copied unchanged |
| ScriptGenerator.ReplaceOne | client/src/components/creator-agent/script-generator.tsx:50-57 | the single occurrence of a pattern that does not repeat its first character is replaced, and the text around it kept |
| ScriptGenerator.NoneAcross | client/src/components/creator-agent/script-generator.tsx:50-57 | no marker occurrence straddles a label or another marker placed between two marker-free texts |
| ScriptGenerator.FormatScript | client/src/components/creator-agent/script-generator.tsx:50-57 | the formatted script holds only the script's own characters and the five labels', and is never shorter than the script (each label is at least as long as its marker) |
| ScriptGenerator.FormatScriptMarkerStep | client/src/components/creator-agent/script-generator.tsx:50-57 | a marker after text holding no marker becomes its icon label, the text before it is kept, and what follows is formatted as a script of its own; so in a script with several markers each becomes its label in turn |
| ScriptGenerator.FormatScriptReplacesMarker | client/src/components/creator-agent/script-generator.tsx:50-57 | each of the five markers, between texts holding no marker, becomes its icon label, and the texts around it are kept |
| ScriptGenerator.FormatScriptTwoMarkers | client/src/components/creator-agent/script-generator.tsx:50-57 | a script with two markers, such as a hook and a call to action, shows both labels and keeps the text around them |
| ScriptGenerator.StageStep | client/src/components/creator-agent/script-generator.tsx:50-57 | each of the five `.replace` steps replaces the leading marker only at its own step and otherwise acts on the rest of the script alone |
| ScriptGenerator.StepsFormat | client/src/components/creator-agent/script-generator.tsx:50-57 | the five steps applied in order are `formatScript` |
| ScriptGenerator.ReplaceFirst | client/src/components/creator-agent/script-generator.tsx:50-57 | the first occurrence of a pattern whose first character does not recur in it is replaced, and replacing goes on in the text after it |
| ScriptGenerator.NoneStartsInFront | client/src/components/creator-agent/script-generator.tsx:50-57 | no occurrence of a marker starts in a text without it or in a part the marker is separated from, whatever follows |
| ScriptGenerator.CopiedHead | client/src/components/creator-agent/script-generator.tsx:50-57 | a character copied in front of the replaced rest starts no occurrence that it did not start before replacing |
| ScriptGenerator.FormatScriptRemovesMarkers | client/src/components/creator-agent/script-generator.tsx:50-57 | after formatting, none of the five bracketed markers occurs |
| ScriptGenerator.FormatScriptKeepsPlain | client/src/components/creator-agent/script-generator.tsx:50-57 | a script with no markers is returned unchanged |
| ScriptGenerator.FormatScriptIdempotent | client/src/components/creator-agent/script-generator.tsx:50-57 | formatting twice is formatting once |
| ScriptGenerator.GenerateEnabledIff | client/src/components/creator-agent/script-generator.tsx:123 | the button is enabled exactly when not loading and the key message has a non-whitespace character, so not on the initial form |
| ScriptGenerator.GenerateEnabled | client/src/components/creator-agent/script-generator.tsx:123 | the button is enabled only when not loading and the key message is non-empty |
| ScriptGenerator.InitialForm | client/src/components/creator-agent/script-generator.tsx:34-38 | the form starts with every select chosen and an empty key message |
| VideoResultsTable.ScoreColor | client/src/components/viral-agent/video-results-table.tsx:19-24 | excellent exactly from 90, good exactly for 80..89, fair exactly for 70..79, poor exactly below 70 |
| VideoResultsTable.ScoreColorMonotone | client/src/components/viral-agent/video-results-table.tsx:19-24 | a higher score never gets a lower band |
| VideoResultsTable.StatusColor | client/src/components/viral-agent/video-results-table.tsx:26-33 | ready exactly for "processed", processing exactly for "processing", pending for every other status |
| VideoResultsTable.FormatViews | client/src/components/viral-agent/video-results-table.tsx:35-42 | "M" exactly from a million, "K" exactly for 1000..999999, the plain count below 1000; the scaled value times its scale is the count |
| VideoResultsTable.PlainViewsRoundTrip | client/src/components/viral-agent/video-results-table.tsx:41 | a count below 1000 is shown as a numeral that reads back as the count |
| VideoResultsTable.Render | client/src/components/viral-agent/video-results-table.tsx:44-131 | the empty state exactly for no videos; otherwise one row per video, in order, with its badges and label |
| VideoItem.ScoreColor | client/src/components/dashboard/video-item.tsx:19-24 | excellent from 90, good for 80..89, fair for 70..79, poor below |
| VideoItem.AgreesWithResultsTable | client/src/components/dashboard/video-item.tsx:19-24 | the dashboard and the results table give every score the same badge |
| ScheduledPosts.StatusColor | client/src/components/scheduler-agent/scheduled-posts.tsx:21-28 | posted, scheduled and failed exactly for those statuses; pending for every other, "cancelled" included |
| ScheduledPosts.PostHeading | client/src/components/scheduler-agent/scheduled-posts.tsx:65-66 | "Untitled Post" for a null or empty caption; otherwise the caption's first 50 characters; "..." exactly when the caption is longer than 50 |
| ScheduledPosts.ShortCaptionInFull | client/src/components/scheduler-agent/scheduled-posts.tsx:65-66 | a caption of up to 50 characters is shown whole, with no "..." |
| ScheduledPosts.PostActions | client/src/components/scheduler-agent/scheduled-posts.tsx:78-115 | view always; analyse exactly when posted; edit and delete exactly when scheduled |
| ScheduledPosts.AnalyzeExcludesEdit | client/src/components/scheduler-agent/scheduled-posts.tsx:86-96 | no post offers both analysis and editing |
| ScheduledPosts.Render | client/src/components/scheduler-agent/scheduled-posts.tsx:40-119 | the empty state exactly for no posts; otherwise one row per post, in order |
| CreatorAgentPage.StatusColor | client/src/pages/creator-agent.tsx:123-130 | ready, processing and posted exactly for "ready", "generating" and "posted"; pending for every other status |
| CreatorAgentPage.GenerateBodyOf | client/src/pages/creator-agent.tsx:26-32 | each form field under its snake-case name, unchanged |
| CreatorAgentPage.EnabledFormPassesServerCheck | client/src/pages/creator-agent.tsx:26-32 | a form the button accepts, with its selections made, passes the server's required-field check; the initial selections are made |
| CreatorAgentPage.HandleApprove | client/src/pages/creator-agent.tsx:85-99 | nothing exactly when the list is not loaded or empty; otherwise a status "approved" patch for the first script |
| CreatorAgentPage.ApproveNewest | client/src/pages/creator-agent.tsx:87-93 | on the list as the store orders it, the approved script is one of the newest, and the patch changes only its status and update time |
| SchedulerAgentPage.HandleAddPost | client/src/pages/scheduler-agent.tsx:40-52 | one post of video 1 on TikTok, 24 hours from now, status "scheduled" |
| SchedulerAgentPage.HandleBulkSchedule | client/src/pages/scheduler-agent.tsx:54-82 | exactly two posts, in this order: video 1 on TikTok in 6 hours and video 2 on Instagram in 12, both "scheduled" |
| SchedulerAgentPage.PagePostsStoredScheduled | client/src/pages/scheduler-agent.tsx:40-76 | for each body the page sends, what the store creates once the server accepts it is a scheduled post in the future with the body's video and caption; the bulk posts are in time order |
| SchedulerAgentPage.HandleDeletePost | client/src/pages/scheduler-agent.tsx:105-115 | a single patch of that post setting the status to "cancelled" |
| SchedulerAgentPage.CancelledPostIsInert | client/src/pages/scheduler-agent.tsx:105-109 | a cancelled post keeps every other field, shows as pending and offers only viewing |
| ViralAgentPage.HandleSearch | client/src/pages/viral-agent.tsx:60-98 | the search is recorded first, then exactly two videos are posted, both pending and on the searched platform |
| ViralAgentPage.HandleViewVideo | client/src/pages/viral-agent.tsx:107-116 | analysis of the video's id exactly when it is pending |
| ViralAgentPage.SearchedVideosAwaitAnalysis | client/src/pages/viral-agent.tsx:64-92 | a searched video is stored pending on that platform, so viewing it asks for analysis; once analysed, viewing asks for nothing |
| ViralAgentPage.SampleVideosDisplay | client/src/pages/viral-agent.tsx:64-87 | the first sample shows in millions with an excellent badge, the second in thousands with a good one |

## Left out

- Calendar.DaysInMonth and Calendar.FirstWeekday: JavaScript's `Date` constructor reads years 0 to 99 as 1900 to 1999; the model takes the year as given, which agrees for years from 100 on (the page passes the current year).
- Agent.AgentDatabase.constructor: `CREATE TABLE IF NOT EXISTS` keeps the scripts and the AUTOINCREMENT sequence of an existing database file; the constructor models a fresh file only.
- JsSemantics.ParseInt, Routes.Stats and Routes.GetDashboardStats: JavaScript numbers are IEEE doubles, and the model reads them as unbounded integers and exact reals. Ids that `parseInt` reads above 2^53 and the `current*Id` counters past 2^53 lose precision in the source. The `reduce` sums and the `/ analytics.length` averages round at each step in the source but are exact here. Double rounding and the 2^53 limit are not modelled.
- `DatabaseStorage` (server/storage.ts:599-754) talks to Postgres through a driver that is not visible, and it is the store the server exports. Its lists come in ascending order, unlike `MemStorage`'s; no equivalence of the two is claimed.
- server/seed.ts and the Python `DatabaseManager` are database I/O. The agent's store is a class over sequences. The SQL `ORDER BY` of `get_viral_videos` and `get_scripts` is not modelled: the statistics it feeds are proved independent of row order.
- The calls to the language model and their prompt texts are network calls. Each reply is an input: the parsed reply, or the error.
- app.py (browser automation, a worker thread, sleeps, random earnings) and `run_interactive_mode` (an input loop) are not part of this model.
- Floating point:
  - `toFixed` in `formatViews` is kept as a value and a number of decimals, not as text.
  - Python's `round(avg_engagement, 1)` is not modelled: the mean is exact.
  - Means are exact `real` quotients.
- `formatDateTime` depends on the locale. The timestamps are integers and the current time is a parameter of each operation; the constructor takes one clock reading per seeded row.
- The calendar's "today" is a parameter of `Calendar.CellClass`. The month shown is a (year, month) pair.
- String lengths are counted in code points, not UTF-16 units: `substring(0, 50)` and `length > 50` differ for captions with characters outside the Basic Multilingual Plane.
- Request bodies are typed records. For the POST routes, schema validation is an input result (`Err` for a rejected body). The PATCH and generate bodies are records of optional fields, and JSON `null` is read as absent.
- A stored `Date` goes into JSON as a string. The schema's handling of that string is not modelled.
- The GET list routes only pass on the store's lists, so they are covered by the store's getters. Their 500 paths, and the 500 paths of the PATCH handlers, come from exceptions the in-memory store does not throw.
- Console logging, toasts, react-query cache invalidation, clipboard and downloads are left out.
- Python's `int()` also accepts non-ASCII Unicode digits. The model reads only ASCII digits.
- Storage.MemStorage.GetViralVideos: the order among rows with equal sort keys is not stated; `Array.sort` is stable, but the contract gives only sortedness and the permutation. The same holds for the other list getters.
- Agent.GetDashboardStats: `avg_engagement` is the exact mean, not rounded to one decimal.
- VideoResultsTable.FormatViews: states the scaled value and its number of decimals, not the digits `toFixed` prints.
- Agent.GenerateContentScript: a reply field that is JSON `null` is not modelled. The parsed reply holds each field or lacks it. In Python, `.get('title', 'Generated Script')` returns `None` for an explicit `null`, and the insert into the NOT NULL column then raises an uncaught `IntegrityError`; the model stores the default instead.
- SchedulerAgentPage.PagePostsStoredScheduled: states what the store creates from each body once the server accepts it. Whether `insertScheduledPostSchema` accepts the `scheduled_time` that arrives as a JSON date string is not stated.
- `handleGenerate` in the script generator only passes the five form fields on unchanged. The model uses the form's `GenerateParams` directly, and `CreatorAgentPage.GenerateBodyOf` maps them to the request body.
