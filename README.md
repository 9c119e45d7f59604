# insight-master in Dafny

insight-master is a Google Apps Script web app for accounts on Threads, Meta's text-based social network. It keeps all of its state in the sheets of one Google Sheets workbook. It pulls posts and their metrics from the Threads Graph API and writes them to the sheets. From those rows it computes:

- engagement rates and summaries;
- a weekday-by-hour time analysis;
- a daily growth score, a check-in streak and goals;
- weekly reports and follower history.

It also keeps drafts (including multi-part thread drafts), keyword searches with their cached results, and a watch list of competitors. It asks Google's Gemini for post ideas, reports and rewrites. `doGet` serves the single-page client and `processApiRequest` routes its calls.

This project models the logic of that core in Dafny and proves what it promises. There is one module per source file:

| module | file | what it models |
|---|---|---|
| `Common` | — | Option/Result, JSON values, sequence helpers (filter, count, first/last match, stable sort, take), trimming, ASCII case folding, integer parsing and printing, rounding |
| `Store` | — | one row datatype per sheet, and `Sheet<R>`: a class whose fields are the sheet's presence, header row and data rows, with the in-place operations the code performs (insert, append, overwrite a row, delete a row, replace all rows) |
| `Utils` | Utils.js | the JSON fetch with its status checks, the single retry on HTTP 429, URL normalisation |
| `Settings` | Sheets.js | the settings sheet: reading it, validating and upserting keys, the header and key repairs, creating the standard sheets |
| `Accounts`, `AccountImport` | Accounts.js | the account table, the active-account fallbacks, adding and removing accounts, token-expiry warnings, the import from another workbook |
| `Analytics`, `TimeAnalysis` | Analytics.js | post paging, the new/existing split and its cap, batched insight fetches, the engagement rate, the row merge, the analytics view, the 7×24 time matrix |
| `Retention` | Retention.js | the four growth sub-scores, the once-per-day score upsert, the check-in streak and best hour, goals |
| `Drafts` | Drafts.js | splitting thread text into parts, saving, grouping, toggling and deleting drafts |
| `KeywordSearch` | KeywordSearch.js | the search entry point, query parameters, the style statistics of a search, own-post matches, the result cache and the search history |
| `CompetitorWatch` | CompetitorWatch.js | the competitor list, the watched posts, the choice of posts for the buzz analysis |
| `WeeklyReport` | WeeklyReport.js | the week window, the once-per-week guard, top posts, the follower window, reading reports back |
| `Followers` | Followers.js | the daily follower row (one per day), its daily and weekly change, the history window |
| `Insights` | Insights.js | folding the metric reply into totals, clicks, the demographics |
| `Gemini` | Gemini.js | the fenced-JSON extraction, input checks, the top and worst posts of the report, rate bands, the refinement fallback, the generation log |
| `PostGenerator` | PostGenerator.js | analysis-based generation: top posts, demographics, the bracketed-array extraction, its own generation log; also `generatePostWithAI` of Gemini.js, whose analysis modes hand over to it |
| `Router` | Code.js | the client settings without secrets, the choice of spreadsheet and first screen, the OAuth state round trip, the session-token gate and result wrapping of `processApiRequest` |

Operations that change a sheet are methods on `Sheet<R>` objects. Each of them states the sheet's new rows in terms of the old ones. Loops that only read become methods proved against a function that states their result. Pure calculations are functions. The lemmas then state what the code promises about those functions and states: round trips, invariants that survive each write, and selections described both ways.

Conventions of the model:

- Engagement rates are whole hundredths of a percent (`erCenti`). JavaScript's `Math.round` becomes `Floor(x + 1/2)` over reals.
- Dates are a `Stamp` carrying the milliseconds, the local day number and the local hour.
- The time, uuids, replies from the network and from Gemini, and `JSON.parse` are parameters.

## Notes on the code

- `analyzeBuzzPatterns` computes no statistics. It only chooses posts: those tagged 'バズ', else the 15 most liked. It throws when the account has no watched posts (CompetitorWatch.js:380-388).
- The follower sub-score's baseline is the first non-zero count dated within the last seven days. A zero count earlier in that window is skipped (Retention.js:53-61).

## Model

| member | source | states |
|---|---|---|
| Utils.FetchJson | Utils.js:5-19 | a 2xx status with a parsable body gives the parsed value, and only then; any other status gives the "HTTP <code>: <first 200 characters>" error; a 2xx status with an unparsable body gives the "Invalid JSON response" error |
| Utils.FetchJsonWithRetry | Utils.js:21-31 | the request is repeated, once, exactly when the first answer fails with a rate-limit ("HTTP 429") message; the result is then the second answer's, the wait is `retryDelayMs` or 45000 |
| Utils.RetryExactlyOn429 | Utils.js:25 | for every three-digit status, the rate-limit test matches iff the status is 429 (no other status and no unparsable body passes it) |
| Utils.SuccessNotRetried | Utils.js:22-23 | a 2xx answer with a parsable body is fetched once, without waiting |
| Utils.NormalizeUrl | Utils.js:33-36 | the result is a prefix of the URL without a trailing '/', and only '/' characters were dropped; an empty URL gives "" |
| Utils.NormalizeUrlIdempotent | Utils.js:35 | normalising a normalised URL changes nothing |
| Utils.NormalizeUrlKeepsPath | Utils.js:35 | any number of trailing slashes after a URL not ending in '/' are all removed and nothing else is |
| Store.DeleteRowsBottomUp | Analytics.js:329-337 | deleting every rejected row from the last data row upward leaves exactly the kept rows in their order, reports how many went, and leaves the header row alone |
| Settings.EnsureSheetHeaders | Sheets.js:110-124 | an empty header row receives all required headers; otherwise each required header missing from the row as read is appended; data rows do not change |
| Settings.EnsuredHeadersComplete | Sheets.js:117-123 | existing header columns keep their place and every required header is present afterwards |
| Settings.EnsuredHeadersStable | Sheets.js:118-122 | a header row that already has every required header is left as it is |
| Settings.EnsureSettingsKeys | Sheets.js:129-137 | the rows become the old rows followed by every required (key, default) whose key is not in column A, in the required order |
| Settings.SettingsKeysComplete | Sheets.js:129-137 | afterwards every required key is present and the old rows are untouched |
| Settings.InitializeSheets | Sheets.js:22-105 | each of the ten sheets ends up present; a missing one is created with its header row (設定 with its twelve initial keys) and an existing one only gains its missing header columns or settings keys |
| Settings.EnsureSettingsSheet | Sheets.js:86-100 | one step of the walk for 設定: created with the initial keys when missing, else `ensureSettingsKeys_` |
| Settings.EnsureSheet | Sheets.js:86-103 | one step of the walk for a sheet with headers: created with its headers and no data when missing, else `ensureSheetHeaders_` |
| Settings.GetSettings | Sheets.js:143-156 | the settings read equal the map built from the rows (none for a missing sheet) |
| Settings.SettingsOfDomain | Sheets.js:149-153 | a key is in the settings iff it is not blank and some row carries it |
| Settings.SettingsOfLastRowWins | Sheets.js:149-153 | a key reads the value of the last row that carries it |
| Settings.SaveSettings | Sheets.js:158-196 | a supplied app_id that is not blank after trimming must be 10-20 digits, a supplied app_secret 20-40 lowercase hex characters, else the request is rejected with "入力形式が正しくありません" and nothing is written (the sheet may have been inserted); otherwise every non-null value is written over the first row with its key or appended |
| Settings.WriteParams | Sheets.js:178-193 | the write loop leaves exactly the rows the key-by-key upsert describes, even though it searches the rows as read before the first write |
| Settings.WriteParam | Sheets.js:179-192 | one key: the first row of the rows as read with that key gets the value, else a (key, value) row is appended below the last row |
| Settings.FindKey | Sheets.js:181-187 | the search finds the first row with the key, if any |
| Settings.SameFirstKey | Sheets.js:175-187 | rows appended earlier in the same save never carry a key still to be written, so the stale search finds the same row as a fresh one |
| Settings.UpsertIsMapUpdate | Sheets.js:179-192 | with unique keys, writing one key is exactly an update of the settings map, and keys stay unique |
| Settings.SaveThenGet | Sheets.js:143-193 | reading the settings after a save gives the old settings updated with every non-null supplied value, in order |
| Accounts.AccountsOf | Accounts.js:28-50 | every listed account has an id and there are no more accounts than rows |
| Accounts.AccountsListed | Accounts.js:34-49 | an account is listed iff it is a data row whose id cell is not blank |
| Accounts.ActiveIsListed | Accounts.js:55-89 | whenever some account is listed, the active account chosen is a stored, listed one |
| Accounts.GetActiveAccount | Accounts.js:55-89 | with no active id: the first account (persisted as active), else the legacy 'default' account of 設定 when it has a token and a user id, else none; with an active id: that account, else the first account (persisted), else none; settings change only when a fallback is persisted |
| Accounts.ActiveChoiceStable | Accounts.js:59-64 | after the fallback is persisted, choosing again gives the same account and writes nothing |
| Accounts.SetActiveAccount | Accounts.js:110-113 | `active_account` is written through `saveSettings` |
| Accounts.GetActiveAccountAuth | Accounts.js:95-105 | the active account's token and user id; without an active account, the token and user id of 設定 when it has a token, else none |
| Accounts.AccountRowOf | Accounts.js:129-139 | the written row always has an id: the given one or 'acc-' + userId |
| Accounts.AddAccountWrongRow | Accounts.js:122-145 | with a blank-id row above the stored account, the code as written overwrites the blank row, so the list holds the new and the stale record of the same user; the corrected update leaves one record |
| Accounts.AddedRowsUpdatesList | Accounts.js:122-147 | with the matching account's own row overwritten, the account list either has the first account of that user replaced in place or the new account appended; no other account moves or changes |
| Accounts.AddAccount | Accounts.js:118-151 | a missing sheet is an error and nothing changes; otherwise the row of the account with the same user id is overwritten or a row appended, the id becomes active, and `isNew` holds iff no account matched. This is the corrected write (see Findings): the code as written writes to the row at the account's index in the list without blank-id rows |
| Accounts.RemoveAccount | Accounts.js:156-177 | a missing sheet, an empty table or an unknown id is an error and changes nothing; when the id is found the removal always succeeds: the first row with the id is deleted and the first remaining account (or '') becomes active |
| Accounts.DaysLeft | Accounts.js:299 | the days left are the ceiling of the time left in days |
| Accounts.TokenWarnings | Accounts.js:291-311 | at most one warning per account; each reports 0 to 5 days left and is expired exactly when 0 days are left |
| Accounts.CheckTokenExpiry | Accounts.js:291-311 | the `forEach` over the listed accounts (blank-id rows skipped) builds exactly those warnings |
| Accounts.WarnedWithinFiveDays | Accounts.js:299-304 | for one expiry time: `Math.ceil` of the days left is at most 5 iff the token expires no more than five days from now, and at most 0 iff it expires no later than now |
| Accounts.WarnedIff | Accounts.js:296-308 | a warning is listed iff it is the warning of a listed account whose token expires within five days, carrying that account's id, username, days left (at least 0) and expired flag |
| Accounts.WarningsInOrder | Accounts.js:296-308 | the warnings keep the order of the accounts: the warnings of a list followed by more accounts are its own warnings followed by theirs |
| AccountImport.ImportAccountFromSheet | Accounts.js:182-217 | an unreadable source is the "インポートエラー: " error; a source without token or user id is refused; a user already listed is refused; a missing accounts sheet is an error; with a present sheet and an unlisted user the import always succeeds: the account is appended as a new row, made active, and reported under its username (else its user id); a refusal changes nothing |
| AccountImport.NoListedUser | Accounts.js:190-195 | when no listed account has the user id, `addAccount` finds no row to overwrite |
| AccountImport.NormalizeSheetId | Accounts.js:223-231 | a missing or empty id is the "スプレッドシートIDが必要です" error; any accepted id is 20-60 characters of [A-Za-z0-9_-] |
| AccountImport.PlainIdAccepted | Accounts.js:225-231 | a bare valid id is accepted unchanged |
| AccountImport.UrlIdExtracted | Accounts.js:226-227 | the id after the first "/d/" of a URL is the one extracted |
| AccountImport.SpreadsheetUrlAccepted | Accounts.js:226-231 | the id inside a spreadsheet's "…/d/<id>/edit" address is accepted |
| AccountImport.Window | Accounts.js:255-257 | at most 100 rows of at most 10 cells are read from each sheet |
| AccountImport.FirstHitWins | Accounts.js:259-281 | a key is found iff some cell yields it, and its value is the first one met in sheet, row, column order; later hits never override it |
| AccountImport.FindAlias | Accounts.js:264-267 | the label matches iff it equals one of the key's aliases ignoring case |
| AccountImport.ScanKey | Accounts.js:262-278 | one key on one cell: skipped once found, else recorded from the right-hand cell or the cell below when the label matches |
| AccountImport.ScanSheets | Accounts.js:250-283 | the nested scan records exactly the first hit of every key over all sheets |
| AccountImport.ImportFromExternalSheet | Accounts.js:222-286 | an invalid id is its error; a workbook that cannot be opened is the access error; otherwise `found` holds what the scan records |
| Analytics.CollectPosts | Analytics.js:21-37 | the paging loop yields exactly the posts of the pages the listing reaches within five requests, ends at the first page without `paging.next`, fails with the error a page carries or a failed request, and makes at most five requests |
| Analytics.PagesFetched | Analytics.js:26-37 | the number of listing requests never exceeds the five-page budget and is at least one |
| Analytics.SinglePage | Analytics.js:29-34 | a first page without `paging.next` is the only one requested and its posts are the listing |
| Analytics.IndexStoredPosts | Analytics.js:49-62 | the scan of the stored rows builds `RowIndex`: each stored post id of the account mapped to its row (a later row of the same id wins) |
| Analytics.RowIndex | Analytics.js:53-61 | every indexed id is non-blank and points at a row of the active account holding that post id |
| Analytics.RowIndexComplete | Analytics.js:56-60 | every non-blank post id of the account is indexed, at that row or at a later one holding the same id |
| Analytics.SplitPosts | Analytics.js:70-76 | the listing splits into the posts not stored for the account and the stored ones, each in listing order |
| Analytics.NewPostsAreTargets | Analytics.js:79-81 | every new post of the listing gets its insights fetched |
| Analytics.StoredTargetsCapped | Analytics.js:79-81 | the stored posts among the targets are exactly the first 50 stored posts in listing order |
| Analytics.SetMetric | Analytics.js:108 | setting one metric changes that metric and no other |
| Analytics.FoldMetricsLastWins | Analytics.js:104-113 | each metric ends as the last value the reply gives for it, or 0 |
| Analytics.FetchInsights | Analytics.js:87-124 | the targets go out in consecutive batches of five (the last possibly shorter) covering every target once in order; one sleep separates two batches and none follows the last; every target gets a metrics record, all zeros when its reply does not parse or has no `data` |
| Analytics.FetchBatch | Analytics.js:102-117 | a batch adds a metrics record for each of its posts and changes no other record |
| Analytics.ErCenti | Analytics.js:137-140 | the rate, in hundredths of a percent, is the integer nearest to 10000 · (likes + replies + reposts + quotes) / views, halves up; 0 without views; shares never count |
| Analytics.ErBounds | Analytics.js:137-140 | the rate lies between 0 and 100.00 when the interactions do not exceed the views |
| Analytics.Refreshed | Analytics.js:144-154 | overwriting stored rows keeps the number of rows and every cell but the seven metric cells and `fetched_at` |
| Analytics.WritePosts | Analytics.js:128-168 | every listed post with insights overwrites its indexed row or is appended as a 16-column row in one block after the loop; the counts returned are the posts appended and the posts overwritten |
| Analytics.RefreshKeepsOtherAccounts | Analytics.js:144-154 | rows of other accounts are never overwritten |
| Analytics.UnfetchedPostNotWritten | Analytics.js:133-134 | a listed post without an insight record leaves no row |
| Analytics.FetchAndStorePostAnalytics | Analytics.js:10-177 | no token is the "認証が必要です" error; a listing failure or a missing sheet is an error that writes nothing; otherwise the sheet holds the refreshed stored rows followed by the new rows, and the counts are the listing size, the appended and the overwritten posts |
| Analytics.CollectWindow | Analytics.js:206-240 | the loop keeps exactly the active account's rows inside the period (a row without timestamp always inside), in sheet order, and sums their counts |
| Analytics.GetAnalyticsData | Analytics.js:182-258 | a missing or empty sheet gives no posts and an empty summary; otherwise the kept rows sorted by rate and a summary whose rate is taken over the summed counts, 0 with no posts or no views |
| Analytics.SumMetricsConcat | Analytics.js:234-239 | totals add up over concatenation, so the summary does not depend on how rows are grouped |
| Analytics.ViewIsSelection | Analytics.js:206-242 | the listing is a permutation of the account's rows inside the period, sorted by rate descending, and holds nothing else |
| TimeAnalysis.CellAverage | Analytics.js:317-319 | a cell's average is the integer nearest to the mean rate (hundredths), halves up, and 0 for an empty cell |
| TimeAnalysis.AverageMatrix | Analytics.js:312-322 | the matrix is 7 weekdays by 24 hours |
| TimeAnalysis.Tally | Analytics.js:294-307 | the tally loop gives, per cell, the sum and the number of the account's dated posts in it, and the number of such posts |
| TimeAnalysis.CellsPartitionPosts | Analytics.js:294-307 | every counted post lands in exactly one of the 168 cells: the cell counts add up to the post count |
| TimeAnalysis.MatrixRows | Analytics.js:347-352 | seven rows are written, one per weekday, Sunday first |
| TimeAnalysis.GenerateTimeAnalysis | Analytics.js:267-380 | a missing sheet is an error; no rows or no dated rows of the account return failure and write nothing; otherwise exactly the account's old rows of 時間帯分析 are deleted bottom-up (the sheet inserted if missing), the header row is written only into an empty sheet, and the seven new rows are appended |
| TimeAnalysis.GetTimeAnalysisData | Analytics.js:385-406 | the matrix maps each weekday name of the account's rows to its 24 cells, the lowest row winning; `hasData` holds iff it is non-empty |
| TimeAnalysis.KeptRowsInvisible | Analytics.js:397-402 | rows of other accounts add nothing to an account's matrix |
| TimeAnalysis.DayNamesDistinct | Analytics.js:282 | the seven weekday names differ pairwise |
| TimeAnalysis.GeneratedReadsBack | Analytics.js:329-406 | what the generation writes is read back exactly: the seven weekdays of the new matrix and nothing else of the account |
| Retention.ActingAccount | Retention.js:42-43 | the active account's id, else the `account_id` setting, else `user_id`, else 'default': never blank without an active account |
| Retention.FollowerScore | Retention.js:63-69 | the follower sub-score lies in 0..25; 12 without a baseline but with a positive latest count, 0 with neither |
| Retention.FollowerScoreScale | Retention.js:64-66 | a growth of -2 % or less scores 0, +5 % or more scores 25, no change scores 7 |
| Retention.FollowerScoreMonotone | Retention.js:63-69 | more followers never lower the follower sub-score |
| Retention.ScanFollowers | Retention.js:53-62 | the scan yields the first non-zero and the last count of the account dated within the week |
| Retention.SpanIgnoresOutside | Retention.js:56-58 | rows of other accounts or dated before the window move neither count |
| Retention.ErTrendScore | Retention.js:95-102 | the ER-trend sub-score lies in 0..25; with an earlier rate, -2 points or worse scores 0, +2 or better 25, no change 13; without one, the current rate on a 0-6 % scale |
| Retention.ErTrendMonotone | Retention.js:95-102 | a better rate this week never lowers the ER-trend sub-score |
| Retention.PreviousEr | Retention.js:83-94 | the summing loop gives the aggregate rate of the posts dated before seven days ago, 0 without any or without views |
| Retention.PrevErIgnoresRecent | Retention.js:83-85 | posts of the current week do not enter the earlier week's rate |
| Retention.FrequencyScore | Retention.js:111 | the frequency sub-score lies in 0..25: 0 for no post, 25 for seven or more |
| Retention.CountAiUses | Retention.js:117-126 | the generations counted are the log rows since seven days ago whose account is blank or the acting one |
| Retention.AiUsageScore | Retention.js:128 | the AI sub-score lies in 0..25: 0 for no generation, 25 for ten or more |
| Retention.CountScoresMonotone | Retention.js:111-128 | more posts and more generations never lower their sub-scores |
| Retention.BreakdownOf | Retention.js:45-132 | each sub-score lies in 0..25, so the total lies in 0..100 |
| Retention.SaveScore | Retention.js:137-153 | the first row of the account dated today is overwritten, else today's row is appended |
| Retention.Upserted | Retention.js:137-153 | the save adds at most one row, the new row is in the sheet, and every row of another day or account stays where it was |
| Retention.UpsertOnePerDay | Retention.js:137-153 | after the save the account has exactly one row for today when it had at most one before, and never more rows for today than before |
| Retention.PreviousIgnoresToday | Retention.js:137-164 | the previous score read from the rows before the save equals the one read after it: today's row is never dated a week ago |
| Retention.SaveAndCompare | Retention.js:135-164 | 成長スコア is created when missing, today's row saved, and the previous score is that of the account's last row dated on or before a week ago, else 0 |
| Retention.CalculateGrowthScore | Retention.js:41-178 | the answer holds the total of the four sub-scores, the previous score and their difference, and 成長スコア holds today's row saved as above |
| Retention.OwnRows | Retention.js:189-199 | the loop keeps the account's score rows in sheet order |
| Retention.GetGrowthScore | Retention.js:180-211 | a missing or empty sheet answers zeros; otherwise the account's rows newest first, the newest giving the current score and breakdown and the next the previous score |
| Retention.CurrentIsNewest | Retention.js:200-205 | the current score is held by a row of the account at least as recent as every row of the account |
| Retention.ScanStreak | Retention.js:241-257 | the backward scan gives `Streak`: the streak of the account's last check-in before today plus one when that check-in was yesterday, else 1 |
| Retention.StreakNextDay | Retention.js:249-251 | a check-in the day after the account's last one counts one more day |
| Retention.StreakAfterGap | Retention.js:252-254 | after a missed day the streak starts again at 1 |
| Retention.StreakIgnoresOthers | Retention.js:246-247 | rows of other accounts and undated rows do not touch the streak |
| Retention.BestHourIsFirstMaximum | Retention.js:260-274 | the recommended hour is the first hour with the highest rate when some rate is positive, else 21 |
| Retention.PickBestHour | Retention.js:269-274 | the hour loop yields the first strict maximum |
| Retention.RecommendedHour | Retention.js:262-274 | the hour comes from today's weekday row of the time matrix, 21 without one |
| Retention.HourLabelReadsBack | Retention.js:275 | the zero-padded "HH:00" label has five characters and reads back as its hour |
| Retention.DailyCheckIn | Retention.js:217-320 | チェックイン is created when missing; today's stored check-in of the account is returned without a write; otherwise the new check-in (streak, hour, generated advice or a fallback) is appended once and returned |
| Retention.Percentage | Retention.js:377 | the percentage is at most 100, and 0 without a positive target |
| Retention.GoalReachedIff | Retention.js:377-381 | with a positive target, the percentage is 100 exactly when the progress is at least 99.5 % of the target |
| Retention.CollectOpenGoals | Retention.js:333-347 | the first loop keeps exactly the account's goals not yet achieved, in sheet order |
| Retention.ProgressByType | Retention.js:350-375 | a follower goal measures the followers gained since it was set, a post goal the posts of the last 30 days, an ER goal the week's rate rounded to one decimal; other types keep their stored value |
| Retention.ScanProgress | Retention.js:353-367 | the follower gain is the last count minus the first non-zero count of the account since the goal's creation |
| Retention.ProgressOfGoal | Retention.js:351-375 | one goal's progress as the `forEach` computes it |
| Retention.GoalProgress | Retention.js:377-381 | one goal's view: its progress, percentage and the just-achieved flag |
| Retention.ViewGoals | Retention.js:350-382 | the views of the open goals, in order |
| Retention.GetGoals | Retention.js:326-385 | the goals listed are the account's open goals with their progress |
| Retention.GoalsListed | Retention.js:333-382 | every goal listed is an open goal of the account, every open goal of the account is listed, and a goal is flagged just achieved iff its progress reaches 99.5 % of a positive target |
| Retention.GoalTargetOfString | Retention.js:395 | a target written as digits is read back as itself |
| Retention.DefaultLabel | Retention.js:397-404 | a goal without a label gets a non-blank one by type |
| Retention.NewGoal | Retention.js:393-407 | the appended goal belongs to the acting account, is open with progress 0, has a non-blank type and label, keeps a given label, and its id is 'goal_' and the first eight characters of the uuid |
| Retention.SetGoal | Retention.js:387-410 | 目標 is created when missing and exactly the new goal is appended; its id is answered |
| Retention.SetGoalListed | Retention.js:333-347 | a goal just set is listed last, after the goals listed before |
| Retention.DeleteGoal | Retention.js:412-426 | an empty id, a missing sheet and an unknown id are errors that change nothing; otherwise the first row with the id is deleted, whichever account it belongs to |
| Retention.DeleteRemovesOne | Retention.js:419-423 | deleting removes exactly one row with the id: later duplicates stay |
| Retention.DeleteUndoesSet | Retention.js:407-423 | deleting a goal just set under a fresh id gives back the rows before it |
| Drafts.ParseThreadParts | Drafts.js:69-98 | the parts are either the text unchanged or two to five trimmed, non-blank parts; an empty text gives [""]. This is the corrected split (see Findings): it also removes the 【親】 marker, which the pattern as written leaves in the parent part |
| Drafts.ThreadTextRoundTrip | Drafts.js:72-83 | a thread laid out as '【親】parent' and '【返信k】reply' lines splits back into its parent and replies, at most five parts kept (with the marker pattern corrected, see Findings) |
| Drafts.ParentMarkerKeptAsWritten | Drafts.js:77 | with the pattern as written, the parent part keeps its 【親】 marker: only 【親投】 and 【親投稿】 are matched |
| Drafts.ParentMarkerKeptExample | Drafts.js:77 | "【親】A\n【返信1】B" parses as ["【親】A", "B"] as written and as ["A", "B"] with the pattern corrected |
| Drafts.NoMatchAtParentMarker | Drafts.js:77 | the pattern as written matches nothing at 【親】 |
| Drafts.ParagraphsRoundTrip | Drafts.js:85-94 | text without thread markers whose paragraphs are separated by blank lines splits into those paragraphs, at most five kept |
| Drafts.ParseByParagraphs | Drafts.js:85-94 | without two marked parts, the text splits at runs of blank lines when that gives two non-blank parts or more |
| Drafts.WithThreadColumns | Drafts.js:13-22 | `thread_id` and `thread_order` are appended exactly when `thread_id` is missing; existing headers keep their columns |
| Drafts.ThreadRows | Drafts.js:34-49 | a saved thread has one row per part in order: the first 'thread_parent', the others 'thread_reply', all 'unused', of the account, sharing one thread id, with the part's index as thread order and distinct draft ids |
| Drafts.BuildThreadRows | Drafts.js:34-49 | the loop builds exactly those rows |
| Drafts.PartIdsDiffer | Drafts.js:36 | parts of different index get different draft ids |
| Drafts.SaveDraft | Drafts.js:8-64 | a missing sheet is an error and nothing changes; otherwise the thread columns are added if missing and a thread is appended as its part rows, anything else as one 'single' (or given type) row, and the thread id and count or the draft id are answered. The parts come from the corrected ParseThreadParts (see Findings) |
| Drafts.Listed | Drafts.js:122-125 | the drafts kept have an id, belong to the account and have the requested status |
| Drafts.GroupingSpec | Drafts.js:122-157 | the grouping loses no draft and invents none: singles are the unthreaded drafts in order, every thread has exactly one group holding its drafts in order, and no two groups share an id |
| Drafts.GroupRows | Drafts.js:122-157 | the `forEach` over the rows builds exactly that grouping of the kept drafts |
| Drafts.CollectEntries | Drafts.js:160-165 | the entries are the singles followed by one entry per thread, its parts sorted by thread order |
| Drafts.GetDrafts | Drafts.js:103-174 | the listing is the entries sorted newest first; none without the sheet |
| Drafts.DraftsOf | Drafts.js:160-173 | the listing is sorted newest first, and empty without the sheet |
| Drafts.DraftsShape | Drafts.js:122-171 | every entry is a single unthreaded listed draft or a thread entry of listed drafts sharing its id, in thread order |
| Drafts.DraftListed | Drafts.js:122-171 | conversely every wanted row is listed: as a single when it has no thread id, else inside its thread's entry |
| Drafts.Flip | Drafts.js:205 | 'unused' becomes 'used' and anything else 'unused': the status always changes |
| Drafts.Toggled | Drafts.js:199-209 | only the draft and the rows of its thread get the other status; nothing else changes |
| Drafts.ToggleTwice | Drafts.js:190-209 | toggling the same draft twice restores every 'used' or 'unused' status |
| Drafts.FindTarget | Drafts.js:190-196 | the first scan gives the thread id of the first row with the draft id, '' without a thread column |
| Drafts.FlipMatching | Drafts.js:198-209 | the second scan flips every matching row and reports whether any matched |
| Drafts.ToggleDraftStatus | Drafts.js:179-213 | a missing sheet or one without data rows is an error; otherwise the matching rows flip, and it fails with "下書きが見つかりません" exactly when nothing matched |
| Drafts.WithoutDraft | Drafts.js:237-248 | no row of the draft or of its thread survives the delete |
| Drafts.DeleteKeepsOthers | Drafts.js:237-248 | a row survives exactly when it is neither the draft nor a row of its thread, in its order |
| Drafts.DeleteDraft | Drafts.js:218-252 | a missing sheet or one without data rows is an error; otherwise the matching rows are deleted bottom-up, and it fails exactly when nothing was deleted |
| Drafts.DeleteUndoesSave | Drafts.js:237-248 | deleting any part of a thread just saved removes that whole thread and nothing else |
| KeywordSearch.SearchLimit | KeywordSearch.js:75 | the limit lies in 1..100; a missing, unparsable or zero limit is 25, a limit in range is kept, a negative one becomes 1 |
| KeywordSearch.BuildQuery | KeywordSearch.js:70-99 | the query has a limit in 1..100; `since` is sent iff given and at least 1688540400, and then unchanged; `until` iff given and non-zero; the media type iff given and not 'ALL'; the author with one leading '@' stripped |
| KeywordSearch.TallyCounts | KeywordSearch.js:149-189 | read as a dictionary, the counter holds exactly the keys counted, each with the number of its occurrences |
| KeywordSearch.TallyTotal | KeywordSearch.js:149-153 | the counts add up to the number of keys counted |
| KeywordSearch.CountMedia | KeywordSearch.js:149-153 | the media loop counts every post under its media type, 'TEXT' by default |
| KeywordSearch.CountAuthors | KeywordSearch.js:186-189 | the author loop counts every post that has a username under it |
| KeywordSearch.MeasureTexts | KeywordSearch.js:156-170 | the text-length loop gives the buckets, the number of posts with text and the rounded average length over those posts |
| KeywordSearch.BucketsCoverTexts | KeywordSearch.js:159-169 | every post with text falls in exactly one length bucket (≤50, ≤150, ≤300, longer) and posts without text in none |
| KeywordSearch.CountHours | KeywordSearch.js:173-183 | the hour loop over 24 zero-initialised buckets gives the histogram of the JST hours |
| KeywordSearch.HourBucketsCount | KeywordSearch.js:173-183 | bucket h counts exactly the posts whose stamp falls in JST hour h, (UTC hour + 9) mod 24 |
| KeywordSearch.CountFlags | KeywordSearch.js:196-200 | the loop counts the replies and the quote posts |
| KeywordSearch.Rate | KeywordSearch.js:209-210 | a rate of a count not above the total lies in 0..100, 100 when every post counts, 0 for no posts |
| KeywordSearch.TopAuthorsBounded | KeywordSearch.js:190-193 | the top authors are sorted by count descending, at most ten, and their counts add up to at most the number of posts |
| KeywordSearch.TopAuthorCount | KeywordSearch.js:190-193 | each top author posted in the input and is listed with the number of their posts |
| KeywordSearch.StylesFacts | KeywordSearch.js:146-211 | for a non-empty input: the total is the number of posts, the media counts add up to it, the buckets add up to the posts with text, 24 hour buckets each counting its hour, at most ten sorted top authors, rates in 0..100 |
| KeywordSearch.AnalyzeStyles | KeywordSearch.js:137-212 | the statistics the loops compute are those above; an empty input gives all-zero or empty fields |
| KeywordSearch.MyPostsListed | KeywordSearch.js:240-264 | a post is listed exactly when it is a row of the account whose text or topic tag contains the keyword in any letter case |
| KeywordSearch.MyPostsSorted | KeywordSearch.js:243-266 | the list is sorted by engagement rate descending and holds one post per matching row |
| KeywordSearch.SearchKeyword | KeywordSearch.js:9-65 | no token, then a blank keyword, are errors that change nothing; a successful search answers the posts with their style statistics, replaces the keyword's cached results and records the search with the number of posts; a failed search without a Gemini key is the search error with the key hint; otherwise the fallback answers the user's own matching posts and the analysis text, which never fails, and records the search with the number of those posts, caching nothing |
| KeywordSearch.SearchedHeadsHistory | KeywordSearch.js:375-387 | the search just recorded is the first entry of the account's history |
| KeywordSearch.ResultRows | KeywordSearch.js:361-371 | one row per post found, in order, its text cut to 500 characters |
| KeywordSearch.StoreResults | KeywordSearch.js:348-373 | a missing sheet is left alone; otherwise the account's earlier rows for the keyword are deleted bottom-up and one row per post is appended |
| KeywordSearch.StoreThenSaved | KeywordSearch.js:410-429 | reading the cache back after storing a search gives exactly the posts found, in order, with text cut to 500 characters |
| KeywordSearch.StoreKeepsOthers | KeywordSearch.js:352-358 | storing one search leaves the cached results of every other account and keyword as they were |
| KeywordSearch.AddHistory | KeywordSearch.js:375-387 | a missing sheet is left alone; otherwise the rows of the same account, keyword and mode are deleted bottom-up and the new row appended |
| KeywordSearch.HistoryOnePerSearch | KeywordSearch.js:380-386 | after adding, the searched (account, keyword, mode) has exactly one row and every other triple keeps its count |
| KeywordSearch.NewestReversed | KeywordSearch.js:396-404 | the account's history newest first is its rows in reverse sheet order |
| KeywordSearch.GetSearchHistory | KeywordSearch.js:389-408 | the backward scan that stops at 20 entries gives the account's newest 20 searches |
| KeywordSearch.ClearHistory | KeywordSearch.js:474-485 | the rows left are exactly those of other accounts, in their order |
| KeywordSearch.ClearedHistory | KeywordSearch.js:480-483 | after clearing, the account has no history and every other account's history is as it was |
| KeywordSearch.PartitionCleared | KeywordSearch.js:495-499 | the loop keeps the rows not cleared, in order, and counts the others |
| KeywordSearch.ClearSaved | KeywordSearch.js:487-504 | the rows left are those not of the account (and keyword, when one is given), and the count reported is the number of the others |
| KeywordSearch.ClearedSplit | KeywordSearch.js:495-499 | the deleted count and the kept rows make up the whole sheet |
| KeywordSearch.ClearedSavedNothing | KeywordSearch.js:487-504 | after clearing, nothing is saved for the cleared keyword, or for any keyword when none was given |
| KeywordSearch.ClearedSavedKeepsOthers | KeywordSearch.js:497 | clearing one account's cache leaves the saved results of other accounts untouched |
| KeywordSearch.TopEntryCount | KeywordSearch.js:190-192 | an entry among the first ten of the sorted counter is a key counted with its number of occurrences |
| KeywordSearch.ListedIsMatch | KeywordSearch.js:244-249 | every listed post comes from a row of the account that mentions the keyword |
| KeywordSearch.MatchIsListed | KeywordSearch.js:244-264 | every row of the account that mentions the keyword is listed |
| KeywordSearch.StoredRowsFound | KeywordSearch.js:352-371 | the cached rows of a search just stored are exactly the rows appended for it |
| KeywordSearch.NewestKeepsOthers | KeywordSearch.js:480-483 | dropping rows of other accounts leaves the account's history as it was |
| CompetitorWatch.AddCompetitor | CompetitorWatch.js:9-36 | an empty name (after trimming and stripping one '@'), a missing sheet and a name the account already lists (ignoring case) are errors that change nothing; otherwise one nine-column row with a 'comp_' id, category '同業' by default and the follower count as `parseInt` without a radix reads it (hexadecimal behind "0x"), or 0, is appended |
| CompetitorWatch.AddKeepsUnique | CompetitorWatch.js:17-34 | appending a competitor the account does not list yet keeps every account's list free of case-insensitive duplicates |
| CompetitorWatch.WatchCountIsCount | CompetitorWatch.js:63-70 | the counter holds, for every user, the number of the account's watch rows whose user name matches exactly |
| CompetitorWatch.CountWatches | CompetitorWatch.js:62-68 | the `countMap` loop builds that counter |
| CompetitorWatch.OwnCompetitors | CompetitorWatch.js:46-58 | the loop keeps exactly the account's competitor rows, in order |
| CompetitorWatch.GetCompetitors | CompetitorWatch.js:38-74 | the listing over the present sheets is the account's competitors with their watch counts; a missing or header-only sheet gives none |
| CompetitorWatch.CompetitorsListed | CompetitorWatch.js:46-72 | one entry per competitor row of the account, each taken from such a row, with the number of the account's watch rows about that user when the watch sheet has rows |
| CompetitorWatch.UpdateCompetitor | CompetitorWatch.js:76-95 | a missing id, a missing sheet and an unknown id are errors that change nothing; otherwise the first row with the id is updated and nothing else, a supplied follower count read as `parseInt` without a radix reads it ("0x10" is 16), or 0 |
| CompetitorWatch.UpdateWritesGiven | CompetitorWatch.js:84-90 | an update writes exactly the supplied fields, a follower count together with its time stamp, and never the id, the account or the user name |
| CompetitorWatch.UpdateKeepsUnique | CompetitorWatch.js:82-92 | an update keeps the number of rows, touches only the first row with the id and keeps every account's list free of duplicates |
| CompetitorWatch.WithoutLastRemovesOne | CompetitorWatch.js:102-107 | deleting drops only the last matching row: the rows before and after it are untouched and the matches fall by one |
| CompetitorWatch.WithoutLastUndoesAppend | CompetitorWatch.js:102-107 | deleting by the id of the row just appended gives back the rows before it |
| CompetitorWatch.DeleteCompetitor | CompetitorWatch.js:97-109 | a missing sheet and an unknown (or undefined) id are errors that change nothing; otherwise the last row with the id is deleted |
| CompetitorWatch.SaveWatchPost | CompetitorWatch.js:114-156 | an empty user name or text and a missing watch sheet are errors that change nothing; otherwise the thirteen-column row (media type upper-cased, 'TEXT' by default) is appended, with likes, replies and reposts read as `parseInt` without a radix reads them, or 0, and the competitor registered when the account does not list it |
| CompetitorWatch.AutoRegisteredListed | CompetitorWatch.js:140-153 | after saving, the account lists the competitor, and the automatic registration keeps every account's list free of duplicates |
| CompetitorWatch.CollectWatch | CompetitorWatch.js:166-187 | the loop with its `continue`s keeps exactly the rows of the account, of the requested user and holding the requested tag text |
| CompetitorWatch.GetWatchPosts | CompetitorWatch.js:158-190 | the listing over the present sheet is that selection sorted newest first; a missing or header-only sheet gives none |
| CompetitorWatch.WatchPostsListed | CompetitorWatch.js:166-188 | a row is listed exactly when it is the account's, of the requested user and holds the tag text, ignoring case; the list is sorted by creation time descending |
| CompetitorWatch.DeleteWatchPost | CompetitorWatch.js:192-204 | a missing sheet and an unknown id are errors that change nothing; otherwise the last row with the id is deleted |
| CompetitorWatch.BuzzPrefersTagged | CompetitorWatch.js:382 | when the account has posts tagged 'バズ', exactly those are chosen |
| CompetitorWatch.NoTaggedPosts | CompetitorWatch.js:382-384 | without tagged posts the tagged listing is empty, so the fallback is taken |
| CompetitorWatch.NoPostsIff | CompetitorWatch.js:385-386 | the unfiltered listing is empty exactly when the account has no watch rows |
| CompetitorWatch.BuzzFallback | CompetitorWatch.js:384-388 | without tagged posts the choice is an error exactly when the account has no posts, and otherwise its most liked posts |
| CompetitorWatch.TopLikedFacts | CompetitorWatch.js:387 | the fallback holds between one and 15 of the posts, and no post left out has more likes than one chosen |
| WeeklyReport.WeekEnd | WeeklyReport.js:22-23 | `weekEnd` is a Sunday, at most six days before today (today itself on a Sunday) |
| WeeklyReport.WeekStart | WeeklyReport.js:24-25 | `weekStart` is the Sunday seven days before `weekEnd` |
| WeeklyReport.WeekEndUnique | WeeklyReport.js:22-23 | every day of one Sunday-to-Saturday week maps to the same `weekEnd`, so every run of that week sees the same window |
| WeeklyReport.ReportAccount | WeeklyReport.js:29 | the report's account is never empty: `account_id`, else `user_id`, else 'default' |
| WeeklyReport.AppendedIsFound | WeeklyReport.js:33-37 | the row just appended is what the once-per-week guard of a later run finds |
| WeeklyReport.AppendKeepsOnePerWeek | WeeklyReport.js:33-98 | appending only when the guard finds nothing keeps one report per week and account |
| WeeklyReport.TopPosts | WeeklyReport.js:45-51 | there are min(3, number of posts with a positive rate) top posts |
| WeeklyReport.TopPostsFacts | WeeklyReport.js:45-51 | each top post is a post with a positive rate, its text cut to 100 characters, and they are sorted by rate descending |
| WeeklyReport.TopPostsAreBest | WeeklyReport.js:46-48 | a post with a positive rate left out of the top posts rates no higher than any of the three chosen |
| WeeklyReport.SpanOfSnoc | WeeklyReport.js:61-64 | one more row of the week becomes the end count, and the start count while that is still zero |
| WeeklyReport.WeekSpanOfRows | WeeklyReport.js:58-65 | the start count is the first non-zero count of the account's rows dated in the week, the end count the last one |
| WeeklyReport.ScanStopsAtUndated | WeeklyReport.js:54-67 | once the scan reaches a row of the account whose date does not format, the exception ends it and later rows do not count |
| WeeklyReport.WeekStep | WeeklyReport.js:58-65 | one more row that does not throw updates the counts as the selection of the week's rows does |
| WeeklyReport.ThrownStays | WeeklyReport.js:54-67 | once the scan has thrown, the rows after it change nothing |
| WeeklyReport.ScannedSnoc | WeeklyReport.js:58-60 | the rows the scan gets through grow by one row until the first undated row of the account |
| WeeklyReport.ScanOfIsWeekSpan | WeeklyReport.js:54-67 | the row-by-row scan throws exactly when the rows hold an undated row of the account, and its counts are those of the week's rows before it |
| WeeklyReport.ScanWeek | WeeklyReport.js:53-67 | the follower loop inside its `try` computes that window |
| WeeklyReport.ReportConsistent | WeeklyReport.js:91-97 | a generated row covers a Sunday-to-Sunday week of the account, its change is end minus start, and its top posts are ranked |
| WeeklyReport.GenerateWeeklyReport | WeeklyReport.js:5-105 | without a token nothing changes; otherwise the sheet is created with its headers when missing, a week already reported for the account appends nothing, and else the 15-column row is appended |
| WeeklyReport.GeneratePreserves | WeeklyReport.js:33-98 | a run keeps every row consistent and one report per week and account |
| WeeklyReport.SecondRunSameWeek | WeeklyReport.js:22-38 | a second run on any day of the same week finds the first run's row and appends nothing |
| WeeklyReport.ReportAt | WeeklyReport.js:131-132 | the report at the offset (0 when none is given) exists exactly when the offset is in range, and is then the entry at that index |
| WeeklyReport.CollectReports | WeeklyReport.js:115-128 | the loop collects exactly the account's rows, in order |
| WeeklyReport.GetWeeklyReport | WeeklyReport.js:107-133 | a missing or header-only sheet gives null; otherwise the entry at the offset of the account's reports sorted newest week first |
| WeeklyReport.GetWeeklyReportList | WeeklyReport.js:135-155 | a missing or header-only sheet gives []; otherwise the summaries of the account's reports, newest week first |
| WeeklyReport.ReportsListed | WeeklyReport.js:116-130 | the listed reports are exactly the account's rows, sorted by week start descending |
| WeeklyReport.ListMatchesReports | WeeklyReport.js:130-153 | the report at offset i is entry i of the list, and both end at the same offset |
| WeeklyReport.DefaultIsLatest | WeeklyReport.js:130-132 | without an offset the report is the account's latest week |
| WeeklyReport.ReadBackConsistent | WeeklyReport.js:107-133 | on a sheet whose rows were all generated, every report read back is consistent |
| Followers.EnsureFollowerSheet | Followers.js:137-145 | a missing sheet is created with the six-column header row and no data; a present one is left as it was |
| Followers.FollowersCount | Followers.js:28-37 | the count is the value of the first `followers_count` entry; 0 without a `data` array, such an entry or a value; a non-zero count comes from such an entry |
| Followers.ExistingRow | Followers.js:41-48 | the row found is the first of the account dated today, with none such before it; a row without a date makes the date formatting throw; not found means no such row |
| Followers.FindExistingRow | Followers.js:41-48 | the `existingRow` loop computes that answer |
| Followers.ScanWeekAgo | Followers.js:59-68 | the forward loop leaves the count of the last row of the account dated a week ago or earlier, 0 without one |
| Followers.WeeklyPctTenths | Followers.js:69 | 0 without a positive base; otherwise round(Δ / base · 1000), in tenths of a percent |
| Followers.WeeklyPctSign | Followers.js:69 | no change gives 0 %, a gain a non-negative and a loss a non-positive percentage |
| Followers.WeeklyPctMono | Followers.js:69 | a higher count today never gives a lower percentage |
| Followers.RecordDailyFollowers | Followers.js:11-76 | the sheet exists afterwards; a row of the account dated today is overwritten with today's row, else today's row is appended; when the date scan throws nothing is written |
| Followers.DailyChangeAgainstPrevious | Followers.js:50-57 | the daily change is today's count minus the count of the bottom-most row of the account not dated today, or the count itself without one |
| Followers.RecordKeepsOneRowPerDay | Followers.js:41-76 | a run that writes keeps at most one row per day and account |
| Followers.SecondRunFindsToday | Followers.js:41-76 | a second run the same day finds the row the first one wrote and overwrites it instead of appending |
| Followers.HistoryOf | Followers.js:108-110 | the three lists have one entry per selected row: its date, its count and its daily change, in order |
| Followers.GetFollowerHistory | Followers.js:89-114 | a missing or header-only sheet gives three empty lists; otherwise the history of the rows the loop keeps |
| Followers.HistorySnoc | Followers.js:108-110 | one more selected row adds one entry at the end of each list |
| Followers.HistoryListsWindow | Followers.js:103-111 | the history lists exactly the dated rows at or after the cutoff (7 days by default), of the account when one is known, in sheet order |
| Followers.ShorterWindowNarrows | Followers.js:98-106 | a shorter window is the longer window's history filtered again: asking for fewer days only drops the oldest rows |
| Insights.SumValues | Insights.js:46-47 | the loop adds up the values, a missing value counting 0 |
| Insights.Zeros | Insights.js:29-31 | the totals start with exactly the seven numeric fields, each 0 |
| Insights.FoldIsLastWrite | Insights.js:41-53 | after the fold every field holds what the last entry writing it wrote (a `followers_count` total, else the sum of the values, else the total), and its starting value when none did |
| Insights.FoldMetrics | Insights.js:41-53 | the `forEach` over the entries computes that fold |
| Insights.Clicks | Insights.js:56-72 | only `clicks` can change; it is unchanged when the call threw or has no first entry, and the first entry's total when it has one |
| Insights.FlatKeys | Insights.js:86-94 | the keys of `flat` are exactly the items' dimension values |
| Insights.FlatIsLastItem | Insights.js:90-93 | each key holds the value of its last item |
| Insights.FlatEmpty | Insights.js:97 | `flat` is empty exactly when the breakdown has no results |
| Insights.FlattenItems | Insights.js:90-93 | the loop over one breakdown's results builds `flat` |
| Insights.DemoMapKeys | Insights.js:79-101 | the breakdowns in `demoData` are exactly those with results, each with its `flat` object |
| Insights.LastBreakdown | Insights.js:97-99 | the breakdown added last is in the map exactly when its `flat` is non-empty |
| Insights.DemoMapDomain | Insights.js:77-99 | only the four breakdown names appear in `demoData` |
| Insights.BreakdownsDistinct | Insights.js:77 | the four breakdown names differ |
| Insights.DemographicsNull | Insights.js:75-105 | the demographics are null exactly when a breakdown call threw or no breakdown has results |
| Insights.FetchDemographics | Insights.js:75-105 | the `try` around the four calls gives those demographics |
| Insights.FetchUserInsights | Insights.js:7-120 | without a token, or when the metric call fails or carries an error, the result is that error and nothing is written; with a token and a reply without an error it always succeeds with the folded totals with clicks, the account, the period (`sinceDays`, 30 by default) and the demographics, and one row appended when the sheet exists |
| Gemini.GeminiKey | Gemini.js:8-15 | the key is returned exactly when the setting is non-empty, else the error asking for one |
| Gemini.IntOr | Gemini.js:163 | a non-zero number read by `parseInt` without a radix (hexadecimal behind "0x") is kept; NaN and 0 give the default |
| Gemini.IndexOfFromAt | Gemini.js:68 | the first match of a pattern at or after a position is where it matches with no match before |
| Gemini.NoFenceIn | Gemini.js:68 | text without a backtick holds no fence |
| Gemini.FirstFenceAt | Gemini.js:68 | the first fence of a reply opens the part after a prefix without backticks |
| Gemini.NextFenceAt | Gemini.js:68 | from the start of the body, the next fence follows the body when the body has no backtick |
| Gemini.TagRecognised | Gemini.js:68 | the optional `json` tag is taken exactly when it is there |
| Gemini.FencedParts | Gemini.js:68 | where the opening fence, the tag and the body of a fenced reply are found |
| Gemini.ClosingFence | Gemini.js:68 | the closing fence of a fenced reply comes right after the body |
| Gemini.FenceBodyAt | Gemini.js:68-70 | the capture once the opening fence, the start of the body and the closing fence are known |
| Gemini.FenceRoundTrip | Gemini.js:65-72 | for a fenced reply (any prefix, an optional `json` tag, any suffix) the text handed to `JSON.parse` is the body, trimmed |
| Gemini.UnclosedFence | Gemini.js:68-72 | without a closing fence the whole text is parsed, untrimmed |
| Gemini.NoFence | Gemini.js:68-72 | a reply without any backtick is parsed as it is |
| Gemini.PatternCount | Gemini.js:101 | the pattern count lies in 1..5: 3 by default (missing, unparsable or 0), a count in range kept, a larger one 5, a negative one 1; the count is read as `parseInt` without a radix reads it |
| Gemini.HexCountRead | Gemini.js:101 | `count` "0x4" asks for four patterns, as `parseInt` reads it in hexadecimal; a bare "0x" is NaN and asks for the default three |
| Common.ParseIntOfHex | CompetitorWatch.js:85 | `parseInt` without a radix reads "0x" and hexadecimal digits as their value, stopping at the first other character ("0x10" is 16) |
| Common.BareHexPrefix | CompetitorWatch.js:85 | "0x" with no hexadecimal digit after it is NaN, while "0" alone is 0 |
| Gemini.DefaultModeKeepsAnalysis | Gemini.js:93-96 | defaulting an empty mode to 'normal' does not change whether it delegates to the analysis-based generator |
| Gemini.RouteOf | Gemini.js:88-100 | a blank theme is an error first; then the analysis modes delegate; else the missing key is the only other error |
| Gemini.BlankThemeFirst | Gemini.js:88-91 | a blank theme is refused before the key is looked at, whatever the mode and the settings |
| Gemini.ItemFields | Gemini.js:130 | an item made from text holds that text and that reason |
| PostGenerator.GeneratePostWithAI | Gemini.js:86-150 | the route's error is returned with nothing logged; the analysis modes return exactly what `generatePostWithAnalysis` returns for the same request and log its rows (its errors log nothing); otherwise a failed call is its error, and a reply's parsed results (or the raw text) are logged and returned with mode, theme and `results.length` as the count, which is an error for a `null` reply |
| Gemini.CountIsRowsLogged | Gemini.js:148 | for an array of results without a null, the count returned is the number of rows logged |
| Gemini.UnparsableKeptRaw | Gemini.js:126-131 | an unparsable reply is returned, and logged, as exactly one result holding the raw text |
| Gemini.Logged | Gemini.js:491-504 | the `forEach` gets through the results up to the first null one, whose `r.text` throws |
| Gemini.OneRowPerResult | Gemini.js:491-504 | results without a null are logged one row each, in order, a string result stored as its own text |
| Gemini.StoreAIGenerationLog | Gemini.js:470-508 | the sheet is created with its ten-column header row when missing, then one row is appended per result until a null result throws |
| Common.SortDescStable | Gemini.js:181-183 | the sort by rate is stable: posts of equal rate keep their original order, as JavaScript's `sort` keeps them |
| Gemini.TopFive | Gemini.js:181-184 | the top posts are min(5, n) posts of the input sorted by rate descending, and no post left out rates higher than the last listed |
| Gemini.WorstAt | Gemini.js:185 | worst post i is the post i places from the end of the ranking |
| Gemini.WorstThree | Gemini.js:181-185 | the worst posts are min(3, n) posts of the input, lowest first: the first is the minimum and none left out rates lower than the last |
| Gemini.WorstSorted | Gemini.js:185 | the worst posts are sorted by rate ascending |
| Gemini.WorstSubset | Gemini.js:185 | the worst posts are drawn from the input |
| Gemini.WorstBounds | Gemini.js:185 | the first worst post is the minimum and no post left out rates lower than the last |
| Gemini.ReverseMultiset | Gemini.js:185 | reversing keeps the same posts |
| Gemini.AnalysisReportOf | Gemini.js:160-277 | the missing key, then missing or empty analytics, then a failed call are errors; with a key, posts and a reply it always succeeds with the report with one to five top posts, one to three worst posts and the period (30 by default, never 0) |
| Gemini.TallyCount | Gemini.js:311-319 | each band counter is the number of posts in that band |
| Gemini.TallyTotal | Gemini.js:311-319 | the five band counters add up to the number of posts |
| Gemini.ErBuckets | Gemini.js:311-319 | the `erBuckets` loop computes those counters |
| Gemini.GenerateImprovementSuggestions | Gemini.js:290-378 | the missing key, then missing or empty analytics, then a failed call are errors; with a key, posts and a reply it always succeeds with the reply, the summary and band counters that add up to the number of posts |
| Gemini.DescribedStyle | Gemini.js:402-412 | the described style is always one of the seven, the style itself when valid, else 'improve' |
| Gemini.SplitOn | Gemini.js:441 | `split` gives at least one piece |
| Gemini.NoMatchBefore | Gemini.js:441 | the text before the first separator holds no separator |
| Gemini.SplitJoin | Gemini.js:441 | splitting loses nothing: joining the pieces gives the text back, and no piece holds the separator |
| Gemini.SplitItems | Gemini.js:443-445 | one result per kept block, its text trimmed |
| Gemini.SplitItemsText | Gemini.js:444 | each block's result carries the block's trimmed text |
| Gemini.BlocksKept | Gemini.js:441 | the kept blocks are pieces of the reply between blank lines, none of them blank |
| Gemini.FallbackShape | Gemini.js:439-448 | the fallback gives one to three results: the non-blank blocks between blank lines, trimmed and in order, or the trimmed reply when there are none |
| Gemini.SplitItemsStep | Gemini.js:443-445 | one more kept block appends its result |
| Gemini.FallbackOfLines | Gemini.js:441-448 | the fallback in terms of the first three non-blank blocks |
| Gemini.BlockItems | Gemini.js:442-445 | the loop over the first n kept blocks gives one trimmed result each |
| Gemini.SplitFallback | Gemini.js:441-448 | the fallback loop and its raw-reply case give the fallback results |
| Gemini.RefineReply | Gemini.js:432-449 | the results are the parsed array, another parsed value wrapped in an array, or the fallback when the reply does not parse |
| Gemini.RefinePostWithAI | Gemini.js:391-458 | the missing key, then an empty text, then a failed call are errors; with a key, a non-blank text and a reply it always succeeds with the trimmed original, the style ('improve' by default) with its description, the instruction (null when blank) and the results |
| Gemini.RefineNeverEmptyOnFailure | Gemini.js:438-448 | an unparsable refinement still yields one to three results |
| PostGenerator.KeptPositive | PostGenerator.js:18-19 | the filter keeps exactly the posts with a positive rate |
| PostGenerator.TopPositive | PostGenerator.js:18-21 | the listed posts are min(5, posts with a positive rate) of them, best first, and no other post with a positive rate does better than the last one listed |
| PostGenerator.DemoKeys | PostGenerator.js:35-43 | the keys of the demographics are exactly the headers that begin with 'demo_' or contain 'country', 'age' or 'gender' |
| PostGenerator.DemoValue | PostGenerator.js:41 | each kept header maps to the last row's cell under its last occurrence |
| PostGenerator.CollectDemographics | PostGenerator.js:35-43 | the loop over the header row builds those demographics |
| PostGenerator.ContainsChar | PostGenerator.js:38-40 | a character of a pattern occurs in every string that contains the pattern |
| PostGenerator.NotDemographic | PostGenerator.js:37-40 | a header without a 'g' or a 'y' that does not begin with "de" is not demographic |
| PostGenerator.NoDemoHeaders | PostGenerator.js:35-43 | headers that are all of that kind leave the demographics empty |
| PostGenerator.StandardHeadersNotDemographic | PostGenerator.js:28-45 | no header of the standard ユーザーインサイト layout is demographic, so that sheet yields no demographics |
| PostGenerator.HasDemographicsIff | PostGenerator.js:177 | `hasDemographics` holds exactly when the sheet has a data row and a demographic header |
| PostGenerator.SpanRoundTrip | PostGenerator.js:148 | prose around a bracketed array does not reach the parser: the matched span is the array |
| PostGenerator.NoSpan | PostGenerator.js:148-151 | without a '[' followed later by a ']' there is no span |
| PostGenerator.ResultsOfArrayReply | PostGenerator.js:146-155 | a reply holding an array amid prose gives what the parser makes of the array, or the raw text when it does not parse |
| PostGenerator.FallbackOnlyOnParseFailure | PostGenerator.js:146-155 | a reply without a span gives no results, and the raw-text item comes only from a failed parse |
| PostGenerator.CentiText | PostGenerator.js:216-218 | a whole percentage is written without a decimal point |
| PostGenerator.StorePostLog | PostGenerator.js:184-257 | the sheet is created with its ten-column header row when missing; one row per result is written in a single block, or none when `results` is not an array or an item throws |
| PostGenerator.BuildPostRows | PostGenerator.js:221-247 | the loop's block of rows is exactly the logged rows: one per result in order, and none when `results` is not an array or an item throws |
| PostGenerator.OneRowPerItem | PostGenerator.js:224-252 | without a throwing item every result gets exactly one row, in order, carrying the summary and the mode ('normal' by default); a non-empty string result is its own text |
| PostGenerator.ThrowWritesNothing | PostGenerator.js:224-252 | one throwing item and the block write never happens |
| PostGenerator.ThreadItemRoundTrip | PostGenerator.js:228-231 | a generated thread item is logged in the thread layout, which the draft parser splits back into the parent and the replies |
| PostGenerator.GeneratePostWithAnalysis | PostGenerator.js:4-180 | a missing key, a failing analytics read and a failed request are errors that log nothing; with a key, analytics and a reply it always succeeds with mode 'analysis-based', the results, the summary numbers with the top-post count, no time data and the demographics flag, and the results logged |
| Router.ClientSettings | Code.js:27-38 | the client settings hold no secret, every other setting as it is (unless it bears a flag's name) and, for each secret, a flag telling whether it is set |
| Router.BuildClientSettings | Code.js:27-38 | the `for-in` copy and the three flags give those client settings |
| Router.SheetIdOf | Code.js:57-66 | the served spreadsheet is the bound one, else the `sheetId` parameter, else the part of `state` before ':::' |
| Router.StateRoundTrip | Code.js:80-84 | splitting the state the auth page writes on line 120 (`sheetId + ':::' + uuid`) names its spreadsheet again |
| Router.InitialScreen | Code.js:142-171 | 'welcome' without a spreadsheet or when reading it threw; 'dashboard' exactly when there is a token and the data loaded; 'setup-auth' exactly when there is no token but an app id; 'setup' exactly when there is neither |
| Router.AuthReturnsToSheet | Code.js:80-127 | the auth page of a spreadsheet with an app id and secret writes a state, and the redirect back with a code and that state lands on the callback for the same spreadsheet, even on an unbound deployment |
| Router.AppUrlSavedOnce | Code.js:68-77 | once the normalised deployment URL is stored, the next visit does not store it again |
| Router.ProcessApiRequest | Code.js:205-299 | a missing or stale session token is refused first; the answer is a success exactly when the token matches, a spreadsheet is bound and opens, the action is known, its handler returns and it is not a rejected save, and the data is then the handler's result; an unknown action and a throwing handler give their own errors |
| Router.TokenGate | Code.js:209-212 | without the session token nothing is dispatched: the answer depends on nothing else |

## Left out

- Network calls (`UrlFetchApp.fetch`, `fetchAll`) are outcomes passed in as parameters. A parallel `fetchAll` batch is a sequential map over its items, since its concurrency only cuts latency.
- `Utilities.sleep` (between pages, batches, retries and breakdown calls) only delays and is not modelled.
- OAuth (Auth.js) is token exchange with remote endpoints. Auth.js is not part of this model.
- Gemini requests and every prompt string are not modelled: the reply text is an input. `generateGeminiFallbackAnalysis_`, `analyzeKeywordTrend`, `searchCompetitorByGrounding`, `callGeminiWithGrounding_`, `analyzeCompetitorStyle` and `analyzeVsSelf` consist of such calls and prompts and are left out. `searchKeyword` is modelled with the search call's outcome and the Gemini analysis text as parameters; the search request itself (`tryThreadsKeywordSearch_`, beyond the query parts of KeywordSearch.BuildQuery) is a network call. The same holds for the check-in advice (Retention.js:280-306), whose random fallback pick is a parameter.
- `JSON.parse`, `JSON.stringify` and `String()` of a JSON value are parameters. The model does not define JSON's text format.
- HTML output of `doGet`, `CacheService` and the `doPost` wrapper are left out. The session token is an input, and the dispatch to each handler is abstracted to the handler's outcome.
- The heat-map colouring (Analytics.js:356-376) is presentation only.
- Time triggers and e-mail (Retention.js:432-497, WeeklyReport.js:157-170, Followers.js:119-132) are scheduling and messaging.
- Time zones: `Utilities.formatDate`, `getDay` and `getHours` are replaced by the day number and hour carried by each `Stamp`. Daylight-saving shifts in "seven days ago" are not modelled.
- Uuids and the current time are parameters.
- Floating point: quotients are computed exactly and then rounded, where JavaScript rounds doubles. The result may differ in the last digit at exact halves: `Math.round(29 / 200 * 100)` is 14 in doubles and 15 here. This holds for the engagement rate (Analytics.ErCenti), KeywordSearch.Rate, KeywordSearch.AverageLength, Followers.WeeklyPctTenths and the average rate that PostGenerator.CentiText prints.
- Utils.FetchJson: the 200-character cut of an error body counts characters, not the UTF-16 code units `substring` counts (Utils.js:12, 17), so a body with emoji is cut at a later place.
- PostGenerator.GeneratePostWithAI: when the reply parses to a string, the count is its length in characters, not in UTF-16 code units.
- Gemini.GenerateImprovementSuggestions: leaves out the floating-point posting frequency (Gemini.js:321-332) and the five most recent posts, which only feed the prompt.
- Gemini.AnalysisReportOf: leaves out the media-type statistics, the insight row and the time slots (Gemini.js:187-257). They only feed the prompt, and the time-slot branch never runs because the time data has no `length`.
- PostGenerator.GeneratePostWithAnalysis: `hasTimeData` is always false, because the time analysis never carries a `heatmap` (Analytics.js:405 against PostGenerator.js:176). The branch that reads it is not modelled.
- `storeAIGenerationLog_` is defined twice in one global scope (Gemini.js:470, PostGenerator.js:184). The two are modelled separately as Gemini.StoreAIGenerationLog and PostGenerator.StorePostLog. The model does not decide which one the runtime keeps.
- Followers.RecordDailyFollowers: models one account's turn from the read of the sheet on. The entry point calls `getSettings()` and `getAccounts()` without a workbook and reads fields `getAccounts` never sets (Followers.js:12-18), so the account loop around it is not modelled. The same holds for the settings read of `getFollowerHistory` (Followers.js:96); the account id is an input.
- The callers that pass `{period: n}` as `periodDays` (Gemini.js:168, 298, CompetitorWatch.js:333) are not modelled. Their cutoff becomes an invalid date, and the analytics view takes the period as an optional number.
- KeywordSearch.ClearHistory: `clearContent` followed by a rewrite leaves blank rows below the kept ones. The model keeps only the kept rows.
- KeywordSearch.ClearSaved: likewise, blank rows left by `clearContent` are not modelled.
- KeywordSearch.MyPostsListed: letter case is folded for A–Z only (`Common.ToLower`), not for the rest of Unicode.
- CompetitorWatch.WatchPostsListed: case folding is for A–Z only, as above.
- CompetitorWatch.AutoRegisteredListed: assumes a user name that a second trim and '@' strip leave unchanged. For a name such as "@@bob", the nested `addCompetitor` checks "@bob" but registers "bob"; `AutoRegistered` models that case as written.
- KeywordSearch.MeasureTexts: text lengths count characters, not the UTF-16 code units JavaScript counts.
- KeywordSearch.ResultRows: the 500-character cut counts characters, not UTF-16 code units, so text with characters outside the Basic Multilingual Plane (emoji) is cut at a later place than `substring` cuts it.
- KeywordSearch.StoreThenSaved: the same holds for the 500-character cut of the cached text.
- Analytics.WritePosts: the 50-character cut of a new post's text (`NewRow`) counts characters, not UTF-16 code units, as above.
- Analytics.FetchAndStorePostAnalytics: the same 50-character cut, as above.
- WeeklyReport.TopPostsFacts: the 100-character cut of a top post's text counts characters, not UTF-16 code units, as above.
- CompetitorWatch.AddCompetitor: the duplicate check folds letter case for A–Z only (`Common.ToLower`). `toLowerCase` also folds other Unicode letters, so two names that differ only in the case of such letters count as different here.
- CompetitorWatch.AddKeepsUnique: uniqueness is up to A–Z case folding, as above.
- CompetitorWatch.SaveWatchPost: the auto-registration's duplicate check folds A–Z only, as above.
- CompetitorWatch.CollectWatch: the user-name and tag filters fold A–Z only, as above.
- AccountImport.FindAlias: the label comparison folds A–Z only, as above.
- AccountImport.ScanKey: the label match folds A–Z only, as above.
- AccountImport.FirstHitWins: the label match folds A–Z only, as above.
- KeywordSearch.SearchKeyword: the fallback's own-post match folds A–Z only, as in KeywordSearch.MyPostsListed.
- Retention.GetGrowthScore: undated rows sort as the oldest (day 0). The code's comparator gives NaN for them, so their place after `sort` depends on the engine.
- KeywordSearch.TopAuthorsBounded: equal counts keep first-seen order. JavaScript's `Object.keys` would list integer-like user names first.
- Insights.FetchUserInsights: a metric whose name collides with a non-numeric field (`accountId`, `period`) is treated as one more total.
- Cells are typed in the model; the coercions between text, numbers and dates that Sheets performs are not modelled.
- Non-string `error` values from `saveSettings` are not modelled (Code.js:291-293). Only the string case and the default text are.
- `validateSheetId` (Sheets.js:8-17) and `switchAccountFull` (Accounts.js:8-23) call the network or other handlers and are not part of this model.
- `if (!ss)` guards that open the bound spreadsheet (WeeklyReport.js:17, Gemini.js:472) are not modelled; the workbook is always given.
- Router.ProcessApiRequest: the handler's outcome is a parameter. For `saveSettings` the router passes on the whole request (Code.js:215, 225), so `action`, `sessionToken` and `sheetId` are stored as settings too. Settings.SaveSettings stores whatever keys it is given, but the model does not build the router's request map.
- Router.ProcessApiRequest: an absent `action` is the empty string in the model, so the unknown-action message ends in nothing where the code writes "undefined".
- Concurrent runs against the same sheets are not modelled. Each operation runs alone.

## Findings

| source | as written | input that shows it | evidently intended | confidence | as-written member | corrected member |
|---|---|---|---|---|---|---|
| Accounts.js:122-145 | `addAccount` finds the user's index in the list of accounts, which skips rows with a blank id, and writes to data row `index + 2` of the sheet | the rows [blank id, `acc-u` of user `u`] and a new token for user `u`: the blank row is overwritten, and the list then holds two records for `u` | overwrite the row that holds the matching account | not executed | Accounts.AddedRowsAsWritten, Accounts.AddAccountWrongRow | Accounts.AddedRows, Accounts.AddedRowsUpdatesList |
| Drafts.js:77 | the parent alternative of the separator pattern, `親投稿?`, needs 親投 or 親投稿, so it does not match the 【親】 marker the same function tests for on line 75 | "【親】A\n【返信1】B" parses as ["【親】A", "B"] | the parent part without its marker, ["A", "B"] | not executed | Drafts.ParentMarkerKeptAsWritten, Drafts.ParentMarkerKeptExample | Drafts.ParseThreadParts, Drafts.ThreadTextRoundTrip |
