# Fastwork Kanban — a Dafny model of its core

Fastwork Kanban collects freelance job listings from the Fastwork job board
and tracks them on a four-column Kanban board. This project models its core
in Dafny and proves properties of the model.

The modelled pipeline:

- **Fetching.** The board's `GET /jobs` API is queried per category, with
  the filter parameters built in a loop.
- **Budget extraction and filtering.** Either the numeric `budget` field or
  the first amount-with-currency the listing's text mentions, as found by
  the regular expression `(\d{1,3}(?:,\d{3})*)\s*(?:บาท|THB|baht)`
  (case-insensitive).
- **Saving to SQLite.** Rows are written with `INSERT OR REPLACE` and
  updated by id. Queries use `ORDER BY … LIMIT … OFFSET`.
- **GitHub sync.** Jobs are mirrored to a GitHub Projects (v2) board:
  - the project URL is parsed;
  - field ids are discovered by name;
  - the draft-or-issue routing is applied;
  - the per-field updates are planned and sent.
- **Category configuration.**
- **The cron wrapper.** It serialises runs and keeps the last ten errors.
- **The HTTP routes.** The board view and its statistics, the job list and
  the update routes, and the fetch, sync and GitHub statistics routes.
- **The analyser.** It asks a language model for an analysis of each
  pending job.
- **The notifier.** It posts to Facebook and Telegram and logs every
  attempt.
- **The maintenance script.** It pages through a GitHub project and deletes
  every item.
- **The browser client.** It holds the board and keeps two local-storage
  entries: a five-minute board cache and 24-hour column positions. It also
  does the optimistic local move of a card.

How the model is built:

- Code that computes values is written as datatypes and functions.
- Objects whose fields the source updates in place are classes with
  `modifies` frames:
  - the database;
  - the GitHub projects service;
  - the category manager;
  - the cron job;
  - the analyser;
  - the notifier;
  - the browser client.
- Loops are methods with invariants, each proved against a specification
  function.
- Everything outside the program is a parameter of the model:
  - the network: the Fastwork API, the GitHub API, the language-model
    endpoint, Facebook and Telegram;
  - the clock;
  - failures of individual SQL writes.

Files:

- `common.dfy`, `text.dfy`: shared helpers, such as JavaScript truthiness,
  filtering, digit runs and lower-casing.
- `store.dfy`: the two tables, the row updates, `ORDER BY` and `LIMIT`/`OFFSET`.
- `fastwork.dfy`: the Fastwork API client.
- `budget.dfy`: budget extraction and filtering.
- `processor.dfy`: the job processor.
- `github_rules.dfy`: the pure rules of the GitHub service.
- `github_service.dfy`: the GitHub service object.
- `categories.dfy`: category configuration.
- `cron.dfy`: the cron wrapper.
- `kanban_routes.dfy`, `jobs_routes.dfy`: the HTTP routes.
- `analyzer.dfy`: the analyser.
- `notifications.dfy`: the notifier.
- `clear_project.dfy`: the maintenance script.
- `board_client.dfy`: the browser client.

Behaviour of the code that the model keeps as written and proves:

- **Ungrouped amounts are misread.** The budget pattern reads an ungrouped
  amount wrongly: `12345 THB` gives 345, and `15000 บาท` gives 0 (no
  budget). See `Budget.UngroupedAmountLosesLeadingDigits` and
  `Budget.UngroupedThaiAmountReadsAsZero`.
- **Every cycle re-creates the GitHub item.** `saveJob` rewrites the whole
  row and clears the sync flag before `saveJobToGitHub` checks it, so the
  check never finds the job synced.
  - The lemma `Processor.ResaveClearsLedger` proves this.
  - `Processor.SaveAndSync` proves that a create request is attempted for every saved job, so in `Processor.SaveJobs` the create requests equal the saved jobs.
- **Two result entries per job.** A notification whose final status update
  fails gives that job two result entries (`Notifications.FailedStatusUpdateTwoEntries`).
- **The client's local move cuts before it checks.** Taken on its own, the
  client's local move splices the card out before indexing the target
  column, so a target that is not a column throws with the card already
  removed (`BoardClient.ThrowLosesJob`). This is a fact about the client
  function alone. Through the server it is not reached: `POST /move` refuses
  a status outside the four columns with 400
  (src/server/routes/kanban.js:66-68), so `moveJob` throws before the local
  move, and its catch reloads the board.
- **Surviving moves are invisible to the change check.** A move that does
  not throw keeps the ids and the count, so the background refresh's change
  check cannot see it (`BoardClient.MoveUndetected`).
- **Two routing inputs for GitHub.**
  - `processJobs` hands the fetched listing to the GitHub service, so
    routing uses the listing's own `budget` field.
  - The sync route hands over stored rows, so it uses the extracted budget.
  - `GitHubRules.FromListing` and `GitHubRules.FromRow` model the two.

## Model

| member | source | states |
|---|---|---|
| Common.NonZeroNumber | src/services/jobProcessor.js:172-182 | the `typeof v === 'number' && v` test gives the number exactly when it is a non-zero number |
| Common.Filter | src/services/jobProcessor.js:165-168 | a filtered list is no longer than its input and holds exactly the elements satisfying the predicate |
| Common.SliceTo | src/services/jobProcessor.js:100 | `slice(0, end)` is a prefix of the list; a negative end counts from the back |
| Text.NatToString | src/services/githubProjects.js:293 | the decimal rendering of a natural number is a non-empty digit string that reads back as the number |
| Text.RemoveCommas | src/services/jobProcessor.js:187 | removing commas keeps exactly the non-comma characters and never lengthens the text |
| Text.RemoveCommasMembers | src/services/jobProcessor.js:187 | the characters left are exactly the text's non-comma characters |
| Text.RemoveCommasAppend | src/services/jobProcessor.js:187 | removing commas distributes over concatenation |
| Text.ContainsOccurs | src/services/githubProjects.js:476-492 | `includes` holds exactly when the keyword occurs at some position |
| Text.JsLower | src/services/githubProjects.js:94 | `toLowerCase()` leaves no capital ASCII letter and never shortens the name |
| Common.FirstSome | src/services/jobProcessor.js:184 | a reported hit lies in the range and is a hit |
| Common.FirstSomeLeftmost | src/services/jobProcessor.js:184 | no hit lies before the reported one, and none at all when none is reported |
| Store.FindRow | src/services/jobProcessor.js:292-308 | a lookup by id finds a row exactly when one holds the id, and the row found holds the id |
| Store.RemoveId | src/services/jobProcessor.js:236-238 | the `REPLACE` conflict step: no row with the id is left, every other row is kept |
| Store.Upsert | src/services/jobProcessor.js:236-238 | `INSERT OR REPLACE`: the new row ends the table, rows with other ids are kept and rows with its id are gone |
| Store.FindRowFirst | src/services/jobProcessor.js:292-308 | the row found is the first row holding the id |
| Store.UpsertReplaces | src/services/jobProcessor.js:236-238 | after an upsert the new row is the one row found under its id, and every other row is kept in order |
| Store.UpsertWellFormed | src/services/jobProcessor.js:236-238 | an upsert of a row in a board column keeps ids unique and every row in a column |
| Store.UpdateWhere | src/services/jobProcessor.js:314-319 | an update by id changes exactly the rows with that id and keeps length and order |
| Store.CountId | src/server/routes/kanban.js:79 | `this.changes` of an update by id is the number of rows holding the id |
| Store.CountIdAtMostOne | src/server/routes/kanban.js:86-88 | in a well-formed table an update by id changes at most one row |
| Store.UpdateMissingIsNoOp | src/server/routes/kanban.js:86-88 | an update of a missing id changes nothing (the 404 case) |
| Store.UpdateWellFormed | src/server/routes/kanban.js:74-76 | an update keeps the ids in place and, unless it sets an invalid column, the table well formed |
| Store.OrderBy | src/server/routes/kanban.js:20-28 | `ORDER BY` returns a permutation of its input, sorted by the order's key |
| Store.Insert | src/server/routes/kanban.js:20-28 | inserting a row adds it to the rows' multiset and nothing else |
| Store.InsertSorted | src/server/routes/kanban.js:20-28 | inserting into rows sorted by an order keeps them sorted |
| Store.ColumnRank | src/server/routes/kanban.js:20-28 | the `CASE kanban_status` rank: 1 to 4 for the four columns in board order, 0 for any other status |
| Store.KeyOfOrder | src/server/routes/kanban.js:20-28 | the two sort orders: newest first, and the board order by column rank, then priority descending, then newest first |
| Store.LimitOffset | src/server/routes/jobs.js:41-42 | `LIMIT`/`OFFSET` returns the rows from the offset on, read in order, as many as remain up to the limit (all that remain for a negative limit) |
| Store.LimitOffsetWindow | src/server/routes/jobs.js:41-42 | a window of rows sorted by an order is itself sorted and holds only rows of the table |
| Store.SelectOrdered | src/services/jobProcessor.js:338 | a query returns the rows satisfying its condition, each as often as the table holds it, sorted by its order |
| Store.FindRowUnique | src/services/jobProcessor.js:292-308 | with unique ids, the row found for an id is the one row holding it |
| Store.FindRowUpdateOther | src/services/jobProcessor.js:314-319 | an update of one id leaves the row found under any other id as it was |
| Store.SelectedUniqueIds | src/server/routes/jobs.js:245-254 | a query over a table with unique ids returns rows with unique ids |
| Store.Database.Replace | src/services/jobProcessor.js:236-238 | the jobs table becomes the upsert of the row; the notifications are untouched |
| Store.Database.Update | src/server/routes/kanban.js:73-82 | the jobs table becomes the update by id; the answer is the number of rows changed |
| Store.Database.InsertNotification | src/services/notificationService.js:134-155 | the notification row is appended; the jobs are untouched |
| Store.UpdateRows | src/server/routes/kanban.js:73-82 | the row-by-row update pass computes the update by id and the number of rows it changed |
| Store.UpdateOne | src/server/routes/kanban.js:73-82 | one row of the update pass extends the updated prefix by that row, updated when its id matches, and adds one to the change count exactly for a matching id |
| Fastwork.CategoryIds | src/api/fastwork.js:179 | the category ids, one per category, in declaration order |
| Fastwork.GetCategoryName | src/api/fastwork.js:167-174 | an id matching no category is named `Unknown Category` |
| Fastwork.FirstNameEn | src/api/fastwork.js:168-173 | the English name of the first category with the id, or `Unknown Category` when none has it |
| Fastwork.CategoryIdsDistinct | src/api/fastwork.js:6-27 | the four category ids are pairwise distinct |
| Fastwork.GetCategoryNameOfEach | src/api/fastwork.js:167-174 | each configured category is named by its own English name, never as unknown |
| Fastwork.GenerateJobUrl | src/api/fastwork.js:163-165 | the job URL is the fixed job-board prefix followed by the id |
| Fastwork.JobUrlRoundTrip | src/api/fastwork.js:163-165 | the id is recovered from the job URL |
| Fastwork.ParamKeys | src/api/fastwork.js:56-68 | the query keys for `n` tag ids: the four fixed keys and a field/value pair per tag index below `n` |
| Fastwork.ParamsUpToKeys | src/api/fastwork.js:56-68 | the parameters carry exactly those keys |
| Fastwork.ParamsUpToFixed | src/api/fastwork.js:44-61 | the fixed keys carry the option values or their defaults (page 1, size 20, `inserted_at`, `desc`) |
| Fastwork.ParamsUpToFilters | src/api/fastwork.js:64-68 | filter pair `i` selects field `tag_id` with the `i`-th tag id; a single tag id is wrapped in a list |
| Fastwork.BuildParams | src/api/fastwork.js:56-68 | the loop builds the query of the options, one filter pair per tag id |
| Fastwork.QueryParamsLayout | src/api/fastwork.js:44-68 | that query holds the fixed keys with their values and one filter pair per tag id, and no other key |
| Fastwork.QueryParams | src/api/fastwork.js:44-68 | the request carries exactly the fixed keys plus one `tag_ids[i]` key per tag |
| Fastwork.FetchJobs | src/api/fastwork.js:43-129 | the fetch never throws; it succeeds exactly when the reply body carries `data`; failures give no jobs and carry the error message |
| Fastwork.FetchOutcome | src/api/fastwork.js:87-127 | success exactly when the server replies with a `data` array; then its jobs are that array, otherwise none |
| Fastwork.WithCategory | src/api/fastwork.js:194-197 | each listing is kept with its category set to the name, in order |
| Fastwork.FetchAllCategories | src/api/fastwork.js:176-228 | the result always succeeds with four categories, and its jobs are the concatenated successful category fetches in order |
| Fastwork.AllCategoryJobsFromSuccesses | src/api/fastwork.js:193-210 | every gathered job comes from a category whose fetch succeeded and carries that category's name |
| Fastwork.AllCategoryJobsLength | src/api/fastwork.js:193-210 | the number of jobs gathered is the sum over the successful categories |
| Fastwork.AllCategoryJobs | src/api/fastwork.js:186-218 | every job gathered is labelled with the name of one of the requested categories |
| Budget.GroupsEnd | src/services/jobProcessor.js:184 | where the greedy `(?:,\d{3})*` stops: groups reach it and no further group follows |
| Budget.SpacesEnd | src/services/jobProcessor.js:184 | where the greedy `\s*` stops: spaces reach it and no space follows |
| Budget.MatchEndAt | src/services/jobProcessor.js:184 | the end of the captured number when the pattern matches at a position |
| Budget.MatchEndAtSound | src/services/jobProcessor.js:184 | every match the search reports is a match of the pattern |
| Budget.MatchEndAtComplete | src/services/jobProcessor.js:184 | every match of the pattern at a position is the one reported there |
| Budget.FirstMatch | src/services/jobProcessor.js:184-186 | the match reported starts at or after the search position and ends where the pattern's capture ends |
| Budget.FirstMatchLeftmost | src/services/jobProcessor.js:184-186 | the reported match is the leftmost: none starts earlier, and none at all when none is reported |
| Budget.MatchEndAtChars | src/services/jobProcessor.js:184 | the captured amount holds only digits and commas |
| Budget.CaptureDigits | src/services/jobProcessor.js:184-187 | the captured amount with its commas removed is a digit string |
| Budget.TextBudgetOfMatch | src/services/jobProcessor.js:184-191 | the text's budget is the value of the leftmost match's digits |
| Budget.TextBudget | src/services/jobProcessor.js:184-191 | the amount of the leftmost match with its commas removed, or none when the pattern does not occur |
| Budget.ExtractBudget | src/services/jobProcessor.js:171-192 | the first non-zero number among `budget`, `budget_min` and `price` wins; otherwise the amount of the leftmost match in the text; 0 when the text has none |
| Budget.BudgetText | src/services/jobProcessor.js:184 | the text scanned is the budget text, or the description when that is empty; it is empty only when both are |
| Budget.GroupedMatch | src/services/jobProcessor.js:184 | in `12,500 THB` the leftmost match captures `12,500` |
| Budget.GroupedAmountIsRead | src/services/jobProcessor.js:184-191 | a comma-grouped amount followed by a currency word is read in full |
| Budget.UngroupedMatch | src/services/jobProcessor.js:184 | in an ungrouped amount the match starts three digits before the currency |
| Budget.UngroupedAmountLosesLeadingDigits | src/services/jobProcessor.js:184-191 | `12345 THB` is read as 345 |
| Budget.UngroupedThaiAmountReadsAsZero | src/services/jobProcessor.js:184-191 | `15000 บาท` is read as 0, i.e. no budget |
| Budget.FilterJobsByBudget | src/services/jobProcessor.js:159-169 | minimum 0 keeps every job; otherwise exactly the jobs whose extracted budget reaches the minimum, in order |
| Budget.AtLeast | src/services/jobProcessor.js:164-168 | no longer than the input; holds the jobs whose extracted budget reaches the minimum and no other |
| Budget.AtLeastAppend | src/services/jobProcessor.js:164-168 | the filter distributes over concatenation, so the kept jobs keep their relative order |
| Budget.AtLeastSingle | src/services/jobProcessor.js:164-168 | a single job is kept exactly when its extracted budget reaches the minimum |
| Budget.AtLeastMultiset | src/services/jobProcessor.js:164-168 | every qualifying job is kept as often as it occurs, and no other job is kept |
| Budget.BudgetCountsPartition | src/services/jobProcessor.js:76-82 | the high/low/none counts add up to the fetched jobs, and the high count is the number that pass the filter |
| Processor.CeilDiv | src/services/jobProcessor.js:41 | `Math.ceil(a / b)`: the least integer whose multiple of `b` reaches `a` |
| Processor.PageSizeFor | src/services/jobProcessor.js:41-48 | the page size is the larger of 20 and `ceil(limit / n) + 10` |
| Processor.Tagged | src/services/jobProcessor.js:52-70 | each listing of a category is kept with that category's name and id |
| Processor.Collected | src/services/jobProcessor.js:43-75 | every collected job comes from a requested tag and carries that tag's category name |
| Processor.CollectedFromSuccesses | src/services/jobProcessor.js:43-75 | every collected listing comes from a requested category whose fetch succeeded |
| Processor.CollectedLength | src/services/jobProcessor.js:43-75 | the listings collected are as many as the successful fetches returned |
| Processor.CollectJobs | src/services/jobProcessor.js:43-75 | the category loop collects the tagged listings of the successful fetches in order |
| Processor.RowFromListing | src/services/jobProcessor.js:194-250 | the saved row carries the listing's id, the extracted budget, the title and category fallbacks, and reset status and sync columns |
| Processor.ResaveClearsLedger | src/services/jobProcessor.js:194-308 | right after `saveJob` the job never counts as synced by `isJobSynced` (`Processor.IsJobSynced`) |
| Processor.MarkSetsLedger | src/services/jobProcessor.js:292-332 | `markJobAsSynced` with a non-empty item id makes an existing row count as synced by `isJobSynced` (`Processor.IsJobSynced`), with that item id |
| Processor.SaveJob | src/services/jobProcessor.js:194-250 | on success the table is the upsert of the listing's row; a failed save changes nothing |
| Processor.MarkJobAsSynced | src/services/jobProcessor.js:310-332 | sets the flag, item id and time of the row by id, and answers the number of rows changed |
| Processor.SyncJob | src/services/jobProcessor.js:268-281 | the GitHub service gets the listing itself: its id, title, description, category and insertion time, its own `budget` number (0 when it has none, never the extracted budget) and no raw data |
| Processor.SaveJobToGitHub | src/services/jobProcessor.js:252-290 | no service or an already synced job changes nothing; otherwise the item is created and on success the row is marked with its item id |
| Processor.GithubCountAtMostSaved | src/services/jobProcessor.js:119-134 | a GitHub item is only counted for a saved job |
| Processor.SavedRows | src/services/jobProcessor.js:119-134 | the table after the save loop; no jobs leave it unchanged |
| Processor.AfterCreateIds | src/services/jobProcessor.js:268-281 | recording a create result keeps every row in place with its id |
| Processor.UpsertIds | src/services/jobProcessor.js:236-238 | after `INSERT OR REPLACE` every id that was stored, and the new row's id, is stored |
| Processor.SaveStepIds | src/services/jobProcessor.js:120-133 | one save step loses no stored id, and stores the job unless its save fails |
| Processor.SavedRowsIds | src/services/jobProcessor.js:119-134 | the save loop loses no stored id and stores every job whose save does not fail |
| Processor.SaveJobs | src/services/jobProcessor.js:119-134 | the save loop's table, saved count and GitHub count; with a service a create request is made for every saved job |
| Processor.SaveOne | src/services/jobProcessor.js:120-133 | one pass of the loop moves the table and the saved and GitHub counts on by one job |
| Processor.SaveAndSync | src/services/jobProcessor.js:120-133 | one job of the loop: saved unless its save fails; created exactly when saved, syncing and the creation succeeds |
| Processor.ToProcess | src/services/jobProcessor.js:73-100 | the processed jobs are a prefix of the eligible jobs, `min(limit, eligible)` long |
| Processor.ToProcessEligible | src/services/jobProcessor.js:73-100 | every processed job was fetched and meets a non-zero minimum |
| Processor.ProcessJobs | src/services/jobProcessor.js:25-157 | fetches the given or enabled categories (none for an empty list) and returns the capped eligible jobs; the table is the save loop's over them, syncing only with a service and sync-on-fetch; when syncing and the project is found, the service holds the reported project node id and the field table scanned from the reply, otherwise both are unchanged; counts saves and created items |
| Processor.GithubCountNoSync | src/services/jobProcessor.js:112-134 | without a service no GitHub item is counted |
| Processor.UnanalyzedJobs | src/services/jobProcessor.js:334-350 | exactly the pending rows meeting the minimum, newest first |
| GitHubRules.FromListing | src/services/jobProcessor.js:268-281 | a fetched listing gives the GitHub job its id, title, raw budget, category and description |
| GitHubRules.FromRow | src/server/routes/jobs.js:278-280 | a stored row gives the GitHub job its extracted budget and saved raw data |
| GitHubRules.CalculateSize | src/services/githubProjects.js:497-512 | the size buckets: XS below 5,000 (and no budget), S below 15,000, M below 30,000, L below 60,000, XL above |
| GitHubRules.SizeMonotone | src/services/githubProjects.js:497-512 | a larger budget never gets a smaller size |
| GitHubRules.BudgetTier | src/services/githubProjects.js:455-466 | the tier tag: high from 50,000, medium from 20,000, low above 0, `no-budget` for 0, and no tier tag for a negative budget |
| GitHubRules.TierMatchesSize | src/services/githubProjects.js:455-512 | the tier tag and the size bucket agree |
| GitHubRules.RoutesToIssue | src/services/githubProjects.js:125-130 | a job routed to a repository issue is never size XS, and every M, L or XL job is routed there |
| GitHubRules.HyphenateSpaces | src/services/githubProjects.js:471 | no whitespace remains, the text never grows, and text without whitespace is unchanged |
| GitHubRules.DropSpaces | src/services/githubProjects.js:471 | the result never starts with whitespace, is no longer than the text and draws its characters from it |
| GitHubRules.KeepSlugChars | src/services/githubProjects.js:472 | only `[a-z0-9-]` characters remain, all taken from the text; a text of such characters is unchanged |
| GitHubRules.Slugify | src/services/githubProjects.js:469-474 | the category tag holds only `[a-z0-9-]` |
| GitHubRules.SlugifyIdempotent | src/services/githubProjects.js:469-474 | a category tag is its own slug |
| GitHubRules.ContentTags | src/services/githubProjects.js:476-492 | at most four content tags, one per keyword |
| GitHubRules.ContentTagsMatch | src/services/githubProjects.js:476-492 | a keyword's tag is present exactly when the text mentions the keyword |
| GitHubRules.GenerateTags | src/services/githubProjects.js:452-495 | at most six tags |
| GitHubRules.GenerateTagsLayout | src/services/githubProjects.js:452-495 | a non-negative budget puts its tier tag first; a category's slug follows it, or comes first when the budget is negative |
| GitHubRules.GenerateTagsKeywords | src/services/githubProjects.js:476-495 | every mentioned keyword's tag is present; a keyword's tag without the keyword can only be the category's slug |
| GitHubRules.GroupDigitsUngroup | src/services/githubProjects.js:413 | removing the grouping commas gives back the digits |
| GitHubRules.GroupDigits | src/services/githubProjects.js:413 | inserting thousands separators never shortens the digits |
| GitHubRules.LocaleString | src/services/githubProjects.js:413 | `toLocaleString()`: a minus sign exactly for negative amounts, and the digits of the amount once the commas are removed |
| GitHubRules.LocaleStringReadsBack | src/services/githubProjects.js:413 | a grouped amount reads back as the amount |
| GitHubRules.FormatJobTitle | src/services/githubProjects.js:412-415 | a `[amount THB] ` prefix when there is a budget, then the title |
| GitHubRules.FormatJobTitleParts | src/services/githubProjects.js:412-415 | the issue title ends with the job title, and a budgeted title's prefix reads back its amount |
| GitHubRules.Labels | src/services/githubProjects.js:218 | the issue labels are at most the category and the tags |
| GitHubRules.LabelsMembers | src/services/githubProjects.js:218 | the issue labels are exactly the non-empty ones among the category and the tags, a non-empty category first |
| GitHubRules.EncodeFieldValue | src/services/githubProjects.js:386-402 | the value goes into the member named by the type; unknown types are text |
| GitHubRules.FieldRole | src/services/githubProjects.js:93-111 | the role of a field by its lower-cased name: for every role, exactly when its rule matches and no earlier rule does; no role when no rule matches |
| GitHubRules.FieldIdsAfter | src/services/githubProjects.js:93-112 | the field table after the scan: only recognised fields are recorded |
| GitHubRules.FieldIdsLastWins | src/services/githubProjects.js:93-112 | the id recorded for a role is that of the last field with that role |
| GitHubRules.FormatDate | src/services/githubProjects.js:514-527 | no date for a missing or unparsable string, otherwise the ISO day |
| GitHubRules.ExtractEndDateSources | src/services/githubProjects.js:529-561 | the deadline wins over the expiry, which wins over insertion plus 30 days; a listing without raw data takes the fallback |
| GitHubRules.ExtractEndDate | src/services/githubProjects.js:529-561 | the deadline wins over the expiry date; with neither and no insertion time there is no end date |
| GitHubRules.PlanFor | src/services/githubProjects.js:286-351 | the updates for the roles, in order, for known fields with data only |
| GitHubRules.PlanOf | src/services/githubProjects.js:286-351 | the planned updates, in budget, category, size, start, end, tags order; the status field is never written |
| GitHubRules.PlanOfRole | src/services/githubProjects.js:286-351 | an update is planned for a role exactly when the field is known and the job has data for it |
| GitHubRules.PlanOfPresence | src/services/githubProjects.js:286-351 | an update for each role is planned exactly when its field is known and the job has a non-empty value for it |
| GitHubRules.PlanOfSound | src/services/githubProjects.js:286-351 | every planned update is for a known field with data, never the status field |
| GitHubRules.PlanForComplete | src/services/githubProjects.js:286-351 | every role that is known and has data gets its update |
| GitHubRules.PlannedUpdatesPresence | src/services/githubProjects.js:286-351 | which update is planned for each role, in terms of the job and the field table |
| GitHubRules.PlannedUpdates | src/services/githubProjects.js:286-351 | every planned update targets a known field other than Status, by that field's id, in a fixed order with each role at most once |
| GitHubRules.PlannedUpdateValue | src/services/githubProjects.js:290-350 | the value sent: the plain budget with ` THB`, the size label, the dates, the tags joined by `, ` |
| GitHubRules.NonSlashRun | src/services/githubProjects.js:11 | the length of the run of non-slash characters at a position |
| GitHubRules.FirstProjectRef | src/services/githubProjects.js:11 | a reported match of the URL pattern starts at or after the position |
| GitHubRules.FirstProjectRefLeftmost | src/services/githubProjects.js:11 | no match starts before the reported one, and none at all when none is reported |
| GitHubRules.ParseProjectUrl | src/services/githubProjects.js:11-17 | a parsed owner is a non-empty segment without `/` (the round-trip lemmas below pin down owner and number) |
| GitHubRules.NoMatchInScheme | src/services/githubProjects.js:11 | the pattern cannot match inside `https://` |
| GitHubRules.MatchLengthsAt | src/services/githubProjects.js:11 | a match at a position has a non-empty owner and number and lies within the text |
| GitHubRules.MatchCaptures | src/services/githubProjects.js:11 | a match's owner is a non-empty segment without `/` and its number is all digits |
| GitHubRules.MatchAtParts | src/services/githubProjects.js:11-14 | the pattern matches where an owner segment and a digit run follow the fixed parts, capturing exactly them |
| GitHubRules.RefOfParts | src/services/githubProjects.js:11-17 | the captures of such a match give back the owner and the number the digits spell |
| GitHubRules.ParseProjectUrlRoundTrip | src/services/githubProjects.js:11-14 | a project URL built from an owner and a number parses back to them |
| GitHubRules.ParseBuiltUrl | src/services/githubProjects.js:11-14 | `https://github.com/users/<owner>/projects/<digits>` parses to that owner and the number the digits spell |
| GitHubService.NamedPrefix | src/services/githubProjects.js:93-94 | the leading field nodes up to the first without a name |
| GitHubService.ScanFields | src/services/githubProjects.js:93-112 | the scan records the named prefix and reports whether a nameless node made it throw |
| GitHubService.FieldCalls | src/services/githubProjects.js:353-365 | one request per planned update, in order, each with its encoded value |
| GitHubService.CreateOutcomeRouting | src/services/githubProjects.js:121-198 | budgets above 10,000 become an issue added as an item, the others a draft; success exactly when every request on the path succeeded |
| GitHubService.CreateViaRouting | src/services/githubProjects.js:121-198 | a draft only off the issue path, an issue only on it; success exactly when the path's requests succeed |
| GitHubService.CreateVia | src/services/githubProjects.js:121-198 | an issue is created only on the issue route and a draft only on the draft route, each when its call succeeds; a failed issue call reports its message |
| GitHubService.CreateOutcome | src/services/githubProjects.js:121-198 | only jobs above 10,000 become issues; drafts are for budgets up to 10,000 |
| GitHubService.ProjectsService.constructor | src/services/githubProjects.js:5-29 | the service starts with the parsed owner and number, no node id and no field ids |
| GitHubService.ProjectsService.Initialize | src/services/githubProjects.js:31-119 | true exactly when the project is found and every field node is named; the node id and field table are set from the reply |
| GitHubService.ProjectsService.UpdateProjectItemFields | src/services/githubProjects.js:286-366 | the planned updates are all sent, whatever earlier ones answered |
| GitHubService.ProjectsService.CreateDraftIssue | src/services/githubProjects.js:121-198 | the result is the routed creation outcome; on success the item's fields are updated |
| GitHubService.SendFieldUpdates | src/services/githubProjects.js:353-365 | the request loop sends every update in order |
| GitHubService.NewProjectsService | src/services/githubProjects.js:5-17 | a service for the URL's owner and number, or none where the constructor throws |
| Categories.Merge | src/config/categories.js:70-72 | each top-level key the update carries replaces the old one; the others are kept |
| Categories.MergeLaws | src/config/categories.js:70-72 | the empty update changes nothing, an update is idempotent, and two updates compose |
| Categories.Enabled | src/config/categories.js:54-58 | the id is appended unless present; the list stays free of repeats |
| Categories.Disabled | src/config/categories.js:60-64 | every occurrence of the id is removed and the others keep their multiplicity |
| Categories.DisabledAppend | src/config/categories.js:60-64 | removing the id distributes over concatenation, so the other ids keep their relative order |
| Categories.DisabledSingle | src/config/categories.js:60-64 | a single id is dropped exactly when it is the one disabled |
| Categories.EnableIdempotent | src/config/categories.js:54-58 | enabling twice is enabling once |
| Categories.DisableAfterEnable | src/config/categories.js:54-64 | disabling undoes enabling |
| Categories.CategoryInfo | src/config/categories.js:46-48 | the first category with the id, or nothing when none has it |
| Categories.Formatted | src/config/categories.js:74-81 | one entry per category, in order, flagged exactly when its id is enabled |
| Categories.CategoryManager.constructor | src/config/categories.js:34-36 | the manager holds the given configuration |
| Categories.CategoryManager.GetCategoryInfo | src/config/categories.js:46-48 | a found category is configured and has the id; none is found exactly when no category has it |
| Categories.CategoryManager.GetFormattedCategoriesList | src/config/categories.js:74-81 | one entry per category, flagged exactly when enabled |
| Categories.CategoryManager.EnableCategory | src/config/categories.js:54-58 | only the enabled list changes, and the id is enabled afterwards |
| Categories.CategoryManager.DisableCategory | src/config/categories.js:60-64 | only the enabled list changes, and the id is disabled afterwards |
| Categories.CategoryManager.UpdateConfig | src/config/categories.js:70-72 | the configuration becomes the shallow merge of the update |
| Cron.LogError | src/cron/index.js:82-90 | the new error is appended and only the last ten are kept |
| Cron.LogErrorSuffix | src/cron/index.js:82-90 | the log is always the most recent suffix of everything ever logged |
| Cron.JsRem | src/cron/index.js:99-100 | JavaScript `%`: Euclidean for a non-negative dividend, otherwise non-positive |
| Cron.FloorDiv | src/cron/index.js:97-99 | `Math.floor(a / b)` for a positive divisor |
| Cron.UptimeOf | src/cron/index.js:97-100 | a non-negative elapsed time is exactly hours, minutes below 60 and seconds below 60 |
| Cron.CronJob.constructor | src/cron/index.js:12-19 | not running, never run, no jobs and no errors |
| Cron.CronJob.Begin | src/cron/index.js:32-38 | a call while running is skipped; otherwise the run starts |
| Cron.CronJob.Finish | src/cron/index.js:41-93 | the run ends; a success adds its count and sets the last run; a throw logs the error |
| Cron.CronJob.FetchJobs | src/cron/index.js:32-94 | an overlapping call changes nothing; otherwise the run's outcome is recorded and the job is idle again |
| Cron.CronJob.GetStatus | src/cron/index.js:96-110 | the flags and counters, the error count, the last error, and the uptime decomposition |
| KanbanRoutes.BucketMembers | src/server/routes/kanban.js:42-46 | a column holds exactly the rows with its status |
| KanbanRoutes.Bucket | src/server/routes/kanban.js:42-46 | a column holds only rows with its status, and no more rows than the table |
| KanbanRoutes.GroupedPlacement | src/server/routes/kanban.js:35-46 | a row is on the board exactly in the column its status names |
| KanbanRoutes.GroupedSize | src/server/routes/kanban.js:35-46 | the columns together hold the rows whose status is a column, none lost or counted twice |
| KanbanRoutes.Grouped | src/server/routes/kanban.js:35-46 | each of the four columns holds only rows with that column's status |
| KanbanRoutes.BoardRows | src/server/routes/kanban.js:13-31 | the rows with budget at least the minimum, in column, priority and recency order |
| KanbanRoutes.GroupBoard | src/server/routes/kanban.js:42-46 | the push loop builds the grouping |
| KanbanRoutes.GetBoard | src/server/routes/kanban.js:8-59 | the board of the qualifying rows grouped by status |
| KanbanRoutes.MoveJob | src/server/routes/kanban.js:62-100 | an invalid column is refused with no change; a missing id is not found; otherwise the row's status is set |
| KanbanRoutes.SetPriority | src/server/routes/kanban.js:103-135 | a non-number is refused with no change; a missing id is not found; otherwise the priority is set |
| KanbanRoutes.MovedJobShowsInColumn | src/server/routes/kanban.js:8-100 | a moved job with a qualifying budget shows in its new column of the next board |
| KanbanRoutes.Budgets | src/server/routes/kanban.js:147-149 | the budgets of the rows, in order |
| KanbanRoutes.MinOf | src/server/routes/kanban.js:148 | the least element of a non-empty list of budgets |
| KanbanRoutes.MaxOf | src/server/routes/kanban.js:149 | the greatest element of a non-empty list of budgets |
| KanbanRoutes.GroupStats | src/server/routes/kanban.js:158-164 | a group's count, and a least and greatest budget that bound every budget of the group and are attained |
| KanbanRoutes.Stats | src/server/routes/kanban.js:138-178 | one entry per status occurring among the qualifying rows, and no other |
| KanbanRoutes.StatsEntries | src/server/routes/kanban.js:143-164 | each entry counts its qualifying rows, at least one, and its least and greatest budget are budgets of those rows that bound all of theirs |
| KanbanRoutes.StatsOf | src/server/routes/kanban.js:143-164 | a status's entry counts its qualifying rows; its minimum and maximum are the least and greatest of their budgets |
| JobsRoutes.Conditions | src/server/routes/jobs.js:23-39 | a condition on a column exactly for each non-empty filter, carrying its value, and at most three |
| JobsRoutes.ConditionsMeaning | src/server/routes/jobs.js:23-39 | the built query selects exactly the rows matching every supplied filter |
| JobsRoutes.MatchesQuery | src/server/routes/jobs.js:18-42 | with no filter every row matches; a row whose board status differs from the requested one never matches |
| JobsRoutes.ListJobs | src/server/routes/jobs.js:12-57 | only stored rows matching every filter, newest first, as many as the offset and limit (defaults 0 and 100) leave of the matching rows |
| JobsRoutes.MatchingCount | src/server/routes/jobs.js:12-42 | the built query selects as many rows as match the filters |
| JobsRoutes.ListJobsComplete | src/server/routes/jobs.js:18-42 | with no offset and a limit covering the table, every matching row is listed |
| JobsRoutes.UpdateKanbanStatus | src/server/routes/jobs.js:86-119 | only the four columns are accepted; a missing id is not found; otherwise the status is set |
| JobsRoutes.UpdateNotes | src/server/routes/jobs.js:122-151 | a missing id is not found and nothing changes; otherwise the notes are set |
| JobsRoutes.FetchCategories | src/server/routes/jobs.js:165-170 | without a category list, all four category ids |
| JobsRoutes.FetchConfig | src/server/routes/jobs.js:158-163 | the processor settings with the request's minimum when one is given |
| JobsRoutes.FetchRoute | src/server/routes/jobs.js:154-183 | a project URL that does not parse makes the processor's constructor throw: a 500 with its message and no change; otherwise processes the chosen categories with the default limit 20 (no jobs for an empty list), the table is the save loop's over the reported jobs into the project a fresh service finds, and it reports the jobs and the category count |
| JobsRoutes.SyncCandidates | src/server/routes/jobs.js:245-254 | only unsynced stored rows, newest first, at most `limit`, with distinct ids when the table has them |
| JobsRoutes.SyncCandidatesCount | src/server/routes/jobs.js:245-254 | the route takes as many unsynced rows as there are, up to `limit`, and they are the front of the unsynced rows ordered newest first |
| JobsRoutes.Successes | src/server/routes/jobs.js:291-295 | the count of successful results is at most the number of results |
| JobsRoutes.CreatedCount | src/server/routes/jobs.js:278-304 | at most one created item per row |
| JobsRoutes.SyncToGitHub | src/server/routes/jobs.js:235-317 | a malformed project URL or a failed initialisation changes nothing; otherwise each candidate is created in the project the details request reports and marked, the synced count counts the successes and nothing is ever skipped |
| JobsRoutes.AfterCreateKeepsOthers | src/services/jobProcessor.js:268-281 | creating an item for one id leaves the row under any other id as it was |
| JobsRoutes.SyncRows | src/server/routes/jobs.js:278-304 | the loop over unsynced rows records one entry per row, in order |
| JobsRoutes.SyncedSoFarDone | src/server/routes/jobs.js:278-312 | at the end of the loop the state is the one the route promises |
| JobsRoutes.SyncStep | src/server/routes/jobs.js:279-295 | one row of the loop is sent and its entry recorded |
| JobsRoutes.SyncOne | src/services/jobProcessor.js:252-290 | for a stored, unsynced row the item is always attempted |
| JobsRoutes.SyncPercentage | src/server/routes/jobs.js:368 | `Math.round(100 * synced / total)`, or 0 for an empty table |
| JobsRoutes.SyncPercentageBounds | src/server/routes/jobs.js:368 | the percentage of a part lies between 0 and 100 |
| JobsRoutes.GitHubStats | src/server/routes/jobs.js:320-374 | the table's size, the number of synced and of unsynced rows in it, and the share synced rounded as `Math.round` does |
| JobsRoutes.CountSplit | src/server/routes/jobs.js:326-328 | synced and unsynced rows add up to the table size |
| Analyzer.AnalysisOutcomes | src/services/claudeAnalyzer.js:18-51 | without a key the call throws; otherwise a job is analysed exactly when the reply has a content block, whose text is the analysis |
| Analyzer.Posted | src/services/claudeAnalyzer.js:18-51 | one prompt per job with a key, none without |
| Analyzer.AnalysisOf | src/services/claudeAnalyzer.js:18-51 | it throws exactly when there is no API key; an analysis is the first text of an answered request |
| Analyzer.AfterAnalysis | src/services/claudeAnalyzer.js:74-76 | the table keeps its length and other rows; on an analysis the job's rows become `analyzed` with that text, otherwise nothing changes |
| Analyzer.PendingForAnalysis | src/services/claudeAnalyzer.js:107-114 | the pending rows with budget at least 10,000, newest first |
| Analyzer.AnalyzedJobs | src/services/claudeAnalyzer.js:89-105 | exactly the analysed rows, each as often as the table holds it |
| Analyzer.AnalyzedJobsLatestFirst | src/services/claudeAnalyzer.js:93 | the row stored last comes first when analysed, ahead of all earlier rows (`processed_at DESC`) |
| Analyzer.SaveAnalysisEffect | src/services/claudeAnalyzer.js:70-87 | the row with the id gets the text and status `analyzed`; the others are untouched |
| Analyzer.AnalysisLeavesPending | src/services/claudeAnalyzer.js:70-114 | an analysed job leaves the pending selection and joins the analysed jobs |
| Analyzer.LeavesPending | src/services/claudeAnalyzer.js:70-114 | after an analysis is stored under an id, no pending row carries that id |
| Analyzer.JoinsAnalyzed | src/services/claudeAnalyzer.js:70-105 | a stored job whose analysis is saved appears among the analysed jobs with that analysis |
| Analyzer.NoKeyNoChange | src/services/claudeAnalyzer.js:18-21 | without a key a whole run leaves the table as it was |
| Analyzer.ClaudeAnalyzer.constructor | src/services/claudeAnalyzer.js:5-16 | the analyser holds the key |
| Analyzer.ClaudeAnalyzer.AnalyzeJob | src/services/claudeAnalyzer.js:18-51 | the outcome of the analysis; only a successful one is saved |
| Analyzer.ClaudeAnalyzer.SaveAnalysis | src/services/claudeAnalyzer.js:70-87 | the update by id, with the number of rows it changed |
| Analyzer.ClaudeAnalyzer.AnalyzeNext | src/services/claudeAnalyzer.js:122-143 | one pass of the loop extends the table and the prompts by the next job |
| Analyzer.ClaudeAnalyzer.GetAnalyzedJobs | src/services/claudeAnalyzer.js:89-105 | the analysed rows, most recently processed first |
| Analyzer.ClaudeAnalyzer.AnalyzeAllPendingJobs | src/services/claudeAnalyzer.js:107-147 | every selected row is analysed in turn, failures do not stop the loop, and the count is the number selected |
| Notifications.CloseAt | src/services/notificationService.js:128-131 | where the lazy `(.*?)\*\*` stops: the shortest one-line run followed by `**`; `Notifications.CloseAtComplete` shows it finds one whenever one exists |
| Notifications.CloseAtComplete | src/services/notificationService.js:128-131 | a `**` reached before any line terminator closes the span, at or before it |
| Notifications.ReplaceBoldPlain | src/services/notificationService.js:128-131 | star-free text passes through the replacement unchanged |
| Notifications.CloseAfter | src/services/notificationService.js:128-131 | the lazy match closes at the first `**` after star-free one-line text |
| Notifications.ReplaceBoldSpan | src/services/notificationService.js:128-131 | `**x**` becomes `*x*` for Telegram and `x` otherwise |
| Notifications.ReplaceBold | src/services/notificationService.js:128-131 | removing the `**` markers never lengthens the text |
| Notifications.AnalysisText | src/services/notificationService.js:120 | the analysis, or `Analysis pending...` when there is none |
| Notifications.GroupDigitsNoStar | src/services/notificationService.js:112-120 | a grouped amount holds no star |
| Notifications.LocaleStringNoStar | src/services/notificationService.js:112-120 | the rendered budget holds no star |
| Notifications.TemplatePlain | src/services/notificationService.js:112-126 | the fixed template texts hold no star and the bold ones no line break |
| Notifications.BodySplit | src/services/notificationService.js:112-126 | the body is its head, the heading and its tail |
| Notifications.SpanBetweenPlain | src/services/notificationService.js:128-131 | one bold span between star-free text is rewritten and the rest kept |
| Notifications.BodyPlain | src/services/notificationService.js:112-126 | the body's head and tail hold no star |
| Notifications.BodyBold | src/services/notificationService.js:112-131 | the body loses or keeps its one bold span like the rest |
| Notifications.MessageBold | src/services/notificationService.js:112-131 | with star-free content, the three bold spans become `*...*` for Telegram and lose their markers for Facebook |
| Notifications.FormatJobMessage | src/services/notificationService.js:112-132 | the platform's message is never longer than the template it is made from |
| Notifications.LogRow | src/services/notificationService.js:134-155 | the logged row carries the job, platform, status and error; `sent_at` only for a `sent` status |
| Notifications.SendResult | src/services/notificationService.js:44-110 | without credentials nothing is sent and nothing logged; it throws exactly on a configured platform whose log write fails, with that error |
| Notifications.SendResultLogs | src/services/notificationService.js:44-110 | a configured send that returns logs exactly one row for the job and platform, `sent` exactly when the post went through |
| Notifications.NoticeOutcomes | src/services/notificationService.js:17-42 | a job is marked notified exactly when both sends return; then it has one entry with both results; otherwise the last entry is the error |
| Notifications.NoticeOf | src/services/notificationService.js:20-39 | a job counts as notified exactly when no write fails, and every job leaves at least one log entry, all under its id |
| Notifications.UnconfiguredStillNotified | src/services/notificationService.js:44-110 | with neither channel configured a job is still marked notified, with no request and no log row |
| Notifications.FailedStatusUpdateTwoEntries | src/services/notificationService.js:20-39 | a failing status update gives the job two entries |
| Notifications.LoopStep | src/services/notificationService.js:20-39 | the loop over one more job extends the entries, logs and rows by that job's notice |
| Notifications.OneEntryPerJob | src/services/notificationService.js:17-42 | when no write fails there is exactly one entry per job, in order |
| Notifications.IdsOfMembers | src/services/notificationService.js:17-42 | an id is among the jobs' ids exactly when some job carries it |
| Notifications.AllNotified | src/services/notificationService.js:17-42 | when no write fails every row of a notified job becomes `notified`; other rows are unchanged |
| Notifications.NotificationService.constructor | src/services/notificationService.js:5-15 | the service holds the two channels' credentials |
| Notifications.NotificationService.LogNotification | src/services/notificationService.js:134-155 | inserts the log row, or raises the database's error and changes nothing |
| Notifications.NotificationService.Send | src/services/notificationService.js:44-110 | an unconfigured channel returns at once; otherwise the post is made and its outcome logged |
| Notifications.NotificationService.UpdateJobStatus | src/services/notificationService.js:157-173 | the status update by id, or the database's error |
| Notifications.NotificationService.NotifyOne | src/services/notificationService.js:20-39 | one job's sends, entries and status update, with its catch |
| Notifications.NotificationService.NotifyNext | src/services/notificationService.js:20-39 | one pass of the loop extends the state by the next job's notice |
| Notifications.NotificationService.NotifyNewJobs | src/services/notificationService.js:17-42 | the jobs in order, each in its own `try`; the entries, logs and rows are those of the loop |
| ClearProject.ListingOf | scripts/clearGitHubProject.js:91-109 | the listing a paging run produces: all page nodes exactly when its last page has no next page, the failure exactly when its last request failed, unfinished when no request was made |
| ClearProject.CursorChainUnique | scripts/clearGitHubProject.js:95-107 | the paging loop is deterministic: one run per budget |
| ClearProject.SameLinks | scripts/clearGitHubProject.js:95-107 | two linked runs agree wherever both are defined |
| ClearProject.SinglePage | scripts/clearGitHubProject.js:91-109 | a first page without a next page is the whole listing after one request |
| ClearProject.GetAllProjectItems | scripts/clearGitHubProject.js:55-110 | from a null cursor, pages are requested and appended until one has no next page; a failure escapes |
| ClearProject.DeleteProjectItem | scripts/clearGitHubProject.js:112-137 | true exactly when the reply names the item; a failure is caught as false |
| ClearProject.DeletedCount | scripts/clearGitHubProject.js:34-45 | the number of items whose deletion goes through, at most all of them |
| ClearProject.DeletedCountCounts | scripts/clearGitHubProject.js:34-47 | the count reported is the number of items whose delete call succeeds |
| ClearProject.AllDeleted | scripts/clearGitHubProject.js:34-47 | every item counts as deleted exactly when every deletion goes through |
| ClearProject.ItemIds | scripts/clearGitHubProject.js:35-37 | the ids of the items, in order |
| ClearProject.DeleteAll | scripts/clearGitHubProject.js:34-45 | one request per item, in order, and the count of those that went through |
| ClearProject.ClearGitHubProject | scripts/clearGitHubProject.js:7-53 | a bad URL or failed initialisation exits before any request; a failed page exits; an empty project returns; otherwise every item is deleted in order |
| BoardClient.Truncate | src/web/public/script.js:156-162 | a string longer than the maximum is cut to its prefix plus `...` |
| BoardClient.CardTitle | src/web/public/script.js:156-157 | at most 60 characters; a longer title shows its first 57 and `...` |
| BoardClient.CardDescription | src/web/public/script.js:159-162 | a placeholder when missing, at most 120 characters, a longer one its first 117 and `...` |
| BoardClient.CategoryClass | src/web/public/script.js:154-187 | the class of a known category, `other` for any other; the card passes it the job's category, or `Other` when that is empty (`BoardClient.CardCategory`) |
| BoardClient.StatusClass | src/web/public/script.js:173 | `analyzed` exactly when the analysis is truthy |
| BoardClient.DataChangesIff | src/web/public/script.js:569-584 | `hasDataChanges` (`BoardClient.HasDataChanges`) fires exactly when the job count or the set of ids changed |
| BoardClient.NoChangesSelf | src/web/public/script.js:569-584 | a board compared with itself has no changes |
| BoardClient.WithColumn | src/web/public/script.js:224-228 | the board with one column replaced and the others kept |
| BoardClient.WithColumnRows | src/web/public/script.js:224-228 | replacing a column changes the board's jobs by exactly that column |
| BoardClient.FindIndex | src/web/public/script.js:224 | the first position holding the id, or none |
| BoardClient.LocalMove | src/web/public/script.js:224-229 | the job is cut out, restated and appended to the target; a missing job leaves the board; a target that is no column throws |
| BoardClient.MovePlacement | src/web/public/script.js:224-229 | between columns, the job leaves the source, ends the target, and the other columns are untouched |
| BoardClient.MoveRows | src/web/public/script.js:224-229 | a local move keeps the jobs, only restating the moved one's status |
| BoardClient.MoveUndetected | src/web/public/script.js:224-229 | a move that does not throw keeps the count and ids, so the change check misses it |
| BoardClient.ThrowLosesJob | src/web/public/script.js:224-229 | a move to a non-column throws after the cut and leaves one job fewer |
| BoardClient.PlacementsOf | src/web/public/script.js:420-430 | each card with its index, in order |
| BoardClient.PositionMap | src/web/public/script.js:474-480 | a job has a position exactly when it was saved, and it is the position of its last saved entry |
| BoardClient.InsertByPosition | src/web/public/script.js:481-485 | inserting keeps the column's multiset plus the job |
| BoardClient.InsertSorted | src/web/public/script.js:481-485 | insertion keeps a column in position order |
| BoardClient.SortByPosition | src/web/public/script.js:481-485 | the sort returns a permutation of the column in position order |
| BoardClient.SortSorted | src/web/public/script.js:481-485 | a column already in order comes out unchanged |
| BoardClient.PositionMapOfPlacements | src/web/public/script.js:420-430 | in the saved map of a column with distinct ids each job's position is its index |
| BoardClient.SavedOrderRestored | src/web/public/script.js:416-485 | positions saved from a column with distinct ids restore that column's order |
| BoardClient.PositionedFirst | src/web/public/script.js:481-485 | with every saved position below the 9999 default, jobs with a saved position come before those without |
| BoardClient.Arranged | src/web/public/script.js:474-486 | a column is sorted by its saved positions when there are any |
| BoardClient.GroupedColumnsAgree | src/web/public/script.js:488-503 | the server's board has each job in the column its status names, so reconciliation has nothing to do |
| BoardClient.KanbanClient.constructor | src/web/public/script.js:2-14 | empty columns over whatever local storage holds |
| BoardClient.KanbanClient.SaveToCache | src/web/public/script.js:507-518 | the board is cached with the time |
| BoardClient.KanbanClient.LoadFromCache | src/web/public/script.js:520-538 | the cached board while at most five minutes old; an older entry is removed |
| BoardClient.KanbanClient.SavePositionsToLocal | src/web/public/script.js:416-443 | each shown column's card ids with their indices, with the time |
| BoardClient.KanbanClient.LoadPositionsFromLocal | src/web/public/script.js:445-464 | the saved positions while at most 24 hours old; an older entry is removed |
| BoardClient.KanbanClient.ApplyLocalPositions | src/web/public/script.js:466-505 | with valid saved positions every column is sorted by them |
| BoardClient.KanbanClient.LoadKanbanBoard | src/web/public/script.js:90-132 | a valid cache is shown first; on a miss the cache entry is gone; fetched data replaces the board, sorted by unexpired positions (expired ones removed), and is cached |
| BoardClient.KanbanClient.LoadFreshDataInBackground | src/web/public/script.js:540-567 | fresh data replaces the board only when the change check says so; then it is sorted by unexpired positions (expired ones removed) and cached |
| BoardClient.KanbanClient.MoveJob | src/web/public/script.js:205-244 | on success the local move is applied and saved; a failure or throw asks for a reload |
| BoardClient.KanbanClient.ClearLocalStorage | src/web/public/script.js:619-624 | both entries are removed and the board kept |

## Left out

- I/O is not modelled as I/O. HTTP, GraphQL, SQLite connections, `console` and the logger are replaced by oracle parameters, or dropped where they only log.
- The clock is a parameter: `Date.now()`, `new Date()` and `CURRENT_TIMESTAMP`. Dates are opaque strings, except `created_at`, which is an integer timestamp and is ordered numerically. `new Date(...).toISOString()` and adding 30 days are a `DateOps` parameter, and the en-US date formats of the description are not modelled.
- Floating point is not modelled:
  - `parseFloat`, `AVG(budget)` and the `avgBudget` rounding of `/stats` are left out;
  - the sync percentage is computed exactly.
- Budgets are integers. A non-number `budget` field is treated as absent.
- `JsLower` lower-cases ASCII letters and a few Unicode ones, not the full Unicode case mapping. The amount rendering assumes an English locale.
- UTF-16 code units and characters are treated as the same: string lengths are counted in characters.
- Ties in `ORDER BY` keep table order. SQLite leaves them unspecified.
- SQL errors:
  - the model assumes other SQL errors away;
  - it keeps the per-job save failure of `processJobs`;
  - it keeps a single write fault of the notifier;
  - the `github_synced IS NULL` case has no NULL, because the column is always written as 0 or 1.
- `formatJobDescription` is not modelled. Its Markdown body is part of the create request, and its dates need the date library.
- These operations are not modelled:
  - `createGitHubIssue`'s repository split of the issues setting;
  - `testConnection` and the `/github/test` route;
  - `GET /:id`;
  - `GET /stats/overview`;
  - `fetchJobDetails`;
  - `buildAnalysisPrompt`'s template text (only the fields it interpolates are).
- `processJobs` lists the enabled categories by name in the settings. The model takes them as ids.
- `CONFIG.github.enabled` is a constant `true` for the routes: their disabled branch (the 400 of the sync route) is not modelled. A processor without a GitHub service (`svc` is `None` in `Processor.ProcessJobs` and `Processor.SaveJobToGitHub`) is the processor the disabled setting builds.
- A NULL `created_at` cannot be expressed: the column is an integer, so the place SQLite gives NULL in `ORDER BY created_at DESC` (last) is not modelled.
- `DEFAULT_CONFIG`'s shared enabled array is treated as a value: the aliasing between managers built from it is not modelled.
- The `limit` of the routes is an integer. `parseInt` of an arbitrary string is not modelled.
- Cron:
  - the scheduler (`node-cron`), `printStatus`, `start` and the signal handlers are left out;
  - `fetchJobs` is split into `Begin` and `Finish`, so that an overlapping call can be expressed.
- Analyser: the delay between requests and the JSON of the reply are not modelled. The reply is its list of content texts.
- Notifier:
  - the message posted is not recorded.
- The sync route's `skippedCount` branch is dead: `JobsRoutes.SyncToGitHub` proves nothing is skipped.
- ClearProject.GetAllProjectItems takes a request budget (`fuel`), because the source loop need not terminate. A run that spends the budget ends as `Unfinished`.
- ClearProject.ClearGitHubProject ends the process's `process.exit(1)` as an `Exited` outcome. The item titles it prints are not modelled.
- Browser client:
  - the DOM, drag and drop, toasts, the modal and the statistics panel are left out;
  - the order of the shown cards is a parameter of `SavePositionsToLocal` and `MoveJob`;
  - the reload after a failed move is returned as a flag, not performed;
  - the background refresh is a separate call the caller makes;
  - a stored entry whose JSON does not parse is not modelled;
  - the UI wrappers `fetchJobs`, `fetchAllJobs`, `analyzeJobs`, `loadStats`, `testGitHubIntegration`, `syncToGitHub` and `saveNotes` only call the routes modelled above, so they are left out.
- BoardClient.KanbanClient.ApplyLocalPositions does not model the reconciliation step: `BoardClient.GroupedColumnsAgree` shows it is a no-op on the server's board.
- BoardClient.SortByPosition states sortedness and permutation, but not the stability of the engine's sort.
- JobsRoutes.ListJobs states the filter, the order and how many rows the window holds; which rows the offset selects is stated by `Store.LimitOffset` on the ordered selection, not by `ListJobs` itself.
- GitHubRules.GenerateTags only bounds the number of tags; `GitHubRules.GenerateTagsLayout` and `GitHubRules.GenerateTagsKeywords` state their layout.
- GitHubRules.ContentTags only bounds the number of tags; `GitHubRules.ContentTagsMatch` states which are present.
- GitHubRules.Labels only bounds the number of labels; `GitHubRules.LabelsMembers` states which they are.
- KanbanRoutes.Stats only states which statuses have an entry; `KanbanRoutes.StatsEntries` states each entry's count, minimum and maximum.
- Store.Insert only states the multiset; `Store.InsertSorted` states the order.
- JobsRoutes.SyncCandidates states membership, order and a length bound; how many rows are selected, and that they are the front of the ordered selection of unsynced rows, is stated by `JobsRoutes.SyncCandidatesCount`.
- AnalyzedJobs: `processed_at` is taken to be the time a row was last inserted (the schema that sets its default is not part of this model). `INSERT OR REPLACE` appends, so newest first is reverse table order; rows inserted within the same second may come out in either order in SQLite, and the model fixes one.
- GitHubRules.ParseProjectUrl only states the shape of a parsed owner; the round-trip lemmas `GitHubRules.ParseProjectUrlRoundTrip` and `GitHubRules.ParseBuiltUrl` state what is parsed.
- JobsRoutes.Successes and JobsRoutes.CreatedCount only bound their counts; `JobsRoutes.SyncToGitHub` ties the count to the loop.
- ClearProject.DeletedCount only bounds the count; `ClearProject.DeletedCountCounts` states which items it counts.
- Notifications.FormatJobMessage only bounds the length; `Notifications.BodyPlain`, `Notifications.BodyBold` and `Notifications.MessageBold` state its text.
- Notifications.ReplaceBold only bounds the length; `Notifications.ReplaceBoldPlain` and `Notifications.ReplaceBoldSpan` state what it replaces.
- GitHubRules.GroupDigits only bounds the length; `GitHubRules.GroupDigitsUngroup` states that removing the commas gives the digits back.
- Processor.SavedRows only states the empty case; `Processor.SavedRowsIds` states which ids the loop stores.
- KanbanRoutes.Bucket and KanbanRoutes.Grouped state what a column may hold; `KanbanRoutes.BucketMembers`, `KanbanRoutes.GroupedPlacement` and `KanbanRoutes.GroupedSize` state that every row lands in its column.
