# Hunch hub — a verified model of its core

The Hunch hub is a small agency dashboard. Staff unlock it with a four-digit PIN and then
use four screens. WIP shows live jobs in four sections. To-do sorts jobs by due date. The
tracker shows a client's monthly and quarterly spend against the money they committed. The
conversation screen is "Dot": a question goes to a chat back end, and its reply is turned into
job cards, a follow-up prompt or a redirect to another screen.

Two Flask servers sit behind the dashboard, `app.py` and the hub-only copy `hub_app.py`.
They read the Airtable tables Projects, Clients, Tracker and Updates. They turn records into
the job schema the dashboard renders, and they map the dashboard's edits back onto Airtable fields.
`app.py` also signs and checks the login tokens of client users.

This project models that core in Dafny.

- **Values:** jobs, Airtable records and their field values, tracker rows, tokens and Dot's replies are datatypes.
- **Pure logic:** the pure parts (parsers, filters, scores, mappings) are functions. Lemmas state what they promise.
- **Loops:** the loops of the source are methods whose loop invariants tie them to those functions. These are filter-and-sort, the board grouping, scoring, the field-mapping loops and the tracker loops.
- **State:** the dashboard's `state` object is a class whose methods are the PIN keypad, the optimistic WIP toggle and Dot's redirect.

Modules:

| module | models |
|---|---|
| `Wrappers` | `Option` and `Result` |
| `Seqs`, `Sorting` | `Array.filter` and its lemmas; a stable sort by an optional key, with missing keys last |
| `Text` | Python's `str.strip`, `split`, `join`, `lower`/`upper`, `int()` and `float()` on text, `%03d` |
| `Loops` | a loop that collects optional rows and stops at the first exception |
| `Jobs` | the dashboard's job record and its date helpers (`getDaysUntilDue`, `formatDueDate`, `getLogoUrl`, ...) |
| `JobFilter` | `getFilteredJobs`, `searchJobs`, `scoreJobMatch`, `getClientsWithJobCounts` |
| `Wip` | `getWipFilteredJobs`, `groupByTodo`, `groupByWip` |
| `Tracker` | `getQuarterMonths` and the tracker's totals |
| `Session`, `Dashboard` | the PIN keypad, `sessionId`, the dashboard state, the WIP toggle, Dot's redirect |
| `Conversation` | `askDot` and `processQuestion` of `hub_changes.js` |
| `ServerDates` | `parse_airtable_date`, `parse_status_changed`, `extract_client_code`, `format_date_friendly` |
| `Records` | Airtable values and `transform_project` in both servers' variants |
| `Tokens` | `generate_token` and `verify_token` |
| `FieldMapping` | the `update_job` and `update_tracker` field mappings; the status sets of `get_all_jobs` |
| `TrackerRecords` | `get_tracker_clients` and `get_tracker_data` |
| `NewJob` | `preview_job_number` and `create_new_job` of `hub_app.py` |

The inputs the code takes from its surroundings are parameters of the model:

- the current time (`nowMs`, `today`, `now`);
- SHA-256 (`hexDigest`) and base64 (`encode`/`decode`);
- the reply of the chat back end, or its network failure;
- Airtable's records and replies;
- Python's `str()` of a list (`listText`).

## Model

| member | source | states |
|---|---|---|
| Jobs.CeilDiv | app.js:802 | `Math.ceil(a / b)` for a positive divisor: the least q with a <= q*b |
| Jobs.DaysUntilDue | app.js:802 | no due date gives the missing-date marker; otherwise the count is the ceiling of the remaining milliseconds in days |
| Jobs.DaysUntilDueOnDay | app.js:802 | at any instant of day `today`, a job due at midnight of day `d` is `d - today` days away |
| Jobs.DaysSinceUpdate | app.js:803 | no update date gives the marker; otherwise the count is the floor of the elapsed milliseconds in days |
| Jobs.DaysAgoClassOf | app.js:804 | the "stale" class is used exactly when more than 7 days have passed |
| Jobs.LogoUrl | app.js:805 | ONB, ONS and ONE share the ONE logo; any other code uses `images/logos/<code>.png` |
| Jobs.DueDateLabel | app.js:789-799 | "TBC" exactly when there is no date; "Overdue" exactly when the date is past; "Today" exactly when the date is today; "Tomorrow" exactly when it is the next day; a plain date exactly when it is later than tomorrow |
| JobFilter.GetFilteredJobs | app.js:571-625 | the result holds exactly the jobs that pass the client, status, with-client and date-range filters, each at most as often as in the input; it is sorted by the chosen key in the chosen direction, and it equals the specification function `FilteredJobs` |
| JobFilter.ClientFilter | app.js:573 | after the client step the jobs are those passing the first filter step, in cache order |
| JobFilter.StatusFilter | app.js:574 | after the explicit-status step the jobs are those passing the first two steps, in cache order |
| JobFilter.WithClientFilter | app.js:575-576 | after the with-client step the jobs are those passing the first three steps, in cache order |
| JobFilter.DateFilter | app.js:578-591 | after the date-range step the jobs are those passing the first four steps, in cache order |
| JobFilter.DefaultStatusFilter | app.js:594-596 | after the default-status step the jobs are those passing all five steps, in cache order |
| JobFilter.RangesNest | app.js:584-587 | a job due today is due by tomorrow, and one due by tomorrow is due within the week |
| JobFilter.FilteredJobsProperties | app.js:571-625 | the filtered list is a sub-multiset of the jobs; membership is exactly the filter predicate; the list is sorted |
| JobFilter.FilteredJobsStatus | app.js:574-596 | unless all statuses are asked for, only In Progress jobs appear when no status is given, and only the given status otherwise; a date range shows only dated jobs |
| JobFilter.FilteredJobsStable | app.js:599-622 | jobs with equal sort keys keep their original relative order |
| JobFilter.DateRangesNest | app.js:578-591 | the date ranges are cumulative: the "today" jobs are among the "tomorrow" jobs, and those among the "week" jobs |
| JobFilter.UndatedJobsLast | app.js:613-620 | sorting by due date in ascending order puts every undated job after every job due before 9999-12-31 |
| JobFilter.ClientFilterExample | app.js:571-625 | filtering by client ONE keeps ONE's In Progress job and drops its On Hold job |
| JobFilter.TermScore | app.js:640-646 | one term earns between 0 and 37 points (20, 10, 5 and 2 for a hit in number, name, description and update) |
| JobFilter.ScoreBounds | app.js:634-648 | a job's score lies between 0 and 37 times the number of terms |
| JobFilter.ScorePositive | app.js:634-648 | the score is positive exactly when some term hits some field |
| JobFilter.NumberHitsOutscoreDescriptionHits | app.js:640-646 | when every term hits `a`'s job number and `b` at most in its description, `a` scores at least as much as `b` |
| JobFilter.ScoreJobMatch | app.js:634-648 | the loop's score equals the sum over the terms, and it is bounded as above |
| JobFilter.KeepScoring | app.js:630 | the kept jobs are exactly those scoring above zero, in their original order |
| JobFilter.SearchJobs | app.js:627-632 | the result equals `SearchResult`: the filtered jobs with a positive score, ordered by descending score |
| JobFilter.SearchResultProperties | app.js:627-632 | with no terms, the result is the client's jobs of any status; otherwise it is exactly those with a positive score, and scores never increase along it |
| JobFilter.RankedMatches | app.js:629-631 | ranking keeps exactly the jobs scoring above zero, with scores never increasing along the result |
| JobFilter.ClientsWithJobCounts | app.js:713-715 | the listed clients are the clients with an In Progress job, in the client list's order; each carries the number of its In Progress jobs, which is positive |
| Wip.WipFilteredJobs | app.js:858-861 | exactly the jobs of the selected client (or all clients) that are not placeholders, each at most as often as in the input |
| Wip.PlaceholderNeverShown | app.js:858-861 | a job numbered `<code> 000` or `<code> 999` is never shown on WIP |
| Wip.PlaceholderNumber | app.js:858-861 | a client code, a space and 000 or 999 is a placeholder number |
| Wip.SectionMembers | app.js:863-893 | a board section holds exactly the jobs its classifier puts there |
| Wip.SectionOrder | app.js:876-877 | the jobs inside a section are ordered by days until due |
| Wip.PartitionFour | app.js:863-893 | when a classifier picks one of four distinct sections, the four sections together are the classified jobs, as a multiset |
| Wip.TodoBucketOf | app.js:866-874 | a job has no to-do section exactly when it is on hold, completed or archived |
| Wip.GroupByTodo | app.js:863-879 | the four to-do sections are DO IT NOW, DO IT SOON, COMING UP and WITH CLIENT, each holding the jobs its rule selects, sorted by due date |
| Wip.TodoPass | app.js:865-875 | the `forEach` pass leaves each to-do section holding exactly the jobs its rule selects, in cache order |
| Wip.PushTodo | app.js:866-874 | one job is appended to exactly the to-do section its status, owner and days until due pick, and to no other; on-hold, completed and archived jobs to none |
| Wip.TodoBoardPartition | app.js:863-879 | the to-do sections together hold every job that is not on hold, completed or archived, each exactly once |
| Wip.TodoPlacement | app.js:866-874 | a job with the client goes to WITH CLIENT; otherwise an Incoming job goes to COMING UP, and the rest go to DO IT NOW up to 1 day away, DO IT SOON up to 5 days, COMING UP beyond |
| Wip.UndatedTodoComingUp | app.js:870-873 | an In Progress job with no due date (999 days away) that is not with the client is listed under COMING UP |
| Wip.WipBucketOf | app.js:883-889 | a job has no WIP section exactly when it is completed or archived |
| Wip.GroupByWip | app.js:881-893 | the four WIP sections are WE'RE ON IT, WITH YOU, INCOMING and ON HOLD, each holding the jobs its rule selects |
| Wip.WipPass | app.js:882-890 | the `forEach` pass leaves each WIP section holding exactly the jobs its rule selects, in cache order |
| Wip.PushWip | app.js:883-889 | one job is appended to exactly the WIP section its status and owner pick, and to no other; completed and archived jobs to none |
| Wip.WipBoardPartition | app.js:881-893 | the WIP sections together hold every job that is not completed or archived, each exactly once |
| Wip.WipPlacement | app.js:883-889 | On Hold jobs go to ON HOLD and Incoming jobs to INCOMING; of the others, jobs with the client go to WITH YOU and the rest to WE'RE ON IT |
| Tracker.Quarter | app.js:1288-1291 | each quarter lists three months |
| Tracker.QuarterMonths | app.js:1287-1298 | the result always contains the month; a calendar month gives its quarter; any other text gives the one-element list |
| Tracker.TrackerTotals | app.js:1208-1217 | spent is the item-by-item spend of the displayed months; the budget is three months of commitment plus the rollover in the quarter view and one month otherwise; remaining is the budget minus spent, and it is negative exactly when spending exceeds the budget |
| Tracker.FilteredSumIsMonthSpend | app.js:1211-1214 | the filter-then-reduce chain equals the plain per-month sum |
| Tracker.SumOverThreeMonths | app.js:1211-1214 | the spend over three distinct months is the sum of the three monthly spends |
| Tracker.QuarterDistinct | app.js:1288-1291 | a quarter's three months are distinct |
| Tracker.QuarterSpendIsMonthlySum | app.js:1208-1214 | quarter-view spend is the sum of the spend of the quarter's three months |
| Tracker.ThreeMonthSpend | app.js:1211-1214 | spend filtered by three distinct months is the sum of the three single-month spends |
| Tracker.QuarterRemainingByMonths | app.js:1208-1216 | quarter-view remaining is three commitments plus rollover, minus the three monthly spends |
| Session.PinUser | app.js:19-22 | a PIN unlocks exactly when it is 9871 or 1919, and it signs in an all-clients Hunch user |
| Session.PinUserFourDigits | app.js:19-22 | every PIN that unlocks has four characters |
| Session.PinAfterDigit | app.js:157-159 | a full buffer is left as it is; otherwise the digit is appended |
| Session.PinAfterDelete | app.js:165-166 | delete removes the last character, and an empty buffer stays empty |
| Session.DeleteUndoesDigit | app.js:157-166 | pressing delete after a digit on a buffer that is not full restores the buffer |
| Session.TypedPinIsFirstFour | app.js:157-163 | typing any digits keeps only as many as fill the buffer to four |
| Session.SessionId | hub_changes.js:32 | the session id is the user's name when there is one, and otherwise "anonymous"; it is never empty |
| Dashboard.FindJob | app.js:1023 | the index found holds the first job with that number; no index means no job has it |
| Dashboard.SetWithClient | app.js:1025 | only the chosen job's with-client flag changes |
| Dashboard.RevertRestores | app.js:1025-1029 | setting the flag back to its old value restores the job list |
| Dashboard.AppState.constructor | app.js:27-40 | the dashboard starts with an empty PIN, no user, the home view, no jobs, WIP on all clients and no tracker client |
| Dashboard.AppState.EnterPin | app.js:157-163 | the buffer becomes `PinAfterDigit` of the old one; a check is scheduled exactly when this digit made four; nothing else changes |
| Dashboard.AppState.DeletePin | app.js:165-169 | the buffer becomes `PinAfterDelete` of the old one; nothing else changes |
| Dashboard.AppState.CheckPin | app.js:181-192 | a known PIN signs its user in; an unknown one schedules clearing the buffer and leaves the user as it was |
| Dashboard.AppState.ClearPin | app.js:190 | the delayed clear empties the buffer and changes nothing else |
| Dashboard.AppState.ToggleWipWithClient | app.js:1022-1026 | an unknown job number changes nothing; otherwise the job's flag is set at once and its old value is remembered for the request's outcome |
| Dashboard.AppState.SettleToggle | app.js:1027-1029 | a successful request keeps the new flag; a failed one restores the remembered value |
| Dashboard.AppState.ApplyRedirect | hub_changes.js:122-145 | the view becomes the redirect's target; a client parameter selects the WIP or tracker client of that target; nothing else changes |
| Conversation.OrText | hub_changes.js:147-162 | JavaScript's `a \|\| b` on text: an absent or empty text falls back |
| Conversation.Request | hub_changes.js:32-43 | the request carries the question, the source "hub" and the session id; without a user it is sent as "Hub User" / hub@hunch.co.nz |
| Conversation.AskDot | hub_changes.js:30-56 | a network failure or a non-OK reply gives null; an OK reply gives its body |
| Conversation.Dispatch | hub_changes.js:63-164 | null renders the trouble message with the help prompt; each reply type renders its message, jobs and prompt as its branch does; only a redirect with a target navigates |
| Conversation.UnknownKindIsAnswer | hub_changes.js:156-162 | a reply of unknown type is rendered like an answer, with its jobs |
| Conversation.RedirectOnlyWhenAsked | hub_changes.js:122-145 | a navigation happens exactly for a redirect reply that names a target, and it goes to that target with its client |
| Conversation.JobsComeFromReply | hub_changes.js:85-162 | every job card shown was in the reply, and only answer, confirm or unknown-type replies show cards |
| Conversation.PromptIsReplysOrHelp | hub_changes.js:75-162 | the follow-up prompt shown is the reply's own or the help prompt, or there is none |
| Conversation.FailedRequestRendersTrouble | hub_changes.js:30-81 | a failed request renders the trouble message and does not navigate |
| Conversation.ArgumentObjectAsWritten | hub_changes.js:75-162 | the object actually passed to `renderResponse` carries the message under the key `message`, never `text` |
| Conversation.ArgumentObject | hub_changes.js:75-162 | the intended object carries the message under `text` |
| Conversation.ShownParagraph | app.js:651-655 | the paragraph shows the `text` property, or "undefined" when it is missing |
| Conversation.AsWrittenShowsUndefined | app.js:651-655 | as written, every reply (and the null case) shows "undefined" |
| Conversation.FixedShowsMessage | hub_changes.js:75-154 | with `text`, the paragraph shows the reply's message, the trouble message for null, and the error text for errors |
| ServerDates.DaysInMonth | app.py:484 | a month has 28 to 31 days |
| ServerDates.Pad | app.py:484 | zero padding keeps the digits' value and reaches the requested width |
| ServerDates.ParseDmy | app.py:480-486 | a day/month/year match yields the ISO text of a valid calendar date |
| ServerDates.ParseAirtableDate | app.py:461-488 | empty text and "TBC" (in any case) give None; a result is an ISO prefix or the ISO text of a valid date |
| ServerDates.ParseBranches | app.py:469-488 | after the blank and TBC checks, an ISO-looking text keeps its first ten characters and anything else goes through the D/M/YYYY search |
| ServerDates.IsoPrefixKept | app.py:475-477 | a text starting `YYYY-MM-DD` parses to those ten characters |
| ServerDates.DmyParsed | app.py:480-486 | `D/M/YYYY` of a valid date parses to that date in ISO form |
| ServerDates.ThirtyFirstOfFebruaryRejected | app.py:482-486 | 31/2/2026 is refused, since `datetime` raises for it |
| ServerDates.ExampleDate | app.py:482-486 | "31", "2" and "2026" have the D/M/YYYY shape and name a day that does not exist |
| ServerDates.ParseStatusChanged | app.py:540-561 | empty text gives None |
| ServerDates.StatusChangedDatePart | app.py:546-548 | a timestamp with a `T` keeps the date before it |
| ServerDates.StatusChangedDmy | app.py:553-559 | `D/M/YYYY` of a valid date becomes its ISO form |
| ServerDates.ExtractClientCode | app.py:564-569 | None exactly for an empty job number; otherwise the text before the first space |
| ServerDates.ClientCodeOfJobNumber | app.py:564-569 | `<code> <number>` gives back the code |
| ServerDates.FormatDateFriendly | app.py:491-503 | None exactly for empty text |
| ServerDates.FriendlyKeepsUnparsed | app.py:499-503 | text that `strptime` refuses is returned unchanged |
| ServerDates.FriendlyOfIso | app.py:499-501 | the ISO text of a valid date becomes `DD Mon` |
| ServerDates.StrptimeOfIso | app.py:500 | `strptime` with `%Y-%m-%d` reads back exactly the date whose ISO text it is given |
| Records.Or | app.py:581 | Python `a or b`: `a` when truthy, otherwise `b` |
| Records.LatestUpdate | app.py:581-585 | a summary without '\|' is kept; one with '\|' gives its stripped last piece |
| Records.LatestUpdateIsLastEntry | app.py:581-585 | joining two or more entries with '\|' gives back the last entry, stripped, and it has no '\|' |
| Records.UpdateHistory | app.py:597-603 | a list is kept, text is split into its stripped non-blank lines, and anything else gives the empty list |
| Records.NonBlank | app.py:599 | at most as many lines as given, and every kept line is non-blank and stripped |
| Records.HistoryLinesRoundTrip | app.py:597-599 | stripped non-blank lines joined by newlines split back into the same lines |
| Records.ParseDateValue | app.py:588 | a falsy value gives no date; text goes through `parse_airtable_date` |
| Records.ClientCodeOf | app.py:610 | a falsy job number gives no code; text goes through `extract_client_code` |
| Records.ClientCodeFromJobNumber | app.py:610 | a record numbered `<code> <number>` gets that client code |
| Records.TransformProject | app.py:572-632 | the schema's fields are the record's fields after the defaults (Triage, Incoming, '-', ...), with the latest update and the history derived as above |
| Records.EmptyRecordDefaults | app.py:572-632 | an empty record gives the defaults: no client code, stage Triage, status Incoming, not with the client, no due date, '-' days |
| Records.HubCopyAgrees | hub_app.py:159-217 | the hub's copy returns the same schema without `theStory` and `filesUrl`, and fails exactly when the other fails |
| Tokens.Repad | app.py:56-58 | '=' is appended up to a multiple of four, and the text before it is kept |
| Tokens.RepadTrimmed | app.py:48-58 | putting the padding back undoes stripping it from a base64 text |
| Tokens.ExpiresAt | app.py:44 | a token issued at `now` expires `int(now)` plus seven days of seconds later |
| Tokens.GenerateToken | app.py:42-49 | the token carries no trailing '=' |
| Tokens.VerifyToken | app.py:52-88 | errors are only "invalid" or "expired"; text that does not decode, or does not split into six pieces, is "invalid" |
| Tokens.AcceptedExactly | app.py:52-88 | a token is accepted exactly when it has six pieces, a matching signature and an expiry that parses and is not past; it then names the user in its first four pieces |
| Tokens.ForgedIsInvalid | app.py:69-77 | the signature is checked before the expiry, so a token that is "invalid" now is "invalid" at any time |
| Tokens.GeneratedTokenVerifies | app.py:42-88 | when no field holds '\|' and base64 decodes what it encodes, a generated token verifies as its user until its expiry |
| Tokens.GeneratedTokenExpires | app.py:42-88 | the same token is "expired" after its expiry |
| Tokens.DefaultUser | app.py:42 | a user made without an access level gets 'Client WIP', with the other fields as given |
| Tokens.DefaultTokenVerifies | app.py:42-88 | a token generated with the default access level verifies, up to its expiry, as that user with 'Client WIP' access |
| FieldMapping.Lookup | app.py:995-1011 | `dict.get` on a request body: None exactly when the key is absent |
| FieldMapping.AirtableName | app.py:999-1008 | the keys renamed are exactly the eight of update_job's `field_mapping` and the five of update_tracker's (the dict at app.py line 1200), and none is renamed to "Update" |
| FieldMapping.AirtableNameInjective | app.py:999-1008 | no two request keys map to the same Airtable field, and none maps to "Update" |
| FieldMapping.Converted | app.py:1014-1019 | `withClient` is stored as a boolean of its truthiness; every other mapped value is stored unchanged |
| FieldMapping.MapFields | app.py:1010-1019 | the loop's field map equals `MappedFields` of the request |
| FieldMapping.MappedFieldsExactly | app.py:1010-1019 | the patch holds exactly the mapped keys of the request, each with its converted value |
| FieldMapping.MappedFieldsLackUpdate | app.py:1010-1019 | the mapping alone never writes "Update" |
| FieldMapping.MessageOf | app.py:995 | a missing message is ""; a text message is stripped; any other value fails as Python does |
| FieldMapping.JobPatch | app.py:995-1023 | "Update" is written exactly when the message is non-empty (not in the hub's copy), and every other key is the mapping's |
| FieldMapping.UpdateJobFields | app.py:995-1023 | the method's patch equals `JobPatch` |
| FieldMapping.WithClientIsBoolean | app.py:1016-1017 | a `withClient` in the request is patched as the boolean of its truthiness |
| FieldMapping.UnmappedRequestPatchesOnlyUpdate | app.py:1010-1023 | a request with no known keys patches at most "Update" |
| FieldMapping.UpdateRecord | app.py:1042-1051 | an Updates record is made exactly for a non-empty message, linked to the project, with "Update Due" exactly when a truthy due date was sent |
| FieldMapping.TrackerPatch | app.py:1192-1214 | no body, or an empty one, is "No data provided"; success needs a truthy id and at least one mapped field, and it patches exactly the mapped fields |
| FieldMapping.UpdateTracker | app.py:1189-1214 | the method's result equals `TrackerPatch` |
| FieldMapping.TrackerNeedsAMappedKey | app.py:1201-1214 | a body with an id and no tracker field is "No valid fields to update" |
| FieldMapping.StatusesFor | app.py:894-905 | Completed is selected exactly for "completed" or "all", Archived exactly for "all", the active statuses for anything but "completed" |
| FieldMapping.Selects | app.py:907-912 | a record is selected only with a known status; without a client it is selected exactly when its status is in the set, and with a client also only when its job number starts with the client code |
| FieldMapping.UnknownStatusIsActive | app.py:898-905 | an unknown status parameter selects the same statuses as no parameter |
| FieldMapping.StatusSetsNest | app.py:896-905 | "completed" selects only Completed jobs, "all" selects everything any filter selects, and the default never selects a completed job |
| Loops.Collect | app.py:1087-1108 | the collected rows are never more than the records |
| Loops.CollectFailureSticks | app.py:1087-1108 | once a record raises, the rest of the loop does not matter |
| Loops.CollectExactly | app.py:1087-1108 | a loop that completes keeps exactly the records that yield a row, and the dropped plus kept rows are all the records |
| Loops.CollectFailureCause | app.py:1087-1108 | a failing loop fails with the exception of one of its records |
| TrackerRecords.PlainAmount | app.py:1083 | the text handed to `int()` has no '$' and no ',' |
| TrackerRecords.ParseCurrency | app.py:1080-1085 | numbers and booleans are kept as they are, empty text is 0, other text goes through `int()` and raises when that fails, and anything else is 0 |
| TrackerRecords.Rollover | app.py:1093-1098 | a numeric rollover is clamped at 0; other values become 0, except `True`, which stays because `max` keeps it |
| TrackerRecords.ClientRowOf | app.py:1090-1106 | a client gets a row only when its committed amount parses and is positive (a positive number or `True`), the row keeps that amount as parsed, and the row marks JAN-MAR exactly when the rollover is positive |
| TrackerRecords.SortedClients | app.py:1110 | the sort fails with TypeError exactly when two or more rows are sorted and some name is not text; otherwise it is a permutation of the rows, ordered by name |
| TrackerRecords.GetTrackerClients | app.py:1087-1110 | the loop's result equals `TrackerClients` |
| TrackerRecords.TrackerClientsProperties | app.py:1087-1110 | the clients listed are a permutation of the rows collected, sorted by name; each has a positive commitment and a rollover that is not negative |
| TrackerRecords.Unwrap | app.py:1144-1154 | a lookup list gives its first element, or "" when it is empty; any other value is kept |
| TrackerRecords.SpendOf | app.py:1156-1158 | text spend is cleaned and parsed as a float; other values are kept |
| TrackerRecords.SpendRowOf | app.py:1140-1175 | a record raises exactly when its spend does not parse; it is dropped exactly when the spend is zero |
| TrackerRecords.TrackerData | app.py:1121-1123 | a missing or empty client is "Client code required" |
| TrackerRecords.GetTrackerData | app.py:1119-1181 | the loop's result equals `TrackerData` |
| TrackerRecords.SpendRowsExactly | app.py:1140-1175 | a successful result holds exactly the rows of the records with non-zero spend, and says how many were dropped |
| TrackerRecords.DroppedMeansZeroSpend | app.py:1160-1162 | a record is left out exactly when its spend is zero |
| TrackerRecords.LookupListsUnwrapped | app.py:1144-1154 | the row shows the first element of each lookup list |
| NewJob.IntOf | hub_app.py:378-381 | `int()` of the counter text fails exactly when the text is not an integer |
| NewJob.JobNumberFor | hub_app.py:384 | a job number is the client code, a space and at least three digits |
| NewJob.NextNumber | hub_app.py:374-381 | a missing counter is a 400 naming the client; a text counter gives its value when `int()` accepts it and a 400 naming it otherwise; every error is a 400 or a 500 |
| NewJob.PreviewJobNumber | hub_app.py:296-338 | an unknown client is a 404; otherwise the preview is the next job number, with the client's name |
| NewJob.AirtableStatus | hub_app.py:398 | 'soon' becomes Incoming and anything else In Progress |
| NewJob.Optional | hub_app.py:410-417 | a conditional assignment writes its one key, with the value given, exactly when the condition holds |
| NewJob.BaseFieldValues | hub_app.py:400-407 | the six fields always written: number, name, status, Triage, not with the client, the client link |
| NewJob.OptionalFieldsContent | hub_app.py:410-417 | description, owner and due date are written exactly when truthy, and the live month exactly when truthy and not "Tbc" |
| NewJob.ProjectFields | hub_app.py:400-417 | the conditional assignments, one after another, give exactly `NewProjectFields` |
| NewJob.SetWhen | hub_app.py:410-417 | one `if value: fields[key] = value` adds the key with that value exactly when the condition holds, and changes nothing else |
| NewJob.NewProjectBase | hub_app.py:400-417 | no optional field overwrites one of the six base fields |
| NewJob.NewProjectOptional | hub_app.py:410-417 | in the assembled fields each optional key is present exactly when its condition holds, with its value |
| NewJob.NewProjectKeys | hub_app.py:400-417 | nothing but the ten known fields is written |
| NewJob.OptionalFieldsMerged | hub_app.py:410-417 | adding the optional fields one by one equals adding them all at once |
| NewJob.CreateNewJob | hub_app.py:341-440 | a missing client code or job name is a 400; an unknown client a 404; otherwise the reserved number is the previewed one, the counter advances by one, and the fields are `NewProjectFields` of the request values |
| NewJob.ConsecutiveReservations | hub_app.py:384-391 | after a reservation, the next preview is the following number |
| NewJob.JobNumbersDistinct | hub_app.py:384 | different counters give different job numbers |
| NewJob.PreviewMatchesReservation | hub_app.py:315-324 | the preview shows exactly the number a creation would reserve |
| NewJob.JobNumberExample | hub_app.py:384 | counter 17 of SKY is "SKY 017" |
| NewJob.ReservationExample | hub_app.py:374-385 | a counter of "017" reserves 17 and stores "018" |
| Text.ParseIntToString | app.py:76 | `int(str(n)) == n` |
| Text.ParseIntFormat03 | hub_app.py:379-385 | `int(f"{n:03d}") == n` |
| Text.SplitJoin | app.py:45-61 | splitting a join on a separator that no part contains gives back the parts |
| Sorting.SortByCorrect | app.js:599-622 | the sort is a permutation, and its output is ordered |
| Sorting.SortByStable | app.js:599-622 | elements with equal keys keep their relative order |

## Left out

- Timezones. Dates are whole days from an epoch, and instants are milliseconds. `new Date` of a malformed text (NaN) is not modelled.
- `toLocaleDateString`, `toLocaleString` and `percentUsed`'s rounding, which are display only.
- `parse_friendly_date` (both servers), because it depends on the current year and locale month names.
- DOM rendering, timers, `fetch`, toasts, session storage, the dashboard's older local question handling, and the job-card markup.
- Airtable I/O: paging, filter formulas and HTTP status handling. The filter formula's text is not modelled, only the status set and client prefix it selects.
- Flask routing, cookies and the magic-link e-mail: `lookup_person`, `update_last_login`, `send_magic_link_email` and the login handlers.
- SHA-256, base64, `time.time()` and Python's `str()` of a list are parameters.
- The `preview_job_number` and `create_new_job` of `app.py`. They read the same Clients table as `hub_app.py`'s pair, but they differ from it: 'Next Job #' holds an already formatted job number, a separate numeric 'Next #' field is incremented, and `create_new_job` also creates a Tracker record. Only `hub_app.py`'s pair is modelled.
- The tracker endpoints of `hub_app.py`, which repeat `app.py`'s.
- Case conversion is ASCII only, and `\d` matches only ASCII digits.
- `strftime('%Y')` pads years below 1000 to four digits in the model, while glibc does not.
- `float()` of text with an exponent, `inf` or `nan`.
- JSON bodies that are not objects.
- NewJob.NextNumber: the 500 reply's message is the exception's type name, not the text `str(e)` gives.
- JavaScript strings are treated as sequences of code points, as in Python.
- Dashboard.AppState.ToggleWipWithClient: the job object that the request callback captures is identified by its index in the list, not by reference, so aliasing is not modelled.
- TrackerRecords.SortedClients: when two or more clients sort and some name is not text, the model reports a TypeError. Python still sorts a list whose names are all numbers, so this is weaker than the source.
- Loops.Collect: a loop over a record list is modelled as failing on the first record that raises. The tracker endpoints then answer 500, and the partial rows are not modelled.

## Findings

| source | as written | input that shows it | evidently intended | confidence | as-written member | corrected member |
|---|---|---|---|---|---|---|
| hub_changes.js:75-162 with app.js:651 | `processQuestion` calls `renderResponse({ message: ..., jobs, nextPrompt })`, but `renderResponse` destructures `text`, so the paragraph reads `undefined` | any reply, e.g. `{type: "answer", message: "Here you go"}`, or a failed request (null) | pass the message under `text`, so the reply's message (or the trouble message) is shown | not executed | Conversation.AsWrittenShowsUndefined | Conversation.FixedShowsMessage |
