# Video submission and moderation pipeline — a Dafny model

This project models the path a citizen video takes through the app:
- **Submit form (`app.js`).** The browser's submit form checks the file and title. It uploads the MP4 to object storage, in parts when the storage client supports multipart sessions. Then it registers a `videos` row in status `verifying` and follows the row's status over a realtime channel.
- **Processing function (`supabase/functions/process-video/index.ts`).** This server-side function writes `verifying`. It checks the stored object's size, MIME type and extension. It writes `transcoding`, optionally calls a transcoding webhook, and writes `pending`. On any failure it writes `failed`.
- **Moderator page (`admin.js`).** It decides who is a moderator, turns approve/reject clicks into status updates, and ranks the most-liked and most-flagged videos.
- **Usage-log function (`supabase/functions/log-usage/index.ts`).** It validates usage events, strips identifiers from the payload, and stores a row. It can also forward the event to Logflare and rebuild the trending statistics.
- **Public feed (`app.js`).** It builds public video links, labels categories, and toggles likes optimistically, rolling back on failure and rate-limiting clicks.

External services are oracles passed in as values, and every call made on them is returned as a trace:
- the storage client, the database and the webhook;
- a status write that throws (`Services.writeThrows`);
- the realtime subscription.

Code that changes things step by step is written as imperative Dafny:
- the multipart loop;
- the edge-function handlers;
- the page state (`uploadState`, the progress widget, the like board, the admin page), as classes.

Each method is proved equal to a reference function, and the properties are lemmas about that function.

Modules, one file each:
- `Wrappers`: `Option` and `Result`.
- `JsValue`: JSON values with JavaScript truthiness.
- `Text`: `trim`, lower-casing, `lastIndexOf`, HTML escaping.
- `VideoStatus`: the seven statuses, their keys, the processing order, and both message tables.
- `Multipart`: `uploadFileMultipart`.
- `Presenter`: the upload progress bar and the status line.
- `Subscription`: following one video's status.
- `Submit`: `validateFile` and `handleSubmit`.
- `ProcessVideo`: the processing function.
- `Feed`: category labels, video links and the like toggle.
- `Admin`: the moderator page.
- `UsageLog`: the usage-log function.

## Model

| member | source | states |
|---|---|---|
| VideoStatus.ParseIsKey | app.js:84-102 | a text parses to a status exactly when it is that status's key; any other text has no entry |
| VideoStatus.ParseKey | app.js:84-102 | every status key parses back to its status |
| VideoStatus.TerminalIsFinal | app.js:201-203 | nothing follows approved, rejected or failed in the processing order |
| VideoStatus.ToneNamed | app.js:114-124 | a tone name gives success or error exactly for "success" / "error", info otherwise |
| VideoStatus.ProgressEntry | app.js:94-102 | the progress table has an entry exactly for the seven status keys, non-empty, with the status's tone |
| VideoStatus.StatusEntry | app.js:84-92 | the status-message table has an entry exactly for the seven status keys, with the status's tone |
| VideoStatus.TablesAgree | app.js:84-102 | both tables know the same keys and give each the same tone |
| Text.LeadingSpace | app.js:850 | counts the whitespace that starts a string, up to its first non-space character |
| Text.TrailingSpace | app.js:850 | counts the whitespace that ends a string, back to its last non-space character |
| Text.Trim | app.js:850 | `trim` removes exactly the leading and the trailing whitespace: the result is the text between them, empty exactly for an all-whitespace string, otherwise starting and ending with non-space |
| Text.LowerAsciiChars | supabase/functions/process-video/index.ts:117 | lower-casing keeps the length and maps each character on its own |
| Text.LastIndexOf | supabase/functions/process-video/index.ts:117-121 | finds the last occurrence of a character, or none when it is absent |
| Text.SplitAtLast | supabase/functions/process-video/index.ts:28-38 | the text before and after the last separator rebuild the string; the tail holds no separator |
| Text.DropTrailingSlash | app.js:1057-1062 | removes exactly one trailing slash when there is one, else changes nothing |
| Text.DropLeadingSlash | app.js:1057-1062 | removes exactly one leading slash when there is one, else changes nothing |
| Text.EscapeHtml | app.js:752-760 | escaped text contains no `<`, `>`, `"` or `'` and is no shorter than the input |
| Text.UnescapeAfterEscapeChar | app.js:752-760 | unescaping an escaped character followed by more text gives back that character first |
| Text.EscapeHtmlRoundTrip | app.js:752-760 | unescaping the escaped text gives back the original string |
| Text.NatText | admin.js:180 | a count's decimal text is non-empty and all digits, as a numeric event type or the pending count prints |
| JsValue.Field | admin.js:27-35 | a field is present exactly when the value is an object holding that key, and it is that key's value |
| Multipart.EffectiveChunkSize | app.js:221 | the chunk is the configured size or 5 MiB, whichever is larger |
| Multipart.PartCount | app.js:252-262 | a file of `size` bytes is sent in ceil(size / chunk) parts |
| Multipart.PartsTileFile | app.js:252-262 | the parts are numbered 1..n and tile the file from byte 0 to its size; all but the last are one full chunk |
| Multipart.AcceptedPrefix | app.js:252-262 | counts the parts the storage accepts before the first refused one |
| Multipart.AcceptedBeforeRefused | app.js:252-262 | every part before the first refused one was accepted |
| Multipart.PlanStep | app.js:252-262 | each pass takes the part numbered `partNumber` over `[offset, min(offset + chunk, size))` and continues from `offset + chunk` with the next number |
| Multipart.SendParts | app.js:252-262 | the loop uploads parts in order, stops at the first refused part, and returns the etag manifest and progress reports of the accepted ones |
| Multipart.UploadFileMultipart | app.js:215-279 | the upload yields exactly the outcome, storage calls and progress reports of the reference run, in which a create reply without an error but with a missing or empty id fails before any part is sent |
| Multipart.EmptySessionIdRefused | app.js:243-245 | a session created with an empty id counts as not created: the run fails after the create call alone, with no part, no abort and no progress |
| Multipart.RunCleanup | app.js:264-278 | a created session is aborted exactly once when the upload fails; a refused part is never completed; a success completes once |
| Multipart.RunProgress | app.js:252-262 | progress reports are out of the file size, never decrease, and a success ends at (size, size) |
| Multipart.RunCompletesWithAllParts | app.js:234-270 | a successful multipart run creates the session, uploads parts 1..n in order and completes with one entry per part, numbered 1..n, each carrying the etag the storage returned for that part |
| Multipart.PrefixReportsOrdered | app.js:253-269 | the reports after any number of accepted parts are ordered and bounded by the size |
| Multipart.ReportsArePartEnds | app.js:253-269 | the report after each accepted part gives that part's end offset as the bytes uploaded |
| Multipart.FailedSessionCounts | app.js:271-278 | a session with a refused part makes one abort and no complete call |
| Multipart.CompletedSessionCounts | app.js:264-278 | a session whose parts are all accepted completes once and aborts only when completion fails |
| Multipart.TwentyMiBInEightMiBParts | app.js:221-262 | a 20 MiB file in 8 MiB chunks is sent as 8+8+4 MiB, reported at 8, 16 and 20 MiB |
| Presenter.Capped | app.js:139 | the shown percentage is clamped into 0..100 and is unchanged inside that range |
| Presenter.ChosenToneName | app.js:156-166 | an explicit tone wins; otherwise the status's own tone, info for an unknown key |
| Presenter.ChosenLabel | app.js:156-166 | an explicit label wins; otherwise the status's progress label, empty for an unknown key |
| Presenter.ChosenPercent | app.js:156-166 | an explicit percentage wins; otherwise 0 for uploading and 100 for any other key |
| Presenter.StatusLine | app.js:295-311 | a status key shows its message and tone; other text shows as is with the named tone; empty text clears |
| Presenter.PushedStatusShows | app.js:188-204 | a pushed status shows its progress label, tone, 0/100 percent and status message |
| Presenter.ProgressWidget.SetUploadProgress | app.js:126-150 | hiding resets the percentage; showing sets the clamped percentage and tone, and the label when one is given |
| Presenter.ProgressWidget.ResetUploadProgress | app.js:152-154 | the bar is hidden at 0 percent; nothing else changes |
| Presenter.ProgressWidget.UpdateUploadProgressStatus | app.js:156-166 | the bar shows the status's defaults overridden by the explicit values |
| Presenter.ProgressWidget.UpdateStatus | app.js:295-311 | the status line becomes the text and tone chosen for the message or status key |
| Subscription.ChannelFor | app.js:180-187 | a video's channel topic is `videos-status-` followed by its id |
| Subscription.ChannelForInjective | app.js:180-187 | different videos get different channels |
| Subscription.EndsFollowingIsTerminal | app.js:201-203 | following stops exactly on the keys of the terminal statuses |
| Subscription.UploadSession.Cleanup | app.js:168-178 | the open channel, if any, is removed and the followed video is forgotten |
| Subscription.UploadSession.Subscribe | app.js:180-213 | re-following the same video does nothing; otherwise the old channel is removed and the new one opened, and kept only when the subscription succeeds |
| Subscription.UploadSession.OnStatusPush | app.js:188-204 | an absent or empty status changes nothing; otherwise the status line shows it, the bar shows its percentage, tone and caption (keeping the old caption for an unknown key), the feed is refreshed exactly on approval, and a terminal status removes the channel and forgets the video while any other keeps the subscription |
| Subscription.UploadSession.constructor | app.js:17-20 | the page starts following no video on no channel |
| Submit.ShippedSettings | config.js:14-21 | the shipped settings allow 300 MiB of video/mp4 and name no chunk size and no processing function |
| Submit.CheckFile | app.js:825-840 | a file is accepted exactly when present, of an allowed type and within the size limit; the too-large message's MB figure is the limit rounded down |
| Submit.StoragePathShape | app.js:876-878 | the storage path is `videos/<id>.mp4` |
| Submit.StoragePathInjective | app.js:876-878 | different ids get different storage paths |
| Submit.Nullable | app.js:896-902 | an optional column is null exactly when its trimmed text is empty |
| Submit.RowFor | app.js:893-903 | the inserted row carries the id, the trimmed title, status verifying, the storage path and no thumbnail; description, place and reporter email are null exactly when blank and otherwise their trimmed text |
| Submit.StepsAfter | app.js:884-925 | an accepted form's operations start with the transfer |
| Submit.StepsAfterInsert | app.js:909-925 | after the insert the video is followed, and processing is invoked only when a function is named |
| Submit.RefusedFormSendsNothing | app.js:844-866 | a form refused for the client, the title or the file sends nothing |
| Submit.StepOrder | app.js:875-925 | the operations run transfer, insert, follow, invoke, each only after the previous succeeded |
| Submit.StepsAfterInOrder | app.js:884-925 | the operations after the checks are in that order |
| Submit.InsertedInOrder | app.js:893-925 | the operations after a successful insert stay in that order |
| Submit.SubmittedExactly | app.js:875-931 | a checked form is submitted exactly when the transfer, the insert and any invocation succeed; otherwise it fails |
| Submit.ShippedSettingsNeverInvoke | app.js:911-925 | with the shipped settings a submission makes at most the transfer, the insert and the subscription, in that order, and never invokes a processing function |
| Submit.UploadPercent | app.js:885 | the shown percentage is 0 for an empty total, within 0..100, and 100 when all bytes are sent |
| Submit.UploadPercents | app.js:884-888 | one percentage per progress report |
| Submit.UploadPercentsClimb | app.js:884-888 | the percentages shown during an upload stay within 0..100, never fall, and end at 100 on success |
| Submit.OrderedPercentsClimb | app.js:884-888 | reports that climb towards one total give percentages that stay within 0..100 and never fall |
| Submit.ShowPending | app.js:927-928 | the bar and the status line show pending |
| Submit.ShowFailure | app.js:932-938 | the subscription is torn down, recording the removal of the channel held, and the bar and status line show failed |
| Submit.ShowUploading | app.js:884-888 | each progress report shows uploading on the line and the bar at the reported percentage |
| Submit.ShowVerifying | app.js:890-891 | after the transfer the bar shows verifying at 100% and the line shows the verifying message |
| Submit.TransferWithProgress | app.js:880-888 | the transfer runs as the reference run and shows the percentage of each report; the widget ends showing uploading at the last reported percentage, and is untouched when nothing was reported |
| Submit.Register | app.js:893-931 | insert, follow and invoke run in order and end in pending or in the failure display; the realtime calls are those that follow a successful insert, and none when it fails |
| Submit.StepsAfterRegistered | app.js:893-908 | after a successful transfer the insert is always attempted, and the later operations follow only when it succeeds |
| Submit.FollowCalls | app.js:909-938 | the realtime calls after the row is in: the new video's channel is opened, and removed again exactly when the trigger fails on a channel that subscribed |
| Submit.FollowAndTrigger | app.js:909-931 | follows the video and invokes processing when named; pending on success, failure display otherwise; the new channel is opened and, when the trigger fails, removed |
| Submit.HandleSubmit | app.js:842-943 | the submission has the reference outcome and operations; a refused form changes nothing; an accepted form first removes the channel of a previously followed video, then opens the new video's channel once the row is in, and removes it again when the processing call fails |
| ProcessVideo.FindByName | supabase/functions/process-video/index.ts:28-38 | finds a listed object whose name matches exactly, and none only when none does; the size lookup consults it only when `FindThrows` says the search does not throw first |
| ProcessVideo.FindThrows | supabase/functions/process-video/index.ts:37 | the search throws only on a listing that holds a null item |
| ProcessVideo.FindThrowsExactly | supabase/functions/process-video/index.ts:37 | the search throws exactly when a null item comes before every exactly named item |
| ProcessVideo.NullBeforeMatchHidesSize | supabase/functions/process-video/index.ts:28-38 | a null listed before the matching object makes the listed size 0, while the same null after it leaves the object's size |
| ProcessVideo.FindByNameFirst | supabase/functions/process-video/index.ts:28-38 | the object found is the first with that name |
| ProcessVideo.Coalesce | supabase/functions/process-video/index.ts:33-37 | the first size source wins unless it is missing or null |
| ProcessVideo.FileSize | supabase/functions/process-video/index.ts:88-99 | a non-zero size in the request wins; otherwise the size listed in storage |
| ProcessVideo.RefuseExactly | supabase/functions/process-video/index.ts:101-127 | each refusal happens exactly under its condition and in the source's order |
| ProcessVideo.RefuseBoundaries | supabase/functions/process-video/index.ts:101-127 | the maximum and the minimum size are accepted, one byte beyond each is refused |
| ProcessVideo.Handle | supabase/functions/process-video/index.ts:44-165 | the handler gives the reference reply: status code, status writes, storage lookups and webhook calls; a listing whose search throws on a null item before the match counts as size 0, so a missing request size ends in 400 with verifying then failed written |
| ProcessVideo.HandOver | supabase/functions/process-video/index.ts:86-164 | after writing verifying, the checks, transcoding, webhook and pending steps run as in the reference |
| ProcessVideo.AfterVerifyingShapes | supabase/functions/process-video/index.ts:86-164 | replies are 200/400/500/502; a refusal writes failed and calls no webhook; 200 exactly when pending was written |
| ProcessVideo.EarlyRepliesWriteNothing | supabase/functions/process-video/index.ts:45-69 | method, configuration, JSON and id/path failures reply 405/500/400 and write nothing |
| ProcessVideo.MainBodyShapes | supabase/functions/process-video/index.ts:86-164 | a request that passes the guards writes verifying first and ends in one of the allowed write sequences |
| ProcessVideo.WriteShapes | supabase/functions/process-video/index.ts:86-164 | every write sequence follows the processing order of the statuses |
| ProcessVideo.ChecksBeforeTranscoding | supabase/functions/process-video/index.ts:101-152 | transcoding is written or the webhook called only after every check passed; the webhook gets the configured url |
| Feed.LabelForTable | app.js:762-771 | each category key gets its own Hungarian label and anything else gets "Egyéb" |
| Feed.LabelForInjective | app.js:762-771 | different category keys get different labels |
| Feed.StoredPathLink | app.js:1057-1062 | a stored path becomes `<url>/storage/v1/object/public/<bucket>/<path>` without doubled slashes |
| Feed.AbsoluteLink | app.js:1057-1062 | with an http base url every built link is absolute |
| Feed.LinksAreStable | app.js:1057-1062 | building a link from a built link gives it back unchanged |
| Feed.FeedAndAdminAgree | admin.js:59-64 | the feed and the admin page build the same links and differ only in the fallback for a missing path |
| Feed.AggregateCount | app.js:104-112 | a non-zero count is the numeric count of the first aggregate row |
| Feed.AggregateCountCases | admin.js:27-35 | the count is the first row's number, and 0 for anything else |
| Feed.Optimistic | app.js:657-675 | the optimistic toggle flips the like and moves the count by one, never below zero |
| Feed.ToggleTwice | app.js:657-675 | toggling twice restores a consistent video |
| Feed.ToggleTwiceFromZero | app.js:657-675 | unliking a liked video shown with 0 likes and liking it again shows 1 |
| Feed.ReplaceById | app.js:601-608 | every video with the id is replaced and the others are kept |
| Feed.ReplaceTwice | app.js:601-608 | the second replacement of the same video wins |
| Feed.ThrottleWindow | app.js:616-619 | a like is refused within 1500 ms of the recorded one, an unrecorded video counting as liked at time 0, and a just-recorded like refuses an immediate repeat |
| Feed.RollbackUnthrottles | app.js:692-701 | after a rollback the next click is not rate-limited |
| Feed.LikeBoard.constructor | app.js:67-78 | the board starts with the given videos, cache and liked set and no rate limits |
| Feed.LikeBoard.UpdateVideoData | app.js:601-608 | a cached video is replaced in the cache and the list; an unknown id changes nothing |
| Feed.LikeBoard.FlipLiked | app.js:662-670 | the video's id joins or leaves the liked set |
| Feed.LikeBoard.HandleLikeClick | app.js:631-704 | missing client, sign-in and rate limit refuse without change; otherwise the toggle is shown and written, and rolled back when the write fails |
| Feed.LikeBoard.ToggleLoaded | app.js:654-703 | a loaded video is toggled, the matching add or remove call is made, and a failure restores the previous state |
| Feed.LikeBoard.ShowOptimistic | app.js:662-676 | the toggled video is shown and the liked set flips |
| Feed.LikeBoard.Restore | app.js:692-701 | the previous video and liked state come back and the rate limit is lifted |
| Admin.IsAdminUserExactly | admin.js:114-122 | a user is a moderator exactly by one of the four role markers |
| Admin.NoUserIsNoModerator | admin.js:114-122 | no user is no moderator, and `is_admin` counts only when it is literally true |
| Admin.DecisionStatus | admin.js:138 | "approve" means approved and any other action means rejected |
| Admin.DecisionEndsFollowing | admin.js:138 | a decision is a terminal status that may follow pending |
| Admin.MessageTone | admin.js:37-49 | empty text and "info" get the info colour, "error" and "success" their own, anything else none |
| Admin.PendingMessage | admin.js:180 | the pending line is the no-pending message exactly for 0, and otherwise starts with the count's digits |
| Admin.RenderedPrefix | admin.js:66-101 | the rows rendered are a prefix of the fetched rows, stopping only at a row whose rendering throws |
| Admin.RenderedPrefixRenders | admin.js:76-100 | every rendered row renders, and the whole list is rendered exactly when every row does |
| Admin.ModeratorIsSignedIn | admin.js:284-303 | a moderator always has a session |
| Admin.AdminPage.constructor | admin.js:20-25 | the page starts signed out, with the panel hidden, no rows and no load in flight |
| Admin.AdminPage.SetStatus | admin.js:37-49 | the status line shows the text in the tone chosen for its type; nothing else changes |
| Admin.AdminPage.HandleSession | admin.js:284-312 | the panel opens and insights start exactly for a moderator; the pending query starts exactly for a moderator with a client and no load in flight, showing the loading line; without a client the table is cleared with the configuration error; a non-moderator gets the cleared table and the sign-in or no-permission message |
| Admin.AdminPage.BeginLoadPending | admin.js:152-166 | a non-moderator gets an empty table; no client gives the configuration error; a load in flight changes nothing; otherwise the load flag is set and the loading line shown |
| Admin.AdminPage.EndLoadPending | admin.js:167-184 | a failed query clears the table with the load-failed message; fetched rows are rendered up to the first one that throws, and when none throws the line gives the count or the no-pending message; a throw leaves the line; the flag is always cleared |
| Admin.AdminPage.SettleSessionLoad | admin.js:307-310 | the load started by a session ends as `EndLoadPending`, and a throw shows the load-crashed error |
| Admin.AdminPage.UpdateCurrentUser | admin.js:124-130 | the email shows when present and sign-out shows when there is a session |
| Admin.AdminPage.ShowSignIn | admin.js:289-302 | the panel is hidden, the sign-in form shown, the table cleared and the message set |
| Admin.AdminPage.HandleAction | admin.js:132-184 | only a moderator with a client sends an update, of the decided status; no-permission and update-failed end the action on their message; a successful update reloads exactly when no load is in flight (else it ends on the updated message), and the line and rows are then the load's: load-failed, the count or no-pending message, or the loading line when rendering throws; the user and sign-out display are untouched |
| Admin.Counted | admin.js:237-260 | each stats row yields an item with that row's id, title and aggregate count, in order; a null row makes the ranking fail |
| Admin.Positive | admin.js:246 | only positive counts are kept |
| Admin.PositiveKeeps | admin.js:246 | the filter keeps every positive item as often as it occurs and drops the rest |
| Admin.InsertOrdered | admin.js:247 | inserting into a list sorted by count keeps it sorted |
| Admin.InsertAdds | admin.js:247 | inserting adds exactly that item |
| Admin.SortOrdered | admin.js:247 | sorting by count gives a permutation ordered largest first |
| Admin.TopFive | admin.js:248 | at most five items are kept |
| Admin.TopFiveOfOrdered | admin.js:248 | the top five of a sorted list are its first items; none left out outranks them |
| Admin.TopListShape | admin.js:237-260 | a top list is at most five positive items, largest first, drawn from the positives and complete when fewer than five |
| Admin.TrendLabel | admin.js:197-202 | count 1 takes the singular label and any other count the plural, each falling back |
| Admin.InsightLabels | admin.js:243-256 | the insight lists say "like"/"jelentés" exactly for a count of 1 |
| Admin.LoadInsights | admin.js:208-276 | totals and top lists are shown exactly when no query was rejected, no stats row is null and every listed title is absent or a string; each 7-day total is its number, or 0 when not numeric |
| Admin.ErroredQueriesShowZeros | admin.js:226-263 | queries that resolve with an error (no count, no data) show zero totals and empty top lists |
| Admin.NullTitleMakesInsightsUnavailable | admin.js:104-105 | a ranked video whose title is null makes `escapeHtml` throw, so the panel shows the unavailable state |
| UsageLog.NumberTextNotBlank | supabase/functions/log-usage/index.ts:99-102 | a numeric event type is never blank |
| UsageLog.SanitizePayload | supabase/functions/log-usage/index.ts:18-25 | only an object or array payload is kept, unchanged |
| UsageLog.DropIfTruthy | supabase/functions/log-usage/index.ts:105-111 | deleting a field keeps the presence of the payload |
| UsageLog.OrNull | supabase/functions/log-usage/index.ts:59-64 | a missing value is stored as null |
| UsageLog.Handle | supabase/functions/log-usage/index.ts:81-130 | the handler gives the reference reply: status code, stored row, Logflare body and trending refresh; an event type whose `toString` throws (an object with its own `toString` key, or an array holding one) gets 500 and nothing else |
| UsageLog.RefusedRequestsDoNothing | supabase/functions/log-usage/index.ts:81-102 | a refused request stores, forwards and refreshes nothing; 200 exactly for a POST with configuration, JSON, an event type whose `toString` does not throw, and a non-blank event type |
| UsageLog.BlankEventTypeRefused | supabase/functions/log-usage/index.ts:99-102 | a missing, null or whitespace event type is refused with 400 |
| UsageLog.OwnToStringRefused | supabase/functions/log-usage/index.ts:99 | an event type object with its own `toString` key, or an array holding one, makes the handler reply 500 |
| UsageLog.StrippedPayload | supabase/functions/log-usage/index.ts:104-111 | a truthy `session_id` or `user_id` is removed from the payload and everything else is kept |
| UsageLog.UserIdColumn | supabase/functions/log-usage/index.ts:108 | the stored user id is the payload's `user_id` exactly when it is a string |
| UsageLog.RowShape | supabase/functions/log-usage/index.ts:59-64 | the stored row has exactly the four columns, null exactly when their source is missing |
| UsageLog.AcceptedReply | supabase/functions/log-usage/index.ts:81-130 | an accepted request gets the stored row, Logflare body and trending gate of its event; any other request gets a bare refusal |
| UsageLog.RowColumns | supabase/functions/log-usage/index.ts:59-64 | the row has exactly the four columns, each null exactly when its value is missing or null |
| UsageLog.TrendingGate | supabase/functions/log-usage/index.ts:72-79 | trending is rebuilt exactly for an accepted `feed.video_opened` event |
| UsageLog.LogflareGate | supabase/functions/log-usage/index.ts:27-36 | an accepted event is forwarded exactly when both Logflare variables are set |
| UsageLog.PayloadOverridesEventType | supabase/functions/log-usage/index.ts:32-36 | the log entry holds the payload's keys plus `event_type`, and a payload `event_type` wins |

## Left out

- Browser DOM, network and concurrency: services are oracles whose answers are parameters. Only the calls and their order are modelled, not timing or interleaving.
- `crypto.randomUUID`, `Date.now()` and the seven-days-ago timestamp are parameters.
- Environment and `config.js` values are parameters. `Submit.ShippedSettings` records the shipped configuration. `uploadChunkSize` and `processFunctionName` are absent from `config.js`: the shipped app never invokes a processing function (`Submit.ShippedSettingsNeverInvoke`) and always uses 5 MiB chunks.
- Submit.UploadPercent: `Math.round(uploaded / total * 100)` is computed exactly on integers, rounding halves up; floating-point error in the quotient is not modelled.
- Number formatting with `toLocaleString('hu-HU')`, and parsing `Number(...)` environment variables, are not modelled. The maximum size is an integer parameter.
- Text.LowerAscii: lower-casing covers ASCII letters only, not the full Unicode `toLowerCase`.
- Feed.LabelFor: prototype keys of the JavaScript label object (`"constructor"` and the like) are treated as unknown categories.
- Admin.EmailOf: an email that is a truthy non-string value is treated as no email.
- UsageLog.LogEntry: spreading an array payload into the log entry (index keys) is not modelled. Only object payloads contribute keys.
- UsageLog.SanitizePayload: the JSON round trip (`JSON.parse(JSON.stringify(...))`) is the identity on JSON values. Values that do not survive it (functions, cycles) cannot occur in the model.
- Admin.SortByCount: the stable insertion sort has the same tie order as the engine's stable `Array.prototype.sort`, but stability is not stated as a lemma.
- Admin.LoadInsights: the reentrancy flag `insightsLoading` and the moderator/configuration early return are not modelled.
- The magic-link sign-in and sign-out, and `init`, are not modelled.
- Admin.AdminPage.HandleSession: the model is sequential. The pending query's start and its completion are separate calls (`BeginLoadPending`, then `SettleSessionLoad`); what happens between them is left to the caller.
- Admin.AdminPage.HandleAction: `isSupabaseConfigured()` and `supabase != null` are one flag, `clientConfigured`, because `config.js` creates the client only when both the URL and the key are set.
- Admin.RenderedPrefix: a row's created date is not checked; an invalid date renders as text and never throws.
- Feed.LikeBoard.HandleLikeClick: the button's `setTimeout` re-enable is not modelled. Only the rate-limit timestamp it guards is.
- Presenter.StatusLine: prototype keys of the JavaScript message table (`"constructor"` and the like) are treated as plain messages.
- Subscription.UploadSession.Cleanup: a failing `removeChannel` is swallowed by the source; the model records the removal call either way.
- Multipart.UploadFileMultipart: the `!supabase` throw is not modelled, because `handleSubmit` returns before calling it when the client is missing.
- Submit.CheckFile: the `| 0` truncation of the maximum size in megabytes is JavaScript's ToInt32, modelled as division rounding down; the two agree for limits below 2^31 MiB, and the wrap-around above that is not modelled.
- JSON numbers are integers in the model (`JsValue.Num` holds an `int`). UsageLog.ToText therefore cannot express a fractional event type such as 1.5, prints 10^21 as digits where JavaScript prints "1e+21", and does not model the rounding `JSON.parse` applies to integers above 2^53 in the request body. The sizes read by the processing function are integers for the same reason.
- `analytics.js` and the feed's listing, search, flags and details views are not part of this model.
- ProcessVideo.ProcessPayload: `videoId`, `path` and the other text fields are strings in the model. A non-string `path` such as 5 passes the guard at process-video/index.ts:67, then `path.split` throws at line 117, so the source writes failed and replies 500; a numeric `videoId` is truthy and is used as the id. Neither case is modelled.
