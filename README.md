# arctic-bot core, modelled in Dafny

A Telegram bot that guards a private channel. A user asks to join through
an invite link. The bot records the request as *pending*, together with the
link's acquisition source. It approves the request when the user sends
`/start`, and it drops requests that have waited more than seven days.
Administrators send broadcasts to all users or to one acquisition source,
either at once or at a scheduled time; a periodic job sends the scheduled
ones. Users, invite links and broadcast records live in three MongoDB
collections; statistics count how many broadcasts reached each user.

The model covers that core:

- `text.dfy` (`Text`): the Python built-ins the core relies on: `str.lower`, `str.split`, `int()`, `str()`.
- `documents.dfy` (`Documents`): a document is a `map<string, Value>`. A collection is a sequence of documents in natural order. `find` is an exact-match filter. `skip`/`limit` are paging. `find_one` is the first match. `update_one` with `$set` updates the first match.
- `users.dfy`, `invite_links.dfy`, `broadcasts.dfy`: the users and invite-link stores and the broadcasts collection, as classes whose document sequence the methods reassign.
- `notifications.dfy`: the broadcast send loop and the creation of scheduled records.
- `scheduler.dfy`: one scheduler tick, and the scheduler singleton.
- `join_requests.dfy`: the `pending_approvals` ledger.
- `statistics.dfy`: the paging loops and the per-user broadcast count.
- `admin_targets.dfy`, `admin_input.dfy`: the administrator dialogue's logic: the source tally, the page window and keyboard, callback parsing, the combined filter, the yes/no and description answers, and the confirmation handlers.
- `user_handlers.dfy`: `/start`, `/help`, `/about` and any other message.
- `config.dfy`, `email.dfy`: the environment settings and the consultation e-mail.

Telegram calls, the SMTP session, clocks and database failures are
parameters:

- `send: nat -> SendOutcome` says what happened to the i-th message.
- `approveFails`, `queryFails` and `fault` say whether a call raises.
- `delivers` says whether the mail went out.
- `env` is the process environment.
- `now`, `clock` and `completedAt` are the readings of `datetime.utcnow()`, kept as opaque integers.

Where the documentation and the code differ, the model follows the code:

- A broadcast without a filter goes to every user of every status. It is not limited to active users (`bot/services/notifications.py:49-53`).
- The scheduler sends with `save_to_db=False`. So the counters of a scheduled record are never incremented, and it only moves to "completed" or "error" (`bot/utils/scheduler.py:60-82`).
- The send loop has no batch tiers, no retry on rate limits and no media dispatch. It is one pass, with one pause after each delivered message and none after a failed one (`bot/services/notifications.py:79-130`).
- `schedule_time` is entered in Moscow time and stored naive, but compared with `utcnow()`. The model keeps both as the integers it is given.

## Model

| member | source | states |
|---|---|---|
| Text.Lower | bot/handlers/admin_handlers.py:407 | `str.lower`: same length, each character lowered |
| Text.LowerIdempotent | bot/handlers/admin_handlers.py:407 | lowering twice is lowering once |
| Text.Split | bot/handlers/admin_handlers.py:343 | `str.split(sep)` always yields at least one piece |
| Text.SplitPiecesFree | bot/handlers/admin_handlers.py:343 | no piece of a split holds the separator |
| Text.SplitJoin | bot/handlers/admin_handlers.py:343 | joining the pieces of a split with the separator gives back the string |
| Text.SplitAfterField | bot/handlers/admin_handlers.py:343 | a separator-free field followed by the separator is the first piece of the split |
| Text.NatToString | bot/handlers/admin_handlers.py:307 | `str(n)` of a natural number is a non-empty run of digits |
| Text.NatToStringValue | bot/handlers/admin_handlers.py:307 | the digits of `str(n)` have the value n |
| Text.ParseInt | bot/config/config.py:30 | Python's `int()` on text: `str.isspace()` whitespace stripped on both sides, an optional sign, then at least one decimal digit; anything else is the ValueError (None) |
| Text.ParseIntDigits | bot/handlers/admin_handlers.py:343 | a run of digits reads as its decimal value |
| Text.ParseIntNeedsDigit | bot/config/config.py:10 | text without any digit is always rejected, as `int()` raises ValueError |
| Text.IntRoundTrip | bot/config/config.py:10 | `int(str(i)) == i` for every integer |
| Text.NoSeparatorInNumber | bot/handlers/admin_handlers.py:343 | a printed integer holds no separator other than a digit or '-' |
| Documents.Select | bot/database/users.py:174-182 | `find(filter)` returns each matching document as often as the collection holds it and no other document |
| Documents.SelectOne | bot/database/users.py:174-182 | a one-document collection yields that document iff it matches, which with SelectAppend fixes the natural order of every result |
| Documents.SelectMembers | bot/database/users.py:174-182 | a document is found iff it is in the collection and equal to the filter on every key |
| Documents.SelectAppend | bot/utils/statistics.py:25-40 | finding over two consecutive runs of documents is finding over each in turn |
| Documents.SelectAll | bot/database/users.py:134-139 | an empty filter finds every document, in order |
| Documents.MatchesExtend | bot/handlers/admin_handlers.py:371-377 | adding a key to a filter adds exactly one equality |
| Documents.Page | bot/database/users.py:134-143 | `skip` then `limit` (None or 0 unlimited) gives the window of the sequence from `skip`, at most `limit` long |
| Documents.PageSelectMatches | bot/database/users.py:174-182 | every paged result is a matching document of the collection |
| Documents.FindFirst | bot/database/users.py:89 | `find_one`: the first matching position; None iff nothing matches |
| Documents.SetFields | bot/database/users.py:112-115 | `$set`: the given fields take the new values, every other field keeps its value |
| Documents.UpdateFirst | bot/database/users.py:112-115 | `update_one`: only the first match changes, by `$set`; no match changes nothing |
| Users.StatusQuery | bot/database/users.py:134-136 | the status filter is present exactly when a status is given |
| Users.ExistingUserUpdate | bot/database/users.py:33-42 | the `$set` for a known user: names and `updated_at` always; `status`/`activated_at` only to become active from non-active; `source` only when none is stored and one is given |
| Users.UpsertRules | bot/database/users.py:33-56 | after the upsert, names are overwritten, an active user stays active, a status change is to "active" with `activated_at`, a stored source is never overwritten, and `user_id` is kept |
| Users.NewUserDoc | bot/database/users.py:58-75 | a new user has the given fields and status, `created_at == updated_at == now`, and `activated_at` iff active |
| Users.StampUpdate | bot/database/users.py:106-110 | `update_user` adds `updated_at` and, for status "active", `activated_at`; nothing else |
| Users.StatusUpdate | bot/database/users.py:199-212 | `status_reason` iff a reason is given, `activated_at` iff "active", `deactivated_at` iff "inactive" |
| Users.AddUserEffect | bot/database/users.py:10-75 | after `add_user` the user is present |
| Users.UserStore.GetUser | bot/database/users.py:77-89 | the user with that id, if any |
| Users.UserStore.AddUser | bot/database/users.py:10-75 | the collection after the upsert, the returned user document, and that unique ids stay unique |
| Users.UserStore.UpdateUser | bot/database/users.py:91-117 | the stamped `$set` on that user only; returns whether anything changed |
| Users.UserStore.UpdateUserStatus | bot/database/users.py:184-217 | the status `$set` on that user only; returns whether anything changed |
| Users.UserStore.GetAllUsers | bot/database/users.py:119-143 | filtered by status only when one is given, then skip and limit |
| Users.UserStore.GetUsersByFilter | bot/database/users.py:157-182 | exactly the matching users, then skip and limit |
| Users.AddUserKeepsUniqueIds | bot/database/users.py:22-66 | the upsert never creates a second document for a user id |
| Users.ByFilterIsExact | bot/database/users.py:174-182 | unpaged, the filter query returns exactly the matching users |
| Users.AllUsersUnfiltered | bot/database/users.py:134-143 | with no status and no limit, every user in order |
| InviteLinks.LinksQuery | bot/database/invite_links.py:125-129 | `is_active` filters whenever it is not None (False included); `source` only when non-empty |
| InviteLinks.NewLinkDoc | bot/database/invite_links.py:28-41 | a new link has `uses_count` 0, is active, `created_at == updated_at`, and the given fields |
| InviteLinks.Increment | bot/database/invite_links.py:79 | `$inc` by one: a missing counter becomes 1, an integer grows by one, anything else is an error |
| InviteLinks.LookupOf | bot/database/invite_links.py:73-83 | a link's source lookup is unknown iff no document has that link, and otherwise yields that document's source |
| InviteLinks.InviteLinkStore.CreateInviteLink | bot/database/invite_links.py:28-45 | appends the new link document and returns it |
| InviteLinks.InviteLinkStore.GetInviteLink | bot/database/invite_links.py:57-59 | a document with that link, or None iff there is none |
| InviteLinks.LookupEffect | bot/database/invite_links.py:73-81 | the collection after a lookup: the first document with the link gets one more use and a fresh `updated_at`, keeping its link and source; every other document is unchanged, and an unknown link or a failed `$inc` changes nothing |
| InviteLinks.InviteLinkStore.GetSourceByLink | bot/database/invite_links.py:73-83 | the returned value is `LookupOf` and the new collection is `LookupEffect`: a known link gets one more use and a refreshed `updated_at` and returns its source; an unknown link returns None and writes nothing |
| InviteLinks.InviteLinkStore.UpdateInviteLink | bot/database/invite_links.py:100-107 | the fields plus `updated_at` on that link only; returns whether anything changed |
| InviteLinks.InviteLinkStore.GetAllInviteLinks | bot/database/invite_links.py:125-136 | the links matching the built query, after skip and limit |
| InviteLinks.LookupCountsOneUse | bot/database/invite_links.py:75-81 | a lookup raises `uses_count` by exactly one, keeps the source, and leaves every other link alone |
| Broadcasts.FilterArgument | bot/utils/scheduler.py:63 | `broadcast.get("target_filter")`: a dict stays a dict, a missing or None filter is None |
| Broadcasts.FilterRoundTrip | bot/services/notifications.py:162-179 | a filter stored with a record comes back unchanged |
| Broadcasts.IsDue | bot/utils/scheduler.py:46-49 | the due query on one record: status "scheduled" and a `schedule_time` at or before now; a record without a schedule time never matches |
| Broadcasts.DueIds | bot/utils/scheduler.py:43-49 | the due records are exactly those "scheduled" with `schedule_time <= now`, in order |
| Broadcasts.BroadcastTable.Insert | bot/services/notifications.py:71 | appends the record; its id is its position |
| Broadcasts.BroadcastTable.IncrementSent | bot/services/notifications.py:89-93 | `$inc sent_count` by one on that record only |
| Broadcasts.BroadcastTable.IncrementFailed | bot/services/notifications.py:109-130 | `$inc failed_count` by one on that record only |
| Broadcasts.BroadcastTable.SetStatus | bot/services/notifications.py:132-137 | sets the status of that record only |
| Broadcasts.BroadcastTable.MarkCompleted | bot/utils/scheduler.py:67-71 | "completed" with `completed_at` on that record only |
| Broadcasts.BroadcastTable.MarkError | bot/utils/scheduler.py:79-82 | "error" with the message on that record only |
| Notifications.Recipients | bot/services/notifications.py:49-53 | the users a send goes to: those matching a non-empty filter, otherwise every user whatever its status |
| Notifications.BroadcastRun | bot/services/notifications.py:36-144 | the outcome of `send_broadcast`: the query failure raised, or the loop over the recipients with its sent, failed and per-error-type counts |
| Notifications.Reached | bot/services/notifications.py:79-82 | the loop reaches every recipient up to the first without a `user_id` |
| Notifications.SentIn | bot/services/notifications.py:85-93 | deliveries among the first k attempts never exceed k |
| Notifications.FetchRecipients | bot/services/notifications.py:49-53 | the recipients are the users matching a non-empty filter, otherwise all users |
| Notifications.SendBroadcast | bot/services/notifications.py:36-144 | the result is the run's outcome; when persisting, exactly one record is added and it ends as the persisted record; otherwise nothing is written |
| Notifications.BroadcastTo | bot/services/notifications.py:58-144 | inserts "in_progress" with `total_users` and zero counters, runs the loop, marks "completed" only after it; without `save_to_db` writes nothing |
| Notifications.SendEach | bot/services/notifications.py:79-130 | each recipient is tried once in order; `sent`, `failed` and `errors_by_type` count the outcomes, and the stored counters grow by the same amounts |
| Notifications.ScheduleBroadcast | bot/services/notifications.py:149-179 | appends one "scheduled" record with the given time and filter and zero counters, and returns its id |
| Notifications.TallySumsToFailures | bot/services/notifications.py:98-130 | the `errors_by_type` counts add up to the failures |
| Notifications.FinishedRunAccounts | bot/services/notifications.py:140-144 | a finished run reports `sent + failed == total ==` the number of recipients |
| Notifications.RecipientsAre | bot/services/notifications.py:49-53 | with no filter, every user of every status; with a filter, exactly the matching users |
| Notifications.PersistedCounters | bot/services/notifications.py:126-137 | the stored counters never exceed `total_users`, add up to it once "completed", and "completed" iff the loop ended |
| Scheduler.JobRunner.Start | bot/utils/scheduler.py:29 | the scheduler runs once started |
| Scheduler.SchedulerSlot.SetupScheduler | bot/utils/scheduler.py:25-32 | the first call creates and starts a scheduler; later calls return the same one |
| Scheduler.Finalized | bot/utils/scheduler.py:67-82 | a processed record is "completed" with `completed_at` the clock reading iff its send returned, and otherwise "error" with the exception text; counters and content untouched |
| Scheduler.ProcessOne | bot/utils/scheduler.py:51-82 | while the send runs, the table is the old one with only this record set to "in_progress"; afterwards that claimed record is finalised with the outcome of its own run and nothing else changes |
| Scheduler.TickPrefixAt | bot/utils/scheduler.py:46-82 | after n steps the first n due records are finalised and the rest untouched |
| Scheduler.TickPrefixElsewhere | bot/utils/scheduler.py:46-82 | a record that is not due is never touched |
| Scheduler.CheckScheduledBroadcasts | bot/utils/scheduler.py:41-85 | processes exactly the due records in order; a failed query does nothing |
| Scheduler.TickEffect | bot/utils/scheduler.py:46-82 | after a tick each due record is finalised and every other record is unchanged |
| Scheduler.TickLeavesNothingDue | bot/utils/scheduler.py:47-81 | after a tick nothing is due any more, and the processed records keep their counters |
| JoinRequests.IsExpired | bot/handlers/join_request_handlers.py:137 | an entry has expired when it is strictly more than seven days (604800 seconds) old |
| JoinRequests.ExpiredIds | bot/handlers/join_request_handlers.py:131-138 | exactly the entries strictly older than seven days |
| JoinRequests.Kept | bot/handlers/join_request_handlers.py:140-142 | the entries that are not expired, unchanged |
| JoinRequests.ApprovalActivates | bot/handlers/join_request_handlers.py:105-112 | the approval update makes the user active at `now` and does not touch `user_id` |
| JoinRequests.PendingApprovals.ProcessJoinRequest | bot/handlers/join_request_handlers.py:31-52 | looks up the link's source, leaving the invite links as `LookupEffect` says (one more use); saves the user as "pending" and records or overwrites the entry; a failed lookup writes nothing more; no link given leaves the invite links untouched |
| JoinRequests.PendingApprovals.ApproveJoinRequest | bot/handlers/join_request_handlers.py:93-124 | True iff the entry and the user exist and Telegram's approval succeeds; then the user is active and the entry removed; otherwise nothing changes |
| JoinRequests.PendingApprovals.CollectExpired | bot/handlers/join_request_handlers.py:134-138 | lists exactly the expired entries, each once |
| JoinRequests.PendingApprovals.CleanOldPendingApprovals | bot/handlers/join_request_handlers.py:131-152 | removes exactly the expired entries and reports the cleaned and remaining counts |
| JoinRequests.SweepCounts | bot/handlers/join_request_handlers.py:149-152 | `cleaned + total_pending` is the size before the sweep |
| JoinRequests.SweepBoundary | bot/handlers/join_request_handlers.py:132-137 | an entry exactly seven days old is kept; one second older is removed |
| Documents.PageWindow | bot/database/users.py:138-143 | a limited page starting inside the results is the slice of the next `limit` results, or of all that remain |
| Statistics.NextUserPage | bot/utils/statistics.py:31 | one `get_all_users(limit=1000, skip=skip)` call is the next slice of the query result, 1000 long unless fewer remain |
| Statistics.LoadUsersPaged | bot/utils/statistics.py:25-40 | pages of 1000 until an empty or short page give all the users in order |
| Statistics.LoadActiveUsers | bot/utils/statistics.py:217-230 | the same paging with status "active" gives exactly the active users |
| Statistics.CountedFilter | bot/utils/statistics.py:95-101 | only "completed" or "in_progress" broadcasts count; a missing filter is `{}`, a None filter counts for nobody |
| Statistics.InitCounts | bot/utils/statistics.py:75-81 | every loaded user starts at 0 |
| Statistics.CountAll | bot/utils/statistics.py:93-115 | the per-user counts after reading a run of broadcasts: each counted broadcast adds one to every loaded user whose fields equal its filter |
| Statistics.CountBroadcastsPerUser | bot/utils/statistics.py:84-120 | paging over broadcasts in batches of 500 gives the count over all broadcasts |
| Statistics.ZeroCounts | bot/utils/statistics.py:75-81 | the loop builds the zero counts |
| Statistics.CountBatch | bot/utils/statistics.py:94-114 | one batch adds its broadcasts' counts |
| Statistics.CreditLoop | bot/utils/statistics.py:103-114 | the user loop credits every matching user once |
| Statistics.Received | bot/utils/statistics.py:95-114 | the broadcasts that count for a user are at most all the broadcasts |
| Statistics.CreditUsersAdds | bot/utils/statistics.py:103-114 | the user loop adds, under each id, the number of matched users with that id, and adds no id |
| Statistics.MatchCountUnique | bot/utils/statistics.py:103-114 | with distinct ids, a user's id gets one match when the filter matches that user and none otherwise |
| Statistics.CountIsReceived | bot/utils/statistics.py:75-120 | with unique ids, a user's count is the number of counted broadcasts whose filter it matches, at most one per broadcast |
| AdminTargets.SourceKey | bot/handlers/admin_handlers.py:262 | the key a user is tallied under: its `source` field, or "Неизвестно" when it has none |
| AdminTargets.SourceTally | bot/handlers/admin_handlers.py:258-266 | one entry per source ("Неизвестно" for a missing one), each holding its count, summing to the number of active users |
| AdminTargets.CountSource | bot/handlers/admin_handlers.py:263-266 | one user's turn: a new source gets an entry at the end, then its count goes up by one |
| AdminTargets.TallyStep | bot/handlers/admin_handlers.py:261-266 | counting one more user keeps the tally exact |
| AdminTargets.SortByCount | bot/handlers/admin_handlers.py:269 | the tally ordered by count, largest first, keeping every entry |
| AdminTargets.SortByCountCorrect | bot/handlers/admin_handlers.py:269 | the sorted sources are non-increasing by count and a permutation of the tally |
| AdminTargets.InsertByCountSorted | bot/handlers/admin_handlers.py:269 | inserting by count keeps the order non-increasing |
| AdminTargets.InsertByCountPermutes | bot/handlers/admin_handlers.py:269 | inserting adds exactly that entry |
| AdminTargets.TotalPages | bot/handlers/admin_handlers.py:272-273 | `max(1, ceil(n/5))` |
| AdminTargets.ClampPage | bot/handlers/admin_handlers.py:276-279 | the page is clamped into `[0, total_pages-1]` |
| AdminTargets.PageSlice | bot/handlers/admin_handlers.py:282-284 | the window holds the entries from `5*page`, at most five |
| AdminTargets.EveryEntryOnItsPage | bot/handlers/admin_handlers.py:272-284 | every source is shown on page `i / 5` |
| AdminTargets.Buttons | bot/handlers/admin_handlers.py:294-300 | exactly the sources on the page with a truthy name get a button |
| AdminTargets.TargetKeyboard | bot/handlers/admin_handlers.py:275-317 | on the clamped page: a button for each entry of that page's slice with a non-empty source; "all users" only on page 0; the navigation row with its "page/total" label iff more than five sources; "back" iff page > 0; "forward" iff page < total-1 |
| AdminTargets.KeyboardNavigates | bot/handlers/admin_handlers.py:290-317 | with five sources or fewer the single page offers "all users"; with more, every page before the last offers "forward" |
| AdminTargets.EverySourceOffered | bot/handlers/admin_handlers.py:281-299 | every source with a non-empty name gets a button on the page that holds its entry |
| AdminInput.ParseTargetWith | bot/handlers/admin_handlers.py:358-364 | a target with the prefix gives `{"source": rest}`, any other gives no filter |
| AdminInput.ParseTarget | bot/handlers/admin_handlers.py:358-364 | data starting with "target_source_" gives `{"source": data[14:]}`, and only such data gives a filter |
| AdminInput.ParseScheduledTarget | bot/handlers/admin_handlers.py:628-631 | data starting with "schedule_target_source_" gives `{"source": data[23:]}`, and only such data gives a filter |
| AdminInput.TargetRoundTrip | bot/handlers/admin_handlers.py:294-300 | a source's button data parses back to that source's filter; "all" gives none |
| AdminInput.ParsePageWith | bot/handlers/admin_handlers.py:337-343 | the info button is ignored; otherwise the page number is the split field |
| AdminInput.ParsePage | bot/handlers/admin_handlers.py:337-343 | "target_page_info" is ignored, and any other page is `int()` of split field 2 |
| AdminInput.ParseScheduledPage | bot/handlers/admin_handlers.py:607-613 | "schedule_target_page_info" is ignored, and any other page is `int()` of split field 3 |
| AdminInput.PageRoundTrip | bot/handlers/admin_handlers.py:343 | `target_page_{n}` parses back to page n |
| AdminInput.ScheduledPageRoundTrip | bot/handlers/admin_handlers.py:613 | `schedule_target_page_{n}` parses back to page n |
| AdminInput.CombinedFilter | bot/handlers/admin_handlers.py:371-377 | a copy of the filter with status forced to "active"; other keys unchanged |
| AdminInput.PreviewIsActiveRecipients | bot/handlers/admin_handlers.py:370-377 | the preview counts exactly the active recipients of the filter |
| AdminInput.IsConfirmed | bot/handlers/admin_handlers.py:407 | an answer confirms iff its lowered text is one of "да", "yes", "y", "д" |
| AdminInput.Description | bot/handlers/admin_handlers.py:117-120 | None iff the lowered text is one of нет/no/-/n, otherwise the text |
| AdminInput.AnswersIgnoreCase | bot/handlers/admin_handlers.py:407 | confirmation and description ignore letter case |
| AdminInput.ConfirmingAnswers | bot/handlers/admin_handlers.py:407 | no answer both confirms and means "no", and every confirming answer has one to three letters |
| AdminInput.ConfirmBroadcastAsWritten | bot/handlers/admin_handlers.py:403-440 | as written: a confirmed answer ends in the TypeError from the `media` keyword, any other cancels, and the broadcasts collection never changes |
| AdminInput.ConfirmScheduleAsWritten | bot/handlers/admin_handlers.py:716-738 | as written: a confirmed answer ends in the TypeError from the `media` keyword, any other cancels, and no record is ever inserted |
| AdminInput.FailingAnswers | bot/handlers/admin_handlers.py:407 | "да" and "yes" confirm, so each reaches the failing call |
| AdminInput.ConfirmBroadcast | bot/handlers/admin_handlers.py:407-437 | corrected: a confirmation sends and persists the broadcast, and writes nothing when the recipient query fails; anything else cancels and writes nothing |
| AdminInput.ConfirmSchedule | bot/handlers/admin_handlers.py:721-738 | corrected: a confirmation adds the scheduled record and returns its id; anything else cancels |
| UserHandlers.UpdateKeepsUser | bot/database/users.py:112-115 | an update without `user_id` keeps the user at its place |
| UserHandlers.TouchOnlyStamps | bot/handlers/user_handlers.py:28 | the interaction stamp only sets `last_interaction` and `updated_at` on the user's own document |
| UserHandlers.PendingRegistration | bot/handlers/user_handlers.py:20-25 | `/start` registers a new user as "pending" and keeps an existing user's status |
| UserHandlers.StartStatus | bot/handlers/user_handlers.py:20-41 | after `/start` the user exists and is stamped; approved means active with `activated_at` |
| UserHandlers.StartCmd | bot/handlers/user_handlers.py:13-58 | approval is tried only for a pending entry; approved iff it succeeds; otherwise "join" gives the hint and anything else the greeting |
| UserHandlers.HelpCmd | bot/handlers/user_handlers.py:60-77 | stamps the interaction and answers with the help |
| UserHandlers.AboutCmd | bot/handlers/user_handlers.py:79-92 | stamps the interaction and answers with the description |
| UserHandlers.AnyMessage | bot/handlers/user_handlers.py:94-107 | stamps the interaction; answers iff the user has a pending entry |
| Config.ParseIds | bot/config/config.py:10 | parsing succeeds iff every non-empty piece is an integer |
| Config.AdminUserIds | bot/config/config.py:10 | an unset or empty variable gives no admins |
| Config.AdminIdsRoundTrip | bot/config/config.py:10 | a comma-joined list of ids configures exactly those ids, in order |
| Config.DebugSpelling | bot/config/config.py:17 | unset means off; the letter case of the value never matters; only a four-letter value turns it on |
| Config.Load | bot/config/config.py:8-34 | the import succeeds iff the admin ids and the port parse; every setting is its variable's value, or its default when unset |
| Config.UnsetDefaults | bot/config/config.py:10-34 | with the variables unset: no admins, debug off, port 465, the default database |
| Email.NormalizePhone | bot/utils/send_email.py:17-18 | the number starts with '+'; unchanged iff it already did, otherwise exactly one '+' is prepended |
| Email.NormalizeKeepsNumber | bot/utils/send_email.py:17-18 | normalising is idempotent and keeps the digits |
| Email.ConsultationMail | bot/utils/send_email.py:19-24 | the body is the normalised number, sent from the SMTP user to the working address |
| Email.SendConsultationEmail | bot/utils/send_email.py:14-33 | False without a full configuration; otherwise True iff the mail is delivered |
| Email.MailCarriesNumber | bot/utils/send_email.py:17-20 | the mailed body starts with '+' and carries the typed number |

## Left out

- Telegram I/O: message texts, keyboards' captions, `approve()`, `send_message`, `get_me` and link creation are oracles or named replies; `bot/services/invite_links.py` is not part of this model.
- The MongoDB driver: collections are in-memory sequences in natural order; a failing query is the `fault`/`queryFails` parameter; write failures other than a non-numeric `$inc` are not modelled.
- Timing and concurrency: `asyncio.sleep` pauses, apscheduler's interval and the overlap of two ticks.
- Times are opaque integers (seconds); the naive-Moscow against UTC comparison is not modelled.
- The Excel output of the statistics module: only the paging and the counts are modelled.
- Logging.
- Text.Lower: lowers ASCII and the basic Cyrillic alphabet only, not all of Unicode.
- Text.ParseInt: accepts `str.isspace()` whitespace, a sign and ASCII digits. Underscores between digits and non-ASCII decimal digits, which Python's `int()` also accepts, are not modelled.
- Notifications.ScheduleBroadcast: returns the id as a number, not as the string the source returns.
- AdminTargets.SortByCountCorrect: proves order and permutation, not the stability of Python's `sorted`.
- Users.UpsertRules: a consequence of the contract of `ExistingUserUpdate` and `SetFields`, proved without further steps.
- JoinRequests.PendingApprovals.ProcessJoinRequest: ledger keys are natural numbers (Telegram user ids are positive).
- AdminInput.ConfirmBroadcastAsWritten: the "Рассылка … начата" notice the administrator receives before the failing call, and the dialogue state that is never finished, are not modelled.
- The join-request handler's message to the user and its error logging are not modelled beyond the ledger and store effects.

## Findings

| source | as written | input that shows it | evidently intended | confidence | as-written member | corrected member |
|---|---|---|---|---|---|---|
| bot/handlers/admin_handlers.py:419-425 | `send_broadcast(..., media=media, media_type=media_type)`, but `send_broadcast` (bot/services/notifications.py:36) takes no `media` parameter, so the call raises TypeError | any confirmed broadcast, e.g. the answer "да" | the broadcast is sent and persisted | high (not executed) | AdminInput.ConfirmBroadcastAsWritten | AdminInput.ConfirmBroadcast |
| bot/handlers/admin_handlers.py:731-738 | `schedule_broadcast(..., media=media, media_type=media_type)`, but `schedule_broadcast` (bot/services/notifications.py:149) takes no `media` parameter, so the call raises TypeError | any confirmed scheduled broadcast, e.g. the answer "yes" | the scheduled record is created | high (not executed) | AdminInput.ConfirmScheduleAsWritten | AdminInput.ConfirmSchedule |
