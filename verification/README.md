# Zyxel Graph Automation — a verified model of its decision logic

Zyxel Graph Automation is a Django application on Microsoft Graph. This
project models two of its workflows and the helpers under them:

* **The meeting negotiator** (`automation/meetings`). An `AutoScheduleMeeting`
  has:
  * an ordered list of candidate slots and a `current_try` index into it;
  * a status: pending, waiting, done or failed;
  * each attendee's answer: status, response time, user id and chat id.

  Attendees answer through links on an Adaptive Card. A reconciliation step
  then does one of three things:
  * after any decline, it moves to the next slot and informs the attendees
    again, or marks the meeting failed when no slots are left;
  * when nobody is pending and nobody declined, it books the event;
  * otherwise it waits.
* **The spreadsheet reminder engine** (`automation/reminders`). It reads the
  rows of a SharePoint workbook and records a `TaskNotification` for each
  reason to remind a task's owner. It mentions the owner in the task's Teams
  group chat. When the owner quotes that message in a reply, the engine writes
  the reply back into the sheet and marks the notification COMPLETED.
  Celery Beat triggers (`PeriodicTask`) drive the runs.
* **Supporting logic**:
  * paging through Graph listings and the quoted-reply search
    (`automation/core/teams_client.py`);
  * the time-zone table, chat matching and the request payloads
    (`automation/core/graph_client.py`);
  * the prefix trie of contacts (`automation/core/utils.py`);
  * token refresh (`automation/core/models.py`);
  * turning a chat into an LLM prompt
    (`automation/Unanswered_Topic_Tracker/utils.py`).

## How the program is represented

**Dafny form follows the source's form.**
* A class is used where the source updates a record in place:
  * `UserToken`, `Trie`, `AutoScheduleMeeting` and `TeamsClient`;
  * `SharePointClient`, with its `notify_interval` and `teams` chat cache;
  * `ReminderDb`, which holds the three tables.
* A `method` with a loop and its invariants is used where the source loops.
  Each such method's `ensures` ties its result or new state to a
  specification function. Lemmas then prove the promised properties of that
  function.

**Tables.**
* Each table is a sequence of rows in creation order, paired with the next
  key to hand out. No model declares an ordering, and `TaskManager`'s key is
  a random uuid, so the database's own row order is fixed here as creation
  order. `.first()` on an unordered query orders by the primary key; for
  notifications that is the auto-increment id, which is creation order, and
  the manager and trigger lookups find at most one row, because their keys
  are unique. So only the order of listings, such as the scan's groups,
  rests on that choice, and no proved result about what is found or
  written does.
* Uuids are numbers the table hands out.
* Table invariants are kept by every method:
  * keys are distinct;
  * natural keys are unique;
  * trigger names are unique.

**Outside calls.**
* Each Graph request or response is a function parameter. This covers pages
  and their next links, send results, user lookups, each chat's members
  request, the event booking of the status view, and the refresh-token call.
* These are also parameters:
  * HTML-to-text conversion;
  * JSON decoding of a quoted reply;
  * date parsing: a date cell is the whole number of days from today;
  * time-zone conversion;
  * `strftime`.
* Instants are whole minutes or seconds.

**Errors.** A raised exception is modelled as an `Err` value, so the caller's
`try`/`except` or its absence is explicit:
* an unknown status string in a tally is an `Err`;
* `try_next` running out of slots is an `Err`;
* a failed owner lookup is an `Err`;
* a non-200 page is an `Err`.

### Behaviour kept as the code has it

* **A rescan reopens finished notifications.** The upsert in
  `_create_notify_item` looks a notification up without excluding any
  status. A rescan therefore resets a COMPLETED notification to PENDING and
  keeps its message ids (`SharePointClient.UpsertEffect`).
* **The cell address lags the stored row by two.** A notification stores
  row `row_idx + 2`, but its `field_address` uses `row_idx`
  (`SharePointRows.FieldAddressRowLag`).
* **`try_next` stops one slot early.** It fails as soon as
  `current_try >= len(candidate_times) - 1`.
* **Only "" matches any author.** In `_search_message_reference`, the empty
  user id matches every author. A notification whose owner was not resolved
  (`None`) matches only messages whose sender has no id
  (`TeamsClient.NoneIsNotWildcard`).
* **A failed owner lookup stops the whole run.** In `_create_notify_item`
  the lookup sits outside the `try`, so its failure ends the whole
  `create_notify_items` run. The manager upsert is then skipped.
* **The chat cache is write-only.** `get_chat_id_by_name` writes its cache
  but never reads it.
* **An existing daemon trigger points at the wrong module.**
  `schedule_daemon_task` points an existing trigger at
  `reminders.views.daemon_task`; a new one runs `reminders.tasks.daemon_task`.
* **A null `from.user` raises in the reply search.** In
  `_search_message_reference`, `from.get('user', {})` gives None when
  `user` is null, and reading its id raises. Unless the user id is "", a
  message with attachments and a null `from` or `from.user` ends the search
  with an error (`TeamsClient.ExamineHit`).
* **A reply is written into the scanning client's workbook.** `_write_cell`
  builds the URL from the client's own site, list and path, and takes only
  the sheet and cell from the notification. The daemon scans every host with
  a client for the default workbook. A reply to a reminder from another
  workbook is therefore written into the default workbook
  (`SharePointClient.SharePointClient.WriteCell`).
* **`meeting_response` treats an empty matched email as missing.** It
  answers 400 because of `if not matched_email`.
* **An empty reply does not count.** In the scan, a quoted reply whose text
  is empty is falsy, so the next message id is tried.
* **The booked time is always the raw slot.** `process_meeting_status` asks
  `get_candidate_time(tz=timezone.utc)`. `ZoneInfo` refuses a `timezone`
  object, so the raw candidate slot is always the one booked, in UTC.
* **A bad status crashes the task.** `process_meeting_status` does not catch
  the `KeyError` an unlisted answer status raises.
* **Deleting a workbook keeps its trigger.** `delete_task` removes
  notifications and managers but leaves their Celery triggers. The link
  runs from the manager to its trigger, and it is cleared only when a
  trigger is deleted. The trigger keeps firing for a manager that no
  longer exists.
* **How the topic tracker reads a chat:**
  * a message whose `from.user` is null makes
    `parse_graph_chat_messages` raise;
  * a missing `user` or display name reads as "Unknown", and a null display
    name is rendered "None" in the prompt line;
  * a malformed quoted reply is skipped;
  * a missing attachment content is decoded from `"{}"`;
  * `max_len` 0 or None renders every message, and a negative `max_len`
    renders none;
  * a reply entry whose preview is None makes the prompt builder raise.

## Model

| member | source | states |
|---|---|---|
| CoreModels.UserToken.constructor | automation/core/models.py:8-14 | A stored token holds the given user, tokens and expiry, and is created at the current instant. |
| CoreModels.UserToken.RefreshTokenIfNeeded | automation/core/models.py:16-33 | If `now < expires_at`, or the answer is falsy, nothing changes. A truthy answer that lacks `access_token` raises `KeyError` with nothing changed. One that has it but lacks `expires_in` raises after both tokens were set on the object. The call raises exactly in these two cases. If a refresh is granted: the access token is replaced; the refresh token is replaced only when a new one is returned; `expires_at = now + expires_in`; `created_at = now`. A positive lifetime leaves the token unexpired. |
| CoreModels.UserToken.GetToken | automation/core/models.py:35-41 | Returns the stored access token. That is the old one, with nothing changed, when the token was not expired or the answer was falsy. After a granted refresh it is the new one, with the new expiry. It raises the refresh's `KeyError` exactly when the answer is truthy but lacks a key. |
| CoreUtils.Trie.constructor | automation/core/utils.py:1-9 | A new trie is one empty root and abstracts an empty history of insertions. |
| CoreUtils.Trie.Insert | automation/core/utils.py:11-18 | The trie stays well formed and abstracts its history extended by (contact, key). Every node then holds the matching contacts of its path. A node is marked `is_end` exactly when its path is an inserted lowered key. Nothing inserted before is lost. |
| CoreUtils.Trie.SearchPrefix | automation/core/utils.py:20-26 | The result is the contacts of every insertion whose lowered key starts with the lowered prefix. They come in insertion order, with repeats; there are none for a prefix without a path. |
| CoreUtils.MatchingMembership | automation/core/utils.py:11-26 | A contact is found for a prefix exactly when one of its insertions had a lowered key with that prefix as a non-empty prefix. So search is case-insensitive and finds a contact under every non-empty prefix of its key. |
| CoreUtils.MatchingEmpty | automation/core/utils.py:20-26 | Searching the empty prefix finds nothing: the root never receives contacts. |
| CoreUtils.KeysOfMembership | automation/core/utils.py:11-18 | The words marked as ends are exactly the lowered keys that were inserted. |
| GraphClient.GetIanaFromWindows | automation/core/graph_client.py:463-469 | A Windows zone name in the table translates to its IANA name. Any other name is assumed to be IANA already and comes back unchanged. |
| GraphClient.ZoneNamesApart | automation/core/graph_client.py:323-461 | No Windows name in the table contains '/', and every IANA name does. |
| GraphClient.IanaStable | automation/core/graph_client.py:323-469 | The result is the input itself or one of the table's IANA names. Translating twice gives the same as translating once, because no IANA name in the table is also a Windows name. |
| GraphClient.TaipeiZone | automation/core/graph_client.py:430 | "Taipei Standard Time" maps to "Asia/Taipei". |
| GraphClient.UtcZone | automation/core/graph_client.py:368 | "UTC" maps to "Etc/GMT". |
| GraphClient.FirstChatWithSpec | automation/core/graph_client.py:131-143 | The search stops at the earliest one-on-one chat that lists the user as a member or whose members request fails. The first gives that chat's id, the second raises the request's error. With no such chat the answer is None. |
| GraphClient.MatchChat | automation/core/graph_client.py:131-143 | The lazy `next(...)` search requests the members of each one-on-one chat in turn and gives that same answer. |
| GraphClient.ChatIdsOf | automation/core/graph_client.py:129-143 | It succeeds exactly when no user's search fails. Then it holds each user's chat id, in order. Otherwise it holds the error of the first user whose search fails. |
| GraphClient.GetChatIds | automation/core/graph_client.py:117-148 | An empty id list raises "User IDs list cannot be empty.". A failed chat listing or an empty one is re-raised as "Error fetching chat IDs: ...". Otherwise the per-user searches are run in order: their chat ids, or the first failing members request re-raised as "Error fetching chat IDs: ...". |
| GraphClient.DurationRoundTrip | automation/core/graph_client.py:181 | The `PT{n}M` duration carries the meeting length: the digits between `PT` and `M` read back as `n`. |
| GraphClient.DurationMinutes | automation/core/graph_client.py:181 | The duration sent is an ISO 8601 minute count: it starts with `PT` and ends with `M`. |
| GraphClient.MeetingTimesBody | automation/core/graph_client.py:157-182 | The request lists every attendee in order, then the host, all "Required". It has one time slot with the given start, end and zone, and the duration `PT{n}M`. |
| GraphClient.FlattenSlots | automation/core/graph_client.py:193-217 | No suggestions raises "No available meeting time slots found in the response.". It succeeds exactly when every start and end parses, giving one slot per suggestion, in order, with their confidence and availability copied. Otherwise it fails with the first bad start or end. |
| GraphClient.CreateEventPayload | automation/core/graph_client.py:219-253 | The event is an online Teams meeting at the given times and zone. It has one "required" attendee per email, in order, and no attendee list when there are none. A text body is attached exactly when a non-empty one is given. |
| GraphClient.EmailOf | automation/core/graph_client.py:282 | A user's e-mail is `mail` when that is non-empty; otherwise it is `userPrincipalName`. |
| GraphClient.ContactsOfMembership | automation/core/graph_client.py:280-289 | A contact is listed exactly when some user found has that display name and a non-empty e-mail. |
| GraphClient.OneContact | automation/core/graph_client.py:281-287 | A user with a mail address becomes the one contact (display name or "", mail). |
| GraphClient.CollectContacts | automation/core/graph_client.py:280-289 | The contact loop builds exactly that list of contacts. |
| GraphClient.SearchEmail | automation/core/graph_client.py:261-292 | This is the corrected search. A missing or empty query gives no contacts. A query of only whitespace raises "Query parameter is required". A failed request raises, and so does an answer without `value`. Otherwise the result is the contacts of the users found. |
| GraphClient.AnnIsContact | automation/core/graph_client.py:281-287 | The corrected search turns user Ann (mail ann@x.com) into the contact ("Ann", "ann@x.com"). |
| GraphClient.SearchEmailAsWrittenNeverFinds | automation/core/graph_client.py:261-292 | As written, every query that is not blank fails: none returns contacts. |
| GraphClient.SearchEmailAsWrittenFails | automation/core/graph_client.py:275-279 | As written, a well-formed answer always fails at `data.json()`, because `data` is already a dict. |
| GraphClient.SearchEmailAsWrittenCounterexample | automation/core/graph_client.py:279 | As written, the query "ann" against the single user Ann raises instead of returning her. |
| MeetingModels.ReplyRoundTrip | automation/meetings/models.py:16-21 | Every stored answer text reads back as itself, including texts outside the four listed choices. |
| MeetingModels.ReplyOf | automation/meetings/models.py:16-21 | A stored text is read as unlisted exactly when it is none of "pending", "accepted", "declined", "tentative". |
| MeetingModels.FirstOccurrences | automation/meetings/models.py:58-68 | The dict's key order holds each email once, for exactly the emails given. |
| MeetingModels.InviteAll | automation/meetings/models.py:58-68 | The loop builds the email order and the answers `set_attendees` stores. |
| MeetingModels.InvitationsLastWins | automation/meetings/models.py:59-68 | Each attendee's stored answer is "pending", with no response time, and the user id and chat id of that email's last entry. |
| MeetingModels.Invitations | automation/meetings/models.py:59-68 | The answers are keyed by exactly the emails given. |
| MeetingModels.TallyTotal | automation/meetings/models.py:126-136 | When every status is one of the four listed, the four counts add up to the number of answers. |
| MeetingModels.SelectByUser | automation/meetings/models.py:116-118 | The comprehension keeps exactly the emails whose answer carries the user id, each once. |
| MeetingModels.SummarizeUsers | automation/meetings/models.py:143-157 | The loop succeeds exactly when every status is listed. Its keys are the user ids that occur, each mapped to the tally of that user's answers. Otherwise it fails with the first unlisted status. |
| MeetingModels.AutoScheduleMeeting.constructor | automation/meetings/models.py:23-46 | A new meeting is pending, at try 0, without attendees, answers or a selected time, and keeps its candidate slots. |
| MeetingModels.AutoScheduleMeeting.SetAttendees | automation/meetings/models.py:50-69 | Attendees are the emails in input order. Each email is answered "pending" with no time and its own user id and chat id. Slots, try, status and selected time are unchanged. |
| MeetingModels.AutoScheduleMeeting.UpdateAttendeeResponse | automation/meetings/models.py:77-96 | For an unknown email nothing changes. For a known one: the status and a response time are set; the user id and chat id are overwritten only when given; every other attendee is unchanged. |
| MeetingModels.AutoScheduleMeeting.AttendeeStatus | automation/meetings/models.py:98-100 | An unknown email reads as "pending"; a known one reads as its stored status. |
| MeetingModels.AutoScheduleMeeting.AttendeesByUser | automation/meetings/models.py:110-118 | Lists exactly the attendees whose answer carries the user id, each once. |
| MeetingModels.AutoScheduleMeeting.GetResponseSummary | automation/meetings/models.py:126-136 | Succeeds exactly when every status is one of the four listed. The counts then sum to the number of attendees. Otherwise it raises on the first unlisted status. |
| MeetingModels.AutoScheduleMeeting.GetUserSummary | automation/meetings/models.py:138-157 | Gives one tally per user id that occurs, counting that user's answers. It raises on the first unlisted status. |
| MeetingModels.AutoScheduleMeeting.TryNext | automation/meetings/models.py:158-173 | It succeeds exactly when `current_try < len - 1`. On success, the try goes up by one and every answer is reset to pending with no time, keeping its ids. Otherwise the status becomes failed and the try and answers are kept. The try stays within the slots. |
| MeetingModels.AutoScheduleMeeting.GetCandidateTime | automation/meetings/models.py:174-194 | Gives nothing exactly for an empty list or an out-of-range try. Otherwise it gives the current slot, localized when both ends convert and raw when they do not. |
| MeetingModels.AutoScheduleMeeting.CandidateAvailable | automation/meetings/models.py:158-179 | With the try kept in range, a slot is available exactly when there are candidates. |
| MeetingTasks.SummaryMeaning | automation/meetings/tasks.py:15-23 | Declines are counted exactly when someone declined. No pending and no declined means everyone accepted or is tentative. |
| MeetingTasks.CountZero | automation/meetings/tasks.py:15-23 | A status is counted zero times exactly when no answer has it. |
| MeetingTasks.Reschedule | automation/meetings/tasks.py:16-22 | With slots left, the try advances, answers reopen, and one card goes to each attendee with a chat id, for the new slot. Otherwise the meeting fails and its try and answers are kept. |
| MeetingTasks.Settle | automation/meetings/tasks.py:23-35 | The meeting is done and its selected time is the current candidate. The event goes to every attendee in order and then the host. It has the meeting's title, and a body exactly when the description is non-empty. |
| MeetingTasks.Advance | automation/meetings/tasks.py:14-35 | One step, as `Stepped` defines it. A meeting that is not waiting is untouched. An unlisted status leaves it untouched and raises. After a decline with a slot left, the try advances and every answer reopens. A card for the new slot goes to each attendee with a chat id. After a decline with no slot left, the meeting fails and nothing else changes. With nobody pending and nobody declining, the meeting is done with the current candidate selected. The event is then built from the title, the attendees, the host and the description. Otherwise nothing changes. Only the status, try, answers and selected time can change. |
| MeetingTasks.StepMoves | automation/meetings/tasks.py:14-35 | A step moves the status only from waiting, to failed or done. A meeting that becomes done keeps its try and selects the candidate it was at. A meeting that keeps waiting but changed moved to the next slot, with every answer pending again and cards sent. A meeting that fails keeps its try and answers. |
| MeetingTasks.UtcObjectLocalize | automation/meetings/tasks.py:25 | Converting with a `timezone` object always fails, so the raw slot is kept. |
| MeetingTasks.ProcessMeetingStatus | automation/meetings/tasks.py:9-37 | An unknown meeting is ignored, and a host without a token stops the task. Otherwise it is that same step. The cards show Taipei time, the selected slot is kept raw, the event is in "UTC", and the cards are sent as the host. |
| MeetingUtils.LookupUserIds | automation/meetings/utils.py:20-23 | One user id per attendee, in order, when every lookup succeeds; otherwise the failure of the first lookup that fails. |
| MeetingUtils.GetAttendeeData | automation/meetings/utils.py:10-36 | An empty list raises. A failed lookup, chat listing or members request surfaces as `ValueError` with its message. Otherwise entry i pairs attendee i with its user id and its first one-on-one chat. |
| MeetingUtils.ZipAttendees | automation/meetings/utils.py:27-30 | Entry i pairs the i-th email, user id and chat id. |
| MeetingUtils.CreateCardPayload | automation/meetings/utils.py:38-84 | The times are shifted by exactly +8 hours. There are exactly two buttons, whose links carry the user id, the uuid, and `response=accepted` or `response=declined`. The body is the description, or the default sentence, followed by the tag of attachment "1". |
| MeetingUtils.WithChatMembers | automation/meetings/utils.py:91-95 | The attendees who get a card are exactly those whose answer has a truthy chat id. |
| MeetingUtils.WithChat | automation/meetings/utils.py:91-95 | The card recipients are a subsequence of the attendee order: never more than the attendees. |
| MeetingUtils.DeliveryFor | automation/meetings/utils.py:95-111 | A card goes to the attendee's own chat, and counts as delivered exactly when the send answers below 300. |
| MeetingUtils.DeliveriesTargets | automation/meetings/utils.py:91-113 | Delivery k goes to the k-th attendee with a chat id, so a failed send does not stop the later ones. |
| MeetingUtils.Deliveries | automation/meetings/utils.py:91-113 | One delivery for each attendee with a truthy chat id, and no others. |
| MeetingUtils.InformAttendees | automation/meetings/utils.py:88-113 | One delivery per attendee with a chat id, in answer order, for the current slot, with links rooted at the redirect URI without `/callback`. It fails only when there is no slot and some card would be sent. |
| MeetingUtils.SendCards | automation/meetings/utils.py:91-113 | The send loop delivers exactly those cards, and fails only when a card is due and there is no slot. |
| MeetingViews.ParamsLastWins | automation/meetings/views.py:81-83 | A query parameter given more than once keeps its last value. |
| MeetingViews.Unquote | automation/meetings/views.py:81-83 | Decoding never lengthens a text and never empties one, and a text without '%' or '+' decodes to itself. |
| MeetingViews.QueryOfJoined | automation/meetings/views.py:81-83 | The parameters of `base?p1&p2...` are those of the pieces, when neither the root nor a piece holds '#' and no piece holds '&'. |
| MeetingViews.CardLinkQuery | automation/meetings/views.py:81-83 | A card link's parameters are exactly `userId`, `uuid` and `response`, each bound to its decoded value. |
| MeetingViews.CardLinkParses | automation/meetings/views.py:81-83 | A card link parses back into exactly its user id, uuid and answer, each as `request.GET` decodes it. A value without '%' or '+' comes back unchanged. |
| MeetingViews.PlusInUserIdReadsAsSpace | automation/meetings/utils.py:60 | The link puts the user id in unescaped, so a user id `a+b` is read back as `a b`. |
| MeetingViews.AcceptLinkRecordsAcceptance | automation/meetings/views.py:81-107 | Following a card's accept link yields all three parameters: the decoded user id and uuid, and the answer read as accepted. |
| MeetingViews.FirstWithUser | automation/meetings/views.py:95-101 | The matched email is the first in answer order whose user id equals the one given; nothing when none does. |
| MeetingViews.FirstWithUserSelects | automation/meetings/views.py:95-101 | That match is the first of the emails `get_attendees_by_user` would list. |
| MeetingViews.MeetingResponse | automation/meetings/views.py:80-112 | A missing or empty parameter gives 400 "Missing parameters". An unknown meeting gives 400 "Invalid meeting UUID". No match, or an empty matched email, gives 400 "Attendee not found for tenant". Otherwise only the matched attendee's status and response time change: its user id and chat id, the other answers and the rest of the meeting stay, and the meeting's status is not checked. Nothing changes on a 400. |
| MeetingViews.ReplyClass | automation/meetings/views.py:167-172 | An unlisted status is the only one shown as "secondary", and a decline the only one shown as "danger". |
| MeetingViews.ReplyLabel | automation/meetings/views.py:174-179 | An unlisted status is the only one labelled "未知", and a pending one the only one labelled "Waiting for response". |
| MeetingViews.StatusRows | automation/meetings/views.py:165-187 | One row per answer, in answer order, with its class, label and response time. |
| MeetingViews.MeetingStatusView | automation/meetings/views.py:115-216 | An unknown meeting gives 404. Otherwise the meeting takes the full step of `Stepped`, with Taipei time for the cards and the selected slot and the event in the meeting's own zone. The reply is 500 exactly when the step met an unlisted status, had no slot to book, or booked an event that Graph refused. A refused booking gives its error text and leaves the meeting done. Otherwise the reply carries the new status, its message and colour, one row per attendee in answer order, and the selected time. |
| ReminderModels.StatusRoundTrip | automation/reminders/models.py:8-12 | The four statuses are stored as PENDING, SENT, FAILED, COMPLETED, which read back as themselves. |
| ReminderModels.StatusOf | automation/reminders/models.py:8-12 | A text that reads as a status is that status's stored text. |
| ReminderModels.NewNotification | automation/reminders/models.py:28-33 | A created notification is PENDING with no message ids. |
| ReminderModels.NewManager | automation/reminders/models.py:40-56 | A created manager has no Celery id, sheet, notification times or trigger. |
| ReminderModels.FirstIndex | automation/reminders/models.py:7-56 | `.first()` gives the earliest row passing the filter, and none only when no row passes. |
| ReminderModels.Filter | automation/reminders/models.py:7-56 | A filtered query never returns more rows than the table has. |
| ReminderModels.FilterMembers | automation/reminders/models.py:7-56 | A filter keeps exactly the rows that pass it. |
| ReminderModels.FilterKeepsPairs | automation/reminders/models.py:7-56 | A filter keeps the rows' relative order. |
| ReminderModels.ReminderDb.constructor | automation/reminders/models.py:7-56 | The tables start empty and valid. |
| ReminderTasks.OnError | automation/reminders/tasks.py:28-34 | An error mentioning "Too Many Requests" is retried, with a countdown from 30 to 60, while fewer than 5 retries were made. Any other error is logged. |
| ReminderTasks.EveryCountdown | automation/reminders/tasks.py:30 | Every countdown from 30 to 60 can be drawn. |
| ReminderTasks.Runs | automation/reminders/tasks.py:22-34 | A notification is tried at most 6 times, and every try but the last is a rate-limit retry. |
| ReminderTasks.NotifySingleTask | automation/reminders/tasks.py:22-34 | An unknown notification is logged. Otherwise it is sent: on success it is SENT with the new message id appended, and on failure it is unchanged, with the retry rule applied. |
| ReminderTasks.DispatchExactlyOnce | automation/reminders/tasks.py:47-55 | Exactly the manager's workbook notifications that are not COMPLETED are queued, each once. |
| ReminderTasks.DispatchAll | automation/reminders/tasks.py:54-55 | The dispatch loop queues them in table order. |
| ReminderTasks.Stamp | automation/reminders/tasks.py:56-58 | Sets `last_notified_at = now` and `next_notify_time = now + notify_interval` for that manager only. |
| ReminderTasks.NotifyTask | automation/reminders/tasks.py:36-61 | For a known manager, the host's chats are scanned first, then its notifications are dispatched, then its times are stamped. An unknown uuid changes nothing. |
| ReminderTasks.ScanHostsEffect | automation/reminders/tasks.py:69-73 | After scanning some hosts, a notification is COMPLETED exactly when it belongs to one of them, was not COMPLETED, and has a recorded reply. |
| ReminderTasks.DaemonTask | automation/reminders/tasks.py:62-73 | One scan per distinct host. `distinct()` has no `order_by`, so the order is the database's; the model scans in first-seen order. The final table does not depend on the order: every notification that was not COMPLETED and has a recorded reply becomes COMPLETED; nothing else changes. |
| ReminderViews.TriggerNamesDistinct | automation/reminders/views.py:26 | Distinct managers get distinct trigger names `sharepoint-notify-{uuid}`. |
| ReminderViews.PutTriggerOnce | automation/reminders/views.py:29-47 | Update-or-create keeps names unique and leaves exactly one trigger under the name. That is the updated old one when there was one; otherwise the new one is appended. All other triggers are kept. |
| ReminderViews.ScheduleNotify | automation/reminders/views.py:16-50 | The manager's trigger is updated or created and the manager is linked to it. An immediate run is queued with the manager's key. |
| ReminderViews.ScheduledNotifyTrigger | automation/reminders/views.py:18-47 | Afterwards the trigger is enabled, runs `*/{interval}` minutes in hours 8-19, has the manager's key as its only argument, and is linked from the manager. |
| ReminderViews.ScheduleDaemonTask | automation/reminders/views.py:54-78 | Puts the daemon trigger by its fixed name; the other tables are unchanged. |
| ReminderViews.ScheduledDaemonTrigger | automation/reminders/views.py:56-78 | There is exactly one enabled daemon trigger, running every 30 minutes. A new one runs `reminders.tasks.daemon_task`; an existing one is repointed to `reminders.views.daemon_task` and keeps its arguments. |
| ReminderViews.DeleteExactly | automation/reminders/views.py:170-184 | The delete removes exactly the notifications and managers with that drive, quoted path and host, and keeps both tables valid. |
| ReminderViews.DeleteNotificationsExactly | automation/reminders/views.py:174-178 | The notification half of that delete. |
| ReminderViews.DeleteManagersExactly | automation/reminders/views.py:180-184 | The manager half of that delete. |
| ReminderViews.DeleteTask | automation/reminders/views.py:165-186 | Not signed in redirects; a non-POST gives 400; a missing path fails in `quote`. Otherwise it is the delete above; triggers are never touched. |
| ReminderViews.GetTrackingItems | automation/reminders/views.py:126-140 | The loop returns the tracking items of the host's managers. |
| ReminderViews.TrackedItems | automation/reminders/views.py:130-139 | One item per manager of the host, in order. The path is unquoted; the notification link is built from the stored, quoted path. |
| SharePointClient.Upsert | automation/reminders/sharepoint_client.py:107-130 | Notification uuids stay distinct and natural keys stay unique. |
| SharePointClient.UpsertEffect | automation/reminders/sharepoint_client.py:107-130 | A row with the same natural key gets the new fields and PENDING, whatever its status, and keeps its uuid and message ids. With no such row, exactly one is created. |
| SharePointClient.UpsertIdempotent | automation/reminders/sharepoint_client.py:107-130 | Writing the same notification twice is the same as writing it once. |
| SharePointClient.UpsertAll | automation/reminders/sharepoint_client.py:218-219 | Upserting a list of notifications in order keeps uuids distinct and natural keys unique. |
| SharePointClient.UpsertAllAppend | automation/reminders/sharepoint_client.py:218-219 | Processing rows in two batches equals processing them at once. |
| SharePointClient.RowFields | automation/reminders/sharepoint_client.py:153-205 | A row yields one notification per reason, in order, each addressed at its reason's column. |
| SharePointClient.OneRowField | automation/reminders/sharepoint_client.py:158-205 | Each reason of a row leads to one upsert at its own column's address. |
| SharePointClient.UpsertManager | automation/reminders/sharepoint_client.py:278-286 | The manager table stays valid. |
| SharePointClient.UpsertManagerEffect | automation/reminders/sharepoint_client.py:278-286 | Afterwards exactly one manager watches the workbook, with the host and interval given. Other managers are unchanged; at most one is added. |
| SharePointClient.MentionPayload | automation/reminders/sharepoint_client.py:221-261 | An owner is mentioned, as `<at id="0">`, exactly when the owner e-mail is truthy. Both forms carry the sheet, task and reason. |
| SharePointClient.ReminderEndsWithDetails | automation/reminders/sharepoint_client.py:236-258 | Every reminder is one `<div>` ending with the sheet, task and reason lines. |
| SharePointClient.MarkSent | automation/reminders/sharepoint_client.py:295-297 | The notification gets the new message id appended and becomes SENT. Nothing else changes and the table stays valid. |
| SharePointClient.CompleteId | automation/reminders/sharepoint_client.py:80-81 | Only the notification with that uuid becomes COMPLETED. |
| SharePointClient.PendingMembers | automation/reminders/sharepoint_client.py:301-305 | The scan takes exactly the host's notifications that are not COMPLETED. |
| SharePointClient.InGroupMembers | automation/reminders/sharepoint_client.py:311-319 | A chat group holds exactly the pending notifications of that chat. |
| SharePointClient.GroupByChat | automation/reminders/sharepoint_client.py:310-319 | The groups are keyed by the distinct chat ids, in first-seen order, each holding its notifications in order. |
| SharePointClient.FirstReply | automation/reminders/sharepoint_client.py:333-338 | A recorded reply is never empty. |
| SharePointClient.FirstReplyIsFirst | automation/reminders/sharepoint_client.py:333-338 | The message ids are tried in order, and the reply written is that of the first id with a non-empty reply. |
| SharePointClient.Scanned | automation/reminders/sharepoint_client.py:299-340 | After a scan, a notification is COMPLETED exactly when it is the client host's, was not COMPLETED, and its first reply was written into the client's workbook. The rest are unchanged. |
| SharePointClient.ScanItemHit | automation/reminders/sharepoint_client.py:330-340 | Scanning one notification records a reply exactly when its first reply exists and the cell write succeeds. |
| SharePointClient.AnsweredInChat | automation/reminders/sharepoint_client.py:322-327 | Each chat's messages are fetched once, and are the listing every notification of that chat is checked against. |
| SharePointClient.ScanEnds | automation/reminders/sharepoint_client.py:322-340 | Visiting every chat group leaves exactly the scan's result. |
| SharePointClient.SharePointClient.constructor | automation/reminders/sharepoint_client.py:15-29 | A client has its host, site, drive and quoted path, and no interval yet. |
| SharePointClient.SharePointClient.CreateNotifyItem | automation/reminders/sharepoint_client.py:83-132 | A failed owner lookup raises out of the run. Without a group chat, nothing is stored. Otherwise the notification is upserted with the owner's id, mail and name. |
| SharePointClient.SharePointClient.CheckDate | automation/reminders/sharepoint_client.py:176-205 | A missing date, or one exactly one day away, yields one notification. Any other date yields none. |
| SharePointClient.SharePointClient.ProcessRow | automation/reminders/sharepoint_client.py:134-205 | Stores exactly the notifications of the row's reasons. It stops the run exactly when an owner lookup fails. |
| SharePointClient.SharePointClient.WriteCell | automation/reminders/sharepoint_client.py:74-81 | It succeeds exactly when the range POST succeeds, and an unknown uuid fails. The POST goes to this client's own site and path, with the notification's sheet and cell. Only on success does the notification become COMPLETED. |
| SharePointClient.SharePointClient.Notify | automation/reminders/sharepoint_client.py:289-297 | The reminder is sent to the group chat. On success the message id is appended and the status becomes SENT; a failed send changes nothing. |
| SharePointClient.SharePointClient.ScanItem | automation/reminders/sharepoint_client.py:330-340 | Writes the first reply found and completes the notification, only when one is found and written. |
| SharePointClient.SharePointClient.ScanAnyMatchMsg | automation/reminders/sharepoint_client.py:299-340 | The tables after the scan are exactly the scan's result. A chat whose listing fails is skipped, and an error on one notification does not stop the others. |
| SharePointClient.SharePointClient.ScanChat | automation/reminders/sharepoint_client.py:322-340 | A chat whose fetch fails is skipped; otherwise each of its notifications is scanned against its messages. |
| SharePointClient.SharePointClient.ScanItems | automation/reminders/sharepoint_client.py:330-340 | Each notification of a chat is scanned in turn. |
| SharePointClient.SharePointClient.ProcessSheet | automation/reminders/sharepoint_client.py:207-219 | The group chat is looked up by the name in the first data row, then every row is processed in order. The run stops when the chat is missing or an owner lookup fails. |
| SharePointClient.SharePointClient.ProcessRows | automation/reminders/sharepoint_client.py:218-219 | The rows are processed in order until one stops the run. |
| SharePointClient.SharePointClient.CreateNotifyItems | automation/reminders/sharepoint_client.py:263-287 | Stores the interval, scans first, then processes the sheets. The workbook's manager is upserted only when no sheet stopped the run. |
| SharePointRows.LettersRoundTrip | automation/reminders/sharepoint_client.py:10-12 | The letters of column n read back as n. |
| SharePointRows.Letters | automation/reminders/sharepoint_client.py:10-12 | Every column has a non-empty name made only of capital letters. |
| SharePointRows.ColumnIndex | automation/reminders/sharepoint_client.py:10-12 | A name of k letters denotes a column at least k. |
| SharePointRows.IndexRoundTrip | automation/reminders/sharepoint_client.py:10-12 | Every non-empty run of capital letters names exactly one column. |
| SharePointRows.ExcelCol | automation/reminders/sharepoint_client.py:10-12 | There is a column name exactly for the indexes 0 to 18277 (A to ZZZ). |
| SharePointRows.ExcelColRoundTrip | automation/reminders/sharepoint_client.py:10-12 | `get_excel_col(i)` names column i + 1. |
| SharePointRows.TemplateLetters | automation/reminders/sharepoint_client.py:26-29 | Status, task, owner, start and due are columns D, E, F, G and J, and the group name is column M. |
| SharePointRows.RowReasonsExactly | automation/reminders/sharepoint_client.py:134-205 | A row is reported for a reason exactly when it deserves it. Row 0, a row without a task, and "done"/"n/a" rows are never reported. An owner problem is the only reason given. Otherwise start and due are checked on their own. Each reason is reported at most once. |
| SharePointRows.AddressRoundTrip | automation/reminders/sharepoint_client.py:162 | A column's letters followed by a row number read back as that column and row. |
| SharePointRows.FieldAddressRowLag | automation/reminders/sharepoint_client.py:146-162 | A notification's cell address is in the reason's column but two rows above the row it stores. |
| TeamsClient.NextEndpoint | automation/core/teams_client.py:31-32 | A followed next link never starts with '/'. |
| TeamsClient.NextLinkRoundTrip | automation/core/teams_client.py:31-32 | A Graph next link `{base}/{endpoint}` is turned back into the endpoint. |
| TeamsClient.NextLinkRoundTripAt | automation/core/teams_client.py:31-32 | The same holds for any base URL. |
| TeamsClient.AllPagesBoundIrrelevant | automation/core/teams_client.py:22-34 | The pages collected do not depend on the page bound used to show the listing ends. |
| TeamsClient.FetchAllPages | automation/core/teams_client.py:22-34 | The loop returns all pages' values concatenated in order, or the status of the first page that is not 200. |
| TeamsClient.FirstTopic | automation/core/teams_client.py:86-91 | Within a page, the answer is the first chat whose topic equals the name; there is none only when no chat has it. |
| TeamsClient.ScanTopics | automation/core/teams_client.py:86-91 | The page loop returns that first chat. |
| TeamsClient.SearchChatByTopic | automation/core/teams_client.py:75-98 | Pages are searched in order until a chat with the topic is found. It raises on a non-200 page or when no page has one. |
| TeamsClient.SendMessageToChat | automation/core/teams_client.py:35-43 | A send succeeds exactly below status 300, returning the message id; otherwise it raises with the status. |
| TeamsClient.AuthorId | automation/core/teams_client.py:106 | Reading the author id fails exactly when `from` or `from.user` is null. It gives an id exactly when `from.user.id` is present, and that id is the result. |
| TeamsClient.ExamineHit | automation/core/teams_client.py:101-109 | A message matches exactly when it has attachments, its author is the user (or the user id is ""), and its first attachment quotes the message id. It raises exactly when it has attachments, the user id is not "", and `from` or `from.user` is null. |
| TeamsClient.NoneIsNotWildcard | automation/core/teams_client.py:106 | With user id None, only a message whose author is readable and has no id matches. |
| TeamsClient.ReferenceMeaning | automation/core/teams_client.py:99-120 | There is no reply exactly when every message is skipped. Otherwise the first message not skipped decides: its text when it matches, and an error when its `from` or `from.user` is null. |
| TeamsClient.TeamsClient.constructor | automation/core/teams_client.py:10-12 | A new client starts with an empty chat cache. |
| TeamsClient.TeamsClient.GetChats | automation/core/teams_client.py:13-34 | Returns all pages of `me/chats`, concatenated in order. |
| TeamsClient.TeamsClient.ListMsgInChats | automation/core/teams_client.py:45-66 | Returns all pages of the chat's messages, concatenated in order. |
| TeamsClient.TeamsClient.GetChatIdByName | automation/core/teams_client.py:68-98 | Finds the first chat with the topic and caches its id under the name. A failure leaves the cache as it was. |
| TeamsClient.TeamsClient.SearchMessageReference | automation/core/teams_client.py:99-120 | The loop returns the text of the first matching message, or None. It raises at the first message with attachments whose `from` or `from.user` is null, unless the user id is "". |
| Text.Lower | automation/core/utils.py:13 | `lower()` changes the capital letters A-Z and nothing else, and keeps the length. |
| Text.Strip | automation/core/graph_client.py:264 | `strip()` gives a slice `s[a..b]` of its input: everything before `a` and from `b` on is whitespace, and the slice neither starts nor ends with whitespace. |
| Text.ReplaceChar | automation/Unanswered_Topic_Tracker/utils.py:81 | `replace(a, b)` swaps every `a` for `b` and keeps all other characters. |
| Text.SplitJoin | automation/meetings/views.py:81-83 | Splitting text joined by a separator that none of its parts contain gives the parts back. |
| Text.ParseNatToString | automation/reminders/views.py:26 | `str(n)` reads back as n. |
| Text.NatToString | automation/reminders/views.py:26 | `str(n)` is a non-empty run of digits, one digit exactly when n < 10. |
| Text.IntToString | automation/core/graph_client.py:181 | `str(i)` is non-empty and starts with '-' exactly when i is negative. |
| Text.NatToStringInjective | automation/reminders/views.py:26 | Different numbers print differently, so trigger names built from distinct uuids differ. |
| Text.Split | automation/meetings/views.py:81-83 | `split(c)` gives at least one piece, and no piece contains `c`. |
| Text.LexLeTotal | automation/Unanswered_Topic_Tracker/utils.py:71 | Any two timestamps are ordered one way or the other. |
| Text.LexLeTransitive | automation/Unanswered_Topic_Tracker/utils.py:71 | The timestamp order is transitive. |
| TopicTrackerUtils.RefOf | automation/Unanswered_Topic_Tracker/utils.py:31-41 | Only a `messageReference` attachment yields an entry. |
| TopicTrackerUtils.RefsInOrder | automation/Unanswered_Topic_Tracker/utils.py:26-41 | `reply_to_id` lists the well-formed quoted replies in attachment order. Other attachments and malformed replies add nothing. |
| TopicTrackerUtils.ReplyRefs | automation/Unanswered_Topic_Tracker/utils.py:29-41 | The attachment loop collects exactly those entries. |
| TopicTrackerUtils.ParseAllFails | automation/Unanswered_Topic_Tracker/utils.py:18-23 | Parsing fails exactly when a kept message's sender has a null user. |
| TopicTrackerUtils.ParseAllKeepsOrder | automation/Unanswered_Topic_Tracker/utils.py:18-53 | Messages with a null or missing `from` are dropped and the rest keep input order. `reply_to_id` is None exactly when no reference was read. |
| TopicTrackerUtils.DisplayName | automation/Unanswered_Topic_Tracker/utils.py:22 | The sender is "Unknown" when `user` or its `displayName` is missing, None when the display name is null, and the name itself otherwise. |
| TopicTrackerUtils.ParseGraphChatMessages | automation/Unanswered_Topic_Tracker/utils.py:5-55 | The message loop returns that parse: it fails at the first kept message whose `from.user` is null, and a null display name is kept as None. |
| TopicTrackerUtils.SortByTimeSorts | automation/Unanswered_Topic_Tracker/utils.py:71 | The dialog is in ascending timestamp order and is a permutation of the messages. |
| TopicTrackerUtils.InsertByTime | automation/Unanswered_Topic_Tracker/utils.py:71 | Inserting one message adds exactly that message to the dialog. |
| TopicTrackerUtils.SortByTime | automation/Unanswered_Topic_Tracker/utils.py:71 | Sorting keeps exactly the same messages, as a multiset. |
| TopicTrackerUtils.InsertKeepsOrder | automation/Unanswered_Topic_Tracker/utils.py:71 | Inserting a message by timestamp keeps a sorted dialog sorted. |
| TopicTrackerUtils.Rendered | automation/Unanswered_Topic_Tracker/utils.py:74-77 | With `max_len` set and non-zero, at most `max_len` lines are rendered; otherwise all are. |
| TopicTrackerUtils.DialogLines | automation/Unanswered_Topic_Tracker/utils.py:74-92 | The loop renders the first messages up to that count, or fails on the first bad reply entry. |
| TopicTrackerUtils.LinesRenderInOrder | automation/Unanswered_Topic_Tracker/utils.py:79-92 | Line i renders message i. Rendering fails exactly when some line does. |
| TopicTrackerUtils.LineIsOneLine | automation/Unanswered_Topic_Tracker/utils.py:81-92 | A line `{time} - {sender} {reply_tag}: {text}` has no line break, because the text and preview have theirs replaced. |
| TopicTrackerUtils.TagIsOneLine | automation/Unanswered_Topic_Tracker/utils.py:83-90 | The reply tag, built from the first entry only, has no line break. |
| TopicTrackerUtils.DialogSplits | automation/Unanswered_Topic_Tracker/utils.py:92-94 | The joined dialog splits back into exactly one line per rendered message. |
| TopicTrackerUtils.Flatten | automation/Unanswered_Topic_Tracker/utils.py:96-123 | The returned prompt contains no line break and no no-break space. |
| TopicTrackerUtils.MakePrompt | automation/Unanswered_Topic_Tracker/utils.py:57-123 | Sorts by timestamp, renders up to `max_len` lines, joins them with line breaks, then flattens the header and dialog. It fails with the error of the first bad reply entry. |

## Left out

- HTTP, MSAL and OAuth are left out: `_send_request`, `get_user_info`, `auth_helper.py`, `core/views.py`. The drive, list and site lookups are too. Their answers are parameters.
- Graph and sheet I/O is left out: the download, the pandas reading and `upload_excel_with_data`. A sheet is a list of rows of optional text cells. NaN is modelled as an empty cell. A numeric or date cell is not modelled, so neither is the `TypeError` that `"@" not in context["owner"]` (`automation/reminders/sharepoint_client.py`, line 165) raises on a non-text owner cell.
- Output is left out: logging and `print`, the templates, and the JSON rendering.
- BeautifulSoup HTML-to-text and emoji replacement are uninterpreted functions. `json.loads` of a quoted reply is as well.
- Date parsing, `astimezone` and `strftime` are uninterpreted functions. Only the index logic, the +8 h shift (as minutes) and whole-day distances are modelled.
- `random.randint(30, 60)` is a chosen value, constrained to 30..60.
- Celery `.delay` and `retry` are modelled as the returned list of queued ids and the sequence of runs, without concurrency. `MAX_NOTIFICATIONS_PER_BATCH` and `SLEEP_BETWEEN_BATCHES` are unused by the code and left out.
- The crontab `get_or_create` is a schedule value. Schedules are not stored as rows.
- Randomly generated uuids are numbers handed out by each table.
- Several views are left out because they are request plumbing: `schedule_meeting`, `get_contacts`, `get_task_notifications`, the dashboard views, all `urls.py` and `admin.py`.
- `reminders/task.py`, `reminders/signals.py` and `reminders/apps.py` are Celery chaining and are left out.
- `analyze_unanswered_questions` and the topic tracker's tasks, views and models are left out: they are LLM and upload plumbing.
- `get_all_chats` is not modelled step by step; `GetChatIds` takes its result, or its failure, as a parameter. The request can fail: `_send_request` raises on a missing token, on a 4xx or 5xx status, and on an empty body. Every next link is also sent with the base URL put in front again, so a listing of more than one page requests a malformed URL.
- TeamsClient.SendMessageToChat: the status of the send is a parameter. The source passes the payload dictionary as `data=`, which form-encodes it under a JSON content type, so real sends plausibly always fail; the model does not decide this. The same holds for `SharePointClient.SharePointClient.Notify` and `MeetingUtils.DeliveryFor`, which take the send's answer as given.
- SharePointClient.SharePointClient.constructor: the client's lookups cannot fail here. In the source, `get_user_info` and the site, list and drive lookups run in the constructor and can raise.
- ReminderTasks.DaemonTask: building a client never fails here. In the source, a failed construction raises out of the loop with no `try`, so the hosts after it are not scanned.
- ReminderTasks.NotifyTask: building the client never fails here. In the source, a failed construction is caught by the outer `except`: nothing is scanned, dispatched or stamped, and the error is logged.
- TeamsClient.Reference: a matching message with no body is read as empty text. In the source `message['body']['content']` raises `KeyError` there, and the scan of that notification ends.
- `get_meeting_times_slots`'s request is left out. Its response is a parameter.
- TeamsClient.FetchAllPages: requires that the next links end within a ghost bound of pages. A listing whose next links cycle forever is not modelled.
- TeamsClient.TeamsClient.GetChats: the same page bound is required.
- TeamsClient.TeamsClient.ListMsgInChats: the same page bound is required.
- TeamsClient.TeamsClient.GetChatIdByName: the search must end within a page bound.
- TeamsClient.SearchChatByTopic: the search must end within a page bound.
- SharePointClient.SharePointClient.ScanAnyMatchMsg: every chat's message listing must end within a page bound. The same holds for `ScanChat`, `ProcessSheet` and `CreateNotifyItems`.
- ReminderTasks.NotifyTask: the same page bound is required of the scan. The same holds for `DaemonTask`.
- TopicTrackerUtils.SortByTime: the contract states sortedness and permutation but not the stability of Python's `sorted`.
- Text.Lower: only ASCII capitals are lowered. Other Unicode case mappings are not modelled.
- Django's save, and the JSON (de)serialisation of the meeting's fields, are modelled as direct field updates.
- SharePointClient.SheetRun: an empty group cell aborts at once with the not-found error for "nan". In the source, `get_chat_id_by_name(nan)` first pages through every chat, since NaN equals no topic, so a failing page aborts with that page's error instead. The same holds for `SharePointClient.SharePointClient.ProcessSheet`.
- ReminderTasks.DaemonTask: one message-page function serves every host. In the source each host's client lists chats and messages with its owner's token, so different hosts can see different pages. The same holds for `ReminderTasks.NotifyTask`, which scans a single host.
- Graph answers outside the modelled cases are not distinguished:
  - `GraphClient.ContactsOf` reads a null `displayName` as "", where the source (`automation/core/graph_client.py`, line 285) returns None;
  - a `ValueError` from `_send_request` on an empty body escapes `except RequestException` as itself, where `GraphClient.SearchEmail` folds it into `RequestFailed`;
  - a send answer without `id` makes `response.json()['id']` (`automation/core/teams_client.py`, line 43) raise `KeyError`, which `TeamsClient.SendMessageToChat` does not model.
- MeetingViews.Unquote: a percent escape of a byte from `%80` up is kept as written. Django decodes such bytes as UTF-8; the model decodes only ASCII escapes.
- MeetingViews.CardLinkParses: stated only for a root without '?' or '#' and values without '&' or '#'. `create_card_payload` escapes nothing, so such a value would split the link or be cut off with the fragment. Any re-encoding of the link by the browser is not modelled.

## Findings

| source | as written | input that shows it | evidently intended | confidence | as-written member | corrected member |
|---|---|---|---|---|---|---|
| automation/core/graph_client.py:279 | `data = data.json()` is called on the dict that `.json()` already returned. Every query that is not blank therefore raises `AttributeError`, and no contact is ever returned. | query "ann"; Graph answers `{"value": [{"displayName": "Ann", "mail": "ann@x.com"}]}` | return `[{"name": "Ann", "email": "ann@x.com"}]` | not executed | GraphClient.SearchEmailAsWrittenCounterexample | GraphClient.SearchEmail |
