/**
 * `GraphSharePointClient` (automation/reminders/sharepoint_client.py): it
 * turns the rows of a watched workbook into notifications, posts reminders
 * to the row's Teams group, scans the group chats for replies to those
 * reminders, and records a reply by writing it to the sheet and completing
 * the notification.
 *
 * Calls to Microsoft Graph are parameters: `lookupOwner` for
 * `get_user_info_by_email`, `send` for the message post, `post` for the cell
 * write, and page functions for the paged chat and message listings, which
 * run through the `TeamsClient` of the model.
 */
module SharePointClient {
  import opened Wrappers
  import opened Text
  import opened ReminderModels
  import opened SharePointRows
  import GraphClient
  import TeamsClient
  import MeetingModels
  import MeetingUtils

  // ----- The notification upsert -----

  /** `.filter(<natural key>).first()`. */
  function FindKey(rows: seq<TaskNotification>, key: NaturalKey): Option<nat> {
    FirstIndex(rows, (n: TaskNotification) => KeyOf(n.fields) == key)
  }

  /**
   * The upsert of `_create_notify_item`: the row with the natural key gets
   * the new fields and PENDING and keeps its message ids; without one, a
   * row is created.
   */
  function Upsert(t: NotificationTable, f: NotificationFields): (t': NotificationTable)
    ensures NotificationsValid(t) ==> NotificationsValid(t')
  {
    match FindKey(t.rows, KeyOf(f))
    case Some(i) => NotificationTable(t.rows[i := TaskNotification(t.rows[i].id, f, t.rows[i].msgIds, Pending)], t.nextId)
    case None => NotificationTable(t.rows + [NewNotification(t.nextId, f)], t.nextId + 1)
  }

  /**
   * In a valid table the upsert touches exactly the row with the key, which
   * gets the fields and PENDING whatever its status was and keeps its uuid
   * and message ids; only when no row has the key is exactly one row added.
   */
  lemma UpsertEffect(t: NotificationTable, f: NotificationFields)
    requires NotificationsValid(t)
    ensures var t' := Upsert(t, f);
            && (forall i :: 0 <= i < |t.rows| ==>
                  t'.rows[i] == if KeyOf(t.rows[i].fields) == KeyOf(f)
                                then TaskNotification(t.rows[i].id, f, t.rows[i].msgIds, Pending)
                                else t.rows[i])
            && ((exists i :: 0 <= i < |t.rows| && KeyOf(t.rows[i].fields) == KeyOf(f)) ==> |t'.rows| == |t.rows|)
            && ((forall i :: 0 <= i < |t.rows| ==> KeyOf(t.rows[i].fields) != KeyOf(f)) ==>
                  t'.rows == t.rows + [NewNotification(t.nextId, f)])
  {
  }

  /** Upserting the same fields twice is upserting them once: a rescan of an unchanged row changes nothing. */
  lemma UpsertIdempotent(t: NotificationTable, f: NotificationFields)
    ensures Upsert(Upsert(t, f), f) == Upsert(t, f)
  {
    var t1 := Upsert(t, f);
    var i := FindKey(t1.rows, KeyOf(f));
    match FindKey(t.rows, KeyOf(f))
    case Some(k) =>
      assert forall j :: 0 <= j < k ==> t1.rows[j] == t.rows[j] && KeyOf(t1.rows[j].fields) != KeyOf(f);
      assert KeyOf(t1.rows[k].fields) == KeyOf(f);
      assert i == Some(k);
    case None =>
      assert forall j :: 0 <= j < |t.rows| ==> t1.rows[j] == t.rows[j];
      assert KeyOf(t1.rows[|t.rows|].fields) == KeyOf(f);
      assert i == Some(|t.rows|);
  }

  /** Upserting a list of fields in order. */
  function UpsertAll(t: NotificationTable, fs: seq<NotificationFields>): (t': NotificationTable)
    ensures NotificationsValid(t) ==> NotificationsValid(t')
  {
    if fs == [] then t else Upsert(UpsertAll(t, fs[..|fs| - 1]), fs[|fs| - 1])
  }

  /** Upserting one more fields record after a list. */
  lemma UpsertAllSnoc(t: NotificationTable, fs: seq<NotificationFields>, f: NotificationFields)
    ensures UpsertAll(t, fs + [f]) == Upsert(UpsertAll(t, fs), f)
  {
    assert (fs + [f])[..|fs|] == fs;
  }

  /** Upserting two lists one after the other is upserting their concatenation. */
  lemma {:induction false} UpsertAllAppend(t: NotificationTable, fs: seq<NotificationFields>, gs: seq<NotificationFields>)
    ensures UpsertAll(t, fs + gs) == UpsertAll(UpsertAll(t, fs), gs)
    decreases |gs|
  {
    if gs == [] {
      assert fs + gs == fs;
    } else {
      var init := gs[..|gs| - 1];
      UpsertAllAppend(t, fs, init);
      assert (fs + gs)[..|fs + gs| - 1] == fs + init;
    }
  }

  // ----- Rows -----

  /** What `get_user_info_by_email` returns: the owner's Graph id, mail and display name. */
  datatype OwnerInfo = OwnerInfo(id: Option<string>, mail: Option<string>, displayName: Option<string>)

  /** The empty user info used when the owner cell is empty. */
  const NoOwnerInfo := OwnerInfo(None, None, None)

  /** The workbook a client watches and the host it acts for. */
  datatype Workbook = Workbook(hostId: string, siteName: string, driveName: string, path: string)

  /** The row context `_process_row` hands to `_create_notify_item`. */
  datatype Context = Context(sheetName: string, row: int, task: string, owner: Option<string>,
                             teamsGroupName: string, teamsGroupId: Option<string>)

  /** Why a run of `create_notify_items` stopped. */
  datatype Abort =
    | OwnerLookup(email: string, message: string)      // `get_user_info_by_email` raised
    | GroupLookup(failure: TeamsClient.LookupError)    // `get_chat_id_by_name` raised
    | DownloadFailed(reason: string)                   // the workbook download raised

  /** The owner's user info: fetched for a non-empty owner cell, empty otherwise. */
  function OwnerOf(owner: Option<string>, lookupOwner: string -> Result<OwnerInfo, string>): Result<OwnerInfo, Abort> {
    if MeetingUtils.Truthy(owner) then
      match lookupOwner(owner.value)
      case Ok(info) => Ok(info)
      case Err(e) => Err(OwnerLookup(owner.value, e))
    else Ok(NoOwnerInfo)
  }

  /** The `defaults` of `_create_notify_item`. */
  function FieldsFor(book: Workbook, ctx: Context, groupId: string, reason: Reason, field: string, info: OwnerInfo)
    : NotificationFields
  {
    NotificationFields(book.hostId, book.siteName, book.driveName, book.path, ctx.sheetName, ctx.row, ctx.task,
                       ctx.teamsGroupName, groupId, info.id, info.mail, info.displayName, field, reason)
  }

  /** The context of data row `rowIdx`. */
  function ContextOf(row: Row, rowIdx: nat, sheetName: string, groupName: string, groupId: Option<string>): Context {
    Context(sheetName, StoredRow(rowIdx), row.task.GetOr(""), row.owner, groupName, groupId)
  }

  /** The fields of the notifications a row yields, one per reason. */
  function RowFields(book: Workbook, ctx: Context, groupId: string, reasons: seq<Reason>, rowIdx: nat, info: OwnerInfo)
    : (fs: seq<NotificationFields>)
    ensures |fs| == |reasons|
    ensures forall i :: 0 <= i < |reasons| ==> fs[i] == FieldsFor(book, ctx, groupId, reasons[i], FieldAddress(reasons[i], rowIdx), info)
  {
    seq(|reasons|, i requires 0 <= i < |reasons| => FieldsFor(book, ctx, groupId, reasons[i], FieldAddress(reasons[i], rowIdx), info))
  }

  lemma RowFieldsAppend(book: Workbook, ctx: Context, groupId: string, rs: seq<Reason>, qs: seq<Reason>, rowIdx: nat,
                        info: OwnerInfo)
    ensures RowFields(book, ctx, groupId, rs + qs, rowIdx, info) ==
            RowFields(book, ctx, groupId, rs, rowIdx, info) + RowFields(book, ctx, groupId, qs, rowIdx, info)
  {
  }

  /** A row reported for one reason upserts that reason's notification. */
  lemma OneRowField(t: NotificationTable, book: Workbook, ctx: Context, groupId: string, r: Reason, rowIdx: nat,
                    info: OwnerInfo)
    ensures UpsertAll(t, RowFields(book, ctx, groupId, [r], rowIdx, info)) ==
            Upsert(t, FieldsFor(book, ctx, groupId, r, FieldAddress(r, rowIdx), info))
  {
    var f := FieldsFor(book, ctx, groupId, r, FieldAddress(r, rowIdx), info);
    assert RowFields(book, ctx, groupId, [r], rowIdx, info) == [] + [f];
    UpsertAllSnoc(t, [], f);
  }

  /**
   * What `_process_row` does to the notification table: nothing for a row
   * without reasons; otherwise the owner is looked up (which may abort the
   * run) and one notification per reason is upserted. Without a group id the
   * saves fail on the non-null column and are only reported.
   */
  function RowStep(book: Workbook, t: NotificationTable, row: Row, rowIdx: nat, sheetName: string, groupName: string,
                   groupId: Option<string>, days: string -> Option<int>,
                   lookupOwner: string -> Result<OwnerInfo, string>): Result<NotificationTable, Abort>
  {
    var reasons := RowReasons(row, rowIdx, days);
    if reasons == [] then Ok(t)
    else
      match OwnerOf(row.owner, lookupOwner)
      case Err(e) => Err(e)
      case Ok(info) =>
        if groupId.None? then Ok(t)
        else Ok(UpsertAll(t, RowFields(book, ContextOf(row, rowIdx, sheetName, groupName, groupId), groupId.value,
                                       reasons, rowIdx, info)))
  }

  /** A table and, when the run stopped early, why. */
  datatype Run = Run(table: NotificationTable, abort: Option<Abort>)

  /** The rows of a sheet from `from` on, one after another, stopping at the first abort. */
  function RunRows(book: Workbook, t: NotificationTable, rows: seq<Row>, from: nat, sheetName: string,
                   groupName: string, groupId: Option<string>, days: string -> Option<int>,
                   lookupOwner: string -> Result<OwnerInfo, string>): Run
    requires from <= |rows|
    decreases |rows| - from
  {
    if from == |rows| then Run(t, None)
    else
      match RowStep(book, t, rows[from], from, sheetName, groupName, groupId, days, lookupOwner)
      case Err(e) => Run(t, Some(e))
      case Ok(t') => RunRows(book, t', rows, from + 1, sheetName, groupName, groupId, days, lookupOwner)
  }

  /** The rows from `from` on are the row at `from`, then the rows after it. */
  lemma RunRowsStep(book: Workbook, t: NotificationTable, rows: seq<Row>, from: nat, sheetName: string,
                    groupName: string, groupId: Option<string>, days: string -> Option<int>,
                    lookupOwner: string -> Result<OwnerInfo, string>)
    requires from < |rows|
    ensures var step := RowStep(book, t, rows[from], from, sheetName, groupName, groupId, days, lookupOwner);
            RunRows(book, t, rows, from, sheetName, groupName, groupId, days, lookupOwner) ==
            if step.Err? then Run(t, Some(step.error))
            else RunRows(book, step.value, rows, from + 1, sheetName, groupName, groupId, days, lookupOwner)
  {
  }

  /** One sheet of the workbook: its name, its column count and its data rows. */
  datatype Sheet = Sheet(name: string, columns: nat, rows: seq<Row>)

  /** The group-chat lookup `get_chat_id_by_name` stops on every name within `bound` pages. */
  ghost predicate ChatSearchEnds(fetch: string -> TeamsClient.Page<TeamsClient.ChatSummary>, bound: nat) {
    forall name :: TeamsClient.TopicSearchEnds(fetch, GraphClient.GraphUrl, "me/chats", name, bound)
  }

  /**
   * `_process_sheet`: a sheet without a group cell (no data row or no column
   * M) is skipped; an empty group cell or an unknown group aborts the run;
   * otherwise the rows are processed. An empty cell aborts at once with the
   * not-found error for "nan", without the page-by-page search the source
   * makes for a NaN topic (which no topic equals).
   */
  ghost function SheetRun(book: Workbook, t: NotificationTable, sheet: Sheet,
                          fetch: string -> TeamsClient.Page<TeamsClient.ChatSummary>, bound: nat,
                          days: string -> Option<int>, lookupOwner: string -> Result<OwnerInfo, string>): Run
    requires ChatSearchEnds(fetch, bound)
  {
    if sheet.rows == [] || sheet.columns <= GroupColumn then Run(t, None)
    else
      match sheet.rows[0].group
      case None => Run(t, Some(GroupLookup(TeamsClient.ChatNotFound("nan"))))
      case Some(name) =>
        match TeamsClient.FindChatByTopic(fetch, GraphClient.GraphUrl, "me/chats", name, bound)
        case Err(e) => Run(t, Some(GroupLookup(e)))
        case Ok(id) => RunRows(book, t, sheet.rows, 0, sheet.name, name, id, days, lookupOwner)
  }

  /** The sheets from `from` on, stopping at the first abort. */
  ghost function RunSheets(book: Workbook, t: NotificationTable, sheets: seq<Sheet>, from: nat,
                           fetch: string -> TeamsClient.Page<TeamsClient.ChatSummary>, bound: nat,
                           days: string -> Option<int>, lookupOwner: string -> Result<OwnerInfo, string>): Run
    requires from <= |sheets| && ChatSearchEnds(fetch, bound)
    decreases |sheets| - from
  {
    if from == |sheets| then Run(t, None)
    else
      var r := SheetRun(book, t, sheets[from], fetch, bound, days, lookupOwner);
      if r.abort.Some? then r else RunSheets(book, r.table, sheets, from + 1, fetch, bound, days, lookupOwner)
  }

  // ----- The manager upsert -----

  /**
   * The `update_or_create` of `create_notify_items`, keyed on the workbook
   * alone: the manager watching it takes the host and the interval;
   * otherwise a manager is created. Also gives the manager's uuid.
   */
  function UpsertManager(t: ManagerTable, book: Workbook, interval: int): (r: (ManagerTable, nat))
    ensures ManagersValid(t) ==> ManagersValid(r.0)
  {
    match FirstIndex(t.rows, (m: TaskManager) => FileOf(m) == (book.siteName, book.driveName, book.path))
    case Some(i) =>
      (ManagerTable(t.rows[i := t.rows[i].(hostId := book.hostId, notifyInterval := interval)], t.nextUuid),
       t.rows[i].uuid)
    case None =>
      (ManagerTable(t.rows + [NewManager(t.nextUuid, book.siteName, book.driveName, book.path, book.hostId, interval)],
                    t.nextUuid + 1),
       t.nextUuid)
  }

  /**
   * Afterwards exactly one manager watches the workbook: the one returned,
   * with the host and interval. Every other manager is unchanged, and a
   * manager that already watched the workbook keeps its uuid, trigger and
   * times even when another host owned it.
   */
  lemma UpsertManagerEffect(t: ManagerTable, book: Workbook, interval: int)
    requires ManagersValid(t)
    ensures var (t', uuid) := UpsertManager(t, book, interval);
            var file := (book.siteName, book.driveName, book.path);
            && (exists i :: 0 <= i < |t'.rows| && t'.rows[i].uuid == uuid && FileOf(t'.rows[i]) == file &&
                            t'.rows[i].hostId == book.hostId && t'.rows[i].notifyInterval == interval)
            && (forall i :: 0 <= i < |t'.rows| && FileOf(t'.rows[i]) == file ==> t'.rows[i].uuid == uuid)
            && (forall i :: 0 <= i < |t.rows| && FileOf(t.rows[i]) != file ==> t'.rows[i] == t.rows[i])
            && (forall i :: 0 <= i < |t.rows| && FileOf(t.rows[i]) == file ==>
                  t'.rows[i] == t.rows[i].(hostId := book.hostId, notifyInterval := interval))
            && |t.rows| <= |t'.rows| <= |t.rows| + 1
  {
    var (t', uuid) := UpsertManager(t, book, interval);
    var file := (book.siteName, book.driveName, book.path);
    match FirstIndex(t.rows, (m: TaskManager) => FileOf(m) == file)
    case Some(i) =>
      assert t'.rows[i].uuid == uuid && FileOf(t'.rows[i]) == file;
    case None =>
      assert t'.rows[|t.rows|].uuid == uuid && FileOf(t'.rows[|t.rows|]) == file;
  }

  // ----- The reminder message -----

  /** One entry of `mentions`. */
  datatype Mention = Mention(id: int, mentionText: Option<string>, userId: Option<string>, displayName: Option<string>)

  /** The message `_create_mention_message_payload` builds. */
  datatype MessagePayload = MessagePayload(contentType: string, content: string, mentions: Option<seq<Mention>>)

  /** The sheet, task and reason paragraphs every reminder carries. */
  function Details(n: TaskNotification): string {
    "<p>📄 <b>Sheet:</b> " + n.fields.sheetName + "</p>" +
    "<p>📝 <b>Task:</b> " + n.fields.task + "</p>" +
    "<p>⚠️ <b>Reason:</b> " + ReasonText(n.fields.reason) + "</p>"
  }

  /** The greeting that mentions the owner, who is tag 0. */
  function Greeting(ownerName: Option<string>): string {
    "<p>👋 <at id=\"0\">" + MeetingUtils.PyStr(ownerName) + "</at>, please reply to this message.</p>" +
    "<p>💬 <i>(Your reply will be automatically recorded to SharePoint)</i></p>"
  }

  /**
   * `_create_mention_message_payload`: an owner with a mail is greeted and
   * mentioned as tag 0; every reminder ends with the same details.
   */
  function MentionPayload(n: TaskNotification): (p: MessagePayload)
    ensures p.contentType == "html"
    ensures p.mentions.Some? <==> MeetingUtils.Truthy(n.fields.ownerEmail)
    ensures p.mentions.Some? ==>
              && p.mentions.value == [Mention(0, n.fields.ownerName, n.fields.ownerId, n.fields.ownerName)]
              && p.content == "<div>" + (Greeting(n.fields.ownerName) + (Details(n) + "</div>"))
    ensures p.mentions.None? ==> p.content == "<div>" + (Details(n) + "</div>")
  {
    if MeetingUtils.Truthy(n.fields.ownerEmail) then
      MessagePayload("html", "<div>" + (Greeting(n.fields.ownerName) + (Details(n) + "</div>")),
                     Some([Mention(0, n.fields.ownerName, n.fields.ownerId, n.fields.ownerName)]))
    else
      MessagePayload("html", "<div>" + (Details(n) + "</div>"), None)
  }

  /** With or without a mention, the reminder ends with the row's details. */
  lemma ReminderEndsWithDetails(n: TaskNotification)
    ensures var c := MentionPayload(n).content;
            var tail := Details(n) + "</div>";
            |tail| <= |c| && c[|c| - |tail|..] == tail && c[..5] == "<div>"
  {
    var tail := Details(n) + "</div>";
    if MeetingUtils.Truthy(n.fields.ownerEmail) {
      Framed("<div>", Greeting(n.fields.ownerName), tail);
    } else {
      Framed("<div>", "", tail);
      assert "" + tail == tail;
    }
  }

  /** The parts of `a + (b + c)` are where they were put. */
  lemma Framed(a: string, b: string, c: string)
    ensures |a + (b + c)| == |a| + |b| + |c|
    ensures (a + (b + c))[..|a|] == a
    ensures (a + (b + c))[|a| + |b|..] == c
  {
    var s := a + (b + c);
    assert s[..|a|] == a;
    assert s[|a| + |b|..] == c;
  }

  /**
   * The outcome of `send_message_to_chat` for a reminder: the new message's
   * id, or the text of the error raised by the request or by the status rule.
   */
  function Delivered(n: TaskNotification,
                     send: (string, MessagePayload) -> Result<TeamsClient.SendResponse, string>): Result<string, string> {
    match send(n.fields.teamsGroupId, MentionPayload(n))
    case Err(e) => Err(e)
    case Ok(response) =>
      match TeamsClient.SendMessageToChat(response)
      case Ok(id) => Ok(id)
      case Err(status) => Err("Failed to send message: " + IntToString(status))
  }

  // ----- Recording replies -----

  /** A notification whose reply was recorded. */
  function Complete(n: TaskNotification): TaskNotification {
    n.(status := Completed)
  }

  /** `.get(uuid=id)`. */
  function FindId(rows: seq<TaskNotification>, id: nat): Option<nat> {
    FirstIndex(rows, (n: TaskNotification) => n.id == id)
  }

  /**
   * The table after reminder `k` was posted as message `msgId`: the id is
   * appended to its message ids and it becomes SENT; nothing else changes, so
   * the table stays valid.
   */
  function MarkSent(t: NotificationTable, k: nat, msgId: string): (r: NotificationTable)
    requires k < |t.rows|
    ensures |r.rows| == |t.rows| && r.nextId == t.nextId
    ensures r.rows[k].id == t.rows[k].id && r.rows[k].fields == t.rows[k].fields
    ensures r.rows[k].msgIds == t.rows[k].msgIds + [msgId] && r.rows[k].status == Sent
    ensures forall i :: 0 <= i < |t.rows| && i != k ==> r.rows[i] == t.rows[i]
    ensures NotificationsValid(t) ==> NotificationsValid(r)
  {
    t.(rows := t.rows[k := t.rows[k].(msgIds := t.rows[k].msgIds + [msgId], status := Sent)])
  }

  /** The table with the notification `id` completed. */
  function CompleteId(t: NotificationTable, id: nat): (r: NotificationTable)
    ensures |r.rows| == |t.rows| && r.nextId == t.nextId
    ensures forall i :: 0 <= i < |t.rows| ==> r.rows[i] == if t.rows[i].id == id then Complete(t.rows[i]) else t.rows[i]
  {
    NotificationTable(seq(|t.rows|, i requires 0 <= i < |t.rows| =>
                                      if t.rows[i].id == id then Complete(t.rows[i]) else t.rows[i]), t.nextId)
  }

  /**
   * The range POST of `_write_cell`, made with the token of the workbook's
   * host: the workbook's site and quoted path (on the drive of the site's
   * "ScrumSprints" list), then the sheet, the cell address and the values.
   * It answers whether the request went through.
   */
  type CellPost = (Workbook, string, string, string) -> bool

  /**
   * The cell write of `_write_cell` for notification `id` by the client of
   * `book` succeeds. The site and path are the client's, whatever workbook
   * the notification came from; only the sheet and cell are the notification's.
   */
  predicate Writes(t: NotificationTable, book: Workbook, id: nat, values: string, post: CellPost) {
    var q := FindId(t.rows, id);
    q.Some? && post(book, t.rows[q.value].fields.sheetName, t.rows[q.value].fields.fieldAddress, values)
  }

  /** Why `_write_cell` raised. */
  datatype WriteError = NoSuchNotification | WriteFailed

  /** The notifications of the host that are not COMPLETED, in table order. */
  predicate Unfinished(n: TaskNotification, hostId: string) {
    n.fields.hostId == hostId && n.status != Completed
  }

  function PendingOf(rows: seq<TaskNotification>, hostId: string): seq<TaskNotification> {
    if rows == [] then []
    else PendingOf(rows[..|rows| - 1], hostId) + (if Unfinished(rows[|rows| - 1], hostId) then [rows[|rows| - 1]] else [])
  }

  lemma {:induction false} PendingMembers(rows: seq<TaskNotification>, hostId: string)
    ensures forall n :: n in PendingOf(rows, hostId) <==> n in rows && Unfinished(n, hostId)
  {
    if rows != [] {
      PendingMembers(rows[..|rows| - 1], hostId);
      assert rows == rows[..|rows| - 1] + [rows[|rows| - 1]];
    }
  }

  /** The group chat of each notification. */
  function GroupIds(ns: seq<TaskNotification>): (gs: seq<string>)
    ensures |gs| == |ns|
    ensures forall i :: 0 <= i < |ns| ==> gs[i] == ns[i].fields.teamsGroupId
  {
    seq(|ns|, i requires 0 <= i < |ns| => ns[i].fields.teamsGroupId)
  }

  /** The notifications of one group chat, in order: `chat_groups[chat_id]`. */
  function InGroup(ns: seq<TaskNotification>, chatId: string): seq<TaskNotification> {
    if ns == [] then []
    else InGroup(ns[..|ns| - 1], chatId) + (if ns[|ns| - 1].fields.teamsGroupId == chatId then [ns[|ns| - 1]] else [])
  }

  lemma {:induction false} InGroupMembers(ns: seq<TaskNotification>, chatId: string)
    ensures forall n :: n in InGroup(ns, chatId) <==> n in ns && n.fields.teamsGroupId == chatId
  {
    if ns != [] {
      InGroupMembers(ns[..|ns| - 1], chatId);
      assert ns == ns[..|ns| - 1] + [ns[|ns| - 1]];
    }
  }

  /** The messages of a chat as `list_msg_in_chats` collects them, or the status of the page that failed. */
  ghost function MessagesOf(fetch: string -> TeamsClient.Page<TeamsClient.ChatMessage>, chatId: string, bound: nat)
    : Result<seq<TeamsClient.ChatMessage>, int>
    requires MessagesEnd(fetch, bound)
  {
    TeamsClient.AllPages(fetch, GraphClient.GraphUrl, "me/chats/" + chatId + "/messages", bound)
  }

  /** The message listing of every chat stops within `bound` pages. */
  ghost predicate MessagesEnd(fetch: string -> TeamsClient.Page<TeamsClient.ChatMessage>, bound: nat) {
    forall chatId :: TeamsClient.EndsWithin(fetch, GraphClient.GraphUrl, "me/chats/" + chatId + "/messages", bound)
  }

  /**
   * The reply the scan records for one notification: its message ids are
   * tried in order and the first non-empty reply text wins; an error while
   * searching ends the notification's turn.
   */
  function FirstReply(messages: seq<TeamsClient.ChatMessage>, ownerId: Option<string>, msgIds: seq<string>,
                      htmlToText: string -> string): (r: Result<Option<string>, string>)
    ensures r.Ok? && r.value.Some? ==> r.value.value != ""
  {
    if msgIds == [] then Ok(None)
    else
      match TeamsClient.Reference(messages, ownerId, msgIds[0], htmlToText)
      case Err(e) => Err(e)
      case Ok(content) =>
        if content.Some? && content.value != "" then Ok(content)
        else FirstReply(messages, ownerId, msgIds[1..], htmlToText)
  }

  /**
   * The reply found belongs to the first message id with a non-empty reply;
   * every earlier message id has none.
   */
  lemma {:induction false} FirstReplyIsFirst(messages: seq<TeamsClient.ChatMessage>, ownerId: Option<string>,
                                             msgIds: seq<string>, htmlToText: string -> string)
    ensures var r := FirstReply(messages, ownerId, msgIds, htmlToText);
            r.Ok? && r.value.Some? ==>
              exists i :: 0 <= i < |msgIds| &&
                          TeamsClient.Reference(messages, ownerId, msgIds[i], htmlToText) == Ok(r.value) &&
                          forall j :: 0 <= j < i ==>
                            TeamsClient.Reference(messages, ownerId, msgIds[j], htmlToText) in {Ok(None), Ok(Some(""))}
  {
    var r := FirstReply(messages, ownerId, msgIds, htmlToText);
    if msgIds != [] && r.Ok? && r.value.Some? {
      var rest := msgIds[1..];
      match TeamsClient.Reference(messages, ownerId, msgIds[0], htmlToText)
      case Err(e) =>
      case Ok(content) =>
        if !(content.Some? && content.value != "") {
          assert r == FirstReply(messages, ownerId, rest, htmlToText);
          FirstReplyIsFirst(messages, ownerId, rest, htmlToText);
          var i :| 0 <= i < |rest| && TeamsClient.Reference(messages, ownerId, rest[i], htmlToText) == Ok(r.value) &&
                   forall j :: 0 <= j < i ==>
                     TeamsClient.Reference(messages, ownerId, rest[j], htmlToText) in {Ok(None), Ok(Some(""))};
          assert msgIds[i + 1] == rest[i];
          forall j | 0 <= j < i + 1
            ensures TeamsClient.Reference(messages, ownerId, msgIds[j], htmlToText) in {Ok(None), Ok(Some(""))}
          {
            if j > 0 {
              assert msgIds[j] == rest[j - 1];
            }
          }
        }
    }
  }

  /** The scan records a reply for `n`: its chat was listed, a reply was found, and the cell write went through. */
  ghost predicate Answered(n: TaskNotification, fetch: string -> TeamsClient.Page<TeamsClient.ChatMessage>, bound: nat,
                           htmlToText: string -> string, book: Workbook, post: CellPost)
    requires MessagesEnd(fetch, bound)
  {
    ReplyRecorded(n, MessagesOf(fetch, n.fields.teamsGroupId, bound), htmlToText, book, post)
  }

  /** Given the listing of its chat, the scan finds a reply for `n` and the cell write goes through. */
  predicate ReplyRecorded(n: TaskNotification, messages: Result<seq<TeamsClient.ChatMessage>, int>,
                          htmlToText: string -> string, book: Workbook, post: CellPost)
  {
    messages.Ok? &&
    var reply := FirstReply(messages.value, n.fields.ownerId, n.msgIds, htmlToText);
    reply.Ok? && reply.value.Some? && post(book, n.fields.sheetName, n.fields.fieldAddress, reply.value.value)
  }

  /** `Answered` as a test on notifications. */
  ghost function AnsweredBy(fetch: string -> TeamsClient.Page<TeamsClient.ChatMessage>, bound: nat,
                            htmlToText: string -> string, book: Workbook, post: CellPost)
    : TaskNotification -> bool
    requires MessagesEnd(fetch, bound)
  {
    n => Answered(n, fetch, bound, htmlToText, book, post)
  }

  /**
   * `scanAnyMatchMsg` on a table: the host's notifications that are not
   * COMPLETED and have a recorded reply become COMPLETED; nothing else
   * changes.
   */
  ghost function Scanned(t: NotificationTable, book: Workbook, fetch: string -> TeamsClient.Page<TeamsClient.ChatMessage>,
                         bound: nat, htmlToText: string -> string, post: CellPost)
    : (r: NotificationTable)
    requires MessagesEnd(fetch, bound)
    ensures |r.rows| == |t.rows| && r.nextId == t.nextId
    ensures forall i :: 0 <= i < |t.rows| ==>
              r.rows[i] == if Unfinished(t.rows[i], book.hostId) && Answered(t.rows[i], fetch, bound, htmlToText, book, post)
                           then Complete(t.rows[i]) else t.rows[i]
  {
    NotificationTable(seq(|t.rows|, i requires 0 <= i < |t.rows| =>
                                      if Unfinished(t.rows[i], book.hostId) && Answered(t.rows[i], fetch, bound, htmlToText, book, post)
                                      then Complete(t.rows[i]) else t.rows[i]), t.nextId)
  }

  /** What the scan of one notification decided is whether a reply is recorded for it. */
  lemma ScanItemHit(t: NotificationTable, x: TaskNotification, messages: seq<TeamsClient.ChatMessage>,
                    htmlToText: string -> string, book: Workbook, post: CellPost, w: bool)
    requires FindId(t.rows, x.id).Some? && t.rows[FindId(t.rows, x.id).value].fields == x.fields
    requires w == (FirstReply(messages, x.fields.ownerId, x.msgIds, htmlToText).Ok? &&
                   FirstReply(messages, x.fields.ownerId, x.msgIds, htmlToText).value.Some? &&
                   Writes(t, book, x.id, FirstReply(messages, x.fields.ownerId, x.msgIds, htmlToText).value.value, post))
    ensures w == ReplyRecorded(x, Ok(messages), htmlToText, book, post)
  {
  }

  /** For the notifications of one chat, a reply is recorded exactly as the chat's listing shows. */
  lemma AnsweredInChat(items: seq<TaskNotification>, chatId: string,
                       fetch: string -> TeamsClient.Page<TeamsClient.ChatMessage>,
                       bound: nat, htmlToText: string -> string, book: Workbook, post: CellPost)
    requires MessagesEnd(fetch, bound) && (forall x :: x in items ==> x.fields.teamsGroupId == chatId)
    ensures forall x :: x in items ==>
              AnsweredBy(fetch, bound, htmlToText, book, post)(x) ==
              ReplyRecorded(x, TeamsClient.AllPages(fetch, GraphClient.GraphUrl, "me/chats/" + chatId + "/messages", bound),
                            htmlToText, book, post)
  {
  }

  /** The table part-way through a scan: the visited notifications for which a reply is recorded are completed. */
  predicate MarkedBy(t0: NotificationTable, t: NotificationTable, visited: seq<TaskNotification>,
                     answered: TaskNotification -> bool)
  {
    && |t.rows| == |t0.rows| && t.nextId == t0.nextId
    && forall i :: 0 <= i < |t0.rows| ==>
         t.rows[i] == if t0.rows[i] in visited && answered(t0.rows[i]) then Complete(t0.rows[i]) else t0.rows[i]
  }

  /** Part-way through a scan, a notification of the original table is found by its uuid, with its fields. */
  lemma FoundAt(t0: NotificationTable, t: NotificationTable, visited: seq<TaskNotification>,
                answered: TaskNotification -> bool, x: TaskNotification)
    requires NotificationsValid(t0) && MarkedBy(t0, t, visited, answered) && x in t0.rows
    ensures FindId(t.rows, x.id).Some? && t.rows[FindId(t.rows, x.id).value].fields == x.fields
  {
    var p :| 0 <= p < |t0.rows| && t0.rows[p] == x;
    assert t.rows[p].id == x.id;
    var q := FindId(t.rows, x.id);
    assert q.Some? && q.value <= p;
    assert t.rows[q.value].id == t0.rows[q.value].id;
  }

  /** Visiting one more notification of the original table. */
  lemma ScanItemStep(t0: NotificationTable, t: NotificationTable, visited: seq<TaskNotification>,
                     answered: TaskNotification -> bool, x: TaskNotification, hit: bool, t': NotificationTable)
    requires NotificationsValid(t0) && MarkedBy(t0, t, visited, answered) && x in t0.rows
    requires hit == answered(x) && t' == if hit then CompleteId(t, x.id) else t
    ensures MarkedBy(t0, t', visited + [x], answered)
  {
    var p :| 0 <= p < |t0.rows| && t0.rows[p] == x;
    forall i | 0 <= i < |t0.rows|
      ensures t'.rows[i] == if t0.rows[i] in visited + [x] && answered(t0.rows[i]) then Complete(t0.rows[i]) else t0.rows[i]
    {
      assert t.rows[i].id == t0.rows[i].id;
      if i != p {
        assert t0.rows[i].id != x.id;
      }
    }
  }

  /** Visiting notifications for which no reply is recorded changes nothing. */
  lemma SkipStep(t0: NotificationTable, t: NotificationTable, visited: seq<TaskNotification>,
                 answered: TaskNotification -> bool, items: seq<TaskNotification>)
    requires MarkedBy(t0, t, visited, answered)
    requires forall x :: x in items ==> !answered(x)
    ensures MarkedBy(t0, t, visited + items, answered)
  {
  }

  /** A chat no notification belongs to has no notifications to group. */
  lemma InGroupAbsent(ns: seq<TaskNotification>, chatId: string)
    requires chatId !in GroupIds(ns)
    ensures InGroup(ns, chatId) == []
  {
    InGroupMembers(ns, chatId);
  }

  /**
   * The `chat_groups` of `scanAnyMatchMsg`: the chats in the order they first
   * appear, and for each chat its notifications in order.
   */
  method GroupByChat(items: seq<TaskNotification>) returns (order: seq<string>, groups: map<string, seq<TaskNotification>>)
    ensures order == MeetingModels.FirstOccurrences(GroupIds(items))
    ensures forall g :: g in groups <==> g in order
    ensures forall g :: g in groups ==> groups[g] == InGroup(items, g)
  {
    order := [];
    groups := map[];
    var i := 0;
    while i < |items|
      invariant 0 <= i <= |items|
      invariant order == MeetingModels.FirstOccurrences(GroupIds(items[..i]))
      invariant forall g :: g in groups <==> g in order
      invariant forall g :: g in groups ==> groups[g] == InGroup(items[..i], g)
    {
      var g := items[i].fields.teamsGroupId;
      var prefix := items[..i + 1];
      assert prefix[..i] == items[..i];
      assert GroupIds(prefix)[..i] == GroupIds(items[..i]);
      if g in groups {
        groups := groups[g := groups[g] + [items[i]]];
      } else {
        InGroupAbsent(items[..i], g);
        order := order + [g];
        groups := groups[g := [items[i]]];
      }
      i := i + 1;
    }
    assert items[..i] == items;
  }

  /** After the `k`-th chat, the notifications visited are those of the first `k + 1` chats. */
  lemma VisitGroup(visited: seq<TaskNotification>, pending: seq<TaskNotification>, order: seq<string>, k: nat,
                   items: seq<TaskNotification>)
    requires k < |order|
    requires forall n :: n in visited <==> n in pending && n.fields.teamsGroupId in order[..k]
    requires forall n :: n in items <==> n in pending && n.fields.teamsGroupId == order[k]
    ensures forall n :: n in visited + items <==> n in pending && n.fields.teamsGroupId in order[..k + 1]
  {
    assert forall g :: g in order[..k + 1] <==> g in order[..k] || g == order[k];
  }

  /** Once every chat is done, every notification of the host that is not COMPLETED was visited: the scan is complete. */
  lemma ScanEnds(t0: NotificationTable, t: NotificationTable, visited: seq<TaskNotification>,
                 pending: seq<TaskNotification>, order: seq<string>, book: Workbook,
                 fetch: string -> TeamsClient.Page<TeamsClient.ChatMessage>, bound: nat,
                 htmlToText: string -> string, post: CellPost)
    requires MessagesEnd(fetch, bound)
    requires forall n :: n in pending <==> n in t0.rows && Unfinished(n, book.hostId)
    requires order == MeetingModels.FirstOccurrences(GroupIds(pending))
    requires forall n :: n in visited <==> n in pending && n.fields.teamsGroupId in order
    requires MarkedBy(t0, t, visited, AnsweredBy(fetch, bound, htmlToText, book, post))
    ensures t == Scanned(t0, book, fetch, bound, htmlToText, post)
  {
    forall n | n in pending
      ensures n in visited
    {
      var i :| 0 <= i < |pending| && pending[i] == n;
      assert GroupIds(pending)[i] == n.fields.teamsGroupId;
    }
    assert t.rows == Scanned(t0, book, fetch, bound, htmlToText, post).rows;
  }

  /** A client for one host and one workbook. */
  class SharePointClient {
    const hostId: string
    const siteName: string
    const driveName: string
    const path: string
    const teams: TeamsClient.TeamsClient
    var notifyInterval: Option<int>

    /** `GraphSharePointClient(user_id, site_name, drive_name, path)`; `path` is stored quoted. */
    constructor (hostId: string, siteName: string, driveName: string, quotedPath: string)
      ensures this.hostId == hostId && this.siteName == siteName && this.driveName == driveName
      ensures this.path == quotedPath && notifyInterval.None? && fresh(teams)
    {
      this.hostId := hostId;
      this.siteName := siteName;
      this.driveName := driveName;
      this.path := quotedPath;
      teams := new TeamsClient.TeamsClient();
      notifyInterval := None;
    }

    function Book(): Workbook {
      Workbook(hostId, siteName, driveName, path)
    }

    /**
     * `_create_notify_item(context, reason, field)`: looks the owner up when
     * the owner cell is not empty (a failed lookup raises) and upserts the
     * notification.
     */
    method CreateNotifyItem(db: ReminderDb, ctx: Context, reason: Reason, field: string,
                            lookupOwner: string -> Result<OwnerInfo, string>) returns (r: Result<(), Abort>)
      requires db.Valid()
      modifies db
      ensures db.Valid() && db.managers == old(db.managers) && db.periodicTasks == old(db.periodicTasks)
      ensures r.Err? <==> OwnerOf(ctx.owner, lookupOwner).Err?
      ensures r.Err? ==> r.error == OwnerOf(ctx.owner, lookupOwner).error
      ensures r.Err? || ctx.teamsGroupId.None? ==> db.notifications == old(db.notifications)
      ensures r.Ok? && ctx.teamsGroupId.Some? ==>
                db.notifications == Upsert(old(db.notifications),
                                           FieldsFor(Book(), ctx, ctx.teamsGroupId.value, reason, field,
                                                     OwnerOf(ctx.owner, lookupOwner).value))
    {
      var info := NoOwnerInfo;
      if ctx.owner.Some? && ctx.owner.value != "" {
        var found := lookupOwner(ctx.owner.value);
        if found.Err? {
          return Err(OwnerLookup(ctx.owner.value, found.error));
        }
        info := found.value;
      }
      if ctx.teamsGroupId.None? {
        return Ok(());
      }
      var fields := FieldsFor(Book(), ctx, ctx.teamsGroupId.value, reason, field, info);
      db.notifications := Upsert(db.notifications, fields);
      return Ok(());
    }

    /**
     * One date check of `_process_row`: a missing date, or a date exactly one
     * day away, is upserted with its reason.
     */
    method CheckDate(db: ReminderDb, ctx: Context, cell: Option<string>, days: string -> Option<int>,
                     missing: Reason, near: Reason, rowIdx: nat, lookupOwner: string -> Result<OwnerInfo, string>)
      returns (r: Result<(), Abort>)
      requires db.Valid()
      modifies db
      ensures db.Valid() && db.managers == old(db.managers) && db.periodicTasks == old(db.periodicTasks)
      ensures r.Err? <==> DateReasons(cell, days, missing, near) != [] && OwnerOf(ctx.owner, lookupOwner).Err?
      ensures r.Err? ==> r.error == OwnerOf(ctx.owner, lookupOwner).error
      ensures r.Err? || DateReasons(cell, days, missing, near) == [] || ctx.teamsGroupId.None? ==>
                db.notifications == old(db.notifications)
      ensures r.Ok? && DateReasons(cell, days, missing, near) != [] && ctx.teamsGroupId.Some? ==>
                db.notifications == UpsertAll(old(db.notifications),
                                              RowFields(Book(), ctx, ctx.teamsGroupId.value,
                                                        DateReasons(cell, days, missing, near), rowIdx,
                                                        OwnerOf(ctx.owner, lookupOwner).value))
    {
      var reason := missing;
      if cell.None? {
        r := CreateNotifyItem(db, ctx, missing, FieldAddress(missing, rowIdx), lookupOwner);
      } else {
        var d := days(cell.value);
        if d.Some? && (d.value == 1 || d.value == -1) {
          reason := near;
          r := CreateNotifyItem(db, ctx, near, FieldAddress(near, rowIdx), lookupOwner);
        } else {
          return Ok(());
        }
      }
      if r.Ok? && ctx.teamsGroupId.Some? {
        OneRowField(old(db.notifications), Book(), ctx, ctx.teamsGroupId.value, reason, rowIdx,
                    OwnerOf(ctx.owner, lookupOwner).value);
      }
    }

    /**
     * `_process_row(row, row_idx, ...)`: the row's checks in the source's
     * order, each reported reason upserted through `_create_notify_item`.
     */
    method ProcessRow(db: ReminderDb, row: Row, rowIdx: nat, sheetName: string, groupName: string,
                      groupId: Option<string>, days: string -> Option<int>,
                      lookupOwner: string -> Result<OwnerInfo, string>) returns (r: Result<(), Abort>)
      requires db.Valid()
      modifies db
      ensures db.Valid() && db.managers == old(db.managers) && db.periodicTasks == old(db.periodicTasks)
      ensures r.Err? <==>
                RowStep(Book(), old(db.notifications), row, rowIdx, sheetName, groupName, groupId, days, lookupOwner).Err?
      ensures r.Err? ==>
                && r.error ==
                   RowStep(Book(), old(db.notifications), row, rowIdx, sheetName, groupName, groupId, days, lookupOwner).error
                && db.notifications == old(db.notifications)
      ensures r.Ok? ==>
                db.notifications ==
                RowStep(Book(), old(db.notifications), row, rowIdx, sheetName, groupName, groupId, days, lookupOwner).value
    {
      if rowIdx == 0 || row.task.None? {
        return Ok(());
      }
      var ctx := Context(sheetName, rowIdx + 2, row.task.value, row.owner, groupName, groupId);
      assert ctx == ContextOf(row, rowIdx, sheetName, groupName, groupId);
      if Closed(row.status) {
        return Ok(());
      }
      if row.owner.None? {
        r := CreateNotifyItem(db, ctx, OwnerMissing, FieldAddress(OwnerMissing, rowIdx), lookupOwner);
        if r.Ok? && groupId.Some? {
          OneRowField(old(db.notifications), Book(), ctx, groupId.value, OwnerMissing, rowIdx, OwnerOf(row.owner, lookupOwner).value);
        }
        return;
      } else if '@' !in row.owner.value {
        r := CreateNotifyItem(db, ctx, OwnerInvalid, FieldAddress(OwnerInvalid, rowIdx), lookupOwner);
        if r.Ok? && groupId.Some? {
          OneRowField(old(db.notifications), Book(), ctx, groupId.value, OwnerInvalid, rowIdx, OwnerOf(row.owner, lookupOwner).value);
        }
        return;
      }
      ghost var t0 := db.notifications;
      ghost var starts := DateReasons(row.start, days, StartMissing, StartNear);
      ghost var dues := DateReasons(row.due, days, DueMissing, DueNear);
      r := CheckDate(db, ctx, row.start, days, StartMissing, StartNear, rowIdx, lookupOwner);
      if r.Err? {
        return;
      }
      r := CheckDate(db, ctx, row.due, days, DueMissing, DueNear, rowIdx, lookupOwner);
      if r.Err? {
        return;
      }
      if groupId.Some? && starts + dues != [] {
        ghost var info := OwnerOf(row.owner, lookupOwner).value;
        RowFieldsAppend(Book(), ctx, groupId.value, starts, dues, rowIdx, info);
        UpsertAllAppend(t0, RowFields(Book(), ctx, groupId.value, starts, rowIdx, info),
                        RowFields(Book(), ctx, groupId.value, dues, rowIdx, info));
      }
    }

    /**
     * `_write_cell(uuid, values)`: the reply is written to the notification's
     * sheet and cell in this client's own workbook (not necessarily the one
     * the notification came from) and the notification is completed; an
     * unknown uuid or a failed write raises before anything is saved.
     */
    method WriteCell(db: ReminderDb, id: nat, values: string, post: CellPost)
      returns (r: Result<(), WriteError>)
      requires db.Valid()
      modifies db
      ensures db.Valid() && db.managers == old(db.managers) && db.periodicTasks == old(db.periodicTasks)
      ensures r.Ok? <==> Writes(old(db.notifications), Book(), id, values, post)
      ensures r == Err(NoSuchNotification) <==> FindId(old(db.notifications).rows, id).None?
      ensures db.notifications == if r.Ok? then CompleteId(old(db.notifications), id) else old(db.notifications)
    {
      var q := FindId(db.notifications.rows, id);
      if q.None? {
        return Err(NoSuchNotification);
      }
      var n := db.notifications.rows[q.value];
      if !post(Book(), n.fields.sheetName, n.fields.fieldAddress, values) {
        return Err(WriteFailed);
      }
      var t := db.notifications;
      db.notifications := t.(rows := t.rows[q.value := Complete(n)]);
      assert db.notifications.rows == CompleteId(t, id).rows by {
        forall i | 0 <= i < |t.rows|
          ensures db.notifications.rows[i] == CompleteId(t, id).rows[i]
        {
          if i != q.value {
            assert t.rows[i].id != id;
          }
        }
      }
      return Ok(());
    }

    /**
     * `notify(task)` for the `k`-th notification: the reminder is posted to
     * the row's group chat and the notification records the new message id
     * and becomes SENT; a failed post raises and changes nothing.
     */
    method Notify(db: ReminderDb, k: nat, send: (string, MessagePayload) -> Result<TeamsClient.SendResponse, string>)
      returns (r: Result<string, string>)
      requires db.Valid() && k < |db.notifications.rows|
      modifies db
      ensures db.Valid() && db.managers == old(db.managers) && db.periodicTasks == old(db.periodicTasks)
      ensures r == Delivered(old(db.notifications.rows[k]), send)
      ensures r.Err? ==> db.notifications == old(db.notifications)
      ensures r.Ok? ==> db.notifications == MarkSent(old(db.notifications), k, r.value)
    {
      var sent := Delivered(db.notifications.rows[k], send);
      if sent.Err? {
        return sent;
      }
      db.notifications := MarkSent(db.notifications, k, sent.value);
      return sent;
    }

    /**
     * One notification of `scanAnyMatchMsg`: its message ids are searched
     * in order among the chat's messages; the first non-empty reply is
     * written to the sheet, and an error ends the notification's turn.
     */
    method ScanItem(db: ReminderDb, x: TaskNotification, messages: seq<TeamsClient.ChatMessage>,
                    htmlToText: string -> string, post: CellPost)
      returns (written: bool)
      requires db.Valid()
      modifies db
      ensures db.Valid() && db.managers == old(db.managers) && db.periodicTasks == old(db.periodicTasks)
      ensures written == (FirstReply(messages, x.fields.ownerId, x.msgIds, htmlToText).Ok? &&
                          FirstReply(messages, x.fields.ownerId, x.msgIds, htmlToText).value.Some? &&
                          Writes(old(db.notifications), Book(), x.id,
                                 FirstReply(messages, x.fields.ownerId, x.msgIds, htmlToText).value.value, post))
      ensures db.notifications == if written then CompleteId(old(db.notifications), x.id) else old(db.notifications)
    {
      var k := 0;
      while k < |x.msgIds|
        invariant 0 <= k <= |x.msgIds|
        invariant unchanged(db)
        invariant FirstReply(messages, x.fields.ownerId, x.msgIds, htmlToText) ==
                  FirstReply(messages, x.fields.ownerId, x.msgIds[k..], htmlToText)
      {
        var content := teams.SearchMessageReference(messages, x.fields.ownerId, x.msgIds[k], htmlToText);
        if content.Err? {
          return false;
        }
        if content.value.Some? && content.value.value != "" {
          var w := WriteCell(db, x.id, content.value.value, post);
          return w.Ok?;
        }
        assert x.msgIds[k..][1..] == x.msgIds[k + 1..];
        k := k + 1;
      }
      return false;
    }

    /**
     * `scanAnyMatchMsg()`: the host's notifications that are not COMPLETED
     * are grouped by chat; each chat's messages are listed once (a failed
     * listing skips the chat) and every notification in it is scanned.
     */
    method ScanAnyMatchMsg(db: ReminderDb, fetch: string -> TeamsClient.Page<TeamsClient.ChatMessage>, ghost bound: nat,
                           htmlToText: string -> string, post: CellPost)
      requires db.Valid() && MessagesEnd(fetch, bound)
      modifies db
      ensures db.Valid() && db.managers == old(db.managers) && db.periodicTasks == old(db.periodicTasks)
      ensures db.notifications == Scanned(old(db.notifications), Book(), fetch, bound, htmlToText, post)
    {
      ghost var t0 := db.notifications;
      ghost var answered := AnsweredBy(fetch, bound, htmlToText, Book(), post);
      var pending := PendingOf(db.notifications.rows, hostId);
      PendingMembers(t0.rows, hostId);
      var order, groups := GroupByChat(pending);
      ghost var visited: seq<TaskNotification> := [];
      var k := 0;
      while k < |order|
        invariant 0 <= k <= |order|
        invariant db.Valid() && db.managers == old(db.managers) && db.periodicTasks == old(db.periodicTasks)
        invariant MarkedBy(t0, db.notifications, visited, answered)
        invariant forall n :: n in visited <==> n in pending && n.fields.teamsGroupId in order[..k]
      {
        var chatId := order[k];
        var items := groups[chatId];
        InGroupMembers(pending, chatId);
        AnsweredInChat(items, chatId, fetch, bound, htmlToText, Book(), post);
        ScanChat(db, fetch, bound, htmlToText, post, chatId, items, t0, visited, answered);
        VisitGroup(visited, pending, order, k, items);
        visited := visited + items;
        k := k + 1;
      }
      assert order[..k] == order;
      ScanEnds(t0, db.notifications, visited, pending, order, Book(), fetch, bound, htmlToText, post);
    }

    /**
     * One chat of `scanAnyMatchMsg`: its messages are listed once, and each of
     * its notifications is scanned; when the listing fails, none is.
     */
    method ScanChat(db: ReminderDb, fetch: string -> TeamsClient.Page<TeamsClient.ChatMessage>, ghost bound: nat,
                    htmlToText: string -> string, post: CellPost,
                    chatId: string, items: seq<TaskNotification>,
                    ghost t0: NotificationTable, ghost visited: seq<TaskNotification>,
                    ghost answered: TaskNotification -> bool)
      requires db.Valid() && MessagesEnd(fetch, bound) && NotificationsValid(t0)
      requires forall x :: x in items ==> x in t0.rows
      requires forall x :: x in items ==>
                 answered(x) == ReplyRecorded(x, TeamsClient.AllPages(fetch, GraphClient.GraphUrl,
                                                                      "me/chats/" + chatId + "/messages", bound),
                                              htmlToText, Book(), post)
      requires MarkedBy(t0, db.notifications, visited, answered)
      modifies db
      ensures db.Valid() && db.managers == old(db.managers) && db.periodicTasks == old(db.periodicTasks)
      ensures MarkedBy(t0, db.notifications, visited + items, answered)
    {
      var messages := teams.ListMsgInChats(fetch, chatId, bound);
      if messages.Err? {
        SkipStep(t0, db.notifications, visited, answered, items);
        return;
      }
      ScanItems(db, messages.value, htmlToText, post, items, t0, visited, answered);
    }

    /** The notifications of one chat, scanned one after another against the chat's messages. */
    method ScanItems(db: ReminderDb, messages: seq<TeamsClient.ChatMessage>,
                     htmlToText: string -> string, post: CellPost, items: seq<TaskNotification>,
                     ghost t0: NotificationTable, ghost visited: seq<TaskNotification>,
                     ghost answered: TaskNotification -> bool)
      requires db.Valid() && NotificationsValid(t0)
      requires forall x :: x in items ==> x in t0.rows
      requires forall x :: x in items ==> answered(x) == ReplyRecorded(x, Ok(messages), htmlToText, Book(), post)
      requires MarkedBy(t0, db.notifications, visited, answered)
      modifies db
      ensures db.Valid() && db.managers == old(db.managers) && db.periodicTasks == old(db.periodicTasks)
      ensures MarkedBy(t0, db.notifications, visited + items, answered)
    {
      ghost var seen := visited;
      var j := 0;
      while j < |items|
        invariant 0 <= j <= |items| && seen == visited + items[..j]
        invariant db.Valid() && db.managers == old(db.managers) && db.periodicTasks == old(db.periodicTasks)
        invariant MarkedBy(t0, db.notifications, seen, answered)
      {
        var x := items[j];
        assert x in items;
        ghost var t := db.notifications;
        FoundAt(t0, t, seen, answered, x);
        var w := ScanItem(db, x, messages, htmlToText, post);
        ScanItemHit(t, x, messages, htmlToText, Book(), post, w);
        ScanItemStep(t0, t, seen, answered, x, w, db.notifications);
        seen := seen + [x];
        assert items[..j + 1] == items[..j] + [x];
        j := j + 1;
      }
      assert items[..j] == items;
    }

    /**
     * `_process_sheet(df, sheet_name)`: the group named in the first data
     * row's column M is looked up and every row is processed with it; a
     * sheet without that cell is skipped. An empty cell aborts with the
     * not-found error for "nan" and requests no chat page.
     */
    method ProcessSheet(db: ReminderDb, sheet: Sheet, fetch: string -> TeamsClient.Page<TeamsClient.ChatSummary>,
                        ghost bound: nat, days: string -> Option<int>, lookupOwner: string -> Result<OwnerInfo, string>)
      returns (r: Result<(), Abort>)
      requires db.Valid() && ChatSearchEnds(fetch, bound)
      modifies db, teams
      ensures db.Valid() && db.managers == old(db.managers) && db.periodicTasks == old(db.periodicTasks)
      ensures var run := SheetRun(Book(), old(db.notifications), sheet, fetch, bound, days, lookupOwner);
              && db.notifications == run.table
              && (r.Err? <==> run.abort.Some?)
              && (r.Err? ==> r.error == run.abort.value)
    {
      if sheet.rows == [] || sheet.columns <= GroupColumn {
        return Ok(());
      }
      var cell := sheet.rows[0].group;
      if cell.None? {
        return Err(GroupLookup(TeamsClient.ChatNotFound("nan")));
      }
      var groupName := cell.value;
      var found := teams.GetChatIdByName(fetch, groupName, bound);
      if found.Err? {
        return Err(GroupLookup(found.error));
      }
      r := ProcessRows(db, sheet, groupName, found.value, days, lookupOwner);
    }

    /** The loop of `_process_sheet` over the rows, with the group found. */
    method ProcessRows(db: ReminderDb, sheet: Sheet, groupName: string, groupId: Option<string>,
                       days: string -> Option<int>, lookupOwner: string -> Result<OwnerInfo, string>)
      returns (r: Result<(), Abort>)
      requires db.Valid()
      modifies db
      ensures db.Valid() && db.managers == old(db.managers) && db.periodicTasks == old(db.periodicTasks)
      ensures var run := RunRows(Book(), old(db.notifications), sheet.rows, 0, sheet.name, groupName, groupId, days,
                                 lookupOwner);
              && db.notifications == run.table
              && (r.Err? <==> run.abort.Some?)
              && (r.Err? ==> r.error == run.abort.value)
    {
      ghost var book := Book();
      ghost var t0 := db.notifications;
      var i := 0;
      while i < |sheet.rows|
        invariant 0 <= i <= |sheet.rows|
        invariant db.Valid() && db.managers == old(db.managers) && db.periodicTasks == old(db.periodicTasks)
        invariant RunRows(book, t0, sheet.rows, 0, sheet.name, groupName, groupId, days, lookupOwner) ==
                  RunRows(book, db.notifications, sheet.rows, i, sheet.name, groupName, groupId, days, lookupOwner)
      {
        RunRowsStep(book, db.notifications, sheet.rows, i, sheet.name, groupName, groupId, days, lookupOwner);
        r := ProcessRow(db, sheet.rows[i], i, sheet.name, groupName, groupId, days, lookupOwner);
        if r.Err? {
          return;
        }
        i := i + 1;
      }
      return Ok(());
    }

    /**
     * `create_notify_items(notify_interval, sheet_name="automation_test")`:
     * replies already in the chats are recorded first; then the downloaded
     * sheets (the named one, or every sheet of the workbook when the name is
     * None) are processed in order and the workbook's manager is upserted.
     * An abort (a failed download, owner lookup or group lookup) raises past
     * the manager upsert.
     */
    method CreateNotifyItems(db: ReminderDb, interval: int, download: Result<seq<Sheet>, string>,
                             chats: string -> TeamsClient.Page<TeamsClient.ChatSummary>,
                             msgs: string -> TeamsClient.Page<TeamsClient.ChatMessage>, ghost bound: nat,
                             days: string -> Option<int>, lookupOwner: string -> Result<OwnerInfo, string>,
                             htmlToText: string -> string, post: CellPost)
      returns (r: Result<nat, Abort>)
      requires db.Valid() && ChatSearchEnds(chats, bound) && MessagesEnd(msgs, bound)
      modifies this, db, teams
      ensures db.Valid() && db.periodicTasks == old(db.periodicTasks) && notifyInterval == Some(interval)
      ensures var scanned := Scanned(old(db.notifications), Book(), msgs, bound, htmlToText, post);
              download.Err? ==>
                && r == Err(DownloadFailed(download.error))
                && db.notifications == scanned && db.managers == old(db.managers)
      ensures var scanned := Scanned(old(db.notifications), Book(), msgs, bound, htmlToText, post);
              download.Ok? ==>
                var run := RunSheets(Book(), scanned, download.value, 0, chats, bound, days, lookupOwner);
                && db.notifications == run.table
                && (run.abort.Some? ==> r == Err(run.abort.value) && db.managers == old(db.managers))
                && (run.abort.None? ==>
                      r == Ok(UpsertManager(old(db.managers), Book(), interval).1) &&
                      db.managers == UpsertManager(old(db.managers), Book(), interval).0)
    {
      notifyInterval := Some(interval);
      ScanAnyMatchMsg(db, msgs, bound, htmlToText, post);
      if download.Err? {
        return Err(DownloadFailed(download.error));
      }
      var sheets := download.value;
      ghost var book := Book();
      ghost var t0 := db.notifications;
      var k := 0;
      while k < |sheets|
        invariant 0 <= k <= |sheets|
        invariant db.Valid() && db.managers == old(db.managers) && db.periodicTasks == old(db.periodicTasks)
        invariant notifyInterval == Some(interval)
        invariant RunSheets(book, t0, sheets, 0, chats, bound, days, lookupOwner) ==
                  RunSheets(book, db.notifications, sheets, k, chats, bound, days, lookupOwner)
      {
        var done := ProcessSheet(db, sheets[k], chats, bound, days, lookupOwner);
        if done.Err? {
          return Err(done.error);
        }
        k := k + 1;
      }
      var (managers, uuid) := UpsertManager(db.managers, Book(), interval);
      db.managers := managers;
      return Ok(uuid);
    }
  }
}
