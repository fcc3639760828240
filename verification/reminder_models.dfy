/**
 * The records of the spreadsheet reminder engine (automation/reminders/models.py)
 * and the tables that hold them.
 *
 * A `TaskNotification` is one reason to remind the owner of one sheet row; a
 * `TaskManager` is one watched workbook with its reminder interval; a
 * `PeriodicTask` is a Celery Beat trigger. Each table keeps its rows in
 * creation order, and queries return them in that order. No model declares
 * an ordering, so the database's own order is fixed here as creation order;
 * `.first()` orders by the primary key, which for notifications is the
 * auto-increment id and so agrees. Random uuids are modelled by numbers the
 * table hands out, which keeps them distinct. Instants are whole minutes.
 */
module ReminderModels {
  import opened Wrappers

  /** `TaskNotification.Status`. */
  datatype NotificationStatus = Pending | Sent | Failed | Completed

  /** The stored text of a status. */
  function StatusText(s: NotificationStatus): string {
    match s
    case Pending => "PENDING"
    case Sent => "SENT"
    case Failed => "FAILED"
    case Completed => "COMPLETED"
  }

  /** Reads a stored status text; any other text is no status. */
  function StatusOf(text: string): (s: Option<NotificationStatus>)
    ensures s.Some? ==> StatusText(s.value) == text
  {
    if text == "PENDING" then Some(Pending)
    else if text == "SENT" then Some(Sent)
    else if text == "FAILED" then Some(Failed)
    else if text == "COMPLETED" then Some(Completed)
    else None
  }

  /** Every status is stored as a text that reads back as itself, so the four texts differ. */
  lemma StatusRoundTrip(s: NotificationStatus)
    ensures StatusOf(StatusText(s)) == Some(s)
  {
  }

  /** The six reasons a row is reported for. */
  datatype Reason = OwnerMissing | OwnerInvalid | StartMissing | StartNear | DueMissing | DueNear

  /** The stored text of a reason. */
  function ReasonText(r: Reason): string {
    match r
    case OwnerMissing => "Owner is missing"
    case OwnerInvalid => "Owner is not valid email"
    case StartMissing => "Estimate start date is missing"
    case StartNear => "Estimated start date is within one day of today"
    case DueMissing => "Due date is missing"
    case DueNear => "Due date is within one day of today"
  }

  /** The fields `_create_notify_item` writes: all but the uuid, the message ids and the status. */
  datatype NotificationFields = NotificationFields(
    hostId: string, siteName: string, driveName: string, filePath: string, sheetName: string, row: int,
    task: string, teamsGroupName: string, teamsGroupId: string,
    ownerId: Option<string>, ownerEmail: Option<string>, ownerName: Option<string>,
    fieldAddress: string, reason: Reason)

  /** A `TaskNotification` row; `id` stands for its uuid. */
  datatype TaskNotification = TaskNotification(
    id: nat, fields: NotificationFields, msgIds: seq<string>, status: NotificationStatus)

  /** What `_create_notify_item` looks a notification up by. */
  datatype NaturalKey = NaturalKey(
    siteName: string, driveName: string, filePath: string, sheetName: string, row: int, reason: Reason,
    hostId: string)

  function KeyOf(f: NotificationFields): NaturalKey {
    NaturalKey(f.siteName, f.driveName, f.filePath, f.sheetName, f.row, f.reason, f.hostId)
  }

  /** A created notification: the given fields, status PENDING and no message ids. */
  function NewNotification(id: nat, fields: NotificationFields): (n: TaskNotification)
    ensures n.status == Pending && n.msgIds == [] && n.fields == fields && n.id == id
  {
    TaskNotification(id, fields, [], Pending)
  }

  /** A `TaskManager` row; `uuid` is its key and `periodicTask` names the trigger it points to. */
  datatype TaskManager = TaskManager(
    uuid: nat, celeryTaskId: Option<string>, siteName: string, driveName: string, filePath: string,
    sheetName: Option<string>, notifyInterval: int, lastNotifiedAt: Option<int>, nextNotifyTime: Option<int>,
    hostId: string, periodicTask: Option<string>)

  /** A created manager: no Celery id, sheet, notification times or trigger yet. */
  function NewManager(uuid: nat, siteName: string, driveName: string, filePath: string, hostId: string,
                      notifyInterval: int): (m: TaskManager)
    ensures m.celeryTaskId.None? && m.sheetName.None? && m.periodicTask.None?
    ensures m.lastNotifiedAt.None? && m.nextNotifyTime.None?
    ensures m.uuid == uuid && m.hostId == hostId && m.notifyInterval == notifyInterval
    ensures m.siteName == siteName && m.driveName == driveName && m.filePath == filePath
  {
    TaskManager(uuid, None, siteName, driveName, filePath, None, notifyInterval, None, None, hostId, None)
  }

  /** A Celery Beat crontab schedule. */
  datatype Crontab = Crontab(minute: string, hour: string, dayOfWeek: string, dayOfMonth: string,
                             monthOfYear: string)

  /** A Celery Beat `PeriodicTask` row: a named trigger running `task` with `args` on a schedule. */
  datatype PeriodicTask = PeriodicTask(name: string, crontab: Crontab, task: string, args: seq<string>,
                                       enabled: bool)

  /** The index of the first row a query with filter `p` returns, as `.first()` does. */
  function FirstIndex<T>(rows: seq<T>, p: T -> bool): (r: Option<nat>)
    ensures r.Some? ==> r.value < |rows| && p(rows[r.value]) && forall j :: 0 <= j < r.value ==> !p(rows[j])
    ensures r.None? ==> forall j :: 0 <= j < |rows| ==> !p(rows[j])
  {
    if rows == [] then None
    else if p(rows[0]) then Some(0)
    else
      var r := FirstIndex(rows[1..], p);
      if r.Some? then Some(r.value + 1) else None
  }

  /** The rows a query with filter `p` keeps, in order. */
  function Filter<T>(rows: seq<T>, p: T -> bool): (r: seq<T>)
    ensures |r| <= |rows|
  {
    if rows == [] then []
    else Filter(rows[..|rows| - 1], p) + (if p(rows[|rows| - 1]) then [rows[|rows| - 1]] else [])
  }

  /** A filter keeps exactly the rows that pass it. */
  lemma {:induction false} FilterMembers<T>(rows: seq<T>, p: T -> bool)
    ensures forall x :: x in Filter(rows, p) <==> x in rows && p(x)
  {
    if rows != [] {
      FilterMembers(rows[..|rows| - 1], p);
      assert rows == rows[..|rows| - 1] + [rows[|rows| - 1]];
    }
  }

  /** A row a filter keeps is a row of the table. */
  lemma FilterFrom<T>(rows: seq<T>, p: T -> bool, x: T)
    requires x in Filter(rows, p)
    ensures x in rows && p(x)
  {
    FilterMembers(rows, p);
  }

  /** A relation that holds between every earlier and later row still holds after a filter. */
  lemma {:induction false} FilterKeepsPairs<T>(rows: seq<T>, p: T -> bool, rel: (T, T) -> bool)
    requires forall i, j :: 0 <= i < j < |rows| ==> rel(rows[i], rows[j])
    ensures forall i, j :: 0 <= i < j < |Filter(rows, p)| ==> rel(Filter(rows, p)[i], Filter(rows, p)[j])
  {
    if rows != [] {
      var init := rows[..|rows| - 1];
      var last := rows[|rows| - 1];
      FilterKeepsPairs(init, p, rel);
      var f := Filter(init, p);
      var r := Filter(rows, p);
      forall i, j | 0 <= i < j < |r|
        ensures rel(r[i], r[j])
      {
        if j == |f| {
          assert r[i] == f[i] && r[j] == last;
          assert f[i] in f;
          FilterFrom(init, p, f[i]);
          var k :| 0 <= k < |init| && init[k] == f[i];
          assert rows[k] == r[i] && k < |rows| - 1;
          assert rel(rows[k], rows[|rows| - 1]);
        } else {
          assert r[i] == f[i] && r[j] == f[j];
          assert rel(f[i], f[j]);
        }
      }
    }
  }

  /** The notification table with the next uuid it hands out. */
  datatype NotificationTable = NotificationTable(rows: seq<TaskNotification>, nextId: nat)

  /** The manager table with the next uuid it hands out. */
  datatype ManagerTable = ManagerTable(rows: seq<TaskManager>, nextUuid: nat)

  /** Notification uuids are distinct and fresh, and no two rows share a natural key. */
  ghost predicate NotificationsValid(t: NotificationTable) {
    && (forall i :: 0 <= i < |t.rows| ==> t.rows[i].id < t.nextId)
    && (forall i, j :: 0 <= i < j < |t.rows| ==> t.rows[i].id != t.rows[j].id)
    && (forall i, j :: 0 <= i < j < |t.rows| ==> KeyOf(t.rows[i].fields) != KeyOf(t.rows[j].fields))
  }

  /** The workbook a manager watches: its lookup key in `create_notify_items`. */
  function FileOf(m: TaskManager): (string, string, string) {
    (m.siteName, m.driveName, m.filePath)
  }

  /** Manager uuids are distinct and fresh, and no two managers watch the same workbook. */
  ghost predicate ManagersValid(t: ManagerTable) {
    && (forall i :: 0 <= i < |t.rows| ==> t.rows[i].uuid < t.nextUuid)
    && (forall i, j :: 0 <= i < j < |t.rows| ==> t.rows[i].uuid != t.rows[j].uuid)
    && (forall i, j :: 0 <= i < j < |t.rows| ==> FileOf(t.rows[i]) != FileOf(t.rows[j]))
  }

  /** No two triggers share a name. */
  ghost predicate NamesUnique(ts: seq<PeriodicTask>) {
    forall i, j :: 0 <= i < j < |ts| ==> ts[i].name != ts[j].name
  }

  /** The tables of the reminder engine. */
  class ReminderDb {
    var notifications: NotificationTable
    var managers: ManagerTable
    var periodicTasks: seq<PeriodicTask>

    ghost predicate Valid()
      reads this
    {
      NotificationsValid(notifications) && ManagersValid(managers) && NamesUnique(periodicTasks)
    }

    /** Empty tables. */
    constructor ()
      ensures Valid()
      ensures notifications == NotificationTable([], 0) && managers == ManagerTable([], 0) && periodicTasks == []
    {
      notifications := NotificationTable([], 0);
      managers := ManagerTable([], 0);
      periodicTasks := [];
    }
  }
}
