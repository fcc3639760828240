/**
 * The reminder engine's scheduling and bookkeeping views
 * (automation/reminders/views.py): the Celery Beat trigger of a watched
 * workbook and of the daemon scan, deleting a watched workbook, and the list
 * of a host's watched workbooks.
 *
 * The Beat tables are the `periodicTasks` field of `ReminderDb`; a crontab
 * schedule is a value, since `get_or_create` only ever yields a row equal to
 * the one asked for. URL quoting is a parameter.
 */
module ReminderViews {
  import opened Wrappers
  import opened Text
  import opened ReminderModels

  /** The Celery task a workbook's trigger runs. */
  const NotifyTaskPath := "reminders.tasks.notify_task"

  /** The Celery task a created daemon trigger runs. */
  const DaemonTaskPath := "reminders.tasks.daemon_task"

  /** The Celery task an existing daemon trigger is pointed at. */
  const DaemonViewPath := "reminders.views.daemon_task"

  /** The fixed name of the daemon trigger. */
  const DaemonTriggerName := "reminders.tasks.daemon-task-scan"

  /** What a workbook's trigger name starts with. */
  const NotifyPrefix := "sharepoint-notify-"

  /** A workbook is reminded every `interval` minutes from 8:00 to 19:59, every day. */
  function NotifySchedule(interval: int): Crontab {
    Crontab("*/" + IntToString(interval), "8-19", "*", "*", "*")
  }

  /** The daemon scan runs every 30 minutes around the clock. */
  function DaemonSchedule(): Crontab {
    Crontab("*/30", "*", "*", "*", "*")
  }

  /** `sharepoint-notify-{uuid}`: the trigger name of a manager. */
  function TriggerName(uuid: nat): string {
    NotifyPrefix + NatToString(uuid)
  }

  /** Distinct managers have distinct trigger names, so no two share a trigger. */
  lemma TriggerNamesDistinct(a: nat, b: nat)
    requires a != b
    ensures TriggerName(a) != TriggerName(b)
  {
    if TriggerName(a) == TriggerName(b) {
      assert TriggerName(a)[|NotifyPrefix|..] == NatToString(a);
      assert TriggerName(b)[|NotifyPrefix|..] == NatToString(b);
      NatToStringInjective(a, b);
    }
  }

  /** The trigger a workbook's manager should have: its schedule, `notify_task`, its uuid as the only argument, enabled. */
  function NotifyTrigger(m: TaskManager): PeriodicTask {
    PeriodicTask(TriggerName(m.uuid), NotifySchedule(m.notifyInterval), NotifyTaskPath, [NatToString(m.uuid)], true)
  }

  /** Where the trigger called `name` is, as `PeriodicTask.objects.filter(name=...).first()` finds it. */
  function FindTrigger(ts: seq<PeriodicTask>, name: string): Option<nat> {
    FirstIndex(ts, (t: PeriodicTask) => t.name == name)
  }

  /**
   * Updates the trigger called `name` with `update`, or adds `created`
   * when there is none: the update-or-create both views perform.
   */
  function PutTrigger(ts: seq<PeriodicTask>, name: string, created: PeriodicTask,
                      update: PeriodicTask -> PeriodicTask): seq<PeriodicTask> {
    match FindTrigger(ts, name)
    case Some(k) => ts[k := update(ts[k])]
    case None => ts + [created]
  }

  /** Whether some trigger is called `name`. */
  predicate HasTrigger(ts: seq<PeriodicTask>, name: string) {
    exists t :: t in ts && t.name == name
  }

  /**
   * Update-or-create keeps names unique and leaves exactly one trigger
   * called `name`: the updated old one when there was one, else `created`.
   * Every other trigger is kept and none is added.
   */
  lemma PutTriggerOnce(ts: seq<PeriodicTask>, name: string, created: PeriodicTask,
                       update: PeriodicTask -> PeriodicTask)
    requires NamesUnique(ts) && created.name == name
    requires forall t: PeriodicTask :: t.name == name ==> update(t).name == name
    ensures var r := PutTrigger(ts, name, created, update);
            && NamesUnique(r)
            && (forall t :: t in r && t.name != name <==> t in ts && t.name != name)
            && (HasTrigger(ts, name) ==> |r| == |ts| && exists k :: 0 <= k < |ts| && ts[k].name == name && r[k] == update(ts[k]))
            && (!HasTrigger(ts, name) ==> r == ts + [created])
  {
    var r := PutTrigger(ts, name, created, update);
    match FindTrigger(ts, name)
    case Some(k) =>
      assert ts[k].name == name && r[k] == update(ts[k]);
      forall t
        ensures t in r && t.name != name <==> t in ts && t.name != name
      {
        if t in ts && t.name != name {
          var j :| 0 <= j < |ts| && ts[j] == t;
          assert r[j] == t;
        }
      }
    case None =>
      assert !HasTrigger(ts, name);
  }

  /** A workbook's manager after `schedule_notify`: it points at its trigger. */
  function Linked(m: TaskManager): TaskManager {
    m.(periodicTask := Some(TriggerName(m.uuid)))
  }

  /**
   * `schedule_notify`: gives manager `i` its trigger, updating the one with
   * its name in place or creating it, links the manager to it, and returns
   * the argument the immediate `notify_task` run is queued with.
   */
  method ScheduleNotify(db: ReminderDb, i: nat) returns (queued: string)
    requires db.Valid() && i < |db.managers.rows|
    modifies db
    ensures db.Valid()
    ensures var m := old(db.managers.rows[i]);
            && db.periodicTasks == PutTrigger(old(db.periodicTasks), TriggerName(m.uuid), NotifyTrigger(m),
                                              (t: PeriodicTask) => NotifyTrigger(m))
            && db.managers == old(db.managers).(rows := old(db.managers.rows)[i := Linked(m)])
            && queued == NatToString(m.uuid)
    ensures db.notifications == old(db.notifications)
  {
    var m := db.managers.rows[i];
    var trigger := NotifyTrigger(m);
    var update := (t: PeriodicTask) => NotifyTrigger(m);
    PutTriggerOnce(db.periodicTasks, trigger.name, trigger, update);
    var found := FindTrigger(db.periodicTasks, trigger.name);
    if found.Some? {
      db.periodicTasks := db.periodicTasks[found.value := trigger];
    } else {
      db.periodicTasks := db.periodicTasks + [trigger];
    }
    db.managers := db.managers.(rows := db.managers.rows[i := Linked(m)]);
    queued := NatToString(m.uuid);
  }

  /**
   * After `schedule_notify` the manager's trigger is the only one with its
   * name, carries its schedule, task and uuid, is enabled, and the manager
   * points at it; other triggers are untouched.
   */
  lemma ScheduledNotifyTrigger(ts: seq<PeriodicTask>, m: TaskManager)
    requires NamesUnique(ts)
    ensures var r := PutTrigger(ts, TriggerName(m.uuid), NotifyTrigger(m), (t: PeriodicTask) => NotifyTrigger(m));
            && NamesUnique(r)
            && NotifyTrigger(m) in r
            && (forall t :: t in r && t.name == TriggerName(m.uuid) ==> t == NotifyTrigger(m))
            && (forall t :: t in r && t.name != TriggerName(m.uuid) <==> t in ts && t.name != TriggerName(m.uuid))
            && Linked(m).periodicTask == Some(NotifyTrigger(m).name)
            && NotifyTrigger(m).crontab.minute == "*/" + IntToString(m.notifyInterval)
            && NotifyTrigger(m).crontab.hour == "8-19"
            && NotifyTrigger(m).enabled && NotifyTrigger(m).args == [NatToString(m.uuid)]
  {
    var name := TriggerName(m.uuid);
    var update := (t: PeriodicTask) => NotifyTrigger(m);
    PutTriggerOnce(ts, name, NotifyTrigger(m), update);
    var r := PutTrigger(ts, name, NotifyTrigger(m), update);
    if HasTrigger(ts, name) {
      var k :| 0 <= k < |ts| && ts[k].name == name && r[k] == update(ts[k]);
      assert r[k] in r;
    } else {
      assert r[|ts|] in r;
    }
    forall t | t in r && t.name == name
      ensures t == NotifyTrigger(m)
    {
      var a :| 0 <= a < |r| && r[a] == t;
      var b :| 0 <= b < |r| && r[b] == NotifyTrigger(m);
      assert a == b;
    }
  }

  /** The daemon trigger as `get_or_create` creates it: default arguments, enabled. */
  function DaemonTrigger(): PeriodicTask {
    PeriodicTask(DaemonTriggerName, DaemonSchedule(), DaemonTaskPath, [], true)
  }

  /** An existing daemon trigger gets the schedule, is re-pointed at `reminders.views.daemon_task` and is enabled. */
  function RepointDaemon(t: PeriodicTask): PeriodicTask {
    t.(crontab := DaemonSchedule(), task := DaemonViewPath, enabled := true)
  }

  /** `schedule_daemon_task`: creates the daemon trigger, or updates the one with its name. */
  method ScheduleDaemonTask(db: ReminderDb)
    requires db.Valid()
    modifies db
    ensures db.Valid()
    ensures db.periodicTasks == PutTrigger(old(db.periodicTasks), DaemonTriggerName, DaemonTrigger(), RepointDaemon)
    ensures db.notifications == old(db.notifications) && db.managers == old(db.managers)
  {
    PutTriggerOnce(db.periodicTasks, DaemonTriggerName, DaemonTrigger(), RepointDaemon);
    var found := FindTrigger(db.periodicTasks, DaemonTriggerName);
    if found.Some? {
      var t := db.periodicTasks[found.value];
      db.periodicTasks := db.periodicTasks[found.value := RepointDaemon(t)];
    } else {
      db.periodicTasks := db.periodicTasks + [DaemonTrigger()];
    }
  }

  /**
   * After `schedule_daemon_task` exactly one trigger has the daemon's name;
   * it runs every 30 minutes and is enabled. A created one runs
   * `reminders.tasks.daemon_task`; an existing one is pointed at
   * `reminders.views.daemon_task` and keeps its arguments.
   */
  lemma ScheduledDaemonTrigger(ts: seq<PeriodicTask>)
    requires NamesUnique(ts)
    ensures var r := PutTrigger(ts, DaemonTriggerName, DaemonTrigger(), RepointDaemon);
            && NamesUnique(r)
            && (forall t :: t in r && t.name != DaemonTriggerName <==> t in ts && t.name != DaemonTriggerName)
            && exists k :: 0 <= k < |r| && r[k].name == DaemonTriggerName && r[k].enabled
                          && r[k].crontab == DaemonSchedule()
                          && (if HasTrigger(ts, DaemonTriggerName)
                              then r[k].task == DaemonViewPath && k < |ts| && r[k].args == ts[k].args
                              else r[k].task == DaemonTaskPath && r[k].args == [])
  {
    PutTriggerOnce(ts, DaemonTriggerName, DaemonTrigger(), RepointDaemon);
    var r := PutTrigger(ts, DaemonTriggerName, DaemonTrigger(), RepointDaemon);
    if HasTrigger(ts, DaemonTriggerName) {
      var k :| 0 <= k < |ts| && ts[k].name == DaemonTriggerName && r[k] == RepointDaemon(ts[k]);
      assert r[k].task == DaemonViewPath && r[k].args == ts[k].args;
    } else {
      assert r[|ts|] == DaemonTrigger();
    }
  }

  /** What `delete_task` answers. */
  datatype DeleteReply =
    | RedirectToSignin       // not signed in
    | Deleted                // `{"status": "ok"}`
    | QuoteFailed            // `quote(None)` raises: the form had no `file_path`
    | InvalidRequest         // `{"error": "Invalid request"}`, status 400

  /** A notification `delete_task` removes: the host's, on the drive, at the quoted path. */
  predicate NotificationDoomed(n: TaskNotification, drive: Option<string>, quotedPath: string, host: string) {
    drive == Some(n.fields.driveName) && n.fields.filePath == quotedPath && n.fields.hostId == host
  }

  /** A manager `delete_task` removes. */
  predicate ManagerDoomed(m: TaskManager, drive: Option<string>, quotedPath: string, host: string) {
    drive == Some(m.driveName) && m.filePath == quotedPath && m.hostId == host
  }

  /** The notification table after the delete. */
  function WithoutNotifications(t: NotificationTable, drive: Option<string>, quotedPath: string, host: string)
    : NotificationTable
  {
    t.(rows := Filter(t.rows, (n: TaskNotification) => !NotificationDoomed(n, drive, quotedPath, host)))
  }

  /** The manager table after the delete. */
  function WithoutManagers(t: ManagerTable, drive: Option<string>, quotedPath: string, host: string): ManagerTable {
    t.(rows := Filter(t.rows, (m: TaskManager) => !ManagerDoomed(m, drive, quotedPath, host)))
  }

  /**
   * The delete removes exactly the matching notifications and managers and
   * keeps both tables valid; a missing drive name matches nothing.
   */
  lemma DeleteExactly(nt: NotificationTable, mt: ManagerTable, drive: Option<string>, quotedPath: string, host: string)
    requires NotificationsValid(nt) && ManagersValid(mt)
    ensures var nt' := WithoutNotifications(nt, drive, quotedPath, host);
            var mt' := WithoutManagers(mt, drive, quotedPath, host);
            && NotificationsValid(nt') && ManagersValid(mt')
            && (forall n :: n in nt'.rows <==> n in nt.rows && !NotificationDoomed(n, drive, quotedPath, host))
            && (forall m :: m in mt'.rows <==> m in mt.rows && !ManagerDoomed(m, drive, quotedPath, host))
            && (drive.None? ==> nt' == nt && mt' == mt)
  {
    DeleteNotificationsExactly(nt, drive, quotedPath, host);
    DeleteManagersExactly(mt, drive, quotedPath, host);
  }

  /** The notification half of the delete. */
  lemma DeleteNotificationsExactly(nt: NotificationTable, drive: Option<string>, quotedPath: string, host: string)
    requires NotificationsValid(nt)
    ensures NotificationsValid(WithoutNotifications(nt, drive, quotedPath, host))
    ensures forall n :: n in WithoutNotifications(nt, drive, quotedPath, host).rows <==>
                        n in nt.rows && !NotificationDoomed(n, drive, quotedPath, host)
    ensures drive.None? ==> WithoutNotifications(nt, drive, quotedPath, host) == nt
  {
    var keepN := (n: TaskNotification) => !NotificationDoomed(n, drive, quotedPath, host);
    FilterMembers(nt.rows, keepN);
    FilterKeepsPairs(nt.rows, keepN, (a: TaskNotification, b: TaskNotification) => a.id != b.id);
    FilterKeepsPairs(nt.rows, keepN, (a: TaskNotification, b: TaskNotification) => KeyOf(a.fields) != KeyOf(b.fields));
    var fn := Filter(nt.rows, keepN);
    forall i | 0 <= i < |fn|
      ensures fn[i].id < nt.nextId
    {
      assert fn[i] in fn;
    }
    if drive.None? {
      KeepAll(nt.rows, keepN);
    }
  }

  /** The manager half of the delete. */
  lemma DeleteManagersExactly(mt: ManagerTable, drive: Option<string>, quotedPath: string, host: string)
    requires ManagersValid(mt)
    ensures ManagersValid(WithoutManagers(mt, drive, quotedPath, host))
    ensures forall m :: m in WithoutManagers(mt, drive, quotedPath, host).rows <==>
                        m in mt.rows && !ManagerDoomed(m, drive, quotedPath, host)
    ensures drive.None? ==> WithoutManagers(mt, drive, quotedPath, host) == mt
  {
    var keepM := (m: TaskManager) => !ManagerDoomed(m, drive, quotedPath, host);
    FilterMembers(mt.rows, keepM);
    FilterKeepsPairs(mt.rows, keepM, (a: TaskManager, b: TaskManager) => a.uuid != b.uuid);
    FilterKeepsPairs(mt.rows, keepM, (a: TaskManager, b: TaskManager) => FileOf(a) != FileOf(b));
    var fm := Filter(mt.rows, keepM);
    forall i | 0 <= i < |fm|
      ensures fm[i].uuid < mt.nextUuid
    {
      assert fm[i] in fm;
    }
    if drive.None? {
      KeepAll(mt.rows, keepM);
    }
  }

  /** A filter every row passes keeps the table. */
  lemma {:induction false} KeepAll<T>(rows: seq<T>, p: T -> bool)
    requires forall x :: x in rows ==> p(x)
    ensures Filter(rows, p) == rows
  {
    if rows != [] {
      KeepAll(rows[..|rows| - 1], p);
      assert rows == rows[..|rows| - 1] + [rows[|rows| - 1]];
    }
  }

  /**
   * `delete_task`: a signed-in POST deletes the host's notifications and
   * managers for the drive and quoted path and answers ok; any other method
   * is a bad request. Triggers are not deleted: the link runs from the
   * manager to its trigger (cleared only when a trigger is deleted), so the
   * trigger of a deleted manager stays and keeps firing.
   */
  method DeleteTask(db: ReminderDb, signedIn: bool, host: string, isPost: bool, drive: Option<string>,
                    filePath: Option<string>, quote: string -> string) returns (reply: DeleteReply)
    requires db.Valid()
    modifies db
    ensures db.Valid()
    ensures !signedIn ==> reply == RedirectToSignin
    ensures signedIn && !isPost ==> reply == InvalidRequest
    ensures signedIn && isPost && filePath.None? ==> reply == QuoteFailed
    ensures reply == Deleted <==> signedIn && isPost && filePath.Some?
    ensures reply == Deleted ==>
              && db.notifications == WithoutNotifications(old(db.notifications), drive, quote(filePath.value), host)
              && db.managers == WithoutManagers(old(db.managers), drive, quote(filePath.value), host)
    ensures reply != Deleted ==> db.notifications == old(db.notifications) && db.managers == old(db.managers)
    ensures db.periodicTasks == old(db.periodicTasks)
  {
    if !signedIn {
      return RedirectToSignin;
    }
    if !isPost {
      return InvalidRequest;
    }
    if filePath.None? {
      return QuoteFailed;
    }
    var quoted := quote(filePath.value);
    DeleteExactly(db.notifications, db.managers, drive, quoted, host);
    db.notifications := WithoutNotifications(db.notifications, drive, quoted, host);
    db.managers := WithoutManagers(db.managers, drive, quoted, host);
    reply := Deleted;
  }

  /** Where the list of a workbook's notifications is served. */
  const NotificationsUrl := "/reminders/task_notifications/?file_path="

  /** One entry of `get_tracking_items`. */
  datatype TrackingItem = TrackingItem(driveName: string, filePath: string, notifyInterval: int,
                                       lastNotifiedAt: Option<int>, nextNotifyTime: Option<int>,
                                       notificationUrl: string)

  /** The entry for one manager: the path shown unquoted, the link built from the stored quoted path. */
  function ItemOf(m: TaskManager, unquote: string -> string): TrackingItem {
    TrackingItem(m.driveName, unquote(m.filePath), m.notifyInterval, m.lastNotifiedAt, m.nextNotifyTime,
                 NotificationsUrl + m.filePath)
  }

  /** The entries of `host`'s managers, in table order. */
  function Tracked(rows: seq<TaskManager>, host: string, unquote: string -> string): seq<TrackingItem> {
    if rows == [] then []
    else
      var last := rows[|rows| - 1];
      Tracked(rows[..|rows| - 1], host, unquote) + (if last.hostId == host then [ItemOf(last, unquote)] else [])
  }

  /** `get_tracking_items`: one entry per manager of the signed-in host. */
  method GetTrackingItems(db: ReminderDb, host: string, unquote: string -> string) returns (items: seq<TrackingItem>)
    ensures items == Tracked(db.managers.rows, host, unquote)
  {
    var rows := db.managers.rows;
    items := [];
    var i := 0;
    while i < |rows|
      invariant 0 <= i <= |rows|
      invariant items == Tracked(rows[..i], host, unquote)
    {
      assert rows[..i + 1][..i] == rows[..i];
      if rows[i].hostId == host {
        items := items + [ItemOf(rows[i], unquote)];
      }
      i := i + 1;
    }
    assert rows[..|rows|] == rows;
  }

  /**
   * Entry `i` describes the host's `i`-th manager: its drive, interval and
   * notification times, its path unquoted, and a link carrying the stored
   * path; the host's managers are exactly those with its id.
   */
  lemma {:induction false} TrackedItems(rows: seq<TaskManager>, host: string, unquote: string -> string)
    ensures var f := Filter(rows, (m: TaskManager) => m.hostId == host);
            var items := Tracked(rows, host, unquote);
            && |items| == |f|
            && forall i :: 0 <= i < |items| ==>
                 && items[i].driveName == f[i].driveName && items[i].filePath == unquote(f[i].filePath)
                 && items[i].notifyInterval == f[i].notifyInterval
                 && items[i].lastNotifiedAt == f[i].lastNotifiedAt && items[i].nextNotifyTime == f[i].nextNotifyTime
                 && items[i].notificationUrl == NotificationsUrl + f[i].filePath
  {
    if rows != [] {
      TrackedItems(rows[..|rows| - 1], host, unquote);
    }
  }
}
