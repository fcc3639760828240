/**
 * The Celery tasks of the reminder engine (automation/reminders/tasks.py):
 * one reminder with its rate-limit retry rule, the periodic dispatch of a
 * watched workbook's reminders, and the daemon that scans every host's chats.
 *
 * A task's log lines are left out; what a task decides is its result. The
 * random back-off is a parameter `pick`, and the clock is `now`, in minutes.
 */
module ReminderTasks {
  import opened Wrappers
  import opened Text
  import opened ReminderModels
  import opened SharePointClient
  import MeetingModels
  import TeamsClient

  /** `max_retries` of `notify_single_task`. */
  const MaxRetries := 5

  /** The text that marks a rate-limit error. */
  const TooManyRequests := "Too Many Requests"

  /** What one run of `notify_single_task` ends with. */
  datatype Attempt =
    | Posted(msgId: string)          // the reminder was posted
    | Retried(countdown: int)        // rate-limited: run again after `countdown` seconds
    | Exhausted(error: string)       // rate-limited with no retry left: the task fails
    | Logged(error: string)          // any other error is logged and dropped

  /**
   * The `except` branch: a rate-limit error is retried after a back-off of
   * 30 to 60 seconds while retries are left; any other error is logged.
   */
  function OnError(error: string, retries: nat, pick: int): (a: Attempt)
    ensures a.Retried? <==> Contains(error, TooManyRequests) && retries < MaxRetries
    ensures a.Retried? ==> 30 <= a.countdown <= 60
    ensures a.Logged? <==> !Contains(error, TooManyRequests)
    ensures !a.Posted?
  {
    if Contains(error, TooManyRequests) then
      if retries < MaxRetries then Retried(30 + pick % 31) else Exhausted(error)
    else Logged(error)
  }

  /** Every back-off `randint(30, 60)` can pick is picked by some `pick`. */
  lemma EveryCountdown(countdown: int)
    requires 30 <= countdown <= 60
    ensures OnError(TooManyRequests, 0, countdown - 30) == Retried(countdown)
  {
    assert Contains(TooManyRequests, TooManyRequests) by {
      assert TooManyRequests[0..|TooManyRequests|] == TooManyRequests;
    }
  }

  /** The run of a task whose notify came out as `outcome`, after `retries` retries. */
  function RunOf(outcome: Result<string, string>, retries: nat, pick: int): Attempt {
    match outcome
    case Ok(id) => Posted(id)
    case Err(e) => OnError(e, retries, pick)
  }

  /**
   * The runs of one `notify_single_task` message: run `r` sees notify
   * outcome `outcome(r)` and back-off pick `pick(r)`, and a retried run is
   * followed by the next one. At most `MaxRetries + 1` runs happen, and only
   * the last one is not a retry.
   */
  function Runs(outcome: nat -> Result<string, string>, pick: nat -> int, retries: nat): (runs: seq<Attempt>)
    requires retries <= MaxRetries
    ensures 1 <= |runs| <= MaxRetries + 1 - retries
    ensures !runs[|runs| - 1].Retried?
    ensures forall j :: 0 <= j < |runs| - 1 ==> runs[j].Retried? && 30 <= runs[j].countdown <= 60
    decreases MaxRetries - retries
  {
    var a := RunOf(outcome(retries), retries, pick(retries));
    if a.Retried? then [a] + Runs(outcome, pick, retries + 1) else [a]
  }

  /** The error `TaskNotification.objects.get` raises for an unknown uuid. */
  const NoSuchNotificationError := "TaskNotification matching query does not exist."

  /** The site, drive and path a `GraphSharePointClient(host_id)` watches. */
  const DefaultSite := "NebulaP8group"
  const DefaultDrive := "ScrumSprints"
  const DefaultPath := "Feature to do list+Q&A/[19.10] Mx Feature_to do list+ Q&A.xlsx"

  /** The workbook of `GraphSharePointClient(host_id)`, the client every task builds. */
  function DefaultBook(hostId: string, quote: string -> string): Workbook {
    Workbook(hostId, DefaultSite, DefaultDrive, quote(DefaultPath))
  }

  /**
   * `notify_single_task(notification_id)`, the run after `retries` retries:
   * the notification is looked up and its reminder posted; an error goes
   * through the retry rule.
   */
  method NotifySingleTask(db: ReminderDb, id: nat, retries: nat, pick: int, quote: string -> string,
                          send: (string, MessagePayload) -> Result<TeamsClient.SendResponse, string>)
    returns (a: Attempt)
    requires db.Valid()
    modifies db
    ensures db.Valid() && db.managers == old(db.managers) && db.periodicTasks == old(db.periodicTasks)
    ensures FindId(old(db.notifications).rows, id).None? ==>
              a == Logged(NoSuchNotificationError) && db.notifications == old(db.notifications)
    ensures FindId(old(db.notifications).rows, id).Some? ==>
              var k := FindId(old(db.notifications).rows, id).value;
              var n := old(db.notifications).rows[k];
              var d := Delivered(n, send);
              && a == RunOf(d, retries, pick)
              && (d.Err? ==> db.notifications == old(db.notifications))
              && (d.Ok? ==> db.notifications == MarkSent(old(db.notifications), k, d.value))
  {
    var found := FindId(db.notifications.rows, id);
    if found.None? {
      return Logged(NoSuchNotificationError);
    }
    var n := db.notifications.rows[found.value];
    var client := new SharePointClient(n.fields.hostId, DefaultSite, DefaultDrive, quote(DefaultPath));
    var sent := client.Notify(db, found.value, send);
    if sent.Ok? {
      return Posted(sent.value);
    }
    return OnError(sent.error, retries, pick);
  }

  /** The notifications `notify_task` reminds about: the manager's workbook and host, not COMPLETED. */
  predicate Targets(n: TaskNotification, m: TaskManager) {
    && n.fields.hostId == m.hostId && n.fields.siteName == m.siteName
    && n.fields.driveName == m.driveName && n.fields.filePath == m.filePath
    && n.status != Completed
  }

  /** The uuids `notify_task` dispatches a reminder for, in table order. */
  function Dispatch(rows: seq<TaskNotification>, m: TaskManager): seq<nat> {
    if rows == [] then []
    else Dispatch(rows[..|rows| - 1], m) + (if Targets(rows[|rows| - 1], m) then [rows[|rows| - 1].id] else [])
  }

  /**
   * A reminder is dispatched exactly for the notifications the manager
   * targets, and, the uuids being distinct, once each.
   */
  lemma {:induction false} DispatchExactlyOnce(rows: seq<TaskNotification>, m: TaskManager)
    requires forall i, j :: 0 <= i < j < |rows| ==> rows[i].id != rows[j].id
    ensures forall id :: id in Dispatch(rows, m) <==>
              exists i :: 0 <= i < |rows| && rows[i].id == id && Targets(rows[i], m)
    ensures MeetingModels.Distinct(Dispatch(rows, m))
  {
    if rows != [] {
      var init := rows[..|rows| - 1];
      var last := rows[|rows| - 1];
      DispatchExactlyOnce(init, m);
      forall id
        ensures id in Dispatch(rows, m) <==> exists i :: 0 <= i < |rows| && rows[i].id == id && Targets(rows[i], m)
      {
        if id in Dispatch(init, m) {
          var i :| 0 <= i < |init| && init[i].id == id && Targets(init[i], m);
          assert rows[i] == init[i];
        }
        if exists i :: 0 <= i < |rows| && rows[i].id == id && Targets(rows[i], m) {
          var i :| 0 <= i < |rows| && rows[i].id == id && Targets(rows[i], m);
          if i < |init| {
            assert init[i] == rows[i];
          }
        }
      }
      if Targets(last, m) {
        assert last.id !in Dispatch(init, m);
        var d := Dispatch(rows, m);
        forall i, j | 0 <= i < j < |d|
          ensures d[i] != d[j]
        {
          if j == |d| - 1 {
            assert d[i] in Dispatch(init, m);
          }
        }
      }
    }
  }

  /** `TaskManager.objects.get(uuid=uuid)`. */
  function FindManager(rows: seq<TaskManager>, uuid: nat): Option<nat> {
    FirstIndex(rows, (m: TaskManager) => m.uuid == uuid)
  }

  /** The error `TaskManager.objects.get` raises for an unknown uuid. */
  const NoSuchManagerError := "TaskManager matching query does not exist."

  /**
   * The dispatch loop of `notify_task`: the uuids of the notifications the
   * manager targets, in order.
   */
  method DispatchAll(rows: seq<TaskNotification>, m: TaskManager) returns (ids: seq<nat>)
    ensures ids == Dispatch(rows, m)
  {
    ids := [];
    var i := 0;
    while i < |rows|
      invariant 0 <= i <= |rows|
      invariant ids == Dispatch(rows[..i], m)
    {
      assert rows[..i + 1][..i] == rows[..i];
      if Targets(rows[i], m) {
        ids := ids + [rows[i].id];
      }
      i := i + 1;
    }
    assert rows[..i] == rows;
  }

  /**
   * The manager `i` after a dispatch at minute `now`: notified at `now`, next
   * due `notify_interval` minutes later; nothing else changes.
   */
  function Stamp(t: ManagerTable, i: nat, now: int): (r: ManagerTable)
    requires i < |t.rows|
    ensures ManagersValid(t) ==> ManagersValid(r)
    ensures |r.rows| == |t.rows| && r.nextUuid == t.nextUuid
    ensures r.rows[i].lastNotifiedAt == Some(now)
    ensures r.rows[i].nextNotifyTime == Some(now + t.rows[i].notifyInterval)
    ensures r.rows[i] == t.rows[i].(lastNotifiedAt := r.rows[i].lastNotifiedAt, nextNotifyTime := r.rows[i].nextNotifyTime)
    ensures forall j :: 0 <= j < |t.rows| && j != i ==> r.rows[j] == t.rows[j]
  {
    var m := t.rows[i];
    t.(rows := t.rows[i := m.(lastNotifiedAt := Some(now), nextNotifyTime := Some(now + m.notifyInterval))])
  }

  /**
   * `notify_task(uuid)` at minute `now`: the manager's host first records the
   * replies in its chats; then a reminder is dispatched for every
   * notification the manager targets, and the manager is stamped with `now`
   * and the next time, `notify_interval` minutes later. An unknown uuid is
   * logged and changes nothing.
   */
  method NotifyTask(db: ReminderDb, uuid: nat, now: int, quote: string -> string,
                    msgs: string -> TeamsClient.Page<TeamsClient.ChatMessage>, ghost bound: nat,
                    htmlToText: string -> string, post: CellPost)
    returns (r: Result<seq<nat>, string>)
    requires db.Valid() && MessagesEnd(msgs, bound)
    modifies db
    ensures db.Valid() && db.periodicTasks == old(db.periodicTasks)
    ensures FindManager(old(db.managers).rows, uuid).None? ==>
              r == Err(NoSuchManagerError) && db.notifications == old(db.notifications) &&
              db.managers == old(db.managers)
    ensures FindManager(old(db.managers).rows, uuid).Some? ==>
              var i := FindManager(old(db.managers).rows, uuid).value;
              var m := old(db.managers).rows[i];
              && db.notifications == Scanned(old(db.notifications), DefaultBook(m.hostId, quote), msgs, bound, htmlToText, post)
              && r == Ok(Dispatch(db.notifications.rows, m))
              && db.managers == Stamp(old(db.managers), i, now)
  {
    var found := FindManager(db.managers.rows, uuid);
    if found.None? {
      return Err(NoSuchManagerError);
    }
    var m := db.managers.rows[found.value];
    var client := new SharePointClient(m.hostId, DefaultSite, DefaultDrive, quote(DefaultPath));
    client.ScanAnyMatchMsg(db, msgs, bound, htmlToText, post);
    var ids := DispatchAll(db.notifications.rows, m);
    db.managers := Stamp(db.managers, found.value, now);
    return Ok(ids);
  }

  /** The scans of `daemon_task`, one host after another. */
  ghost function ScanHosts(t: NotificationTable, hosts: seq<string>, quote: string -> string,
                           fetch: string -> TeamsClient.Page<TeamsClient.ChatMessage>, bound: nat,
                           htmlToText: string -> string, post: CellPost): NotificationTable
    requires MessagesEnd(fetch, bound)
    decreases |hosts|
  {
    if hosts == [] then t
    else ScanHosts(Scanned(t, DefaultBook(hosts[0], quote), fetch, bound, htmlToText, post), hosts[1..], quote,
                   fetch, bound, htmlToText, post)
  }

  /**
   * Scanning a list of hosts completes exactly the notifications of those
   * hosts that are not COMPLETED and have a recorded reply; one host's scan
   * never touches another host's notifications.
   */
  lemma {:induction false} ScanHostsEffect(t: NotificationTable, hosts: seq<string>, quote: string -> string,
                                           fetch: string -> TeamsClient.Page<TeamsClient.ChatMessage>, bound: nat,
                                           htmlToText: string -> string, post: CellPost)
    requires MessagesEnd(fetch, bound)
    ensures var r := ScanHosts(t, hosts, quote, fetch, bound, htmlToText, post);
            && |r.rows| == |t.rows| && r.nextId == t.nextId
            && forall i :: 0 <= i < |t.rows| ==>
                 r.rows[i] == if t.rows[i].fields.hostId in hosts && t.rows[i].status != Completed &&
                                 Answered(t.rows[i], fetch, bound, htmlToText, DefaultBook(t.rows[i].fields.hostId, quote), post)
                              then Complete(t.rows[i]) else t.rows[i]
    decreases |hosts|
  {
    if hosts != [] {
      var t1 := Scanned(t, DefaultBook(hosts[0], quote), fetch, bound, htmlToText, post);
      ScanHostsEffect(t1, hosts[1..], quote, fetch, bound, htmlToText, post);
      forall i | 0 <= i < |t.rows|
        ensures t.rows[i].fields.hostId in hosts <==> t.rows[i].fields.hostId == hosts[0] || t.rows[i].fields.hostId in hosts[1..]
      {
        assert hosts == [hosts[0]] + hosts[1..];
      }
    }
  }

  /** The host of each notification. */
  function HostIds(rows: seq<TaskNotification>): (hs: seq<string>)
    ensures |hs| == |rows|
    ensures forall i :: 0 <= i < |rows| ==> hs[i] == rows[i].fields.hostId
  {
    seq(|rows|, i requires 0 <= i < |rows| => rows[i].fields.hostId)
  }

  /**
   * `daemon_task()`: one scan per distinct host of the notification table.
   * `distinct()` has no `order_by`, so the database picks the order; here the
   * hosts are scanned in the order they first appear, and the final table
   * does not depend on that order. Afterwards every notification that
   * was not COMPLETED and has a recorded reply is COMPLETED, and nothing else
   * changed.
   */
  method DaemonTask(db: ReminderDb, quote: string -> string,
                    msgs: string -> TeamsClient.Page<TeamsClient.ChatMessage>, ghost bound: nat,
                    htmlToText: string -> string, post: CellPost)
    returns (hosts: seq<string>)
    requires db.Valid() && MessagesEnd(msgs, bound)
    modifies db
    ensures db.Valid() && db.managers == old(db.managers) && db.periodicTasks == old(db.periodicTasks)
    ensures hosts == MeetingModels.FirstOccurrences(HostIds(old(db.notifications).rows))
    ensures db.notifications == ScanHosts(old(db.notifications), hosts, quote, msgs, bound, htmlToText, post)
    ensures |db.notifications.rows| == |old(db.notifications).rows|
    ensures forall i :: 0 <= i < |db.notifications.rows| ==>
              db.notifications.rows[i] ==
              if old(db.notifications).rows[i].status != Completed &&
                 Answered(old(db.notifications).rows[i], msgs, bound, htmlToText,
                          DefaultBook(old(db.notifications).rows[i].fields.hostId, quote), post)
              then Complete(old(db.notifications).rows[i]) else old(db.notifications).rows[i]
  {
    ghost var t0 := db.notifications;
    hosts := MeetingModels.FirstOccurrences(HostIds(db.notifications.rows));
    var k := 0;
    while k < |hosts|
      invariant 0 <= k <= |hosts|
      invariant db.Valid() && db.managers == old(db.managers) && db.periodicTasks == old(db.periodicTasks)
      invariant ScanHosts(t0, hosts, quote, msgs, bound, htmlToText, post) ==
                ScanHosts(db.notifications, hosts[k..], quote, msgs, bound, htmlToText, post)
    {
      var client := new SharePointClient(hosts[k], DefaultSite, DefaultDrive, quote(DefaultPath));
      client.ScanAnyMatchMsg(db, msgs, bound, htmlToText, post);
      assert hosts[k..][1..] == hosts[k + 1..];
      k := k + 1;
    }
    assert hosts[k..] == [];
    ScanHostsEffect(t0, hosts, quote, msgs, bound, htmlToText, post);
    forall i | 0 <= i < |t0.rows|
      ensures t0.rows[i].fields.hostId in hosts
    {
      assert HostIds(t0.rows)[i] == t0.rows[i].fields.hostId;
    }
  }
}
