/**
 * The notification bell: tasks assigned to the user become notifications,
 * and the list is edited in place together with a separately kept unread
 * counter that is not recomputed after a fetch.
 */
module NotificationCenter {
  import opened Wrappers
  import opened Schema
  import opened Lists

  /** A notification; `kind` is always "task" in this component. */
  datatype Notification = Notification(
    id: string,
    title: string,
    message: string,
    kind: string,
    read: bool,
    createdAt: string,
    relatedId: Option<string>)

  /** The task-to-notification mapping of the fetch. */
  function ToNotification(t: TaskRow): (n: Notification)
    ensures n.id == t.id && n.relatedId == Some(t.id) && n.kind == "task"
    ensures n.title == "New Task Assigned" <==> t.status == "pending"
    ensures n.title != "New Task Assigned" ==> n.title == "Task Updated"
    ensures n.read <==> t.status == "completed"
    ensures n.message == t.title && n.createdAt == t.createdAt
  {
    Notification(
      t.id,
      if t.status == "pending" then "New Task Assigned" else "Task Updated",
      t.title,
      "task",
      t.status == "completed",
      t.createdAt,
      Some(t.id))
  }

  /** `tasks.map(...)`: one notification per task, in the same order. */
  function FromTasks(tasks: seq<TaskRow>): (r: seq<Notification>)
    ensures |r| == |tasks|
    ensures forall i :: 0 <= i < |tasks| ==> r[i] == ToNotification(tasks[i])
  {
    seq(|tasks|, i requires 0 <= i < |tasks| => ToNotification(tasks[i]))
  }

  predicate Unread(n: Notification) { !n.read }

  /** `notifs.filter((n) => !n.read).length`. */
  function UnreadCount(ns: seq<Notification>): nat
  {
    |Filter(ns, Unread)|
  }

  /** The number of unread entries with the given id. */
  function UnreadWithId(ns: seq<Notification>, id: string): nat
  {
    |Filter(ns, (n: Notification) => !n.read && n.id == id)|
  }

  /** A freshly fetched list has as many unread entries as tasks that are not completed. */
  lemma {:induction false} UnreadAfterFetch(tasks: seq<TaskRow>)
    ensures UnreadCount(FromTasks(tasks)) == |Filter(tasks, (t: TaskRow) => t.status != "completed")|
  {
    if tasks != [] {
      var ns := FromTasks(tasks);
      UnreadAfterFetch(tasks[1..]);
      assert ns[1..] == FromTasks(tasks[1..]);
      assert Unread(ns[0]) <==> tasks[0].status != "completed";
    }
  }

  /** `prev.map((n) => (n.id === id ? { ...n, read: true } : n))`. */
  function MarkRead(ns: seq<Notification>, id: string): (r: seq<Notification>)
    ensures |r| == |ns|
    ensures forall i :: 0 <= i < |ns| && ns[i].id != id ==> r[i] == ns[i]
    ensures forall i :: 0 <= i < |ns| && ns[i].id == id ==> r[i] == ns[i].(read := true)
  {
    seq(|ns|, i requires 0 <= i < |ns| => if ns[i].id == id then ns[i].(read := true) else ns[i])
  }

  /** `prev.map((n) => ({ ...n, read: true }))`. */
  function MarkAllRead(ns: seq<Notification>): (r: seq<Notification>)
    ensures |r| == |ns|
    ensures forall i :: 0 <= i < |ns| ==> r[i] == ns[i].(read := true)
  {
    seq(|ns|, i requires 0 <= i < |ns| => ns[i].(read := true))
  }

  /** `prev.filter((n) => n.id !== id)`. */
  function RemoveId(ns: seq<Notification>, id: string): (r: seq<Notification>)
    ensures IsSublist(r, ns)
    ensures forall n :: n in r <==> n in ns && n.id != id
  {
    Filter(ns, (n: Notification) => n.id != id)
  }

  /** Marking an id read removes exactly the unread entries with that id from the true count. */
  lemma {:induction false} MarkReadCount(ns: seq<Notification>, id: string)
    ensures UnreadCount(MarkRead(ns, id)) + UnreadWithId(ns, id) == UnreadCount(ns)
  {
    if ns != [] {
      var m := MarkRead(ns, id);
      MarkReadCount(ns[1..], id);
      assert m[1..] == MarkRead(ns[1..], id);
      assert |Filter(m, Unread)| == (if Unread(m[0]) then 1 else 0) + UnreadCount(MarkRead(ns[1..], id));
    }
  }

  /** Deleting an id removes exactly the unread entries with that id from the true count. */
  lemma {:induction false} RemoveIdCount(ns: seq<Notification>, id: string)
    ensures UnreadCount(RemoveId(ns, id)) + UnreadWithId(ns, id) == UnreadCount(ns)
  {
    if ns != [] {
      RemoveIdCount(ns[1..], id);
    }
  }

  /** After marking everything read the true count is zero. */
  lemma MarkAllReadCount(ns: seq<Notification>)
    ensures UnreadCount(MarkAllRead(ns)) == 0
  {
  }

  /** The unread badge: hidden at 0, "9+" above nine, the number otherwise. */
  function BadgeText(count: int): (r: Option<string>)
    ensures r.None? <==> count <= 0
    ensures r == Some("9+") <==> count > 9
    ensures 0 < count <= 9 ==> r.Some? && |r.value| == 1 && r.value[0] as int - '0' as int == count
  {
    if count <= 0 then None
    else if count > 9 then Some("9+")
    else Some([('0' as int + count) as char])
  }

  /**
   * The component. `notifications` and `unreadCount` are its two pieces of
   * state; `unreadCount` is set from the list only by a fetch.
   */
  class Center {
    var notifications: seq<Notification>
    var unreadCount: int

    /** The counter agrees with the list. */
    predicate Consistent()
      reads this
    {
      unreadCount == UnreadCount(notifications)
    }

    constructor ()
      ensures notifications == [] && unreadCount == 0
      ensures Consistent()
    {
      notifications := [];
      unreadCount := 0;
    }

    /**
     * `fetchNotifications`. `user` is the signed-in user and `tasks` the
     * query's data (null on a failed query).
     */
    method Fetch(user: Option<string>, tasks: Option<seq<TaskRow>>)
      modifies this
      ensures user.None? || tasks.None? ==> notifications == old(notifications) && unreadCount == old(unreadCount)
      ensures user.Some? && tasks.Some? ==>
        notifications == FromTasks(tasks.value) && unreadCount == UnreadCount(notifications)
    {
      if user.None? {
        return;
      }
      if tasks.Some? {
        var notifs := FromTasks(tasks.value);
        notifications := notifs;
        unreadCount := UnreadCount(notifs);
      }
    }

    /** `markAsRead`: the counter drops by one, floored at zero, whatever the entry was. */
    method MarkAsRead(id: string)
      modifies this
      ensures notifications == MarkRead(old(notifications), id)
      ensures unreadCount == if old(unreadCount) - 1 < 0 then 0 else old(unreadCount) - 1
      ensures old(Consistent()) && UnreadWithId(old(notifications), id) == 1 ==> Consistent()
    {
      MarkReadCount(notifications, id);
      notifications := MarkRead(notifications, id);
      unreadCount := if unreadCount - 1 < 0 then 0 else unreadCount - 1;
    }

    /** `markAllAsRead`: everything read, the counter zero, a success notice. */
    method MarkAllAsRead() returns (toast: Toast)
      modifies this
      ensures notifications == MarkAllRead(old(notifications)) && unreadCount == 0
      ensures Consistent()
      ensures toast == Success("All notifications marked as read")
    {
      MarkAllReadCount(notifications);
      notifications := MarkAllRead(notifications);
      unreadCount := 0;
      toast := Success("All notifications marked as read");
    }

    /** `deleteNotification`: the entries go, the counter stays. */
    method DeleteNotification(id: string) returns (toast: Toast)
      modifies this
      ensures notifications == RemoveId(old(notifications), id)
      ensures unreadCount == old(unreadCount)
      ensures toast == Success("Notification deleted")
    {
      notifications := RemoveId(notifications, id);
      toast := Success("Notification deleted");
    }
  }

  /** Deleting an unread notification leaves the counter above the true count. */
  lemma DeleteUnreadOvercounts(ns: seq<Notification>, id: string)
    requires UnreadWithId(ns, id) > 0
    ensures UnreadCount(RemoveId(ns, id)) < UnreadCount(ns)
  {
    RemoveIdCount(ns, id);
  }

  /** Marking an already-read notification still decrements, leaving the counter below the true count. */
  lemma MarkReadAgainUndercounts(ns: seq<Notification>, id: string)
    requires UnreadWithId(ns, id) == 0 && UnreadCount(ns) > 0
    ensures UnreadCount(ns) - 1 < UnreadCount(MarkRead(ns, id))
  {
    MarkReadCount(ns, id);
  }
}
