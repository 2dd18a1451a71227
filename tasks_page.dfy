/**
 * The tasks page: status and priority filters, the completion toggle with
 * its update-then-log sequence, and the priority colours. The toggle and
 * the colours are shared with the task list panel.
 */
module TasksPage {
  import opened Wrappers
  import opened Schema
  import opened Lists

  /** The status a toggle writes: completed tasks reopen, every other status completes. */
  function ToggledStatus(status: string): (r: string)
    ensures r == "completed" <==> status != "completed"
    ensures r == "pending" <==> status == "completed"
  {
    if status == "completed" then "pending" else "completed"
  }

  /** Toggling twice restores a pending or completed task. */
  lemma ToggleTwice(status: string)
    requires status == "pending" || status == "completed"
    ensures ToggledStatus(ToggledStatus(status)) == status
  {
  }

  /** `completed_at`: the current time (an opaque input) when completing, null otherwise. */
  function CompletedAt(newStatus: string, now: string): (r: Option<string>)
    ensures r.Some? <==> newStatus == "completed"
    ensures r.Some? ==> r.value == now
  {
    if newStatus == "completed" then Some(now) else None
  }

  /** The update `{ status, completed_at }` on the row with `id`; a missing id matches no row. */
  function UpdateStatus(rows: map<string, TaskRow>, id: string, newStatus: string, now: string): (r: map<string, TaskRow>)
    ensures r.Keys == rows.Keys
    ensures id in rows ==> r[id] == rows[id].(status := newStatus, completedAt := CompletedAt(newStatus, now))
    ensures forall k :: k in rows && k != id ==> r[k] == rows[k]
  {
    if id in rows then rows[id := rows[id].(status := newStatus, completedAt := CompletedAt(newStatus, now))] else rows
  }

  /** The log entry of a toggle. */
  function ToggleActivity(taskId: string, user: Option<string>, newStatus: string): (a: Activity)
    ensures a.subjectId == taskId && a.userId == user && a.kind == StatusChange
    ensures a.description == "Task marked as " + newStatus
  {
    Activity(taskId, user, StatusChange, "Task marked as " + newStatus)
  }

  /** A task is shown iff both selections are "all" or equal to its fields. */
  predicate Shown(t: TaskRow, status: string, priority: string)
  {
    (status == "all" || t.status == status) && (priority == "all" || t.priority == priority)
  }

  /** `filteredTasks`. */
  function FilteredTasks(tasks: seq<TaskRow>, status: string, priority: string): (r: seq<TaskRow>)
    ensures IsSublist(r, tasks)
    ensures forall t :: t in r <==> t in tasks && Shown(t, status, priority)
  {
    Filter(tasks, (t: TaskRow) => Shown(t, status, priority))
  }

  /** With both selections "all" every task is shown, in order. */
  lemma NoFilterShowsAll(tasks: seq<TaskRow>)
    ensures FilteredTasks(tasks, "all", "all") == tasks
  {
    FilterKeepsAll(tasks, (t: TaskRow) => Shown(t, "all", "all"));
  }

  /** `getPriorityColor`: the four priorities have distinct colours; anything else is gray. */
  function PriorityColor(priority: string): (r: string)
    ensures priority == "low" <==> r == "bg-blue-500"
    ensures priority == "medium" <==> r == "bg-yellow-500"
    ensures priority == "high" <==> r == "bg-orange-500"
    ensures priority == "urgent" <==> r == "bg-red-500"
    ensures priority !in {"low", "medium", "high", "urgent"} <==> r == "bg-gray-500"
  {
    match priority
    case "low" => "bg-blue-500"
    case "medium" => "bg-yellow-500"
    case "high" => "bg-orange-500"
    case "urgent" => "bg-red-500"
    case _ => "bg-gray-500"
  }

  /** The remote `tasks` and `task_activities` tables as the page sees them. */
  class TaskStore {
    var tasks: map<string, TaskRow>
    var activities: seq<Activity>
    /** How many times the page refetched its tasks. */
    var refetches: nat

    constructor (rows: map<string, TaskRow>, log: seq<Activity>)
      ensures tasks == rows && activities == log && refetches == 0
    {
      tasks := rows;
      activities := log;
      refetches := 0;
    }

    /**
     * `handleStatusToggle`. `update` is the reply to the status update and
     * `logged` the reply to the activity insert, which is never inspected;
     * `now` is the current time.
     */
    method HandleStatusToggle(task: TaskRow, user: Option<string>, now: string, update: Reply, logged: Reply) returns (toast: Toast)
      modifies this
      ensures update.Fail? ==>
        tasks == old(tasks) && activities == old(activities) && refetches == old(refetches)
        && toast == Error("Failed to update task: " + update.message)
      ensures update.Ok? ==>
        var newStatus := ToggledStatus(task.status);
        && tasks == UpdateStatus(old(tasks), task.id, newStatus, now)
        && activities == old(activities) + (if logged.Ok? then [ToggleActivity(task.id, user, newStatus)] else [])
        && refetches == old(refetches) + 1
        && toast == Success("Task marked as " + newStatus)
    {
      var newStatus := ToggledStatus(task.status);
      if update.Fail? {
        return Error("Failed to update task: " + update.message);
      }
      tasks := UpdateStatus(tasks, task.id, newStatus, now);
      if logged.Ok? {
        activities := activities + [ToggleActivity(task.id, user, newStatus)];
      }
      refetches := refetches + 1;
      toast := Success("Task marked as " + newStatus);
    }
  }

  /** After a successful toggle the task's `completed_at` is set exactly when it is now completed. */
  lemma ToggleSetsCompletedAt(rows: map<string, TaskRow>, t: TaskRow, now: string)
    requires t.id in rows
    ensures var r := UpdateStatus(rows, t.id, ToggledStatus(t.status), now);
      r[t.id].completedAt.Some? <==> t.status != "completed"
  {
  }
}
