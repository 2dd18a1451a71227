/**
 * The task create/edit dialog: reset values (prefilled from the lead or
 * client the dialog was opened on), validation, the normalised row, and
 * the submit sequence (write the task, then log the activity).
 */
module TaskDialog {
  import opened Wrappers
  import opened Schema

  /** The form values; every field is a string. The due date is an opaque date-time text. */
  datatype TaskForm = TaskForm(
    title: string,
    description: string,
    dueDate: string,
    priority: string,
    status: string,
    assignedUserId: string,
    leadId: string,
    clientId: string)

  /** The priority choices the form accepts. */
  const FormPriorities: seq<string> := ["low", "medium", "high", "urgent"]

  /** The status choices the form accepts. */
  const FormStatuses: seq<string> := ["pending", "in_progress", "completed", "cancelled"]

  /** The schema check: a non-empty title and a priority and status from the lists. */
  predicate Valid(f: TaskForm)
  {
    f.title != "" && f.priority in FormPriorities && f.status in FormStatuses
  }

  /** The form reset when the dialog opens: the task's values with nulls as "", or the defaults with the lead and client prefilled from the dialog's props. */
  function ResetForm(task: Option<TaskRow>, leadId: Option<string>, clientId: Option<string>): (f: TaskForm)
    ensures task.None? ==>
      f.title == "" && f.description == "" && f.dueDate == "" && f.assignedUserId == ""
      && f.priority == "medium" && f.status == "pending"
      && f.leadId == NullToEmpty(leadId) && f.clientId == NullToEmpty(clientId)
    ensures task.Some? ==>
      f.title == task.value.title && f.priority == task.value.priority && f.status == task.value.status
      && f.leadId == NullToEmpty(task.value.leadId) && f.clientId == NullToEmpty(task.value.clientId)
    ensures task.Some? ==>
      f.description == NullToEmpty(task.value.description) && f.dueDate == NullToEmpty(task.value.dueDate)
      && f.assignedUserId == NullToEmpty(task.value.assignedUserId)
  {
    match task
    case None => TaskForm("", "", "", "medium", "pending", "", NullToEmpty(leadId), NullToEmpty(clientId))
    case Some(t) =>
      TaskForm(t.title, NullToEmpty(t.description), NullToEmpty(t.dueDate), t.priority, t.status,
               NullToEmpty(t.assignedUserId), NullToEmpty(t.leadId), NullToEmpty(t.clientId))
  }

  /** A new task opened from a lead page is valid once a title is entered, and stays linked to that lead. */
  lemma PrefilledFormIsValid(leadId: string, title: string)
    requires title != ""
    ensures var f := ResetForm(None, Some(leadId), None).(title := title);
      Valid(f) && EmptyToNull(f.leadId) == EmptyToNull(leadId)
  {
  }

  /** `taskData` applied to an existing row: `created_by`, `completed_at` and the creation time are left as they were. */
  function ApplyForm(t: TaskRow, f: TaskForm): (r: TaskRow)
    ensures r.id == t.id && r.createdBy == t.createdBy && r.completedAt == t.completedAt && r.createdAt == t.createdAt
    ensures r.title == f.title && r.priority == f.priority && r.status == f.status
    ensures r.description == EmptyToNull(f.description) && r.dueDate == EmptyToNull(f.dueDate)
    ensures r.assignedUserId == EmptyToNull(f.assignedUserId)
    ensures r.leadId == EmptyToNull(f.leadId) && r.clientId == EmptyToNull(f.clientId)
  {
    t.(title := f.title, description := EmptyToNull(f.description), dueDate := EmptyToNull(f.dueDate),
       priority := f.priority, status := f.status, assignedUserId := EmptyToNull(f.assignedUserId),
       leadId := EmptyToNull(f.leadId), clientId := EmptyToNull(f.clientId))
  }

  /** `taskData` inserted as a new row: `created_by` is the user (null when signed out). */
  function NewTask(id: string, f: TaskForm, user: Option<string>, now: string): (r: TaskRow)
    ensures r.id == id && r.createdBy == user && r.createdAt == now && r.completedAt.None?
    ensures r.title == f.title && r.priority == f.priority && r.status == f.status
    ensures r.description == EmptyToNull(f.description) && r.dueDate == EmptyToNull(f.dueDate)
    ensures r.assignedUserId == EmptyToNull(f.assignedUserId)
    ensures r.leadId == EmptyToNull(f.leadId) && r.clientId == EmptyToNull(f.clientId)
  {
    TaskRow(id, f.title, EmptyToNull(f.description), EmptyToNull(f.dueDate), f.priority, f.status,
            EmptyToNull(f.assignedUserId), EmptyToNull(f.leadId), EmptyToNull(f.clientId), None, user, now)
  }

  /** Saving an edit form unchanged keeps every column other than the due date, provided no optional column holds "". */
  lemma UnchangedEditKeepsRow(t: TaskRow)
    requires t.description != Some("") && t.assignedUserId != Some("")
    requires t.leadId != Some("") && t.clientId != Some("")
    ensures ApplyForm(t, ResetForm(Some(t), None, None)).(dueDate := t.dueDate) == t
  {
    EmptyToNullInverse(t.description);
    EmptyToNullInverse(t.assignedUserId);
    EmptyToNullInverse(t.leadId);
    EmptyToNullInverse(t.clientId);
  }

  /** The dialog, the remote `tasks` and `task_activities` tables, and the parent's callbacks. */
  class Dialog {
    /** The task being edited, or none in create mode. */
    const task: Option<TaskRow>
    var tasks: map<string, TaskRow>
    var activities: seq<Activity>
    var loading: bool
    var open: bool
    /** How many times `onSuccess` was called. */
    var successes: nat

    constructor (task: Option<TaskRow>, rows: map<string, TaskRow>, log: seq<Activity>)
      ensures this.task == task && tasks == rows && activities == log
      ensures !loading && open && successes == 0
    {
      this.task := task;
      tasks := rows;
      activities := log;
      loading := false;
      open := true;
      successes := 0;
    }

    /**
     * `onSubmit`. `user` is the signed-in user (not required here), `reply`
     * the outcome of the update or insert, `newId` the id and `now` the
     * creation time the insert returns, and `logged` the outcome of the
     * activity insert, which is never inspected.
     */
    method Submit(values: TaskForm, user: Option<string>, reply: Reply, newId: string, now: string, logged: Reply)
      returns (toast: Toast)
      modifies this
      ensures !loading
      ensures reply.Fail? ==>
        tasks == old(tasks) && activities == old(activities) && open == old(open)
        && successes == old(successes) && toast == Error("Error: " + reply.message)
      ensures reply.Ok? ==> !open && successes == old(successes) + 1
      ensures reply.Ok? && task.Some? ==>
        && tasks == (if task.value.id in old(tasks)
                     then old(tasks)[task.value.id := ApplyForm(old(tasks)[task.value.id], values)]
                     else old(tasks))
        && activities == old(activities) +
             (if logged.Ok? then [Activity(task.value.id, user, OtherActivity, "Task updated")] else [])
        && toast == Success("Task updated successfully")
      ensures reply.Ok? && task.None? ==>
        && tasks == old(tasks)[newId := NewTask(newId, values, user, now)]
        && activities == old(activities) +
             (if logged.Ok? then [Activity(newId, user, OtherActivity, "Task created")] else [])
        && toast == Success("Task created successfully")
    {
      loading := true;
      if reply.Fail? {
        toast := Error("Error: " + reply.message);
      } else {
        if task.Some? {
          var id := task.value.id;
          if id in tasks {
            tasks := tasks[id := ApplyForm(tasks[id], values)];
          }
          if logged.Ok? {
            activities := activities + [Activity(id, user, OtherActivity, "Task updated")];
          }
          toast := Success("Task updated successfully");
        } else {
          tasks := tasks[newId := NewTask(newId, values, user, now)];
          if logged.Ok? {
            activities := activities + [Activity(newId, user, OtherActivity, "Task created")];
          }
          toast := Success("Task created successfully");
        }
        successes := successes + 1;
        open := false;
      }
      loading := false;
    }
  }
}
