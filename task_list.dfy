/** The task panel on a lead or client page: query scope, fetch and toggle. */
module TaskList {
  import opened Wrappers
  import opened Schema
  import opened Lists
  import TasksPage

  /** Which tasks the panel asks for. */
  datatype Scope = ByLead(leadId: string) | ByClient(clientId: string) | AllTasks

  /** `if (leadId) … else if (clientId) …`: a set lead id wins over a client id; empty ids count as unset. */
  function QueryScope(leadId: Option<string>, clientId: Option<string>): (r: Scope)
    ensures Truthy(leadId) ==> r == ByLead(leadId.value)
    ensures !Truthy(leadId) && Truthy(clientId) ==> r == ByClient(clientId.value)
    ensures !Truthy(leadId) && !Truthy(clientId) ==> r == AllTasks
  {
    if Truthy(leadId) then ByLead(leadId.value)
    else if Truthy(clientId) then ByClient(clientId.value)
    else AllTasks
  }

  /** The `.eq` condition the scope adds to the query. */
  predicate InScope(t: TaskRow, scope: Scope)
  {
    match scope
    case ByLead(id) => t.leadId == Some(id)
    case ByClient(id) => t.clientId == Some(id)
    case AllTasks => true
  }

  /** The rows the query returns from the table, in table order. */
  function ScopedTasks(table: seq<TaskRow>, scope: Scope): (r: seq<TaskRow>)
    ensures IsSublist(r, table)
    ensures forall t :: t in r <==> t in table && InScope(t, scope)
  {
    Filter(table, (t: TaskRow) => InScope(t, scope))
  }

  /** A panel given both ids shows the lead's tasks, ignoring the client id. */
  lemma LeadIdWins(table: seq<TaskRow>, leadId: string, clientId: Option<string>)
    requires leadId != ""
    ensures ScopedTasks(table, QueryScope(Some(leadId), clientId)) == Filter(table, (t: TaskRow) => t.leadId == Some(leadId))
  {
    FilterExtensional(table, (t: TaskRow) => InScope(t, ByLead(leadId)), (t: TaskRow) => t.leadId == Some(leadId));
  }

  class Panel {
    /** The ids the panel was opened with. */
    const leadId: Option<string>
    const clientId: Option<string>
    /** The tasks on display. */
    var tasks: seq<TaskRow>
    /** The remote tables the panel writes to. */
    const store: TasksPage.TaskStore

    constructor (leadId: Option<string>, clientId: Option<string>, store: TasksPage.TaskStore)
      ensures this.leadId == leadId && this.clientId == clientId && this.store == store && tasks == []
    {
      this.leadId := leadId;
      this.clientId := clientId;
      this.store := store;
      tasks := [];
    }

    /**
     * `fetchTasks` against a table whose rows are `table` (in the query's
     * order); `error` is the query's error. An error leaves the list and
     * shows a notice.
     */
    method FetchTasks(table: seq<TaskRow>, error: Option<string>) returns (toast: Option<Toast>)
      modifies this`tasks
      ensures error.Some? ==> tasks == old(tasks) && toast == Some(Error("Failed to fetch tasks"))
      ensures error.None? ==> tasks == ScopedTasks(table, QueryScope(leadId, clientId)) && toast == None
    {
      if error.Some? {
        return Some(Error("Failed to fetch tasks"));
      }
      tasks := ScopedTasks(table, QueryScope(leadId, clientId));
      toast := None;
    }

    /** `handleStatusToggle`: the same update-then-log sequence as the tasks page. */
    method HandleStatusToggle(task: TaskRow, user: Option<string>, now: string, update: Reply, logged: Reply) returns (toast: Toast)
      modifies store
      ensures update.Fail? ==>
        store.tasks == old(store.tasks) && store.activities == old(store.activities)
        && store.refetches == old(store.refetches)
        && toast == Error("Failed to update task: " + update.message)
      ensures update.Ok? ==>
        var newStatus := TasksPage.ToggledStatus(task.status);
        && store.tasks == TasksPage.UpdateStatus(old(store.tasks), task.id, newStatus, now)
        && store.activities == old(store.activities) +
             (if logged.Ok? then [TasksPage.ToggleActivity(task.id, user, newStatus)] else [])
        && store.refetches == old(store.refetches) + 1
        && toast == Success("Task marked as " + newStatus)
    {
      toast := store.HandleStatusToggle(task, user, now, update, logged);
    }
  }
}
