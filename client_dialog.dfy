/**
 * The client create/edit dialog: reset values, validation, the normalised
 * row (with the "unassigned" choice written as null), and the submit
 * sequence (write the client, then log the activity).
 */
module ClientDialog {
  import opened Wrappers
  import opened Schema

  /** The form values; every field is a string. */
  datatype ClientForm = ClientForm(
    name: string,
    company: string,
    email: string,
    phone: string,
    address: string,
    status: string,
    assignedUserId: string,
    notes: string)

  /** The values of a create-mode form: status "prospect", assignee "unassigned", everything else empty. */
  const DefaultForm := ClientForm("", "", "", "", "", "prospect", "unassigned", "")

  /** The status choices the form accepts. */
  const FormStatuses: seq<string> := ["active", "inactive", "prospect", "former"]

  /** The schema check: a non-empty name and a status from the list (the email format check is not modelled). */
  predicate Valid(f: ClientForm)
  {
    f.name != "" && f.status in FormStatuses
  }

  /** A create form is valid once a name is entered, and writes that name with no assignee. */
  lemma NamedDefaultIsValid(name: string)
    requires name != ""
    ensures Valid(DefaultForm.(name := name))
    ensures AssigneeToNull(DefaultForm.(name := name).assignedUserId) == None
  {
  }

  /** The assignee choice as written: "unassigned" and "" become null, any other value is kept. */
  function AssigneeToNull(v: string): (r: Option<string>)
    ensures r.None? <==> v == "unassigned" || v == ""
    ensures r.Some? ==> r.value == v
  {
    if v == "unassigned" then None else EmptyToNull(v)
  }

  /** The form reset when the dialog opens: the client's values with nulls as "" and a null assignee as "unassigned". */
  function ResetForm(client: Option<ClientRow>): (f: ClientForm)
    ensures client.None? ==> f == DefaultForm
    ensures client.Some? ==> f.name == client.value.name && f.status == client.value.status
    ensures client.Some? ==> f.company == NullToEmpty(client.value.company) && f.email == NullToEmpty(client.value.email)
    ensures client.Some? ==> f.phone == NullToEmpty(client.value.phone) && f.address == NullToEmpty(client.value.address)
    ensures client.Some? ==> f.notes == NullToEmpty(client.value.notes)
    ensures client.Some? && client.value.assignedUserId.None? ==> f.assignedUserId == "unassigned"
    ensures client.Some? && client.value.assignedUserId.Some? && client.value.assignedUserId.value != "" ==>
      f.assignedUserId == client.value.assignedUserId.value
  {
    match client
    case None => DefaultForm
    case Some(c) =>
      ClientForm(c.name, NullToEmpty(c.company), NullToEmpty(c.email), NullToEmpty(c.phone),
                 NullToEmpty(c.address), c.status,
                 if c.assignedUserId.Some? && c.assignedUserId.value != "" then c.assignedUserId.value else "unassigned",
                 NullToEmpty(c.notes))
  }

  /** A created client carries no assignee. */
  lemma DefaultFormIsUnassigned()
    ensures AssigneeToNull(DefaultForm.assignedUserId) == None
  {
  }

  /** `clientData` applied to an existing row: `created_by` is left as it was. */
  function ApplyForm(c: ClientRow, f: ClientForm): (r: ClientRow)
    ensures r.id == c.id && r.createdBy == c.createdBy
    ensures r.name == f.name && r.status == f.status
    ensures r.assignedUserId == AssigneeToNull(f.assignedUserId)
    ensures r.company == EmptyToNull(f.company) && r.email == EmptyToNull(f.email)
    ensures r.phone == EmptyToNull(f.phone) && r.address == EmptyToNull(f.address)
    ensures r.notes == EmptyToNull(f.notes)
  {
    c.(name := f.name, company := EmptyToNull(f.company), email := EmptyToNull(f.email),
       phone := EmptyToNull(f.phone), address := EmptyToNull(f.address), status := f.status,
       assignedUserId := AssigneeToNull(f.assignedUserId), notes := EmptyToNull(f.notes))
  }

  /** `clientData` inserted as a new row: `created_by` is the user (null when signed out). */
  function NewClient(id: string, f: ClientForm, user: Option<string>): (r: ClientRow)
    ensures r.id == id && r.createdBy == user
    ensures r.name == f.name && r.status == f.status
    ensures r.assignedUserId == AssigneeToNull(f.assignedUserId)
    ensures r.company == EmptyToNull(f.company) && r.email == EmptyToNull(f.email)
    ensures r.phone == EmptyToNull(f.phone) && r.address == EmptyToNull(f.address)
    ensures r.notes == EmptyToNull(f.notes)
  {
    ClientRow(id, f.name, EmptyToNull(f.company), EmptyToNull(f.email), EmptyToNull(f.phone),
              EmptyToNull(f.address), f.status, AssigneeToNull(f.assignedUserId), EmptyToNull(f.notes), user)
  }

  /** Saving an edit form unchanged writes the row back, provided no optional column holds "" and no assignee is literally "unassigned". */
  lemma UnchangedEditKeepsRow(c: ClientRow)
    requires c.company != Some("") && c.email != Some("") && c.phone != Some("")
    requires c.address != Some("") && c.notes != Some("")
    requires c.assignedUserId != Some("") && c.assignedUserId != Some("unassigned")
    ensures ApplyForm(c, ResetForm(Some(c))) == c
  {
    EmptyToNullInverse(c.company);
    EmptyToNullInverse(c.email);
    EmptyToNullInverse(c.phone);
    EmptyToNullInverse(c.address);
    EmptyToNullInverse(c.notes);
  }

  /** The dialog, the remote `clients` and `client_activities` tables, and the parent's callbacks. */
  class Dialog {
    /** The client being edited, or none in create mode. */
    const client: Option<ClientRow>
    var clients: map<string, ClientRow>
    var activities: seq<Activity>
    var loading: bool
    var open: bool
    /** How many times `onSuccess` was called. */
    var successes: nat

    constructor (client: Option<ClientRow>, rows: map<string, ClientRow>, log: seq<Activity>)
      ensures this.client == client && clients == rows && activities == log
      ensures !loading && open && successes == 0
    {
      this.client := client;
      clients := rows;
      activities := log;
      loading := false;
      open := true;
      successes := 0;
    }

    /**
     * `onSubmit`. `user` is the signed-in user (it is not required here),
     * `reply` the outcome of the update or insert, `newId` the id the
     * insert returns and `logged` the outcome of the activity insert,
     * which is never inspected.
     */
    method Submit(values: ClientForm, user: Option<string>, reply: Reply, newId: string, logged: Reply)
      returns (toast: Toast)
      modifies this
      ensures !loading
      ensures reply.Fail? ==>
        clients == old(clients) && activities == old(activities) && open == old(open)
        && successes == old(successes) && toast == Error("Error: " + reply.message)
      ensures reply.Ok? ==> !open && successes == old(successes) + 1
      ensures reply.Ok? && client.Some? ==>
        && clients == (if client.value.id in old(clients)
                       then old(clients)[client.value.id := ApplyForm(old(clients)[client.value.id], values)]
                       else old(clients))
        && activities == old(activities) +
             (if logged.Ok? then [Activity(client.value.id, user, OtherActivity, "Client updated")] else [])
        && toast == Success("Client updated successfully")
      ensures reply.Ok? && client.None? ==>
        && clients == old(clients)[newId := NewClient(newId, values, user)]
        && activities == old(activities) +
             (if logged.Ok? then [Activity(newId, user, OtherActivity, "Client created")] else [])
        && toast == Success("Client created successfully")
    {
      loading := true;
      if reply.Fail? {
        toast := Error("Error: " + reply.message);
      } else {
        if client.Some? {
          var id := client.value.id;
          if id in clients {
            clients := clients[id := ApplyForm(clients[id], values)];
          }
          if logged.Ok? {
            activities := activities + [Activity(id, user, OtherActivity, "Client updated")];
          }
          toast := Success("Client updated successfully");
        } else {
          clients := clients[newId := NewClient(newId, values, user)];
          if logged.Ok? {
            activities := activities + [Activity(newId, user, OtherActivity, "Client created")];
          }
          toast := Success("Client created successfully");
        }
        successes := successes + 1;
        open := false;
      }
      loading := false;
    }
  }
}
