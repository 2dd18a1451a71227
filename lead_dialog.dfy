/**
 * The lead create/edit dialog: the form's reset values, validation, the
 * normalised row written on submit, and the submit sequence
 * (authenticate, write the lead, then log the activity).
 */
module LeadDialog {
  import opened Wrappers
  import opened Schema

  /** The form values; every field is a string, empty meaning "not given". */
  datatype LeadForm = LeadForm(
    name: string,
    email: string,
    phone: string,
    company: string,
    source: string,
    status: string,
    stageId: string,
    assignedUserId: string)

  /** The values of a create-mode form: source "other", status "new", everything else empty. */
  const DefaultForm := LeadForm("", "", "", "", "other", "new", "", "")

  /** The form reset when the dialog opens: the lead's values with nulls as "", or the defaults. */
  function ResetForm(lead: Option<LeadRow>): (f: LeadForm)
    ensures lead.None? ==> f == DefaultForm
    ensures lead.Some? ==> f.name == lead.value.name && f.source == lead.value.source && f.status == lead.value.status
    ensures lead.Some? ==> f.email == NullToEmpty(lead.value.email) && f.phone == NullToEmpty(lead.value.phone)
    ensures lead.Some? ==> f.company == NullToEmpty(lead.value.company)
    ensures lead.Some? ==> f.stageId == NullToEmpty(lead.value.stageId)
    ensures lead.Some? ==> f.assignedUserId == NullToEmpty(lead.value.assignedUserId)
  {
    match lead
    case None => DefaultForm
    case Some(l) =>
      LeadForm(l.name, NullToEmpty(l.email), NullToEmpty(l.phone), NullToEmpty(l.company),
               l.source, l.status, NullToEmpty(l.stageId), NullToEmpty(l.assignedUserId))
  }

  /** The source choices the form accepts. */
  const FormSources: seq<string> := ["website", "referral", "social_media", "email", "phone", "other"]

  /** The status choices the form accepts. */
  const FormStatuses: seq<string> := ["new", "contacted", "in_progress", "converted", "lost"]

  /** The form's choice lists are exactly the database enums. */
  lemma FormChoicesAreEnums()
    ensures forall s :: s in FormSources <==> ParseSource(s).Some?
    ensures forall s :: s in FormStatuses <==> ParseStatus(s).Some?
  {
  }

  /** The schema check: a non-empty name and a source and status from the fixed lists (the email format check is not modelled). */
  predicate Valid(f: LeadForm)
  {
    f.name != "" && f.source in FormSources && f.status in FormStatuses
  }

  /** The values every valid form writes are well-formed lead values. */
  lemma ValidFormWritesEnums(f: LeadForm)
    requires Valid(f)
    ensures ParseSource(f.source).Some? && ParseStatus(f.status).Some? && f.name != ""
  {
    FormChoicesAreEnums();
  }

  /** The update payload applied to an existing row: empty optional fields become null. */
  function ApplyForm(l: LeadRow, f: LeadForm): (r: LeadRow)
    ensures r.id == l.id && r.createdBy == l.createdBy && r.createdAt == l.createdAt
    ensures r.name == f.name && r.source == f.source && r.status == f.status
    ensures r.email == EmptyToNull(f.email) && r.phone == EmptyToNull(f.phone)
    ensures r.company == EmptyToNull(f.company)
    ensures r.stageId == EmptyToNull(f.stageId)
    ensures r.assignedUserId == EmptyToNull(f.assignedUserId)
  {
    l.(name := f.name, email := EmptyToNull(f.email), phone := EmptyToNull(f.phone),
       company := EmptyToNull(f.company), source := f.source, status := f.status,
       stageId := EmptyToNull(f.stageId), assignedUserId := EmptyToNull(f.assignedUserId))
  }

  /** The insert payload: the normalised values, the new id, `created_by` the user and the insert time. */
  function NewLead(id: string, f: LeadForm, user: string, now: int): (r: LeadRow)
    ensures r.id == id && r.createdBy == Some(user) && r.createdAt == now
    ensures r.name == f.name && r.source == f.source && r.status == f.status
    ensures r.email == EmptyToNull(f.email) && r.phone == EmptyToNull(f.phone)
    ensures r.company == EmptyToNull(f.company)
    ensures r.stageId == EmptyToNull(f.stageId)
    ensures r.assignedUserId == EmptyToNull(f.assignedUserId)
  {
    LeadRow(id, f.name, EmptyToNull(f.email), EmptyToNull(f.phone), EmptyToNull(f.company),
            f.source, f.status, EmptyToNull(f.stageId), EmptyToNull(f.assignedUserId), Some(user), now)
  }

  /** Saving an edit form unchanged writes the row back as it was, provided no optional column holds "". */
  lemma UnchangedEditKeepsRow(l: LeadRow)
    requires l.email != Some("") && l.phone != Some("") && l.company != Some("")
    requires l.stageId != Some("") && l.assignedUserId != Some("")
    ensures ApplyForm(l, ResetForm(Some(l))) == l
  {
    EmptyToNullInverse(l.email);
    EmptyToNullInverse(l.phone);
    EmptyToNullInverse(l.company);
    EmptyToNullInverse(l.stageId);
    EmptyToNullInverse(l.assignedUserId);
  }

  /** The dialog, the remote `leads` and `lead_activities` tables, and the parent's callbacks. */
  class Dialog {
    /** The lead being edited, or none in create mode. */
    const lead: Option<LeadRow>
    var leads: map<string, LeadRow>
    var activities: seq<Activity>
    var loading: bool
    var open: bool
    /** How many times `onSuccess` was called. */
    var successes: nat

    constructor (lead: Option<LeadRow>, rows: map<string, LeadRow>, log: seq<Activity>)
      ensures this.lead == lead && leads == rows && activities == log
      ensures !loading && open && successes == 0
    {
      this.lead := lead;
      leads := rows;
      activities := log;
      loading := false;
      open := true;
      successes := 0;
    }

    /**
     * `onSubmit`. `user` is the signed-in user, `reply` the outcome of the
     * update or insert, `newId` the id the insert returns, `now` the
     * insert time and `logged` the outcome of the activity insert, which
     * is never inspected.
     */
    method Submit(values: LeadForm, user: Option<string>, reply: Reply, newId: string, now: int, logged: Reply)
      returns (toast: Toast)
      modifies this
      ensures !loading
      ensures user.None? ==>
        leads == old(leads) && activities == old(activities) && open == old(open)
        && successes == old(successes) && toast == Error("Not authenticated")
      ensures user.Some? && reply.Fail? ==>
        leads == old(leads) && activities == old(activities) && open == old(open)
        && successes == old(successes) && toast == Error(reply.message)
      ensures user.Some? && reply.Ok? ==> !open && successes == old(successes) + 1
      ensures user.Some? && reply.Ok? && lead.Some? ==>
        && leads == (if lead.value.id in old(leads)
                     then old(leads)[lead.value.id := ApplyForm(old(leads)[lead.value.id], values)]
                     else old(leads))
        && activities == old(activities) +
             (if logged.Ok? then [Activity(lead.value.id, user, OtherActivity, "Lead updated")] else [])
        && toast == Success("Lead updated successfully")
      ensures user.Some? && reply.Ok? && lead.None? ==>
        && leads == old(leads)[newId := NewLead(newId, values, user.value, now)]
        && activities == old(activities) +
             (if logged.Ok? then [Activity(newId, user, OtherActivity, "Lead created")] else [])
        && toast == Success("Lead created successfully")
    {
      loading := true;
      if user.None? {
        toast := Error("Not authenticated");
      } else if reply.Fail? {
        toast := Error(reply.message);
      } else {
        if lead.Some? {
          var id := lead.value.id;
          if id in leads {
            leads := leads[id := ApplyForm(leads[id], values)];
          }
          if logged.Ok? {
            activities := activities + [Activity(id, user, OtherActivity, "Lead updated")];
          }
          toast := Success("Lead updated successfully");
        } else {
          leads := leads[newId := NewLead(newId, values, user.value, now)];
          if logged.Ok? {
            activities := activities + [Activity(newId, user, OtherActivity, "Lead created")];
          }
          toast := Success("Lead created successfully");
        }
        successes := successes + 1;
        open := false;
      }
      loading := false;
    }
  }
}
