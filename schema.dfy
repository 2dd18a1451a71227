/**
 * The database schema the client relies on: the four enumerations, the
 * `Constants` table that lists their values at run time, and the row shapes
 * of the tables the components read and write.
 */
module Schema {
  import opened Wrappers

  /** `app_role`. */
  datatype AppRole = Admin | Manager | TeamMember

  /** `lead_status`. */
  datatype LeadStatus = New | Contacted | InProgress | Converted | Lost

  /** `lead_source`. */
  datatype LeadSource = Website | Referral | SocialMedia | EmailSource | PhoneSource | OtherSource

  /** `activity_type`. */
  datatype ActivityType =
    StatusChange | Assignment | NoteAdded | EmailSent | CallMade | MeetingScheduled | OtherActivity

  /** `Constants.public.Enums.app_role`. */
  const AppRoleValues: seq<string> := ["admin", "manager", "team_member"]

  /** `Constants.public.Enums.lead_status`. */
  const LeadStatusValues: seq<string> := ["new", "contacted", "in_progress", "converted", "lost"]

  /** `Constants.public.Enums.lead_source`. */
  const LeadSourceValues: seq<string> := ["website", "referral", "social_media", "email", "phone", "other"]

  /** `Constants.public.Enums.activity_type`. */
  const ActivityTypeValues: seq<string> :=
    ["status_change", "assignment", "note_added", "email_sent", "call_made", "meeting_scheduled", "other"]

  /** The database spelling of a role; it is the entry of `Constants` at the role's position. */
  function RoleName(r: AppRole): (s: string)
    ensures s in AppRoleValues
    ensures s == AppRoleValues[RoleIndex(r)]
  {
    match r
    case Admin => "admin"
    case Manager => "manager"
    case TeamMember => "team_member"
  }

  /** The position of a role in the declaration of `app_role`. */
  function RoleIndex(r: AppRole): nat
  {
    match r
    case Admin => 0
    case Manager => 1
    case TeamMember => 2
  }

  /** Reading a role back from its database spelling. */
  function ParseRole(s: string): (r: Option<AppRole>)
    ensures r.Some? <==> s in AppRoleValues
    ensures r.Some? ==> RoleName(r.value) == s
  {
    if s == "admin" then Some(Admin)
    else if s == "manager" then Some(Manager)
    else if s == "team_member" then Some(TeamMember)
    else None
  }

  /** `Constants` lists each role exactly once, in declaration order. */
  lemma RoleTableMatchesEnum()
    ensures |AppRoleValues| == 3
    ensures forall r: AppRole :: ParseRole(RoleName(r)) == Some(r)
    ensures forall i, j :: 0 <= i < j < |AppRoleValues| ==> AppRoleValues[i] != AppRoleValues[j]
  {
  }

  /** The database spelling of a lead status, at its declaration position in `Constants`. */
  function StatusName(s: LeadStatus): (r: string)
    ensures r in LeadStatusValues
    ensures r == LeadStatusValues[StatusIndex(s)]
  {
    match s
    case New => "new"
    case Contacted => "contacted"
    case InProgress => "in_progress"
    case Converted => "converted"
    case Lost => "lost"
  }

  /** The position of a status in the declaration of `lead_status`. */
  function StatusIndex(s: LeadStatus): nat
  {
    match s
    case New => 0
    case Contacted => 1
    case InProgress => 2
    case Converted => 3
    case Lost => 4
  }

  /** Reading a lead status back from its database spelling. */
  function ParseStatus(s: string): (r: Option<LeadStatus>)
    ensures r.Some? <==> s in LeadStatusValues
    ensures r.Some? ==> StatusName(r.value) == s
  {
    if s == "new" then Some(New)
    else if s == "contacted" then Some(Contacted)
    else if s == "in_progress" then Some(InProgress)
    else if s == "converted" then Some(Converted)
    else if s == "lost" then Some(Lost)
    else None
  }

  /** The database spelling of a lead source, at its declaration position in `Constants`. */
  function SourceName(s: LeadSource): (r: string)
    ensures r in LeadSourceValues
    ensures r == LeadSourceValues[SourceIndex(s)]
  {
    match s
    case Website => "website"
    case Referral => "referral"
    case SocialMedia => "social_media"
    case EmailSource => "email"
    case PhoneSource => "phone"
    case OtherSource => "other"
  }

  /** The position of a source in the declaration of `lead_source`. */
  function SourceIndex(s: LeadSource): nat
  {
    match s
    case Website => 0
    case Referral => 1
    case SocialMedia => 2
    case EmailSource => 3
    case PhoneSource => 4
    case OtherSource => 5
  }

  /** Reading a lead source back from its database spelling. */
  function ParseSource(s: string): (r: Option<LeadSource>)
    ensures r.Some? <==> s in LeadSourceValues
    ensures r.Some? ==> SourceName(r.value) == s
  {
    if s == "website" then Some(Website)
    else if s == "referral" then Some(Referral)
    else if s == "social_media" then Some(SocialMedia)
    else if s == "email" then Some(EmailSource)
    else if s == "phone" then Some(PhoneSource)
    else if s == "other" then Some(OtherSource)
    else None
  }

  /** The database spelling of an activity type, at its declaration position in `Constants`. */
  function ActivityTypeName(t: ActivityType): (r: string)
    ensures r in ActivityTypeValues
    ensures r == ActivityTypeValues[ActivityTypeIndex(t)]
  {
    match t
    case StatusChange => "status_change"
    case Assignment => "assignment"
    case NoteAdded => "note_added"
    case EmailSent => "email_sent"
    case CallMade => "call_made"
    case MeetingScheduled => "meeting_scheduled"
    case OtherActivity => "other"
  }

  /** The position of an activity type in the declaration of `activity_type`. */
  function ActivityTypeIndex(t: ActivityType): nat
  {
    match t
    case StatusChange => 0
    case Assignment => 1
    case NoteAdded => 2
    case EmailSent => 3
    case CallMade => 4
    case MeetingScheduled => 5
    case OtherActivity => 6
  }

  /** Reading an activity type back from its database spelling. */
  function ParseActivityType(s: string): (r: Option<ActivityType>)
    ensures r.Some? <==> s in ActivityTypeValues
    ensures r.Some? ==> ActivityTypeName(r.value) == s
  {
    if s == "status_change" then Some(StatusChange)
    else if s == "assignment" then Some(Assignment)
    else if s == "note_added" then Some(NoteAdded)
    else if s == "email_sent" then Some(EmailSent)
    else if s == "call_made" then Some(CallMade)
    else if s == "meeting_scheduled" then Some(MeetingScheduled)
    else if s == "other" then Some(OtherActivity)
    else None
  }

  /** `Constants` lists every status, source and activity type exactly once. */
  lemma EnumTablesMatchEnums()
    ensures |LeadStatusValues| == 5 && |LeadSourceValues| == 6 && |ActivityTypeValues| == 7
    ensures forall s: LeadStatus :: ParseStatus(StatusName(s)) == Some(s)
    ensures forall s: LeadSource :: ParseSource(SourceName(s)) == Some(s)
    ensures forall t: ActivityType :: ParseActivityType(ActivityTypeName(t)) == Some(t)
  {
    forall s: LeadStatus ensures ParseStatus(StatusName(s)) == Some(s) {
      match s
      case New => case Contacted => case InProgress => case Converted => case Lost =>
    }
    forall s: LeadSource ensures ParseSource(SourceName(s)) == Some(s) {
      match s
      case Website => case Referral => case SocialMedia => case EmailSource => case PhoneSource => case OtherSource =>
    }
    forall t: ActivityType ensures ParseActivityType(ActivityTypeName(t)) == Some(t) {
      match t
      case StatusChange => case Assignment => case NoteAdded => case EmailSent =>
      case CallMade => case MeetingScheduled => case OtherActivity =>
    }
  }

  /** A `leads` row. `stage_id` is nullable and refers to `lead_stages.id`. */
  datatype LeadRow = LeadRow(
    id: string,
    name: string,
    email: Option<string>,
    phone: Option<string>,
    company: Option<string>,
    source: string,
    status: string,
    stageId: Option<string>,
    assignedUserId: Option<string>,
    createdBy: Option<string>,
    createdAt: int)

  /** A `lead_stages` row; `order_index` orders the pipeline columns. */
  datatype StageRow = StageRow(id: string, name: string, color: Option<string>, orderIndex: int)

  /** A `user_roles` row. A user may have several. */
  datatype RoleRow = RoleRow(userId: string, role: AppRole)

  /** A `profiles` row. */
  datatype Profile = Profile(id: string, email: string, fullName: string, status: Option<string>)

  /** An entry of one of the append-only activity tables (`lead_activities`, `client_activities`, `task_activities`). */
  datatype Activity = Activity(subjectId: string, userId: Option<string>, kind: ActivityType, description: string)

  /** A `clients` row, as the client dialog writes it. */
  datatype ClientRow = ClientRow(
    id: string,
    name: string,
    company: Option<string>,
    email: Option<string>,
    phone: Option<string>,
    address: Option<string>,
    status: string,
    assignedUserId: Option<string>,
    notes: Option<string>,
    createdBy: Option<string>)

  /** A `tasks` row. Timestamps are opaque strings. */
  datatype TaskRow = TaskRow(
    id: string,
    title: string,
    description: Option<string>,
    dueDate: Option<string>,
    priority: string,
    status: string,
    assignedUserId: Option<string>,
    leadId: Option<string>,
    clientId: Option<string>,
    completedAt: Option<string>,
    createdBy: Option<string>,
    createdAt: string)

  /** A `lead_notes` or `client_notes` row; `subjectId` is the lead or client. */
  datatype NoteRow = NoteRow(subjectId: string, userId: Option<string>, note: string)
}
