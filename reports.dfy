/**
 * The reports page: the lead filter pipeline, the summary statistics, and
 * the export records whose values feed the CSV text.
 */
module Reports {
  import opened Wrappers
  import opened Schema
  import opened Lists
  import opened Text
  import Csv

  /** A lead as the report query returns it, joined with its stage name and assignee name. */
  datatype ReportLead = ReportLead(row: LeadRow, stageName: Option<string>, assigneeName: Option<string>, createdOn: string)

  /** A client joined with its assignee name; `createdOn` is the formatted creation date. */
  datatype ReportClient = ReportClient(row: ClientRow, assigneeName: Option<string>, createdOn: string)

  /** A task joined with its assignee name; `dueOn`/`createdOn` are the formatted dates. */
  datatype ReportTask = ReportTask(row: TaskRow, assigneeName: Option<string>, dueOn: Option<string>, createdOn: string)

  /** The filter controls: optional date bounds (as timestamps) and "all"-or-value selections. */
  datatype ReportFilter = ReportFilter(start: Option<int>, end: Option<int>, status: string, source: string)

  /** The single filters; each is checked only when its control is set. */
  predicate AfterStart(l: ReportLead, f: ReportFilter) { f.start.None? || l.row.createdAt >= f.start.value }
  predicate BeforeEnd(l: ReportLead, f: ReportFilter) { f.end.None? || l.row.createdAt <= f.end.value }
  predicate StatusMatches(l: ReportLead, f: ReportFilter) { l.row.status == f.status }
  predicate SourceMatches(l: ReportLead, f: ReportFilter) { l.row.source == f.source }

  /** The conjunction of the active filters. */
  predicate PassesFilters(l: ReportLead, f: ReportFilter)
  {
    && AfterStart(l, f)
    && BeforeEnd(l, f)
    && (f.status == "all" || StatusMatches(l, f))
    && (f.source == "all" || SourceMatches(l, f))
  }

  /** `filterLeads`: the four optional filters applied one after another; every lead kept passes them all. */
  function FilterLeads(leads: seq<ReportLead>, f: ReportFilter): (r: seq<ReportLead>)
    ensures |r| <= |leads|
    ensures forall l :: l in r ==> l in leads && PassesFilters(l, f)
  {
    var a := if f.start.Some? then Filter(leads, (l: ReportLead) => AfterStart(l, f)) else leads;
    var b := if f.end.Some? then Filter(a, (l: ReportLead) => BeforeEnd(l, f)) else a;
    var c := if f.status != "all" then Filter(b, (l: ReportLead) => StatusMatches(l, f)) else b;
    if f.source != "all" then Filter(c, (l: ReportLead) => SourceMatches(l, f)) else c
  }

  /** The pipeline is one filter by the conjunction of the active filters. */
  lemma FilterLeadsIsConjunction(leads: seq<ReportLead>, f: ReportFilter)
    ensures FilterLeads(leads, f) == Filter(leads, (l: ReportLead) => PassesFilters(l, f))
  {
    var p0 := (l: ReportLead) => true;
    var q1 := (l: ReportLead) => AfterStart(l, f);
    var q2 := (l: ReportLead) => BeforeEnd(l, f);
    var q3 := (l: ReportLead) => StatusMatches(l, f);
    var q4 := (l: ReportLead) => SourceMatches(l, f);
    var p1 := (l: ReportLead) => AfterStart(l, f);
    var p2 := (l: ReportLead) => AfterStart(l, f) && BeforeEnd(l, f);
    var p3 := (l: ReportLead) => p2(l) && (f.status == "all" || StatusMatches(l, f));
    var p4 := (l: ReportLead) => PassesFilters(l, f);
    FilterKeepsAll(leads, p0);
    var a := if f.start.Some? then Filter(leads, q1) else leads;
    FilterStep(leads, leads, p0, f.start.Some?, q1, p1);
    var b := if f.end.Some? then Filter(a, q2) else a;
    FilterStep(leads, a, p1, f.end.Some?, q2, p2);
    var c := if f.status != "all" then Filter(b, q3) else b;
    FilterStep(leads, b, p2, f.status != "all", q3, p3);
    FilterStep(leads, c, p3, f.source != "all", q4, p4);
  }

  /** The filtered leads are an order-preserving sub-list holding exactly the leads that pass every active filter. */
  lemma FilterLeadsMeaning(leads: seq<ReportLead>, f: ReportFilter)
    ensures IsSublist(FilterLeads(leads, f), leads)
    ensures forall l :: l in FilterLeads(leads, f) <==> l in leads && PassesFilters(l, f)
  {
    FilterLeadsIsConjunction(leads, f);
  }

  /** With no active filter the pipeline returns the leads unchanged. */
  lemma NoFilterIsIdentity(leads: seq<ReportLead>)
    ensures FilterLeads(leads, ReportFilter(None, None, "all", "all")) == leads
  {
  }

  /** The statistics cards. */
  datatype Stats = Stats(totalLeads: nat, convertedLeads: nat, totalClients: nat, completedTasks: nat, pendingTasks: nat)

  /** The statuses the statistics cards count. */
  predicate IsConverted(l: ReportLead) { l.row.status == "converted" }
  predicate IsCompleted(t: ReportTask) { t.row.status == "completed" }
  predicate IsPending(t: ReportTask) { t.row.status == "pending" }

  /** `stats`: lead counts over the filtered leads; client and task counts over everything fetched. */
  function ReportStats(leads: seq<ReportLead>, clients: seq<ReportClient>, tasks: seq<ReportTask>, f: ReportFilter): (r: Stats)
    ensures r.totalLeads == |FilterLeads(leads, f)|
    ensures r.convertedLeads == |Filter(FilterLeads(leads, f), IsConverted)|
    ensures r.completedTasks == |Filter(tasks, IsCompleted)|
    ensures r.pendingTasks == |Filter(tasks, IsPending)|
    ensures r.convertedLeads <= r.totalLeads <= |leads|
    ensures r.totalClients == |clients|
    ensures r.completedTasks + r.pendingTasks <= |tasks|
  {
    var filtered := FilterLeads(leads, f);
    FilterLeadsIsConjunction(leads, f);
    DisjointFiltersFit(tasks, IsCompleted, IsPending);
    Stats(|filtered|, |Filter(filtered, IsConverted)|, |clients|, |Filter(tasks, IsCompleted)|, |Filter(tasks, IsPending)|)
  }

  /** The filters change the lead counts only: the client and task counts do not depend on them. */
  lemma StatsIgnoreFiltersForClientsAndTasks(leads: seq<ReportLead>, clients: seq<ReportClient>, tasks: seq<ReportTask>, f: ReportFilter, g: ReportFilter)
    ensures ReportStats(leads, clients, tasks, f).totalClients == ReportStats(leads, clients, tasks, g).totalClients
    ensures ReportStats(leads, clients, tasks, f).completedTasks == ReportStats(leads, clients, tasks, g).completedTasks
    ensures ReportStats(leads, clients, tasks, f).pendingTasks == ReportStats(leads, clients, tasks, g).pendingTasks
  {
  }

  /** `full_name || "Unassigned"`. */
  function AssigneeLabel(name: Option<string>): (r: string)
    ensures r == "Unassigned" <==> name.None? || name.value == "" || name.value == "Unassigned"
    ensures name.Some? && name.value != "" ==> r == name.value
  {
    if name.Some? && name.value != "" then name.value else "Unassigned"
  }

  /** The column headers of the leads report. */
  const LeadHeaders: seq<string> := ["Name", "Email", "Phone", "Company", "Source", "Status", "Stage", "Assigned To", "Created At"]

  /** The column headers of the clients report. */
  const ClientHeaders: seq<string> := ["Name", "Company", "Email", "Phone", "Status", "Assigned To", "Created At"]

  /** The column headers of the tasks report. */
  const TaskHeaders: seq<string> := ["Title", "Description", "Status", "Priority", "Due Date", "Assigned To", "Created At"]

  /** The export record of a lead in `exportLeadsReport`: every column of the report has a value in it. */
  function LeadExportRow(l: ReportLead): (r: Csv.Row)
    ensures forall i :: 0 <= i < |LeadHeaders| ==> Csv.HeaderKey(LeadHeaders[i]) in r
  {
    HeaderKeys();
    map[
      "name" := l.row.name,
      "email" := NullToEmpty(l.row.email),
      "phone" := NullToEmpty(l.row.phone),
      "company" := NullToEmpty(l.row.company),
      "source" := l.row.source,
      "status" := l.row.status,
      "stage" := NullToEmpty(l.stageName),
      "assigned_to" := AssigneeLabel(l.assigneeName),
      "created_at" := l.createdOn]
  }

  /** The export record of a client in `exportClientsReport`: every column of the report has a value in it. */
  function ClientExportRow(c: ReportClient): (r: Csv.Row)
    ensures forall i :: 0 <= i < |ClientHeaders| ==> Csv.HeaderKey(ClientHeaders[i]) in r
  {
    HeaderKeys();
    map[
      "name" := c.row.name,
      "company" := NullToEmpty(c.row.company),
      "email" := NullToEmpty(c.row.email),
      "phone" := NullToEmpty(c.row.phone),
      "status" := c.row.status,
      "assigned_to" := AssigneeLabel(c.assigneeName),
      "created_at" := c.createdOn]
  }

  /** The export record of a task in `exportTasksReport`: every column of the report has a value in it. */
  function TaskExportRow(t: ReportTask): (r: Csv.Row)
    ensures forall i :: 0 <= i < |TaskHeaders| ==> Csv.HeaderKey(TaskHeaders[i]) in r
  {
    HeaderKeys();
    map[
      "title" := t.row.title,
      "description" := NullToEmpty(t.row.description),
      "status" := t.row.status,
      "priority" := t.row.priority,
      "due_date" := NullToEmpty(t.dueOn),
      "assigned_to" := AssigneeLabel(t.assigneeName),
      "created_at" := t.createdOn]
  }

  /** The header keys of the three reports, computed by the header-to-key rule. */
  lemma HeaderKeys()
    ensures Csv.HeaderKey("Name") == "name" && Csv.HeaderKey("Email") == "email"
    ensures Csv.HeaderKey("Phone") == "phone" && Csv.HeaderKey("Company") == "company"
    ensures Csv.HeaderKey("Source") == "source" && Csv.HeaderKey("Status") == "status"
    ensures Csv.HeaderKey("Stage") == "stage" && Csv.HeaderKey("Assigned To") == "assigned_to"
    ensures Csv.HeaderKey("Created At") == "created_at" && Csv.HeaderKey("Title") == "title"
    ensures Csv.HeaderKey("Description") == "description" && Csv.HeaderKey("Priority") == "priority"
    ensures Csv.HeaderKey("Due Date") == "due_date"
  {
    Csv.HeaderKeyIs("Name", "name");
    Csv.HeaderKeyIs("Email", "email");
    Csv.HeaderKeyIs("Phone", "phone");
    Csv.HeaderKeyIs("Company", "company");
    Csv.HeaderKeyIs("Source", "source");
    Csv.HeaderKeyIs("Status", "status");
    Csv.HeaderKeyIs("Stage", "stage");
    Csv.HeaderKeyIs("Assigned To", "assigned_to");
    Csv.HeaderKeyIs("Created At", "created_at");
    Csv.HeaderKeyIs("Title", "title");
    Csv.HeaderKeyIs("Description", "description");
    Csv.HeaderKeyIs("Priority", "priority");
    Csv.HeaderKeyIs("Due Date", "due_date");
  }

  /**
   * Every leads-report header finds its value in the export record: the
   * fields of a lead's line are its export values in header order, with
   * null contact fields and a missing stage empty and a missing assignee
   * "Unassigned".
   */
  lemma LeadLineFields(l: ReportLead)
    ensures Csv.Fields(LeadHeaders, LeadExportRow(l)) ==
      [l.row.name, NullToEmpty(l.row.email), NullToEmpty(l.row.phone), NullToEmpty(l.row.company),
       l.row.source, l.row.status, NullToEmpty(l.stageName), AssigneeLabel(l.assigneeName), l.createdOn]
  {
    HeaderKeys();
  }

  /** Every clients-report header finds its value in the export record. */
  lemma ClientLineFields(c: ReportClient)
    ensures Csv.Fields(ClientHeaders, ClientExportRow(c)) ==
      [c.row.name, NullToEmpty(c.row.company), NullToEmpty(c.row.email), NullToEmpty(c.row.phone),
       c.row.status, AssigneeLabel(c.assigneeName), c.createdOn]
  {
    HeaderKeys();
  }

  /** Every tasks-report header finds its value in the export record. */
  lemma TaskLineFields(t: ReportTask)
    ensures Csv.Fields(TaskHeaders, TaskExportRow(t)) ==
      [t.row.title, NullToEmpty(t.row.description), t.row.status, t.row.priority,
       NullToEmpty(t.dueOn), AssigneeLabel(t.assigneeName), t.createdOn]
  {
    HeaderKeys();
  }

  /** The export records of a list of leads, in order. */
  function LeadExportRows(leads: seq<ReportLead>): (r: seq<Csv.Row>)
    ensures |r| == |leads|
    ensures forall i :: 0 <= i < |leads| ==> r[i] == LeadExportRow(leads[i])
  {
    seq(|leads|, i requires 0 <= i < |leads| => LeadExportRow(leads[i]))
  }

  /** The text of `exportLeadsReport`: the filtered leads, one line each under the lead headers; no leads give the header line alone. */
  function LeadsReportCsv(leads: seq<ReportLead>, f: ReportFilter): (r: string)
    ensures Csv.HeaderLine(LeadHeaders) <= r
    ensures FilterLeads(leads, f) == [] ==> r == Csv.HeaderLine(LeadHeaders)
  {
    Csv.CsvContent(LeadHeaders, LeadExportRows(FilterLeads(leads, f)))
  }

  /** No lead header holds a line feed or a comma. */
  lemma LeadHeadersPlain()
    ensures forall i :: 0 <= i < |LeadHeaders| ==> '\n' !in LeadHeaders[i] && ',' !in LeadHeaders[i]
  {
    forall i | 0 <= i < |LeadHeaders| ensures '\n' !in LeadHeaders[i] && ',' !in LeadHeaders[i] {
      assert LeadHeaders[i] in {"Name", "Email", "Phone", "Company", "Source", "Status", "Stage", "Assigned To", "Created At"};
    }
  }

  /**
   * The leads report has the header line and then exactly one line per
   * filtered lead, in order, provided no exported value holds a line feed.
   */
  lemma LeadsReportLines(leads: seq<ReportLead>, f: ReportFilter)
    requires Csv.ValuesAvoid(LeadExportRows(FilterLeads(leads, f)), '\n')
    ensures var lines := Text.Split(LeadsReportCsv(leads, f), '\n');
      var filtered := FilterLeads(leads, f);
      && |lines| == |filtered| + 1
      && lines[0] == Csv.HeaderLine(LeadHeaders)
      && forall i :: 0 <= i < |filtered| ==> lines[i + 1] == Csv.DataLine(LeadHeaders, LeadExportRow(filtered[i]))
  {
    var rows := LeadExportRows(FilterLeads(leads, f));
    LeadHeadersPlain();
    Csv.CsvLines(LeadHeaders, rows);
  }

  /** The text of `exportClientsReport`: every fetched client under the client headers; no clients give the header line alone. */
  function ClientsReportCsv(clients: seq<ReportClient>): (r: string)
    ensures Csv.HeaderLine(ClientHeaders) <= r
    ensures clients == [] ==> r == Csv.HeaderLine(ClientHeaders)
  {
    Csv.CsvContent(ClientHeaders, seq(|clients|, i requires 0 <= i < |clients| => ClientExportRow(clients[i])))
  }

  /** The text of `exportTasksReport`: every fetched task under the task headers; no tasks give the header line alone. */
  function TasksReportCsv(tasks: seq<ReportTask>): (r: string)
    ensures Csv.HeaderLine(TaskHeaders) <= r
    ensures tasks == [] ==> r == Csv.HeaderLine(TaskHeaders)
  {
    Csv.CsvContent(TaskHeaders, seq(|tasks|, i requires 0 <= i < |tasks| => TaskExportRow(tasks[i])))
  }
}
