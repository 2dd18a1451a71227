/** The leads list page: search and filter pipeline, status badge and labels. */
module LeadsPage {
  import opened Wrappers
  import opened Schema
  import opened Lists
  import opened Text

  /** `field?.toLowerCase().includes(query.toLowerCase())` on a nullable field: a null field never matches. */
  predicate FieldMatches(field: Option<string>, query: string)
  {
    field.Some? && Contains(LowerStr(field.value), LowerStr(query))
  }

  /** The search predicate over name, email, phone and company. */
  predicate MatchesSearch(l: LeadRow, query: string)
  {
    || Contains(LowerStr(l.name), LowerStr(query))
    || FieldMatches(l.email, query)
    || FieldMatches(l.phone, query)
    || FieldMatches(l.company, query)
  }

  predicate StatusIs(l: LeadRow, status: string) { l.status == status }

  /** `lead.assigned_user_id === assigneeFilter`: an unassigned lead never equals a selected assignee. */
  predicate AssignedTo(l: LeadRow, assignee: string) { l.assignedUserId == Some(assignee) }

  /** The conjunction of the active filters. */
  predicate Shown(l: LeadRow, query: string, status: string, assignee: string)
  {
    && (query == "" || MatchesSearch(l, query))
    && (status == "all" || StatusIs(l, status))
    && (assignee == "all" || AssignedTo(l, assignee))
  }

  /** `filterLeads`: search, then status, then assignee, each only when set. */
  function FilterLeads(leads: seq<LeadRow>, query: string, status: string, assignee: string): (r: seq<LeadRow>)
    ensures IsSublist(r, leads)
    ensures forall l :: l in r <==> l in leads && Shown(l, query, status, assignee)
  {
    FilterLeadsIsConjunction(leads, query, status, assignee);
    var a := if query != "" then Filter(leads, (l: LeadRow) => MatchesSearch(l, query)) else leads;
    var b := if status != "all" then Filter(a, (l: LeadRow) => StatusIs(l, status)) else a;
    if assignee != "all" then Filter(b, (l: LeadRow) => AssignedTo(l, assignee)) else b
  }

  /** The pipeline as written is a single filter by the conjunction. */
  lemma FilterLeadsIsConjunction(leads: seq<LeadRow>, query: string, status: string, assignee: string)
    ensures
      var a := if query != "" then Filter(leads, (l: LeadRow) => MatchesSearch(l, query)) else leads;
      var b := if status != "all" then Filter(a, (l: LeadRow) => StatusIs(l, status)) else a;
      (if assignee != "all" then Filter(b, (l: LeadRow) => AssignedTo(l, assignee)) else b)
        == Filter(leads, (l: LeadRow) => Shown(l, query, status, assignee))
  {
    var q1 := (l: LeadRow) => MatchesSearch(l, query);
    var q2 := (l: LeadRow) => StatusIs(l, status);
    var q3 := (l: LeadRow) => AssignedTo(l, assignee);
    var p0 := (l: LeadRow) => true;
    var p1 := (l: LeadRow) => query == "" || MatchesSearch(l, query);
    var p2 := (l: LeadRow) => p1(l) && (status == "all" || StatusIs(l, status));
    var p3 := (l: LeadRow) => Shown(l, query, status, assignee);
    FilterKeepsAll(leads, p0);
    var a := if query != "" then Filter(leads, q1) else leads;
    FilterStep(leads, leads, p0, query != "", q1, p1);
    var b := if status != "all" then Filter(a, q2) else a;
    FilterStep(leads, a, p1, status != "all", q2, p2);
    FilterStep(leads, b, p2, assignee != "all", q3, p3);
  }

  /** An empty query with both selections at "all" shows every lead in order. */
  lemma NoFilterShowsAll(leads: seq<LeadRow>)
    ensures FilterLeads(leads, "", "all", "all") == leads
  {
  }

  /** The three filters commute: applying them assignee first, then status, then search gives the same list. */
  lemma FiltersCommute(leads: seq<LeadRow>, query: string, status: string, assignee: string)
    ensures
      var a := if assignee != "all" then Filter(leads, (l: LeadRow) => AssignedTo(l, assignee)) else leads;
      var b := if status != "all" then Filter(a, (l: LeadRow) => StatusIs(l, status)) else a;
      (if query != "" then Filter(b, (l: LeadRow) => MatchesSearch(l, query)) else b)
        == FilterLeads(leads, query, status, assignee)
  {
    FilterLeadsIsConjunction(leads, query, status, assignee);
    var q1 := (l: LeadRow) => AssignedTo(l, assignee);
    var q2 := (l: LeadRow) => StatusIs(l, status);
    var q3 := (l: LeadRow) => MatchesSearch(l, query);
    var p0 := (l: LeadRow) => true;
    var p1 := (l: LeadRow) => assignee == "all" || AssignedTo(l, assignee);
    var p2 := (l: LeadRow) => p1(l) && (status == "all" || StatusIs(l, status));
    var p3 := (l: LeadRow) => p2(l) && (query == "" || MatchesSearch(l, query));
    FilterKeepsAll(leads, p0);
    var a := if assignee != "all" then Filter(leads, q1) else leads;
    FilterStep(leads, leads, p0, assignee != "all", q1, p1);
    var b := if status != "all" then Filter(a, q2) else a;
    FilterStep(leads, a, p1, status != "all", q2, p2);
    FilterStep(leads, b, p2, query != "", q3, p3);
    FilterExtensional(leads, p3, (l: LeadRow) => Shown(l, query, status, assignee));
  }

  /** The search ignores the case of the query. */
  lemma SearchIgnoresQueryCase(l: LeadRow, query: string)
    ensures MatchesSearch(l, LowerStr(query)) == MatchesSearch(l, query)
  {
    LowerStrIdempotent(query);
  }

  /** `getStatusBadgeVariant`. */
  function StatusBadgeVariant(status: string): (r: string)
    ensures r == "destructive" <==> status == "lost"
    ensures r == "secondary" <==> status == "contacted"
    ensures r == "outline" <==> status == "in_progress"
    ensures r == "default" <==> status !in {"lost", "contacted", "in_progress"}
  {
    match status
    case "new" => "default"
    case "contacted" => "secondary"
    case "in_progress" => "outline"
    case "converted" => "default"
    case "lost" => "destructive"
    case _ => "default"
  }

  /** The status label of the list: "in_progress" reads "in progress". */
  lemma LabelInProgress()
    ensures Label("in_progress") == "in progress"
  {
    assert "in" + "_" + "progress" == "in_progress";
    assert "in" + " " + "progress" == "in progress";
    LabelAt("in", "progress");
  }

  /** A source without an underscore is its own label. */
  lemma LabelNoUnderscore(s: string)
    requires '_' !in s
    ensures Label(s) == s
  {
  }
}
