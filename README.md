# A verified model of the CRM front end's client-side logic

The system is a small CRM: a pipeline board of leads grouped by stage,
client and task lists with search and filters, notes and activity logs,
a notification drop-down, user administration, a dashboard and a reports
page that exports CSV. Everything it stores lives in a hosted backend. The
front end's own logic is what this project models: how rows are grouped,
filtered and serialised, how forms become row payloads, and in what order
a handler mutates a row, writes the activity log and reports back.

Every remote call is an input of the operation that makes it:
- a mutation's outcome is a `Reply` (`Ok` or `Fail(message)`);
- the signed-in user is an `Option<string>`;
- a fresh row id and the current time are plain parameters;
- the result of the activity-log insert, which the handlers never inspect,
  is the `logged` reply: an activity is appended only when it is `Ok`, and
  the handler continues either way.

Remote tables are `map`s from id to row, held in class fields. Activity
tables are append-only `seq`s. "Refetch", `onUpdate` and `onSuccess`
callbacks are counters. A toast is a returned `Toast` value.

Modules:
- `Wrappers`: `Option`, `Reply`, `Toast`, JavaScript truthiness of an optional string, and the empty-string/null normalisation.
- `Lists`: an order-preserving `Filter` with its algebra, and first-match lookup.
- `Text`: ASCII lower-casing, substring search, replace-first, trim, join and split.
- `Schema`: the database enums with their string tables, and the row shapes.
- One module per component or page.

Two behaviours of the code are worth knowing:
- In `AuthGuard`, an empty `requiredRole` array is a requirement that
  nobody meets, because an array is truthy in JavaScript
  (`AuthGuard.EmptyRoleListDenies`).
- Notification deletion keeps `unreadCount` unchanged, so the counter can
  drift from the true number of unread entries
  (`NotificationCenter.DeleteUnreadOvercounts`).

## Model

| member | source | states |
|---|---|---|
| Wrappers.EmptyToNull | src/components/leads/LeadDialog.tsx:122-126 | a form field becomes null exactly when it is the empty string, and is kept verbatim otherwise |
| Wrappers.NullToEmpty | src/components/leads/LeadDialog.tsx:75-81 | a null row field pre-fills the form with the empty string, any other value verbatim |
| Wrappers.EmptyToNullInverse | src/components/leads/LeadDialog.tsx:75-81 | loading a row into the form and normalising it back gives the original field, for every field that is not the empty string |
| Lists.Filter | src/pages/Reports.tsx:40-60 | `filter` keeps exactly the elements satisfying the predicate, in order: a sub-list with the same multiset restricted to the kept elements, and no longer than the input |
| Lists.FilterConjunction | src/pages/Reports.tsx:40-60 | filtering twice equals filtering once by the conjunction |
| Lists.FilterCommutes | src/pages/Leads.tsx:98-120 | two successive filters may be applied in either order |
| Lists.FilterKeepsAll | src/pages/Leads.tsx:111-117 | a filter whose predicate holds everywhere (the "all" choice) returns its input |
| Lists.FilterSplitsLength | src/pages/Reports.tsx:149-155 | a predicate and its negation split a list's length between them |
| Lists.FilterMonotone | src/pages/Reports.tsx:40-60 | a stronger predicate keeps no more elements |
| Lists.FilterExtensional | src/pages/Reports.tsx:40-60 | predicates that agree on the list's elements filter it identically |
| Lists.FilterStep | src/pages/Reports.tsx:40-60 | one more `filter` step on a conjunctive filter yields the filter by the extended conjunction |
| Lists.DisjointFiltersFit | src/pages/Reports.tsx:149-155 | two predicates that never both hold keep at most the list's length together |
| Lists.FirstIndex | src/pages/Users.tsx:53-56 | `find`: the index of the first match, or the length when nothing matches; no earlier element matches |
| Text.LowerStr | src/pages/Leads.tsx:101-108 | `toLowerCase` keeps the length and lowers each ASCII letter |
| Text.LowerStrIdempotent | src/pages/Leads.tsx:101-108 | lowering twice equals lowering once |
| Text.ContainsAt | src/pages/Leads.tsx:101-108 | a query occurring at some position of the field is included in it |
| Text.ContainsOffset | src/pages/Leads.tsx:101-108 | conversely, an included query occurs at some position of the field |
| Text.ContainsEmpty | src/pages/Clients.tsx:105-110 | every string includes the empty query |
| Text.Contains | src/pages/Clients.tsx:105-110 | `includes`: an included query is never longer than the field, so a longer one never matches |
| Text.ReplaceFirst | src/pages/Leads.tsx:266 | `replace` with a character pattern changes only the first occurrence; the length is kept |
| Text.IndexOf | src/pages/Leads.tsx:266 | the position of the first occurrence, or the length when there is none |
| Text.ReplaceAll | src/pages/Reports.tsx:68 | every occurrence of the character is replaced and nothing else changes |
| Text.TrimEmptyIffBlank | src/components/leads/LeadNotes.tsx:59 | `trim()` is empty exactly when the text is whitespace only |
| Text.TrimsToEmpty | src/components/leads/LeadNotes.tsx:59 | the guard `!s.trim()` holds exactly for whitespace-only text |
| Text.Trim | src/components/leads/LeadNotes.tsx:71 | `trim()` never lengthens the text and leaves no whitespace at either end; with `TrimIsInnerSlice`, it removes exactly the leading and trailing whitespace |
| Text.TrimIsInnerSlice | src/components/leads/LeadNotes.tsx:71 | the trimmed text is the contiguous slice of the original that starts right after its leading whitespace, and everything after it is whitespace |
| Text.TrimIdempotent | src/components/leads/LeadNotes.tsx:71 | trimming twice equals trimming once |
| Text.Split | src/pages/Reports.tsx:64-72 | splitting always gives at least one piece, as `split` does |
| Text.SplitNoSeparator | src/pages/Reports.tsx:64-72 | a string without the separator splits into itself |
| Text.SplitAfterPiece | src/pages/Reports.tsx:64-72 | a separator-free piece followed by the separator splits into that piece followed by the split of the rest |
| Text.SplitJoin | src/pages/Reports.tsx:64-72 | splitting the `join` of separator-free pieces gives the pieces back |
| Text.Join | src/pages/Reports.tsx:64-72 | `join` of no pieces is empty; otherwise the result begins with the first piece |
| Text.JoinAvoids | src/pages/Reports.tsx:64-72 | when every piece is free of a character that the separator lacks, the join is free of it too |
| Text.IndexOfAfter | src/pages/Leads.tsx:266 | a character absent from a prefix is first found right after it |
| Text.Label | src/pages/Leads.tsx:266-269 | the display label keeps the length, turns the first underscore into a space and leaves every other character unchanged |
| Text.LabelAt | src/pages/Leads.tsx:266-269 | `a_b` with no underscore in `a` is labelled `a b` |
| Text.LabelFirstUnderscoreOnly | src/pages/Leads.tsx:266-269 | only the first underscore is replaced: `a_b_c` becomes `a b_c` |
| Schema.RoleName | src/integrations/supabase/types.ts:269 | each role's name is the entry of the `app_role` constant table at the role's position |
| Schema.ParseRole | src/integrations/supabase/types.ts:414 | a string parses as a role iff it is in the constant table, and parsing inverts naming |
| Schema.RoleTableMatchesEnum | src/integrations/supabase/types.ts:414 | the role table has exactly three distinct entries and every role round-trips through its name |
| Schema.StatusName | src/integrations/supabase/types.ts:277 | each lead status is named by its entry in the constant table |
| Schema.ParseStatus | src/integrations/supabase/types.ts:423 | a string parses as a status iff it is in the table; the parse inverts the name |
| Schema.SourceName | src/integrations/supabase/types.ts:270-276 | each lead source is named by its entry in the constant table |
| Schema.ParseSource | src/integrations/supabase/types.ts:415-422 | a string parses as a source iff it is in the table; the parse inverts the name |
| Schema.ActivityTypeName | src/integrations/supabase/types.ts:261-268 | each activity type is named by its entry in the constant table |
| Schema.ParseActivityType | src/integrations/supabase/types.ts:405-413 | a string parses as an activity type iff it is in the table; the parse inverts the name |
| Schema.EnumTablesMatchEnums | src/integrations/supabase/types.ts:402-426 | the status, source and activity tables have 5, 6 and 7 entries and every value round-trips through its name |
| LeadKanban.LeadsByStage | src/components/leads/LeadKanban.tsx:50-52 | a column holds exactly the leads whose `stage_id` is that stage, in order |
| LeadKanban.StageIds | src/components/leads/LeadKanban.tsx:96-97 | the column ids are the loaded stages' ids, in order |
| LeadKanban.Columns | src/components/leads/LeadKanban.tsx:96-97 | one column per loaded stage, each filtered by that stage's id |
| LeadKanban.ColumnMembership | src/components/leads/LeadKanban.tsx:50-52 | a lead is in column i iff its `stage_id` is stage i's id; with distinct stage ids it is in no other column |
| LeadKanban.UnplacedInNoColumn | src/integrations/supabase/types.ts:142 | a lead with a null or unknown `stage_id` is in no column |
| LeadKanban.ColumnsPartitionLeads | src/components/leads/LeadKanban.tsx:96-97 | with distinct stage ids, the column counts plus the unplaced leads add up to all leads |
| LeadKanban.StageName | src/components/leads/LeadKanban.tsx:77 | `stages.find` yields no name exactly when no loaded stage has the id |
| LeadKanban.MoveDescription | src/components/leads/LeadKanban.tsx:77-83 | the activity text begins with "Lead moved to ", and reads "Lead moved to undefined" when the stage is not loaded |
| LeadKanban.MoveDescriptionNamesStage | src/components/leads/LeadKanban.tsx:77-83 | with distinct ids, the activity text is "Lead moved to " followed by the target stage's name |
| LeadKanban.MoveToWonExample | src/components/leads/LeadKanban.tsx:77-83 | dropping on the stage named "Won" records "Lead moved to Won" |
| LeadKanban.MoveToStage | src/components/leads/LeadKanban.tsx:69-72 | the update sets only the dragged lead's `stage_id`; every other row and the key set are unchanged |
| LeadKanban.Board.constructor | src/components/leads/LeadKanban.tsx:33-36 | no stages loaded, nothing dragged, the given tables, no reloads |
| LeadKanban.Board.FetchStages | src/components/leads/LeadKanban.tsx:42-48 | the stages become the query result, in the order the query returned, or empty when the query fails |
| LeadKanban.Board.DragStart | src/components/leads/LeadKanban.tsx:54-56 | the selection becomes exactly the dragged lead, replacing any earlier one |
| LeadKanban.Board.Drop | src/components/leads/LeadKanban.tsx:62-92 | with no selection, nothing changes. Otherwise the selection is cleared on every path. With no user, or a failed update, no row, log or reload changes and an error toast names the cause. On success, only the dragged lead moves, exactly one "Lead moved to" status-change activity is appended when the log insert succeeds, and `onUpdate` runs once whatever the log insert returned |
| AuthGuard.AllowedRoles | src/components/auth/AuthGuard.tsx:51 | a single required role becomes a one-element list; a list is used as given |
| AuthGuard.RoleQuery | src/components/auth/AuthGuard.tsx:53-57 | the query returns rows iff the user holds one of the allowed roles |
| AuthGuard.AfterSession | src/components/auth/AuthGuard.tsx:19-37 | a session sets the user; a null session clears it and navigates to "/auth" once; `loading` and `hasAccess` are untouched |
| AuthGuard.AfterRoleEffect | src/components/auth/AuthGuard.tsx:43-71 | with no user nothing changes (the placeholder stays); with a user, loading ends, no requirement grants access and a failed lookup denies it |
| AuthGuard.Render | src/components/auth/AuthGuard.tsx:74-93 | the placeholder iff loading; access denied iff loaded, a requirement exists and access was not granted |
| AuthGuard.GuardDecision | src/components/auth/AuthGuard.tsx:19-93 | after a session event and the role check: content iff a session exists and either nothing is required or the lookup succeeded and found a required role; access denied in the complementary case with a session; placeholder iff no session, which redirects exactly once |
| AuthGuard.EmptyRoleListDenies | src/components/auth/AuthGuard.tsx:44-51 | an empty required-role list denies every signed-in user |
| AuthGuard.RoleExamples | src/components/auth/AuthGuard.tsx:51-63 | a manager passes a guard for admin or manager; a team member is denied by an admin guard |
| AuthGuard.Guard.constructor | src/components/auth/AuthGuard.tsx:13-16 | no session or user, loading, no access, no navigation |
| AuthGuard.Guard.OnSession | src/components/auth/AuthGuard.tsx:19-37 | both session sources store the session, set or clear the user and push "/auth" exactly when the session is null |
| AuthGuard.Guard.RoleEffect | src/components/auth/AuthGuard.tsx:43-71 | the state after `checkRole` is the one `AfterRoleEffect` describes |
| Csv.HeaderKey | src/pages/Reports.tsx:68 | the row key of a header keeps its length and contains no space |
| Csv.HeaderKeyIs | src/pages/Reports.tsx:68 | a header's key is the header with letters lowered and each space turned into an underscore, position by position |
| Csv.FieldValue | src/pages/Reports.tsx:68 | a missing key yields the empty string, a present one its value |
| Csv.Fields | src/pages/Reports.tsx:66-70 | one field per header, each the row's value under that header's key |
| Csv.QuoteAll | src/pages/Reports.tsx:69 | every field is wrapped in double quotes, position by position |
| Csv.Quote | src/pages/Reports.tsx:69 | a field is its value between two double quotes, with nothing inside changed (embedded quotes are not escaped) |
| Csv.DataLines | src/pages/Reports.tsx:66-71 | one data line per row, in row order |
| Csv.HeaderLine | src/pages/Reports.tsx:65 | the header line is a single line when no header contains a line feed |
| Csv.DataLine | src/pages/Reports.tsx:66-70 | a data line is a single line when no value of the row contains a line feed |
| Csv.DataLineAvoids | src/pages/Reports.tsx:66-70 | helper for `DataLine` and `CsvLines`: a data line avoids any character other than `"` and `,` that no value of the row holds |
| Csv.CsvContent | src/pages/Reports.tsx:64-72 | the content begins with the header line, and is the header line alone when there are no rows |
| Csv.CsvLines | src/pages/Reports.tsx:64-72 | when no header or value contains a line feed, the content splits into the header line followed by one line per row |
| Csv.HeaderLineSplits | src/pages/Reports.tsx:65 | the unquoted header line splits on commas into the headers, when none contains a comma |
| Csv.ParseLastField | src/pages/Reports.tsx:69 | a quoted field without embedded quotes reads back as itself |
| Csv.ParseFieldThenRest | src/pages/Reports.tsx:69-70 | a quoted field followed by a comma reads back as that field followed by the rest |
| Csv.ParseQuotedJoin | src/pages/Reports.tsx:69-70 | a comma-joined list of quoted values without embedded quotes reads back as the values |
| Csv.DataLineRoundTrip | src/pages/Reports.tsx:66-70 | a data line reads back as the row's fields when no value contains a double quote |
| Csv.EmbeddedQuotesCollide | src/pages/Reports.tsx:69 | because embedded quotes are not doubled, two different rows produce the same data line |
| Reports.FilterLeads | src/pages/Reports.tsx:40-60 | the filtered leads are never more than all leads, and every kept lead passes every active filter |
| Reports.FilterLeadsIsConjunction | src/pages/Reports.tsx:40-60 | the four-step chain equals one filter by start date, end date, status and source together |
| Reports.FilterLeadsMeaning | src/pages/Reports.tsx:40-60 | the report keeps exactly the leads passing every active filter, in their original order |
| Reports.NoFilterIsIdentity | src/pages/Reports.tsx:40-60 | with no dates and "all" for status and source every lead is kept |
| Reports.ReportStats | src/pages/Reports.tsx:149-155 | the lead total is the number of filtered leads and the converted count the number of those whose status is "converted"; the completed and pending counts are the numbers of fetched tasks with those statuses; the client total is the client count. Hence converted never exceeds the filtered total, which never exceeds all leads, and completed plus pending never exceed the task count |
| Reports.StatsIgnoreFiltersForClientsAndTasks | src/pages/Reports.tsx:149-155 | the client and task figures do not depend on the lead filters |
| Reports.AssigneeLabel | src/pages/Reports.tsx:100 | a non-empty name is shown as it is; the label is "Unassigned" exactly when the name is missing, empty or itself "Unassigned" |
| Reports.LeadExportRow | src/pages/Reports.tsx:92-102 | every column header of the leads report finds a value in a lead's export record |
| Reports.ClientExportRow | src/pages/Reports.tsx:112-120 | every column header of the clients report finds a value in a client's export record |
| Reports.TaskExportRow | src/pages/Reports.tsx:130-138 | every column header of the tasks report finds a value in a task's export record |
| Reports.HeaderKeys | src/pages/Reports.tsx:68 | each report header maps to the row key the export rows use ("Assigned To" to `assigned_to`, "Due Date" to `due_date`) |
| Reports.LeadLineFields | src/pages/Reports.tsx:90-107 | a lead's data line carries its name, e-mail, phone, company, source, status, stage, assignee and creation date, in header order |
| Reports.ClientLineFields | src/pages/Reports.tsx:111-127 | a client's data line carries its name, e-mail, phone, company, status, assignee and creation date, in header order |
| Reports.TaskLineFields | src/pages/Reports.tsx:129-145 | a task's data line carries its title, description, status, priority, due date, assignee and creation date, in header order |
| Reports.LeadExportRows | src/pages/Reports.tsx:92-102 | one export row per filtered lead, in order |
| Reports.LeadHeadersPlain | src/pages/Reports.tsx:107 | no lead-report header contains a line feed or a comma |
| Reports.LeadsReportLines | src/pages/Reports.tsx:90-109 | when no exported value contains a line feed, the lead report has one line more than there are filtered leads: the header line, then each filtered lead's data line in order |
| Reports.LeadsReportCsv | src/pages/Reports.tsx:90-109 | the leads report begins with the header line, and is the header line alone when no lead passes the filters |
| Reports.ClientsReportCsv | src/pages/Reports.tsx:111-127 | the clients report begins with the header line, and is the header line alone when there are no clients |
| Reports.TasksReportCsv | src/pages/Reports.tsx:129-145 | the tasks report begins with the header line, and is the header line alone when there are no tasks |
| NotificationCenter.ToNotification | src/components/notifications/NotificationCenter.tsx:64-72 | a task's notification carries its id and title; it reads "New Task Assigned" iff the task is pending, otherwise "Task Updated"; it is read iff the task is completed |
| NotificationCenter.FromTasks | src/components/notifications/NotificationCenter.tsx:64-72 | one notification per fetched task, in order |
| NotificationCenter.UnreadAfterFetch | src/components/notifications/NotificationCenter.tsx:75 | after a fetch, the unread count is the number of tasks not completed |
| NotificationCenter.MarkRead | src/components/notifications/NotificationCenter.tsx:82-87 | entries with the id become read; every other entry is unchanged |
| NotificationCenter.MarkAllRead | src/components/notifications/NotificationCenter.tsx:89-93 | every entry becomes read and nothing else changes |
| NotificationCenter.RemoveId | src/components/notifications/NotificationCenter.tsx:95-98 | exactly the entries with the id are removed; the rest keep their order |
| NotificationCenter.MarkReadCount | src/components/notifications/NotificationCenter.tsx:82-87 | marking an id read lowers the true unread count by the number of unread entries with that id |
| NotificationCenter.RemoveIdCount | src/components/notifications/NotificationCenter.tsx:95-98 | deleting an id lowers the true unread count by the number of unread entries with that id |
| NotificationCenter.MarkAllReadCount | src/components/notifications/NotificationCenter.tsx:89-93 | after marking everything read nothing is unread |
| NotificationCenter.BadgeText | src/components/notifications/NotificationCenter.tsx:118-123 | no badge iff the count is not positive; "9+" iff it exceeds nine; otherwise the single digit of the count |
| NotificationCenter.Center.constructor | src/components/notifications/NotificationCenter.tsx:22-24 | an empty list with a zero counter, which agree |
| NotificationCenter.Center.Fetch | src/components/notifications/NotificationCenter.tsx:50-80 | with no user or no data nothing changes; otherwise the list is the mapped tasks and the counter their true unread count |
| NotificationCenter.Center.MarkAsRead | src/components/notifications/NotificationCenter.tsx:82-87 | the entry is marked read and the counter drops by one, never below zero; the counter stays accurate when exactly one unread entry had that id |
| NotificationCenter.Center.MarkAllAsRead | src/components/notifications/NotificationCenter.tsx:89-93 | everything becomes read, the counter becomes zero and agrees with the list |
| NotificationCenter.Center.DeleteNotification | src/components/notifications/NotificationCenter.tsx:95-98 | the entry is removed and the counter is left as it was |
| NotificationCenter.DeleteUnreadOvercounts | src/components/notifications/NotificationCenter.tsx:95-98 | deleting an unread entry lowers the true unread count, which the untouched counter then overstates |
| NotificationCenter.MarkReadAgainUndercounts | src/components/notifications/NotificationCenter.tsx:82-87 | marking an already-read id still decrements the counter, which then understates the true count |
| LeadsPage.FilterLeads | src/pages/Leads.tsx:98-120 | the shown leads are exactly those matching the search, status and assignee filters, in order |
| LeadsPage.FilterLeadsIsConjunction | src/pages/Leads.tsx:98-120 | the three filter steps equal one filter by their conjunction |
| LeadsPage.NoFilterShowsAll | src/pages/Leads.tsx:98-120 | an empty search with "all" status and assignee shows every lead |
| LeadsPage.FiltersCommute | src/pages/Leads.tsx:98-120 | applying the assignee, status and search steps in reverse order gives the same list |
| LeadsPage.SearchIgnoresQueryCase | src/pages/Leads.tsx:101-108 | the search is insensitive to the query's letter case |
| LeadsPage.StatusBadgeVariant | src/pages/Leads.tsx:135-150 | "destructive" iff lost, "secondary" iff contacted, "outline" iff in progress, "default" for every other status |
| LeadsPage.LabelInProgress | src/pages/Leads.tsx:269 | the status `in_progress` is shown as "in progress" |
| LeadsPage.LabelNoUnderscore | src/pages/Leads.tsx:266 | every value without an underscore is displayed unchanged |
| ClientsPage.FilteredClients | src/pages/Clients.tsx:105-113 | the shown clients are exactly those whose name, company or e-mail contains the term, case-insensitively, and whose status matches, in order |
| ClientsPage.EmptyTermMatchesAll | src/pages/Clients.tsx:105-110 | the empty search term matches every client |
| ClientsPage.NoFilterShowsAll | src/pages/Clients.tsx:105-113 | no term and "all" status shows every client |
| ClientsPage.PhoneIsNotSearched | src/pages/Clients.tsx:105-110 | for every client, phone number and term, changing the phone number never changes whether the client matches the search |
| ClientsPage.StatusColor | src/pages/Clients.tsx:115-123 | green iff active, blue iff prospect, red iff former, grey otherwise |
| ClientsPage.Page.constructor | src/pages/Clients.tsx:48-57 | the given table, a closed dialog and no client selected |
| ClientsPage.Page.AskDelete | src/pages/Clients.tsx:216 | the delete button selects the client and opens the dialog |
| ClientsPage.Page.HandleDelete | src/pages/Clients.tsx:84-103 | with no selection nothing changes. Otherwise the dialog closes and the selection clears on every path; a successful delete removes exactly that row and refetches, and a failure keeps the table and shows an error |
| TasksPage.ToggledStatus | src/pages/Tasks.tsx:78 | a completed task becomes pending; any other status becomes completed |
| TasksPage.ToggleTwice | src/pages/Tasks.tsx:78 | toggling a pending or completed task twice restores its status |
| TasksPage.CompletedAt | src/pages/Tasks.tsx:87 | `completed_at` is set to the current time iff the new status is completed, otherwise null |
| TasksPage.UpdateStatus | src/pages/Tasks.tsx:80-88 | only the toggled task's status and completion time change |
| TasksPage.ToggleActivity | src/pages/Tasks.tsx:91-96 | the log entry is a status change on the task by the user, reading "Task marked as " and the new status |
| TasksPage.ToggleSetsCompletedAt | src/pages/Tasks.tsx:78-88 | after a toggle the task is completed iff it has a completion time |
| TasksPage.FilteredTasks | src/pages/Tasks.tsx:107-111 | the shown tasks are exactly those matching the status and priority filters, in order |
| TasksPage.NoFilterShowsAll | src/pages/Tasks.tsx:107-111 | "all" for both filters shows every task |
| TasksPage.PriorityColor | src/pages/Tasks.tsx:113-121 | blue, yellow, orange and red for low, medium, high and urgent respectively, each exclusively; grey otherwise |
| TasksPage.TaskStore.constructor | src/pages/Tasks.tsx:39-45 | the given task table and log, no refetches |
| TasksPage.TaskStore.HandleStatusToggle | src/pages/Tasks.tsx:77-105 | a failed update changes nothing and shows the error. A successful one applies the toggle, appends the status-change entry if the log insert succeeded, refetches once and shows a success toast |
| TaskList.QueryScope | src/components/tasks/TaskList.tsx:41-45 | a lead id takes precedence over a client id; with neither, all tasks are queried |
| TaskList.ScopedTasks | src/components/tasks/TaskList.tsx:35-47 | the fetched tasks are exactly the table's tasks in the scope, in order |
| TaskList.LeadIdWins | src/components/tasks/TaskList.tsx:41-45 | with a lead id, the client id is ignored |
| TaskList.Panel.constructor | src/components/tasks/TaskList.tsx:26-29 | the given scope and store, no tasks shown |
| TaskList.Panel.FetchTasks | src/components/tasks/TaskList.tsx:35-54 | a query error keeps the list and shows "Failed to fetch tasks"; otherwise the list is the scoped tasks |
| TaskList.Panel.HandleStatusToggle | src/components/tasks/TaskList.tsx:56-84 | the same toggle, update, then log, then refetch sequence as the tasks page, on the shared store |
| LeadDialog.ResetForm | src/components/leads/LeadDialog.tsx:68-96 | a new lead gets the defaults; an existing lead pre-fills name, source and status from the row, and e-mail, phone, company, stage and assignee from the row with null shown as "" |
| LeadDialog.FormChoicesAreEnums | src/components/leads/LeadDialog.tsx:31-40 | the form's source and status choices are exactly the database enums |
| LeadDialog.ValidFormWritesEnums | src/components/leads/LeadDialog.tsx:31-40 | a form passing validation carries a valid source, a valid status and a name |
| LeadDialog.ApplyForm | src/components/leads/LeadDialog.tsx:130-143 | an update keeps id, creator and creation time, takes name, source and status, and writes e-mail, phone, company, stage and assignee as typed, with "" written as null |
| LeadDialog.NewLead | src/components/leads/LeadDialog.tsx:156-170 | an insert carries the new id, the creator and the time, takes name, source and status, and writes e-mail, phone, company, stage and assignee as typed, with "" written as null |
| LeadDialog.UnchangedEditKeepsRow | src/components/leads/LeadDialog.tsx:72-143 | opening a row without empty-string fields and saving without edits leaves it unchanged |
| LeadDialog.Dialog.constructor | src/components/leads/LeadDialog.tsx:49-50 | the given lead and tables, open and not loading |
| LeadDialog.Dialog.Submit | src/components/leads/LeadDialog.tsx:114-191 | loading always ends. No user: an authentication error and nothing written. A failed write: its message and nothing written. Success: the update or insert, then an activity if logged, then close and `onSuccess` once |
| ClientDialog.AssigneeToNull | src/components/clients/ClientDialog.tsx:114 | the assignee becomes null exactly for "unassigned" or the empty string |
| ClientDialog.ResetForm | src/components/clients/ClientDialog.tsx:68-95 | a new client gets the defaults; an existing one pre-fills name and status, and company, e-mail, phone, address and notes with null shown as ""; its assignee is pre-filled when set and non-empty, "unassigned" when null |
| ClientDialog.DefaultFormIsUnassigned | src/components/clients/ClientDialog.tsx:56-65 | the default form stores no assignee |
| ClientDialog.NamedDefaultIsValid | src/components/clients/ClientDialog.tsx:32-40 | a create form passes the schema once a name is entered, and writes no assignee |
| ClientDialog.ApplyForm | src/components/clients/ClientDialog.tsx:107-123 | an update keeps id and creator, takes name and status, writes the assignee with "unassigned" and "" as null, and writes company, e-mail, phone, address and notes as typed with "" as null |
| ClientDialog.NewClient | src/components/clients/ClientDialog.tsx:107-142 | an insert records the signed-in user, or null, as creator, writes the assignee with "unassigned" and "" as null, and writes company, e-mail, phone, address and notes as typed with "" as null |
| ClientDialog.UnchangedEditKeepsRow | src/components/clients/ClientDialog.tsx:72-123 | opening a client without empty-string fields, whose assignee is neither "" nor "unassigned", and saving without edits leaves it unchanged; those values are written back as null |
| ClientDialog.Dialog.constructor | src/components/clients/ClientDialog.tsx:50-52 | the given client and tables, open and not loading |
| ClientDialog.Dialog.Submit | src/components/clients/ClientDialog.tsx:102-161 | loading always ends. A failed write shows "Error: " and its message and writes nothing. Success: the update or insert, then an activity if logged, then close and `onSuccess` once |
| TaskDialog.ResetForm | src/components/tasks/TaskDialog.tsx:72-101 | a new task takes the lead and client ids from the props with pending status and medium priority and every other field empty; an existing task pre-fills title, priority and status, and description, due date, assignee, lead and client with null shown as "" |
| TaskDialog.PrefilledFormIsValid | src/components/tasks/TaskDialog.tsx:32-41 | a new task for a lead, once titled, passes validation |
| TaskDialog.ApplyForm | src/components/tasks/TaskDialog.tsx:123-139 | an update keeps id, creator and times, takes title, priority and status, and writes description, due date, assignee, lead and client as typed with "" as null |
| TaskDialog.NewTask | src/components/tasks/TaskDialog.tsx:123-156 | an insert records the creator and time and no completion time, takes title, priority and status, and writes description, due date, assignee, lead and client as typed with "" as null |
| TaskDialog.UnchangedEditKeepsRow | src/components/tasks/TaskDialog.tsx:77-139 | apart from the due date, opening a task whose description, assignee, lead and client are not "" and saving without edits leaves it unchanged |
| TaskDialog.Dialog.constructor | src/components/tasks/TaskDialog.tsx:52-56 | the given task and tables, open and not loading |
| TaskDialog.Dialog.Submit | src/components/tasks/TaskDialog.tsx:118-177 | loading always ends. A failed write shows "Error: " and its message and writes nothing. Success: the update or insert, then an activity if logged, then close and `onSuccess` once |
| UserDialog.ErrorText | src/components/users/UserDialog.tsx:99 | the error toast shows the message when it is non-empty and a fallback otherwise, never empty text |
| UserDialog.Dialog.constructor | src/components/users/UserDialog.tsx:34-40 | empty fields, role team member, status active, open |
| UserDialog.Dialog.SetUser | src/components/users/UserDialog.tsx:42-68 | a user pre-fills e-mail, name and status and takes the fetched role; when the role lookup returns nothing the previous role is kept; no user resets every field |
| UserDialog.Dialog.HandleSubmit | src/components/users/UserDialog.tsx:70-103 | loading always ends. Roles change only after a successful profile update; with no user nothing is written. A failed role upsert keeps the profile change. Success closes the dialog |
| LeadNotes.CurrentUserId | src/components/leads/LeadNotes.tsx:33-36 | the current user id is set exactly when the user id is truthy |
| LeadNotes.CanDelete | src/components/leads/LeadNotes.tsx:146 | a signed-in user sees the delete control exactly on the notes they wrote; a signed-out viewer sees it exactly on notes without an author |
| LeadNotes.OwnNotesOnly | src/components/leads/LeadNotes.tsx:146 | a signed-in user may delete exactly the notes they wrote |
| LeadNotes.StoredNoteIsTrimmed | src/components/leads/LeadNotes.tsx:59-71 | an accepted note is stored non-empty, without surrounding whitespace, and trimming it again changes nothing |
| LeadNotes.Panel.constructor | src/components/leads/LeadNotes.tsx:22-26 | the given tables, an empty draft, no current user |
| LeadNotes.Panel.LoadCurrentUser | src/components/leads/LeadNotes.tsx:33-36 | the current user id is the one `CurrentUserId` gives |
| LeadNotes.Panel.Type | src/components/leads/LeadNotes.tsx:122-125 | the draft is the typed text |
| LeadNotes.Panel.HandleAddNote | src/components/leads/LeadNotes.tsx:58-87 | a blank draft, a missing user or a failed insert writes nothing. Otherwise the trimmed note is stored, a note-added activity is appended if logged, the draft clears and the notes refetch |
| LeadNotes.Panel.HandleDeleteNote | src/components/leads/LeadNotes.tsx:89-100 | an unconfirmed or failed delete keeps the notes; a confirmed success removes exactly that note and refetches |
| ClientNotes.CanDelete | src/components/clients/ClientNotes.tsx:124 | a note may be deleted iff its author is the current user |
| ClientNotes.AuthorlessNotesStay | src/components/clients/ClientNotes.tsx:124 | a note without an author can be deleted by nobody |
| ClientNotes.StoredAsTyped | src/components/clients/ClientNotes.tsx:49-58 | every note that passes the blank check but starts or ends with whitespace differs from its trimmed form; `Panel.InsertNote` stores the draft as typed, not trimmed |
| ClientNotes.Panel.constructor | src/components/clients/ClientNotes.tsx:18-22 | the given tables, an empty draft, not loading, an empty current user id |
| ClientNotes.Panel.LoadCurrentUser | src/components/clients/ClientNotes.tsx:29-32 | the current user id is set only when a user is returned |
| ClientNotes.Panel.Type | src/components/clients/ClientNotes.tsx:103-106 | the draft is the typed text |
| ClientNotes.Panel.HandleAddNote | src/components/clients/ClientNotes.tsx:48-78 | a blank draft does nothing. Otherwise loading ends on every path; a failed insert keeps the notes and reports "Failed to add note: " and the message; success stores the draft as typed, appends a note-added activity if logged and clears the draft |
| ClientNotes.Panel.InsertNote | src/components/clients/ClientNotes.tsx:51-77 | loading ends. A failed insert keeps the notes and the draft and reports "Failed to add note: " and the message. Success stores the draft as typed, appends a note-added activity if logged, clears the draft and refetches |
| ClientNotes.Panel.HandleDeleteNote | src/components/clients/ClientNotes.tsx:80-94 | a failed delete keeps the notes; success removes exactly that note |
| Dashboard.RoleStats | src/pages/Dashboard.tsx:19-24 | the user total is the number of profiles (zero without data); each role count is the number of role rows with that role, zero without data; the three counts add up to the number of role rows |
| Dashboard.RoleCountsCoverRows | src/pages/Dashboard.tsx:21-23 | every role row is counted in exactly one of the three figures |
| Dashboard.TwoRolesCountTwice | src/pages/Dashboard.tsx:19-24 | a user with two role rows is counted under both roles, so the role counts can exceed the user total |
| UsersPage.GetUserRole | src/pages/Users.tsx:53-56 | "No role" iff the user has no role row; otherwise the name of the user's first row |
| UsersPage.FirstRowWins | src/pages/Users.tsx:53-56 | for any list of role rows, the first row for a user decides the role shown, whatever later rows for that user say |
| UsersPage.RoleBadge | src/pages/Users.tsx:122 | the "default" variant iff the role is admin, otherwise "secondary" |
| UsersPage.StatusBadge | src/pages/Users.tsx:127 | the "default" variant iff the status is active, otherwise "secondary" |
| UsersPage.NoRoleIsNotAdmin | src/pages/Users.tsx:53-56 | a user without a role row gets the secondary badge |
| UsersPage.Page.constructor | src/pages/Users.tsx:32-37 | the given profiles, the dialog closed, nobody being edited |
| UsersPage.Page.HandleEdit | src/pages/Users.tsx:71-74 | the user is being edited and the dialog opens |
| UsersPage.Page.HandleDialogClose | src/pages/Users.tsx:76-80 | the dialog closes, nobody is being edited and the data refetches |
| UsersPage.Page.HandleDelete | src/pages/Users.tsx:58-69 | an unconfirmed or failed delete keeps the profiles; a confirmed success removes exactly that profile and refetches |
| ActivityTimeline.ActivityColor | src/components/leads/ActivityTimeline.tsx:48-65 | each of the six named activity types has its own colour, and every other type is grey |
| ActivityTimeline.ColoursSeparateTypes | src/components/leads/ActivityTimeline.tsx:48-65 | distinct named activity types get distinct colours; "other" is grey |
| ActivityTimeline.NoteAddedLabel | src/components/leads/ActivityTimeline.tsx:101 | the type `note_added` is labelled "note added" |
| ActivityTimeline.IndexRangeSize | src/components/leads/ActivityTimeline.tsx:94 | helper for `ConnectorCount`: the index set 0 to n-1 has exactly n elements |
| ActivityTimeline.ConnectorCount | src/components/leads/ActivityTimeline.tsx:94 | every entry but the last draws a connector: count minus one, and none for an empty list |
| ActivityTimeline.Timeline.constructor | src/components/leads/ActivityTimeline.tsx:20-22 | no activities, loading |
| ActivityTimeline.Timeline.FetchActivities | src/components/leads/ActivityTimeline.tsx:28-46 | loading ends; an error keeps the list and reports it; otherwise the list is the data, or empty without data |

## Left out

- Backend calls: sessions, queries, inserts, updates, deletes, `.single()` and the realtime channel of the notification drop-down are not modelled. Each becomes an input of the operation that makes it. Upserts are a map update keyed by user id.
- Query ordering and limits are not modelled: a fetched list is whatever the caller passes. This covers `order(...)` and the notification query's `limit(10)`.
- TaskList.Panel.FetchTasks: the due-date ordering of the query is not modelled; the filter by scope is.
- Dates and times are opaque values: creation times, `now`, the report date range (compared as integers) and report dates already formatted. Two steps are not modelled: the task dialog's conversion of the due date to ISO text and its `slice(0, 16)` when pre-filling the form.
- TaskDialog.UnchangedEditKeepsRow: the due date is excluded, because its text conversion is not modelled.
- TaskDialog.ResetForm: the due date is pre-filled as stored; the conversion to local date-time text and its `slice(0, 16)` are not modelled.
- TaskDialog.ApplyForm: the due date is written as typed, with "" as null; its conversion to ISO text is not modelled.
- TaskDialog.NewTask: the due date is written as typed, with "" as null; its conversion to ISO text is not modelled.
- The browser download of the reports is not modelled; only the CSV content is.
- `confirm()` prompts are not modelled; they become a boolean input.
- Rendering, styling, toasts as UI and the JSX tree are not modelled. A toast is the returned value.
- Routing (src/App.tsx) is not modelled. The layout and sidebar (src/components/layout) are not modelled; the sidebar's `adminOnly` flag is never read there.
- src/pages/Settings.tsx, src/pages/LeadDetails.tsx, src/pages/ClientDetails.tsx and src/components/clients/ClientActivityTimeline.tsx only fetch and render; they are not part of this model.
- The deletion handler of src/pages/Leads.tsx (lines 122-133) is not part of this model.
- Asynchronous races are not modelled: the double session resolution in the guard, and concurrent drags. Callbacks are a sequence of events.
- zod's e-mail format check is not modelled: `Valid` checks only the non-empty and enum rules.
- Unicode `toLowerCase` and `trim` are not modelled: the model lowers ASCII letters and trims ASCII whitespace.
- StatusColor and PriorityColor: a lookup of an inherited object key such as "constructor" is not modelled; such a key is treated as an unknown value.
- Csv.DataLineRoundTrip: the read-back holds only for values without a double quote. Values with one are exported ambiguously (see Csv.EmbeddedQuotesCollide).
- TaskList's own `getPriorityColor` is identical to the tasks page's and is modelled once, as TasksPage.PriorityColor.
- LeadRow's `source` and `status` are non-null strings, as the pages type them; the database allows null.
