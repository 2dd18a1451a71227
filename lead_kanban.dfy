/**
 * The pipeline board: leads grouped into one column per stage, and a
 * drag-and-drop handler that moves the dragged lead to the stage it is
 * dropped on and records the move in the lead's activity log.
 */
module LeadKanban {
  import opened Wrappers
  import opened Schema
  import opened Lists

  /** `getLeadsByStage`: the leads whose `stage_id` is the given stage, in board order. */
  function LeadsByStage(leads: seq<LeadRow>, stageId: string): (r: seq<LeadRow>)
    ensures forall l :: l in r <==> l in leads && l.stageId == Some(stageId)
    ensures IsSublist(r, leads)
  {
    Filter(leads, (l: LeadRow) => l.stageId == Some(stageId))
  }

  /** The ids of the loaded stages, in column order. */
  function StageIds(stages: seq<StageRow>): (r: seq<string>)
    ensures |r| == |stages|
    ensures forall i :: 0 <= i < |stages| ==> r[i] == stages[i].id
  {
    seq(|stages|, i requires 0 <= i < |stages| => stages[i].id)
  }

  /** No two loaded stages share an id. */
  predicate DistinctIds(stages: seq<StageRow>)
  {
    forall i, j :: 0 <= i < j < |stages| ==> stages[i].id != stages[j].id
  }

  /** A lead is shown on the board when its `stage_id` is one of the loaded stages. */
  predicate Placed(stages: seq<StageRow>, l: LeadRow)
  {
    l.stageId.Some? && l.stageId.value in StageIds(stages)
  }

  /** The columns the board renders: one per loaded stage, in stage order. */
  function Columns(stages: seq<StageRow>, leads: seq<LeadRow>): (r: seq<seq<LeadRow>>)
    ensures |r| == |stages|
    ensures forall i :: 0 <= i < |stages| ==> r[i] == LeadsByStage(leads, stages[i].id)
  {
    seq(|stages|, i requires 0 <= i < |stages| => LeadsByStage(leads, stages[i].id))
  }

  /** A lead is in column `i` exactly when its `stage_id` is that column's id; with distinct ids, in at most one. */
  lemma ColumnMembership(stages: seq<StageRow>, leads: seq<LeadRow>, l: LeadRow, i: nat)
    requires i < |stages|
    ensures l in Columns(stages, leads)[i] <==> l in leads && l.stageId == Some(stages[i].id)
    ensures DistinctIds(stages) && l in Columns(stages, leads)[i] ==>
      forall j :: 0 <= j < |stages| && j != i ==> l !in Columns(stages, leads)[j]
  {
  }

  /** A lead with a null or unknown `stage_id` appears in no column. */
  lemma UnplacedInNoColumn(stages: seq<StageRow>, leads: seq<LeadRow>, l: LeadRow)
    requires !Placed(stages, l)
    ensures forall i :: 0 <= i < |stages| ==> l !in Columns(stages, leads)[i]
  {
    forall i | 0 <= i < |stages|
      ensures l !in Columns(stages, leads)[i]
    {
      assert StageIds(stages)[i] == stages[i].id;
    }
  }

  /** The sum of the column sizes (the badge counts). */
  function ColumnTotal(stages: seq<StageRow>, leads: seq<LeadRow>): nat
    decreases |stages|
  {
    if stages == [] then 0
    else |LeadsByStage(leads, stages[0].id)| + ColumnTotal(stages[1..], leads)
  }

  /** The leads the board does not show. */
  function Unplaced(stages: seq<StageRow>, leads: seq<LeadRow>): seq<LeadRow>
  {
    Filter(leads, (l: LeadRow) => !Placed(stages, l))
  }

  /**
   * With distinct stage ids the columns partition the placed leads: the
   * column counts plus the hidden leads add up to all leads.
   */
  lemma {:induction false} ColumnsPartitionLeads(stages: seq<StageRow>, leads: seq<LeadRow>)
    requires DistinctIds(stages)
    ensures ColumnTotal(stages, leads) + |Unplaced(stages, leads)| == |leads|
  {
    if stages == [] {
      FilterKeepsAll(leads, (l: LeadRow) => !Placed(stages, l));
    } else {
      var rest := stages[1..];
      var s := stages[0];
      assert DistinctIds(rest);
      ColumnsPartitionLeads(rest, leads);
      assert StageIds(stages) == [s.id] + StageIds(rest);
      assert s.id !in StageIds(rest) by {
        forall j | 0 <= j < |rest| ensures StageIds(rest)[j] != s.id {
          assert rest[j] == stages[j + 1];
        }
      }
      var notRest := (l: LeadRow) => !Placed(rest, l);
      var atS := (l: LeadRow) => l.stageId == Some(s.id);
      var notAtS := (l: LeadRow) => !(l.stageId == Some(s.id));
      var notAll := (l: LeadRow) => !Placed(stages, l);
      FilterSplitsLength(Filter(leads, notRest), atS, notAtS);
      FilterConjunction(leads, notRest, atS, atS);
      FilterConjunction(leads, notRest, notAtS, notAll);
    }
  }

  /** The name of the first loaded stage with the given id (`stages.find`). */
  function StageName(stages: seq<StageRow>, stageId: string): (r: Option<string>)
    ensures r.None? <==> stageId !in StageIds(stages)
  {
    var k := FirstIndex(stages, (s: StageRow) => s.id == stageId);
    if k < |stages| then Some(stages[k].name) else None
  }

  /** The activity text for a move; an unknown stage prints as `undefined`, as template literals do. */
  function MoveDescription(stages: seq<StageRow>, stageId: string): (r: string)
    ensures "Lead moved to " <= r
    ensures stageId !in StageIds(stages) ==> r == "Lead moved to undefined"
  {
    "Lead moved to " + (match StageName(stages, stageId) case Some(n) => n case None => "undefined")
  }

  /** With distinct ids, the move text names exactly the stage dropped on. */
  lemma MoveDescriptionNamesStage(stages: seq<StageRow>, i: nat)
    requires i < |stages| && DistinctIds(stages)
    ensures MoveDescription(stages, stages[i].id) == "Lead moved to " + stages[i].name
  {
    var k := FirstIndex(stages, (s: StageRow) => s.id == stages[i].id);
    assert k <= i;
  }

  /** The worked example: moving to stage `s2` named "Won" records "Lead moved to Won". */
  lemma MoveToWonExample()
    ensures MoveDescription([StageRow("s1", "New", None, 0), StageRow("s2", "Won", None, 1)], "s2")
         == "Lead moved to Won"
  {
    MoveDescriptionNamesStage([StageRow("s1", "New", None, 0), StageRow("s2", "Won", None, 1)], 1);
  }

  /** The remote update `update({ stage_id }).eq("id", leadId)`: only that row's stage changes. */
  function MoveToStage(rows: map<string, LeadRow>, leadId: string, stageId: string): (r: map<string, LeadRow>)
    ensures r.Keys == rows.Keys
    ensures leadId in rows ==> r[leadId] == rows[leadId].(stageId := Some(stageId))
    ensures forall k :: k in rows && k != leadId ==> r[k] == rows[k]
  {
    if leadId in rows then rows[leadId := rows[leadId].(stageId := Some(stageId))] else rows
  }

  /** The board component with its transient drag selection and the remote tables it writes. */
  class Board {
    var stages: seq<StageRow>
    var draggedLead: Option<string>
    /** The remote `leads` table, keyed by id. */
    var leadRows: map<string, LeadRow>
    /** The remote `lead_activities` table (append only). */
    var activities: seq<Activity>
    /** How many times the board has called its `onUpdate` callback. */
    var reloads: nat

    constructor (rows: map<string, LeadRow>, log: seq<Activity>)
      ensures stages == [] && draggedLead == None
      ensures leadRows == rows && activities == log && reloads == 0
    {
      stages := [];
      draggedLead := None;
      leadRows := rows;
      activities := log;
      reloads := 0;
    }

    /** `fetchStages`: the columns are the fetched stages, in the order the query returned them; a failed query (`data` null) leaves an empty board. */
    method FetchStages(data: Option<seq<StageRow>>)
      modifies this`stages
      ensures stages == if data.Some? then data.value else []
    {
      stages := if data.Some? then data.value else [];
    }

    /** `handleDragStart`: the selection becomes exactly this lead, replacing any earlier one. */
    method DragStart(leadId: string)
      modifies this`draggedLead
      ensures draggedLead == Some(leadId)
    {
      draggedLead := Some(leadId);
    }

    /**
     * `handleDrop`. `user` is the signed-in user, `update` the reply to the
     * stage update and `logged` the reply to the activity insert, whose
     * outcome the handler never inspects. Returns the toast shown, if any.
     */
    method Drop(stageId: string, user: Option<string>, update: Reply, logged: Reply) returns (toast: Option<Toast>)
      modifies this`draggedLead, this`leadRows, this`activities, this`reloads
      ensures !Truthy(old(draggedLead)) ==>
        draggedLead == old(draggedLead) && leadRows == old(leadRows) && activities == old(activities)
        && reloads == old(reloads) && toast == None
      ensures Truthy(old(draggedLead)) ==> draggedLead == None
      ensures Truthy(old(draggedLead)) && user.None? ==>
        leadRows == old(leadRows) && activities == old(activities) && reloads == old(reloads)
        && toast == Some(Error("Not authenticated"))
      ensures Truthy(old(draggedLead)) && user.Some? && update.Fail? ==>
        leadRows == old(leadRows) && activities == old(activities) && reloads == old(reloads)
        && toast == Some(Error(update.message))
      ensures Truthy(old(draggedLead)) && user.Some? && update.Ok? ==>
        && leadRows == MoveToStage(old(leadRows), old(draggedLead).value, stageId)
        && activities == old(activities) +
             (if logged.Ok? then [Activity(old(draggedLead).value, user, StatusChange, MoveDescription(stages, stageId))] else [])
        && reloads == old(reloads) + 1
        && toast == Some(Success("Lead moved successfully"))
    {
      if !Truthy(draggedLead) {
        return None;
      }
      var leadId := draggedLead.value;
      if user.None? {
        toast := Some(Error("Not authenticated"));
      } else if update.Fail? {
        toast := Some(Error(update.message));
      } else {
        leadRows := MoveToStage(leadRows, leadId, stageId);
        if logged.Ok? {
          activities := activities + [Activity(leadId, user, StatusChange, MoveDescription(stages, stageId))];
        }
        reloads := reloads + 1;
        toast := Some(Success("Lead moved successfully"));
      }
      draggedLead := None;
    }
  }
}
