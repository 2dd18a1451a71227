/** A lead's activity timeline: dot colours, type labels, connectors, and the fetch. */
module ActivityTimeline {
  import opened Wrappers
  import opened Schema
  import opened Text

  /** `getActivityColor`. */
  function ActivityColor(kind: string): (r: string)
    ensures kind == "status_change" <==> r == "bg-blue-500"
    ensures kind == "assignment" <==> r == "bg-purple-500"
    ensures kind == "note_added" <==> r == "bg-green-500"
    ensures kind == "email_sent" <==> r == "bg-yellow-500"
    ensures kind == "call_made" <==> r == "bg-orange-500"
    ensures kind == "meeting_scheduled" <==> r == "bg-pink-500"
    ensures kind !in {"status_change", "assignment", "note_added", "email_sent", "call_made", "meeting_scheduled"}
      <==> r == "bg-gray-500"
  {
    match kind
    case "status_change" => "bg-blue-500"
    case "assignment" => "bg-purple-500"
    case "note_added" => "bg-green-500"
    case "email_sent" => "bg-yellow-500"
    case "call_made" => "bg-orange-500"
    case "meeting_scheduled" => "bg-pink-500"
    case _ => "bg-gray-500"
  }

  /** Distinct activity types other than "other" get distinct colours, and "other" is gray. */
  lemma ColoursSeparateTypes(t: ActivityType, u: ActivityType)
    ensures t != u && t != OtherActivity && u != OtherActivity ==>
      ActivityColor(ActivityTypeName(t)) != ActivityColor(ActivityTypeName(u))
    ensures ActivityColor(ActivityTypeName(OtherActivity)) == "bg-gray-500"
  {
  }

  /** The type badge reads the type with its first underscore as a space. */
  lemma NoteAddedLabel()
    ensures Label("note_added") == "note added"
  {
    assert "note" + "_" + "added" == "note_added";
    assert "note" + " " + "added" == "note added";
    LabelAt("note", "added");
  }

  /** `index < activities.length - 1`: a connector below every item but the last. */
  predicate HasConnector(index: nat, count: nat)
  {
    index < count - 1
  }

  /** An item index of a list of `count` items; a named predicate so that set comprehensions over indices have a trigger. */
  predicate IsIndex(i: nat, count: nat)
  {
    i < count
  }

  /** There are `n` indices below `n`. */
  lemma {:induction false} IndexRangeSize(n: nat)
    ensures |set i: nat | i < n && IsIndex(i, n)| == n
  {
    if n > 0 {
      IndexRangeSize(n - 1);
      var m := n - 1;
      assert (set i: nat | i < n && IsIndex(i, n)) == (set i: nat | i < m && IsIndex(i, m)) + {m};
    }
  }

  /** A list of `count` items draws `count - 1` connectors, none for an empty list. */
  lemma ConnectorCount(count: nat)
    ensures |set i: nat | i < count && HasConnector(i, count)| == if count == 0 then 0 else count - 1
  {
    if count == 0 {
      assert (set i: nat | i < count && HasConnector(i, count)) == {};
    } else {
      var m := count - 1;
      assert (set i: nat | i < count && HasConnector(i, count)) == (set i: nat | i < m && IsIndex(i, m));
      IndexRangeSize(m);
    }
  }

  class Timeline {
    const leadId: string
    var activities: seq<Activity>
    var loading: bool

    constructor (leadId: string)
      ensures this.leadId == leadId && activities == [] && loading
    {
      this.leadId := leadId;
      activities := [];
      loading := true;
    }

    /** `fetchActivities`: `error` is the query's error and `data` its rows (null read as none). */
    method FetchActivities(error: Option<string>, data: Option<seq<Activity>>) returns (toast: Option<Toast>)
      modifies this
      ensures !loading
      ensures error.Some? ==> activities == old(activities) && toast == Some(Error("Failed to fetch activities: " + error.value))
      ensures error.None? ==> activities == (if data.Some? then data.value else []) && toast == None
    {
      if error.Some? {
        toast := Some(Error("Failed to fetch activities: " + error.value));
      } else {
        activities := if data.Some? then data.value else [];
        toast := None;
      }
      loading := false;
    }
  }
}
