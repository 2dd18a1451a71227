/**
 * Notes on a lead: adding a note (rejecting blank input, storing it
 * trimmed, then logging an activity), deleting after confirmation, and
 * who may delete.
 */
module LeadNotes {
  import opened Wrappers
  import opened Schema
  import opened Text

  /** `user?.id || null`: the current user id, with an empty id treated as absent. */
  function CurrentUserId(user: Option<string>): (r: Option<string>)
    ensures r.Some? <==> Truthy(user)
    ensures r.Some? ==> r == user
  {
    if Truthy(user) then user else None
  }

  /**
   * `currentUserId === note.user_id`: the delete control is shown for one's
   * own notes, and also, when signed out, for notes without an author.
   */
  function CanDelete(currentUserId: Option<string>, note: NoteRow): (r: bool)
    ensures currentUserId.Some? ==> (r <==> note.userId == currentUserId)
    ensures currentUserId.None? ==> (r <==> note.userId.None?)
  {
    currentUserId == note.userId
  }

  /** A signed-in user can delete exactly the notes they wrote. */
  lemma OwnNotesOnly(user: string, note: NoteRow)
    requires user != ""
    ensures CanDelete(CurrentUserId(Some(user)), note) <==> note.userId == Some(user)
  {
  }

  /** The text stored for an accepted note is non-empty and has no white space at either end. */
  lemma StoredNoteIsTrimmed(s: string)
    requires !IsBlank(s)
    ensures Trim(s) != ""
    ensures !IsSpace(Trim(s)[0]) && !IsSpace(Trim(s)[|Trim(s)| - 1])
    ensures Trim(Trim(s)) == Trim(s)
  {
    TrimEmptyIffBlank(s);
    TrimIdempotent(s);
  }

  class Panel {
    const leadId: string
    /** The remote `lead_notes` table, keyed by note id. */
    var notes: map<string, NoteRow>
    /** The remote `lead_activities` table (append only). */
    var activities: seq<Activity>
    var newNote: string
    var currentUserId: Option<string>
    /** How many times the notes were refetched. */
    var refetches: nat

    constructor (leadId: string, rows: map<string, NoteRow>, log: seq<Activity>)
      ensures this.leadId == leadId && notes == rows && activities == log
      ensures newNote == "" && currentUserId == None && refetches == 0
    {
      this.leadId := leadId;
      notes := rows;
      activities := log;
      newNote := "";
      currentUserId := None;
      refetches := 0;
    }

    /** `getCurrentUser`. */
    method LoadCurrentUser(user: Option<string>)
      modifies this`currentUserId
      ensures currentUserId == CurrentUserId(user)
    {
      currentUserId := CurrentUserId(user);
    }

    /** Typing into the note box. */
    method Type(text: string)
      modifies this`newNote
      ensures newNote == text
    {
      newNote := text;
    }

    /**
     * `handleAddNote`. `user` is the signed-in user, `noteId` the id the
     * insert assigns, `reply` its outcome and `logged` the outcome of the
     * activity insert, which is never inspected.
     */
    method HandleAddNote(user: Option<string>, noteId: string, reply: Reply, logged: Reply) returns (toast: Option<Toast>)
      modifies this`notes, this`activities, this`newNote, this`refetches
      ensures IsBlank(old(newNote)) || user.None? || reply.Fail? ==>
        notes == old(notes) && activities == old(activities) && newNote == old(newNote) && refetches == old(refetches)
      ensures IsBlank(old(newNote)) ==> toast == None
      ensures !IsBlank(old(newNote)) && user.None? ==> toast == Some(Error("Not authenticated"))
      ensures !IsBlank(old(newNote)) && user.Some? && reply.Fail? ==> toast == Some(Error(reply.message))
      ensures !IsBlank(old(newNote)) && user.Some? && reply.Ok? ==>
        && notes == old(notes)[noteId := NoteRow(leadId, user, Trim(old(newNote)))]
        && activities == old(activities) + (if logged.Ok? then [Activity(leadId, user, NoteAdded, "Added a new note")] else [])
        && newNote == "" && refetches == old(refetches) + 1
        && toast == Some(Success("Note added successfully"))
    {
      if TrimsToEmpty(newNote) {
        return None;
      }
      if user.None? {
        return Some(Error("Not authenticated"));
      }
      if reply.Fail? {
        return Some(Error(reply.message));
      }
      notes := notes[noteId := NoteRow(leadId, user, Trim(newNote))];
      if logged.Ok? {
        activities := activities + [Activity(leadId, user, NoteAdded, "Added a new note")];
      }
      toast := Some(Success("Note added successfully"));
      newNote := "";
      refetches := refetches + 1;
    }

    /** `handleDeleteNote`, with `confirmed` the answer to the confirmation prompt. */
    method HandleDeleteNote(noteId: string, confirmed: bool, reply: Reply) returns (toast: Option<Toast>)
      modifies this`notes, this`refetches
      ensures !confirmed || reply.Fail? ==> notes == old(notes) && refetches == old(refetches)
      ensures !confirmed ==> toast == None
      ensures confirmed && reply.Fail? ==> toast == Some(Error(reply.message))
      ensures confirmed && reply.Ok? ==>
        notes == old(notes) - {noteId} && refetches == old(refetches) + 1
        && toast == Some(Success("Note deleted successfully"))
    {
      if !confirmed {
        return None;
      }
      if reply.Fail? {
        return Some(Error(reply.message));
      }
      notes := notes - {noteId};
      toast := Some(Success("Note deleted successfully"));
      refetches := refetches + 1;
    }
  }
}
