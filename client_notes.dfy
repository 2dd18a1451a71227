/**
 * Notes on a client: adding a note (rejecting blank input but storing the
 * text as typed, then logging an activity), deleting without
 * confirmation, and who may delete.
 */
module ClientNotes {
  import opened Wrappers
  import opened Schema
  import opened Text

  /** `note.user_id === currentUserId`, where the current id starts as "" and a note's author may be null. */
  predicate CanDelete(currentUserId: string, note: NoteRow)
  {
    note.userId == Some(currentUserId)
  }

  /** Notes without an author can never be deleted from the panel. */
  lemma AuthorlessNotesStay(currentUserId: string, note: NoteRow)
    requires note.userId.None?
    ensures !CanDelete(currentUserId, note)
  {
  }

  /**
   * Unlike lead notes, the stored text keeps its surrounding white space: a
   * note that passes the blank check but starts or ends with white space
   * differs from its trimmed form, which is what a lead note would store.
   */
  lemma StoredAsTyped(s: string)
    requires !IsBlank(s)
    requires IsSpace(s[0]) || IsSpace(s[|s| - 1])
    ensures !TrimsToEmpty(s) && Trim(s) != s
  {
  }

  class Panel {
    const clientId: string
    /** The remote `client_notes` table, keyed by note id. */
    var notes: map<string, NoteRow>
    /** The remote `client_activities` table (append only). */
    var activities: seq<Activity>
    var newNote: string
    var loading: bool
    var currentUserId: string
    /** How many times the notes were refetched. */
    var refetches: nat

    constructor (clientId: string, rows: map<string, NoteRow>, log: seq<Activity>)
      ensures this.clientId == clientId && notes == rows && activities == log
      ensures newNote == "" && !loading && currentUserId == "" && refetches == 0
    {
      this.clientId := clientId;
      notes := rows;
      activities := log;
      newNote := "";
      loading := false;
      currentUserId := "";
      refetches := 0;
    }

    /** `getCurrentUser`: the id is only replaced when a user is signed in. */
    method LoadCurrentUser(user: Option<string>)
      modifies this`currentUserId
      ensures currentUserId == if user.Some? then user.value else old(currentUserId)
    {
      if user.Some? {
        currentUserId := user.value;
      }
    }

    /** Typing into the note box. */
    method Type(text: string)
      modifies this`newNote
      ensures newNote == text
    {
      newNote := text;
    }

    /**
     * `handleAddNote`. `user` is the signed-in user (not required),
     * `noteId` the id the insert assigns, `reply` its outcome and `logged`
     * the outcome of the activity insert, which is never inspected.
     */
    method HandleAddNote(user: Option<string>, noteId: string, reply: Reply, logged: Reply) returns (toast: Option<Toast>)
      modifies this`notes, this`activities, this`newNote, this`refetches, this`loading
      ensures IsBlank(old(newNote)) ==>
        notes == old(notes) && activities == old(activities) && newNote == old(newNote)
        && refetches == old(refetches) && loading == old(loading) && toast == None
      ensures !IsBlank(old(newNote)) ==> !loading
      ensures !IsBlank(old(newNote)) && reply.Fail? ==>
        notes == old(notes) && activities == old(activities) && newNote == old(newNote)
        && refetches == old(refetches) && toast == Some(Error("Failed to add note: " + reply.message))
      ensures !IsBlank(old(newNote)) && reply.Ok? ==>
        && notes == old(notes)[noteId := NoteRow(clientId, user, old(newNote))]
        && activities == old(activities) + (if logged.Ok? then [Activity(clientId, user, NoteAdded, "Added a note")] else [])
        && newNote == "" && refetches == old(refetches) + 1
        && toast == Some(Success("Note added successfully"))
    {
      if TrimsToEmpty(newNote) {
        return None;
      }
      var t := InsertNote(user, noteId, reply, logged);
      toast := Some(t);
    }

    /** The part of `handleAddNote` after the blank check, from `setLoading(true)` to the `finally`. */
    method InsertNote(user: Option<string>, noteId: string, reply: Reply, logged: Reply) returns (toast: Toast)
      modifies this`notes, this`activities, this`newNote, this`refetches, this`loading
      ensures !loading
      ensures reply.Fail? ==>
        notes == old(notes) && activities == old(activities) && newNote == old(newNote)
        && refetches == old(refetches) && toast == Error("Failed to add note: " + reply.message)
      ensures reply.Ok? ==>
        && notes == old(notes)[noteId := NoteRow(clientId, user, old(newNote))]
        && activities == old(activities) + (if logged.Ok? then [Activity(clientId, user, NoteAdded, "Added a note")] else [])
        && newNote == "" && refetches == old(refetches) + 1
        && toast == Success("Note added successfully")
    {
      loading := true;
      if reply.Fail? {
        toast := Error("Failed to add note: " + reply.message);
      } else {
        notes := notes[noteId := NoteRow(clientId, user, newNote)];
        if logged.Ok? {
          activities := activities + [Activity(clientId, user, NoteAdded, "Added a note")];
        }
        newNote := "";
        refetches := refetches + 1;
        toast := Success("Note added successfully");
      }
      loading := false;
    }

    /** `handleDeleteNote`: no confirmation; a refetch only on success. */
    method HandleDeleteNote(noteId: string, reply: Reply) returns (toast: Toast)
      modifies this`notes, this`refetches
      ensures reply.Fail? ==>
        notes == old(notes) && refetches == old(refetches) && toast == Error("Failed to delete note: " + reply.message)
      ensures reply.Ok? ==>
        notes == old(notes) - {noteId} && refetches == old(refetches) + 1 && toast == Success("Note deleted successfully")
    {
      if reply.Fail? {
        return Error("Failed to delete note: " + reply.message);
      }
      notes := notes - {noteId};
      refetches := refetches + 1;
      toast := Success("Note deleted successfully");
    }
  }
}
