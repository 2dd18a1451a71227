/** The user management page: role lookup, badges, the edit dialog's close, and delete. */
module UsersPage {
  import opened Wrappers
  import opened Schema
  import opened Lists

  /** `userRole?.role || "No role"`: the role of the first role row for the user. */
  function GetUserRole(roles: seq<RoleRow>, userId: string): (r: string)
    ensures r == "No role" <==> forall i :: 0 <= i < |roles| ==> roles[i].userId != userId
    ensures r != "No role" ==>
      var k := FirstIndex(roles, (row: RoleRow) => row.userId == userId);
      k < |roles| && r == RoleName(roles[k].role)
  {
    var k := FirstIndex(roles, (row: RoleRow) => row.userId == userId);
    if k < |roles| then RoleName(roles[k].role) else "No role"
  }

  /** The first role row of a user decides the role shown, whatever later rows for that user say. */
  lemma FirstRowWins(roles: seq<RoleRow>, rest: seq<RoleRow>, userId: string)
    requires forall i :: 0 <= i < |roles| ==> roles[i].userId != userId
    requires |rest| > 0 && rest[0].userId == userId
    ensures GetUserRole(roles + rest, userId) == RoleName(rest[0].role)
  {
    var all := roles + rest;
    var k := FirstIndex(all, (row: RoleRow) => row.userId == userId);
    assert all[|roles|] == rest[0];
    assert k == |roles|;
  }

  /** The role badge: "default" for admins, "secondary" otherwise. */
  function RoleBadge(role: string): (r: string)
    ensures r == "default" <==> role == "admin"
    ensures r != "default" ==> r == "secondary"
  {
    if role == "admin" then "default" else "secondary"
  }

  /** The status badge: "default" for active users, "secondary" otherwise. */
  function StatusBadge(status: string): (r: string)
    ensures r == "default" <==> status == "active"
    ensures r != "default" ==> r == "secondary"
  {
    if status == "active" then "default" else "secondary"
  }

  /** A user with no role row gets the non-admin badge. */
  lemma NoRoleIsNotAdmin(roles: seq<RoleRow>, userId: string)
    requires forall i :: 0 <= i < |roles| ==> roles[i].userId != userId
    ensures RoleBadge(GetUserRole(roles, userId)) == "secondary"
  {
  }

  class Page {
    /** The remote `profiles` table, keyed by id. */
    var profiles: map<string, Profile>
    var dialogOpen: bool
    var editingUser: Option<Profile>
    /** How many times `fetchData` was called after a change. */
    var refetches: nat

    constructor (rows: map<string, Profile>)
      ensures profiles == rows && !dialogOpen && editingUser == None && refetches == 0
    {
      profiles := rows;
      dialogOpen := false;
      editingUser := None;
      refetches := 0;
    }

    /** `handleEdit`. */
    method HandleEdit(user: Profile)
      modifies this`editingUser, this`dialogOpen
      ensures editingUser == Some(user) && dialogOpen
    {
      editingUser := Some(user);
      dialogOpen := true;
    }

    /** `handleDialogClose`: close, forget the edited user, refetch. */
    method HandleDialogClose()
      modifies this`dialogOpen, this`editingUser, this`refetches
      ensures !dialogOpen && editingUser == None && refetches == old(refetches) + 1
    {
      dialogOpen := false;
      editingUser := None;
      refetches := refetches + 1;
    }

    /** `handleDelete`, with `confirmed` the answer to the prompt and `reply` the outcome of the delete. */
    method HandleDelete(userId: string, confirmed: bool, reply: Reply) returns (toast: Option<Toast>)
      modifies this`profiles, this`refetches
      ensures !confirmed || reply.Fail? ==> profiles == old(profiles) && refetches == old(refetches)
      ensures !confirmed ==> toast == None
      ensures confirmed && reply.Fail? ==> toast == Some(Error("Error deleting user"))
      ensures confirmed && reply.Ok? ==>
        profiles == old(profiles) - {userId} && refetches == old(refetches) + 1
        && toast == Some(Success("User deleted successfully"))
    {
      if !confirmed {
        return None;
      }
      if reply.Fail? {
        return Some(Error("Error deleting user"));
      }
      profiles := profiles - {userId};
      toast := Some(Success("User deleted successfully"));
      refetches := refetches + 1;
    }
  }
}
