/**
 * The user edit dialog: the fields reset whenever the edited user
 * changes, and the submit sequence updates the profile first and the role
 * second, closing the dialog only when nothing failed.
 */
module UserDialog {
  import opened Wrappers
  import opened Schema

  /** The user the dialog edits, as the users page passes it. */
  datatype EditedUser = EditedUser(id: string, email: string, fullName: string, status: string)

  /** `error.message || "An error occurred"`. */
  function ErrorText(message: string): (r: string)
    ensures r != ""
    ensures message != "" ==> r == message
  {
    if message != "" then message else "An error occurred"
  }

  /** The notice shown when the dialog is submitted without a user. */
  const NoUserNotice := "Creating users requires admin privileges. Please use the signup page."

  class Dialog {
    var user: Option<EditedUser>
    var email: string
    var fullName: string
    var password: string
    var role: AppRole
    var status: string
    var loading: bool
    var open: bool
    /** The remote `profiles` table, keyed by id. */
    var profiles: map<string, Profile>
    /** The remote `user_roles` table as the upsert sees it: one role per user id. */
    var roles: map<string, AppRole>

    constructor (profileRows: map<string, Profile>, roleRows: map<string, AppRole>)
      ensures user == None && email == "" && fullName == "" && password == ""
      ensures role == TeamMember && status == "active" && !loading && open
      ensures profiles == profileRows && roles == roleRows
    {
      user := None;
      email := "";
      fullName := "";
      password := "";
      role := TeamMember;
      status := "active";
      loading := false;
      open := true;
      profiles := profileRows;
      roles := roleRows;
    }

    /**
     * The effect run when the `user` prop changes. `fetchedRole` is the
     * role the lookup returned (none when it returned no data).
     */
    method SetUser(u: Option<EditedUser>, fetchedRole: Option<AppRole>)
      modifies this`user, this`email, this`fullName, this`password, this`role, this`status
      ensures user == u
      ensures u.Some? ==>
        email == u.value.email && fullName == u.value.fullName && status == u.value.status
        && password == old(password)
        && role == (if fetchedRole.Some? then fetchedRole.value else old(role))
      ensures u.None? ==>
        email == "" && fullName == "" && password == "" && role == TeamMember && status == "active"
    {
      user := u;
      if u.Some? {
        email := u.value.email;
        fullName := u.value.fullName;
        status := u.value.status;
        if fetchedRole.Some? {
          role := fetchedRole.value;
        }
      } else {
        email := "";
        fullName := "";
        password := "";
        role := TeamMember;
        status := "active";
      }
    }

    /**
     * `handleSubmit`. `profileReply` is the outcome of the profile update and
     * `roleReply` that of the role upsert, attempted only after the profile
     * update succeeded.
     */
    method HandleSubmit(profileReply: Reply, roleReply: Reply) returns (toast: Toast)
      modifies this`profiles, this`roles, this`loading, this`open
      ensures !loading
      ensures roles != old(roles) ==> user.Some? && profileReply.Ok?
      ensures user.None? ==>
        profiles == old(profiles) && roles == old(roles) && !open && toast == Error(NoUserNotice)
      ensures user.Some? && profileReply.Fail? ==>
        profiles == old(profiles) && roles == old(roles) && open == old(open)
        && toast == Error(ErrorText(profileReply.message))
      ensures user.Some? && profileReply.Ok? ==>
        profiles == (if user.value.id in old(profiles)
                     then old(profiles)[user.value.id := old(profiles)[user.value.id].(fullName := fullName, status := Some(status))]
                     else old(profiles))
      ensures user.Some? && profileReply.Ok? && roleReply.Fail? ==>
        roles == old(roles) && open == old(open) && toast == Error(ErrorText(roleReply.message))
      ensures user.Some? && profileReply.Ok? && roleReply.Ok? ==>
        roles == old(roles)[user.value.id := role] && !open && toast == Success("User updated successfully")
    {
      loading := true;
      if user.None? {
        toast := Error(NoUserNotice);
        open := false;
      } else if profileReply.Fail? {
        toast := Error(ErrorText(profileReply.message));
      } else {
        var id := user.value.id;
        if id in profiles {
          profiles := profiles[id := profiles[id].(fullName := fullName, status := Some(status))];
        }
        if roleReply.Fail? {
          toast := Error(ErrorText(roleReply.message));
        } else {
          roles := roles[id := role];
          toast := Success("User updated successfully");
          open := false;
        }
      }
      loading := false;
    }
  }
}
