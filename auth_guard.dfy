/**
 * The access guard around protected pages: it waits for a session, checks
 * the user's roles against the required ones, and renders a placeholder,
 * an access-denied page, or the protected content.
 */
module AuthGuard {
  import opened Wrappers
  import opened Schema
  import opened Lists

  /** The `requiredRole` prop: absent, one role, or a list of roles (match any). */
  datatype Requirement = Anyone | OneRole(role: AppRole) | AnyRole(roles: seq<AppRole>)

  /** An authenticated session, reduced to the identity of its user. */
  datatype Session = Session(userId: string)

  /** What the guard renders. */
  datatype View = Placeholder | AccessDenied | Content

  /** The guard's observable state; `redirects` counts navigations to "/auth". */
  datatype GuardState = GuardState(user: Option<string>, loading: bool, hasAccess: bool, redirects: nat)

  /** The allowed roles of a requirement: a single role becomes a one-element list. */
  function AllowedRoles(req: Requirement): (r: seq<AppRole>)
    requires !req.Anyone?
    ensures req.OneRole? ==> r == [req.role]
    ensures req.AnyRole? ==> r == req.roles
  {
    if req.OneRole? then [req.role] else req.roles
  }

  /** The role query: the user's role rows whose role is in the allowed list. */
  function RoleQuery(roles: seq<RoleRow>, userId: string, allowed: seq<AppRole>): (r: seq<RoleRow>)
    ensures |r| > 0 <==> exists row :: row in roles && row.userId == userId && row.role in allowed
  {
    var r := Filter(roles, (row: RoleRow) => row.userId == userId && row.role in allowed);
    assert |r| > 0 ==> r[0] in r;
    r
  }

  /** The state on mount. */
  function Initial(): GuardState
  {
    GuardState(None, true, false, 0)
  }

  /** A session notification, from the subscription or from the initial fetch. */
  function AfterSession(st: GuardState, s: Option<Session>): (r: GuardState)
    ensures r.user.Some? <==> s.Some?
    ensures s.Some? ==> r.user == Some(s.value.userId) && r.redirects == st.redirects
    ensures s.None? ==> r.redirects == st.redirects + 1
    ensures r.loading == st.loading && r.hasAccess == st.hasAccess
  {
    match s
    case None => st.(user := None, redirects := st.redirects + 1)
    case Some(ses) => st.(user := Some(ses.userId))
  }

  /**
   * The role effect: it runs only with a user. Without a requirement access is
   * granted; otherwise access means the query found a row, and an error denies.
   */
  function AfterRoleEffect(st: GuardState, req: Requirement, roles: seq<RoleRow>, lookupFailed: bool): (r: GuardState)
    ensures st.user.None? ==> r == st
    ensures st.user.Some? ==> !r.loading && r.user == st.user && r.redirects == st.redirects
    ensures st.user.Some? && req.Anyone? ==> r.hasAccess
    ensures st.user.Some? && lookupFailed && !req.Anyone? ==> !r.hasAccess
  {
    if st.user.None? then st
    else if req.Anyone? then st.(hasAccess := true, loading := false)
    else if lookupFailed then st.(hasAccess := false, loading := false)
    else st.(hasAccess := |RoleQuery(roles, st.user.value, AllowedRoles(req))| > 0, loading := false)
  }

  /** The render decision: loading, then a requirement without access, then the content. */
  function Render(st: GuardState, req: Requirement): (v: View)
    ensures v == Placeholder <==> st.loading
    ensures v == AccessDenied <==> !st.loading && !st.hasAccess && !req.Anyone?
  {
    if st.loading then Placeholder
    else if !st.hasAccess && !req.Anyone? then AccessDenied
    else Content
  }

  /** The user holds one of the required roles. */
  predicate HoldsRequiredRole(req: Requirement, userId: string, roles: seq<RoleRow>)
    requires !req.Anyone?
  {
    exists row :: row in roles && row.userId == userId && row.role in AllowedRoles(req)
  }

  /**
   * The guard's decision after one session notification and the role check:
   * content iff there is a session and either nothing is required or the
   * lookup succeeded and found a required role; no session leaves the
   * placeholder up and redirects once.
   */
  lemma GuardDecision(req: Requirement, s: Option<Session>, roles: seq<RoleRow>, lookupFailed: bool)
    ensures var v := Render(AfterRoleEffect(AfterSession(Initial(), s), req, roles, lookupFailed), req);
      && (v == Content <==>
            s.Some? && (req.Anyone? || (!lookupFailed && HoldsRequiredRole(req, s.value.userId, roles))))
      && (v == AccessDenied <==>
            s.Some? && !req.Anyone? && (lookupFailed || !HoldsRequiredRole(req, s.value.userId, roles)))
      && (v == Placeholder <==> s.None?)
    ensures AfterRoleEffect(AfterSession(Initial(), s), req, roles, lookupFailed).redirects
            == if s.None? then 1 else 0
  {
  }

  /** An empty role list is still a requirement (an array is truthy) and admits nobody. */
  lemma EmptyRoleListDenies(s: Session, roles: seq<RoleRow>, lookupFailed: bool)
    ensures Render(AfterRoleEffect(AfterSession(Initial(), Some(s)), AnyRole([]), roles, lookupFailed), AnyRole([]))
            == AccessDenied
  {
  }

  /** Example: a manager passes `["admin", "manager"]`; a team member fails `"admin"`. */
  lemma RoleExamples()
    ensures Render(AfterRoleEffect(AfterSession(Initial(), Some(Session("u"))), AnyRole([Admin, Manager]),
                                   [RoleRow("u", Manager)], false), AnyRole([Admin, Manager])) == Content
    ensures Render(AfterRoleEffect(AfterSession(Initial(), Some(Session("u"))), OneRole(Admin),
                                   [RoleRow("u", TeamMember)], false), OneRole(Admin)) == AccessDenied
  {
    assert RoleRow("u", Manager) in [RoleRow("u", Manager)];
  }

  /** The guard component. */
  class Guard {
    const required: Requirement
    var session: Option<Session>
    var user: Option<string>
    var loading: bool
    var hasAccess: bool
    /** Every `navigate` call, in order. */
    var navigations: seq<string>

    function State(): GuardState
      reads this
    {
      GuardState(user, loading, hasAccess, |navigations|)
    }

    function View(): View
      reads this
    {
      Render(State(), required)
    }

    constructor (req: Requirement)
      ensures required == req && session == None
      ensures State() == Initial() && navigations == []
    {
      required := req;
      session := None;
      user := None;
      loading := true;
      hasAccess := false;
      navigations := [];
    }

    /** The `onAuthStateChange` callback and the `getSession` continuation, which do the same. */
    method OnSession(s: Option<Session>)
      modifies this`session, this`user, this`navigations
      ensures session == s
      ensures State() == AfterSession(old(State()), s)
      ensures navigations == old(navigations) + if s.None? then ["/auth"] else []
    {
      session := s;
      user := if s.Some? then Some(s.value.userId) else None;
      if s.None? {
        navigations := navigations + ["/auth"];
      }
    }

    /** The effect on `user`: `checkRole` when a user is set, against the `user_roles` table. */
    method RoleEffect(roles: seq<RoleRow>, lookupFailed: bool)
      modifies this`loading, this`hasAccess
      ensures State() == AfterRoleEffect(old(State()), required, roles, lookupFailed)
    {
      if user.Some? {
        if required.Anyone? {
          hasAccess := true;
          loading := false;
          return;
        }
        var allowed := AllowedRoles(required);
        if lookupFailed {
          hasAccess := false;
        } else {
          var data := RoleQuery(roles, user.value, allowed);
          hasAccess := |data| > 0;
        }
        loading := false;
      }
    }
  }
}
