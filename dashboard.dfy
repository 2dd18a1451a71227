/** The dashboard's user statistics. */
module Dashboard {
  import opened Wrappers
  import opened Schema
  import opened Lists

  datatype Stats = Stats(totalUsers: nat, admins: nat, managers: nat, teamMembers: nat)

  /** The number of role rows with the given role. */
  function CountRole(roles: seq<RoleRow>, role: AppRole): nat
  {
    |Filter(roles, (r: RoleRow) => r.role == role)|
  }

  /** `fetchStats`: `profiles?.length || 0` and one `filter(...).length || 0` per role; a failed query counts as nothing. */
  function RoleStats(profiles: Option<seq<Profile>>, roles: Option<seq<RoleRow>>): (r: Stats)
    ensures r.totalUsers == if profiles.Some? then |profiles.value| else 0
    ensures roles.None? ==> r.admins == 0 && r.managers == 0 && r.teamMembers == 0
    ensures roles.Some? ==> r.admins == CountRole(roles.value, Admin) && r.managers == CountRole(roles.value, Manager)
    ensures roles.Some? ==> r.teamMembers == CountRole(roles.value, TeamMember)
    ensures roles.Some? ==> r.admins + r.managers + r.teamMembers == |roles.value|
  {
    var rs := if roles.Some? then roles.value else [];
    RoleCountsCoverRows(rs);
    Stats(if profiles.Some? then |profiles.value| else 0,
          CountRole(rs, Admin), CountRole(rs, Manager), CountRole(rs, TeamMember))
  }

  /** Every role row has one of the three roles, so the three counts add up to the number of rows. */
  lemma {:induction false} RoleCountsCoverRows(roles: seq<RoleRow>)
    ensures CountRole(roles, Admin) + CountRole(roles, Manager) + CountRole(roles, TeamMember) == |roles|
  {
    if roles != [] {
      RoleCountsCoverRows(roles[1..]);
    }
  }

  /** The counts are over role rows, not users: one user with two roles is counted twice. */
  lemma TwoRolesCountTwice()
    ensures var r := RoleStats(Some([Profile("u", "u@example.com", "U", None)]),
                               Some([RoleRow("u", Admin), RoleRow("u", Manager)]));
      r.totalUsers == 1 && r.admins == 1 && r.managers == 1 && r.admins + r.managers + r.teamMembers == 2
  {
    var rows := [RoleRow("u", Admin), RoleRow("u", Manager)];
    assert rows[1..] == [RoleRow("u", Manager)];
    assert CountRole(rows, Admin) == 1;
    assert CountRole(rows, Manager) == 1;
  }
}
