/** The Admin page of src/app/pages/Admin.tsx: the user search and role filter, the role count cards,
    the role colour and icon, and the recent-activity slice of the audit log. */
module Admin {
  import opened Types
  import Strings
  import Seqs
  import DashboardLayout

  /** The name or the email contains the query (ignoring case), and the role filter is 'all' or the role. */
  predicate UserMatches(u: User, query: string, roleFilter: string) {
    && (Strings.ContainsIgnoringCase(u.name, query) || Strings.ContainsIgnoringCase(u.email, query))
    && (roleFilter == "all" || u.role == roleFilter)
  }

  /** `filteredUsers`: exactly the users that match. */
  function FilteredUsers(users: seq<User>, query: string, roleFilter: string): (r: seq<User>)
    ensures |r| <= |users|
    ensures forall i :: 0 <= i < |r| ==> r[i] in users && UserMatches(r[i], query, roleFilter)
    ensures forall i :: 0 <= i < |users| && UserMatches(users[i], query, roleFilter) ==> users[i] in r
  {
    Seqs.Filter(users, u => UserMatches(u, query, roleFilter))
  }

  /** The filter keeps the users' order. */
  lemma FilteredUsersKeepOrder(a: seq<User>, b: seq<User>, query: string, roleFilter: string)
    ensures FilteredUsers(a + b, query, roleFilter) == FilteredUsers(a, query, roleFilter) + FilteredUsers(b, query, roleFilter)
  {
    Seqs.FilterAppend(a, b, u => UserMatches(u, query, roleFilter));
  }

  /** An empty search with the filter on 'all' (the page's initial state) lists every user. */
  lemma InitialFilterShowsAll(users: seq<User>)
    ensures FilteredUsers(users, "", "all") == users
  {
    forall i | 0 <= i < |users|
      ensures UserMatches(users[i], "", "all")
    {
      Strings.ContainsEmpty(Strings.Lower(users[i].name));
      assert Strings.Lower("") == "";
    }
    Seqs.FilterAll(users, u => UserMatches(u, "", "all"));
  }

  /** The Admins card: roles that CONTAIN 'admin', so super_admin and org_admin count too. */
  predicate CountsAsAdmin(u: User) {
    Strings.Contains(u.role, "admin")
  }

  function AdminCount(users: seq<User>): nat {
    |Seqs.Filter(users, CountsAsAdmin)|
  }

  /** The Analysts card: exactly 'analyst'. */
  function AnalystCount(users: seq<User>): nat {
    |Seqs.Filter(users, (u: User) => u.role == "analyst")|
  }

  /** The Viewers card: exactly 'viewer'. */
  function ViewerCount(users: seq<User>): nat {
    |Seqs.Filter(users, (u: User) => u.role == "viewer")|
  }

  /** The Admins card counts 'admin' and both declared admin tiers. */
  lemma AdminTiersCounted()
    ensures Strings.Contains("admin", "admin")
    ensures Strings.Contains("super_admin", "admin") && Strings.Contains("org_admin", "admin")
  {
    assert "super_admin"[6..] == "admin";
    Strings.ContainsFrom("super_admin", "admin", 6);
    assert "org_admin"[4..] == "admin";
    Strings.ContainsFrom("org_admin", "admin", 4);
  }

  /** Neither 'analyst' nor 'viewer' contains 'admin', so the Admins card never counts a user that the
      Analysts or Viewers card counts. */
  lemma CardRolesNotAdmin()
    ensures !Strings.Contains("analyst", "admin") && !Strings.Contains("viewer", "admin")
  {
    assert "analyst"[1..] == "nalyst" && "nalyst"[1..] == "alyst" && "alyst"[1..] == "lyst";
    Strings.NotContainedInShorter("lyst", "admin");
    assert !("admin" <= "alyst") by { assert "admin"[1] != "alyst"[1]; }
    assert !("admin" <= "nalyst") by { assert "admin"[0] != "nalyst"[0]; }
    assert !("admin" <= "analyst") by { assert "admin"[1] != "analyst"[1]; }
    assert "viewer"[1..] == "iewer" && "iewer"[1..] == "ewer";
    Strings.NotContainedInShorter("ewer", "admin");
    assert !("admin" <= "iewer") by { assert "admin"[0] != "iewer"[0]; }
    assert !("admin" <= "viewer") by { assert "admin"[0] != "viewer"[0]; }
  }

  /** The three role cards count disjoint sets of users, so together they never exceed the total. */
  lemma {:induction false} RoleCardsBounded(users: seq<User>)
    ensures AdminCount(users) + AnalystCount(users) + ViewerCount(users) <= |users|
    decreases |users|
  {
    if users != [] {
      RoleCardsBounded(users[1..]);
      CardRolesNotAdmin();
    }
  }

  /** `getRoleColor`: blue for admin, green for analyst, gray for viewer and for every other role. */
  function RoleColor(role: Role): string {
    if role == "admin" then "bg-blue-100 text-blue-800"
    else if role == "analyst" then "bg-green-100 text-green-800"
    else if role == "viewer" then "bg-gray-100 text-gray-800"
    else "bg-gray-100 text-gray-800"
  }

  lemma RoleColorCases(role: Role)
    ensures RoleColor(role) == "bg-blue-100 text-blue-800" <==> role == "admin"
    ensures RoleColor(role) == "bg-green-100 text-green-800" <==> role == "analyst"
    ensures RoleColor(role) == "bg-gray-100 text-gray-800" <==> role != "admin" && role != "analyst"
  {
  }

  datatype RoleIcon = ShieldIcon | EditIcon | EyeIcon | UsersIcon

  /** `getRoleIcon`. */
  function GetRoleIcon(role: Role): RoleIcon {
    if role == "admin" then ShieldIcon
    else if role == "analyst" then EditIcon
    else if role == "viewer" then EyeIcon
    else UsersIcon
  }

  /** admin, analyst and viewer get three different icons; every other role (the declared admin tiers included)
      gets the default one. */
  lemma RoleIconCases(role: Role)
    ensures GetRoleIcon(role) == UsersIcon <==> role !in {"admin", "analyst", "viewer"}
    ensures GetRoleIcon("admin") != GetRoleIcon("analyst") && GetRoleIcon("analyst") != GetRoleIcon("viewer")
    ensures GetRoleIcon("admin") != GetRoleIcon("viewer")
    ensures GetRoleIcon("super_admin") == UsersIcon && GetRoleIcon("org_admin") == UsersIcon
  {
  }

  /** One row of the user table: name, email, and a role badge with its colour, icon and label. */
  datatype UserRow = UserRow(name: string, email: string, badgeClass: string, icon: RoleIcon, roleLabel: string)

  function Row(u: User): UserRow {
    UserRow(u.name, u.email, RoleColor(u.role), GetRoleIcon(u.role), DashboardLayout.RoleLabel(u.role))
  }

  /** The badge label is the role with only its first '_' turned into a space, as in the layout's badge. */
  lemma RowBadge(u: User)
    ensures '_' !in u.role ==> Row(u).roleLabel == u.role
    ensures '_' in u.role ==> var i := Strings.IndexOf(u.role, '_');
      Row(u).roleLabel == u.role[..i] + " " + u.role[i + 1..]
  {
    DashboardLayout.RoleLabelFirstUnderscore(u.role);
  }

  /** Recent Activity: `mockAuditLogs.slice(0, 5)`. */
  function RecentActivity(logs: seq<AuditLog>): (r: seq<AuditLog>)
    ensures |r| <= 5 && r <= logs
    ensures |logs| >= 5 ==> |r| == 5
    ensures |logs| < 5 ==> r == logs
  {
    Seqs.Take(logs, 5)
  }
}
