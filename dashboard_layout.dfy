/** The pure parts of src/app/components/layout/DashboardLayout.tsx: the menu, its "active" test, the redirect
    when no one is signed in, the avatar initials and the role badge. The session is the mock store's. */
module DashboardLayout {
  import opened Wrappers
  import opened Types
  import Strings
  import MockAuth

  datatype Icon = LayoutDashboardIcon | PackageIcon | ActivityIcon | SettingsIcon

  datatype NavEntry = NavEntry(name: string, href: string, icon: Icon)

  /** `navigation`: the three base entries, in this order. */
  const Navigation: seq<NavEntry> := [
    NavEntry("Dashboard", "/dashboard/main", LayoutDashboardIcon),
    NavEntry("Inventory", "/dashboard/inventory", PackageIcon),
    NavEntry("Operations", "/dashboard/operations", ActivityIcon)
  ]

  /** `adminNavigation`. */
  const AdminNavigation: seq<NavEntry> := [NavEntry("Admin Panel", "/dashboard/admin", SettingsIcon)]

  /** `allNavigation`: the base entries, then the admin entry when `canAccessAdmin()`. */
  function AllNavigation(session: Option<User>): (r: seq<NavEntry>)
    ensures |r| >= 3 && r[..3] == Navigation
    ensures |r| == 4 <==> MockAuth.CanAccessAdmin(session)
    ensures |r| == 3 <==> !MockAuth.CanAccessAdmin(session)
    ensures |r| == 4 ==> r[3].name == "Admin Panel" && r[3].href == "/dashboard/admin"
  {
    Navigation + (if MockAuth.CanAccessAdmin(session) then AdminNavigation else [])
  }

  /** The entry's `isActive`: the path is its href, or lies below it. */
  predicate IsNavActive(pathname: string, href: string) {
    pathname == href || Strings.StartsWith(pathname, href + "/")
  }

  /** An entry whose href is only a string prefix of the path is not active: /dashboard/mainx is not under
      /dashboard/main. */
  lemma NotActiveOnBarePrefix()
    ensures !IsNavActive("/dashboard/mainx", "/dashboard/main")
    ensures IsNavActive("/dashboard/main/x", "/dashboard/main")
  {
    assert ("/dashboard/main" + "/")[15] != "/dashboard/mainx"[15];
  }

  lemma ActiveHrefIsPrefix(pathname: string, href: string)
    requires IsNavActive(pathname, href)
    ensures href <= pathname
  {
    if pathname != href {
      assert href <= href + "/";
    }
  }

  /** With the fixed hrefs, at most one menu entry is active for any path. */
  lemma {:induction false} AtMostOneActive(pathname: string, session: Option<User>)
    ensures forall i, j :: 0 <= i < j < |AllNavigation(session)| ==>
      !(IsNavActive(pathname, AllNavigation(session)[i].href) && IsNavActive(pathname, AllNavigation(session)[j].href))
  {
    var nav := AllNavigation(session);
    // The hrefs differ in their twelfth character: 'm', 'i', 'o', 'a'.
    assert forall i :: 0 <= i < |nav| ==> |nav[i].href| > 11;
    assert forall i, j :: 0 <= i < j < |nav| ==> nav[i].href[11] != nav[j].href[11];
    forall i, j | 0 <= i < j < |nav| && IsNavActive(pathname, nav[i].href)
      ensures !IsNavActive(pathname, nav[j].href)
    {
      ActiveHrefIsPrefix(pathname, nav[i].href);
      if IsNavActive(pathname, nav[j].href) {
        ActiveHrefIsPrefix(pathname, nav[j].href);
      }
    }
  }

  /** `user.name.split(' ').map(n => n[0]).join('')`: the first character of each piece; an empty piece
      (from a leading or doubled space) gives `undefined`, which `join` renders as nothing. */
  function Initials(name: string): string {
    FirstChars(Strings.Split(name, ' '))
  }

  function FirstChars(pieces: seq<string>): string
    decreases |pieces|
  {
    if pieces == [] then []
    else (if pieces[0] == [] then [] else [pieces[0][0]]) + FirstChars(pieces[1..])
  }

  /** The characters that begin a word: not a space, and first or right after a space. */
  function WordStarts(s: string, atStart: bool): string
    decreases |s|
  {
    if s == [] then []
    else (if atStart && s[0] != ' ' then [s[0]] else []) + WordStarts(s[1..], s[0] == ' ')
  }

  /** The initials are exactly the word-initial characters of the name, in order. */
  lemma InitialsAreWordStarts(name: string)
    ensures Initials(name) == WordStarts(name, true)
  {
    SplitWordStarts(name);
    var pieces := Strings.Split(name, ' ');
    assert FirstChars(pieces) == FirstChars([pieces[0]]) + FirstChars(pieces[1..]) by {
      assert pieces == [pieces[0]] + pieces[1..];
    }
  }

  lemma {:induction false} SplitWordStarts(s: string)
    ensures var pieces := Strings.Split(s, ' ');
      FirstChars([pieces[0]]) + FirstChars(pieces[1..]) == WordStarts(s, true) &&
      FirstChars(pieces[1..]) == WordStarts(s, false)
    decreases |s|
  {
    if s != [] {
      SplitWordStarts(s[1..]);
      var rest := Strings.Split(s[1..], ' ');
      if s[0] == ' ' {
        assert Strings.Split(s, ' ')[1..] == rest;
        assert FirstChars(rest) == FirstChars([rest[0]]) + FirstChars(rest[1..]) by {
          assert rest == [rest[0]] + rest[1..];
        }
      } else {
        assert Strings.Split(s, ' ')[1..] == rest[1..];
      }
    }
  }

  /** "John Manager" has the initials "JM". */
  lemma InitialsExample()
    ensures Initials("John Manager") == "JM"
  {
    InitialsAreWordStarts("John Manager");
  }

  /** The role badge: `role.replace('_', ' ')`, which replaces only the first underscore. */
  function RoleLabel(role: Role): string {
    Strings.ReplaceFirst(role, '_', ' ')
  }

  /** A role without '_' is shown as it is; otherwise exactly its first '_' becomes a space. */
  lemma RoleLabelFirstUnderscore(role: Role)
    ensures '_' !in role ==> RoleLabel(role) == role
    ensures '_' in role ==> var i := Strings.IndexOf(role, '_');
      RoleLabel(role) == role[..i] + " " + role[i + 1..]
  {
    Strings.ReplaceFirstSpec(role, '_', ' ');
  }

  /** "super_admin" is shown as "super admin", and of "a_b_c" only the first '_' changes. */
  lemma RoleLabelExamples()
    ensures RoleLabel("super_admin") == "super admin"
    ensures RoleLabel("a_b_c") == "a b_c"
  {
    assert "super_admin" == "super" + "_admin";
    Strings.ReplaceFirstAfter("super", "_admin", '_', ' ');
    assert Strings.ReplaceFirst("_admin", '_', ' ') == " admin";
    assert "super" + " admin" == "super admin";
    assert "a_b_c" == "a" + "_b_c";
    Strings.ReplaceFirstAfter("a", "_b_c", '_', ' ');
    assert Strings.ReplaceFirst("_b_c", '_', ' ') == " b_c";
    assert "a" + " b_c" == "a b_c";
  }

  /** What the layout renders: with no user it navigates to /login and renders nothing. */
  datatype LayoutView =
    | RedirectToLogin
    | Shell(navigation: seq<NavEntry>, active: seq<bool>, initials: string, userName: string, email: string, roleBadge: string)

  function Layout(session: Option<User>, pathname: string): LayoutView {
    if session.None? then RedirectToLogin
    else
      var nav := AllNavigation(session);
      var u := session.value;
      Shell(nav, seq(|nav|, i requires 0 <= i < |nav| => IsNavActive(pathname, nav[i].href)),
            Initials(u.name), u.name, u.email, RoleLabel(u.role))
  }

  /** The layout redirects exactly when no one is signed in, and otherwise shows at most one active entry. */
  lemma LayoutDecision(session: Option<User>, pathname: string)
    ensures Layout(session, pathname) == RedirectToLogin <==> session.None?
    ensures session.Some? ==> var v := Layout(session, pathname);
      v.navigation == AllNavigation(session) && |v.active| == |v.navigation| &&
      forall i, j :: 0 <= i < j < |v.active| ==> !(v.active[i] && v.active[j])
  {
    AtMostOneActive(pathname, session);
  }
}
