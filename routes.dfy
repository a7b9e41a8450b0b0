/** The route guards and the dashboard's child routes of src/app/routes.tsx. The guards read the mock store of
    auth.ts: the session is the user `getCurrentUser` yields. */
module Routes {
  import opened Wrappers
  import opened Types
  import Strings
  import MockAuth

  /** What a guard renders: its children, or a `<Navigate replace>` to a path. */
  datatype Guarded = Children | Navigate(to: string)

  const LoginPath: string := "/login"
  const DashboardMainPath: string := "/dashboard/main"

  /** `ProtectedRoute`. */
  function ProtectedRoute(session: Option<User>): Guarded {
    if !MockAuth.IsAuthenticated(session) then Navigate(LoginPath) else Children
  }

  /** `AdminRoute`: the authentication check comes first, then the role check. */
  function AdminRoute(session: Option<User>): Guarded {
    if !MockAuth.IsAuthenticated(session) then Navigate(LoginPath)
    else if !MockAuth.CanAccessAdmin(session) then Navigate(DashboardMainPath)
    else Children
  }

  /** `ProtectedRoute` redirects to the login page exactly when no one is signed in. */
  lemma ProtectedRouteDecision(session: Option<User>)
    ensures ProtectedRoute(session) == Navigate(LoginPath) <==> session.None?
    ensures ProtectedRoute(session) == Children <==> session.Some?
  {
  }

  /** `AdminRoute` sends the signed-out to login, a signed-in non-admin to the main dashboard (not to login),
      and admits exactly the users whose role is 'admin'. */
  lemma AdminRouteDecision(session: Option<User>)
    ensures session.None? ==> AdminRoute(session) == Navigate(LoginPath)
    ensures session.Some? && session.value.role != "admin" ==> AdminRoute(session) == Navigate(DashboardMainPath)
    ensures AdminRoute(session) == Children <==> session.Some? && session.value.role == "admin"
  {
  }

  /** Whatever `AdminRoute` admits, `ProtectedRoute` admits too. */
  lemma AdminAdmittedIsProtected(session: Option<User>)
    ensures AdminRoute(session) == Children ==> ProtectedRoute(session) == Children
  {
  }

  /** The dashboard's pages. */
  datatype Page = MainPage | InventoryPage | OperationsPage | AdminPage

  /** What a URL under /dashboard finally shows: a page, or a redirect. */
  datatype Screen = Show(page: Page) | Redirect(to: string)

  function Guard(g: Guarded, page: Page): Screen {
    match g
    case Children => Show(page)
    case Navigate(to) => Redirect(to)
  }

  /** The children of /dashboard, matched against the path below it (`""` is the index route). Matching is
      case-insensitive, as the router's is by default. */
  function DashboardChild(child: string, session: Option<User>): Screen {
    var c := Strings.Lower(child);
    if c == "" then Redirect(DashboardMainPath)
    else if c == "main" then Show(MainPage)
    else if c == "inventory" then Show(InventoryPage)
    else if c == "operations" then Show(OperationsPage)
    else if c == "admin" || c == "admin/users" then Guard(AdminRoute(session), AdminPage)
    else Redirect(DashboardMainPath)
  }

  /** `/dashboard/<child>`: the layout sits inside `ProtectedRoute`, and the child inside the layout. */
  function Dashboard(child: string, session: Option<User>): Screen {
    match ProtectedRoute(session)
    case Navigate(to) => Redirect(to)
    case Children => DashboardChild(child, session)
  }

  /** The admin page is shown exactly for 'admin' or 'admin/users' to a signed-in user whose role is 'admin'. */
  lemma AdminPageRequiresAdmin(child: string, session: Option<User>)
    ensures Dashboard(child, session) == Show(AdminPage) <==>
      (Strings.Lower(child) == "admin" || Strings.Lower(child) == "admin/users") &&
      session.Some? && session.value.role == "admin"
  {
  }

  /** Signed out, every dashboard URL goes to login. */
  lemma SignedOutGoesToLogin(child: string)
    ensures Dashboard(child, None) == Redirect(LoginPath)
  {
  }

  /** The index and every unknown child redirect to the main dashboard for a signed-in user. */
  lemma UnknownChildRedirects(child: string, session: Option<User>)
    requires session.Some?
    requires Strings.Lower(child) !in {"main", "inventory", "operations", "admin", "admin/users"}
    ensures Dashboard(child, session) == Redirect(DashboardMainPath)
  {
  }

  /** Signed in, a dashboard URL shows a page or redirects to the main dashboard, never to login. */
  lemma SignedInNeverToLogin(child: string, session: Option<User>)
    requires session.Some?
    ensures Dashboard(child, session) != Redirect(LoginPath)
  {
  }
}
