# North Star Operations — session, routing and list logic in Dafny

This project models the decision logic under the North Star Operations dashboard. The dashboard is a React
and Firebase application for inventory and operations analytics. The model covers:

- **Two session stores.** `auth.ts` is a mock store: a module-level current user mirrored into local storage
  under `'user'`, a fixed table of three mock users, and the role predicates. `AuthContext.tsx` is the
  Firebase-backed provider: two state cells, `user` and `loading`, changed by events.
- **The route guards** `ProtectedRoute` and `AdminRoute`, and how the children of `/dashboard` resolve.
- **The dashboard layout.** The admin-conditional menu, the "active" test for menu entries, the redirect when
  no one is signed in, the avatar initials and the role badge. Also the marketing navbar's links and its
  looser "active" test.
- **The list pages.**
  - Inventory: search and filters, the distinct categories and locations, and the stock status.
  - Admin: user search and role filter, the role count cards, the role colour and icon, and recent activity.
  - Operations: the KPI whitelist, the department list and the department filter.
- **The client-side post-processing of the data API.** The inventory search, the department and date-range
  filters of the operations list, and the dashboard overview.
- **The KPI card's** icon, colour and sign rules.
- **The signup form's** ordered validation and its state around the signup call.

One Dafny module per source file: `Types`, `MockAuth`, `AuthContext`, `Routes`, `DashboardLayout`, `Navbar`,
`Inventory`, `Admin`, `Operations`, `Api`, `KPICard` and `SignupForm`. Three helper modules support them:

- `Wrappers`: `Option` and `Outcome`.
- `Strings`: JavaScript's `toLowerCase`, `includes`, `startsWith`, `trim`, `split` and `replace` on a
  character, over ASCII.
- `Seqs`: an order-keeping `filter`, `new Set` as first-seen de-duplication, and `slice(0, n)`.

How each kind of source code is modelled:

- Code that mutates state is a class.
  - `MockAuth.MockStore` holds the module variable `currentUser` and local storage.
  - `AuthContext.AuthProvider` holds the two React state cells.
  - `SignupForm.Form` holds the form's state cells.
- The React effects and callbacks become event methods. Each one is specified against the pure transition
  function `AuthContext.Step`. Properties over any sequence of events are proved about `AuthContext.Run`.
- `operationsApi.getAll` reassigns `results` through successive filters. It is a method, proved equal to one
  filter by the conjunction of both conditions.
- Everything else is functions over datatypes.

A role is a string, not an enumeration. The declared union has `super_admin`, `org_admin`, `analyst` and
`viewer`, but the running code hands out and checks `'admin'`. Only the exact string `'admin'` passes
`canAccessAdmin`, while the Admins card counts every role that contains `admin`. Both behaviours are kept.

Other behaviours that look unintended are also kept as written, and each has a lemma:

- every fast-built user gets the role 'admin' (`AuthContext.BuildUserFastIsAdmin`);
- a profile read that settles after logout signs the user back in (`AuthContext.EnrichmentAfterLogout`);
- the declared admin tiers fail `canAccessAdmin` but are counted as admins (`MockAuth.DeclaredRolesNeverAdmin`,
  `Admin.AdminTiersCounted`);
- the navbar activates Blog on `/blogs` (`Navbar.NonRootIsPlainPrefix`).

## Model

| member | source | states |
|---|---|---|
| Types.AdminIsUndeclared | src/app/lib/types.ts:2 | 'admin', the role the running code checks, is not one of the four declared roles |
| MockAuth.MockEmailsDistinct | src/app/lib/auth.ts:6-31 | the three mock users have pairwise distinct emails |
| MockAuth.FindByEmail | src/app/lib/auth.ts:35 | `find` yields the first user of the table with exactly that email (every earlier user has another email), and nothing only when no user has it |
| MockAuth.FindByEmailUnique | src/app/lib/auth.ts:35 | with distinct emails, `find` yields u exactly when u is in the table with that email |
| MockAuth.AuthenticateIff | src/app/lib/auth.ts:33-42 | login succeeds iff some mock user has exactly that email and the password is "password", and then returns that very user |
| MockAuth.Capabilities | src/app/lib/auth.ts:73-91 | canAccessAdmin iff the role is exactly 'admin'; canManageUsers and canUploadData equal it; canEditInventory iff admin or analyst; canViewReports iff signed in |
| MockAuth.HasRoleOwnRole | src/app/lib/auth.ts:65-71 | hasRole is false without a user, and otherwise holds for a single role exactly when it is the user's |
| MockAuth.DeclaredRolesNeverAdmin | src/app/lib/auth.ts:73-75 | a user with any declared role, super_admin and org_admin included, fails canAccessAdmin |
| MockAuth.MockStore.constructor | src/app/lib/auth.ts:4 | a fresh page starts with no cached user and the storage the previous visit left |
| MockAuth.MockStore.Login | src/app/lib/auth.ts:33-42 | on success the cache and the 'user' entry both become the returned user; on failure null is returned and neither changes |
| MockAuth.MockStore.Logout | src/app/lib/auth.ts:44-47 | the cache is cleared and the 'user' entry removed; afterwards no one is authenticated |
| MockAuth.MockStore.GetCurrentUser | src/app/lib/auth.ts:49-59 | returns the cache if set, else the stored user (now cached), else null; the session itself does not change |
| MockAuth.LogoutTwice | src/app/lib/auth.ts:44-47 | a second logout leaves the same signed-out state as the first |
| AuthContext.BuildUserFast | src/app/lib/AuthContext.tsx:38-48 | id is the uid, email the provider email or '', organization_id '', role 'admin', created_at the clock |
| AuthContext.BuildUserFastName | src/app/lib/AuthContext.tsx:45 | the name is a non-empty display name, else the part of the email before its first '@' |
| AuthContext.BuildUserFastIsAdmin | src/app/lib/AuthContext.tsx:43 | every fast-built user passes canAccessAdmin |
| AuthContext.LoadingUntilSettled | src/app/lib/AuthContext.tsx:64-79 | from the initial state, loading holds exactly while no notification or timeout has arrived since the last logout |
| AuthContext.UserProvenance | src/app/lib/AuthContext.tsx:51-94 | any user the provider holds was built from a Firebase user or read from a profile by some event |
| AuthContext.EnrichmentAfterLogout | src/app/lib/AuthContext.tsx:51-61 | a profile read that settles after logout puts the user back, as there is no staleness check |
| AuthContext.AuthProvider.constructor | src/app/lib/AuthContext.tsx:34-35 | the provider starts with no user and loading true |
| AuthContext.AuthProvider.OnAuthStateChanged | src/app/lib/AuthContext.tsx:68-79 | a notification with a user sets the fast-built user, one without clears it; loading ends either way |
| AuthContext.AuthProvider.OnSafetyTimeout | src/app/lib/AuthContext.tsx:66 | the timeout ends loading and leaves the user unchanged |
| AuthContext.AuthProvider.Login | src/app/lib/AuthContext.tsx:88-94 | a rejected sign-in propagates its error and changes nothing; a successful one sets the fast-built user and leaves loading alone |
| AuthContext.AuthProvider.OnEnriched | src/app/lib/AuthContext.tsx:51-61 | only a found profile replaces the user; a missing profile or a read error leaves it |
| AuthContext.AuthProvider.Logout | src/app/lib/AuthContext.tsx:119-124 | loading is set and the user cleared before sign-out, whose outcome is propagated |
| AuthContext.AuthProvider.Signup | src/app/lib/AuthContext.tsx:97-116 | creation or display-name failures reject; a failed profile write is swallowed; the profile written carries the role, 'viewer' by default; the user is never assigned |
| AuthContext.ProviderAgreesWithMockStore | src/app/lib/AuthContext.tsx:127-146 | the provider's hasRole, canAccessAdmin and isAuthenticated decide as the mock store's do on the same user |
| AuthContext.ViewerScenario | src/app/lib/AuthContext.tsx:127-136 | a signed-in viewer has the viewer role, not admin or analyst, and no admin access |
| Routes.ProtectedRouteDecision | src/app/routes.tsx:17-22 | redirects to /login iff no one is signed in, and renders the children otherwise |
| Routes.AdminRouteDecision | src/app/routes.tsx:25-33 | signed-out goes to /login first; a signed-in non-admin goes to /dashboard/main; the children render iff the role is 'admin' |
| Routes.AdminAdmittedIsProtected | src/app/routes.tsx:17-33 | every session AdminRoute admits, ProtectedRoute admits too |
| Routes.AdminPageRequiresAdmin | src/app/routes.tsx:67-106 | the Admin page shows iff the child is admin or admin/users and the signed-in user's role is 'admin' |
| Routes.SignedOutGoesToLogin | src/app/routes.tsx:66-73 | signed out, every dashboard URL redirects to /login |
| Routes.UnknownChildRedirects | src/app/routes.tsx:74-111 | the index and every unknown child redirect a signed-in user to /dashboard/main |
| Routes.SignedInNeverToLogin | src/app/routes.tsx:74-111 | signed in, no dashboard URL leads to /login |
| DashboardLayout.AllNavigation | src/app/components/layout/DashboardLayout.tsx:27-51 | the three base entries in order, plus Admin Panel as a fourth entry iff canAccessAdmin |
| DashboardLayout.NotActiveOnBarePrefix | src/app/components/layout/DashboardLayout.tsx:56 | /dashboard/mainx does not activate /dashboard/main, while /dashboard/main/x does |
| DashboardLayout.ActiveHrefIsPrefix | src/app/components/layout/DashboardLayout.tsx:56 | an active entry's href is a prefix of the path |
| DashboardLayout.AtMostOneActive | src/app/components/layout/DashboardLayout.tsx:27-56 | with the fixed hrefs, at most one menu entry is active for any path |
| DashboardLayout.InitialsAreWordStarts | src/app/components/layout/DashboardLayout.tsx:127 | the initials are exactly the word-initial characters of the name, in order |
| DashboardLayout.InitialsExample | src/app/components/layout/DashboardLayout.tsx:127 | "John Manager" has the initials "JM" |
| DashboardLayout.RoleLabelFirstUnderscore | src/app/components/layout/DashboardLayout.tsx:139 | a role without '_' shows as is; otherwise only its first '_' becomes a space |
| DashboardLayout.RoleLabelExamples | src/app/components/layout/DashboardLayout.tsx:139 | "super_admin" shows as "super admin"; "a_b_c" shows as "a b_c" |
| DashboardLayout.LayoutDecision | src/app/components/layout/DashboardLayout.tsx:75-78 | the layout redirects to /login iff no one is signed in; otherwise it shows the menu with at most one entry active |
| Navbar.RootActiveOnlyAtRoot | src/app/components/Navbar.tsx:22 | Home is active iff the path is exactly '/' |
| Navbar.NonRootIsPlainPrefix | src/app/components/Navbar.tsx:23 | any other link is active iff its href is a plain prefix of the path, so /blogs activates Blog |
| Navbar.OnlyHomeAtRoot | src/app/components/Navbar.tsx:13-25 | on '/', Home is the only active link |
| Navbar.NavItemNames | src/app/components/Navbar.tsx:13-19 | the links are Home, About, Services, Blog and Contact, in that order |
| Inventory.FilteredItems | src/app/pages/Inventory.tsx:31-39 | exactly the items whose name or SKU contains the query ignoring case and that pass the category and location filters |
| Inventory.FilteredItemsKeepOrder | src/app/pages/Inventory.tsx:31-39 | filtering a concatenation concatenates the filtered parts, so order is kept |
| Inventory.InitialFilterShowsAll | src/app/pages/Inventory.tsx:27-39 | the initial empty search with both filters on 'all' keeps every item |
| Inventory.Categories | src/app/pages/Inventory.tsx:41 | each category once, and exactly the categories present |
| Inventory.Locations | src/app/pages/Inventory.tsx:42 | each location once, and exactly the locations present |
| Inventory.ColumnsFirstSeen | src/app/pages/Inventory.tsx:41-42 | categories and locations come in the order of their first occurrence |
| Inventory.StockStatusThresholds | src/app/pages/Inventory.tsx:44-49 | for a positive reorder level: Critical iff 2·stock ≤ reorder, Low iff above that and stock ≤ reorder, Normal iff stock > reorder |
| Inventory.StockStatusMonotone | src/app/pages/Inventory.tsx:44-49 | for a fixed, non-negative reorder level, more stock never gives a more severe status |
| Inventory.NegativeReorderThresholds | src/app/pages/Inventory.tsx:44-49 | for a negative reorder level the bands are inverted: Critical iff 2·stock ≥ reorder, Low iff stock ≥ reorder > 2·stock, Normal iff stock < reorder |
| Inventory.StockBadge | src/app/pages/Inventory.tsx:180-191 | for a positive reorder level, the badge text 'Critical'/'Low'/'Normal' and its variant 'destructive'/'secondary'/'default' each hold exactly in the matching stock band |
| Admin.FilteredUsers | src/app/pages/Admin.tsx:41-48 | exactly the users whose name or email contains the query ignoring case and whose role passes the filter |
| Admin.FilteredUsersKeepOrder | src/app/pages/Admin.tsx:41-48 | the user filter keeps the users' order |
| Admin.InitialFilterShowsAll | src/app/pages/Admin.tsx:36-48 | the initial empty search with the role filter on 'all' keeps every user |
| Admin.AdminTiersCounted | src/app/pages/Admin.tsx:105 | the Admins card counts admin, super_admin and org_admin |
| Admin.RoleCardsBounded | src/app/pages/Admin.tsx:94-129 | the Admins, Analysts and Viewers counts add up to at most the number of users |
| Admin.RoleColorCases | src/app/pages/Admin.tsx:63-74 | blue iff admin, green iff analyst, gray for viewer and every other role |
| Admin.RoleIconCases | src/app/pages/Admin.tsx:50-61 | admin, analyst and viewer get three different icons; every other role, the admin tiers included, gets the default icon |
| Admin.RowBadge | src/app/pages/Admin.tsx:233 | a row's role label replaces only the first '_' of the role |
| Admin.RecentActivity | src/app/pages/Admin.tsx:264 | at most the first five audit entries, in order, and all of them when there are fewer |
| Operations.OperationsKPIs | src/app/pages/Operations.tsx:21-23 | exactly the KPIs with one of the four whitelisted names |
| Operations.OperationsKPIsKeepOrder | src/app/pages/Operations.tsx:21-23 | the whitelist keeps the KPIs' order |
| Operations.PresentDepartments | src/app/pages/Operations.tsx:25 | exactly the metrics' non-empty departments |
| Operations.Departments | src/app/pages/Operations.tsx:25 | 'all' first, then each non-empty department present, once |
| Operations.DepartmentsFirstSeen | src/app/pages/Operations.tsx:25 | the departments after 'all' come in the order of their first occurrence |
| Operations.DepartmentMetrics | src/app/pages/Operations.tsx:103-104 | on 'all' the filter lets every metric through; otherwise exactly the metrics with an equal department, so those without one are hidden |
| Operations.AllDepartmentsShowsAll | src/app/pages/Operations.tsx:103-104 | on 'all' the list is the metrics themselves |
| Operations.DepartmentMetricsKeepOrder | src/app/pages/Operations.tsx:103-104 | the department filter never reorders the metrics |
| Api.Search | src/app/lib/api.ts:53-64 | exactly the items whose lower-cased name, SKU or category contains the lower-cased query |
| Api.SearchEmptyAndOrder | src/app/lib/api.ts:53-64 | an empty query keeps every item, and the search keeps the fetched order |
| Api.PageSearchImpliesApiSearch | src/app/lib/api.ts:58-63 | an item that the Inventory page's search matches is also matched by the API search, which additionally looks at the category |
| Api.CutOff | src/app/lib/api.ts:84-96 | 7d, 30d and 90d go back that many days of 86,400,000 ms; any other range gives the epoch |
| Api.GetAll | src/app/lib/api.ts:70-101 | the result is the fetched list filtered once by both conditions, in order; each filter applies only when given and not 'all' |
| Api.OverviewCounts | src/app/lib/api.ts:113-144 | four KPIs: the item count, the total value, the low-stock count (at most the item count, trend down iff positive), and zero efficiency without records |
| Api.LowStockMatchesStatus | src/app/lib/api.ts:124 | for a positive reorder level, low stock in the overview is exactly Critical or Low on the Inventory page |
| KPICard.Icon | src/app/components/dashboard/KPICard.tsx:11 | TrendingUp iff up, TrendingDown iff down, Minus iff stable |
| KPICard.Color | src/app/components/dashboard/KPICard.tsx:12-16 | green iff up with a positive change, red iff down with a negative change, gray otherwise |
| KPICard.ChangePrefix | src/app/components/dashboard/KPICard.tsx:32 | '+' iff the change is positive, nothing for zero or a negative change |
| KPICard.ColorAgreesWithIcon | src/app/components/dashboard/KPICard.tsx:11-31 | green only with the rising icon, red only with the falling one; icon and change line share one colour |
| KPICard.OverviewCardsAreGray | src/app/lib/api.ts:130-135 | every overview KPI has zero change, so its card is gray with no '+', and Low Stock Alerts falls iff some item is low |
| SignupForm.Validate | src/app/components/auth/SignupForm.tsx:36-49 | the short-password message iff under six characters, then the mismatch message, then the blank-name message, in that order |
| SignupForm.ValidateAccepts | src/app/components/auth/SignupForm.tsx:36-49 | a submission passes iff the password has six or more characters, the confirmation equals it and the name has a non-space character |
| SignupForm.Form.constructor | src/app/components/auth/SignupForm.tsx:22-29 | empty inputs, role 'viewer', no error, neither success nor loading |
| SignupForm.Form.Submit | src/app/components/auth/SignupForm.tsx:31-54 | the error is cleared; a failing check shows its message and sends nothing; otherwise loading starts and the inputs are sent as typed |
| SignupForm.Form.Settle | src/app/components/auth/SignupForm.tsx:53-63 | success on resolution, the error's message or the fallback text on rejection, and loading false either way |
| SignupForm.ShortPasswordSubmission | src/app/components/auth/SignupForm.tsx:36-39 | on a fresh form, any password under six characters is refused with its message before anything is sent, whatever the other inputs, and loading does not start |
| SignupForm.SubmitResolved | src/app/components/auth/SignupForm.tsx:31-63 | inputs that pass every check are sent as they stand, and a resolved call leaves success, no error and loading off |
| SignupForm.AcceptedSubmission | src/app/components/auth/SignupForm.tsx:36-55 | on a fresh form, a password of six or more characters, repeated as confirmation, with a name that is not blank once trimmed is sent as typed with the default role 'viewer', and a resolved call ends in success with no error |

## Left out

- Firebase and Firestore calls are not modelled. This covers `signInWithEmailAndPassword`,
  `createUserWithEmailAndPassword`, `updateProfile`, `setDoc`, `getDoc`, `getDocs` and `signOut`. Each appears as
  an outcome parameter (success or an error message), or as the fetched documents passed in. The CRUD
  wrappers in `api.ts` (`getById`, `create`, `update`, `delete`, `getMetrics`, and all of `usersApi`) do no
  client-side computation and are left out.
- Asynchrony is not modelled. The callbacks and awaited results of `AuthContext.tsx` are events applied one
  at a time (`AuthContext.Run`). An interleaving is a choice of event order, with no concurrency. The
  unsubscribe and timer clean-up on unmount is left out.
- The safety timeout is an event that may occur any number of times and at any point of a trace. The
  source arms one 1.5-second timer per mount (src/app/lib/AuthContext.tsx:66), so the model admits more traces
  than the source produces; every property proved over all traces holds for the source's traces too.
- Clocks are parameters. `new Date().toISOString()` becomes `now`. The 1.5-second timer becomes the event
  `SafetyTimeout`. `new Date(recorded_at)` becomes a `parse` function, where "no value" stands for an
  invalid date, whose comparison is false.
- Local storage holds the user record itself. The `JSON.stringify`/`JSON.parse` round trip is taken as
  exact.
- The profile data read during enrichment is taken as a `User`, like the TypeScript cast, which is not checked.
- Numbers are exact.
  - Counts are integers, and amounts and percentages are reals.
  - `Math.round(x * 100) / 100` is modelled as `Api.RoundHundredths`, floor(100·x + 0.5) / 100 over exact
    reals. Binary floating-point representation error in `totalValue`, `avgEfficiency`, that rounding and
    the stock percentage is not modelled.
  - NaN values are not modelled, so `op.value || 0` is taken as `op.value`.
  - For a zero reorder level, `getStockStatus` follows JavaScript: a positive stock divided by zero is
    Infinity (Normal), 0/0 is NaN (Normal) and a negative stock gives -Infinity (Critical).
- Inventory.StockStatusMonotone: proved only for a reorder level of at least zero. For a negative level the
  source's division flips the bands, so more stock gives a more severe status (a level of -10 shows a stock
  of -20 as Normal and a stock of 5 as Critical); `Inventory.NegativeReorderThresholds` states that case.
- Strings are ASCII. `toLowerCase` changes only A–Z. `trim` removes space, tab, line feed, carriage return,
  vertical tab and form feed; the other Unicode white space is not covered.
- The router's own path matching is taken as case-insensitive equality of the child path. Trailing slashes,
  URL decoding and nested paths under `admin/users` are not modelled.
- UI-only state and rendering are not modelled. This covers the mobile menu, dialogs, `navigate` side
  effects, the 2-second redirect after signup, and number and date formatting (`toLocaleDateString`, the
  text of the change line).
- `AuthProvider.Signup` is not an event in `AuthContext.Run`. It changes no provider state, which is exactly
  what the source does.
