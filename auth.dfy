/** The mock session store of src/app/lib/auth.ts: a module-level current user mirrored into local storage
    under the key 'user', the fixed table of mock users, and the role predicates over the session. */
module MockAuth {
  import opened Wrappers
  import opened Types

  /** The local-storage key that mirrors the current user. */
  const StorageKey: string := "user"

  /** The one password every mock user accepts. */
  const MockPassword: string := "password"

  const AdminUser: User := User("1", "1", None, "admin", "admin@north-staroperations.com", "John Manager", None, "2024-01-01T00:00:00Z")
  const AnalystUser: User := User("2", "1", None, "analyst", "analyst@north-staroperations.com", "Sarah Analyst", None, "2024-02-01T00:00:00Z")
  const ViewerUser: User := User("3", "1", None, "viewer", "viewer@north-staroperations.com", "Mike Viewer", None, "2024-02-10T00:00:00Z")

  /** `Object.values(mockUsers)`, in declaration order. */
  function MockUsers(): seq<User> {
    [AdminUser, AnalystUser, ViewerUser]
  }

  predicate DistinctEmails(users: seq<User>) {
    forall i, j :: 0 <= i < j < |users| ==> users[i].email != users[j].email
  }

  /** The mock users have pairwise distinct emails. */
  lemma MockEmailsDistinct()
    ensures DistinctEmails(MockUsers())
  {
  }

  /** Position `i` holds the first user with that email. */
  predicate FirstWithEmail(users: seq<User>, email: string, i: int) {
    0 <= i < |users| && users[i].email == email && forall j :: 0 <= j < i ==> users[j].email != email
  }

  /** `users.find(u => u.email === email)`: the first user with exactly that email. */
  function FindByEmail(users: seq<User>, email: string): (r: Option<User>)
    ensures r.Some? ==> r.value in users && r.value.email == email
    ensures r.Some? ==> exists i :: FirstWithEmail(users, email, i) && users[i] == r.value
    ensures r.None? ==> forall i :: 0 <= i < |users| ==> users[i].email != email
    decreases |users|
  {
    if users == [] then None
    else if users[0].email == email then Some(users[0])
    else
      var r := FindByEmail(users[1..], email);
      assert r.Some? ==> exists i :: FirstWithEmail(users, email, i) && users[i] == r.value by {
        if r.Some? {
          var i :| FirstWithEmail(users[1..], email, i) && users[1..][i] == r.value;
          forall j | 0 <= j < i + 1 ensures users[j].email != email {
            if j > 0 { assert users[j] == users[1..][j - 1]; }
          }
          assert FirstWithEmail(users, email, i + 1);
        }
      }
      r
  }

  /** With distinct emails, `find` returns THE user with that email: the lookup identifies at most one user. */
  lemma {:induction false} FindByEmailUnique(users: seq<User>, email: string, u: User)
    requires DistinctEmails(users)
    ensures FindByEmail(users, email) == Some(u) <==> u in users && u.email == email
    decreases |users|
  {
    if users != [] && users[0].email != email {
      assert DistinctEmails(users[1..]) by {
        forall i, j | 0 <= i < j < |users[1..]|
          ensures users[1..][i].email != users[1..][j].email
        {
          assert users[1..][i] == users[i + 1] && users[1..][j] == users[j + 1];
        }
      }
      FindByEmailUnique(users[1..], email, u);
      if u in users && u.email == email {
        assert u in users[1..];
      }
    } else if users != [] && u in users && u.email == email {
      var k :| 0 <= k < |users| && users[k] == u;
      assert k == 0;
    }
  }

  /** What `login` returns: the mock user with that email, provided the password is "password". */
  function Authenticate(email: string, password: string): Option<User> {
    var found := FindByEmail(MockUsers(), email);
    if found.Some? && password == MockPassword then found else None
  }

  /** `login` succeeds iff some mock user has exactly that email and the password is "password";
      it then returns that very user. */
  lemma AuthenticateIff(email: string, password: string, u: User)
    ensures Authenticate(email, password).Some? <==>
      (exists i :: 0 <= i < |MockUsers()| && MockUsers()[i].email == email) && password == MockPassword
    ensures Authenticate(email, password) == Some(u) <==>
      u in MockUsers() && u.email == email && password == MockPassword
  {
    MockEmailsDistinct();
    FindByEmailUnique(MockUsers(), email, u);
  }

  // ----- role predicates over the session (the user `getCurrentUser` yields, if any) -----

  predicate IsAuthenticated(session: Option<User>) {
    session.Some?
  }

  /** `hasRole`: false without a user, otherwise membership of the user's role in the list
      (a single role `r` is the list `[r]`). */
  predicate HasRole(session: Option<User>, roles: seq<Role>) {
    session.Some? && session.value.role in roles
  }

  predicate CanAccessAdmin(session: Option<User>) {
    HasRole(session, ["admin"])
  }

  predicate CanManageUsers(session: Option<User>) {
    HasRole(session, ["admin"])
  }

  predicate CanUploadData(session: Option<User>) {
    HasRole(session, ["admin"])
  }

  predicate CanEditInventory(session: Option<User>) {
    HasRole(session, ["admin", "analyst"])
  }

  predicate CanViewReports(session: Option<User>) {
    IsAuthenticated(session)
  }

  /** The capabilities in terms of the user's role: only the exact string 'admin' administers,
      admin or analyst edit inventory, every signed-in user views reports. */
  lemma Capabilities(session: Option<User>)
    ensures CanAccessAdmin(session) <==> session.Some? && session.value.role == "admin"
    ensures CanManageUsers(session) == CanAccessAdmin(session) && CanUploadData(session) == CanAccessAdmin(session)
    ensures CanEditInventory(session) <==> session.Some? && (session.value.role == "admin" || session.value.role == "analyst")
    ensures CanViewReports(session) <==> session.Some?
    ensures CanAccessAdmin(session) ==> CanEditInventory(session) && CanViewReports(session)
  {
  }

  /** A signed-in user has their own role and no other single role; without a user no role holds. */
  lemma HasRoleOwnRole(session: Option<User>, r: Role)
    ensures session.None? ==> !HasRole(session, [r])
    ensures session.Some? ==> (HasRole(session, [r]) <==> r == session.value.role)
  {
  }

  /** The declared admin tiers do not pass `canAccessAdmin`: only 'admin' does. */
  lemma DeclaredRolesNeverAdmin(u: User)
    requires u.role in DeclaredRoles
    ensures !CanAccessAdmin(Some(u))
  {
  }

  /** The store: the cached `currentUser` and the local-storage entries (only 'user' is ever written). */
  class MockStore {
    var currentUser: Option<User>
    var storage: map<string, User>

    /** A fresh page: nothing cached yet; local storage as the previous visit left it. */
    constructor (persisted: map<string, User>)
      ensures currentUser == None && storage == persisted
    {
      currentUser := None;
      storage := persisted;
    }

    /** The user `getCurrentUser` yields: the cache if set, else the stored entry, else none. */
    function Session(): Option<User>
      reads this
    {
      if currentUser.Some? then currentUser
      else if StorageKey in storage then Some(storage[StorageKey])
      else None
    }

    /** `login`: on success the cache and the stored entry both become the user, who is returned;
        on failure nothing changes and the result is null. */
    method Login(email: string, password: string) returns (r: Option<User>)
      modifies this
      ensures r == Authenticate(email, password)
      ensures r.Some? ==> currentUser == r && storage == old(storage)[StorageKey := r.value] && Session() == r
      ensures r.None? ==> currentUser == old(currentUser) && storage == old(storage)
    {
      var found := FindByEmail(MockUsers(), email);
      if found.Some? && password == MockPassword {
        currentUser := found;
        storage := storage[StorageKey := found.value];
        r := found;
      } else {
        r := None;
      }
    }

    /** `logout`: clears the cache and removes the stored entry; afterwards no one is signed in. */
    method Logout()
      modifies this
      ensures currentUser == None && storage == old(storage) - {StorageKey}
      ensures Session() == None && !IsAuthenticated(Session())
    {
      currentUser := None;
      storage := storage - {StorageKey};
    }

    /** `getCurrentUser`: returns the session, restoring the cache from storage when it is empty.
        The session itself does not change. */
    method GetCurrentUser() returns (r: Option<User>)
      modifies this
      ensures r == old(Session()) && Session() == old(Session())
      ensures storage == old(storage)
      ensures currentUser == r
    {
      if currentUser.Some? {
        return currentUser;
      }
      if StorageKey in storage {
        currentUser := Some(storage[StorageKey]);
        return currentUser;
      }
      return None;
    }
  }

  /** A second logout is harmless: it leaves the same signed-out state as the first. */
  method LogoutTwice(store: MockStore)
    modifies store
    ensures store.currentUser == None && store.storage == old(store.storage) - {StorageKey}
    ensures !IsAuthenticated(store.Session())
  {
    store.Logout();
    store.Logout();
  }
}
