/** The Firebase-backed session provider of src/app/lib/AuthContext.tsx: two state cells, `user` and `loading`,
    written by the auth-state notification, the safety timeout, login, background profile enrichment and logout.
    Every provider call is an outcome passed in; the asynchronous steps are separate events applied one at a time. */
module AuthContext {
  import opened Wrappers
  import opened Types
  import Strings
  import MockAuth

  /** The fields of a Firebase user the provider reads. */
  datatype FirebaseUser = FirebaseUser(uid: string, email: Option<string>, displayName: Option<string>)

  /** `buildUserFast`: a user made from the Firebase user alone, with no network call.
      `now` stands for `new Date().toISOString()`. */
  function BuildUserFast(fu: FirebaseUser, now: string): (u: User)
    ensures u.id == fu.uid && u.email == fu.email.GetOr("") && u.organization_id == ""
    ensures u.role == "admin" && u.created_at == now
  {
    var email := fu.email.GetOr("");
    var name := if fu.displayName.Some? && fu.displayName.value != "" then fu.displayName.value
                else Strings.Split(email, '@')[0];
    User(fu.uid, "", None, "admin", email, name, None, now)
  }

  /** The name is the display name when it is non-empty, and otherwise the text of the email before its first '@'
      (the whole email when it has none). */
  lemma BuildUserFastName(fu: FirebaseUser, now: string)
    ensures fu.displayName.Some? && fu.displayName.value != "" ==> BuildUserFast(fu, now).name == fu.displayName.value
    ensures !(fu.displayName.Some? && fu.displayName.value != "") ==>
      var email, name := fu.email.GetOr(""), BuildUserFast(fu, now).name;
      name <= email && '@' !in name && (|name| < |email| ==> email[|name|] == '@')
  {
    Strings.SplitFirst(fu.email.GetOr(""), '@');
  }

  /** Every user built this way passes `canAccessAdmin`: the fast path fails open. */
  lemma BuildUserFastIsAdmin(fu: FirebaseUser, now: string)
    ensures MockAuth.CanAccessAdmin(Some(BuildUserFast(fu, now)))
  {
  }

  // ----- the provider state and the events that change it -----

  datatype AuthState = AuthState(user: Option<User>, loading: bool)

  /** `useState(null)` and `useState(true)`. */
  const Initial: AuthState := AuthState(None, true)

  /** The settled `getDoc` of the user's profile: found (its data is taken as a User, unchecked), absent, or failed. */
  datatype ProfileRead = ProfileFound(profile: User) | ProfileMissing | ProfileReadFailed

  datatype AuthEvent =
    | AuthStateChanged(notified: Option<FirebaseUser>, now: string)  // onAuthStateChanged callback
    | SafetyTimeout                                             // the 1.5 s timer fires
    | SignedIn(fu: FirebaseUser, now: string)                   // login, after signInWithEmailAndPassword resolved
    | Enriched(read: ProfileRead)                               // enrichFromFirestore, after getDoc settled
    | LogoutStarted                                             // logout, before signOut is awaited

  /** The state after one event. */
  function Step(s: AuthState, e: AuthEvent): AuthState {
    match e
    case AuthStateChanged(fu, now) =>
      if fu.Some? then AuthState(Some(BuildUserFast(fu.value, now)), false) else AuthState(None, false)
    case SafetyTimeout => s.(loading := false)
    case SignedIn(fu, now) => s.(user := Some(BuildUserFast(fu, now)))
    case Enriched(read) => if read.ProfileFound? then s.(user := Some(read.profile)) else s
    case LogoutStarted => AuthState(None, true)
  }

  /** The state after a sequence of events, applied in order. */
  function Run(s: AuthState, events: seq<AuthEvent>): AuthState
    decreases |events|
  {
    if events == [] then s else Run(Step(s, events[0]), events[1..])
  }

  lemma {:induction false} RunAppend(s: AuthState, a: seq<AuthEvent>, b: seq<AuthEvent>)
    ensures Run(s, a + b) == Run(Run(s, a), b)
    decreases |a|
  {
    if a != [] {
      assert (a + b)[0] == a[0] && (a + b)[1..] == a[1..] + b;
      RunAppend(Step(s, a[0]), a[1..], b);
    } else {
      assert a + b == b;
    }
  }

  /** An event that settles `loading`: a notification or the timeout. */
  predicate Settles(e: AuthEvent) {
    e.AuthStateChanged? || e.SafetyTimeout?
  }

  /** Some logout comes after position `k`. */
  predicate LoggedOutAfter(events: seq<AuthEvent>, k: int) {
    exists j :: 0 <= j && k < j < |events| && events[j].LogoutStarted?
  }

  /** From the start, `loading` is true exactly while no notification or timeout has arrived since the last logout:
      sign-in and enrichment never change it. */
  lemma {:induction false} LoadingUntilSettled(events: seq<AuthEvent>)
    ensures Run(Initial, events).loading <==>
      forall k :: 0 <= k < |events| && Settles(events[k]) ==> LoggedOutAfter(events, k)
    decreases |events|
  {
    if events != [] {
      var n := |events|;
      var init, last := events[..n - 1], events[n - 1];
      assert events == init + [last];
      RunAppend(Initial, init, [last]);
      LoadingUntilSettled(init);
      if last.LogoutStarted? {
        forall k | 0 <= k < n - 1
          ensures LoggedOutAfter(events, k)
        {
          assert events[n - 1].LogoutStarted?;
        }
      } else if Settles(last) {
        assert !LoggedOutAfter(events, n - 1);
      } else {
        forall k | 0 <= k < n - 1
          ensures LoggedOutAfter(events, k) <==> LoggedOutAfter(init, k)
        {
          if LoggedOutAfter(events, k) {
            var j :| 0 <= j && k < j < n && events[j].LogoutStarted?;
            assert j < n - 1 && init[j] == events[j];
          }
          if LoggedOutAfter(init, k) {
            var j :| 0 <= j && k < j < n - 1 && init[j].LogoutStarted?;
            assert events[j] == init[j];
          }
        }
        forall k | 0 <= k < n - 1
          ensures events[k] == init[k]
        {
        }
      }
    }
  }

  /** Where a user in the state comes from: built from a Firebase user, or read from a profile. */
  predicate Provenance(u: User, events: seq<AuthEvent>) {
    exists k :: 0 <= k < |events| && Produces(events[k], u)
  }

  predicate Produces(e: AuthEvent, u: User) {
    match e
    case AuthStateChanged(fu, now) => fu.Some? && u == BuildUserFast(fu.value, now)
    case SignedIn(fu, now) => u == BuildUserFast(fu, now)
    case Enriched(read) => read == ProfileFound(u)
    case _ => false
  }

  /** The provider never invents a user: any user it holds was built from a Firebase user by an event or read
      from a profile by an enrichment. Signup, which is not an event here, never assigns `user`. */
  lemma {:induction false} UserProvenance(events: seq<AuthEvent>)
    ensures Run(Initial, events).user.Some? ==> Provenance(Run(Initial, events).user.value, events)
    decreases |events|
  {
    if events != [] {
      var init, last := events[..|events| - 1], events[|events| - 1];
      assert events == init + [last];
      RunAppend(Initial, init, [last]);
      UserProvenance(init);
      var s := Run(Initial, events);
      if s.user.Some? {
        if Produces(last, s.user.value) {
          assert Produces(events[|events| - 1], s.user.value);
        } else {
          assert s.user == Run(Initial, init).user;
          var k :| 0 <= k < |init| && Produces(init[k], s.user.value);
          assert events[k] == init[k];
        }
      }
    }
  }

  /** Enrichment has no staleness check: a profile read that settles after logout brings the user back. */
  lemma EnrichmentAfterLogout(s: AuthState, p: User)
    ensures Run(s, [LogoutStarted, Enriched(ProfileFound(p))]) == AuthState(Some(p), true)
  {
    var events := [LogoutStarted, Enriched(ProfileFound(p))];
    assert events[1..] == [Enriched(ProfileFound(p))];
    assert Run(Step(s, LogoutStarted), events[1..]) == Step(AuthState(None, true), Enriched(ProfileFound(p)));
  }

  /** The outcome of `signInWithEmailAndPassword` and `createUserWithEmailAndPassword`. */
  datatype SignInResult = SignInOk(fu: FirebaseUser) | SignInRejected(message: string)

  /** The record `signup` writes to the profiles collection; its `organization_id` is null. */
  datatype ProfileDoc = ProfileDoc(id: string, email: string, name: string, role: Role,
                                   organization_id: Option<string>, created_at: string)

  /** The provider: the two state cells of the context. */
  class AuthProvider {
    var user: Option<User>
    var loading: bool

    function State(): AuthState
      reads this
    {
      AuthState(user, loading)
    }

    constructor ()
      ensures State() == Initial
    {
      user := None;
      loading := true;
    }

    /** The auth-state callback: with a Firebase user, the fast-built user; without one, none; either way loading ends.
        The background enrichment it starts is the separate event `OnEnriched`. */
    method OnAuthStateChanged(fu: Option<FirebaseUser>, now: string)
      modifies this
      ensures State() == Step(old(State()), AuthStateChanged(fu, now))
      ensures !loading && (fu.Some? <==> user.Some?)
    {
      if fu.Some? {
        user := Some(BuildUserFast(fu.value, now));
        loading := false;
      } else {
        user := None;
        loading := false;
      }
    }

    /** The safety timeout: loading ends, the user is untouched. */
    method OnSafetyTimeout()
      modifies this
      ensures State() == Step(old(State()), SafetyTimeout)
      ensures !loading && user == old(user)
    {
      loading := false;
    }

    /** `login`: a rejected sign-in propagates its error and changes nothing; a successful one sets the fast-built
        user at once and leaves `loading` alone. */
    method Login(signIn: SignInResult, now: string) returns (r: Outcome<string>)
      modifies this
      ensures signIn.SignInRejected? ==> r == Fail(signIn.message) && State() == old(State())
      ensures signIn.SignInOk? ==> r == Pass && State() == Step(old(State()), SignedIn(signIn.fu, now))
      ensures signIn.SignInOk? ==> user.Some? && MockAuth.IsAuthenticated(user) && loading == old(loading)
    {
      if signIn.SignInRejected? {
        return Fail(signIn.message);
      }
      user := Some(BuildUserFast(signIn.fu, now));
      r := Pass;
    }

    /** `enrichFromFirestore` settling: only a found profile replaces the user; a missing one or a read error
        leaves it as it is. */
    method OnEnriched(read: ProfileRead)
      modifies this
      ensures State() == Step(old(State()), Enriched(read))
      ensures read.ProfileFound? ==> user == Some(read.profile)
      ensures !read.ProfileFound? ==> user == old(user)
      ensures loading == old(loading)
    {
      if read.ProfileFound? {
        user := Some(read.profile);
      }
    }

    /** `logout`: loading is set and the user cleared before `signOut` is awaited; a failing sign-out still
        propagates its error, with the state already cleared. */
    method Logout(signOut: Outcome<string>) returns (r: Outcome<string>)
      modifies this
      ensures State() == Step(old(State()), LogoutStarted)
      ensures user == None && loading && !IsAuthenticated()
      ensures r == signOut
    {
      loading := true;
      user := None;
      r := signOut;
    }

    /** `signup`: creates the account, sets the display name, then tries to write the profile. The role defaults to
        'viewer'. A failed account creation or display-name update rejects; a failed profile write is swallowed.
        Signup never assigns `user` (it modifies nothing here). Returns the profile written, if it was. */
    method Signup(email: string, password: string, name: string, create: SignInResult,
                  updateProfile: Outcome<string>, profileWrite: Outcome<string>, now: string, role: Role := "viewer")
      returns (r: Outcome<string>, written: Option<ProfileDoc>)
      ensures create.SignInRejected? ==> r == Fail(create.message) && written == None
      ensures create.SignInOk? && updateProfile.Fail? ==> r == updateProfile && written == None
      ensures create.SignInOk? && updateProfile.Pass? ==> r == Pass
      ensures written.Some? <==> create.SignInOk? && updateProfile.Pass? && profileWrite.Pass?
      ensures written.Some? ==> written.value == ProfileDoc(create.fu.uid, email, name, role, None, now)
    {
      if create.SignInRejected? {
        return Fail(create.message), None;
      }
      if updateProfile.Fail? {
        return updateProfile, None;
      }
      var doc := ProfileDoc(create.fu.uid, email, name, role, None, now);
      if profileWrite.Pass? {
        written := Some(doc);
      } else {
        written := None;
      }
      r := Pass;
    }

    /** `hasRole`: false without a user, membership otherwise. */
    function HasRole(roles: seq<Role>): bool
      reads this
    {
      user.Some? && user.value.role in roles
    }

    /** `canAccessAdmin`: `user?.role === 'admin'`. */
    function CanAccessAdmin(): bool
      reads this
    {
      user.Some? && user.value.role == "admin"
    }

    /** `isAuthenticated`: `!!user`. */
    function IsAuthenticated(): bool
      reads this
    {
      user.Some?
    }
  }

  /** The provider's role predicates decide exactly as the mock store's do on the same user. */
  lemma ProviderAgreesWithMockStore(p: AuthProvider, roles: seq<Role>)
    ensures p.HasRole(roles) == MockAuth.HasRole(p.user, roles)
    ensures p.CanAccessAdmin() == MockAuth.CanAccessAdmin(p.user)
    ensures p.CanAccessAdmin() == p.HasRole(["admin"])
    ensures p.IsAuthenticated() == MockAuth.IsAuthenticated(p.user)
  {
  }

  /** The example of a signed-in viewer: no admin or analyst role, the viewer role, no admin access. */
  lemma ViewerScenario(p: AuthProvider)
    requires p.user == Some(User("1", "", None, "viewer", "a@b.com", "", None, ""))
    ensures !p.HasRole(["admin", "analyst"]) && p.HasRole(["viewer"]) && !p.CanAccessAdmin()
  {
  }
}
