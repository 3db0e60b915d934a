/** The authentication provider: the `user`, `session`, `profile` and `loading`
    state that every page reads, driven by the initial session check and by the
    identity provider's events, and the action wrappers that turn service
    results into an error message or null. Each asynchronous handler body is one
    step; the 500 ms delayed profile fetch scheduled on sign-in is a queue of
    user ids, whose timer step sends the query and whose answer step stores
    the result. The pending OAuth role is read from
    `sessionStorage`, a different store from the `localStorage` the service
    writes it to. */
module AuthContext {
  import opened Types
  import opened BrowserStorage
  import AuthService

  /** The outcome of the try block of initializeAuth: the session `getSession`
      returned, or an exception thrown anywhere in the block. */
  datatype InitialCheck = SessionFound(session: Option<Session>) | Threw

  /** The provider's auth events */
  datatype AuthEvent = InitialSession | SignedIn | SignedOut | TokenRefreshed | UserUpdated | PasswordRecovery

  /** The state exposed to pages and route guards */
  datatype AuthView = AuthView(user: Option<User>, session: Option<Session>, profile: Option<Profile>, loading: bool)

  /** `session?.user ?? null` */
  function SessionUser(s: Option<Session>): (u: Option<User>)
    ensures u.Some? <==> s.Some?
    ensures s.Some? ==> u.value == s.value.user
  {
    if s.Some? then Some(s.value.user) else None
  }

  /** The OAuth role correction on sign-in, as the handler decides it: the
      provider metadata is updated with the stored string itself, unvalidated,
      only when a profile exists, still holds the default merchant role, and the
      stored role is a non-empty string other than "merchant". */
  function OAuthRoleCorrection(storedRole: Option<string>, existing: Option<Profile>): (update: Option<string>)
    ensures update.Some? <==>
      Truthy(storedRole) && existing.Some? && existing.value.role == Merchant && storedRole.value != "merchant"
    ensures update.Some? ==> update == storedRole
    ensures existing.None? ==> update.None?
  {
    if Truthy(storedRole) && existing.Some? && RoleName(existing.value.role) == "merchant" && storedRole.value != "merchant"
    then storedRole
    else None
  }

  /** The stored role reaches the provider metadata as it is: "admin" is
      forwarded to the metadata update. */
  lemma OAuthCorrectionForwardsAdmin(existing: Profile)
    requires existing.role == Merchant
    ensures OAuthRoleCorrection(Some("admin"), Some(existing)) == Some("admin")
  {
  }

  /** The correction as the service's comments describe it: the pending role is
      read from `localStorage`, where signInWithGoogle writes it, and validated
      before use, so that only "designer" can ever replace the default role. */
  function IntendedOAuthRoleCorrection(localItems: map<string, string>, existing: Option<Profile>)
    : (update: Option<string>)
    ensures update.Some? ==> update.value == "designer"
    ensures update.Some? <==>
      && AuthService.OAuthRoleKey in localItems
      && localItems[AuthService.OAuthRoleKey] != ""
      && AuthService.ValidateSignupRole(localItems[AuthService.OAuthRoleKey]) == Designer
      && existing.Some? && existing.value.role == Merchant
  {
    var stored := if AuthService.OAuthRoleKey in localItems then Some(localItems[AuthService.OAuthRoleKey]) else None;
    if Truthy(stored) then
      OAuthRoleCorrection(Some(RoleName(AuthService.ValidateSignupRole(stored.value))), existing)
    else None
  }

  /** With the intended correction, a Google sign-up as designer that lands on a
      fresh default profile has its role corrected to designer. */
  lemma IntendedGoogleSignUpAppliesRole(items: map<string, string>, existing: Profile)
    requires existing.role == Merchant
    ensures IntendedOAuthRoleCorrection(
      AuthService.StorageAfterGoogle(items, Some("designer"), None), Some(existing)) == Some("designer")
  {
  }

  /** `if (error) return error.message; return null;` */
  function ErrorMessage(error: Option<AuthError>): (message: Option<string>)
    ensures message.Some? <==> error.Some?
    ensures error.Some? ==> message.value == error.value.message
  {
    if error.Some? then Some(error.value.message) else None
  }

  /** The signUp action: null exactly when the provider reported no error and
      did not answer with the already-registered echo. */
  function SignUpAction(
    email: string, password: string, role: string, fullName: Option<string>,
    origin: string, provider: AuthService.SignUpRequest -> AuthService.AuthResult)
    : (message: Option<string>)
    ensures var response := provider(AuthService.SignUpRequestFor(email, password, role, fullName, origin));
      && (message.None? <==> response.error.None? && !AuthService.IsExistingAccountEcho(response))
      && (response.error.Some? ==> message == Some(response.error.value.message))
      && (AuthService.IsExistingAccountEcho(response) ==> message == Some(AuthService.AlreadyRegisteredMessage))
  {
    ErrorMessage(AuthService.SignUpWithEmail(email, password, role, fullName, origin, provider).result.error)
  }

  /** The signIn action: the provider's error message, or null. */
  function SignInAction(response: AuthService.AuthResult): (message: Option<string>)
    ensures message.None? <==> response.error.None?
    ensures response.error.Some? ==> message.value == response.error.value.message
  {
    ErrorMessage(AuthService.SignInWithEmail(response).error)
  }

  /** A profile query sent when a delayed fetch fires: the user id it asks for,
      and whether it was sent under that user's own session. */
  datatype ProfileQuery = ProfileQuery(userId: string, ownSession: bool)

  /** The error `.single()` reports when the query sees no row */
  const NoRowMessage := "JSON object requested, multiple (or no) rows returned"

  /** The profiles table as a query sees it. Row-level security lets a session
      read only its own row (src/services/auth.service.ts:223), so a query sent
      under any other session, or none, finds no row and `.single()` fails. */
  function AnsweredUnder(query: ProfileQuery, table: AuthService.ProfileTable): (seen: AuthService.ProfileTable)
    ensures query.ownSession ==> seen(query.userId) == table(query.userId)
    ensures !query.ownSession ==> seen(query.userId).error.Some?
  {
    if query.ownSession then table
    else (userId: string) => AuthService.ProfileResponse(None, Some(AuthService.DbError(NoRowMessage)))
  }

  class AuthProvider {
    var user: Option<User>
    var session: Option<Session>
    var profile: Option<Profile>
    var loading: bool
    /** user ids of the delayed profile fetches scheduled on sign-in, oldest first */
    var pendingProfileFetches: seq<string>
    /** profile queries sent by fired timers and not yet answered, oldest first */
    var inFlightFetches: seq<ProfileQuery>
    const sessionStore: Storage
    const localStore: Storage

    function View(): AuthView
      reads this
    {
      AuthView(user, session, profile, loading)
    }

    /** `sessionStorage` and `localStorage` are two distinct stores. */
    constructor (sessionStore: Storage, localStore: Storage)
      requires sessionStore != localStore
      ensures user.None? && session.None? && profile.None? && loading
      ensures pendingProfileFetches == [] && inFlightFetches == []
      ensures this.sessionStore == sessionStore && this.localStore == localStore
      ensures this.sessionStore != this.localStore
    {
      user, session, profile, loading := None, None, None, true;
      pendingProfileFetches, inFlightFetches := [], [];
      this.sessionStore, this.localStore := sessionStore, localStore;
    }

    /** fetchProfile: the profile becomes what getProfile returns, null on error. */
    method FetchProfile(userId: string, table: AuthService.ProfileTable)
      modifies this
      ensures profile == AuthService.GetProfile(userId, table).profile
      ensures user == old(user) && session == old(session) && loading == old(loading)
      ensures pendingProfileFetches == old(pendingProfileFetches) && inFlightFetches == old(inFlightFetches)
    {
      var result := AuthService.GetProfile(userId, table);
      profile := result.profile;
    }

    /** refreshProfile: refetches for the current user; nothing happens without
        a user or with an empty user id. */
    method RefreshProfile(table: AuthService.ProfileTable)
      modifies this
      ensures old(user).Some? && old(user).value.id != "" ==>
        profile == AuthService.GetProfile(old(user).value.id, table).profile
      ensures !(old(user).Some? && old(user).value.id != "") ==> profile == old(profile)
      ensures user == old(user) && session == old(session) && loading == old(loading)
      ensures pendingProfileFetches == old(pendingProfileFetches) && inFlightFetches == old(inFlightFetches)
    {
      if user.Some? && user.value.id != "" {
        FetchProfile(user.value.id, table);
      }
    }

    /** initializeAuth: loading ends false on both paths; an exception leaves
        everything null; otherwise session and user come from the initial
        session and the profile is fetched only when there is a user. */
    method InitializeAuth(check: InitialCheck, table: AuthService.ProfileTable)
      modifies this
      ensures !loading
      ensures check.Threw? ==> user.None? && session.None? && profile.None?
      ensures check.SessionFound? ==> session == check.session && user == SessionUser(check.session)
      ensures check.SessionFound? && check.session.Some? ==>
        profile == AuthService.GetProfile(check.session.value.user.id, table).profile
      ensures check.SessionFound? && check.session.None? ==> profile == old(profile)
      ensures pendingProfileFetches == old(pendingProfileFetches) && inFlightFetches == old(inFlightFetches)
    {
      match check {
        case Threw =>
          user := None;
          session := None;
          profile := None;
        case SessionFound(initial) =>
          session := initial;
          user := SessionUser(initial);
          if initial.Some? {
            FetchProfile(initial.value.user.id, table);
          }
      }
      loading := false;
    }

    /** The onAuthStateChange handler. Every event replaces session and user,
        null included. On a sign-in with a session, a delayed profile fetch is
        scheduled and a pending role in sessionStorage is removed and may lead
        to a metadata update, returned as `metadataUpdate`. A sign-out clears
        the profile. `loading` is never touched. */
    method OnAuthStateChange(event: AuthEvent, newSession: Option<Session>, table: AuthService.ProfileTable)
      returns (metadataUpdate: Option<string>)
      modifies this, sessionStore
      ensures session == newSession && user == SessionUser(newSession)
      ensures loading == old(loading) && inFlightFetches == old(inFlightFetches)
      ensures event == SignedOut ==> profile.None?
      ensures event != SignedOut ==> profile == old(profile)
      ensures var signedIn := event == SignedIn && newSession.Some?;
        var stored := old(sessionStore.GetItem(AuthService.OAuthRoleKey));
        && pendingProfileFetches == old(pendingProfileFetches) + (if signedIn then [newSession.value.user.id] else [])
        && sessionStore.items == (if signedIn && Truthy(stored) then old(sessionStore.items) - {AuthService.OAuthRoleKey}
                                  else old(sessionStore.items))
        && metadataUpdate == (if signedIn
                              then OAuthRoleCorrection(stored, AuthService.GetProfile(newSession.value.user.id, table).profile)
                              else None)
    {
      session := newSession;
      user := SessionUser(newSession);
      metadataUpdate := None;
      if event == SignedIn && newSession.Some? {
        var userId := newSession.value.user.id;
        pendingProfileFetches := pendingProfileFetches + [userId];
        var oauthRole := sessionStore.GetItem(AuthService.OAuthRoleKey);
        if Truthy(oauthRole) {
          sessionStore.RemoveItem(AuthService.OAuthRoleKey);
          var existing := AuthService.GetProfile(userId, table).profile;
          metadataUpdate := OAuthRoleCorrection(oauthRole, existing);
        }
      }
      if event == SignedOut {
        profile := None;
      }
    }

    /** The 500 ms timer of the oldest scheduled fetch fires and fetchProfile
        sends its query, under the session signed in at this moment. */
    method BeginProfileFetch()
      requires pendingProfileFetches != []
      modifies this
      ensures var userId := old(pendingProfileFetches)[0];
        inFlightFetches == old(inFlightFetches) + [ProfileQuery(userId, old(user).Some? && old(user).value.id == userId)]
      ensures pendingProfileFetches == old(pendingProfileFetches)[1..]
      ensures user == old(user) && session == old(session) && profile == old(profile) && loading == old(loading)
    {
      var userId := pendingProfileFetches[0];
      pendingProfileFetches := pendingProfileFetches[1..];
      inFlightFetches := inFlightFetches + [ProfileQuery(userId, user.Some? && user.value.id == userId)];
    }

    /** The oldest query in flight is answered and fetchProfile stores the
        answer, whoever is signed in now: the row when the query was sent under
        its user's own session, null otherwise. */
    method FinishProfileFetch(table: AuthService.ProfileTable)
      requires inFlightFetches != []
      modifies this
      ensures var query := old(inFlightFetches)[0];
        profile == (if query.ownSession then AuthService.GetProfile(query.userId, table).profile else None)
      ensures inFlightFetches == old(inFlightFetches)[1..]
      ensures user == old(user) && session == old(session) && loading == old(loading)
      ensures pendingProfileFetches == old(pendingProfileFetches)
    {
      var query := inFlightFetches[0];
      inFlightFetches := inFlightFetches[1..];
      FetchProfile(query.userId, AnsweredUnder(query, table));
    }

    /** The answered fetch as evidently intended: the answer is stored only
        while the user it was scheduled for is still the one signed in. */
    method FinishProfileFetchForCurrentUser(table: AuthService.ProfileTable)
      requires inFlightFetches != []
      modifies this
      ensures var query := old(inFlightFetches)[0];
        && (old(user).Some? && old(user).value.id == query.userId ==>
              profile == (if query.ownSession then AuthService.GetProfile(query.userId, table).profile else None))
        && (!(old(user).Some? && old(user).value.id == query.userId) ==> profile == old(profile))
      ensures inFlightFetches == old(inFlightFetches)[1..]
      ensures user == old(user) && session == old(session) && loading == old(loading)
      ensures pendingProfileFetches == old(pendingProfileFetches)
    {
      var query := inFlightFetches[0];
      inFlightFetches := inFlightFetches[1..];
      if user.Some? && user.value.id == query.userId {
        FetchProfile(query.userId, AnsweredUnder(query, table));
      }
    }

    /** The signInGoogle action */
    method SignInGoogleAction(role: Option<string>, oauthError: Option<AuthError>) returns (message: Option<string>)
      modifies localStore
      ensures message == ErrorMessage(oauthError)
      ensures localStore.items == AuthService.StorageAfterGoogle(old(localStore.items), role, oauthError)
    {
      var error := AuthService.SignInWithGoogle(localStore, role, oauthError);
      message := ErrorMessage(error);
    }

    /** The signOut action; the state itself is cleared by the SIGNED_OUT event. */
    method SignOutAction(providerError: Option<AuthError>) returns (message: Option<string>)
      modifies localStore
      ensures message == ErrorMessage(providerError)
      ensures localStore.items == old(localStore.items) - {AuthService.OAuthRoleKey}
    {
      var error := AuthService.SignOut(localStore, providerError);
      message := ErrorMessage(error);
    }
  }

  /** A Google sign-up as designer that returns with a fresh merchant profile:
      the role is written to localStorage, the sign-in handler looks in an
      empty sessionStorage, and no metadata update is made. */
  method GoogleSignUpRoleIsLost(session: Session, table: AuthService.ProfileTable) returns (update: Option<string>)
    requires table(session.user.id).error.None?
    requires table(session.user.id).data.Some? && table(session.user.id).data.value.role == Merchant
    ensures update.None?
  {
    var local := new Storage();
    var sessionStore := new Storage();
    var auth := new AuthProvider(sessionStore, local);
    var message := auth.SignInGoogleAction(Some("designer"), None);
    assert local.items[AuthService.OAuthRoleKey] == "designer";
    update := auth.OnAuthStateChange(SignedIn, Some(session), table);
  }

  /** A sign-in, the delayed fetch's query sent while still signed in, a
      sign-out while it is in flight, then its answer: the signed-out state
      ends with the previous user's profile. */
  method StaleProfileAfterSignOut(session: Session, table: AuthService.ProfileTable)
    returns (view: AuthView)
    requires table(session.user.id).error.None? && table(session.user.id).data.Some?
    ensures view.user.None? && view.session.None?
    ensures view.profile == table(session.user.id).data && view.profile.Some?
  {
    var sessionStore := new Storage();
    var local := new Storage();
    var auth := new AuthProvider(sessionStore, local);
    auth.InitializeAuth(SessionFound(None), table);
    var _ := auth.OnAuthStateChange(SignedIn, Some(session), table);
    auth.BeginProfileFetch();
    var _ := auth.OnAuthStateChange(SignedOut, None, table);
    auth.FinishProfileFetch(table);
    view := auth.View();
  }

  /** A sign-out before the timer fires: the query goes out with no session,
      row-level security hides the row, and the signed-out state keeps no
      profile. */
  method SignOutBeforeTimerKeepsNoProfile(session: Session, table: AuthService.ProfileTable)
    returns (view: AuthView)
    ensures view.user.None? && view.session.None? && view.profile.None?
  {
    var sessionStore := new Storage();
    var local := new Storage();
    var auth := new AuthProvider(sessionStore, local);
    auth.InitializeAuth(SessionFound(None), table);
    var _ := auth.OnAuthStateChange(SignedIn, Some(session), table);
    var _ := auth.OnAuthStateChange(SignedOut, None, table);
    auth.BeginProfileFetch();
    auth.FinishProfileFetch(table);
    view := auth.View();
  }

  /** The in-flight sequence with the corrected answer step: the signed-out
      state keeps no profile. */
  method NoStaleProfileWithCurrentUserCheck(session: Session, table: AuthService.ProfileTable)
    returns (view: AuthView)
    ensures view.user.None? && view.session.None? && view.profile.None?
  {
    var sessionStore := new Storage();
    var local := new Storage();
    var auth := new AuthProvider(sessionStore, local);
    auth.InitializeAuth(SessionFound(None), table);
    var _ := auth.OnAuthStateChange(SignedIn, Some(session), table);
    auth.BeginProfileFetch();
    var _ := auth.OnAuthStateChange(SignedOut, None, table);
    auth.FinishProfileFetchForCurrentUser(table);
    view := auth.View();
  }
}
