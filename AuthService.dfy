/** The authentication service: role validation for sign-up, the shaping of the
    identity provider's answers into results, and the pending OAuth role kept in
    `localStorage` across the Google redirect. The provider and the profiles
    table are parameters: a provider call is the answer it gives, a table is a
    function from user id to the row query's answer. */
module AuthService {
  import opened Types
  import opened BrowserStorage

  /** The `localStorage` key holding the role chosen before an OAuth redirect */
  const OAuthRoleKey := "kyrant_oauth_role"

  /** The roles a user may choose at sign-up; admin is never self-assigned. */
  const AllowedSignupRoles: seq<Role> := [Designer, Merchant]

  const AlreadyRegisteredMessage := "User already registered"

  /** `roles.includes(name as UserRole)`: the listed role with that name, if any */
  function FindRoleNamed(roles: seq<Role>, name: string): (r: Option<Role>)
    ensures r.Some? ==> r.value in roles && RoleName(r.value) == name
    ensures r.None? ==> forall a :: a in roles ==> RoleName(a) != name
  {
    if roles == [] then None
    else if RoleName(roles[0]) == name then Some(roles[0])
    else FindRoleNamed(roles[1..], name)
  }

  /** validateSignupRole: a signup role name is kept, anything else becomes merchant. */
  function ValidateSignupRole(role: string): (r: Role)
    ensures r in AllowedSignupRoles && r != Admin
    ensures (role == "designer" || role == "merchant") ==> RoleName(r) == role
    ensures role != "designer" && role != "merchant" ==> r == Merchant
  {
    match FindRoleNamed(AllowedSignupRoles, role)
    case Some(a) => a
    case None => Merchant
  }

  /** Validating an already validated role changes nothing. */
  lemma ValidateSignupRoleIdempotent(role: string)
    ensures ValidateSignupRole(RoleName(ValidateSignupRole(role))) == ValidateSignupRole(role)
  {
  }

  /** Asking for the admin role at sign-up yields a merchant. */
  lemma AdminIsClampedToMerchant()
    ensures ValidateSignupRole("admin") == Merchant
    ensures RoleName(ValidateSignupRole("admin")) != "admin"
  {
  }

  /* ── Email / password ── */

  /** The user metadata sent with a sign-up */
  datatype SignUpMetadata = SignUpMetadata(role: Role, fullName: string)

  /** The arguments of the provider's `signUp` */
  datatype SignUpRequest = SignUpRequest(
    email: string,
    password: string,
    data: SignUpMetadata,
    emailRedirectTo: string)

  /** The provider's `{ data: { user, session }, error }` answer, with an absent
      user or session as None; the service returns the same shape (`AuthResult`). */
  datatype AuthResult = AuthResult(user: Option<User>, session: Option<Session>, error: Option<AuthError>)

  /** What `signUpWithEmail` sends to the provider and what it returns */
  datatype SignUpCall = SignUpCall(request: SignUpRequest, result: AuthResult)

  /** A user with a missing or empty identities list */
  predicate HasNoIdentities(u: User) {
    u.identities.None? || |u.identities.value| == 0
  }

  /** The provider's anti-enumeration answer for an address that is already
      registered: no error, and a user without identities. */
  predicate IsExistingAccountEcho(response: AuthResult) {
    response.error.None? && response.user.Some? && HasNoIdentities(response.user.value)
  }

  /** The sign-up request: the validated role, never the raw one, and an empty
      full name when none is given. `origin` stands for `window.location.origin`. */
  function SignUpRequestFor(email: string, password: string, role: string, fullName: Option<string>, origin: string)
    : (request: SignUpRequest)
    ensures request.email == email && request.password == password
    ensures request.data.role == ValidateSignupRole(role) && request.data.role != Admin
    ensures request.data.fullName == fullName.GetOr("")
    ensures request.emailRedirectTo == origin + "/email-confirmed"
  {
    SignUpRequest(
      email, password,
      SignUpMetadata(ValidateSignupRole(role), fullName.GetOr("")),
      origin + "/email-confirmed")
  }

  /** signUpWithEmail. `provider` is the identity provider's answer to a sign-up request. */
  function SignUpWithEmail(
    email: string,
    password: string,
    role: string,
    fullName: Option<string>,
    origin: string,
    provider: SignUpRequest -> AuthResult): (call: SignUpCall)
    ensures call.request == SignUpRequestFor(email, password, role, fullName, origin)
    ensures call.request.data.role != Admin
    ensures IsExistingAccountEcho(provider(call.request)) ==>
      call.result == AuthResult(None, None, Some(AuthError(AlreadyRegisteredMessage)))
    ensures !IsExistingAccountEcho(provider(call.request)) ==> call.result == provider(call.request)
  {
    var request := SignUpRequestFor(email, password, role, fullName, origin);
    var response := provider(request);
    if IsExistingAccountEcho(response) then
      SignUpCall(request, AuthResult(None, None, Some(AuthError(AlreadyRegisteredMessage))))
    else
      SignUpCall(request, AuthResult(response.user, response.session, response.error))
  }

  /** signInWithEmail: the provider's answer to `signInWithPassword` */
  function SignInWithEmail(response: AuthResult): (r: AuthResult)
    ensures r.user == response.user && r.session == response.session && r.error == response.error
  {
    AuthResult(response.user, response.session, response.error)
  }

  /** Sign-up reports no error exactly when the provider reported none and did
      not answer with the already-registered echo; a successful sign-up never
      returns a user without identities. */
  lemma SignUpSucceedsIff(
    email: string, password: string, role: string, fullName: Option<string>,
    origin: string, provider: SignUpRequest -> AuthResult)
    ensures var call := SignUpWithEmail(email, password, role, fullName, origin, provider);
      var response := provider(call.request);
      && (call.result.error.None? <==> response.error.None? && !(response.user.Some? && HasNoIdentities(response.user.value)))
      && (call.result.error.None? && call.result.user.Some? ==> !HasNoIdentities(call.result.user.value))
  {
  }

  /** Apart from the already-registered echo, sign-up shapes the provider's
      answer exactly as sign-in does: user, session and error pass through. */
  lemma SignUpAgreesWithSignIn(
    email: string, password: string, role: string, fullName: Option<string>,
    origin: string, provider: SignUpRequest -> AuthResult)
    ensures var call := SignUpWithEmail(email, password, role, fullName, origin, provider);
      !IsExistingAccountEcho(provider(call.request)) ==>
        call.result == SignInWithEmail(provider(call.request)) == provider(call.request)
  {
  }

  /* ── Google OAuth and sign-out ── */

  /** `localStorage` after signInWithGoogle: the validated role is written when a
      non-empty role is given, and the key is removed again if the OAuth call fails. */
  function StorageAfterGoogle(items: map<string, string>, role: Option<string>, oauthError: Option<AuthError>)
    : (after: map<string, string>)
    ensures oauthError.Some? ==> OAuthRoleKey !in after
    ensures oauthError.None? && Truthy(role) ==>
      OAuthRoleKey in after && after[OAuthRoleKey] == RoleName(ValidateSignupRole(role.value))
    ensures oauthError.None? && Truthy(role) ==> after[OAuthRoleKey] in {"designer", "merchant"}
    ensures oauthError.None? && !Truthy(role) ==> after == items
    ensures forall k :: k != OAuthRoleKey ==> (k in after <==> k in items)
    ensures forall k :: k != OAuthRoleKey && k in after ==> after[k] == items[k]
  {
    var written := if Truthy(role) then items[OAuthRoleKey := RoleName(ValidateSignupRole(role.value))] else items;
    if oauthError.Some? then written - {OAuthRoleKey} else written
  }

  /** signInWithGoogle. `oauthError` is the outcome of the provider's OAuth call. */
  method SignInWithGoogle(local: Storage, role: Option<string>, oauthError: Option<AuthError>)
    returns (error: Option<AuthError>)
    modifies local
    ensures error == oauthError
    ensures local.items == StorageAfterGoogle(old(local.items), role, oauthError)
  {
    var validatedRole := if Truthy(role) then ValidateSignupRole(role.value) else Merchant;
    if Truthy(role) {
      local.SetItem(OAuthRoleKey, RoleName(validatedRole));
    }
    if oauthError.Some? {
      local.RemoveItem(OAuthRoleKey);
    }
    error := oauthError;
  }

  /** signOut. `providerError` is the outcome of the provider's sign-out; the
      pending OAuth role is removed either way. */
  method SignOut(local: Storage, providerError: Option<AuthError>) returns (error: Option<AuthError>)
    modifies local
    ensures error == providerError
    ensures local.items == old(local.items) - {OAuthRoleKey}
  {
    local.RemoveItem(OAuthRoleKey);
    error := providerError;
  }

  /* ── Profiles ── */

  datatype DbError = DbError(message: string)

  /** The answer of `select ... .eq("id", userId).single()`: a row or an error */
  datatype ProfileResponse = ProfileResponse(data: Option<Profile>, error: Option<DbError>)

  /** The profiles table, as the answer it gives for each user id */
  type ProfileTable = string -> ProfileResponse

  datatype ProfileResult = ProfileResult(profile: Option<Profile>, error: Option<string>)

  /** getProfile: on a query error, no profile and the error's message. */
  function GetProfile(userId: string, table: ProfileTable): (r: ProfileResult)
    ensures r.error.Some? <==> table(userId).error.Some?
    ensures table(userId).error.Some? ==> r.profile.None? && r.error.value == table(userId).error.value.message
    ensures table(userId).error.None? ==> r.profile == table(userId).data
  {
    var response := table(userId);
    if response.error.Some? then ProfileResult(None, Some(response.error.value.message))
    else ProfileResult(response.data, None)
  }

  /** The fields a user may update; the role is not among them. */
  datatype ProfileUpdate = ProfileUpdate(fullName: Option<string>, avatarUrl: Option<string>)

  /** updateProfile. `store` is the table's answer to the update: an error or none. */
  function UpdateProfile(userId: string, updates: ProfileUpdate, store: (string, ProfileUpdate) -> Option<DbError>)
    : (error: Option<string>)
    ensures error.Some? <==> store(userId, updates).Some?
    ensures error.Some? ==> error.value == store(userId, updates).value.message
  {
    var answer := store(userId, updates);
    if answer.Some? then Some(answer.value.message) else None
  }
}
