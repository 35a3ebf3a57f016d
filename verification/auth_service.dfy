/** Registration, login, password reset, token rotation and Google sign-in.
    The authentication provider (user records, password hashing, account
    creation) is outside the model: its answers come in as parameters, and
    `compare` stands for the password-hash check. An access token is its
    payload, the user id it is signed for. */
module AuthService {
  import opened Wrappers
  import opened Text
  import opened DocumentIds
  import opened FirebaseService

  datatype HttpError = BadRequest(message: string) | Unauthorized(message: string)

  /** A provider error: its `code` (absent on errors the service raises
      itself) and its `message`. */
  datatype ProviderError = ProviderError(code: Option<string>, message: string)

  datatype AccessToken = AccessToken(uid: string)

  datatype AuthUser = AuthUser(uid: string, email: string, name: Option<string>, photoURL: Option<string>)

  /** `AuthResponse` with `success: true` (every failure is an error). */
  datatype AuthResponse = AuthResponse(message: string, token: AccessToken, refreshToken: string, user: Option<AuthUser>)

  /** The three collections the service writes. */
  datatype AuthState = AuthState(users: Users, refresh: RefreshTokens, resets: PasswordResets)

  const MinPasswordLength := 6
  const ShortPasswordMessage := "Password must be at least 6 characters long"
  const InvalidCredentials := "Invalid credentials"
  const AuthenticationError := "Authentication error"
  const ExternalProviderMessage := "User registered with external provider"
  const InvalidRefreshMessage := "Invalid refresh token"
  const InvalidResetMessage := "Invalid or expired reset token"
  const ResetFailedMessage := "Password reset failed"
  const InvalidGoogleToken := "Invalid Google ID token"
  const ForgotPasswordMessage := "If your email exists in our system, you will receive password reset instructions"

  /** `generateTokens`: a signed access token and a new refresh token. */
  function IssueTokens(st: AuthState, uid: string, now: int, freshId: string): (r: (AccessToken, string, AuthState))
    requires FreshIn(freshId, st.refresh)
    ensures r.0 == AccessToken(uid) && r.1 == freshId
    ensures r.2.users == st.users && r.2.resets == st.resets
    ensures ValidateRefreshToken(r.2.refresh, freshId, now) == Valid(uid)
    ensures r.2.refresh == st.refresh[freshId := r.2.refresh[freshId]]
  {
    var (id, refresh) := CreateRefreshToken(st.refresh, uid, now, freshId, None);
    (AccessToken(uid), id, st.(refresh := refresh))
  }

  /** The catch block of `register`. */
  function RegisterError(e: ProviderError): (r: HttpError)
    ensures r.BadRequest?
    ensures e.code == Some("auth/email-already-exists") ==> r.message == "Email already registered"
    ensures e.code == Some("auth/invalid-email") ==> r.message == "Invalid email format"
    ensures e.code == Some("auth/weak-password") ==> r.message == "Password is too weak"
    ensures e.code !in {Some("auth/email-already-exists"), Some("auth/invalid-email"), Some("auth/weak-password")}
      ==> r.message == "Registration failed: " + e.message
  {
    if e.code == Some("auth/email-already-exists") then BadRequest("Email already registered")
    else if e.code == Some("auth/invalid-email") then BadRequest("Invalid email format")
    else if e.code == Some("auth/weak-password") then BadRequest("Password is too weak")
    else BadRequest("Registration failed: " + e.message)
  }

  /** `register`. `created` is the provider's answer to creating the account
      (the new user id) and `refetched` its answer to reading that account
      back. The length check counts UTF-16 code units and throws inside the method's own `try`, so its
      message reaches the caller through the catch block; so does a failed
      read-back, after the account was created but before the users document
      is written. */
  function Register(st: AuthState, email: string, password: string, name: string, now: int,
                    created: Result<string, ProviderError>, refetched: Result<UserRecord, ProviderError>, freshId: string)
    : (r: Result<(AuthResponse, AuthState), HttpError>)
    requires FreshIn(freshId, st.refresh)
    ensures Utf16Length(password) < MinPasswordLength ==> r == Err(BadRequest("Registration failed: " + ShortPasswordMessage))
    ensures Utf16Length(password) >= MinPasswordLength && created.Err? ==> r == Err(RegisterError(created.error))
    ensures Utf16Length(password) >= MinPasswordLength && created.Ok? && refetched.Err? ==> r == Err(RegisterError(refetched.error))
    ensures r.Ok? <==> Utf16Length(password) >= MinPasswordLength && created.Ok? && refetched.Ok?
    ensures r.Ok? ==>
      && r.value.1.resets == st.resets && r.value.1.users.Keys == st.users.Keys + {created.value}
      && freshId in r.value.1.refresh && r.value.1.refresh == st.refresh[freshId := r.value.1.refresh[freshId]]
      && (forall k :: k in st.users && k != created.value ==> r.value.1.users[k] == st.users[k])
    ensures r.Ok? ==> var uid := created.value;
      && uid in r.value.1.users && r.value.1.users[uid].email == email && r.value.1.users[uid].name == Some(name)
      && r.value.1.users[uid].emailVerified == Some(false) && r.value.1.users[uid].roles == ["user"]
      && r.value.0 == AuthResponse("User registered successfully", AccessToken(uid), freshId, Some(AuthUser(uid, email, Some(name), None)))
      && ValidateRefreshToken(r.value.1.refresh, freshId, now) == Valid(uid)
  {
    if Utf16Length(password) < MinPasswordLength then Err(RegisterError(ProviderError(None, ShortPasswordMessage)))
    else
      match created
      case Err(e) => Err(RegisterError(e))
      case Ok(uid) =>
        if refetched.Err? then Err(RegisterError(refetched.error))
        else
          var doc := UserDoc(uid, email, Some(name), None, Some(false), ["user"], None, Some(now));
          var st1 := st.(users := st.users[uid := doc]);
          var (token, refresh, st2) := IssueTokens(st1, uid, now, freshId);
          Ok((AuthResponse("User registered successfully", token, refresh, Some(AuthUser(uid, email, Some(name), None))), st2))
  }

  /** Three characters outside the Basic Multilingual Plane make six code
      units, so such a password passes the length check. */
  lemma AstralPasswordIsLongEnough(st: AuthState, email: string, name: string, now: int, uid: string,
                                   u: UserRecord, freshId: string)
    requires FreshIn(freshId, st.refresh)
    ensures |"\U{1F600}\U{1F600}\U{1F600}"| < MinPasswordLength
    ensures Register(st, email, "\U{1F600}\U{1F600}\U{1F600}", name, now, Ok(uid), Ok(u), freshId).Ok?
  {
    assert Utf16Length("\U{1F600}\U{1F600}\U{1F600}") == 6 by {
      Utf16LengthAppend("\U{1F600}", "\U{1F600}\U{1F600}");
      Utf16LengthAppend("\U{1F600}", "\U{1F600}");
    }
  }

  /** What the provider holds about an account. */
  datatype UserRecord = UserRecord(uid: string, displayName: Option<string>, passwordHash: Option<string>, providerIds: seq<string>)

  /** `!!passwordHash`: an empty hash counts as none. */
  predicate HasHash(u: UserRecord) {
    u.passwordHash.Some? && u.passwordHash.value != ""
  }

  predicate HasPasswordProvider(u: UserRecord) {
    "password" in u.providerIds
  }

  /** How `login` judges the password before anything is written: `None` to
      go on, or the error it raises. `refetch` is the second lookup made
      when the account has a password provider but no hash; any error in
      that branch, a wrong password included, becomes "Authentication
      error". An account with a password provider and still no hash after
      the refetch is let in. */
  function PasswordCheck(u: UserRecord, password: string, refetch: Result<UserRecord, ProviderError>,
                         compare: (string, string) -> bool)
    : (r: Option<HttpError>)
    ensures r.Some? ==> r.value.Unauthorized?
    ensures HasHash(u) ==> (r.None? <==> compare(password, u.passwordHash.value))
    ensures HasHash(u) && r.Some? ==> r.value.message == InvalidCredentials
    ensures !HasHash(u) && !HasPasswordProvider(u) ==> r == Some(Unauthorized(ExternalProviderMessage))
    ensures !HasHash(u) && HasPasswordProvider(u) ==>
      (r.None? <==> refetch.Ok? && (!HasHash(refetch.value) || compare(password, refetch.value.passwordHash.value)))
    ensures !HasHash(u) && HasPasswordProvider(u) && r.Some? ==> r.value.message == AuthenticationError
  {
    if !HasHash(u) && HasPasswordProvider(u) then
      match refetch
      case Err(_) => Some(Unauthorized(AuthenticationError))
      case Ok(f) =>
        if HasHash(f) && !compare(password, f.passwordHash.value) then Some(Unauthorized(AuthenticationError))
        else None
    else if HasHash(u) then
      if compare(password, u.passwordHash.value) then None else Some(Unauthorized(InvalidCredentials))
    else Some(Unauthorized(ExternalProviderMessage))
  }

  /** The catch block of `login` for errors that are not already
      authorization errors. */
  function LoginError(e: ProviderError): (r: HttpError)
    ensures e.code in {Some("auth/user-not-found"), Some("auth/wrong-password")} ==> r == Unauthorized(InvalidCredentials)
    ensures e.code == Some("auth/invalid-email") ==> r == BadRequest("Invalid email format")
    ensures e.code !in {Some("auth/user-not-found"), Some("auth/wrong-password"), Some("auth/invalid-email")}
      ==> r == Unauthorized("Login failed: " + e.message)
  {
    if e.code == Some("auth/user-not-found") then Unauthorized(InvalidCredentials)
    else if e.code == Some("auth/invalid-email") then BadRequest("Invalid email format")
    else if e.code == Some("auth/wrong-password") then Unauthorized(InvalidCredentials)
    else Unauthorized("Login failed: " + e.message)
  }

  /** `login`. `lookup` is the provider's answer for the email. After the
      password check the users document is updated (not created), so a
      provider account without one fails. */
  function Login(st: AuthState, email: string, password: string, now: int,
                 lookup: Result<UserRecord, ProviderError>, refetch: Result<UserRecord, ProviderError>,
                 compare: (string, string) -> bool, freshId: string)
    : (r: Result<(AuthResponse, AuthState), HttpError>)
    requires FreshIn(freshId, st.refresh)
    ensures lookup.Err? ==> r == Err(LoginError(lookup.error))
    ensures lookup.Ok? && PasswordCheck(lookup.value, password, refetch, compare).Some?
      ==> r == Err(PasswordCheck(lookup.value, password, refetch, compare).value)
    ensures r.Ok? <==> lookup.Ok? && PasswordCheck(lookup.value, password, refetch, compare).None?
                       && lookup.value.uid in st.users
    ensures lookup.Ok? && PasswordCheck(lookup.value, password, refetch, compare).None? && lookup.value.uid !in st.users
      ==> r == Err(Unauthorized("Login failed: " + NoDocumentToUpdate))
    ensures r.Ok? ==> var u := lookup.value;
      && r.value.0 == AuthResponse("Login successful", AccessToken(u.uid), freshId, Some(AuthUser(u.uid, email, u.displayName, None)))
      && r.value.1.users == st.users[u.uid := st.users[u.uid].(lastLogin := Some(now))]
      && r.value.1.resets == st.resets
      && freshId in r.value.1.refresh && r.value.1.refresh == st.refresh[freshId := r.value.1.refresh[freshId]]
      && ValidateRefreshToken(r.value.1.refresh, freshId, now) == Valid(u.uid)
  {
    match lookup
    case Err(e) => Err(LoginError(e))
    case Ok(u) =>
      match PasswordCheck(u, password, refetch, compare)
      case Some(err) => Err(err)
      case None =>
        if u.uid !in st.users then Err(LoginError(ProviderError(None, NoDocumentToUpdate)))
        else
          var st1 := st.(users := st.users[u.uid := st.users[u.uid].(lastLogin := Some(now))]);
          var (token, refresh, st2) := IssueTokens(st1, u.uid, now, freshId);
          Ok((AuthResponse("Login successful", token, refresh, Some(AuthUser(u.uid, email, u.displayName, None))), st2))
  }

  /** A wrong password never logs in, whichever branch checks it. */
  lemma {:induction false} WrongPasswordNeverLogsIn(st: AuthState, email: string, password: string, now: int,
                                                   u: UserRecord, refetch: Result<UserRecord, ProviderError>,
                                                   compare: (string, string) -> bool, freshId: string)
    requires FreshIn(freshId, st.refresh)
    requires HasHash(u) ==> !compare(password, u.passwordHash.value)
    requires !HasHash(u) && HasPasswordProvider(u) ==>
      refetch.Ok? && HasHash(refetch.value) && !compare(password, refetch.value.passwordHash.value)
    ensures Login(st, email, password, now, Ok(u), refetch, compare, freshId).Err?
  {
    assert PasswordCheck(u, password, refetch, compare).Some?;
  }

  /** `forgotPassword`. `lookup` is `getUserByEmail`: the user id, `None`
      for an unknown email, or an error. The answer is the same in every
      case; only a known email gets a reset token. */
  function ForgotPassword(st: AuthState, lookup: Result<Option<string>, ProviderError>, now: int, freshId: string)
    : (r: (string, AuthState))
    requires FreshIn(freshId, st.resets)
    ensures r.0 == ForgotPasswordMessage
    ensures r.1.users == st.users && r.1.refresh == st.refresh
    ensures r.1 != st <==> lookup.Ok? && lookup.value.Some?
    ensures lookup.Ok? && lookup.value.Some? ==>
      freshId in r.1.resets && r.1.resets == st.resets[freshId := r.1.resets[freshId]]
      && ValidatePasswordResetToken(r.1.resets, freshId, now) == Valid(lookup.value.value)
  {
    match lookup
    case Ok(Some(uid)) =>
      var (_, resets) := CreatePasswordResetToken(st.resets, uid, now, freshId);
      (ForgotPasswordMessage, st.(resets := resets))
    case _ => (ForgotPasswordMessage, st)
  }

  const ResetSucceededMessage := "Password reset successfully"

  /** `resetPassword`. `update` is the provider's answer to setting the new
      password of a user; it is asked for the token's owner only. */
  function ResetPassword(st: AuthState, token: string, now: int, update: string -> Result<(), ProviderError>)
    : (r: Result<(string, AuthState), HttpError>)
    ensures r.Ok? <==> ResetUsable(st.resets, token, now) && update(st.resets[token].userId).Ok?
    ensures !ResetUsable(st.resets, token, now) ==> r == Err(BadRequest(InvalidResetMessage))
    ensures ResetUsable(st.resets, token, now) && r.Err? ==> r == Err(BadRequest(ResetFailedMessage))
    ensures r.Ok? ==> r.value.0 == ResetSucceededMessage
    ensures r.Ok? ==> r.value.1 == st.(resets := st.resets[token := st.resets[token].(used := true, usedAt := Some(now))])
  {
    match ValidatePasswordResetToken(st.resets, token, now)
    case Invalid => Err(BadRequest(InvalidResetMessage))
    case Valid(userId) =>
      if update(userId).Err? then Err(BadRequest(ResetFailedMessage))
      else
        match UsePasswordResetToken(st.resets, token, now)
        case Err(_) => Err(BadRequest(ResetFailedMessage))
        case Ok(resets) => Ok((ResetSucceededMessage, st.(resets := resets)))
  }

  /** A reset token works once: a second reset with it is refused. */
  lemma ResetTokenIsSingleUse(st: AuthState, token: string, now: int, later: int,
                              update: string -> Result<(), ProviderError>)
    requires ResetPassword(st, token, now, update).Ok?
    ensures ResetPassword(ResetPassword(st, token, now, update).value.1, token, later, update)
      == Err(BadRequest(InvalidResetMessage))
  {
  }

  /** `refreshToken`: the presented token is revoked before new ones are
      issued. */
  function RefreshToken(st: AuthState, token: string, now: int, freshId: string)
    : (r: Result<(AuthResponse, AuthState), HttpError>)
    requires FreshIn(freshId, st.refresh)
    ensures r.Ok? <==> RefreshUsable(st.refresh, token, now)
    ensures r.Err? ==> r.error == Unauthorized(InvalidRefreshMessage)
    ensures r.Ok? ==> var uid := st.refresh[token].userId;
      && r.value.0 == AuthResponse("Token refreshed successfully", AccessToken(uid), freshId, None)
      && r.value.1.users == st.users && r.value.1.resets == st.resets
      && r.value.1.refresh.Keys == st.refresh.Keys + {freshId}
      && ValidateRefreshToken(r.value.1.refresh, freshId, now) == Valid(uid)
      && r.value.1.refresh[token] == st.refresh[token].(revoked := true, revokedAt := Some(now))
      && (forall k :: k in st.refresh && k != token ==> r.value.1.refresh[k] == st.refresh[k])
  {
    match ValidateRefreshToken(st.refresh, token, now)
    case Invalid => Err(Unauthorized(InvalidRefreshMessage))
    case Valid(userId) =>
      match RevokeRefreshToken(st.refresh, token, now)
      case Err(_) => Err(Unauthorized(InvalidRefreshMessage))
      case Ok(refresh) =>
        var (access, newToken, st2) := IssueTokens(st.(refresh := refresh), userId, now, freshId);
        Ok((AuthResponse("Token refreshed successfully", access, newToken, None), st2))
  }

  /** A rotated refresh token cannot be replayed; its successor works. */
  lemma {:induction false} RefreshReplayFails(st: AuthState, token: string, now: int, freshId: string,
                                             later: int, nextId: string)
    requires FreshIn(freshId, st.refresh)
    requires RefreshToken(st, token, now, freshId).Ok?
    requires FreshIn(nextId, RefreshToken(st, token, now, freshId).value.1.refresh)
    ensures RefreshToken(RefreshToken(st, token, now, freshId).value.1, token, later, nextId)
      == Err(Unauthorized(InvalidRefreshMessage))
    ensures RefreshToken(RefreshToken(st, token, now, freshId).value.1, freshId, now, nextId).Ok?
  {
    var st1 := RefreshToken(st, token, now, freshId).value.1;
    assert st1.refresh[token].revoked;
    assert !RefreshUsable(st1.refresh, token, later);
    assert RefreshUsable(st1.refresh, freshId, now);
  }

  /** The fields of a Google ID token's payload the service reads. */
  datatype GooglePayload = GooglePayload(
    sub: Option<string>,
    email: Option<string>,
    name: Option<string>,
    givenName: Option<string>,
    familyName: Option<string>,
    picture: Option<string>,
    emailVerified: Option<bool>)

  /** `name || \`${given_name || ''} ${family_name || ''}\`.trim()`. */
  function GoogleDisplayName(p: GooglePayload): (r: string)
    ensures p.name.Some? && p.name.value != "" ==> r == p.name.value
    ensures !(p.name.Some? && p.name.value != "") ==>
      var full := p.givenName.GetOr("") + " " + p.familyName.GetOr("");
      r == Trim(full) && Unpadded(r) && StripsAt(full, r, |full| - |TrimStart(full)|)
  {
    if p.name.Some? && p.name.value != "" then p.name.value
    else Trim(p.givenName.GetOr("") + " " + p.familyName.GetOr(""))
  }

  /** `email_verified || true`. */
  function GoogleEmailVerified(p: GooglePayload): (r: bool)
    ensures r
  {
    p.emailVerified == Some(true) || true
  }

  /** The payload carries the two fields the service insists on. */
  predicate HasIdentity(p: GooglePayload) {
    p.sub.Some? && p.sub.value != "" && p.email.Some? && p.email.value != ""
  }

  /** `googleLogin`. `payload` is the decoded middle part of the ID token,
      `None` when it cannot be decoded; the signature is not checked. A new
      user gets a users document, a known one has it stamped. */
  function GoogleLogin(st: AuthState, payload: Option<GooglePayload>, now: int, freshId: string)
    : (r: Result<(AuthResponse, AuthState), HttpError>)
    requires FreshIn(freshId, st.refresh)
    ensures r.Err? <==> payload.None? || !HasIdentity(payload.value)
    ensures r.Err? ==> r.error == BadRequest(InvalidGoogleToken)
    ensures r.Ok? ==> var p := payload.value; var uid := p.sub.value;
      && r.value.0 == AuthResponse("Google login successful", AccessToken(uid), freshId,
                                   Some(AuthUser(uid, p.email.value, Some(GoogleDisplayName(p)), p.picture)))
      && uid in r.value.1.users && r.value.1.users[uid].provider == Some("google")
      && r.value.1.users[uid].lastLogin == Some(now)
      && (uid !in st.users ==>
            r.value.1.users[uid] == UserDoc(uid, p.email.value, Some(GoogleDisplayName(p)), p.picture, Some(true), ["user"], Some("google"), Some(now)))
      && (uid in st.users ==> r.value.1.users[uid] == st.users[uid].(provider := Some("google"), lastLogin := Some(now)))
      && r.value.1.users.Keys == st.users.Keys + {uid}
      && (forall k :: k in st.users && k != uid ==> r.value.1.users[k] == st.users[k])
      && r.value.1.resets == st.resets
      && r.value.1.refresh.Keys == st.refresh.Keys + {freshId}
      && (forall k :: k in st.refresh ==> r.value.1.refresh[k] == st.refresh[k])
      && ValidateRefreshToken(r.value.1.refresh, freshId, now) == Valid(uid)
  {
    if payload.None? || !HasIdentity(payload.value) then Err(BadRequest(InvalidGoogleToken))
    else
      var p := payload.value;
      var uid := p.sub.value;
      var name := GoogleDisplayName(p);
      var doc :=
        if uid !in st.users then
          UserDoc(uid, p.email.value, Some(name), p.picture, Some(GoogleEmailVerified(p)), ["user"], Some("google"), Some(now))
        else st.users[uid].(provider := Some("google"), lastLogin := Some(now));
      var (token, refresh, st2) := IssueTokens(st.(users := st.users[uid := doc]), uid, now, freshId);
      Ok((AuthResponse("Google login successful", token, refresh, Some(AuthUser(uid, p.email.value, Some(name), p.picture))), st2))
  }
}
