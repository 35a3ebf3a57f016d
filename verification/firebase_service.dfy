/** The token collections of the backing store and the user lookup with its
    fallback to the users collection. Refresh tokens and password-reset
    tokens are documents keyed by their own id; that id is the token. */
module FirebaseService {
  import opened Wrappers
  import opened DocumentIds

  const RefreshTokenLifetime := 7 * 24 * 60 * 60 * 1000
  const ResetTokenLifetime := 1 * 60 * 60 * 1000

  const RevokeFailedPrefix := "Failed to revoke refresh token: "
  const UseFailedPrefix := "Failed to use password reset token: "

  /** A stored instant as the token code finds it: a store timestamp (has
      `toDate`), a native date, or anything else. */
  datatype Expiry = Timestamp(ms: int) | NativeDate(ms: int) | Unreadable

  datatype RefreshToken = RefreshToken(userId: string, expiresAt: Expiry, createdAt: int, revoked: bool, revokedAt: Option<int>)

  datatype PasswordReset = PasswordReset(userId: string, expiresAt: Expiry, createdAt: int, used: bool, usedAt: Option<int>)

  type RefreshTokens = map<string, RefreshToken>
  type PasswordResets = map<string, PasswordReset>

  /** `{ valid, userId? }`. */
  datatype Validation = Invalid | Valid(userId: string)

  /** `createRefreshToken`: `expiresIn` is the optional argument (7 days
      when left out). */
  function CreateRefreshToken(tokens: RefreshTokens, userId: string, now: int, freshId: string, expiresIn: Option<int>)
    : (r: (string, RefreshTokens))
    requires FreshIn(freshId, tokens)
    ensures r.0 == freshId && freshId in r.1 && r.1 == tokens[freshId := r.1[freshId]]
    ensures r.1[freshId].userId == userId && !r.1[freshId].revoked
    ensures r.1[freshId].expiresAt == Timestamp(now + expiresIn.GetOr(RefreshTokenLifetime))
  {
    (freshId, tokens[freshId := RefreshToken(userId, Timestamp(now + expiresIn.GetOr(RefreshTokenLifetime)), now, false, None)])
  }

  /** A refresh token that `validateRefreshToken` accepts at `now`. Only a
      store timestamp can be read back; anything else makes the check throw,
      which counts as invalid. */
  predicate RefreshUsable(tokens: RefreshTokens, tokenId: string, now: int) {
    tokenId != "" && tokenId in tokens && !tokens[tokenId].revoked
    && tokens[tokenId].expiresAt.Timestamp? && !(tokens[tokenId].expiresAt.ms < now)
  }

  /** `validateRefreshToken`. */
  function ValidateRefreshToken(tokens: RefreshTokens, tokenId: string, now: int): (r: Validation)
    ensures r.Valid? <==> RefreshUsable(tokens, tokenId, now)
    ensures r.Valid? ==> r.userId == tokens[tokenId].userId
  {
    if tokenId == "" || tokenId !in tokens then Invalid
    else
      var t := tokens[tokenId];
      if t.revoked then Invalid
      else
        match t.expiresAt
        case Timestamp(ms) => if ms < now then Invalid else Valid(t.userId)
        case _ => Invalid
  }

  /** `revokeRefreshToken`: an update, so a missing token is an error. */
  function RevokeRefreshToken(tokens: RefreshTokens, tokenId: string, now: int): (r: Result<RefreshTokens, string>)
    ensures r.Err? <==> tokenId == "" || tokenId !in tokens
    ensures r.Err? ==> r.error == RevokeFailedPrefix + (if tokenId == "" then EmptyPathMessage else NoDocumentToUpdate)
    ensures r.Ok? ==> r.value == tokens[tokenId := tokens[tokenId].(revoked := true, revokedAt := Some(now))]
  {
    if tokenId == "" then Err(RevokeFailedPrefix + EmptyPathMessage)
    else if tokenId !in tokens then Err(RevokeFailedPrefix + NoDocumentToUpdate)
    else Ok(tokens[tokenId := tokens[tokenId].(revoked := true, revokedAt := Some(now))])
  }

  /** A fresh refresh token is valid for its owner up to and including the
      instant it expires, and invalid from the next millisecond on. */
  lemma RefreshTokenLifetimeIsInclusive(tokens: RefreshTokens, userId: string, now: int, freshId: string, expiresIn: Option<int>, at: int)
    requires FreshIn(freshId, tokens)
    ensures var (id, after) := CreateRefreshToken(tokens, userId, now, freshId, expiresIn);
      ValidateRefreshToken(after, id, at) == (if at <= now + expiresIn.GetOr(RefreshTokenLifetime) then Valid(userId) else Invalid)
  {
  }

  /** A revoked token never validates again, and revoking touches no other
      token's answer. */
  lemma RevokedTokenIsInvalid(tokens: RefreshTokens, tokenId: string, now: int, other: string, later: int)
    requires RevokeRefreshToken(tokens, tokenId, now).Ok?
    ensures ValidateRefreshToken(RevokeRefreshToken(tokens, tokenId, now).value, tokenId, later) == Invalid
    ensures other != tokenId ==>
      ValidateRefreshToken(RevokeRefreshToken(tokens, tokenId, now).value, other, later) == ValidateRefreshToken(tokens, other, later)
  {
  }

  /** `createPasswordResetToken`: unused, expiring one hour from now. */
  function CreatePasswordResetToken(resets: PasswordResets, userId: string, now: int, freshId: string)
    : (r: (string, PasswordResets))
    requires FreshIn(freshId, resets)
    ensures r.0 == freshId && freshId in r.1 && r.1 == resets[freshId := r.1[freshId]]
    ensures r.1[freshId].userId == userId && !r.1[freshId].used
    ensures r.1[freshId].expiresAt == Timestamp(now + ResetTokenLifetime)
  {
    (freshId, resets[freshId := PasswordReset(userId, Timestamp(now + ResetTokenLifetime), now, false, None)])
  }

  /** The instant a reset token expires, when it can be read. */
  function ExpiryInstant(e: Expiry): (r: Option<int>)
    ensures r.None? <==> e.Unreadable?
  {
    match e
    case Timestamp(ms) => Some(ms)
    case NativeDate(ms) => Some(ms)
    case Unreadable => None
  }

  /** A reset token that `validatePasswordResetToken` accepts at `now`. */
  predicate ResetUsable(resets: PasswordResets, tokenId: string, now: int) {
    tokenId != "" && tokenId in resets && !resets[tokenId].used
    && !resets[tokenId].expiresAt.Unreadable? && !(resets[tokenId].expiresAt.ms < now)
  }

  /** `validatePasswordResetToken`: both timestamp and date forms of
      `expiresAt` are read; any other form is invalid. */
  function ValidatePasswordResetToken(resets: PasswordResets, tokenId: string, now: int): (r: Validation)
    ensures r.Valid? <==> ResetUsable(resets, tokenId, now)
    ensures r.Valid? ==> r.userId == resets[tokenId].userId
  {
    if tokenId == "" || tokenId !in resets then Invalid
    else
      var t := resets[tokenId];
      if t.used then Invalid
      else
        match ExpiryInstant(t.expiresAt)
        case None => Invalid
        case Some(ms) => if ms < now then Invalid else Valid(t.userId)
  }

  /** `usePasswordResetToken`: an update, so a missing token is an error. */
  function UsePasswordResetToken(resets: PasswordResets, tokenId: string, now: int): (r: Result<PasswordResets, string>)
    ensures r.Err? <==> tokenId == "" || tokenId !in resets
    ensures r.Err? ==> r.error == UseFailedPrefix + (if tokenId == "" then EmptyPathMessage else NoDocumentToUpdate)
    ensures r.Ok? ==> r.value == resets[tokenId := resets[tokenId].(used := true, usedAt := Some(now))]
  {
    if tokenId == "" then Err(UseFailedPrefix + EmptyPathMessage)
    else if tokenId !in resets then Err(UseFailedPrefix + NoDocumentToUpdate)
    else Ok(resets[tokenId := resets[tokenId].(used := true, usedAt := Some(now))])
  }

  /** A fresh reset token is valid for exactly one hour, its last instant
      included. */
  lemma ResetTokenLifetimeIsInclusive(resets: PasswordResets, userId: string, now: int, freshId: string, at: int)
    requires FreshIn(freshId, resets)
    ensures var (id, after) := CreatePasswordResetToken(resets, userId, now, freshId);
      ValidatePasswordResetToken(after, id, at) == (if at <= now + ResetTokenLifetime then Valid(userId) else Invalid)
  {
  }

  /** A used reset token never validates again; other tokens keep their
      answers. */
  lemma UsedResetTokenIsInvalid(resets: PasswordResets, tokenId: string, now: int, other: string, later: int)
    requires UsePasswordResetToken(resets, tokenId, now).Ok?
    ensures ValidatePasswordResetToken(UsePasswordResetToken(resets, tokenId, now).value, tokenId, later) == Invalid
    ensures other != tokenId ==>
      ValidatePasswordResetToken(UsePasswordResetToken(resets, tokenId, now).value, other, later)
      == ValidatePasswordResetToken(resets, other, later)
  {
  }

  /** A document of the users collection. */
  datatype UserDoc = UserDoc(
    uid: string,
    email: string,
    name: Option<string>,
    photoURL: Option<string>,
    emailVerified: Option<bool>,
    roles: seq<string>,
    provider: Option<string>,
    lastLogin: Option<int>)

  type Users = map<string, UserDoc>

  /** The user view `getUserById` returns. */
  datatype AppUser = AppUser(
    uid: string,
    email: string,
    displayName: Option<string>,
    photoURL: Option<string>,
    emailVerified: bool,
    disabled: bool)

  /** What the authentication provider answers for a user id: the user, or
      an error with its code. */
  datatype AuthLookup = AuthFound(user: AppUser) | AuthFailed(code: string)

  /** JavaScript `x || null` on an optional string. */
  function NonEmpty(s: Option<string>): (r: Option<string>)
    ensures r.Some? <==> s.Some? && s.value != ""
    ensures r.Some? ==> r == s
  {
    if s.Some? && s.value != "" then s else None
  }

  /** The codes after which the users collection is consulted. */
  predicate FallsBack(code: string) {
    code == "auth/user-not-found" || code == "auth/insufficient-permission"
  }

  /** `getUserById`. `readFails` stands for a failing read of the users
      collection; the error value is the provider's code, rethrown. */
  function GetUserById(users: Users, uid: string, auth: AuthLookup, readFails: bool): (r: Result<Option<AppUser>, string>)
    ensures r.Err? <==> auth.AuthFailed? && !FallsBack(auth.code)
    ensures r.Err? ==> r.error == auth.code
    ensures auth.AuthFound? ==> r == Ok(Some(auth.user))
    ensures auth.AuthFailed? && r.Ok? ==> (r.value.Some? <==> !readFails && uid in users)
    ensures auth.AuthFailed? && r.Ok? && r.value.Some? ==>
      var d := users[uid];
      r.value.value == AppUser(d.uid, d.email, NonEmpty(d.name), NonEmpty(d.photoURL), d.emailVerified == Some(true), false)
  {
    match auth
    case AuthFound(user) => Ok(Some(user))
    case AuthFailed(code) =>
      if !FallsBack(code) then Err(code)
      else if readFails || uid !in users then Ok(None)
      else
        var d := users[uid];
        Ok(Some(AppUser(d.uid, d.email, NonEmpty(d.name), NonEmpty(d.photoURL), d.emailVerified.GetOr(false), false)))
  }
}
