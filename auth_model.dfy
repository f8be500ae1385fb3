/**
 * The authentication service's account and session logic as values: the
 * identity store and the session cache as maps, every external collaborator as
 * a function, and each controller action as a function from the stores before
 * the request to its response and the stores after it.
 */
module AuthModel {
  import opened Wrappers
  import opened Claims
  import UserRoles

  /** Times are whole seconds since DateTime.MinValue, so a default DateTime is 0. */
  const SecondsPerDay: int := 86400
  const DefaultExpiry: int := 0
  /** The absolute lifetime of a cache entry; the cache server enforces it (see Evict). */
  const CacheLifetimeSeconds: int := 30 * 60

  const InvalidRoleMessage: string := "Недопустимая роль"
  const AdminOnlyMessage: string := "Только администраторы могут создавать других администраторов"
  const TokenErrorMessage: string := "Ошибка при генерации токенов"
  const ProfileErrorMessage: string := "Ошибка при создании профиля"
  const ProfileLinkErrorMessage: string := "Ошибка связи с profile-service"
  const RegisteredMessage: string := "Пользователь успешно зарегистрирован"

  /** Placeholder fields of the profile created at registration. */
  const DefaultName: string := "Default"
  const DefaultPhone: string := "123456790"

  /**
   * An identity record. UserName is always set equal to Email by this service,
   * so one field stands for both.
   */
  datatype User = User(id: string, email: string, passwordHash: Option<string>, role: string,
                       refreshToken: Option<string>, refreshTokenExpiry: int)

  /**
   * What CacheUserData serialises. The token sits under the name RefreshTokens,
   * which no property of User matches.
   */
  datatype Snapshot = Snapshot(id: string, email: string, role: string,
                               refreshTokens: Option<string>, refreshTokenExpiry: int)

  /** The identity store (by account id) and the session cache (by key). */
  datatype Stores = Stores(users: map<string, User>, cache: map<string, Snapshot>)

  datatype TokenPair = TokenPair(accessToken: Option<string>, refreshToken: string)

  datatype RegisterRequest = RegisterRequest(email: string, password: string, role: string)

  /** The JSON body posted to the profile service at registration. */
  datatype ProfilePayload = ProfilePayload(userId: string, firstName: string, lastName: string, phone: string)

  /** The profile POST either yields an HTTP status or throws (refused connection, timeout). */
  datatype PostOutcome = Responded(status: int) | TransportFailed

  /**
   * GetPrincipalFromExpiredToken: the token's principal, a SecurityTokenException
   * with its message, or any other exception.
   */
  datatype Decoded = TokenAccepted(principal: Principal) | TokenRejected(message: string) | TokenFault

  /** FindByEmailAsync: no account, exactly one, or several (the store then throws). */
  datatype Lookup = NoAccount | Found(user: User) | Ambiguous

  /** The action results the controller returns. */
  datatype Response =
    | OkMessage(message: string)
    | OkTokens(tokens: TokenPair)
    | BadRequestText(text: string)
    | BadRequestErrors(descriptions: seq<string>)
    | Forbid(argument: string)
    | StatusCode(code: int, message: string)
    | Unauthorized(error: Option<string>)
    /** An exception escapes the action and the framework answers 500. */
    | Unhandled

  datatype Outcome = Outcome(response: Response, stores: Stores)

  /** What GenerateTokens yields: the pair, the rotated user, the stores after its writes. */
  datatype Issued = Issued(tokens: TokenPair, user: User, stores: Stores)

  /**
   * The collaborators the controller calls but whose code is not part of this
   * model: the JWT service, Identity's password hasher, validators and role
   * store, and the profile service over HTTP.
   */
  datatype Collaborators = Collaborators(
    generateAccessToken: User -> Option<string>,
    refreshExpireDays: int,
    principalFromExpiredToken: string -> Decoded,
    hashPassword: string -> string,
    verifyHashedPassword: (string, string) -> bool,
    userNameErrors: string -> seq<string>,
    duplicateUserName: string -> string,
    passwordErrors: string -> seq<string>,
    isInRole: (User, string) -> bool,
    postProfile: (string, ProfilePayload) -> PostOutcome)

  // ---------------------------------------------------------------- cache keys

  const UserKeyPrefix: string := "user_"
  const EmailKeyPrefix: string := "user_email_"

  /** The key every cache write uses. */
  function UserKey(id: string): (k: string)
    ensures |k| == |UserKeyPrefix| + |id| && k[..|UserKeyPrefix|] == UserKeyPrefix && k[|UserKeyPrefix|..] == id
  {
    UserKeyPrefix + id
  }

  /** The key Login probes. */
  function EmailKey(email: string): (k: string)
    ensures |k| == |EmailKeyPrefix| + |email| && k[..|EmailKeyPrefix|] == EmailKeyPrefix
  {
    EmailKeyPrefix + email
  }

  const HexDigits: string := "0123456789abcdef"

  /** Guid.ToString(): 32 lower-case hex digits in groups 8-4-4-4-12. */
  predicate IsGuidText(id: string) {
    && |id| == 36
    && forall i | 0 <= i < 36 :: if i in {8, 13, 18, 23} then id[i] == '-' else id[i] in HexDigits
  }

  /** A key of the form UserKey(id) for an id in Guid format. */
  predicate IsUserKey(k: string) {
    |k| >= |UserKeyPrefix| && k[..|UserKeyPrefix|] == UserKeyPrefix && IsGuidText(k[|UserKeyPrefix|..])
  }

  /**
   * What the stores keep between requests: accounts are filed under their own
   * Guid-format id, no two accounts share an email (CreateAsync refuses a taken
   * user name, and the user name is the email), and every cache key was written
   * as UserKey of a Guid-format id.
   */
  ghost predicate WellFormed(s: Stores) {
    && (forall id | id in s.users :: s.users[id].id == id && IsGuidText(id))
    && (forall a, b | a in s.users && b in s.users && s.users[a].email == s.users[b].email :: a == b)
    && (forall k | k in s.cache :: IsUserKey(k))
  }

  // ---------------------------------------------------------------- cache I/O

  /** The anonymous object CacheUserData serialises: no password hash, the token under RefreshTokens. */
  function Serialize(u: User): (snap: Snapshot)
    ensures snap.id == u.id && snap.email == u.email && snap.role == u.role
    ensures snap.refreshTokens == u.refreshToken && snap.refreshTokenExpiry == u.refreshTokenExpiry
  {
    Snapshot(u.id, u.email, u.role, u.refreshToken, u.refreshTokenExpiry)
  }

  /**
   * JsonSerializer.Deserialize<User>: properties are matched by name, so
   * RefreshTokens is ignored and PasswordHash is absent; both come back null.
   */
  function Deserialize(snap: Snapshot): (u: User)
    ensures u.id == snap.id && u.email == snap.email && u.role == snap.role
    ensures u.refreshTokenExpiry == snap.refreshTokenExpiry
    ensures u.passwordHash.None? && u.refreshToken.None?
  {
    User(snap.id, snap.email, None, snap.role, None, snap.refreshTokenExpiry)
  }

  /** CacheUserData: overwrite the entry under UserKey(u.id). */
  function CacheUserData(s: Stores, u: User): (r: Stores)
    ensures r.users == s.users
    ensures GetCachedUserById(r.cache, Some(u.id)) == Some(Deserialize(Serialize(u)))
    ensures forall k | k != UserKey(u.id) :: (k in r.cache <==> k in s.cache)
    ensures forall k | k in s.cache && k != UserKey(u.id) :: r.cache[k] == s.cache[k]
  {
    s.(cache := s.cache[UserKey(u.id) := Serialize(u)])
  }

  /** GetCachedUser: probe EmailKey(email). */
  function GetCachedUser(cache: map<string, Snapshot>, email: string): (r: Option<User>)
    ensures r.Some? <==> EmailKey(email) in cache
  {
    var key := EmailKey(email);
    if key in cache then Some(Deserialize(cache[key])) else None
  }

  /** GetCachedUserById: probe UserKey(userId); a null id interpolates as "". */
  function GetCachedUserById(cache: map<string, Snapshot>, userId: Option<string>): (r: Option<User>)
    ensures r.Some? <==> UserKey(userId.GetOr("")) in cache
  {
    var key := UserKey(userId.GetOr(""));
    if key in cache then Some(Deserialize(cache[key])) else None
  }

  // ---------------------------------------------------------------- checks

  /** ValidateCachedUser: the cached hash must equal a fresh hash of the password. */
  predicate ValidateCachedUser(env: Collaborators, u: User, password: string): (b: bool)
    ensures u.passwordHash.None? ==> !b
  {
    u.passwordHash == Some(env.hashPassword(password))
  }

  /** ValidateCachedRefreshToken: same token, and an expiry strictly after now. */
  predicate ValidateCachedRefreshToken(u: User, refreshToken: string, now: int): (b: bool)
    ensures b <==> u.refreshToken == Some(refreshToken) && u.refreshTokenExpiry > now
    ensures u.refreshTokenExpiry == now ==> !b
  {
    u.refreshToken == Some(refreshToken) && u.refreshTokenExpiry > now
  }

  /** CheckPasswordAsync: false for an account without a password hash. */
  predicate CheckPassword(env: Collaborators, u: User, password: string): (b: bool)
    ensures u.passwordHash.None? ==> !b
    ensures b ==> env.verifyHashedPassword(u.passwordHash.value, password)
  {
    u.passwordHash.Some? && env.verifyHashedPassword(u.passwordHash.value, password)
  }

  /**
   * ValidateAdminCreation: the caller is authenticated, its NameIdentifier names
   * a stored account, and the role store puts that account in role Admin.
   */
  function ValidateAdminCreation(users: map<string, User>, env: Collaborators, caller: Principal): (b: bool)
    ensures b <==> caller.isAuthenticated
                   && exists id | id in users :: FindFirst(caller, NameIdentifier) == Some(id)
                                                 && env.isInRole(users[id], UserRoles.Admin)
  {
    caller.isAuthenticated &&
    match FindFirst(caller, NameIdentifier)
    case None => false
    case Some(id) => id in users && env.isInRole(users[id], UserRoles.Admin)
  }

  /** The cached user Login's first branch accepts: a hit under EmailKey(email) whose hash check passes. */
  function CachedLogin(cache: map<string, Snapshot>, env: Collaborators, email: string, password: string): (r: Option<User>)
    ensures r.Some? ==> EmailKey(email) in cache && r == GetCachedUser(cache, email)
    ensures r.Some? ==> r.value.passwordHash == Some(env.hashPassword(password))
  {
    match GetCachedUser(cache, email)
    case Some(u) => if ValidateCachedUser(env, u, password) then Some(u) else None
    case None => None
  }

  /** The cached user Refresh's first branch accepts: a hit under UserKey whose token is valid. */
  function CachedRefresh(cache: map<string, Snapshot>, userId: Option<string>, refreshToken: string, now: int): (r: Option<User>)
    ensures r.Some? ==> UserKey(userId.GetOr("")) in cache && r == GetCachedUserById(cache, userId)
    ensures r.Some? ==> r.value.refreshToken == Some(refreshToken) && r.value.refreshTokenExpiry > now
  {
    match GetCachedUserById(cache, userId)
    case Some(u) => if ValidateCachedRefreshToken(u, refreshToken, now) then Some(u) else None
    case None => None
  }

  /** Response.IsSuccessStatusCode */
  predicate IsSuccessStatusCode(status: int): (b: bool)
    ensures b <==> 200 <= status < 300
  {
    200 <= status <= 299
  }

  // ---------------------------------------------------------------- identity store

  lemma SingletonHasOneMember(ids: set<string>)
    requires |ids| == 1
    ensures exists id :: ids == {id}
  {
    var id :| id in ids;
    assert |ids - {id}| == 0;
    assert ids == {id};
  }

  lemma TwoMembers(ids: set<string>)
    requires |ids| >= 2
    ensures exists a, b | a in ids && b in ids :: a != b
  {
    var a :| a in ids;
    assert |ids - {a}| >= 1;
    var b :| b in ids - {a};
  }

  /** FindByEmailAsync: the single account with this email, if there is exactly one. */
  function FindByEmail(users: map<string, User>, email: string): (r: Lookup)
    ensures r.NoAccount? <==> forall id | id in users :: users[id].email != email
    ensures r.Found? ==> exists id | id in users :: users[id] == r.user
    ensures r.Found? ==> r.user.email == email
    ensures r.Found? ==> forall id | id in users && users[id].email == email :: users[id] == r.user
    ensures r.Ambiguous? ==> exists a, b | a in users && b in users ::
                               a != b && users[a].email == email && users[b].email == email
  {
    var ids := set id | id in users && users[id].email == email;
    assert forall other | other in users && users[other].email == email :: other in ids;
    if |ids| == 0 then
      NoAccount
    else if |ids| == 1 then
      SingletonHasOneMember(ids);
      var id :| ids == {id};
      Found(users[id])
    else
      TwoMembers(ids);
      Ambiguous
  }

  /** Some account already has this email (as its UserName). */
  predicate EmailTaken(users: map<string, User>, email: string) {
    exists id | id in users :: users[id].email == email
  }

  /**
   * CreateAsync(user, password)'s validation. The password is validated first
   * and its complaints, if any, are returned alone. Only an acceptable password
   * reaches the user validator: user-name complaints, or else a duplicate-name
   * complaint when the name is taken. Creation succeeds exactly when the list
   * is empty.
   */
  function CreateErrors(users: map<string, User>, env: Collaborators, email: string, password: string): (errors: seq<string>)
    ensures env.passwordErrors(password) != [] ==> errors == env.passwordErrors(password)
    ensures env.passwordErrors(password) == [] && env.userNameErrors(email) != [] ==> errors == env.userNameErrors(email)
    ensures env.passwordErrors(password) == [] && env.userNameErrors(email) == [] ==>
              (errors != [] <==> EmailTaken(users, email))
    ensures EmailTaken(users, email) && env.userNameErrors(email) == [] ==> errors != []
    ensures errors == [] ==> !EmailTaken(users, email) && env.passwordErrors(password) == []
  {
    var passwordErrors := env.passwordErrors(password);
    if passwordErrors != [] then
      passwordErrors
    else
      var nameErrors := env.userNameErrors(email);
      if nameErrors != [] then nameErrors
      else if EmailTaken(users, email) then [env.duplicateUserName(email)]
      else []
  }

  /** The account `new User { … }` plus CreateAsync stores: hashed password, no refresh token yet. */
  function NewUser(env: Collaborators, id: string, req: RegisterRequest): (u: User)
    ensures u.id == id && u.email == req.email && u.role == req.role
    ensures u.passwordHash == Some(env.hashPassword(req.password))
    ensures u.refreshToken.None? && u.refreshTokenExpiry == DefaultExpiry
  {
    User(id, req.email, Some(env.hashPassword(req.password)), req.role, None, DefaultExpiry)
  }

  /** DeleteAsync: remove the account; the cache is not touched. */
  function DeleteUser(s: Stores, id: string): (r: Stores)
    ensures id !in r.users
    ensures forall other | other != id :: (other in r.users <==> other in s.users)
    ensures forall other | other in s.users && other != id :: r.users[other] == s.users[other]
    ensures r.cache == s.cache
  {
    s.(users := s.users - {id})
  }

  // ---------------------------------------------------------------- actions

  /**
   * GenerateTokens: a new access token for `u`, a new refresh token `newRefreshToken`
   * with an expiry refreshExpireDays after now, written to the store (when the
   * account is there to update) and then to the cache.
   */
  function GenerateTokensSpec(s: Stores, env: Collaborators, u: User, newRefreshToken: string, now: int): (g: Issued)
    ensures g.user.id == u.id && g.user.refreshToken == Some(newRefreshToken)
    ensures g.user.refreshTokenExpiry == now + env.refreshExpireDays * SecondsPerDay
    ensures g.stores.users.Keys == s.users.Keys
    ensures g.stores.cache.Keys == s.cache.Keys + {UserKey(u.id)}
  {
    var accessToken := env.generateAccessToken(u);
    var rotated := u.(refreshToken := Some(newRefreshToken), refreshTokenExpiry := now + env.refreshExpireDays * SecondsPerDay);
    var users := if u.id in s.users then s.users[u.id := rotated] else s.users;
    Issued(TokenPair(accessToken, newRefreshToken), rotated, CacheUserData(Stores(users, s.cache), rotated))
  }

  /**
   * Register: role check, admin gate, account creation, token issue, profile
   * POST, cache write; a failure after creation deletes the account again.
   */
  function RegisterSpec(s: Stores, env: Collaborators, caller: Principal, req: RegisterRequest,
                        newId: string, newRefreshToken: string, now: int): (o: Outcome)
    ensures o.response.OkMessage? || o.stores.users == s.users
    ensures o.response.OkMessage? ==> newId !in s.users && o.stores.users.Keys == s.users.Keys + {newId}
    ensures o.stores.cache == s.cache || o.stores.cache.Keys == s.cache.Keys + {UserKey(newId)}
  {
    if !UserRoles.IsValidRole(req.role) then
      Outcome(BadRequestText(InvalidRoleMessage), s)
    else if req.role == UserRoles.Admin && !ValidateAdminCreation(s.users, env, caller) then
      Outcome(Forbid(AdminOnlyMessage), s)
    else
      var errors := CreateErrors(s.users, env, req.email, req.password);
      if errors != [] then
        Outcome(BadRequestErrors(errors), s)
      else if newId in s.users then
        // the insert violates the primary key and the store throws
        Outcome(Unhandled, s)
      else
        var user := NewUser(env, newId, req);
        var issued := GenerateTokensSpec(s.(users := s.users[newId := user]), env, user, newRefreshToken, now);
        match issued.tokens.accessToken
        case None =>
          Outcome(StatusCode(500, TokenErrorMessage), DeleteUser(issued.stores, newId))
        case Some(accessToken) =>
          match env.postProfile(accessToken, ProfilePayload(newId, DefaultName, DefaultName, DefaultPhone))
          case TransportFailed =>
            Outcome(StatusCode(500, ProfileLinkErrorMessage), DeleteUser(issued.stores, newId))
          case Responded(status) =>
            if !IsSuccessStatusCode(status) then
              Outcome(StatusCode(500, ProfileErrorMessage), DeleteUser(issued.stores, newId))
            else
              Outcome(OkMessage(RegisteredMessage), CacheUserData(issued.stores, issued.user))
  }

  /**
   * Login: a cached session probed by email and checked against the cached
   * hash; otherwise the store's account by email and its password check.
   */
  function LoginSpec(s: Stores, env: Collaborators, email: string, password: string,
                     newRefreshToken: string, now: int): (o: Outcome)
    ensures o.stores.users.Keys == s.users.Keys
    ensures o.response.OkTokens? || o.stores == s
  {
    match CachedLogin(s.cache, env, email, password)
    case Some(cachedUser) =>
      var issued := GenerateTokensSpec(s, env, cachedUser, newRefreshToken, now);
      Outcome(OkTokens(issued.tokens), issued.stores)
    case None =>
      match FindByEmail(s.users, email)
      case Ambiguous => Outcome(Unhandled, s)
      case NoAccount => Outcome(Unauthorized(None), s)
      case Found(user) =>
        if !CheckPassword(env, user, password) then Outcome(Unauthorized(None), s)
        else
          var issued := GenerateTokensSpec(CacheUserData(s, user), env, user, newRefreshToken, now);
          Outcome(OkTokens(issued.tokens), issued.stores)
  }

  /**
   * Refresh: decode the expired access token; a cached session whose token
   * matches and has not expired; otherwise the stored account, whose token must
   * match exactly and whose expiry must be strictly after now.
   */
  function RefreshSpec(s: Stores, env: Collaborators, accessToken: string, refreshToken: string,
                       newRefreshToken: string, now: int): (o: Outcome)
    ensures o.stores.users.Keys == s.users.Keys
    ensures o.response.OkTokens? || o.stores == s
  {
    match env.principalFromExpiredToken(accessToken)
    case TokenRejected(message) => Outcome(Unauthorized(Some(message)), s)
    case TokenFault => Outcome(Unhandled, s)
    case TokenAccepted(principal) =>
      var userId := FindFirst(principal, NameIdentifier);
      match CachedRefresh(s.cache, userId, refreshToken, now)
      case Some(cachedUser) =>
        var issued := GenerateTokensSpec(s, env, cachedUser, newRefreshToken, now);
        Outcome(OkTokens(issued.tokens), issued.stores)
      case None =>
      // FindByIdAsync(null) finds no account: the store's key lookup yields
      // null for a null key.
      if userId.None? || userId.value !in s.users then
        Outcome(Unauthorized(None), s)
      else
        var user := s.users[userId.value];
        if user.refreshToken != Some(refreshToken) || user.refreshTokenExpiry <= now then
          Outcome(Unauthorized(None), s)
        else
          var issued := GenerateTokensSpec(CacheUserData(s, user), env, user, newRefreshToken, now);
          Outcome(OkTokens(issued.tokens), issued.stores)
  }
}
