/**
 * What the authentication actions guarantee, stated over the specification
 * functions in AuthModel, including three defects of the source that the model
 * reproduces rather than repairs.
 */
module AuthProperties {
  import opened Wrappers
  import opened Claims
  import UserRoles
  import opened AuthModel

  // ---------------------------------------------------------------- cache defects

  /** The snapshot round trip loses the refresh token (and the hash was never written). */
  lemma DeserializeDropsRefreshToken(u: User)
    ensures Deserialize(Serialize(u)) == u.(passwordHash := None, refreshToken := None)
    ensures Deserialize(Serialize(u)).refreshToken.None?
  {
  }

  /** Refresh's cached branch never fires: a cached user's refresh token is always null. */
  lemma CachedRefreshNeverHits(cache: map<string, Snapshot>, userId: Option<string>, refreshToken: string, now: int)
    ensures CachedRefresh(cache, userId, refreshToken, now).None?
  {
  }

  /** Login's cached branch never fires: a cached user's password hash is always null. */
  lemma CachedLoginNeverHits(cache: map<string, Snapshot>, env: Collaborators, email: string, password: string)
    ensures CachedLogin(cache, env, email, password).None?
  {
  }

  /** No key written as UserKey of a Guid-format id equals a key Login probes. */
  lemma UserKeyIsNeverEmailKey(k: string, email: string)
    requires IsUserKey(k)
    ensures k != EmailKey(email)
  {
    var id := k[|UserKeyPrefix|..];
    assert id[1] == k[|UserKeyPrefix| + 1];
    assert id[1] in HexDigits;
    assert EmailKey(email)[|UserKeyPrefix| + 1] == 'm';
  }

  /** Login probes a key that no write ever creates, so its cache lookup always misses. */
  lemma EmailProbeMisses(s: Stores, email: string)
    requires WellFormed(s)
    ensures GetCachedUser(s.cache, email).None?
  {
    forall k | k in s.cache ensures k != EmailKey(email) {
      UserKeyIsNeverEmailKey(k, email);
    }
  }

  // ---------------------------------------------------------------- identity store

  /** Under WellFormed the store's lookup by email never throws, and finds the one account. */
  lemma FindByEmailUnique(users: map<string, User>, email: string, id: string)
    requires WellFormed(Stores(users, map[]))
    requires id in users && users[id].email == email
    ensures FindByEmail(users, email) == Found(users[id])
  {
  }

  lemma FindByEmailNeverAmbiguous(users: map<string, User>, email: string)
    requires WellFormed(Stores(users, map[]))
    ensures !FindByEmail(users, email).Ambiguous?
  {
    if !FindByEmail(users, email).NoAccount? {
      var id :| id in users && users[id].email == email;
      FindByEmailUnique(users, email, id);
    }
  }

  // ---------------------------------------------------------------- token rotation

  /**
   * Every issue overwrites the stored token with the new one and sets its expiry
   * refreshExpireDays after now, so the previous token no longer matches.
   */
  lemma GenerateTokensRotates(s: Stores, env: Collaborators, u: User, newRefreshToken: string, now: int)
    requires u.id in s.users
    ensures var g := GenerateTokensSpec(s, env, u, newRefreshToken, now);
      && g.tokens == TokenPair(env.generateAccessToken(u), newRefreshToken)
      && g.stores.users == s.users[u.id := g.user]
      && g.stores.users[u.id].refreshToken == Some(newRefreshToken)
      && g.stores.users[u.id].refreshTokenExpiry == now + env.refreshExpireDays * SecondsPerDay
      && g.stores.cache[UserKey(u.id)] == Serialize(g.user)
      && (u.refreshToken.Some? && u.refreshToken != Some(newRefreshToken) ==>
            g.stores.users[u.id].refreshToken != u.refreshToken)
  {
  }

  // ---------------------------------------------------------------- Register

  lemma RegisterRejectsUnknownRole(s: Stores, env: Collaborators, caller: Principal, req: RegisterRequest,
                                   newId: string, t: string, now: int)
    requires !UserRoles.IsValidRole(req.role)
    ensures RegisterSpec(s, env, caller, req, newId, t, now) == Outcome(BadRequestText(InvalidRoleMessage), s)
  {
  }

  /** Only a caller the role store knows as Admin may create an Admin; otherwise nothing is created. */
  lemma RegisterAdminGate(s: Stores, env: Collaborators, caller: Principal, req: RegisterRequest,
                          newId: string, t: string, now: int)
    requires req.role == UserRoles.Admin && !ValidateAdminCreation(s.users, env, caller)
    ensures RegisterSpec(s, env, caller, req, newId, t, now) == Outcome(Forbid(AdminOnlyMessage), s)
    ensures !caller.isAuthenticated ==> !ValidateAdminCreation(s.users, env, caller)
  {
  }

  /**
   * A caller the role store knows as Admin passes the gate: an Admin request
   * is not refused with Forbid and goes on to account creation, whose
   * complaints (if any) are returned and whose success leads to the later steps.
   */
  lemma RegisterAdminAdmitted(s: Stores, env: Collaborators, caller: Principal, req: RegisterRequest,
                              newId: string, t: string, now: int, adminId: string)
    requires req.role == UserRoles.Admin
    requires caller.isAuthenticated && FindFirst(caller, NameIdentifier) == Some(adminId)
    requires adminId in s.users && env.isInRole(s.users[adminId], UserRoles.Admin)
    ensures var o := RegisterSpec(s, env, caller, req, newId, t, now);
      && o.response != Forbid(AdminOnlyMessage)
      && (CreateErrors(s.users, env, req.email, req.password) != [] ==>
            o == Outcome(BadRequestErrors(CreateErrors(s.users, env, req.email, req.password)), s))
      && (CreateErrors(s.users, env, req.email, req.password) == [] && newId !in s.users ==>
            o.response.OkMessage? || (o.response.StatusCode? && o.response.code == 500))
  {
    assert ValidateAdminCreation(s.users, env, caller);
    if CreateErrors(s.users, env, req.email, req.password) == [] && newId !in s.users {
      RegisterRollsBack(s, env, caller, req, newId, t, now);
    }
  }

  /** A refused creation returns the store's complaints and deletes nothing. */
  lemma RegisterCreateFailure(s: Stores, env: Collaborators, caller: Principal, req: RegisterRequest,
                              newId: string, t: string, now: int)
    requires UserRoles.IsValidRole(req.role)
    requires req.role == UserRoles.Admin ==> ValidateAdminCreation(s.users, env, caller)
    requires CreateErrors(s.users, env, req.email, req.password) != []
    ensures RegisterSpec(s, env, caller, req, newId, t, now)
            == Outcome(BadRequestErrors(CreateErrors(s.users, env, req.email, req.password)), s)
  {
  }

  /** The account that Register creates for a valid request, after its token rotation. */
  function CreatedUser(env: Collaborators, req: RegisterRequest, newId: string, t: string, now: int): (u: User)
    ensures u.id == newId && u.refreshToken == Some(t)
  {
    NewUser(env, newId, req).(refreshToken := Some(t), refreshTokenExpiry := now + env.refreshExpireDays * SecondsPerDay)
  }

  /** The gate and validation pass for a fresh id: the steps after account creation run. */
  ghost predicate PassesCreation(s: Stores, env: Collaborators, caller: Principal, req: RegisterRequest, newId: string) {
    && UserRoles.IsValidRole(req.role)
    && (req.role == UserRoles.Admin ==> ValidateAdminCreation(s.users, env, caller))
    && CreateErrors(s.users, env, req.email, req.password) == []
    && newId !in s.users
  }

  /**
   * A failure after creation (no access token, a non-success status, a
   * transport failure) deletes the account: the store is exactly as before. The
   * cache keeps the entry GenerateTokens wrote for the deleted account.
   */
  lemma RegisterRollsBack(s: Stores, env: Collaborators, caller: Principal, req: RegisterRequest,
                          newId: string, t: string, now: int)
    requires PassesCreation(s, env, caller, req, newId)
    ensures var o := RegisterSpec(s, env, caller, req, newId, t, now);
      !o.response.OkMessage? ==>
        && o.response.StatusCode? && o.response.code == 500
        && o.stores.users == s.users
        && newId !in o.stores.users
        && o.stores.cache == s.cache[UserKey(newId) := Serialize(CreatedUser(env, req, newId, t, now))]
  {
  }

  /** Which failure message each failing step produces. */
  lemma RegisterFailureMessages(s: Stores, env: Collaborators, caller: Principal, req: RegisterRequest,
                                newId: string, t: string, now: int)
    requires PassesCreation(s, env, caller, req, newId)
    ensures var o := RegisterSpec(s, env, caller, req, newId, t, now);
      var access := env.generateAccessToken(NewUser(env, newId, req));
      && (access.None? ==> o.response == StatusCode(500, TokenErrorMessage))
      && (access.Some? ==>
            var post := env.postProfile(access.value, ProfilePayload(newId, DefaultName, DefaultName, DefaultPhone));
            && (post.TransportFailed? ==> o.response == StatusCode(500, ProfileLinkErrorMessage))
            && (post.Responded? && !IsSuccessStatusCode(post.status) ==>
                  o.response == StatusCode(500, ProfileErrorMessage))
            && (post.Responded? && IsSuccessStatusCode(post.status) ==>
                  o.response == OkMessage(RegisteredMessage)))
  {
  }

  /**
   * A successful Register answers with a message only, and leaves the new
   * account, with its rotated token, in the store and its snapshot in the cache.
   */
  lemma RegisterSuccess(s: Stores, env: Collaborators, caller: Principal, req: RegisterRequest,
                        newId: string, t: string, now: int)
    ensures var o := RegisterSpec(s, env, caller, req, newId, t, now);
      o.response.OkMessage? ==>
        && PassesCreation(s, env, caller, req, newId)
        && o.response == OkMessage(RegisteredMessage)
        && o.stores.users == s.users[newId := CreatedUser(env, req, newId, t, now)]
        && o.stores.cache == s.cache[UserKey(newId) := Serialize(CreatedUser(env, req, newId, t, now))]
  {
  }

  // ---------------------------------------------------------------- Login

  /**
   * Login succeeds exactly when the store holds an account with the email
   * whose password checks; then the token of that account is rotated. Otherwise
   * it answers Unauthorized and changes nothing.
   */
  lemma LoginOutcome(s: Stores, env: Collaborators, email: string, password: string, t: string, now: int)
    requires WellFormed(s)
    ensures var o := LoginSpec(s, env, email, password, t, now);
      && (o.response.OkTokens? <==>
            exists id | id in s.users :: s.users[id].email == email && CheckPassword(env, s.users[id], password))
      && (!o.response.OkTokens? ==> o == Outcome(Unauthorized(None), s))
      && (forall id | id in s.users && s.users[id].email == email && CheckPassword(env, s.users[id], password) ::
            o == Outcome(OkTokens(TokenPair(env.generateAccessToken(s.users[id]), t)),
                         GenerateTokensSpec(CacheUserData(s, s.users[id]), env, s.users[id], t, now).stores))
  {
    CachedLoginNeverHits(s.cache, env, email, password);
    FindByEmailNeverAmbiguous(s.users, email);
    forall id | id in s.users && s.users[id].email == email
      ensures FindByEmail(s.users, email) == Found(s.users[id])
    {
      FindByEmailUnique(s.users, email, id);
    }
  }

  // ---------------------------------------------------------------- Refresh

  /** The access token decodes to a principal naming account `id`. */
  ghost predicate NamesAccount(env: Collaborators, accessToken: string, id: string) {
    && env.principalFromExpiredToken(accessToken).TokenAccepted?
    && FindFirst(env.principalFromExpiredToken(accessToken).principal, NameIdentifier) == Some(id)
  }

  /**
   * An accepted access token without a NameIdentifier claim names no account:
   * the lookup by a null id finds nothing and the answer is a bare Unauthorized.
   */
  lemma RefreshWithoutUserId(s: Stores, env: Collaborators, accessToken: string,
                             refreshToken: string, t: string, now: int)
    requires env.principalFromExpiredToken(accessToken).TokenAccepted?
    requires FindFirst(env.principalFromExpiredToken(accessToken).principal, NameIdentifier).None?
    ensures RefreshSpec(s, env, accessToken, refreshToken, t, now) == Outcome(Unauthorized(None), s)
  {
    CachedRefreshNeverHits(s.cache, None, refreshToken, now);
  }

  /**
   * Refresh succeeds exactly when the account exists, its stored token equals
   * the request's, and its expiry is strictly after now; otherwise it answers
   * Unauthorized and the stored token is unchanged. On success the account's
   * rotated snapshot is what the cache holds under `user_{id}`.
   */
  lemma RefreshOutcome(s: Stores, env: Collaborators, accessToken: string, id: string,
                       refreshToken: string, t: string, now: int)
    requires WellFormed(s) && NamesAccount(env, accessToken, id)
    ensures var o := RefreshSpec(s, env, accessToken, refreshToken, t, now);
      && (o.response.OkTokens? <==>
            id in s.users && s.users[id].refreshToken == Some(refreshToken) && s.users[id].refreshTokenExpiry > now)
      && (!o.response.OkTokens? ==> o == Outcome(Unauthorized(None), s))
      && (o.response.OkTokens? ==>
            && o.response.tokens == TokenPair(env.generateAccessToken(s.users[id]), t)
            && o.stores.users == s.users[id := s.users[id].(refreshToken := Some(t),
                                   refreshTokenExpiry := now + env.refreshExpireDays * SecondsPerDay)]
            && o.stores.cache == s.cache[UserKey(id) := Serialize(s.users[id].(refreshToken := Some(t),
                                   refreshTokenExpiry := now + env.refreshExpireDays * SecondsPerDay))])
  {
    CachedRefreshNeverHits(s.cache, Some(id), refreshToken, now);
  }

  /** A token that fails to decode is answered with its error, and nothing changes. */
  lemma RefreshRejectedToken(s: Stores, env: Collaborators, accessToken: string, refreshToken: string, t: string, now: int)
    requires env.principalFromExpiredToken(accessToken).TokenRejected?
    ensures RefreshSpec(s, env, accessToken, refreshToken, t, now)
            == Outcome(Unauthorized(Some(env.principalFromExpiredToken(accessToken).message)), s)
  {
  }

  /** After a successful refresh, the same refresh token is refused. */
  lemma RefreshTokenIsSingleUse(s: Stores, env: Collaborators, accessToken: string, accessToken2: string, id: string,
                                refreshToken: string, t1: string, t2: string, now1: int, now2: int)
    requires WellFormed(s) && NamesAccount(env, accessToken, id) && NamesAccount(env, accessToken2, id)
    requires t1 != refreshToken
    requires RefreshSpec(s, env, accessToken, refreshToken, t1, now1).response.OkTokens?
    ensures var s1 := RefreshSpec(s, env, accessToken, refreshToken, t1, now1).stores;
      RefreshSpec(s1, env, accessToken2, refreshToken, t2, now2) == Outcome(Unauthorized(None), s1)
  {
    var s1 := RefreshSpec(s, env, accessToken, refreshToken, t1, now1).stores;
    RefreshOutcome(s, env, accessToken, id, refreshToken, t1, now1);
    RefreshPreservesWellFormed(s, env, accessToken, refreshToken, t1, now1);
    RefreshOutcome(s1, env, accessToken2, id, refreshToken, t2, now2);
  }

  // ---------------------------------------------------------------- the cache never decides

  /**
   * Two states with the same accounts give the same login response: what the
   * cache holds, stale or evicted, never changes it.
   */
  lemma LoginResponseIgnoresCache(s: Stores, s': Stores, env: Collaborators, email: string, password: string,
                                  t: string, now: int)
    requires s.users == s'.users
    ensures LoginSpec(s, env, email, password, t, now).response == LoginSpec(s', env, email, password, t, now).response
  {
    CachedLoginNeverHits(s.cache, env, email, password);
    CachedLoginNeverHits(s'.cache, env, email, password);
  }

  /** Likewise for refresh, on any state: the cache never changes the response. */
  lemma RefreshResponseIgnoresCache(s: Stores, s': Stores, env: Collaborators, accessToken: string,
                                    refreshToken: string, t: string, now: int)
    requires s.users == s'.users
    ensures RefreshSpec(s, env, accessToken, refreshToken, t, now).response
            == RefreshSpec(s', env, accessToken, refreshToken, t, now).response
  {
    var decoded := env.principalFromExpiredToken(accessToken);
    if decoded.TokenAccepted? {
      var userId := FindFirst(decoded.principal, NameIdentifier);
      CachedRefreshNeverHits(s.cache, userId, refreshToken, now);
      CachedRefreshNeverHits(s'.cache, userId, refreshToken, now);
    }
  }

  /** Dropping a cache entry keeps the stores well formed. */
  lemma EvictPreservesWellFormed(s: Stores, key: string)
    requires WellFormed(s)
    ensures WellFormed(s.(cache := s.cache - {key}))
  {
  }

  // ---------------------------------------------------------------- invariant

  lemma GenerateTokensPreservesWellFormed(s: Stores, env: Collaborators, u: User, t: string, now: int)
    requires WellFormed(s) && IsGuidText(u.id)
    requires u.id in s.users ==> s.users[u.id].email == u.email
    ensures WellFormed(GenerateTokensSpec(s, env, u, t, now).stores)
  {
    var g := GenerateTokensSpec(s, env, u, t, now);
    assert UserKey(u.id)[|UserKeyPrefix|..] == u.id;
    forall a, b | a in g.stores.users && b in g.stores.users && g.stores.users[a].email == g.stores.users[b].email
      ensures a == b
    {
      assert g.stores.users[a].email == s.users[a].email;
      assert g.stores.users[b].email == s.users[b].email;
    }
  }

  lemma CacheUserDataPreservesWellFormed(s: Stores, u: User)
    requires WellFormed(s) && IsGuidText(u.id)
    ensures WellFormed(CacheUserData(s, u))
  {
    assert UserKey(u.id)[|UserKeyPrefix|..] == u.id;
  }

  lemma RegisterPreservesWellFormed(s: Stores, env: Collaborators, caller: Principal, req: RegisterRequest,
                                    newId: string, t: string, now: int)
    requires WellFormed(s) && IsGuidText(newId)
    ensures WellFormed(RegisterSpec(s, env, caller, req, newId, t, now).stores)
  {
    if PassesCreation(s, env, caller, req, newId) {
      var user := NewUser(env, newId, req);
      var s1 := s.(users := s.users[newId := user]);
      assert WellFormed(s1) by {
        forall a, b | a in s1.users && b in s1.users && s1.users[a].email == s1.users[b].email
          ensures a == b
        {
          if a == newId || b == newId {
            assert !EmailTaken(s.users, req.email);
          }
        }
      }
      GenerateTokensPreservesWellFormed(s1, env, user, t, now);
      var g := GenerateTokensSpec(s1, env, user, t, now);
      CacheUserDataPreservesWellFormed(g.stores, g.user);
    }
  }

  lemma LoginPreservesWellFormed(s: Stores, env: Collaborators, email: string, password: string, t: string, now: int)
    requires WellFormed(s)
    ensures WellFormed(LoginSpec(s, env, email, password, t, now).stores)
  {
    CachedLoginNeverHits(s.cache, env, email, password);
    var lookup := FindByEmail(s.users, email);
    if lookup.Found? {
      var id :| id in s.users && s.users[id] == lookup.user;
      CacheUserDataPreservesWellFormed(s, lookup.user);
      GenerateTokensPreservesWellFormed(CacheUserData(s, lookup.user), env, lookup.user, t, now);
    }
  }

  lemma RefreshPreservesWellFormed(s: Stores, env: Collaborators, accessToken: string, refreshToken: string,
                                   t: string, now: int)
    requires WellFormed(s)
    ensures WellFormed(RefreshSpec(s, env, accessToken, refreshToken, t, now).stores)
  {
    var decoded := env.principalFromExpiredToken(accessToken);
    if decoded.TokenAccepted? {
      var userId := FindFirst(decoded.principal, NameIdentifier);
      CachedRefreshNeverHits(s.cache, userId, refreshToken, now);
      if userId.Some? && userId.value in s.users {
        var user := s.users[userId.value];
        CacheUserDataPreservesWellFormed(s, user);
        GenerateTokensPreservesWellFormed(CacheUserData(s, user), env, user, t, now);
      }
    }
  }

  // ---------------------------------------------------------------- end to end

  /** Hashing then verifying the same password succeeds. */
  ghost predicate HasherAgrees(env: Collaborators, password: string) {
    env.verifyHashedPassword(env.hashPassword(password), password)
  }

  /** After a successful registration, logging in with the same credentials yields tokens. */
  lemma RegisterThenLogin(s: Stores, env: Collaborators, caller: Principal, req: RegisterRequest,
                          newId: string, t1: string, now1: int, t2: string, now2: int)
    requires WellFormed(s) && IsGuidText(newId) && HasherAgrees(env, req.password)
    requires RegisterSpec(s, env, caller, req, newId, t1, now1).response.OkMessage?
    ensures LoginSpec(RegisterSpec(s, env, caller, req, newId, t1, now1).stores, env, req.email, req.password, t2, now2)
              .response.OkTokens?
  {
    var s1 := RegisterSpec(s, env, caller, req, newId, t1, now1).stores;
    RegisterSuccess(s, env, caller, req, newId, t1, now1);
    RegisterPreservesWellFormed(s, env, caller, req, newId, t1, now1);
    assert s1.users[newId].email == req.email;
    assert CheckPassword(env, s1.users[newId], req.password);
    LoginOutcome(s1, env, req.email, req.password, t2, now2);
  }

  /**
   * Register, log in, refresh with the pair from the login: the refresh gives
   * a new pair, and replaying the login's refresh token afterwards is refused.
   * The login's access token is the one the JWT service issues for the new
   * account; that it decodes back to the account is assumed (NamesAccount).
   */
  lemma RegisterLoginRefreshReplay(s: Stores, env: Collaborators, caller: Principal, req: RegisterRequest,
                                   newId: string, accessToken: string,
                                   t1: string, t2: string, t3: string, t4: string,
                                   now1: int, now2: int, now3: int, now4: int)
    requires WellFormed(s) && IsGuidText(newId) && HasherAgrees(env, req.password)
    requires RegisterSpec(s, env, caller, req, newId, t1, now1).response.OkMessage?
    requires env.generateAccessToken(CreatedUser(env, req, newId, t1, now1)) == Some(accessToken)
    requires NamesAccount(env, accessToken, newId)
    requires t3 != t2
    requires now3 < now2 + env.refreshExpireDays * SecondsPerDay
    ensures var s1 := RegisterSpec(s, env, caller, req, newId, t1, now1).stores;
      var login := LoginSpec(s1, env, req.email, req.password, t2, now2);
      var refresh := RefreshSpec(login.stores, env, accessToken, t2, t3, now3);
      && login.response.OkTokens?
      && login.response.tokens == TokenPair(Some(accessToken), t2)
      && refresh.response.OkTokens? && refresh.response.tokens.refreshToken == t3
      && RefreshSpec(refresh.stores, env, accessToken, t2, t4, now4) == Outcome(Unauthorized(None), refresh.stores)
  {
    var s1 := RegisterSpec(s, env, caller, req, newId, t1, now1).stores;
    RegisterThenLogin(s, env, caller, req, newId, t1, now1, t2, now2);
    RegisterSuccess(s, env, caller, req, newId, t1, now1);
    RegisterPreservesWellFormed(s, env, caller, req, newId, t1, now1);
    LoginOutcome(s1, env, req.email, req.password, t2, now2);
    var login := LoginSpec(s1, env, req.email, req.password, t2, now2);
    assert s1.users[newId].email == req.email;
    var u := s1.users[newId];
    assert CheckPassword(env, u, req.password);
    GenerateTokensRotates(CacheUserData(s1, u), env, u, t2, now2);
    assert login.stores.users[newId].refreshToken == Some(t2);
    LoginPreservesWellFormed(s1, env, req.email, req.password, t2, now2);
    RefreshOutcome(login.stores, env, accessToken, newId, t2, t3, now3);
    RefreshTokenIsSingleUse(login.stores, env, accessToken, accessToken, newId, t2, t3, t4, now3, now4);
  }
}
