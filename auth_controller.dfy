/**
 * The controller as it runs: each action works step by step on the identity
 * store and the session cache, and is proved to end in the response and state
 * its specification function in AuthModel describes.
 */
module AuthControllers {
  import opened Wrappers
  import opened Claims
  import UserRoles
  import opened AuthModel

  /**
   * The stores the controller updates. The collaborators (JWT service, Identity,
   * the profile service) are passed to each action as `env`.
   */
  class AuthController {
    var users: map<string, User>
    var cache: map<string, Snapshot>

    function State(): (s: Stores)
      reads this
      ensures s.users == users && s.cache == cache
    {
      Stores(users, cache)
    }

    constructor (users: map<string, User>, cache: map<string, Snapshot>)
      ensures this.users == users && this.cache == cache
    {
      this.users := users;
      this.cache := cache;
    }

    /** Overwrite the session entry of `u` with its current snapshot. */
    method CacheUserData(u: User)
      modifies this
      ensures users == old(users)
      ensures cache == old(cache)[UserKey(u.id) := Serialize(u)]
    {
      cache := cache[UserKey(u.id) := Serialize(u)];
    }

    /** The cache server drops an entry once CacheLifetimeSeconds (30 minutes) have lapsed since it was written. */
    method Evict(key: string)
      modifies this
      ensures users == old(users)
      ensures cache == old(cache) - {key}
    {
      cache := cache - {key};
    }

    /** Issue a pair and rotate the refresh token in the store and the cache. */
    method GenerateTokens(env: Collaborators, u: User, newRefreshToken: string, now: int)
      returns (tokens: TokenPair, rotated: User)
      modifies this
      ensures Issued(tokens, rotated, State()) == GenerateTokensSpec(old(State()), env, u, newRefreshToken, now)
    {
      var accessToken := env.generateAccessToken(u);
      rotated := u.(refreshToken := Some(newRefreshToken),
                    refreshTokenExpiry := now + env.refreshExpireDays * SecondsPerDay);
      if rotated.id in users {
        users := users[rotated.id := rotated];
      }
      CacheUserData(rotated);
      tokens := TokenPair(accessToken, newRefreshToken);
    }

    method Register(env: Collaborators, caller: Principal, req: RegisterRequest,
                    newId: string, newRefreshToken: string, now: int)
      returns (r: Response)
      modifies this
      ensures Outcome(r, State()) == RegisterSpec(old(State()), env, caller, req, newId, newRefreshToken, now)
    {
      if !UserRoles.IsValidRole(req.role) {
        return BadRequestText(InvalidRoleMessage);
      }
      if req.role == UserRoles.Admin && !ValidateAdminCreation(users, env, caller) {
        return Forbid(AdminOnlyMessage);
      }
      var errors := CreateErrors(users, env, req.email, req.password);
      if errors != [] {
        return BadRequestErrors(errors);
      }
      if newId in users {
        return Unhandled;
      }
      var user := NewUser(env, newId, req);
      users := users[newId := user];

      var tokens, rotated := GenerateTokens(env, user, newRefreshToken, now);
      if tokens.accessToken.None? {
        users := users - {user.id};
        return StatusCode(500, TokenErrorMessage);
      }

      var post := env.postProfile(tokens.accessToken.value,
                                  ProfilePayload(user.id, DefaultName, DefaultName, DefaultPhone));
      match post {
        case TransportFailed =>
          users := users - {user.id};
          return StatusCode(500, ProfileLinkErrorMessage);
        case Responded(status) =>
          if !IsSuccessStatusCode(status) {
            users := users - {user.id};
            return StatusCode(500, ProfileErrorMessage);
          }
      }

      CacheUserData(rotated);
      r := OkMessage(RegisteredMessage);
    }

    method Login(env: Collaborators, email: string, password: string, newRefreshToken: string, now: int)
      returns (r: Response)
      modifies this
      ensures Outcome(r, State()) == LoginSpec(old(State()), env, email, password, newRefreshToken, now)
    {
      var cachedUser := CachedLogin(cache, env, email, password);
      if cachedUser.Some? {
        // A deserialised user never carries a password hash, so the source's
        // cached branch cannot be taken (AuthProperties.CachedLoginNeverHits).
        assert false;
      }

      var lookup := FindByEmail(users, email);
      match lookup {
        case Ambiguous =>
          return Unhandled;
        case NoAccount =>
          return Unauthorized(None);
        case Found(user) =>
          if !CheckPassword(env, user, password) {
            return Unauthorized(None);
          }
          CacheUserData(user);
          var tokens, _ := GenerateTokens(env, user, newRefreshToken, now);
          r := OkTokens(tokens);
      }
    }

    method Refresh(env: Collaborators, accessToken: string, refreshToken: string, newRefreshToken: string, now: int)
      returns (r: Response)
      modifies this
      ensures Outcome(r, State()) == RefreshSpec(old(State()), env, accessToken, refreshToken, newRefreshToken, now)
    {
      match env.principalFromExpiredToken(accessToken) {
        case TokenRejected(message) =>
          return Unauthorized(Some(message));
        case TokenFault =>
          return Unhandled;
        case TokenAccepted(principal) =>
          var userId := FindFirst(principal, NameIdentifier);
          var cachedUser := CachedRefresh(cache, userId, refreshToken, now);
          if cachedUser.Some? {
            // A deserialised user never carries a refresh token, so the source's
            // cached branch cannot be taken (AuthProperties.CachedRefreshNeverHits).
            assert false;
          }
          if userId.None? || userId.value !in users {
            return Unauthorized(None);
          }
          var user := users[userId.value];
          if user.refreshToken != Some(refreshToken) || user.refreshTokenExpiry <= now {
            return Unauthorized(None);
          }
          CacheUserData(user);
          var tokens, _ := GenerateTokens(env, user, newRefreshToken, now);
          r := OkTokens(tokens);
      }
    }
  }
}
