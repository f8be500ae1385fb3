# Account and session orchestration of the authentication service

This project models, in Dafny, the account and session logic of a two-service
platform: the authentication service's `AuthController` (registration, login,
token refresh) together with the fixed role set it validates against, and the
profile service's `ProfileController`, whose profile creation the registration
depends on.

The authentication service keeps three pieces of state, all external to the
controller: the identity store (accounts by id), a Redis session cache of
serialised account snapshots, and, in the other service, the profile table.
The model holds them as plain values:

- `AuthModel.Stores(users, cache)`: the identity store as `map<string, User>` and the
  cache as `map<string, Snapshot>`.
- `Profiles.ProfileController.rows`: the profile table, a `seq<Profile>` in
  insertion order. Its identity column is the counter `nextId`.

Each action is modelled twice:

- A specification function in `AuthModel` (`RegisterSpec`, `LoginSpec`,
  `RefreshSpec`, `GenerateTokensSpec`). It maps the stores before a request to
  the response and the stores after it.
- A method of the class `AuthControllers.AuthController`. It works on the stores
  step by step, as the source does, and is proved to end in exactly the outcome
  of its specification function.

The lemmas in `AuthProperties` state what the actions guarantee.

Everything the controller calls but whose code is not part of this model is a
function-typed field of `AuthModel.Collaborators`:

- the JWT service: `generateAccessToken` may return null, and
  `principalFromExpiredToken` may throw;
- Identity's password hasher, its validators and its role store;
- the profile service as seen over HTTP.

The fresh account id (a Guid) and the fresh refresh token come from random
generators, and the clock gives `now`. All three are parameters of each action.
Times are whole seconds since `DateTime.MinValue`, so an unset expiry is 0.

Three defects of the source are reproduced, not repaired, and each is stated as
a lemma:

- **Login probes the wrong key.** Login reads `user_email_{email}`, but every
  write uses `user_{id}`. Ids are Guids, and "email_" cannot begin a Guid because
  'm' is not a hex digit. So the probe always misses (`EmailProbeMisses`).
- **The cached refresh token has the wrong name.** The snapshot stores the
  token under `RefreshTokens`, and deserialising into `User` ignores that name.
  A cached user therefore has a null refresh token, so Refresh's cached branch
  never fires (`DeserializeDropsRefreshToken`, `CachedRefreshNeverHits`). A
  cached user also has a null password hash, so Login's cached branch could not
  fire even under the right key (`CachedLoginNeverHits`). In the methods these
  two branches are `assert false`.
- **A rollback leaves a stale cache entry.** `GenerateTokens` writes the cache
  before the profile POST. A later rollback deletes the account but keeps the
  `user_{id}` entry (`RegisterRollsBack`).

A cache-aside design would let login and refresh short-circuit on a cache
hit, and would write the cache entry only once registration has fully
succeeded. The code does neither, and the model follows the code:

- both cached branches are unreachable (see above);
- the cache entry is written during token generation, before the profile
  step, so a rolled-back registration leaves it behind.

## Model

| member | source | states |
|---|---|---|
| UserRoles.IsValidRole | AuthService/AuthService/Models/UserRoles.cs:13-20 | a role is accepted iff it is exactly one of Admin, Manager, Teacher, Assistant, Student |
| UserRoles.AllRolesHasFiveDistinct | AuthService/AuthService/Models/UserRoles.cs:7-20 | AllRoles has five entries and the five constants are pairwise distinct |
| UserRoles.LowerCaseAdminIsNotARole | AuthService/AuthService/Models/UserRoles.cs:13-20 | membership is exact string equality: "admin" is not a role |
| Claims.FirstIndexOf | ProfileService/ProfileService/Controllers/ProfileController.cs:25 | the index returned is that of the first claim whose type matches the requested one ignoring case, or the length when there is none |
| Claims.FindFirst | AuthService/AuthService/Controllers/AuthController.cs:133 | FindFirst yields null iff no claim type matches ignoring case, else the value of the first claim that matches |
| Claims.SubjectLookupIgnoresCase | ProfileService/ProfileService/Controllers/ProfileController.cs:40 | a claim typed "SUB" answers the lookup of "sub" |
| Profiles.NonEmpty | ProfileService/ProfileService/Controllers/ProfileController.cs:27 | an absent or empty id counts as missing, any other id is kept |
| Profiles.ReaderId | ProfileService/ProfileService/Controllers/ProfileController.cs:25-28 | GetProfile's user id is the NameIdentifier claim, missing when null or empty |
| Profiles.OwnerId | ProfileService/ProfileService/Controllers/ProfileController.cs:40-43 | the "sub" claim takes precedence over NameIdentifier whenever present, even when empty; the owner is never empty |
| Profiles.FindProfile | ProfileService/ProfileService/Controllers/ProfileController.cs:30 | the row found belongs to the user; none is found iff no row has that user id |
| Profiles.FindProfileIsTheOnlyRow | ProfileService/ProfileService/Controllers/ProfileController.cs:45-58 | with one row per user, any row of the user is the one the lookup returns |
| Profiles.FindProfileAfterInsert | ProfileService/ProfileService/Controllers/ProfileController.cs:45-58 | after inserting the first row of a user, the lookup returns it |
| Profiles.ProfileController.GetProfile | ProfileService/ProfileService/Controllers/ProfileController.cs:23-35 | Unauthorized iff the id claim is missing or empty; otherwise the caller's own row, or NotFound iff there is none; reads only |
| Profiles.ProfileController.CreateProfile | ProfileService/ProfileService/Controllers/ProfileController.cs:37-61 | no owner claim: Unauthorized, table unchanged; owner already has a row: Conflict, table unchanged; else exactly one row appended, owner from the token, names and phone from the body, at most one row per user kept |
| AuthModel.UserKey | AuthService/AuthService/Controllers/AuthController.cs:176 | every cache write key is "user_" followed by the account id |
| AuthModel.EmailKey | AuthService/AuthService/Controllers/AuthController.cs:186 | Login's probe key begins with "user_email_" |
| AuthModel.GetCachedUser | AuthService/AuthService/Controllers/AuthController.cs:182-193 | a cached user is found iff the email-derived key is present |
| AuthModel.GetCachedUserById | AuthService/AuthService/Controllers/AuthController.cs:195-206 | a cached user is found iff the id-derived key is present; a null id probes "user_" |
| AuthModel.ValidateAdminCreation | AuthService/AuthService/Controllers/AuthController.cs:155-162 | admin creation is allowed exactly when the caller is authenticated and its NameIdentifier names a stored account that the role store puts in Admin |
| AuthModel.FindByEmail | AuthService/AuthService/Controllers/AuthController.cs:116 | no account iff no stored account has the email; a found account is the only one with the email; several give Ambiguous |
| AuthModel.CreateErrors | AuthService/AuthService/Controllers/AuthController.cs:52-55 | password complaints, when there are any, are returned alone; otherwise user-name complaints; otherwise a complaint exactly when the email is taken; no complaints implies the email is free and the password acceptable |
| AuthModel.GenerateTokensSpec | AuthService/AuthService/Controllers/AuthController.cs:225-241 | the user comes back with the new refresh token and an expiry of now plus refreshExpireDays; no account appears or disappears; the cache gains at most the user's key |
| AuthModel.RegisterSpec | AuthService/AuthService/Controllers/AuthController.cs:37-101 | accounts change only on success, and then exactly the fresh id is added; the cache changes at most by the new account's key |
| AuthModel.LoginSpec | AuthService/AuthService/Controllers/AuthController.cs:104-125 | no account is added or removed; anything but a token pair leaves both stores unchanged |
| AuthModel.RefreshSpec | AuthService/AuthService/Controllers/AuthController.cs:128-152 | no account is added or removed; anything but a token pair leaves both stores unchanged |
| AuthModel.Serialize | AuthService/AuthService/Controllers/AuthController.cs:166-173 | the cached object keeps id, email, role and expiry, holds no password hash, and carries the refresh token under RefreshTokens |
| AuthModel.Deserialize | AuthService/AuthService/Controllers/AuthController.cs:187 | reading a cached object back keeps id, email, role and expiry and leaves the password hash and the refresh token null |
| AuthModel.CacheUserData | AuthService/AuthService/Controllers/AuthController.cs:164-180 | only the entry `user_{id}` changes, the accounts do not, and a read of that entry gives the user back as deserialised |
| AuthModel.ValidateCachedUser | AuthService/AuthService/Controllers/AuthController.cs:208-211 | a user without a password hash never passes the cached password check |
| AuthModel.ValidateCachedRefreshToken | AuthService/AuthService/Controllers/AuthController.cs:213-217 | accepted iff the token is the same and the expiry is strictly after now, so a token expiring now is refused |
| AuthModel.CheckPassword | AuthService/AuthService/Controllers/AuthController.cs:117 | an account without a password hash never passes; a pass means the hasher verified the stored hash |
| AuthModel.CachedLogin | AuthService/AuthService/Controllers/AuthController.cs:107-110 | Login's cached branch accepts only a hit under `user_email_{email}` whose hash equals a fresh hash of the password |
| AuthModel.CachedRefresh | AuthService/AuthService/Controllers/AuthController.cs:135-136 | Refresh's cached branch accepts only a hit under `user_{id}` whose token matches and has not expired |
| AuthModel.IsSuccessStatusCode | AuthService/AuthService/Controllers/AuthController.cs:84 | a status counts as success iff it lies in 200-299 |
| AuthModel.NewUser | AuthService/AuthService/Controllers/AuthController.cs:45-52 | the created account has the request's email and role, the hashed password, no refresh token and the default expiry |
| AuthModel.DeleteUser | AuthService/AuthService/Controllers/AuthController.cs:86 | the account is removed, every other account is kept, and the cache is untouched |
| AuthProperties.RefreshWithoutUserId | AuthService/AuthService/Controllers/AuthController.cs:133-142 | an access token with no NameIdentifier claim gives a bare Unauthorized and changes nothing |
| AuthControllers.AuthController.CacheUserData | AuthService/AuthService/Controllers/AuthController.cs:164-180 | only the entry under user_{id} is overwritten, with the user's snapshot |
| AuthControllers.AuthController.Evict | AuthService/AuthService/Controllers/AuthController.cs:32-33 | a cache entry whose lifetime lapsed disappears; nothing else changes |
| AuthControllers.AuthController.GenerateTokens | AuthService/AuthService/Controllers/AuthController.cs:225-241 | the step-by-step token issue ends in GenerateTokensSpec's pair, rotated user and stores |
| AuthControllers.AuthController.Register | AuthService/AuthService/Controllers/AuthController.cs:37-101 | the step-by-step saga ends in RegisterSpec's response and stores |
| AuthControllers.AuthController.Login | AuthService/AuthService/Controllers/AuthController.cs:104-125 | the step-by-step login ends in LoginSpec's response and stores; its cached branch is unreachable |
| AuthControllers.AuthController.Refresh | AuthService/AuthService/Controllers/AuthController.cs:128-152 | the step-by-step refresh ends in RefreshSpec's response and stores; its cached branch is unreachable |
| AuthProperties.DeserializeDropsRefreshToken | AuthService/AuthService/Controllers/AuthController.cs:166-173 | reading a snapshot back gives the user with null password hash and null refresh token |
| AuthProperties.CachedRefreshNeverHits | AuthService/AuthService/Controllers/AuthController.cs:135-137 | Refresh's cached branch never accepts a request token |
| AuthProperties.CachedLoginNeverHits | AuthService/AuthService/Controllers/AuthController.cs:107-114 | Login's cached branch never accepts a password |
| AuthProperties.UserKeyIsNeverEmailKey | AuthService/AuthService/Controllers/AuthController.cs:176 | no key of the form user_{Guid} equals any user_email_{email} |
| AuthProperties.EmailProbeMisses | AuthService/AuthService/Controllers/AuthController.cs:186 | in well-formed stores Login's cache probe always misses |
| AuthProperties.FindByEmailUnique | AuthService/AuthService/Controllers/AuthController.cs:116 | with unique emails, the lookup finds exactly the account holding the email |
| AuthProperties.FindByEmailNeverAmbiguous | AuthService/AuthService/Controllers/AuthController.cs:116 | with unique emails, the lookup never throws |
| AuthProperties.GenerateTokensRotates | AuthService/AuthService/Controllers/AuthController.cs:227-240 | the stored token becomes the new one, the expiry is now plus refreshExpireDays, the cache holds the new snapshot, and a different previous token no longer matches |
| AuthProperties.RegisterRejectsUnknownRole | AuthService/AuthService/Controllers/AuthController.cs:39-40 | a role outside AllRoles gives BadRequest with the role message and leaves store and cache unchanged |
| AuthProperties.RegisterAdminGate | AuthService/AuthService/Controllers/AuthController.cs:42-43 | an Admin request from a caller not admitted gives Forbid and creates nothing; an unauthenticated caller is never admitted |
| AuthProperties.RegisterAdminAdmitted | AuthService/AuthService/Controllers/AuthController.cs:42-57 | an Admin request from a caller the role store knows as Admin is not refused with Forbid; it reaches account creation, returning its complaints or going on to success or a 500 rollback |
| AuthProperties.RegisterCreateFailure | AuthService/AuthService/Controllers/AuthController.cs:52-55 | a refused creation returns the store's error descriptions and changes nothing, so no delete is needed |
| AuthProperties.RegisterRollsBack | AuthService/AuthService/Controllers/AuthController.cs:57-95 | any failure after creation answers 500 and leaves the identity store exactly as before, but the cache keeps the deleted account's entry |
| AuthProperties.RegisterFailureMessages | AuthService/AuthService/Controllers/AuthController.cs:60-100 | no access token, a transport failure, a non-success status and success each produce their own response |
| AuthProperties.RegisterSuccess | AuthService/AuthService/Controllers/AuthController.cs:98-100 | success returns only a message; the store gains the new account with its rotated token and the cache holds its snapshot under user_{id} |
| AuthProperties.LoginOutcome | AuthService/AuthService/Controllers/AuthController.cs:107-124 | login succeeds iff the store has an account with the email whose password checks; then that account's token is rotated; otherwise Unauthorized with no change |
| AuthProperties.RefreshOutcome | AuthService/AuthService/Controllers/AuthController.cs:139-146 | refresh succeeds iff the account exists, its stored token equals the request's and its expiry is strictly after now; otherwise Unauthorized and nothing changes |
| AuthProperties.RefreshRejectedToken | AuthService/AuthService/Controllers/AuthController.cs:148-151 | an access token that fails validation gives Unauthorized with the exception message and no change |
| AuthProperties.RefreshTokenIsSingleUse | AuthService/AuthService/Controllers/AuthController.cs:139-146 | after a successful refresh the same refresh token is refused |
| AuthProperties.LoginResponseIgnoresCache | AuthService/AuthService/Controllers/AuthController.cs:107-114 | with the same accounts, any two caches (stale or evicted entries included) give the same login response |
| AuthProperties.RefreshResponseIgnoresCache | AuthService/AuthService/Controllers/AuthController.cs:135-137 | with the same accounts, any two caches give the same refresh response |
| AuthProperties.EvictPreservesWellFormed | AuthService/AuthService/Controllers/AuthController.cs:32-33 | an entry lapsing from the cache keeps the stores well formed |
| AuthProperties.GenerateTokensPreservesWellFormed | AuthService/AuthService/Controllers/AuthController.cs:225-241 | token issue keeps ids, email uniqueness and cache keys well formed |
| AuthProperties.CacheUserDataPreservesWellFormed | AuthService/AuthService/Controllers/AuthController.cs:164-180 | a cache write keeps every key of the form user_{Guid} |
| AuthProperties.RegisterPreservesWellFormed | AuthService/AuthService/Controllers/AuthController.cs:37-101 | registration keeps emails unique and keys well formed, rollback included |
| AuthProperties.LoginPreservesWellFormed | AuthService/AuthService/Controllers/AuthController.cs:104-125 | login keeps the stores well formed |
| AuthProperties.RefreshPreservesWellFormed | AuthService/AuthService/Controllers/AuthController.cs:128-152 | refresh keeps the stores well formed |
| AuthProperties.RegisterThenLogin | AuthService/AuthService/Controllers/AuthController.cs:37-125 | after a successful registration, login with the same credentials yields a token pair |
| AuthProperties.RegisterLoginRefreshReplay | AuthService/AuthService/Controllers/AuthController.cs:37-152 | register, login, then refresh with exactly the pair the login returned: refresh gives a new pair, and replaying the login's refresh token is then refused |

## Left out

- JWT encoding, signing and validation are not modelled. `generateAccessToken`
  and `principalFromExpiredToken` are uninterpreted collaborators, and
  `refreshExpireDays` is a whole number of days.
- Password hashing is modelled as a deterministic `hashPassword`, with
  `verifyHashedPassword` as the check. Salting is not modelled.
  `RegisterThenLogin` assumes that verifying a password against its own hash succeeds.
- RegisterLoginRefreshReplay: the JWT round trip is assumed, not modelled. The
  lemma requires that the access token the login returns decodes back to a
  principal naming the new account (`NamesAccount`), as signing and then
  validating a token with the same key would.
- Identity's validators, its duplicate-name message and its role store are
  collaborators. The admin gate asks the role store (`isInRole`), not the
  account's own `Role` field; which accounts the role store lists is not modelled. E-mail normalisation (case-insensitive lookup) is not modelled.
- Identity's update and delete are modelled as always succeeding, since the
  source ignores their results. The account's UserName is folded into Email,
  because Register always sets them equal.
- The profile POST is an uninterpreted function of the bearer token and the
  payload. It is not linked to `Profiles.ProfileController`, because the bearer
  token's claims and the HTTP transport are not modelled.
- Redis itself is not modelled. The 30-minute lifetime is modelled only as
  `Evict`, which can drop any entry at any time.
- Cache write failures are not modelled. The source does not catch them, so in
  Register such a failure would escape after the account was created, with no rollback.
- Read failures and malformed cache entries (caught and read as a miss) are not
  modelled. No read path ever uses a hit anyway.
- A new account's Guid is a parameter. A collision with an existing id is
  answered as an escaping exception (`Unhandled`).
- One `now` serves a whole request, although the source reads the clock
  separately at the expiry check and at token generation.
- Framework behaviour outside the actions is not modelled:
  - model-binding validation (`[Required]`, `[EmailAddress]`, `[MinLength(6)]`) on the requests;
  - `[Authorize]` on the profile controller;
  - how action results are executed. `Forbid` is modelled as returned, although
    ASP.NET reads its string argument as an authentication scheme name. No
    scheme has that name, so executing the result throws and the client gets
    a 500 rather than a 403. No account is created either way.
- Claims.FindFirst: claim types are compared ignoring the case of ASCII letters
  only; .NET's OrdinalIgnoreCase also folds non-ASCII letters, which no claim
  type used here contains.
- `LoginRequest` is not part of this model. Login takes its two fields, email
  and password, directly.
- Concurrency between simultaneous requests (for example two refreshes racing
  on one token) is not modelled. The source has no locking, and each action is
  modelled as one atomic step.
- Service startup and wiring (dependency injection, CORS, Swagger, migrations,
  the API gateway) and the static web content are configuration, not logic.
