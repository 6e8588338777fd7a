# Crafter Profile: authentication manager, profile service rules, ticket expiry

A Dafny model of the session core of Crafter Profile, with proofs about it. The model has three parts.

- **Authentication manager** (`authentication.dfy`, module `Authentication`). This models the security provider's `AuthenticationManagerImpl`.
  - `AuthenticateUser` logs a user in through the remote authentication service and fetches the profile of the issued ticket. It then caches the result.
  - `GetAuthentication` answers from the cache unless a reload is forced. On a miss or a reload it asks the remote profile service to resolve the ticket.
  - `InvalidateAuthentication` first drops the cache entry, and only then asks the authentication service to invalidate the ticket.

  The class `AuthenticationManager` holds the cache as a `map` field. It also keeps a ghost log, `events`, of every remote request and cache write in the order they happen. Remote faults are values: a REST service fault carrying an error code, or any other profile exception. The manager translates them into its three exception kinds, and "no such ticket" becomes `null` (`Success(None)`).

- **Profile service** (`profiles.dfy`, module `Profiles`). This models the server's `ProfileServiceImpl` as a class over a profile store, a ticket store and the list of protected user names. The modelled rules are:
  - profile creation, with the email check and the "protected users stay active" rule;
  - the partial-update rules of `updateProfile`, including the attribute merge;
  - resolution of a ticket to its profile;
  - bulk activation;
  - the comma-separated list parser and the protected-name scan.

  Java's `String.trim()` and `String.split(",")` are modelled in `java_strings.dfy` (module `JavaStrings`).

- **Ticket expiry sweep** (`ticket_expiry.dfy`, module `TicketExpiry`). This models the v2 `TicketRepositoryImpl.removeWithLastRequestTimeOlderThan`.
  - The duration in seconds becomes milliseconds with `TimeUnit`'s saturation, and is subtracted from the clock with Java `long` wrap-around.
  - Every ticket whose last request is older than that cutoff is deleted.
  - The clock reading is the parameter `now`.

`wrappers.dfy` holds `Option`, `Result` and `Outcome`. These stand for Java's nullable references and exceptions.

The remote services seen by the manager are the datatype `Backend`. It is a record of four answer functions: authenticate, get profile, get profile by ticket, and invalidate ticket. One `Backend` value is passed to each operation, so every request inside that operation gets the answer of that function. The hash of passwords and the email validator are uninterpreted function fields of `ProfileService`.

The profile store is a map from profile id to profile. Its invariant `ValidStore` states two things:
- every profile is filed under its own id;
- no two profiles share a (user name, tenant) account.

The second is the store's unique index, whose `DuplicateKeyException` the service catches. A save that would break the index is rejected (`DuplicateKey`, `SaveRejected`).

## Model

| member | source | states |
|---|---|---|
| Authentication.AuthenticationFailure | crafter-security-provider/src/main/java/org/craftercms/security/authentication/impl/AuthenticationManagerImpl.java:79-92 | DISABLED_PROFILE gives a disabled-user error and BAD_CREDENTIALS a bad-credentials error; both ways. Every other error code and every other profile exception gives a system error. |
| Authentication.ProfileLookupOutcome | crafter-security-provider/src/main/java/org/craftercms/security/authentication/impl/AuthenticationManagerImpl.java:132-155 | A found profile is returned as is. NO_SUCH_TICKET, and only it, gives null. A null answer and every other fault give a system error. All three hold both ways. |
| Authentication.AuthenticationManager.constructor | crafter-security-provider/src/main/java/org/craftercms/security/authentication/impl/AuthenticationManagerImpl.java:47-49 | A new manager has an empty cache and has made no request. |
| Authentication.AuthenticationManager.GetCachedAuthentication | crafter-security-provider/src/main/java/org/craftercms/security/authentication/impl/AuthenticationManagerImpl.java:157-164 | The result is present exactly when the ticket is cached, and is then the cached entry. |
| Authentication.AuthenticationManager.PutAuthenticationInCache | crafter-security-provider/src/main/java/org/craftercms/security/authentication/impl/AuthenticationManagerImpl.java:166-168 | The cache maps the ticket to the given authentication. Every other entry is unchanged. |
| Authentication.AuthenticationManager.RemoveAuthenticationFromCache | crafter-security-provider/src/main/java/org/craftercms/security/authentication/impl/AuthenticationManagerImpl.java:170-172 | The ticket's entry is gone. Every other entry is unchanged. |
| Authentication.AuthenticationManager.LoadProfile | crafter-security-provider/src/main/java/org/craftercms/security/authentication/impl/AuthenticationManagerImpl.java:132-155 | Makes exactly one profile-by-ticket request, leaves the cache alone, and returns `ProfileLookupOutcome` of the answer. |
| Authentication.AuthenticationManager.AuthenticateUser | crafter-security-provider/src/main/java/org/craftercms/security/authentication/impl/AuthenticationManagerImpl.java:67-93 | On success it returns (issued ticket id, profile fetched by the ticket's profile id), and the cache maps that ticket id to it. A fault of either request is mapped by `AuthenticationFailure`, and the cache is not written. States which requests were made, in order. |
| Authentication.AuthenticationManager.GetAuthentication | crafter-security-provider/src/main/java/org/craftercms/security/authentication/impl/AuthenticationManagerImpl.java:96-116 | A cache hit without reload returns the cached entry and makes no request. On a miss or reload: a found profile gives (ticket, profile), which overwrites the cache entry and is returned; an unknown ticket returns null and leaves the cache (even a stale entry) untouched; an error is passed on and the cache is untouched. |
| Authentication.AuthenticationManager.InvalidateAuthentication | crafter-security-provider/src/main/java/org/craftercms/security/authentication/impl/AuthenticationManagerImpl.java:119-130 | The cache removal comes before the invalidation request. The ticket's entry is gone whatever the service answers, and other entries are unchanged. It succeeds exactly when the service does; otherwise it raises a system error. |
| Authentication.LoginThenResolve | crafter-security-provider/src/main/java/org/craftercms/security/authentication/impl/AuthenticationManagerImpl.java:67-116 | After a successful login, looking up its ticket returns the login's authentication, under the issued ticket id. |
| Authentication.StaleEntrySurvivesFailedReload | crafter-security-provider/src/main/java/org/craftercms/security/authentication/impl/AuthenticationManagerImpl.java:96-116 | A forced reload of a ticket the backend calls unknown returns null. The next plain lookup still returns the old cached authentication. |
| Authentication.LogoutThenResolve | crafter-security-provider/src/main/java/org/craftercms/security/authentication/impl/AuthenticationManagerImpl.java:96-130 | After login then logout, a lookup of the ticket returns null once the backend no longer knows it. This holds even when the invalidation request failed. |
| Authentication.CacheIsTransparent | crafter-security-provider/src/main/java/org/craftercms/security/authentication/impl/AuthenticationManagerImpl.java:96-116 | When the backend resolves the ticket to the profile fetched at login, a cached lookup and a forced reload give the same answer. |
| Profiles.MergeAttributes | server/src/main/java/org/craftercms/profile/services/impl/ProfileServiceImpl.java:142-149 | With both maps present: stored keys are kept, given keys are added, and given values win. Otherwise the result is exactly the given map, so null clears the attributes. |
| Profiles.MergeAttributesIdempotent | server/src/main/java/org/craftercms/profile/services/impl/ProfileServiceImpl.java:142-149 | Merging the same attributes twice stores what merging once stores. |
| Profiles.ReplaceKeepsValid | server/src/main/java/org/craftercms/profile/services/impl/ProfileServiceImpl.java:151 | Saving a profile over its own id keeps the store's invariant when no other profile holds its account. |
| Profiles.TrimKeepsOut | server/src/main/java/org/craftercms/profile/services/impl/ProfileServiceImpl.java:298-301 | Trimming a piece cannot introduce a comma. |
| Profiles.ProfileService.constructor | server/src/main/java/org/craftercms/profile/services/impl/ProfileServiceImpl.java:49-57 | The service starts over a valid store. The protected list is null until configured. |
| Profiles.ProfileService.IsProtectedToKeepActive | server/src/main/java/org/craftercms/profile/services/impl/ProfileServiceImpl.java:305-316 | True exactly when the list is non-null and some entry equals the given name. A null name, an empty list or a missing list gives false. |
| Profiles.ProfileService.ConvertLineToList | server/src/main/java/org/craftercms/profile/services/impl/ProfileServiceImpl.java:293-303 | A null or empty line gives an empty list. Otherwise the result is the `split(",")` pieces, in order, each trimmed. There are at most commas+1 entries, none holds a comma, and none starts or ends with white space. |
| Profiles.ProfileService.SetProtectedDisableUsers | server/src/main/java/org/craftercms/profile/services/impl/ProfileServiceImpl.java:287-291 | The protected list becomes the parsed line, and is non-null afterwards. The stores are unchanged. |
| Profiles.ProfileService.ProfileByUserName | server/src/main/java/org/craftercms/profile/services/impl/ProfileServiceImpl.java:161 | Returns the stored profile of the account, or null exactly when no stored profile has that account. |
| Profiles.ProfileService.GetProfileByTicket | server/src/main/java/org/craftercms/profile/services/impl/ProfileServiceImpl.java:156-162 | Unknown ticket gives null. Otherwise it gives the stored profile of the ticket's (user name, tenant), which is present whenever such a profile exists. |
| Profiles.ProfileService.CreateProfile | server/src/main/java/org/craftercms/profile/services/impl/ProfileServiceImpl.java:60-94 | A rejected email gives InvalidEmail, and nothing is stored. A duplicate account or id gives null and stores nothing. Otherwise it stores exactly one new profile with the given fields and the hashed password. `active` is true for a protected name and the argument otherwise; created and modified are `now`. |
| Profiles.ProfileService.ApplyUpdate | server/src/main/java/org/craftercms/profile/services/impl/ProfileServiceImpl.java:117-150 | The result satisfies the predicate `UpdatedProfile`, which spells out the rules field by field. `id` is kept. User name, (hashed) password and tenant change only when the argument is non-null and not blank after trim. Roles and email change for any non-null argument. `active` changes only when non-null and the *argument* user name is not protected. Attributes are merged, `created` is kept and `modified` is `now`. |
| Profiles.ProfileService.UpdateProfile | server/src/main/java/org/craftercms/profile/services/impl/ProfileServiceImpl.java:109-153 | Unknown id gives null, and nothing changes. Otherwise it returns the stored profile with the update rules applied, saved over the stored copy. The save is refused, and nothing is stored, exactly when another profile has the new account. The store stays valid. |
| Profiles.ProfileService.SaveExisting | server/src/main/java/org/craftercms/profile/services/impl/ProfileServiceImpl.java:151 | The save replaces the stored copy exactly when no other profile holds the account. The store stays valid either way. |
| Profiles.ProfileService.SaveActive | server/src/main/java/org/craftercms/profile/services/impl/ProfileServiceImpl.java:239-242 | Stores the profile with `active` set, and nothing else changes. |
| Profiles.ProfileService.ActiveProfile | server/src/main/java/org/craftercms/profile/services/impl/ProfileServiceImpl.java:223-229 | Sets `active` on the profile with that id if it exists. Otherwise nothing changes. |
| Profiles.ProfileService.ActiveProfiles | server/src/main/java/org/craftercms/profile/services/impl/ProfileServiceImpl.java:232-237 | Every stored profile, and no other field of it, gets `active = b`. The set of ids is unchanged. |
| Profiles.ProtectedUserDeactivatedWithoutUserName | server/src/main/java/org/craftercms/profile/services/impl/ProfileServiceImpl.java:127-129 | With "admin" protected, an update naming "admin" keeps it active. An update with a null user name deactivates it. |
| JavaStrings.Leading | server/src/main/java/org/craftercms/profile/services/impl/ProfileServiceImpl.java:300 | The number of leading chars `trim()` removes. |
| JavaStrings.Trailing | server/src/main/java/org/craftercms/profile/services/impl/ProfileServiceImpl.java:300 | The number of trailing chars `trim()` removes. |
| JavaStrings.Trim | server/src/main/java/org/craftercms/profile/services/impl/ProfileServiceImpl.java:300 | The infix left after cutting chars <= U+0020 from both ends. Neither end is such a char, and the result is empty exactly for a blank string. |
| JavaStrings.TrimIdempotent | server/src/main/java/org/craftercms/profile/services/impl/ProfileServiceImpl.java:117 | Trimming twice is trimming once. |
| JavaStrings.CountOf | server/src/main/java/org/craftercms/profile/services/impl/ProfileServiceImpl.java:298 | The number of separators, which is zero exactly when there is none. |
| JavaStrings.SplitAll | server/src/main/java/org/craftercms/profile/services/impl/ProfileServiceImpl.java:298 | Separators+1 pieces, none holding the separator. |
| JavaStrings.Join | server/src/main/java/org/craftercms/profile/services/impl/ProfileServiceImpl.java:298 | The inverse of splitting: the first piece is a prefix of the result, followed by the separator when more pieces follow; no pieces give the empty string. |
| JavaStrings.JoinSplitAll | server/src/main/java/org/craftercms/profile/services/impl/ProfileServiceImpl.java:298 | Joining the pieces with the separator gives back the string. |
| JavaStrings.DropTrailingEmpty | server/src/main/java/org/craftercms/profile/services/impl/ProfileServiceImpl.java:298 | A prefix whose last piece is non-empty; only empty pieces are dropped. |
| JavaStrings.SplitKeepsPrefix | server/src/main/java/org/craftercms/profile/services/impl/ProfileServiceImpl.java:298 | `split` is the full split without trailing empty pieces. Without a separator the result is the whole string. |
| JavaStrings.Split | server/src/main/java/org/craftercms/profile/services/impl/ProfileServiceImpl.java:298 | `split(",")` with limit zero gives at most separators+1 pieces, and none holds the separator. When the separator occurs, the last piece kept is non-empty (or nothing is kept). |
| TicketExpiry.WrapLong | server/src/main/java/org/craftercms/profile/v2/repositories/impl/TicketRepositoryImpl.java:47 | The result is a `long` congruent to the exact value modulo 2^64, and equal to it when it fits. |
| TicketExpiry.SecondsToMillis | server/src/main/java/org/craftercms/profile/v2/repositories/impl/TicketRepositoryImpl.java:46 | `seconds * 1000`, clamped to the `long` range. |
| TicketExpiry.Cutoff | server/src/main/java/org/craftercms/profile/v2/repositories/impl/TicketRepositoryImpl.java:46-47 | The cutoff is a `long`. |
| TicketExpiry.CutoffExact | server/src/main/java/org/craftercms/profile/v2/repositories/impl/TicketRepositoryImpl.java:46-47 | Without saturation or wrap-around, the cutoff is `now - seconds * 1000`. |
| TicketExpiry.CutoffNoWrap | server/src/main/java/org/craftercms/profile/v2/repositories/impl/TicketRepositoryImpl.java:46-47 | With a clock not before the epoch, a non-negative duration never wraps. A saturated one gives `now - Long.MAX_VALUE`. |
| TicketExpiry.CutoffOfZero | server/src/main/java/org/craftercms/profile/v2/repositories/impl/TicketRepositoryImpl.java:46-47 | A zero duration gives `now`. |
| TicketExpiry.CutoffMonotone | server/src/main/java/org/craftercms/profile/v2/repositories/impl/TicketRepositoryImpl.java:46-47 | A longer non-negative duration gives an earlier or equal cutoff, never after `now`. |
| TicketExpiry.CutoffOfVeryNegativeDuration | server/src/main/java/org/craftercms/profile/v2/repositories/impl/TicketRepositoryImpl.java:46-47 | A duration below `-Long.MAX_VALUE/1000` seconds wraps to the negative cutoff `now + Long.MIN_VALUE`. |
| TicketExpiry.RemoveOlderThan | server/src/main/java/org/craftercms/profile/v2/repositories/impl/TicketRepositoryImpl.java:49 | Only deletes. Every kept ticket is unchanged and not older than the limit, and every ticket not older than the limit is kept. |
| TicketExpiry.RemoveOlderThanIdempotent | server/src/main/java/org/craftercms/profile/v2/repositories/impl/TicketRepositoryImpl.java:49 | A second sweep with the same limit removes nothing. |
| TicketExpiry.RemoveOlderThanTwice | server/src/main/java/org/craftercms/profile/v2/repositories/impl/TicketRepositoryImpl.java:49 | Two sweeps equal one sweep with the later limit. |
| TicketExpiry.RemoveOlderThanAntitone | server/src/main/java/org/craftercms/profile/v2/repositories/impl/TicketRepositoryImpl.java:49 | A later limit keeps a subset of what an earlier one keeps. |
| TicketExpiry.TicketRepository.constructor | server/src/main/java/org/craftercms/profile/v2/repositories/impl/TicketRepositoryImpl.java:40-42 | The repository starts over the given ticket store. |
| TicketExpiry.TicketRepository.RemoveWithLastRequestTimeOlderThan | server/src/main/java/org/craftercms/profile/v2/repositories/impl/TicketRepositoryImpl.java:45-50 | The store becomes the old store without the tickets older than the cutoff. No remaining ticket is older, and every ticket not older is kept unchanged. |
| TicketExpiry.SweepTwice | server/src/main/java/org/craftercms/profile/v2/repositories/impl/TicketRepositoryImpl.java:45-50 | Running the sweep twice with the same clock and duration leaves what one run leaves. |

Behaviour of the source worth knowing:
- `getAuthentication` does not touch the ticket's last-access time.
- `invalidateAuthentication` only asks the authentication service to invalidate the ticket. What that service does with its store is not part of this model.
- When `authenticate` succeeds but `getProfile` then fails, the login fails even though a ticket was already issued. Nothing is claimed about the ticket store in that case.
- The protection check in `updateProfile` looks at the user name *argument*, not at the stored profile. So an update without a user name can deactivate a protected user (`ProtectedUserDeactivatedWithoutUserName`).

## Left out

- The remote services themselves (`AuthenticationService`, the REST `ProfileService` client, Ehcache): only their answers are modelled, as the `Backend` functions. Their answers are taken to be fixed within one operation.
- Ehcache time-to-live and capacity eviction: no eviction happens inside the model. An eviction between operations would be a `RemoveAuthenticationFromCache`.
- Concurrency between requests, the sweep and the cache: everything is single-threaded.
- Logging, and `HttpServletResponse.sendError` after a duplicate key in `createProfile`: these have no effect on the returned value. Both are dropped.
- Runtime exceptions other than profile exceptions (a null ticket from `authenticate`, a malformed `ObjectId` in `updateProfile` or `activeProfile`): these are not modelled.
- `Md5PasswordEncoder` is the uninterpreted `hash`, and `EmailValidatorService` is the uninterpreted `validateEmail`.
- Profiles.ProfileService.CreateProfile: an id is taken from the caller (`newId`) instead of being generated by the store. Both `new Date()` calls read the same `now`, though two clock reads could differ.
- Profiles.ValidStore: the unique index on (user name, tenant) is assumed, because the store's index definition is not part of this model. The duplicate-key branches are its only evidence in the source.
- Profiles.ProfileService.ProfileByUserName: `getProfileByUserName(..., null)` is read as the lookup of the whole profile. Its repository code is not part of this model.
- TicketExpiry.TicketRepository.RemoveWithLastRequestTimeOlderThan: a failure of the store's `remove` (the declared `MongoDataException`) is not modelled; the method always completes the filter, and nothing is claimed about the store after such a failure.
- TicketExpiry.RemoveOlderThan: the query text is not part of this model, and "older than" is read as strictly less than the cutoff.
- The other `ProfileServiceImpl` methods (ranges, counts, attribute getters and setters, deletes, role lookups, the `getProfileByTicket` variant with an attribute list): these pass straight through to the repository.
- The remaining `AuthenticationManagerImpl` members (Spring setters): these only wire the services.
- `TenantController` and `AccessTokenRepositoryImpl`: these pass straight through.
- `updateProfile`'s `putAll` changes the stored attribute map in place; the model builds the merged map as a new value. The aliasing is not modelled; the stored result is the same.
