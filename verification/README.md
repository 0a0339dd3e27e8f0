# Refresh-token session lifecycle of the JobFind backend

This project models the authentication core of the JobFind job-board backend
(Spring, Java) and proves its session guarantees in Dafny. The core consists of
the four auth endpoints of `AuthController` (login, refresh, logout, register),
plus the account lookup, over the user table that `UserService` reads and
updates through the user repository.

Every user row has one nullable `refreshToken` slot. The model's main claims
about it:

- Login stores the refresh token it has just minted.
- Refresh checks a presented token in a fixed order: the missing-cookie
  default first, then signature and expiry, then an exact match against the
  slot of the token's subject. A successful refresh rotates the slot to a new
  token.
- Logout empties the slot.
- Registration refuses a duplicate email and stores the encoded password.

Beyond the properties of single calls, `lifecycle.dfy` shows that a rotated or
logged-out token is never accepted again. This holds through any later run of
the five modelled requests (login, refresh, logout, register, profile update),
provided no registration body in the run carries a refresh token.

Layout:

- `common.dfy`: `Option` (Java's nullable references) and `Result` (the
  thrown exceptions).
- `users.dfy`: the table as `map<email, User>`. Every row is keyed by its own
  email, and ids are unique.
  - It holds the repository's finder queries (`findByEmail`, `existsByEmail`,
    `findByRefreshTokenAndEmail`) and the service's updates as functions of
    the table.
  - It also holds the `UserService` class, whose methods update the table in
    place and are proved to agree with those functions.
- `tokens.dfy`: the token codec. `SecurityUtil`'s implementation (its signing
  and claim encoding) is outside the modelled files. Only its mint and check
  behaviour is modelled, with signing abstracted.
  - A token is genuine exactly when the codec issued it. It carries kind,
    subject, user snapshot, issue time and expiry.
  - Each minted token is the decimal rendering of a serial number. A proved
    decimal round trip makes every minted token differ from all earlier ones.
  - The class `SecurityUtil` mints tokens and checks refresh tokens.
- `auth.dfy`: each endpoint is a function from the state before the call to
  its result and the state after it (`LoginStep`, `RefreshStep`, `LogoutStep`,
  `RegisterStep`).
  - The class `AuthController` performs the same writes on the service
    objects. Each state-changing method is proved equal to its function.
    `GetAccount` only reads, and is specified directly.
  - The lemmas state the per-call guarantees.
- `lifecycle.dfy`: runs of requests from the empty system. It defines an
  invariant (no two users share a token, no user holds a token not yet
  minted) and proves that it is preserved. It also proves that rotated and
  logged-out tokens stay refused.

The password encoder is the controller's injected function `passwordEncoder`.
It is uninterpreted, and credentials match when the encoded password equals the
stored one. The clock is the explicit parameter `now`. The authenticated
principal is an explicit `Option<string>` parameter, where `None` means no
principal.

Where the code and its comments differ, the model follows the code:

- The comment at `AuthController.java:190-192` says a password change revokes
  the refresh token. `handleUpdateUser` (`UserService.java:73-80`) overwrites
  name, email and password but keeps the slot.
  `Users.PasswordChangeKeepsSession` states the consequence: a session survives
  a password change made through it.

What registration does with the request body:

- `register` replaces only the password with its encoded form. It hands the
  rest of the body to `handleCreateUser`, which passes it to the repository's
  `save` (`AuthController.java:309-313`, `UserService.java:33-35`).
- A refresh token supplied in the body is therefore stored. The lifecycle
  theorems exclude such requests; see "Left out".
- `save` inserts an entity whose id is unset under a generated id. It merges an
  entity whose id names a stored row over that row. Id 0 stands for an unset
  id, since generated ids start at 1.
- So a body carrying an existing user's id and a free email passes the
  duplicate check and overwrites that user's row. The email, name, encoded
  password and refresh-token slot all change.
  `Auth.RegisterOverwritesRowNamedById` states this.
- The controller imports `UserService` from package `vn.hoangtung.jobfind`,
  while the service file shown declares `vn.hoangtung.jobhunter`. The method
  names agree, so the two are treated as the same service.

## Model

| member | source | states |
|---|---|---|
| Users.FindByEmail | src/main/java/vn/hoangtung/jobhunter/repository/UserRepository.java:18 | finds a user exactly when one is stored under the email, and returns that row |
| Users.ExistsByEmail | src/main/java/vn/hoangtung/jobhunter/repository/UserRepository.java:20 | true exactly when the find-by-email query finds a user |
| Users.ExistsIffSomeUserHasEmail | src/main/java/vn/hoangtung/jobhunter/repository/UserRepository.java:20 | in a well-formed table, `existsByEmail` holds exactly when some stored user has that email |
| Users.FindByRefreshTokenAndEmail | src/main/java/vn/hoangtung/jobhunter/repository/UserRepository.java:22 | finds a user only when a user is stored under the email and its stored token equals the presented one; otherwise none |
| Users.FoundUserHasEmail | src/main/java/vn/hoangtung/jobhunter/repository/UserRepository.java:18-22 | in a well-formed table, both finders return a user whose email is the one looked up |
| Users.KeyOfId | src/main/java/vn/hoangtung/jobhunter/service/UserService.java:74 | find-by-id returns a row with the requested id, or none when no row has it |
| Users.SetRefreshToken | src/main/java/vn/hoangtung/jobhunter/service/UserService.java:171-176 | `updateUserToken` on a table: the email's row gets exactly the given token (possibly none); every other row, every other field and the key set stay the same; an unknown email changes nothing |
| Users.LookupAfterSetRefreshToken | src/main/java/vn/hoangtung/jobhunter/service/UserService.java:167-176 | after the slot is set, the token lookup for that email succeeds exactly for the token just stored |
| Users.SetRefreshTokenIdempotent | src/main/java/vn/hoangtung/jobhunter/service/UserService.java:171-176 | setting the same token twice equals setting it once |
| Users.SetRefreshTokenKeepsWellFormed | src/main/java/vn/hoangtung/jobhunter/service/UserService.java:171-176 | updating the token keeps rows keyed by email with unique ids |
| Users.MergeTarget | src/main/java/vn/hoangtung/jobhunter/service/UserService.java:34 | `save` merges into the row named by the entity's id when the id is set and some row has it; otherwise it inserts (no row has that id, or the id is unset) |
| Users.CreateUser | src/main/java/vn/hoangtung/jobhunter/service/UserService.java:33-35 | `save` of an entity. With no merge target: fails with a conflict exactly when the email is taken; otherwise inserts under the next id and keeps every existing row. With a target row: fails exactly when the email belongs to another row; otherwise replaces the target row by the entity (same id) under its email, keeps every other row and leaves the id counter alone |
| Users.CreateUserKeepsWellFormed | src/main/java/vn/hoangtung/jobhunter/service/UserService.java:33-35 | an insert or a merge keeps rows keyed by email with unique ids |
| Users.ReplaceKeepsWellFormed | src/main/java/vn/hoangtung/jobhunter/service/UserService.java:34 | replacing a row by one with the same id, under its own key or a free one, keeps rows keyed by email with unique ids |
| Users.UpdateUser | src/main/java/vn/hoangtung/jobhunter/service/UserService.java:73-80 | `NotFound` exactly when no row has the id; success exactly when a row has the id and the new email is its own or free; any other failure is `EmailConflict`. On success the saved user has that id and the new name, email and password, is stored under the new email, and the id counter is unchanged |
| Users.UpdateUserChangesProfileOnly | src/main/java/vn/hoangtung/jobhunter/service/UserService.java:73-80 | a missing id fails with `NotFound` and writes nothing; a found id with its own or a free new email succeeds; a success changes only name, email and password, moves the row to its new email, and keeps all other rows |
| Users.UpdateUserSucceedsUnlessEmailTaken | src/main/java/vn/hoangtung/jobhunter/service/UserService.java:73-80 | in a well-formed table the update succeeds exactly when some user has the id and the new email is that user's own or held by nobody, and fails with `EmailConflict` exactly when another user holds it |
| Users.PasswordChangeKeepsSession | src/main/java/vn/hoangtung/jobhunter/service/UserService.java:73-80 | updating a user without changing its email always succeeds, keeps its refresh token, and leaves every token lookup under that email unchanged |
| Users.UpdateUserKeepsWellFormed | src/main/java/vn/hoangtung/jobhunter/service/UserService.java:73-80 | a successful profile update keeps rows keyed by email with unique ids |
| Users.ConvertToResCreateUserDTO | src/main/java/vn/hoangtung/jobhunter/service/UserService.java:97-115 | the response carries exactly the user's id, email, name, age, creation time, gender and address |
| Users.CreateUserDTOHidesSecrets | src/main/java/vn/hoangtung/jobhunter/service/UserService.java:97-115 | the registration response does not depend on the password or the refresh token; it carries the user's id and email |
| Users.UserService.HandleGetUserByUsername | src/main/java/vn/hoangtung/jobhunter/service/UserService.java:89-91 | finds the stored user whose email is the username, or none |
| Users.UserService.IsEmailExist | src/main/java/vn/hoangtung/jobhunter/service/UserService.java:93-95 | true exactly when `HandleGetUserByUsername` finds a user |
| Users.UserService.GetUserByRefreshTokenAndEmail | src/main/java/vn/hoangtung/jobhunter/service/UserService.java:167-169 | returns a user only when both the stored token and the email match the arguments, otherwise none |
| Users.UserService.FetchUserById | src/main/java/vn/hoangtung/jobhunter/service/UserService.java:117-120 | always fails as unsupported |
| Users.UserService.UpdateUserToken | src/main/java/vn/hoangtung/jobhunter/service/UserService.java:171-176 | the table afterwards is `SetRefreshToken` of the table before; the table stays well formed |
| Users.UserService.HandleCreateUser | src/main/java/vn/hoangtung/jobhunter/service/UserService.java:33-35 | the result and the new table are those of `CreateUser` (insert, or merge over the row the id names); a conflict writes nothing; the table stays well formed |
| Users.UserService.HandleUpdateUser | src/main/java/vn/hoangtung/jobhunter/service/UserService.java:73-80 | the result and the new table are those of `UpdateUser`; a missing id writes nothing |
| Tokens.DecimalRoundTrip | src/main/java/vn/hoangtung/jobfind/controller/AuthController.java:218 | reading back the rendering of a token's serial number gives that number |
| Tokens.DecimalInjective | src/main/java/vn/hoangtung/jobfind/controller/AuthController.java:218 | two different serial numbers never render to the same token string |
| Tokens.Mint | src/main/java/vn/hoangtung/jobfind/controller/AuthController.java:109-113 | minting from a fresh codec yields a token never issued before; the token is recorded with its claims, and earlier tokens keep theirs |
| Tokens.MintKeepsFresh | src/main/java/vn/hoangtung/jobfind/controller/AuthController.java:109-113 | minting from a fresh codec keeps it fresh: no token the codec will mint later has been issued yet |
| Tokens.MintKeepsEarlierTokens | src/main/java/vn/hoangtung/jobfind/controller/AuthController.java:214-218 | minting never re-issues an earlier token and leaves its claims unchanged |
| Tokens.CheckValid | src/main/java/vn/hoangtung/jobfind/controller/AuthController.java:187-188 | a token is accepted exactly when it was issued, is a refresh token and has not expired; the decoded claims are the issued ones |
| Tokens.MintThenCheck | src/main/java/vn/hoangtung/jobfind/controller/AuthController.java:187-188 | a refresh token just minted checks as valid with exactly its claims until its expiry, and not after; an access token never passes |
| Tokens.SecurityUtil.Issue | src/main/java/vn/hoangtung/jobfind/controller/AuthController.java:109-113 | the returned token and the new codec state are those of `Mint`; the codec stays fresh |
| Tokens.SecurityUtil.CreateAccessToken | src/main/java/vn/hoangtung/jobfind/controller/AuthController.java:109 | mints an access token for the email, expiring after the access lifetime |
| Tokens.SecurityUtil.CreateRefreshToken | src/main/java/vn/hoangtung/jobfind/controller/AuthController.java:113 | mints a refresh token for the email, expiring after the refresh lifetime |
| Tokens.SecurityUtil.CheckValidRefreshToken | src/main/java/vn/hoangtung/jobfind/controller/AuthController.java:187 | accepts exactly issued, unexpired refresh tokens and returns their issued claims |
| Auth.Authenticate | src/main/java/vn/hoangtung/jobfind/controller/AuthController.java:85-86 | credentials are accepted exactly when a user is found under the username and its stored password equals the encoded password given |
| Auth.StartSession | src/main/java/vn/hoangtung/jobfind/controller/AuthController.java:95-126 | always succeeds with a cookie of the configured max-age and the user snapshot; the cookie's token is recorded as a refresh token for the email expiring after the refresh lifetime and is stored in the email's slot, nothing else in the table changing; from a fresh codec the token is new and the codec stays fresh |
| Auth.LoginStep | src/main/java/vn/hoangtung/jobfind/controller/AuthController.java:72-133 | succeeds exactly when the credentials are accepted; a failure is `AuthenticationFailed` and writes nothing; a success starts a session for the username |
| Auth.RefreshStep | src/main/java/vn/hoangtung/jobfind/controller/AuthController.java:174-245 | a refused refresh writes nothing; a success implies the cookie is present, the token valid, and the subject's slot holding exactly this token, and starts a session for that subject |
| Auth.LogoutStep | src/main/java/vn/hoangtung/jobfind/controller/AuthController.java:253-286 | never touches the codec or the set of users; a failure writes nothing; a success needs a principal, returns the empty cookie with max-age 0, and leaves the principal's slot empty |
| Auth.RegisterStep | src/main/java/vn/hoangtung/jobfind/controller/AuthController.java:295-318 | fails with `DuplicateEmail`, writing nothing, exactly when the email is stored; on success the user under the email holds the encoded password and the response is its public profile; the codec is untouched |
| Auth.LoginStoresIssuedToken | src/main/java/vn/hoangtung/jobfind/controller/AuthController.java:85-116 | login succeeds exactly when the credentials check, and a failure changes nothing. On success the returned refresh token is new, is stored in the user's slot (replacing any earlier value) and has the username as subject. The access token is a different access token for the same subject, and no other user changes |
| Auth.RefreshRejectsMissingCookieFirst | src/main/java/vn/hoangtung/jobfind/controller/AuthController.java:178-184 | the default cookie value fails with `MissingToken` and changes nothing, whatever the state; a real cookie with that value is rejected too |
| Auth.RefreshValidatesBeforeLookup | src/main/java/vn/hoangtung/jobfind/controller/AuthController.java:187-193 | a token failing the signature/expiry check fails with `InvalidToken`, changes nothing, and gets the same answer whatever the user table holds |
| Auth.RefreshAcceptsOnlyTheStoredToken | src/main/java/vn/hoangtung/jobfind/controller/AuthController.java:193-197 | refresh succeeds if and only if the cookie is present, the token is valid, and the subject's slot holds exactly this token. A valid token that is not the stored one fails with `RevokedToken` and changes nothing |
| Auth.RefreshRotates | src/main/java/vn/hoangtung/jobfind/controller/AuthController.java:188-226 | success stores a new refresh token, different from the presented one, for the presented token's subject. Both new tokens carry that subject. Presenting the old token again fails: `RevokedToken` before its expiry, `InvalidToken` after |
| Auth.LogoutRevokes | src/main/java/vn/hoangtung/jobfind/controller/AuthController.java:257-270 | no principal or an empty email fails with `Unauthenticated` and changes nothing. Otherwise the user's slot becomes none and nothing else changes; the deleting cookie (max-age 0) is returned, and every valid token for that email is then refused as revoked |
| Auth.LogoutIdempotent | src/main/java/vn/hoangtung/jobfind/controller/AuthController.java:257-270 | logging out twice leaves the same state and result as once |
| Auth.RegisterRejectsOnlyDuplicates | src/main/java/vn/hoangtung/jobfind/controller/AuthController.java:301-317 | fails with `DuplicateEmail` and changes nothing exactly when the email exists. Otherwise the body with its encoded password is saved: inserted under the next id, keeping every existing user, when its id names no user; merged over the named user's row, keeping every other user, when it does. The response is the saved user's public profile |
| Auth.RegisterOverwritesRowNamedById | src/main/java/vn/hoangtung/jobfind/controller/AuthController.java:301-313 | a body carrying an existing user's id and a free email is accepted and overwrites that user: the old email disappears, and the row under the new email keeps the id but takes every other field from the body |
| Auth.MintedTokenIsNeverTheDefault | src/main/java/vn/hoangtung/jobfind/controller/AuthController.java:178-184 | no minted token equals the missing-cookie default |
| Auth.AuthController.IssueSession | src/main/java/vn/hoangtung/jobfind/controller/AuthController.java:203-226 | snapshotting the user, minting both tokens and storing the refresh token give exactly `StartSession`'s response and state |
| Auth.AuthController.Login | src/main/java/vn/hoangtung/jobfind/controller/AuthController.java:72-133 | the response and the new state are those of `LoginStep`; both services stay valid |
| Auth.AuthController.GetAccount | src/main/java/vn/hoangtung/jobfind/controller/AuthController.java:140-163 | returns a user exactly when one is stored under the principal's email (empty when there is none); it carries id, email and name, never the role |
| Auth.AuthController.GetRefreshToken | src/main/java/vn/hoangtung/jobfind/controller/AuthController.java:174-245 | the response and the new state are those of `RefreshStep`; both services stay valid |
| Auth.AuthController.Logout | src/main/java/vn/hoangtung/jobfind/controller/AuthController.java:253-286 | the response and the new state are those of `LogoutStep` |
| Auth.AuthController.Register | src/main/java/vn/hoangtung/jobfind/controller/AuthController.java:295-318 | the response and the new state are those of `RegisterStep` (duplicate check, encoding, then `save` of the body) |
| Lifecycle.InitialInv | src/main/java/vn/hoangtung/jobfind/controller/AuthController.java:113-116 | the empty system satisfies the lifecycle invariant |
| Lifecycle.StartSessionKeepsInv | src/main/java/vn/hoangtung/jobfind/controller/AuthController.java:113-116 | storing a freshly minted refresh token keeps tokens unshared between users, and keeps no user holding a token yet to be minted |
| Lifecycle.UpdateUserKeepsInv | src/main/java/vn/hoangtung/jobhunter/service/UserService.java:73-80 | a profile update moves a user together with its token and keeps the invariant |
| Lifecycle.ReplaceKeepsInv | src/main/java/vn/hoangtung/jobhunter/service/UserService.java:73-80 | replacing a row by one with the same id whose slot is empty or unchanged keeps the invariant; it covers profile updates and registrations merged over an existing row |
| Lifecycle.ReplaceKeepsDead | src/main/java/vn/hoangtung/jobfind/controller/AuthController.java:309-313 | the same replacement keeps a dead token dead |
| Lifecycle.ApplyKeepsInv | src/main/java/vn/hoangtung/jobfind/controller/AuthController.java:72-318 | every request whose body carries no refresh token keeps the invariant |
| Lifecycle.ApplyKeepsDead | src/main/java/vn/hoangtung/jobfind/controller/AuthController.java:72-318 | every such request keeps a token that no user holds in that state |
| Lifecycle.SessionKeepsDead | src/main/java/vn/hoangtung/jobfind/controller/AuthController.java:218-226 | the token a login or refresh stores is never an earlier issued one |
| Lifecycle.DeadTokenIsRefused | src/main/java/vn/hoangtung/jobfind/controller/AuthController.java:193-197 | a token no user holds is refused by refresh |
| Lifecycle.RunKeepsDead | src/main/java/vn/hoangtung/jobfind/controller/AuthController.java:72-318 | through any run of such requests the invariant holds and a dead token stays dead |
| Lifecycle.RunKeepsInv | src/main/java/vn/hoangtung/jobfind/controller/AuthController.java:72-318 | the invariant holds after any run of such requests |
| Lifecycle.SessionKeepsDeadAfterRotation | src/main/java/vn/hoangtung/jobfind/controller/AuthController.java:218-226 | right after a rotation, no user holds the presented token any more |
| Lifecycle.RotatedTokenIsRefusedForever | src/main/java/vn/hoangtung/jobfind/controller/AuthController.java:187-226 | once a refresh with a token has succeeded, no later refresh with it succeeds, after any run of such requests and at any time |
| Lifecycle.LoggedOutTokenIsRefusedForever | src/main/java/vn/hoangtung/jobfind/controller/AuthController.java:257-270 | the token a user held at logout is never accepted again, after any run of such requests |
| Lifecycle.RegisterLoginRotateScenario | src/main/java/vn/hoangtung/jobfind/controller/AuthController.java:72-318 | register, log in, refresh with the first token: the second token differs, the first is refused as revoked, and the second is accepted |

## Left out

- JWT signing, verification and claim encoding: the implementation of `SecurityUtil` is outside the modelled files. Only its mint and check behaviour is modelled, and a token is genuine when the codec issued it.
  - Modelling choice: the model's check refuses access tokens presented as refresh tokens. Whether `SecurityUtil` tells the two kinds apart cannot be seen, because it is not shown.
  - Clock skew tolerance in the expiry check is not modelled.
- Tokens.SecurityUtil.CreateRefreshToken: freshness is an assumption of the model. If `SecurityUtil` adds no unique claim (such as a token id) and stamps times to the second, two tokens minted for the same subject and snapshot within one second would be byte-identical. A rotation within that second would then store the same string again.
- Lifecycle.RotatedTokenIsRefusedForever: assumes that no registration in the run carries a refresh token in its body. `register` saves the body's `refreshToken` field as it comes, so such a request could put the old token back into a slot.
- Lifecycle.LoggedOutTokenIsRefusedForever: same assumption as above, for the same reason.
- Spring Security's authentication manager and the ambient security context are framework code. The credential check is `encode(password) == stored password` with an uninterpreted, deterministic encoder. bcrypt salting is not modelled. The principal is an explicit parameter.
- Cookie construction: only the cookie value and its max-age are modelled. The flags (HttpOnly, Secure, path) and the response status codes are HTTP plumbing.
- Bean validation (`@Valid`) of request bodies: the entity and DTO classes are not part of this model, so no field constraint is checked.
- Users.CreateUser: a set id that names no stored row is modelled as an insert under the next generated id. What the JPA provider actually does in that case (persist a copy, or reject the detached entity) depends on its version and on the `User` entity, which is not part of this model. Saving into an email held by another row fails as `EmailConflict`, as the table's email uniqueness requires. Whether the database enforces this (a unique constraint on email) is not visible, since the entity and the schema are not part of this model. Entity lifecycle hooks such as creation timestamps are not modelled.
- Users.UserService.HandleCreateUser: follows Users.CreateUser, including its treatment of a set id that names no row.
- Auth.RegisterRejectsOnlyDuplicates: its "every existing user is kept" clause covers only bodies whose id names no stored user. For the others it states the merge over the named row, as `save` does.
- Auth.AuthController.Register: follows Users.CreateUser, including its treatment of a set id that names no row.
- Users.UpdateUser: saving into an email held by another user fails as `EmailConflict`, as the table's email uniqueness requires. Whether the database enforces this is not visible here.
- Store failures (database unavailable) are not modelled: the store never fails.
- `fetchAllUser` (pagination), `convertToResUpdateUserDTO`, `convertToResUserDTO`, `handleDeleteUser` and `getUserById`: data-access glue outside the session lifecycle.
- `EmailController` (mock data and email delivery) and `CompanyRepository` (an empty repository interface) are outside the session core.
- Concurrent refreshes racing on one user are not modelled. The model is sequential, and every request sees the previous one's writes.
- Integer widths: ids and times are unbounded integers. The `long` arithmetic of expiry times is not modelled for overflow.
