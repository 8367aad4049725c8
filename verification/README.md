# Session tokens, accounts and their middleware: a verified model

The project models the session-token service of a TypeScript REST API: registration, login, refresh-token
rotation, logout, password change, account update and deletion, and token authentication, over a relational
store with constraints, a Redis blacklist with per-key expiry and a millisecond clock. Beside it stand the
user list, the validation middleware and the user routes.

Most operations of the source check first and write later. Requests are therefore small processes: a read
phase, and later a write, interleaved in any way with every other request and with the clock. Against this
machine stands an atomic specification, written on the tables directly, in which each operation happens at
one instant. The service classes are the source's methods with its `await` points: `others`, an argument of
each method, is whatever the other requests do to the shared state during the wait.

| file | contents |
|---|---|
| Domain.dfy, Jwt.dfy, Store.dfy | entities, errors and statuses; token arithmetic; tables, constraints, error codes |
| Machine.dfy | the interleaved machine with its history; runs |
| AtomicSpec.dfy, Linearizability.dfy | the atomic specification; every run as a sequential history |
| Invariants.dfy, History.dfy | what every step keeps; lineage, revocation, password change, token types, expiry |
| Rotation.dfy | live-token counts; lineages as chains exactly when refreshes do not overlap |
| PasswordChange.dfy, SessionEnd.dfy | which sessions survive a password change, and which a logout |
| AccessTokens.dfy | blacklist coverage; bounded staleness of roles |
| Projection.dfy, UserRuns.dfy | one user's view of a run, as a history and as a run of its own |
| Answers.dfy | what a client gets: working tokens, the updated row, the fitting refusal |
| Schemas.dfy | normalisation; register, then log in |
| Services.dfy | the service classes over a mutable backend |
| Pagination.dfy, Validation.dfy, Routing.dfy | the user list; error grouping; router, guards and error handler |
| Scenarios.dfy | concrete runs from an empty database in which a promise is broken |

## Assumptions

- Signatures are ideal: a signed string determines its secret and its claims, and verifies under that secret
  only. The two secrets may be equal.
- Drawn uuids have not been drawn before. Salts and clock readings are arbitrary, the readings in order.
- The access lifetime is at most 900 s, the refresh lifetime at most 7 days; each may be shorter.
- The service, the database and Redis share one clock; a Redis key is visible up to and including its
  deadline.
- `compare(p, hash(p, salt))` holds. Different passwords may match the same hash.
- Each transaction commits at one instant and leaves nothing behind when it fails.
- A history starts from any constrained user table (a seeded administrator, say) with no tokens.

## What turned out not to hold

- Rotation is not single-use. From an empty database: register, begin two refreshes of the new token, write
  both; both succeed and leave two live tokens (`Scenarios.TwoRefreshesSucceed`). In every run lineages are
  chains with one live token each if and only if no two successful refreshes of one token overlap, each
  begun before the other writes (`Rotation.LineagesBranchIffRefreshesOverlap`). It is enough that a refresh
  begins only when no other refresh of the same token is under way (`Rotation.SerializedRunsChain`).
- A password change does not force every device to log in again (`src/modules/auth/auth.service.ts:243`). Two
  runs from an empty database show it. Register, begin a refresh, change the password, write the refresh: it
  succeeds, and its live token replaced one from before the change (`Scenarios.SessionSurvivesChange`).
  Register, begin a login, change the password, write the login: the old password has opened a session after
  the change (`Scenarios.OldPasswordOpensSession`). In every continuation all live tokens of the user descend
  from a login begun after the change if and only if no refresh and no login of that user is between its read
  and its write as the change is written (`PasswordChange.ChangeForcesLoginIff`).
- A logout does not always end its session (`src/modules/auth/auth.routes.ts:198`). From an empty database:
  register, begin a refresh, log out the same token, write the refresh; a live token has replaced the one
  logged out (`Scenarios.SessionSurvivesLogout`). A logout of a live token ends the session in every
  continuation if and only if no refresh of that token is between its read and its write
  (`SessionEnd.LiveLogoutEndsSessionIff`; for any token of the user, `SessionEnd.LogoutEndsSessionIff`).
- A login, refresh, password change or token lookup agrees with its atomic form exactly when what it read
  still holds: `Linearizability.WriteAgreesIffStable`.
- A token lookup that is held up past the blacklist entry accepts a logged-out token. From an empty
  database: register, log out, begin an authentication, wait 900 s and 1 ms
  (`Scenarios.HeldUpLookupIsReached`); the exact condition is in `AccessTokens.LookupAfterLogout`.
- Grouping arbitrary issues fails exactly when one lies on a field named like an inherited object property
  (`Validation.GroupErrors`). The schemas of the user routes have fixed keys, so this cannot be reached
  there, and every request gets exactly one reply (`Routing.OneReplyPerRequest`).
- The API documentation promises family invalidation on reuse of a refresh token
  (`src/modules/auth/auth.routes.ts:158`), blacklisting of the access token on password change
  (`src/modules/auth/auth.routes.ts:286`) and audit logging (`src/modules/users/user.routes.ts:115`). The
  services do none of these, and the model follows the services.

## Model

| member | source | states |
|---|---|---|
| Linearizability.EveryRunIsSequential | src/modules/users/user.service.ts:80-107 | Every interleaved run ends with the state and the answers, up to message text, of a sequential history whose every entry performs what a request of that id began in the run asked for; an entry is a bare write only for a login, refresh, password change or lookup, and only where what it read does not hold in the history at that place; all else is atomic |
| Linearizability.EntriesHonourRequests | src/modules/users/user.service.ts:80-107 | Each entry of the history carries out the request that was begun under its id, with its arguments; revocation and blacklist entries come from a logout naming that token and jti |
| Linearizability.AccountRunsAreLinearizable | src/modules/auth/auth.service.ts:39-84 | Runs of registrations, updates, deletions and logouts are linearizable under every interleaving, a logout counting as two atomic operations, its revocation and later its blacklist write; each entry performs what was requested, a lost race showing as the sequential 409 or 404 |
| Linearizability.Linearizable | src/modules/auth/auth.service.ts:106-275 | A run whose writes find what they read is a sequential run of the atomic specification alone, each entry performing what was requested |
| Linearizability.UnchangedRunIsStable | src/modules/auth/auth.service.ts:106-275 | If at each write the rows are as the request read them and its token has not expired since, the whole run is linearizable in that sense |
| Linearizability.WriteAgreesIffStable | src/modules/auth/auth.service.ts:204-217 | A late write has the effect and answer of the atomic operation at that instant if and only if what the request read still holds |
| Linearizability.FailedReadAgrees | src/modules/auth/auth.service.ts:45-51 | A request refused by its checks is refused with the same status by the atomic operation at the moment of its read |
| Linearizability.PassedReadIsStable | src/modules/auth/auth.service.ts:174-187 | A request passes its checks only when they hold at that instant; a registration that passes has no clash |
| Linearizability.UnchangedIsStable | src/modules/auth/auth.service.ts:174-187 | An account that is as it was read (for refresh also a live row and an unexpired token, for a password change the same hash, for a lookup an unexpired token) is enough for the operation to be atomic |
| Linearizability.RealTimeOrder | src/modules/users/user.service.ts:80-107 | A request finished before another begins has all its effects earlier in the sequential history |
| Linearizability.EffectOnce | src/modules/auth/auth.service.ts:229-240 | No request appears twice in the sequential history; only a logout has two entries, the revocation and later the blacklist write |
| Machine.Act | prisma/schema.prisma:28-63 | Every write keeps the constraints of the schema, and one that answers with an error leaves database and Redis unchanged |
| Machine.Grant | src/modules/auth/auth.service.ts:75-84 | Issuing a session keeps the constraints or rolls back to the state before the transaction |
| Store.CreateUser | prisma/schema.prisma:28-31 | Inserting an account keeps unique e-mails, usernames and ids |
| Store.CreateToken | prisma/schema.prisma:47-57 | Inserting a token keeps unique token strings and an existing owner |
| Store.PatchUser | src/modules/users/user.service.ts:87-95 | A partial update keeps the unique columns |
| Store.RemoveUser | prisma/schema.prisma:57 | Deletion with cascade leaves no token without an owner |
| Store.RevokeMany | src/modules/auth/auth.service.ts:230-233 | Revoking several rows keeps all constraints |
| Invariants.ReachableInv | src/modules/auth/auth.service.ts:34-276 | The full invariant (constraints, token and row shape, lineage, what waiting requests may rely on) holds in every state of every interleaving |
| Invariants.RunKeeps | src/modules/auth/auth.service.ts:34-276 | Over any run ids, token strings, e-mails and expiry times never change, revocation is never undone, blacklist deadlines never move back |
| Invariants.ActMints | src/utils/jwt.util.ts:13-29 | Tokens handed out carry the drawn ids, the secret and lifetime of their type, and the id, e-mail and role of the account granted |
| Invariants.RotationKills | src/modules/auth/auth.service.ts:205-208 | A refresh that succeeds leaves no live row with the presented token |
| Answers.SessionsFit | src/modules/auth/auth.service.ts:54-98 | Every session or token pair answered by registration, login or refresh names the account it is for, holds one access and one refresh token signed each with its own secret, type, lifetime, fresh jti and the account's id, e-mail and role, and leaves the refresh token stored live for seven days |
| Answers.AccessTokensWork | src/utils/jwt.util.ts:13-20 | The access token answered differs from the refresh token and authenticates, with the claims it was signed with, exactly while its lifetime lasts and its jti is not blacklisted |
| Answers.RefreshTokensWork | src/utils/jwt.util.ts:22-29 | The refresh token answered can be exchanged, in any later state that stores its row, exactly while the row is live and in time, the signature lasts and the account is active |
| Answers.UpdateAnswersRow | src/modules/users/user.service.ts:87-95 | An update changes the fields it names and no other and answers with the new row without its hash |
| Answers.RefusedAsTabled | src/modules/auth/auth.service.ts:174-187 | A request is refused at its read exactly when the tables give a reason to, and with the status and reason that fits; a registration exactly when e-mail or username is in use |
| Answers.ConflictNamesTheField | src/modules/auth/auth.service.ts:45-51 | A refused registration names the e-mail or the username, and the right one when only one is in use |
| Invariants.FreshToken | prisma/schema.prisma:49 | A newly signed refresh token is in no row, so the unique column never rejects it |
| History.AncestryIsLinear | src/modules/auth/auth.service.ts:204-217 | Parent links never loop, every proper ancestor is dead and of the same user, and the last one came from a registration or login |
| History.EveryRowHasALineage | src/modules/auth/auth.service.ts:204-217 | In every reachable state each stored token has such a lineage, ending at a token of its existing owner |
| History.RevocationIsPermanent | src/modules/auth/auth.service.ts:174-208 | Once revoked or deleted a token stays so in every continuation, its string is never stored again, and every later refresh read with it answers 401 |
| History.LiveTokensPostdatePasswordChange | src/modules/auth/auth.service.ts:264-274 | After a password change every live token of the user was stored by a later write, under every interleaving |
| History.KindsAreSeparate | src/middlewares/auth.middleware.ts:29-31 | Even with equal secrets no access token is ever stored or rotated and no refresh token passes authentication |
| History.SignatureExpiresFirst | src/modules/auth/auth.service.ts:181 | For every stored token the signed expiry is never later than the row's, so a valid signature implies an unexpired row at the same instant |
| History.ExpiryGap | src/modules/auth/auth.service.ts:214 | The row outlives the signature by the delay between signing and stamping and less than a second more |
| History.ConstraintsAndAborts | prisma/schema.prisma:28-63 | Every reachable state is constrained, and an aborted write leaves no account, no token, no revocation and no history |
| Rotation.LiveCountMoves | src/modules/auth/auth.service.ts:170-275 | Each write changes each user's number of live tokens by exactly: +1 register or login, 0 refresh of a live row (+1 of a revoked one), -1 or 0 logout, all for password change and deletion, 0 for everyone else |
| Rotation.LineagesBranchIffRefreshesOverlap | src/modules/auth/auth.service.ts:170-217 | In every run, some token has two children or some lineage two live tokens if and only if two refreshes of one token both succeed, each begun before the other writes |
| Rotation.SerializedRunsChain | src/modules/auth/auth.service.ts:170-217 | If a refresh begins only when no other refresh of the same token is under way, whatever else interleaves, no token has two children and each lineage has at most one live token |
| Rotation.ChainsIffNoSiblings | src/modules/auth/auth.service.ts:204-217 | In every reachable state a lineage has at most one live token as soon as no token has two children |
| Rotation.SecondBeganEarly | src/modules/auth/auth.service.ts:174-208 | When two refreshes of one token both succeed, each had begun before the other wrote |
| Rotation.RotationKeepsChainsIff | src/modules/auth/auth.service.ts:204-217 | A successful refresh keeps lineages chains if and only if no refresh of the presented token has succeeded earlier in the run |
| Rotation.DoubleRotation | src/modules/auth/auth.service.ts:174-217 | Two refreshes that read the same live token both succeed and leave two live tokens with one parent |
| Scenarios.TwoRefreshesSucceed | src/modules/auth/auth.service.ts:170-224 | A run from an empty database reaches that: two refreshes of one token succeed and both new tokens are live |
| Scenarios.SessionSurvivesChange | src/modules/auth/auth.service.ts:242-275 | A run from an empty database in which a session survives a successful password change |
| Scenarios.OldPasswordOpensSession | src/modules/auth/auth.service.ts:242-275 | A run from an empty database in which the old password opens a session after a successful password change |
| Scenarios.SessionSurvivesLogout | src/modules/auth/auth.service.ts:229-240 | A run from an empty database in which a live token replaces one that was logged out |
| Scenarios.HeldUpLookupIsReached | src/middlewares/auth.middleware.ts:27-40 | A run from an empty database in which a logged-out access token is accepted after a delay |
| PasswordChange.ChangeForcesLoginIff | src/modules/auth/auth.service.ts:242-275 | After a password change all live tokens of the user, in every continuation, descend through later tokens only from a login begun after it if and only if no refresh and no login of that user waits between its read and its write as the change is written |
| PasswordChange.LiveTokensDescendFromLaterLogin | src/modules/auth/auth.service.ts:264-274 | In any continuation in which no refresh or login waiting at the change writes, each live token of the user descends, through later tokens only, from a login begun after the change |
| PasswordChange.WaitingRefreshSurvivesChange | src/modules/auth/auth.service.ts:174-217 | A refresh that read before the change and writes after it leaves a live token whose parent predates the change |
| PasswordChange.WaitingLoginSurvivesChange | src/modules/auth/auth.service.ts:107-149 | A login that matched the old password before the change and writes after it leaves a live token that no login begun after the change accounts for |
| SessionEnd.LogoutEndsSessionIff | src/modules/auth/auth.service.ts:229-233 | After the logout of a user's token, no live token descends from it in any continuation if and only if at the write no live token had replaced it and, while the account exists, no refresh of it or of its descendants was waiting |
| SessionEnd.LiveLogoutEndsSessionIff | src/modules/auth/auth.service.ts:229-233 | For a live token the condition is that no refresh presenting that very token waits at the write |
| SessionEnd.WaitingRefreshRenews | src/modules/auth/auth.service.ts:204-217 | A waiting refresh of a revoked token or of a descendant succeeds and leaves a live descendant |
| AccessTokens.LogoutCovers | src/modules/auth/auth.service.ts:235-239 | The blacklist entry written by a logout never ends before the token's second-floored expiry |
| AccessTokens.NoAuthenticationAfterLogout | src/middlewares/auth.middleware.ts:26-40 | Once a logout has finished, no later authentication at one instant accepts the token, at any clock value of any continuation |
| AccessTokens.LookupAfterLogout | src/middlewares/auth.middleware.ts:34-40 | A separate, later lookup accepts if and only if the entry has gone, and never while the signature is valid |
| AccessTokens.HeldUpLookupAccepts | src/middlewares/auth.middleware.ts:27-40 | A request that verified the token and then waits 900 s and 1 ms before its lookup is accepted |
| AccessTokens.BoundedStaleness | src/middlewares/auth.middleware.ts:26-47 | If requests sign within d ms of reading, an accepted token carries a role its active user held less than 900 s + d ago |
| AccessTokens.OldAuthorityExpires | src/modules/users/user.service.ts:87-106 | 900 s + d after a role change, deactivation or deletion that is not undone, no token with the old authority verifies |
| UserRuns.OwnEventsAreARun | src/modules/auth/auth.service.ts:229-274 | Of every interleaved run, the events of one user's successful requests, with the clock and the logouts, are themselves a valid run of a service that has this account only; it ends in exactly the user's account and tokens and gives each of these requests its answer |
| Projection.RunProjects | src/modules/auth/auth.service.ts:229-274 | In the sequential history of every interleaved run, one user's own successes, with stale writes kept as they were decided, produce alone exactly the user's account and tokens, and each answers as it did among the others |
| Projection.ProjectionIsExact | prisma/schema.prisma:57 | Erasing all successes of other users leaves a valid history in which every remaining entry gives its former, successful answer, ending in the same rows for that user |
| Projection.EntryProjects | prisma/schema.prisma:57 | One entry, atomic or stale: the user's own does and answers the same without the other accounts, any other touches none of the user's rows |
| Projection.BareWriteProjects | src/modules/auth/auth.service.ts:204-217 | A write on a stale read also depends on and touches the rows of its own user only |
| Projection.OperationProjects | src/modules/auth/auth.service.ts:229-233 | An operation of the user does and answers the same without the other accounts; an operation of another user touches none of the user's rows |
| Projection.AtomicKeepsConstraints | prisma/schema.prisma:28-63 | The atomic specification keeps the constraints too |
| Schemas.EmailsStayNormal | src/modules/auth/auth.schema.ts:12-27 | In every reachable state of a service fed through its schemas all stored e-mails are normalised |
| Schemas.NormaliseIs | src/modules/auth/auth.schema.ts:13 | The normal form is the one string without padding and upper-case letters that differs from the input in these only |
| Schemas.LowerIffCaseVariant | src/modules/auth/auth.schema.ts:13 | Two strings have one lower-case form if and only if they agree letter by letter up to case |
| Schemas.ParsedRegistration | src/modules/auth/auth.schema.ts:12-22 | The register schema accepts exactly what its three rules accept, normalises e-mail and username, and leaves the password as given |
| Schemas.ParsedLogin | src/modules/auth/auth.schema.ts:24-27 | The login schema accepts exactly an e-mail its rule accepts with a non-empty password, and normalises the e-mail only |
| Schemas.CaseVariantsNormaliseAlike | src/modules/auth/auth.schema.ts:13 | Two addresses normalise to the same string if and only if, without their padding, they are case variants |
| Schemas.NormaliseIsIdempotent | src/modules/auth/auth.schema.ts:25 | Normalising twice changes nothing |
| Schemas.RegisterThenLogin | src/modules/auth/auth.service.ts:107-125 | After a registration parsed by the schema, any case or padding variant of the address with the very password given to the schema logs in to that account in every run without password change, deactivation or deletion of it |
| Schemas.NewPasswordOpens | src/modules/auth/auth.service.ts:261-268 | After a password change of an active account its new password logs in to it, in every run that does not change it again, deactivate or delete the account |
| Jwt.Lifetime | src/utils/jwt.util.ts:31-44 | A token verifies under its own secret only, for at least its lifetime less 999 ms and never for its whole lifetime or longer |
| Jwt.RefusalIsPermanent | src/utils/jwt.util.ts:46-59 | A token refused once is refused at every later time |
| Services.AuthService.Register | src/modules/auth/auth.service.ts:39-99 | Final state and answer, for any interference during the wait, are those of the modelled request; a failed token insert rolls the account back |
| Services.AuthService.Login | src/modules/auth/auth.service.ts:106-164 | The same for login |
| Services.AuthService.RefreshTokens | src/modules/auth/auth.service.ts:170-224 | The same for rotation, with the signature checked first |
| Services.AuthService.Logout | src/modules/auth/auth.service.ts:229-240 | The row is revoked at once as the atomic specification says, the blacklist entry follows after the wait, and only if there is a jti |
| Services.AuthService.ChangePassword | src/modules/auth/auth.service.ts:246-275 | The same for a password change |
| Services.UserService.UpdateUser | src/modules/users/user.service.ts:80-96 | The same for an update |
| Services.UserService.DeleteUser | src/modules/users/user.service.ts:98-107 | The same for a deletion |
| Services.ServedAloneIsAtomic | src/modules/auth/auth.service.ts:39-275 | A request, logout included, with nothing happening during its wait has the effect and answer of its atomic operation |
| Services.ServeIsTheMachine | src/modules/auth/auth.service.ts:39-224 | What the service methods promise is, in state and answer, one request of the interleaved machine, the other requests of a run taking the place of the interference |
| Services.LogoutIsTheMachine | src/modules/auth/auth.service.ts:229-240 | The same for a logout with its two writes, the interference coming between them |
| Pagination.GetUsers | src/modules/users/user.service.ts:22-65 | With the condition built step by step, the answer is the page and the totals of the plain filtered list: rows of the role whose e-mail or username has a stretch equal to the search term up to letter case, an absent or empty term filtering nothing |
| Pagination.ContainsIffFound | src/modules/users/user.service.ts:34-39 | A text contains a term if and only if it splits into three parts the middle one of which is a case variant of the term |
| Pagination.FilterPicks | src/modules/users/user.service.ts:45-54 | The rows found are exactly the rows of the table that satisfy the condition, each as often and in the order as in the table |
| Pagination.PagesPartitionTheList | src/modules/users/user.service.ts:24-64 | Pages 1 to totalPages of a list laid end to end are the list, no row lost or repeated |
| Pagination.PageSizes | src/modules/users/user.service.ts:56-64 | Every page before the last has exactly limit rows, later pages are empty, totals agree on every page |
| Validation.GroupErrors | src/middlewares/validate.middleware.ts:36-43 | The loop yields, for each field mentioned and no other, its messages in order; it fails if and only if a field is an inherited property name |
| Validation.GroupingConserves | src/middlewares/validate.middleware.ts:36-43 | The record holds as many messages as there are issues, each message under its own field |
| Validation.GroupsIsGrouped | src/middlewares/validate.middleware.ts:36-43 | The grouped record is determined by the issue list |
| Validation.FieldNames | src/middlewares/validate.middleware.ts:38 | The field of an issue is its path with dots between the parts, and root when that is empty |
| Routing.RoutesAreGuarded | src/modules/users/user.routes.ts:12-329 | A handler runs if and only if the token verifies and, at its later lookup, is not blacklisted, the role suffices and all declared inputs parse; then it is the one of the reference table, its service gets the parsed body, id and query where a schema is declared and the raw ones elsewhere, and its answer is the one reply; otherwise the one reply is the first refusal, none exactly when the issues cannot be grouped |
| Routing.HeaderDecides | src/middlewares/auth.middleware.ts:20-47 | A header passes if and only if it is Bearer, a space, and the text of an unexpired access token of this service that is not blacklisted at the lookup; its claims become the user, and everything else is a 401 |
| Routing.OneReplyPerRequest | src/modules/users/user.schema.ts:3-29 | With schemas whose issues lie on declared keys or the root, every request gets exactly one reply |
| Routing.HandleUserRequest | src/modules/users/user.routes.ts:9-329 | The router as registered, run on a request, produces the guarded outcome: the handler that runs, its parsed inputs and the exact replies |
| Routing.AuthenticatedIsTheMachine | src/middlewares/auth.middleware.ts:22-47 | The middleware, verifying at one instant and looking up at a later one, accepts or refuses with the very answer of the interleaved machine's two-phase authentication |
| Routing.AuthenticatedIsAtomic | src/middlewares/auth.middleware.ts:22-47 | With no wait between the two it accepts exactly the headers whose token the atomic specification accepts, with the same claims |
| Routing.NoHandlerAfterLogout | src/middlewares/auth.middleware.ts:33-40 | After a finished logout, in any continuation, a request with the token is accepted if and only if it verifies and its lookup comes after the entry has gone; with a lookup before the signature ends, or at the instant of verification, no handler runs and the answer is one 401 |
| Routing.AdminRoutesNeedRecentAdmin | src/modules/users/user.routes.ts:100-329 | If requests sign within d ms of reading, an issued token reaches an administrator's handler only if its user was an active administrator less than 900 s + d before the signature check |
| Routing.AuditLogsIsNotAnId | src/modules/users/user.routes.ts:153-198 | GET on /audit-logs always belongs to the audit handler, never to /:id |
| Routing.LayersImplementTable | src/modules/users/user.routes.ts:100-329 | First-match order of the layers implements the reference table of verbs and paths |
| Routing.Router.Handle | src/modules/users/user.routes.ts:9-12 | The loop over layers and chains computes first-match dispatch, ending in the application's 404 |
| Routing.UserRouter | src/modules/users/user.routes.ts:100-329 | Registering the middleware and routes one by one yields the stack the guards are proved for |
| Routing.Exchange.Authenticate | src/middlewares/auth.middleware.ts:14-53 | The request proceeds if and only if its header is Bearer, a space and a token that passes, and then the user is the token's claims; otherwise one 401 |
| Routing.Exchange.Authorize | src/middlewares/rbac.middleware.ts:16-30 | The request proceeds if and only if there is a user with a listed role; otherwise 401 without a user, 403 with one |
| Routing.Exchange.Validate | src/middlewares/validate.middleware.ts:21-53 | The request proceeds if and only if body, params and query each fit their schema, and then each is replaced by its parsed form; the first failure in this order is answered |
| Routing.Exchange.HandleError | src/middlewares/errorHandler.middleware.ts:14-69 | One reply: an operational error keeps its status, P2002 is 409, P2025 is 404, anything else 500 |

## Left out

- Token claims issuer and audience, `expiresIn` in answers, `ipAddress`, `userAgent`, `createdAt` and `updatedAt`: constants or data no rule depends on.
- Message texts: errors carry a reason in place of the text, and linearizability is stated up to it.
- Password and username syntax, the rule that a new password differs from the current one, and coercion and defaults of the list query: arbitrary predicates or already parsed values.
- Cryptography, bcrypt cost, JWT encoding and uuid generation: arbitrary functions and fresh values.
- Isolation anomalies inside one transaction: each commit is one instant, each page is read from one snapshot.
- The sort of the user list: the table is given in the order asked for; equal keys are in one fixed order.
- Wildcard characters in a search term: `contains` is plain case-insensitive containment of ASCII text.
- Lower-case usernames as an invariant: the update schema does not lower-case them, so only e-mails are claimed.
- Rate limiting, audit logs, OPTIONS requests, percent-decoding of paths, logging and the body text of replies.
