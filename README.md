# Refresh-session engine of a NestJS admin backend, in Dafny

This project models the authentication core of a NestJS admin backend: the
refresh-session engine and the helpers it relies on. It proves properties of that model.

The engine is the auth service together with the JWT guard, working over a Redis
key/value store whose keys may expire:

- `login` checks the captcha (when enabled) and the credentials. It then stores a session
  entry under a fresh JWT id and issues an access token plus a refresh-token cookie.
- `refreshToken` checks that the refresh token's session is still live. It then rotates the
  session in one Lua script: blacklist the old id, delete the old entry, create the new one.
- `logout` blacklists the id for whatever time its session has left, and clears the cookie.
- A captcha is a one-time store entry.
- The guard lets a request through only if its access token validates, its id is not
  blacklisted, and its session entry names the token's user.

Supporting pieces:

- the user service: enabled-only lookups, the MD5 password check, `validateUser`;
- `generateRedisKey` and `getErrorMessage`;
- the `"code:message"` parsing of `BusinessException`;
- the `LoginDto` field rules;
- status, message and code selection in the global exception filter.

Layout, one module per file:

| file | module | models |
|---|---|---|
| `common.dfy` | `Common` | `Option` and `Result` |
| `js.dfy` | `Js` | the JavaScript behaviour the code relies on: `String(n)`, `String(null)`, `${undefined}`, `split`, ASCII `toLowerCase` |
| `utils.dfy` | `Utils` | `src/utils/utils.ts` |
| `settings.dfy` | `Settings` | configuration entries and the key/claim constants |
| `errors.dfy` | `Errors` | the error kinds the core throws |
| `redis.dfy` | `Redis` | the store (a map from key to value and expiry), the `GET`/`EXISTS`/`TTL`/`SET EX`/`DEL`/`EVAL` commands and the passing of time; `RedisClient` is a class whose `data` field the commands update |
| `tokens.dfy` | `Tokens` | token generation and validation |
| `users.dfy` | `Users` | `src/modules/user/user.service.ts` |
| `business_exception.dfy` | `BusinessErrors` | `src/exceptions/business.exception.ts` |
| `exception_filter.dfy` | `ExceptionFilter` | `src/filters/all.exception.filter.ts` |
| `login_dto.dfy` | `LoginDto` | `src/modules/auth/dto/login.dto.ts` |
| `auth.dfy` | `Auth` | `src/modules/auth/auth.service.ts` |
| `guard.dfy` | `Guard` | `src/modules/auth/guard/jwt-auth.guard.ts` |
| `sessions.dfy` | `Sessions` | properties that span several operations |

Each stateful auth operation appears twice:

- a function that states the whole outcome: the store afterwards, and the result or error;
- a method of the class `Auth.AuthService` that does the same thing through
  `Redis.RedisClient`, one command at a time, as the service does. Its postcondition ties
  the new store and its result to that function.

The guard only reads the store. It is therefore a function of a store snapshot: it has no
way to change the store.

Two discrepancies in the code are modelled both ways, selected by `Settings.Wiring`:

- `AsWritten` is the code as it stands.
- `Corrected` is the evidently intended wiring.

They are listed under Findings.

JWT signing and verification are abstract. A token records its claims, the secret it was
signed with, its lifetime and whether it has expired. Verification succeeds exactly when
the secret matches and the token has not expired.

Several things are not computed by the model but come in from outside:

- MD5 and class-validator's `isEmail` are function-valued fields of `Users.UserService`.
- The session ids that `nanoid` would generate for login and refresh are parameters. They
  must be fresh (`Auth.FreshId`): no session, login-session or blacklist key built from them
  may already be in use. The captcha id is a parameter with no such requirement: `SET`
  simply overwrites an entry already under its key.
- The configured lifetimes are whole seconds.
- The text of each error code comes in as a function `ErrorCode -> string`, because the
  members the code uses are not defined in `src/enum/error_code.enum.ts`.
- The response success code and message are parameters; their constants file is not part
  of this model.
- The enabled user status is 1, taken from the status column's comment in
  `src/modules/user/entities/user.entity.ts:49`; the status enum file is not part of this
  model.

## Model

| member | source | states |
|---|---|---|
| Js.IntToStringInjective | src/modules/auth/auth.service.ts:68 | comparing `String(a)` with `String(b)` for integers is comparing `a` with `b`, in both directions |
| Js.IntToStringIsNoKeyword | src/modules/auth/guard/jwt-auth.guard.ts:49 | the decimal text of a user id is never "null" or "undefined", so an absent session entry never matches |
| Js.JoinSplit | src/utils/utils.ts:6 | splitting on ':' loses nothing: joining the pieces with ':' gives the input back |
| Utils.GenerateRedisKey | src/utils/utils.ts:1-3 | the key is the prefix, then one ':', then the id, and nothing else |
| Utils.GenerateRedisKeyInjective | src/utils/utils.ts:2 | for a fixed prefix, two ids give the same key exactly when they are equal |
| Utils.GenerateRedisKeyDoublesColon | src/utils/utils.ts:2 | a prefix that already ends in ':' yields `p::k`, which is never `p:k` |
| Utils.GetErrorMessage | src/utils/utils.ts:5-7 | the result is undefined exactly when the input has no ':'; otherwise it is a segment with no ':' in it |
| Utils.GetErrorMessageOfPair | src/utils/utils.ts:5-7 | for `c:m` with no colon in `c` or `m`, the result is `m` |
| Tokens.GenerateAccessToken | src/modules/auth/auth.service.ts:103-119 | a fresh token signed with `jwt.secret`, lifetime `jwt.expiresIn`, subject = user id, username and type `access_token`, plus the id claim |
| Tokens.GenerateRefreshToken | src/modules/auth/auth.service.ts:120-136 | the same, with `jwt.refreshTokenSecret`, `jwt.refreshTokenExpiresIn` and type `refresh_token` |
| Tokens.ValidateAccessToken | src/modules/auth/auth.service.ts:173-185 | accepts exactly a well-formed, unexpired token signed with `jwt.secret` whose type is `access_token`, and returns its claims; every failure is `INVALID_TOKEN` |
| Tokens.ValidateRefreshToken | src/modules/auth/auth.service.ts:186-198 | the same against the refresh secret and type; every failure is `INVALID_REFRESH_TOKEN` |
| Tokens.AccessTokenRoundTrip | src/modules/auth/auth.service.ts:103-185 | an access token just generated validates, giving back exactly the claims it was signed with |
| Tokens.RefreshTokenRoundTrip | src/modules/auth/auth.service.ts:120-198 | a refresh token just generated validates, giving back exactly the claims it was signed with |
| Tokens.TokenKindsDoNotMix | src/modules/auth/auth.service.ts:173-198 | an access token is refused as a refresh token and the other way round, even with equal secrets |
| Tokens.AsWrittenIssuedTokensHaveNoJti | src/modules/auth/auth.service.ts:103-136 | as written, every issued token interpolates its `jti` as "undefined" |
| Tokens.CorrectedIssuedTokensCarryJti | src/modules/auth/auth.service.ts:103-136 | with the claim named `jti`, readers recover the id that was signed |
| Users.WithoutPassword | src/modules/user/user.service.ts:37-38 | every field except the password is carried over unchanged |
| Users.FindFirst | src/modules/user/user.service.ts:105-113 | `findOne`: a row of the table that satisfies the condition, or none exactly when no row does |
| Users.UserService.FindUserByUsername | src/modules/user/user.service.ts:105-107 | finds an enabled user with that username, or none exactly when there is no such user |
| Users.UserService.FindUserByEmail | src/modules/user/user.service.ts:108-110 | the same by e-mail |
| Users.UserService.FindUserById | src/modules/user/user.service.ts:111-113 | the same by id |
| Users.UserService.ValidateUserExistByUsername | src/modules/user/user.service.ts:43-49 | succeeds exactly when the lookup finds a user, and returns that enabled user; otherwise `USER_NOT_FOUND` |
| Users.UserService.ValidateUserExistByEmail | src/modules/user/user.service.ts:51-57 | the same by e-mail |
| Users.UserService.ValidatePassword | src/modules/user/user.service.ts:59-65 | true exactly when md5 of the input equals the stored hash; otherwise `INVALID_USERNAME_PASSWORD` |
| Users.UserService.ValidateUser | src/modules/user/user.service.ts:28-41 | looks the account up by e-mail when `isEmail` holds and by username otherwise; `USER_NOT_FOUND` if there is no enabled user, `INVALID_USERNAME_PASSWORD` if the hash differs; on success, the record without its password |
| Users.FindFirstIgnoresDisabled | src/modules/user/user.service.ts:105-113 | rows the condition rejects can be dropped without changing the answer |
| Users.DisabledUsersAreInvisible | src/modules/user/user.service.ts:105-113 | all three lookups give the same answer on the table with its disabled users removed |
| Users.ValidatedUserStaysFindable | src/modules/user/user.service.ts:28-49 | a user who can log in is found by the username lookup that refresh performs |
| BusinessErrors.NewBusinessException | src/exceptions/business.exception.ts:9-33 | the status is always 200. Without ':', the code is the success code and the message is the input or, if the input is empty, the success message, with no error message. With ':', the code is the text before the first ':' and the message is the text up to the next ':' or the end |
| BusinessErrors.BusinessExceptionOfPair | src/exceptions/business.exception.ts:23-32 | `c:m` with colon-free parts gives code `c`, message `m` and error message `m` |
| BusinessErrors.MessageAgreesWithHelper | src/exceptions/business.exception.ts:23-31 | with a ':', the exception's message and error message equal `getErrorMessage` of the same input |
| BusinessErrors.ErrorGetters | src/exceptions/business.exception.ts:35-40 | `getErrorMessage` is always `getErrorMessage` of the helper on the same input (undefined without a colon); `getErrorCode` is the success code without a colon and the colon-free text before the first colon otherwise |
| ExceptionFilter.GetStatus | src/filters/all.exception.filter.ts:52-64 | an HTTP exception's own status; 500 for a query failure; otherwise `status`, then `statusCode`, then 500, in that order |
| ExceptionFilter.GetErrorMessage | src/filters/all.exception.filter.ts:66-78 | `.message` for HTTP exceptions and query failures; otherwise `response.message`, then `message`, then the exception's string form |
| ExceptionFilter.ErrorCodeOf | src/filters/all.exception.filter.ts:46-47 | a business exception's own code; otherwise the decimal text of the status |
| ExceptionFilter.Catch | src/filters/all.exception.filter.ts:30-50 | the response has that status and an error body with null data, that code and that message |
| ExceptionFilter.BusinessExceptionAnsweredWithOk | src/filters/all.exception.filter.ts:52-54 | any business exception is answered with HTTP 200 and its own code |
| ExceptionFilter.StatusCodesAreNumeric | src/filters/all.exception.filter.ts:46-47 | a code taken from the status is an optional '-' followed by digits |
| ExceptionFilter.FailureResponses | src/filters/all.exception.filter.ts:30-50 | core failures reach the client as follows: business errors as 200 with their own code; guard and refresh rejections as 401 with code "401"; a missing captcha answer's `TypeError` as 500 with code "500"; data is null in all three |
| ExceptionFilter.ThrownOf | src/modules/auth/auth.service.ts:63-72 | covers the failures of refresh, of the guard (src/modules/auth/guard/jwt-auth.guard.ts:26-67), of the user service (src/modules/user/user.service.ts:43-65) and the captcha `TypeError` (src/modules/auth/auth.service.ts:166-170): a business failure throws the `BusinessException` of its code's text; an Unauthorized failure throws a 401 `UnauthorizedException` whose message is the text's second segment, or "Unauthorized" when that is undefined or empty; the captcha `TypeError` is a plain error with a message and no status |
| LoginDto.EmailFormMatchesPattern | src/modules/auth/dto/login.dto.ts:6 | the executable e-mail check accepts exactly the strings that the e-mail alternative of the account regex matches |
| LoginDto.UsernameShape | src/modules/auth/dto/login.dto.ts:6 | a username is 4 to 32 characters, starts with an ASCII letter and has no '@' |
| LoginDto.AccountFormsAreDisjoint | src/modules/auth/dto/login.dto.ts:6 | no account matches both the username form and the e-mail form |
| LoginDto.PasswordPatternImpliesLengths | src/modules/auth/dto/login.dto.ts:11-17 | a password the pattern accepts also passes `MinLength(6)` and `MaxLength(32)` |
| LoginDto.ValidLoginDto | src/modules/auth/dto/login.dto.ts:5-26 | the request passes all its decorators exactly when the account is a username or matches the e-mail regex and the password matches its pattern; an accepted account contains '@' exactly when it is accepted as an e-mail |
| Auth.LoginKeyIsNotReadKey | src/modules/auth/auth.service.ts:45-46 | as written, login's session key is `"jti::" + jti`, which differs from the `"jti:" + jti` every reader uses |
| Auth.KeyFamiliesAreDisjoint | src/modules/auth/constants/auth.constants.ts:11-14 | captcha, session and blacklist keys never collide |
| Auth.SessionKeyIsNotBlacklistKey | src/modules/auth/constants/auth.constants.ts:12-14 | the session key of any id differs from the blacklist key of any id, whatever the login wiring |
| Auth.KeysAreInjective | src/modules/auth/auth.service.ts:79-86 | different ids give different session and blacklist keys |
| Auth.SessionMatchesMeans | src/modules/auth/auth.service.ts:64-70 | `String(get(key)) === String(userId)` holds exactly when the key is present and holds the user's id |
| Auth.IssueCaptcha | src/modules/auth/auth.service.ts:151-157 | adds the answer under the captcha key with TTL `captcha.ttl`; every other key is unchanged |
| Auth.CheckCaptcha | src/modules/auth/auth.service.ts:160-171 | `EXPIRED_CAPTCHA` exactly when the entry is absent or empty; a `TypeError` when the answer is missing; `INVALID_CAPTCHA` exactly on a case-insensitive mismatch; the store is unchanged on every failure; on a match the entry is deleted and the result is false |
| Auth.LoginOutcome | src/modules/auth/auth.service.ts:35-59 | a captcha failure (checked only when enabled) comes first and changes nothing. A credentials failure after it returns `validateUser`'s error, with the store as the captcha step left it (its entry consumed). Login succeeds exactly when the captcha (if checked) and the credentials pass. No session is written on failure. On success exactly one entry is added, holding the user's id for the refresh lifetime; the httpOnly `refresh_token` cookie lives the same time in ms; both tokens validate to the user's claims |
| Auth.RefreshOutcome | src/modules/auth/auth.service.ts:61-94 | `INVALID_REFRESH_TOKEN` for a bad token; `EXPIRED_REFRESH_TOKEN` unless the session holds the token's user id; `USER_NOT_FOUND` if the username no longer resolves. The store is unchanged on every failure. On success the old id is blacklisted for the full lifetime, the old session is gone, the new session holds the same user id for the full lifetime, and no other key changes; the cookie and tokens carry the new id |
| Auth.LogoutStore | src/modules/auth/auth.service.ts:95-102 | with a positive TTL left, the id is blacklisted for exactly that TTL, the session is deleted and nothing else changes; with TTL -2, -1 or 0 the store is unchanged |
| Auth.AuthService.GenerateSvgCaptcha | src/modules/auth/auth.service.ts:137-159 | the store becomes `IssueCaptcha` of the old store; the result is the data URL and the id |
| Auth.AuthService.ValidateCaptcha | src/modules/auth/auth.service.ts:160-171 | the `GET`/`DEL` steps end in the store and result `CheckCaptcha` states |
| Auth.AuthService.Login | src/modules/auth/auth.service.ts:35-59 | the captcha, user and `SET` steps end in the store and result `LoginOutcome` states |
| Auth.AuthService.RefreshToken | src/modules/auth/auth.service.ts:61-94 | the two reads, then a single `EVAL` of the three writes, end in the store and result `RefreshOutcome` states |
| Auth.AuthService.Logout | src/modules/auth/auth.service.ts:95-102 | the `TTL`/`SET`/`DEL` steps end in `LogoutStore` of the old store; the cookie is cleared in every case |
| Guard.HandleRequest | src/modules/auth/guard/jwt-auth.guard.ts:61-67 | passes exactly when there is no error and there is a user, and then returns the user unchanged; otherwise rethrows the error, or throws Unauthorized `INVALID_TOKEN` |
| Guard.StrategyCheck | src/modules/auth/strategies/jwt.strategy.ts:10-20 | succeeds exactly when the token verifies against `jwt.secret` (expiry enforced), with the token's claims as the user |
| Guard.CanActivate | src/modules/auth/guard/jwt-auth.guard.ts:26-59 | a public route passes with no user; no token gives Unauthorized `INVALID_TOKEN`; a token that fails validation gives `INVALID_TOKEN` as a business error. A valid token passes exactly when its id is not blacklisted and its session holds its user id, and then its claims become the user; every other rejection is Unauthorized `INVALID_TOKEN` |
| Guard.DecidedWithoutStore | src/modules/auth/guard/jwt-auth.guard.ts:28-42 | public routes, missing tokens and tokens that fail validation get the same answer whatever the store holds |
| Guard.BlacklistOverridesSession | src/modules/auth/guard/jwt-auth.guard.ts:44-51 | a blacklisted id is refused even when its session entry still names the user |
| Guard.StrategyAgreesWithValidation | src/modules/auth/guard/jwt-auth.guard.ts:52-58 | once validation has accepted a token, the strategy accepts it with the same claims |
| Sessions.LoginKeyIsNotUndefinedKey | src/modules/auth/auth.service.ts:45-66 | the key login writes is never the `"jti:undefined"` key that refresh reads for a token without `jti` |
| Sessions.AsWrittenLoginIsUnusable | src/modules/auth/auth.service.ts:35-70 | as written, in every store without a `"jti:undefined"` session (every store the source can reach, since it never writes that key), the refresh token from a successful login is always refused with `EXPIRED_REFRESH_TOKEN`, and the guard refuses its access token |
| Sessions.CorrectedLoginStartsSession | src/modules/auth/auth.service.ts:35-94 | with the wiring corrected, the guard accepts the login's access token with its claims, and its refresh token rotates successfully |
| Sessions.RefreshIsOneTime | src/modules/auth/auth.service.ts:61-94 | after a successful rotation, the same refresh token is refused with `EXPIRED_REFRESH_TOKEN`, and the guard refuses every access token of the old id |
| Sessions.LogoutEndsSession | src/modules/auth/auth.service.ts:95-102 | after logout, the session's refresh token is refused and the guard refuses its access tokens, provided sessions carry an expiry |
| Sessions.LogoutBlacklistMatchesSession | src/modules/auth/auth.service.ts:95-99 | after logout, the blacklist entry exists at each later moment exactly when the session would have |
| Sessions.RefreshBlacklistLastsFullLifetime | src/modules/auth/auth.service.ts:76-86 | the blacklist entry written on refresh lasts exactly the full refresh lifetime, however little time the old session had left |
| Sessions.CaptchaIsOneTime | src/modules/auth/auth.service.ts:152-170 | after an issue, an answer in any letter case passes and removes only its own entry; a second attempt fails with `EXPIRED_CAPTCHA` |
| Sessions.CaptchaAcceptsLowerCaseAnswer | src/modules/auth/auth.service.ts:166-170 | the answer typed in lower case passes |
| Sessions.CaptchaExpires | src/modules/auth/auth.service.ts:152-166 | a captcha not answered within `captcha.ttl` seconds fails with `EXPIRED_CAPTCHA` |
| Sessions.RevokedRefreshRefused | src/modules/auth/auth.service.ts:63-70 | while no id is both blacklisted and live, a refresh token whose id is blacklisted is refused with `EXPIRED_REFRESH_TOKEN` |
| Sessions.IssueCaptchaKeepsNoRevokedLive | src/modules/auth/auth.service.ts:152-157 | issuing a captcha keeps "no id both blacklisted and live" |
| Sessions.CheckCaptchaKeepsNoRevokedLive | src/modules/auth/auth.service.ts:160-171 | checking a captcha keeps the invariant |
| Sessions.LoginKeepsNoRevokedLive | src/modules/auth/auth.service.ts:45-50 | login keeps the invariant when the id whose session it writes is not blacklisted (as written, that id is `":" + jti`) |
| Sessions.RefreshKeepsNoRevokedLive | src/modules/auth/auth.service.ts:79-86 | refresh keeps the invariant, on success and on failure |
| Sessions.LogoutKeepsNoRevokedLive | src/modules/auth/auth.service.ts:95-100 | logout keeps the invariant |
| Sessions.ElapseKeepsNoRevokedLive | src/modules/auth/auth.service.ts:80-82 | expiry of keys over time keeps the invariant |

## Left out

- Concurrency is not modelled. Each request is one sequential call.
  - The two `Promise.all` reads are reads of one store snapshot.
  - The race between refresh's liveness check and its Lua script, where two refreshes with the same token could both pass the check, is outside the model. The script itself is one indivisible step.
- The Lua script is modelled as the three writes it is meant to perform. An id or stored value containing a quote would change the script text; that is not modelled.
- JWT cryptography and clocks are abstract.
  - A token carries an `expired` flag instead of a timestamp.
  - The access-token lifetime is recorded but does not count down.
- MD5, `isEmail`, `nanoid`, svg-captcha rendering and base64 encoding are parameters, not computed.
- `ms()` parsing is not modelled. Lifetimes are whole seconds, so a configured duration that is not a whole number of seconds is not modelled.
- `Settings.Config.Valid`: the service methods require positive refresh and captcha lifetimes. Redis refuses `SET ... EX 0`, and the error the client would then raise is not modelled.
- `Js.ToLowerAscii`: only ASCII letters are case-folded. JavaScript's full Unicode `toLowerCase` is not modelled.
- lodash `isEmpty` is modelled only on what `GET` returns: `null` or a string.
- The error-code enum's strings are not modelled. Error kinds are the datatype `Errors.ErrorCode`. Their texts come in as a parameter where the exception filter needs them.
- `Users.UserService.ValidateUser`: the final `return null` is unreachable, because a failed lookup has already thrown. It is not modelled.
- The `LoginDto` rules are predicates. Enforcing them is the job of the global validation pipe, which is not part of this model, so `Auth.LoginOutcome` accepts any DTO. The DTO's `remember` flag is not read by login.
- Guard.StrategyCheck: the strategy's `validate(req, payload)` is taken to return the verified claims. If the library calls it as `validate(payload, done)`, `req.user` would be the callback, `req.user['jti']` in the logout route would be undefined even with both findings corrected, and logout would look up `"jti:undefined"`. How the passport library invokes `validate` is not part of this model.
- Auth.RotationScript: the Redis client is taken to have no key prefix. The client is built with `keyPrefix` from the `redis.keyPrefix` setting (src/shared/redis/redis.module.ts:18), which the `RedisConfig` type does not declare. ioredis adds the prefix to the keys of `GET`, `EXISTS`, `SET`, `DEL` and `TTL`, but not to keys written inside the text of an `EVAL` script. With a prefix set, the rotation would blacklist and delete unprefixed keys and write a session nobody reads, so the old session would stay live. `Sessions.RefreshIsOneTime` and `Sessions.RefreshKeepsNoRevokedLive` hold only without a prefix.
- Users.UserService.FindUserByUsername: usernames are compared by exact string equality. The MySQL connection sets no collation, and a case-insensitive default collation would also match a username differing only in letter case; that is not modelled.
- Users.UserService.FindUserByEmail: e-mail addresses are compared by exact string equality, for the same reason as the username lookup.
- The exception filter's logging, response sending and process hooks are not modelled. The controller, the local strategy, the interceptors, module wiring and configuration loading are not modelled either.
- `initData` and the placeholder CRUD methods of the user service are not modelled. Nor is the empty `loginByQrCode`.
- User timestamps are not modelled, and the token's signing time is not modelled.

## Findings

| source | as written | input that shows it | evidently intended | confidence | as-written member | corrected member |
|---|---|---|---|---|---|---|
| src/modules/auth/auth.service.ts:46 | login stores the session under `generateRedisKey('jti:', jti)`, i.e. `"jti::" + jti`; refresh, logout and the guard read `"jti:" + jti` | any id, e.g. `abc`: written `jti::abc`, read `jti:abc` | login writes `"jti:" + jti` | high; not executed | Auth.LoginKeyIsNotReadKey | Sessions.CorrectedLoginStartsSession |
| src/modules/auth/auth.service.ts:111 | tokens carry the id in a claim named `jid` (also line 128); every reader interpolates `payload.jti`, which is undefined, so it looks up `"jti:undefined"` and `"token_blacklist:undefined"` | any issued token | tokens carry the claim `jti` | high; not executed | Tokens.AsWrittenIssuedTokensHaveNoJti | Tokens.CorrectedIssuedTokensCarryJti |

Together, the two mean that no login can ever be refreshed and no access token ever passes
the guard (`Sessions.AsWrittenLoginIsUnusable`). With both corrected, the model's session
lifecycle works as designed (`Sessions.CorrectedLoginStartsSession`,
`Sessions.RefreshIsOneTime`, `Sessions.LogoutEndsSession`).
