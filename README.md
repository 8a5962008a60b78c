# smart-cart-app: credential and session lifecycle, in Dafny

This project models the account and session core of smart-cart-app, a shopping assistant for
Chilean supermarkets. The app has a Next.js API backed by a Supabase store, a React Native mobile
client and a web client. The model covers five parts:

- **Server side** (`lib/`, `app/api/auth/`). The nine `/api/auth/*` route handlers are login,
  register, refresh, logout, forgot-password, reset-password, account deletion, me and profile.
  They are modelled with:
  - the middleware that wraps them: a per-client fixed-window rate limiter, bearer-token
    authentication and CORS headers;
  - the JWT issue/verify helpers and the user-table helpers of `lib/auth.ts`;
  - the zod request schemas of `lib/validation.ts`.

  The store is a class `Store.Db` that holds four tables: users, refresh tokens, password-reset
  tokens and device sessions. Each table is a sequence of rows in insertion order. The two rate
  limiters and the JWT secret live in `Server.Server`.
- **Client side**:
  - the credential checks and request builders of the mobile `AuthService` and of the web
    `auth-client`: e-mail, password and phone validation, e-mail normalisation, error-message
    extraction, bearer headers, and the logout and refresh requests;
  - the two `AuthContext` reducers and providers, with device storage as a field of the
    provider.
- **Shopping-list and budget contexts** of the mobile app: their reducers and their selection and
  item helpers.
- **The in-memory data store** `lib/data-store.ts`:
  - the product, budget and list services;
  - product search, the active budget and per-category expense totals;
  - the top-products ranking and the budget analysis.

Time is a parameter `now` in milliseconds, as given by `Date.now()`. Random bytes, the mail
outcome, store-side failures that the code branches on, and the results of network calls are
parameters too. The cryptographic primitives are fields of `Tokens.Crypto`:
`jsonwebtoken.sign/verify`, `bcrypt.hash/compare` and `crypto.randomBytes`. Their required
behaviour is the ghost predicate `Tokens.Sound`: verification inverts signing, signing is
injective, and a password compares equal to its own hash. Lemmas that depend on this behaviour
require `Sound`.

The route handlers are plain methods on a `Db`. Each `Post`/`Get`/`Put`/`Delete` wrapper composes
a handler with the middleware exactly as the route file does. The public routes (login, register,
forgot-password and reset-password) use the strict limiter, and refresh uses the general one.
The protected routes (logout, account, me and profile) are wrapped only by `withCors(withAuth(…))`
and are not rate limited.

Each route module states what its handler does as a predicate `Outcome(before, after, …, resp)`
over two `Store.Tables` snapshots of the store, taken before and after the call. The handler
ensures its `Outcome`. The wrapper ensures that, whenever the limiter or the auth gate lets the
call through, its answer is the CORS-wrapped answer of such an outcome and the store is the one
that outcome leaves.

## Model

| member | source | states |
|---|---|---|
| Users.ToUser | lib/auth.ts:111-121 | the public user carries every column of its row except the password hash, unchanged |
| Users.ToUserForgetsOnlyHash | lib/auth.ts:111-121 | two rows give the same public user exactly when they differ at most in the password hash |
| Users.Merge | src/context/AuthContext.tsx:118-122 | for each of the nine fields: the patch's value when the patch carries the key, the user's own value when it does not |
| Users.MergeEmpty | context/AuthContext.tsx:102-106 | an empty patch leaves the user unchanged |
| Users.MergeIdempotent | src/context/AuthContext.tsx:118-122 | applying the same patch twice is the same as applying it once |
| Tokens.GenerateTokens | lib/auth.ts:45-52 | the access token signs `{userId}` with a 7-day expiry; the refresh token signs `{userId, type: "refresh"}` with a 30-day expiry; both carry `iat` in whole seconds |
| Tokens.VerifyToken | lib/auth.ts:54-61 | succeeds exactly when the token decodes under the secret and its expiry second is still in the future, and then yields the signed user id; every failure is the same "invalid token" error |
| Tokens.AccessTokenLifetime | lib/auth.ts:44-61 | an issued access token verifies, to its own user, exactly while fewer than seven days (in whole seconds) have passed since issue |
| Tokens.AccessTokenWindow | lib/auth.ts:44-61 | an access token used less than 7 days minus one second after issue authenticates its user; from 7 days after issue it is refused |
| Tokens.RefreshTokenAcceptedAsAccess | lib/auth.ts:54-58 | `verifyToken` does not check the `type` claim, so a refresh token is accepted as an access token for 30 days |
| Tokens.ForeignTokenRefused | lib/auth.ts:55-60 | a string that does not decode under the secret is refused with "invalid token" |
| Tokens.RefreshTokenSameSecond | lib/auth.ts:45-52 | two refresh tokens for one user are equal if and only if they were issued in the same second |
| Tokens.AccessDiffersFromRefresh | lib/auth.ts:45-52 | no access token ever equals a refresh token, for any users and issue times |
| Tokens.Hex | app/api/auth/forgot-password/route.ts:24 | hex encoding yields two hexadecimal digits per byte |
| Tokens.UnhexHex | app/api/auth/forgot-password/route.ts:24 | hex decoding inverts hex encoding |
| Tokens.ResetTokenShape | app/api/auth/forgot-password/route.ts:24 | a reset token made from 32 random bytes has 64 characters, and two such tokens are equal only when their bytes are |
| Text.ToLower | src/services/AuthService.ts:72 | lower-casing keeps the length and maps each character independently, leaving no upper-case letter |
| Text.ToLowerIdempotent | src/services/AuthService.ts:72 | lower-casing twice is lower-casing once |
| Text.Trim | src/services/AuthService.ts:72 | the result is the input with leading and trailing white space removed, and it neither starts nor ends with white space |
| Text.TrimIdempotent | src/services/AuthService.ts:72 | trimming twice is trimming once |
| Text.RemoveSpaces | src/services/AuthService.ts:355 | the result holds no white space and is never longer than the input |
| Text.RemoveSpacesIsFilter | src/services/AuthService.ts:355 | the result is exactly the input's non-white-space characters, in their order: the order-preserving filter on non-white-space |
| Text.RemoveSpacesCounts | src/services/AuthService.ts:355 | each non-white-space character occurs in the result as often as in the input, white space not at all |
| Text.RemoveSpacesConcat | src/services/AuthService.ts:355 | removing white space distributes over concatenation |
| Text.NatToString | lib/auth-client.ts:34 | the rendering of a status is one or more decimal digits, starting with `0` only for zero itself, and is one digit long exactly below 10 |
| Text.NatToStringRoundTrip | lib/auth-client.ts:34 | reading the digits back gives the number |
| Text.NatToStringInjective | lib/auth-client.ts:34 | different numbers render differently |
| Validation.ValidEmail | lib/validation.ts:4 | an accepted e-mail has exactly one `@`, not in first place, and no white space |
| Validation.ValidEmailIsShape | lib/validation.ts:4 | the executable e-mail check accepts exactly the strings of the form local@domain.tld, where each part is non-empty and free of white space and `@` |
| Validation.ChileanPhone | lib/validation.ts:29-32 | a phone is accepted exactly when its last nine characters are a digit 2-9 followed by eight digits and what comes before them is empty, `56` or `+56` |
| Validation.ChileanPhoneShape | lib/validation.ts:29-32 | an accepted phone has 9, 11 or 12 characters and no white space |
| Validation.StrongPassword | lib/validation.ts:20-26 | an accepted password has at least 8 characters; one lacking a lower-case letter, an upper-case letter, a digit or one of `@$!%*?&` is refused, and so is one made only of lower-case letters and digits |
| Validation.LoginSchema | lib/validation.ts:3-16 | an accepted login body has an e-mail with one `@` and a password of at least 6 characters; a body missing either is refused, and so is one whose optional `platform` or `deviceInfo` is `null` or of the wrong type, or whose `deviceInfo` lacks `deviceId` |
| Validation.RegisterSchema | lib/validation.ts:18-45 | an accepted register body has the e-mail, a password of at least 8 characters, both names and, when given, a phone of at least 9 characters; a body missing any of these or without `acceptTerms` exactly `true` is refused, and so is one whose optional `phone`, `acceptMarketing`, `platform` or `deviceInfo` is `null` or of the wrong type |
| Validation.ForgotPasswordSchema | lib/validation.ts:47-49 | an accepted body has an e-mail with one `@` and no white space; a body without one is refused |
| Validation.ResetPasswordSchema | lib/validation.ts:51-60 | an accepted body has a non-empty token and a password of at least 8 characters; an absent or empty token, or an absent password, is refused |
| Validation.UpdateProfileSchema | lib/validation.ts:62-87 | an accepted update has, when given, a phone of at least 9 characters and a theme among light, dark and system; a one-character first name is refused, and so is any optional field that is `null` or of the wrong type |
| Validation.StrongPasswordPassesLogin | lib/validation.ts:5-26 | every password the register schema accepts is long enough for the login schema |
| Validation.RegisterBodyPassesLogin | lib/validation.ts:3-45 | the e-mail, password, platform and device of an accepted register body form an accepted login body |
| Validation.EmptyProfileUpdateAccepted | lib/validation.ts:62-87 | every field of the profile-update schema is optional, so the empty update is accepted |
| Middleware.ClientKey | lib/middleware.ts:6-22 | the limiter key is the client IP, or "anonymous" when the IP is missing or empty |
| Middleware.Step | lib/middleware.ts:6-16 | one hit on a key leaves every other key's window alone; it counts one more point in an open window, or opens a fresh window of one point that lasts the configured duration |
| Middleware.RateLimiter.Consume | lib/middleware.ts:18-28 | the limiter's windows become one `Step`, and the hit is allowed exactly when the key's count is still within the points |
| Middleware.RateLimiter.constructor | lib/middleware.ts:6-16 | a limiter starts with no windows, the given points and the duration in milliseconds |
| Middleware.ReplayPerKey | lib/middleware.ts:6-16 | a key's window after any sequence of hits depends only on the hits on that key: clients do not affect each other |
| Middleware.BurstCountsFrom | lib/middleware.ts:6-16 | hits that all fall inside an open window add one point each to it |
| Middleware.ExhaustedWindowRejects | lib/middleware.ts:18-28 | after a hit opens a fresh window, a burst of further hits inside that window is allowed exactly while it has fewer hits than the limit |
| Middleware.Authenticate | lib/middleware.ts:30-49 | a missing header or one without the `Bearer ` prefix gives 401 "authorization required"; otherwise the token after the prefix must verify, else 401 "invalid token" |
| Middleware.BearerRoundTrip | lib/middleware.ts:38-39 | `"Bearer " + token` authenticates exactly as verifying `token` does |
| Middleware.IssuedTokenAuthenticates | lib/middleware.ts:30-49 | a freshly issued access token, used within its lifetime, authenticates its own user |
| Middleware.SetHeader | lib/middleware.ts:51-62 | setting a header keeps every header of another name and replaces that name's value |
| Middleware.RemoveHeader | lib/middleware.ts:51-62 | removing a header drops exactly the headers of that name |
| Middleware.WithCors | lib/middleware.ts:51-62 | the wrapped response keeps its status and body, carries all three CORS headers, and keeps every other header |
| Middleware.WithCorsIdempotent | lib/middleware.ts:51-62 | wrapping twice gives the same response as wrapping once |
| Server.JwtSecret | lib/auth.ts:5 | the secret is `JWT_SECRET` when set and non-empty, else the built-in fallback, never empty |
| Server.Server.constructor | lib/middleware.ts:6-16 | the server starts with an empty store, a general limiter of 10 points per 60 s and a strict limiter of 5 points per 300 s |
| Store.Single | lib/auth.ts:125-131 | `.single()` yields a row exactly when the query matched one row |
| Store.UpsertSessions | app/api/auth/login/route.ts:40-52 | after the upsert the user has a session for the device, the sessions of other users and devices are kept, and the table grows by one only when that device had none |
| Store.FindUserByEmail | lib/auth.ts:124-136 | a found user is in the table and has the lower-cased e-mail |
| Store.FindUserByEmailMisses | lib/auth.ts:124-136 | with e-mails unique, the lookup misses exactly when no user has that e-mail |
| Store.FindUserById | lib/auth.ts:138-159 | a found user is the public view of a row with that id |
| Store.FindUserByIdMisses | lib/auth.ts:138-159 | with ids unique, the lookup misses exactly when no row has that id |
| Store.FindRefreshToken | app/api/auth/refresh/route.ts:16-25 | finds the one unexpired row holding the token, and misses when there is none or more than one |
| Store.FindResetToken | app/api/auth/reset-password/route.ts:13-23 | finds the one unused, unexpired row holding the token, and misses when there is none or more than one |
| Store.ApplyProfile | lib/auth.ts:169-178 | a profile update never touches id, e-mail, password hash or timestamps; empty names are ignored; phone, avatar and preferences are replaced when given |
| Store.ApplyEmptyProfile | lib/auth.ts:169-178 | the empty profile update leaves the row unchanged |
| Store.ApplyProfileIdempotent | lib/auth.ts:169-178 | applying the same profile update twice is the same as once |
| Store.Db.constructor | lib/auth.ts:3 | the store starts with four empty tables |
| Store.Db.CreateUser | lib/auth.ts:63-122 | an e-mail already in use fails with "already registered" and changes nothing; a store error fails with its message and changes nothing; otherwise exactly one row is appended, with the hashed password and default preferences, and its public view is returned |
| Store.Db.UpdateUserLastLogin | lib/auth.ts:161-167 | sets `lastLoginAt` on the user's row and leaves everything else alone |
| Store.Db.UpdateUserProfile | lib/auth.ts:169-195 | applies the profile update to the user's row; succeeds exactly when the user exists and then returns the updated user, otherwise fails with the store's message |
| Store.Db.DeleteUser | lib/auth.ts:197-203 | removes exactly the rows with that id and leaves the other tables alone |
| Store.Db.SetPasswordHash | app/api/auth/reset-password/route.ts:29-32 | replaces the password hash of the user's row and nothing else |
| Store.Db.InsertRefreshToken | app/api/auth/login/route.ts:28-33 | appends one refresh-token row and leaves the other tables alone |
| Store.Db.RotateRefreshToken | app/api/auth/refresh/route.ts:31-37 | rewrites the token and expiry of the row with that id only |
| Store.Db.DeleteRefreshTokensWithToken | app/api/auth/logout/route.ts:15 | removes exactly the refresh rows holding that token |
| Store.Db.DeleteRefreshTokensOfUser | app/api/auth/logout/route.ts:18 | removes exactly the user's refresh rows |
| Store.Db.InsertResetToken | app/api/auth/forgot-password/route.ts:28-32 | appends one unused reset row and leaves the other tables alone |
| Store.Db.MarkResetTokenUsed | app/api/auth/reset-password/route.ts:39 | marks the row with that id used and changes nothing else |
| Store.Db.DeleteResetTokensOfUser | app/api/auth/account/route.ts:13 | removes exactly the user's reset rows |
| Store.Db.InsertSession | app/api/auth/register/route.ts:35-42 | appends one session row for the device |
| Store.Db.UpsertSession | app/api/auth/login/route.ts:40-52 | the sessions table becomes the upsert on (user, device), and the id counter advances only when a row was added |
| Store.Db.DeleteSessionsOfUser | app/api/auth/account/route.ts:14 | removes exactly the user's session rows |
| LoginRoute.LoginUser | app/api/auth/login/route.ts:13-22 | a user who logs in is in the table under the lower-cased e-mail |
| LoginRoute.Handler | app/api/auth/login/route.ts:7-82 | a missing body gives 500 and a schema failure 400; unknown e-mail and wrong password both give 401 with the same message; in each of these cases the store is unchanged; success returns 200 with the user, fresh tokens and 7 days; it stores the refresh token for 30 days, stamps `lastLoginAt` and upserts the device session |
| LoginRoute.OpenSession | app/api/auth/login/route.ts:25-72 | issues the token pair, records the refresh token, stamps the login time and upserts the device session when a device is given |
| LoginRoute.Post | app/api/auth/login/route.ts:84 | every call spends one strict-limiter point for the client; over the limit the answer is 429 and the store is untouched; within it the answer is the CORS-wrapped answer of the login handler and the store is as the handler leaves it; every answer carries the CORS headers |
| LoginRoute.NoAccountEnumeration | app/api/auth/login/route.ts:13-22 | a wrong password for an existing account gets the same outcome as an unknown e-mail |
| LoginRoute.RegisteredUserLogsIn | app/api/auth/login/route.ts:13-22 | right after a registration answers 201, a login with the same e-mail and password answers 200 with a session for the account just created |
| RegisterRoute.CreateFailure | app/api/auth/register/route.ts:61-73 | a failure whose message contains "ya está registrado" is a 409 that carries the message; every other failure is a generic 500 |
| RegisterRoute.DuplicateIsConflict | app/api/auth/register/route.ts:68-70 | the duplicate-e-mail error of `createUser` becomes a 409 |
| RegisterRoute.Handler | app/api/auth/register/route.ts:8-74 | a missing body gives 500, a schema failure 400 and a taken e-mail 409; a store error gives 409 or 500 by its message; in each of these cases the store is unchanged; success creates the user, stores a 30-day refresh token and, with a device, one session, and answers 201 with the user and tokens; a failed welcome mail does not change the answer |
| RegisterRoute.IssueFirstSession | app/api/auth/register/route.ts:22-60 | issues the token pair, records the refresh token and, with a device, inserts a session |
| RegisterRoute.Post | app/api/auth/register/route.ts:76 | strict-limited like login; over the limit the answer is 429 and the store is untouched; within it the answer and the store are those of the register handler, with CORS headers |
| RefreshRoute.Handler | app/api/auth/refresh/route.ts:6-48 | a missing or empty token gives 400; a token with no single live row gives 401 and changes nothing; otherwise that row alone gets the new refresh token and a 30-day expiry, and the answer is 200 with a new token pair |
| RefreshRoute.Post | app/api/auth/refresh/route.ts:50 | general-limited; over the limit the answer is 429 and the store is untouched; within it the answer and the store are those of the refresh handler, with CORS headers |
| RefreshRoute.OutcomeStatus | app/api/auth/refresh/route.ts:6-48 | the refresh handler answers only 200, 400, 401 or 500 |
| RefreshRoute.RotationRetiresToken | app/api/auth/refresh/route.ts:16-37 | once rotated to a different token, the presented token is no longer found, now or later |
| RefreshRoute.SameSecondRotationKeepsToken | app/api/auth/refresh/route.ts:28-37 | a rotation in the same second as issue produces the same refresh token string |
| RefreshRoute.LaterRotationChangesToken | app/api/auth/refresh/route.ts:28-37 | a rotation in a later second produces a different refresh token |
| LogoutRoute.Handler | app/api/auth/logout/route.ts:5-28 | with an `x-refresh-token` header only the rows holding that token are removed; without it all of the user's refresh rows are removed; the answer is always 200 |
| LogoutRoute.Post | app/api/auth/logout/route.ts:30 | an unauthenticated call gets the 401 of the auth gate and changes nothing; an authenticated one gets the CORS-wrapped answer of the logout handler for the token's user, and the store is as that handler leaves it; no limiter is touched |
| LogoutRoute.LogoutAllScope | app/api/auth/logout/route.ts:16-19 | after a logout without the header the caller holds no refresh row, so no token refreshes to them any more, and every other user's rows are kept |
| LogoutRoute.TargetedLogoutRetiresToken | app/api/auth/logout/route.ts:13-15 | after a targeted logout no row holds the named token, so it can never be refreshed, and rows holding other tokens are kept |
| ForgotPasswordRoute.Handler | app/api/auth/forgot-password/route.ts:9-49 | an invalid e-mail gives 400; an unknown e-mail gets the same 200 message and no change; a known one gets a 64-hex-digit reset token valid for one hour; a failed mail turns the answer into 500 but keeps the token |
| ForgotPasswordRoute.Post | app/api/auth/forgot-password/route.ts:51 | strict-limited; over the limit the answer is 429 and the store is untouched; within it the answer and the store are those of the forgot-password handler, with CORS headers |
| ResetPasswordRoute.Handler | app/api/auth/reset-password/route.ts:7-56 | an invalid body gives 400; a token with no single unused, unexpired row gives 400 and changes nothing; a failed update gives 500 and changes nothing; otherwise the password hash is replaced, the token is marked used, all of the user's refresh rows are removed, and the answer is 200 |
| ResetPasswordRoute.Post | app/api/auth/reset-password/route.ts:58 | strict-limited; over the limit the answer is 429 and the store is untouched; within it the answer and the store are those of the reset handler, with CORS headers |
| ResetPasswordRoute.ResetTokenSingleUse | app/api/auth/reset-password/route.ts:12-39 | once the matched reset row is marked used, the token is never found again, now or later |
| ResetPasswordRoute.ResetRevokesSessions | app/api/auth/reset-password/route.ts:12-42 | a reset that answers 200 consumed a usable token: the owner's hash is the new password's, the token is refused from then on, and the owner holds no refresh row |
| AccountRoute.Handler | app/api/auth/account/route.ts:6-27 | removes the user's refresh tokens, reset tokens, sessions and user row, exactly those, and answers 200 |
| AccountRoute.Delete | app/api/auth/account/route.ts:29 | an unauthenticated call gets the auth gate's 401 and changes nothing; an authenticated one gets the CORS-wrapped answer of the account handler for the token's user, the store is as that handler leaves it, and the user can no longer be found |
| MeRoute.Handler | app/api/auth/me/route.ts:5-19 | returns the user's public view with 200, or 404 when no row has the id |
| MeRoute.Get | app/api/auth/me/route.ts:21 | an unauthenticated call gets the auth gate's 401; otherwise the CORS-wrapped answer of the me handler for the token's user, 200 or 404; CORS headers always |
| ProfileRoute.Handler | app/api/auth/profile/route.ts:6-24 | a schema failure gives 400 and no change; otherwise only the user's row is updated, and the answer is 200 with the updated user (500 when the user row is missing) |
| ProfileRoute.Put | app/api/auth/profile/route.ts:26 | an unauthenticated call changes nothing; an authenticated one gets the CORS-wrapped answer of the profile handler for the token's user, the store is as that handler leaves it, and no other user's row is removed; CORS headers always |
| ClientAuth.ValidateEmail | src/services/AuthService.ts:315-318 | the client accepts exactly the local@domain.tld shape, which has one `@` and no white space |
| ClientAuth.ValidatePassword | src/services/AuthService.ts:320-350 | five checks in sequence each push their message when their rule fails, and the password is valid exactly when no message was pushed |
| ClientAuth.FailedRulesOrdered | src/services/AuthService.ts:320-349 | failed rules are reported at most once each, in the fixed order length, lower case, upper case, digit, special |
| ClientAuth.FailedRulesExact | src/services/AuthService.ts:320-349 | a rule is reported exactly when the password breaks it |
| ClientAuth.MessageInjective | src/services/AuthService.ts:320-349 | distinct rules have distinct messages, so the messages identify the failed rules |
| ClientAuth.PasswordValidIffStrong | lib/auth-client.ts:119-149 | the client's password check accepts exactly the passwords the server's register schema accepts |
| ClientAuth.ValidatePhone | src/services/AuthService.ts:352-356 | an accepted phone has 9, 11 or 12 characters once white space is removed |
| ClientAuth.PhoneIgnoresSpaces | src/services/AuthService.ts:355 | inserting white space anywhere never changes the verdict |
| ClientAuth.PhoneAgreesWithServer | lib/auth-client.ts:151-154 | on input without white space the client phone check and the server schema agree |
| ClientAuth.NormalizeEmail | src/services/AuthService.ts:72 | the result is the lower-cased input with its leading and trailing white space removed (a slice of the lower-cased input, with only white space outside it), so it has no upper-case letter and neither starts nor ends with white space |
| ClientAuth.NormalizeEmailIdempotent | lib/auth-client.ts:44 | normalising twice is normalising once |
| ClientAuth.HandleError | src/services/AuthService.ts:291-312 | a server answer keeps its status and body; no answer gives status 0 and the connection message; a local failure gives status -1; the message is never empty |
| ClientAuth.ResponseErrorMessage | lib/auth-client.ts:32-35 | the web message is never empty; without a body it is "Error de conexión" |
| ClientAuth.ServerErrorTextLost | src/services/AuthService.ts:295 | for every server error body the mobile client shows "Error del servidor" and the web client "Error <status>", never the server's text |
| ClientAuth.ServerErrorTextShown | lib/auth-client.ts:33-34 | the corrected clients show the server's `error` text whenever it is non-empty |
| ClientAuth.FixedAgreesOnMessages | src/services/AuthService.ts:295 | the correction changes nothing for bodies that are not error bodies |
| ClientAuth.BearerHeader | lib/auth-client.ts:19-25 | an Authorization header is sent exactly when a non-empty token is stored |
| ClientAuth.NoTokenIsRefused | lib/auth-client.ts:19-28 | a request made without a stored token is refused by the auth gate with "authorization required" |
| ClientAuth.StoredTokenAuthenticates | src/services/AuthService.ts:38-47 | a request carrying a stored, unexpired access token is authenticated as its user |
| ClientAuth.LogoutHeaders | lib/auth-client.ts:68-77 | the logout request carries the bearer header of the stored token |
| ClientAuth.LogoutScope | lib/auth-client.ts:68-77 | the web logout is a targeted one exactly when a refresh token is stored, and then it names that token |
| ClientAuth.RefreshRequest | lib/auth-client.ts:99-111 | with no stored refresh token the call fails locally; otherwise it posts that token |
| ClientAuth.RefreshRequestCarriesToken | lib/auth-client.ts:99-111 | a refresh request that is sent always carries a non-empty token, so it never gets the server's 400 |
| ClientAuth.WebLoginBody | lib/auth-client.ts:40-52 | the web login body has the normalised e-mail and the password |
| ClientAuth.WebRegisterBody | lib/auth-client.ts:54-66 | the web register body has the normalised e-mail and the terms flag |
| ClientAuth.WebCredentialsAlwaysRefused | lib/auth-client.ts:40-66 | the login and register bodies the web client builds never pass the server schemas |
| ClientAuth.WebCredentialsFixedAccepted | lib/validation.ts:7-15 | with the device object left out, valid web credentials pass the login and register schemas |
| MobileAuthContext.Reduce | src/context/AuthContext.tsx:91-133 | each action's effect: login sets the user, authenticates and clears errors and the first-time flag; logout clears the user but keeps the device flags; an update never creates or removes a user; unknown actions change nothing |
| MobileAuthContext.InitialConsistent | src/context/AuthContext.tsx:73-80 | the initial state is consistent: authenticated exactly when a user is present |
| MobileAuthContext.RunConsistent | src/context/AuthContext.tsx:91-133 | every sequence of actions keeps the state consistent |
| MobileAuthContext.UpdateWithoutUser | src/context/AuthContext.tsx:118-122 | updating the user while logged out changes nothing |
| MobileAuthContext.LogoutKeepsDeviceFlags | src/context/AuthContext.tsx:109-116 | after any history, logout signs out but keeps the biometric and first-time flags |
| MobileAuthContext.StoredToken | src/context/AuthContext.tsx:162 | a token read from secure storage is never empty |
| MobileAuthContext.AuthProvider.constructor | src/context/AuthContext.tsx:152 | the provider starts from the initial state over the given device storage |
| MobileAuthContext.AuthProvider.Dispatch | src/context/AuthContext.tsx:152 | dispatch applies the reducer and leaves storage alone |
| MobileAuthContext.AuthProvider.SignOut | src/context/AuthContext.tsx:236-250 | signing out clears the stored session and the user and keeps the device flags, even when the server call fails |
| MobileAuthContext.AuthProvider.CheckAuthStatus | src/context/AuthContext.tsx:158-185 | loads the biometric and first-time flags; with a stored token, a fetched profile logs in, and a failed fetch clears the session; without a token the user is untouched; the state stays consistent |
| WebAuthContext.Reduce | context/AuthContext.tsx:76-111 | login and logout set the whole state; errors stop loading; an update never creates or removes a user; unknown actions change nothing |
| WebAuthContext.ReduceConsistent | context/AuthContext.tsx:76-111 | every action keeps the state consistent: authenticated exactly when a user is present |
| WebAuthContext.UpdateWithoutUser | context/AuthContext.tsx:102-106 | updating the user while logged out changes nothing |
| WebAuthContext.AuthProvider.constructor | context/AuthContext.tsx:124 | the provider starts from the initial state over the given local storage |
| WebAuthContext.AuthProvider.Dispatch | context/AuthContext.tsx:124 | dispatch applies the reducer and leaves storage alone |
| WebAuthContext.AuthProvider.SignIn | context/AuthContext.tsx:153-187 | success stores both tokens and logs the user in; failure stores nothing, records the server's message (or the fixed fallback when it is empty) and rethrows |
| WebAuthContext.AuthProvider.SignOut | context/AuthContext.tsx:189-204 | both tokens are removed from storage and the state is logged out, whether or not the server call succeeds |
| WebAuthContext.AuthProvider.CheckAuthStatus | context/AuthContext.tsx:130-151 | with a stored token, a fetched profile logs in and a failed fetch clears both tokens; without a token only loading stops; the state stays consistent |
| WebAuthContext.SignInStoresSession | context/AuthContext.tsx:160-161 | after sign-in both tokens can be read back from storage |
| WebAuthContext.SignOutForgetsSession | context/AuthContext.tsx:194-195 | after sign-out neither token can be read from storage |
| ShoppingLists.TotalConcat | src/context/ShoppingListContext.tsx:118 | the estimated total of joined item lists is the sum of their totals |
| ShoppingLists.Reduce | src/context/ShoppingListContext.tsx:71-172 | item actions without a current list change nothing; with one, the current list keeps its id, its total is recomputed from its items, and the list is written back into the collection; adding appends the item; removing drops exactly the items with that id; adding a list selects it; deleting a list drops exactly that id and deselects it if it was current |
| ShoppingLists.AddItemRaisesTotal | src/context/ShoppingListContext.tsx:114-129 | adding an item raises the estimated total by price times quantity |
| ShoppingLists.ItemActionScope | src/context/ShoppingListContext.tsx:125-166 | item actions on the current list never lose any other list |
| ShoppingLists.UpdateListMerges | src/context/ShoppingListContext.tsx:92-105 | updating a list patches every list with that id, keeps the others in place, and patches the current list only if it is that one |
| ShoppingLists.RemoveUniqueItem | src/context/ShoppingListContext.tsx:152-167 | removing an item whose id is unique drops just that position and lowers the total by its price times quantity |
| ShoppingLists.KeepAllBut | src/context/ShoppingListContext.tsx:152-167 | removing an item whose id is unique keeps every other item in order |
| ShoppingLists.FindList | src/context/ShoppingListContext.tsx:309 | a found list has the id; a miss means no list has it |
| ShoppingLists.FindItem | src/context/ShoppingListContext.tsx:339 | a found item has the id; a miss means no item has it |
| ShoppingLists.ShoppingListProvider.constructor | src/context/ShoppingListContext.tsx:52-57 | the provider starts from the initial state |
| ShoppingLists.ShoppingListProvider.Dispatch | src/context/ShoppingListContext.tsx:193 | dispatch applies the reducer |
| ShoppingLists.ShoppingListProvider.SelectList | src/context/ShoppingListContext.tsx:308-313 | selects the list with that id, or changes nothing when there is none |
| ShoppingLists.ShoppingListProvider.UpdateItemQuantity | src/context/ShoppingListContext.tsx:333-336 | quantities below 1 are ignored; otherwise only the quantity of that item is updated |
| ShoppingLists.ShoppingListProvider.ToggleItemCheck | src/context/ShoppingListContext.tsx:338-343 | flips the checked flag of that item on the current list, or changes nothing when there is no such item |
| ShoppingLists.ShoppingListProvider.CompleteList | src/context/ShoppingListContext.tsx:357-370 | marks the current list completed at `now`, with its actual total set to its estimate |
| ShoppingLists.ShoppingListProvider.ClearCompletedItems | src/context/ShoppingListContext.tsx:372-387 | without a current list nothing changes; otherwise the current list keeps exactly its unchecked items with its total recomputed, every stored list with its id gets the same items and total, the other lists stay in place, and loading and error are kept |
| ShoppingLists.ToggleTwice | src/context/ShoppingListContext.tsx:338-343 | toggling an item's check twice restores it |
| ShoppingLists.QuantityUpdateScope | src/context/ShoppingListContext.tsx:131-150 | a quantity update changes only the quantity of the items with that id |
| Budgets.Reduce | src/context/BudgetContext.tsx:59-119 | an expense adds to the total spent and to the named category of the current budget, which is written back; adding a budget appends it; deleting drops exactly that id and deselects it if current; an update patches the budgets with that id and the current one if it is that one |
| Budgets.SpendSum | src/context/BudgetContext.tsx:95-111 | an expense raises the sum spent over the categories by the amount times the number of categories with that name |
| Budgets.UnmatchedExpense | src/context/BudgetContext.tsx:98-109 | an expense for a category the budget lacks still raises the total spent but leaves the budget unchanged |
| Budgets.FindBudget | src/context/BudgetContext.tsx:267 | a found budget has the id; a miss means no budget has it |
| Budgets.BudgetProvider.constructor | src/context/BudgetContext.tsx:40-46 | the provider starts from the initial state |
| Budgets.BudgetProvider.Dispatch | src/context/BudgetContext.tsx:138 | dispatch applies the reducer |
| Budgets.BudgetProvider.SelectBudget | src/context/BudgetContext.tsx:266-271 | selects the budget with that id and changes nothing else, or changes nothing when there is none |
| DataStore.Ids | lib/data-store.ts:190 | the ids of the rows, in order |
| DataStore.NextId | lib/data-store.ts:190 | the next id is above every existing id: one more than the largest, or 1 for an empty table |
| DataStore.IndexOf | lib/data-store.ts:199 | the index of the first row with the id, or -1 exactly when no row has it |
| DataStore.Find | lib/data-store.ts:185 | finds a row with the id, and misses exactly when there is none |
| DataStore.RemoveAt | lib/data-store.ts:214 | removing a position keeps the rows before it and shifts the rows after it down by one |
| DataStore.MemoryStore.constructor | lib/data-store.ts:74-137 | the store holds the given tables |
| DataStore.MemoryStore.CreateProduct | lib/data-store.ts:187-196 | appends a product with an id above every existing one and both timestamps `now`; other tables are untouched |
| DataStore.MemoryStore.UpdateProduct | lib/data-store.ts:198-208 | patches the first product with the id in place, keeping its id and stamping `updatedAt`; returns nothing and changes nothing when there is none |
| DataStore.MemoryStore.DeleteProduct | lib/data-store.ts:210-216 | reports whether a product had the id, and then removes the first one |
| DataStore.MemoryStore.CreateBudget | lib/data-store.ts:236-243 | appends a budget with an id above every existing one |
| DataStore.MemoryStore.UpdateBudget | lib/data-store.ts:245-251 | patches the first budget with the id in place and keeps its id, or changes nothing |
| DataStore.MemoryStore.DeleteBudget | lib/data-store.ts:253-259 | reports whether a budget had the id, and then removes the first one |
| DataStore.MemoryStore.CreateList | lib/data-store.ts:268-276 | appends a list with an id above every existing one, created at `now` |
| DataStore.MemoryStore.UpdateList | lib/data-store.ts:278-284 | patches the first list with the id in place and keeps its id, or changes nothing |
| DataStore.MemoryStore.DeleteList | lib/data-store.ts:286-292 | reports whether a list had the id, and then removes the first one |
| DataStore.CreateThenDelete | lib/data-store.ts:187-216 | deleting a product right after creating it restores the table |
| DataStore.CreateKeepsIdsDistinct | lib/data-store.ts:190 | creating a product keeps all product ids distinct |
| DataStore.Search | lib/data-store.ts:218-227 | returns exactly the products whose name, brand or description contains the lower-cased query and that match the category when one is given |
| DataStore.SearchEverything | lib/data-store.ts:218-227 | the empty query with no category returns every product, in order |
| DataStore.SearchIgnoresCase | lib/data-store.ts:218-227 | the query's letter case never matters |
| DataStore.SearchByCategory | lib/data-store.ts:218-227 | with a category, every result is in that category |
| DataStore.GetActive | lib/data-store.ts:234 | the first active budget, or none exactly when no budget is active |
| DataStore.ByCategoryCorrect | lib/data-store.ts:297-307 | the per-category totals have a key for exactly the categories that occur, each mapped to the sum of its amounts |
| DataStore.ByCategoryTotal | lib/data-store.ts:297-307 | the per-category totals add up to the total of all expenses |
| DataStore.CountsCorrect | lib/data-store.ts:336-344 | the tally holds each purchased product once, in ascending id order, with its total quantity |
| DataStore.InsertByCountCorrect | lib/data-store.ts:345 | inserting into a count-sorted tally keeps it sorted and adds exactly that entry |
| DataStore.SortByCountCorrect | lib/data-store.ts:345 | sorting by count is a permutation that leaves counts non-increasing |
| DataStore.Take | lib/data-store.ts:346 | `slice(0, limit)`: a prefix of `limit` entries, or all but the last `-limit` for a negative limit |
| DataStore.TopProducts | lib/data-store.ts:335-351 | each ranked entry is paired with the product of that id, if any, and its count |
| DataStore.RankingFromCounts | lib/data-store.ts:335-351 | the ranking is drawn from the tally and ordered by count |
| DataStore.TopProductsRanked | lib/data-store.ts:335-351 | at most `limit` entries, ordered by count, each with the product's true total quantity |
| DataStore.RankingIsTop | lib/data-store.ts:335-351 | no product left out of the ranking was bought more than one in it |
| DataStore.Analyse | lib/data-store.ts:377-381 | one entry per category, with its amount, spent and remaining = amount − spent |
| DataStore.BudgetAnalysis | lib/data-store.ts:362-383 | an analysis exists exactly when some budget is active; it is of the first active budget, its total is that budget's amount, its spent is the sum spent over the categories, its remaining is total minus spent, and it has one entry per category |
| DataStore.RemainingAddsUp | lib/data-store.ts:366-380 | the remaining amounts of the categories add up to the total amount minus the total spent |
| DataStore.BudgetAnalysisRemaining | lib/data-store.ts:366-380 | when the budget's amount is the sum of its categories, the overall remaining equals the sum of the categories' remaining |

## Left out

- Cryptography: JWT signing and verification, bcrypt and `randomBytes` are the abstract functions of `Tokens.Crypto`. The properties lemmas rely on (`Tokens.Sound`) are assumed of the libraries, not proved.
- Store transport failures are not modelled, except `createUser`'s non-duplicate insert error and reset-password's update error, which are parameters. The following are therefore out of the model:
  - the 500 answers of `findUserByEmail`/`findUserById` on errors other than "no single row";
  - the 500 answers of logout, account and me on store errors;
  - failed inserts of refresh tokens and sessions.
- Concurrency: every handler runs to completion before the next. The read-then-write race between two refreshes of one token is not modelled, nor the interleaving of `Promise.all` in the account route.
- Floating point: `percentageUsed` and budget progress percentages are not modelled. Amounts and prices are integers.
- `toLowerCase` is modelled on ASCII letters only. Unicode case mapping is not modelled.
- Validation.LoginSchema, Validation.RegisterSchema, Validation.ResetPasswordSchema, Validation.UpdateProfileSchema: zod's `.min` counts UTF-16 code units, while the model counts Dafny characters (code points). A name or password with characters outside the Basic Multilingual Plane can therefore reach a minimum length in zod that it does not reach in the model.
- ClientAuth.ValidatePassword: the mobile check `password.length < 8` counts UTF-16 code units, while the model counts code points, so a password with characters outside the Basic Multilingual Plane can pass the length rule in the app and fail it in the model.
- Validation.ValidEmail: zod's e-mail rule is replaced by the client's `local@domain.tld` pattern, because zod's own expression is library internals. `url()` is replaced by a scheme check.
- The `details` array of a 400 schema answer is not modelled. The optional keys `platform` and `acceptMarketing` are type-checked by the schemas and otherwise ignored by the handlers.
- Store.ApplyProfile: a patch key present with value `undefined` is treated like an absent key.
- The mobile response interceptor's 401 retry (src/services/AuthService.ts:50-66) is not modelled. Neither are the mobile context's login and register error messages, nor the service calls for profile update and account deletion.
- WebAuthContext: `forgotPassword`, `updateProfile` and `clearError` of the web context are not modelled. They only forward to the network client.
- Seed data, `generateSampleData`, `getExpensesByPeriod`, `getPriceEvolution`, AsyncStorage loading and saving, notifications and all UI are out of scope.
- DataStore.CountsCorrect: `Object.entries` order is modelled as ascending numeric keys. That is the engine's order for non-negative integer ids only.
- JWT clock tolerance: expiry is compared in whole seconds, with no leeway.

## Findings

| source | as written | input that shows it | evidently intended | confidence | as-written member | corrected member |
|---|---|---|---|---|---|---|
| lib/auth-client.ts:40-66 | web login and register send `deviceInfo: {platform: "web", userAgent}`, but the server schemas require `version`, `deviceId`, `appVersion` and `buildNumber` whenever `deviceInfo` is present | any web login, e.g. a registered e-mail with its correct password | the web client omits `deviceInfo` (or sends a complete one) so valid credentials reach the handler | not executed | ClientAuth.WebCredentialsAlwaysRefused | ClientAuth.WebCredentialsFixedAccepted |
| src/services/AuthService.ts:295 | both clients read `data.message` from error answers, but every server error body carries `error` | a wrong password: the server answers 401 `{error: "Credenciales inválidas"}` and the user sees "Error del servidor" (mobile) or "Error 401" (web) | the clients show the server's `error` text | not executed | ClientAuth.ServerErrorTextLost | ClientAuth.ServerErrorTextShown |
