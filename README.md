# Odysseas session and trip core, in Dafny

Odysseas is a trip planner. It has a Hono backend with a PostgreSQL schema and a Solid frontend.
This project models the part of it that decides who is signed in and what a request may change.

- **Server session core**
  - The token codec: secret and lifetime selection, and one error for every verification failure.
  - The `refresh_tokens` table, keyed by (user id, device id).
  - The register, login, refresh, logout and protected handlers, over the users table, the token table and the client's `refresh_token` cookie.
  - The role gate.
  - The table constraints of the schema, stated as invariants the handlers keep.
- **Trip rules**
  - The ownership gate.
  - Trip creation.
  - The add-cities merge, which links only the cities not already linked.
  - The server's trip validators.
- **Client session machine**
  - The session store.
  - The axios instance with its request interceptor and its retry-once response interceptor.
  - The service helpers and the tags they return.
  - The login and sign-up forms.
- **Client trip screens**
  - The create-trip form, with its validator set side by side against the server's.
  - The add-cities modal's duplicate-free selection.
  - The trips page's title and status filter.
  - The day count and the status colours.

Each handler and each client call is specified first, as a pure function from the state before to
the state after. Examples: `AuthRoutes.RefreshSpec` and `ClientApi.Send`. A class then performs the
same steps in place and is proved to follow that function. Examples: `AuthRoutes.AuthServer` and
`ClientApi.ApiClient`. The lemmas then state what the source promises about the functions.

The project models a few things as parameters:

- The clock is a `nowMs` parameter in milliseconds.
- The network is a function `server` from an outgoing request to the server's answer.
- `getDeviceId()` is the client's constant `deviceId`.
- The JWT and password-hash primitives, which are foreign code, are concrete injective stand-ins in module `Crypto`.

Some behaviours of the code are worth noting:

- A successful refresh rotates the stored row with an *update*, not an upsert.
  - `backend/src/auth/auth.routes.ts:125`.
  - A row that vanished between the lookup and the write is not recreated.
- Logout answers 500, not 200, when the cookie's token fails verification.
  - `backend/src/auth/auth.routes.ts:156-158`.
  - The cookie is deleted either way.
- Tokens carry no unique id, and signing is deterministic.
  - So a refresh in the same second the presented token was issued re-issues that very token, and the "replaced" token keeps working.
  - Proved as `AuthRoutes.SameSecondRotationReissues`.
  - A rotation in a later second does lock the old token out: `AuthRoutes.ReplayAfterRotationRefused`.
- The response interceptor has no `return` on its last path (`frontend/src/api/api.ts:34-44`).
  - Every non-401 error therefore resolves the call to `undefined` instead of rejecting it.
  - The helpers then read `data` of `undefined` and report SERVER.
  - So `loginUser` never returns CREDENTIALS, and the login page never shows 'Invalid credentials'.
  - So a taken username on sign-up is reported as SERVER.
  - And the sign-up page's check for the tag `USERNAME_EXISTS` could never match the service's `USERNAME_EXIST` anyway (`frontend/src/pages/auth/Register.tsx:47`).

## Model

| member | source | states |
|---|---|---|
| Crypto.Verify | backend/src/jwt/jwt.utils.ts:26 | `verify` succeeds exactly for a well-formed token signed with the given key that has not expired (an `exp` of 0 is not checked), and then yields the signed claims |
| Crypto.SignThenVerify | backend/src/jwt/jwt.utils.ts:18-26 | a signed token verifies under its own key before its expiry, fails as expired afterwards, and never verifies under another key |
| Crypto.HashThenVerify | backend/src/auth/auth.routes.ts:115 | a value matches its own hash, and no other value matches it |
| JwtUtils.SecretsFrom | backend/src/jwt/jwt.utils.ts:5-6 | a set environment variable wins, even when empty; with neither set, the two default secrets differ |
| JwtUtils.GenerateToken | backend/src/jwt/jwt.utils.ts:8-20 | the payload is exactly `{sub, role, exp}`; a refresh token is signed with the refresh secret and expires 604800 s after the issue second, an access token with the access secret and 900 s |
| JwtUtils.VerifyToken | backend/src/jwt/jwt.utils.ts:22-31 | succeeds iff `verify` succeeds under the secret the flag selects, returning the token's claims; every failure is the single error 'Invalid token' |
| JwtUtils.IssuedTokenVerifies | backend/src/jwt/jwt.utils.ts:8-31 | an issued token verifies under its own flag exactly while the clock second is below issue second plus lifetime, and yields the claims it was issued with |
| JwtUtils.TokenKindsDoNotCross | backend/src/jwt/jwt.utils.ts:11-24 | with distinct secrets, a token never verifies under the other flag |
| JwtUtils.FailuresIndistinguishable | backend/src/jwt/jwt.utils.ts:27-30 | any two failing tokens (expired, garbled, wrongly signed) are reported identically |
| Schema.RoleName | backend/src/infra/schema.ts:17 | a role's label is USER or ADMIN |
| Schema.RoleNameInjective | backend/src/infra/schema.ts:17 | two roles have the same label iff they are the same role |
| Schema.ParseTripStatus | backend/src/infra/schema.ts:58-63 | only the exact label of one of the four statuses is accepted, and it names that status |
| Schema.TripStatusRoundTrip | backend/src/infra/schema.ts:58-63 | parsing a status's label gives that status back, and a string is accepted iff it is some status's label |
| Schema.DeleteUser | backend/src/infra/schema.ts:36-177 | deleting a user cascades: the user's tokens and trips go, with those trips' activities and city links; everything else stays; a consistent database stays consistent |
| JsText.Utf16Length | backend/src/auth/auth.schema.ts:5 | `length` counts UTF-16 code units: between the number of characters and twice it, and 0 only for the empty string |
| JsText.Utf16LengthAppend | backend/src/trip/trip.schema.ts:12 | the length of a concatenation is the sum of the lengths |
| JsText.BasicPlaneLength | backend/src/trip/trip.schema.ts:12 | a string without astral characters has as many code units as characters |
| JsText.AstralLength | backend/src/trip/trip.schema.ts:12 | a string of astral characters has twice as many code units as characters |
| Http.JwtGuard | backend/src/auth/auth.routes.ts:164-166 | the jwt middleware passes exactly a present token that verifies under the secret at the current second, handing on its claims, and answers 401 otherwise |
| AuthSchema.ParseRegister | backend/src/auth/auth.schema.ts:3-6 | accepted iff the username is a string and the password a string of at least 4 UTF-16 code units; yields both unchanged |
| AuthSchema.ParseLogin | backend/src/auth/auth.schema.ts:8-12 | accepted iff the register rules hold and `deviceId` is a string; yields the three fields |
| AuthSchema.ParseDevice | backend/src/auth/auth.schema.ts:14-16 | accepted iff `deviceId` is a string; yields it |
| AuthSchema.EmptyNamesAccepted | backend/src/auth/auth.schema.ts:3-12 | an empty username and an empty device id are accepted; a password shorter than 4 code units is refused by both schemas |
| AuthSchema.TwoEmojiPasswordAccepted | backend/src/auth/auth.schema.ts:5 | a password of two emoji (four code units) is long enough, one of three letters is not |
| AuthService.Insert | backend/src/auth/auth.service.ts:6-16 | the insert succeeds iff the pair has no row (unique index); it adds exactly that row, holding the token's hash, the creation time and the expiry, and changes no other row |
| AuthService.Update | backend/src/auth/auth.service.ts:18-29 | only the row of the pair changes, to the new hash and expiry with its creation time kept; with no such row the table is unchanged |
| AuthService.Upsert | backend/src/auth/auth.service.ts:31-45 | afterwards the pair has a row with the new hash and expiry; the creation time is kept on conflict and is now otherwise; no other row changes |
| AuthService.Find | backend/src/auth/auth.service.ts:47-54 | the pair's row, or nothing iff there is none |
| AuthService.Delete | backend/src/auth/auth.service.ts:56-60 | removes exactly the pair's row, if any |
| AuthService.UpsertThenFind | backend/src/auth/auth.service.ts:31-54 | after an upsert, find returns a row whose hash matches the token and whose expiry is the new one |
| AuthService.UpdateIsUpsertOnExistingRow | backend/src/auth/auth.service.ts:18-45 | update equals upsert when the row exists; otherwise update is a no-op and upsert is the insert |
| AuthService.DeleteIdempotent | backend/src/auth/auth.service.ts:56-60 | after delete the pair has no row, and deleting again changes nothing |
| AuthService.OtherPairsUntouched | backend/src/auth/auth.service.ts:18-60 | update, upsert and delete for one pair never change what find returns for another pair |
| AuthService.WritesKeepReferences | backend/src/infra/schema.ts:44-46 | update and delete keep every row referring to an existing user, and so does an upsert for an existing user |
| AuthService.RefreshTokenTable.CreateRefreshToken | backend/src/auth/auth.service.ts:6-16 | performs `Insert` in place, reporting false and changing nothing on a conflict |
| AuthService.RefreshTokenTable.UpdateRefreshToken | backend/src/auth/auth.service.ts:18-29 | the table becomes `Update` of the old table |
| AuthService.RefreshTokenTable.CreateOrUpdateRefreshToken | backend/src/auth/auth.service.ts:31-45 | the table becomes `Upsert` of the old table |
| AuthService.RefreshTokenTable.FindRefreshTokenByUserIdAndDeviceId | backend/src/auth/auth.service.ts:47-54 | returns the pair's row, or nothing iff there is none, changing nothing |
| AuthService.RefreshTokenTable.DeleteRefreshTokenByUserIdAndDeviceId | backend/src/auth/auth.service.ts:56-60 | the table becomes `Delete` of the old table |
| AuthMiddleware.CheckRole | backend/src/auth/auth.middleware.ts:6-18 | the next handler runs iff the role claim equals the required role exactly; a different role answers 403 'No authorized'; an unreadable payload answers 500 |
| AuthMiddleware.AdminRefusedOnUserRoute | backend/src/auth/auth.middleware.ts:11 | an ADMIN token is refused with 403 on a USER route: there is no role hierarchy |
| UserService.ScanByName | backend/src/user/user.service.ts:26-38 | returns a user with the name within the id range, or nothing iff none has it |
| UserService.FindUserByUsername | backend/src/user/user.service.ts:26-38 | any result bears the name and is a stored user; on a well-keyed table nothing is found iff no user has the name |
| UserService.FindUserByUsernameUnique | backend/src/infra/schema.ts:24 | with unique usernames the lookup by a user's name returns that user |
| UserService.FindUserById | backend/src/user/user.service.ts:17-24 | the user with the id, or nothing iff there is none |
| UserService.CreateUser | backend/src/user/user.service.ts:6-9 | adds one row under the next identity value, holding the password's hash and the role (USER by default), changes no other row, and keeps ids keyed and usernames unique when the name is new |
| AuthRoutes.RegisterSpec | backend/src/auth/auth.routes.ts:29-45 | 201 iff the body parses and the username is free; otherwise nothing changes; the token table and cookie never change; consistency is kept |
| AuthRoutes.LoginSpec | backend/src/auth/auth.routes.ts:47-86 | answers 200 or 400; a 400 changes nothing; 200 iff the body parses, the user exists and the password matches; a 200 sets the cookie to a new refresh token, upserts the (user, device) row with expiry now + 7 days, and returns a new access token with the user's id and role |
| AuthRoutes.RefreshSpec | backend/src/auth/auth.routes.ts:88-140 | answers 200, 400 or 401; 200 iff the body parses and the cookie verifies as a refresh token of an existing user whose (user, device) row exists, has not expired and holds the cookie's hash; users never change; a refusal leaves the table as it was and either keeps or deletes the cookie; a success keeps the table's keys |
| AuthRoutes.LogoutSpec | backend/src/auth/auth.routes.ts:142-160 | a parsed body always deletes the cookie; 500 exactly when a present cookie fails verification; only a 200 can change the table |
| AuthRoutes.ProtectedSpec | backend/src/auth/auth.routes.ts:162-180 | 200 `{success: true}` iff the bearer is a valid access token whose subject exists; 401 otherwise |
| AuthRoutes.LoginRefusal | backend/src/auth/auth.routes.ts:51-61 | an unknown username or a wrong password answers 400 'Invalid credentials' and changes neither tables nor cookie |
| AuthRoutes.RefreshWithoutCookie | backend/src/auth/auth.routes.ts:92-94 | no cookie: 401 'Unauthorized', nothing changes |
| AuthRoutes.RefreshExceptionClearsCookie | backend/src/auth/auth.routes.ts:136-139 | a cookie token that fails verification, or whose user is gone, is deleted and the answer is 401 |
| AuthRoutes.RefreshRowChecks | backend/src/auth/auth.routes.ts:103-117 | no stored row: 401, cookie kept; expired row: cookie deleted, 401 'Refresh token expired'; hash mismatch: 401, everything kept |
| AuthRoutes.RefreshRotates | backend/src/auth/auth.routes.ts:119-135 | a successful refresh signs the new pair with the token's own role claim, overwrites the row's hash and expiry by update, sets the cookie, and reports the database record's id and role |
| AuthRoutes.LogoutOutcomes | backend/src/auth/auth.routes.ts:142-160 | no cookie: 200 and no change; valid cookie: the (subject, device) row and the cookie are deleted, 200; invalid cookie: cookie deleted, 500; a second logout answers 200 and changes nothing |
| AuthRoutes.ProtectedRefusesRefreshTokens | backend/src/auth/auth.routes.ts:162-168 | with distinct secrets a refresh token never passes the protected route |
| AuthRoutes.RegisterThenLogin | backend/src/auth/auth.routes.ts:29-86 | after a successful register, logging in with the same name and password answers 200 with the new id and role USER |
| AuthRoutes.LoginThenRefresh | backend/src/auth/auth.routes.ts:47-140 | after a login, the same device can refresh at any time up to 604799 s later |
| AuthRoutes.ReplayAfterRotationRefused | backend/src/auth/auth.routes.ts:115-125 | after a rotation in a later second, presenting the replaced token again answers 401 and leaves the table as it was |
| AuthRoutes.SameSecondRotationReissues | backend/src/auth/auth.routes.ts:119-127 | a refresh in the same second the presented token was issued re-issues that very token |
| AuthRoutes.LogoutRevokes | backend/src/auth/auth.routes.ts:146-151 | after a logout with a valid cookie, a copy of the old cookie can no longer refresh from that device |
| AuthRoutes.OtherDevicesUntouched | backend/src/auth/auth.routes.ts:69-151 | login, refresh and logout for one device never change another device's row |
| AuthRoutes.AuthServer.Register | backend/src/auth/auth.routes.ts:29-45 | performs `RegisterSpec` in place, keeping the table invariants |
| AuthRoutes.AuthServer.Login | backend/src/auth/auth.routes.ts:47-86 | performs `LoginSpec` in place, keeping the table invariants |
| AuthRoutes.AuthServer.Refresh | backend/src/auth/auth.routes.ts:88-140 | performs `RefreshSpec` in place, keeping the table invariants |
| AuthRoutes.AuthServer.Logout | backend/src/auth/auth.routes.ts:142-160 | performs `LogoutSpec` in place, keeping the table invariants |
| IsoDate.DayNumberOrdersCalendar | backend/src/trip/trip.schema.ts:18-24 | within one month the later day ends after the earlier, and a later month in the same year always ends after |
| IsoDate.IsoDateExamples | backend/src/trip/trip.schema.ts:15-16 | `isoDate` checks the format field by field: the 30th of February and the 31st of December pass; month 13, month 00, an unpadded month and the empty string do not |
| IsoDate.EndsAfterStrictOrder | backend/src/trip/trip.schema.ts:18-24 | `end > start` on valid dates is irreflexive, asymmetric, transitive, and total on distinct days |
| TripSchema.TitleIssues | backend/src/trip/trip.schema.ts:12 | no issue iff the title is a string of 4 to 250 UTF-16 code units; both length actions run, so every issue is on `title` |
| TripSchema.DescriptionIssues | backend/src/trip/trip.schema.ts:13 | no issue iff the description is missing or a string of at most 250 code units |
| TripSchema.StatusIssues | backend/src/trip/trip.schema.ts:14 | no issue iff the status is one of the four labels |
| TripSchema.DateIssues | backend/src/trip/trip.schema.ts:15-16 | no issue iff the field is an ISO date string |
| TripSchema.FieldIssues | backend/src/trip/trip.schema.ts:11-17 | the field rules' issues in field order; a body with none of them is typed, so it reaches the date order check |
| TripSchema.OrderIssues | backend/src/trip/trip.schema.ts:18-24 | on a typed body (string title and dates, string or missing description, known status) an issue on `endDate` exactly when the end date is not after the start; nothing on an untyped body |
| TripSchema.CreateTripBody | backend/src/trip/trip.schema.ts:10-25 | accepted iff every field rule holds (lengths in code units) and the end date is after the start date; yields the validated trip; a refusal lists at least one issue |
| TripSchema.DateOrderIssueOnEndDate | backend/src/trip/trip.schema.ts:18-24 | a body whose fields pass but whose end date is not after its start is refused with one issue, on `endDate` |
| TripSchema.DateOrderCheckedDespiteFieldIssues | backend/src/trip/trip.schema.ts:18-24 | on a typed body with dates out of order the `endDate` issue follows the field issues, whatever those are |
| TripSchema.UntypedSkipsDateOrder | backend/src/trip/trip.schema.ts:10-25 | an untyped body, such as one with an unknown status, is refused with its field issues alone |
| TripSchema.NumberOf | backend/src/trip/trip.schema.ts:27-29 | a string of decimal digits gives a non-negative number; anything else is refused |
| TripSchema.Decimal | frontend/src/api/trip.service.ts:40 | a number's rendering in a template literal is a non-empty string of digits |
| TripSchema.NumberOfDecimal | backend/src/trip/trip.schema.ts:27-29 | reading a rendered id gives the id back |
| TripSchema.CreateTripCityParams | backend/src/trip/trip.schema.ts:27-29 | the route id is accepted iff it is all digits, and a rendered number reads back as itself |
| TripSchema.CreateTripCityBody | backend/src/trip/trip.schema.ts:31-33 | accepted iff `citiesId` is an array of integers with at least one entry; yields it |
| TripMiddleware.FindTripByIdAndUserId | backend/src/trip/trip.service.ts:26-31 | finds the trip iff it exists with that id and that owner |
| TripMiddleware.CheckTripOwner | backend/src/trip/trip.middleware.ts:5-20 | passes iff the caller owns the trip, handing that trip on; otherwise 404 'Forbidden request', or 500 when reading the claims or the id throws |
| TripMiddleware.ForeignTripLooksMissing | backend/src/trip/trip.middleware.ts:12 | another user's trip is answered exactly as a missing trip |
| TripRoutes.UserGate | backend/src/trip/trip.routes.ts:34-40 | passes iff a valid access token carries the role USER exactly; 401 or 403 otherwise |
| TripRoutes.AddTripKeepsConsistency | backend/src/trip/trip.routes.ts:74-81 | storing a trip of an existing user under the next identity value keeps the trip tables consistent |
| TripRoutes.NewCityIds | backend/src/trip/trip.routes.ts:108-111 | the submitted ids not already linked, in submitted order, without repetition when the input has none |
| TripRoutes.InsertLinks | backend/src/trip/trip.routes.ts:117-127 | the bulk insert succeeds iff the payload repeats no row, clashes with no existing link and refers to existing trips and cities; it adds exactly the payload |
| TripRoutes.CreateTripSpec | backend/src/trip/trip.routes.ts:69-90 | 201 iff the gate passes, the body validates and the caller exists; the state becomes the old one with one more trip under the next id, holding the validated title, description, status and dates and owned by the caller, and the next id advanced; the answer carries that id; a refusal changes nothing; consistency is kept |
| TripRoutes.AddCitiesSpec | backend/src/trip/trip.routes.ts:92-136 | the owner who sends a non-empty list of distinct known city ids gets 200 or 201, and nobody else does; the trip's cities become the old ones united with the submitted ones; 200 iff all were linked already; 201 adds exactly the new links and reports their count; a refusal changes nothing |
| TripRoutes.AddCitiesEffect | backend/src/trip/trip.routes.ts:108-127 | inserting the new ids succeeds, links the union, and adds as many links as there are new ids |
| TripRoutes.AddCitiesRefusesUnknownOrRepeated | backend/src/trip/trip.routes.ts:103-106 | a repeated or unknown id answers 400 'One or more cities do not exist' and changes nothing |
| TripRoutes.AddCitiesTwice | backend/src/trip/trip.routes.ts:113-115 | resending the same cities after they were added answers 200 'All selected cities were already in the trip' and adds nothing |
| TripRoutes.TripServer.CreateTrip | backend/src/trip/trip.routes.ts:69-90 | performs `CreateTripSpec` in place, keeping the invariants |
| TripRoutes.TripServer.AddCities | backend/src/trip/trip.routes.ts:92-136 | performs `AddCitiesSpec` in place, keeping the invariants |
| ClientApi.Bearer | frontend/src/api/api.ts:19 | the header is `Bearer ` followed by exactly the token |
| ClientApi.Send | frontend/src/api/api.ts:16-45 | one call through both interceptors: the session changes only on a first call outside `/refresh`, and a redirect to `/login` happens only there, rejecting after signing out |
| ClientApi.RefreshCall | frontend/src/api/auth.service.ts:36-53 | `refreshToken` posts exactly one request, the device id to `/auth/refresh`; it resolves iff the server answers that request with success, storing the session built from the answer, and otherwise signs out; it never redirects |
| ClientApi.SessionOf | frontend/src/api/auth.service.ts:41-43 | a session answer fills the store with its token, user id and role |
| ClientApi.IncludesRefresh | frontend/src/api/api.ts:30 | the refresh URL contains `/refresh` |
| ClientApi.PassThrough | frontend/src/api/api.ts:26 | a 2xx answer passes through unchanged: one request, no refresh, session kept |
| ClientApi.RefreshErrorsRejected | frontend/src/api/api.ts:30-32 | an error on a `/refresh` URL is rejected at once, with no refresh attempt |
| ClientApi.FallThroughResolvesUndefined | frontend/src/api/api.ts:34-44 | a non-401 error, or a 401 on a replayed request, resolves to `undefined` with nothing else done |
| ClientApi.FailedRefreshSignsOut | frontend/src/api/api.ts:39-42 | when the refresh after a first 401 fails, the store is reset, the browser goes to `/login`, and the call rejects with the original 401 |
| ClientApi.RejectedOnlyWhenSignedOut | frontend/src/api/api.ts:30-44 | a call rejects only on a `/refresh` URL, or on a first 401 whose refresh failed, after signing out and redirecting |
| ClientApi.ReplayedAtMostOnce | frontend/src/api/api.ts:34-38 | at most three requests go out (request, refresh, replay of the same request); a replayed or `/refresh` call sends one; every request carries a bearer header |
| ClientApi.RefreshThenReplay | frontend/src/api/api.ts:16-38 | a first 401 outside `/refresh` whose refresh succeeds settles exactly as the same request replayed under the refreshed session, which the store keeps; the requests sent are the original and the refresh with the old token, then the replay with the new token; no redirect |
| ClientApi.StatusOutcome | frontend/src/api/auth.service.ts:8-34 | success iff the call resolved with data; an AxiosError 400 gives the helper's own tag; anything else gives SERVER |
| ClientApi.CaughtOutcome | frontend/src/api/auth.service.ts:55-62 | success iff the call resolved with data; every failure gives the helper's one tag |
| ClientApi.LoginUserNeverReportsCredentials | frontend/src/api/auth.service.ts:8-20 | through the interceptor, `loginUser` never returns CREDENTIALS |
| ClientApi.TakenUsernameReportedAsServer | frontend/src/api/auth.service.ts:22-34 | a 400 on register is reported as SERVER, not `USERNAME_EXIST` |
| ClientApi.After | frontend/src/api/api.ts:12-14 | after a call the store is the call's final session, the sent log grows by its requests, and the location is `/login` iff it redirected |
| ClientApi.ApiClient.constructor | frontend/src/store/authStore.ts:3-7 | the store starts as token '', user id null, role '' |
| ClientApi.ApiClient.AttachToken | frontend/src/api/api.ts:16-23 | the header is written as `Bearer <token>` whatever the token, the empty one included |
| ClientApi.ApiClient.Dispatch | frontend/src/api/api.ts:25-45 | settles as `Send` says and leaves the client in `After` of that exchange; `_retry` becomes set exactly on a first 401 outside `/refresh` |
| ClientApi.ApiClient.Request | frontend/src/api/trip.service.ts:6-45 | a helper's `api.get`/`api.post` settles as `Send` on a fresh request and leaves the client in `After` of that exchange |
| ClientApi.ApiClient.RefreshToken | frontend/src/api/auth.service.ts:36-53 | posts the device id; reports success iff the refresh resolved, with the store set from the answer, or reset otherwise |
| ClientApi.ApiClient.LoginUser | frontend/src/api/auth.service.ts:8-20 | returns `StatusOutcome` of the login call with CREDENTIALS for 400 |
| ClientApi.ApiClient.RegisterUser | frontend/src/api/auth.service.ts:22-34 | returns `StatusOutcome` of the register call with `USERNAME_EXIST` for 400 |
| ClientApi.ApiClient.VerifyToken | frontend/src/api/auth.service.ts:55-62 | any failure of the protected call is AUTHORIZATION |
| ClientApi.ApiClient.Logout | frontend/src/api/auth.service.ts:64-73 | posts the device id; any failure is 'Server error'; the store is reset whatever the answer |
| ClientApi.ApiClient.CreateTrip | frontend/src/api/trip.service.ts:6-13 | posts the trip to `/trips`; any failure is SERVER |
| ClientApi.ApiClient.FindTripsByUserId | frontend/src/api/trip.service.ts:15-22 | gets `/trips`; any failure is SERVER |
| ClientApi.ApiClient.CreateTripCities | frontend/src/api/trip.service.ts:38-45 | posts `{citiesId}` to the trip's cities path; any failure is SERVER |
| ClientApi.ApiClient.FindCitiesByName | frontend/src/api/cities.service.ts:3-10 | gets the cities path; any failure is SERVER |
| FormErrors.Blank | frontend/src/pages/auth/Login.tsx:41 | the reset object maps every field to the empty message |
| FormErrors.Written | frontend/src/pages/auth/Login.tsx:61-64 | writing the issues in order leaves the store with its old keys plus the key of every issue |
| FormErrors.UnnamedFieldKept | frontend/src/pages/auth/Login.tsx:63 | writing issues leaves a field that no issue names as it was |
| FormErrors.LastIssueWins | frontend/src/pages/auth/Login.tsx:63 | a field named by issues shows the message of the last issue naming it |
| FormErrors.ErrorStore.Clear | frontend/src/pages/auth/Login.tsx:41 | the store setter merges the empty messages into the store |
| FormErrors.ErrorStore.WriteIssues | frontend/src/pages/auth/Login.tsx:61-64 | writes each issue's message under its key, in order |
| LoginPage.LoginIssues | frontend/src/pages/auth/Login.tsx:10-13 | no issue iff both fields are non-empty (no minimum length); each issue is its field's 'You must enter …' message |
| LoginPage.ServerMessage | frontend/src/pages/auth/Login.tsx:58-59 | 'Invalid credentials' iff the tag is CREDENTIALS, 'Server error' iff it is SERVER |
| LoginPage.LoginErrorMessages | frontend/src/pages/auth/Login.tsx:61-64 | after a refused submit each field shows its own required message, or nothing |
| LoginPage.InvalidCredentialsNeverShown | frontend/src/pages/auth/Login.tsx:59 | the page never shows 'Invalid credentials' |
| LoginPage.WrongPasswordShowsServerError | frontend/src/pages/auth/Login.tsx:58 | a wrong password, answered 400, shows 'Server error' |
| LoginPage.Login.constructor | frontend/src/pages/auth/Login.tsx:24-36 | the form, its errors and the signals start empty |
| LoginPage.Login.HandleLogin | frontend/src/pages/auth/Login.tsx:38-66 | sets the device id, resets the field errors and the server error, then either writes each issue under its field or calls `loginUser`; on success the store takes the answer's session and the page goes to `/`; on failure the tag's message is shown |
| RegisterPage.FieldIssues | frontend/src/pages/auth/Register.tsx:9-18 | no issue iff the value has at least 4 UTF-16 code units; an empty value yields both the required and the length issue |
| RegisterPage.RegisterIssues | frontend/src/pages/auth/Register.tsx:8-19 | no issue iff both fields have at least 4 code units |
| RegisterPage.RegisterErrorMessages | frontend/src/pages/auth/Register.tsx:50-52 | a field shorter than 4 code units, even an empty one, shows 'You must enter 4 characters at least'; a longer one shows nothing |
| RegisterPage.TakenUsernameTagNeverMatches | frontend/src/pages/auth/Register.tsx:47 | no outcome of `registerUser` carries the tag `USERNAME_EXISTS` the page checks for |
| RegisterPage.AfterOutcome | frontend/src/pages/auth/Register.tsx:47 | only the tag `USERNAME_EXISTS` writes 'This username already exists' under the username |
| RegisterPage.TakenUsernameShowsServerError | frontend/src/pages/auth/Register.tsx:46-47 | a taken username, answered 400, shows 'Server error' and no username message |
| RegisterPage.Register.constructor | frontend/src/pages/auth/Register.tsx:28-31 | the form, its errors and the signals start empty |
| RegisterPage.Register.HandleRegister | frontend/src/pages/auth/Register.tsx:33-54 | resets only the field errors (an earlier 'Server error' stays); writes the issues (lengths in code units), or calls `registerUser` and goes to `/login` on success, shows 'Server error' for SERVER |
| TripCreateModal.FieldIssues | frontend/src/components/TripCreateModal.tsx:24-30 | no issue iff the title has at least 4 UTF-16 code units, the description is non-empty, the status is one of the four and both dates are ISO; every issue names a form field |
| TripCreateModal.OrderIssues | frontend/src/components/TripCreateModal.tsx:31-34 | with a known status the order check runs even when a field rule failed, and yields the 'End date must be after start' issue on `endDate` exactly when the dates are not both ISO with the end after the start |
| TripCreateModal.CreateTripIssues | frontend/src/components/TripCreateModal.tsx:23-35 | no issue iff the field rules hold and the end date is after the start; a date-order failure alone yields one issue on `endDate` |
| TripCreateModal.EndDateShowsOrderMessage | frontend/src/components/TripCreateModal.tsx:31-57 | with a known status and dates out of order, `endDate` shows the order message, overwriting an 'Invalid date' there |
| TripCreateModal.BlankFormIssues | frontend/src/components/TripCreateModal.tsx:23-35 | a form left blank but for a known status gets six issues in order: both title issues, the description, the start date's format, the end date's format and then its order |
| TripCreateModal.BlankFormTitleMessage | frontend/src/components/TripCreateModal.tsx:25 | on such a form the title shows 'Min 4 chars', the later of its two issues |
| TripCreateModal.BlankFormDescriptionAndStatusMessages | frontend/src/components/TripCreateModal.tsx:26-27 | on such a form the description shows 'Description required' and the status nothing |
| TripCreateModal.BlankFormDateMessages | frontend/src/components/TripCreateModal.tsx:28-34 | on such a form the start date shows 'Invalid date' and the end date the order message, which overwrites its 'Invalid date' |
| TripCreateModal.EmptyFormMessages | frontend/src/components/TripCreateModal.tsx:40-58 | the empty form shows 'Min 4 chars', 'Description required', 'Invalid date' under the start date, the order message under the end date, and nothing under the status |
| TripCreateModal.OrderCheckAgrees | frontend/src/components/TripCreateModal.tsx:31-34 | the client runs the date order check on exactly the forms on which the server runs it on the same data |
| TripCreateModal.ClientAcceptedWithinCapIsServerAccepted | frontend/src/components/TripCreateModal.tsx:23-35 | a form the client accepts, with title and description within 250 code units, is accepted by the server as the same trip |
| TripCreateModal.ServerAcceptedDescribedIsClientAccepted | frontend/src/components/TripCreateModal.tsx:23-35 | a form the server accepts is accepted by the client unless its description is empty |
| TripCreateModal.DescriptionRequiredOnlyOnClient | frontend/src/components/TripCreateModal.tsx:26 | an empty description is refused by the client, while the server judges it as a missing one |
| TripCreateModal.TitleCapOnlyOnServer | frontend/src/components/TripCreateModal.tsx:25 | a title over 250 code units is refused by the server, while the client judges it as it judges any title of 4 or more units |
| TripCreateModal.TripPath | frontend/src/components/TripCreateModal.tsx:54 | the path is `/trips/` followed by the created id, which reads back as that id |
| TripCreateModal.TripCreate.constructor | frontend/src/components/TripCreateModal.tsx:39-44 | the form starts empty with status WISHLIST, and every error is empty |
| TripCreateModal.TripCreate.HandleTripCreate | frontend/src/components/TripCreateModal.tsx:46-60 | clears every error, then writes the issues (the date order issue included whenever the status is known), or calls `createTrip` and on success goes to the new trip's page |
| AddCitiesModal.Ids | frontend/src/components/AddCitiesModal.tsx:60 | the ids of the selected cities, in selection order |
| AddCitiesModal.Without | frontend/src/components/AddCitiesModal.tsx:52 | keeps exactly the cities with another id, in order, each as many times as it occurred |
| AddCitiesModal.WithoutKeepsDistinct | frontend/src/components/AddCitiesModal.tsx:51-53 | removing a city keeps the selection free of repeated ids |
| AddCitiesModal.DistinctIdsSendDistinct | frontend/src/components/AddCitiesModal.tsx:60-62 | a selection without repeated ids sends distinct ids |
| AddCitiesModal.Selected | frontend/src/components/AddCitiesModal.tsx:43-49 | a city whose id is already selected changes nothing; a new one is appended at the end; ids stay distinct |
| AddCitiesModal.AddCities.constructor | frontend/src/components/AddCitiesModal.tsx:21-26 | the query is empty, the suggestions null, nothing selected, no error |
| AddCitiesModal.AddCities.SelectCity | frontend/src/components/AddCitiesModal.tsx:43-49 | the selection becomes `Selected`; a new city also clears the query and the suggestions |
| AddCitiesModal.AddCities.RemoveSelectedCity | frontend/src/components/AddCitiesModal.tsx:51-53 | the selection becomes `Without` of the id, nothing else changes |
| AddCitiesModal.AddCities.HandleSubmit | frontend/src/components/AddCitiesModal.tsx:55-74 | an empty selection does nothing; otherwise the distinct ids are sent in order; a failure shows the error and keeps the modal open; a success runs `onSuccess` then `onClose` |
| AddCitiesModal.AddCities.QueryEffect | frontend/src/components/AddCitiesModal.tsx:28-41 | an empty query sets the suggestions to null without a request; otherwise they become the cities the search returns |
| TripsPage.LowerChar | frontend/src/pages/trips/Trips.tsx:16 | an upper-case ASCII letter becomes its lower-case form, anything else is kept, and the result is never upper case |
| TripsPage.Lower | frontend/src/pages/trips/Trips.tsx:16 | lowers each character in place |
| TripsPage.LowerIdempotent | frontend/src/pages/trips/Trips.tsx:16 | lowering twice is lowering once |
| TripsPage.DisplayTrips | frontend/src/pages/trips/Trips.tsx:15-23 | a trip is shown iff (the query is empty or its lowered title starts with the lowered query) and (no status is chosen or it has that status); the shown list is an order-preserving sublist holding each shown trip as many times as it was loaded |
| TripsPage.NoFilterShowsAll | frontend/src/pages/trips/Trips.tsx:19-20 | an empty query with no status shows the whole list |
| TripsPage.SearchIgnoresCase | frontend/src/pages/trips/Trips.tsx:16-19 | the query's case does not change what is shown |
| TripsPage.SameFilterSameList | frontend/src/pages/trips/Trips.tsx:16-19 | two queries that lower to the same string show the same list |
| TripsPage.Toggled | frontend/src/pages/trips/Trips.tsx:69 | clicking the active status clears the filter; clicking another selects it |
| TripsPage.TripsOf | frontend/src/pages/trips/Trips.tsx:28-30 | a list answer gives its trips; only a list answer gives any trips |
| TripsPage.Trips.constructor | frontend/src/pages/trips/Trips.tsx:8-13 | the list is empty, no filter, loading |
| TripsPage.Trips.ToggleStatus | frontend/src/pages/trips/Trips.tsx:69 | the filter becomes `Toggled`, nothing else changes |
| TripsPage.Trips.OnMount | frontend/src/pages/trips/Trips.tsx:25-38 | a successful load fills the list; a failed one shows the error and keeps the list; loading ends either way |
| DaysBetweenDates.DaysBetween | frontend/src/utils/daysBetweenDates.ts:1-7 | the result is the number of whole days, rounded down: its days fit the difference and one more does not |
| DaysBetweenDates.FloorUnique | frontend/src/utils/daysBetweenDates.ts:6 | only one number of days fits a difference that way |
| DaysBetweenDates.SameInstantIsZero | frontend/src/utils/daysBetweenDates.ts:5-6 | equal instants are 0 days apart |
| DaysBetweenDates.OneMillisecondBackIsMinusOne | frontend/src/utils/daysBetweenDates.ts:6 | an end 1 ms before the start gives -1: rounding is toward minus infinity |
| DaysBetweenDates.ShiftByWholeDays | frontend/src/utils/daysBetweenDates.ts:2-6 | moving the end by k whole days adds exactly k |
| StatusColor.GetStatusColor | frontend/src/utils/statusColor.ts:1-12 | a colour is returned iff the string is one of the four statuses; any other string gives `undefined` |
| StatusColor.EveryStatusColored | frontend/src/utils/statusColor.ts:3-10 | WISHLIST is pink, PLANNED purple, ORGANIZED amber, COMPLETED emerald |
| StatusColor.ColorsDistinct | frontend/src/utils/statusColor.ts:3-10 | different statuses get different colours |

## Left out

- TripSchema.CreateTripCityBody, TripRoutes.AddCitiesSpec, ClientApi.ApiClient.CreateTripCities: city ids are integers. `v.number()` also accepts fractional numbers, which the handler would pass to the integer city key; what the database does with them is not modelled.
- Cookie signing and the cookie's attributes (`secure`, `httpOnly`, `sameSite`, `path`, `maxAge`): the cookie is one optional token. A cookie whose signature fails reads as missing.
- Password and token hashing is injective and unsalted in the model. Salts and the hash format are not modelled.
- The exact bodies of 500 answers and the `error` objects they carry are not modelled. Database failures are not modelled either: lost connections, and every constraint error except the `refresh_tokens` unique index, the `trip_cities` keys that `TripRoutes.InsertLinks` checks, and the `trips.user_id` key that `TripRoutes.CreateTripSpec` checks.
- AuthService.Insert, AuthService.Upsert, AuthService.RefreshTokenTable.CreateRefreshToken, AuthService.RefreshTokenTable.CreateOrUpdateRefreshToken: the `refresh_tokens.user_id` foreign key is not checked, so a write for a user id with no user succeeds in the model, while the database throws. The only handler that inserts, login, upserts for a user it has just read from the users table, and `AuthService.WritesKeepReferences` proves that such a write keeps every row pointing at an existing user.
- `Number(...)` on a route parameter is modelled for strings of decimal digits only. Signs, decimals, exponents, whitespace and hexadecimal are read as `NaN`.
- TripsPage.LowerChar, TripsPage.Lower: lowercasing covers the ASCII letters only, not Unicode case mapping.
- IsoDate.DatesOrdered: a string outside the `YYYY-MM-DD` format reads as an invalid date. The runtime's `Date` also parses some other formats, such as `2024/01/05`; for those the order issue may differ when the field already has an 'Invalid date' issue.
- IsoDate.DayNumber: every month counts 31 days. `isoDate` accepts a date such as 2024-02-30, which the runtime's `Date` either rolls over into the next month or reads as NaN; the model orders it before 2024-03-01 instead.
- JsText.Utf16Length: a string is a sequence of Unicode scalar values, so a lone surrogate, which a JavaScript string may hold, cannot be written.
- Dates are integer milliseconds or `YYYY-MM-DD` strings. Time zones, times of day and floating-point rounding are not modelled; an invalid date only ever appears as the failed comparison of `IsoDate.DatesOrdered`.
- Concurrency is not modelled: parallel refreshes racing on the token table, and simultaneous 401s each starting a refresh. The model runs one request at a time.
- Activities, countries and the city catalogue appear only through their keys and constraints.
- A success body of the wrong shape is not modelled. `ClientApi.SessionOf` gives the signed-out session for a non-session body, `TripsPage.TripsOf` gives no trips for a non-list, and `AddCitiesModal.AddCities.QueryEffect` gives null for a non-list.
- TripsPage.Trips.OnMount: the `catch` branch ('Unexpected error') is not modelled, because `findTripsByUserId` catches every error itself and the branch cannot run.
- AddCitiesModal.AddCities.QueryEffect: the `catch` branch and its `console.error` are not modelled; the helper catches every error itself.
- Trip detail, trip cards, the navigation bar, the layout, the private route and the router are not modelled. Browser navigation is recorded as the path the page was sent to.
- The user and city CRUD routes, the user schema and the data-loading script are not part of this model.
- `getDeviceId()` is the client's constant `deviceId`. How it is generated and stored is not modelled.
- The server, seen from the client, is a fixed function from a request to an answer, so it keeps no state between the calls of one exchange. The server's own state is modelled by `AuthRoutes.AuthServer` and `TripRoutes.TripServer`.
