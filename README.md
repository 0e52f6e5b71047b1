# Authentication core of wealth-repo, modelled in Dafny

This project models the authentication core of an Express/MongoDB back end. It covers:

- login by email or by mobile, and admin login;
- the registration flow, in which an invited email accepts its invitation and anyone else gets an OTP carried in a signed payload token;
- email verification, which creates the account;
- the password-reset flow: forgot password, OTP check, reset with a single-use stored token;
- session refresh;
- the JWT helpers of the token service;
- the user lookups these operations issue;
- the two error middlewares that turn anything thrown into an HTTP response.

## Modules

- **Common**: `Option` and `Result`. Also JavaScript truthiness of optional strings (`Present`).
- **ApiErrors**: HTTP status constants, the message catalogue and `ApiError`. `Thrown` stands for anything a handler throws: an `ApiError`, or any other error with an optional `statusCode`.
- **Jwt**: a token is either a signed payload together with its secret, or malformed text.
  - Verification succeeds only with the signing secret, and only while `now < exp`.
  - Time is a parameter that counts unix seconds.
- **TokenService**: `generateToken`, `verifyAccessToken`, `verifyRefreshToken`, `generateAuthTokens` and `generatePayloadToken`. The configuration constants (secrets and lifetimes) are a `Config` value.
- **Users**: user records and the collection.
  - `findOne` returns the first document, in insertion order, that matches a query. Ids are handed out in increasing order.
  - `UserStore` is the mutable collection that `createUser` and `updateUserById` change in place. Pure queries read its `Snapshot()`.
- **UserService**: `getUserByEmailOrMobile` builds its `$or` list step by step; `getUserByEmail`, `getUserByMobile` and `getUserById`.
- **AuthService**: every exported operation of the authentication service.
  - Read-only guard chains are functions over a snapshot.
  - Operations that write to the collection are methods on `UserStore`.
  - Each error is the exact status and message the service throws.
  - The three entry points that issue a reset token are modelled twice. The `AsWritten` member follows the code, which calls a helper the token service does not export. The corrected member uses the helper the code evidently intends (see Findings).
- **AuthController**: `register` and `login`.
- **ErrorMiddleware**: `errorConverter`, `errorHandler`, and their composition `Respond`.

The following become parameters:

- the OTP that the random generator draws;
- the current time;
- the admin setting `autoApproved`;
- the deployment environment name;
- the password comparison. It is an uninterpreted function of the stored and the candidate password.

Deliveries of an OTP by SMS or email are returned as values rather than performed.

## Model

| member | source | states |
|---|---|---|
| Jwt.SignThenVerify | src/api/services/token.service.js:15-21 | verifying a signed token gives back its claims, with `exp` set from `expiresIn` on a payload without one, exactly when the key is the signing secret and the token is still live |
| TokenService.GenerateToken | src/api/services/token.service.js:15-21 | the token is signed with the access secret unless another secret is given; `exp` is set only when `expiresIn` is given, for a payload without `exp` of its own |
| TokenService.VerifyAccessToken | src/api/services/token.service.js:28-36 | success exactly when the token verifies with the access secret (or the given one), returning its payload; every failure is 401 "Session has been expired" |
| TokenService.VerifyRefreshToken | src/api/services/token.service.js:43-51 | the same, with the refresh secret as default |
| TokenService.GenerateAuthTokens | src/api/services/token.service.js:58-79 | both tokens carry `{sub: userId, role}`; the access token is signed with the access secret and its lifetime, the refresh token with the refresh secret and its lifetime |
| TokenService.AuthTokensVerify | src/api/services/token.service.js:58-79 | each token of a pair verifies with its own helper exactly until its expiry and yields the user id; with distinct secrets neither is accepted in place of the other |
| TokenService.GeneratePayloadToken | src/api/services/token.service.js:86-92 | `exp` is written into the caller's payload as now plus the configured minutes, and that stamped payload is signed with the access secret |
| TokenService.PayloadTokenRoundTrip | src/api/services/token.service.js:86-92 | a payload token verifies as an access token exactly until its expiry and gives back the stamped payload |
| Users.FirstFrom | src/api/services/user.service.js:21 | the result is the lowest id in the range whose record matches; none means no record in the range matches |
| Users.Lookup | src/api/services/user.service.js:21 | `findOne` returns a stored document that matches, and no document with a lower id matches; in a well-formed collection none means nothing matches |
| Users.LookupAfterUpdate | src/api/services/auth.service.js:355-362 | rewriting the found document with one that still matches leaves the same query finding that id with the new contents |
| Users.LookupAfterInsert | src/api/services/auth.service.js:339 | after inserting a matching document the query finds a document |
| Users.UserStore.CreateUser | src/api/services/auth.service.js:339 | the new document gets a fresh id (the next one), everything else is unchanged, and the collection stays well-formed |
| Users.UserStore.UpdateUserById | src/api/services/auth.service.js:373-375 | exactly the named document is replaced |
| UserService.BuildOrQuery | src/api/services/user.service.js:10-16 | the `$or` list holds the mobile clause iff the mobile is truthy and the email clause iff the email is truthy, mobile first, nothing else |
| UserService.GetUserByEmailOrMobile | src/api/services/user.service.js:9-22 | the result is the first document whose mobile equals the truthy mobile or whose email equals the truthy email; none means no document has either |
| UserService.GetUserByEmail | src/api/services/user.service.js:29-35 | a found document has exactly that email; none iff no document has it |
| UserService.GetUserByMobile | src/api/services/auth.service.js:19 | a found document has exactly that mobile; none iff no document has it |
| UserService.GetUserById | src/api/services/auth.service.js:244 | found iff the id is present and stored, and then it is that document |
| ErrorMiddleware.ErrorConverter | src/api/middleware/error.js:5-15 | an `ApiError` passes unchanged; anything else becomes non-operational, 400 if it has a truthy `statusCode` and 500 otherwise, keeping its stack and its message or else the status name |
| ErrorMiddleware.ErrorHandler | src/api/middleware/error.js:18-38 | the body code equals the sent status; a non-operational error in production becomes 500 "Internal Server Error", otherwise status and message pass through; the stack is sent iff the environment is development |
| ErrorMiddleware.ServiceErrorsReachClient | src/api/middleware/error.js:5-38 | an error raised by a service reaches the client with its own status and message in every environment |
| ErrorMiddleware.FaultsMaskedInProduction | src/api/middleware/error.js:5-38 | in production any other thrown error reaches the client as a bare 500 without message or stack |
| AuthService.LoginUserWithMobileAndPassword | src/api/services/auth.service.js:17-41 | unknown mobile 401, blocked 406, unverified mobile 401, wrong password 401, checked in that order; success iff all pass, returning the user found by mobile |
| AuthService.LoginUserWithEmailAndPassword | src/api/services/auth.service.js:49-73 | the same chain by email, with the email messages |
| AuthService.AdminLoginUserWithEmailAndPassword | src/api/services/auth.service.js:81-92 | success iff a user with the email exists, the password matches and the role is admin; every failure is the same 401 |
| AuthService.IssueResetToken | src/api/services/auth.service.js:127-129 | the reset token is the payload stamped with the payload-token expiry and signed with the access secret, so the access-token check accepts it exactly until then |
| AuthService.ForgotPassword | src/api/services/auth.service.js:100-131 | 404 if nobody has the email or mobile, 400 if the account is not a user account; otherwise a token for that user, with OTP and mobile when a mobile is given and the email otherwise, and the SMS is sent iff a mobile was given |
| AuthService.ForgotPasswordAsWritten | src/api/services/auth.service.js:127-130 | as written the operation never succeeds: past the guards the call of the missing helper throws, after the SMS went out, and production answers 500 |
| AuthService.AdminForgotPassword | src/api/services/auth.service.js:138-157 | with the corrected helper: 404 if no user has the email, 401 if it is not an admin; otherwise a reset token whose payload is only `sub` |
| AuthService.AdminForgotPasswordAsWritten | src/api/services/auth.service.js:138-157 | as written the operation never succeeds: the same 404 and 401 guards, and past them the call of the missing helper throws, which production answers with 500 |
| AuthService.AdminForgotPasswordDiffersOnlyOnSuccess | src/api/services/auth.service.js:153-155 | the code as written and the corrected operation give the same guard errors, and the code as written throws exactly where the corrected one issues a token |
| AuthService.VerifyOtp | src/api/services/auth.service.js:165-172 | success iff the two OTPs are equal, otherwise 400 incorrect OTP |
| AuthService.EmbeddedOtpIsChecked | src/api/services/auth.service.js:165-172 | an OTP carried in a live payload token is accepted for the embedded code and no other |
| AuthService.CheckUserWithEmailOrMobile | src/api/services/auth.service.js:180-195 | true iff no document has the truthy email or mobile; otherwise 409 |
| AuthService.CheckIfUserIsInvited | src/api/services/auth.service.js:203-230 | 404 unknown email, 400 not invited, 400 already accepted, in that order; success iff invited and not yet accepted |
| AuthService.AcceptedInvitation | src/api/services/auth.service.js:355-362 | email, password and mobile come from the body, the account is email-verified and accepted at `now`, and every other field is kept |
| AuthService.AcceptInvitation | src/api/services/auth.service.js:353-363 | only the named document changes, to its accepted form |
| AuthService.InvitationAcceptedOnce | src/api/services/auth.service.js:221-227 | after an invitation is accepted under the invited email, the invite check for that email fails with 400 already accepted |
| AuthService.RefreshAuth | src/api/services/auth.service.js:237-252 | success iff the refresh token verifies and its subject exists, giving a fresh pair for that user with the default role; every failure is 401 "Please authenticate" |
| AuthService.ResetPasswordGuard | src/api/services/auth.service.js:260-272 | a token that fails verification is refused as expired session, an unknown subject gets 400 invalid link, and a token other than the stored one gets 400 expired link; success returns the stored user |
| AuthService.UpdateTokenInDB | src/api/services/auth.service.js:371-376 | only the named document's token changes |
| AuthService.ResetPassword | src/api/services/auth.service.js:260-277 | outcome as the guard; on success the user's password is the new one and its stored token is cleared, and nothing else changes; on failure nothing changes |
| AuthService.ResetTokenIsSingleUse | src/api/services/auth.service.js:269-275 | after a successful reset the same token is refused, with 400 expired link while it lives and the session error after |
| AuthService.StoredResetTokenResets | src/api/services/auth.service.js:260-272 | a reset token stored as the user's token is accepted by the reset guard until it expires |
| AuthService.VerifyResetOtp | src/api/services/auth.service.js:285-305 | with the corrected helper: session error for a bad token, 400 "Incorrect otp" for a mismatched OTP, 400 "Invalid Request" for an unknown subject; success gives a reset token whose payload is only `sub` |
| AuthService.VerifyResetOtpAsWritten | src/api/services/auth.service.js:285-305 | as written the operation never succeeds: the same session, OTP and user checks, and past them the call of the missing helper throws, which production answers with 500 |
| AuthService.VerifyResetOtpDiffersOnlyOnSuccess | src/api/services/auth.service.js:298-300 | the code as written and the corrected operation agree on every check, and the code as written throws exactly where the corrected one issues a reset token |
| AuthService.OtpCheckedBeforeLookup | src/api/services/auth.service.js:289-296 | with a mismatched OTP the outcome does not depend on the collection |
| AuthService.VerifyEmailGuard | src/api/services/auth.service.js:312-322 | success iff the token verifies, carries a truthy email and no document has that email, returning its payload; otherwise the session error or 400 expired link |
| AuthService.VerifiedAccount | src/api/services/auth.service.js:325-337 | the new account takes email and password from the payload and is email-verified; it is approved (status 2) iff auto-approval is on, with all else default |
| AuthService.VerifyEmail | src/api/services/auth.service.js:312-345 | on success exactly one new document, the verified account, is added under a fresh id; on failure nothing changes |
| AuthService.VerifyEmailReplayFails | src/api/services/auth.service.js:317-322 | once the account exists, the same verification token is refused, with 400 expired link while it lives and the session error after |
| AuthController.Register | src/api/controllers/auth.controller.js:11-58 | a truthy email already present goes through the invite check and, if it passes, accepts that user's invitation; otherwise 409 if the email or mobile is taken, else a payload token with the OTP, sent by SMS iff a mobile is given and by email otherwise |
| AuthController.RegistrationTokenVerifiesEmail | src/api/controllers/auth.controller.js:31-32 | a registration token issued for a new email passes the email-verification guard while it lives and gives back the registered body |
| AuthController.RemoveExtraFields | src/api/controllers/auth.controller.js:85 | the user keeps its id and all fields but password and stored token, which are removed |
| AuthController.Login | src/api/controllers/auth.controller.js:60-93 | with a truthy email it fails with the email login's error, else with the mobile login's error; success answers the user that login found, stripped, and a session pair for its id with the default role |
| AuthController.LoginThenRefresh | src/api/controllers/auth.controller.js:75 | the refresh token of a login renews the session for the same user until it expires |

## Left out

- Logging, `catchAsync` and the asynchronous execution of every operation are not modelled. Each operation is one atomic step on the collection.
- Concurrent requests are not modelled.
- Hashing is not modelled. The stored password is the value the service writes; hashing on save and `bcrypt.compare` are covered by the password-comparison parameter.
- OTP generation, the SMS and email services, and `adminService.getSetting` are not modelled. They are parameters, or returned `Delivery` values.
- `sendInvitationNotification` (auth.service.js:384-411) is not modelled. It calls the notification service, which is not part of this model, and the inviter's id is not a field of the record.
- `updateDeviceToken` (auth.controller.js:83) is not modelled. user.service.js does not define it, so login writes nothing to the collection in this model.
- `getUserByMobile`, `getUserById`, `updateUserById`, `createUser` and `removeExtraFields` are not in user.service.js, and no file shown defines them.
  - They are modelled as exact lookups and as a whole-record write.
  - RemoveExtraFields: its behaviour is assumed. It drops the password and the stored token and keeps every other field.
  - `UpdateUserById` requires the id to exist; the not-found case of the repository is not modelled.
- Register and Login: the controller uses identifiers that it does not import or define.
  - `register` uses `userService`, `tokenService`, `otpService`, `emailService` and `acceptUserInvitation`.
  - `login` uses `tokenService` (auth.controller.js:75) and `userService` (auth.controller.js:83 and 85).
  - The model makes the evidently intended calls.
  - The invitation branch is `AcceptInvitation` on the user that passed the invite check.
  - The response payloads are not modelled.
- GenerateToken: for a payload that already carries `exp`, the JWT library refuses an `expiresIn` option and throws. That refusal is not modelled. Instead `Sign` and `GenerateToken` require that no `exp` is present when `expiresIn` is given. Every caller in the core meets this: the session payload has no `exp`, and payload tokens are signed without `expiresIn`.
- The access-token and refresh-token lifetimes are modelled as seconds. The library's duration strings are not modelled.
- The `iat` claim is not modelled.
- The `dayjs` calendar arithmetic is not modelled; the payload-token lifetime is minutes times 60 seconds.
- A query value that is `undefined` is modelled as `None` and matches only an absent field. MongoDB's handling of `undefined` in a query, and its refusal of an empty `$or`, are not modelled: with neither value given the model finds nobody.
- String normalisation is not modelled: the schema's lowercasing and trimming of emails, and the numeric type of `mobile`. Values compare exactly.
- VerifyOtp: the loose `==` and `!=` comparisons between a numeric and a string OTP are not modelled. The model compares optional integers exactly.
- The schema shown declares only name, email, mobile and password. Role, the verification flags, the invitation fields, the stored token and the approval status are modelled as stored fields, with role "user" for new accounts.
- ApiError stack traces are not modelled: service errors carry an empty stack.
- `forgotPassword` leaves `user.token` unchanged, as the code does; storing the token is left to the caller through `updateTokenInDB` (`AuthService.StoredResetTokenResets`).

## Findings

| source | as written | input that shows it | evidently intended | confidence | as-written member | corrected member |
|---|---|---|---|---|---|---|
| src/api/services/auth.service.js:127-129 | `forgotPassword` calls `tokenService.generateResetPasswordToken`. token.service.js neither defines nor exports it (token.service.js:94-100), so the call throws a TypeError, which production reports as a bare 500 | `forgotPassword` with the email of an existing account whose role is "user" | a reset token, signed with the access secret, that `verifyAccessToken` accepts in `resetPassword` until it expires | not executed | AuthService.ForgotPasswordAsWritten | AuthService.ForgotPassword |
| src/api/services/auth.service.js:153-155 | `adminForgotPassword` calls the same missing helper, so it throws past its guards | `adminForgotPassword` with the email of an existing account whose role is "admin" | the same reset token, whose payload is only `sub` | not executed | AuthService.AdminForgotPasswordAsWritten | AuthService.AdminForgotPassword |
| src/api/services/auth.service.js:298-300 | `verifyResetOtp` calls the same missing helper, so it throws once the OTP and the user check pass | a live reset token carrying OTP 1234, its user stored, and OTP 1234 submitted | a fresh reset token, whose payload is only `sub` | not executed | AuthService.VerifyResetOtpAsWritten | AuthService.VerifyResetOtp |
