/** The authentication service: guard chains over one looked-up user, and the
    operations that change the user collection. */
module AuthService {
  import opened Common
  import opened ApiErrors
  import opened Jwt
  import opened TokenService
  import opened Users
  import opened UserService
  import opened ErrorMiddleware

  /** `user.isPasswordMatch(candidate)`: a comparison of a candidate password with
      the stored (hashed) one, left uninterpreted. */
  type PasswordCheck = (Option<string>, string) -> bool

  /** A one-time password handed to an external delivery service. */
  datatype Delivery =
    | ForgotPasswordSms(mobile: string, otp: Otp)
    | VerificationSms(mobile: string, otp: Otp)
    | RegistrationEmail(email: Option<string>, otp: Otp)

  /** `{resetPasswordToken, userId}`. */
  datatype ResetGrant = ResetGrant(resetPasswordToken: Token, userId: UserId)

  /** `{resetToken, userId}`. */
  datatype ResetOtpGrant = ResetOtpGrant(resetToken: Token, userId: UserId)

  const PLEASE_AUTHENTICATE: ApiError := Raise(UNAUTHORIZED, Text("Please authenticate"))

  // ---------------------------------------------------------------- login

  /** `loginUserWithMobileAndPassword`. */
  function LoginUserWithMobileAndPassword(db: Db, mobile: Option<string>, password: string,
                                          isPasswordMatch: PasswordCheck): (r: Result<User, ApiError>)
    ensures GetUserByMobile(db, mobile).None? ==> r == Failure(Raise(UNAUTHORIZED, IncorrectMobile))
    ensures var found := GetUserByMobile(db, mobile);
      found.Some? ==> var rec := found.value.record;
        && (rec.isBlocked ==> r == Failure(Raise(NOT_ACCEPTABLE, BlockedUser)))
        && (!rec.isBlocked && !rec.isMobileVerified ==> r == Failure(Raise(UNAUTHORIZED, UnverifiedMobile)))
        && (!rec.isBlocked && rec.isMobileVerified && !isPasswordMatch(rec.password, password) ==>
              r == Failure(Raise(UNAUTHORIZED, IncorrectPassword)))
    ensures r.Success? <==> var found := GetUserByMobile(db, mobile);
      found.Some? && !found.value.record.isBlocked && found.value.record.isMobileVerified
      && isPasswordMatch(found.value.record.password, password)
    ensures r.Success? ==> GetUserByMobile(db, mobile) == Some(r.value)
  {
    match GetUserByMobile(db, mobile)
    case None => Failure(Raise(UNAUTHORIZED, IncorrectMobile))
    case Some(user) =>
      if user.record.isBlocked then Failure(Raise(NOT_ACCEPTABLE, BlockedUser))
      else if !user.record.isMobileVerified then Failure(Raise(UNAUTHORIZED, UnverifiedMobile))
      else if !isPasswordMatch(user.record.password, password) then Failure(Raise(UNAUTHORIZED, IncorrectPassword))
      else Success(user)
  }

  /** `loginUserWithEmailAndPassword`. */
  function LoginUserWithEmailAndPassword(db: Db, email: Option<string>, password: string,
                                         isPasswordMatch: PasswordCheck): (r: Result<User, ApiError>)
    ensures GetUserByEmail(db, email).None? ==> r == Failure(Raise(UNAUTHORIZED, IncorrectEmail))
    ensures var found := GetUserByEmail(db, email);
      found.Some? ==> var rec := found.value.record;
        && (rec.isBlocked ==> r == Failure(Raise(NOT_ACCEPTABLE, BlockedUser)))
        && (!rec.isBlocked && !rec.isEmailVerified ==> r == Failure(Raise(UNAUTHORIZED, UnverifiedEmail)))
        && (!rec.isBlocked && rec.isEmailVerified && !isPasswordMatch(rec.password, password) ==>
              r == Failure(Raise(UNAUTHORIZED, IncorrectPassword)))
    ensures r.Success? <==> var found := GetUserByEmail(db, email);
      found.Some? && !found.value.record.isBlocked && found.value.record.isEmailVerified
      && isPasswordMatch(found.value.record.password, password)
    ensures r.Success? ==> GetUserByEmail(db, email) == Some(r.value)
  {
    match GetUserByEmail(db, email)
    case None => Failure(Raise(UNAUTHORIZED, IncorrectEmail))
    case Some(user) =>
      if user.record.isBlocked then Failure(Raise(NOT_ACCEPTABLE, BlockedUser))
      else if !user.record.isEmailVerified then Failure(Raise(UNAUTHORIZED, UnverifiedEmail))
      else if !isPasswordMatch(user.record.password, password) then Failure(Raise(UNAUTHORIZED, IncorrectPassword))
      else Success(user)
  }

  /** `adminLoginUserWithEmailAndPassword`: one error for every failure, and no
      blocked or verified check. */
  function AdminLoginUserWithEmailAndPassword(db: Db, email: Option<string>, password: string,
                                              isPasswordMatch: PasswordCheck): (r: Result<User, ApiError>)
    ensures r.Success? <==> var found := GetUserByEmail(db, email);
      found.Some? && isPasswordMatch(found.value.record.password, password) && found.value.record.role == "admin"
    ensures r.Success? ==> GetUserByEmail(db, email) == Some(r.value)
    ensures r.Failure? ==> r.error == Raise(UNAUTHORIZED, AdminLoginError)
  {
    match GetUserByEmail(db, email)
    case None => Failure(Raise(UNAUTHORIZED, AdminLoginError))
    case Some(user) =>
      if !isPasswordMatch(user.record.password, password) || !(user.record.role == "admin")
      then Failure(Raise(UNAUTHORIZED, AdminLoginError))
      else Success(user)
  }

  // ---------------------------------------------------------- reset tokens

  /** The helper the service calls to sign a reset token, as the service evidently
      intends it: a payload token, signed with the access secret, that
      `verifyAccessToken` (and so `resetPassword` and `verifyResetOtp`) accepts. */
  function IssueResetToken(cfg: Config, payload: Payload, now: int): (t: Token)
    ensures t == Signed(payload.(exp := Some(PayloadExpiry(cfg, now))), cfg.accessSecret)
    ensures forall at :: (VerifyAccessToken(cfg, t, at)
      == if at < PayloadExpiry(cfg, now) then Success(payload.(exp := Some(PayloadExpiry(cfg, now))))
         else Failure(SESSION_EXPIRED))
  {
    GeneratePayloadToken(cfg, payload, now).1
  }

  /** The thrown TypeError: `generateResetPasswordToken` is not among the token
      service's exports. */
  const MISSING_RESET_HELPER: Thrown :=
    Fault(None, Text("tokenService.generateResetPasswordToken is not a function"), "")

  /** The two guards of `forgotPassword` on the looked-up user. */
  function ResetCandidate(found: Option<User>): Result<User, ApiError> {
    match found
    case None => Failure(Raise(NOT_FOUND, NoUserFound))
    case Some(user) =>
      if user.record.role != "user" then Failure(Raise(BAD_REQUEST, InvalidUser)) else Success(user)
  }

  /** `forgotPassword(email, mobile)`, with the reset token issued by `IssueResetToken`. */
  method ForgotPassword(db: Db, cfg: Config, email: Option<string>, mobile: Option<string>, otp: Otp, now: int)
    returns (r: Result<ResetGrant, ApiError>, sent: Option<Delivery>)
    ensures var found := Lookup(db, Either(email, mobile));
      && (found.None? ==> r == Failure(Raise(NOT_FOUND, NoUserFound)))
      && (found.Some? && found.value.record.role != "user" ==> r == Failure(Raise(BAD_REQUEST, InvalidUser)))
      && (r.Success? <==> found.Some? && found.value.record.role == "user")
      && (r.Success? ==> r.value.userId == found.value.id)
    ensures r.Success? ==> var t := r.value.resetPasswordToken;
      && t.Signed? && t.secret == cfg.accessSecret
      && t.payload.sub == Some(r.value.userId) && t.payload.exp == Some(PayloadExpiry(cfg, now))
      && t.payload.role.None? && t.payload.password.None?
      && (Present(mobile) ==> t.payload.otp == Some(otp) && t.payload.mobile == mobile && t.payload.email.None?)
      && (!Present(mobile) ==> t.payload.email == email && t.payload.otp.None? && t.payload.mobile.None?)
    ensures sent.Some? <==> r.Success? && Present(mobile)
    ensures sent.Some? ==> sent.value == ForgotPasswordSms(mobile.value, otp)
  {
    var found := GetUserByEmailOrMobile(db, email, mobile);
    var candidate := ResetCandidate(found);
    if candidate.Failure? {
      return Failure(candidate.error), None;
    }
    var user := candidate.value;
    var payload := EmptyPayload.(sub := Some(user.id));
    sent := None;
    if Present(mobile) {
      sent := Some(ForgotPasswordSms(mobile.value, otp));
      payload := payload.(otp := Some(otp), mobile := mobile);
    } else {
      payload := payload.(email := email);
    }
    var resetPasswordToken := IssueResetToken(cfg, payload, now);
    r := Success(ResetGrant(resetPasswordToken, user.id));
  }

  /** `forgotPassword` as written: once both guards pass (and after the OTP went
      out on the mobile path) the call of the missing helper throws, so the
      operation never succeeds and, in production, the client gets a bare 500. */
  method ForgotPasswordAsWritten(db: Db, email: Option<string>, mobile: Option<string>, otp: Otp)
    returns (r: Result<ResetGrant, Thrown>, sent: Option<Delivery>)
    ensures r.Failure?
    ensures var found := Lookup(db, Either(email, mobile));
      && (found.None? ==> r.error == Api(Raise(NOT_FOUND, NoUserFound)) && sent.None?)
      && (found.Some? && found.value.record.role != "user" ==> r.error == Api(Raise(BAD_REQUEST, InvalidUser)) && sent.None?)
      && (found.Some? && found.value.record.role == "user" ==>
            && r.error == MISSING_RESET_HELPER
            && (sent.Some? <==> Present(mobile))
            && Respond(r.error, "production").status == INTERNAL_SERVER_ERROR)
  {
    var found := GetUserByEmailOrMobile(db, email, mobile);
    var candidate := ResetCandidate(found);
    if candidate.Failure? {
      return Failure(Api(candidate.error)), None;
    }
    sent := None;
    if Present(mobile) {
      sent := Some(ForgotPasswordSms(mobile.value, otp));
    }
    r := Failure(MISSING_RESET_HELPER);
  }

  /** `adminForgotPassword(email)`. */
  function AdminForgotPassword(db: Db, cfg: Config, email: Option<string>, now: int): (r: Result<ResetGrant, ApiError>)
    ensures GetUserByEmail(db, email).None? ==> r == Failure(Raise(NOT_FOUND, NoUserFound))
    ensures var found := GetUserByEmail(db, email);
      found.Some? && found.value.record.role != "admin" ==> r == Failure(Raise(UNAUTHORIZED, IncorrectEmail))
    ensures r.Success? <==> GetUserByEmail(db, email).Some? && GetUserByEmail(db, email).value.record.role == "admin"
    ensures r.Success? ==> (r.value.userId == GetUserByEmail(db, email).value.id
      && r.value.resetPasswordToken
         == Signed(EmptyPayload.(sub := Some(r.value.userId), exp := Some(PayloadExpiry(cfg, now))), cfg.accessSecret))
  {
    match GetUserByEmail(db, email)
    case None => Failure(Raise(NOT_FOUND, NoUserFound))
    case Some(user) =>
      if user.record.role != "admin" then Failure(Raise(UNAUTHORIZED, IncorrectEmail))
      else Success(ResetGrant(IssueResetToken(cfg, EmptyPayload.(sub := Some(user.id)), now), user.id))
  }

  /** `adminForgotPassword` as written: past both guards the call of the missing
      helper throws, so the operation never succeeds. */
  function AdminForgotPasswordAsWritten(db: Db, email: Option<string>): (r: Result<ResetGrant, Thrown>)
    ensures r.Failure?
    ensures GetUserByEmail(db, email).None? ==> r.error == Api(Raise(NOT_FOUND, NoUserFound))
    ensures var found := GetUserByEmail(db, email);
      found.Some? && found.value.record.role != "admin" ==> r.error == Api(Raise(UNAUTHORIZED, IncorrectEmail))
    ensures var found := GetUserByEmail(db, email);
      found.Some? && found.value.record.role == "admin" ==>
        r.error == MISSING_RESET_HELPER && Respond(r.error, "production").status == INTERNAL_SERVER_ERROR
  {
    match GetUserByEmail(db, email)
    case None => Failure(Api(Raise(NOT_FOUND, NoUserFound)))
    case Some(user) =>
      if user.record.role != "admin" then Failure(Api(Raise(UNAUTHORIZED, IncorrectEmail)))
      else Failure(MISSING_RESET_HELPER)
  }

  /** The code as written and the corrected operation agree on every guard error;
      exactly where the corrected one issues a token, the code as written throws. */
  lemma AdminForgotPasswordDiffersOnlyOnSuccess(db: Db, cfg: Config, email: Option<string>, now: int)
    ensures AdminForgotPasswordAsWritten(db, email)
      == match AdminForgotPassword(db, cfg, email, now)
         case Failure(e) => Failure(Api(e))
         case Success(_) => Failure(MISSING_RESET_HELPER)
  {
  }

  // ------------------------------------------------------------ OTP checks

  /** `verifyOtp(payloadOtp, otp)`. */
  function VerifyOtp(payloadOtp: Option<Otp>, otp: Option<Otp>): (r: Result<(), ApiError>)
    ensures r.Success? <==> payloadOtp == otp
    ensures r.Failure? ==> r.error == Raise(BAD_REQUEST, IncorrectOtp)
  {
    if payloadOtp == otp then Success(()) else Failure(Raise(BAD_REQUEST, IncorrectOtp))
  }

  /** An OTP embedded in a payload token is accepted, while the token lives, for
      the code that was embedded and for no other. */
  lemma EmbeddedOtpIsChecked(cfg: Config, body: Payload, code: Otp, now: int, at: int, submitted: Option<Otp>)
    requires at < PayloadExpiry(cfg, now)
    ensures var token := GeneratePayloadToken(cfg, body.(otp := Some(code)), now).1;
      VerifyAccessToken(cfg, token, at).Success?
      && (VerifyOtp(VerifyAccessToken(cfg, token, at).value.otp, submitted).Success? <==> submitted == Some(code))
  {
  }

  // --------------------------------------------------- existence and invites

  /** `checkUserWithEmailOrMobile(email, mobile)`: true, or 409 when any user has
      the supplied email or mobile. */
  method CheckUserWithEmailOrMobile(db: Db, email: Option<string>, mobile: Option<string>)
    returns (r: Result<bool, ApiError>)
    ensures r.Success? <==> Lookup(db, Either(email, mobile)).None?
    ensures r.Success? ==> r.value
    ensures r.Failure? ==> r.error == Raise(CONFLICT, UserAlreadyExist)
    ensures db.Valid() && r.Success? ==> forall id :: id in db.users ==> !Either(email, mobile)(db.users[id])
  {
    var user := GetUserByEmailOrMobile(db, email, mobile);
    if user.Some? {
      return Failure(Raise(CONFLICT, UserAlreadyExist));
    }
    r := Success(true);
  }

  /** `checkIfUserIsInvited({email})`. */
  function CheckIfUserIsInvited(db: Db, email: Option<string>): (r: Result<User, ApiError>)
    ensures GetUserByEmail(db, email).None? ==> r == Failure(Raise(NOT_FOUND, EmailNotInvited))
    ensures var found := GetUserByEmail(db, email);
      found.Some? ==>
        && (!found.value.record.invitedByEmail ==> r == Failure(Raise(BAD_REQUEST, EmailNotInvited)))
        && (found.value.record.invitedByEmail && found.value.record.invitationAccepted ==>
              r == Failure(Raise(BAD_REQUEST, InvitationAlreadyAccepted)))
    ensures r.Success? <==> var found := GetUserByEmail(db, email);
      found.Some? && found.value.record.invitedByEmail && !found.value.record.invitationAccepted
    ensures r.Success? ==> GetUserByEmail(db, email) == Some(r.value)
  {
    match GetUserByEmail(db, email)
    case None => Failure(Raise(NOT_FOUND, EmailNotInvited))
    case Some(user) =>
      if !user.record.invitedByEmail then Failure(Raise(BAD_REQUEST, EmailNotInvited))
      else if user.record.invitationAccepted then Failure(Raise(BAD_REQUEST, InvitationAlreadyAccepted))
      else Success(user)
  }

  /** The record after `acceptInvitation(userId, body)`: exactly the six fields. */
  function AcceptedInvitation(rec: UserRecord, body: Payload, now: int): (r: UserRecord)
    ensures r.email == body.email && r.password == body.password && r.mobile == body.mobile
    ensures r.isEmailVerified && r.invitationAccepted && r.invitationAcceptedOn == Some(now)
    ensures r.(email := rec.email, password := rec.password, mobile := rec.mobile,
               isEmailVerified := rec.isEmailVerified, invitationAccepted := rec.invitationAccepted,
               invitationAcceptedOn := rec.invitationAcceptedOn) == rec
  {
    rec.(email := body.email, password := body.password, mobile := body.mobile,
         isEmailVerified := true, invitationAccepted := true, invitationAcceptedOn := Some(now))
  }

  /** `acceptInvitation(userId, body)`, with `now` for `new Date()`. */
  method AcceptInvitation(store: UserStore, userId: UserId, body: Payload, now: int)
    requires store.Valid() && userId in store.users
    modifies store
    ensures store.Valid() && store.nextId == old(store.nextId)
    ensures store.users == old(store.users)[userId := AcceptedInvitation(old(store.users[userId]), body, now)]
  {
    store.UpdateUserById(userId, AcceptedInvitation(store.users[userId], body, now));
  }

  /** Invited, then accepted: once the invitation is accepted under the invited
      email, the invite check for that email fails. */
  lemma InvitationAcceptedOnce(db: Db, email: Option<string>, body: Payload, now: int)
    requires CheckIfUserIsInvited(db, email).Success?
    requires body.email == email
    ensures var u := CheckIfUserIsInvited(db, email).value;
      CheckIfUserIsInvited(db.(users := db.users[u.id := AcceptedInvitation(u.record, body, now)]), email)
        == Failure(Raise(BAD_REQUEST, InvitationAlreadyAccepted))
  {
    var u := CheckIfUserIsInvited(db, email).value;
    LookupAfterUpdate(db, EmailIs(email), u.id, AcceptedInvitation(u.record, body, now));
  }

  // ------------------------------------------------------------- sessions

  /** `refreshAuth(refreshToken)`: a fresh pair with the default role; every
      failure is the same 401. */
  function RefreshAuth(db: Db, cfg: Config, refreshToken: Token, now: int): (r: Result<AuthTokens, ApiError>)
    ensures r.Failure? ==> r.error == PLEASE_AUTHENTICATE
    ensures r.Success? <==> VerifyRefreshToken(cfg, refreshToken, now).Success?
                            && GetUserById(db, refreshToken.payload.sub).Some?
    ensures r.Success? ==> (refreshToken.payload.sub.Some?
      && r.value == GenerateAuthTokens(cfg, refreshToken.payload.sub.value, now, 1))
  {
    match VerifyRefreshToken(cfg, refreshToken, now)
    case Failure(_) => Failure(PLEASE_AUTHENTICATE)
    case Success(payload) =>
      match GetUserById(db, payload.sub)
      case None => Failure(PLEASE_AUTHENTICATE)
      case Some(user) => Success(GenerateAuthTokens(cfg, user.id, now))
  }

  // ------------------------------------------------------- password reset

  /** The checks of `resetPassword` before it writes anything. */
  function ResetPasswordGuard(db: Db, cfg: Config, resetPasswordToken: Token, now: int): (r: Result<User, ApiError>)
    ensures VerifyAccessToken(cfg, resetPasswordToken, now).Failure? ==> r == Failure(SESSION_EXPIRED)
    ensures VerifyAccessToken(cfg, resetPasswordToken, now).Success? ==>
      var found := GetUserById(db, resetPasswordToken.payload.sub);
      && (found.None? ==> r == Failure(Raise(BAD_REQUEST, InvalidLink)))
      && (found.Some? && found.value.record.token != Some(resetPasswordToken) ==>
            r == Failure(Raise(BAD_REQUEST, ExpiredLink)))
    ensures r.Success? <==> (VerifyAccessToken(cfg, resetPasswordToken, now).Success?
      && GetUserById(db, resetPasswordToken.payload.sub).Some?
      && GetUserById(db, resetPasswordToken.payload.sub).value.record.token == Some(resetPasswordToken))
    ensures r.Success? ==> (Some(r.value.id) == resetPasswordToken.payload.sub
      && r.value.id in db.users && db.users[r.value.id] == r.value.record)
  {
    match VerifyAccessToken(cfg, resetPasswordToken, now)
    case Failure(e) => Failure(e)
    case Success(payload) =>
      match GetUserById(db, payload.sub)
      case None => Failure(Raise(BAD_REQUEST, InvalidLink))
      case Some(user) =>
        if user.record.token.None? || user.record.token.value != resetPasswordToken
        then Failure(Raise(BAD_REQUEST, ExpiredLink))
        else Success(user)
  }

  /** The record after a successful reset: new password, stored token cleared. */
  function AfterReset(rec: UserRecord, newPassword: string): UserRecord {
    rec.(password := Some(newPassword), token := None)
  }

  /** `updateTokenInDB(userId, token)`; `None` stands for the empty string. */
  method UpdateTokenInDB(store: UserStore, userId: UserId, token: Option<Token>)
    requires store.Valid() && userId in store.users
    modifies store
    ensures store.Valid() && store.nextId == old(store.nextId)
    ensures store.users == old(store.users)[userId := old(store.users[userId]).(token := token)]
  {
    store.UpdateUserById(userId, store.users[userId].(token := token));
  }

  /** `resetPassword(resetPasswordToken, newPassword)`: the password update, then
      the token cleared; returns the user as it was read. */
  method ResetPassword(store: UserStore, cfg: Config, resetPasswordToken: Token, newPassword: string, now: int)
    returns (r: Result<User, ApiError>)
    requires store.Valid()
    modifies store
    ensures store.Valid() && store.nextId == old(store.nextId)
    ensures r == ResetPasswordGuard(old(store.Snapshot()), cfg, resetPasswordToken, now)
    ensures r.Failure? ==> store.users == old(store.users)
    ensures r.Success? ==>
      store.users == old(store.users)[r.value.id := AfterReset(r.value.record, newPassword)]
  {
    r := ResetPasswordGuard(store.Snapshot(), cfg, resetPasswordToken, now);
    if r.Success? {
      var user := r.value;
      store.UpdateUserById(user.id, user.record.(password := Some(newPassword)));
      UpdateTokenInDB(store, user.id, None);
    }
  }

  /** A reset token is single use: after a successful reset the same token is
      refused, as an expired link while the token itself still lives. */
  lemma ResetTokenIsSingleUse(db: Db, cfg: Config, resetPasswordToken: Token, newPassword: string, now: int, later: int)
    requires ResetPasswordGuard(db, cfg, resetPasswordToken, now).Success?
    ensures var u := ResetPasswordGuard(db, cfg, resetPasswordToken, now).value;
      ResetPasswordGuard(db.(users := db.users[u.id := AfterReset(u.record, newPassword)]), cfg, resetPasswordToken, later)
        == Failure(if Live(resetPasswordToken.payload, later) then Raise(BAD_REQUEST, ExpiredLink) else SESSION_EXPIRED)
  {
  }

  /** The intended reset flow: once the token issued for a user is stored as that
      user's `token` (what `updateTokenInDB` is for), `resetPassword` accepts it
      until it expires. */
  lemma StoredResetTokenResets(db: Db, cfg: Config, id: UserId, payload: Payload, now: int, at: int)
    requires id in db.users && payload.sub == Some(id)
    requires at < PayloadExpiry(cfg, now)
    ensures var t := IssueResetToken(cfg, payload, now);
      var stored := db.(users := db.users[id := db.users[id].(token := Some(t))]);
      ResetPasswordGuard(stored, cfg, t, at) == Success(User(id, stored.users[id]))
  {
  }

  /** `verifyResetOtp(resetPasswordToken, otp)`. */
  function VerifyResetOtp(db: Db, cfg: Config, resetPasswordToken: Token, otp: Option<Otp>, now: int)
    : (r: Result<ResetOtpGrant, ApiError>)
    ensures VerifyAccessToken(cfg, resetPasswordToken, now).Failure? ==> r == Failure(SESSION_EXPIRED)
    ensures var v := VerifyAccessToken(cfg, resetPasswordToken, now);
      v.Success? && v.value.otp != otp ==> r == Failure(Raise(BAD_REQUEST, Text("Incorrect otp")))
    ensures var v := VerifyAccessToken(cfg, resetPasswordToken, now);
      v.Success? && v.value.otp == otp && GetUserById(db, v.value.sub).None? ==>
        r == Failure(Raise(BAD_REQUEST, Text("Invalid Request")))
    ensures r.Success? ==> Some(r.value.userId) == resetPasswordToken.payload.sub && r.value.userId in db.users
    ensures r.Success? ==> (r.value.resetToken
      == Signed(EmptyPayload.(sub := Some(r.value.userId), exp := Some(PayloadExpiry(cfg, now))), cfg.accessSecret))
  {
    match VerifyAccessToken(cfg, resetPasswordToken, now)
    case Failure(e) => Failure(e)
    case Success(payload) =>
      if payload.otp != otp then Failure(Raise(BAD_REQUEST, Text("Incorrect otp")))
      else match GetUserById(db, payload.sub)
        case None => Failure(Raise(BAD_REQUEST, Text("Invalid Request")))
        case Some(user) =>
          Success(ResetOtpGrant(IssueResetToken(cfg, EmptyPayload.(sub := Some(user.id)), now), user.id))
  }

  /** `verifyResetOtp` as written: past the OTP and user checks the call of the
      missing helper throws, so the operation never succeeds. */
  function VerifyResetOtpAsWritten(db: Db, cfg: Config, resetPasswordToken: Token, otp: Option<Otp>, now: int)
    : (r: Result<ResetOtpGrant, Thrown>)
    ensures r.Failure?
    ensures VerifyAccessToken(cfg, resetPasswordToken, now).Failure? ==> r.error == Api(SESSION_EXPIRED)
    ensures var v := VerifyAccessToken(cfg, resetPasswordToken, now);
      v.Success? && v.value.otp != otp ==> r.error == Api(Raise(BAD_REQUEST, Text("Incorrect otp")))
    ensures var v := VerifyAccessToken(cfg, resetPasswordToken, now);
      v.Success? && v.value.otp == otp && GetUserById(db, v.value.sub).None? ==>
        r.error == Api(Raise(BAD_REQUEST, Text("Invalid Request")))
    ensures var v := VerifyAccessToken(cfg, resetPasswordToken, now);
      v.Success? && v.value.otp == otp && GetUserById(db, v.value.sub).Some? ==>
        r.error == MISSING_RESET_HELPER && Respond(r.error, "production").status == INTERNAL_SERVER_ERROR
  {
    match VerifyAccessToken(cfg, resetPasswordToken, now)
    case Failure(e) => Failure(Api(e))
    case Success(payload) =>
      if payload.otp != otp then Failure(Api(Raise(BAD_REQUEST, Text("Incorrect otp"))))
      else match GetUserById(db, payload.sub)
        case None => Failure(Api(Raise(BAD_REQUEST, Text("Invalid Request"))))
        case Some(_) => Failure(MISSING_RESET_HELPER)
  }

  /** The code as written and the corrected operation agree on every check;
      exactly where the corrected one issues a reset token, the code as written throws. */
  lemma VerifyResetOtpDiffersOnlyOnSuccess(db: Db, cfg: Config, resetPasswordToken: Token, otp: Option<Otp>, now: int)
    ensures VerifyResetOtpAsWritten(db, cfg, resetPasswordToken, otp, now)
      == match VerifyResetOtp(db, cfg, resetPasswordToken, otp, now)
         case Failure(e) => Failure(Api(e))
         case Success(_) => Failure(MISSING_RESET_HELPER)
  {
  }

  /** A wrong OTP is refused before any user is looked up: the collection does not
      matter to the outcome. */
  lemma OtpCheckedBeforeLookup(db1: Db, db2: Db, cfg: Config, resetPasswordToken: Token, otp: Option<Otp>, now: int)
    requires VerifyAccessToken(cfg, resetPasswordToken, now).Success?
    requires VerifyAccessToken(cfg, resetPasswordToken, now).value.otp != otp
    ensures VerifyResetOtp(db1, cfg, resetPasswordToken, otp, now) == VerifyResetOtp(db2, cfg, resetPasswordToken, otp, now)
  {
  }

  // ------------------------------------------------------ email verification

  /** The checks of `verifyEmail` before it creates the account; the verified payload. */
  function VerifyEmailGuard(db: Db, cfg: Config, verifyEmailToken: Token, now: int): (r: Result<Payload, ApiError>)
    ensures VerifyAccessToken(cfg, verifyEmailToken, now).Failure? ==> r == Failure(SESSION_EXPIRED)
    ensures var v := VerifyAccessToken(cfg, verifyEmailToken, now);
      v.Success? && (!Present(v.value.email) || GetUserByEmail(db, v.value.email).Some?) ==>
        r == Failure(Raise(BAD_REQUEST, ExpiredLink))
    ensures r.Success? <==> var v := VerifyAccessToken(cfg, verifyEmailToken, now);
      v.Success? && Present(v.value.email) && GetUserByEmail(db, v.value.email).None?
    ensures r.Success? ==> r.value == verifyEmailToken.payload
  {
    match VerifyAccessToken(cfg, verifyEmailToken, now)
    case Failure(e) => Failure(e)
    case Success(payload) =>
      if Present(payload.email) then
        if GetUserByEmail(db, payload.email).Some? then Failure(Raise(BAD_REQUEST, ExpiredLink))
        else Success(payload)
      else Failure(Raise(BAD_REQUEST, ExpiredLink))
  }

  /** The account `verifyEmail` creates from a verified payload. */
  function VerifiedAccount(payload: Payload, autoApproved: bool): (rec: UserRecord)
    ensures rec.email == payload.email && rec.password == payload.password && rec.isEmailVerified
    ensures rec.approvalStatus.Some? <==> autoApproved
    ensures autoApproved ==> rec.approvalStatus == Some(2)
    ensures rec.(email := None, password := None, isEmailVerified := false, approvalStatus := None) == NewUserRecord
  {
    var data := NewUserRecord.(email := payload.email, password := payload.password, isEmailVerified := true);
    if autoApproved then data.(approvalStatus := Some(2)) else data
  }

  /** `verifyEmail(verifyEmailToken)`, with the auto-approval setting as a parameter. */
  method VerifyEmail(store: UserStore, cfg: Config, verifyEmailToken: Token, autoApproved: bool, now: int)
    returns (r: Result<User, ApiError>)
    requires store.Valid()
    modifies store
    ensures store.Valid()
    ensures var g := VerifyEmailGuard(old(store.Snapshot()), cfg, verifyEmailToken, now);
      && (g.Failure? ==> r == Failure(g.error) && store.users == old(store.users) && store.nextId == old(store.nextId))
      && (g.Success? ==>
            && r.Success? && r.value.id == old(store.nextId) && r.value.id !in old(store.users)
            && r.value.record == VerifiedAccount(g.value, autoApproved)
            && store.users == old(store.users)[r.value.id := r.value.record]
            && store.nextId == old(store.nextId) + 1)
  {
    var guard := VerifyEmailGuard(store.Snapshot(), cfg, verifyEmailToken, now);
    if guard.Failure? {
      return Failure(guard.error);
    }
    var user := store.CreateUser(VerifiedAccount(guard.value, autoApproved));
    r := Success(user);
  }

  /** Replaying a verification link fails: once the account exists, the same
      token is refused as an expired link while it lives. */
  lemma VerifyEmailReplayFails(db: Db, cfg: Config, verifyEmailToken: Token, autoApproved: bool, now: int, later: int)
    requires db.Valid()
    requires VerifyEmailGuard(db, cfg, verifyEmailToken, now).Success?
    ensures var rec := VerifiedAccount(VerifyEmailGuard(db, cfg, verifyEmailToken, now).value, autoApproved);
      VerifyEmailGuard(Db(db.users[db.nextId := rec], db.nextId + 1), cfg, verifyEmailToken, later)
        == Failure(if Live(verifyEmailToken.payload, later) then Raise(BAD_REQUEST, ExpiredLink) else SESSION_EXPIRED)
  {
    var payload := VerifyEmailGuard(db, cfg, verifyEmailToken, now).value;
    LookupAfterInsert(db, EmailIs(payload.email), VerifiedAccount(payload, autoApproved));
  }
}
