/** The two request handlers of the authentication controller: `register` and
    `login`, composed from the service operations. */
module AuthController {
  import opened Common
  import opened ApiErrors
  import opened Jwt
  import opened TokenService
  import opened Users
  import opened UserService
  import opened AuthService

  /** What a registration answers with: the invited account accepted, or a
      payload token carrying the OTP that was sent. */
  datatype RegisterOutcome = InvitationAccepted(userId: UserId) | OtpSent(token: Token)

  /** The registration token: the request body with the OTP added, stamped. */
  function RegistrationToken(cfg: Config, body: Payload, otp: Otp, now: int): Token {
    GeneratePayloadToken(cfg, body.(otp := Some(otp)), now).1
  }

  /** `register`: an invited email accepts its invitation; anyone else gets a
      conflict or an OTP, by SMS when a mobile is given and by email otherwise. */
  method Register(store: UserStore, cfg: Config, body: Payload, otp: Otp, now: int)
    returns (r: Result<RegisterOutcome, ApiError>, sent: Option<Delivery>)
    requires store.Valid()
    modifies store
    ensures store.Valid() && store.nextId == old(store.nextId)
    ensures var db := old(store.Snapshot());
      Present(body.email) && GetUserByEmail(db, body.email).Some? ==>
        var c := CheckIfUserIsInvited(db, body.email);
        && sent.None?
        && (c.Failure? ==> r == Failure(c.error) && store.users == old(store.users))
        && (c.Success? ==>
              && r == Success(InvitationAccepted(c.value.id))
              && store.users == old(store.users)[c.value.id := AcceptedInvitation(c.value.record, body, now)])
    ensures var db := old(store.Snapshot());
      !(Present(body.email) && GetUserByEmail(db, body.email).Some?) ==>
        && store.users == old(store.users)
        && (Lookup(db, Either(body.email, body.mobile)).Some? ==>
              r == Failure(Raise(CONFLICT, UserAlreadyExist)) && sent.None?)
        && (Lookup(db, Either(body.email, body.mobile)).None? ==>
              && r == Success(OtpSent(RegistrationToken(cfg, body, otp, now)))
              && sent == Some(if Present(body.mobile) then VerificationSms(body.mobile.value, otp)
                              else RegistrationEmail(body.email, otp)))
  {
    sent := None;
    if Present(body.email) && GetUserByEmail(store.Snapshot(), body.email).Some? {
      var invited := CheckIfUserIsInvited(store.Snapshot(), body.email);
      if invited.Failure? {
        return Failure(invited.error), None;
      }
      AcceptInvitation(store, invited.value.id, body, now);
      return Success(InvitationAccepted(invited.value.id)), None;
    }
    var free := CheckUserWithEmailOrMobile(store.Snapshot(), body.email, body.mobile);
    if free.Failure? {
      return Failure(free.error), None;
    }
    var withOtp := body.(otp := Some(otp));
    var stamped := GeneratePayloadToken(cfg, withOtp, now);
    var token := stamped.1;
    if Present(body.mobile) {
      sent := Some(VerificationSms(body.mobile.value, otp));
    } else {
      sent := Some(RegistrationEmail(body.email, otp));
    }
    r := Success(OtpSent(token));
  }

  /** A registration token sent to a new email is, while it lives, exactly what
      `verifyEmail` needs: its guard passes and yields the registered body. */
  lemma RegistrationTokenVerifiesEmail(db: Db, cfg: Config, body: Payload, otp: Otp, now: int, at: int)
    requires db.Valid()
    requires Present(body.email)
    requires Lookup(db, Either(body.email, body.mobile)).None?
    requires at < PayloadExpiry(cfg, now)
    ensures VerifyEmailGuard(db, cfg, RegistrationToken(cfg, body, otp, now), at)
      == Success(body.(otp := Some(otp), exp := Some(PayloadExpiry(cfg, now))))
  {
    forall id | id in db.users ensures db.users[id].email != body.email {
      assert !Either(body.email, body.mobile)(db.users[id]);
    }
  }

  /** The body of a login request. */
  datatype LoginBody = LoginBody(email: Option<string>, mobile: Option<string>, password: string)

  /** `removeExtraFields(user)`: the user without its password and stored token. */
  function RemoveExtraFields(user: User): (s: User)
    ensures s.id == user.id
    ensures s.record.password.None? && s.record.token.None?
    ensures s.record.(password := user.record.password, token := user.record.token) == user.record
  {
    User(user.id, user.record.(password := None, token := None))
  }

  /** What a successful login answers with. */
  datatype LoginResult = LoginResult(user: User, tokens: AuthTokens)

  /** The service call `login` makes: by email when an email is given, else by mobile. */
  function LoginLookup(db: Db, body: LoginBody, isPasswordMatch: PasswordCheck): Result<User, ApiError> {
    if Present(body.email) then LoginUserWithEmailAndPassword(db, body.email, body.password, isPasswordMatch)
    else LoginUserWithMobileAndPassword(db, body.mobile, body.password, isPasswordMatch)
  }

  /** `login`: the authenticated user, stripped, and a session pair with the default role. */
  function Login(db: Db, cfg: Config, body: LoginBody, isPasswordMatch: PasswordCheck, now: int)
    : (r: Result<LoginResult, ApiError>)
    ensures Present(body.email) ==>
      (r.Success? <==> LoginUserWithEmailAndPassword(db, body.email, body.password, isPasswordMatch).Success?)
    ensures !Present(body.email) ==>
      (r.Success? <==> LoginUserWithMobileAndPassword(db, body.mobile, body.password, isPasswordMatch).Success?)
    ensures Present(body.email) && r.Failure? ==>
      r.error == LoginUserWithEmailAndPassword(db, body.email, body.password, isPasswordMatch).error
    ensures !Present(body.email) && r.Failure? ==>
      r.error == LoginUserWithMobileAndPassword(db, body.mobile, body.password, isPasswordMatch).error
    ensures Present(body.email) && r.Success? ==>
      var u := LoginUserWithEmailAndPassword(db, body.email, body.password, isPasswordMatch).value;
      && GetUserByEmail(db, body.email) == Some(u) && u.record.isEmailVerified
      && r.value.user == RemoveExtraFields(u) && r.value.tokens == GenerateAuthTokens(cfg, u.id, now, 1)
    ensures !Present(body.email) && r.Success? ==>
      var u := LoginUserWithMobileAndPassword(db, body.mobile, body.password, isPasswordMatch).value;
      && GetUserByMobile(db, body.mobile) == Some(u) && u.record.isMobileVerified
      && r.value.user == RemoveExtraFields(u) && r.value.tokens == GenerateAuthTokens(cfg, u.id, now, 1)
    ensures r.Success? ==> var u := LoginLookup(db, body, isPasswordMatch).value;
      && u.id in db.users && db.users[u.id] == u.record
      && !u.record.isBlocked && isPasswordMatch(u.record.password, body.password)
  {
    match LoginLookup(db, body, isPasswordMatch)
    case Failure(e) => Failure(e)
    case Success(user) => Success(LoginResult(RemoveExtraFields(user), GenerateAuthTokens(cfg, user.id, now)))
  }

  /** A login's refresh token renews the session for the same user until it
      expires, as long as the user still exists. */
  lemma LoginThenRefresh(db: Db, cfg: Config, body: LoginBody, isPasswordMatch: PasswordCheck, now: int, at: int)
    requires Login(db, cfg, body, isPasswordMatch, now).Success?
    requires at < now + cfg.refreshExpiration
    ensures var l := Login(db, cfg, body, isPasswordMatch, now).value;
      RefreshAuth(db, cfg, l.tokens.refreshToken, at) == Success(GenerateAuthTokens(cfg, l.user.id, at, 1))
  {
  }
}
