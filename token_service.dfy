/** The token helpers: which secret, claims and expiry every token gets, and how
    verification failures are reported. */
module TokenService {
  import opened Common
  import opened ApiErrors
  import opened Jwt

  /** The configured secrets and lifetimes (seconds; minutes for payload tokens). */
  datatype Config = Config(
    accessSecret: Secret,
    refreshSecret: Secret,
    accessExpiration: int,
    refreshExpiration: int,
    tokenExpirationMinutes: int)

  /** The single error every failed verification becomes. */
  const SESSION_EXPIRED: ApiError := Raise(UNAUTHORIZED, Text("Session has been expired"))

  /** `generateToken({payload, secret, options})`: the secret defaults to the access secret. */
  function GenerateToken(cfg: Config, payload: Payload, now: int,
                         secret: Option<Secret> := None, expiresIn: Option<int> := None): (t: Token)
    requires expiresIn.Some? ==> payload.exp.None?
    ensures t.Signed?
    ensures secret.None? ==> t.secret == cfg.accessSecret
    ensures secret.Some? ==> t.secret == secret.value
    ensures expiresIn.None? ==> t.payload == payload
    ensures expiresIn.Some? ==> t.payload == payload.(exp := Some(now + expiresIn.value))
  {
    Sign(payload, secret.GetOr(cfg.accessSecret), expiresIn, now)
  }

  /** `verifyAccessToken(token, secret = access secret)`. */
  function VerifyAccessToken(cfg: Config, token: Token, now: int,
                             secret: Option<Secret> := None): (r: Result<Payload, ApiError>)
    ensures r.Success? <==> Verify(token, secret.GetOr(cfg.accessSecret), now).Some?
    ensures r.Success? ==> token.Signed? && r.value == token.payload
    ensures r.Failure? ==> r.error == SESSION_EXPIRED
  {
    match Verify(token, secret.GetOr(cfg.accessSecret), now)
    case Some(p) => Success(p)
    case None => Failure(SESSION_EXPIRED)
  }

  /** `verifyRefreshToken(token, secret = refresh secret)`. */
  function VerifyRefreshToken(cfg: Config, token: Token, now: int,
                              secret: Option<Secret> := None): (r: Result<Payload, ApiError>)
    ensures r.Success? <==> Verify(token, secret.GetOr(cfg.refreshSecret), now).Some?
    ensures r.Success? ==> token.Signed? && r.value == token.payload
    ensures r.Failure? ==> r.error == SESSION_EXPIRED
  {
    match Verify(token, secret.GetOr(cfg.refreshSecret), now)
    case Some(p) => Success(p)
    case None => Failure(SESSION_EXPIRED)
  }

  datatype AuthTokens = AuthTokens(accessToken: Token, refreshToken: Token)

  /** The claims of a session token pair. */
  function AuthPayload(userId: UserId, role: int): Payload {
    EmptyPayload.(sub := Some(userId), role := Some(role))
  }

  /** `generateAuthTokens(userId, role = 1)`: one payload, signed twice. */
  function GenerateAuthTokens(cfg: Config, userId: UserId, now: int, role: int := 1): (r: AuthTokens)
    ensures r.accessToken
      == Signed(AuthPayload(userId, role).(exp := Some(now + cfg.accessExpiration)), cfg.accessSecret)
    ensures r.refreshToken
      == Signed(AuthPayload(userId, role).(exp := Some(now + cfg.refreshExpiration)), cfg.refreshSecret)
  {
    var payload := AuthPayload(userId, role);
    var accessToken := GenerateToken(cfg, payload, now, expiresIn := Some(cfg.accessExpiration));
    var refreshToken := GenerateToken(cfg, payload, now, Some(cfg.refreshSecret), Some(cfg.refreshExpiration));
    AuthTokens(accessToken, refreshToken)
  }

  /** The unix-seconds expiry of a payload token issued at `now`. */
  function PayloadExpiry(cfg: Config, now: int): int {
    now + cfg.tokenExpirationMinutes * 60
  }

  /** `generatePayloadToken(payload)`: sets `exp` on the caller's object, then signs the
      object with the access secret. The first component is the caller's object afterwards. */
  function GeneratePayloadToken(cfg: Config, payload: Payload, now: int): (r: (Payload, Token))
    ensures r.0 == payload.(exp := Some(PayloadExpiry(cfg, now)))
    ensures r.1 == Signed(r.0, cfg.accessSecret)
  {
    var stamped := payload.(exp := Some(PayloadExpiry(cfg, now)));
    (stamped, GenerateToken(cfg, stamped, now))
  }

  /** A session pair verifies each token only with its own helper: the access token
      as an access token and the refresh token as a refresh token, until it expires;
      with distinct secrets neither is accepted in the other's place. */
  lemma AuthTokensVerify(cfg: Config, userId: UserId, now: int, role: int, at: int)
    ensures var t := GenerateAuthTokens(cfg, userId, now, role);
      && (VerifyAccessToken(cfg, t.accessToken, at).Success? <==> at < now + cfg.accessExpiration)
      && (VerifyRefreshToken(cfg, t.refreshToken, at).Success? <==> at < now + cfg.refreshExpiration)
      && (VerifyAccessToken(cfg, t.accessToken, at).Success? ==>
            VerifyAccessToken(cfg, t.accessToken, at).value.sub == Some(userId)
            && VerifyAccessToken(cfg, t.accessToken, at).value.role == Some(role))
      && (VerifyRefreshToken(cfg, t.refreshToken, at).Success? ==>
            VerifyRefreshToken(cfg, t.refreshToken, at).value.sub == Some(userId))
      && (cfg.accessSecret != cfg.refreshSecret ==>
            VerifyAccessToken(cfg, t.refreshToken, at) == Failure(SESSION_EXPIRED)
            && VerifyRefreshToken(cfg, t.accessToken, at) == Failure(SESSION_EXPIRED))
  {
  }

  /** A payload token is accepted by `verifyAccessToken` exactly until its expiry,
      and gives back the stamped payload. */
  lemma PayloadTokenRoundTrip(cfg: Config, payload: Payload, now: int, at: int)
    ensures var r := GeneratePayloadToken(cfg, payload, now);
      VerifyAccessToken(cfg, r.1, at)
        == if at < PayloadExpiry(cfg, now) then Success(r.0) else Failure(SESSION_EXPIRED)
  {
  }
}
