/** JSON Web Tokens as opaque signed values: a token records the claims it was
    signed with and the secret that signed it; nothing is encoded. */
module Jwt {
  import opened Common

  type Secret = string

  /** The JSON object that is signed: the claims the core reads or writes, and the
      fields of a request body that get embedded in a registration token. */
  datatype Payload = Payload(
    sub: Option<UserId>,
    role: Option<int>,
    otp: Option<Otp>,
    email: Option<string>,
    mobile: Option<string>,
    password: Option<string>,
    exp: Option<int>)

  const EmptyPayload: Payload := Payload(None, None, None, None, None, None, None)

  /** A token a client presents: one that was signed, or any other text. */
  datatype Token = Signed(payload: Payload, secret: Secret) | Malformed(text: string)

  /** `jwt.sign(payload, secret, {expiresIn})`: an `expiresIn` of seconds becomes the
      `exp` claim, counted from `now` (unix seconds). */
  function Sign(payload: Payload, secret: Secret, expiresIn: Option<int>, now: int): Token
    requires expiresIn.Some? ==> payload.exp.None?
  {
    Signed(if expiresIn.Some? then payload.(exp := Some(now + expiresIn.value)) else payload, secret)
  }

  /** A token is still valid at `now` when it has no `exp`, or `now` is before it. */
  predicate Live(p: Payload, now: int) {
    p.exp.None? || now < p.exp.value
  }

  /** `jwt.verify(token, secret)`: the claims, or nothing on a bad signature, a
      malformed token or an expired one. */
  function Verify(t: Token, secret: Secret, now: int): Option<Payload> {
    if t.Signed? && t.secret == secret && Live(t.payload, now) then Some(t.payload) else None
  }

  /** Verification undoes signing: with the signing secret and before expiry the
      claims come back (with `exp` set), and never otherwise. */
  lemma SignThenVerify(p: Payload, s: Secret, expiresIn: Option<int>, now: int, key: Secret, at: int)
    requires expiresIn.Some? ==> p.exp.None?
    ensures var claims := if expiresIn.Some? then p.(exp := Some(now + expiresIn.value)) else p;
      Verify(Sign(p, s, expiresIn, now), key, at)
        == if key == s && Live(claims, at) then Some(claims) else None
    ensures expiresIn.Some? && key == s ==>
      (Verify(Sign(p, s, expiresIn, now), key, at).Some? <==> at < now + expiresIn.value)
  {
  }
}
