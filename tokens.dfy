/** Signing and checking the access and refresh tokens. A signed token is modelled by
    what signing put into it: the claims, the secret and the lifetime, plus whether it has
    expired by the time it is checked. Verification succeeds exactly when the secret is the
    one it was signed with and it has not expired; the cryptography itself is abstracted. */
module Tokens {
  import opened Common
  import opened Js
  import opened Settings
  import opened Errors

  /** The `sub` claim. */
  datatype Sub = Sub(userId: int, username: string, tokenType: string)

  /** The claims of a token. The issuer writes the session id under the name `jid`; every
      reader looks for `jti`, the registered "JWT ID" claim of section 4.1.7 of RFC 7519.
      Both names are kept so that a token signed with one and read with the other shows. */
  datatype Payload = Payload(sub: Sub, jid: Option<string>, jti: Option<string>)

  /** A bearer string as the server receives it: a well-formed signed token or anything else. */
  datatype Token =
    | Jwt(payload: Payload, secret: string, lifetime: nat, expired: bool)
    | Malformed(text: string)

  /** `jwtService.sign(payload, {secret, expiresIn})`: a fresh token. */
  function Sign(payload: Payload, secret: string, lifetime: nat): Token {
    Jwt(payload, secret, lifetime, false)
  }

  /** `jwtService.verifyAsync(token, {secret})`: the claims, or `None` when it throws. */
  function Verify(t: Token, secret: string): (r: Option<Payload>)
    ensures r.Some? <==> t.Jwt? && t.secret == secret && !t.expired
    ensures r.Some? ==> r.value == t.payload
  {
    if t.Jwt? && t.secret == secret && !t.expired then Some(t.payload) else None
  }

  /** The claims the issuer writes for a user, a token type and a session id. */
  function Claims(w: Wiring, userId: int, username: string, tokenType: string, id: string): (p: Payload)
    ensures p.sub == Sub(userId, username, tokenType)
    ensures w.AsWritten? ==> p.jid == Some(id) && p.jti == None
    ensures w.Corrected? ==> p.jti == Some(id)
  {
    match w
    case AsWritten => Payload(Sub(userId, username, tokenType), Some(id), None)
    case Corrected => Payload(Sub(userId, username, tokenType), None, Some(id))
  }

  /** `generateAccessToken(user, jid)`: signed with `jwt.secret`, lifetime `jwt.expiresIn`. */
  function GenerateAccessToken(cfg: Config, w: Wiring, userId: int, username: string, id: string): (t: Token)
    ensures t.Jwt? && !t.expired
    ensures t.secret == cfg.jwtSecret && t.lifetime == cfg.jwtExpiresIn
    ensures t.payload == Claims(w, userId, username, AccessTokenType, id)
  {
    Sign(Claims(w, userId, username, AccessTokenType, id), cfg.jwtSecret, cfg.jwtExpiresIn)
  }

  /** `generateRefreshToken(user, jid)`: signed with `jwt.refreshTokenSecret`, lifetime
      `jwt.refreshTokenExpiresIn`. */
  function GenerateRefreshToken(cfg: Config, w: Wiring, userId: int, username: string, id: string): (t: Token)
    ensures t.Jwt? && !t.expired
    ensures t.secret == cfg.refreshTokenSecret && t.lifetime == cfg.refreshTokenExpiresIn
    ensures t.payload == Claims(w, userId, username, RefreshTokenType, id)
  {
    Sign(Claims(w, userId, username, RefreshTokenType, id), cfg.refreshTokenSecret, cfg.refreshTokenExpiresIn)
  }

  /** `validateAccessToken(token)`: every failure, whether of verification or of the type
      check, becomes the same business error. */
  function ValidateAccessToken(cfg: Config, t: Token): (r: Result<Payload, Failure>)
    ensures r.Success? <==>
      t.Jwt? && t.secret == cfg.jwtSecret && !t.expired && t.payload.sub.tokenType == AccessTokenType
    ensures r.Success? ==> r.value == t.payload
    ensures r.Failure? ==> r.error == Business(InvalidToken)
  {
    match Verify(t, cfg.jwtSecret)
    case None => Failure(Business(InvalidToken))
    case Some(p) =>
      if p.sub.tokenType != AccessTokenType then Failure(Business(InvalidToken)) else Success(p)
  }

  /** `validateRefreshToken(token)`, the same against the refresh secret and type. */
  function ValidateRefreshToken(cfg: Config, t: Token): (r: Result<Payload, Failure>)
    ensures r.Success? <==>
      t.Jwt? && t.secret == cfg.refreshTokenSecret && !t.expired && t.payload.sub.tokenType == RefreshTokenType
    ensures r.Success? ==> r.value == t.payload
    ensures r.Failure? ==> r.error == Business(InvalidRefreshToken)
  {
    match Verify(t, cfg.refreshTokenSecret)
    case None => Failure(Business(InvalidRefreshToken))
    case Some(p) =>
      if p.sub.tokenType != RefreshTokenType then Failure(Business(InvalidRefreshToken)) else Success(p)
  }

  /** `${payload.jti}`: the id as the readers interpolate it into Redis keys. */
  function JtiText(p: Payload): string {
    Interpolate(p.jti)
  }

  /** A freshly issued access token validates, and gives back the claims it was signed with. */
  lemma AccessTokenRoundTrip(cfg: Config, w: Wiring, userId: int, username: string, id: string)
    ensures ValidateAccessToken(cfg, GenerateAccessToken(cfg, w, userId, username, id))
         == Success(Claims(w, userId, username, AccessTokenType, id))
  {
  }

  /** A freshly issued refresh token validates, and gives back the claims it was signed with. */
  lemma RefreshTokenRoundTrip(cfg: Config, w: Wiring, userId: int, username: string, id: string)
    ensures ValidateRefreshToken(cfg, GenerateRefreshToken(cfg, w, userId, username, id))
         == Success(Claims(w, userId, username, RefreshTokenType, id))
  {
  }

  /** The type claim keeps the two kinds apart even when both secrets are configured alike:
      an access token is never accepted as a refresh token, nor the other way round. */
  lemma TokenKindsDoNotMix(cfg: Config, w: Wiring, userId: int, username: string, id: string)
    ensures ValidateRefreshToken(cfg, GenerateAccessToken(cfg, w, userId, username, id))
         == Failure(Business(InvalidRefreshToken))
    ensures ValidateAccessToken(cfg, GenerateRefreshToken(cfg, w, userId, username, id))
         == Failure(Business(InvalidToken))
  {
  }

  /** As written, the id is signed under `jid`, so a reader that interpolates `payload.jti`
      gets the text "undefined" for every token the service issues. */
  lemma AsWrittenIssuedTokensHaveNoJti(cfg: Config, userId: int, username: string, id: string)
    ensures JtiText(GenerateAccessToken(cfg, AsWritten, userId, username, id).payload) == "undefined"
    ensures JtiText(GenerateRefreshToken(cfg, AsWritten, userId, username, id).payload) == "undefined"
  {
  }

  /** With the claim named `jti`, readers recover the id that was signed. */
  lemma CorrectedIssuedTokensCarryJti(cfg: Config, userId: int, username: string, id: string)
    ensures JtiText(GenerateAccessToken(cfg, Corrected, userId, username, id).payload) == id
    ensures JtiText(GenerateRefreshToken(cfg, Corrected, userId, username, id).payload) == id
  {
  }
}
