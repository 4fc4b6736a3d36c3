/** Constants of the authentication module and the configuration values it reads. */
module Settings {

  /** Redis key prefixes of the authentication constants file. */
  const CaptchaKeyPrefix: string := "captcha:"
  const TokenBlacklistKeyPrefix: string := "token_blacklist:"
  const JtiKeyPrefix: string := "jti:"

  /** Name of the cookie that carries the refresh token. */
  const RefreshTokenCookie: string := "refresh_token"

  /** Values of the `sub.type` claim. */
  const AccessTokenType: string := "access_token"
  const RefreshTokenType: string := "refresh_token"

  /** The configuration entries the core reads. Durations are whole seconds: what
      `ms(...)` makes of `jwt.expiresIn` and `jwt.refreshTokenExpiresIn`, divided by 1000. */
  datatype Config = Config(
    jwtSecret: string,
    jwtExpiresIn: nat,
    refreshTokenSecret: string,
    refreshTokenExpiresIn: nat,
    captchaEnable: bool,
    captchaTtl: nat)
  {
    /** Redis refuses `SET ... EX 0`, so a usable configuration has positive lifetimes. */
    predicate Valid() {
      refreshTokenExpiresIn > 0 && captchaTtl > 0
    }
  }

  /** How login names the session key and how tokens name their id claim. `AsWritten` is
      the code as it stands (key `"jti::" + id`, claim `jid`); `Corrected` uses the key
      `"jti:" + id` that every reader looks up and the claim `jti` that every reader reads. */
  datatype Wiring = AsWritten | Corrected
}
