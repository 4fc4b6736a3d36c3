/** The refresh-session engine of the auth service: captcha issue and check, login,
    refresh-token rotation and logout over the shared Redis store.

    Each operation is given twice. A function states what the call does as a whole: the
    store afterwards and what it returns or throws. A method of `AuthService` performs the
    same call step by step through the Redis client, as the service does, and is proved to
    end where the function says. Token signing, hashing, id generation and captcha rendering
    come in as parameters. */
module Auth {
  import opened Common
  import opened Js
  import opened Utils
  import opened Settings
  import opened Errors
  import opened Redis
  import opened Tokens
  import opened Users
  import opened LoginDto

  /** What a call does to the refresh-token cookie of the response. */
  datatype CookieOp =
    | SetCookie(name: string, value: Token, httpOnly: bool, maxAgeMs: nat)
    | ClearCookie(name: string)

  /** A successful login or refresh: the body `{ access_token }` and the refresh cookie. */
  datatype Issued = Issued(accessToken: Token, cookie: CookieOp)

  /** The store after a call, and what the call returned or threw. */
  datatype Outcome<T> = Outcome(store: Store, result: Result<T, Failure>)

  /** What `generateSvgCaptcha` returns: the image as a data URL and the challenge id. */
  datatype CaptchaResult = CaptchaResult(image: string, id: string)

  /** Captcha key: `generateRedisKey('captcha:', id)`. */
  function CaptchaKey(id: string): string {
    GenerateRedisKey(CaptchaKeyPrefix, id)
  }

  /** Session key as refresh, logout and the guard read it: `${JTI_KEY_PREFIX}${jti}`. */
  function SessionKey(jti: string): string {
    JtiKeyPrefix + jti
  }

  /** Blacklist key: `${TOKEN_BLACKLIST_KEY_PREFIX}${jti}`. */
  function BlacklistKey(jti: string): string {
    TokenBlacklistKeyPrefix + jti
  }

  /** Session key as login writes it: `generateRedisKey(JTI_KEY_PREFIX, jti)`. */
  function LoginSessionKey(w: Wiring, jti: string): string {
    match w
    case AsWritten => GenerateRedisKey(JtiKeyPrefix, jti)
    case Corrected => SessionKey(jti)
  }

  /** As written, login stores the session under `"jti::" + jti`, a key that refresh,
      logout and the guard never read. */
  lemma LoginKeyIsNotReadKey(jti: string)
    ensures LoginSessionKey(AsWritten, jti) == "jti::" + jti
    ensures LoginSessionKey(AsWritten, jti) != SessionKey(jti)
  {
    GenerateRedisKeyDoublesColon("jti", jti);
    assert JtiKeyPrefix == "jti" + ":";
  }

  /** The three key families never collide: they start with different letters. */
  lemma KeyFamiliesAreDisjoint(w: Wiring, a: string, b: string)
    ensures SessionKey(a) != BlacklistKey(b) && LoginSessionKey(w, a) != BlacklistKey(b)
    ensures CaptchaKey(a) != SessionKey(b) && CaptchaKey(a) != BlacklistKey(b)
    ensures CaptchaKey(a) != LoginSessionKey(w, b)
  {
    assert SessionKey(a)[0] == 'j' && BlacklistKey(b)[0] == 't' && CaptchaKey(a)[0] == 'c';
    assert LoginSessionKey(w, a)[0] == 'j' && LoginSessionKey(w, b)[0] == 'j';
  }

  /** The keys refresh, logout and the guard read never collide with the blacklist keys,
      whatever the ids and independently of how login writes its key. */
  lemma SessionKeyIsNotBlacklistKey(a: string, b: string)
    ensures SessionKey(a) != BlacklistKey(b)
  {
    assert SessionKey(a)[0] == 'j' && BlacklistKey(b)[0] == 't';
  }

  /** Different ids give different session and blacklist keys. */
  lemma KeysAreInjective(w: Wiring, a: string, b: string)
    requires a != b
    ensures SessionKey(a) != SessionKey(b) && BlacklistKey(a) != BlacklistKey(b)
    ensures LoginSessionKey(w, a) != LoginSessionKey(w, b)
  {
    assert SessionKey(a)[|JtiKeyPrefix|..] == a;
    assert BlacklistKey(a)[|TokenBlacklistKeyPrefix|..] == a;
    if w.AsWritten? {
      GenerateRedisKeyInjective(JtiKeyPrefix, a, b);
    }
  }

  /** An id the id generator may hand out: none of the keys built from it is in use. */
  predicate FreshId(w: Wiring, s: Store, id: string) {
    SessionKey(id) !in s && LoginSessionKey(w, id) !in s && BlacklistKey(id) !in s
  }

  /** The session of `id` is live for user `userId`: `String(get(key)) === String(userId)`
      (an absent key reads `null`, which prints as "null"). */
  predicate SessionMatches(s: Store, id: string, userId: int) {
    StringOfNullable(ValueAt(s, SessionKey(id))) == IntToString(userId)
  }

  /** The string comparison holds exactly when the key is present with the user's id. */
  lemma SessionMatchesMeans(s: Store, id: string, userId: int)
    ensures SessionMatches(s, id, userId) <==>
      SessionKey(id) in s && s[SessionKey(id)].value == IntToString(userId)
  {
    IntToStringIsNoKeyword(userId);
  }

  /** `generateSvgCaptcha`'s store effect: the answer under the captcha key for `captcha.ttl`. */
  function IssueCaptcha(cfg: Config, s: Store, id: string, text: string): (r: Store)
    ensures r.Keys == s.Keys + {CaptchaKey(id)}
    ensures r[CaptchaKey(id)] == Entry(text, ExpiresIn(cfg.captchaTtl))
    ensures forall k :: k in s && k != CaptchaKey(id) ==> r[k] == s[k]
  {
    SetEx(s, CaptchaKey(id), text, cfg.captchaTtl)
  }

  /** `validateCaptcha(id, captcha)`. An absent or empty entry is `EXPIRED_CAPTCHA`; an
      answer that differs ignoring case is `INVALID_CAPTCHA` and leaves the entry; a missing
      answer makes `toLowerCase` throw; a match deletes the entry and returns false. */
  function CheckCaptcha(s: Store, id: Option<string>, answer: Option<string>): (o: Outcome<bool>)
    ensures var stored := ValueAt(s, CaptchaKey(Interpolate(id)));
      && (o.result.Failure? ==> o.store == s)
      && (o.result == Failure(Business(ExpiredCaptcha)) <==> stored.None? || stored.value == "")
      && (o.result == Failure(TypeError) <==> stored.Some? && stored.value != "" && answer.None?)
      && (o.result == Failure(Business(InvalidCaptcha)) <==>
            stored.Some? && stored.value != "" && answer.Some?
            && ToLowerAscii(answer.value) != ToLowerAscii(stored.value))
      && (o.result.Success? <==>
            stored.Some? && stored.value != "" && answer.Some?
            && ToLowerAscii(answer.value) == ToLowerAscii(stored.value))
      && (o.result.Success? ==> o.store == Delete(s, CaptchaKey(Interpolate(id))) && !o.result.value)
  {
    var key := CaptchaKey(Interpolate(id));
    var res := ValueAt(s, key);
    if res.None? || res.value == "" then Outcome(s, Failure(Business(ExpiredCaptcha)))
    else if answer.None? then Outcome(s, Failure(TypeError))
    else if ToLowerAscii(answer.value) != ToLowerAscii(res.value) then Outcome(s, Failure(Business(InvalidCaptcha)))
    else Outcome(Delete(s, key), Success(false))
  }

  /** The store as the captcha step of login leaves it when it passes. */
  function AfterCaptcha(cfg: Config, s: Store, dto: LoginDto): Store {
    if cfg.captchaEnable then Delete(s, CaptchaKey(Interpolate(dto.captchaId))) else s
  }

  /** `login(loginDto, res)`. The captcha is checked first, and only when `captcha.enable`
      is true; then the account and password; only then is the session entry written and
      are the tokens signed. */
  function LoginOutcome(cfg: Config, w: Wiring, users: UserService, s: Store, dto: LoginDto, jti: string)
    : (o: Outcome<Issued>)
    requires FreshId(w, s, jti)
    ensures cfg.captchaEnable && CheckCaptcha(s, dto.captchaId, dto.captcha).result.Failure? ==>
      o.store == s && o.result == Failure(CheckCaptcha(s, dto.captchaId, dto.captcha).result.error)
    ensures o.result.Success? <==>
      && (!cfg.captchaEnable || CheckCaptcha(s, dto.captchaId, dto.captcha).result.Success?)
      && users.ValidateUser(dto.account, dto.password).Success?
    ensures (!cfg.captchaEnable || CheckCaptcha(s, dto.captchaId, dto.captcha).result.Success?)
            && users.ValidateUser(dto.account, dto.password).Failure? ==>
      && o.store == AfterCaptcha(cfg, s, dto)
      && o.result == Failure(users.ValidateUser(dto.account, dto.password).error)
    ensures o.result.Failure? ==>
      && LoginSessionKey(w, jti) !in o.store
      && forall k :: k in o.store ==> k in s && o.store[k] == s[k]
    ensures o.result.Success? ==>
      var u := users.ValidateUser(dto.account, dto.password).value;
      var before := AfterCaptcha(cfg, s, dto);
      var key := LoginSessionKey(w, jti);
      && o.store.Keys == before.Keys + {key} && key !in before
      && o.store[key] == Entry(IntToString(u.id), ExpiresIn(cfg.refreshTokenExpiresIn))
      && (forall k :: k in before ==> o.store[k] == before[k])
    ensures o.result.Success? ==>
      var u := users.ValidateUser(dto.account, dto.password).value;
      var c := o.result.value.cookie;
      && c.SetCookie? && c.name == RefreshTokenCookie && c.httpOnly
      && c.maxAgeMs == 1000 * cfg.refreshTokenExpiresIn
      && ValidateRefreshToken(cfg, c.value) == Success(Claims(w, u.id, u.username, RefreshTokenType, jti))
      && ValidateAccessToken(cfg, o.result.value.accessToken)
         == Success(Claims(w, u.id, u.username, AccessTokenType, jti))
  {
    var checked := if cfg.captchaEnable then CheckCaptcha(s, dto.captchaId, dto.captcha)
                   else Outcome(s, Success(false));
    match checked.result
    case Failure(e) => Outcome(s, Failure(e))
    case Success(_) =>
      match users.ValidateUser(dto.account, dto.password)
      case Failure(e) => Outcome(checked.store, Failure(e))
      case Success(u) =>
        var lifetime := cfg.refreshTokenExpiresIn;
        var refresh := GenerateRefreshToken(cfg, w, u.id, u.username, jti);
        var access := GenerateAccessToken(cfg, w, u.id, u.username, jti);
        RefreshTokenRoundTrip(cfg, w, u.id, u.username, jti);
        AccessTokenRoundTrip(cfg, w, u.id, u.username, jti);
        Outcome(SetEx(checked.store, LoginSessionKey(w, jti), IntToString(u.id), lifetime),
                Success(Issued(access, SetCookie(RefreshTokenCookie, refresh, true, lifetime * 1000))))
  }

  /** The Lua script of `refreshToken`, one indivisible step: blacklist the old id for the
      full lifetime, delete the old session, create the new one. */
  function RotationScript(s: Store, oldId: string, newId: string, userId: string, expires: nat): Store {
    SetEx(Delete(SetEx(s, BlacklistKey(oldId), "1", expires), SessionKey(oldId)), SessionKey(newId), userId, expires)
  }

  /** `refreshToken(oldRefreshToken, res)`. The token must verify; the session it names
      must hold the token's user id; the username must still resolve to an enabled user.
      Then the session is rotated to the new id and new tokens are issued. */
  function RefreshOutcome(cfg: Config, w: Wiring, users: UserService, s: Store, token: Token, newJti: string)
    : (o: Outcome<Issued>)
    requires FreshId(w, s, newJti)
    ensures o.result.Failure? ==> o.store == s
    ensures ValidateRefreshToken(cfg, token).Failure? ==> o.result == Failure(Business(InvalidRefreshToken))
    ensures ValidateRefreshToken(cfg, token).Success? ==>
      var p := token.payload;
      && (!SessionMatches(s, JtiText(p), p.sub.userId) ==> o.result == Failure(Unauthorized(ExpiredRefreshToken)))
      && (SessionMatches(s, JtiText(p), p.sub.userId) && users.FindUserByUsername(p.sub.username).None? ==>
            o.result == Failure(Business(UserNotFound)))
    ensures o.result.Success? <==>
      && ValidateRefreshToken(cfg, token).Success?
      && SessionMatches(s, JtiText(token.payload), token.payload.sub.userId)
      && users.FindUserByUsername(token.payload.sub.username).Some?
    ensures o.result.Success? ==>
      var p := token.payload;
      var oldId := JtiText(p);
      var lifetime := cfg.refreshTokenExpiresIn;
      && o.store.Keys == s.Keys - {SessionKey(oldId)} + {BlacklistKey(oldId), SessionKey(newJti)}
      && o.store[BlacklistKey(oldId)] == Entry("1", ExpiresIn(lifetime))
      && o.store[SessionKey(newJti)] == Entry(s[SessionKey(oldId)].value, ExpiresIn(lifetime))
      && s[SessionKey(oldId)].value == IntToString(p.sub.userId)
      && SessionKey(oldId) !in o.store
      && (forall k :: k in s && k != SessionKey(oldId) && k != BlacklistKey(oldId) ==> o.store[k] == s[k])
    ensures o.result.Success? ==>
      var u := users.FindUserByUsername(token.payload.sub.username).value;
      var c := o.result.value.cookie;
      && c.SetCookie? && c.name == RefreshTokenCookie && c.httpOnly
      && c.maxAgeMs == 1000 * cfg.refreshTokenExpiresIn
      && ValidateRefreshToken(cfg, c.value) == Success(Claims(w, u.id, u.username, RefreshTokenType, newJti))
      && ValidateAccessToken(cfg, o.result.value.accessToken)
         == Success(Claims(w, u.id, u.username, AccessTokenType, newJti))
  {
    match ValidateRefreshToken(cfg, token)
    case Failure(e) => Outcome(s, Failure(e))
    case Success(p) =>
      var oldId := JtiText(p);
      var present := KeyCount(s, SessionKey(oldId));
      var userId := ValueAt(s, SessionKey(oldId));
      SessionMatchesMeans(s, oldId, p.sub.userId);
      if present == 0 || StringOfNullable(userId) != IntToString(p.sub.userId) then
        Outcome(s, Failure(Unauthorized(ExpiredRefreshToken)))
      else
        match users.ValidateUserExistByUsername(p.sub.username)
        case Failure(e) => Outcome(s, Failure(e))
        case Success(u) =>
          var expires := cfg.refreshTokenExpiresIn;
          KeyFamiliesAreDisjoint(w, oldId, newJti);
          KeyFamiliesAreDisjoint(w, newJti, oldId);
          RefreshTokenRoundTrip(cfg, w, u.id, u.username, newJti);
          AccessTokenRoundTrip(cfg, w, u.id, u.username, newJti);
          Outcome(RotationScript(s, oldId, newJti, StringOfNullable(userId), expires),
                  Success(Issued(GenerateAccessToken(cfg, w, u.id, u.username, newJti),
                                 SetCookie(RefreshTokenCookie, GenerateRefreshToken(cfg, w, u.id, u.username, newJti),
                                           true, expires * 1000))))
  }

  /** `logout(jti, res)`'s store effect. With a positive remaining lifetime, the id is
      blacklisted for exactly that long and the session deleted; with -2 (absent), -1 (no
      expiry) or 0 nothing changes. */
  function LogoutStore(s: Store, jti: string): (r: Store)
    ensures TtlOf(s, SessionKey(jti)) <= 0 ==> r == s
    ensures TtlOf(s, SessionKey(jti)) > 0 ==>
      var ttl := s[SessionKey(jti)].expiry.seconds;
      && r.Keys == s.Keys - {SessionKey(jti)} + {BlacklistKey(jti)}
      && r[BlacklistKey(jti)] == Entry("1", ExpiresIn(ttl))
      && (forall k :: k in s && k != SessionKey(jti) && k != BlacklistKey(jti) ==> r[k] == s[k])
  {
    var ttl := TtlOf(s, SessionKey(jti));
    SessionKeyIsNotBlacklistKey(jti, jti);
    if ttl > 0 then Delete(SetEx(s, BlacklistKey(jti), "1", ttl), SessionKey(jti)) else s
  }

  /** The auth service. Its configuration, wiring and Redis client are fixed at
      construction; all session state lives in the client. */
  class AuthService {
    const cfg: Config
    const wiring: Wiring
    const redis: RedisClient

    constructor (cfg: Config, wiring: Wiring, redis: RedisClient)
      requires cfg.Valid()
      ensures this.cfg == cfg && this.wiring == wiring && this.redis == redis
      ensures Valid()
    {
      this.cfg := cfg;
      this.wiring := wiring;
      this.redis := redis;
    }

    predicate Valid() {
      cfg.Valid()
    }

    /** `generateSvgCaptcha`: store the rendered challenge's text under a fresh id. The
        rendering and its base64 encoding come in as `text` and `svgBase64`. */
    method GenerateSvgCaptcha(id: string, text: string, svgBase64: string) returns (result: CaptchaResult)
      requires Valid()
      modifies redis
      ensures redis.data == IssueCaptcha(cfg, old(redis.data), id, text)
      ensures result == CaptchaResult("data:image/svg+xml;base64," + svgBase64, id)
    {
      result := CaptchaResult("data:image/svg+xml;base64," + svgBase64, id);
      redis.Set(CaptchaKey(result.id), text, cfg.captchaTtl);
    }

    /** `validateCaptcha(id, captcha)`. */
    method ValidateCaptcha(id: Option<string>, captcha: Option<string>) returns (r: Result<bool, Failure>)
      modifies redis
      ensures Outcome(redis.data, r) == CheckCaptcha(old(redis.data), id, captcha)
    {
      var captchaRedisKey := CaptchaKey(Interpolate(id));
      var res := redis.Get(captchaRedisKey);
      if res.None? || res.value == "" {
        return Failure(Business(ExpiredCaptcha));
      }
      if captcha.None? {
        return Failure(TypeError);
      }
      if ToLowerAscii(captcha.value) != ToLowerAscii(res.value) {
        return Failure(Business(InvalidCaptcha));
      }
      redis.Del(captchaRedisKey);
      return Success(false);
    }

    /** `login(loginDto, res)`; `jti` is the id the generator hands out. */
    method Login(users: UserService, dto: LoginDto, jti: string) returns (r: Result<Issued, Failure>)
      requires Valid() && FreshId(wiring, redis.data, jti)
      modifies redis
      ensures Outcome(redis.data, r) == LoginOutcome(cfg, wiring, users, old(redis.data), dto, jti)
    {
      if cfg.captchaEnable {
        var checked := ValidateCaptcha(dto.captchaId, dto.captcha);
        if checked.Failure? {
          return Failure(checked.error);
        }
      }
      var user := users.ValidateUser(dto.account, dto.password);
      if user.Failure? {
        return Failure(user.error);
      }
      var u := user.value;
      redis.Set(LoginSessionKey(wiring, jti), IntToString(u.id), cfg.refreshTokenExpiresIn);
      var cookie := SetCookie(RefreshTokenCookie, GenerateRefreshToken(cfg, wiring, u.id, u.username, jti),
                              true, cfg.refreshTokenExpiresIn * 1000);
      r := Success(Issued(GenerateAccessToken(cfg, wiring, u.id, u.username, jti), cookie));
    }

    /** `refreshToken(oldRefreshToken, res)`; `newJti` is the id the generator hands out.
        The two reads see one snapshot; the three writes are one `Eval`. */
    method RefreshToken(users: UserService, oldRefreshToken: Token, newJti: string)
      returns (r: Result<Issued, Failure>)
      requires Valid() && FreshId(wiring, redis.data, newJti)
      modifies redis
      ensures Outcome(redis.data, r) == RefreshOutcome(cfg, wiring, users, old(redis.data), oldRefreshToken, newJti)
    {
      var validated := ValidateRefreshToken(cfg, oldRefreshToken);
      if validated.Failure? {
        return Failure(validated.error);
      }
      var payload := validated.value;
      var oldId := JtiText(payload);
      var present := redis.Exists(SessionKey(oldId));
      var userId := redis.Get(SessionKey(oldId));
      if present == 0 || StringOfNullable(userId) != IntToString(payload.sub.userId) {
        return Failure(Unauthorized(ExpiredRefreshToken));
      }
      var user := users.ValidateUserExistByUsername(payload.sub.username);
      if user.Failure? {
        return Failure(user.error);
      }
      var u := user.value;
      var expires := cfg.refreshTokenExpiresIn;
      var stored := StringOfNullable(userId);
      redis.Eval(st => RotationScript(st, oldId, newJti, stored, expires));
      var cookie := SetCookie(RefreshTokenCookie, GenerateRefreshToken(cfg, wiring, u.id, u.username, newJti),
                              true, expires * 1000);
      r := Success(Issued(GenerateAccessToken(cfg, wiring, u.id, u.username, newJti), cookie));
    }

    /** `logout(jti, res)`: blacklist and delete when time remains, and clear the cookie in
        every case. */
    method Logout(jti: string) returns (cookie: CookieOp)
      modifies redis
      ensures redis.data == LogoutStore(old(redis.data), jti)
      ensures cookie == ClearCookie(RefreshTokenCookie)
    {
      var ttl := redis.Ttl(SessionKey(jti));
      if ttl > 0 {
        redis.Set(BlacklistKey(jti), "1", ttl);
        redis.Del(SessionKey(jti));
      }
      cookie := ClearCookie(RefreshTokenCookie);
    }
  }
}
