/** What the operations do to one another: a session's life from login through refresh
    and logout, as the guard sees it, with the wiring as written and as corrected; and the
    captcha's one-time use. */
module Sessions {
  import opened Common
  import opened Js
  import opened Utils
  import opened Settings
  import opened Errors
  import opened Redis
  import opened Tokens
  import opened Users
  import opened LoginDto
  import opened Auth
  import opened Guard

  /** The key login writes as written is not the key refresh reads for a token without
      `jti`: they part at the fifth character. */
  lemma LoginKeyIsNotUndefinedKey(jti: string)
    ensures LoginSessionKey(AsWritten, jti) != SessionKey("undefined")
  {
    LoginKeyIsNotReadKey(jti);
    assert LoginSessionKey(AsWritten, jti)[4] == ':';
    assert SessionKey("undefined")[4] == 'u';
  }

  /** As written, a successful login is a dead end: the refresh token it sets is refused
      as expired, and its access token is refused by the guard. Both read the session under
      `"jti:undefined"` (the token carries no `jti`), while login wrote `"jti::" + jti`. */
  lemma AsWrittenLoginIsUnusable(
    cfg: Config, users: UserService, s: Store, dto: LoginDto, jti: string, newJti: string)
    requires FreshId(AsWritten, s, jti) && SessionKey("undefined") !in s
    requires LoginOutcome(cfg, AsWritten, users, s, dto, jti).result.Success?
    requires FreshId(AsWritten, LoginOutcome(cfg, AsWritten, users, s, dto, jti).store, newJti)
    ensures var o := LoginOutcome(cfg, AsWritten, users, s, dto, jti);
      RefreshOutcome(cfg, AsWritten, users, o.store, o.result.value.cookie.value, newJti).result
        == Failure(Unauthorized(ExpiredRefreshToken))
    ensures var o := LoginOutcome(cfg, AsWritten, users, s, dto, jti);
      CanActivate(cfg, false, Some(o.result.value.accessToken), o.store) == Failure(Unauthorized(InvalidToken))
  {
    var o := LoginOutcome(cfg, AsWritten, users, s, dto, jti);
    var u := users.ValidateUser(dto.account, dto.password).value;
    AsWrittenIssuedTokensHaveNoJti(cfg, u.id, u.username, jti);
    LoginKeyIsNotUndefinedKey(jti);
    assert SessionKey("undefined") !in o.store;
    SessionMatchesMeans(o.store, "undefined", u.id);
  }

  /** With the key and the claim corrected, a login yields a live session: the guard lets
      its access token through with the signed claims, and its refresh token rotates. */
  lemma CorrectedLoginStartsSession(
    cfg: Config, users: UserService, s: Store, dto: LoginDto, jti: string, newJti: string)
    requires FreshId(Corrected, s, jti)
    requires LoginOutcome(cfg, Corrected, users, s, dto, jti).result.Success?
    requires FreshId(Corrected, LoginOutcome(cfg, Corrected, users, s, dto, jti).store, newJti)
    ensures var o := LoginOutcome(cfg, Corrected, users, s, dto, jti);
      var u := users.ValidateUser(dto.account, dto.password).value;
      CanActivate(cfg, false, Some(o.result.value.accessToken), o.store)
        == Success(Some(Claims(Corrected, u.id, u.username, AccessTokenType, jti)))
    ensures var o := LoginOutcome(cfg, Corrected, users, s, dto, jti);
      RefreshOutcome(cfg, Corrected, users, o.store, o.result.value.cookie.value, newJti).result.Success?
  {
    var o := LoginOutcome(cfg, Corrected, users, s, dto, jti);
    var u := users.ValidateUser(dto.account, dto.password).value;
    CorrectedIssuedTokensCarryJti(cfg, u.id, u.username, jti);
    KeyFamiliesAreDisjoint(Corrected, jti, jti);
    ValidatedUserStaysFindable(users, dto.account, dto.password);
    SessionMatchesMeans(o.store, jti, u.id);
    assert BlacklistKey(jti) !in o.store;
  }

  /** A refresh token can be spent once: after a successful rotation the same token is
      refused as expired, and the guard refuses every access token of the old id. */
  lemma RefreshIsOneTime(
    cfg: Config, w: Wiring, users: UserService, s: Store, token: Token, n1: string, n2: string, access: Token)
    requires FreshId(w, s, n1) && RefreshOutcome(cfg, w, users, s, token, n1).result.Success?
    requires FreshId(w, RefreshOutcome(cfg, w, users, s, token, n1).store, n2)
    requires access.Jwt? && JtiText(access.payload) == JtiText(token.payload)
    ensures var s1 := RefreshOutcome(cfg, w, users, s, token, n1).store;
      RefreshOutcome(cfg, w, users, s1, token, n2).result == Failure(Unauthorized(ExpiredRefreshToken))
    ensures var s1 := RefreshOutcome(cfg, w, users, s, token, n1).store;
      CanActivate(cfg, false, Some(access), s1).Failure?
  {
    var s1 := RefreshOutcome(cfg, w, users, s, token, n1).store;
    SessionMatchesMeans(s1, JtiText(token.payload), token.payload.sub.userId);
  }

  /** After logout the session's refresh token is refused as expired and the guard
      refuses every access token of that id, provided sessions are only ever written with
      an expiry, as login and refresh write them. */
  lemma LogoutEndsSession(
    cfg: Config, w: Wiring, users: UserService, s: Store, jti: string, token: Token, n: string, access: Token)
    requires SessionKey(jti) in s ==> TtlOf(s, SessionKey(jti)) > 0
    requires ValidateRefreshToken(cfg, token).Success? && JtiText(token.payload) == jti
    requires access.Jwt? && JtiText(access.payload) == jti
    requires FreshId(w, LogoutStore(s, jti), n)
    ensures RefreshOutcome(cfg, w, users, LogoutStore(s, jti), token, n).result
      == Failure(Unauthorized(ExpiredRefreshToken))
    ensures CanActivate(cfg, false, Some(access), LogoutStore(s, jti)).Failure?
  {
    var s1 := LogoutStore(s, jti);
    assert SessionKey(jti) !in s1;
    SessionMatchesMeans(s1, jti, token.payload.sub.userId);
  }

  /** Logout blacklists the id for exactly the time its session had left: at every later
      moment the blacklist entry is present just when the session would still have been. */
  lemma LogoutBlacklistMatchesSession(s: Store, jti: string, d: nat)
    requires TtlOf(s, SessionKey(jti)) > 0
    ensures BlacklistKey(jti) in Elapse(LogoutStore(s, jti), d) <==> SessionKey(jti) in Elapse(s, d)
  {
  }

  /** Refresh blacklists the old id for the full refresh lifetime, however little of its
      session was left: the entry outlives the session it replaces whenever the session
      had less than the full lifetime remaining. */
  lemma RefreshBlacklistLastsFullLifetime(
    cfg: Config, w: Wiring, users: UserService, s: Store, token: Token, n: string, d: nat)
    requires FreshId(w, s, n) && RefreshOutcome(cfg, w, users, s, token, n).result.Success?
    ensures var s1 := RefreshOutcome(cfg, w, users, s, token, n).store;
      BlacklistKey(JtiText(token.payload)) in Elapse(s1, d) <==> d < cfg.refreshTokenExpiresIn
  {
  }

  /** A captcha answered in any letter case passes once, removing only its own entry;
      a second attempt finds it gone. */
  lemma CaptchaIsOneTime(cfg: Config, s: Store, id: string, text: string, answer: string)
    requires text != "" && ToLowerAscii(answer) == ToLowerAscii(text)
    ensures var o := CheckCaptcha(IssueCaptcha(cfg, s, id, text), Some(id), Some(answer));
      && o.result == Success(false)
      && o.store == Delete(s, CaptchaKey(id))
      && CheckCaptcha(o.store, Some(id), Some(answer)).result == Failure(Business(ExpiredCaptcha))
  {
    var o := CheckCaptcha(IssueCaptcha(cfg, s, id, text), Some(id), Some(answer));
    assert o.store == Delete(s, CaptchaKey(id));
  }

  /** The answer typed in lower case is accepted: the check compares lower-cased forms. */
  lemma CaptchaAcceptsLowerCaseAnswer(cfg: Config, s: Store, id: string, text: string)
    requires text != ""
    ensures CheckCaptcha(IssueCaptcha(cfg, s, id, text), Some(id), Some(ToLowerAscii(text))).result
      == Success(false)
  {
    ToLowerAsciiIdempotent(text);
  }

  /** A captcha not answered within its lifetime has expired. */
  lemma CaptchaExpires(cfg: Config, s: Store, id: string, text: string, answer: Option<string>, d: nat)
    requires d >= cfg.captchaTtl
    ensures CheckCaptcha(Elapse(IssueCaptcha(cfg, s, id, text), d), Some(id), answer).result
      == Failure(Business(ExpiredCaptcha))
  {
  }

  /** No id is both revoked and live: a blacklisted id has no session entry. Refresh reads
      only the session entry, never the blacklist, so it is this invariant that keeps a
      revoked id from being accepted as a refresh credential. */
  ghost predicate NoRevokedLive(s: Store) {
    forall id :: BlacklistKey(id) in s ==> SessionKey(id) !in s
  }

  /** Under the invariant, a refresh token whose id is blacklisted is refused as expired. */
  lemma RevokedRefreshRefused(cfg: Config, w: Wiring, users: UserService, s: Store, token: Token, n: string)
    requires NoRevokedLive(s) && FreshId(w, s, n)
    requires ValidateRefreshToken(cfg, token).Success? && BlacklistKey(JtiText(token.payload)) in s
    ensures RefreshOutcome(cfg, w, users, s, token, n).result == Failure(Unauthorized(ExpiredRefreshToken))
  {
    SessionMatchesMeans(s, JtiText(token.payload), token.payload.sub.userId);
  }

  /** Issuing a captcha keeps the invariant: its key is neither a session nor a blacklist key. */
  lemma IssueCaptchaKeepsNoRevokedLive(cfg: Config, s: Store, id: string, text: string)
    requires NoRevokedLive(s)
    ensures NoRevokedLive(IssueCaptcha(cfg, s, id, text))
  {
    var r := IssueCaptcha(cfg, s, id, text);
    forall x | BlacklistKey(x) in r ensures SessionKey(x) !in r {
      KeyFamiliesAreDisjoint(Corrected, id, x);
    }
  }

  /** Checking a captcha keeps the invariant: it deletes at most a key. */
  lemma CheckCaptchaKeepsNoRevokedLive(s: Store, id: Option<string>, answer: Option<string>)
    requires NoRevokedLive(s)
    ensures NoRevokedLive(CheckCaptcha(s, id, answer).store)
  {
    var r := CheckCaptcha(s, id, answer).store;
    forall x | BlacklistKey(x) in r ensures SessionKey(x) !in r {
      assert BlacklistKey(x) in s;
    }
  }

  /** Login keeps the invariant when no blacklist entry names the session it writes. With
      the corrected wiring that is the fresh id itself; as written, login's key
      `"jti::" + jti` is the session key of the id `":" + jti`, so that id must be unrevoked. */
  lemma LoginKeepsNoRevokedLive(cfg: Config, w: Wiring, users: UserService, s: Store, dto: LoginDto, jti: string)
    requires NoRevokedLive(s) && FreshId(w, s, jti)
    requires w.AsWritten? ==> BlacklistKey(":" + jti) !in s
    ensures NoRevokedLive(LoginOutcome(cfg, w, users, s, dto, jti).store)
  {
    var r := LoginOutcome(cfg, w, users, s, dto, jti).store;
    var kid := if w.AsWritten? then ":" + jti else jti;
    if w.AsWritten? {
      LoginKeyIsNotReadKey(jti);
      assert "jti::" + jti == SessionKey(kid);
    }
    assert LoginSessionKey(w, jti) == SessionKey(kid) && BlacklistKey(kid) !in s;
    forall x | BlacklistKey(x) in r ensures SessionKey(x) !in r {
      KeyFamiliesAreDisjoint(w, jti, x);
      assert BlacklistKey(x) in s;
      if x != kid {
        KeysAreInjective(w, x, kid);
      }
    }
  }

  /** Refresh keeps the invariant: the id it blacklists loses its session, and the id it
      makes live was not blacklisted. */
  lemma RefreshKeepsNoRevokedLive(cfg: Config, w: Wiring, users: UserService, s: Store, token: Token, n: string)
    requires NoRevokedLive(s) && FreshId(w, s, n)
    ensures NoRevokedLive(RefreshOutcome(cfg, w, users, s, token, n).store)
  {
    var o := RefreshOutcome(cfg, w, users, s, token, n);
    if o.result.Success? {
      var oldId := JtiText(token.payload);
      assert o.store.Keys == s.Keys - {SessionKey(oldId)} + {BlacklistKey(oldId), SessionKey(n)};
      assert SessionKey(oldId) !in o.store;
      RotationKeepsNoRevokedLive(s, o.store, oldId, n);
    }
  }

  /** Any store whose keys are those of a rotation from `oldId` to an unrevoked `newId`
      keeps the invariant. */
  lemma RotationKeepsNoRevokedLive(s: Store, r: Store, oldId: string, newId: string)
    requires NoRevokedLive(s) && BlacklistKey(newId) !in s
    requires r.Keys == s.Keys - {SessionKey(oldId)} + {BlacklistKey(oldId), SessionKey(newId)}
    requires SessionKey(oldId) !in r
    ensures NoRevokedLive(r)
  {
    forall x | BlacklistKey(x) in r ensures SessionKey(x) !in r {
      if x != oldId {
        KeysAreInjective(Corrected, x, oldId);
        SessionKeyIsNotBlacklistKey(x, oldId);
        SessionKeyIsNotBlacklistKey(newId, x);
        assert BlacklistKey(x) in s;
        if x != newId {
          KeysAreInjective(Corrected, x, newId);
        }
      }
    }
  }

  /** Logout keeps the invariant: the id it blacklists loses its session. */
  lemma LogoutKeepsNoRevokedLive(s: Store, jti: string)
    requires NoRevokedLive(s)
    ensures NoRevokedLive(LogoutStore(s, jti))
  {
    var r := LogoutStore(s, jti);
    forall x | BlacklistKey(x) in r ensures SessionKey(x) !in r {
      if x != jti {
        KeysAreInjective(Corrected, x, jti);
        SessionKeyIsNotBlacklistKey(x, jti);
      }
    }
  }

  /** The passing of time keeps the invariant: expiry only removes keys. */
  lemma ElapseKeepsNoRevokedLive(s: Store, d: nat)
    requires NoRevokedLive(s)
    ensures NoRevokedLive(Elapse(s, d))
  {
    var r := Elapse(s, d);
    forall x | BlacklistKey(x) in r ensures SessionKey(x) !in r {
      assert BlacklistKey(x) in s;
    }
  }
}
