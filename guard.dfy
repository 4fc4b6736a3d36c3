/** The JWT guard in front of every non-public route. It reads the store (one `exists`
    and one `get` on the same snapshot) and never writes it: it is a function of the
    store, not an operation on it. */
module Guard {
  import opened Common
  import opened Js
  import opened Settings
  import opened Errors
  import opened Redis
  import opened Tokens
  import opened Auth

  /** `handleRequest(err, user, info)`: rethrow the strategy's error, reject a missing
      user, and otherwise hand the user on unchanged. */
  function HandleRequest<U>(err: Option<Failure>, user: Option<U>): (r: Result<U, Failure>)
    ensures r.Success? <==> err.None? && user.Some?
    ensures r.Success? ==> r.value == user.value
    ensures err.Some? ==> r == Failure(err.value)
    ensures err.None? && user.None? ==> r == Failure(Unauthorized(InvalidToken))
  {
    if err.Some? then Failure(err.value)
    else if user.None? then Failure(Unauthorized(InvalidToken))
    else Success(user.value)
  }

  /** `super.canActivate(context)`: the passport JWT strategy verifies the bearer token
      against `jwt.secret`, expiry included, and passes the payload to `handleRequest`.
      A failed verification reaches `handleRequest` as no user and no error. */
  function StrategyCheck(cfg: Config, t: Token): (r: Result<Payload, Failure>)
    ensures r.Success? <==> Verify(t, cfg.jwtSecret).Some?
    ensures r.Success? ==> r.value == t.payload
  {
    HandleRequest(None, Verify(t, cfg.jwtSecret))
  }

  /** `canActivate(context)`. `Success(None)` lets a public route through without a user;
      `Success(Some(p))` lets the request through with `p` as its user. */
  function CanActivate(cfg: Config, isPublic: bool, bearer: Option<Token>, s: Store)
    : (r: Result<Option<Payload>, Failure>)
    ensures isPublic ==> r == Success(None)
    ensures !isPublic && bearer.None? ==> r == Failure(Unauthorized(InvalidToken))
    ensures !isPublic && bearer.Some? && ValidateAccessToken(cfg, bearer.value).Failure? ==>
      r == Failure(Business(InvalidToken))
    ensures !isPublic && bearer.Some? && ValidateAccessToken(cfg, bearer.value).Success? ==>
      var id := JtiText(bearer.value.payload);
      && (r.Success? <==>
            BlacklistKey(id) !in s && SessionKey(id) in s
            && s[SessionKey(id)].value == IntToString(bearer.value.payload.sub.userId))
      && (r.Success? ==> r.value == Some(bearer.value.payload))
      && (r.Failure? ==> r.error == Unauthorized(InvalidToken))
  {
    if isPublic then Success(None)
    else if bearer.None? then Failure(Unauthorized(InvalidToken))
    else
      match ValidateAccessToken(cfg, bearer.value)
      case Failure(e) => Failure(e)
      case Success(payload) =>
        var blacklisted := KeyCount(s, BlacklistKey(JtiText(payload)));
        var userId := ValueAt(s, SessionKey(JtiText(payload)));
        SessionMatchesMeans(s, JtiText(payload), payload.sub.userId);
        if blacklisted != 0 || StringOfNullable(userId) != IntToString(payload.sub.userId) then
          Failure(Unauthorized(InvalidToken))
        else
          match StrategyCheck(cfg, bearer.value)
          case Failure(_) => Failure(Unauthorized(InvalidToken))
          case Success(user) => Success(Some(user))
  }

  /** A public route, a missing token and a token that fails validation are all decided
      without looking at the store. */
  lemma DecidedWithoutStore(cfg: Config, isPublic: bool, bearer: Option<Token>, s1: Store, s2: Store)
    requires isPublic || bearer.None? || ValidateAccessToken(cfg, bearer.value).Failure?
    ensures CanActivate(cfg, isPublic, bearer, s1) == CanActivate(cfg, isPublic, bearer, s2)
  {
  }

  /** A blacklisted id is refused even when its session entry still names the user. */
  lemma BlacklistOverridesSession(cfg: Config, t: Token, s: Store)
    requires t.Jwt? && BlacklistKey(JtiText(t.payload)) in s
    ensures CanActivate(cfg, false, Some(t), s).Failure?
  {
  }

  /** Once `validateAccessToken` has accepted a token, the strategy accepts it too, with
      the same payload: the catch around `super.canActivate` is never taken. */
  lemma StrategyAgreesWithValidation(cfg: Config, t: Token)
    requires ValidateAccessToken(cfg, t).Success?
    ensures StrategyCheck(cfg, t) == Success(t.payload)
  {
  }
}
