/** The authentication endpoints of the backend (`/auth/...`): the legacy Login Widget callback
    that sets a session cookie, `/me`, the deep links into the bot, and the three steps of the
    bot handshake (register a state, let the bot attach a session token to it, exchange the
    state for the token). Configuration comes from the environment, the clock is a parameter,
    and the JWT library and the user database are given. */
module AuthApi {

  import opened Base
  import opened PyStr
  import opened PyInt
  import Jwt
  import TelegramLogin
  import opened PendingAuth

  /** `os.environ.get("TELEGRAM_BOT_TOKEN", "")`. */
  function BotTokenOf(env: Env): string
  {
    Getenv(env, "TELEGRAM_BOT_TOKEN", "")
  }

  /** `os.environ.get("TELEGRAM_JWT_SECRET", "change-me")`. */
  function JwtSecretOf(env: Env): string
  {
    Getenv(env, "TELEGRAM_JWT_SECRET", "change-me")
  }

  /** `os.environ.get("TELEGRAM_BOT_USERNAME", "")`. */
  function BotUsernameOf(env: Env): string
  {
    Getenv(env, "TELEGRAM_BOT_USERNAME", "")
  }

  /** `os.environ.get("FRONTEND_PUBLIC_URL", "http://localhost:5173")`. */
  function FrontendUrlOf(env: Env): string
  {
    Getenv(env, "FRONTEND_PUBLIC_URL", "http://localhost:5173")
  }

  /** The name of the session cookie. */
  const SessionCookieName: string := "tg_session"

  /** The cookie's `max_age`: 30 days. */
  const SessionCookieMaxAge: int := 60 * 60 * 24 * 30

  /** The `ttl_days` default of `_issue_jwt`. */
  const DefaultTtlDays: int := 30

  /** A 303 See Other redirect, with the session cookie it sets, if any. */
  datatype SessionCookie = SessionCookie(
    name: string, value: string, httpOnly: bool, secure: bool, sameSite: string, maxAge: int, path: string)

  datatype Redirect = Redirect(url: string, status: int, cookie: Option<SessionCookie>)

  // ---------------------------------------------------------------------------------------------
  // Cookie attributes and the token of a request

  datatype CookieAttrs = CookieAttrs(secure: bool, sameSite: string)

  /** `_cookie_settings_from_request`: a secure cookie on https, and `SameSite=None` exactly for
      secure cookies (browsers refuse `SameSite=None` without `Secure`). */
  function CookieSettings(scheme: string): (c: CookieAttrs)
    ensures c.sameSite == "None" <==> c.secure
    ensures c.sameSite == "None" || c.sameSite == "Lax"
  {
    var secure := Lower(scheme) == "https";
    CookieAttrs(secure, if secure then "None" else "Lax")
  }

  /** The scheme is `https` in any mixture of upper and lower case. */
  predicate IsHttpsAnyCase(scheme: string)
  {
    |scheme| == 5 && forall i | 0 <= i < 5 :: scheme[i] == "https"[i] || scheme[i] == "HTTPS"[i]
  }

  /** The cookie is secure for an https request, whatever the case of its scheme, and for no
      other. */
  lemma CookieSecureIffHttps(scheme: string)
    ensures CookieSettings(scheme).secure <==> IsHttpsAnyCase(scheme)
  {
    var l := Lower(scheme);
    if IsHttpsAnyCase(scheme) {
      assert l == "https" by {
        forall i | 0 <= i < 5 ensures l[i] == "https"[i] {
          assert l[i] == LowerChar(scheme[i]);
        }
      }
    }
    if l == "https" {
      forall i | 0 <= i < 5 ensures scheme[i] == "https"[i] || scheme[i] == "HTTPS"[i] {
        assert LowerChar(scheme[i]) == "https"[i];
      }
    }
  }

  /** `_get_jwt_from_request`: the text after the first space of an `Authorization: Bearer …`
      header (section 2.1 of RFC 6750), else the `tg_session` cookie. */
  function JwtFromRequest(authorization: Option<string>, cookie: Option<string>): (t: Option<string>)
    ensures Truthy(authorization) && StartsWith(authorization.value, "Bearer ") ==>
              t == Some(authorization.value[7..])
    ensures !(Truthy(authorization) && StartsWith(authorization.value, "Bearer ")) ==> t == cookie
  {
    if Truthy(authorization) && StartsWith(authorization.value, "Bearer ") then
      var h := authorization.value;
      assert h == "Bearer" + [' '] + h[7..] by {
        assert h[..7] == "Bearer ";
      }
      AfterFirstPrefix("Bearer", ' ', h[7..]);
      AfterFirst(h, ' ')
    else cookie
  }

  /** A bearer header wins over the cookie and carries the token unchanged, even one holding
      spaces. */
  lemma BearerRoundTrip(token: string, cookie: Option<string>)
    ensures JwtFromRequest(Some("Bearer " + token), cookie) == Some(token)
  {
    var h := "Bearer " + token;
    assert StartsWith(h, "Bearer ") by {
      assert h[..7] == "Bearer ";
    }
    assert h[7..] == token;
  }

  // ---------------------------------------------------------------------------------------------
  // Issuing session tokens

  /** `None`, or the str the field holds. */
  function OrNone(s: Option<string>): Scalar
  {
    if s.Some? then StrValue(s.value) else NoneValue
  }

  /** The `tg` claim `_issue_jwt` builds from a verified profile. */
  function ProfileClaim(p: TelegramLogin.LoginProfile): Jwt.TgClaim
  {
    Jwt.TgClaim(if p.id.Some? then IntValue(p.id.value) else NoneValue,
                OrNone(p.username), OrNone(p.firstName), OrNone(p.lastName), OrNone(p.photoUrl))
  }

  /** The claims of `_issue_jwt(profile, secret, ttl_days)` issued at `now`: `sub` is
      `str(id)`, the token lives `ttl_days` days, and it carries no `uid`. */
  function IssueClaims(p: TelegramLogin.LoginProfile, now: int, ttlDays: int): (c: Jwt.Claims)
    ensures c.iat == now && c.exp - c.iat == ttlDays * 86400
    ensures c.tg == ProfileClaim(p) && c.uid == None
    ensures p.id.Some? && WithinStrDigits(p.id.value) ==> ParseInt(c.sub) == p.id
    ensures p.id.None? ==> c.sub == "None"
  {
    var claim := ProfileClaim(p);
    if p.id.Some? && WithinStrDigits(p.id.value) then
      ParseIntRoundTrip(p.id.value); Jwt.Claims(Str(claim.id), claim, None, now, now + ttlDays * 86400)
    else Jwt.Claims(Str(claim.id), claim, None, now, now + ttlDays * 86400)
  }

  /** `_issue_jwt`. */
  function IssueJwt(p: TelegramLogin.LoginProfile, secret: string, now: int, ttlDays: int, codec: Jwt.Codec)
    : (token: string)
    ensures Jwt.Sound(codec) ==> token != [] && PyStr.NoSpace(token)
    ensures Jwt.Sound(codec) && ttlDays > 0 ==> codec.decode(token, secret, now) == Some(IssueClaims(p, now, ttlDays))
  {
    codec.encode(IssueClaims(p, now, ttlDays), secret)
  }

  /** An issued token decodes under the same secret to its claims for exactly `ttl_days` days
      from its issue. */
  lemma IssuedJwtLifetime(p: TelegramLogin.LoginProfile, secret: string, now: int, ttlDays: int,
                          codec: Jwt.Codec, t: int)
    requires Jwt.Sound(codec)
    ensures codec.decode(IssueJwt(p, secret, now, ttlDays, codec), secret, t)
            == if now <= t < now + ttlDays * 86400 then Some(IssueClaims(p, now, ttlDays)) else None
  {
  }

  // ---------------------------------------------------------------------------------------------
  // The legacy Login Widget flow and /me

  /** `telegram_callback`: the query of the Login Widget redirect is verified (at most 300 s
      old), and the browser is sent to the frontend with a 30-day session cookie. */
  function TelegramCallback(env: Env, query: map<string, string>, scheme: string, now: int,
                            codec: Jwt.Codec, crypto: TelegramLogin.Crypto): (r: Result<Redirect, Failure>)
    ensures BotTokenOf(env) == "" ==> r == Err(Http(500, "Bot token not configured"))
    ensures BotTokenOf(env) != "" ==>
              var v := TelegramLogin.ValidateTelegramLogin(query, BotTokenOf(env), now,
                                                           TelegramLogin.DefaultMaxAgeSeconds, crypto);
              (v.Err? ==> r == Err(TelegramLogin.AsFailure(v.error)))
              && (v.Ok? ==> r.Ok? && r.value.url == FrontendUrlOf(env) && r.value.status == 303
                            && r.value.cookie.Some? && r.value.cookie.value.name == SessionCookieName
                            && r.value.cookie.value.value == IssueJwt(v.value, JwtSecretOf(env), now, DefaultTtlDays, codec))
    ensures r.Ok? ==> r.value.cookie.Some? && r.value.cookie.value.httpOnly
                      && r.value.cookie.value.maxAge == SessionCookieMaxAge && r.value.cookie.value.path == "/"
                      && r.value.cookie.value.secure == CookieSettings(scheme).secure
                      && r.value.cookie.value.sameSite == CookieSettings(scheme).sameSite
  {
    var botToken := BotTokenOf(env);
    if botToken == "" then Err(Http(500, "Bot token not configured"))
    else
      match TelegramLogin.ValidateTelegramLogin(query, botToken, now, TelegramLogin.DefaultMaxAgeSeconds, crypto)
      case Err(e) => Err(TelegramLogin.AsFailure(e))
      case Ok(profile) =>
        var token := IssueJwt(profile, JwtSecretOf(env), now, DefaultTtlDays, codec);
        var attrs := CookieSettings(scheme);
        Ok(Redirect(FrontendUrlOf(env), 303,
                    Some(SessionCookie(SessionCookieName, token, true, attrs.secure, attrs.sameSite,
                                       SessionCookieMaxAge, "/"))))
  }

  /** `/me`: the `tg` claim of the request's token. */
  function Me(env: Env, authorization: Option<string>, cookie: Option<string>, now: int, codec: Jwt.Codec)
    : (r: Result<Jwt.TgClaim, Failure>)
    ensures !Truthy(JwtFromRequest(authorization, cookie)) ==> r == Err(Http(401, "Unauthorized"))
    ensures Truthy(JwtFromRequest(authorization, cookie)) ==>
              var d := codec.decode(JwtFromRequest(authorization, cookie).value, JwtSecretOf(env), now);
              (d.None? ==> r == Err(Http(401, "Invalid token"))) && (d.Some? ==> r == Ok(d.value.tg))
  {
    var token := JwtFromRequest(authorization, cookie);
    if !Truthy(token) then Err(Http(401, "Unauthorized"))
    else
      match codec.decode(token.value, JwtSecretOf(env), now)
      case None => Err(Http(401, "Invalid token"))
      case Some(data) => Ok(data.tg)
  }

  // ---------------------------------------------------------------------------------------------
  // Deep links into the bot

  /** The start parameter the handshake hands the bot for a state. */
  function StartParam(state: string): string
  {
    "auth_" + state
  }

  function BotLink(botUsername: string, startParam: string): string
  {
    "https://t.me/" + botUsername + "?start=" + startParam
  }

  /** The start parameter of a deep link without a state. */
  const DefaultStartParam: string := "auth"

  /** `telegram_deeplink`: a link opening the bot with the given state as its start parameter,
      `auth` when there is none. */
  function TelegramDeeplink(env: Env, state: Option<string>): (r: Result<string, Failure>)
    ensures BotUsernameOf(env) == "" <==> r == Err(Http(500, "Bot username not configured"))
    ensures r.Ok? ==> r == Ok(BotLink(BotUsernameOf(env), if Truthy(state) then state.value else DefaultStartParam))
  {
    var botUsername := BotUsernameOf(env);
    if botUsername == "" then Err(Http(500, "Bot username not configured"))
    else
      var startParam := if Truthy(state) then state.value else DefaultStartParam;
      Ok(BotLink(botUsername, startParam))
  }

  // ---------------------------------------------------------------------------------------------
  // The bot handshake, as functions of the registry, and as handlers on the store

  /** `start_telegram_oauth`: the answer and the registry afterwards. The state is registered
      only when the request succeeds. */
  function Start(m: Registry, env: Env, state: Option<string>, now: int): (r: (Result<Redirect, Failure>, Registry))
    ensures !Truthy(state) ==> r == (Err(Http(400, "state is required")), m)
    ensures Truthy(state) && BotUsernameOf(env) == "" ==> r == (Err(Http(500, "Bot username not configured")), m)
    ensures Truthy(state) && BotUsernameOf(env) != "" ==>
              r == (Ok(Redirect(BotLink(BotUsernameOf(env), StartParam(state.value)), 303, None)),
                    Saved(m, state.value, now))
  {
    if !Truthy(state) then (Err(Http(400, "state is required")), m)
    else
      var botUsername := BotUsernameOf(env);
      if botUsername == "" then (Err(Http(500, "Bot username not configured")), m)
      else (Ok(Redirect(BotLink(botUsername, StartParam(state.value)), 303, None)), Saved(m, state.value, now))
  }

  /** A JSON request body: a missing key and JSON null both read as None. */
  type Body = map<string, Scalar>

  /** `(body or {}).get(key)`. */
  function Field(body: Body, key: string): Scalar
  {
    if key in body then body[key] else NoneValue
  }

  /** The `tg_profile` of the bot's request. */
  function BodyProfile(body: Body): Jwt.TgClaim
  {
    Jwt.TgClaim(Field(body, "id"), Field(body, "username"), Field(body, "first_name"),
                Field(body, "last_name"), Field(body, "photo_url"))
  }

  /** `state and state in _state_store`: a non-empty str that is registered (an int or None is
      never a key of the store). */
  predicate KnownState(m: Registry, state: Scalar)
  {
    IsTruthy(state) && state.StrValue? && state.s in m
  }

  /** The claims of the session token the bot callback issues at `now` for a profile and the
      id of the user record it was resolved to. */
  function BotSessionClaims(profile: Jwt.TgClaim, userId: Scalar, now: int): (c: Jwt.Claims)
    ensures c.sub == Str(profile.id) && c.tg == profile && c.uid == Some(Str(userId))
    ensures c.iat == now && c.exp - c.iat == Jwt.SessionTtlSeconds
  {
    Jwt.Claims(Str(profile.id), profile, Some(Str(userId)), now, now + Jwt.SessionTtlSeconds)
  }

  /** `telegram_bot_callback`: the answer and the registry afterwards. The checks come in this
      order: bot token configured, `X-Bot-Token` header equal to it, state registered (its age
      is not checked), id present and truthy; then the user record is looked up (`user` is the
      id of the record `get_or_create_user_by_telegram` returns, or the exception it raises),
      and the token is attached to that state. Every failure leaves the registry as it was. */
  function BotCallback(m: Registry, env: Env, botHeader: Option<string>, body: Body,
                       user: Result<Scalar, string>, now: int, codec: Jwt.Codec)
    : (r: (Result<bool, Failure>, Registry))
    ensures r.0.Err? ==> r.1 == m
    ensures BotTokenOf(env) == "" ==> r.0 == Err(Http(500, "Bot token not configured"))
    ensures BotTokenOf(env) != "" && botHeader != Some(BotTokenOf(env)) ==> r.0 == Err(Http(401, "Unauthorized bot"))
    ensures BotTokenOf(env) != "" && botHeader == Some(BotTokenOf(env)) && !KnownState(m, Field(body, "state")) ==>
              r.0 == Err(Http(400, "Invalid state"))
    ensures (BotTokenOf(env) != "" && botHeader == Some(BotTokenOf(env)) && KnownState(m, Field(body, "state"))
             && !IsTruthy(Field(body, "id"))) ==> r.0 == Err(Http(400, "Missing telegram id"))
    ensures r.0.Ok? <==> && BotTokenOf(env) != "" && botHeader == Some(BotTokenOf(env))
                         && KnownState(m, Field(body, "state")) && IsTruthy(Field(body, "id")) && user.Ok?
    ensures (BotTokenOf(env) != "" && botHeader == Some(BotTokenOf(env)) && KnownState(m, Field(body, "state"))
             && IsTruthy(Field(body, "id")) && user.Err?) ==> r.0 == Err(Uncaught(user.error))
    ensures r.0.Ok? ==>
              && r.0.value
              && r.1 == WithToken(m, Field(body, "state").s,
                                  codec.encode(BotSessionClaims(BodyProfile(body), user.value, now), JwtSecretOf(env)),
                                  BodyProfile(body))
  {
    var botToken := BotTokenOf(env);
    if botToken == "" then (Err(Http(500, "Bot token not configured")), m)
    else if botHeader != Some(botToken) then (Err(Http(401, "Unauthorized bot")), m)
    else
      var state := Field(body, "state");
      if !KnownState(m, state) then (Err(Http(400, "Invalid state")), m)
      else
        var profile := BodyProfile(body);
        if !IsTruthy(profile.id) then (Err(Http(400, "Missing telegram id")), m)
        else
          match user
          case Err(e) => (Err(Uncaught(e)), m)
          case Ok(userId) =>
            var token := codec.encode(BotSessionClaims(profile, userId, now), JwtSecretOf(env));
            (Ok(true), WithToken(m, state.s, token, profile))
  }

  /** What a successful exchange returns. */
  datatype TokenGrant = TokenGrant(token: string, profile: Option<Jwt.TgClaim>)

  /** `exchange_token`: the answer and the registry afterwards. The state is consumed in every
      case, and the exchange succeeds exactly when the state was registered, is at most 600 s
      old and has a token, which it then returns with its profile. */
  function Exchange(m: Registry, state: string, now: int): (r: (Result<TokenGrant, Failure>, Registry))
    ensures r.1 == Consumed(m, state, now).0
    ensures r.0.Ok? <==> state in m && Fresh(m[state], now) && Truthy(m[state].token)
    ensures r.0.Ok? ==> r.0.value == TokenGrant(m[state].token.value, m[state].profile)
    ensures r.0.Err? ==> r.0.error == Http(400, "Invalid or expired state")
  {
    var (rest, item) := Consumed(m, state, now);
    if item.None? || !Truthy(item.value.token) then (Err(Http(400, "Invalid or expired state")), rest)
    else (Ok(TokenGrant(item.value.token.value, item.value.profile)), rest)
  }

  /** The handler `start_telegram_oauth` on the store. */
  method StartTelegramOauth(store: PendingAuthStore, env: Env, state: Option<string>, now: int)
    returns (r: Result<Redirect, Failure>)
    modifies store
    ensures (r, store.entries) == Start(old(store.entries), env, state, now)
  {
    if !Truthy(state) {
      return Err(Http(400, "state is required"));
    }
    var botUsername := BotUsernameOf(env);
    if botUsername == "" {
      return Err(Http(500, "Bot username not configured"));
    }
    store.Save(state.value, now);
    var tp := StartParam(state.value);
    return Ok(Redirect(BotLink(botUsername, tp), 303, None));
  }

  /** The handler `telegram_bot_callback` on the store. */
  method TelegramBotCallback(store: PendingAuthStore, env: Env, botHeader: Option<string>, body: Body,
                             user: Result<Scalar, string>, now: int, codec: Jwt.Codec)
    returns (r: Result<bool, Failure>)
    modifies store
    ensures (r, store.entries) == BotCallback(old(store.entries), env, botHeader, body, user, now, codec)
  {
    var botToken := BotTokenOf(env);
    if botToken == "" {
      return Err(Http(500, "Bot token not configured"));
    }
    if botHeader != Some(botToken) {
      return Err(Http(401, "Unauthorized bot"));
    }
    var state := Field(body, "state");
    if !KnownState(store.entries, state) {
      return Err(Http(400, "Invalid state"));
    }
    var tgProfile := BodyProfile(body);
    if !IsTruthy(tgProfile.id) {
      return Err(Http(400, "Missing telegram id"));
    }
    if user.Err? {
      return Err(Uncaught(user.error));
    }
    var token := codec.encode(BotSessionClaims(tgProfile, user.value, now), JwtSecretOf(env));
    store.SetToken(state.s, token, tgProfile);
    return Ok(true);
  }

  /** The handler `exchange_token` on the store. */
  method ExchangeToken(store: PendingAuthStore, state: string, now: int) returns (r: Result<TokenGrant, Failure>)
    modifies store
    ensures (r, store.entries) == Exchange(old(store.entries), state, now)
  {
    var item := store.GetAndConsume(state, now);
    if item.None? || !Truthy(item.value.token) {
      return Err(Http(400, "Invalid or expired state"));
    }
    return Ok(TokenGrant(item.value.token.value, item.value.profile));
  }

  // ---------------------------------------------------------------------------------------------
  // The landing redirect

  /** The frontend page the browser lands on after the bot completed the login. */
  function SuccessUrl(frontendUrl: string, state: string): (url: string)
    ensures var base := RStripChar(frontendUrl, '/');
            url == base + "/auth/success?state=" + state && (base == [] || base[|base| - 1] != '/')
  {
    RStripChar(frontendUrl, '/') + "/auth/success?state=" + state
  }

  /** `auth_success_redirect`. */
  function AuthSuccessRedirect(env: Env, state: string): (r: Redirect)
    ensures r.status == 303 && r.cookie.None?
    ensures var base := RStripChar(FrontendUrlOf(env), '/');
            r.url == base + "/auth/success?state=" + state && (base == [] || base[|base| - 1] != '/')
  {
    Redirect(SuccessUrl(FrontendUrlOf(env), state), 303, None)
  }

  /** Trailing slashes of the configured frontend URL make no difference. */
  lemma SuccessUrlTrailingSlash(frontendUrl: string, state: string)
    ensures SuccessUrl(frontendUrl + "/", state) == SuccessUrl(frontendUrl, state)
  {
    assert (frontendUrl + "/")[..|frontendUrl|] == frontendUrl;
  }

  /** A frontend URL without a trailing slash is used as it is. */
  lemma SuccessUrlPlain(frontendUrl: string, state: string)
    requires frontendUrl == [] || frontendUrl[|frontendUrl| - 1] != '/'
    ensures SuccessUrl(frontendUrl, state) == frontendUrl + "/auth/success?state=" + state
  {
  }
}
