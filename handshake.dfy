/** Properties of the login flows as a whole: the bot handshake from the browser's first
    request to the token exchange, the order in which its steps must happen, the legacy Login
    Widget flow up to `/me`, and how the three `Authorization` parsers of the backend differ.
    `/me` and the orders endpoints read the header with `_get_jwt_from_request` and `/users/me`
    with `get_current_user`; the third parser, `_extract_bearer_token` in the orders module, is
    defined but no endpoint calls it, so where it disagrees with the others no request is
    affected. */
module Handshake {

  import opened Base
  import opened PyStr
  import opened PyInt
  import Jwt
  import TelegramLogin
  import opened PendingAuth
  import opened AuthApi
  import Bot
  import Orders
  import CoreAuth
  import UrlEncode

  /** The request body the bot callback accepts for `state`. */
  predicate CompletesState(body: Body, state: string)
  {
    Field(body, "state") == StrValue(state) && IsTruthy(Field(body, "id"))
  }

  /** The handshake as the browser, the bot and the browser again drive it: the state is
      registered at `t0`, the bot attaches a token at `t1`, and the browser exchanges the state
      at `t2`, at most ten minutes after registering it. The browser then holds a token that
      `/me` and the orders endpoints accept, with the bot's profile, for 30 days from `t1`; the
      state is gone and no other state was touched. */
  lemma HappyPath(m: Registry, env: Env, state: string, body: Body, userId: Scalar, codec: Jwt.Codec,
                  t0: int, t1: int, t2: int, t: int)
    requires state != "" && BotUsernameOf(env) != "" && BotTokenOf(env) != ""
    requires CompletesState(body, state)
    requires t2 - t0 <= StateTtlSeconds
    requires Jwt.Sound(codec) && t1 <= t < t1 + Jwt.SessionTtlSeconds
    ensures var (r1, m1) := Start(m, env, Some(state), t0);
            var (r2, m2) := BotCallback(m1, env, Some(BotTokenOf(env)), body, Ok(userId), t1, codec);
            var (r3, m3) := Exchange(m2, state, t2);
            && r1.Ok? && r2.Ok? && r3.Ok?
            && r3.value.profile == Some(BodyProfile(body))
            && codec.decode(r3.value.token, JwtSecretOf(env), t) == Some(BotSessionClaims(BodyProfile(body), userId, t1))
            && Me(env, Some("Bearer " + r3.value.token), None, t, codec) == Ok(BodyProfile(body))
            && Orders.CurrentTelegramClaim(env, None, Some(r3.value.token), t, codec) == Ok(BodyProfile(body))
            && m3.Keys == m.Keys - {state}
            && forall k | k in m3 :: m3[k] == m[k]
  {
    var (r1, m1) := Start(m, env, Some(state), t0);
    var (r2, m2) := BotCallback(m1, env, Some(BotTokenOf(env)), body, Ok(userId), t1, codec);
    assert KnownState(m1, Field(body, "state"));
    var claims := BotSessionClaims(BodyProfile(body), userId, t1);
    var token := codec.encode(claims, JwtSecretOf(env));
    assert m2 == WithToken(m1, state, token, BodyProfile(body));
    assert m2[state] == Entry(t0, Some(token), Some(BodyProfile(body)));
    Jwt.TokenShape(codec, claims, JwtSecretOf(env));
    var (r3, m3) := Exchange(m2, state, t2);
    assert r3 == Ok(TokenGrant(token, Some(BodyProfile(body))));
    BearerRoundTrip(token, None);
  }

  /** Exchanging too early loses the login: an exchange before the bot's callback fails and
      consumes the state, so the bot's callback is then refused and a later exchange fails as
      well. Polling the exchange endpoint until the token is ready does not work. */
  lemma ExchangeBeforeCallback(m: Registry, env: Env, state: string, body: Body, user: Result<Scalar, string>,
                               codec: Jwt.Codec, t0: int, t1: int, t2: int, t3: int)
    requires state != "" && BotUsernameOf(env) != "" && BotTokenOf(env) != ""
    requires CompletesState(body, state)
    ensures var (_, m1) := Start(m, env, Some(state), t0);
            var (e1, m2) := Exchange(m1, state, t1);
            var (r, m3) := BotCallback(m2, env, Some(BotTokenOf(env)), body, user, t2, codec);
            var (e2, _) := Exchange(m3, state, t3);
            && e1 == Err(Http(400, "Invalid or expired state"))
            && r == Err(Http(400, "Invalid state"))
            && e2 == Err(Http(400, "Invalid or expired state"))
  {
    var (_, m1) := Start(m, env, Some(state), t0);
    var (e1, m2) := Exchange(m1, state, t1);
    assert state !in m2;
    assert !KnownState(m2, Field(body, "state"));
  }

  /** The callback does not check the age of a state: a registration older than ten minutes
      that nobody has looked up yet still gets its token. The exchange then refuses it and
      drops it. */
  lemma StaleStateCompleted(m: Registry, env: Env, state: string, body: Body, userId: Scalar, codec: Jwt.Codec,
                            t1: int, t2: int)
    requires BotTokenOf(env) != "" && state != "" && state in m
    requires CompletesState(body, state)
    requires t1 - m[state].createdAt > StateTtlSeconds && t2 >= t1
    ensures var (r, m1) := BotCallback(m, env, Some(BotTokenOf(env)), body, Ok(userId), t1, codec);
            var (e, m2) := Exchange(m1, state, t2);
            && r == Ok(true) && m1[state].token.Some?
            && e == Err(Http(400, "Invalid or expired state")) && state !in m2
  {
    assert KnownState(m, Field(body, "state"));
  }

  /** A state is exchanged at most once. */
  lemma ExchangeOnce(m: Registry, state: string, t1: int, t2: int)
    ensures Exchange(Exchange(m, state, t1).1, state, t2).0 == Err(Http(400, "Invalid or expired state"))
  {
  }

  /** Only the bot can complete a state: with any other `X-Bot-Token` the callback is refused
      and no state changes, so a later exchange sees exactly what it would have seen. */
  lemma ForeignCallbackChangesNothing(m: Registry, env: Env, header: Option<string>, body: Body,
                                      user: Result<Scalar, string>, codec: Jwt.Codec, now: int, state: string, t: int)
    requires BotTokenOf(env) != "" && header != Some(BotTokenOf(env))
    ensures var (r, m1) := BotCallback(m, env, header, body, user, now, codec);
            r == Err(Http(401, "Unauthorized bot")) && Exchange(m1, state, t) == Exchange(m, state, t)
  {
  }

  /** The bot's side of a handshake start: it reads the state back out of the backend's start
      parameter and posts a body that the backend's callback accepts for that state (given the
      same bot token on both sides and a Telegram user with a non-zero id). Without a user the
      body has no id and the callback refuses it. */
  lemma BotPayloadCompletesState(m: Registry, env: Env, state: string, user: Option<Bot.TgUser>, photo: Option<string>,
                                 userId: Scalar, now: int, codec: Jwt.Codec)
    requires BotTokenOf(env) != "" && state != "" && state in m
    ensures Bot.ParseStartState(Bot.StartParamOf([StartParam(state)])) == Some(state)
    ensures user.Some? && user.value.id != 0 ==>
              BotCallback(m, env, Some(BotTokenOf(env)), Bot.Payload(user, photo, state), Ok(userId), now, codec).0 == Ok(true)
    ensures user.None? ==>
              BotCallback(m, env, Some(BotTokenOf(env)), Bot.Payload(user, photo, state), Ok(userId), now, codec).0
              == Err(Http(400, "Missing telegram id"))
  {
    Bot.StartStateRoundTrip(state);
    var body := Bot.Payload(user, photo, state);
    assert Field(body, "state") == StrValue(state);
    assert KnownState(m, Field(body, "state"));
  }

  /** A deep link requested without a state opens the bot with `auth`, which is not a handshake
      parameter: the bot offers the Login Widget button, with `state=auth` in its URL. */
  lemma StatelessDeeplinkTakesLegacyPath(env: Env, base: string)
    requires BotUsernameOf(env) != ""
    ensures TelegramDeeplink(env, None) == Ok(BotLink(BotUsernameOf(env), DefaultStartParam))
    ensures Bot.ParseStartState(Some(DefaultStartParam)) == None
    ensures Bot.BuildLoginUrl(base, Some(DefaultStartParam)) == base + "?state=" + DefaultStartParam
  {
    assert DefaultStartParam == "auth" && Bot.ParseStartState(Some(DefaultStartParam)) == None by {
      Bot.NoStateWithoutSuffix();
    }
    DefaultStartParamSafe();
    Bot.LoginUrlWithSafeState(base, DefaultStartParam);
  }

  lemma DefaultStartParamSafe()
    ensures DefaultStartParam != [] && forall i | 0 <= i < |DefaultStartParam| :: UrlEncode.IsAlwaysSafe(DefaultStartParam[i])
  {
  }

  /** The legacy flow end to end: a payload the Login Widget signed for profile `p`, received
      within five minutes, makes the callback set a session cookie, and `/me` answers with the
      profile's claim for as long as the cookie's token lives. */
  lemma LegacyLoginThenMe(env: Env, p: TelegramLogin.LoginProfile, scheme: string, now: int, t: int,
                          codec: Jwt.Codec, crypto: TelegramLogin.Crypto)
    requires BotTokenOf(env) != ""
    requires TelegramLogin.HexDigests(crypto) && Jwt.Sound(codec)
    requires now - p.authDate <= TelegramLogin.DefaultMaxAgeSeconds
    requires TelegramLogin.WithinDigitLimit(p)
    requires now <= t < now + Jwt.SessionTtlSeconds
    ensures var fields := TelegramLogin.WidgetFields(p);
            var query := fields["hash" := TelegramLogin.ExpectedHash(fields, BotTokenOf(env), crypto)];
            var r := TelegramCallback(env, query, scheme, now, codec, crypto);
            && r.Ok? && r.value.cookie.Some?
            && Me(env, None, Some(r.value.cookie.value.value), t, codec) == Ok(ProfileClaim(p))
  {
    var fields := TelegramLogin.WidgetFields(p);
    var query := fields["hash" := TelegramLogin.ExpectedHash(fields, BotTokenOf(env), crypto)];
    TelegramLogin.AcceptsGenuinePayload(p, BotTokenOf(env), now, TelegramLogin.DefaultMaxAgeSeconds, crypto);
    var r := TelegramCallback(env, query, scheme, now, codec, crypto);
    var token := IssueJwt(p, JwtSecretOf(env), now, DefaultTtlDays, codec);
    assert r.Ok? && r.value.cookie.Some? && r.value.cookie.value.value == token;
    var claims := IssueClaims(p, now, DefaultTtlDays);
    Jwt.TokenShape(codec, claims, JwtSecretOf(env));
    assert JwtFromRequest(None, Some(token)) == Some(token);
    IssuedJwtLifetime(p, JwtSecretOf(env), now, DefaultTtlDays, codec, t);
    assert codec.decode(token, JwtSecretOf(env), t) == Some(claims);
  }

  /** The three parsers of an `Authorization` header disagree on the separator: with any
      whitespace other than a space after the scheme (a tab, say) the unused orders parser
      would accept the token, `_get_jwt_from_request` falls back to the cookie and the Supabase dependency refuses
      the request. */
  lemma ParsersDisagreeOnSeparator(scheme: string, sep: char, token: string, cookie: Option<string>,
                                   lookup: CoreAuth.Lookup)
    requires Lower(scheme) == Orders.BearerScheme && IsSpace(sep) && sep != ' '
    requires token != [] && NoSpace(token)
    ensures Orders.ExtractBearerToken(Some(scheme + [sep] + token)) == Ok(token)
    ensures JwtFromRequest(Some(scheme + [sep] + token), cookie) == cookie
    ensures CoreAuth.GetCurrentUser(Some(scheme + [sep] + token), lookup) == Err(Http(401, "Missing bearer token"))
  {
    SchemeThenToken(scheme, [sep], token);
    var h := scheme + [sep] + token;
    assert |scheme| == 6 && h[6] == sep;
    NoSpaceAfterScheme(h, lookup, cookie);
  }

  /** `<bearer in any case><whitespace><token>` splits into the scheme and the token. */
  lemma SchemeThenToken(scheme: string, sep: string, token: string)
    requires Lower(scheme) == Orders.BearerScheme && AllSpace(sep) && sep != []
    requires token != [] && NoSpace(token)
    ensures Orders.ExtractBearerToken(Some(scheme + sep + token)) == Ok(token)
  {
    Orders.SchemeWordHasNoSpace(scheme);
    SplitWordSep(scheme, sep, token);
    SplitWord(token);
  }

  /** Whitespace other than a space at index 6 fails both prefix tests. */
  lemma NoSpaceAfterScheme(h: string, lookup: CoreAuth.Lookup, cookie: Option<string>)
    requires |h| > 6 && IsSpace(h[6]) && h[6] != ' '
    ensures JwtFromRequest(Some(h), cookie) == cookie
    ensures CoreAuth.GetCurrentUser(Some(h), lookup) == Err(Http(401, "Missing bearer token"))
  {
    assert !StartsWith(h, "Bearer ") by {
      assert h[..7][6] == h[6];
    }
    assert !StartsWith(Lower(h), "bearer ") by {
      var l := Lower(h);
      assert l[6] == LowerChar(h[6]) == h[6];
      assert l[..7][6] == h[6];
    }
  }

  /** ... and on the case of the scheme: with `bearer` in any other case than `Bearer` the
      unused orders parser would accept the header, while `_get_jwt_from_request` ignores it. */
  lemma ParsersDisagreeOnCase(scheme: string, token: string, cookie: Option<string>)
    requires Lower(scheme) == Orders.BearerScheme && scheme != "Bearer"
    requires token != [] && NoSpace(token)
    ensures Orders.ExtractBearerToken(Some(scheme + " " + token)) == Ok(token)
    ensures JwtFromRequest(Some(scheme + " " + token), cookie) == cookie
  {
    var h := scheme + " " + token;
    SchemeThenToken(scheme, " ", token);
    assert |scheme| == 6 && h[..6] == scheme;
    assert !StartsWith(h, "Bearer ") by {
      assert h[..6] != "Bearer";
    }
  }

  /** The disagreement that reaches endpoints: with `bearer` in any other case than `Bearer`,
      `/me` and the orders endpoints ignore the header and fall back to the cookie, while
      `/users/me` treats it exactly like `Bearer <token>`. */
  lemma EndpointsDisagreeOnCase(scheme: string, token: string, cookie: Option<string>, lookup: CoreAuth.Lookup)
    requires Lower(scheme) == Orders.BearerScheme && scheme != "Bearer"
    ensures JwtFromRequest(Some(scheme + " " + token), cookie) == cookie
    ensures CoreAuth.GetCurrentUser(Some(scheme + " " + token), lookup)
            == CoreAuth.GetCurrentUser(Some("Bearer" + " " + token), lookup)
  {
    var h := scheme + " " + token;
    assert |scheme| == 6 && h[..6] == scheme;
    assert !StartsWith(h, "Bearer ") by {
      assert h[..6] != "Bearer";
    }
    CoreAuth.BearerHeader(scheme, token);
    LowerBearer();
    CoreAuth.BearerHeader("Bearer", token);
  }

  lemma LowerBearer()
    ensures Lower("Bearer") == Orders.BearerScheme
  {
  }

  /** A token with a space in it: the unused orders parser would refuse the header, while
      `_get_jwt_from_request` returns everything after the scheme. */
  lemma ParsersDisagreeOnSpacedToken(t1: string, t2: string, cookie: Option<string>)
    requires t1 != [] && NoSpace(t1) && t2 != [] && NoSpace(t2)
    ensures Orders.ExtractBearerToken(Some("Bearer" + " " + t1 + " " + t2)) == Err(Http(401, "Invalid Authorization format"))
    ensures JwtFromRequest(Some("Bearer" + " " + t1 + " " + t2), cookie) == Some(t1 + " " + t2)
  {
    Orders.ExtractRejectsThreeParts("Bearer", t1, t2);
    assert "Bearer" + " " + t1 + " " + t2 == "Bearer " + (t1 + " " + t2);
    BearerRoundTrip(t1 + " " + t2, cookie);
  }

  /** The handshake on the store, step by step, with the bot in the middle: the browser
      registers `abc123` at second 0, the bot handles `/start auth_abc123` and its post is
      accepted at second 5, the browser exchanges the state at second 10 and receives the token
      and the bot's profile; an exchange at second 11 fails. */
  method HandshakeScenario(env: Env, codec: Jwt.Codec, callbackBase: string, user: Bot.TgUser, userId: Scalar)
    returns (first: Result<TokenGrant, Failure>, second: Result<TokenGrant, Failure>)
    requires BotUsernameOf(env) != "" && BotTokenOf(env) != "" && Bot.IsHttps(callbackBase)
    requires user.id != 0 && Jwt.Sound(codec)
    ensures var profile := BodyProfile(Bot.Payload(Some(user), None, "abc123"));
            first == Ok(TokenGrant(codec.encode(BotSessionClaims(profile, userId, 5), JwtSecretOf(env)), Some(profile)))
    ensures second == Err(Http(400, "Invalid or expired state"))
  {
    var state := "abc123";
    var store := new PendingAuthStore();
    var link := StartTelegramOauth(store, env, Some(state), 0);
    assert state in store.entries;
    BotPayloadCompletesState(store.entries, env, state, Some(user), None, userId, 5, codec);
    var action := Bot.Start([StartParam(state)], callbackBase, Some(user), None, BotTokenOf(env));
    var body := Bot.Payload(Some(user), None, state);
    assert action == Bot.PostProfile(Bot.BotCallbackUrl(callbackBase), body, BotTokenOf(env));
    var token := codec.encode(BotSessionClaims(BodyProfile(body), userId, 5), JwtSecretOf(env));
    var ack := TelegramBotCallback(store, env, Some(action.botTokenHeader), action.payload, Ok(userId), 5, codec);
    assert ack == Ok(true);
    assert Field(body, "state").s == state;
    assert store.entries[state] == Entry(0, Some(token), Some(BodyProfile(body)));
    Jwt.TokenShape(codec, BotSessionClaims(BodyProfile(body), userId, 5), JwtSecretOf(env));
    first := ExchangeToken(store, state, 10);
    second := ExchangeToken(store, state, 11);
  }

  /** A state registered at second 0 and exchanged at second 700 has expired, whether the bot
      completed it at second 5 (`completed`) or never called back (`pending`). */
  method ExpiryScenario(env: Env, codec: Jwt.Codec, body: Body, userId: Scalar)
    returns (completed: Result<TokenGrant, Failure>, pending: Result<TokenGrant, Failure>)
    requires BotUsernameOf(env) != "" && BotTokenOf(env) != ""
    requires CompletesState(body, "abc123")
    ensures completed == Err(Http(400, "Invalid or expired state"))
    ensures pending == Err(Http(400, "Invalid or expired state"))
  {
    var store := new PendingAuthStore();
    var link := StartTelegramOauth(store, env, Some("abc123"), 0);
    assert store.entries["abc123"].createdAt == 0;
    var ack := TelegramBotCallback(store, env, Some(BotTokenOf(env)), body, Ok(userId), 5, codec);
    assert "abc123" in store.entries && store.entries["abc123"].createdAt == 0;
    assert !Fresh(store.entries["abc123"], 700);
    completed := ExchangeToken(store, "abc123", 700);
    assert completed.Err?;

    var other := new PendingAuthStore();
    var otherLink := StartTelegramOauth(other, env, Some("abc123"), 0);
    assert other.entries["abc123"] == Entry(0, None, None);
    assert !Fresh(other.entries["abc123"], 700);
    pending := ExchangeToken(other, "abc123", 700);
    assert pending.Err?;
  }
}
