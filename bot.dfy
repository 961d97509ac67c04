/** The Telegram bot's side of the login: reading the state out of the `/start` parameter,
    either completing the handshake by posting the user's profile to the backend or offering the
    legacy Login Widget button, and the startup check of the bot token. Sending messages, the
    backend POST itself, the photo lookup and the ngrok discovery of the callback base are I/O;
    their outcomes are parameters. */
module Bot {

  import opened Base
  import opened PyStr
  import opened PyInt
  import UrlEncode

  /** The backend endpoint of the legacy flow, and the one the bot posts to. */
  const CallbackPath: string := "/api/auth/telegram/callback"
  const BotCallbackPath: string := "/api/auth/telegram/callback/bot"

  /** `AUTH_CALLBACK_URL`'s default. */
  const DefaultCallbackUrl: string := "http://localhost:3001/api/auth/telegram/callback"

  /** The prefix that marks a handshake start parameter. */
  const StatePrefix: string := "auth_"

  /** `args[0] if args else None`. */
  function StartParamOf(args: seq<string>): Option<string>
  {
    if args == [] then None else Some(args[0])
  }

  /** The state of a `/start auth_<state>` command: `start_param.split("auth_", 1)[1] or None`
      for a parameter starting with `auth_`, no state otherwise. */
  function ParseStartState(startParam: Option<string>): (state: Option<string>)
    ensures state.Some? <==> Truthy(startParam) && StartsWith(startParam.value, StatePrefix) && |startParam.value| > 5
    ensures state.Some? ==> state.value == startParam.value[5..] && state.value != ""
  {
    if Truthy(startParam) && StartsWith(startParam.value, StatePrefix) then
      var rest := SplitOnceTail(startParam.value, StatePrefix).value;
      if rest == "" then None else Some(rest)
    else None
  }

  /** The bot reads back exactly the state the backend put into its deep link. */
  lemma StartStateRoundTrip(state: string)
    requires state != ""
    ensures ParseStartState(Some(StatePrefix + state)) == Some(state)
  {
    var p := StatePrefix + state;
    assert p[..5] == StatePrefix && p[5..] == state;
  }

  /** Neither the bare prefix nor the backend's stateless default `auth` yields a state. */
  lemma NoStateWithoutSuffix()
    ensures ParseStartState(Some(StatePrefix)) == None
    ensures ParseStartState(Some("auth")) == None
    ensures ParseStartState(None) == None
  {
  }

  /** The query parameter that carries the state to the legacy callback. */
  const StateQueryKey: string := "state"

  /** `build_login_url(state)`: the callback base, with `?state=<quoted state>` when the state is
      truthy. */
  function BuildLoginUrl(base: string, state: Option<string>): (url: string)
    ensures !Truthy(state) ==> url == base
    ensures Truthy(state) ==> url == base + "?state=" + UrlEncode.QuotePlus(state.value)
  {
    if Truthy(state) then
      StateQuery(state.value);
      assert base + "?" + ("state=" + UrlEncode.QuotePlus(state.value)) == base + "?state=" + UrlEncode.QuotePlus(state.value);
      base + "?" + UrlEncode.UrlencodePair(StateQueryKey, state.value)
    else base
  }

  /** Whatever the state holds, the login URL is the base followed by one query parameter: the
      quoted value consists of safe characters, `%` and `+`, so holds no `&`, `=`, `#` or `?`. */
  lemma LoginUrlSingleParameter(base: string, state: string)
    requires state != []
    ensures var u := BuildLoginUrl(base, Some(state));
            var q := UrlEncode.QuotePlus(state);
            u == base + "?state=" + q && forall i | 0 <= i < |q| :: UrlEncode.IsQuotedChar(q[i])
  {
    var q := UrlEncode.QuotePlus(state);
    StateQuery(state);
    assert base + "?" + ("state=" + q) == base + "?state=" + q;
  }

  /** The query of a login URL: the key needs no quoting. */
  lemma StateQuery(state: string)
    ensures UrlEncode.UrlencodePair(StateQueryKey, state) == "state=" + UrlEncode.QuotePlus(state)
  {
    UrlEncode.QuotePlusSafe(StateQueryKey);
  }

  /** A state of URL-safe characters is appended as it is. */
  lemma LoginUrlWithSafeState(base: string, state: string)
    requires state != [] && forall i | 0 <= i < |state| :: UrlEncode.IsAlwaysSafe(state[i])
    ensures BuildLoginUrl(base, Some(state)) == base + "?state=" + state
  {
    LoginUrlSingleParameter(base, state);
    UrlEncode.QuotePlusSafe(state);
  }

  /** `callback_base.lower().startswith("https://")`. */
  predicate IsHttps(base: string)
  {
    StartsWith(Lower(base), "https://")
  }

  /** The endpoint the bot posts profiles to: every occurrence of the legacy callback path
      replaced by the bot's one. */
  function BotCallbackUrl(base: string): string
  {
    Replace(base, CallbackPath, BotCallbackPath)
  }

  /** A base ending in the legacy path, with no earlier occurrence, gets exactly that path
      rewritten. */
  lemma BotCallbackUrlOfCallback(origin: string)
    requires forall i | 0 <= i < |origin| :: !OccursAt(origin + CallbackPath, CallbackPath, i)
    ensures BotCallbackUrl(origin + CallbackPath) == origin + BotCallbackPath
  {
    ReplaceAtEnd(origin, CallbackPath, BotCallbackPath);
  }

  /** A base that does not mention the legacy path is posted to unchanged. */
  lemma BotCallbackUrlElsewhere(base: string)
    requires forall i :: !OccursAt(base, CallbackPath, i)
    ensures BotCallbackUrl(base) == base
  {
    ReplaceAbsent(base, CallbackPath, BotCallbackPath);
  }

  /** The user who sent the command, as far as the bot reads it. */
  datatype TgUser = TgUser(id: int, username: Option<string>, firstName: Option<string>, lastName: Option<string>)

  /** What `start` does: only warn about a non-https callback base; post the profile to the
      backend (with the bot token in `X-Bot-Token`) and confirm the login; or offer the Login
      Widget button leading to the given URL. */
  datatype BotAction =
    | Warn(callbackBase: string)
    | PostProfile(url: string, payload: map<string, Scalar>, botTokenHeader: string)
    | OfferLogin(loginUrl: string)

  /** `user.<field> if user else None`, for a field that may be None. */
  function UserField(user: Option<TgUser>, field: Option<string>): Scalar
  {
    if user.Some? && field.Some? then StrValue(field.value) else NoneValue
  }

  function UsernameOf(user: Option<TgUser>): Scalar
  {
    UserField(user, if user.Some? then user.value.username else None)
  }

  function FirstNameOf(user: Option<TgUser>): Scalar
  {
    UserField(user, if user.Some? then user.value.firstName else None)
  }

  function LastNameOf(user: Option<TgUser>): Scalar
  {
    UserField(user, if user.Some? then user.value.lastName else None)
  }

  /** The JSON body the bot posts for a state: the user's id and names (None without a user),
      the photo's file path when the lookup found one, and the state. */
  function Payload(user: Option<TgUser>, photo: Option<string>, state: string): (p: map<string, Scalar>)
    ensures p.Keys == {"id", "username", "first_name", "last_name", "photo_url", "state"}
    ensures p["state"] == StrValue(state)
    ensures p["id"] == if user.Some? then IntValue(user.value.id) else NoneValue
    ensures p["photo_url"] == if user.Some? && photo.Some? then StrValue(photo.value) else NoneValue
  {
    map["id" := if user.Some? then IntValue(user.value.id) else NoneValue,
        "username" := UsernameOf(user),
        "first_name" := FirstNameOf(user),
        "last_name" := LastNameOf(user),
        "photo_url" := if user.Some? && photo.Some? then StrValue(photo.value) else NoneValue,
        "state" := StrValue(state)]
  }

  /** `start`: `photo` is what the profile-photo lookup yields (the file path of the largest
      photo, None when there is none or the lookup fails). */
  method Start(args: seq<string>, callbackBase: string, user: Option<TgUser>, photo: Option<string>,
               botToken: string) returns (action: BotAction)
    ensures !IsHttps(callbackBase) ==> action == Warn(callbackBase)
    ensures IsHttps(callbackBase) && ParseStartState(StartParamOf(args)).Some? ==>
              action == PostProfile(BotCallbackUrl(callbackBase),
                                    Payload(user, photo, ParseStartState(StartParamOf(args)).value), botToken)
    ensures IsHttps(callbackBase) && ParseStartState(StartParamOf(args)).None? ==>
              action == OfferLogin(BuildLoginUrl(callbackBase, StartParamOf(args)))
  {
    var startParam := StartParamOf(args);
    if !IsHttps(callbackBase) {
      return Warn(callbackBase);
    }
    var state := ParseStartState(startParam);
    if state.Some? {
      var profile := Payload(user, None, state.value);
      if user.Some? && photo.Some? {
        profile := profile["photo_url" := StrValue(photo.value)];
        PayloadWithPhoto(user, photo, state.value);
      }
      return PostProfile(BotCallbackUrl(callbackBase), profile, botToken);
    }
    return OfferLogin(BuildLoginUrl(callbackBase, startParam));
  }

  /** The names in the body: each is the user's, as a str, when present, and None when absent or
      when there is no user. */
  lemma PayloadNames(user: Option<TgUser>, photo: Option<string>, state: string)
    ensures var p := Payload(user, photo, state);
            && (user.None? ==> p["username"] == NoneValue && p["first_name"] == NoneValue && p["last_name"] == NoneValue)
            && (user.Some? ==>
                  && p["username"] == (if user.value.username.Some? then StrValue(user.value.username.value) else NoneValue)
                  && p["first_name"] == (if user.value.firstName.Some? then StrValue(user.value.firstName.value) else NoneValue)
                  && p["last_name"] == (if user.value.lastName.Some? then StrValue(user.value.lastName.value) else NoneValue))
  {
  }

  /** The profile is first built with no photo; the photo found later is written into it. */
  lemma PayloadWithPhoto(user: Option<TgUser>, photo: Option<string>, state: string)
    requires user.Some? && photo.Some?
    ensures Payload(user, None, state)["photo_url" := StrValue(photo.value)] == Payload(user, photo, state)
  {
  }

  /** The check in `main`: the bot refuses to start with an empty token or with the placeholder
      `changeme`, in any case and with surrounding whitespace. */
  predicate BotTokenAccepted(token: string)
    ensures BotTokenAccepted(token) ==> token != []
    ensures token != [] && Lower(token) != "changeme" && NoSpace(token) ==> BotTokenAccepted(token)
  {
    StripNoSpace(token);
    !(token == "" || Lower(Strip(token)) == "changeme")
  }

  /** Stripping a text without whitespace leaves it as it is. */
  lemma StripNoSpace(token: string)
    ensures NoSpace(token) ==> Strip(token) == token
  {
    if NoSpace(token) && token != [] {
      StripTrimmed(token);
    }
  }

  /** The check looks for the placeholder only: a token of whitespace alone is not empty, strips to
      the empty text, and so passes. */
  lemma BlankTokenAccepted(token: string)
    requires token != [] && AllSpace(token)
    ensures BotTokenAccepted(token)
  {
    LStripShape(token);
  }

  /** The bot refuses to start with an empty token, with `changeme`, and with `changeme` in
      another case or padded with whitespace. */
  lemma PlaceholderTokensRejected(lead: string, word: string, trail: string)
    requires AllSpace(lead) && AllSpace(trail)
    requires |word| == 8 && forall i | 0 <= i < 8 :: LowerChar(word[i]) == "changeme"[i]
    ensures !BotTokenAccepted("")
    ensures !BotTokenAccepted(lead + word + trail)
  {
    assert !IsSpace(word[0]) by {
      assert LowerChar(word[0]) == 'c';
    }
    assert !IsSpace(word[7]) by {
      assert LowerChar(word[7]) == 'e';
    }
    StripPadded(lead, word, trail);
    assert Lower(word) == "changeme";
  }

  /** The bot starts with a token of the form BotFather issues, `<bot id>:<secret>`, whose first
      character is a digit. */
  lemma OrdinaryTokenAccepted(token: string)
    requires token != [] && '0' <= token[0] <= '9'
    ensures BotTokenAccepted(token)
  {
    var s := Strip(token);
    assert !IsSpace(token[0]);
    assert LStrip(token) == token;
    RStripShape(token);
    assert s != [];
    assert s[0] == token[0] by {
      assert s == token[..|s|];
    }
    assert Lower(s)[0] == token[0];
  }
}
