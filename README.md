# ParaPara Telegram authentication, modelled in Dafny

This project models the Telegram login of the ParaPara backend and its bot, and proves
properties of that model. The system has two login flows.

- **The legacy Login Widget flow.** Telegram redirects the browser to
  `/auth/telegram/callback` with the user's fields and a `hash`. The backend checks the hash
  with Telegram's documented scheme: HMAC-SHA-256 (RFC 2104) under the SHA-256 digest of the
  bot token, over the sorted, allow-listed `key=value` lines. It then issues an HS256 JSON Web
  Token (RFC 7519, algorithm of section 3.2 of RFC 7518) and sets it as the `tg_session` cookie.
- **The bot handshake.**
  1. The browser registers a `state` at `/auth/telegram` and is sent to
     `https://t.me/<bot>?start=auth_<state>`.
  2. The bot reads the state back out of `/start auth_<state>` and posts the user's profile,
     with its own token in `X-Bot-Token`, to `/auth/telegram/callback/bot`.
  3. That callback attaches a session token to the state.
  4. The browser exchanges the state for the token once, at `/auth/token`.

The pending states live in an in-memory registry. Entries live for 600 seconds and are
consumed on their first lookup.

The model also covers the readers of `Authorization` headers:
- `/me` and the orders endpoints, which read the session token with `_get_jwt_from_request`
  (a `Bearer ` header, else the cookie), then check its Telegram claim, and before a delete
  the order's owner;
- the separate Supabase access-token dependency `get_current_user` of `/users/me`;
- `_extract_bearer_token`, a stricter bearer-header parser defined in the orders module. No
  endpoint calls it, so where it disagrees with the other two no request is affected.

## Layout

| file | module | models |
|---|---|---|
| base.dfy | Base | Option, Result, the two ways a handler fails (an HTTPException, an uncaught exception), the environment |
| pystr.dfy | PyStr | the Python `str` operations used: isspace, strip, split, lower, startswith, `split(sep, 1)[1]`, replace, rstrip(c), join |
| pyint.dfy | PyInt | `str(int)`, `int(str)`, JSON/database scalars with `str()` and truthiness |
| urlencode.dfy | UrlEncode | `quote_plus` and one-entry `urlencode` |
| jwt.dfy | Jwt | the token claims, and the JWT library as a pair of functions with the predicate `Sound` that states what is assumed of it |
| telegram_login.dfy | TelegramLogin | `_build_data_check_string` (a loop, proved against a function) and `_validate_telegram_login` |
| pending_auth.dfy | PendingAuth | `_state_store` as the class `PendingAuthStore` over a `map`, its three operations, and the functions that specify them |
| auth_api.dfy | AuthApi | the handlers of `backend/app/api/auth.py`: each is a function of the registry, and the three that change it are also methods on the store |
| bot.dfy | Bot | `build_login_url`, the start-parameter parse, `start` (a method: it builds the profile dict and then updates its photo), the token check of `main` |
| orders.dfy | Orders | `_extract_bearer_token` (defined, not called by any endpoint), the claim check of `_get_current_user`, the owner check of `remove_order` |
| core_auth.dfy | CoreAuth | `get_current_user` |
| handshake.dfy | Handshake | properties of whole flows across the handlers, the bot and the parsers |

### What is given rather than modelled

- The clock is an `int` parameter `now`, in seconds.
- The environment is a `map<string, string>`, read with the source's defaults.
- SHA-256 and HMAC are the two functions of a `Crypto` value. Where a proof needs it, the HMAC
  is assumed to return 64 ASCII characters (`HexDigests`).
- The JWT library is the `encode`/`decode` pair of a `Codec`. `Jwt.Sound` states the assumed
  round trip: a token decodes under its own key to its own claims while `iat <= now < exp`,
  and is refused otherwise. It also states that a token is a non-empty string over the
  base64url alphabet and `.`.
- Several outcomes are parameters:
  - the user record `get_or_create_user_by_telegram` returns, or the exception it raises;
  - the Supabase `auth.get_user` answer;
  - the `owner_id` row of an order;
  - the callback base the bot resolves;
  - the path of the user's photo.
- A handler that raises an HTTPException ends in `Http(status, detail)`, with the status and
  text of the source. An exception that escapes the handler ends in `Uncaught(name)`. Two
  such exceptions are modelled:
  - `compare_digest`'s TypeError on a non-ASCII hash;
  - `int()`'s ValueError on a malformed `id`.

### Behaviour modelled as written

- `exchange_token` consumes the state on its first lookup, even when no token is attached yet
  (backend/app/api/auth.py:280-282). A browser that asks for the token before the bot has
  called back gets 400; the bot's callback then finds no state and also answers 400, and
  every later exchange fails as well. `Handshake.ExchangeBeforeCallback` proves this.
- `_state_get_and_consume` drops a state older than 600 s (backend/app/api/auth.py:43-45),
  but the bot callback only checks that the state is present (backend/app/api/auth.py:240).
  A stale state that nobody has looked up yet is still completed; only the exchange then
  refuses it. `Handshake.StaleStateCompleted` proves this.
- The bot's start-up check refuses an empty token and the placeholder `changeme`, but a
  non-empty token of whitespace alone strips to the empty text and passes
  (telegram-bot/bot.py:156). `Bot.BlankTokenAccepted` proves this.
- `int()` refuses a decimal text of more than 4300 digits, Python's default
  `sys.get_int_max_str_digits()`, so an `auth_date` or `id` that long is refused as unreadable
  before the signature is looked at.

### Case and whitespace

`lower()` is modelled on ASCII letters only. No non-ASCII character lower-cases to text that
starts with a letter of `bearer`, `changeme` or `https://`. This holds even for the characters
that lower-case to ASCII (KELVIN SIGN to `k`, and U+0130 to `i` followed by a combining dot).
So every comparison of a lowered text with these words, or with a prefix of them, has the
same outcome as in Python. `isspace()` is modelled on the full set of characters for which
Python's `str.isspace()` holds.

## Model

| member | source | states |
|---|---|---|
| PendingAuth.Saved | backend/app/api/auth.py:26-27 | registering a state adds it with `created_at = now` and no token or profile, replacing an entry already there, and leaves every other entry as it was |
| PendingAuth.WithToken | backend/app/api/auth.py:30-35 | attaching a token to an unknown state changes nothing; otherwise only that entry's token and profile change, its `created_at` and the set of states stay |
| PendingAuth.Consumed | backend/app/api/auth.py:38-48 | after a lookup the state is gone on every path, the other entries are untouched, and the entry is returned exactly when it was present and at most 600 s old |
| PendingAuth.PendingAuthStore.constructor | backend/app/api/auth.py:23 | the store starts empty |
| PendingAuth.PendingAuthStore.Save | backend/app/api/auth.py:26-27 | `_state_save` changes the store exactly as `Saved` describes |
| PendingAuth.PendingAuthStore.SetToken | backend/app/api/auth.py:30-35 | `_state_set_token` changes the store exactly as `WithToken` describes |
| PendingAuth.PendingAuthStore.GetAndConsume | backend/app/api/auth.py:38-48 | `_state_get_and_consume` returns and leaves exactly what `Consumed` describes |
| PendingAuth.TtlBoundary | backend/app/api/auth.py:43-47 | an entry exactly 600 s old is still returned, one a second older is refused, and both are removed |
| PendingAuth.ConsumeOnce | backend/app/api/auth.py:44-48 | a second lookup of a state returns nothing, whatever the time |
| PendingAuth.SaveDiscardsToken | backend/app/api/auth.py:26-27 | registering a state again throws away a token the bot had attached |
| TelegramLogin.AllowedKeysSorted | backend/app/api/auth.py:53-60 | the allow-list, listed as `auth_date, first_name, id, last_name, photo_url, username`, is strictly ascending in Python's string order |
| TelegramLogin.BelowIrreflexive | backend/app/api/auth.py:62 | no key sorts before itself |
| TelegramLogin.BelowAsymmetric | backend/app/api/auth.py:62 | two keys never sort before each other |
| TelegramLogin.SortedListingUnique | backend/app/api/auth.py:62 | two strictly ascending listings of the same keys are equal, so `sorted()` of a set of keys has one possible result |
| TelegramLogin.Selected | backend/app/api/auth.py:62 | the filter keeps exactly the listed keys that are present and not `hash`, and keeps an ascending list ascending |
| TelegramLogin.SignedKeys | backend/app/api/auth.py:62 | the signed keys are exactly the allow-listed keys present other than `hash`, strictly ascending |
| TelegramLogin.SignedKeysAreTheSortedKeys | backend/app/api/auth.py:62 | any ascending listing of those keys is the signed keys, so filtering the sorted allow-list is Python's `sorted(...)` |
| TelegramLogin.BuildDataCheckString | backend/app/api/auth.py:61-64 | the loop that appends one `key=value` line per signed key and joins the lines with `\n` yields the data-check-string |
| TelegramLogin.LinesShape | backend/app/api/auth.py:63 | there is one line per key, in the keys' order, and line `i` is `key=value` for key `i` |
| TelegramLogin.DataCheckString | backend/app/api/auth.py:61-64 | the data-check-string is empty exactly when no allow-listed field other than `hash` is present |
| TelegramLogin.SelectedIgnores | backend/app/api/auth.py:62 | adding, changing or removing a key outside the list does not change the selection |
| TelegramLogin.LinesIgnore | backend/app/api/auth.py:63 | the `key=value` lines of the signed keys do not depend on any other field |
| TelegramLogin.DataCheckStringIgnores | backend/app/api/auth.py:51-64 | a field outside the allow-list, whether `hash`, `state` or any other, does not change the data-check-string when it is added, changed or removed |
| TelegramLogin.ExampleDataCheckString | backend/app/api/auth.py:51-64 | the fields `{id: 7, first_name: Bob, auth_date, hash, state}` are signed over exactly `auth_date=1700000000\nfirst_name=Bob\nid=7` |
| TelegramLogin.ValidateTelegramLogin | backend/app/api/auth.py:67-99 | a returned profile's numbers can be written with `str()` again. The checks in order: missing or empty `hash`/`auth_date`, an unreadable `auth_date`, expiry (`now - auth_date > max_age`, whatever the signature), then the signature. No signature other than the expected one passes. On success the profile holds the parsed `auth_date` and the copied fields |
| TelegramLogin.Verdict | backend/app/api/auth.py:69-99 | the same checks stated on the fields read and the hash computed |
| TelegramLogin.ExpectedHash | backend/app/api/auth.py:84-85 | for an HMAC that yields hex digests, the expected hash is 64 ASCII characters, so comparing it never raises on its side |
| TelegramLogin.CompareDigest | backend/app/api/auth.py:87 | `compare_digest` raises exactly when one side holds a non-ASCII character, and otherwise answers whether the two are equal |
| TelegramLogin.ValidateAccepts | backend/app/api/auth.py:67-99 | the converse: fields carrying the expected hash, a readable fresh `auth_date` and a readable or absent `id` are accepted with the profile read from them |
| TelegramLogin.ValidateReadsFields | backend/app/api/auth.py:67-99 | the verdict depends only on the seven fields read and the data-check-string |
| TelegramLogin.ValidateIgnoresUnsignedFields | backend/app/api/auth.py:62 | an extra field outside the allow-list other than `hash`, the handshake's `state` say, never changes the verdict |
| TelegramLogin.AcceptsGenuinePayload | backend/app/api/auth.py:67-99 | the fields of any profile whose numbers have at most 4300 digits, signed as Telegram signs them and received within the age limit, are accepted and give back exactly that profile |
| TelegramLogin.AcceptsGenuinePayloadWith | backend/app/api/auth.py:52 | the same holds with one more unsigned field added |
| Jwt.TokenShape | backend/app/api/auth.py:117 | an issued token is non-empty and holds no whitespace |
| AuthApi.CookieSettings | backend/app/api/auth.py:121-127 | `SameSite=None` exactly when the cookie is secure, `Lax` otherwise |
| AuthApi.CookieSecureIffHttps | backend/app/api/auth.py:124-125 | the cookie is secure exactly when the scheme is `https`, in any case |
| AuthApi.JwtFromRequest | backend/app/api/auth.py:164-171 | a header starting with `Bearer ` gives the text after its first space; anything else gives the `tg_session` cookie |
| AuthApi.BearerRoundTrip | backend/app/api/auth.py:167-168 | `Bearer <t>` yields `t` unchanged, even when `t` holds spaces, and wins over the cookie |
| AuthApi.IssueClaims | backend/app/api/auth.py:102-116 | `iat = now`, `exp - iat = ttl_days * 86400`, the `tg` claim is the profile, no `uid`, and `sub` is `str(id)`: it reads back as the id, or is `None` without one |
| AuthApi.IssueJwt | backend/app/api/auth.py:102-118 | for a sound codec the token is non-empty and free of whitespace, and for a positive lifetime it decodes at its issue time to exactly the claims of `IssueClaims` |
| AuthApi.IssuedJwtLifetime | backend/app/api/auth.py:114-117 | an issued token decodes under the same secret to its claims during exactly `ttl_days` days from its issue |
| AuthApi.TelegramCallback | backend/app/api/auth.py:130-161 | 500 without a bot token; a failed verification gives its 400 or exception; success redirects with 303 to the frontend and sets `tg_session` to the issued token, HttpOnly, 30 days, path `/`, with the request's cookie attributes |
| AuthApi.Me | backend/app/api/auth.py:174-191 | 401 `Unauthorized` without a token, 401 `Invalid token` when it does not decode, otherwise the token's `tg` claim |
| AuthApi.TelegramDeeplink | backend/app/api/auth.py:194-202 | 500 exactly when no bot username is configured; otherwise the `t.me` link with the state as start parameter, `auth` without one |
| AuthApi.Start | backend/app/api/auth.py:213-224 | 400 without a state and 500 without a bot username, both leaving the registry as it was; otherwise a 303 to `https://t.me/<bot>?start=auth_<state>` and the state registered now |
| AuthApi.BotSessionClaims | backend/app/api/auth.py:264-270 | the bot's token has `sub = str(id)`, the posted profile as `tg`, `uid = str(user.id)` and a lifetime of 30 days |
| AuthApi.BotCallback | backend/app/api/auth.py:227-274 | the checks in order: bot token configured (500), header equal to it (401), state registered (400, no age check), id truthy (400), then the user lookup, whose exception escapes. Every failure leaves the registry unchanged. Success happens exactly when all checks pass and the user lookup succeeds, and then only that state gets the issued token and the profile |
| AuthApi.Exchange | backend/app/api/auth.py:277-283 | the state is consumed in every case; success happens exactly when the entry was present, fresh and had a token, and returns that token and profile; otherwise 400 `Invalid or expired state` |
| AuthApi.StartTelegramOauth | backend/app/api/auth.py:213-224 | the handler's answer and store afterwards are those of `Start` |
| AuthApi.TelegramBotCallback | backend/app/api/auth.py:227-274 | the handler's answer and store afterwards are those of `BotCallback` |
| AuthApi.ExchangeToken | backend/app/api/auth.py:277-283 | the handler's answer and store afterwards are those of `Exchange` |
| AuthApi.SuccessUrl | backend/app/api/auth.py:290-291 | the landing URL is the frontend URL without trailing slashes, then `/auth/success?state=<state>` |
| AuthApi.SuccessUrlTrailingSlash | backend/app/api/auth.py:291 | a trailing slash on the frontend URL makes no difference |
| AuthApi.SuccessUrlPlain | backend/app/api/auth.py:291 | a frontend URL without a trailing slash is used as it is |
| AuthApi.AuthSuccessRedirect | backend/app/api/auth.py:286-292 | a 303 redirect without a cookie to the frontend URL, stripped of trailing slashes, followed by `/auth/success?state=<state>` |
| Bot.ParseStartState | telegram-bot/bot.py:63-66 | a state exists exactly when the parameter is truthy, starts with `auth_` and is longer than it; the state is what follows `auth_` |
| Bot.StartStateRoundTrip | telegram-bot/bot.py:65-66 | the bot reads back exactly the non-empty state the backend put after `auth_` |
| Bot.NoStateWithoutSuffix | telegram-bot/bot.py:64-66 | `auth_`, the backend's default `auth`, and no parameter give no state |
| Bot.BuildLoginUrl | telegram-bot/bot.py:36-42 | without a truthy state the login URL is the callback base; with one it is the base, `?state=` and the `quote_plus` of the state |
| Bot.StateQuery | telegram-bot/bot.py:38-42 | the query is `state=` followed by the quoted state |
| Bot.LoginUrlSingleParameter | telegram-bot/bot.py:36-43 | with a state, the login URL is the base, `?state=` and the quoted state, which holds only safe characters, `%` and `+`, so it adds no other parameter |
| Bot.LoginUrlWithSafeState | telegram-bot/bot.py:36-43 | a state of URL-safe characters is appended unchanged |
| Bot.BotCallbackUrlOfCallback | telegram-bot/bot.py:94 | a base ending in the legacy callback path, with no earlier occurrence of it, is posted to with that path replaced by the bot path |
| Bot.BotCallbackUrlElsewhere | telegram-bot/bot.py:94 | a base without the legacy path is posted to unchanged |
| Bot.Payload | telegram-bot/bot.py:70-86 | the posted body has exactly the keys `id, username, first_name, last_name, photo_url, state`: the user's id and names (each None when absent or without a user), the photo path when found, and the parsed state |
| Bot.PayloadNames | telegram-bot/bot.py:73-77 | each of `username`, `first_name` and `last_name` in the body is the user's value as a str when present, and None when absent or without a user |
| Bot.PayloadWithPhoto | telegram-bot/bot.py:76-86 | writing the found photo into the profile built without one gives the full body |
| Bot.Start | telegram-bot/bot.py:46-116 | a base that is not https in any case only warns; with a state the bot posts the body to the bot callback URL with its token in `X-Bot-Token`; otherwise it offers the login URL built from the raw start parameter |
| Bot.BotTokenAccepted | telegram-bot/bot.py:155-157 | an accepted token is non-empty, and a non-empty token without whitespace that is not `changeme` in any case is accepted |
| Bot.BlankTokenAccepted | telegram-bot/bot.py:155-157 | a non-empty token of whitespace alone passes the check |
| Bot.PlaceholderTokensRejected | telegram-bot/bot.py:156-157 | the empty token and `changeme` in any case, with any surrounding whitespace, are refused |
| Bot.OrdinaryTokenAccepted | telegram-bot/bot.py:156-157 | any token whose first character is a digit, as in the `<bot id>:<secret>` tokens BotFather issues, is accepted |
| Orders.ExtractBearerToken | backend/app/api/orders.py:12-19 | 401 `Missing Authorization header` for a missing or empty header; success exactly when `split()` gives two parts and the first lower-cases to `bearer`, and then the token is the second part, non-empty and free of whitespace; otherwise 401 `Invalid Authorization format`. `_extract_bearer_token` is called by no endpoint, so this reaches no request |
| Orders.SchemeWordHasNoSpace | backend/app/api/orders.py:17 | a word that lower-cases to `bearer` is non-empty and holds no whitespace |
| Orders.ExtractAcceptsBearer | backend/app/api/orders.py:16-19 | `<bearer in any case> <token>` with any whitespace around and between the words yields the token |
| Orders.ExtractRejectsThreeParts | backend/app/api/orders.py:16-18 | a token with a space in it is refused as an invalid format |
| Orders.CurrentTelegramClaim | backend/app/api/orders.py:22-39 | accepted exactly when `/me` would answer with a claim whose id is truthy, and then with that claim; every refusal is a 401 |
| Orders.RemoveOrder | backend/app/api/orders.py:73-80 | 404 exactly when there is no row, 403 exactly when `str(owner_id) != str(user.id)`, deletion exactly when they are equal |
| Orders.OwnerComparedAsText | backend/app/api/orders.py:77 | an owner stored as an int matches a user id that is the same number written as text |
| Orders.OthersOrderForbidden | backend/app/api/orders.py:77-78 | another user's order is never deleted |
| CoreAuth.BearerSpace | backend/app/core/auth.py:19-22 | behind a prefix that lower-cases to `bearer `, the text after the first space starts at index 7 |
| CoreAuth.GetCurrentUser | backend/app/core/auth.py:15-30 | 401 `Missing bearer token` unless the header lower-cases to a `bearer ` prefix; otherwise the stripped token is looked up, and every failure, including a missing user or id, is 401 `Invalid or expired token`; success gives `str(id)` and the email as returned |
| CoreAuth.BearerHeader | backend/app/core/auth.py:19-22 | `<bearer in any case> <rest>` passes the prefix test and yields `rest` |
| CoreAuth.GetCurrentUserStripsToken | backend/app/core/auth.py:22 | whitespace around the token does not change the outcome |
| Handshake.HappyPath | backend/app/api/auth.py:213-283 | register, then bot callback, then exchange within ten minutes: the browser gets a token with the bot's profile. `/me` and the orders check accept that token for 30 days from the callback. The state is gone and no other state changed |
| Handshake.ExchangeBeforeCallback | backend/app/api/auth.py:277-283 | an exchange before the bot's callback fails and consumes the state, so the callback is refused and every later exchange fails |
| Handshake.StaleStateCompleted | backend/app/api/auth.py:239-241 | a state older than ten minutes that nobody looked up is still completed by the bot; the exchange then refuses and drops it |
| Handshake.ExchangeOnce | backend/app/api/auth.py:280-283 | a state is exchanged at most once |
| Handshake.ForeignCallbackChangesNothing | backend/app/api/auth.py:234-236 | a callback with the wrong `X-Bot-Token` is refused and changes no later exchange |
| Handshake.BotPayloadCompletesState | telegram-bot/bot.py:63-96 | the bot recovers the state from the backend's start parameter and its body is accepted for that state; without a user the body has no id and is refused |
| Handshake.StatelessDeeplinkTakesLegacyPath | backend/app/api/auth.py:200-201 | a deep link without a state opens the bot with `auth`, which gives no state, so the bot offers the login URL with `?state=auth` |
| Handshake.LegacyLoginThenMe | backend/app/api/auth.py:130-191 | a genuine Login Widget payload received in time sets a cookie whose token `/me` accepts, with the profile's claim, for 30 days |
| Handshake.ParsersDisagreeOnSeparator | backend/app/api/orders.py:16-17 | with whitespace other than a space after the scheme, the orders parser accepts the token, `_get_jwt_from_request` falls back to the cookie, and `get_current_user` refuses. `_extract_bearer_token` is called by no endpoint, so this reaches no request |
| Handshake.SchemeThenToken | backend/app/api/orders.py:16-19 | `<bearer in any case><whitespace><token>` yields the token |
| Handshake.NoSpaceAfterScheme | backend/app/core/auth.py:19 | whitespace other than a space at index 6 fails both the `Bearer ` and the `bearer ` prefix tests |
| Handshake.ParsersDisagreeOnCase | backend/app/api/orders.py:17 | with the scheme in any case other than `Bearer`, the orders parser accepts the header and `_get_jwt_from_request` ignores it. `_extract_bearer_token` is called by no endpoint, so this reaches no request |
| Handshake.ParsersDisagreeOnSpacedToken | backend/app/api/orders.py:16-18 | for a token holding a space, the orders parser refuses the header while `_get_jwt_from_request` returns everything after the scheme. `_extract_bearer_token` is called by no endpoint, so this reaches no request |
| Handshake.EndpointsDisagreeOnCase | backend/app/api/auth.py:167 | with the scheme in any case other than `Bearer`, `/me` and the orders endpoints ignore the header and use the cookie, while `/users/me` treats it exactly like `Bearer <token>` |
| Handshake.HandshakeScenario | backend/app/api/auth.py:213-283 | on the store: `abc123` is registered at 0, the bot's post at 5 succeeds, the exchange at 10 returns the bot's token and profile, and the exchange at 11 fails |
| Handshake.ExpiryScenario | backend/app/api/auth.py:43-45 | on the store: a state registered at 0 and exchanged at 700 has expired, both when the bot completed it at 5 and when it never called back |
| PyStr.Lower | backend/app/api/orders.py:17 | lower-casing keeps the length and maps each character |
| PyStr.LStripShape | telegram-bot/bot.py:156 | lstrip removes only leading whitespace and leaves text that does not start with whitespace |
| PyStr.RStripShape | telegram-bot/bot.py:156 | rstrip removes only trailing whitespace and leaves a prefix that does not end with whitespace |
| PyStr.LStripLeading | telegram-bot/bot.py:156 | lstrip of whitespace followed by a text that does not start with whitespace is that text |
| PyStr.RStripTrailing | telegram-bot/bot.py:156 | rstrip of a text that does not end with whitespace, followed by whitespace, is that text |
| PyStr.Split | backend/app/api/orders.py:16 | every word of `split()` is non-empty and free of whitespace |
| PyStr.SplitSpaces | backend/app/api/orders.py:16 | `split()` of whitespace alone is the empty list |
| PyStr.SplitLeading | backend/app/api/orders.py:16 | leading whitespace does not change `split()` |
| PyStr.SplitWordTrail | backend/app/api/orders.py:16 | `split()` of one word followed by whitespace is that word |
| PyStr.StripPadded | backend/app/core/auth.py:22 | strip of whitespace, a text and whitespace is that text, when the text neither starts nor ends with whitespace |
| PyStr.StripTrimmed | backend/app/core/auth.py:22 | a text that neither starts nor ends with whitespace is its own strip |
| PyStr.SplitTwoWords | backend/app/api/orders.py:16 | `split()` of two words with any whitespace around and between them is those two words |
| PyStr.SplitWordSep | backend/app/api/orders.py:16 | `split()` of a word, whitespace and the rest is the word followed by the split of the rest |
| PyStr.AfterFirst | backend/app/api/auth.py:168 | `split(" ", 1)[1]` exists exactly when the text holds a space |
| PyStr.AfterFirstPrefix | backend/app/api/auth.py:168 | after a prefix without a separator, `split(sep, 1)[1]` is what follows the separator |
| PyStr.SplitOnceTail | telegram-bot/bot.py:66 | for a text starting with the separator, `split(sep, 1)[1]` is what follows it |
| PyStr.ReplaceAbsent | telegram-bot/bot.py:94 | replace leaves a text without occurrences unchanged |
| PyStr.ReplaceAtEnd | telegram-bot/bot.py:94 | replace rewrites a single occurrence at the end |
| PyStr.RStripChar | backend/app/api/auth.py:291 | `rstrip('/')` leaves a prefix that does not end with `/`, followed only by `/` |
| PyInt.NatToStringValue | backend/app/api/auth.py:106 | the decimal digits `str()` writes for a natural number denote that number |
| PyInt.ParseInt | backend/app/api/auth.py:75 | `int()` succeeds only on a text that is not blank after stripping, and what it returns has at most 4300 digits, so `str()` can write it back |
| PyInt.DigitsValueBound | backend/app/api/auth.py:75 | a run of `k` digits denotes a number below `10^k` |
| PyInt.NatToStringLength | backend/app/api/auth.py:106 | a number below `10^k` is written with at most `k` digits |
| PyInt.NatToStringDigitCount | backend/app/api/auth.py:106 | every character `str()` writes for a natural number is a digit and counts towards the limit |
| PyInt.ParseNatRoundTrip | backend/app/api/auth.py:106 | `int(str(n)) == n` for every natural number of at most 4300 digits |
| PyInt.ParseIntRoundTrip | backend/app/api/auth.py:106 | `int(str(i)) == i` for every int that `str()` writes within the 4300-digit limit |
| PyInt.ParseNegative | backend/app/api/auth.py:75 | a minus sign followed by a digit run within the limit reads as the negated value of the run |
| PyInt.IntToStringInjective | backend/app/api/orders.py:77 | different ints have different `str()` |
| UrlEncode.QuotePlus | telegram-bot/bot.py:42 | the quoted text holds only always-safe characters, `%` and `+` |
| UrlEncode.QuotePlusSafe | telegram-bot/bot.py:42 | a text of always-safe characters is quoted as itself |
| UrlEncode.QuoteCharEscapes | telegram-bot/bot.py:42 | a space becomes `+`; any other unsafe character becomes `%`-escapes, one per UTF-8 byte |

## Left out

- I/O is not modelled: HTTP requests and responses, message sending, the backend post of the
  bot, polling. The handlers' inputs and outcomes are values.
- Concurrency: the handlers are modelled as running one at a time, since the store has no
  synchronisation to verify.
- Time truncation: `now` is already a whole number of seconds, so `int(now.timestamp())` and
  sub-second clocks are not modelled.
- Hashing, HMAC and the JWT signature are given functions. Tokens signed by another issuer, or
  with a payload of another shape (no `tg` claim, non-scalar fields), are not modelled: a
  decoded token always has the five `tg` fields.
- JSON bodies hold only None, ints and strs. Booleans, floats, nested values, a body that is
  not an object, and invalid JSON are not modelled.
- `int()` accepts only ASCII digits here. Python also accepts other Unicode decimal digits.
- `resolve_callback_base` (the ngrok tunnel discovery) is a parameter.
- The photo lookup of `start` is a parameter, so its exceptions are not modelled.
- The `BadRequest` hint of `start` (telegram-bot/bot.py:124-144) is a reaction to a Telegram
  error, which is I/O.
- `fallback` only calls `start`.
- `logout` and `get_settings` do not take part in the login.
- `get_or_create_user_by_telegram`, the Supabase client and `delete_order` are services outside
  this model. Their outcomes are parameters.
- `Orders.CurrentTelegramClaim`: does not model the user record `_get_current_user` creates
  after the claim check; it ends at the accepted claim.
- `Orders.RemoveOrder`: takes the current user's id as given. That id is obtained through
  `_get_current_user`, which is modelled separately.
- `Bot.Start`: does not model the reply and button texts, or the `request_write_access` flag
  of the login button. The source resolves the callback base twice, once in `start`
  (telegram-bot/bot.py:51) and again inside `build_login_url` (telegram-bot/bot.py:37); the
  model resolves it once and passes the same base to both, so a tunnel that changes between the
  two lookups is not modelled.
- `PyInt.IntToString`: does not model that `str()` raises for an int of more than 4300
  digits. The ints it is applied to come from `int()` or from the JSON parser, both of which
  refuse such numbers; bodies are values here, so the JSON side of that is assumed.
- `AuthApi.IssueClaims`: states that `sub` reads back as the id only for an id within the
  4300-digit limit, the range `str()` can write; every profile the validation returns is in that
  range (`TelegramLogin.ValidateTelegramLogin`).
