/** Verification of the fields Telegram's Login Widget sends, as Telegram documents it
    ("Checking authorization"): the secret key is the SHA-256 digest of the bot token, the
    data-check-string is the received fields other than `hash`, sorted by key, written as
    `key=value` and joined by line feeds, and the `hash` field must be the hex HMAC-SHA-256
    (RFC 2104) of that string under that key. The source restricts the fields to a fixed
    allow-list. The two hash functions are not modelled: they are given as a Crypto value. */
module TelegramLogin {

  import opened Base
  import PyStr
  import PyInt

  /** The allow-listed keys of the data-check-string, in Python's sorted order. */
  const AllowedKeys: seq<string> := ["auth_date", "first_name", "id", "last_name", "photo_url", "username"]

  /** `max_age_seconds`' default. */
  const DefaultMaxAgeSeconds: int := 300

  /** Python's `<` on str: lexicographic by code point, a proper prefix first. */
  predicate Below(a: string, b: string)
    decreases |a|
  {
    if a == [] then b != []
    else if b == [] then false
    else if a[0] == b[0] then Below(a[1..], b[1..])
    else a[0] < b[0]
  }

  predicate StrictlySorted(ks: seq<string>)
  {
    forall i, j | 0 <= i < j < |ks| :: Below(ks[i], ks[j])
  }

  lemma {:induction false} BelowIrreflexive(a: string)
    ensures !Below(a, a)
    decreases |a|
  {
    if a != [] {
      BelowIrreflexive(a[1..]);
    }
  }

  lemma {:induction false} BelowAsymmetric(a: string, b: string)
    ensures !(Below(a, b) && Below(b, a))
    decreases |a|
  {
    if a != [] && b != [] && a[0] == b[0] {
      BelowAsymmetric(a[1..], b[1..]);
    }
  }

  lemma AllowedKeysSorted()
    ensures StrictlySorted(AllowedKeys)
  {
  }

  /** Sequences with the same elements are both empty or both not. */
  lemma SameElementsEmpty(a: seq<string>, b: seq<string>)
    requires forall k :: k in a <==> k in b
    ensures a == [] <==> b == []
  {
    if a != [] {
      assert a[0] in a;
    }
    if b != [] {
      assert b[0] in b;
    }
  }

  /** Two strictly ascending sequences with the same elements are equal: a set has exactly one
      sorted listing, so any strictly ascending listing of the selected keys is what Python's
      sorted() returns for them. */
  lemma {:induction false} SortedListingUnique(a: seq<string>, b: seq<string>)
    requires StrictlySorted(a) && StrictlySorted(b)
    requires forall k :: k in a <==> k in b
    ensures a == b
    decreases |a|
  {
    SameElementsEmpty(a, b);
    if a != [] {
      assert a[0] == b[0] by {
        assert b[0] in a;
        var j :| 0 <= j < |a| && a[j] == b[0];
        assert a[0] in b;
        var i :| 0 <= i < |b| && b[i] == a[0];
        BelowAsymmetric(a[0], b[0]);
        if j != 0 && i != 0 {
          assert false;
        }
      }
      forall k ensures k in a[1..] <==> k in b[1..] {
        if k in a[1..] {
          var j :| 1 <= j < |a| && a[j] == k;
          assert Below(a[0], k);
          BelowIrreflexive(k);
          assert k in b && k != b[0];
        }
        if k in b[1..] {
          var j :| 1 <= j < |b| && b[j] == k;
          assert Below(b[0], k);
          BelowIrreflexive(k);
          assert k in a && k != a[0];
        }
      }
      SortedListingUnique(a[1..], b[1..]);
    }
  }

  /** The keys of `keys` present in `params`, other than `hash`, in the order of `keys`. */
  function Selected(params: map<string, string>, keys: seq<string>): (r: seq<string>)
    ensures forall k :: k in r <==> k in keys && k in params && k != "hash"
    ensures StrictlySorted(keys) ==> StrictlySorted(r)
  {
    if keys == [] then []
    else
      var rest := Selected(params, keys[1..]);
      assert StrictlySorted(keys) ==> forall k | k in rest :: Below(keys[0], k) by {
        if StrictlySorted(keys) {
          forall k | k in rest ensures Below(keys[0], k) {
            var j :| 0 <= j < |keys[1..]| && keys[1..][j] == k;
            assert keys[j + 1] == k;
          }
        }
      }
      if keys[0] in params && keys[0] != "hash" then [keys[0]] + rest else rest
  }

  /** `sorted(k for k in params.keys() if k != "hash" and k in allowed_keys)`: exactly the
      allow-listed keys present, never `hash`, in ascending order. */
  function SignedKeys(params: map<string, string>): (ks: seq<string>)
    ensures forall k :: k in ks <==> k in params && k in AllowedKeys && k != "hash"
    ensures StrictlySorted(ks)
  {
    AllowedKeysSorted();
    Selected(params, AllowedKeys)
  }

  /** Any ascending listing of the allow-listed keys present is SignedKeys: it is the sorted
      order of that set. */
  lemma SignedKeysAreTheSortedKeys(params: map<string, string>, ks: seq<string>)
    requires StrictlySorted(ks)
    requires forall k :: k in ks <==> k in params && k in AllowedKeys && k != "hash"
    ensures ks == SignedKeys(params)
  {
    SortedListingUnique(ks, SignedKeys(params));
  }

  function Line(params: map<string, string>, k: string): string
    requires k in params
  {
    k + "=" + params[k]
  }

  /** The `key=value` lines of `ks`, in order. */
  function Lines(params: map<string, string>, ks: seq<string>): seq<string>
    requires forall k | k in ks :: k in params
  {
    if ks == [] then [] else Lines(params, ks[..|ks| - 1]) + [Line(params, ks[|ks| - 1])]
  }

  /** One line per key, in the keys' order. */
  lemma {:induction false} LinesShape(params: map<string, string>, ks: seq<string>)
    requires forall k | k in ks :: k in params
    ensures |Lines(params, ks)| == |ks|
    ensures forall i | 0 <= i < |ks| :: Lines(params, ks)[i] == Line(params, ks[i])
  {
    if ks != [] {
      LinesShape(params, ks[..|ks| - 1]);
    }
  }

  /** The data-check-string of Telegram's scheme over the allow-listed fields. */
  function DataCheckString(params: map<string, string>): (s: string)
    ensures s == [] <==> SignedKeys(params) == []
  {
    var lines := Lines(params, SignedKeys(params));
    LinesShape(params, SignedKeys(params));
    PyStr.Join(lines, "\n")
  }

  /** `_build_data_check_string`: one `key=value` line per selected key, appended in sorted
      order, then joined by line feeds. */
  method BuildDataCheckString(params: map<string, string>) returns (s: string)
    ensures s == DataCheckString(params)
  {
    var keys := SignedKeys(params);
    var prepared: seq<string> := [];
    var i := 0;
    while i < |keys|
      invariant 0 <= i <= |keys|
      invariant prepared == Lines(params, keys[..i])
    {
      assert keys[..i + 1][..i] == keys[..i];
      prepared := prepared + [Line(params, keys[i])];
      i := i + 1;
    }
    assert keys[..i] == keys;
    s := PyStr.Join(prepared, "\n");
  }

  lemma {:induction false} SelectedIgnores(params: map<string, string>, keys: seq<string>, x: string, v: string)
    requires x !in keys
    ensures Selected(params[x := v], keys) == Selected(params, keys)
    ensures Selected(params - {x}, keys) == Selected(params, keys)
  {
    if keys != [] {
      SelectedIgnores(params, keys[1..], x, v);
    }
  }

  lemma {:induction false} LinesIgnore(params: map<string, string>, ks: seq<string>, x: string, v: string)
    requires forall k | k in ks :: k in params && k != x
    ensures Lines(params[x := v], ks) == Lines(params, ks)
    ensures Lines(params - {x}, ks) == Lines(params, ks)
  {
    if ks != [] {
      assert forall k | k in ks[..|ks| - 1] :: k in ks;
      LinesIgnore(params, ks[..|ks| - 1], x, v);
    }
  }

  /** A field outside the allow-list, whether `hash`, the handshake's `state` or anything else,
      neither added, changed nor removed, changes the data-check-string. */
  lemma DataCheckStringIgnores(params: map<string, string>, x: string, v: string)
    requires x !in AllowedKeys
    ensures DataCheckString(params[x := v]) == DataCheckString(params)
    ensures DataCheckString(params - {x}) == DataCheckString(params)
  {
    SelectedIgnores(params, AllowedKeys, x, v);
    LinesIgnore(params, SignedKeys(params), x, v);
  }

  /** The two hash primitives: the SHA-256 digest of a string's UTF-8 bytes, and the hex
      HMAC-SHA-256 of a string under a key. */
  datatype Crypto = Crypto(sha256: string -> seq<bv8>, hmacSha256Hex: (seq<bv8>, string) -> string)

  /** `hexdigest()` of SHA-256 yields 64 ASCII characters. */
  ghost predicate HexDigests(crypto: Crypto)
  {
    forall key, msg :: |crypto.hmacSha256Hex(key, msg)| == 64 && PyStr.IsAscii(crypto.hmacSha256Hex(key, msg))
  }

  /** The hash Telegram sends for these fields. */
  function ExpectedHash(params: map<string, string>, botToken: string, crypto: Crypto): (h: string)
    ensures HexDigests(crypto) ==> |h| == 64 && PyStr.IsAscii(h)
  {
    crypto.hmacSha256Hex(crypto.sha256(botToken), DataCheckString(params))
  }

  /** `hmac.compare_digest(a, b)` on two str: equality, or None where it raises TypeError
      because one of them holds a non-ASCII character. */
  function CompareDigest(a: string, b: string): (r: Option<bool>)
    ensures r == Some(true) <==> PyStr.IsAscii(a) && PyStr.IsAscii(b) && a == b
    ensures r.None? <==> !PyStr.IsAscii(a) || !PyStr.IsAscii(b)
    ensures r.Some? ==> (r.value <==> a == b)
  {
    if PyStr.IsAscii(a) && PyStr.IsAscii(b) then Some(a == b) else None
  }

  /** The profile built from verified fields. */
  datatype LoginProfile = LoginProfile(
    id: Option<int>,
    firstName: Option<string>,
    lastName: Option<string>,
    username: Option<string>,
    photoUrl: Option<string>,
    authDate: int)

  /** Why verification fails: the four HTTP 400 refusals, and the two exceptions the function
      lets escape (compare_digest's TypeError on a non-ASCII hash, int()'s ValueError on a
      malformed `id`). */
  datatype LoginError = MissingFields | BadAuthDate | Expired | BadSignature | DigestTypeError | BadId

  /** The response each refusal becomes. */
  function AsFailure(e: LoginError): Failure
  {
    match e
    case MissingFields => Http(400, "Invalid Telegram auth data")
    case BadAuthDate => Http(400, "Invalid auth_date")
    case Expired => Http(400, "Auth data expired")
    case BadSignature => Http(400, "Bad signature")
    case DigestTypeError => Uncaught("TypeError")
    case BadId => Uncaught("ValueError")
  }

  /** Both required fields are present and non-empty. */
  predicate HasRequired(params: map<string, string>)
  {
    Truthy(Get(params, "hash")) && Truthy(Get(params, "auth_date"))
  }

  /** `_validate_telegram_login(params, bot_token, max_age_seconds)` at time `now`. */
  function ValidateTelegramLogin(params: map<string, string>, botToken: string, now: int, maxAgeSeconds: int,
                                 crypto: Crypto): (r: Result<LoginProfile, LoginError>)
    // missing or empty hash / auth_date are refused first
    ensures !HasRequired(params) <==> r == Err(MissingFields)
    // then an auth_date that int() cannot read
    ensures r == Err(BadAuthDate) <==> HasRequired(params) && PyInt.ParseInt(params["auth_date"]).None?
    // then staleness, whatever the signature
    ensures r == Err(Expired) <==>
              HasRequired(params) && PyInt.ParseInt(params["auth_date"]).Some?
              && now - PyInt.ParseInt(params["auth_date"]).value > maxAgeSeconds
    // only then the signature: a hash other than the expected one never passes
    ensures r == Err(BadSignature) ==> HasRequired(params) && params["hash"] != ExpectedHash(params, botToken, crypto)
    ensures r == Err(DigestTypeError) ==>
              HasRequired(params) && !(PyStr.IsAscii(params["hash"]) && PyStr.IsAscii(ExpectedHash(params, botToken, crypto)))
    ensures HasRequired(params) && PyStr.IsAscii(params["hash"]) && PyStr.IsAscii(ExpectedHash(params, botToken, crypto))
            && params["hash"] != ExpectedHash(params, botToken, crypto)
            ==> r.Err? && r.error in {MissingFields, BadAuthDate, Expired, BadSignature}
    // a returned profile's numbers can be written back with str()
    ensures r.Ok? ==> WithinDigitLimit(r.value)
    // on success the signature matched and the profile is the fields, auth_date read as an int
    ensures r.Ok? ==>
              && Get(params, "hash") == Some(ExpectedHash(params, botToken, crypto))
              && "auth_date" in params && PyInt.ParseInt(params["auth_date"]) == Some(r.value.authDate)
              && now - r.value.authDate <= maxAgeSeconds
              && (r.value.id.Some? <==> "id" in params)
              && ("id" in params ==> PyInt.ParseInt(params["id"]) == r.value.id)
              && r.value.firstName == Get(params, "first_name")
              && r.value.lastName == Get(params, "last_name")
              && r.value.username == Get(params, "username")
              && r.value.photoUrl == Get(params, "photo_url")
  {
    Verdict(Get(params, "hash"), Get(params, "auth_date"), Get(params, "id"), Get(params, "first_name"),
            Get(params, "last_name"), Get(params, "username"), Get(params, "photo_url"),
            ExpectedHash(params, botToken, crypto), now, maxAgeSeconds)
  }

  /** The checks of `_validate_telegram_login` in order, on the fields it reads and the hash it
      computes. */
  function Verdict(receivedHash: Option<string>, authDateStr: Option<string>, id: Option<string>,
                   firstName: Option<string>, lastName: Option<string>, username: Option<string>,
                   photoUrl: Option<string>, computedHash: string, now: int, maxAgeSeconds: int)
    : (r: Result<LoginProfile, LoginError>)
    ensures !(Truthy(receivedHash) && Truthy(authDateStr)) <==> r == Err(MissingFields)
    ensures r == Err(BadAuthDate) <==>
              Truthy(receivedHash) && Truthy(authDateStr) && PyInt.ParseInt(authDateStr.value).None?
    ensures r == Err(Expired) <==>
              Truthy(receivedHash) && Truthy(authDateStr) && PyInt.ParseInt(authDateStr.value).Some?
              && now - PyInt.ParseInt(authDateStr.value).value > maxAgeSeconds
    ensures r == Err(BadSignature) ==> Truthy(receivedHash) && Truthy(authDateStr) && receivedHash.value != computedHash
    ensures r == Err(DigestTypeError) ==>
              Truthy(receivedHash) && Truthy(authDateStr)
              && !(PyStr.IsAscii(receivedHash.value) && PyStr.IsAscii(computedHash))
    ensures Truthy(receivedHash) && Truthy(authDateStr) && PyStr.IsAscii(receivedHash.value)
            && PyStr.IsAscii(computedHash) && receivedHash.value != computedHash
            ==> r.Err? && r.error in {MissingFields, BadAuthDate, Expired, BadSignature}
    ensures r.Ok? ==>
              && receivedHash == Some(computedHash) && authDateStr.Some?
              && PyInt.ParseInt(authDateStr.value) == Some(r.value.authDate)
              && now - r.value.authDate <= maxAgeSeconds
              && (r.value.id.Some? <==> id.Some?)
              && (id.Some? ==> PyInt.ParseInt(id.value) == r.value.id)
              && r.value.firstName == firstName && r.value.lastName == lastName
              && r.value.username == username && r.value.photoUrl == photoUrl
  {
    if !Truthy(receivedHash) || !Truthy(authDateStr) then Err(MissingFields)
    else
      match PyInt.ParseInt(authDateStr.value)
      case None => Err(BadAuthDate)
      case Some(authDate) =>
        if now - authDate > maxAgeSeconds then Err(Expired)
        else
          match CompareDigest(computedHash, receivedHash.value)
          case None => Err(DigestTypeError)
          case Some(false) => Err(BadSignature)
          case Some(true) =>
            if id.Some? && PyInt.ParseInt(id.value).None? then Err(BadId)
            else
              Ok(LoginProfile(
                   if id.Some? then PyInt.ParseInt(id.value) else None,
                   firstName, lastName, username, photoUrl, authDate))
  }

  /** The verdict depends on the fields only through the ones it reads and the data-check
      string. */
  lemma ValidateReadsFields(p1: map<string, string>, p2: map<string, string>, botToken: string, now: int,
                            maxAgeSeconds: int, crypto: Crypto)
    requires DataCheckString(p1) == DataCheckString(p2)
    requires Get(p1, "hash") == Get(p2, "hash") && Get(p1, "auth_date") == Get(p2, "auth_date")
    requires Get(p1, "id") == Get(p2, "id")
    requires Get(p1, "first_name") == Get(p2, "first_name") && Get(p1, "last_name") == Get(p2, "last_name")
    requires Get(p1, "username") == Get(p2, "username") && Get(p1, "photo_url") == Get(p2, "photo_url")
    ensures ValidateTelegramLogin(p1, botToken, now, maxAgeSeconds, crypto)
            == ValidateTelegramLogin(p2, botToken, now, maxAgeSeconds, crypto)
  {
    assert ("id" in p1 <==> "id" in p2) && ("id" in p1 ==> p1["id"] == p2["id"]);
  }

  /** Fields outside the allow-list other than `hash` (the handshake's `state`, say) do not
      affect the verdict. */
  lemma ValidateIgnoresUnsignedFields(params: map<string, string>, x: string, v: string, botToken: string,
                                      now: int, maxAgeSeconds: int, crypto: Crypto)
    requires x !in AllowedKeys && x != "hash"
    ensures ValidateTelegramLogin(params[x := v], botToken, now, maxAgeSeconds, crypto)
            == ValidateTelegramLogin(params, botToken, now, maxAgeSeconds, crypto)
  {
    var q := params[x := v];
    assert x != "auth_date" && x != "first_name" && x != "id" && x != "last_name" && x != "photo_url"
           && x != "username" by {
      assert AllowedKeys[0] == "auth_date" && AllowedKeys[1] == "first_name" && AllowedKeys[2] == "id";
      assert AllowedKeys[3] == "last_name" && AllowedKeys[4] == "photo_url" && AllowedKeys[5] == "username";
    }
    DataCheckStringIgnores(params, x, v);
    assert DataCheckString(q) == DataCheckString(params);
    assert forall k | k != x :: Get(q, k) == Get(params, k);
    ValidateReadsFields(q, params, botToken, now, maxAgeSeconds, crypto);
  }

  /** The converse of the success clause: fields that pass every check yield the profile read
      from them. */
  lemma ValidateAccepts(params: map<string, string>, botToken: string, now: int, maxAgeSeconds: int,
                        crypto: Crypto, authDate: int)
    requires Get(params, "hash") == Some(ExpectedHash(params, botToken, crypto))
    requires PyStr.IsAscii(ExpectedHash(params, botToken, crypto)) && ExpectedHash(params, botToken, crypto) != []
    requires "auth_date" in params && PyInt.ParseInt(params["auth_date"]) == Some(authDate)
    requires now - authDate <= maxAgeSeconds
    requires "id" in params ==> PyInt.ParseInt(params["id"]).Some?
    ensures ValidateTelegramLogin(params, botToken, now, maxAgeSeconds, crypto)
            == Ok(LoginProfile(if "id" in params then PyInt.ParseInt(params["id"]) else None,
                               Get(params, "first_name"), Get(params, "last_name"),
                               Get(params, "username"), Get(params, "photo_url"), authDate))
  {
    assert params["auth_date"] != [] by {
      assert PyStr.Strip([]) == [];
    }
  }

  /** `m` with `key` set when the value is present. */
  function WithField(m: map<string, string>, key: string, value: Option<string>): map<string, string>
  {
    if value.Some? then m[key := value.value] else m
  }

  /** The fields the Login Widget sends for a profile, before `hash` is added: `auth_date` and
      `id` in decimal, the other fields when present. */
  function WidgetFields(p: LoginProfile): map<string, string>
  {
    var m := map["auth_date" := PyInt.IntToString(p.authDate)];
    var m := WithField(m, "id", if p.id.Some? then Some(PyInt.IntToString(p.id.value)) else None);
    var m := WithField(m, "first_name", p.firstName);
    var m := WithField(m, "last_name", p.lastName);
    var m := WithField(m, "username", p.username);
    WithField(m, "photo_url", p.photoUrl)
  }

  /** The numbers of a profile can be written with `str()` and read back with `int()`: neither has
      more than `sys.get_int_max_str_digits()` digits. Every profile the validation returns
      satisfies this. */
  predicate WithinDigitLimit(p: LoginProfile)
  {
    PyInt.WithinStrDigits(p.authDate) && (p.id.Some? ==> PyInt.WithinStrDigits(p.id.value))
  }

  /** The fields a signed widget payload offers to the check. */
  lemma SignedWidgetFields(p: LoginProfile, h: string)
    ensures var q := WidgetFields(p)["hash" := h];
            && Get(q, "hash") == Some(h)
            && Get(q, "auth_date") == Some(PyInt.IntToString(p.authDate))
            && Get(q, "id") == (if p.id.Some? then Some(PyInt.IntToString(p.id.value)) else None)
            && Get(q, "first_name") == p.firstName && Get(q, "last_name") == p.lastName
            && Get(q, "username") == p.username && Get(q, "photo_url") == p.photoUrl
  {
  }

  /** A genuine payload is accepted and yields exactly the profile it was made from: the fields
      of `p`, signed as Telegram signs them, received within `maxAgeSeconds` of `p.authDate`. */
  lemma AcceptsGenuinePayload(p: LoginProfile, botToken: string, now: int, maxAgeSeconds: int, crypto: Crypto)
    requires HexDigests(crypto)
    requires now - p.authDate <= maxAgeSeconds
    requires WithinDigitLimit(p)
    ensures var fields := WidgetFields(p);
            var params := fields["hash" := ExpectedHash(fields, botToken, crypto)];
            ValidateTelegramLogin(params, botToken, now, maxAgeSeconds, crypto) == Ok(p)
  {
    var fields := WidgetFields(p);
    var h := ExpectedHash(fields, botToken, crypto);
    var params := fields["hash" := h];
    assert ExpectedHash(params, botToken, crypto) == h by {
      DataCheckStringIgnores(fields, "hash", h);
    }
    assert |h| == 64 && PyStr.IsAscii(h);
    SignedWidgetFields(p, h);
    assert PyInt.ParseInt(params["auth_date"]) == Some(p.authDate) by {
      PyInt.ParseIntRoundTrip(p.authDate);
    }
    assert "id" in params ==> PyInt.ParseInt(params["id"]) == p.id by {
      if p.id.Some? {
        PyInt.ParseIntRoundTrip(p.id.value);
      }
    }
    ValidateAccepts(params, botToken, now, maxAgeSeconds, crypto, p.authDate);
  }

  /** The same holds with one more unsigned field, such as the handshake's `state`. */
  lemma AcceptsGenuinePayloadWith(p: LoginProfile, x: string, v: string, botToken: string, now: int,
                                  maxAgeSeconds: int, crypto: Crypto)
    requires HexDigests(crypto)
    requires now - p.authDate <= maxAgeSeconds
    requires WithinDigitLimit(p)
    requires x !in AllowedKeys && x != "hash"
    ensures var fields := WidgetFields(p);
            var params := fields["hash" := ExpectedHash(fields, botToken, crypto)][x := v];
            ValidateTelegramLogin(params, botToken, now, maxAgeSeconds, crypto) == Ok(p)
  {
    var fields := WidgetFields(p);
    AcceptsGenuinePayload(p, botToken, now, maxAgeSeconds, crypto);
    ValidateIgnoresUnsignedFields(fields["hash" := ExpectedHash(fields, botToken, crypto)], x, v, botToken, now,
                                  maxAgeSeconds, crypto);
  }

  /** The concrete payload `{id: 7, first_name: "Bob", auth_date, hash, state}` is signed over
      exactly `auth_date=…\nfirst_name=Bob\nid=7`. */
  lemma ExampleDataCheckString(params: map<string, string>)
    requires params == map["id" := "7", "first_name" := "Bob", "auth_date" := "1700000000", "hash" := "00",
                           "state" := "abc123"]
    ensures DataCheckString(params) == "auth_date=1700000000\nfirst_name=Bob\nid=7"
  {
    ExampleSignedKeys(params);
    ExampleLines(params);
    ExampleJoin(Lines(params, SignedKeys(params)));
  }

  lemma ExampleJoin(lines: seq<string>)
    requires lines == ["auth_date=1700000000", "first_name=Bob", "id=7"]
    ensures PyStr.Join(lines, "\n") == "auth_date=1700000000\nfirst_name=Bob\nid=7"
  {
    assert lines[1..] == ["first_name=Bob", "id=7"] && lines[1..][1..] == ["id=7"];
    assert PyStr.Join(lines[1..], "\n") == "first_name=Bob" + "\n" + "id=7";
    assert PyStr.Join(lines, "\n") == "auth_date=1700000000" + "\n" + ("first_name=Bob" + "\n" + "id=7");
  }

  lemma ExampleSignedKeys(params: map<string, string>)
    requires params == map["id" := "7", "first_name" := "Bob", "auth_date" := "1700000000", "hash" := "00",
                           "state" := "abc123"]
    ensures SignedKeys(params) == ["auth_date", "first_name", "id"]
  {
    var ks := ["auth_date", "first_name", "id"];
    assert StrictlySorted(ks) by {
      assert Below("auth_date", "first_name") && Below("auth_date", "id") && Below("first_name", "id");
    }
    forall k ensures k in ks <==> k in params && k in AllowedKeys && k != "hash" {
      assert k in params <==> k == "id" || k == "first_name" || k == "auth_date" || k == "hash" || k == "state";
      assert k in AllowedKeys ==> k != "state";
    }
    SignedKeysAreTheSortedKeys(params, ks);
  }

  lemma ExampleLines(params: map<string, string>)
    requires params == map["id" := "7", "first_name" := "Bob", "auth_date" := "1700000000", "hash" := "00",
                           "state" := "abc123"]
    ensures Lines(params, ["auth_date", "first_name", "id"]) == ["auth_date=1700000000", "first_name=Bob", "id=7"]
  {
    var ks := ["auth_date", "first_name", "id"];
    assert params["auth_date"] == "1700000000";
    assert params["first_name"] == "Bob";
    assert params["id"] == "7";
    assert Line(params, "auth_date") == "auth_date=1700000000";
    assert Line(params, "first_name") == "first_name=Bob";
    assert Line(params, "id") == "id=7";
    assert ks[..2] == ["auth_date", "first_name"] && ks[..2][..1] == ["auth_date"] && ks[..2][..1][..0] == [];
    assert Lines(params, ["auth_date"]) == ["auth_date=1700000000"];
    assert Lines(params, ["auth_date", "first_name"]) == ["auth_date=1700000000", "first_name=Bob"];
  }
}
