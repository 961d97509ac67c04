/** The session token: an HS256 JSON Web Token (RFC 7519, with the HMAC SHA-256 algorithm of
    section 3.2 of RFC 7518) whose claims carry the Telegram identity. The signing library is
    not modelled; it is a pair of functions the handlers are given, and what the model relies on
    is stated once, as the predicate Sound. */
module Jwt {

  import opened Base
  import PyStr
  import opened PyInt

  /** The `tg` claim: the Telegram profile the token vouches for. Its fields are whatever the
      issuing handler was given: ints and strs from the Login Widget, any JSON scalar from the
      bot's request body. */
  datatype TgClaim = TgClaim(
    id: Scalar,
    username: Scalar,
    firstName: Scalar,
    lastName: Scalar,
    photoUrl: Scalar)

  /** The claim set: `sub`, `tg`, `uid` (present only in tokens issued through the bot),
      `iat` and `exp` in seconds since the epoch. */
  datatype Claims = Claims(sub: string, tg: TgClaim, uid: Option<string>, iat: int, exp: int)

  /** `jwt.encode(payload, secret, algorithm="HS256")` and
      `jwt.decode(token, secret, algorithms=["HS256"])` at a given time, None where the library
      raises PyJWTError. */
  datatype Codec = Codec(
    encode: (Claims, string) -> string,
    decode: (string, string, int) -> Option<Claims>)

  /** 30 days, in seconds: `timedelta(days=30)`. */
  const SessionTtlSeconds: int := 30 * 86400

  /** The characters of a compact serialisation: the base64url alphabet and the dots between
      the three parts. */
  predicate IsTokenChar(c: char)
  {
    'A' <= c <= 'Z' || 'a' <= c <= 'z' || '0' <= c <= '9' || c == '-' || c == '_' || c == '.'
  }

  /** What the model assumes of the library: a token decodes, under the key it was signed with,
      to exactly the claims it was made from while `iat <= now < exp` (the library rejects a
      token at or after its `exp` and one issued in the future), and not at all otherwise; and a
      token is a non-empty string over the compact-serialisation alphabet. */
  ghost predicate Sound(codec: Codec)
  {
    && (forall c, key, now :: codec.decode(codec.encode(c, key), key, now)
                               == if c.iat <= now < c.exp then Some(c) else None)
    && (forall c, key :: codec.encode(c, key) != [])
    && (forall c, key, i :: 0 <= i < |codec.encode(c, key)| ==> IsTokenChar(codec.encode(c, key)[i]))
  }

  /** A token of a sound codec is truthy and holds no whitespace, so it survives both the
      `Bearer <token>` header and the cookie unchanged. */
  lemma TokenShape(codec: Codec, c: Claims, key: string)
    requires Sound(codec)
    ensures codec.encode(c, key) != [] && PyStr.NoSpace(codec.encode(c, key))
  {
  }
}
