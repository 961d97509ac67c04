/** The checks of the orders endpoints: the `Authorization` header parser, the Telegram claim
    check that precedes resolving the current user, and the owner check before an order is
    deleted. The user and order records come from the database; they are parameters. */
module Orders {

  import opened Base
  import opened PyStr
  import opened PyInt
  import Jwt
  import AuthApi

  /** The scheme word, compared after lower-casing. */
  const BearerScheme: string := "bearer"

  /** `_extract_bearer_token`: the header must split on whitespace into exactly two parts, the
      first of them `bearer` in any case; the token is the second part. */
  function ExtractBearerToken(authorization: Option<string>): (r: Result<string, Failure>)
    ensures !Truthy(authorization) ==> r == Err(Http(401, "Missing Authorization header"))
    ensures Truthy(authorization) ==>
              var parts := Split(authorization.value);
              && (r.Ok? <==> |parts| == 2 && Lower(parts[0]) == BearerScheme)
              && (r.Ok? ==> r.value == parts[1])
              && (r.Err? ==> r.error == Http(401, "Invalid Authorization format"))
    ensures r.Ok? ==> r.value != [] && NoSpace(r.value)
  {
    if !Truthy(authorization) then Err(Http(401, "Missing Authorization header"))
    else
      var parts := Split(authorization.value);
      if |parts| != 2 || Lower(parts[0]) != BearerScheme then Err(Http(401, "Invalid Authorization format"))
      else Ok(parts[1])
  }

  /** A word that lower-cases to `bearer` holds no whitespace. */
  lemma SchemeWordHasNoSpace(scheme: string)
    requires Lower(scheme) == BearerScheme
    ensures scheme != [] && NoSpace(scheme)
  {
    forall i | 0 <= i < |scheme| ensures !IsSpace(scheme[i]) {
      assert LowerChar(scheme[i]) == BearerScheme[i];
    }
  }

  /** Any header of the form `<bearer in any case> <token>`, with any whitespace around and
      between the two words, yields the token. */
  lemma ExtractAcceptsBearer(lead: string, scheme: string, sep: string, token: string, trail: string)
    requires Lower(scheme) == BearerScheme
    requires AllSpace(lead) && AllSpace(sep) && sep != [] && AllSpace(trail)
    requires token != [] && NoSpace(token)
    ensures ExtractBearerToken(Some(lead + scheme + sep + token + trail)) == Ok(token)
  {
    SchemeWordHasNoSpace(scheme);
    SplitTwoWords(lead, scheme, sep, token, trail);
  }

  /** A token with a space in it makes three parts, and the header is refused. */
  lemma ExtractRejectsThreeParts(scheme: string, t1: string, t2: string)
    requires Lower(scheme) == BearerScheme
    requires t1 != [] && NoSpace(t1) && t2 != [] && NoSpace(t2)
    ensures ExtractBearerToken(Some(scheme + " " + t1 + " " + t2))
            == Err(Http(401, "Invalid Authorization format"))
  {
    SchemeWordHasNoSpace(scheme);
    var h := scheme + " " + t1 + " " + t2;
    assert h == scheme + " " + (t1 + " " + t2);
    SplitWordSep(scheme, " ", t1 + " " + t2);
    SplitWordSep(t1, " ", t2);
    SplitWord(t2);
  }

  /** The claim check of `_get_current_user`: a token is required (a bearer header first, then
      the cookie), it must decode, and its `tg` claim must have a truthy id. This is the `/me`
      answer, accepted only when it names a Telegram id. */
  function CurrentTelegramClaim(env: Env, authorization: Option<string>, cookie: Option<string>, now: int,
                                codec: Jwt.Codec): (r: Result<Jwt.TgClaim, Failure>)
    ensures var me := AuthApi.Me(env, authorization, cookie, now, codec);
            && (r.Ok? <==> me.Ok? && IsTruthy(me.value.id))
            && (r.Ok? ==> r == me)
    ensures r.Err? ==> r.error.Http? && r.error.status == 401
  {
    var token := AuthApi.JwtFromRequest(authorization, cookie);
    if !Truthy(token) then Err(Http(401, "Unauthorized"))
    else
      match codec.decode(token.value, AuthApi.JwtSecretOf(env), now)
      case None => Err(Http(401, "Invalid token"))
      case Some(data) =>
        var tg := data.tg;
        if !IsTruthy(tg.id) then Err(Http(401, "Invalid token")) else Ok(tg)
  }

  /** `remove_order` once the current user is known: `row` is the `owner_id` row the query
      returns (None when there is no data). The order is deleted, which is what `Ok` stands for,
      exactly when the row exists and its owner, as text, is the user's id, as text. */
  function RemoveOrder(orderId: string, userId: Scalar, row: Option<map<string, Scalar>>): (r: Result<string, Failure>)
    ensures (row.None? || row.value == map[]) <==> r == Err(Http(404, "Order not found"))
    ensures row.Some? && row.value != map[] && Str(AuthApi.Field(row.value, "owner_id")) != Str(userId)
            <==> r == Err(Http(403, "Forbidden"))
    ensures r.Ok? <==> row.Some? && row.value != map[] && Str(AuthApi.Field(row.value, "owner_id")) == Str(userId)
    ensures r.Ok? ==> r.value == orderId
  {
    if row.None? || row.value == map[] then Err(Http(404, "Order not found"))
    else if Str(AuthApi.Field(row.value, "owner_id")) != Str(userId) then Err(Http(403, "Forbidden"))
    else Ok(orderId)
  }

  /** The comparison is on text: an owner id stored as an int matches the user id written as
      the same decimal str. */
  lemma OwnerComparedAsText(orderId: string, owner: int)
    ensures RemoveOrder(orderId, StrValue(IntToString(owner)), Some(map["owner_id" := IntValue(owner)])) == Ok(orderId)
  {
    var row := map["owner_id" := IntValue(owner)];
    assert "owner_id" in row && row != map[];
    assert AuthApi.Field(row, "owner_id") == IntValue(owner);
  }

  /** Another user's order is never deleted. */
  lemma OthersOrderForbidden(orderId: string, owner: string, user: string)
    requires owner != user
    ensures RemoveOrder(orderId, StrValue(user), Some(map["owner_id" := StrValue(owner)])) == Err(Http(403, "Forbidden"))
  {
    var row := map["owner_id" := StrValue(owner)];
    assert "owner_id" in row && row != map[];
    assert AuthApi.Field(row, "owner_id") == StrValue(owner);
  }
}
