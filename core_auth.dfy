/** The Supabase access-token dependency `get_current_user`: a bearer header in any case with a
    single space after the scheme, the token stripped, and every failure of the lookup, the
    request's own "no user" refusal included, answered as one 401. The Supabase `auth.get_user`
    call is a parameter. */
module CoreAuth {

  import opened Base
  import opened PyStr
  import opened PyInt

  /** The pydantic model returned on success. */
  datatype AuthenticatedUser = AuthenticatedUser(id: string, email: Option<string>)

  /** The user object Supabase returns: its `id` and `email` attributes. */
  datatype SupabaseUser = SupabaseUser(id: Scalar, email: Option<string>)

  /** The outcome of `supabase_client.auth.get_user(token)`: the exception it raises, or the
      response's `user`, None when it has none. */
  type Lookup = string -> Result<Option<SupabaseUser>, string>

  /** A header whose lower-cased form starts with `bearer ` has a space at index 6 and none
      before it. */
  lemma BearerSpace(h: string)
    requires StartsWith(Lower(h), "bearer ")
    ensures AfterFirst(h, ' ') == Some(h[7..])
  {
    var l := Lower(h);
    assert l[..7] == "bearer ";
    assert LowerChar(h[6]) == ' ';
    forall i | 0 <= i < 6 ensures h[..6][i] != ' ' {
      assert LowerChar(h[i]) == "bearer "[i];
    }
    assert h == h[..6] + [' '] + h[7..];
    AfterFirstPrefix(h[..6], ' ', h[7..]);
  }

  /** `get_current_user(authorization)`. */
  function GetCurrentUser(authorization: Option<string>, lookup: Lookup): (r: Result<AuthenticatedUser, Failure>)
    ensures !(Truthy(authorization) && StartsWith(Lower(authorization.value), "bearer ")) ==>
              r == Err(Http(401, "Missing bearer token"))
    ensures Truthy(authorization) && StartsWith(Lower(authorization.value), "bearer ") ==>
              var answer := lookup(Strip(authorization.value[7..]));
              if answer.Ok? && answer.value.Some? && IsTruthy(answer.value.value.id) then
                r == Ok(AuthenticatedUser(Str(answer.value.value.id), answer.value.value.email))
              else r == Err(Http(401, "Invalid or expired token"))
  {
    if !Truthy(authorization) || !StartsWith(Lower(authorization.value), "bearer ") then
      Err(Http(401, "Missing bearer token"))
    else
      BearerSpace(authorization.value);
      var token := Strip(AfterFirst(authorization.value, ' ').value);
      match lookup(token)
      case Err(_) => Err(Http(401, "Invalid or expired token"))
      case Ok(userData) =>
        if userData.None? || !IsTruthy(userData.value.id) then
          // the inner HTTPException is caught by the `except Exception` around it
          Err(Http(401, "Invalid or expired token"))
        else Ok(AuthenticatedUser(Str(userData.value.id), userData.value.email))
  }

  /** `<bearer in any case> <rest>` passes the prefix test, and the text after the first space
      is `rest`. */
  lemma BearerHeader(scheme: string, rest: string)
    requires Lower(scheme) == "bearer"
    ensures var h := scheme + " " + rest;
            h != [] && StartsWith(Lower(h), "bearer ") && h[7..] == rest
  {
    var h := scheme + " " + rest;
    var l := Lower(h);
    assert |scheme| == 6;
    forall i | 0 <= i < 7 ensures l[i] == "bearer "[i] {
      if i < 6 {
        assert h[i] == scheme[i];
        assert Lower(scheme)[i] == LowerChar(scheme[i]);
      } else {
        assert h[i] == ' ';
      }
    }
    assert l[..7] == "bearer ";
    assert h[7..] == rest;
  }

  /** Surrounding whitespace of the token is dropped before the lookup, so a padded header
      resolves like the plain one. */
  lemma GetCurrentUserStripsToken(scheme: string, pad: string, token: string, trail: string, lookup: Lookup)
    requires Lower(scheme) == "bearer"
    requires AllSpace(pad) && AllSpace(trail) && token != [] && !IsSpace(token[0]) && !IsSpace(token[|token| - 1])
    ensures GetCurrentUser(Some(scheme + " " + (pad + token + trail)), lookup)
            == GetCurrentUser(Some(scheme + " " + token), lookup)
  {
    BearerHeader(scheme, pad + token + trail);
    BearerHeader(scheme, token);
    StripPadded(pad, token, trail);
    StripTrimmed(token);
  }
}
