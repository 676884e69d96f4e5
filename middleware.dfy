/**
 * The authentication middleware (internal/middleware/auth_middleware.go): the
 * `Authorization: Bearer <token>` header of section 2.1 of RFC 6750, matched
 * case-sensitively, and the user ID it leaves in the request context for the
 * handlers. Token validation and claim extraction are function parameters.
 */
module Middleware {
  import opened Common
  import opened GoStrings
  import opened ObjectIds
  import Http

  const BearerPrefix := "Bearer "

  const HeaderRequired := "authorization header required"
  const InvalidFormat := "invalid authorization header format"
  const InvalidToken := "invalid or expired token"
  const InvalidClaims := "invalid token claims"

  /**
   * AuthMiddleware for one request: `validate` says whether the token string parses
   * and is valid, `extract` gives the user ID in its claims. A Failure is the 401
   * answer with which the chain is aborted; a Success is the value stored as
   * `user_id` before the chain continues.
   */
  function Authenticate(header: string, validate: string -> bool, extract: string -> Option<ObjectId>)
    : (r: Http.Reply<string>)
    ensures r.Failure? ==> r.status == Http.StatusUnauthorized
    ensures header == "" ==> r == Http.Failure(Http.StatusUnauthorized, HeaderRequired)
    ensures header != "" && !HasPrefix(header, BearerPrefix) ==> r == Http.Failure(Http.StatusUnauthorized, InvalidFormat)
    ensures HasPrefix(header, BearerPrefix) ==>
      var token := header[|BearerPrefix|..];
      && (!validate(token) ==> r == Http.Failure(Http.StatusUnauthorized, InvalidToken))
      && (validate(token) && extract(token).None? ==> r == Http.Failure(Http.StatusUnauthorized, InvalidClaims))
      && (r.Success? <==> validate(token) && extract(token).Some?)
      && (r.Success? ==> r.value == Hex(extract(token).value))
  {
    if header == "" then Http.Failure(Http.StatusUnauthorized, HeaderRequired)
    else if !HasPrefix(header, BearerPrefix) then Http.Failure(Http.StatusUnauthorized, InvalidFormat)
    else
      var token := TrimPrefix(header, BearerPrefix);
      if !validate(token) then Http.Failure(Http.StatusUnauthorized, InvalidToken)
      else if extract(token).None? then Http.Failure(Http.StatusUnauthorized, InvalidClaims)
      else Http.Success(Hex(extract(token).value))
  }

  /** The token checked is the header without its single "Bearer " prefix. */
  lemma BearerTokenChecked(t: string, validate: string -> bool, extract: string -> Option<ObjectId>)
    ensures TrimPrefix(BearerPrefix + t, BearerPrefix) == t
    ensures Authenticate(BearerPrefix + t, validate, extract) ==
      if !validate(t) then Http.Failure(Http.StatusUnauthorized, InvalidToken)
      else if extract(t).None? then Http.Failure(Http.StatusUnauthorized, InvalidClaims)
      else Http.Success(Hex(extract(t).value))
  {
    var header := BearerPrefix + t;
    assert header[..|BearerPrefix|] == BearerPrefix;
    assert header[|BearerPrefix|..] == t;
  }

  /** The scheme is matched case-sensitively: a lower-case "bearer " is refused as a
      malformed header before the token is looked at. */
  lemma LowerCaseSchemeRefused(t: string, validate: string -> bool, extract: string -> Option<ObjectId>)
    ensures Authenticate("bearer " + t, validate, extract) == Http.Failure(Http.StatusUnauthorized, InvalidFormat)
  {
    var header := "bearer " + t;
    assert header[0] == 'b' && BearerPrefix[0] == 'B';
  }

  /** What `c.Get("user_id")` finds. */
  datatype ContextValue = Absent | NotString | Str(s: string)

  /** The two results of GetUserIDFromContext. */
  datatype Lookup = Lookup(id: ObjectId, ok: bool)

  /** GetUserIDFromContext: the ID and true, or the nil ID and false when the value is
      missing, not a string or not an ObjectID in hex. */
  function GetUserIdFromContext(v: ContextValue): (r: Lookup)
    ensures r.ok <==> v.Str? && FromHex(v.s).Some?
    ensures !r.ok ==> r.id == NilObjectId
    ensures r.ok ==> r.id == FromHex(v.s).value && Hex(r.id) == ToLower(v.s)
  {
    if !v.Str? || FromHex(v.s).None? then Lookup(NilObjectId, false)
    else
      FromHexCanonical(v.s, FromHex(v.s).value);
      Lookup(FromHex(v.s).value, true)
  }

  /** The ID the middleware stores is the ID the handlers read back: the hex form
      round-trips through the context and through the handlers' own guard. */
  lemma StoredIdReadBack(header: string, validate: string -> bool, extract: string -> Option<ObjectId>,
                         unauthenticated: string, invalid: string)
    requires Authenticate(header, validate, extract).Success?
    ensures var token := header[|BearerPrefix|..];
      var stored := Authenticate(header, validate, extract).value;
      && GetUserIdFromContext(Str(stored)) == Lookup(extract(token).value, true)
      && Http.CallerId(Some(stored), unauthenticated, invalid) == Http.Success(extract(token).value)
  {
    var id := extract(header[|BearerPrefix|..]).value;
    HexRoundTrip(id);
    Http.CallerOfStoredId(id, unauthenticated, invalid);
  }
}
