/** The replies of the gin handlers and middleware: a status code with an error body,
    or status 200 with a value. */
module Http {
  import opened Common
  import opened ObjectIds
  import GoStrings
  const StatusOK := 200
  const StatusBadRequest := 400
  const StatusUnauthorized := 401
  const StatusForbidden := 403
  const StatusNotFound := 404
  const StatusInternalServerError := 500

  /** `c.JSON(status, ErrorResponse{Error: error})`, or `c.JSON(http.StatusOK, value)`. */
  datatype Reply<+T> = Failure(status: int, error: string) | Success(value: T)
  {
    function Status(): int
    {
      if Failure? then status else StatusOK
    }
  }

  /** The guard every handler starts with: `unauthenticated` (401) when the context has
      no `user_id`, `invalid` (400) when it is not an ObjectID in hex, otherwise the
      caller's ID. */
  function CallerId(userIdCtx: Option<string>, unauthenticated: string, invalid: string): (r: Reply<ObjectId>)
    ensures userIdCtx.None? ==> r == Failure(StatusUnauthorized, unauthenticated)
    ensures userIdCtx.Some? && FromHex(userIdCtx.value).None? ==> r == Failure(StatusBadRequest, invalid)
    ensures r.Success? <==> userIdCtx.Some? && FromHex(userIdCtx.value).Some?
    ensures r.Success? ==> Hex(r.value) == GoStrings.ToLower(userIdCtx.value)
  {
    if userIdCtx.None? then Failure(StatusUnauthorized, unauthenticated)
    else match FromHex(userIdCtx.value)
      case None => Failure(StatusBadRequest, invalid)
      case Some(id) =>
        FromHexCanonical(userIdCtx.value, id);
        Success(id)
  }

  /** The ID the middleware stores, `Hex(id)`, is the ID the handlers act for. */
  lemma CallerOfStoredId(id: ObjectId, unauthenticated: string, invalid: string)
    ensures CallerId(Some(Hex(id)), unauthenticated, invalid) == Success(id)
  {
    HexRoundTrip(id);
  }
}
