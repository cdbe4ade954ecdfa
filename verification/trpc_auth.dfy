/** The client's tRPC auth helpers: a bearer header from the token kept in
    local storage, and the handler that logs out and redirects on an
    authentication error before rethrowing it. */
module TrpcAuth {
  import opened Js
  import Http

  /** `error.data` of a tRPC client error. */
  datatype ErrorData = ErrorData(code: Option<string>, httpStatus: Option<int>)

  /** A thrown value: null/undefined, or an object with an optional `data`. */
  datatype ErrorValue = Nullish | ErrorObject(data: Option<ErrorData>, message: string)

  /** What the handler does to the outside world. */
  datatype Effect = StoreLogout | AssignLocation(href: string)

  /** How a call ends: returning normally, or throwing a value. */
  datatype Completion = Returned | Threw(error: ErrorValue)

  datatype Handled = Handled(effects: seq<Effect>, completion: Completion)

  const LoginHref: string := "/login"

  /** getTRPCAuthHeaders: a lower-case `authorization` bearer header when local
      storage holds a non-empty `bearer_token`, otherwise no header. */
  function GetTRPCAuthHeaders(storedToken: Option<string>): (r: Http.Headers)
    ensures Truthy(storedToken) ==> r.Keys == {"authorization"}
                                    && r["authorization"] == Http.BearerValue(storedToken.value)
    ensures !Truthy(storedToken) ==> r == map[]
  {
    if Truthy(storedToken) then map["authorization" := Http.BearerValue(storedToken.value)] else map[]
  }

  /** An authentication error: a thrown object whose data carries the code
      "UNAUTHORIZED" or the HTTP status 401. */
  predicate IsAuthError(error: ErrorValue) {
    error.ErrorObject? && error.data.Some?
    && (error.data.value.code == Some("UNAUTHORIZED") || error.data.value.httpStatus == Some(401))
  }

  /** handleTRPCAuthError: on an authentication error the store is logged out
      and, when a window exists, the browser sent to "/login"; in every case
      the same error is thrown again. */
  function HandleTRPCAuthError(error: ErrorValue, hasWindow: bool): (r: Handled)
    ensures r.completion == Threw(error)
    ensures StoreLogout in r.effects <==> IsAuthError(error)
    ensures AssignLocation(LoginHref) in r.effects <==> IsAuthError(error) && hasWindow
    ensures !IsAuthError(error) ==> r.effects == []
    ensures IsAuthError(error) ==> r.effects[0] == StoreLogout
    ensures IsAuthError(error) && hasWindow ==> r.effects == [StoreLogout, AssignLocation(LoginHref)]
    ensures IsAuthError(error) && !hasWindow ==> r.effects == [StoreLogout]
    ensures forall h :: AssignLocation(h) in r.effects ==> h == LoginHref
  {
    var effects :=
      if IsAuthError(error) then [StoreLogout] + (if hasWindow then [AssignLocation(LoginHref)] else [])
      else [];
    Handled(effects, Threw(error))
  }
}
