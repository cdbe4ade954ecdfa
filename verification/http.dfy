/** HTTP request headers as the authentication code builds and reads them. */
module Http {

  /** A header set: header name to value. */
  type Headers = map<string, string>

  /** The scheme prefix of a bearer credential, trailing space included. */
  const BearerPrefix: string := "Bearer "

  /** The value of an `Authorization` header that carries `token`. */
  function BearerValue(token: string): (r: string)
    ensures |r| == |BearerPrefix| + |token|
    ensures r[..|BearerPrefix|] == BearerPrefix && r[|BearerPrefix|..] == token
  {
    BearerPrefix + token
  }
}
