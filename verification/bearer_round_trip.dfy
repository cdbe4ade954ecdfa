/** Round trips between the places that build a bearer `Authorization` header
    and the code that reads one: the client's getAuthHeaders and
    getTRPCAuthHeaders against the tRPC middleware that parses them, and the
    role request to better-auth's admin API against the same bearer parsing.
    The header value is handed to the middleware directly; finding it under
    its lower-cased name is left to the HTTP server. */
module BearerRoundTrip {
  import opened Js
  import Http
  import AuthMiddleware
  import UseAuthHook
  import TrpcAuth
  import BetterAuthService

  /** A header value built by BearerValue passes the middleware's scheme
      check, and the token it extracts is the one put in. */
  lemma BearerValueParses(token: string)
    ensures AuthMiddleware.HasBearerScheme(Some(Http.BearerValue(token)))
    ensures Http.BearerValue(token)[|AuthMiddleware.SchemeLower|..] == token
  {
  }

  /** When the cookie stage fails, a request carrying a bearer header built
      from `token` is decided by verifyToken(token) and nothing else. */
  lemma BearerRequestVerifiesToken(token: string, lookup: AuthMiddleware.CookieLookup,
                                   verifyToken: string -> AuthMiddleware.Verification)
    requires AuthMiddleware.CookieIdentity(lookup).None?
    ensures var run := AuthMiddleware.IsAuthenticated(lookup, Some(Http.BearerValue(token)), verifyToken);
            && run.calls == [AuthMiddleware.GetSession, AuthMiddleware.ReadAuthorizationHeader,
                             AuthMiddleware.VerifyToken(token)]
            && (forall u :: run.outcome == AuthMiddleware.Admitted(u) <==> verifyToken(token) == AuthMiddleware.Verified(u))
  {
  }

  /** The client's getAuthHeaders: a stored non-empty token reaches the
      server's verifier unchanged; an empty one sends no credential at all. */
  lemma ClientHeadersRoundTrip(token: Option<string>, lookup: AuthMiddleware.CookieLookup,
                               verifyToken: string -> AuthMiddleware.Verification)
    requires AuthMiddleware.CookieIdentity(lookup).None?
    ensures Truthy(token) ==>
      var headers := UseAuthHook.GetAuthHeaders(token);
      AuthMiddleware.VerifyToken(token.value)
         in AuthMiddleware.IsAuthenticated(lookup, Some(headers["Authorization"]), verifyToken).calls
    ensures !Truthy(token) ==> UseAuthHook.GetAuthHeaders(token) == map[]
  {
  }

  /** getTRPCAuthHeaders: the token kept in local storage reaches the
      server's verifier unchanged. */
  lemma TrpcHeadersRoundTrip(token: string, lookup: AuthMiddleware.CookieLookup,
                             verifyToken: string -> AuthMiddleware.Verification)
    requires token != "" && AuthMiddleware.CookieIdentity(lookup).None?
    ensures var headers := TrpcAuth.GetTRPCAuthHeaders(Some(token));
            AuthMiddleware.IsAuthenticated(lookup, Some(headers["authorization"]), verifyToken).calls
            == [AuthMiddleware.GetSession, AuthMiddleware.ReadAuthorizationHeader, AuthMiddleware.VerifyToken(token)]
  {
  }

  /** The role request's credential is the configured secret, recoverable
      by the same parsing the middleware applies. */
  lemma RoleRequestCarriesSecret(userId: string, role: string, secret: string)
    ensures var h := BetterAuthService.SetUserRoleRequest(userId, role, secret).headers["Authorization"];
            AuthMiddleware.HasBearerScheme(Some(h)) && h[|AuthMiddleware.SchemeLower|..] == secret
  {
  }
}
