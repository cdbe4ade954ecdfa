/** Server rejections meeting the client's error handler: every way the
    tRPC middleware turns a request away carries the code the client's
    handler recognises, so the client logs out and returns to the login page. */
module RejectionRoundTrip {
  import opened Js
  import AuthMiddleware
  import TrpcAuth

  /** The error the client sees for a rejection: its code and message, with
      the HTTP status left unknown. */
  function ClientErrorOf(code: string, message: string): (r: TrpcAuth.ErrorValue)
    ensures r.ErrorObject? && r.data.Some? && r.data.value.code == Some(code)
    ensures r.data.value.httpStatus.None? && r.message == message
  {
    TrpcAuth.ErrorObject(Some(TrpcAuth.ErrorData(Some(code), None)), message)
  }

  /** Whatever the cookie lookup, header and verifier, a rejected request
      reaches the client as an authentication error: the store is logged
      out, the browser sent to "/login" when there is a window, and the same
      error thrown on. */
  lemma RejectionLogsClientOut(lookup: AuthMiddleware.CookieLookup, header: Option<string>,
                               verifyToken: string -> AuthMiddleware.Verification, hasWindow: bool)
    ensures var o := AuthMiddleware.IsAuthenticated(lookup, header, verifyToken).outcome;
            o.Rejected? ==>
              var e := ClientErrorOf(o.code, o.message);
              var h := TrpcAuth.HandleTRPCAuthError(e, hasWindow);
              && TrpcAuth.IsAuthError(e)
              && h.effects[0] == TrpcAuth.StoreLogout
              && (hasWindow <==> TrpcAuth.AssignLocation(TrpcAuth.LoginHref) in h.effects)
              && h.completion == TrpcAuth.Threw(e)
  {
  }
}
