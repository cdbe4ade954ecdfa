/** The tRPC `isAuthenticated` middleware of the HTTP server: a two-stage,
    first-match-wins resolution of a request's identity. Stage one asks
    better-auth for the session behind the request's cookies; stage two falls
    back to an `Authorization: Bearer <token>` header checked by the JWT
    service. The outcome of each external call is an input, and a run records
    which calls were made, in order. */
module AuthMiddleware {
  import opened Js
  import Http

  /** The identity attached to an admitted request. */
  datatype Identity = Identity(id: string, email: string, roles: seq<string>)

  /** A better-auth user, with its optional custom `roles` field. */
  datatype SessionUser = SessionUser(id: string, email: string, roles: Option<seq<string>>)

  /** What the cookie session lookup did. */
  datatype CookieLookup =
    | NoSession                           // resolved to null
    | Session(user: Option<SessionUser>)  // resolved to a session, with or without a user
    | LookupThrew                         // threw or rejected

  /** What `jwtService.verifyToken` did: returned a user, returned a falsy
      value, or threw. */
  datatype Verification = Verified(payload: Identity) | Falsy | VerifyThrew

  /** An error thrown inside the token-verification block. */
  datatype Thrown = TrpcError(code: string, message: string) | Foreign

  /** An external call made by the middleware. */
  datatype Call = GetSession | ReadAuthorizationHeader | VerifyToken(token: string)

  /** The middleware either passes the request on with a user attached, or
      throws a tRPC error. */
  datatype Outcome = Admitted(user: Identity) | Rejected(code: string, message: string)

  datatype Run = Run(outcome: Outcome, calls: seq<Call>)

  const Unauthorized: string := "UNAUTHORIZED"
  const DefaultRole: string := "user"
  const NoValidAuthentication: string := "No valid authentication found"
  const InvalidToken: string := "Invalid token"
  const InvalidOrExpired: string := "Invalid or expired token"
  /** The lower-cased scheme the header must start with. */
  const SchemeLower: string := "bearer "

  /** The roles of a session user: an absent roles field defaults to the single role
      "user"; a present one, even empty, is kept. */
  function RolesOrDefault(roles: Option<seq<string>>): (r: seq<string>)
    ensures roles.Some? ==> r == roles.value
    ensures roles.None? ==> r == [DefaultRole]
  {
    roles.GetOr([DefaultRole])
  }

  /** The identity stage one admits with, if the lookup produced a user. */
  function CookieIdentity(lookup: CookieLookup): (r: Option<Identity>)
    ensures r.Some? <==> lookup.Session? && lookup.user.Some?
    ensures r.Some? ==>
      var u := lookup.user.value;
      r.value == Identity(u.id, u.email, RolesOrDefault(u.roles))
  {
    match lookup
    case Session(Some(u)) => Some(Identity(u.id, u.email, RolesOrDefault(u.roles)))
    case _ => None
  }

  /** The header passes the guard: it is present, non-empty, and its
      lower-cased form starts with "bearer ". */
  predicate HasBearerScheme(header: Option<string>) {
    Truthy(header) && StartsWith(Lower(header.value), SchemeLower)
  }

  /** The token of a bearer header: the header without its seven-character
      scheme prefix. */
  function TokenOf(header: string): (r: string)
    requires StartsWith(Lower(header), SchemeLower)
    ensures header == header[..|SchemeLower|] + r
  {
    header[|SchemeLower|..]
  }

  /** The try block around `verifyToken`: the user, or what it throws; a
      falsy user is turned into an "Invalid token" tRPC error. */
  function VerifyBlock(v: Verification): (r: Result<Identity, Thrown>)
    ensures r.Ok? <==> v.Verified?
    ensures r.Ok? ==> r.value == v.payload
    ensures v.Falsy? ==> r == Err(TrpcError(Unauthorized, InvalidToken))
    ensures v.VerifyThrew? ==> r == Err(Foreign)
  {
    match v
    case Verified(u) => Ok(u)
    case Falsy => Err(TrpcError(Unauthorized, InvalidToken))
    case VerifyThrew => Err(Foreign)
  }

  /** Stage two: the bearer-token fallback. Whatever the verification block
      throws is caught and replaced by one "Invalid or expired token" error. */
  function BearerFallback(header: Option<string>, verifyToken: string -> Verification): (r: Run)
    ensures |r.calls| >= 1 && r.calls[0] == ReadAuthorizationHeader
    ensures !HasBearerScheme(header) ==>
      r == Run(Rejected(Unauthorized, NoValidAuthentication), [ReadAuthorizationHeader])
    ensures HasBearerScheme(header) ==>
      r.calls == [ReadAuthorizationHeader, VerifyToken(header.value[|SchemeLower|..])]
    ensures HasBearerScheme(header) ==>
      match verifyToken(header.value[|SchemeLower|..])
      case Verified(u) => r.outcome == Admitted(u)
      case _ => r.outcome == Rejected(Unauthorized, InvalidOrExpired)
  {
    if !HasBearerScheme(header) then
      Run(Rejected(Unauthorized, NoValidAuthentication), [ReadAuthorizationHeader])
    else
      var token := TokenOf(header.value);
      var calls := [ReadAuthorizationHeader, VerifyToken(token)];
      match VerifyBlock(verifyToken(token))
      case Ok(u) => Run(Admitted(u), calls)
      case Err(_) => Run(Rejected(Unauthorized, InvalidOrExpired), calls)
  }

  /** The middleware: the cookie session first; the bearer fallback only when
      the lookup threw, found no session, or found a session without a user. */
  function IsAuthenticated(lookup: CookieLookup, header: Option<string>,
                           verifyToken: string -> Verification): (r: Run)
    ensures |r.calls| >= 1 && r.calls[0] == GetSession
    // a cookie user is admitted after the session lookup alone
    ensures CookieIdentity(lookup).Some? ==> r == Run(Admitted(CookieIdentity(lookup).value), [GetSession])
    // the Authorization header is consulted exactly when stage one fails
    ensures ReadAuthorizationHeader in r.calls <==> CookieIdentity(lookup).None?
    // no path admits without a user from the cookie or from verifyToken
    ensures r.outcome.Admitted? ==>
      CookieIdentity(lookup) == Some(r.outcome.user)
      || (HasBearerScheme(header)
          && verifyToken(header.value[|SchemeLower|..]) == Verified(r.outcome.user))
    // every rejection is UNAUTHORIZED with one of the two messages
    ensures r.outcome.Rejected? ==>
      r.outcome.code == Unauthorized
      && (r.outcome.message == NoValidAuthentication || r.outcome.message == InvalidOrExpired)
  {
    match CookieIdentity(lookup)
    case Some(user) => Run(Admitted(user), [GetSession])
    case None =>
      var fallback := BearerFallback(header, verifyToken);
      Run(fallback.outcome, [GetSession] + fallback.calls)
  }

  /** A session with a user admits that user's id and email, and the
      Authorization header is never read. */
  lemma CookieSessionWins(u: SessionUser, header: Option<string>, verifyToken: string -> Verification)
    ensures IsAuthenticated(Session(Some(u)), header, verifyToken)
            == Run(Admitted(Identity(u.id, u.email, RolesOrDefault(u.roles))), [GetSession])
  {
  }

  /** A lookup that throws, one that finds no session, and one that finds a
      session without a user all lead to the same bearer fallback. */
  lemma CookieFailuresFallThrough(header: Option<string>, verifyToken: string -> Verification)
    ensures IsAuthenticated(LookupThrew, header, verifyToken)
            == IsAuthenticated(NoSession, header, verifyToken)
            == IsAuthenticated(Session(None), header, verifyToken)
            == Run(BearerFallback(header, verifyToken).outcome,
                   [GetSession] + BearerFallback(header, verifyToken).calls)
  {
  }

  /** Without a usable header the request is rejected before any token
      verification takes place. */
  lemma MissingHeaderRejected(lookup: CookieLookup, header: Option<string>,
                              verifyToken: string -> Verification)
    requires CookieIdentity(lookup).None?
    requires header.None? || !StartsWith(Lower(header.value), SchemeLower)
    ensures IsAuthenticated(lookup, header, verifyToken).outcome
            == Rejected(Unauthorized, NoValidAuthentication)
    ensures forall t :: VerifyToken(t) !in IsAuthenticated(lookup, header, verifyToken).calls
  {
  }

  /** The scheme is matched without regard to case: any spelling of "Bearer "
      hands the same token to verifyToken and leads to the same run. */
  lemma SchemeCaseInsensitive(lookup: CookieLookup, scheme: string, token: string,
                              verifyToken: string -> Verification)
    requires Lower(scheme) == SchemeLower
    requires CookieIdentity(lookup).None?
    ensures IsAuthenticated(lookup, Some(scheme + token), verifyToken)
            == IsAuthenticated(lookup, Some(Http.BearerValue(token)), verifyToken)
    ensures IsAuthenticated(lookup, Some(scheme + token), verifyToken).calls
            == [GetSession, ReadAuthorizationHeader, VerifyToken(token)]
  {
  }

  /** A falsy verification result and a throwing verification both end in
      "Invalid or expired token": the inner "Invalid token" error is replaced. */
  lemma FailedVerificationRejected(lookup: CookieLookup, header: Option<string>,
                                   verifyToken: string -> Verification)
    requires CookieIdentity(lookup).None? && HasBearerScheme(header)
    requires !verifyToken(header.value[|SchemeLower|..]).Verified?
    ensures IsAuthenticated(lookup, header, verifyToken).outcome
            == Rejected(Unauthorized, InvalidOrExpired)
  {
  }

  // ---------------------------------------------------------------------
  // Reference definition: an ordered chain of strategies, each of which
  // admits, rejects, or does not apply; the first decisive one wins.

  datatype Verdict = Admit(user: Identity) | NotApplicable | Reject(message: string)

  /** The cookie strategy never rejects: every failure is "not applicable". */
  function CookieStrategy(lookup: CookieLookup): (r: Verdict) {
    match CookieIdentity(lookup)
    case Some(u) => Admit(u)
    case None => NotApplicable
  }

  /** The bearer strategy always decides. */
  function BearerStrategy(header: Option<string>, verifyToken: string -> Verification): (r: Verdict) {
    if !HasBearerScheme(header) then Reject(NoValidAuthentication)
    else if verifyToken(header.value[|SchemeLower|..]).Verified? then
      Admit(verifyToken(header.value[|SchemeLower|..]).payload)
    else Reject(InvalidOrExpired)
  }

  /** The verdict of the first strategy that applies, or NotApplicable. */
  function FirstDecisive(verdicts: seq<Verdict>): (r: Verdict)
    ensures r.NotApplicable? <==> forall i :: 0 <= i < |verdicts| ==> verdicts[i].NotApplicable?
    ensures !r.NotApplicable? ==>
      exists k :: 0 <= k < |verdicts| && verdicts[k] == r
                  && forall i :: 0 <= i < k ==> verdicts[i].NotApplicable?
  {
    if |verdicts| == 0 then NotApplicable
    else if verdicts[0].NotApplicable? then
      var r := FirstDecisive(verdicts[1..]);
      assert forall i :: 1 <= i < |verdicts| ==> verdicts[i] == verdicts[1..][i - 1];
      if r.NotApplicable? then r
      else
        var k :| 0 <= k < |verdicts[1..]| && verdicts[1..][k] == r
                 && forall i :: 0 <= i < k ==> verdicts[1..][i].NotApplicable?;
        assert verdicts[k + 1] == r;
        r
    else verdicts[0]
  }

  /** The middleware is the chain [cookie, bearer]: it admits exactly the
      user the chain admits and rejects with exactly the chain's message. */
  lemma MiddlewareIsStrategyChain(lookup: CookieLookup, header: Option<string>,
                                  verifyToken: string -> Verification)
    ensures var v := FirstDecisive([CookieStrategy(lookup), BearerStrategy(header, verifyToken)]);
            var o := IsAuthenticated(lookup, header, verifyToken).outcome;
            (forall u :: v == Admit(u) <==> o == Admitted(u))
            && (forall m :: v == Reject(m) <==> o == Rejected(Unauthorized, m))
  {
  }
}
