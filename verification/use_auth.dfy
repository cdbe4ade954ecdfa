/** The client's useAuth hook (hooks/use-auth.ts): bearer headers from the
    stored token, logout-then-navigate, and the mount-time check that logs the
    store out when the session is gone. Navigation and store operations are
    recorded as effects, in order. */
module UseAuthHook {
  import opened Js
  import Http
  import AuthProvider

  /** What the hook does to the outside world. */
  datatype Effect = SignOut | Navigate(path: string) | StoreLogout

  const HomePath: string := "/"
  const LoginPath: string := "/login"

  /** getAuthHeaders: an Authorization bearer header when the store holds a
      non-empty token, otherwise no header at all. */
  function GetAuthHeaders(token: Option<string>): (r: Http.Headers)
    ensures Truthy(token) ==> r.Keys == {"Authorization"}
                              && r["Authorization"] == Http.BearerValue(token.value)
    ensures !Truthy(token) ==> r == map[]
  {
    if Truthy(token) then map["Authorization" := Http.BearerValue(token.value)] else map[]
  }

  datatype LogoutRun = LogoutRun(effects: seq<Effect>, result: Result<(), string>)

  /** handleLogout: sign-out is awaited before navigating, to "/" unless a
      destination is given; a failing sign-out propagates and nothing is
      navigated. */
  function HandleLogout(redirectTo: Option<string>, signOut: Result<(), string>): (r: LogoutRun)
    ensures |r.effects| >= 1 && r.effects[0] == SignOut
    ensures signOut.Ok? ==> r.effects == [SignOut, Navigate(redirectTo.GetOr(HomePath))]
                            && r.result.Ok?
    ensures signOut.Err? ==> r.effects == [SignOut] && r.result == Err(signOut.error)
    ensures redirectTo.None? && signOut.Ok? ==> Navigate(HomePath) in r.effects
  {
    match signOut
    case Ok(_) => LogoutRun([SignOut, Navigate(redirectTo.GetOr(HomePath))], Ok(()))
    case Err(e) => LogoutRun([SignOut], Err(e))
  }

  /** Navigation happens only after a sign-out that succeeded, and then to
      exactly one destination: the one given, or "/". */
  lemma LogoutNavigatesOnlyAfterSignOut(redirectTo: Option<string>, signOut: Result<(), string>)
    ensures var r := HandleLogout(redirectTo, signOut);
            && (forall path :: Navigate(path) in r.effects <==> signOut.Ok? && path == redirectTo.GetOr(HomePath))
            && (forall i :: 0 <= i < |r.effects| && r.effects[i].Navigate? ==> 0 < i)
            && (r.result.Ok? <==> signOut.Ok?)
  {
  }

  /** What calling the context's session getter produced: an answer with or
      without data, a nullish answer, or a throw (including the TypeError of
      calling a member that does not exist). */
  datatype SessionAnswer = Answered(hasData: bool) | Nullish | Threw

  datatype CheckRun = CheckRun(effects: seq<Effect>, rejected: bool)

  /** checkAuth, given what the session call produced: when it yields no
      data while the store says authenticated, the store is logged out and
      the browser sent to "/login"; otherwise nothing happens. */
  function CheckAuth(answer: SessionAnswer, storeAuthenticated: bool): (r: CheckRun)
    ensures r.rejected <==> answer.Threw?
    ensures StoreLogout in r.effects <==> !answer.Threw? && answer != Answered(true) && storeAuthenticated
    ensures StoreLogout in r.effects ==> r.effects == [StoreLogout, Navigate(LoginPath)]
    ensures StoreLogout !in r.effects ==> r.effects == []
  {
    var hasData := match answer
      case Answered(d) => d
      case _ => false;
    if answer.Threw? then CheckRun([], true)
    else if !hasData && storeAuthenticated then CheckRun([StoreLogout, Navigate(LoginPath)], false)
    else CheckRun([], false)
  }

  /** checkAuth as written: it calls `authContext.getSession()`, but the
      provider's context value carries only signIn, signUp, signOut, session,
      isAuthenticated, hasHydrated and refresh, so the call throws a TypeError
      before anything is checked, whatever the store says. */
  function CheckAuthAsWritten(storeAuthenticated: bool): (r: CheckRun)
    ensures r.effects == [] && r.rejected
  {
    CheckAuth(Threw, storeAuthenticated)
  }

  /** The discrepancy: a store that still believes it is authenticated after
      the session is gone is logged out by the intended check, never by the
      check as written. */
  lemma CheckAuthAsWrittenMissesLostSession()
    ensures var context := AuthProvider.Context(AuthProvider.SessionState(None, false));
            && StoreLogout !in CheckAuthAsWritten(true).effects
            && CheckAuth(Answered(context.session.data.Some?), true).effects
               == [StoreLogout, Navigate(LoginPath)]
  {
  }

  /** An object spread of one key: the later object's value wins when it
      has the key, otherwise the earlier one's stays. */
  function Spread<T>(earlier: Option<T>, later: Option<T>): (r: Option<T>)
    ensures later.Some? ==> r == later
    ensures later.None? ==> r == earlier
  {
    if later.Some? then later else earlier
  }

  /** The hook spreads the store first and the context second; both carry
      `isAuthenticated`, so the context's value is the one returned. */
  function HookIsAuthenticated(storeIsAuthenticated: bool, context: AuthProvider.ContextValue): (r: bool)
    ensures r == context.isAuthenticated
  {
    Spread(Some(storeIsAuthenticated), Some(context.isAuthenticated)).GetOr(storeIsAuthenticated)
  }

  lemma HookIsAuthenticatedFollowsSession(storeIsAuthenticated: bool, session: AuthProvider.SessionState)
    ensures HookIsAuthenticated(storeIsAuthenticated, AuthProvider.Context(session)) <==> session.data.Some?
  {
  }
}
