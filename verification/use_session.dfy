/** useSession: the session state from the auth context, projected to the
    fields components read. */
module UseSession {
  import opened Js
  import AuthProvider

  datatype SessionView = SessionView(user: Option<AuthProvider.SessionUser>, token: Option<string>,
                                     isLoading: bool, isAuthenticated: bool,
                                     session: Option<AuthProvider.SessionData>)

  /** A token field with an empty or absent token read as null. */
  function TokenOrNull(token: Option<string>): (r: Option<string>)
    ensures r.Some? <==> Truthy(token)
    ensures r.Some? ==> r == token
  {
    if Truthy(token) then token else None
  }

  /** useSession as written: the token is read from the top level of the
      session data. */
  function UseSession(context: AuthProvider.ContextValue): (r: SessionView)
    ensures r.isAuthenticated <==> context.session.data.Some?
    ensures r.session == context.session.data
    ensures r.isLoading <==> context.session.isPending
    ensures context.session.data.None? ==> r.user.None? && r.token.None?
    ensures context.session.data.Some? ==>
      r.user == Some(context.session.data.value.user)
      && (r.token.Some? <==> Truthy(context.session.data.value.token))
      && (r.token.Some? ==> r.token == context.session.data.value.token)
  {
    var data := context.session.data;
    SessionView(
      if data.Some? then Some(data.value.user) else None,
      if data.Some? then TokenOrNull(data.value.token) else None,
      context.session.isPending || false,
      data.Some?,
      data)
  }

  /** The projection agrees with the context it reads: authenticated exactly
      when the context is, loading exactly while the context is not hydrated. */
  lemma ViewAgreesWithContext(session: AuthProvider.SessionState)
    ensures var context := AuthProvider.Context(session);
            var view := UseSession(context);
            (view.isAuthenticated <==> context.isAuthenticated)
            && (view.isLoading <==> !context.hasHydrated)
            && (view.user.Some? <==> context.isAuthenticated)
  {
  }

  /** The discrepancy: a session whose record carries a token, with no
      top-level token field, shows no token, though the provider stores it. */
  lemma TopLevelTokenMissesSessionToken(user: AuthProvider.SessionUser, token: string)
    requires token != ""
    ensures var session := AuthProvider.SessionState(Some(AuthProvider.SessionData(user, Some(token), None)), false);
            && UseSession(AuthProvider.Context(session)).token.None?
            && AuthProvider.SyncEffect(session)[1] == AuthProvider.UpdateToken(token)
  {
  }

  /** useSession reading the token where the provider reads it, from the
      session record. */
  function UseSessionIntended(context: AuthProvider.ContextValue): (r: SessionView)
    ensures r == UseSession(context).(token := r.token)
    ensures context.session.data.None? ==> r.token.None?
    ensures context.session.data.Some? ==>
      (r.token.Some? <==> Truthy(context.session.data.value.sessionToken))
  {
    var data := context.session.data;
    UseSession(context).(token := if data.Some? then TokenOrNull(data.value.sessionToken) else None)
  }

  /** With the intended projection the token shown is the token the provider
      hands to the store, whenever that token is non-empty. */
  lemma IntendedTokenMatchesStore(session: AuthProvider.SessionState)
    requires session.data.Some?
    ensures var view := UseSessionIntended(AuthProvider.Context(session));
            var stored := AuthProvider.SyncEffect(session)[1].token;
            (view.token.Some? <==> stored != "") && (view.token.Some? ==> view.token.value == stored)
  {
  }
}
