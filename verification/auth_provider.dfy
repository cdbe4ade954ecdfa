/** The client's AuthProvider: it observes better-auth's reactive session and
    reconciles the persisted client auth store with it. The store itself is
    abstract; the model records which store operations are invoked. */
module AuthProvider {
  import opened Js

  /** The user better-auth reports for a session. */
  datatype SessionUser = SessionUser(id: string, email: string, name: string)

  /** `session.data`: the user, the token of its session record
      (`data.session.token`), and a top-level `data.token` field. */
  datatype SessionData = SessionData(user: SessionUser, sessionToken: Option<string>,
                                     token: Option<string>)

  /** What better-auth's useSession hook reports. */
  datatype SessionState = SessionState(data: Option<SessionData>, isPending: bool)

  /** The store operations the provider invokes. */
  datatype StoreAction =
    | UpdateUser(user: SessionUser)
    | UpdateToken(token: string)
    | Logout
    | SetHasHydrated(value: bool)

  /** The sync effect: with session data, store its user and then its token,
      an absent or empty token stored as "". */
  function SyncEffect(session: SessionState): (r: seq<StoreAction>)
    ensures session.data.None? ==> r == []
    ensures session.data.Some? ==>
      && |r| == 2 && r[0] == UpdateUser(session.data.value.user) && r[1].UpdateToken?
      && (Truthy(session.data.value.sessionToken) ==> r[1].token == session.data.value.sessionToken.value)
      && (!Truthy(session.data.value.sessionToken) ==> r[1].token == "")
  {
    match session.data
    case None => []
    case Some(data) => [UpdateUser(data.user), UpdateToken(OrElse(data.sessionToken, ""))]
  }

  /** The logout effect: once the session has settled without data, a store
      that still holds a user is logged out. */
  function LogoutEffect(session: SessionState, storeUser: Option<SessionUser>): (r: seq<StoreAction>)
    ensures r == [Logout] <==> session.data.None? && !session.isPending && storeUser.Some?
    ensures r != [Logout] ==> r == []
  {
    if session.data.None? && !session.isPending && storeUser.Some? then [Logout] else []
  }

  /** What the provider reacts to: a session observation (with the store's
      current user) or the persist layer finishing hydration. */
  datatype ProviderEvent =
    | SessionObserved(session: SessionState, storeUser: Option<SessionUser>)
    | HydrationFinished

  /** The store operations one event leads to. */
  function OnEvent(ev: ProviderEvent): (r: seq<StoreAction>) {
    match ev
    case SessionObserved(session, storeUser) => SyncEffect(session) + LogoutEffect(session, storeUser)
    case HydrationFinished => [SetHasHydrated(true)]
  }

  /** For one observation, sync and logout never both happen: one needs
      session data, the other its absence. */
  lemma SyncAndLogoutExclusive(session: SessionState, storeUser: Option<SessionUser>)
    ensures SyncEffect(session) == [] || LogoutEffect(session, storeUser) == []
    ensures Logout in OnEvent(SessionObserved(session, storeUser))
            ==> forall u :: UpdateUser(u) !in OnEvent(SessionObserved(session, storeUser))
  {
  }

  /** No logout while the session is pending or when the store holds no user. */
  lemma NoLogoutWhilePendingOrEmpty(session: SessionState, storeUser: Option<SessionUser>)
    requires session.isPending || storeUser.None?
    ensures Logout !in OnEvent(SessionObserved(session, storeUser))
  {
  }

  /** The store's hydration flag is only ever set, and only to true, by the
      persist layer's finish-hydration callback. */
  lemma HydrationFlagOnlyFromPersist(ev: ProviderEvent)
    ensures SetHasHydrated(true) in OnEvent(ev) <==> ev.HydrationFinished?
    ensures SetHasHydrated(false) !in OnEvent(ev)
  {
  }

  /** All store operations of a sequence of events, in order. */
  function Actions(events: seq<ProviderEvent>): (r: seq<StoreAction>) {
    if events == [] then [] else Actions(events[..|events| - 1]) + OnEvent(events[|events| - 1])
  }

  /** The user the store was last told about, if any. */
  function LastUserWritten(actions: seq<StoreAction>): (r: Option<SessionUser>)
    ensures r.Some? ==> UpdateUser(r.value) in actions
  {
    if actions == [] then None
    else if actions[|actions| - 1].UpdateUser? then Some(actions[|actions| - 1].user)
    else LastUserWritten(actions[..|actions| - 1])
  }

  /** Last write wins: after an observation with session data, the user the
      store was last given is that session's user, whatever came before. */
  lemma LatestSessionWins(events: seq<ProviderEvent>, session: SessionState,
                          storeUser: Option<SessionUser>)
    requires session.data.Some?
    ensures LastUserWritten(Actions(events + [SessionObserved(session, storeUser)]))
            == Some(session.data.value.user)
  {
  }

  /** The value the provider hands to its consumers. */
  datatype ContextValue = ContextValue(session: SessionState, isAuthenticated: bool, hasHydrated: bool)

  /** The context value: authenticated exactly when session data is present,
      hydrated exactly when the session is no longer pending. */
  function Context(session: SessionState): (r: ContextValue)
    ensures r.session == session
    ensures r.isAuthenticated <==> session.data.Some?
    ensures r.hasHydrated <==> !session.isPending
  {
    ContextValue(session, session.data.Some?, session.isPending == false)
  }

  const OutsideProvider: string := "useAuth must be used within AuthProvider"

  /** useAuth: the context, or an error when used outside the provider. */
  function UseAuth(context: Option<ContextValue>): (r: Result<ContextValue, string>)
    ensures context.None? <==> r == Err(OutsideProvider)
    ensures context.Some? ==> r == Ok(context.value)
  {
    match context
    case None => Err(OutsideProvider)
    case Some(c) => Ok(c)
  }

  /** Inside the provider, consumers receive exactly the provider's value;
      outside it they get the error and no value. */
  lemma ProviderValueReachesConsumers(session: SessionState)
    ensures UseAuth(Some(Context(session))).Ok?
    ensures var v := UseAuth(Some(Context(session))).value;
            v.session == session && (v.isAuthenticated <==> session.data.Some?)
            && (v.hasHydrated <==> !session.isPending)
    ensures UseAuth(None) == Err(OutsideProvider)
  {
  }
}
