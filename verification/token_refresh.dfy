/** useTokenRefresh: a once-only token refresh guarded by a flag that lives
    across calls. The flag is raised before the refresh is awaited, lowered
    again when the refresh sequence fails, and reset when the user is no
    longer authenticated. */
module TokenRefresh {

  /** What one call of refreshToken sees: the context's flags, and whether the
      awaited refresh resolves. */
  datatype Env = Env(isAuthenticated: bool, hasHydrated: bool, refreshSucceeds: bool)

  /** One step of a call, in order. `CallSetUserInfo` is a no-op hook. */
  datatype Step = SetFlag(value: bool) | CallRefresh | CallSetUserInfo | Reload

  /** The flag after the call and the steps it took. */
  datatype Invocation = Invocation(flag: bool, steps: seq<Step>)

  /** refreshToken. */
  function RefreshToken(flag: bool, env: Env): (r: Invocation)
    ensures !env.isAuthenticated ==> r == Invocation(false, [SetFlag(false)])
    ensures CallRefresh in r.steps <==> env.hasHydrated && env.isAuthenticated && !flag
    ensures CallRefresh in r.steps ==> |r.steps| >= 2 && r.steps[0] == SetFlag(true) && r.steps[1] == CallRefresh
    ensures CallRefresh in r.steps && env.refreshSucceeds ==>
      r == Invocation(true, [SetFlag(true), CallRefresh, CallSetUserInfo, Reload])
    ensures CallRefresh in r.steps && !env.refreshSucceeds ==>
      r == Invocation(false, [SetFlag(true), CallRefresh, SetFlag(false)])
    ensures env.isAuthenticated && (!env.hasHydrated || flag) ==> r == Invocation(flag, [])
  {
    if !env.isAuthenticated then
      Invocation(false, [SetFlag(false)])
    else if env.hasHydrated && env.isAuthenticated && !flag then
      if env.refreshSucceeds then Invocation(true, [SetFlag(true), CallRefresh, CallSetUserInfo, Reload])
      else Invocation(false, [SetFlag(true), CallRefresh, SetFlag(false)])
    else
      Invocation(flag, [])
  }

  /** The flag after a series of calls. */
  function FlagAfter(flag: bool, envs: seq<Env>): (r: bool)
    decreases |envs|
  {
    if envs == [] then flag else FlagAfter(RefreshToken(flag, envs[0]).flag, envs[1..])
  }

  /** How many times a series of calls invokes refresh. */
  function RefreshCount(flag: bool, envs: seq<Env>): (r: nat)
    decreases |envs|
  {
    if envs == [] then 0
    else
      var call := RefreshToken(flag, envs[0]);
      (if CallRefresh in call.steps then 1 else 0) + RefreshCount(call.flag, envs[1..])
  }

  /** While the user stays authenticated, a raised flag stays raised and no
      further call refreshes. */
  lemma {:induction false} RaisedFlagBlocksRefresh(envs: seq<Env>)
    requires forall i :: 0 <= i < |envs| ==> envs[i].isAuthenticated
    ensures RefreshCount(true, envs) == 0
    ensures FlagAfter(true, envs)
    decreases |envs|
  {
    if envs != [] {
      RaisedFlagBlocksRefresh(envs[1..]);
    }
  }

  /** While the user stays authenticated and refreshes succeed, refresh runs
      at most once over any series of calls, and not at all once the flag is up. */
  lemma {:induction false} RefreshAtMostOnce(flag: bool, envs: seq<Env>)
    requires forall i :: 0 <= i < |envs| ==> envs[i].isAuthenticated && envs[i].refreshSucceeds
    ensures RefreshCount(flag, envs) <= 1
    ensures flag ==> RefreshCount(flag, envs) == 0
    decreases |envs|
  {
    if envs != [] {
      var call := RefreshToken(flag, envs[0]);
      if CallRefresh in call.steps {
        RaisedFlagBlocksRefresh(envs[1..]);
      } else {
        RefreshAtMostOnce(call.flag, envs[1..]);
      }
    }
  }

  /** A failed refresh lowers the flag, so the next hydrated, authenticated
      call tries again. */
  lemma FailureAllowsRetry(flag: bool, failing: Env, next: Env)
    requires failing.isAuthenticated && failing.hasHydrated && !flag && !failing.refreshSucceeds
    requires next.isAuthenticated && next.hasHydrated
    ensures CallRefresh in RefreshToken(RefreshToken(flag, failing).flag, next).steps
  {
  }

  /** Logging out resets the flag, so after signing in again refresh runs once more. */
  lemma LogoutResetsFlag(flag: bool, loggedOut: Env, next: Env)
    requires !loggedOut.isAuthenticated
    requires next.isAuthenticated && next.hasHydrated
    ensures CallRefresh in RefreshToken(RefreshToken(flag, loggedOut).flag, next).steps
  {
  }

  /** The page's side of refreshToken when calls overlap: the flag, how many
      refreshes are awaiting their outcome, and whether the page has
      reloaded (after which nothing on it runs again). */
  datatype Page = Page(flag: bool, inFlight: nat, reloaded: bool)

  /** What happens on the page: a call runs up to its `await refresh()`, or
      the oldest pending refresh settles. */
  datatype Event = Call(env: Env) | Settle(succeeds: bool)

  /** The part of a call before the await: the flag is checked and raised in
      one synchronous step, so no other call can slip in between. */
  function Begin(p: Page, env: Env): (r: (Page, seq<Step>))
    ensures !env.isAuthenticated ==> r == (p.(flag := false), [SetFlag(false)])
    ensures CallRefresh in r.1 <==> env.hasHydrated && env.isAuthenticated && !p.flag
    ensures CallRefresh in r.1 ==>
      r == (p.(flag := true, inFlight := p.inFlight + 1), [SetFlag(true), CallRefresh])
    ensures env.isAuthenticated && (!env.hasHydrated || p.flag) ==> r == (p, [])
  {
    if !env.isAuthenticated then
      (p.(flag := false), [SetFlag(false)])
    else if env.hasHydrated && env.isAuthenticated && !p.flag then
      (p.(flag := true, inFlight := p.inFlight + 1), [SetFlag(true), CallRefresh])
    else
      (p, [])
  }

  /** The part of a call after the await: a resolved refresh updates the user
      info and reloads the page, a rejected one lowers the flag. */
  function Finish(p: Page, succeeds: bool): (r: (Page, seq<Step>))
    requires p.inFlight > 0
    ensures r.0.inFlight == p.inFlight - 1
    ensures succeeds ==> r.0.reloaded && r.0.flag == p.flag && r.1 == [CallSetUserInfo, Reload]
    ensures !succeeds ==> !r.0.flag && r.0.reloaded == p.reloaded && r.1 == [SetFlag(false)]
  {
    if succeeds then (p.(inFlight := p.inFlight - 1, reloaded := true), [CallSetUserInfo, Reload])
    else (p.(flag := false, inFlight := p.inFlight - 1), [SetFlag(false)])
  }

  /** One event on the page. */
  function Apply(p: Page, e: Event): (r: Page) {
    if p.reloaded then p
    else
      match e
      case Call(env) => Begin(p, env).0
      case Settle(succeeds) => if p.inFlight > 0 then Finish(p, succeeds).0 else p
  }

  /** The page after a series of events. */
  function After(p: Page, events: seq<Event>): (r: Page)
    decreases |events|
  {
    if events == [] then p else After(Apply(p, events[0]), events[1..])
  }

  /** A call that never awaits in between behaves as the one-step model. */
  lemma RefreshTokenIsBeginThenFinish(flag: bool, env: Env)
    ensures var p := Page(flag, 0, false);
            var (p1, s1) := Begin(p, env);
            var whole := RefreshToken(flag, env);
            if CallRefresh in s1 then
              var (p2, s2) := Finish(p1, env.refreshSucceeds);
              s1 + s2 == whole.steps && p2.flag == whole.flag && p2.inFlight == 0
            else
              s1 == whole.steps && p1.flag == whole.flag && p1.inFlight == 0
  {
  }

  /** At most one refresh is awaited at a time, and while one is, the flag
      is up. */
  predicate AtMostOneInFlight(p: Page) {
    p.inFlight <= 1 && (p.inFlight == 1 ==> p.flag)
  }

  /** While the user stays authenticated, calls that arrive while a refresh
      is being awaited are turned away: however calls and outcomes
      interleave, no two refreshes are ever awaited together. */
  lemma {:induction false} NoOverlappingRefresh(p: Page, events: seq<Event>)
    requires AtMostOneInFlight(p)
    requires forall i :: 0 <= i < |events| && events[i].Call? ==> events[i].env.isAuthenticated
    ensures AtMostOneInFlight(After(p, events))
    decreases |events|
  {
    if events != [] {
      assert AtMostOneInFlight(Apply(p, events[0]));
      NoOverlappingRefresh(Apply(p, events[0]), events[1..]);
    }
  }

  /** Logging out while a refresh is awaited lowers the flag, so a call after
      signing in again starts a second refresh alongside the first. */
  lemma LogoutDuringRefreshAllowsOverlap()
    ensures var signedIn := Env(true, true, true);
            var signedOut := Env(false, true, true);
            After(Page(false, 0, false), [Call(signedIn), Call(signedOut), Call(signedIn)]).inFlight == 2
  {
    var signedIn := Env(true, true, true);
    var signedOut := Env(false, true, true);
    var events := [Call(signedIn), Call(signedOut), Call(signedIn)];
    assert Apply(Page(false, 0, false), events[0]) == Page(true, 1, false);
    assert Apply(Page(true, 1, false), events[1]) == Page(false, 1, false);
    assert Apply(Page(false, 1, false), events[2]) == Page(true, 2, false);
    assert After(Page(true, 2, false), []) == Page(true, 2, false);
    assert After(Page(false, 1, false), events[2..]) == Page(true, 2, false);
    assert After(Page(true, 1, false), events[1..]) == Page(true, 2, false);
  }
}
