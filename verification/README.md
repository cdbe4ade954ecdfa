# Authentication decision procedures of the Next.js/tRPC starter, in Dafny

This project models the authentication and authorization logic of a Next.js +
tRPC starter application, minus its glue to better-auth, the ORM and React:

- the server's tRPC `isAuthenticated` middleware. It first tries a cookie
  session. It falls back to an `Authorization: Bearer` header only when that
  fails, and every path ends in admission with a user or in `UNAUTHORIZED`;
- the role/audit service. The default role is "user" and `isAdmin` is derived
  from the role. `setUserRole` appends a role record and a
  `user_role_created` system event. `getAdminUsers` projects records;
- the server's user service and better-auth wrapper: `createUser`,
  `upsertUserFromOAuth`, the forwarding accessors, `ensureUser`,
  `verifyPassword` and the role request;
- the client side:
  - the AuthProvider's session-to-store reconciliation;
  - the useAuth hook's headers, logout and mount check;
  - the once-only token refresh;
  - the tRPC header and error helpers;
  - the login hook;
  - the AuthLink redirect;
  - the useSession projection.

Every call into code outside the repository is an input that stands for its
outcome. This covers better-auth's `getSession`, `signUpEmail`, `signInEmail`
and `setRole`, the `authClient` calls, `jwtService.verifyToken`, role and user
storage, `router.push`, local storage and URL encoding. Operations return the
calls or effects they perform, in order. That is how properties such as "the
Authorization header is never read" or "refresh is called at most once" are
stated. Modules follow the source files. `Js` holds JavaScript value semantics:
truthiness of strings, how a template renders `undefined`, `trim`'s white space
and ASCII lower-casing. `Http` defines the bearer header value once.
`BearerRoundTrip` checks the client's two bearer headers against the tRPC
middleware that parses them. It also checks that the role request to
better-auth's admin API, which never passes through that middleware, carries
the secret in the same bearer form. `RejectionRoundTrip` feeds every rejection
of the middleware to the client's tRPC error handler.

Where descriptions of the system and the code disagree, the model follows the code:

- The bearer fallback runs not only when the cookie lookup throws. It also runs
  when the lookup finds no session, or a session without a user.
- The provider's logout is gated on the session no longer pending
  (`isPending === false`), not on the store's hydration flag.
- `setUserRole` always inserts a new record. It never looks for an existing one.
- Sign-out does not clear local state unconditionally. The hook's
  `handleLogout` only awaits the context's `signOut` and then navigates. It
  never clears the store itself, and a rejected `signOut` propagates with
  nothing cleared and no navigation.

## Model

| member | source | states |
|---|---|---|
| AuthMiddleware.IsAuthenticated | apps/http-server/src/trpc/middleware/auth.middleware.ts:6-68 | the session lookup is always the first call; a cookie user is admitted after that call alone; the Authorization header is read exactly when the cookie stage yields no user; every admission carries the cookie user or verifyToken's result; every rejection is UNAUTHORIZED with one of the two messages |
| AuthMiddleware.CookieIdentity | apps/http-server/src/trpc/middleware/auth.middleware.ts:13-23 | a user is obtained exactly when the lookup returned a session with a user, with that user's id and email and its roles defaulted |
| AuthMiddleware.RolesOrDefault | apps/http-server/src/trpc/middleware/auth.middleware.ts:22 | absent roles become exactly ["user"]; present roles, even an empty list, are kept |
| AuthMiddleware.TokenOf | apps/http-server/src/trpc/middleware/auth.middleware.ts:46 | the token is the header with its first 7 characters (the scheme) removed: scheme prefix plus token gives back the header |
| AuthMiddleware.VerifyBlock | apps/http-server/src/trpc/middleware/auth.middleware.ts:48-53 | the block yields a user exactly when verifyToken returned one; a falsy result becomes a thrown UNAUTHORIZED "Invalid token" error, and a throw from verifyToken passes through |
| AuthMiddleware.BearerFallback | apps/http-server/src/trpc/middleware/auth.middleware.ts:36-67 | a missing or non-"bearer " header is rejected "No valid authentication found" without verification; otherwise verifyToken is called once with the header minus 7 characters, and any failure becomes "Invalid or expired token" |
| AuthMiddleware.CookieSessionWins | apps/http-server/src/trpc/middleware/auth.middleware.ts:8-31 | a session with a user admits id, email and defaulted roles after one call, without reading the Authorization header |
| AuthMiddleware.CookieFailuresFallThrough | apps/http-server/src/trpc/middleware/auth.middleware.ts:8-34 | a throwing lookup, a null session and a session without user give identical runs, all through the bearer fallback |
| AuthMiddleware.MissingHeaderRejected | apps/http-server/src/trpc/middleware/auth.middleware.ts:37-44 | with no usable header the request is rejected "No valid authentication found" and verifyToken is never called |
| AuthMiddleware.SchemeCaseInsensitive | apps/http-server/src/trpc/middleware/auth.middleware.ts:39-46 | any casing of "Bearer " behaves exactly like "Bearer " and passes the remaining characters to verifyToken |
| AuthMiddleware.FailedVerificationRejected | apps/http-server/src/trpc/middleware/auth.middleware.ts:49-67 | a falsy or throwing verification ends in "Invalid or expired token", the inner "Invalid token" replaced |
| AuthMiddleware.MiddlewareIsStrategyChain | apps/http-server/src/trpc/middleware/auth.middleware.ts:6-68 | the middleware equals an ordered chain of a never-rejecting cookie strategy and an always-deciding bearer strategy, first decisive verdict wins, in both directions |
| UserRoleService.GetUserRole | packages/api/src/services/user-role/user-role.service.ts:27-36 | a throwing lookup propagates its error; no record gives "user"; otherwise the role of the record storage handed back, which is one of the user's stored records |
| UserRoleService.IsAdmin | packages/api/src/services/user-role/user-role.service.ts:68-71 | a throwing lookup propagates; otherwise true exactly when getUserRole is "admin", and then some stored record of the user says "admin" |
| UserRoleService.UnknownUserIsNotAdmin | packages/api/src/services/user-role/user-role.service.ts:27-33 | a user with no record has role "user" and is not an admin |
| UserRoleService.ActorOf | packages/api/src/services/user-role/user-role.service.ts:58 | the actor is the supplied actorId when it is a non-empty string, else the user |
| UserRoleService.SetUserRole | packages/api/src/services/user-role/user-role.service.ts:42-63 | succeeds exactly when insert and event write succeed; always appends one record without consulting existing ones; on success appends exactly one user_role_created event with the user, the returned role id, {role}, the defaulted actor and "User role set to " + role; a failing insert changes nothing and a failing event write keeps the record |
| UserRoleService.SetUserRoleAppendsOnly | packages/api/src/services/user-role/user-role.service.ts:47-62 | records and events only grow, by at most one each, and earlier entries keep their places |
| UserRoleService.FirstAssignmentIsVisible | packages/api/src/services/user-role/user-role.service.ts:27-49 | after the first role assignment of a user, getUserRole reports that role for any consistent storage answer |
| UserRoleService.EventDescription | packages/api/src/services/user-role/user-role.service.ts:91-105 | every description starts with "User role " |
| UserRoleService.DescriptionsAreReadable | packages/api/src/services/user-role/user-role.service.ts:95-104 | each of the four templates reads back: the created role after "User role set to ", both roles of an update around " to ", the removed role between "User role " and " removed", an unknown type after "User role event: "; a missing property reads "undefined" |
| UserRoleService.CreatedDescriptionDeterminesRole | packages/api/src/services/user-role/user-role.service.ts:96-97 | equal creation descriptions record equal roles |
| UserRoleService.GetAdminUsers | packages/api/src/services/user-role/user-role.service.ts:76-86 | storage is asked for the records of role "admin"; a failing getUsersByRole propagates; otherwise one admin entry per reported record, in order, with id, userId, role, createdAt and updatedAt copied |
| Js.Trim | packages/api/src/services/auth/better-auth.service.ts:53 | the result is the trim of its input in the sense of IsTrimOf: a slice with only white space cut off on either side, starting and ending with a non-space |
| Js.TrimIsUnique | packages/api/src/services/auth/better-auth.service.ts:53 | IsTrimOf has at most one result for each string, so it fully determines what trim returns |
| BetterAuthService.SignUpName | packages/api/src/services/auth/better-auth.service.ts:46-53 | "" unless both parts are non-empty; otherwise the trim of first + " " + last |
| BetterAuthService.SignUpNameOfCleanParts | packages/api/src/services/auth/better-auth.service.ts:46-53 | non-empty parts without surrounding white space are sent as first + " " + last |
| BetterAuthService.EnsureUser | packages/api/src/services/auth/better-auth.service.ts:39-71 | signs up with the e-mail, password and derived name; returns the new id exactly when the response has a user; no user fails "User creation failed"; a thrown error is rethrown unchanged |
| BetterAuthService.VerifyPassword | packages/api/src/services/auth/better-auth.service.ts:85-96 | true exactly when sign-in answered with a user; a throwing sign-in gives false |
| BetterAuthService.PasswordCheckMatchesSignUpCheck | packages/api/src/services/auth/better-auth.service.ts:57-96 | verifyPassword accepts exactly the answers from which ensureUser would obtain an id, and both treat a throw as failure |
| BetterAuthService.SetUserRoleRequest | packages/api/src/services/auth/better-auth.service.ts:73-83 | forwards user id and role with the single header Authorization = "Bearer " + the configured secret |
| BetterAuthService.SetUserRole | packages/api/src/services/auth/better-auth.service.ts:73-83 | the request is the one above, and a rejection of setRole reaches the caller unchanged |
| UserService.DisplayName | packages/api/src/services/user/user.service.ts:62 | first + " " + last in all four present/absent combinations, an absent part reading "undefined" |
| UserService.CreateUser | packages/api/src/services/user/user.service.ts:29-66 | always looks the e-mail up first; an existing user is returned unchanged without calling ensureUser; otherwise ensureUser is called once and the profile has its id, the input e-mail, the display name and the two clock readings; errors propagate |
| UserService.CreateUserIgnoresInputId | packages/api/src/services/user/user.service.ts:29-57 | the optional input id has no effect on createUser |
| UserService.UpsertUserFromOAuth | packages/api/src/services/user/user.service.ts:77-97 | storage receives the id and e-mail; its user or its error is passed back unchanged |
| UserService.UpsertIgnoresExtraFields | packages/api/src/services/user/user.service.ts:86-90 | fields beyond id and e-mail never reach storage |
| UserService.ForwardIsFaithful | packages/api/src/services/user/user.service.ts:25-101 | getUserById, getUserByEmail, updateUser and verifyPassword each reach their own collaborator operation with the same arguments, and distinct calls stay distinct |
| UserService.VerifyPasswordVia | packages/api/src/services/user/user.service.ts:72-75 | the service's verifyPassword is true exactly when sign-in produced a user, and false when it threw |
| UserService.VerifyPasswordViaAgrees | packages/api/src/services/user/user.service.ts:72-75 | for every sign-in outcome the user service answers as the auth service does |
| AuthProvider.SyncEffect | apps/next-app/src/providers/auth-provider.tsx:39-46 | with session data the store gets the session's user and then its token, or "" when the token is falsy; without data nothing |
| AuthProvider.LogoutEffect | apps/next-app/src/providers/auth-provider.tsx:68-76 | logout is invoked exactly when the session has no data, is no longer pending and the store holds a user |
| AuthProvider.SyncAndLogoutExclusive | apps/next-app/src/providers/auth-provider.tsx:39-76 | for one observation sync and logout never both happen |
| AuthProvider.NoLogoutWhilePendingOrEmpty | apps/next-app/src/providers/auth-provider.tsx:69-74 | no logout while pending or when the store has no user |
| AuthProvider.HydrationFlagOnlyFromPersist | apps/next-app/src/providers/auth-provider.tsx:49-55 | the hydration flag is set, to true, exactly on the persist finish-hydration callback and never set to false |
| AuthProvider.LatestSessionWins | apps/next-app/src/providers/auth-provider.tsx:39-46 | after any history, an observation with data leaves its user as the last user written to the store |
| AuthProvider.Context | apps/next-app/src/providers/auth-provider.tsx:57-65 | context isAuthenticated is exactly "session data present" and hasHydrated exactly "not pending" |
| AuthProvider.UseAuth | apps/next-app/src/providers/auth-provider.tsx:17-23 | without a context the hook fails "useAuth must be used within AuthProvider", else returns the context |
| AuthProvider.ProviderValueReachesConsumers | apps/next-app/src/providers/auth-provider.tsx:17-65 | inside the provider a consumer gets exactly the provider's value, its flags following the session; outside it gets the error |
| UseAuthHook.GetAuthHeaders | apps/next-app/src/hooks/use-auth.ts:12-19 | a non-empty token gives exactly {Authorization: "Bearer " + token}, else no headers |
| UseAuthHook.HandleLogout | apps/next-app/src/hooks/use-auth.ts:22-25 | sign-out comes first and navigation, to "/" by default, only after it succeeds |
| UseAuthHook.LogoutNavigatesOnlyAfterSignOut | apps/next-app/src/hooks/use-auth.ts:22-25 | a navigation happens exactly when sign-out succeeded, only to the given destination or "/", and never before sign-out; the result fails exactly when sign-out did |
| UseAuthHook.CheckAuth | apps/next-app/src/hooks/use-auth.ts:29-35 | logout then navigation to "/login" exactly when the session answer has no data and the store says authenticated; otherwise no effect |
| UseAuthHook.CheckAuthAsWritten | apps/next-app/src/hooks/use-auth.ts:29-30 | the call to a getSession member the context lacks throws, so no effect ever happens |
| UseAuthHook.CheckAuthAsWrittenMissesLostSession | apps/next-app/src/hooks/use-auth.ts:28-35 | a lost session with an authenticated store is logged out by the intended check and not by the written one |
| UseAuthHook.Spread | apps/next-app/src/hooks/use-auth.ts:40-45 | a key present in the later object wins over the earlier one |
| UseAuthHook.HookIsAuthenticated | apps/next-app/src/hooks/use-auth.ts:40-45 | the store's value is overridden by the context's |
| UseAuthHook.HookIsAuthenticatedFollowsSession | apps/next-app/src/hooks/use-auth.ts:40-45 | the hook's isAuthenticated is the context's, session data present, whatever the store holds |
| TokenRefresh.RefreshToken | apps/next-app/src/hooks/use-token-refresh.ts:10-30 | unauthenticated resets the flag without refreshing; refresh is called exactly when hydrated, authenticated and the flag is down, after raising it; success runs refresh, setUserInfo, reload and keeps the flag up; failure lowers it |
| TokenRefresh.RaisedFlagBlocksRefresh | apps/next-app/src/hooks/use-token-refresh.ts:18-22 | while authenticated, a raised flag stays raised and no later call refreshes |
| TokenRefresh.RefreshAtMostOnce | apps/next-app/src/hooks/use-token-refresh.ts:12-29 | over any series of authenticated calls with succeeding refreshes, refresh runs at most once |
| TokenRefresh.FailureAllowsRetry | apps/next-app/src/hooks/use-token-refresh.ts:25-28 | after a failed refresh the next hydrated, authenticated call refreshes again |
| TokenRefresh.LogoutResetsFlag | apps/next-app/src/hooks/use-token-refresh.ts:12-15 | after an unauthenticated call the next hydrated, authenticated call refreshes |
| TokenRefresh.Begin | apps/next-app/src/hooks/use-token-refresh.ts:12-22 | the part of a call before the await: logout lowers the flag; a refresh starts exactly when hydrated, authenticated and the flag is down, raising it in the same step; otherwise nothing |
| TokenRefresh.Finish | apps/next-app/src/hooks/use-token-refresh.ts:21-28 | a settled refresh leaves the await; success calls setUserInfo and reloads, failure lowers the flag |
| TokenRefresh.RefreshTokenIsBeginThenFinish | apps/next-app/src/hooks/use-token-refresh.ts:10-30 | a call with nothing in between its two halves gives the same steps and flag as the one-step RefreshToken |
| TokenRefresh.NoOverlappingRefresh | apps/next-app/src/hooks/use-token-refresh.ts:18-28 | while the user stays authenticated, under any interleaving of calls and settlements, at most one refresh is awaited at a time and the flag is up while it is |
| TokenRefresh.LogoutDuringRefreshAllowsOverlap | apps/next-app/src/hooks/use-token-refresh.ts:12-22 | a logout during the await lowers the flag, so a call after signing in again starts a second refresh alongside the first |
| TrpcAuth.GetTRPCAuthHeaders | apps/next-app/src/utils/trpc-auth.ts:6-19 | a non-empty stored token gives exactly {authorization: "Bearer " + token}, else no headers |
| TrpcAuth.HandleTRPCAuthError | apps/next-app/src/utils/trpc-auth.ts:22-36 | always rethrows the same error; on code UNAUTHORIZED or status 401 exactly one logout, followed by the "/login" redirect when there is a window; no effect otherwise |
| UseLogin.MessageOf | apps/next-app/src/hooks/useLogin.ts:51-52 | an Error's message, otherwise "An unexpected error occurred" |
| UseLogin.Destination | apps/next-app/src/hooks/useLogin.ts:45-46 | the redirect query value when non-empty, else "/dashboard" |
| UseLogin.Login | apps/next-app/src/hooks/useLogin.ts:20-58 | loading raised and error cleared first, loading lowered last; success exactly after a response with no error and a user and a completed navigation to the destination; error responses return the message and store it or "Failed to sign in"; no user gives "Invalid response from authentication service"; a throwing sign-in and a rejected navigation after a good response both return and store the caught value's message, the latter after the push was attempted; each case's full sequence of state updates is stated, with exactly one error stored on each failure path and none on success |
| UseLogin.LoginWithGoogle | apps/next-app/src/hooks/useLogin.ts:60-80 | requests provider google with origin + "/auth/callback"; success exactly when the call does not throw; the full sequence of state updates, storing the caught value's message exactly once on failure and no error on success |
| UseLogin.CaughtValuesMapAlike | apps/next-app/src/hooks/useLogin.ts:50-79 | a thrown value gives the same result in both sign-in paths |
| AuthLink.LinkHref | apps/next-app/src/components/auth/auth-link.tsx:27-30 | loginPath + "?redirect=" + encode(href) when authentication is required and absent, href otherwise |
| AuthLink.DefaultsSendToLogin | apps/next-app/src/components/auth/auth-link.tsx:16-19 | without options requireAuth is true and loginPath is "/login" |
| AuthLink.DestinationPreserved | apps/next-app/src/components/auth/auth-link.tsx:11-30 | when decoding inverts encoding, the login page reads back the link's original href as its redirect value |
| AuthLink.SignInReturnsToLinkTarget | apps/next-app/src/components/auth/auth-link.tsx:11-15 | following a guarded link and signing in successfully navigates to the link's original href |
| UseSession.UseSession | apps/next-app/src/hooks/use-session.ts:7-16 | user is the session's user or none; token the top-level data token when non-empty; isLoading is isPending; isAuthenticated exactly when data is present; session is the data or none |
| UseSession.ViewAgreesWithContext | apps/next-app/src/hooks/use-session.ts:10-16 | the view is authenticated exactly when the context is, and loading exactly while the context is not hydrated |
| UseSession.TopLevelTokenMissesSessionToken | apps/next-app/src/hooks/use-session.ts:12 | a session whose record has a token but no top-level token shows no token, while the provider stores that token |
| UseSession.UseSessionIntended | apps/next-app/src/hooks/use-session.ts:12 | differs from the written projection only in reading the token from the session record |
| UseSession.IntendedTokenMatchesStore | apps/next-app/src/hooks/use-session.ts:12 | with the intended projection the token shown is the non-empty token the provider stores |
| BearerRoundTrip.BearerValueParses | apps/http-server/src/trpc/middleware/auth.middleware.ts:39-46 | a "Bearer " + token value passes the scheme check and yields back exactly the token |
| BearerRoundTrip.BearerRequestVerifiesToken | apps/http-server/src/trpc/middleware/auth.middleware.ts:37-61 | with the cookie stage failing, such a request calls verifyToken with the token and is admitted exactly with verifyToken's user |
| BearerRoundTrip.ClientHeadersRoundTrip | apps/next-app/src/hooks/use-auth.ts:12-19 | the header built from a stored token reaches the server's verifier unchanged; no token, no header |
| BearerRoundTrip.TrpcHeadersRoundTrip | apps/next-app/src/utils/trpc-auth.ts:9-15 | the tRPC header built from local storage reaches the verifier with the same token |
| BearerRoundTrip.RoleRequestCarriesSecret | packages/api/src/services/auth/better-auth.service.ts:73-82 | the role request's credential, parsed the way the middleware parses a bearer header, gives back the configured secret |
| RejectionRoundTrip.ClientErrorOf | apps/next-app/src/utils/trpc-auth.ts:22-24 | the client-side error of a rejection carries its code and message, with no known status |
| RejectionRoundTrip.RejectionLogsClientOut | apps/http-server/src/trpc/middleware/auth.middleware.ts:36-67 | every request the middleware rejects, whatever the cookie lookup, header and verifier, makes the client's handler log out first, redirect to "/login" exactly when there is a window, and rethrow the same error |

## Left out

- better-auth, `authClient`, `jwtService`, role storage and user storage are
  not modelled as algorithms. Each call whose answer the core inspects or
  passes on is an input value standing for its outcome: a value, a falsy
  value, or a thrown error where a throw reaches the caller. Thrown errors
  are represented by their message. The plain forwarding accessors of the
  user service (getUserById, getUserByEmail, updateUser) are modelled as the
  call they make, not with their results.
- UserRoleService.GetUserRole: which record storage returns when a user has
  several is not known. The storage answer is only required to be consistent
  with the stored records. So the contract gives the role of the record
  handed back, which is some stored role of the user, never "the latest".
- UserRoleService.SetUserRole: the record's id and timestamp come from
  storage. createdAt and updatedAt are both taken as the insert's timestamp.
  The event's own timestamp is not modelled.
- UserRoleService.GetAdminUsers: takes the records storage reports for
  "admin" as input. How storage selects them is not visible.
- The client auth store (`~/stores/auth-store`) is not visible. Its `logout`,
  `updateUser`, `updateToken` and `setHasHydrated` are recorded as invoked
  operations only. Their effect on the stored state, idempotence and
  persistence are left out.
- React and Next.js mechanics are left out: effect scheduling and dependency
  arrays, re-rendering, the `rehydrate` call and unsubscribe cleanup of the
  hydration effect, and the `useCallback` identity. `router.push`,
  `window.location.href` and `window.location.reload` become recorded
  effects. `encodeURIComponent` and the router's query decoding become
  function inputs. `window.location.origin` and local storage become inputs.
- TokenRefresh.RefreshToken: one call with nothing else running during its
  await. Overlapping calls are modelled separately by TokenRefresh.Begin and
  TokenRefresh.Finish over a page. `window.location.reload()` restarts the
  page and so its ref: the one-step model keeps the flag across calls and
  records the reload as a step, while the page model stops at the reload.
- TokenRefresh.Finish: a settlement does not say which pending refresh it
  belongs to; only the number of refreshes awaited is tracked.
- The downstream `next` handler of the middleware is left out, and so is the
  propagation of its rejections.
- `ensureUser` is called by `createUser` with one object, while its
  implementation takes positional arguments and its interface a third order.
  `createUser` takes ensureUser's outcome as an input rather than composing
  the two.
- The idempotence promised in the AuthService interface comment is not
  asserted: the implementation does not provide it.
- `toLowerCase` is modelled as ASCII lower-casing. The only lower-case
  result compared is the "bearer " prefix.
- RejectionRoundTrip.ClientErrorOf: the error the client sees for a server
  rejection is assumed from how tRPC transports errors. The server's code
  becomes `data.code` and the message is kept. That transport is not part of
  this model, so the HTTP status is left unknown.
- TrpcAuth.HandleTRPCAuthError: `httpStatus` is an integer. A non-numeric
  status, which `=== 401` also rejects, is not modelled separately.
- UseLogin.Login: the `redirect` query value is a string. An array-valued
  query parameter is not modelled.
- `use-roles.ts` is left out because it delegates to `auth-utils`, which is
  not part of this model. `protected-route.tsx` is render and effect UI.
  `useSetUserInfo` is a no-op, modelled as the step `CallSetUserInfo`.
  `auth-client.ts` is configuration.
- Dependency-injection wiring, library configuration, environment
  declarations and database schema files have no behaviour and are left out.
  So is logging. `new Date()` clock values are inputs where a result
  carries them, one input per reading.

## Findings

| source | as written | input that shows it | evidently intended | confidence | as-written member | corrected member |
|---|---|---|---|---|---|---|
| apps/next-app/src/hooks/use-auth.ts:30 | `checkAuth` calls `authContext.getSession()`, but the provider's context value has no `getSession` member (auth-provider.tsx:57-65 exposes `refresh`), so the call throws and the check never logs out | store authenticated, better-auth session gone (`data` null, not pending): no logout, no navigation | ask the context's `refresh` (better-auth's getSession) and log out when it has no data | medium (context value as shown; not executed) | UseAuthHook.CheckAuthAsWritten, UseAuthHook.CheckAuthAsWrittenMissesLostSession | UseAuthHook.CheckAuth |
| apps/next-app/src/hooks/use-session.ts:12 | the token is read from `session.data.token`, while the provider reads the session token from `session.data.session.token` | session data whose record carries token "abc" and no top-level token: the view shows no token while the store receives "abc" | read `session.data.session.token` | medium (data shape as read by auth-provider.tsx:43; not executed) | UseSession.UseSession, UseSession.TopLevelTokenMissesSessionToken | UseSession.UseSessionIntended, UseSession.IntendedTokenMatchesStore |
