/** The client's useLogin hook: e-mail sign-in and Google sign-in through the
    better-auth client, turned into a `{success, error}` result, the hook's
    loading/error state updates, and the navigation after a successful sign-in. */
module UseLogin {
  import opened Js

  /** A thrown value: an Error instance with its message, or anything else. */
  datatype Thrown = ErrorInstance(message: string) | NonError

  /** `response.error` of the sign-in call. */
  datatype AuthError = AuthError(message: Option<string>)

  /** `response.data` of the sign-in call; the user is identified by its id. */
  datatype SignInData = SignInData(user: Option<string>)

  datatype SignInResponse = SignInResponse(error: Option<AuthError>, data: Option<SignInData>)

  /** What the sign-in call did: answered, or threw. */
  datatype SignInOutcome = Responded(response: SignInResponse) | SignInThrew(thrown: Thrown)

  datatype LoginResult = LoginResult(success: bool, error: Option<string>)

  /** A state update of the hook, in order. */
  datatype StateUpdate = SetLoading(loading: bool) | SetError(error: Option<string>)

  /** The result, the state updates, and the destination pushed, if any. */
  datatype LoginRun = LoginRun(result: LoginResult, updates: seq<StateUpdate>, pushed: Option<string>)

  const FailedToSignIn: string := "Failed to sign in"
  const InvalidResponse: string := "Invalid response from authentication service"
  const Unexpected: string := "An unexpected error occurred"
  const DefaultDestination: string := "/dashboard"

  /** The message of a caught value. */
  function MessageOf(t: Thrown): (r: string)
    ensures t.ErrorInstance? ==> r == t.message
    ensures t.NonError? ==> r == Unexpected
  {
    match t
    case ErrorInstance(m) => m
    case NonError => Unexpected
  }

  /** A failed call: the result and the error stored, for a caught value. */
  function Caught(t: Thrown): (r: (LoginResult, seq<StateUpdate>)) {
    (LoginResult(false, Some(MessageOf(t))), [SetError(Some(MessageOf(t)))])
  }

  /** The redirect destination: the `redirect` query value, or "/dashboard"
      when it is absent or empty. */
  function Destination(redirect: Option<string>): (r: string)
    ensures Truthy(redirect) ==> r == redirect.value
    ensures !Truthy(redirect) ==> r == DefaultDestination
  {
    OrElse(redirect, DefaultDestination)
  }

  /** login: `outcome` is what the sign-in call did, `redirect` the query
      value, `push` what awaiting the navigation did (None: it resolved). */
  function Login(outcome: SignInOutcome, redirect: Option<string>, push: Option<Thrown>): (r: LoginRun)
    // every call starts by raising the loading flag and clearing the error,
    // and ends with the loading flag lowered
    ensures |r.updates| >= 3 && r.updates[..2] == [SetLoading(true), SetError(None)]
    ensures r.updates[|r.updates| - 1] == SetLoading(false)
    // success only after a response with no error and a user, once navigated
    ensures r.result.success <==>
      outcome.Responded? && outcome.response.error.None? && outcome.response.data.Some?
      && outcome.response.data.value.user.Some? && push.None?
    ensures r.result.success ==>
      r.result.error.None? && r.pushed == Some(Destination(redirect))
      && r.updates == [SetLoading(true), SetError(None), SetLoading(false)]
    // an error response: the message is returned, the stored error falls back
    ensures outcome.Responded? && outcome.response.error.Some? ==>
      var msg := outcome.response.error.value.message;
      r.result == LoginResult(false, msg) && r.pushed.None?
      && r.updates == [SetLoading(true), SetError(None), SetError(Some(OrElse(msg, FailedToSignIn))), SetLoading(false)]
    // a response without error and without user
    ensures outcome.Responded? && outcome.response.error.None?
            && (outcome.response.data.None? || outcome.response.data.value.user.None?) ==>
      r.result == LoginResult(false, Some(InvalidResponse)) && r.pushed.None?
      && r.updates == [SetLoading(true), SetError(None), SetError(Some(InvalidResponse)), SetLoading(false)]
    // a thrown sign-in: the caught value's message is returned and stored
    ensures outcome.SignInThrew? ==>
      r.result == LoginResult(false, Some(MessageOf(outcome.thrown))) && r.pushed.None?
      && r.updates == [SetLoading(true), SetError(None), SetError(Some(MessageOf(outcome.thrown))), SetLoading(false)]
    // a good response whose navigation rejects: caught the same way, after
    // the navigation was attempted
    ensures outcome.Responded? && outcome.response.error.None? && outcome.response.data.Some?
            && outcome.response.data.value.user.Some? && push.Some? ==>
      r.result == LoginResult(false, Some(MessageOf(push.value))) && r.pushed == Some(Destination(redirect))
      && r.updates == [SetLoading(true), SetError(None), SetError(Some(MessageOf(push.value))), SetLoading(false)]
  {
    var start := [SetLoading(true), SetError(None)];
    var body: (LoginResult, seq<StateUpdate>, Option<string>) :=
      match outcome
      case SignInThrew(t) =>
        var (res, ups) := Caught(t); (res, ups, None)
      case Responded(response) =>
        if response.error.Some? then
          var msg := response.error.value.message;
          (LoginResult(false, msg), [SetError(Some(OrElse(msg, FailedToSignIn)))], None)
        else if response.data.None? || response.data.value.user.None? then
          (LoginResult(false, Some(InvalidResponse)), [SetError(Some(InvalidResponse))], None)
        else
          var destination := Destination(redirect);
          match push
          case None => (LoginResult(true, None), [], Some(destination))
          case Some(t) => var (res, ups) := Caught(t); (res, ups, Some(destination));
    LoginRun(body.0, start + body.1 + [SetLoading(false)], body.2)
  }

  /** The social sign-in request. */
  datatype SocialRequest = SocialRequest(provider: string, callbackUrl: string)

  datatype SocialRun = SocialRun(request: SocialRequest, result: LoginResult, updates: seq<StateUpdate>)

  /** loginWithGoogle: succeeds whenever the social sign-in call does not
      throw (the flow continues by redirect), with the same mapping of caught
      values as login otherwise. */
  function LoginWithGoogle(origin: string, social: Option<Thrown>): (r: SocialRun)
    ensures r.request == SocialRequest("google", origin + "/auth/callback")
    ensures r.result.success <==> social.None?
    ensures social.Some? ==>
      r.result == LoginResult(false, Some(MessageOf(social.value)))
      && r.updates == [SetLoading(true), SetError(None), SetError(Some(MessageOf(social.value))), SetLoading(false)]
    ensures social.None? ==>
      r.result == LoginResult(true, None) && r.updates == [SetLoading(true), SetError(None), SetLoading(false)]
    ensures |r.updates| >= 3 && r.updates[..2] == [SetLoading(true), SetError(None)]
    ensures r.updates[|r.updates| - 1] == SetLoading(false)
  {
    var request := SocialRequest("google", origin + "/auth/callback");
    var body: (LoginResult, seq<StateUpdate>) :=
      match social
      case None => (LoginResult(true, None), [])
      case Some(t) => Caught(t);
    SocialRun(request, body.0, [SetLoading(true), SetError(None)] + body.1 + [SetLoading(false)])
  }

  /** Both sign-in paths map a caught value the same way. */
  lemma CaughtValuesMapAlike(t: Thrown, redirect: Option<string>, origin: string)
    ensures Login(SignInThrew(t), redirect, None).result == LoginWithGoogle(origin, Some(t)).result
  {
  }
}
