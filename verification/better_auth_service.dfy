/** The server's wrapper around better-auth: creating a user by e-mail sign-up,
    checking a password by e-mail sign-in, and setting a role through the
    admin API. Each better-auth call is replaced by its outcome; errors are
    represented by their message. */
module BetterAuthService {
  import opened Js
  import Http

  const UserCreationFailed: string := "User creation failed"

  /** The display name sent with a sign-up: `firstName lastName`, trimmed,
      when both parts are non-empty, else the empty string. */
  function SignUpName(firstName: Option<string>, lastName: Option<string>): (r: string)
    ensures !(Truthy(firstName) && Truthy(lastName)) ==> r == ""
    ensures Truthy(firstName) && Truthy(lastName) ==>
      IsTrimOf(firstName.value + " " + lastName.value, r)
    ensures r == [] || (!IsTrimmable(r[0]) && !IsTrimmable(r[|r| - 1]))
  {
    var name: Option<string> :=
      if Truthy(firstName) && Truthy(lastName) then Some(firstName.value + " " + lastName.value)
      else None;
    OrElse(if name.Some? then Some(Trim(name.value)) else None, "")
  }

  /** Parts without surrounding white space are joined by one space, as is. */
  lemma SignUpNameOfCleanParts(first: string, last: string)
    requires first != [] && last != []
    requires !IsTrimmable(first[0]) && !IsTrimmable(last[|last| - 1])
    ensures SignUpName(Some(first), Some(last)) == first + " " + last
  {
  }

  /** The body of the sign-up request. */
  datatype SignUpRequest = SignUpRequest(email: string, password: string, name: string)

  /** What signUpEmail did: threw, or answered with or without a user (its id). */
  datatype SignUpResponse = SignUpThrew(error: string) | SignedUp(userId: Option<string>)

  datatype EnsureRun = EnsureRun(request: SignUpRequest, result: Result<string, string>)

  /** ensureUser: signs the user up and returns the new id; a response without
      a user becomes "User creation failed", and every failure is rethrown. */
  function EnsureUser(email: string, password: string, firstName: Option<string>,
                      lastName: Option<string>, response: SignUpResponse): (r: EnsureRun)
    ensures r.request.email == email && r.request.password == password
    ensures r.request.name == SignUpName(firstName, lastName)
    ensures r.result.Ok? <==> response.SignedUp? && response.userId.Some?
    ensures r.result.Ok? ==> r.result.value == response.userId.value
    ensures response.SignUpThrew? ==> r.result == Err(response.error)
    ensures response == SignedUp(None) ==> r.result == Err(UserCreationFailed)
  {
    var request := SignUpRequest(email, password, SignUpName(firstName, lastName));
    var attempt: Result<string, string> :=
      match response
      case SignUpThrew(e) => Err(e)
      case SignedUp(None) => Err(UserCreationFailed)
      case SignedUp(Some(id)) => Ok(id);
    // the catch block logs and rethrows the same error
    EnsureRun(request, attempt)
  }

  /** What signInEmail did: threw, or answered with or without a user. */
  datatype SignInResponse = SignInThrew(error: string) | SignedIn(userId: Option<string>)

  /** verifyPassword: true exactly when sign-in answered with a user; it never
      throws, an error is read as false. */
  function VerifyPassword(response: SignInResponse): (r: bool)
    ensures r <==> response.SignedIn? && response.userId.Some?
    ensures response.SignInThrew? ==> !r
  {
    match response
    case SignInThrew(_) => false
    case SignedIn(user) => user.Some?
  }

  /** Sign-in and sign-up read a better-auth answer the same way: a password
      is accepted exactly when the equivalent sign-up answer would yield an
      id, and a throw is a failure in both. */
  lemma PasswordCheckMatchesSignUpCheck(user: Option<string>, error: string, email: string,
                                        password: string, firstName: Option<string>,
                                        lastName: Option<string>)
    ensures VerifyPassword(SignedIn(user))
            <==> EnsureUser(email, password, firstName, lastName, SignedUp(user)).result.Ok?
    ensures !VerifyPassword(SignInThrew(error))
            && EnsureUser(email, password, firstName, lastName, SignUpThrew(error)).result == Err(error)
  {
  }

  /** The request setUserRole sends to better-auth's admin API. */
  datatype SetRoleRequest = SetRoleRequest(userId: string, role: string, headers: Http.Headers)

  /** setUserRole: forwards the user id and role, authorised by the
      configured secret as a bearer credential. */
  function SetUserRoleRequest(userId: string, role: string, secret: string): (r: SetRoleRequest)
    ensures r.userId == userId && r.role == role
    ensures r.headers.Keys == {"Authorization"}
    ensures var h := r.headers["Authorization"];
            |h| >= |Http.BearerPrefix| && h[..|Http.BearerPrefix|] == Http.BearerPrefix
            && h[|Http.BearerPrefix|..] == secret
  {
    SetRoleRequest(userId, role, map["Authorization" := Http.BearerValue(secret)])
  }

  datatype SetRoleRun = SetRoleRun(request: SetRoleRequest, result: Result<(), string>)

  /** setUserRole with what the admin API's setRole did: the request is sent
      whatever happens, and a rejection reaches the caller unchanged. */
  function SetUserRole(userId: string, role: string, secret: string, answer: Result<(), string>): (r: SetRoleRun)
    ensures r.request.userId == userId && r.request.role == role
    ensures r.request.headers == map["Authorization" := Http.BearerValue(secret)]
    ensures r.result.Ok? <==> answer.Ok?
    ensures answer.Err? ==> r.result == Err(answer.error)
  {
    SetRoleRun(SetUserRoleRequest(userId, role, secret), answer)
  }
}
