/** The server's user service: creating a user profile (short-circuiting on
    an existing e-mail), upserting a user seen through OAuth, and accessors
    that forward to user storage or to the auth service. Storage calls and
    ensureUser are replaced by their outcomes; errors are their messages. */
module UserService {
  import opened Js
  import BetterAuthService

  /** A user profile; timestamps are clock readings supplied as inputs. */
  datatype User = User(id: string, email: string, name: string, createdAt: int, updatedAt: int)

  /** The createUser argument; `id` is accepted but never used. */
  datatype NewUser = NewUser(email: string, password: string, firstName: Option<string>,
                             lastName: Option<string>, id: Option<string>)

  /** A call createUser makes to a collaborator. */
  datatype Call =
    | GetUserByEmail(email: string)
    | EnsureUser(email: string, password: string, firstName: Option<string>, lastName: Option<string>)

  datatype CreateRun = CreateRun(result: Result<User, string>, calls: seq<Call>)

  /** The profile name: first name, one space, last name, as a template
      literal renders them, so an
      absent part reads "undefined". */
  function DisplayName(firstName: Option<string>, lastName: Option<string>): (r: string)
    ensures firstName.Some? && lastName.Some? ==> r == firstName.value + " " + lastName.value
    ensures firstName.Some? && lastName.None? ==> r == firstName.value + " undefined"
    ensures firstName.None? && lastName.Some? ==> r == "undefined " + lastName.value
    ensures firstName.None? && lastName.None? ==> r == "undefined undefined"
  {
    Render(firstName) + " " + Render(lastName)
  }

  /** createUser: an existing user with the same e-mail is returned as is and
      ensureUser is not called; otherwise ensureUser is called once and the
      new profile carries its id and the input e-mail. Errors propagate. */
  function CreateUser(input: NewUser, existing: Result<Option<User>, string>,
                      ensured: Result<string, string>, created: int, updated: int): (r: CreateRun)
    ensures |r.calls| >= 1 && r.calls[0] == GetUserByEmail(input.email)
    ensures existing.Ok? && existing.value.Some? ==>
      r == CreateRun(Ok(existing.value.value), [GetUserByEmail(input.email)])
    ensures existing.Err? ==> r == CreateRun(Err(existing.error), [GetUserByEmail(input.email)])
    ensures existing == Ok(None) ==>
      && r.calls == [GetUserByEmail(input.email),
                     EnsureUser(input.email, input.password, input.firstName, input.lastName)]
      && (ensured.Err? ==> r.result == Err(ensured.error))
      && (ensured.Ok? ==> r.result.Ok? && r.result.value.id == ensured.value
                          && r.result.value.email == input.email
                          && r.result.value.name == DisplayName(input.firstName, input.lastName)
                          && r.result.value.createdAt == created && r.result.value.updatedAt == updated)
  {
    var lookup := [GetUserByEmail(input.email)];
    match existing
    case Err(e) => CreateRun(Err(e), lookup)
    case Ok(Some(u)) => CreateRun(Ok(u), lookup)
    case Ok(None) =>
      var calls := lookup + [EnsureUser(input.email, input.password, input.firstName, input.lastName)];
      match ensured
      case Err(e) => CreateRun(Err(e), calls)
      case Ok(newId) =>
        CreateRun(Ok(User(newId, input.email, DisplayName(input.firstName, input.lastName), created, updated)), calls)
  }

  /** The optional `id` of the input plays no part in createUser. */
  lemma CreateUserIgnoresInputId(input: NewUser, otherId: Option<string>,
                                 existing: Result<Option<User>, string>,
                                 ensured: Result<string, string>, created: int, updated: int)
    ensures CreateUser(input, existing, ensured, created, updated)
            == CreateUser(input.(id := otherId), existing, ensured, created, updated)
  {
  }

  /** An OAuth profile; fields beyond id and e-mail may be present. */
  datatype OAuthProfile = OAuthProfile(id: string, email: string, extra: map<string, string>)

  /** The record handed to storage's upsertUser. */
  datatype UpsertRequest = UpsertRequest(id: string, email: string)

  datatype UpsertRun = UpsertRun(request: UpsertRequest, result: Result<User, string>)

  /** upsertUserFromOAuth: storage sees only the id and e-mail, and its
      answer, user or error, is passed back unchanged. */
  function UpsertUserFromOAuth(profile: OAuthProfile, stored: Result<User, string>): (r: UpsertRun)
    ensures r.request.id == profile.id && r.request.email == profile.email
    ensures stored.Err? ==> r.result.Err? && r.result.error == stored.error
    ensures stored.Ok? ==> r.result.Ok? && r.result.value == stored.value
  {
    UpsertRun(UpsertRequest(profile.id, profile.email), stored)
  }

  /** Extra profile fields never reach storage. */
  lemma UpsertIgnoresExtraFields(profile: OAuthProfile, extra: map<string, string>,
                                 stored: Result<User, string>)
    ensures UpsertUserFromOAuth(profile, stored)
            == UpsertUserFromOAuth(profile.(extra := extra), stored)
  {
  }

  /** The accessors that only forward. */
  datatype Accessor =
    | GetUserById(id: string)
    | GetUserByEmailAccessor(email: string)
    | UpdateUser(user: User)
    | VerifyPassword(email: string, password: string)

  /** The collaborator operation an accessor forwards to. */
  datatype Downstream =
    | StorageGetUserById(id: string)
    | StorageGetUserByEmail(email: string)
    | StorageUpdateUser(user: User)
    | AuthVerifyPassword(email: string, password: string)

  function Forward(a: Accessor): (r: Downstream) {
    match a
    case GetUserById(id) => StorageGetUserById(id)
    case GetUserByEmailAccessor(email) => StorageGetUserByEmail(email)
    case UpdateUser(u) => StorageUpdateUser(u)
    case VerifyPassword(email, password) => AuthVerifyPassword(email, password)
  }

  /** Forwarding loses nothing: distinct accessor calls reach distinct
      collaborator calls, each with its arguments unchanged. */
  lemma ForwardIsFaithful(a: Accessor, b: Accessor)
    ensures Forward(a) == Forward(b) ==> a == b
    ensures forall id :: Forward(a) == StorageGetUserById(id) <==> a == GetUserById(id)
    ensures forall email :: Forward(a) == StorageGetUserByEmail(email) <==> a == GetUserByEmailAccessor(email)
    ensures forall u :: Forward(a) == StorageUpdateUser(u) <==> a == UpdateUser(u)
    ensures forall email, password ::
      Forward(a) == AuthVerifyPassword(email, password) <==> a == VerifyPassword(email, password)
  {
  }

  /** verifyPassword through the user service: the auth service's answer,
      which is true only when sign-in produced a user and is never an error. */
  function VerifyPasswordVia(response: BetterAuthService.SignInResponse): (r: bool)
    ensures r <==> response.SignedIn? && response.userId.Some?
    ensures response.SignInThrew? ==> !r
  {
    BetterAuthService.VerifyPassword(response)
  }

  /** The user service adds nothing to the auth service's answer: for every
      sign-in outcome both give the same verdict. */
  lemma VerifyPasswordViaAgrees(response: BetterAuthService.SignInResponse)
    ensures VerifyPasswordVia(response) == BetterAuthService.VerifyPassword(response)
  {
  }
}
