/** The role/audit service: a user's coarse-grained role ("user" by default,
    or "admin") read from and written to role storage, with every write
    recorded as a system event. Storage is an abstract pair of sequences:
    the role records and the append-only system-event log. Which record the
    storage hands back when a user has several is not known, so a lookup is
    an input that is only required to be consistent with the stored records. */
module UserRoleService {
  import opened Js

  /** Roles are stored as text and read back with an unchecked cast. */
  type Role = string

  const DefaultRole: Role := "user"
  const AdminRole: Role := "admin"

  const RoleCreated: string := "user_role_created"
  const RoleUpdated: string := "user_role_updated"
  const RoleRemoved: string := "user_role_removed"

  /** A role record; timestamps are the storage's clock readings. */
  datatype RoleRecord = RoleRecord(id: string, userId: string, role: Role, createdAt: int, updatedAt: int)

  /** An audit event; `properties` holds the event's string-valued details. */
  datatype SystemEvent = SystemEvent(eventType: string, userId: string, roleId: string,
                                     properties: map<string, string>, actorId: string,
                                     description: string)

  datatype Storage = Storage(roles: seq<RoleRecord>, events: seq<SystemEvent>)

  /** The user has at least one stored role record. */
  predicate HasRecord(st: Storage, userId: string) {
    exists i :: 0 <= i < |st.roles| && st.roles[i].userId == userId
  }

  /** `found` is an answer storage may give to getUserRoleRecord(userId):
      nothing exactly when the user has no record, else one of its records. */
  predicate LookupAnswers(st: Storage, userId: string, found: Option<RoleRecord>) {
    && (found.None? <==> !HasRecord(st, userId))
    && (found.Some? ==> found.value in st.roles && found.value.userId == userId)
  }

  /** getUserRole: `found` is what getUserRoleRecord did, an answer or a
      thrown error. A throw propagates; no record gives the default role;
      otherwise the role of the record storage handed back, one of the
      user's stored records. */
  function GetUserRole(st: Storage, userId: string, found: Result<Option<RoleRecord>, string>): (r: Result<Role, string>)
    requires found.Ok? ==> LookupAnswers(st, userId, found.value)
    ensures r.Err? <==> found.Err?
    ensures found.Err? ==> r == Err(found.error)
    ensures found.Ok? && found.value.Some? ==> r == Ok(found.value.value.role)
    ensures found.Ok? && !HasRecord(st, userId) ==> r == Ok(DefaultRole)
    ensures r.Ok? && HasRecord(st, userId) ==>
      exists i :: 0 <= i < |st.roles| && st.roles[i].userId == userId && st.roles[i].role == r.value
  {
    match found
    case Err(e) => Err(e)
    case Ok(None) => Ok(DefaultRole)
    case Ok(Some(rec)) => Ok(rec.role)
  }

  /** isAdmin: the user's role is exactly "admin"; a failing lookup
      propagates. */
  function IsAdmin(st: Storage, userId: string, found: Result<Option<RoleRecord>, string>): (r: Result<bool, string>)
    requires found.Ok? ==> LookupAnswers(st, userId, found.value)
    ensures found.Err? ==> r == Err(found.error)
    ensures found.Ok? ==> r.Ok? && (r.value <==> GetUserRole(st, userId, found) == Ok(AdminRole))
    ensures r == Ok(true) ==> exists i :: 0 <= i < |st.roles| && st.roles[i].userId == userId
                                          && st.roles[i].role == AdminRole
  {
    match GetUserRole(st, userId, found)
    case Err(e) => Err(e)
    case Ok(role) => Ok(role == AdminRole)
  }

  /** A user without any record is not an admin. */
  lemma UnknownUserIsNotAdmin(st: Storage, userId: string)
    requires !HasRecord(st, userId)
    ensures GetUserRole(st, userId, Ok(None)) == Ok(DefaultRole)
    ensures IsAdmin(st, userId, Ok(None)) == Ok(false)
  {
  }

  /** generateEventDescription: the human-readable text of an event. A
      property that is missing renders as "undefined". */
  function EventDescription(eventType: string, properties: map<string, string>): (r: string)
    ensures |r| >= 10 && r[..10] == "User role "
  {
    if eventType == RoleCreated then
      "User role set to " + Prop(properties, "role")
    else if eventType == RoleUpdated then
      "User role updated from " + Prop(properties, "previousRole")
      + " to " + Prop(properties, "newRole")
    else if eventType == RoleRemoved then
      "User role " + Prop(properties, "removedRole") + " removed"
    else
      "User role event: " + eventType
  }

  /** A property as a template literal renders it. */
  function Prop(properties: map<string, string>, key: string): (r: string)
    ensures key in properties ==> r == properties[key]
    ensures key !in properties ==> r == "undefined"
  {
    Render(if key in properties then Some(properties[key]) else None)
  }

  /** Every template can be read back: the role of a creation, both roles of
      an update, the role of a removal and the type of an unknown event sit
      at fixed places in the text; a missing property reads "undefined". */
  lemma DescriptionsAreReadable(role: Role, newRole: Role, eventType: string)
    ensures var d := EventDescription(RoleCreated, map["role" := role]);
            |d| >= 17 && d[..17] == "User role set to " && d[17..] == role
    ensures var d := EventDescription(RoleUpdated, map["previousRole" := role, "newRole" := newRole]);
            && |d| == 27 + |role| + |newRole|
            && d[..23] == "User role updated from " && d[23..23 + |role|] == role
            && d[23 + |role|..27 + |role|] == " to " && d[27 + |role|..] == newRole
    ensures var d := EventDescription(RoleRemoved, map["removedRole" := role]);
            && |d| == 18 + |role|
            && d[..10] == "User role " && d[10..10 + |role|] == role && d[10 + |role|..] == " removed"
    ensures EventDescription(RoleCreated, map[]) == "User role set to undefined"
    ensures eventType !in {RoleCreated, RoleUpdated, RoleRemoved} ==>
            var d := EventDescription(eventType, map[]);
            |d| >= 17 && d[..17] == "User role event: " && d[17..] == eventType
  {
  }

  /** Two creation events with the same description record the same role. */
  lemma CreatedDescriptionDeterminesRole(a: Role, b: Role)
    requires EventDescription(RoleCreated, map["role" := a])
             == EventDescription(RoleCreated, map["role" := b])
    ensures a == b
  {
    DescriptionsAreReadable(a, a, RoleCreated);
    DescriptionsAreReadable(b, b, RoleCreated);
  }

  /** What createUserRole did: inserted a record (storage chose its id and
      timestamp), or threw. */
  datatype Insert = Inserted(roleId: string, at: int) | InsertFailed(error: string)

  datatype SetRoleRun = SetRoleRun(storage: Storage, result: Result<(), string>)

  /** The actor recorded for a role change: the given actor when non-empty,
      otherwise the user themself. */
  function ActorOf(userId: string, actorId: Option<string>): (r: string)
    ensures Truthy(actorId) ==> r == actorId.value
    ensures !Truthy(actorId) ==> r == userId
  {
    OrElse(actorId, userId)
  }

  /** The event setUserRole logs for a new record. */
  function CreatedEvent(userId: string, role: Role, roleId: string, actorId: Option<string>): SystemEvent {
    SystemEvent(RoleCreated, userId, roleId, map["role" := role], ActorOf(userId, actorId),
                EventDescription(RoleCreated, map["role" := role]))
  }

  /** setUserRole: always inserts a new record, without looking at existing
      ones, then appends one "user_role_created" event. A failing insert
      changes nothing; a failing event write leaves the new record in place. */
  function SetUserRole(st: Storage, userId: string, role: Role, actorId: Option<string>,
                       insert: Insert, logFailure: Option<string>): (r: SetRoleRun)
    ensures r.result.Ok? <==> insert.Inserted? && logFailure.None?
    ensures insert.InsertFailed? ==> r == SetRoleRun(st, Err(insert.error))
    ensures insert.Inserted? ==>
      r.storage.roles == st.roles + [RoleRecord(insert.roleId, userId, role, insert.at, insert.at)]
    ensures insert.Inserted? && logFailure.Some? ==>
      r.storage.events == st.events && r.result == Err(logFailure.value)
    ensures r.result.Ok? ==>
      && |r.storage.events| == |st.events| + 1
      && r.storage.events[..|st.events|] == st.events
      && var e := r.storage.events[|st.events|];
         && e.eventType == RoleCreated && e.userId == userId && e.roleId == insert.roleId
         && e.properties == map["role" := role]
         && e.actorId == (if Truthy(actorId) then actorId.value else userId)
         && e.description == "User role set to " + role
  {
    match insert
    case InsertFailed(e) => SetRoleRun(st, Err(e))
    case Inserted(roleId, at) =>
      var roles := st.roles + [RoleRecord(roleId, userId, role, at, at)];
      match logFailure
      case None =>
        SetRoleRun(Storage(roles, st.events + [CreatedEvent(userId, role, roleId, actorId)]), Ok(()))
      case Some(e) =>
        SetRoleRun(Storage(roles, st.events), Err(e))
  }

  /** setUserRole never rewrites history: existing records and events stay
      in place, in order. */
  lemma SetUserRoleAppendsOnly(st: Storage, userId: string, role: Role, actorId: Option<string>,
                               insert: Insert, logFailure: Option<string>)
    ensures var r := SetUserRole(st, userId, role, actorId, insert, logFailure).storage;
            && |st.roles| <= |r.roles| <= |st.roles| + 1 && r.roles[..|st.roles|] == st.roles
            && |st.events| <= |r.events| <= |st.events| + 1 && r.events[..|st.events|] == st.events
  {
  }

  /** The first role a user is given is the role getUserRole reports: with
      a single record, storage has only one possible answer. */
  lemma FirstAssignmentIsVisible(st: Storage, userId: string, role: Role,
                                 actorId: Option<string>, roleId: string, at: int,
                                 found: Option<RoleRecord>)
    requires !HasRecord(st, userId)
    requires LookupAnswers(SetUserRole(st, userId, role, actorId, Inserted(roleId, at), None).storage,
                           userId, found)
    ensures GetUserRole(SetUserRole(st, userId, role, actorId, Inserted(roleId, at), None).storage,
                        userId, Ok(found)) == Ok(role)
  {
    var roles := st.roles + [RoleRecord(roleId, userId, role, at, at)];
    assert roles[|st.roles|].userId == userId;
    assert forall i :: 0 <= i < |st.roles| ==> roles[i].userId != userId;
    var k :| 0 <= k < |roles| && roles[k] == found.value;
    assert k == |st.roles|;
  }

  /** The public shape of an admin's role record. */
  datatype AdminUser = AdminUser(id: string, userId: string, role: Role, createdAt: int, updatedAt: int)

  /** getAdminUsers: asks storage for the records of role "admin" (`query` is
      the role it asks for) and projects what storage reports, one for one
      and in order, copying every field unchanged; a failing getUsersByRole
      propagates. */
  method GetAdminUsers(reported: Result<seq<RoleRecord>, string>)
    returns (query: Role, admins: Result<seq<AdminUser>, string>)
    ensures query == AdminRole
    ensures reported.Err? ==> admins == Err(reported.error)
    ensures reported.Ok? ==> admins.Ok? && |admins.value| == |reported.value|
    ensures reported.Ok? ==> forall i :: 0 <= i < |reported.value| ==>
      var rec := reported.value[i];
      admins.value[i] == AdminUser(rec.id, rec.userId, rec.role, rec.createdAt, rec.updatedAt)
  {
    query := AdminRole;
    if reported.Err? {
      return query, Err(reported.error);
    }
    var records := reported.value;
    var list: seq<AdminUser> := [];
    var n := 0;
    while n < |records|
      invariant 0 <= n <= |records|
      invariant |list| == n
      invariant forall i :: 0 <= i < n ==>
        list[i] == AdminUser(records[i].id, records[i].userId, records[i].role,
                             records[i].createdAt, records[i].updatedAt)
    {
      var rec := records[n];
      list := list + [AdminUser(rec.id, rec.userId, rec.role, rec.createdAt, rec.updatedAt)];
      n := n + 1;
    }
    admins := Ok(list);
  }
}
