/** `src/app/api/users/route.ts`: the admin-only user list, and the admin-only
    partial update of one user's role and blocked flag. */
module UsersRoute {
  import opened Domain
  import opened Sorting
  import Store

  const AdminRequired := Failure(401, "Unauthorized - Admin access required")
  const MissingField := Failure(400, "Missing userId or update field")
  const InvalidRole := Failure(400, "Invalid role")
  const UpdateFailed := Failure(500, "Failed to update user role")

  function UserCreatedAt(u: User): int
  {
    u.createdAt
  }

  /** `GET /api/users`: every user, newest first, for an admin only. */
  function ListUsers(rows: seq<User>, session: Session): (r: Result<seq<User>>)
    ensures r.Err? <==> !IsAdmin(session)
    ensures r.Err? ==> r.failure == AdminRequired
    ensures r.Ok? ==> multiset(r.value) == multiset(rows) && SortedDesc(r.value, UserCreatedAt)
  {
    if !IsAdmin(session) then Err(AdminRequired) else Ok(OrderByDesc(rows, UserCreatedAt))
  }

  /** The spelling of a role in a request body. */
  function RoleName(role: Role): string
  {
    match role
    case Admin => "ADMIN"
    case Landlord => "LANDLORD"
    case Tenant => "TENANT"
  }

  /** `["ADMIN", "LANDLORD", "TENANT"].includes(role)`, giving the role. */
  function ParseRole(s: string): (r: Option<Role>)
    ensures r.Some? <==> s == "ADMIN" || s == "LANDLORD" || s == "TENANT"
    ensures r.Some? ==> RoleName(r.value) == s
  {
    if s == "ADMIN" then Some(Role.Admin)
    else if s == "LANDLORD" then Some(Role.Landlord)
    else if s == "TENANT" then Some(Role.Tenant)
    else None
  }

  /** Every role survives being written out and read back. */
  lemma ParseRoleName(role: Role)
    ensures ParseRole(RoleName(role)) == Some(role)
  {
  }

  /** The body of `PUT /api/users`. An absent field is `None`; the userId 0
      is falsy and counts as missing. */
  datatype UserUpdate = UserUpdate(userId: Option<int>, role: Option<string>, blocked: Option<bool>)

  /** The `updateData` object: only the fields the request supplied. */
  datatype UserPatch = UserPatch(role: Option<Role>, blocked: Option<bool>)

  /** The guards of `PUT`, in order; `None` when all pass. */
  function Refusal(rows: seq<User>, session: Session, req: UserUpdate): (r: Option<Failure>)
    ensures r.None? ==> IsAdmin(session) && req.userId.Some? && req.userId.value != 0 &&
                        (req.role.Some? || req.blocked.Some?) &&
                        (req.role.Some? ==> req.role.value in {"ADMIN", "LANDLORD", "TENANT"}) &&
                        exists i :: 0 <= i < |rows| && rows[i].id == req.userId.value
    ensures r.Some? ==> r.value in {AdminRequired, MissingField, InvalidRole, UpdateFailed}
  {
    if !IsAdmin(session) then Some(AdminRequired)
    else if req.userId.None? || req.userId.value == 0 || (req.role.None? && req.blocked.None?) then
      Some(MissingField)
    else if req.role.Some? && ParseRole(req.role.value).None? then Some(InvalidRole)
    else if Store.IndexOf(rows, UserIdOf, req.userId.value).None? then Some(UpdateFailed)
    else None
  }

  /** The user row after the update: role only if given, blocked only if
      given, every other column as it was. */
  function Patched(u: User, req: UserUpdate): (v: User)
    ensures v.id == u.id && v.name == u.name && v.email == u.email && v.createdAt == u.createdAt
    ensures req.role.None? ==> v.role == u.role
    ensures req.role.Some? && ParseRole(req.role.value).Some? ==> v.role == ParseRole(req.role.value).value
    ensures v.blocked == if req.blocked.Some? then req.blocked.value else u.blocked
  {
    var role := if req.role.Some? && ParseRole(req.role.value).Some? then ParseRole(req.role.value).value else u.role;
    var blocked := if req.blocked.Some? then req.blocked.value else u.blocked;
    u.(role := role, blocked := blocked)
  }

  /** `PUT /api/users`: builds `updateData` field by field, then updates the
      one addressed row in place. A refused request changes nothing. */
  method Update(t: Store.UserTable, session: Session, req: UserUpdate) returns (r: Result<User>)
    requires t.Valid()
    modifies t
    ensures t.Valid()
    ensures r.Err? <==> Refusal(old(t.rows), session, req).Some?
    ensures r.Err? ==> r.failure == Refusal(old(t.rows), session, req).value && t.rows == old(t.rows)
    ensures r.Ok? ==> exists i :: 0 <= i < |old(t.rows)| && old(t.rows)[i].id == req.userId.value &&
                                  r.value == Patched(old(t.rows)[i], req) &&
                                  t.rows == old(t.rows)[i := r.value]
  {
    if session.None? || session.value.role != Role.Admin {
      return Err(AdminRequired);
    }
    if req.userId.None? || req.userId.value == 0 || (req.role.None? && req.blocked.None?) {
      return Err(MissingField);
    }
    var updateData := UserPatch(None, None);
    if req.role.Some? {
      var role := ParseRole(req.role.value);
      if role.None? {
        return Err(InvalidRole);
      }
      updateData := updateData.(role := role);
    }
    if req.blocked.Some? {
      updateData := updateData.(blocked := req.blocked);
    }
    var index := Store.IndexOf(t.rows, UserIdOf, req.userId.value);
    if index.None? {
      return Err(UpdateFailed);
    }
    var i := index.value;
    var user := t.rows[i];
    if updateData.role.Some? {
      user := user.(role := updateData.role.value);
    }
    if updateData.blocked.Some? {
      user := user.(blocked := updateData.blocked.value);
    }
    t.rows := t.rows[i := user];
    r := Ok(user);
  }
}
