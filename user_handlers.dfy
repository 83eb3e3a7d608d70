/**
  The user endpoints of the handlers generation (the files under handlers/User): each
  resolves the caller's tier from the bearer token and admits Admin only, then
  reads, inserts or updates the User table.
*/
module UserHandlers {
  import opened Wrappers
  import opened DbErrors
  import opened Store
  import opened Http
  import opened Auth
  import opened QueryBuilding
  import UserController

  /** The roles a user row joins with through FK_UserRole, in role order. */
  function RolesOf(u: UserRow, roles: seq<RoleRow>): (r: seq<UserWithRole>)
    ensures forall j :: j in r <==> j.user == u && j.role in roles && j.role.id == u.role
  {
    if roles == [] then []
    else (if roles[0].id == u.role then [UserWithRole(u, roles[0])] else []) + RolesOf(u, roles[1..])
  }

  /** `User u INNER JOIN UserRole ur ON u.FK_UserRole=ur.Id`, in user order. */
  function JoinUsers(users: seq<UserRow>, roles: seq<RoleRow>): (r: seq<UserWithRole>)
    ensures forall j :: j in r <==> j.user in users && j.role in roles && j.role.id == j.user.role
  {
    if users == [] then [] else RolesOf(users[0], roles) + JoinUsers(users[1..], roles)
  }

  /** The joined rows of the users with the given Id. */
  function JoinUsersWithId(users: seq<UserRow>, roles: seq<RoleRow>, id: string): (r: seq<UserWithRole>)
    ensures forall j :: j in r <==> j in JoinUsers(users, roles) && j.user.id == id
    ensures (forall u :: u in users ==> u.id != id) ==> r == []
  {
    if users == [] then []
    else (if users[0].id == id then RolesOf(users[0], roles) else []) + JoinUsersWithId(users[1..], roles, id)
  }

  /** The tier check shared by the user endpoints: resolve, then admit Admin only. */
  function AdminCheck(cfg: Config, tables: Tables, now: int, secret: string, authFault: Option<SqlError>)
    : (r: Option<Response>)
    ensures GetPermissionLevel(cfg, tables, now, secret, authFault) in {Ok(User), Ok(Supervisor)} ==>
      r == Some(Response(Unauthorized401, Error(New(Unauthorized))))
    ensures GetPermissionLevel(cfg, tables, now, secret, authFault).Err? ==>
      r == Some(ErrorResponse(GetPermissionLevel(cfg, tables, now, secret, authFault).error))
  {
    Gate(AdminOnly, GetPermissionLevelHttp(cfg, tables, now, secret, authFault))
  }

  /** A request passed the Admin check only if the token resolves to Admin. */
  lemma AdminCheckMeansAdmin(cfg: Config, tables: Tables, now: int, secret: string, authFault: Option<SqlError>)
    ensures AdminCheck(cfg, tables, now, secret, authFault).None? <==>
      GetPermissionLevel(cfg, tables, now, secret, authFault) == Ok(Admin)
  {
  }

  /**
    `getAllUsers`: a resolver error is returned unchanged, a non-Admin caller gets
    401; otherwise the joined rows, or 500 when the read fails.
  */
  function GetAllUsers(cfg: Config, tables: Tables, now: int, secret: string,
                       authFault: Option<SqlError>, readFault: Option<SqlError>): (r: Response)
    ensures AdminCheck(cfg, tables, now, secret, authFault).Some? ==>
      r == AdminCheck(cfg, tables, now, secret, authFault).value
    ensures r.status == Ok200 <==>
      GetPermissionLevel(cfg, tables, now, secret, authFault) == Ok(Admin) && readFault.None?
    ensures r.status == Ok200 ==> r.body == Users(JoinUsers(tables.users, tables.roles))
    ensures AdminCheck(cfg, tables, now, secret, authFault).None? && readFault.Some? ==>
      r == FromErrorInternal(readFault.value)
  {
    match AdminCheck(cfg, tables, now, secret, authFault)
    case Some(rejected) => rejected
    case None =>
      if readFault.Some? then FromErrorInternal(readFault.value)
      else Response(Ok200, Users(JoinUsers(tables.users, tables.roles)))
  }

  /** `getUserById`: as `getAllUsers`, restricted to one Id; an unknown Id gives 200 with an empty list. */
  function GetUserById(cfg: Config, tables: Tables, now: int, secret: string, id: string,
                       authFault: Option<SqlError>, readFault: Option<SqlError>): (r: Response)
    ensures AdminCheck(cfg, tables, now, secret, authFault).Some? ==>
      r == AdminCheck(cfg, tables, now, secret, authFault).value
    ensures r.status == Ok200 <==>
      GetPermissionLevel(cfg, tables, now, secret, authFault) == Ok(Admin) && readFault.None?
    ensures r.status == Ok200 ==> r.body == Users(JoinUsersWithId(tables.users, tables.roles, id))
    ensures r.status == Ok200 && (forall u :: u in tables.users ==> u.id != id) ==> r.body == Users([])
    ensures AdminCheck(cfg, tables, now, secret, authFault).None? && readFault.Some? ==>
      r == FromErrorInternal(readFault.value)
  {
    match AdminCheck(cfg, tables, now, secret, authFault)
    case Some(rejected) => rejected
    case None =>
      if readFault.Some? then FromErrorInternal(readFault.value)
      else Response(Ok200, Users(JoinUsersWithId(tables.users, tables.roles, id)))
  }

  /** The fields of a user to create. */
  datatype UserCreate = UserCreate(username: string, name: string, surname: string, password: string, role: string)

  /** The row `postUser` inserts: the password is stored as its hash under the pepper and `salt`. */
  function NewUserRow(cfg: Config, info: UserCreate, salt: string, newId: string): (u: UserRow)
    ensures u.password == cfg.hash(info.password, cfg.pepper, salt)
    ensures u.id == newId && u.username == info.username && u.name == info.name
    ensures u.surname == info.surname && u.role == info.role
  {
    UserRow(newId, info.username, info.name, info.surname, cfg.hash(info.password, cfg.pepper, salt), info.role)
  }

  /**
    `postUser`: `salt` is the drawn 64-character salt, `newId` the Id the database
    assigns, and `insertFault` the failure the INSERT reports. The source unwraps
    the failure as a database error, so any other failure is excluded here.
  */
  method PostUser(db: Database, cfg: Config, now: int, secret: string, info: UserCreate, salt: string,
                  newId: string, authFault: Option<SqlError>, insertFault: Option<SqlError>) returns (resp: Response)
    requires insertFault.None? || insertFault.value.Db?
    modifies db`users
    ensures AdminCheck(cfg, old(db.Snapshot()), now, secret, authFault).Some? ==>
      resp == AdminCheck(cfg, old(db.Snapshot()), now, secret, authFault).value && db.users == old(db.users)
    ensures AdminCheck(cfg, old(db.Snapshot()), now, secret, authFault).None? && insertFault.Some? ==>
      resp == Response(BadRequest400, Error(FromDatabaseError(insertFault.value.database))) &&
      db.users == old(db.users)
    ensures AdminCheck(cfg, old(db.Snapshot()), now, secret, authFault).None? && insertFault.None? ==>
      resp == Response(Created201, Empty) && db.users == old(db.users) + [NewUserRow(cfg, info, salt, newId)]
  {
    var rejected := AdminCheck(cfg, db.Snapshot(), now, secret, authFault);
    if rejected.Some? {
      resp := rejected.value;
    } else {
      var row := NewUserRow(cfg, info, salt, newId);
      if insertFault.Some? {
        resp := Response(BadRequest400, Error(FromDatabaseError(insertFault.value.database)));
      } else {
        db.users := db.users + [row];
        resp := Response(Created201, Empty);
      }
    }
  }

  /**
    `patchUser` (handlers): the Admin check, then the same builder and UPDATE as
    the controllers generation. A rejected caller changes nothing.
  */
  method PatchUser(db: Database, cfg: Config, now: int, secret: string, p: UserPatch, salt: string, id: string,
                   authFault: Option<SqlError>, execFault: Option<SqlError>) returns (resp: Response)
    modifies db`users
    ensures AdminCheck(cfg, old(db.Snapshot()), now, secret, authFault).Some? ==>
      resp == AdminCheck(cfg, old(db.Snapshot()), now, secret, authFault).value && db.users == old(db.users)
    ensures AdminCheck(cfg, old(db.Snapshot()), now, secret, authFault).None? && UserFieldCount(p) == 0 ==>
      resp == NoFieldsResponse && db.users == old(db.users)
    ensures AdminCheck(cfg, old(db.Snapshot()), now, secret, authFault).None? && UserFieldCount(p) > 0 ==>
      if execFault.Some? then
        resp == FromErrorDatabase(execFault.value) && db.users == old(db.users)
      else
        resp == Response(Ok200, Empty) &&
        db.users == UserController.UpdateUsers(old(db.users), id, UserAssignments(cfg, p, salt))
  {
    var rejected := AdminCheck(cfg, db.Snapshot(), now, secret, authFault);
    if rejected.Some? {
      resp := rejected.value;
    } else {
      resp := UserController.PatchUser(db, cfg, p, salt, id, execFault);
    }
  }

  /**
    A role patch takes effect on the very next request of the patched user:
    a token issued before the patch resolves to the tier of the new role.
  */
  lemma PatchedRoleResolves(cfg: Config, tables: Tables, now: int, secret: string, p: UserPatch, salt: string,
                            id: string, newRole: RoleRow)
    requires exists t :: t in tables.tokens && Live(t, cfg.digest(secret), now)
    requires forall t :: t in tables.tokens && Live(t, cfg.digest(secret), now) ==> t.owner == id
    requires FindUser(tables.users, id).Some?
    requires p.role == Some(newRole.id) && FindRole(tables.roles, newRole.id) == Some(newRole)
    ensures GetPermissionLevel(cfg,
      tables.(users := UserController.UpdateUsers(tables.users, id, UserAssignments(cfg, p, salt))),
      now, secret, None) == Ok(LevelFromInt(newRole.level))
  {
    var users' := UserController.UpdateUsers(tables.users, id, UserAssignments(cfg, p, salt));
    UserController.FindUpdated(tables.users, id, UserAssignments(cfg, p, salt));
    UserController.PatchEffect(cfg, FindUser(tables.users, id).value, p, salt);
    assert FindUser(users', id).value.role == newRole.id;
    LiveRoleResolution(cfg, tables.(users := users'), now, secret, id, newRole.level);
  }
}
