/**
  Bearer-token authentication and permission resolution (shared/auth.rs), and
  the per-route tier checks the handlers apply to the resolved tier.
  A presented secret is hashed with the token digest and looked up among the
  Token rows whose DateEnd lies strictly after `now`; the Type column is not
  consulted, so refresh and access tokens pass alike.
*/
module Auth {
  import opened Wrappers
  import opened DbErrors
  import opened Store
  import opened Http

  /** The permission tiers, ordered User < Supervisor < Admin. */
  datatype PermissionLevel = User | Supervisor | Admin

  function Rank(p: PermissionLevel): (n: nat)
  {
    match p
    case User => 0
    case Supervisor => 1
    case Admin => 2
  }

  /** The derived order on tiers: `a < b`. */
  predicate Below(a: PermissionLevel, b: PermissionLevel)
  {
    Rank(a) < Rank(b)
  }

  /** The map from a UserRole's PermissionLevel column to a tier; it is total and fails closed. */
  function LevelFromInt(n: int): (p: PermissionLevel)
    ensures p == Supervisor <==> n == 1
    ensures p == Admin <==> n == 2
    ensures p == User <==> n != 1 && n != 2
  {
    match n
    case 1 => Supervisor
    case 2 => Admin
    case _ => User
  }

  /** A token row that matches digest `d` and has not expired at `now`. */
  predicate Live(t: TokenRow, d: string, now: int)
  {
    t.digest == d && now < t.dateEnd
  }

  /** The first live row for `d` in table order, as `fetch_one` takes it. */
  function FirstLive(tokens: seq<TokenRow>, d: string, now: int): (r: Option<TokenRow>)
    ensures r.Some? ==> r.value in tokens && Live(r.value, d, now)
    ensures r.None? <==> forall t :: t in tokens ==> !Live(t, d, now)
  {
    if tokens == [] then None
    else if Live(tokens[0], d, now) then Some(tokens[0])
    else FirstLive(tokens[1..], d, now)
  }

  /** The first user whose Id is `id`. */
  function FindUser(users: seq<UserRow>, id: string): (r: Option<UserRow>)
    ensures r.Some? ==> r.value in users && r.value.id == id
    ensures r.None? <==> forall u :: u in users ==> u.id != id
  {
    if users == [] then None
    else if users[0].id == id then Some(users[0])
    else FindUser(users[1..], id)
  }

  /** The first role whose Id is `id`. */
  function FindRole(roles: seq<RoleRow>, id: string): (r: Option<RoleRow>)
    ensures r.Some? ==> r.value in roles && r.value.id == id
    ensures r.None? <==> forall ro :: ro in roles ==> ro.id != id
  {
    if roles == [] then None
    else if roles[0].id == id then Some(roles[0])
    else FindRole(roles[1..], id)
  }

  /** The PermissionLevel reached from a user Id through User.FK_UserRole, as the join reads it now. */
  function RoleLevelOf(tables: Tables, owner: string): (r: Option<int>)
    ensures r.Some? <==>
      FindUser(tables.users, owner).Some? && FindRole(tables.roles, FindUser(tables.users, owner).value.role).Some?
    ensures r.Some? ==>
      exists u, ro :: u in tables.users && u.id == owner && ro in tables.roles && ro.id == u.role && ro.level == r.value
  {
    match FindUser(tables.users, owner)
    case None => None
    case Some(u) =>
      match FindRole(tables.roles, u.role)
      case None => None
      case Some(ro) => Some(ro.level)
  }

  /** The level of the first row of the Token-User-UserRole inner join for digest `d`. */
  function JoinedLevel(tables: Tables, tokens: seq<TokenRow>, d: string, now: int): (r: Option<int>)
    ensures r.Some? ==> exists t :: t in tokens && Live(t, d, now) && RoleLevelOf(tables, t.owner) == r
    ensures r.None? <==> forall t :: t in tokens && Live(t, d, now) ==> RoleLevelOf(tables, t.owner).None?
  {
    if tokens == [] then None
    else if Live(tokens[0], d, now) && RoleLevelOf(tables, tokens[0].owner).Some? then
      RoleLevelOf(tables, tokens[0].owner)
    else
      JoinedLevel(tables, tokens[1..], d, now)
  }

  /**
    How a lookup failure is reported: the driver's "no rows" text means Unauthorized,
    whatever the cause (wrong, expired or never issued secret); any other failure is
    InternalServerError carrying the failure's text.
  */
  function LookupError(e: SqlError): (r: PickUpError)
    ensures r.code == Unauthorized <==> ErrorText(e) == NoRowsText
    ensures r.code == Unauthorized ==> r == New(Unauthorized)
    ensures r.code != Unauthorized ==> r == NewMessage(InternalServerError, ErrorText(e))
  {
    if ErrorText(e) == NoRowsText then New(Unauthorized)
    else NewMessage(InternalServerError, ErrorText(e))
  }

  /**
    `authenticate`: `fault` is the failure the query reports instead of a result
    (connection lost, ...), `None` when the store answers.
  */
  function Authenticate(cfg: Config, tables: Tables, now: int, secret: string, fault: Option<SqlError>)
    : (r: Result<bool, PickUpError>)
    ensures r.Ok? <==> fault.None? && exists t :: t in tables.tokens && Live(t, cfg.digest(secret), now)
    ensures r.Ok? ==> r.value
    ensures fault.None? && r.Err? ==> r.error == New(Unauthorized)
    ensures fault.Some? ==> r == Err(LookupError(fault.value))
  {
    if fault.Some? then Err(LookupError(fault.value))
    else match FirstLive(tables.tokens, cfg.digest(secret), now)
      case None => Err(LookupError(RowNotFound))
      case Some(_) => Ok(true)
  }

  /** The response for an authentication error: 401 for Unauthorized, 500 for anything else. */
  function ErrorResponse(e: PickUpError): (r: Response)
    ensures r.status == Unauthorized401 <==> e.code == Unauthorized
    ensures r.status == Unauthorized401 || r.status == InternalError500
    ensures r.body == Error(e)
  {
    if e.code == Unauthorized then Response(Unauthorized401, Error(e))
    else Response(InternalError500, Error(e))
  }

  /** `authenticateHttp`: no response means authenticated. */
  function AuthenticateHttp(cfg: Config, tables: Tables, now: int, secret: string, fault: Option<SqlError>)
    : (r: Option<Response>)
    ensures r.None? <==> fault.None? && exists t :: t in tables.tokens && Live(t, cfg.digest(secret), now)
    ensures r.Some? ==> r.value == ErrorResponse(Authenticate(cfg, tables, now, secret, fault).error)
  {
    match Authenticate(cfg, tables, now, secret, fault)
    case Err(e) => Some(ErrorResponse(e))
    case Ok(_) => None
  }

  /** `getPermissionLevel`: the tier of the presented token's owner, read through the live join. */
  function GetPermissionLevel(cfg: Config, tables: Tables, now: int, secret: string, fault: Option<SqlError>)
    : (r: Result<PermissionLevel, PickUpError>)
    ensures fault.Some? ==> r == Err(LookupError(fault.value))
    ensures fault.None? ==> (r.Err? <==>
      forall t :: t in tables.tokens && Live(t, cfg.digest(secret), now) ==> RoleLevelOf(tables, t.owner).None?)
    ensures fault.None? && r.Err? ==> r.error == New(Unauthorized)
    ensures r.Ok? ==>
      exists t, l :: t in tables.tokens && Live(t, cfg.digest(secret), now) &&
        RoleLevelOf(tables, t.owner) == Some(l) && r.value == LevelFromInt(l)
  {
    if fault.Some? then Err(LookupError(fault.value))
    else match JoinedLevel(tables, tables.tokens, cfg.digest(secret), now)
      case None => Err(LookupError(RowNotFound))
      case Some(l) => Ok(LevelFromInt(l))
  }

  /** `getPermissionLevelHttp`: the tier unchanged, or the error response. */
  function GetPermissionLevelHttp(cfg: Config, tables: Tables, now: int, secret: string, fault: Option<SqlError>)
    : (r: Result<PermissionLevel, Response>)
    ensures GetPermissionLevel(cfg, tables, now, secret, fault).Ok? ==>
      r == Ok(GetPermissionLevel(cfg, tables, now, secret, fault).value)
    ensures GetPermissionLevel(cfg, tables, now, secret, fault).Err? ==>
      r == Err(ErrorResponse(GetPermissionLevel(cfg, tables, now, secret, fault).error))
  {
    match GetPermissionLevel(cfg, tables, now, secret, fault)
    case Err(e) => Err(ErrorResponse(e))
    case Ok(p) => Ok(p)
  }

  // ---------------------------------------------------------------------------
  // Route requirements
  // ---------------------------------------------------------------------------

  /** What a handler demands of the resolved tier: `!= Admin` rejects, or `< Supervisor` rejects. */
  datatype Requirement = AdminOnly | SupervisorOrAbove

  predicate Allows(req: Requirement, p: PermissionLevel)
  {
    match req
    case AdminOnly => p == Admin
    case SupervisorOrAbove => !Below(p, Supervisor)
  }

  /** The handler's check: `None` lets the request through to the query. */
  function Gate(req: Requirement, resolved: Result<PermissionLevel, Response>): (r: Option<Response>)
    ensures r.None? <==> resolved.Ok? && Allows(req, resolved.value)
    ensures resolved.Err? ==> r == Some(resolved.error)
    ensures resolved.Ok? && !Allows(req, resolved.value) ==>
      r == Some(Response(Unauthorized401, Error(New(Unauthorized))))
  {
    match resolved
    case Err(e) => Some(e)
    case Ok(p) => if Allows(req, p) then None else Some(Response(Unauthorized401, Error(New(Unauthorized))))
  }

  // ---------------------------------------------------------------------------
  // Properties
  // ---------------------------------------------------------------------------

  /** Admin-only routes admit Admin alone; Supervisor-or-above routes admit Supervisor and Admin. */
  lemma RequirementTiers(p: PermissionLevel)
    ensures Allows(AdminOnly, p) <==> p == Admin
    ensures Allows(SupervisorOrAbove, p) <==> p == Supervisor || p == Admin
    ensures Allows(AdminOnly, p) ==> Allows(SupervisorOrAbove, p)
  {
  }

  /** A token resolving to a role level passes the Admin gate iff the level is 2, the Supervisor gate iff it is 1 or 2. */
  lemma ResolvedLevelGates(cfg: Config, tables: Tables, now: int, secret: string, level: int)
    requires GetPermissionLevel(cfg, tables, now, secret, None) == Ok(LevelFromInt(level))
    ensures Gate(AdminOnly, GetPermissionLevelHttp(cfg, tables, now, secret, None)).None? <==> level == 2
    ensures Gate(SupervisorOrAbove, GetPermissionLevelHttp(cfg, tables, now, secret, None)).None? <==>
      level == 1 || level == 2
  {
  }

  /** A row whose DateEnd equals `now` is already expired: acceptance is strictly before DateEnd. */
  lemma ExpiryIsStrict(cfg: Config, tables: Tables, now: int, secret: string)
    requires forall t :: t in tables.tokens && t.digest == cfg.digest(secret) ==> t.dateEnd <= now
    ensures Authenticate(cfg, tables, now, secret, None) == Err(New(Unauthorized))
    ensures GetPermissionLevel(cfg, tables, now, secret, None) == Err(New(Unauthorized))
  {
  }

  /** Expiry is final: a row live at some time was live at every earlier time, so no later request revives it. */
  lemma ExpiryIsFinal(t: TokenRow, d: string, now: int, later: int)
    requires now <= later
    ensures Live(t, d, later) ==> Live(t, d, now)
    ensures !Live(t, d, now) ==> !Live(t, d, later)
  {
  }

  /** The tier is that of the owner's current role, when every live row for the secret has that owner. */
  lemma LiveRoleResolution(cfg: Config, tables: Tables, now: int, secret: string, owner: string, level: int)
    requires exists t :: t in tables.tokens && Live(t, cfg.digest(secret), now)
    requires forall t :: t in tables.tokens && Live(t, cfg.digest(secret), now) ==> t.owner == owner
    requires RoleLevelOf(tables, owner) == Some(level)
    ensures GetPermissionLevel(cfg, tables, now, secret, None) == Ok(LevelFromInt(level))
  {
  }

  /**
    Changing the owner's role between two requests changes the tier the same,
    already issued token resolves to: nothing is cached in the token.
  */
  lemma RoleChangeTakesEffect(cfg: Config, tables: Tables, users': seq<UserRow>, now: int, secret: string,
                              owner: string, before: int, after: int)
    requires exists t :: t in tables.tokens && Live(t, cfg.digest(secret), now)
    requires forall t :: t in tables.tokens && Live(t, cfg.digest(secret), now) ==> t.owner == owner
    requires RoleLevelOf(tables, owner) == Some(before)
    requires RoleLevelOf(tables.(users := users'), owner) == Some(after)
    requires LevelFromInt(before) != LevelFromInt(after)
    ensures GetPermissionLevel(cfg, tables, now, secret, None) == Ok(LevelFromInt(before))
    ensures GetPermissionLevel(cfg, tables.(users := users'), now, secret, None) == Ok(LevelFromInt(after))
    ensures GetPermissionLevel(cfg, tables, now, secret, None) !=
            GetPermissionLevel(cfg, tables.(users := users'), now, secret, None)
  {
    LiveRoleResolution(cfg, tables, now, secret, owner, before);
    LiveRoleResolution(cfg, tables.(users := users'), now, secret, owner, after);
  }

  /** A live refresh row (Type 1) passes authentication just like an access row: Type is not checked. */
  lemma AnyTypePasses(cfg: Config, tables: Tables, now: int, secret: string, t: TokenRow)
    requires t in tables.tokens && Live(t, cfg.digest(secret), now)
    ensures Authenticate(cfg, tables, now, secret, None) == Ok(true)
  {
  }
}
