/**
  The session protocol: `login` (handlers/Token/login.rs) checks a username and
  password and issues a token with the client-chosen lifetime; `access`
  (controllers/Token/access.rs) exchanges a live refresh token for a new access
  token of fixed lifetime. Each successful issuance appends exactly one Token row.
*/
module Session {
  import opened Wrappers
  import opened DbErrors
  import opened Store
  import opened Http
  import opened Auth

  /** Lifetime of an access token, in seconds. */
  const AccessTtl: int := 3600

  // ---------------------------------------------------------------------------
  // Refresh-to-access exchange
  // ---------------------------------------------------------------------------

  /** A row the exchange accepts: Type 1, matching digest, not expired. */
  predicate LiveRefresh(t: TokenRow, d: string, now: int)
  {
    t.kind == RefreshType && Live(t, d, now)
  }

  /** `SELECT * FROM Token WHERE Type=1 AND Token=? AND DateEnd > NOW()` with `fetch_one`. */
  function FirstLiveRefresh(tokens: seq<TokenRow>, d: string, now: int): (r: Option<TokenRow>)
    ensures r.Some? ==> r.value in tokens && LiveRefresh(r.value, d, now)
    ensures r.None? <==> forall t :: t in tokens ==> !LiveRefresh(t, d, now)
  {
    if tokens == [] then None
    else if LiveRefresh(tokens[0], d, now) then Some(tokens[0])
    else FirstLiveRefresh(tokens[1..], d, now)
  }

  /**
    The exchange up to issuance: the refresh row to extend, or the response.
    A missing bearer is 400 before any query; "no rows" is 401; any other
    failure of the select is 500 with its text.
  */
  function AccessLookup(cfg: Config, tables: Tables, now: int, bearer: Option<string>, fault: Option<SqlError>)
    : (r: Result<TokenRow, Response>)
    ensures bearer.None? ==> r == Err(Response(BadRequest400, Error(New(BadRequest))))
    ensures bearer.Some? && fault.Some? ==> r == Err(ErrorResponse(LookupError(fault.value)))
    ensures bearer.Some? && fault.None? ==>
      (r.Ok? <==> exists t :: t in tables.tokens && LiveRefresh(t, cfg.digest(bearer.value), now))
    ensures bearer.Some? && fault.None? && r.Err? ==> r.error == Response(Unauthorized401, Error(New(Unauthorized)))
    ensures r.Ok? ==> bearer.Some? && r.value in tables.tokens && LiveRefresh(r.value, cfg.digest(bearer.value), now)
  {
    match bearer
    case None => Err(Response(BadRequest400, Error(New(BadRequest))))
    case Some(secret) =>
      if fault.Some? then Err(ErrorResponse(LookupError(fault.value)))
      else match FirstLiveRefresh(tables.tokens, cfg.digest(secret), now)
        case None => Err(ErrorResponse(LookupError(RowNotFound)))
        case Some(t) => Ok(t)
  }

  /** The access row issued from a refresh row: Type 0, same DeviceInfo and owner, one hour of validity. */
  function AccessRow(cfg: Config, refresh: TokenRow, secret: string, now: int): (t: TokenRow)
    ensures t.kind == AccessType && t.digest == cfg.digest(secret)
    ensures t.deviceInfo == refresh.deviceInfo && t.owner == refresh.owner
    ensures t.dateEnd == now + AccessTtl
  {
    TokenRow(cfg.digest(secret), AccessType, refresh.deviceInfo, now + AccessTtl, refresh.owner)
  }

  /**
    `access`: `secret` is the freshly generated token, `selectFault` and
    `insertFault` the failures the two statements report, if any.
    The refresh row itself is left in place and unchanged.
  */
  method Access(db: Database, cfg: Config, now: int, bearer: Option<string>, secret: string,
                selectFault: Option<SqlError>, insertFault: Option<SqlError>) returns (resp: Response)
    modifies db`tokens
    ensures AccessLookup(cfg, old(db.Snapshot()), now, bearer, selectFault).Err? ==>
      resp == AccessLookup(cfg, old(db.Snapshot()), now, bearer, selectFault).error &&
      db.tokens == old(db.tokens)
    ensures AccessLookup(cfg, old(db.Snapshot()), now, bearer, selectFault).Ok? && insertFault.Some? ==>
      resp == FromErrorDatabase(insertFault.value) && db.tokens == old(db.tokens)
    ensures AccessLookup(cfg, old(db.Snapshot()), now, bearer, selectFault).Ok? && insertFault.None? ==>
      resp == Response(Created201, TokenOnly(secret)) &&
      db.tokens == old(db.tokens) +
        [AccessRow(cfg, AccessLookup(cfg, old(db.Snapshot()), now, bearer, selectFault).value, secret, now)]
  {
    var looked := AccessLookup(cfg, db.Snapshot(), now, bearer, selectFault);
    match looked {
      case Err(e) =>
        resp := e;
      case Ok(refresh) =>
        if insertFault.Some? {
          resp := FromErrorDatabase(insertFault.value);
        } else {
          db.tokens := db.tokens + [AccessRow(cfg, refresh, secret, now)];
          resp := Response(Created201, TokenOnly(secret));
        }
    }
  }

  // ---------------------------------------------------------------------------
  // Login
  // ---------------------------------------------------------------------------

  /** The first user with the given Username, as `fetch_one` takes it. */
  function FindUserByName(users: seq<UserRow>, name: string): (r: Option<UserRow>)
    ensures r.Some? ==> r.value in users && r.value.username == name
    ensures r.None? <==> forall u :: u in users ==> u.username != name
  {
    if users == [] then None
    else if users[0].username == name then Some(users[0])
    else FindUserByName(users[1..], name)
  }

  /** The response to a failed credential check. */
  const IncorrectCredentialsResponse: Response := Response(BadRequest400, Error(New(IncorectCredentials)))

  /** An issued access row is never itself exchangeable: the exchange admits Type 1 rows only. */
  lemma AccessRowCannotRefresh(cfg: Config, refresh: TokenRow, secret: string, issued: int, d: string, now: int)
    ensures !LiveRefresh(AccessRow(cfg, refresh, secret, issued), d, now)
  {
  }

  /**
    The credential check of `login`: the user whose credentials are correct, or
    the response. An unknown username gives the same response as a wrong password,
    and a verifier error gives 500.
  */
  function LoginCheck(cfg: Config, tables: Tables, username: string, password: string, fault: Option<SqlError>)
    : (r: Result<UserRow, Response>)
    ensures fault.Some? ==> r == Err(FromErrorIncorectCredentials(fault.value))
    ensures fault.None? && FindUserByName(tables.users, username).None? ==> r == Err(IncorrectCredentialsResponse)
    ensures r.Ok? <==>
      && fault.None?
      && FindUserByName(tables.users, username).Some?
      && cfg.verify(password, FindUserByName(tables.users, username).value.password, cfg.pepper) == Ok(true)
    ensures r.Ok? ==> r.value == FindUserByName(tables.users, username).value
    ensures r.Ok? ==> r.value in tables.users && r.value.username == username
    ensures fault.None? && FindUserByName(tables.users, username).Some? ==>
      match cfg.verify(password, FindUserByName(tables.users, username).value.password, cfg.pepper)
      case Err(h) => r == Err(Response(InternalError500, HashingFailed(h)))
      case Ok(correct) => !correct ==> r == Err(IncorrectCredentialsResponse)
  {
    if fault.Some? then Err(FromErrorIncorectCredentials(fault.value))
    else match FindUserByName(tables.users, username)
      case None => Err(FromErrorIncorectCredentials(RowNotFound))
      case Some(u) =>
        match cfg.verify(password, u.password, cfg.pepper)
        case Err(h) => Err(Response(InternalError500, HashingFailed(h)))
        case Ok(correct) => if correct then Ok(u) else Err(IncorrectCredentialsResponse)
  }

  /**
    The row a login inserts. Type and DeviceInfo are left to the schema's
    column defaults; DateEnd is `now` plus the requested lifetime.
  */
  function LoginRow(cfg: Config, u: UserRow, secret: string, now: int, active: nat): (t: TokenRow)
    ensures t.digest == cfg.digest(secret) && t.owner == u.id && t.dateEnd == now + active
    ensures t.kind == cfg.defaultTokenType && t.deviceInfo == cfg.defaultDeviceInfo
  {
    TokenRow(cfg.digest(secret), cfg.defaultTokenType, cfg.defaultDeviceInfo, now + active, u.id)
  }

  /**
    `login`: `active` is the requested lifetime (a u32), `secret` the freshly
    generated token, `userFault` and `insertFault` the failures the two
    statements report, if any.
  */
  method Login(db: Database, cfg: Config, now: int, username: string, password: string, active: nat,
               secret: string, userFault: Option<SqlError>, insertFault: Option<SqlError>) returns (resp: Response)
    requires active < 0x1_0000_0000
    modifies db`tokens
    ensures LoginCheck(cfg, old(db.Snapshot()), username, password, userFault).Err? ==>
      resp == LoginCheck(cfg, old(db.Snapshot()), username, password, userFault).error &&
      db.tokens == old(db.tokens)
    ensures LoginCheck(cfg, old(db.Snapshot()), username, password, userFault).Ok? && insertFault.Some? ==>
      resp == FromErrorDatabase(insertFault.value) && db.tokens == old(db.tokens)
    ensures LoginCheck(cfg, old(db.Snapshot()), username, password, userFault).Ok? && insertFault.None? ==>
      resp == Response(Created201, TokenOnly(secret)) &&
      db.tokens == old(db.tokens) +
        [LoginRow(cfg, LoginCheck(cfg, old(db.Snapshot()), username, password, userFault).value, secret, now, active)]
  {
    var checked := LoginCheck(cfg, db.Snapshot(), username, password, userFault);
    match checked {
      case Err(e) =>
        resp := e;
      case Ok(u) =>
        if insertFault.Some? {
          resp := FromErrorDatabase(insertFault.value);
        } else {
          db.tokens := db.tokens + [LoginRow(cfg, u, secret, now, active)];
          resp := Response(Created201, TokenOnly(secret));
        }
    }
  }

  // ---------------------------------------------------------------------------
  // Properties
  // ---------------------------------------------------------------------------

  /**
    An unknown username, and any other failure that is not a database error,
    is answered exactly like a wrong password.
  */
  lemma UnknownUserLooksLikeWrongPassword(cfg: Config, tables: Tables, tables': Tables,
                                          username: string, password: string, fault: Option<SqlError>)
    requires fault.None? ==> FindUserByName(tables.users, username).None?
    requires fault.Some? ==> !fault.value.Db?
    requires FindUserByName(tables'.users, username).Some?
    requires cfg.verify(password, FindUserByName(tables'.users, username).value.password, cfg.pepper) == Ok(false)
    ensures LoginCheck(cfg, tables, username, password, fault) == LoginCheck(cfg, tables', username, password, None)
    ensures LoginCheck(cfg, tables, username, password, fault) == Err(IncorrectCredentialsResponse)
  {
  }

  /** A refresh row is extended to an access row of the same owner, issued for a fresh secret. */
  lemma {:induction false} IssuedRowIsFound(tokens: seq<TokenRow>, t: TokenRow, d: string, now: int)
    requires forall u :: u in tokens ==> u.digest != d
    requires LiveRefresh(t, d, now)
    ensures FirstLiveRefresh(tokens + [t], d, now) == Some(t)
  {
    var r := FirstLiveRefresh(tokens + [t], d, now);
    assert r.Some?;
    assert r.value in tokens + [t];
  }

  /**
    A request with a freshly issued access secret, within its hour, resolves to
    the tier of its owner's current role.
  */
  lemma AccessSecretResolves(cfg: Config, tables: Tables, refresh: TokenRow, s2: string, t1: int, t2: int,
                             level: int)
    requires t1 <= t2 < t1 + AccessTtl
    requires forall t :: t in tables.tokens ==> t.digest != cfg.digest(s2)
    requires RoleLevelOf(tables, refresh.owner) == Some(level)
    ensures GetPermissionLevel(cfg, tables.(tokens := tables.tokens + [refresh, AccessRow(cfg, refresh, s2, t1)]),
      t2, s2, None) == Ok(LevelFromInt(level))
  {
    var access := AccessRow(cfg, refresh, s2, t1);
    var tables2 := tables.(tokens := tables.tokens + [refresh, access]);
    assert RoleLevelOf(tables2, refresh.owner) == Some(level);
    assert access in tables2.tokens;
    forall t | t in tables2.tokens && Live(t, cfg.digest(s2), t2) ensures t.owner == refresh.owner {
      assert t == refresh || t == access;
    }
    LiveRoleResolution(cfg, tables2, t2, s2, refresh.owner, level);
  }

  /**
    The whole flow: a correct login with a refresh-typed row, then an exchange
    within the refresh lifetime, then a request within the hour with the new
    access secret. The request resolves to the owner's own tier, so the gate
    for that tier lets it through. The secrets are assumed fresh: no earlier
    row carries their digests.
  */
  lemma LoginAccessGate(cfg: Config, tables: Tables, now: int, username: string, password: string, active: nat,
                        s1: string, s2: string, t1: int, t2: int, u: UserRow, level: int)
    requires cfg.defaultTokenType == RefreshType
    requires LoginCheck(cfg, tables, username, password, None) == Ok(u)
    requires RoleLevelOf(tables, u.id) == Some(level)
    requires now <= t1 < now + active
    requires t1 <= t2 < t1 + AccessTtl
    requires forall t :: t in tables.tokens ==> t.digest != cfg.digest(s1) && t.digest != cfg.digest(s2)
    ensures
      var refresh := LoginRow(cfg, u, s1, now, active);
      var tables1 := tables.(tokens := tables.tokens + [refresh]);
      var tables2 := tables1.(tokens := tables1.tokens + [AccessRow(cfg, refresh, s2, t1)]);
      && AccessLookup(cfg, tables1, t1, Some(s1), None) == Ok(refresh)
      && GetPermissionLevel(cfg, tables2, t2, s2, None) == Ok(LevelFromInt(level))
      && (Gate(AdminOnly, GetPermissionLevelHttp(cfg, tables2, t2, s2, None)).None? <==> level == 2)
      && (Gate(SupervisorOrAbove, GetPermissionLevelHttp(cfg, tables2, t2, s2, None)).None? <==>
          level == 1 || level == 2)
  {
    var refresh := LoginRow(cfg, u, s1, now, active);
    var tables1 := tables.(tokens := tables.tokens + [refresh]);
    IssuedRowIsFound(tables.tokens, refresh, cfg.digest(s1), t1);
    var access := AccessRow(cfg, refresh, s2, t1);
    assert tables1.tokens + [access] == tables.tokens + [refresh, access];
    AccessSecretResolves(cfg, tables, refresh, s2, t1, t2, level);
    ResolvedLevelGates(cfg, tables1.(tokens := tables1.tokens + [access]), t2, s2, level);
  }
}
