/**
  The zip-code endpoints of the handlers generation (the files under
  handlers/ZipCode): writes admit Supervisor and Admin (a tier below Supervisor
  is rejected), reads need only a live token of any tier.
*/
module ZipCodeHandlers {
  import opened Wrappers
  import opened DbErrors
  import opened Store
  import opened Http
  import opened Auth
  import opened QueryBuilding
  import ZipCodeController

  /** The tier check shared by the zip-code writes: resolve, then reject a tier below Supervisor. */
  function SupervisorCheck(cfg: Config, tables: Tables, now: int, secret: string, authFault: Option<SqlError>)
    : (r: Option<Response>)
    ensures GetPermissionLevel(cfg, tables, now, secret, authFault) == Ok(User) ==>
      r == Some(Response(Unauthorized401, Error(New(Unauthorized))))
    ensures GetPermissionLevel(cfg, tables, now, secret, authFault).Err? ==>
      r == Some(ErrorResponse(GetPermissionLevel(cfg, tables, now, secret, authFault).error))
  {
    Gate(SupervisorOrAbove, GetPermissionLevelHttp(cfg, tables, now, secret, authFault))
  }

  /** A request passed the Supervisor check exactly when the token resolves to Supervisor or Admin. */
  lemma SupervisorCheckTiers(cfg: Config, tables: Tables, now: int, secret: string, authFault: Option<SqlError>)
    ensures SupervisorCheck(cfg, tables, now, secret, authFault).None? <==>
      GetPermissionLevel(cfg, tables, now, secret, authFault) in {Ok(Supervisor), Ok(Admin)}
  {
  }

  /** `postZipCode`: one row `(Number, City)` is inserted; `newId` is the Id the database assigns. */
  method PostZipCode(db: Database, cfg: Config, now: int, secret: string, number: int, city: string,
                     newId: string, authFault: Option<SqlError>, insertFault: Option<SqlError>) returns (resp: Response)
    modifies db`zipCodes
    ensures SupervisorCheck(cfg, old(db.Snapshot()), now, secret, authFault).Some? ==>
      resp == SupervisorCheck(cfg, old(db.Snapshot()), now, secret, authFault).value &&
      db.zipCodes == old(db.zipCodes)
    ensures SupervisorCheck(cfg, old(db.Snapshot()), now, secret, authFault).None? && insertFault.Some? ==>
      resp == FromErrorDatabase(insertFault.value) && db.zipCodes == old(db.zipCodes)
    ensures SupervisorCheck(cfg, old(db.Snapshot()), now, secret, authFault).None? && insertFault.None? ==>
      resp == Response(Created201, Empty) && db.zipCodes == old(db.zipCodes) + [ZipCodeRow(newId, number, city)]
  {
    var rejected := SupervisorCheck(cfg, db.Snapshot(), now, secret, authFault);
    if rejected.Some? {
      resp := rejected.value;
    } else if insertFault.Some? {
      resp := FromErrorDatabase(insertFault.value);
    } else {
      db.zipCodes := db.zipCodes + [ZipCodeRow(newId, number, city)];
      resp := Response(Created201, Empty);
    }
  }

  /** `DELETE FROM ZipCode WHERE Id=id`: the rows with another Id, in their order. */
  function WithoutId(zs: seq<ZipCodeRow>, id: string): (r: seq<ZipCodeRow>)
    ensures forall z :: z in r <==> z in zs && z.id != id
    ensures |r| <= |zs|
    ensures (forall z :: z in zs ==> z.id != id) ==> r == zs
  {
    if zs == [] then []
    else if zs[0].id == id then WithoutId(zs[1..], id)
    else [zs[0]] + WithoutId(zs[1..], id)
  }

  /** Deleting keeps the order of the remaining rows: deleting from a concatenation deletes from each part. */
  lemma {:induction false} WithoutIdAppend(a: seq<ZipCodeRow>, b: seq<ZipCodeRow>, id: string)
    ensures WithoutId(a + b, id) == WithoutId(a, id) + WithoutId(b, id)
    decreases |a|
  {
    if a == [] {
      assert a + b == b;
    } else {
      assert (a + b)[1..] == a[1..] + b;
      WithoutIdAppend(a[1..], b, id);
    }
  }

  /**
    `deleteZipCode`: the affected-row count is not checked, so a delete that
    matches no row still answers 200.
  */
  method DeleteZipCode(db: Database, cfg: Config, now: int, secret: string, id: string,
                       authFault: Option<SqlError>, execFault: Option<SqlError>) returns (resp: Response)
    modifies db`zipCodes
    ensures SupervisorCheck(cfg, old(db.Snapshot()), now, secret, authFault).Some? ==>
      resp == SupervisorCheck(cfg, old(db.Snapshot()), now, secret, authFault).value &&
      db.zipCodes == old(db.zipCodes)
    ensures SupervisorCheck(cfg, old(db.Snapshot()), now, secret, authFault).None? && execFault.Some? ==>
      resp == FromErrorDatabase(execFault.value) && db.zipCodes == old(db.zipCodes)
    ensures SupervisorCheck(cfg, old(db.Snapshot()), now, secret, authFault).None? && execFault.None? ==>
      resp == Response(Ok200, Empty) && db.zipCodes == WithoutId(old(db.zipCodes), id)
  {
    var rejected := SupervisorCheck(cfg, db.Snapshot(), now, secret, authFault);
    if rejected.Some? {
      resp := rejected.value;
    } else if execFault.Some? {
      resp := FromErrorDatabase(execFault.value);
    } else {
      db.zipCodes := WithoutId(db.zipCodes, id);
      resp := Response(Ok200, Empty);
    }
  }

  /**
    `patchZipCode` (handlers): the Supervisor check, then the same builder and
    UPDATE as the controllers generation. A rejected caller changes nothing.
  */
  method PatchZipCode(db: Database, cfg: Config, now: int, secret: string, p: ZipCodePatch, id: string,
                      authFault: Option<SqlError>, execFault: Option<SqlError>) returns (resp: Response)
    modifies db`zipCodes
    ensures SupervisorCheck(cfg, old(db.Snapshot()), now, secret, authFault).Some? ==>
      resp == SupervisorCheck(cfg, old(db.Snapshot()), now, secret, authFault).value &&
      db.zipCodes == old(db.zipCodes)
    ensures SupervisorCheck(cfg, old(db.Snapshot()), now, secret, authFault).None? && ZipCodeFieldCount(p) == 0 ==>
      resp == NoFieldsResponse && db.zipCodes == old(db.zipCodes)
    ensures SupervisorCheck(cfg, old(db.Snapshot()), now, secret, authFault).None? && ZipCodeFieldCount(p) > 0 ==>
      if execFault.Some? then
        resp == FromErrorDatabase(execFault.value) && db.zipCodes == old(db.zipCodes)
      else
        resp == Response(Ok200, Empty) &&
        db.zipCodes == ZipCodeController.UpdateZipCodes(old(db.zipCodes), id, ZipCodeAssignments(p))
  {
    var rejected := SupervisorCheck(cfg, db.Snapshot(), now, secret, authFault);
    if rejected.Some? {
      resp := rejected.value;
    } else {
      resp := ZipCodeController.PatchZipCode(db, p, id, execFault);
    }
  }

  /** The rows of the given Id. */
  function WithId(zs: seq<ZipCodeRow>, id: string): (r: seq<ZipCodeRow>)
    ensures forall z :: z in r <==> z in zs && z.id == id
    ensures (forall z :: z in zs ==> z.id != id) ==> r == []
  {
    if zs == [] then []
    else (if zs[0].id == id then [zs[0]] else []) + WithId(zs[1..], id)
  }

  /**
    `getAllZipCodes`: authentication only, any tier may read; an authentication
    failure response is returned unchanged, a failed read is 500.
  */
  function GetAllZipCodes(cfg: Config, tables: Tables, now: int, secret: string,
                          authFault: Option<SqlError>, readFault: Option<SqlError>): (r: Response)
    ensures AuthenticateHttp(cfg, tables, now, secret, authFault).Some? ==>
      r == AuthenticateHttp(cfg, tables, now, secret, authFault).value
    ensures r.status == Ok200 <==>
      authFault.None? && readFault.None? && exists t :: t in tables.tokens && Live(t, cfg.digest(secret), now)
    ensures r.status == Ok200 ==> r.body == ZipCodes(tables.zipCodes)
    ensures AuthenticateHttp(cfg, tables, now, secret, authFault).None? && readFault.Some? ==>
      r == FromErrorInternal(readFault.value)
  {
    match AuthenticateHttp(cfg, tables, now, secret, authFault)
    case Some(rejected) => rejected
    case None =>
      if readFault.Some? then FromErrorInternal(readFault.value)
      else Response(Ok200, ZipCodes(tables.zipCodes))
  }

  /** `getZipCodeById`: as `getAllZipCodes`, restricted to one Id; an unknown Id gives 200 with an empty list. */
  function GetZipCodeById(cfg: Config, tables: Tables, now: int, secret: string, id: string,
                          authFault: Option<SqlError>, readFault: Option<SqlError>): (r: Response)
    ensures AuthenticateHttp(cfg, tables, now, secret, authFault).Some? ==>
      r == AuthenticateHttp(cfg, tables, now, secret, authFault).value
    ensures r.status == Ok200 <==>
      authFault.None? && readFault.None? && exists t :: t in tables.tokens && Live(t, cfg.digest(secret), now)
    ensures r.status == Ok200 ==> r.body == ZipCodes(WithId(tables.zipCodes, id))
    ensures r.status == Ok200 && (forall z :: z in tables.zipCodes ==> z.id != id) ==> r.body == ZipCodes([])
    ensures AuthenticateHttp(cfg, tables, now, secret, authFault).None? && readFault.Some? ==>
      r == FromErrorInternal(readFault.value)
  {
    match AuthenticateHttp(cfg, tables, now, secret, authFault)
    case Some(rejected) => rejected
    case None =>
      if readFault.Some? then FromErrorInternal(readFault.value)
      else Response(Ok200, ZipCodes(WithId(tables.zipCodes, id)))
  }

  /** Reads admit every tier: a User-tier token that writes refuse still reads. */
  lemma UserTierReadsButCannotWrite(cfg: Config, tables: Tables, now: int, secret: string)
    requires GetPermissionLevel(cfg, tables, now, secret, None) == Ok(User)
    ensures GetAllZipCodes(cfg, tables, now, secret, None, None) == Response(Ok200, ZipCodes(tables.zipCodes))
    ensures SupervisorCheck(cfg, tables, now, secret, None) == Some(Response(Unauthorized401, Error(New(Unauthorized))))
  {
  }
}
