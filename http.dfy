/**
  HTTP responses and the mapping of query failures onto them
  (shared/errorHandling.rs).
*/
module Http {
  import opened Wrappers
  import opened DbErrors
  import Store

  const Ok200: nat := 200
  const Created201: nat := 201
  const BadRequest400: nat := 400
  const Unauthorized401: nat := 401
  const InternalError500: nat := 500

  /** A joined User and UserRole row, as the user listing returns it. */
  datatype UserWithRole = UserWithRole(user: Store.UserRow, role: Store.RoleRow)

  /**
    A response body. `Converted(e)` is the PickUpError built from a query failure by
    `From<sqlx::Error>`, and `HashingFailed(t)` the one built from a hashing error;
    neither conversion is part of this model, so the body keeps its source.
  */
  datatype Body =
    | Empty
    | Error(error: PickUpError)
    | Converted(cause: SqlError)
    | HashingFailed(text: string)
    | TokenOnly(token: string)
    | Users(users: seq<UserWithRole>)
    | ZipCodes(zipCodes: seq<Store.ZipCodeRow>)

  datatype Response = Response(status: nat, body: Body)

  /** `getHRFromErrorDatabase`: 400 with the classification for a database error, 500 otherwise. */
  function FromErrorDatabase(e: SqlError): (r: Response)
    ensures r.status == InternalError500 <==> AsDatabaseError(e).None?
    ensures r.status == BadRequest400 <==> AsDatabaseError(e).Some?
    ensures AsDatabaseError(e).Some? ==> r.body == Error(FromDatabaseError(AsDatabaseError(e).value))
    ensures AsDatabaseError(e).None? ==> r.body == Converted(e)
  {
    match AsDatabaseError(e)
    case None => Response(InternalError500, Converted(e))
    case Some(d) => Response(BadRequest400, Error(FromDatabaseError(d)))
  }

  /** `getHRFromErrorInternal`: always 500 with the converted error. */
  function FromErrorInternal(e: SqlError): (r: Response)
    ensures r.status == InternalError500
    ensures r.body == Converted(e)
  {
    Response(InternalError500, Converted(e))
  }

  /**
    `getHRFromErrorIncorectCredentials`: 400 in both branches; any failure that is
    not a database error (the "no rows" of an unknown username included) reads as
    incorrect credentials.
  */
  function FromErrorIncorectCredentials(e: SqlError): (r: Response)
    ensures r.status == BadRequest400
    ensures AsDatabaseError(e).None? ==> r.body == Error(New(IncorectCredentials))
    ensures AsDatabaseError(e).Some? ==> r.body == Error(FromDatabaseError(AsDatabaseError(e).value))
  {
    match AsDatabaseError(e)
    case None => Response(BadRequest400, Error(New(IncorectCredentials)))
    case Some(d) => Response(BadRequest400, Error(FromDatabaseError(d)))
  }

  /** The database-error branches of the two classifying mappings agree exactly. */
  lemma DatabaseBranchesAgree(e: SqlError)
    requires e.Db?
    ensures FromErrorDatabase(e) == FromErrorIncorectCredentials(e)
  {
  }
}
