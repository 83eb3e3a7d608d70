/**
  Errors as the error bodies and the database driver present them: the
  `PickUpError` body `{Code, Message}`, the database-error flags the driver
  exposes, and the classification of a database error into a body
  (`impl From<&dyn DatabaseError> for PickUpError`).
*/
module DbErrors {
  import opened Wrappers
  import ForeignKey

  /** The Code of a PickUpError body. `Database(n)` is the numeric code 0..3 set by the classification. */
  datatype ErrorCode =
    | Database(n: nat)
    | Unauthorized
    | InternalServerError
    | BadRequest
    | IncorectCredentials

  /**
    A PickUpError body. `message == None` stands for the default message that
    `PickUpError::new` attaches, whose text is not part of this model.
  */
  datatype PickUpError = PickUpError(code: ErrorCode, message: Option<string>)

  function New(code: ErrorCode): (e: PickUpError)
  {
    PickUpError(code, None)
  }

  function NewMessage(code: ErrorCode, message: string): (e: PickUpError)
  {
    PickUpError(code, Some(message))
  }

  /**
    What the driver reports about an error raised by the database server: the
    three violation flags, the server's `message()`, and the driver error's own
    display text (for MySQL the error number and SQLSTATE before the message),
    which is kept opaque.
  */
  datatype DatabaseError = DatabaseError(
    isCheckViolation: bool,
    isForeignKeyViolation: bool,
    isUniqueViolation: bool,
    message: string,
    display: string)

  /**
    A query failure: the driver's "no rows" error of `fetch_one`, an error raised
    by the database server, or any other failure (lost connection, pool timeout, ...)
    with its display text.
  */
  datatype SqlError =
    | RowNotFound
    | Db(database: DatabaseError)
    | Other(text: string)

  /** The prefix the driver puts before the display text of a database error. */
  const DatabaseErrorPrefix: string := "error returned from database: "

  const NoRowsText: string := "no " + "rows returned by a query that expected to return at least one row"

  /**
    The `to_string()` of a query failure. A database error is displayed behind
    the driver's "error returned from database: " prefix, so its text is never
    the "no rows" text.
  */
  function ErrorText(e: SqlError): (r: string)
    ensures e.RowNotFound? ==> r == NoRowsText
    ensures e.Db? ==> r != NoRowsText && |e.database.display| < |r| && r[|r| - |e.database.display|..] == e.database.display
    ensures e.Other? ==> r == e.text
  {
    match e
    case RowNotFound => NoRowsText
    case Db(d) =>
      var r := DatabaseErrorPrefix + d.display;
      assert r[0] == DatabaseErrorPrefix[0] == 'e';
      assert NoRowsText[0] == "no "[0] == 'n';
      r
    case Other(t) => t
  }

  /** `sqlx::Error::as_database_error`. */
  function AsDatabaseError(e: SqlError): (r: Option<DatabaseError>)
    ensures r.Some? <==> e.Db?
    ensures e.Db? ==> r.value == e.database
  {
    if e.Db? then Some(e.database) else None
  }

  /**
    The classification of a database error. The flags are checked in the order
    check, foreign key, unique; the first that is set decides the code.
  */
  function FromDatabaseError(e: DatabaseError): (r: PickUpError)
    ensures r.code.Database? && r.code.n <= 3
    ensures r.code == Database(1) <==> e.isCheckViolation
    ensures r.code == Database(2) <==> !e.isCheckViolation && e.isForeignKeyViolation
    ensures r.code == Database(3) <==>
      !e.isCheckViolation && !e.isForeignKeyViolation && e.isUniqueViolation
    ensures r.code == Database(0) <==>
      !e.isCheckViolation && !e.isForeignKeyViolation && !e.isUniqueViolation
    ensures r.code != Database(2) ==> r.message == Some(e.message)
    ensures r.code == Database(2) ==> r.message == Some(ForeignKey.FailureMessage(e.message))
  {
    if e.isCheckViolation then
      PickUpError(Database(1), Some(e.message))
    else if e.isForeignKeyViolation then
      PickUpError(Database(2), Some(ForeignKey.FailureMessage(e.message)))
    else if e.isUniqueViolation then
      PickUpError(Database(3), Some(e.message))
    else
      PickUpError(Database(0), Some(e.message))
  }

  /**
    The classification depends on the flags only through the first one set:
    raising a later flag never changes the outcome once an earlier one is set.
  */
  lemma ClassificationPriority(e: DatabaseError, unique: bool, fk: bool)
    ensures e.isCheckViolation ==>
      FromDatabaseError(e.(isForeignKeyViolation := fk, isUniqueViolation := unique)) == FromDatabaseError(e)
    ensures !e.isCheckViolation && e.isForeignKeyViolation ==>
      FromDatabaseError(e.(isUniqueViolation := unique)) == FromDatabaseError(e)
  {
  }

  /** A foreign-key violation whose message contains the pattern names the backtick-free column it captures. */
  lemma ForeignKeyColumn(e: DatabaseError, i: int, j: int)
    requires !e.isCheckViolation && e.isForeignKeyViolation
    requires ForeignKey.LeftmostGreedy(e.message, i, j)
    ensures FromDatabaseError(e) == PickUpError(Database(2), Some(
      "Foreign key constraint fails at " +
      ForeignKey.StripBackticks(e.message[i + |ForeignKey.Prefix|..j]) + " column"))
  {
    ForeignKey.MatchMessage(e.message, i, j);
  }

  /** A foreign-key violation whose message does not contain the pattern names an unknown column. */
  lemma ForeignKeyUnknownColumn(e: DatabaseError)
    requires !e.isCheckViolation && e.isForeignKeyViolation
    requires forall i, j :: !ForeignKey.MatchAt(e.message, i, j)
    ensures FromDatabaseError(e) ==
      PickUpError(Database(2), Some("Foreign key constraint fails at unknown column"))
  {
    ForeignKey.NoMatchMessage(e.message);
  }
}
