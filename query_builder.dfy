/**
  The PATCH statement builders shared by both generations of the user and
  zip-code patch endpoints: a mutable query builder appends `Field=` and a bound
  placeholder for each present optional field, in a fixed order, through a
  separated section that puts `", "` between entries; an empty patch is refused
  before any statement is completed, and `WHERE Id=` is appended otherwise.
*/
module QueryBuilding {
  import opened Wrappers
  import opened DbErrors
  import opened Http
  import Store

  /** A value bound to a placeholder. */
  datatype SqlValue = Text(s: string) | Int(n: int)

  /** One `column=?` entry of a SET list together with its bound value. */
  datatype Assignment = Assignment(column: string, value: SqlValue)

  /** A finished statement: its SQL text and its bound values in placeholder order. */
  datatype Statement = Statement(sql: string, args: seq<SqlValue>)

  /**
    A query builder with one separated section, after sqlx's `QueryBuilder` and
    `Separated` (MySQL placeholders are `?`). `separatorDue` is the section's
    flag saying whether the next separated push must be preceded by the separator.
  */
  class QueryBuilder {
    var sql: string
    var args: seq<SqlValue>
    var separatorDue: bool

    constructor (init: string)
      ensures sql == init && args == [] && !separatorDue
    {
      sql := init;
      args := [];
      separatorDue := false;
    }

    /** `separated.push(part)`: the separator first unless this is the section's first entry. */
    method SeparatedPush(part: string)
      modifies this
      ensures sql == old(sql) + (if old(separatorDue) then ", " else "") + part
      ensures args == old(args) && separatorDue
    {
      if separatorDue {
        sql := sql + ", ";
      }
      sql := sql + part;
      separatorDue := true;
    }

    /** `separated.push_bind_unseparated(v)`: a placeholder with no separator. */
    method PushBindUnseparated(v: SqlValue)
      modifies this
      ensures sql == old(sql) + "?" && args == old(args) + [v] && separatorDue == old(separatorDue)
    {
      sql := sql + "?";
      args := args + [v];
    }

    /** `push(part)`: raw text. */
    method Push(part: string)
      modifies this
      ensures sql == old(sql) + part && args == old(args) && separatorDue == old(separatorDue)
    {
      sql := sql + part;
    }

    /** `push_bind(v)`: a placeholder. */
    method PushBind(v: SqlValue)
      modifies this
      ensures sql == old(sql) + "?" && args == old(args) + [v] && separatorDue == old(separatorDue)
    {
      sql := sql + "?";
      args := args + [v];
    }
  }

  /** The SET list for `assignments`: `c1=?, c2=?, ...`. */
  function SetList(assignments: seq<Assignment>): (r: string)
    ensures assignments == [] <==> r == ""
    ensures |r| >= 2 * |assignments|
  {
    if assignments == [] then ""
    else
      var init := assignments[..|assignments| - 1];
      SetList(init) + (if init == [] then "" else ", ") + assignments[|assignments| - 1].column + "=?"
  }

  /** The bound values of `assignments`, in order. */
  function Values(assignments: seq<Assignment>): (r: seq<SqlValue>)
    ensures |r| == |assignments|
    ensures forall k :: 0 <= k < |r| ==> r[k] == assignments[k].value
  {
    seq(|assignments|, k requires 0 <= k < |assignments| => assignments[k].value)
  }

  /** The text a builder holds after one more entry, in the shape the pushes produce it. */
  lemma StepText(head: string, done: seq<Assignment>, a: Assignment)
    ensures head + SetList(done + [a]) ==
      head + SetList(done) + (if done != [] then ", " else "") + (a.column + "=") + "?"
  {
    SetListSnoc(done, a);
  }

  /** Appending an entry appends its bound value. */
  lemma ValuesSnoc(init: seq<Assignment>, a: Assignment)
    ensures Values(init + [a]) == Values(init) + [a.value]
  {
  }

  /** The response to a patch with no field present. */
  const NoFieldsResponse: Response := Response(BadRequest400, Error(NewMessage(BadRequest, "No fields provided")))

  /** `acc` followed by the entry for `column` when a value is present. */
  function Opt(acc: seq<Assignment>, column: string, v: Option<SqlValue>): (r: seq<Assignment>)
  {
    match v
    case None => acc
    case Some(x) => acc + [Assignment(column, x)]
  }

  function TextValue(o: Option<string>): (r: Option<SqlValue>)
  {
    match o
    case None => None
    case Some(s) => Some(Text(s))
  }

  /** The builder holds `head` followed by the SET list of `done`, and its bound values. */
  ghost predicate InStep(b: QueryBuilder, head: string, done: seq<Assignment>)
    reads b
  {
    b.sql == head + SetList(done) && b.args == Values(done) && b.separatorDue == (done != [])
  }

  /**
    One `if field.is_some()` block: pushes `column=` and the bound value when a
    value is present, and reports 1 for the count of added fields, else 0.
  */
  method AddIfPresent(b: QueryBuilder, ghost head: string, ghost done: seq<Assignment>,
                      column: string, v: Option<SqlValue>) returns (added: nat)
    requires InStep(b, head, done)
    modifies b
    ensures InStep(b, head, Opt(done, column, v))
    ensures added == if v.Some? then 1 else 0
    ensures |Opt(done, column, v)| == |done| + added
  {
    added := 0;
    if v.Some? {
      ghost var a := Assignment(column, v.value);
      StepText(head, done, a);
      ValuesSnoc(done, a);
      b.SeparatedPush(column + "=");
      b.PushBindUnseparated(v.value);
      added := 1;
    }
  }

  /**
    The end of a patch builder: with no field added, the 400 response and the
    statement is abandoned; otherwise ` WHERE Id=` and the bound id finish it.
  */
  method Complete(b: QueryBuilder, ghost head: string, ghost done: seq<Assignment>, countOfAdded: nat, id: string)
    returns (r: Result<Statement, Response>)
    requires InStep(b, head, done) && countOfAdded == |done|
    modifies b
    ensures r.Err? <==> done == []
    ensures r.Err? ==> r.error == NoFieldsResponse
    ensures r.Ok? ==> r.value == Statement(head + SetList(done) + " WHERE Id=?", Values(done) + [Text(id)])
  {
    if countOfAdded == 0 {
      r := Err(NoFieldsResponse);
    } else {
      b.Push(" WHERE Id=");
      b.PushBind(Text(id));
      r := Ok(Statement(b.sql, b.args));
    }
  }

  // ---------------------------------------------------------------------------
  // User patch
  // ---------------------------------------------------------------------------

  /** The optional fields of a user patch. */
  datatype UserPatch = UserPatch(
    username: Option<string>,
    name: Option<string>,
    surname: Option<string>,
    role: Option<string>,
    password: Option<string>)

  /** How many fields the patch supplies. */
  function UserFieldCount(p: UserPatch): (n: nat)
  {
    (if p.username.Some? then 1 else 0) + (if p.name.Some? then 1 else 0) + (if p.surname.Some? then 1 else 0)
    + (if p.role.Some? then 1 else 0) + (if p.password.Some? then 1 else 0)
  }

  /** The value bound for Password: the hash of the new password under the pepper and `salt`. */
  function HashedPassword(cfg: Store.Config, p: UserPatch, salt: string): (r: Option<SqlValue>)
  {
    match p.password
    case None => None
    case Some(pw) => Some(Text(cfg.hash(pw, cfg.pepper, salt)))
  }

  /**
    The SET entries of a user patch in the order Username, Name, Surname,
    FK_UserRole, Password; the password is bound as its hash.
  */
  function UserAssignments(cfg: Store.Config, p: UserPatch, salt: string): (r: seq<Assignment>)
    ensures p.username.Some? ==> |r| > 0 && r[0] == Assignment("Username", Text(p.username.value))
    ensures p.password.Some? ==>
      |r| > 0 && r[|r| - 1] == Assignment("Password", Text(cfg.hash(p.password.value, cfg.pepper, salt)))
  {
    Opt(Opt(Opt(Opt(Opt([],
      "Username", TextValue(p.username)),
      "Name", TextValue(p.name)),
      "Surname", TextValue(p.surname)),
      "FK_UserRole", TextValue(p.role)),
      "Password", HashedPassword(cfg, p, salt))
  }

  /** The SET list of a user patch has one entry per present field. */
  lemma UserAssignmentsCount(cfg: Store.Config, p: UserPatch, salt: string)
    ensures |UserAssignments(cfg, p, salt)| == UserFieldCount(p)
  {
  }

  /**
    The SET list is empty exactly for the empty patch, and it never binds the
    plaintext password: the Password entry carries the hash.
  */
  lemma UserAssignmentsShape(cfg: Store.Config, p: UserPatch, salt: string)
    ensures UserAssignments(cfg, p, salt) == [] <==>
      p.username.None? && p.name.None? && p.surname.None? && p.role.None? && p.password.None?
    ensures forall a :: a in UserAssignments(cfg, p, salt) && a.column == "Password" ==>
      a.value == Text(cfg.hash(p.password.value, cfg.pepper, salt))
  {
  }

  /** Appending one entry to a SET list appends `column=?`, after `", "` unless it is the first. */
  lemma SetListSnoc(init: seq<Assignment>, a: Assignment)
    ensures SetList(init + [a]) == SetList(init) + (if init == [] then "" else ", ") + a.column + "=?"
  {
    var s := init + [a];
    assert s[..|s| - 1] == init;
  }

  /** A patch supplying every field binds them in the fixed order, the password as its hash. */
  lemma FullUserAssignments(cfg: Store.Config, username: string, name: string, surname: string, role: string,
                            password: string, salt: string)
    ensures UserAssignments(cfg, UserPatch(Some(username), Some(name), Some(surname), Some(role), Some(password)),
      salt) == [Assignment("Username", Text(username)), Assignment("Name", Text(name)),
                Assignment("Surname", Text(surname)), Assignment("FK_UserRole", Text(role)),
                Assignment("Password", Text(cfg.hash(password, cfg.pepper, salt)))]
  {
  }

  /** The SET list of a full user patch. */
  lemma FullUserSetList(username: string, name: string, surname: string, role: string, hashed: string)
    ensures SetList([Assignment("Username", Text(username)), Assignment("Name", Text(name)),
                     Assignment("Surname", Text(surname)), Assignment("FK_UserRole", Text(role)),
                     Assignment("Password", Text(hashed))]) ==
      "Username" + "=?" + ", " + "Name" + "=?" + ", " + "Surname" + "=?" + ", " + "FK_UserRole" + "=?"
      + ", " + "Password" + "=?"
  {
    var a1 := [Assignment("Username", Text(username))];
    var a2 := a1 + [Assignment("Name", Text(name))];
    var a3 := a2 + [Assignment("Surname", Text(surname))];
    var a4 := a3 + [Assignment("FK_UserRole", Text(role))];
    var a5 := a4 + [Assignment("Password", Text(hashed))];
    SetListSingle(a1[0]);
    SetListSnocMore(a1, a2[1]);
    SetListSnocMore(a2, a3[2]);
    SetListSnocMore(a3, a4[3]);
    SetListSnocMore(a4, a5[4]);
    assert a5 == [Assignment("Username", Text(username)), Assignment("Name", Text(name)),
                  Assignment("Surname", Text(surname)), Assignment("FK_UserRole", Text(role)),
                  Assignment("Password", Text(hashed))];
  }

  /** A one-entry SET list. */
  lemma SetListSingle(a: Assignment)
    ensures SetList([a]) == a.column + "=?"
  {
    assert [a][..0] == [];
  }

  /** An entry after the first is preceded by `", "`. */
  lemma SetListSnocMore(init: seq<Assignment>, a: Assignment)
    requires init != []
    ensures SetList(init + [a]) == SetList(init) + ", " + a.column + "=?"
  {
    SetListSnoc(init, a);
  }

  /** The Username, Name and Surname blocks of the user builder. */
  method AddNameFields(b: QueryBuilder, ghost head: string, p: UserPatch) returns (added: nat)
    requires InStep(b, head, [])
    modifies b
    ensures InStep(b, head, Opt(Opt(Opt([], "Username", TextValue(p.username)), "Name", TextValue(p.name)),
      "Surname", TextValue(p.surname)))
    ensures added == |Opt(Opt(Opt([], "Username", TextValue(p.username)), "Name", TextValue(p.name)),
      "Surname", TextValue(p.surname))|
  {
    added := AddIfPresent(b, head, [], "Username", TextValue(p.username));
    ghost var d1 := Opt([], "Username", TextValue(p.username));
    var n := AddIfPresent(b, head, d1, "Name", TextValue(p.name));
    added := added + n;
    ghost var d2 := Opt(d1, "Name", TextValue(p.name));
    n := AddIfPresent(b, head, d2, "Surname", TextValue(p.surname));
    added := added + n;
  }

  /**
    The builder part of `patchUser`: the count of added fields and the UPDATE
    statement, or the 400 response when no field is present. `salt` is the
    64-character random salt drawn for the password hash.
  */
  method UserUpdate(cfg: Store.Config, p: UserPatch, salt: string, id: string)
    returns (countOfAdded: nat, r: Result<Statement, Response>)
    ensures countOfAdded == UserFieldCount(p)
    ensures r.Err? <==> countOfAdded == 0
    ensures r.Err? ==> r.error == NoFieldsResponse
    ensures r.Ok? ==> r.value == Statement(
      "UPDATE User SET " + SetList(UserAssignments(cfg, p, salt)) + " WHERE Id=?",
      Values(UserAssignments(cfg, p, salt)) + [Text(id)])
  {
    var b := new QueryBuilder("UPDATE User SET ");
    ghost var head := b.sql;
    countOfAdded := AddNameFields(b, head, p);
    ghost var d3 := Opt(Opt(Opt([], "Username", TextValue(p.username)), "Name", TextValue(p.name)),
      "Surname", TextValue(p.surname));
    var added := AddIfPresent(b, head, d3, "FK_UserRole", TextValue(p.role));
    countOfAdded := countOfAdded + added;
    ghost var d4 := Opt(d3, "FK_UserRole", TextValue(p.role));
    var hashed: Option<SqlValue> := None;
    if p.password.Some? {
      hashed := Some(Text(cfg.hash(p.password.value, cfg.pepper, salt)));
    }
    assert hashed == HashedPassword(cfg, p, salt);
    added := AddIfPresent(b, head, d4, "Password", hashed);
    countOfAdded := countOfAdded + added;
    UserAssignmentsCount(cfg, p, salt);
    r := Complete(b, head, UserAssignments(cfg, p, salt), countOfAdded, id);
  }

  // ---------------------------------------------------------------------------
  // Zip code patch
  // ---------------------------------------------------------------------------

  /** The optional fields of a zip-code patch; Number is an i32. */
  datatype ZipCodePatch = ZipCodePatch(number: Option<int>, city: Option<string>)

  function ZipCodeFieldCount(p: ZipCodePatch): (n: nat)
  {
    (if p.number.Some? then 1 else 0) + (if p.city.Some? then 1 else 0)
  }

  function IntValue(o: Option<int>): (r: Option<SqlValue>)
  {
    match o
    case None => None
    case Some(n) => Some(Int(n))
  }

  /** The SET entries of a zip-code patch in the order Number, City. */
  function ZipCodeAssignments(p: ZipCodePatch): (r: seq<Assignment>)
    ensures p.number.Some? ==> |r| > 0 && r[0] == Assignment("Number", Int(p.number.value))
    ensures p.city.Some? ==> |r| > 0 && r[|r| - 1] == Assignment("City", Text(p.city.value))
  {
    Opt(Opt([], "Number", IntValue(p.number)), "City", TextValue(p.city))
  }

  /** The SET list of a zip-code patch has one entry per present field. */
  lemma ZipCodeAssignmentsShape(p: ZipCodePatch)
    ensures |ZipCodeAssignments(p)| == ZipCodeFieldCount(p)
    ensures ZipCodeAssignments(p) == [] <==> p.number.None? && p.city.None?
  {
  }

  /** The builder part of `patchZipCode`: the count of added fields and the statement, or the 400 response. */
  method ZipCodeUpdate(p: ZipCodePatch, id: string) returns (countOfAdded: nat, r: Result<Statement, Response>)
    ensures countOfAdded == ZipCodeFieldCount(p)
    ensures r.Err? <==> countOfAdded == 0
    ensures r.Err? ==> r.error == NoFieldsResponse
    ensures r.Ok? ==> r.value == Statement(
      "UPDATE ZipCode SET " + SetList(ZipCodeAssignments(p)) + " WHERE Id=?",
      Values(ZipCodeAssignments(p)) + [Text(id)])
  {
    var b := new QueryBuilder("UPDATE ZipCode SET ");
    ghost var head := b.sql;
    ghost var d0: seq<Assignment> := [];
    var added := AddIfPresent(b, head, d0, "Number", IntValue(p.number));
    countOfAdded := added;
    ghost var d1 := Opt(d0, "Number", IntValue(p.number));
    added := AddIfPresent(b, head, d1, "City", TextValue(p.city));
    countOfAdded := countOfAdded + added;
    ZipCodeAssignmentsShape(p);
    r := Complete(b, head, ZipCodeAssignments(p), countOfAdded, id);
  }

  /** Concrete instance: a city-only patch sets just the city. */
  lemma CityOnlySetList(city: string)
    ensures SetList(ZipCodeAssignments(ZipCodePatch(None, Some(city)))) == "City=?"
  {
    var a := ZipCodeAssignments(ZipCodePatch(None, Some(city)));
    assert a[..0] == [];
  }
}
