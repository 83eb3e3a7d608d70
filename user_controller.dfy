/**
  The user PATCH endpoint of the controllers generation
  (controllers/User/userPatch.rs): the SET-list builder followed by the UPDATE.
  Its tier check is a route middleware that is not part of this model.
  This module also gives the meaning of the UPDATE on the User table.
*/
module UserController {
  import opened Wrappers
  import opened DbErrors
  import opened Store
  import opened Http
  import opened QueryBuilding
  import Auth

  /** The effect of one `column=value` entry on a User row; other columns are left alone. */
  function SetColumn(u: UserRow, a: Assignment): (r: UserRow)
    ensures r.id == u.id
    ensures a.value.Int? ==> r == u
  {
    match a.value
    case Int(_) => u
    case Text(s) =>
      if a.column == "Username" then u.(username := s)
      else if a.column == "Name" then u.(name := s)
      else if a.column == "Surname" then u.(surname := s)
      else if a.column == "FK_UserRole" then u.(role := s)
      else if a.column == "Password" then u.(password := s)
      else u
  }

  /** The effect of a whole SET list, entries taken left to right. */
  function ApplyAll(u: UserRow, a: seq<Assignment>): (r: UserRow)
  {
    if a == [] then u else SetColumn(ApplyAll(u, a[..|a| - 1]), a[|a| - 1])
  }

  /** `UPDATE User SET ... WHERE Id=id`: every row with that Id is updated, every other row is kept. */
  function UpdateUsers(users: seq<UserRow>, id: string, a: seq<Assignment>): (r: seq<UserRow>)
    ensures |r| == |users|
    ensures forall k :: 0 <= k < |r| ==> r[k] == if users[k].id == id then ApplyAll(users[k], a) else users[k]
  {
    if users == [] then []
    else [if users[0].id == id then ApplyAll(users[0], a) else users[0]] + UpdateUsers(users[1..], id, a)
  }

  function OrElse(o: Option<string>, s: string): (r: string)
  {
    if o.Some? then o.value else s
  }

  lemma {:induction false} ApplyOpt(u: UserRow, acc: seq<Assignment>, column: string, v: Option<SqlValue>)
    ensures ApplyAll(u, Opt(acc, column, v)) ==
      if v.Some? then SetColumn(ApplyAll(u, acc), Assignment(column, v.value)) else ApplyAll(u, acc)
  {
    if v.Some? {
      var a := acc + [Assignment(column, v.value)];
      assert a[..|a| - 1] == acc;
    }
  }

  /**
    The UPDATE built from a patch sets exactly the supplied fields of the row,
    the password to its hash, and leaves the Id and every absent field as they were.
  */
  lemma PatchEffect(cfg: Config, u: UserRow, p: UserPatch, salt: string)
    ensures ApplyAll(u, UserAssignments(cfg, p, salt)) == UserRow(
      u.id,
      OrElse(p.username, u.username),
      OrElse(p.name, u.name),
      OrElse(p.surname, u.surname),
      if p.password.Some? then cfg.hash(p.password.value, cfg.pepper, salt) else u.password,
      OrElse(p.role, u.role))
  {
    var d3 := Opt(Opt(Opt([], "Username", TextValue(p.username)), "Name", TextValue(p.name)),
      "Surname", TextValue(p.surname));
    var d4 := Opt(d3, "FK_UserRole", TextValue(p.role));
    var r3 := u.(username := OrElse(p.username, u.username), name := OrElse(p.name, u.name),
      surname := OrElse(p.surname, u.surname));
    NameFieldsEffect(u, p);
    ApplyOpt(u, d3, "FK_UserRole", TextValue(p.role));
    var r4 := r3.(role := OrElse(p.role, u.role));
    assert ApplyAll(u, d4) == r4 by { SetColumnCases(r3, OrElse(p.role, u.role)); }
    ApplyOpt(u, d4, "Password", HashedPassword(cfg, p, salt));
    if p.password.Some? {
      SetColumnCases(r4, cfg.hash(p.password.value, cfg.pepper, salt));
    }
  }

  /** The Username, Name and Surname entries set those three fields and nothing else. */
  lemma NameFieldsEffect(u: UserRow, p: UserPatch)
    ensures ApplyAll(u, Opt(Opt(Opt([], "Username", TextValue(p.username)), "Name", TextValue(p.name)),
      "Surname", TextValue(p.surname))) == u.(username := OrElse(p.username, u.username),
      name := OrElse(p.name, u.name), surname := OrElse(p.surname, u.surname))
  {
    var d1 := Opt([], "Username", TextValue(p.username));
    var d2 := Opt(d1, "Name", TextValue(p.name));
    UsernameStep(u, [], p.username);
    NameStep(u, d1, p.name);
    SurnameStep(u, d2, p.surname);
  }

  /** A Username entry, when present, sets the username and nothing else. */
  lemma UsernameStep(u: UserRow, acc: seq<Assignment>, o: Option<string>)
    ensures ApplyAll(u, Opt(acc, "Username", TextValue(o))) ==
      ApplyAll(u, acc).(username := OrElse(o, ApplyAll(u, acc).username))
  {
    ApplyOpt(u, acc, "Username", TextValue(o));
    if o.Some? {
      SetColumnCases(ApplyAll(u, acc), o.value);
    }
  }

  /** A Name entry, when present, sets the name and nothing else. */
  lemma NameStep(u: UserRow, acc: seq<Assignment>, o: Option<string>)
    ensures ApplyAll(u, Opt(acc, "Name", TextValue(o))) ==
      ApplyAll(u, acc).(name := OrElse(o, ApplyAll(u, acc).name))
  {
    ApplyOpt(u, acc, "Name", TextValue(o));
    if o.Some? {
      SetColumnCases(ApplyAll(u, acc), o.value);
    }
  }

  /** A Surname entry, when present, sets the surname and nothing else. */
  lemma SurnameStep(u: UserRow, acc: seq<Assignment>, o: Option<string>)
    ensures ApplyAll(u, Opt(acc, "Surname", TextValue(o))) ==
      ApplyAll(u, acc).(surname := OrElse(o, ApplyAll(u, acc).surname))
  {
    ApplyOpt(u, acc, "Surname", TextValue(o));
    if o.Some? {
      SetColumnCases(ApplyAll(u, acc), o.value);
    }
  }

  /** Each of the five patchable columns sets its own field. */
  lemma SetColumnCases(u: UserRow, s: string)
    ensures SetColumn(u, Assignment("Username", Text(s))) == u.(username := s)
    ensures SetColumn(u, Assignment("Name", Text(s))) == u.(name := s)
    ensures SetColumn(u, Assignment("Surname", Text(s))) == u.(surname := s)
    ensures SetColumn(u, Assignment("FK_UserRole", Text(s))) == u.(role := s)
    ensures SetColumn(u, Assignment("Password", Text(s))) == u.(password := s)
  {
  }

  /** No SET list changes a row's Id. */
  lemma {:induction false} ApplyAllKeepsId(u: UserRow, a: seq<Assignment>)
    ensures ApplyAll(u, a).id == u.id
    decreases |a|
  {
    if a != [] {
      ApplyAllKeepsId(u, a[..|a| - 1]);
    }
  }

  /** After the update, the first row with the Id is the first row before it, updated. */
  lemma {:induction false} FindUpdated(users: seq<UserRow>, id: string, a: seq<Assignment>)
    ensures Auth.FindUser(UpdateUsers(users, id, a), id) ==
      match Auth.FindUser(users, id)
      case None => None
      case Some(u) => Some(ApplyAll(u, a))
  {
    if users != [] {
      var head := if users[0].id == id then ApplyAll(users[0], a) else users[0];
      var rest := UpdateUsers(users[1..], id, a);
      assert UpdateUsers(users, id, a) == [head] + rest;
      assert ([head] + rest)[0] == head;
      assert ([head] + rest)[1..] == rest;
      ApplyAllKeepsId(users[0], a);
      if users[0].id != id {
        FindUpdated(users[1..], id, a);
      }
    }
  }

  /**
    `patchUser` (controllers): `salt` is the drawn 64-character salt and
    `execFault` the failure the UPDATE reports, if any.
  */
  method PatchUser(db: Database, cfg: Config, p: UserPatch, salt: string, id: string,
                   execFault: Option<SqlError>) returns (resp: Response)
    modifies db`users
    ensures UserFieldCount(p) == 0 ==> resp == NoFieldsResponse && db.users == old(db.users)
    ensures UserFieldCount(p) > 0 && execFault.Some? ==>
      resp == FromErrorDatabase(execFault.value) && db.users == old(db.users)
    ensures UserFieldCount(p) > 0 && execFault.None? ==>
      resp == Response(Ok200, Empty) && db.users == UpdateUsers(old(db.users), id, UserAssignments(cfg, p, salt))
  {
    var countOfAdded, built := UserUpdate(cfg, p, salt, id);
    match built {
      case Err(e) =>
        resp := e;
      case Ok(statement) =>
        // The statement executed is the one the builder produced: its bound
        // values are those of the very SET list whose effect is applied below.
        assert statement.args == Values(UserAssignments(cfg, p, salt)) + [Text(id)];
        if execFault.Some? {
          resp := FromErrorDatabase(execFault.value);
        } else {
          db.users := UpdateUsers(db.users, id, UserAssignments(cfg, p, salt));
          resp := Response(Ok200, Empty);
        }
    }
  }
}
