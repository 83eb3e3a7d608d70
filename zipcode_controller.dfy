/**
  The zip-code PATCH endpoint of the controllers generation
  (controllers/ZipCode/zipcodePatch.rs): the SET-list builder followed by the
  UPDATE. Its tier check is a route middleware that is not part of this model.
  This module also gives the meaning of the UPDATE on the ZipCode table.
*/
module ZipCodeController {
  import opened Wrappers
  import opened DbErrors
  import opened Store
  import opened Http
  import opened QueryBuilding

  /** The effect of one `column=value` entry on a ZipCode row; other columns are left alone. */
  function SetColumn(z: ZipCodeRow, a: Assignment): (r: ZipCodeRow)
    ensures r.id == z.id
    ensures a.column != "Number" && a.column != "City" ==> r == z
  {
    match a.value
    case Int(n) => if a.column == "Number" then z.(number := n) else z
    case Text(s) => if a.column == "City" then z.(city := s) else z
  }

  /** The effect of a whole SET list, entries taken left to right. */
  function ApplyAll(z: ZipCodeRow, a: seq<Assignment>): (r: ZipCodeRow)
    ensures r.id == z.id
    ensures (forall k :: 0 <= k < |a| ==> a[k].column != "City") ==> r.city == z.city
  {
    if a == [] then z else SetColumn(ApplyAll(z, a[..|a| - 1]), a[|a| - 1])
  }

  /** `UPDATE ZipCode SET ... WHERE Id=id`: every row with that Id is updated, every other row is kept. */
  function UpdateZipCodes(zs: seq<ZipCodeRow>, id: string, a: seq<Assignment>): (r: seq<ZipCodeRow>)
    ensures |r| == |zs|
    ensures forall k :: 0 <= k < |r| ==> r[k] == if zs[k].id == id then ApplyAll(zs[k], a) else zs[k]
  {
    if zs == [] then []
    else [if zs[0].id == id then ApplyAll(zs[0], a) else zs[0]] + UpdateZipCodes(zs[1..], id, a)
  }

  lemma {:induction false} ApplyOpt(z: ZipCodeRow, acc: seq<Assignment>, column: string, v: Option<SqlValue>)
    ensures ApplyAll(z, Opt(acc, column, v)) ==
      if v.Some? then SetColumn(ApplyAll(z, acc), Assignment(column, v.value)) else ApplyAll(z, acc)
  {
    if v.Some? {
      var a := acc + [Assignment(column, v.value)];
      assert a[..|a| - 1] == acc;
    }
  }

  /** The UPDATE built from a patch sets exactly the supplied fields and keeps the Id. */
  lemma PatchEffect(z: ZipCodeRow, p: ZipCodePatch)
    ensures ApplyAll(z, ZipCodeAssignments(p)) == ZipCodeRow(
      z.id,
      if p.number.Some? then p.number.value else z.number,
      if p.city.Some? then p.city.value else z.city)
  {
    var d1 := Opt([], "Number", IntValue(p.number));
    ApplyOpt(z, [], "Number", IntValue(p.number));
    ApplyOpt(z, d1, "City", TextValue(p.city));
  }

  /** `patchZipCode` (controllers): `execFault` is the failure the UPDATE reports, if any. */
  method PatchZipCode(db: Database, p: ZipCodePatch, id: string, execFault: Option<SqlError>)
    returns (resp: Response)
    modifies db`zipCodes
    ensures ZipCodeFieldCount(p) == 0 ==> resp == NoFieldsResponse && db.zipCodes == old(db.zipCodes)
    ensures ZipCodeFieldCount(p) > 0 && execFault.Some? ==>
      resp == FromErrorDatabase(execFault.value) && db.zipCodes == old(db.zipCodes)
    ensures ZipCodeFieldCount(p) > 0 && execFault.None? ==>
      resp == Response(Ok200, Empty) && db.zipCodes == UpdateZipCodes(old(db.zipCodes), id, ZipCodeAssignments(p))
  {
    var countOfAdded, built := ZipCodeUpdate(p, id);
    match built {
      case Err(e) =>
        resp := e;
      case Ok(statement) =>
        // The statement executed is the one the builder produced: its bound
        // values are those of the very SET list whose effect is applied below.
        assert statement.args == Values(ZipCodeAssignments(p)) + [Text(id)];
        if execFault.Some? {
          resp := FromErrorDatabase(execFault.value);
        } else {
          db.zipCodes := UpdateZipCodes(db.zipCodes, id, ZipCodeAssignments(p));
          resp := Response(Ok200, Empty);
        }
    }
  }
}
