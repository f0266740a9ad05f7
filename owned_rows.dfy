/** The repository operations the controllers use on an owned table, over
    its rows in id order: `findById`, `findByUser`, `save` of a new or an
    existing row, and `delete`. */
module OwnedRows {
  import opened Wrappers
  import opened Entities

  /** Generated ids grow with every insert and stay below the next one. */
  predicate IdsBelow<T>(rows: seq<Row<T>>, nextId: int) {
    (forall i, j :: 0 <= i < j < |rows| ==> rows[i].id < rows[j].id) &&
    (forall i :: 0 <= i < |rows| ==> rows[i].id < nextId)
  }

  /** `findById`, as the position of the row. */
  function IndexOfId<T>(rows: seq<Row<T>>, id: int): (r: Option<nat>)
    ensures r.Some? ==> r.value < |rows| && rows[r.value].id == id
    ensures r.None? <==> forall j :: 0 <= j < |rows| ==> rows[j].id != id
  {
    if rows == [] then None
    else if rows[0].id == id then Some(0)
    else match IndexOfId(rows[1..], id)
      case None => None
      case Some(i) => Some(i + 1)
  }

  /** `findByUser`: the caller's rows, in table order. */
  function OwnedBy<T(!new)>(rows: seq<Row<T>>, owner: int): (r: seq<Row<T>>)
    ensures forall x :: x in r <==> x in rows && x.owner == owner
    ensures |r| <= |rows|
  {
    if rows == [] then []
    else (if rows[0].owner == owner then [rows[0]] else []) + OwnedBy(rows[1..], owner)
  }

  /** `delete` of the row at position `i`. */
  function RemoveAt<T>(rows: seq<Row<T>>, i: nat): (r: seq<Row<T>>)
    requires i < |rows|
    ensures |r| == |rows| - 1
    ensures forall j :: 0 <= j < i ==> r[j] == rows[j]
    ensures forall j :: i <= j < |r| ==> r[j] == rows[j + 1]
  {
    rows[..i] + rows[i + 1..]
  }

  /** With distinct ids, deleting the row with id `rows[i].id` keeps exactly
      the rows with other ids. */
  lemma RemoveAtMembers<T>(rows: seq<Row<T>>, nextId: int, i: nat)
    requires IdsBelow(rows, nextId) && i < |rows|
    ensures forall x :: x in RemoveAt(rows, i) <==> x in rows && x.id != rows[i].id
    ensures IdsBelow(RemoveAt(rows, i), nextId)
  {
    var r := RemoveAt(rows, i);
    forall x ensures x in r <==> x in rows && x.id != rows[i].id {
      if x in r {
        var j :| 0 <= j < |r| && r[j] == x;
        if j < i { assert rows[j] == x; } else { assert rows[j + 1] == x; }
      }
      if x in rows && x.id != rows[i].id {
        var j :| 0 <= j < |rows| && rows[j] == x;
        if j < i { assert r[j] == x; } else { assert r[j - 1] == x; }
      }
    }
  }

  /** A new row takes the next id, so the order and bounds are kept. */
  lemma AppendKeepsIds<T>(rows: seq<Row<T>>, nextId: int, x: Row<T>)
    requires IdsBelow(rows, nextId) && x.id == nextId
    ensures IdsBelow(rows + [x], nextId + 1)
  {
  }

  /** Replacing a row's columns keeps its id, so the order and bounds are kept. */
  lemma ReplaceKeepsIds<T>(rows: seq<Row<T>>, nextId: int, i: nat, x: Row<T>)
    requires IdsBelow(rows, nextId) && i < |rows| && x.id == rows[i].id
    ensures IdsBelow(rows[i := x], nextId)
  {
  }
}
