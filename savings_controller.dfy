/** `SavingsController`: get, create, update and delete of savings goals over the savings table, with
    every change checked against the calling user. The caller is the result
    of looking up the authenticated email (`findByEmail`), so `None` is the
    "User not found" exception. Thrown exceptions are `Err` with their
    message. */
module SavingsController {
  import opened Wrappers
  import opened Entities
  import opened OwnedRows

  /** The request body: its `user_id` is never read. */
  datatype SavingsRequest = SavingsRequest(userId: Option<int>, data: SavingsData)

  class SavingsController {
    var rows: seq<Savings>
    var nextId: int

    ghost predicate Valid()
      reads this
    {
      IdsBelow(rows, nextId)
    }

    constructor()
      ensures Valid() && rows == [] && nextId == 1
    {
      rows := [];
      nextId := 1;
    }

    /** `GET`: exactly the caller's rows (`findByUser`). */
    function GetAllSavings(caller: Option<int>): (r: Result<seq<Savings>>)
      reads this
      ensures r.Err? <==> caller.None?
      ensures r.Err? ==> r.message == "User not found"
      ensures r.Ok? ==> forall x :: x in r.value <==> x in rows && x.owner == caller.value
    {
      if caller.None? then Err("User not found") else Ok(OwnedBy(rows, caller.value))
    }

    /** `POST`: the new row belongs to the caller, whatever the body says. */
    method CreateSavings(caller: Option<int>, dto: SavingsRequest) returns (r: Result<Savings>)
      requires Valid()
      modifies this
      ensures Valid()
      ensures caller.None? ==> r == Err("User not found") && rows == old(rows) && nextId == old(nextId)
      ensures caller.Some? ==>
        && r == Ok(Row(old(nextId), caller.value, dto.data))
        && rows == old(rows) + [r.value]
        && nextId == old(nextId) + 1
    {
      if caller.None? {
        return Err("User not found");
      }
      var created := Row(nextId, caller.value, dto.data);
      AppendKeepsIds(rows, nextId, created);
      rows := rows + [created];
      nextId := nextId + 1;
      r := Ok(created);
    }

    /** `PUT /{id}`: only the owner may overwrite the columns; id and owner stay. */
    method UpdateSavings(caller: Option<int>, id: int, dto: SavingsRequest) returns (r: Result<Savings>)
      requires Valid()
      modifies this
      ensures Valid() && nextId == old(nextId)
      ensures caller.None? ==> r == Err("User not found") && rows == old(rows)
      ensures caller.Some? && IndexOfId(old(rows), id).None? ==>
        r == Err("Savings goal not found") && rows == old(rows)
      ensures caller.Some? && IndexOfId(old(rows), id).Some? ==>
        var i := IndexOfId(old(rows), id).value;
        if old(rows)[i].owner != caller.value then
          r == Err("Unauthorized access") && rows == old(rows)
        else
          && r == Ok(Row(id, caller.value, dto.data))
          && rows == old(rows)[i := r.value]
    {
      if caller.None? {
        return Err("User not found");
      }
      var i := IndexOfId(rows, id);
      if i.None? {
        return Err("Savings goal not found");
      }
      var existing := rows[i.value];
      if existing.owner != caller.value {
        return Err("Unauthorized access");
      }
      var updated := existing.(data := dto.data);
      ReplaceKeepsIds(rows, nextId, i.value, updated);
      rows := rows[i.value := updated];
      r := Ok(updated);
    }

    /** `DELETE /{id}`: only the owner may delete, and only that row goes. */
    method DeleteSavings(caller: Option<int>, id: int) returns (r: Result<()>)
      requires Valid()
      modifies this
      ensures Valid() && nextId == old(nextId)
      ensures caller.None? ==> r == Err("User not found") && rows == old(rows)
      ensures caller.Some? && IndexOfId(old(rows), id).None? ==>
        r == Err("Savings goal not found") && rows == old(rows)
      ensures caller.Some? && IndexOfId(old(rows), id).Some? ==>
        var i := IndexOfId(old(rows), id).value;
        if old(rows)[i].owner != caller.value then
          r == Err("Unauthorized access") && rows == old(rows)
        else
          && r == Ok(())
          && rows == RemoveAt(old(rows), i)
          && forall x :: x in rows <==> x in old(rows) && x.id != id
    {
      if caller.None? {
        return Err("User not found");
      }
      var i := IndexOfId(rows, id);
      if i.None? {
        return Err("Savings goal not found");
      }
      if rows[i.value].owner != caller.value {
        return Err("Unauthorized access");
      }
      RemoveAtMembers(rows, nextId, i.value);
      rows := RemoveAt(rows, i.value);
      r := Ok(());
    }
  }
}
