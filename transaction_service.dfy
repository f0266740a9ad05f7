/** `TransactionService`: lookup, update and delete of transactions by id.
    The ids of the stored users are passed in, standing for
    `userRepo.findById`. */
module TransactionService {
  import opened Wrappers
  import opened Text
  import opened Entities
  import opened OwnedRows

  /** The request body of an update. */
  datatype TransactionRequest = TransactionRequest(userId: int, data: TransactionData)

  class TransactionService {
    var rows: seq<Transaction>
    var nextId: int

    ghost predicate Valid()
      reads this
    {
      IdsBelow(rows, nextId)
    }

    constructor()
      ensures Valid() && rows == [] && nextId == 1
    {
      rows := [];
      nextId := 1;
    }

    /** `findById`: the row, or the exception naming the id. */
    function FindById(id: int): (r: Result<Transaction>)
      reads this
      ensures r.Ok? <==> exists i :: 0 <= i < |rows| && rows[i].id == id
      ensures r.Ok? ==> r.value in rows && r.value.id == id
      ensures r.Err? ==> r.message == "Transaction not found with ID: " + IntToString(id)
    {
      match IndexOfId(rows, id)
      case None => Err("Transaction not found with ID: " + IntToString(id))
      case Some(i) => Ok(rows[i])
    }

    /** `updateTransaction`: a missing id is reported in the answer, an
        unknown user is thrown before anything is written, and otherwise
        owner and every column are replaced. */
    method UpdateTransaction(id: int, dto: TransactionRequest, users: set<int>) returns (r: Result<string>)
      requires Valid()
      modifies this
      ensures Valid() && nextId == old(nextId)
      ensures IndexOfId(old(rows), id).None? ==> r == Ok("Transaction not found!") && rows == old(rows)
      ensures IndexOfId(old(rows), id).Some? && dto.userId !in users ==>
        r == Err("User not found") && rows == old(rows)
      ensures IndexOfId(old(rows), id).Some? && dto.userId in users ==>
        && r == Ok("Transaction updated successfully!")
        && rows == old(rows)[IndexOfId(old(rows), id).value := Row(id, dto.userId, dto.data)]
    {
      var i := IndexOfId(rows, id);
      if i.None? {
        return Ok("Transaction not found!");
      }
      if dto.userId !in users {
        return Err("User not found");
      }
      var updated := rows[i.value].(owner := dto.userId, data := dto.data);
      ReplaceKeepsIds(rows, nextId, i.value, updated);
      rows := rows[i.value := updated];
      r := Ok("Transaction updated successfully!");
    }

    /** `deleteTransaction`: removes the row iff it exists. */
    method DeleteTransaction(id: int) returns (message: string)
      requires Valid()
      modifies this
      ensures Valid() && nextId == old(nextId)
      ensures IndexOfId(old(rows), id).None? ==> message == "Transaction not found!" && rows == old(rows)
      ensures IndexOfId(old(rows), id).Some? ==>
        && message == "Transaction deleted successfully!"
        && rows == RemoveAt(old(rows), IndexOfId(old(rows), id).value)
        && forall x :: x in rows <==> x in old(rows) && x.id != id
    {
      var i := IndexOfId(rows, id);
      if i.None? {
        return "Transaction not found!";
      }
      RemoveAtMembers(rows, nextId, i.value);
      rows := RemoveAt(rows, i.value);
      message := "Transaction deleted successfully!";
    }
  }
}
