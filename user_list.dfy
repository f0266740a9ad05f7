/** The administrator's user list: removal and replacement of users after the
    server answered, and the inline edit form. Server answers and the
    confirmation dialog are inputs. */
module UserList {
  import opened Wrappers
  import opened ClientRecords
  import opened Lists

  /** A user as the admin endpoint returns it; a `None` field is `null` or
      missing. */
  datatype ListUser = ListUser(id: int, name: Option<string>, email: Option<string>, role: Option<string>)

  /** The three fields of the inline edit form, sent as the update's body. */
  datatype EditForm = EditForm(name: string, email: string, role: string)

  const EmptyForm := EditForm("", "", "")

  /** The form `startEdit` fills from a user. */
  function FormFor(u: ListUser): (r: EditForm)
    ensures r.name == OrDefault(u.name, "") && r.email == OrDefault(u.email, "")
    ensures r.role == OrDefault(u.role, "USER")
    ensures r.role != ""
  {
    EditForm(OrDefault(u.name, ""), OrDefault(u.email, ""), OrDefault(u.role, "USER"))
  }

  function UserId(u: ListUser): int {
    u.id
  }

  /** Component state of the list. */
  class Page {
    var users: seq<ListUser>
    var editingUser: Option<int>
    var editForm: EditForm

    constructor ()
      ensures users == [] && editingUser.None? && editForm == EmptyForm
    {
      users := [];
      editingUser := None;
      editForm := EmptyForm;
    }

    /** `deleteUser`: nothing is sent unless the dialog is confirmed; after a
        successful delete exactly the users with that id leave the list, and
        after a failed one the list stays as it was. */
    method DeleteUser(id: int, confirmed: bool, ok: bool) returns (sent: bool)
      modifies this
      ensures sent == confirmed
      ensures sent && ok ==> users == WithoutKey(old(users), UserId, id)
      ensures !(sent && ok) ==> users == old(users)
      ensures editingUser == old(editingUser) && editForm == old(editForm)
    {
      sent := confirmed;
      if confirmed && ok {
        users := WithoutKey(users, UserId, id);
      }
    }

    /** `startEdit`: the user's id is the one being edited, and the form holds
        name and email (default empty) and role (default `'USER'`). */
    method StartEdit(u: ListUser)
      modifies this
      ensures editingUser == Some(u.id) && editForm == FormFor(u)
      ensures users == old(users)
    {
      editingUser := Some(u.id);
      editForm := FormFor(u);
    }

    /** `cancelEdit`: nothing is being edited and the form is empty. */
    method CancelEdit()
      modifies this
      ensures editingUser.None? && editForm == EmptyForm
      ensures users == old(users)
    {
      editingUser := None;
      editForm := EmptyForm;
    }

    /** `updateUser`: the form is the body sent; when the server answers with
        the updated user, it takes the place of every entry with that id and
        the edit ends; otherwise nothing changes. */
    method UpdateUser(id: int, updated: Option<ListUser>) returns (sent: EditForm)
      modifies this
      ensures sent == old(editForm)
      ensures updated.Some? ==> users == ReplaceKey(old(users), UserId, id, updated.value)
      ensures updated.Some? ==> editingUser.None?
      ensures updated.None? ==> users == old(users) && editingUser == old(editingUser)
      ensures editForm == old(editForm)
    {
      sent := editForm;
      if updated.Some? {
        users := ReplaceKey(users, UserId, id, updated.value);
        editingUser := None;
      }
    }
  }

  /** No two users in the list share an id. */
  predicate UniqueIds(users: seq<ListUser>) {
    forall i, j :: 0 <= i < j < |users| ==> users[i].id != users[j].id
  }

  /** A delete keeps the ids unique. */
  lemma {:induction false} DeleteKeepsIdsUnique(users: seq<ListUser>, id: int)
    requires UniqueIds(users)
    ensures UniqueIds(WithoutKey(users, UserId, id))
  {
    if users != [] {
      var init, last := users[..|users| - 1], users[|users| - 1];
      assert users == init + [last];
      DeleteKeepsIdsUnique(init, id);
      WithoutKeySnoc(init, last, UserId, id);
      var kept := WithoutKey(init, UserId, id);
      forall k | 0 <= k < |kept| ensures kept[k].id != last.id {
        assert kept[k] in init;
      }
    }
  }

  /** An update whose answer keeps the edited id keeps the ids unique. */
  lemma UpdateKeepsIdsUnique(users: seq<ListUser>, id: int, updated: ListUser)
    requires UniqueIds(users) && updated.id == id
    ensures UniqueIds(ReplaceKey(users, UserId, id, updated))
  {
    var r := ReplaceKey(users, UserId, id, updated);
    assert forall i :: 0 <= i < |users| ==> r[i].id == users[i].id;
  }
}
