/** The administrator's transaction list: filtering by owner, pages of ten,
    and local removal after a delete. */
module TransactionAdminPage {
  import opened Wrappers
  import opened Lists

  /** A JSON value found where an owner id may be: a number, a string, or
      nothing (`undefined`, `null`, or a missing parent object). */
  datatype OwnerValue = Num(n: int) | Str(s: string) | Missing

  predicate OwnerTruthy(v: OwnerValue) {
    match v
    case Num(n) => n != 0
    case Str(s) => s != ""
    case Missing => false
  }

  /** The owner fields a transaction may carry: `userId`, `user_id`,
      `user.id` and `createdBy.id`. */
  datatype AdminTransaction = AdminTransaction(
    id: int, camelOwner: OwnerValue, snakeOwner: OwnerValue,
    userOwner: OwnerValue, creatorOwner: OwnerValue)

  /** `t.userId || t.user_id || t.user?.id || t.createdBy?.id`: the first
      truthy field, else the last one. */
  function Owner(t: AdminTransaction): (r: OwnerValue)
    ensures OwnerTruthy(t.camelOwner) ==> r == t.camelOwner
    ensures !OwnerTruthy(t.camelOwner) && OwnerTruthy(t.snakeOwner) ==> r == t.snakeOwner
    ensures !OwnerTruthy(t.camelOwner) && !OwnerTruthy(t.snakeOwner) && OwnerTruthy(t.userOwner)
            ==> r == t.userOwner
    ensures !OwnerTruthy(t.camelOwner) && !OwnerTruthy(t.snakeOwner) && !OwnerTruthy(t.userOwner)
            ==> r == t.creatorOwner
  {
    if OwnerTruthy(t.camelOwner) then t.camelOwner
    else if OwnerTruthy(t.snakeOwner) then t.snakeOwner
    else if OwnerTruthy(t.userOwner) then t.userOwner
    else t.creatorOwner
  }

  /** The owner equals the selection as a number (`parseInt`, `None` for
      NaN, which equals nothing) or as the string itself. */
  predicate Selected(t: AdminTransaction, selection: string, parsed: Option<int>) {
    (parsed.Some? && Owner(t) == Num(parsed.value)) || Owner(t) == Str(selection)
  }

  /** `getFilteredTransactions`: everything for the empty selection, else the
      transactions whose owner matches, in their original order. */
  function Filtered(ts: seq<AdminTransaction>, selection: string, parsed: Option<int>): (r: seq<AdminTransaction>)
    ensures selection == "" ==> r == ts
    ensures selection != "" ==> forall t :: t in r <==> t in ts && Selected(t, selection, parsed)
    ensures |r| <= |ts|
  {
    if selection == "" then ts else Filter(ts, t => Selected(t, selection, parsed))
  }

  /** Filtering the concatenation of two lists filters each in turn, so the
      relative order of the kept transactions never changes. */
  lemma FilteredAppend(ts: seq<AdminTransaction>, us: seq<AdminTransaction>, selection: string, parsed: Option<int>)
    ensures Filtered(ts + us, selection, parsed) == Filtered(ts, selection, parsed) + Filtered(us, selection, parsed)
  {
    if selection != "" {
      FilterAppend(ts, us, t => Selected(t, selection, parsed));
    }
  }

  const ItemsPerPage := 10

  /** JavaScript's index normalisation in `slice`: a negative index counts from
      the end, and both ends are clamped to the length. */
  function SliceIndex(i: int, len: nat): (r: nat)
    ensures r <= len
    ensures 0 <= i ==> r == if i < len then i else len
    ensures i < 0 ==> r == if len + i > 0 then len + i else 0
  {
    if i < 0 then (if len + i > 0 then len + i else 0) else if i < len then i else len
  }

  /** `xs.slice(start, end)`. */
  function Slice<T>(xs: seq<T>, start: int, end: int): (r: seq<T>)
    ensures |r| <= |xs|
    ensures SliceIndex(start, |xs|) <= SliceIndex(end, |xs|) ==>
              r == xs[SliceIndex(start, |xs|)..SliceIndex(end, |xs|)]
    ensures SliceIndex(end, |xs|) < SliceIndex(start, |xs|) ==> r == []
  {
    var s, e := SliceIndex(start, |xs|), SliceIndex(end, |xs|);
    if s <= e then xs[s..e] else []
  }

  /** `getPaginatedTransactions`: page `p` of the filtered list. */
  function PageOf<T>(xs: seq<T>, p: int): (r: seq<T>)
    ensures |r| <= ItemsPerPage
    ensures p >= 1 ==> r == xs[Min((p - 1) * ItemsPerPage, |xs|)..Min(p * ItemsPerPage, |xs|)]
  {
    Slice(xs, (p - 1) * ItemsPerPage, (p - 1) * ItemsPerPage + ItemsPerPage)
  }

  function Min(a: int, b: int): int {
    if a < b then a else b
  }

  /** `getTotalPages`: `Math.ceil(length / 10)`, the least number of pages of
      ten that hold the whole list. */
  function TotalPages(length: nat): (r: nat)
    ensures r * ItemsPerPage >= length
    ensures r > 0 ==> (r - 1) * ItemsPerPage < length
  {
    (length + ItemsPerPage - 1) / ItemsPerPage
  }

  /** Pages 1 to `k`, one after the other. */
  function Pages<T>(xs: seq<T>, k: nat): seq<T> {
    if k == 0 then [] else Pages(xs, k - 1) + PageOf(xs, k)
  }

  lemma {:induction false} PagesPrefix<T>(xs: seq<T>, k: nat)
    ensures Pages(xs, k) == xs[..Min(k * ItemsPerPage, |xs|)]
  {
    if k > 0 {
      PagesPrefix(xs, k - 1);
      var a, b := Min((k - 1) * ItemsPerPage, |xs|), Min(k * ItemsPerPage, |xs|);
      assert xs[..a] + xs[a..b] == xs[..b];
    }
  }

  /** Concatenating pages 1 to the total gives back the whole list. */
  lemma PagesCoverAll<T>(xs: seq<T>)
    ensures Pages(xs, TotalPages(|xs|)) == xs
  {
    PagesPrefix(xs, TotalPages(|xs|));
    assert xs[..|xs|] == xs;
  }

  function AdminId(t: AdminTransaction): int {
    t.id
  }

  /** Component state of the page. `parseInt` is JavaScript's `parseInt`,
      with `None` for NaN. */
  class Page {
    var transactions: seq<AdminTransaction>
    var selectedUserId: string
    var currentPage: int
    const parseInt: string -> Option<int>

    constructor (parseInt: string -> Option<int>)
      ensures transactions == [] && selectedUserId == "" && currentPage == 1
      ensures this.parseInt == parseInt
    {
      transactions := [];
      selectedUserId := "";
      currentPage := 1;
      this.parseInt := parseInt;
    }

    function Visible(): (r: seq<AdminTransaction>)
      reads this
      ensures |r| <= ItemsPerPage
      ensures currentPage >= 1 ==> r == Filtered(transactions, selectedUserId, parseInt(selectedUserId))[
        Min((currentPage - 1) * ItemsPerPage, |Filtered(transactions, selectedUserId, parseInt(selectedUserId))|)..
        Min(currentPage * ItemsPerPage, |Filtered(transactions, selectedUserId, parseInt(selectedUserId))|)]
    {
      PageOf(Filtered(transactions, selectedUserId, parseInt(selectedUserId)), currentPage)
    }

    /** `handleUserFilterChange`: a new selection always starts at page 1. */
    method UserFilterChange(userId: string)
      modifies this
      ensures selectedUserId == userId && currentPage == 1
      ensures transactions == old(transactions)
    {
      selectedUserId := userId;
      currentPage := 1;
    }

    /** `handlePageChange`. */
    method PageChange(page: int)
      modifies this
      ensures currentPage == page
      ensures transactions == old(transactions) && selectedUserId == old(selectedUserId)
    {
      currentPage := page;
    }

    /** `deleteTransaction` after the server answered: on success exactly the
        transactions with that id leave the list, the rest keep their order;
        on failure nothing changes. */
    method DeleteTransaction(id: int, ok: bool)
      modifies this
      ensures ok ==> transactions == WithoutKey(old(transactions), AdminId, id)
      ensures !ok ==> transactions == old(transactions)
      ensures selectedUserId == old(selectedUserId) && currentPage == old(currentPage)
    {
      if ok {
        transactions := WithoutKey(transactions, AdminId, id);
      }
    }
  }
}
