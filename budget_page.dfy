/** The budget page: how much of each budget was spent, the progress bar and
    its colour, the category look-up, the list filter and order, the history
    of one budget, and the create/edit form. Server responses are inputs. */
module BudgetPage {
  import opened Wrappers
  import opened Text
  import opened ClientRecords
  import opened Lists
  import opened Sorting

  datatype ClientBudget = ClientBudget(
    id: int, category: string, amount: real, startDate: string, endDate: string)

  /** A budget as the page keeps it: the record with its spent amount. */
  datatype BudgetView = BudgetView(budget: ClientBudget, spent: real)

  /** `t.category && t.category.toLowerCase() === category.toLowerCase()` */
  predicate CategoryMatch(t: ClientTransaction, category: string) {
    Truthy(t.category) && EqualsIgnoreCase(t.category.value, category)
  }

  /** `t.type && (t.type.toLowerCase() === 'expense' || t.type === 'EXPENSE')` */
  predicate TypeMatch(t: ClientTransaction) {
    Truthy(t.kind) && (Lower(t.kind.value) == "expense" || t.kind.value == "EXPENSE")
  }

  /** `t.date >= startDate && t.date <= endDate`, compared as strings. */
  predicate DateMatch(t: ClientTransaction, startDate: string, endDate: string) {
    t.date.Some? && LexLe(startDate, t.date.value) && LexLe(t.date.value, endDate)
  }

  predicate Counts(t: ClientTransaction, category: string, startDate: string, endDate: string) {
    CategoryMatch(t, category) && TypeMatch(t) && DateMatch(t, startDate, endDate)
  }

  /** `calculateSpentAmount`: the total of the transactions that count, 0
      when none does. */
  function Spent(ts: seq<ClientTransaction>, category: string, startDate: string, endDate: string): (r: real)
    ensures (forall i :: 0 <= i < |ts| ==> !Counts(ts[i], category, startDate, endDate)) ==> r == 0.0
  {
    TotalAmount(Filter(ts, t => Counts(t, category, startDate, endDate)))
  }

  /** The upper-case spelling the type test also accepts is already covered by
      the lower-cased comparison. */
  lemma TypeMatchIsCaseInsensitive(t: ClientTransaction)
    ensures TypeMatch(t) <==> Truthy(t.kind) && EqualsIgnoreCase(t.kind.value, "expense")
  {
    LowerExpense();
  }

  lemma LowerExpense()
    ensures Lower("expense") == "expense" && Lower("EXPENSE") == "expense"
  {
    var e, u := "expense", "EXPENSE";
    assert e == [e[0]] + e[1..];
    assert Lower(e[6..]) == "e";
    assert Lower(e[5..]) == "se";
    assert Lower(e[4..]) == "nse";
    assert Lower(e[3..]) == "ense";
    assert Lower(e[2..]) == "pense";
    assert Lower(e[1..]) == "xpense";
    assert Lower(u[6..]) == "e";
    assert Lower(u[5..]) == "se";
    assert Lower(u[4..]) == "nse";
    assert Lower(u[3..]) == "ense";
    assert Lower(u[2..]) == "pense";
    assert Lower(u[1..]) == "xpense";
  }

  /** One more transaction raises spent by its amount when it counts and
      leaves spent alone otherwise (income, another category, outside the
      window). */
  lemma SpentSnoc(ts: seq<ClientTransaction>, t: ClientTransaction, category: string, startDate: string, endDate: string)
    ensures Spent(ts + [t], category, startDate, endDate)
         == Spent(ts, category, startDate, endDate)
            + (if Counts(t, category, startDate, endDate) then t.amount else 0.0)
  {
    var keep := (u: ClientTransaction) => Counts(u, category, startDate, endDate);
    FilterSnoc(ts, t, keep);
    TotalAmountAppend(Filter(ts, keep), if keep(t) then [t] else []);
  }

  /** Spent is not negative when no amount is. */
  lemma SpentNonNegative(ts: seq<ClientTransaction>, category: string, startDate: string, endDate: string)
    requires forall i :: 0 <= i < |ts| ==> ts[i].amount >= 0.0
    ensures Spent(ts, category, startDate, endDate) >= 0.0
  {
    var f := Filter(ts, t => Counts(t, category, startDate, endDate));
    forall i | 0 <= i < |f| ensures f[i].amount >= 0.0 {
      assert f[i] in ts;
    }
    TotalAmountNonNegative(f);
  }

  const Green := "#28a745"
  const Yellow := "#ffc107"
  const Red := "#dc3545"

  /** `getProgressColor`: green when nothing is spent, yellow while the
      percentage is below 100, red from 100 on; red exactly when the bar is
      full. With a zero budget the JavaScript quotient is an infinity or NaN:
      only a negative spent (minus infinity) is below 100. */
  function ProgressColor(spent: real, budget: real): (r: string)
    ensures budget != 0.0 ==> (r == Green <==> spent == 0.0)
    ensures budget != 0.0 ==> (r == Red <==> ProgressPercentage(spent, budget) == 100.0)
    ensures budget != 0.0 ==> (r == Yellow <==> spent != 0.0 && ProgressPercentage(spent, budget) < 100.0)
    ensures budget == 0.0 ==> r == (if spent < 0.0 then Yellow else Red)
  {
    if budget == 0.0 then (if spent < 0.0 then Yellow else Red)
    else
      var p := spent / budget * 100.0;
      if p == 0.0 then Green else if p < 100.0 then Yellow else Red
  }

  datatype Category = Category(name: string, icon: string, color: string)

  function Categories(): seq<Category> {
    [ Category("Food", "\U{1F37D}\U{FE0F}", "#FF6B6B"),
      Category("Travel", "\U{2708}\U{FE0F}", "#4ECDC4"),
      Category("Bill", "\U{1F4C4}", "#45B7D1"),
      Category("Home", "\U{1F3E0}", "#96CEB4"),
      Category("Car", "\U{1F697}", "#FFEAA7"),
      Category("Family", "\U{1F468}\U{200D}\U{1F469}\U{200D}\U{1F467}\U{200D}\U{1F466}", "#DDA0DD"),
      Category("Personal", "\U{1F464}", "#98D8C8"),
      Category("Other", "\U{1F4E6}", "#F7DC6F") ]
  }

  const FallbackIcon := "\U{1F4E6}"
  const FallbackColor := "#34656D"

  /** Entry `i` is the first whose name matches `name` case-insensitively. */
  predicate FirstMatch(cats: seq<Category>, name: string, i: int) {
    0 <= i < |cats| && EqualsIgnoreCase(cats[i].name, name)
    && forall j :: 0 <= j < i ==> !EqualsIgnoreCase(cats[j].name, name)
  }

  predicate NoMatch(cats: seq<Category>, name: string) {
    forall j :: 0 <= j < |cats| ==> !EqualsIgnoreCase(cats[j].name, name)
  }

  /** `categories.find(...)`: the index of the first matching entry. */
  function FindCategory(cats: seq<Category>, name: string): (r: Option<nat>)
    ensures r.Some? ==> FirstMatch(cats, name, r.value)
    ensures r.None? <==> NoMatch(cats, name)
  {
    if cats == [] then None
    else if EqualsIgnoreCase(cats[0].name, name) then Some(0)
    else match FindCategory(cats[1..], name)
      case None => None
      case Some(i) => Some(i + 1)
  }

  /** There is at most one first match. */
  lemma FirstMatchUnique(cats: seq<Category>, name: string, i: int, k: int)
    requires FirstMatch(cats, name, i) && FirstMatch(cats, name, k)
    ensures i == k
  {
  }

  /** The looked-up entry, or `fallback` when none matches. */
  function LookUp(cats: seq<Category>, name: string, fallback: Category): (r: Category)
    ensures NoMatch(cats, name) ==> r == fallback
    ensures forall i :: FirstMatch(cats, name, i) ==> r == cats[i]
  {
    match FindCategory(cats, name)
    case Some(i) =>
      assert forall k :: FirstMatch(cats, name, k) ==> k == i by {
        forall k | FirstMatch(cats, name, k) ensures k == i {
          FirstMatchUnique(cats, name, i, k);
        }
      }
      cats[i]
    case None => fallback
  }

  /** `getCategoryIcon`: the icon of the first matching category, or the
      fallback icon when none matches. */
  function CategoryIcon(name: string): (r: string)
    ensures NoMatch(Categories(), name) ==> r == FallbackIcon
    ensures forall i :: FirstMatch(Categories(), name, i) ==> r == Categories()[i].icon
  {
    LookUp(Categories(), name, Category(name, FallbackIcon, FallbackColor)).icon
  }

  /** `getCategoryColor`: the colour of the first matching category, or the
      fallback colour when none matches. */
  function CategoryColor(name: string): (r: string)
    ensures NoMatch(Categories(), name) ==> r == FallbackColor
    ensures forall i :: FirstMatch(Categories(), name, i) ==> r == Categories()[i].color
  {
    LookUp(Categories(), name, Category(name, FallbackIcon, FallbackColor)).color
  }

  /** The over-budget flag of a card. */
  predicate OverBudget(v: BudgetView) {
    v.spent > v.budget.amount
  }

  /** The amount shown on a card: what is left, negative once over budget. */
  function Remaining(v: BudgetView): (r: real)
    ensures r < 0.0 <==> OverBudget(v)
    ensures r + v.spent == v.budget.amount
  {
    v.budget.amount - v.spent
  }

  predicate Shown(v: BudgetView, filter: string) {
    filter == "" || Lower(v.budget.category) == filter
  }

  /** The cards shown for a category filter: all with the empty filter,
      otherwise those whose lower-cased category equals the filter. */
  function VisibleBudgets(vs: seq<BudgetView>, filter: string): (r: seq<BudgetView>)
    ensures forall v :: v in r <==> v in vs && (filter == "" || Lower(v.budget.category) == filter)
  {
    Filter(vs, v => Shown(v, filter))
  }

  lemma EmptyFilterShowsAll(vs: seq<BudgetView>)
    ensures VisibleBudgets(vs, "") == vs
  {
    FilterAll(vs, v => Shown(v, ""));
  }

  function StartKey(v: BudgetView): string {
    v.budget.startDate
  }

  function DateKey(t: ClientTransaction): string {
    t.date.GetOr("")
  }

  /** `fetchBudgets`: each budget with its spent amount, newest start first. */
  function Views(bs: seq<ClientBudget>, ts: seq<ClientTransaction>): (r: seq<BudgetView>)
    ensures |r| == |bs|
    ensures forall i :: 0 <= i < |bs| ==>
      r[i] == BudgetView(bs[i], Spent(ts, bs[i].category, bs[i].startDate, bs[i].endDate))
  {
    seq(|bs|, i requires 0 <= i < |bs| =>
      BudgetView(bs[i], Spent(ts, bs[i].category, bs[i].startDate, bs[i].endDate)))
  }

  predicate InHistory(t: ClientTransaction, b: ClientBudget) {
    CategoryMatch(t, b.category) && DateMatch(t, b.startDate, b.endDate)
  }

  /** `handleBudgetClick`: every transaction of the budget's category and
      window, of any type, newest first. */
  function History(ts: seq<ClientTransaction>, b: ClientBudget): (r: seq<ClientTransaction>)
    ensures SortedDesc(r, DateKey)
    ensures forall t :: t in r <==> t in ts && InHistory(t, b)
    ensures |r| <= |ts|
  {
    var f := Filter(ts, t => InHistory(t, b));
    var r := SortDesc(f, DateKey);
    assert forall t :: t in r <==> t in multiset(r);
    r
  }

  /** The four text fields of the form; the amount may be typed or copied. */
  datatype BudgetForm = BudgetForm(
    category: string, amount: FormAmount, startDate: string, endDate: string)

  const EmptyForm := BudgetForm("", Typed(""), "", "")

  /** The body the form sends; a `None` amount is a NaN, sent as `null`. */
  datatype BudgetBody = BudgetBody(
    category: string, amount: Option<real>, startDate: string, endDate: string)

  /** What the form sends: a new budget, or changes to an existing one. */
  datatype BudgetRequest =
    | CreateRequest(data: BudgetBody)
    | UpdateRequest(id: int, data: BudgetBody)

  /** Component state of the page. `parse` is JavaScript's `parseFloat`, with
      `None` for NaN. */
  class Page {
    var budgets: seq<BudgetView>
    var showForm: bool
    var editingId: Option<int>
    var formData: BudgetForm
    var selectedBudget: Option<ClientBudget>
    var categoryTransactions: seq<ClientTransaction>
    const parse: string -> Option<real>

    constructor (parse: string -> Option<real>)
      ensures budgets == [] && !showForm && editingId.None? && formData == EmptyForm
      ensures selectedBudget.None? && categoryTransactions == []
      ensures this.parse == parse
    {
      budgets := [];
      showForm := false;
      editingId := None;
      formData := EmptyForm;
      selectedBudget := None;
      categoryTransactions := [];
      this.parse := parse;
    }

    /** `fetchBudgets`: with the budgets and transactions fetched, the cards,
        sorted in place by start date, newest first; a failed fetch changes
        nothing. */
    method Load(response: Option<(seq<ClientBudget>, seq<ClientTransaction>)>)
      modifies this
      ensures response.Some? ==> budgets == SortDesc(Views(response.value.0, response.value.1), StartKey)
      ensures response.Some? ==> SortedDesc(budgets, StartKey)
      ensures response.Some? ==> multiset(budgets) == multiset(Views(response.value.0, response.value.1))
      ensures response.None? ==> budgets == old(budgets)
      ensures showForm == old(showForm) && editingId == old(editingId) && formData == old(formData)
      ensures selectedBudget == old(selectedBudget) && categoryTransactions == old(categoryTransactions)
    {
      if response.Some? {
        var (bs, ts) := response.value;
        budgets := SortDesc(Views(bs, ts), StartKey);
      }
    }

    /** `handleEdit`: the budget's fields into the form, its id as the one
        being edited, and the form opened. */
    method Edit(b: ClientBudget)
      modifies this
      ensures formData == BudgetForm(b.category, FromNumber(b.amount), b.startDate, b.endDate)
      ensures editingId == Some(b.id) && showForm
      ensures budgets == old(budgets)
      ensures selectedBudget == old(selectedBudget) && categoryTransactions == old(categoryTransactions)
    {
      formData := BudgetForm(b.category, FromNumber(b.amount), b.startDate, b.endDate);
      editingId := Some(b.id);
      showForm := true;
    }

    /** The body `handleSubmit` sends: an update when `editingId` is truthy
        (present and not 0), a creation otherwise. */
    function Request(): (r: BudgetRequest)
      reads this
      ensures r.UpdateRequest? <==> editingId.Some? && editingId.value != 0
      ensures r.UpdateRequest? ==> r.id == editingId.value
      ensures r.data.category == formData.category && r.data.startDate == formData.startDate
      ensures r.data.endDate == formData.endDate
      ensures r.data.amount == ParseAmount(formData.amount, parse)
    {
      var data := BudgetBody(formData.category, ParseAmount(formData.amount, parse),
                             formData.startDate, formData.endDate);
      if editingId.Some? && editingId.value != 0 then UpdateRequest(editingId.value, data)
      else CreateRequest(data)
    }

    /** `handleSubmit` after the server answered: on success the cards are
        reloaded and the form is closed and emptied; on failure nothing
        changes. */
    method Submit(saved: bool, reloaded: Option<(seq<ClientBudget>, seq<ClientTransaction>)>)
      returns (sent: BudgetRequest)
      modifies this
      ensures sent == old(Request())
      ensures saved && reloaded.Some? ==> budgets == SortDesc(Views(reloaded.value.0, reloaded.value.1), StartKey)
      ensures saved && reloaded.None? ==> budgets == old(budgets)
      ensures saved ==> !showForm && editingId.None? && formData == EmptyForm
      ensures !saved ==> budgets == old(budgets) && showForm == old(showForm)
      ensures !saved ==> editingId == old(editingId) && formData == old(formData)
      ensures selectedBudget == old(selectedBudget) && categoryTransactions == old(categoryTransactions)
    {
      sent := Request();
      if saved {
        Load(reloaded);
        showForm := false;
        editingId := None;
        formData := EmptyForm;
      }
    }

    /** The form's Cancel button. */
    method Cancel()
      modifies this
      ensures !showForm && editingId.None? && formData == EmptyForm
      ensures budgets == old(budgets)
      ensures selectedBudget == old(selectedBudget) && categoryTransactions == old(categoryTransactions)
    {
      showForm := false;
      editingId := None;
      formData := EmptyForm;
    }

    /** `handleBudgetClick`: selects the budget and lists its history, or
        nothing when the transactions could not be fetched. */
    method Select(b: ClientBudget, response: Option<seq<ClientTransaction>>)
      modifies this
      ensures selectedBudget == Some(b)
      ensures categoryTransactions == if response.Some? then History(response.value, b) else []
      ensures budgets == old(budgets) && showForm == old(showForm)
      ensures editingId == old(editingId) && formData == old(formData)
    {
      selectedBudget := Some(b);
      if response.Some? {
        categoryTransactions := History(response.value, b);
      } else {
        categoryTransactions := [];
      }
    }
  }
}
