/** The transactions page: the wallet summary over the fetched transactions
    and the create/edit form. Server responses are inputs. */
module TransactionPage {
  import opened Wrappers
  import opened ClientRecords
  import opened Lists

  predicate IsIncome(t: ClientTransaction) {
    t.kind == Some("income")
  }

  predicate IsExpense(t: ClientTransaction) {
    t.kind == Some("expense")
  }

  /** `calculateSummary`'s four figures. */
  datatype Summary = Summary(
    totalIncome: real, totalExpenses: real, walletBalance: real, periodChange: real)

  /** `calculateSummary`: income sums the type `'income'` exactly, expenses the
      type `'expense'` exactly; balance and period change are their difference. */
  function Summarize(ts: seq<ClientTransaction>): (r: Summary)
    ensures r.walletBalance == r.totalIncome - r.totalExpenses
    ensures r.periodChange == r.walletBalance
  {
    var income := TotalAmount(Filter(ts, IsIncome));
    var expenses := TotalAmount(Filter(ts, IsExpense));
    Summary(income, expenses, income - expenses, income - expenses)
  }

  /** One more transaction moves the totals by its amount according to its
      type: an income raises the balance by it, an expense lowers it, any
      other type (including `'Income'` or `'EXPENSE'`) changes nothing. */
  lemma {:induction false} SummarizeSnoc(ts: seq<ClientTransaction>, t: ClientTransaction)
    ensures Summarize(ts + [t]).totalIncome
         == Summarize(ts).totalIncome + (if IsIncome(t) then t.amount else 0.0)
    ensures Summarize(ts + [t]).totalExpenses
         == Summarize(ts).totalExpenses + (if IsExpense(t) then t.amount else 0.0)
    ensures Summarize(ts + [t]).walletBalance
         == Summarize(ts).walletBalance
            + (if IsIncome(t) then t.amount else if IsExpense(t) then -t.amount else 0.0)
  {
    FilterSnoc(ts, t, IsIncome);
    FilterSnoc(ts, t, IsExpense);
    TotalAmountAppend(Filter(ts, IsIncome), if IsIncome(t) then [t] else []);
    TotalAmountAppend(Filter(ts, IsExpense), if IsExpense(t) then [t] else []);
  }

  /** The five form fields. Fields copied from a record may be `null`. */
  datatype TransactionForm = TransactionForm(
    kind: Option<string>, amount: FormAmount, category: Option<string>,
    description: Option<string>, date: Option<string>)

  const EmptyForm := TransactionForm(Some(""), Typed(""), Some(""), Some(""), Some(""))

  /** The body `handleSubmit` sends; the owner is always user 1, and a `None`
      amount is a NaN, sent as `null`. */
  datatype TransactionBody = TransactionBody(
    kind: Option<string>, amount: Option<real>, category: Option<string>,
    description: Option<string>, date: Option<string>, userId: int)

  datatype TransactionRequest =
    | CreateRequest(body: TransactionBody)
    | UpdateRequest(id: int, body: TransactionBody)

  /** Component state of the page. `parse` is JavaScript's `parseFloat`, with
      `None` for NaN. */
  class Page {
    var transactions: seq<ClientTransaction>
    var showForm: bool
    var editingId: Option<int>
    var formData: TransactionForm
    const parse: string -> Option<real>

    constructor (parse: string -> Option<real>)
      ensures transactions == [] && !showForm && editingId.None? && formData == EmptyForm
      ensures this.parse == parse
    {
      transactions := [];
      showForm := false;
      editingId := None;
      formData := EmptyForm;
      this.parse := parse;
    }

    /** `fetchTransactions`: the response's list, or empty when the request
        fails or carries no data. */
    method Load(response: Option<seq<ClientTransaction>>)
      modifies this
      ensures transactions == response.GetOr([])
      ensures showForm == old(showForm) && editingId == old(editingId) && formData == old(formData)
    {
      transactions := response.GetOr([]);
    }

    /** `handleEdit`: the five fields into the form, the id as the one being
        edited, and the form opened. */
    method Edit(t: ClientTransaction)
      modifies this
      ensures formData == TransactionForm(t.kind, FromNumber(t.amount), t.category, t.description, t.date)
      ensures editingId == Some(t.id) && showForm
      ensures transactions == old(transactions)
    {
      formData := TransactionForm(t.kind, FromNumber(t.amount), t.category, t.description, t.date);
      editingId := Some(t.id);
      showForm := true;
    }

    /** The request `handleSubmit` sends: an update when `editingId` is truthy
        (present and not 0), a creation otherwise, always for user 1. */
    function Request(): (r: TransactionRequest)
      reads this
      ensures r.UpdateRequest? <==> editingId.Some? && editingId.value != 0
      ensures r.UpdateRequest? ==> r.id == editingId.value
      ensures r.body.userId == 1
      ensures r.body.kind == formData.kind && r.body.category == formData.category
      ensures r.body.description == formData.description && r.body.date == formData.date
      ensures r.body.amount == ParseAmount(formData.amount, parse)
    {
      var body := TransactionBody(formData.kind, ParseAmount(formData.amount, parse), formData.category,
                                  formData.description, formData.date, 1);
      if editingId.Some? && editingId.value != 0 then UpdateRequest(editingId.value, body)
      else CreateRequest(body)
    }

    /** `handleSubmit` after the server answered: on success the form is
        closed and emptied and the list reloaded; on failure nothing changes. */
    method Submit(saved: bool, reloaded: Option<seq<ClientTransaction>>) returns (sent: TransactionRequest)
      modifies this
      ensures sent == old(Request())
      ensures saved ==> !showForm && editingId.None? && formData == EmptyForm
      ensures saved ==> transactions == reloaded.GetOr([])
      ensures !saved ==> transactions == old(transactions) && showForm == old(showForm)
      ensures !saved ==> editingId == old(editingId) && formData == old(formData)
    {
      sent := Request();
      if saved {
        showForm := false;
        editingId := None;
        formData := EmptyForm;
        Load(reloaded);
      }
    }

    /** The form's Cancel button. */
    method Cancel()
      modifies this
      ensures !showForm && editingId.None? && formData == EmptyForm
      ensures transactions == old(transactions)
    {
      showForm := false;
      editingId := None;
      formData := EmptyForm;
    }
  }
}
