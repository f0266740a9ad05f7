/** The administrator's dashboard: active users, the totals, and the chart
    series built by grouping in dictionaries. The local calendar month of
    each date is an input, as is the current month. */
module AdminDashboard {
  import opened Wrappers
  import opened Text
  import opened Calendar
  import opened Lists
  import opened Tally
  import opened BudgetPage
  import opened SavingsPage

  /** A transaction as the admin endpoint returns it; `localMonth` is the
      month `new Date(t.date)` falls in, `None` for an invalid date. */
  datatype DashTransaction = DashTransaction(
    id: int, userId: Option<int>, kind: Option<string>, amount: real,
    category: Option<string>, localMonth: Option<YearMonth>)

  /** A user's `createdAt`: missing, not a date, or in a month. */
  datatype Stamp = Absent | InvalidStamp | At(month: YearMonth)

  datatype DashUser = DashUser(id: int, createdAt: Stamp)

  /** A chart series: the fixed sample, or data computed from the lists. */
  datatype Series<V> = Sample | Computed(buckets: seq<Bucket<V>>)

  predicate ActiveIn(u: DashUser, ts: seq<DashTransaction>, now: YearMonth) {
    exists i :: 0 <= i < |ts| && ts[i].userId == Some(u.id) && ts[i].localMonth == Some(now)
  }

  /** The users with some transaction of theirs in the current month. */
  function ActiveOnes(users: seq<DashUser>, ts: seq<DashTransaction>, now: YearMonth): (r: seq<DashUser>)
    ensures forall u :: u in r <==> u in users && ActiveIn(u, ts, now)
    ensures |r| <= |users|
  {
    Filter(users, u => ActiveIn(u, ts, now))
  }

  /** `getActiveUsers`: how many users have a transaction in the current
      month, but never fewer than one. */
  function ActiveUsers(users: seq<DashUser>, ts: seq<DashTransaction>, now: YearMonth): (r: nat)
    ensures r >= 1
    ensures r == if |ActiveOnes(users, ts, now)| > 1 then |ActiveOnes(users, ts, now)| else 1
    ensures r <= if |users| > 1 then |users| else 1
  {
    var active := |ActiveOnes(users, ts, now)|;
    if active > 1 then active else 1
  }

  function Amount(t: DashTransaction): real {
    t.amount
  }

  /** `getTotalTransactionAmount`: the amounts added up; not negative when
      no amount is. */
  function TotalTransactionAmount(ts: seq<DashTransaction>): (r: real)
    ensures ts == [] ==> r == 0.0
    ensures (forall i :: 0 <= i < |ts| ==> ts[i].amount >= 0.0) ==> r >= 0.0
  {
    SumMapNonNegative(ts, Amount);
    SumMap(ts, Amount)
  }

  function BudgetAmount(b: ClientBudget): real {
    b.amount
  }

  /** `getTotalBudgetAmount`: the budget amounts added up; not negative when
      no amount is. */
  function TotalBudgetAmount(bs: seq<ClientBudget>): (r: real)
    ensures bs == [] ==> r == 0.0
    ensures (forall i :: 0 <= i < |bs| ==> bs[i].amount >= 0.0) ==> r >= 0.0
  {
    SumMapNonNegative(bs, BudgetAmount);
    SumMap(bs, BudgetAmount)
  }

  /** The three totals are additive over concatenated lists. */
  lemma {:induction false} SumMapAppend<T>(xs: seq<T>, ys: seq<T>, g: T -> real)
    ensures SumMap(xs + ys, g) == SumMap(xs, g) + SumMap(ys, g)
    decreases |ys|
  {
    if ys == [] {
      assert xs + ys == xs;
    } else {
      assert (xs + ys)[..|xs + ys| - 1] == xs + ys[..|ys| - 1];
      SumMapAppend(xs, ys[..|ys| - 1], g);
    }
  }

  /** Income and expenses of one month in the chart. */
  datatype Flow = Flow(income: real, expenses: real)

  function AddFlow(a: Flow, b: Flow): Flow {
    Flow(a.income + b.income, a.expenses + b.expenses)
  }

  function Income(f: Flow): real {
    f.income
  }

  function Expenses(f: Flow): real {
    f.expenses
  }

  /** The `en-US` short month name, or `"Invalid Date"`. */
  function MonthName(m: Option<YearMonth>): string {
    if m.Some? && 1 <= m.value.month <= 12 then ShortMonths[m.value.month - 1] else "Invalid Date"
  }

  function MonthKeyOf(t: DashTransaction): string {
    MonthName(t.localMonth)
  }

  /** `'income'` adds to income, every other type to expenses. */
  function FlowOf(t: DashTransaction): (r: Flow)
    ensures t.kind == Some("income") ==> r == Flow(t.amount, 0.0)
    ensures t.kind != Some("income") ==> r == Flow(0.0, t.amount)
  {
    if t.kind == Some("income") then Flow(t.amount, 0.0) else Flow(0.0, t.amount)
  }

  /** `getChartData`: the sample exactly when there are no transactions,
      else one entry per short month name. */
  function ChartData(ts: seq<DashTransaction>): (r: Series<Flow>)
    ensures r.Sample? <==> ts == []
  {
    if ts == [] then Sample else Computed(TallyOf(ts, MonthKeyOf, FlowOf, AddFlow))
  }

  function IncomeAmount(t: DashTransaction): real {
    Income(FlowOf(t))
  }

  function ExpenseAmount(t: DashTransaction): real {
    Expenses(FlowOf(t))
  }

  /** The chart's income and expenses together account for every amount,
      income for the `'income'` ones and expenses for all others. */
  lemma ChartTotals(ts: seq<DashTransaction>)
    requires ts != []
    ensures SumBy(ChartData(ts).buckets, Income) == SumMap(ts, IncomeAmount)
    ensures SumBy(ChartData(ts).buckets, Expenses) == SumMap(ts, ExpenseAmount)
    ensures SumBy(ChartData(ts).buckets, Income) + SumBy(ChartData(ts).buckets, Expenses)
         == TotalTransactionAmount(ts)
    ensures DistinctKeys(ChartData(ts).buckets)
  {
    TallySum(ts, MonthKeyOf, FlowOf, AddFlow, Income, IncomeAmount);
    TallySum(ts, MonthKeyOf, FlowOf, AddFlow, Expenses, ExpenseAmount);
    TallyKeys(ts, MonthKeyOf, FlowOf, AddFlow);
    SumMapAdd(ts, IncomeAmount, ExpenseAmount, Amount);
  }

  /** The `forEach` of `getChartData`, one transaction at a time. */
  method BuildChartData(ts: seq<DashTransaction>) returns (r: Series<Flow>)
    ensures r == ChartData(ts)
  {
    if |ts| == 0 {
      return Sample;
    }
    var monthly: seq<Bucket<Flow>> := [];
    for i := 0 to |ts|
      invariant monthly == TallyOf(ts[..i], MonthKeyOf, FlowOf, AddFlow)
    {
      assert ts[..i + 1][..i] == ts[..i];
      monthly := Bump(monthly, MonthKeyOf(ts[i]), FlowOf(ts[i]), AddFlow);
    }
    assert ts[..|ts|] == ts;
    r := Computed(monthly);
  }

  predicate IsExpense(t: DashTransaction) {
    t.kind == Some("expense")
  }

  /** `t.category || 'Other'`. */
  function CategoryKey(t: DashTransaction): string {
    if t.category.Some? && t.category.value != "" then t.category.value else "Other"
  }

  function Id(x: real): real {
    x
  }

  function Plus(a: real, b: real): real {
    a + b
  }

  /** `getCategoryData`: the sample exactly when there are no transactions at
      all, else the `'expense'` amounts per category. */
  function CategoryData(ts: seq<DashTransaction>): (r: Series<real>)
    ensures r.Sample? <==> ts == []
  {
    if ts == [] then Sample else Computed(TallyOf(Filter(ts, IsExpense), CategoryKey, Amount, Plus))
  }

  /** The category buckets add up to the total of the expense amounts, one
      bucket per category name, a missing one counted as `'Other'`. */
  lemma CategoryTotals(ts: seq<DashTransaction>)
    requires ts != []
    ensures SumBy(CategoryData(ts).buckets, Id) == SumMap(Filter(ts, IsExpense), Amount)
    ensures DistinctKeys(CategoryData(ts).buckets)
    ensures Keys(CategoryData(ts).buckets)
         == set i | 0 <= i < |Filter(ts, IsExpense)| :: CategoryKey(Filter(ts, IsExpense)[i])
  {
    var es := Filter(ts, IsExpense);
    TallySum(es, CategoryKey, Amount, Plus, Id, Amount);
    TallyKeys(es, CategoryKey, Amount, Plus);
  }

  /** The `forEach` of `getCategoryData` over the expenses. */
  method BuildCategoryData(ts: seq<DashTransaction>) returns (r: Series<real>)
    ensures r == CategoryData(ts)
  {
    if |ts| == 0 {
      return Sample;
    }
    var es := Filter(ts, IsExpense);
    var totals: seq<Bucket<real>> := [];
    for i := 0 to |es|
      invariant totals == TallyOf(es[..i], CategoryKey, Amount, Plus)
    {
      assert es[..i + 1][..i] == es[..i];
      totals := Bump(totals, CategoryKey(es[i]), Amount(es[i]), Plus);
    }
    assert es[..|es|] == es;
    r := Computed(totals);
  }

  /** Two decimal digits of the year, as `year: '2-digit'` prints it. */
  function TwoDigitYear(year: int): (r: string)
    ensures |r| == 2 && '0' <= r[0] <= '9' && '0' <= r[1] <= '9'
    ensures DigitValue(r[0]) * 10 + DigitValue(r[1]) == year % 100
  {
    TwoDigits(year % 100)
  }

  /** `new Date(user.createdAt || Date.now())` as `"Mon YY"`; a missing
      stamp uses the current month. */
  function RegistrationKey(u: DashUser, now: YearMonth): string {
    match u.createdAt
    case Absent => MonthName(Some(now)) + " " + TwoDigitYear(now.year)
    case InvalidStamp => "Invalid Date"
    case At(m) =>
      if 1 <= m.month <= 12 then MonthName(Some(m)) + " " + TwoDigitYear(m.year) else "Invalid Date"
  }

  function RegistrationKeyAt(now: YearMonth): DashUser -> string {
    u => RegistrationKey(u, now)
  }

  function One(u: DashUser): real {
    1.0
  }

  /** `getUserRegistrationData`: the sample exactly when there are no users,
      else a count per month. */
  function RegistrationData(users: seq<DashUser>, now: YearMonth): (r: Series<real>)
    ensures r.Sample? <==> users == []
  {
    if users == [] then Sample else Computed(TallyOf(users, RegistrationKeyAt(now), One, Plus))
  }

  lemma {:induction false} SumMapOne(users: seq<DashUser>, g: DashUser -> real)
    requires forall u :: g(u) == 1.0
    ensures SumMap(users, g) == |users| as real
  {
    if users != [] {
      SumMapOne(users[..|users| - 1], g);
    }
  }

  /** The monthly counts add up to the number of users. */
  lemma RegistrationTotals(users: seq<DashUser>, now: YearMonth)
    requires users != []
    ensures SumBy(RegistrationData(users, now).buckets, Id) == |users| as real
    ensures DistinctKeys(RegistrationData(users, now).buckets)
  {
    TallySum(users, RegistrationKeyAt(now), One, Plus, Id, One);
    TallyKeys(users, RegistrationKeyAt(now), One, Plus);
    SumMapOne(users, One);
  }

  /** The `forEach` of `getUserRegistrationData`. */
  method BuildRegistrationData(users: seq<DashUser>, now: YearMonth) returns (r: Series<real>)
    ensures r == RegistrationData(users, now)
  {
    if |users| == 0 {
      return Sample;
    }
    var key := RegistrationKeyAt(now);
    var counts: seq<Bucket<real>> := [];
    for i := 0 to |users|
      invariant counts == TallyOf(users[..i], key, One, Plus)
    {
      assert users[..i + 1][..i] == users[..i];
      counts := Bump(counts, key(users[i]), One(users[i]), Plus);
    }
    assert users[..|users|] == users;
    r := Computed(counts);
  }

  datatype Share = Share(budgets: real, savings: real)

  /** `getBudgetSavingsData`: the sample exactly when both totals are 0. */
  function BudgetSavingsData(bs: seq<ClientBudget>, ss: seq<ClientSaving>): (r: Option<Share>)
    ensures r.None? <==> TotalBudgetAmount(bs) == 0.0 && TotalSavings(ss) == 0.0
    ensures r.Some? ==> r.value == Share(TotalBudgetAmount(bs), TotalSavings(ss))
  {
    var b, s := TotalBudgetAmount(bs), TotalSavings(ss);
    if b == 0.0 && s == 0.0 then None else Some(Share(b, s))
  }

  function DashId(t: DashTransaction): int {
    t.id
  }

  /** The lists the dashboard holds. */
  class Dashboard {
    var users: seq<DashUser>
    var transactions: seq<DashTransaction>
    var budgets: seq<ClientBudget>
    var savings: seq<ClientSaving>

    constructor ()
      ensures users == [] && transactions == [] && budgets == [] && savings == []
    {
      users, transactions, budgets, savings := [], [], [], [];
    }

    /** `deleteTransaction` after the server answered: on success only the
        transactions with that id leave the list; otherwise nothing changes. */
    method DeleteTransaction(id: int, ok: bool)
      modifies this
      ensures ok ==> transactions == WithoutKey(old(transactions), DashId, id)
      ensures !ok ==> transactions == old(transactions)
      ensures users == old(users) && budgets == old(budgets) && savings == old(savings)
    {
      if ok {
        transactions := WithoutKey(transactions, DashId, id);
      }
    }
  }
}
