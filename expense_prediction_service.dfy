/** `ExpensePredictionService.predictNextMonthExpenses`: keep the user's
    expense transactions, total them per calendar month, order the months and
    hand the totals to the forecast model. */
module ExpensePredictionService {
  import opened Wrappers
  import opened Text
  import opened Calendar
  import opened Entities
  import Model = ExpensePredictionModel

  /** `t.getType().equalsIgnoreCase("expense")`. */
  predicate IsExpense(t: Transaction) {
    EqualsIgnoreCase(t.data.kind, "expense")
  }

  /** `transactionsRepository.findByUserId(userId)` over the stored rows, in
      storage order. */
  function OwnedBy(store: seq<Transaction>, userId: int): seq<Transaction> {
    if store == [] then []
    else OwnedBy(store[..|store| - 1], userId) +
         (if store[|store| - 1].owner == userId then [store[|store| - 1]] else [])
  }

  /** The stream's `filter` step. */
  function Expenses(ts: seq<Transaction>): seq<Transaction> {
    if ts == [] then []
    else Expenses(ts[..|ts| - 1]) + (if IsExpense(ts[|ts| - 1]) then [ts[|ts| - 1]] else [])
  }

  lemma {:induction false} ExpensesMembers(ts: seq<Transaction>)
    ensures forall t :: t in Expenses(ts) <==> t in ts && IsExpense(t)
  {
    if ts != [] {
      ExpensesMembers(ts[..|ts| - 1]);
      assert ts == ts[..|ts| - 1] + [ts[|ts| - 1]];
    }
  }

  /** `YearMonth.from(LocalDate.parse(t.getDate()))`: the year and month
      written in the date's first seven characters. */
  function MonthKey(t: Transaction): (r: Option<YearMonth>)
    ensures r.Some? <==> ParseIsoDate(t.data.date).Some?
    ensures r.Some? ==> r.value == YearMonth(DigitsValue(t.data.date[..4]), DigitsValue(t.data.date[5..7]))
  {
    match ParseIsoDate(t.data.date)
    case Some(d) => Some(MonthOf(d))
    case None => None
  }

  predicate AllDated(es: seq<Transaction>) {
    forall i :: 0 <= i < |es| ==> MonthKey(es[i]).Some?
  }

  /** A transaction seen by the collector: its month key and its amount. */
  datatype Entry = Entry(month: YearMonth, amount: real)

  function Entries(es: seq<Transaction>): (r: seq<Entry>)
    requires AllDated(es)
    ensures |r| == |es|
    ensures forall i :: 0 <= i < |es| ==> r[i] == Entry(MonthKey(es[i]).value, es[i].data.amount)
  {
    seq(|es|, i requires 0 <= i < |es| => Entry(MonthKey(es[i]).value, es[i].data.amount))
  }

  /** `groupingBy(month, summingDouble(amount))`, folded over the stream in
      encounter order. */
  function GroupTotals(xs: seq<Entry>): map<YearMonth, real> {
    if xs == [] then map[]
    else
      var m := GroupTotals(xs[..|xs| - 1]);
      var x := xs[|xs| - 1];
      m[x.month := (if x.month in m then m[x.month] else 0.0) + x.amount]
  }

  /** The amounts of the entries that fall in month `k`, in order. */
  function AmountsIn(xs: seq<Entry>, k: YearMonth): seq<real> {
    if xs == [] then []
    else AmountsIn(xs[..|xs| - 1], k) + (if xs[|xs| - 1].month == k then [xs[|xs| - 1].amount] else [])
  }

  /** There is exactly one total per month in which some entry falls. */
  lemma {:induction false} GroupTotalsKeys(xs: seq<Entry>)
    ensures forall k :: k in GroupTotals(xs) <==> exists i :: 0 <= i < |xs| && xs[i].month == k
  {
    if xs != [] {
      var init := xs[..|xs| - 1];
      GroupTotalsKeys(init);
      forall k ensures k in GroupTotals(xs) <==> exists i :: 0 <= i < |xs| && xs[i].month == k {
        if k in GroupTotals(xs) && xs[|xs| - 1].month != k {
          assert k in GroupTotals(init);
          var i :| 0 <= i < |init| && init[i].month == k;
          assert xs[i] == init[i];
        }
        if exists i :: 0 <= i < |xs| && xs[i].month == k {
          var i :| 0 <= i < |xs| && xs[i].month == k;
          if i < |init| {
            assert init[i] == xs[i];
          }
        }
      }
    }
  }

  /** Each month's total is the sum of the amounts that fall in that month. */
  lemma {:induction false} GroupTotalsValue(xs: seq<Entry>, k: YearMonth)
    requires k in GroupTotals(xs)
    ensures GroupTotals(xs)[k] == Model.Sum(AmountsIn(xs, k))
  {
    var init := xs[..|xs| - 1];
    var x := xs[|xs| - 1];
    if x.month == k {
      if k in GroupTotals(init) {
        GroupTotalsValue(init, k);
        var a := AmountsIn(init, k);
        assert AmountsIn(xs, k) == a + [x.amount];
        assert (a + [x.amount])[..|a|] == a;
      } else {
        AmountsInAbsent(init, k);
        assert AmountsIn(xs, k) == [x.amount];
        assert [x.amount][..0] == [];
      }
    } else {
      assert k in GroupTotals(init);
      GroupTotalsValue(init, k);
      assert AmountsIn(xs, k) == AmountsIn(init, k);
    }
  }

  /** A month with no total has no amounts. */
  lemma {:induction false} AmountsInAbsent(xs: seq<Entry>, k: YearMonth)
    requires k !in GroupTotals(xs)
    ensures AmountsIn(xs, k) == []
  {
    if xs != [] {
      AmountsInAbsent(xs[..|xs| - 1], k);
    }
  }

  /** A least month exists in every non-empty finite set of months. */
  lemma {:induction false} LeastMonthExists(s: set<YearMonth>)
    requires s != {}
    ensures exists m :: m in s && forall x :: x in s ==> MonthLe(m, x)
    decreases |s|
  {
    var y :| y in s;
    var rest := s - {y};
    if rest == {} {
      forall x | x in s ensures MonthLe(y, x) {
        assert x !in rest;
      }
    } else {
      LeastMonthExists(rest);
      var m :| m in rest && forall x :: x in rest ==> MonthLe(m, x);
      var w := if MonthLe(m, y) then m else y;
      forall x | x in s ensures MonthLe(w, x) {
        if x != y {
          assert x in rest;
        }
      }
      assert w in s;
    }
  }

  /** The keys of the totals in ascending order (`Collections.sort` on a list
      of distinct months). */
  function SortedMonths(s: set<YearMonth>): (r: seq<YearMonth>)
    ensures |r| == |s|
    ensures forall m :: m in r <==> m in s
    ensures forall i, j :: 0 <= i < j < |r| ==> MonthLt(r[i], r[j])
    decreases |s|
  {
    if s == {} then []
    else
      LeastMonthExists(s);
      var m :| m in s && forall x :: x in s ==> MonthLe(m, x);
      [m] + SortedMonths(s - {m})
  }

  /** The first expense whose date does not parse, if any. */
  function FirstUndated(es: seq<Transaction>): (r: Option<Transaction>)
    ensures r.None? <==> AllDated(es)
    ensures r.Some? ==> r.value in es && MonthKey(r.value).None?
  {
    if es == [] then None
    else if MonthKey(es[0]).None? then Some(es[0])
    else
      var rest := FirstUndated(es[1..]);
      assert AllDated(es[1..]) ==> AllDated(es) by {
        if AllDated(es[1..]) {
          forall i | 0 <= i < |es| ensures MonthKey(es[i]).Some? {
            if i > 0 { assert es[i] == es[1..][i - 1]; }
          }
        }
      }
      rest
  }

  /** The totals in the order of the given months. */
  function TotalsFor(totals: map<YearMonth, real>, months: seq<YearMonth>): (r: seq<real>)
    requires forall i :: 0 <= i < |months| ==> months[i] in totals
    ensures |r| == |months|
    ensures forall i :: 0 <= i < |months| ==> r[i] == totals[months[i]]
  {
    seq(|months|, i requires 0 <= i < |months| => totals[months[i]])
  }

  /** The per-month totals of fully dated expenses, oldest month first. */
  function OrderedTotals(es: seq<Transaction>): seq<real>
    requires AllDated(es)
  {
    var totals := GroupTotals(Entries(es));
    TotalsFor(totals, SortedMonths(totals.Keys))
  }

  /** The monthly expense totals of the user's transactions, oldest month first;
      an unparsable expense date is the parse exception. */
  function MonthlyTotals(store: seq<Transaction>, userId: int): (r: Result<seq<real>>)
    ensures r.Err? <==> !AllDated(Expenses(OwnedBy(store, userId)))
    ensures r.Ok? ==> r.value == OrderedTotals(Expenses(OwnedBy(store, userId)))
  {
    var es := Expenses(OwnedBy(store, userId));
    match FirstUndated(es)
    case Some(t) => Err("Text '" + t.data.date + "' could not be parsed")
    case None => Ok(OrderedTotals(es))
  }

  /** Specification of the service: the model's forecast of the ordered totals. */
  function Prediction(store: seq<Transaction>, userId: int): Result<real> {
    match MonthlyTotals(store, userId)
    case Err(e) => Err(e)
    case Ok(totals) => Ok(Model.Forecast(totals))
  }

  method PredictNextMonthExpenses(store: seq<Transaction>, userId: int) returns (r: Result<real>)
    ensures r == Prediction(store, userId)
  {
    var transactions := OwnedBy(store, userId);
    var expenses := Expenses(transactions);
    var bad := FirstUndated(expenses);
    if bad.Some? {
      return Err("Text '" + bad.value.data.date + "' could not be parsed");
    }
    var monthlyExpenses := GroupTotals(Entries(expenses));
    var sortedMonths := SortedMonths(monthlyExpenses.Keys);
    var totals := TotalsFor(monthlyExpenses, sortedMonths);
    assert totals == OrderedTotals(expenses);
    var p := Model.PredictNextMonthExpense(Some(totals));
    r := Ok(p);
  }

  /** Adding a transaction that is not an expense, or that belongs to another
      user, never changes the prediction. */
  lemma NonExpenseIrrelevant(store: seq<Transaction>, userId: int, t: Transaction)
    requires !IsExpense(t) || t.owner != userId
    ensures Prediction(store + [t], userId) == Prediction(store, userId)
  {
    SameExpensesIgnored(store, userId, t);
    SameExpensesSamePrediction(store + [t], store, userId);
  }

  lemma SameExpensesIgnored(store: seq<Transaction>, userId: int, t: Transaction)
    requires !IsExpense(t) || t.owner != userId
    ensures Expenses(OwnedBy(store + [t], userId)) == Expenses(OwnedBy(store, userId))
  {
    var o := OwnedBy(store, userId);
    assert (store + [t])[..|store + [t]| - 1] == store;
    if t.owner == userId {
      assert OwnedBy(store + [t], userId) == o + [t];
      assert (o + [t])[..|o + [t]| - 1] == o;
    } else {
      assert OwnedBy(store + [t], userId) == o;
    }
  }

  lemma SameExpensesSamePrediction(s1: seq<Transaction>, s2: seq<Transaction>, userId: int)
    requires Expenses(OwnedBy(s1, userId)) == Expenses(OwnedBy(s2, userId))
    ensures Prediction(s1, userId) == Prediction(s2, userId)
  {
  }

  /** The months of the entries are the months of the expenses. */
  lemma EntryMonths(es: seq<Transaction>, k: YearMonth)
    requires AllDated(es)
    ensures (exists i :: 0 <= i < |Entries(es)| && Entries(es)[i].month == k)
        <==> (exists i :: 0 <= i < |es| && MonthKey(es[i]) == Some(k))
  {
    var xs := Entries(es);
    if exists i :: 0 <= i < |xs| && xs[i].month == k {
      var i :| 0 <= i < |xs| && xs[i].month == k;
      assert MonthKey(es[i]) == Some(k);
    }
    if exists i :: 0 <= i < |es| && MonthKey(es[i]) == Some(k) {
      var i :| 0 <= i < |es| && MonthKey(es[i]) == Some(k);
      assert xs[i].month == k;
    }
  }

  predicate Ascending(months: seq<YearMonth>) {
    forall i, j :: 0 <= i < j < |months| ==> MonthLt(months[i], months[j])
  }

  /** `months` holds exactly the months in which some expense falls. */
  ghost predicate MonthsOf(es: seq<Transaction>, months: seq<YearMonth>) {
    forall k :: k in months <==> exists i :: 0 <= i < |es| && MonthKey(es[i]) == Some(k)
  }

  /** Each total is the sum of the expense amounts of its month. */
  predicate TotalsMatch(es: seq<Transaction>, months: seq<YearMonth>, totals: seq<real>)
    requires AllDated(es) && |totals| == |months|
  {
    forall i :: 0 <= i < |months| ==> totals[i] == Model.Sum(AmountsIn(Entries(es), months[i]))
  }

  function OrderedMonths(es: seq<Transaction>): seq<YearMonth>
    requires AllDated(es)
  {
    SortedMonths(GroupTotals(Entries(es)).Keys)
  }

  lemma OrderedMonthsCover(es: seq<Transaction>)
    requires AllDated(es)
    ensures MonthsOf(es, OrderedMonths(es))
  {
    var xs := Entries(es);
    GroupTotalsKeys(xs);
    forall k ensures k in OrderedMonths(es) <==> exists i :: 0 <= i < |es| && MonthKey(es[i]) == Some(k) {
      EntryMonths(es, k);
    }
  }

  lemma OrderedTotalsMatch(es: seq<Transaction>)
    requires AllDated(es)
    ensures |OrderedTotals(es)| == |OrderedMonths(es)|
    ensures TotalsMatch(es, OrderedMonths(es), OrderedTotals(es))
  {
    var xs := Entries(es);
    var months := OrderedMonths(es);
    forall i | 0 <= i < |months|
      ensures OrderedTotals(es)[i] == Model.Sum(AmountsIn(xs, months[i]))
    {
      GroupTotalsValue(xs, months[i]);
    }
  }

  /** The totals of dated expenses: one per month that has an expense, in
      strictly ascending month order, each the sum of that month's expense
      amounts; months without expenses do not appear at all. */
  lemma OrderedTotalsMeaning(es: seq<Transaction>)
    requires AllDated(es)
    ensures exists months: seq<YearMonth> ::
        && |months| == |OrderedTotals(es)|
        && Ascending(months) && MonthsOf(es, months)
        && TotalsMatch(es, months, OrderedTotals(es))
  {
    OrderedMonthsCover(es);
    OrderedTotalsMatch(es);
    var months := OrderedMonths(es);
    assert Ascending(months);
  }
}
