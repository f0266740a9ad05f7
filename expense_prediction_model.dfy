/** `ExpensePredictionModel.predictNextMonthExpense`: the forecast for next
    month is the mean of the last `min(3, n)` monthly totals. Doubles are
    modelled as exact reals. */
module ExpensePredictionModel {
  import opened Wrappers

  /** Sum of a sequence, accumulated from the front as the source's loop does. */
  function Sum(s: seq<real>): real {
    if s == [] then 0.0 else Sum(s[..|s| - 1]) + s[|s| - 1]
  }

  /** `Math.min(3, n)`: how many trailing months the average covers. */
  function WindowSize(n: nat): (w: nat)
    ensures w <= 3 && w <= n
    ensures n > 0 ==> 1 <= w
    ensures w == 3 || w == n
  {
    if n < 3 then n else 3
  }

  /** The trailing window of the monthly totals. */
  function Window(monthly: seq<real>): (t: seq<real>)
    ensures |t| == WindowSize(|monthly|)
    ensures t == monthly[|monthly| - |t|..]
  {
    monthly[|monthly| - WindowSize(|monthly|)..]
  }

  /** Specification of the forecast: 0 for no months, otherwise the mean of the
      trailing window, the value that times the window's size gives the
      window's sum. */
  function Forecast(monthly: seq<real>): (r: real)
    ensures monthly == [] ==> r == 0.0
    ensures monthly != [] ==> (|Window(monthly)| as real) * r == Sum(Window(monthly))
  {
    if monthly == [] then 0.0 else Sum(Window(monthly)) / (|Window(monthly)| as real)
  }

  /** The source's method; `None` stands for a null list. */
  method PredictNextMonthExpense(monthlyExpenses: Option<seq<real>>) returns (r: real)
    ensures monthlyExpenses.None? ==> r == 0.0
    ensures monthlyExpenses.Some? ==> r == Forecast(monthlyExpenses.value)
  {
    if monthlyExpenses.None? || |monthlyExpenses.value| == 0 {
      return 0.0;
    }
    var s := monthlyExpenses.value;
    var n := |s|;
    var window := WindowSize(n);
    var sum := 0.0;
    for i := n - window to n
      invariant sum == Sum(s[n - window..i])
    {
      assert s[n - window..i + 1][..i - (n - window)] == s[n - window..i];
      sum := sum + s[i];
    }
    assert s[n - window..n] == Window(s);
    r := sum / window as real;
  }

  /** Only the last three months matter: prepending older months never changes
      the forecast once three months are known. */
  lemma ForecastIgnoresOlder(older: seq<real>, recent: seq<real>)
    requires |recent| >= 3
    ensures Forecast(older + recent) == Forecast(recent)
  {
    assert Window(older + recent) == Window(recent);
  }

  lemma {:induction false} SumBounds(s: seq<real>, lo: real, hi: real)
    requires forall i :: 0 <= i < |s| ==> lo <= s[i] <= hi
    ensures (|s| as real) * lo <= Sum(s) <= (|s| as real) * hi
  {
    if s != [] {
      SumBounds(s[..|s| - 1], lo, hi);
    }
  }

  lemma {:induction false} SumConstant(s: seq<real>, c: real)
    requires forall i :: 0 <= i < |s| ==> s[i] == c
    ensures Sum(s) == (|s| as real) * c
  {
    if s != [] {
      SumConstant(s[..|s| - 1], c);
    }
  }

  /** The forecast lies between any lower and upper bound of the months in the
      window, in particular between the window's minimum and maximum. */
  lemma ForecastWithinWindow(monthly: seq<real>, lo: real, hi: real)
    requires monthly != []
    requires forall i :: |monthly| - WindowSize(|monthly|) <= i < |monthly| ==> lo <= monthly[i] <= hi
    ensures lo <= Forecast(monthly) <= hi
  {
    var t := Window(monthly);
    assert forall i :: 0 <= i < |t| ==> t[i] == monthly[|monthly| - |t| + i];
    SumBounds(t, lo, hi);
    MeanBounds(Sum(t), |t| as real, lo, hi);
  }

  lemma MeanBounds(x: real, w: real, lo: real, hi: real)
    requires w > 0.0 && w * lo <= x <= w * hi
    ensures lo <= x / w <= hi
  {
    var q := x / w;
    assert x == q * w;
    assert (q - lo) * w >= 0.0 && (hi - q) * w >= 0.0;
  }

  /** If every month in the window spent `c`, the forecast is `c`. */
  lemma ForecastOfConstantWindow(monthly: seq<real>, c: real)
    requires monthly != []
    requires forall i :: |monthly| - WindowSize(|monthly|) <= i < |monthly| ==> monthly[i] == c
    ensures Forecast(monthly) == c
  {
    var t := Window(monthly);
    assert forall i :: 0 <= i < |t| ==> t[i] == monthly[|monthly| - |t| + i];
    SumConstant(t, c);
  }
}
