/** The user's dashboard: the period picker with the date ranges it shows,
    and the month grid of the calendar view. The clock's date and weekday are
    inputs; dates are proleptic Gregorian with months from 1. */
module UserDashboard {
  import opened Wrappers
  import opened Text
  import opened Calendar

  /** The day before a date: the latest valid date earlier than it. */
  function DayBefore(d: Date): (r: Date)
    requires ValidDate(d)
    ensures ValidDate(r) && DateLt(r, d)
    ensures forall e :: ValidDate(e) && DateLt(e, d) ==> e == r || DateLt(e, r)
  {
    if d.day > 1 then Date(d.year, d.month, d.day - 1)
    else if d.month > 1 then Date(d.year, d.month - 1, DaysInMonth(d.year, d.month - 1))
    else Date(d.year - 1, 12, 31)
  }

  /** The day after a date: the earliest valid date later than it. */
  function NextDay(d: Date): (r: Date)
    requires ValidDate(d)
    ensures ValidDate(r) && DateLt(d, r)
    ensures forall e :: ValidDate(e) && DateLt(d, e) ==> e == r || DateLt(r, e)
  {
    if d.day < DaysInMonth(d.year, d.month) then Date(d.year, d.month, d.day + 1)
    else if d.month < 12 then Date(d.year, d.month + 1, 1)
    else Date(d.year + 1, 1, 1)
  }

  /** Stepping back a day and forward again, or the other way, returns to the
      same date. */
  lemma DayRoundTrip(d: Date)
    requires ValidDate(d)
    ensures NextDay(DayBefore(d)) == d
    ensures DayBefore(NextDay(d)) == d
  {
  }

  /** `n` days earlier. */
  function DaysBefore(d: Date, n: nat): (r: Date)
    requires ValidDate(d)
    ensures ValidDate(r)
    ensures n > 0 ==> DateLt(r, d)
  {
    if n == 0 then d else DayBefore(DaysBefore(d, n - 1))
  }

  /** `n` days later. */
  function DaysAfter(d: Date, n: nat): (r: Date)
    requires ValidDate(d)
    ensures ValidDate(r)
    ensures n > 0 ==> DateLt(d, r)
    decreases n
  {
    if n == 0 then d else DaysAfter(NextDay(d), n - 1)
  }

  /** Going `n` days back and then `n` days forward lands on the start. */
  lemma {:induction false} DaysBeforeThenAfter(d: Date, n: nat)
    requires ValidDate(d)
    ensures DaysAfter(DaysBefore(d, n), n) == d
  {
    if n > 0 {
      DayRoundTrip(DaysBefore(d, n - 1));
      DaysBeforeThenAfter(d, n - 1);
    }
  }

  /** `new Date(y, m, 1)` with a zero-based month `m` that may run past
      either end of the year: the month is carried into the year. */
  function FirstOfMonth(y: int, m: int): (r: Date)
    ensures ValidDate(r) && r.day == 1
    ensures 0 <= m < 12 ==> r == Date(y, m + 1, 1)
    ensures m == -1 ==> r == Date(y - 1, 12, 1)
    ensures m == 12 ==> r == Date(y + 1, 1, 1)
  {
    Date(y + m / 12, m % 12 + 1, 1)
  }

  /** `new Date(y, m, 0)`: day 0 is the day before the first. */
  function LastOfPreviousMonth(y: int, m: int): (r: Date)
    ensures ValidDate(r)
  {
    DayBefore(FirstOfMonth(y, m))
  }

  /** The options of the period picker. */
  datatype Period = LastWeek | ThisMonth | LastMonth | ThisYear | LastYear | CalendarView

  function Label(p: Period): string {
    match p
    case LastWeek => "Last Week"
    case ThisMonth => "This Month"
    case LastMonth => "Last Month"
    case ThisYear => "This Year"
    case LastYear => "Last Year"
    case CalendarView => "Calendar View"
  }

  datatype Range = Range(start: Date, end: Date)

  /** The range `handlePeriodSelect` computes for every option but the
      calendar view; `weekday` is `today.getDay()`, 0 for Sunday. */
  function RangeFor(p: Period, today: Date, weekday: nat): (r: Range)
    requires p != CalendarView && ValidDate(today)
    ensures ValidDate(r.start) && ValidDate(r.end)
  {
    var y, m := today.year, today.month - 1;
    match p
    case LastWeek =>
      var end := DaysBefore(today, weekday);
      Range(DaysBefore(end, 6), end)
    case ThisMonth => Range(FirstOfMonth(y, m), LastOfPreviousMonth(y, m + 1))
    case LastMonth => Range(FirstOfMonth(y, m - 1), LastOfPreviousMonth(y, m))
    case ThisYear => Range(FirstOfMonth(y, 0), Date(y, 12, 31))
    case LastYear => Range(FirstOfMonth(y - 1, 0), Date(y - 1, 12, 31))
  }

  /** "This month" runs from the first to the last day of today's month. */
  lemma ThisMonthRange(today: Date, weekday: nat)
    requires ValidDate(today)
    ensures RangeFor(ThisMonth, today, weekday)
         == Range(Date(today.year, today.month, 1),
                  Date(today.year, today.month, DaysInMonth(today.year, today.month)))
  {
  }

  /** "Last month" runs over the whole previous month, which in January is
      December of the year before. */
  lemma LastMonthRange(today: Date, weekday: nat)
    requires ValidDate(today)
    ensures today.month > 1 ==>
              RangeFor(LastMonth, today, weekday)
              == Range(Date(today.year, today.month - 1, 1),
                       Date(today.year, today.month - 1, DaysInMonth(today.year, today.month - 1)))
    ensures today.month == 1 ==>
              RangeFor(LastMonth, today, weekday) == Range(Date(today.year - 1, 12, 1), Date(today.year - 1, 12, 31))
  {
  }

  /** The two year options run from January 1 to December 31. */
  lemma YearRanges(today: Date, weekday: nat)
    requires ValidDate(today)
    ensures RangeFor(ThisYear, today, weekday) == Range(Date(today.year, 1, 1), Date(today.year, 12, 31))
    ensures RangeFor(LastYear, today, weekday) == Range(Date(today.year - 1, 1, 1), Date(today.year - 1, 12, 31))
  {
  }

  /** "Last week" ends `weekday` days before today, on the most recent
      Sunday, and starts six days before its end. */
  lemma LastWeekRange(today: Date, weekday: nat)
    requires ValidDate(today)
    ensures DaysAfter(RangeFor(LastWeek, today, weekday).end, weekday) == today
    ensures DaysAfter(RangeFor(LastWeek, today, weekday).start, 6) == RangeFor(LastWeek, today, weekday).end
  {
    DaysBeforeThenAfter(today, weekday);
    DaysBeforeThenAfter(DaysBefore(today, weekday), 6);
  }

  /** `toLocaleDateString('en-US', {month: 'short', day: '2-digit', year:
      'numeric'})`, as in `Oct 01, 2025`: the short month name, a space, the
      day in two digits, a comma and a space, then the year. */
  function FormatDate(d: Date): (r: string)
    requires ValidDate(d)
    ensures |r| == 8 + |IntToString(d.year)|
    ensures r[..3] == ShortMonths[d.month - 1] && r[3] == ' ' && r[6..8] == ", "
    ensures '0' <= r[4] <= '9' && '0' <= r[5] <= '9' && DigitValue(r[4]) * 10 + DigitValue(r[5]) == d.day
    ensures r[8..] == IntToString(d.year)
  {
    assert |ShortMonths[d.month - 1]| == 3;
    ShortMonths[d.month - 1] + " " + TwoDigits(d.day) + ", " + IntToString(d.year)
  }

  /** The short month names are distinct. */
  lemma ShortMonthsDistinct(i: int, j: int)
    requires 0 <= i < 12 && 0 <= j < 12 && ShortMonths[i] == ShortMonths[j]
    ensures i == j
  {
  }

  /** Different dates are written differently. */
  lemma FormatDateInjective(a: Date, b: Date)
    requires ValidDate(a) && ValidDate(b) && FormatDate(a) == FormatDate(b)
    ensures a == b
  {
    ShortMonthsDistinct(a.month - 1, b.month - 1);
    IntToStringInjective(a.year, b.year);
  }

  /** The two ends joined by an en dash: the start's text, `" – "`, and the
      end's text. */
  function FormatRange(r: Range): (s: string)
    requires ValidDate(r.start) && ValidDate(r.end)
    ensures |s| == |FormatDate(r.start)| + 3 + |FormatDate(r.end)|
    ensures s[..|FormatDate(r.start)|] == FormatDate(r.start)
    ensures s[|FormatDate(r.start)|] == ' ' && s[|FormatDate(r.start)| + 1] == '–' && s[|FormatDate(r.start)| + 2] == ' '
    ensures s[|FormatDate(r.start)| + 3..] == FormatDate(r.end)
    ensures forall i :: 8 <= i < |FormatDate(r.start)| ==> s[i] != ' '
  {
    FormatDate(r.start) + " – " + FormatDate(r.end)
  }

  /** The range text names the range: different ranges are shown
      differently. */
  lemma FormatRangeInjective(p: Range, q: Range)
    requires ValidDate(p.start) && ValidDate(p.end) && ValidDate(q.start) && ValidDate(q.end)
    requires FormatRange(p) == FormatRange(q)
    ensures p == q
  {
    var s := FormatRange(p);
    var a, b := FormatDate(p.start), FormatDate(q.start);
    // The first space after the day's comma ends the start's text.
    assert |a| == |b|;
    assert a == s[..|a|] == b;
    FormatDateInjective(p.start, q.start);
    assert FormatDate(p.end) == s[|a| + 3..] == FormatDate(q.end);
    FormatDateInjective(p.end, q.end);
  }

  const InitialRange := "Oct 01, 2025 – Oct 31, 2025"

  lemma YearText2025()
    ensures IntToString(2025) == "2025"
  {
    assert NatToString(2) == "2";
    assert NatToString(20) == "20";
    assert NatToString(202) == "202";
  }

  lemma FormatOctober2025(day: nat, text: string)
    requires ValidDate(Date(2025, 10, day)) && text == TwoDigits(day)
    ensures FormatDate(Date(2025, 10, day)) == "Oct " + text + ", 2025"
  {
    YearText2025();
    assert ShortMonths[9] == "Oct";
  }

  /** The range shown before any choice is "this month" of October 2025. */
  lemma InitialRangeIsOctober2025(today: Date, weekday: nat)
    requires ValidDate(today) && today.year == 2025 && today.month == 10
    ensures FormatRange(RangeFor(ThisMonth, today, weekday)) == InitialRange
  {
    ThisMonthRange(today, weekday);
    var r := RangeFor(ThisMonth, today, weekday);
    assert r == Range(Date(2025, 10, 1), Date(2025, 10, 31));
    assert TwoDigits(1) == "01";
    assert TwoDigits(31) == "31";
    FormatOctober2025(1, "01");
    FormatOctober2025(31, "31");
    JoinRange(FormatDate(r.start), FormatDate(r.end));
  }

  lemma JoinRange(a: string, b: string)
    requires a == "Oct 01, 2025" && b == "Oct 31, 2025"
    ensures a + " – " + b == InitialRange
  {
  }

  /** `generateCalendar`: `firstDay` is the weekday of the month's first day
      (0 for Sunday); the length comes from `new Date(y, m + 1, 0)`. The grid
      is `firstDay` blanks (`None`) followed by the days 1 to the month's
      length. */
  method GenerateCalendar(today: Date, firstDay: nat) returns (days: seq<Option<nat>>)
    requires ValidDate(today)
    ensures |days| == firstDay + DaysInMonth(today.year, today.month)
    ensures forall i :: 0 <= i < firstDay ==> days[i].None?
    ensures forall i :: firstDay <= i < |days| ==> days[i] == Some(i - firstDay + 1)
  {
    var daysInMonth := LastOfPreviousMonth(today.year, today.month).day;
    days := [];
    for i := 0 to firstDay
      invariant |days| == i
      invariant forall j :: 0 <= j < i ==> days[j].None?
    {
      days := days + [None];
    }
    for day := 1 to daysInMonth + 1
      invariant |days| == firstDay + day - 1
      invariant forall j :: 0 <= j < firstDay ==> days[j].None?
      invariant forall j :: firstDay <= j < |days| ==> days[j] == Some(j - firstDay + 1)
    {
      days := days + [Some(day)];
    }
  }

  /** Component state of the period picker. */
  class Dashboard {
    var showDropdown: bool
    var selectedPeriod: string
    var dateRange: string
    var showCalendar: bool

    constructor ()
      ensures !showDropdown && selectedPeriod == "This Month" && dateRange == InitialRange && !showCalendar
    {
      showDropdown := false;
      selectedPeriod := "This Month";
      dateRange := InitialRange;
      showCalendar := false;
    }

    /** `handlePeriodSelect`: the option becomes the selected one and the
        dropdown closes; the calendar view only opens the calendar, every
        other option shows its range and leaves the calendar as it was. */
    method SelectPeriod(p: Period, today: Date, weekday: nat)
      requires ValidDate(today)
      modifies this
      ensures selectedPeriod == Label(p) && !showDropdown
      ensures p == CalendarView ==> showCalendar && dateRange == old(dateRange)
      ensures p != CalendarView ==> dateRange == FormatRange(RangeFor(p, today, weekday))
      ensures p != CalendarView ==> showCalendar == old(showCalendar)
    {
      selectedPeriod := Label(p);
      showDropdown := false;
      if p == CalendarView {
        showCalendar := true;
        return;
      }
      dateRange := FormatRange(RangeFor(p, today, weekday));
    }
  }
}
