/** Proleptic Gregorian calendar arithmetic shared by the models: month
    lengths, the strict `YYYY-MM-DD` parse of `LocalDate.parse`, and
    year-month keys. */
module Calendar {
  import opened Wrappers

  datatype Date = Date(year: int, month: int, day: int)
  datatype YearMonth = YearMonth(year: int, month: int)

  predicate IsLeapYear(y: int) {
    y % 4 == 0 && (y % 100 != 0 || y % 400 == 0)
  }

  function DaysInMonth(y: int, m: int): (n: int)
    requires 1 <= m <= 12
    ensures 28 <= n <= 31
    ensures n == 29 <==> m == 2 && IsLeapYear(y)
  {
    if m == 2 then (if IsLeapYear(y) then 29 else 28)
    else if m == 4 || m == 6 || m == 9 || m == 11 then 30
    else 31
  }

  /** The `en-US` short month names. */
  const ShortMonths := ["Jan", "Feb", "Mar", "Apr", "May", "Jun",
                        "Jul", "Aug", "Sep", "Oct", "Nov", "Dec"]

  predicate ValidDate(d: Date) {
    1 <= d.month <= 12 && 1 <= d.day <= DaysInMonth(d.year, d.month)
  }

  /** Chronological order of dates (`LocalDate.isBefore`). */
  predicate DateLt(a: Date, b: Date) {
    a.year < b.year || (a.year == b.year && (a.month < b.month || (a.month == b.month && a.day < b.day)))
  }

  function MonthOf(d: Date): YearMonth {
    YearMonth(d.year, d.month)
  }

  /** Chronological order of year-months (`YearMonth.compareTo`). */
  predicate MonthLe(a: YearMonth, b: YearMonth) {
    a.year < b.year || (a.year == b.year && a.month <= b.month)
  }

  predicate MonthLt(a: YearMonth, b: YearMonth) {
    MonthLe(a, b) && a != b
  }

  predicate IsDigit(c: char) {
    '0' <= c <= '9'
  }

  /** Value of a run of decimal digits. */
  function DigitsValue(s: string): (v: nat)
    requires forall i :: 0 <= i < |s| ==> IsDigit(s[i])
    ensures v < Pow10(|s|)
  {
    if s == [] then 0
    else
      var last := s[|s| - 1] as int - '0' as int;
      assert IsDigit(s[|s| - 1]);
      DigitsValue(s[..|s| - 1]) * 10 + last
  }

  function Pow10(n: nat): (p: nat)
    ensures p >= 1
  {
    if n == 0 then 1 else 10 * Pow10(n - 1)
  }

  /** Shape of an ISO local date: four digits, '-', two digits, '-', two digits. */
  predicate IsoShape(s: string) {
    |s| == 10 && s[4] == '-' && s[7] == '-' &&
    forall i :: 0 <= i < 10 && i != 4 && i != 7 ==> IsDigit(s[i])
  }

  /** `LocalDate.parse` on the ISO local date format with a four-digit year: a
      date is returned exactly for well-shaped text naming an existing day. */
  function ParseIsoDate(s: string): (r: Option<Date>)
    ensures r.Some? ==> ValidDate(r.value) && 0 <= r.value.year <= 9999
    ensures r.Some? <==> IsoShape(s) && 1 <= DigitsValue(s[5..7]) <= 12 &&
                         1 <= DigitsValue(s[8..10]) <= DaysInMonth(DigitsValue(s[..4]), DigitsValue(s[5..7]))
    ensures r.Some? ==> r.value == Date(DigitsValue(s[..4]), DigitsValue(s[5..7]), DigitsValue(s[8..10]))
  {
    if !IsoShape(s) then None
    else
      assert forall i :: 0 <= i < 4 ==> s[..4][i] == s[i];
      assert forall i :: 0 <= i < 2 ==> s[5..7][i] == s[5 + i] && s[8..10][i] == s[8 + i];
      var y, m, d := DigitsValue(s[..4]), DigitsValue(s[5..7]), DigitsValue(s[8..10]);
      if 1 <= m <= 12 && 1 <= d <= DaysInMonth(y, m) then Some(Date(y, m, d)) else None
  }

  /** For instance, `2024-03-15` is 15 March 2024. */
  lemma ParseExample()
    ensures ParseIsoDate("2024-03-15") == Some(Date(2024, 3, 15))
  {
    var s := "2024-03-15";
    assert s[..4] == "2024" && s[5..7] == "03" && s[8..10] == "15";
    assert "2024"[..3] == "202" && "202"[..2] == "20" && "20"[..1] == "2" && "2"[..0] == "";
    assert "03"[..1] == "0" && "15"[..1] == "1" && "0"[..0] == "" && "1"[..0] == "";
    assert DigitsValue("2024") == 2024 && DigitsValue("03") == 3 && DigitsValue("15") == 15;
    assert IsoShape(s);
  }
}
