/** The JSON records the frontend receives from the backend, and the small
    JavaScript value rules the pages share. Text columns the backend may leave
    `null` are options; amounts are Java `double` columns and always present. */
module ClientRecords {
  import opened Wrappers

  /** A JavaScript string value that may be `null`/`undefined` is truthy when
      present and non-empty. */
  predicate Truthy(s: Option<string>) {
    s.Some? && s.value != ""
  }

  /** `s || d` for a string field: a truthy value is kept, a missing or empty
      one gives `d`. */
  function OrDefault(s: Option<string>, d: string): (r: string)
    ensures Truthy(s) ==> r == s.value
    ensures !Truthy(s) ==> r == d
  {
    if Truthy(s) then s.value else d
  }

  datatype ClientTransaction = ClientTransaction(
    id: int, kind: Option<string>, amount: real,
    category: Option<string>, description: Option<string>, date: Option<string>)

  /** `reduce((sum, t) => sum + t.amount, 0)`, left to right. */
  function TotalAmount(ts: seq<ClientTransaction>): real {
    if ts == [] then 0.0 else TotalAmount(ts[..|ts| - 1]) + ts[|ts| - 1].amount
  }

  lemma {:induction false} TotalAmountAppend(ts: seq<ClientTransaction>, us: seq<ClientTransaction>)
    ensures TotalAmount(ts + us) == TotalAmount(ts) + TotalAmount(us)
    decreases |us|
  {
    if us == [] {
      assert ts + us == ts;
    } else {
      var init := us[..|us| - 1];
      assert (ts + us)[..|ts + us| - 1] == ts + init;
      TotalAmountAppend(ts, init);
    }
  }

  /** With no negative amounts the total is not negative. */
  lemma {:induction false} TotalAmountNonNegative(ts: seq<ClientTransaction>)
    requires forall i :: 0 <= i < |ts| ==> ts[i].amount >= 0.0
    ensures TotalAmount(ts) >= 0.0
  {
    if ts != [] {
      TotalAmountNonNegative(ts[..|ts| - 1]);
    }
  }

  /** `getProgressPercentage` of the budget and savings pages: the share of
      the whole reached, capped at 100. */
  function ProgressPercentage(part: real, whole: real): (r: real)
    requires whole != 0.0
    ensures r <= 100.0
    ensures r == 100.0 || r == part / whole * 100.0
    ensures whole > 0.0 ==> (r == 100.0 <==> part >= whole)
    ensures whole > 0.0 && part >= 0.0 ==> r >= 0.0
  {
    var p := part / whole * 100.0;
    if p < 100.0 then p else 100.0
  }

  /** A form's amount field: text typed by the user, or a number copied into
      it from a record (which the field shows as its decimal text). */
  datatype FormAmount = Typed(text: string) | FromNumber(value: real)

  /** `parseFloat` of a form's amount field, where `parse` is JavaScript's
      `parseFloat` on text and `None` stands for NaN (sent as `null`). A
      number copied from a record parses back to itself. */
  function ParseAmount(a: FormAmount, parse: string -> Option<real>): (r: Option<real>)
    ensures a.FromNumber? ==> r == Some(a.value)
    ensures a.Typed? ==> r == parse(a.text)
  {
    match a
    case Typed(text) => parse(text)
    case FromNumber(value) => Some(value)
  }
}
