/** The savings page: progress, totals and completion of the goals, the
    top-up request, and the create/edit form. Server responses are inputs. */
module SavingsPage {
  import opened Wrappers
  import opened ClientRecords
  import opened Lists

  datatype ClientSaving = ClientSaving(
    id: int, goalName: string, targetAmt: real, currAmt: real, deadline: string)

  predicate Completed(s: ClientSaving) {
    s.currAmt >= s.targetAmt
  }

  /** `getTotalSavings`: the current amounts added up; not negative when no
      current amount is. */
  function TotalSavings(ss: seq<ClientSaving>): (r: real)
    ensures (forall i :: 0 <= i < |ss| ==> ss[i].currAmt >= 0.0) ==> r >= 0.0
  {
    if ss == [] then 0.0 else TotalSavings(ss[..|ss| - 1]) + ss[|ss| - 1].currAmt
  }

  lemma {:induction false} TotalSavingsAppend(ss: seq<ClientSaving>, us: seq<ClientSaving>)
    ensures TotalSavings(ss + us) == TotalSavings(ss) + TotalSavings(us)
    decreases |us|
  {
    if us == [] {
      assert ss + us == ss;
    } else {
      assert (ss + us)[..|ss + us| - 1] == ss + us[..|us| - 1];
      TotalSavingsAppend(ss, us[..|us| - 1]);
    }
  }

  /** `getCompletedGoals`: how many goals have reached their target. */
  function CompletedGoals(ss: seq<ClientSaving>): (r: nat)
    ensures r <= |ss|
    ensures r == |ss| <==> forall i :: 0 <= i < |ss| ==> Completed(ss[i])
    ensures r == 0 <==> forall i :: 0 <= i < |ss| ==> !Completed(ss[i])
  {
    var done := Filter(ss, Completed);
    if forall i :: 0 <= i < |ss| ==> Completed(ss[i]) then
      FilterAll(ss, Completed);
      |done|
    else if forall i :: 0 <= i < |ss| ==> !Completed(ss[i]) then
      FilterNone(ss, Completed);
      |done|
    else
      var i :| 0 <= i < |ss| && !Completed(ss[i]);
      var k :| 0 <= k < |ss| && Completed(ss[k]);
      FilterShorter(ss, i);
      assert ss[k] in done;
      |done|
  }

  /** A goal that is not completed is missing from the completed ones. */
  lemma {:induction false} FilterShorter(ss: seq<ClientSaving>, i: int)
    requires 0 <= i < |ss| && !Completed(ss[i])
    ensures |Filter(ss, Completed)| < |ss|
  {
    var init := ss[..|ss| - 1];
    if i < |ss| - 1 {
      assert init[i] == ss[i];
      FilterShorter(init, i);
    }
  }

  /** The amount still to save, as the card shows it. */
  function Remaining(s: ClientSaving): (r: real)
    ensures r >= 0.0
    ensures r == 0.0 <==> Completed(s)
    ensures !Completed(s) ==> r == s.targetAmt - s.currAmt
  {
    if s.targetAmt - s.currAmt > 0.0 then s.targetAmt - s.currAmt else 0.0
  }

  /** The top-up input is offered only for goals not yet completed. */
  predicate TopUpOffered(s: ClientSaving) {
    !Completed(s)
  }

  /** A savings body as the page sends it; `None` amounts are NaN, sent as
      `null`. */
  datatype SavingBody = SavingBody(
    goalName: string, targetAmt: Option<real>, currAmt: Option<real>, deadline: string)

  /** `savings.find(s => s.id === savingId)`. */
  function FindSaving(ss: seq<ClientSaving>, id: int): (r: Option<ClientSaving>)
    ensures r.Some? ==> r.value in ss && r.value.id == id
    ensures r.None? <==> forall i :: 0 <= i < |ss| ==> ss[i].id != id
  {
    if ss == [] then None
    else if ss[0].id == id then Some(ss[0])
    else
      var r := FindSaving(ss[1..], id);
      assert forall i :: 1 <= i < |ss| ==> ss[i] == ss[1..][i - 1];
      r
  }

  /** `addToSavings`: the update for goal `id` adds the parsed amount to its
      current amount and keeps its name, target and deadline; when the goal
      is not in the list nothing is sent. */
  function TopUpRequest(ss: seq<ClientSaving>, id: int, amount: Option<real>): (r: Option<SavingBody>)
    ensures r.None? <==> forall i :: 0 <= i < |ss| ==> ss[i].id != id
    ensures r.Some? ==> exists s :: (s in ss && s.id == id
      && r.value == SavingBody(s.goalName, Some(s.targetAmt),
                               if amount.Some? then Some(s.currAmt + amount.value) else None,
                               s.deadline))
  {
    match FindSaving(ss, id)
    case None => None
    case Some(s) =>
      Some(SavingBody(s.goalName, Some(s.targetAmt),
                      if amount.Some? then Some(s.currAmt + amount.value) else None, s.deadline))
  }

  /** The four form fields; the amounts may be typed or copied. */
  datatype SavingForm = SavingForm(
    goalName: string, targetAmt: FormAmount, currAmt: FormAmount, deadline: string)

  const EmptyForm := SavingForm("", Typed(""), Typed(""), "")

  /** `parseFloat(formData.curr_amt) || 0`: NaN and 0 both become 0. */
  function CurrentOrZero(a: FormAmount, parse: string -> Option<real>): (r: real)
    ensures ParseAmount(a, parse).None? ==> r == 0.0
    ensures ParseAmount(a, parse).Some? ==> r == ParseAmount(a, parse).value
  {
    match ParseAmount(a, parse)
    case None => 0.0
    case Some(v) => v
  }

  datatype SavingRequest =
    | CreateRequest(body: SavingBody)
    | UpdateRequest(id: int, body: SavingBody)

  /** Component state of the page. `parse` is JavaScript's `parseFloat`, with
      `None` for NaN. */
  class Page {
    var savings: seq<ClientSaving>
    var showForm: bool
    var editingId: Option<int>
    var formData: SavingForm
    const parse: string -> Option<real>

    constructor (parse: string -> Option<real>)
      ensures savings == [] && !showForm && editingId.None? && formData == EmptyForm
      ensures this.parse == parse
    {
      savings := [];
      showForm := false;
      editingId := None;
      formData := EmptyForm;
      this.parse := parse;
    }

    /** `fetchSavings`: the response's list, or empty on failure. */
    method Load(response: Option<seq<ClientSaving>>)
      modifies this
      ensures savings == response.GetOr([])
      ensures showForm == old(showForm) && editingId == old(editingId) && formData == old(formData)
    {
      savings := response.GetOr([]);
    }

    /** `handleEdit`: the goal's fields into the form, with both amounts as
        their text, its id as the one being edited, and the form opened. */
    method Edit(s: ClientSaving)
      modifies this
      ensures formData == SavingForm(s.goalName, FromNumber(s.targetAmt), FromNumber(s.currAmt), s.deadline)
      ensures editingId == Some(s.id) && showForm
      ensures savings == old(savings)
    {
      formData := SavingForm(s.goalName, FromNumber(s.targetAmt), FromNumber(s.currAmt), s.deadline);
      editingId := Some(s.id);
      showForm := true;
    }

    /** The request `handleSubmit` sends: an update when `editingId` is truthy
        (present and not 0), a creation otherwise; an empty or unparsable
        current amount is sent as 0. */
    function Request(): (r: SavingRequest)
      reads this
      ensures r.UpdateRequest? <==> editingId.Some? && editingId.value != 0
      ensures r.UpdateRequest? ==> r.id == editingId.value
      ensures r.body.goalName == formData.goalName && r.body.deadline == formData.deadline
      ensures r.body.targetAmt == ParseAmount(formData.targetAmt, parse)
      ensures r.body.currAmt == Some(CurrentOrZero(formData.currAmt, parse))
    {
      var body := SavingBody(formData.goalName, ParseAmount(formData.targetAmt, parse),
                             Some(CurrentOrZero(formData.currAmt, parse)), formData.deadline);
      if editingId.Some? && editingId.value != 0 then UpdateRequest(editingId.value, body)
      else CreateRequest(body)
    }

    /** `handleSubmit` after the server answered: on success the list is
        reloaded and the form closed and emptied; on failure nothing changes. */
    method Submit(saved: bool, reloaded: Option<seq<ClientSaving>>) returns (sent: SavingRequest)
      modifies this
      ensures sent == old(Request())
      ensures saved ==> savings == reloaded.GetOr([])
      ensures saved ==> !showForm && editingId.None? && formData == EmptyForm
      ensures !saved ==> savings == old(savings) && showForm == old(showForm)
      ensures !saved ==> editingId == old(editingId) && formData == old(formData)
    {
      sent := Request();
      if saved {
        Load(reloaded);
        showForm := false;
        editingId := None;
        formData := EmptyForm;
      }
    }

    /** The top-up input of goal `id`: a non-empty entry sends the update, and
        a successful one reloads the list. */
    method AddToSavings(id: int, input: string, saved: bool, reloaded: Option<seq<ClientSaving>>)
      returns (sent: Option<SavingBody>)
      modifies this
      ensures input == "" ==> sent.None? && savings == old(savings)
      ensures input != "" ==> sent == TopUpRequest(old(savings), id, parse(input))
      ensures sent.Some? && saved ==> savings == reloaded.GetOr([])
      ensures !(sent.Some? && saved) ==> savings == old(savings)
      ensures showForm == old(showForm) && editingId == old(editingId) && formData == old(formData)
    {
      sent := None;
      if input != "" {
        sent := TopUpRequest(savings, id, parse(input));
        if sent.Some? && saved {
          Load(reloaded);
        }
      }
    }
  }
}
