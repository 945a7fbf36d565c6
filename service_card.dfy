/**
  The per-row edit/confirm state machine of a service card (ServiceCard.js).
  Each subservice row owns a fee pair and an edit state, kept in two parallel
  arrays indexed by row. A row starts idle; the checklist button moves it to
  editing, commits it (when its fees are valid) to confirmed, and from there
  back to editing.
*/
module ServiceCard {
  import opened Values
  import opened DataModel

  datatype Stage = Idle | Editing | Confirmed

  datatype EditState = EditState(stage: Stage, error: string)

  datatype FeePair = FeePair(professionalFee: real, reimbursement: real)

  /** The two fee inputs of a row. */
  datatype FeeField = ProfessionalFee | Reimbursement

  const InvalidFeeMessage: string := "Enter valid fee values"

  /** A commit is accepted when the professional fee is positive and the reimbursement not negative. */
  predicate ValidFees(fee: FeePair)
  {
    fee.professionalFee > 0.0 && fee.reimbursement >= 0.0
  }

  /** Fee inputs are enabled only while the row is being edited. */
  predicate InputsWritable(stage: Stage)
  {
    stage == Editing
  }

  function SetFee(fee: FeePair, field: FeeField, x: real): FeePair
  {
    match field
    case ProfessionalFee => fee.(professionalFee := x)
    case Reimbursement => fee.(reimbursement := x)
  }

  /** The payload a valid commit hands to `onSelectSubservice`. */
  function Confirm(sub: Subservice, fee: FeePair): (c: Confirmation)
    ensures ConfirmationConsistent(c) && c.sub == sub
    ensures c.officialFee == Some(sub.officialFee)
    ensures c.professionalFee == Some(fee.professionalFee)
    ensures c.reimbursement == c.miscFee == Some(fee.reimbursement)
  {
    Confirmation(sub, Some(sub.officialFee), Some(fee.professionalFee), Some(fee.reimbursement),
      Some(fee.reimbursement), Some(sub.officialFee + fee.professionalFee + fee.reimbursement))
  }

  /** The new edit state of a toggled row and the confirmation passed to the callback, if any. */
  datatype ToggleResult = ToggleResult(state: EditState, callback: Option<Confirmation>)

  /** What the checklist button does to one row. */
  function Toggle(state: EditState, fee: FeePair, sub: Subservice): (r: ToggleResult)
    ensures r.state.stage != Idle
    ensures r.callback.Some? <==> state.stage == Editing && ValidFees(fee)
    ensures r.callback.Some? ==> r.callback.value == Confirm(sub, fee) && r.state == EditState(Confirmed, "")
    ensures r.state.error != "" <==> state.stage == Editing && !ValidFees(fee)
    ensures state.stage == Editing && !ValidFees(fee) ==> r.state == EditState(Editing, InvalidFeeMessage)
    ensures state.stage != Editing ==> r.state == EditState(Editing, "")
  {
    match state.stage
    case Idle => ToggleResult(state.(stage := Editing, error := ""), None)
    case Editing =>
      if fee.professionalFee <= 0.0 || fee.reimbursement < 0.0 then
        ToggleResult(state.(error := InvalidFeeMessage), None)
      else
        ToggleResult(state.(stage := Confirmed, error := ""), Some(Confirm(sub, fee)))
    case Confirmed => ToggleResult(state.(stage := Editing, error := ""), None)
  }

  // ---------------------------------------------------------------------
  // One row driven through the user interface
  // ---------------------------------------------------------------------

  /** A user action on one row: typing into a fee input, or clicking the checklist button. */
  datatype RowEvent = Type(field: FeeField, value: Value) | Click

  datatype RowState = RowState(fee: FeePair, edit: EditState)

  const InitialRow: RowState := RowState(FeePair(0.0, 0.0), EditState(Idle, ""))

  /**
    The effect of one action. Typing reaches the fee-change handler only while
    the inputs are enabled; a disabled input ignores it.
  */
  function RowStep(row: RowState, ev: RowEvent, sub: Subservice): RowState
  {
    match ev
    case Type(field, value) =>
      if InputsWritable(row.edit.stage) then
        RowState(SetFee(row.fee, field, NumberOrZero(value)), row.edit.(error := ""))
      else row
    case Click => RowState(row.fee, Toggle(row.edit, row.fee, sub).state)
  }

  function Run(row: RowState, events: seq<RowEvent>, sub: Subservice): RowState
  {
    if events == [] then row else RowStep(Run(row, events[..|events| - 1], sub), events[|events| - 1], sub)
  }

  /** The confirmations a run of actions hands to the callback for subservice sub, in order. */
  function Commits(row: RowState, events: seq<RowEvent>, sub: Subservice): seq<Confirmation>
  {
    if events == [] then []
    else
      var before := Run(row, events[..|events| - 1], sub);
      var ev := events[|events| - 1];
      var emitted := if ev.Click? then Toggle(before.edit, before.fee, sub).callback else None;
      Commits(row, events[..|events| - 1], sub) + (if emitted.Some? then [emitted.value] else [])
  }

  /**
    Along any run of actions from the initial row: the row is idle exactly
    when the button was never clicked, a confirmed row holds valid fees, and
    every confirmation handed over carries valid fees and a total equal to
    official + professional + reimbursement.
  */
  lemma {:induction false} RunInvariant(events: seq<RowEvent>, sub: Subservice)
    ensures var row := Run(InitialRow, events, sub);
      && (row.edit.stage == Idle <==> Click !in events)
      && (row.edit.stage == Confirmed ==> ValidFees(row.fee))
    ensures forall c :: c in Commits(InitialRow, events, sub) ==>
      && ConfirmationConsistent(c) && c.sub == sub
      && c.professionalFee.value > 0.0 && c.miscFee.value >= 0.0
  {
    if events != [] {
      var prefix := events[..|events| - 1];
      var ev := events[|events| - 1];
      RunInvariant(prefix, sub);
      assert events == prefix + [ev];
      assert Click in events <==> Click in prefix || ev == Click;
    }
  }

  // ---------------------------------------------------------------------
  // The card: two parallel arrays, one slot per subservice row
  // ---------------------------------------------------------------------

  class Card {
    const service: Service
    const fees: array<FeePair>
    const editState: array<EditState>

    ghost predicate Valid()
      reads this
    {
      fees.Length == |service.subservices| && editState.Length == |service.subservices|
    }

    /** Every row starts with zero fees, idle and without an error. */
    constructor (service: Service)
      ensures Valid() && this.service == service && fresh(fees) && fresh(editState)
      ensures forall i :: 0 <= i < fees.Length ==> fees[i] == FeePair(0.0, 0.0)
      ensures forall i :: 0 <= i < editState.Length ==> editState[i] == EditState(Idle, "")
    {
      this.service := service;
      fees := new FeePair[|service.subservices|](_ => FeePair(0.0, 0.0));
      editState := new EditState[|service.subservices|](_ => EditState(Idle, ""));
    }

    /** The total shown for a row: official fee plus the row's two fees, a missing row counting 0. */
    function GetTotal(index: int, officialFee: real): (t: real)
      reads fees
      ensures 0 <= index < fees.Length ==> t == officialFee + fees[index].professionalFee + fees[index].reimbursement
      ensures !(0 <= index < fees.Length) ==> t == officialFee
    {
      officialFee
        + (if 0 <= index < fees.Length then fees[index].professionalFee else 0.0)
        + (if 0 <= index < fees.Length then fees[index].reimbursement else 0.0)
    }

    /** A row is selected when some entry of `selected` (if given) has this service's id and the row's name. */
    function IsSubserviceSelected(selected: Option<seq<Key>>, sub: Subservice): (r: bool)
      ensures r <==> selected.Some? && KeyOf(service, sub) in selected.value
    {
      selected.Some? && exists i :: 0 <= i < |selected.value| && selected.value[i] == KeyOf(service, sub)
    }

    /** Whether the fee inputs of row idx are enabled. */
    function Writable(idx: int): (w: bool)
      requires 0 <= idx < editState.Length
      reads editState
      ensures w <==> editState[idx].stage == Editing
    {
      InputsWritable(editState[idx].stage)
    }

    /**
      Typing into a fee input: that row's field becomes the numeric reading of
      the text (0 when it is not a number) and that row's error is cleared;
      no stage and no other row changes.
    */
    method FeeChange(index: int, field: FeeField, value: Value)
      requires Valid() && 0 <= index < fees.Length
      modifies fees, editState
      ensures Valid()
      ensures fees[..] == old(fees[..])[index := SetFee(old(fees[index]), field, NumberOrZero(value))]
      ensures editState[..] == old(editState[..])[index := old(editState[index]).(error := "")]
    {
      fees[index] := SetFee(fees[index], field, NumberOrZero(value));
      editState[index] := editState[index].(error := "");
    }

    /**
      The checklist button of row idx. Only a commit of valid fees from the
      editing stage returns a confirmation (the callback); the fees never change.
    */
    method ChecklistToggle(idx: int) returns (callback: Option<Confirmation>)
      requires Valid() && 0 <= idx < editState.Length
      modifies editState
      ensures Valid()
      ensures var t := Toggle(old(editState[idx]), fees[idx], service.subservices[idx]);
        editState[..] == old(editState[..])[idx := t.state] && callback == t.callback
      ensures callback.Some? ==> callback.value.total == Some(GetTotal(idx, service.subservices[idx].officialFee))
    {
      var sub := service.subservices[idx];
      var st := editState[idx];
      callback := None;
      if st.stage == Idle {
        editState[idx] := st.(stage := Editing, error := "");
      } else if st.stage == Editing {
        var fee := fees[idx];
        if fee.professionalFee <= 0.0 || fee.reimbursement < 0.0 {
          editState[idx] := st.(error := InvalidFeeMessage);
          return;
        }
        callback := Some(Confirm(sub, fee));
        editState[idx] := st.(stage := Confirmed, error := "");
      } else if st.stage == Confirmed {
        editState[idx] := st.(stage := Editing, error := "");
      }
    }
  }
}
