/**
  The rows of the service-detail table (ServiceSelection.js): for each
  catalog subservice, whether it is selected, the fees shown and the row
  total, derived from the flow's selection list; and what the row's select
  button and fee inputs ask of the flow.
*/
module ServiceSelection {
  import opened Values
  import opened DataModel

  /** The position of the first entry for the row's pair (`find`), or -1. */
  function FirstSelected(selected: seq<FlowEntry>, service: Service, sub: Subservice): (i: int)
    ensures -1 <= i < |selected|
    ensures i >= 0 ==> FlowMatches(selected[i], service, sub)
    ensures forall j :: 0 <= j < |selected| && (i < 0 || j < i) ==> !FlowMatches(selected[j], service, sub)
  {
    if selected == [] then -1
    else if FlowMatches(selected[0], service, sub) then 0
    else
      var i := FirstSelected(selected[1..], service, sub);
      assert forall j :: 1 <= j < |selected| ==> selected[j] == selected[1..][j - 1];
      if i < 0 then -1 else i + 1
  }

  /** What one row of the table shows. */
  datatype Row = Row(isSelected: bool, official: real, professional: Value, reimbursement: Value, total: real)

  /** The reimbursement shown for an entry: `miscFee` when defined, else `reimbursementFee`, else empty. */
  function ShownReimbursement(e: FlowEntry): (v: Value)
    ensures "miscFee" in e.fields && e.fields["miscFee"] != Undefined ==> v == e.fields["miscFee"]
    ensures Get(e.fields, "miscFee") == Undefined && Get(e.fields, "reimbursementFee") in {Undefined, Null} ==> v == Str("")
    ensures Get(e.fields, "miscFee") == Undefined && Get(e.fields, "reimbursementFee") !in {Undefined, Null} ==> v == e.fields["reimbursementFee"]
  {
    if Get(e.fields, "miscFee") != Undefined then e.fields["miscFee"]
    else Nullish(Get(e.fields, "reimbursementFee"), Str(""))
  }

  /**
    The row of subservice sub of service. The first matching entry supplies
    the fees; an unselected row shows empty fee inputs and its official fee
    as total. The total adds the numeric readings of the two inputs, an empty
    or non-numeric input counting 0.
  */
  function DeriveRow(selected: seq<FlowEntry>, service: Service, sub: Subservice): (row: Row)
    ensures row.isSelected <==> exists i :: 0 <= i < |selected| && FlowMatches(selected[i], service, sub)
    ensures row.official == sub.officialFee
    ensures !row.isSelected ==> row.professional == Str("") && row.reimbursement == Str("") && row.total == sub.officialFee
    ensures row.isSelected ==>
      var e := selected[FirstSelected(selected, service, sub)];
      row.professional == Nullish(Get(e.fields, "professionalFee"), Str("")) && row.reimbursement == ShownReimbursement(e)
    ensures row.total == row.official + NumberOrZero(row.professional) + NumberOrZero(row.reimbursement)
  {
    var i := FirstSelected(selected, service, sub);
    var official := sub.officialFee;
    var professional := if i >= 0 then Nullish(Get(selected[i].fields, "professionalFee"), Str("")) else Str("");
    var reimbursement := if i >= 0 then ShownReimbursement(selected[i]) else Str("");
    Row(i >= 0, official, professional, reimbursement, official + NumberOrZero(professional) + NumberOrZero(reimbursement))
  }

  /** A row whose entry holds whole-number fee texts totals official + professional + reimbursement. */
  lemma RowTotalOfTypedFees(selected: seq<FlowEntry>, service: Service, sub: Subservice, professional: nat, reimbursement: nat)
    requires selected != [] && FlowMatches(selected[0], service, sub)
    requires selected[0].fields == map["professionalFee" := Str(Decimal(professional)), "miscFee" := Str(Decimal(reimbursement))]
    ensures DeriveRow(selected, service, sub).total == sub.officialFee + professional as real + reimbursement as real
  {
    ParseDecimal(professional);
    ParseDecimal(reimbursement);
  }

  /** A request to the flow's selection handler. */
  datatype SelectRequest = SelectRequest(service: Service, sub: Subservice, remove: bool)

  /** The select button: a selected row asks for removal, an unselected one for addition. */
  function ToggleRequest(selected: seq<FlowEntry>, service: Service, sub: Subservice): (req: SelectRequest)
    ensures req.service == service && req.sub == sub
    ensures req.remove <==> DeriveRow(selected, service, sub).isSelected
  {
    SelectRequest(service, sub, FirstSelected(selected, service, sub) >= 0)
  }

  /** A call to the flow's fee-update handler. */
  datatype FeeUpdateCall = FeeUpdateCall(serviceId: string, subserviceIndex: nat, field: string, value: Value)

  /**
    A fee input of row idx changed. With a handler, the change is forwarded
    with the service id and the row index; `reimbursementFee` is renamed
    `miscFee`, every other field name passes unchanged.
  */
  function FeeChangeForward(hasHandler: bool, service: Service, idx: nat, field: string, value: Value): (r: Option<FeeUpdateCall>)
    ensures r.Some? <==> hasHandler
    ensures r.Some? ==> r.value.serviceId == service.id && r.value.subserviceIndex == idx && r.value.value == value
    ensures r.Some? ==> r.value.field != "reimbursementFee"
    ensures r.Some? ==> (r.value.field == "miscFee" <==> field in {"reimbursementFee", "miscFee"})
    ensures r.Some? && field != "reimbursementFee" ==> r.value.field == field
  {
    if !hasHandler then None
    else if field == "reimbursementFee" then Some(FeeUpdateCall(service.id, idx, "miscFee", value))
    else Some(FeeUpdateCall(service.id, idx, field, value))
  }
}
