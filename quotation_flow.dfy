/**
  The three-step quotation flow (QuotationFlow.js): the selection list it
  keeps (append on select, remove every match on deselect, fee edits by row
  index), the client step and the back/continue navigation between the
  services, client and summary steps.
*/
module QuotationFlow {
  import opened Values
  import opened DataModel
  import opened ServiceSelection

  // ---------------------------------------------------------------------
  // Selecting and deselecting
  // ---------------------------------------------------------------------

  /** How many entries of the list are for the pair of service and sub. */
  function MatchCount(list: seq<FlowEntry>, service: Service, sub: Subservice): (n: nat)
    ensures n <= |list|
    ensures n == 0 <==> forall i :: 0 <= i < |list| ==> !FlowMatches(list[i], service, sub)
  {
    if list == [] then 0
    else
      assert forall i :: 1 <= i < |list| ==> list[i] == list[1..][i - 1];
      (if FlowMatches(list[0], service, sub) then 1 else 0) + MatchCount(list[1..], service, sub)
  }

  lemma {:induction false} MatchCountAppend(a: seq<FlowEntry>, b: seq<FlowEntry>, service: Service, sub: Subservice)
    ensures MatchCount(a + b, service, sub) == MatchCount(a, service, sub) + MatchCount(b, service, sub)
  {
    if a == [] {
      assert a + b == b;
    } else {
      MatchCountAppend(a[1..], b, service, sub);
      assert (a + b)[1..] == a[1..] + b;
    }
  }

  /** Deselection: the entries that are not for the pair, in their original order. */
  function RemoveMatching(list: seq<FlowEntry>, service: Service, sub: Subservice): (r: seq<FlowEntry>)
    ensures |r| <= |list|
    ensures (forall i :: 0 <= i < |list| ==> !FlowMatches(list[i], service, sub)) ==> r == list
  {
    if list == [] then []
    else
      assert forall i :: 1 <= i < |list| ==> list[i] == list[1..][i - 1];
      assert list == [list[0]] + list[1..];
      (if FlowMatches(list[0], service, sub) then [] else [list[0]]) + RemoveMatching(list[1..], service, sub)
  }

  /** Removal keeps exactly the entries that are not for the pair. */
  lemma {:induction false} RemoveMatchingMembers(list: seq<FlowEntry>, service: Service, sub: Subservice)
    ensures forall e :: e in RemoveMatching(list, service, sub) <==> e in list && !FlowMatches(e, service, sub)
  {
    if list != [] {
      RemoveMatchingMembers(list[1..], service, sub);
      assert list == [list[0]] + list[1..];
    }
  }

  /** Removal distributes over concatenation: the kept entries stay in order. */
  lemma {:induction false} RemoveMatchingAppend(a: seq<FlowEntry>, b: seq<FlowEntry>, service: Service, sub: Subservice)
    ensures RemoveMatching(a + b, service, sub) == RemoveMatching(a, service, sub) + RemoveMatching(b, service, sub)
  {
    if a == [] {
      assert a + b == b;
    } else {
      var ab := a + b;
      assert ab != [] && ab[0] == a[0] && ab[1..] == a[1..] + b;
      RemoveMatchingAppend(a[1..], b, service, sub);
      var head := if FlowMatches(a[0], service, sub) then [] else [a[0]];
      var ra, rb := RemoveMatching(a[1..], service, sub), RemoveMatching(b, service, sub);
      calc {
        RemoveMatching(ab, service, sub);
        head + RemoveMatching(ab[1..], service, sub);
        head + (ra + rb);
        (head + ra) + rb;
        RemoveMatching(a, service, sub) + rb;
      }
    }
  }

  /** Removal drops exactly the matching entries: none is left, and the list shrinks by their number. */
  lemma {:induction false} RemoveMatchingCount(list: seq<FlowEntry>, service: Service, sub: Subservice)
    ensures MatchCount(RemoveMatching(list, service, sub), service, sub) == 0
    ensures |RemoveMatching(list, service, sub)| == |list| - MatchCount(list, service, sub)
  {
    var r := RemoveMatching(list, service, sub);
    RemoveMatchingMembers(list, service, sub);
    assert forall i :: 0 <= i < |r| ==> r[i] in r;
    if list != [] {
      RemoveMatchingCount(list[1..], service, sub);
    }
  }

  /** Removing one pair leaves the count of every other pair as it was. */
  lemma {:induction false} RemoveKeepsOtherPairs(list: seq<FlowEntry>, service: Service, sub: Subservice, other: Service, otherSub: Subservice)
    requires other.id != service.id || otherSub.name != sub.name
    ensures MatchCount(RemoveMatching(list, service, sub), other, otherSub) == MatchCount(list, other, otherSub)
  {
    if list != [] {
      RemoveKeepsOtherPairs(list[1..], service, sub, other, otherSub);
      var head := if FlowMatches(list[0], service, sub) then [] else [list[0]];
      MatchCountAppend(head, RemoveMatching(list[1..], service, sub), other, otherSub);
      assert MatchCount([list[0]], other, otherSub) == if FlowMatches(list[0], other, otherSub) then 1 else 0 by {
        assert [list[0]][1..] == [];
      }
    }
  }

  /**
    `handleServiceSelection`: addition appends a fresh entry whether or not
    the pair is already there; removal drops every entry for the pair.
  */
  function Selection(list: seq<FlowEntry>, service: Service, sub: Subservice, remove: bool): (r: seq<FlowEntry>)
    ensures !remove ==> MatchCount(r, service, sub) == MatchCount(list, service, sub) + 1
    ensures !remove ==> |r| == |list| + 1 && r[..|list|] == list
    ensures !remove ==> r[|list|] == FlowEntry(service, sub, map[])
    ensures remove ==> MatchCount(r, service, sub) == 0 && |r| == |list| - MatchCount(list, service, sub)
  {
    if remove then
      RemoveMatchingCount(list, service, sub);
      RemoveMatching(list, service, sub)
    else
      var added := FlowEntry(service, sub, map[]);
      MatchCountAppend(list, [added], service, sub);
      assert MatchCount([added], service, sub) == 1 by { assert [added][1..] == []; }
      list + [added]
  }

  /** Selecting the same row twice keeps two entries for it. */
  lemma DuplicatesPossible(service: Service, sub: Subservice)
    ensures MatchCount(Selection(Selection([], service, sub, false), service, sub, false), service, sub) == 2
  {
  }

  /** Deselecting right after a selection leaves what deselecting alone would have left. */
  lemma RemoveUndoesAdd(list: seq<FlowEntry>, service: Service, sub: Subservice)
    ensures Selection(Selection(list, service, sub, false), service, sub, true) == RemoveMatching(list, service, sub)
  {
    var added := FlowEntry(service, sub, map[]);
    RemoveMatchingAppend(list, [added], service, sub);
    assert RemoveMatching([added], service, sub) == [] by { assert [added][1..] == []; }
  }

  // ---------------------------------------------------------------------
  // Fee edits by row index
  // ---------------------------------------------------------------------

  /** Whether an entry has the service id and holds the very subservice object target (`===`). */
  predicate IsTarget(e: FlowEntry, serviceId: string, target: Subservice)
  {
    e.service.id == serviceId && e.subservice.ident == target.ident
  }

  /**
    Every entry holds a catalog record, and one object has one content: two
    entries whose subservices are the same object hold equal records.
  */
  predicate ObjectsHaveOneContent(list: seq<FlowEntry>)
  {
    forall i, j :: 0 <= i < |list| && 0 <= j < |list| && list[i].subservice.ident == list[j].subservice.ident ==>
      list[i].subservice == list[j].subservice
  }

  /** `findIndex`: the first position holding a target entry, or -1. */
  function FirstMatch(list: seq<FlowEntry>, serviceId: string, target: Subservice): (i: int)
    ensures -1 <= i < |list|
    ensures i >= 0 ==> IsTarget(list[i], serviceId, target)
    ensures forall j :: 0 <= j < |list| && (i < 0 || j < i) ==> !IsTarget(list[j], serviceId, target)
  {
    if list == [] then -1
    else if IsTarget(list[0], serviceId, target) then 0
    else
      var i := FirstMatch(list[1..], serviceId, target);
      assert forall j :: 1 <= j < |list| ==> list[j] == list[1..][j - 1];
      if i < 0 then -1 else i + 1
  }

  /** The entry with property field set to value. */
  function SetField(e: FlowEntry, field: string, value: Value): (r: FlowEntry)
    ensures r.service == e.service && r.subservice == e.subservice && Get(r.fields, field) == value
    ensures forall f :: f != field && f in e.fields ==> f in r.fields && r.fields[f] == e.fields[f]
  {
    e.(fields := e.fields[field := value])
  }

  /** Whether some entry of the list is for the service with this id. */
  predicate HasService(list: seq<FlowEntry>, serviceId: string)
  {
    exists k :: 0 <= k < |list| && list[k].service.id == serviceId
  }

  /**
    `handleFeeUpdate`. The subservice is taken from the selection list at
    position subserviceIndex (the catalog row index); the first entry with
    the service id and that subservice gets the field set. The search reads
    that position only for an entry with the service id, so None, the
    TypeError of reading it outside the list, arises only when the position
    is outside the list and some entry has the service id; otherwise an
    outside position finds nothing and the list is returned as it was.
  */
  function FlowFeeUpdate(list: seq<FlowEntry>, serviceId: string, subserviceIndex: int, field: string, value: Value): (r: Option<seq<FlowEntry>>)
    requires field != "service" && field != "subservice"
    ensures r.None? <==> !(0 <= subserviceIndex < |list|) && HasService(list, serviceId)
    ensures r.Some? ==> |r.value| == |list|
    ensures !(0 <= subserviceIndex < |list|) && r.Some? ==> r.value == list
    ensures 0 <= subserviceIndex < |list| ==>
      var i := FirstMatch(list, serviceId, list[subserviceIndex].subservice);
      && r.Some?
      && (forall k :: 0 <= k < |list| && k != i ==> r.value[k] == list[k])
      && (i >= 0 ==> r.value[i] == SetField(list[i], field, value))
  {
    if !(0 <= subserviceIndex < |list|) then
      if HasService(list, serviceId) then None else Some(list)
    else
      var i := FirstMatch(list, serviceId, list[subserviceIndex].subservice);
      if i < 0 then Some(list) else Some(list[i := SetField(list[i], field, value)])
  }

  /** A fee edit neither adds nor removes a selection: every pair keeps its count. */
  lemma FeeUpdateKeepsSelection(list: seq<FlowEntry>, serviceId: string, subserviceIndex: int, field: string, value: Value,
                                service: Service, sub: Subservice)
    requires field != "service" && field != "subservice"
    requires FlowFeeUpdate(list, serviceId, subserviceIndex, field, value).Some?
    ensures MatchCount(FlowFeeUpdate(list, serviceId, subserviceIndex, field, value).value, service, sub) == MatchCount(list, service, sub)
  {
    var r := FlowFeeUpdate(list, serviceId, subserviceIndex, field, value).value;
    if !(0 <= subserviceIndex < |list|) {
      assert r == list;
      return;
    }
    var i := FirstMatch(list, serviceId, list[subserviceIndex].subservice);
    if i >= 0 {
      FlowSplitAt(list, i);
      FlowSplitAt(r, i);
      assert r[..i] == list[..i] && r[i + 1..] == list[i + 1..];
      MatchCountSplit(list[..i], list[i], list[i + 1..], service, sub);
      MatchCountSplit(list[..i], r[i], list[i + 1..], service, sub);
    }
  }

  lemma FlowSplitAt(list: seq<FlowEntry>, i: nat)
    requires i < |list|
    ensures list == list[..i] + [list[i]] + list[i + 1..]
  {
  }

  /** The count over a list with x in the middle is the counts of both sides plus x's own. */
  lemma MatchCountSplit(left: seq<FlowEntry>, x: FlowEntry, right: seq<FlowEntry>, service: Service, sub: Subservice)
    ensures MatchCount(left + [x] + right, service, sub)
         == MatchCount(left, service, sub) + (if FlowMatches(x, service, sub) then 1 else 0) + MatchCount(right, service, sub)
  {
    MatchCountAppend(left + [x], right, service, sub);
    MatchCountAppend(left, [x], service, sub);
    assert [x][1..] == [];
  }

  /**
    When the entry at the edited position is for the edited service, the edit
    lands on an entry at or before that position, and that entry shows the value.
  */
  lemma FeeUpdateLandsAtOrBefore(list: seq<FlowEntry>, serviceId: string, subserviceIndex: int, field: string, value: Value)
    requires field != "service" && field != "subservice"
    requires 0 <= subserviceIndex < |list| && list[subserviceIndex].service.id == serviceId
    ensures var i := FirstMatch(list, serviceId, list[subserviceIndex].subservice);
      && 0 <= i <= subserviceIndex
      && Get(FlowFeeUpdate(list, serviceId, subserviceIndex, field, value).value[i].fields, field) == value
  {
    assert IsTarget(list[subserviceIndex], serviceId, list[subserviceIndex].subservice);
  }

  /**
    The row index chooses a list position, not a catalog row. With the All-IP
    row-0 entry first and the Patent row-0 entry second, editing Patent row 0
    looks up the All-IP record. That record has the same name and fees as
    Patent row 0 but is another object, so no entry is found and nothing
    changes.
  */
  lemma RowIndexReadsListPosition(value: Value)
    ensures AllIp.subservices[0].name == Patent.subservices[0].name
    ensures AllIp.subservices[0].officialFee == Patent.subservices[0].officialFee
    ensures var list := [FlowEntry(AllIp, AllIp.subservices[0], map[]), FlowEntry(Patent, Patent.subservices[0], map[])];
      FlowFeeUpdate(list, Patent.id, 0, "professionalFee", value) == Some(list)
  {
    var list := [FlowEntry(AllIp, AllIp.subservices[0], map[]), FlowEntry(Patent, Patent.subservices[0], map[])];
    assert !IsTarget(list[0], Patent.id, AllIp.subservices[0]);
    assert !IsTarget(list[1], Patent.id, AllIp.subservices[0]);
  }

  /**
    A row index past the end of the list throws only once an entry for the
    edited service is met: the empty list and a list holding only another
    service's entry come back unchanged, a list holding the service's entry
    throws.
  */
  lemma OutOfRangeIndexThrowsOnlyForListedService(value: Value)
    ensures FlowFeeUpdate([], Patent.id, 3, "professionalFee", value) == Some([])
    ensures var list := [FlowEntry(AllIp, AllIp.subservices[0], map[])];
      FlowFeeUpdate(list, Patent.id, 3, "professionalFee", value) == Some(list)
    ensures FlowFeeUpdate([FlowEntry(Patent, Patent.subservices[0], map[])], Patent.id, 3, "professionalFee", value).None?
  {
    var list := [FlowEntry(AllIp, AllIp.subservices[0], map[])];
    assert !HasService(list, Patent.id);
    var listed := [FlowEntry(Patent, Patent.subservices[0], map[])];
    assert listed[0].service.id == Patent.id;
  }

  // ---------------------------------------------------------------------
  // Navigation
  // ---------------------------------------------------------------------

  /** Back: summary to client, client to services; services stays. */
  function StepBack(step: Step): (r: Step)
    ensures step == Summary ==> r == Client
    ensures step != Summary ==> r == Services
  {
    match step
    case Summary => Client
    case Client => Services
    case Services => Services
  }

  /** Continue: services to client; every other step stays. */
  function StepContinue(step: Step): (r: Step)
    ensures r == (if step == Services then Client else step)
  {
    if step == Services then Client else step
  }

  datatype Move = GoBack | GoOn

  function Navigate(step: Step, moves: seq<Move>): Step
  {
    if moves == [] then step
    else
      var before := Navigate(step, moves[..|moves| - 1]);
      if moves[|moves| - 1] == GoBack then StepBack(before) else StepContinue(before)
  }

  /** Back and continue alone never reach the summary: only submitting the client form does. */
  lemma {:induction false} NavigationNeverReachesSummary(step: Step, moves: seq<Move>)
    requires step != Summary
    ensures Navigate(step, moves) != Summary
  {
    if moves != [] {
      NavigationNeverReachesSummary(step, moves[..|moves| - 1]);
    }
  }

  /** Continue then back returns to the services step. */
  lemma ContinueThenBack()
    ensures StepBack(StepContinue(Services)) == Services
    ensures StepContinue(StepBack(Client)) == Client
  {
  }

  // ---------------------------------------------------------------------
  // The table rows and the flow together
  // ---------------------------------------------------------------------

  /** Pressing a row's select button flips whether the row shows as selected. */
  lemma ToggleFlipsSelection(list: seq<FlowEntry>, service: Service, sub: Subservice)
    ensures var req := ToggleRequest(list, service, sub);
      DeriveRow(Selection(list, req.service, req.sub, req.remove), service, sub).isSelected
        == !DeriveRow(list, service, sub).isSelected
  {
    var req := ToggleRequest(list, service, sub);
    var after := Selection(list, req.service, req.sub, req.remove);
    if !req.remove {
      assert FlowMatches(after[|list|], service, sub);
    }
  }

  /** A freshly selected row shows empty fee inputs and its official fee as total. */
  lemma FreshRowShowsOfficialFee(list: seq<FlowEntry>, service: Service, sub: Subservice)
    requires !DeriveRow(list, service, sub).isSelected
    ensures var row := DeriveRow(Selection(list, service, sub, false), service, sub);
      row.isSelected && row.professional == Str("") && row.reimbursement == Str("") && row.total == sub.officialFee
  {
    var after := Selection(list, service, sub, false);
    assert FlowMatches(after[|list|], service, sub);
    assert FirstSelected(after, service, sub) == |list|;
  }

  /**
    Typing a reimbursement into row idx reaches the row's entry as `miscFee`
    and is shown back in the row, when the row's entry is the first one for
    its pair and sits at list position idx.
  */
  lemma TypedReimbursementShown(list: seq<FlowEntry>, service: Service, idx: nat, value: Value)
    requires idx < |list| && idx < |service.subservices|
    requires list[idx].service.id == service.id && list[idx].subservice == service.subservices[idx]
    requires forall j :: 0 <= j < idx ==> !FlowMatches(list[j], service, service.subservices[idx])
    requires ObjectsHaveOneContent(list)
    requires value != Undefined
    ensures var call := FeeChangeForward(true, service, idx, "reimbursementFee", value).value;
      var r := FlowFeeUpdate(list, call.serviceId, call.subserviceIndex, call.field, call.value);
      r.Some? && DeriveRow(r.value, service, service.subservices[idx]).reimbursement == value
  {
    var sub := service.subservices[idx];
    assert IsTarget(list[idx], service.id, sub);
    var i := FirstMatch(list, service.id, sub);
    assert i == idx by {
      if i < idx {
        assert list[i].subservice == list[idx].subservice;
        assert FlowMatches(list[i], service, sub);
      }
    }
    var r := FlowFeeUpdate(list, service.id, idx, "miscFee", value).value;
    assert FlowMatches(r[idx], service, sub);
    assert FirstSelected(r, service, sub) == idx;
  }

  // ---------------------------------------------------------------------
  // The flow's state
  // ---------------------------------------------------------------------

  class Flow {
    var step: Step
    var selected: seq<FlowEntry>
    var clientData: Option<ClientRecord>

    constructor ()
      ensures step == Services && selected == [] && clientData == None
    {
      step := Services;
      selected := [];
      clientData := None;
    }

    method UpdateSelection(service: Service, sub: Subservice, remove: bool)
      modifies this`selected
      ensures selected == Selection(old(selected), service, sub, remove)
    {
      if remove {
        selected := RemoveMatching(selected, service, sub);
      } else {
        selected := selected + [FlowEntry(service, sub, map[])];
      }
    }

    /**
      A fee edit. Copies the list, searches it for the first target entry and
      replaces that entry. As in the `findIndex` callback, the entry at
      subserviceIndex is read only once an entry with the service id is met,
      and reading it outside the list throws. Reports whether the update
      threw, in which case the list is left as it was.
    */
    method FeeUpdate(serviceId: string, subserviceIndex: int, field: string, value: Value) returns (thrown: bool)
      requires field != "service" && field != "subservice"
      modifies this`selected
      ensures thrown <==> !(0 <= subserviceIndex < |old(selected)|) && HasService(old(selected), serviceId)
      ensures thrown ==> selected == old(selected)
      ensures !thrown ==> Some(selected) == FlowFeeUpdate(old(selected), serviceId, subserviceIndex, field, value)
    {
      var newServices := selected;
      var inRange := 0 <= subserviceIndex < |selected|;
      var i := 0;
      while i < |newServices|
        invariant 0 <= i <= |newServices| && newServices == selected
        invariant !inRange ==> forall j :: 0 <= j < i ==> newServices[j].service.id != serviceId
        invariant inRange ==> forall j :: 0 <= j < i ==> !IsTarget(newServices[j], serviceId, selected[subserviceIndex].subservice)
      {
        if newServices[i].service.id == serviceId {
          if !inRange {
            return true;
          }
          if newServices[i].subservice.ident == selected[subserviceIndex].subservice.ident {
            break;
          }
        }
        i := i + 1;
      }
      if !inRange {
        selected := newServices;
        return false;
      }
      var target := selected[subserviceIndex].subservice;
      var serviceIndex := if i < |newServices| then i else -1;
      assert serviceIndex == FirstMatch(selected, serviceId, target);
      if serviceIndex != -1 {
        newServices := newServices[serviceIndex := SetField(newServices[serviceIndex], field, value)];
      }
      selected := newServices;
      thrown := false;
    }

    method ClientSubmit(data: ClientRecord)
      modifies this`clientData, this`step
      ensures clientData == Some(data) && step == Summary
    {
      clientData := Some(data);
      step := Summary;
    }

    method Back()
      modifies this`step
      ensures step == StepBack(old(step))
    {
      if step == Summary {
        step := Client;
      } else if step == Client {
        step := Services;
      }
    }

    method Continue()
      modifies this`step
      ensures step == StepContinue(old(step))
    {
      if step == Services {
        step := Client;
      }
    }
  }
}
