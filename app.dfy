/**
  The application shell (App.js): the selection registry and its operations,
  the client step, the per-category document generation up to the template
  binding, and the "Create New Quotation" reset.
*/
module App {
  import opened Values
  import opened DataModel
  import opened TotalCalculation

  // ---------------------------------------------------------------------
  // The selection registry
  // ---------------------------------------------------------------------

  /** Whether some entry carries the given (service id, subservice name) pair. */
  predicate IsSelected(list: seq<Entry>, key: Key)
  {
    exists i :: 0 <= i < |list| && EntryKey(list[i]) == key
  }

  /** `x || 0` on a numeric property that may be missing. */
  function OrZero(x: Option<real>): real
  {
    match x
    case Some(v) => v
    case None => 0.0
  }

  /** The entry stored for a confirmation: each missing fee property counts 0. */
  function NewEntry(service: Service, c: Confirmation): (e: Entry)
    ensures EntryKey(e) == KeyOf(service, c.sub)
    ensures c.total.None? ==> e.total == 0.0
    ensures c.officialFee.None? ==> e.officialFee == 0.0
    ensures c.professionalFee.None? ==> e.professionalFee == 0.0
    ensures c.miscFee.None? ==> e.miscFee == 0.0
    ensures c.total.Some? ==> e.total == c.total.value
    ensures c.officialFee.Some? ==> e.officialFee == c.officialFee.value
    ensures c.professionalFee.Some? ==> e.professionalFee == c.professionalFee.value
    ensures c.miscFee.Some? ==> e.miscFee == c.miscFee.value
    ensures ConfirmationConsistent(c) ==> EntryConsistent(e) && e.professionalFee == c.professionalFee.value && e.miscFee == c.miscFee.value
  {
    Entry(service, c, OrZero(c.total), OrZero(c.officialFee), OrZero(c.professionalFee), OrZero(c.miscFee))
  }

  /**
    `handleSelectSubservice`: append an entry when the pair is not yet
    selected; otherwise leave the list exactly as it is, new fees included.
  */
  function Select(list: seq<Entry>, service: Service, c: Confirmation): (r: seq<Entry>)
    ensures IsSelected(r, KeyOf(service, c.sub))
    ensures forall k :: IsSelected(list, k) ==> IsSelected(r, k)
    ensures list <= r && |r| <= |list| + 1
    ensures |r| == |list| + 1 <==> !IsSelected(list, KeyOf(service, c.sub))
    ensures |r| == |list| + 1 ==> r[|list|] == NewEntry(service, c)
    ensures NoDuplicateKeys(list) ==> NoDuplicateKeys(r)
  {
    if IsSelected(list, KeyOf(service, c.sub)) then list
    else
      var r := list + [NewEntry(service, c)];
      assert EntryKey(r[|list|]) == KeyOf(service, c.sub);
      assert forall i :: 0 <= i < |list| ==> r[i] == list[i];
      r
  }

  /**
    Confirming the same row twice, the second time with other fees, keeps the
    first entry and its fees: the registry does not update in place.
  */
  lemma RepeatedConfirmationIgnored(service: Service, sub: Subservice, first: Confirmation, second: Confirmation)
    requires first.sub == sub && second.sub.name == sub.name
    ensures Select(Select([], service, first), service, second) == [NewEntry(service, first)]
  {
    assert EntryKey(Select([], service, first)[0]) == KeyOf(service, second.sub);
  }

  /** `prev.filter((_, i) => i !== index)` where the list starts at position offset. */
  function DropPosition(list: seq<Entry>, index: int, offset: int): (r: seq<Entry>)
    ensures offset <= index < offset + |list| ==> r == list[..index - offset] + list[index - offset + 1..]
    ensures !(offset <= index < offset + |list|) ==> r == list
  {
    if list == [] then []
    else
      var rest := DropPosition(list[1..], index, offset + 1);
      if offset == index then
        assert rest == list[1..];
        rest
      else
        assert offset < index < offset + |list| ==> list[1..][..index - offset - 1] == list[1..index - offset];
        [list[0]] + rest
  }

  /**
    `handleRemoveService`: delete the entry at index; later entries move down
    by one; an index outside the list leaves it unchanged.
  */
  function RemoveAt(list: seq<Entry>, index: int): (r: seq<Entry>)
    ensures 0 <= index < |list| ==> |r| == |list| - 1
    ensures 0 <= index < |list| ==> forall i :: 0 <= i < |r| ==> r[i] == if i < index then list[i] else list[i + 1]
    ensures !(0 <= index < |list|) ==> r == list
  {
    DropPosition(list, index, 0)
  }

  /** Removing an entry keeps the pairs distinct. */
  lemma RemoveAtKeepsKeysDistinct(list: seq<Entry>, index: int)
    requires NoDuplicateKeys(list)
    ensures NoDuplicateKeys(RemoveAt(list, index))
  {
    var r := RemoveAt(list, index);
    if 0 <= index < |list| {
      forall i, j | 0 <= i < j < |r| ensures EntryKey(r[i]) != EntryKey(r[j]) {
        var i' := if i < index then i else i + 1;
        var j' := if j < index then j else j + 1;
        assert r[i] == list[i'] && r[j] == list[j'] && i' < j';
      }
    }
  }

  /** Removing position 1 of three entries leaves the first and the former third. */
  lemma RemoveMiddleOfThree(a: Entry, b: Entry, c: Entry)
    ensures RemoveAt([a, b, c], 1) == [a, c]
  {
  }

  // ---------------------------------------------------------------------
  // Categories
  // ---------------------------------------------------------------------

  /** The entries whose lower-cased service id is the category key, in their order. */
  function FilterCategory(list: seq<Entry>, key: string): (r: seq<Entry>)
    ensures |r| <= |list|
    ensures r == [] <==> forall i :: 0 <= i < |list| ==> CategoryOf(list[i]) != key
  {
    if list == [] then []
    else
      assert forall i :: 1 <= i < |list| ==> list[i] == list[1..][i - 1];
      (if CategoryOf(list[0]) == key then [list[0]] else []) + FilterCategory(list[1..], key)
  }

  /** The filter keeps exactly the entries of the category. */
  lemma {:induction false} FilterCategoryMembers(list: seq<Entry>, key: string)
    ensures forall e :: e in FilterCategory(list, key) <==> e in list && CategoryOf(e) == key
  {
    if list != [] {
      FilterCategoryMembers(list[1..], key);
      assert list == [list[0]] + list[1..];
    }
  }

  /** Filtering distributes over concatenation, so it keeps the relative order of the entries. */
  lemma {:induction false} FilterCategoryAppend(a: seq<Entry>, b: seq<Entry>, key: string)
    ensures FilterCategory(a + b, key) == FilterCategory(a, key) + FilterCategory(b, key)
  {
    if a == [] {
      assert a + b == b;
    } else {
      var ab := a + b;
      assert ab != [] && ab[0] == a[0] && ab[1..] == a[1..] + b;
      FilterCategoryAppend(a[1..], b, key);
      var head := if CategoryOf(a[0]) == key then [a[0]] else [];
      var fa, fb := FilterCategory(a[1..], key), FilterCategory(b, key);
      calc {
        FilterCategory(ab, key);
        head + FilterCategory(ab[1..], key);
        head + (fa + fb);
        (head + fa) + fb;
        FilterCategory(a, key) + fb;
      }
    }
  }

  /** A list of one category filters to itself. */
  lemma {:induction false} FilterCategorySingleCategory(list: seq<Entry>, key: string)
    requires forall i :: 0 <= i < |list| ==> CategoryOf(list[i]) == key
    ensures FilterCategory(list, key) == list
  {
    if list != [] {
      FilterCategorySingleCategory(list[1..], key);
    }
  }

  /** `new Set(list.map(s => s.service.id.toLowerCase()))`: the categories in first-occurrence order. */
  function DistinctCategories(list: seq<Entry>): (r: seq<string>)
    ensures forall i, j :: 0 <= i < j < |r| ==> r[i] != r[j]
    ensures forall k :: k in r <==> exists e :: e in list && CategoryOf(e) == k
  {
    if list == [] then []
    else
      var prefix := list[..|list| - 1];
      var seen := DistinctCategories(prefix);
      var last := list[|list| - 1];
      assert list == prefix + [last];
      if CategoryOf(last) in seen then seen else seen + [CategoryOf(last)]
  }

  function KeepTemplated(keys: seq<string>, templates: map<string, Template>): (r: seq<string>)
    ensures forall k :: k in r <==> k in keys && k in templates
    ensures (forall i, j :: 0 <= i < j < |keys| ==> keys[i] != keys[j]) ==> forall i, j :: 0 <= i < j < |r| ==> r[i] != r[j]
  {
    if keys == [] then []
    else (if keys[0] in templates then [keys[0]] else []) + KeepTemplated(keys[1..], templates)
  }

  /** The generate buttons: one per distinct category of the selection that has a template. */
  function CategoryButtons(list: seq<Entry>, templates: map<string, Template>): (r: seq<string>)
    ensures forall i, j :: 0 <= i < j < |r| ==> r[i] != r[j]
    ensures forall k :: k in r <==> k in templates && exists e :: e in list && CategoryOf(e) == k
  {
    KeepTemplated(DistinctCategories(list), templates)
  }

  /** Every button's category has at least one selected entry. */
  lemma ButtonCategoriesAreNonEmpty(list: seq<Entry>, key: string)
    requires key in CategoryButtons(list, TemplateOptions)
    ensures FilterCategory(list, key) != []
  {
    var e :| e in list && CategoryOf(e) == key;
    FilterCategoryMembers(list, key);
    assert e in FilterCategory(list, key);
  }

  /** The catalog's "ip" service has no template ("allip" is the key), so its entries get no button. */
  lemma IpServiceGetsNoButton(list: seq<Entry>)
    ensures "ip" !in CategoryButtons(list, TemplateOptions)
    ensures forall e :: e in list && e.service.id == AllIp.id ==> CategoryOf(e) !in CategoryButtons(list, TemplateOptions)
  {
    assert "ip" !in TemplateOptions;
    assert ToLower(AllIp.id) == "ip";
  }

  // ---------------------------------------------------------------------
  // Document generation up to the template binding
  // ---------------------------------------------------------------------

  /** A line of the quotation table (fees unformatted). */
  datatype LineItem = LineItem(srNo: nat, name: string, officialFee: real, professionalFee: real, miscFee: real, total: real)

  /** The line items of the filtered entries: same count and order, numbered from 1. */
  function LineItems(filtered: seq<Entry>): (r: seq<LineItem>)
    ensures |r| == |filtered|
    ensures forall i :: 0 <= i < |r| ==> r[i].srNo == i + 1 && r[i].name == filtered[i].subservice.sub.name
    ensures forall i :: 0 <= i < |r| ==> r[i].officialFee == filtered[i].officialFee && r[i].professionalFee == filtered[i].professionalFee
    ensures forall i :: 0 <= i < |r| ==> r[i].miscFee == filtered[i].miscFee && r[i].total == filtered[i].total
  {
    seq(|filtered|, i requires 0 <= i < |filtered| =>
      var s := filtered[i];
      LineItem(i + 1, s.subservice.sub.name, s.officialFee, s.professionalFee, s.miscFee, s.total))
  }

  function LineTotals(items: seq<LineItem>): real
  {
    if items == [] then 0.0 else LineTotals(items[..|items| - 1]) + items[|items| - 1].total
  }

  /** The line totals printed in the document add up to its subtotal. */
  lemma {:induction false} LineTotalsAddUpToSubtotal(filtered: seq<Entry>)
    ensures LineTotals(LineItems(filtered)) == Subtotal(filtered)
  {
    if filtered != [] {
      var prefix := filtered[..|filtered| - 1];
      LineTotalsAddUpToSubtotal(prefix);
      assert LineItems(filtered)[..|filtered| - 1] == LineItems(prefix);
    }
  }

  /** `LXR-` followed by the last six characters of the timestamp's decimal text. */
  function QuotationNumber(timestamp: nat): string
  {
    "LXR-" + LastChars(Decimal(timestamp), 6)
  }

  /** The quotation number is LXR- and the timestamp modulo 10^6 in (at most six) digits; ten characters once the timestamp has six digits. */
  lemma QuotationNumberShape(timestamp: nat)
    ensures var q := QuotationNumber(timestamp);
      && |q| >= 5 && q[..4] == "LXR-" && AllDigits(q[4..])
      && DigitsValue(q[4..]) == timestamp % 1000000
      && (timestamp >= 100000 ==> |q| == 10)
  {
    var digits := Decimal(timestamp);
    var q := QuotationNumber(timestamp);
    assert q[4..] == LastChars(digits, 6);
    LastCharsValue(digits, 6);
    assert Pow10(6) == 1000000;
    if timestamp >= 100000 && |digits| < 6 {
      DigitsBound(digits);
      Pow10Monotone(|digits|, 5);
      assert false;
    }
  }

  function FileName(labelText: string, quotationNumber: string): string
  {
    "Quotation-" + labelText + "-" + quotationNumber + ".docx"
  }

  function TemplateFile(key: string): string
  {
    key + "-template.docx"
  }

  /** The variables bound into the template. Dates and amounts stay unformatted here. */
  datatype Binding = Binding(
    client: ClientRecord,
    quotationNumber: string,
    quotationDate: string,
    services: seq<LineItem>,
    subtotal: real,
    gst: real,
    tds: real,
    grandTotal: real,
    terms: seq<string>)

  /** What fetching the category's template gave. */
  datatype FetchResult = FetchOk | FetchNotOk | FetchRejected(message: string)

  /** How a generate request ended. */
  datatype Outcome =
    | NeedsClient
    | NothingSelected(labelText: string)
    | Failed(message: string)
    | Saved(fileName: string, data: Binding)

  /** The alert a request ends with, if any. */
  function AlertText(o: Outcome): (r: Option<string>)
    ensures r.None? <==> o.Saved?
  {
    match o
    case NeedsClient => Some("Please fill client details first")
    case NothingSelected(labelText) => Some("No services selected for " + labelText)
    case Failed(message) => Some("Document generation failed: " + message)
    case Saved(_, _) => None
  }

  /**
    `generateDocument` for a category key that has a template. The fetch and
    the rendering are inputs: what the fetch gave, and the error the renderer
    raised, if any. The date text is the formatted current date.
  */
  function Generate(client: Option<ClientRecord>, selected: seq<Entry>, templateType: string,
                    timestamp: nat, date: string, fetch: FetchResult, renderError: Option<string>): (r: Outcome)
    requires templateType in TemplateOptions
    ensures r.NeedsClient? <==> client.None?
    ensures client.Some? ==> (r.NothingSelected? <==> FilterCategory(selected, templateType) == [])
    ensures r.NothingSelected? ==> r.labelText == TemplateOptions[templateType].labelText
    ensures r.Failed? <==> client.Some? && FilterCategory(selected, templateType) != [] && (fetch != FetchOk || renderError.Some?)
    ensures fetch == FetchNotOk && r.Failed? ==> r.message == "Template not found: " + TemplateFile(templateType)
    ensures fetch.FetchRejected? && r.Failed? ==> r.message == fetch.message
    ensures fetch == FetchOk && renderError.Some? && r.Failed? ==> r.message == renderError.value
    ensures r.Saved? <==> client.Some? && FilterCategory(selected, templateType) != [] && fetch == FetchOk && renderError.None?
    ensures r.Saved? ==>
      var filtered := FilterCategory(selected, templateType);
      var totals := Aggregate(filtered);
      && r.data.client == client.value
      && r.data.quotationNumber == QuotationNumber(timestamp) && r.data.quotationDate == date
      && r.data.services == LineItems(filtered)
      && r.data.subtotal == totals.subtotal && r.data.gst == totals.gst
      && r.data.tds == totals.tds && r.data.grandTotal == totals.grandTotal
      && r.data.terms == TemplateOptions[templateType].terms
      && r.fileName == FileName(TemplateOptions[templateType].labelText, QuotationNumber(timestamp))
  {
    if client.None? then NeedsClient
    else
      var filtered := FilterCategory(selected, templateType);
      var template := TemplateOptions[templateType];
      if filtered == [] then NothingSelected(template.labelText)
      else
        var totals := Aggregate(filtered);
        match fetch
        case FetchRejected(message) => Failed(message)
        case FetchNotOk => Failed("Template not found: " + TemplateFile(templateType))
        case FetchOk =>
          var data := Binding(client.value, QuotationNumber(timestamp), date, LineItems(filtered),
            totals.subtotal, totals.gst, totals.tds, totals.grandTotal, template.terms);
          match renderError
          case Some(message) => Failed(message)
          case None => Saved(FileName(template.labelText, data.quotationNumber), data)
  }

  /**
    Without client data, or with no entry in the category, generation stops
    before the template is fetched: its outcome does not depend on what the
    fetch or the renderer would do.
  */
  lemma StopsBeforeFetch(client: Option<ClientRecord>, selected: seq<Entry>, templateType: string,
                         timestamp: nat, date: string,
                         fetch1: FetchResult, render1: Option<string>, fetch2: FetchResult, render2: Option<string>)
    requires templateType in TemplateOptions
    requires client.None? || FilterCategory(selected, templateType) == []
    ensures Generate(client, selected, templateType, timestamp, date, fetch1, render1)
         == Generate(client, selected, templateType, timestamp, date, fetch2, render2)
  {
  }

  /** A generate button offered for the selection never meets an empty category. */
  lemma ButtonNeverReportsNothingSelected(client: ClientRecord, selected: seq<Entry>, key: string,
                                          timestamp: nat, date: string, fetch: FetchResult, renderError: Option<string>)
    requires key in CategoryButtons(selected, TemplateOptions)
    ensures !Generate(Some(client), selected, key, timestamp, date, fetch, renderError).NothingSelected?
  {
    ButtonCategoriesAreNonEmpty(selected, key);
  }

  // ---------------------------------------------------------------------
  // handleFeeUpdate, on the entries seen as JavaScript objects
  // ---------------------------------------------------------------------

  /** A registry entry as the object App.js builds for it (the properties this model reads). */
  function EntryObject(e: Entry): (v: Value)
    ensures v.Obj? && "id" !in v.props && "subservices" !in v.props
  {
    Obj(map[
      "service" := Obj(map["id" := Str(e.service.id), "name" := Str(e.service.name)]),
      "subservice" := Obj(map["name" := Str(e.subservice.sub.name)]),
      "total" := Num(e.total),
      "officialFee" := Num(e.officialFee),
      "professionalFee" := Num(e.professionalFee),
      "miscFee" := Num(e.miscFee)])
  }

  function EntryObjects(list: seq<Entry>): (r: seq<Value>)
    ensures |r| == |list| && forall i :: 0 <= i < |list| ==> r[i] == EntryObject(list[i])
  {
    seq(|list|, i requires 0 <= i < |list| => EntryObject(list[i]))
  }

  /** Reading a property; anything but an object reads as undefined here. */
  function Prop(v: Value, key: string): Value
  {
    if v.Obj? then Get(v.props, key) else Undefined
  }

  /** The properties `{...v}` copies. */
  function Spread(v: Value): map<string, Value>
  {
    if v.Obj? then v.props else map[]
  }

  /** `items[i] = x` on a copied array: past the end the array grows, the gap reading as undefined. */
  function ArraySet(items: seq<Value>, i: nat, x: Value): (r: seq<Value>)
    ensures |r| == if i < |items| then |items| else i + 1
    ensures r[i] == x
    ensures forall j :: 0 <= j < |items| && j != i ==> r[j] == items[j]
    ensures forall j :: |items| <= j < i ==> r[j] == Undefined
  {
    if i < |items| then items[i := x] else items + seq(i - |items|, _ => Undefined) + [x]
  }

  /** One element of the `prev.map(...)`; None when spreading a `subservices` that is not an array throws. */
  function UpdateService(service: Value, serviceId: string, subserviceIndex: nat, field: string, value: Value): (r: Option<Value>)
    ensures Prop(service, "id") != Str(serviceId) ==> r == Some(service)
    ensures r.None? <==> Prop(service, "id") == Str(serviceId) && !Prop(service, "subservices").Arr?
    ensures Prop(service, "id") == Str(serviceId) && r.Some? ==>
      var subs := Prop(r.value, "subservices");
      subs.Arr? && subserviceIndex < |subs.items| && Prop(subs.items[subserviceIndex], field) == value
    ensures Prop(service, "id") == Str(serviceId) && r.Some? ==>
      var items := Prop(service, "subservices").items;
      var current := if subserviceIndex < |items| then items[subserviceIndex] else Undefined;
      && service.Obj? && r.value.Obj?
      && r.value.props.Keys == service.props.Keys + {"subservices"}
      && (forall p :: p in service.props && p != "subservices" ==> r.value.props[p] == service.props[p])
      && var subs := r.value.props["subservices"];
      && subs.Arr? && subserviceIndex < |subs.items|
      && subs.items == ArraySet(items, subserviceIndex, subs.items[subserviceIndex])
      && forall p :: p != field ==> Prop(subs.items[subserviceIndex], p) == Prop(current, p)
  {
    if Prop(service, "id") != Str(serviceId) then Some(service)
    else
      match Prop(service, "subservices")
      case Arr(items) =>
        var current := if subserviceIndex < |items| then items[subserviceIndex] else Undefined;
        var updated := ArraySet(items, subserviceIndex, Obj(Spread(current)[field := value]));
        Some(Obj(Spread(service)["subservices" := Arr(updated)]))
      case _ => None
  }

  /**
    `handleFeeUpdate`: every element whose top-level `id` is serviceId gets
    `field` of its subservice at subserviceIndex replaced; the others are kept.
    None stands for the TypeError of spreading a missing `subservices`.
  */
  function FeeUpdate(list: seq<Value>, serviceId: string, subserviceIndex: nat, field: string, value: Value): (r: Option<seq<Value>>)
    ensures r.Some? ==> |r.value| == |list|
    ensures r.Some? ==> forall k :: 0 <= k < |list| && Prop(list[k], "id") != Str(serviceId) ==> r.value[k] == list[k]
    ensures r.Some? ==> forall k :: 0 <= k < |list| && Prop(list[k], "id") == Str(serviceId) ==>
      var subs := Prop(r.value[k], "subservices");
      subs.Arr? && subserviceIndex < |subs.items| && Prop(subs.items[subserviceIndex], field) == value
    ensures (forall k :: 0 <= k < |list| ==> Prop(list[k], "id") != Str(serviceId)) ==> r == Some(list)
    ensures r.None? <==> exists k :: 0 <= k < |list| && Prop(list[k], "id") == Str(serviceId) && !Prop(list[k], "subservices").Arr?
    ensures r.Some? ==> forall k :: 0 <= k < |list| ==> UpdateService(list[k], serviceId, subserviceIndex, field, value) == Some(r.value[k])
  {
    if exists k :: 0 <= k < |list| && Prop(list[k], "id") == Str(serviceId) && !Prop(list[k], "subservices").Arr? then None
    else
      var updated := seq(|list|, k requires 0 <= k < |list| => UpdateService(list[k], serviceId, subserviceIndex, field, value).value);
      assert (forall k :: 0 <= k < |list| ==> Prop(list[k], "id") != Str(serviceId)) ==> updated == list;
      Some(updated)
  }

  /**
    Registry entries carry no top-level `id`, so the fee update returns every
    registry exactly as it was.
  */
  lemma FeeUpdateLeavesRegistryUnchanged(list: seq<Entry>, serviceId: string, subserviceIndex: nat, field: string, value: Value)
    ensures FeeUpdate(EntryObjects(list), serviceId, subserviceIndex, field, value) == Some(EntryObjects(list))
  {
    var objs := EntryObjects(list);
    forall k | 0 <= k < |objs| ensures Prop(objs[k], "id") != Str(serviceId) {
      assert objs[k] == EntryObject(list[k]);
    }
  }

  // ---------------------------------------------------------------------
  // The application state
  // ---------------------------------------------------------------------

  class AppState {
    var selected: seq<Entry>
    var clientData: Option<ClientRecord>
    var activeStep: Step

    /**
      The registry never holds two entries with the same pair, and every
      entry's total is the sum of its official, professional and misc fees.
    */
    ghost predicate Valid()
      reads this
    {
      && NoDuplicateKeys(selected)
      && forall i :: 0 <= i < |selected| ==> EntryConsistent(selected[i])
    }

    constructor ()
      ensures Valid() && selected == [] && clientData == None && activeStep == Services
    {
      selected := [];
      clientData := None;
      activeStep := Services;
    }

    /** The running totals memo: the sum of line totals and of professional fees. */
    function RunningTotals(): (r: (real, real))
      reads this
      ensures r.0 == Aggregate(selected).subtotal && r.1 == Aggregate(selected).professionalFees
    {
      (Subtotal(selected), ProfessionalFees(selected))
    }

    /** The only caller, a service card's confirm action, hands over a consistent confirmation. */
    method SelectSubservice(service: Service, c: Confirmation)
      requires Valid() && ConfirmationConsistent(c)
      modifies this`selected
      ensures Valid()
      ensures selected == Select(old(selected), service, c)
    {
      var isAlreadySelected := exists i :: 0 <= i < |selected| && EntryKey(selected[i]) == KeyOf(service, c.sub);
      if !isAlreadySelected {
        selected := selected + [NewEntry(service, c)];
      }
    }

    method RemoveService(index: int)
      requires Valid()
      modifies this`selected
      ensures Valid()
      ensures selected == RemoveAt(old(selected), index)
    {
      RemoveAtKeepsKeysDistinct(selected, index);
      selected := RemoveAt(selected, index);
    }

    method ClientSubmit(data: ClientRecord)
      modifies this`clientData, this`activeStep
      ensures clientData == Some(data) && activeStep == Summary
    {
      clientData := Some(data);
      activeStep := Summary;
    }

    /** "Create New Quotation": empty registry, no client data, back to the services step. */
    method NewQuotation()
      modifies this`selected, this`clientData, this`activeStep
      ensures Valid() && selected == [] && clientData == None && activeStep == Services
    {
      selected := [];
      clientData := None;
      activeStep := Services;
    }

    /**
      A generate button. Reads the registry without changing it; without
      client data it also moves the wizard to the client step.
    */
    method GenerateDocument(templateType: string, timestamp: nat, date: string,
                            fetch: FetchResult, renderError: Option<string>) returns (outcome: Outcome)
      requires templateType in TemplateOptions
      modifies this`activeStep
      ensures outcome == Generate(clientData, selected, templateType, timestamp, date, fetch, renderError)
      ensures activeStep == if clientData.None? then Client else old(activeStep)
    {
      outcome := Generate(clientData, selected, templateType, timestamp, date, fetch, renderError);
      if clientData.None? {
        activeStep := Client;
      }
    }
  }
}
