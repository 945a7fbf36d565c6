/**
  The fee aggregation of the summary (TotalCalculation.js), also used by the
  application's running totals and by document generation (App.js): sums of
  line totals and professional fees, GST and TDS on the professional fees only,
  and the grand total.
*/
module TotalCalculation {
  import opened Values
  import opened DataModel

  datatype Totals = Totals(subtotal: real, professionalFees: real, gst: real, tds: real, grandTotal: real)

  /** GST is charged at 18% and TDS withheld at 10%, both on professional fees only. */
  const GstRate: real := 0.18
  const TdsRate: real := 0.10

  /** The sum of the line totals, folded from the left as `reduce` does. */
  function Subtotal(items: seq<Entry>): real
  {
    if items == [] then 0.0 else Subtotal(items[..|items| - 1]) + items[|items| - 1].total
  }

  /** The sum of the professional fees, folded from the left. */
  function ProfessionalFees(items: seq<Entry>): real
  {
    if items == [] then 0.0 else ProfessionalFees(items[..|items| - 1]) + items[|items| - 1].professionalFee
  }

  /** The sum of the official fees; no component computes it, it states what a subtotal is made of. */
  function OfficialFees(items: seq<Entry>): real
  {
    if items == [] then 0.0 else OfficialFees(items[..|items| - 1]) + items[|items| - 1].officialFee
  }

  /** The sum of the reimbursements (misc fees); a reference sum like OfficialFees. */
  function MiscFees(items: seq<Entry>): real
  {
    if items == [] then 0.0 else MiscFees(items[..|items| - 1]) + items[|items| - 1].miscFee
  }

  /** Subtotal, professional-fee sum, GST, TDS and grand total of a list of entries. */
  function Aggregate(items: seq<Entry>): (t: Totals)
    ensures t.subtotal == Subtotal(items) && t.professionalFees == ProfessionalFees(items)
    ensures t.gst == GstRate * t.professionalFees && t.tds == TdsRate * t.professionalFees
    ensures t.grandTotal == t.subtotal + t.gst - t.tds
    ensures t.grandTotal == t.subtotal + 0.08 * t.professionalFees
  {
    var subtotal := Subtotal(items);
    var professional := ProfessionalFees(items);
    var gst := professional * GstRate;
    var tds := professional * TdsRate;
    Totals(subtotal, professional, gst, tds, subtotal + gst - tds)
  }

  /** What the summary shows: nothing for an empty selection, the totals otherwise. */
  function Calculate(items: seq<Entry>): (r: Option<Totals>)
    ensures r.None? <==> items == []
    ensures r.Some? ==> r.value == Aggregate(items)
  {
    if items == [] then None else Some(Aggregate(items))
  }

  /** Every sum splits over a concatenation. */
  lemma {:induction false} SumsAppend(a: seq<Entry>, b: seq<Entry>)
    ensures Subtotal(a + b) == Subtotal(a) + Subtotal(b)
    ensures ProfessionalFees(a + b) == ProfessionalFees(a) + ProfessionalFees(b)
    ensures OfficialFees(a + b) == OfficialFees(a) + OfficialFees(b)
    ensures MiscFees(a + b) == MiscFees(a) + MiscFees(b)
  {
    if b == [] {
      assert a + b == a;
    } else {
      var b' := b[..|b| - 1];
      SumsAppend(a, b');
      assert (a + b)[..|a + b| - 1] == a + b';
      assert (a + b)[|a + b| - 1] == b[|b| - 1];
    }
  }

  /** Aggregation is linear: the totals of a concatenation are the sums of the totals. */
  lemma AggregateAppend(a: seq<Entry>, b: seq<Entry>)
    ensures var t, ta, tb := Aggregate(a + b), Aggregate(a), Aggregate(b);
      && t.subtotal == ta.subtotal + tb.subtotal
      && t.professionalFees == ta.professionalFees + tb.professionalFees
      && t.gst == ta.gst + tb.gst
      && t.tds == ta.tds + tb.tds
      && t.grandTotal == ta.grandTotal + tb.grandTotal
  {
    SumsAppend(a, b);
  }

  /** The sums do not depend on the order of the entries. */
  lemma {:induction false} SumsPermutation(a: seq<Entry>, b: seq<Entry>)
    requires multiset(a) == multiset(b)
    ensures Subtotal(a) == Subtotal(b) && ProfessionalFees(a) == ProfessionalFees(b)
    decreases |a|
  {
    if a == [] {
      assert |multiset(b)| == 0;
    } else {
      var x := a[|a| - 1];
      var a' := a[..|a| - 1];
      assert a == a' + [x];
      assert x in multiset(b);
      var i :| 0 <= i < |b| && b[i] == x;
      var b' := b[..i] + b[i + 1..];
      MultisetRemove(a', b, i);
      SumsPermutation(a', b');
      SumsAppend(a', [x]);
      SumsSingleton(x);
      SumsRemoveAt(b, i);
    }
  }

  /** Taking the last element off a and element i off b keeps equal multisets equal. */
  lemma MultisetRemove(a': seq<Entry>, b: seq<Entry>, i: nat)
    requires i < |b| && multiset(a' + [b[i]]) == multiset(b)
    ensures multiset(a') == multiset(b[..i] + b[i + 1..])
  {
    var x := b[i];
    var left, right := b[..i], b[i + 1..];
    assert b == left + [x] + right;
    assert multiset(a') + multiset{x} == multiset(left + right) + multiset{x};
    assert multiset(a') == multiset(a') + multiset{x} - multiset{x};
    assert multiset(left + right) == multiset(left + right) + multiset{x} - multiset{x};
  }

  lemma SumsSingleton(x: Entry)
    ensures Subtotal([x]) == x.total && ProfessionalFees([x]) == x.professionalFee
  {
    assert [x][..0] == [];
  }

  /** The sums of b are those of b without element i, plus element i. */
  lemma SumsRemoveAt(b: seq<Entry>, i: nat)
    requires i < |b|
    ensures Subtotal(b) == Subtotal(b[..i] + b[i + 1..]) + b[i].total
    ensures ProfessionalFees(b) == ProfessionalFees(b[..i] + b[i + 1..]) + b[i].professionalFee
  {
    SplitAt(b, i);
    SumsSplit(b[..i], b[i], b[i + 1..]);
  }

  lemma SplitAt(b: seq<Entry>, i: nat)
    requires i < |b|
    ensures b == b[..i] + [b[i]] + b[i + 1..]
  {
  }

  /** An element in the middle contributes its own amounts to the sums. */
  lemma SumsSplit(left: seq<Entry>, x: Entry, right: seq<Entry>)
    ensures Subtotal(left + [x] + right) == Subtotal(left + right) + x.total
    ensures ProfessionalFees(left + [x] + right) == ProfessionalFees(left + right) + x.professionalFee
  {
    var lx := left + [x];
    SumsAppend(left, [x]);
    SumsAppend(lx, right);
    SumsAppend(left, right);
    SumsSingleton(x);
    calc {
      Subtotal(lx + right);
      Subtotal(lx) + Subtotal(right);
      Subtotal(left) + x.total + Subtotal(right);
      Subtotal(left + right) + x.total;
    }
    calc {
      ProfessionalFees(lx + right);
      ProfessionalFees(lx) + ProfessionalFees(right);
      ProfessionalFees(left) + x.professionalFee + ProfessionalFees(right);
      ProfessionalFees(left + right) + x.professionalFee;
    }
  }

  /** Permuting the entries changes none of the totals. */
  lemma AggregatePermutation(a: seq<Entry>, b: seq<Entry>)
    requires multiset(a) == multiset(b)
    ensures Aggregate(a) == Aggregate(b)
  {
    SumsPermutation(a, b);
  }

  /** The professional-fee sum of non-negative fees is non-negative. */
  lemma {:induction false} ProfessionalFeesNonNegative(items: seq<Entry>)
    requires forall i :: 0 <= i < |items| ==> items[i].professionalFee >= 0.0
    ensures ProfessionalFees(items) >= 0.0
  {
    if items != [] { ProfessionalFeesNonNegative(items[..|items| - 1]); }
  }

  /** With non-negative professional fees GST outweighs TDS, so the grand total is at least the subtotal. */
  lemma GrandTotalCoversSubtotal(items: seq<Entry>)
    requires forall i :: 0 <= i < |items| ==> items[i].professionalFee >= 0.0
    ensures Aggregate(items).grandTotal >= Aggregate(items).subtotal
  {
    ProfessionalFeesNonNegative(items);
  }

  /**
    Only professional fees are taxed: two lists whose professional fees agree
    position by position get the same GST and TDS, and their grand totals
    exceed their subtotals by the same amount, whatever their official and
    misc fees are.
  */
  lemma {:induction false} TaxesOnlyOnProfessionalFees(a: seq<Entry>, b: seq<Entry>)
    requires |a| == |b|
    requires forall i :: 0 <= i < |a| ==> a[i].professionalFee == b[i].professionalFee
    ensures Aggregate(a).gst == Aggregate(b).gst && Aggregate(a).tds == Aggregate(b).tds
    ensures Aggregate(a).grandTotal - Aggregate(a).subtotal == Aggregate(b).grandTotal - Aggregate(b).subtotal
  {
    if a != [] {
      TaxesOnlyOnProfessionalFees(a[..|a| - 1], b[..|b| - 1]);
    }
  }

  /** When every entry's total is the sum of its fees, the subtotal is official + professional + misc sums. */
  lemma {:induction false} SubtotalOfConsistentEntries(items: seq<Entry>)
    requires forall i :: 0 <= i < |items| ==> EntryConsistent(items[i])
    ensures Subtotal(items) == OfficialFees(items) + ProfessionalFees(items) + MiscFees(items)
  {
    if items != [] {
      SubtotalOfConsistentEntries(items[..|items| - 1]);
      assert EntryConsistent(items[|items| - 1]);
    }
  }

  /** Two All-IP rows with fees (1600, 500, 0) and (6500, 2000, 100). */
  function ExampleEntries(): seq<Entry>
  {
    var s1, s2 := AllIp.subservices[1], AllIp.subservices[2];
    [ Entry(AllIp, Confirmation(s1, Some(1600.0), Some(500.0), Some(0.0), Some(0.0), Some(2100.0)),
            2100.0, 1600.0, 500.0, 0.0),
      Entry(AllIp, Confirmation(s2, Some(6500.0), Some(2000.0), Some(100.0), Some(100.0), Some(8600.0)),
            8600.0, 6500.0, 2000.0, 100.0) ]
  }

  /** Worked example: subtotal 10700, GST 450, TDS 250, grand total 10900. */
  lemma WorkedExample()
    ensures Aggregate(ExampleEntries()) == Totals(10700.0, 2500.0, 450.0, 250.0, 10900.0)
  {
    var items := ExampleEntries();
    var first := items[..1];
    assert first[..0] == [];
    assert items[..|items| - 1] == first;
    assert Subtotal(first) == 2100.0 && ProfessionalFees(first) == 500.0;
    assert Subtotal(items) == 10700.0 && ProfessionalFees(items) == 2500.0;
  }
}
