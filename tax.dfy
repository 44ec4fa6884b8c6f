/**
 * GST totals of an invoice: per-line amount and tax, their sums, and the split
 * of the tax into CGST + SGST (customer in the company's state) or IGST
 * (any other state).
 */
module Tax {
  import opened Optional

  /** One invoice line as the caller submits it. `productId` 0 means no product. */
  datatype Line = Line(
    productId: int,
    description: string,
    hsnCode: string,
    quantity: real,
    unit: string,
    rate: real,
    discount: real,
    taxRate: real,
    taxAmount: real,
    amount: real)

  datatype Totals = Totals(
    subtotal: real,
    cgst: real,
    sgst: real,
    igst: real,
    totalTax: real,
    discount: real,
    totalAmount: real)

  /** quantity * rate less the line's own discount. */
  function LineAmount(l: Line): (a: real)
    ensures a + l.discount == l.quantity * l.rate
    ensures l.discount == 0.0 ==> a == l.quantity * l.rate
  {
    l.quantity * l.rate - l.discount
  }

  /** The line's tax: its amount at its tax rate (a percentage). */
  function LineTax(l: Line): (t: real)
    ensures l.taxRate == 0.0 ==> t == 0.0
    ensures 0.0 <= LineAmount(l) && 0.0 <= l.taxRate <= 100.0 ==> 0.0 <= t <= LineAmount(l)
  {
    var t := LineAmount(l) * l.taxRate / 100.0;
    assert 0.0 <= LineAmount(l) && l.taxRate <= 100.0 ==> LineAmount(l) * l.taxRate <= LineAmount(l) * 100.0;
    t
  }

  function Subtotal(lines: seq<Line>): real
  {
    if lines == [] then 0.0 else Subtotal(lines[..|lines| - 1]) + LineAmount(lines[|lines| - 1])
  }

  function TotalTax(lines: seq<Line>): real
  {
    if lines == [] then 0.0 else TotalTax(lines[..|lines| - 1]) + LineTax(lines[|lines| - 1])
  }

  /**
   * Interstate supply: the customer's state is not exactly the company's
   * state string. A NULL state column (None) never equals a string.
   */
  predicate IsInterstate(customerState: Option<string>, companyState: string): (b: bool)
    ensures customerState == None ==> b
    ensures !b <==> customerState.Some? && customerState.value == companyState
  {
    customerState != Some(companyState)
  }

  /** What the totals of `lines` are, given the header-level discount and the supply kind. */
  predicate TotalsFor(t: Totals, lines: seq<Line>, discount: real, interstate: bool)
  {
    && t.subtotal == Subtotal(lines)
    && t.totalTax == TotalTax(lines)
    && (interstate ==> t.cgst == 0.0 && t.sgst == 0.0 && t.igst == t.totalTax)
    && (!interstate ==> t.igst == 0.0 && t.cgst == t.totalTax / 2.0 && t.sgst == t.totalTax / 2.0)
    && t.discount == discount
    && t.totalAmount == t.subtotal + t.totalTax - discount
  }

  /** The accumulation loop of calculate_invoice_totals. */
  method CalculateTotals(lines: seq<Line>, discount: real, interstate: bool) returns (t: Totals)
    ensures TotalsFor(t, lines, discount, interstate)
    ensures t.cgst + t.sgst + t.igst == t.totalTax
    ensures t.igst == 0.0 || (t.cgst == 0.0 && t.sgst == 0.0)
  {
    var subtotal, totalTax, cgst, sgst, igst := 0.0, 0.0, 0.0, 0.0, 0.0;
    var i := 0;
    while i < |lines|
      invariant 0 <= i <= |lines|
      invariant subtotal == Subtotal(lines[..i])
      invariant totalTax == TotalTax(lines[..i])
      invariant interstate ==> cgst == 0.0 && sgst == 0.0 && igst == totalTax
      invariant !interstate ==> igst == 0.0 && cgst == totalTax / 2.0 && sgst == totalTax / 2.0
    {
      var item := lines[i];
      var itemAmount := item.quantity * item.rate - item.discount;
      var taxAmount := itemAmount * item.taxRate / 100.0;
      assert lines[..i + 1][..i] == lines[..i];
      subtotal := subtotal + itemAmount;
      totalTax := totalTax + taxAmount;
      if interstate {
        igst := igst + taxAmount;
      } else {
        cgst := cgst + taxAmount / 2.0;
        sgst := sgst + taxAmount / 2.0;
      }
      i := i + 1;
    }
    assert lines[..i] == lines;
    t := Totals(subtotal, cgst, sgst, igst, totalTax, discount, subtotal + totalTax - discount);
  }

  /** Sums over lines split over a concatenation. */
  lemma {:induction false} SubtotalConcat(a: seq<Line>, b: seq<Line>)
    ensures Subtotal(a + b) == Subtotal(a) + Subtotal(b)
    ensures TotalTax(a + b) == TotalTax(a) + TotalTax(b)
  {
    if b == [] {
      assert a + b == a;
    } else {
      assert (a + b)[..|a + b| - 1] == a + b[..|b| - 1];
      assert (a + b)[|a + b| - 1] == b[|b| - 1];
      SubtotalConcat(a, b[..|b| - 1]);
    }
  }

  /** Taking one line out of a list takes its amount out of the subtotal and its tax out of the total tax. */
  lemma RemoveLine(lines: seq<Line>, i: int)
    requires 0 <= i < |lines|
    ensures Subtotal(lines) == Subtotal(lines[..i] + lines[i + 1..]) + LineAmount(lines[i])
    ensures TotalTax(lines) == TotalTax(lines[..i] + lines[i + 1..]) + LineTax(lines[i])
  {
    var before, after := lines[..i], lines[i + 1..];
    assert lines == (before + [lines[i]]) + after;
    assert (before + [lines[i]])[..|before|] == before;
    SubtotalConcat(before + [lines[i]], after);
    SubtotalConcat(before, after);
  }

  /** Removing the last element of `a` and a matching element of `b` keeps the two multisets equal. */
  lemma MultisetWithout<T>(a: seq<T>, b: seq<T>, i: int)
    requires multiset(a) == multiset(b) && a != []
    requires 0 <= i < |b| && b[i] == a[|a| - 1]
    ensures multiset(a[..|a| - 1]) == multiset(b[..i] + b[i + 1..])
  {
    assert a == a[..|a| - 1] + [a[|a| - 1]];
    assert multiset(a) == multiset(a[..|a| - 1]) + multiset{b[i]};
    assert b == b[..i] + [b[i]] + b[i + 1..];
    assert multiset(b) == multiset(b[..i]) + multiset{b[i]} + multiset(b[i + 1..]);
    assert multiset(b[..i] + b[i + 1..]) == multiset(b[..i]) + multiset(b[i + 1..]);
    assert multiset(a[..|a| - 1]) == multiset(a) - multiset{b[i]};
  }

  /** Any reordering of the lines keeps the subtotal and the total tax. */
  lemma {:induction false} SubtotalPermutation(a: seq<Line>, b: seq<Line>)
    requires multiset(a) == multiset(b)
    ensures Subtotal(a) == Subtotal(b)
    ensures TotalTax(a) == TotalTax(b)
    decreases |a|
  {
    if a != [] {
      assert a[|a| - 1] in multiset(b);
      var i :| 0 <= i < |b| && b[i] == a[|a| - 1];
      MultisetWithout(a, b, i);
      SubtotalPermutation(a[..|a| - 1], b[..i] + b[i + 1..]);
      RemoveLine(b, i);
    }
  }

  /** When every line carries the same rate, the total tax is the subtotal at that rate. */
  lemma {:induction false} UniformRateTax(lines: seq<Line>, rate: real)
    requires forall i :: 0 <= i < |lines| ==> lines[i].taxRate == rate
    ensures TotalTax(lines) == Subtotal(lines) * rate / 100.0
  {
    if lines != [] {
      var init := lines[..|lines| - 1];
      UniformRateTax(init, rate);
      var a := LineAmount(lines[|lines| - 1]);
      assert TotalTax(lines) == Subtotal(init) * rate / 100.0 + a * rate / 100.0;
      assert (Subtotal(init) + a) * rate == Subtotal(init) * rate + a * rate;
    }
  }

  /**
   * Two 18% lines, 2 x 100 and 1 x 50, for a customer in the company's own
   * state and no header discount: 250 + 45 tax split 22.5 / 22.5, total 295.
   */
  lemma IntrastateExample(t: Totals)
    requires TotalsFor(t, [Line(0, "", "", 2.0, "Nos", 100.0, 0.0, 18.0, 0.0, 0.0),
                           Line(0, "", "", 1.0, "Nos", 50.0, 0.0, 18.0, 0.0, 0.0)], 0.0, false)
    ensures t == Totals(250.0, 22.5, 22.5, 0.0, 45.0, 0.0, 295.0)
  {
    var lines := [Line(0, "", "", 2.0, "Nos", 100.0, 0.0, 18.0, 0.0, 0.0),
                  Line(0, "", "", 1.0, "Nos", 50.0, 0.0, 18.0, 0.0, 0.0)];
    assert lines[..1][..0] == [];
    assert Subtotal(lines[..1]) == 200.0 && TotalTax(lines[..1]) == 36.0;
    assert lines[..|lines| - 1] == lines[..1];
    assert Subtotal(lines) == 250.0 && TotalTax(lines) == 45.0;
  }
}
