/**
 * The invoice ledger: invoices, their line items, their payments and product
 * stock, changed together by create / update / delete transactions. Each
 * transaction either commits all of its writes or rolls all of them back.
 */
module Ledger {
  import opened Optional
  import opened Tax
  import opened Numbering

  datatype Status = Draft | Pending | Paid | Completed | Cancelled

  /** The header fields the caller submits. `customerId` 0 means none was given. */
  datatype InvoiceData = InvoiceData(
    customerId: int,
    invoiceDate: string,
    dueDate: string,
    discount: real,
    notes: string,
    terms: string)

  /** A row of the invoices table. */
  datatype Invoice = Invoice(
    number: string,
    customerId: int,
    invoiceDate: string,
    dueDate: string,
    totals: Totals,
    paidAmount: real,
    status: Status,
    notes: string,
    terms: string,
    createdBy: int)

  /** A row of the invoice items table: the submitted line, owned by one invoice. */
  datatype ItemRow = ItemRow(invoiceId: int, line: Line)

  /** A row of the payments table, as far as the ledger touches it. */
  datatype Payment = Payment(invoiceId: int, amount: real)

  /** The plugin options the ledger reads: company state, number prefix and start number. */
  datatype Settings = Settings(companyState: string, prefix: string, startNumber: int)

  /** The tables a transaction writes, taken together. */
  datatype Tables = Tables(
    invoices: map<int, Invoice>,
    items: seq<ItemRow>,
    payments: seq<Payment>,
    stock: map<int, real>)

  // ---------------------------------------------------------------------------
  // Stock

  /** `UPDATE products SET stock_quantity = stock_quantity + change WHERE id = productId`. */
  function Adjust(stock: map<int, real>, productId: int, change: real): (r: map<int, real>)
    ensures r.Keys == stock.Keys
    ensures forall p :: p in stock && p != productId ==> r[p] == stock[p]
  {
    if productId in stock then stock[productId := stock[productId] + change] else stock
  }

  /** The line names product p (0 names no product). */
  predicate References(l: Line, p: int)
  {
    l.productId != 0 && l.productId == p
  }

  /** The total quantity of product p over the lines. */
  function QuantityOf(lines: seq<Line>, p: int): real
  {
    if lines == [] then 0.0
    else
      var l := lines[|lines| - 1];
      QuantityOf(lines[..|lines| - 1], p) + (if References(l, p) then l.quantity else 0.0)
  }

  /** Stock after selling every line that names a product, line by line. */
  function Deduct(stock: map<int, real>, lines: seq<Line>): (r: map<int, real>)
    ensures r.Keys == stock.Keys
  {
    if lines == [] then stock
    else
      var l := lines[|lines| - 1];
      var s := Deduct(stock, lines[..|lines| - 1]);
      if l.productId != 0 then Adjust(s, l.productId, -l.quantity) else s
  }

  /** Stock after taking back every line that names a product, line by line. */
  function Restock(stock: map<int, real>, lines: seq<Line>): (r: map<int, real>)
    ensures r.Keys == stock.Keys
  {
    if lines == [] then stock
    else
      var l := lines[|lines| - 1];
      var s := Restock(stock, lines[..|lines| - 1]);
      if l.productId != 0 then Adjust(s, l.productId, l.quantity) else s
  }

  /** Selling lowers each product by its total quantity over the lines, with no floor: stock can go negative. */
  lemma {:induction false} DeductEffect(stock: map<int, real>, lines: seq<Line>, p: int)
    requires p in stock
    ensures Deduct(stock, lines)[p] == stock[p] - QuantityOf(lines, p)
  {
    if lines != [] {
      DeductEffect(stock, lines[..|lines| - 1], p);
    }
  }

  /** Taking lines back raises each product by its total quantity over the lines. */
  lemma {:induction false} RestockEffect(stock: map<int, real>, lines: seq<Line>, p: int)
    requires p in stock
    ensures Restock(stock, lines)[p] == stock[p] + QuantityOf(lines, p)
  {
    if lines != [] {
      RestockEffect(stock, lines[..|lines| - 1], p);
    }
  }

  /** A product no line names has quantity 0 over the lines, so its stock is left alone. */
  lemma {:induction false} QuantityOfUnreferenced(lines: seq<Line>, p: int)
    requires forall i :: 0 <= i < |lines| ==> !References(lines[i], p)
    ensures QuantityOf(lines, p) == 0.0
  {
    if lines != [] {
      QuantityOfUnreferenced(lines[..|lines| - 1], p);
    }
  }

  /** Taking back exactly what was sold restores every product's stock. */
  lemma DeductThenRestock(stock: map<int, real>, lines: seq<Line>)
    ensures Restock(Deduct(stock, lines), lines) == stock
  {
    var after := Restock(Deduct(stock, lines), lines);
    forall p | p in stock
      ensures after[p] == stock[p]
    {
      DeductEffect(stock, lines, p);
      RestockEffect(Deduct(stock, lines), lines, p);
    }
  }

  /** An update's net effect: the old lines come back, the new lines go out. */
  lemma UpdateStockEffect(stock: map<int, real>, oldLines: seq<Line>, newLines: seq<Line>, p: int)
    requires p in stock
    ensures Deduct(Restock(stock, oldLines), newLines)[p]
            == stock[p] + QuantityOf(oldLines, p) - QuantityOf(newLines, p)
  {
    RestockEffect(stock, oldLines, p);
    DeductEffect(Restock(stock, oldLines), newLines, p);
  }

  // ---------------------------------------------------------------------------
  // Item and payment rows

  /** The item rows inserted for invoice id, one per line, in order. */
  function Rows(id: int, lines: seq<Line>): (rows: seq<ItemRow>)
    ensures |rows| == |lines|
    ensures forall r :: r in rows ==> r.invoiceId == id
  {
    if lines == [] then [] else Rows(id, lines[..|lines| - 1]) + [ItemRow(id, lines[|lines| - 1])]
  }

  /** `SELECT * FROM invoice_items WHERE invoice_id = id`, as lines. */
  function LinesOf(items: seq<ItemRow>, id: int): (lines: seq<Line>)
    ensures |lines| <= |items|
  {
    if items == [] then []
    else
      var r := items[|items| - 1];
      LinesOf(items[..|items| - 1], id) + (if r.invoiceId == id then [r.line] else [])
  }

  /** `DELETE FROM invoice_items WHERE invoice_id = id`. */
  function WithoutInvoice(items: seq<ItemRow>, id: int): (rest: seq<ItemRow>)
    ensures |rest| <= |items|
  {
    if items == [] then []
    else
      var r := items[|items| - 1];
      WithoutInvoice(items[..|items| - 1], id) + (if r.invoiceId == id then [] else [r])
  }

  /** Deleting an invoice's items keeps exactly the rows of the other invoices. */
  lemma {:induction false} WithoutInvoiceKeepsOthers(items: seq<ItemRow>, id: int)
    ensures forall r :: r in WithoutInvoice(items, id) <==> r in items && r.invoiceId != id
  {
    if items != [] {
      var init, last := items[..|items| - 1], items[|items| - 1];
      WithoutInvoiceKeepsOthers(init, id);
      assert items == init + [last];
    }
  }

  /** `DELETE FROM payments WHERE invoice_id = id`. */
  function PaymentsWithout(payments: seq<Payment>, id: int): (rest: seq<Payment>)
    ensures forall p :: p in rest ==> p in payments && p.invoiceId != id
    ensures forall p :: p in payments && p.invoiceId != id ==> p in rest
  {
    if payments == [] then []
    else
      var p := payments[|payments| - 1];
      PaymentsWithout(payments[..|payments| - 1], id) + (if p.invoiceId == id then [] else [p])
  }

  lemma {:induction false} LinesOfConcat(a: seq<ItemRow>, b: seq<ItemRow>, id: int)
    ensures LinesOf(a + b, id) == LinesOf(a, id) + LinesOf(b, id)
  {
    if b == [] {
      assert a + b == a;
    } else {
      assert (a + b)[..|a + b| - 1] == a + b[..|b| - 1];
      LinesOfConcat(a, b[..|b| - 1], id);
    }
  }

  /** Reading back the rows inserted for an invoice gives its lines. */
  lemma {:induction false} LinesOfRows(id: int, lines: seq<Line>)
    ensures LinesOf(Rows(id, lines), id) == lines
  {
    if lines != [] {
      var rows := Rows(id, lines);
      assert rows[..|rows| - 1] == Rows(id, lines[..|lines| - 1]);
      LinesOfRows(id, lines[..|lines| - 1]);
    }
  }

  lemma {:induction false} LinesOfAbsent(items: seq<ItemRow>, id: int)
    requires forall r :: r in items ==> r.invoiceId != id
    ensures LinesOf(items, id) == []
  {
    if items != [] {
      LinesOfAbsent(items[..|items| - 1], id);
    }
  }

  /**
   * Items appended under an id no earlier row carries read back as exactly
   * the submitted lines.
   */
  lemma CreatedItemsReadBack(items: seq<ItemRow>, id: int, lines: seq<Line>)
    requires forall r :: r in items ==> r.invoiceId != id
    ensures LinesOf(items + Rows(id, lines), id) == lines
  {
    LinesOfConcat(items, Rows(id, lines), id);
    LinesOfAbsent(items, id);
    LinesOfRows(id, lines);
  }

  /** Creating an invoice and then deleting it leaves every product's stock as it was. */
  lemma CreateDeleteRoundTrip(stock: map<int, real>, items: seq<ItemRow>, id: int, lines: seq<Line>)
    requires forall r :: r in items ==> r.invoiceId != id
    ensures Restock(Deduct(stock, lines), LinesOf(items + Rows(id, lines), id)) == stock
  {
    CreatedItemsReadBack(items, id, lines);
    DeductThenRestock(stock, lines);
  }

  lemma {:induction false} WithoutInvoiceConcat(a: seq<ItemRow>, b: seq<ItemRow>, id: int)
    ensures WithoutInvoice(a + b, id) == WithoutInvoice(a, id) + WithoutInvoice(b, id)
  {
    if b == [] {
      assert a + b == a;
    } else {
      assert (a + b)[..|a + b| - 1] == a + b[..|b| - 1];
      WithoutInvoiceConcat(a, b[..|b| - 1], id);
    }
  }

  lemma {:induction false} WithoutInvoiceAbsent(items: seq<ItemRow>, id: int)
    requires forall i :: 0 <= i < |items| ==> items[i].invoiceId != id
    ensures WithoutInvoice(items, id) == items
  {
    if items != [] {
      var init, last := items[..|items| - 1], items[|items| - 1];
      assert last.invoiceId != id;
      WithoutInvoiceAbsent(init, id);
      calc {
        WithoutInvoice(items, id);
        WithoutInvoice(init, id) + [last];
        { assert init + [last] == items; }
        items;
      }
    }
  }

  lemma {:induction false} WithoutOwnRows(id: int, lines: seq<Line>)
    ensures WithoutInvoice(Rows(id, lines), id) == []
  {
    if lines != [] {
      var rows := Rows(id, lines);
      assert rows[..|rows| - 1] == Rows(id, lines[..|lines| - 1]);
      WithoutOwnRows(id, lines[..|lines| - 1]);
    }
  }

  /** Deleting the rows of an invoice that was just created gives back the earlier items. */
  lemma CreatedItemsRemoved(items: seq<ItemRow>, id: int, lines: seq<Line>)
    requires forall r :: r in items ==> r.invoiceId != id
    ensures WithoutInvoice(items + Rows(id, lines), id) == items
  {
    WithoutInvoiceConcat(items, Rows(id, lines), id);
    WithoutInvoiceAbsent(items, id);
    WithoutOwnRows(id, lines);
  }

  /** A non-empty set of ids has a member to pick. */
  lemma NonEmptyHasMember(s: set<int>)
    requires s != {}
    ensures exists k :: k in s
  {
    if forall k :: k !in s {
      assert false;
    }
  }

  // ---------------------------------------------------------------------------
  // The store

  class InvoiceStore {
    var invoices: map<int, Invoice>
    var items: seq<ItemRow>
    var payments: seq<Payment>
    /** product id to stock_quantity */
    var stock: map<int, real>
    /** customer id to the state column (None for NULL); read, never written here */
    var customers: map<int, Option<string>>
    /** the next auto-increment invoice id */
    var nextId: int

    ghost predicate Valid()
      reads this
    {
      && 0 < nextId
      && (forall id :: id in invoices ==> 0 < id < nextId)
      && (forall r :: r in items ==> r.invoiceId in invoices)
    }

    function Snapshot(): Tables
      reads this
    {
      Tables(invoices, items, payments, stock)
    }

    function Numbers(): set<string>
      reads this
    {
      set id | id in invoices :: invoices[id].number
    }

    /** The customer's state as calculate_invoice_totals reads it: '' when there is no such customer. */
    function CustomerState(customerId: int): (s: Option<string>)
      reads this
      ensures customerId == 0 || customerId !in customers ==> s == Some("")
      ensures s == None ==> customerId in customers && customers[customerId] == None
      ensures customerId != 0 && customerId in customers ==> s == customers[customerId]
    {
      if customerId != 0 && customerId in customers then customers[customerId] else Some("")
    }

    /** With no customer to read, the supply is intrastate exactly when no company state is configured. */
    lemma MissingCustomerIsBlankState(customerId: int, companyState: string)
      requires customerId == 0 || customerId !in customers
      ensures IsInterstate(CustomerState(customerId), companyState) <==> companyState != ""
    {
    }

    constructor (stock: map<int, real>, customers: map<int, Option<string>>, payments: seq<Payment>)
      ensures Valid()
      ensures this.stock == stock && this.customers == customers && this.payments == payments
      ensures invoices == map[] && items == []
    {
      this.invoices := map[];
      this.items := [];
      this.payments := payments;
      this.stock := stock;
      this.customers := customers;
      this.nextId := 1;
    }

    method UpdateProductStock(productId: int, change: real)
      modifies this
      ensures stock == Adjust(old(stock), productId, change)
      ensures invoices == old(invoices) && items == old(items) && payments == old(payments)
      ensures customers == old(customers) && nextId == old(nextId)
    {
      if productId in stock {
        stock := stock[productId := stock[productId] + change];
      }
    }

    /** The `foreach` that takes each line naming a product back into stock. */
    method RestockLines(lines: seq<Line>)
      modifies this
      ensures stock == Restock(old(stock), lines)
      ensures invoices == old(invoices) && items == old(items) && payments == old(payments)
      ensures customers == old(customers) && nextId == old(nextId)
    {
      var i := 0;
      while i < |lines|
        invariant 0 <= i <= |lines|
        invariant stock == Restock(old(stock), lines[..i])
        invariant invoices == old(invoices) && items == old(items) && payments == old(payments)
        invariant customers == old(customers) && nextId == old(nextId)
      {
        assert lines[..i + 1][..i] == lines[..i];
        if lines[i].productId != 0 {
          UpdateProductStock(lines[i].productId, lines[i].quantity);
        }
        i := i + 1;
      }
      assert lines[..i] == lines;
    }

    /** The `foreach` that inserts each line as an item of invoice id and sells it out of stock. */
    method InsertLines(id: int, lines: seq<Line>)
      modifies this
      ensures items == old(items) + Rows(id, lines)
      ensures stock == Deduct(old(stock), lines)
      ensures invoices == old(invoices) && payments == old(payments)
      ensures customers == old(customers) && nextId == old(nextId)
    {
      var i := 0;
      while i < |lines|
        invariant 0 <= i <= |lines|
        invariant items == old(items) + Rows(id, lines[..i])
        invariant stock == Deduct(old(stock), lines[..i])
        invariant invoices == old(invoices) && payments == old(payments)
        invariant customers == old(customers) && nextId == old(nextId)
      {
        assert lines[..i + 1][..i] == lines[..i];
        items := items + [ItemRow(id, lines[i])];
        if lines[i].productId != 0 {
          UpdateProductStock(lines[i].productId, -lines[i].quantity);
        }
        i := i + 1;
      }
      assert lines[..i] == lines;
    }

    /** The MAX over the suffixes of the invoice numbers that carry the prefix; 0 when there are none. */
    method LastInvoiceSuffix(prefix: string) returns (last: nat)
      ensures BoundsSuffixes(last, Numbers(), prefix)
      ensures last == 0 || exists id :: id in invoices && HasPrefix(invoices[id].number, prefix)
                                         && Suffix(invoices[id].number, prefix) == last
    {
      last := 0;
      ghost var top := 0;
      var remaining := invoices.Keys;
      while remaining != {}
        invariant remaining <= invoices.Keys
        invariant forall id :: id in invoices && id !in remaining && HasPrefix(invoices[id].number, prefix)
                               ==> Suffix(invoices[id].number, prefix) <= last
        invariant last == 0 || (top in invoices && HasPrefix(invoices[top].number, prefix)
                                && Suffix(invoices[top].number, prefix) == last)
        decreases remaining
      {
        NonEmptyHasMember(remaining);
        var k :| k in remaining;
        var number := invoices[k].number;
        if HasPrefix(number, prefix) && Suffix(number, prefix) > last {
          last := Suffix(number, prefix);
          top := k;
        }
        remaining := remaining - {k};
      }
    }

    /**
     * The next invoice number: canonical form, above every existing suffix
     * and the start number, exactly max(last + 1, start), and not yet taken.
     */
    method GenerateNextInvoiceNumber(settings: Settings) returns (number: string)
      ensures IsNextNumber(number, Numbers(), settings.prefix, settings.startNumber)
      ensures |number| >= |settings.prefix| + PadWidth
      ensures number !in Numbers()
    {
      var last := LastInvoiceSuffix(settings.prefix);
      var n := NextNumber(last, settings.startNumber);
      number := InvoiceNumber(settings.prefix, n);
      if last != 0 {
        ghost var top :| top in invoices && HasPrefix(invoices[top].number, settings.prefix)
                   && Suffix(invoices[top].number, settings.prefix) == last;
        assert invoices[top].number in Numbers();
      }
      NextInvoiceNumberIsNext(Numbers(), settings.prefix, last, settings.startNumber);
      NextInvoiceNumberIsFresh(Numbers(), settings.prefix, last, settings.startNumber);
    }

    /** calculate_invoice_totals: look up the customer's state, then run the accumulation loop. */
    method CalculateInvoiceTotals(lines: seq<Line>, data: InvoiceData, companyState: string) returns (t: Totals)
      ensures TotalsFor(t, lines, data.discount, IsInterstate(CustomerState(data.customerId), companyState))
      ensures t.cgst + t.sgst + t.igst == t.totalTax
    {
      var customerState: Option<string> := Some("");
      if data.customerId != 0 {
        customerState := if data.customerId in customers then customers[data.customerId] else Some("");
      }
      var interstate := customerState != Some(companyState);
      t := CalculateTotals(lines, data.discount, interstate);
    }

    /**
     * create_invoice. Rejected without a customer or without lines; otherwise
     * one transaction inserts the invoice (draft, nothing paid), inserts every
     * line and sells each line's quantity out of stock.
     */
    method CreateInvoice(data: InvoiceData, lines: seq<Line>, settings: Settings, user: int, storeOk: bool)
      returns (r: Option<int>)
      requires Valid()
      modifies this
      ensures Valid()
      ensures customers == old(customers) && payments == old(payments)
      ensures r.None? <==> data.customerId == 0 || lines == [] || !storeOk
      ensures r.None? ==> Snapshot() == old(Snapshot()) && nextId == old(nextId)
      ensures r.Some? ==>
        var id := r.value;
        && id !in old(invoices) && id in invoices
        && invoices == old(invoices)[id := invoices[id]]
        && invoices[id].number !in old(Numbers())
        && IsNextNumber(invoices[id].number, old(Numbers()), settings.prefix, settings.startNumber)
        && invoices[id].customerId == data.customerId
        && invoices[id].invoiceDate == data.invoiceDate && invoices[id].dueDate == data.dueDate
        && invoices[id].notes == data.notes && invoices[id].terms == data.terms
        && invoices[id].createdBy == user
        && invoices[id].status == Draft && invoices[id].paidAmount == 0.0
        && TotalsFor(invoices[id].totals, lines, data.discount,
                     IsInterstate(old(CustomerState(data.customerId)), settings.companyState))
        && items == old(items) + Rows(id, lines)
        && LinesOf(items, id) == lines
        && stock == Deduct(old(stock), lines)
    {
      if data.customerId == 0 || lines == [] {
        return None;
      }
      // START TRANSACTION
      var totals := CalculateInvoiceTotals(lines, data, settings.companyState);
      var number := GenerateNextInvoiceNumber(settings);
      if !storeOk || number in Numbers() {
        // the invoice insert failed: ROLLBACK, nothing has been written
        return None;
      }
      var id := nextId;
      invoices := invoices[id := Invoice(number, data.customerId, data.invoiceDate, data.dueDate,
                                         totals, 0.0, Draft, data.notes, data.terms, user)];
      nextId := nextId + 1;
      InsertLines(id, lines);
      CreatedItemsReadBack(old(items), id, lines);
      // COMMIT
      r := Some(id);
    }

    /**
     * update_invoice. Fails when the invoice does not exist or the store
     * rejects the row update; otherwise one transaction rewrites the header
     * and totals, takes the old lines back into stock, replaces the items and
     * sells the new lines.
     */
    method UpdateInvoice(id: int, data: InvoiceData, lines: seq<Line>, companyState: string, storeOk: bool)
      returns (ok: bool)
      requires Valid()
      modifies this
      ensures Valid()
      ensures customers == old(customers) && payments == old(payments) && nextId == old(nextId)
      ensures ok <==> id in old(invoices) && storeOk
      ensures !ok ==> Snapshot() == old(Snapshot())
      ensures ok ==>
        && id in old(invoices) && id in invoices
        && invoices == old(invoices)[id := old(invoices)[id].(
             customerId := data.customerId, invoiceDate := data.invoiceDate, dueDate := data.dueDate,
             totals := invoices[id].totals, notes := data.notes, terms := data.terms)]
        && TotalsFor(invoices[id].totals, lines, data.discount,
                     IsInterstate(old(CustomerState(data.customerId)), companyState))
        && items == WithoutInvoice(old(items), id) + Rows(id, lines)
        && stock == Deduct(Restock(old(stock), LinesOf(old(items), id)), lines)
    {
      // START TRANSACTION
      if id !in invoices {
        // "Invoice not found": ROLLBACK, nothing has been written
        return false;
      }
      var totals := CalculateInvoiceTotals(lines, data, companyState);
      if !storeOk {
        // the row update failed: ROLLBACK, nothing has been written
        return false;
      }
      var updated := invoices[id].(customerId := data.customerId, invoiceDate := data.invoiceDate,
                                   dueDate := data.dueDate, totals := totals, notes := data.notes,
                                   terms := data.terms);
      invoices := invoices[id := updated];

      RestockLines(LinesOf(items, id));
      WithoutInvoiceKeepsOthers(items, id);
      items := WithoutInvoice(items, id);
      InsertLines(id, lines);
      // COMMIT
      ok := true;
    }

    /** The writes delete_invoice makes before deleting the invoice row: stock back, items and payments gone. */
    method RemoveInvoiceRows(id: int)
      modifies this
      ensures stock == Restock(old(stock), LinesOf(old(items), id))
      ensures items == WithoutInvoice(old(items), id)
      ensures payments == PaymentsWithout(old(payments), id)
      ensures invoices == old(invoices) && customers == old(customers) && nextId == old(nextId)
    {
      RestockLines(LinesOf(items, id));
      items := WithoutInvoice(items, id);
      payments := PaymentsWithout(payments, id);
    }

    /**
     * delete_invoice. One transaction takes the invoice's lines back into
     * stock, deletes its items and payments, then deletes the invoice row; if
     * that last delete removes no row, everything is rolled back.
     */
    method DeleteInvoice(id: int, storeOk: bool) returns (ok: bool)
      requires Valid()
      modifies this
      ensures Valid()
      ensures customers == old(customers) && nextId == old(nextId)
      ensures ok <==> id in old(invoices) && storeOk
      ensures !ok ==> Snapshot() == old(Snapshot())
      ensures ok ==>
        && invoices == old(invoices) - {id}
        && items == WithoutInvoice(old(items), id)
        && payments == PaymentsWithout(old(payments), id)
        && stock == Restock(old(stock), LinesOf(old(items), id))
    {
      // START TRANSACTION
      var before := Snapshot();
      RemoveInvoiceRows(id);
      WithoutInvoiceKeepsOthers(before.items, id);
      if storeOk && id in invoices {
        invoices := invoices - {id};
        // COMMIT
        ok := true;
      } else {
        // no invoice row was deleted: ROLLBACK
        invoices, items, payments, stock := before.invoices, before.items, before.payments, before.stock;
        ok := false;
      }
    }
  }

  /**
   * Deleting an invoice straight after creating it puts the invoice table,
   * the item rows and every product's stock back as they were.
   */
  method CreateThenDelete(store: InvoiceStore, data: InvoiceData, lines: seq<Line>, settings: Settings, user: int)
    requires store.Valid()
    modifies store
    ensures store.Valid()
    ensures store.invoices == old(store.invoices)
    ensures store.items == old(store.items)
    ensures store.stock == old(store.stock)
  {
    var r := store.CreateInvoice(data, lines, settings, user, true);
    if r.Some? {
      var id := r.value;
      assert store.invoices - {id} == old(store.invoices);
      CreateDeleteRoundTrip(old(store.stock), old(store.items), id, lines);
      CreatedItemsRemoved(old(store.items), id, lines);
      var ok := store.DeleteInvoice(id, true);
    }
  }
}
