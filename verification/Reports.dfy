/** GST reports on the invoice basis: the period summary, the state-wise summary and the
    HSN summary, and the facts that make them agree. */
module Reports {
  import opened Money
  import opened Orders
  import opened Buckets
  import opened Ordering
  import opened Pricing
  import opened TaxBreakdown
  import opened Checkout
  import opened Coupons
  import opened Documents

  // ----- Documents in a window -----

  predicate IssuedIn(d: TaxDocument, start: int, end: int) {
    start <= d.issuedAt <= end
  }

  function Window(docs: seq<TaxDocument>, start: int, end: int): seq<TaxDocument> {
    if docs == [] then []
    else
      var n := |docs| - 1;
      var earlier := Window(docs[..n], start, end);
      if IssuedIn(docs[n], start, end) then earlier + [docs[n]] else earlier
  }

  // ----- What the documents contribute -----

  datatype StateKey = StateKey(code: string, rate: Option<int>)

  function RowEntries(code: string, rows: seq<SnapRow>): (s: seq<Entry<StateKey>>)
    ensures |s| == |rows|
  {
    seq(|rows|, i requires 0 <= i < |rows| =>
      Entry(StateKey(code, rows[i].rate),
            Tally(0, if rows[i].taxable.Some? then rows[i].taxable.value else 0, 0,
                  rows[i].heads.cgst, rows[i].heads.sgst, rows[i].heads.igst)))
  }

  function StateEntries(docs: seq<TaxDocument>): seq<Entry<StateKey>> {
    if docs == [] then []
    else
      var n := |docs| - 1;
      StateEntries(docs[..n]) + RowEntries(docs[n].stateCode, docs[n].rows)
  }

  lemma OneMoreDocument(docs: seq<TaxDocument>, d: TaxDocument)
    ensures StateEntries(docs + [d]) == StateEntries(docs) + RowEntries(d.stateCode, d.rows)
    ensures Total(StateEntries(docs + [d])) == Total(StateEntries(docs)).Plus(Total(RowEntries(d.stateCode, d.rows)))
  {
    assert (docs + [d])[..|docs|] == docs;
    TotalConcat(StateEntries(docs), RowEntries(d.stateCode, d.rows));
  }

  lemma {:induction false} RowHeads(code: string, rows: seq<SnapRow>)
    ensures var t := Total(RowEntries(code, rows));
      t.cgst + t.sgst + t.igst == Sum(HeadSums(rows))
  {
    if rows != [] {
      var n := |rows| - 1;
      RowHeads(code, rows[..n]);
      assert RowEntries(code, rows)[..n] == RowEntries(code, rows[..n]);
      assert HeadSums(rows)[..n] == HeadSums(rows[..n]);
    }
  }

  // ----- Period summary -----

  datatype Block = Block(count: int, taxableValue: int, cgst: int, sgst: int, igst: int, tax: int, total: int)

  function TotalAmounts(docs: seq<TaxDocument>): (s: seq<int>)
    ensures |s| == |docs|
  {
    seq(|docs|, i requires 0 <= i < |docs| => docs[i].totalAmount)
  }

  function TotalTaxes(docs: seq<TaxDocument>): (s: seq<int>)
    ensures |s| == |docs|
  {
    seq(|docs|, i requires 0 <= i < |docs| => docs[i].totalTax)
  }

  function BlockOf(docs: seq<TaxDocument>): Block {
    var heads := Total(StateEntries(docs));
    var total, tax := Sum(TotalAmounts(docs)), Sum(TotalTaxes(docs));
    Block(|docs|, total - tax, heads.cgst, heads.sgst, heads.igst, tax, total)
  }

  /** Running head totals of one document's rows. */
  method HeadsOf(code: string, rows: seq<SnapRow>) returns (cgst: int, sgst: int, igst: int)
    ensures var t := Total(RowEntries(code, rows)); cgst == t.cgst && sgst == t.sgst && igst == t.igst
  {
    cgst, sgst, igst := 0, 0, 0;
    ghost var entries := RowEntries(code, rows);
    for i := 0 to |rows|
      invariant var t := Total(entries[..i]); cgst == t.cgst && sgst == t.sgst && igst == t.igst
    {
      assert entries[..i + 1][..i] == entries[..i];
      cgst := cgst + rows[i].heads.cgst;
      sgst := sgst + rows[i].heads.sgst;
      igst := igst + rows[i].heads.igst;
    }
    assert entries[..|rows|] == entries;
  }

  function AddDocument(b: Block, d: TaxDocument, cgst: int, sgst: int, igst: int): Block {
    Block(b.count + 1, b.taxableValue + d.totalAmount - d.totalTax, b.cgst + cgst, b.sgst + sgst, b.igst + igst,
          b.tax + d.totalTax, b.total + d.totalAmount)
  }

  lemma BlockGrows(docs: seq<TaxDocument>, d: TaxDocument)
    ensures var t := Total(RowEntries(d.stateCode, d.rows));
      BlockOf(docs + [d]) == AddDocument(BlockOf(docs), d, t.cgst, t.sgst, t.igst)
  {
    OneMoreDocument(docs, d);
    SumsGrow(docs, d);
  }

  lemma SumsGrow(docs: seq<TaxDocument>, d: TaxDocument)
    ensures Sum(TotalAmounts(docs + [d])) == Sum(TotalAmounts(docs)) + d.totalAmount
    ensures Sum(TotalTaxes(docs + [d])) == Sum(TotalTaxes(docs)) + d.totalTax
  {
    assert TotalAmounts(docs + [d])[..|docs|] == TotalAmounts(docs);
    assert TotalTaxes(docs + [d])[..|docs|] == TotalTaxes(docs);
  }

  method SummarizeDocuments(docs: seq<TaxDocument>, start: int, end: int) returns (b: Block)
    ensures b == BlockOf(Window(docs, start, end))
  {
    b := Block(0, 0, 0, 0, 0, 0, 0);
    for i := 0 to |docs|
      invariant b == BlockOf(Window(docs[..i], start, end))
    {
      assert docs[..i + 1][..i] == docs[..i];
      if IssuedIn(docs[i], start, end) {
        BlockGrows(Window(docs[..i], start, end), docs[i]);
        var c, s, g := HeadsOf(docs[i].stateCode, docs[i].rows);
        b := AddDocument(b, docs[i], c, s, g);
      }
    }
    assert docs[..|docs|] == docs;
  }

  /** Invoices less credit notes; it has no count of its own. */
  function NetBlock(a: Block, b: Block): Block {
    Block(0, a.taxableValue - b.taxableValue, a.cgst - b.cgst, a.sgst - b.sgst, a.igst - b.igst,
          a.tax - b.tax, a.total - b.total)
  }

  method PeriodSummary(invoices: seq<TaxDocument>, notes: seq<TaxDocument>, start: int, end: int)
    returns (inv: Block, credit: Block, net: Block)
    ensures inv == BlockOf(Window(invoices, start, end))
    ensures credit == BlockOf(Window(notes, start, end))
    ensures net == NetBlock(inv, credit)
  {
    inv := SummarizeDocuments(invoices, start, end);
    credit := SummarizeDocuments(notes, start, end);
    net := NetBlock(inv, credit);
  }

  predicate AllReconciled(docs: seq<TaxDocument>) {
    forall i :: 0 <= i < |docs| ==> Reconciled(docs[i])
  }

  predicate HeadsMatchTax(b: Block) {
    b.cgst + b.sgst + b.igst == b.tax
  }

  lemma {:induction false} ReconciledBlock(docs: seq<TaxDocument>)
    requires AllReconciled(docs)
    ensures HeadsMatchTax(BlockOf(docs))
  {
    if docs != [] {
      var n := |docs| - 1;
      ReconciledBlock(docs[..n]);
      assert docs[..n] + [docs[n]] == docs;
      BlockGrows(docs[..n], docs[n]);
      RowHeads(docs[n].stateCode, docs[n].rows);
    }
  }

  lemma {:induction false} WindowReconciled(docs: seq<TaxDocument>, start: int, end: int)
    requires AllReconciled(docs)
    ensures AllReconciled(Window(docs, start, end))
  {
    if docs != [] {
      WindowReconciled(docs[..|docs| - 1], start, end);
    }
  }

  /** Over any window, CGST, SGST and IGST add up to the tax in the invoice, credit-note and net
      blocks of the period summary, for any reconciled documents. */
  lemma PeriodHeadsMatchTax(invoices: seq<TaxDocument>, notes: seq<TaxDocument>, start: int, end: int)
    requires AllReconciled(invoices) && AllReconciled(notes)
    ensures var inv, credit := BlockOf(Window(invoices, start, end)), BlockOf(Window(notes, start, end));
      HeadsMatchTax(inv) && HeadsMatchTax(credit) && HeadsMatchTax(NetBlock(inv, credit))
  {
    WindowReconciled(invoices, start, end);
    WindowReconciled(notes, start, end);
    ReconciledBlock(Window(invoices, start, end));
    ReconciledBlock(Window(notes, start, end));
  }

  // ----- State-wise summary -----

  datatype StateRow = StateRow(key: StateKey, gross: Tally, credit: Tally, net: Tally)

  /** States in order, and the slabs of a state by rate, the row without a rate first. */
  function StatePlace(key: StateKey): Place {
    Place(false, key.code, if key.rate.Some? then key.rate.value else -1)
  }

  function StateKeys(entries: seq<Entry<StateKey>>): seq<StateKey> {
    SortBy(FirstSeen(entries), StatePlace)
  }

  lemma StateKeysCover(entries: seq<Entry<StateKey>>)
    ensures Buckets.Distinct(StateKeys(entries)) && Sorted(StateKeys(entries), StatePlace)
    ensures forall k :: k in StateKeys(entries) <==> HasKey(entries, k)
    ensures forall e :: e in entries ==> e.key in StateKeys(entries)
  {
    FirstSeenCovers(entries);
    SortByIsSorting(FirstSeen(entries), StatePlace);
    SortedStaysDistinct(StateKeys(entries), FirstSeen(entries));
  }

  function StateRows(keys: seq<StateKey>, gross: seq<Entry<StateKey>>,
                     credit: seq<Entry<StateKey>>): (rows: seq<StateRow>)
    ensures |rows| == |keys|
  {
    seq(|keys|, i requires 0 <= i < |keys| => StateRowAt(keys[i], TotalAt(gross, keys[i]), TotalAt(credit, keys[i])))
  }

  function StateRowAt(key: StateKey, gross: Tally, credit: Tally): StateRow {
    StateRow(key, gross, credit, Net(gross, credit))
  }

  function Lookup<K(==)>(m: map<K, Tally>, k: K): Tally {
    if k in m then m[k] else ZERO
  }

  /** Gross, credited and net totals per place of supply and rate, by state and then rate. */
  method B2cByState(invoices: seq<TaxDocument>, notes: seq<TaxDocument>, start: int, end: int)
    returns (rows: seq<StateRow>)
    ensures var gross, credit := StateEntries(Window(invoices, start, end)), StateEntries(Window(notes, start, end));
      rows == StateRows(StateKeys(gross + credit), gross, credit)
  {
    var grossEntries := CollectEntries(invoices, start, end);
    var creditEntries := CollectEntries(notes, start, end);
    var gross, grossKeys := Fill(grossEntries);
    var credit, creditKeys := Fill(creditEntries);
    var all, seen := Fill(grossEntries + creditEntries);
    var keys := SortBy(seen, StatePlace);
    rows := ListStates(keys, gross, credit, grossEntries, creditEntries);
  }

  method ListStates(keys: seq<StateKey>, gross: map<StateKey, Tally>, credit: map<StateKey, Tally>,
                    ghost grossEntries: seq<Entry<StateKey>>, ghost creditEntries: seq<Entry<StateKey>>)
    returns (rows: seq<StateRow>)
    requires IsBucketing(gross, grossEntries) && IsBucketing(credit, creditEntries)
    ensures rows == StateRows(keys, grossEntries, creditEntries)
  {
    rows := [];
    for i := 0 to |keys|
      invariant rows == StateRows(keys, grossEntries, creditEntries)[..i]
    {
      if keys[i] !in gross {
        AbsentKey(grossEntries, keys[i]);
      }
      if keys[i] !in credit {
        AbsentKey(creditEntries, keys[i]);
      }
      rows := rows + [StateRowAt(keys[i], Lookup(gross, keys[i]), Lookup(credit, keys[i]))];
    }
  }

  method CollectEntries(docs: seq<TaxDocument>, start: int, end: int) returns (entries: seq<Entry<StateKey>>)
    ensures entries == StateEntries(Window(docs, start, end))
  {
    entries := [];
    for i := 0 to |docs|
      invariant entries == StateEntries(Window(docs[..i], start, end))
    {
      assert docs[..i + 1][..i] == docs[..i];
      if IssuedIn(docs[i], start, end) {
        OneMoreDocument(Window(docs[..i], start, end), docs[i]);
        entries := entries + RowEntries(docs[i].stateCode, docs[i].rows);
      }
    }
    assert docs[..|docs|] == docs;
  }

  function GrossTotal(rows: seq<StateRow>): Tally {
    if rows == [] then ZERO else GrossTotal(rows[..|rows| - 1]).Plus(rows[|rows| - 1].gross)
  }

  function CreditTotal(rows: seq<StateRow>): Tally {
    if rows == [] then ZERO else CreditTotal(rows[..|rows| - 1]).Plus(rows[|rows| - 1].credit)
  }

  lemma {:induction false} RowTotalsAreSums(keys: seq<StateKey>, gross: seq<Entry<StateKey>>,
                                            credit: seq<Entry<StateKey>>)
    ensures GrossTotal(StateRows(keys, gross, credit)) == SumOver(keys, gross)
    ensures CreditTotal(StateRows(keys, gross, credit)) == SumOver(keys, credit)
  {
    if keys != [] {
      var n := |keys| - 1;
      RowTotalsAreSums(keys[..n], gross, credit);
      assert StateRows(keys, gross, credit)[..n] == StateRows(keys[..n], gross, credit);
    }
  }

  /** The state-wise rows add up to the period summary's heads, gross and credited, whatever the documents. */
  lemma StateRowsMatchPeriod(invoices: seq<TaxDocument>, notes: seq<TaxDocument>)
    ensures var gross, credit := StateEntries(invoices), StateEntries(notes);
      var rows := StateRows(StateKeys(gross + credit), gross, credit);
      var g, c := GrossTotal(rows), CreditTotal(rows);
      var inv, cn := BlockOf(invoices), BlockOf(notes);
      && g.cgst == inv.cgst && g.sgst == inv.sgst && g.igst == inv.igst
      && c.cgst == cn.cgst && c.sgst == cn.sgst && c.igst == cn.igst
  {
    var gross, credit := StateEntries(invoices), StateEntries(notes);
    var keys := StateKeys(gross + credit);
    StateKeysCover(gross + credit);
    assert forall e :: e in gross ==> e in gross + credit;
    assert forall e :: e in credit ==> e in gross + credit;
    RowTotalsAreSums(keys, gross, credit);
    BucketsAddUp(keys, gross);
    BucketsAddUp(keys, credit);
  }

  lemma {:induction false} TotalAtConcat<K>(a: seq<Entry<K>>, b: seq<Entry<K>>, key: K)
    ensures TotalAt(a + b, key) == TotalAt(a, key).Plus(TotalAt(b, key))
  {
    if b == [] {
      assert a + b == a;
    } else {
      var n := |b| - 1;
      TotalAtConcat(a, b[..n], key);
      assert (a + b)[..|a| + n] == a + b[..n];
      PlusAssociative(TotalAt(a, key), TotalAt(b[..n], key), b[n].tally);
    }
  }

  function Net(g: Tally, c: Tally): Tally {
    Tally(g.units - c.units, g.value - c.value, g.tax - c.tax, g.cgst - c.cgst, g.sgst - c.sgst, g.igst - c.igst)
  }

  /** Documents with the same rows for the same state cancel in every bucket. */
  lemma MirrorCancels(invoices: seq<TaxDocument>, notes: seq<TaxDocument>, invoice: TaxDocument, note: TaxDocument,
                      key: StateKey)
    requires note.stateCode == invoice.stateCode && note.rows == invoice.rows
    ensures Net(TotalAt(StateEntries(invoices + [invoice]), key), TotalAt(StateEntries(notes + [note]), key))
         == Net(TotalAt(StateEntries(invoices), key), TotalAt(StateEntries(notes), key))
  {
    OneMoreDocument(invoices, invoice);
    OneMoreDocument(notes, note);
    var rows := RowEntries(invoice.stateCode, invoice.rows);
    TotalAtConcat(StateEntries(invoices), rows, key);
    TotalAtConcat(StateEntries(notes), rows, key);
  }

  /** Full reversal nets to zero: adding an order's invoice to the gross side and the note of its full
      refund to the credit side leaves every state-and-rate bucket's net as it was. */
  lemma FullRefundNetsToZero(cart: seq<CartLine>, coupon: Option<Coupon>, policy: Policy, code: string, seller: string,
                             at: int, later: int, invoices: seq<TaxDocument>, notes: seq<TaxDocument>, key: StateKey)
    requires PriceCart(cart, coupon, policy).total > 0 && PriceCart(cart, coupon, policy).TotalTax() > 0
    ensures var bill := PriceCart(cart, coupon, policy);
      var invoice := InvoiceFor(bill, policy.shippingRate, code, seller, at);
      var note := RefundNote(invoice, Breakdown(bill, policy.shippingRate), bill.total,
                             RefundTaxFor(bill, 0, bill.total), later);
      Net(TotalAt(StateEntries(invoices + [invoice]), key), TotalAt(StateEntries(notes + [note]), key))
        == Net(TotalAt(StateEntries(invoices), key), TotalAt(StateEntries(notes), key))
  {
    var invoice := InvoiceFor(PriceCart(cart, coupon, policy), policy.shippingRate, code, seller, at);
    FullRefundMirrorsInvoice(cart, coupon, policy, code, seller, at, later);
    MirrorCancels(invoices, notes, invoice, invoice.(issuedAt := later), key);
  }

  // ----- HSN summary -----

  const SHIPPING_SAC := "9968"

  datatype HsnKey = HsnKey(code: string, rate: int)

  function ComponentEntries(rows: seq<Component>): (s: seq<Entry<HsnKey>>)
    ensures |s| == |rows|
  {
    seq(|rows|, i requires 0 <= i < |rows| =>
      Entry(HsnKey(rows[i].hsn, rows[i].rate), Tally(rows[i].units, rows[i].amount, rows[i].tax, 0, 0, 0)))
  }

  /** A combo line contributes only its components; any other line contributes itself. */
  function ItemEntries(item: OrderItem): seq<Entry<HsnKey>> {
    if item.components != [] then ComponentEntries(item.components)
    else [Entry(HsnKey(item.hsn, item.rate), Tally(item.quantity, item.finalPrice, item.tax, 0, 0, 0))]
  }

  function EntriesOfItems(items: seq<OrderItem>): seq<Entry<HsnKey>> {
    if items == [] then [] else EntriesOfItems(items[..|items| - 1]) + ItemEntries(items[|items| - 1])
  }

  function GoodsEntries(bills: seq<Bill>): seq<Entry<HsnKey>> {
    if bills == [] then [] else GoodsEntries(bills[..|bills| - 1]) + EntriesOfItems(bills[|bills| - 1].items)
  }

  /** Fees, and the GST on them, of the orders that carried one. */
  function Fees(bills: seq<Bill>): (r: (int, int))
    ensures r.0 >= 0
  {
    if bills == [] then (0, 0)
    else
      var last, rest := bills[|bills| - 1], Fees(bills[..|bills| - 1]);
      if last.shippingCharge > 0 then (rest.0 + last.shippingCharge, rest.1 + last.shippingTax) else rest
  }

  function HsnEntries(bills: seq<Bill>, shippingRate: nat): seq<Entry<HsnKey>> {
    var fees := Fees(bills);
    GoodsEntries(bills) +
    if fees.0 > 0 then [Entry(HsnKey(SHIPPING_SAC, shippingRate), Tally(0, fees.0 + fees.1, fees.1, 0, 0, 0))] else []
  }

  method CollectGoods(bills: seq<Bill>) returns (entries: seq<Entry<HsnKey>>)
    ensures entries == GoodsEntries(bills)
  {
    entries := [];
    for i := 0 to |bills|
      invariant entries == GoodsEntries(bills[..i])
    {
      assert bills[..i + 1][..i] == bills[..i];
      var goods := CollectItems(bills[i].items);
      entries := entries + goods;
    }
    assert bills[..|bills|] == bills;
  }

  method CollectFees(bills: seq<Bill>) returns (fee: int, feeTax: int)
    ensures (fee, feeTax) == Fees(bills)
  {
    fee, feeTax := 0, 0;
    for i := 0 to |bills|
      invariant (fee, feeTax) == Fees(bills[..i])
    {
      assert bills[..i + 1][..i] == bills[..i];
      if bills[i].shippingCharge > 0 {
        fee := fee + bills[i].shippingCharge;
        feeTax := feeTax + bills[i].shippingTax;
      }
    }
    assert bills[..|bills|] == bills;
  }

  method CollectItems(items: seq<OrderItem>) returns (entries: seq<Entry<HsnKey>>)
    ensures entries == EntriesOfItems(items)
  {
    entries := [];
    for i := 0 to |items|
      invariant entries == EntriesOfItems(items[..i])
    {
      assert items[..i + 1][..i] == items[..i];
      entries := entries + ItemEntries(items[i]);
    }
    assert items[..|items|] == items;
  }

  datatype HsnRow = HsnRow(key: HsnKey, slab: Tally, taxable: int)

  function HsnRowAt(key: HsnKey, slab: Tally): HsnRow {
    HsnRow(key, slab, slab.value - slab.tax)
  }

  function HsnRows(keys: seq<HsnKey>, entries: seq<Entry<HsnKey>>): (rows: seq<HsnRow>)
    ensures |rows| == |keys|
  {
    seq(|keys|, i requires 0 <= i < |keys| => HsnRowAt(keys[i], TotalAt(entries, keys[i])))
  }

  method ListRows(keys: seq<HsnKey>, buckets: map<HsnKey, Tally>, ghost entries: seq<Entry<HsnKey>>)
    returns (rows: seq<HsnRow>, totals: Tally)
    requires IsBucketing(buckets, entries) && forall i :: 0 <= i < |keys| ==> HasKey(entries, keys[i])
    ensures rows == HsnRows(keys, entries) && totals == SumOver(keys, entries)
  {
    rows, totals := [], ZERO;
    for i := 0 to |keys|
      invariant rows == HsnRows(keys, entries)[..i]
      invariant totals == SumOver(keys[..i], entries)
    {
      assert keys[..i + 1][..i] == keys[..i];
      rows := rows + [HsnRowAt(keys[i], buckets[keys[i]])];
      totals := totals.Plus(buckets[keys[i]]);
    }
    assert keys[..|keys|] == keys;
  }

  /** Codes in order and their slabs by rate, what was never classified last. */
  function HsnPlace(key: HsnKey): Place {
    Place(key.code == "", key.code, key.rate)
  }

  function HsnKeys(entries: seq<Entry<HsnKey>>): seq<HsnKey> {
    SortBy(FirstSeen(entries), HsnPlace)
  }

  lemma HsnKeysCover(entries: seq<Entry<HsnKey>>)
    ensures Buckets.Distinct(HsnKeys(entries)) && Sorted(HsnKeys(entries), HsnPlace)
    ensures forall k :: k in HsnKeys(entries) <==> HasKey(entries, k)
    ensures forall e :: e in entries ==> e.key in HsnKeys(entries)
    ensures SumOver(HsnKeys(entries), entries) == Total(entries)
  {
    FirstSeenCovers(entries);
    SortByIsSorting(FirstSeen(entries), HsnPlace);
    SortedStaysDistinct(HsnKeys(entries), FirstSeen(entries));
    BucketsAddUp(HsnKeys(entries), entries);
  }

  /** An order and the day its invoice was issued. */
  datatype Billed = Billed(issuedAt: int, bill: Bill)

  function BillsIn(billed: seq<Billed>, start: int, end: int): seq<Bill> {
    if billed == [] then []
    else
      var n := |billed| - 1;
      BillsIn(billed[..n], start, end) + if start <= billed[n].issuedAt <= end then [billed[n].bill] else []
  }

  method SelectBills(billed: seq<Billed>, start: int, end: int) returns (bills: seq<Bill>)
    ensures bills == BillsIn(billed, start, end)
  {
    bills := [];
    for i := 0 to |billed|
      invariant bills == BillsIn(billed[..i], start, end)
    {
      assert billed[..i + 1][..i] == billed[..i];
      if start <= billed[i].issuedAt <= end {
        bills := bills + [billed[i].bill];
      }
    }
    assert billed[..|billed|] == billed;
  }

  /** Value on lines that carry no code. */
  function Unclassified(entries: seq<Entry<HsnKey>>): int {
    if entries == [] then 0
    else
      var last := entries[|entries| - 1];
      Unclassified(entries[..|entries| - 1]) + if last.key.code == "" then last.tally.value else 0
  }

  function UnclassifiedRows(keys: seq<HsnKey>, entries: seq<Entry<HsnKey>>): int {
    if keys == [] then 0
    else
      var last := keys[|keys| - 1];
      UnclassifiedRows(keys[..|keys| - 1], entries) + if last.code == "" then TotalAt(entries, last).value else 0
  }

  lemma {:induction false} UnclassifiedRowsOfNone(keys: seq<HsnKey>)
    ensures UnclassifiedRows(keys, []) == 0
  {
    if keys != [] {
      UnclassifiedRowsOfNone(keys[..|keys| - 1]);
    }
  }

  lemma {:induction false} UnclassifiedRowsGrow(keys: seq<HsnKey>, entries: seq<Entry<HsnKey>>, e: Entry<HsnKey>)
    requires Buckets.Distinct(keys)
    ensures UnclassifiedRows(keys, entries + [e])
         == UnclassifiedRows(keys, entries) + if e.key in keys && e.key.code == "" then e.tally.value else 0
  {
    assert (entries + [e])[..|entries|] == entries;
    if keys != [] {
      var n := |keys| - 1;
      UnclassifiedRowsGrow(keys[..n], entries, e);
      assert e.key in keys <==> e.key in keys[..n] || e.key == keys[n];
      if e.key == keys[n] {
        assert e.key !in keys[..n];
      }
    }
  }

  /** The unclassified rows carry the value of exactly the lines without a code. */
  lemma {:induction false} UnclassifiedAddsUp(keys: seq<HsnKey>, entries: seq<Entry<HsnKey>>)
    requires Buckets.Distinct(keys) && forall e :: e in entries ==> e.key in keys
    ensures UnclassifiedRows(keys, entries) == Unclassified(entries)
  {
    if entries == [] {
      UnclassifiedRowsOfNone(keys);
    } else {
      var n := |entries| - 1;
      UnclassifiedAddsUp(keys, entries[..n]);
      UnclassifiedRowsGrow(keys, entries[..n], entries[n]);
      assert entries == entries[..n] + [entries[n]];
      assert entries[n] in entries;
    }
  }

  method SumUnclassified(rows: seq<HsnRow>, ghost keys: seq<HsnKey>, ghost entries: seq<Entry<HsnKey>>)
    returns (value: int)
    requires rows == HsnRows(keys, entries)
    ensures value == UnclassifiedRows(keys, entries)
  {
    value := 0;
    for i := 0 to |rows|
      invariant value == UnclassifiedRows(keys[..i], entries)
    {
      assert keys[..i + 1][..i] == keys[..i];
      if rows[i].key.code == "" {
        value := value + rows[i].slab.value;
      }
    }
    assert keys[..|rows|] == keys;
  }

  method HsnEntriesOf(bills: seq<Bill>, shippingRate: nat) returns (entries: seq<Entry<HsnKey>>)
    ensures entries == HsnEntries(bills, shippingRate)
  {
    entries := CollectGoods(bills);
    var fee, feeTax := CollectFees(bills);
    if fee > 0 {
      entries := entries + [Entry(HsnKey(SHIPPING_SAC, shippingRate), Tally(0, fee + feeTax, feeTax, 0, 0, 0))];
    }
  }

  datatype HsnReport = HsnReport(
    rows: seq<HsnRow>,
    totals: Tally,
    orderCount: nat,
    unclassified: int,
    refundedAmount: int,
    refundedTax: int)

  /** HSN by rate rows of the orders invoiced in a window, sorted, with their totals, the value of what was
      never classified, and the credit notes of the window, reported but not netted off. */
  method HsnSummary(billed: seq<Billed>, notes: seq<TaxDocument>, start: int, end: int, shippingRate: nat)
    returns (r: HsnReport)
    ensures var bills := BillsIn(billed, start, end);
      var entries := HsnEntries(bills, shippingRate);
      var credit := BlockOf(Window(notes, start, end));
      && r.rows == HsnRows(HsnKeys(entries), entries) && r.totals == Total(entries)
      && r.orderCount == |bills| && r.unclassified == Unclassified(entries)
      && r.refundedAmount == credit.total && r.refundedTax == credit.tax
  {
    var bills := SelectBills(billed, start, end);
    var entries := HsnEntriesOf(bills, shippingRate);
    var buckets, seen := Fill(entries);
    var keys := SortBy(seen, HsnPlace);
    HsnKeysCover(entries);
    forall i | 0 <= i < |keys| ensures HasKey(entries, keys[i]) {
      assert keys[i] in keys;
    }
    var rows, totals := ListRows(keys, buckets, entries);
    var unclassified := SumUnclassified(rows, keys, entries);
    UnclassifiedAddsUp(keys, entries);
    var credit := SummarizeDocuments(notes, start, end);
    r := HsnReport(rows, totals, |bills|, unclassified, credit.total, credit.tax);
  }

  // ----- The HSN summary against the invoices -----

  /** An order as checkout writes it: lines, combo splits, header and delivery all agree. */
  predicate WellWritten(bill: Bill, shippingRate: nat) {
    && TaxConsistent(bill, shippingRate)
    && (forall i :: 0 <= i < |bill.items| ==>
          (bill.items[i].components != [] ==> Sum(Amounts(bill.items[i].components)) == bill.items[i].finalPrice))
  }

  lemma PlacedOrderWellWritten(cart: seq<CartLine>, coupon: Option<Coupon>, policy: Policy)
    ensures WellWritten(PriceCart(cart, coupon, policy), policy.shippingRate)
  {
    PlacedOrderReconciles(cart, coupon, policy);
    var items := PriceCart(cart, coupon, policy).items;
    forall i | 0 <= i < |items| && items[i].components != []
      ensures Sum(Amounts(items[i].components)) == items[i].finalPrice
    {
      ComboSplitIsExact(cart[i].recipe, items[i].finalPrice, cart[i].quantity);
    }
  }

  lemma {:induction false} ComponentTotals(rows: seq<Component>)
    ensures Total(ComponentEntries(rows)).tax == Sum(ComponentTaxes(rows))
    ensures Total(ComponentEntries(rows)).value == Sum(Amounts(rows))
  {
    if rows != [] {
      var n := |rows| - 1;
      ComponentTotals(rows[..n]);
      assert ComponentEntries(rows)[..n] == ComponentEntries(rows[..n]);
      assert ComponentTaxes(rows)[..n] == ComponentTaxes(rows[..n]);
      assert Amounts(rows)[..n] == Amounts(rows[..n]);
    }
  }

  lemma ItemTotals(item: OrderItem)
    requires ItemTaxed(item)
    requires item.components != [] ==> Sum(Amounts(item.components)) == item.finalPrice
    ensures Total(ItemEntries(item)).tax == item.tax
    ensures Total(ItemEntries(item)).value == item.finalPrice
  {
    if item.components != [] {
      ComponentTotals(item.components);
    } else {
      var e := Entry(HsnKey(item.hsn, item.rate), Tally(item.quantity, item.finalPrice, item.tax, 0, 0, 0));
      OneEntry(e);
    }
  }

  lemma OneMoreItemSums(items: seq<OrderItem>)
    requires items != []
    ensures var n := |items| - 1;
      && Sum(ItemTaxes(items)) == Sum(ItemTaxes(items[..n])) + items[n].tax
      && Sum(Finals(items)) == Sum(Finals(items[..n])) + items[n].finalPrice
  {
    var n := |items| - 1;
    assert ItemTaxes(items)[..n] == ItemTaxes(items[..n]);
    assert Finals(items)[..n] == Finals(items[..n]);
  }

  lemma {:induction false} ItemsTotals(items: seq<OrderItem>)
    requires forall i :: 0 <= i < |items| ==> ItemTaxed(items[i])
    requires forall i :: 0 <= i < |items| ==>
      (items[i].components != [] ==> Sum(Amounts(items[i].components)) == items[i].finalPrice)
    ensures Total(EntriesOfItems(items)).tax == Sum(ItemTaxes(items))
    ensures Total(EntriesOfItems(items)).value == Sum(Finals(items))
  {
    if items != [] {
      var n := |items| - 1;
      ItemsTotals(items[..n]);
      ItemTotals(items[n]);
      TotalConcat(EntriesOfItems(items[..n]), ItemEntries(items[n]));
      OneMoreItemSums(items);
    }
  }

  function BillTaxes(bills: seq<Bill>): (s: seq<int>)
    ensures |s| == |bills|
  {
    seq(|bills|, i requires 0 <= i < |bills| => bills[i].TotalTax())
  }

  /** What the customers were charged: the lines, the delivery fees and the GST on them. */
  function BillValues(bills: seq<Bill>): (s: seq<int>)
    ensures |s| == |bills|
  {
    seq(|bills|, i requires 0 <= i < |bills| => Sum(Finals(bills[i].items)) + bills[i].shippingCharge
      + bills[i].shippingTax)
  }

  predicate AllWellWritten(bills: seq<Bill>, shippingRate: nat) {
    forall i :: 0 <= i < |bills| ==> WellWritten(bills[i], shippingRate) && bills[i].shippingCharge >= 0
  }

  lemma BillGoods(bill: Bill, shippingRate: nat)
    requires WellWritten(bill, shippingRate)
    ensures Total(EntriesOfItems(bill.items)).tax == bill.tax
    ensures Total(EntriesOfItems(bill.items)).value == Sum(Finals(bill.items))
    ensures bill.shippingCharge <= 0 ==> bill.shippingTax == 0
  {
    ItemsTotals(bill.items);
  }

  lemma GoodsGrow(bills: seq<Bill>, bill: Bill)
    ensures Total(GoodsEntries(bills + [bill])) == Total(GoodsEntries(bills)).Plus(Total(EntriesOfItems(bill.items)))
    ensures Sum(BillTaxes(bills + [bill])) == Sum(BillTaxes(bills)) + bill.TotalTax()
    ensures Sum(BillValues(bills + [bill]))
         == Sum(BillValues(bills)) + Sum(Finals(bill.items)) + bill.shippingCharge + bill.shippingTax
  {
    var n, grown := |bills|, bills + [bill];
    assert grown[..n] == bills;
    assert BillTaxes(grown)[..n] == BillTaxes(bills);
    assert BillValues(grown)[..n] == BillValues(bills);
    TotalConcat(GoodsEntries(bills), EntriesOfItems(bill.items));
  }

  lemma OneMoreBill(bills: seq<Bill>, bill: Bill, shippingRate: nat)
    requires WellWritten(bill, shippingRate) && bill.shippingCharge >= 0
    ensures var more := bills + [bill];
      && Total(GoodsEntries(more)).tax == Total(GoodsEntries(bills)).tax + bill.tax
      && Sum(BillTaxes(more)) == Sum(BillTaxes(bills)) + bill.TotalTax()
      && Total(GoodsEntries(more)).value - Total(GoodsEntries(bills)).value
         == Sum(BillValues(more)) - Sum(BillValues(bills)) - bill.shippingCharge - bill.shippingTax
      && (bill.shippingCharge <= 0 ==> bill.shippingTax == 0)
  {
    GoodsGrow(bills, bill);
    BillGoods(bill, shippingRate);
  }

  lemma {:induction false} GoodsAndFees(bills: seq<Bill>, shippingRate: nat)
    requires AllWellWritten(bills, shippingRate)
    ensures Total(GoodsEntries(bills)).tax + Fees(bills).1 == Sum(BillTaxes(bills))
    ensures Total(GoodsEntries(bills)).value + Fees(bills).0 + Fees(bills).1 == Sum(BillValues(bills))
    ensures Fees(bills).0 == 0 ==> Fees(bills).1 == 0
  {
    if bills != [] {
      var n := |bills| - 1;
      GoodsAndFees(bills[..n], shippingRate);
      assert bills[..n] + [bills[n]] == bills;
      OneMoreBill(bills[..n], bills[n], shippingRate);
    }
  }

  /** The HSN summary of any set of orders checkout wrote carries all their GST and all their money:
      combo components neither double-count nor lose a paisa. */
  lemma HsnTotals(bills: seq<Bill>, shippingRate: nat)
    requires AllWellWritten(bills, shippingRate)
    ensures Total(HsnEntries(bills, shippingRate)).tax == Sum(BillTaxes(bills))
    ensures Total(HsnEntries(bills, shippingRate)).value == Sum(BillValues(bills))
  {
    GoodsAndFees(bills, shippingRate);
    var fees := Fees(bills);
    DeliveryTotals(GoodsEntries(bills), HsnKey(SHIPPING_SAC, shippingRate), fees.0, fees.1);
  }

  lemma DeliveryTotals(goods: seq<Entry<HsnKey>>, key: HsnKey, fee: int, feeTax: int)
    requires fee == 0 ==> feeTax == 0
    requires fee >= 0
    ensures var delivery := Entry(key, Tally(0, fee + feeTax, feeTax, 0, 0, 0));
      var all := Total(goods + if fee > 0 then [delivery] else []);
      all.tax == Total(goods).tax + feeTax && all.value == Total(goods).value + fee + feeTax
  {
    WithDelivery(goods, Entry(key, Tally(0, fee + feeTax, feeTax, 0, 0, 0)), fee > 0);
  }

  lemma WithDelivery(goods: seq<Entry<HsnKey>>, delivery: Entry<HsnKey>, carried: bool)
    ensures Total(goods + if carried then [delivery] else [])
         == if carried then Total(goods).Plus(delivery.tally) else Total(goods)
  {
    if carried {
      TotalConcat(goods, [delivery]);
      OneEntry(delivery);
    } else {
      assert goods + [] == goods;
    }
  }

  /** The HSN summary's tax is the tax of the invoice block for the same orders. */
  lemma HsnMatchesInvoices(bills: seq<Bill>, invoices: seq<TaxDocument>, shippingRate: nat)
    requires AllWellWritten(bills, shippingRate)
    requires |invoices| == |bills|
    requires forall i :: 0 <= i < |bills| ==> invoices[i].totalTax == bills[i].TotalTax()
    ensures Total(HsnEntries(bills, shippingRate)).tax == BlockOf(invoices).tax
  {
    HsnTotals(bills, shippingRate);
    assert BillTaxes(bills) == TotalTaxes(invoices);
  }
}
