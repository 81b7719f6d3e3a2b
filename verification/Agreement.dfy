/** The reports taken together, for orders as checkout writes them and documents as they are issued. */
module Agreement {
  import opened Money
  import opened Orders
  import opened Buckets
  import opened Pricing
  import opened TaxBreakdown
  import opened Checkout
  import opened Coupons
  import opened Documents
  import opened Reports

  // ----- Cancellation in the state-wise summary -----

  predicate DistinctRates(rows: seq<Row>) {
    forall i, j :: 0 <= i < j < |rows| ==> rows[i].rate != rows[j].rate
  }

  lemma PlacedRatesDistinct(cart: seq<CartLine>, coupon: Option<Coupon>, policy: Policy)
    ensures DistinctRates(Breakdown(PriceCart(cart, coupon, policy), policy.shippingRate))
  {
    PlacedOrderReconciles(cart, coupon, policy);
    KeysCover(SlabEntries(AllLines(PriceCart(cart, coupon, policy), policy.shippingRate)));
  }

  function Value(rows: seq<Row>, i: nat): int
    requires i < |rows|
  {
    if rows[i].taxable.Some? then rows[i].taxable.value else 0
  }

  /** With distinct keys, an entry's value is its bucket's. */
  lemma {:induction false} BucketOfEntry(entries: seq<Entry<StateKey>>, i: nat)
    requires i < |entries| && forall j, k :: 0 <= j < k < |entries| ==> entries[j].key != entries[k].key
    ensures TotalAt(entries, entries[i].key).value == entries[i].tally.value
  {
    var n := |entries| - 1;
    if i < n {
      BucketOfEntry(entries[..n], i);
    } else {
      assert !HasKey(entries[..n], entries[n].key);
      AbsentKey(entries[..n], entries[n].key);
    }
  }

  lemma {:induction false} NoValueInBucket(entries: seq<Entry<StateKey>>, key: StateKey)
    requires forall j :: 0 <= j < |entries| ==> entries[j].tally.value == 0
    ensures TotalAt(entries, key).value == 0
  {
    if entries != [] {
      NoValueInBucket(entries[..|entries| - 1], key);
    }
  }

  lemma OneMoreInBucket(docs: seq<TaxDocument>, d: TaxDocument, key: StateKey)
    ensures TotalAt(StateEntries(docs + [d]), key).value
         == TotalAt(StateEntries(docs), key).value + TotalAt(RowEntries(d.stateCode, d.rows), key).value
  {
    OneMoreDocument(docs, d);
    TotalAtConcat(StateEntries(docs), RowEntries(d.stateCode, d.rows), key);
  }

  /** A bucket's net is what it was before the invoice and the note. */
  predicate BucketSame(invoices: seq<TaxDocument>, notes: seq<TaxDocument>, invoice: TaxDocument, note: TaxDocument,
                       key: StateKey) {
    Net(TotalAt(StateEntries(invoices + [invoice]), key), TotalAt(StateEntries(notes + [note]), key))
    == Net(TotalAt(StateEntries(invoices), key), TotalAt(StateEntries(notes), key))
  }

  ghost predicate NetsOut(invoices: seq<TaxDocument>, notes: seq<TaxDocument>, invoice: TaxDocument,
                          note: TaxDocument) {
    forall key: StateKey :: BucketSame(invoices, notes, invoice, note, key)
  }

  lemma ValueMovesNet(g: Tally, c: Tally, g2: Tally, c2: Tally)
    requires g2.value - g.value != c2.value - c.value
    ensures Net(g2, c2) != Net(g, c)
  {
  }

  lemma EntryShape(code: string, rows: seq<Row>, interstate: bool, i: nat)
    requires i < |rows|
    ensures var e := RowEntries(code, SnapshotRows(rows, interstate))[i];
      e.key == StateKey(code, rows[i].rate) && e.tally.value == Value(rows, i)
  {
  }

  /** Entries that carry the rates and slab values of some rows. */
  predicate Carries(entries: seq<Entry<StateKey>>, code: string, rows: seq<Row>) {
    && |entries| == |rows|
    && forall i :: 0 <= i < |rows| ==>
      entries[i].key == StateKey(code, rows[i].rate) && entries[i].tally.value == Value(rows, i)
  }

  lemma RowsCarry(code: string, rows: seq<Row>, interstate: bool)
    ensures Carries(RowEntries(code, SnapshotRows(rows, interstate)), code, rows)
  {
    forall i | 0 <= i < |rows|
      ensures RowEntries(code, SnapshotRows(rows, interstate))[i].key == StateKey(code, rows[i].rate)
      ensures RowEntries(code, SnapshotRows(rows, interstate))[i].tally.value == Value(rows, i)
    {
      EntryShape(code, rows, interstate, i);
    }
  }

  lemma InvoiceBucket(entries: seq<Entry<StateKey>>, code: string, rows: seq<Row>, i: nat)
    requires Carries(entries, code, rows) && DistinctRates(rows) && i < |rows|
    ensures TotalAt(entries, StateKey(code, rows[i].rate)).value == Value(rows, i)
  {
    BucketOfEntry(entries, i);
  }

  lemma ZeroedBucket(entries: seq<Entry<StateKey>>, code: string, rows: seq<Row>, key: StateKey)
    requires Carries(entries, code, ZeroedRows(rows))
    ensures TotalAt(entries, key).value == 0
  {
    NoValueInBucket(entries, key);
  }

  lemma UnequalBuckets(invoices: seq<TaxDocument>, notes: seq<TaxDocument>, invoice: TaxDocument, note: TaxDocument,
                       key: StateKey)
    requires TotalAt(RowEntries(invoice.stateCode, invoice.rows), key).value
          != TotalAt(RowEntries(note.stateCode, note.rows), key).value
    ensures !NetsOut(invoices, notes, invoice, note)
  {
    OneMoreInBucket(invoices, invoice, key);
    OneMoreInBucket(notes, note, key);
    ValueMovesNet(TotalAt(StateEntries(invoices), key), TotalAt(StateEntries(notes), key),
                  TotalAt(StateEntries(invoices + [invoice]), key), TotalAt(StateEntries(notes + [note]), key));
    assert !BucketSame(invoices, notes, invoice, note, key);
  }

  lemma ExemptCancellationStays(invoices: seq<TaxDocument>, notes: seq<TaxDocument>, invoice: TaxDocument,
                                note: TaxDocument, rows: seq<Row>, i: nat)
    requires DistinctRates(rows) && i < |rows| && Value(rows, i) != 0 && note.stateCode == invoice.stateCode
    requires invoice.rows == SnapshotRows(rows, invoice.interstate)
    requires note.rows == SnapshotRows(ZeroedRows(rows), note.interstate)
    ensures !NetsOut(invoices, notes, invoice, note)
  {
    var code := invoice.stateCode;
    var key := StateKey(code, rows[i].rate);
    RowsCarry(code, rows, invoice.interstate);
    RowsCarry(code, ZeroedRows(rows), note.interstate);
    InvoiceBucket(RowEntries(code, invoice.rows), code, rows, i);
    ZeroedBucket(RowEntries(code, note.rows), code, rows, key);
    UnequalBuckets(invoices, notes, invoice, note, key);
  }

  lemma MirrorNetsOut(invoices: seq<TaxDocument>, notes: seq<TaxDocument>, invoice: TaxDocument, note: TaxDocument)
    requires note.stateCode == invoice.stateCode && note.rows == invoice.rows
    ensures NetsOut(invoices, notes, invoice, note)
  {
    forall key: StateKey ensures BucketSame(invoices, notes, invoice, note, key) {
      MirrorCancels(invoices, notes, invoice, note, key);
    }
  }

  lemma MirroringNote(invoice: TaxDocument, note: TaxDocument, rows: seq<Row>)
    requires NonNegativeRows(rows) && invoice.rows == SnapshotRows(rows, invoice.interstate)
    requires invoice.totalTax == Sum(Taxes(rows)) >= 0
    requires note == CancellationNote(invoice, rows, note.totalAmount, invoice.totalTax, note.issuedAt)
    requires invoice.totalTax > 0 || NoSlabValue(rows)
    ensures note.rows == invoice.rows && note.stateCode == invoice.stateCode
  {
    CancellationMirrorsExactly(rows, invoice.totalTax);
  }

  lemma ExemptNoteStays(invoices: seq<TaxDocument>, notes: seq<TaxDocument>, invoice: TaxDocument, note: TaxDocument,
                        rows: seq<Row>)
    requires DistinctRates(rows) && invoice.rows == SnapshotRows(rows, invoice.interstate) && invoice.totalTax == 0
    requires note == CancellationNote(invoice, rows, note.totalAmount, 0, note.issuedAt) && !NoSlabValue(rows)
    ensures !NetsOut(invoices, notes, invoice, note)
  {
    ExemptCancellation(rows);
    var i :| 0 <= i < |rows| && !(rows[i].taxable.None? || rows[i].taxable.value == 0);
    ExemptCancellationStays(invoices, notes, invoice, note, rows, i);
  }

  /** The same for any invoice whose rows have distinct rates and sum to its GST. */
  lemma WholeCancellationNetsOut(invoices: seq<TaxDocument>, notes: seq<TaxDocument>, invoice: TaxDocument,
                                 note: TaxDocument, rows: seq<Row>)
    requires DistinctRates(rows) && NonNegativeRows(rows) && invoice.rows == SnapshotRows(rows, invoice.interstate)
    requires invoice.totalTax == Sum(Taxes(rows)) >= 0
    requires note == CancellationNote(invoice, rows, note.totalAmount, invoice.totalTax, note.issuedAt)
    ensures NetsOut(invoices, notes, invoice, note) <==> invoice.totalTax > 0 || NoSlabValue(rows)
  {
    if invoice.totalTax > 0 || NoSlabValue(rows) {
      MirroringNote(invoice, note, rows);
      MirrorNetsOut(invoices, notes, invoice, note);
    } else {
      ExemptNoteStays(invoices, notes, invoice, note, rows);
    }
  }

  /** Cancelling an order as checkout wrote it, with nothing credited before, leaves every state-and-rate
      bucket's net as it was exactly when the order was charged GST or had no slab value. */
  lemma CancellationNetsOutExactly(cart: seq<CartLine>, coupon: Option<Coupon>, policy: Policy, code: string,
                                   seller: string, at: int, later: int, invoices: seq<TaxDocument>,
                                   notes: seq<TaxDocument>)
    ensures var bill := PriceCart(cart, coupon, policy);
      var rows := Breakdown(bill, policy.shippingRate);
      var invoice := InvoiceFor(bill, policy.shippingRate, code, seller, at);
      bill.TotalTax() >= 0
      && (NetsOut(invoices, notes, invoice, CancellationNote(invoice, rows, bill.total, bill.TotalTax(), later))
          <==> bill.TotalTax() > 0 || NoSlabValue(rows))
  {
    var bill := PriceCart(cart, coupon, policy);
    PlacedOrderShape(cart, coupon, policy);
    PlacedOrderReconciles(cart, coupon, policy);
    PlacedRatesDistinct(cart, coupon, policy);
    BreakdownTotal(bill, policy.shippingRate);
    var rows, invoice := Breakdown(bill, policy.shippingRate), InvoiceFor(bill, policy.shippingRate, code, seller, at);
    WholeCancellationNetsOut(invoices, notes, invoice,
                             CancellationNote(invoice, rows, bill.total, bill.TotalTax(), later), rows);
  }

  lemma OneRowValue(line: TaxLine)
    ensures SlabRows([line]) == [SlabRow(line.rate, SlabEntry(line).tally)]
  {
    var entries := SlabEntries([line]);
    assert entries == [SlabEntry(line)] && entries[..0] == [];
    assert SortedKeys(entries[..0]) == [] && InsertKey([], line.rate) == [line.rate];
    assert SortedKeys(entries) == [line.rate];
    assert TotalAt(entries, line.rate) == ZERO.Plus(SlabEntry(line).tally);
  }

  /** A bill of one exempt line has one slab, and its value is in it. */
  lemma ExemptSlab(bill: Bill, line: CartLine, rate: nat)
    requires line.ProductLine? && line.rate == 0 && line.Total() > 0
    requires bill.items == PriceLines([line], line.Total(), 0, false) && bill.shippingTax == 0
    requires Breakdown(bill, rate) == SlabRows(AllLines(bill, rate))
    ensures !NoSlabValue(Breakdown(bill, rate)) && Sum(ItemTaxes(bill.items)) == 0
  {
    UndiscountedLine(line, line.Total());
    assert bill.items == [PriceLine(line, line.Total(), 0, false)] && bill.items[..0] == [];
    assert LinesOf(bill.items[..0]) == [];
    assert LinesOf(bill.items) == [TaxLine(line.Total(), 0)];
    assert AllLines(bill, rate) == [TaxLine(line.Total(), 0)];
    OneRowValue(TaxLine(line.Total(), 0));
    assert Breakdown(bill, rate)[0].taxable == Some(line.Total());
    assert ItemTaxes(bill.items) == [0] && [0][..0] == [];
  }

  /** Such orders exist: any one exempt product, shipped free. */
  lemma ExemptOrder(line: CartLine, policy: Policy)
    requires line.ProductLine? && line.rate == 0 && line.Total() > 0 && policy.freeShippingThreshold <= line.Total()
    ensures var bill := PriceCart([line], None, policy);
      bill.total == line.Total() && bill.TotalTax() == 0 && !NoSlabValue(Breakdown(bill, policy.shippingRate))
  {
    var bill := PriceCart([line], None, policy);
    OneLineTotal(line);
    PlacedOrderReconciles([line], None, policy);
    ExemptSlab(bill, line, policy.shippingRate);
  }

  lemma OneLineTotal(line: CartLine)
    ensures Subtotal([line]) == line.Total()
  {
    var s := LineTotals([line]);
    assert |s| == 1 && s[..0] == [] && s[0] == line.Total();
    assert Sum(s) == Sum(s[..0]) + s[0];
  }

  // ----- Refunding an order without GST -----

  /** The value rows report at one rate. */
  function ValueAt(rows: seq<Row>, rate: Option<int>): int {
    if rows == [] then 0
    else
      var n := |rows| - 1;
      ValueAt(rows[..n], rate) + if rows[n].rate == rate then Value(rows, n) else 0
  }

  predicate Untaxed(rows: seq<Row>) {
    forall i :: 0 <= i < |rows| ==> rows[i].tax == 0
  }

  lemma {:induction false} NothingAt(rows: seq<Row>, rate: Option<int>)
    requires forall i :: 0 <= i < |rows| ==> rows[i].rate != rate
    ensures ValueAt(rows, rate) == 0
  {
    if rows != [] {
      NothingAt(rows[..|rows| - 1], rate);
    }
  }

  lemma NoHeads(interstate: bool)
    ensures SplitTax(0, interstate) == Heads(0, 0, 0)
  {
  }

  lemma EntryOf(code: string, rows: seq<SnapRow>, i: nat, value: int)
    requires i < |rows| && rows[i].heads == Heads(0, 0, 0)
    requires value == if rows[i].taxable.Some? then rows[i].taxable.value else 0
    ensures RowEntries(code, rows)[i] == Entry(StateKey(code, rows[i].rate), Tally(0, value, 0, 0, 0, 0))
  {
  }

  /** Entries that carry value and nothing else. */
  predicate CarriesValue(entries: seq<Entry<StateKey>>, code: string, rows: seq<Row>) {
    && |entries| == |rows|
    && forall i :: 0 <= i < |rows| ==>
      entries[i] == Entry(StateKey(code, rows[i].rate), Tally(0, Value(rows, i), 0, 0, 0, 0))
  }

  lemma UntaxedCarry(code: string, rows: seq<Row>, interstate: bool)
    requires Untaxed(rows)
    ensures CarriesValue(RowEntries(code, SnapshotRows(rows, interstate)), code, rows)
  {
    var snaps := SnapshotRows(rows, interstate);
    NoHeads(interstate);
    forall i | 0 <= i < |rows|
      ensures RowEntries(code, snaps)[i] == Entry(StateKey(code, rows[i].rate), Tally(0, Value(rows, i), 0, 0, 0, 0))
    {
      assert snaps[i] == SnapRow(rows[i].rate, rows[i].taxable, 0, Heads(0, 0, 0));
      EntryOf(code, snaps, i, Value(rows, i));
    }
  }

  /** Untaxed rows fill their buckets with value and nothing else. */
  lemma {:induction false} UntaxedBucket(entries: seq<Entry<StateKey>>, code: string, rows: seq<Row>, key: StateKey)
    requires CarriesValue(entries, code, rows)
    ensures TotalAt(entries, key) == Tally(0, if key.code == code then ValueAt(rows, key.rate) else 0, 0, 0, 0, 0)
  {
    if rows != [] {
      var n := |rows| - 1;
      assert forall i :: 0 <= i < n ==> Value(rows[..n], i) == Value(rows, i);
      UntaxedBucket(entries[..n], code, rows[..n], key);
    }
  }

  lemma NetMoves(g: Tally, c: Tally, a: Tally, b: Tally)
    ensures Net(g.Plus(a), c.Plus(b)) == Net(g, c) <==> a == b
  {
  }

  lemma BucketNetsOut(invoices: seq<TaxDocument>, notes: seq<TaxDocument>, invoice: TaxDocument, note: TaxDocument,
                      key: StateKey)
    ensures var owed := TotalAt(RowEntries(invoice.stateCode, invoice.rows), key);
            var credited := TotalAt(RowEntries(note.stateCode, note.rows), key);
            BucketSame(invoices, notes, invoice, note, key) <==> owed == credited
  {
    OneMoreDocument(invoices, invoice);
    OneMoreDocument(notes, note);
    TotalAtConcat(StateEntries(invoices), RowEntries(invoice.stateCode, invoice.rows), key);
    TotalAtConcat(StateEntries(notes), RowEntries(note.stateCode, note.rows), key);
    NetMoves(TotalAt(StateEntries(invoices), key), TotalAt(StateEntries(notes), key),
             TotalAt(RowEntries(invoice.stateCode, invoice.rows), key),
             TotalAt(RowEntries(note.stateCode, note.rows), key));
  }

  lemma UntaxedBucketNetsOut(invoices: seq<TaxDocument>, notes: seq<TaxDocument>, invoice: TaxDocument,
                             note: TaxDocument, a: seq<Row>, b: seq<Row>, key: StateKey)
    requires note.stateCode == invoice.stateCode
    requires CarriesValue(RowEntries(invoice.stateCode, invoice.rows), invoice.stateCode, a)
    requires CarriesValue(RowEntries(note.stateCode, note.rows), note.stateCode, b)
    ensures BucketSame(invoices, notes, invoice, note, key)
       <==> key.code != invoice.stateCode || ValueAt(a, key.rate) == ValueAt(b, key.rate)
  {
    BucketNetsOut(invoices, notes, invoice, note, key);
    UntaxedBucket(RowEntries(invoice.stateCode, invoice.rows), invoice.stateCode, a, key);
    UntaxedBucket(RowEntries(note.stateCode, note.rows), note.stateCode, b, key);
  }

  /** Two untaxed documents for the same state cancel exactly when they report the same value at every rate. */
  lemma UntaxedNetsOut(invoices: seq<TaxDocument>, notes: seq<TaxDocument>, invoice: TaxDocument, note: TaxDocument,
                       a: seq<Row>, b: seq<Row>)
    requires note.stateCode == invoice.stateCode
    requires CarriesValue(RowEntries(invoice.stateCode, invoice.rows), invoice.stateCode, a)
    requires CarriesValue(RowEntries(note.stateCode, note.rows), note.stateCode, b)
    ensures NetsOut(invoices, notes, invoice, note) <==> SameValueEverywhere(a, b)
  {
    forall key: StateKey
      ensures BucketSame(invoices, notes, invoice, note, key)
         <==> key.code != invoice.stateCode || ValueAt(a, key.rate) == ValueAt(b, key.rate)
    {
      UntaxedBucketNetsOut(invoices, notes, invoice, note, a, b, key);
    }
    if NetsOut(invoices, notes, invoice, note) {
      forall rate: Option<int> ensures ValueAt(a, rate) == ValueAt(b, rate) {
        assert BucketSame(invoices, notes, invoice, note, StateKey(invoice.stateCode, rate));
      }
    }
  }

  ghost predicate SameValueEverywhere(a: seq<Row>, b: seq<Row>) {
    forall rate: Option<int> :: ValueAt(a, rate) == ValueAt(b, rate)
  }

  /** The whole amount is reported at 0%, and nothing at any other rate. */
  predicate AllAtZero(rows: seq<Row>, amount: int) {
    && ValueAt(rows, Some(0)) == amount
    && forall i :: 0 <= i < |rows| ==> rows[i].rate == Some(0) || ValueAt(rows, rows[i].rate) == 0
  }

  lemma SameValues(rows: seq<Row>, amount: int)
    ensures SameValueEverywhere(rows, [Row(Some(0), Some(amount), 0)]) <==> AllAtZero(rows, amount)
  {
    var whole := [Row(Some(0), Some(amount), 0)];
    forall rate: Option<int> ensures ValueAt(whole, rate) == if rate == Some(0) then amount else 0 {
      assert whole[..0] == [] && Value(whole, 0) == amount;
    }
    if SameValueEverywhere(rows, whole) {
      assert ValueAt(rows, Some(0)) == ValueAt(whole, Some(0));
    }
    if AllAtZero(rows, amount) {
      forall rate: Option<int> ensures ValueAt(rows, rate) == ValueAt(whole, rate) {
        if rate != Some(0) && forall i :: 0 <= i < |rows| ==> rows[i].rate != rate {
          NothingAt(rows, rate);
        }
      }
    }
  }

  /** Refunding whole an order that checkout wrote without GST leaves every bucket's net as it was exactly when
      the invoice reported the order's whole total at 0% and nothing at another rate. */
  lemma ExemptRefundNetsOutExactly(cart: seq<CartLine>, coupon: Option<Coupon>, policy: Policy, code: string,
                                   seller: string, at: int, later: int, invoices: seq<TaxDocument>,
                                   notes: seq<TaxDocument>)
    requires PriceCart(cart, coupon, policy).total > 0 && PriceCart(cart, coupon, policy).TotalTax() == 0
    ensures var bill := PriceCart(cart, coupon, policy);
      var rows := Breakdown(bill, policy.shippingRate);
      var invoice := InvoiceFor(bill, policy.shippingRate, code, seller, at);
      var note := RefundNote(invoice, rows, bill.total, RefundTaxFor(bill, 0, bill.total), later);
      NetsOut(invoices, notes, invoice, note) <==> AllAtZero(rows, bill.total)
  {
    var bill := PriceCart(cart, coupon, policy);
    var rows := Breakdown(bill, policy.shippingRate);
    var invoice := InvoiceFor(bill, policy.shippingRate, code, seller, at);
    FullRefundOfPlacedOrder(cart, coupon, policy);
    PlacedOrderReconciles(cart, coupon, policy);
    BreakdownTotal(bill, policy.shippingRate);
    NothingTaxed(rows);
    var note, whole := RefundNote(invoice, rows, bill.total, 0, later), [Row(Some(0), Some(bill.total), 0)];
    UntaxedCarry(invoice.stateCode, rows, invoice.interstate);
    UntaxedCarry(note.stateCode, whole, note.interstate);
    UntaxedNetsOut(invoices, notes, invoice, note, rows, whole);
    SameValues(rows, bill.total);
  }

  lemma OneExemptSlab(bill: Bill, item: OrderItem, rate: nat)
    requires bill.items == [item] && item.components == [] && item.rate == 0 && item.tax == 0 && bill.shippingTax == 0
    requires Breakdown(bill, rate) == SlabRows(AllLines(bill, rate))
    ensures Breakdown(bill, rate) == [Row(Some(0), Some(item.finalPrice), 0)]
  {
    assert bill.items[..0] == [];
    assert LinesOf(bill.items[..0]) == [];
    assert LinesOf(bill.items) == [TaxLine(item.finalPrice, 0)];
    assert AllLines(bill, rate) == [TaxLine(item.finalPrice, 0)];
    OneRowValue(TaxLine(item.finalPrice, 0));
  }

  lemma OneRowAtZero(value: int, amount: int)
    ensures AllAtZero([Row(Some(0), Some(value), 0)], amount) <==> value == amount
  {
    var rows := [Row(Some(0), Some(value), 0)];
    assert rows[..0] == [] && Value(rows, 0) == value;
    assert ValueAt(rows, Some(0)) == value;
  }

  /** An order of one exempt product, shipped free: its whole refund nets out exactly when the price of its line
      is the order's total, which the rounding of a coupon's unit price can prevent. */
  lemma OneExemptLineNetsOut(line: CartLine, coupon: Option<Coupon>, policy: Policy)
    requires line.ProductLine? && line.rate == 0 && PriceCart([line], coupon, policy).shippingTax == 0
    ensures var bill := PriceCart([line], coupon, policy);
      bill.TotalTax() == 0
      && (AllAtZero(Breakdown(bill, policy.shippingRate), bill.total) <==> bill.items[0].finalPrice == bill.total)
  {
    var bill := PriceCart([line], coupon, policy);
    var item := bill.items[0];
    PlacedOrderReconciles([line], coupon, policy);
    assert bill.items == [item] && bill.items[..0] == [];
    assert item.tax == 0 && item.rate == 0 && item.components == [];
    assert ItemTaxes(bill.items) == [0];
    AllZero(ItemTaxes(bill.items));
    OneExemptSlab(bill, item, policy.shippingRate);
    OneRowAtZero(item.finalPrice, bill.total);
  }

  /** One paisa off three packs at 1.00: the invoice reports 3.00, the refund returns and reports 2.99. */
  lemma ExemptCouponDrifts(line: CartLine, coupon: Coupon, policy: Policy)
    requires line.ProductLine? && line.price == 100 && line.quantity == 3 && coupon.discount == Fixed(1)
    requires policy.freeShippingThreshold <= 0
    ensures var bill := PriceCart([line], Some(coupon), policy);
      bill.total == 299 && bill.items[0].finalPrice == 300 && bill.shippingTax == 0
  {
    OneLineTotal(line);
    assert line.Total() == 300;
    WholeUnitsStay(1, 300);
    assert LineDiscount(300, 300, 1) == 1;
    assert HalfEven(299, 3) == 100;
  }

  // ----- All reports over one window -----

  /** An order as a customer placed it, the state it was supplied to, and the day its invoice was issued. */
  datatype Sale = Sale(cart: seq<CartLine>, coupon: Option<Coupon>, code: string, at: int)

  function BillOf(sale: Sale, policy: Policy): Bill {
    PriceCart(sale.cart, sale.coupon, policy)
  }

  function InvoiceOf(sale: Sale, policy: Policy, seller: string): TaxDocument {
    InvoiceFor(BillOf(sale, policy), policy.shippingRate, sale.code, seller, sale.at)
  }

  function SalesIn(sales: seq<Sale>, start: int, end: int): seq<Sale> {
    if sales == [] then []
    else
      var n := |sales| - 1;
      SalesIn(sales[..n], start, end) + if start <= sales[n].at <= end then [sales[n]] else []
  }

  function Bills(sales: seq<Sale>, policy: Policy): (s: seq<Bill>)
    ensures |s| == |sales|
  {
    seq(|sales|, i requires 0 <= i < |sales| => BillOf(sales[i], policy))
  }

  function Invoices(sales: seq<Sale>, policy: Policy, seller: string): (s: seq<TaxDocument>)
    ensures |s| == |sales|
  {
    seq(|sales|, i requires 0 <= i < |sales| => InvoiceOf(sales[i], policy, seller))
  }

  lemma OneMoreSale(sales: seq<Sale>, sale: Sale, policy: Policy, seller: string)
    ensures Invoices(sales + [sale], policy, seller) == Invoices(sales, policy, seller)
        + [InvoiceOf(sale, policy, seller)]
    ensures Invoices(sales + [], policy, seller) == Invoices(sales, policy, seller)
  {
    assert sales + [] == sales;
  }

  /** The invoices issued in a window are those of the sales in it. */
  lemma {:induction false} WindowOfSales(sales: seq<Sale>, policy: Policy, seller: string, start: int, end: int)
    ensures Window(Invoices(sales, policy, seller), start, end) == Invoices(SalesIn(sales, start, end), policy, seller)
  {
    if sales != [] {
      var n := |sales| - 1;
      WindowOfSales(sales[..n], policy, seller, start, end);
      assert Invoices(sales, policy, seller)[..n] == Invoices(sales[..n], policy, seller);
      OneMoreSale(SalesIn(sales[..n], start, end), sales[n], policy, seller);
    }
  }

  lemma SalesReconcile(sales: seq<Sale>, policy: Policy, seller: string)
    ensures AllReconciled(Invoices(sales, policy, seller))
    ensures AllWellWritten(Bills(sales, policy), policy.shippingRate)
  {
    forall i | 0 <= i < |sales|
      ensures Reconciled(Invoices(sales, policy, seller)[i])
      ensures WellWritten(Bills(sales, policy)[i], policy.shippingRate) && Bills(sales, policy)[i].shippingCharge >= 0
    {
      PlacedInvoiceReconciles(sales[i].cart, sales[i].coupon, policy, sales[i].code, seller, sales[i].at);
      PlacedOrderWellWritten(sales[i].cart, sales[i].coupon, policy);
      PlacedOrderShape(sales[i].cart, sales[i].coupon, policy);
    }
  }

  function BilledSales(sales: seq<Sale>, policy: Policy): (s: seq<Billed>)
    ensures |s| == |sales|
  {
    seq(|sales|, i requires 0 <= i < |sales| => Billed(sales[i].at, BillOf(sales[i], policy)))
  }

  lemma {:induction false} BillsOfSales(sales: seq<Sale>, policy: Policy, start: int, end: int)
    ensures BillsIn(BilledSales(sales, policy), start, end) == Bills(SalesIn(sales, start, end), policy)
  {
    if sales != [] {
      var n := |sales| - 1;
      BillsOfSales(sales[..n], policy, start, end);
      assert BilledSales(sales, policy)[..n] == BilledSales(sales[..n], policy);
      OneMoreBillOf(SalesIn(sales[..n], start, end), sales[n], policy);
    }
  }

  lemma OneMoreBillOf(sales: seq<Sale>, sale: Sale, policy: Policy)
    ensures Bills(sales + [sale], policy) == Bills(sales, policy) + [BillOf(sale, policy)]
    ensures Bills(sales + [], policy) == Bills(sales, policy)
  {
    assert sales + [] == sales;
  }

  /** For any sales, window and credit notes: the GST of the HSN summary, of the period summary's invoice
      block, of its three heads together, and of the state-wise summary's gross heads is one figure. */
  lemma ReportsAgree(sales: seq<Sale>, policy: Policy, seller: string, notes: seq<TaxDocument>, start: int, end: int)
    ensures var invoices := Window(Invoices(sales, policy, seller), start, end);
      var bills := BillsIn(BilledSales(sales, policy), start, end);
      var gross, credit := StateEntries(invoices), StateEntries(Window(notes, start, end));
      var states := GrossTotal(StateRows(StateKeys(gross + credit), gross, credit));
      var block, hsn := BlockOf(invoices), Total(HsnEntries(bills, policy.shippingRate));
      && hsn.tax == block.tax && block.tax == block.cgst + block.sgst + block.igst
      && states.cgst == block.cgst && states.sgst == block.sgst && states.igst == block.igst
      && block.count == |bills|
  {
    var sold := SalesIn(sales, start, end);
    WindowOfSales(sales, policy, seller, start, end);
    BillsOfSales(sales, policy, start, end);
    SoldBlock(sold, policy, seller);
    StateRowsMatchPeriod(Invoices(sold, policy, seller), Window(notes, start, end));
  }

  lemma SoldBlock(sold: seq<Sale>, policy: Policy, seller: string)
    ensures var block := BlockOf(Invoices(sold, policy, seller));
      && Total(HsnEntries(Bills(sold, policy), policy.shippingRate)).tax == block.tax
      && HeadsMatchTax(block) && block.count == |Bills(sold, policy)|
  {
    SalesReconcile(sold, policy, seller);
    ReconciledBlock(Invoices(sold, policy, seller));
    HsnMatchesInvoices(Bills(sold, policy), Invoices(sold, policy, seller), policy.shippingRate);
  }
}
