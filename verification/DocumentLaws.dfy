/** What tax documents and the reports over them hold, said in place of supply, issue date and the rows' own
    figures. */
module DocumentLaws {
  import opened Money
  import opened Orders
  import opened Apportionment
  import opened Buckets
  import opened Ordering
  import opened Pricing
  import opened TaxBreakdown
  import opened Checkout
  import opened Coupons
  import opened Documents
  import opened Reports
  import opened PriceLaws

  // ----- Which heads a supply carries -----

  /** Supplied in the seller's own state, a code of one digit read as two; an order without a code counts as that. */
  predicate AtHome(code: string, seller: string) {
    code == "" || code == seller || (|code| == 1 && "0" + code == seller)
  }

  /** At home CGST and SGST share the tax, the odd paisa to CGST; anywhere else all of it is IGST. A row without
      tax, or with less, has nothing under any head. */
  predicate HeadedBy(row: SnapRow, home: bool) {
    var h, tax := row.heads, if row.tax > 0 then row.tax else 0;
    if home then h.igst == 0 && h.cgst + h.sgst == tax && h.cgst == h.sgst + tax % 2
    else h.cgst == 0 && h.sgst == 0 && h.igst == tax
  }

  predicate DocumentHeaded(d: TaxDocument, seller: string) {
    forall k :: 0 <= k < |d.rows| ==> HeadedBy(d.rows[k], AtHome(d.stateCode, seller))
  }

  lemma HomeIs(code: string, seller: string)
    requires |seller| >= 2
    ensures IsInterstate(code, seller) <==> !AtHome(code, seller)
    ensures AtHome(if code == "" then seller else code, seller) <==> AtHome(code, seller)
  {
  }

  lemma SplitHeaded(row: SnapRow, interstate: bool)
    requires row.heads == SplitTax(row.tax, interstate)
    ensures HeadedBy(row, !interstate)
  {
  }

  lemma SnapshotHeaded(rows: seq<Row>, interstate: bool)
    ensures forall k :: 0 <= k < |rows| ==> HeadedBy(SnapshotRows(rows, interstate)[k], !interstate)
  {
    var out := SnapshotRows(rows, interstate);
    forall k | 0 <= k < |rows| ensures HeadedBy(out[k], !interstate) {
      SplitHeaded(out[k], interstate);
    }
  }

  /** The invoice of any order: its total and GST, under its place of supply or, without one, the seller's; the rows
      of its breakup; and the heads that place calls for. */
  lemma InvoiceIs(bill: Bill, shippingRate: nat, code: string, seller: string, at: int, d: TaxDocument)
    requires |seller| >= 2 && d == InvoiceFor(bill, shippingRate, code, seller, at)
    ensures d.issuedAt == at && d.totalAmount == bill.total && d.totalTax == bill.tax + bill.shippingTax
    ensures d.stateCode == (if code == "" then seller else code) && DocumentHeaded(d, seller)
    ensures var rows := Breakdown(bill, shippingRate);
      |d.rows| == |rows| && forall k :: 0 <= k < |rows| ==>
        d.rows[k].rate == rows[k].rate && d.rows[k].taxable == rows[k].taxable && d.rows[k].tax == rows[k].tax
  {
    HomeIs(code, seller);
    SnapshotHeaded(Breakdown(bill, shippingRate), IsInterstate(code, seller));
  }

  /** A note credits its amount and GST where its invoice was supplied, under the same heads. */
  lemma NotesAreHeaded(bill: Bill, shippingRate: nat, code: string, seller: string, at: int, rows: seq<Row>,
                       amount: int, tax: nat, later: int)
    requires |seller| >= 2
    ensures var invoice := InvoiceFor(bill, shippingRate, code, seller, at);
      forall d :: d == RefundNote(invoice, rows, amount, tax, later)
                  || d == CancellationNote(invoice, rows, amount, tax, later) ==>
        && d.issuedAt == later && d.totalAmount == amount && d.totalTax == tax
        && d.stateCode == invoice.stateCode && DocumentHeaded(d, seller)
  {
    var invoice := InvoiceFor(bill, shippingRate, code, seller, at);
    HomeIs(code, seller);
    SnapshotHeaded(RefundNoteRows(rows, amount, tax), invoice.interstate);
    SnapshotHeaded(CancellationRows(rows, tax, invoice.totalTax), invoice.interstate);
  }

  // ----- What a partial credit note reports -----

  /** `x` is `n / d` to the nearest paisa, ties away from zero. */
  predicate RoundsAway(n: int, d: int, x: int) {
    if n >= 0 then RoundsUp(n, d, x) else -d < 2 * n - 2 * (d * x) <= d
  }

  predicate ValueScaled(value: Option<int>, part: nat, whole: int, out: Option<int>) {
    out.Some? == value.Some? && (value.Some? ==> RoundsAway(part * value.value, whole, out.value))
  }

  /** `out` is `rows` in proportion part/whole: same rates, values to the paisa, and the tax too but for row b, which
      takes what rounding left over. */
  predicate Proportional(rows: seq<Row>, part: nat, whole: int, out: seq<Row>, b: nat) {
    && |out| == |rows|
    && (forall k :: 0 <= k < |rows| ==> out[k].rate == rows[k].rate)
    && (forall k :: 0 <= k < |rows| ==> ValueScaled(rows[k].taxable, part, whole, out[k].taxable))
    && (forall k :: 0 <= k < |rows| && k != b ==> RoundsUp(part * rows[k].tax, whole, out[k].tax))
    && Sum(Taxes(out)) == part
  }

  lemma AwayRounds(n: int, d: int)
    requires d > 0
    ensures RoundsAway(n, d, HalfUp(n, d))
  {
  }

  lemma ScaledProportional(rows: seq<Row>, part: nat, whole: int, out: seq<Row>) returns (b: nat)
    requires rows != [] && whole > 0 && NonNegativeRows(rows)
    requires out == PatchLargest(RoundedRows(rows, part, whole), part)
    ensures b < |rows| && Proportional(rows, part, whole, out, b)
  {
    var rounded := RoundedRows(rows, part, whole);
    b := FirstLargest(Taxes(rounded));
    PatchedRowsSum(rounded, part);
    forall k | 0 <= k < |rows| ensures ValueScaled(rows[k].taxable, part, whole, out[k].taxable) {
      if rows[k].taxable.Some? {
        AwayRounds(part * rows[k].taxable.value, whole);
      }
    }
    forall k | 0 <= k < |rows| && k != b ensures RoundsUp(part * rows[k].tax, whole, out[k].tax) {
      MulMonotone(part, 0, rows[k].tax);
      UpRounds(part * rows[k].tax, whole);
    }
  }

  /** A refund's note reports the order's own slabs in proportion to the GST reversed; one that reverses none, its
      whole amount at 0%. */
  lemma RefundNoteScales(bill: Bill, shippingRate: nat, amount: int, reversed: nat) returns (b: nat)
    ensures var rows := Breakdown(bill, shippingRate);
      var out := RefundNoteRows(rows, amount, reversed);
      && (reversed > 0 && Sum(Taxes(rows)) > 0 ==>
            b < |rows| && Proportional(rows, reversed, Sum(Taxes(rows)), out, b))
      && (reversed == 0 || Sum(Taxes(rows)) == 0 ==>
            out == if amount > 0 then [Row(Some(0), Some(amount), 0)] else [])
  {
    var rows := Breakdown(bill, shippingRate);
    BreakdownTotal(bill, shippingRate);
    b := 0;
    if reversed > 0 && Sum(Taxes(rows)) > 0 {
      assert rows != [];
      b := ScaledProportional(rows, reversed, Sum(Taxes(rows)), RefundNoteRows(rows, amount, reversed));
    }
  }

  /** A cancellation's note reports its invoice's slabs in proportion to the GST left on it. */
  lemma CancellationScales(rows: seq<Row>, left: nat, invoiceTax: int) returns (b: nat)
    requires rows != [] && invoiceTax > 0 && NonNegativeRows(rows)
    ensures b < |rows| && Proportional(rows, left, invoiceTax, CancellationRows(rows, left, invoiceTax), b)
  {
    b := ScaledProportional(rows, left, invoiceTax, CancellationRows(rows, left, invoiceTax));
  }

  // ----- The window -----

  /** A window keeps exactly the documents issued from its first day to its last, and their number. */
  lemma {:induction false} WindowKeeps(docs: seq<TaxDocument>, start: int, end: int)
    ensures forall d :: multiset(Window(docs, start, end))[d]
                     == if start <= d.issuedAt <= end then multiset(docs)[d] else 0
  {
    if docs != [] {
      var n := |docs| - 1;
      WindowKeeps(docs[..n], start, end);
      assert docs == docs[..n] + [docs[n]];
    }
  }

  lemma OneMoreBillTax(bills: seq<Bill>, bill: Bill)
    ensures Sum(BillTaxes(bills + [bill])) == Sum(BillTaxes(bills)) + bill.TotalTax()
  {
    assert BillTaxes(bills + [bill])[..|bills|] == BillTaxes(bills);
  }

  /** The HSN summary's window is that of the invoices: the orders it keeps carry the GST the invoices report. */
  lemma {:induction false} BillsKept(billed: seq<Billed>, invoices: seq<TaxDocument>, start: int, end: int)
    requires |billed| == |invoices|
    requires forall i :: 0 <= i < |billed| ==>
      invoices[i].issuedAt == billed[i].issuedAt && invoices[i].totalTax == billed[i].bill.TotalTax()
    ensures Sum(BillTaxes(BillsIn(billed, start, end))) == Sum(TotalTaxes(Window(invoices, start, end)))
  {
    if billed != [] {
      var n := |billed| - 1;
      BillsKept(billed[..n], invoices[..n], start, end);
      var bills, docs := BillsIn(billed[..n], start, end), Window(invoices[..n], start, end);
      if start <= billed[n].issuedAt <= end {
        OneMoreBillTax(bills, billed[n].bill);
        SumsGrow(docs, invoices[n]);
      } else {
        assert bills + [] == bills;
      }
    }
  }

  // ----- The period summary -----

  function RowSums(rows: seq<SnapRow>): Heads {
    if rows == [] then Heads(0, 0, 0)
    else
      var h, rest := rows[|rows| - 1].heads, RowSums(rows[..|rows| - 1]);
      Heads(rest.cgst + h.cgst, rest.sgst + h.sgst, rest.igst + h.igst)
  }

  function HeadsOver(docs: seq<TaxDocument>): Heads {
    if docs == [] then Heads(0, 0, 0)
    else
      var h, rest := RowSums(docs[|docs| - 1].rows), HeadsOver(docs[..|docs| - 1]);
      Heads(rest.cgst + h.cgst, rest.sgst + h.sgst, rest.igst + h.igst)
  }

  lemma {:induction false} RowSumsAre(code: string, rows: seq<SnapRow>)
    ensures var t := Total(RowEntries(code, rows)); RowSums(rows) == Heads(t.cgst, t.sgst, t.igst)
  {
    if rows != [] {
      var n := |rows| - 1;
      RowSumsAre(code, rows[..n]);
      assert RowEntries(code, rows)[..n] == RowEntries(code, rows[..n]);
    }
  }

  lemma HeadsGrow(docs: seq<TaxDocument>, d: TaxDocument, t: Tally)
    requires t == Total(StateEntries(docs)) && HeadsOver(docs) == Heads(t.cgst, t.sgst, t.igst)
    ensures var u := Total(StateEntries(docs + [d])); HeadsOver(docs + [d]) == Heads(u.cgst, u.sgst, u.igst)
  {
    RowSumsAre(d.stateCode, d.rows);
    OneMoreDocument(docs, d);
    assert (docs + [d])[..|docs|] == docs;
  }

  lemma {:induction false} HeadsOverAre(docs: seq<TaxDocument>)
    ensures var t := Total(StateEntries(docs)); HeadsOver(docs) == Heads(t.cgst, t.sgst, t.igst)
  {
    if docs != [] {
      var n := |docs| - 1;
      HeadsOverAre(docs[..n]);
      assert docs[..n] + [docs[n]] == docs;
      HeadsGrow(docs[..n], docs[n], Total(StateEntries(docs[..n])));
    }
  }

  /** A block counts its documents and adds up their amounts, their GST and, head by head, their rows; its taxable
      value is what the GST leaves of the amounts. The net block subtracts, and keeps no count of its own. */
  lemma BlocksAre(docs: seq<TaxDocument>, notes: seq<TaxDocument>)
    ensures var b, h := BlockOf(docs), HeadsOver(docs);
      && b.count == |docs| && b.cgst == h.cgst && b.sgst == h.sgst && b.igst == h.igst
      && b.total == Sum(seq(|docs|, i requires 0 <= i < |docs| => docs[i].totalAmount))
      && b.tax == Sum(seq(|docs|, i requires 0 <= i < |docs| => docs[i].totalTax))
      && b.taxableValue + b.tax == b.total
    ensures var a, b, net := BlockOf(docs), BlockOf(notes), NetBlock(BlockOf(docs), BlockOf(notes));
      && net.cgst + b.cgst == a.cgst && net.sgst + b.sgst == a.sgst && net.igst + b.igst == a.igst
      && net.tax + b.tax == a.tax && net.total + b.total == a.total
      && net.taxableValue + net.tax == net.total && net.count == 0
  {
    HeadsOverAre(docs);
    assert TotalAmounts(docs) == seq(|docs|, i requires 0 <= i < |docs| => docs[i].totalAmount);
    assert TotalTaxes(docs) == seq(|docs|, i requires 0 <= i < |docs| => docs[i].totalTax);
  }

  // ----- The state-wise summary -----

  function ValueAt(rows: seq<SnapRow>, rate: Option<int>): int {
    if rows == [] then 0
    else
      var last := rows[|rows| - 1];
      ValueAt(rows[..|rows| - 1], rate)
      + if last.rate == rate && last.taxable.Some? then last.taxable.value else 0
  }

  function ValueIn(docs: seq<TaxDocument>, code: string, rate: Option<int>): int {
    if docs == [] then 0
    else
      var last := docs[|docs| - 1];
      ValueIn(docs[..|docs| - 1], code, rate) + if last.stateCode == code then ValueAt(last.rows, rate) else 0
  }

  lemma {:induction false} RowValues(code: string, rows: seq<SnapRow>, key: StateKey)
    ensures TotalAt(RowEntries(code, rows), key).value == if key.code == code then ValueAt(rows, key.rate) else 0
  {
    if rows != [] {
      var n := |rows| - 1;
      RowValues(code, rows[..n], key);
      assert RowEntries(code, rows)[..n] == RowEntries(code, rows[..n]);
    }
  }

  /** What a state and rate report as taxable value is what the documents of that state report at that rate. */
  lemma {:induction false} StateValuesAre(docs: seq<TaxDocument>, key: StateKey)
    ensures TotalAt(StateEntries(docs), key).value == ValueIn(docs, key.code, key.rate)
  {
    if docs != [] {
      var n := |docs| - 1;
      StateValuesAre(docs[..n], key);
      RowValues(docs[n].stateCode, docs[n].rows, key);
      TotalAtConcat(StateEntries(docs[..n]), RowEntries(docs[n].stateCode, docs[n].rows), key);
    }
  }

  predicate AllHeaded(docs: seq<TaxDocument>, seller: string) {
    forall i :: 0 <= i < |docs| ==> DocumentHeaded(docs[i], seller)
  }

  predicate TallyHeaded(t: Tally, home: bool) {
    if home then t.igst == 0 && t.cgst >= t.sgst >= 0 else t.cgst == 0 && t.sgst == 0 && t.igst >= 0
  }

  lemma {:induction false} RowsHeaded(code: string, rows: seq<SnapRow>, key: StateKey, home: bool)
    requires forall k :: 0 <= k < |rows| ==> HeadedBy(rows[k], home)
    ensures TallyHeaded(TotalAt(RowEntries(code, rows), key), home)
  {
    if rows != [] {
      var n := |rows| - 1;
      RowsHeaded(code, rows[..n], key, home);
      assert RowEntries(code, rows)[..n] == RowEntries(code, rows[..n]);
      assert HeadedBy(rows[n], home);
    }
  }

  lemma {:induction false} OtherStateAdds(code: string, rows: seq<SnapRow>, key: StateKey)
    requires code != key.code
    ensures TotalAt(RowEntries(code, rows), key) == ZERO
  {
    if rows != [] {
      OtherStateAdds(code, rows[..|rows| - 1], key);
      assert RowEntries(code, rows)[..|rows| - 1] == RowEntries(code, rows[..|rows| - 1]);
    }
  }

  lemma {:induction false} StateHeads(docs: seq<TaxDocument>, seller: string, key: StateKey)
    requires AllHeaded(docs, seller)
    ensures TallyHeaded(TotalAt(StateEntries(docs), key), AtHome(key.code, seller))
  {
    if docs != [] {
      var n, d := |docs| - 1, docs[|docs| - 1];
      StateHeads(docs[..n], seller, key);
      TotalAtConcat(StateEntries(docs[..n]), RowEntries(d.stateCode, d.rows), key);
      if d.stateCode == key.code {
        assert DocumentHeaded(d, seller);
        RowsHeaded(d.stateCode, d.rows, key, AtHome(key.code, seller));
      } else {
        OtherStateAdds(d.stateCode, d.rows, key);
      }
    }
  }

  /** The state-wise report, over any window of documents headed by their place of supply: the seller's own state
      shows no IGST, gross, credited or net, every other state nothing but IGST; and each row nets its columns. */
  lemma StatesShowTheirHeads(invoices: seq<TaxDocument>, notes: seq<TaxDocument>, seller: string, i: nat)
    requires AllHeaded(invoices, seller) && AllHeaded(notes, seller)
    requires i < |StateKeys(StateEntries(invoices) + StateEntries(notes))|
    ensures var gross, credit := StateEntries(invoices), StateEntries(notes);
      var row := StateRows(StateKeys(gross + credit), gross, credit)[i];
      && TallyHeaded(row.gross, AtHome(row.key.code, seller)) && TallyHeaded(row.credit, AtHome(row.key.code, seller))
      && (if AtHome(row.key.code, seller) then row.net.igst == 0 else row.net.cgst == 0 && row.net.sgst == 0)
      && row.gross.value == ValueIn(invoices, row.key.code, row.key.rate)
      && row.credit.value == ValueIn(notes, row.key.code, row.key.rate)
      && row.net.value + row.credit.value == row.gross.value && row.net.cgst + row.credit.cgst == row.gross.cgst
      && row.net.sgst + row.credit.sgst == row.gross.sgst && row.net.igst + row.credit.igst == row.gross.igst
  {
    var gross, credit := StateEntries(invoices), StateEntries(notes);
    var key := StateKeys(gross + credit)[i];
    StateHeads(invoices, seller, key);
    StateHeads(notes, seller, key);
    StateValuesAre(invoices, key);
    StateValuesAre(notes, key);
  }

  // ----- Order of the rows -----

  /** Where two texts first differ decides; one that ends there comes first. */
  ghost predicate Before(a: string, b: string) {
    exists k :: 0 <= k <= |a| && k < |b| && a[..k] == b[..k] && (k == |a| || a[k] < b[k])
  }

  lemma {:induction false} CodesCompare(a: string, b: string)
    ensures CodeLe(a, b) <==> a == b || Before(a, b)
  {
    if a != [] && b != [] && a[0] == b[0] {
      CodesCompare(a[1..], b[1..]);
      SameHead(a, b);
    } else if a == [] && b != [] {
      assert a[..0] == b[..0];
    } else if a != [] && b != [] {
      assert a[..0] == b[..0];
      if Before(a, b) {
        var k :| 0 <= k <= |a| && k < |b| && a[..k] == b[..k] && (k == |a| || a[k] < b[k]);
        if k > 0 {
          assert a[..k][0] == b[..k][0];
        }
      }
    }
  }

  lemma SameHead(a: string, b: string)
    requires a != [] && b != [] && a[0] == b[0]
    ensures Before(a, b) <==> Before(a[1..], b[1..])
  {
    if Before(a, b) {
      var k :| 0 <= k <= |a| && k < |b| && a[..k] == b[..k] && (k == |a| || a[k] < b[k]);
      assert k > 0;
      assert a[1..][..k - 1] == a[..k][1..] && b[1..][..k - 1] == b[..k][1..];
    }
    if Before(a[1..], b[1..]) {
      var x, y := a[1..], b[1..];
      var k :| 0 <= k <= |x| && k < |y| && x[..k] == y[..k] && (k == |x| || x[k] < y[k]);
      assert a[..k + 1] == [a[0]] + x[..k] && b[..k + 1] == [b[0]] + y[..k];
    }
  }

  /** State rows come by code, and for one code the row without a rate first and then by rate. */
  lemma StateRowsInOrder(entries: seq<Entry<StateKey>>, i: nat, j: nat)
    requires i < j < |StateKeys(entries)|
    requires forall e :: e in entries && e.key.rate.Some? ==> e.key.rate.value >= 0
    ensures var a, b := StateKeys(entries)[i], StateKeys(entries)[j];
      Before(a.code, b.code)
      || (a.code == b.code && b.rate.Some? && (a.rate.None? || a.rate.value < b.rate.value))
  {
    var keys := StateKeys(entries);
    StateKeysCover(entries);
    assert PlaceLe(StatePlace(keys[i]), StatePlace(keys[j]));
    assert keys[i] in keys && keys[j] in keys;
    CodesCompare(keys[i].code, keys[j].code);
    KeyHasEntry(entries, keys[i]);
    KeyHasEntry(entries, keys[j]);
  }

  lemma KeyHasEntry(entries: seq<Entry<StateKey>>, k: StateKey)
    requires HasKey(entries, k) && forall e :: e in entries && e.key.rate.Some? ==> e.key.rate.value >= 0
    ensures k.rate.Some? ==> k.rate.value >= 0
  {
    var i :| 0 <= i < |entries| && entries[i].key == k;
    assert entries[i] in entries;
  }

  /** HSN rows come by code and rate, what was never classified last. */
  lemma HsnRowsInOrder(entries: seq<Entry<HsnKey>>, i: nat, j: nat)
    requires i < j < |HsnKeys(entries)|
    ensures var a, b := HsnKeys(entries)[i], HsnKeys(entries)[j];
      if a.code != "" && b.code != "" && a.code != b.code then Before(a.code, b.code)
      else if a.code == b.code then a.rate < b.rate
      else b.code == ""
  {
    var keys := HsnKeys(entries);
    HsnKeysCover(entries);
    assert PlaceLe(HsnPlace(keys[i]), HsnPlace(keys[j]));
    CodesCompare(keys[i].code, keys[j].code);
  }

  // ----- The HSN summary -----

  /** Units, value and GST of supplies. */
  datatype Supply = Supply(units: int, value: int, tax: int) {
    function And(o: Supply): Supply {
      Supply(units + o.units, value + o.value, tax + o.tax)
    }
  }

  const NOTHING := Supply(0, 0, 0)

  function PartsAt(rows: seq<Component>, code: string, rate: int): Supply {
    if rows == [] then NOTHING
    else
      var c := rows[|rows| - 1];
      PartsAt(rows[..|rows| - 1], code, rate).And(
        if c.hsn == code && c.rate == rate then Supply(c.units, c.amount, c.tax) else NOTHING)
  }

  /** A line supplies its components, or itself when it has none. */
  function LineAt(item: OrderItem, code: string, rate: int): Supply {
    if item.components != [] then PartsAt(item.components, code, rate)
    else if item.hsn == code && item.rate == rate then Supply(item.quantity, item.finalPrice, item.tax)
    else NOTHING
  }

  function LinesAt(items: seq<OrderItem>, code: string, rate: int): Supply {
    if items == [] then NOTHING
    else LinesAt(items[..|items| - 1], code, rate).And(LineAt(items[|items| - 1], code, rate))
  }

  /** Delivery is a service of its own, of no units, when a fee was charged. */
  function OrderAt(bill: Bill, code: string, rate: int, shippingRate: int): Supply {
    LinesAt(bill.items, code, rate).And(
      if code == "9968" && rate == shippingRate && bill.shippingCharge > 0
      then Supply(0, bill.shippingCharge + bill.shippingTax, bill.shippingTax) else NOTHING)
  }

  function OrdersAt(bills: seq<Bill>, code: string, rate: int, shippingRate: int): Supply {
    if bills == [] then NOTHING
    else
      OrdersAt(bills[..|bills| - 1], code, rate, shippingRate).And(
        OrderAt(bills[|bills| - 1], code, rate, shippingRate))
  }

  function SupplyOf(t: Tally): Supply {
    Supply(t.units, t.value, t.tax)
  }

  lemma SupplyPlus(a: Tally, b: Tally)
    ensures SupplyOf(a.Plus(b)) == SupplyOf(a).And(SupplyOf(b))
    ensures SupplyOf(a).And(NOTHING) == SupplyOf(a)
  {
  }

  lemma LastAt(entries: seq<Entry<HsnKey>>, key: HsnKey)
    requires entries != []
    ensures var n := |entries| - 1;
      SupplyOf(TotalAt(entries, key)) == SupplyOf(TotalAt(entries[..n], key)).And(
        if entries[n].key == key then SupplyOf(entries[n].tally) else NOTHING)
  {
    var n := |entries| - 1;
    SupplyPlus(TotalAt(entries[..n], key), entries[n].tally);
  }

  lemma HsnConcat(a: seq<Entry<HsnKey>>, b: seq<Entry<HsnKey>>, key: HsnKey)
    ensures SupplyOf(TotalAt(a + b, key)) == SupplyOf(TotalAt(a, key)).And(SupplyOf(TotalAt(b, key)))
  {
    TotalAtConcat(a, b, key);
    SupplyPlus(TotalAt(a, key), TotalAt(b, key));
  }

  lemma {:induction false} PartsAre(rows: seq<Component>, key: HsnKey)
    ensures SupplyOf(TotalAt(ComponentEntries(rows), key)) == PartsAt(rows, key.code, key.rate)
  {
    if rows != [] {
      var n := |rows| - 1;
      PartsAre(rows[..n], key);
      assert ComponentEntries(rows)[..n] == ComponentEntries(rows[..n]);
      LastAt(ComponentEntries(rows), key);
    }
  }

  lemma LineIs(item: OrderItem, key: HsnKey)
    ensures SupplyOf(TotalAt(ItemEntries(item), key)) == LineAt(item, key.code, key.rate)
  {
    if item.components != [] {
      PartsAre(item.components, key);
    } else {
      var entries := ItemEntries(item);
      assert |entries| == 1 && entries[..0] == [];
      assert TotalAt(entries[..0], key) == ZERO;
    }
  }

  lemma {:induction false} LinesAre(items: seq<OrderItem>, key: HsnKey)
    ensures SupplyOf(TotalAt(EntriesOfItems(items), key)) == LinesAt(items, key.code, key.rate)
  {
    if items != [] {
      var n := |items| - 1;
      LinesAre(items[..n], key);
      LineIs(items[n], key);
      HsnConcat(EntriesOfItems(items[..n]), ItemEntries(items[n]), key);
    }
  }

  function Delivered(bills: seq<Bill>, carried: bool): Supply {
    var fees := Fees(bills);
    FeeSupply(fees.0, fees.1, carried)
  }

  function FeeSupply(fee: int, feeTax: int, carried: bool): Supply {
    if carried then Supply(0, fee + feeTax, feeTax) else NOTHING
  }

  lemma AndSwaps(whole: Supply, goods: Supply, fees: Supply, moreGoods: Supply, moreFees: Supply)
    requires whole == goods.And(fees)
    ensures whole.And(moreGoods.And(moreFees)) == goods.And(moreGoods).And(fees.And(moreFees))
  {
  }

  lemma FeesGrow(bills: seq<Bill>, bill: Bill)
    ensures var a, b := Fees(bills), Fees(bills + [bill]);
      b == if bill.shippingCharge > 0 then (a.0 + bill.shippingCharge, a.1 + bill.shippingTax) else a
  {
    assert (bills + [bill])[..|bills|] == bills;
  }

  lemma DeliveredGrows(bills: seq<Bill>, bill: Bill, carried: bool)
    ensures Delivered(bills + [bill], carried) == Delivered(bills, carried).And(Delivery(bill, carried))
  {
    FeesGrow(bills, bill);
    FeesAdd(Fees(bills).0, Fees(bills).1, bill.shippingCharge, bill.shippingTax, carried);
  }

  function Delivery(bill: Bill, carried: bool): Supply {
    FeeSupply(bill.shippingCharge, bill.shippingTax, carried && bill.shippingCharge > 0)
  }

  lemma FeesAdd(fee: int, feeTax: int, charge: int, tax: int, carried: bool)
    ensures FeeSupply(fee + charge, feeTax + tax, carried)
         == FeeSupply(fee, feeTax, carried).And(FeeSupply(charge, tax, carried))
    ensures FeeSupply(fee, feeTax, carried) == FeeSupply(fee, feeTax, carried).And(NOTHING)
  {
  }

  lemma OneMoreOrder(bills: seq<Bill>, bill: Bill, key: HsnKey, shippingRate: int)
    ensures OrdersAt(bills + [bill], key.code, key.rate, shippingRate)
         == OrdersAt(bills, key.code, key.rate, shippingRate).And(
              LinesAt(bill.items, key.code, key.rate).And(Delivery(bill, key == HsnKey("9968", shippingRate))))
  {
    assert (bills + [bill])[..|bills|] == bills;
  }

  lemma GoodsOfOneMore(bills: seq<Bill>, bill: Bill, key: HsnKey)
    ensures SupplyOf(TotalAt(GoodsEntries(bills + [bill]), key))
         == SupplyOf(TotalAt(GoodsEntries(bills), key)).And(LinesAt(bill.items, key.code, key.rate))
  {
    assert (bills + [bill])[..|bills|] == bills;
    LinesAre(bill.items, key);
    HsnConcat(GoodsEntries(bills), EntriesOfItems(bill.items), key);
  }

  /** Delivery is kept apart from the goods until the end. */
  predicate KeptApart(whole: Supply, goods: Supply, fees: Supply) {
    whole == goods.And(fees)
  }

  lemma OneMoreApart(bills: seq<Bill>, more: seq<Bill>, key: HsnKey, shippingRate: int, carried: bool)
    requires carried == (key == HsnKey("9968", shippingRate)) && more != [] && bills == more[..|more| - 1]
    requires KeptApart(OrdersAt(bills, key.code, key.rate, shippingRate),
                       SupplyOf(TotalAt(GoodsEntries(bills), key)), Delivered(bills, carried))
    ensures KeptApart(OrdersAt(more, key.code, key.rate, shippingRate),
                      SupplyOf(TotalAt(GoodsEntries(more), key)), Delivered(more, carried))
  {
    var last := more[|more| - 1];
    assert more == bills + [last];
    OneMoreOrder(bills, last, key, shippingRate);
    GoodsOfOneMore(bills, last, key);
    DeliveredGrows(bills, last, carried);
    AndSwaps(OrdersAt(bills, key.code, key.rate, shippingRate), SupplyOf(TotalAt(GoodsEntries(bills), key)),
             Delivered(bills, carried), LinesAt(last.items, key.code, key.rate), Delivery(last, carried));
  }

  lemma NothingApart(bills: seq<Bill>, key: HsnKey, shippingRate: int, carried: bool)
    requires bills == []
    ensures KeptApart(OrdersAt(bills, key.code, key.rate, shippingRate),
                      SupplyOf(TotalAt(GoodsEntries(bills), key)), Delivered(bills, carried))
  {
    assert GoodsEntries(bills) == [] && Fees(bills) == (0, 0);
    FeesAdd(0, 0, 0, 0, carried);
  }

  lemma {:induction false} GoodsAre(bills: seq<Bill>, key: HsnKey, shippingRate: int, carried: bool)
    requires carried == (key == HsnKey("9968", shippingRate))
    ensures KeptApart(OrdersAt(bills, key.code, key.rate, shippingRate),
                      SupplyOf(TotalAt(GoodsEntries(bills), key)), Delivered(bills, carried))
  {
    if bills == [] {
      NothingApart(bills, key, shippingRate, carried);
    } else {
      GoodsAre(bills[..|bills| - 1], key, shippingRate, carried);
      OneMoreApart(bills[..|bills| - 1], bills, key, shippingRate, carried);
    }
  }

  lemma {:induction false} NoFeesNoTax(bills: seq<Bill>)
    ensures Fees(bills).0 == 0 ==> Fees(bills).1 == 0
  {
    if bills != [] {
      NoFeesNoTax(bills[..|bills| - 1]);
    }
  }

  predicate WithoutHeads(entries: seq<Entry<HsnKey>>) {
    forall k :: 0 <= k < |entries| ==> Headless(entries[k].tally)
  }

  predicate Headless(t: Tally) {
    t.cgst == 0 && t.sgst == 0 && t.igst == 0
  }

  lemma {:induction false} HeadlessTotal(entries: seq<Entry<HsnKey>>, key: HsnKey)
    requires WithoutHeads(entries)
    ensures Headless(TotalAt(entries, key))
  {
    if entries != [] {
      HeadlessTotal(entries[..|entries| - 1], key);
    }
  }

  lemma {:induction false} HeadlessItems(items: seq<OrderItem>)
    ensures WithoutHeads(EntriesOfItems(items))
  {
    if items != [] {
      HeadlessItems(items[..|items| - 1]);
    }
  }

  lemma {:induction false} HeadlessGoods(bills: seq<Bill>)
    ensures WithoutHeads(GoodsEntries(bills))
  {
    if bills != [] {
      HeadlessGoods(bills[..|bills| - 1]);
      HeadlessItems(bills[|bills| - 1].items);
    }
  }

  /** Every row of the HSN summary, whatever the orders: the units, value and GST supplied under its code and rate,
      combos by their components, delivery under 9968, under no head; and the value left without the GST. */
  lemma HsnRowIs(bills: seq<Bill>, shippingRate: nat, i: nat)
    requires i < |HsnKeys(HsnEntries(bills, shippingRate))|
    ensures var entries := HsnEntries(bills, shippingRate);
      var row := HsnRows(HsnKeys(entries), entries)[i];
      var s := OrdersAt(bills, row.key.code, row.key.rate, shippingRate);
      row.slab == Tally(s.units, s.value, s.tax, 0, 0, 0) && row.taxable == s.value - s.tax
  {
    var entries := HsnEntries(bills, shippingRate);
    HeadlessGoods(bills);
    HeadlessTotal(entries, HsnKeys(entries)[i]);
    HsnAt(bills, shippingRate, HsnKeys(entries)[i]);
  }

  lemma HsnAt(bills: seq<Bill>, shippingRate: nat, key: HsnKey)
    ensures SupplyOf(TotalAt(HsnEntries(bills, shippingRate), key))
         == OrdersAt(bills, key.code, key.rate, shippingRate)
  {
    var goods, extra := GoodsEntries(bills), DeliveryEntries(bills, shippingRate);
    GoodsAre(bills, key, shippingRate, key == HsnKey("9968", shippingRate));
    HsnConcat(goods, extra, key);
    DeliveryAt(bills, shippingRate, key);
    assert HsnEntries(bills, shippingRate) == goods + extra;
  }

  function DeliveryEntries(bills: seq<Bill>, shippingRate: nat): seq<Entry<HsnKey>> {
    var fees := Fees(bills);
    if fees.0 > 0 then [Entry(HsnKey("9968", shippingRate), Tally(0, fees.0 + fees.1, fees.1, 0, 0, 0))] else []
  }

  lemma OnlyAt(entries: seq<Entry<HsnKey>>, key: HsnKey)
    requires |entries| == 1
    ensures SupplyOf(TotalAt(entries, key))
         == if entries[0].key == key then SupplyOf(entries[0].tally) else NOTHING
  {
    LastAt(entries, key);
    assert entries[..0] == [];
    assert TotalAt(entries[..0], key) == ZERO;
  }

  lemma DeliveryAt(bills: seq<Bill>, shippingRate: nat, key: HsnKey)
    ensures SupplyOf(TotalAt(DeliveryEntries(bills, shippingRate), key))
         == Delivered(bills, key == HsnKey("9968", shippingRate))
  {
    NoFeesNoTax(bills);
    if Fees(bills).0 > 0 {
      OnlyAt(DeliveryEntries(bills, shippingRate), key);
    }
  }
}
