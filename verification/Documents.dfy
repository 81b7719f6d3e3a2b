/** Tax documents: the split into CGST, SGST and IGST, the frozen rows of an invoice,
    and the rows of the credit notes that reverse it. */
module Documents {
  import opened Money
  import opened Orders
  import opened Apportionment
  import opened Pricing
  import opened TaxBreakdown
  import opened Checkout
  import opened Coupons

  datatype Heads = Heads(cgst: int, sgst: int, igst: int) {
    function Total(): int {
      cgst + sgst + igst
    }
  }

  function ZeroFill(code: string): string {
    if |code| == 0 then "00" else if |code| == 1 then "0" + code else code
  }

  /** A blank place of supply is an old order, billed intra-state. */
  predicate IsInterstate(code: string, seller: string) {
    code != "" && ZeroFill(code) != seller
  }

  /** The heads of a tax amount. They sum back to it exactly when it is not negative;
      an odd paisa of an intra-state split goes to CGST. */
  function SplitTax(tax: int, interstate: bool): (h: Heads)
    ensures h.Total() == Max(tax, 0)
    ensures tax > 0 && interstate ==> h == Heads(0, 0, tax)
    ensures tax > 0 && !interstate ==> h.igst == 0 && h.cgst == h.sgst + tax % 2
  {
    if tax <= 0 then Heads(0, 0, 0)
    else if interstate then Heads(0, 0, tax)
    else
      var cgst := HalfUp(tax, 2);
      Heads(cgst, tax - cgst, 0)
  }

  datatype SnapRow = SnapRow(rate: Option<int>, taxable: Option<int>, tax: int, heads: Heads)

  datatype TaxDocument = TaxDocument(
    issuedAt: int,
    totalAmount: int,
    totalTax: int,
    stateCode: string,
    interstate: bool,
    rows: seq<SnapRow>)

  function SnapshotRows(rows: seq<Row>, interstate: bool): (s: seq<SnapRow>)
    ensures |s| == |rows|
  {
    seq(|rows|, i requires 0 <= i < |rows| =>
      SnapRow(rows[i].rate, rows[i].taxable, rows[i].tax, SplitTax(rows[i].tax, interstate)))
  }

  /** The invoice raised for an order, frozen at issue. */
  function InvoiceFor(bill: Bill, shippingRate: nat, code: string, seller: string, issuedAt: int): TaxDocument {
    TaxDocument(issuedAt, bill.total, bill.TotalTax(),
                if code == "" then seller else code, IsInterstate(code, seller),
                SnapshotRows(Breakdown(bill, shippingRate), IsInterstate(code, seller)))
  }

  // ----- Scaling the rows of a breakup -----

  predicate NonNegativeRows(rows: seq<Row>) {
    forall i :: 0 <= i < |rows| ==> rows[i].tax >= 0
  }

  function Weights(rows: seq<Row>): (w: seq<nat>)
    requires NonNegativeRows(rows)
    ensures |w| == |rows|
    ensures w == Taxes(rows)
  {
    seq(|rows|, i requires 0 <= i < |rows| => rows[i].tax)
  }

  function ScaledTaxable(taxable: Option<int>, part: int, whole: int): Option<int>
    requires whole > 0
  {
    if taxable.Some? then Some(HalfUp(part * taxable.value, whole)) else None
  }

  /** Each row scaled by part/whole and rounded on its own. */
  function RoundedRows(rows: seq<Row>, part: nat, whole: int): (out: seq<Row>)
    requires whole > 0
    ensures |out| == |rows|
  {
    seq(|rows|, i requires 0 <= i < |rows| =>
      Row(rows[i].rate, ScaledTaxable(rows[i].taxable, part, whole), HalfUp(part * rows[i].tax, whole)))
  }

  /** The first row with the most tax absorbs what the rows are short of `total`. */
  function PatchLargest(rows: seq<Row>, total: int): (out: seq<Row>)
    requires rows != []
    ensures |out| == |rows|
    ensures Taxes(out) == FixResidual(Taxes(rows), FirstLargest(Taxes(rows)), total)
  {
    var b := FirstLargest(Taxes(rows));
    rows[b := rows[b].(tax := rows[b].tax + (total - Sum(Taxes(rows))))]
  }

  function ScaledRows(rows: seq<Row>, part: nat, whole: int): (out: seq<Row>)
    requires rows != [] && whole > 0
    ensures |out| == |rows|
  {
    PatchLargest(RoundedRows(rows, part, whole), part)
  }

  lemma RoundedTaxes(rows: seq<Row>, part: nat, whole: int)
    requires NonNegativeRows(rows) && whole > 0
    ensures Taxes(RoundedRows(rows, part, whole)) == Shares(Weights(rows), part, whole)
  {
  }

  /** The scaled tax sums to the part exactly, whatever the rounding. */
  lemma PatchedRowsSum(rows: seq<Row>, total: int)
    requires rows != []
    ensures Sum(Taxes(PatchLargest(rows, total))) == total
  {
    FixedSumsToTotal(Taxes(rows), FirstLargest(Taxes(rows)), total);
  }

  /** The largest share belongs to a largest weight, so patching either gives the same value. */
  lemma LargestShare(w: seq<nat>, part: nat, whole: int)
    requires w != [] && whole > 0
    ensures var s := Shares(w, part, whole);
      FixResidual(s, FirstLargest(s), part)[FirstLargest(s)] == FixResidual(s, FirstLargest(w), part)[FirstLargest(w)]
  {
    var s := Shares(w, part, whole);
    var b, c := FirstLargest(s), FirstLargest(w);
    MulMonotone(part, 0, w[b]);
    MulMonotone(part, w[b], w[c]);
    HalfUpMonotone(part * w[b], part * w[c], whole);
  }

  lemma FixedSharesNonNegative(w: seq<nat>, part: nat, whole: int)
    requires w != [] && whole > 0 && whole == Sum(w)
    requires 2 * part >= |w| * (|w| - 1)
    ensures var s := Shares(w, part, whole);
      forall i :: 0 <= i < |w| ==> FixResidual(s, FirstLargest(s), part)[i] >= 0
  {
    LargestShare(w, part, whole);
    PatchedNonNegative(w, part, whole, FirstLargest(w));
    forall i | 0 <= i < |w| ensures HalfUp(part * w[i], whole) >= 0 {
      MulMonotone(part, 0, w[i]);
    }
  }

  /** No scaled row is negative once the part reaches n(n-1)/2 paise. */
  lemma ScaledRowsNonNegative(rows: seq<Row>, part: nat, whole: int)
    requires NonNegativeRows(rows) && rows != [] && whole > 0 && whole == Sum(Taxes(rows))
    requires 2 * part >= |rows| * (|rows| - 1)
    ensures NonNegativeRows(ScaledRows(rows, part, whole))
  {
    RoundedTaxes(rows, part, whole);
    FixedSharesNonNegative(Weights(rows), part, whole);
    var out := ScaledRows(rows, part, whole);
    forall i | 0 <= i < |out| ensures out[i].tax >= 0 {
      assert out[i].tax == Taxes(out)[i];
    }
  }

  lemma WholeTaxable(x: Option<int>, whole: int)
    requires whole > 0
    ensures ScaledTaxable(x, whole, whole) == x
  {
    if x.Some? {
      WholeUnitsStay(x.value, whole);
    }
  }

  /** Scaling by the whole changes nothing, so there is no residual to hand out. */
  lemma FullScaleIsIdentity(rows: seq<Row>, whole: int)
    requires rows != [] && whole > 0 && whole == Sum(Taxes(rows))
    ensures ScaledRows(rows, whole, whole) == rows
  {
    var rounded := RoundedRows(rows, whole, whole);
    forall i | 0 <= i < |rows| ensures rounded[i] == rows[i] {
      WholeUnitsStay(rows[i].tax, whole);
      WholeTaxable(rows[i].taxable, whole);
    }
    assert rounded == rows;
  }

  // ----- The refund credit note -----

  /** Per-slab GST a refund reverses, apportioned from the order's breakup. */
  function NoteRows(rows: seq<Row>, reversed: int): (out: seq<Row>) {
    if rows == [] || Sum(Taxes(rows)) <= 0 || reversed <= 0 then []
    else ScaledRows(rows, reversed, Sum(Taxes(rows)))
  }

  /** A refund that reverses no tax credits its value under the 0% slab. */
  function RefundNoteRows(rows: seq<Row>, amount: int, reversed: int): seq<Row> {
    var out := NoteRows(rows, reversed);
    if out == [] && amount > 0 then [Row(Some(0), Some(amount), 0)] else out
  }

  method RoundEachRow(rows: seq<Row>, part: nat, whole: int) returns (out: seq<Row>)
    requires whole > 0
    ensures out == RoundedRows(rows, part, whole)
  {
    out := [];
    for i := 0 to |rows|
      invariant out == RoundedRows(rows, part, whole)[..i]
    {
      out := out + [Row(rows[i].rate, ScaledTaxable(rows[i].taxable, part, whole), HalfUp(part * rows[i].tax, whole))];
    }
  }

  method GiveResidualToLargest(rows: seq<Row>, total: int) returns (out: seq<Row>)
    ensures out == if rows == [] then [] else PatchLargest(rows, total)
  {
    out := rows;
    var residual := total - Sum(Taxes(rows));
    if residual != 0 && rows != [] {
      var biggest := FirstLargest(Taxes(rows));
      out := rows[biggest := rows[biggest].(tax := rows[biggest].tax + residual)];
    }
  }

  method CreditNoteTaxRows(bill: Bill, shippingRate: nat, reversed: int) returns (out: seq<Row>)
    ensures out == NoteRows(Breakdown(bill, shippingRate), reversed)
  {
    var rows := OrderTaxBreakdown(bill, shippingRate);
    var charged := Sum(Taxes(rows));
    if rows == [] || charged <= 0 || reversed <= 0 {
      return [];
    }
    out := RoundEachRow(rows, reversed, charged);
    out := GiveResidualToLargest(out, reversed);
  }

  /** The credit note issued for a refund of `amount` that reversed `reversed`. */
  function RefundNote(invoice: TaxDocument, rows: seq<Row>, amount: int, reversed: int, issuedAt: int): TaxDocument {
    TaxDocument(issuedAt, amount, reversed, invoice.stateCode, invoice.interstate,
                SnapshotRows(RefundNoteRows(rows, amount, reversed), invoice.interstate))
  }

  function HeadSums(rows: seq<SnapRow>): (s: seq<int>)
    ensures |s| == |rows|
  {
    seq(|rows|, i requires 0 <= i < |rows| => rows[i].heads.Total())
  }

  /** Dropping the negative entries keeps a sum exactly when there are none. */
  lemma {:induction false} SumOfPositiveParts(t: seq<int>, h: seq<int>)
    requires |h| == |t| && forall i :: 0 <= i < |t| ==> h[i] == Max(t[i], 0)
    ensures Sum(h) >= Sum(t)
    ensures Sum(h) == Sum(t) <==> forall i :: 0 <= i < |t| ==> t[i] >= 0
  {
    if t != [] {
      var n := |t| - 1;
      SumOfPositiveParts(t[..n], h[..n]);
      if forall i :: 0 <= i < n ==> t[..n][i] >= 0 {
        assert forall i :: 0 <= i < n ==> t[i] == t[..n][i];
      }
    }
  }

  lemma HeadSumsArePositiveParts(rows: seq<Row>, interstate: bool)
    ensures var t, h := Taxes(rows), HeadSums(SnapshotRows(rows, interstate));
      forall i :: 0 <= i < |t| ==> h[i] == Max(t[i], 0)
  {
  }

  lemma HeadsOfRows(rows: seq<Row>, interstate: bool)
    ensures Sum(HeadSums(SnapshotRows(rows, interstate))) == Sum(Taxes(rows)) <==> NonNegativeRows(rows)
  {
    HeadSumsArePositiveParts(rows, interstate);
    NonNegativeTaxes(rows, Taxes(rows));
    SumOfPositiveParts(Taxes(rows), HeadSums(SnapshotRows(rows, interstate)));
  }

  lemma NonNegativeTaxes(rows: seq<Row>, t: seq<int>)
    requires t == Taxes(rows)
    ensures NonNegativeRows(rows) <==> forall i :: 0 <= i < |t| ==> t[i] >= 0
  {
    if forall i :: 0 <= i < |t| ==> t[i] >= 0 {
      forall i | 0 <= i < |rows| ensures rows[i].tax >= 0 {
        assert t[i] >= 0;
      }
    }
  }

  /** The rows of a document carry its tax, and its heads add up to that tax. */
  predicate Reconciled(d: TaxDocument) {
    Sum(HeadSums(d.rows)) == d.totalTax
  }

  /** Credit-note residual fix: for any order and any reversed tax, the rows sum to the reversed tax
      exactly; no row is negative once it reaches n(n-1)/2 paise; and the heads add up to the note's
      tax exactly when no row is negative. */
  lemma RefundNoteReconciles(invoice: TaxDocument, bill: Bill, shippingRate: nat, amount: int, reversed: int, at: int)
    requires reversed > 0 && Sum(Taxes(Breakdown(bill, shippingRate))) > 0
    ensures NonNegativeRows(Breakdown(bill, shippingRate))
    ensures var rows := Breakdown(bill, shippingRate);
      var n, out := |rows|, RefundNoteRows(rows, amount, reversed);
      && Sum(Taxes(out)) == reversed
      && (2 * reversed >= n * (n - 1) ==> NonNegativeRows(out))
      && (Reconciled(RefundNote(invoice, rows, amount, reversed, at)) <==> NonNegativeRows(out))
  {
    BreakdownTotal(bill, shippingRate);
    var rows := Breakdown(bill, shippingRate);
    var charged := Sum(Taxes(rows));
    var out := RefundNoteRows(rows, amount, reversed);
    assert rows != [];
    assert out == ScaledRows(rows, reversed, charged);
    PatchedRowsSum(RoundedRows(rows, reversed, charged), reversed);
    if 2 * reversed >= |rows| * (|rows| - 1) {
      ScaledRowsNonNegative(rows, reversed, charged);
    }
    HeadsOfRows(out, invoice.interstate);
  }

  /** The invoice of every order checkout can write is reconciled. */
  lemma PlacedInvoiceReconciles(cart: seq<CartLine>, coupon: Option<Coupon>, policy: Policy, code: string,
                                seller: string, at: int)
    ensures Reconciled(InvoiceFor(PriceCart(cart, coupon, policy), policy.shippingRate, code, seller, at))
  {
    var bill := PriceCart(cart, coupon, policy);
    PlacedOrderReconciles(cart, coupon, policy);
    BreakdownTotal(bill, policy.shippingRate);
    HeadsOfRows(Breakdown(bill, policy.shippingRate), IsInterstate(code, seller));
  }

  /** Full reversal: for every order checkout can write that charged any GST, refunding it whole in
      one go produces a credit note with the invoice's own rows, slab by slab and head by head. */
  lemma FullRefundMirrorsInvoice(cart: seq<CartLine>, coupon: Option<Coupon>, policy: Policy, code: string,
                                 seller: string, at: int, later: int)
    requires PriceCart(cart, coupon, policy).total > 0 && PriceCart(cart, coupon, policy).TotalTax() > 0
    ensures var bill := PriceCart(cart, coupon, policy);
      var rows := Breakdown(bill, policy.shippingRate);
      var invoice := InvoiceFor(bill, policy.shippingRate, code, seller, at);
      && NonNegativeRows(rows)
      && RefundNote(invoice, rows, bill.total, RefundTaxFor(bill, 0, bill.total), later) == invoice.(issuedAt := later)
  {
    var bill := PriceCart(cart, coupon, policy);
    var rows := Breakdown(bill, policy.shippingRate);
    FullRefundOfPlacedOrder(cart, coupon, policy);
    PlacedOrderReconciles(cart, coupon, policy);
    BreakdownTotal(bill, policy.shippingRate);
    FullScaleIsIdentity(rows, bill.TotalTax());
  }

  // ----- The cancellation credit note -----

  /** With no tax on the invoice the scale is zero: every value is scaled to nothing. */
  function ZeroedRows(rows: seq<Row>): (out: seq<Row>)
    ensures |out| == |rows|
  {
    seq(|rows|, i requires 0 <= i < |rows| => Row(rows[i].rate, if rows[i].taxable.Some? then Some(0) else None, 0))
  }

  /** Rows of the note that cancels what is left of an invoice: its own rows scaled by the tax left. */
  function CancellationRows(rows: seq<Row>, remaining: nat, invoiceTax: int): seq<Row> {
    if rows == [] then []
    else PatchLargest(if invoiceTax > 0 then RoundedRows(rows, remaining, invoiceTax) else ZeroedRows(rows), remaining)
  }

  method CancellationNoteRows(rows: seq<Row>, remaining: nat, invoiceTax: int) returns (scaled: seq<Row>)
    ensures scaled == CancellationRows(rows, remaining, invoiceTax)
  {
    if invoiceTax > 0 {
      scaled := RoundEachRow(rows, remaining, invoiceTax);
    } else {
      scaled := [];
      for i := 0 to |rows|
        invariant scaled == ZeroedRows(rows)[..i]
      {
        scaled := scaled + [Row(rows[i].rate, if rows[i].taxable.Some? then Some(0) else None, 0)];
      }
    }
    assert scaled == if invoiceTax > 0 then RoundedRows(rows, remaining, invoiceTax) else ZeroedRows(rows);
    assert scaled == [] <==> rows == [];
    scaled := GiveResidualToLargest(scaled, remaining);
  }

  lemma CancellationRowsReconcile(rows: seq<Row>, remaining: nat, invoiceTax: int)
    requires NonNegativeRows(rows) && invoiceTax > 0 && invoiceTax == Sum(Taxes(rows))
    ensures var out := CancellationRows(rows, remaining, invoiceTax);
      && Sum(Taxes(out)) == remaining
      && (2 * remaining >= |rows| * (|rows| - 1) ==> NonNegativeRows(out))
      && (remaining == invoiceTax ==> out == rows)
  {
    assert rows != [];
    PatchedRowsSum(RoundedRows(rows, remaining, invoiceTax), remaining);
    if 2 * remaining >= |rows| * (|rows| - 1) {
      ScaledRowsNonNegative(rows, remaining, invoiceTax);
    }
    if remaining == invoiceTax {
      FullScaleIsIdentity(rows, invoiceTax);
    }
  }

  /** The note that cancels what is left of an invoice. */
  function CancellationNote(invoice: TaxDocument, rows: seq<Row>, amountLeft: int, taxLeft: nat,
                            issuedAt: int): TaxDocument {
    TaxDocument(issuedAt, amountLeft, taxLeft, invoice.stateCode, invoice.interstate,
                SnapshotRows(CancellationRows(rows, taxLeft, invoice.totalTax), invoice.interstate))
  }

  /** A cancellation note's rows sum to the tax left on the invoice, are non-negative once it reaches n(n-1)/2
      paise, and repeat the invoice row for row when nothing was credited before; and its heads add up to its
      tax exactly when no row is negative. */
  lemma CancellationReconciles(invoice: TaxDocument, rows: seq<Row>, amountLeft: int, taxLeft: nat, at: int)
    requires NonNegativeRows(rows) && invoice.totalTax > 0 && invoice.totalTax == Sum(Taxes(rows))
    ensures var out := CancellationRows(rows, taxLeft, invoice.totalTax);
      && Sum(Taxes(out)) == taxLeft
      && (2 * taxLeft >= |rows| * (|rows| - 1) ==> NonNegativeRows(out))
      && (taxLeft == invoice.totalTax ==> out == rows)
      && (Reconciled(CancellationNote(invoice, rows, amountLeft, taxLeft, at)) <==> NonNegativeRows(out))
  {
    CancellationRowsReconcile(rows, taxLeft, invoice.totalTax);
    HeadsOfRows(CancellationRows(rows, taxLeft, invoice.totalTax), invoice.interstate);
  }

  predicate NoSlabValue(rows: seq<Row>) {
    forall i :: 0 <= i < |rows| ==> rows[i].taxable.None? || rows[i].taxable.value == 0
  }

  lemma NothingTaxed(rows: seq<Row>)
    requires NonNegativeRows(rows) && Sum(Taxes(rows)) == 0
    ensures forall i :: 0 <= i < |rows| ==> rows[i].tax == 0
  {
    SumNonNegative(Taxes(rows));
  }

  lemma ExemptCancellation(rows: seq<Row>)
    ensures CancellationRows(rows, 0, 0) == ZeroedRows(rows)
  {
    AllZero(Taxes(ZeroedRows(rows)));
  }

  /** With nothing credited before, a cancellation note repeats its invoice row for row exactly when the
      invoice carried GST or had no slab value: an invoice of exempt goods has its money credited, but none
      of the value it reported at 0%. */
  lemma CancellationMirrorsExactly(rows: seq<Row>, invoiceTax: nat)
    requires NonNegativeRows(rows) && invoiceTax == Sum(Taxes(rows))
    ensures CancellationRows(rows, invoiceTax, invoiceTax) == rows <==> invoiceTax > 0 || NoSlabValue(rows)
  {
    if invoiceTax > 0 {
      CancellationRowsReconcile(rows, invoiceTax, invoiceTax);
    } else {
      ExemptCancellation(rows);
      NothingTaxed(rows);
      var out := ZeroedRows(rows);
      if !NoSlabValue(rows) {
        var i :| 0 <= i < |rows| && rows[i].taxable.Some? && rows[i].taxable.value != 0;
        assert out[i] != rows[i];
      }
    }
  }
}
