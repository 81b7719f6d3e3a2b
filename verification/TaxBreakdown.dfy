/** The GST breakup of a placed order and the GST contained in a refund of it. */
module TaxBreakdown {
  import opened Money
  import opened Orders
  import opened Pricing

  function ComponentLines(rows: seq<Component>): (lines: seq<TaxLine>)
    ensures |lines| == |rows|
  {
    seq(|rows|, i requires 0 <= i < |rows| => TaxLine(rows[i].amount, rows[i].rate))
  }

  predicate IsLegacyItem(item: OrderItem) {
    item.components == [] && item.rate <= 0 && item.tax > 0
  }

  /** What one stored line contributes to the slabs. */
  function ItemLines(item: OrderItem): seq<TaxLine> {
    if item.components != [] then ComponentLines(item.components)
    else if IsLegacyItem(item) then []
    else [TaxLine(item.finalPrice, item.rate)]
  }

  function LinesOf(items: seq<OrderItem>): seq<TaxLine> {
    if items == [] then [] else LinesOf(items[..|items| - 1]) + ItemLines(items[|items| - 1])
  }

  /** Tax stored on lines that never recorded a rate. */
  function LegacyTax(items: seq<OrderItem>): (t: int)
    ensures t >= 0
  {
    if items == [] then 0
    else
      var last := items[|items| - 1];
      LegacyTax(items[..|items| - 1]) + if IsLegacyItem(last) then last.tax else 0
  }

  function DeliveryLines(bill: Bill, shippingRate: nat): seq<TaxLine> {
    if bill.shippingTax > 0 then [TaxLine(bill.shippingCharge + bill.shippingTax, shippingRate)] else []
  }

  function AllLines(bill: Bill, shippingRate: nat): seq<TaxLine> {
    LinesOf(bill.items) + DeliveryLines(bill, shippingRate)
  }

  function Attributed(bill: Bill, shippingRate: nat): int {
    Sum(Taxes(SlabRows(AllLines(bill, shippingRate)))) + LegacyTax(bill.items)
  }

  /** Tax the breakup must report without a rate. */
  function Unexplained(bill: Bill, shippingRate: nat): (t: int)
    ensures t >= 0
  {
    LegacyTax(bill.items) + Max(0, bill.TotalTax() - Attributed(bill, shippingRate))
  }

  /** The per-slab GST breakup of a placed order, with an unattributed row when needed. */
  function Breakdown(bill: Bill, shippingRate: nat): (rows: seq<Row>) {
    SlabRows(AllLines(bill, shippingRate)) +
    if Unexplained(bill, shippingRate) > 0 then [Row(None, None, Unexplained(bill, shippingRate))] else []
  }

  lemma OneMoreItem(items: seq<OrderItem>, i: nat)
    requires i < |items|
    ensures LinesOf(items[..i + 1]) == LinesOf(items[..i]) + ItemLines(items[i])
    ensures LegacyTax(items[..i + 1]) == LegacyTax(items[..i]) + if IsLegacyItem(items[i]) then items[i].tax else 0
  {
    assert items[..i + 1][..i] == items[..i];
  }

  method CollectLines(items: seq<OrderItem>) returns (lines: seq<TaxLine>, legacyTax: int)
    ensures lines == LinesOf(items) && legacyTax == LegacyTax(items)
  {
    lines, legacyTax := [], 0;
    for i := 0 to |items|
      invariant lines == LinesOf(items[..i])
      invariant legacyTax == LegacyTax(items[..i])
    {
      OneMoreItem(items, i);
      var item := items[i];
      if item.components != [] {
        lines := lines + ComponentLines(item.components);
      } else if item.rate <= 0 && item.tax > 0 {
        legacyTax := legacyTax + item.tax;
      } else {
        lines := lines + [TaxLine(item.finalPrice, item.rate)];
      }
    }
    assert items[..|items|] == items;
  }

  /** Adds to the tax without a rate whatever was charged and no row accounts for. */
  method AddUnattributed(bill: Bill, slabTax: int, legacyTax: int) returns (t: int)
    ensures t == legacyTax + Max(0, bill.TotalTax() - (slabTax + legacyTax))
  {
    var attributed := slabTax + legacyTax;
    var unattributed := bill.tax + bill.shippingTax - attributed;
    if unattributed < 0 {
      unattributed := 0;
    }
    t := legacyTax + unattributed;
  }

  method CollectAllLines(bill: Bill, shippingRate: nat) returns (lines: seq<TaxLine>, legacyTax: int)
    ensures lines == AllLines(bill, shippingRate) && legacyTax == LegacyTax(bill.items)
  {
    lines, legacyTax := CollectLines(bill.items);
    if bill.shippingTax > 0 {
      lines := lines + [TaxLine(bill.shippingCharge + bill.shippingTax, shippingRate)];
    }
  }

  method OrderTaxBreakdown(bill: Bill, shippingRate: nat) returns (rows: seq<Row>)
    ensures rows == Breakdown(bill, shippingRate)
  {
    var lines, legacyTax := CollectAllLines(bill, shippingRate);
    rows := GroupTaxByRate(lines);
    legacyTax := AddUnattributed(bill, Sum(Taxes(rows)), legacyTax);
    if legacyTax > 0 {
      rows := rows + [Row(None, None, legacyTax)];
    }
  }

  // ----- Reconciliation -----

  lemma OneMoreRow(rows: seq<Row>, row: Row)
    ensures Sum(Taxes(rows + [row])) == Sum(Taxes(rows)) + row.tax
  {
    assert Taxes(rows + [row])[..|rows|] == Taxes(rows);
  }

  /** For any stored order, old ones included, the rows sum to the larger of the tax its lines
      explain and the tax it charged, and no row is negative. */
  lemma BreakdownTotal(bill: Bill, shippingRate: nat)
    ensures var rows := Breakdown(bill, shippingRate);
      && Sum(Taxes(rows)) == Max(Attributed(bill, shippingRate), bill.TotalTax())
      && forall i :: 0 <= i < |rows| ==> rows[i].tax >= 0
  {
    var slabs := SlabRows(AllLines(bill, shippingRate));
    var rest := Unexplained(bill, shippingRate);
    SlabRowsNonNegative(AllLines(bill, shippingRate));
    if rest > 0 {
      OneMoreRow(slabs, Row(None, None, rest));
    } else {
      assert slabs + [] == slabs;
    }
  }

  /** A line whose stored tax is the tax its own stored amounts and rates give back. */
  predicate ItemTaxed(item: OrderItem) {
    if item.components != [] then
      && item.tax == Sum(ComponentTaxes(item.components))
      && forall i :: 0 <= i < |item.components| ==>
           item.components[i].tax == ExtractTax(item.components[i].amount, item.components[i].rate)
    else item.tax == ExtractTax(item.finalPrice, item.rate)
  }

  function ItemTaxes(items: seq<OrderItem>): (s: seq<int>)
    ensures |s| == |items|
  {
    seq(|items|, i requires 0 <= i < |items| => items[i].tax)
  }

  /** The header agrees with the lines and the delivery fee, as checkout writes them. */
  predicate TaxConsistent(bill: Bill, shippingRate: nat) {
    && (forall i :: 0 <= i < |bill.items| ==> ItemTaxed(bill.items[i]))
    && bill.tax == Sum(ItemTaxes(bill.items))
    && bill.shippingTax == AddTax(bill.shippingCharge, shippingRate)
  }

  lemma ExtractedConcat(a: seq<TaxLine>, b: seq<TaxLine>)
    ensures Sum(ExtractedTaxes(a + b)) == Sum(ExtractedTaxes(a)) + Sum(ExtractedTaxes(b))
  {
    assert ExtractedTaxes(a + b) == ExtractedTaxes(a) + ExtractedTaxes(b);
    SumConcat(ExtractedTaxes(a), ExtractedTaxes(b));
  }

  lemma ItemLinesTax(item: OrderItem)
    requires ItemTaxed(item)
    ensures Sum(ExtractedTaxes(ItemLines(item))) == item.tax && !IsLegacyItem(item)
  {
    if item.components != [] {
      assert ExtractedTaxes(ItemLines(item)) == ComponentTaxes(item.components);
    } else {
      assert ExtractedTaxes(ItemLines(item)) == [item.tax];
      assert Sum([item.tax]) == item.tax;
    }
  }

  lemma {:induction false} LinesTax(items: seq<OrderItem>)
    requires forall i :: 0 <= i < |items| ==> ItemTaxed(items[i])
    ensures Sum(ExtractedTaxes(LinesOf(items))) == Sum(ItemTaxes(items))
    ensures LegacyTax(items) == 0
  {
    if items != [] {
      var n := |items| - 1;
      LinesTax(items[..n]);
      ItemLinesTax(items[n]);
      ExtractedConcat(LinesOf(items[..n]), ItemLines(items[n]));
      assert ItemTaxes(items)[..n] == ItemTaxes(items[..n]);
    }
  }

  lemma DeliveryLinesTax(bill: Bill, shippingRate: nat)
    requires bill.shippingTax == AddTax(bill.shippingCharge, shippingRate)
    ensures Sum(ExtractedTaxes(DeliveryLines(bill, shippingRate))) == bill.shippingTax
  {
    TaxOnTopIsRecovered(bill.shippingCharge, shippingRate);
    if bill.shippingTax > 0 {
      assert ExtractedTaxes(DeliveryLines(bill, shippingRate)) == [bill.shippingTax];
      assert Sum([bill.shippingTax]) == bill.shippingTax;
    }
  }

  lemma LinesExplainEverything(bill: Bill, shippingRate: nat)
    requires TaxConsistent(bill, shippingRate)
    ensures Sum(Taxes(SlabRows(AllLines(bill, shippingRate)))) == bill.TotalTax()
  {
    LinesTax(bill.items);
    DeliveryLinesTax(bill, shippingRate);
    ExtractedConcat(LinesOf(bill.items), DeliveryLines(bill, shippingRate));
    SlabRowsKeepTax(AllLines(bill, shippingRate));
  }

  /** Breakup reconciliation: when the header agrees with the lines, the rows sum exactly to the
      order's GST, goods and delivery, and there is no unattributed row. */
  lemma BreakdownReconciles(bill: Bill, shippingRate: nat)
    requires TaxConsistent(bill, shippingRate)
    ensures Sum(Taxes(Breakdown(bill, shippingRate))) == bill.TotalTax()
    ensures Breakdown(bill, shippingRate) == SlabRows(AllLines(bill, shippingRate))
    ensures Attributed(bill, shippingRate) == bill.TotalTax()
  {
    LinesExplainEverything(bill, shippingRate);
    LinesTax(bill.items);
    var slabs := SlabRows(AllLines(bill, shippingRate));
    assert Breakdown(bill, shippingRate) == slabs;
  }

  // ----- GST contained in a refund -----

  /** The goods value a refund is taken from first. */
  function GoodsValue(bill: Bill): (g: int)
    ensures g >= 0
  {
    Max(bill.subtotal - bill.discount + (if bill.taxInclusive then 0 else bill.tax), 0)
  }

  function GoodsTaxReversed(bill: Bill, amount: int): int
    requires amount > 0
  {
    if GoodsValue(bill) > 0 && bill.tax > 0
    then HalfUp(bill.tax * Min(amount, GoodsValue(bill)), GoodsValue(bill))
    else 0
  }

  function DeliveryTaxReversed(bill: Bill, amount: int): int {
    var gross := bill.shippingCharge + bill.shippingTax;
    var returned := Min(Max(amount - GoodsValue(bill), 0), gross);
    if bill.shippingTax > 0 && gross > 0 && returned > 0
    then HalfUp(bill.shippingTax * returned, gross)
    else 0
  }

  /** GST contained in a refund of `amount`, capped at the tax not yet reversed. */
  function RefundTaxFor(bill: Bill, alreadyReversed: int, amount: int): (t: int)
    ensures 0 <= t <= Max(bill.TotalTax() - alreadyReversed, 0)
  {
    if amount <= 0 || (bill.tax <= 0 && bill.shippingTax <= 0) then 0
    else
      var tax := GoodsTaxReversed(bill, amount) + DeliveryTaxReversed(bill, amount);
      Max(Min(tax, bill.TotalTax() - alreadyReversed), 0)
  }

  lemma GoodsTaxMonotone(bill: Bill, a: int, b: int)
    requires 0 < a <= b
    ensures 0 <= GoodsTaxReversed(bill, a) <= GoodsTaxReversed(bill, b)
  {
    var g := GoodsValue(bill);
    if g > 0 && bill.tax > 0 {
      MulMonotone(bill.tax, 0, Min(a, g));
      MulMonotone(bill.tax, Min(a, g), Min(b, g));
      HalfUpMonotone(bill.tax * Min(a, g), bill.tax * Min(b, g), g);
    }
  }

  lemma DeliveryTaxMonotone(bill: Bill, a: int, b: int)
    requires 0 < a <= b
    ensures 0 <= DeliveryTaxReversed(bill, a) <= DeliveryTaxReversed(bill, b)
  {
    var g, gross := GoodsValue(bill), bill.shippingCharge + bill.shippingTax;
    var x, y := Min(Max(a - g, 0), gross), Min(Max(b - g, 0), gross);
    if bill.shippingTax > 0 && gross > 0 {
      MulMonotone(bill.shippingTax, 0, x);
      MulMonotone(bill.shippingTax, x, y);
      HalfUpMonotone(bill.shippingTax * x, bill.shippingTax * y, gross);
    }
  }

  /** Refunding more never reverses less tax. */
  lemma RefundTaxMonotone(bill: Bill, already: int, a: int, b: int)
    requires a <= b
    ensures RefundTaxFor(bill, already, a) <= RefundTaxFor(bill, already, b)
  {
    if a > 0 {
      GoodsTaxMonotone(bill, a, b);
      DeliveryTaxMonotone(bill, a, b);
    }
  }

  lemma GoodsTaxWithinGoods(bill: Bill, amount: int)
    requires amount > 0 && bill.tax <= GoodsValue(bill)
    ensures GoodsTaxReversed(bill, amount) <= Min(amount, GoodsValue(bill))
  {
    var g := GoodsValue(bill);
    if g > 0 && bill.tax > 0 {
      var k := Min(amount, g);
      MulMonotone(k, bill.tax, g);
      MulMonotone(bill.tax, 0, k);
      HalfUpAtMost(bill.tax * k, g, k);
    }
  }

  lemma DeliveryTaxWithinDelivery(bill: Bill, amount: int)
    requires amount > 0 && bill.shippingCharge >= 0
    ensures DeliveryTaxReversed(bill, amount) <= Max(amount - GoodsValue(bill), 0)
  {
    var gross := bill.shippingCharge + bill.shippingTax;
    var x := Min(Max(amount - GoodsValue(bill), 0), gross);
    if bill.shippingTax > 0 && gross > 0 && x > 0 {
      MulMonotone(x, bill.shippingTax, gross);
      MulMonotone(bill.shippingTax, 0, x);
      HalfUpAtMost(bill.shippingTax * x, gross, x);
    }
  }

  lemma ModestTaxStaysWithin(bill: Bill, already: int, amount: int)
    requires bill.shippingCharge >= 0 && amount > 0
    requires GoodsValue(bill) > 0 ==> bill.tax <= GoodsValue(bill)
    ensures RefundTaxFor(bill, already, amount) <= amount
  {
    DeliveryTaxWithinDelivery(bill, amount);
    if GoodsValue(bill) > 0 {
      GoodsTaxWithinGoods(bill, amount);
    }
  }

  lemma ExcessiveTaxOverreaches(bill: Bill)
    requires 0 < GoodsValue(bill) < bill.tax && bill.shippingTax >= 0
    ensures RefundTaxFor(bill, 0, GoodsValue(bill)) > GoodsValue(bill)
  {
    var g := GoodsValue(bill);
    assert bill.tax * g == g * bill.tax;
    WholeUnitsStay(bill.tax, g);
    assert GoodsTaxReversed(bill, g) == bill.tax;
    assert DeliveryTaxReversed(bill, g) == 0;
  }

  /** Whatever was reversed before, no refund reverses more GST than the money it returns, exactly when
      the goods tax does not exceed a positive goods value. */
  lemma RefundTaxWithinRefund(bill: Bill)
    requires bill.shippingCharge >= 0 && bill.shippingTax >= 0
    ensures (forall already, amount :: already >= 0 && amount > 0 ==> RefundTaxFor(bill, already, amount) <= amount)
       <==> (GoodsValue(bill) > 0 ==> bill.tax <= GoodsValue(bill))
  {
    if GoodsValue(bill) > 0 && bill.tax > GoodsValue(bill) {
      ExcessiveTaxOverreaches(bill);
    } else {
      forall already, amount | already >= 0 && amount > 0 ensures RefundTaxFor(bill, already, amount) <= amount {
        ModestTaxStaysWithin(bill, already, amount);
      }
    }
  }

  lemma AllGoodsTaxReversed(bill: Bill, amount: int)
    requires amount > 0 && amount >= GoodsValue(bill) && bill.tax >= 0
    requires bill.tax > 0 ==> GoodsValue(bill) > 0
    ensures GoodsTaxReversed(bill, amount) == bill.tax
  {
    var g := GoodsValue(bill);
    if bill.tax > 0 {
      assert bill.tax * g == g * bill.tax;
      WholeUnitsStay(bill.tax, g);
    }
  }

  lemma AllDeliveryTaxReversed(bill: Bill, amount: int)
    requires bill.shippingCharge >= 0 && bill.shippingTax >= 0
    requires amount == GoodsValue(bill) + bill.shippingCharge + bill.shippingTax
    ensures DeliveryTaxReversed(bill, amount) == bill.shippingTax
  {
    var gross := bill.shippingCharge + bill.shippingTax;
    if bill.shippingTax > 0 {
      assert bill.shippingTax * gross == gross * bill.shippingTax;
      WholeUnitsStay(bill.shippingTax, gross);
    }
  }

  /** The first refund of the whole order reverses its goods and delivery tax exactly. */
  lemma FullRefundReversesEverything(bill: Bill)
    requires bill.taxInclusive && bill.total > 0
    requires bill.total == bill.subtotal - bill.discount + bill.shippingCharge + bill.shippingTax
    requires bill.subtotal - bill.discount >= 0 && bill.shippingCharge >= 0
    requires bill.tax >= 0 && bill.shippingTax >= 0
    requires bill.tax > 0 ==> bill.subtotal - bill.discount > 0
    ensures RefundTaxFor(bill, 0, bill.total) == bill.TotalTax()
  {
    AllGoodsTaxReversed(bill, bill.total);
    AllDeliveryTaxReversed(bill, bill.total);
  }

  // ----- Refunds by instalments -----

  /** GST contained in a refund of `amount` before the cap. */
  function TaxShare(bill: Bill, amount: int): (t: int)
    ensures t >= 0
  {
    if amount <= 0 then 0
    else
      GoodsTaxMonotone(bill, amount, amount);
      DeliveryTaxMonotone(bill, amount, amount);
      GoodsTaxReversed(bill, amount) + DeliveryTaxReversed(bill, amount)
  }

  function TaxShares(bill: Bill, amounts: seq<int>): (t: int)
    ensures t >= 0
  {
    if amounts == [] then 0
    else TaxShares(bill, amounts[..|amounts| - 1]) + TaxShare(bill, amounts[|amounts| - 1])
  }

  /** GST reversed after refunding the amounts one by one. */
  function ReversedBy(bill: Bill, amounts: seq<int>): int {
    if amounts == [] then 0
    else
      var already := ReversedBy(bill, amounts[..|amounts| - 1]);
      already + RefundTaxFor(bill, already, amounts[|amounts| - 1])
  }

  lemma OneMoreInstalment(bill: Bill, shares: int, amount: int)
    requires bill.tax >= 0 && bill.shippingTax >= 0 && shares >= 0
    ensures var already := Min(bill.TotalTax(), shares);
      already + RefundTaxFor(bill, already, amount) == Min(bill.TotalTax(), shares + TaxShare(bill, amount))
  {
  }

  /** Whatever the instalments, what they reverse is the sum of their own shares, cut off at the whole GST. */
  lemma {:induction false} InstalmentsReverse(bill: Bill, amounts: seq<int>)
    requires bill.tax >= 0 && bill.shippingTax >= 0
    ensures ReversedBy(bill, amounts) == Min(bill.TotalTax(), TaxShares(bill, amounts))
  {
    if amounts != [] {
      var n := |amounts| - 1;
      InstalmentsReverse(bill, amounts[..n]);
      OneMoreInstalment(bill, TaxShares(bill, amounts[..n]), amounts[n]);
    }
  }

  /** Instalments reverse the whole GST exactly when their shares, each rounded on its own, reach it. */
  lemma InstalmentsComplete(bill: Bill, amounts: seq<int>)
    requires bill.tax >= 0 && bill.shippingTax >= 0
    ensures ReversedBy(bill, amounts) == bill.TotalTax() <==> TaxShares(bill, amounts) >= bill.TotalTax()
  {
    InstalmentsReverse(bill, amounts);
  }
}
