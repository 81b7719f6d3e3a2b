/** The money of a checkout: line discounts, GST per line, delivery, the order header,
    and the cart summary and coupon preview quoted before it. */
module Checkout {
  import opened Money
  import opened Orders
  import opened Pricing
  import opened TaxBreakdown
  import opened Coupons

  function LineTotals(cart: seq<CartLine>): (s: seq<int>)
    ensures |s| == |cart|
  {
    seq(|cart|, i requires 0 <= i < |cart| => cart[i].Total())
  }

  function Subtotal(cart: seq<CartLine>): int {
    Sum(LineTotals(cart))
  }

  /** A line's share of the order discount, rounded half to even. */
  function LineDiscount(total: int, subtotal: int, discount: int): int {
    if discount > 0 && subtotal > 0 then HalfEven(total * discount, subtotal) else 0
  }

  /** Discounted unit price, rounded half to even before it is multiplied back. */
  function DiscountedUnit(line: CartLine, discount: int): int {
    HalfEven(line.Total() - discount, line.quantity)
  }

  function BoughtBy(line: CartLine): Bought {
    match line
    case ProductLine(p, v, _, _, _, _) => if v.Some? then BoughtVariant(p, v.value) else BoughtProduct(p)
    case ComboLine(c, _, _, _, _) => BoughtCombo(c)
  }

  function HsnOf(line: CartLine): string {
    if line.ProductLine? then line.hsn else ""
  }

  /** The order row of one cart line; `waived` is a coupon covering the whole subtotal. */
  function PriceLine(line: CartLine, subtotal: int, discount: int, waived: bool): (item: OrderItem)
    ensures ItemTaxed(item)
    ensures item.tax >= 0
  {
    if waived then
      OrderItem(BoughtBy(line), line.quantity, line.Total(), 0, 0, line.rate, HsnOf(line), 0, [])
    else
      var off := LineDiscount(line.Total(), subtotal, discount);
      var unit := DiscountedUnit(line, off);
      var final := unit * line.quantity;
      if line.ProductLine? then
        OrderItem(BoughtBy(line), line.quantity, off, unit, final, line.rate, HsnOf(line),
                  ExtractTax(final, line.rate), [])
      else
        var rows := ComboComponents(line.recipe, final, line.quantity);
        var tax := Sum(ComponentTaxes(rows));
        SumNonNegative(ComponentTaxes(rows));
        OrderItem(BoughtBy(line), line.quantity, off, unit, final, BlendedRate(final, tax), HsnOf(line), tax, rows)
  }

  function PriceLines(cart: seq<CartLine>, subtotal: int, discount: int, waived: bool): (items: seq<OrderItem>)
    ensures |items| == |cart|
  {
    seq(|cart|, i requires 0 <= i < |cart| => PriceLine(cart[i], subtotal, discount, waived))
  }

  function OrderDiscount(subtotal: int, coupon: Option<Coupon>): (d: int)
    ensures 0 <= d <= Max(subtotal, 0)
  {
    if coupon.Some? then DiscountFor(coupon.value, subtotal) else 0
  }

  predicate IsWaived(subtotal: int, coupon: Option<Coupon>) {
    coupon.Some? && subtotal - OrderDiscount(subtotal, coupon) <= 0
  }

  function ShippingFor(discounted: int, policy: Policy): nat {
    if discounted >= policy.freeShippingThreshold then 0 else policy.shippingFee
  }

  /** The order that checkout writes for a cart. */
  function PriceCart(cart: seq<CartLine>, coupon: Option<Coupon>, policy: Policy): (bill: Bill)
    ensures |bill.items| == |cart|
  {
    var subtotal := Subtotal(cart);
    var discount := OrderDiscount(subtotal, coupon);
    var waived := IsWaived(subtotal, coupon);
    var items := PriceLines(cart, subtotal, discount, waived);
    if waived then Bill(items, subtotal, subtotal, 0, 0, 0, 0, true)
    else
      var fee := ShippingFor(subtotal - discount, policy);
      var feeTax := AddTax(fee, policy.shippingRate);
      Bill(items, subtotal, discount, fee, feeTax, Sum(ItemTaxes(items)), subtotal - discount + fee + feeTax, true)
  }

  /** The money part of placing an order, line by line. */
  method PlaceOrder(cart: seq<CartLine>, coupon: Option<Coupon>, policy: Policy) returns (bill: Bill)
    ensures bill == PriceCart(cart, coupon, policy)
  {
    var subtotal := 0;
    for i := 0 to |cart|
      invariant subtotal == Sum(LineTotals(cart)[..i])
    {
      assert LineTotals(cart)[..i + 1][..i] == LineTotals(cart)[..i];
      subtotal := subtotal + cart[i].Total();
    }
    assert LineTotals(cart)[..|cart|] == LineTotals(cart);
    var discount := OrderDiscount(subtotal, coupon);
    var waived := coupon.Some? && subtotal - discount <= 0;
    var items, tax := PlaceLines(cart, subtotal, discount, waived);
    if waived {
      bill := Bill(items, subtotal, subtotal, 0, 0, 0, 0, true);
    } else {
      var fee := ShippingFor(subtotal - discount, policy);
      var feeTax := AddTax(fee, policy.shippingRate);
      bill := Bill(items, subtotal, discount, fee, feeTax, tax, subtotal - discount + fee + feeTax, true);
    }
  }

  method PlaceLines(cart: seq<CartLine>, subtotal: int, discount: int, waived: bool)
    returns (items: seq<OrderItem>, tax: int)
    ensures items == PriceLines(cart, subtotal, discount, waived)
    ensures tax == Sum(ItemTaxes(items))
  {
    items, tax := [], 0;
    ghost var all := PriceLines(cart, subtotal, discount, waived);
    for i := 0 to |cart|
      invariant items == all[..i]
      invariant tax == Sum(ItemTaxes(items))
    {
      var item := PriceLine(cart[i], subtotal, discount, waived);
      NextItem(all, i, item);
      items := items + [item];
      tax := tax + item.tax;
    }
  }

  lemma NextItem(all: seq<OrderItem>, i: nat, item: OrderItem)
    requires i < |all| && all[i] == item
    ensures all[..i + 1] == all[..i] + [item]
    ensures Sum(ItemTaxes(all[..i + 1])) == Sum(ItemTaxes(all[..i])) + item.tax
  {
    assert all[..i + 1] == all[..i] + [item];
    OneMoreTax(all[..i], item);
  }

  lemma OneMoreTax(items: seq<OrderItem>, item: OrderItem)
    ensures Sum(ItemTaxes(items + [item])) == Sum(ItemTaxes(items)) + item.tax
  {
    assert ItemTaxes(items + [item])[..|items|] == ItemTaxes(items);
  }

  // ----- What a placed order satisfies -----

  lemma {:induction false} AllZero(s: seq<int>)
    requires forall i :: 0 <= i < |s| ==> s[i] == 0
    ensures Sum(s) == 0
  {
    if s != [] {
      AllZero(s[..|s| - 1]);
    }
  }

  /** Every order checkout can write reconciles with its own breakup, whatever the cart and coupon:
      the slab rows sum to goods plus delivery GST and nothing is left unattributed. */
  lemma PlacedOrderReconciles(cart: seq<CartLine>, coupon: Option<Coupon>, policy: Policy)
    ensures var bill := PriceCart(cart, coupon, policy);
      && TaxConsistent(bill, policy.shippingRate)
      && Sum(Taxes(Breakdown(bill, policy.shippingRate))) == bill.TotalTax()
      && Breakdown(bill, policy.shippingRate) == SlabRows(AllLines(bill, policy.shippingRate))
  {
    var bill := PriceCart(cart, coupon, policy);
    if IsWaived(Subtotal(cart), coupon) {
      AllZero(ItemTaxes(bill.items));
    }
    assert TaxConsistent(bill, policy.shippingRate);
    BreakdownReconciles(bill, policy.shippingRate);
  }

  lemma FreeLine(line: CartLine)
    requires line.Total() == 0
    ensures PriceLine(line, 0, 0, false).tax == 0
  {
    FreeUnit(line);
  }

  lemma FreeUnit(line: CartLine)
    requires line.Total() == 0
    ensures DiscountedUnit(line, 0) == 0
  {
    WholeUnitsStay(0, line.quantity);
    assert line.quantity * 0 == 0;
  }

  lemma NothingToTax(cart: seq<CartLine>)
    requires Subtotal(cart) == 0
    ensures Sum(ItemTaxes(PriceLines(cart, 0, 0, false))) == 0
  {
    SumNonNegative(LineTotals(cart));
    forall i | 0 <= i < |cart| ensures ItemTaxes(PriceLines(cart, 0, 0, false))[i] == 0 {
      assert LineTotals(cart)[i] == 0;
      FreeLine(cart[i]);
    }
    AllZero(ItemTaxes(PriceLines(cart, 0, 0, false)));
  }

  lemma PlacedOrderShape(cart: seq<CartLine>, coupon: Option<Coupon>, policy: Policy)
    ensures var bill := PriceCart(cart, coupon, policy);
      && bill.taxInclusive && bill.tax >= 0 && bill.shippingTax >= 0 && bill.shippingCharge >= 0
      && 0 <= bill.discount <= bill.subtotal
      && bill.total == bill.subtotal - bill.discount + bill.shippingCharge + bill.shippingTax
      && (bill.tax > 0 ==> bill.subtotal > bill.discount)
  {
    var subtotal := Subtotal(cart);
    SumNonNegative(LineTotals(cart));
    var discount := OrderDiscount(subtotal, coupon);
    SumNonNegative(ItemTaxes(PriceLines(cart, subtotal, discount, false)));
    if subtotal == 0 && coupon.None? {
      NothingToTax(cart);
    }
  }

  /** For every order checkout can write, the first full refund reverses exactly its whole GST. */
  lemma FullRefundOfPlacedOrder(cart: seq<CartLine>, coupon: Option<Coupon>, policy: Policy)
    requires PriceCart(cart, coupon, policy).total > 0
    ensures var bill := PriceCart(cart, coupon, policy);
      RefundTaxFor(bill, 0, bill.total) == bill.TotalTax()
  {
    PlacedOrderShape(cart, coupon, policy);
    FullRefundReversesEverything(PriceCart(cart, coupon, policy));
  }

  // ----- Instalments of a placed order -----

  lemma SevenRupeesInThirds(bill: Bill)
    requires bill.subtotal == 210 && bill.discount == 0 && bill.tax == 10 && bill.taxInclusive
    requires bill.shippingCharge == 0 && bill.shippingTax == 0
    ensures TaxShare(bill, 70) == 3 && TaxShares(bill, [70, 70, 70]) == 9
  {
    HalfUpIs(700, 210, 3);
    assert [70, 70, 70][..2] == [70, 70] && [70, 70][..1] == [70] && [70][..0] == [];
    assert TaxShares(bill, [70]) == 3;
    assert TaxShares(bill, [70, 70]) == 6;
  }

  /** Instalments need not reverse the whole: an order of 2.10 with 0.10 of GST, refunded in three equal
      parts, has the money back in full and one paisa of GST unreversed. */
  lemma InstalmentsNeedNotAddUp()
    ensures var bill := PriceCart([ProductLine(0, None, 210, 1, 500, "")], None, Policy(0, 0, 1800, 500));
      && bill.total == Sum([70, 70, 70]) && bill.TotalTax() == 10
      && ReversedBy(bill, [70, 70, 70]) == 9
  {
    var line := ProductLine(0, None, 210, 1, 500, "");
    var cart := [line];
    var bill := PriceCart(cart, None, Policy(0, 0, 1800, 500));
    assert LineTotals(cart) == [210] && [210][..0] == [];
    assert Subtotal(cart) == 210;
    OneLineTax(bill, line);
    SevenRupeesInThirds(bill);
    InstalmentsReverse(bill, [70, 70, 70]);
    ThreeTimes(70);
  }

  lemma ThreeTimes(x: int)
    ensures Sum([x, x, x]) == 3 * x
  {
    assert [x, x, x][..2] == [x, x] && [x, x][..1] == [x] && [x][..0] == [];
    assert Sum([x]) == x;
    assert Sum([x, x]) == 2 * x;
  }

  lemma OneLineTax(bill: Bill, line: CartLine)
    requires line == ProductLine(0, None, 210, 1, 500, "") && bill.items == PriceLines([line], 210, 0, false)
    ensures Sum(ItemTaxes(bill.items)) == 10
  {
    UndiscountedLine(line, 210);
    assert line.Total() == 210;
    HalfUpIs(210 * 500, 10500, 10);
    assert ItemTaxes(bill.items) == [10] && [10][..0] == [];
  }

  // ----- Rounding drift of a proportional discount -----

  function Finals(items: seq<OrderItem>): (s: seq<int>)
    ensures |s| == |items|
  {
    seq(|items|, i requires 0 <= i < |items| => items[i].finalPrice)
  }

  function Discounts(items: seq<OrderItem>): (s: seq<int>)
    ensures |s| == |items|
  {
    seq(|items|, i requires 0 <= i < |items| => items[i].discount)
  }

  function Quantities(cart: seq<CartLine>): (s: seq<int>)
    ensures |s| == |cart|
  {
    seq(|cart|, i requires 0 <= i < |cart| => cart[i].quantity)
  }

  lemma DividedBound(subtotal: int, x: int, n: int)
    requires subtotal > 0 && -(subtotal * n) <= subtotal * x <= subtotal * n
    ensures -n <= x <= n
  {
    MultiplesApart(subtotal, n, x);
    MultiplesApart(subtotal, x, -n);
    MulNegate(subtotal, n);
  }

  lemma DiscountShareError(total: int, subtotal: int, discount: int)
    requires subtotal > 0
    ensures -subtotal <= (2 * discount) * total - (2 * subtotal) * HalfEven(total * discount, subtotal) <= subtotal
  {
    assert (2 * discount) * total == 2 * (total * discount);
    var h := HalfEven(total * discount, subtotal);
    assert (2 * subtotal) * h == 2 * (subtotal * h);
  }

  lemma DiscountErrorsAddUp(totals: seq<int>, shares: seq<int>, subtotal: int, discount: int)
    requires subtotal > 0 && |shares| == |totals|
    requires forall i :: 0 <= i < |totals| ==> shares[i] == HalfEven(totals[i] * discount, subtotal)
    ensures -(subtotal * |totals|) <= (2 * discount) * Sum(totals) - (2 * subtotal) * Sum(shares) <= subtotal * |totals|
  {
    var n := |totals|;
    var exact := seq(n, i requires 0 <= i < n => (2 * discount) * totals[i]);
    var given := seq(n, i requires 0 <= i < n => (2 * subtotal) * shares[i]);
    var errors := seq(n, i requires 0 <= i < n => exact[i] - given[i]);
    var bounds := seq(n, i => subtotal);
    SumScaled(totals, 2 * discount, exact);
    SumScaled(shares, 2 * subtotal, given);
    SumDifference(exact, given, errors);
    forall i | 0 <= i < n ensures -bounds[i] <= errors[i] <= bounds[i] {
      DiscountShareError(totals[i], subtotal, discount);
    }
    SumBounded(errors, bounds);
    SumConstant(n, subtotal);
  }

  lemma SharesDrift(subtotal: int, discount: int, given: int, n: int)
    requires subtotal > 0
    requires -(subtotal * n) <= (2 * discount) * subtotal - (2 * subtotal) * given <= subtotal * n
    ensures -n <= 2 * given - 2 * discount <= n
  {
    DiscountArithmetic(subtotal, discount, given);
    DividedBound(subtotal, 2 * discount - 2 * given, n);
  }

  /** The line discounts add up to the order discount within half a paisa per line. */
  lemma DiscountSharesDrift(cart: seq<CartLine>, discount: int)
    requires 0 <= discount <= Subtotal(cart)
    ensures -|cart| <= 2 * Sum(Discounts(PriceLines(cart, Subtotal(cart), discount, false))) - 2 * discount <= |cart|
  {
    var shares := Discounts(PriceLines(cart, Subtotal(cart), discount, false));
    if discount == 0 {
      AllZero(shares);
    } else {
      DiscountErrorsAddUp(LineTotals(cart), shares, Subtotal(cart), discount);
      SharesDrift(Subtotal(cart), discount, Sum(shares), |cart|);
    }
  }

  lemma DiscountArithmetic(subtotal: int, discount: int, given: int)
    ensures (2 * discount) * subtotal - (2 * subtotal) * given == subtotal * (2 * discount - 2 * given)
  {
  }

  /** Rounding the unit price moves a line by at most half a paisa per unit. */
  lemma UnitRoundingDrift(cart: seq<CartLine>, discount: int)
    ensures var items := PriceLines(cart, Subtotal(cart), discount, false);
      var drift := 2 * (Subtotal(cart) - Sum(Discounts(items))) - 2 * Sum(Finals(items));
      -Sum(Quantities(cart)) <= drift <= Sum(Quantities(cart))
  {
    var items, n := PriceLines(cart, Subtotal(cart), discount, false), |cart|;
    var totals, offs, finals := LineTotals(cart), Discounts(items), Finals(items);
    var net := seq(n, i requires 0 <= i < n => totals[i] - offs[i]);
    SumDifference(totals, offs, net);
    var gaps := seq(n, i requires 0 <= i < n => net[i] - finals[i]);
    SumDifference(net, finals, gaps);
    var doubled := seq(n, i requires 0 <= i < n => 2 * gaps[i]);
    SumScaled(gaps, 2, doubled);
    forall i | 0 <= i < n ensures -Quantities(cart)[i] <= doubled[i] <= Quantities(cart)[i] {
      UnitDrift(cart[i], offs[i]);
      assert finals[i] == DiscountedUnit(cart[i], offs[i]) * cart[i].quantity;
    }
    SumBounded(doubled, Quantities(cart));
  }

  lemma UnitDrift(line: CartLine, off: int)
    ensures var q: int := line.quantity;
      -q <= 2 * (line.Total() - off) - 2 * (DiscountedUnit(line, off) * q) <= q
  {
    var u := DiscountedUnit(line, off);
    assert line.quantity * u == u * line.quantity;
  }

  /** Drift bound: the charged lines differ from the discounted subtotal by at most half a paisa
      per unit plus half a paisa per line, for any cart and any coupon that does not zero the order. */
  lemma ProportionalDiscountDrift(cart: seq<CartLine>, coupon: Option<Coupon>, policy: Policy)
    requires !IsWaived(Subtotal(cart), coupon)
    ensures var bill := PriceCart(cart, coupon, policy);
      var bound := Sum(Quantities(cart)) + |cart|;
      -bound <= 2 * Sum(Finals(bill.items)) - 2 * (bill.subtotal - bill.discount) <= bound
  {
    SumNonNegative(LineTotals(cart));
    var discount := OrderDiscount(Subtotal(cart), coupon);
    DiscountSharesDrift(cart, discount);
    UnitRoundingDrift(cart, discount);
  }

  /** Without a discount every line is charged exactly its price. */
  lemma UndiscountedLine(line: CartLine, subtotal: int)
    ensures PriceLine(line, subtotal, 0, false).finalPrice == line.Total()
    ensures PriceLine(line, subtotal, 0, false).unitPrice == line.price
  {
    assert line.Total() == line.quantity * line.price;
    WholeUnitsStay(line.price, line.quantity);
  }

  lemma UndiscountedOrder(cart: seq<CartLine>, policy: Policy)
    ensures Finals(PriceCart(cart, None, policy).items) == LineTotals(cart)
    ensures Sum(Finals(PriceCart(cart, None, policy).items)) == PriceCart(cart, None, policy).subtotal
  {
    forall i | 0 <= i < |cart| ensures Finals(PriceCart(cart, None, policy).items)[i] == LineTotals(cart)[i] {
      UndiscountedLine(cart[i], Subtotal(cart));
    }
    assert Finals(PriceCart(cart, None, policy).items) == LineTotals(cart);
  }

  // ----- GST never exceeds the goods -----

  /** A combo line large enough for its split to have no negative part. */
  predicate SplitsClean(line: CartLine) {
    line.ComboLine? ==> 2 * line.Total() >= |line.recipe| * (|line.recipe| - 1)
  }

  lemma ComponentTaxesWithin(recipe: seq<RecipeRow>, amount: nat, quantity: nat)
    requires 2 * amount >= |recipe| * (|recipe| - 1)
    ensures Sum(ComponentTaxes(ComboComponents(recipe, amount, quantity))) <= amount
  {
    var rows := ComboComponents(recipe, amount, quantity);
    if rows != [] {
      ComboSplitIsExact(recipe, amount, quantity);
      forall i | 0 <= i < |rows| ensures ComponentTaxes(rows)[i] <= Amounts(rows)[i] {
        ExtractedAtMostGross(rows[i].amount, rows[i].rate);
      }
      SumMonotone(ComponentTaxes(rows), Amounts(rows));
    }
  }

  lemma LineTaxWithin(line: CartLine, subtotal: int)
    requires SplitsClean(line)
    ensures PriceLine(line, subtotal, 0, false).tax <= line.Total()
  {
    UndiscountedLine(line, subtotal);
    if line.ProductLine? {
      ExtractedAtMostGross(line.Total(), line.rate);
    } else {
      ComponentTaxesWithin(line.recipe, line.Total(), line.quantity);
    }
  }

  /** Without a coupon, the goods GST of an order stays within its goods value, and so no refund of it, whatever
      was reversed before, reverses more GST than the money it returns. */
  lemma UndiscountedRefundsStayWithin(cart: seq<CartLine>, policy: Policy)
    requires forall i :: 0 <= i < |cart| ==> SplitsClean(cart[i])
    ensures var bill := PriceCart(cart, None, policy);
      && bill.tax <= GoodsValue(bill)
      && forall already, amount :: already >= 0 && amount > 0 ==> RefundTaxFor(bill, already, amount) <= amount
  {
    var bill := PriceCart(cart, None, policy);
    PlacedOrderShape(cart, None, policy);
    forall i | 0 <= i < |cart| ensures ItemTaxes(bill.items)[i] <= LineTotals(cart)[i] {
      LineTaxWithin(cart[i], Subtotal(cart));
    }
    SumMonotone(ItemTaxes(bill.items), LineTotals(cart));
    RefundTaxWithinRefund(bill);
  }

  // ----- The cart summary -----

  datatype Quote = Quote(subtotal: int, tax: int, slabs: seq<Row>, shipping: int, shippingTax: int, total: int)

  function QuotedLineTax(line: CartLine): int {
    if line.ComboLine? then Sum(ComponentTaxes(ComboComponents(line.recipe, line.Total(), line.quantity)))
    else ExtractTax(line.Total(), line.rate)
  }

  function QuotedTaxes(cart: seq<CartLine>): (s: seq<int>)
    ensures |s| == |cart|
  {
    seq(|cart|, i requires 0 <= i < |cart| => QuotedLineTax(cart[i]))
  }

  function QuotedShipping(subtotal: int, policy: Policy): nat {
    if subtotal >= policy.freeShippingThreshold || subtotal == 0 then 0 else policy.shippingFee
  }

  /** What a quoted line contributes to the slabs shown in the cart. */
  function QuotedLineSlabs(line: CartLine): seq<TaxLine> {
    if line.ComboLine? then ComponentLines(ComboComponents(line.recipe, line.Total(), line.quantity))
    else [TaxLine(line.Total(), line.rate)]
  }

  function QuotedGoods(cart: seq<CartLine>): seq<TaxLine> {
    if cart == [] then [] else QuotedGoods(cart[..|cart| - 1]) + QuotedLineSlabs(cart[|cart| - 1])
  }

  function QuotedLines(cart: seq<CartLine>, policy: Policy): seq<TaxLine> {
    QuotedGoods(cart) + QuotedDelivery(QuotedShipping(Subtotal(cart), policy), policy)
  }

  function QuotedDelivery(fee: nat, policy: Policy): seq<TaxLine> {
    if fee > 0 then [TaxLine(fee + AddTax(fee, policy.shippingRate), policy.shippingRate)] else []
  }

  method GetSummary(cart: seq<CartLine>, policy: Policy) returns (quote: Quote)
    ensures quote.subtotal == Subtotal(cart)
    ensures quote.tax == Sum(QuotedTaxes(cart))
    ensures quote.shipping == QuotedShipping(Subtotal(cart), policy)
    ensures quote.shippingTax == AddTax(quote.shipping, policy.shippingRate)
    ensures quote.slabs == SlabRows(QuotedLines(cart, policy))
    ensures quote.total == quote.subtotal + quote.shipping + quote.shippingTax
  {
    var subtotal := Subtotal(cart);
    var tax, lines := QuoteLines(cart);
    var shipping, shippingTax, delivery := QuoteDelivery(subtotal, policy);
    lines := lines + delivery;
    assert lines == QuotedLines(cart, policy);
    var slabs := GroupTaxByRate(lines);
    quote := Quote(subtotal, tax, slabs, shipping, shippingTax, subtotal + shipping + shippingTax);
  }

  /** The delivery fee, the GST on top of it, and the slab they join as. */
  method QuoteDelivery(subtotal: int, policy: Policy) returns (fee: nat, feeTax: int, lines: seq<TaxLine>)
    ensures fee == QuotedShipping(subtotal, policy) && feeTax == AddTax(fee, policy.shippingRate)
    ensures lines == QuotedDelivery(fee, policy)
  {
    fee := if subtotal >= policy.freeShippingThreshold || subtotal == 0 then 0 else policy.shippingFee;
    feeTax := AddTax(fee, policy.shippingRate);
    lines := [];
    if fee > 0 {
      lines := [TaxLine(fee + feeTax, policy.shippingRate)];
    }
  }

  method QuoteLines(cart: seq<CartLine>) returns (tax: int, lines: seq<TaxLine>)
    ensures tax == Sum(QuotedTaxes(cart)) && lines == QuotedGoods(cart)
  {
    tax, lines := 0, [];
    for i := 0 to |cart|
      invariant tax == Sum(QuotedTaxes(cart)[..i])
      invariant lines == QuotedGoods(cart[..i])
    {
      assert QuotedTaxes(cart)[..i + 1][..i] == QuotedTaxes(cart)[..i];
      assert cart[..i + 1][..i] == cart[..i];
      var line := cart[i];
      if line.ComboLine? {
        var rows := AllocateComboComponents(line.recipe, line.Total(), line.quantity);
        tax, lines := tax + Sum(ComponentTaxes(rows)), lines + ComponentLines(rows);
      } else {
        tax, lines := tax + ExtractTax(line.Total(), line.rate), lines + [TaxLine(line.Total(), line.rate)];
      }
    }
    assert QuotedTaxes(cart)[..|cart|] == QuotedTaxes(cart);
    assert cart[..|cart|] == cart;
  }

  /** A line whose composition checkout records: a product, or a combo with components and a price. */
  predicate Recordable(line: CartLine) {
    line.ComboLine? ==> line.recipe != [] && line.Total() > 0
  }

  lemma LineSlabsCharged(line: CartLine, subtotal: int)
    requires Recordable(line)
    ensures ItemLines(PriceLine(line, subtotal, 0, false)) == QuotedLineSlabs(line)
  {
    UndiscountedLine(line, subtotal);
  }

  lemma LastItemLines(cart: seq<CartLine>, subtotal: int)
    requires cart != []
    ensures var n := |cart| - 1;
      LinesOf(PriceLines(cart, subtotal, 0, false))
      == LinesOf(PriceLines(cart[..n], subtotal, 0, false)) + ItemLines(PriceLine(cart[n], subtotal, 0, false))
  {
    var n := |cart| - 1;
    assert PriceLines(cart, subtotal, 0, false)[..n] == PriceLines(cart[..n], subtotal, 0, false);
  }

  lemma {:induction false} GoodsSlabsCharged(cart: seq<CartLine>, subtotal: int)
    requires forall i :: 0 <= i < |cart| ==> Recordable(cart[i])
    ensures LinesOf(PriceLines(cart, subtotal, 0, false)) == QuotedGoods(cart)
  {
    if cart != [] {
      var n := |cart| - 1;
      GoodsSlabsCharged(cart[..n], subtotal);
      LineSlabsCharged(cart[n], subtotal);
      LastItemLines(cart, subtotal);
    }
  }

  /** The slabs shown in the cart are those of the invoice, delivery included, when every combo is recorded,
      the cart is not free of charge and a delivery fee, if any, carries GST. */
  lemma QuotedSlabsAreCharged(cart: seq<CartLine>, policy: Policy)
    requires (forall i :: 0 <= i < |cart| ==> Recordable(cart[i])) && Subtotal(cart) != 0
    requires policy.shippingFee == 0 || AddTax(policy.shippingFee, policy.shippingRate) > 0
    ensures SlabRows(QuotedLines(cart, policy)) == Breakdown(PriceCart(cart, None, policy), policy.shippingRate)
  {
    PlacedOrderReconciles(cart, None, policy);
    ChargedGoods(cart, policy);
    ChargedDelivery(cart, policy);
  }

  lemma ChargedGoods(cart: seq<CartLine>, policy: Policy)
    requires (forall i :: 0 <= i < |cart| ==> Recordable(cart[i])) && Subtotal(cart) != 0
    ensures LinesOf(PriceCart(cart, None, policy).items) == QuotedGoods(cart)
  {
    UndiscountedBill(cart, policy);
    GoodsSlabsCharged(cart, Subtotal(cart));
  }

  lemma ChargedDelivery(cart: seq<CartLine>, policy: Policy)
    requires Subtotal(cart) != 0 && (policy.shippingFee == 0 || AddTax(policy.shippingFee, policy.shippingRate) > 0)
    ensures DeliveryLines(PriceCart(cart, None, policy), policy.shippingRate)
         == QuotedDelivery(QuotedShipping(Subtotal(cart), policy), policy)
  {
    UndiscountedBill(cart, policy);
    SameDelivery(PriceCart(cart, None, policy), policy, QuotedShipping(Subtotal(cart), policy));
  }

  lemma UndiscountedBill(cart: seq<CartLine>, policy: Policy)
    requires Subtotal(cart) != 0
    ensures var bill, fee := PriceCart(cart, None, policy), QuotedShipping(Subtotal(cart), policy);
      && bill.items == PriceLines(cart, Subtotal(cart), 0, false)
      && bill.shippingCharge == fee && bill.shippingTax == AddTax(fee, policy.shippingRate)
  {
    QuoteEqualsCharge(cart, policy);
  }

  lemma SameDelivery(bill: Bill, policy: Policy, fee: nat)
    requires bill.shippingCharge == fee && bill.shippingTax == AddTax(fee, policy.shippingRate)
    requires fee == 0 || AddTax(fee, policy.shippingRate) > 0
    ensures DeliveryLines(bill, policy.shippingRate) == QuotedDelivery(fee, policy)
  {
  }

  lemma QuotedTaxIsCharged(cart: seq<CartLine>, policy: Policy)
    ensures Sum(QuotedTaxes(cart)) == PriceCart(cart, None, policy).tax
  {
    var items := PriceCart(cart, None, policy).items;
    forall i | 0 <= i < |cart| ensures QuotedTaxes(cart)[i] == ItemTaxes(items)[i] {
      UndiscountedLine(cart[i], Subtotal(cart));
    }
    assert QuotedTaxes(cart) == ItemTaxes(items);
  }

  /** Quote equals charge: without a coupon the summary's goods GST is always the placed order's, and
      its delivery fee, delivery GST and total are too exactly when the cart is not free of charge
      (or a free cart would ship free anyway). */
  lemma QuoteEqualsCharge(cart: seq<CartLine>, policy: Policy)
    ensures var bill := PriceCart(cart, None, policy);
      var fee := QuotedShipping(Subtotal(cart), policy);
      var feeTax := AddTax(fee, policy.shippingRate);
      && Subtotal(cart) == bill.subtotal
      && Sum(QuotedTaxes(cart)) == bill.tax
      && (fee == bill.shippingCharge && feeTax == bill.shippingTax && Subtotal(cart) + fee + feeTax == bill.total
          <==> Subtotal(cart) != 0 || policy.freeShippingThreshold <= 0 || policy.shippingFee == 0)
  {
    QuotedTaxIsCharged(cart, policy);
  }

  // ----- The coupon preview -----

  /** The amount the coupon preview taxes a line on. */
  function PreviewAmount(line: CartLine, subtotal: int, discount: int): int {
    line.Total() - LineDiscount(line.Total(), subtotal, discount)
  }

  function PreviewLineTax(line: CartLine, subtotal: int, discount: int, policy: Policy): int {
    var amount := PreviewAmount(line, subtotal, discount);
    if line.ProductLine? then ExtractTax(amount, line.rate)
    else
      var rows := ComboComponents(line.recipe, amount, line.quantity);
      if rows == [] then ExtractTax(amount, policy.defaultRate) else Sum(ComponentTaxes(rows))
  }

  lemma ExactQuotient(x: int, q: int)
    requires q > 0 && x % q == 0
    ensures x == q * (x / q)
  {
  }

  lemma SharedEvenly(q: int, price: int, k: int, u: int)
    requires q > 0 && u == HalfEven(price * q - q * k, q)
    ensures price * q - q * k == u * q
  {
    RemainingUnits(q, price, k);
    WholeUnitsStay(price - k, q);
  }

  lemma EvenDiscountIsExact(q: int, price: int, off: int, u: int)
    requires q > 0 && u == HalfEven(price * q - off, q) && off % q == 0
    ensures price * q - off == u * q
  {
    ExactQuotient(off, q);
    SharedEvenly(q, price, off / q, u);
  }

  lemma ExactDiscountIsEven(q: int, price: int, off: int, u: int)
    requires q > 0 && price * q - off == u * q
    ensures off % q == 0
  {
    RemainingUnits(q, price, u);
    MultipleHasNoRemainder(q, price - u);
  }

  lemma MultipleHasNoRemainder(q: int, k: int)
    requires q > 0
    ensures (q * k) % q == 0
  {
    DivisionBounds(q * k, q);
    MultiplesApart(q, k, (q * k) / q);
    MultiplesApart(q, (q * k) / q, k);
  }

  lemma RemainingUnits(q: int, price: int, k: int)
    ensures price * q - q * k == q * (price - k)
  {
  }

  /** The preview and the placed order tax a line on the same amount exactly when the line's
      discount divides evenly among its units. */
  lemma PreviewAmountMatches(line: CartLine, subtotal: int, discount: int)
    ensures PreviewAmount(line, subtotal, discount) == PriceLine(line, subtotal, discount, false).finalPrice
       <==> LineDiscount(line.Total(), subtotal, discount) % line.quantity == 0
  {
    var off := LineDiscount(line.Total(), subtotal, discount);
    var q, u := line.quantity, DiscountedUnit(line, off);
    if off % q == 0 {
      EvenDiscountIsExact(q, line.price, off, u);
    }
    if line.price * q - off == u * q {
      ExactDiscountIsEven(q, line.price, off, u);
    }
  }

  /** Then the previewed line GST is charged too, for every line that is not a combo without components; for
      those exactly when the default rate extracts nothing from the line. */
  lemma PreviewTaxMatches(line: CartLine, subtotal: int, discount: int, policy: Policy)
    requires LineDiscount(line.Total(), subtotal, discount) % line.quantity == 0
    ensures PreviewLineTax(line, subtotal, discount, policy) == PriceLine(line, subtotal, discount, false).tax
       <==> line.ProductLine? || line.recipe != []
            || ExtractTax(PreviewAmount(line, subtotal, discount), policy.defaultRate) == 0
  {
    PreviewAmountMatches(line, subtotal, discount);
  }

  /** A combo without components is taxed at nothing when ordered, whatever its discount; the preview taxes
      it at the default rate. */
  lemma EmptyComboPreview(line: CartLine, subtotal: int, discount: int, policy: Policy)
    requires line.ComboLine? && line.recipe == []
    ensures PriceLine(line, subtotal, discount, false).tax == 0
    ensures PreviewLineTax(line, subtotal, discount, policy) == PriceLine(line, subtotal, discount, false).tax
       <==> ExtractTax(PreviewAmount(line, subtotal, discount), policy.defaultRate) == 0
  {
  }

  lemma FiveInHundredAndFive()
    ensures ExtractTax(10500, 500) == 500
  {
    HalfUpIs(10500 * 500, 10500, 500);
  }

  /** A combo of 105 without components, at a default rate of 5%: the preview says 5.00, the order charges nothing. */
  lemma PreviewDriftsOnEmptyCombo(line: CartLine, policy: Policy)
    requires line.ComboLine? && line.price == 10500 && line.quantity == 1 && line.recipe == []
    requires policy.defaultRate == 500
    ensures PreviewLineTax(line, line.Total(), 0, policy) == 500
    ensures PriceLine(line, line.Total(), 0, false).tax == 0
  {
    EmptyComboPreview(line, line.Total(), 0, policy);
    UndiscountedPreview(line, line.Total());
    FiveInHundredAndFive();
  }

  lemma UndiscountedPreview(line: CartLine, total: int)
    requires total == line.Total()
    ensures PreviewAmount(line, total, 0) == total
  {
    UndiscountedLine(line, total);
  }

  /** Three units at one rupee, taxed at 100%, with four paise off: the preview says 1.48, the order charges 1.49. */
  lemma PreviewDriftsOnQuantity(policy: Policy)
    ensures var line := ProductLine(0, None, 100, 3, 10000, "");
      && PreviewLineTax(line, 300, 4, policy) == 148
      && PriceLine(line, 300, 4, false).tax == 149
  {
    var line := ProductLine(0, None, 100, 3, 10000, "");
    assert line.Total() == 300;
    WholeUnitsStay(4, 300);
    assert LineDiscount(300, 300, 4) == 4;
    assert HalfEven(296, 3) == 99;
    HalfUpIs(297 * 10000, 20000, 149);
    HalfUpIs(296 * 10000, 20000, 148);
  }
}
