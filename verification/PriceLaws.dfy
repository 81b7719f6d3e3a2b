/** What a placed order's header, lines and refunds hold, said in the figures of the cart and the coupon. */
module PriceLaws {
  import opened Money
  import opened Orders
  import opened Apportionment
  import opened Buckets
  import opened Pricing
  import opened TaxBreakdown
  import opened Coupons
  import opened Checkout

  /** `x` is `n / d` rounded half up. */
  predicate RoundsUp(n: int, d: int, x: int) {
    -d <= 2 * n - 2 * (d * x) < d
  }

  /** `x` is `n / d` rounded half to even. */
  predicate RoundsEven(n: int, d: int, x: int) {
    var rest := 2 * n - 2 * (d * x);
    -d <= rest <= d && (rest == d || rest == -d ==> x % 2 == 0)
  }

  lemma UpRounds(n: int, d: int)
    requires d > 0 && n >= 0
    ensures RoundsUp(n, d, HalfUp(n, d))
  {
  }

  lemma EvenRounds(n: int, d: int)
    requires d > 0
    ensures RoundsEven(n, d, HalfEven(n, d))
  {
  }

  // ----- The header -----

  /** A coupon leaves nothing to pay. */
  predicate Free(bill: Bill, coupon: Option<Coupon>) {
    coupon.Some? && bill.discount == bill.subtotal
  }

  lemma TotalsArePrices(cart: seq<CartLine>)
    ensures LineTotals(cart) == seq(|cart|, i requires 0 <= i < |cart| => cart[i].price * cart[i].quantity)
  {
  }

  /** What the coupon takes off an order: nothing without one, a fixed amount up to the subtotal, a percentage
      rounded half to even and never more than the subtotal. */
  lemma CouponTakesOff(cart: seq<CartLine>, coupon: Option<Coupon>, policy: Policy)
    ensures var bill := PriceCart(cart, coupon, policy);
      && bill.subtotal == Sum(seq(|cart|, i requires 0 <= i < |cart| => cart[i].price * cart[i].quantity)) >= 0
      && (coupon.None? ==> bill.discount == 0)
      && (coupon.Some? && coupon.value.discount.Fixed? ==>
            bill.discount == Min(coupon.value.discount.amount, bill.subtotal))
      && (coupon.Some? && coupon.value.discount.Percent? && coupon.value.discount.percent <= 100 ==>
            RoundsEven(bill.subtotal * coupon.value.discount.percent, 100, bill.discount))
      && (coupon.Some? && coupon.value.discount.Percent? && coupon.value.discount.percent > 100 ==>
            bill.discount == bill.subtotal)
  {
    TotalsArePrices(cart);
    SumNonNegative(LineTotals(cart));
    var subtotal := Subtotal(cart);
    if coupon.Some? {
      if coupon.value.discount.Percent? {
        PercentTakes(coupon.value, subtotal);
      }
      assert PriceCart(cart, coupon, policy).discount == DiscountFor(coupon.value, subtotal);
    }
  }

  lemma PercentTakes(c: Coupon, amount: nat)
    requires c.discount.Percent?
    ensures c.discount.percent <= 100 ==> RoundsEven(amount * c.discount.percent, 100, DiscountFor(c, amount))
    ensures c.discount.percent > 100 ==> DiscountFor(c, amount) == amount
  {
    var p := c.discount.percent;
    if p <= 100 {
      MulMonotone(amount, p, 100);
      EvenRounds(amount * p, 100);
    } else {
      MulMonotone(amount, 100, p);
      WholeUnitsStay(amount, 100);
    }
  }

  /** An order a coupon leaves nothing of costs nothing at all; any other ships free from the threshold on, judged
      after the discount, or at the fee with GST on top; and its GST is that of its lines. */
  lemma OrderCosts(cart: seq<CartLine>, coupon: Option<Coupon>, policy: Policy)
    ensures var bill := PriceCart(cart, coupon, policy);
      var net := bill.subtotal - bill.discount;
      && net >= 0 && bill.taxInclusive
      && bill.total == net + bill.shippingCharge + bill.shippingTax
      && (Free(bill, coupon) ==> bill.total == 0 && bill.tax == 0 && bill.shippingCharge == 0)
      && (!Free(bill, coupon) ==>
            && bill.shippingCharge == (if net >= policy.freeShippingThreshold then 0 else policy.shippingFee)
            && bill.tax == Sum(seq(|bill.items|, i requires 0 <= i < |bill.items| => bill.items[i].tax)))
      && (bill.shippingCharge > 0 ==> RoundsUp(bill.shippingCharge * policy.shippingRate, 10000, bill.shippingTax))
      && (bill.shippingCharge == 0 ==> bill.shippingTax == 0)
  {
    SumNonNegative(LineTotals(cart));
    var bill := PriceCart(cart, coupon, policy);
    FreeIsWaived(cart, coupon, policy);
    assert ItemTaxes(bill.items) == seq(|bill.items|, i requires 0 <= i < |bill.items| => bill.items[i].tax);
    if bill.shippingCharge > 0 {
      FeeTax(policy.shippingFee, policy.shippingRate);
    }
  }

  lemma FeeTax(fee: nat, rate: nat)
    requires fee > 0
    ensures RoundsUp(fee * rate, 10000, AddTax(fee, rate))
  {
  }

  lemma FreeIsWaived(cart: seq<CartLine>, coupon: Option<Coupon>, policy: Policy)
    ensures Free(PriceCart(cart, coupon, policy), coupon) <==> IsWaived(Subtotal(cart), coupon)
  {
    SumNonNegative(LineTotals(cart));
  }

  // ----- The lines -----

  /** The GST inside an amount, rounded half up; none inside nothing or at no rate. */
  predicate TaxInside(gross: int, rate: int, tax: int) {
    if gross > 0 && rate > 0 then RoundsUp(gross * rate, 10000 + rate, tax) else tax == 0
  }

  /** A line repeats what was bought, and is discounted in proportion, per unit, to the paisa. */
  predicate LinePriced(line: CartLine, item: OrderItem, bill: Bill) {
    var total, q := line.price * line.quantity, line.quantity;
    && item.quantity == q
    && (bill.discount == 0 ==> item.discount == 0)
    && (bill.discount > 0 ==> RoundsEven(total * bill.discount, bill.subtotal, item.discount))
    && RoundsEven(total - item.discount, q, item.unitPrice)
    && item.finalPrice == item.unitPrice * q
  }

  predicate ProductTaxed(line: CartLine, item: OrderItem)
    requires line.ProductLine?
  {
    && item.bought == (if line.variant.Some? then BoughtVariant(line.product, line.variant.value)
                       else BoughtProduct(line.product))
    && item.rate == line.rate && item.hsn == line.hsn && item.components == []
    && TaxInside(item.finalPrice, line.rate, item.tax)
  }

  /** A component row carries the size, units, rate and code of its recipe row, and its own GST. */
  predicate ComponentKept(r: RecipeRow, row: Component, quantity: nat) {
    && row.variant == r.variant && row.units == r.perCombo * quantity && row.rate == r.rate && row.hsn == r.hsn
    && TaxInside(row.amount, r.rate, row.tax)
  }

  /** A combo line records its components, if it has any and is worth anything: they add up to its price and GST,
      and its own rate is the one that would explain that GST. */
  predicate ComboTaxed(line: CartLine, item: OrderItem)
    requires line.ComboLine?
  {
    var rows := item.components;
    && item.bought == BoughtCombo(line.combo) && item.hsn == ""
    && |rows| == (if item.finalPrice > 0 then |line.recipe| else 0)
    && (forall k :: 0 <= k < |rows| ==> ComponentKept(line.recipe[k], rows[k], line.quantity))
    && (rows != [] ==> Sum(Amounts(rows)) == item.finalPrice)
    && item.tax == Sum(ComponentTaxes(rows)) >= 0
    && (item.tax == 0 || item.finalPrice <= item.tax ==> item.rate == 0)
    && (item.finalPrice > item.tax ==> RoundsUp(item.tax * 10000, item.finalPrice - item.tax, item.rate))
  }

  /** A line of an order that costs nothing. */
  predicate LineWaived(line: CartLine, item: OrderItem) {
    && item.quantity == line.quantity && item.discount == line.price * line.quantity && item.rate == line.rate
    && item.unitPrice == 0 && item.finalPrice == 0 && item.tax == 0 && item.components == []
    && item.hsn == (if line.ProductLine? then line.hsn else "")
    && item.bought == (match line
                       case ProductLine(p, v, _, _, _, _) =>
                         if v.Some? then BoughtVariant(p, v.value) else BoughtProduct(p)
                       case ComboLine(c, _, _, _, _) => BoughtCombo(c))
  }

  /** Every line of every order, product or combo, charged or waived. */
  lemma OrderLines(cart: seq<CartLine>, coupon: Option<Coupon>, policy: Policy, i: nat)
    requires i < |cart|
    ensures var bill, line := PriceCart(cart, coupon, policy), cart[i];
      && |bill.items| == |cart|
      && (Free(bill, coupon) ==> LineWaived(line, bill.items[i]))
      && (!Free(bill, coupon) ==> LinePriced(line, bill.items[i], bill))
      && (!Free(bill, coupon) && line.ProductLine? ==> ProductTaxed(line, bill.items[i]))
      && (!Free(bill, coupon) && line.ComboLine? ==> ComboTaxed(line, bill.items[i]))
  {
    var bill, line, subtotal := PriceCart(cart, coupon, policy), cart[i], Subtotal(cart);
    FreeIsWaived(cart, coupon, policy);
    SumNonNegative(LineTotals(cart));
    if IsWaived(subtotal, coupon) {
      assert bill.items[i] == PriceLine(line, subtotal, OrderDiscount(subtotal, coupon), true);
      WaivedLine(line, subtotal, OrderDiscount(subtotal, coupon), bill.items[i]);
    } else {
      assert bill.items[i] == PriceLine(line, subtotal, bill.discount, false);
      ChargedLine(line, bill, bill.items[i]);
    }
  }

  lemma WaivedLine(line: CartLine, subtotal: int, discount: int, item: OrderItem)
    requires item == PriceLine(line, subtotal, discount, true)
    ensures LineWaived(line, item)
  {
  }

  lemma ChargedLine(line: CartLine, bill: Bill, item: OrderItem)
    requires item == PriceLine(line, bill.subtotal, bill.discount, false) && 0 <= bill.discount <= bill.subtotal
    ensures LinePriced(line, item, bill)
    ensures line.ProductLine? ==> ProductTaxed(line, item)
    ensures line.ComboLine? ==> ComboTaxed(line, item)
  {
    if bill.discount > 0 {
      EvenRounds(line.Total() * bill.discount, bill.subtotal);
    }
    EvenRounds(line.Total() - item.discount, line.quantity);
    if line.ProductLine? {
      InsideIs(item.finalPrice, line.rate);
    } else {
      ComboLineTaxed(line, item, item.finalPrice);
    }
  }

  lemma InsideIs(gross: int, rate: int)
    ensures TaxInside(gross, rate, ExtractTax(gross, rate))
  {
  }

  lemma ComponentsKept(recipe: seq<RecipeRow>, amount: int, quantity: nat, rows: seq<Component>)
    requires rows == ComboComponents(recipe, amount, quantity)
    ensures |rows| == if amount > 0 then |recipe| else 0
    ensures forall k :: 0 <= k < |rows| ==> ComponentKept(recipe[k], rows[k], quantity)
    ensures rows != [] ==> Sum(Amounts(rows)) == amount
    ensures Sum(ComponentTaxes(rows)) >= 0
  {
    SumNonNegative(ComponentTaxes(rows));
    forall k | 0 <= k < |rows| ensures ComponentKept(recipe[k], rows[k], quantity) {
      InsideIs(rows[k].amount, recipe[k].rate);
    }
    if rows != [] {
      ComboSplitIsExact(recipe, amount, quantity);
    }
  }

  lemma RateIs(gross: int, tax: int, rate: int)
    requires tax >= 0 && rate == BlendedRate(gross, tax)
    ensures tax == 0 || gross <= tax ==> rate == 0
    ensures gross > tax ==> RoundsUp(tax * 10000, gross - tax, rate)
  {
  }

  lemma ComboLineTaxed(line: CartLine, item: OrderItem, final: int)
    requires line.ComboLine? && item.finalPrice == final && item.bought == BoughtCombo(line.combo) && item.hsn == ""
    requires item.components == ComboComponents(line.recipe, final, line.quantity)
    requires item.tax == Sum(ComponentTaxes(item.components)) && item.rate == BlendedRate(final, item.tax)
    ensures ComboTaxed(line, item)
  {
    ComponentsKept(line.recipe, final, line.quantity, item.components);
    RateIs(final, item.tax, item.rate);
  }

  /** The coupon preview of a line taxes what its share of the discount, rounded half to even, leaves of it: a
      product, or a combo nothing can be split over, at one rate; any other combo as its parts. */
  lemma PreviewTaxes(line: CartLine, subtotal: nat, discount: nat, policy: Policy, amount: int)
    requires amount == PreviewAmount(line, subtotal, discount)
    ensures discount == 0 || subtotal == 0 ==> amount == line.price * line.quantity
    ensures discount > 0 && subtotal > 0 ==>
      RoundsEven(line.price * line.quantity * discount, subtotal, line.price * line.quantity - amount)
    ensures var tax, rows := PreviewLineTax(line, subtotal, discount, policy),
                             if line.ComboLine? then ComboComponents(line.recipe, amount, line.quantity) else [];
      && (line.ProductLine? ==> TaxInside(amount, line.rate, tax))
      && (line.ComboLine? && rows == [] ==> TaxInside(amount, policy.defaultRate, tax))
      && (rows != [] ==> tax == Sum(ComponentTaxes(rows)) && Sum(Amounts(rows)) == amount)
  {
    if discount > 0 && subtotal > 0 {
      EvenRounds(line.price * line.quantity * discount, subtotal);
    }
    if line.ProductLine? {
      InsideIs(amount, line.rate);
    } else {
      InsideIs(amount, policy.defaultRate);
      ComponentsKept(line.recipe, amount, line.quantity, ComboComponents(line.recipe, amount, line.quantity));
    }
  }

  // ----- The combo split, by what the components cost -----

  function Mrps(recipe: seq<RecipeRow>): (w: seq<nat>)
    ensures |w| == |recipe|
  {
    seq(|recipe|, i requires 0 <= i < |recipe| => recipe[i].price * recipe[i].perCombo)
  }

  /** A combo's parts follow what its components cost apiece, packs included: within half a paisa, but for one of
      the dearest, which takes the residual. Components that cost nothing share evenly. */
  lemma ComboSplitByPrice(recipe: seq<RecipeRow>, amount: int, quantity: nat) returns (b: nat)
    requires recipe != [] && amount > 0
    ensures b < |recipe|
    ensures var rows, mrp, n := ComboComponents(recipe, amount, quantity), Mrps(recipe), |recipe|;
      var whole := Sum(mrp);
      && |rows| == n
      && (forall i :: 0 <= i < n ==> mrp[i] <= mrp[b])
      && (whole > 0 ==> forall i :: 0 <= i < n && i != b ==> RoundsUp(amount * mrp[i], whole, rows[i].amount))
      && (whole == 0 ==> forall i :: 0 <= i < n && i != b ==> RoundsUp(amount, n, rows[i].amount))
  {
    var rows, mrp, w := ComboComponents(recipe, amount, quantity), Mrps(recipe), ComboWeights(recipe);
    b := FirstLargest(w);
    SumNonNegative(mrp);
    WeightsAre(recipe);
    forall i | 0 <= i < |recipe| && i != b
      ensures RoundsUp(amount * w[i], Sum(w), rows[i].amount)
    {
      MulMonotone(amount, 0, w[i]);
      UpRounds(amount * w[i], Sum(w));
      assert rows[i].amount == Shares(w, amount, Sum(w))[i];
    }
  }

  lemma WeightsAre(recipe: seq<RecipeRow>)
    requires recipe != []
    ensures var mrp, w := Mrps(recipe), ComboWeights(recipe);
      && (Sum(mrp) > 0 ==> w == mrp)
      && (Sum(mrp) <= 0 ==> Sum(w) == |recipe| && forall i :: 0 <= i < |recipe| ==> mrp[i] == 0 && w[i] == 1)
  {
    SumNonNegative(Mrps(recipe));
    if Sum(Mrps(recipe)) <= 0 {
      var w := ComboWeights(recipe);
      assert w == seq(|recipe|, i => 1);
      SumConstant(|recipe|, 1);
    }
  }

  // ----- Slabs -----

  function GrossAt(lines: seq<TaxLine>, rate: int): int {
    if lines == [] then 0
    else
      var last := lines[|lines| - 1];
      GrossAt(lines[..|lines| - 1], rate) + if last.rate == rate then last.gross else 0
  }

  function TaxAt(lines: seq<TaxLine>, rate: int): int {
    if lines == [] then 0
    else
      var last := lines[|lines| - 1];
      TaxAt(lines[..|lines| - 1], rate) + if last.rate == rate then ExtractTax(last.gross, last.rate) else 0
  }

  lemma {:induction false} SlabTotals(lines: seq<TaxLine>, rate: int)
    ensures var t := TotalAt(SlabEntries(lines), rate); t.value == GrossAt(lines, rate) && t.tax == TaxAt(lines, rate)
  {
    if lines != [] {
      var n := |lines| - 1;
      SlabTotals(lines[..n], rate);
      assert SlabEntries(lines)[..n] == SlabEntries(lines[..n]);
    }
  }

  /** The slabs of any lines, each rate once and in order: a slab's GST is that of its lines, and its taxable value
      what its lines leave without it. */
  lemma SlabsAre(lines: seq<TaxLine>)
    ensures var rows := SlabRows(lines);
      && (forall i :: 0 <= i < |rows| ==> rows[i].rate.Some? && rows[i].taxable.Some?)
      && (forall i, j :: 0 <= i < j < |rows| ==> rows[i].rate.value < rows[j].rate.value)
      && (forall k :: 0 <= k < |lines| ==> exists i :: 0 <= i < |rows| && rows[i].rate == Some(lines[k].rate))
      && (forall i :: 0 <= i < |rows| ==>
            && rows[i].tax == TaxAt(lines, rows[i].rate.value)
            && rows[i].taxable.value + rows[i].tax == GrossAt(lines, rows[i].rate.value))
  {
    var rows, entries := SlabRows(lines), SlabEntries(lines);
    var keys := SortedKeys(entries);
    forall i | 0 <= i < |rows|
      ensures rows[i].tax == TaxAt(lines, keys[i]) && rows[i].taxable.value + rows[i].tax == GrossAt(lines, keys[i])
    {
      SlabTotals(lines, keys[i]);
    }
    forall k | 0 <= k < |lines| ensures exists i :: 0 <= i < |rows| && rows[i].rate == Some(lines[k].rate) {
      assert entries[k].key == lines[k].rate;
      assert lines[k].rate in keys;
      var i :| 0 <= i < |keys| && keys[i] == lines[k].rate;
      assert rows[i].rate == Some(lines[k].rate);
    }
  }

  // ----- Refunds -----

  /** What a refund is taken from first: the goods after the discount, with their GST where it was charged on top. */
  function Goods(bill: Bill): int {
    var net := bill.subtotal - bill.discount + if bill.taxInclusive then 0 else bill.tax;
    if net > 0 then net else 0
  }

  /** The GST of every refund, capped at what is left of it. Up to the goods value it is the goods GST in proportion;
      past it, all of that and the delivery GST in proportion to the delivery money returned; each rounded half up
      on its own. */
  lemma RefundTaxIs(bill: Bill, already: int, amount: int) returns (goods: int, delivery: int)
    requires amount > 0 && bill.tax >= 0 && bill.shippingTax >= 0 && bill.shippingCharge >= 0
    ensures RefundTaxFor(bill, already, amount)
         == Max(Min(goods + delivery, bill.tax + bill.shippingTax - already), 0)
    ensures Goods(bill) == 0 ==> goods == 0
    ensures 0 < amount < Goods(bill) ==> RoundsUp(bill.tax * amount, Goods(bill), goods)
    ensures 0 < Goods(bill) <= amount ==> goods == bill.tax
    ensures amount <= Goods(bill) ==> delivery == 0
    ensures var past, gross := amount - Goods(bill), bill.shippingCharge + bill.shippingTax;
      && (0 < past < gross ==> RoundsUp(bill.shippingTax * past, gross, delivery))
      && (past >= gross ==> delivery == bill.shippingTax)
  {
    var g, gross := GoodsValue(bill), bill.shippingCharge + bill.shippingTax;
    assert g == Goods(bill);
    goods, delivery := GoodsTaxReversed(bill, amount), DeliveryTaxReversed(bill, amount);
    GoodsReversed(bill, amount, g, goods);
    DeliveryReversed(bill, amount - g, gross, amount, delivery);
    if bill.tax == 0 && bill.shippingTax == 0 {
      assert goods == 0 && delivery == 0;
    }
  }

  lemma GoodsReversed(bill: Bill, amount: int, g: int, goods: int)
    requires amount > 0 && bill.tax >= 0 && g == GoodsValue(bill) && goods == GoodsTaxReversed(bill, amount)
    ensures g == 0 ==> goods == 0
    ensures 0 < amount < g ==> RoundsUp(bill.tax * amount, g, goods)
    ensures 0 < g <= amount ==> goods == bill.tax
  {
    if 0 < g <= amount {
      AllGoodsTaxReversed(bill, amount);
    } else if 0 < amount < g {
      MulMonotone(bill.tax, 0, amount);
      UpRounds(bill.tax * amount, g);
      NoneInside(g, amount);
    }
  }

  /** None of a part rounds to none. */
  lemma NoneInside(d: int, k: int)
    requires d > 0
    ensures RoundsUp(0 * k, d, 0)
  {
  }

  lemma DeliveryReversed(bill: Bill, past: int, gross: int, amount: int, delivery: int)
    requires bill.shippingTax >= 0 && bill.shippingCharge >= 0 && gross == bill.shippingCharge + bill.shippingTax
    requires past == amount - GoodsValue(bill) && delivery == DeliveryTaxReversed(bill, amount)
    ensures past <= 0 ==> delivery == 0
    ensures 0 < past < gross ==> RoundsUp(bill.shippingTax * past, gross, delivery)
    ensures past >= gross ==> delivery == bill.shippingTax
  {
    if 0 < past < gross {
      MulMonotone(bill.shippingTax, 0, past);
      UpRounds(bill.shippingTax * past, gross);
      NoneInside(gross, past);
    } else if past >= gross > 0 {
      assert bill.shippingTax * gross == gross * bill.shippingTax;
      WholeUnitsStay(bill.shippingTax, gross);
    }
  }
}
