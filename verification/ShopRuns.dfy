/** What pricing promises, carried to every order that any run of the shop can reach. */
module ShopRuns {
  import opened Money
  import opened Orders
  import opened Pricing
  import opened TaxBreakdown
  import opened Checkout
  import opened Coupons
  import opened Shop
  import opened ShopBooks
  import opened ShopSafety
  import opened ShopLaws

  /** A bill that checkout wrote for some cart and coupon. */
  ghost predicate Priced(env: Env, bill: Bill) {
    exists cart, coupon :: bill == PriceCart(cart, coupon, env.policy)
  }

  ghost predicate AllPriced(env: Env, orders: seq<Order>) {
    forall i :: 0 <= i < |orders| ==> Priced(env, orders[i].bill)
  }

  lemma StepPricesOrders(env: Env, s: State, e: Event)
    requires AllPriced(env, s.orders)
    ensures AllPriced(env, Step(env, s, e).orders)
  {
    var t := Step(env, s, e);
    if t.orders != s.orders {
      if e.PlaceOrder? {
        CommitShape(env, s, e, Supersede(env, s, e.user, |s.orders|), t);
        PlacedOrderGoods(env, e);
        CommitRows(env, s, e, t);
        assert t.orders[|s.orders|].bill == PriceCart(e.cart, CouponRow(e.coupon), env.policy);
      } else {
        StepTouches(env, s, e);
      }
      forall i | 0 <= i < |t.orders| ensures Priced(env, t.orders[i].bill) {
        if i < |s.orders| {
          assert Priced(env, s.orders[i].bill);
          assert RowStep(e, s.orders[i], t.orders[i]) || t.orders[i] == s.orders[i];
        }
      }
    }
  }

  /** No request ever changes a bill: in every run, each order keeps the bill its checkout wrote. */
  lemma {:induction false} RunPricesOrders(env: Env, s: State, es: seq<Event>)
    requires Opening(s)
    ensures AllPriced(env, Run(env, s, es).orders)
  {
    if es != [] {
      RunPricesOrders(env, s, es[..|es| - 1]);
      StepPricesOrders(env, Run(env, s, es[..|es| - 1]), es[|es| - 1]);
    }
  }

  lemma PricedBills(env: Env, bill: Bill)
    requires Priced(env, bill)
    ensures Sum(Taxes(Breakdown(bill, env.policy.shippingRate))) == bill.TotalTax()
    ensures bill.total > 0 ==> RefundTaxFor(bill, 0, bill.total) == bill.TotalTax()
  {
    var cart, coupon :| bill == PriceCart(cart, coupon, env.policy);
    PlacedOrderReconciles(cart, coupon, env.policy);
    if bill.total > 0 {
      FullRefundOfPlacedOrder(cart, coupon, env.policy);
    }
  }

  /** The breakup of every order any run reaches sums to its goods and delivery GST. */
  lemma EveryOrderReconciles(env: Env, s: State, es: seq<Event>, i: nat)
    requires Opening(s) && i < |Run(env, s, es).orders|
    ensures var bill := Run(env, s, es).orders[i].bill;
      Sum(Taxes(Breakdown(bill, env.policy.shippingRate))) == bill.TotalTax()
  {
    RunPricesOrders(env, s, es);
    PricedBills(env, Run(env, s, es).orders[i].bill);
  }

  lemma {:induction false} NoRowsNoTax(ledger: seq<RefundRow>, i: nat)
    requires forall k :: 0 <= k < |ledger| ==> ledger[k].amount > 0
    ensures LedgerAmount(ledger, i) >= 0
    ensures LedgerAmount(ledger, i) == 0 ==> LedgerTax(ledger, i) == 0
  {
    if ledger != [] {
      NoRowsNoTax(ledger[..|ledger| - 1], i);
    }
  }

  /** In every run, the first refund of an order, when it returns the whole money, settles the order and
      reverses exactly the GST it was charged; afterwards no refund of it is recorded. */
  lemma FirstFullRefundSettles(env: Env, s: State, es: seq<Event>, i: nat, reference: Option<nat>, mark: bool)
    requires Opening(s) && i < |Run(env, s, es).orders|
    requires var t := Run(env, s, es);
      t.orders[i].refundedAmount == 0 && RefundIsRecorded(t, i, t.orders[i].bill.total, reference)
    ensures var t := Run(env, s, es);
      var u := RecordRefund(env, t, i, t.orders[i].bill.total, reference, mark);
      && u.orders[i].refundedAmount == t.orders[i].bill.total
      && u.orders[i].refundedTax == t.orders[i].bill.TotalTax()
      && u.orders[i].status == Refunded && u.orders[i].payStatus == PaidBack && u.orders[i].restored
      && forall amount, again :: !RefundIsRecorded(u, i, amount, again)
  {
    var t := Run(env, s, es);
    var o := t.orders[i];
    RunKeepsBooks(env, s, es);
    RunPricesOrders(env, s, es);
    PricedBills(env, o.bill);
    assert Linked(t, i);
    NoRowsNoTax(t.ledger, i);
    SettledShape(env, t, i, reference, mark);
  }

  lemma SettledShape(env: Env, t: State, i: nat, reference: Option<nat>, mark: bool)
    requires i < |t.orders| && Linked(t, i)
    requires var o := t.orders[i];
      && o.refundedAmount == 0 && o.refundedTax == 0 && RefundIsRecorded(t, i, o.bill.total, reference)
      && RefundTaxFor(o.bill, 0, o.bill.total) == o.bill.TotalTax()
    ensures var o, r := t.orders[i], RecordRefund(env, t, i, t.orders[i].bill.total, reference, mark).orders[i];
      && r.refundedAmount == o.bill.total && r.refundedTax == o.bill.TotalTax() && r.bill == o.bill
      && r.status == Refunded && r.payStatus == PaidBack && r.restored
  {
    var o := t.orders[i];
    RecordShape(env, t, i, o.bill.total, reference, mark);
    LedgerGrows(t.ledger, RefundRow(i, o.bill.total, o.bill.TotalTax(), reference), i);
  }

  // ----- Instalments over runs -----

  /** The shares of an order's recorded refunds, each rounded on its own. */
  function LedgerShares(ledger: seq<RefundRow>, bill: Bill, i: nat): (t: int)
    ensures t >= 0
  {
    if ledger == [] then 0
    else
      var last := ledger[|ledger| - 1];
      LedgerShares(ledger[..|ledger| - 1], bill, i) + if last.order == i then TaxShare(bill, last.amount) else 0
  }

  /** A row whose tax is what its order still contained in the amount. */
  predicate PricedRow(s: State, row: RefundRow) {
    row.order < |s.orders|
      && row.tax == RefundTaxFor(s.orders[row.order].bill, s.orders[row.order].refundedTax, row.amount)
  }

  predicate LedgerStep(s: State, t: State) {
    t.ledger == s.ledger
    || (|t.ledger| == |s.ledger| + 1 && t.ledger[..|s.ledger|] == s.ledger && PricedRow(s, t.ledger[|s.ledger|]))
  }

  lemma RecordStepsLedger(env: Env, s: State, i: nat, amount: int, reference: Option<nat>, mark: bool)
    requires i < |s.orders|
    ensures LedgerStep(s, RecordRefund(env, s, i, amount, reference, mark))
  {
    if RefundIsRecorded(s, i, amount, reference) {
      RecordShape(env, s, i, amount, reference, mark);
    }
  }

  lemma RefundStepsLedger(env: Env, s: State, i: nat, id: Option<nat>, amount: Option<int>, reference: Option<nat>)
    requires i < |s.orders| && s.orders[i].payment.Some?
    ensures LedgerStep(s, MarkRefunded(env, s, i, id, amount, reference))
  {
    var asked := if amount.Some? then amount.value else Refundable(s.orders[i]);
    RecordStepsLedger(env, s, i, asked, reference, false);
    if Seen(s, id) || s.orders[i].payment.value.status.Returned? {
      assert MarkRefunded(env, s, i, id, amount, reference).ledger == s.ledger;
    } else {
      RefundLedger(env, s, i, id, amount, reference);
    }
  }

  lemma SavedBill(o: Order, e: Event)
    requires e.Edit? && ApplyPayment(o, e.payStatus, e.codPaid).Some?
    ensures SavedOrder(o, e).bill == o.bill && SavedOrder(o, e).refundedTax == o.refundedTax
  {
    AppliedFrame(o, e.payStatus, e.codPaid);
  }

  lemma EditStepsLedger(env: Env, s: State, e: Event)
    requires e.Edit? && e.order < |s.orders|
    ensures LedgerStep(s, EditOrder(env, s, e))
  {
    var o := s.orders[e.order];
    if EditIsAccepted(o, e) {
      SavedFrame(env, s, e);
      SavedBill(o, e);
      if RecordsRefund(o, e) {
        var amount := if e.refund.Some? then e.refund.value else Refundable(o);
        RecordStepsLedger(env, SavedEdit(env, s, e), e.order, amount, None, true);
      }
    }
  }

  lemma ClosingKeepsLedger(env: Env, s: State, e: Event)
    requires e.Cancel? || e.Abandon?
    ensures Step(env, s, e).ledger == s.ledger
  {
    if e.order < |s.orders| {
      RestoreFrame(env, s, e.order);
    }
  }

  lemma CheckoutKeepsLedger(env: Env, s: State, e: Event)
    requires e.PlaceOrder?
    ensures Step(env, s, e).ledger == s.ledger
  {
    if Accepts(env, s, e) {
      CommitShape(env, s, e, Supersede(env, s, e.user, |s.orders|), Commit(env, s, e));
    }
  }

  lemma BeginKeepsLedger(s: State, i: nat)
    requires i < |s.orders|
    ensures BeginPayment(s, i).ledger == s.ledger
  {
  }

  lemma FailKeepsLedger(s: State, i: nat, id: Option<nat>)
    requires i < |s.orders| && s.orders[i].payment.Some?
    ensures MarkFailed(s, i, id).ledger == s.ledger
  {
  }

  lemma CaptureKeepsLedger(s: State, i: nat, id: Option<nat>, amount: Option<int>)
    requires i < |s.orders| && s.orders[i].payment.Some?
    ensures MarkCaptured(s, i, id, amount).ledger == s.ledger
  {
    if CaptureIgnored(s, i, id, amount) {
      IgnoredCaptureKeepsLedger(s, i, id, amount);
    }
  }

  lemma IgnoredCaptureKeepsLedger(s: State, i: nat, id: Option<nat>, amount: Option<int>)
    requires i < |s.orders| && s.orders[i].payment.Some? && CaptureIgnored(s, i, id, amount)
    ensures MarkCaptured(s, i, id, amount).ledger == s.ledger
  {
  }

  lemma QuietLedger(env: Env, s: State, e: Event)
    requires !e.GatewayRefund? && !e.Edit?
    ensures Step(env, s, e).ledger == s.ledger
  {
    if e.PlaceOrder? {
      CheckoutKeepsLedger(env, s, e);
    } else if e.Cancel? || e.Abandon? {
      ClosingKeepsLedger(env, s, e);
    } else if e.Capture? {
      if Found(s, e.order, e.session) { CaptureKeepsLedger(s, e.order, e.eventId, e.amount); }
    } else if e.StartPayment? {
      if e.order < |s.orders| { BeginKeepsLedger(s, e.order); }
    } else if e.Fail? {
      if Found(s, e.order, e.session) { FailKeepsLedger(s, e.order, e.eventId); }
    }
  }

  lemma StepStepsLedger(env: Env, s: State, e: Event)
    ensures LedgerStep(s, Step(env, s, e))
  {
    if e.GatewayRefund? {
      if e.order < |s.orders| && s.orders[e.order].payment.Some? {
        RefundStepsLedger(env, s, e.order, e.eventId, e.amount, e.reference);
      }
    } else if e.Edit? {
      if e.order < |s.orders| { EditStepsLedger(env, s, e); }
    } else {
      QuietLedger(env, s, e);
    }
  }

  /** An order's GST reversed so far is the sum of its refunds' shares, cut off at its whole GST. */
  predicate SharesAddUp(s: State, i: nat)
    requires i < |s.orders|
  {
    var bill := s.orders[i].bill;
    LedgerTax(s.ledger, i) == Min(bill.TotalTax(), LedgerShares(s.ledger, bill, i))
  }

  lemma {:induction false} NoSharesYet(ledger: seq<RefundRow>, bill: Bill, i: nat)
    requires forall k :: 0 <= k < |ledger| ==> ledger[k].order < i
    ensures LedgerShares(ledger, bill, i) == 0
  {
    if ledger != [] {
      NoSharesYet(ledger[..|ledger| - 1], bill, i);
    }
  }

  lemma RowAddsShare(s: State, t: State, i: nat)
    requires Books(s) && LedgerStep(s, t) && i < |s.orders| && i < |t.orders| && t.orders[i].bill == s.orders[i].bill
    requires TaxIsSigned(s.orders[i].bill) && SharesAddUp(s, i)
    ensures SharesAddUp(t, i)
  {
    if t.ledger != s.ledger {
      var row, bill := t.ledger[|s.ledger|], s.orders[i].bill;
      assert t.ledger == s.ledger + [row];
      assert Linked(s, i);
      OneMoreShare(s.ledger, row, bill, i);
    }
  }

  lemma OneMoreShare(ledger: seq<RefundRow>, row: RefundRow, bill: Bill, i: nat)
    requires TaxIsSigned(bill) && LedgerTax(ledger, i) == Min(bill.TotalTax(), LedgerShares(ledger, bill, i))
    requires row.order == i ==> row.tax == RefundTaxFor(bill, LedgerTax(ledger, i), row.amount)
    ensures LedgerTax(ledger + [row], i) == Min(bill.TotalTax(), LedgerShares(ledger + [row], bill, i))
  {
    LedgerGrows(ledger, row, i);
    SharesGrow(ledger, row, bill, i);
    OneMoreInstalment(bill, LedgerShares(ledger, bill, i), row.amount);
  }

  lemma SharesGrow(ledger: seq<RefundRow>, row: RefundRow, bill: Bill, i: nat)
    ensures LedgerShares(ledger + [row], bill, i)
         == LedgerShares(ledger, bill, i) + if row.order == i then TaxShare(bill, row.amount) else 0
  {
    assert (ledger + [row])[..|ledger|] == ledger;
  }

  predicate TaxIsSigned(bill: Bill) {
    bill.tax >= 0 && bill.shippingTax >= 0
  }

  lemma PricedSigns(env: Env, bill: Bill)
    requires Priced(env, bill)
    ensures TaxIsSigned(bill)
  {
    var cart, coupon :| bill == PriceCart(cart, coupon, env.policy);
    PlacedOrderShape(cart, coupon, env.policy);
  }

  lemma StepSharesAddUp(env: Env, s: State, e: Event, i: nat)
    requires Books(s) && AllPriced(env, s.orders) && i < |Step(env, s, e).orders|
    requires i < |s.orders| ==> SharesAddUp(s, i)
    ensures SharesAddUp(Step(env, s, e), i)
  {
    var t := Step(env, s, e);
    StepStepsLedger(env, s, e);
    StepPricesOrders(env, s, e);
    PricedSigns(env, t.orders[i].bill);
    if i < |s.orders| {
      StepMovesRows(env, s, e, i);
      RowAddsShare(s, t, i);
    } else {
      StepKeepsBooks(env, s, e);
      NewOrderHasNoShares(env, s, e, i);
    }
  }

  lemma NewOrderHasNoShares(env: Env, s: State, e: Event, i: nat)
    requires Books(s) && |s.orders| <= i < |Step(env, s, e).orders| && TaxIsSigned(Step(env, s, e).orders[i].bill)
    ensures SharesAddUp(Step(env, s, e), i)
  {
    if !e.PlaceOrder? {
      OtherStepsAppendNothing(env, s, e);
    } else {
      CommitShape(env, s, e, Supersede(env, s, e.user, |s.orders|), Commit(env, s, e));
      NoRefundsYet(s.ledger, i);
      NoSharesYet(s.ledger, Step(env, s, e).orders[i].bill, i);
    }
  }

  /** In every run, whatever mix of admin and gateway refunds an order saw, the GST reversed is the sum of each
      refund's own share cut off at the whole; it is complete exactly when those shares reach the whole. */
  lemma {:induction false} RunInstalments(env: Env, s: State, es: seq<Event>, i: nat)
    requires Opening(s) && i < |Run(env, s, es).orders|
    ensures var t := Run(env, s, es);
      var bill := t.orders[i].bill;
      && t.orders[i].refundedTax == Min(bill.TotalTax(), LedgerShares(t.ledger, bill, i))
      && (t.orders[i].refundedTax == bill.TotalTax() <==> LedgerShares(t.ledger, bill, i) >= bill.TotalTax())
  {
    RunSharesAddUp(env, s, es, i);
    RunKeepsBooks(env, s, es);
    assert Linked(Run(env, s, es), i);
  }

  lemma {:induction false} RunSharesAddUp(env: Env, s: State, es: seq<Event>, i: nat)
    requires Opening(s) && i < |Run(env, s, es).orders|
    ensures SharesAddUp(Run(env, s, es), i)
  {
    if es != [] {
      var u := Run(env, s, es[..|es| - 1]);
      if i < |u.orders| {
        RunSharesAddUp(env, s, es[..|es| - 1], i);
      }
      RunKeepsBooks(env, s, es[..|es| - 1]);
      RunPricesOrders(env, s, es[..|es| - 1]);
      StepSharesAddUp(env, u, es[|es| - 1], i);
    }
  }

  // ----- Where refunds come from -----

  /** A request that can return money of order i: the gateway's, or an admin's that finds its money came in. */
  predicate ReturnsMoney(before: State, e: Event, i: nat) {
    (e.GatewayRefund? && e.order == i)
    || (e.Edit? && e.order == i < |before.orders| && MoneyTaken(before.orders[i]))
  }

  lemma RecordAddsRow(env: Env, s: State, i: nat, amount: int, reference: Option<nat>, mark: bool)
    requires i < |s.orders|
    ensures var t := RecordRefund(env, s, i, amount, reference, mark);
      t.ledger == s.ledger
      || (|t.ledger| == |s.ledger| + 1 && t.ledger[..|s.ledger|] == s.ledger && t.ledger[|s.ledger|].order == i)
  {
    if RefundIsRecorded(s, i, amount, reference) {
      RecordShape(env, s, i, amount, reference, mark);
    }
  }

  /** The ledger grows by at most a row, and only by a request that can return that order's money. */
  predicate Grew(before: State, e: Event, after: State) {
    after.ledger == before.ledger
    || (|after.ledger| == |before.ledger| + 1 && after.ledger[..|before.ledger|] == before.ledger
        && ReturnsMoney(before, e, after.ledger[|before.ledger|].order))
  }

  lemma StepAddsRow(env: Env, s: State, e: Event)
    ensures Grew(s, e, Step(env, s, e))
  {
    if e.GatewayRefund? {
      if e.order < |s.orders| && s.orders[e.order].payment.Some? {
        GatewayAddsRow(env, s, e.order, e.eventId, e.amount, e.reference);
      }
    } else if e.Edit? {
      if e.order < |s.orders| {
        EditAddsRow(env, s, e);
      }
    } else {
      QuietLedger(env, s, e);
    }
  }

  lemma GatewayAddsRow(env: Env, s: State, i: nat, id: Option<nat>, amount: Option<int>, reference: Option<nat>)
    requires i < |s.orders| && s.orders[i].payment.Some?
    ensures var t := MarkRefunded(env, s, i, id, amount, reference);
      t.ledger == s.ledger
      || (|t.ledger| == |s.ledger| + 1 && t.ledger[..|s.ledger|] == s.ledger && t.ledger[|s.ledger|].order == i)
  {
    if !Seen(s, id) && !s.orders[i].payment.value.status.Returned? {
      RefundLedger(env, s, i, id, amount, reference);
      RecordAddsRow(env, s, i, if amount.Some? then amount.value else Refundable(s.orders[i]), reference, false);
    }
  }

  lemma EditAddsRow(env: Env, s: State, e: Event)
    requires e.Edit? && e.order < |s.orders|
    ensures var t := EditOrder(env, s, e);
      t.ledger == s.ledger
      || (|t.ledger| == |s.ledger| + 1 && t.ledger[..|s.ledger|] == s.ledger && t.ledger[|s.ledger|].order == e.order
          && MoneyTaken(s.orders[e.order]))
  {
    var o := s.orders[e.order];
    EditAcceptedExactly(env, s, e);
    if EditIsAccepted(o, e) {
      SavedFrame(env, s, e);
      if RecordsRefund(o, e) {
        RecordAddsRow(env, SavedEdit(env, s, e), e.order, if e.refund.Some? then e.refund.value else Refundable(o),
                      None, true);
      }
    }
  }

  lemma GrownRow(before: State, e: Event, after: State, k: nat)
    requires Grew(before, e, after) && k < |after.ledger|
    ensures k < |before.ledger| ==> after.ledger[k] == before.ledger[k]
    ensures k >= |before.ledger| ==> ReturnsMoney(before, e, after.ledger[k].order)
  {
  }

  lemma EarlierRun(env: Env, s: State, es: seq<Event>, m: nat, n: nat)
    requires n < m <= |es|
    ensures Run(env, s, es[..m][..n]) == Run(env, s, es[..n]) && es[..m][n] == es[n]
  {
    assert es[..m][..n] == es[..n];
  }

  /** No run returns money that never came in: every row of its refund ledger was written by the gateway, or by an
      edit that found the order paid, with the cash ticked if it was to be cash. */
  lemma {:induction false} RefundsReturnMoney(env: Env, s: State, es: seq<Event>, t: State, k: nat) returns (n: nat)
    requires Opening(s) && t == Run(env, s, es) && k < |t.ledger|
    ensures n < |es| && ReturnsMoney(Run(env, s, es[..n]), es[n], t.ledger[k].order)
  {
    n := |es| - 1;
    var m, before := n, Run(env, s, es[..n]);
    StepAddsRow(env, before, es[m]);
    GrownRow(before, es[m], t, k);
    if k < |before.ledger| {
      n := RefundsReturnMoney(env, s, es[..m], before, k);
      EarlierRun(env, s, es, m, n);
    }
  }
}
