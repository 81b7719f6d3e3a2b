/** The shop's requests as the program runs them, over rows updated in place. Each method is one
    transaction and ends in the state that the step specified for it in Shop. */
module ShopService {
  import opened Money
  import opened Orders
  import opened Pricing
  import opened TaxBreakdown
  import opened Checkout
  import opened Coupons
  import opened Shop
  import opened ShopBooks
  import opened ShopLaws
  import opened StockUpdates

  class Service {
    const env: Env
    var orders: seq<Order>
    var ledger: seq<RefundRow>
    var processed: set<nat>
    var audit: seq<Audit>
    var stock: map<nat, nat>
    var products: map<nat, nat>
    var recipes: map<nat, seq<RecipeRow>>
    var coupons: map<nat, Coupon>
    var carts: set<nat>

    function View(): State
      reads this
    {
      State(orders, ledger, processed, audit, stock, products, recipes, coupons, carts)
    }

    /** Every size that has a display mirror is a row of its own. */
    predicate Valid()
      reads this
    {
      env.mirrorOf.Keys <= stock.Keys
    }

    constructor (env: Env, stock: map<nat, nat>, products: map<nat, nat>)
      requires env.mirrorOf.Keys <= stock.Keys
      ensures Valid() && Opening(View()) && this.env == env && this.stock == stock && this.products == products
    {
      this.env := env;
      orders, ledger, processed, audit := [], [], {}, [];
      this.stock, this.products := stock, products;
      recipes, coupons, carts := map[], map[], {};
    }

    // ----- Stock -----

    /** Adds the collected units to the sizes, collecting what their display mirrors gain. */
    method CreditVariants(updates: Updates, start: Updates, ghost ds: seq<Draw>) returns (mirrored: Updates)
      requires Valid() && CountsVariants(updates, ds) && CountsProducts(start, ds)
      modifies this`stock
      ensures stock == map v | v in old(stock) :: old(stock)[v] + VariantUnits(ds, v)
      ensures WellFormed(mirrored)
          && forall p: nat :: Got(mirrored, p) == HardUnits(ds, p) + MirrorUnits(ds, p, env.mirrorOf)
    {
      mirrored := start;
      ghost var before := stock;
      for k := 0 to |updates.keys|
        invariant stock == Credited(before, updates.keys[..k], ds) && WellFormed(mirrored)
        invariant forall p: nat ::
          Got(mirrored, p) == HardUnits(ds, p) + MirrorSum(updates.keys[..k], ds, p, env.mirrorOf)
      {
        var v := updates.keys[k];
        var moved := updates.units[v];
        assert moved == Got(updates, v);
        MirrorStep(mirrored, updates.keys, k, ds, ds, env.mirrorOf, moved);
        CreditedNext(before, updates.keys, k, ds);
        if v in stock {
          stock := stock[v := stock[v] + moved];
          if v in env.mirrorOf {
            mirrored := Bump(mirrored, env.mirrorOf[v], moved);
          }
        }
      }
      AllKeys(updates, ds, env.mirrorOf);
      AllCredited(before, updates, ds);
    }

    /** Adds the collected units to the products. */
    method CreditProducts(updates: Updates)
      requires WellFormed(updates)
      modifies this`products
      ensures products == map p | p in old(products) :: old(products)[p] + Got(updates, p)
    {
      ghost var before := products;
      for k := 0 to |updates.keys|
        invariant products.Keys == before.Keys
        invariant forall p :: p in before ==>
          products[p] == before[p] + if p in updates.keys[..k] then Got(updates, p) else 0
      {
        var p := updates.keys[k];
        NextKey(updates.keys, k);
        if p in products {
          products := products[p := products[p] + updates.units[p]];
        }
      }
      assert updates.keys[..|updates.keys|] == updates.keys;
    }

    /** Gives an order's stock back, once. */
    method RestoreOrderStock(i: nat) returns (restocked: bool)
      requires Valid() && i < |orders|
      modifies this`orders, this`stock, this`products
      ensures Valid() && View() == RestoreStock(env, old(View()), i) && restocked == !old(orders)[i].restored
    {
      if orders[i].restored {
        return false;
      }
      ghost var ds := Restores(orders[i].bill.items, recipes);
      var variants, hard := CollectRestores(orders[i].bill.items, recipes);
      var all := CreditVariants(variants, hard, ds);
      CreditProducts(all);
      RestockedView(env, old(View()), i, ds, all, stock, products);
      orders := orders[i := orders[i].(restored := true, restocks := orders[i].restocks + 1)];
      restocked := true;
    }

    /** Takes the collected units from the sizes; false as soon as one has too few. */
    method DrawVariants(updates: Updates, ghost ds: seq<Draw>) returns (ok: bool, mirrored: Updates)
      requires Valid() && CountsVariants(updates, ds)
      modifies this`stock
      ensures ok <==> forall v :: v in old(stock) ==> VariantUnits(ds, v) <= old(stock)[v]
      ensures ok ==> stock.Keys == old(stock).Keys && forall v :: v in old(stock) ==>
        stock[v] == Less(old(stock)[v], VariantUnits(ds, v))
      ensures ok ==> WellFormed(mirrored) && forall p: nat :: Got(mirrored, p) == MirrorUnits(ds, p, env.mirrorOf)
    {
      mirrored := Updates([], map[]);
      ghost var before := stock;
      for k := 0 to |updates.keys|
        invariant stock == Drawn(before, updates.keys[..k], ds) && WellFormed(mirrored)
        invariant Covers(before, updates.keys[..k], ds)
        invariant forall p: nat ::
          Got(mirrored, p) == HardUnits([], p) + MirrorSum(updates.keys[..k], ds, p, env.mirrorOf)
      {
        var v := updates.keys[k];
        var moved := updates.units[v];
        assert moved == Got(updates, v);
        MirrorStep(mirrored, updates.keys, k, [], ds, env.mirrorOf, moved);
        DrawnNext(before, updates.keys, k, ds);
        if v in stock {
          if stock[v] < moved {
            return false, mirrored;
          }
          stock := stock[v := stock[v] - moved];
          if v in env.mirrorOf {
            mirrored := Bump(mirrored, env.mirrorOf[v], moved);
          }
        }
      }
      AllKeys(updates, ds, env.mirrorOf);
      AllDrawn(before, updates, ds);
      ok := true;
    }

    /** Takes the units of variant-less lines, which must be there, then those of display mirrors,
        clamped at zero. */
    method DrawProducts(hard: Updates, mirror: Updates) returns (ok: bool)
      requires WellFormed(hard) && WellFormed(mirror)
      modifies this`products
      ensures ok <==> forall p :: p in old(products) ==> Got(hard, p) <= old(products)[p]
      ensures ok ==> products.Keys == old(products).Keys
      ensures ok ==> forall p :: p in old(products) ==>
        products[p] == Max(0, old(products)[p] - Got(hard, p) - Got(mirror, p))
    {
      var affected := Union(hard.keys, mirror.keys);
      ghost var before := products;
      for k := 0 to |affected|
        invariant products.Keys == before.Keys
        invariant forall p :: p in before && p in affected[..k] ==> Got(hard, p) <= before[p]
        invariant forall p :: p in before ==>
          products[p] == if p in affected[..k] then Max(0, before[p] - Got(hard, p) - Got(mirror, p)) else before[p]
      {
        var p := affected[k];
        NextKey(affected, k);
        if p in products {
          var needed := Got(hard, p);
          if needed > 0 && products[p] < needed {
            return false;
          }
          products := products[p := products[p] - needed];
          if Got(mirror, p) > 0 {
            products := products[p := Max(0, products[p] - Got(mirror, p))];
          }
        }
      }
      assert affected[..|affected|] == affected;
      ok := true;
    }

    // ----- Checkout -----

    /** Cancels and restocks an order nobody paid for. */
    method CloseUnpaidOrder(i: nat)
      requires Valid() && i < |orders|
      modifies this`orders, this`stock, this`products
      ensures Valid() && View() == CloseUnpaid(env, old(View()), i)
    {
      var _ := RestoreOrderStock(i);
      orders := orders[i := orders[i].(status := Cancelled, payStatus := Rejected)];
    }

    /** Closes the customer's open unpaid gateway orders. */
    method SupersedeStale(user: nat)
      requires Valid()
      modifies this`orders, this`stock, this`products
      ensures Valid() && View() == Supersede(env, old(View()), user, |old(orders)|)
      ensures |orders| == |old(orders)| && forall j :: 0 <= j < |orders| ==>
        var o := old(orders)[j];
        orders[j] == if o.user == user && o.payBy.Online? && o.payStatus.Unpaid? && o.status.Pending?
                     then ClosedRow(o) else o
    {
      ghost var before := View();
      var n := |orders|;
      for i := 0 to n
        invariant Valid() && |orders| == n && View() == Supersede(env, before, user, i)
      {
        if IsStale(orders[i], user) {
          CloseUnpaidOrder(i);
        }
      }
      SupersededRows(env, before, user, n, View());
    }

    /** Takes a cart's units, or reports that stock does not cover it. */
    method DrawCart(cart: seq<CartLine>) returns (ok: bool)
      requires Valid()
      modifies this`stock, this`products
      ensures ok <==> CanDraw(old(View()), CartDraws(cart))
      ensures ok ==> Valid() && View() == TakeStock(env, old(View()), CartDraws(cart))
    {
      ghost var ds := CartDraws(cart);
      var variants, hard := CollectDraws(cart);
      var mirror;
      ok, mirror := DrawVariants(variants, ds);
      if ok {
        ok := DrawProducts(hard, mirror);
        if ok {
          DrawnView(env, old(View()), ds, hard, mirror, stock, products);
        }
      }
    }

    /** Puts every row back as it was. */
    method Rollback(s: State)
      modifies this
      ensures View() == s
    {
      orders, ledger, processed, audit := s.orders, s.ledger, s.processed, s.audit;
      stock, products, recipes, coupons, carts := s.stock, s.products, s.recipes, s.coupons, s.carts;
    }

    /** Uses the coupon once, unless its locked row no longer admits it. */
    method RedeemCoupon(coupon: Option<(nat, Coupon)>, subtotal: int, user: nat, now: int) returns (ok: bool)
      modifies this`coupons
      ensures ok <==> CouponAdmits(old(View()), coupon, subtotal, user, now)
      ensures ok ==> View() == UseCoupon(old(View()), coupon)
    {
      if coupon.None? {
        return true;
      }
      var id := coupon.value.0;
      if id !in coupons || InvalidReason(coupons[id], subtotal, user, now).Some? {
        return false;
      }
      coupons := coupons[id := coupons[id].(usageCount := coupons[id].usageCount + 1)];
      ok := true;
    }

    /** Checkout's transaction: all of it, or nothing. */
    method Create(user: nat, payBy: Method, cart: seq<CartLine>, coupon: Option<(nat, Coupon)>, now: int)
      returns (ok: bool)
      requires Valid()
      modifies this
      ensures Valid() && View() == Step(env, old(View()), Event.PlaceOrder(user, payBy, cart, coupon, now))
      ensures ok <==> Accepts(env, old(View()), Event.PlaceOrder(user, payBy, cart, coupon, now))
      ensures ok ==> |orders| == |old(orders)| + 1
      ensures !ok ==> View() == old(View())
    {
      var saved := View();
      ghost var e := Event.PlaceOrder(user, payBy, cart, coupon, now);
      if user !in carts {
        return false;
      }
      SupersedeStale(user);
      ghost var t := View();
      SupersedeFrame(env, saved, user, |saved.orders|);
      ok := DrawCart(cart);
      if !ok {
        Rollback(saved);
        return false;
      }
      ghost var u := View();
      TakeStockFrame(env, t, CartDraws(cart));
      ok := RedeemCoupon(coupon, Subtotal(cart), user, now);
      if !ok {
        Rollback(saved);
        return false;
      }
      assert View() == UseCoupon(u, coupon);
      UseCouponFrame(u, coupon);
      AppendOrder(user, payBy, cart, CouponRow(coupon));
    }

    /** Appends the order; the cart is emptied only when the order is complete at placement. */
    method AppendOrder(user: nat, payBy: Method, cart: seq<CartLine>, coupon: Option<Coupon>)
      modifies this`orders, this`carts
      ensures var waived := IsWaived(Subtotal(cart), coupon);
        && orders == old(orders) + [NewOrder(user, payBy, PriceCart(cart, coupon, env.policy), waived, CartDraws(cart))]
        && carts == if payBy.COD? || waived then old(carts) - {user} else old(carts)
    {
      var waived := IsWaived(Subtotal(cart), coupon);
      var order := WriteOrder(user, payBy, cart, coupon, waived);
      orders := orders + [order];
      if payBy.COD? || waived {
        carts := carts - {user};
      }
    }

    /** The order row and the invoice a waived order is due at once. */
    method WriteOrder(user: nat, payBy: Method, cart: seq<CartLine>, coupon: Option<Coupon>, waived: bool)
      returns (order: Order)
      ensures order == NewOrder(user, payBy, PriceCart(cart, coupon, env.policy), waived, CartDraws(cart))
    {
      var bill := Checkout.PlaceOrder(cart, coupon, env.policy);
      order := Order(user, payBy, bill, if waived then Confirmed else Pending, if waived then Paid else Unpaid,
                     false, None, 0, 0, false, false, [], CartDraws(cart), 0);
      if InvoiceIsDue(order) {
        order := order.(invoiced := true);
      }
    }

    // ----- Payment events -----

    /** The locked part of opening the gateway page: a live payment of the right amount is reused, anything
        else starts a new session. */
    method OpenSession(i: nat)
      requires i < |orders|
      modifies this`orders, this`audit
      ensures View() == BeginPayment(old(View()), i)
    {
      var o := orders[i];
      if o.payment.Some? && o.payment.value.status.Awaiting? && o.payment.value.amount == o.bill.total {
        return;
      }
      var p := Payment(o.bill.total, Awaiting, 0, 0, 0);
      if o.payment.Some? {
        var was := o.payment.value;
        p := p.(session := was.session + 1, confirmed := was.confirmed, reopened := was.reopened);
        if was.status.Completed? || was.status.Returned? {
          p := p.(reopened := was.reopened + 1);
        }
      }
      Save(i, o.(payment := Some(p)));
      LogPaymentEvent(i, OrderCreated, None, Some(Awaiting), false);
    }

    method LogPaymentEvent(i: nat, kind: AuditKind, from: Option<GatewayStatus>, to: Option<GatewayStatus>, alert: bool)
      modifies this`audit
      ensures View() == Log(old(View()), i, kind, from, to, alert)
    {
      audit := audit + [Audit(i, kind, from, to, alert)];
    }

    method RecordProcessedEvent(eventId: Option<nat>)
      modifies this`processed
      ensures View() == Processed(old(View()), eventId)
    {
      if eventId.Some? {
        processed := processed + {eventId.value};
      }
    }

    method Save(i: nat, o: Order)
      requires i < |orders|
      modifies this`orders
      ensures View() == Put(old(View()), i, o)
    {
      orders := orders[i := o];
    }

    method MaybeIssueInvoice(i: nat)
      requires i < |orders|
      modifies this`orders
      ensures View() == Put(old(View()), i, MaybeInvoice(old(orders)[i]))
    {
      if InvoiceIsDue(orders[i]) {
        orders := orders[i := orders[i].(invoiced := true)];
      }
      assert orders == old(orders)[i := MaybeInvoice(old(orders)[i])];
    }

    method MarkPaymentCaptured(i: nat, eventId: Option<nat>, amount: Option<int>)
      requires i < |orders| && orders[i].payment.Some?
      modifies this`orders, this`audit, this`processed, this`carts
      ensures View() == MarkCaptured(old(View()), i, eventId, amount)
    {
      var o := orders[i];
      var p := o.payment.value;
      if p.status.Completed? || p.status.Returned? {
        RecordProcessedEvent(eventId);
        LogPaymentEvent(i, DuplicateIgnored, None, None, false);
        return;
      }
      if eventId.Some? && eventId.value in processed {
        LogPaymentEvent(i, DuplicateIgnored, None, None, false);
        return;
      }
      if amount.Some? && amount.value != p.amount {
        LogPaymentEvent(i, AmountMismatch, None, None, true);
        RecordProcessedEvent(eventId);
        return;
      }
      if o.status.Cancelled? {
        Save(i, o.(payment := Some(p.(status := Completed))));
        LogPaymentEvent(i, CapturedAfterCancel, Some(Awaiting), Some(Completed), true);
        RecordProcessedEvent(eventId);
        return;
      }
      Confirm(i);
      carts := carts - {o.user};
      LogPaymentEvent(i, Captured, Some(p.status), Some(Completed), false);
      RecordProcessedEvent(eventId);
    }

    /** A capture delivered by the gateway: a session nobody knows is reported and changes nothing. */
    method OnCapture(i: nat, session: nat, eventId: Option<nat>, amount: Option<int>) returns (found: bool)
      modifies this`orders, this`audit, this`processed, this`carts
      ensures found <==> Found(old(View()), i, session)
      ensures View() == Step(env, old(View()), Capture(i, session, eventId, amount))
    {
      found := i < |orders| && orders[i].payment.Some? && orders[i].payment.value.session == session;
      if found {
        MarkPaymentCaptured(i, eventId, amount);
      }
    }

    method OnFailure(i: nat, session: nat, eventId: Option<nat>) returns (found: bool)
      modifies this`orders, this`audit, this`processed
      ensures found <==> Found(old(View()), i, session)
      ensures View() == Step(env, old(View()), Fail(i, session, eventId))
    {
      found := i < |orders| && orders[i].payment.Some? && orders[i].payment.value.session == session;
      if found {
        MarkPaymentFailed(i, eventId);
      }
    }

    method Confirm(i: nat)
      requires i < |orders| && orders[i].payment.Some?
      modifies this`orders
      ensures View() == Put(old(View()), i, ConfirmedOrder(old(orders)[i]))
    {
      var p := orders[i].payment.value;
      orders := orders[i := orders[i].(payment := Some(p.(status := Completed, confirmed := p.confirmed + 1)))];
      orders := orders[i := orders[i].(payStatus := Paid, status := Confirmed)];
      MaybeIssueInvoice(i);
      assert orders == old(orders)[i := ConfirmedOrder(old(orders)[i])];
    }

    method MarkPaymentFailed(i: nat, eventId: Option<nat>)
      requires i < |orders| && orders[i].payment.Some?
      modifies this`orders, this`audit, this`processed
      ensures View() == MarkFailed(old(View()), i, eventId)
    {
      if eventId.Some? && eventId.value in processed {
        return;
      }
      var p := orders[i].payment.value;
      if !p.status.Awaiting? {
        LogPaymentEvent(i, OutOfOrderIgnored, None, None, false);
        RecordProcessedEvent(eventId);
        return;
      }
      Save(i, orders[i].(payment := Some(p.(status := Failed)), payStatus := Declined));
      LogPaymentEvent(i, PaymentFailed, Some(Awaiting), Some(Failed), false);
      RecordProcessedEvent(eventId);
    }

    // ----- Refunds -----

    /** The refund ledger's totals for one order. */
    method LedgerTotals(i: nat) returns (amount: int, tax: int)
      ensures amount == LedgerAmount(ledger, i) && tax == LedgerTax(ledger, i)
    {
      amount, tax := 0, 0;
      for k := 0 to |ledger|
        invariant amount == LedgerAmount(ledger[..k], i) && tax == LedgerTax(ledger[..k], i)
      {
        assert ledger[..k + 1][..k] == ledger[..k];
        if ledger[k].order == i {
          amount, tax := amount + ledger[k].amount, tax + ledger[k].tax;
        }
      }
      assert ledger[..|ledger|] == ledger;
    }

    /** Appends a refund to the ledger, rewrites the order's totals from it, restocks and credits. */
    method AppendRefund(i: nat, asked: int, reference: Option<nat>, mark: bool) returns (recorded: bool)
      requires Valid() && i < |orders|
      modifies this`orders, this`ledger, this`stock, this`products
      ensures Valid() && View() == RecordRefund(env, old(View()), i, asked, reference, mark)
      ensures recorded <==> RefundIsRecorded(old(View()), i, asked, reference)
    {
      if asked <= 0 || ReferenceKnown(ledger, reference) {
        return false;
      }
      var refundable := orders[i].bill.total - orders[i].refundedAmount;
      if refundable <= 0 {
        return false;
      }
      var amount := if asked > refundable then refundable else asked;
      var tax := RefundTaxFor(orders[i].bill, orders[i].refundedTax, amount);
      ledger := ledger + [RefundRow(i, amount, tax, reference)];
      WriteTotals(i, mark);
      var _ := RestoreOrderStock(i);
      CreditRefund(i, amount, tax);
      recorded := true;
    }

    /** Rewrites an order's refund totals, and its status once all of it is back or an admin said so. */
    method WriteTotals(i: nat, mark: bool)
      requires i < |orders|
      modifies this`orders
      ensures View() == Put(old(View()), i, RefundedOrder(old(orders)[i], ledger, i, mark))
    {
      var amount, tax := LedgerTotals(i);
      var r := orders[i].(refundedAmount := amount, refundedTax := tax);
      if (r.bill.total > 0 && r.refundedAmount >= r.bill.total) || mark {
        r := r.(status := Refunded, payStatus := PaidBack);
      }
      orders := orders[i := r];
    }

    /** The credit note of a refund, when there is an invoice to credit. */
    method CreditRefund(i: nat, amount: int, tax: int)
      requires i < |orders|
      modifies this`orders
      ensures View() == Put(old(View()), i, AddNote(old(orders)[i], Note(ForRefund, amount, tax)))
    {
      if orders[i].invoiced {
        orders := orders[i := orders[i].(notes := orders[i].notes + [Note(ForRefund, amount, tax)])];
      }
      assert orders == old(orders)[i := AddNote(old(orders)[i], Note(ForRefund, amount, tax))];
    }

    method MarkPaymentRefunded(i: nat, eventId: Option<nat>, amount: Option<int>, reference: Option<nat>)
      requires Valid() && i < |orders| && orders[i].payment.Some?
      modifies this`orders, this`ledger, this`stock, this`products, this`audit, this`processed
      ensures Valid() && View() == MarkRefunded(env, old(View()), i, eventId, amount, reference)
    {
      if eventId.Some? && eventId.value in processed {
        return;
      }
      if orders[i].payment.value.status.Returned? {
        RecordProcessedEvent(eventId);
        return;
      }
      var from := orders[i].payment.value.status;
      var asked := if amount.Some? then amount.value else orders[i].bill.total - orders[i].refundedAmount;
      ghost var before := View();
      ReturnMoney(i, asked, reference, from);
      assert View() == SettledRefund(RecordRefund(env, before, i, asked, reference, false), i, from);
      RecordProcessedEvent(eventId);
    }

    /** Records the refund and settles the payment. */
    method ReturnMoney(i: nat, asked: int, reference: Option<nat>, from: GatewayStatus)
      requires Valid() && i < |orders| && orders[i].payment.Some? && orders[i].payment.value.status == from
      modifies this`orders, this`ledger, this`stock, this`products, this`audit
      ensures Valid()
      ensures var u := RecordRefund(env, old(View()), i, asked, reference, false);
        u.orders[i].payment.Some? && View() == SettledRefund(u, i, from)
    {
      RecordKeepsPayment(env, View(), i, asked, reference, false);
      var _ := AppendRefund(i, asked, reference, false);
      SettleRefund(i, from);
    }

    /** The payment is returned once the whole order is. */
    method SettleRefund(i: nat, from: GatewayStatus)
      requires i < |orders| && orders[i].payment.Some? && orders[i].payment.value.status == from
      modifies this`orders, this`audit
      ensures View() == SettledRefund(old(View()), i, from)
    {
      var to := from;
      if orders[i].refundedAmount >= orders[i].bill.total > 0 {
        to := Returned;
      }
      Save(i, orders[i].(payment := Some(orders[i].payment.value.(status := to))));
      LogPaymentEvent(i, PaymentRefunded, Some(from), Some(to), false);
    }

    // ----- Cancellation and admin edits -----

    method MaybeIssueCancellationNote(i: nat)
      requires i < |orders|
      modifies this`orders
      ensures View() == Put(old(View()), i, MaybeCancellationNote(old(orders)[i]))
    {
      var o := orders[i];
      if CancellationNoteDue(o) {
        var amount, tax := o.bill.total - NotesAmount(o.notes), o.bill.TotalTax() - NotesTax(o.notes);
        orders := orders[i := o.(notes := o.notes + [Note(ForCancellation, amount, tax)])];
      }
      assert orders == old(orders)[i := MaybeCancellationNote(o)];
    }

    method CancelByRequest(i: nat, staff: bool) returns (ok: bool)
      requires Valid() && i < |orders|
      modifies this`orders, this`stock, this`products
      ensures Valid() && View() == CancelOrder(env, old(View()), i, staff)
      ensures ok <==> !Uncancellable(old(orders)[i].status) && (staff || !PaymentCompleted(old(orders)[i]))
    {
      if Uncancellable(orders[i].status) {
        return false;
      }
      if orders[i].payment.Some? && orders[i].payment.value.status.Completed? && !staff {
        return false;
      }
      var _ := RestoreOrderStock(i);
      orders := orders[i := orders[i].(status := Cancelled)];
      MaybeIssueCancellationNote(i);
      ok := true;
    }

    /** The reconciliation job giving up on an unpaid order. */
    method CancelAbandoned(i: nat)
      requires Valid() && i < |orders|
      modifies this`orders, this`stock, this`products, this`audit
      ensures Valid() && View() == AbandonOrder(env, old(View()), i)
    {
      if orders[i].status.Cancelled? || orders[i].payStatus.Paid? {
        return;
      }
      CloseUnpaidOrder(i);
      LogPaymentEvent(i, AutoCancelled, None, None, false);
    }

    /** An admin edit. What can be checked first is refused before anything is written; a refund the
        balance does not allow is found after the row was saved, and rolls the whole edit back. */
    method Update(e: Event) returns (ok: bool)
      requires Valid() && e.Edit? && e.order < |orders|
      modifies this
      ensures Valid() && View() == EditOrder(env, old(View()), e)
      ensures ok <==> EditIsAccepted(old(orders)[e.order], e)
      ensures AsksRefund(old(orders)[e.order], e) && !MoneyTaken(old(orders)[e.order]) ==> !ok && View() == old(View())
    {
      var saved, i, o := View(), e.order, orders[e.order];
      if e.refund.Some? && e.refund.value <= 0 {
        return false;
      }
      if Cancelling(o, e) && (o.status.Delivered? || o.status.Delivering?) {
        return false;
      }
      if RecordsRefund(o, e) && !IsRefundablePayment(o) {
        return false;
      }
      if ApplyPayment(o, e.payStatus, e.codPaid).None? {
        return false;
      }
      EditAcceptedExactly(env, saved, e);
      SavedBalance(env, saved, e);
      WriteEdit(e);
      if RecordsRefund(o, e) {
        var outstanding := orders[i].bill.total - orders[i].refundedAmount;
        var amount := if e.refund.Some? then e.refund.value else outstanding;
        if outstanding <= 0 || amount > outstanding {
          Rollback(saved);
          return false;
        }
        var _ := AppendRefund(i, amount, None, true);
      }
      ok := true;
    }

    /** Restocks a cancellation, saves the row, and raises the documents the edit makes due. */
    method WriteEdit(e: Event)
      requires Valid() && e.Edit? && e.order < |orders| && ApplyPayment(orders[e.order], e.payStatus, e.codPaid).Some?
      modifies this`orders, this`stock, this`products
      ensures Valid() && View() == SavedEdit(env, old(View()), e)
    {
      var i, o := e.order, orders[e.order];
      var status := if e.status.Some? then e.status.value else o.status;
      var cancelling := Cancelling(o, e);
      Save(i, ApplyPayment(o, e.payStatus, e.codPaid).value);
      if cancelling {
        var _ := RestoreOrderStock(i);
      }
      ghost var restocked := View();
      orders := orders[i := orders[i].(status := status)];
      MaybeIssueInvoice(i);
      if cancelling {
        MaybeIssueCancellationNote(i);
      }
      assert orders == restocked.orders[i := EditedOrder(restocked.orders[i], status, cancelling)];
    }
  }

  /** Saving an edit does not change what is left to refund. */
  lemma SavedBalance(env: Env, s: State, e: Event)
    requires e.Edit? && e.order < |s.orders| && ApplyPayment(s.orders[e.order], e.payStatus, e.codPaid).Some?
    ensures Refundable(SavedEdit(env, s, e).orders[e.order]) == Refundable(s.orders[e.order])
  {
    SavedFrame(env, s, e);
    AppliedFrame(s.orders[e.order], e.payStatus, e.codPaid);
  }

  lemma NextKey(keys: seq<nat>, k: nat)
    requires k < |keys|
    ensures keys[..k + 1] == keys[..k] + [keys[k]] && keys[..k + 1][..k] == keys[..k]
    ensures Distinct(keys) ==> keys[k] !in keys[..k]
    ensures forall v :: v in keys[..k + 1] <==> v in keys[..k] || v == keys[k]
  {
  }

  /** The sizes after the first `keys` of a dictionary were credited. */
  function Credited(m: map<nat, nat>, keys: seq<nat>, ds: seq<Draw>): map<nat, nat> {
    map v | v in m :: m[v] + if v in keys then VariantUnits(ds, v) else 0
  }

  lemma CreditedNext(m: map<nat, nat>, keys: seq<nat>, k: nat, ds: seq<Draw>)
    requires k < |keys| && Distinct(keys)
    ensures var v, c := keys[k], Credited(m, keys[..k], ds);
      Credited(m, keys[..k + 1], ds) == if v in c then c[v := c[v] + VariantUnits(ds, v)] else c
  {
    NextKey(keys, k);
  }

  lemma AllCredited(m: map<nat, nat>, u: Updates, ds: seq<Draw>)
    requires CountsVariants(u, ds)
    ensures Credited(m, u.keys[..|u.keys|], ds) == map v | v in m :: m[v] + VariantUnits(ds, v)
  {
    AllKeys(u, ds, map[]);
  }

  lemma RestockedView(env: Env, s: State, i: nat, ds: seq<Draw>, all: Updates, stock: map<nat, nat>,
                      products: map<nat, nat>)
    requires i < |s.orders| && !s.orders[i].restored && ds == Restores(s.orders[i].bill.items, s.recipes)
    requires stock == map v | v in s.stock :: s.stock[v] + VariantUnits(ds, v)
    requires products == map p | p in s.products :: s.products[p] + Got(all, p)
    requires forall p: nat :: Got(all, p) == HardUnits(ds, p) + MirrorUnits(ds, p, env.mirrorOf)
    ensures var o := s.orders[i];
      RestoreStock(env, s, i) == s.(orders := s.orders[i := o.(restored := true, restocks := o.restocks + 1)],
                                    stock := stock, products := products)
  {
    RestockedProducts(env, s, ds, all, products);
    RestockedIs(env, s, i, ds, stock, products);
  }

  lemma RestockedIs(env: Env, s: State, i: nat, ds: seq<Draw>, stock: map<nat, nat>, products: map<nat, nat>)
    requires i < |s.orders| && !s.orders[i].restored && ds == Restores(s.orders[i].bill.items, s.recipes)
    requires stock == map v | v in s.stock :: s.stock[v] + VariantUnits(ds, v)
    requires products == map p | p in s.products :: s.products[p] + HardUnits(ds, p) + MirrorUnits(ds, p, env.mirrorOf)
    ensures var o := s.orders[i];
      RestoreStock(env, s, i) == s.(orders := s.orders[i := o.(restored := true, restocks := o.restocks + 1)],
                                    stock := stock, products := products)
  {
    RestockedStock(env, s, i, ds, stock);
    assert RestoreStock(env, s, i).products == products;
  }

  lemma RestockedStock(env: Env, s: State, i: nat, ds: seq<Draw>, stock: map<nat, nat>)
    requires i < |s.orders| && !s.orders[i].restored && ds == Restores(s.orders[i].bill.items, s.recipes)
    requires stock == map v | v in s.stock :: s.stock[v] + VariantUnits(ds, v)
    ensures RestoreStock(env, s, i).stock == stock
  {
  }

  lemma RestockedProducts(env: Env, s: State, ds: seq<Draw>, all: Updates, products: map<nat, nat>)
    requires products == map p | p in s.products :: s.products[p] + Got(all, p)
    requires forall p: nat :: Got(all, p) == HardUnits(ds, p) + MirrorUnits(ds, p, env.mirrorOf)
    ensures products == map p | p in s.products :: s.products[p] + HardUnits(ds, p) + MirrorUnits(ds, p, env.mirrorOf)
  {
  }

  lemma DrawnView(env: Env, s: State, ds: seq<Draw>, hard: Updates, mirror: Updates, stock: map<nat, nat>,
                  products: map<nat, nat>)
    requires CanDraw(s, ds) && CountsProducts(hard, ds)
    requires forall p: nat :: Got(mirror, p) == MirrorUnits(ds, p, env.mirrorOf)
    requires stock.Keys == s.stock.Keys && forall v :: v in s.stock ==>
      stock[v] == Less(s.stock[v], VariantUnits(ds, v))
    requires products.Keys == s.products.Keys
    requires forall p :: p in s.products ==> products[p] == Max(0, s.products[p] - Got(hard, p) - Got(mirror, p))
    ensures TakeStock(env, s, ds) == s.(stock := stock, products := products)
  {
    DrawnStock(env, s, ds, stock);
    DrawnProducts(env, s, ds, hard, mirror, products);
    TakeStockFrame(env, s, ds);
  }

  lemma DrawnStock(env: Env, s: State, ds: seq<Draw>, stock: map<nat, nat>)
    requires CanDraw(s, ds)
    requires stock.Keys == s.stock.Keys && forall v :: v in s.stock ==>
      stock[v] == Less(s.stock[v], VariantUnits(ds, v))
    ensures TakeStock(env, s, ds).stock == stock
  {
  }

  lemma DrawnProducts(env: Env, s: State, ds: seq<Draw>, hard: Updates, mirror: Updates, products: map<nat, nat>)
    requires CanDraw(s, ds) && CountsProducts(hard, ds)
    requires forall p: nat :: Got(mirror, p) == MirrorUnits(ds, p, env.mirrorOf)
    requires products.Keys == s.products.Keys
    requires forall p :: p in s.products ==> products[p] == Max(0, s.products[p] - Got(hard, p) - Got(mirror, p))
    ensures TakeStock(env, s, ds).products == products
  {
  }

  function Less(a: nat, b: nat): nat {
    if a >= b then a - b else 0
  }

  /** The sizes after the first `keys` of a dictionary were drawn. */
  function Drawn(m: map<nat, nat>, keys: seq<nat>, ds: seq<Draw>): map<nat, nat> {
    map v | v in m :: Less(m[v], if v in keys then VariantUnits(ds, v) else 0)
  }

  predicate Covers(m: map<nat, nat>, keys: seq<nat>, ds: seq<Draw>) {
    forall v :: v in m && v in keys ==> VariantUnits(ds, v) <= m[v]
  }

  lemma DrawnNext(m: map<nat, nat>, keys: seq<nat>, k: nat, ds: seq<Draw>)
    requires k < |keys| && Distinct(keys) && Covers(m, keys[..k], ds)
    ensures var v, c := keys[k], Drawn(m, keys[..k], ds);
      && (v in c <==> v in m) && (v in m ==> c[v] == m[v])
      && (v in m && VariantUnits(ds, v) <= m[v] ==> Drawn(m, keys[..k + 1], ds) == c[v := c[v] - VariantUnits(ds, v)])
      && (v !in m ==> Drawn(m, keys[..k + 1], ds) == c)
      && (v in m && VariantUnits(ds, v) <= m[v] ==> Covers(m, keys[..k + 1], ds))
      && (v !in m ==> Covers(m, keys[..k + 1], ds))
  {
    NextKey(keys, k);
  }

  lemma AllDrawn(m: map<nat, nat>, u: Updates, ds: seq<Draw>)
    requires CountsVariants(u, ds) && Covers(m, u.keys[..|u.keys|], ds)
    ensures forall v :: v in m ==> VariantUnits(ds, v) <= m[v]
    ensures Drawn(m, u.keys[..|u.keys|], ds) == map v | v in m :: Less(m[v], VariantUnits(ds, v))
  {
    AllKeys(u, ds, map[]);
  }

  /** One more size collected for its display mirror. */
  lemma MirrorStep(m: Updates, keys: seq<nat>, k: nat, hard: seq<Draw>, ds: seq<Draw>, mirrorOf: map<nat, nat>,
                   units: nat)
    requires k < |keys| && WellFormed(m) && units == VariantUnits(ds, keys[k])
    requires forall p: nat :: Got(m, p) == HardUnits(hard, p) + MirrorSum(keys[..k], ds, p, mirrorOf)
    ensures var n := if keys[k] in mirrorOf then Bump(m, mirrorOf[keys[k]], units) else m;
      WellFormed(n) && forall p: nat :: Got(n, p) == HardUnits(hard, p) + MirrorSum(keys[..k + 1], ds, p, mirrorOf)
  {
    var v := keys[k];
    NextKey(keys, k);
    if v in mirrorOf {
      BumpWellFormed(m, mirrorOf[v], units);
    }
    forall p: nat ensures Got(if v in mirrorOf then Bump(m, mirrorOf[v], units) else m, p)
      == HardUnits(hard, p) + MirrorSum(keys[..k + 1], ds, p, mirrorOf)
    {
      MirrorSumNext(keys, k, ds, p, mirrorOf);
    }
  }

  lemma MirrorSumNext(keys: seq<nat>, k: nat, ds: seq<Draw>, p: nat, mirrorOf: map<nat, nat>)
    requires k < |keys|
    ensures MirrorSum(keys[..k + 1], ds, p, mirrorOf) == MirrorSum(keys[..k], ds, p, mirrorOf)
      + if keys[k] in mirrorOf && mirrorOf[keys[k]] == p then VariantUnits(ds, keys[k]) else 0
  {
    NextKey(keys, k);
  }

  lemma AllKeys(u: Updates, ds: seq<Draw>, mirrorOf: map<nat, nat>)
    requires CountsVariants(u, ds)
    ensures u.keys[..|u.keys|] == u.keys
    ensures forall v: nat :: v !in u.keys ==> VariantUnits(ds, v) == 0
    ensures forall p :: MirrorSum(u.keys, ds, p, mirrorOf) == MirrorUnits(ds, p, mirrorOf)
  {
    assert u.keys[..|u.keys|] == u.keys;
    CountedNames(u, ds);
    forall p ensures MirrorSum(u.keys, ds, p, mirrorOf) == MirrorUnits(ds, p, mirrorOf) {
      MirrorsAddUp(u.keys, ds, p, mirrorOf);
    }
    forall v: nat | v !in u.keys ensures VariantUnits(ds, v) == 0 {
      assert Got(u, v) == 0;
    }
  }

  /** Two lists of ids as one list without repeats. */
  method Union(a: seq<nat>, b: seq<nat>) returns (c: seq<nat>)
    requires Distinct(a) && Distinct(b)
    ensures Distinct(c) && forall k :: k in c <==> k in a || k in b
  {
    c := a;
    for i := 0 to |b|
      invariant Distinct(c) && forall k :: k in c <==> k in a || k in b[..i]
    {
      if b[i] !in a {
        c := c + [b[i]];
      }
    }
  }
}
