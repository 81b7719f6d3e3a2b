/** What each request does to the shop's rows, said in the rows' own fields: which rows it may touch, exactly
    when it is honoured, and what they hold afterwards. */
module ShopLaws {
  import opened Money
  import opened Orders
  import opened Pricing
  import opened TaxBreakdown
  import opened Checkout
  import opened Coupons
  import opened Shop
  import opened ShopBooks
  import opened ShopSafety

  // ----- Checkout -----

  /** A row cancelled because nobody paid for it: rejected, and its stock given back once. */
  function ClosedRow(o: Order): Order {
    o.(status := Cancelled, payStatus := Rejected, restored := true,
       restocks := if o.restored then o.restocks else o.restocks + 1)
  }

  lemma {:induction false} SupersededRows(env: Env, s: State, user: nat, n: nat, t: State)
    requires n <= |s.orders| && t == Supersede(env, s, user, n)
    ensures |t.orders| == |s.orders|
    ensures forall j :: 0 <= j < |s.orders| ==>
      var o := s.orders[j];
      t.orders[j] == if j < n && o.user == user && o.payBy.Online? && o.payStatus.Unpaid? && o.status.Pending?
                     then ClosedRow(o) else o
  {
    if n > 0 {
      var u := Supersede(env, s, user, n - 1);
      SupersededRows(env, s, user, n - 1, u);
      ClosedIfStale(env, u, n - 1, user, t);
      assert u.orders[n - 1] == s.orders[n - 1];
    }
  }

  lemma ClosedIfStale(env: Env, u: State, i: nat, user: nat, t: State)
    requires i < |u.orders| && t == CloseIfStale(env, u, i, user)
    ensures var o := u.orders[i];
      t.orders == u.orders[i := if o.user == user && o.payBy.Online? && o.payStatus.Unpaid? && o.status.Pending?
                                then ClosedRow(o) else o]
  {
    RestoreFrame(env, u, i);
    assert t.orders[i] == if IsStale(u.orders[i], user) then ClosedRow(u.orders[i]) else u.orders[i];
  }

  /** A committed checkout closes the customer's own pending unpaid online orders, leaves every other earlier row
      as it was, and appends one. That one waits to be paid, unless a coupon left nothing to pay: then it is
      confirmed, paid and invoiced at once. */
  lemma CheckoutRows(env: Env, s: State, e: Event, t: State)
    requires e.PlaceOrder? && Accepts(env, s, e) && t == Step(env, s, e)
    ensures |t.orders| == |s.orders| + 1
    ensures forall j :: 0 <= j < |s.orders| ==>
      var o := s.orders[j];
      t.orders[j] == if o.user == e.user && o.payBy.Online? && o.payStatus.Unpaid? && o.status.Pending?
                     then ClosedRow(o) else o
    ensures var o, free := t.orders[|s.orders|], e.coupon.Some? && t.orders[|s.orders|].bill.total == 0;
      && o.user == e.user && o.payBy == e.payBy
      && o.bill == PriceCart(e.cart, if e.coupon.Some? then Some(e.coupon.value.1) else None, env.policy)
      && o.status == (if free then Confirmed else Pending) && o.payStatus == (if free then Paid else Unpaid)
      && o.invoiced == free && !o.codPaid && o.payment.None? && o.notes == []
      && o.refundedAmount == 0 && o.refundedTax == 0 && !o.restored && o.restocks == 0
  {
    var u := Supersede(env, s, e.user, |s.orders|);
    SupersededRows(env, s, e.user, |s.orders|, u);
    CommitShape(env, s, e, u, t);
    FreeOrder(e.cart, CouponRow(e.coupon), env.policy);
    NewRow(env, e, t.orders[|s.orders|]);
  }

  lemma FreeOrder(cart: seq<CartLine>, coupon: Option<Coupon>, policy: Policy)
    ensures coupon.Some? ==> (IsWaived(Subtotal(cart), coupon) <==> PriceCart(cart, coupon, policy).total == 0)
  {
    SumNonNegative(LineTotals(cart));
  }

  lemma NewRow(env: Env, e: Event, o: Order)
    requires e.PlaceOrder? && o == PlacedOrder(env, e)
    ensures var bill := PriceCart(e.cart, if e.coupon.Some? then Some(e.coupon.value.1) else None, env.policy);
      o == Order(e.user, e.payBy, bill, if WaivedBy(e) then Confirmed else Pending,
                 if WaivedBy(e) then Paid else Unpaid, false, None, 0, 0, false, WaivedBy(e), [], o.draws, 0)
  {
  }

  lemma CouponUsed(s: State, coupon: Option<(nat, Coupon)>, id: nat)
    requires (coupon.Some? ==> coupon.value.0 in s.coupons) && id in s.coupons
    ensures var t, used := UseCoupon(s, coupon), if coupon.Some? && coupon.value.0 == id then 1 else 0;
      && t.coupons.Keys == s.coupons.Keys
      && t.coupons[id] == s.coupons[id].(usageCount := s.coupons[id].usageCount + used)
  {
  }

  /** It uses its coupon once, and no other. */
  lemma CheckoutUsesCoupon(env: Env, s: State, e: Event, t: State, id: nat)
    requires e.PlaceOrder? && Accepts(env, s, e) && t == Step(env, s, e)
    ensures id in t.coupons <==> id in s.coupons
    ensures id in s.coupons ==>
      var used := if e.coupon.Some? && e.coupon.value.0 == id then 1 else 0;
      t.coupons[id] == s.coupons[id].(usageCount := s.coupons[id].usageCount + used)
  {
    CommitShape(env, s, e, Supersede(env, s, e.user, |s.orders|), t);
    if id in s.coupons {
      CouponUsed(s, e.coupon, id);
    }
  }

  /** It empties the customer's cart unless the order still has to be paid at the gateway. */
  lemma CheckoutCart(env: Env, s: State, e: Event, t: State)
    requires e.PlaceOrder? && Accepts(env, s, e) && t == Step(env, s, e)
    ensures var free := e.coupon.Some? && PriceCart(e.cart, Some(e.coupon.value.1), env.policy).total == 0;
      t.carts == if e.payBy.COD? || free then s.carts - {e.user} else s.carts
  {
    SupersedeFrame(env, s, e.user, |s.orders|);
    FreeOrder(e.cart, CouponRow(e.coupon), env.policy);
  }

  predicate CouponServes(s: State, id: nat, amount: int, user: nat, now: int) {
    && id in s.coupons
    && var c := s.coupons[id];
    && c.active && (c.assignedTo.Some? ==> c.assignedTo.value == user)
    && (c.validUntil.Some? ==> now <= c.validUntil.value)
    && (c.maxUsage.Some? ==> c.usageCount < c.maxUsage.value) && c.minimum <= amount
  }

  /** A checkout is accepted exactly when the cart is still there, the coupon's own row admits the order, and,
      once the customer's open orders have given theirs back, every size and variant-less product has the units. */
  lemma CheckoutAcceptedExactly(env: Env, s: State, e: Event, u: State)
    requires e.PlaceOrder? && u == Supersede(env, s, e.user, |s.orders|)
    ensures Accepts(env, s, e) <==>
      && e.user in s.carts
      && (e.coupon.Some? ==> CouponServes(s, e.coupon.value.0, Subtotal(e.cart), e.user, e.now))
      && (forall v :: v in u.stock ==> VariantUnits(CartDraws(e.cart), v) <= u.stock[v])
      && (forall p :: p in u.products ==> HardUnits(CartDraws(e.cart), p) <= u.products[p])
  {
    assert CouponAdmits(s, e.coupon, Subtotal(e.cart), e.user, e.now) <==>
      (e.coupon.Some? ==> CouponServes(s, e.coupon.value.0, Subtotal(e.cart), e.user, e.now));
  }

  // ----- The gateway -----

  /** The event ids that have been seen once an event about a known session arrived. */
  function Remembered(processed: set<nat>, id: Option<nat>): set<nat> {
    if id.Some? then processed + {id.value} else processed
  }

  /** A capture is honoured when the payment is not settled, the event is new, and the amount, if reported, is
      right. */
  predicate CaptureCounts(p: Payment, processed: set<nat>, id: Option<nat>, amount: Option<int>) {
    && (p.status.Awaiting? || p.status.Failed?) && (id.Some? ==> id.value !in processed)
    && (amount.Some? ==> amount.value == p.amount)
  }

  lemma CaptureIgnoredOnRow(s: State, i: nat, id: Option<nat>, amount: Option<int>)
    requires i < |s.orders| && s.orders[i].payment.Some?
    requires !CaptureCounts(s.orders[i].payment.value, s.processed, id, amount)
    ensures var t := MarkCaptured(s, i, id, amount);
      t.orders == s.orders && t.carts == s.carts && t.processed == Remembered(s.processed, id)
  {
    IgnoredCapture(s, i, id, amount);
    CaptureRecorded(s, i, id, amount, false);
  }

  /** Logging and remembering an event change nothing else. */
  lemma LogsOnly(s: State, i: nat, kind: AuditKind, from: Option<GatewayStatus>, to: Option<GatewayStatus>,
                 alert: bool)
    ensures var t := Log(s, i, kind, from, to, alert);
      t.orders == s.orders && t.carts == s.carts && t.processed == s.processed
  {
  }

  lemma RemembersOnly(s: State, id: Option<nat>)
    ensures var t := Processed(s, id);
      t.orders == s.orders && t.carts == s.carts && t.processed == Remembered(s.processed, id)
  {
  }

  /** Which customer's cart a capture empties, if any. */
  function CartsAfter(s: State, o: Order, honoured: bool): set<nat> {
    if honoured && !o.status.Cancelled? then s.carts - {o.user} else s.carts
  }

  lemma CaptureRecorded(s: State, i: nat, id: Option<nat>, amount: Option<int>, honoured: bool)
    requires i < |s.orders| && s.orders[i].payment.Some?
    requires honoured == CaptureCounts(s.orders[i].payment.value, s.processed, id, amount)
    ensures var t := MarkCaptured(s, i, id, amount);
      t.processed == Remembered(s.processed, id) && t.carts == CartsAfter(s, s.orders[i], honoured)
  {
    var o, p := s.orders[i], s.orders[i].payment.value;
    if Terminal(p) {
      RemembersOnly(s, id);
      LogsOnly(Processed(s, id), i, DuplicateIgnored, None, None, false);
    } else if Seen(s, id) {
      LogsOnly(s, i, DuplicateIgnored, None, None, false);
    } else if !honoured {
      LogsOnly(s, i, AmountMismatch, None, None, true);
      RemembersOnly(Log(s, i, AmountMismatch, None, None, true), id);
    } else if o.status.Cancelled? {
      var u := Put(s, i, Settle(o, Completed));
      LogsOnly(u, i, CapturedAfterCancel, Some(Awaiting), Some(Completed), true);
      RemembersOnly(Log(u, i, CapturedAfterCancel, Some(Awaiting), Some(Completed), true), id);
    } else {
      var u := Put(s, i, ConfirmedOrder(o)).(carts := s.carts - {o.user});
      LogsOnly(u, i, Captured, Some(p.status), Some(Completed), false);
      RemembersOnly(Log(u, i, Captured, Some(p.status), Some(Completed), false), id);
    }
  }

  lemma CaptureHonoured(s: State, i: nat, id: Option<nat>, amount: Option<int>)
    requires i < |s.orders| && s.orders[i].payment.Some?
    requires CaptureCounts(s.orders[i].payment.value, s.processed, id, amount)
    ensures var o, t := s.orders[i], MarkCaptured(s, i, id, amount);
      && t.orders == s.orders[i := if o.status.Cancelled? then Settle(o, Completed) else ConfirmedOrder(o)]
      && t.carts == CartsAfter(s, o, true) && t.processed == Remembered(s.processed, id)
  {
    CaptureRecorded(s, i, id, amount, true);
    assert !CaptureIgnored(s, i, id, amount);
    if s.orders[i].status.Cancelled? {
      LateCapture(s, i, id, amount);
    } else {
      ConfirmingCapture(s, i, id, amount);
    }
  }

  /** A capture is heard only by the session it names. An honoured one completes the payment of a cancelled order
      and nothing else; any other order it also confirms, marks paid and invoices, and empties the customer's
      cart. The event is remembered whatever becomes of it. */
  lemma CaptureOnRow(env: Env, s: State, i: nat, session: nat, id: Option<nat>, amount: Option<int>, t: State)
    requires i < |s.orders| && t == Step(env, s, Capture(i, session, id, amount))
    ensures s.orders[i].payment.None? || s.orders[i].payment.value.session != session ==> t == s
    ensures s.orders[i].payment.Some? && s.orders[i].payment.value.session == session ==>
      var o, p := s.orders[i], s.orders[i].payment.value;
      var honoured := CaptureCounts(p, s.processed, id, amount);
      && t.orders == s.orders[i :=
           if !honoured then o
           else if o.status.Cancelled? then o.(payment := Some(p.(status := Completed)))
           else o.(payment := Some(p.(status := Completed, confirmed := p.confirmed + 1)),
                   payStatus := Paid, status := Confirmed, invoiced := true)]
      && t.carts == CartsAfter(s, o, honoured) && t.processed == Remembered(s.processed, id)
  {
    if s.orders[i].payment.Some? && s.orders[i].payment.value.session == session {
      if CaptureCounts(s.orders[i].payment.value, s.processed, id, amount) {
        CaptureHonoured(s, i, id, amount);
        ConfirmedIs(s.orders[i]);
      } else {
        CaptureIgnoredOnRow(s, i, id, amount);
      }
    }
  }

  lemma ConfirmedIs(o: Order)
    requires o.payment.Some?
    ensures var p := o.payment.value;
      ConfirmedOrder(o) == o.(payment := Some(p.(status := Completed, confirmed := p.confirmed + 1)),
                              payStatus := Paid, status := Confirmed, invoiced := true)
  {
  }

  lemma FailureRemembered(s: State, i: nat, id: Option<nat>)
    requires i < |s.orders| && s.orders[i].payment.Some?
    ensures var t := MarkFailed(s, i, id); t.carts == s.carts && t.processed == Remembered(s.processed, id)
  {
    if Seen(s, id) {
      assert MarkFailed(s, i, id) == s;
    } else if !s.orders[i].payment.value.status.Awaiting? {
      LogsOnly(s, i, OutOfOrderIgnored, None, None, false);
      RemembersOnly(Log(s, i, OutOfOrderIgnored, None, None, false), id);
    } else {
      var declined := Put(s, i, Settle(s.orders[i], Failed).(payStatus := Declined));
      LogsOnly(declined, i, PaymentFailed, Some(Awaiting), Some(Failed), false);
      RemembersOnly(Log(declined, i, PaymentFailed, Some(Awaiting), Some(Failed), false), id);
    }
  }

  /** A failure declines the order exactly when its session is the payment's, that still waits, and the event is
      new. */
  lemma FailureOnRow(env: Env, s: State, i: nat, session: nat, id: Option<nat>, t: State)
    requires i < |s.orders| && t == Step(env, s, Fail(i, session, id))
    ensures s.orders[i].payment.None? || s.orders[i].payment.value.session != session ==> t == s
    ensures s.orders[i].payment.Some? && s.orders[i].payment.value.session == session ==>
      var o, p := s.orders[i], s.orders[i].payment.value;
      && t.orders == s.orders[i :=
           if p.status.Awaiting? && (id.Some? ==> id.value !in s.processed)
           then o.(payment := Some(p.(status := Failed)), payStatus := Declined) else o]
      && t.carts == s.carts && t.processed == Remembered(s.processed, id)
  {
    if s.orders[i].payment.Some? && s.orders[i].payment.value.session == session {
      FailShape(s, i, id);
      FailureRemembered(s, i, id);
    }
  }

  /** Opening the gateway page leaves the order with a payment that waits for exactly its total: the one it had,
      or the next session, which counts a reopening when the one before was settled. The page's own checks let
      through the orders neither cancelled nor paid whose payment then asks for money. */
  lemma SessionOnRow(env: Env, s: State, i: nat, t: State)
    requires i < |s.orders| && t == Step(env, s, StartPayment(i))
    ensures |t.orders| == |s.orders| && t.orders[i].payment.Some?
    ensures var o, q := s.orders[i], t.orders[i].payment.value;
      && t.orders == s.orders[i := o.(payment := Some(q))]
      && q.status.Awaiting? && q.amount == o.bill.total
      && (o.payment.None? ==> q.session == 0 && q.confirmed == 0 && q.reopened == 0)
      && (o.payment.Some? ==>
            var p := o.payment.value;
            var live := p.status.Awaiting? && p.amount == o.bill.total;
            && q.session == p.session + (if live then 0 else 1) && q.confirmed == p.confirmed
            && q.reopened == p.reopened + if p.status.Completed? || p.status.Returned? then 1 else 0)
    ensures Payable(s.orders[i]) <==>
      !s.orders[i].status.Cancelled? && !s.orders[i].payStatus.Paid? && t.orders[i].payment.value.amount > 0
  {
  }

  // ----- Cancellation -----

  /** What the notes of a cancelled order become: whatever its invoice is still worth is credited, once, unless
      money is held for it. */
  predicate CreditsTheRest(o: Order, notes: seq<Note>) {
    if o.invoiced && !o.payStatus.Paid? && !o.payStatus.PaidBack? && o.bill.total > NotesAmount(o.notes)
       && (forall k :: 0 <= k < |o.notes| ==> o.notes[k].reason.ForRefund?)
    then notes == o.notes + [Note(ForCancellation, o.bill.total - NotesAmount(o.notes),
                                  o.bill.tax + o.bill.shippingTax - NotesTax(o.notes))]
    else notes == o.notes
  }

  lemma CreditedRest(o: Order)
    requires o.status.Cancelled?
    ensures var r := MaybeCancellationNote(o);
      r == o.(notes := r.notes) && CreditsTheRest(o, r.notes)
  {
    CancellationRow(o);
  }

  lemma CancelRow(env: Env, s: State, i: nat, r: Order)
    requires i < |s.orders| && r == MaybeCancellationNote(RestoreStock(env, s, i).orders[i].(status := Cancelled))
    ensures var o := s.orders[i];
      CreditsTheRest(o, r.notes) && r == ClosedRow(o).(payStatus := o.payStatus, notes := r.notes)
  {
    var u := RestoreStock(env, s, i).orders[i].(status := Cancelled);
    RestoreFrame(env, s, i);
    CreditedRest(u);
    SameCredit(s.orders[i], u, r.notes);
  }

  lemma SameCredit(o: Order, u: Order, notes: seq<Note>)
    requires u.invoiced == o.invoiced && u.payStatus == o.payStatus && u.bill == o.bill && u.notes == o.notes
    ensures CreditsTheRest(o, notes) <==> CreditsTheRest(u, notes)
  {
  }

  /** Before delivery is under way; and a customer only while no payment is completed. */
  predicate MayCancel(o: Order, staff: bool) {
    && (o.status.Pending? || o.status.Confirmed? || o.status.Processing? || o.status.Shipped?)
    && (staff || o.payment.None? || !o.payment.value.status.Completed?)
  }

  /** A request to cancel is honoured exactly before delivery is under way, and by a customer only while no
      payment is completed. It gives the stock back once and credits what is left of the invoice. */
  lemma CancelOnRow(env: Env, s: State, i: nat, staff: bool, t: State)
    requires i < |s.orders| && t == Step(env, s, Cancel(i, staff))
    ensures !MayCancel(s.orders[i], staff) ==> t == s
    ensures MayCancel(s.orders[i], staff) ==>
      && |t.orders| == |s.orders| && t.orders == s.orders[i := t.orders[i]]
      && var o, r := s.orders[i], t.orders[i];
      && CreditsTheRest(o, r.notes) && r == ClosedRow(o).(payStatus := o.payStatus, notes := r.notes)
  {
    if MayCancel(s.orders[i], staff) {
      RestoreFrame(env, s, i);
      CancelRow(env, s, i, t.orders[i]);
    }
  }

  /** The reconciliation job closes exactly the orders that are neither cancelled nor paid. */
  lemma AbandonOnRow(env: Env, s: State, i: nat, t: State)
    requires i < |s.orders| && t == Step(env, s, Abandon(i))
    ensures var o := s.orders[i];
      t.orders == s.orders[i := if o.status.Cancelled? || o.payStatus.Paid? then o else ClosedRow(o)]
  {
    RestoreFrame(env, s, i);
  }

  // ----- Refunds -----

  /** There is something to return, money left to return it from, and the reference is new. */
  predicate CanReturn(s: State, i: nat, asked: int, reference: Option<nat>)
    requires i < |s.orders|
  {
    && asked > 0 && s.orders[i].refundedAmount < s.orders[i].bill.total
    && forall k :: 0 <= k < |s.ledger| ==> s.ledger[k].reference.Some? ==> s.ledger[k].reference != reference
  }

  /** The row after `given` was returned with `tax` of GST in it: restocked, credited if invoiced, and refunded
      once all of it is back, or when an admin says so. */
  function ReturnedRow(o: Order, given: int, tax: int, mark: bool): Order {
    var ends := mark || o.refundedAmount + given >= o.bill.total;
    o.(refundedAmount := o.refundedAmount + given, refundedTax := o.refundedTax + tax,
       status := if ends then Refunded else o.status, payStatus := if ends then PaidBack else o.payStatus,
       restored := true, restocks := if o.restored then o.restocks else o.restocks + 1,
       notes := o.notes + if o.invoiced then [Note(ForRefund, given, tax)] else [])
  }

  predicate LedgerAgrees(s: State, i: nat)
    requires i < |s.orders|
  {
    && s.orders[i].refundedAmount == LedgerAmount(s.ledger, i) >= 0
    && s.orders[i].refundedTax == LedgerTax(s.ledger, i)
  }

  lemma CanReturnExactly(s: State, i: nat, asked: int, reference: Option<nat>)
    requires i < |s.orders|
    ensures CanReturn(s, i, asked, reference) <==> RefundIsRecorded(s, i, asked, reference)
  {
  }

  /** The ledger takes what was asked for, or what is left if that is less. */
  lemma RecordOnRow(env: Env, s: State, i: nat, asked: int, reference: Option<nat>, mark: bool, t: State)
    requires i < |s.orders| && LedgerAgrees(s, i) && t == RecordRefund(env, s, i, asked, reference, mark)
    ensures !CanReturn(s, i, asked, reference) ==> t == s
    ensures CanReturn(s, i, asked, reference) ==>
      var o := s.orders[i];
      var given := Min(asked, o.bill.total - o.refundedAmount);
      var tax := RefundTaxFor(o.bill, o.refundedTax, given);
      && t.ledger == s.ledger + [RefundRow(i, given, tax, reference)]
      && t.orders == s.orders[i := ReturnedRow(o, given, tax, mark)] && t.processed == s.processed
  {
    CanReturnExactly(s, i, asked, reference);
    if CanReturn(s, i, asked, reference) {
      RecordShape(env, s, i, asked, reference, mark);
      RecordedIs(env, s, i, asked, reference, mark, t);
    }
  }

  lemma RecordedIs(env: Env, s: State, i: nat, asked: int, reference: Option<nat>, mark: bool, t: State)
    requires i < |s.orders| && LedgerAgrees(s, i) && t == RecordRefund(env, s, i, asked, reference, mark)
    requires CanReturn(s, i, asked, reference) && RefundIsRecorded(s, i, asked, reference)
    ensures var o := s.orders[i];
      var given := Min(asked, o.bill.total - o.refundedAmount);
      t.orders[i] == ReturnedRow(o, given, RefundTaxFor(o.bill, o.refundedTax, given), mark)
    ensures t.processed == s.processed
  {
    var o := s.orders[i];
    var given := Min(asked, o.bill.total - o.refundedAmount);
    var tax := RefundTaxFor(o.bill, o.refundedTax, given);
    RecordShape(env, s, i, asked, reference, mark);
    LedgerGrows(s.ledger, RefundRow(i, given, tax, reference), i);
    ReturnedIs(o, t.ledger, i, given, tax, mark);
  }

  lemma ReturnedIs(o: Order, ledger: seq<RefundRow>, i: nat, given: int, tax: int, mark: bool)
    requires LedgerAmount(ledger, i) == o.refundedAmount + given && LedgerTax(ledger, i) == o.refundedTax + tax
    requires 0 <= o.refundedAmount < o.bill.total
    ensures var r := RefundedOrder(o, ledger, i, mark);
      AddNote(if r.restored then r else r.(restored := true, restocks := r.restocks + 1), Note(ForRefund, given, tax))
      == ReturnedRow(o, given, tax, mark)
  {
    assert o.notes + [] == o.notes;
  }

  /** A refund event that is new, about a payment not yet returned. */
  predicate RefundHeard(s: State, i: nat, id: Option<nat>)
    requires i < |s.orders|
  {
    s.orders[i].payment.Some? && (id.Some? ==> id.value !in s.processed) && !s.orders[i].payment.value.status.Returned?
  }

  /** The row after a refund of `asked` was heard: what could be returned was, and the payment is returned once the
      whole order is. */
  function RefundHeardRow(s: State, i: nat, asked: int, reference: Option<nat>): Order
    requires i < |s.orders| && s.orders[i].payment.Some?
  {
    var o := s.orders[i];
    var given := Min(asked, o.bill.total - o.refundedAmount);
    var r := if CanReturn(s, i, asked, reference)
             then ReturnedRow(o, given, RefundTaxFor(o.bill, o.refundedTax, given), false) else o;
    var whole := r.refundedAmount >= o.bill.total > 0;
    r.(payment := Some(o.payment.value.(status := if whole then Returned else o.payment.value.status)))
  }

  function RefundHeardLedger(s: State, i: nat, asked: int, reference: Option<nat>): seq<RefundRow>
    requires i < |s.orders|
  {
    var o := s.orders[i];
    var given := Min(asked, o.bill.total - o.refundedAmount);
    if CanReturn(s, i, asked, reference)
    then s.ledger + [RefundRow(i, given, RefundTaxFor(o.bill, o.refundedTax, given), reference)] else s.ledger
  }

  lemma RefundIgnored(env: Env, s: State, i: nat, id: Option<nat>, amount: Option<int>, reference: Option<nat>)
    requires i < |s.orders| && !RefundHeard(s, i, id)
    ensures var t := Step(env, s, GatewayRefund(i, id, amount, reference));
      t.orders == s.orders && t.ledger == s.ledger
  {
  }

  lemma RefundHonoured(env: Env, s: State, i: nat, id: Option<nat>, amount: Option<int>, reference: Option<nat>,
                       asked: int)
    requires i < |s.orders| && LedgerAgrees(s, i) && RefundHeard(s, i, id)
    requires asked == if amount.Some? then amount.value else Refundable(s.orders[i])
    ensures var t := MarkRefunded(env, s, i, id, amount, reference);
      && t.orders == s.orders[i := RefundHeardRow(s, i, asked, reference)]
      && t.ledger == RefundHeardLedger(s, i, asked, reference)
  {
    var u := RecordRefund(env, s, i, asked, reference, false);
    RecordOnRow(env, s, i, asked, reference, false, u);
    RefundShape(env, s, i, id, amount, reference);
    RefundLedger(env, s, i, id, amount, reference);
    HeardRow(s, i, asked, reference, u);
  }

  /** A gateway refund is ignored when its event was seen or the payment is already returned. Otherwise it returns
      what it reports, or all that is left when it reports nothing. */
  lemma RefundOnRow(env: Env, s: State, i: nat, id: Option<nat>, amount: Option<int>, reference: Option<nat>,
                    asked: int, t: State)
    requires i < |s.orders| && LedgerAgrees(s, i) && t == Step(env, s, GatewayRefund(i, id, amount, reference))
    requires asked == if amount.Some? then amount.value else s.orders[i].bill.total - s.orders[i].refundedAmount
    ensures !RefundHeard(s, i, id) ==> t.orders == s.orders && t.ledger == s.ledger
    ensures RefundHeard(s, i, id) ==>
      && t.orders == s.orders[i := RefundHeardRow(s, i, asked, reference)]
      && t.ledger == RefundHeardLedger(s, i, asked, reference)
  {
    if RefundHeard(s, i, id) {
      RefundHonoured(env, s, i, id, amount, reference, asked);
    } else {
      RefundIgnored(env, s, i, id, amount, reference);
    }
  }

  lemma HeardRow(s: State, i: nat, asked: int, reference: Option<nat>, u: State)
    requires i < |s.orders| && s.orders[i].payment.Some?
    requires |u.orders| == |s.orders| && u.orders == s.orders[i := u.orders[i]]
    requires var o := s.orders[i];
      var given := Min(asked, o.bill.total - o.refundedAmount);
      u.orders[i] == if CanReturn(s, i, asked, reference)
                     then ReturnedRow(o, given, RefundTaxFor(o.bill, o.refundedTax, given), false) else o
    ensures var from := s.orders[i].payment.value.status;
      u.orders[i := Settle(u.orders[i], if FullyRefunded(u.orders[i]) then Returned else from)]
      == s.orders[i := RefundHeardRow(s, i, asked, reference)]
  {
  }

  lemma RefundLedger(env: Env, s: State, i: nat, id: Option<nat>, amount: Option<int>, reference: Option<nat>)
    requires i < |s.orders| && s.orders[i].payment.Some?
    requires !Seen(s, id) && !s.orders[i].payment.value.status.Returned?
    ensures var asked := if amount.Some? then amount.value else Refundable(s.orders[i]);
      MarkRefunded(env, s, i, id, amount, reference).ledger
      == RecordRefund(env, s, i, asked, reference, false).ledger
  {
    RecordKeepsPayment(env, s, i, if amount.Some? then amount.value else Refundable(s.orders[i]), reference, false);
  }

  // ----- Admin edits -----

  /** Money came in and can go back: the order is paid or paid back, and cash was ticked as received. */
  predicate MoneyTaken(o: Order) {
    (o.payStatus.Paid? || o.payStatus.PaidBack?) && (o.payBy.COD? ==> o.codPaid)
  }

  /** The edit asks for a refund: it moves the order to refunded, or returns more of one that is. */
  predicate AsksRefund(o: Order, e: Event)
    requires e.Edit?
  {
    || (e.status == Some(Refunded) && !o.status.Refunded?)
    || (e.refund.Some? && (e.status == Some(Refunded) || (e.status.None? && o.status.Refunded?)))
  }

  /** The refund asked for is of money received, and no more than is left of it. */
  predicate MayRefund(o: Order, e: Event)
    requires e.Edit?
  {
    MoneyTaken(o) && o.refundedAmount < o.bill.total
      && (e.refund.Some? ==> e.refund.value <= o.bill.total - o.refundedAmount)
  }

  /** Only cash orders are ticked, and a tick is not taken back once money was returned. */
  predicate MayTick(o: Order, codPaid: Option<bool>) {
    codPaid.Some? ==> o.payBy.COD? && (codPaid.value || !o.codPaid || o.refundedAmount <= 0)
  }

  /** The edit does not cancel an order that is out for delivery or delivered. */
  predicate MayMove(o: Order, e: Event)
    requires e.Edit?
  {
    e.status == Some(Cancelled) ==> !o.status.Delivered? && !o.status.Delivering?
  }

  /** An edit is accepted exactly when nothing it asks for is impossible; otherwise every row stays as it was. */
  lemma EditAcceptedExactly(env: Env, s: State, e: Event)
    requires e.Edit? && e.order < |s.orders|
    ensures var o := s.orders[e.order];
      EditIsAccepted(o, e) <==>
        (e.refund.Some? ==> e.refund.value > 0) && MayMove(o, e) && MayTick(o, e.codPaid)
        && (AsksRefund(o, e) ==> MayRefund(o, e))
    ensures !EditIsAccepted(s.orders[e.order], e) ==> Step(env, s, e) == s
  {
  }

  /** No edit refunds money that never came in: one that asks to leaves every row as it was, and one that records
      a refund found the order paid, or paid back in part, with the cash ticked if it was to be cash. */
  lemma RefundNeedsMoney(env: Env, s: State, e: Event)
    requires e.Edit? && e.order < |s.orders|
    ensures AsksRefund(s.orders[e.order], e) && !MoneyTaken(s.orders[e.order]) ==> Step(env, s, e) == s
    ensures Step(env, s, e).ledger != s.ledger ==>
      var o := s.orders[e.order];
      (o.payStatus.Paid? || o.payStatus.PaidBack?) && (o.payBy.COD? ==> o.codPaid)
  {
    var o := s.orders[e.order];
    EditAcceptedExactly(env, s, e);
    if EditIsAccepted(o, e) && !RecordsRefund(o, e) {
      SavedFrame(env, s, e);
    }
  }

  /** The row an edit saves: ticking cash marks the order paid, unticking it unpaid; a cancellation restocks and
      credits; and an invoice is raised once money was received or the goods left. */
  predicate SavedAs(o: Order, e: Event, r: Order)
    requires e.Edit?
  {
    var status := if e.status.Some? then e.status.value else o.status;
    var ticks := e.codPaid.Some? && e.codPaid.value != o.codPaid;
    var paid := if ticks then (if e.codPaid.value then Paid else Unpaid)
                else if e.payStatus.Some? then e.payStatus.value else o.payStatus;
    var cancels := e.status == Some(Cancelled) && !o.status.Cancelled?;
    && r == o.(status := status, payStatus := paid, codPaid := o.codPaid != ticks, notes := r.notes,
               restored := o.restored || cancels,
               restocks := if cancels && !o.restored then o.restocks + 1 else o.restocks,
               invoiced := o.invoiced || (!status.Cancelled? && (paid.Paid? || paid.PaidBack? || status.Shipped?
                                                                 || status.Delivering? || status.Delivered?)))
    && if cancels then CreditsTheRest(o.(payStatus := paid), r.notes) else r.notes == o.notes
  }

  lemma TickedIs(o: Order, e: Event)
    requires e.Edit? && MayTick(o, e.codPaid)
    ensures ApplyPayment(o, e.payStatus, e.codPaid).Some?
    ensures var ticks := e.codPaid.Some? && e.codPaid.value != o.codPaid;
      ApplyPayment(o, e.payStatus, e.codPaid).value
      == o.(payStatus := if ticks then (if e.codPaid.value then Paid else Unpaid)
                         else if e.payStatus.Some? then e.payStatus.value else o.payStatus,
            codPaid := o.codPaid != ticks)
  {
  }

  lemma RaisedIs(o: Order)
    ensures MaybeInvoice(o) == o.(invoiced := o.invoiced ||
      (!o.status.Cancelled? && (o.payStatus.Paid? || o.payStatus.PaidBack? || o.status.Shipped?
                                || o.status.Delivering? || o.status.Delivered?)))
  {
  }

  lemma SavedIs(o: Order, e: Event)
    requires e.Edit? && MayTick(o, e.codPaid) && ApplyPayment(o, e.payStatus, e.codPaid).Some?
    ensures SavedAs(o, e, SavedOrder(o, e))
  {
    var p := ApplyPayment(o, e.payStatus, e.codPaid).value;
    var r := IfCancelling(p, Cancelling(o, e));
    var status := if e.status.Some? then e.status.value else o.status;
    TickedIs(o, e);
    RaisedIs(r.(status := status));
    if Cancelling(o, e) {
      var raised := MaybeInvoice(r.(status := status));
      CreditedRest(raised);
      SameCredit(o.(payStatus := p.payStatus), raised, SavedOrder(o, e).notes);
    }
  }

  /** What an accepted edit leaves behind: the row it saves, and on it any refund it asks for, in full when it
      names no amount. No other row changes. */
  lemma EditOnRow(env: Env, s: State, e: Event, t: State, saved: Order)
    requires e.Edit? && e.order < |s.orders| && LedgerAgrees(s, e.order) && t == Step(env, s, e)
    requires EditIsAccepted(s.orders[e.order], e) && saved == SavedOrder(s.orders[e.order], e)
    ensures SavedAs(s.orders[e.order], e, saved)
    ensures var o := s.orders[e.order];
      if AsksRefund(o, e) then
        var given := if e.refund.Some? then e.refund.value else o.bill.total - o.refundedAmount;
        var tax := RefundTaxFor(o.bill, o.refundedTax, given);
        && t.orders == s.orders[e.order := ReturnedRow(saved, given, tax, true)]
        && t.ledger == s.ledger + [RefundRow(e.order, given, tax, None)]
      else t.orders == s.orders[e.order := saved] && t.ledger == s.ledger
  {
    var i, o := e.order, s.orders[e.order];
    EditAcceptedExactly(env, s, e);
    SavedIs(o, e);
    SavedFrame(env, s, e);
    if AsksRefund(o, e) {
      var given := if e.refund.Some? then e.refund.value else o.bill.total - o.refundedAmount;
      RefundOnSaved(env, s, SavedEdit(env, s, e), i, saved, given, t);
    }
  }

  lemma RefundOnSaved(env: Env, s: State, u: State, i: nat, saved: Order, given: int, t: State)
    requires i < |s.orders| && LedgerAgrees(s, i) && u.orders == s.orders[i := saved] && u.ledger == s.ledger
    requires var o := s.orders[i];
      saved.bill == o.bill && saved.refundedAmount == o.refundedAmount && saved.refundedTax == o.refundedTax
      && 0 < given <= o.bill.total - o.refundedAmount
    requires t == RecordRefund(env, u, i, given, None, true)
    ensures var tax := RefundTaxFor(s.orders[i].bill, s.orders[i].refundedTax, given);
      && t.orders == s.orders[i := ReturnedRow(saved, given, tax, true)]
      && t.ledger == s.ledger + [RefundRow(i, given, tax, None)]
  {
    RecordOnRow(env, u, i, given, None, true, t);
    assert CanReturn(u, i, given, None);
  }
}
