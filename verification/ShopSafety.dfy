/** Safety over whole runs: payments never move back, cancelled orders stay cancelled, money captured on
    a cancelled order is flagged, one open gateway order per customer, and coupon caps. */
module ShopSafety {
  import opened Money
  import opened Orders
  import opened Pricing
  import opened TaxBreakdown
  import opened Checkout
  import opened Coupons
  import opened Shop
  import opened ShopBooks

  // ----- How one row may move -----

  predicate Advances(a: GatewayStatus, b: GatewayStatus) {
    a == b || a.Awaiting? || (a.Failed? && !b.Awaiting?) || (a.Completed? && b.Returned?)
  }

  predicate PaymentAdvances(o: Order, r: Order) {
    o.payment.Some? ==>
      && r.payment.Some? && Advances(o.payment.value.status, r.payment.value.status)
      && r.payment.value.session == o.payment.value.session && r.payment.value.amount == o.payment.value.amount
      && r.payment.value.reopened == o.payment.value.reopened
  }

  /** Once settled, a payment stays settled: completed ends only in returned, returned is final. */
  predicate StaysSettled(a: GatewayStatus, b: GatewayStatus) {
    (a.Completed? ==> b.Completed? || b.Returned?) && (a.Returned? ==> b.Returned?)
  }

  /** How any request may move a payment: within its session it only advances, and only a reopening undoes a
      settlement. Sessions and reopenings only grow. */
  predicate PaymentMoves(o: Order, r: Order) {
    o.payment.Some? ==>
      && r.payment.Some?
      && var p, q := o.payment.value, r.payment.value;
      && q.session >= p.session && q.reopened >= p.reopened
      && (q.session == p.session ==> Advances(p.status, q.status) && q.amount == p.amount)
      && (q.reopened == p.reopened ==> StaysSettled(p.status, q.status))
  }

  /** Cancelled for good, short of the whole money coming back at the gateway. */
  predicate StaysCancelled(e: Event, o: Order, r: Order) {
    o.status.Cancelled? ==> r.status.Cancelled? || (e.GatewayRefund? && r.status.Refunded? && FullyRefunded(r))
  }

  predicate IsOpen(o: Order) {
    o.status.Pending? && o.payStatus.Unpaid?
  }

  /** What a request may do to any one order. */
  predicate RowStep(e: Event, o: Order, r: Order) {
    && r.user == o.user && r.payBy == o.payBy && r.bill == o.bill
    && PaymentMoves(o, r) && (!e.StartPayment? ==> PaymentAdvances(o, r))
    && (!e.Edit? ==> StaysCancelled(e, o, r) && (IsOpen(r) ==> IsOpen(o)))
  }

  predicate AuditGrows(s: State, t: State) {
    |s.audit| <= |t.audit| && t.audit[..|s.audit|] == s.audit
  }

  /** A request that concerns one order. */
  predicate Touches(e: Event, s: State, t: State, i: nat) {
    && i < |s.orders| == |t.orders| && t.coupons == s.coupons && AuditGrows(s, t)
    && (forall j :: 0 <= j < |s.orders| && j != i ==> t.orders[j] == s.orders[j])
    && RowStep(e, s.orders[i], t.orders[i])
  }

  lemma Untouched(e: Event, s: State, t: State, i: nat)
    requires i < |s.orders| && t.orders == s.orders && t.coupons == s.coupons && AuditGrows(s, t)
    ensures Touches(e, s, t, i)
  {
  }

  lemma Rewritten(e: Event, s: State, t: State, i: nat, r: Order)
    requires i < |s.orders| && t.orders == s.orders[i := r] && t.coupons == s.coupons && AuditGrows(s, t)
    requires RowStep(e, s.orders[i], r)
    ensures Touches(e, s, t, i)
  {
  }

  lemma IgnoredCaptureFrame(s: State, i: nat, id: Option<nat>, amount: Option<int>)
    requires i < |s.orders| && s.orders[i].payment.Some? && CaptureIgnored(s, i, id, amount)
    ensures var t := MarkCaptured(s, i, id, amount);
      t.coupons == s.coupons && AuditGrows(s, t)
  {
    var t := MarkCaptured(s, i, id, amount);
    var kind := if Terminal(s.orders[i].payment.value) || Seen(s, id) then DuplicateIgnored else AmountMismatch;
    assert t.audit == s.audit + [Audit(i, kind, None, None, kind.AmountMismatch?)];
  }

  lemma AcceptedCaptureFrame(s: State, i: nat, id: Option<nat>, amount: Option<int>)
    requires i < |s.orders| && s.orders[i].payment.Some? && !CaptureIgnored(s, i, id, amount)
    ensures var t := MarkCaptured(s, i, id, amount);
      t.coupons == s.coupons && AuditGrows(s, t)
  {
    var t, o := MarkCaptured(s, i, id, amount), s.orders[i];
    var a := if o.status.Cancelled? then Audit(i, CapturedAfterCancel, Some(Awaiting), Some(Completed), true)
             else Audit(i, Captured, Some(o.payment.value.status), Some(Completed), false);
    assert t.audit == s.audit + [a];
  }

  lemma CaptureTouches(e: Event, s: State, i: nat, id: Option<nat>, amount: Option<int>)
    requires i < |s.orders| && s.orders[i].payment.Some? && e.Capture?
    ensures Touches(e, s, MarkCaptured(s, i, id, amount), i)
  {
    var o, t := s.orders[i], MarkCaptured(s, i, id, amount);
    if CaptureIgnored(s, i, id, amount) {
      IgnoredCaptureFrame(s, i, id, amount);
      IgnoredCapture(s, i, id, amount);
      Untouched(e, s, t, i);
    } else if o.status.Cancelled? {
      AcceptedCaptureFrame(s, i, id, amount);
      LateCapture(s, i, id, amount);
      Rewritten(e, s, t, i, Settle(o, Completed));
    } else {
      AcceptedCaptureFrame(s, i, id, amount);
      ConfirmingCapture(s, i, id, amount);
      Rewritten(e, s, t, i, ConfirmedOrder(o));
    }
  }

  lemma FailTouches(e: Event, s: State, i: nat, id: Option<nat>)
    requires i < |s.orders| && s.orders[i].payment.Some? && e.Fail?
    ensures Touches(e, s, MarkFailed(s, i, id), i)
  {
    var o, t := s.orders[i], MarkFailed(s, i, id);
    if Seen(s, id) || !o.payment.value.status.Awaiting? {
      Untouched(e, s, t, i);
    } else {
      Rewritten(e, s, t, i, Settle(o, Failed).(payStatus := Declined));
    }
  }

  lemma BeginTouches(e: Event, s: State, i: nat)
    requires i < |s.orders| && e.StartPayment?
    ensures Touches(e, s, BeginPayment(s, i), i)
  {
    var t := BeginPayment(s, i);
    if t.orders == s.orders {
      Untouched(e, s, t, i);
    } else {
      Rewritten(e, s, t, i, s.orders[i].(payment := t.orders[i].payment));
    }
  }

  lemma CancelTouches(e: Event, env: Env, s: State, i: nat, staff: bool)
    requires i < |s.orders| && e.Cancel?
    ensures Touches(e, s, CancelOrder(env, s, i, staff), i)
  {
    var t := CancelOrder(env, s, i, staff);
    if t == s {
      Untouched(e, s, t, i);
    } else {
      RestoreFrame(env, s, i);
      var u := RestoreStock(env, s, i).orders[i].(status := Cancelled);
      CancellationRow(u);
      Closed(e, s, t, i);
    }
  }

  lemma CancellationRow(u: Order)
    ensures var r := MaybeCancellationNote(u);
      r == u.(notes := r.notes)
  {
  }

  /** The order ends cancelled with its payment as it was. */
  lemma Closed(e: Event, s: State, t: State, i: nat)
    requires i < |s.orders| == |t.orders| && t.coupons == s.coupons && AuditGrows(s, t)
    requires forall j :: 0 <= j < |s.orders| && j != i ==> t.orders[j] == s.orders[j]
    requires var o, r := s.orders[i], t.orders[i];
      r.user == o.user && r.payBy == o.payBy && r.bill == o.bill && r.payment == o.payment && r.status.Cancelled?
    ensures Touches(e, s, t, i)
  {
  }

  lemma AbandonTouches(e: Event, env: Env, s: State, i: nat)
    requires i < |s.orders| && e.Abandon?
    ensures Touches(e, s, AbandonOrder(env, s, i), i)
  {
    var t := AbandonOrder(env, s, i);
    if t == s {
      Untouched(e, s, t, i);
    } else {
      RestoreFrame(env, s, i);
      Closed(e, s, t, i);
    }
  }

  /** How a refund may move a row. */
  predicate RecordedMoves(o: Order, r: Order, mark: bool) {
    && r.user == o.user && r.payBy == o.payBy && r.bill == o.bill && r.payment == o.payment && r.invoiced == o.invoiced
    && ((r.status == o.status && r.payStatus == o.payStatus)
        || (r.status.Refunded? && r.payStatus.PaidBack? && (mark || FullyRefunded(r))))
    && (FullyRefunded(r) && !FullyRefunded(o) ==> r.status.Refunded?)
  }

  /** A recorded refund moves an order's status only to refunded, and, unless marked by hand, only when
      the whole money is back. */
  lemma RecordedRow(env: Env, s: State, i: nat, amount: int, reference: Option<nat>, mark: bool)
    requires i < |s.orders|
    ensures RecordedMoves(s.orders[i], RecordRefund(env, s, i, amount, reference, mark).orders[i], mark)
  {
    if RefundIsRecorded(s, i, amount, reference) {
      RecordShape(env, s, i, amount, reference, mark);
    }
  }

  lemma RecordedFrame(env: Env, s: State, i: nat, amount: int, reference: Option<nat>, mark: bool)
    requires i < |s.orders|
    ensures var t := RecordRefund(env, s, i, amount, reference, mark);
      && t.coupons == s.coupons && t.audit == s.audit
      && (forall j :: 0 <= j < |s.orders| && j != i ==> t.orders[j] == s.orders[j])
  {
    if RefundIsRecorded(s, i, amount, reference) {
      RecordShape(env, s, i, amount, reference, mark);
    }
  }

  lemma RefundShape(env: Env, s: State, i: nat, id: Option<nat>, amount: Option<int>, reference: Option<nat>)
    requires i < |s.orders| && s.orders[i].payment.Some?
    requires !Seen(s, id) && !s.orders[i].payment.value.status.Returned?
    ensures var o, t := s.orders[i], MarkRefunded(env, s, i, id, amount, reference);
      var u := RecordRefund(env, s, i, if amount.Some? then amount.value else Refundable(o), reference, false);
      u.orders[i].payment == o.payment && t.coupons == u.coupons && AuditGrows(u, t) &&
      var after := if FullyRefunded(u.orders[i]) then Returned else o.payment.value.status;
      t.orders == u.orders[i := Settle(u.orders[i], after)]
  {
    var asked := if amount.Some? then amount.value else Refundable(s.orders[i]);
    RecordKeepsPayment(env, s, i, asked, reference, false);
    SettledShape(RecordRefund(env, s, i, asked, reference, false), i, s.orders[i].payment.value.status);
  }

  lemma SettledShape(u: State, i: nat, from: GatewayStatus)
    requires i < |u.orders| && u.orders[i].payment.Some?
    ensures var t := SettledRefund(u, i, from);
      && t.coupons == u.coupons && AuditGrows(u, t)
      && t.orders == u.orders[i := Settle(u.orders[i], if FullyRefunded(u.orders[i]) then Returned else from)]
  {
  }

  lemma RefundTouches(e: Event, env: Env, s: State, i: nat, id: Option<nat>, amount: Option<int>,
                      reference: Option<nat>)
    requires i < |s.orders| && s.orders[i].payment.Some? && e.GatewayRefund?
    ensures Touches(e, s, MarkRefunded(env, s, i, id, amount, reference), i)
  {
    var o, t := s.orders[i], MarkRefunded(env, s, i, id, amount, reference);
    if Seen(s, id) || o.payment.value.status.Returned? {
      Untouched(e, s, t, i);
    } else {
      var given := if amount.Some? then amount.value else Refundable(o);
      var u := RecordRefund(env, s, i, given, reference, false);
      RefundShape(env, s, i, id, amount, reference);
      RecordedRow(env, s, i, given, reference, false);
      RecordedFrame(env, s, i, given, reference, false);
      SettledTouches(e, s, u, t, i);
    }
  }

  lemma SettledTouches(e: Event, s: State, u: State, t: State, i: nat)
    requires i < |s.orders| == |u.orders| && e.GatewayRefund? && s.orders[i].payment.Some?
    requires !s.orders[i].payment.value.status.Returned? && RecordedMoves(s.orders[i], u.orders[i], false)
    requires forall j :: 0 <= j < |s.orders| && j != i ==> u.orders[j] == s.orders[j]
    requires u.coupons == s.coupons && u.audit == s.audit && t.coupons == u.coupons && AuditGrows(u, t)
    requires var after := if FullyRefunded(u.orders[i]) then Returned else s.orders[i].payment.value.status;
      t.orders == u.orders[i := Settle(u.orders[i], after)]
    ensures Touches(e, s, t, i)
  {
    var after := if FullyRefunded(u.orders[i]) then Returned else s.orders[i].payment.value.status;
    SettledRow(e, s.orders[i], u.orders[i], after);
  }

  lemma SettledRow(e: Event, o: Order, r: Order, after: GatewayStatus)
    requires e.GatewayRefund? && o.payment.Some? && RecordedMoves(o, r, false)
    requires !o.payment.value.status.Returned?
    requires after == if FullyRefunded(r) then Returned else o.payment.value.status
    ensures RowStep(e, o, Settle(r, after))
  {
  }

  lemma EditTouches(env: Env, s: State, e: Event)
    requires e.Edit? && e.order < |s.orders|
    ensures Touches(e, s, EditOrder(env, s, e), e.order)
  {
    var i, o := e.order, s.orders[e.order];
    if EditIsAccepted(o, e) {
      SavedFrame(env, s, e);
      SavedPayment(o, e);
      if RecordsRefund(o, e) {
        var amount := if e.refund.Some? then e.refund.value else Refundable(o);
        RecordedRow(env, SavedEdit(env, s, e), i, amount, None, true);
        RecordedFrame(env, SavedEdit(env, s, e), i, amount, None, true);
      }
    }
  }

  lemma SavedPayment(o: Order, e: Event)
    requires e.Edit? && ApplyPayment(o, e.payStatus, e.codPaid).Some?
    ensures var r := SavedOrder(o, e);
      r.payment == o.payment && r.user == o.user && r.payBy == o.payBy && r.bill == o.bill
  {
    AppliedFrame(o, e.payStatus, e.codPaid);
  }

  function Target(e: Event): nat
    requires !e.FillCart? && !e.PlaceOrder? && !e.EditRecipe?
  {
    e.order
  }

  /** Every request about one order leaves the others alone; of that one, a payment only advances
      (a fresh session aside), and, admin edits aside, a cancelled order stays cancelled until its whole
      money is back and no order becomes open again. */
  lemma StepTouches(env: Env, s: State, e: Event)
    requires !e.FillCart? && !e.PlaceOrder? && !e.EditRecipe? && Target(e) < |s.orders|
    ensures Touches(e, s, Step(env, s, e), Target(e))
  {
    match e
    case StartPayment(i) => BeginTouches(e, s, i);
    case Capture(i, session, id, amount) =>
      if Found(s, i, session) { CaptureTouches(e, s, i, id, amount); } else { Untouched(e, s, s, i); }
    case Fail(i, session, id) =>
      if Found(s, i, session) { FailTouches(e, s, i, id); } else { Untouched(e, s, s, i); }
    case GatewayRefund(i, id, amount, reference) =>
      if s.orders[i].payment.Some? {
        RefundTouches(e, env, s, i, id, amount, reference);
      } else {
        Untouched(e, s, s, i);
      }
    case Cancel(i, staff) => CancelTouches(e, env, s, i, staff);
    case Abandon(i) => AbandonTouches(e, env, s, i);
    case Edit(_, _, _, _, _) => EditTouches(env, s, e);
  }

  // ----- Checkout and superseding -----

  /** Cancelled, rejected and restocked, with its payment and credit notes as they were. */
  predicate IsClosed(o: Order, r: Order) {
    r.status.Cancelled? && r.payStatus.Rejected? && r.restored && r.payment == o.payment && r.notes == o.notes
  }

  /** After superseding, the customer has no open gateway order among the first n. */
  lemma {:induction false} SupersedeCloses(env: Env, s: State, user: nat, n: nat, t: State, e: Event)
    requires n <= |s.orders| && t == Supersede(env, s, user, n) && e.PlaceOrder?
    ensures |t.orders| == |s.orders| && t.audit == s.audit && t.coupons == s.coupons
    ensures forall j :: 0 <= j < n ==> !IsStale(t.orders[j], user)
    ensures forall j :: n <= j < |s.orders| ==> t.orders[j] == s.orders[j]
    ensures forall j :: 0 <= j < |s.orders| ==> RowStep(e, s.orders[j], t.orders[j])
    ensures forall j :: 0 <= j < |s.orders| ==>
      t.orders[j] == s.orders[j] || (IsStale(s.orders[j], user) && IsClosed(s.orders[j], t.orders[j]))
  {
    if n > 0 {
      var u := Supersede(env, s, user, n - 1);
      SupersedeCloses(env, s, user, n - 1, u, e);
      CloseStaleRow(env, u, n - 1, user, t, e);
    }
  }

  lemma CloseStaleRow(env: Env, s: State, i: nat, user: nat, t: State, e: Event)
    requires i < |s.orders| && t == CloseIfStale(env, s, i, user) && e.PlaceOrder?
    ensures t.audit == s.audit && t.coupons == s.coupons
    ensures forall j :: 0 <= j < |s.orders| && j != i ==> t.orders[j] == s.orders[j]
    ensures !IsStale(t.orders[i], user) && RowStep(e, s.orders[i], t.orders[i])
    ensures t.orders[i] == s.orders[i] || (IsStale(s.orders[i], user) && IsClosed(s.orders[i], t.orders[i]))
  {
    RestoreFrame(env, s, i);
  }

  /** A checkout that commits: earlier orders move as a request may move them, the customer's open gateway
      orders are closed, one order is appended and the coupon is used once. */
  lemma CommitRows(env: Env, s: State, e: Event, t: State)
    requires e.PlaceOrder? && Accepts(env, s, e) && t == Commit(env, s, e)
    ensures |t.orders| == |s.orders| + 1 && t.audit == s.audit && t.coupons == UseCoupon(s, e.coupon).coupons
    ensures forall j :: 0 <= j < |s.orders| ==> RowStep(e, s.orders[j], t.orders[j]) && !IsStale(t.orders[j], e.user)
    ensures forall j :: 0 <= j < |s.orders| ==>
      t.orders[j] == s.orders[j] || (IsStale(s.orders[j], e.user) && IsClosed(s.orders[j], t.orders[j]))
    ensures var o := t.orders[|s.orders|]; o.user == e.user && o.payment.None? && !o.status.Cancelled?
  {
    var u := Supersede(env, s, e.user, |s.orders|);
    SupersedeCloses(env, s, e.user, |s.orders|, u, e);
    CommitShape(env, s, e, u, t);
    PlacedOrderGoods(env, e);
  }

  // ----- Every order, every request -----

  /** Whatever the request, every earlier order moves only as RowStep allows. */
  lemma StepMovesRows(env: Env, s: State, e: Event, i: nat)
    requires i < |s.orders|
    ensures i < |Step(env, s, e).orders| && RowStep(e, s.orders[i], Step(env, s, e).orders[i])
    ensures e.StartPayment? && e.order != i ==> Step(env, s, e).orders[i] == s.orders[i]
  {
    var t := Step(env, s, e);
    if t.orders != s.orders {
      if e.PlaceOrder? {
        CommitRows(env, s, e, t);
      } else {
        StepTouches(env, s, e);
      }
    }
  }

  lemma MovesChain(o: Order, r: Order, q: Order)
    requires PaymentMoves(o, r) && PaymentMoves(r, q)
    ensures PaymentMoves(o, q)
  {
  }

  /** Over every run, whatever its requests: within a gateway session a payment never moves back (failed never
      waits again, completed ends only in returned, returned is final), and across sessions only a counted
      reopening undoes a settlement. */
  lemma {:induction false} PaymentNeverMovesBack(env: Env, s: State, es: seq<Event>, i: nat)
    requires i < |s.orders|
    ensures i < |Run(env, s, es).orders| && PaymentMoves(s.orders[i], Run(env, s, es).orders[i])
  {
    if es != [] {
      var n := |es| - 1;
      PaymentNeverMovesBack(env, s, es[..n], i);
      var t, u := Run(env, s, es[..n]), Run(env, s, es);
      StepMovesRows(env, t, es[n], i);
      MovesChain(s.orders[i], t.orders[i], u.orders[i]);
    }
  }

  /** A settled payment goes back to waiting exactly when the gateway page is opened on its order. */
  lemma SettledReopensExactly(env: Env, s: State, e: Event, i: nat)
    requires i < |s.orders| && s.orders[i].payment.Some? && Terminal(s.orders[i].payment.value)
    ensures var t := Step(env, s, e);
      && i < |t.orders| && t.orders[i].payment.Some?
      && (t.orders[i].payment.value.status.Awaiting? <==> e == StartPayment(i))
  {
    if e == StartPayment(i) {
      SessionOpened(s, i);
    } else {
      StepMovesRows(env, s, e, i);
    }
  }

  /** Without an admin edit or a gateway refund a cancelled order is never reopened. */
  lemma {:induction false} CancelledIsNeverReopened(env: Env, s: State, es: seq<Event>, i: nat)
    requires i < |s.orders| && s.orders[i].status.Cancelled?
    requires forall k :: 0 <= k < |es| ==> !es[k].Edit? && !es[k].GatewayRefund?
    ensures i < |Run(env, s, es).orders| && Run(env, s, es).orders[i].status.Cancelled?
  {
    if es != [] {
      CancelledIsNeverReopened(env, s, es[..|es| - 1], i);
      StepMovesRows(env, Run(env, s, es[..|es| - 1]), es[|es| - 1], i);
    }
  }

  lemma PlacedOnlineIsStale(env: Env, e: Event)
    requires e.PlaceOrder? && e.payBy.Online? && !WaivedBy(e)
    ensures IsStale(PlacedOrder(env, e), e.user)
  {
  }

  /** Submitting a checkout twice: after a cash or waived order the cart is empty and the second is refused;
      after an online order a second that commits has closed and restocked the first. */
  lemma DoubleSubmit(env: Env, s: State, e: Event, f: Event)
    requires e.PlaceOrder? && f.PlaceOrder? && f.user == e.user && Accepts(env, s, e)
    ensures e.payBy.COD? || WaivedBy(e) ==> !Accepts(env, Commit(env, s, e), f)
    ensures e.payBy.Online? && !WaivedBy(e) && Accepts(env, Commit(env, s, e), f) ==>
      var t, u := Commit(env, s, e), Commit(env, Commit(env, s, e), f);
      |s.orders| < |t.orders| && |s.orders| < |u.orders| && IsClosed(t.orders[|s.orders|], u.orders[|s.orders|])
  {
    var t := Commit(env, s, e);
    CommitShape(env, s, e, Supersede(env, s, e.user, |s.orders|), t);
    if e.payBy.Online? && !WaivedBy(e) && Accepts(env, t, f) {
      PlacedOnlineIsStale(env, e);
      CommitRows(env, t, f, Commit(env, t, f));
    }
  }

  /** An order whose payment failed is not superseded: it keeps its stock through a later checkout. */
  lemma FailedOrderIsNotSuperseded(env: Env, s: State, e: Event, i: nat)
    requires e.PlaceOrder? && Accepts(env, s, e) && i < |s.orders| && s.orders[i].payStatus.Declined?
    ensures i < |Commit(env, s, e).orders| && Commit(env, s, e).orders[i] == s.orders[i]
  {
    CommitRows(env, s, e, Commit(env, s, e));
  }

  // ----- At most one open gateway order per customer -----

  predicate OneOpenOrder(orders: seq<Order>) {
    forall i, j :: 0 <= i < j < |orders| ==> !(IsStale(orders[j], orders[j].user) && IsStale(orders[i], orders[j].user))
  }

  lemma StepKeepsOneOpen(env: Env, s: State, e: Event)
    requires OneOpenOrder(s.orders) && !e.Edit?
    ensures OneOpenOrder(Step(env, s, e).orders)
  {
    var t := Step(env, s, e);
    if t.orders != s.orders {
      if e.PlaceOrder? {
        CommitRows(env, s, e, t);
      } else {
        StepTouches(env, s, e);
      }
      RowsKeepOneOpen(e, s.orders, t.orders);
    }
  }

  lemma RowsKeepOneOpen(e: Event, a: seq<Order>, b: seq<Order>)
    requires OneOpenOrder(a) && !e.Edit? && |a| <= |b| <= |a| + 1
    requires forall j :: 0 <= j < |a| ==> b[j] == a[j] || RowStep(e, a[j], b[j])
    requires |b| > |a| ==> forall j :: 0 <= j < |a| ==> !IsStale(b[j], b[|a|].user)
    ensures OneOpenOrder(b)
  {
    forall i, j | 0 <= i < j < |b| ensures !(IsStale(b[j], b[j].user) && IsStale(b[i], b[j].user)) {
      if j < |a| {
        StaleBefore(e, a[i], b[i], a[j].user);
        StaleBefore(e, a[j], b[j], a[j].user);
      }
    }
  }

  lemma StaleBefore(e: Event, o: Order, r: Order, user: nat)
    requires !e.Edit? && (r == o || RowStep(e, o, r))
    ensures r.user == o.user && (IsStale(r, user) ==> IsStale(o, user))
  {
  }

  /** Over every run without admin edits a customer never has two open unpaid gateway orders. */
  lemma {:induction false} RunKeepsOneOpen(env: Env, s: State, es: seq<Event>)
    requires Opening(s) && forall k :: 0 <= k < |es| ==> !es[k].Edit?
    ensures OneOpenOrder(Run(env, s, es).orders)
  {
    if es != [] {
      RunKeepsOneOpen(env, s, es[..|es| - 1]);
      StepKeepsOneOpen(env, Run(env, s, es[..|es| - 1]), es[|es| - 1]);
    }
  }

  // ----- Invoices are raised when due -----

  /** No invoice is outstanding, unless a refund closed an order that never had one. */
  predicate Raised(o: Order) {
    InvoiceIsDue(o) ==> o.status.Refunded? && o.payStatus.PaidBack?
  }

  lemma RefundRaised(env: Env, s: State, i: nat, id: Option<nat>, amount: Option<int>, reference: Option<nat>)
    requires i < |s.orders| && s.orders[i].payment.Some? && Raised(s.orders[i])
    ensures Raised(MarkRefunded(env, s, i, id, amount, reference).orders[i])
  {
    if !Seen(s, id) && !s.orders[i].payment.value.status.Returned? {
      RefundShape(env, s, i, id, amount, reference);
      RecordedRow(env, s, i, if amount.Some? then amount.value else Refundable(s.orders[i]), reference, false);
    }
  }

  lemma CaptureRaised(s: State, i: nat, id: Option<nat>, amount: Option<int>)
    requires i < |s.orders| && s.orders[i].payment.Some? && Raised(s.orders[i])
    ensures Raised(MarkCaptured(s, i, id, amount).orders[i])
  {
    if CaptureIgnored(s, i, id, amount) {
      IgnoredCapture(s, i, id, amount);
    } else if s.orders[i].status.Cancelled? {
      LateCapture(s, i, id, amount);
    } else {
      ConfirmingCapture(s, i, id, amount);
    }
  }

  lemma CancelRaised(env: Env, s: State, i: nat, staff: bool)
    requires i < |s.orders| && Raised(s.orders[i])
    ensures Raised(CancelOrder(env, s, i, staff).orders[i])
  {
    RestoreFrame(env, s, i);
  }

  lemma SavedRaised(o: Order, e: Event)
    requires e.Edit? && ApplyPayment(o, e.payStatus, e.codPaid).Some?
    ensures !InvoiceIsDue(SavedOrder(o, e))
  {
  }

  lemma EditRaised(env: Env, s: State, e: Event)
    requires e.Edit? && e.order < |s.orders| && Raised(s.orders[e.order])
    ensures Raised(EditOrder(env, s, e).orders[e.order])
  {
    var i, o := e.order, s.orders[e.order];
    if EditIsAccepted(o, e) {
      SavedFrame(env, s, e);
      SavedRaised(o, e);
      if RecordsRefund(o, e) {
        RecordedRow(env, SavedEdit(env, s, e), i, if e.refund.Some? then e.refund.value else Refundable(o), None, true);
      }
    }
  }

  lemma TargetRaised(env: Env, s: State, e: Event, t: State)
    requires !e.FillCart? && !e.PlaceOrder? && !e.EditRecipe? && Target(e) < |s.orders| == |t.orders|
    requires t == Step(env, s, e) && Raised(s.orders[Target(e)])
    ensures Raised(t.orders[Target(e)])
  {
    match e
    case StartPayment(i) => BeginRaised(s, i);
    case Capture(i, session, id, amount) => if Found(s, i, session) { CaptureRaised(s, i, id, amount); }
    case Fail(i, session, id) => if Found(s, i, session) { FailRaised(s, i, id); }
    case GatewayRefund(i, id, amount, reference) =>
      if s.orders[i].payment.Some? { RefundRaised(env, s, i, id, amount, reference); }
    case Cancel(i, staff) => CancelRaised(env, s, i, staff);
    case Abandon(i) => AbandonRaised(env, s, i);
    case Edit(_, _, _, _, _) => EditRaised(env, s, e);
  }

  lemma BeginRaised(s: State, i: nat)
    requires i < |s.orders| && Raised(s.orders[i])
    ensures Raised(BeginPayment(s, i).orders[i])
  {
  }

  lemma FailRaised(s: State, i: nat, id: Option<nat>)
    requires i < |s.orders| && s.orders[i].payment.Some? && Raised(s.orders[i])
    ensures Raised(MarkFailed(s, i, id).orders[i])
  {
    FailShape(s, i, id);
  }

  lemma AbandonRaised(env: Env, s: State, i: nat)
    requires i < |s.orders| && Raised(s.orders[i])
    ensures Raised(AbandonOrder(env, s, i).orders[i])
  {
    RestoreFrame(env, s, i);
  }

  predicate AllRaised(orders: seq<Order>) {
    forall i :: 0 <= i < |orders| ==> Raised(orders[i])
  }

  lemma StepRaises(env: Env, s: State, e: Event)
    requires AllRaised(s.orders)
    ensures AllRaised(Step(env, s, e).orders)
  {
    var t := Step(env, s, e);
    if t.orders != s.orders {
      if e.PlaceOrder? {
        CommitRows(env, s, e, t);
        CommitShape(env, s, e, Supersede(env, s, e.user, |s.orders|), t);
        assert Raised(PlacedOrder(env, e));
      } else {
        StepTouches(env, s, e);
        TargetRaised(env, s, e, t);
      }
    }
  }

  /** In every run, every order that was paid for or dispatched has its invoice, cancelled and refunded
      orders aside. */
  lemma {:induction false} InvoicesAreRaised(env: Env, s: State, es: seq<Event>, i: nat)
    requires Opening(s) && i < |Run(env, s, es).orders|
    ensures AllRaised(Run(env, s, es).orders)
    ensures var o := Run(env, s, es).orders[i];
      (MoneyReceived(o.payStatus) || Dispatched(o.status)) && !o.status.Cancelled? && !o.status.Refunded? ==> o.invoiced
  {
    RunRaises(env, s, es);
    assert Raised(Run(env, s, es).orders[i]);
  }

  lemma {:induction false} RunRaises(env: Env, s: State, es: seq<Event>)
    requires Opening(s)
    ensures AllRaised(Run(env, s, es).orders)
  {
    if es != [] {
      RunRaises(env, s, es[..|es| - 1]);
      StepRaises(env, Run(env, s, es[..|es| - 1]), es[|es| - 1]);
    }
  }

  // ----- Coupon caps -----

  predicate WithinCaps(s: State) {
    forall c :: c in s.coupons && s.coupons[c].maxUsage.Some? ==> s.coupons[c].usageCount <= s.coupons[c].maxUsage.value
  }

  lemma StepKeepsCaps(env: Env, s: State, e: Event)
    requires WithinCaps(s)
    ensures WithinCaps(Step(env, s, e))
  {
    var t := Step(env, s, e);
    if t.coupons != s.coupons {
      if e.PlaceOrder? {
        CommitRows(env, s, e, t);
      } else {
        StepTouches(env, s, e);
      }
    }
  }

  /** However many checkouts validated a capped coupon beforehand, its uses never pass the cap. */
  lemma {:induction false} RunKeepsCaps(env: Env, s: State, es: seq<Event>)
    requires WithinCaps(s)
    ensures WithinCaps(Run(env, s, es))
  {
    if es != [] {
      RunKeepsCaps(env, s, es[..|es| - 1]);
      StepKeepsCaps(env, Run(env, s, es[..|es| - 1]), es[|es| - 1]);
    }
  }

  // ----- Money captured on a cancelled order -----

  predicate Flagged(audit: seq<Audit>, i: nat) {
    exists k :: 0 <= k < |audit| && audit[k].order == i && audit[k].kind.CapturedAfterCancel? && audit[k].alert
  }

  /** A completed payment belongs to a live paid order, or to a cancelled one flagged for a refund. */
  predicate Accounted(o: Order, audit: seq<Audit>, i: nat) {
    PaymentCompleted(o) ==> if o.status.Cancelled? then Flagged(audit, i) else o.payStatus.Paid?
  }

  predicate AllAccounted(s: State) {
    forall i :: 0 <= i < |s.orders| ==> Accounted(s.orders[i], s.audit, i)
  }

  lemma FlagStays(a: seq<Audit>, b: seq<Audit>, i: nat)
    requires |a| <= |b| && b[..|a|] == a && Flagged(a, i)
    ensures Flagged(b, i)
  {
    var k :| 0 <= k < |a| && a[k].order == i && a[k].kind.CapturedAfterCancel? && a[k].alert;
    assert b[k] == b[..|a|][k];
  }

  lemma AccountedStep(e: Event, s: State, t: State, i: nat)
    requires AllAccounted(s) && Touches(e, s, t, i) && Accounted(t.orders[i], t.audit, i)
    ensures AllAccounted(t)
  {
    forall j | 0 <= j < |t.orders| ensures Accounted(t.orders[j], t.audit, j) {
      if j != i && Flagged(s.audit, j) {
        FlagStays(s.audit, t.audit, j);
      }
    }
  }

  lemma CaptureAccounted(s: State, i: nat, id: Option<nat>, amount: Option<int>, t: State)
    requires i < |s.orders| && s.orders[i].payment.Some? && t == MarkCaptured(s, i, id, amount)
    requires Accounted(s.orders[i], s.audit, i) && |t.orders| == |s.orders| && AuditGrows(s, t)
    ensures Accounted(t.orders[i], t.audit, i)
  {
    if Flagged(s.audit, i) {
      FlagStays(s.audit, t.audit, i);
    }
    if CaptureIgnored(s, i, id, amount) {
      IgnoredCapture(s, i, id, amount);
    } else if s.orders[i].status.Cancelled? {
      LateCapture(s, i, id, amount);
      assert t.audit[|s.audit|].kind.CapturedAfterCancel?;
    } else {
      ConfirmingCapture(s, i, id, amount);
    }
  }

  lemma RefundAccounted(env: Env, s: State, i: nat, id: Option<nat>, amount: Option<int>, reference: Option<nat>,
                        t: State)
    requires i < |s.orders| && s.orders[i].payment.Some? && t == MarkRefunded(env, s, i, id, amount, reference)
    requires Accounted(s.orders[i], s.audit, i) && |t.orders| == |s.orders| && AuditGrows(s, t)
    ensures Accounted(t.orders[i], t.audit, i)
  {
    if Flagged(s.audit, i) {
      FlagStays(s.audit, t.audit, i);
    }
    if !Seen(s, id) && !s.orders[i].payment.value.status.Returned? {
      RefundShape(env, s, i, id, amount, reference);
    }
    RecordedRow(env, s, i, if amount.Some? then amount.value else Refundable(s.orders[i]), reference, false);
  }

  lemma CancelAccounted(env: Env, s: State, i: nat, t: State)
    requires i < |s.orders| && t == CancelOrder(env, s, i, false) && Accounted(s.orders[i], s.audit, i)
    ensures |t.orders| == |s.orders| && Accounted(t.orders[i], t.audit, i)
  {
    RestoreFrame(env, s, i);
  }

  lemma AbandonAccounted(env: Env, s: State, i: nat, t: State)
    requires i < |s.orders| && t == AbandonOrder(env, s, i) && Accounted(s.orders[i], s.audit, i)
    requires |t.orders| == |s.orders| && AuditGrows(s, t)
    ensures Accounted(t.orders[i], t.audit, i)
  {
    if Flagged(s.audit, i) {
      FlagStays(s.audit, t.audit, i);
    }
    RestoreFrame(env, s, i);
  }

  /** The requests that never cancel a paid order by hand. */
  predicate Unattended(e: Event) {
    !e.Edit? && !(e.Cancel? && e.staff)
  }

  lemma CommitAccounted(env: Env, s: State, e: Event)
    requires AllAccounted(s) && e.PlaceOrder? && Accepts(env, s, e)
    ensures AllAccounted(Commit(env, s, e))
  {
    var t := Commit(env, s, e);
    CommitRows(env, s, e, t);
    forall j | 0 <= j < |t.orders| ensures Accounted(t.orders[j], t.audit, j) {
      if j < |s.orders| {
        assert Accounted(s.orders[j], s.audit, j);
      }
    }
  }

  lemma QuietAccounted(s: State, t: State, i: nat)
    requires i < |s.orders| == |t.orders| && Accounted(s.orders[i], s.audit, i) && AuditGrows(s, t)
    requires t.orders[i] == s.orders[i] || !PaymentCompleted(t.orders[i])
    ensures Accounted(t.orders[i], t.audit, i)
  {
    if Flagged(s.audit, i) {
      FlagStays(s.audit, t.audit, i);
    }
  }

  lemma BeginQuiet(s: State, i: nat)
    requires i < |s.orders|
    ensures var r := BeginPayment(s, i).orders[i]; r == s.orders[i] || !PaymentCompleted(r)
  {
  }

  lemma FailQuiet(s: State, i: nat, id: Option<nat>)
    requires i < |s.orders| && s.orders[i].payment.Some?
    ensures var r := MarkFailed(s, i, id).orders[i]; r == s.orders[i] || !PaymentCompleted(r)
  {
    FailShape(s, i, id);
  }

  lemma TargetAccounted(env: Env, s: State, e: Event, t: State)
    requires !e.FillCart? && !e.PlaceOrder? && !e.EditRecipe? && Unattended(e) && Target(e) < |s.orders| == |t.orders|
    requires t == Step(env, s, e) && AuditGrows(s, t) && Accounted(s.orders[Target(e)], s.audit, Target(e))
    ensures Accounted(t.orders[Target(e)], t.audit, Target(e))
  {
    match e
    case StartPayment(i) =>
      BeginQuiet(s, i);
      QuietAccounted(s, t, i);
    case Capture(i, session, id, amount) => if Found(s, i, session) { CaptureAccounted(s, i, id, amount, t); }
    case Fail(i, session, id) =>
      if Found(s, i, session) { FailQuiet(s, i, id); }
      QuietAccounted(s, t, i);
    case GatewayRefund(i, id, amount, reference) =>
      if s.orders[i].payment.Some? { RefundAccounted(env, s, i, id, amount, reference, t); }
    case Cancel(i, staff) => CancelAccounted(env, s, i, t);
    case Abandon(i) => AbandonAccounted(env, s, i, t);
  }

  lemma StepAccounted(env: Env, s: State, e: Event)
    requires AllAccounted(s) && Unattended(e)
    ensures AllAccounted(Step(env, s, e))
  {
    var t := Step(env, s, e);
    if e.FillCart? || e.EditRecipe? || t == s {
      assert t.orders == s.orders && t.audit == s.audit;
    } else if e.PlaceOrder? {
      CommitAccounted(env, s, e);
    } else {
      StepTouches(env, s, e);
      TargetAccounted(env, s, e, t);
      AccountedStep(e, s, t, Target(e));
    }
  }

  /** Over every run of checkouts, payment events, customer cancellations, abandonments and gateway refunds,
      an order that is cancelled with a completed payment carries an alert that it was captured after
      cancellation. */
  lemma {:induction false} CancelledMoneyIsFlagged(env: Env, s: State, es: seq<Event>)
    requires Opening(s) && forall k :: 0 <= k < |es| ==> Unattended(es[k])
    ensures AllAccounted(Run(env, s, es))
    ensures var t := Run(env, s, es);
      forall i :: 0 <= i < |t.orders| && t.orders[i].status.Cancelled? && PaymentCompleted(t.orders[i])
        ==> Flagged(t.audit, i)
  {
    if es != [] {
      CancelledMoneyIsFlagged(env, s, es[..|es| - 1]);
      StepAccounted(env, Run(env, s, es[..|es| - 1]), es[|es| - 1]);
    }
    var t := Run(env, s, es);
    forall i | 0 <= i < |t.orders| && t.orders[i].status.Cancelled? && PaymentCompleted(t.orders[i])
      ensures Flagged(t.audit, i) {
      assert Accounted(t.orders[i], t.audit, i);
    }
  }
}
