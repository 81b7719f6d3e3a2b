/** Exactly when the shop breaks a promise: a settled payment reopened, captured money left without an alert,
    an invoice due and never raised. */
module ShopExceptions {
  import opened Money
  import opened Orders
  import opened Pricing
  import opened TaxBreakdown
  import opened Checkout
  import opened Coupons
  import opened Shop
  import opened ShopBooks
  import opened ShopSafety

  // ----- Settled payments reopened through the gateway page -----

  /** A payment was returned only when its order had a price. */
  predicate PricedReturns(orders: seq<Order>) {
    forall i :: 0 <= i < |orders| && orders[i].payment.Some? && orders[i].payment.value.status.Returned?
      ==> orders[i].bill.total > 0
  }

  lemma RefundPricesReturn(env: Env, s: State, i: nat, id: Option<nat>, amount: Option<int>, reference: Option<nat>)
    requires i < |s.orders| && s.orders[i].payment.Some? && PricedReturns(s.orders)
    ensures var r := MarkRefunded(env, s, i, id, amount, reference).orders[i];
      r.payment.Some? && (r.payment.value.status.Returned? ==> r.bill.total > 0)
  {
    if !Seen(s, id) && !s.orders[i].payment.value.status.Returned? {
      RefundShape(env, s, i, id, amount, reference);
    }
  }

  lemma OnlyRefundsReturn(env: Env, s: State, e: Event, i: nat)
    requires i < |s.orders| && s.orders[i].payment.Some? && !s.orders[i].payment.value.status.Returned?
    requires !(e.GatewayRefund? && e.order == i)
    ensures var t := Step(env, s, e);
      i < |t.orders| && t.orders[i].payment.Some? && !t.orders[i].payment.value.status.Returned?
  {
    if e.PlaceOrder? {
      if Accepts(env, s, e) { CommitRows(env, s, e, Commit(env, s, e)); }
    } else if !e.FillCart? && !e.EditRecipe? && Target(e) < |s.orders| {
      StepTouches(env, s, e);
      if Target(e) == i {
        TargetReturnsNothing(env, s, e, i);
      }
    }
  }

  lemma TargetReturnsNothing(env: Env, s: State, e: Event, i: nat)
    requires !e.FillCart? && !e.PlaceOrder? && !e.EditRecipe? && !e.GatewayRefund? && Target(e) == i < |s.orders|
    requires s.orders[i].payment.Some? && !s.orders[i].payment.value.status.Returned?
    ensures var r := Step(env, s, e).orders[i]; r.payment.Some? && !r.payment.value.status.Returned?
  {
    if e.Capture? {
      if Found(s, i, e.session) { CaptureReturnsNothing(s, i, e.eventId, e.amount, i); }
    } else if e.Edit? {
      EditKeepsPayment(env, s, e, i);
    } else if e.Cancel? || e.Abandon? {
      RestoreFrame(env, s, i);
    } else if e.StartPayment? {
      BeginReturnsNothing(s, i);
    } else {
      if Found(s, i, e.session) { FailReturnsNothing(s, i, e.eventId); }
    }
  }

  lemma BeginReturnsNothing(s: State, i: nat)
    requires i < |s.orders| && s.orders[i].payment.Some? && !s.orders[i].payment.value.status.Returned?
    ensures var r := BeginPayment(s, i).orders[i]; r.payment.Some? && !r.payment.value.status.Returned?
  {
  }

  lemma FailReturnsNothing(s: State, i: nat, id: Option<nat>)
    requires i < |s.orders| && s.orders[i].payment.Some? && !s.orders[i].payment.value.status.Returned?
    ensures var r := MarkFailed(s, i, id).orders[i]; r.payment.Some? && !r.payment.value.status.Returned?
  {
    FailShape(s, i, id);
  }

  lemma CaptureReturnsNothing(s: State, j: nat, id: Option<nat>, amount: Option<int>, i: nat)
    requires j < |s.orders| && s.orders[j].payment.Some? && i < |s.orders|
    requires s.orders[i].payment.Some? && !s.orders[i].payment.value.status.Returned?
    ensures var r := MarkCaptured(s, j, id, amount).orders[i]; r.payment.Some? && !r.payment.value.status.Returned?
  {
    if CaptureIgnored(s, j, id, amount) {
      IgnoredCapture(s, j, id, amount);
    } else if s.orders[j].status.Cancelled? {
      LateCapture(s, j, id, amount);
    } else {
      ConfirmingCapture(s, j, id, amount);
    }
  }

  lemma EditKeepsPayment(env: Env, s: State, e: Event, i: nat)
    requires e.Edit? && e.order < |s.orders| && i < |s.orders|
    ensures EditOrder(env, s, e).orders[i].payment == s.orders[i].payment
  {
    var j, o := e.order, s.orders[e.order];
    if EditIsAccepted(o, e) {
      SavedFrame(env, s, e);
      SavedPayment(o, e);
      if RecordsRefund(o, e) {
        var amount := if e.refund.Some? then e.refund.value else Refundable(o);
        RecordedRow(env, SavedEdit(env, s, e), j, amount, None, true);
        RecordedFrame(env, SavedEdit(env, s, e), j, amount, None, true);
      }
    }
  }

  lemma NewPaymentsWait(env: Env, s: State, e: Event, i: nat)
    requires i < |Step(env, s, e).orders| && Step(env, s, e).orders[i].payment.Some?
    requires i < |s.orders| ==> s.orders[i].payment.None?
    ensures !Step(env, s, e).orders[i].payment.value.status.Returned?
  {
    if e.PlaceOrder? {
      if Accepts(env, s, e) { CommitRows(env, s, e, Commit(env, s, e)); }
    } else if e.Edit? {
      if e.order < |s.orders| { EditKeepsPayment(env, s, e, i); }
    } else if e.Cancel? || e.Abandon? {
      if e.order < |s.orders| { RestoreFrame(env, s, e.order); }
    } else if e.Capture? || e.Fail? || e.GatewayRefund? {
      NoPaymentNoChange(env, s, e, i);
    }
  }

  lemma NoPaymentNoChange(env: Env, s: State, e: Event, i: nat)
    requires (e.Capture? || e.Fail? || e.GatewayRefund?) && i < |s.orders| && s.orders[i].payment.None?
    ensures i < |Step(env, s, e).orders| && Step(env, s, e).orders[i].payment.None?
  {
    if e.order < |s.orders| {
      StepTouches(env, s, e);
    }
  }

  lemma StepPricesReturns(env: Env, s: State, e: Event)
    requires PricedReturns(s.orders)
    ensures PricedReturns(Step(env, s, e).orders)
  {
    var t := Step(env, s, e);
    forall i | 0 <= i < |t.orders| && t.orders[i].payment.Some? && t.orders[i].payment.value.status.Returned?
      ensures t.orders[i].bill.total > 0
    {
      if i >= |s.orders| || s.orders[i].payment.None? {
        NewPaymentsWait(env, s, e, i);
      } else {
        StepMovesRows(env, s, e, i);
        if !s.orders[i].payment.value.status.Returned? {
          if e.GatewayRefund? && e.order == i {
            RefundPricesReturn(env, s, i, e.eventId, e.amount, e.reference);
          } else {
            OnlyRefundsReturn(env, s, e, i);
          }
        }
      }
    }
  }

  lemma {:induction false} RunPricesReturns(env: Env, s: State, es: seq<Event>)
    requires Opening(s)
    ensures PricedReturns(Run(env, s, es).orders)
  {
    if es != [] {
      RunPricesReturns(env, s, es[..|es| - 1]);
      StepPricesReturns(env, Run(env, s, es[..|es| - 1]), es[|es| - 1]);
    }
  }

  /** Over every run without admin edits and staff cancellations, the page's own checks let a settled payment
      be reopened exactly when it was returned and its order is neither cancelled nor marked paid. A completed
      one is reopened only by a check that went stale before the lock was taken. */
  lemma CheckLetsSettledThrough(env: Env, s: State, es: seq<Event>, i: nat)
    requires Opening(s) && (forall k :: 0 <= k < |es| ==> Unattended(es[k])) && i < |Run(env, s, es).orders|
    requires Run(env, s, es).orders[i].payment.Some? && Terminal(Run(env, s, es).orders[i].payment.value)
    ensures var o := Run(env, s, es).orders[i];
      Payable(o) <==> o.payment.value.status.Returned? && !o.status.Cancelled? && !o.payStatus.Paid?
  {
    CancelledMoneyIsFlagged(env, s, es);
    RunPricesReturns(env, s, es);
    assert Accounted(Run(env, s, es).orders[i], Run(env, s, es).audit, i);
  }

  /** No race is needed: an order refunded whole at the gateway passes the checks, its returned payment is
      reopened, and a capture leaves it confirmed and paid with money that no refund path can give back. */
  lemma RefundedOrderPaysAgain(env: Env, s: State, i: nat)
    requires Books(s) && i < |s.orders| && Refundable(s.orders[i]) > 0
    requires s.orders[i].payment.Some? && !s.orders[i].payment.value.status.Returned?
    ensures var t := MarkRefunded(env, s, i, None, None, None);
      PaysAgain(t, i) && t.orders[i].payment.value.status == Returned
  {
    var t := ReturnedWhole(env, s, i);
    PaidAgain(t, i);
  }

  /** The page's checks let the order through, a new session opens, and a capture of it leaves the order confirmed
      and paid with nothing left to refund. */
  ghost predicate PaysAgain(t: State, i: nat) {
    && i < |t.orders| && Payable(t.orders[i]) && t.orders[i].payment.Some?
    && var session, u := t.orders[i].payment.value.session + 1, BeginPayment(t, i);
    && Found(u, i, session) && u.orders[i].payment == Some(NextSession(t.orders[i]))
    && var w := MarkCaptured(u, i, None, None);
    && PaymentCompleted(w.orders[i]) && w.orders[i].status == Confirmed && w.orders[i].payStatus == Paid
    && forall amount, reference :: !RefundIsRecorded(w, i, amount, reference)
  }

  /** A refunded order's settled payment, reopened and captured. */
  lemma PaidAgain(t: State, i: nat)
    requires i < |t.orders| && t.orders[i].payment.Some? && Terminal(t.orders[i].payment.value)
    requires t.orders[i].status.Refunded? && t.orders[i].payStatus.PaidBack?
    requires Refundable(t.orders[i]) == 0 && t.orders[i].bill.total > 0
    ensures PaysAgain(t, i)
  {
    var o := t.orders[i].(payment := Some(NextSession(t.orders[i])));
    SessionOpened(t, i);
    CapturedOnce(BeginPayment(t, i), i, o);
  }

  lemma CapturedOnce(u: State, i: nat, o: Order)
    requires i < |u.orders| && u.orders[i] == o && o.payment.Some? && o.payment.value.status.Awaiting?
    requires !o.status.Cancelled? && Refundable(o) == 0
    ensures var w := MarkCaptured(u, i, None, None);
      && |w.orders| == |u.orders| && PaymentCompleted(w.orders[i]) && w.orders[i].status == Confirmed
      && w.orders[i].payStatus == Paid && Refundable(w.orders[i]) == 0
      && forall amount, reference :: !RefundIsRecorded(w, i, amount, reference)
  {
    ConfirmingCapture(u, i, None, None);
  }

  /** Nor after an admin refund, whole or partial: the order reads refunded, so the page lets its settled
      payment be reopened. */
  lemma AdminRefundedOrderPaysAgain(env: Env, s: State, e: Event)
    requires Books(s) && e.Edit? && e.order < |s.orders|
    requires EditIsAccepted(s.orders[e.order], e) && RecordsRefund(s.orders[e.order], e)
    requires s.orders[e.order].payment.Some? && Terminal(s.orders[e.order].payment.value)
    ensures var t := EditOrder(env, s, e);
      && Payable(t.orders[e.order]) && t.orders[e.order].payment == s.orders[e.order].payment
      && BeginPayment(t, e.order).orders[e.order].payment == Some(NextSession(t.orders[e.order]))
  {
    var i, o := e.order, s.orders[e.order];
    assert RowSound(o);
    SavedFrame(env, s, e);
    SavedInvoice(o, e);
    MarkedOpensPage(env, SavedEdit(env, s, e), i, if e.refund.Some? then e.refund.value else Refundable(o));
    EditKeepsPayment(env, s, e, i);
    SessionOpened(EditOrder(env, s, e), i);
  }

  /** After a whole admin refund the page opens, the capture confirms the order again, and no refund path can
      give the new money back. */
  lemma AdminRefundedOrderIsCapturedAgain(env: Env, s: State, e: Event)
    requires Books(s) && e.Edit? && e.order < |s.orders| && e.refund.None?
    requires EditIsAccepted(s.orders[e.order], e) && RecordsRefund(s.orders[e.order], e)
    requires s.orders[e.order].payment.Some? && Terminal(s.orders[e.order].payment.value)
    ensures PaysAgain(EditOrder(env, s, e), e.order)
  {
    AdminRefundSettles(env, s, e);
    EditKeepsPayment(env, s, e, e.order);
    PaidAgain(EditOrder(env, s, e), e.order);
  }

  lemma AdminRefundSettles(env: Env, s: State, e: Event)
    requires Books(s) && e.Edit? && e.order < |s.orders| && e.refund.None?
    requires EditIsAccepted(s.orders[e.order], e) && RecordsRefund(s.orders[e.order], e)
    ensures var r := EditOrder(env, s, e).orders[e.order];
      r.status == Refunded && r.payStatus == PaidBack && Refundable(r) == 0 && r.bill == s.orders[e.order].bill
  {
    var saved := SavedEdit(env, s, e);
    SavedMoney(env, s, e, saved);
    MarkedWhole(env, saved, e.order);
    EditRecords(env, s, e, saved);
  }

  lemma SavedMoney(env: Env, s: State, e: Event, saved: State)
    requires Books(s) && e.Edit? && e.order < |s.orders|
    requires EditIsAccepted(s.orders[e.order], e) && RecordsRefund(s.orders[e.order], e)
        && saved == SavedEdit(env, s, e)
    ensures var o, r := s.orders[e.order], saved.orders[e.order];
      && r.bill == o.bill && Refundable(r) == Refundable(o) && Refundable(o) > 0
      && r.refundedAmount == LedgerAmount(saved.ledger, e.order)
  {
    assert Linked(s, e.order);
    SavedFrame(env, s, e);
    SavedInvoice(s.orders[e.order], e);
  }

  lemma EditRecords(env: Env, s: State, e: Event, saved: State)
    requires e.Edit? && e.order < |s.orders|
    requires EditIsAccepted(s.orders[e.order], e) && RecordsRefund(s.orders[e.order], e)
        && saved == SavedEdit(env, s, e)
    ensures EditOrder(env, s, e)
         == RecordRefund(env, saved, e.order, if e.refund.Some? then e.refund.value else Refundable(s.orders[e.order]),
                         None, true)
  {
  }

  lemma MarkedWhole(env: Env, saved: State, i: nat)
    requires i < |saved.orders| && Refundable(saved.orders[i]) > 0
    requires saved.orders[i].refundedAmount == LedgerAmount(saved.ledger, i)
    ensures var o, r := saved.orders[i], RecordRefund(env, saved, i, Refundable(saved.orders[i]), None, true).orders[i];
      r.status == Refunded && r.payStatus == PaidBack && Refundable(r) == 0 && r.bill == o.bill
  {
    var o := saved.orders[i];
    RecordShape(env, saved, i, Refundable(o), None, true);
    LedgerGrows(saved.ledger, RefundRow(i, Refundable(o), RefundTaxFor(o.bill, o.refundedTax, Refundable(o)), None), i);
  }

  /** The request opens the gateway page to an order whose settled payment it was closed to, seen from the rows
      before it: an accepted edit that refunds the order, or leaves it neither cancelled nor marked paid; or the
      gateway refund that completes its money. */
  predicate OpensPage(s: State, e: Event, i: nat)
    requires i < |s.orders|
  {
    var o := s.orders[i];
    match e
    case Edit(j, status, _, _, _) =>
      && j == i && EditIsAccepted(o, e)
      && !(if status.Some? then status.value else o.status).Cancelled?
      && (RecordsRefund(o, e) || !ApplyPayment(o, e.payStatus, e.codPaid).value.payStatus.Paid?)
    case GatewayRefund(j, id, amount, reference) =>
      && j == i && o.payment.Some? && !o.payment.value.status.Returned? && !Seen(s, id)
      && !ReferenceKnown(s.ledger, reference)
      && 0 < Refundable(o) <= (if amount.Some? then amount.value else Refundable(o))
    case _ => false
  }

  /** The page's own checks would let a settled payment be reopened. */
  predicate Reopenable(o: Order) {
    o.payment.Some? && Terminal(o.payment.value) && Payable(o)
  }

  lemma EditOpensPage(env: Env, s: State, e: Event)
    requires Books(s) && e.Edit? && e.order < |s.orders|
    requires s.orders[e.order].payment.Some? && Terminal(s.orders[e.order].payment.value)
    requires !Payable(s.orders[e.order]) && s.orders[e.order].bill.total > 0
    ensures Reopenable(EditOrder(env, s, e).orders[e.order]) <==> OpensPage(s, e, e.order)
  {
    var i, o := e.order, s.orders[e.order];
    if EditIsAccepted(o, e) {
      EditKeepsPayment(env, s, e, i);
      SavedFrame(env, s, e);
      SavedMarks(o, e);
      if RecordsRefund(o, e) {
        SavedInvoice(o, e);
        MarkedOpensPage(env, SavedEdit(env, s, e), i, if e.refund.Some? then e.refund.value else Refundable(o));
      }
    }
  }

  lemma MarkedOpensPage(env: Env, saved: State, i: nat, amount: int)
    requires i < |saved.orders| && RefundIsRecorded(saved, i, amount, None) && saved.orders[i].bill.total > 0
    ensures Payable(RecordRefund(env, saved, i, amount, None, true).orders[i])
  {
    MarkedRow(env, saved, i, amount);
    RecordedRow(env, saved, i, amount, None, true);
  }

  lemma SavedMarks(o: Order, e: Event)
    requires e.Edit? && ApplyPayment(o, e.payStatus, e.codPaid).Some?
    ensures var r := SavedOrder(o, e);
      && r.payStatus == ApplyPayment(o, e.payStatus, e.codPaid).value.payStatus
      && r.status == (if e.status.Some? then e.status.value else o.status) && r.bill == o.bill
  {
    AppliedFrame(o, e.payStatus, e.codPaid);
  }

  lemma RecordOpensPage(env: Env, s: State, i: nat, amount: int, reference: Option<nat>)
    requires Books(s) && i < |s.orders| && !Payable(s.orders[i]) && s.orders[i].bill.total > 0
    ensures var o, r := s.orders[i], RecordRefund(env, s, i, amount, reference, false).orders[i];
      && r.payment == o.payment
      && (Payable(r) <==> !ReferenceKnown(s.ledger, reference) && 0 < Refundable(o) <= amount)
  {
    if RefundIsRecorded(s, i, amount, reference) {
      WholeRefund(env, s, i, amount, reference);
    }
  }

  lemma RefundOpensPage(env: Env, s: State, e: Event, i: nat)
    requires Books(s) && e.GatewayRefund? && e.order == i < |s.orders|
    requires s.orders[i].payment.Some? && Terminal(s.orders[i].payment.value)
    requires !Payable(s.orders[i]) && s.orders[i].bill.total > 0
    ensures Reopenable(MarkRefunded(env, s, i, e.eventId, e.amount, e.reference).orders[i]) <==> OpensPage(s, e, i)
  {
    var o := s.orders[i];
    if !Seen(s, e.eventId) && !o.payment.value.status.Returned? {
      var amount := if e.amount.Some? then e.amount.value else Refundable(o);
      RefundShape(env, s, i, e.eventId, e.amount, e.reference);
      RecordOpensPage(env, s, i, amount, e.reference);
    }
  }

  lemma CaptureOpensNothing(s: State, i: nat, id: Option<nat>, amount: Option<int>)
    requires i < |s.orders| && s.orders[i].payment.Some? && Terminal(s.orders[i].payment.value)
    ensures MarkCaptured(s, i, id, amount).orders == s.orders
  {
    IgnoredCapture(s, i, id, amount);
  }

  /** Whatever the request, admin edits included: the page opens to an order with a settled payment, closed to it
      before, exactly by an edit or a gateway refund of that kind. */
  lemma PageOpensExactly(env: Env, s: State, e: Event, i: nat)
    requires Books(s) && i < |s.orders| && s.orders[i].payment.Some? && Terminal(s.orders[i].payment.value)
    requires !Payable(s.orders[i]) && s.orders[i].bill.total > 0
    ensures i < |Step(env, s, e).orders|
    ensures Reopenable(Step(env, s, e).orders[i]) <==> OpensPage(s, e, i)
  {
    if e.PlaceOrder? {
      if Accepts(env, s, e) { CommitRows(env, s, e, Commit(env, s, e)); }
    } else if !e.FillCart? && !e.EditRecipe? && Target(e) < |s.orders| {
      StepTouches(env, s, e);
      if Target(e) == i {
        TargetOpensPage(env, s, e, i);
      }
    }
  }

  lemma TargetOpensPage(env: Env, s: State, e: Event, i: nat)
    requires Books(s) && !e.FillCart? && !e.PlaceOrder? && !e.EditRecipe? && Target(e) == i < |s.orders|
    requires s.orders[i].payment.Some? && Terminal(s.orders[i].payment.value)
    requires !Payable(s.orders[i]) && s.orders[i].bill.total > 0
    ensures Reopenable(Step(env, s, e).orders[i]) <==> OpensPage(s, e, i)
  {
    if e.Edit? {
      EditOpensPage(env, s, e);
    } else if e.GatewayRefund? {
      RefundOpensPage(env, s, e, i);
    } else if e.Capture? {
      if Found(s, i, e.session) { CaptureOpensNothing(s, i, e.eventId, e.amount); }
    } else if e.Cancel? || e.Abandon? {
      RestoreFrame(env, s, i);
    } else if e.StartPayment? {
      SessionOpened(s, i);
    } else {
      if Found(s, i, e.session) { IgnoredFail(s, i, e.eventId); }
    }
  }

  lemma ReturnedWhole(env: Env, s: State, i: nat) returns (t: State)
    requires Books(s) && i < |s.orders| && Refundable(s.orders[i]) > 0
    requires s.orders[i].payment.Some? && !s.orders[i].payment.value.status.Returned?
    ensures t == MarkRefunded(env, s, i, None, None, None)
    ensures var o, r := s.orders[i], t.orders[i];
      && r.payment == Some(o.payment.value.(status := Returned)) && r.status == Refunded && r.payStatus == PaidBack
      && r.bill == o.bill && r.bill.total > 0 && Refundable(r) == 0 && r.invoiced == o.invoiced
  {
    t := MarkRefunded(env, s, i, None, None, None);
    RefundShape(env, s, i, None, None, None);
    WholeRefund(env, s, i, Refundable(s.orders[i]), None);
  }

  /** A recorded refund settles an order exactly when it covers what was left. */
  lemma WholeRefund(env: Env, s: State, i: nat, amount: int, reference: Option<nat>)
    requires Books(s) && i < |s.orders| && RefundIsRecorded(s, i, amount, reference)
    ensures var o, r := s.orders[i], RecordRefund(env, s, i, amount, reference, false).orders[i];
      && r.bill == o.bill && r.invoiced == o.invoiced && r.payment == o.payment
      && Refundable(r) == Refundable(o) - Min(amount, Refundable(o))
      && (FullyRefunded(r) <==> amount >= Refundable(o))
      && (if amount >= Refundable(o) then r.status == Refunded && r.payStatus == PaidBack
          else r.status == o.status && r.payStatus == o.payStatus)
  {
    var o := s.orders[i];
    var given := Min(amount, Refundable(o));
    assert RowSound(o) && Linked(s, i);
    RecordShape(env, s, i, amount, reference, false);
    LedgerGrows(s.ledger, RefundRow(i, given, RefundTaxFor(o.bill, o.refundedTax, given), reference), i);
  }

  // ----- Captured money without an alert -----

  /** Money was captured on a cancelled order and nothing says so. */
  predicate Unnoticed(s: State, i: nat)
    requires i < |s.orders|
  {
    s.orders[i].status.Cancelled? && PaymentCompleted(s.orders[i]) && !Flagged(s.audit, i)
  }

  /** The request cancels order i, seen from the rows before it. */
  predicate Cancels(env: Env, s: State, e: Event, i: nat)
    requires i < |s.orders|
  {
    var o := s.orders[i];
    match e
    case Cancel(j, staff) => j == i && !Uncancellable(o.status) && (staff || !PaymentCompleted(o))
    case Abandon(j) => j == i && !o.status.Cancelled? && !o.payStatus.Paid?
    case Edit(j, _, _, _, _) => j == i && Cancelling(o, e) && EditIsAccepted(o, e)
    case PlaceOrder(user, _, _, _, _) => IsStale(o, user) && Accepts(env, s, e)
    case _ => false
  }

  lemma CancelUnnoticed(env: Env, s: State, i: nat, staff: bool)
    requires i < |s.orders| && !Unnoticed(s, i)
    ensures Unnoticed(CancelOrder(env, s, i, staff), i)
       <==> !Flagged(s.audit, i) && PaymentCompleted(s.orders[i]) && Cancels(env, s, Cancel(i, staff), i)
  {
    RestoreFrame(env, s, i);
  }

  lemma AbandonUnnoticed(env: Env, s: State, i: nat)
    requires i < |s.orders| && !Unnoticed(s, i)
    ensures Unnoticed(AbandonOrder(env, s, i), i)
       <==> !Flagged(s.audit, i) && PaymentCompleted(s.orders[i]) && Cancels(env, s, Abandon(i), i)
  {
    var t := AbandonOrder(env, s, i);
    RestoreFrame(env, s, i);
    if t != s {
      assert t.audit == s.audit + [Audit(i, AutoCancelled, None, None, false)];
      if Flagged(s.audit, i) {
        FlagStays(s.audit, t.audit, i);
      }
    }
  }

  lemma EditStatus(env: Env, s: State, e: Event)
    requires e.Edit? && e.order < |s.orders| && EditIsAccepted(s.orders[e.order], e)
    ensures var o, r := s.orders[e.order], EditOrder(env, s, e).orders[e.order];
      r.status.Cancelled? <==> (if e.status.Some? then e.status.value else o.status).Cancelled?
    ensures EditOrder(env, s, e).audit == s.audit
  {
    var i, o := e.order, s.orders[e.order];
    SavedFrame(env, s, e);
    SavedStatus(o, e);
    if RecordsRefund(o, e) {
      var amount := if e.refund.Some? then e.refund.value else Refundable(o);
      RecordedRow(env, SavedEdit(env, s, e), i, amount, None, true);
      RecordedFrame(env, SavedEdit(env, s, e), i, amount, None, true);
    }
  }

  lemma SavedStatus(o: Order, e: Event)
    requires e.Edit? && ApplyPayment(o, e.payStatus, e.codPaid).Some?
    ensures SavedOrder(o, e).status == if e.status.Some? then e.status.value else o.status
  {
    AppliedFrame(o, e.payStatus, e.codPaid);
  }

  lemma EditUnnoticed(env: Env, s: State, e: Event)
    requires e.Edit? && e.order < |s.orders| && !Unnoticed(s, e.order)
    ensures Unnoticed(EditOrder(env, s, e), e.order)
       <==> !Flagged(s.audit, e.order) && PaymentCompleted(s.orders[e.order]) && Cancels(env, s, e, e.order)
  {
    if EditIsAccepted(s.orders[e.order], e) {
      EditKeepsPayment(env, s, e, e.order);
      EditStatus(env, s, e);
    }
  }

  lemma CheckoutUnnoticed(env: Env, s: State, e: Event, i: nat)
    requires e.PlaceOrder? && Accepts(env, s, e) && i < |s.orders| && !Unnoticed(s, i)
    ensures i < |Commit(env, s, e).orders|
    ensures Unnoticed(Commit(env, s, e), i)
       <==> !Flagged(s.audit, i) && PaymentCompleted(s.orders[i]) && Cancels(env, s, e, i)
  {
    CommitRows(env, s, e, Commit(env, s, e));
  }

  lemma CaptureUnnoticed(s: State, i: nat, id: Option<nat>, amount: Option<int>)
    requires i < |s.orders| && s.orders[i].payment.Some? && !Unnoticed(s, i)
    ensures !Unnoticed(MarkCaptured(s, i, id, amount), i)
  {
    var t := MarkCaptured(s, i, id, amount);
    if CaptureIgnored(s, i, id, amount) {
      IgnoredCapture(s, i, id, amount);
      IgnoredCaptureFrame(s, i, id, amount);
      if Flagged(s.audit, i) {
        FlagStays(s.audit, t.audit, i);
      }
    } else if s.orders[i].status.Cancelled? {
      LateCapture(s, i, id, amount);
      assert t.audit[|s.audit|].kind.CapturedAfterCancel?;
    } else {
      ConfirmingCapture(s, i, id, amount);
    }
  }

  lemma RefundUnnoticed(env: Env, s: State, i: nat, id: Option<nat>, amount: Option<int>, reference: Option<nat>)
    requires i < |s.orders| && s.orders[i].payment.Some? && !Unnoticed(s, i)
    ensures !Unnoticed(MarkRefunded(env, s, i, id, amount, reference), i)
  {
    var o, t := s.orders[i], MarkRefunded(env, s, i, id, amount, reference);
    RefundTouches(GatewayRefund(i, id, amount, reference), env, s, i, id, amount, reference);
    if Flagged(s.audit, i) {
      FlagStays(s.audit, t.audit, i);
    }
    if !Seen(s, id) && !o.payment.value.status.Returned? {
      RefundShape(env, s, i, id, amount, reference);
      RecordedRow(env, s, i, if amount.Some? then amount.value else Refundable(o), reference, false);
    }
  }

  lemma QuietUnnoticed(env: Env, s: State, e: Event, i: nat)
    requires (e.StartPayment? || e.Fail?) && e.order == i < |s.orders| && !Unnoticed(s, i)
    ensures i < |Step(env, s, e).orders| && !Unnoticed(Step(env, s, e), i)
  {
    var t := Step(env, s, e);
    StepTouches(env, s, e);
    if Flagged(s.audit, i) {
      FlagStays(s.audit, t.audit, i);
    }
    if e.StartPayment? {
      BeginQuiet(s, i);
    } else if Found(s, i, e.session) {
      FailQuiet(s, i, e.eventId);
    }
    RowUnnoticed(s, t, i);
  }

  lemma RowUnnoticed(s: State, t: State, i: nat)
    requires i < |s.orders| == |t.orders| && !Unnoticed(s, i) && (Flagged(s.audit, i) ==> Flagged(t.audit, i))
    requires t.orders[i] == s.orders[i] || !PaymentCompleted(t.orders[i])
    ensures !Unnoticed(t, i)
  {
  }

  lemma OtherOrderUnnoticed(env: Env, s: State, e: Event, i: nat)
    requires i < |s.orders| && !Unnoticed(s, i) && !e.PlaceOrder?
    requires e.FillCart? || e.EditRecipe? || Target(e) != i
    ensures i < |Step(env, s, e).orders| && !Unnoticed(Step(env, s, e), i)
  {
    var t := Step(env, s, e);
    if !e.FillCart? && !e.EditRecipe? && Target(e) < |s.orders| {
      StepTouches(env, s, e);
      if Flagged(s.audit, i) {
        FlagStays(s.audit, t.audit, i);
      }
    }
  }

  /** A request leaves captured money on a cancelled order without an alert exactly when it cancels an order
      whose payment completed: a staff cancellation, an admin edit to cancelled, or, where the order no
      longer reads paid, the reconciliation job and a new checkout. */
  lemma CancelLeavesUnflagged(env: Env, s: State, e: Event, i: nat)
    requires i < |s.orders| && !Unnoticed(s, i)
    ensures var t := Step(env, s, e);
      && i < |t.orders|
      && (Unnoticed(t, i) <==> !Flagged(s.audit, i) && PaymentCompleted(s.orders[i]) && Cancels(env, s, e, i))
  {
    if e.PlaceOrder? {
      if Accepts(env, s, e) { CheckoutUnnoticed(env, s, e, i); }
    } else if e.FillCart? || e.EditRecipe? || Target(e) != i {
      OtherOrderUnnoticed(env, s, e, i);
    } else {
      match e
      case Cancel(_, staff) => CancelUnnoticed(env, s, i, staff);
      case Abandon(_) => AbandonUnnoticed(env, s, i);
      case Edit(_, _, _, _, _) => EditUnnoticed(env, s, e);
      case Capture(_, session, id, amount) => if Found(s, i, session) { CaptureUnnoticed(s, i, id, amount); }
      case GatewayRefund(_, id, amount, reference) =>
        if s.orders[i].payment.Some? { RefundUnnoticed(env, s, i, id, amount, reference); }
      case _ => QuietUnnoticed(env, s, e, i);
    }
  }

  // ----- Invoices due and never raised -----

  /** The request refunds, whole, an order without an invoice; or it is an edit that refunds one while
      taking back the mark that money was received. */
  predicate LeavesInvoiceDue(s: State, e: Event, i: nat)
    requires i < |s.orders|
  {
    var o := s.orders[i];
    !o.invoiced &&
    match e
    case GatewayRefund(j, id, amount, reference) =>
      && j == i && o.payment.Some? && !o.payment.value.status.Returned? && !Seen(s, id)
      && !ReferenceKnown(s.ledger, reference)
      && 0 < Refundable(o) <= (if amount.Some? then amount.value else Refundable(o))
    case Edit(j, _, _, _, _) =>
      && j == i && EditIsAccepted(o, e) && RecordsRefund(o, e)
      && !MoneyReceived(ApplyPayment(o, e.payStatus, e.codPaid).value.payStatus)
    case _ => false
  }

  lemma RecordLeavesDue(env: Env, s: State, i: nat, amount: int, reference: Option<nat>)
    requires Books(s) && i < |s.orders| && !InvoiceIsDue(s.orders[i])
    ensures var o := s.orders[i];
      InvoiceIsDue(RecordRefund(env, s, i, amount, reference, false).orders[i])
      <==> !o.invoiced && !ReferenceKnown(s.ledger, reference) && 0 < Refundable(o) <= amount
  {
    if RefundIsRecorded(s, i, amount, reference) {
      WholeRefund(env, s, i, amount, reference);
    }
  }

  lemma SettlingIsNoInvoice(o: Order, status: GatewayStatus)
    requires o.payment.Some?
    ensures InvoiceIsDue(Settle(o, status)) <==> InvoiceIsDue(o)
  {
  }

  lemma RefundLeavesDue(env: Env, s: State, e: Event, i: nat)
    requires Books(s) && i < |s.orders| && !InvoiceIsDue(s.orders[i])
    requires e.GatewayRefund? && e.order == i && s.orders[i].payment.Some?
    ensures InvoiceIsDue(MarkRefunded(env, s, i, e.eventId, e.amount, e.reference).orders[i])
        <==> LeavesInvoiceDue(s, e, i)
  {
    var o := s.orders[i];
    if !Seen(s, e.eventId) && !o.payment.value.status.Returned? {
      var amount := if e.amount.Some? then e.amount.value else Refundable(o);
      var r := RecordRefund(env, s, i, amount, e.reference, false).orders[i];
      RefundShape(env, s, i, e.eventId, e.amount, e.reference);
      RecordLeavesDue(env, s, i, amount, e.reference);
      SettlingIsNoInvoice(r, if FullyRefunded(r) then Returned else o.payment.value.status);
    }
  }

  lemma SavedInvoice(o: Order, e: Event)
    requires e.Edit? && ApplyPayment(o, e.payStatus, e.codPaid).Some? && RecordsRefund(o, e)
    ensures var r := SavedOrder(o, e);
      && (r.invoiced <==> o.invoiced || MoneyReceived(ApplyPayment(o, e.payStatus, e.codPaid).value.payStatus))
      && r.refundedAmount == o.refundedAmount && r.bill == o.bill
  {
    AppliedFrame(o, e.payStatus, e.codPaid);
  }

  lemma EditLeavesDue(env: Env, s: State, e: Event)
    requires e.Edit? && e.order < |s.orders|
    requires !InvoiceIsDue(s.orders[e.order])
    ensures InvoiceIsDue(EditOrder(env, s, e).orders[e.order]) <==> LeavesInvoiceDue(s, e, e.order)
  {
    var i, o := e.order, s.orders[e.order];
    if EditIsAccepted(o, e) {
      SavedFrame(env, s, e);
      SavedRaised(o, e);
      if RecordsRefund(o, e) {
        var amount := if e.refund.Some? then e.refund.value else Refundable(o);
        SavedInvoice(o, e);
        MarkedRow(env, SavedEdit(env, s, e), i, amount);
      }
    }
  }

  lemma MarkedRow(env: Env, s: State, i: nat, amount: int)
    requires i < |s.orders| && RefundIsRecorded(s, i, amount, None)
    ensures var o, r := s.orders[i], RecordRefund(env, s, i, amount, None, true).orders[i];
      r.status == Refunded && r.payStatus == PaidBack && r.invoiced == o.invoiced
  {
    RecordShape(env, s, i, amount, None, true);
  }

  lemma CaptureLeavesNoneDue(s: State, j: nat, id: Option<nat>, amount: Option<int>, i: nat)
    requires j < |s.orders| && s.orders[j].payment.Some? && i < |s.orders| && !InvoiceIsDue(s.orders[i])
    ensures !InvoiceIsDue(MarkCaptured(s, j, id, amount).orders[i])
  {
    if CaptureIgnored(s, j, id, amount) {
      IgnoredCapture(s, j, id, amount);
    } else if s.orders[j].status.Cancelled? {
      LateCapture(s, j, id, amount);
    } else {
      ConfirmingCapture(s, j, id, amount);
    }
  }

  lemma ClosingLeavesNoneDue(env: Env, s: State, e: Event, i: nat)
    requires i < |s.orders| && !InvoiceIsDue(s.orders[i]) && (e.Cancel? || e.Abandon?)
    ensures !InvoiceIsDue(Step(env, s, e).orders[i])
  {
    if e.order < |s.orders| {
      RestoreFrame(env, s, e.order);
    }
  }

  lemma QuietLeavesNoneDue(env: Env, s: State, e: Event, i: nat)
    requires i < |s.orders| && !InvoiceIsDue(s.orders[i]) && !e.GatewayRefund? && !e.Edit?
    ensures i < |Step(env, s, e).orders| && !InvoiceIsDue(Step(env, s, e).orders[i])
  {
    if e.PlaceOrder? {
      if Accepts(env, s, e) { CommitRows(env, s, e, Commit(env, s, e)); }
    } else if e.Cancel? || e.Abandon? {
      ClosingLeavesNoneDue(env, s, e, i);
    } else if e.Capture? {
      if Found(s, e.order, e.session) { CaptureLeavesNoneDue(s, e.order, e.eventId, e.amount, i); }
    }
  }

  /** A request leaves an invoice due and unraised exactly when it completes the refund of an order without
      an invoice, or refunds one while unmarking its payment. */
  lemma InvoiceLeftDueExactly(env: Env, s: State, e: Event, i: nat)
    requires Books(s) && i < |s.orders| && !InvoiceIsDue(s.orders[i])
    ensures i < |Step(env, s, e).orders|
    ensures InvoiceIsDue(Step(env, s, e).orders[i]) <==> LeavesInvoiceDue(s, e, i)
  {
    if !e.GatewayRefund? && !e.Edit? {
      QuietLeavesNoneDue(env, s, e, i);
    } else if e.order < |s.orders| {
      StepTouches(env, s, e);
      if e.order == i {
        if e.Edit? {
          EditLeavesDue(env, s, e);
        } else if s.orders[i].payment.Some? {
          RefundLeavesDue(env, s, e, i);
        }
      }
    }
  }

  predicate NoneDue(orders: seq<Order>) {
    forall i :: 0 <= i < |orders| ==> !InvoiceIsDue(orders[i])
  }

  predicate RunLeavesNoneDue(env: Env, s: State, es: seq<Event>) {
    es == [] ||
    (var n := |es| - 1;
     && RunLeavesNoneDue(env, s, es[..n])
     && forall i :: 0 <= i < |Run(env, s, es[..n]).orders| ==> !LeavesInvoiceDue(Run(env, s, es[..n]), es[n], i))
  }

  lemma PlacedLeavesNoneDue(env: Env, s: State, e: Event, i: nat)
    requires |s.orders| <= i < |Step(env, s, e).orders|
    ensures !InvoiceIsDue(Step(env, s, e).orders[i])
  {
    if e.PlaceOrder? {
      CommitShape(env, s, e, Supersede(env, s, e.user, |s.orders|), Commit(env, s, e));
    } else {
      OtherStepsAppendNothing(env, s, e);
    }
  }

  /** Over every run in which no request is of that kind, every order paid for, paid back or dispatched, and
      not cancelled, has its invoice. */
  lemma {:induction false} InvoicesAlwaysRaised(env: Env, s: State, es: seq<Event>)
    requires Opening(s) && RunLeavesNoneDue(env, s, es)
    ensures NoneDue(Run(env, s, es).orders)
  {
    if es != [] {
      var u := Run(env, s, es[..|es| - 1]);
      InvoicesAlwaysRaised(env, s, es[..|es| - 1]);
      RunKeepsBooks(env, s, es[..|es| - 1]);
      forall i | 0 <= i < |Run(env, s, es).orders| ensures !InvoiceIsDue(Run(env, s, es).orders[i]) {
        if i < |u.orders| {
          InvoiceLeftDueExactly(env, u, es[|es| - 1], i);
        } else {
          PlacedLeavesNoneDue(env, u, es[|es| - 1], i);
        }
      }
    }
  }

  /** One such run: money captured after a cancellation and then refunded whole at the gateway. */
  lemma RefundedLateCaptureIsUninvoiced(env: Env, s: State, i: nat, reference: Option<nat>)
    requires Books(s) && i < |s.orders| && Flagged(s.audit, i) && PaymentCompleted(s.orders[i])
    requires s.orders[i].status.Cancelled? && !s.orders[i].invoiced && Refundable(s.orders[i]) > 0
    ensures var e := GatewayRefund(i, None, None, reference);
      i < |Step(env, s, e).orders|
      && (InvoiceIsDue(Step(env, s, e).orders[i]) <==> !ReferenceKnown(s.ledger, reference))
  {
    InvoiceLeftDueExactly(env, s, GatewayRefund(i, None, None, reference), i);
  }

  /** An admin edit is the other kind: it refunds a cancelled, uninvoiced order that was marked paid by hand and,
      in the same request, takes the mark back. */
  lemma UnmarkedRefundIsUninvoiced(s: State, i: nat)
    requires i < |s.orders|
    requires var o := s.orders[i];
      && o.status.Cancelled? && !o.invoiced && !o.payBy.COD? && o.payStatus.Paid?
      && o.refundedAmount == 0 && o.bill.total > 0
    ensures LeavesInvoiceDue(s, Edit(i, Some(Refunded), Some(Unpaid), None, None), i)
  {
  }

  /** From any shop without orders: a gateway checkout with a price, the customer's cancellation, an edit that
      marks it paid, and that edit leave a refunded order whose invoice is due and was never raised. */
  lemma UninvoicedRefundRun(env: Env, s: State, e: Event)
    requires Opening(s) && e.PlaceOrder? && Accepts(env, s, e) && !e.payBy.COD? && PlacedOrder(env, e).bill.total > 0
    ensures var marked := Run(env, s, [e, Cancel(0, false), Edit(0, None, Some(Paid), None, None)]);
      var t := Step(env, marked, Edit(0, Some(Refunded), Some(Unpaid), None, None));
      |t.orders| == 1 && InvoiceIsDue(t.orders[0]) && t.orders[0].status.Refunded?
  {
    var cancel, mark := Cancel(0, false), Edit(0, None, Some(Paid), None, None);
    var refund := Edit(0, Some(Refunded), Some(Unpaid), None, None);
    var a := Commit(env, s, e);
    var b := Step(env, a, cancel);
    var c := Step(env, b, mark);
    FirstOrder(env, s, e);
    FirstCancelled(env, a);
    MarkedPaid(env, b);
    RunOfThree(env, s, e, cancel, mark);
    RunKeepsBooks(env, s, [e, cancel, mark]);
    UnmarkedRefundIsUninvoiced(c, 0);
    InvoiceLeftDueExactly(env, c, refund, 0);
    OtherStepsAppendNothing(env, c, refund);
    DueAndMoneyBack(env, c, refund);
  }

  lemma FirstOrder(env: Env, s: State, e: Event)
    requires Opening(s) && e.PlaceOrder? && Accepts(env, s, e) && !e.payBy.COD? && PlacedOrder(env, e).bill.total > 0
    ensures var a := Commit(env, s, e);
      && a.orders == [PlacedOrder(env, e)] && a.orders[0].status.Pending? && a.orders[0].payment.None?
      && !a.orders[0].invoiced && !a.orders[0].payBy.COD? && a.orders[0].bill.total > 0
      && a.orders[0].refundedAmount == 0
  {
    CommitShape(env, s, e, Supersede(env, s, e.user, |s.orders|), Commit(env, s, e));
    PlacedOrderGoods(env, e);
  }

  lemma FirstCancelled(env: Env, a: State)
    requires |a.orders| == 1 && a.orders[0].status.Pending? && a.orders[0].payment.None? && !a.orders[0].invoiced
    ensures var o, b := a.orders[0], Step(env, a, Cancel(0, false));
      && |b.orders| == 1 && b.orders[0].status.Cancelled? && !b.orders[0].invoiced && b.orders[0].bill == o.bill
      && b.orders[0].payBy == o.payBy && b.orders[0].refundedAmount == o.refundedAmount
  {
    RestoreFrame(env, a, 0);
  }

  lemma MarkedPaid(env: Env, b: State)
    requires |b.orders| == 1 && b.orders[0].status.Cancelled? && !b.orders[0].invoiced
    ensures var c := Step(env, b, Edit(0, None, Some(Paid), None, None));
      c.orders == [b.orders[0].(payStatus := Paid)]
  {
    var e := Edit(0, None, Some(Paid), None, None);
    assert EditIsAccepted(b.orders[0], e) && !RecordsRefund(b.orders[0], e) && !Cancelling(b.orders[0], e);
  }

  lemma DueAndMoneyBack(env: Env, c: State, e: Event)
    requires e.Edit? && e.order < |c.orders| && EditIsAccepted(c.orders[e.order], e)
        && RecordsRefund(c.orders[e.order], e)
    ensures Step(env, c, e).orders[e.order].status.Refunded?
  {
    var o := c.orders[e.order];
    SavedFrame(env, c, e);
    SavedInvoice(o, e);
    MarkedRow(env, SavedEdit(env, c, e), e.order, if e.refund.Some? then e.refund.value else Refundable(o));
  }
}
