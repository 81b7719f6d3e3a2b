/** The stock behind live orders: which orders still owe goods, and exactly when one owes goods that were
    already given back to the shelf. */
module ShopLive {
  import opened Money
  import opened Orders
  import opened Pricing
  import opened TaxBreakdown
  import opened Checkout
  import opened Coupons
  import opened Shop
  import opened ShopBooks
  import opened ShopStock
  import opened ShopSafety
  import opened ShopExceptions

  /** The customer is still owed the goods, or has them. */
  predicate IsLive(o: Order) {
    !o.status.Cancelled? && !o.status.Refunded?
  }

  /** A live order whose units went back to the shelf, where the next customer can buy them. */
  predicate Unbacked(o: Order) {
    IsLive(o) && o.restored
  }

  predicate GivenBack(o: Order) {
    !IsLive(o) ==> o.restored
  }

  predicate AllGivenBack(orders: seq<Order>) {
    forall i :: 0 <= i < |orders| ==> GivenBack(orders[i])
  }

  // ----- Each request -----

  /** The request leaves order i live without stock, seen from the rows before it: an edit that revives it, a
      capture on a refunded order, or a refund recorded at the gateway that returns only part of the money. */
  predicate Unbacks(s: State, e: Event, i: nat)
    requires i < |s.orders|
  {
    var o := s.orders[i];
    match e
    case Edit(j, status, _, _, _) =>
      && j == i && !IsLive(o) && EditIsAccepted(o, e)
      && status.Some? && !status.value.Cancelled? && !status.value.Refunded?
    case Capture(j, session, id, amount) =>
      && j == i && o.status.Refunded? && Found(s, i, session) && !CaptureIgnored(s, i, id, amount)
    case GatewayRefund(j, id, amount, reference) =>
      && j == i && IsLive(o) && o.payment.Some? && !o.payment.value.status.Returned? && !Seen(s, id)
      && amount.Some? && 0 < amount.value < Refundable(o) && !ReferenceKnown(s.ledger, reference)
    case _ => false
  }

  /** What a request does to the backing of one order. */
  predicate BackingStep(s: State, e: Event, i: nat, r: Order)
    requires i < |s.orders|
  {
    GivenBack(r) && (Unbacked(r) <==> Unbacks(s, e, i))
  }

  lemma CaptureBacking(s: State, e: Event, i: nat)
    requires e.Capture? && e.order == i && Found(s, i, e.session) && GivenBack(s.orders[i]) && !Unbacked(s.orders[i])
    ensures BackingStep(s, e, i, MarkCaptured(s, i, e.eventId, e.amount).orders[i])
  {
    if CaptureIgnored(s, i, e.eventId, e.amount) {
      IgnoredCapture(s, i, e.eventId, e.amount);
    } else if s.orders[i].status.Cancelled? {
      LateCapture(s, i, e.eventId, e.amount);
    } else {
      ConfirmingCapture(s, i, e.eventId, e.amount);
    }
  }

  lemma RecordBacking(env: Env, s: State, i: nat, amount: int, reference: Option<nat>, mark: bool)
    requires i < |s.orders| && RefundIsRecorded(s, i, amount, reference)
    ensures RecordRefund(env, s, i, amount, reference, mark).orders[i].restored
  {
    RecordShape(env, s, i, amount, reference, mark);
  }

  lemma GatewayRecordBacking(env: Env, s: State, i: nat, amount: int, reference: Option<nat>)
    requires Books(s) && i < |s.orders| && GivenBack(s.orders[i]) && !Unbacked(s.orders[i])
    ensures var o, r := s.orders[i], RecordRefund(env, s, i, amount, reference, false).orders[i];
      && GivenBack(r)
      && (Unbacked(r) <==> IsLive(o) && 0 < amount < Refundable(o) && !ReferenceKnown(s.ledger, reference))
  {
    if RefundIsRecorded(s, i, amount, reference) {
      WholeRefund(env, s, i, amount, reference);
      RecordBacking(env, s, i, amount, reference, false);
    }
  }

  lemma SettlingKeepsBacking(o: Order, status: GatewayStatus)
    requires o.payment.Some?
    ensures var r := Settle(o, status); (GivenBack(r) <==> GivenBack(o)) && (Unbacked(r) <==> Unbacked(o))
  {
  }

  lemma RefundBacking(env: Env, s: State, e: Event, i: nat)
    requires Books(s) && e.GatewayRefund? && e.order == i < |s.orders| && s.orders[i].payment.Some?
    requires GivenBack(s.orders[i]) && !Unbacked(s.orders[i])
    ensures BackingStep(s, e, i, MarkRefunded(env, s, i, e.eventId, e.amount, e.reference).orders[i])
  {
    var o := s.orders[i];
    if !Seen(s, e.eventId) && !o.payment.value.status.Returned? {
      var amount := if e.amount.Some? then e.amount.value else Refundable(o);
      var r := RecordRefund(env, s, i, amount, e.reference, false).orders[i];
      RefundShape(env, s, i, e.eventId, e.amount, e.reference);
      GatewayRecordBacking(env, s, i, amount, e.reference);
      SettlingKeepsBacking(r, if FullyRefunded(r) then Returned else o.payment.value.status);
    }
  }

  lemma SavedBacking(o: Order, e: Event)
    requires e.Edit? && ApplyPayment(o, e.payStatus, e.codPaid).Some?
    ensures var r := SavedOrder(o, e);
      && r.restored == (o.restored || Cancelling(o, e))
      && r.status == if e.status.Some? then e.status.value else o.status
  {
    AppliedFrame(o, e.payStatus, e.codPaid);
  }

  lemma EditBacking(env: Env, s: State, e: Event)
    requires e.Edit? && e.order < |s.orders| && GivenBack(s.orders[e.order]) && !Unbacked(s.orders[e.order])
    ensures BackingStep(s, e, e.order, EditOrder(env, s, e).orders[e.order])
  {
    var i, o := e.order, s.orders[e.order];
    if EditIsAccepted(o, e) {
      SavedFrame(env, s, e);
      SavedBacking(o, e);
      if RecordsRefund(o, e) {
        var amount := if e.refund.Some? then e.refund.value else Refundable(o);
        SavedInvoice(o, e);
        MarkedRow(env, SavedEdit(env, s, e), i, amount);
        RecordBacking(env, SavedEdit(env, s, e), i, amount, None, true);
      }
    }
  }

  lemma ClosingBacking(env: Env, s: State, e: Event, i: nat)
    requires (e.Cancel? || e.Abandon?) && e.order == i < |s.orders|
    requires GivenBack(s.orders[i]) && !Unbacked(s.orders[i])
    ensures BackingStep(s, e, i, Step(env, s, e).orders[i])
  {
    RestoreFrame(env, s, i);
  }

  lemma OpeningBacking(env: Env, s: State, e: Event, i: nat)
    requires e.StartPayment? && e.order == i < |s.orders| && GivenBack(s.orders[i]) && !Unbacked(s.orders[i])
    ensures BackingStep(s, e, i, BeginPayment(s, i).orders[i])
  {
  }

  lemma FailBacking(s: State, e: Event, i: nat)
    requires e.Fail? && e.order == i && Found(s, i, e.session) && GivenBack(s.orders[i]) && !Unbacked(s.orders[i])
    ensures BackingStep(s, e, i, MarkFailed(s, i, e.eventId).orders[i])
  {
    FailShape(s, i, e.eventId);
    SettlingKeepsBacking(s.orders[i], Failed);
  }

  lemma TargetBacking(env: Env, s: State, e: Event, i: nat)
    requires Books(s) && !e.FillCart? && !e.PlaceOrder? && !e.EditRecipe? && Target(e) == i < |s.orders|
    requires GivenBack(s.orders[i]) && !Unbacked(s.orders[i])
    ensures BackingStep(s, e, i, Step(env, s, e).orders[i])
  {
    if e.Capture? {
      if Found(s, i, e.session) { CaptureBacking(s, e, i); }
    } else if e.GatewayRefund? {
      if s.orders[i].payment.Some? { RefundBacking(env, s, e, i); }
    } else if e.Edit? {
      EditBacking(env, s, e);
    } else if e.Cancel? || e.Abandon? {
      ClosingBacking(env, s, e, i);
    } else if e.StartPayment? {
      OpeningBacking(env, s, e, i);
    } else {
      if Found(s, i, e.session) { FailBacking(s, e, i); }
    }
  }

  /** A backed order becomes a live order without stock exactly by one of three requests: an admin edit that
      moves it from cancelled or refunded to another status, an accepted capture on a refunded order, or a
      recorded partial gateway refund of a live one. */
  lemma UnbackedExactly(env: Env, s: State, e: Event, i: nat)
    requires Books(s) && i < |s.orders| && GivenBack(s.orders[i]) && !Unbacked(s.orders[i])
    ensures i < |Step(env, s, e).orders|
    ensures GivenBack(Step(env, s, e).orders[i])
    ensures Unbacked(Step(env, s, e).orders[i]) <==> Unbacks(s, e, i)
  {
    if e.PlaceOrder? {
      if Accepts(env, s, e) { CommitRows(env, s, e, Commit(env, s, e)); }
    } else if !e.FillCart? && !e.EditRecipe? && Target(e) < |s.orders| {
      StepTouches(env, s, e);
      if Target(e) == i {
        TargetBacking(env, s, e, i);
      }
    }
  }

  // ----- Cancelled and refunded orders have given their stock back -----

  /** A restock is never undone, so an order that was unbacked stays given back whatever happens. */
  lemma RestoredStays(env: Env, s: State, e: Event, i: nat)
    requires i < |s.orders| && s.orders[i].restored
    ensures i < |Step(env, s, e).orders| && Step(env, s, e).orders[i].restored
  {
    if e.PlaceOrder? {
      if Accepts(env, s, e) { CommitRows(env, s, e, Commit(env, s, e)); }
    } else if e.GatewayRefund? {
      if e.order < |s.orders| && s.orders[e.order].payment.Some? {
        RefundKeepsRestored(env, s, e.order, e.eventId, e.amount, e.reference, i);
      }
    } else if e.Edit? {
      if e.order < |s.orders| { EditKeepsRestored(env, s, e, i); }
    } else if e.Cancel? || e.Abandon? {
      if e.order < |s.orders| { RestoreFrame(env, s, e.order); }
    } else if !e.EditRecipe? {
      PaymentStepGoods(env, s, e);
    }
  }

  lemma RefundKeepsRestored(env: Env, s: State, j: nat, id: Option<nat>, amount: Option<int>, reference: Option<nat>,
                            i: nat)
    requires j < |s.orders| && s.orders[j].payment.Some? && i < |s.orders| && s.orders[i].restored
    ensures MarkRefunded(env, s, j, id, amount, reference).orders[i].restored
  {
    if !Seen(s, id) && !s.orders[j].payment.value.status.Returned? {
      RefundShape(env, s, j, id, amount, reference);
      RecordKeepsRestored(env, s, j, if amount.Some? then amount.value else Refundable(s.orders[j]), reference, false,
                          i);
    }
  }

  lemma RecordKeepsRestored(env: Env, s: State, j: nat, amount: int, reference: Option<nat>, mark: bool, i: nat)
    requires j < |s.orders| && i < |s.orders| && s.orders[i].restored
    ensures RecordRefund(env, s, j, amount, reference, mark).orders[i].restored
  {
    if RefundIsRecorded(s, j, amount, reference) {
      RecordShape(env, s, j, amount, reference, mark);
    }
  }

  lemma EditKeepsRestored(env: Env, s: State, e: Event, i: nat)
    requires e.Edit? && e.order < |s.orders| && i < |s.orders| && s.orders[i].restored
    ensures EditOrder(env, s, e).orders[i].restored
  {
    var o := s.orders[e.order];
    if EditIsAccepted(o, e) {
      SavedFrame(env, s, e);
      SavedBacking(o, e);
      if RecordsRefund(o, e) {
        var amount := if e.refund.Some? then e.refund.value else Refundable(o);
        RecordKeepsRestored(env, SavedEdit(env, s, e), e.order, amount, None, true, i);
      }
    }
  }

  lemma StepGivesBack(env: Env, s: State, e: Event)
    requires Books(s) && AllGivenBack(s.orders)
    ensures AllGivenBack(Step(env, s, e).orders)
  {
    var t := Step(env, s, e);
    forall i | 0 <= i < |t.orders| ensures GivenBack(t.orders[i]) {
      if i >= |s.orders| {
        NewOrderIsLive(env, s, e, i);
      } else if s.orders[i].restored {
        RestoredStays(env, s, e, i);
      } else {
        UnbackedExactly(env, s, e, i);
      }
    }
  }

  lemma NewOrderIsLive(env: Env, s: State, e: Event, i: nat)
    requires |s.orders| <= i < |Step(env, s, e).orders|
    ensures IsLive(Step(env, s, e).orders[i]) && !Step(env, s, e).orders[i].restored
  {
    if e.PlaceOrder? {
      CommitShape(env, s, e, Supersede(env, s, e.user, |s.orders|), Commit(env, s, e));
    } else {
      OtherStepsAppendNothing(env, s, e);
    }
  }

  /** In every run a cancelled or refunded order has given its stock back. */
  lemma {:induction false} EndedOrdersGaveBack(env: Env, s: State, es: seq<Event>)
    requires Opening(s)
    ensures AllGivenBack(Run(env, s, es).orders)
  {
    if es != [] {
      EndedOrdersGaveBack(env, s, es[..|es| - 1]);
      RunKeepsBooks(env, s, es[..|es| - 1]);
      StepGivesBack(env, Run(env, s, es[..|es| - 1]), es[|es| - 1]);
    }
  }

  // ----- Overselling -----

  /** Units of a size that live orders bought. */
  function LiveUnits(orders: seq<Order>, v: nat): nat {
    if orders == [] then 0
    else
      var last := orders[|orders| - 1];
      LiveUnits(orders[..|orders| - 1], v) + if IsLive(last) then VariantUnits(last.draws, v) else 0
  }

  /** Units of a size that unbacked orders bought. */
  function UnbackedUnits(orders: seq<Order>, v: nat): nat {
    if orders == [] then 0
    else
      var last := orders[|orders| - 1];
      UnbackedUnits(orders[..|orders| - 1], v) + if Unbacked(last) then VariantUnits(last.draws, v) else 0
  }

  lemma {:induction false} LiveUnitsAre(env: Env, orders: seq<Order>, v: nat)
    requires AllGivenBack(orders)
    ensures LiveUnits(orders, v) == Held(env, orders, Size(v)) + UnbackedUnits(orders, v)
  {
    if orders != [] {
      LiveUnitsAre(env, orders[..|orders| - 1], v);
    }
  }

  predicate AllBacked(orders: seq<Order>) {
    forall i :: 0 <= i < |orders| ==> !Unbacked(orders[i])
  }

  lemma {:induction false} NoneUnbacked(orders: seq<Order>, v: nat)
    requires AllBacked(orders)
    ensures UnbackedUnits(orders, v) == 0
  {
    if orders != [] {
      NoneUnbacked(orders[..|orders| - 1], v);
    }
  }

  /** Over every traceable run, what live orders bought of a size plus its stock passes what the shop opened
      with by exactly what unbacked orders bought: the size is oversold exactly when one of those bought any. */
  lemma OversoldExactly(env: Env, s: State, es: seq<Event>, v: nat)
    requires Opening(s) && RunTraces(env, s, es) && v in s.stock
    ensures var t := Run(env, s, es);
      && v in t.stock
      && t.stock[v] + LiveUnits(t.orders, v) == s.stock[v] + UnbackedUnits(t.orders, v)
      && (t.stock[v] + LiveUnits(t.orders, v) > s.stock[v] <==> UnbackedUnits(t.orders, v) > 0)
  {
    var t := Run(env, s, es);
    StockConserved(env, s, es);
    assert Known(s, Size(v)) && Balanced(env, s, t, Size(v));
    EndedOrdersGaveBack(env, s, es);
    LiveUnitsAre(env, t.orders, v);
  }

  /** No request of the run takes the stock from under a live order. */
  predicate RunBacks(env: Env, s: State, es: seq<Event>) {
    es == [] ||
    (var n := |es| - 1;
     && RunBacks(env, s, es[..n])
     && forall i :: 0 <= i < |Run(env, s, es[..n]).orders| ==> !Unbacks(Run(env, s, es[..n]), es[n], i))
  }

  lemma {:induction false} BackedRun(env: Env, s: State, es: seq<Event>)
    requires Opening(s) && RunBacks(env, s, es)
    ensures AllBacked(Run(env, s, es).orders)
  {
    if es != [] {
      var n := |es| - 1;
      var u, t := Run(env, s, es[..n]), Run(env, s, es);
      BackedRun(env, s, es[..n]);
      RunKeepsBooks(env, s, es[..n]);
      EndedOrdersGaveBack(env, s, es[..n]);
      forall i | 0 <= i < |t.orders| ensures !Unbacked(t.orders[i]) {
        if i < |u.orders| {
          UnbackedExactly(env, u, es[n], i);
        } else {
          NewOrderIsLive(env, u, es[n], i);
        }
      }
    }
  }

  /** Over every traceable run without such a request no size is oversold: what live orders bought plus the
      stock is what the shop opened with. */
  lemma NeverOversold(env: Env, s: State, es: seq<Event>, v: nat)
    requires Opening(s) && RunTraces(env, s, es) && RunBacks(env, s, es) && v in s.stock
    ensures var t := Run(env, s, es); v in t.stock && t.stock[v] + LiveUnits(t.orders, v) == s.stock[v]
  {
    OversoldExactly(env, s, es, v);
    BackedRun(env, s, es);
    NoneUnbacked(Run(env, s, es).orders, v);
  }

  // ----- Such a run -----

  /** Cancelling an order and moving it back by an edit. */
  function ReviveRun(e: Event): seq<Event>
    requires e.PlaceOrder?
  {
    [e, Cancel(0, false), Edit(0, Some(Processing), None, None, None), FillCart(e.user)]
  }

  lemma RunOfFour(env: Env, s: State, a: Event, b: Event, c: Event, d: Event)
    ensures Run(env, s, [a, b, c, d]) == Step(env, Run(env, s, [a, b, c]), d)
  {
    RunExtends(env, s, [a, b, c], d);
    assert [a, b, c] + [d] == [a, b, c, d];
  }

  lemma TracesOfFour(env: Env, s: State, a: Event, b: Event, c: Event, d: Event)
    requires StepTraces(env, s, a)
    requires !b.PlaceOrder? && !b.EditRecipe? && !c.PlaceOrder? && !c.EditRecipe? && !d.PlaceOrder? && !d.EditRecipe?
    ensures RunTraces(env, s, [a, b, c, d])
  {
    assert [a, b, c, d][..3] == [a, b, c] && [a, b, c][..2] == [a, b] && [a, b][..1] == [a] && [a][..0] == [];
    assert RunTraces(env, s, []);
    assert RunTraces(env, s, [a]);
    assert RunTraces(env, s, [a, b]);
    assert RunTraces(env, s, [a, b, c]);
  }

  /** A cash checkout without a coupon that an empty shop accepts and whose compositions are up to date. */
  predicate CashCheckout(env: Env, s: State, e: Event) {
    e.PlaceOrder? && Accepts(env, s, e) && e.payBy.COD? && e.coupon.None?
  }

  lemma CashOrder(env: Env, s: State, e: Event)
    requires Opening(s) && CashCheckout(env, s, e)
    ensures var a := Commit(env, s, e);
      && a.orders == [PlacedOrder(env, e)] && a.recipes == s.recipes
      && a.orders[0].status.Pending? && a.orders[0].payStatus.Unpaid? && a.orders[0].payment.None?
      && a.orders[0].payBy.COD? && !a.orders[0].invoiced && a.orders[0].draws == CartDraws(e.cart)
  {
    CommitShape(env, s, e, Supersede(env, s, e.user, |s.orders|), Commit(env, s, e));
    PlacedOrderGoods(env, e);
  }

  lemma CashCancelled(env: Env, a: State)
    requires |a.orders| == 1 && !a.orders[0].restored && a.orders[0].status.Pending? && a.orders[0].payment.None?
    requires a.orders[0].payStatus.Unpaid? && !a.orders[0].invoiced
    ensures var o, b := a.orders[0], Step(env, a, Cancel(0, false));
      b.orders == [o.(restored := true, restocks := o.restocks + 1, status := Cancelled)] && b.recipes == a.recipes
  {
    RestoreFrame(env, a, 0);
  }

  lemma CashRevived(env: Env, b: State)
    requires |b.orders| == 1 && b.orders[0].status.Cancelled? && b.orders[0].payStatus.Unpaid?
    ensures var c := Step(env, b, Edit(0, Some(Processing), None, None, None));
      c.orders == [b.orders[0].(status := Processing)] && c.recipes == b.recipes
  {
    var e := Edit(0, Some(Processing), None, None, None);
    assert EditIsAccepted(b.orders[0], e) && !RecordsRefund(b.orders[0], e) && !Cancelling(b.orders[0], e);
  }

  lemma ReviveRunOrders(env: Env, s: State, e: Event)
    requires Opening(s) && CashCheckout(env, s, e)
    ensures var d := Run(env, s, ReviveRun(e));
      && |d.orders| == 1 && d.recipes == s.recipes && d.carts == Run(env, s, ReviveRun(e)[..3]).carts + {e.user}
      && d.orders[0].draws == CartDraws(e.cart) && d.orders[0].status.Processing? && d.orders[0].restored
      && d.orders[0].payBy.COD?
  {
    var es := ReviveRun(e);
    RunOfFour(env, s, es[0], es[1], es[2], es[3]);
    RunOfThree(env, s, es[0], es[1], es[2]);
    assert es == [es[0], es[1], es[2], es[3]] && es[..3] == [es[0], es[1], es[2]];
    var a := Commit(env, s, e);
    CashOrder(env, s, e);
    CashCancelled(env, a);
    CashRevived(env, Step(env, a, es[1]));
  }

  lemma ReviveRunTraces(env: Env, s: State, e: Event)
    requires Opening(s) && CashCheckout(env, s, e) && TracesCart(env, s, e)
    ensures RunTraces(env, s, ReviveRun(e))
  {
    var es := ReviveRun(e);
    TracesOfFour(env, s, es[0], es[1], es[2], es[3]);
    assert es == [es[0], es[1], es[2], es[3]];
  }

  lemma NothingStale(env: Env, s: State, user: nat)
    requires |s.orders| <= 1 && (|s.orders| == 1 ==> !IsStale(s.orders[0], user))
    ensures Supersede(env, s, user, |s.orders|) == s
  {
    assert Supersede(env, s, user, 0) == s;
  }

  /** The shelf is as full after the run as before it. */
  lemma ReviveRunShelf(env: Env, s: State, e: Event)
    requires Opening(s) && CashCheckout(env, s, e) && TracesCart(env, s, e)
    ensures var d := Run(env, s, ReviveRun(e));
      && d.stock == s.stock && d.products.Keys == s.products.Keys
      && forall p :: p in s.products ==> d.products[p] >= s.products[p]
  {
    var d := Run(env, s, ReviveRun(e));
    ReviveRunTraces(env, s, e);
    ReviveRunOrders(env, s, e);
    StockConserved(env, s, ReviveRun(e));
    forall v | v in s.stock ensures v in d.stock && d.stock[v] == s.stock[v] {
      assert Known(s, Size(v)) && Balanced(env, s, d, Size(v));
      HeldByOne(env, d.orders, Size(v));
    }
    forall p | p in s.products ensures p in d.products && d.products[p] >= s.products[p] {
      assert Known(s, Display(p)) && Balanced(env, s, d, Display(p));
      HeldByOne(env, d.orders, Display(p));
    }
  }

  lemma SecondSaleAccepted(env: Env, s: State, e: Event)
    requires Opening(s) && CashCheckout(env, s, e) && TracesCart(env, s, e)
    ensures Accepts(env, Run(env, s, ReviveRun(e)), e)
  {
    var d := Run(env, s, ReviveRun(e));
    ReviveRunOrders(env, s, e);
    ReviveRunShelf(env, s, e);
    NothingStale(env, s, e.user);
    NothingStale(env, d, e.user);
  }

  lemma LiveUnitsOfTwo(orders: seq<Order>, v: nat, units: nat)
    requires |orders| == 2 && forall i :: 0 <= i < 2 ==> IsLive(orders[i]) && VariantUnits(orders[i].draws, v) == units
    ensures LiveUnits(orders, v) == 2 * units
  {
    assert orders[..1][..0] == [];
    assert LiveUnits(orders[..1], v) == units;
  }

  /** From any shop without orders, the units of any accepted cash checkout can be sold twice: the customer
      cancels, an admin moves the order back to processing, and the same checkout is accepted again. Both
      orders are live, and each size has lost its units once. */
  lemma RevivedOrderIsSoldTwice(env: Env, s: State, e: Event, v: nat)
    requires Opening(s) && CashCheckout(env, s, e) && TracesCart(env, s, e) && v in s.stock
    ensures var d := Run(env, s, ReviveRun(e));
      && Accepts(env, d, e)
      && (var t := Commit(env, d, e);
          var units := VariantUnits(CartDraws(e.cart), v);
          && |t.orders| == 2 && IsLive(t.orders[0]) && IsLive(t.orders[1]) && LiveUnits(t.orders, v) == 2 * units
          && v in t.stock && t.stock[v] == s.stock[v] - units)
  {
    var d := Run(env, s, ReviveRun(e));
    SecondSaleAccepted(env, s, e);
    ReviveRunOrders(env, s, e);
    ReviveRunShelf(env, s, e);
    NothingStale(env, d, e.user);
    SecondSale(env, d, e, v);
  }

  lemma SecondSale(env: Env, d: State, e: Event, v: nat)
    requires CashCheckout(env, d, e) && |d.orders| == 1 && IsLive(d.orders[0]) && v in d.stock
    requires d.orders[0].draws == CartDraws(e.cart) && Supersede(env, d, e.user, |d.orders|) == d
    ensures var t, units := Commit(env, d, e), VariantUnits(CartDraws(e.cart), v);
      && |t.orders| == 2 && IsLive(t.orders[0]) && IsLive(t.orders[1]) && LiveUnits(t.orders, v) == 2 * units
      && v in t.stock && t.stock[v] == d.stock[v] - units
  {
    var t := Commit(env, d, e);
    CommitShape(env, d, e, d, t);
    PlacedOrderGoods(env, e);
    assert IsLive(PlacedOrder(env, e));
    LiveUnitsOfTwo(t.orders, v, VariantUnits(CartDraws(e.cart), v));
  }

  /** A concrete one: five packs on the shelf, ten sold. */
  lemma FivePacksSoldTwice(env: Env)
    ensures var s := State([], [], {}, [], map[0 := 5], map[], map[], map[], {0});
      var e := Event.PlaceOrder(0, COD, [ProductLine(0, Some(0), 100, 5, 0, "")], None, 0);
      var d := Run(env, s, ReviveRun(e));
      Accepts(env, d, e) && LiveUnits(Commit(env, d, e).orders, 0) == 10 && 0 in Commit(env, d, e).stock
      && Commit(env, d, e).stock[0] == 0
  {
    var s := State([], [], {}, [], map[0 := 5], map[], map[], map[], {0});
    var line := ProductLine(0, Some(0), 100, 5, 0, "");
    var e := Event.PlaceOrder(0, COD, [line], None, 0);
    FivePacks(line, s);
    FivePacksAccepted(env, s, e, line);
    RevivedOrderIsSoldTwice(env, s, e, 0);
  }

  lemma FivePacksAccepted(env: Env, s: State, e: Event, line: CartLine)
    requires s.orders == [] && 0 in s.carts && e == Event.PlaceOrder(0, COD, [line], None, 0) && line.ProductLine?
    requires CanDraw(s, CartDraws([line]))
    ensures CashCheckout(env, s, e) && TracesCart(env, s, e)
  {
    NothingStale(env, s, 0);
  }

  lemma FivePacks(line: CartLine, s: State)
    requires line == ProductLine(0, Some(0), 100, 5, 0, "") && s.stock == map[0 := 5] && s.products == map[]
    ensures VariantUnits(CartDraws([line]), 0) == 5 && CanDraw(s, CartDraws([line]))
  {
    var ds := CartDraws([line]);
    assert [line][..0] == [];
    assert ds == [VariantDraw(0, 5)] && ds[..0] == [];
  }
}
