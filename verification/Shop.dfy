/** The shared rows of the shop and its requests, each an atomic step: checkout with its supersede,
    payment events, cancellations, admin edits and refunds. A failed request leaves the state as it was. */
module Shop {
  import opened Money
  import opened Orders
  import opened Pricing
  import opened TaxBreakdown
  import opened Checkout
  import opened Coupons

  datatype Status = Pending | Confirmed | Processing | Shipped | Delivering | Delivered | Cancelled | Refunded

  datatype PayStatus = Unpaid | InProcess | Paid | Declined | Rejected | PaidBack

  datatype Method = COD | Online | Razorpay

  datatype GatewayStatus = Awaiting | Completed | Failed | Returned

  /** The gateway payment of an order. `session` counts the gateway orders minted for it. As history over all
      its sessions, `confirmed` counts the confirmations sent and `reopened` the sessions opened when the
      payment was already settled. */
  datatype Payment = Payment(amount: int, status: GatewayStatus, session: nat, confirmed: nat, reopened: nat)

  /** Units taken from, or given back to, a variant or a variant-less product. */
  datatype Draw = VariantDraw(variant: nat, units: nat) | ProductDraw(product: nat, units: nat)

  datatype Reason = ForRefund | ForCancellation

  datatype Note = Note(reason: Reason, amount: int, tax: int)

  /** An order row with its payment, invoice mark and credit notes. `draws` and `restocks` are history:
      what checkout took from stock, and how often it was given back. */
  datatype Order = Order(
    user: nat,
    payBy: Method,
    bill: Bill,
    status: Status,
    payStatus: PayStatus,
    codPaid: bool,
    payment: Option<Payment>,
    refundedAmount: int,
    refundedTax: int,
    restored: bool,
    invoiced: bool,
    notes: seq<Note>,
    draws: seq<Draw>,
    restocks: nat)

  datatype RefundRow = RefundRow(order: nat, amount: int, tax: int, reference: Option<nat>)

  datatype AuditKind =
    | OrderCreated | DuplicateIgnored | AmountMismatch | CapturedAfterCancel | Captured
    | OutOfOrderIgnored | PaymentFailed | PaymentRefunded | AutoCancelled

  datatype Audit = Audit(
    order: nat, kind: AuditKind, fromStatus: Option<GatewayStatus>, toStatus: Option<GatewayStatus>, alert: bool)

  datatype State = State(
    orders: seq<Order>,
    ledger: seq<RefundRow>,
    processed: set<nat>,
    audit: seq<Audit>,
    stock: map<nat, nat>,
    products: map<nat, nat>,
    recipes: map<nat, seq<RecipeRow>>,
    coupons: map<nat, Coupon>,
    carts: set<nat>)

  /** Pricing settings, and the product whose display stock mirrors each default variant. */
  datatype Env = Env(policy: Policy, mirrorOf: map<nat, nat>)

  datatype Event =
    | FillCart(user: nat)
    | PlaceOrder(user: nat, payBy: Method, cart: seq<CartLine>, coupon: Option<(nat, Coupon)>, now: int)
    | StartPayment(order: nat)
    | Capture(order: nat, session: nat, eventId: Option<nat>, amount: Option<int>)
    | Fail(order: nat, session: nat, eventId: Option<nat>)
    | GatewayRefund(order: nat, eventId: Option<nat>, amount: Option<int>, reference: Option<nat>)
    | Cancel(order: nat, staff: bool)
    | Abandon(order: nat)
    | Edit(order: nat, status: Option<Status>, payStatus: Option<PayStatus>, codPaid: Option<bool>, refund: Option<int>)
    | EditRecipe(combo: nat, recipe: seq<RecipeRow>)

  // ----- Stock -----

  function RecipeDraws(recipe: seq<RecipeRow>, quantity: nat): (d: seq<Draw>)
    ensures |d| == |recipe|
  {
    seq(|recipe|, i requires 0 <= i < |recipe| => VariantDraw(recipe[i].variant, recipe[i].perCombo * quantity))
  }

  function ComponentDraws(rows: seq<Component>): (d: seq<Draw>)
    ensures |d| == |rows|
  {
    seq(|rows|, i requires 0 <= i < |rows| => VariantDraw(rows[i].variant, rows[i].units))
  }

  /** What one cart line takes from inventory. */
  function LineDraws(line: CartLine): seq<Draw> {
    match line
    case ProductLine(p, v, _, q, _, _) => [if v.Some? then VariantDraw(v.value, q) else ProductDraw(p, q)]
    case ComboLine(_, _, q, recipe, _) => RecipeDraws(recipe, q)
  }

  function CartDraws(cart: seq<CartLine>): seq<Draw> {
    if cart == [] then [] else CartDraws(cart[..|cart| - 1]) + LineDraws(cart[|cart| - 1])
  }

  function LiveRecipe(recipes: map<nat, seq<RecipeRow>>, combo: nat): seq<RecipeRow> {
    if combo in recipes then recipes[combo] else []
  }

  /** What restocking gives back for one order line: a combo's snapshot, or, without one, the live recipe. */
  function ItemRestores(item: OrderItem, recipes: map<nat, seq<RecipeRow>>): seq<Draw> {
    match item.bought
    case BoughtVariant(_, v) => [VariantDraw(v, item.quantity)]
    case BoughtProduct(p) => [ProductDraw(p, item.quantity)]
    case BoughtCombo(c) =>
      if item.components != [] then ComponentDraws(item.components)
      else RecipeDraws(LiveRecipe(recipes, c), item.quantity)
  }

  function Restores(items: seq<OrderItem>, recipes: map<nat, seq<RecipeRow>>): seq<Draw> {
    if items == [] then [] else Restores(items[..|items| - 1], recipes) + ItemRestores(items[|items| - 1], recipes)
  }

  function UnitsOfVariant(d: Draw, v: nat): nat {
    if d.VariantDraw? && d.variant == v then d.units else 0
  }

  function HardUnitsOf(d: Draw, p: nat): nat {
    if d.ProductDraw? && d.product == p then d.units else 0
  }

  function MirrorUnitsOf(d: Draw, p: nat, mirrorOf: map<nat, nat>): nat {
    if d.VariantDraw? && d.variant in mirrorOf && mirrorOf[d.variant] == p then d.units else 0
  }

  function VariantUnits(ds: seq<Draw>, v: nat): nat {
    if ds == [] then 0 else VariantUnits(ds[..|ds| - 1], v) + UnitsOfVariant(ds[|ds| - 1], v)
  }

  function HardUnits(ds: seq<Draw>, p: nat): nat {
    if ds == [] then 0 else HardUnits(ds[..|ds| - 1], p) + HardUnitsOf(ds[|ds| - 1], p)
  }

  function MirrorUnits(ds: seq<Draw>, p: nat, mirrorOf: map<nat, nat>): nat {
    if ds == [] then 0 else MirrorUnits(ds[..|ds| - 1], p, mirrorOf) + MirrorUnitsOf(ds[|ds| - 1], p, mirrorOf)
  }

  /** A draw is possible when no variant and no variant-less product would go below zero. */
  predicate CanDraw(s: State, ds: seq<Draw>) {
    && (forall v :: v in s.stock ==> VariantUnits(ds, v) <= s.stock[v])
    && (forall p :: p in s.products ==> HardUnits(ds, p) <= s.products[p])
  }

  /** Takes the units; the display mirror is clamped at zero. */
  function TakeStock(env: Env, s: State, ds: seq<Draw>): State
    requires CanDraw(s, ds)
  {
    s.(stock := map v | v in s.stock :: s.stock[v] - VariantUnits(ds, v),
       products := map p | p in s.products ::
         Max(0, s.products[p] - HardUnits(ds, p) - MirrorUnits(ds, p, env.mirrorOf)))
  }

  function Put(s: State, i: nat, o: Order): State
    requires i < |s.orders|
  {
    s.(orders := s.orders[i := o])
  }

  /** Gives an order's stock back, once. */
  function RestoreStock(env: Env, s: State, i: nat): (t: State)
    requires i < |s.orders|
    ensures |t.orders| == |s.orders|
  {
    var o := s.orders[i];
    if o.restored then s
    else
      var ds := Restores(o.bill.items, s.recipes);
      Put(s, i, o.(restored := true, restocks := o.restocks + 1)).(
        stock := map v | v in s.stock :: s.stock[v] + VariantUnits(ds, v),
        products := map p | p in s.products :: s.products[p] + HardUnits(ds, p) + MirrorUnits(ds, p, env.mirrorOf))
  }

  // ----- Documents -----

  predicate Dispatched(status: Status) {
    status.Shipped? || status.Delivering? || status.Delivered?
  }

  predicate MoneyReceived(p: PayStatus) {
    p.Paid? || p.PaidBack?
  }

  predicate InvoiceIsDue(o: Order) {
    !o.status.Cancelled? && !o.invoiced && (MoneyReceived(o.payStatus) || Dispatched(o.status))
  }

  function MaybeInvoice(o: Order): Order {
    if InvoiceIsDue(o) then o.(invoiced := true) else o
  }

  function NotesAmount(notes: seq<Note>): int {
    if notes == [] then 0 else NotesAmount(notes[..|notes| - 1]) + notes[|notes| - 1].amount
  }

  function NotesTax(notes: seq<Note>): int {
    if notes == [] then 0 else NotesTax(notes[..|notes| - 1]) + notes[|notes| - 1].tax
  }

  predicate HasCancellation(notes: seq<Note>) {
    exists i :: 0 <= i < |notes| && notes[i].reason.ForCancellation?
  }

  predicate CancellationNoteDue(o: Order) {
    && o.status.Cancelled? && o.invoiced && !MoneyReceived(o.payStatus)
    && !HasCancellation(o.notes) && o.bill.total - NotesAmount(o.notes) > 0
  }

  /** The note for cancelling an invoiced order while no money is held covers what earlier notes left. */
  function MaybeCancellationNote(o: Order): Order {
    if CancellationNoteDue(o) then
      o.(notes := o.notes + [Note(ForCancellation, o.bill.total - NotesAmount(o.notes),
                                  o.bill.TotalTax() - NotesTax(o.notes))])
    else o
  }

  // ----- Checkout -----

  predicate IsStale(o: Order, user: nat) {
    o.user == user && o.payBy.Online? && o.payStatus.Unpaid? && o.status.Pending?
  }

  /** Cancels and restocks an order nobody paid for. */
  function CloseUnpaid(env: Env, s: State, i: nat): (t: State)
    requires i < |s.orders|
    ensures |t.orders| == |s.orders|
  {
    var t := RestoreStock(env, s, i);
    Put(t, i, t.orders[i].(status := Cancelled, payStatus := Rejected))
  }

  function CloseIfStale(env: Env, s: State, i: nat, user: nat): (t: State)
    requires i < |s.orders|
    ensures |t.orders| == |s.orders|
  {
    if IsStale(s.orders[i], user) then CloseUnpaid(env, s, i) else s
  }

  /** Cancels and restocks the user's open unpaid online orders among the first n. */
  function Supersede(env: Env, s: State, user: nat, n: nat): (t: State)
    requires n <= |s.orders|
    ensures |t.orders| == |s.orders|
  {
    if n == 0 then s else CloseIfStale(env, Supersede(env, s, user, n - 1), n - 1, user)
  }

  function CouponRow(coupon: Option<(nat, Coupon)>): Option<Coupon> {
    if coupon.Some? then Some(coupon.value.1) else None
  }

  function NewOrder(user: nat, payBy: Method, bill: Bill, waived: bool, draws: seq<Draw>): Order {
    MaybeInvoice(Order(user, payBy, bill, if waived then Confirmed else Pending, if waived then Paid else Unpaid,
                       false, None, 0, 0, false, false, [], draws, 0))
  }

  /** The coupon under its row lock still admits one more use. */
  predicate CouponAdmits(s: State, coupon: Option<(nat, Coupon)>, subtotal: int, user: nat, now: int) {
    coupon.Some? ==>
      coupon.value.0 in s.coupons && InvalidReason(s.coupons[coupon.value.0], subtotal, user, now).None?
  }

  function UseCoupon(s: State, coupon: Option<(nat, Coupon)>): State
    requires coupon.Some? ==> coupon.value.0 in s.coupons
  {
    if coupon.None? then s
    else
      var c := s.coupons[coupon.value.0];
      s.(coupons := s.coupons[coupon.value.0 := c.(usageCount := c.usageCount + 1)])
  }

  /** The commit accepts the order: the cart still has items, stock covers it, the coupon still admits it. */
  predicate Accepts(env: Env, s: State, e: Event)
    requires e.PlaceOrder?
  {
    && e.user in s.carts
    && CanDraw(Supersede(env, s, e.user, |s.orders|), CartDraws(e.cart))
    && CouponAdmits(s, e.coupon, Subtotal(e.cart), e.user, e.now)
  }

  predicate WaivedBy(e: Event)
    requires e.PlaceOrder?
  {
    IsWaived(Subtotal(e.cart), CouponRow(e.coupon))
  }

  /** The order a checkout writes. */
  function PlacedOrder(env: Env, e: Event): Order
    requires e.PlaceOrder?
  {
    NewOrder(e.user, e.payBy, PriceCart(e.cart, CouponRow(e.coupon), env.policy), WaivedBy(e), CartDraws(e.cart))
  }

  function Commit(env: Env, s: State, e: Event): State
    requires e.PlaceOrder? && Accepts(env, s, e)
  {
    var t := Supersede(env, s, e.user, |s.orders|);
    var u := TakeStock(env, t, CartDraws(e.cart));
    SupersedeFrame(env, s, e.user, |s.orders|);
    var w := UseCoupon(u, e.coupon);
    w.(orders := w.orders + [PlacedOrder(env, e)],
       carts := if e.payBy.COD? || WaivedBy(e) then w.carts - {e.user} else w.carts)
  }

  lemma TakeStockFrame(env: Env, s: State, ds: seq<Draw>)
    requires CanDraw(s, ds)
    ensures var t := TakeStock(env, s, ds); t.(stock := s.stock, products := s.products) == s
  {
  }

  lemma UseCouponFrame(s: State, coupon: Option<(nat, Coupon)>)
    requires coupon.Some? ==> coupon.value.0 in s.coupons
    ensures UseCoupon(s, coupon).(coupons := s.coupons) == s
  {
  }

  lemma UsedCoupons(s: State, t: State, coupon: Option<(nat, Coupon)>)
    requires coupon.Some? ==> coupon.value.0 in s.coupons
    requires t.coupons == s.coupons
    ensures UseCoupon(t, coupon).coupons == UseCoupon(s, coupon).coupons
  {
  }

  lemma CommitShape(env: Env, s: State, e: Event, t: State, w: State)
    requires e.PlaceOrder? && Accepts(env, s, e) && t == Supersede(env, s, e.user, |s.orders|) && w == Commit(env, s, e)
    ensures w.orders == t.orders + [PlacedOrder(env, e)]
    ensures var u := TakeStock(env, t, CartDraws(e.cart)); w.stock == u.stock && w.products == u.products
    ensures w.recipes == t.recipes == s.recipes && w.audit == s.audit && w.ledger == s.ledger
    ensures w.coupons == UseCoupon(s, e.coupon).coupons && w.processed == s.processed
  {
    SupersedeFrame(env, s, e.user, |s.orders|);
    var u := TakeStock(env, t, CartDraws(e.cart));
    TakeStockFrame(env, t, CartDraws(e.cart));
    UseCouponFrame(u, e.coupon);
    UsedCoupons(s, u, e.coupon);
  }

  lemma PlacedOrderGoods(env: Env, e: Event)
    requires e.PlaceOrder?
    ensures var o := PlacedOrder(env, e);
      && !o.restored && o.draws == CartDraws(e.cart) && o.bill == PriceCart(e.cart, CouponRow(e.coupon), env.policy)
      && o.user == e.user && o.payment.None? && !o.status.Cancelled? && o.refundedAmount == 0 && o.refundedTax == 0
  {
  }

  /** Superseding touches orders and stock only. */
  lemma {:induction false} SupersedeFrame(env: Env, s: State, user: nat, n: nat)
    requires n <= |s.orders|
    ensures var t := Supersede(env, s, user, n);
      t.(orders := s.orders, stock := s.stock, products := s.products) == s
  {
    if n > 0 {
      SupersedeFrame(env, s, user, n - 1);
    }
  }

  // ----- Payment events -----

  function Processed(s: State, eventId: Option<nat>): State {
    if eventId.Some? then s.(processed := s.processed + {eventId.value}) else s
  }

  predicate Seen(s: State, eventId: Option<nat>) {
    eventId.Some? && eventId.value in s.processed
  }

  function Log(s: State, i: nat, kind: AuditKind, from: Option<GatewayStatus>, to: Option<GatewayStatus>,
               alert: bool): State {
    s.(audit := s.audit + [Audit(i, kind, from, to, alert)])
  }

  /** The order's payment is the one a gateway event of `session` is about. */
  predicate Found(s: State, i: nat, session: nat) {
    i < |s.orders| && s.orders[i].payment.Some? && s.orders[i].payment.value.session == session
  }

  function Settle(o: Order, status: GatewayStatus): Order
    requires o.payment.Some?
  {
    o.(payment := Some(o.payment.value.(status := status)))
  }

  function ConfirmedOrder(o: Order): Order
    requires o.payment.Some?
  {
    var p := o.payment.value;
    MaybeInvoice(o.(payment := Some(p.(status := Completed, confirmed := p.confirmed + 1)),
                    payStatus := Paid, status := Confirmed))
  }

  predicate Terminal(p: Payment) {
    p.status.Completed? || p.status.Returned?
  }

  /** A capture that leaves the order alone. */
  predicate CaptureIgnored(s: State, i: nat, id: Option<nat>, amount: Option<int>)
    requires i < |s.orders| && s.orders[i].payment.Some?
  {
    var p := s.orders[i].payment.value;
    Terminal(p) || Seen(s, id) || (amount.Some? && amount.value != p.amount)
  }

  function MarkCaptured(s: State, i: nat, eventId: Option<nat>, amount: Option<int>): (t: State)
    requires i < |s.orders| && s.orders[i].payment.Some?
    ensures |t.orders| == |s.orders|
  {
    var o := s.orders[i];
    var p := o.payment.value;
    if Terminal(p) then
      Log(Processed(s, eventId), i, DuplicateIgnored, None, None, false)
    else if Seen(s, eventId) then
      Log(s, i, DuplicateIgnored, None, None, false)
    else if amount.Some? && amount.value != p.amount then
      Processed(Log(s, i, AmountMismatch, None, None, true), eventId)
    else if o.status.Cancelled? then
      Processed(Log(Put(s, i, Settle(o, Completed)), i, CapturedAfterCancel, Some(Awaiting), Some(Completed), true),
                eventId)
    else
      Processed(Log(Put(s, i, ConfirmedOrder(o)).(carts := s.carts - {o.user}),
                    i, Captured, Some(p.status), Some(Completed), false), eventId)
  }

  /** Event ids are remembered whatever becomes of a capture. */
  predicate Remembers(s: State, t: State, eventId: Option<nat>) {
    t.processed == s.processed || (eventId.Some? && t.processed == s.processed + {eventId.value})
  }

  lemma IgnoredCapture(s: State, i: nat, eventId: Option<nat>, amount: Option<int>)
    requires i < |s.orders| && s.orders[i].payment.Some? && CaptureIgnored(s, i, eventId, amount)
    ensures var t := MarkCaptured(s, i, eventId, amount);
      t.orders == s.orders && t.carts == s.carts && Remembers(s, t, eventId)
  {
  }

  lemma LateCapture(s: State, i: nat, eventId: Option<nat>, amount: Option<int>)
    requires i < |s.orders| && s.orders[i].payment.Some? && !CaptureIgnored(s, i, eventId, amount)
    requires s.orders[i].status.Cancelled?
    ensures var t := MarkCaptured(s, i, eventId, amount);
      && t.orders == s.orders[i := Settle(s.orders[i], Completed)] && Remembers(s, t, eventId)
      && t.audit == s.audit + [Audit(i, CapturedAfterCancel, Some(Awaiting), Some(Completed), true)]
  {
  }

  lemma ConfirmingCapture(s: State, i: nat, eventId: Option<nat>, amount: Option<int>)
    requires i < |s.orders| && s.orders[i].payment.Some? && !CaptureIgnored(s, i, eventId, amount)
    requires !s.orders[i].status.Cancelled?
    ensures var t := MarkCaptured(s, i, eventId, amount);
      && t.orders == s.orders[i := ConfirmedOrder(s.orders[i])] && Remembers(s, t, eventId)
      && t.carts == s.carts - {s.orders[i].user}
  {
  }

  function MarkFailed(s: State, i: nat, eventId: Option<nat>): (t: State)
    requires i < |s.orders| && s.orders[i].payment.Some?
    ensures |t.orders| == |s.orders|
  {
    var o := s.orders[i];
    if Seen(s, eventId) then s
    else if !o.payment.value.status.Awaiting? then
      Processed(Log(s, i, OutOfOrderIgnored, None, None, false), eventId)
    else
      Processed(Log(Put(s, i, Settle(o, Failed).(payStatus := Declined)),
                    i, PaymentFailed, Some(Awaiting), Some(Failed), false), eventId)
  }

  lemma IgnoredFail(s: State, i: nat, eventId: Option<nat>)
    requires i < |s.orders| && s.orders[i].payment.Some?
    requires Seen(s, eventId) || !s.orders[i].payment.value.status.Awaiting?
    ensures MarkFailed(s, i, eventId).orders == s.orders
  {
  }

  lemma AppliedFail(s: State, i: nat, eventId: Option<nat>)
    requires i < |s.orders| && s.orders[i].payment.Some?
    requires !Seen(s, eventId) && s.orders[i].payment.value.status.Awaiting?
    ensures MarkFailed(s, i, eventId).orders == s.orders[i := Settle(s.orders[i], Failed).(payStatus := Declined)]
  {
  }

  /** A failure declines an order that was waiting, and changes no other row. */
  lemma FailShape(s: State, i: nat, eventId: Option<nat>)
    requires i < |s.orders| && s.orders[i].payment.Some?
    ensures var t, o := MarkFailed(s, i, eventId), s.orders[i];
      t.orders == if Seen(s, eventId) || !o.payment.value.status.Awaiting? then s.orders
                  else s.orders[i := Settle(o, Failed).(payStatus := Declined)]
  {
    if Seen(s, eventId) || !s.orders[i].payment.value.status.Awaiting? {
      IgnoredFail(s, i, eventId);
    } else {
      AppliedFail(s, i, eventId);
    }
  }

  /** What opening the gateway page checks first, on rows it has not locked. */
  predicate Payable(o: Order) {
    !o.status.Cancelled? && !o.payStatus.Paid? && o.bill.total > 0
  }

  function NextSession(o: Order): Payment {
    if o.payment.None? then Payment(o.bill.total, Awaiting, 0, 0, 0)
    else
      var p := o.payment.value;
      Payment(o.bill.total, Awaiting, p.session + 1, p.confirmed, p.reopened + if Terminal(p) then 1 else 0)
  }

  /** The locked part of opening the gateway page: reuse a live payment of the right amount, else start a
      new session. By now the earlier checks may be out of date, so nothing is assumed of them. */
  function BeginPayment(s: State, i: nat): (t: State)
    requires i < |s.orders|
    ensures |t.orders| == |s.orders|
  {
    var o := s.orders[i];
    if o.payment.Some? && o.payment.value.status.Awaiting? && o.payment.value.amount == o.bill.total then s
    else
      Log(Put(s, i, o.(payment := Some(NextSession(o)))), i, OrderCreated, None, Some(Awaiting), false)
  }

  /** Opening the page on a settled payment starts a new session. */
  lemma SessionOpened(t: State, i: nat)
    requires i < |t.orders| && t.orders[i].payment.Some? && Terminal(t.orders[i].payment.value)
    ensures BeginPayment(t, i).orders == t.orders[i := t.orders[i].(payment := Some(NextSession(t.orders[i])))]
  {
  }

  // ----- Refunds -----

  function LedgerAmount(ledger: seq<RefundRow>, i: nat): int {
    if ledger == [] then 0
    else
      var last := ledger[|ledger| - 1];
      LedgerAmount(ledger[..|ledger| - 1], i) + if last.order == i then last.amount else 0
  }

  function LedgerTax(ledger: seq<RefundRow>, i: nat): int {
    if ledger == [] then 0
    else
      var last := ledger[|ledger| - 1];
      LedgerTax(ledger[..|ledger| - 1], i) + if last.order == i then last.tax else 0
  }

  predicate ReferenceKnown(ledger: seq<RefundRow>, reference: Option<nat>) {
    reference.Some? && exists k :: 0 <= k < |ledger| && ledger[k].reference == reference
  }

  function Refundable(o: Order): int {
    o.bill.total - o.refundedAmount
  }

  predicate RefundIsRecorded(s: State, i: nat, amount: int, reference: Option<nat>)
    requires i < |s.orders|
  {
    amount > 0 && !ReferenceKnown(s.ledger, reference) && Refundable(s.orders[i]) > 0
  }

  predicate FullyRefunded(o: Order) {
    o.refundedAmount >= o.bill.total > 0
  }

  /** The order row after a ledger row of `amount` and `tax` was appended. */
  function RefundedOrder(o: Order, ledger: seq<RefundRow>, i: nat, mark: bool): Order {
    var r := o.(refundedAmount := LedgerAmount(ledger, i), refundedTax := LedgerTax(ledger, i));
    if FullyRefunded(r) || mark then r.(status := Refunded, payStatus := PaidBack) else r
  }

  function AddNote(o: Order, note: Note): Order {
    if o.invoiced then o.(notes := o.notes + [note]) else o
  }

  /** The single write path of the refund ledger. */
  function RecordRefund(env: Env, s: State, i: nat, amount: int, reference: Option<nat>, mark: bool): (t: State)
    requires i < |s.orders|
    ensures |t.orders| == |s.orders|
  {
    if !RefundIsRecorded(s, i, amount, reference) then s
    else
      var o := s.orders[i];
      var given := Min(amount, Refundable(o));
      var tax := RefundTaxFor(o.bill, o.refundedTax, given);
      var ledger := s.ledger + [RefundRow(i, given, tax, reference)];
      var t := RestoreStock(env, Put(s, i, RefundedOrder(o, ledger, i, mark)).(ledger := ledger), i);
      Put(t, i, AddNote(t.orders[i], Note(ForRefund, given, tax)))
  }

  /** The payment of a refunded order is returned once the whole order is. */
  function SettledRefund(u: State, i: nat, from: GatewayStatus): (t: State)
    requires i < |u.orders| && u.orders[i].payment.Some?
    ensures |t.orders| == |u.orders|
  {
    var after := if FullyRefunded(u.orders[i]) then Returned else from;
    Log(Put(u, i, Settle(u.orders[i], after)), i, PaymentRefunded, Some(from), Some(after), false)
  }

  function MarkRefunded(env: Env, s: State, i: nat, eventId: Option<nat>, amount: Option<int>,
                        reference: Option<nat>): (t: State)
    requires i < |s.orders| && s.orders[i].payment.Some?
    ensures |t.orders| == |s.orders|
  {
    var o := s.orders[i];
    var p := o.payment.value;
    if Seen(s, eventId) then s
    else if p.status.Returned? then Processed(s, eventId)
    else
      var t := RecordRefund(env, s, i, if amount.Some? then amount.value else Refundable(o), reference, false);
      RecordKeepsPayment(env, s, i, if amount.Some? then amount.value else Refundable(o), reference, false);
      Processed(SettledRefund(t, i, p.status), eventId)
  }

  lemma RecordKeepsPayment(env: Env, s: State, i: nat, amount: int, reference: Option<nat>, mark: bool)
    requires i < |s.orders|
    ensures RecordRefund(env, s, i, amount, reference, mark).orders[i].payment == s.orders[i].payment
  {
  }

  // ----- Cancellation -----

  predicate Uncancellable(status: Status) {
    status.Delivered? || status.Delivering? || status.Cancelled? || status.Refunded?
  }

  predicate PaymentCompleted(o: Order) {
    o.payment.Some? && o.payment.value.status.Completed?
  }

  function CancelOrder(env: Env, s: State, i: nat, staff: bool): (t: State)
    requires i < |s.orders|
    ensures |t.orders| == |s.orders|
  {
    var o := s.orders[i];
    if Uncancellable(o.status) || (PaymentCompleted(o) && !staff) then s
    else
      var t := RestoreStock(env, s, i);
      Put(t, i, MaybeCancellationNote(t.orders[i].(status := Cancelled)))
  }

  /** The reconciliation job giving up on an order that was never paid. */
  function AbandonOrder(env: Env, s: State, i: nat): (t: State)
    requires i < |s.orders|
    ensures |t.orders| == |s.orders|
  {
    var o := s.orders[i];
    if o.status.Cancelled? || o.payStatus.Paid? then s
    else Log(CloseUnpaid(env, s, i), i, AutoCancelled, None, None, false)
  }

  // ----- Admin edits -----

  /** The order took money that could be given back. */
  predicate IsRefundablePayment(o: Order) {
    match o.payBy
    case COD => o.codPaid && MoneyReceived(o.payStatus)
    case _ => MoneyReceived(o.payStatus)
  }

  /** The payment status and cash tick applied to the row in memory; None when the tick is refused. */
  function ApplyPayment(o: Order, payStatus: Option<PayStatus>, codPaid: Option<bool>): Option<Order> {
    var p := if payStatus.Some? then o.(payStatus := payStatus.value) else o;
    if codPaid.None? then Some(p)
    else if !o.payBy.COD? then None
    else if codPaid.value && !o.codPaid then Some(p.(codPaid := true, payStatus := Paid))
    else if !codPaid.value && o.codPaid then
      if o.refundedAmount > 0 then None else Some(p.(codPaid := false, payStatus := Unpaid))
    else Some(p)
  }

  predicate Cancelling(o: Order, e: Event)
    requires e.Edit?
  {
    e.status == Some(Cancelled) && !o.status.Cancelled?
  }

  predicate RecordsRefund(o: Order, e: Event)
    requires e.Edit?
  {
    (if e.status.Some? then e.status.value else o.status).Refunded? && (!o.status.Refunded? || e.refund.Some?)
  }

  /** Every check of an edit that answers before, or rolls back, anything written. */
  predicate EditIsAccepted(o: Order, e: Event)
    requires e.Edit?
  {
    && (e.refund.Some? ==> e.refund.value > 0)
    && !(Cancelling(o, e) && (o.status.Delivered? || o.status.Delivering?))
    && (RecordsRefund(o, e) ==> IsRefundablePayment(o) && Refundable(o) > 0)
    && (RecordsRefund(o, e) && e.refund.Some? ==> e.refund.value <= Refundable(o))
    && ApplyPayment(o, e.payStatus, e.codPaid).Some?
  }

  /** The edited row: new status, the invoice it makes due, the note of a cancellation. */
  function EditedOrder(o: Order, status: Status, cancelling: bool): Order {
    var saved := MaybeInvoice(o.(status := status));
    if cancelling then MaybeCancellationNote(saved) else saved
  }

  /** The state an accepted edit has written before any refund it records. */
  function SavedEdit(env: Env, s: State, e: Event): (t: State)
    requires e.Edit? && e.order < |s.orders| && ApplyPayment(s.orders[e.order], e.payStatus, e.codPaid).Some?
    ensures |t.orders| == |s.orders|
  {
    var i, o := e.order, s.orders[e.order];
    var applied := Put(s, i, ApplyPayment(o, e.payStatus, e.codPaid).value);
    var restocked := if Cancelling(o, e) then RestoreStock(env, applied, i) else applied;
    var status := if e.status.Some? then e.status.value else o.status;
    Put(restocked, i, EditedOrder(restocked.orders[i], status, Cancelling(o, e)))
  }

  function EditOrder(env: Env, s: State, e: Event): (t: State)
    requires e.Edit? && e.order < |s.orders|
    ensures |t.orders| == |s.orders|
  {
    var i, o := e.order, s.orders[e.order];
    if !EditIsAccepted(o, e) then s
    else
      var saved := SavedEdit(env, s, e);
      if RecordsRefund(o, e) then
        RecordRefund(env, saved, i, if e.refund.Some? then e.refund.value else Refundable(o), None, true)
      else saved
  }

  // ----- Runs -----

  function WithRecipe(s: State, combo: nat, recipe: seq<RecipeRow>): State {
    s.(recipes := s.recipes[combo := recipe])
  }

  function Step(env: Env, s: State, e: Event): State {
    match e
    case FillCart(user) => s.(carts := s.carts + {user})
    case PlaceOrder(_, _, _, _, _) => if Accepts(env, s, e) then Commit(env, s, e) else s
    case StartPayment(i) => if i < |s.orders| then BeginPayment(s, i) else s
    case Capture(i, session, id, amount) => if Found(s, i, session) then MarkCaptured(s, i, id, amount) else s
    case Fail(i, session, id) => if Found(s, i, session) then MarkFailed(s, i, id) else s
    case GatewayRefund(i, id, amount, reference) =>
      if i < |s.orders| && s.orders[i].payment.Some? then MarkRefunded(env, s, i, id, amount, reference) else s
    case Cancel(i, staff) => if i < |s.orders| then CancelOrder(env, s, i, staff) else s
    case Abandon(i) => if i < |s.orders| then AbandonOrder(env, s, i) else s
    case Edit(i, _, _, _, _) => if i < |s.orders| then EditOrder(env, s, e) else s
    case EditRecipe(combo, recipe) => WithRecipe(s, combo, recipe)
  }

  function Run(env: Env, s: State, es: seq<Event>): State {
    if es == [] then s else Step(env, Run(env, s, es[..|es| - 1]), es[|es| - 1])
  }

  lemma OtherStepsAppendNothing(env: Env, s: State, e: Event)
    requires !e.PlaceOrder?
    ensures |Step(env, s, e).orders| == |s.orders|
  {
  }

  lemma RunOfThree(env: Env, s: State, a: Event, b: Event, c: Event)
    ensures Run(env, s, [a, b, c]) == Step(env, Step(env, Step(env, s, a), b), c)
  {
    RunExtends(env, s, [], a);
    RunExtends(env, s, [a], b);
    RunExtends(env, s, [a, b], c);
    assert [] + [a] == [a] && [a] + [b] == [a, b] && [a, b] + [c] == [a, b, c];
  }

  lemma RunExtends(env: Env, s: State, es: seq<Event>, e: Event)
    ensures Run(env, s, es + [e]) == Step(env, Run(env, s, es), e)
  {
    assert (es + [e])[..|es|] == es;
  }

  /** A shop before its first order. */
  predicate Opening(s: State) {
    s.orders == [] && s.ledger == [] && s.processed == {} && s.audit == []
  }
}
