/** Stock over whole runs: what is on the shelf plus what live orders hold stays what the shop opened with. */
module ShopStock {
  import opened Money
  import opened Orders
  import opened Pricing
  import opened TaxBreakdown
  import opened Checkout
  import opened Coupons
  import opened Shop
  import opened Recipes

  /** A stock figure: the sellable stock of a size, or the display stock of a product. */
  datatype Shelf = Size(variant: nat) | Display(product: nat)

  predicate Known(s: State, x: Shelf) {
    match x
    case Size(v) => v in s.stock
    case Display(p) => p in s.products
  }

  function OnShelf(s: State, x: Shelf): nat
    requires Known(s, x)
  {
    match x
    case Size(v) => s.stock[v]
    case Display(p) => s.products[p]
  }

  function Units(env: Env, ds: seq<Draw>, x: Shelf): nat {
    match x
    case Size(v) => VariantUnits(ds, v)
    case Display(p) => HardUnits(ds, p) + MirrorUnits(ds, p, env.mirrorOf)
  }

  /** Units an order still holds. */
  function HeldBy(env: Env, o: Order, x: Shelf): nat {
    if o.restored then 0 else Units(env, o.draws, x)
  }

  function Held(env: Env, orders: seq<Order>, x: Shelf): nat {
    if orders == [] then 0 else Held(env, orders[..|orders| - 1], x) + HeldBy(env, orders[|orders| - 1], x)
  }

  function Balance(env: Env, s: State, x: Shelf): nat
    requires Known(s, x)
  {
    OnShelf(s, x) + Held(env, s.orders, x)
  }

  lemma {:induction false} HeldAgrees(env: Env, a: seq<Order>, b: seq<Order>, x: Shelf)
    requires |a| == |b|
    requires forall j :: 0 <= j < |a| ==> HeldBy(env, a[j], x) == HeldBy(env, b[j], x)
    ensures Held(env, a, x) == Held(env, b, x)
  {
    if a != [] {
      HeldAgrees(env, a[..|a| - 1], b[..|b| - 1], x);
    }
  }

  lemma {:induction false} HeldUpdate(env: Env, orders: seq<Order>, i: nat, o: Order, x: Shelf)
    requires i < |orders|
    ensures Held(env, orders[i := o], x) + HeldBy(env, orders[i], x) == Held(env, orders, x) + HeldBy(env, o, x)
  {
    var n := |orders| - 1;
    if i == n {
      assert orders[i := o][..n] == orders[..n];
    } else {
      HeldUpdate(env, orders[..n], i, o, x);
      assert orders[i := o][..n] == orders[..n][i := o];
    }
  }

  // ----- Restocking returns what was drawn -----

  /** Restocking an order now would give back exactly the units its checkout drew. */
  ghost predicate Restorable(o: Order, recipes: map<nat, seq<RecipeRow>>) {
    SameUnits(Restores(o.bill.items, recipes), o.draws)
  }

  /** A line whose composition, if not recorded, is still worth the units checkout read. */
  ghost predicate Traceable(line: CartLine, item: OrderItem, recipes: map<nat, seq<RecipeRow>>) {
    line.ComboLine? && item.components == [] ==> SameRecipeUnits(LiveRecipe(recipes, line.combo), line.recipe)
  }

  lemma LineRestores(line: CartLine, subtotal: int, discount: int, waived: bool, recipes: map<nat, seq<RecipeRow>>)
    requires Traceable(line, PriceLine(line, subtotal, discount, waived), recipes)
    ensures SameUnits(ItemRestores(PriceLine(line, subtotal, discount, waived), recipes), LineDraws(line))
  {
    var item := PriceLine(line, subtotal, discount, waived);
    if line.ComboLine? && item.components != [] {
      assert item.components == ComboComponents(line.recipe, item.finalPrice, line.quantity);
      assert ComponentDraws(item.components) == RecipeDraws(line.recipe, line.quantity);
    } else if line.ComboLine? {
      SameRecipesSameDraws(LiveRecipe(recipes, line.combo), line.recipe, line.quantity);
    }
  }

  lemma SameRecipesSameDraws(a: seq<RecipeRow>, b: seq<RecipeRow>, quantity: nat)
    requires SameRecipeUnits(a, b)
    ensures SameUnits(RecipeDraws(a, quantity), RecipeDraws(b, quantity))
  {
    forall k: nat ensures VariantUnits(RecipeDraws(a, quantity), k) == VariantUnits(RecipeDraws(b, quantity), k)
                  ensures HardUnits(RecipeDraws(a, quantity), k) == HardUnits(RecipeDraws(b, quantity), k) {
      RecipeDrawUnits(a, quantity, k);
      RecipeDrawUnits(b, quantity, k);
    }
  }

  lemma SameUnitsConcat(a: seq<Draw>, b: seq<Draw>, c: seq<Draw>, d: seq<Draw>)
    requires SameUnits(a, c) && SameUnits(b, d)
    ensures SameUnits(a + b, c + d)
  {
    forall k: nat ensures VariantUnits(a + b, k) == VariantUnits(c + d, k)
      && HardUnits(a + b, k) == HardUnits(c + d, k) {
      UnitsConcat(a, b, k);
      UnitsConcat(c, d, k);
    }
  }

  lemma LastItemRestores(items: seq<OrderItem>, recipes: map<nat, seq<RecipeRow>>)
    requires items != []
    ensures var n := |items| - 1;
      Restores(items, recipes) == Restores(items[..n], recipes) + ItemRestores(items[n], recipes)
  {
  }

  lemma LastLinePriced(cart: seq<CartLine>, subtotal: int, discount: int, waived: bool)
    requires cart != []
    ensures var n, items := |cart| - 1, PriceLines(cart, subtotal, discount, waived);
      && PriceLines(cart[..n], subtotal, discount, waived) == items[..n]
      && items[n] == PriceLine(cart[n], subtotal, discount, waived)
  {
  }

  lemma LastLineRestores(cart: seq<CartLine>, subtotal: int, discount: int, waived: bool,
                         recipes: map<nat, seq<RecipeRow>>)
    requires cart != []
    ensures var n, items := |cart| - 1, PriceLines(cart, subtotal, discount, waived);
      && PriceLines(cart[..n], subtotal, discount, waived) == items[..n]
      && Restores(items, recipes)
         == Restores(items[..n], recipes) + ItemRestores(PriceLine(cart[n], subtotal, discount, waived), recipes)
  {
    LastLinePriced(cart, subtotal, discount, waived);
    LastItemRestores(PriceLines(cart, subtotal, discount, waived), recipes);
  }

  lemma {:induction false} CartRestores(cart: seq<CartLine>, subtotal: int, discount: int, waived: bool,
                                        recipes: map<nat, seq<RecipeRow>>)
    requires var items := PriceLines(cart, subtotal, discount, waived);
      forall k :: 0 <= k < |cart| ==> Traceable(cart[k], items[k], recipes)
    ensures SameUnits(Restores(PriceLines(cart, subtotal, discount, waived), recipes), CartDraws(cart))
  {
    if cart != [] {
      var n := |cart| - 1;
      LastLineRestores(cart, subtotal, discount, waived, recipes);
      CartRestores(cart[..n], subtotal, discount, waived, recipes);
      LineRestores(cart[n], subtotal, discount, waived, recipes);
      SameUnitsConcat(Restores(PriceLines(cart[..n], subtotal, discount, waived), recipes),
                      ItemRestores(PriceLine(cart[n], subtotal, discount, waived), recipes),
                      CartDraws(cart[..n]), LineDraws(cart[n]));
    }
  }

  /** An order as checkout writes it restocks exactly what it drew. */
  lemma PlacedRestores(cart: seq<CartLine>, coupon: Option<Coupon>, policy: Policy, recipes: map<nat, seq<RecipeRow>>)
    requires var bill := PriceCart(cart, coupon, policy);
      forall k :: 0 <= k < |cart| ==> Traceable(cart[k], bill.items[k], recipes)
    ensures SameUnits(Restores(PriceCart(cart, coupon, policy).items, recipes), CartDraws(cart))
  {
    CartRestores(cart, Subtotal(cart), OrderDiscount(Subtotal(cart), coupon), IsWaived(Subtotal(cart), coupon),
                 recipes);
  }

  // ----- What each request keeps -----

  ghost predicate Covered(s: State) {
    forall i :: 0 <= i < |s.orders| ==> s.orders[i].restored || Restorable(s.orders[i], s.recipes)
  }

  predicate SameShelves(s: State, t: State) {
    t.stock.Keys == s.stock.Keys && t.products.Keys == s.products.Keys
  }

  predicate Mirrored(env: Env, p: nat) {
    exists v :: v in env.mirrorOf && env.mirrorOf[v] == p
  }

  /** Sizes, and products that mirror no size, balance exactly; a mirror is clamped at zero when drawn,
      so it can only come back higher. */
  predicate Balanced(env: Env, s: State, t: State, x: Shelf)
    requires SameShelves(s, t) && Known(s, x)
  {
    && Balance(env, t, x) >= Balance(env, s, x)
    && (x.Size? || !Mirrored(env, x.product) ==> Balance(env, t, x) == Balance(env, s, x))
  }

  /** Orders are never removed; what they bought and drew is frozen and a restock is never undone. */
  predicate KeepsRows(s: State, t: State) {
    && |s.orders| <= |t.orders|
    && (forall j :: 0 <= j < |s.orders| ==>
          t.orders[j].bill == s.orders[j].bill && t.orders[j].draws == s.orders[j].draws
          && (s.orders[j].restored ==> t.orders[j].restored))
  }

  ghost predicate Conserves(env: Env, s: State, t: State) {
    && SameShelves(s, t) && Covered(t) && KeepsRows(s, t)
    && (forall x :: Known(s, x) ==> Balanced(env, s, t, x))
  }

  lemma ConservesChain(env: Env, a: State, b: State, c: State)
    requires Conserves(env, a, b) && Conserves(env, b, c)
    ensures Conserves(env, a, c)
  {
    forall x | Known(a, x) ensures Balanced(env, a, c, x) {
      assert Balanced(env, a, b, x) && Balanced(env, b, c, x);
    }
  }

  /** Nothing that stock depends on changed. */
  predicate SameGoods(s: State, t: State) {
    && t.stock == s.stock && t.products == s.products && t.recipes == s.recipes
    && |t.orders| == |s.orders|
    && (forall j :: 0 <= j < |s.orders| ==>
          t.orders[j].draws == s.orders[j].draws && t.orders[j].restored == s.orders[j].restored
          && t.orders[j].bill == s.orders[j].bill)
  }

  lemma SameGoodsConserve(env: Env, s: State, t: State)
    requires Covered(s) && SameGoods(s, t)
    ensures Conserves(env, s, t)
  {
    forall x | Known(s, x) ensures Balanced(env, s, t, x) {
      HeldAgrees(env, s.orders, t.orders, x);
    }
  }

  lemma RestockedShelf(env: Env, s: State, i: nat, x: Shelf)
    requires i < |s.orders| && !s.orders[i].restored && Known(s, x)
    ensures var t := RestoreStock(env, s, i);
      Known(t, x) && OnShelf(t, x) == OnShelf(s, x) + Units(env, Restores(s.orders[i].bill.items, s.recipes), x)
  {
  }

  /** A restock keeps a stock figure in balance exactly when it gives back the units that were drawn. */
  lemma RestockConservesIff(env: Env, s: State, i: nat, x: Shelf)
    requires i < |s.orders| && !s.orders[i].restored && Known(s, x)
    ensures var o, t := s.orders[i], RestoreStock(env, s, i);
      && Known(t, x)
      && (Balance(env, t, x) == Balance(env, s, x)
          <==> Units(env, Restores(o.bill.items, s.recipes), x) == Units(env, o.draws, x))
  {
    var r := RestockedRow(env, s, i);
    RestockedShelf(env, s, i, x);
    HeldUpdate(env, s.orders, i, r, x);
  }

  lemma RestockedRow(env: Env, s: State, i: nat) returns (r: Order)
    requires i < |s.orders| && !s.orders[i].restored
    ensures RestoreStock(env, s, i).orders == s.orders[i := r] && r.restored
  {
    r := s.orders[i].(restored := true, restocks := s.orders[i].restocks + 1);
  }

  lemma SameUnitsOnShelf(env: Env, a: seq<Draw>, b: seq<Draw>, x: Shelf)
    requires SameUnits(a, b)
    ensures Units(env, a, x) == Units(env, b, x)
  {
    if x.Display? {
      MirrorsAgree(a, b, x.product, env.mirrorOf);
    }
  }

  lemma RestockConserves(env: Env, s: State, i: nat)
    requires Covered(s) && i < |s.orders|
    ensures Conserves(env, s, RestoreStock(env, s, i))
  {
    var t := RestoreStock(env, s, i);
    if s.orders[i].restored {
      SameGoodsConserve(env, s, t);
    } else {
      forall x | Known(s, x) ensures Balanced(env, s, t, x) {
        SameUnitsOnShelf(env, Restores(s.orders[i].bill.items, s.recipes), s.orders[i].draws, x);
        RestockConservesIff(env, s, i, x);
      }
    }
  }

  /** Restocking order i and then changing only what stock does not depend on. */
  lemma RestockThenConserves(env: Env, s: State, i: nat, t: State)
    requires Covered(s) && i < |s.orders| && SameGoods(RestoreStock(env, s, i), t)
    ensures Conserves(env, s, t)
  {
    RestockConserves(env, s, i);
    SameGoodsConserve(env, RestoreStock(env, s, i), t);
    ConservesChain(env, s, RestoreStock(env, s, i), t);
  }

  lemma ClosedConserves(env: Env, s: State, i: nat, t: State)
    requires Covered(s) && i < |s.orders| && SameGoods(CloseUnpaid(env, s, i), t)
    ensures Conserves(env, s, t)
  {
    RestockThenConserves(env, s, i, t);
  }

  lemma {:induction false} SupersedeConserves(env: Env, s: State, user: nat, n: nat, t: State)
    requires Covered(s) && n <= |s.orders| && t == Supersede(env, s, user, n)
    ensures Conserves(env, s, t)
  {
    if n == 0 {
      SameGoodsConserve(env, s, t);
    } else {
      var u := Supersede(env, s, user, n - 1);
      SupersedeConserves(env, s, user, n - 1, u);
      if t == u {
        SameGoodsConserve(env, u, t);
      } else {
        ClosedConserves(env, u, n - 1, t);
      }
      ConservesChain(env, s, u, t);
    }
  }

  /** The state in which a recorded refund restocks. */
  function Ledgered(s: State, i: nat, amount: int, reference: Option<nat>, mark: bool): (u: State)
    requires i < |s.orders|
    ensures |u.orders| == |s.orders|
  {
    var o := s.orders[i];
    var given := Min(amount, Refundable(o));
    var ledger := s.ledger + [RefundRow(i, given, RefundTaxFor(o.bill, o.refundedTax, given), reference)];
    Put(s, i, RefundedOrder(o, ledger, i, mark)).(ledger := ledger)
  }

  lemma LedgeredGoods(s: State, i: nat, amount: int, reference: Option<nat>, mark: bool)
    requires i < |s.orders|
    ensures SameGoods(s, Ledgered(s, i, amount, reference, mark))
  {
  }

  lemma RecordedGoods(env: Env, s: State, i: nat, amount: int, reference: Option<nat>, mark: bool)
    requires i < |s.orders| && RefundIsRecorded(s, i, amount, reference)
    ensures SameGoods(RestoreStock(env, Ledgered(s, i, amount, reference, mark), i),
                      RecordRefund(env, s, i, amount, reference, mark))
  {
  }

  lemma SameGoodsChain(a: State, b: State, c: State)
    requires SameGoods(a, b) && SameGoods(b, c)
    ensures SameGoods(a, c)
  {
  }

  lemma RecordConserves(env: Env, s: State, i: nat, amount: int, reference: Option<nat>, mark: bool, t: State)
    requires Covered(s) && i < |s.orders| && SameGoods(RecordRefund(env, s, i, amount, reference, mark), t)
    ensures Conserves(env, s, t)
  {
    if !RefundIsRecorded(s, i, amount, reference) {
      SameGoodsConserve(env, s, t);
    } else {
      var u := Ledgered(s, i, amount, reference, mark);
      LedgeredGoods(s, i, amount, reference, mark);
      RecordedGoods(env, s, i, amount, reference, mark);
      SameGoodsConserve(env, s, u);
      SameGoodsChain(RestoreStock(env, u, i), RecordRefund(env, s, i, amount, reference, mark), t);
      RestockThenConserves(env, u, i, t);
      ConservesChain(env, s, u, t);
    }
  }

  lemma SavedConserves(env: Env, s: State, e: Event, t: State)
    requires Covered(s) && e.Edit? && e.order < |s.orders|
        && ApplyPayment(s.orders[e.order], e.payStatus, e.codPaid).Some?
    requires t == SavedEdit(env, s, e)
    ensures Conserves(env, s, t)
  {
    var i, o := e.order, s.orders[e.order];
    var applied := Put(s, i, ApplyPayment(o, e.payStatus, e.codPaid).value);
    var restocked := if Cancelling(o, e) then RestoreStock(env, applied, i) else applied;
    AppliedGoods(s, i, o, e, applied);
    EditedGoods(restocked.orders[i], if e.status.Some? then e.status.value else o.status, Cancelling(o, e));
    PutGoods(restocked, t, i, t.orders[i]);
    if Cancelling(o, e) {
      RestockThenConserves(env, applied, i, t);
    } else {
      SameGoodsConserve(env, applied, t);
    }
    SameGoodsConserve(env, s, applied);
    ConservesChain(env, s, applied, t);
  }

  lemma AppliedGoods(s: State, i: nat, o: Order, e: Event, applied: State)
    requires e.Edit? && i < |s.orders| && o == s.orders[i] && ApplyPayment(o, e.payStatus, e.codPaid).Some?
    requires applied == Put(s, i, ApplyPayment(o, e.payStatus, e.codPaid).value)
    ensures SameGoods(s, applied)
  {
    PutGoods(s, applied, i, ApplyPayment(o, e.payStatus, e.codPaid).value);
  }

  lemma EditConserves(env: Env, s: State, e: Event)
    requires Covered(s) && e.Edit? && e.order < |s.orders|
    ensures Conserves(env, s, EditOrder(env, s, e))
  {
    var o, t := s.orders[e.order], EditOrder(env, s, e);
    if t == s {
      SameGoodsConserve(env, s, t);
    } else {
      var saved := SavedEdit(env, s, e);
      SavedConserves(env, s, e, saved);
      if RecordsRefund(o, e) {
        RecordConserves(env, saved, e.order, if e.refund.Some? then e.refund.value else Refundable(o), None, true, t);
        ConservesChain(env, s, saved, t);
      }
    }
  }

  lemma EditedGoods(o: Order, status: Status, cancelling: bool)
    ensures var r := EditedOrder(o, status, cancelling);
      r.draws == o.draws && r.restored == o.restored && r.bill == o.bill
  {
  }

  // ----- Checkout -----

  lemma {:induction false} NoMirrorUnits(ds: seq<Draw>, p: nat, env: Env)
    requires !Mirrored(env, p)
    ensures MirrorUnits(ds, p, env.mirrorOf) == 0
  {
    if ds != [] {
      NoMirrorUnits(ds[..|ds| - 1], p, env);
    }
  }

  lemma TakenShelf(env: Env, s: State, ds: seq<Draw>, x: Shelf)
    requires CanDraw(s, ds) && Known(s, x)
    ensures var t := TakeStock(env, s, ds);
      && Known(t, x)
      && OnShelf(t, x) + Units(env, ds, x) >= OnShelf(s, x)
      && (x.Size? || !Mirrored(env, x.product) ==> OnShelf(t, x) + Units(env, ds, x) == OnShelf(s, x))
  {
    if x.Display? && !Mirrored(env, x.product) {
      NoMirrorUnits(ds, x.product, env);
    }
  }

  /** Checkout can be traced: compositions it does not record are worth the units of the live ones when it commits. */
  ghost predicate TracesCart(env: Env, s: State, e: Event)
    requires e.PlaceOrder?
  {
    var bill := PriceCart(e.cart, CouponRow(e.coupon), env.policy);
    forall k :: 0 <= k < |e.cart| ==> Traceable(e.cart[k], bill.items[k], s.recipes)
  }

  lemma TakeAndAppend(env: Env, s: State, o: Order, t: State)
    requires Covered(s) && CanDraw(s, o.draws) && !o.restored && Restorable(o, s.recipes)
    requires t.orders == s.orders + [o] && t.recipes == s.recipes
    requires t.stock == TakeStock(env, s, o.draws).stock && t.products == TakeStock(env, s, o.draws).products
    ensures Conserves(env, s, t)
  {
    assert SameShelves(s, t);
    forall x | Known(s, x) ensures Balanced(env, s, t, x) {
      TakenShelf(env, s, o.draws, x);
      assert OnShelf(t, x) == OnShelf(TakeStock(env, s, o.draws), x);
      assert t.orders[..|s.orders|] == s.orders;
    }
  }

  lemma CommitConserves(env: Env, s: State, e: Event)
    requires Covered(s) && e.PlaceOrder? && Accepts(env, s, e) && TracesCart(env, s, e)
    ensures Conserves(env, s, Commit(env, s, e))
  {
    var t, w := Supersede(env, s, e.user, |s.orders|), Commit(env, s, e);
    SupersedeConserves(env, s, e.user, |s.orders|, t);
    PlacedRestores(e.cart, CouponRow(e.coupon), env.policy, s.recipes);
    PlacedOrderGoods(env, e);
    CommitShape(env, s, e, t, w);
    TakeAndAppend(env, t, PlacedOrder(env, e), w);
    ConservesChain(env, s, t, w);
  }

  // ----- Every run -----

  /** The two requests that could spoil a later restock: a checkout whose unrecorded composition is
      already out of date, and a recipe edit that changes the units of some size under a live order that
      never recorded the combo's composition. */
  ghost predicate StepTraces(env: Env, s: State, e: Event) {
    match e
    case PlaceOrder(_, _, _, _, _) => Accepts(env, s, e) ==> TracesCart(env, s, e)
    case EditRecipe(combo, recipe) => SameRecipeUnits(recipe, LiveRecipe(s.recipes, combo)) || NoneLive(s.orders, combo)
    case _ => true
  }

  /** No order still holding stock bought the combo on an unrecorded line. */
  predicate NoneLive(orders: seq<Order>, combo: nat) {
    forall i :: 0 <= i < |orders| ==> orders[i].restored || LiveQuantity(orders[i].bill.items, combo) == 0
  }

  ghost predicate RunTraces(env: Env, s: State, es: seq<Event>) {
    es == [] || (RunTraces(env, s, es[..|es| - 1]) && StepTraces(env, Run(env, s, es[..|es| - 1]), es[|es| - 1]))
  }

  lemma SameUnitsChain(a: seq<Draw>, b: seq<Draw>, c: seq<Draw>)
    requires SameUnits(b, c)
    ensures SameUnits(a, b) <==> SameUnits(a, c)
  {
  }

  /** An edit keeps every live order restorable exactly when it traces: it changes no size's units, or no
      live order depends on the recipe. */
  lemma RecipeEditKeepsCovered(env: Env, s: State, combo: nat, recipe: seq<RecipeRow>)
    requires Covered(s)
    ensures Covered(WithRecipe(s, combo, recipe)) <==> StepTraces(env, s, EditRecipe(combo, recipe))
  {
    var recipes := s.recipes[combo := recipe];
    forall i | 0 <= i < |s.orders| && !s.orders[i].restored
      ensures Restorable(s.orders[i], recipes)
         <==> LiveQuantity(s.orders[i].bill.items, combo) == 0 || SameRecipeUnits(recipe, LiveRecipe(s.recipes, combo))
    {
      var o := s.orders[i];
      RecipeEditKeepsRestores(o.bill.items, s.recipes, combo, recipe);
      SameUnitsChain(Restores(o.bill.items, recipes), Restores(o.bill.items, s.recipes), o.draws);
    }
  }

  lemma RecipeEditConserves(env: Env, s: State, combo: nat, recipe: seq<RecipeRow>)
    requires Covered(s) && StepTraces(env, s, EditRecipe(combo, recipe))
    ensures Conserves(env, s, WithRecipe(s, combo, recipe))
  {
    RecipeEditKeepsCovered(env, s, combo, recipe);
  }

  /** Only order i's row changed, and not in what it drew, restocked or was billed. */
  lemma PutGoods(s: State, t: State, i: nat, o: Order)
    requires i < |s.orders| && t.orders == s.orders[i := o]
    requires t.stock == s.stock && t.products == s.products && t.recipes == s.recipes
    requires o.draws == s.orders[i].draws && o.restored == s.orders[i].restored && o.bill == s.orders[i].bill
    ensures SameGoods(s, t)
  {
  }

  lemma IgnoredCaptureGoods(s: State, i: nat, id: Option<nat>, amount: Option<int>)
    requires i < |s.orders| && s.orders[i].payment.Some? && CaptureIgnored(s, i, id, amount)
    ensures SameGoods(s, MarkCaptured(s, i, id, amount))
  {
  }

  lemma LateCaptureGoods(s: State, i: nat, id: Option<nat>, amount: Option<int>)
    requires i < |s.orders| && s.orders[i].payment.Some? && !CaptureIgnored(s, i, id, amount)
    requires s.orders[i].status.Cancelled?
    ensures SameGoods(s, MarkCaptured(s, i, id, amount))
  {
    PutGoods(s, MarkCaptured(s, i, id, amount), i, Settle(s.orders[i], Completed));
  }

  lemma ConfirmingCaptureGoods(s: State, i: nat, id: Option<nat>, amount: Option<int>)
    requires i < |s.orders| && s.orders[i].payment.Some? && !CaptureIgnored(s, i, id, amount)
    requires !s.orders[i].status.Cancelled?
    ensures SameGoods(s, MarkCaptured(s, i, id, amount))
  {
    ConfirmedGoods(s.orders[i]);
    PutGoods(s, MarkCaptured(s, i, id, amount), i, ConfirmedOrder(s.orders[i]));
  }

  lemma CaptureGoods(s: State, i: nat, id: Option<nat>, amount: Option<int>)
    requires i < |s.orders| && s.orders[i].payment.Some?
    ensures SameGoods(s, MarkCaptured(s, i, id, amount))
  {
    if CaptureIgnored(s, i, id, amount) {
      IgnoredCaptureGoods(s, i, id, amount);
    } else if s.orders[i].status.Cancelled? {
      LateCaptureGoods(s, i, id, amount);
    } else {
      ConfirmingCaptureGoods(s, i, id, amount);
    }
  }

  lemma ConfirmedGoods(o: Order)
    requires o.payment.Some?
    ensures var c := ConfirmedOrder(o);
      c.draws == o.draws && c.restored == o.restored && c.bill == o.bill
  {
  }

  lemma FailGoods(s: State, i: nat, id: Option<nat>)
    requires i < |s.orders| && s.orders[i].payment.Some?
    ensures SameGoods(s, MarkFailed(s, i, id))
  {
    if !Seen(s, id) && s.orders[i].payment.value.status.Awaiting? {
      PutGoods(s, MarkFailed(s, i, id), i, Settle(s.orders[i], Failed).(payStatus := Declined));
    }
  }

  lemma BeginGoods(s: State, i: nat)
    requires i < |s.orders|
    ensures SameGoods(s, BeginPayment(s, i))
  {
    var t := BeginPayment(s, i);
    PutGoods(s, t, i, s.orders[i].(payment := t.orders[i].payment));
  }

  lemma PaymentStepGoods(env: Env, s: State, e: Event)
    requires e.StartPayment? || e.Capture? || e.Fail? || e.FillCart?
    ensures SameGoods(s, Step(env, s, e))
  {
    match e {
      case StartPayment(i) => if i < |s.orders| { BeginGoods(s, i); }
      case Capture(i, session, id, amount) => if Found(s, i, session) { CaptureGoods(s, i, id, amount); }
      case Fail(i, session, id) => if Found(s, i, session) { FailGoods(s, i, id); }
      case _ =>
    }
  }

  lemma CancelConserves(env: Env, s: State, i: nat, staff: bool)
    requires Covered(s) && i < |s.orders|
    ensures Conserves(env, s, CancelOrder(env, s, i, staff))
  {
    var t := CancelOrder(env, s, i, staff);
    if t == s {
      SameGoodsConserve(env, s, t);
    } else {
      RestockThenConserves(env, s, i, t);
    }
  }

  lemma AbandonConserves(env: Env, s: State, i: nat)
    requires Covered(s) && i < |s.orders|
    ensures Conserves(env, s, AbandonOrder(env, s, i))
  {
    var t := AbandonOrder(env, s, i);
    if t == s {
      SameGoodsConserve(env, s, t);
    } else {
      ClosedConserves(env, s, i, t);
    }
  }

  lemma RefundConserves(env: Env, s: State, i: nat, id: Option<nat>, amount: Option<int>, reference: Option<nat>)
    requires Covered(s) && i < |s.orders| && s.orders[i].payment.Some?
    ensures Conserves(env, s, MarkRefunded(env, s, i, id, amount, reference))
  {
    var t := MarkRefunded(env, s, i, id, amount, reference);
    if Seen(s, id) || s.orders[i].payment.value.status.Returned? {
      SameGoodsConserve(env, s, t);
    } else {
      RecordKeepsPayment(env, s, i, if amount.Some? then amount.value else Refundable(s.orders[i]), reference, false);
      RecordConserves(env, s, i, if amount.Some? then amount.value else Refundable(s.orders[i]), reference, false, t);
    }
  }

  lemma StepConserves(env: Env, s: State, e: Event)
    requires Covered(s) && StepTraces(env, s, e)
    ensures Conserves(env, s, Step(env, s, e))
  {
    if Step(env, s, e) == s {
      SameGoodsConserve(env, s, s);
    } else {
      match e
      case PlaceOrder(_, _, _, _, _) => CommitConserves(env, s, e);
      case GatewayRefund(i, id, amount, reference) => RefundConserves(env, s, i, id, amount, reference);
      case Cancel(i, staff) => CancelConserves(env, s, i, staff);
      case Abandon(i) => AbandonConserves(env, s, i);
      case Edit(_, _, _, _, _) => EditConserves(env, s, e);
      case EditRecipe(combo, recipe) => RecipeEditConserves(env, s, combo, recipe);
      case _ =>
        PaymentStepGoods(env, s, e);
        SameGoodsConserve(env, s, Step(env, s, e));
    }
  }

  /** Over every traceable run of checkouts, payments, cancellations, edits and refunds: for each size,
      stock plus the units of orders not yet restocked is what the shop opened with, and a display
      product never falls short of it. */
  lemma {:induction false} StockConserved(env: Env, s: State, es: seq<Event>)
    requires Opening(s) && RunTraces(env, s, es)
    ensures Conserves(env, s, Run(env, s, es))
  {
    if es == [] {
      SameGoodsConserve(env, s, s);
    } else {
      var u := Run(env, s, es[..|es| - 1]);
      StockConserved(env, s, es[..|es| - 1]);
      StepConserves(env, u, es[|es| - 1]);
      ConservesChain(env, s, u, Run(env, s, es));
    }
  }

  // ----- Recorded compositions -----

  /** A cart whose every combo line gets its composition recorded: it has components and a price. */
  predicate RecordsCompositions(env: Env, e: Event) {
    e.PlaceOrder? ==>
      var bill := PriceCart(e.cart, CouponRow(e.coupon), env.policy);
      forall k :: 0 <= k < |bill.items| ==> !LiveLine(bill.items[k])
  }

  predicate AllRecorded(orders: seq<Order>) {
    forall i, k :: 0 <= i < |orders| && 0 <= k < |orders[i].bill.items| ==> !LiveLine(orders[i].bill.items[k])
  }

  lemma RecordedStepTraces(env: Env, s: State, e: Event)
    requires AllRecorded(s.orders) && RecordsCompositions(env, e)
    ensures StepTraces(env, s, e)
  {
    if e.PlaceOrder? {
      var bill := PriceCart(e.cart, CouponRow(e.coupon), env.policy);
      forall k | 0 <= k < |e.cart| ensures Traceable(e.cart[k], bill.items[k], s.recipes) {
        assert !LiveLine(bill.items[k]);
      }
    } else if e.EditRecipe? {
      forall i | 0 <= i < |s.orders| ensures LiveQuantity(s.orders[i].bill.items, e.combo) == 0 {
        NoLiveLines(s.orders[i].bill.items, e.combo);
      }
    }
  }

  lemma CommitAppends(env: Env, s: State, e: Event)
    requires e.PlaceOrder? && Accepts(env, s, e)
    ensures var t := Commit(env, s, e);
      |t.orders| == |s.orders| + 1 && t.orders[|s.orders|].bill == PriceCart(e.cart, CouponRow(e.coupon), env.policy)
  {
    CommitShape(env, s, e, Supersede(env, s, e.user, |s.orders|), Commit(env, s, e));
    PlacedOrderGoods(env, e);
  }

  lemma RecordedStep(env: Env, s: State, e: Event)
    requires Covered(s) && AllRecorded(s.orders) && RecordsCompositions(env, e)
    ensures AllRecorded(Step(env, s, e).orders)
  {
    var t := Step(env, s, e);
    RecordedStepTraces(env, s, e);
    StepConserves(env, s, e);
    if e.PlaceOrder? && Accepts(env, s, e) {
      CommitAppends(env, s, e);
    } else if !e.PlaceOrder? {
      OtherStepsAppendNothing(env, s, e);
    }
    forall i, k | 0 <= i < |t.orders| && 0 <= k < |t.orders[i].bill.items|
      ensures !LiveLine(t.orders[i].bill.items[k]) {
      if i < |s.orders| {
        assert t.orders[i].bill == s.orders[i].bill;
      }
    }
  }

  /** When every combo line is recorded at checkout, stock is conserved over every run, whatever later
      happens to the recipes. */
  lemma {:induction false} SnapshotsSurviveRecipeEdits(env: Env, s: State, es: seq<Event>)
    requires Opening(s) && forall k :: 0 <= k < |es| ==> RecordsCompositions(env, es[k])
    ensures RunTraces(env, s, es) && AllRecorded(Run(env, s, es).orders)
    ensures Conserves(env, s, Run(env, s, es))
  {
    if es != [] {
      var n := |es| - 1;
      SnapshotsSurviveRecipeEdits(env, s, es[..n]);
      RecordedStepTraces(env, Run(env, s, es[..n]), es[n]);
      RecordedStep(env, Run(env, s, es[..n]), es[n]);
    }
    StockConserved(env, s, es);
  }

  /** A combo line goes unrecorded exactly when a coupon waives the whole order, the combo has no
      components, or the discounted unit price rounds to nothing. */
  lemma UnrecordedExactly(line: CartLine, subtotal: int, discount: int, waived: bool)
    requires line.ComboLine?
    ensures LiveLine(PriceLine(line, subtotal, discount, waived)) <==>
      waived || line.recipe == [] || DiscountedUnit(line, LineDiscount(line.Total(), subtotal, discount)) <= 0
  {
    var unit := DiscountedUnit(line, LineDiscount(line.Total(), subtotal, discount));
    if unit > 0 {
      MulMonotone(unit, 1, line.quantity);
    } else {
      MulMonotone(line.quantity, unit, 0);
    }
  }

  /** Cancelling a live order after an edit of a combo it never recorded moves the stock of each size by
      the combos bought times the change in the recipe's units of that size. */
  lemma RecipeEditMovesStock(env: Env, s: State, i: nat, combo: nat, recipe: seq<RecipeRow>, staff: bool, v: nat)
    requires i < |s.orders| && v in s.stock
    requires var o := s.orders[i];
      && !o.restored && !Uncancellable(o.status) && (staff || !PaymentCompleted(o)) && Restorable(o, s.recipes)
    ensures var t := CancelOrder(env, WithRecipe(s, combo, recipe), i, staff);
      var q := LiveQuantity(s.orders[i].bill.items, combo);
      v in t.stock
      && Balance(env, t, Size(v)) + q * RecipeUnits(LiveRecipe(s.recipes, combo), v)
         == Balance(env, s, Size(v)) + q * RecipeUnits(recipe, v)
  {
    var o := s.orders[i];
    var u := WithRecipe(s, combo, recipe);
    var t := CancelOrder(env, u, i, staff);
    RestoresAfterEdit(o.bill.items, s.recipes, combo, recipe, v);
    RestockedShelf(env, u, i, Size(v));
    HeldUpdate(env, u.orders, i, t.orders[i], Size(v));
    CancelledRow(env, u, i, staff);
  }

  lemma CancelledRow(env: Env, u: State, i: nat, staff: bool)
    requires i < |u.orders| && !u.orders[i].restored && !Uncancellable(u.orders[i].status)
    requires staff || !PaymentCompleted(u.orders[i])
    ensures var t := CancelOrder(env, u, i, staff);
      && t.orders == u.orders[i := t.orders[i]] && t.orders[i].restored && t.stock == RestoreStock(env, u, i).stock
  {
  }

  /** Cancelling after a recipe edit keeps every size's stock exactly when the order has no unrecorded line
      of the combo or the edit keeps the units of every size on sale. */
  lemma RecipeEditLosesStock(env: Env, s: State, i: nat, combo: nat, recipe: seq<RecipeRow>, staff: bool)
    requires i < |s.orders|
    requires var o := s.orders[i];
      && !o.restored && !Uncancellable(o.status) && (staff || !PaymentCompleted(o)) && Restorable(o, s.recipes)
    ensures var t := CancelOrder(env, WithRecipe(s, combo, recipe), i, staff);
      && t.stock.Keys == s.stock.Keys
      && ((forall v :: v in s.stock ==> Balance(env, t, Size(v)) == Balance(env, s, Size(v)))
          <==> LiveQuantity(s.orders[i].bill.items, combo) == 0
               || forall v :: v in s.stock ==> RecipeUnits(recipe, v) == RecipeUnits(LiveRecipe(s.recipes, combo), v))
  {
    var q := LiveQuantity(s.orders[i].bill.items, combo);
    var t := CancelOrder(env, WithRecipe(s, combo, recipe), i, staff);
    forall v | v in s.stock
      ensures v in t.stock && (Balance(env, t, Size(v)) == Balance(env, s, Size(v))
         <==> q == 0 || RecipeUnits(recipe, v) == RecipeUnits(LiveRecipe(s.recipes, combo), v))
    {
      RecipeEditMovesStock(env, s, i, combo, recipe, staff, v);
      SameProducts(q, RecipeUnits(recipe, v), RecipeUnits(LiveRecipe(s.recipes, combo), v));
    }
  }

  // ----- From an empty shop -----

  /** A checkout of one combo line that a coupon waives whole. */
  predicate WaivedCombo(env: Env, s: State, e: Event) {
    && e.PlaceOrder? && Accepts(env, s, e) && WaivedBy(e)
    && |e.cart| == 1 && e.cart[0].ComboLine? && LiveRecipe(s.recipes, e.cart[0].combo) == e.cart[0].recipe
  }

  lemma WaivedComboOrder(env: Env, s: State, e: Event)
    requires Opening(s) && WaivedCombo(env, s, e)
    ensures var u := Commit(env, s, e);
      && u.orders == [PlacedOrder(env, e)] && u.recipes == s.recipes
      && u.orders[0].status.Confirmed? && u.orders[0].payment.None? && !u.orders[0].restored
      && LiveQuantity(u.orders[0].bill.items, e.cart[0].combo) == e.cart[0].quantity
    ensures TracesCart(env, s, e)
  {
    CommitShape(env, s, e, Supersede(env, s, e.user, |s.orders|), Commit(env, s, e));
    PlacedOrderGoods(env, e);
    var bill := PriceCart(e.cart, CouponRow(e.coupon), env.policy);
    assert bill.items[..0] == [];
    assert LiveLine(bill.items[0]);
  }

  lemma HeldByOne(env: Env, orders: seq<Order>, x: Shelf)
    requires |orders| == 1
    ensures Held(env, orders, x) == HeldBy(env, orders[0], x)
  {
    assert orders[..0] == [];
  }

  /** What the order of a waived combo checkout gives back after an edit of the recipe. */
  lemma WaivedComboCancel(env: Env, s: State, e: Event, u: State, recipe: seq<RecipeRow>, v: nat)
    requires Opening(s) && WaivedCombo(env, s, e) && v in s.stock && u == Commit(env, s, e)
    ensures var w := CancelOrder(env, WithRecipe(u, e.cart[0].combo, recipe), 0, false);
      var q: nat := e.cart[0].quantity;
      && v in u.stock && v in w.stock && w.orders == [w.orders[0]] && w.orders[0].restored
      && Balance(env, w, Size(v)) + q * RecipeUnits(e.cart[0].recipe, v)
         == Balance(env, u, Size(v)) + q * RecipeUnits(recipe, v)
  {
    var combo := e.cart[0].combo;
    WaivedComboHolds(env, s, e, u, v);
    WaivedComboRestorable(env, s, e, u);
    RecipeEditMovesStock(env, u, 0, combo, recipe, false, v);
    OneCancelled(env, WithRecipe(u, combo, recipe));
  }

  lemma OneCancelled(env: Env, u: State)
    requires |u.orders| == 1 && !u.orders[0].restored && u.orders[0].status.Confirmed? && u.orders[0].payment.None?
    ensures var w := CancelOrder(env, u, 0, false);
      w.orders == [w.orders[0]] && w.orders[0].restored
  {
    CancelledRow(env, u, 0, false);
  }

  lemma WaivedComboRestorable(env: Env, s: State, e: Event, u: State)
    requires Opening(s) && WaivedCombo(env, s, e) && u == Commit(env, s, e)
    ensures |u.orders| == 1 && u.recipes == s.recipes && !u.orders[0].restored && Restorable(u.orders[0], u.recipes)
    ensures u.orders[0].status.Confirmed? && u.orders[0].payment.None?
    ensures LiveQuantity(u.orders[0].bill.items, e.cart[0].combo) == e.cart[0].quantity
  {
    WaivedComboOrder(env, s, e);
    CommitConserves(env, s, e);
  }

  lemma WaivedComboHolds(env: Env, s: State, e: Event, u: State, v: nat)
    requires Opening(s) && WaivedCombo(env, s, e) && v in s.stock && u == Commit(env, s, e)
    ensures v in u.stock && Balance(env, u, Size(v)) == s.stock[v]
  {
    WaivedComboOrder(env, s, e);
    CommitConserves(env, s, e);
    BalanceKept(env, s, u, v);
  }

  lemma BalanceKept(env: Env, s: State, u: State, v: nat)
    requires Conserves(env, s, u) && v in s.stock && s.orders == []
    ensures v in u.stock && Balance(env, u, Size(v)) == s.stock[v]
  {
    assert Known(s, Size(v)) && Balanced(env, s, u, Size(v));
  }

  /** From any shop without orders: a waived checkout of a combo, any edit of its recipe, and the customer's
      cancellation leave each size changed by the combos bought times the change in the recipe's units. */
  lemma WaivedComboRun(env: Env, s: State, e: Event, recipe: seq<RecipeRow>, v: nat)
    requires Opening(s) && WaivedCombo(env, s, e) && v in s.stock
    ensures var t := Run(env, s, [e, EditRecipe(e.cart[0].combo, recipe), Cancel(0, false)]);
      var q: nat := e.cart[0].quantity;
      v in t.stock && t.stock[v] + q * RecipeUnits(e.cart[0].recipe, v) == s.stock[v] + q * RecipeUnits(recipe, v)
  {
    var u := Commit(env, s, e);
    var w := CancelOrder(env, WithRecipe(u, e.cart[0].combo, recipe), 0, false);
    WaivedComboCancel(env, s, e, u, recipe, v);
    WaivedComboHolds(env, s, e, u, v);
    HeldByOne(env, w.orders, Size(v));
    WaivedRunIs(env, s, e, e.cart[0].combo, recipe);
  }

  lemma WaivedRunIs(env: Env, s: State, e: Event, combo: nat, recipe: seq<RecipeRow>)
    requires Opening(s) && WaivedCombo(env, s, e)
    ensures |Commit(env, s, e).orders| == 1
    ensures Run(env, s, [e, EditRecipe(combo, recipe), Cancel(0, false)])
         == CancelOrder(env, WithRecipe(Commit(env, s, e), combo, recipe), 0, false)
  {
    RunOfThree(env, s, e, EditRecipe(combo, recipe), Cancel(0, false));
    CommitAppends(env, s, e);
  }

  /** Such a run exists and loses stock: two packs of the only size, drawn by a waived order, never come back
      once the combo's recipe was emptied. */
  lemma StockIsLostForGood(env: Env)
    ensures var recipe := [RecipeRow(0, 100, 2, 500, "")];
      var coupon := Coupon(Fixed(100), true, None, None, None, 0, 0);
      var s := State([], [], {}, [], map[0 := 5], map[], map[0 := recipe], map[0 := coupon], {0});
      var e := Event.PlaceOrder(0, Online, [ComboLine(0, 100, 1, recipe, 0)], Some((0, coupon)), 0);
      var t := Run(env, s, [e, EditRecipe(0, []), Cancel(0, false)]);
      WaivedCombo(env, s, e) && 0 in t.stock && t.stock[0] == 3
  {
    var recipe := [RecipeRow(0, 100, 2, 500, "")];
    var coupon := Coupon(Fixed(100), true, None, None, None, 0, 0);
    var s := State([], [], {}, [], map[0 := 5], map[], map[0 := recipe], map[0 := coupon], {0});
    var line := ComboLine(0, 100, 1, recipe, 0);
    var e := Event.PlaceOrder(0, Online, [line], Some((0, coupon)), 0);
    assert recipe[..0] == [];
    assert RecipeUnits(recipe, 0) == 2;
    SmallCheckout(env, s, e, line, recipe, coupon);
    WaivedComboRun(env, s, e, [], 0);
  }

  lemma SmallCheckout(env: Env, s: State, e: Event, line: CartLine, recipe: seq<RecipeRow>, coupon: Coupon)
    requires recipe == [RecipeRow(0, 100, 2, 500, "")] && coupon == Coupon(Fixed(100), true, None, None, None, 0, 0)
    requires s == State([], [], {}, [], map[0 := 5], map[], map[0 := recipe], map[0 := coupon], {0})
    requires line == ComboLine(0, 100, 1, recipe, 0) && e == Event.PlaceOrder(0, Online, [line], Some((0, coupon)), 0)
    ensures WaivedCombo(env, s, e)
  {
    SmallCart(line, recipe);
    SmallDraw(s, recipe, RecipeDraws(recipe, 1));
  }

  lemma SmallCart(line: CartLine, recipe: seq<RecipeRow>)
    requires line == ComboLine(0, 100, 1, recipe, 0)
    ensures Subtotal([line]) == 100 && CartDraws([line]) == RecipeDraws(recipe, 1)
  {
    assert [line][..0] == [];
    assert LineTotals([line]) == [100] && [100][..0] == [];
  }

  lemma SmallDraw(s: State, recipe: seq<RecipeRow>, ds: seq<Draw>)
    requires recipe == [RecipeRow(0, 100, 2, 500, "")] && ds == RecipeDraws(recipe, 1)
    requires s.stock == map[0 := 5] && s.products == map[]
    ensures CanDraw(s, ds)
  {
    assert ds == [VariantDraw(0, 2)] && ds[..0] == [];
    assert VariantUnits(ds, 0) == 2;
  }
}
