/** The dictionaries that checkout and restocking fill line by line before touching any stock row. */
module StockUpdates {
  import opened Orders
  import opened Shop

  /** A dictionary of units by row id; `keys` lists the ids once each. */
  datatype Updates = Updates(keys: seq<nat>, units: map<nat, nat>)

  function Got(u: Updates, k: nat): nat {
    if k in u.units then u.units[k] else 0
  }

  /** `u[k] = u.get(k, 0) + n` */
  function Bump(u: Updates, k: nat, n: nat): Updates {
    Updates(if k in u.units then u.keys else u.keys + [k], u.units[k := Got(u, k) + n])
  }

  predicate Distinct(keys: seq<nat>) {
    forall i, j :: 0 <= i < j < |keys| ==> keys[i] != keys[j]
  }

  ghost predicate WellFormed(u: Updates) {
    Distinct(u.keys) && forall k :: k in u.keys <==> k in u.units
  }

  lemma BumpWellFormed(u: Updates, k: nat, n: nat)
    requires WellFormed(u)
    ensures WellFormed(Bump(u, k, n))
  {
  }

  /** The dictionary holds, for every size, the units the draws name. */
  ghost predicate CountsVariants(u: Updates, ds: seq<Draw>) {
    WellFormed(u) && forall v: nat :: Got(u, v) == VariantUnits(ds, v)
  }

  ghost predicate CountsProducts(u: Updates, ds: seq<Draw>) {
    WellFormed(u) && forall p: nat :: Got(u, p) == HardUnits(ds, p)
  }

  lemma OneMoreDraw(ds: seq<Draw>, d: Draw)
    ensures forall v :: VariantUnits(ds + [d], v) == VariantUnits(ds, v) + UnitsOfVariant(d, v)
    ensures forall p :: HardUnits(ds + [d], p) == HardUnits(ds, p) + HardUnitsOf(d, p)
    ensures forall p, m :: MirrorUnits(ds + [d], p, m) == MirrorUnits(ds, p, m) + MirrorUnitsOf(d, p, m)
  {
    assert (ds + [d])[..|ds|] == ds;
  }

  lemma BumpVariant(u: Updates, w: Updates, ds: seq<Draw>, v: nat, n: nat)
    requires CountsVariants(u, ds) && CountsProducts(w, ds)
    ensures CountsVariants(Bump(u, v, n), ds + [VariantDraw(v, n)])
    ensures CountsProducts(w, ds + [VariantDraw(v, n)])
  {
    BumpWellFormed(u, v, n);
    OneMoreDraw(ds, VariantDraw(v, n));
  }

  lemma BumpProduct(u: Updates, w: Updates, ds: seq<Draw>, p: nat, n: nat)
    requires CountsVariants(u, ds) && CountsProducts(w, ds)
    ensures CountsVariants(u, ds + [ProductDraw(p, n)])
    ensures CountsProducts(Bump(w, p, n), ds + [ProductDraw(p, n)])
  {
    BumpWellFormed(w, p, n);
    OneMoreDraw(ds, ProductDraw(p, n));
  }

  /** Units owed to a product's display stock by the first sizes of a dictionary. */
  function MirrorSum(keys: seq<nat>, ds: seq<Draw>, p: nat, mirrorOf: map<nat, nat>): nat {
    if keys == [] then 0
    else
      var v := keys[|keys| - 1];
      MirrorSum(keys[..|keys| - 1], ds, p, mirrorOf)
      + if v in mirrorOf && mirrorOf[v] == p then VariantUnits(ds, v) else 0
  }

  lemma {:induction false} MirrorSumOneMore(keys: seq<nat>, ds: seq<Draw>, d: Draw, p: nat, mirrorOf: map<nat, nat>)
    ensures MirrorSum(keys, ds + [d], p, mirrorOf) == MirrorSum(keys, ds, p, mirrorOf)
        + MirrorSum(keys, [d], p, mirrorOf)
  {
    if keys != [] {
      MirrorSumOneMore(keys[..|keys| - 1], ds, d, p, mirrorOf);
      OneMoreDraw(ds, d);
      OneMoreDraw([], d);
      assert [] + [d] == [d];
    }
  }

  lemma {:induction false} MirrorSumOfOne(keys: seq<nat>, d: Draw, p: nat, mirrorOf: map<nat, nat>)
    requires Distinct(keys)
    ensures MirrorSum(keys, [d], p, mirrorOf)
         == if d.VariantDraw? && d.variant in keys then MirrorUnitsOf(d, p, mirrorOf) else 0
  {
    if keys != [] {
      var n := |keys| - 1;
      MirrorSumOfOne(keys[..n], d, p, mirrorOf);
      OneMoreDraw([], d);
      assert [] + [d] == [d];
      assert forall v :: v in keys <==> v in keys[..n] || v == keys[n];
      assert keys[n] !in keys[..n];
    }
  }

  lemma {:induction false} MirrorSumOfNone(keys: seq<nat>, p: nat, mirrorOf: map<nat, nat>)
    ensures MirrorSum(keys, [], p, mirrorOf) == 0
  {
    if keys != [] {
      MirrorSumOfNone(keys[..|keys| - 1], p, mirrorOf);
    }
  }

  predicate Names(keys: seq<nat>, ds: seq<Draw>) {
    forall k :: 0 <= k < |ds| && ds[k].VariantDraw? && ds[k].units > 0 ==> ds[k].variant in keys
  }

  /** Crediting mirrors size by size amounts to crediting them draw by draw. */
  lemma {:induction false} MirrorsAddUp(keys: seq<nat>, ds: seq<Draw>, p: nat, mirrorOf: map<nat, nat>)
    requires Distinct(keys) && Names(keys, ds)
    ensures MirrorSum(keys, ds, p, mirrorOf) == MirrorUnits(ds, p, mirrorOf)
  {
    if ds == [] {
      MirrorSumOfNone(keys, p, mirrorOf);
    } else {
      var n := |ds| - 1;
      MirrorsAddUp(keys, ds[..n], p, mirrorOf);
      MirrorSumOneMore(keys, ds[..n], ds[n], p, mirrorOf);
      MirrorSumOfOne(keys, ds[n], p, mirrorOf);
      assert ds[..n] + [ds[n]] == ds;
    }
  }

  lemma {:induction false} DrawWithin(ds: seq<Draw>, k: nat)
    requires k < |ds| && ds[k].VariantDraw?
    ensures VariantUnits(ds, ds[k].variant) >= ds[k].units
  {
    if k < |ds| - 1 {
      DrawWithin(ds[..|ds| - 1], k);
    }
  }

  lemma CountedNames(u: Updates, ds: seq<Draw>)
    requires CountsVariants(u, ds)
    ensures Names(u.keys, ds)
  {
    forall k | 0 <= k < |ds| && ds[k].VariantDraw? && ds[k].units > 0 ensures ds[k].variant in u.keys {
      DrawWithin(ds, k);
      assert Got(u, ds[k].variant) > 0;
    }
  }

  // ----- Filling the dictionaries -----

  /** The recorded composition of one combo line. */
  method AddComponents(start: Updates, rows: seq<Component>, ghost other: Updates, ghost ds: seq<Draw>)
    returns (u: Updates)
    requires CountsVariants(start, ds) && CountsProducts(other, ds)
    ensures CountsVariants(u, ds + ComponentDraws(rows)) && CountsProducts(other, ds + ComponentDraws(rows))
  {
    u := start;
    ghost var all := ComponentDraws(rows);
    assert ds + all[..0] == ds;
    for k := 0 to |rows|
      invariant CountsVariants(u, ds + all[..k]) && CountsProducts(other, ds + all[..k])
    {
      BumpVariant(u, other, ds + all[..k], rows[k].variant, rows[k].units);
      assert ds + all[..k + 1] == ds + all[..k] + [VariantDraw(rows[k].variant, rows[k].units)];
      u := Bump(u, rows[k].variant, rows[k].units);
    }
    assert all[..|rows|] == all;
  }

  /** The recipe of one combo line. */
  method AddRecipe(start: Updates, recipe: seq<RecipeRow>, quantity: nat, ghost other: Updates, ghost ds: seq<Draw>)
    returns (u: Updates)
    requires CountsVariants(start, ds) && CountsProducts(other, ds)
    ensures CountsVariants(u, ds + RecipeDraws(recipe, quantity))
        && CountsProducts(other, ds + RecipeDraws(recipe, quantity))
  {
    u := start;
    ghost var all := RecipeDraws(recipe, quantity);
    assert ds + all[..0] == ds;
    for k := 0 to |recipe|
      invariant CountsVariants(u, ds + all[..k]) && CountsProducts(other, ds + all[..k])
    {
      var units := recipe[k].perCombo * quantity;
      BumpVariant(u, other, ds + all[..k], recipe[k].variant, units);
      assert ds + all[..k + 1] == ds + all[..k] + [VariantDraw(recipe[k].variant, units)];
      u := Bump(u, recipe[k].variant, units);
    }
    assert all[..|recipe|] == all;
  }

  /** What an order's lines give back. */
  method CollectRestores(items: seq<OrderItem>, recipes: map<nat, seq<RecipeRow>>)
    returns (variants: Updates, products: Updates)
    ensures CountsVariants(variants, Restores(items, recipes)) && CountsProducts(products, Restores(items, recipes))
  {
    variants, products := Updates([], map[]), Updates([], map[]);
    for k := 0 to |items|
      invariant CountsVariants(variants, Restores(items[..k], recipes))
          && CountsProducts(products, Restores(items[..k], recipes))
    {
      assert items[..k + 1][..k] == items[..k];
      ghost var ds := Restores(items[..k], recipes);
      var item := items[k];
      match item.bought {
        case BoughtVariant(_, v) =>
          BumpVariant(variants, products, ds, v, item.quantity);
          variants := Bump(variants, v, item.quantity);
        case BoughtProduct(p) =>
          BumpProduct(variants, products, ds, p, item.quantity);
          products := Bump(products, p, item.quantity);
        case BoughtCombo(c) =>
          if item.components != [] {
            variants := AddComponents(variants, item.components, products, ds);
          } else if c in recipes {
            variants := AddRecipe(variants, recipes[c], item.quantity, products, ds);
          } else {
            assert ItemRestores(item, recipes) == [];
            assert ds + [] == ds;
          }
      }
    }
    assert items[..|items|] == items;
  }

  /** What a cart takes. */
  method CollectDraws(cart: seq<CartLine>) returns (variants: Updates, products: Updates)
    ensures CountsVariants(variants, CartDraws(cart)) && CountsProducts(products, CartDraws(cart))
  {
    variants, products := Updates([], map[]), Updates([], map[]);
    for k := 0 to |cart|
      invariant CountsVariants(variants, CartDraws(cart[..k])) && CountsProducts(products, CartDraws(cart[..k]))
    {
      assert cart[..k + 1][..k] == cart[..k];
      ghost var ds := CartDraws(cart[..k]);
      match cart[k] {
        case ProductLine(p, v, _, q, _, _) =>
          if v.Some? {
            BumpVariant(variants, products, ds, v.value, q);
            variants := Bump(variants, v.value, q);
          } else {
            BumpProduct(variants, products, ds, p, q);
            products := Bump(products, p, q);
          }
        case ComboLine(_, _, q, recipe, _) =>
          variants := AddRecipe(variants, recipe, q, products, ds);
      }
    }
    assert cart[..|cart|] == cart;
  }
}
