/** Combo recipes as stock sees them: the units of each size, and the order lines whose composition was
    never recorded and is read from the live recipe when they are restocked. */
module Recipes {
  import opened Orders
  import opened Shop
  import opened StockUpdates

  /** Units of a size in one combo. */
  function RecipeUnits(recipe: seq<RecipeRow>, v: nat): nat {
    if recipe == [] then 0
    else
      var last := recipe[|recipe| - 1];
      RecipeUnits(recipe[..|recipe| - 1], v) + if last.variant == v then last.perCombo else 0
  }

  /** Two recipes that differ at most in price, rate, code or the order of their rows. */
  ghost predicate SameRecipeUnits(a: seq<RecipeRow>, b: seq<RecipeRow>) {
    forall v: nat :: RecipeUnits(a, v) == RecipeUnits(b, v)
  }

  /** A combo line whose composition was not recorded at checkout. */
  predicate LiveLine(item: OrderItem) {
    item.bought.BoughtCombo? && item.components == []
  }

  /** How many of a combo an order bought on lines that never recorded its composition. */
  function LiveQuantity(items: seq<OrderItem>, combo: nat): nat {
    if items == [] then 0
    else
      var last := items[|items| - 1];
      LiveQuantity(items[..|items| - 1], combo)
      + if LiveLine(last) && last.bought.combo == combo then last.quantity else 0
  }

  lemma {:induction false} NoLiveLines(items: seq<OrderItem>, combo: nat)
    requires forall k :: 0 <= k < |items| ==> !LiveLine(items[k])
    ensures LiveQuantity(items, combo) == 0
  {
    if items != [] {
      NoLiveLines(items[..|items| - 1], combo);
    }
  }

  /** Draws that come to the same units of every size and every variant-less product. */
  ghost predicate SameUnits(a: seq<Draw>, b: seq<Draw>) {
    && (forall v: nat :: VariantUnits(a, v) == VariantUnits(b, v))
    && (forall p: nat :: HardUnits(a, p) == HardUnits(b, p))
  }

  lemma {:induction false} UnitsConcat(a: seq<Draw>, b: seq<Draw>, k: nat)
    ensures VariantUnits(a + b, k) == VariantUnits(a, k) + VariantUnits(b, k)
    ensures HardUnits(a + b, k) == HardUnits(a, k) + HardUnits(b, k)
  {
    if b == [] {
      assert a + b == a;
    } else {
      UnitsConcat(a, b[..|b| - 1], k);
      assert (a + b)[..|a + b| - 1] == a + b[..|b| - 1];
    }
  }

  lemma Times(q: int, a: int, b: int)
    ensures q * (a + b) == q * a + q * b
  {
  }

  lemma {:induction false} RecipeDrawUnits(recipe: seq<RecipeRow>, quantity: nat, k: nat)
    ensures VariantUnits(RecipeDraws(recipe, quantity), k) == quantity * RecipeUnits(recipe, k)
    ensures HardUnits(RecipeDraws(recipe, quantity), k) == 0
  {
    if recipe != [] {
      var n := |recipe| - 1;
      RecipeDrawUnits(recipe[..n], quantity, k);
      assert RecipeDraws(recipe, quantity)[..n] == RecipeDraws(recipe[..n], quantity);
      Times(quantity, RecipeUnits(recipe[..n], k), if recipe[n].variant == k then recipe[n].perCombo else 0);
    }
  }

  // ----- Display mirrors follow the sizes -----

  /** The sizes some draws name, once each. */
  function Variants(ds: seq<Draw>): (keys: seq<nat>)
    ensures Distinct(keys) && Names(keys, ds)
  {
    if ds == [] then []
    else
      var keys, last := Variants(ds[..|ds| - 1]), ds[|ds| - 1];
      NamesPrefix(keys, ds);
      if last.VariantDraw? && last.variant !in keys then keys + [last.variant] else keys
  }

  lemma NamesPrefix(keys: seq<nat>, ds: seq<Draw>)
    requires ds != [] && Names(keys, ds[..|ds| - 1])
    ensures forall k :: 0 <= k < |ds| - 1 && ds[k].VariantDraw? && ds[k].units > 0 ==> ds[k].variant in keys
  {
    assert forall k :: 0 <= k < |ds| - 1 ==> ds[..|ds| - 1][k] == ds[k];
  }

  lemma {:induction false} MirrorSumAgrees(keys: seq<nat>, a: seq<Draw>, b: seq<Draw>, p: nat, mirrorOf: map<nat, nat>)
    requires SameUnits(a, b)
    ensures MirrorSum(keys, a, p, mirrorOf) == MirrorSum(keys, b, p, mirrorOf)
  {
    if keys != [] {
      MirrorSumAgrees(keys[..|keys| - 1], a, b, p, mirrorOf);
    }
  }

  lemma MirrorsAgree(a: seq<Draw>, b: seq<Draw>, p: nat, mirrorOf: map<nat, nat>)
    requires SameUnits(a, b)
    ensures MirrorUnits(a, p, mirrorOf) == MirrorUnits(b, p, mirrorOf)
  {
    var keys := Variants(a + b);
    assert Names(keys, a) by {
      assert forall k :: 0 <= k < |a| ==> (a + b)[k] == a[k];
    }
    assert Names(keys, b) by {
      assert forall k :: 0 <= k < |b| ==> (a + b)[|a| + k] == b[k];
    }
    MirrorsAddUp(keys, a, p, mirrorOf);
    MirrorsAddUp(keys, b, p, mirrorOf);
    MirrorSumAgrees(keys, a, b, p, mirrorOf);
  }

  // ----- What a recipe edit does to a restock -----

  /** Units a line restocks of a size of which the combo holds `u`, if it reads the live recipe. */
  function LineUnits(item: OrderItem, combo: nat, u: nat): nat {
    if LiveLine(item) && item.bought.combo == combo then item.quantity * u else 0
  }

  function LinesUnits(items: seq<OrderItem>, combo: nat, u: nat): nat {
    if items == [] then 0 else LinesUnits(items[..|items| - 1], combo, u) + LineUnits(items[|items| - 1], combo, u)
  }

  lemma {:induction false} LinesUnitsAre(items: seq<OrderItem>, combo: nat, u: nat)
    ensures LinesUnits(items, combo, u) == LiveQuantity(items, combo) * u
  {
    if items != [] {
      var n := |items| - 1;
      LinesUnitsAre(items[..n], combo, u);
      Times(u, LiveQuantity(items[..n], combo), LiveQuantity(items, combo) - LiveQuantity(items[..n], combo));
    }
  }

  lemma ItemAfterEdit(item: OrderItem, recipes: map<nat, seq<RecipeRow>>, edited: map<nat, seq<RecipeRow>>, combo: nat,
                      before: nat, after: nat, k: nat)
    requires combo in edited && edited == recipes[combo := edited[combo]]
    requires before == RecipeUnits(LiveRecipe(recipes, combo), k) && after == RecipeUnits(edited[combo], k)
    ensures VariantUnits(ItemRestores(item, edited), k) + LineUnits(item, combo, before)
         == VariantUnits(ItemRestores(item, recipes), k) + LineUnits(item, combo, after)
    ensures HardUnits(ItemRestores(item, edited), k) == HardUnits(ItemRestores(item, recipes), k)
  {
    if LiveLine(item) && item.bought.combo == combo {
      RecipeDrawUnits(edited[combo], item.quantity, k);
      RecipeDrawUnits(LiveRecipe(recipes, combo), item.quantity, k);
    } else {
      assert ItemRestores(item, edited) == ItemRestores(item, recipes);
    }
  }

  lemma LastItemUnits(items: seq<OrderItem>, recipes: map<nat, seq<RecipeRow>>, k: nat)
    requires items != []
    ensures var n := |items| - 1;
      && VariantUnits(Restores(items, recipes), k)
         == VariantUnits(Restores(items[..n], recipes), k) + VariantUnits(ItemRestores(items[n], recipes), k)
      && HardUnits(Restores(items, recipes), k)
         == HardUnits(Restores(items[..n], recipes), k) + HardUnits(ItemRestores(items[n], recipes), k)
  {
    var n := |items| - 1;
    UnitsConcat(Restores(items[..n], recipes), ItemRestores(items[n], recipes), k);
  }

  lemma {:induction false} RestoresMove(
    items: seq<OrderItem>, recipes: map<nat, seq<RecipeRow>>, edited: map<nat, seq<RecipeRow>>, combo: nat,
    before: nat, after: nat, k: nat)
    requires combo in edited && edited == recipes[combo := edited[combo]]
    requires before == RecipeUnits(LiveRecipe(recipes, combo), k) && after == RecipeUnits(edited[combo], k)
    ensures VariantUnits(Restores(items, edited), k) + LinesUnits(items, combo, before)
         == VariantUnits(Restores(items, recipes), k) + LinesUnits(items, combo, after)
    ensures HardUnits(Restores(items, edited), k) == HardUnits(Restores(items, recipes), k)
  {
    if items != [] {
      var n := |items| - 1;
      RestoresMove(items[..n], recipes, edited, combo, before, after, k);
      ItemAfterEdit(items[n], recipes, edited, combo, before, after, k);
      LastItemUnits(items, recipes, k);
      LastItemUnits(items, edited, k);
    }
  }

  /** Editing a recipe moves what a later restock gives back of a size by the combos bought on unrecorded
      lines times the change in the recipe's units of that size. */
  lemma RestoresAfterEdit(
    items: seq<OrderItem>, recipes: map<nat, seq<RecipeRow>>, combo: nat, recipe: seq<RecipeRow>, k: nat)
    ensures var q := LiveQuantity(items, combo);
      VariantUnits(Restores(items, recipes[combo := recipe]), k) + q * RecipeUnits(LiveRecipe(recipes, combo), k)
      == VariantUnits(Restores(items, recipes), k) + q * RecipeUnits(recipe, k)
    ensures HardUnits(Restores(items, recipes[combo := recipe]), k) == HardUnits(Restores(items, recipes), k)
  {
    var before, after := RecipeUnits(LiveRecipe(recipes, combo), k), RecipeUnits(recipe, k);
    RestoresMove(items, recipes, recipes[combo := recipe], combo, before, after, k);
    LinesUnitsAre(items, combo, before);
    LinesUnitsAre(items, combo, after);
  }

  lemma SameProducts(q: int, a: int, b: int)
    ensures q * a == q * b <==> q == 0 || a == b
  {
    if q * a == q * b {
      Times(q, a, -b);
      assert q * (a - b) == 0;
    }
  }

  /** A recipe edit leaves a later restock's units alone exactly when the order has no unrecorded line of the
      combo or the two recipes use the same units of every size. */
  lemma RecipeEditKeepsRestores(items: seq<OrderItem>, recipes: map<nat, seq<RecipeRow>>, combo: nat,
                                recipe: seq<RecipeRow>)
    ensures SameUnits(Restores(items, recipes[combo := recipe]), Restores(items, recipes))
       <==> LiveQuantity(items, combo) == 0 || SameRecipeUnits(recipe, LiveRecipe(recipes, combo))
  {
    var q := LiveQuantity(items, combo);
    forall k: nat
      ensures VariantUnits(Restores(items, recipes[combo := recipe]), k) == VariantUnits(Restores(items, recipes), k)
         <==> q == 0 || RecipeUnits(recipe, k) == RecipeUnits(LiveRecipe(recipes, combo), k)
      ensures HardUnits(Restores(items, recipes[combo := recipe]), k) == HardUnits(Restores(items, recipes), k)
    {
      RestoresAfterEdit(items, recipes, combo, recipe, k);
      SameProducts(q, RecipeUnits(recipe, k), RecipeUnits(LiveRecipe(recipes, combo), k));
    }
  }
}
