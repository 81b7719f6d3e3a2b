/** Shared money helpers: GST inside and on top of a price, the combo split, the
    per-slab breakup of a placed order, and the GST contained in a refund. */
module Pricing {
  import opened Money
  import opened Orders
  import opened Apportionment
  import opened Buckets

  // ----- GST on top of, and inside, an amount -----

  /** GST payable on top of a net amount. */
  function AddTax(net: int, rate: int): (t: int)
    ensures t >= 0
    ensures net <= 0 || rate <= 0 ==> t == 0
    ensures net > 0 && rate > 0 ==> -10000 <= 2 * (net * rate) - 2 * (10000 * t) < 10000
  {
    if net <= 0 || rate <= 0 then 0
    else
      MulMonotone(net, 0, rate);
      HalfUp(net * rate, 10000)
  }

  /** GST contained within a gross amount. */
  function ExtractTax(gross: int, rate: int): (t: int)
    ensures t >= 0
    ensures gross <= 0 || rate <= 0 ==> t == 0
    ensures gross > 0 && rate > 0 ==>
      -(10000 + rate) <= 2 * (gross * rate) - 2 * ((10000 + rate) * t) < 10000 + rate
  {
    if gross <= 0 || rate <= 0 then 0
    else
      MulMonotone(gross, 0, rate);
      HalfUp(gross * rate, 10000 + rate)
  }

  /** The tax charged on top of a net fee is exactly what is later extracted from fee plus tax. */
  lemma TaxOnTopIsRecovered(net: int, rate: int)
    ensures ExtractTax(net + AddTax(net, rate), rate) == AddTax(net, rate)
  {
    if net > 0 && rate > 0 {
      var t := AddTax(net, rate);
      Distribute(rate, net, t);
      Distribute(t, 10000, rate);
      MulMonotone(net + t, 0, rate);
      assert 2 * ((net + t) * rate) - 2 * ((10000 + rate) * t) == 2 * (net * rate) - 2 * (10000 * t);
      HalfUpIs((net + t) * rate, 10000 + rate, t);
    }
  }

  /** The tax inside a price never exceeds the price. */
  lemma ExtractedAtMostGross(gross: int, rate: int)
    requires gross >= 0
    ensures ExtractTax(gross, rate) <= gross
  {
    if gross > 0 && rate > 0 {
      Distribute(gross, 10000, rate);
      MulMonotone(gross, 0, rate);
      HalfUpAtMost(gross * rate, 10000 + rate, gross);
    }
  }

  /** The single rate reported for a mixed combo line (display only). */
  function BlendedRate(gross: int, tax: int): (r: int)
    ensures tax == 0 || gross <= tax ==> r == 0
    ensures gross > tax >= 0 ==> -(gross - tax) <= 2 * (tax * 10000) - 2 * ((gross - tax) * r) < gross - tax
  {
    if gross - tax <= 0 then 0
    else
      if tax == 0 then (HalfUpIs(0, gross - tax, 0); HalfUp(tax * 10000, gross - tax))
      else HalfUp(tax * 10000, gross - tax)
  }

  // ----- The combo split -----

  /** MRP weights of a recipe, or equal weights when everything is priced at zero. */
  function ComboWeights(recipe: seq<RecipeRow>): (w: seq<nat>)
    requires recipe != []
    ensures |w| == |recipe|
    ensures Sum(w) > 0
  {
    var mrp := seq(|recipe|, i requires 0 <= i < |recipe| => recipe[i].price * recipe[i].perCombo);
    if Sum(mrp) > 0 then mrp
    else
      SumConstant(|recipe|, 1);
      var even: seq<nat> := seq(|recipe|, i => 1);
      assert even == seq(|recipe|, i => 1);
      even
  }

  /** The amounts a positive line amount is split into. */
  function ComboAmounts(recipe: seq<RecipeRow>, amount: nat): (a: seq<int>)
    requires recipe != []
    ensures |a| == |recipe|
  {
    var w := ComboWeights(recipe);
    FixResidual(Shares(w, amount, Sum(w)), FirstLargest(w), amount)
  }

  function ComboComponents(recipe: seq<RecipeRow>, amount: int, quantity: nat): (rows: seq<Component>)
    ensures |rows| == if recipe == [] || amount <= 0 then 0 else |recipe|
    ensures forall i :: 0 <= i < |rows| ==> rows[i].tax == ExtractTax(rows[i].amount, rows[i].rate)
  {
    if recipe == [] || amount <= 0 then []
    else
      var a := ComboAmounts(recipe, amount);
      seq(|recipe|, i requires 0 <= i < |recipe| => ComponentRow(recipe[i], a[i], quantity))
  }

  function ComponentRow(r: RecipeRow, amount: int, quantity: nat): Component {
    Component(r.variant, r.perCombo * quantity, r.rate, r.hsn, amount, ExtractTax(amount, r.rate))
  }

  function Amounts(rows: seq<Component>): (s: seq<int>)
    ensures |s| == |rows|
  {
    seq(|rows|, i requires 0 <= i < |rows| => rows[i].amount)
  }

  function ComponentTaxes(rows: seq<Component>): (s: seq<int>)
    ensures |s| == |rows|
  {
    seq(|rows|, i requires 0 <= i < |rows| => rows[i].tax)
  }

  /** Combo allocation: the parts sum to the line exactly; every part but the largest is within
      half a paisa of its exact share and the largest within (n-1)/2; and no part is negative
      once the line reaches n(n-1)/2 paise. The even-split fallback obeys the same contract. */
  lemma ComboSplitIsExact(recipe: seq<RecipeRow>, amount: int, quantity: nat)
    requires recipe != [] && amount > 0
    ensures var rows, w := ComboComponents(recipe, amount, quantity), ComboWeights(recipe);
      var n, b, whole := |recipe|, FirstLargest(w), Sum(w);
      && Sum(Amounts(rows)) == amount
      && (forall i :: 0 <= i < n && i != b ==> -whole <= (2 * amount) * w[i] - (2 * whole) * rows[i].amount <= whole)
      && -(whole * (n - 1)) <= (2 * amount) * w[b] - (2 * whole) * rows[b].amount <= whole * (n - 1)
      && (forall i :: 0 <= i < n && i != b ==> rows[i].amount >= 0)
      && (2 * amount >= n * (n - 1) ==> rows[b].amount >= 0)
  {
    var rows, w := ComboComponents(recipe, amount, quantity), ComboWeights(recipe);
    var b, whole := FirstLargest(w), Sum(w);
    var s := Shares(w, amount, whole);
    assert Amounts(rows) == FixResidual(s, b, amount);
    FixedSumsToTotal(s, b, amount);
    PatchedError(w, amount, whole, b);
    if 2 * amount >= |recipe| * (|recipe| - 1) {
      PatchedNonNegative(w, amount, whole, b);
    }
    forall i | 0 <= i < |recipe| && i != b
      ensures -whole <= (2 * amount) * w[i] - (2 * whole) * rows[i].amount <= whole && rows[i].amount >= 0
    {
      ShareError(amount, w[i], whole);
      MulMonotone(amount, 0, w[i]);
    }
  }

  lemma HalfUpScales(a: nat, d: int, k: int)
    requires d > 0 && k > 0
    ensures d * k > 0 && HalfUp(a * k, d * k) == HalfUp(a, d)
  {
    MulMonotone(k, 1, d);
    MulMonotone(a, 0, k);
    HalfUpScaled(a, d, k, HalfUp(a, d), a * k, d * k);
  }

  lemma HalfUpScaled(a: nat, d: int, k: int, r: int, ak: nat, dk: int)
    requires d > 0 && k > 0 && dk > 0 && ak == a * k && dk == d * k && -d <= 2 * a - 2 * (d * r) < d
    ensures HalfUp(ak, dk) == r
  {
    ScaledBounds(2 * a - 2 * (d * r), d, k);
    Rescale(a, d, r, k);
    HalfUpIs(ak, dk, r);
  }

  lemma Rescale(a: int, d: int, r: int, k: int)
    ensures 2 * (a * k) - 2 * ((d * k) * r) == (2 * a - 2 * (d * r)) * k
  {
    assert (d * k) * r == (d * r) * k;
  }

  lemma ScaledBounds(x: int, d: int, k: int)
    requires -d <= x < d && k > 0
    ensures -(d * k) <= x * k < d * k
  {
    MulMonotone(k, -d, x);
    MulMonotone(k, x + 1, d);
  }

  lemma EqualShares(w: seq<nat>, amount: nat, k: nat)
    requires w != [] && Sum(w) > 0 && forall i :: 0 <= i < |w| ==> w[i] == k
    ensures Shares(w, amount, Sum(w)) == seq(|w|, i => HalfUp(amount, |w|))
    ensures Sum(Shares(w, amount, Sum(w))) == HalfUp(amount, |w|) * |w|
  {
    var n, h := |w|, HalfUp(amount, |w|);
    EqualSum(w, k);
    HalfUpScales(amount, n, k);
    SharesOf(w, amount, n * k, k, h);
    SumConstant(n, h);
  }

  lemma EqualSum(w: seq<nat>, k: nat)
    requires forall i :: 0 <= i < |w| ==> w[i] == k
    ensures Sum(w) == |w| * k
  {
    assert w == seq(|w|, i => k);
    SumConstant(|w|, k);
  }

  lemma SharesOf(w: seq<nat>, amount: nat, whole: int, k: nat, h: int)
    requires whole > 0 && h == HalfUp(amount * k, whole) && forall i :: 0 <= i < |w| ==> w[i] == k
    ensures Shares(w, amount, whole) == seq(|w|, i => h)
  {
  }

  /** For equally weighted components the exact condition: no part is negative just when the other n-1
      rounded shares leave the first one something, that is, fit in the line. */
  lemma EqualComboSignExactly(recipe: seq<RecipeRow>, amount: nat)
    requires recipe != [] && forall i :: 0 <= i < |recipe| ==> ComboWeights(recipe)[i] == ComboWeights(recipe)[0]
    ensures var n := |recipe|;
      (forall i :: 0 <= i < n ==> ComboAmounts(recipe, amount)[i] >= 0) <==> (n - 1) * HalfUp(amount, n) <= amount
  {
    var w, n := ComboWeights(recipe), |recipe|;
    var h := HalfUp(amount, n);
    EqualShares(w, amount, w[0]);
    EqualParts(n, h, amount, Shares(w, amount, Sum(w)), ComboAmounts(recipe, amount));
  }

  lemma EqualParts(n: nat, h: nat, amount: nat, shares: seq<int>, parts: seq<int>)
    requires n > 0 && shares == seq(n, i => h) && Sum(shares) == h * n && parts == FixResidual(shares, 0, amount)
    ensures (forall i :: 0 <= i < n ==> parts[i] >= 0) <==> (n - 1) * h <= amount
  {
    assert parts[0] == h + (amount - h * n);
    assert (n - 1) * h == h * n - h;
    assert forall i :: 1 <= i < n ==> parts[i] == h;
  }

  lemma SumOfFour(x: int)
    ensures Sum([x, x, x, x]) == 4 * x
  {
    assert [x][..0] == [] && [x, x][..1] == [x] && [x, x, x][..2] == [x, x] && [x, x, x, x][..3] == [x, x, x];
    assert Sum([x]) == x;
    assert Sum([x, x]) == 2 * x;
    assert Sum([x, x, x]) == 3 * x;
  }

  lemma FourEqualWeights(recipe: seq<RecipeRow>, w: seq<nat>)
    requires |recipe| == 4 && w == [1, 1, 1, 1]
    requires forall i :: 0 <= i < 4 ==> recipe[i].price == 1 && recipe[i].perCombo == 1
    ensures ComboWeights(recipe) == w && Sum(w) == 4
  {
    SumOfFour(1);
    assert seq(|recipe|, i requires 0 <= i < |recipe| => recipe[i].price * recipe[i].perCombo) == w;
  }

  /** The bound is needed: two paise over four equal components leave the first one at minus one paisa. */
  lemma TinyComboGoesNegative()
    ensures var r := RecipeRow(0, 1, 1, 500, "");
      ComboAmounts([r, r, r, r], 2) == [-1, 1, 1, 1]
  {
    var r, w := RecipeRow(0, 1, 1, 500, ""), [1, 1, 1, 1];
    FourEqualWeights([r, r, r, r], w);
    SumOfFour(1);
    HalfUpIs(2, 4, 1);
    assert Shares(w, 2, 4) == w;
    assert FirstLargest(w) == 0;
    assert FixResidual(w, 0, 2) == [-1, 1, 1, 1];
  }

  method RoundShares(weights: seq<nat>, amount: nat, totalWeight: int) returns (allocations: seq<int>)
    requires totalWeight > 0
    ensures allocations == Shares(weights, amount, totalWeight)
  {
    allocations := [];
    for i := 0 to |weights|
      invariant allocations == Shares(weights, amount, totalWeight)[..i]
    {
      allocations := allocations + [HalfUp(amount * weights[i], totalWeight)];
    }
  }

  method AllocateComboComponents(recipe: seq<RecipeRow>, amount: int, quantity: nat) returns (rows: seq<Component>)
    ensures rows == ComboComponents(recipe, amount, quantity)
  {
    rows := [];
    if recipe == [] || amount <= 0 {
      return;
    }
    var allocations := ComboAllocations(recipe, amount);
    ghost var all := ComboComponents(recipe, amount, quantity);
    for i := 0 to |recipe|
      invariant rows == all[..i]
    {
      NextComponent(recipe, amount, quantity, all, i);
      rows := rows + [ComponentRow(recipe[i], allocations[i], quantity)];
    }
  }

  lemma NextComponent(recipe: seq<RecipeRow>, amount: nat, quantity: nat, all: seq<Component>, i: nat)
    requires i < |recipe| && amount > 0 && all == ComboComponents(recipe, amount, quantity)
    ensures |all| == |recipe|
    ensures all[..i + 1] == all[..i] + [ComponentRow(recipe[i], ComboAmounts(recipe, amount)[i], quantity)]
  {
  }

  /** Rounded shares, with the residual handed to the first largest weight. */
  method ComboAllocations(recipe: seq<RecipeRow>, amount: nat) returns (allocations: seq<int>)
    requires recipe != []
    ensures allocations == ComboAmounts(recipe, amount)
  {
    var weights := ComboWeights(recipe);
    allocations := RoundShares(weights, amount, Sum(weights));
    var residual := amount - Sum(allocations);
    if residual != 0 {
      var biggest := FirstLargest(weights);
      allocations := allocations[biggest := allocations[biggest] + residual];
    }
  }

  // ----- Slab rows -----

  datatype TaxLine = TaxLine(gross: int, rate: int)

  /** One row of a GST breakup; rate None is tax no line can explain. */
  datatype Row = Row(rate: Option<int>, taxable: Option<int>, tax: int)

  function SlabEntry(line: TaxLine): Entry<int> {
    Entry(line.rate, Tally(0, line.gross, ExtractTax(line.gross, line.rate), 0, 0, 0))
  }

  function SlabEntries(lines: seq<TaxLine>): (s: seq<Entry<int>>)
    ensures |s| == |lines|
  {
    seq(|lines|, i requires 0 <= i < |lines| => SlabEntry(lines[i]))
  }

  function SlabRow(rate: int, t: Tally): Row {
    Row(Some(rate), Some(t.value - t.tax), t.tax)
  }

  function RowsFor(keys: seq<int>, entries: seq<Entry<int>>): (rows: seq<Row>)
    ensures |rows| == |keys|
  {
    seq(|keys|, i requires 0 <= i < |keys| => SlabRow(keys[i], TotalAt(entries, keys[i])))
  }

  /** The breakup of `lines`: one row per rate, cheapest slab first. */
  function SlabRows(lines: seq<TaxLine>): (rows: seq<Row>) {
    var entries := SlabEntries(lines);
    RowsFor(SortedKeys(entries), entries)
  }

  function Taxes(rows: seq<Row>): (s: seq<int>)
    ensures |s| == |rows|
    ensures forall i :: 0 <= i < |s| ==> s[i] == rows[i].tax
  {
    seq(|rows|, i requires 0 <= i < |rows| => rows[i].tax)
  }

  lemma {:induction false} RowsForTax(keys: seq<int>, entries: seq<Entry<int>>)
    ensures Sum(Taxes(RowsFor(keys, entries))) == SumOver(keys, entries).tax
  {
    if keys != [] {
      var n := |keys| - 1;
      RowsForTax(keys[..n], entries);
      assert Taxes(RowsFor(keys, entries))[..n] == Taxes(RowsFor(keys[..n], entries));
    }
  }

  function ExtractedTaxes(lines: seq<TaxLine>): (s: seq<int>)
    ensures |s| == |lines|
  {
    seq(|lines|, i requires 0 <= i < |lines| => ExtractTax(lines[i].gross, lines[i].rate))
  }

  lemma {:induction false} EntriesTax(lines: seq<TaxLine>)
    ensures Total(SlabEntries(lines)).tax == Sum(ExtractedTaxes(lines))
  {
    if lines != [] {
      var n := |lines| - 1;
      EntriesTax(lines[..n]);
      assert SlabEntries(lines)[..n] == SlabEntries(lines[..n]);
      assert ExtractedTaxes(lines)[..n] == ExtractedTaxes(lines[..n]);
    }
  }

  lemma KeysCover(entries: seq<Entry<int>>)
    ensures Distinct(SortedKeys(entries))
    ensures forall e :: e in entries ==> e.key in SortedKeys(entries)
  {
    forall e | e in entries ensures e.key in SortedKeys(entries) {
      var i :| 0 <= i < |entries| && entries[i] == e;
      assert HasKey(entries, e.key);
    }
  }

  /** Grouping by rate keeps the tax: the rows sum to the line-by-line tax. */
  lemma SlabRowsKeepTax(lines: seq<TaxLine>)
    ensures Sum(Taxes(SlabRows(lines))) == Sum(ExtractedTaxes(lines))
  {
    var entries := SlabEntries(lines);
    RowsForTax(SortedKeys(entries), entries);
    KeysCover(entries);
    BucketsAddUp(SortedKeys(entries), entries);
    EntriesTax(lines);
  }

  lemma {:induction false} SlabTotalsNonNegative(lines: seq<TaxLine>, rate: int)
    ensures TotalAt(SlabEntries(lines), rate).tax >= 0
  {
    if lines != [] {
      var n := |lines| - 1;
      SlabTotalsNonNegative(lines[..n], rate);
      assert SlabEntries(lines)[..n] == SlabEntries(lines[..n]);
    }
  }

  lemma SlabRowsNonNegative(lines: seq<TaxLine>)
    ensures forall i :: 0 <= i < |SlabRows(lines)| ==> SlabRows(lines)[i].tax >= 0
  {
    forall i | 0 <= i < |SlabRows(lines)| ensures SlabRows(lines)[i].tax >= 0 {
      SlabTotalsNonNegative(lines, SortedKeys(SlabEntries(lines))[i]);
    }
  }

  method GroupTaxByRate(lines: seq<TaxLine>) returns (rows: seq<Row>)
    ensures rows == SlabRows(lines)
  {
    var buckets: map<int, Tally> := map[];
    var rates: seq<int> := [];
    ghost var entries := SlabEntries(lines);
    for i := 0 to |lines|
      invariant IsBucketing(buckets, entries[..i])
      invariant rates == SortedKeys(entries[..i])
    {
      SortedBucketStep(buckets, entries, i);
      buckets := Add(buckets, SlabEntry(lines[i]));
      rates := InsertKey(rates, lines[i].rate);
    }
    assert entries[..|lines|] == entries;
    rows := RowsOfBuckets(rates, buckets, entries);
  }

  method RowsOfBuckets(rates: seq<int>, buckets: map<int, Tally>, ghost entries: seq<Entry<int>>)
    returns (rows: seq<Row>)
    requires IsBucketing(buckets, entries) && forall i :: 0 <= i < |rates| ==> HasKey(entries, rates[i])
    ensures rows == RowsFor(rates, entries)
  {
    rows := [];
    for i := 0 to |rates|
      invariant rows == RowsFor(rates, entries)[..i]
    {
      rows := rows + [SlabRow(rates[i], buckets[rates[i]])];
    }
  }
}
