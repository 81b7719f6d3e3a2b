/** Exact paise arithmetic: the two rounding modes of the decimal library, and sums. */
module Money {

  /** `n / d` to the nearest integer, ties away from zero. */
  function HalfUp(n: int, d: int): (r: int)
    requires d > 0
    ensures n >= 0 ==> -d <= 2 * n - 2 * (d * r) < d
    ensures n < 0 ==> -d < 2 * n - 2 * (d * r) <= d
    ensures n >= 0 ==> r >= 0
  {
    if n >= 0 then HalfUpMagnitude(n, d) as int
    else
      var m: int := HalfUpMagnitude(-n, d);
      MulNegate(d, m);
      -m
  }

  function HalfUpMagnitude(n: nat, d: int): (r: nat)
    requires d > 0
    ensures -d <= 2 * n - 2 * (d * r) < d
  {
    var r := (2 * n + d) / (2 * d);
    DivisionBounds(2 * n + d, 2 * d);
    assert (2 * d) * r == 2 * (d * r);
    r
  }

  /** `n / d` to the nearest integer, ties to the even neighbour. */
  function HalfEven(n: int, d: int): (r: int)
    requires d > 0
    ensures -d <= 2 * n - 2 * (d * r) <= d
    ensures 2 * n - 2 * (d * r) == d || 2 * n - 2 * (d * r) == -d ==> r % 2 == 0
    ensures n >= 0 ==> r >= 0
  {
    var q := n / d;
    DivisionBounds(n, d);
    MulSuccessor(d, q);
    var rest := n - d * q;
    if 2 * rest < d || (2 * rest == d && q % 2 == 0) then q else q + 1
  }

  lemma DivisionBounds(x: int, y: int)
    requires y > 0
    ensures y * (x / y) <= x < y * (x / y) + y
    ensures x >= 0 ==> x / y >= 0
  {
    assert x == y * (x / y) + x % y;
  }

  lemma MulNegate(d: int, m: int)
    ensures d * -m == -(d * m)
  {
  }

  lemma MulSuccessor(d: int, q: int)
    ensures d * (q + 1) == d * q + d
  {
  }

  lemma MulMonotone(k: int, a: int, b: int)
    requires k >= 0 && a <= b
    ensures k * a <= k * b
  {
  }

  /** Distinct multiples of d are at least d apart. */
  lemma MultiplesApart(d: int, r: int, s: int)
    requires d > 0
    ensures r < s ==> d * r + d <= d * s
  {
    if r < s {
      MulMonotone(d, r + 1, s);
      MulSuccessor(d, r);
    }
  }

  /** A rounded value is pinned down by lying within half a unit of the exact one. */
  lemma HalfUpIs(n: int, d: int, r: int)
    requires d > 0 && n >= 0 && -d <= 2 * n - 2 * (d * r) < d
    ensures HalfUp(n, d) == r
  {
    MultiplesApart(d, r, HalfUp(n, d));
    MultiplesApart(d, HalfUp(n, d), r);
  }

  /** A whole number of units is never moved by either mode. */
  lemma WholeUnitsStay(k: int, d: int)
    requires d > 0
    ensures HalfUp(d * k, d) == k && HalfEven(d * k, d) == k
  {
    MultiplesApart(d, k, HalfUp(d * k, d));
    MultiplesApart(d, HalfUp(d * k, d), k);
    MultiplesApart(d, k, HalfEven(d * k, d));
    MultiplesApart(d, HalfEven(d * k, d), k);
  }

  lemma HalfUpMonotone(m: int, n: int, d: int)
    requires d > 0 && 0 <= m <= n
    ensures HalfUp(m, d) <= HalfUp(n, d)
  {
    MultiplesApart(d, HalfUp(n, d), HalfUp(m, d));
  }

  /** Rounding half up never passes a whole number that the exact value does not pass. */
  lemma HalfUpAtMost(n: int, d: int, k: int)
    requires d > 0 && 0 <= n <= d * k
    ensures HalfUp(n, d) <= k
  {
    MultiplesApart(d, k, HalfUp(n, d));
  }

  lemma HalfEvenAtMost(n: int, d: int, k: int)
    requires d > 0 && n <= d * k
    ensures HalfEven(n, d) <= k
  {
    MultiplesApart(d, k, HalfEven(n, d));
  }

  function Min(a: int, b: int): int { if a <= b then a else b }

  function Max(a: int, b: int): int { if a >= b then a else b }

  function Sum(s: seq<int>): int {
    if s == [] then 0 else Sum(s[..|s| - 1]) + s[|s| - 1]
  }

  lemma {:induction false} SumConcat(a: seq<int>, b: seq<int>)
    ensures Sum(a + b) == Sum(a) + Sum(b)
  {
    if b == [] {
      assert a + b == a;
    } else {
      SumConcat(a, b[..|b| - 1]);
      assert (a + b)[..|a + b| - 1] == a + b[..|b| - 1];
    }
  }

  /** Changing one entry moves the sum by exactly the change. */
  lemma {:induction false} SumUpdate(s: seq<int>, i: nat, x: int)
    requires i < |s|
    ensures Sum(s[i := x]) == Sum(s) - s[i] + x
  {
    var n := |s| - 1;
    if i == n {
      assert s[i := x][..n] == s[..n];
    } else {
      SumUpdate(s[..n], i, x);
      assert s[i := x][..n] == s[..n][i := x];
    }
  }

  lemma {:induction false} SumNonNegative(s: seq<int>)
    requires forall i :: 0 <= i < |s| ==> s[i] >= 0
    ensures Sum(s) >= 0
    ensures forall i :: 0 <= i < |s| ==> s[i] <= Sum(s)
  {
    if s != [] {
      SumNonNegative(s[..|s| - 1]);
    }
  }

  lemma Distribute(k: int, a: int, b: int)
    ensures k * (a + b) == k * a + k * b
  {
  }

  /** The sum of `k * s[i]` is `k` times the sum. */
  lemma {:induction false} SumScaled(s: seq<int>, k: int, t: seq<int>)
    requires |t| == |s|
    requires forall i :: 0 <= i < |s| ==> t[i] == k * s[i]
    ensures Sum(t) == k * Sum(s)
  {
    if s != [] {
      var n := |s| - 1;
      SumScaled(s[..n], k, t[..n]);
      Distribute(k, Sum(s[..n]), s[n]);
    }
  }

  /** Sums agree when entries agree up to an error, and the errors then add up. */
  lemma {:induction false} SumDifference(a: seq<int>, b: seq<int>, e: seq<int>)
    requires |a| == |b| == |e|
    requires forall i :: 0 <= i < |a| ==> e[i] == a[i] - b[i]
    ensures Sum(e) == Sum(a) - Sum(b)
  {
    if a != [] {
      var n := |a| - 1;
      SumDifference(a[..n], b[..n], e[..n]);
    }
  }

  lemma {:induction false} SumMonotone(a: seq<int>, b: seq<int>)
    requires |a| == |b| && forall i :: 0 <= i < |a| ==> a[i] <= b[i]
    ensures Sum(a) <= Sum(b)
  {
    if a != [] {
      var n := |a| - 1;
      SumMonotone(a[..n], b[..n]);
    }
  }

  /** Entrywise bounds add up. */
  lemma {:induction false} SumBounded(e: seq<int>, d: seq<int>)
    requires |e| == |d|
    requires forall i :: 0 <= i < |e| ==> -d[i] <= e[i] <= d[i]
    ensures -Sum(d) <= Sum(e) <= Sum(d)
  {
    if e != [] {
      var n := |e| - 1;
      SumBounded(e[..n], d[..n]);
    }
  }

  lemma {:induction false} SumConstant(n: nat, d: int)
    ensures Sum(seq(n, i => d)) == d * n
  {
    if n > 0 {
      SumConstant(n - 1, d);
      assert seq(n, i => d)[..n - 1] == seq(n - 1, i => d);
      MulSuccessor(d, n - 1);
    }
  }
}
