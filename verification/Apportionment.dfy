/** Splitting a total in proportion to weights, paise-exact: every share is rounded
    half up and the rounding residual goes to one largest entry. The combo split,
    the refund credit note and the cancellation note all use this scheme. */
module Apportionment {
  import opened Money

  /** Each weight's share of `total`, rounded on its own. */
  function Shares(weights: seq<nat>, total: nat, whole: int): (s: seq<int>)
    requires whole > 0
    ensures |s| == |weights|
    ensures forall i :: 0 <= i < |s| ==> s[i] == HalfUp(total * weights[i], whole)
  {
    seq(|weights|, i requires 0 <= i < |weights| => HalfUp(total * weights[i], whole))
  }

  /** First index of a largest entry. */
  function FirstLargest(s: seq<int>): (b: nat)
    requires s != []
    ensures b < |s|
    ensures forall i :: 0 <= i < |s| ==> s[i] <= s[b]
    ensures forall i :: 0 <= i < b ==> s[i] < s[b]
  {
    if |s| == 1 then 0 else
      var n := |s| - 1;
      var c := FirstLargest(s[..n]);
      assert forall i :: 0 <= i < n ==> s[..n][i] == s[i];
      if s[c] < s[n] then n else c
  }

  /** Hands `total - Sum(shares)` to entry `b`. */
  function FixResidual(shares: seq<int>, b: nat, total: int): (r: seq<int>)
    requires b < |shares|
    ensures |r| == |shares|
  {
    shares[b := shares[b] + (total - Sum(shares))]
  }

  lemma FixedSumsToTotal(shares: seq<int>, b: nat, total: int)
    requires b < |shares|
    ensures Sum(FixResidual(shares, b, total)) == total
  {
    SumUpdate(shares, b, shares[b] + (total - Sum(shares)));
  }

  /** A largest weight is at least the average weight. */
  lemma {:induction false} LargestAtLeastAverage(weights: seq<int>, top: int)
    requires forall i :: 0 <= i < |weights| ==> weights[i] <= top
    ensures Sum(weights) <= |weights| * top
  {
    if weights != [] {
      LargestAtLeastAverage(weights[..|weights| - 1], top);
    }
  }

  /** The rounding errors of n shares add up to at most n/2 paise, either way. */
  lemma ErrorsAddUp(weights: seq<nat>, total: nat, whole: int)
    requires whole > 0
    ensures var drift := (2 * total) * Sum(weights) - (2 * whole) * Sum(Shares(weights, total, whole));
      -(whole * |weights|) <= drift <= whole * |weights|
  {
    var n, s := |weights|, Shares(weights, total, whole);
    var exact := seq(n, i requires 0 <= i < n => (2 * total) * weights[i]);
    var given := seq(n, i requires 0 <= i < n => (2 * whole) * s[i]);
    var errors := seq(n, i requires 0 <= i < n => exact[i] - given[i]);
    var bounds := seq(n, i => whole);
    SumScaled(weights, 2 * total, exact);
    SumScaled(s, 2 * whole, given);
    SumDifference(exact, given, errors);
    forall i | 0 <= i < n ensures -bounds[i] <= errors[i] <= bounds[i] {
      ShareError(total, weights[i], whole);
    }
    SumBounded(errors, bounds);
    SumConstant(n, whole);
  }

  lemma ShareError(total: nat, w: nat, whole: int)
    requires whole > 0
    ensures -whole <= (2 * total) * w - (2 * whole) * HalfUp(total * w, whole) <= whole
  {
    assert (2 * total) * w == 2 * (total * w);
    assert (2 * whole) * HalfUp(total * w, whole) == 2 * (whole * HalfUp(total * w, whole));
    MulMonotone(total, 0, w);
  }

  lemma Without(s: seq<int>, b: nat)
    requires b < |s|
    ensures Sum(s[..b] + s[b + 1..]) == Sum(s) - s[b]
  {
    assert s == s[..b + 1] + s[b + 1..];
    SumConcat(s[..b + 1], s[b + 1..]);
    assert s[..b + 1][..b] == s[..b];
    SumConcat(s[..b], s[b + 1..]);
  }

  lemma ErrorsNamed(weights: seq<nat>, total: nat, whole: int, n: int, x: int, y: int)
    requires whole > 0
    requires n == |weights| && x == Sum(weights) && y == Sum(Shares(weights, total, whole))
    ensures -(whole * n) <= (2 * total) * x - (2 * whole) * y <= whole * n
  {
    ErrorsAddUp(weights, total, whole);
  }

  lemma RestShares(weights: seq<nat>, total: nat, whole: int, b: nat)
    requires whole > 0 && b < |weights|
    ensures var s := Shares(weights, total, whole);
      s[..b] + s[b + 1..] == Shares(weights[..b] + weights[b + 1..], total, whole)
  {
  }

  lemma OthersError(weights: seq<nat>, total: nat, whole: int, b: nat, x: int, y: int)
    requires whole > 0 && b < |weights|
    requires x == Sum(weights) - weights[b]
    requires y == Sum(Shares(weights, total, whole)) - HalfUp(total * weights[b], whole)
    ensures -(whole * (|weights| - 1)) <= (2 * total) * x - (2 * whole) * y <= whole * (|weights| - 1)
  {
    RestShares(weights, total, whole, b);
    Without(weights, b);
    Without(Shares(weights, total, whole), b);
    ErrorsNamed(weights[..b] + weights[b + 1..], total, whole, |weights| - 1, x, y);
  }

  /** Patching entry b leaves it within (n-1)/2 paise of its exact share. */
  lemma PatchedError(weights: seq<nat>, total: nat, whole: int, b: nat)
    requires whole > 0 && b < |weights| && whole == Sum(weights)
    ensures var x := FixResidual(Shares(weights, total, whole), b, total)[b];
      -(whole * (|weights| - 1)) <= (2 * total) * weights[b] - (2 * whole) * x <= whole * (|weights| - 1)
  {
    var s := Shares(weights, total, whole);
    OthersError(weights, total, whole, b, whole - weights[b], Sum(s) - s[b]);
    PatchedArithmetic(total, whole, weights[b], Sum(s) - s[b]);
  }

  lemma PatchedArithmetic(total: int, whole: int, w: int, others: int)
    ensures (2 * total) * w - (2 * whole) * (total - others) == -((2 * total) * (whole - w) - (2 * whole) * others)
  {
  }

  /** The patched entry stays non-negative once the total reaches n(n-1)/2 paise. */
  lemma PatchedNonNegative(weights: seq<nat>, total: nat, whole: int, b: nat)
    requires whole > 0 && b < |weights| && whole == Sum(weights)
    requires forall i :: 0 <= i < |weights| ==> weights[i] <= weights[b]
    requires 2 * total >= |weights| * (|weights| - 1)
    ensures FixResidual(Shares(weights, total, whole), b, total)[b] >= 0
  {
    PatchedError(weights, total, whole, b);
    LargestAtLeastAverage(weights, weights[b]);
    SignFromError(|weights|, whole, weights[b], total, FixResidual(Shares(weights, total, whole), b, total)[b]);
  }

  lemma SignFromError(n: nat, whole: int, top: nat, total: nat, x: int)
    requires whole > 0 && n > 0 && whole <= n * top && 2 * total >= n * (n - 1)
    requires (2 * total) * top - (2 * whole) * x <= whole * (n - 1)
    ensures x >= 0
  {
    AverageBound(n, whole, top, total);
    SignOfProduct(whole, x);
  }

  lemma AverageBound(n: nat, whole: int, top: nat, total: nat)
    requires n > 0 && whole <= n * top && 2 * total >= n * (n - 1)
    ensures whole * (n - 1) <= (2 * total) * top
  {
    MulMonotone(n - 1, whole, n * top);
    MulMonotone(top, n * (n - 1), 2 * total);
    Regroup(n, top);
  }

  lemma Regroup(n: int, top: int)
    ensures (n - 1) * (n * top) == top * (n * (n - 1))
  {
  }

  lemma SignOfProduct(whole: int, x: int)
    requires whole > 0
    ensures whole * x >= 0 ==> x >= 0
  {
  }
}
