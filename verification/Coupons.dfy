/** Coupon validity and the discount a coupon grants. */
module Coupons {
  import opened Money
  import opened Orders

  datatype Discount = Percent(percent: nat) | Fixed(amount: nat)

  datatype Coupon = Coupon(
    discount: Discount,
    active: bool,
    assignedTo: Option<nat>,
    validUntil: Option<int>,
    maxUsage: Option<nat>,
    usageCount: nat,
    minimum: int)

  datatype Refusal = Inactive | NotForAccount | Expired | UsedUp | BelowMinimum(shortfall: int)

  /** Why a coupon cannot be applied, checked in the order the customer is told. */
  function InvalidReason(c: Coupon, amount: int, user: nat, now: int): (r: Option<Refusal>)
    ensures r.None? <==>
      && c.active
      && (c.assignedTo.Some? ==> c.assignedTo.value == user)
      && (c.validUntil.Some? ==> now <= c.validUntil.value)
      && (c.maxUsage.Some? ==> c.usageCount < c.maxUsage.value)
      && c.minimum <= amount
    ensures r == Some(Inactive) <==> !c.active
    ensures r == Some(NotForAccount) <==> c.active && c.assignedTo.Some? && c.assignedTo.value != user
    ensures r == Some(Expired) <==>
      c.active && (c.assignedTo.Some? ==> c.assignedTo.value == user) && c.validUntil.Some? && c.validUntil.value < now
    ensures r == Some(UsedUp) ==> c.maxUsage.Some? && c.usageCount >= c.maxUsage.value
    ensures r.Some? && r.value.BelowMinimum? ==>
      0 < r.value.shortfall == c.minimum - amount && (c.maxUsage.Some? ==> c.usageCount < c.maxUsage.value)
  {
    if !c.active then Some(Inactive)
    else if c.assignedTo.Some? && c.assignedTo.value != user then Some(NotForAccount)
    else if c.validUntil.Some? && c.validUntil.value < now then Some(Expired)
    else if c.maxUsage.Some? && c.usageCount >= c.maxUsage.value then Some(UsedUp)
    else if amount < c.minimum then Some(BelowMinimum(c.minimum - amount))
    else None
  }

  /** The discount on `amount`: never negative and never more than the amount. */
  function DiscountFor(c: Coupon, amount: int): (d: int)
    ensures 0 <= d <= Max(amount, 0)
    ensures amount > 0 && c.discount.Fixed? ==> d == Min(c.discount.amount, amount)
    ensures amount > 0 && c.discount.Percent? && c.discount.percent <= 100 ==>
      -100 <= 2 * (amount * c.discount.percent) - 2 * (100 * d) <= 100
    ensures amount > 0 && c.discount.Percent? && c.discount.percent > 100 ==> d == amount
  {
    if amount <= 0 then 0
    else
      match c.discount
      case Fixed(off) => Min(off, amount)
      case Percent(p) =>
        MulMonotone(amount, 0, p);
        HalfEvenAtMost(Min(amount * p, 100 * amount), 100, amount);
        assert p <= 100 ==> amount * p <= 100 * amount by {
          if p <= 100 {
            MulMonotone(amount, p, 100);
          }
        }
        HalfEven(Min(amount * p, 100 * amount), 100)
  }
}
