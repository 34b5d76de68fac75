/**
 * Cart-wide coupons: a percentage of the cart's original total, optionally
 * capped, granted once the total reaches a threshold.
 */
module CartWiseStrategy {
  import opened Wrappers
  import opened Carts
  import opened Coupons

  /** The tag this strategy registers under. */
  const Tag: CouponType := CartWise

  /** Applicable iff the original total reaches the threshold (equality counts). */
  predicate IsApplicable(total: real, c: Coupon)
    requires c.rules.CartWiseRules?
  {
    total >= c.rules.threshold
  }

  /** total × percentage / 100 before any cap. */
  function Uncapped(total: real, c: Coupon): real
    requires c.rules.CartWiseRules?
  {
    total * c.rules.discountPercentage / 100.0
  }

  /**
   * The discount: the uncapped amount, replaced by the cap when a cap is set
   * and the amount exceeds it. Applicability is not consulted.
   */
  function CalculateDiscount(total: real, c: Coupon): (d: real)
    requires c.rules.CartWiseRules?
    ensures c.rules.maxDiscountAmount.None? ==> d == Uncapped(total, c)
    ensures d <= Uncapped(total, c)
    ensures c.rules.maxDiscountAmount.Some? ==> d <= c.rules.maxDiscountAmount.value
    ensures d == Uncapped(total, c) || (c.rules.maxDiscountAmount.Some? && d == c.rules.maxDiscountAmount.value)
  {
    var discount := Uncapped(total, c);
    if c.rules.maxDiscountAmount.Some? && discount > c.rules.maxDiscountAmount.value then
      c.rules.maxDiscountAmount.value
    else
      discount
  }

  /** The cart after the discount: cart-level totals set, lines untouched. */
  function Applied(v: CartView, c: Coupon): CartView
    requires c.rules.CartWiseRules?
    requires v.totalOriginalPrice.Some?
  {
    var d := CalculateDiscount(v.totalOriginalPrice.value, c);
    v.(totalDiscount := Some(d), finalPrice := Some(v.totalOriginalPrice.value - d))
  }

  /** Sets the cart's discount and final price; does not check applicability. */
  method ApplyDiscount(cart: Cart, c: Coupon)
    requires c.rules.CartWiseRules?
    requires cart.totalOriginalPrice.Some?
    modifies cart
    ensures cart.View() == Applied(old(cart.View()), c)
  {
    var discount := CalculateDiscount(cart.totalOriginalPrice.value, c);
    cart.totalDiscount := Some(discount);
    cart.finalPrice := Some(cart.totalOriginalPrice.value - discount);
  }

  /**
   * After application the discount is the calculated one, the final price is
   * the original total less it, and the lines and the original total are as
   * before.
   */
  lemma AppliedTotals(v: CartView, c: Coupon)
    requires c.rules.CartWiseRules?
    requires v.totalOriginalPrice.Some?
    ensures var w := Applied(v, c);
      && w.items == v.items
      && w.totalOriginalPrice == v.totalOriginalPrice
      && w.totalDiscount == Some(CalculateDiscount(v.totalOriginalPrice.value, c))
      && w.finalPrice == Some(v.totalOriginalPrice.value - w.totalDiscount.value)
  {
  }

  /** Raising the total never makes an applicable coupon inapplicable. */
  lemma ApplicableMonotone(total: real, larger: real, c: Coupon)
    requires c.rules.CartWiseRules?
    requires IsApplicable(total, c) && total <= larger
    ensures IsApplicable(larger, c)
  {
  }

  /** Total 100 at 10% with threshold 50 and no cap: discount 10, final 90. */
  lemma ExampleUncapped()
    ensures var c := Coupon(1, CartWise, "CART10", None, None, CartWiseRules(50.0, 10.0, None));
      && IsApplicable(100.0, c)
      && CalculateDiscount(100.0, c) == 10.0
      && Applied(CartView([], Some(100.0), None, None), c).finalPrice == Some(90.0)
  {
  }

  /** Total 200 at 10% with cap 15: discount 15, final 185. */
  lemma ExampleCapped()
    ensures var c := Coupon(1, CartWise, "CART10", None, None, CartWiseRules(50.0, 10.0, Some(15.0)));
      && CalculateDiscount(200.0, c) == 15.0
      && Applied(CartView([], Some(200.0), None, None), c).finalPrice == Some(185.0)
  {
  }

  /** A total equal to the threshold is applicable; one below it is not. */
  lemma ExampleThresholdBoundary()
    ensures var c := Coupon(1, CartWise, "CART", None, None, CartWiseRules(100.0, 10.0, None));
      IsApplicable(100.0, c) && !IsApplicable(99.0, c)
  {
  }
}
