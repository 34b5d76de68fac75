/**
 * Product-wise coupons: a percentage of, or a fixed amount per unit off, every
 * line of one product.
 */
module ProductWiseStrategy {
  import opened Wrappers
  import opened Carts
  import opened Coupons

  /** The tag this strategy registers under. */
  const Tag: CouponType := ProductWise

  /** The line is for the coupon's product. */
  predicate Matches(it: CartItem, c: Coupon)
    requires c.rules.ProductWiseRules?
  {
    it.productId == c.rules.productId
  }

  /**
   * Applicable iff some line is for the coupon's product and either no minimum
   * quantity is set or that line's quantity reaches it.
   */
  predicate IsApplicable(items: seq<CartItem>, c: Coupon)
    requires c.rules.ProductWiseRules?
  {
    exists k :: 0 <= k < |items| && Matches(items[k], c) &&
      (c.rules.minQuantity.None? || items[k].quantity >= c.rules.minQuantity.value)
  }

  /**
   * The discount on one matching line: the percentage of the line total when a
   * percentage is set, otherwise the fixed amount per unit when that is set,
   * otherwise nothing.
   */
  function LineDiscount(it: CartItem, c: Coupon): real
    requires c.rules.ProductWiseRules?
  {
    if c.rules.percentage.Some? then LineTotal(it) * c.rules.percentage.value / 100.0
    else if c.rules.fixedAmount.Some? then c.rules.fixedAmount.value * it.quantity as real
    else 0.0
  }

  /** Σ of LineDiscount over the matching lines; other lines add nothing. */
  function TotalDiscount(items: seq<CartItem>, c: Coupon): real
    requires c.rules.ProductWiseRules?
    decreases |items|
  {
    if items == [] then 0.0
    else
      var last := items[|items| - 1];
      TotalDiscount(items[..|items| - 1], c) + (if Matches(last, c) then LineDiscount(last, c) else 0.0)
  }

  /** Sums the discount over the matching lines, one line at a time. */
  method CalculateDiscount(items: seq<CartItem>, c: Coupon) returns (total: real)
    requires c.rules.ProductWiseRules?
    ensures total == TotalDiscount(items, c)
  {
    total := 0.0;
    var i := 0;
    while i < |items|
      invariant 0 <= i <= |items|
      invariant total == TotalDiscount(items[..i], c)
    {
      var item := items[i];
      if item.productId == c.rules.productId {
        if c.rules.percentage.Some? {
          total := total + LineTotal(item) * c.rules.percentage.value / 100.0;
        } else if c.rules.fixedAmount.Some? {
          total := total + c.rules.fixedAmount.value * item.quantity as real;
        }
      }
      assert items[..i + 1][..i] == items[..i];
      i := i + 1;
    }
    assert items[..i] == items;
  }

  /**
   * One line after application: a matching line has its discount overwritten
   * with its own discount and its final price recomputed; any other line gets
   * its undiscounted final price and keeps its discount.
   */
  function Discounted(it: CartItem, c: Coupon): CartItem
    requires c.rules.ProductWiseRules?
  {
    if Matches(it, c) then
      var d := LineDiscount(it, c);
      it.(totalDiscount := d, finalPrice := Some(LineTotal(it) - d))
    else
      it.(finalPrice := Some(LineTotal(it)))
  }

  /** Every line rewritten by Discounted, in order. */
  function DiscountedLines(items: seq<CartItem>, c: Coupon): seq<CartItem>
    requires c.rules.ProductWiseRules?
  {
    seq(|items|, k requires 0 <= k < |items| => Discounted(items[k], c))
  }

  /** The cart after application. */
  function Applied(v: CartView, c: Coupon): CartView
    requires c.rules.ProductWiseRules?
    requires v.totalOriginalPrice.Some?
  {
    var d := TotalDiscount(v.items, c);
    v.(items := DiscountedLines(v.items, c),
       totalDiscount := Some(d),
       finalPrice := Some(v.totalOriginalPrice.value - d))
  }

  /**
   * Rewrites every line in place and sets the cart totals. Neither
   * applicability nor the minimum quantity is consulted.
   */
  method ApplyDiscount(cart: Cart, c: Coupon)
    requires c.rules.ProductWiseRules?
    requires cart.totalOriginalPrice.Some?
    modifies cart, cart.items
    ensures cart.View() == Applied(old(cart.View()), c)
  {
    ghost var orig := cart.items[..];
    var total := 0.0;
    var i := 0;
    while i < cart.items.Length
      modifies cart.items
      invariant 0 <= i <= cart.items.Length
      invariant forall k :: 0 <= k < i ==> cart.items[k] == Discounted(orig[k], c)
      invariant forall k :: i <= k < cart.items.Length ==> cart.items[k] == orig[k]
      invariant total == TotalDiscount(orig[..i], c)
    {
      var item := cart.items[i];
      assert item == orig[i];
      var updated: CartItem;
      if item.productId == c.rules.productId {
        var discount := 0.0;
        if c.rules.percentage.Some? {
          discount := LineTotal(item) * c.rules.percentage.value / 100.0;
        } else if c.rules.fixedAmount.Some? {
          discount := c.rules.fixedAmount.value * item.quantity as real;
        }
        assert discount == LineDiscount(item, c);
        updated := item.(totalDiscount := discount, finalPrice := Some(LineTotal(item) - discount));
        total := total + discount;
      } else {
        updated := item.(finalPrice := Some(LineTotal(item)));
      }
      assert updated == Discounted(orig[i], c);
      cart.items[i] := updated;
      assert orig[..i + 1][..i] == orig[..i];
      i := i + 1;
    }
    assert orig[..i] == orig;
    cart.totalDiscount := Some(total);
    cart.finalPrice := Some(cart.totalOriginalPrice.value - total);
  }

  /** Σ of the lines' existing discounts over the lines that do not match. */
  function UnmatchedDiscounts(items: seq<CartItem>, c: Coupon): real
    requires c.rules.ProductWiseRules?
    decreases |items|
  {
    if items == [] then 0.0
    else
      var last := items[|items| - 1];
      UnmatchedDiscounts(items[..|items| - 1], c) + (if Matches(last, c) then 0.0 else last.totalDiscount)
  }

  /**
   * Without a minimum the coupon is applicable iff some line is for its
   * product; a minimum can only take applicability away.
   */
  lemma ApplicableWithoutMinimum(items: seq<CartItem>, c: Coupon)
    requires c.rules.ProductWiseRules?
    ensures var free := c.(rules := c.rules.(minQuantity := None));
      && (IsApplicable(items, free) <==> exists k :: 0 <= k < |items| && Matches(items[k], c))
      && (IsApplicable(items, c) ==> IsApplicable(items, free))
  {
  }

  /** The minimum quantity plays no part in the discount. */
  lemma {:induction false} DiscountIgnoresMinQuantity(items: seq<CartItem>, c: Coupon, m: Option<int>)
    requires c.rules.ProductWiseRules?
    ensures TotalDiscount(items, c) == TotalDiscount(items, c.(rules := c.rules.(minQuantity := m)))
    decreases |items|
  {
    if items != [] {
      DiscountIgnoresMinQuantity(items[..|items| - 1], c, m);
    }
  }

  /** A cart with no line for the product gets no discount. */
  lemma {:induction false} NoMatchNoDiscount(items: seq<CartItem>, c: Coupon)
    requires c.rules.ProductWiseRules?
    requires forall k :: 0 <= k < |items| ==> !Matches(items[k], c)
    ensures TotalDiscount(items, c) == 0.0
    decreases |items|
  {
    if items != [] {
      NoMatchNoDiscount(items[..|items| - 1], c);
    }
  }

  /**
   * Line by line: a matching line ends with exactly its own discount (the old
   * one is overwritten, not added to) and final price line total less it; any
   * other line keeps its discount and ends at its line total.
   */
  lemma AppliedLines(v: CartView, c: Coupon, k: int)
    requires c.rules.ProductWiseRules?
    requires v.totalOriginalPrice.Some?
    requires 0 <= k < |v.items|
    ensures var w := Applied(v, c); var it := v.items[k];
      && |w.items| == |v.items|
      && w.items[k].productId == it.productId && w.items[k].quantity == it.quantity && w.items[k].price == it.price
      && (Matches(it, c) ==>
            w.items[k].totalDiscount == LineDiscount(it, c) &&
            w.items[k].finalPrice == Some(LineTotal(it) - LineDiscount(it, c)))
      && (!Matches(it, c) ==>
            w.items[k].totalDiscount == it.totalDiscount &&
            w.items[k].finalPrice == Some(LineTotal(it)))
  {
  }

  /**
   * Σ of the line discounts after application is the cart discount plus what
   * the non-matching lines already carried.
   */
  lemma {:induction false} AppliedLineDiscountsSum(items: seq<CartItem>, c: Coupon)
    requires c.rules.ProductWiseRules?
    ensures SumLineDiscounts(DiscountedLines(items, c))
      == TotalDiscount(items, c) + UnmatchedDiscounts(items, c)
    decreases |items|
  {
    var after := DiscountedLines(items, c);
    if items != [] {
      var init := items[..|items| - 1];
      assert after[..|after| - 1] == DiscountedLines(init, c);
      AppliedLineDiscountsSum(init, c);
    }
  }

  /**
   * When every line starts with no discount, the cart discount the strategy
   * sets is exactly the Σ of the line discounts it leaves behind.
   */
  lemma {:induction false} CartDiscountIsSumOfLines(v: CartView, c: Coupon)
    requires c.rules.ProductWiseRules?
    requires v.totalOriginalPrice.Some?
    requires forall k :: 0 <= k < |v.items| ==> v.items[k].totalDiscount == 0.0
    ensures var w := Applied(v, c);
      w.totalDiscount == Some(SumLineDiscounts(w.items)) &&
      w.finalPrice == Some(v.totalOriginalPrice.value - SumLineDiscounts(w.items))
  {
    AppliedLineDiscountsSum(v.items, c);
    UnmatchedZero(v.items, c);
  }

  lemma {:induction false} UnmatchedZero(items: seq<CartItem>, c: Coupon)
    requires c.rules.ProductWiseRules?
    requires forall k :: 0 <= k < |items| ==> items[k].totalDiscount == 0.0
    ensures UnmatchedDiscounts(items, c) == 0.0
    decreases |items|
  {
    if items != [] {
      UnmatchedZero(items[..|items| - 1], c);
    }
  }

  /** When a percentage is set the fixed amount is never looked at. */
  lemma PercentageTakesPrecedence(it: CartItem, c: Coupon, other: Option<real>)
    requires c.rules.ProductWiseRules? && c.rules.percentage.Some?
    ensures LineDiscount(it, c) == LineDiscount(it, c.(rules := c.rules.(fixedAmount := other)))
    ensures LineDiscount(it, c) == LineTotal(it) * c.rules.percentage.value / 100.0
  {
  }

  /** Two of product 1 at 50 and one of product 2 at 100: 10% off product 1 is 10, 5 per unit is 10. */
  lemma ExampleDiscounts()
    ensures var items := [NewItem(1, 2, 50.0), NewItem(2, 1, 100.0)];
      && TotalDiscount(items, Coupon(1, ProductWise, "P", None, None, ProductWiseRules(1, Some(10.0), None, None))) == 10.0
      && TotalDiscount(items, Coupon(1, ProductWise, "P", None, None, ProductWiseRules(1, None, Some(5.0), None))) == 10.0
  {
    var items := [NewItem(1, 2, 50.0), NewItem(2, 1, 100.0)];
    assert items[..1] == [NewItem(1, 2, 50.0)];
    assert items[..1][..0] == [];
  }

  /**
   * A line below the minimum quantity: the coupon is not applicable, yet the
   * discount computed for that line is not zero.
   */
  lemma ExampleMinQuantityIgnored()
    ensures var items := [NewItem(1, 1, 100.0)];
      var c := Coupon(1, ProductWise, "P", None, None, ProductWiseRules(1, Some(10.0), None, Some(3)));
      !IsApplicable(items, c) && TotalDiscount(items, c) == 10.0
  {
    var items := [NewItem(1, 1, 100.0)];
    assert items[..0] == [];
  }
}
