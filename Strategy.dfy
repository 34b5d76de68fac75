/**
 * The strategy interface: one value per registered strategy, and dispatch of
 * isApplicable / calculateDiscount / applyDiscount to the strategy modules.
 */
module CouponStrategy {
  import opened Wrappers
  import opened Carts
  import opened Coupons
  import CartWiseStrategy
  import ProductWiseStrategy
  import BxGyStrategy

  /** The three strategy beans. */
  datatype Strategy = CartWiseCouponStrategy | ProductWiseCouponStrategy | BxGyCouponStrategy

  /** The tag each strategy registers under. */
  function GetCouponType(s: Strategy): CouponType {
    match s
    case CartWiseCouponStrategy => CartWiseStrategy.Tag
    case ProductWiseCouponStrategy => ProductWiseStrategy.Tag
    case BxGyCouponStrategy => BxGyStrategy.Tag
  }

  /** The strategy that handles a tag. */
  function StrategyFor(t: CouponType): Strategy {
    match t
    case CartWise => CartWiseCouponStrategy
    case ProductWise => ProductWiseCouponStrategy
    case BxGy => BxGyCouponStrategy
  }

  /** Each strategy handles exactly one tag. */
  lemma TypeRoundTrip(s: Strategy, t: CouponType)
    ensures StrategyFor(GetCouponType(s)) == s
    ensures GetCouponType(StrategyFor(t)) == t
    ensures GetCouponType(s) == t <==> s == StrategyFor(t)
  {
  }

  /**
   * The cast every strategy performs is safe: the coupon carries this
   * strategy's tag and its variant agrees with the tag.
   */
  predicate Fits(s: Strategy, c: Coupon) {
    GetCouponType(s) == c.couponType && Consistent(c)
  }

  /** isApplicable, on a cart whose original total has been set. */
  function Applicable(s: Strategy, v: CartView, c: Coupon): Result<bool, Error>
    requires Fits(s, c) && v.totalOriginalPrice.Some?
  {
    match s
    case CartWiseCouponStrategy => Success(CartWiseStrategy.IsApplicable(v.totalOriginalPrice.value, c))
    case ProductWiseCouponStrategy => Success(ProductWiseStrategy.IsApplicable(v.items, c))
    case BxGyCouponStrategy =>
      if DistinctIds(v.items) then Success(BxGyStrategy.Qualifies(v.items, c)) else Failure(DuplicateKey)
  }

  /** calculateDiscount. */
  function Discount(s: Strategy, v: CartView, c: Coupon): Result<real, Error>
    requires Fits(s, c) && v.totalOriginalPrice.Some?
  {
    match s
    case CartWiseCouponStrategy => Success(CartWiseStrategy.CalculateDiscount(v.totalOriginalPrice.value, c))
    case ProductWiseCouponStrategy => Success(ProductWiseStrategy.TotalDiscount(v.items, c))
    case BxGyCouponStrategy =>
      match BxGyStrategy.Fault(v.items, c)
      case Some(e) => Failure(e)
      case None => Success(BxGyStrategy.Discount(v.items, c))
  }

  /** applyDiscount: the cart afterwards, or the failure it raises. */
  function Applied(s: Strategy, v: CartView, c: Coupon): (r: Result<CartView, Error>)
    requires Fits(s, c) && v.totalOriginalPrice.Some?
    ensures r.Success? ==> r.value.totalOriginalPrice == v.totalOriginalPrice && |r.value.items| == |v.items|
    ensures r.Failure? ==> r.error == DuplicateKey || r.error == DivisionByZero
  {
    match s
    case CartWiseCouponStrategy => Success(CartWiseStrategy.Applied(v, c))
    case ProductWiseCouponStrategy => Success(ProductWiseStrategy.Applied(v, c))
    case BxGyCouponStrategy =>
      match BxGyStrategy.Fault(v.items, c)
      case Some(e) => Failure(e)
      case None => Success(BxGyStrategy.Applied(v, c))
  }

  method IsApplicable(s: Strategy, cart: Cart, c: Coupon) returns (r: Result<bool, Error>)
    requires Fits(s, c) && cart.totalOriginalPrice.Some?
    ensures r == Applicable(s, cart.View(), c)
  {
    match s
    case CartWiseCouponStrategy =>
      r := Success(CartWiseStrategy.IsApplicable(cart.totalOriginalPrice.value, c));
    case ProductWiseCouponStrategy =>
      r := Success(ProductWiseStrategy.IsApplicable(cart.items[..], c));
    case BxGyCouponStrategy =>
      r := BxGyStrategy.IsApplicable(cart.items[..], c);
  }

  method CalculateDiscount(s: Strategy, cart: Cart, c: Coupon) returns (r: Result<real, Error>)
    requires Fits(s, c) && cart.totalOriginalPrice.Some?
    ensures r == Discount(s, cart.View(), c)
  {
    match s
    case CartWiseCouponStrategy =>
      r := Success(CartWiseStrategy.CalculateDiscount(cart.totalOriginalPrice.value, c));
    case ProductWiseCouponStrategy =>
      var d := ProductWiseStrategy.CalculateDiscount(cart.items[..], c);
      r := Success(d);
    case BxGyCouponStrategy =>
      r := BxGyStrategy.CalculateDiscount(cart.items[..], c);
  }

  method ApplyDiscount(s: Strategy, cart: Cart, c: Coupon) returns (r: Outcome<Error>)
    requires Fits(s, c) && cart.totalOriginalPrice.Some?
    modifies cart, cart.items
    ensures var w := Applied(s, old(cart.View()), c);
      && (w.Success? ==> r == Pass && cart.View() == w.value)
      && (w.Failure? ==> r == Fail(w.error) && cart.View() == old(cart.View()))
  {
    match s
    case CartWiseCouponStrategy =>
      CartWiseStrategy.ApplyDiscount(cart, c);
      r := Pass;
    case ProductWiseCouponStrategy =>
      ProductWiseStrategy.ApplyDiscount(cart, c);
      r := Pass;
    case BxGyCouponStrategy =>
      r := BxGyStrategy.ApplyDiscount(cart, c);
  }

  /**
   * On an applicable cart every strategy's calculateDiscount and
   * applyDiscount succeed together, and then applyDiscount sets the cart
   * discount to what calculateDiscount reports, the final price to the
   * original total less it, and keeps the original total.
   */
  lemma ApplyAgreesWithCalculate(s: Strategy, v: CartView, c: Coupon)
    requires Fits(s, c) && v.totalOriginalPrice.Some?
    requires Applicable(s, v, c) == Success(true)
    ensures Discount(s, v, c).Success? <==> Applied(s, v, c).Success?
    ensures Discount(s, v, c).Success? ==>
      var d := Discount(s, v, c).value; var w := Applied(s, v, c).value;
      && w.totalOriginalPrice == v.totalOriginalPrice
      && w.totalDiscount == Some(d)
      && w.finalPrice == Some(v.totalOriginalPrice.value - d)
  {
  }

  /**
   * calculateDiscount and applyDiscount fail together and with the same
   * error; a failing isApplicable makes both fail with its error. Only the
   * buy-X-get-Y strategy fails: on a repeated product, or on a qualifying
   * cart when a buy quantity is zero.
   */
  lemma FailuresAgree(s: Strategy, v: CartView, c: Coupon)
    requires Fits(s, c) && v.totalOriginalPrice.Some?
    ensures Discount(s, v, c).Success? <==> Applied(s, v, c).Success?
    ensures Discount(s, v, c).Failure? ==> Applied(s, v, c).Failure? && Applied(s, v, c).error == Discount(s, v, c).error
    ensures Applicable(s, v, c).Failure? ==> Discount(s, v, c) == Failure(Applicable(s, v, c).error)
    ensures Discount(s, v, c).Failure? ==>
      && s == BxGyCouponStrategy
      && (!DistinctIds(v.items) || (BxGyStrategy.Qualifies(v.items, c) && !Divisible(c.rules)))
  {
  }

  /** A cart with two lines for one product makes all three buy-X-get-Y operations fail. */
  lemma ExampleDuplicateIds()
    ensures var v := CartView([NewItem(1, 2, 50.0), NewItem(1, 1, 50.0)], Some(150.0), None, None);
      var c := Coupon(1, BxGy, "B", None, None, BxGyRules([ProductDetail(1, 1)], [ProductDetail(1, 1)], 1));
      && Applicable(BxGyCouponStrategy, v, c) == Failure(DuplicateKey)
      && Discount(BxGyCouponStrategy, v, c) == Failure(DuplicateKey)
      && Applied(BxGyCouponStrategy, v, c) == Failure(DuplicateKey)
  {
    var items := [NewItem(1, 2, 50.0), NewItem(1, 1, 50.0)];
    assert items[0].productId == items[1].productId;
  }
}
