/**
 * The coupon records: common fields, the three variant shapes, the requests
 * that create and update them, and the errors the engine reports.
 */
module Coupons {
  import opened Wrappers

  /** A calendar date as a day number; later dates are larger. */
  type Date = int

  /** The variant tag of a coupon. */
  datatype CouponType = CartWise | ProductWise | BxGy

  /** A (product, quantity) pair of a buy-X-get-Y coupon. */
  datatype ProductDetail = ProductDetail(productId: int, quantity: int)

  /** The variant-specific fields of a coupon (and of a request). */
  datatype Rules =
    | CartWiseRules(threshold: real, discountPercentage: real, maxDiscountAmount: Option<real>)
    | ProductWiseRules(
        productId: int,
        percentage: Option<real>,           // discountPercentage
        fixedAmount: Option<real>,          // fixedDiscountAmount
        minQuantity: Option<int>)
    | BxGyRules(buyProducts: seq<ProductDetail>, getProducts: seq<ProductDetail>, repetitionLimit: int)

  /** The tag that belongs to a variant shape. */
  function TypeOf(rules: Rules): CouponType {
    match rules
    case CartWiseRules(_, _, _) => CartWise
    case ProductWiseRules(_, _, _, _) => ProductWise
    case BxGyRules(_, _, _) => BxGy
  }

  /**
   * No buy pair asks for quantity zero. Nothing enforces this on a stored
   * coupon; the repetition count divides by every buy quantity, so a zero one
   * makes that division fail.
   */
  predicate Divisible(rules: Rules) {
    rules.BxGyRules? ==> forall k :: 0 <= k < |rules.buyProducts| ==> rules.buyProducts[k].quantity != 0
  }

  /** A stored coupon: common fields, tag and variant fields. */
  datatype Coupon = Coupon(
    id: int,
    couponType: CouponType,
    code: string,
    description: Option<string>,
    expirationDate: Option<Date>,
    rules: Rules)

  /** The tag agrees with the variant. */
  predicate Consistent(c: Coupon) {
    c.couponType == TypeOf(c.rules)
  }

  /** A coupon is active unless its expiration date lies strictly before today. */
  predicate Active(c: Coupon, today: Date) {
    c.expirationDate.None? || c.expirationDate.value >= today
  }

  /**
   * The request body of a create or update: one of the three known request
   * classes, or a request class the service does not recognise.
   */
  datatype RequestBody = Known(rules: Rules) | Unrecognised

  datatype CouponRequest = CouponRequest(
    code: string,
    description: Option<string>,
    expirationDate: Option<Date>,
    body: RequestBody)

  /** The four user-visible failures and the three internal ones. */
  datatype Error =
    | NotFound            // no coupon under that id
    | Expired             // apply on a coupon whose date has passed
    | NotApplicable       // apply when the cart does not qualify
    | InvalidRequest      // unknown request class, or variant mismatch on update
    | UnknownCouponType   // the dispatcher has no strategy for a tag
    | DuplicateKey        // a map was collected from a list with a repeated key
    | DivisionByZero      // an integer division by a zero buy quantity
}
