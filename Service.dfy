/**
 * The coupon service: an in-memory store of coupons keyed by id with an id
 * counter, its create / read / update / delete operations, and the two
 * operations that evaluate coupons against a cart.
 */
module Service {
  import opened Wrappers
  import opened Carts
  import opened Coupons
  import opened CouponStrategy
  import opened CouponStrategyFactory

  /** One entry of the applicable-coupons listing. */
  datatype ApplicableCoupon = ApplicableCoupon(couponId: int, couponType: CouponType, discountAmount: real)

  /** The coupon a recognised request builds: its variant's tag, its fields, the given id. */
  function NewCoupon(id: int, req: CouponRequest): (c: Coupon)
    requires req.body.Known?
    ensures Consistent(c)
    ensures c.id == id && c.rules == req.body.rules
  {
    Coupon(id, TypeOf(req.body.rules), req.code, req.description, req.expirationDate, req.body.rules)
  }

  /** The coupon with its code, description and expiration date taken from the request. */
  function WithHeader(c: Coupon, req: CouponRequest): Coupon {
    c.(code := req.code, description := req.description, expirationDate := req.expirationDate)
  }

  /** The request is of the class that matches the stored coupon's class. */
  predicate SameVariant(req: CouponRequest, c: Coupon) {
    req.body.Known? && TypeOf(req.body.rules) == TypeOf(c.rules)
  }

  /**
   * The store invariant: every key lies between 1 and the counter, keys the
   * coupon with that id, and that coupon is consistent.
   */
  predicate StoreValid(coupons: map<int, Coupon>, idCounter: int) {
    idCounter >= 0 &&
    forall id :: id in coupons ==> 1 <= id <= idCounter && coupons[id].id == id && Consistent(coupons[id])
  }

  /** The next id is new: ids are never reused. */
  lemma FreshId(coupons: map<int, Coupon>, idCounter: int)
    requires StoreValid(coupons, idCounter)
    ensures idCounter + 1 !in coupons
    ensures forall id :: id in coupons ==> id < idCounter + 1
  {
  }

  /** The cart with its original total set to Σ price × quantity. */
  function Totalled(v: CartView): (w: CartView)
    ensures w.items == v.items && w.totalDiscount == v.totalDiscount && w.finalPrice == v.finalPrice
    ensures w.totalOriginalPrice == Some(CartTotal(v.items))
  {
    v.(totalOriginalPrice := Some(CartTotal(v.items)))
  }

  /**
   * One coupon in the applicable-coupons loop: an expired coupon is skipped;
   * otherwise the strategy is looked up, then asked for applicability, then
   * for the discount. Lookup and strategy failures abort.
   */
  function Assess(strategies: map<CouponType, Strategy>, c: Coupon, v: CartView, today: Date)
    : Result<Option<ApplicableCoupon>, Error>
    requires Registry(strategies) && Consistent(c) && v.totalOriginalPrice.Some?
  {
    if !Active(c, today) then Success(None)
    else
      var s :- GetStrategy(strategies, c.couponType);
      var applicable :- Applicable(s, v, c);
      if !applicable then Success(None)
      else
        var d :- Discount(s, v, c);
        Success(Some(ApplicableCoupon(c.id, c.couponType, d)))
  }

  /** Computes Assess for one coupon. */
  method AssessCoupon(strategies: map<CouponType, Strategy>, c: Coupon, cart: Cart, today: Date)
    returns (r: Result<Option<ApplicableCoupon>, Error>)
    requires Registry(strategies) && Consistent(c) && cart.totalOriginalPrice.Some?
    ensures r == Assess(strategies, c, cart.View(), today)
  {
    if c.expirationDate.Some? && c.expirationDate.value < today {
      return Success(None);
    }
    var found := GetStrategy(strategies, c.couponType);
    if found.Failure? {
      return Failure(found.error);
    }
    var strategy := found.value;
    var applicable := IsApplicable(strategy, cart, c);
    if applicable.Failure? {
      return Failure(applicable.error);
    }
    if !applicable.value {
      return Success(None);
    }
    var d := CalculateDiscount(strategy, cart, c);
    if d.Failure? {
      return Failure(d.error);
    }
    return Success(Some(ApplicableCoupon(c.id, c.couponType, d.value)));
  }

  /** The null-total patches applied after applyDiscount. */
  function Patch(w: CartView): CartView
    requires w.totalOriginalPrice.Some?
  {
    var td := if w.totalDiscount.None? then Some(0.0) else w.totalDiscount;
    var fp := if w.finalPrice.None? then Some(w.totalOriginalPrice.value - td.value) else w.finalPrice;
    w.(totalDiscount := td, finalPrice := fp)
  }

  /**
   * applyCoupon on a found coupon: Expired when its date is before today;
   * otherwise, with the original total set, strategy lookup, then
   * NotApplicable, then the strategy's application and the patches.
   */
  function Applying(strategies: map<CouponType, Strategy>, c: Coupon, v: CartView, today: Date)
    : Result<CartView, Error>
    requires Registry(strategies) && Consistent(c)
  {
    if !Active(c, today) then Failure(Expired)
    else
      var v1 := Totalled(v);
      var s :- GetStrategy(strategies, c.couponType);
      var applicable :- Applicable(s, v1, c);
      if !applicable then Failure(NotApplicable)
      else
        var w :- Applied(s, v1, c);
        Success(Patch(w))
  }

  /** Sets a null cart discount to zero, then a null final price to total less discount. */
  method PatchTotals(cart: Cart)
    requires cart.totalOriginalPrice.Some?
    modifies cart
    ensures cart.View() == Patch(old(cart.View()))
  {
    if cart.totalDiscount.None? {
      cart.totalDiscount := Some(0.0);
    }
    if cart.finalPrice.None? {
      cart.finalPrice := Some(cart.totalOriginalPrice.value - cart.totalDiscount.value);
    }
  }

  /** The coupon is active, of a registered type, and the cart qualifies for it. */
  predicate Selected(strategies: map<CouponType, Strategy>, c: Coupon, v: CartView, today: Date)
    requires Registry(strategies) && Consistent(c) && v.totalOriginalPrice.Some?
  {
    var a := Assess(strategies, c, v, today);
    a.Success? && a.value.Some?
  }

  /** The listing holds exactly the assessed-applicable coupons of the store, once each. */
  predicate Listing(list: seq<ApplicableCoupon>, coupons: map<int, Coupon>, ids: set<int>,
                    strategies: map<CouponType, Strategy>, v: CartView, today: Date)
    requires Registry(strategies) && v.totalOriginalPrice.Some?
    requires ids <= coupons.Keys && forall id :: id in coupons ==> Consistent(coupons[id])
  {
    && (forall k :: 0 <= k < |list| ==>
          list[k].couponId in ids && Assess(strategies, coupons[list[k].couponId], v, today) == Success(Some(list[k])))
    && (forall id :: id in ids && Selected(strategies, coupons[id], v, today) ==>
          exists k :: 0 <= k < |list| && list[k].couponId == id)
    && (forall i, j :: 0 <= i < j < |list| ==> list[i].couponId != list[j].couponId)
  }

  /** A non-empty set of ids has an element to pick. */
  lemma Inhabited(ids: set<int>)
    requires ids != {}
    ensures exists id :: id in ids
  {
    if forall id :: id !in ids {
      assert false;
    }
  }

  /** `r` lists the coupons stored under the ids `done`, each exactly once. */
  predicate Enumerates(r: seq<Coupon>, store: map<int, Coupon>, done: set<int>)
    requires done <= store.Keys
  {
    && |r| == |done|
    && (forall k :: 0 <= k < |r| ==> r[k].id in done && store[r[k].id] == r[k])
    && (forall id :: id in done ==> exists k :: 0 <= k < |r| && r[k] == store[id])
    && (forall i, j :: 0 <= i < j < |r| ==> r[i].id != r[j].id)
  }

  /** Appending the coupon of one more id extends the enumeration to that id. */
  lemma EnumeratesSnoc(r: seq<Coupon>, store: map<int, Coupon>, done: set<int>, id: int)
    requires done <= store.Keys && id in store && id !in done && store[id].id == id
    requires Enumerates(r, store, done)
    ensures Enumerates(r + [store[id]], store, done + {id})
  {
    var r' := r + [store[id]];
    forall k | 0 <= k < |r'|
      ensures r'[k].id in done + {id} && store[r'[k].id] == r'[k]
    {
      if k < |r| {
        assert r'[k] == r[k];
      }
    }
    forall other | other in done + {id}
      ensures exists k :: 0 <= k < |r'| && r'[k] == store[other]
    {
      if other != id {
        var k :| 0 <= k < |r| && r[k] == store[other];
        assert r'[k] == r[k];
      } else {
        assert r'[|r|] == store[id];
      }
    }
    forall i, j | 0 <= i < j < |r'|
      ensures r'[i].id != r'[j].id
    {
      if j < |r| {
        assert r'[i] == r[i] && r'[j] == r[j];
      } else {
        assert r'[i] == r[i];
      }
    }
  }

  /** The coupons of a store keyed by their own ids, each once, in no particular order. */
  method Values(store: map<int, Coupon>) returns (r: seq<Coupon>)
    requires forall id :: id in store ==> store[id].id == id
    ensures Enumerates(r, store, store.Keys)
  {
    r := [];
    var todo := store.Keys;
    ghost var done: set<int> := {};
    while todo != {}
      invariant done !! todo && done + todo == store.Keys
      invariant Enumerates(r, store, done)
      decreases |todo|
    {
      Inhabited(todo);
      var id :| id in todo;
      EnumeratesSnoc(r, store, done, id);
      r := r + [store[id]];
      todo := todo - {id};
      done := done + {id};
    }
    assert done == store.Keys;
  }

  /**
   * Assessing one more coupon extends the listing: a selected coupon is
   * appended, any other leaves the list as it is.
   */
  lemma ListingStep(list: seq<ApplicableCoupon>, store: map<int, Coupon>, done: set<int>,
                    strategies: map<CouponType, Strategy>, v: CartView, today: Date,
                    id: int, found: Option<ApplicableCoupon>)
    requires Registry(strategies) && v.totalOriginalPrice.Some?
    requires forall i :: i in store ==> store[i].id == i && Consistent(store[i])
    requires done <= store.Keys && id in store && id !in done
    requires Listing(list, store, done, strategies, v, today)
    requires Assess(strategies, store[id], v, today) == Success(found)
    ensures Listing(if found.Some? then list + [found.value] else list, store, done + {id}, strategies, v, today)
  {
    var list' := if found.Some? then list + [found.value] else list;
    forall k | 0 <= k < |list'|
      ensures list'[k].couponId in done + {id}
      ensures Assess(strategies, store[list'[k].couponId], v, today) == Success(Some(list'[k]))
    {
      if k < |list| {
        assert list'[k] == list[k];
      }
    }
    forall other | other in done + {id} && Selected(strategies, store[other], v, today)
      ensures exists k :: 0 <= k < |list'| && list'[k].couponId == other
    {
      if other != id {
        var k :| 0 <= k < |list| && list[k].couponId == other;
        assert list'[k] == list[k];
      } else {
        assert list'[|list|].couponId == id;
      }
    }
    forall i, j | 0 <= i < j < |list'|
      ensures list'[i].couponId != list'[j].couponId
    {
      if j < |list| {
        assert list'[i] == list[i] && list'[j] == list[j];
      } else {
        assert list'[i] == list[i];
      }
    }
  }

  /**
   * The loop of the applicable-coupons listing: every stored coupon is
   * assessed in turn, the selected ones are collected, and the first failure
   * aborts.
   */
  method Assessments(store: map<int, Coupon>, strategies: map<CouponType, Strategy>, cart: Cart, today: Date)
    returns (r: Result<seq<ApplicableCoupon>, Error>)
    requires Registry(strategies) && cart.totalOriginalPrice.Some?
    requires forall id :: id in store ==> store[id].id == id && Consistent(store[id])
    ensures r.Success? <==> forall id :: id in store ==> Assess(strategies, store[id], cart.View(), today).Success?
    ensures r.Failure? ==>
      exists id :: id in store && Assess(strategies, store[id], cart.View(), today) == Failure(r.error)
    ensures r.Success? ==> Listing(r.value, store, store.Keys, strategies, cart.View(), today)
  {
    ghost var v := cart.View();
    var list: seq<ApplicableCoupon> := [];
    var todo := store.Keys;
    ghost var done: set<int> := {};
    while todo != {}
      invariant done !! todo && done + todo == store.Keys
      invariant forall id :: id in done ==> Assess(strategies, store[id], v, today).Success?
      invariant Listing(list, store, done, strategies, v, today)
      decreases |todo|
    {
      Inhabited(todo);
      var id :| id in todo;
      var assessed := AssessCoupon(strategies, store[id], cart, today);
      if assessed.Failure? {
        return Failure(assessed.error);
      }
      ListingStep(list, store, done, strategies, v, today, id, assessed.value);
      if assessed.value.Some? {
        list := list + [assessed.value.value];
      }
      todo := todo - {id};
      done := done + {id};
    }
    assert done == store.Keys;
    return Success(list);
  }

  class CouponService {
    var coupons: map<int, Coupon>
    var idCounter: int
    /** The factory's registry of strategies. */
    const strategies: map<CouponType, Strategy>

    predicate Valid()
      reads this
    {
      StoreValid(coupons, idCounter) && Registry(strategies)
    }

    constructor (factory: map<CouponType, Strategy>)
      requires Registry(factory)
      ensures Valid()
      ensures coupons == map[] && idCounter == 0 && strategies == factory
    {
      coupons := map[];
      idCounter := 0;
      strategies := factory;
    }

    /**
     * Takes the next id first, then builds the coupon of the request's class
     * under it; an unrecognised request fails with the id spent.
     */
    method CreateCoupon(req: CouponRequest) returns (r: Result<Coupon, Error>)
      requires Valid()
      modifies this
      ensures Valid()
      ensures idCounter == old(idCounter) + 1 && idCounter !in old(coupons)
      ensures req.body.Unrecognised? ==> r == Failure(InvalidRequest) && coupons == old(coupons)
      ensures req.body.Known? ==>
        && r == Success(NewCoupon(idCounter, req))
        && coupons == old(coupons)[idCounter := r.value]
    {
      idCounter := idCounter + 1;
      var newId := idCounter;
      var coupon: Coupon;
      match req.body {
        case Unrecognised =>
          return Failure(InvalidRequest);
        case Known(rules) =>
          match rules {
            case CartWiseRules(_, _, _) =>
              coupon := Coupon(newId, CartWise, req.code, req.description, req.expirationDate, rules);
            case ProductWiseRules(_, _, _, _) =>
              coupon := Coupon(newId, ProductWise, req.code, req.description, req.expirationDate, rules);
            case BxGyRules(_, _, _) =>
              coupon := Coupon(newId, BxGy, req.code, req.description, req.expirationDate, rules);
          }
      }
      coupons := coupons[newId := coupon];
      return Success(coupon);
    }

    method GetCouponById(id: int) returns (r: Result<Coupon, Error>)
      ensures id in coupons ==> r == Success(coupons[id])
      ensures id !in coupons ==> r == Failure(NotFound)
    {
      if id in coupons {
        return Success(coupons[id]);
      }
      return Failure(NotFound);
    }

    /** Every stored coupon once, in no particular order. */
    method GetAllCoupons() returns (r: seq<Coupon>)
      requires Valid()
      ensures Enumerates(r, coupons, coupons.Keys)
    {
      r := Values(coupons);
    }

    /**
     * Overwrites the common fields of the stored coupon, then its variant
     * fields when the request is of the same class; on a class mismatch it
     * fails with the common fields already overwritten.
     */
    method UpdateCoupon(id: int, req: CouponRequest) returns (r: Result<Coupon, Error>)
      requires Valid()
      modifies this
      ensures Valid() && idCounter == old(idCounter)
      ensures id !in old(coupons) ==> r == Failure(NotFound) && coupons == old(coupons)
      ensures id in old(coupons) ==>
        var header := WithHeader(old(coupons)[id], req);
        if SameVariant(req, header)
        then r == Success(header.(rules := req.body.rules)) && coupons == old(coupons)[id := r.value]
        else r == Failure(InvalidRequest) && coupons == old(coupons)[id := header]
    {
      if id !in coupons {
        return Failure(NotFound);
      }
      var existing := coupons[id];
      existing := existing.(code := req.code, description := req.description, expirationDate := req.expirationDate);
      coupons := coupons[id := existing];
      if req.body.Known? && TypeOf(req.body.rules) == TypeOf(existing.rules) {
        existing := existing.(rules := req.body.rules);
      } else {
        return Failure(InvalidRequest);
      }
      coupons := coupons[id := existing];
      return Success(existing);
    }

    method DeleteCoupon(id: int) returns (r: Outcome<Error>)
      requires Valid()
      modifies this
      ensures Valid() && idCounter == old(idCounter)
      ensures id !in old(coupons) ==> r == Fail(NotFound) && coupons == old(coupons)
      ensures id in old(coupons) ==> r == Pass && coupons == old(coupons) - {id}
    {
      if id !in coupons {
        return Fail(NotFound);
      }
      coupons := coupons - {id};
      return Pass;
    }

    /**
     * Sets the cart's original total, then lists every active coupon the
     * cart qualifies for with its discount; a failed lookup or strategy
     * aborts the listing.
     */
    method GetApplicableCoupons(cart: Cart, today: Date) returns (r: Result<seq<ApplicableCoupon>, Error>)
      requires Valid()
      modifies cart
      ensures cart.View() == Totalled(old(cart.View()))
      ensures r.Success? <==>
        forall id :: id in coupons ==> Assess(strategies, coupons[id], cart.View(), today).Success?
      ensures r.Failure? ==>
        exists id :: id in coupons && Assess(strategies, coupons[id], cart.View(), today) == Failure(r.error)
      ensures r.Success? ==> Listing(r.value, coupons, coupons.Keys, strategies, cart.View(), today)
    {
      cart.totalOriginalPrice := Some(CartTotal(cart.items[..]));
      r := Assessments(coupons, strategies, cart, today);
    }

    /**
     * Looks the coupon up (NotFound), checks its date (Expired), sets the
     * cart's original total, looks up the strategy, checks applicability
     * (NotApplicable), applies the discount and patches null totals.
     */
    method ApplyCoupon(couponId: int, cart: Cart, today: Date) returns (r: Outcome<Error>)
      requires Valid()
      modifies cart, cart.items
      ensures couponId !in coupons ==> r == Fail(NotFound) && cart.View() == old(cart.View())
      ensures couponId in coupons && !Active(coupons[couponId], today) ==>
        r == Fail(Expired) && cart.View() == old(cart.View())
      ensures couponId in coupons && Active(coupons[couponId], today) ==>
        var res := Applying(strategies, coupons[couponId], old(cart.View()), today);
        && (res.Success? ==> r == Pass && cart.View() == res.value)
        && (res.Failure? ==> r == Fail(res.error) && cart.View() == Totalled(old(cart.View())))
    {
      if couponId !in coupons {
        return Fail(NotFound);
      }
      var coupon := coupons[couponId];
      if coupon.expirationDate.Some? && coupon.expirationDate.value < today {
        return Fail(Expired);
      }
      cart.totalOriginalPrice := Some(CartTotal(cart.items[..]));
      var found := GetStrategy(strategies, coupon.couponType);
      if found.Failure? {
        return Fail(found.error);
      }
      var strategy := found.value;
      var applicable := IsApplicable(strategy, cart, coupon);
      if applicable.Failure? {
        return Fail(applicable.error);
      }
      if !applicable.value {
        return Fail(NotApplicable);
      }
      var applied := ApplyDiscount(strategy, cart, coupon);
      if applied.Fail? {
        return applied;
      }
      PatchTotals(cart);
      return Pass;
    }
  }

  /**
   * After a successful application the strategy has already set both cart
   * totals, so the null patches never change anything.
   */
  lemma PatchesNeverFire(strategies: map<CouponType, Strategy>, c: Coupon, v: CartView, today: Date)
    requires Registry(strategies) && Consistent(c)
    requires Applying(strategies, c, v, today).Success?
    ensures var v1 := Totalled(v); var s := strategies[c.couponType];
      Applying(strategies, c, v, today) == Applied(s, v1, c)
  {
    var v1 := Totalled(v);
    var s := strategies[c.couponType];
    ApplyAgreesWithCalculate(s, v1, c);
  }

  /**
   * Applying a listed coupon gives the cart the discount the listing reports,
   * and a final price of the cart total less it; an active coupon the
   * listing skips is refused as not applicable.
   */
  lemma ApplyMatchesListing(strategies: map<CouponType, Strategy>, c: Coupon, v: CartView, today: Date)
    requires Registry(strategies) && Consistent(c)
    ensures var listed := Assess(strategies, c, Totalled(v), today);
      var applied := Applying(strategies, c, v, today);
      && (listed.Success? && listed.value.Some? ==>
            && applied.Success?
            && applied.value.totalDiscount == Some(listed.value.value.discountAmount)
            && applied.value.finalPrice == Some(CartTotal(v.items) - listed.value.value.discountAmount))
      && (Active(c, today) && listed == Success(None) ==> applied == Failure(NotApplicable))
      && (listed.Failure? ==> applied == Failure(listed.error))
  {
    var v1 := Totalled(v);
    if Active(c, today) && c.couponType in strategies {
      var s := strategies[c.couponType];
      FailuresAgree(s, v1, c);
      if Applicable(s, v1, c) == Success(true) {
        ApplyAgreesWithCalculate(s, v1, c);
      }
    }
  }

  /**
   * An active cart-wide coupon is listed for a cart, and can be applied to
   * it, exactly when Σ price × quantity over the cart's lines reaches the
   * threshold.
   */
  lemma CartWiseThreshold(strategies: map<CouponType, Strategy>, c: Coupon, v: CartView, today: Date)
    requires Registry(strategies) && Consistent(c) && c.rules.CartWiseRules?
    requires CartWise in strategies && Active(c, today)
    ensures Selected(strategies, c, Totalled(v), today) <==> CartTotal(v.items) >= c.rules.threshold
    ensures Applying(strategies, c, v, today).Success? <==> CartTotal(v.items) >= c.rules.threshold
  {
  }

  /** A coupon is active through its expiration date and expired from the day after. */
  lemma ExpirationBoundary(c: Coupon, d: Date)
    requires c.expirationDate == Some(d)
    ensures Active(c, d) && !Active(c, d + 1)
  {
  }

  /** On a fresh service two creates in a row get ids 1 and 2. */
  method ExampleSequentialIds() returns (first: Result<Coupon, Error>, second: Result<Coupon, Error>)
    ensures first.Success? && first.value.id == 1 && first.value.couponType == CartWise
    ensures second.Success? && second.value.id == 2
  {
    var service := new CouponService(map[]);
    var req := CouponRequest("CART10", None, None, Known(CartWiseRules(100.0, 10.0, None)));
    first := service.CreateCoupon(req);
    second := service.CreateCoupon(req);
  }

  /** A rejected create spends an id: the next create gets id 2. */
  method ExampleRejectedCreateSpendsId() returns (rejected: Result<Coupon, Error>, next: Result<Coupon, Error>)
    ensures rejected == Failure(InvalidRequest)
    ensures next.Success? && next.value.id == 2
  {
    var service := new CouponService(map[]);
    rejected := service.CreateCoupon(CouponRequest("X", None, None, Unrecognised));
    next := service.CreateCoupon(CouponRequest("CART10", None, None, Known(CartWiseRules(100.0, 10.0, None))));
  }

  /**
   * Updating a cart-wide coupon with a product-wise request fails, yet the
   * stored coupon now carries the request's code while its rules are unchanged.
   */
  method ExampleMismatchedUpdate() returns (updated: Result<Coupon, Error>, stored: Result<Coupon, Error>)
    ensures updated == Failure(InvalidRequest)
    ensures stored.Success? && stored.value.code == "NEW"
    ensures stored.Success? && stored.value.rules == CartWiseRules(100.0, 10.0, None)
  {
    var service := new CouponService(map[]);
    var created := service.CreateCoupon(CouponRequest("OLD", None, None, Known(CartWiseRules(100.0, 10.0, None))));
    updated := service.UpdateCoupon(1, CouponRequest("NEW", None, None, Known(ProductWiseRules(1, Some(10.0), None, None))));
    stored := service.GetCouponById(1);
  }
}
