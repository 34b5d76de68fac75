/**
 * Buy-X-get-Y coupons: when the cart holds every "buy" product and every
 * "get" product in the stated quantities, the "get" products are discounted at
 * their full unit price, once per repetition of the deal.
 */
module BxGyStrategy {
  import opened Wrappers
  import opened Carts
  import opened Coupons

  /** The tag this strategy registers under. */
  const Tag: CouponType := BxGy

  function Min(a: int, b: int): int {
    if a <= b then a else b
  }

  /**
   * Collects the lines into a map keyed by product id, as
   * `Collectors.toMap` does; a repeated product id makes the collection fail.
   */
  method CollectByProduct(items: seq<CartItem>) returns (r: Result<map<int, nat>, Error>)
    ensures DistinctIds(items) ==> r == Success(ProductIndex(items))
    ensures !DistinctIds(items) ==> r == Failure(DuplicateKey)
  {
    var m: map<int, nat> := map[];
    var i := 0;
    while i < |items|
      invariant 0 <= i <= |items|
      invariant DistinctIds(items[..i])
      invariant forall k :: 0 <= k < i ==> items[k].productId in m && m[items[k].productId] == k
      invariant forall p :: p in m ==> m[p] < i && items[m[p]].productId == p
    {
      if items[i].productId in m {
        assert items[m[items[i].productId]].productId == items[i].productId;
        return Failure(DuplicateKey);
      }
      m := m[items[i].productId := i];
      i := i + 1;
    }
    assert items[..i] == items;
    assert m == ProductIndex(items);
    return Success(m);
  }

  /** The line of a duplicate-free cart that holds product `p`. */
  function LineOf(items: seq<CartItem>, p: int): CartItem
    requires DistinctIds(items) && p in ProductIndex(items)
  {
    items[ProductIndex(items)[p]]
  }

  /** The cart holds the pair's product in at least the pair's quantity. */
  predicate Satisfied(items: seq<CartItem>, d: ProductDetail)
    requires DistinctIds(items)
  {
    d.productId in ProductIndex(items) && LineOf(items, d.productId).quantity >= d.quantity
  }

  predicate AllSatisfied(items: seq<CartItem>, ds: seq<ProductDetail>)
    requires DistinctIds(items)
  {
    forall k :: 0 <= k < |ds| ==> Satisfied(items, ds[k])
  }

  /** Applicability: every buy pair and every get pair is satisfied. */
  predicate Qualifies(items: seq<CartItem>, c: Coupon)
    requires c.rules.BxGyRules? && DistinctIds(items)
  {
    AllSatisfied(items, c.rules.buyProducts) && AllSatisfied(items, c.rules.getProducts)
  }

  /**
   * Checks the buy pairs, then the get pairs, against the quantities by
   * product; the first unmet pair answers false.
   */
  method IsApplicable(items: seq<CartItem>, c: Coupon) returns (r: Result<bool, Error>)
    requires c.rules.BxGyRules?
    ensures !DistinctIds(items) ==> r == Failure(DuplicateKey)
    ensures DistinctIds(items) ==> r == Success(Qualifies(items, c))
  {
    var quantities :- CollectByProduct(items);
    var buy, get := c.rules.buyProducts, c.rules.getProducts;
    for k := 0 to |buy|
      invariant forall q :: 0 <= q < k ==> Satisfied(items, buy[q])
    {
      var d := buy[k];
      if d.productId !in quantities || items[quantities[d.productId]].quantity < d.quantity {
        return Success(false);
      }
    }
    for k := 0 to |get|
      invariant forall q :: 0 <= q < k ==> Satisfied(items, get[q])
    {
      var d := get[k];
      if d.productId !in quantities || items[quantities[d.productId]].quantity < d.quantity {
        return Success(false);
      }
    }
    return Success(true);
  }

  function Abs(a: int): nat {
    if a < 0 then -a else a
  }

  /**
   * Integer division as the JVM does it: the quotient is truncated toward
   * zero, so its sign is the product of the operands' signs.
   */
  function Quot(a: int, b: int): int
    requires b != 0
  {
    if (a < 0) == (b < 0) then Abs(a) / Abs(b) else -(Abs(a) / Abs(b))
  }

  /** On non-negative operands truncating division is the usual one. */
  lemma QuotNatural(a: int, b: int)
    requires a >= 0 && b > 0
    ensures Quot(a, b) == a / b
  {
  }

  /** How many times the cart covers one buy pair: cart quantity / required, truncated. */
  function Ratio(items: seq<CartItem>, d: ProductDetail): int
    requires DistinctIds(items) && Satisfied(items, d) && d.quantity != 0
  {
    Quot(LineOf(items, d.productId).quantity, d.quantity)
  }

  predicate PositiveQuantities(ds: seq<ProductDetail>) {
    forall k :: 0 <= k < |ds| ==> ds[k].quantity >= 1
  }

  predicate NonZeroQuantities(ds: seq<ProductDetail>) {
    forall k :: 0 <= k < |ds| ==> ds[k].quantity != 0
  }

  /** The repetition limit, lowered in turn by each buy pair's ratio. */
  function MaxRepetitions(items: seq<CartItem>, buy: seq<ProductDetail>, limit: int): int
    requires DistinctIds(items) && AllSatisfied(items, buy) && NonZeroQuantities(buy)
    decreases |buy|
  {
    if buy == [] then limit
    else Min(MaxRepetitions(items, buy[..|buy| - 1], limit), Ratio(items, buy[|buy| - 1]))
  }

  /** The number of iterations of a loop `for i < n`. */
  function Times(n: int): nat {
    if n > 0 then n else 0
  }

  /** r added up n times, as a loop of n rounds each adding r computes it. */
  function Scale(n: nat, r: real): real {
    if n == 0 then 0.0 else Scale(n - 1, r) + r
  }

  /** Adding r up n times is multiplying it by n. */
  lemma {:induction false} ScaleIsProduct(n: nat, r: real)
    ensures Scale(n, r) == n as real * r
  {
    if n > 0 {
      ScaleIsProduct(n - 1, r);
      assert (n - 1) as real * r + r == n as real * r;
    }
  }

  /** Any number of rounds of nothing is nothing. */
  lemma {:induction false} ScaleZero(n: nat)
    ensures Scale(n, 0.0) == 0.0
  {
    if n > 0 {
      ScaleZero(n - 1);
    }
  }

  /** n rounds of a + b add up to n rounds of a plus n rounds of b. */
  lemma {:induction false} ScaleAdd(n: nat, a: real, b: real)
    ensures Scale(n, a + b) == Scale(n, a) + Scale(n, b)
  {
    if n > 0 {
      ScaleAdd(n - 1, a, b);
    }
  }

  /** Σ over the get pairs of the reward line's unit price × the pair's quantity. */
  function RewardPerRepetition(items: seq<CartItem>, get: seq<ProductDetail>): real
    requires DistinctIds(items) && AllSatisfied(items, get)
    decreases |get|
  {
    if get == [] then 0.0
    else
      var g := get[|get| - 1];
      RewardPerRepetition(items, get[..|get| - 1]) + LineOf(items, g.productId).price * g.quantity as real
  }

  /**
   * The exception calculateDiscount and applyDiscount raise: a duplicate key
   * when the lines are collected by product, else, on a qualifying cart, a
   * division by a zero buy quantity while the repetitions are counted.
   */
  function Fault(items: seq<CartItem>, c: Coupon): Option<Error>
    requires c.rules.BxGyRules?
  {
    if !DistinctIds(items) then Some(DuplicateKey)
    else if Qualifies(items, c) && !Divisible(c.rules) then Some(DivisionByZero)
    else None
  }

  /** The repetitions a qualifying cart gets. */
  function Repetitions(items: seq<CartItem>, c: Coupon): int
    requires c.rules.BxGyRules? && Divisible(c.rules) && DistinctIds(items) && Qualifies(items, c)
  {
    MaxRepetitions(items, c.rules.buyProducts, c.rules.repetitionLimit)
  }

  /** Zero for a cart that does not qualify; otherwise repetitions × reward per repetition. */
  function Discount(items: seq<CartItem>, c: Coupon): real
    requires c.rules.BxGyRules? && DistinctIds(items) && (Qualifies(items, c) ==> Divisible(c.rules))
  {
    if !Qualifies(items, c) then 0.0
    else Scale(Times(Repetitions(items, c)), RewardPerRepetition(items, c.rules.getProducts))
  }

  /** Computes the repetition count, then adds every reward once per repetition. */
  method CalculateDiscount(items: seq<CartItem>, c: Coupon) returns (r: Result<real, Error>)
    requires c.rules.BxGyRules?
    ensures Fault(items, c).Some? ==> r == Failure(Fault(items, c).value)
    ensures Fault(items, c).None? ==> r == Success(Discount(items, c))
  {
    var applicable :- IsApplicable(items, c);
    if !applicable {
      return Success(0.0);
    }
    var collected := CollectByProduct(items);
    var lines := collected.value;
    var reps :- Repeat(items, lines, c);
    var total := SumRewards(items, lines, c.rules.getProducts, reps);
    return Success(total);
  }

  /** The nested loops of calculateDiscount: `reps` rounds of every get pair's reward. */
  method SumRewards(items: seq<CartItem>, lines: map<int, nat>, get: seq<ProductDetail>, reps: int)
    returns (total: real)
    requires DistinctIds(items) && lines == ProductIndex(items) && AllSatisfied(items, get)
    ensures total == Scale(Times(reps), RewardPerRepetition(items, get))
  {
    ghost var reward := RewardPerRepetition(items, get);
    total := 0.0;
    var i := 0;
    while i < reps
      invariant 0 <= i <= Times(reps)
      invariant total == Scale(i, reward)
    {
      var j := 0;
      while j < |get|
        invariant 0 <= j <= |get|
        invariant total == Scale(i, reward) + RewardPerRepetition(items, get[..j])
      {
        var g := get[j];
        var discount := items[lines[g.productId]].price * g.quantity as real;
        RewardSnoc(items, get, j, discount);
        total := total + discount;
        j := j + 1;
      }
      assert get[..j] == get;
      i := i + 1;
    }
  }

  /**
   * The repetition loop shared by CalculateDiscount and ApplyDiscount; a zero
   * buy quantity makes its division fail.
   */
  method Repeat(items: seq<CartItem>, lines: map<int, nat>, c: Coupon) returns (r: Result<int, Error>)
    requires c.rules.BxGyRules?
    requires DistinctIds(items) && lines == ProductIndex(items) && Qualifies(items, c)
    ensures Divisible(c.rules) ==> r == Success(Repetitions(items, c))
    ensures !Divisible(c.rules) ==> r == Failure(DivisionByZero)
  {
    var buy := c.rules.buyProducts;
    var reps := c.rules.repetitionLimit;
    for k := 0 to |buy|
      invariant NonZeroQuantities(buy[..k])
      invariant reps == MaxRepetitions(items, buy[..k], c.rules.repetitionLimit)
    {
      var d := buy[k];
      if d.quantity == 0 {
        return Failure(DivisionByZero);
      }
      reps := Min(reps, Quot(items[lines[d.productId]].quantity, d.quantity));
      assert buy[..k + 1][..k] == buy[..k];
    }
    assert buy[..|buy|] == buy;
    return Success(reps);
  }

  /** Σ over the pairs naming this line's product of its unit price × the pair's quantity. */
  function Share(it: CartItem, gs: seq<ProductDetail>): real
    decreases |gs|
  {
    if gs == [] then 0.0
    else
      var g := gs[|gs| - 1];
      Share(it, gs[..|gs| - 1]) + (if g.productId == it.productId then it.price * g.quantity as real else 0.0)
  }

  /** Some pair names product `p`. */
  predicate Rewarded(p: int, gs: seq<ProductDetail>) {
    exists k :: 0 <= k < |gs| && gs[k].productId == p
  }

  /**
   * A line after `i` full repetitions and the first `j` get pairs of the next:
   * once a reward has touched it, its discount has grown by every reward so far
   * and its final price is line total less that discount; until then it is as
   * it was.
   */
  function Partial(it: CartItem, gs: seq<ProductDetail>, i: nat, j: nat): CartItem
    requires j <= |gs|
  {
    if (i > 0 && Rewarded(it.productId, gs)) || Rewarded(it.productId, gs[..j]) then
      var td := it.totalDiscount + Scale(i, Share(it, gs)) + Share(it, gs[..j]);
      it.(totalDiscount := td, finalPrice := Some(LineTotal(it) - td))
    else
      it
  }

  /** Every line after `i` repetitions and `j` get pairs of the next. */
  function PartialLines(items: seq<CartItem>, gs: seq<ProductDetail>, i: nat, j: nat): seq<CartItem>
    requires j <= |gs|
  {
    seq(|items|, k requires 0 <= k < |items| => Partial(items[k], gs, i, j))
  }

  /** A line whose final price is still unset gets its line total. */
  function Fill(it: CartItem): CartItem {
    if it.finalPrice.None? then it.(finalPrice := Some(LineTotal(it))) else it
  }

  function FillLines(lines: seq<CartItem>): seq<CartItem> {
    seq(|lines|, k requires 0 <= k < |lines| => Fill(lines[k]))
  }

  /** One line after `n` repetitions and the final-price pass. */
  function RewardedLine(it: CartItem, gs: seq<ProductDetail>, n: nat): CartItem {
    Fill(Partial(it, gs, n, 0))
  }

  /** Every line after `n` repetitions and the final-price pass. */
  function RewardedLines(items: seq<CartItem>, gs: seq<ProductDetail>, n: nat): seq<CartItem> {
    FillLines(PartialLines(items, gs, n, 0))
  }

  /**
   * The cart after application: unchanged when it does not qualify; otherwise
   * the reward lines accumulate their rewards, unset final prices are filled,
   * and the cart totals are set.
   */
  function Applied(v: CartView, c: Coupon): CartView
    requires c.rules.BxGyRules? && DistinctIds(v.items) && (Qualifies(v.items, c) ==> Divisible(c.rules))
    requires Qualifies(v.items, c) ==> v.totalOriginalPrice.Some?
  {
    if !Qualifies(v.items, c) then v
    else
      var d := Discount(v.items, c);
      v.(items := RewardedLines(v.items, c.rules.getProducts, Times(Repetitions(v.items, c))),
         totalDiscount := Some(d),
         finalPrice := Some(v.totalOriginalPrice.value - d))
  }

  /**
   * Adds each repetition's reward to its line in place, fills the final
   * prices still unset, and sets the cart totals. A cart that does not
   * qualify is returned untouched.
   */
  method ApplyDiscount(cart: Cart, c: Coupon) returns (r: Outcome<Error>)
    requires c.rules.BxGyRules?
    requires DistinctIds(cart.items[..]) && Qualifies(cart.items[..], c) ==> cart.totalOriginalPrice.Some?
    modifies cart, cart.items
    ensures Fault(old(cart.items[..]), c).Some? ==>
      r == Fail(Fault(old(cart.items[..]), c).value) && cart.View() == old(cart.View())
    ensures Fault(old(cart.items[..]), c).None? ==> r == Pass && cart.View() == Applied(old(cart.View()), c)
  {
    var items := cart.items[..];
    var applicable := IsApplicable(items, c);
    if applicable.Failure? {
      return Fail(applicable.error);
    }
    if !applicable.value {
      return Pass;
    }
    r := RewardCart(cart, c);
  }

  /**
   * The body of ApplyDiscount for a qualifying cart. The repetitions are
   * counted before any line is touched, so a failed division leaves the cart
   * as it was.
   */
  method RewardCart(cart: Cart, c: Coupon) returns (r: Outcome<Error>)
    requires c.rules.BxGyRules?
    requires DistinctIds(cart.items[..]) && Qualifies(cart.items[..], c) && cart.totalOriginalPrice.Some?
    modifies cart, cart.items
    ensures !Divisible(c.rules) ==> r == Fail(DivisionByZero) && cart.View() == old(cart.View())
    ensures Divisible(c.rules) ==> r == Pass && cart.View() == Applied(old(cart.View()), c)
  {
    var items := cart.items[..];
    var collected := CollectByProduct(items);
    var lines := collected.value;
    var counted := Repeat(items, lines, c);
    if counted.Failure? {
      return Fail(counted.error);
    }
    var reps := counted.value;
    ghost var v := cart.View();
    ghost var w := Applied(v, c);
    ghost var d := Discount(items, c);
    assert w == v.(items := RewardedLines(items, c.rules.getProducts, Times(Repetitions(items, c))),
                   totalDiscount := Some(d), finalPrice := Some(v.totalOriginalPrice.value - d));
    var total := AddRewards(cart.items, items, lines, c.rules.getProducts, reps);
    FillFinalPrices(cart.items);
    assert cart.items[..] == w.items;
    assert total == d;
    cart.totalDiscount := Some(total);
    cart.finalPrice := Some(cart.totalOriginalPrice.value - total);
    return Pass;
  }

  /** The repetition loop: `reps` times, every get pair's reward onto its line. */
  method AddRewards(a: array<CartItem>, ghost items: seq<CartItem>, lines: map<int, nat>,
                    get: seq<ProductDetail>, reps: int) returns (total: real)
    requires a[..] == items && DistinctIds(items) && lines == ProductIndex(items) && AllSatisfied(items, get)
    modifies a
    ensures total == Scale(Times(reps), RewardPerRepetition(items, get))
    ensures a[..] == PartialLines(items, get, Times(reps), 0)
  {
    total := 0.0;
    var i := 0;
    PartialNone(items, get);
    while i < reps
      invariant 0 <= i <= Times(reps)
      invariant total == Scale(i, RewardPerRepetition(items, get))
      invariant a[..] == PartialLines(items, get, i, 0)
    {
      var added := AddOneRepetition(a, items, lines, get, i);
      total := total + added;
      i := i + 1;
    }
  }

  /** One pass over the get pairs: each pair's reward added to its line. */
  method AddOneRepetition(a: array<CartItem>, ghost items: seq<CartItem>, lines: map<int, nat>,
                          get: seq<ProductDetail>, i: nat) returns (added: real)
    requires DistinctIds(items) && lines == ProductIndex(items) && AllSatisfied(items, get)
    requires a[..] == PartialLines(items, get, i, 0)
    modifies a
    ensures added == RewardPerRepetition(items, get)
    ensures a[..] == PartialLines(items, get, i + 1, 0)
  {
    added := 0.0;
    var j := 0;
    assert get[..0] == [];
    while j < |get|
      invariant 0 <= j <= |get|
      invariant added == RewardPerRepetition(items, get[..j])
      invariant a[..] == PartialLines(items, get, i, j)
    {
      var g := get[j];
      var at := lines[g.productId];
      LinePrice(items, get, i, j, at);
      var discount := a[at].price * g.quantity as real;
      StepLines(items, get, i, j, at, discount);
      RewardSnoc(items, get, j, discount);
      a[at] := Bump(a[at], discount);
      added := added + discount;
      j := j + 1;
    }
    assert get[..j] == get;
    PartialWrap(items, get, i);
  }

  /** Every line whose final price is still unset gets its line total. */
  method FillFinalPrices(a: array<CartItem>)
    modifies a
    ensures a[..] == FillLines(old(a[..]))
  {
    for k := 0 to a.Length
      invariant forall q :: 0 <= q < k ==> a[q] == Fill(old(a[q]))
      invariant forall q :: k <= q < a.Length ==> a[q] == old(a[q])
    {
      if a[k].finalPrice.None? {
        a[k] := a[k].(finalPrice := Some(LineTotal(a[k])));
      }
    }
  }

  /** A line with `d` more discount and its final price recomputed. */
  function Bump(it: CartItem, d: real): CartItem {
    var td := it.totalDiscount + d;
    it.(totalDiscount := td, finalPrice := Some(LineTotal(it) - td))
  }

  /** A get pair for another product leaves the line as it was. */
  lemma PartialMiss(it: CartItem, gs: seq<ProductDetail>, i: nat, j: nat)
    requires j < |gs| && gs[j].productId != it.productId
    ensures Partial(it, gs, i, j + 1) == Partial(it, gs, i, j)
  {
    PrefixSnoc(it, gs, j);
  }

  /** Extending the prefix of get pairs by one pair. */
  lemma PrefixSnoc(it: CartItem, gs: seq<ProductDetail>, j: nat)
    requires j < |gs|
    ensures Rewarded(it.productId, gs[..j + 1]) <==> Rewarded(it.productId, gs[..j]) || gs[j].productId == it.productId
    ensures Share(it, gs[..j + 1]) ==
      Share(it, gs[..j]) + (if gs[j].productId == it.productId then it.price * gs[j].quantity as real else 0.0)
  {
    assert gs[..j + 1][..j] == gs[..j];
    assert gs[..j + 1][j] == gs[j];
    if Rewarded(it.productId, gs[..j]) {
      var k :| 0 <= k < j && gs[..j][k].productId == it.productId;
      assert gs[..j + 1][k] == gs[..j][k];
    }
  }

  /** A get pair for this line's product bumps it by that pair's reward `d`. */
  lemma PartialHit(it: CartItem, gs: seq<ProductDetail>, i: nat, j: nat, d: real)
    requires j < |gs| && gs[j].productId == it.productId
    requires d == it.price * gs[j].quantity as real
    ensures Partial(it, gs, i, j + 1) == Bump(Partial(it, gs, i, j), d)
  {
    PrefixSnoc(it, gs, j);
    var p := it.productId;
    assert Rewarded(p, gs) by {
      assert gs[j].productId == p;
    }
    var td := it.totalDiscount + Scale(i, Share(it, gs)) + Share(it, gs[..j + 1]);
    assert Partial(it, gs, i, j + 1) == it.(totalDiscount := td, finalPrice := Some(LineTotal(it) - td));
    if (i > 0 && Rewarded(p, gs)) || Rewarded(p, gs[..j]) {
      var td0 := it.totalDiscount + Scale(i, Share(it, gs)) + Share(it, gs[..j]);
      var before := it.(totalDiscount := td0, finalPrice := Some(LineTotal(it) - td0));
      assert Partial(it, gs, i, j) == before;
      assert td == td0 + d;
      assert LineTotal(before) == LineTotal(it);
      assert Bump(before, d) == it.(totalDiscount := td, finalPrice := Some(LineTotal(it) - td));
    } else {
      ShareUnrewarded(it, gs[..j]);
      assert Partial(it, gs, i, j) == it;
      assert td == it.totalDiscount + d;
      assert Bump(it, d) == it.(totalDiscount := td, finalPrice := Some(LineTotal(it) - td));
    }
  }

  /** Before any reward every line is as it was. */
  lemma PartialNone(items: seq<CartItem>, gs: seq<ProductDetail>)
    ensures PartialLines(items, gs, 0, 0) == items
  {
    assert gs[..0] == [];
  }

  /** Rewards never change a line's unit price. */
  lemma LinePrice(items: seq<CartItem>, gs: seq<ProductDetail>, i: nat, j: nat, at: int)
    requires j <= |gs| && 0 <= at < |items|
    ensures PartialLines(items, gs, i, j)[at].price == items[at].price
  {
  }

  lemma RewardSnoc(items: seq<CartItem>, get: seq<ProductDetail>, j: nat, discount: real)
    requires DistinctIds(items) && AllSatisfied(items, get) && j < |get|
    requires discount == LineOf(items, get[j].productId).price * get[j].quantity as real
    ensures RewardPerRepetition(items, get[..j + 1]) == RewardPerRepetition(items, get[..j]) + discount
  {
    assert get[..j + 1][..j] == get[..j];
  }

  /** One get pair changes only the line of its product, and that one by Bump. */
  lemma StepLines(items: seq<CartItem>, gs: seq<ProductDetail>, i: nat, j: nat, at: int, discount: real)
    requires DistinctIds(items) && j < |gs| && 0 <= at < |items| && items[at].productId == gs[j].productId
    requires discount == items[at].price * gs[j].quantity as real
    ensures var before := PartialLines(items, gs, i, j);
      PartialLines(items, gs, i, j + 1) == before[at := Bump(before[at], discount)]
  {
    var before := PartialLines(items, gs, i, j);
    var after := PartialLines(items, gs, i, j + 1);
    assert |after| == |before| == |items|;
    forall k | 0 <= k < |items|
      ensures after[k] == before[at := Bump(before[at], discount)][k]
    {
      assert after[k] == Partial(items[k], gs, i, j + 1) && before[k] == Partial(items[k], gs, i, j);
      if k == at {
        PartialHit(items[k], gs, i, j, discount);
      } else {
        assert items[k].productId != gs[j].productId;
        PartialMiss(items[k], gs, i, j);
      }
    }
  }

  /** Finishing the get pairs of one repetition is starting the next. */
  lemma PartialWrap(items: seq<CartItem>, gs: seq<ProductDetail>, i: nat)
    ensures PartialLines(items, gs, i, |gs|) == PartialLines(items, gs, i + 1, 0)
  {
    forall k | 0 <= k < |items|
      ensures Partial(items[k], gs, i, |gs|) == Partial(items[k], gs, i + 1, 0)
    {
      PartialWrapLine(items[k], gs, i);
    }
  }

  lemma PartialWrapLine(it: CartItem, gs: seq<ProductDetail>, i: nat)
    ensures Partial(it, gs, i, |gs|) == Partial(it, gs, i + 1, 0)
  {
    assert gs[..|gs|] == gs;
    assert gs[..0] == [];
    assert Share(it, []) == 0.0;
    assert Scale(i + 1, Share(it, gs)) == Scale(i, Share(it, gs)) + Share(it, gs);
    assert (i > 0 && Rewarded(it.productId, gs)) || Rewarded(it.productId, gs[..|gs|]) <==>
      (i + 1 > 0 && Rewarded(it.productId, gs)) || Rewarded(it.productId, gs[..0]);
  }

  /** A line that no pair names gets no share. */
  lemma {:induction false} ShareUnrewarded(it: CartItem, gs: seq<ProductDetail>)
    requires !Rewarded(it.productId, gs)
    ensures Share(it, gs) == 0.0
    decreases |gs|
  {
    if gs != [] {
      var init := gs[..|gs| - 1];
      forall k | 0 <= k < |init|
        ensures init[k].productId != it.productId
      {
        assert init[k] == gs[k];
      }
      ShareUnrewarded(it, init);
      assert gs[|gs| - 1].productId != it.productId;
    }
  }

  /** Satisfied means: some line holds that product in at least that quantity. */
  lemma SatisfiedIffPresent(items: seq<CartItem>, d: ProductDetail)
    requires DistinctIds(items)
    ensures Satisfied(items, d) <==>
      exists k :: 0 <= k < |items| && items[k].productId == d.productId && items[k].quantity >= d.quantity
  {
    if exists k :: 0 <= k < |items| && items[k].productId == d.productId && items[k].quantity >= d.quantity {
      var k :| 0 <= k < |items| && items[k].productId == d.productId && items[k].quantity >= d.quantity;
      assert ProductIndex(items)[items[k].productId] == k;
    }
  }

  /**
   * The repetition count is the minimum of the limit and every buy pair's
   * ratio: bounded by each, and equal to one of them.
   */
  lemma {:induction false} MaxRepetitionsIsMinimum(items: seq<CartItem>, buy: seq<ProductDetail>, limit: int)
    requires DistinctIds(items) && AllSatisfied(items, buy) && NonZeroQuantities(buy)
    ensures MaxRepetitions(items, buy, limit) <= limit
    ensures forall k :: 0 <= k < |buy| ==> MaxRepetitions(items, buy, limit) <= Ratio(items, buy[k])
    ensures MaxRepetitions(items, buy, limit) == limit ||
      exists k :: 0 <= k < |buy| && MaxRepetitions(items, buy, limit) == Ratio(items, buy[k])
    decreases |buy|
  {
    if buy != [] {
      var init := buy[..|buy| - 1];
      MaxRepetitionsIsMinimum(items, init, limit);
      var r := MaxRepetitions(items, buy, limit);
      forall k | 0 <= k < |buy|
        ensures r <= Ratio(items, buy[k])
      {
        if k < |buy| - 1 {
          assert buy[k] == init[k];
        }
      }
      if r != limit {
        if r == Ratio(items, buy[|buy| - 1]) {
        } else {
          var k :| 0 <= k < |init| && MaxRepetitions(items, init, limit) == Ratio(items, init[k]);
          assert buy[k] == init[k];
        }
      }
    }
  }

  /** With an empty buy list the count is the limit itself. */
  lemma NoBuyPairsUseLimit(items: seq<CartItem>, limit: int)
    requires DistinctIds(items)
    ensures MaxRepetitions(items, [], limit) == limit
  {
  }

  /** A qualifying cart with a limit of at least one gets at least one repetition. */
  lemma {:induction false} MaxRepetitionsAtLeastOne(items: seq<CartItem>, buy: seq<ProductDetail>, limit: int)
    requires DistinctIds(items) && AllSatisfied(items, buy) && PositiveQuantities(buy)
    requires limit >= 1
    ensures MaxRepetitions(items, buy, limit) >= 1
    decreases |buy|
  {
    if buy != [] {
      var init := buy[..|buy| - 1];
      MaxRepetitionsAtLeastOne(items, init, limit);
      var d := buy[|buy| - 1];
      DivisionAtLeastOne(LineOf(items, d.productId).quantity, d.quantity);
    }
  }

  lemma DivisionAtLeastOne(a: int, b: int)
    requires a >= b >= 1
    ensures Quot(a, b) >= 1
  {
    QuotNatural(a, b);
    var q, r := a / b, a % b;
    assert a == b * q + r && r < b;
    assert b * q >= 1;
  }

  /** Σ of Share over the lines. */
  function SumShares(items: seq<CartItem>, gs: seq<ProductDetail>): real
    decreases |items|
  {
    if items == [] then 0.0 else SumShares(items[..|items| - 1], gs) + Share(items[|items| - 1], gs)
  }

  /** Σ over the lines holding product `p` of their unit price × q. */
  function Hits(items: seq<CartItem>, p: int, q: int): real
    decreases |items|
  {
    if items == [] then 0.0
    else
      var it := items[|items| - 1];
      Hits(items[..|items| - 1], p, q) + (if it.productId == p then it.price * q as real else 0.0)
  }

  lemma {:induction false} SumSharesSnoc(items: seq<CartItem>, gs: seq<ProductDetail>, g: ProductDetail)
    ensures SumShares(items, gs + [g]) == SumShares(items, gs) + Hits(items, g.productId, g.quantity)
    decreases |items|
  {
    if items != [] {
      SumSharesSnoc(items[..|items| - 1], gs, g);
      assert (gs + [g])[..|gs + [g]| - 1] == gs;
    }
  }

  lemma {:induction false} HitsAbsent(items: seq<CartItem>, p: int, q: int)
    requires forall k :: 0 <= k < |items| ==> items[k].productId != p
    ensures Hits(items, p, q) == 0.0
    decreases |items|
  {
    if items != [] {
      HitsAbsent(items[..|items| - 1], p, q);
    }
  }

  lemma {:induction false} HitsUnique(items: seq<CartItem>, k0: int, q: int)
    requires DistinctIds(items) && 0 <= k0 < |items|
    ensures Hits(items, items[k0].productId, q) == items[k0].price * q as real
    decreases |items|
  {
    var init := items[..|items| - 1];
    if k0 == |items| - 1 {
      HitsAbsent(init, items[k0].productId, q);
    } else {
      assert init[k0] == items[k0];
      HitsUnique(init, k0, q);
    }
  }

  /** Exchanging the two sums: Σ over lines of their shares is the reward per repetition. */
  lemma {:induction false} SumSharesIsReward(items: seq<CartItem>, gs: seq<ProductDetail>)
    requires DistinctIds(items) && AllSatisfied(items, gs)
    ensures SumShares(items, gs) == RewardPerRepetition(items, gs)
    decreases |gs|
  {
    if gs == [] {
      SumSharesEmpty(items);
    } else {
      var init := gs[..|gs| - 1];
      var g := gs[|gs| - 1];
      assert init + [g] == gs;
      SumSharesIsReward(items, init);
      SumSharesSnoc(items, init, g);
      HitsUnique(items, ProductIndex(items)[g.productId], g.quantity);
    }
  }

  lemma {:induction false} SumSharesEmpty(items: seq<CartItem>)
    ensures SumShares(items, []) == 0.0
    decreases |items|
  {
    if items != [] {
      SumSharesEmpty(items[..|items| - 1]);
    }
  }

  /** n repetitions add n × the line's share to its discount. */
  lemma RewardedLineDiscount(it: CartItem, gs: seq<ProductDetail>, n: nat)
    ensures RewardedLine(it, gs, n).totalDiscount == it.totalDiscount + Scale(n, Share(it, gs))
  {
    assert gs[..0] == [];
    if !Rewarded(it.productId, gs) {
      ShareUnrewarded(it, gs);
    }
  }

  lemma SumRewardedLines(items: seq<CartItem>, gs: seq<ProductDetail>, n: nat)
    ensures SumLineDiscounts(RewardedLines(items, gs, n)) == SumLineDiscounts(items) + Scale(n, SumShares(items, gs))
  {
    var after := RewardedLines(items, gs, n);
    forall k | 0 <= k < |items|
      ensures after[k].totalDiscount == items[k].totalDiscount + Scale(n, Share(items[k], gs))
    {
      RewardedLinesAt(items, gs, n, k);
      RewardedLineDiscount(items[k], gs, n);
    }
    SumShifted(after, items, gs, n);
  }

  /** Lines whose discounts each grew by n × their share: the sum grew by n × Σ of the shares. */
  lemma {:induction false} SumShifted(after: seq<CartItem>, before: seq<CartItem>, gs: seq<ProductDetail>, n: nat)
    requires |after| == |before|
    requires forall k :: 0 <= k < |before| ==>
      after[k].totalDiscount == before[k].totalDiscount + Scale(n, Share(before[k], gs))
    ensures SumLineDiscounts(after) == SumLineDiscounts(before) + Scale(n, SumShares(before, gs))
    decreases |before|
  {
    if before != [] {
      var ai, bi := after[..|after| - 1], before[..|before| - 1];
      forall k | 0 <= k < |bi|
        ensures ai[k].totalDiscount == bi[k].totalDiscount + Scale(n, Share(bi[k], gs))
      {
        assert ai[k] == after[k] && bi[k] == before[k];
      }
      SumShifted(ai, bi, gs, n);
      ScaleAdd(n, SumShares(bi, gs), Share(before[|before| - 1], gs));
    } else {
      ScaleZero(n);
    }
  }

  lemma RewardedLinesAt(items: seq<CartItem>, gs: seq<ProductDetail>, n: nat, k: int)
    requires 0 <= k < |items|
    ensures |RewardedLines(items, gs, n)| == |items|
    ensures RewardedLines(items, gs, n)[k] == RewardedLine(items[k], gs, n)
  {
  }

  lemma RewardedLinesPrefix(items: seq<CartItem>, gs: seq<ProductDetail>, n: nat)
    requires items != []
    ensures RewardedLines(items, gs, n)[..|items| - 1] == RewardedLines(items[..|items| - 1], gs, n)
  {
    var init := items[..|items| - 1];
    forall k | 0 <= k < |init|
      ensures RewardedLines(items, gs, n)[k] == RewardedLines(init, gs, n)[k]
    {
      RewardedLinesAt(items, gs, n, k);
      RewardedLinesAt(init, gs, n, k);
    }
  }

  /**
   * After application to a qualifying cart, Σ of the line discounts has grown
   * by exactly the cart discount the strategy sets.
   */
  lemma AppliedLineDiscountsSum(v: CartView, c: Coupon)
    requires c.rules.BxGyRules? && Divisible(c.rules) && DistinctIds(v.items)
    requires Qualifies(v.items, c) && v.totalOriginalPrice.Some?
    ensures var w := Applied(v, c);
      w.totalDiscount.Some? &&
      SumLineDiscounts(w.items) == SumLineDiscounts(v.items) + w.totalDiscount.value
  {
    var gs := c.rules.getProducts;
    var n := Times(Repetitions(v.items, c));
    var reward := RewardPerRepetition(v.items, gs);
    var w := Applied(v, c);
    assert w.items == RewardedLines(v.items, gs, n);
    assert w.totalDiscount.value == Scale(n, reward);
    SumRewardedLines(v.items, gs, n);
    SumSharesIsReward(v.items, gs);
  }

  /**
   * Line by line: a line no get pair names keeps its discount (and gets its
   * line total as final price if it had none); a named line, when at least one
   * repetition applies, gains repetitions × its share and ends at line total
   * less its discount. With no repetition every line only goes through the
   * fill pass.
   */
  lemma AppliedLines(v: CartView, c: Coupon, k: int)
    requires c.rules.BxGyRules? && Divisible(c.rules) && DistinctIds(v.items)
    requires Qualifies(v.items, c) && v.totalOriginalPrice.Some?
    requires 0 <= k < |v.items|
    ensures var w := Applied(v, c); var it := v.items[k]; var n := Times(Repetitions(v.items, c));
      && |w.items| == |v.items|
      && w.items[k].productId == it.productId && w.items[k].quantity == it.quantity && w.items[k].price == it.price
      && w.items[k].totalDiscount == it.totalDiscount + Scale(n, Share(it, c.rules.getProducts))
      && (!Rewarded(it.productId, c.rules.getProducts) ==>
            w.items[k].totalDiscount == it.totalDiscount && w.items[k] == Fill(it))
      && (Rewarded(it.productId, c.rules.getProducts) && n > 0 ==>
            w.items[k].finalPrice == Some(LineTotal(it) - w.items[k].totalDiscount))
      && (n == 0 ==> w.items[k] == Fill(it))
  {
    var gs := c.rules.getProducts;
    var n := Times(Repetitions(v.items, c));
    RewardedLineDiscount(v.items[k], gs, n);
    assert gs[..0] == [];
    if !Rewarded(v.items[k].productId, gs) {
      ShareUnrewarded(v.items[k], gs);
    }
  }

  /**
   * The discount is repetitions × reward per repetition: linear in the
   * repetition count, and zero when no repetition applies.
   */
  lemma DiscountLinear(items: seq<CartItem>, c: Coupon)
    requires c.rules.BxGyRules? && Divisible(c.rules) && DistinctIds(items) && Qualifies(items, c)
    ensures Discount(items, c) == Times(Repetitions(items, c)) as real * RewardPerRepetition(items, c.rules.getProducts)
    ensures Repetitions(items, c) <= 0 ==> Discount(items, c) == 0.0
  {
    ScaleIsProduct(Times(Repetitions(items, c)), RewardPerRepetition(items, c.rules.getProducts));
  }

  /** A cart that does not qualify gets no discount and is left exactly as it was. */
  lemma NotQualifiedUntouched(v: CartView, c: Coupon)
    requires c.rules.BxGyRules? && DistinctIds(v.items)
    requires !Qualifies(v.items, c)
    ensures Discount(v.items, c) == 0.0 && Applied(v, c) == v
  {
  }

  /**
   * The one-buy-pair, one-get-pair deal on a two-line cart: the count is the
   * limit or ⌊bought / required⌋, whichever is smaller, and each repetition
   * is worth the get line's price × the get quantity.
   */
  lemma TwoLineDeal(buyLine: CartItem, getLine: CartItem, buy: ProductDetail, get: ProductDetail, limit: int)
    requires buyLine.productId != getLine.productId
    requires buy.productId == buyLine.productId && get.productId == getLine.productId
    requires 1 <= buy.quantity <= buyLine.quantity && get.quantity <= getLine.quantity
    ensures var items := [buyLine, getLine];
      var c := Coupon(1, BxGy, "B", None, None, BxGyRules([buy], [get], limit));
      && DistinctIds(items) && Qualifies(items, c)
      && Repetitions(items, c) == Min(limit, buyLine.quantity / buy.quantity)
      && Discount(items, c) == Scale(Times(Min(limit, buyLine.quantity / buy.quantity)), getLine.price * get.quantity as real)
  {
    var items := [buyLine, getLine];
    var c := Coupon(1, BxGy, "B", None, None, BxGyRules([buy], [get], limit));
    var m := ProductIndex(items);
    assert items[0] == buyLine && items[1] == getLine;
    assert m[buyLine.productId] == 0 && m[getLine.productId] == 1;
    assert [buy][..0] == [] && [get][..0] == [];
    assert Satisfied(items, buy) && Satisfied(items, get);
    assert [buy][0] == buy && [get][0] == get;
    assert Ratio(items, buy) == buyLine.quantity / buy.quantity;
    assert MaxRepetitions(items, [], limit) == limit;
    assert MaxRepetitions(items, [buy], limit) == Min(limit, Ratio(items, buy));
    assert RewardPerRepetition(items, []) == 0.0;
    assert RewardPerRepetition(items, [get]) == getLine.price * get.quantity as real;
  }

  /** Two of product 1 bought, one of product 2 got, limit 1: the discount is 100. */
  lemma ExampleSingleRepetition()
    ensures var items := [NewItem(1, 2, 50.0), NewItem(2, 1, 100.0)];
      var c := Coupon(1, BxGy, "B", None, None, BxGyRules([ProductDetail(1, 2)], [ProductDetail(2, 1)], 1));
      DistinctIds(items) && Discount(items, c) == 100.0
  {
    TwoLineDeal(NewItem(1, 2, 50.0), NewItem(2, 1, 100.0), ProductDetail(1, 2), ProductDetail(2, 1), 1);
  }

  /** Four of product 1 and two of product 2 with limit 2: two repetitions, 200. */
  lemma ExampleTwoRepetitions()
    ensures var items := [NewItem(1, 4, 50.0), NewItem(2, 2, 100.0)];
      var c := Coupon(1, BxGy, "B", None, None, BxGyRules([ProductDetail(1, 2)], [ProductDetail(2, 1)], 2));
      DistinctIds(items) && Discount(items, c) == 200.0
  {
    TwoLineDeal(NewItem(1, 4, 50.0), NewItem(2, 2, 100.0), ProductDetail(1, 2), ProductDetail(2, 1), 2);
  }

  /** Six of product 1 would allow three repetitions, but the limit of 2 caps the discount at 200. */
  lemma ExampleLimitCaps()
    ensures var items := [NewItem(1, 6, 50.0), NewItem(2, 3, 100.0)];
      var c := Coupon(1, BxGy, "B", None, None, BxGyRules([ProductDetail(1, 2)], [ProductDetail(2, 1)], 2));
      DistinctIds(items) && Discount(items, c) == 200.0
  {
    TwoLineDeal(NewItem(1, 6, 50.0), NewItem(2, 3, 100.0), ProductDetail(1, 2), ProductDetail(2, 1), 2);
  }

  /** One of product 1 where two are required: not applicable, no discount. */
  lemma ExampleBuyShort()
    ensures var items := [NewItem(1, 1, 50.0), NewItem(2, 1, 100.0)];
      var c := Coupon(1, BxGy, "B", None, None, BxGyRules([ProductDetail(1, 2)], [ProductDetail(2, 1)], 1));
      DistinctIds(items) && !Qualifies(items, c) && Discount(items, c) == 0.0
  {
    var items := [NewItem(1, 1, 50.0), NewItem(2, 1, 100.0)];
    assert items[0].productId == 1;
    assert ProductIndex(items)[1] == 0;
    assert !Satisfied(items, ProductDetail(1, 2));
    assert [ProductDetail(1, 2)][0] == ProductDetail(1, 2);
  }

  /** Zero of the get product where one is required: not applicable. */
  lemma ExampleGetShort()
    ensures var items := [NewItem(1, 2, 50.0), NewItem(2, 0, 100.0)];
      var c := Coupon(1, BxGy, "B", None, None, BxGyRules([ProductDetail(1, 2)], [ProductDetail(2, 1)], 1));
      DistinctIds(items) && !Qualifies(items, c)
  {
    var items := [NewItem(1, 2, 50.0), NewItem(2, 0, 100.0)];
    assert items[1].productId == 2;
    assert ProductIndex(items)[2] == 1;
    assert !Satisfied(items, ProductDetail(2, 1));
    assert [ProductDetail(2, 1)][0] == ProductDetail(2, 1);
  }

  /**
   * Application on that cart, lines starting at discount 0 and final price
   * 100: cart discount 100 and final price 100; the buy line keeps discount 0
   * and final price 100; the get line ends at discount 100 and final price 0.
   */
  lemma ExampleApply()
    ensures var items := [CartItem(1, 2, 50.0, 0.0, Some(100.0)), CartItem(2, 1, 100.0, 0.0, Some(100.0))];
      var c := Coupon(1, BxGy, "B", None, None, BxGyRules([ProductDetail(1, 2)], [ProductDetail(2, 1)], 1));
      var v := CartView(items, Some(200.0), Some(0.0), Some(200.0));
      DistinctIds(items) && Qualifies(items, c) &&
      var w := Applied(v, c);
      && w.totalDiscount == Some(100.0) && w.finalPrice == Some(100.0)
      && w.items[0] == items[0]
      && w.items[1].totalDiscount == 100.0 && w.items[1].finalPrice == Some(0.0)
  {
    var items := [CartItem(1, 2, 50.0, 0.0, Some(100.0)), CartItem(2, 1, 100.0, 0.0, Some(100.0))];
    var gs := [ProductDetail(2, 1)];
    TwoLineDeal(items[0], items[1], ProductDetail(1, 2), ProductDetail(2, 1), 1);
    assert gs[..0] == [];
    assert !Rewarded(1, gs);
    assert Rewarded(2, gs) by {
      assert gs[0].productId == 2;
    }
    RewardedLinesAt(items, gs, 1, 0);
    RewardedLinesAt(items, gs, 1, 1);
  }

  /**
   * Nothing bounds a line's discount by its own total: three repetitions of a
   * free unit on a one-unit line leave that line at final price -200.
   */
  lemma ExampleNegativeLine()
    ensures var items := [NewItem(1, 3, 10.0), NewItem(2, 1, 100.0)];
      var c := Coupon(1, BxGy, "B", None, None, BxGyRules([ProductDetail(1, 1)], [ProductDetail(2, 1)], 3));
      var v := CartView(items, Some(130.0), None, None);
      DistinctIds(items) && Qualifies(items, c) &&
      Applied(v, c).items[1].finalPrice == Some(-200.0)
  {
    var items := [NewItem(1, 3, 10.0), NewItem(2, 1, 100.0)];
    var gs := [ProductDetail(2, 1)];
    TwoLineDeal(items[0], items[1], ProductDetail(1, 1), ProductDetail(2, 1), 3);
    assert gs[..0] == [];
    assert Rewarded(2, gs) by {
      assert gs[0].productId == 2;
    }
    RewardedLinesAt(items, gs, 3, 1);
  }

  /**
   * A buy pair of quantity zero on a cart holding both products: counting the
   * repetitions divides by zero.
   */
  lemma ExampleZeroBuyQuantity()
    ensures var c := Coupon(1, BxGy, "B", None, None, BxGyRules([ProductDetail(1, 0)], [ProductDetail(2, 1)], 1));
      Fault([NewItem(1, 2, 50.0), NewItem(2, 1, 100.0)], c) == Some(DivisionByZero)
  {
    var c := Coupon(1, BxGy, "B", None, None, BxGyRules([ProductDetail(1, 0)], [ProductDetail(2, 1)], 1));
    var items := [NewItem(1, 2, 50.0), NewItem(2, 1, 100.0)];
    var m := ProductIndex(items);
    assert items[0].productId == 1 && items[1].productId == 2;
    assert m[1] == 0 && m[2] == 1;
    assert Satisfied(items, ProductDetail(1, 0)) && Satisfied(items, ProductDetail(2, 1));
    assert [ProductDetail(1, 0)][0] == ProductDetail(1, 0) && [ProductDetail(2, 1)][0] == ProductDetail(2, 1);
  }

  /**
   * The same coupon on a cart without the buy product does not qualify, so
   * nothing is divided and the discount is zero.
   */
  lemma ExampleZeroBuyQuantityUnmet()
    ensures var c := Coupon(1, BxGy, "B", None, None, BxGyRules([ProductDetail(1, 0)], [ProductDetail(2, 1)], 1));
      Fault([NewItem(2, 1, 100.0)], c) == None && Discount([NewItem(2, 1, 100.0)], c) == 0.0
  {
    var c := Coupon(1, BxGy, "B", None, None, BxGyRules([ProductDetail(1, 0)], [ProductDetail(2, 1)], 1));
    var items := [NewItem(2, 1, 100.0)];
    assert items[0].productId == 2;
    assert 1 !in ProductIndex(items);
    assert [ProductDetail(1, 0)][0] == ProductDetail(1, 0);
  }

  /**
   * A negative buy quantity is met by any cart holding the product, and the
   * quotient is then negative: two units against -1 allow -2 repetitions, so
   * no reward is given even under limit 1.
   */
  lemma ExampleNegativeBuyQuantity()
    ensures var items := [NewItem(1, 2, 50.0)];
      && DistinctIds(items) && AllSatisfied(items, [ProductDetail(1, -1)])
      && MaxRepetitions(items, [ProductDetail(1, -1)], 1) == -2
  {
    var items := [NewItem(1, 2, 50.0)];
    var buy := [ProductDetail(1, -1)];
    var m := ProductIndex(items);
    assert items[0].productId == 1;
    assert m[1] == 0;
    assert buy[0] == ProductDetail(1, -1) && buy[..0] == [];
    assert Satisfied(items, buy[0]);
    assert Quot(2, -1) == -2;
  }

  /** Division truncates toward zero, unlike Euclidean division on a negative dividend. */
  lemma ExampleTruncation()
    ensures Quot(-7, 2) == -3 && Quot(7, -2) == -3 && Quot(-7, -2) == 3 && -7 / 2 == -4
  {
  }
}
