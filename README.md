# Coupon engine — a Dafny model

This project models the discount engine of a Spring Boot coupon service
(package `com.example.demo`) and the in-memory coupon store that drives it:

- **Three discount strategies.** Each one decides whether a cart qualifies,
  computes the discount, and applies it to the cart:
  - cart-wide: a percentage of the cart total, optionally capped, from a threshold on;
  - product-wise: a percentage or a fixed amount per unit off the lines of one product;
  - buy-X-get-Y: the reward lines are discounted once per repetition, and the
    repetition count is bounded by the buy side and by a limit.
- **The strategy factory.** It builds a tag → strategy registry from the list
  of strategy beans and looks strategies up by tag.
- **`CouponService`.** It holds the coupon store (a map keyed by id plus an id
  counter) and offers:
  - create, read, update and delete;
  - listing the applicable coupons for a cart;
  - applying one coupon to a cart.

Money is `real`. The source only adds, subtracts, multiplies and divides by
100 on `BigDecimal`, so exact rationals compute the same values. Quantities
and ids are unbounded `int`s. Dates are day numbers, and "today" is a
parameter of the two operations that read the clock.

Layout:

| file | module | contents |
|---|---|---|
| Wrappers.dfy | `Wrappers` | `Option`, `Result`, `Outcome` |
| Carts.dfy | `Carts` | `CartItem`, the mutable `Cart` class (lines in an `array`) and its value snapshot `CartView`, cart totals |
| Coupons.dfy | `Coupons` | `Coupon` with its variant `Rules`, `CouponType`, requests, `Error` |
| CartWise.dfy | `CartWiseStrategy` | cart-wide strategy |
| ProductWise.dfy | `ProductWiseStrategy` | product-wise strategy; `applyDiscount` rewrites the line array in place |
| BxGy.dfy | `BxGyStrategy` | buy-X-get-Y strategy; the reward loops update the line array in place |
| Strategy.dfy | `CouponStrategy` | the strategy interface as a datatype plus dispatch |
| Factory.dfy | `CouponStrategyFactory` | registry construction and lookup |
| Service.dfy | `Service` | `CouponService` class and the two orchestrators |

Loops of the source are methods proved against recursive specification
functions:
- a method that only computes has `ensures r == F(inputs)`;
- a method that mutates the cart has `ensures cart.View() == F(old(cart.View()))`.

The properties the source promises are lemmas about those functions.

Errors the source raises as exceptions are values of `Coupons.Error`:
- `NotFound`, `Expired`, `NotApplicable` and `InvalidRequest` for the service's own exceptions;
- `UnknownCouponType` for the factory's `IllegalArgumentException`;
- `DuplicateKey` for the `IllegalStateException` that `Collectors.toMap` throws on a repeated key;
- `DivisionByZero` for the `ArithmeticException` a zero buy-pair quantity raises when buy-X-get-Y counts its repetitions.

The model reproduces these behaviours of the code as written:
- The product-wise strategy's discount and application ignore the minimum quantity.
- A buy-X-get-Y reward line can end with a negative final price.
- An update with a request of the wrong class overwrites the common fields before it fails.
- A rejected create still consumes an id.
- Nothing stops a buy-X-get-Y coupon with a zero buy quantity from being stored; once a cart qualifies for it, counting the repetitions divides by zero, and listing the applicable coupons fails with it.

## Model

| member | source | states |
|---|---|---|
| Carts.NewItem | src/main/java/com/example/demo/dto/CartItem.java:15-19 | a line as submitted has a zero discount and no final price, and keeps its product, quantity and price |
| Carts.ProductIndex | src/main/java/com/example/demo/strategy/BxGyCouponStrategy.java:53-54 | for a cart without repeated products, the product-id map sends each line's product to that line, and only to lines carrying that product |
| Carts.CartTotalAppend | src/main/java/com/example/demo/service/CouponService.java:150-152 | the Σ price × quantity reduction is additive over concatenated carts |
| Carts.Cart.constructor | src/main/java/com/example/demo/dto/Cart.java:22-26 | a new cart holds the given lines and has all three aggregates unset |
| CartWiseStrategy.ApplicableMonotone | src/main/java/com/example/demo/strategy/CartWiseCouponStrategy.java:21-24 | raising the cart total never makes an applicable coupon inapplicable |
| CartWiseStrategy.CalculateDiscount | src/main/java/com/example/demo/strategy/CartWiseCouponStrategy.java:27-36 | without a cap the discount is total × percentage / 100; with one it never exceeds the cap or the uncapped amount, and is one of the two |
| CartWiseStrategy.ApplyDiscount | src/main/java/com/example/demo/strategy/CartWiseCouponStrategy.java:39-44 | the cart afterwards is `Applied` of the cart before, whatever its applicability |
| CartWiseStrategy.AppliedTotals | src/main/java/com/example/demo/strategy/CartWiseCouponStrategy.java:39-44 | after application the discount is the calculated one, the final price is total less discount, and the lines and the original total are unchanged |
| CartWiseStrategy.ExampleUncapped | src/test/java/com/example/demo/strategy/CartWiseCouponStrategyTest.java:56-66 | 100 at 10% with no cap: discount 10, as the test asserts; that the coupon is applicable and the final price is 90 is derived by the model |
| CartWiseStrategy.ExampleCapped | src/test/java/com/example/demo/strategy/CartWiseCouponStrategyTest.java:69-80 | 200 at 10% with cap 15: discount 15, final price 185 |
| CartWiseStrategy.ExampleThresholdBoundary | src/main/java/com/example/demo/strategy/CartWiseCouponStrategy.java:23 | a total equal to the threshold qualifies; one below it does not |
| ProductWiseStrategy.ApplicableWithoutMinimum | src/main/java/com/example/demo/strategy/ProductWiseCouponStrategy.java:22-27 | with no minimum, applicable iff some line is for the product; a minimum only takes applicability away |
| ProductWiseStrategy.CalculateDiscount | src/main/java/com/example/demo/strategy/ProductWiseCouponStrategy.java:30-44 | the loop's sum is `TotalDiscount`: each matching line's discount added, the other lines adding nothing |
| ProductWiseStrategy.NoMatchNoDiscount | src/main/java/com/example/demo/strategy/ProductWiseCouponStrategy.java:33-43 | a cart without a line for the product gets discount 0 |
| ProductWiseStrategy.PercentageTakesPrecedence | src/main/java/com/example/demo/strategy/ProductWiseCouponStrategy.java:35-40 | when a percentage is set a line's discount is line total × percentage / 100, whatever the fixed amount |
| ProductWiseStrategy.DiscountIgnoresMinQuantity | src/main/java/com/example/demo/strategy/ProductWiseCouponStrategy.java:30-44 | the discount is the same whatever the minimum quantity |
| ProductWiseStrategy.ExampleMinQuantityIgnored | src/main/java/com/example/demo/strategy/ProductWiseCouponStrategy.java:22-44 | a line below the minimum makes the coupon inapplicable, yet the line's discount is still 10 |
| ProductWiseStrategy.ExampleDiscounts | src/test/java/com/example/demo/strategy/ProductWiseCouponStrategyTest.java:66-81 | 10% of a 100 line is 10; 5 per unit on 2 units is 10 |
| ProductWiseStrategy.ApplyDiscount | src/main/java/com/example/demo/strategy/ProductWiseCouponStrategy.java:47-69 | the in-place rewrite of the line array and the totals yields `Applied` of the cart before, without checking applicability |
| ProductWiseStrategy.AppliedLines | src/main/java/com/example/demo/strategy/ProductWiseCouponStrategy.java:50-65 | a matching line's discount is overwritten with its own discount and its final price is line total less it; any other line keeps its discount and ends at its line total |
| ProductWiseStrategy.AppliedLineDiscountsSum | src/main/java/com/example/demo/strategy/ProductWiseCouponStrategy.java:50-67 | Σ line discounts afterwards = the cart discount + the discounts the non-matching lines already carried |
| ProductWiseStrategy.CartDiscountIsSumOfLines | src/main/java/com/example/demo/strategy/ProductWiseCouponStrategy.java:59-67 | on a fresh cart the cart discount is Σ of the line discounts and the final price is total less that |
| ProductWiseStrategy.UnmatchedZero | src/main/java/com/example/demo/dto/CartItem.java:18 | on lines that start at zero discount the non-matching lines carry nothing |
| BxGyStrategy.CollectByProduct | src/main/java/com/example/demo/strategy/BxGyCouponStrategy.java:28-29 | the product map of a cart without repeated products, or `DuplicateKey` exactly when a product repeats |
| BxGyStrategy.IsApplicable | src/main/java/com/example/demo/strategy/BxGyCouponStrategy.java:26-44 | `DuplicateKey` on a repeated product, otherwise whether every buy and get pair is met |
| BxGyStrategy.SatisfiedIffPresent | src/main/java/com/example/demo/strategy/BxGyCouponStrategy.java:31-43 | a pair is met iff some line has its product with at least its quantity |
| BxGyStrategy.QuotNatural | src/main/java/com/example/demo/strategy/BxGyCouponStrategy.java:59 | the JVM's truncating quotient agrees with ordinary division on a non-negative dividend and a positive divisor |
| BxGyStrategy.ExampleTruncation | src/main/java/com/example/demo/strategy/BxGyCouponStrategy.java:59 | the quotient truncates toward zero: −7 / 2 is −3, where Euclidean division gives −4 |
| BxGyStrategy.MaxRepetitionsIsMinimum | src/main/java/com/example/demo/strategy/BxGyCouponStrategy.java:56-61 | the repetition count is at most the limit and every buy pair's quotient, and equals one of them |
| BxGyStrategy.NoBuyPairsUseLimit | src/main/java/com/example/demo/strategy/BxGyCouponStrategy.java:56-58 | with no buy pairs the repetition count is the limit |
| BxGyStrategy.MaxRepetitionsAtLeastOne | src/main/java/com/example/demo/strategy/BxGyCouponStrategy.java:56-61 | on a qualifying cart with limit ≥ 1 and every buy quantity positive there is at least one repetition |
| BxGyStrategy.ExampleNegativeBuyQuantity | src/main/java/com/example/demo/strategy/BxGyCouponStrategy.java:56-60 | a buy quantity of −1 is met by a line of 2 units, and the count is then 2 / −1 = −2 even under limit 1, so no repetition happens |
| BxGyStrategy.Repeat | src/main/java/com/example/demo/strategy/BxGyCouponStrategy.java:84-89 | the loop over the buy pairs computes `Repetitions` when no buy quantity is zero, and otherwise fails with `DivisionByZero` |
| BxGyStrategy.CalculateDiscount | src/main/java/com/example/demo/strategy/BxGyCouponStrategy.java:47-72 | `DuplicateKey` on a repeated product; `DivisionByZero` on a qualifying cart when a buy quantity is zero; otherwise `Discount`, which is 0 on a cart that does not qualify |
| BxGyStrategy.SumRewards | src/main/java/com/example/demo/strategy/BxGyCouponStrategy.java:63-69 | the nested loops add the reward per repetition once per repetition, none when the count is not positive |
| BxGyStrategy.ScaleIsProduct | src/main/java/com/example/demo/strategy/BxGyCouponStrategy.java:63-71 | adding the per-repetition reward once per repetition equals multiplying it by the repetition count |
| BxGyStrategy.DiscountLinear | src/main/java/com/example/demo/strategy/BxGyCouponStrategy.java:63-71 | discount = repetitions × Σ over get pairs of line price × pair quantity, and 0 when there are no repetitions |
| BxGyStrategy.NotQualifiedUntouched | src/main/java/com/example/demo/strategy/BxGyCouponStrategy.java:76-78 | on a cart that does not qualify the discount is 0 and application returns the cart unchanged |
| BxGyStrategy.ApplyDiscount | src/main/java/com/example/demo/strategy/BxGyCouponStrategy.java:75-111 | `DuplicateKey` on a repeated product, or `DivisionByZero` on a qualifying cart with a zero buy quantity, each with the cart untouched; otherwise the cart afterwards is `Applied` of the cart before |
| BxGyStrategy.RewardCart | src/main/java/com/example/demo/strategy/BxGyCouponStrategy.java:84-109 | on a qualifying cart, `DivisionByZero` with the cart untouched when a buy quantity is zero; otherwise the reward loops, the fill pass and the totals produce `Applied` |
| BxGyStrategy.AddRewards | src/main/java/com/example/demo/strategy/BxGyCouponStrategy.java:91-100 | after n repetitions the accumulated total is n rewards and the line array is the lines after n rounds |
| BxGyStrategy.AddOneRepetition | src/main/java/com/example/demo/strategy/BxGyCouponStrategy.java:93-99 | one pass over the get pairs adds exactly one reward and advances the lines by one round |
| BxGyStrategy.FillFinalPrices | src/main/java/com/example/demo/strategy/BxGyCouponStrategy.java:102-106 | lines with no final price get their line total; the others are left alone |
| BxGyStrategy.PartialHit | src/main/java/com/example/demo/strategy/BxGyCouponStrategy.java:94-97 | a get pair for a line adds its reward to the line's discount and resets the final price to line total less the new discount |
| BxGyStrategy.PartialMiss | src/main/java/com/example/demo/strategy/BxGyCouponStrategy.java:93-94 | a get pair for another product leaves the line as it was |
| BxGyStrategy.ShareUnrewarded | src/main/java/com/example/demo/strategy/BxGyCouponStrategy.java:93-96 | a line named by no get pair receives no reward |
| BxGyStrategy.SumSharesIsReward | src/main/java/com/example/demo/strategy/BxGyCouponStrategy.java:93-98 | Σ over the lines of each line's reward share equals the reward per repetition |
| BxGyStrategy.SumRewardedLines | src/main/java/com/example/demo/strategy/BxGyCouponStrategy.java:92-106 | after n repetitions Σ line discounts grows by n × Σ of the shares |
| BxGyStrategy.AppliedLines | src/main/java/com/example/demo/strategy/BxGyCouponStrategy.java:92-106 | a line's discount grows by repetitions × its share; unrewarded lines keep their discount and only get a final price if unset; when at least one repetition applies, rewarded lines end at line total less their discount; when none applies, every line only goes through the fill pass |
| BxGyStrategy.AppliedLineDiscountsSum | src/main/java/com/example/demo/strategy/BxGyCouponStrategy.java:92-109 | Σ line discounts afterwards = Σ before + the cart discount set at the end |
| BxGyStrategy.TwoLineDeal | src/main/java/com/example/demo/strategy/BxGyCouponStrategy.java:56-71 | for one buy and one get pair: repetitions = min(limit, ⌊buy line quantity / buy quantity⌋), each worth get price × get quantity |
| BxGyStrategy.ExampleSingleRepetition | src/test/java/com/example/demo/strategy/BxGyCouponStrategyTest.java:82-95 | buy 2 of p1, get 1 of p2 at 100, limit 1: discount 100 |
| BxGyStrategy.ExampleTwoRepetitions | src/test/java/com/example/demo/strategy/BxGyCouponStrategyTest.java:98-111 | two repetitions: discount 200 |
| BxGyStrategy.ExampleLimitCaps | src/test/java/com/example/demo/strategy/BxGyCouponStrategyTest.java:114-127 | three possible repetitions under limit 2: discount 200 |
| BxGyStrategy.ExampleBuyShort | src/test/java/com/example/demo/strategy/BxGyCouponStrategyTest.java:50-63 | too few of the buy product: not applicable, discount 0 |
| BxGyStrategy.ExampleGetShort | src/test/java/com/example/demo/strategy/BxGyCouponStrategyTest.java:66-79 | a get line with quantity 0: not applicable |
| BxGyStrategy.ExampleApply | src/test/java/com/example/demo/strategy/BxGyCouponStrategyTest.java:130-157 | the applied cart: discount 100, final 100, buy line unchanged, reward line discount 100 and final price 0 |
| BxGyStrategy.ExampleNegativeLine | src/main/java/com/example/demo/strategy/BxGyCouponStrategy.java:84-99 | three repetitions on a single reward unit drive that line's final price to −200 |
| BxGyStrategy.ExampleZeroBuyQuantity | src/main/java/com/example/demo/strategy/BxGyCouponStrategy.java:86-88 | a buy pair of quantity 0 on a cart holding both products: the operations fail with `DivisionByZero` |
| BxGyStrategy.ExampleZeroBuyQuantityUnmet | src/main/java/com/example/demo/strategy/BxGyCouponStrategy.java:47-50 | the same coupon on a cart without the buy product never reaches the division: no failure, discount 0 |
| CouponStrategy.TypeRoundTrip | src/main/java/com/example/demo/strategy/CouponStrategy.java:10 | each strategy reports its own tag, and tag and strategy determine each other |
| CouponStrategy.Applied | src/main/java/com/example/demo/strategy/CouponStrategy.java:13 | application keeps the original total and the number of lines, and fails only with `DuplicateKey` or `DivisionByZero` |
| CouponStrategy.IsApplicable | src/main/java/com/example/demo/strategy/CouponStrategy.java:11 | dispatch computes the strategy's applicability on the current cart |
| CouponStrategy.CalculateDiscount | src/main/java/com/example/demo/strategy/CouponStrategy.java:12 | dispatch computes the strategy's discount on the current cart |
| CouponStrategy.ApplyDiscount | src/main/java/com/example/demo/strategy/CouponStrategy.java:13 | dispatch leaves the cart as the strategy's `Applied`, or untouched with the failure |
| CouponStrategy.ApplyAgreesWithCalculate | src/main/java/com/example/demo/strategy/CouponStrategy.java:11-13 | for every strategy on an applicable cart, calculateDiscount succeeds iff application does, and then application sets the discount calculateDiscount reports and the final price total less it |
| CouponStrategy.ExampleDuplicateIds | src/main/java/com/example/demo/strategy/BxGyCouponStrategy.java:28-29 | a buy-X-get-Y coupon on a cart with one product on two lines: isApplicable, calculateDiscount and applyDiscount all fail with `DuplicateKey` |
| CouponStrategy.FailuresAgree | src/main/java/com/example/demo/strategy/BxGyCouponStrategy.java:28-59 | calculateDiscount and applyDiscount fail together with the same error, and whenever applicability fails; only buy-X-get-Y fails, on a cart with a repeated product or a qualifying cart with a zero buy quantity |
| CouponStrategyFactory.GetStrategy | src/main/java/com/example/demo/service/CouponStrategyFactory.java:23-26 | lookup succeeds iff the tag is registered, and then returns a strategy of that tag |
| CouponStrategyFactory.BuildRegistry | src/main/java/com/example/demo/service/CouponStrategyFactory.java:18-21 | a successful build keys exactly the listed tags, each to the strategy listed for it |
| CouponStrategyFactory.BuildFailsIffDuplicate | src/main/java/com/example/demo/service/CouponStrategyFactory.java:18-21 | construction fails, with a duplicate key, exactly when two strategies share a tag |
| CouponStrategyFactory.StandardCoversAll | src/test/java/com/example/demo/service/CouponStrategyFactoryTest.java:64-70 | with the three strategies registered every tag finds its strategy |
| CouponStrategyFactory.ExampleDuplicateRegistration | src/main/java/com/example/demo/service/CouponStrategyFactory.java:19-20 | registering one strategy twice fails with `DuplicateKey` |
| Service.NewCoupon | src/main/java/com/example/demo/service/CouponService.java:51-84 | the coupon built for a request has the given id, the request's variant fields (unchecked, as the source copies them) and a tag consistent with them |
| Service.FreshId | src/main/java/com/example/demo/service/CouponService.java:49 | under the store invariant the next id is larger than every stored id |
| Service.Totalled | src/main/java/com/example/demo/service/CouponService.java:150-152 | sets the original total to Σ price × quantity and changes nothing else |
| Service.AssessCoupon | src/main/java/com/example/demo/service/CouponService.java:155-168 | one round of the listing loop: expired skipped, then lookup, applicability and discount, failures propagated |
| Service.PatchTotals | src/main/java/com/example/demo/service/CouponService.java:196-201 | a null cart discount becomes 0, then a null final price becomes total less discount |
| Service.Values | src/main/java/com/example/demo/service/CouponService.java:100-104 | every stored coupon exactly once, in no particular order |
| Service.Assessments | src/main/java/com/example/demo/service/CouponService.java:154-170 | succeeds iff every coupon's assessment succeeds, otherwise fails with one of their errors; the list holds exactly the selected coupons, once each, with their discounts |
| Service.CouponService.constructor | src/main/java/com/example/demo/service/CouponService.java:43-45 | an empty store, counter 0, the factory's registry |
| Service.CouponService.CreateCoupon | src/main/java/com/example/demo/service/CouponService.java:47-92 | the counter always advances; a recognised request is stored and returned under the new id, and an unrecognised one fails with the store unchanged |
| Service.CouponService.GetCouponById | src/main/java/com/example/demo/service/CouponService.java:94-98 | the stored coupon, or `NotFound` |
| Service.CouponService.GetAllCoupons | src/main/java/com/example/demo/service/CouponService.java:100-104 | every stored coupon exactly once |
| Service.CouponService.UpdateCoupon | src/main/java/com/example/demo/service/CouponService.java:106-139 | `NotFound` with the store unchanged; otherwise the common fields are replaced, then the variant fields on a matching class, or the call fails with the common fields already replaced |
| Service.CouponService.DeleteCoupon | src/main/java/com/example/demo/service/CouponService.java:141-146 | `NotFound` with the store unchanged, or exactly that key removed |
| Service.CouponService.GetApplicableCoupons | src/main/java/com/example/demo/service/CouponService.java:148-171 | sets the cart total and nothing else on the cart; the result lists exactly the active coupons the cart qualifies for, with their discounts, or the first failure |
| Service.CouponService.ApplyCoupon | src/main/java/com/example/demo/service/CouponService.java:173-204 | `NotFound`, then `Expired`, with the cart untouched; `NotApplicable` or a strategy failure with only the total set; otherwise the strategy's application plus the null patches |
| Service.PatchesNeverFire | src/main/java/com/example/demo/service/CouponService.java:195-201 | after a successful application both totals are already set, so the patches change nothing |
| Service.ApplyMatchesListing | src/main/java/com/example/demo/service/CouponService.java:160-193 | applying a listed coupon sets the discount the listing reported and the final price total less it; an active coupon the listing skips is refused as not applicable; failures agree |
| Service.CartWiseThreshold | src/main/java/com/example/demo/strategy/CartWiseCouponStrategy.java:21-24 | for an active cart-wide coupon, the listing selects it and applying it gets past the applicability check exactly when the cart's Σ price × quantity is at least the threshold; the threshold itself qualifies |
| Service.ExpirationBoundary | src/main/java/com/example/demo/service/CouponService.java:156 | a coupon is active on its expiration date and expired the day after |
| Service.ExampleSequentialIds | src/test/java/com/example/demo/service/CouponServiceTest.java:232-241 | on a fresh service two creates get ids 1 and 2 |
| Service.ExampleRejectedCreateSpendsId | src/main/java/com/example/demo/service/CouponService.java:49-87 | a rejected create spends id 1, so the next create gets id 2 |
| Service.ExampleMismatchedUpdate | src/main/java/com/example/demo/service/CouponService.java:112-135 | a product-wise update of a cart-wide coupon fails, yet the stored coupon has the new code and the old rules |

## Left out

- The HTTP layer (`CouponController`, `GlobalExceptionHandler`): routing and status codes are plumbing. Its exceptions are the `Error` values.
- Response DTOs and `convertToDto`: reads return the stored `Coupon` itself.
- Jackson polymorphic deserialisation: a request is one of the three known classes or `Unrecognised`.
- Bean validation: the three request subclasses put no constraint on their rule fields, and the buy-pair list is not validated in cascade, so the service stores whatever rules it is sent. The constraints on the entity classes are never checked, because the service builds entities directly. The model therefore accepts every request; a zero buy quantity is stored and surfaces later as `DivisionByZero`. The constraints the controller does check (a non-null code, a non-past expiration date, the cart's annotations) are not modelled.
- Concurrency: `ConcurrentHashMap` and `AtomicLong` become a plain map and an integer field of a sequential class.
- The clock: `LocalDate.now()` is the `today` parameter, and dates are day numbers.
- `BigDecimal` scale and `equals` versus `compareTo` are not modelled; values are compared exactly.
- Java `int` overflow in quantities, the repetition count and the id counter is not modelled; integers are unbounded.
- Integer division is modelled as the JVM's truncating division (`BxGyStrategy.Quot`), which differs from Dafny's Euclidean `/` on negative operands; its `ArithmeticException` on a zero divisor is `DivisionByZero`.
- Iteration order of `coupons.values()`: the listing and `getAllCoupons` promise no order, and the model picks coupons in an unspecified order.
- Null handling:
  - A null product id or price in a line, or a null cart total in a strategy, would throw a `NullPointerException`.
  - The model gives lines non-null fields.
  - The rule fields of a stored coupon are typed as always present in the model. In the source any of them may be null, since requests are not validated.
  - A null cart-wide threshold or percentage, a null buy-X-get-Y repetition limit, a null buy or get list, or a null quantity in a pair is read by the strategy and throws a `NullPointerException` that the model does not have.
  - A null product id throws nothing: it makes the coupon silently inapplicable. For `ProductWiseRules.productId`, no line's id `equals` it, so the coupon is not applicable, its discount is 0 and applying it is refused as not applicable. For the product id of a buy or get pair, the product map never `containsKey` it, so `isApplicable` is false, the discount is 0 and the cart comes back unchanged. Ids are `int` in the model, so these coupons cannot be expressed.
  - The strategies require the cart total to be set, as the service always does before calling them.
- `updateCoupon` mutates the stored coupon object in place. The model replaces the map entry with the updated value, so aliasing of that object by earlier callers is not captured.
- In buy-X-get-Y, the source mutates line objects reached through the product map, which alias the cart's list. The model updates the cart's line array at the index the map gives.
- `getCouponType` is modelled only through its constant tag (`CouponStrategy.GetCouponType`).
- Repeated calls of `calculateDiscount` and repeated factory lookups give the same result. This holds by construction, since both are pure functions in the model; no separate lemma states it.
- Lombok builders and defaults are not modelled; a new line starts at zero discount (`Carts.NewItem`).
