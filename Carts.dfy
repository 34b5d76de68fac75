/**
 * The shopping cart that coupons are evaluated against: line items with their
 * own discount and final price, and the cart-level aggregates.
 */
module Carts {
  import opened Wrappers

  /**
   * One line of the cart. `totalDiscount` starts at zero; `finalPrice` is
   * absent until a strategy computes it.
   */
  datatype CartItem = CartItem(
    productId: int,
    quantity: int,
    price: real,
    totalDiscount: real,
    finalPrice: Option<real>)

  /** A new line as a client submits it: no discount yet, no final price. */
  function NewItem(productId: int, quantity: int, price: real): (it: CartItem)
    ensures it.totalDiscount == 0.0 && it.finalPrice == None
    ensures it.productId == productId && it.quantity == quantity && it.price == price
  {
    CartItem(productId, quantity, price, 0.0, None)
  }

  /** price × quantity of one line. */
  function LineTotal(it: CartItem): real {
    it.price * it.quantity as real
  }

  /** Σ price × quantity over the lines, summed from the first line on. */
  function CartTotal(items: seq<CartItem>): real
    decreases |items|
  {
    if items == [] then 0.0 else CartTotal(items[..|items| - 1]) + LineTotal(items[|items| - 1])
  }

  /** Σ of the per-line discounts. */
  function SumLineDiscounts(items: seq<CartItem>): real
    decreases |items|
  {
    if items == [] then 0.0 else SumLineDiscounts(items[..|items| - 1]) + items[|items| - 1].totalDiscount
  }

  /** True when no two lines carry the same product id. */
  predicate DistinctIds(items: seq<CartItem>) {
    forall i, j :: 0 <= i < j < |items| ==> items[i].productId != items[j].productId
  }

  /** The map from product id to line index that a duplicate-free cart induces. */
  function ProductIndex(items: seq<CartItem>): (m: map<int, nat>)
    requires DistinctIds(items)
    ensures forall i :: 0 <= i < |items| ==> items[i].productId in m && m[items[i].productId] == i
    ensures forall p :: p in m ==> m[p] < |items| && items[m[p]].productId == p
  {
    map i | 0 <= i < |items| :: items[i].productId := i
  }

  /** A value snapshot of a cart: what a `Cart` object holds at one moment. */
  datatype CartView = CartView(
    items: seq<CartItem>,
    totalOriginalPrice: Option<real>,
    totalDiscount: Option<real>,
    finalPrice: Option<real>)

  /**
   * The mutable cart. The list of lines is an array whose slots the strategies
   * overwrite; the three aggregates are nullable and set by the service and the
   * strategies.
   */
  class Cart {
    const items: array<CartItem>
    var totalOriginalPrice: Option<real>
    var totalDiscount: Option<real>
    var finalPrice: Option<real>

    constructor (lines: seq<CartItem>)
      ensures fresh(items)
      ensures View() == CartView(lines, None, None, None)
    {
      items := new CartItem[|lines|](i requires 0 <= i < |lines| => lines[i]);
      totalOriginalPrice, totalDiscount, finalPrice := None, None, None;
    }

    /** The cart's current contents as a value. */
    function View(): CartView
      reads this, items
    {
      CartView(items[..], totalOriginalPrice, totalDiscount, finalPrice)
    }
  }

  /** The cart total is additive over concatenation. */
  lemma {:induction false} CartTotalAppend(a: seq<CartItem>, b: seq<CartItem>)
    ensures CartTotal(a + b) == CartTotal(a) + CartTotal(b)
    decreases |b|
  {
    if b == [] {
      assert a + b == a;
    } else {
      var b' := b[..|b| - 1];
      assert (a + b)[..|a + b| - 1] == a + b';
      CartTotalAppend(a, b');
    }
  }
}
