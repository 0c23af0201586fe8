/** The pricing rules of the cart: pure folds over the item list and the
    free-delivery threshold. */
module Pricing {
  import opened Types

  /** Units needed before delivery becomes free. */
  const MinimumOrderQuantity: int := 5
  /** Flat delivery charge below the threshold. */
  const DeliveryFee: int := 40

  /** JavaScript truthiness of `discountPrice`: an absent field and 0 both
      mean "no discount". */
  predicate HasDiscount(p: Product) {
    p.discountPrice.Some? && p.discountPrice.value != 0
  }

  /** `discountPrice || price` */
  function EffectivePrice(p: Product): int {
    if HasDiscount(p) then p.discountPrice.value else p.price
  }

  /** A product priced as the catalog intends: a positive list price and, if
      present, a sale price strictly between 0 and the list price. */
  predicate WellPriced(p: Product) {
    && p.price > 0
    && (p.discountPrice.Some? ==> 0 < p.discountPrice.value < p.price)
  }

  /** A well-priced line holding at least one unit. */
  predicate WellFormedLine(item: CartItem) {
    WellPriced(item.product) && item.quantity >= 1
  }

  /** What a line costs after its item discount. */
  function LineTotal(item: CartItem): int {
    EffectivePrice(item.product) * item.quantity
  }

  /** What a line would cost at list price. */
  function LineSubtotal(item: CartItem): int {
    item.product.price * item.quantity
  }

  /** What a line saves through its item discount. */
  function LineSavings(item: CartItem): int {
    if HasDiscount(item.product) then
      (item.product.price - item.product.discountPrice.value) * item.quantity
    else
      0
  }

  function Quantity(item: CartItem): int {
    item.quantity
  }

  /** `items.reduce((acc, item) => acc + f(item), 0)`: a left fold, the last
      item is added last. */
  function Sum(items: seq<CartItem>, f: CartItem -> int): int
    decreases |items|
  {
    if |items| == 0 then 0 else Sum(items[..|items| - 1], f) + f(items[|items| - 1])
  }

  function TotalPrice(items: seq<CartItem>): int {
    Sum(items, LineTotal)
  }

  function SubtotalPrice(items: seq<CartItem>): int {
    Sum(items, LineSubtotal)
  }

  function SavingsAmount(items: seq<CartItem>): int {
    Sum(items, LineSavings)
  }

  function TotalQuantity(items: seq<CartItem>): int {
    Sum(items, Quantity)
  }

  predicate HasMinimumOrder(items: seq<CartItem>) {
    TotalQuantity(items) >= MinimumOrderQuantity
  }

  function DeliveryCharge(items: seq<CartItem>): int {
    if HasMinimumOrder(items) then 0 else DeliveryFee
  }

  function FinalTotal(items: seq<CartItem>): int {
    TotalPrice(items) + DeliveryCharge(items)
  }

  // ---------------------------------------------------------------------
  // Facts about the fold

  lemma {:induction false} SumAppend(a: seq<CartItem>, b: seq<CartItem>, f: CartItem -> int)
    ensures Sum(a + b, f) == Sum(a, f) + Sum(b, f)
    decreases |b|
  {
    if |b| == 0 {
      assert a + b == a;
    } else {
      var b' := b[..|b| - 1];
      assert (a + b)[..|a + b| - 1] == a + b';
      assert (a + b)[|a + b| - 1] == b[|b| - 1];
      SumAppend(a, b', f);
    }
  }

  /** Replacing one line changes the fold by exactly the difference of that
      line's terms. */
  lemma SumUpdate(items: seq<CartItem>, k: int, x: CartItem, f: CartItem -> int)
    requires 0 <= k < |items|
    ensures Sum(items[k := x], f) == Sum(items, f) - f(items[k]) + f(x)
  {
    var pre, post := items[..k], items[k + 1..];
    SplitAt(items, k);
    assert items[k := x] == pre + [x] + post;
    SumSingle(items[k], f);
    SumSingle(x, f);
    SumAppend(pre, [items[k]], f);
    SumAppend(pre + [items[k]], post, f);
    SumAppend(pre, [x], f);
    SumAppend(pre + [x], post, f);
  }

  /** Cutting one line out changes the fold by exactly that line's term. */
  lemma SumSplice(items: seq<CartItem>, k: int, f: CartItem -> int)
    requires 0 <= k < |items|
    ensures Sum(items[..k] + items[k + 1..], f) == Sum(items, f) - f(items[k])
  {
    var pre, mid, post := items[..k], [items[k]], items[k + 1..];
    SplitAt(items, k);
    SumSingle(items[k], f);
    SumAppend(pre, mid, f);
    SumAppend(pre + mid, post, f);
    SumAppend(pre, post, f);
  }

  lemma SplitAt(items: seq<CartItem>, k: int)
    requires 0 <= k < |items|
    ensures items == items[..k] + [items[k]] + items[k + 1..]
  {
  }

  lemma SumSingle(x: CartItem, f: CartItem -> int)
    ensures Sum([x], f) == f(x)
  {
    assert [x][..0] == [];
  }

  /** A fold of terms that are never negative is never negative, and it is
      zero exactly when every term is zero. */
  lemma {:induction false} SumNonNegative(items: seq<CartItem>, f: CartItem -> int)
    requires forall i :: 0 <= i < |items| ==> f(items[i]) >= 0
    ensures Sum(items, f) >= 0
    ensures Sum(items, f) == 0 <==> forall i :: 0 <= i < |items| ==> f(items[i]) == 0
    decreases |items|
  {
    if |items| > 0 {
      var init := items[..|items| - 1];
      assert forall i :: 0 <= i < |init| ==> init[i] == items[i];
      SumNonNegative(init, f);
    }
  }

  // ---------------------------------------------------------------------
  // Properties of the pricing rules

  /** Per line, list price minus discounted price is the line's savings. */
  lemma LineSavingsIdentity(item: CartItem)
    ensures LineSubtotal(item) - LineTotal(item) == LineSavings(item)
  {
    var p := item.product;
    if HasDiscount(p) {
      calc {
        LineSubtotal(item) - LineTotal(item);
        p.price * item.quantity - p.discountPrice.value * item.quantity;
        (p.price - p.discountPrice.value) * item.quantity;
      }
    }
  }

  /** For every cart, subtotal minus discounted total is the savings amount. */
  lemma {:induction false} SavingsIdentity(items: seq<CartItem>)
    ensures SubtotalPrice(items) - TotalPrice(items) == SavingsAmount(items)
    decreases |items|
  {
    if |items| > 0 {
      SavingsIdentity(items[..|items| - 1]);
      LineSavingsIdentity(items[|items| - 1]);
    }
  }

  /** On a well-formed line the effective price is positive, at most the list
      price, and strictly below it exactly when the line is discounted. */
  lemma LineTotalBounds(item: CartItem)
    requires WellFormedLine(item)
    ensures 0 < EffectivePrice(item.product) <= item.product.price
    ensures EffectivePrice(item.product) < item.product.price <==> HasDiscount(item.product)
    ensures 0 < LineTotal(item) <= LineSubtotal(item)
    ensures LineTotal(item) < LineSubtotal(item) <==> HasDiscount(item.product)
  {
    var e, p, q := EffectivePrice(item.product), item.product.price, item.quantity;
    assert e * q <= p * q by {
      assert (p - e) * q >= 0;
    }
    if HasDiscount(item.product) {
      assert (p - e) * q > 0;
    }
  }

  /** Savings of a cart of well-formed lines are never negative and are zero
      exactly when no line carries a discount. */
  lemma SavingsCharacterised(items: seq<CartItem>)
    requires forall i :: 0 <= i < |items| ==> WellFormedLine(items[i])
    ensures SavingsAmount(items) >= 0
    ensures SavingsAmount(items) == 0 <==> forall i :: 0 <= i < |items| ==> !HasDiscount(items[i].product)
    ensures TotalPrice(items) <= SubtotalPrice(items)
  {
    forall i | 0 <= i < |items|
      ensures LineSavings(items[i]) >= 0
      ensures LineSavings(items[i]) == 0 <==> !HasDiscount(items[i].product)
    {
      LineTotalBounds(items[i]);
      LineSavingsIdentity(items[i]);
    }
    SumNonNegative(items, LineSavings);
    SavingsIdentity(items);
  }

  /** A cart whose lines hold at least one unit each counts at least one
      unit per line. */
  lemma {:induction false} QuantityAtLeastLines(items: seq<CartItem>)
    ensures (forall i :: 0 <= i < |items| ==> items[i].quantity >= 1) ==> TotalQuantity(items) >= |items|
    decreases |items|
  {
    if |items| > 0 {
      var init := items[..|items| - 1];
      assert forall i :: 0 <= i < |init| ==> init[i] == items[i];
      QuantityAtLeastLines(init);
    }
  }

  /** Delivery is free exactly from five units on, costs 40 below that, and
      the final total is the list price less savings plus delivery. */
  lemma DeliveryThreshold(items: seq<CartItem>)
    ensures DeliveryCharge(items) == 0 <==> TotalQuantity(items) >= 5
    ensures TotalQuantity(items) <= 4 ==> DeliveryCharge(items) == 40
    ensures FinalTotal(items) - DeliveryCharge(items) == TotalPrice(items)
    ensures FinalTotal(items) == SubtotalPrice(items) - SavingsAmount(items) + DeliveryCharge(items)
  {
    SavingsIdentity(items);
  }
}
