/** One cart line's quantity stepper and line total. */
module CartItemCard {
  import opened Types
  import opened Pricing
  import opened CartStore

  datatype Button = Minus | Plus

  /** The quantity a button asks for. */
  function Requested(item: CartItem, b: Button): int {
    match b
    case Minus => item.quantity - 1
    case Plus => item.quantity + 1
  }

  /** `handleQuantityChange`: a positive quantity is an update, anything
      else removes the line (the removal is dispatched after an animation
      delay, which is not modelled). */
  function QuantityChange(item: CartItem, newQuantity: int): (a: Action)
    ensures a.UpdateQuantity? || a.RemoveItem?
    ensures a.id == item.Id()
    ensures a.UpdateQuantity? <==> newQuantity > 0
    ensures a.UpdateQuantity? ==> a.quantity == newQuantity
  {
    if newQuantity > 0 then UpdateQuantity(item.Id(), newQuantity) else RemoveItem(item.Id())
  }

  /** `handleRemove`: remove exactly this line's id. */
  function RemoveLine(item: CartItem): (a: Action)
    ensures a.RemoveItem? && a.id == item.Id()
  {
    RemoveItem(item.Id())
  }

  // ---------------------------------------------------------------------
  // Properties

  /** The stepper's choice between update and remove is the one the reducer
      would make itself for UPDATE_QUANTITY. */
  lemma StepperAgreesWithReducer(items: seq<CartItem>, item: CartItem, q: int)
    ensures Next(items, QuantityChange(item, q)) == Next(items, UpdateQuantity(item.Id(), q))
  {
  }

  /** On a valid cart, the plus button on line `k` raises exactly
      that line by one unit, as adding its product again would. */
  lemma PlusIsAdd(items: seq<CartItem>, k: int)
    requires Valid(items)
    requires 0 <= k < |items|
    ensures Next(items, QuantityChange(items[k], Requested(items[k], Plus))) ==
      Next(items, AddItem(items[k].product))
    ensures Next(items, QuantityChange(items[k], Requested(items[k], Plus))) ==
      items[k := items[k].(quantity := items[k].quantity + 1)]
  {
    assert OnlyLineWithId(items, k);
    var q := items[k].quantity + 1;
    UpdateUniqueIsPointwise(items, k, q);
    AddExisting(items, items[k].product, k);
    assert QuantityChange(items[k], q) == UpdateQuantity(items[k].Id(), q);
  }

  /** On a valid cart, the minus button lowers line `k` by one unit, or cuts
      the line out when it held a single unit. */
  lemma MinusStep(items: seq<CartItem>, k: int)
    requires Valid(items)
    requires 0 <= k < |items|
    ensures items[k].quantity == 1 ==>
      Next(items, QuantityChange(items[k], Requested(items[k], Minus))) == items[..k] + items[k + 1..]
    ensures items[k].quantity > 1 ==>
      Next(items, QuantityChange(items[k], Requested(items[k], Minus))) ==
        items[k := items[k].(quantity := items[k].quantity - 1)]
  {
    assert OnlyLineWithId(items, k);
    if items[k].quantity == 1 {
      RemoveUniqueIsSplice(items, k);
    } else {
      UpdateUniqueIsPointwise(items, k, items[k].quantity - 1);
    }
  }

  /** On a valid cart, the trash button on line `k` cuts out exactly that
      line, whatever its quantity, and takes away its units and its line
      total. */
  lemma TrashRemovesLine(items: seq<CartItem>, k: int)
    requires Valid(items)
    requires 0 <= k < |items|
    ensures Next(items, RemoveLine(items[k])) == items[..k] + items[k + 1..]
    ensures TotalQuantity(Next(items, RemoveLine(items[k]))) == TotalQuantity(items) - items[k].quantity
    ensures TotalPrice(Next(items, RemoveLine(items[k]))) == TotalPrice(items) - LineTotal(items[k])
  {
    assert OnlyLineWithId(items, k);
    RemoveUniqueIsSplice(items, k);
    RemoveEffectOnTotals(items, k);
  }

  /** The amount a card shows for its line, `effectivePrice * item.quantity`,
      moves by one unit price per step, and the cart's discounted total moves
      with it (minus is taken on a line it keeps, one holding more than one
      unit). */
  lemma StepMovesShownAmount(items: seq<CartItem>, k: int, b: Button)
    requires Valid(items)
    requires 0 <= k < |items|
    requires b == Minus ==> items[k].quantity > 1
    ensures var after := Next(items, QuantityChange(items[k], Requested(items[k], b)));
      var step := if b == Plus then EffectivePrice(items[k].product) else -EffectivePrice(items[k].product);
      && |after| == |items|
      && LineTotal(after[k]) == LineTotal(items[k]) + step
      && TotalPrice(after) == TotalPrice(items) + step
  {
    var x := items[k].(quantity := Requested(items[k], b));
    if b == Plus {
      PlusIsAdd(items, k);
    } else {
      MinusStep(items, k);
    }
    SumUpdate(items, k, x, LineTotal);
  }

  /** Either button keeps the cart invariant. */
  lemma StepKeepsValid(items: seq<CartItem>, k: int, b: Button)
    requires Valid(items)
    requires 0 <= k < |items|
    ensures Valid(Next(items, QuantityChange(items[k], Requested(items[k], b))))
  {
    NextKeepsValid(items, QuantityChange(items[k], Requested(items[k], b)));
  }

  /** Each button moves the total quantity by exactly one unit. */
  lemma StepMovesQuantityByOne(items: seq<CartItem>, k: int, b: Button)
    requires Valid(items)
    requires 0 <= k < |items|
    ensures TotalQuantity(Next(items, QuantityChange(items[k], Requested(items[k], b)))) ==
      TotalQuantity(items) + (if b == Plus then 1 else -1)
  {
    match b
    case Plus =>
      PlusIsAdd(items, k);
      AddEffectOnTotals(items, items[k].product);
    case Minus =>
      MinusStep(items, k);
      assert OnlyLineWithId(items, k);
      if items[k].quantity == 1 {
        RemoveEffectOnTotals(items, k);
      } else {
        var x := items[k].(quantity := items[k].quantity - 1);
        SumUpdate(items, k, x, Quantity);
      }
  }
}
