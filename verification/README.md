# Cart engine of the Jivuma storefront, in Dafny

This project models the cart logic of a small spice-shop storefront:

- the cart reducer, with its five actions (`ADD_ITEM`, `REMOVE_ITEM`,
  `UPDATE_QUANTITY`, `CLEAR_CART`, `LOAD_CART`) and the step that writes the
  new item list to the browser's storage slot;
- the derived prices: the total after item discounts, the list-price
  subtotal, the savings, the total quantity, the five-unit free-delivery
  threshold with its flat charge of 40, and the final total;
- the order summary's coupon rule (`JIVUMA10` and `JIVUMA20`, matched without
  regard to case), the displayed price after the coupon, and the "add n more
  packets" shortfall;
- the quantity stepper on each cart line.

Money and quantities are unbounded integers (whole rupees and units). The
coupon discount is a `real`, because the source multiplies the total by 0.1
or 0.2. `discountPrice || price` follows JavaScript truthiness: both a
missing sale price and a sale price of 0 fall back to the list price
(`Pricing.HasDiscount`).

Files, one module each:

| file | module | models |
|---|---|---|
| types.dfy | `Types` | `Product` and `CartItem` (src/app/types/index.ts) |
| pricing.dfy | `Pricing` | the pricing functions of src/app/context/CartContext.tsx |
| cart_store.dfy | `CartStore` | `cartReducer`, persistence and start-up hydration |
| cart_summary.dfy | `CartSummary` | coupon lookup, final price and shortfall from src/app/components/CartSummary.tsx |
| cart_item_card.dfy | `CartItemCard` | the +/- stepper of src/app/components/CartItemCard.tsx |

Three behaviours of the code shape the model:

- `LOAD_CART` goes through the same persist step as every other action
  (CartContext.tsx:82-93), so `Hydrate` writes the loaded list back to the
  slot.
- The saved list is cast to `CartItem[]` without validation
  (CartContext.tsx:127-128), so `NextKeepsValid` needs a valid payload for
  `LOAD_CART`.
- Adding an id that is already present keeps that line's stored fields,
  including its price, and only raises its quantity (CartContext.tsx:40-43).
  `AddEffectOnTotals` states this.

Two more facts about the code. First, the coupon input is never shown:
`showCouponInput` starts false, and the button that toggles it is commented
out (CartSummary.tsx:79-93). The handler is still modelled. Second, the
coupon discount is computed once, when the coupon is applied. If the cart
shrinks afterwards, the displayed price can go below zero
(`StaleCouponGoesNegative`: 20% taken on 10 units at 100, then the line
stepped down to 1 unit, shows 100 + 40 - 200 = -60).

## Model

| member | source | states |
|---|---|---|
| Pricing.EffectivePrice | src/app/context/CartContext.tsx:156 | definition: the sale price when it is truthy, else the list price (computed the same way on the card, CartItemCard.tsx:34); properties in Pricing.LineTotalBounds |
| Pricing.LineTotal | src/app/context/CartContext.tsx:156-157 | definition: effective price times quantity; properties in Pricing.LineTotalBounds and CartStore.RemoveEffectOnTotals |
| Pricing.TotalPrice | src/app/context/CartContext.tsx:153-161 | definition: left fold of the line totals from 0; properties in Pricing.SavingsIdentity, Pricing.SavingsCharacterised and CartStore.AddEffectOnTotals |
| Pricing.SubtotalPrice | src/app/context/CartContext.tsx:164-169 | definition: left fold of list price times quantity; properties in Pricing.SavingsIdentity |
| Pricing.SavingsAmount | src/app/context/CartContext.tsx:172-182 | definition: left fold adding (price - sale price) times quantity for discounted lines only; properties in Pricing.SavingsIdentity and Pricing.SavingsCharacterised |
| Pricing.TotalQuantity | src/app/context/CartContext.tsx:185-187 | definition: left fold of the quantities; properties in Pricing.QuantityAtLeastLines and CartStore.AddEffectOnTotals |
| Pricing.HasMinimumOrder | src/app/context/CartContext.tsx:190-192 | definition: total quantity at least 5; properties in Pricing.DeliveryThreshold |
| Pricing.DeliveryCharge | src/app/context/CartContext.tsx:195-197 | definition: 0 when the minimum order is met, else 40; properties in Pricing.DeliveryThreshold |
| Pricing.FinalTotal | src/app/context/CartContext.tsx:200-202 | definition: discounted total plus delivery; properties in Pricing.DeliveryThreshold |
| Pricing.SavingsIdentity | src/app/context/CartContext.tsx:153-182 | for every cart, subtotal minus discounted total equals the savings amount (the three folds agree on what counts as a discount) |
| Pricing.SavingsCharacterised | src/app/context/CartContext.tsx:171-182 | on lines with sensible prices and at least one unit, savings are never negative, are zero exactly when no line is discounted, and the discounted total never exceeds the subtotal |
| Pricing.LineTotalBounds | src/app/context/CartContext.tsx:156-157 | on a well-priced line the effective price (sale price if truthy, else list price) lies in (0, price]; it is below the list price exactly when the line is discounted; the same holds for the line total against the list-price line total |
| Pricing.QuantityAtLeastLines | src/app/context/CartContext.tsx:185-187 | when every line holds at least one unit, the total quantity is at least the number of lines |
| Pricing.DeliveryThreshold | src/app/context/CartContext.tsx:189-202 | delivery is free exactly from 5 units on and costs 40 at 4 or fewer; the final total is the discounted total plus delivery, which equals the subtotal minus savings plus delivery |
| CartStore.FindIndex | src/app/context/CartContext.tsx:33-35 | returns -1 exactly when the id is absent, and otherwise the first position holding the id |
| CartStore.AddToCart | src/app/context/CartContext.tsx:32-53 | a new id appends one line of quantity 1 after the existing lines; an id already present raises its first line by one unit and changes nothing else; the id set gains the product's id |
| CartStore.AddExisting | src/app/context/CartContext.tsx:37-44 | when line k is the only one with the product's id, adding gives the same list with line k's quantity one higher |
| CartStore.RemoveFromCart | src/app/context/CartContext.tsx:54-59 | no line with the removed id is left, and the list never grows |
| CartStore.RemoveMembers | src/app/context/CartContext.tsx:57 | removal keeps exactly the lines whose id differs |
| CartStore.RemoveAbsent | src/app/context/CartContext.tsx:54-59 | removing an id that is absent leaves the list unchanged |
| CartStore.RemoveAppend | src/app/context/CartContext.tsx:57 | removal preserves order: it distributes over concatenation |
| CartStore.RemoveKeepsUnique | src/app/context/CartContext.tsx:54-59 | removal keeps ids unique |
| CartStore.RemoveUniqueIsSplice | src/app/context/CartContext.tsx:54-59 | when line k is the only one with its id, removing that id cuts out exactly line k |
| CartStore.RemoveIds | src/app/context/CartContext.tsx:54-59 | the id set after removal is the old id set minus that id |
| CartStore.SetQuantity | src/app/context/CartContext.tsx:61-77 | a quantity of 0 or less gives the same result as removing the id; a positive one keeps length and id set and changes only the matching lines' quantity, so it never creates a line |
| CartStore.UpdateUniqueIsPointwise | src/app/context/CartContext.tsx:68-75 | when line k is the only one with its id, a positive update rewrites only line k's quantity |
| CartStore.IdsAfterAction | src/app/context/CartContext.tsx:28-88 | the id set after each action: adding adds the id, removing or a non-positive update removes it, a positive update keeps it, clearing empties it |
| CartStore.NextKeepsValid | src/app/context/CartContext.tsx:28-88 | every action keeps ids unique and quantities at least 1; `LOAD_CART` does so when its payload already does |
| CartStore.Next | src/app/context/CartContext.tsx:31-85 | definition: the reducer's switch over the five actions; properties in CartStore.IdsAfterAction and CartStore.NextKeepsValid |
| CartStore.Reduce | src/app/context/CartContext.tsx:78-95 | in a browser every handled action leaves the slot holding the new list, and outside one the slot is untouched; clearing gives the empty list and loading gives the payload |
| CartStore.Hydrate | src/app/context/CartContext.tsx:122-134 | a parsed saved list becomes the cart and is written back; a missing or unparsable value changes nothing |
| CartStore.PersistRoundTrip | src/app/context/CartContext.tsx:90-93 | after any action the slot holds the new list, and a fresh store hydrated from that slot is the same store |
| CartStore.AddEffectOnTotals | src/app/context/CartContext.tsx:32-53 | adding raises the total quantity by exactly 1, and the discounted total by the effective price of the line it bumped or created |
| CartStore.AddAllQuantity | src/app/context/CartContext.tsx:136-138 | adding a list of products raises the total quantity by the list's length |
| CartStore.RemoveEffectOnTotals | src/app/context/CartContext.tsx:54-59 | when line k is the only one with its id, removing it takes away exactly its units and its line total |
| CartStore.CheckoutScenario | src/app/context/CartContext.tsx:153-202 | three units at 200 on sale for 150 plus one at 100 give subtotal 700, total 550, savings 150, 4 units, delivery 40 and final 590; raising the first line to 4 gives 5 units, free delivery and final 700 |
| CartSummary.Trim | src/app/components/CartSummary.tsx:35 | definition: drops leading and trailing ECMAScript whitespace and line terminators; properties in CartSummary.TrimEmptyIffBlank |
| CartSummary.TrimEmptyIffBlank | src/app/components/CartSummary.tsx:35 | `trim()` yields the empty string exactly when the code is all whitespace |
| CartSummary.ToUpper | src/app/components/CartSummary.tsx:41 | upper-casing keeps the length and maps each character on its own |
| CartSummary.Lookup | src/app/components/CartSummary.tsx:34-50 | a blank code is "required"; a code is recognised exactly when it is not blank and its upper-case form is one of the two demo codes, at 10% and 20% respectively; anything else is not found |
| CartSummary.ApplyCoupon | src/app/components/CartSummary.tsx:34-51 | the typed code is untouched; a blank code sets the "Please enter a coupon code" error and keeps the discount; a recognised code clears the error and sets the discount to its fraction of the discounted total; any other code sets "Invalid coupon code" and resets the discount to 0 |
| CartSummary.CouponIsCaseInsensitive | src/app/components/CartSummary.tsx:41-46 | two codes with the same upper-case form have the same outcome |
| CartSummary.PaddedCodeIsInvalid | src/app/components/CartSummary.tsx:41-50 | `" JIVUMA10"` is rejected as invalid with discount 0, because the match does not trim |
| CartSummary.CouponExamples | src/app/components/CartSummary.tsx:34-50 | `jivuma10` on a total of 1000 gives 100; `BADCODE` is invalid with discount 0; the empty code asks for a code |
| CartSummary.FreshCouponPriceBound | src/app/components/CartSummary.tsx:32 | a non-blank coupon applied to the current non-negative total keeps the displayed price at or above 80% of that total plus delivery, so never below 0 |
| CartSummary.StaleCouponGoesNegative | src/app/components/CartSummary.tsx:32 | a 20% coupon taken on 10 units at 100 (discount 200) and kept after the line is updated to 1 unit shows 100 + 40 - 200 = -60, because the discount is not recomputed and the price has no floor |
| CartSummary.FinalPrice | src/app/components/CartSummary.tsx:32 | definition: final total minus the coupon discount, with no floor; properties in CartSummary.FreshCouponPriceBound and CartSummary.StaleCouponGoesNegative |
| CartSummary.FreeDeliveryShortfall | src/app/components/CartSummary.tsx:148-161 | the count is shown exactly when the minimum order is not met; it is at least 1, brings the quantity to exactly 5, and is at most 5 when every line holds a unit |
| CartSummary.ShortfallIsExact | src/app/components/CartSummary.tsx:161 | adding that many more units of anything reaches free delivery, and any fewer does not |
| CartItemCard.Requested | src/app/components/CartItemCard.tsx:93-111 | definition: minus asks for quantity - 1 and plus for quantity + 1; properties in CartItemCard.PlusIsAdd, CartItemCard.MinusStep and CartItemCard.StepMovesQuantityByOne |
| CartItemCard.QuantityChange | src/app/components/CartItemCard.tsx:18-24 | for this line's id, a positive requested quantity is an update to exactly that quantity, and anything else is a removal |
| CartItemCard.RemoveLine | src/app/components/CartItemCard.tsx:26-31 | the dispatched action is a removal of exactly this line's id; its effect is stated in CartItemCard.TrashRemovesLine |
| CartItemCard.TrashRemovesLine | src/app/components/CartItemCard.tsx:26-31 | on a valid cart, the trash button on line k cuts out exactly that line whatever its quantity, lowering the total quantity by its units and the discounted total by its line total |
| CartItemCard.StepperAgreesWithReducer | src/app/components/CartItemCard.tsx:18-24 | the stepper's update-or-remove choice has the same effect as sending `UPDATE_QUANTITY` with the requested quantity |
| CartItemCard.PlusIsAdd | src/app/components/CartItemCard.tsx:111 | on a valid cart, plus (quantity + 1) raises only that line by one unit, the same as adding its product again |
| CartItemCard.MinusStep | src/app/components/CartItemCard.tsx:93 | on a valid cart, minus (quantity - 1) lowers the line by one unit, or cuts it out when it held one unit |
| CartItemCard.StepKeepsValid | src/app/components/CartItemCard.tsx:18-24 | either button keeps ids unique and quantities positive |
| CartItemCard.StepMovesShownAmount | src/app/components/CartItemCard.tsx:33-126 | the card's shown amount `effectivePrice * item.quantity` (the same effective price as the cart's) moves by exactly one unit price when plus, or minus on a line of more than one unit, is pressed, and the cart's discounted total moves by the same amount |
| CartItemCard.StepMovesQuantityByOne | src/app/components/CartItemCard.tsx:93-111 | plus raises the total quantity by exactly 1 and minus lowers it by exactly 1 |

## Left out

- Storage and JSON. `localStorage` is an explicit slot value. `JSON.stringify`
  followed by `JSON.parse` is taken to return the same list. The model does not
  cover a stored value that parses to something other than a list of items
  (the source casts it without checking), nor NaN or Infinity turning into
  `null`.
- Storage write failures. `localStorage.setItem` runs inside the reducer with
  no try/catch (CartContext.tsx:91-93). If it throws (quota exceeded, storage
  disabled), the dispatch throws and the new state is lost. `Reduce` models the
  write as always succeeding.
- React plumbing. The context, `useReducer`, the provider, `useCart`'s throw
  and re-rendering are not modelled. The pricing functions take the item list
  as a parameter. The reducer's `default` branch cannot be reached, because
  the action type is a closed datatype.
- The 300 ms delay before `removeFromCart`. The removal is modelled as
  immediate. Animation and other UI-only state are not modelled.
- Floating point. Prices, quantities and totals are integers, so `toFixed`
  formatting and non-integer quantities are not modelled. The coupon's
  `total * 0.1` is computed in exact reals.
- CartSummary.ToUpper: maps only ASCII letters and the dotless i (U+0131).
  Every other character maps to itself, unlike the full Unicode
  `toUpperCase`. This covers every character whose upper case is a letter of
  `JIVUMA`, so the coupon match comes out the same.
- The checkout page's order message, WhatsApp link and `window.open`; the
  email API route; and the catalog read from the file system. These are
  external I/O.
- ProductCard's rounded discount percentage, which is floating-point display.
- The plural "packet"/"packets" wording of the shortfall message, which is
  presentation only.
