/** The cart reducer: a closed set of actions over an ordered list of cart
    lines, plus the storage slot that every handled action overwrites. */
module CartStore {
  import opened Types
  import opened Pricing

  datatype Action =
    | AddItem(product: Product)
    | RemoveItem(id: int)
    | UpdateQuantity(id: int, quantity: int)
    | ClearCart
    | LoadCart(payload: seq<CartItem>)

  /** The ids present in a cart. */
  function IdSet(items: seq<CartItem>): set<int> {
    set x | x in items :: x.Id()
  }

  /** At most one line per product id. */
  predicate UniqueIds(items: seq<CartItem>) {
    forall i, j :: 0 <= i < j < |items| ==> items[i].Id() != items[j].Id()
  }

  predicate PositiveQuantities(items: seq<CartItem>) {
    forall i :: 0 <= i < |items| ==> items[i].quantity >= 1
  }

  /** The cart invariant the reducer keeps for its own actions. */
  predicate Valid(items: seq<CartItem>) {
    UniqueIds(items) && PositiveQuantities(items)
  }

  /** `k` is the first position holding `id`. */
  predicate FirstIndexOf(items: seq<CartItem>, id: int, k: int) {
    && 0 <= k < |items|
    && items[k].Id() == id
    && forall j :: 0 <= j < k ==> items[j].Id() != id
  }

  /** `items.findIndex(item => item.id === id)`: the first position holding
      `id`, or -1 when there is none. */
  function FindIndex(items: seq<CartItem>, id: int): (k: int)
    ensures k == -1 <==> id !in IdSet(items)
    ensures k != -1 ==> FirstIndexOf(items, id, k)
    decreases |items|
  {
    if |items| == 0 then -1
    else if items[0].Id() == id then 0
    else
      var k := FindIndex(items[1..], id);
      assert items == [items[0]] + items[1..];
      if k == -1 then -1 else k + 1
  }

  /** ADD_ITEM: one more unit of the first line with the product's id, or a
      new line of one unit at the end. The existing line keeps its own
      fields; only its quantity changes. */
  function AddToCart(items: seq<CartItem>, p: Product): (r: seq<CartItem>)
    ensures p.id !in IdSet(items) ==> r == items + [CartItem(p, 1)]
    ensures forall k {:trigger FirstIndexOf(items, p.id, k)} :: FirstIndexOf(items, p.id, k) ==>
      r == items[k := items[k].(quantity := items[k].quantity + 1)]
    ensures IdSet(r) == IdSet(items) + {p.id}
  {
    var k := FindIndex(items, p.id);
    if k >= 0 then
      var r := items[k := items[k].(quantity := items[k].quantity + 1)];
      assert forall x :: x in r ==> x.Id() in IdSet(items) by {
        forall x | x in r ensures x.Id() in IdSet(items) {
          var i :| 0 <= i < |r| && r[i] == x;
          assert x.Id() == items[i].Id();
        }
      }
      assert forall x :: x in items ==> x.Id() in IdSet(r) by {
        forall x | x in items ensures x.Id() in IdSet(r) {
          var i :| 0 <= i < |items| && items[i] == x;
          assert r[i].Id() == x.Id();
        }
      }
      r
    else
      var r := items + [CartItem(p, 1)];
      assert CartItem(p, 1) in r;
      assert forall x :: x in r ==> x in items || x == CartItem(p, 1);
      r
  }

  /** REMOVE_ITEM: `items.filter(item => item.id !== id)`. */
  function RemoveFromCart(items: seq<CartItem>, id: int): (r: seq<CartItem>)
    ensures forall i :: 0 <= i < |r| ==> r[i].Id() != id
    ensures |r| <= |items|
    decreases |items|
  {
    if |items| == 0 then []
    else
      assert items == [items[0]] + items[1..];
      (if items[0].Id() == id then [] else [items[0]]) + RemoveFromCart(items[1..], id)
  }

  /** `items.map(item => item.id === id ? { ...item, quantity } : item)` */
  function MapQuantity(items: seq<CartItem>, id: int, q: int): (r: seq<CartItem>)
    ensures |r| == |items|
    ensures forall i :: 0 <= i < |items| ==>
      r[i].product == items[i].product &&
      r[i].quantity == (if items[i].Id() == id then q else items[i].quantity)
  {
    seq(|items|, i requires 0 <= i < |items| =>
      if items[i].Id() == id then items[i].(quantity := q) else items[i])
  }

  /** UPDATE_QUANTITY: a quantity of 0 or less removes the id; a positive one
      sets the quantity of every line with that id and creates nothing. */
  function SetQuantity(items: seq<CartItem>, id: int, q: int): (r: seq<CartItem>)
    ensures q <= 0 ==> r == RemoveFromCart(items, id)
    ensures q > 0 ==> |r| == |items| && IdSet(r) == IdSet(items)
    ensures q > 0 ==> forall i :: 0 <= i < |items| ==>
      r[i].product == items[i].product &&
      (items[i].Id() != id ==> r[i] == items[i]) &&
      (items[i].Id() == id ==> r[i].quantity == q)
  {
    if q <= 0 then RemoveFromCart(items, id)
    else
      var r := MapQuantity(items, id, q);
      assert forall x :: x in r ==> x.Id() in IdSet(items) by {
        forall x | x in r ensures x.Id() in IdSet(items) {
          var i :| 0 <= i < |r| && r[i] == x;
          assert x.Id() == items[i].Id();
        }
      }
      assert forall x :: x in items ==> x.Id() in IdSet(r) by {
        forall x | x in items ensures x.Id() in IdSet(r) {
          var i :| 0 <= i < |items| && items[i] == x;
          assert r[i].Id() == x.Id();
        }
      }
      r
  }

  /** The item list after one action. */
  function Next(items: seq<CartItem>, a: Action): seq<CartItem> {
    match a
    case AddItem(p) => AddToCart(items, p)
    case RemoveItem(id) => RemoveFromCart(items, id)
    case UpdateQuantity(id, q) => SetQuantity(items, id, q)
    case ClearCart => []
    case LoadCart(payload) => payload
  }

  // ---------------------------------------------------------------------
  // Persistence

  /** The storage slot under the cart key: nothing yet, or the last list
      written. JSON encoding is taken to be faithful and is not modelled. */
  datatype Slot = Empty | Saved(snapshot: seq<CartItem>)

  /** The reducer's state together with the storage slot it writes. */
  datatype Store = Store(items: seq<CartItem>, slot: Slot)

  const InitialStore: Store := Store([], Empty)

  /** The reducer including its persist step. `inBrowser` is
      `typeof window !== 'undefined'`: outside a browser nothing is written. */
  function Reduce(s: Store, a: Action, inBrowser: bool): (r: Store)
    ensures inBrowser ==> r.slot == Saved(r.items)
    ensures !inBrowser ==> r.slot == s.slot
    ensures a.ClearCart? ==> r.items == []
    ensures a.LoadCart? ==> r.items == a.payload
  {
    var items := Next(s.items, a);
    Store(items, if inBrowser then Saved(items) else s.slot)
  }

  /** What reading the slot at start-up yields. */
  datatype StoredValue = Missing | Unparsable | Parsed(items: seq<CartItem>)

  function Read(slot: Slot): StoredValue {
    match slot
    case Empty => Missing
    case Saved(items) => Parsed(items)
  }

  /** The mount effect: a parsed list is dispatched as LOAD_CART (which
      writes it back); a missing or unparsable value leaves the store as is. */
  function Hydrate(s: Store, stored: StoredValue): (r: Store)
    ensures stored.Parsed? ==> r.items == stored.items && r.slot == Saved(stored.items)
    ensures !stored.Parsed? ==> r == s
  {
    match stored
    case Parsed(items) => Reduce(s, LoadCart(items), true)
    case _ => s
  }

  /** Applies `AddItem` once per product, in order. */
  function AddAll(items: seq<CartItem>, ps: seq<Product>): seq<CartItem>
    decreases |ps|
  {
    if |ps| == 0 then items else AddAll(AddToCart(items, ps[0]), ps[1..])
  }

  // ---------------------------------------------------------------------
  // Properties of single actions

  /** When line `k` is the only one with the product's id, adding the
      product raises exactly that line by one unit and changes nothing else. */
  lemma AddExisting(items: seq<CartItem>, p: Product, k: int)
    requires 0 <= k < |items| && items[k].Id() == p.id
    requires OnlyLineWithId(items, k)
    ensures AddToCart(items, p) == items[k := items[k].(quantity := items[k].quantity + 1)]
  {
    assert FirstIndexOf(items, p.id, k);
  }

  /** Removal keeps exactly the lines with a different id. */
  lemma {:induction false} RemoveMembers(items: seq<CartItem>, id: int)
    ensures forall x :: x in RemoveFromCart(items, id) <==> x in items && x.Id() != id
    decreases |items|
  {
    if |items| > 0 {
      RemoveMembers(items[1..], id);
      assert items == [items[0]] + items[1..];
    }
  }

  /** Removing an id that is not present changes nothing. */
  lemma {:induction false} RemoveAbsent(items: seq<CartItem>, id: int)
    requires forall i :: 0 <= i < |items| ==> items[i].Id() != id
    ensures RemoveFromCart(items, id) == items
    decreases |items|
  {
    if |items| > 0 {
      RemoveAbsent(items[1..], id);
      assert items == [items[0]] + items[1..];
    }
  }

  /** Removal keeps order: it distributes over concatenation. */
  lemma {:induction false} RemoveAppend(a: seq<CartItem>, b: seq<CartItem>, id: int)
    ensures RemoveFromCart(a + b, id) == RemoveFromCart(a, id) + RemoveFromCart(b, id)
    decreases |a|
  {
    if |a| == 0 {
      assert a + b == b;
    } else {
      assert (a + b)[0] == a[0];
      assert (a + b)[1..] == a[1..] + b;
      RemoveAppend(a[1..], b, id);
    }
  }

  /** Removal keeps ids unique. */
  lemma {:induction false} RemoveKeepsUnique(items: seq<CartItem>, id: int)
    requires UniqueIds(items)
    ensures UniqueIds(RemoveFromCart(items, id))
    decreases |items|
  {
    if |items| > 0 {
      var tail := items[1..];
      UniqueSplit(items);
      RemoveKeepsUnique(tail, id);
      var rest := RemoveFromCart(tail, id);
      if items[0].Id() != id {
        RemoveMembers(tail, id);
        forall i | 0 <= i < |rest| ensures rest[i].Id() != items[0].Id() {
          assert rest[i] in tail;
        }
        UniqueCons(items[0], rest);
        assert items == [items[0]] + tail;
      }
    }
  }

  /** A cart with unique ids is its first line followed by a cart with unique
      ids none of which is the first line's. */
  lemma UniqueSplit(items: seq<CartItem>)
    requires UniqueIds(items)
    requires |items| > 0
    ensures UniqueIds(items[1..])
    ensures forall x :: x in items[1..] ==> x.Id() != items[0].Id()
  {
    forall x | x in items[1..] ensures x.Id() != items[0].Id() {
      var j :| 0 <= j < |items[1..]| && items[1..][j] == x;
      assert items[j + 1] == x;
    }
  }

  lemma UniqueCons(x: CartItem, rest: seq<CartItem>)
    requires UniqueIds(rest)
    requires forall i :: 0 <= i < |rest| ==> rest[i].Id() != x.Id()
    ensures UniqueIds([x] + rest)
  {
    var r := [x] + rest;
    forall i, j | 0 <= i < j < |r| ensures r[i].Id() != r[j].Id() {
      if i == 0 {
        assert r[j] == rest[j - 1];
      } else {
        assert r[i] == rest[i - 1] && r[j] == rest[j - 1];
      }
    }
  }

  /** Line `k` is the only line carrying its id. */
  predicate OnlyLineWithId(items: seq<CartItem>, k: int)
    requires 0 <= k < |items|
  {
    forall j :: 0 <= j < |items| && j != k ==> items[j].Id() != items[k].Id()
  }

  /** Removing the id of a line that is the only one with that id cuts out
      exactly that line. */
  lemma RemoveUniqueIsSplice(items: seq<CartItem>, k: int)
    requires 0 <= k < |items|
    requires OnlyLineWithId(items, k)
    ensures RemoveFromCart(items, items[k].Id()) == items[..k] + items[k + 1..]
  {
    var id := items[k].Id();
    var pre, post := items[..k], items[k + 1..];
    forall j | 0 <= j < |pre| ensures pre[j].Id() != id {
      assert pre[j] == items[j];
    }
    forall j | 0 <= j < |post| ensures post[j].Id() != id {
      assert post[j] == items[k + 1 + j];
    }
    SplitAt(items, k);
    RemoveOnlyOccurrence(pre, items[k], post);
  }

  lemma RemoveOnlyOccurrence(pre: seq<CartItem>, x: CartItem, post: seq<CartItem>)
    requires forall j :: 0 <= j < |pre| ==> pre[j].Id() != x.Id()
    requires forall j :: 0 <= j < |post| ==> post[j].Id() != x.Id()
    ensures RemoveFromCart(pre + [x] + post, x.Id()) == pre + post
  {
    var tail := [x] + post;
    RemoveLeadingOccurrence(x, post);
    RemoveAbsent(pre, x.Id());
    RemoveAppend(pre, tail, x.Id());
    assert pre + [x] + post == pre + tail;
  }

  lemma RemoveLeadingOccurrence(x: CartItem, post: seq<CartItem>)
    requires forall j :: 0 <= j < |post| ==> post[j].Id() != x.Id()
    ensures RemoveFromCart([x] + post, x.Id()) == post
  {
    RemoveAbsent(post, x.Id());
    assert ([x] + post)[1..] == post;
  }

  lemma AbsentId(items: seq<CartItem>, id: int)
    requires forall i :: 0 <= i < |items| ==> items[i].Id() != id
    ensures id !in IdSet(items)
  {
    forall x | x in items ensures x.Id() != id {
      var i :| 0 <= i < |items| && items[i] == x;
    }
  }

  /** The ids after each action. */
  lemma IdsAfterAction(items: seq<CartItem>, a: Action)
    ensures a.AddItem? ==> IdSet(Next(items, a)) == IdSet(items) + {a.product.id}
    ensures a.RemoveItem? ==> IdSet(Next(items, a)) == IdSet(items) - {a.id}
    ensures a.UpdateQuantity? && a.quantity > 0 ==> IdSet(Next(items, a)) == IdSet(items)
    ensures a.UpdateQuantity? && a.quantity <= 0 ==> IdSet(Next(items, a)) == IdSet(items) - {a.id}
    ensures a.ClearCart? ==> IdSet(Next(items, a)) == {}
  {
    match a
    case RemoveItem(id) => RemoveIds(items, id);
    case UpdateQuantity(id, q) => if q <= 0 { RemoveIds(items, id); }
    case _ =>
  }

  lemma RemoveIds(items: seq<CartItem>, id: int)
    ensures IdSet(RemoveFromCart(items, id)) == IdSet(items) - {id}
  {
    var r := RemoveFromCart(items, id);
    RemoveMembers(items, id);
    forall n | n in IdSet(items) - {id} ensures n in IdSet(r) {
      var x :| x in items && x.Id() == n;
      assert x in r;
    }
  }

  /** Every action but LOAD_CART keeps the cart invariant; LOAD_CART keeps
      it when its payload satisfies it (the payload is not checked). */
  lemma NextKeepsValid(items: seq<CartItem>, a: Action)
    requires Valid(items)
    requires a.LoadCart? ==> Valid(a.payload)
    ensures Valid(Next(items, a))
  {
    match a
    case AddItem(p) =>
      var r := AddToCart(items, p);
      var k := FindIndex(items, p.id);
      if k == -1 {
        forall i | 0 <= i < |items| ensures items[i].Id() != p.id {
          assert items[i] in items;
        }
        assert r == items + [CartItem(p, 1)];
      } else {
        assert FirstIndexOf(items, p.id, k);
        assert r == items[k := items[k].(quantity := items[k].quantity + 1)];
      }
    case RemoveItem(id) =>
      RemoveKeepsUnique(items, id);
      RemovePositive(items, id);
    case UpdateQuantity(id, q) =>
      if q <= 0 {
        RemoveKeepsUnique(items, id);
        RemovePositive(items, id);
      }
    case ClearCart =>
    case LoadCart(payload) =>
  }

  lemma RemovePositive(items: seq<CartItem>, id: int)
    requires PositiveQuantities(items)
    ensures PositiveQuantities(RemoveFromCart(items, id))
  {
    var r := RemoveFromCart(items, id);
    RemoveMembers(items, id);
    forall i | 0 <= i < |r| ensures r[i].quantity >= 1 {
      assert r[i] in items;
    }
  }

  /** When line `k` is the only one with its id, a positive UPDATE_QUANTITY
      for that id rewrites only that line's quantity. */
  lemma UpdateUniqueIsPointwise(items: seq<CartItem>, k: int, q: int)
    requires 0 <= k < |items|
    requires OnlyLineWithId(items, k)
    requires q > 0
    ensures SetQuantity(items, items[k].Id(), q) == items[k := items[k].(quantity := q)]
  {
  }

  // ---------------------------------------------------------------------
  // Effect of actions on the derived figures

  /** ADD_ITEM adds exactly one unit to the total quantity, and its line's
      effective price to the discounted total. For an id already present
      that is the price stored in the cart, not the one of the product
      passed in. */
  lemma AddEffectOnTotals(items: seq<CartItem>, p: Product)
    ensures TotalQuantity(AddToCart(items, p)) == TotalQuantity(items) + 1
    ensures TotalPrice(AddToCart(items, p)) == TotalPrice(items) +
      (var k := FindIndex(items, p.id); if k == -1 then EffectivePrice(p) else EffectivePrice(items[k].product))
  {
    var k := FindIndex(items, p.id);
    if k == -1 {
      SumAppend(items, [CartItem(p, 1)], Quantity);
      SumAppend(items, [CartItem(p, 1)], LineTotal);
      assert [CartItem(p, 1)][..0] == [];
    } else {
      var x := items[k].(quantity := items[k].quantity + 1);
      assert FirstIndexOf(items, p.id, k);
      SumUpdate(items, k, x, Quantity);
      SumUpdate(items, k, x, LineTotal);
      var e := EffectivePrice(items[k].product);
      assert LineTotal(x) == LineTotal(items[k]) + e by {
        assert e * (items[k].quantity + 1) == e * items[k].quantity + e;
      }
    }
  }

  /** Adding a list of products adds one unit per product. */
  lemma {:induction false} AddAllQuantity(items: seq<CartItem>, ps: seq<Product>)
    ensures TotalQuantity(AddAll(items, ps)) == TotalQuantity(items) + |ps|
    decreases |ps|
  {
    if |ps| > 0 {
      AddEffectOnTotals(items, ps[0]);
      AddAllQuantity(AddToCart(items, ps[0]), ps[1..]);
    }
  }

  /** When line `k` is the only one with its id, removing that id takes away exactly its
      units and its discounted line total. */
  lemma RemoveEffectOnTotals(items: seq<CartItem>, k: int)
    requires 0 <= k < |items|
    requires OnlyLineWithId(items, k)
    ensures TotalQuantity(RemoveFromCart(items, items[k].Id())) == TotalQuantity(items) - items[k].quantity
    ensures TotalPrice(RemoveFromCart(items, items[k].Id())) == TotalPrice(items) - LineTotal(items[k])
  {
    RemoveUniqueIsSplice(items, k);
    SumSplice(items, k, Quantity);
    SumSplice(items, k, LineTotal);
  }

  // ---------------------------------------------------------------------
  // Persistence round trip

  /** After any handled action in a browser, the slot holds the new list, and
      a fresh store hydrated from that slot has the same list. */
  lemma PersistRoundTrip(s: Store, a: Action)
    ensures Reduce(s, a, true).slot == Saved(Reduce(s, a, true).items)
    ensures Hydrate(InitialStore, Read(Reduce(s, a, true).slot)) == Reduce(s, a, true)
  {
  }

  // ---------------------------------------------------------------------
  // A worked scenario

  const ScenarioSale: Product := Product(1, "A", 200, Some(150), "", "")
  const ScenarioPlain: Product := Product(2, "B", 100, None, "", "")

  /** Three units of a product at 200 on sale for 150 and one unit of a
      product at 100: four units, delivery charged; raising the first line to
      four units makes delivery free. */
  lemma CheckoutScenario()
    ensures var items := AddAll([], [ScenarioSale, ScenarioSale, ScenarioSale, ScenarioPlain]);
            && SubtotalPrice(items) == 700
            && TotalPrice(items) == 550
            && SavingsAmount(items) == 150
            && TotalQuantity(items) == 4
            && DeliveryCharge(items) == 40
            && FinalTotal(items) == 590
            && var raised := Next(items, UpdateQuantity(1, 4));
               && TotalQuantity(raised) == 5
               && DeliveryCharge(raised) == 0
               && FinalTotal(raised) == 700
  {
    var items := ScenarioCart();
    TwoLineTotals(CartItem(ScenarioSale, 3), CartItem(ScenarioPlain, 1));
    var raised := Next(items, UpdateQuantity(1, 4));
    assert raised == [CartItem(ScenarioSale, 4), CartItem(ScenarioPlain, 1)];
    TwoLineTotals(CartItem(ScenarioSale, 4), CartItem(ScenarioPlain, 1));
    SavingsIdentity(items);
  }

  lemma ScenarioCart() returns (items: seq<CartItem>)
    ensures items == AddAll([], [ScenarioSale, ScenarioSale, ScenarioSale, ScenarioPlain])
    ensures items == [CartItem(ScenarioSale, 3), CartItem(ScenarioPlain, 1)]
  {
    var p1, p2 := ScenarioSale, ScenarioPlain;
    var s1 := AddToCart([], p1);
    assert s1 == [CartItem(p1, 1)];
    assert FirstIndexOf(s1, 1, 0);
    var s2 := AddToCart(s1, p1);
    assert s2 == [CartItem(p1, 2)];
    assert FirstIndexOf(s2, 1, 0);
    var s3 := AddToCart(s2, p1);
    assert s3 == [CartItem(p1, 3)];
    assert 2 !in IdSet(s3);
    items := AddToCart(s3, p2);
    assert [p1, p1, p1, p2][1..] == [p1, p1, p2];
    assert [p1, p1, p2][1..] == [p1, p2];
    assert [p1, p2][1..] == [p2];
    assert [p2][1..] == [];
    assert AddAll(items, []) == items;
    assert AddAll(s3, [p2]) == items;
    assert AddAll(s2, [p1, p2]) == items;
    assert AddAll(s1, [p1, p1, p2]) == items;
  }

  lemma TwoLineTotals(a: CartItem, b: CartItem)
    ensures TotalQuantity([a, b]) == a.quantity + b.quantity
    ensures TotalPrice([a, b]) == LineTotal(a) + LineTotal(b)
    ensures SubtotalPrice([a, b]) == LineSubtotal(a) + LineSubtotal(b)
  {
    SumPair(a, b, Quantity);
    SumPair(a, b, LineTotal);
    SumPair(a, b, LineSubtotal);
  }

  lemma SumPair(a: CartItem, b: CartItem, f: CartItem -> int)
    ensures Sum([a, b], f) == f(a) + f(b)
  {
    assert [a, b][..1] == [a];
    assert [a][..0] == [];
    assert Sum([a], f) == f(a);
  }
}
