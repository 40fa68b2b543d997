/**
 * The cart store of `src/hooks/use-cart.tsx`: the line identity key, the
 * reducer over its five actions, the `subtotal` and `totalItems` folds, and
 * the store object whose facade methods dispatch into the reducer.
 */
module Cart {
  import opened Shop
  import opened Seqs

  // ---------------------------------------------------------------------------
  // Line identity
  // ---------------------------------------------------------------------------

  /** How a template literal renders an optional size: a missing size becomes the text "undefined". */
  function SizeText(size: Option<string>): string
  {
    match size
    case None => "undefined"
    case Some(s) => s
  }

  /** The line identity key `${id}-${size}`: a plain string, not a pair. */
  function LineKey(id: string, size: Option<string>): string
  {
    id + "-" + SizeText(size)
  }

  /** The key of a cart line. */
  function ItemKey(item: CartItem): string
  {
    LineKey(item.product.id, item.product.size)
  }

  /** The key a product would have as a cart line. */
  function ProductKey(p: Product): string
  {
    LineKey(p.id, p.size)
  }

  /** Two different (id, size) pairs can render to the same key. */
  lemma KeyCollision()
    ensures ("a-b", None) != ("a", Some("b-undefined"))
    ensures LineKey("a-b", None) == LineKey("a", Some("b-undefined"))
  {
    assert "a-b" + "-" + "undefined" == "a" + "-" + "b-undefined";
  }

  /**
   * The key identifies the pair when no id contains '-' and no size is the
   * literal text "undefined".
   */
  lemma {:induction false} LineKeyInjective(id1: string, size1: Option<string>, id2: string, size2: Option<string>)
    requires '-' !in id1 && '-' !in id2
    requires size1 != Some("undefined") && size2 != Some("undefined")
    ensures LineKey(id1, size1) == LineKey(id2, size2) <==> id1 == id2 && size1 == size2
  {
    if LineKey(id1, size1) == LineKey(id2, size2) {
      var k := LineKey(id1, size1);
      assert k == id1 + "-" + SizeText(size1) && k == id2 + "-" + SizeText(size2);
      assert forall j :: 0 <= j < |id1| ==> k[j] == id1[j] != '-';
      assert forall j :: 0 <= j < |id2| ==> k[j] == id2[j] != '-';
      assert k[|id1|] == '-' && k[|id2|] == '-';
      assert |id1| == |id2|;
      assert id1 == k[..|id1|] == id2;
      assert SizeText(size1) == k[|id1| + 1..] == SizeText(size2);
    }
  }

  // ---------------------------------------------------------------------------
  // Searching and folding
  // ---------------------------------------------------------------------------

  /** `findIndex` by key: the first position whose line has `key`, or -1 when there is none. */
  function FindIndex(items: seq<CartItem>, key: string): (i: int)
    ensures -1 <= i < |items|
    ensures i == -1 ==> forall j :: 0 <= j < |items| ==> ItemKey(items[j]) != key
    ensures 0 <= i ==> ItemKey(items[i]) == key && forall j :: 0 <= j < i ==> ItemKey(items[j]) != key
  {
    if items == [] then -1
    else if ItemKey(items[0]) == key then 0
    else
      var i := FindIndex(items[1..], key);
      if i == -1 then -1 else i + 1
  }

  /** `items.reduce((total, item) => total + weight(item), 0)`: a left fold. */
  function SumOf(items: seq<CartItem>, weight: CartItem -> int): int
  {
    if items == [] then 0
    else SumOf(items[..|items| - 1], weight) + weight(items[|items| - 1])
  }

  /** What one line contributes to the subtotal. */
  function LineAmount(item: CartItem): int
  {
    item.product.price * item.quantity
  }

  /** What one line contributes to the item count. */
  function LineQuantity(item: CartItem): int
  {
    item.quantity
  }

  /** `subtotal`: the sum of price times quantity over the lines. */
  function SubtotalOf(items: seq<CartItem>): int
  {
    SumOf(items, LineAmount)
  }

  /** `totalItems`: the sum of the quantities. */
  function TotalItemsOf(items: seq<CartItem>): int
  {
    SumOf(items, LineQuantity)
  }

  /** The folds add up over a concatenation. */
  lemma {:induction false} SumOfAppend(a: seq<CartItem>, b: seq<CartItem>, weight: CartItem -> int)
    ensures SumOf(a + b, weight) == SumOf(a, weight) + SumOf(b, weight)
    decreases |b|
  {
    if b == [] {
      assert a + b == a;
    } else {
      var n := |b| - 1;
      assert (a + b)[..|a + b| - 1] == a + b[..n];
      SumOfAppend(a, b[..n], weight);
    }
  }

  /** Replacing one line changes a fold by the difference of the two lines' weights. */
  lemma SumOfUpdate(items: seq<CartItem>, i: nat, line: CartItem, weight: CartItem -> int)
    requires i < |items|
    ensures SumOf(items[i := line], weight) == SumOf(items, weight) - weight(items[i]) + weight(line)
  {
    var front, back := items[..i], items[i + 1..];
    assert items == front + [items[i]] + back;
    assert items[i := line] == front + [line] + back;
    SumOfAppend(front + [items[i]], back, weight);
    SumOfAppend(front + [line], back, weight);
    assert (front + [line])[..|front|] == front;
    assert (front + [items[i]])[..|front|] == front;
  }

  /** Both folds are 0 on an empty cart. */
  lemma EmptyCartTotals()
    ensures SubtotalOf([]) == 0 && TotalItemsOf([]) == 0
  {
  }

  // ---------------------------------------------------------------------------
  // The reducer
  // ---------------------------------------------------------------------------

  /** The actions the cart reducer understands. */
  datatype CartAction =
    | AddItem(product: Product, quantity: int)
    | RemoveItem(itemId: string)
    | UpdateQuantity(itemId: string, quantity: int)
    | ClearCart
    | SetState(items: seq<CartItem>)

  /**
   * `ADD_ITEM`: the first line with the product's key gets `quantity` more;
   * otherwise a new line is appended. The quantity is not checked for sign.
   */
  function Add(items: seq<CartItem>, product: Product, quantity: int): seq<CartItem>
  {
    var i := FindIndex(items, ProductKey(product));
    if i > -1 then items[i := items[i].(quantity := items[i].quantity + quantity)]
    else items + [CartItem(product, quantity)]
  }

  /** `REMOVE_ITEM`: keeps the lines whose key is not `itemId`. */
  function Remove(items: seq<CartItem>, itemId: string): seq<CartItem>
  {
    Filter(items, (item: CartItem) => ItemKey(item) != itemId)
  }

  /** `Math.max`. */
  function Max(a: int, b: int): int
  {
    if a < b then b else a
  }

  /** The `map` step of `UPDATE_QUANTITY`: every line with key `itemId` gets `quantity`. */
  function SetQuantity(items: seq<CartItem>, itemId: string, quantity: int): (r: seq<CartItem>)
    ensures |r| == |items|
    ensures forall j :: 0 <= j < |r| ==> r[j].product == items[j].product
    ensures forall j :: 0 <= j < |r| ==>
      r[j].quantity == if ItemKey(items[j]) == itemId then quantity else items[j].quantity
  {
    if items == [] then []
    else
      var head := if ItemKey(items[0]) == itemId then items[0].(quantity := quantity) else items[0];
      [head] + SetQuantity(items[1..], itemId, quantity)
  }

  /** `UPDATE_QUANTITY`: sets the clamped quantity, then drops every line whose quantity is not positive. */
  function UpdateQuantityOf(items: seq<CartItem>, itemId: string, quantity: int): seq<CartItem>
  {
    Filter(SetQuantity(items, itemId, Max(0, quantity)), (item: CartItem) => item.quantity > 0)
  }

  /** The cart reducer. */
  function Reduce(items: seq<CartItem>, action: CartAction): seq<CartItem>
  {
    match action
    case AddItem(product, quantity) => Add(items, product, quantity)
    case RemoveItem(itemId) => Remove(items, itemId)
    case UpdateQuantity(itemId, quantity) => UpdateQuantityOf(items, itemId, quantity)
    case ClearCart => []
    case SetState(loaded) => loaded
  }

  // ---------------------------------------------------------------------------
  // Properties of ADD_ITEM
  // ---------------------------------------------------------------------------

  /** Adding onto the first line with the product's key raises only that line's quantity. */
  lemma AddExisting(items: seq<CartItem>, product: Product, quantity: int, i: nat)
    requires i < |items| && ItemKey(items[i]) == ProductKey(product)
    requires forall j :: 0 <= j < i ==> ItemKey(items[j]) != ProductKey(product)
    ensures var r := Add(items, product, quantity);
      && |r| == |items|
      && r[i].product == items[i].product
      && r[i].quantity == items[i].quantity + quantity
      && forall j :: 0 <= j < |items| && j != i ==> r[j] == items[j]
  {
    assert FindIndex(items, ProductKey(product)) == i;
  }

  /** Adding a product whose key is new appends one line and leaves the others alone. */
  lemma AddNew(items: seq<CartItem>, product: Product, quantity: int)
    requires forall j :: 0 <= j < |items| ==> ItemKey(items[j]) != ProductKey(product)
    ensures Add(items, product, quantity) == items + [CartItem(product, quantity)]
  {
  }

  /** A right-to-left sum of integers, the reference for accumulated quantities. */
  function IntSum(qs: seq<int>): int
  {
    if qs == [] then 0 else qs[0] + IntSum(qs[1..])
  }

  /** `ADD_ITEM` for the same product once per quantity in `qs`, in order. */
  function AddEach(items: seq<CartItem>, product: Product, qs: seq<int>): seq<CartItem>
    decreases |qs|
  {
    if qs == [] then items else AddEach(Add(items, product, qs[0]), product, qs[1..])
  }

  /** Repeated adds of a product whose key a line already has all accumulate into the first such line. */
  lemma {:induction false} AddEachExisting(items: seq<CartItem>, product: Product, qs: seq<int>)
    requires FindIndex(items, ProductKey(product)) >= 0
    ensures var i := FindIndex(items, ProductKey(product));
      AddEach(items, product, qs) == items[i := items[i].(quantity := items[i].quantity + IntSum(qs))]
    decreases |qs|
  {
    var key := ProductKey(product);
    var i := FindIndex(items, key);
    if qs == [] {
      assert items[i := items[i].(quantity := items[i].quantity + 0)] == items;
    } else {
      var next := Add(items, product, qs[0]);
      AddExisting(items, product, qs[0], i);
      assert ItemKey(next[i]) == key;
      assert forall j :: 0 <= j < i ==> ItemKey(next[j]) != key;
      assert FindIndex(next, key) == i;
      AddEachExisting(next, product, qs[1..]);
      assert next[i := next[i].(quantity := next[i].quantity + IntSum(qs[1..]))]
          == items[i := items[i].(quantity := items[i].quantity + IntSum(qs))];
    }
  }

  /** Repeated adds of a product with a new key leave one line holding the sum of the quantities. */
  lemma AddRepeated(items: seq<CartItem>, product: Product, qs: seq<int>)
    requires qs != []
    requires forall j :: 0 <= j < |items| ==> ItemKey(items[j]) != ProductKey(product)
    ensures AddEach(items, product, qs) == items + [CartItem(product, IntSum(qs))]
  {
    var first := items + [CartItem(product, qs[0])];
    AddNew(items, product, qs[0]);
    assert AddEach(items, product, qs) == AddEach(first, product, qs[1..]);
    assert ItemKey(first[|items|]) == ProductKey(product);
    assert FindIndex(first, ProductKey(product)) == |items|;
    AddEachExisting(first, product, qs[1..]);
    assert first[|items| := CartItem(product, IntSum(qs))] == items + [CartItem(product, IntSum(qs))];
  }

  /** Adding raises the item count by exactly the added quantity. */
  lemma AddTotalItems(items: seq<CartItem>, product: Product, quantity: int)
    ensures TotalItemsOf(Add(items, product, quantity)) == TotalItemsOf(items) + quantity
  {
    var i := FindIndex(items, ProductKey(product));
    if i > -1 {
      SumOfUpdate(items, i, items[i].(quantity := items[i].quantity + quantity), LineQuantity);
    } else {
      SumOfAppend(items, [CartItem(product, quantity)], LineQuantity);
      assert [CartItem(product, quantity)][..0] == [];
    }
  }

  /**
   * Adding raises the subtotal by the quantity times the price of the line it
   * lands on: the existing line's price, or the product's own for a new line.
   */
  lemma AddSubtotal(items: seq<CartItem>, product: Product, quantity: int)
    ensures var i := FindIndex(items, ProductKey(product));
      var price := if i > -1 then items[i].product.price else product.price;
      SubtotalOf(Add(items, product, quantity)) == SubtotalOf(items) + price * quantity
  {
    var i := FindIndex(items, ProductKey(product));
    if i > -1 {
      var existing := items[i];
      var line := existing.(quantity := existing.quantity + quantity);
      SumOfUpdate(items, i, line, LineAmount);
      LineAmountGrows(existing, quantity);
    } else {
      SumOfAppend(items, [CartItem(product, quantity)], LineAmount);
      assert [CartItem(product, quantity)][..0] == [];
    }
  }

  /** Raising a line's quantity by `quantity` raises its amount by its price times `quantity`. */
  lemma LineAmountGrows(line: CartItem, quantity: int)
    ensures LineAmount(line.(quantity := line.quantity + quantity))
         == LineAmount(line) + line.product.price * quantity
  {
    var p := line.product.price;
    assert p * (line.quantity + quantity) == p * line.quantity + p * quantity;
  }

  /** `ADD_ITEM` does not reject a non-positive quantity: it can create a line that is not positive. */
  lemma AddNonPositiveKeepsLine(items: seq<CartItem>, product: Product, quantity: int)
    requires quantity <= 0
    requires forall j :: 0 <= j < |items| ==> ItemKey(items[j]) != ProductKey(product)
    ensures var r := Add(items, product, quantity);
      CartItem(product, quantity) in r && !AllPositive(r)
  {
    var r := Add(items, product, quantity);
    assert r[|items|] == CartItem(product, quantity);
  }

  // ---------------------------------------------------------------------------
  // Properties of REMOVE_ITEM, UPDATE_QUANTITY, CLEAR_CART and SET_STATE
  // ---------------------------------------------------------------------------

  /** Remove deletes every line with the key and keeps every other line. */
  lemma RemoveEffect(items: seq<CartItem>, itemId: string)
    ensures var r := Remove(items, itemId);
      && (forall j :: 0 <= j < |r| ==> ItemKey(r[j]) != itemId)
      && (forall x :: x in r <==> x in items && ItemKey(x) != itemId)
      && (forall x :: ItemKey(x) != itemId ==> multiset(r)[x] == multiset(items)[x])
      && Subsequence(r, items)
  {
    FilterMembers(items, (item: CartItem) => ItemKey(item) != itemId);
    FilterCounts(items, (item: CartItem) => ItemKey(item) != itemId);
    FilterIsSubsequence(items, (item: CartItem) => ItemKey(item) != itemId);
  }

  /** A second remove of the same key changes nothing. */
  lemma RemoveIdempotent(items: seq<CartItem>, itemId: string)
    ensures Remove(Remove(items, itemId), itemId) == Remove(items, itemId)
  {
    FilterIdempotent(items, (item: CartItem) => ItemKey(item) != itemId);
  }

  /** Removing a key no line has changes nothing. */
  lemma RemoveAbsent(items: seq<CartItem>, itemId: string)
    requires forall j :: 0 <= j < |items| ==> ItemKey(items[j]) != itemId
    ensures Remove(items, itemId) == items
  {
    FilterKeepsAll(items, (item: CartItem) => ItemKey(item) != itemId);
  }

  /** With unique keys, removing line i's key deletes exactly line i and keeps the rest in order. */
  lemma RemoveUnique(items: seq<CartItem>, i: nat)
    requires i < |items| && UniqueKeys(items)
    ensures Remove(items, ItemKey(items[i])) == items[..i] + items[i + 1..]
  {
    FilterDropsOne(items, (item: CartItem) => ItemKey(item) != ItemKey(items[i]), i);
  }

  /** After an update every line has a positive quantity, and a clamped quantity of 0 leaves no line with the key. */
  lemma UpdateEffect(items: seq<CartItem>, itemId: string, quantity: int)
    ensures var r := UpdateQuantityOf(items, itemId, quantity);
      && AllPositive(r)
      && (forall j :: 0 <= j < |r| && ItemKey(r[j]) == itemId ==> r[j].quantity == quantity)
      && (quantity <= 0 ==> forall j :: 0 <= j < |r| ==> ItemKey(r[j]) != itemId)
  {
    var updated := SetQuantity(items, itemId, Max(0, quantity));
    var keep := (item: CartItem) => item.quantity > 0;
    var r := Filter(updated, keep);
    FilterMembers(updated, keep);
    forall j | 0 <= j < |r| && ItemKey(r[j]) == itemId ensures r[j].quantity == quantity {
      assert r[j] in updated;
      var k :| 0 <= k < |updated| && updated[k] == r[j];
      assert ItemKey(items[k]) == ItemKey(updated[k]);
    }
  }

  /** `UPDATE_QUANTITY` also drops lines of other keys whose quantity is not positive, and keeps the others. */
  lemma UpdateKeepsOthers(items: seq<CartItem>, itemId: string, quantity: int, x: CartItem)
    requires ItemKey(x) != itemId
    ensures x in UpdateQuantityOf(items, itemId, quantity) <==> x in items && x.quantity > 0
  {
    var updated := SetQuantity(items, itemId, Max(0, quantity));
    FilterMembers(updated, (item: CartItem) => item.quantity > 0);
    if x in updated {
      var k :| 0 <= k < |updated| && updated[k] == x;
      assert items[k] == x;
    }
    if x in items {
      var k :| 0 <= k < |items| && items[k] == x;
      assert updated[k] == x;
    }
  }

  /** On a cart whose lines are all positive, a positive update sets the matching lines and changes nothing else. */
  lemma UpdatePositive(items: seq<CartItem>, itemId: string, quantity: int)
    requires AllPositive(items) && quantity > 0
    ensures var r := UpdateQuantityOf(items, itemId, quantity);
      && |r| == |items|
      && forall j :: 0 <= j < |r| ==>
           r[j] == if ItemKey(items[j]) == itemId then items[j].(quantity := quantity) else items[j]
  {
    var updated := SetQuantity(items, itemId, quantity);
    FilterKeepsAll(updated, (item: CartItem) => item.quantity > 0);
  }

  /** On a cart whose lines are all positive, updating to a quantity of 0 or less is removing the key. */
  lemma {:induction false} UpdateToZeroIsRemove(items: seq<CartItem>, itemId: string, quantity: int)
    requires AllPositive(items) && quantity <= 0
    ensures UpdateQuantityOf(items, itemId, quantity) == Remove(items, itemId)
  {
    if items != [] {
      UpdateToZeroIsRemove(items[1..], itemId, quantity);
      var updated := SetQuantity(items, itemId, 0);
      assert updated[1..] == SetQuantity(items[1..], itemId, 0);
    }
  }

  /** Clearing empties the cart and `SET_STATE` replaces it wholesale. */
  lemma ClearAndSetState(items: seq<CartItem>, loaded: seq<CartItem>)
    ensures Reduce(items, ClearCart) == []
    ensures Reduce(items, SetState(loaded)) == loaded
    ensures SubtotalOf(Reduce(items, ClearCart)) == 0 && TotalItemsOf(Reduce(items, ClearCart)) == 0
  {
  }

  /**
   * A product without a size priced 10.00, added once and then twice more,
   * makes one line of 3 and a subtotal of 30.00; setting "p1-undefined" to 0
   * empties the cart.
   */
  lemma AddThenZeroScenario(p: Product)
    requires p.id == "p1" && p.size == None && p.price == 1000
    ensures var cart := Add(Add([], p, 1), p, 2);
      && cart == [CartItem(p, 3)]
      && SubtotalOf(cart) == 3000 && TotalItemsOf(cart) == 3
      && UpdateQuantityOf(cart, "p1-undefined", 0) == []
  {
    var once := Add([], p, 1);
    AddNew([], p, 1);
    AddExisting(once, p, 2, 0);
    var cart := Add(once, p, 2);
    assert cart == [CartItem(p, 3)];
    assert ItemKey(cart[0]) == "p1-undefined";
    assert cart[..0] == [];
    assert SubtotalOf(cart) == SubtotalOf([]) + LineAmount(CartItem(p, 3));
    assert TotalItemsOf(cart) == TotalItemsOf([]) + 3;
    UpdateToZeroIsRemove(cart, "p1-undefined", 0);
    RemoveEffect(cart, "p1-undefined");
  }

  // ---------------------------------------------------------------------------
  // The line invariant
  // ---------------------------------------------------------------------------

  /** Every line has a positive quantity. */
  ghost predicate AllPositive(items: seq<CartItem>)
  {
    forall j :: 0 <= j < |items| ==> items[j].quantity > 0
  }

  /** No two lines share a key. */
  predicate UniqueKeys(items: seq<CartItem>)
  {
    UniqueBy(items, ItemKey)
  }

  /** The cart invariant: positive quantities, one line per key. */
  ghost predicate Wellformed(items: seq<CartItem>)
  {
    AllPositive(items) && UniqueKeys(items)
  }

  /** The actions that keep the invariant: adds of a positive quantity, and loads of a well-formed state. */
  ghost predicate KeepsInvariant(action: CartAction)
  {
    match action
    case AddItem(_, quantity) => quantity > 0
    case SetState(loaded) => Wellformed(loaded)
    case _ => true
  }

  /** Every action that keeps the invariant preserves it; the facade only ever adds quantity 1. */
  lemma ReducePreservesWellformed(items: seq<CartItem>, action: CartAction)
    requires Wellformed(items) && KeepsInvariant(action)
    ensures Wellformed(Reduce(items, action))
  {
    match action
    case AddItem(product, quantity) =>
      var i := FindIndex(items, ProductKey(product));
      var r := Add(items, product, quantity);
      if i == -1 {
        assert r == items + [CartItem(product, quantity)];
        forall j, k | 0 <= j < k < |r| ensures ItemKey(r[j]) != ItemKey(r[k]) {
          if k < |items| {
            assert r[j] == items[j] && r[k] == items[k];
          }
        }
      } else {
        forall j, k | 0 <= j < k < |r| ensures ItemKey(r[j]) != ItemKey(r[k]) {
          assert ItemKey(r[j]) == ItemKey(items[j]) && ItemKey(r[k]) == ItemKey(items[k]);
        }
      }
    case RemoveItem(itemId) =>
      var keep := (item: CartItem) => ItemKey(item) != itemId;
      FilterUniqueBy(items, keep, ItemKey);
      FilterMembers(items, keep);
      var r := Filter(items, keep);
      forall j | 0 <= j < |r| ensures r[j].quantity > 0 {
        assert r[j] in items;
      }
    case UpdateQuantity(itemId, quantity) =>
      var updated := SetQuantity(items, itemId, Max(0, quantity));
      assert UniqueBy(updated, ItemKey) by {
        forall j, k | 0 <= j < k < |updated| ensures ItemKey(updated[j]) != ItemKey(updated[k]) {
          assert ItemKey(updated[j]) == ItemKey(items[j]) && ItemKey(updated[k]) == ItemKey(items[k]);
        }
      }
      FilterUniqueBy(updated, (item: CartItem) => item.quantity > 0, ItemKey);
      UpdateEffect(items, itemId, quantity);
    case ClearCart =>
    case SetState(_) =>
  }

  // ---------------------------------------------------------------------------
  // The store
  // ---------------------------------------------------------------------------

  /**
   * The provider's state cell and its facade. Every method dispatches one
   * action; the new state is the reducer's result on the old one.
   */
  class CartStore {
    var items: seq<CartItem>

    /** The provider starts from `{ items: [] }`. */
    constructor ()
      ensures items == []
    {
      items := [];
    }

    /** `dispatch`: run the reducer on the current state. */
    method Dispatch(action: CartAction)
      modifies this
      ensures items == Reduce(old(items), action)
    {
      items := Reduce(items, action);
    }

    /** `addItem(product, quantity = 1)`. */
    method AddItem(product: Product, quantity: int := 1)
      modifies this
      ensures items == Add(old(items), product, quantity)
      ensures TotalItems() == old(TotalItems()) + quantity
    {
      AddTotalItems(items, product, quantity);
      Dispatch(CartAction.AddItem(product, quantity));
    }

    /** `removeItem(itemId)`. */
    method RemoveItem(itemId: string)
      modifies this
      ensures items == Remove(old(items), itemId)
      ensures forall j :: 0 <= j < |items| ==> ItemKey(items[j]) != itemId
    {
      Dispatch(CartAction.RemoveItem(itemId));
    }

    /** `updateItemQuantity(itemId, quantity)`. */
    method UpdateItemQuantity(itemId: string, quantity: int)
      modifies this
      ensures items == UpdateQuantityOf(old(items), itemId, quantity)
      ensures AllPositive(items)
    {
      UpdateEffect(items, itemId, quantity);
      Dispatch(CartAction.UpdateQuantity(itemId, quantity));
    }

    /** `clearCart()`. */
    method ClearCart()
      modifies this
      ensures items == [] && Subtotal() == 0 && TotalItems() == 0
    {
      Dispatch(CartAction.ClearCart);
    }

    /**
     * Hydration from storage: a payload that was read and parsed is loaded
     * with `SET_STATE`; a missing or unreadable one leaves the state as it is.
     */
    method Hydrate(stored: Option<seq<CartItem>>)
      modifies this
      ensures items == if stored.Some? then stored.value else old(items)
    {
      if stored.Some? {
        Dispatch(CartAction.SetState(stored.value));
      }
    }

    /** The facade's `subtotal`, recomputed from the current lines. */
    function Subtotal(): int
      reads this
    {
      SubtotalOf(items)
    }

    /** The facade's `totalItems`, recomputed from the current lines. */
    function TotalItems(): int
      reads this
    {
      TotalItemsOf(items)
    }
  }
}
