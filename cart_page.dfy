/**
 * The rules `src/app/cart/page.tsx` applies to the cart store: the flat
 * shipping fee, the order total, its own `getItemId` key, the per-line amount,
 * and how the quantity box and the Remove button are routed to the store.
 */
module CartPage {
  import opened Shop
  import opened Seqs
  import opened Cart

  /** The shipping fee, 25.00, in cents. */
  const ShippingFee: int := 2500

  /** `items.length > 0 ? 25.00 : 0`. */
  function Shipping(items: seq<CartItem>): (fee: int)
    ensures fee == 0 || fee == ShippingFee
    ensures fee > 0 <==> items != []
  {
    if |items| > 0 then ShippingFee else 0
  }

  /** `subtotal + shipping`. */
  function Total(items: seq<CartItem>): int
  {
    SubtotalOf(items) + Shipping(items)
  }

  /** An empty cart costs nothing; any other cart costs its subtotal plus the flat fee. */
  lemma TotalRule(items: seq<CartItem>)
    ensures items == [] ==> Total(items) == 0
    ensures items != [] ==> Total(items) == SubtotalOf(items) + ShippingFee
    ensures Total(Reduce(items, ClearCart)) == 0
  {
  }

  /** The page's own `getItemId`: the template `${item.id}-${item.size}`. */
  function GetItemId(p: Product): string
  {
    p.id + "-" + SizeText(p.size)
  }

  /** The page's key is the string the reducer matches on. */
  lemma PageKeyIsReducerKey(item: CartItem)
    ensures GetItemId(item.product) == ItemKey(item)
  {
  }

  /** The amounts the page shows, one per line: `item.price * item.quantity`. */
  function LineAmounts(items: seq<CartItem>): (amounts: seq<int>)
    ensures |amounts| == |items|
    ensures forall j :: 0 <= j < |items| ==> amounts[j] == items[j].product.price * items[j].quantity
  {
    if items == [] then [] else [LineAmount(items[0])] + LineAmounts(items[1..])
  }

  /** The displayed line amounts add up to the store's `subtotal`. */
  lemma {:induction false} LineAmountsSumToSubtotal(items: seq<CartItem>)
    ensures IntSum(LineAmounts(items)) == SubtotalOf(items)
  {
    if items != [] {
      LineAmountsSumToSubtotal(items[1..]);
      assert items == [items[0]] + items[1..];
      SumOfAppend([items[0]], items[1..], LineAmount);
      assert [items[0]][..0] == [];
    }
  }

  /** The Remove button deletes the line it is shown on; with unique keys, only that line. */
  lemma RemoveHitsDisplayedLine(items: seq<CartItem>, i: nat)
    requires i < |items|
    ensures var r := Remove(items, GetItemId(items[i].product));
      && items[i] !in r
      && (UniqueKeys(items) ==> r == items[..i] + items[i + 1..])
  {
    RemoveEffect(items, GetItemId(items[i].product));
    if UniqueKeys(items) {
      RemoveUnique(items, i);
    }
  }

  /**
   * Editing the quantity box of line i of a well-formed cart sets exactly that
   * line's quantity when the new value is positive, and deletes exactly that
   * line otherwise.
   */
  lemma QuantityEditHitsDisplayedLine(items: seq<CartItem>, i: nat, value: int)
    requires i < |items| && Wellformed(items)
    ensures var r := UpdateQuantityOf(items, GetItemId(items[i].product), value);
      if value > 0 then
        |r| == |items| && r[i] == items[i].(quantity := value)
        && forall j :: 0 <= j < |items| && j != i ==> r[j] == items[j]
      else
        r == items[..i] + items[i + 1..]
  {
    var key := GetItemId(items[i].product);
    if value > 0 {
      UpdatePositive(items, key, value);
      forall j | 0 <= j < |items| && j != i ensures ItemKey(items[j]) != key {
        if j < i {
          assert ItemKey(items[j]) != ItemKey(items[i]);
        } else {
          assert ItemKey(items[i]) != ItemKey(items[j]);
        }
      }
    } else {
      UpdateToZeroIsRemove(items, key, value);
      RemoveUnique(items, i);
    }
  }

  /** The quantity box's `onChange`: `updateItemQuantity(getItemId(item), value)`. */
  method OnQuantityChange(cart: CartStore, item: CartItem, value: int)
    modifies cart
    ensures cart.items == UpdateQuantityOf(old(cart.items), GetItemId(item.product), value)
  {
    cart.UpdateItemQuantity(GetItemId(item.product), value);
  }

  /** The Remove button's `onClick`: `removeItem(getItemId(item))`. */
  method OnRemove(cart: CartStore, item: CartItem)
    modifies cart
    ensures cart.items == Remove(old(cart.items), GetItemId(item.product))
    ensures item !in cart.items
  {
    RemoveEffect(cart.items, GetItemId(item.product));
    cart.RemoveItem(GetItemId(item.product));
  }
}
