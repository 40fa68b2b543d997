/**
 * The wishlist page of `src/app/account/wishlist/page.tsx`: moving a product
 * to the cart (a cart add followed by a wishlist remove, two separate
 * dispatches on two stores), the per-item remove button and Clear Wishlist.
 */
module WishlistPage {
  import opened Shop
  import opened Seqs
  import Cart
  import Wishlist

  /**
   * `handleAddToCart`: `addToCart(product, 1)` and then `removeItem(product.id)`.
   * The two steps are not one transaction: between them the product is in
   * both stores, as the body asserts with `MoveToCartMidway`.
   */
  method HandleAddToCart(cart: Cart.CartStore, wishlist: Wishlist.WishlistStore, product: Product)
    modifies cart, wishlist
    ensures cart.items == Cart.Add(old(cart.items), product, 1)
    ensures wishlist.items == Wishlist.RemoveId(old(wishlist.items), product.id)
    ensures cart.TotalItems() == old(cart.TotalItems()) + 1
    ensures !wishlist.IsItemInWishlist(product.id)
  {
    cart.AddItem(product, 1);
    MoveToCartMidway(old(cart.items), product);
    assert Cart.FindIndex(cart.items, Cart.ProductKey(product)) >= 0;
    assert wishlist.items == old(wishlist.items);
    wishlist.RemoveItem(product.id);
  }

  /** The per-item remove button: `removeItem(product.id)`. */
  method HandleRemove(wishlist: Wishlist.WishlistStore, product: Product)
    modifies wishlist
    ensures wishlist.items == Wishlist.RemoveId(old(wishlist.items), product.id)
  {
    wishlist.RemoveItem(product.id);
  }

  /** The Clear Wishlist button. */
  method HandleClear(wishlist: Wishlist.WishlistStore)
    modifies wishlist
    ensures wishlist.items == []
  {
    wishlist.ClearWishlist();
  }

  /**
   * Move-to-cart on the cart side: a new line of quantity 1 when the key is
   * new, otherwise one more on the first line with the key, the length and
   * every other line staying as they were.
   */
  lemma MoveToCartCart(items: seq<CartItem>, product: Product)
    ensures var r := Cart.Add(items, product, 1);
      && |r| >= |items|
      && (Cart.FindIndex(items, Cart.ProductKey(product)) == -1 ==> r == items + [CartItem(product, 1)])
      && (var i := Cart.FindIndex(items, Cart.ProductKey(product));
          i >= 0 ==> && |r| == |items|
                     && r[i].quantity == items[i].quantity + 1
                     && r[i].product == items[i].product
                     && forall j :: 0 <= j < |items| && j != i ==> r[j] == items[j])
      && forall j :: 0 <= j < |items| && Cart.ItemKey(items[j]) != Cart.ProductKey(product) ==> r[j] == items[j]
  {
    var i := Cart.FindIndex(items, Cart.ProductKey(product));
    if i >= 0 {
      Cart.AddExisting(items, product, 1, i);
    }
  }

  /** Move-to-cart on the wishlist side: the id is gone and every other entry stays, in order. */
  lemma MoveToCartWishlist(items: seq<Product>, product: Product)
    ensures var r := Wishlist.RemoveId(items, product.id);
      && !Wishlist.Contains(r, product.id)
      && (forall x: Product :: x.id != product.id ==> (x in r <==> x in items))
      && Subsequence(r, items)
  {
    Wishlist.RemoveEffect(items, product.id);
  }

  /**
   * Right after the cart step of move-to-cart the cart has a line with the
   * product's key; `HandleAddToCart` asserts this at the point where the
   * wishlist has not been touched yet, so the product is briefly in both.
   */
  lemma MoveToCartMidway(cartItems: seq<CartItem>, product: Product)
    ensures Cart.FindIndex(Cart.Add(cartItems, product, 1), Cart.ProductKey(product)) >= 0
  {
    var r := Cart.Add(cartItems, product, 1);
    var i := Cart.FindIndex(cartItems, Cart.ProductKey(product));
    if i == -1 {
      assert Cart.ItemKey(r[|cartItems|]) == Cart.ProductKey(product);
    } else {
      assert Cart.ItemKey(r[i]) == Cart.ProductKey(product);
    }
  }

  /** With unique ids, the remove button on entry i deletes that entry and nothing else. */
  lemma RemoveButtonDeletesOnlyThatProduct(items: seq<Product>, i: nat)
    requires i < |items| && Wishlist.UniqueIds(items)
    ensures Wishlist.RemoveId(items, items[i].id) == items[..i] + items[i + 1..]
    ensures Wishlist.UniqueIds(Wishlist.RemoveId(items, items[i].id))
  {
    Wishlist.RemoveUnique(items, i);
    Wishlist.RemoveKeepsUniqueIds(items, items[i].id);
  }
}
