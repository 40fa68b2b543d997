/**
 * The product page of `src/components/product-detail-client.tsx`: the
 * related-products strip, the size-gated add-to-cart button and the wishlist
 * toggle. The selected size is component state.
 */
module ProductDetail {
  import opened Shop
  import opened Seqs
  import Cart
  import Wishlist

  /** The one category whose products need no size. */
  const SewingMaterials: string := "sewing-materials"

  /** How many related products the page shows at most. */
  const RelatedLimit: nat := 4

  /** JavaScript truthiness of `selectedSize: string | null`: null and the empty string are false. */
  predicate Truthy(selectedSize: Option<string>)
  {
    selectedSize.Some? && selectedSize.value != ""
  }

  /** The add-to-cart guard: sewing materials, or some size selected. */
  predicate SizeGateOpen(product: Product, selectedSize: Option<string>)
  {
    product.category == SewingMaterials || Truthy(selectedSize)
  }

  /** `{ ...product, size: selectedSize || undefined }`. */
  function CartVariant(product: Product, selectedSize: Option<string>): Product
  {
    product.(size := if Truthy(selectedSize) then selectedSize else None)
  }

  /** The cart lines after the add-to-cart button is pressed. */
  function AfterAddToCart(items: seq<CartItem>, product: Product, selectedSize: Option<string>): seq<CartItem>
  {
    if SizeGateOpen(product, selectedSize) then Cart.Add(items, CartVariant(product, selectedSize), 1)
    else items
  }

  /** The wishlist after the heart button is pressed. */
  function Toggled(items: seq<Product>, product: Product): seq<Product>
  {
    if Wishlist.Contains(items, product.id) then Wishlist.RemoveId(items, product.id)
    else Wishlist.AddProduct(items, product)
  }

  /** Whether `p` belongs in the related strip of `product`. */
  predicate IsRelated(product: Product, p: Product)
  {
    p.category == product.category && p.id != product.id
  }

  /** `products.filter(p => p.category === product.category && p.id !== product.id).slice(0, 4)`. */
  function RelatedProducts(catalog: seq<Product>, product: Product): seq<Product>
  {
    var matching := Filter(catalog, (p: Product) => IsRelated(product, p));
    matching[..if |matching| < RelatedLimit then |matching| else RelatedLimit]
  }

  /**
   * Related products share the category, exclude the product itself, keep
   * catalog order and number at most four; they are the first four related
   * catalog products, and when fewer than four are shown, every related
   * catalog product is shown.
   */
  lemma RelatedProductsSpec(catalog: seq<Product>, product: Product)
    ensures var r := RelatedProducts(catalog, product);
      && |r| <= RelatedLimit
      && (forall j :: 0 <= j < |r| ==> IsRelated(product, r[j]) && r[j] in catalog)
      && Subsequence(r, catalog)
      && (|r| < RelatedLimit ==> forall p :: p in catalog && IsRelated(product, p) ==> p in r)
      && var m := Filter(catalog, (p: Product) => IsRelated(product, p));
         |r| == (if |m| < RelatedLimit then |m| else RelatedLimit) && r == m[..|r|]
  {
    var keep := (p: Product) => IsRelated(product, p);
    var matching := Filter(catalog, keep);
    var n := if |matching| < RelatedLimit then |matching| else RelatedLimit;
    FilterMembers(catalog, keep);
    FilterIsSubsequence(catalog, keep);
    SubsequencePrefix(matching, catalog, n);
    SubsequenceMembers(matching[..n], catalog);
    if n < RelatedLimit {
      assert matching[..n] == matching;
    }
  }

  /** With the gate shut the cart is left as it is. */
  lemma GateShutNoChange(items: seq<CartItem>, product: Product, selectedSize: Option<string>)
    requires product.category != SewingMaterials
    requires selectedSize == None || selectedSize == Some("")
    ensures AfterAddToCart(items, product, selectedSize) == items
  {
  }

  /**
   * With the gate open, one unit lands on the line keyed by the product id and
   * the selected size (none when nothing truthy is selected): an existing line
   * grows by one and every other line is untouched, and a new key gets a new
   * line of quantity 1.
   */
  lemma GateOpenAddsOne(items: seq<CartItem>, product: Product, selectedSize: Option<string>)
    requires SizeGateOpen(product, selectedSize)
    ensures var r := AfterAddToCart(items, product, selectedSize);
      var key := Cart.LineKey(product.id, if Truthy(selectedSize) then selectedSize else None);
      && Cart.FindIndex(r, key) >= 0
      && Cart.TotalItemsOf(r) == Cart.TotalItemsOf(items) + 1
      && (Cart.FindIndex(items, key) == -1 ==> r == items + [CartItem(CartVariant(product, selectedSize), 1)])
      && (var i := Cart.FindIndex(items, key);
          i >= 0 ==> && |r| == |items|
                     && r[i].quantity == items[i].quantity + 1
                     && r[i].product == items[i].product
                     && forall j :: 0 <= j < |items| && j != i ==> r[j] == items[j])
  {
    var variant := CartVariant(product, selectedSize);
    var r := Cart.Add(items, variant, 1);
    Cart.AddTotalItems(items, variant, 1);
    var i := Cart.FindIndex(items, Cart.ProductKey(variant));
    if i == -1 {
      assert Cart.ItemKey(r[|items|]) == Cart.ProductKey(variant);
    } else {
      Cart.AddExisting(items, variant, 1, i);
      assert Cart.ItemKey(r[i]) == Cart.ProductKey(variant);
    }
  }

  /** Toggling flips membership; toggling twice restores it, and restores an absent product's list exactly. */
  lemma ToggleTwice(items: seq<Product>, product: Product)
    ensures Wishlist.Contains(Toggled(items, product), product.id) == !Wishlist.Contains(items, product.id)
    ensures Wishlist.Contains(Toggled(Toggled(items, product), product), product.id)
         == Wishlist.Contains(items, product.id)
    ensures !Wishlist.Contains(items, product.id) ==> Toggled(Toggled(items, product), product) == items
  {
    var once := Toggled(items, product);
    if Wishlist.Contains(items, product.id) {
      Wishlist.RemoveEffect(items, product.id);
      Wishlist.ContainsAfterAdd(once, product);
    } else {
      var keep := (p: Product) => p.id != product.id;
      Wishlist.ContainsAfterAdd(items, product);
      assert once == items + [product];
      FilterAppend(items, [product], keep);
      Wishlist.RemoveAbsent(items, product.id);
      assert Filter([product], keep) == [];
    }
  }

  /** The component: the product it shows and the size picked in the radio group. */
  class ProductDetailView {
    const product: Product
    var selectedSize: Option<string>

    /** `useState<string | null>(null)`. */
    constructor (product: Product)
      ensures this.product == product && selectedSize == None
    {
      this.product := product;
      selectedSize := None;
    }

    /** The radio group's `onValueChange`. */
    method SelectSize(size: string)
      modifies this
      ensures selectedSize == Some(size)
    {
      selectedSize := Some(size);
    }

    /** `handleAddToCart`; `added` tells which toast is shown. */
    method HandleAddToCart(cart: Cart.CartStore) returns (added: bool)
      modifies cart
      ensures added == SizeGateOpen(product, selectedSize)
      ensures cart.items == AfterAddToCart(old(cart.items), product, selectedSize)
    {
      if product.category != SewingMaterials && !Truthy(selectedSize) {
        return false;
      }
      cart.AddItem(CartVariant(product, selectedSize));
      added := true;
    }

    /** `handleWishlistToggle`. */
    method HandleWishlistToggle(wishlist: Wishlist.WishlistStore)
      modifies wishlist
      ensures wishlist.items == Toggled(old(wishlist.items), product)
      ensures wishlist.IsItemInWishlist(product.id) == !old(wishlist.IsItemInWishlist(product.id))
    {
      if wishlist.IsItemInWishlist(product.id) {
        wishlist.RemoveItem(product.id);
      } else {
        wishlist.AddItem(product);
      }
    }
  }
}
