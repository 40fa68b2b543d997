/**
 * The wishlist store of `src/hooks/use-wishlist.tsx`: an ordered list of
 * products deduplicated by product id alone, its reducer over four actions,
 * the membership test, and the store object behind the facade.
 */
module Wishlist {
  import opened Shop
  import opened Seqs

  /** `items.some(item => item.id === productId)`, also the `find` the reducer uses for duplicates. */
  function Contains(items: seq<Product>, productId: string): (b: bool)
    ensures b <==> exists j :: 0 <= j < |items| && items[j].id == productId
  {
    if items == [] then false
    else items[0].id == productId || Contains(items[1..], productId)
  }

  /** The actions the wishlist reducer understands. */
  datatype WishlistAction =
    | AddItem(product: Product)
    | RemoveItem(productId: string)
    | ClearWishlist
    | SetState(items: seq<Product>)

  /** `ADD_ITEM`: a product whose id is already present leaves the list as it is; otherwise it is appended. */
  function AddProduct(items: seq<Product>, product: Product): seq<Product>
  {
    if Contains(items, product.id) then items else items + [product]
  }

  /** `REMOVE_ITEM`: keeps the products whose id is not `productId`. */
  function RemoveId(items: seq<Product>, productId: string): seq<Product>
  {
    Filter(items, (p: Product) => p.id != productId)
  }

  /** The wishlist reducer. */
  function Reduce(items: seq<Product>, action: WishlistAction): seq<Product>
  {
    match action
    case AddItem(product) => AddProduct(items, product)
    case RemoveItem(productId) => RemoveId(items, productId)
    case ClearWishlist => []
    case SetState(loaded) => loaded
  }

  /** The identity of a wishlist entry: the product id; size plays no part. */
  function IdOf(p: Product): string
  {
    p.id
  }

  /** No two entries share an id. */
  predicate UniqueIds(items: seq<Product>)
  {
    UniqueBy(items, IdOf)
  }

  /** Adding a product whose id is present changes nothing, so adding twice is adding once. */
  lemma AddIdempotent(items: seq<Product>, product: Product)
    ensures Contains(items, product.id) ==> AddProduct(items, product) == items
    ensures AddProduct(AddProduct(items, product), product) == AddProduct(items, product)
  {
    ContainsAfterAdd(items, product);
  }

  /** Adding an absent product appends it and leaves the existing entries alone. */
  lemma AddAbsent(items: seq<Product>, product: Product)
    requires forall j :: 0 <= j < |items| ==> items[j].id != product.id
    ensures AddProduct(items, product) == items + [product]
  {
  }

  /** Adding keeps ids unique, whatever the product's size. */
  lemma AddKeepsUniqueIds(items: seq<Product>, product: Product)
    requires UniqueIds(items)
    ensures UniqueIds(AddProduct(items, product))
  {
    var r := AddProduct(items, product);
    if !Contains(items, product.id) {
      forall j, k | 0 <= j < k < |r| ensures IdOf(r[j]) != IdOf(r[k]) {
        if k < |items| {
          assert r[j] == items[j] && r[k] == items[k];
        }
      }
    }
  }

  /** Remove deletes every entry with the id and keeps every other entry, in order. */
  lemma RemoveEffect(items: seq<Product>, productId: string)
    ensures var r := RemoveId(items, productId);
      && !Contains(r, productId)
      && (forall x :: x in r <==> x in items && x.id != productId)
      && (forall x: Product :: x.id != productId ==> multiset(r)[x] == multiset(items)[x])
      && Subsequence(r, items)
  {
    FilterMembers(items, (p: Product) => p.id != productId);
    FilterCounts(items, (p: Product) => p.id != productId);
    FilterIsSubsequence(items, (p: Product) => p.id != productId);
  }

  /** Removing an absent id changes nothing. */
  lemma RemoveAbsent(items: seq<Product>, productId: string)
    requires !Contains(items, productId)
    ensures RemoveId(items, productId) == items
  {
    FilterKeepsAll(items, (p: Product) => p.id != productId);
  }

  /** With unique ids, removing entry i's id deletes exactly entry i. */
  lemma RemoveUnique(items: seq<Product>, i: nat)
    requires i < |items| && UniqueIds(items)
    ensures RemoveId(items, items[i].id) == items[..i] + items[i + 1..]
  {
    FilterDropsOne(items, (p: Product) => p.id != items[i].id, i);
  }

  /** Removing keeps ids unique. */
  lemma RemoveKeepsUniqueIds(items: seq<Product>, productId: string)
    requires UniqueIds(items)
    ensures UniqueIds(RemoveId(items, productId))
  {
    FilterUniqueBy(items, (p: Product) => p.id != productId, IdOf);
  }

  /** Right after adding a product, its id is in the wishlist. */
  lemma ContainsAfterAdd(items: seq<Product>, product: Product)
    ensures Contains(AddProduct(items, product), product.id)
  {
    var r := AddProduct(items, product);
    if !Contains(items, product.id) {
      assert r[|items|] == product;
    }
  }

  /** Clearing empties the list and `SET_STATE` replaces it wholesale. */
  lemma ClearAndSetState(items: seq<Product>, loaded: seq<Product>, productId: string)
    ensures Reduce(items, ClearWishlist) == []
    ensures !Contains(Reduce(items, ClearWishlist), productId)
    ensures Reduce(items, SetState(loaded)) == loaded
  {
  }

  /**
   * The provider's state cell and its facade. Every method dispatches one
   * action; the new state is the reducer's result on the old one.
   */
  class WishlistStore {
    var items: seq<Product>

    /** The provider starts from `{ items: [] }`. */
    constructor ()
      ensures items == []
    {
      items := [];
    }

    /** `dispatch`: run the reducer on the current state. */
    method Dispatch(action: WishlistAction)
      modifies this
      ensures items == Reduce(old(items), action)
    {
      items := Reduce(items, action);
    }

    /** `addItem(product)`. */
    method AddItem(product: Product)
      modifies this
      ensures items == AddProduct(old(items), product)
      ensures IsItemInWishlist(product.id)
    {
      ContainsAfterAdd(items, product);
      Dispatch(WishlistAction.AddItem(product));
    }

    /** `removeItem(productId)`. */
    method RemoveItem(productId: string)
      modifies this
      ensures items == RemoveId(old(items), productId)
      ensures !IsItemInWishlist(productId)
    {
      RemoveEffect(items, productId);
      Dispatch(WishlistAction.RemoveItem(productId));
    }

    /** `clearWishlist()`. */
    method ClearWishlist()
      modifies this
      ensures items == []
    {
      Dispatch(WishlistAction.ClearWishlist);
    }

    /**
     * Hydration from storage: a payload that was read and parsed is loaded
     * with `SET_STATE`; a missing or unreadable one leaves the state as it is.
     */
    method Hydrate(stored: Option<seq<Product>>)
      modifies this
      ensures items == if stored.Some? then stored.value else old(items)
    {
      if stored.Some? {
        Dispatch(WishlistAction.SetState(stored.value));
      }
    }

    /** `isItemInWishlist(productId)` on the current state. */
    function IsItemInWishlist(productId: string): (b: bool)
      reads this
      ensures b <==> exists j :: 0 <= j < |items| && items[j].id == productId
    {
      Contains(items, productId)
    }
  }
}
