/**
 * The catalog page of `src/app/products/page.tsx`: the category checkboxes,
 * the category filter and the in-place sort by the chosen option. The
 * catalog is one shared array; with no category selected it is sorted itself.
 */
module ProductsPage {
  import opened Shop
  import opened Seqs
  import Cart

  // ---------------------------------------------------------------------------
  // Category selection and filtering
  // ---------------------------------------------------------------------------

  /** `handleCategoryChange`: drop a selected id, append an unselected one. */
  function ToggleCategory(prev: seq<string>, categoryId: string): seq<string>
  {
    if categoryId in prev then Filter(prev, (id: string) => id != categoryId)
    else prev + [categoryId]
  }

  /** A selected id is removed (every copy) with the others kept; an unselected id is appended. */
  lemma ToggleCategoryEffect(prev: seq<string>, categoryId: string)
    ensures var r := ToggleCategory(prev, categoryId);
      && (categoryId in prev ==> categoryId !in r && forall id :: id != categoryId ==> (id in r <==> id in prev))
      && (categoryId !in prev ==> r == prev + [categoryId])
  {
    FilterMembers(prev, (id: string) => id != categoryId);
  }

  /** Checking and then unchecking an unselected category restores the selection. */
  lemma ToggleCategoryTwice(prev: seq<string>, categoryId: string)
    requires categoryId !in prev
    ensures ToggleCategory(ToggleCategory(prev, categoryId), categoryId) == prev
  {
    var keep := (id: string) => id != categoryId;
    var once := prev + [categoryId];
    assert categoryId in once;
    FilterAppend(prev, [categoryId], keep);
    FilterKeepsAll(prev, keep);
    assert Filter([categoryId], keep) == [];
  }

  /** The filter step: all products when nothing is selected, else those whose category is selected. */
  function FilterByCategories(catalog: seq<Product>, selected: seq<string>): seq<Product>
  {
    if |selected| > 0 then Filter(catalog, (p: Product) => p.category in selected)
    else catalog
  }

  /** An empty selection keeps everything; otherwise exactly the products of the selected categories, in catalog order. */
  lemma FilterByCategoriesSpec(catalog: seq<Product>, selected: seq<string>)
    ensures var r := FilterByCategories(catalog, selected);
      && (selected == [] ==> r == catalog)
      && (selected != [] ==> forall p :: p in r <==> p in catalog && p.category in selected)
      && Subsequence(r, catalog)
  {
    if selected != [] {
      FilterMembers(catalog, (p: Product) => p.category in selected);
      FilterIsSubsequence(catalog, (p: Product) => p.category in selected);
    } else {
      FilterKeepsAll(catalog, (p: Product) => true);
      FilterIsSubsequence(catalog, (p: Product) => true);
    }
  }

  // ---------------------------------------------------------------------------
  // Sorting
  // ---------------------------------------------------------------------------

  /** The sort options; any other value falls to the `default` branch. */
  datatype SortOption = PriceAsc | PriceDesc | Popularity

  /** The `switch (sortOption)`. */
  function ParseSortOption(s: string): SortOption
  {
    if s == "price-asc" then PriceAsc
    else if s == "price-desc" then PriceDesc
    else Popularity
  }

  /** The comparator as written: negative when `a` goes first. */
  function Compare(a: Product, b: Product, option: SortOption): int
  {
    match option
    case PriceAsc => a.price - b.price
    case PriceDesc => b.price - a.price
    case Popularity => b.stock - a.stock
  }

  /** A number per product that the comparator orders ascending. */
  function SortKey(p: Product, option: SortOption): int
  {
    match option
    case PriceAsc => p.price
    case PriceDesc => -p.price
    case Popularity => -p.stock
  }

  /** Every comparator branch is the difference of the keys, so it is a total preorder. */
  lemma CompareIsKeyDifference(a: Product, b: Product, option: SortOption)
    ensures Compare(a, b, option) == SortKey(a, option) - SortKey(b, option)
    ensures Compare(a, b, option) == -Compare(b, a, option)
  {
  }

  /** No pair of products is out of order for the comparator. */
  ghost predicate SortedBy(s: seq<Product>, option: SortOption)
  {
    forall i, j :: 0 <= i < j < |s| ==> SortKey(s[i], option) <= SortKey(s[j], option)
  }

  /** What a sorted result means for each option. */
  lemma SortedMeaning(s: seq<Product>, option: SortOption)
    requires SortedBy(s, option)
    ensures forall i, j :: 0 <= i < j < |s| ==> Compare(s[i], s[j], option) <= 0
    ensures option == PriceAsc ==> forall i, j :: 0 <= i < j < |s| ==> s[i].price <= s[j].price
    ensures option == PriceDesc ==> forall i, j :: 0 <= i < j < |s| ==> s[i].price >= s[j].price
    ensures option == Popularity ==> forall i, j :: 0 <= i < j < |s| ==> s[i].stock >= s[j].stock
  {
    forall i, j | 0 <= i < j < |s| ensures Compare(s[i], s[j], option) <= 0 {
      CompareIsKeyDifference(s[i], s[j], option);
    }
  }

  /** The first `n` cells of `a` are in comparator order. */
  ghost predicate SortedPrefix(a: array<Product>, n: int, option: SortOption)
    requires 0 <= n <= a.Length
    reads a
  {
    forall k, l :: 0 <= k < l < n ==> SortKey(a[k], option) <= SortKey(a[l], option)
  }

  /** Exchanges two neighbouring cells. */
  method SwapDown(a: array<Product>, j: int)
    requires 0 < j < a.Length
    modifies a
    ensures a[j - 1] == old(a[j]) && a[j] == old(a[j - 1])
    ensures forall k :: 0 <= k < a.Length && k != j - 1 && k != j ==> a[k] == old(a[k])
    ensures multiset(a[..]) == multiset(old(a[..]))
  {
    a[j - 1], a[j] := a[j], a[j - 1];
  }

  /** Moves cell `i` down past the larger cells before it, so that the first `i + 1` cells are in order. */
  method InsertDown(a: array<Product>, i: int, option: SortOption)
    requires 0 <= i < a.Length && SortedPrefix(a, i, option)
    modifies a
    ensures SortedPrefix(a, i + 1, option)
    ensures forall k :: i < k < a.Length ==> a[k] == old(a[k])
    ensures multiset(a[..]) == multiset(old(a[..]))
  {
    var j := i;
    while j > 0 && SortKey(a[j - 1], option) > SortKey(a[j], option)
      invariant 0 <= j <= i
      invariant forall k, l :: 0 <= k < l <= i && k != j && l != j ==> SortKey(a[k], option) <= SortKey(a[l], option)
      invariant forall l :: j < l <= i ==> SortKey(a[j], option) <= SortKey(a[l], option)
      invariant forall k :: i < k < a.Length ==> a[k] == old(a[k])
      invariant multiset(a[..]) == multiset(old(a[..]))
    {
      SwapDown(a, j);
      j := j - 1;
    }
  }

  /** `Array.prototype.sort` with the comparator: the array ends sorted and holds the same products. */
  method SortInPlace(a: array<Product>, option: SortOption)
    modifies a
    ensures SortedBy(a[..], option)
    ensures multiset(a[..]) == multiset(old(a[..]))
  {
    var i := 0;
    while i < a.Length
      invariant 0 <= i <= a.Length
      invariant SortedPrefix(a, i, option)
      invariant multiset(a[..]) == multiset(old(a[..]))
    {
      InsertDown(a, i, option);
      i := i + 1;
    }
  }

  /**
   * `filteredAndSortedProducts`: with categories selected, a fresh filtered
   * array is sorted; with none, `filtered` is the shared catalog array, which
   * is sorted in place.
   */
  method FilteredAndSorted(catalog: array<Product>, selected: seq<string>, sortOption: string)
    returns (r: array<Product>)
    modifies catalog
    ensures |selected| == 0 ==> r == catalog
    ensures |selected| > 0 ==> fresh(r) && catalog[..] == old(catalog[..])
    ensures SortedBy(r[..], ParseSortOption(sortOption))
    ensures multiset(r[..]) == multiset(FilterByCategories(old(catalog[..]), selected))
  {
    if |selected| > 0 {
      var filtered := FilterByCategories(catalog[..], selected);
      r := new Product[|filtered|](k requires 0 <= k < |filtered| => filtered[k]);
      assert r[..] == filtered;
    } else {
      r := catalog;
    }
    SortInPlace(r, ParseSortOption(sortOption));
  }

  /** The card's cart button: `addItem(product)`, relying on the default quantity of 1. */
  method HandleAddToCart(cart: Cart.CartStore, product: Product)
    modifies cart
    ensures cart.items == Cart.Add(old(cart.items), product, 1)
  {
    cart.AddItem(product);
  }
}
