# Storefront cart and wishlist stores, in Dafny

This project models the client-side state of a bespoke-fashion storefront:

- the **cart store**, a reducer over an ordered list of lines;
- the **wishlist store**, a reducer over an ordered list of products;
- the rules that the storefront's pages and components apply to the two stores.

Each reducer is a pure function from a state and an action to a new state. Each store is a class. Its `items` field is a `seq`, and every facade method dispatches one action.

The cart identifies a line by the string `${id}-${size}`. A missing size renders as the text `undefined`. The model keeps this key a string (`Cart.LineKey`), so two different (id, size) pairs can share a key (`Cart.KeyCollision`). The key does identify the pair when ids contain no `-` and no size is the text `undefined` (`Cart.LineKeyInjective`). Prices are integer cents, so the 25.00 shipping fee is `2500`.

The model follows the code, including these behaviours a reader might not expect:

- `ADD_ITEM` does not check the sign of the quantity, so it can create a line whose quantity is not positive (`Cart.AddNonPositiveKeepsLine`).
- `UPDATE_QUANTITY` drops every line whose quantity is not positive, not only the edited one (`Cart.UpdateKeepsOthers`).
- Identity is the concatenated string described above, not the (id, size) pair.
- `SET_STATE` loads whatever payload it is given.

The invariant "positive quantities, one line per key" (`Cart.Wellformed`) holds only for the actions that keep it (`Cart.ReducePreservesWellformed`).

The pages and components contribute these rules:

- the cart page's shipping fee, total, line amounts and key;
- move-to-cart on the wishlist page, which is two separate dispatches, not one transaction;
- the size gate, wishlist toggle and related-products strip on the product page;
- the category toggle, filter and in-place sort on the catalog page;
- step highlighting in the order tracker;
- the active-link rule in the admin sidebar.

## Model

| member | source | states |
|---|---|---|
| `Cart.KeyCollision` | src/hooks/use-cart.tsx:37-39 | two different (id, size) pairs, ("a-b", none) and ("a", "b-undefined"), produce the same line key |
| `Cart.LineKeyInjective` | src/hooks/use-cart.tsx:37-39 | when no id contains '-' and no size is the text "undefined", equal keys mean equal id and equal size, and conversely |
| `Cart.FindIndex` | src/hooks/use-cart.tsx:38-40 | the result is -1 exactly when no line has the key; otherwise it is the first line with the key |
| `Cart.SumOfAppend` | src/hooks/use-cart.tsx:113-121 | the left folds behind `subtotal` and `totalItems` add up over a concatenation of line lists |
| `Cart.EmptyCartTotals` | src/hooks/use-cart.tsx:113-121 | an empty cart has subtotal 0 and total item count 0 |
| `Cart.SetQuantity` | src/hooks/use-cart.tsx:57-60 | the map step keeps length and products, gives every line with the key the new quantity, and leaves other quantities alone |
| `Cart.AddExisting` | src/hooks/use-cart.tsx:41-44 | adding onto the first line with the key raises only that line's quantity, by `quantity`; that line keeps its product, and length and every other line are unchanged |
| `Cart.AddNew` | src/hooks/use-cart.tsx:46-49 | adding a product whose key no line has appends one line with that quantity and keeps the earlier lines |
| `Cart.AddEachExisting` | src/hooks/use-cart.tsx:37-44 | when some line already has the product's key, any number of further adds all accumulate into the first such line, by the sum of their quantities, and leave every other line unchanged |
| `Cart.AddRepeated` | src/hooks/use-cart.tsx:37-49 | repeated adds of a product with a new key leave exactly one new line, whose quantity is the sum of all added quantities |
| `Cart.AddTotalItems` | src/hooks/use-cart.tsx:35-50 | adding raises `totalItems` by exactly the added quantity |
| `Cart.AddSubtotal` | src/hooks/use-cart.tsx:35-50 | adding raises `subtotal` by quantity times the price of the line it lands on: the existing line's price, or the product's own price for a new line |
| `Cart.LineAmountGrows` | src/hooks/use-cart.tsx:114 | raising a line's quantity by q raises its amount by its price times q |
| `Cart.AddNonPositiveKeepsLine` | src/hooks/use-cart.tsx:46-49 | `ADD_ITEM` with quantity 0 or less on a new key creates a line that is not positive; nothing rejects it |
| `Cart.RemoveEffect` | src/hooks/use-cart.tsx:51-55 | no remaining line has the key; a line remains exactly when it was there and has another key, with every copy of it kept; the result keeps the original order |
| `Cart.RemoveIdempotent` | src/hooks/use-cart.tsx:51-55 | a second remove of the same key is a no-op |
| `Cart.RemoveAbsent` | src/hooks/use-cart.tsx:51-55 | removing a key that no line has leaves the cart unchanged |
| `Cart.RemoveUnique` | src/hooks/use-cart.tsx:51-55 | with unique keys, removing line i's key deletes exactly line i and keeps the rest in order |
| `Cart.UpdateEffect` | src/hooks/use-cart.tsx:56-62 | after an update every line is positive; every line with the key has the new quantity; a quantity of 0 or less leaves no line with the key |
| `Cart.UpdateKeepsOthers` | src/hooks/use-cart.tsx:57-61 | a line with another key survives an update exactly when it was present with a positive quantity, so non-positive lines of other keys are dropped too |
| `Cart.UpdatePositive` | src/hooks/use-cart.tsx:56-62 | on an all-positive cart, a positive update keeps the length, sets the lines with the key, and leaves every other line unchanged |
| `Cart.UpdateToZeroIsRemove` | src/hooks/use-cart.tsx:56-62 | on an all-positive cart, updating to 0 or less is the same as `REMOVE_ITEM` of the key |
| `Cart.ClearAndSetState` | src/hooks/use-cart.tsx:64-67 | `CLEAR_CART` yields no lines, with subtotal and count 0; `SET_STATE` yields exactly the loaded lines |
| `Cart.AddThenZeroScenario` | src/hooks/use-cart.tsx:35-62 | a 10.00 product without a size, added once and then twice, gives one line of 3 and a subtotal of 30.00; setting "p1-undefined" to 0 empties the cart |
| `Cart.ReducePreservesWellformed` | src/hooks/use-cart.tsx:33-71 | each action keeps "positive quantities and unique keys": removes, updates and clears always do, adds do when the quantity is positive, and loads do when the payload is well formed |
| `Cart.CartStore.constructor` | src/hooks/use-cart.tsx:76 | the store starts with no lines |
| `Cart.CartStore.Dispatch` | src/hooks/use-cart.tsx:76 | the new lines are the reducer applied to the old lines and the action |
| `Cart.CartStore.AddItem` | src/hooks/use-cart.tsx:97-99 | `addItem` dispatches `ADD_ITEM`, and its quantity defaults to 1; the item count grows by the quantity |
| `Cart.CartStore.RemoveItem` | src/hooks/use-cart.tsx:101-103 | `removeItem` dispatches `REMOVE_ITEM`; afterwards no line has the key |
| `Cart.CartStore.UpdateItemQuantity` | src/hooks/use-cart.tsx:105-107 | `updateItemQuantity` dispatches `UPDATE_QUANTITY`; afterwards every line is positive |
| `Cart.CartStore.ClearCart` | src/hooks/use-cart.tsx:109-111 | `clearCart` leaves no lines, with subtotal and item count 0 |
| `Cart.CartStore.Hydrate` | src/hooks/use-cart.tsx:78-87 | a stored payload that was read and parsed replaces the state through `SET_STATE`; otherwise the state is kept |
| `Wishlist.Contains` | src/hooks/use-wishlist.tsx:84-86 | the membership test is true exactly when some entry has the id |
| `Wishlist.AddIdempotent` | src/hooks/use-wishlist.tsx:28-32 | adding a product whose id is present returns the state unchanged, so adding twice is the same as adding once |
| `Wishlist.AddAbsent` | src/hooks/use-wishlist.tsx:33-36 | adding a product whose id is absent appends it at the end and leaves the existing entries unchanged |
| `Wishlist.AddKeepsUniqueIds` | src/hooks/use-wishlist.tsx:28-37 | if ids are unique before an add, they are unique after it, whatever the size |
| `Wishlist.ContainsAfterAdd` | src/hooks/use-wishlist.tsx:28-37 | right after adding a product, its id is in the wishlist |
| `Wishlist.RemoveEffect` | src/hooks/use-wishlist.tsx:38-42 | after a remove, no entry has the id; every other entry stays, as often as it occurred, in the original order |
| `Wishlist.RemoveAbsent` | src/hooks/use-wishlist.tsx:38-42 | removing an absent id is a no-op |
| `Wishlist.RemoveUnique` | src/hooks/use-wishlist.tsx:38-42 | with unique ids, removing entry i's id deletes exactly entry i |
| `Wishlist.RemoveKeepsUniqueIds` | src/hooks/use-wishlist.tsx:38-42 | a remove keeps ids unique |
| `Wishlist.ClearAndSetState` | src/hooks/use-wishlist.tsx:43-46 | `CLEAR_WISHLIST` empties the list so no id is present; `SET_STATE` yields exactly the loaded list |
| `Wishlist.WishlistStore.constructor` | src/hooks/use-wishlist.tsx:55 | the store starts empty |
| `Wishlist.WishlistStore.Dispatch` | src/hooks/use-wishlist.tsx:55 | the new list is the reducer applied to the old list and the action |
| `Wishlist.WishlistStore.AddItem` | src/hooks/use-wishlist.tsx:76-78 | `addItem` dispatches `ADD_ITEM`; afterwards the product's id is in the wishlist |
| `Wishlist.WishlistStore.RemoveItem` | src/hooks/use-wishlist.tsx:80-82 | `removeItem` dispatches `REMOVE_ITEM`; afterwards the id is not in the wishlist |
| `Wishlist.WishlistStore.ClearWishlist` | src/hooks/use-wishlist.tsx:88-90 | `clearWishlist` leaves the list empty |
| `Wishlist.WishlistStore.Hydrate` | src/hooks/use-wishlist.tsx:57-66 | a stored payload that was read and parsed replaces the state through `SET_STATE`; otherwise the state is kept |
| `Wishlist.WishlistStore.IsItemInWishlist` | src/hooks/use-wishlist.tsx:84-86 | on the current state, true exactly when some entry has the id |
| `CartPage.Shipping` | src/app/cart/page.tsx:14 | shipping is 25.00 when the cart has at least one line and 0 when it is empty |
| `CartPage.TotalRule` | src/app/cart/page.tsx:15 | an empty or cleared cart totals 0; any other cart totals its subtotal plus 25.00 |
| `CartPage.PageKeyIsReducerKey` | src/app/cart/page.tsx:17 | the page's `getItemId` builds the same string the reducer matches on |
| `CartPage.LineAmounts` | src/app/cart/page.tsx:58 | one displayed amount per line, each equal to price times quantity |
| `CartPage.LineAmountsSumToSubtotal` | src/app/cart/page.tsx:58 | the displayed line amounts, summed from the right, equal the store's left-folded `subtotal` |
| `CartPage.RemoveHitsDisplayedLine` | src/app/cart/page.tsx:78 | Remove on line i deletes that line; with unique keys it deletes nothing else and keeps the order |
| `CartPage.QuantityEditHitsDisplayedLine` | src/app/cart/page.tsx:70 | on a well-formed cart, a positive edit of line i sets only that line's quantity; an edit to 0 or less deletes exactly line i |
| `CartPage.OnQuantityChange` | src/app/cart/page.tsx:70 | the quantity box dispatches `UPDATE_QUANTITY` with the line's page key and the entered number |
| `CartPage.OnRemove` | src/app/cart/page.tsx:78 | the Remove button dispatches `REMOVE_ITEM` with the line's page key, and the displayed line is gone afterwards |
| `WishlistPage.HandleAddToCart` | src/app/account/wishlist/page.tsx:27-34 | move-to-cart adds the product to the cart with quantity 1 and then removes its id from the wishlist; the cart count grows by 1 and the id is gone |
| `WishlistPage.HandleRemove` | src/app/account/wishlist/page.tsx:86 | the per-item button removes that product's id from the wishlist |
| `WishlistPage.HandleClear` | src/app/account/wishlist/page.tsx:99 | Clear Wishlist empties the list |
| `WishlistPage.MoveToCartCart` | src/app/account/wishlist/page.tsx:28 | move-to-cart appends a line of quantity 1 for a new key, or adds 1 to the first line with the key while the length and every other line stay as they were; lines with other keys are unchanged |
| `WishlistPage.MoveToCartWishlist` | src/app/account/wishlist/page.tsx:29 | after move-to-cart the id is not in the wishlist; every other entry is kept, in order |
| `WishlistPage.MoveToCartMidway` | src/app/account/wishlist/page.tsx:27-30 | right after the cart step the cart has a line with the product's key; `HandleAddToCart` uses it at the point where the wishlist is still untouched, so the move is not atomic |
| `WishlistPage.RemoveButtonDeletesOnlyThatProduct` | src/app/account/wishlist/page.tsx:86 | with unique ids, the button on entry i deletes exactly that entry, and ids stay unique |
| `ProductDetail.RelatedProductsSpec` | src/components/product-detail-client.tsx:31 | related products share the category, exclude the product itself, are catalog products in catalog order, and number at most 4; they are exactly the first min(4, n) of the n related catalog products, so when fewer than 4 are shown, every related product is shown |
| `ProductDetail.GateShutNoChange` | src/components/product-detail-client.tsx:34-41 | outside 'sewing-materials', with no size or an empty size selected, add-to-cart leaves the cart unchanged |
| `ProductDetail.GateOpenAddsOne` | src/components/product-detail-client.tsx:42 | otherwise one unit lands on the line keyed by the id and the selected size (none if nothing is selected), and the item count grows by 1: an existing line grows by 1 with every other line unchanged, and a new key gets a new line of quantity 1 |
| `ProductDetail.ToggleTwice` | src/components/product-detail-client.tsx:54-68 | the toggle flips membership; toggling twice restores membership, and restores the exact list when the product was absent |
| `ProductDetail.ProductDetailView.constructor` | src/components/product-detail-client.tsx:29 | the view starts with no size selected |
| `ProductDetail.ProductDetailView.SelectSize` | src/components/product-detail-client.tsx:127 | picking a size stores it as the selected size |
| `ProductDetail.ProductDetailView.HandleAddToCart` | src/components/product-detail-client.tsx:33-52 | the cart changes exactly when the size gate is open, by an add of the size variant with quantity 1; the result says which toast is shown |
| `ProductDetail.ProductDetailView.HandleWishlistToggle` | src/components/product-detail-client.tsx:54-68 | removes the product when its id is present, adds it otherwise; membership flips |
| `ProductsPage.ToggleCategoryEffect` | src/app/products/page.tsx:56-62 | a selected id is removed, with every other id kept; an unselected id is appended |
| `ProductsPage.ToggleCategoryTwice` | src/app/products/page.tsx:56-62 | toggling an unselected id twice restores the selection exactly |
| `ProductsPage.FilterByCategoriesSpec` | src/app/products/page.tsx:65-67 | an empty selection keeps every product; otherwise the result is exactly the products whose category is selected, in catalog order |
| `ProductsPage.CompareIsKeyDifference` | src/app/products/page.tsx:69-79 | each comparator branch is a difference of per-product keys, so it is antisymmetric and orders products consistently |
| `ProductsPage.SortedMeaning` | src/app/products/page.tsx:69-79 | a sorted result has no pair out of order for the comparator: non-decreasing price for `price-asc`, non-increasing price for `price-desc`, non-increasing stock otherwise |
| `ProductsPage.SortInPlace` | src/app/products/page.tsx:69 | the in-place sort leaves the array ordered by the comparator and a permutation of what it held |
| `ProductsPage.FilteredAndSorted` | src/app/products/page.tsx:64-80 | the result is a sorted permutation of the filtered products; with no selection it is the shared catalog array sorted in place, and otherwise a fresh array, with the catalog untouched |
| `ProductsPage.HandleAddToCart` | src/app/products/page.tsx:82-88 | the card button adds the product with the default quantity 1 |
| `OrderProgress.IndexOf` | src/components/order-progress.tsx:19 | `findIndex` gives -1 exactly when the status is not among the steps; otherwise it gives the first step with that status |
| `OrderProgress.Render` | src/components/order-progress.tsx:14-52 | a cancelled order renders only a notice; otherwise 4 steps and 3 connectors are rendered; step i is lit when its rank is at most the current one, and connector i when step i+1 is reached; the icon spins only on Processing once Processing is reached |
| `OrderProgress.StatusIndexIsRank` | src/components/order-progress.tsx:19 | a tracked status's `currentStatusIndex` is its rank, and each step's position is its rank |
| `OrderProgress.StatusOrder` | src/components/order-progress.tsx:7-12 | the step list is ordered Pending < Processing < Shipped < Delivered and does not contain Cancelled |
| `OrderProgress.HighlightMonotone` | src/components/order-progress.tsx:29 | a later status lights a superset of the steps and connectors an earlier status lights |
| `OrderProgress.HighlightCounts` | src/components/order-progress.tsx:42-45 | step i is lit exactly when i is at most the current index, and connector i exactly when i is below it |
| `AdminNav.DashboardExactOnly` | src/components/admin-nav.tsx:22 | the `/admin` link is active exactly on the path `/admin` |
| `AdminNav.OtherLinksByPrefix` | src/components/admin-nav.tsx:22 | any other link is active exactly when the path starts with its href, which includes exact equality |
| `AdminNav.ProductsXActivatesProducts` | src/components/admin-nav.tsx:22 | the raw prefix test lights Products on `/admin/productsX` and not the dashboard |
| `AdminNav.PrefixesNest` | src/components/admin-nav.tsx:22 | two prefixes of one path are prefixes of each other, the shorter of the longer |
| `AdminNav.AtMostOneActive` | src/components/admin-nav.tsx:9-22 | for any path, no two of the four sidebar links are active together |

## Left out

- Writing the state to local storage after every change, `JSON.stringify`/`JSON.parse`, and the logged load and save errors. These are browser I/O. Hydration is the `Hydrate` method, which takes "payload read and parsed, or not" as a parameter.
- Validation of a loaded payload's shape: the source does none. The model types the payload as a list of lines or products.
- React context, the providers, `useEffect` scheduling, `useMemo` caching, the hooks throwing outside a provider, toasts, routing and all rendering other than the flags modelled in `OrderProgress.Render`.
- The initial category taken from the URL search parameter on the catalog page (src/app/products/page.tsx:36-54). It is routing input.
- Cart.Add: `ADD_ITEM` writes the new quantity into the existing line object, which the previous state shares (src/hooks/use-cart.tsx:42-43). The model updates a value, so this aliasing is not captured; it is visible only to something that keeps the previous state.
- ProductsPage.SortInPlace: does not state that the sort is stable, though the JavaScript sort is stable. It is modelled by an insertion sort, and only "ordered and a permutation" is proved.
- Floating-point money and `toFixed` formatting: amounts are integer cents.
- The `NaN` that `parseInt` gives for an empty quantity box: the entered value is an integer.
- Form schemas, checkout, the style-recommendation call and the static pages. They are not part of these stores.
