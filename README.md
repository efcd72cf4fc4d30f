# famouz-store cart store in Dafny

A model of the shopping-cart store of the FamouzFit storefront (`App` in
`src/App.tsx`). The store holds three things: an ordered cart of products, a flag
for whether the cart overlay is open, and the fixed six-product catalog the page
offers. `addToCart` appends an entry. `removeFromCart` filters out the entry at a
list position. The total is the `reduce` sum of the entries' prices. Each handler
also raises a success notification.

- `catalog.dfy`, module `Catalog`: the `Product` record and the catalog constant.
  Prices are integer cents (59.99 is `5999`), so sums are exact.
- `cart_ops.dfy`, module `CartOps`: the pure values the handlers compute.
  - `Append` is the spread-append that adds one entry at the end.
  - `RemoveAt` is the index filter, written entry by entry as the filter runs.
  - `Total` is the left-to-right `reduce` sum.
  - The lemmas relate the three.
- `cart_store.dfy`, module `CartStore`: class `Store` with the `cart`, `isOpen` and
  `toasts` fields.
  - Its methods are the handlers. Each states the new state in terms of `CartOps`.
  - `Badge` and `Overlay` state what the cart button and the overlay show.

Removal is by list position. The only call site passes the row's `index`
(`src/App.tsx:238`), although the handler's parameter is named `productId`. Some
descriptions of the system say that a catalog id is passed as if it were a
position. The code does not do that, and the model follows the code.

## Model

| member | source | states |
|---|---|---|
| `Catalog.CatalogWellFormed` | src/App.tsx:19-74 | The catalog has six products. Their ids are distinct and positive, their prices positive, and every rating lies in [0, 5]. |
| `CartOps.Append` | src/App.tsx:77 | The new cart is one entry longer, its last entry is the added product, and the earlier entries are the old cart in order. |
| `CartOps.RemoveAt` | src/App.tsx:82 | The index filter drops exactly one entry when the index is a position of the cart, and none otherwise. |
| `CartOps.Total` | src/App.tsx:86 | The reduce sum of prices is never negative when no price is. |
| `CartOps.RemoveAtInRange` | src/App.tsx:82 | Filtering out a valid position `i` yields `cart[..i] + cart[i+1..]`. |
| `CartOps.RemoveAtOutOfRange` | src/App.tsx:82 | Filtering with an index outside `[0, length)` leaves the cart unchanged. |
| `CartOps.RemoveAtShifts` | src/App.tsx:82 | Entries before the removed position keep their places. Entries after it move one place forward. |
| `CartOps.RemoveAtMultiset` | src/App.tsx:82 | Exactly the removed entry leaves the multiset of entries. |
| `CartOps.RemoveAtFromCatalog` | src/App.tsx:82 | Removing any index keeps a cart of catalog products a cart of catalog products. |
| `CartOps.AppendFromCatalog` | src/App.tsx:77 | After an append, the cart holds only catalog products exactly when it did before and the added product is in the catalog. |
| `CartOps.AppendThenRemove` | src/App.tsx:76-84 | Removing the position just appended gives back the old cart. |
| `CartOps.TotalConcat` | src/App.tsx:86 | The total of two carts laid end to end is the sum of their totals. |
| `CartOps.TotalAppend` | src/App.tsx:76-86 | Adding a product raises the total by its price. |
| `CartOps.TotalRemoveAt` | src/App.tsx:81-86 | Removing a valid position lowers the total by that entry's price. |
| `CartOps.TotalPermutation` | src/App.tsx:86 | Two carts with the same multiset of entries have the same total. The total is a sum over the entries, whatever their order. |
| `CartOps.EmptyIffZeroTotal` | src/App.tsx:86 | When every price is positive, the total is 0 exactly for the empty cart. |
| `CartOps.CatalogCartEmptyIffZeroTotal` | src/App.tsx:19-86 | A cart of catalog products has total 0 exactly when it is empty. |
| `CartOps.AddedInTurnInOrder` | src/App.tsx:76-79 | Adding products P1..Pn one click at a time leaves the old cart followed by P1..Pn, in click order. |
| `CartOps.PowderAndCreatineTotal` | src/App.tsx:19-86 | Adding the 59.99 powder and the 24.99 creatine to an empty cart gives the total 84.98. |
| `CartOps.DuplicatesIndependent` | src/App.tsx:76-86 | Adding one product twice gives two entries. Removing either leaves the other in place and still counted in the total. |
| `CartOps.AddThenRemoveFirstFromEmpty` | src/App.tsx:76-86 | Adding a product to an empty cart and removing position 0 gives an empty cart with total 0. |
| `CartStore.Store.constructor` | src/App.tsx:16-17 | A session starts with an empty cart, the overlay closed, and no notifications. |
| `CartStore.Store.Badge` | src/App.tsx:115-119 | The count badge is shown exactly when the cart has entries, and it shows the number of entries. |
| `CartStore.Store.Overlay` | src/App.tsx:207-257 | A closed overlay shows nothing. An open one shows the empty-cart notice exactly when the cart is empty. Otherwise it lists every entry in order with the total. |
| `CartStore.Store.AddToCart` | src/App.tsx:76-79 | The cart becomes the old cart plus the product at the end, and the total rises by its price. The cart stays a cart of catalog products exactly when the product is one. The overlay flag is unchanged, and the "Added to cart!" notification is logged. |
| `CartStore.Store.RemoveFromCart` | src/App.tsx:81-84 | A valid position leaves the cart with that entry cut out, and the total falls by its price. Any other index leaves the cart unchanged. The catalog invariant is kept, the overlay flag is unchanged, and "Removed from cart!" is logged in both cases. |
| `CartStore.Store.OpenCart` | src/App.tsx:111 | Opening sets the flag and changes neither the cart, the total, the badge nor the notifications. |
| `CartStore.Store.CloseCart` | src/App.tsx:214 | Closing clears the flag and hides the overlay. The cart, total, badge and notifications stay unchanged. |
| `CartStore.DuplicateSession` | src/App.tsx:76-86 | A session that adds a product twice and then removes position 0 keeps exactly one copy, and the total is that copy's price. |

## Left out

- All JSX rendering, layout, styling, the video banner and the search input. These are presentation only, and the search input has no behaviour. The overlay and badge are modelled only as the `Panel` and `Option` values their conditions select.
- Checkout: the button has no handler.
- Floating-point prices and the `toFixed(2)` display rounding. Prices are integer cents, so the total is exact. The model does not capture the rounding error of JavaScript number addition.
- `toast.success`: the notification library is not modelled. Each call is recorded as its fixed message appended to the `toasts` log.
- React `useState` semantics: setter batching, stale closures captured by a render, and re-render scheduling. Each handler is modelled as reading the current state and replacing it at once.
- `CartStore.Store.RemoveFromCart`: the index is a Dafny `int`. In JavaScript it is a `number`, and a fractional or `NaN` index would match no position. Such an index is not modelled, but it behaves like the out-of-range case.
- The `Product` fields `id` and `rating` are unbounded integers rather than JavaScript numbers.
