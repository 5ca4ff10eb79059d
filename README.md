# Elite Farm shop cart, modelled in Dafny

This project models the shopping cart of the Elite Farm storefront, a static
poultry-shop front end. It covers three parts:

- the `CartManager` that owns the list of line items and mirrors it into the browser storage slot `poultryCart`;
- the guard of the "Add to Cart" button and the category filter of the products page;
- the cart page's controllers: the quantity buttons, the remove button, the delivery-fee rule of the order summary and the demo checkout.

Modules, one concept each:

- `Wrappers`: the `Option` type.
- `Lists`: the three JavaScript array methods the code relies on. `FirstIndex` is `find`, `Filter` is `filter` and `Reduce` is `reduce`, a left fold proved equal to the structural sum `Sum`. Lemmas say how filters and sums behave under concatenation and single-element updates.
- `Catalog` (js/main.js): the `Product` record and the six catalog entries with their integer prices. It holds `FindProduct`, the `addToCart` guard `Purchasable`, ASCII `Lower` for `toLowerCase`, and `FilterProducts`.
- `Store` (js/main.js): the `LineItem` record (the copied product plus `quantity`) and the pure meaning of each cart operation (`Added`, `Removed`, `QuantityUpdated`, `Subtotal`, `ItemCount`, `Restore`). It holds the lemmas about them and the `CartManager` class. The class has the fields `cart` and `slot`; its methods are stated against those functions. `AddToCart` is here too.
- `CartPage` (js/cart.js): the controllers, with each confirmation dialog taken as a boolean input. It defines the pure outcome of each request (`AfterQuantityRequest`, `AfterRemoveRequest`), the "−"/"+" requests, the delivery fee and the summary.
- `Walkthrough`: client methods that replay a shopper's session, each step checked by the verifier. One adds eggs twice, clamps to one, removes and reloads. One is refused an unknown id and checks out. One checks the lower and higher summaries around the free-delivery threshold.

The object invariant `CartManager.Valid()` says that restoring the slot yields the in-memory cart. Every mutator that calls `saveCart` leaves `slot == Some(cart)`. `updateQuantity` on an absent id writes nothing, and the invariant still holds because the cart did not change.

Unique ids and quantities of at least one (`WellFormed`) are kept by every operation. They are not guaranteed by construction, because `loadCart` accepts whatever the slot holds. So each mutator promises `old(WellFormed(cart)) ==> WellFormed(cart)`, and `ClearCart` establishes it outright.

`loadCart` does not fail soft: `JSON.parse` (js/main.js:14) throws on malformed data. The model's slot holds either nothing or a list of items, so it has no corrupted state and claims no soft failure.

## Model

| member | source | states |
|---|---|---|
| Lists.FirstIndex | js/main.js:23 | the position `find` stops at: the first element passing the test; none exactly when no element passes |
| Lists.Filter | js/main.js:39 | `filter` keeps exactly the elements passing the test, and every kept element passes |
| Lists.Reduce | js/main.js:52 | the left fold `reduce((acc, x) => acc + w(x), acc)` equals the accumulator plus the structural sum |
| Catalog.FindProduct | js/main.js:271 | `products.find` yields a catalog product with the requested id, and nothing exactly when no product has it |
| Catalog.Purchasable | js/main.js:270-275 | the guard passes on only a catalog product with that id that is available; with no available product of that id it passes nothing |
| Catalog.PurchasableExactly | js/main.js:270-275 | in a catalog with distinct ids, the guard passes if and only if an available product with that id exists |
| Catalog.PurchasableOnCatalog | js/main.js:270-275 | on the shop's own catalog, `addToCart` passes exactly the ids of its available products |
| Catalog.CatalogDistinctIds | js/main.js:169-236 | the shop's six products have distinct ids |
| Catalog.GuardAdmitsPullets | js/main.js:214-224 | on the shop's catalog, `addToCart('layer-pullet')` hands over the fifth product |
| Catalog.GuardRejectsUnknown | js/main.js:271-272 | on the shop's catalog, an unlisted id is refused |
| Catalog.Lower | js/main.js:281 | `toLowerCase` keeps the length and lower-cases each ASCII letter in place |
| Catalog.LowerIdempotent | js/main.js:281 | lower-casing twice equals lower-casing once |
| Catalog.FilterProducts | js/main.js:278-281 | `'all'` selects the whole catalog; any other category selects exactly the products whose category matches it up to case |
| Catalog.FilterProductsConcat | js/main.js:279-281 | the selection distributes over concatenation, so catalog order is kept |
| Catalog.FilterProductsIgnoresCase | js/main.js:281 | two category names equal up to case select the same products |
| Catalog.CatalogCategories | js/main.js:169-236 | the first two products are eggs and the others are not, case aside |
| Catalog.FilterLeadingCategory | js/main.js:279-281 | when one category's products lead the list, the selection is exactly that prefix |
| Catalog.FilterEggs | js/main.js:278-281 | the "eggs" filter selects the two egg crates in catalog order |
| Store.AtLeastOne | js/main.js:46 | `Math.max(1, quantity)`: at least 1 and at least the request, and equal to one of the two |
| Store.Added | js/main.js:22-34 | the cart after `addItem`: one line longer exactly when the id was absent, the earlier lines keep their product fields, and any new line is the product with quantity 1 |
| Store.QuantityUpdated | js/main.js:43-48 | the cart after `updateQuantity`: same length and product fields; a line that changes has the requested id and quantity max(1, q) |
| Store.Restore | js/main.js:12-15 | what `loadCart` yields: the saved list, or an empty cart when nothing is saved |
| Store.AddNewLine | js/main.js:27-31 | adding an id not in the cart appends one line with the product's fields and quantity 1, with earlier lines unchanged |
| Store.AddExistingLine | js/main.js:23-26 | adding an id already in the cart raises that line's quantity by 1, keeps the length and touches no other line |
| Store.AddedWellFormed | js/main.js:22-34 | adding keeps ids unique and quantities at least 1, so it creates no duplicate line |
| Store.AddedItemCount | js/main.js:22-34 | every add raises the item count by exactly 1 |
| Store.AddedSubtotal | js/main.js:22-34 | every add raises the subtotal by one unit price: the stored line's price if there is one, else the product's |
| Store.AddToTrailingLine | js/main.js:23-26 | adding a product whose only line is the last one raises that line's quantity by 1 |
| Store.AddedTimesOneLine | js/main.js:22-34 | n adds of a product not in the cart leave the earlier lines and exactly one new line, of quantity n |
| Store.Removed | js/main.js:38-39 | after removal no line has the id, and the remaining lines are exactly the others |
| Store.RemovedAbsent | js/main.js:38-39 | removing an absent id leaves the cart exactly as it was |
| Store.RemovedAt | js/main.js:38-39 | with unique ids, removing a line's id drops exactly that line and keeps the rest in order |
| Store.RemovedWellFormed | js/main.js:38-41 | removing keeps ids unique and quantities at least 1 |
| Store.RemovedItemCount | js/main.js:38-39 | removing a line lowers the item count by that line's quantity |
| Store.DropLineWellFormed | js/main.js:39 | a well-formed cart without one of its lines is still well-formed |
| Store.UpdatedAt | js/main.js:43-48 | with unique ids, updating a line sets its quantity to max(1, q), so it is never below 1, and touches no other line |
| Store.UpdatedAbsent | js/main.js:43-48 | updating an absent id changes nothing |
| Store.UpdatedWellFormed | js/main.js:43-48 | updating keeps ids unique and quantities at least 1, whatever quantity is requested |
| Store.ItemCountAtLeastLines | js/main.js:55-57 | with positive quantities the item count is at least the number of lines |
| Store.CartManager.constructor | js/main.js:7-15 | the cart is the saved list, or empty when the slot holds nothing; the slot then agrees with the cart |
| Store.CartManager.SaveCart | js/main.js:17-20 | the slot receives a copy of the whole cart |
| Store.CartManager.AddItem | js/main.js:22-36 | the cart becomes `Added` of the old cart, the slot mirrors it, the item count rises by 1 and well-formedness is kept |
| Store.CartManager.RemoveItem | js/main.js:38-41 | the cart becomes `Removed` of the old cart, the slot mirrors it and well-formedness is kept |
| Store.CartManager.UpdateQuantity | js/main.js:43-49 | the cart becomes `QuantityUpdated` of the old cart; the slot is rewritten only when the id was present and is otherwise untouched |
| Store.CartManager.GetTotal | js/main.js:51-53 | the reduce equals the sum of price × quantity over the lines, and 0 for an empty cart |
| Store.CartManager.GetItemCount | js/main.js:55-57 | the reduce equals the sum of the quantities |
| Store.CartManager.ClearCart | js/main.js:59-62 | cart and slot both end up empty |
| Store.AddToCart | js/main.js:270-275 | the cart changes, by `Added` of the guarded product, only when the guard passes; otherwise cart and slot are unchanged |
| CartPage.AfterQuantityRequest | js/cart.js:48-58 | the cart after `updateCartQuantity`: below 1 and confirmed, exactly the lines without the id remain; below 1 and declined, unchanged; otherwise same length and product fields |
| CartPage.AfterRemoveRequest | js/cart.js:61-66 | the cart after `removeCartItem`: confirmed, exactly the lines without the id remain; declined, unchanged |
| CartPage.MinusRequest | js/cart.js:33 | "−" requests one less than the line's quantity, which is below 1 exactly when the quantity is at most 1 |
| CartPage.PlusRequest | js/cart.js:35 | "+" requests one more than the line's quantity, which is at least 1 exactly when the quantity is not negative |
| CartPage.LowRequestOutcome | js/cart.js:48-53 | a request below 1 removes the line when confirmed and leaves the cart unchanged when declined |
| CartPage.RequestSetsQuantity | js/cart.js:54-55 | a request of at least 1 sets that line's quantity to exactly that value and removes nothing |
| CartPage.MinusAtOne | js/cart.js:33-52 | "−" at quantity 1 takes the removal path: confirmed, only that line goes; declined, nothing changes |
| CartPage.MinusAboveOne | js/cart.js:33-55 | "−" above quantity 1 lowers the quantity by one with no dialog |
| CartPage.PlusAddsOne | js/cart.js:35-55 | "+" raises the line's quantity and the item count by one |
| CartPage.RemoveRequestOutcome | js/cart.js:61-66 | the remove button removes the line only when confirmed |
| CartPage.DeliveryFee | js/cart.js:71 | the fee is 0 exactly when the subtotal is at least 200, and 20 otherwise |
| CartPage.CartSummary | js/cart.js:69-72 | the total is subtotal plus fee, so it is never below the subtotal and at most 20 above it; it equals the subtotal exactly from 200 on |
| CartPage.UpdateCartSummary | js/cart.js:69-72 | the summary's subtotal is the cart's `getTotal()`, its fee is the delivery fee on that subtotal and its total is their sum |
| CartPage.UpdateCartQuantity | js/cart.js:48-58 | the cart becomes the request's outcome; the slot mirrors it after a confirmed removal or an update of a present id, and is untouched after a declined removal or an update of an absent id; invariants are kept |
| CartPage.RemoveCartItem | js/cart.js:61-66 | the line is removed, and the slot rewritten, only on confirmation |
| CartPage.HandleCheckout | js/cart.js:80-97 | an empty cart gets only a warning and is not touched; a confirmed order empties cart and slot; a declined one changes nothing |

## Left out

- Rendering: `renderProducts`, `renderCartItems`, `updateCartUI`, `showNotification` and the text `updateCartSummary` writes are display only. Which notification checkout ends with is kept, as `CheckoutOutcome`.
- Timers: the `setTimeout` calls in `showNotification` and `handleCheckout` are asynchronous and cosmetic. The delayed checkout dialog is treated as the next sequential step.
- Storage and JSON: the slot is a field holding either nothing or a copy of the list. Serialisation, a slot holding the empty string, and `JSON.parse` throwing on malformed data are not modelled.
- `loadCart` does not validate what it loads. So the model keeps unique ids and positive quantities only when they held before: each mutator promises `old(WellFormed(cart)) ==> WellFormed(cart)`.
- Floating point and `toFixed`: every catalog price is an integer, so money is `int`.
- `parseInt` on the quantity field: it can yield NaN, which passes `quantity < 1` as false and reaches `Math.max(1, NaN)`. That is browser input handling and is not modelled; quantities are integers.
- Catalog.Lower: lower-cases ASCII letters only, because full Unicode case mapping is beyond the model.
- In-place updates: `existingItem.quantity += 1` and `item.quantity = …` mutate a line object. The model replaces the element of the sequence instead. No other reference to a line object exists, as lines are created fresh by the object spread or by `JSON.parse`, so no aliasing is lost.
- The global singleton `cart` and the `window` exports: the controllers take the `CartManager` as a parameter.
- Navigation, smooth scroll, the contact and newsletter forms, and `console.log` are UI glue outside the cart.
