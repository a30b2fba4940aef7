# Cart manager of the ShoopyGlobal backend, modelled in Dafny

The backend keeps one shopping cart per user. A cart is an ordered sequence of
lines `{productId, quantity}`; products live in a catalog that the cart only reads
(for their stock). Six controller operations act on a cart:

- add an item: creates the cart on first use, appends a new line with quantity 1, or bumps an existing line by one while it is below stock;
- read the cart: joins every line to the live catalog and silently drops lines whose product has been deleted;
- increment or decrement a line by one: bounded above by stock and below by 1;
- remove one line;
- clear the cart, which leaves an existing empty cart.

Every mutating operation is a chain of guards that each answer a tagged error, followed by
one edit of the fetched line sequence and one save.

The project has four modules:

- `CartTypes` (`cart_types.dfy`) holds the data model. It has lines, products, joined items, the error kinds and the `Result` type. It defines the cart invariant `ValidLines`: product ids are unique and every quantity is at least 1. It also defines `IndexOf` (the semantics of `findIndex`) and the abstraction `QuantityOf`, the quantity a line sequence holds of a product.
- `CartSpec` (`cart_spec.dfy`) gives each operation as a pure transition of one user's cart. The cart is `None` while the user has none. A transition answers either `Err(kind)`, which saves nothing, or `Ok(Change(payload, lines))`, which saves exactly `lines`. The lemmas beside each transition state what it guarantees.
- `CartController` (`cart_controller.dfy`) holds the class `CartManager`. Its fields are the cart store `carts: map<UserId, seq<Line>>` and the catalog. Its methods follow the controller line by line: guards, a `findIndex` loop (`FindIndex`), an in-place edit of the fetched lines, and `cart.save()` as one assignment to `carts`. Each method is proved to answer, and to leave the store in, exactly what the matching `CartSpec` transition says. Each method also keeps `Valid()`: every stored cart satisfies the invariant. `GetCartByUser` is a function over the store.
- `CartProperties` (`cart_properties.dfy`) covers sequences of requests against one cart. It proves that the invariant and the stock ceiling are kept, that after a series of adds a product's quantity is its number of successful adds (capped by stock), and that reading the cart right after a successful remove shows no item for the removed product. It also works through example scenarios.

In these places the model follows the code as written:

- When the user has no cart yet, the first add creates it with one line but answers *updated* (200, not 201): `isNew` is only set when a line is appended to an existing cart (`ScenarioFirstAddWithoutCart`). An existing empty cart, for example one just cleared, does answer *created* (`ScenarioAddUpToStock`).
- The stock guard is written `!product.stock > 0`, that is `(!stock) > 0`. For a stock that is a natural number this rejects exactly stock 0, which is what the guard's error message describes.
- Increment and decrement look up the product before the cart. Without a cart they therefore answer `CartNotFound` only when the product exists (`ScenarioNoCart`).
- A line missing from the cart is reported with the same title "Product Not Found" as a missing product, though with a different message. The model gives it its own kind, `LineNotFound`.
- Decrement never consults stock. The stock ceiling is enforced by the two operations that raise a quantity, add and increment.

## Model

| member | source | states |
|---|---|---|
| `CartTypes.IndexOf` | controllers/cart.controller.js:42-44 | the result is the first position whose line is for the product, and it is -1 exactly when no line is for it |
| `CartController.FindIndex` | controllers/cart.controller.js:183-185 | the linear search returns exactly `IndexOf`: the first matching position, or -1 |
| `CartController.CartManager.AddCartItem` | controllers/cart.controller.js:7-85 | the answer and the new store are those of `CartSpec.Add` on the user's cart; other users' carts are untouched; a store of valid carts stays valid |
| `CartController.CartManager.IncreaseProductQuantity` | controllers/cart.controller.js:143-222 | the answer and the new store are those of `CartSpec.Increase`; other users untouched; validity kept |
| `CartController.CartManager.DecreaseProductQuantity` | controllers/cart.controller.js:225-298 | the answer and the new store are those of `CartSpec.Decrease`; other users untouched; validity kept |
| `CartController.CartManager.DeleteCartItem` | controllers/cart.controller.js:301-352 | the answer and the new store are those of `CartSpec.Delete`; other users untouched; validity kept |
| `CartController.CartManager.DeleteAllCartItems` | controllers/cart.controller.js:355-395 | the answer and the new store are those of `CartSpec.Clear`; other users untouched; validity kept |
| `CartController.CartManager.GetCartByUser` | controllers/cart.controller.js:88-140 | answers CartNotFound without a stored cart, CartEmpty for an empty one, and NoValidProducts when no line's product is still in the catalog; succeeds exactly when the stored cart has a line whose product is still in the catalog, answering the joined view (its properties are in `CartSpec.GetCartOutcome`, `JoinSound`, `JoinComplete`, `JoinOrdered`) |
| `CartSpec.AddQuantity` | controllers/cart.controller.js:11-62 | add succeeds exactly when the cart holds fewer of the product than its stock (a missing product counts as stock 0); the errors are ProductNotFound, then InsufficientStock (stock 0), then StockLimitReached; on success the product's quantity rises by exactly one and no other product's quantity changes |
| `CartSpec.AddLayout` | controllers/cart.controller.js:31-80 | a missing cart becomes the one-line cart `[{p, 1}]` answered Updated; an existing cart without p gets `{p, 1}` appended at the end, answered Created; otherwise only p's line changes, by +1, answered Updated; the answered line is p's saved line and lies between 1 and the stock |
| `CartSpec.AddKeepsValid` | controllers/cart.controller.js:42-62 | add keeps ids unique and quantities at least 1, and keeps every line of a catalog product within that product's stock |
| `CartSpec.LineGuardOutcome` | controllers/cart.controller.js:151-195 | the shared guard chain fails with ProductNotFound, CartNotFound, CartEmpty, LineNotFound in that order, and passes exactly when the product exists and the cart has a line for it, giving that line's position |
| `CartSpec.IncreaseOutcome` | controllers/cart.controller.js:151-207 | increment reports the first failing guard, then StockLimitReached when the quantity is at or above stock; it succeeds exactly when the line exists below stock; on success only that line changes, to quantity + 1 ≤ stock, the length is kept and the changed line is answered |
| `CartSpec.DecreaseOutcome` | controllers/cart.controller.js:231-286 | decrement reports the first failing guard, then MinimumQuantityReached when the quantity is at most 1; it succeeds exactly when the line holds more than 1; on success only that line changes, to quantity - 1 ≥ 1, and the other lines and their order are untouched |
| `CartSpec.StepQuantity` | controllers/cart.controller.js:196-286 | a successful increment raises the product's quantity by exactly one and a successful decrement lowers it by exactly one; no other product's quantity changes; a failure changes nothing |
| `CartSpec.StepKeepsValid` | controllers/cart.controller.js:196-286 | increment and decrement keep ids unique and quantities at least 1, and keep every line within stock |
| `CartSpec.SpliceFacts` | controllers/cart.controller.js:340 | splicing out one position shifts the later lines down by one, keeps the invariant and the stock ceiling, and with unique ids leaves no line for the removed product |
| `CartSpec.SpliceIsWithout` | controllers/cart.controller.js:326-340 | with unique ids, splicing out p's line is the same as keeping every line not for p, in their original order |
| `CartSpec.QuantityAfterSplice` | controllers/cart.controller.js:340 | with unique ids, splicing out one product's line leaves every other product's quantity unchanged |
| `CartSpec.DeleteGuards` | controllers/cart.controller.js:307-338 | for any cart, remove fails with CartNotFound, CartEmpty, LineNotFound in that order and succeeds exactly when the cart has a line for p |
| `CartSpec.DeleteOutcome` | controllers/cart.controller.js:307-341 | for a valid cart (the store is proved to hold only valid carts), remove fails with CartNotFound, CartEmpty, LineNotFound in that order and succeeds exactly when the cart has a line for p; then the cart is the old cart without p, one line shorter, with no line for p, still valid, and every other product keeps its quantity |
| `CartSpec.ClearTwice` | controllers/cart.controller.js:362-383 | clear succeeds exactly on an existing non-empty cart and leaves an existing empty cart, so a second clear answers CartEmpty; with no cart it answers CartNotFound |
| `CartSpec.JoinSound` | controllers/cart.controller.js:116-124 | every item of the cart view comes from a cart line whose product is still in the catalog, carrying that product's live data and the line's quantity |
| `CartSpec.JoinComplete` | controllers/cart.controller.js:116-124 | every cart line whose product is still in the catalog appears in the cart view |
| `CartSpec.JoinOrdered` | controllers/cart.controller.js:116-124 | with unique ids the cart view keeps the cart's order: an earlier item comes from an earlier line |
| `CartSpec.GetCartOutcome` | controllers/cart.controller.js:98-136 | reading fails with CartNotFound, CartEmpty, then NoValidProducts when every line's product is gone; it succeeds exactly when some line's product still exists, answering the joined view |
| `CartProperties.RunKeepsValid` | controllers/cart.controller.js:42-382 | any sequence of add, increment, decrement, remove and clear requests keeps ids unique and quantities at least 1; while the catalog is unchanged, no line ever exceeds its product's stock |
| `CartProperties.AddsCount` | controllers/cart.controller.js:42-62 | after any sequence of adds, a product's quantity is its starting quantity plus the number of its adds that succeeded |
| `CartProperties.AddsCapped` | controllers/cart.controller.js:46-62 | while the catalog is unchanged, after any sequence of adds a product's quantity is the smaller of (start + its number of adds) and its stock |
| `CartProperties.RemovalIsTotal` | controllers/cart.controller.js:326-341 | after a successful remove of p from a valid cart, reading the cart never returns an item for p |
| `CartProperties.ScenarioAddUpToStock` | controllers/cart.controller.js:42-80 | with stock 3 and an existing empty cart: the adds answer `{A,1}` Created, then `{A,2}` Updated, then `{A,3}` Updated, and a fourth add fails with StockLimitReached |
| `CartProperties.ScenarioFirstAddWithoutCart` | controllers/cart.controller.js:31-39 | the first add for a user without a cart saves `[{A,1}]` and answers Updated |
| `CartProperties.ScenarioOutOfStock` | controllers/cart.controller.js:22-29 | a product with stock 0 is refused with InsufficientStock, whatever the cart |
| `CartProperties.ScenarioDecrementAtOne` | controllers/cart.controller.js:277-284 | decrementing a line of quantity 1 answers MinimumQuantityReached and leaves the cart as it was |
| `CartProperties.ScenarioDanglingLine` | controllers/cart.controller.js:116-136 | with lines for a deleted product A and a live product B, reading the cart answers only B's line |
| `CartProperties.ScenarioNoCart` | controllers/cart.controller.js:98-369 | without a cart, increment and decrement of an existing product, remove, clear and read all answer CartNotFound |

## Left out

- HTTP responses are replaced by the tagged `Result`: the status codes, the error titles and messages, and the response shaping in utils/sendSuccessResponse.js and utils/secondErrorResponse.js. The `Created`/`Updated` flag stands for the 201/200 choice of an add.
- Collaborator faults and the `catch`/`next(err)` path are not modelled. This includes a malformed product id that the persistence layer refuses to cast.
- Concurrency is not modelled. Each operation runs alone, and `cart.save()` is one atomic assignment to the store. The lost-update race between two concurrent requests on one cart is therefore not captured.
- Populating product references is reduced to a catalog lookup. A product carries only its stock, so the other product fields and the field selection of the populate call are not modelled.
- Ids are plain strings compared by equality. This one comparison stands for two in the source: the product lookup casts the id to an ObjectId (controllers/cart.controller.js:11), while the line lookups compare `toString()` with the given string (controllers/cart.controller.js:42-44, 69-70). The uniqueness invariant relies on this abstraction: a non-canonical spelling of an id (upper-case hex, say) would find the product but match no stored line, so repeated adds would push duplicate lines.
- No `CartManager` method changes the catalog: product creation, update and deletion belong to controllers/product.controller.js, which is not part of this model. The `CartSpec` transitions and lemmas take the catalog as a parameter, so they cover a catalog that changes between requests (`ScenarioDanglingLine`).
- Quantities are natural numbers. The cart schema (models/Cart.model.js) is not part of this model. The invariant that quantities stay at least 1 and ids stay unique is proved to be kept, not assumed.
- controllers/user.controller.js (registration, login), utils/generateToken.js (token issuance), index.js and routes/product.routes.js (server setup, database connection, routing) are not part of this model.
