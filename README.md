# Storefront store, modelled in Dafny

This project models the state core of a browser storefront demo. The core is a client-side
store (`StoreContext.tsx`) that owns five slots:

- the product catalog;
- the orders, most recent first;
- the cart;
- the active portal (buyer or admin);
- the admin flag.

Every store operation replaces one or more slots with a value computed from the old one by a
`map`, `filter`, `reduce` or spread. The model keeps that shape. `StoreContext.Store` is a class
with the five fields. Its methods assign exactly the slots the source's setters write, and each
method's `ensures` gives the new value through a pure sequence function. Properties of those
functions are proved as lemmas: cart aggregation, totals, what stays unchanged, idempotence, and
the one-line-per-id cart invariant that `Store.Valid()` keeps.

Two view components hold logic that sits directly on the store, and they are modelled with it:

- `AdminPortal.tsx`: the product edit buffer and its save, which fills in defaults and then
  updates or inserts. It also computes the four dashboard figures.
- `BuyerPortal.tsx`: the stock-gated Add-to-Cart button and its label, the cart badge, the cart
  total, and the checkout form, which refuses an empty name.

`types.ts` becomes the datatypes `Product`, `CartItem` (every product field plus `quantity`),
`Order` and the four-valued `OrderStatus`.

Files and modules:

| file | module | models |
|---|---|---|
| wrappers.dfy | Wrappers | `Option`, for JavaScript's missing values |
| seqs.dfy | Seqs | `find`, `filter` and summing `reduce`, with their lemmas |
| text.dfy | Text | ASCII upper-casing, `substr`, decimal rendering of numbers |
| types.dfy | Types | `types.ts` |
| catalog.dfy | Catalog | the product-list rewrites of `StoreContext.tsx` |
| cart.dfy | Cart | the cart rewrites and totals of `StoreContext.tsx` |
| orders.dfy | Orders | order creation and status change of `StoreContext.tsx` |
| store.dfy | StoreContext | the store class, starter catalog and passphrase |
| buyer_portal.dfy | BuyerPortal | `components/BuyerPortal.tsx` |
| admin_portal.dfy | AdminPortal | `components/AdminPortal.tsx` |
| untyped_stock.dfy | UntypedStock | the save of a never-typed stock, listed under Findings |

Modelling decisions:

- Prices, stock, quantities and totals are mathematical integers. The starter prices are whole
  numbers.
- Three values come from outside the model and are parameters:
  - `Math.random().toString(36)` is the `randomBase36` argument of `PlaceOrder`;
  - `Date.now()` is the `nowMillis` argument of the save;
  - `new Date().toISOString()` is the `date` argument.
- `reduce((acc, x) => acc + f(x), 0)` is `Seqs.SumOf`, a left fold that adds the last element last.
- The edit buffer (`Partial<Product>`) is `AdminPortal.Draft`, with every field optional.
- The generated order id has up to nine characters after `ORD-` (`substr(2, 9)`): as many as the
  random text has after its first two.

What the store does not check:

- The store checks neither product-id uniqueness nor an empty customer name. The only name guard
  is the buyer's checkout form (`BuyerView.HandlePlaceOrder`), and uniqueness is a hypothesis of
  the lemmas that need it.

## Model

| member | source | states |
|---|---|---|
| Types.ParseStatus | types.ts:2 | Exactly the four names Pending, Shipped, Completed and Cancelled parse to a status, and the parsed status carries that same name. |
| Types.StatusNameRoundTrip | types.ts:2 | Each status parses back from its name, so the four values are distinct. |
| Types.WithQuantity | types.ts:14-16 | A cart line keeps every product field of the product it was made from, plus the given quantity. |
| Catalog.HasProduct | components/AdminPortal.tsx:25 | `find` on the product list succeeds exactly when some product carries the id. |
| Catalog.ReplaceProduct | StoreContext.tsx:63 | Update keeps the length. Every product with the id becomes the new product, and every other product stays unchanged in its position. |
| Catalog.ReplaceProductProperties | StoreContext.tsx:63 | Update keeps every id in place, so unique ids stay unique. It changes nothing when no id matches, and applying it twice equals applying it once. |
| Catalog.RemoveProduct | StoreContext.tsx:64 | Delete never lengthens the list, and it changes nothing when no product has the id. |
| Catalog.RemoveProductProperties | StoreContext.tsx:64 | After a delete no product has the id, and every other product survives. Nothing new appears, unique ids stay unique, and relative order is kept: deleting from a concatenation deletes from each part. |
| Cart.CartAdd | StoreContext.tsx:66-73 | Definition only: bump the line for the id, or append a one-unit line. Its properties are stated by Cart.CartAddShape, Cart.CartAddExisting, Cart.CartAddNew, Cart.CartAddWellFormed and Cart.CartAddTotal. |
| Cart.CartTotal | StoreContext.tsx:78 | Definition only: the sum of price times quantity over the lines, as both the store and components/BuyerPortal.tsx:12 compute it. Its properties are stated by Cart.CartAddTotal and StoreContext.StarterCheckoutTotal. |
| Cart.QuantitySum | components/BuyerPortal.tsx:93 | Definition only: the number of units in the cart. Its properties are stated by Cart.CartAddQuantity and Cart.QuantityAtLeastLines. |
| Cart.FindLine | StoreContext.tsx:67 | The lookup returns a position holding a line with the id, and it finds nothing exactly when no line has the id. |
| Cart.IncrementLines | StoreContext.tsx:69 | The lines with the id gain exactly one unit and change nothing else. All other lines are untouched, and the length is kept. |
| Cart.CartAddShape | StoreContext.tsx:66-73 | After an add, a line for the product exists. The cart grows by one line exactly when there was none, and the existing lines keep their positions and ids. |
| Cart.CartAddExisting | StoreContext.tsx:66-73 | With one line per id, adding a product that already has a line bumps that one line by one unit and changes nothing else. |
| Cart.CartAddNew | StoreContext.tsx:71 | Adding a product that has no line appends a one-unit line made from the product's fields. |
| Cart.CartAddWellFormed | StoreContext.tsx:66-73 | Adding keeps the cart invariant: one line per id, each for at least one unit. |
| Cart.RemoveLines | StoreContext.tsx:75 | Remove never lengthens the cart, and it changes nothing when no line has the id. |
| Cart.RemoveLinesProperties | StoreContext.tsx:75 | After a remove no line has the id, and every other line survives. Nothing new appears, and the cart invariant is kept. Relative order is kept: removing from a concatenation removes from each part. |
| Cart.RepeatedAddsAggregate | StoreContext.tsx:66-73 | From a cart without the product, n >= 1 adds of it give the same cart plus one line for it, with quantity n. |
| Cart.EmptyCartRepeatedAdds | StoreContext.tsx:66-73 | From an empty cart, n >= 1 adds of one product give exactly one line, with quantity n. |
| Cart.RepeatedAddsExisting | StoreContext.tsx:66-73 | With one line per id, n adds of a product already in the cart raise its line by n units and change nothing else. |
| Cart.CartAddTotal | StoreContext.tsx:78 | An add raises the cart total by the product's price for a new line. For an existing line it raises the total by that line's stored snapshot price, whatever the product's price is now. |
| Cart.CartAddQuantity | components/BuyerPortal.tsx:93 | With one line per id, every add puts exactly one more unit in the cart. |
| Cart.QuantityAtLeastLines | components/BuyerPortal.tsx:91-93 | A well-formed cart holds at least as many units as lines. |
| Orders.OrderId | StoreContext.tsx:80 | The id is "ORD-" followed by at most nine characters. Each is the character at position 2 onwards of the random text, upper-cased: a lower-case letter becomes its capital, and digits are copied unchanged. It has all nine exactly when the random text has at least 11 characters, and otherwise as many as the random text has after its first two. |
| Orders.NewOrder | StoreContext.tsx:79-86 | Definition only: the cart as items, its total, status Pending, the name and the date. Its properties are stated by StoreContext.Store.PlaceOrder and AdminPortal.CheckoutDashboard. |
| Orders.SetStatus | StoreContext.tsx:91-93 | Matching orders take the new status and keep every other field. All other orders are untouched, and the length is kept. |
| Orders.SetStatusOnlyStatus | StoreContext.tsx:91-93 | A status change alters no field but the status, and it is a no-op for an id that matches no order. |
| Orders.SetStatusLastWins | StoreContext.tsx:91-93 | Any status may follow any other, and the last one set wins. Setting the same status twice equals setting it once. |
| StoreContext.CaseVariantsRejected | StoreContext.tsx:49-55 | The empty string is refused, and so is every string containing an upper-case ASCII letter. |
| StoreContext.InitialProductsWellFormed | StoreContext.tsx:25-29 | The starter catalog holds three products with distinct ids, each with positive price and stock. |
| StoreContext.StarterCheckoutTotal | StoreContext.tsx:66-78 | On the starter catalog, adding product "1" twice and "2" once gives lines of 2 and 1 units, and their total is 3497. |
| StoreContext.Store.constructor | StoreContext.tsx:32-42 | Start-up uses the saved products and orders when present, else the starter catalog and no orders. The cart starts empty, the portal is the buyer's, and the session is not admin. |
| StoreContext.Store.SetPortal | StoreContext.tsx:41 | Switches the portal and writes nothing else. There is no admin check in the store. |
| StoreContext.Store.Login | StoreContext.tsx:49-55 | Returns true exactly for "admin123", and only then sets the admin flag. Any other string leaves the flag as it was. |
| StoreContext.Store.Logout | StoreContext.tsx:57-60 | Clears the admin flag, returns to the buyer portal, and touches nothing else. |
| StoreContext.Store.AddProduct | StoreContext.tsx:62 | Appends the product at the end, with no uniqueness check. Earlier products are unchanged. |
| StoreContext.Store.UpdateProduct | StoreContext.tsx:63 | The products become their replacement by id. Cart and orders are untouched. |
| StoreContext.Store.DeleteProduct | StoreContext.tsx:64 | The products lose those with the id. Cart lines and orders keep their copies. |
| StoreContext.Store.AddToCart | StoreContext.tsx:66-73 | The cart becomes the add of the product, with no stock check, and the cart invariant is kept. |
| StoreContext.Store.RemoveFromCart | StoreContext.tsx:75 | The cart loses every line with the id, and the cart invariant is kept. |
| StoreContext.Store.PlaceOrder | StoreContext.tsx:77-89 | One order is put in front. It carries the cart, total = sum of price*quantity, status Pending and the given name. Older orders follow unchanged, the cart is emptied, and products (stock included) are unchanged. |
| StoreContext.Store.UpdateOrderStatus | StoreContext.tsx:91-93 | The orders become their status change by id. Products and cart are untouched. |
| BuyerPortal.CanAddToCart | components/BuyerPortal.tsx:68 | Definition only: the button is enabled unless stock <= 0. Its properties are stated by BuyerPortal.StockLabel and BuyerPortal.BuyerView.ClickAddToCart. |
| BuyerPortal.StockLabel | components/BuyerPortal.tsx:63-64 | The label reads "In Stock: " exactly when the button is enabled, and "Out of Stock" otherwise. The digits after the prefix have no leading zero and read back as the stock. |
| BuyerPortal.CartBadge | components/BuyerPortal.tsx:91-93 | The badge is shown exactly when the cart has a line. |
| BuyerPortal.CartBadgeCountsUnits | components/BuyerPortal.tsx:91-93 | On a well-formed cart, a shown badge is at least the number of lines, so it is never zero. Each add raises it by exactly one. |
| BuyerPortal.BuyerView.constructor | components/BuyerPortal.tsx:9-10 | The checkout name starts empty and no confirmation is shown. |
| BuyerPortal.BuyerView.EnterName | components/BuyerPortal.tsx:140 | Typing sets the checkout name. |
| BuyerPortal.BuyerView.ClickAddToCart | components/BuyerPortal.tsx:66-68 | Products with stock <= 0 are not added. Any other product is added through the store, and the cart invariant is kept. |
| BuyerPortal.BuyerView.HandlePlaceOrder | components/BuyerPortal.tsx:14-19 | With an empty name nothing changes. Otherwise exactly one order is placed, charged the cart total the view showed; the cart empties, the confirmation shows and the name field clears. |
| AdminPortal.SavedProduct | components/AdminPortal.tsx:18-23 | The saved product keeps the buffer's id unless it is missing or empty; then it gets the decimal time in milliseconds. Name and description are the typed ones. Missing or empty category and image become "Uncategorized" and the default picture. An untyped price or stock is 0 (see Findings). |
| AdminPortal.Upsert | components/AdminPortal.tsx:25-29 | Definition only: update when some product has the id, else append. Its properties are stated by AdminPortal.UpsertStoresSaved and AdminPortal.SaveUntouchedIsNoOp. |
| AdminPortal.TotalRevenue | components/AdminPortal.tsx:12 | Definition only: the sum of the order totals. Its properties are stated by AdminPortal.CheckoutDashboard, AdminPortal.StatusChangeDashboard and AdminPortal.ProductsSoldCountsLines. |
| AdminPortal.PendingCount | components/AdminPortal.tsx:13 | Definition only: the number of Pending orders. Its properties are stated by AdminPortal.CheckoutDashboard and AdminPortal.StatusChangeDashboard. |
| AdminPortal.ProductsSold | components/AdminPortal.tsx:62 | Definition only: the number of lines over all orders. Its properties are stated by AdminPortal.CheckoutDashboard, AdminPortal.StatusChangeDashboard and AdminPortal.ProductsSoldCountsLines. |
| AdminPortal.InventoryCount | components/AdminPortal.tsx:66 | Definition only: the number of products. AdminPortal.UpsertStoresSaved states that a save raises it by one for a new id and otherwise keeps it. |
| AdminPortal.SaveUntouchedRoundTrip | components/AdminPortal.tsx:107 | Opening a product for editing and saving it untouched writes back the same product. |
| AdminPortal.UpsertStoresSaved | components/AdminPortal.tsx:25-29 | After a save the product is present, and every product with its id is the saved one. Others are unchanged in place, the Inventory Count grows by one for a new id and is kept otherwise, and unique ids stay unique, so exactly one product has the id. |
| AdminPortal.SaveUntouchedIsNoOp | components/AdminPortal.tsx:25-29 | With unique ids, saving a product opened for editing and left untouched leaves the list unchanged. |
| AdminPortal.CheckoutDashboard | components/AdminPortal.tsx:12-13 | A checkout adds the cart total to Total Revenue, the number of cart lines to Products Sold, and one to Pending Orders. |
| AdminPortal.StatusChangeDashboard | components/AdminPortal.tsx:12-13 | Status changes never move Total Revenue or Products Sold, so cancelled orders still count. Setting Pending never lowers Pending Orders, and any other status never raises it. An id that matches no order leaves it unchanged. |
| AdminPortal.ProductsSoldCountsLines | components/AdminPortal.tsx:62 | Products Sold counts lines, not units. n adds of one product and a checkout raise it by one, while revenue rises by n times the price. |
| AdminPortal.AdminView.constructor | components/AdminPortal.tsx:9 | No product is being edited at first. |
| AdminPortal.AdminView.StartAdd | components/AdminPortal.tsx:80 | "+ Add Product" opens an empty buffer. |
| AdminPortal.AdminView.StartEdit | components/AdminPortal.tsx:107 | "Edit" opens a buffer holding every field of the product. |
| AdminPortal.AdminView.CancelEdit | components/AdminPortal.tsx:217 | "Cancel" closes the buffer. |
| AdminPortal.AdminView.HandleSaveProduct | components/AdminPortal.tsx:15-31 | Without a buffer nothing changes. Otherwise the filled-in product is updated if its id is present and inserted if not, and the buffer closes. Cart and orders are untouched. |
| UntypedStock.UntouchedStockAsWritten | components/AdminPortal.tsx:18-23 | As written, a buffer without stock gives a product that is labelled "Out of Stock" and can still be added. |
| UntypedStock.SavedProductStockAgrees | components/BuyerPortal.tsx:63-68 | With the corrected save, the button is enabled exactly when the label says "In Stock". An untouched stock is out of stock for both. |

## Left out

- Persistence: reading and writing `localStorage` and `JSON.parse` / `JSON.stringify` (StoreContext.tsx:32-47) are I/O. The constructor receives the saved collections already parsed, as `Option`s. Malformed saved text and the write-back after every change are not modelled.
- React specifics are not modelled:
  - setters that capture stale state when several fire in one event (the model applies each operation to the current state);
  - the 3-second auto-dismiss of the confirmation (components/BuyerPortal.tsx:20-23) and the cart drawer's open flag;
  - all rendering and styling.
- Floating point: prices are integers, and the `parseFloat` / `parseInt` of the form inputs (components/AdminPortal.tsx:201, 211) are not modelled.
- The per-field `onChange` edits of the admin buffer are plain record updates of the `Draft` and have no methods of their own. So do the Delete, Remove and status-selector buttons, which call the store methods directly. The selector's `as any` cast is not modelled: its four options are exactly `Types.StatusName`'s values.
- The browser's `required` check on the admin form's name, price and stock inputs is not modelled. The save handler itself does not check them.
- `handleGenerateDescription` (components/AdminPortal.tsx:33-44) awaits an external text-generation service. It is out of the model, like `services/geminiService.ts` and `components/PitchAssistant.tsx`.
- `components/Navbar.tsx` and `App.tsx` are routing and markup and are not part of this model. So is `useStore`'s error outside the provider.
- Order-id uniqueness is not modelled: the random text is a parameter, and nothing retries on a collision.
- Orders.OrderId: `toUpperCase` is modelled for ASCII letters only. This is all a base-36 number's text contains.
- AdminPortal.SavedProduct: a name or description missing from the buffer is saved as "" where the source leaves it `undefined`. Both render as empty text, so nothing visible differs.
- Text.Substr: JavaScript's `substr` is modelled for non-negative start and length only, the only arguments used.

## Findings

| source | as written | input that shows it | evidently intended | confidence | as-written member | corrected member |
|---|---|---|---|---|---|---|
| components/AdminPortal.tsx:18-23 | The save spreads the buffer and fills in only id, category and image. A stock (or price) never typed into stays `undefined`. The buyer's label test `stock > 0` then fails ("Out of Stock"), but the button test `stock <= 0` also fails, so the button is enabled. The product can be added, and its cart total is `NaN`. | "+ Add Product", type a name, leave price and stock as the form shows them (0), save. | An untyped field holds the 0 the form displays, so label and button agree that the product is out of stock. | not executed; high that the saved product lacks the fields, medium that no browser behaviour fills them | UntypedStock.UntouchedStockAsWritten | AdminPortal.SavedProduct, with UntypedStock.SavedProductStockAgrees |
