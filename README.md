# Storefront cart: a verified Dafny model

This project models the shopping-cart logic of a single-page clothing storefront
(`script.js`). The page has a fixed catalog of six products. It also has a cart,
which is an ordered list of lines. Each line is a copy of a catalog product plus
a quantity. Four user actions change the cart:

- add to cart: one more unit on the product's line, or a new line at the end;
- change quantity: add a delta to a line, and remove the line when it drops to 0 or below;
- remove: drop every line with that id;
- place order: check the payment choice, then empty the cart and show the `success` section.

Two reductions read the cart: the badge count (the sum of quantities) and the
total (the sum of price times quantity).

Layout:

- `catalog.dfy`, module `Catalog`: the product records, the catalog constant and lookup by id.
- `cart_store.dfy`, module `CartStore`: the cart line type and the store invariant
  `WellFormed`. The invariant says there is at most one line per id, every line
  has `qty >= 1`, and every line copies its catalog product. This module also
  holds one pure function per cart operation (`AddLine`, `ChangeQtyOf`,
  `FilterOut`), the reductions `Count`, `Total` and `QtyOf`, and the lemmas
  about them.
- `storefront.dfy`, module `Storefront`: class `Store`. Its fields are the
  module-level state, `cart` and the visible `page`. It has one method per
  user action. Each method states its new state through the pure functions
  above and keeps `Valid()`.

`QtyOf(s, id)` is the number of units of one product summed over all lines.
It is the independent view that the add, change and remove lemmas are
checked against. For example, an add gives one more unit of that product
and no change to any other product.

Prices are integer cents (89.99 is 8999), so totals are exact.

## Model

| member | source | states |
|---|---|---|
| `Catalog.FindIn` | script.js:37 | a found product carries the requested id; the result is absent exactly when no entry of the list has that id |
| `Catalog.FindInFirst` | script.js:37 | a found product is an entry of the list and no earlier entry has its id, so lookup returns the first match |
| `Catalog.FindInEntry` | script.js:37 | with distinct ids, looking up an entry's id returns that entry |
| `Catalog.Find` | script.js:2-9 | the catalog holds exactly the ids 1 to 6, and a found product carries the requested id |
| `Catalog.FindEntry` | script.js:2-9 | every catalog entry is what looking up its own id returns |
| `CartStore.IndexOf` | script.js:38 | the cart lookup finds the first line with the id, or reports that no line has it |
| `CartStore.AddExisting` | script.js:38-41 | adding an id that already has line `i` raises that line's qty by exactly 1; every other line and the order stay the same |
| `CartStore.AddNew` | script.js:42-43 | adding an id with no line appends one line with the product's id, name, price and image and qty 1 |
| `CartStore.AddPreserves` | script.js:36-44 | adding a catalog product keeps one line per id, qty >= 1 and catalog copies |
| `CartStore.AddCount` | script.js:36-44 | an add raises the count by 1 and gives one more unit of that product and of no other |
| `CartStore.AddTotal` | script.js:36-44 | on a well-formed cart an add raises the total by the product's price |
| `CartStore.AddAllEffect` | script.js:36-44 | any sequence of adds keeps the cart well formed and raises the count by the number of adds |
| `CartStore.RepeatedAdd` | script.js:36-44 | n adds of one id to an empty cart give a single line with qty n, and the count is n |
| `CartStore.TotalExample` | script.js:112 | 25.00 once plus 45.00 twice totals 11500 cents |
| `CartStore.CountAndTotalBounds` | script.js:53 | with every qty >= 1 the count is at least the number of lines, it is 0 exactly on the empty cart, and the total is never negative |
| `CartStore.FilterAppend` | script.js:105 | removal distributes over concatenation, so the kept lines keep their relative order |
| `CartStore.FilterKeeps` | script.js:105 | a line is kept exactly when it was in the cart and has a different id |
| `CartStore.FilterAbsent` | script.js:105 | removing an id that no line has leaves the cart unchanged |
| `CartStore.FilterIdempotent` | script.js:105 | removing the same id twice equals removing it once |
| `CartStore.FilterUnique` | script.js:105 | with unique ids, removing the id of line `i` deletes exactly that line |
| `CartStore.RemoveTotal` | script.js:104-105 | with unique ids, removing the id of line `i` lowers the total by exactly that line's price times qty |
| `CartStore.RemoveEffect` | script.js:104-108 | removal keeps the cart well formed, sets that product's units to 0, leaves every other product's units alone, and lowers the count by the removed units |
| `CartStore.ChangeAbsent` | script.js:90-92 | a quantity change on an id with no line leaves the cart unchanged |
| `CartStore.ChangePresent` | script.js:93-99 | if qty + delta <= 0 the line is deleted and the rest stays in order; otherwise the line holds qty + delta in the same position |
| `CartStore.ChangeToZeroRemoves` | script.js:93-95 | changing a line by minus its own qty leaves no line with that id |
| `CartStore.BumpEffect` | script.js:93-99 | a change that leaves line `i` positive keeps the cart well formed and moves that product's units and the count by exactly the change |
| `CartStore.ChangeTotal` | script.js:90-101 | with unique ids, a change on line `i` lowers the total by that line's subtotal when qty + delta <= 0, and otherwise moves it by price times delta |
| `CartStore.ChangeEffect` | script.js:90-101 | a change keeps every remaining qty >= 1 and the cart well formed; the product's units become qty + delta, or 0 when that is <= 0; other products are untouched; the count moves by the same amount |
| `Storefront.Store.constructor` | script.js:12 | the page starts with an empty cart |
| `Storefront.Store.AddToCart` | script.js:36-44 | the new cart is `AddLine` of the old cart and the looked-up product; the page is unchanged; a valid cart stays valid and its count rises by 1 |
| `Storefront.Store.UpdateCartCount` | script.js:52-55 | returns the sum of the quantities; on a valid cart it is at least the number of lines and 0 exactly when the cart is empty |
| `Storefront.Store.CalculateTotal` | script.js:111-114 | returns the sum of price times qty; on a valid cart it is never negative |
| `Storefront.Store.ChangeQty` | script.js:90-101 | the new cart is `ChangeQtyOf` of the old one; the page is unchanged; a valid cart stays valid |
| `Storefront.Store.RemoveItem` | script.js:104-108 | the new cart is the old one without the lines of that id, in order; the page is unchanged; a valid cart stays valid |
| `Storefront.Store.Router` | script.js:117-137 | the visible page becomes the requested one and the cart is untouched |
| `Storefront.Store.PlaceOrder` | script.js:154-178 | the order is refused exactly when the method is `upi` and the transaction id is empty, and then cart and page are unchanged; otherwise the cart is emptied (count 0, total 0) and the page becomes `success` |

## Left out

- Display work is not modelled: `renderProducts`, the markup built in `renderCart`, the text written by `updateCartCount` and `calculateTotal`, and the class toggling in `router` and `togglePayment`. These only write to the document. The same goes for the re-render after each mutation and the `DOMContentLoaded` wiring.
- `alert` calls are not modelled. They block the user but change no state.
- Prices are exact integer cents. The source stores prices as JavaScript doubles, sums them in floating point and rounds only for display with `toFixed(2)`. Floating-point rounding of the total is not modelled.
- Storefront.Store.AddToCart: requires the id to be in the catalog. On an unknown id the source pushes a line built from `undefined` and then throws when it reads the product's name, so the cart is left partly changed. That crash is not modelled.
- Storefront.Store.ChangeQty: the delta is an integer. The page only ever passes +1 or -1; a fractional JavaScript number is not modelled.
- Storefront.Store.Router: the page is any string. The source throws when no section has that id. The list of sections lives in the HTML page, which is not part of this model. The same holds for the initial section, which the constructor takes as a parameter.
- Storefront.Store.PlaceOrder: the payment method and transaction id are plain parameters. Reading them from the form, and the throw when no payment option is checked, are not modelled; neither is `event.preventDefault()`.
- Cart lines are values, not shared objects. The source changes `qty` on the line object in place. Each line is a fresh spread copy that nothing else references, so no aliasing is lost.
