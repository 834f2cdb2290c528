# VintageSound cart manager in Dafny

This project models the shopping-cart manager of the VintageSound store page,
`main.js`. The page keeps three module-level variables:

- the instrument catalog `CATALAGO_INSTRUMENTOS`;
- the cart `carrito`, an ordered array of product records in which repeats
  stand for quantity;
- the cached subtotal `subtotalCompra`.

Around them sit the handlers that add a product (`agregarAlCarrito`), empty the
cart (`vaciarCarrito`), draw the grouped cart list (`actualizarCarritoDOM`),
show subtotal, IVA and total (`mostrarResumenCompra`), check out
(`finalizarCompra`) and start the page (the `DOMContentLoaded` handler).

The model has four modules:

- `Catalog` (catalog.dfy): the product record and the first-match lookup
  `Array.prototype.find`.
- `Totals` (totals.dfy): the subtotal fold, the IVA rate 0.21, and the summary
  of subtotal, tax and total.
- `Grouping` (grouping.dfy): how the grouped list is computed.
  - The `reduce` that counts lines per id into a plain object (`Tally`).
  - The order in which `Object.keys` returns those ids (`OwnKeys`). It
    follows OrdinaryOwnPropertyKeys, section 10.1.11.1 of ECMA-262: array-index
    keys come first in ascending numeric order, then the other keys in
    creation order. A key is an array index when it is below 2^32 − 1
    (section 6.1.7 of ECMA-262).
  - The (product, quantity) lines drawn from those keys (`GroupedView`).
  - Lemmas relating the list back to the cart.
- `Cart` (cart.dfy): class `CartManager`.
  - Its fields are the catalog, the cart, the cached subtotal and the saved
    storage entry.
  - Its methods update these fields in place, as the handlers do.
  - Dialogs are boolean inputs. Notifications are result values. The fetched
    catalog is a parameter.

Prices are exact `real`s and ids are `nat`s.

The grouped list is in `Object.keys` order. Ids that are array indices appear
in ascending numeric order, not in the order the products were first added.
For example, adding id 2 and then id 1 lists id 1 first. Ids of 2^32 − 1 and
above follow, in the order their products were first added. The code behaves
this way, and the model follows the code.

## Model

| member | source | states |
|---|---|---|
| Catalog.FindFirst | main.js:196-198 | The lookup gives nothing exactly when no record carries the id. Otherwise it gives a record with that id, and no earlier record has it. |
| Totals.Summarize | main.js:163-169 | The summary's subtotal is the fold of the line prices. Tax is subtotal × 21/100. Total is subtotal + tax, which equals subtotal × (1 + IVA), the amount checkout charges. |
| Totals.SumConcat | main.js:165 | The subtotal of two carts joined together is the sum of their subtotals. |
| Totals.SumAppend | main.js:165 | Appending a line raises the subtotal by exactly that line's price. |
| Totals.Sum | main.js:165 | The subtotal is the left fold of the line prices (its meaning is fixed by the rows for SumConcat, SumAppend and Summarize). With non-negative prices it is non-negative and at least the price of any single line. |
| Totals.SummaryOfEmptyCart | main.js:163-169 | An empty cart shows 0 for subtotal, tax and total. |
| Totals.TwoGuitarsExample | main.js:163-169 | Two lines priced 350 give subtotal 700, IVA 147 and total 847. |
| Grouping.Count | main.js:141-144 | A quantity never exceeds the number of cart lines. |
| Grouping.CountPositive | main.js:141-144 | An id's count is positive exactly when some cart line carries it. |
| Grouping.CountAppend | main.js:141-144 | The count over a cart with one more line is the old count plus that line's contribution. |
| Grouping.Tally | main.js:141-144 | The counter object has one property per distinct cart id. Each property holds the number of lines carrying its id. Each property was created once, and the creation list covers exactly the properties, in the order their ids first occur in the cart. |
| Grouping.OwnKeys | main.js:147 | Every counter property is returned exactly once. Array-index keys come before all other keys, in strictly ascending order. The other keys keep their relative creation order. |
| Grouping.Lines | main.js:147-153 | There is one line per key, in key order. Each line shows the catalog's first record for its key, with the key's count as quantity. |
| Grouping.GroupedView | main.js:141-157 | The drawn list is empty exactly when the cart is, so a non-empty cart never draws an empty listing. Its lines are fixed by the rows for GroupedViewCoversCart, GroupedViewQuantities and GroupedViewOrder, which cite the same lines. |
| Grouping.GroupedViewCoversCart | main.js:141-157 | Every drawn line shows a cart id. Every cart id is drawn. No id is drawn twice. |
| Grouping.GroupedViewQuantities | main.js:147-153 | Each drawn line shows the catalog's first record for its id. Its quantity is the (positive) number of cart lines carrying that id. |
| Grouping.GroupedViewOrder | main.js:147 | Lines whose ids are array indices come first, in ascending id order, whatever order the products were added in. The lines of the other ids follow in the order their products were first added to the cart. |
| Grouping.LargeIdsKeepAddedOrder | main.js:141-147 | Ids 2^32 + 1 and then 2^32, added in that order, come back from the key walk in that order, not sorted. |
| Grouping.QuantitiesCoverCart | main.js:141-153 | The quantities on the drawn list add up to the number of cart lines. |
| Grouping.LineTotalsMatchSubtotal | main.js:153-165 | Suppose every cart line is the catalog's record for its id, as lines pushed by the add handler are. Then the cart can be drawn, and the line totals (price × quantity) add up to the subtotal. |
| Grouping.Regroup | main.js:141-147 | Summing any per-id weight line by line equals summing it key by key, weighted by each key's count. This holds for any duplicate-free key list that covers the cart's ids. |
| Cart.DrawLines | main.js:147-157 | The loop over the keys, looking up each product and taking its count from the counter, produces exactly the grouped view. |
| Cart.CartManager.constructor | main.js:9-11 | The page starts with an empty catalog and a zero subtotal. The cart is the saved one, or empty when nothing is saved. |
| Cart.CartManager.LoadCatalog | main.js:26-45 | A successful fetch replaces the catalog. A failed one leaves it unchanged. The cart, subtotal and storage are untouched. |
| Cart.CartManager.Persist | main.js:54-56 | The saved entry becomes the current cart and nothing else changes. |
| Cart.CartManager.RenderCart | main.js:131-158 | An empty cart shows the empty notice. Any other cart shows the grouped view. |
| Cart.CartManager.ShowSummary | main.js:163-175 | The cached subtotal becomes the sum of the cart's prices, and the summary shown is that of the cart. |
| Cart.CartManager.RefreshInterface | main.js:180-183 | When every cart id is in the catalog, the list and the summary are drawn and the cached subtotal is recomputed. Otherwise the draw fails and the subtotal keeps its old value. The catalog, cart and storage do not change. |
| Cart.CartManager.Add | main.js:192-215 | If the id is listed, the catalog's first record with that id is appended, so earlier lines are unchanged. The cart is then saved and the page refreshed; when the refresh succeeds it draws the grouped view of the new cart and its summary. An unlisted id changes nothing. A consistent state stays consistent, and the subtotal rises by the added price. Carts priced from the catalog stay so. |
| Cart.CartManager.Clear | main.js:61-95 | An empty cart is left alone. A declined confirmation changes nothing. A confirmed clear leaves an empty, saved cart with subtotal 0, in a consistent state. |
| Cart.CartManager.Checkout | main.js:220-256 | An empty cart is refused, with nothing changed. Otherwise the amount due is the cached subtotal × (1 + IVA), which is the summary total when the state is consistent. A dismissed payment changes nothing. A completed payment hands the cart to the clear handler, so the cart is emptied only if that handler's confirmation comes back confirmed. |
| Cart.CartManager.CheckoutAndEmpty | main.js:220-256 | This is the corrected checkout. The same refusal and amount apply. A completed payment always leaves an empty, saved, consistent cart. |
| Cart.CartManager.Start | main.js:262-273 | The first draw runs before the catalog fetch resolves. The handlers are attached exactly when the saved cart's ids are all in the catalog as it was before loading. |
| Cart.CartManager.StartAfterLoad | main.js:262-273 | This is the corrected start, which loads the catalog first. A saved cart whose ids are all in the loaded catalog is drawn as the grouped view with its summary, the state is consistent, and the listeners are attached. Otherwise the draw fails, the listeners are not attached, and the subtotal keeps its old value. |
| Cart.ReloadWithSavedCart | main.js:262-273 | A reload with one saved line, as written: no handler is attached, and the cached subtotal stays 0 although the cart holds the line. |
| Cart.ReloadAfterLoad | main.js:262-273 | The same reload with the corrected start draws the line, attaches the listeners, and the subtotal shown is its price. |
| Cart.PaidCartKept | main.js:245-247 | Paying for one product with the second question not confirmed reports the purchase complete, but the paid line stays in the cart. |

## Left out

- DOM reads and writes are not modelled, including the catalog grid (`renderizarCatalogo`), the event-target class check and `parseInt` of `data-id`. `Add` takes the integer id directly.
- SweetAlert2 dialogs, toasts and timers are not modelled. Each confirmation is a boolean input, and each notification is a result value.
- The asynchronous `fetch` is modelled only through the catalog it yields. A failed request is `None`, and the error dialog is not modelled.
- `localStorage` is modelled as the field `stored`. The JSON round trip is not modelled, so saved records come back exactly as written.
- A malformed saved entry, which makes `JSON.parse` throw at load time, is not modelled.
- Floating-point arithmetic and `toFixed(2)` formatting are not modelled. Prices and the rate are exact reals.
- `imagen` and `categoria` are not part of the product record. Only the catalog grid displays them.
- Ids are `nat`s whose decimal form is the property key. Ids of 10^21 and above, whose keys use exponent notation, are not modelled. Ids beyond 2^53, where `parseInt` loses precision, are not modelled either.
- Cart.CartManager.RefreshInterface: a failed draw is modelled as having no effect on the page. The list items drawn before the throw are not modelled.
- Cart.CartManager.Start: whether the handlers are attached is returned as a result, not kept as state. The later handlers are modelled as separate method calls.
- Cart.CartManager.Checkout: the confirmation the clear handler opens at main.js:247 and the success dialog opened right after it at main.js:248 are modelled as independent, with the confirmation as the input `clearConfirmed`. The dialog library is not part of this model. If opening the second dialog replaces the first, the confirmation settles unconfirmed and only `clearConfirmed == false` can occur.
- There is no remove-one-line operation. `main.js` does not have one.

## Findings

| source | as written | input that shows it | evidently intended | confidence | as-written member | corrected member |
|---|---|---|---|---|---|---|
| main.js:262-273 (with 148, 153) | The page draws the saved cart before the catalog fetch resolves. With an empty catalog the lookup yields undefined and the draw throws, so the three listeners are never attached and the cached subtotal stays 0. | The page is reloaded with a saved cart holding one product. | Draw the saved cart after the catalog has loaded, with the listeners attached. | not executed | Cart.ReloadWithSavedCart | Cart.ReloadAfterLoad |
| main.js:245-247 (with 72-93) | After a completed payment the checkout calls the clear handler, which empties the cart only when its "¿Estás seguro?" confirmation comes back confirmed. Otherwise the paid products stay in the cart while the purchase is announced as successful. | One product is added and the payment completes. The paid line stays whenever the clear handler's confirmation does not come back confirmed: the user declines it, or the success dialog replaces it. | Empty the cart unconditionally once payment completes. | not executed | Cart.PaidCartKept | Cart.CartManager.CheckoutAndEmpty |
