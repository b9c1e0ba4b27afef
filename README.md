# Receipt ingestion, staff-receipt approval and point-of-sale carts

This project models the core of a small retail point-of-sale and inventory
system and proves properties of the model in Dafny.

The server side is the receipt router. Its state is a product stock map
(product id to a signed quantity) and a receipt store (a sequence; a
receipt's id is its index). Four handlers are modelled as methods of the
class `Receipts.ReceiptServer`:

- **Bulk offline sync** (`POST /bulk`). Sales are taken in order. A sale whose
  offline id is already on a stored receipt is reported `already_synced`.
  Any other sale moves stock by `+quantity` per line for a return and
  `-quantity` otherwise, with no availability check, and only then is its
  receipt saved. A failed save is reported per sale and does not stop the
  batch.
- **Online checkout** (`POST /`). A non-return sale by a non-helper is first
  checked line by line against the current stock. A helper's receipt is
  stored `pending` and moves no stock.
- **Approve** and **reject** (`PUT /:id/approve`, `PUT /:id/reject`). Only a
  pending receipt can be decided. Approval re-checks every line before it
  decrements anything.

The class keeps two ghost fields: `base` (the stock before any receipt) and
`unrecorded` (stock changes whose receipt save failed). Every handler
preserves `Valid()`: for each product, stock equals `base` plus the effect of
each stored receipt, counted once according to its status, plus `unrecorded`.
A completed receipt counts `±quantity`, an approved one `-quantity`, and
pending or rejected ones count nothing. Every handler also keeps `Evolves`:
the store only grows, and a stored receipt changes only when a pending one
becomes `approved` or `rejected`, which are then final. `Valid()` also
requires that no two stored receipts carry the same offline id, so each
offline sale is stored at most once across every request.

The client side is the cart logic of the admin register (`Kassa`) and the
helper scanner (`Scanner`). Both files contain the same cart code, so it is
defined once in module `Cart`. Those cart functions are add-or-merge by
product id, bounded quantity update, removal, total, case-insensitive search,
exact code lookup, and the line list posted to the server. The page state is
a class per page: `AdminKassa.Kassa`, with the cart, the numpad input buffer,
parked receipts and return mode, and `HelperScanner.Scanner`. Each handler
can only change the state cells it sets, because its `modifies` clause names
the single fields.

Behaviour modelled as the code has it:

- The stock check runs per line, against the stock before any decrement.
  Lines of the same product are not summed, so two lines of one product can
  overdraw it (`Inventory.PerLineCheckAdmitsOverdraw`). Carts built by the
  pages never hold two lines of one product, so a cart that passes the check
  cannot overdraw stock (`Cart.CartCheckoutKeepsStockNonNegative`).
- The bulk, checkout and approve handlers increment stock before
  `receipt.save()`. When the save fails, the stock change stays applied and
  no receipt records it. For approve, the receipt then stays pending, so a
  retried approval decrements again. For bulk sync, the client retries the
  failed sale. The retry finds no receipt for its key and applies the stock
  change a second time (`Receipts.RetryAfterFailedSaveAppliesTwice`). The
  model carries this in
  `unrecorded`; when no save fails, `unrecorded` is unchanged.
- `$inc` on a product id that does not exist changes nothing.
- Two sales with the same offline id in one batch move stock once, but only
  when the first one's save succeeded.

Behaviour the code has that a reader might not expect:

- The server stores the client's `total` as given.
- Duplicate detection is a lookup followed by a save, not an atomic unique
  key.
- `synced` in the bulk reply counts `already_synced` entries too.
- Approval decrements stock even for a receipt flagged as a return.

## Model

| member | source | states |
|---|---|---|
| `Inventory.Inc` | server/src/routes/receipts.js:81 | `$inc` moves only the named product, by the given amount; an unknown product id leaves the stock unchanged |
| `Inventory.Delta` | server/src/routes/receipts.js:80 | a return adds the line's quantity back to stock, a sale takes it away |
| `Inventory.ApplyLines` | server/src/routes/receipts.js:79-82 | the increment loop never adds or removes a product |
| `Inventory.FirstShortage` | server/src/routes/receipts.js:113-123 | a reported shortage is the refusal of one of the lines |
| `Inventory.ApplyLinesAt` | server/src/routes/receipts.js:79-82 | after the per-line increment loop, each existing product has moved by the signed sum of its lines' quantities (`+` for a return, `-` otherwise), and the set of products is unchanged |
| `Inventory.IncLines` | server/src/routes/receipts.js:136-142 | the increment loop computes exactly that stock change |
| `Inventory.LineShortage` | server/src/routes/receipts.js:114-122 | one line is refused exactly when its product is missing or its stock is below the line's quantity |
| `Inventory.FirstShortageSpec` | server/src/routes/receipts.js:113-123 | the check passes if and only if every line on its own is covered; when it fails it reports the first uncovered line, with all earlier lines covered |
| `Inventory.CheckStock` | server/src/routes/receipts.js:158-168 | the early-return check loop returns the first shortage, and returns none exactly when every line is covered |
| `Inventory.DistinctLinesStayNonNegative` | server/src/routes/receipts.js:158-175 | when lines name distinct products and the check passes, decrementing keeps a non-negative stock non-negative |
| `Inventory.PerLineCheckAdmitsOverdraw` | server/src/routes/receipts.js:113-123 | with stock 1, two lines of the same product of quantity 1 both pass the check, and the decrement leaves -1 |
| `Inventory.ReturnSign` | server/src/routes/receipts.js:80 | a return of 2 at stock 5 leaves 7; a sale of 2 leaves 3 |
| `Receipts.Effect` | server/src/routes/receipts.js:71-82 | a pending or rejected receipt accounts for no stock, and an approved one for minus its lines' quantities, whatever its return flag |
| `Receipts.UniqueAfterDecision` | server/src/routes/receipts.js:170-192 | deciding a receipt keeps its offline id, so stored offline ids stay distinct |
| `Receipts.ReceiptServer.constructor` | server/src/routes/receipts.js:1-6 | the router starts on the existing product stock with an empty receipt store, and the accounting invariant holds from the start |
| `Receipts.DecisionsAreFinal` | server/src/routes/receipts.js:155 | under `Evolves`, a completed, approved or rejected receipt never changes again, and a pending one never becomes completed |
| `Receipts.EvolvesTransitive` | server/src/routes/receipts.js:170-190 | the store-evolution relation kept by every handler (grow only; change a receipt only by deciding a pending one) composes over successive requests |
| `Receipts.OfflineReceipt` | server/src/routes/receipts.js:66-76 | a bulk receipt is `completed`, carries the sale's offline id, has not been processed, defaults the payment method to cash, and accounts for exactly the stock delta its lines caused |
| `Receipts.OnlineReceipt` | server/src/routes/receipts.js:126-134 | a helper's receipt is `pending` and accounts for no stock; any other role's is `completed` and accounts for `±quantity` per line |
| `Receipts.AlreadySyncedIsNoOp` | server/src/routes/receipts.js:58-63 | a sale whose offline id is already stored is reported `already_synced` and changes no stock, no receipt and no error |
| `Receipts.FailedSaveKeepsStockChange` | server/src/routes/receipts.js:78-89 | when a new sale's save fails, its stock change stays applied, no receipt is added and the sale is reported as an error |
| `Receipts.BulkStep` | server/src/routes/receipts.js:56-89 | one turn of the loop adds exactly one entry to `results` or `errors` and only appends receipts; a known key changes no stock and no receipt; an unknown key moves stock by its lines before the save; after a successful save the key is stored |
| `Receipts.BulkStepKeepsUnique` | server/src/routes/receipts.js:58-85 | one turn stores a receipt only for a key not yet stored, so no two stored receipts share an offline id |
| `Receipts.BulkRunKeepsUnique` | server/src/routes/receipts.js:42-90 | no batch, however many times a key repeats in it, leaves two stored receipts with the same offline id |
| `Receipts.BulkRun` | server/src/routes/receipts.js:55-90 | the whole loop yields exactly one reply entry per sale, and only appends receipts and reply entries |
| `Receipts.HasOfflineId` | server/src/routes/receipts.js:58 | `findOne` by offline id finds nothing in an empty store |
| `Receipts.HasOfflineIdAppend` | server/src/routes/receipts.js:58-85 | after one more receipt is stored, a key is found exactly when it was found before or is the new receipt's key |
| `Receipts.RetryAfterFailedSaveAppliesTwice` | server/src/routes/receipts.js:78-92 | a sale whose save failed and is then retried successfully ends up stored, but every product has moved by twice the sale's signed quantity |
| `Receipts.BulkRunPrefix` | server/src/routes/receipts.js:55-90 | each turn of the loop only appends receipts to those stored by earlier turns |
| `Receipts.DuplicateInBatchAppliedOnce` | server/src/routes/receipts.js:55-85 | once an earlier sale with the same offline id was saved, a later sale in the same batch is skipped without touching stock or receipts |
| `Receipts.ReplayChangesNothing` | server/src/routes/receipts.js:58-63 | a batch whose offline ids are all stored changes neither stock, receipts nor errors, and adds one result per sale |
| `Receipts.BulkRunStoresEveryKey` | server/src/routes/receipts.js:55-90 | each sale has its own error handling: every sale whose own save succeeds ends up with a stored receipt carrying its offline id, whatever happens to the other sales |
| `Receipts.BulkIsIdempotent` | server/src/routes/receipts.js:44-104 | re-sending a fully saved batch changes neither stock nor receipts, whatever happens to the second send's saves |
| `Receipts.ReceiptServer.IngestSale` | server/src/routes/receipts.js:56-89 | one turn of the bulk loop is exactly one step of the batch specification, and it keeps the stock accounting and the state machine |
| `Receipts.ReceiptServer.BulkSync` | server/src/routes/receipts.js:44-104 | a helper gets 403; a missing or empty `sales` gets 400 with nothing changed; otherwise stock and receipts are those of the batch specification, `synced = |results|` and `failed = |errors|`; the accounting invariant is kept |
| `Receipts.ReceiptServer.Checkout` | server/src/routes/receipts.js:106-149 | a non-return sale by a non-helper with a shortage is refused with the first shortage and nothing changed; otherwise stock moves by `±quantity` per line (not at all for a helper), and the receipt is appended as pending or completed unless its save fails |
| `Receipts.ReceiptServer.Approve` | server/src/routes/receipts.js:151-182 | a helper gets 403; an unknown id gets 404; a non-pending receipt gets "already processed" with nothing changed; a shortage leaves stock and status unchanged; otherwise each line's product is decremented once and the receipt becomes `approved` with the approver recorded, unless its save fails |
| `Receipts.ReceiptServer.Reject` | server/src/routes/receipts.js:184-198 | the same refusals as approve; a pending receipt becomes `rejected` with the approver recorded; stock never changes |
| `Receipts.ApproveTwice` | server/src/routes/receipts.js:155-175 | approving the same receipt twice, the second call returns "already processed", and stock is decremented by the receipt's lines only once |
| `Cart.Total` | client/src/pages/admin/Kassa.tsx:48 | a cart with no negative price or quantity has a non-negative total |
| `Cart.Bump` | client/src/pages/admin/Kassa.tsx:76 | adding one unit keeps the cart's length and every entry's product |
| `Cart.AddToCart` | client/src/pages/admin/Kassa.tsx:72-79 | after adding, the product is in the cart; the cart keeps its length when the product was there and grows by one entry otherwise |
| `Cart.Max` | client/src/pages/admin/Kassa.tsx:87 | `Math.max` returns the larger of its two arguments |
| `Cart.UpdateQuantity` | client/src/pages/admin/Kassa.tsx:84-90 | updating a quantity keeps the cart's length |
| `Cart.RemoveFromCart` | client/src/pages/admin/Kassa.tsx:92-94 | removal never lengthens the cart, and no entry of the removed id is left |
| `Cart.ToLines` | client/src/pages/admin/Kassa.tsx:113-119 | one posted line per cart entry |
| `Cart.LowerChar` | client/src/pages/admin/Kassa.tsx:100 | a lower-cased character is never an upper-case ASCII letter, and any other character is kept |
| `Cart.Lower` | client/src/pages/admin/Kassa.tsx:100-101 | `toLowerCase` keeps the length and lower-cases each character on its own |
| `Cart.Contains` | client/src/pages/admin/Kassa.tsx:100-101 | `includes` only finds a query no longer than the text, and always finds the empty query |
| `Cart.Matches` | client/src/pages/helper/Scanner.tsx:81-84 | every product matches the empty query |
| `Cart.Filter` | client/src/pages/helper/Scanner.tsx:81-84 | the filter never lengthens the list and keeps only matching products |
| `Cart.TotalAppend` | client/src/pages/admin/Kassa.tsx:48 | the total of a cart is the sum of the totals of its parts |
| `Cart.AddToCartSpec` | client/src/pages/admin/Kassa.tsx:72-79 | adding a product already in the cart adds one unit to that entry only and keeps the length; adding a new product appends it with quantity 1 |
| `Cart.AddToCartKeepsWellFormed` | client/src/pages/helper/Scanner.tsx:91-98 | after adding, product ids in the cart stay unique, every quantity stays at least 1, and the product is in the cart |
| `Cart.AddToCartTotalExisting` | client/src/pages/admin/Kassa.tsx:74-76 | adding a product already in the cart raises the total by exactly that entry's unit price |
| `Cart.AddToCartTotalNew` | client/src/pages/admin/Kassa.tsx:78 | adding a product not yet in the cart raises the total by exactly its price |
| `Cart.UpdateQuantitySpec` | client/src/pages/admin/Kassa.tsx:84-90 | only entries of the given id change, to `max(1, q + delta)`; every other entry is unchanged and the length is kept |
| `Cart.UpdateQuantityKeepsWellFormed` | client/src/pages/helper/Scanner.tsx:104-110 | after an update, ids stay unique and every quantity stays at least 1 |
| `Cart.RemoveFromCartSpec` | client/src/pages/admin/Kassa.tsx:92-94 | no entry of the id is left, every entry with another id is kept, nothing new appears, and removing an absent id changes nothing |
| `Cart.RemoveFromCartConcat` | client/src/pages/helper/Scanner.tsx:112-114 | removal works piecewise over concatenation, so the remaining entries keep their original order |
| `Cart.RemoveFromCartKeepsWellFormed` | client/src/pages/helper/Scanner.tsx:113 | removal keeps ids unique and quantities at least 1 |
| `Cart.RemoveFromCartTotal` | client/src/pages/admin/Kassa.tsx:92-94 | removing a product lowers the total by exactly that entry's `price * cartQuantity` |
| `Cart.ToLinesSpec` | client/src/pages/admin/Kassa.tsx:113-119 | the posted lines are one per cart entry, in order, with `product`, `name`, `code`, `price` and `quantity = cartQuantity` |
| `Cart.WellFormedLinesAreDistinct` | client/src/pages/helper/Scanner.tsx:121-127 | the lines posted from a well-formed cart name distinct products, and every quantity is at least 1 |
| `Cart.CartCheckoutKeepsStockNonNegative` | server/src/routes/receipts.js:112-141 | a sale posted from a well-formed cart that passes the per-line check cannot drive a non-negative stock below zero |
| `Cart.ContainsIff` | client/src/pages/admin/Kassa.tsx:100-101 | `includes` holds exactly when the query occurs at some position of the text |
| `Cart.FilterSpec` | client/src/pages/helper/Scanner.tsx:81-84 | the filter keeps exactly the listed products whose lower-cased name or code contains the lower-cased query |
| `Cart.Search` | client/src/pages/admin/Kassa.tsx:96-107 | an empty query gives no results; otherwise the results are exactly the listed products that match |
| `Cart.FindByCode` | client/src/pages/helper/Scanner.tsx:48 | the result is the first listed product whose code equals the text exactly; there is none exactly when no product has that code |
| `AdminKassa.WithoutSaved` | client/src/pages/admin/Kassa.tsx:168 | the filter on parked receipts never lengthens the list |
| `AdminKassa.WithoutSavedSpec` | client/src/pages/admin/Kassa.tsx:175-179 | deleting keeps exactly the parked receipts with another id, and an unknown id changes nothing |
| `AdminKassa.WithoutSavedAppend` | client/src/pages/admin/Kassa.tsx:168 | the filter works piecewise, so the kept receipts stay in order |
| `AdminKassa.SaveThenLoadRestores` | client/src/pages/admin/Kassa.tsx:144-172 | parking a cart under a fresh id and loading it back gives the same cart and the same parked list as before parking |
| `AdminKassa.DropLast` | client/src/pages/admin/Kassa.tsx:54 | backspace removes the last character, and leaves an empty buffer empty |
| `AdminKassa.BackspaceUndoesKey` | client/src/pages/admin/Kassa.tsx:50-60 | backspace undoes a one-character key; after the `00` key it leaves one `0` |
| `AdminKassa.Kassa.constructor` | client/src/pages/admin/Kassa.tsx:27-46 | the mounted page holds the fetched products and the parked receipts read back from storage, with an empty cart and buffer and return mode off |
| `AdminKassa.Kassa.AddToCart` | client/src/pages/admin/Kassa.tsx:72-82 | the cart becomes the merged or appended cart, the search dialog closes and its query is cleared; the cart stays well formed |
| `AdminKassa.Kassa.UpdateQuantity` | client/src/pages/admin/Kassa.tsx:84-90 | only the cart changes, to the updated cart, and it stays well formed |
| `AdminKassa.Kassa.RemoveFromCart` | client/src/pages/admin/Kassa.tsx:92-94 | only the cart changes; the id is no longer in it |
| `AdminKassa.Kassa.HandleSearch` | client/src/pages/admin/Kassa.tsx:96-107 | the query is stored and the results are the search of the product list |
| `AdminKassa.Kassa.AddProductByCode` | client/src/pages/admin/Kassa.tsx:62-70 | an exact code match is added to the cart and the buffer is cleared; with no match, nothing changes |
| `AdminKassa.Kassa.HandleNumpadClick` | client/src/pages/admin/Kassa.tsx:50-60 | `C` empties the buffer; backspace drops its last character; `+` runs the code lookup on the buffer; any other key appends its text; only `+` can touch the cart |
| `AdminKassa.Kassa.ToggleReturnMode` | client/src/pages/admin/Kassa.tsx:136-141 | the mode flips; entering return mode empties the cart, leaving it keeps the cart |
| `AdminKassa.Kassa.HandlePayment` | client/src/pages/admin/Kassa.tsx:109-133 | an empty cart posts nothing and changes nothing; otherwise the cart's lines, total, payment method and return flag are posted, and only a successful post empties the cart, closes the dialog and ends return mode |
| `AdminKassa.Kassa.SaveReceipt` | client/src/pages/admin/Kassa.tsx:144-162 | an empty cart changes nothing; otherwise a snapshot with the same items and total is appended to the parked list and the cart is emptied |
| `AdminKassa.Kassa.LoadSavedReceipt` | client/src/pages/admin/Kassa.tsx:165-172 | the parked cart becomes the cart, its id leaves the parked list and the dialog closes |
| `AdminKassa.Kassa.DeleteSavedReceipt` | client/src/pages/admin/Kassa.tsx:175-179 | only the parked receipts with that id are removed |
| `HelperScanner.Scanner.constructor` | client/src/pages/helper/Scanner.tsx:7-33 | the mounted page holds the fetched products, an empty cart, no query, no results, no scanned product, and is not sending |
| `HelperScanner.Scanner.HandleSearch` | client/src/pages/helper/Scanner.tsx:77-89 | the query is stored, the results are the search of the product list, and the scanned product is always cleared |
| `HelperScanner.Scanner.AddToCart` | client/src/pages/helper/Scanner.tsx:91-102 | the cart becomes the merged or appended cart, and the query, the results and the scanned product are cleared |
| `HelperScanner.Scanner.UpdateQuantity` | client/src/pages/helper/Scanner.tsx:104-110 | only the cart changes, to the updated cart, and it stays well formed |
| `HelperScanner.Scanner.RemoveFromCart` | client/src/pages/helper/Scanner.tsx:112-114 | only the cart changes; the id is no longer in it |
| `HelperScanner.Scanner.StartScanner` | client/src/pages/helper/Scanner.tsx:35-38 | starting the scanner clears the scanned product, the query and the results |
| `HelperScanner.Scanner.OnScan` | client/src/pages/helper/Scanner.tsx:47-54 | the product with exactly the decoded code is selected; an unknown code leaves the selection as it was |
| `HelperScanner.ScanUnknownCode` | client/src/pages/helper/Scanner.tsx:35-53 | scanning an unknown code after starting the scanner selects nothing |
| `HelperScanner.Scanner.SendToCashier` | client/src/pages/helper/Scanner.tsx:116-138 | an empty cart sends nothing; otherwise one line per entry and the total are posted, with no payment method and no return flag; `sending` ends false, and only a successful post clears the cart |

## Left out

- The read-only listing routes (`GET /` and `GET /staff`, server/src/routes/receipts.js:8-37) are left out. They are database queries with sorting and population.
- Authentication is left out. The caller's identity and role are a `User` parameter. `authorize('admin', 'cashier')` is modelled as a 403 for helpers.
- Only `receipt.save()` failures are modelled, as a parameter: a set of batch positions, or a flag. Other thrown errors are not modelled. These include a failing `findOne` or `findById`, a malformed product id that makes `$inc` throw mid-loop and leaves part of a receipt's stock applied, and a non-array `items`.
- Receipt ids (MongoDB object ids) become the receipt's index in the store. An id that is not a well-formed object id makes `findById` throw, so the route answers 500. The model has no such id.
- The text of error messages is not modelled. Shortages keep the line name and the two quantities.
- A sale without `offlineId` is not modelled. Its effect depends on how Mongoose treats an `undefined` query key. In the model every sale carries an offline id.
- Timestamps are not modelled: `createdAt`, `metadata.syncedAt`, parked receipts' `savedAt` and `Date.now()` ids. The parked receipt's id is a parameter.
- Concurrency is left out. Handlers run one at a time on a single server. No atomic uniqueness of offline ids is claimed.
- Network calls become a success flag (`posted`), and the request body is returned. Refreshing the product list after a payment (`fetchProducts`) is not modelled; the product list is fixed when a page is constructed.
- Partly modelled, partly left out: `localStorage` becomes the `savedReceipts` field. Reading it back on mount is a constructor parameter, and the constructor requires those carts to be well formed, as this page writes them.
- `alert`, `console` and all rendering are left out. So are the camera, the `scanning` flag and `stopScanner`, and the `inputMode` toggle, which no handler reads.
- Prices and quantities are integers. Floating-point sums are not modelled.
- `Cart.Lower`: `toLowerCase` is modelled for the ASCII letters A to Z only. Unicode case mapping is not modelled.
- `AdminKassa.Kassa.LoadSavedReceipt` keeps the well-formedness invariant only when the loaded receipt comes from the parked list. That is the only way the page calls it.
- The offline journal, connectivity monitor, sync coordinator and staff-receipt cache reconciliation are not part of this model. None of the modelled source files contains them.
