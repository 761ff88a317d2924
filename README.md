# Freshflow order pipeline, modelled in Dafny

This project models the order pipeline of the Freshflow juice storefront:

- **Cart and checkout** (`src/App.jsx`). The storefront holds cart state. A pending line is confirmed into the cart. A line's quantity can be stepped and a line removed. The handler `handleSaveOrder` normalises the lines and builds the order payload, including the legacy single-line fields. It saves the order and resets the checkout state.
- **Order screens** (`src/App.jsx`). The fallback loaders collect the orders and sort them newest first, in place. The lists show each order's total and its raw status, `o.status || "pending"`. The live tracking card shows the status's label from `statusMap`. The admin can rewrite an order's status.
- **Order record** (`src/lib/orders.js`). `saveOrder` shapes the record and appends it to the orders collection.
- **Menu items** (`src/lib/menu.js`). `createMenuItem` sanitises and validates an item, then appends it. `updateMenuItem` builds a patch field by field and applies it.
- **Payment bridge** (`functions/index.js`). `POST /pagarme/create-pix` charges a stored order: the amount in cents, the items, and the provider fields recorded on the order. `GET /pagarme/status/:tid` relays a transaction's status. `POST /pagarme/webhook` parses three notification shapes, falls back to a lookup by transaction id, and reconciles the stored order.
- **Stateless charge endpoint** (`api/pagarme/create-pix.js`). It makes the same charge from the request body alone.

How the model is built:

- **Numbers.** JavaScript numbers are `JsNum.Num`: a finite real, NaN, or a signed infinity. Finite arithmetic is exact. `Math.round`, `Math.floor`, `Math.max`, `Math.min`, `||` and truthiness are written out.
- **Values and documents.** JavaScript values and stored documents are `Json.Value` and `Json.Doc`. A missing property, `undefined`, is `Option.None`.
- **The store.** A collection is the class `Store.Collection`. Its `docs` field is a map from id to document, and `now` is an abstract clock that each write advances. Writes are patches. Each named field is put, deleted (`FieldValue.delete()`) or set to the store's clock (`serverTimestamp()`).
- **The storefront.** The component is the class `Storefront.Shop`. Its fields are the state cells the handlers update.
- **Inputs that stand in for I/O.** The payment gateway is a function parameter: it maps the request the handler builds to the reply it gets back. The clock reading and the API key are parameters too.

Lemmas in `OrderFlow` connect the pieces:

- For a saved cart of confirmed lines priced in whole cents, the backend charges exactly the stored lines.
- That amount is 100 × the subtotal the shopper saw, and the items add up to it.
- Both endpoints charge such lines the same amount and the same items.
- The order lists show a saved cart's subtotal as its total.
- After a "paid" notification the tracking card shows "Em preparo" and the lists print "preparing". After any other notification the card shows "Recebido" and the lists print "pending".

## Model

| member | source | states |
|---|---|---|
| JsNum.ClampQty | src/App.jsx:220 | the clamped quantity is a whole number in [1,50]; one already in range is kept; a falsy one becomes 1, +Infinity becomes 50 |
| JsNum.Round | functions/index.js:48 | `Math.round` gives the integer within half a unit below or at the value (halves go up); non-finite values pass through |
| JsNum.Floor | functions/index.js:48 | `Math.floor` gives the integer at or below the value, less than one below it |
| JsNum.Max | functions/index.js:48 | `Math.max` is NaN exactly when an operand is; otherwise it is one of the operands and not below either |
| JsNum.Min | src/App.jsx:220 | `Math.min` is NaN exactly when an operand is; otherwise it is one of the operands and not above either |
| JsNum.Add | functions/index.js:47-50 | finite addition is exact and NaN absorbs |
| JsNum.Mul | functions/index.js:48 | finite multiplication is exact and NaN absorbs |
| JsNum.NumOr | src/App.jsx:124 | `a || b` on numbers is `a` when truthy, else `b` |
| Json.Or | functions/index.js:44 | `a || b` is the first operand when it is truthy, else the second |
| Json.Get | functions/index.js:131-141 | optional property access is defined exactly when the value is an object with that key, and then gives its value |
| Json.ToNumber | functions/index.js:44 | `Number(v)` keeps a number and gives NaN for `undefined` |
| Json.SafePrice | src/App.jsx:229-231 | the price coercion is never NaN, keeps a finite number, and gives 0 for a value whose `Number()` is falsy |
| Json.Trim | src/lib/menu.js:18 | the trimmed string is no longer than the input and neither starts nor ends with white space |
| Json.TrimKeepsMiddle | src/lib/menu.js:18 | trimming keeps one contiguous piece of the string and drops only white space on either side |
| Json.TrimmedIffNonBlank | src/lib/menu.js:20 | `s.trim()` is truthy exactly when `s` has a character that is not white space |
| Json.Take | src/App.jsx:224 | `slice(0, n)` is the first min(n, length) elements |
| Json.Decimal | functions/index.js:63 | `String(n)` is a non-empty run of decimal digits without a leading zero |
| Json.DecimalRoundTrip | functions/index.js:63 | `String(n)` reads back as `n` |
| Json.DecimalInjective | functions/index.js:63 | distinct numbers have distinct decimal strings |
| Json.StringsOf | src/App.jsx:264 | the string list as values, element by element |
| Json.NonBlankStrings | src/App.jsx:223 | the filter keeps only non-blank strings and never lengthens the list |
| Json.NonBlankStringsAppend | src/App.jsx:223 | filtering a concatenation is concatenating the filtered parts, so order is kept |
| Json.NonBlankStringsMembers | src/App.jsx:223 | a string survives the filter exactly when it is in the list and is non-blank |
| Json.NonBlankStringsOfStrings | src/App.jsx:259-262 | filtering an already filtered list changes nothing |
| Json.SafeStrings | src/App.jsx:221-225 | the sanitised list is the first `cap` non-blank strings in order, each non-blank; a non-array gives [] |
| Json.SafeStringsIdempotent | src/App.jsx:259-263 | sanitising an already sanitised list gives it back |
| Json.ObjectOf | functions/index.js:89 | the serialised object has exactly the defined members, with their values |
| Store.Resolve | src/lib/orders.js:17 | a put stores its value; a server timestamp stores the write's time |
| Store.ApplyPatch | functions/index.js:158-163 | patched fields are set (or removed for a delete); every unpatched field keeps its presence and value |
| Store.Puts | src/lib/orders.js:13-16 | every field of the document is written as it is |
| Store.PutsStoresDoc | src/lib/orders.js:13-16 | writing a document's fields onto nothing stores exactly that document |
| Store.PatchTwice | functions/index.js:158-163 | a patch applied twice is the same patch applied once at the later time |
| Store.ListingSize | src/App.jsx:389-392 | a listing of the collection has one id per document |
| Store.DistinctSize | src/App.jsx:389-392 | a list without repeats has as many elements as its set |
| Store.Collection.Get | functions/index.js:24-26 | the lookup gives the document exactly when the id is stored |
| Store.Collection.NewId | src/lib/orders.js:13 | the new id is not yet in the collection |
| Store.Collection.Add | src/lib/orders.js:13-19 | `addDoc` stores the patch applied to an empty document under a fresh id, nothing else changes, and the clock ticks |
| Store.Collection.Update | src/App.jsx:414-417 | `updateDoc` succeeds exactly for an existing document, patching only it; a missing document fails and nothing changes |
| Store.Collection.Ids | src/App.jsx:389-392 | the query lists every stored id exactly once |
| Store.Collection.FindFirst | functions/index.js:150-153 | `where(...).limit(1)` gives a document whose field holds the value, or none exactly when no document does |
| Orders.EmailValue | src/lib/orders.js:15 | `user.email` is null exactly when the user has none |
| Orders.OrderRecordFields | src/lib/orders.js:13-19 | the record has the order's keys plus uid, email, createdAt and status; "pending" and the clock win; the order's own uid and email win over the user's; other fields are copied |
| Orders.StoredOrder | src/lib/orders.js:13-19 | the stored document has status "pending", createdAt the time of the write, uid and email as above, and every other order field unchanged |
| Orders.SaveOrder | src/lib/orders.js:9-20 | with no user it fails and writes nothing; otherwise it appends exactly one document, the order record, under a fresh id |
| Menu.SafeName | src/lib/menu.js:18 | the name is the trimmed input cut to 80 characters, and it is empty exactly when the input is blank |
| Menu.SafeGradient | src/lib/menu.js:23-26 | the gradient is the trimmed string cut to 120 characters, or the default for a blank or non-string value; it is never empty |
| Menu.NewMenuItem | src/lib/menu.js:28-30 | an empty name is refused first, then an empty ingredient list, then a price that is not above zero; an item passing all three checks is accepted |
| Menu.NewMenuItemFields | src/lib/menu.js:17-39 | an accepted item has exactly the seven fields with the sanitised values, `active` true unless given falsy, and both timestamps from the store; it is accepted only for a non-blank name, 1 to 20 ingredients and a positive price |
| Menu.CreateMenuItem | src/lib/menu.js:17-41 | a refused item writes nothing and returns the error; an accepted one is appended under a fresh id |
| Menu.Upd | src/lib/menu.js:46-63 | the update holds `updatedAt` and exactly the fields the patch has, each with its sanitised value |
| Menu.UpdateFields | src/lib/menu.js:46-63 | the written fields are `updatedAt` plus exactly the keys present in the patch, each sanitised as at creation |
| Menu.UpdateAcceptsWhatCreationRejects | src/lib/menu.js:48-56 | an update may store a blank name and a negative price that creation refuses |
| Menu.UpdateMenuItem | src/lib/menu.js:44-66 | the field-by-field update is applied to the existing item in one write, and missing fields keep their values; a missing item fails and nothing changes |
| Cart.LineName | src/App.jsx:227 | the line name is never empty: the given name, else "Suco" |
| Cart.Confirm | src/App.jsx:220-233 | the confirmed line is normalised: the first 20 non-blank ingredients in order (none for a non-array), a finite or infinite price kept and NaN made 0, the quantity exactly `ClampQty(qty)` (a whole number in [1,50]), and the name `LineName(name)` |
| Cart.NormLine | src/App.jsx:256-265 | the checkout normalisation of a line yields a normalised line |
| Cart.NormLineKeepsNormalized | src/App.jsx:256-265 | normalising a confirmed line gives it back unchanged |
| Cart.NormLines | src/App.jsx:256 | the normalised list has one normalised line per cart line, in order |
| Cart.NormLinesOfNormalized | src/App.jsx:256-265 | a cart of confirmed lines is its own normalisation |
| Cart.StepQty | src/App.jsx:242 | the stepped quantity is in [1,50]; an in-range result is exactly qty + delta; it saturates at 50 and 1; no floor is taken |
| Cart.UpdateQty | src/App.jsx:238-246 | only the line at the index changes, and only its quantity; an out-of-range index leaves the cart unchanged |
| Cart.UpdateQtyKeepsNormalized | src/App.jsx:238-246 | a quantity change keeps every line of a confirmed cart confirmed |
| Cart.WithoutLine | src/App.jsx:247-248 | removal drops exactly the line at the index and shifts the later ones; an out-of-range index changes nothing |
| Cart.WithoutLineSplits | src/App.jsx:247-248 | removal equals the lines before the index followed by the lines after it |
| Cart.SubtotalIsTotalPrice | src/App.jsx:121-128 | for confirmed lines the displayed subtotal equals the stored `totalPrice` fold |
| Cart.StoredTotalIsSubtotal | src/App.jsx:256-269 | the total stored for a confirmed cart equals the subtotal shown for it |
| Cart.TotalPriceIsSum | src/App.jsx:266-269 | with finite prices the stored total is the exact sum of price × qty |
| Checkout.LineValue | src/App.jsx:264 | a stored line is the object with exactly name, items, price and qty |
| Checkout.Names | src/App.jsx:282 | the names of the lines, in order |
| Checkout.AddressOf | src/App.jsx:275 | the address is kept when it is an object, else `{}` |
| Checkout.FirstOr | src/App.jsx:279-281 | the legacy field is the first line's value when truthy, else the fallback; an empty list gives the fallback |
| Checkout.LineValues | src/App.jsx:272 | the stored lines, one object per line, in order |
| Checkout.PayloadOf | src/App.jsx:271-283 | the payload has exactly its nine fields, plus `delivery` only when that is truthy |
| Checkout.PayloadFields | src/App.jsx:271-283 | the payload holds the normalised lines, their total, the address or `{}`, the payment method, the e-mail or "", the legacy fields and the first ten names, and `delivery` only when truthy; it has no uid, status or createdAt |
| Checkout.FirstLineFields | src/App.jsx:279-281 | the legacy fields are the first normalised line's ingredients, price (0 when falsy) and quantity, or `[]`, 0 and 1 for an empty cart |
| Checkout.LegacyFields | src/App.jsx:279-281 | the payload's `items`, `price` and `qty` are those legacy values |
| Checkout.FirstNames | src/App.jsx:282 | the summary is min(10, cart size) names, the i-th being the i-th line's name |
| Checkout.SummaryIsFirstNames | src/App.jsx:282 | the payload's `itemsSummary` is the first ten line names, in cart order |
| Checkout.StoredPayload | src/App.jsx:271-285 | the stored order has e-mail "" (not null) for a user without one, the user's uid, status "pending", createdAt the write time, and the payload's lines and total |
| OrderView.CreatedMillis | src/App.jsx:329-330 | the sort key is the timestamp's milliseconds, or 0 when `createdAt` is not a timestamp |
| OrderView.Entry | src/App.jsx:327 | `{ id, ...data }` has the document's fields plus `id`, which a stored `id` overrides |
| OrderView.Entries | src/App.jsx:326-327 | the pushed list has at most one entry per returned id |
| OrderView.EntriesComplete | src/App.jsx:324-327 | every matching order has its entry in the list |
| OrderView.EntriesSound | src/App.jsx:324-327 | every entry in the list is a matching order's entry |
| OrderView.AllEntries | src/App.jsx:389-392 | without a filter the list has one entry per returned id |
| OrderView.SortNewestFirst | src/App.jsx:328-332 | the in-place sort leaves a permutation of the list, newest first, with a missing timestamp as 0 |
| OrderView.InsertLast | src/App.jsx:328-332 | one insertion step extends the sorted prefix by one and permutes the array |
| OrderView.Swap | src/App.jsx:328-332 | the exchange swaps exactly two entries |
| OrderView.DisplayTotal | src/App.jsx:1142-1147 | the shown total is `totalPrice || 0` for an order with lines, price × qty for a legacy order with numeric price and qty, else 0 |
| OrderView.DisplayTotalOfLines | src/App.jsx:1142-1144 | for an order with lines the stored total is shown, and a falsy total shows as 0 |
| OrderView.StatusLabel | src/App.jsx:504-509 | on the tracking card (`statusMap` applied to the status defaulted to "pending", line 1039) a missing status shows "Recebido"; a known status shows its label; any label shown is one of the four |
| OrderView.ListedStatus | src/App.jsx:1158 | the order lists print the stored status when it is truthy, else "pending" (the same expression is at line 1269) |
| OrderView.StatusLabelDefined | src/App.jsx:504-509 | a label is shown exactly for a missing status or one of the four known ones |
| Storefront.Shop.StartAddFromSuggestion | src/App.jsx:200-208 | the pending line is one unit of the suggestion at `Number(price)`, and the step becomes 33; the cart is untouched |
| Storefront.Shop.StartAddFromBuilder | src/App.jsx:209-217 | the pending line is one "Suco Personalizado" with the first 20 chosen ingredients, and the step becomes 33 |
| Storefront.Shop.ConfirmAddPendingLine | src/App.jsx:218-237 | with no pending line nothing changes; otherwise exactly the confirmed line is appended at the end, the pending line is cleared and the step becomes 4; the cart stays confirmed |
| Storefront.Shop.UpdateLineQty | src/App.jsx:238-246 | the cart becomes the quantity-stepped cart, and the other state is untouched |
| Storefront.Shop.RemoveLine | src/App.jsx:247-248 | the cart loses exactly the line at the index, and the other state is untouched |
| Storefront.Shop.HandleSaveOrder | src/App.jsx:251-295 | without a user, or with an empty cart, it fails and changes nothing; otherwise exactly one document, the saved order, is appended; then the id is remembered, the cart emptied, delivery set to null, address to `{}` and the step to 6 |
| Storefront.Shop.Submit | src/App.jsx:285-290 | the save appends the order record under a fresh id, then the checkout state is reset and the other cells are kept |
| Storefront.Shop.Fetch | src/App.jsx:324-327 | the loop collects the `{ id, ...data }` entry of each matching id the query lists, in the query's order |
| Storefront.Shop.Sorted | src/App.jsx:328-332 | the sorted list is a permutation of the fetched list, newest first |
| Storefront.Shop.LoadMyOrders | src/App.jsx:298-342 | without a user it only returns to step 1; otherwise "my orders" is a newest-first permutation of the user's entries, and the step becomes 9 |
| Storefront.Shop.LoadAllOrders | src/App.jsx:368-407 | for a non-admin nothing changes; otherwise the admin list is a newest-first permutation of every stored order's entry, one per order, and the step becomes 10 |
| Storefront.Shop.UpdateOrderStatus | src/App.jsx:410-424 | for a non-admin nothing is written; otherwise `status` and `updatedAt` are written together for an existing order, whatever its status was, and the admin list is reloaded as a newest-first permutation of every stored order's entry; a missing order writes nothing; the other state cells are kept |
| Storefront.SavedTotalIsSubtotal | src/App.jsx:266-285 | the saved `totalPrice` of a confirmed cart is the subtotal shown for it |
| Storefront.SavedLinesAreCart | src/App.jsx:256-285 | the saved `lines` of a confirmed cart are its lines, as objects |
| Gateway.GatewayError | functions/index.js:92 | the reported error is the gateway's reply data when truthy, else the error message |
| Gateway.Expiration | functions/index.js:60 | the expiry is the clock's whole seconds plus 30 minutes |
| Gateway.UnitCents | functions/index.js:65 | the unit price is the price in cents rounded half up, exact when already whole cents, and not finite for a non-finite price |
| Gateway.Title | functions/index.js:64 | the item title is the line's name when truthy, else "Suco Freshflow" |
| Gateway.Items | functions/index.js:62-68 | one item per line: id `String(i+1)`, title, unit price, quantity, not tangible |
| Gateway.ItemIds | functions/index.js:63 | the item ids read back as 1..n and are pairwise distinct |
| Gateway.FirstTruthy | functions/index.js:78-79 | the fallback chain gives the first truthy candidate, or null when none is |
| Gateway.ReplyOf | functions/index.js:89 | the reply has qr_code and qr_code_url, and transaction_id and status exactly when they are defined |
| Gateway.ChargeReplyFields | functions/index.js:76-89 | transaction id and status are there exactly when the gateway sent them; the code falls back pix_qr_code → qr_code → qr_code_text → null, the link pix_qr_code_url → qr_code_url → null |
| PaymentBridge.GetOrder | functions/index.js:23-28 | the lookup succeeds exactly for a stored id and gives its document; a missing one fails with "Pedido não encontrado" |
| PaymentBridge.ChargeLines | functions/index.js:42-44 | the charged lines are the order's non-empty `lines`, else one fallback line |
| PaymentBridge.LegacyCharge | functions/index.js:42-44 | an order without lines is charged one line at `price || totalPrice || 0`, `qty || 1` times, named "Suco Freshflow" |
| PaymentBridge.Quantity | functions/index.js:48 | the quantity is a whole number ≥ 1 (or +Infinity or NaN); a whole quantity ≥ 1 is kept and a falsy one is 1 |
| PaymentBridge.LineCents | functions/index.js:48 | a line amount is whole cents when finite, and finite exactly when unit price and quantity are |
| PaymentBridge.TotalCents | functions/index.js:47-50 | the total is always a whole number of cents |
| PaymentBridge.NonFiniteLineSkipped | functions/index.js:47-50 | a line whose amount is not finite is skipped: the total equals the total of the other lines |
| PaymentBridge.RejectedIffNotPositive | functions/index.js:51 | the charge is refused exactly when the total is not positive |
| PaymentBridge.ChargeItems | functions/index.js:62-68 | one item per line, with unit price the rounded cents and quantity `max(1, floor(qty || 1))` |
| PaymentBridge.ItemsSumIsAmount | functions/index.js:47-68 | with finite line amounts, Σ unit_price × quantity equals the charged amount |
| PaymentBridge.PlanCharge | functions/index.js:37-69 | a falsy orderId gives 400; a missing order gives 500 "Pedido não encontrado"; a null line gives 500; a total ≤ 0 gives 400 "Valor inválido"; otherwise the request carries a positive whole amount for the order's lines |
| PaymentBridge.ProviderPatch | functions/index.js:82-87 | the write names exactly the four provider fields |
| PaymentBridge.ProviderFieldsRecorded | functions/index.js:82-87 | recording sets provider, transaction id, provider status and updatedAt, and every other field, `status` and `paid` included, is unchanged |
| PaymentBridge.CreatePix | functions/index.js:35-94 | a refused request sends no charge and writes nothing; a gateway failure gives 500 and writes nothing; a reply without id or status gives 500 and writes nothing; otherwise the order gets the provider fields and the reply is the charge reply |
| PaymentBridge.StatusReply | functions/index.js:100-115 | an empty tid gives 400; a gateway failure gives 500; otherwise 200 with the status or "unknown", and the raw data when defined |
| PaymentBridge.OrNull | functions/index.js:133 | `v || null` |
| PaymentBridge.ParseWebhook | functions/index.js:124-142 | the three shapes are tried in order and the first match is read; a body of none of them has no transaction id |
| PaymentBridge.ParsesStatusChange | functions/index.js:130-133 | a status-change notice reads back as its status, transaction and order |
| PaymentBridge.ParsesEvent | functions/index.js:134-137 | a `{ type, data }` notice reads back as its status, transaction and order |
| PaymentBridge.ParsesTransaction | functions/index.js:138-141 | a bare transaction reads back as its status, id and order |
| PaymentBridge.FirstShapeWins | functions/index.js:130-142 | a status-change notice is read from its payload whatever other members the body has |
| PaymentBridge.ReconcilePatch | functions/index.js:158-163 | the reconcile write names exactly pagarme_status, paid, status and updatedAt |
| PaymentBridge.Reconciled | functions/index.js:158-163 | "paid" sets status "preparing" and paid true whatever the status was; any other status removes both; pagarme_status is the status or null; other fields are unchanged |
| PaymentBridge.RedeliveryIdempotent | functions/index.js:158-163 | a notice delivered twice leaves the order as one delivery at the later time would |
| PaymentBridge.HandleWebhook | functions/index.js:122-171 | no transaction id: `{ok, ignored}` and no write; a named, existing order is reconciled; a named, missing order gives 500 and no write; without an order id, an order carrying the transaction id is reconciled, and with none there is no write |
| PixCharge.ChargeLines | api/pagarme/create-pix.js:12-14 | the charged lines are the body's non-empty `lines`, else one fallback line |
| PixCharge.FallbackCharge | api/pagarme/create-pix.js:12-14 | without lines the charge is one line, once, at `Number(totalPrice || 0)` |
| PixCharge.Quantity | api/pagarme/create-pix.js:17 | `max(1, qty || 1)` is ≥ 1 or NaN, keeps any finite quantity ≥ 1 (fractions included) and makes a falsy one 1 |
| PixCharge.FiniteLinesFiniteTotal | api/pagarme/create-pix.js:16-19 | finite line amounts give a finite total |
| PixCharge.NaNLinePoisonsTotal | api/pagarme/create-pix.js:16-20 | one NaN line makes the total NaN, which is refused |
| PixCharge.ChargeItems | api/pagarme/create-pix.js:28-34 | one item per line, with unit price the rounded cents and quantity `max(1, qty || 1)` |
| PixCharge.ItemsSumIsAmount | api/pagarme/create-pix.js:16-34 | with finite line amounts the items add up to the amount |
| PixCharge.Prepare | api/pagarme/create-pix.js:4-35 | not POST gives 405; falsy orderId gives 400; missing key gives 500; a null line gives 500; a falsy total gives 400; otherwise the request for those lines |
| PixCharge.Finish | api/pagarme/create-pix.js:42-52 | a gateway failure gives 500 with its error; a reply gives 200 and the charge reply |
| PixCharge.HandleReplies | api/pagarme/create-pix.js:3-53 | early failures are 400 or 500; after preparation the reply is 200 exactly when the gateway answered, carrying the charge reply |
| PixCharge.NegativeLine | api/pagarme/create-pix.js:16-19 | a line at −5 once is −500 cents |
| PixCharge.NegativeTotalIsSent | api/pagarme/create-pix.js:20 | a negative total is not refused: the request carries −500 |
| OrderFlow.StoredLineCents | functions/index.js:48 | a stored line priced in whole cents is charged cents × qty by either endpoint |
| OrderFlow.LineCentsExact | functions/index.js:48 | for such a line cents × qty is 100 × price × qty |
| OrderFlow.CentsTotalExact | functions/index.js:47-50 | over such lines the amounts add up to 100 × the exact total |
| OrderFlow.BridgeSum | functions/index.js:47-50 | lines of given whole amounts are charged their sum by the backend |
| OrderFlow.PixSum | api/pagarme/create-pix.js:16-19 | lines of given whole amounts are charged their sum by the stateless endpoint |
| OrderFlow.BridgeCents | functions/index.js:47-50 | the backend charges such lines the sum of their amounts |
| OrderFlow.PixCents | api/pagarme/create-pix.js:16-19 | the stateless endpoint charges such lines the same sum |
| OrderFlow.SameCharge | api/pagarme/create-pix.js:16-34 | both endpoints charge confirmable whole-cent lines the same amount and the same items |
| OrderFlow.SameItems | api/pagarme/create-pix.js:28-34 | both endpoints build the same items for such lines |
| OrderFlow.SavedLines | functions/index.js:42-43 | the backend charges exactly the lines the storefront stored for a non-empty confirmed cart |
| OrderFlow.LinesCharged | functions/index.js:42-43 | an order with non-empty `lines` is charged exactly those lines |
| OrderFlow.CartAmount | functions/index.js:47-50 | for a whole-cent cart the backend charges 100 × its subtotal |
| OrderFlow.CartItems | functions/index.js:62-68 | for such a cart the items add up to the charged amount |
| OrderFlow.ChargeMatchesSubtotal | functions/index.js:42-68 | a saved whole-cent cart is charged its stored lines, at 100 × the subtotal shown, with items adding up to it |
| OrderFlow.TwoJuicesCart | src/App.jsx:121-128 | two juices at 18.90 are a confirmed whole-cent cart with subtotal 37.80 |
| OrderFlow.TwoJuicesAt1890 | functions/index.js:47-50 | that cart, saved, is charged 3780 cents |
| OrderFlow.PaidShowsPreparing | functions/index.js:161 | after a "paid" notice the tracking card shows "Em preparo" |
| OrderFlow.UnpaidShowsReceived | functions/index.js:161 | after any other notice the status is gone and the tracking card shows "Recebido" |
| OrderFlow.PaidListsPreparing | functions/index.js:161 | after a "paid" notice the order lists print "preparing" |
| OrderFlow.UnpaidListsPending | functions/index.js:161 | after any other notice the order lists print "pending", whatever the status was |
| OrderFlow.SavedShowsSubtotal | src/App.jsx:1142-1144 | the lists show a saved, non-empty confirmed cart's subtotal as its total (a NaN total shows as 0), exactly the subtotal for a whole-cent cart |
| OrderFlow.ChargeKeepsLabel | functions/index.js:82-87 | recording a charge does not change the label the tracking card shows |

## Where the code and the design differ

The model follows the code in each case:

- **Webhook errors.** The webhook answers 500, not 200, when the named order does not exist (the store's `update` throws) or the order id is not a string.
- **Non-paid notices.** A notice with any status other than "paid" deletes the order's `status` and `paid` fields. It does not leave the fulfilment status alone.
- **Admin status writes.** The admin status write accepts any status from any status. No forward-only check exists.
- **No validation in `saveOrder`.** `saveOrder` does not validate lines; only `handleSaveOrder` refuses an empty cart.

## Left out

- IEEE-754 rounding: finite arithmetic is exact over the reals. A price such as 18.9 is the exact decimal, so `Math.round(price * 100)` has no floating-point error.
- Json.ToNumber: a non-blank numeric string such as "12" is NaN in the model. JavaScript parses it. The model only distinguishes a blank string (0) from any other string (NaN).
- JSON serialisation of NaN and Infinity (both become `null` in JSON): replies carry the model's number values.
- Strings are sequences of Unicode code points, not UTF-16 code units, so `slice(0, 80)` counts code points.
- Error messages raised by the store library and the runtime: placeholders stand in for them (`InvalidPath`, `UndefinedField`, `NoDocument`, `NullLine`). The status code and the absence of a write are what the contracts state.
- The API key, the clock (`Date.now()`) and the gateway's replies are parameters. The HTTP calls, their 15 s timeouts and the key's configuration lookup are not modelled.
- The ordered query `orderBy("createdAt", "desc")` on the loaders' first path: only the fallback path, with its in-memory sort, is modelled.
- `where(...).limit(1)`: the model returns some matching document. It does not claim to return the same one as the store.
- Document paths: an order id is a plain string key. Firestore's path rules are not modelled, except that a non-string id fails.
- Rendering, navigation, `alert`, the loading flags, the live `onSnapshot` tracking, `subscribeActiveMenu`, `loadAllMenu`, `removeMenuItem`, the Express and CORS wiring, and the webhook stub that only logs.
- `delivery || undefined`: an `undefined` field is taken to be omitted from the written document. The client's store settings are not part of this model.
- Concurrency: each handler runs to completion. The interleaving of asynchronous handlers and concurrent writes is not modelled.
- Storefront.Shop.LoadMyOrders and Storefront.Shop.LoadAllOrders: `setOrdersError`, and the loaders' error paths, are not modelled.
- PaymentBridge.TotalCents: its own contract states only that the total is whole cents. `NonFiniteLineSkipped` states that a line that is not finite is skipped, and the `OrderFlow` lemmas give the sum for finite lines.
