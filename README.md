# E-commerce backend and client reducers in Dafny

A model of the bookkeeping core of a serverless e-commerce shop: the Node.js
Lambda handlers for carts, wishlists, orders, payments and products, the
Mongoose models behind them (Product, Cart, Order, Wishlist), the timed order
status service, the response helpers, and three Redux slices of the React
client (cart, toast and UI).

## How the model is built

- **Collections.** The four MongoDB collections live in one `Database.Store`
  object: products in a map by id, carts and orders as sequences in storage
  order (so `findOne` is "the first that matches"), wishlists in a map by owner
  (the schema makes the owner unique). `Database.ValidDb` is what every stored
  document satisfies: it passed its schema validation and its pre-save hook
  wrote its derived fields.
- **Handlers.** Each endpoint is a method on the store that updates it step by
  step the way the handler does, and a pure function `XStep(db, ...)` returning
  the reply and the collections afterwards. The method's contract ties the two
  together (`Step(reply, db.State()) == XStep(old(db.State()), ...)`) and keeps
  `db.Valid()`. The lemmas beside each handler state what the endpoint
  promises: when it succeeds (both directions), that a refusal changes
  nothing, exactly what a success changes and that nothing else does.
- **Replies.** `Ok(status, message)` is a `successResponse`, `Refused(status,
  message)` an `errorResponse` returned by the handler, and `Threw(error)` an
  exception that `lambdaWrapper` turns into an `errorResponse` (module
  `Responses`, which also models the status mapping).
- **Documents.** The Cart, Wishlist and Order documents a handler loads and
  mutates are classes with `save` and the model methods; the Product
  virtuals are functions.
- **Client.** The slices are classes whose reducers are methods; each method
  states the whole new state against a specification function, and the
  properties of the reducers (totals, queue bound, toggling) are lemmas about
  those functions.
- **Inputs instead of effects.** The clock, `Math.random`, the Stripe outcome
  (intent creation, retrieval, webhook event, refund), whether Mongoose can
  cast an id, and local storage values are parameters. Redis is taken to miss
  on every read, so every handler reads the database; caching is otherwise a
  no-op.

## Behaviour of the source that the model reproduces

These follow from the code as written and are stated as lemmas:

- The "out of stock" branch of `addToCart` (backend/services/cart/handler.js:140-142)
  and the "cannot add more" branches after an existing line is found
  (cart handler line 170, wishlist handler line 253) cannot be reached once the
  first stock check passes; the model has `assert false` there.
- `validateRequiredFields` counts 0 as missing (`Responses.ZeroIsMissing`), so
  `addToCart` with quantity 0 and `updateCartItem` with quantity 0 throw and end
  in a 500 instead of a 400 or a removal (`CartHandler.AddToCartRefusals`,
  `CartHandler.UpdateCartItemZeroIsRefused`), and a product with price 0 cannot
  be created (`ProductsHandler.FreeProductRefused`).
- The reserved count takes only the first line of the product in each cart,
  whatever its variants (`Database.SecondVariantIsNotReserved`).
- `createOrder` checks each line against the whole stock on its own, so two
  lines of one product can oversell it (`OrdersHandler.PerLineCheckCanOversell`);
  stock can then be negative, which reads as "low-stock"
  (`ProductModel.NegativeQuantityIsLowStock`).
- `createOrder` loads products without their discount, so orders charge the
  list price (`ProductModel.WithoutDiscountChargesListPrice`), while the cart
  charges `discountedPrice || price`, which is the full price for a 100 %
  discount (`ProductModel.FullDiscountChargesListPrice`).
- `updateOrderStatus` to "cancelled" never restores stock, because its guard
  reads the status it has just written (`OrdersHandler.UpdateOrderStatusEffect`);
  `cancelOrder` does restore it (`OrdersHandler.CreateThenCancelRestoresStock`).
- `confirmPayment` does not check the payment status, so confirming a paid
  order that has shipped moves it back to "confirmed"
  (`PaymentsHandler.ReconfirmingMovesBack`).
- `processRefund` leaves the payment status "completed" and does not return
  stock (`PaymentsHandler.ProcessRefundEffect`). The documented
  behaviour has a refund restore inventory; the model follows the code.
- `moveToCart` accepts a negative quantity as long as the cart line it lands
  on keeps at least one unit (`WishlistHandler.MoveToCartSucceedsIff`).
- `updateStatus` accepts any status after any other, so an admin can move an
  order anywhere (`OrderModel.AnyTransitionAllowed`); only the status
  service's automatic chain is ordered.

## Model

| member | source | states |
|---|---|---|
| Responses.MissingFields | backend/utils/response.js:165 | exactly the listed fields whose value is falsy (absent, null, false, 0 or "") are reported, never more than were listed |
| Responses.MissingFieldsConcat | backend/utils/response.js:165 | the filter keeps the order of the field list: the missing fields of a concatenation are those of each part in turn |
| Responses.ValidateRequiredFields | backend/utils/response.js:164-170 | nothing is thrown exactly when every listed field is truthy; otherwise a plain `Error` "Missing required fields: " followed by the missing names joined with ", " |
| Responses.ZeroIsMissing | backend/utils/response.js:165 | a numeric field holding 0 is reported missing and makes the validation throw |
| Responses.SuccessResponse | backend/utils/response.js:2-18 | the status is the one given (200 by default) and the body has `success: true` |
| Responses.ErrorResponse | backend/utils/response.js:21-75 | `success: false`; a string keeps its status; ValidationError, CastError and duplicate key give 400, with the field messages as details for validation; "Authentication failed" gives 401 and "Admin access required" 403; the status is always the given one or 400/401/403; in production a 500 carries only "Internal server error" and no details |
| Responses.ValidationErrorResponse | backend/utils/response.js:78-83 | the answer is 400, and since a plain object is not an `Error` its message is "Internal server error" with no details |
| Responses.NotFoundResponse | backend/utils/response.js:86-88 | 404 with the message "<resource> not found" |
| Responses.PaginatedResponse | backend/utils/response.js:101-113 | the pagination object copies page, total pages, total items and limit; there is a next page exactly when page < totalPages and a previous one exactly when page > 1 |
| Responses.TotalPages | backend/services/orders/handler.js:180 | `Math.ceil(total / limit)`: the fewest pages of `limit` items that hold every item |
| Responses.PageOf | backend/services/orders/handler.js:167-173 | `skip((page - 1) * limit).limit(limit)`: the i-th item is item `(page - 1) * limit + i` of the whole sequence, and the page holds exactly `limit` items, or what is left after the skip when fewer, or none when the skip passes the end |
| Responses.PageMembers | backend/services/products/handler.js:141 | a page lists only items of the sequence it was cut from |
| Responses.PageNonEmptyIff | backend/utils/response.js:109 | a page holds items exactly when its number is at most the reported page count, and every page before the last is full |
| Responses.LambdaWrapper | backend/utils/response.js:116-140 | an OPTIONS request gets 200 with an empty body whatever the handler does; otherwise the handler's response passes through, and anything it throws becomes `errorResponse(error)` with status 500 |
| Responses.Answer | backend/utils/response.js:2-18 | a success reply becomes a response with its status and `success: true`, a refusal one with its status and `success: false`, and a throw goes through the wrapper |
| ProductModel.Flag | backend/models/Product.js:3-135 | the list of messages is empty exactly when that condition passed and no later condition failed |
| ProductModel.ProductErrors | backend/models/Product.js:3-135 | no message exactly when the product meets every schema constraint |
| ProductModel.ValidateProduct | backend/models/Product.js:3-135 | validation passes exactly for a product meeting every constraint, and otherwise reports a ValidationError with at least one field message |
| ProductModel.DiscountedPrice | backend/models/Product.js:147-156 | without an active discount the virtual is the list price; an active one lowers a positive price, and a discount of at most 100 % keeps it between 0 and the list price |
| ProductModel.UnitPrice | backend/services/cart/handler.js:159 | `discountedPrice \|\| price`: a discounted price of 0 falls back to the list price |
| ProductModel.UnitPriceBounds | backend/services/cart/handler.js:159 | a valid product is never charged less than 0 or more than its list price |
| ProductModel.FullDiscountChargesListPrice | backend/services/cart/handler.js:159 | a 100 % discount makes the virtual 0, so the cart charges the full list price |
| ProductModel.NinetyNinePercentIsCheaper | backend/services/cart/handler.js:159 | a 99 % discount charges a hundredth of the price, less than a 100 % discount does |
| ProductModel.WithoutDiscount | backend/services/orders/handler.js:41-42 | a product loaded without its discount keeps price, status and stock |
| ProductModel.WithoutDiscountChargesListPrice | backend/services/orders/handler.js:63 | a product whose discount was not loaded is charged its list price |
| ProductModel.StockStatusOf | backend/models/Product.js:159-163 | "out-of-stock" exactly at quantity 0, "in-stock" exactly above the threshold |
| ProductModel.LowStockRange | backend/models/Product.js:159-163 | for a valid product, "low-stock" exactly when the quantity is positive and at most the threshold |
| ProductModel.NegativeQuantityIsLowStock | backend/models/Product.js:159-163 | a negative stock, which the order handler can produce, reads as "low-stock" |
| ProductModel.IncQuantity | backend/services/orders/handler.js:105-108 | `$inc` on the stock changes only that product's quantity, by the given amount; a missing product is left missing |
| CartModel.TotalsAppend | backend/models/Cart.js:64-66 | the pre-save totals of a concatenation are the sums of the parts' totals |
| CartModel.TotalsUpdate | backend/models/Cart.js:64-66 | replacing one line shifts the item count and the price by exactly that line's change |
| CartModel.TotalItemsAtLeastLines | backend/models/Cart.js:9-13 | when every line holds at least one unit, the item count is at least the number of lines |
| CartModel.ValidateCart | backend/models/Cart.js:55-61 | validation passes exactly for a cart with a user or a non-empty session id whose lines all hold at least one unit; the owner check's plain error comes first, then a ValidationError |
| CartModel.Recomputed | backend/models/Cart.js:64-69 | the hook keeps lines and owner, and a valid cart comes out with totals equal to the sums over its lines |
| CartModel.WithoutProduct | backend/models/Cart.js:72-73 | the filter keeps exactly the lines of other products |
| CartModel.WithoutProductConcat | backend/models/Cart.js:72-73 | filtering works line by line |
| CartModel.WithoutProductIdempotent | backend/models/Cart.js:72-75 | removing an absent product changes nothing, and removing twice is removing once |
| CartModel.FirstLineOf | backend/models/Cart.js:79 | `find` by product: the first line of that product, or none exactly when no line has it |
| CartModel.QuantityUpdated | backend/models/Cart.js:78-86 | no line: nothing changes; a quantity of 0 or less removes every line of the product; otherwise only the first line's quantity changes |
| CartModel.Cart.Load | backend/models/Cart.js:27-52 | a cart object holds exactly the stored document |
| CartModel.Cart.New | backend/models/Cart.js:27-52 | a new cart belongs to its user and is empty with zero totals |
| CartModel.Cart.Save | backend/models/Cart.js:55-69 | `save` reports the validation error and changes nothing, or stores the document with recomputed totals |
| CartModel.Cart.RemoveItem | backend/models/Cart.js:72-75 | `removeItem` drops every line of the product and saves |
| CartModel.Cart.UpdateItemQuantity | backend/models/Cart.js:78-87 | `updateItemQuantity` sets the first line's quantity, or removes the product when the quantity is 0 or less, and saves |
| CartModel.Cart.ClearCart | backend/models/Cart.js:90-93 | `clearCart` empties the lines and saves, leaving zero totals |
| CartModel.ClearTwice | backend/models/Cart.js:90-93 | clearing an owned cart always succeeds, also the second time, and leaves it empty with zero totals |
| CartModel.UpdateQuantityTotals | backend/models/Cart.js:78-87 | after `updateItemQuantity` with a positive quantity the item count moves by exactly that line's change |
| CartHandler.LineIndex | backend/services/cart/handler.js:154-157 | `findIndex` on product and variants: the first matching line, or none exactly when no line matches |
| CartHandler.AddedLines | backend/services/cart/handler.js:161-184 | an existing line gets the added quantity and the current price, every other line is kept; otherwise the new line is appended |
| CartHandler.AddedLinesValid | backend/services/cart/handler.js:161-184 | adding at least one item keeps every line's quantity at least 1 |
| CartHandler.SameProductsSameFirstLine | backend/services/cart/handler.js:127-132 | the line counted as a reservation depends only on the lines' products |
| CartHandler.AddedLinesFirstLine | backend/services/cart/handler.js:127-132 | adding `quantity` raises the first line counted for that product by at most `quantity` and never lowers it |
| CartHandler.SaveStep | backend/models/Cart.js:55-69 | a save succeeds exactly when the cart passes the schema's checks; it then stores the cart with recomputed totals, and a failure changes nothing |
| CartHandler.SaveStepStored | backend/models/Cart.js:55-69 | a save keeps the store consistent |
| CartHandler.AddToCartStep | backend/services/cart/handler.js:98-199 | `addToCart` on the store: the required fields, a quantity below 1 (400), an id Mongoose cannot cast (CastError), an unknown product (404), an inactive one (400), too little unreserved stock (400 with the counts), in that order, each changing nothing; otherwise the caller's cart, or a new one, gets the line and is saved |
| CartHandler.AddToCart | backend/services/cart/handler.js:98-198 | the handler's reply and new store are those of `AddToCartStep`, which answers an uncastable id with the CastError, and the store stays consistent |
| CartHandler.AddLine | backend/services/cart/handler.js:143-186 | once stock is checked, the add step's reply and store are those of the specification function |
| CartHandler.AddToCartPreservesValidity | backend/services/cart/handler.js:98-198 | adding to the cart keeps the store consistent |
| CartHandler.AddToCartSucceedsIff | backend/services/cart/handler.js:104-186 | an add succeeds exactly for a given product id that Mongoose can cast, of an existing, active product, and a quantity of at least 1 that the stock left after every cart's reservation covers; a refusal changes nothing |
| CartHandler.AddToCartRefusals | backend/services/cart/handler.js:104-120 | a negative quantity gets 400 "Quantity must be at least 1", 0 fails the required-field check, an id Mongoose cannot cast throws the CastError (answered 400 "Invalid ID format"), a missing product gets 404 and an inactive one 400 "Product is not available", all changing nothing |
| CartHandler.AddToCartEffect | backend/services/cart/handler.js:143-186 | a successful add changes only the caller's cart, whose lines become the added lines at the current unit price; at most one cart is created |
| CartHandler.AddLineEffect | backend/services/cart/handler.js:143-186 | the write-back of an add changes only the caller's cart, whose lines become the added lines, and creates at most one cart |
| CartHandler.AddLineSucceeds | backend/services/cart/handler.js:143-186 | once the checks have passed, saving the cart cannot fail: it has an owner and every quantity stays at least 1 |
| CartHandler.CartBodyComplete | backend/services/cart/handler.js:104 | the required-field check passes exactly when the product id is not empty and the quantity not 0 |
| CartHandler.AddToCartKeepsReservationsInStock | backend/services/cart/handler.js:123-141 | when reservations fit in stock before an add, they still fit after it, and grow by at most the quantity added |
| CartHandler.SetLine | backend/services/cart/handler.js:263-265 | only the chosen line changes, and only its quantity and price |
| CartHandler.UpdateCartItemStep | backend/services/cart/handler.js:202-281 | `updateCartItem` on the store: the required fields, a negative quantity (400), no cart (404), no matching line (404), the product gone (404), more than the stock other carts leave (400 with the counts), each changing nothing; otherwise the line gets the quantity and the current price and the cart is saved |
| CartHandler.UpdateCartItem | backend/services/cart/handler.js:202-281 | the handler's reply and new store are those of the specification function, and the store stays consistent |
| CartHandler.UpdateCartItemPreservesValidity | backend/services/cart/handler.js:202-281 | updating a cart line keeps the store consistent |
| CartHandler.UpdateCartItemZeroIsRefused | backend/services/cart/handler.js:208 | a quantity of 0 fails the required-field check before the removal branch is reached, changing nothing |
| CartHandler.UpdateCartItemSucceedsIff | backend/services/cart/handler.js:208-268 | an update succeeds exactly when the caller's cart has the line and the stock not reserved by other carts covers the new quantity; it then sets that line's quantity and price only; a refusal changes nothing |
| CartHandler.WithoutLine | backend/services/cart/handler.js:301-304 | the filter keeps exactly the lines that do not match product and variants |
| CartHandler.WithoutLineShortens | backend/services/cart/handler.js:306-308 | the cart gets shorter exactly when some line matched, which is how the handler detects a missing item |
| CartHandler.WithoutLineValid | backend/services/cart/handler.js:301-304 | removing lines keeps every quantity at least 1 |
| CartHandler.RemoveFromCartStep | backend/services/cart/handler.js:284-323 | `removeFromCart` on the store: the required product id, no cart (404), no matching line (404), each changing nothing; otherwise the matching lines are dropped and the cart is saved |
| CartHandler.RemoveFromCart | backend/services/cart/handler.js:284-323 | the handler's reply and new store are those of the specification function, and the store stays consistent |
| CartHandler.RemoveFromCartPreservesValidity | backend/services/cart/handler.js:284-323 | removing a cart line keeps the store consistent |
| CartHandler.RemoveFromCartSucceedsIff | backend/services/cart/handler.js:294-310 | a removal succeeds exactly when the caller's cart has a matching line; only that cart changes, losing exactly the matching lines; a refusal changes nothing |
| CartHandler.ClearCartStep | backend/services/cart/handler.js:326-343 | `clearCart` on the store: no cart is 404 and changes nothing; otherwise the cart is saved with no lines |
| CartHandler.ClearCart | backend/services/cart/handler.js:326-343 | the handler's reply and new store are those of the specification function, and the store stays consistent |
| CartHandler.ClearCartEmpties | backend/services/cart/handler.js:331-337 | clearing succeeds exactly when the caller has a cart, leaves it with no lines and zero totals, and clearing again changes nothing |
| CartHandler.SyncLine | backend/services/cart/handler.js:386-402 | a line survives only for an active product with stock, with its quantity lowered to the stock and nothing else changed |
| CartHandler.SyncLinesSound | backend/services/cart/handler.js:386-403 | every line that survives a sync is of an active product and fits in its stock |
| CartHandler.SyncLinesAppend | backend/services/cart/handler.js:386-403 | the sync loop works line by line: syncing two parts is syncing each, and a change in either is a change |
| CartHandler.SyncChangesIff | backend/services/cart/handler.js:383-405 | `hasChanges` is set exactly when the synced lines differ from the cart's, and a change always lowers the item count |
| CartHandler.SyncLineChanges | backend/services/cart/handler.js:386-404 | for one line, the loop body keeps it unchanged unless it sets `hasChanges`, and a change lowers its quantity |
| CartHandler.SyncIdempotent | backend/services/cart/handler.js:386-405 | syncing a synced cart finds nothing to change |
| CartHandler.SyncItems | backend/services/cart/handler.js:383-403 | the loop computes the synced lines and the change flag of the specification functions |
| CartHandler.SyncCartStep | backend/services/cart/handler.js:371-421 | `syncCart` on the store: no cart is 404; otherwise success, saving the synced lines only when a line changed |
| CartHandler.SyncCart | backend/services/cart/handler.js:371-421 | the handler's reply and new store are those of the specification function, and the store stays consistent |
| CartHandler.SyncCartEffect | backend/services/cart/handler.js:376-413 | syncing succeeds exactly when the caller has a cart; the store changes exactly when a line changed; afterwards every line is of an active product within its stock, and no other cart changes |
| CartHandler.ActiveLines | backend/services/cart/handler.js:77-79 | the filter keeps exactly the lines of existing, active products |
| CartHandler.ActiveLinesSameLength | backend/services/cart/handler.js:82 | an unchanged length means nothing was filtered out, which is how the handler decides not to save |
| CartHandler.GetCartStep | backend/services/cart/handler.js:27-95 | `getCart` on the store: another user's id is 403; a guest gets an empty cart; a missing cart is created empty; a cart with lines of missing or inactive products is saved without them |
| CartHandler.GetCart | backend/services/cart/handler.js:27-95 | the handler's reply and new store are those of the specification function, and the store stays consistent |
| CartHandler.GetCartEffect | backend/services/cart/handler.js:30-94 | a guest gets an empty cart and nothing changes; another user's id gets 403; otherwise the caller's cart exists afterwards (created when missing) and holds only lines of active products |
| WishlistModel.WithoutItem | backend/models/Wishlist.js:52-55 | the filter keeps exactly the entries of other products, so the product is no longer listed |
| WishlistModel.WithoutAbsent | backend/models/Wishlist.js:52-55 | removing a product that is not listed changes nothing |
| WishlistModel.WithoutItemConcat | backend/models/Wishlist.js:52-55 | filtering works entry by entry |
| WishlistModel.WithItem | backend/models/Wishlist.js:40-47 | after `addItem` the product is listed; a listed product leaves the entries unchanged, otherwise one entry is appended |
| WishlistModel.WithItemKeepsDistinct | backend/models/Wishlist.js:40-47 | adding keeps every product listed at most once |
| WishlistModel.AddThenRemove | backend/models/Wishlist.js:40-57 | adding a product that was not listed and removing it again restores the entries |
| WishlistModel.Wishlist.Load | backend/models/Wishlist.js:17-31 | a wishlist object holds exactly the stored document |
| WishlistModel.Wishlist.New | backend/models/Wishlist.js:17-31 | a new wishlist belongs to its user and is empty |
| WishlistModel.Wishlist.Save | backend/models/Wishlist.js:34-37 | the pre-save hook sets `totalItems` to the number of entries and changes nothing else |
| WishlistModel.Wishlist.AddItem | backend/models/Wishlist.js:40-49 | `addItem` adds the product unless listed and saves, keeping the count equal to the entries |
| WishlistModel.Wishlist.RemoveItem | backend/models/Wishlist.js:52-57 | `removeItem` drops the product's entries and saves, keeping the count equal to the entries |
| WishlistModel.Wishlist.Has | backend/models/Wishlist.js:60-64 | `hasItem` is true exactly when some entry is of that product |
| WishlistModel.Wishlist.ClearWishlist | backend/models/Wishlist.js:67-70 | `clearWishlist` leaves no entries and a count of 0 |
| PaymentsHandler.Cents | backend/services/payments/handler.js:56 | `Math.round(total * 100)`: the amount in cents is within half a cent of the exact product |
| PaymentsHandler.CreatePaymentIntentStep | backend/services/payments/handler.js:27-98 | `createPaymentIntent` on the store: the required order id, an id Mongoose cannot cast (CastError), no such order (404), someone else's order (403), a paid one (400), a gateway error (400), each changing nothing; otherwise the order records the intent's id |
| PaymentsHandler.CreatePaymentIntent | backend/services/payments/handler.js:27-98 | the handler's reply, charged amount and new store are those of `CreatePaymentIntentStep` and `IntentCharge`, which answer an uncastable id with the CastError and charge nothing, and the store stays consistent |
| PaymentsHandler.IntentCharge | backend/services/payments/handler.js:33-56 | the amount sent to the gateway: none when a check fails first, otherwise the order total in cents |
| PaymentsHandler.CreatePaymentIntentSucceedsIff | backend/services/payments/handler.js:33-92 | an order id Mongoose cannot cast throws the CastError; a charge is requested exactly for a castable id of an existing, unpaid order of the caller, rounded to cents; the reply is a success exactly when the gateway then creates the intent; only that order changes, and only its transaction id; a failure changes nothing |
| PaymentsHandler.FindTransaction | backend/services/payments/handler.js:120 | `findOne` by transaction id: the first order carrying that id, or none when no order does |
| PaymentsHandler.LatestPending | backend/services/payments/handler.js:124-127 | `findOne` of the caller's pending or processing orders sorted by `createdAt` descending: one with the latest creation time, the first stored among equals, and none exactly when the caller has no such order |
| PaymentsHandler.ConfirmTarget | backend/services/payments/handler.js:120-136 | the order that will be confirmed is an existing index of the store before and after the transaction id is recorded |
| PaymentsHandler.ConfirmPaymentStep | backend/services/payments/handler.js:101-200 | `confirmPayment` on the store: the required intent id, a gateway error (500), no order by transaction nor pending order of the caller (404), each changing nothing; otherwise the order found is settled |
| PaymentsHandler.SettleStep | backend/services/payments/handler.js:138-193 | the settling branches: someone else's order is 403; "succeeded" completes and confirms the payment; "requires_action" changes nothing; any other status marks the payment failed and is answered 400 |
| PaymentsHandler.ConfirmPayment | backend/services/payments/handler.js:101-200 | the handler's reply and new store are those of the specification function, and the store stays consistent |
| PaymentsHandler.RecordTransaction | backend/services/payments/handler.js:133-135 | the fallback order gets the intent id as its transaction id and nothing else changes |
| PaymentsHandler.Settle | backend/services/payments/handler.js:138-193 | the owner check and the status branch do what the specification function says |
| PaymentsHandler.ConfirmPaymentStored | backend/services/payments/handler.js:101-200 | confirming keeps the store consistent and touches only orders; a gateway error, an empty id or no order to confirm changes nothing |
| PaymentsHandler.ConfirmTargetStored | backend/services/payments/handler.js:133-135 | recording the transaction id on the fallback order keeps the store consistent and touches only orders |
| PaymentsHandler.SettledStored | backend/services/payments/handler.js:138-193 | settling keeps the store consistent and touches only orders |
| PaymentsHandler.ConfirmPaymentForeignRefused | backend/services/payments/handler.js:139-141 | an order of another user that carries the intent id is refused with 403 "Access denied" and nothing changes |
| PaymentsHandler.ConfirmPaymentSettles | backend/services/payments/handler.js:143-193 | for the caller's order: success exactly on "succeeded" or "requires_action"; "succeeded" completes the payment, stamps the time and id, moves the order to confirmed with a history entry; "requires_action" changes only what the lookup recorded; any other status answers 400 "Payment failed" and marks the payment failed; no other order changes |
| PaymentsHandler.ReconfirmingMovesBack | backend/services/payments/handler.js:143-158 | confirming again a paid order that has already shipped succeeds and moves it back to confirmed |
| PaymentsHandler.HandleWebhookStep | backend/services/payments/handler.js:233-293 | `handleWebhook` on the store: a bad signature is 400; an order id Mongoose cannot cast is 500 "Webhook processing failed"; a success event completes and confirms an unpaid order; a failure event marks the payment failed; every other case answers success |
| PaymentsHandler.HandleWebhook | backend/services/payments/handler.js:233-293 | the handler's reply and new store are those of `HandleWebhookStep`, which answers an event naming an uncastable id with 500, and the store stays consistent |
| PaymentsHandler.WebhookEffect | backend/services/payments/handler.js:236-292 | a bad signature is refused with 400; an event naming an order id Mongoose cannot cast is answered 500 "Webhook processing failed" and changes nothing; every other event answers success; a success event completes and confirms an unpaid order with a webhook history entry and leaves a paid or missing one alone; a failure event marks the payment failed; other events change nothing |
| PaymentsHandler.WebhookIdempotent | backend/services/payments/handler.js:256-268 | delivering the same success event a second time gets the first delivery's reply and changes nothing |
| PaymentsHandler.RefundProblem | backend/services/payments/handler.js:343-372 | the checks before the gateway: the required order id, an id Mongoose cannot cast (CastError), no such order (404), someone else's order for a customer (403), an unpaid one (400), a refunded one (400) |
| PaymentsHandler.ProcessRefundStep | backend/services/payments/handler.js:337-419 | `processRefund` on the store: a failed check changes nothing; a refund the gateway makes completes the refund and moves the order to returned; a refund it refuses is recorded as rejected and answered 400 |
| PaymentsHandler.ProcessRefund | backend/services/payments/handler.js:337-419 | the handler's reply, requested amount and new store are those of `ProcessRefundStep` and `RefundCharge`, which answer an uncastable id with the CastError and refund nothing, and the store stays consistent |
| PaymentsHandler.RefundCharge | backend/services/payments/handler.js:343-374 | the amount sent to the gateway: none when a check fails first, otherwise the given amount, or the order total when none is given, in cents |
| PaymentsHandler.ProcessRefundEffect | backend/services/payments/handler.js:343-418 | an order id Mongoose cannot cast throws the CastError; the checks pass exactly for a castable id of an existing, paid, not yet refunded order of the caller or of anyone for an admin; then a refund records its amount (the given one or the order total), completes, and moves the order to returned with a history entry, while a gateway error marks the refund rejected; the payment record is never changed; a failed check changes nothing |
| PaymentsHandler.RefundOnce | backend/services/payments/handler.js:363-366 | once a refund succeeded, every later refund of that order is refused with 400 "Order is already refunded" and changes nothing |
| ProductsHandler.SortObject | backend/services/products/handler.js:88-96 | a leading "-" sorts descending and anything else ascending; the field is the parameter without the "-", except that "rating" becomes "ratings.average" |
| ProductsHandler.SortObjectRoundTrip | backend/services/products/handler.js:88-96 | for every field other than the rating alias, the sort object gives back the sort parameter it was built from |
| ProductsHandler.RatingAlias | backend/services/products/handler.js:40-96 | "rating" and "ratings.average" sort alike in both directions, and the default sort is newest first by `createdAt` |
| ProductsHandler.MatchRank | backend/services/products/handler.js:120-134 | a name that starts with the lower-cased term ranks 0, one that only contains it ranks 1, any other 2 |
| ProductsHandler.CompareByRank | backend/services/products/handler.js:121-138 | the comparator orders two products exactly by that rank and returns 0 on equal ranks |
| ProductsHandler.SearchOrderedSorted | backend/services/products/handler.js:121-138 | after the search sort, ranks never decrease along the list |
| ProductsHandler.SearchOrderedIsStableSort | backend/services/products/handler.js:121-138 | the search sort is a stable sort: ranks never decrease, it is a permutation of the products found, and the products of each rank keep their database order |
| ProductsHandler.GetProducts | backend/services/products/handler.js:98-182 | the listing counts every product the filter selects and a page never holds more than `limit` items |
| ProductsHandler.SearchPagesOrdered | backend/services/products/handler.js:121-141 | with a search term, no product on an earlier page ranks below a product on a later page |
| ProductsHandler.SearchPageFromSelection | backend/services/products/handler.js:108-141 | every product on a search page was selected by the filter |
| ProductsHandler.GetProductsPageNonEmptyIff | backend/services/products/handler.js:141-155 | with or without a search term, a page holds items exactly up to the reported page count, and every page before the last is full |
| ProductsHandler.BestMatchFirst | backend/services/products/handler.js:120-141 | when some selected name starts with the search term, the first result of page 1 is such a product |
| ProductsHandler.TopRankFirst | backend/services/products/handler.js:120-141 | when some product's name starts with the term, the ordered results are non-empty and begin with such a product |
| ProductsHandler.ProductIdCheck | backend/services/products/handler.js:191-203 | an id passes exactly when it is 24 hexadecimal digits; otherwise the answer is a 400 |
| ProductsHandler.GetProduct | backend/services/products/handler.js:186-224 | `getProduct`: a missing or malformed id is 400, an unknown one 404; otherwise the stored product |
| ProductsHandler.GetProductIff | backend/services/products/handler.js:186-224 | a product is returned exactly when the id is well formed and the product exists, and then it is that product; an empty id, "[object Object]" and any other malformed id each get their own 400 message |
| ProductsHandler.FetchProduct | backend/services/products/handler.js:186-224 | the handler's reply and product are those of the specification function |
| ProductsHandler.NormalizedImage | backend/services/products/handler.js:242-245 | a URL string becomes an image with the product name as its alt text; an object keeps its URL, and its alt text unless that is empty |
| ProductsHandler.NormalizedImages | backend/services/products/handler.js:241-248 | an array is mapped entry by entry, keeping its length; a single non-empty URL becomes one image |
| ProductsHandler.NormalizedImagesHaveAlt | backend/services/products/handler.js:241-248 | for a product with a name, every stored image has alt text |
| ProductsHandler.CreateBodyComplete | backend/services/products/handler.js:233 | the required-field check passes exactly when name, description, price and category are present, a price of 0 counting as missing |
| ProductsHandler.CreateProductStep | backend/services/products/handler.js:227-259 | `createProduct` on the store: not an admin, missing fields, the schema, each changing nothing; otherwise the new product is stored under the new id |
| ProductsHandler.CreateProductSucceedsIff | backend/services/products/handler.js:227-259 | a product is stored exactly when an admin sends the four required fields and the result passes the schema; it records its creator; a non-admin gets "Admin access required"; a refused request changes nothing |
| ProductsHandler.FreeProductRefused | backend/services/products/handler.js:233 | an admin cannot create a product priced 0: the required-field check throws and nothing is stored |
| ProductsHandler.CreateProduct | backend/services/products/handler.js:227-259 | the handler's reply and new store are those of the specification function, and the store stays consistent |
| ProductsHandler.Patched | backend/services/products/handler.js:279-289 | an update never touches the ratings, the reviews or the creator |
| ProductsHandler.PatchedCopiesWhitelist | backend/services/products/handler.js:279-289 | each whitelisted field is copied when the body has it and kept otherwise, the name trimmed; fields outside the whitelist are ignored; an empty body changes nothing |
| ProductsHandler.PatchedIdempotent | backend/services/products/handler.js:285-289 | applying the same update twice is applying it once |
| ProductsHandler.UpdateProductStep | backend/services/products/handler.js:262-299 | `updateProduct` on the store: not an admin, no id (400), an id Mongoose cannot cast (CastError), no such product (404), the schema, each changing nothing; otherwise the product is replaced by its patched copy |
| ProductsHandler.UpdateProductSucceedsIff | backend/services/products/handler.js:262-299 | an update is stored exactly when an admin names an existing product with a well-formed id and the result passes the schema; reviews and average are kept; a refused update changes nothing |
| ProductsHandler.UpdateProduct | backend/services/products/handler.js:262-299 | the handler's reply and new store are those of the specification function, and the store stays consistent |
| ProductsHandler.RatingSumBounds | backend/services/products/handler.js:454 | ratings between 1 and 5 sum to between n and 5n |
| ProductsHandler.WithReview | backend/services/products/handler.js:446-456 | the review is appended with its comment trimmed, the count is the number of reviews and the average is their mean |
| ProductsHandler.WithReviewValid | backend/services/products/handler.js:446-458 | on a valid product, a review with rating 1 to 5 and a trimmed comment of 1 to 500 characters leaves the product valid with an average between 1 and 5 |
| ProductsHandler.WithReviewAverage | backend/services/products/handler.js:451-454 | after a review the count is one more than before, and the average times the count is the sum of the ratings |
| ProductsHandler.ReviewBodyComplete | backend/services/products/handler.js:423 | the required-field check passes exactly when the rating is not 0 and the comment not empty |
| ProductsHandler.AddReviewStep | backend/services/products/handler.js:416-465 | `addReview` on the store: missing fields, a rating outside 1 to 5 (400), an id Mongoose cannot cast (CastError), no such product (404), a second review by the same user (400), the schema, each changing nothing; otherwise the review is appended and the rating recomputed |
| ProductsHandler.AddReviewSucceedsIff | backend/services/products/handler.js:416-465 | a review is added exactly when the rating is 1 to 5, the product exists, the caller has not reviewed it and the result passes the schema; the count then grows by one; a refused review changes nothing |
| ProductsHandler.AddReviewAcceptsValid | backend/services/products/handler.js:416-465 | on a valid product, a first review with rating 1 to 5 and a trimmed comment of 1 to 500 characters is always accepted |
| ProductsHandler.BlankCommentFailsSchema | backend/services/products/handler.js:423-458 | a comment of spaces passes the required-field check, is trimmed to "" and then fails the schema with a ValidationError; nothing is stored |
| ProductsHandler.ReviewTwiceRefused | backend/services/products/handler.js:437-443 | after a successful review, a second one by the same user is refused with 400 "You have already reviewed this product" and changes nothing |
| ProductsHandler.SumRatings | backend/services/products/handler.js:454 | the reduce loop computes the sum of the ratings |
| ProductsHandler.AddReview | backend/services/products/handler.js:416-465 | the handler's reply and new store are those of the specification function, and the store stays consistent |
| ProductsHandler.TrimIdempotent | backend/models/Product.js:7 | trimming a trimmed name or brand changes nothing |
| ProductsHandler.AverageBounds | backend/services/products/handler.js:455 | a total of ratings between 1 and 5 each, divided by their count, lies between 1 and 5 |
| WishlistHandler.WishlistOf | backend/services/wishlist/handler.js:104-110 | the caller's stored wishlist, or a new empty one of the caller when none is stored |
| WishlistHandler.Saved | backend/models/Wishlist.js:34-37 | a saved wishlist keeps owner and entries and its count equals the entries |
| WishlistHandler.PutWishlistStored | backend/models/Wishlist.js:34-37 | storing a saved wishlist keeps the store consistent |
| WishlistHandler.ProductIdProblem | backend/services/wishlist/handler.js:84-91 | the product id passes exactly when it is given and well formed |
| WishlistHandler.ActiveItems | backend/services/wishlist/handler.js:56-58 | the filter keeps exactly the entries of existing, active products |
| WishlistHandler.ActiveItemsSameLength | backend/services/wishlist/handler.js:61 | an unchanged length means nothing was filtered out, which is how the handler decides not to save |
| WishlistHandler.GetWishlistStep | backend/services/wishlist/handler.js:29-74 | `getWishlist` on the store: always success; a missing wishlist is created empty, and entries of missing or inactive products are dropped and saved |
| WishlistHandler.GetWishlist | backend/services/wishlist/handler.js:29-74 | the handler's reply and new store are those of the specification function, and the store stays consistent |
| WishlistHandler.GetWishlistEffect | backend/services/wishlist/handler.js:36-73 | reading always succeeds; the caller has a wishlist afterwards holding exactly the entries of active products, and no other wishlist, cart or order changes |
| WishlistHandler.AddToWishlistStep | backend/services/wishlist/handler.js:77-135 | `addToWishlist` on the store: a missing or malformed id (400), no such product (404), an inactive one (400), one already listed (400), each changing nothing; otherwise the entry is added and the wishlist saved |
| WishlistHandler.AddToWishlist | backend/services/wishlist/handler.js:77-135 | the handler's reply and new store are those of the specification function, and the store stays consistent |
| WishlistHandler.AddToWishlistSucceedsIff | backend/services/wishlist/handler.js:84-122 | an add succeeds exactly for a given, well-formed id of an active product not yet listed; it then appends one entry to the caller's wishlist and changes nothing else; a refusal changes nothing |
| WishlistHandler.AddToWishlistKeepsDistinct | backend/services/wishlist/handler.js:112-122 | adding keeps every product listed at most once |
| WishlistHandler.RemoveFromWishlistStep | backend/services/wishlist/handler.js:138-181 | `removeFromWishlist` on the store: a missing or malformed id (400), no wishlist (404), the product not listed (400), each changing nothing; otherwise its entry is removed and the wishlist saved |
| WishlistHandler.RemoveFromWishlist | backend/services/wishlist/handler.js:138-181 | the handler's reply and new store are those of the specification function, and the store stays consistent |
| WishlistHandler.RemoveFromWishlistSucceedsIff | backend/services/wishlist/handler.js:144-168 | a removal succeeds exactly when the caller's wishlist lists the product; it then drops exactly that product's entries; a refusal changes nothing |
| WishlistHandler.AddThenRemoveRestores | backend/services/wishlist/handler.js:77-181 | removing a product just added to an existing wishlist restores the store |
| WishlistHandler.MovedLines | backend/services/wishlist/handler.js:239-267 | the first cart line of the product gets the moved quantity added and the current price; without one a line with no variants is appended |
| WishlistHandler.DroppedFromWishlist | backend/services/wishlist/handler.js:272-275 | dropping the product from the wishlist neither adds nor removes a wishlist |
| WishlistHandler.MoveToCartStep | backend/services/wishlist/handler.js:184-293 | `moveToCart` on the store: a missing or malformed id (400), no such product (404), an inactive one (400), too little unreserved stock (400 with the counts), each changing nothing; otherwise the line goes into the cart and the product leaves the wishlist |
| WishlistHandler.MoveToCart | backend/services/wishlist/handler.js:184-293 | the handler's reply and new store are those of the specification function, and the store stays consistent |
| WishlistHandler.MoveLine | backend/services/wishlist/handler.js:230-275 | once stock is checked, the move step's reply and store are those of the specification function |
| WishlistHandler.PutOnLine | backend/services/wishlist/handler.js:239-267 | the cart object's lines become the moved lines and nothing else changes |
| WishlistHandler.DropFromWishlist | backend/services/wishlist/handler.js:272-275 | only the wishlists change, as the specification function says |
| WishlistHandler.MoveToCartPreservesValidity | backend/services/wishlist/handler.js:184-293 | moving to the cart keeps the store consistent |
| WishlistHandler.MoveToCartSucceedsIff | backend/services/wishlist/handler.js:192-269 | a move succeeds exactly for a given, well-formed id of an active product when the stock left after reservations covers the quantity (1 by default) and the resulting cart line holds at least one unit; a refusal changes nothing |
| WishlistHandler.MoveToCartEffect | backend/services/wishlist/handler.js:239-275 | a successful move changes only the caller's cart, whose lines become the moved lines, and the caller's wishlist, which no longer lists the product |
| WishlistHandler.MoveLineEffect | backend/services/wishlist/handler.js:230-275 | once stock is checked, a successful move changes only the caller's cart, whose lines become the moved lines, and the caller's wishlist, which no longer lists the product |
| WishlistHandler.StoreMoved | backend/services/wishlist/handler.js:269-275 | the writes put the saved cart in its place or add it, drop the product from the caller's wishlist when there is one, and touch nothing else |
| WishlistHandler.ClearWishlistStep | backend/services/wishlist/handler.js:296-313 | `clearWishlist` on the store: no wishlist is 404; otherwise it is saved empty |
| WishlistHandler.ClearWishlist | backend/services/wishlist/handler.js:296-313 | the handler's reply and new store are those of the specification function, and the store stays consistent |
| WishlistHandler.ClearWishlistEmpties | backend/services/wishlist/handler.js:301-306 | clearing succeeds exactly when the caller has a wishlist, leaves it empty with a count of 0, and clearing again changes nothing |
| OrdersHandler.Adjusted | backend/services/orders/handler.js:104-109 | the inventory updates touch no product set: every product stays, none is added |
| OrdersHandler.AdjustedQuantity | backend/services/orders/handler.js:104-109 | each product's stock moves by exactly the quantity ordered of it, down for a sale and up for a restock, and nothing else about it changes |
| OrdersHandler.RestockUndoesSale | backend/services/orders/handler.js:322-327 | restocking an order's lines after selling them restores every product exactly |
| OrdersHandler.AdjustInventory | backend/services/orders/handler.js:104-109 | the `$inc` loop leaves the products of the specification function and changes nothing else |
| OrdersHandler.LineProblem | backend/services/orders/handler.js:55-61 | a cart line passes exactly when its product exists, is active and has at least the line's quantity in stock |
| OrdersHandler.OrderLineOf | backend/services/orders/handler.js:63-73 | an order line copies the cart line's product, quantity and variants and takes the product's name and price |
| OrdersHandler.OrderLinePrice | backend/services/orders/handler.js:42-63 | the price an order line records is the product's list price: the populated product has no stored `discountedPrice`, so the fallback to `price` always applies |
| OrdersHandler.CheckLinesSpec | backend/services/orders/handler.js:52-76 | the loop prices the cart exactly when every line passes, one order line per cart line in order; otherwise it answers with the message of the first line that fails |
| OrdersHandler.CheckLinesKeepsFailure | backend/services/orders/handler.js:52-57 | once a line fails, later lines do not change the answer |
| OrdersHandler.OrderedQuantityOfLines | backend/services/orders/handler.js:66-73 | the order lines hold the same quantity of each product as the cart lines they come from |
| OrdersHandler.OrderSummary | backend/services/orders/handler.js:78-93 | no discount; the total is subtotal plus tax plus shipping; shipping is free exactly above 100; the total lies between the subtotal and 1.1 times it plus 10 |
| OrdersHandler.PriceLines | backend/services/orders/handler.js:49-76 | the loop returns the first line's refusal or the priced lines and their subtotal, as the specification function says |
| OrdersHandler.CreateOrderStep | backend/services/orders/handler.js:30-121 | `createOrder` on the store: the required shipping address, an empty or missing cart (400), the first line that fails the stock and status check (400 with its message), the schema, a clashing order number (duplicate key), each changing nothing; otherwise the order is appended with its number, the stock is taken and the cart emptied |
| OrdersHandler.CreateOrder | backend/services/orders/handler.js:30-121 | the handler's reply and new store are those of the specification function, and the store stays consistent |
| OrdersHandler.CreateOrderPreservesValidity | backend/services/orders/handler.js:30-121 | placing an order keeps the store consistent |
| OrdersHandler.CreateOrderOk | backend/services/orders/handler.js:36-112 | a placed order had a shipping address and a non-empty cart whose lines all passed; the new store is exactly: stock lowered by the lines, that cart emptied, and the validated order with its order number appended |
| OrdersHandler.CreateOrderEffect | backend/services/orders/handler.js:36-112 | a refusal changes nothing; a placed order had a shipping address and a non-empty cart of the caller whose every line passed; the caller's cart is emptied, no cart is added or removed, and no other cart or wishlist changes |
| OrdersHandler.CreateOrderAppendsOrder | backend/services/orders/handler.js:84-101 | the order placed is appended after the stored ones, pending, with a pending payment, no history, its generated number, the caller as owner, the shipping address and the summary of its own lines |
| OrdersHandler.CreateOrderCopiesLines | backend/services/orders/handler.js:52-73 | the placed order has one line per cart line, in order, with that line's product, quantity and variants and the product's list price |
| OrdersHandler.CreateOrderPlaced | backend/services/orders/handler.js:36-112 | once the address, the cart, every line, the schema and the number's uniqueness have passed, the step answers 201 and writes exactly: the stock lowered by the lines, the cart emptied and the numbered order appended |
| OrdersHandler.CommitOrder | backend/services/orders/handler.js:84-112 | the writes store the order, take its lines from stock and save the emptied cart, and touch nothing else |
| OrdersHandler.CreateOrderTakesStock | backend/services/orders/handler.js:103-109 | placing an order lowers each product's stock by exactly the quantity the caller's cart held of it |
| OrdersHandler.CreateOrderRefusals | backend/services/orders/handler.js:36-61 | no shipping address fails the required-field check; no cart or an empty one gets 400 "Cart is empty"; otherwise an unavailable line gets 400 with the first failing line's message |
| OrdersHandler.PerLineCheckCanOversell | backend/services/orders/handler.js:52-109 | two lines of the same product in different variants each pass a stock of 1, and the order leaves the stock at -1 |
| OrdersHandler.OrdersTarget | backend/services/orders/handler.js:131-137 | an admin may list anyone's orders and a user only their own; another user's id is refused; no id means the caller |
| OrdersHandler.OrdersOf | backend/services/orders/handler.js:150-154 | the filter keeps exactly the target's orders, with the given status when one is given |
| OrdersHandler.OrdersOfCounts | backend/services/orders/handler.js:150-154 | the selection keeps every copy of a selected order and nothing else, so its length is the count `countDocuments` reports |
| OrdersHandler.OrdersOfConcat | backend/services/orders/handler.js:150-154 | the filter works order by order, so the selected orders keep their stored order |
| OrdersHandler.OrderSortObject | backend/services/orders/handler.js:157-162 | the sort object keeps all the parameter says: a leading "-" means descending on the rest, and writing it back gives the parameter |
| OrdersHandler.Insert | backend/services/orders/handler.js:167-168 | inserting an order adds exactly that order to the listing |
| OrdersHandler.InsertSorted | backend/services/orders/handler.js:167-168 | inserting into a sorted listing keeps it sorted |
| OrdersHandler.SortedCons | backend/services/orders/handler.js:167-168 | an order that may precede every order of a sorted listing may head it |
| OrdersHandler.Sorted | backend/services/orders/handler.js:167-168 | `.sort(sortObject)` gives a permutation of the orders in which each is ordered before every later one by the sort key and direction |
| OrdersHandler.GetOrdersResult | backend/services/orders/handler.js:124-197 | `getOrders`: another user's id from a non-admin is 403; an admin's `userId` that does not cast throws the CastError (answered 400); otherwise the target's orders, with the status when one is given, sorted, one page of them, with the page figures of all of them |
| OrdersHandler.GetOrdersShowsOnlyTheTarget | backend/services/orders/handler.js:124-197 | the listing is refused exactly for another user's id from a non-admin (403 "Access denied") or an admin's `userId` that does not cast (the CastError `Database.CastFailure`); a page holds at most `limit` orders of the target only, with the status asked for, in the order `sort` asks for; the total counts all the target's matching orders, and a page is non-empty exactly when it is within the page count |
| OrdersHandler.PageSorted | backend/services/orders/handler.js:167-170 | a page cut from a sorted listing is sorted |
| OrdersHandler.FirstPageFirst | backend/services/orders/handler.js:167-170 | every order on the first page of a sorted listing may precede every order the page leaves out |
| OrdersHandler.GetOrdersNewestFirst | backend/services/orders/handler.js:143-172 | with the default sort, no matching order left off the first page was created after one on it |
| OrdersHandler.Patched | backend/services/orders/handler.js:261-264 | `Object.assign` takes each tracking field the patch gives and keeps the others |
| OrdersHandler.PatchedIdempotent | backend/services/orders/handler.js:261-264 | applying the same tracking patch twice is applying it once, and an empty patch changes nothing |
| OrdersHandler.UpdateOrderStatusStep | backend/services/orders/handler.js:236-283 | `updateOrderStatus` on the store: not an admin, no status, an unknown status (400), an id Mongoose cannot cast (CastError), no such order (404), each changing nothing; otherwise the status is set with a history entry and the tracking patched |
| OrdersHandler.UpdateOrderStatus | backend/services/orders/handler.js:236-283 | the handler's reply and new store are those of `UpdateOrderStatusStep`, which answers an uncastable id with the CastError, and the store stays consistent |
| OrdersHandler.UpdateOrderStatusEffect | backend/services/orders/handler.js:239-274 | an update succeeds exactly for an admin, a known status and a castable id of an existing order (an uncastable id throws the CastError); it sets that order's status and appends one history entry; the stock never changes, since the restock guard reads the status just written; a refusal changes nothing |
| OrdersHandler.CancelOrderStep | backend/services/orders/handler.js:286-334 | `cancelOrder` on the store: an id Mongoose cannot cast (CastError), no such order (404), someone else's order for a customer (403), a status past confirmed (400), each changing nothing; otherwise the order is cancelled with the reason and its lines go back into stock |
| OrdersHandler.CancelOrder | backend/services/orders/handler.js:286-334 | the handler's reply and new store are those of `CancelOrderStep`, which answers an uncastable id with the CastError, and the store stays consistent |
| OrdersHandler.CancelOrderEffect | backend/services/orders/handler.js:295-327 | an id Mongoose cannot cast throws the CastError; a cancel succeeds exactly for a castable id of an existing order of the caller, or any order for an admin, that is pending or confirmed; it then cancels it with one history entry and a cancellation by the caller, and puts each product's ordered quantity back in stock; a refusal changes nothing |
| OrdersHandler.CancelTwiceRefused | backend/services/orders/handler.js:305-309 | a cancelled order cannot be cancelled again, and the second attempt changes nothing |
| OrdersHandler.CreateThenCancelRestoresStock | backend/services/orders/handler.js:103-327 | cancelling an order just placed puts back exactly the stock the order took |
| OrdersHandler.CancelNewestRestocks | backend/services/orders/handler.js:295-327 | the caller's own pending order, stored last under an id no other order has, can be cancelled, and the cancellation puts its lines back in stock |
| OrderModel.ParseStatus | backend/models/Order.js:122 | a status string is accepted exactly when it names one of the seven statuses, and then it names the one returned |
| OrderModel.ParseStatusName | backend/models/Order.js:122 | every status's own name parses back to it |
| OrderModel.ValidateOrder | backend/models/Order.js:1-150 | an order passes the schema exactly when its lines, shipping address and payment method are valid; otherwise it gets a ValidationError |
| OrderModel.RandomPart | backend/models/Order.js:173 | `Math.floor(Math.random() * 1000)` is the whole number just below the scaled random value, below 1000 |
| OrderModel.SuffixDigits | backend/models/Order.js:173 | the random part padded to three characters is three digits that read back as the number |
| OrderModel.OrderNumberInjective | backend/models/Order.js:170-174 | two order numbers are equal only for the same time stamp and the same random part |
| OrderModel.OrderNumber | backend/models/Order.js:171-173 | the number the pre-save hook gives: "ORD-", the timestamp, a dash and the random part padded to three digits |
| OrderModel.OrderNumberShape | backend/models/Order.js:172-174 | an order number starts with "ORD-" and ends in a dash and three digits reading as the random part |
| OrderModel.SubtotalAppend | backend/models/Order.js:197 | the subtotal of a concatenation is the sum of the subtotals |
| OrderModel.SubtotalNonNegative | backend/models/Order.js:197 | lines with non-negative prices and quantities have a non-negative subtotal |
| OrderModel.WithStatus | backend/models/Order.js:180-192 | `updateStatus` sets the status, appends one history entry with the time and note, stamps the delivery time only for "delivered", and changes nothing else |
| OrderModel.AnyTransitionAllowed | backend/models/Order.js:180-192 | any status may follow any other: a valid order stays valid whatever status it is given |
| OrderModel.StatusTrail | backend/models/Order.js:180-192 | successive status updates keep the history and append one entry per update in order, ending in the last status |
| OrderModel.Order.Load | backend/models/Order.js:1-168 | an order object holds exactly the stored document |
| OrderModel.Order.Save | backend/models/Order.js:170-177 | `save` reports the validation error and changes nothing, or keeps the document and gives it an order number when it has none |
| OrderModel.Order.UpdateStatus | backend/models/Order.js:180-192 | `updateStatus` applies the status change and saves: the result is the validation of the changed order; a numbered order, or one that fails validation, is left exactly as changed; an unnumbered one that passes is also given its number |
| OrderModel.Order.CalculateTotal | backend/models/Order.js:196-201 | `calculateTotal` writes the subtotal of the lines and a total of subtotal plus tax plus shipping minus discount, changing nothing else |
| OrderStatusService.Rank | backend/services/orderStatusService.js:59-67 | the position of an in-progress or delivered status along the progression, 4 exactly for delivered |
| OrderStatusService.MinutesElapsed | backend/services/orderStatusService.js:54 | `Math.floor((now - createdAt) / 60000)`: the whole minutes elapsed, rounding down also for a negative difference |
| OrderStatusService.NextStatus | backend/services/orderStatusService.js:56-67 | a next status exists only for an in-progress order and differs from its current one |
| OrderStatusService.NextStatusIff | backend/services/orderStatusService.js:59-67 | an order moves exactly when it is in progress and its age reaches the threshold of its status (2, 5, 8, 12 minutes), and then by one step |
| OrderStatusService.NextStatusMonotone | backend/services/orderStatusService.js:59-67 | an order that is due stays due, towards the same status, at every later time |
| OrderStatusService.Advanced | backend/services/orderStatusService.js:52-77 | one pass over one order: the status `NextStatus` gives for its age, with a history entry, or the order unchanged |
| OrderStatusService.AdvancedOneStep | backend/services/orderStatusService.js:52-77 | one run leaves an order alone or moves it one step with one history entry noted "Automatic status progression", changing nothing else; orders not in progress are never touched |
| OrderStatusService.AdvancedStored | backend/services/orderStatusService.js:69-71 | a progressed order stays valid, with the same id and order number |
| OrderStatusService.Progressed | backend/services/orderStatusService.js:46-78 | one run treats every order independently, in place |
| OrderStatusService.ProgressedStored | backend/services/orderStatusService.js:46-78 | a run keeps the stored orders consistent |
| OrderStatusService.FourRunsDeliver | backend/services/orderStatusService.js:59-67 | a pending order at least 12 minutes old is delivered after four runs, with four history entries and the delivery time of the last run |
| OrderStatusService.Promote | backend/services/orderStatusService.js:56-77 | the per-order step computes the progressed order of the specification function |
| OrderStatusService.UpdateOrderStatuses | backend/services/orderStatusService.js:39-88 | a run replaces the orders by their progressed versions, changes nothing else and keeps the store consistent |
| OrderStatusService.StatusService.constructor | backend/services/orderStatusService.js:4-7 | a new service is stopped and has no timer |
| OrderStatusService.StatusService.Start | backend/services/orderStatusService.js:10-26 | starting a running service changes nothing; otherwise it runs once immediately, records the timer and is running |
| OrderStatusService.StatusService.Stop | backend/services/orderStatusService.js:29-36 | stopping leaves no timer and a stopped service |
| OrderStatusService.StatusService.Status | backend/services/orderStatusService.js:91-96 | `getStatus` reports the running flag and the timer |
| Database.CastFailure | backend/utils/response.js:34-36 | the CastError `findById` throws on an id Mongoose cannot cast is answered 400 "Invalid ID format" with no details, in production too |
| Database.FindCart | backend/services/cart/handler.js:216 | `Cart.findOne({ user })`: the first cart of the user, or none exactly when the user has none |
| Database.PutCart | backend/services/cart/handler.js:186 | saving a loaded cart replaces it in place; saving a new one appends it |
| Database.PutCartStored | backend/services/cart/handler.js:186 | storing a consistent cart keeps the stored carts consistent |
| Database.FindCartAfterPut | backend/services/cart/handler.js:143-186 | after saving the user's cart, lookup finds it where it was stored |
| Database.FindOrder | backend/services/orders/handler.js:252 | `Order.findById`: an order with that id, or none exactly when no order has it |
| Database.FindOrderNumber | backend/models/Order.js:34-38 | the order carrying an order number, or none exactly when no order carries it |
| Database.RequireAdmin | backend/utils/auth.js:58-66 | the guard passes exactly for an admin, and otherwise throws "Admin access required" |
| Database.AdminRequiredIsForbidden | backend/utils/response.js:21-75 | a non-admin's "Admin access required" error is answered with status 403 |
| Database.PutOrderStored | backend/models/Order.js:170-177 | replacing a stored order by a valid one with the same id and number keeps the orders consistent |
| Database.Reserved | backend/services/cart/handler.js:123-132 | the reservation count: over all carts, the quantity of each cart's first line of the product |
| Database.CountReserved | backend/services/cart/handler.js:123-132 | the `forEach` loop sums, over the carts, the quantity of each cart's first line of the product |
| Database.LinesQuantityAppend | backend/services/cart/handler.js:123-132 | the units of a product in a concatenation of lines are the sum over the parts |
| Database.FirstLineAtMostLines | backend/services/cart/handler.js:128 | the first line of a product holds at most all the units the cart holds of it |
| Database.LinesNonNegative | backend/models/Cart.js:9-13 | lines of at least one unit hold a non-negative number of units of any product |
| Database.ReservedAtMostHeld | backend/services/cart/handler.js:123-132 | the reserved count lies between 0 and the units the carts actually hold |
| Database.SecondVariantIsNotReserved | backend/services/cart/handler.js:128 | a cart holding one unit in each of two variants reserves 1 unit while holding 2 |
| Database.ReservedUpdate | backend/services/cart/handler.js:123-132 | replacing one cart shifts the reserved count by the change of that cart's first line |
| Database.ReservedAppend | backend/services/cart/handler.js:123-132 | the reserved count of two groups of carts is the sum of theirs |
| Database.ReservedPut | backend/services/cart/handler.js:123-132 | saving a cart shifts the reserved count by that cart's first-line change |
| Database.AppendOrderStored | backend/models/Order.js:34-36 | appending a valid, numbered order whose id and number no stored order has keeps every stored order valid and numbered, with ids and numbers unique |
| Common.Max0 | backend/services/cart/handler.js:137 | `Math.max(0, x)`: not negative, at least `x`, and either 0 or `x` |
| Common.Round | backend/services/payments/handler.js:56 | `Math.round` gives the integer within half of `x`, halves rounding up |
| Common.DigitValue | backend/models/Order.js:173 | a digit's value reads back as that digit |
| Common.NatToStringDigits | backend/models/Order.js:173 | `toString` of a whole number is a non-empty string of digits, one digit exactly below 10 |
| Common.ParseNatToString | backend/models/Order.js:173 | the decimal string of a number reads back as the number |
| Common.PadStart | backend/models/Order.js:173 | `padStart(width, '0')` is the string behind enough zeros to reach the width, and unchanged when already that long |
| Common.ContainsLength | backend/services/products/handler.js:122-123 | a string contains only strings no longer than itself, and of equal length only itself |
| Common.Lower | backend/services/products/handler.js:120-123 | `toLowerCase` maps each character, upper-case ASCII letters to lower case and every other character to itself |
| Common.Trim | backend/services/products/handler.js:449 | `trim` gives a slice of the input with only white space before and after it, itself neither starting nor ending with white space |
| Common.TrimOfTail | backend/services/products/handler.js:449 | dropping a leading white-space character does not change what `trim` may give |
| Common.TrimOfFront | backend/services/products/handler.js:449 | dropping a trailing white-space character does not change what `trim` may give |
| Ranking.OfRankRanks | backend/services/products/handler.js:121-138 | picking the elements of one rank keeps only elements of that rank |
| Ranking.OfRankConcat | backend/services/products/handler.js:121-138 | picking by rank works element by element |
| Ranking.OfRankSplit | backend/services/products/handler.js:121-138 | the three rank groups together hold exactly the elements of the input |
| Ranking.OfRankOfRank | backend/services/products/handler.js:121-138 | picking a rank from a rank group gives the group again for the same rank and nothing for another |
| Ranking.GroupedByRankIsStableSort | backend/services/products/handler.js:121-138 | grouping by rank is a stable sort: ranks ascend, the elements are a permutation of the input and each rank keeps its input order |
| Ranking.GroupedByRankPermutes | backend/services/products/handler.js:121-138 | grouping by rank is a permutation of the input |
| Ranking.GroupedByRankMembers | backend/services/products/handler.js:121-138 | every grouped element comes from the input |
| Ranking.GroupedKeepsOrder | backend/services/products/handler.js:121-138 | within each rank, grouping keeps the input order |
| Ranking.OfRankAbsent | backend/services/products/handler.js:121-138 | a rank no element has gives an empty group |
| CartSlice.MatchIndex | frontend/src/store/slices/cartSlice.js:230-234 | `findIndex` on product id and variants: the first matching line, or none exactly when no line matches |
| CartSlice.SumsAppend | frontend/src/store/slices/cartSlice.js:244-245 | the totals of a concatenation are the sums of the parts' totals |
| CartSlice.SumsOne | frontend/src/store/slices/cartSlice.js:244-245 | one line's totals are its quantity and its price times its quantity |
| CartSlice.UpdatedLinesTotals | frontend/src/store/slices/cartSlice.js:236-245 | after an update of a matching line, the item count and the price move by exactly that line's change, a removal counting as quantity 0 |
| CartSlice.RemoveLineTotals | frontend/src/store/slices/cartSlice.js:238 | splicing out one line lowers the totals by exactly that line's |
| CartSlice.SetLineTotals | frontend/src/store/slices/cartSlice.js:240 | setting one line's quantity moves the totals by exactly that line's change |
| CartSlice.UpdatedLines | frontend/src/store/slices/cartSlice.js:230-241 | `updateLocalCartItem`'s edit: no match leaves the lines; a quantity of 0 or less splices out the first match; otherwise the first match gets the quantity |
| CartSlice.UpdatedLinesEffect | frontend/src/store/slices/cartSlice.js:230-241 | with no matching line nothing changes; a quantity of 0 or less splices out the first match and keeps the other lines in order; otherwise only that line's quantity is set |
| CartSlice.SetQuantityIdempotent | frontend/src/store/slices/cartSlice.js:236-241 | setting the same positive quantity twice is setting it once |
| CartSlice.Kept | frontend/src/store/slices/cartSlice.js:250-255 | `removeLocalCartItem`'s filter on product id and variants |
| CartSlice.KeptMembers | frontend/src/store/slices/cartSlice.js:250-255 | the filter keeps exactly the lines that do not match |
| CartSlice.KeptConcat | frontend/src/store/slices/cartSlice.js:250-255 | filtering works line by line, so the kept lines stay in order |
| CartSlice.KeptIdempotent | frontend/src/store/slices/cartSlice.js:250-255 | removing an absent line changes nothing, and removing twice is removing once |
| CartSlice.UpdateToZeroRemoves | frontend/src/store/slices/cartSlice.js:236-255 | when at most one line matches, updating it to 0 leaves the same lines as removing it |
| CartSlice.CartState.constructor | frontend/src/store/slices/cartSlice.js:198-211 | the initial state has no lines, zero totals, the initial summary, no flags, no error and no update time |
| CartSlice.CartState.ResetCart | frontend/src/store/slices/cartSlice.js:221-227 | `resetCart` empties the lines, zeroes the totals, restores the initial summary, clears the update time and keeps the flags and the error |
| CartSlice.CartState.ClearCartFulfilled | frontend/src/store/slices/cartSlice.js:337-344 | a fulfilled `clearCart` empties the lines, zeroes the totals, clears the update time, the updating flag and the error, and keeps the summary |
| CartSlice.CartState.FetchCartPending | frontend/src/store/slices/cartSlice.js:265-268 | `fetchCart.pending` sets the loading flag and clears the error; nothing else changes |
| CartSlice.CartState.FetchCartFulfilled | frontend/src/store/slices/cartSlice.js:269-276 | `fetchCart.fulfilled` takes the payload's lines, item count and price (empty and zero when absent) and update time, clears the loading flag and the error, and keeps the summary and the updating flag; a payload whose totals are its lines' leaves the totals those of the lines |
| CartSlice.CartState.FetchCartRejected | frontend/src/store/slices/cartSlice.js:277-280 | `fetchCart.rejected` clears the loading flag and sets the error to the rejection's value; nothing else changes |
| CartSlice.CartState.UpdatePending | frontend/src/store/slices/cartSlice.js:282-285 | the pending case of `addToCart`, `updateCartItem`, `removeFromCart` and `clearCart` sets the updating flag and clears the error; nothing else changes |
| CartSlice.CartState.UpdateFulfilled | frontend/src/store/slices/cartSlice.js:286-293 | the fulfilled case of `addToCart`, `updateCartItem` and `removeFromCart` takes the payload's lines, totals and update time, clears the updating flag and the error, and keeps the summary and the loading flag; a payload whose totals are its lines' leaves the totals those of the lines |
| CartSlice.CartState.UpdateRejected | frontend/src/store/slices/cartSlice.js:294-297 | the rejected case of the four updating requests clears the updating flag and sets the error; nothing else changes |
| CartSlice.CartState.SyncCartFulfilled | frontend/src/store/slices/cartSlice.js:350-355 | `syncCart.fulfilled` takes the payload's lines, totals and update time and leaves the flags, the error and the summary alone; a payload whose totals are its lines' leaves the totals those of the lines |
| CartSlice.CartState.FetchCartSummaryFulfilled | frontend/src/store/slices/cartSlice.js:357-359 | `fetchCartSummary.fulfilled` replaces the summary and nothing else |
| CartSlice.LocalLinesSums | backend/models/Cart.js:64-66 | the client's sums over the lines of a stored cart are the item count and the price the server's pre-save hook computes |
| CartSlice.StoredCartPayloadTotalled | backend/models/Cart.js:64-66 | a stored cart, whose totals the hook keeps in step with its lines, reaches the client as a payload whose totals are its lines' |
| CartSlice.CartState.UpdateLocalCartItem | frontend/src/store/slices/cartSlice.js:228-247 | the lines become the updated lines; with no match the totals are not touched, after a match they are recomputed from the lines; nothing else changes |
| CartSlice.CartState.RemoveLocalCartItem | frontend/src/store/slices/cartSlice.js:248-260 | the lines become the kept lines and the totals are recomputed from them; nothing else changes |
| CartSlice.FindIndex | frontend/src/store/slices/cartSlice.js:230-234 | the loop returns -1 exactly when no line matches, and otherwise the first matching index |
| CartSlice.MatchIndexIsFirst | frontend/src/store/slices/cartSlice.js:230-234 | a matching line with no match before it is the one `findIndex` returns |
| CartSlice.SumQuantities | frontend/src/store/slices/cartSlice.js:244 | the `reduce` loop computes the sum of the quantities |
| CartSlice.SumPrices | frontend/src/store/slices/cartSlice.js:245 | the `reduce` loop computes the sum of price times quantity |
| CartSlice.EditLines | frontend/src/store/slices/cartSlice.js:230-245 | the reducer's steps find a match exactly when `findIndex` does, leave the updated lines, and after a match sum their totals |
| ToastSlice.NewToast | frontend/src/store/slices/toastSlice.js:9-17 | the kind falls back to "info" when empty, the duration to 3000 only when absent, the id is clock plus random and the time stamp the clock; title and message are copied |
| ToastSlice.Newest | frontend/src/store/slices/toastSlice.js:18-23 | the newest `n` toasts are at most `n` and at most all of them |
| ToastSlice.Enqueued | frontend/src/store/slices/toastSlice.js:18-23 | `addToast`: push the new toast, then drop the oldest when more than five are held |
| ToastSlice.EnqueuedBounded | frontend/src/store/slices/toastSlice.js:18-23 | from at most five toasts, adding keeps at most five with the new one last, dropping only the oldest and only when five were shown |
| ToastSlice.EnqueuedAllNewest | frontend/src/store/slices/toastSlice.js:18-23 | any series of additions leaves exactly the five newest toasts, oldest first |
| ToastSlice.WithoutToastMembers | frontend/src/store/slices/toastSlice.js:25-27 | `removeToast` keeps exactly the toasts with another id |
| ToastSlice.WithoutAbsentToast | frontend/src/store/slices/toastSlice.js:25-27 | removing an id no toast has changes nothing |
| ToastSlice.ToastState.constructor | frontend/src/store/slices/toastSlice.js:3-5 | no toast is shown at first |
| ToastSlice.ToastState.AddToast | frontend/src/store/slices/toastSlice.js:9-24 | `addToast` pushes the new toast and shifts once past five, keeping at most five |
| ToastSlice.ToastState.RemoveToast | frontend/src/store/slices/toastSlice.js:25-27 | `removeToast` leaves the filtered toasts and keeps at most five |
| ToastSlice.ToastState.ClearAllToasts | frontend/src/store/slices/toastSlice.js:28-30 | `clearAllToasts` leaves no toast |
| ToastSlice.KindName | frontend/src/store/slices/toastSlice.js:37-51 | each helper sends a non-empty type, "error" for failures |
| ToastSlice.DefaultDuration | frontend/src/store/slices/toastSlice.js:37-51 | each helper's default duration is positive |
| ToastSlice.ShowToast | frontend/src/store/slices/toastSlice.js:37-51 | a helper sends its type and always a duration: the caller's, or its default when absent |
| ToastSlice.ShownToastDuration | frontend/src/store/slices/toastSlice.js:37-51 | a toast shown by a helper keeps the helper's type; without a duration an error lasts 5000 ms, a warning 4000, success and info 3000; a given duration, 0 included, is kept |
| UiSlice.InitialModals | frontend/src/store/slices/uiSlice.js:9-14 | the four modals exist and all start closed |
| UiSlice.IndexOf | frontend/src/store/slices/uiSlice.js:172 | `indexOf`: -1 exactly when the id is not selected, otherwise the first position holding it |
| UiSlice.Deselected | frontend/src/store/slices/uiSlice.js:157-160 | `deselectItem`: filter every occurrence of the id out |
| UiSlice.DeselectedMembers | frontend/src/store/slices/uiSlice.js:157-160 | `deselectItem` removes every occurrence of the id and keeps every other id |
| UiSlice.DeselectedNoDuplicates | frontend/src/store/slices/uiSlice.js:157-160 | deselecting keeps a selection without repeats free of repeats |
| UiSlice.Selected | frontend/src/store/slices/uiSlice.js:150-155 | `selectItem`: append the id unless it is already selected |
| UiSlice.SelectedEffect | frontend/src/store/slices/uiSlice.js:150-155 | `selectItem` adds the id only when absent, so it is selected afterwards, nothing else is added, and no repeat is introduced |
| UiSlice.Toggled | frontend/src/store/slices/uiSlice.js:170-179 | `toggleItemSelection`: splice out the first occurrence of a selected id, otherwise append it |
| UiSlice.ToggledEffect | frontend/src/store/slices/uiSlice.js:170-179 | on a selection without repeats, toggling flips whether the id is selected, keeps every other id and introduces no repeat |
| UiSlice.ToggleTwice | frontend/src/store/slices/uiSlice.js:170-179 | toggling the same id twice restores the same set of selected ids |
| UiSlice.ToggleTwiceUnselected | frontend/src/store/slices/uiSlice.js:170-179 | toggling an unselected id twice restores the selection exactly, order included |
| UiSlice.Stored | frontend/src/store/slices/uiSlice.js:30 | `localStorage.getItem(key) \|\| fallback`: a stored non-empty value wins, otherwise the fallback |
| UiSlice.AllClosed | frontend/src/store/slices/uiSlice.js:76-80 | every modal key stays and every modal is closed |
| UiSlice.Reset | frontend/src/store/slices/uiSlice.js:217-227 | `resetUI` restores the loading, modal, notification, menu, search, filter, selection and error fields and keeps theme, view mode, language, page, search query and sidebar |
| UiSlice.ResetIdempotent | frontend/src/store/slices/uiSlice.js:217-227 | resetting twice is resetting once, and the result depends only on the fields `resetUI` keeps |
| UiSlice.ModalRoundTrip | frontend/src/store/slices/uiSlice.js:62-74 | opening a closed modal and closing it again restores the modals, and an unknown name changes nothing either way |
| UiSlice.UiState.constructor | frontend/src/store/slices/uiSlice.js:3-49 | the initial state, with theme, view mode and language read from local storage with their fallbacks "light", "grid" and "en" |
| UiSlice.UiState.OpenModal | frontend/src/store/slices/uiSlice.js:62-67 | `openModal` opens the named modal only when that key exists, and changes nothing else |
| UiSlice.UiState.CloseModal | frontend/src/store/slices/uiSlice.js:69-74 | `closeModal` closes the named modal only when that key exists, and changes nothing else |
| UiSlice.UiState.CloseAllModals | frontend/src/store/slices/uiSlice.js:76-80 | every modal closed, the same modals present, nothing else changed |
| UiSlice.CloseEach | frontend/src/store/slices/uiSlice.js:76-80 | the loop over the keys leaves the same keys, each mapped to false |
| UiSlice.UiState.ToggleMobileMenu | frontend/src/store/slices/uiSlice.js:103-105 | only the mobile menu flag flips |
| UiSlice.UiState.CloseMobileMenu | frontend/src/store/slices/uiSlice.js:107-109 | only the mobile menu flag changes, to closed, so closing twice is closing once |
| UiSlice.UiState.ToggleSearchModal | frontend/src/store/slices/uiSlice.js:116-118 | only the search modal flag flips |
| UiSlice.UiState.CloseSearchModal | frontend/src/store/slices/uiSlice.js:120-122 | only the search modal flag changes, to closed |
| UiSlice.UiState.ToggleFilters | frontend/src/store/slices/uiSlice.js:125-127 | only the filters flag flips |
| UiSlice.UiState.CloseFilters | frontend/src/store/slices/uiSlice.js:129-131 | only the filters flag changes, to closed |
| UiSlice.UiState.ToggleSidebar | frontend/src/store/slices/uiSlice.js:193-195 | only the sidebar flag flips |
| UiSlice.UiState.SelectItem | frontend/src/store/slices/uiSlice.js:150-155 | only the selection changes, as `selectItem` specifies |
| UiSlice.UiState.DeselectItem | frontend/src/store/slices/uiSlice.js:157-160 | the filter loop leaves the deselected ids and changes nothing else |
| UiSlice.UiState.SelectAllItems | frontend/src/store/slices/uiSlice.js:162-164 | the selection becomes the payload and nothing else changes |
| UiSlice.UiState.ClearSelection | frontend/src/store/slices/uiSlice.js:166-168 | the selection becomes empty and nothing else changes |
| UiSlice.UiState.ToggleItemSelection | frontend/src/store/slices/uiSlice.js:170-179 | `indexOf` then `splice` or `push` leaves the toggled selection and changes nothing else |
| UiSlice.UiState.ResetUI | frontend/src/store/slices/uiSlice.js:217-227 | the new state is the reset of the old one |
| UiSlice.FindId | frontend/src/store/slices/uiSlice.js:172 | the `indexOf` loop returns the position the specification function gives |
| UiSlice.IndexOfIsFirst | frontend/src/store/slices/uiSlice.js:172 | the id's first occurrence is the position `indexOf` returns |

## Left out

- Authentication (JWT checks in `authenticate`, `optionalAuth`): the caller is an input `User`; `requireAdmin`'s role check is modelled.
- Redis: every read misses and writes are no-ops; cache keys are not modelled.
- Stripe: the outcome of each gateway call is an input; the gateway itself, the webhook signature check and the amounts Stripe reports are not modelled.
- Concurrency: each handler is one atomic step; the race between the reservation check and the cart save is not modelled.
- The status service's `setInterval` timer and its logging: `Start` runs one pass and records the timer id it is given; later ticks are further calls of `UpdateOrderStatuses`.
- Mongo query mechanics: the `getProducts` filters, regular expressions and `$text` search are not modelled; the products they select, in the order the database returns them, are an input (`matched`), and the model applies the search ranking and the page cut to that order. `getOrders` sorts on `createdAt` and `orderSummary.total`; a sort on any other field treats all orders as ties, and ties keep stored order, which MongoDB does not promise.
- `populate` projections: only their effect on the discount is modelled (see above).
- ObjectId casting: whether Mongoose can cast an id is an input `validId` (`Database.CastFailure` is the error thrown when it cannot); the handlers answer that CastError with 400 "Invalid ID format" through `errorResponse`; this includes the `userId` an admin passes to `getOrders`, which becomes the filter's `user`. The one exception is the webhook, whose own catch answers 500. `updateCartItem` looks a product up only by the id of a stored cart line, which always casts, so it takes no such input.
- Numbers: prices, totals and amounts (JavaScript doubles) are modelled as exact `real`. Quantities are whole numbers (`int`) in the model: the quantities of cart lines, order lines and wishlist moves, product stock, and the request quantities of `addToCart` and `updateCartItem`. The fractional quantities that the source's `Number` schemas accept (1.5 passes `min: 1`) are not modelled; `Math.round` to cents is modelled exactly (`Common.Round`). `page` and `limit` below 1 and non-numeric query values are not modelled.
- `JSON.stringify` comparison of variant selections is modelled as value equality, so two selections with the same values in a different key order count as equal here.
- Null field values: a field sent as `null` in `updateProduct`, a toast duration of `null`, and a helper called with `null` are not modelled; absent fields are `None`.
- Common.Lower: maps ASCII upper-case letters only, not the full Unicode case mapping of `toLowerCase`.
- `createProduct` copies the whole request body, so a caller can set ratings and reviews; the model takes the body as a product value and does not restrict it.
- An image object without a `url` in `createProduct` is taken as an image with an empty url, which fails validation.
- Endpoints not modelled because they only read and format: `getProducts` facets, `deleteProduct`, `getCategories`, `getBrands`, `searchProducts`, `getCartSummary`, `getOrder`, `getOrderStats`, `testUserOrders`, `getPaymentMethods`; the auth service.
- Client slices: the async thunks (HTTP calls) are not modelled; their pending, fulfilled and rejected reducers are, with the payload an input. Also left out: `clearError` in the cart slice, and the UI setters (`setGlobalLoading`, `setSearchQuery`, `setTheme`, `toggleTheme`, `setCurrentPage`, `setViewMode`, `toggleViewMode`, `setSidebarOpen`, `setGlobalError`, `clearGlobalError`, `setLanguage`), which assign a payload or write local storage; `addNotification`, `removeNotification` and `clearNotifications`.
- PaymentsHandler.LatestPending: among pending orders with the same creation time the first in storage order is taken; MongoDB does not promise that order.
- backend/scripts/*, the React pages and components, backend/index.js and `parseBody` are not part of this model.
- ProductModel.ProductErrors and OrderModel.ValidateOrder: which check fails, and in which order, is modelled; the message text of each ValidationError is the model's own wording, not Mongoose's.
