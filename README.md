# IndustryE storefront — a verified model of its core rules

This project models, in Dafny, the logic at the heart of the IndustryE shoe
storefront: a Spring back end and a React front end. The back end keeps a
per-size inventory ledger for every product, with units on hand and units
reserved by open orders. It also runs the administrator's order and
inventory rules, recomputes a product's average rating when a review is
added, answers the order endpoints, and seeds the catalogue at start-up.
The front end's cart page, cart rows, three-step checkout, order history,
review dialog and review highlight card hold the rest of the decision
logic.

Each source file becomes one Dafny module:

| module | file | source |
|---|---|---|
| `SizeInventory` | inventory.dfy | `ProductSizeInventoryService.java` |
| `Admin` | admin.dfy | `AdminService.java`, `Enum/Status.java` |
| `Reviews` | review_service.dfy | `ReviewService.java` |
| `OrderEndpoints` | order_controller.dfy | `OrderController.java` |
| `Seeding` | data_initializer.dfy | `DataInitializer.java` |
| `Cart` | cart.dfy | `CartPage.jsx` |
| `CartRow` | cart_item.dfy | `CartItem.jsx` |
| `Checkout` | checkout.dfy | `CheckoutPage.jsx` |
| `OrderHistory` | order_history.dfy | `OrderHistoryPage.jsx` |
| `ReviewDialog` | review_modal.dfy | `ReviewModal.jsx` |
| `ReviewHighlight` | review_highlight.dfy | `ReviewHighlightCard.jsx` |

common.dfy holds the shared vocabulary:
- `Outcomes`: the option, result and void-outcome types.
- `JavaInt`: Java's 32-bit `int` with its wrap-around.
- `Text`: the string operations both languages use, such as prefix tests, decimal rendering, `split` and the two `trim`s.

Where the source updates state in place, the model is a class. This covers:
- the inventory service's product ledgers;
- the admin service's orders;
- the review service's repositories;
- the seeder's repositories;
- the cart page's selected and loading sets;
- the cart row's and checkout page's pending confirmations;
- the checkout page's step, form and payment method;
- the order history page's paging, orders and review cache;
- the review dialog's form.

The methods that change a ledger, an order, a rating or the seeded data
are proved against specification functions, and lemmas state what those
functions promise:
- the inventory service's updates against `Reserve`, `Release`,
  `ConfirmSale`, `SetQuantity` and `AddMissingSizes`;
- the administrator's updates against `AdminSetStatus`, `SetStatus` and
  `SetPaymentStatus`;
- the review service's updates against `ReviewsOf`, `AverageWith` and `Mean`;
- the seeder against `AddDemoUsers`, `RatedProduct` and `SampleReviews`;
- order placement, the cart summary, the checkout steps and paging against
  `PlaceOrder`, `SelectedTotal`, `NextStep` and `LoadMore`.

The queries (`GetSizeInventory`, `CheckAvailability`,
`HasAvailableInventory`, `FetchUserOrders`, `CheckProductReview`) and the
handlers that only set fields (the cart row's buttons, the review dialog's
inputs, the confirmation dialogs) state their result and their new state
directly in their `ensures`. Pure logic is written as functions and
lemmas.

Collaborators are parameters of the operation that calls them. These are
HTTP requests, repositories, the token store, `addToCart`, `Date.now()`
and `java.util.Random`. A parameter carries how the call ends: a value,
success, or the exception's message.

Money is an integer number of centavos. Averages are exact reals.

## Model

| member | source | states |
|---|---|---|
| JavaInt.Wrap | backend/src/main/java/com/industryE/ecommerce/service/ProductSizeInventoryService.java:60-62 | a Java `int` result agrees with the exact one when it fits and differs from it by a multiple of 2^32 otherwise |
| JavaInt.Add | backend/src/main/java/com/industryE/ecommerce/service/ProductSizeInventoryService.java:130 | the reserved count grows by exactly the requested amount unless the sum leaves the `int` range |
| JavaInt.Sub | backend/src/main/java/com/industryE/ecommerce/service/ProductSizeInventoryService.java:169-170 | a Java subtraction is exact when the difference fits in an `int` |
| JavaInt.MaxZero | backend/src/main/java/com/industryE/ecommerce/service/ProductSizeInventoryService.java:147 | `Math.max(0, x)` is never negative, never below `x`, and is either 0 or `x` |
| JavaInt.Min | backend/src/main/java/com/industryE/ecommerce/service/ProductSizeInventoryService.java:206 | `Math.min(a, b)` is at most both arguments and is one of them |
| SizeInventory.AvailableIsExact | backend/src/main/java/com/industryE/ecommerce/service/ProductSizeInventoryService.java:60-62 | on a consistent entry (0 <= reserved <= quantity) `getAvailable` is the true difference and is not negative |
| SizeInventory.ReserveSpec | backend/src/main/java/com/industryE/ecommerce/service/ProductSizeInventoryService.java:119-135 | a reserve fails exactly on an unknown size or too little available; on success only that size's `reserved` grows, by the amount, and the ledger stays consistent |
| SizeInventory.ReleaseSpec | backend/src/main/java/com/industryE/ecommerce/service/ProductSizeInventoryService.java:144-150 | a release lowers `reserved` to `max(0, reserved - q)`, never touches `quantity`, ignores an unknown size, and keeps the ledger consistent |
| SizeInventory.ReserveThenReleaseRestores | backend/src/main/java/com/industryE/ecommerce/service/ProductSizeInventoryService.java:105-151 | releasing what was just reserved gives back the original ledger |
| SizeInventory.ConfirmSaleSpec | backend/src/main/java/com/industryE/ecommerce/service/ProductSizeInventoryService.java:161-170 | a sale fails exactly on an unknown size or too few reserved; on success quantity and reserved both drop by the amount, so availability is unchanged |
| SizeInventory.ReserveThenConfirmSells | backend/src/main/java/com/industryE/ecommerce/service/ProductSizeInventoryService.java:105-173 | reserving then confirming the same amount always succeeds and removes it from stock, with reservations back where they were |
| SizeInventory.SetQuantitySpec | backend/src/main/java/com/industryE/ecommerce/service/ProductSizeInventoryService.java:203-209 | setting a size's quantity caps its reservations at the new quantity (a new size starts with none), keeps the ledger consistent, and leaves other sizes alone |
| SizeInventory.AddMissingSizesSpec | backend/src/main/java/com/industryE/ecommerce/service/ProductSizeInventoryService.java:183-187 | initialisation adds `(quantityPerSize, 0)` for exactly the listed sizes not yet present and keeps every existing entry |
| SizeInventory.AddMissingSizesIdempotent | backend/src/main/java/com/industryE/ecommerce/service/ProductSizeInventoryService.java:183-187 | initialising the same sizes twice equals initialising them once |
| SizeInventory.AddMissingSizesWellFormed | backend/src/main/java/com/industryE/ecommerce/service/ProductSizeInventoryService.java:183-187 | with a non-negative quantity per size, initialisation keeps the ledger consistent |
| SizeInventory.NegativeReserveBreaksInvariant | backend/src/main/java/com/industryE/ecommerce/service/ProductSizeInventoryService.java:126-130 | a negative reservation request passes the availability check and drives `reserved` below zero |
| SizeInventory.ProductSizeInventoryService.GetSizeInventory | backend/src/main/java/com/industryE/ecommerce/service/ProductSizeInventoryService.java:72-89 | an unknown product is an error; an unknown size gives nothing; otherwise the size's quantity and reserved count |
| SizeInventory.ProductSizeInventoryService.CheckAvailability | backend/src/main/java/com/industryE/ecommerce/service/ProductSizeInventoryService.java:91-103 | an unknown product is an error, an unknown size is unavailable, and otherwise the answer is whether `getAvailable()`, the 32-bit `quantity - reserved`, covers the request; on a well-formed ledger that is the exact difference |
| SizeInventory.ProductSizeInventoryService.HasAvailableInventory | backend/src/main/java/com/industryE/ecommerce/service/ProductSizeInventoryService.java:215-223 | true exactly when some size has units available |
| SizeInventory.ProductSizeInventoryService.ReserveInventory | backend/src/main/java/com/industryE/ecommerce/service/ProductSizeInventoryService.java:105-137 | the product's ledger becomes the reserved one on success; on any error nothing changes |
| SizeInventory.ProductSizeInventoryService.ReleaseReservedInventory | backend/src/main/java/com/industryE/ecommerce/service/ProductSizeInventoryService.java:139-151 | the product's ledger becomes the released one; an unknown size changes nothing and is not an error |
| SizeInventory.ProductSizeInventoryService.ConfirmSaleOf | backend/src/main/java/com/industryE/ecommerce/service/ProductSizeInventoryService.java:153-173 | the product's ledger becomes the sold one on success; on any error nothing changes |
| SizeInventory.ProductSizeInventoryService.InitializeInventoryForProduct | backend/src/main/java/com/industryE/ecommerce/service/ProductSizeInventoryService.java:175-195 | the loop over the sizes adds only missing sizes; an unknown product is an error naming its id |
| SizeInventory.ProductSizeInventoryService.UpdateInventory | backend/src/main/java/com/industryE/ecommerce/service/ProductSizeInventoryService.java:197-213 | the product's ledger gets the new quantity for the size; an unknown product is an error and changes nothing |
| Admin.CleanSize | backend/src/main/java/com/industryE/ecommerce/service/AdminService.java:96 | a cleaned part has no quotes and only characters of the part |
| Admin.CleanSizes | backend/src/main/java/com/industryE/ecommerce/service/AdminService.java:95-99 | the kept sizes are non-empty, quote-free, no more than the parts, and made of the parts' characters |
| Admin.ParseSizeList | backend/src/main/java/com/industryE/ecommerce/service/AdminService.java:90-99 | only a list written `[...]` yields sizes; each is non-empty with no quote or comma |
| Admin.QuotedParts | backend/src/main/java/com/industryE/ecommerce/service/AdminService.java:92-93 | the JSON array's elements, one per size, each quoted and each after the first preceded by a space |
| Admin.UnquoteQuoted | backend/src/main/java/com/industryE/ecommerce/service/AdminService.java:96 | deleting the quotes of a quoted quote-free size gives the size back |
| Admin.TrimQuoted | backend/src/main/java/com/industryE/ecommerce/service/AdminService.java:96 | trimming drops the single leading space and nothing of the quoted size |
| Admin.CleanQuoted | backend/src/main/java/com/industryE/ecommerce/service/AdminService.java:96 | a quoted plain size, with or without a leading space, cleans back to itself |
| Admin.CleanQuotedParts | backend/src/main/java/com/industryE/ecommerce/service/AdminService.java:95-99 | cleaning the array's elements gives back the plain sizes in order |
| Admin.ParseSizeListRoundTrip | backend/src/main/java/com/industryE/ecommerce/service/AdminService.java:90-99 | parsing a JSON array of plain sizes gives the sizes back, in order |
| Admin.UnbracketedListIgnored | backend/src/main/java/com/industryE/ecommerce/service/AdminService.java:90 | a list not starting with `[` initialises nothing |
| Admin.ZeroSizesSpec | backend/src/main/java/com/industryE/ecommerce/service/AdminService.java:95-99 | after initialisation every listed size holds nothing and reserves nothing, other sizes are untouched, and the ledger stays consistent |
| Admin.IsLowStockSpec | backend/src/main/java/com/industryE/ecommerce/service/AdminService.java:138-142 | a product without sizes is never low on stock; on a consistent ledger it is low exactly when some size has at most five available |
| Admin.NewProductIsLowStock | backend/src/main/java/com/industryE/ecommerce/service/AdminService.java:86-99 | a product created with at least one listed size is reported low on stock |
| Admin.LowStockProducts | backend/src/main/java/com/industryE/ecommerce/service/AdminService.java:130-136 | the list holds exactly the low-stock products' ids and is no longer than the catalogue |
| Admin.LowStockCountMatchesList | backend/src/main/java/com/industryE/ecommerce/service/AdminService.java:130-149 | the dashboard's low-stock count equals the length of the low-stock list |
| Admin.LowStockCountAppend | backend/src/main/java/com/industryE/ecommerce/service/AdminService.java:144-149 | one more product raises the count by one exactly when it is low on stock |
| Admin.ReportedRevenue | backend/src/main/java/com/industryE/ecommerce/service/AdminService.java:52-55 | a missing revenue total is reported as 0 and a present one as itself |
| Admin.ItemResponses | backend/src/main/java/com/industryE/ecommerce/service/AdminService.java:320-334 | one response item per order item, in order, its fields copied and `totalPrice = unitPrice * quantity` |
| Admin.ConvertToOrderResponse | backend/src/main/java/com/industryE/ecommerce/service/AdminService.java:298-337 | the order's id, number, total, status, date, payment method, payment status and shipping fields are copied; items are converted when present and stay missing when absent |
| Admin.LineTotalsSumToItemsValue | backend/src/main/java/com/industryE/ecommerce/service/AdminService.java:320-334 | the response's line totals add up to the value of the ordered items |
| Admin.AdminSetStatusSpec | backend/src/main/java/com/industryE/ecommerce/service/AdminService.java:177-184 | the administrator's update refuses DELIVERED exactly for an unpaid order; otherwise it stores the given status, and what it stores obeys the delivery rule |
| Admin.FieldUpdatesSpec | backend/src/main/java/com/industryE/ecommerce/service/AdminService.java:189-219 | the plain status and payment updates fail exactly on null and otherwise overwrite only their own field |
| Admin.DeliveryRuleOnlyOnAdminPath | backend/src/main/java/com/industryE/ecommerce/service/AdminService.java:172-219 | the plain status update can deliver an unpaid order and the payment update can un-pay a delivered one |
| Admin.AdminService.UpdateOrderStatusByAdmin | backend/src/main/java/com/industryE/ecommerce/service/AdminService.java:172-186 | an unknown order is "Order not found"; otherwise the order becomes what the administrator's rule gives, and a refused update changes nothing |
| Admin.AdminService.UpdateOrderStatus | backend/src/main/java/com/industryE/ecommerce/service/AdminService.java:189-201 | an unknown id is an error naming it; a null status is refused with no change; otherwise only the status is replaced |
| Admin.AdminService.UpdateOrderPaymentStatus | backend/src/main/java/com/industryE/ecommerce/service/AdminService.java:203-219 | an unknown id is an error naming it; a null payment status is refused with no change; otherwise only the payment status is replaced |
| Admin.AdminService.UpdateInventory | backend/src/main/java/com/industryE/ecommerce/service/AdminService.java:262-270 | an unknown product is an error with no change; otherwise the size gets the new quantity in the inventory ledger |
| Admin.AdminService.InitializeProductSizes | backend/src/main/java/com/industryE/ecommerce/service/AdminService.java:86-108 | each parsed size of the new product is set to quantity 0, in order; a missing list or product changes nothing |
| Reviews.ReviewsOf | backend/src/main/java/com/industryE/ecommerce/service/ReviewService.java:29-32 | the product's reviews are exactly the stored reviews of that product |
| Reviews.ReviewsOfSnoc | backend/src/main/java/com/industryE/ecommerce/service/ReviewService.java:29-32 | a review stored after all others comes last among its product's reviews, and only if it is of that product |
| Reviews.ReviewsOfInOrder | backend/src/main/java/com/industryE/ecommerce/service/ReviewService.java:29-32 | the product's reviews are the stored reviews at strictly increasing positions, one for each stored review of that product |
| Reviews.SumRatingsPrepend | backend/src/main/java/com/industryE/ecommerce/service/ReviewService.java:61-66 | summing a review followed by others adds its rating to their sum |
| Reviews.ConvertToDTO | backend/src/main/java/com/industryE/ecommerce/service/ReviewService.java:74-84 | the DTO copies the id, rating, comment, creation time, author's name and id, and product id |
| Reviews.FirstReviewSetsRating | backend/src/main/java/com/industryE/ecommerce/service/ReviewService.java:61-69 | with no earlier review the product's rating becomes exactly the new rating |
| Reviews.AverageWithIsMean | backend/src/main/java/com/industryE/ecommerce/service/ReviewService.java:48-69 | the recomputed rating is the mean over the new review and the earlier ones, counting the new one once |
| Reviews.ReviewService.GetReviewsByProductId | backend/src/main/java/com/industryE/ecommerce/service/ReviewService.java:29-32 | one DTO per review of the product, in repository order, each for that product |
| Reviews.ReviewService.GetReviewsInStoredOrder | backend/src/main/java/com/industryE/ecommerce/service/ReviewService.java:29-32 | the i-th DTO converts the stored review at the i-th of strictly increasing positions, and a stored review has a DTO exactly when it is of the product |
| Reviews.ReviewService.UpdateProductRating | backend/src/main/java/com/industryE/ecommerce/service/ReviewService.java:54-72 | the product's rating becomes (new rating + earlier ratings) / (1 + number of earlier reviews); nothing else changes |
| Reviews.ReviewService.AddReview | backend/src/main/java/com/industryE/ecommerce/service/ReviewService.java:34-52 | an unknown user or product fails with no change; otherwise the review is stored and returned as a DTO and the product's rating is the mean of all its reviews |
| OrderEndpoints.ExtractToken | backend/src/main/java/com/industryE/ecommerce/controller/OrderController.java:141-147 | the token is what follows a case-sensitive `"Bearer "`; a missing header or any other prefix is "No valid token found" |
| OrderEndpoints.ExtractTokenRoundTrip | backend/src/main/java/com/industryE/ecommerce/controller/OrderController.java:141-147 | the header `"Bearer " + t` yields `t` |
| OrderEndpoints.LowerCaseSchemeRefused | backend/src/main/java/com/industryE/ecommerce/controller/OrderController.java:143-146 | a lower-case `bearer` scheme is refused |
| OrderEndpoints.CreateOrder | backend/src/main/java/com/industryE/ecommerce/controller/OrderController.java:41-62 | 201 with the created order exactly when the caller is known and the order is created; 401 "User not found" exactly for an unknown user, with no order created; a missing token, a failed lookup or a failed creation is 500 with "Failed to create order: " followed by that exception's message |
| OrderEndpoints.GetUserOrders | backend/src/main/java/com/industryE/ecommerce/controller/OrderController.java:64-84 | 200 with the orders exactly when the caller is known and the orders load; 401 "User not found" exactly for an unknown user; a missing token, a failed lookup or a failed load is 500 with "Failed to fetch orders: " followed by that exception's message |
| OrderEndpoints.GetOrderDetails | backend/src/main/java/com/industryE/ecommerce/controller/OrderController.java:86-106 | 200 with the order exactly when the caller is known and the order loads; 401 "User not found" exactly for an unknown user; a missing token, a failed lookup or a failed load is 404 "Order not found or access denied" |
| OrderEndpoints.MarkOrderAsReceived | backend/src/main/java/com/industryE/ecommerce/controller/OrderController.java:108-128 | 200 with the order exactly when the caller is known and the order is marked; 401 "User not found" exactly for an unknown user; a missing token, a failed lookup or a failed update is 400 carrying that exception's own message |
| Seeding.BuildInventoryJson | backend/src/main/java/com/industryE/ecommerce/config/DataInitializer.java:244-254 | the builder's text is the inventory object for the eleven sizes |
| Seeding.BuildObject | backend/src/main/java/com/industryE/ecommerce/config/DataInitializer.java:246-252 | the loop writes `{`, the entries with a comma before every entry but the first, and `}` |
| Seeding.EntriesStep | backend/src/main/java/com/industryE/ecommerce/config/DataInitializer.java:247-251 | each iteration appends one entry, preceded by a comma unless it is the first |
| Seeding.EntryPieces | backend/src/main/java/com/industryE/ecommerce/config/DataInitializer.java:249-250 | an entry holds exactly one comma, inside its object, between the quantity and the reserved count |
| Seeding.EntriesSplit | backend/src/main/java/com/industryE/ecommerce/config/DataInitializer.java:247-251 | the entries split at commas into exactly two pieces per size, in order |
| Seeding.InventoryJsonShape | backend/src/main/java/com/industryE/ecommerce/config/DataInitializer.java:244-254 | the seeded text is braced and holds one entry per size, 7 to 12 in order, each with the quantity and no reservation |
| Seeding.PiecesLength | backend/src/main/java/com/industryE/ecommerce/config/DataInitializer.java:245-251 | two pieces per size |
| Seeding.CatalogueSizesMatchInventory | backend/src/main/java/com/industryE/ecommerce/config/DataInitializer.java:245 | the size list `["7", ..., "12"]` parses to the same sizes the inventory text stocks |
| Seeding.DrawReviewsInRange | backend/src/main/java/com/industryE/ecommerce/config/DataInitializer.java:181-206 | every seeded review is rated 4 or 5, uses a stock comment and has a demo author |
| Seeding.SampleReviewsBounds | backend/src/main/java/com/industryE/ecommerce/config/DataInitializer.java:193-206 | a catalogue of n products gets between 2n and 4n reviews, all rated 4 or 5 and attached to those products |
| Seeding.RatingSumBounds | backend/src/main/java/com/industryE/ecommerce/config/DataInitializer.java:197-206 | a product's rating sum is between 4 and 5 times its number of reviews |
| Seeding.SeededRatingBounds | backend/src/main/java/com/industryE/ecommerce/config/DataInitializer.java:193-213 | a seeded product's rating, the mean of its reviews, lies between 4 and 5 |
| Seeding.MeanBetween | backend/src/main/java/com/industryE/ecommerce/config/DataInitializer.java:210-213 | dividing such a sum by the count of two to four reviews gives a value between 4 and 5 |
| Seeding.AddDemoUsersSpec | backend/src/main/java/com/industryE/ecommerce/config/DataInitializer.java:164-179 | existing accounts are kept, every demo email gets an account, and nothing else is added |
| Seeding.SeededProductsShareInventory | backend/src/main/java/com/industryE/ecommerce/config/DataInitializer.java:129-135 | every product seeded in one run carries the same inventory text |
| Seeding.DataInitializer.CreateAdminUser | backend/src/main/java/com/industryE/ecommerce/config/DataInitializer.java:219-238 | the administrator is added only when its email is free |
| Seeding.DataInitializer.CreateSampleReviews | backend/src/main/java/com/industryE/ecommerce/config/DataInitializer.java:148-217 | demo users are added where missing, each product gets one review per draw, and products with reviews take the mean rating |
| Seeding.DataInitializer.ReviewProducts | backend/src/main/java/com/industryE/ecommerce/config/DataInitializer.java:189-214 | the product loop reviews every product in catalogue order |
| Seeding.DataInitializer.CreateDemoUsers | backend/src/main/java/com/industryE/ecommerce/config/DataInitializer.java:164-179 | `demo<i>@shoestop.com` is saved under the i-th name unless the email is taken |
| Seeding.DataInitializer.ReviewProduct | backend/src/main/java/com/industryE/ecommerce/config/DataInitializer.java:193-213 | one product's reviews are appended and, when there are any, its rating becomes their mean |
| Seeding.DataInitializer.Run | backend/src/main/java/com/industryE/ecommerce/config/DataInitializer.java:31-146 | the administrator always exists afterwards and is added only when its email is free; the catalogue, inventory text, demo accounts and reviews are seeded only when no product is stored; no other account changes |
| Cart.KeyTreatsEmptySizeAsAbsent | ecommerce/src/pages/CartPage.jsx:42 | an absent size and an empty size give the same row key |
| Cart.KeyInjective | ecommerce/src/pages/CartPage.jsx:42 | two rows share a key exactly when they have the same id and the same size after the `no-size` fallback |
| Cart.KeySentinelCollision | ecommerce/src/pages/CartPage.jsx:150 | a size spelled `no-size` collides with a size-less row of the same product |
| Cart.SelectedCartItems | ecommerce/src/pages/CartPage.jsx:26-28 | the selected rows are exactly the cart rows whose key is selected |
| Cart.SelectedCartItemsInOrder | ecommerce/src/pages/CartPage.jsx:26-28 | the selected rows are the cart rows at strictly increasing positions, one for each row whose key is selected |
| Cart.CalculateTotalAppend | ecommerce/src/pages/CartPage.jsx:11-14 | the total of two carts joined is the sum of their totals |
| Cart.SelectedTotalEmptySelection | ecommerce/src/pages/CartPage.jsx:136-139 | with nothing selected the selected total is 0 |
| Cart.NothingSelected | ecommerce/src/pages/CartPage.jsx:26-28 | with nothing selected no row is picked |
| Cart.TotalSplitsBySelection | ecommerce/src/pages/CartPage.jsx:11-14 | the cart total is the selected total plus the total of the unselected rows |
| Cart.TotalSplitsOver | ecommerce/src/pages/CartPage.jsx:136-139 | the same split over any key set covering the cart |
| Cart.SelectedTotalIgnoresDanglingKeys | ecommerce/src/pages/CartPage.jsx:136-139 | selected keys that match no row add nothing to the selected total |
| Cart.SelectedItemsIgnoreDanglingKeys | ecommerce/src/pages/CartPage.jsx:26-28 | selected keys that match no row pick nothing |
| Cart.SelectedTotalAppend | ecommerce/src/pages/CartPage.jsx:136-139 | a new row adds its line total to the selected total exactly when its key is selected |
| Cart.SelectedTotalAll | ecommerce/src/pages/CartPage.jsx:136-139 | with every row selected the selected total is the cart total |
| Cart.HandleCheckoutSpec | ecommerce/src/pages/CartPage.jsx:19-37 | checkout proceeds exactly when some row is selected, carrying exactly the selected rows; otherwise it raises the matching alert |
| Cart.HandleCheckoutInCartOrder | ecommerce/src/pages/CartPage.jsx:26-36 | the rows checkout carries come from strictly increasing cart positions, one for each selected row |
| Cart.Toggled | ecommerce/src/pages/CartPage.jsx:83-91 | after a checkbox event the row's key is selected exactly when ticked, and other keys keep their state |
| Cart.ToggledIdempotent | ecommerce/src/pages/CartPage.jsx:83-91 | repeating the same checkbox event changes nothing |
| Cart.UntickUndoesTick | ecommerce/src/pages/CartPage.jsx:83-91 | ticking then unticking an unselected row restores the selection |
| Cart.CartPage.ToggleSelectItem | ecommerce/src/pages/CartPage.jsx:83-91 | the selection becomes the toggled one; the loading set is untouched |
| Cart.CartPage.HandleUpdateQuantity | ecommerce/src/pages/CartPage.jsx:41-57 | the row is loading during the call and not afterwards, whatever the outcome; the selection never changes |
| Cart.CartPage.HandleRemoveFromCart | ecommerce/src/pages/CartPage.jsx:59-80 | the row is loading during the call and not afterwards; it leaves the selection only when the removal succeeds |
| Cart.CartPage.Summary | ecommerce/src/pages/CartPage.jsx:178-199 | the subtotal is the cart total and the selected total is that of the selected rows; the selected plus the unselected rows' totals make the subtotal, and selected keys without a row add nothing |
| CartRow.CartItem.Minus | ecommerce/src/components/CartItem.jsx:33-48 | above one unit it asks for one less; at one unit it only raises a confirmation; below one, or while loading, nothing happens |
| CartRow.CartItem.Plus | ecommerce/src/components/CartItem.jsx:53-56 | one more unit, unless the row is loading |
| CartRow.CartItem.RemoveButton | ecommerce/src/components/CartItem.jsx:66-70 | the row is removed straight away, without confirmation, unless it is loading |
| CartRow.CartItem.Checkbox | ecommerce/src/components/CartItem.jsx:12-17 | the row and its new checked state are reported, unless the row is loading |
| CartRow.CartItem.ConfirmRemoval | ecommerce/src/components/CartItem.jsx:40-43 | removes the row the confirmation was raised for and closes it |
| CartRow.CartItem.CancelRemoval | ecommerce/src/components/CartItem.jsx:89-93 | closes the confirmation without removing anything |
| CartRow.CartItem.OverlayClick | ecommerce/src/components/CartItem.jsx:77 | a click on the overlay closes the confirmation without removing anything |
| CartRow.DecrementLastUnitThenConfirm | ecommerce/src/components/CartItem.jsx:33-48 | minus on the last unit removes nothing by itself; confirming removes exactly that row |
| CartRow.DecrementLastUnitThenCancel | ecommerce/src/components/CartItem.jsx:33-48 | minus on the last unit then cancel calls nothing on the cart |
| Checkout.StepsStayInRange | ecommerce/src/pages/CheckoutPage.jsx:54-60 | the step stays within 1..3, moves by at most one, and next then previous is a no-op away from the ends |
| Checkout.OnlyCashOnDeliverySelectable | ecommerce/src/pages/CheckoutPage.jsx:37-41 | cash on delivery is the only payment method that can be chosen |
| Checkout.NameWord | ecommerce/src/pages/CheckoutPage.jsx:9-18 | a name field holds one word of the user's name, without spaces |
| Checkout.InitialShipping | ecommerce/src/pages/CheckoutPage.jsx:9-18 | the form starts with every shipping field present |
| Checkout.InitialShippingSplitsName | ecommerce/src/pages/CheckoutPage.jsx:9-18 | the first two words of the name fill first and last name, and the user's email fills the email |
| Checkout.SplitTakesWords | ecommerce/src/pages/CheckoutPage.jsx:10-11 | splitting a name at spaces yields its first two words first |
| Checkout.PayloadItems | ecommerce/src/pages/CheckoutPage.jsx:73-85 | one payload item per cart row, in order |
| Checkout.PayloadTotalMatchesItems | ecommerce/src/pages/CheckoutPage.jsx:66-86 | the declared total is the sum of the sent items' price times quantity, and every cart row is sent once, in order, with its id, size, price and quantity |
| Checkout.ItemsTotalOfCart | ecommerce/src/pages/CheckoutPage.jsx:43-45 | the sent items' total equals the cart total |
| Checkout.PayloadIgnoresEmail | ecommerce/src/pages/CheckoutPage.jsx:66-86 | the email field never reaches the request |
| Checkout.PlaceOrderSendsOnlyWithToken | ecommerce/src/pages/CheckoutPage.jsx:91-102 | without a token nothing is sent and a log-in alert is shown; with one, exactly the payload is sent with a bearer header |
| Checkout.PlaceOrderCompletesOnResponse | ecommerce/src/pages/CheckoutPage.jsx:104-120 | the order completes and the confirmation page opens exactly on a response with a body, with status PENDING, the cart total, and the server's order number when it is present and non-empty or `ORD-` and the time otherwise; a failure alerts |
| Checkout.Redirects | ecommerce/src/pages/CheckoutPage.jsx:24-35 | a signed-out user goes to the login page, and an empty cart sends the user to the cart |
| Checkout.CheckoutPage.constructor | ecommerce/src/pages/CheckoutPage.jsx:8-18 | the wizard starts at step 1 with the prefilled form and cash on delivery |
| Checkout.CheckoutPage.HandleNextStep | ecommerce/src/pages/CheckoutPage.jsx:54-56 | advances one step unless on the last |
| Checkout.CheckoutPage.HandlePrevStep | ecommerce/src/pages/CheckoutPage.jsx:58-60 | goes back one step unless on the first |
| Checkout.CheckoutPage.HandleShippingChange | ecommerce/src/pages/CheckoutPage.jsx:47-52 | only the named field changes |
| Checkout.CheckoutPage.SelectPaymentMethod | ecommerce/src/pages/CheckoutPage.jsx:228-237 | a disabled option cannot be chosen |
| Checkout.CheckoutPage.HandlePlaceOrder | ecommerce/src/pages/CheckoutPage.jsx:62-121 | loading while the order is posted and not afterwards; the effects are those of placing the order |
| Checkout.CheckoutPage.Decrement | ecommerce/src/pages/CheckoutPage.jsx:296-311 | above one unit it asks for one less; at one unit it only raises a confirmation |
| Checkout.CheckoutPage.Increment | ecommerce/src/pages/CheckoutPage.jsx:328-332 | asks for one more unit |
| Checkout.CheckoutPage.ConfirmRemoval | ecommerce/src/pages/CheckoutPage.jsx:305-308 | removes the row the confirmation was raised for; the dialog closes only when the removal succeeds |
| Checkout.CheckoutPage.CancelRemoval | ecommerce/src/pages/CheckoutPage.jsx:415-431 | closes the confirmation without removing anything |
| OrderHistory.VisibleOrders | ecommerce/src/pages/OrderHistoryPage.jsx:364 | the grid shows a prefix of the orders, of the visible count or all of them |
| OrderHistory.LoadMoreSpec | ecommerce/src/pages/OrderHistoryPage.jsx:462-466 | while the button shows, a click reveals one to three more orders and never passes the end; once it is hidden every order is shown |
| OrderHistory.LoadMoreRepeated | ecommerce/src/pages/OrderHistoryPage.jsx:466 | from the first page, n clicks show min(3 + 3n, number of orders) |
| OrderHistory.CardItemsPreferItems | ecommerce/src/pages/OrderHistoryPage.jsx:403-407 | a present `items` list is previewed even when empty; `orderItems` is used only when `items` is missing |
| OrderHistory.PreviewSpec | ecommerce/src/pages/OrderHistoryPage.jsx:407-423 | a card shows at most three items, and "+N more" with N = count - 3 appears exactly when there are more than three |
| OrderHistory.TallyBounds | ecommerce/src/pages/OrderHistoryPage.jsx:142-179 | each item counts once at most, as added or failed; `addToCart` is called at most once per item and never when absent |
| OrderHistory.ReorderSpec | ecommerce/src/pages/OrderHistoryPage.jsx:130-199 | no items is an error with no call; otherwise the page goes to the cart exactly when something was added, with success, warning (naming the failures) or error to match |
| OrderHistory.HandleReorder | ecommerce/src/pages/OrderHistoryPage.jsx:130-199 | the loop's outcome is the reorder classification of the items' attempts |
| OrderHistory.OrderHistoryPage.FetchUserOrders | ecommerce/src/pages/OrderHistoryPage.jsx:37-62 | no token sends nothing and asks to log in; a 401 says the session expired and other failures the generic message; loading ends false on every path |
| OrderHistory.OrderHistoryPage.HandleLoadMore | ecommerce/src/pages/OrderHistoryPage.jsx:466 | the visible count becomes `min(count + 3, orders)` |
| OrderHistory.OrderHistoryPage.CheckProductReview | ecommerce/src/pages/OrderHistoryPage.jsx:295-301 | a cached entry, a cached absence included, is returned without a request; otherwise the fetched review is cached and returned |
| OrderHistory.CheckProductReviewTwice | ecommerce/src/pages/OrderHistoryPage.jsx:295-301 | a second lookup of the same product sends no request and returns the first answer |
| ReviewDialog.ChooseRequestSpec | ecommerce/src/components/ReviewModal.jsx:60-81 | a PUT to the review exactly when editing a review with an id; otherwise a POST for the product; both carry the rating, comment and bearer token |
| ReviewDialog.SubmitErrorSpec | ecommerce/src/components/ReviewModal.jsx:94-99 | the error is the server's message when it is a non-empty string, and otherwise the fallback for the mode; it is never empty |
| ReviewDialog.SubmitSpec | ecommerce/src/components/ReviewModal.jsx:39-102 | a blank comment is refused first, a missing token sends nothing, otherwise one request; only a saved review resets the form and calls `onClose` then `onReviewSubmitted` |
| ReviewDialog.WhitespaceCommentIsBlank | ecommerce/src/components/ReviewModal.jsx:39-42 | a comment of white space alone counts as blank |
| ReviewDialog.ReviewModal.Prefill | ecommerce/src/components/ReviewModal.jsx:28-36 | editing a review takes its rating (or 5) and comment (or empty); otherwise 5 and empty |
| ReviewDialog.ReviewModal.ClickStar | ecommerce/src/components/ReviewModal.jsx:139-142 | clicking star k sets the rating to k |
| ReviewDialog.ReviewModal.HandleSubmit | ecommerce/src/components/ReviewModal.jsx:38-103 | the form's new state, the request and the callbacks are those of a submission |
| ReviewHighlight.TopIndex | ecommerce/src/components/ReviewHighlightCard.jsx:7-9 | the quoted review has the highest rating, and every earlier review a strictly lower one |
| ReviewHighlight.TopIndexIsFirstMaximum | ecommerce/src/components/ReviewHighlightCard.jsx:7-9 | the first review with the highest rating is the one quoted |
| ReviewHighlight.TopReviewSpec | ecommerce/src/components/ReviewHighlightCard.jsx:7-9 | a review is quoted exactly when there is one, and it is a highest-rated review of the list |
| ReviewHighlight.GetExcerpt | ecommerce/src/components/ReviewHighlightCard.jsx:24-28 | a missing or empty comment gives nothing, a short one is kept whole, and a long one ends in "..." within the length plus three |
| ReviewHighlight.ExcerptQuotesTheStart | ecommerce/src/components/ReviewHighlightCard.jsx:27 | a long comment's excerpt is a stretch of its first characters with only white space dropped around it |
| ReviewHighlight.SumRatingsBounds | ecommerce/src/components/ReviewHighlightCard.jsx:31 | the ratings' sum lies between count times the lowest and count times the highest rating |
| ReviewHighlight.MeanRatingBounds | ecommerce/src/components/ReviewHighlightCard.jsx:31 | the mean lies between the lowest and the highest rating allowed |
| ReviewHighlight.DisplayRatingFallsBackToMean | ecommerce/src/components/ReviewHighlightCard.jsx:31 | with no usable product rating the card shows the reviews' mean, between 1 and 5 for star ratings |
| ReviewHighlight.FilledStars | ecommerce/src/components/ReviewHighlightCard.jsx:52 | at most five stars, the rating rounded half up |
| ReviewHighlight.ReadAllLabelPlural | ecommerce/src/components/ReviewHighlightCard.jsx:72 | the label is singular exactly for one review |
| ReviewHighlight.Card | ecommerce/src/components/ReviewHighlightCard.jsx:19-21 | the card renders nothing exactly when the reviews are missing or empty |
| ReviewHighlight.CardRating | ecommerce/src/components/ReviewHighlightCard.jsx:31-54 | a present non-zero product rating is shown as is, with stars for it; otherwise the card shows the reviews' mean and its stars |

## Behaviour worth knowing

Each point below follows from the code as written, and the member named
with it proves it.

- **Cart selection.** A row leaves the cart page's selection only when its removal succeeds. A removal that throws leaves the row selected (`Cart.CartPage.HandleRemoveFromCart`).
- **The `×` button.** It removes a row at once, without the confirmation the `-` button asks for (`CartRow.CartItem.RemoveButton`).
- **The checkout payload.** Checkout builds its payload and total from the whole cart. The subset selected on the cart page is passed on but never read there (`Checkout.PayloadTotalMatchesItems`).
- **Row keys.** A row whose size is literally `no-size` shares its key with a size-less row of the same product (`Cart.KeySentinelCollision`).
- **The delivery rule.** "Delivered only if paid" is enforced only by the administrator's status update. The plain status update and the payment update can break it (`Admin.DeliveryRuleOnlyOnAdminPath`).
- **Negative reservations.** A negative reservation request is not rejected. It lowers `reserved` below zero (`SizeInventory.NegativeReserveBreaksInvariant`).
- **Confirmation dialogs.** The checkout page awaits the removal before closing its confirmation, so a failed removal leaves the dialog open. The cart row closes its dialog at once.

## Left out

- Jackson parsing and serialisation of the inventory text are left out. The model keeps each product's ledger as the map it parses to.
- `getSizeInventoryByProductId` and its `Double.parseDouble` size ordering are left out. They are floating point, with a comparator that falls back to string order.
- `ProductSizeInventoryDTO` is not part of this model. `Admin.IsLowStock` reads availability from the ledger as `getAvailable` computes it.
- Null `Integer` fields and arguments, which would throw when unboxed, are not modelled. Quantities are present 32-bit integers.
- HTTP, repositories, `localStorage`, `axios` and `@Transactional` are not modelled as such. Each call is a parameter carrying its outcome, and a repository is a field holding a map or a sequence.
- `alert`, navigation and toasts are recorded as outcomes. Rendering, styling and timers are left out.
- Asynchronous interleavings are left out. Each handler is modelled as one run to completion, with the collaborator's outcome as a parameter, so races between handlers on the same row are not captured.
- `Date.now()` and `java.util.Random` become parameters. A draw's range is stated as a lemma precondition (`Seeding.AllDrawsInRange`), not as a method precondition.
- Prices are integers in centavos and averages are exact reals. `parseFloat`, `Math.round` on display values, `toFixed`, `toLocaleString` and `Intl` formatting are left out.
- Reviews.ReviewService.UpdateProductRating: computes the average exactly, not in `double`. The sum of ratings is not wrapped at 32 bits.
- Reviews.ReviewService.AddReview: models the repository's newest-first order by storing each new review at the front. Creation times are taken as given.
- Seeding.DataInitializer.Run: leaves out product ids, passwords, phone numbers and the other product literal fields. The catalogue arrives as a parameter.
- CartRow.CartItem.Minus: assumes the `onUpdateQuantity` and `onRemove` callbacks are always supplied. The `&&` guards on them are not modelled. The same holds for `Plus`, `Checkbox` and the checkout page's handlers.
- ReviewHighlight.GetExcerpt: counts and cuts text in characters (Unicode scalar values). JavaScript's `length` and `substring` count UTF-16 code units, so for text with characters outside the Basic Multilingual Plane, such as emoji, the source measures a longer length and may cut at a different place, even inside a surrogate pair.
- `PaymentStatus` has only the distinction the rules use: `COMPLETED` or another named status.
- `OrderController.markAsReceived` (controller lines 130-138) is left out. It casts to an unrelated criteria type.
- Exception messages are modelled as strings. A `getMessage()` that returns null is not.
- Files with no core are not part of this model: `SecurityConfig.java`, `ReviewController.java`, `ReviewRepository.java`, the navigation bar and the toast components.
