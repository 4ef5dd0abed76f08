# Booking and shop core, modelled in Dafny

This project models the logic of a hotel-and-experiences booking site with a small shop attached. The pieces modelled are:

- **The two client cart stores.**
  - The booking site's `storeReducer`: an index-addressed cart mirrored into local storage.
  - The shop's `useGlobalReducer`: a cart keyed by `product_id`.
- **The Flask in-memory tables of the shop**, each a Dafny class whose methods update the table in place:
  - the cart tables;
  - the stock ledger;
  - orders, quotes and users;
  - the product catalogue queries.
- **The booking rules of `routes.py`**, over a sequence of bookings:
  - pricing of a cart item and re-pricing on update;
  - the room and experience availability searches;
  - the checkout transition and the payment webhook transition.
- **The client pages that compute prices or validate input:**
  - the room and experience pages;
  - the product configurator;
  - the checkout page;
  - the search bar;
  - the product page.

Conventions throughout:

- Money is integer cents and dates are integer day numbers.
- A missing JSON field, query argument or form value is `None`.
- Where the source is Python, a falsy `0` or empty string is modelled wherever the branch depends on it.

Each endpoint or handler is modelled in the form the source takes:

- **Loops** over rooms, extras, days, items and orders are `while` loops. Each is proved against a specification function, and the lemmas beside that function state what it means.
- **Module-level tables** are classes with `seq`/`set` fields and `modifies` clauses.
- **Reducers and validators** are functions.

One module per source file; the booking backend `src/api/routes.py` is split into:

- `BookingModel`: entities and the queries against the booking table;
- `BookingPricing`: cart pricing;
- `BookingAvailability`: the two searches;
- `BookingEndpoints`: the table and the endpoints that change it.

## Model

| member | source | states |
|---|---|---|
| Store.InitialStore | src/front/store.js:3-22 | the cart is the persisted copy when there is one, otherwise empty; no user, message or current booking |
| Store.Session.constructor | src/front/store.js:3-22 | a fresh tab holds the initial store and is in sync with the persisted cart |
| Store.Session.Dispatch | src/front/store.js:24-120 | the store becomes the reducer's result; add, remove and update write the new cart to `'cart'`; clear and logout delete it; logout also drops the token; cart actions keep memory and storage in sync |
| Store.Reduce | src/front/store.js:24-120 | cart actions change only the cart; other actions except `logout` keep it; `logout` clears user and cart |
| Store.AddAppends | src/front/store.js:71-77 | `add_to_cart` appends the entry last, never merges, keeps earlier entries and every other field |
| Store.RemoveAt | src/front/store.js:79-85 | filtering by index removes exactly the entry at a valid index, keeping order; any other index leaves the cart unchanged |
| Store.RemoveFromCartEffect | src/front/store.js:79-85 | `remove_from_cart` deletes exactly the indexed entry; an out-of-range index leaves the whole store unchanged |
| Store.UpdateAt | src/front/store.js:87-95 | `update_cart_item` replaces only the entry at the index; length and other entries unchanged; an out-of-range index is a no-op |
| Store.ClearAndLogoutEmpty | src/front/store.js:61-69 | `clear_cart` and `logout` both leave an empty cart; `logout` also clears the user |
| Store.OtherActionsKeepCart | src/front/store.js:27-59 | non-cart actions other than `logout` keep the cart; an unknown action returns the store itself |
| GlobalReducer.Reduce | src/front/hooks/useGlobalReducer.jsx:4-61 | cart actions change only the cart, other actions except `LOGOUT` keep it, and after `ADD_TO_CART` the product is in the cart |
| GlobalReducer.AddExistingIncrements | src/front/hooks/useGlobalReducer.jsx:33-44 | adding a product already present (distinct ids) raises exactly its quantity by one; length and other lines unchanged |
| GlobalReducer.AddNewAppends | src/front/hooks/useGlobalReducer.jsx:45 | adding a new product appends the payload with quantity forced to 1 |
| GlobalReducer.AddKeepsDistinct | src/front/hooks/useGlobalReducer.jsx:34-45 | `ADD_TO_CART` keeps the cart's product ids distinct |
| GlobalReducer.RemoveFiltersId | src/front/hooks/useGlobalReducer.jsx:47-51 | `REMOVE_FROM_CART` removes every line with the id, keeps the others in order, and is a no-op for an absent id |
| GlobalReducer.UpdateSetsQuantity | src/front/hooks/useGlobalReducer.jsx:53-61 | `UPDATE_CART_ITEM` writes the given quantity, unbounded and even 0, into matching lines only, removing nothing |
| GlobalReducer.AddThenRemove | src/front/hooks/useGlobalReducer.jsx:33-51 | add then remove restores a cart that lacked the product; in every case the product is gone afterwards |
| GlobalReducer.ResetsAndReplacements | src/front/hooks/useGlobalReducer.jsx:4-31 | `LOGOUT` returns the initial state (empty cart, no user or role); `SET_CART` replaces the cart wholesale; an unknown action returns the state |
| ClientExtras.ToggleExtra | src/front/pages/RoomDetail.jsx:55-62 | a selected id is removed entirely and every other extra kept, in its order; an absent one is appended |
| ClientExtras.ToggleTwiceRestores | src/front/pages/ExperienceDetail.jsx:55-62 | ticking an unselected extra twice gives the selection back |
| ClientExtras.FilterKeepsAll | src/front/pages/RoomDetail.jsx:57 | filtering out an id nobody carries keeps the selection |
| CartApi.FindProduct | src/api/routes/cart.py:105-108 | a catalogue product with the id, or none when no product has it |
| CartApi.FindProductFirst | src/api/routes/cart.py:105-108 | the product found is the first one in catalogue order with the id |
| CartApi.FindItem | src/api/routes/cart.py:173-177 | the first item with the id, or none |
| CartApi.FindLine | src/api/routes/cart.py:124-128 | the first item of that cart and product, or none |
| CartApi.Enrich | src/api/routes/cart.py:62-76 | at most one row per cart item |
| CartApi.EnrichSound | src/api/routes/cart.py:62-76 | every listed row is a cart item whose product exists, with `item_total` = price × quantity |
| CartApi.EnrichComplete | src/api/routes/cart.py:62-76 | every item whose product exists is listed |
| CartApi.Accumulate | src/api/routes/cart.py:59-76 | the row loop builds exactly `Enrich` of the items, with the running item-total and quantity sums over those rows |
| CartApi.AddRow | src/api/routes/cart.py:64-76 | one step of the row loop appends the item's row (none for an unknown product) and adds its total and quantity to the sums |
| Common.Tax | src/api/routes/cart.py:86 | `round(x * 0.08, 2)` in cents, also used by orders.py: the result is the cent amount nearest to 8% of the subtotal, halves rounding up |
| CartApi.Summarize | src/api/routes/cart.py:59-88 | subtotal = Σ item totals, item count and quantity sums, shipping 0 iff subtotal 0, total = subtotal + shipping + tax |
| CartApi.Tables.constructor | src/api/routes/cart.py:7-9 | no carts, no items, counter 1 |
| CartApi.Tables.GetCart | src/api/routes/cart.py:37-89 | a falsy user id is refused; otherwise the cart record is created on first access; shipping is 10.00 unless the subtotal is 0, tax is 8% of the subtotal, and the counts are the number of rows and the sum of quantities |
| CartApi.Tables.AddToCart | src/api/routes/cart.py:92-156 | missing fields, unknown product and quantity above stock are refused with tables unchanged; an existing line is merged without a new stock check; otherwise a line with id `item_counter` is appended and the counter raised |
| CartApi.Tables.UpdateCartItem | src/api/routes/cart.py:159-205 | refusals in endpoint order leave items unchanged; 0 removes the item, any other quantity is set exactly |
| CartApi.Tables.RemoveFromCart | src/api/routes/cart.py:208-229 | 404 for an unknown id; otherwise exactly the rows without that id remain |
| CartApi.Tables.ClearCart | src/api/routes/cart.py:232-253 | all of that user's items go and no others |
| CartApi.RemoveKeepsValid | src/api/routes/cart.py:220 | removal by id keeps ids distinct and below the counter |
| CartApi.RemoveExactlyOne | src/api/routes/cart.py:191 | with distinct ids, removal by id drops exactly the one row |
| CartApi.KeepAllOther | src/api/routes/cart.py:220 | removing an id no row has keeps the table |
| InventoryApi.Seed | src/api/routes/inventory.py:53-63 | a new record starts with stock q only for `'restock'` (else 0), defaults 5 and 100, no movements |
| InventoryApi.Apply | src/api/routes/inventory.py:66-90 | a sale above the stock is refused; a sale subtracts, leaving ≥ 0; any other type adds; exactly one movement is logged, carrying +q for a restock and −q for any other type, with `new_stock` = the new stock; only a restock stamps `last_restock`; the other record fields are kept |
| InventoryApi.OtherKindLogsNegative | src/api/routes/inventory.py:66-86 | a movement type other than sale or restock adds q to the stock yet logs −q, and leaves `last_restock` alone |
| InventoryApi.FindRecord | src/api/routes/inventory.py:50-51 | the first record of the product, or none |
| InventoryApi.FindProductIndex | src/api/routes/inventory.py:94 | the first catalogue product with the id, or none |
| InventoryApi.CopyStock | src/api/routes/inventory.py:93-96 | only the stock of the first matching product changes |
| InventoryApi.WithRecord | src/api/routes/inventory.py:50-64 | an unknown product gets a seeded record appended; afterwards the product has a record |
| InventoryApi.LowStock | src/api/routes/inventory.py:112-126 | at most one row per record, each at or under the threshold |
| InventoryApi.LowStockExact | src/api/routes/inventory.py:112-126 | exactly the records at or under the threshold whose product exists are listed, with reorder = maximum − current |
| InventoryApi.Ledger.constructor | src/api/routes/inventory.py:7-22 | the ledger starts with the given records and catalogue |
| InventoryApi.Ledger.UpdateStock | src/api/routes/inventory.py:37-102 | missing fields change nothing; a refused sale leaves stock and log untouched but keeps a newly seeded record; otherwise the movement is applied and copied into the catalogue |
| InventoryApi.Ledger.GetLowStock | src/api/routes/inventory.py:105-132 | threshold 10 unless given; the listing is the low-stock specification |
| InventoryApi.SaleGuard | src/api/routes/inventory.py:67-70 | a sale above the stock is refused; an accepted sale keeps stock ≥ 0 and logs −q |
| InventoryApi.FirstMovement | src/api/routes/inventory.py:53-75 | a first restock of q for an unknown product yields stock 2q; a first positive sale fails, but the record stays |
| OrdersApi.ComputeTotals | src/api/routes/orders.py:94-98 | subtotal = Σ price × quantity (defaults 0 and 1); default shipping 10.00 iff subtotal < 100.00; total = subtotal + shipping + tax |
| OrdersApi.TotalsBounds | src/api/routes/orders.py:94-98 | with non-negative lines and default shipping, 0 ≤ subtotal ≤ total |
| OrdersApi.FirstShortItem | src/api/routes/orders.py:85-91 | finds the first item whose quantity (default 1) exceeds its available stock (default 0); none iff no item is short |
| OrdersApi.Take | src/api/routes/orders.py:46 | Python's `[:limit]`, including a negative limit, is a prefix of the stated length |
| OrdersApi.InsertPerm | src/api/routes/orders.py:43 | insertion adds exactly the one order |
| OrdersApi.InsertBounded | src/api/routes/orders.py:43 | insertion keeps an upper bound on `created_at` |
| OrdersApi.InsertSorted | src/api/routes/orders.py:43 | insertion keeps a newest-first list newest first |
| OrdersApi.SortFacts | src/api/routes/orders.py:43 | the sort is newest first and a permutation |
| OrdersApi.InsertStable | src/api/routes/orders.py:43 | insertion keeps the relative order of equal timestamps |
| OrdersApi.SortStable | src/api/routes/orders.py:43 | the sort is stable, as Python's is |
| OrdersApi.Selected | src/api/routes/orders.py:32-40 | exactly the orders of a truthy user id and a truthy status are kept |
| OrdersApi.KeyIndex | src/api/routes/orders.py:228 | the position of a status key, or none |
| OrdersApi.SumUpdate | src/api/routes/orders.py:228 | replacing one count changes the sum by the difference |
| OrdersApi.KeyIndexDistinct | src/api/routes/orders.py:228 | with distinct keys, a key is found at its own position |
| OrdersApi.BumpFacts | src/api/routes/orders.py:226-228 | counting one status raises only its count by one and keeps keys distinct |
| OrdersApi.TallyFacts | src/api/routes/orders.py:225-228 | the counts have distinct keys, sum to the number of orders, and each equals the number of orders with that status |
| OrdersApi.CountStatuses | src/api/routes/orders.py:225-228 | the loop builds the tally; its counts sum to the number of orders |
| OrdersApi.Latest | src/api/routes/orders.py:222 | the newest `created_at` of the list, attained by some order |
| OrdersApi.Orders.constructor | src/api/routes/orders.py:9-10 | no orders, counter 1000 |
| OrdersApi.Orders.CreateOrder | src/api/routes/orders.py:70-135 | missing fields and an empty list are refused with nothing changed; whenever an item is short the answer is `InsufficientStock` naming the first short item, with nothing changed; otherwise the raised counter names an order above every earlier id, with status `pending_payment` and the computed totals, appended once |
| OrdersApi.Orders.UpdateStatus | src/api/routes/orders.py:138-171 | a status outside `ORDER_STATUSES` and an unknown id are refused; otherwise only that order's status changes, and `'shipped'` also records tracking |
| OrdersApi.Orders.Cancel | src/api/routes/orders.py:174-200 | refused for an unknown, shipped or delivered order; any other, even one already cancelled, is stamped `cancelled` with both timestamps before the body is read, so a request without a JSON body fails (415) with the order already cancelled; with a body the reason, default `Solicitud del cliente`, is recorded |
| OrdersApi.Orders.GetOrders | src/api/routes/orders.py:25-52 | newest first, a stable sort of the selected orders cut to `limit` (default 20); without a filter `orders_db` itself is reordered |
| OrdersApi.Orders.UserOrdersSummary | src/api/routes/orders.py:203-239 | total orders = the user's orders; total spent = Σ totals; average = spent / orders; last order date = the newest `created_at`; the status counts are the tally of the user's statuses, with distinct keys, each count the number of the user's orders in that status, summing to the total orders; no orders gives zeros and no dates or counts |
| OrdersApi.FindOrder | src/api/routes/orders.py:152-153 | the first order with the id, or none |
| OrdersApi.PendingPaymentOutsideStatuses | src/api/routes/orders.py:13-19 | a new order's status `pending_payment` is not in `ORDER_STATUSES`, so the status update cannot set it, yet it is `Cancellable`, as is `cancelled` itself |
| QuotesApi.ListQuotes | src/api/routes/quotes.py:10-22 | without `user_id` all quotes; a `user_id` that `int()` cannot parse is a 500 exactly when there is some quote to compare it with, and an empty list otherwise; with one, exactly the quotes of that customer |
| QuotesApi.ListInOrder | src/api/routes/quotes.py:16-22 | the listing keeps insertion order |
| QuotesApi.QuoteTable.constructor | src/api/routes/quotes.py:7 | the table starts empty |
| QuotesApi.QuoteTable.CreateQuote | src/api/routes/quotes.py:25-49 | a falsy customer or items list is refused with nothing changed; otherwise one quote is appended with id = length + 1, status `pending`, business 1 by default and total Σ price × quantity |
| QuotesApi.NewIdFresh | src/api/routes/quotes.py:34 | the new id is not already used in a table numbered from 1 |
| AuthApi.FindByEmail | src/api/routes/auth.py:35 | the first user with the email, or none |
| AuthApi.FindById | src/api/routes/auth.py:103-104 | the first user with the id, or none |
| AuthApi.Login | src/api/routes/auth.py:27-56 | a missing email or password gives 400; success only when a user with exactly that email exists and the password checks; the response carries no password |
| AuthApi.Registration | src/api/routes/auth.py:59-89 | missing fields and a taken email are refused, and a fresh email with every field present succeeds; the new user gets id length + 1, a hash of the password and role `customer` by default |
| AuthApi.UpToSpace | src/api/routes/auth.py:100 | the token is the text up to the first space |
| AuthApi.Profile | src/api/routes/auth.py:92-121 | exactly a header not starting with `"Bearer "` is refused (401); an expired or invalid token is a 401 and a payload without `user_id` a 500; for a valid token, 404 exactly when no user has the id, otherwise the first such user without the password |
| AuthApi.Users.constructor | src/api/routes/auth.py:9-24 | the two seeded users |
| AuthApi.Users.Register | src/api/routes/auth.py:59-89 | the new user is appended once, or nothing changes on refusal; emails stay unique and ids consecutive |
| AuthApi.RegisterThenLogin | src/api/routes/auth.py:27-89 | registering a fresh email succeeds, and logging in with the same credentials then succeeds as that user |
| AuthApi.LoginExact | src/api/routes/auth.py:35-38 | with unique emails, login succeeds exactly for the stored user's own password |
| AuthApi.RegisterTwiceRefused | src/api/routes/auth.py:67-68 | an email already present cannot be registered again |
| ProductsApi.Catalog.constructor | src/api/routes/products.py:7-44 | the catalogue holds the given products |
| ProductsApi.Lower | src/api/routes/products.py:60 | lower-casing keeps the length, leaves no upper-case letter and keeps every other character |
| ProductsApi.LowerIdempotent | src/api/routes/products.py:60 | lowering twice is lowering once |
| ProductsApi.GetProducts | src/api/routes/products.py:47-66 | the listing is a selection of catalogue products, no longer than the catalogue |
| ProductsApi.FilterTwice | src/api/routes/products.py:53-64 | filtering by category and then by search is one filter by both tests |
| ProductsApi.GetProductsIsFilter | src/api/routes/products.py:47-66 | the result is the order-preserving subsequence of products in the category (when given and not `'all'`) whose lowered name or description contains the lowered query |
| ProductsApi.FindProduct | src/api/routes/products.py:69-77 | the first product with the id; none (404) iff no product has it |
| ProductsApi.Categories | src/api/routes/products.py:80-84 | exactly the distinct non-empty categories |
| BookingModel.FindExperience | src/api/routes.py:544-549 | an experience of the catalogue with the id, or none when no entry has it |
| BookingModel.FindRoom | src/api/routes.py:585-605 | a room of the catalogue with the id, or none |
| BookingModel.FindExtra | src/api/routes.py:608-630 | an extra of the catalogue with the id, or none |
| BookingModel.FindPackage | src/api/routes.py:552-556 | a package of the catalogue with the id, or none |
| BookingModel.Weekday | src/api/routes.py:387-413 | the weekday of a day number lies in 0..6 |
| BookingModel.NextDayNextWeekday | src/api/routes.py:387-413 | the next day has the next weekday, Sunday wrapping to Monday, and a week later the weekday is the same |
| BookingPricing.BaseCharge | src/api/routes.py:544-556 | exactly an unknown or inactive experience gives `Invalid experience`; otherwise exactly an unknown or inactive package gives `Invalid package`; success is exactly neither, with base = experience price × guests (when given) + package price (when given), 0 with neither |
| BookingPricing.Pricing | src/api/routes.py:509-642 | a missing guest count is exactly the `MissingGuests` refusal; a request naming no rooms or lacking a date has no room lines; success implies a usable experience and package |
| BookingPricing.PricedRoomsErrSticks | src/api/routes.py:585-605 | once a room fails, the whole request fails with that error |
| BookingPricing.PricedExtrasErrSticks | src/api/routes.py:608-630 | once an extra fails, the whole request fails with that error |
| BookingPricing.PricedRoomsFacts | src/api/routes.py:585-605 | the room lines exist iff every room is known and active; line i charges room i its nightly price × (check-out − check-in); otherwise the error names the first unusable room |
| BookingPricing.PricedExtrasFacts | src/api/routes.py:608-630 | the extra lines exist iff every extra is known and active; `PER_BOOKING` costs its price once, any other price × guests × quantity (default 1); otherwise the first unusable extra is named |
| BookingPricing.StayNotAfterCheckInPriced | src/api/routes.py:528-540 | a stay whose check-out is not after check-in is still priced, and its room lines count no nights and charge nothing or less |
| BookingPricing.PriceBooking | src/api/routes.py:509-642 | the price loops compute the pricing specification: total = experience price × guests + package + Σ room lines + Σ extra lines |
| BookingPricing.PriceRooms | src/api/routes.py:585-605 | the room loop yields exactly the room lines of the specification, or its first unusable room, and adds up their prices |
| BookingPricing.PriceExtras | src/api/routes.py:608-630 | the extras loop yields exactly the extra lines of the specification, or its first unusable extra, and adds up their prices |
| BookingPricing.KeptExtrasFacts | src/api/routes.py:680-714 | on update, unknown or inactive extras are skipped; the kept lines are priced like `add_to_cart`'s and agree with them when all extras are usable |
| BookingPricing.Reprice | src/api/routes.py:680-714 | re-pricing reuses stored room prices and prices the new extras with the current guest count |
| BookingAvailability.OpenDates | src/api/routes.py:387-413 | at most one offer per day of the range, every offer dated within it |
| BookingAvailability.OpenDatesExact | src/api/routes.py:387-413 | exactly the dates in the range on a scheduled weekday with at least `guests` places left are offered, increasing, each with its places left |
| BookingAvailability.ExperienceOffersExact | src/api/routes.py:380-418 | an experience is offered iff it is active and has an open date, with all its open dates |
| BookingAvailability.DatesFor | src/api/routes.py:385-413 | the day loop for one experience yields exactly the offered dates of the range, in order |
| BookingAvailability.AvailableExperiences | src/api/routes.py:369-421 | a missing or unparseable date or party size is exactly the 400 case; otherwise the loops compute the offers, with guests defaulting to 1 |
| BookingAvailability.ExperienceLoop | src/api/routes.py:379-421 | the loop over experiences computes `ExperienceOffers` |
| BookingAvailability.RoomOffers | src/api/routes.py:452-482 | at most one offer per room, each for an active catalogue room and the stay's night count |
| BookingAvailability.RoomOffersExact | src/api/routes.py:452-482 | a room is offered iff it is active and every night is neither held by a confirmed or pending booking nor blocked; the offer is price per night × nights |
| BookingAvailability.HeldRoomNotOffered | src/api/routes.py:457-475 | a room held by a confirmed or pending booking on a night of the stay is not offered |
| BookingAvailability.NightsFree | src/api/routes.py:457-475 | the night loop of one room reports it available exactly when every night of the stay is free |
| BookingAvailability.AvailableRooms | src/api/routes.py:438-484 | a missing or unparseable date is refused (400), and so is check-in ≥ check-out; otherwise the nested loops compute the offers |
| BookingEndpoints.Effect | src/api/routes.py:1072-1099 | success confirms the booking and marks payment succeeded; failure marks payment failed and keeps the status; other events change nothing |
| BookingEndpoints.EffectIdempotent | src/api/routes.py:1072-1099 | applying an event twice equals applying it once |
| BookingEndpoints.Revise | src/api/routes.py:674-716 | the update steps compute the revised booking |
| BookingEndpoints.GuestsAloneKeepTotal | src/api/routes.py:674-675 | changing only the guest count keeps the total and extras |
| BookingEndpoints.RevisedTotal | src/api/routes.py:680-714 | with new extras the total is the stored base for the new guest count + Σ stored room prices + Σ kept extras |
| BookingEndpoints.Issue | src/api/routes.py:989-1021 | no issue iff the experience (if any) has room for the party and no room line clashes; a taken room is named by a clashing line |
| BookingEndpoints.FirstClash | src/api/routes.py:1005-1021 | no clash iff no room line has a night taken by another holding booking; otherwise a clashing room is named |
| BookingEndpoints.IssuesNoneExact | src/api/routes.py:989-1021 | checkout passes iff no selected booking has an issue |
| BookingEndpoints.VetAll | src/api/routes.py:986-1021 | the loop over the selected items yields the first item's issue in table order, or none |
| BookingEndpoints.Vet | src/api/routes.py:989-1021 | the checkout loops compute a booking's issue: experience places first, then every night of every room |
| BookingEndpoints.Ids | src/api/routes.py:1031 | the ids of the bookings, in order |
| BookingEndpoints.IndexOf | src/api/routes.py:1077-1089 | the position of the booking with the id, or none |
| BookingEndpoints.CartIndex | src/api/routes.py:664-671 | the position of the user's cart item with the id, or none |
| BookingEndpoints.OccupiedBy | src/api/routes.py:1005-1021 | a holding booking with a room line over a night occupies it |
| BookingEndpoints.CartItemsDoNotClash | src/api/routes.py:1005-1021 | when no booking holds anything, no room line clashes; cart items are never checked against one another |
| BookingEndpoints.DoubleHold | src/api/routes.py:1035-1040 | two overlapping cart items of one room both hold the shared night once settled |
| BookingEndpoints.Bookings.constructor | src/api/routes.py:509-642 | the table starts empty, with the first id 1 |
| BookingEndpoints.Bookings.AddToCart | src/api/routes.py:509-642 | a refused request stores nothing; an accepted one appends one cart item with the next id and the computed total, expiring 30 minutes later |
| BookingEndpoints.Bookings.UpdateCartItem | src/api/routes.py:659-728 | only the user's own cart item changes, to its revised form; otherwise nothing changes |
| BookingEndpoints.Bookings.Checkout | src/api/routes.py:968-1054 | refusals change nothing; when a selected item has an issue, the refusal is that issue; otherwise a refused intent is a payment error; on success the amount is Σ totals of the selected items, and exactly those become pending/processing with the intent and no expiry |
| BookingEndpoints.Bookings.SettleChosen | src/api/routes.py:1035-1040 | each selected booking becomes pending/processing with the intent id and status and no expiry; every other booking and the table length stay the same |
| BookingEndpoints.Bookings.Webhook | src/api/routes.py:1058-1102 | bad payload or signature gives 400 and no change; otherwise each named booking gets the event's effect, the rest are untouched, status 200 |
| RoomDetail.CalculateNights | src/front/pages/RoomDetail.jsx:64-71 | 0 while a date is missing, otherwise the absolute day difference; never negative |
| RoomDetail.CalculateTotal | src/front/pages/RoomDetail.jsx:73-88 | 0 before loading, otherwise price per night × nights + each extra: per-guest price × capacity × nights, any other its price |
| RoomDetail.AddToCart | src/front/pages/RoomDetail.jsx:90-120 | missing dates and check-in ≥ check-out are refused, and any other stay is accepted; the entry carries guests = capacity, the night count and the shown total |
| RoomDetail.ExtraChargeVersusBackend | src/front/pages/RoomDetail.jsx:80-81 | the page charges a per-guest extra nights times what the backend charges for one unit, strictly more for two or more nights; flat extras agree |
| ExperienceDetail.Fewer | src/front/pages/ExperienceDetail.jsx:211 | the minus button never goes below 1 |
| ExperienceDetail.More | src/front/pages/ExperienceDetail.jsx:219 | the plus button never goes above the capacity |
| ExperienceDetail.ButtonsKeepRange | src/front/pages/ExperienceDetail.jsx:211-219 | both buttons keep guests within 1..capacity |
| ExperienceDetail.InitialMayExceedCapacity | src/front/pages/ExperienceDetail.jsx:209-223 | the counter starts at 2 (line 17) even for a capacity of 1; there the plus button is disabled and the minus button brings the count down to the capacity |
| ExperienceDetail.CalculateTotal | src/front/pages/ExperienceDetail.jsx:64-78 | 0 before loading, otherwise price × guests + per-guest extras × guests + other extras once |
| ExperienceDetail.OneMoreGuest | src/front/pages/ExperienceDetail.jsx:64-78 | one more guest adds the place price and each per-guest extra once |
| ExperienceDetail.PerGuestStep | src/front/pages/ExperienceDetail.jsx:70-75 | the extras' charge grows by the per-guest prices with each guest |
| ExperienceDetail.AddToCart | src/front/pages/ExperienceDetail.jsx:80-101 | a missing date is refused; the entry carries date, guests, price, extras and the shown total |
| Configurator.Lookup | src/front/components/CustomerPortal/Configurator.jsx:56-58 | the value of a feature with the key, or none |
| Configurator.FindChoice | src/front/components/CustomerPortal/Configurator.jsx:57-61 | an option with the name, or none |
| Configurator.DefaultsExact | src/front/components/CustomerPortal/Configurator.jsx:32-40 | exactly the features with options get a default, their first option |
| Configurator.DefaultCustomization | src/front/components/CustomerPortal/Configurator.jsx:32-40 | the loop computes the defaults; no features gives none |
| Configurator.TotalPrice | src/front/components/CustomerPortal/Configurator.jsx:50-66 | base price + Σ cost of each selected option present, a missing cost counting 0 |
| Configurator.Breakdown | src/front/components/CustomerPortal/Configurator.jsx:158-172 | a line exactly for each selection adding a positive amount |
| Configurator.BreakdownAddsUp | src/front/components/CustomerPortal/Configurator.jsx:158-172 | with no negative costs, the lines add up to the extras part of the total |
| Configurator.Change | src/front/components/CustomerPortal/Configurator.jsx:68-73 | the changed key takes the value; every other key is unchanged |
| Configurator.SaveQuote | src/front/components/CustomerPortal/Configurator.jsx:75-79 | without a user it redirects to login and sends nothing; otherwise it sends the product and customization |
| CheckoutPage.GrandTotalAfterAdd | src/front/pages/Checkout.jsx:37-39 | adding an entry raises the grand total by its subtotal |
| CheckoutPage.GrandTotalAfterRemove | src/front/pages/Checkout.jsx:37-39 | removing a valid index lowers it by that subtotal; other indices keep it |
| CheckoutPage.EmailPatternMeaning | src/front/pages/Checkout.jsx:48 | the regex holds iff there is no whitespace, exactly one `@` with a non-empty local part, and a domain `.` neither first nor last |
| CheckoutPage.ValidateForm | src/front/pages/Checkout.jsx:41-55 | email, name and phone are required; then the email must have the shape above |
| CheckoutPage.OrElse | src/front/pages/Checkout.jsx:84 | JavaScript `||` on numbers: 0 and missing fall through |
| CheckoutPage.ItemPayload | src/front/pages/Checkout.jsx:77-89 | guests = `guests || capacity`; a zero or missing night count is null; dates and subtotal carried over |
| CheckoutPage.BuildPayload | src/front/pages/Checkout.jsx:68-91 | one item per cart entry in order; `total_amount` = grand total |
| CheckoutPage.PayloadAddsUp | src/front/pages/Checkout.jsx:68-91 | the items' subtotals add up to `total_amount` |
| CheckoutPage.ItemsAddUp | src/front/pages/Checkout.jsx:77-90 | the mapped items' subtotals add up to the grand total |
| CheckoutPage.Render | src/front/pages/Checkout.jsx:22-27 | an empty cart redirects to the cart page and renders nothing |
| SearchBar.Increment | src/front/components/SearchBar.jsx:42-47 | one more of that type, with no bound of its own |
| SearchBar.Decrement | src/front/components/SearchBar.jsx:49-56 | lowers a counter only when above 0, so counters never go negative |
| SearchBar.ClicksKeepBounds | src/front/components/SearchBar.jsx:7-12 | the form starts with 2 adults and 0 children, and no enabled button leaves at least one adult, no negative children, at most 8 guests |
| SearchBar.ClickRunBounded | src/front/components/SearchBar.jsx:140-190 | any run of clicks from the initial form stays within those bounds |
| SearchBar.HandleSearch | src/front/components/SearchBar.jsx:15-40 | missing dates and check-in ≥ check-out are refused; the query's guests = adults + children |
| ProductDetail.Fewer | src/front/pages/ProductDetail.jsx:121 | minus gives max(1, q − 1) |
| ProductDetail.More | src/front/pages/ProductDetail.jsx:139 | plus gives min(stock, q + 1) |
| ProductDetail.Typed | src/front/pages/ProductDetail.jsx:129-134 | a typed integer is taken only within 1..stock; otherwise the quantity is unchanged |
| ProductDetail.QuantityInRange | src/front/pages/ProductDetail.jsx:11-139 | for a product in stock, the quantity starts at 1 and every edit keeps it within 1..stock |
| ProductDetail.ButtonAmount | src/front/pages/ProductDetail.jsx:148 | the shown price × quantity lies between one unit and the whole stock |
| ProductDetail.ButtonAmountStep | src/front/pages/ProductDetail.jsx:139-148 | each press of plus raises the amount by one unit price |
| ProductDetail.AddToCart | src/front/pages/ProductDetail.jsx:32-50 | without a user it redirects to login and posts nothing; otherwise it posts the product and quantity |

## Left out

- **Wall-clock time** is a parameter `now` where order or expiry matters; `isoformat` timestamps are otherwise dropped.
- **Float money and its rounding** (`round(x * 0.08, 2)`, `toFixed`, `parseFloat`): money is integer cents, and tax is a half-up rounding of 8% in cents. No lemma depends on its exact rounding.
- **Password hashing and JWT**:
  - a hash is an injective tag;
  - token decoding is a function parameter;
  - the decoder's verdict (valid, expired, invalid, no `user_id`) is a value, so the expiry time itself and the signature check are not modelled.
- **Random values** (`estimated_delivery`, tracking numbers) are dropped or passed in.
- **`localStorage`**: JSON serialisation is not modelled; the persisted cart is a field.
- **The payment provider**: its intent creation is a parameter, and webhook payload parsing and signature checking are an `Event` value. Checkout-session creation, `verify_payment` and the code after them are not modelled.
- **SQLAlchemy** queries and commits are operations on a sequence of bookings. A failed commit's id consumption is not modelled: ids are given only to stored bookings.
- **Other booking endpoints** in `src/api/routes.py` are not part of this model:
  - `clean_expired_carts`, `get_cart`, `remove_from_cart`, `clear_cart`;
  - `guest_checkout`;
  - the other catalogue endpoints.
- **Search dates:** a date is a day number, and `strptime` is abstracted: a date that is missing or does not parse arrives as `None`, which both searches answer with a 400. Manual room blocks are a set of (room, day) pairs.
- **Lower-casing and `\s` are ASCII only.** The email pattern's `\s` also matches Unicode spaces such as U+00A0; the model does not.
- **Configurator features** whose value is an array, string or number offer no options; the type distinction is not modelled beyond that.
- **Unmodelled endpoints** in other files:
  - `get_product_inventory` in `src/api/routes/inventory.py`;
  - `get_order` in `src/api/routes/orders.py`.
  These are plain lookups with a 404.
- **Rendering, navigation, alerts and fetch plumbing** of the pages are not modelled; only the values they compute and the outcomes they choose are.
- BookingEndpoints.Bookings.Checkout: does not model the manual room blocks, because the checkout in the source does not consult them; the model is faithful on this point, and only the room-search model uses the blocks.
- RoomDetail.CalculateNights: uses whole day numbers, so the `Math.ceil` over milliseconds only matters for times of day, which are not modelled.
- **Request bodies and `int()` parsing** are abstracted: a missing JSON body of `cancel_order` is `None` and answered with 415, the status recent Flask versions give to `request.json` without a JSON body (older versions answer differently); a query or body field read with `int()` arrives as absent, a number, or malformed.
- **Malformed dates in cart pricing:** a date `add_to_cart` cannot parse falls to its catch-all handler, a 500 with the exception text; the pricing model takes dates as day numbers and does not model that path.
