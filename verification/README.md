# Delivery-app order core in Dafny

This project models the core rules of a grocery delivery server built on Fastify and Mongoose.

- **Order lifecycle.** A customer checks out a cart into an order. Branch (fulfilment-centre) staff pack or cancel its line items. Customers or support cancel single items, which recomputes the total. A delivery partner takes a ready order and drives it to arriving, delivered or cancelled, recording the payment fields. Read-only listings split a partner's orders into pools, cut a branch's pending orders down to that branch's items, and page through all orders.
- **Order and ticket ids.** Each new order or support ticket draws the next value of a named counter and gets a human-readable id: "ORD" or "TKT" plus the number, zero-padded to five digits.
- **Home screen.** It decides which delivery slots a customer may still pick today and tomorrow, which branch serves the pincode, and which charges are shown.
- **Product slugs.** The `slugify` pipeline and the product save hook that applies it.
- **Coupons.** The coupon validator is an ordered chain of guards.
- **Account validators.** The customer phone format, the derived customer type, and the guards around password hashing and comparison.

## How the model is organised

Each handler is one atomic step on an in-memory store, with no database underneath.

- **Stateful parts are classes.**
  - `OrderModel.Order` is an order document. Its lifecycle fields are mutable, and `State()` views them as one value.
  - `OrderController.OrderStore` holds the order collection and the reference data the handlers look up. It has one method per handler.
  - `SequenceIds.Counters` is the counter collection.
  - `SupportTicket.Ticket`, `Slug.Product` and `User.Account` are the other documents whose save hooks change them.
  - Each handler method states the complete new state of the one order it may touch. Rejections leave that order unchanged.
  - Three methods are scenarios rather than handlers. `OrderModel.SaveTwo` and `SupportTicket.SaveTwo` save two new documents in turn and show their ids differ. `User.HashThenCompare` hashes a freshly set password and shows `comparePassword` still accepts it.
- **Pure parts are functions, with lemmas about them.** These are the guards and aggregates (`filter`/`every`/`reduce`), the listings, slot validity, `slugify`, the coupon guard chain and the validators.
- **Value representations.**
  - Money is an integer, and `discount.amt` arrives already parsed.
  - Times are integer milliseconds on one clock. A calendar date is a day number counted from 1970-01-01, which was a Thursday.
  - Object ids are natural numbers.
  - A slot's "HH:MM" start time arrives already split into hour and minute.
- **One `Status` type for orders and items.** `OrderModel.Status` is the union of every status string any handler writes. The schema enums are the predicates `InOrderStatusEnum` and `InItemStatusEnum`.

File layout:

| file | content |
|---|---|
| common.dfy | Option/Result, JavaScript truthiness, `Filter`/`Every` and their lemmas |
| decimal.dfy | `toString` of a natural number, `padStart`, decimal parsing |
| sequence_ids.dfy | the counter collection and the prefixed, padded id format |
| order_model.dfy | statuses, line items, the `Order` document and its pre-save hook |
| order_controller.dfy | checkout, packing, cancellation, fulfilment-centre and delivery-partner handlers |
| order_queries.dfy | delivery pools, a branch's pending orders, paginated listing |
| home.dfy | slot validity, day labels, branch and charge selection |
| slug.dfy | `slugify` and the product save hook |
| coupon.dfy | coupon validation |
| user.dfy | phone validator, customer type, password guards |
| support_ticket.dfy | ticket ids |

## Model

| member | source | states |
|---|---|---|
| SequenceIds.Counters.Next | src/models/order.js:127-134 | the named counter goes up by exactly one and the new value is returned; a counter never used before starts from 0, like the upsert; every other counter is unchanged |
| SequenceIds.SequenceId | src/models/order.js:139 | the id starts with the prefix and has at least five characters after it |
| SequenceIds.SequenceIdDecodes | src/models/order.js:139 | the digits after the prefix parse back to the sequence number, so the zero padding loses nothing |
| SequenceIds.SequenceIdInjective | src/models/order.js:127-142 | different sequence numbers give different ids |
| SequenceIds.SequenceIdWidth | src/models/order.js:139 | below 100000 an id is the prefix plus exactly five digits; from 100000 on it is longer, because padStart never truncates |
| SequenceIds.PrefixesSeparate | src/models/SupportTicket.js:32 | ids with different prefixes of the same length ("ORD", "TKT") never collide |
| OrderModel.DefaultsInEnums | src/models/order.js:39-117 | the defaults (item and order status pending, payment COD/pending) lie inside the schema enums |
| OrderModel.Order.constructor | src/models/order.js:95-124 | a new document is unsaved and has no id; its status is pending, its payment COD/pending, and it has no partner and no timestamps |
| OrderModel.Order.Save | src/models/order.js:136-142 | a new order draws the next "orderId" value and gets "ORD" plus that value padded to five digits; a saved order keeps its id and draws nothing |
| OrderModel.SaveTwo | src/models/order.js:127-142 | two new orders saved in turn get different ids, and saving the first one again does not change that |
| SupportTicket.Ticket.constructor | src/models/SupportTicket.js:5-16 | a new ticket is unresolved and keeps any preset ticketId |
| SupportTicket.Ticket.Save | src/models/SupportTicket.js:19-35 | only a new ticket without an id draws a "ticketId" value and gets "TKT" plus five padded digits; a preset id or a saved ticket is left alone; the "orderId" counter is never touched |
| SupportTicket.SaveTwo | src/models/SupportTicket.js:29-35 | two new tickets saved in turn get different ids |
| OrderController.AllActivePacked | src/controllers/order/order.js:509-511 | holds iff every non-cancelled item is packed |
| OrderController.BranchActivePacked | src/controllers/order/order.js:499-502 | holds iff every non-cancelled item of the branch is packed |
| OrderController.AllPacked | src/controllers/order/order.js:680 | holds iff every item is packed, cancelled items included |
| OrderController.AllCancelledCountsAsPacked | src/controllers/order/order.js:509-511 | an order whose items are all cancelled passes the "all active packed" check vacuously but fails the fulfilment-centre gate |
| OrderController.FilteredSumIsContributionSum | src/controllers/order/order.js:562-563 | the filter-then-reduce of the handler equals a plain sum of each item's contribution (its itemTotal if live, else 0) |
| OrderController.ActiveItemsTotal | src/controllers/order/order.js:562-563 | Σ itemTotal over the non-cancelled items equals the reference sum of the items' contributions |
| OrderController.RecomputedTotal | src/controllers/order/order.js:562-570 | the new total is the reference sum of live contributions + delivery + handling − discount, each absent value counting as 0 |
| OrderController.ActiveTotalUpdate | src/controllers/order/order.js:562-570 | replacing one item changes the recomputed item total by exactly the difference of the two contributions, so recomputing from scratch agrees with a delta update |
| OrderController.CancelRemovesItemTotal | src/controllers/order/order.js:558-570 | cancelling a live item lowers the items' part of the total by exactly its itemTotal |
| OrderController.FindItem | src/controllers/order/order.js:547-551 | returns the first item carrying the id, or none when no item carries it |
| OrderController.NewLineItem | src/controllers/order/order.js:58-75 | the line item copies product, variantId, branch, name, image, count and price from the cart entry, has itemTotal = price × count, takes its unit from the variant's quantity ("" when the variant is unknown), and starts pending and uncancelled |
| OrderController.DeliveryLocationOf | src/controllers/order/order.js:31-42 | a customer without an address gets zero coordinates and empty text; in a given address each part that is present is copied and each missing part (coordinates, houseNo, streetAddress, landmark, city, state, pinCode, country) becomes 0 or "", so a partly filled address keeps what it has |
| OrderController.MissingAddressIsEmpty | src/controllers/order/order.js:31 | no address at all gives the same snapshot as an empty address, the default the handler falls back to |
| OrderController.DeliveryLocationCopiesAddress | src/controllers/order/order.js:32-42 | a fully filled address is copied into the snapshot part for part |
| OrderController.NewLineItems | src/controllers/order/order.js:58-75 | one line item per cart entry, in cart order |
| OrderController.PickupBranchIds | src/controllers/order/order.js:44-48 | the referenced branches that exist, each once; there are as many as the distinct existing branches referenced |
| OrderController.PickupLocations | src/controllers/order/order.js:44-55 | one pickup location per distinct referenced branch that exists, never two for one branch, with that branch's coordinates and address (or the support text when the address is empty) |
| OrderController.DistinctKnown | src/controllers/order/order.js:44-48 | keeps exactly the known ids of the list, each once |
| OrderController.HttpStatus | src/controllers/order/order.js:10-843 | a server error is sent as 500; order, item, customer and partner not found as 404; another branch's item and an unauthorised partner as 403; every other rejection as 400 |
| OrderController.WrittenStatusesAgainstEnums | src/models/order.js:39-109 | which statuses the handlers write fall outside the schema enums: cancelled and confirmed items; upi and cash orders; available, processing, dispatched and confirmed orders |
| OrderController.FcItemUpdate | src/controllers/order/order.js:706-715 | item i takes the new status; the order becomes packed, with packedAt stamped, iff every item is then packed; nothing else changes |
| OrderController.SaveNewOrder | src/controllers/order/order.js:77-91 | the saved order has the checkout fields, the schema defaults and the freshly drawn "ORD" id, and the order counter moved by one |
| OrderController.SetPackingStatus | src/controllers/order/order.js:495-528 | the item takes the new status; the order becomes packed, with packedAt re-stamped, exactly when every live item is packed; otherwise its status is untouched; the reply message tells these cases apart |
| OrderController.SetFcItemStatus | src/controllers/order/order.js:706-715 | the order's new state is `FcItemUpdate` of its old state |
| OrderController.OrderStore.constructor | src/controllers/order/order.js:10-843 | an empty store over the given customers, partners, branches and products |
| OrderController.OrderStore.CreateOrder | src/controllers/order/order.js:10-97 | an unknown customer is a 404 and an unknown product a 500, and both leave the store and counters unchanged; otherwise exactly one fresh order is added, carrying the built items, pickup locations, delivery snapshot, the client's totalPrice, the defaults and the next "ORD" id |
| OrderController.OrderStore.ConfirmOrder | src/controllers/order/order.js:100-144 | succeeds iff a known partner id is given and the order is ready or packed, whatever partner it already has; it then sets the partner, status assigned and assignedAt and nothing else; every rejection changes nothing |
| OrderController.OrderStore.UpdateOrderStatus | src/controllers/order/order.js:147-182 | accepts exactly available, processing, dispatched, delivered and cancelled, from any current status; only the status changes |
| OrderController.OrderStore.AcceptOrderByDeliveryPartner | src/controllers/order/order.js:348-393 | rejects an order that already has a partner or is not available; otherwise sets the partner, status processing and processingAt and nothing else |
| OrderController.OrderStore.UpdateItemPackingStatus | src/controllers/order/order.js:468-537 | rejects a status outside packing/packed/cancelled, an unknown item, and another branch's item, each leaving the order unchanged; on success the item takes the new status, the order becomes packed (packedAt re-stamped) exactly when every live item is packed, and the message is "marked packed", "waiting for others", or "item status updated" with the cancellation suffix exactly when the new status is cancelled |
| OrderController.OrderStore.CancelOrderItem | src/controllers/order/order.js:539-582 | rejects an unknown or already-cancelled item, changing nothing; otherwise the item becomes cancelled with its reason ("Not specified" by default); totalPrice becomes Σ itemTotal over live items + delivery + handling − discount, with absent values as 0, which is the old item total minus the cancelled item's itemTotal plus the charges |
| OrderController.OrderStore.UpdateOrderStatusByFC | src/controllers/order/order.js:651-730 | a cancelled or delivered order is rejected and unchanged; confirmed is idempotent and stamps confirmedAt only once; ready succeeds iff every item, cancelled ones included, is packed, and then stamps readyAt; an item update needs an allowed status and 0 ≤ itemIndex < item count, and then has the effect of `FcItemUpdate` |
| OrderController.OrderStore.UpdateOrderStatusByDeliveryPartner | src/controllers/order/order.js:779-843 | only the assigned partner may update, and only a non-terminal order; the status and its `<status>At` are set; payment method and status change only when given |
| OrderQueries.VisibleTo | src/controllers/order/order.js:744-753 | every ready or packed order is visible; a visible order belongs to one of the three pools; a visible order of another partner is ready or packed |
| OrderQueries.DeliveryPools | src/controllers/order/order.js:732-777 | a missing userId is a 400; the available pool is exactly the ready or packed orders found, whoever their partner is; the assigned and delivered pools are exactly this partner's assigned/arriving and delivered/cancelled orders |
| OrderQueries.PoolsPartitionQuery | src/controllers/order/order.js:760-770 | the three pools never overlap and together hold every order the query found |
| OrderQueries.OtherPartnersOrdersOnlyAvailable | src/controllers/order/order.js:744-753 | another partner's order appears only in the available pool, and only while ready or packed |
| OrderQueries.BranchItems | src/controllers/order/order.js:610-618 | keeps exactly the items of the branch |
| OrderQueries.PendingFor | src/controllers/order/order.js:597-600 | a matching order is not cancelled or delivered and has items |
| OrderQueries.ForBranch | src/controllers/order/order.js:604-618 | the order's `_id`, which an inclusive select keeps, and the selected fields (customer, slot, orderId, status, createdAt, totalPrice, pickupLocations) are copied, and the items are cut down to exactly the branch's, of which there is at least one; no other field is sent |
| OrderQueries.PendingOrdersForBranch | src/controllers/order/order.js:584-627 | one entry per pending order that has an item of the branch, in query order, each the projection of that order onto the selected fields with exactly that branch's items |
| OrderQueries.MatchesQuery | src/controllers/order/order.js:249-259 | with no filter every order matches; a date range that starts after it ends matches nothing |
| OrderQueries.TotalPages | src/controllers/order/order.js:277-282 | `Math.ceil(total / limit)`: for a positive limit, the least page count covering the total; none for a zero limit |
| OrderQueries.GetAllOrders | src/controllers/order/order.js:242-287 | a negative skip fails; otherwise the page holds the filtered documents from skip = (page − 1) × limit, at most limit of them (no cap for limit 0), with totalOrders, currentPage and totalPages, and hasMore iff documents remain after the page |
| OrderQueries.PageEndsBeforeTotal | src/controllers/order/order.js:277-282 | page p ends before the last match exactly when p is below the total page count |
| OrderQueries.HasMoreIffLaterPage | src/controllers/order/order.js:277-282 | with a positive limit and page ≥ 1, hasMore says exactly that currentPage < totalPages |
| Home.WeekdayOf | src/controllers/home/home.js:31-41 | the weekday name of a day number; day 0, 1970-01-01, is a Thursday |
| Home.WeekdayPeriodic | src/controllers/home/home.js:31-41 | the weekday name repeats every seven days, and each day's weekday is the calendar successor of the previous day's (Sunday after Saturday), so with day 0 a Thursday every day's weekday is fixed |
| Home.SlotStart | src/controllers/home/home.js:44-49 | a slot start within the day lies inside that calendar day |
| Home.IsSlotValid | src/controllers/home/home.js:27-58 | an inactive slot is never valid; a slot not offered on the weekday is never valid; otherwise it is valid iff slot start − now ≥ minOrderTimeMinutes × 60000 |
| Home.ValidEarlier | src/controllers/home/home.js:44-55 | a slot valid at some instant was valid at every earlier instant of the same day |
| Home.CutoffBoundary | src/controllers/home/home.js:44-55 | the exact cutoff instant is accepted, and one millisecond later is refused |
| Home.FormatSlot | src/controllers/home/home.js:14-21 | the formatted slot copies the slot's fields, is marked available and carries the date it was checked for |
| Home.ValidSlots | src/controllers/home/home.js:64-75 | holds a formatted entry for every valid slot and nothing else, each available and dated |
| Home.ValidSlotsAppend | src/controllers/home/home.js:64-75 | filtering keeps input order: the slots of a concatenation are the concatenated slots |
| Home.DayLabel | src/controllers/home/home.js:87 | day 0 is "today"; day i > 0 is "day" followed by the decimal numeral of i + 1, without leading zeros, which parses back to i + 1 |
| Home.DayLabelsDistinct | src/controllers/home/home.js:87 | different days never share a label |
| Home.SlotsForDays | src/controllers/home/home.js:80-92 | returns `days` entries (none if days ≤ 0); entry i is labelled for day i and holds the valid slots of the date today + i |
| Home.FirstActiveBranch | src/controllers/home/home.js:118-124 | the first branch whose isActive is not explicitly false; none iff every branch is explicitly inactive |
| Home.ChargeOrDefault | src/controllers/home/home.js:151-157 | a tier list or a non-zero number is kept; a missing or zero charge becomes the default |
| Home.CodAvailable | src/controllers/home/home.js:190 | cash on delivery is always reported available |
| Home.HomeHttpStatus | src/controllers/home/home.js:97-124 | a missing pincode is sent as 400 and every other refusal as 404 |
| Home.Home | src/controllers/home/home.js:94-237 | a missing pincode is a 400; an unknown area or one without branches a 404; no active branch a 404; otherwise the first active branch serves, with two days of slots (today, day2) and the charges defaulting to 0 for delivery and 5 for handling |
| Slug.LowerChar | src/models/products.js:5 | an ASCII upper-case letter becomes the lower-case letter at the same place in the alphabet; every other character is left unchanged; the result is never upper case and keeps word-or-dash membership |
| Slug.KeepWordOrDash | src/models/products.js:7 | keeps exactly the word characters and '-' |
| Slug.SkipRun | src/models/products.js:9 | drops exactly the leading run of '-' |
| Slug.TrimEnd | src/models/products.js:10 | drops exactly the trailing run of '-' |
| Slug.RunsToNoDouble | src/models/products.js:6-8 | after a run-collapsing replace there are no two consecutive copies of the replacement |
| Slug.Slugify | src/models/products.js:3-11 | a missing or empty input gives the empty string; every output is a slug: each character is in [a-z0-9_-], it never holds "--", and it never starts or ends with '-' |
| Slug.SlugifyFixesSlug | src/models/products.js:3-11 | a string that is already a slug is returned unchanged |
| Slug.SlugifyIdempotent | src/models/products.js:3-11 | slugify(slugify(s)) = slugify(s) |
| Slug.WhitespaceRunBecomesDash | src/models/products.js:6-8 | two slug words joined by any run of whitespace come out joined by a single '-' |
| Slug.Product.constructor | src/models/products.js:65-72 | a new product has its name marked modified and no slug yet |
| Slug.Product.PreSave | src/models/products.js:65-72 | the slug is regenerated from the name iff the name was modified or the slug is unset, and is otherwise kept; updatedAt is always refreshed |
| Coupon.CouponHttpStatus | src/controllers/offer.js:5-100 | an unknown code or user is sent as 404, a server error as 500, and every other rejection (missing code, expired, cart below the minimum, wrong user type, missing product) as 400 |
| Coupon.FindActiveOffer | src/controllers/offer.js:14-22 | the first active offer with the code, or none when no active offer has it |
| Coupon.CheckCoupon | src/controllers/offer.js:5-100 | a missing code is refused first, then an unknown code; success reveals only the offer's title, rewards and scope |
| Coupon.CouponRulesHold | src/controllers/offer.js:5-100 | when every rule holds, the coupon is the active offer with the code, it has not expired (now ≤ validTill), and a given user of a "new" coupon is a known customer without orders, of an "existing" coupon one with orders |
| Coupon.ValidateCoupon | src/controllers/offer.js:5-100 | succeeds iff every rule holds: code present and known; not expired (validTill strictly before now); no truthy minCartValue above the cart total; when both a userType and a userId are given, the user exists and is new/existing as demanded; a non-empty requiredProducts list meets the cart |
| Coupon.ExpiryDecidesFirst | src/controllers/offer.js:24-26 | an expired coupon is reported as expired whatever else fails |
| Coupon.LaterGuardsInOrder | src/controllers/offer.js:29-83 | each later guard reports its own error once every earlier one has passed |
| Coupon.MissingCodeBeforeLookups | src/controllers/offer.js:9-11 | a missing code gets the same 400 whatever the offers, customers and orders are |
| Coupon.ValidateCouponAsWritten | src/controllers/offer.js:1-100 | the handler as it stands, where the order lookup throws: it differs from the corrected rule chain only by answering 500 |
| Coupon.AsWrittenUserTypeFails | src/controllers/offer.js:39-61 | a "new" or "existing" coupon shown with a known customer's id always ends in the 500 branch |
| Coupon.NewUserCouponExample | src/controllers/offer.js:47 | a first-time customer's "new users" coupon: 500 as written, accepted by the corrected rule chain |
| User.LeadingDigits | src/models/user.js:61 | counts exactly the ASCII digits the string starts with |
| User.IsValidPhone | src/models/user.js:61 | a phone is accepted iff it is 10 to 15 ASCII digits and nothing else |
| User.PlusPrefixRefused | src/models/user.js:61 | a number written with a leading '+' is refused |
| User.CalculatedUserType | src/models/user.js:104-109 | "existing" iff ordersCount is a number above 5; "new" at 5 and when it is missing |
| User.UserTypeMonotone | src/models/user.js:104-109 | a customer only moves from new to existing as the order count grows |
| User.ComparePassword | src/models/user.js:45-48 | with no stored password (absent or empty) the answer is false; otherwise it is the compare function's answer |
| User.Account.constructor | src/models/user.js:32-43 | a password given at creation counts as modified |
| User.Account.HashPassword | src/models/user.js:32-43 | the password is replaced by its hash iff it was modified and is non-empty; otherwise it is untouched |
| User.HashThenCompare | src/models/user.js:32-48 | with a compare that recognises its own hashes, the password a user set is accepted after the hook has hashed it |

## Left out

- Database access is not modelled. Every `find`, `populate`, `save` and `findByIdAndUpdate` is an in-memory lookup or update, and each handler is one atomic step.
  - The double save in updateItemPackingStatus is not modelled, nor is the read-then-write race in comfirmOrder; a sequential model cannot show them.
  - Query results come in the order the caller supplies. The order `Branch.find` returns branches in is taken to be the order in which the cart first references them.
- Mongoose validation is not modelled, so every save succeeds.
  - In the real schema, a `save()` that writes a status outside the enum is refused, and the handler answers 500. This happens with acceptOrderByDeliveryPartner's processing, the fulfilment-centre confirmed (on the order) and cancelled or confirmed (on an item), a cancelled item in updateItemPackingStatus and cancelOrderItem, and the partner's "upi" and "cash". The model instead stores the status the handler writes; `OrderController.WrittenStatusesAgainstEnums` names these statuses against `OrderModel.InOrderStatusEnum` and `InItemStatusEnum`.
  - updateOrderStatus writes through `findByIdAndUpdate`, which runs no schema validators, so its available, processing and dispatched really are stored. It is the only handler that can put an order into available, the status acceptOrderByDeliveryPartner requires.
  - Strict mode would also drop undeclared timestamp keys (assignedAt, readyAt, processingAt, upiAt, cashAt) and the item fields cancellationReason and unit. The model keeps them.
- `User.CalculatedUserType`: ordersCount is not a customer field, so on real documents the virtual always answers "new". The function models the virtual's own rule.
- Socket.io emits, push notifications, analytics, exports and invoices are not modelled: they are side effects or separate reports.
- bcrypt is not modelled. `hashPassword` and `comparePassword` take the hash and compare functions as parameters, and hashing errors are not modelled.
- `TimeOfDay` holds a slot start already split into numbers, so a malformed startTime is not modelled. In the source, a startTime such as "9am" or "9" makes the slot start NaN; the cutoff test is then false, and isSlotValid offers the slot whatever the time.
- Clocks, timezones and date strings are not modelled. `now` and dates are parameters. The home handler's mix of local `setHours` and UTC `toISOString` is not modelled.
- Floating point is not modelled. Money is integer, `parseFloat` of discount.amt is taken as already done, and a fractional itemIndex is not modelled.
- Prices and counts are never checked, and totalPrice at checkout is stored as the client sent it. The model does the same.
- Several home-handler parts are not modelled: the offers, banners and other lists it also returns, and its catch-all 500.
- Population is not modelled. The branch listing sends customer and each item's product as populated documents; the model sends their ids.
- `String(...)` conversion of ids and the failures of malformed ObjectIds are not modelled; ids are natural numbers.
- LowerChar lowers only ASCII upper-case letters; every other character is kept as it is. JavaScript's `toLowerCase` also folds non-ASCII letters, and a few of them become ASCII: U+212A KELVIN SIGN becomes 'k' and U+0130 becomes 'i' followed by U+0307. So the source turns "\u212A" into the slug "k", while the model keeps the Kelvin sign and the `[^\w-]` step then drops it, giving "". Other non-ASCII letters are dropped by that step in both.

Behaviour of the code that the model follows as written:

- updateItemPackingStatus and cancelOrderItem accept terminal orders.
- packedAt is re-stamped whenever a later update finds every live item packed.
- comfirmOrder does not look at an existing delivery partner.
- The fulfilment-centre `ready` gate counts cancelled items, so an order cannot be made ready through it while any item is cancelled. Its item updates set any item, a cancelled one included, to any allowed status, so re-packing a cancelled item lets `ready` pass; they can also move an order from ready back to packed.
- The available pool shows every ready or packed order to every partner.
- Cancelling the last live item leaves every live item packed vacuously, but only the packing handler reacts to that.

## Findings

| source | as written | input that shows it | evidently intended | confidence | as-written member | corrected member |
|---|---|---|---|---|---|---|
| src/controllers/offer.js:1-3, 47, 55 | `Order.exists` is called but `Order` is never imported, so the userType branch throws and the handler answers 500 | an active "NEW50" offer with conditions.userType "new", presented with the id of an existing customer (`Coupon.NewUserCouponExample`) | "new" accepts a customer without orders and "existing" one with orders | not executed | Coupon.ValidateCouponAsWritten, Coupon.AsWrittenUserTypeFails | Coupon.ValidateCoupon, Coupon.CouponRulesHold |
