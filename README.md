# Order service: order lifecycle model

A Dafny model of the order microservice's core: turning a shopping cart into a stored
order, the two status transitions (self-service cancel and admin status update), the
owner-scoped lookups and paginated listings, the status statistics, and the two request
gates that check the bearer token and the caller's role. The MongoDB collection becomes
a class (`OrderStore.Store`) holding a sequence of `Order` values. That class also keeps
the schema validation and the unique index on `orderNumber`.

Modules, one per source file or component:

- `Wrappers`: `Option`.
- `Decimal`: the digit-string operations the order number is built from. These are
  `Number.prototype.toString`, `slice(-8)` and `padStart(3, '0')`.
- `OrderModel` (src/models/order.model.js): the enum types and their defaults, the item
  and order records, the schema validators, the `ORD-…` order number and the `pre('save')`
  hook. The hook exists twice: as `WithOrderNumber` on values and as `OrderDocument.PreSave`,
  which updates the document in place.
- `OrderStore`: the collection. It covers `save()` for new documents (hook, validation,
  unique index, id and `createdAt` assignment), re-saving after a status change, and the
  `findOne`/`findById` lookups.
- `OrderQueries`: the `find(query).sort({createdAt:-1}).skip().limit()` listing with
  `countDocuments` and `Math.ceil`.
- `OrderStats`: the `$group` by status fold and the revenue total.
- `OrderController` (src/controllers/order.controller.js): the eight handlers.
  - The three that write are methods on the store, each proved equal to an outcome function
    of the old store (`CreateOutcome`, `CancelOutcome`, `UpdateStatusOutcome`). Lemmas then
    state what those outcomes promise.
  - The five that only read are functions of the store's contents.
- `AuthMiddleware` (src/middlewares/auth.middleware.js): token extraction, with JavaScript
  `split(' ')` and its inverse `join(' ')`. The gates `authenticateUser` and
  `authenticateRole` are decision functions whose verifier is a function parameter. The
  request effect is either a response, or setting `req.user` and calling `next()` once.

Inputs that stand for I/O:

- `Date.now()` is the parameter `now`.
- `Math.floor(Math.random() * 1000)` is `rand`. Only the order-number lemmas require
  `rand < 1000`.
- The cart service's answer is a `CartReply`.
- The auth service's `verify-token` answer is the function `verify`.
- The Mongoose cast of the `:orderId` route parameter is `OrderIdParam`.

Prices and amounts are integers (cents).

Behaviour worth noting, as the code has it:

- The admin status update accepts `pending`, so an order can go back to `pending` from any
  state, `cancelled` included (`AdminMayReopen`). There is no transition table: any of the
  five statuses can follow any other.
- A route id that is not a valid ObjectId makes Mongoose throw a cast error, so the answer
  is 500, not 404.
- `updateOrderStatus` checks the status value before it casts the id.
- A `paymentMethod` outside the enum is refused by schema validation, so the answer is 500.
- Mongoose validates a document before the schema's `pre('save')` hook runs. A document
  that fails validation is therefore left without a generated order number.
- The listings default to `page = 1` and `limit = 10` when the query leaves them out.

## Model

| member | source | states |
|---|---|---|
| `Decimal.ToString` | src/controllers/order.controller.js:45 | `Date.now().toString()` is a non-empty string of decimal digits |
| `Decimal.ValueOfToString` | src/controllers/order.controller.js:45 | the digit string spells the number back: `Value(ToString(n)) == n` |
| `Decimal.LastDigits` | src/controllers/order.controller.js:45 | for a number with at least k digits, `slice(-k)` keeps exactly k digits, and they spell `n % 10^k` |
| `Decimal.PaddedDigits` | src/controllers/order.controller.js:46 | for `n < 10^k`, `padStart(k, '0')` gives exactly k digits, and they spell n |
| `Decimal.SliceLast` | src/controllers/order.controller.js:45 | `slice(-k)` keeps the last k characters, or the whole string when it is shorter |
| `Decimal.PadZeros` | src/controllers/order.controller.js:46 | `padStart(k, '0')` gives length at least k, ends with the input, and everything before it is `'0'` |
| `Decimal.ValueInjective` | src/controllers/order.controller.js:45-46 | two digit strings of equal length with the same value are equal |
| `OrderModel.ParseStatus` | src/models/order.model.js:49-53 | a string is accepted exactly when it names one of the five statuses, and the result is the status it names |
| `OrderModel.ParsePaymentMethod` | src/models/order.model.js:61-65 | a string is accepted exactly when it names one of the four payment methods, and the result is the method it names |
| `OrderModel.StatusNamesRoundTrip` | src/models/order.model.js:51 | every status's schema string parses back to that status |
| `OrderModel.PaymentMethodNamesRoundTrip` | src/models/order.model.js:63 | every payment method's schema string parses back to that method |
| `OrderModel.OrderNumber` | src/controllers/order.controller.js:45-47 | the template `ORD-${timestamp}-${random}`: it starts with `ORD-`, and its length is the two parts' lengths plus 5 |
| `OrderModel.OrderNumberFormat` | src/controllers/order.controller.js:45-47 | for a clock of at least 8 digits and a draw below 1000, the number matches `ORD-\d{8}-\d{3}`; its digit groups spell `now % 10^8` and the draw |
| `OrderModel.OrderNumberLayout` | src/controllers/order.controller.js:47 | `ORD-` + 8 digits + `-` + 3 digits has the pattern's layout, and the two groups sit at positions 4..12 and 13..16 |
| `OrderModel.OrderNumberCollision` | src/controllers/order.controller.js:45-47 | two generated numbers are equal exactly when the clocks agree modulo 10^8 and the draws agree (both directions) |
| `OrderModel.ShortClockOrderNumber` | src/controllers/order.controller.js:45 | `slice(-8)` does not pad: a clock below 10^7 gives a number shorter than 16 characters |
| `OrderModel.WithOrderNumber` | src/models/order.model.js:77-84 | the hook leaves an order with a number unchanged; otherwise it sets only `orderNumber`, to the generated one; the result always has a number |
| `OrderModel.PreSaveIdempotent` | src/models/order.model.js:78 | running the hook twice, with any clocks and draws, gives the same document as running it once |
| `OrderModel.OrderDocument.PreSave` | src/models/order.model.js:77-84 | the in-place hook leaves the document equal to `WithOrderNumber` of its old contents |
| `OrderStore.Find` | src/controllers/order.controller.js:132-254 | returns the first position the selector matches, or none exactly when no document matches |
| `OrderStore.SaveOutcome` | src/models/order.model.js:27-84 | validation runs before the hook; a save succeeds exactly when the document is schema-valid and its number is not taken; a document failing a validator fails with the validation error; a valid document with a taken number fails with the duplicate-key error for that number; a saved document gets the next id and `createdAt == now`, and nothing else changes except the hook's number |
| `OrderStore.SaveKeepsInvariant` | src/models/order.model.js:12-37 | after a save, every stored document is still valid and numbered, and ids and order numbers stay pairwise distinct |
| `OrderStore.StatusChangeKeepsInvariant` | src/controllers/order.controller.js:194-195 | re-saving a stored order with only its status changed keeps the collection invariant |
| `OrderStore.Store.Save` | src/controllers/order.controller.js:65 | `order.save()`: the result is `SaveOutcome` of the old collection; the new document is appended only on success; a document that fails validation is left as it was, one refused by the unique index keeps the hook's number; the invariant is kept |
| `OrderStore.Store.SetStatus` | src/controllers/order.controller.js:194-195 | `order.status = s; save()`: only that order's status changes; the invariant is kept |
| `OrderQueries.Select` | src/controllers/order.controller.js:102-105 | an order is selected exactly when it is stored and matches the owner and status conditions, and as often as it is stored, so the length is the `countDocuments` count |
| `OrderQueries.SortNewestFirst` | src/controllers/order.controller.js:106 | the result is ordered by `createdAt`, descending, and is a permutation (same multiset) of its input |
| `OrderQueries.SortKeepsTies` | src/controllers/order.controller.js:106 | the sort is stable: for every timestamp, the orders created then come out in store order |
| `OrderQueries.InsertKeepsTies` | src/controllers/order.controller.js:106 | inserting into a newest-first sequence puts the order in front of its ties |
| `OrderQueries.TiesKeepStoreOrder` | src/controllers/order.controller.js:106 | two orders with the same `createdAt` are listed in store order |
| `OrderQueries.InsertNewestFirst` | src/controllers/order.controller.js:106 | inserting into a newest-first sequence keeps it newest first and adds exactly that order to the multiset |
| `OrderQueries.PageOf` | src/controllers/order.controller.js:107-108 | the page is the slice that starts at `(page-1)*limit` and holds `limit` orders, fewer at the end, none past the end |
| `OrderQueries.TotalPages` | src/controllers/order.controller.js:115 | `Math.ceil(count/limit)`: the least r with `r*limit >= count` |
| `OrderQueries.List` | src/controllers/order.controller.js:102-117 | the response fields: `total` is the match count, `totalPages` its ceiling over `limit`, `currentPage` the requested page, at most `limit` orders |
| `OrderQueries.ListedOrdersMatch` | src/controllers/order.controller.js:102-108 | every listed order is stored and matches the query |
| `OrderQueries.ListedNewestFirst` | src/controllers/order.controller.js:105-108 | every listing is newest first |
| `OrderQueries.ListingIsWindow` | src/controllers/order.controller.js:105-117 | `total` is the number of matches; the listing is exactly `PageOf` of the sorted matches: `limit` orders from position `(page-1)*limit`, fewer at the end, none past the end |
| `OrderQueries.SelectAll` | src/controllers/order.controller.js:215-217 | a query with no status and no user condition selects the whole collection |
| `OrderQueries.PageNonEmptyIff` | src/controllers/order.controller.js:107-115 | a page has orders exactly when its number is at most `totalPages` |
| `OrderQueries.FifteenMatchesSecondPage` | src/controllers/order.controller.js:105-117 | with 15 matches, page 2 and limit 10 give 5 orders, `totalPages` 2 and `total` 15 |
| `OrderStats.Summarize` | src/controllers/order.controller.js:281-302 | the `stats` object: `totalOrders` is the collection size, `totalRevenue` the sum of totals; a group exists exactly for each status some order has, and it equals that status's reference count and amount sum; the groups add up to both totals |
| `OrderStats.GroupsAreExact` | src/controllers/order.controller.js:281-289 | a status has a group exactly when some order has that status; the group's count and amount equal that status's order count and amount sum |
| `OrderStats.GroupsSumToTotals` | src/controllers/order.controller.js:281-294 | the groups' counts add up to the number of orders, and their amounts add up to the revenue |
| `OrderStats.TallyAddsOne` | src/controllers/order.controller.js:285-286 | adding one order raises the count sum by 1 and the amount sum by that order's amount |
| `OrderStats.StatsTotals` | src/controllers/order.controller.js:291-300 | `totalOrders` is the collection size; `totalRevenue` is the sum of `totalAmount`, 0 (with no groups) when empty; the groups add up to both totals |
| `OrderStats.ThreeOrderExample` | src/controllers/order.controller.js:281-302 | pending orders of 10 and 20 plus a cancelled one of 5 give 3 orders, revenue 35, and groups pending (2, 30) and cancelled (1, 5) |
| `OrderController.OrderItems` | src/controllers/order.controller.js:34-40 | maps the cart lines one to one |
| `OrderController.ResolvePaymentMethod` | src/controllers/order.controller.js:61 | an absent method defaults to `cash`; a given one must be in the enum |
| `OrderController.CreateOutcome` | src/controllers/order.controller.js:15-93 | an order is stored exactly when the answer says success, and then the answer is 201 carrying that order; otherwise it is 400 or 500 with no order, and 400 exactly when the cart read failed, there is no cart or it has no items |
| `OrderController.CreateOrderFromCart` | src/controllers/order.controller.js:5-95 | the response and the new collection are those of `CreateOutcome`; at most this one order is added; the invariant is kept |
| `OrderController.CreateRejectsUnusableCart` | src/controllers/order.controller.js:15-31 | a failed cart read answers 400 `'Failed to retrieve cart: ' + msg`; no cart or no items answers 400 `'Cart is empty'`; nothing is stored either way |
| `OrderController.DraftValidIff` | src/models/order.model.js:3-37 | with prices and totals always present, the built order passes the string and `min: 1` validators exactly when it has an owner and every line has a product id and quantity at least 1 |
| `OrderController.CreateSucceedsIff` | src/controllers/order.controller.js:15-93 | an order is stored exactly when the answer is 201, and exactly when cart, payment method, items, owner and a free order number all allow it |
| `OrderController.CreatedOrderShape` | src/controllers/order.controller.js:34-63 | one item per cart line, in cart order, with the `'Product'` name default and `subtotal == price*quantity`; totals copied from the cart; `pending`/`pending` defaults; `cash` unless a method is given; the generated number; owner, id and timestamp set |
| `OrderController.CollisionIsNotRetried` | src/controllers/order.controller.js:65 | an order number already taken is not renumbered: the answer is 500 with the duplicate-key message, and nothing is stored |
| `OrderController.InvalidDraftRejected` | src/controllers/order.controller.js:65-93 | with a usable cart and a known payment method, any document failing a schema validator is refused by `save()`: 500 `'Order validation failed'`, nothing stored |
| `OrderController.RequiredFieldMissingRejected` | src/models/order.model.js:3-37 | a caller without `id` or `userId`, or a cart line without a product id, fails a `required` validator: 500, nothing stored |
| `OrderController.ZeroQuantityRejected` | src/models/order.model.js:12-16 | a cart line with quantity below 1 fails `min: 1`: 500, nothing stored |
| `OrderController.UnknownPaymentMethodRejected` | src/models/order.model.js:61-65 | a payment method outside the enum fails validation: 500, nothing stored |
| `OrderController.WidgetCartExample` | src/controllers/order.controller.js:34-87 | one Widget at 5 × 2 with cart totals 10 and 2 gives 201, one item with subtotal 10, total 10, `pending`, and a number of the form `ORD-\d{8}-\d{3}` |
| `OrderController.CancelOutcome` | src/controllers/order.controller.js:173-208 | the answer is 200, 400, 404 or 500; anything but 200 changes nothing; a malformed id answers 500 with the cast error; a 200 carries the caller's order with that id, now `cancelled`, as stored |
| `OrderController.CancelOrder` | src/controllers/order.controller.js:173-208 | the response and the new collection are those of `CancelOutcome`; the id counter is unchanged; the invariant is kept |
| `OrderController.CancelScopedToOwner` | src/controllers/order.controller.js:178-185 | an id the caller does not own, another user's order included, answers 404 and changes nothing |
| `OrderController.CancelOnlyFromPending` | src/controllers/order.controller.js:187-201 | the caller's pending order becomes `cancelled` with nothing else changed, and the answer is 200; any other status answers 400 `'Only pending orders can be cancelled'` and changes nothing |
| `OrderController.TransitionsTouchOnlyStatus` | src/controllers/order.controller.js:194-195 | neither transition adds, removes or reorders orders, and in every order only `status` may differ |
| `OrderController.PaymentStatusUntouched` | src/models/order.model.js:66-70 | no transition changes any order's `paymentStatus` |
| `OrderController.UpdateStatusOutcome` | src/controllers/order.controller.js:241-277 | the answer is 200, 400, 404 or 500; anything but 200 changes nothing; a valid status with a malformed id answers 500 with the cast error; a 200 needs a valid status and carries the order with that id, set to that status, as stored |
| `OrderController.UpdateOrderStatus` | src/controllers/order.controller.js:241-277 | the response and the new collection are those of `UpdateStatusOutcome`; the invariant is kept |
| `OrderController.UpdateRejectsUnknownStatus` | src/controllers/order.controller.js:246-252 | a status outside the five values answers 400 `'Invalid status'` for any id, even a malformed one, and changes nothing |
| `OrderController.UpdateMissingOrder` | src/controllers/order.controller.js:254-261 | a valid status with an id no order has answers 404 and changes nothing |
| `OrderController.UpdateFromAnyState` | src/controllers/order.controller.js:263-270 | from any prior status, only that order's status is set, to the requested value, and the answer is 200 |
| `OrderController.AdminMayReopen` | src/controllers/order.controller.js:246-264 | a cancelled order can be set back to `pending` |
| `OrderController.GetOrderById` | src/controllers/order.controller.js:127-148 | 200 exactly when the caller owns an order with that id, which is then returned; otherwise 404; a malformed id answers 500 |
| `OrderController.GetOrderByNumber` | src/controllers/order.controller.js:150-171 | 200 exactly when the caller owns an order with that number, which is then returned; otherwise 404 |
| `OrderController.GetMyOrders` | src/controllers/order.controller.js:97-125 | only the caller's orders, of the requested status when one is given; exactly the `(page-1)*limit` window of the newest-first matches; `page` and `limit` default to 1 and 10; `total` is the match count; `totalPages` is its ceiling over `limit` |
| `OrderController.GetAllOrders` | src/controllers/order.controller.js:211-239 | the same exact window and defaults, with the owner condition only when `userId` is given; with no filters `total` is the collection size |
| `OrderController.GetOrderStats` | src/controllers/order.controller.js:279-310 | the stats are `Summarize` of the collection: `totalOrders` is its size, `totalRevenue` the sum of totals; there is a group exactly for each status that occurs, holding that status's order count and amount sum; the groups add up to both totals |
| `AuthMiddleware.Split` | src/middlewares/auth.middleware.js:8 | `split(' ')` gives at least one piece, and no piece contains a space |
| `AuthMiddleware.SplitThenJoin` | src/middlewares/auth.middleware.js:8 | joining the pieces with spaces gives back the header |
| `AuthMiddleware.JoinThenSplit` | src/middlewares/auth.middleware.js:8 | splitting a space-joined list of space-free words gives back the words |
| `AuthMiddleware.SplitAfterWord` | src/middlewares/auth.middleware.js:8 | a space-free first word splits off as the first piece |
| `AuthMiddleware.BearerToken` | src/middlewares/auth.middleware.js:8-12 | an extracted token is non-empty and has no space |
| `AuthMiddleware.TokenIsSecondWord` | src/middlewares/auth.middleware.js:8-12 | for a header `scheme + " " + word + rest`, the token is that second word, or none when the word is empty |
| `AuthMiddleware.NoSecondWord` | src/middlewares/auth.middleware.js:8-12 | a header without a space (a bare `Bearer`) has no token |
| `AuthMiddleware.BearerHeader` | src/middlewares/auth.middleware.js:8 | `"Bearer " + t` yields t, for a non-empty space-free t |
| `AuthMiddleware.AuthenticateUser` | src/middlewares/auth.middleware.js:6-26 | no token exactly when the header yields none; 401 exactly when the verifier fails; otherwise it proceeds with the verifier's user; never 403 |
| `AuthMiddleware.AuthenticateRole` | src/middlewares/auth.middleware.js:28-55 | no token exactly when the header yields none; 403 exactly when the verifier returns a user whose role is not listed; 401 exactly when the verifier fails or returns no user; a verified user with a listed role proceeds with that user, and only such a user proceeds |
| `AuthMiddleware.EffectOf` | src/middlewares/auth.middleware.js:10-54 | `next()` runs (once, after `req.user` is set) exactly for `Proceed`, with that outcome's user as `req.user`; every other outcome answers 401 (`'No token provided'` or `'Unauthorized'`), or 403 `'Access denied: insufficient role'` for `Forbidden` |
| `AuthMiddleware.TokenCheckedFirst` | src/middlewares/auth.middleware.js:31-35 | without a token both gates answer 401 `'No token provided'`, whatever the verifier would say |
| `AuthMiddleware.ForbiddenMeansVerified` | src/middlewares/auth.middleware.js:37-45 | a 403 implies the token was present, the verifier returned a user, and only the role was missing from the list |
| `AuthMiddleware.RoleGateProceeds` | src/middlewares/auth.middleware.js:43-48 | a caller the role gate admits has a listed role; `req.user` is the verifier's user, and the user gate admits them too |
| `AuthMiddleware.DefaultRolesDenyAll` | src/middlewares/auth.middleware.js:28 | with the default `allowedRoles = []`, every verified user gets 403 |
| `AuthMiddleware.GatesAgreeOnAuthentication` | src/middlewares/auth.middleware.js:6-54 | the gates agree on "no token"; a verifier failure is 401 in both; the role gate admits only callers the user gate admits |

## Left out

- Stock updates (src/controllers/order.controller.js:69-72) and cart clearing (75-81) are
  not modelled. The first are unawaited and their errors swallowed; a failure of the second
  is swallowed. Neither can change the response, so `CreateOrderFromCart` has no input for
  them.
- The HTTP calls to the cart, product and auth services (src/services/, and
  src/middlewares/auth.middleware.js:14-16 and 37-39) are not modelled. Their answers are
  inputs (`CartReply`, `verify`).
- The `error` detail in the 401 bodies (src/middlewares/auth.middleware.js:23, 52) is not
  modelled, because it is the remote service's text.
- `getCart` returning a cart object with no `items` field is treated like an empty item list.
  Both give the same `'Cart is empty'` answer.
- Query-string coercion is not modelled: `page` and `limit` arrive as strings, and
  `limit=0` gives `Infinity` pages. `GetMyOrders` and `GetAllOrders` take each parameter
  as absent (the defaults 1 and 10 apply) or a number, and require a given number to be at
  least 1; `List` requires `page >= 1` and `limit >= 1`.
- OrderQueries.SortNewestFirst: the sort is stable, so orders with equal `createdAt` keep
  store order (`SortKeepsTies`). MongoDB leaves the order of ties unspecified; the model
  fixes one of the orders it may return.
- OrderStats.Summarize: `byStatus` is a map, because the order of the groups that `$group`
  returns is not modelled.
- OrderStore.ErrorMessage: Mongoose's message texts are abbreviated to their leading words.
  For validation errors, the failing path and value are not modelled.
- The `updatedAt` timestamp is not modelled, so the transitions' "only `status` changes"
  ignores it.
- The clock read for the order number and the one for `createdAt` are one parameter `now`.
  In the source they are two reads of `Date.now()`.
- Ids are numbers from the store's counter `nextId`, not ObjectIds. `OrderIdParam` stands
  for the result of casting the route parameter.
- A verifier answer without a `user` object lets `authenticateUser` proceed with no user.
  This is modelled as `Proceed(None)`. The handlers that would then fail reading `req.user.id`
  (500) are not: they take a present user.
- Concurrency is not modelled: the model is one request at a time. Two parallel creations
  from one cart are outside it.
- Floating-point amounts are not modelled: prices and amounts are integers.
- Missing numeric fields cannot be represented. A cart line without a `price` (so `subtotal`
  is `NaN`), or a cart without `totalAmount` or `totalItems`, fails the schema's `required`
  validators (src/models/order.model.js:17-24, 41-48), and the source answers 500. In the
  model every `CartItem` and `Cart` carries integers, so `SchemaValid` and `DraftValidIff`
  cover only the string validators and `min: 1`.
- Logging is not modelled.
- Routing (src/routes/order.routes.js), the app shell and error envelopes (src/app.js),
  and process start-up (src/server.js) are not modelled. They are framework plumbing.
