/**
 * The handlers of src/controllers/order.controller.js over the abstract store.
 * Handlers that write (create, cancel, admin status update) are methods on the
 * `Store`; each is proved against an outcome function of the old store, and the
 * lemmas below state what those outcomes promise. Read-only handlers are
 * functions of the store's contents.
 */
module OrderController {
  import opened Wrappers
  import opened Decimal
  import opened OrderModel
  import opened OrderStore
  import opened OrderQueries
  import opened OrderStats
  import AuthMiddleware

  type User = AuthMiddleware.User

  // ---------------------------------------------------------------------------
  // Inputs and responses

  /** One line of the cart service's cart; a missing `productName` is the empty string. */
  datatype CartItem = CartItem(productId: string, productName: string, quantity: int, price: int)

  /** What `getCart(token)` produced: a thrown error, no cart body, or a cart. */
  datatype CartReply =
    | CartFailed(message: string)
    | NoCart
    | Cart(items: seq<CartItem>, totalAmount: int, totalItems: int)

  /** The `:orderId` route parameter after Mongoose's cast to an ObjectId. */
  datatype OrderIdParam = WellFormed(id: nat) | Malformed(raw: string)

  datatype Payload =
    | NoPayload
    | OneOrder(order: Order)
    | OrderList(listing: Listing)
    | StatsReport(stats: Stats)

  /** The HTTP status with the `{ success, message, ... }` JSON envelope. */
  datatype Response = Response(code: nat, success: bool, message: string, payload: Payload)

  function Fail(code: nat, message: string): Response
  {
    Response(code, false, message, NoPayload)
  }

  /** `req.user.id || req.user.userId` */
  function OwnerId(u: User): string
  {
    if u.id != "" then u.id else u.userId
  }

  function CastErrorMessage(raw: string): string
  {
    "Cast to ObjectId failed for value \"" + raw + "\" (type string) at path \"_id\" for model \"Order\""
  }

  const NotFound: Response := Fail(404, "Order not found")

  // ---------------------------------------------------------------------------
  // createOrderFromCart

  /** One `cart.items.map` step. */
  function ToOrderItem(c: CartItem): OrderItem
  {
    OrderItem(c.productId, if c.productName == "" then "Product" else c.productName,
              c.quantity, c.price, c.price * c.quantity)
  }

  function OrderItems(items: seq<CartItem>): (r: seq<OrderItem>)
    ensures |r| == |items|
  {
    seq(|items|, i requires 0 <= i < |items| => ToOrderItem(items[i]))
  }

  /** `paymentMethod || 'cash'`, then the schema's enum validator. */
  function ResolvePaymentMethod(requested: string): (r: Option<PaymentMethod>)
    ensures requested == "" ==> r == Some(DefaultPaymentMethod)
    ensures requested != "" ==> r == ParsePaymentMethod(requested)
  {
    if requested == "" then Some(Cash) else ParsePaymentMethod(requested)
  }

  /** The document `new Order({...})` builds; id and createdAt are assigned on save. */
  function Draft(user: User, cart: CartReply, shipping: Address, payment: PaymentMethod,
                 notes: string, now: nat, rand: nat): Order
    requires cart.Cart?
  {
    Order(0, OrderNumber(now, rand), OwnerId(user), user.email, user.name,
          OrderItems(cart.items), cart.totalAmount, cart.totalItems,
          DefaultStatus, shipping, payment, DefaultPaymentStatus, notes, 0)
  }

  datatype Creation = Creation(response: Response, saved: Option<Order>)

  function CreateOutcome(orders: seq<Order>, nextId: nat, user: User, cart: CartReply,
                         shipping: Address, paymentMethod: string, notes: string,
                         now: nat, rand: nat): (c: Creation)
    ensures c.saved.Some? <==> c.response.success
    ensures c.saved.Some? ==> c.response == Response(201, true, "Order created successfully", OneOrder(c.saved.value))
    ensures c.saved.None? ==> c.response.payload == NoPayload && (c.response.code == 400 || c.response.code == 500)
    ensures c.response.code == 400 <==> cart.CartFailed? || cart.NoCart? || |cart.items| == 0
  {
    match cart
    case CartFailed(msg) => Creation(Fail(400, "Failed to retrieve cart: " + msg), None)
    case NoCart => Creation(Fail(400, "Cart is empty"), None)
    case Cart(items, _, _) =>
      if |items| == 0 then Creation(Fail(400, "Cart is empty"), None)
      else match ResolvePaymentMethod(paymentMethod)
        case None => Creation(Fail(500, ErrorMessage(ValidationError)), None)
        case Some(payment) =>
          match SaveOutcome(orders, nextId, Draft(user, cart, shipping, payment, notes, now, rand), now, rand)
          case SaveFailed(e) => Creation(Fail(500, ErrorMessage(e)), None)
          case Saved(o) => Creation(Response(201, true, "Order created successfully", OneOrder(o)), Some(o))
  }

  /**
   * The cart read, the item mapping, the order number from the clock `now` and
   * the draw `rand` (`Math.floor(Math.random() * 1000)`), and one save. Stock
   * updates and cart clearing happen after the save and never change the answer.
   */
  method CreateOrderFromCart(store: Store, user: User, cart: CartReply, shipping: Address,
                             paymentMethod: string, notes: string, now: nat, rand: nat)
    returns (resp: Response)
    requires store.Valid()
    modifies store
    ensures store.Valid()
    ensures var c := CreateOutcome(old(store.orders), old(store.nextId), user, cart, shipping,
                                   paymentMethod, notes, now, rand);
      resp == c.response &&
      store.orders == (if c.saved.Some? then old(store.orders) + [c.saved.value] else old(store.orders)) &&
      store.nextId == (if c.saved.Some? then old(store.nextId) + 1 else old(store.nextId))
  {
    if cart.CartFailed? {
      return Fail(400, "Failed to retrieve cart: " + cart.message);
    }
    if cart.NoCart? || |cart.items| == 0 {
      return Fail(400, "Cart is empty");
    }
    var payment := ResolvePaymentMethod(paymentMethod);
    if payment.None? {
      return Fail(500, ErrorMessage(ValidationError));
    }
    var doc := new OrderDocument(Draft(user, cart, shipping, payment.value, notes, now, rand));
    var r := store.Save(doc, now, rand);
    match r
    case SaveFailed(e) =>
      resp := Fail(500, ErrorMessage(e));
    case Saved(o) =>
      resp := Response(201, true, "Order created successfully", OneOrder(o));
  }

  // ---------------------------------------------------------------------------
  // cancelOrder and updateOrderStatus

  datatype Transition = Transition(response: Response, orders: seq<Order>)

  function CancelOutcome(orders: seq<Order>, user: User, orderId: OrderIdParam): (t: Transition)
    ensures |t.orders| == |orders|
    ensures t.response.code in {200, 400, 404, 500}
    ensures t.response.code != 200 ==> t.orders == orders && !t.response.success
    ensures t.response.code == 200 ==>
      orderId.WellFormed? && t.response.payload.OneOrder? && t.response.payload.order in t.orders &&
      t.response.payload.order.id == orderId.id && t.response.payload.order.userId == OwnerId(user) &&
      t.response.payload.order.status == Cancelled
    ensures orderId.Malformed? ==> t == Transition(Fail(500, CastErrorMessage(orderId.raw)), orders)
  {
    match orderId
    case Malformed(raw) => Transition(Fail(500, CastErrorMessage(raw)), orders)
    case WellFormed(id) =>
      match Find(orders, ByIdAndOwner(id, OwnerId(user)))
      case None => Transition(NotFound, orders)
      case Some(i) =>
        if orders[i].status != Pending then
          Transition(Fail(400, "Only pending orders can be cancelled"), orders)
        else
          var o := orders[i].(status := Cancelled);
          assert orders[i := o][i] == o;
          Transition(Response(200, true, "Order cancelled successfully", OneOrder(o)), orders[i := o])
  }

  method CancelOrder(store: Store, user: User, orderId: OrderIdParam) returns (resp: Response)
    requires store.Valid()
    modifies store
    ensures store.Valid() && store.nextId == old(store.nextId)
    ensures var t := CancelOutcome(old(store.orders), user, orderId);
      resp == t.response && store.orders == t.orders
  {
    if orderId.Malformed? {
      return Fail(500, CastErrorMessage(orderId.raw));
    }
    var found := Find(store.orders, ByIdAndOwner(orderId.id, OwnerId(user)));
    if found.None? {
      return NotFound;
    }
    var i := found.value;
    if store.orders[i].status != Pending {
      return Fail(400, "Only pending orders can be cancelled");
    }
    store.SetStatus(i, Cancelled);
    resp := Response(200, true, "Order cancelled successfully", OneOrder(store.orders[i]));
  }

  /** The request's `status` is checked against the five values before any lookup. */
  function UpdateStatusOutcome(orders: seq<Order>, orderId: OrderIdParam, status: string): (t: Transition)
    ensures |t.orders| == |orders|
    ensures t.response.code in {200, 400, 404, 500}
    ensures t.response.code != 200 ==> t.orders == orders && !t.response.success
    ensures t.response.code == 200 ==>
      orderId.WellFormed? && ParseStatus(status).Some? && t.response.payload.OneOrder? &&
      t.response.payload.order in t.orders && t.response.payload.order.id == orderId.id &&
      t.response.payload.order.status == ParseStatus(status).value
    ensures ParseStatus(status).Some? && orderId.Malformed? ==>
      t == Transition(Fail(500, CastErrorMessage(orderId.raw)), orders)
  {
    match ParseStatus(status)
    case None => Transition(Fail(400, "Invalid status"), orders)
    case Some(s) =>
      match orderId
      case Malformed(raw) => Transition(Fail(500, CastErrorMessage(raw)), orders)
      case WellFormed(id) =>
        match Find(orders, ById(id))
        case None => Transition(NotFound, orders)
        case Some(i) =>
          var o := orders[i].(status := s);
          assert orders[i := o][i] == o;
          Transition(Response(200, true, "Order status updated successfully", OneOrder(o)), orders[i := o])
  }

  method UpdateOrderStatus(store: Store, orderId: OrderIdParam, status: string) returns (resp: Response)
    requires store.Valid()
    modifies store
    ensures store.Valid() && store.nextId == old(store.nextId)
    ensures var t := UpdateStatusOutcome(old(store.orders), orderId, status);
      resp == t.response && store.orders == t.orders
  {
    var s := ParseStatus(status);
    if s.None? {
      return Fail(400, "Invalid status");
    }
    if orderId.Malformed? {
      return Fail(500, CastErrorMessage(orderId.raw));
    }
    var found := Find(store.orders, ById(orderId.id));
    if found.None? {
      return NotFound;
    }
    store.SetStatus(found.value, s.value);
    resp := Response(200, true, "Order status updated successfully", OneOrder(store.orders[found.value]));
  }

  // ---------------------------------------------------------------------------
  // Read-only handlers

  predicate OwnsOrder(orders: seq<Order>, id: nat, owner: string)
  {
    exists i :: 0 <= i < |orders| && orders[i].id == id && orders[i].userId == owner
  }

  /** getOrderById: the caller's own order, never another user's. */
  function GetOrderById(orders: seq<Order>, user: User, orderId: OrderIdParam): (r: Response)
    ensures orderId.Malformed? ==> r == Fail(500, CastErrorMessage(orderId.raw))
    ensures orderId.WellFormed? ==> (r.code == 200 <==> OwnsOrder(orders, orderId.id, OwnerId(user)))
    ensures orderId.WellFormed? && r.code != 200 ==> r == NotFound
    ensures r.code == 200 ==>
      r.payload.OneOrder? && r.payload.order in orders &&
      r.payload.order.id == orderId.id && r.payload.order.userId == OwnerId(user)
  {
    match orderId
    case Malformed(raw) => Fail(500, CastErrorMessage(raw))
    case WellFormed(id) =>
      match Find(orders, ByIdAndOwner(id, OwnerId(user)))
      case None => NotFound
      case Some(i) => Response(200, true, "", OneOrder(orders[i]))
  }

  /** getOrderByNumber: the caller's own order with that number. */
  function GetOrderByNumber(orders: seq<Order>, user: User, orderNumber: string): (r: Response)
    ensures r.code == 200 <==>
      exists i :: 0 <= i < |orders| && orders[i].orderNumber == orderNumber && orders[i].userId == OwnerId(user)
    ensures r.code != 200 ==> r == NotFound
    ensures r.code == 200 ==>
      r.payload.OneOrder? && r.payload.order in orders &&
      r.payload.order.orderNumber == orderNumber && r.payload.order.userId == OwnerId(user)
  {
    match Find(orders, ByNumberAndOwner(orderNumber, OwnerId(user)))
    case None => NotFound
    case Some(i) => Response(200, true, "", OneOrder(orders[i]))
  }

  /** The query-string defaults of both listings: `page = 1`, `limit = 10`. */
  const DefaultPage: nat := 1
  const DefaultLimit: nat := 10

  /** A query parameter, or its default when the request leaves it out. */
  function OrDefault(p: Option<nat>, d: nat): nat
  {
    if p.Some? then p.value else d
  }

  /** A page and a limit the request gives are at least 1. */
  predicate PagingGiven(page: Option<nat>, limit: Option<nat>)
  {
    (page.Some? ==> page.value >= 1) && (limit.Some? ==> limit.value >= 1)
  }

  /**
   * getMyOrders: the caller's orders, optionally of one status, newest first,
   * one page of them, with the match count and the page count.
   */
  function GetMyOrders(orders: seq<Order>, user: User, status: string, page: Option<nat>, limit: Option<nat>): (r: Response)
    requires PagingGiven(page, limit)
    ensures r.code == 200 && r.success && r.payload.OrderList?
    ensures forall o :: o in r.payload.listing.orders ==>
      o in orders && o.userId == OwnerId(user) && (status == "" || StatusName(o.status) == status)
    ensures NewestFirst(r.payload.listing.orders)
    ensures var p, l := OrDefault(page, DefaultPage), OrDefault(limit, DefaultLimit);
      r.payload.listing.orders == PageOf(SortNewestFirst(Select(orders, Filter(Some(OwnerId(user)), status))), p, l) &&
      |r.payload.listing.orders| <= l &&
      r.payload.listing.totalPages == TotalPages(r.payload.listing.total, l) &&
      r.payload.listing.currentPage == p
    ensures r.payload.listing.total == |Select(orders, Filter(Some(OwnerId(user)), status))|
    ensures page.None? ==> r.payload.listing.currentPage == 1
    ensures limit.None? ==> |r.payload.listing.orders| <= 10
  {
    var f := Filter(Some(OwnerId(user)), status);
    var p, l := OrDefault(page, DefaultPage), OrDefault(limit, DefaultLimit);
    ListedOrdersMatch(orders, f, p, l);
    ListedNewestFirst(orders, f, p, l);
    ListingIsWindow(orders, f, p, l);
    Response(200, true, "", OrderList(List(orders, f, p, l)))
  }

  /** getAllOrders: the same listing, with the owner condition only when `userId` is given. */
  function GetAllOrders(orders: seq<Order>, status: string, userId: string, page: Option<nat>, limit: Option<nat>): (r: Response)
    requires PagingGiven(page, limit)
    ensures r.code == 200 && r.success && r.payload.OrderList?
    ensures forall o :: o in r.payload.listing.orders ==>
      o in orders && (userId == "" || o.userId == userId) && (status == "" || StatusName(o.status) == status)
    ensures NewestFirst(r.payload.listing.orders)
    ensures var p, l := OrDefault(page, DefaultPage), OrDefault(limit, DefaultLimit);
      r.payload.listing.orders ==
        PageOf(SortNewestFirst(Select(orders, Filter(if userId == "" then None else Some(userId), status))), p, l) &&
      |r.payload.listing.orders| <= l &&
      r.payload.listing.totalPages == TotalPages(r.payload.listing.total, l) &&
      r.payload.listing.currentPage == p
    ensures r.payload.listing.total == |Select(orders, Filter(if userId == "" then None else Some(userId), status))|
    ensures userId == "" && status == "" ==> r.payload.listing.total == |orders|
    ensures page.None? ==> r.payload.listing.currentPage == 1
    ensures limit.None? ==> |r.payload.listing.orders| <= 10
  {
    var f := Filter(if userId == "" then None else Some(userId), status);
    var p, l := OrDefault(page, DefaultPage), OrDefault(limit, DefaultLimit);
    ListedOrdersMatch(orders, f, p, l);
    ListedNewestFirst(orders, f, p, l);
    ListingIsWindow(orders, f, p, l);
    SelectAll(orders, f);
    Response(200, true, "", OrderList(List(orders, f, p, l)))
  }

  /** getOrderStats */
  function GetOrderStats(orders: seq<Order>): (r: Response)
    ensures r.code == 200 && r.payload.StatsReport?
    ensures r.payload.stats.totalOrders == |orders|
    ensures r.payload.stats.totalRevenue == Revenue(orders)
    ensures SumCounts(r.payload.stats.byStatus) == r.payload.stats.totalOrders
    ensures SumAmounts(r.payload.stats.byStatus) == r.payload.stats.totalRevenue
    ensures r.payload.stats == Summarize(orders)
    ensures forall s :: s in r.payload.stats.byStatus <==> exists i :: 0 <= i < |orders| && orders[i].status == s
    ensures forall s :: s in r.payload.stats.byStatus ==>
      r.payload.stats.byStatus[s] == Group(CountWith(orders, s), AmountWith(orders, s))
  {
    StatsTotals(orders);
    Response(200, true, "", StatsReport(Summarize(orders)))
  }

  // ---------------------------------------------------------------------------
  // What order creation promises

  /** A failed cart read or an empty cart answers 400 and stores nothing. */
  lemma CreateRejectsUnusableCart(orders: seq<Order>, nextId: nat, user: User, cart: CartReply,
                                  shipping: Address, paymentMethod: string, notes: string,
                                  now: nat, rand: nat)
    requires cart.CartFailed? || cart.NoCart? || |cart.items| == 0
    ensures var c := CreateOutcome(orders, nextId, user, cart, shipping, paymentMethod, notes, now, rand);
      c.saved.None? && c.response.code == 400 && !c.response.success &&
      c.response.message == (if cart.CartFailed? then "Failed to retrieve cart: " + cart.message else "Cart is empty")
  {
  }

  /** Everything the save needs: a usable cart, a known payment method, valid items, an owner, a free number. */
  predicate CanCreate(orders: seq<Order>, user: User, cart: CartReply, paymentMethod: string, now: nat, rand: nat)
  {
    cart.Cart? && |cart.items| > 0 &&
    ResolvePaymentMethod(paymentMethod).Some? &&
    OwnerId(user) != "" &&
    (forall i :: 0 <= i < |cart.items| ==> cart.items[i].productId != "" && cart.items[i].quantity >= 1) &&
    !NumberTaken(orders, OrderNumber(now, rand))
  }

  lemma DraftValidIff(user: User, cart: CartReply, shipping: Address, payment: PaymentMethod,
                      notes: string, now: nat, rand: nat)
    requires cart.Cart?
    ensures SchemaValid(Draft(user, cart, shipping, payment, notes, now, rand)) <==>
      OwnerId(user) != "" &&
      forall i :: 0 <= i < |cart.items| ==> cart.items[i].productId != "" && cart.items[i].quantity >= 1
  {
    var d := Draft(user, cart, shipping, payment, notes, now, rand);
    forall i | 0 <= i < |cart.items|
      ensures ItemValid(d.items[i]) <==> cart.items[i].productId != "" && cart.items[i].quantity >= 1
    {
      assert d.items[i] == ToOrderItem(cart.items[i]);
    }
  }

  /** An order is stored exactly when the answer is 201, and exactly when `CanCreate` holds. */
  lemma CreateSucceedsIff(orders: seq<Order>, nextId: nat, user: User, cart: CartReply,
                          shipping: Address, paymentMethod: string, notes: string,
                          now: nat, rand: nat)
    ensures var c := CreateOutcome(orders, nextId, user, cart, shipping, paymentMethod, notes, now, rand);
      (c.saved.Some? <==> c.response.code == 201) &&
      (c.saved.Some? <==> CanCreate(orders, user, cart, paymentMethod, now, rand))
  {
    if cart.Cart? && |cart.items| > 0 && ResolvePaymentMethod(paymentMethod).Some? {
      var payment := ResolvePaymentMethod(paymentMethod).value;
      var d := Draft(user, cart, shipping, payment, notes, now, rand);
      DraftValidIff(user, cart, shipping, payment, notes, now, rand);
      assert WithOrderNumber(d, now, rand) == d;
      var r := SaveOutcome(orders, nextId, d, now, rand);
      assert r.Saved? <==> SchemaValid(d) && !NumberTaken(orders, OrderNumber(now, rand));
    }
  }

  /**
   * The stored order: one item per cart line in cart order with
   * `subtotal == price * quantity` and the `'Product'` name default; totals
   * copied from the cart, not recomputed; status and payment status at their
   * defaults; payment method `cash` unless one was given; the generated number.
   */
  lemma CreatedOrderShape(orders: seq<Order>, nextId: nat, user: User, cart: CartReply,
                          shipping: Address, paymentMethod: string, notes: string,
                          now: nat, rand: nat)
    requires CreateOutcome(orders, nextId, user, cart, shipping, paymentMethod, notes, now, rand).saved.Some?
    ensures var c := CreateOutcome(orders, nextId, user, cart, shipping, paymentMethod, notes, now, rand);
      var o := c.saved.value;
      cart.Cart? && c.response == Response(201, true, "Order created successfully", OneOrder(o)) &&
      |o.items| == |cart.items| &&
      (forall i :: 0 <= i < |o.items| ==>
         o.items[i].productId == cart.items[i].productId &&
         o.items[i].productName == (if cart.items[i].productName == "" then "Product" else cart.items[i].productName) &&
         o.items[i].quantity == cart.items[i].quantity && o.items[i].quantity >= 1 &&
         o.items[i].price == cart.items[i].price &&
         o.items[i].subtotal == cart.items[i].price * cart.items[i].quantity) &&
      o.totalAmount == cart.totalAmount && o.totalItems == cart.totalItems &&
      o.status == Pending && o.paymentStatus == PaymentPending &&
      (paymentMethod == "" ==> o.paymentMethod == Cash) &&
      (paymentMethod != "" ==> PaymentMethodName(o.paymentMethod) == paymentMethod) &&
      o.orderNumber == OrderNumber(now, rand) && !NumberTaken(orders, o.orderNumber) &&
      o.userId == OwnerId(user) && o.userEmail == user.email && o.userName == user.name &&
      o.shippingAddress == shipping && o.notes == notes &&
      o.id == nextId && o.createdAt == now
  {
    CreateSucceedsIff(orders, nextId, user, cart, shipping, paymentMethod, notes, now, rand);
    var payment := ResolvePaymentMethod(paymentMethod).value;
    var d := Draft(user, cart, shipping, payment, notes, now, rand);
    assert WithOrderNumber(d, now, rand) == d;
    var o := CreateOutcome(orders, nextId, user, cart, shipping, paymentMethod, notes, now, rand).saved.value;
    assert o == d.(id := nextId, createdAt := now);
    forall i | 0 <= i < |o.items| ensures o.items[i] == ToOrderItem(cart.items[i]) {
    }
  }

  /** A colliding order number is not regenerated: the save fails with the duplicate-key error. */
  lemma CollisionIsNotRetried(orders: seq<Order>, nextId: nat, user: User, cart: CartReply,
                              shipping: Address, paymentMethod: string, notes: string,
                              now: nat, rand: nat)
    requires cart.Cart? && |cart.items| > 0 && ResolvePaymentMethod(paymentMethod).Some?
    requires OwnerId(user) != ""
    requires forall i :: 0 <= i < |cart.items| ==> cart.items[i].productId != "" && cart.items[i].quantity >= 1
    requires NumberTaken(orders, OrderNumber(now, rand))
    ensures CreateOutcome(orders, nextId, user, cart, shipping, paymentMethod, notes, now, rand)
         == Creation(Fail(500, ErrorMessage(DuplicateKey(OrderNumber(now, rand)))), None)
  {
    var payment := ResolvePaymentMethod(paymentMethod).value;
    var d := Draft(user, cart, shipping, payment, notes, now, rand);
    DraftValidIff(user, cart, shipping, payment, notes, now, rand);
    assert SchemaValid(d);
    assert WithOrderNumber(d, now, rand) == d;
    assert SaveOutcome(orders, nextId, d, now, rand) == SaveFailed(DuplicateKey(OrderNumber(now, rand)));
  }

  /** A cart line with quantity below 1 fails the schema's `min: 1`: 500 and nothing stored. */
  lemma ZeroQuantityRejected(orders: seq<Order>, nextId: nat, user: User, cart: CartReply,
                             shipping: Address, paymentMethod: string, notes: string,
                             now: nat, rand: nat, k: nat)
    requires cart.Cart? && k < |cart.items| && cart.items[k].quantity < 1
    requires ResolvePaymentMethod(paymentMethod).Some?
    ensures CreateOutcome(orders, nextId, user, cart, shipping, paymentMethod, notes, now, rand)
         == Creation(Fail(500, ErrorMessage(ValidationError)), None)
  {
    DraftValidIff(user, cart, shipping, ResolvePaymentMethod(paymentMethod).value, notes, now, rand);
  }

  /**
   * Any document failing a schema validator (an empty owner id, a line without a
   * product id, a quantity below 1) is refused by `save()`: 500 with the
   * validation message, and nothing stored.
   */
  lemma InvalidDraftRejected(orders: seq<Order>, nextId: nat, user: User, cart: CartReply,
                             shipping: Address, paymentMethod: string, notes: string,
                             now: nat, rand: nat)
    requires cart.Cart? && |cart.items| > 0 && ResolvePaymentMethod(paymentMethod).Some?
    requires !SchemaValid(Draft(user, cart, shipping, ResolvePaymentMethod(paymentMethod).value, notes, now, rand))
    ensures CreateOutcome(orders, nextId, user, cart, shipping, paymentMethod, notes, now, rand)
         == Creation(Fail(500, "Order validation failed"), None)
  {
  }

  /**
   * A caller without an id, or a cart line without a product id, fails a
   * `required` validator: 500 and nothing stored.
   */
  lemma RequiredFieldMissingRejected(orders: seq<Order>, nextId: nat, user: User, cart: CartReply,
                                     shipping: Address, paymentMethod: string, notes: string,
                                     now: nat, rand: nat)
    requires cart.Cart? && |cart.items| > 0 && ResolvePaymentMethod(paymentMethod).Some?
    requires OwnerId(user) == "" || exists k :: 0 <= k < |cart.items| && cart.items[k].productId == ""
    ensures CreateOutcome(orders, nextId, user, cart, shipping, paymentMethod, notes, now, rand)
         == Creation(Fail(500, "Order validation failed"), None)
  {
    DraftValidIff(user, cart, shipping, ResolvePaymentMethod(paymentMethod).value, notes, now, rand);
  }

  /** A payment method outside the enum fails validation: 500 and nothing stored. */
  lemma UnknownPaymentMethodRejected(orders: seq<Order>, nextId: nat, user: User, cart: CartReply,
                                     shipping: Address, paymentMethod: string, notes: string,
                                     now: nat, rand: nat)
    requires cart.Cart? && |cart.items| > 0
    requires paymentMethod != "" && forall m: PaymentMethod :: PaymentMethodName(m) != paymentMethod
    ensures CreateOutcome(orders, nextId, user, cart, shipping, paymentMethod, notes, now, rand)
         == Creation(Fail(500, "Order validation failed"), None)
  {
  }

  /**
   * One Widget at 5, quantity 2, cart totals 10 and 2: one item with subtotal 10,
   * total 10, pending, with a number of the form `ORD-\d{8}-\d{3}`.
   */
  lemma WidgetCartExample(orders: seq<Order>, nextId: nat, user: User, now: nat, rand: nat)
    requires OwnerId(user) != "" && now >= Pow10(7) && rand < 1000
    requires !NumberTaken(orders, OrderNumber(now, rand))
    ensures var c := CreateOutcome(orders, nextId, user, Cart([CartItem("p1", "Widget", 2, 5)], 10, 2),
                                   NoAddress, "", "", now, rand);
      c.response.code == 201 && c.saved.Some? &&
      c.saved.value.items == [OrderItem("p1", "Widget", 2, 5, 10)] &&
      c.saved.value.totalAmount == 10 && c.saved.value.status == Pending &&
      IsOrderNumberFormat(c.saved.value.orderNumber)
  {
    var cart := Cart([CartItem("p1", "Widget", 2, 5)], 10, 2);
    CreateSucceedsIff(orders, nextId, user, cart, NoAddress, "", "", now, rand);
    CreatedOrderShape(orders, nextId, user, cart, NoAddress, "", "", now, rand);
    OrderNumberFormat(now, rand);
  }

  // ---------------------------------------------------------------------------
  // What the status transitions promise

  /** Neither transition adds, removes or reorders orders, and only `status` can change. */
  lemma TransitionsTouchOnlyStatus(orders: seq<Order>, user: User, orderId: OrderIdParam, status: string)
    ensures var t := CancelOutcome(orders, user, orderId);
      |t.orders| == |orders| &&
      forall j :: 0 <= j < |orders| ==> t.orders[j] == orders[j].(status := t.orders[j].status)
    ensures var t := UpdateStatusOutcome(orders, orderId, status);
      |t.orders| == |orders| &&
      forall j :: 0 <= j < |orders| ==> t.orders[j] == orders[j].(status := t.orders[j].status)
  {
  }

  /** Only the orders a listed transition touches change; in particular `paymentStatus` never does. */
  lemma PaymentStatusUntouched(orders: seq<Order>, user: User, orderId: OrderIdParam, status: string, j: nat)
    requires j < |orders|
    ensures CancelOutcome(orders, user, orderId).orders[j].paymentStatus == orders[j].paymentStatus
    ensures UpdateStatusOutcome(orders, orderId, status).orders[j].paymentStatus == orders[j].paymentStatus
  {
    TransitionsTouchOnlyStatus(orders, user, orderId, status);
  }

  /** An id the caller does not own, another user's order included, is 404 and changes nothing. */
  lemma CancelScopedToOwner(orders: seq<Order>, user: User, id: nat)
    requires !OwnsOrder(orders, id, OwnerId(user))
    ensures CancelOutcome(orders, user, WellFormed(id)) == Transition(NotFound, orders)
  {
  }

  /**
   * For the caller's order at position k: from `pending` it becomes
   * `cancelled` and nothing else changes; from any other status the answer is
   * 400 and nothing changes.
   */
  lemma CancelOnlyFromPending(orders: seq<Order>, nextId: nat, user: User, k: nat)
    requires StoreInvariant(orders, nextId)
    requires k < |orders| && orders[k].userId == OwnerId(user)
    ensures var t := CancelOutcome(orders, user, WellFormed(orders[k].id));
      if orders[k].status == Pending then
        t.orders == orders[k := orders[k].(status := Cancelled)] &&
        t.response == Response(200, true, "Order cancelled successfully", OneOrder(t.orders[k]))
      else
        t == Transition(Fail(400, "Only pending orders can be cancelled"), orders)
  {
    var found := Find(orders, ByIdAndOwner(orders[k].id, OwnerId(user)));
    assert found.Some?;
    assert found.value == k;
  }

  /** A status outside the five values is refused with 400 before the id is looked at. */
  lemma UpdateRejectsUnknownStatus(orders: seq<Order>, orderId: OrderIdParam, status: string)
    requires forall s: Status :: StatusName(s) != status
    ensures UpdateStatusOutcome(orders, orderId, status) == Transition(Fail(400, "Invalid status"), orders)
  {
  }

  lemma UpdateMissingOrder(orders: seq<Order>, id: nat, s: Status)
    requires forall j :: 0 <= j < |orders| ==> orders[j].id != id
    ensures UpdateStatusOutcome(orders, WellFormed(id), StatusName(s)) == Transition(NotFound, orders)
  {
    StatusNamesRoundTrip(s);
  }

  /** The admin may set any of the five values from any prior status; only that order's status changes. */
  lemma UpdateFromAnyState(orders: seq<Order>, nextId: nat, k: nat, s: Status)
    requires StoreInvariant(orders, nextId) && k < |orders|
    ensures var t := UpdateStatusOutcome(orders, WellFormed(orders[k].id), StatusName(s));
      t.orders == orders[k := orders[k].(status := s)] &&
      t.response == Response(200, true, "Order status updated successfully", OneOrder(t.orders[k]))
  {
    StatusNamesRoundTrip(s);
    var found := Find(orders, ById(orders[k].id));
    assert found.Some?;
    assert found.value == k;
  }

  /** In particular a cancelled order can be put back to `pending` by the admin. */
  lemma AdminMayReopen(orders: seq<Order>, nextId: nat, k: nat)
    requires StoreInvariant(orders, nextId) && k < |orders| && orders[k].status == Cancelled
    ensures UpdateStatusOutcome(orders, WellFormed(orders[k].id), "pending").orders[k].status == Pending
  {
    UpdateFromAnyState(orders, nextId, k, Pending);
  }
}
