/** The order controller: cash-on-delivery orders, the Stripe Checkout
    request, the Stripe webhook that turns a paid session into orders, and
    the order list. Every Stripe call is an input: whether the signature
    checks out, the line items `listLineItems` returns (None when it
    throws), and the product `products.retrieve` gives for a product id. */
module OrderController {
  import opened Results
  import opened ObjectIds
  import opened Store
  import opened OrderPayloads

  /** The cart-clearing update both order paths send to the user. */
  const EmptyCart := NoChange.(shoppingCart := Some([]))

  /** The users map after `updateOne({ _id : userId }, { shopping_cart : [] })`. */
  ghost function CartEmptied(users: map<UserId, UserRecord>, userId: UserId): (r: map<UserId, UserRecord>)
    ensures r.Keys == users.Keys
    ensures forall id :: id in users && id != userId ==> r[id] == users[id]
    ensures userId in users ==> r[userId].shoppingCart == [] && r[userId].email == users[userId].email
  {
    if userId in users then users[userId := users[userId].(shoppingCart := [])] else users
  }

  /** Clears a user's cart: the cart products first, then the user's field. */
  method ClearCart(db: Database, userId: UserId)
    requires db.Valid()
    modifies db
    ensures db.Valid()
    ensures db.cartProducts == WithoutUser(old(db.cartProducts), userId)
    ensures db.users == CartEmptied(old(db.users), userId)
    ensures db.orders == old(db.orders) && db.userOrder == old(db.userOrder)
    ensures db.nextObjectId == old(db.nextObjectId)
  {
    db.DeleteCartProductsOf(userId);
    db.UpdateUser(userId, EmptyCart);
  }

  /** Stores a batch of orders numbered from the ObjectIds just drawn. */
  method InsertFreshBatch(db: Database, batch: seq<OrderRecord>, first: nat, now: int)
    requires db.Valid()
    requires db.nextObjectId == first + |batch|
    requires forall i :: 0 <= i < |batch| ==> batch[i].orderId == OrderIdOf(first + i)
    requires forall i :: 0 <= i < |db.orders| ==> OrderIdIssuedBefore(db.orders[i].order.orderId, first)
    modifies db
    ensures db.Valid()
    ensures db.orders == old(db.orders) + Stamp(batch, now)
    ensures db.users == old(db.users) && db.userOrder == old(db.userOrder)
    ensures db.cartProducts == old(db.cartProducts) && db.nextObjectId == old(db.nextObjectId)
  {
    FreshBatchKeepsIdsDistinct(db.orders, Stamp(batch, now), first);
    db.InsertMany(batch, now);
  }

  /** `CashOnDeliveryOrderController`: one order per cart line with the
      client's totals, then the user's cart is cleared. `listItems` is None
      when the body's `list_items` is not an array of populated cart lines:
      the `map` over it throws before anything is written. */
  method CashOnDeliveryOrderController(db: Database, userId: UserId, listItems: Option<seq<CartLine>>,
                                       totalAmt: real, addressId: string, subTotalAmt: real, now: int)
    returns (reply: Reply, generatedOrder: seq<StoredOrder>)
    requires db.Valid()
    modifies db
    ensures db.Valid()
    ensures listItems.None? ==> reply == ServerError && generatedOrder == [] && unchanged(db)
    ensures listItems.Some? ==> reply == Ok
    ensures listItems.Some? ==>
              generatedOrder == Stamp(CodOrderRecords(userId, listItems.value, addressId, subTotalAmt, totalAmt,
                                                      old(db.nextObjectId)), now)
    ensures listItems.Some? ==> db.orders == old(db.orders) + generatedOrder
    ensures listItems.Some? ==> db.nextObjectId == old(db.nextObjectId) + |listItems.value|
    ensures listItems.Some? ==> db.cartProducts == WithoutUser(old(db.cartProducts), userId)
    ensures listItems.Some? ==> db.users == CartEmptied(old(db.users), userId)
    ensures db.userOrder == old(db.userOrder)
  {
    if listItems.None? {
      return ServerError, [];
    }
    var first := db.NewObjectIds(|listItems.value|);
    var payload := CodOrderRecords(userId, listItems.value, addressId, subTotalAmt, totalAmt, first);
    InsertFreshBatch(db, payload, first, now);
    generatedOrder := Stamp(payload, now);
    ClearCart(db, userId);
    reply := Ok;
  }

  /** `paymentController`: looks the user up for the customer email and
      builds the session request; `stripeUrl` is what session creation
      returns (None when it throws). `listItems` is None when `list_items`
      is not an array of populated cart lines. Nothing local changes. */
  method PaymentController(db: Database, userId: UserId, listItems: Option<seq<CartLine>>, addressId: string,
                           frontendUrl: string, stripeUrl: Option<string>)
    returns (reply: Reply, params: Option<SessionParams>, url: Option<string>)
    ensures (listItems.None? || userId !in db.users) ==> params == None && reply == ServerError && url == None
    ensures listItems.Some? && userId in db.users ==>
      params == Some(CheckoutSessionParams(userId, db.users[userId].email, addressId, listItems.value, frontendUrl))
    ensures listItems.Some? && userId in db.users && stripeUrl.None? ==> reply == ServerError && url == None
    ensures listItems.Some? && userId in db.users && stripeUrl.Some? ==> reply.status == 200 && url == stripeUrl
  {
    if listItems.None? {
      // `list_items.map` throws.
      return ServerError, None, None;
    }
    if userId !in db.users {
      // `user.email` on a missing user throws.
      return ServerError, None, None;
    }
    var user := db.users[userId];
    params := Some(CheckoutSessionParams(userId, user.email, addressId, listItems.value, frontendUrl));
    if stripeUrl.None? {
      return ServerError, params, None;
    }
    reply, url := Reply(200, false, false), stripeUrl;
  }

  /** `getOrderProductItems`: resolves each line item's product and builds
      its order, drawing ObjectIds from `firstId` on. Missing or empty line
      items give the empty list. */
  method GetOrderProductItems(lineItems: Option<seq<RawLineItem>>, userId: UserId, addressId: string,
                              paymentId: string, paymentStatus: string,
                              retrieve: string -> StripeProduct, firstId: nat)
    returns (productList: seq<OrderRecord>)
    ensures lineItems.None? ==> productList == []
    ensures lineItems.Some? ==> |productList| == |lineItems.value|
    ensures lineItems.Some? ==> forall i :: 0 <= i < |productList| ==>
      var item := lineItems.value[i];
      var product := retrieve(item.productKey);
      && productList[i].userId == userId
      && productList[i].orderId == OrderIdOf(firstId + i)
      && productList[i].productId == product.metadataProductId
      && productList[i].productDetails == ProductDetails(product.name, product.images)
      && productList[i].paymentId == paymentId
      && productList[i].paymentStatus == paymentStatus
      && productList[i].deliveryAddress == addressId
      && productList[i].subTotalAmt == productList[i].totalAmt == MajorUnits(item.amountTotal)
  {
    productList := [];
    if lineItems.Some? && |lineItems.value| > 0 {
      var data := lineItems.value;
      var i := 0;
      while i < |data|
        invariant 0 <= i <= |data|
        invariant |productList| == i
        invariant forall k :: 0 <= k < i ==>
          productList[k] == PaidOrderRecord(userId, firstId + k, retrieve(data[k].productKey),
                                            paymentId, paymentStatus, addressId, data[k].amountTotal)
      {
        var product := retrieve(data[i].productKey);
        var payload := PaidOrderRecord(userId, firstId + i, product, paymentId, paymentStatus,
                                       addressId, data[i].amountTotal);
        productList := productList + [payload];
        i := i + 1;
      }
    }
  }

  datatype CheckoutSession = CheckoutSession(id: string, metadata: map<string, string>,
                                             paymentIntent: string, paymentStatus: string)

  datatype StripeEvent = StripeEvent(eventType: string, session: CheckoutSession)

  const CheckoutCompleted := "checkout.session.completed"

  /** How the webhook answers Stripe. */
  datatype WebhookReply = SignatureError | IgnoredEvent | FetchFailed | MissingMetadata | Received
  {
    function Status(): int {
      match this
      case SignatureError => 400
      case IgnoredEvent => 200
      case FetchFailed => 400
      case MissingMetadata => 400
      case Received => 200
    }
  }

  /** The event passes every guard of the webhook and is turned into orders. */
  predicate Accepted(signatureOk: bool, event: StripeEvent, fetched: Option<seq<LineItem>>)
  {
    signatureOk && event.eventType == CheckoutCompleted && fetched.Some?
    && SessionTarget(event.session.metadata).Some?
  }

  /** `webhookStripe`: signature check, event filter, line-item fetch,
      metadata check; then one order per line item and the cart is cleared.
      Each rejection leaves the database as it was. */
  method WebhookStripe(db: Database, signatureOk: bool, event: StripeEvent,
                       fetched: Option<seq<LineItem>>, now: int)
    returns (reply: WebhookReply)
    requires db.Valid()
    modifies db
    ensures db.Valid()
    ensures !signatureOk ==> reply == SignatureError && unchanged(db)
    ensures signatureOk && event.eventType != CheckoutCompleted ==> reply == IgnoredEvent && unchanged(db)
    ensures signatureOk && event.eventType == CheckoutCompleted && fetched.None? ==>
      reply == FetchFailed && unchanged(db)
    ensures (signatureOk && event.eventType == CheckoutCompleted && fetched.Some? &&
             SessionTarget(event.session.metadata).None?) ==> reply == MissingMetadata && unchanged(db)
    ensures Accepted(signatureOk, event, fetched) ==>
      var (userId, addressId) := SessionTarget(event.session.metadata).value;
      && reply == Received
      && db.orders == old(db.orders) + Stamp(PaidOrderRecords(userId, fetched.value, addressId,
           event.session.paymentIntent, event.session.paymentStatus, old(db.nextObjectId)), now)
      && db.nextObjectId == old(db.nextObjectId) + |fetched.value|
      && db.cartProducts == WithoutUser(old(db.cartProducts), userId)
      && db.users == CartEmptied(old(db.users), userId)
      && db.userOrder == old(db.userOrder)
  {
    if !signatureOk {
      return SignatureError;
    }
    if event.eventType != CheckoutCompleted {
      return IgnoredEvent;
    }
    var session := event.session;
    if fetched.None? {
      return FetchFailed;
    }
    var lineItems := fetched.value;
    var target := SessionTarget(session.metadata);
    if target.None? {
      return MissingMetadata;
    }
    var (userId, addressId) := target.value;
    var first := db.NewObjectIds(|lineItems|);
    var orderProduct := PaidOrderRecords(userId, lineItems, addressId, session.paymentIntent,
                                         session.paymentStatus, first);
    InsertFreshBatch(db, orderProduct, first, now);
    ClearCart(db, userId);
    reply := Received;
  }

  /** Stripe delivers the same completed event twice: both deliveries are
      accepted and the orders are stored twice over, since nothing records
      which sessions were already processed. */
  method RedeliveredWebhook(db: Database, event: StripeEvent, fetched: Option<seq<LineItem>>, now: int)
    returns (first: WebhookReply, second: WebhookReply)
    requires db.Valid()
    requires Accepted(true, event, fetched)
    modifies db
    ensures db.Valid()
    ensures first == Received && second == Received
    ensures |db.orders| == |old(db.orders)| + 2 * |fetched.value|
    ensures db.orders[..|old(db.orders)|] == old(db.orders)
  {
    first := WebhookStripe(db, true, event, fetched, now);
    second := WebhookStripe(db, true, event, fetched, now);
  }

  /** `getOrderDetailsController`: exactly the user's orders, newest first. */
  method GetOrderDetailsController(db: Database, userId: UserId) returns (reply: Reply, orderList: seq<StoredOrder>)
    ensures reply == Ok
    ensures NewestFirst(orderList)
    ensures multiset(orderList) == multiset(OrdersOf(db.orders, userId))
    ensures forall o :: o in orderList <==> o in db.orders && o.order.userId == userId
  {
    var mine := OrdersOf(db.orders, userId);
    orderList := SortNewestFirst(mine);
    forall o ensures o in orderList <==> o in mine {
      assert o in orderList <==> o in multiset(orderList);
      assert o in mine <==> o in multiset(mine);
    }
    reply := Ok;
  }
}
