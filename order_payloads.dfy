/** The pure parts of the order controller: the discount rule and the
    builders that turn cart lines or Stripe line items into order documents
    and Checkout line items, and the order query. */
module OrderPayloads {
  import opened Results
  import opened ObjectIds
  import opened Store

  // ---------------------------------------------------------------- pricing

  /** `Math.ceil(n / 100)` on an integer numerator. */
  function CeilDiv100(n: int): (q: int)
    ensures 100 * q >= n > 100 * (q - 1)
  {
    -((-n) / 100)
  }

  /** `priceWithDiscount(price, dis = 1)`: the price minus the discount amount
      rounded up to a whole unit. An absent discount counts as 1 percent. */
  function PriceWithDiscount(price: int, discount: Option<int>): (r: int)
    ensures var dis := discount.GetOr(1);
      100 * (price - r) >= price * dis > 100 * (price - r - 1)
  {
    var dis := discount.GetOr(1);
    price - CeilDiv100(price * dis)
  }

  lemma NoDiscountKeepsPrice(price: int)
    ensures PriceWithDiscount(price, Some(0)) == price
  {
  }

  lemma AbsentDiscountIsOnePercent(price: int)
    ensures PriceWithDiscount(price, None) == PriceWithDiscount(price, Some(1))
  {
  }

  /** A percentage discount on a non-negative price never makes the price
      negative and never raises it. */
  lemma DiscountedPriceBounds(price: int, dis: int)
    requires price >= 0 && 0 <= dis <= 100
    ensures 0 <= PriceWithDiscount(price, Some(dis)) <= price
  {
  }

  // ------------------------------------------------------------ cart lines

  /** A catalog product as the client sends it inside a cart line (the
      populated `productId`). */
  datatype Product = Product(id: string, name: string, image: seq<string>, price: int, discount: Option<int>)

  datatype CartLine = CartLine(product: Product, quantity: int)

  /** The payment status recorded for cash-on-delivery orders. */
  const CashOnDelivery := "CASH ON DELIVERY"

  /** The cash-on-delivery payload: one order per cart line, in order, the
      k-th with the k-th fresh ObjectId from `firstId`. */
  function CodOrderRecords(userId: UserId, items: seq<CartLine>, addressId: string,
                           subTotalAmt: real, totalAmt: real, firstId: nat): (r: seq<OrderRecord>)
    ensures |r| == |items|
    ensures forall i :: 0 <= i < |items| ==>
      && r[i].userId == userId
      && r[i].orderId == OrderIdOf(firstId + i)
      && r[i].productId == items[i].product.id
      && r[i].productDetails == ProductDetails(items[i].product.name, items[i].product.image)
      && r[i].paymentId == ""
      && r[i].paymentStatus == CashOnDelivery
      && r[i].deliveryAddress == addressId
      && r[i].subTotalAmt == subTotalAmt
      && r[i].totalAmt == totalAmt
    decreases |items|
  {
    if items == [] then []
    else
      var p := items[0].product;
      [OrderRecord(userId, OrderIdOf(firstId), p.id, ProductDetails(p.name, p.image),
                   "", CashOnDelivery, addressId, subTotalAmt, totalAmt)]
      + CodOrderRecords(userId, items[1..], addressId, subTotalAmt, totalAmt, firstId + 1)
  }

  // ----------------------------------------------------- Stripe line items

  /** A Stripe product: name, images and the catalog id kept in its metadata. */
  datatype StripeProduct = StripeProduct(name: string, images: seq<string>, metadataProductId: string)

  /** A purchased line item as `listLineItems` returns it with
      `data.price.product` expanded; `amountTotal` is in minor units. */
  datatype LineItem = LineItem(amountTotal: int, product: StripeProduct)

  /** A purchased line item without expansion: `productKey` is the Stripe
      product id that `stripe.products.retrieve` resolves. */
  datatype RawLineItem = RawLineItem(amountTotal: int, productKey: string)

  /** `Number(item.amount_total / 100)`. */
  function MajorUnits(amountTotal: int): (r: real)
    ensures 100.0 * r == amountTotal as real
  {
    amountTotal as real / 100.0
  }

  /** The order document for one paid line item, as both the webhook and
      getOrderProductItems build it. */
  function PaidOrderRecord(userId: UserId, objectId: nat, product: StripeProduct, paymentId: string,
                           paymentStatus: string, addressId: string, amountTotal: int): OrderRecord
  {
    OrderRecord(userId, OrderIdOf(objectId), product.metadataProductId,
                ProductDetails(product.name, product.images),
                paymentId, paymentStatus, addressId, MajorUnits(amountTotal), MajorUnits(amountTotal))
  }

  /** The webhook payload: one order per purchased line item, in order. */
  function PaidOrderRecords(userId: UserId, items: seq<LineItem>, addressId: string,
                            paymentId: string, paymentStatus: string, firstId: nat): (r: seq<OrderRecord>)
    ensures |r| == |items|
    ensures forall i :: 0 <= i < |items| ==>
      && r[i].userId == userId
      && r[i].orderId == OrderIdOf(firstId + i)
      && r[i].productId == items[i].product.metadataProductId
      && r[i].productDetails == ProductDetails(items[i].product.name, items[i].product.images)
      && r[i].paymentId == paymentId
      && r[i].paymentStatus == paymentStatus
      && r[i].deliveryAddress == addressId
      && r[i].subTotalAmt == r[i].totalAmt == MajorUnits(items[i].amountTotal)
    decreases |items|
  {
    if items == [] then []
    else
      [PaidOrderRecord(userId, firstId, items[0].product, paymentId, paymentStatus, addressId, items[0].amountTotal)]
      + PaidOrderRecords(userId, items[1..], addressId, paymentId, paymentStatus, firstId + 1)
  }

  /** Order numbers drawn consecutively are pairwise distinct, so no two
      orders of one batch share an `orderId`. */
  lemma BatchOrderIdsDistinct(batch: seq<OrderRecord>, firstId: nat)
    requires forall i :: 0 <= i < |batch| ==> batch[i].orderId == OrderIdOf(firstId + i)
    ensures forall i, j :: 0 <= i < j < |batch| ==> batch[i].orderId != batch[j].orderId
  {
    forall i, j | 0 <= i < j < |batch| ensures batch[i].orderId != batch[j].orderId {
      OrderIdInjective(firstId + i, firstId + j);
    }
  }

  // ------------------------------------------------------- Checkout session

  datatype ProductData = ProductData(name: string, images: seq<string>, metadata: map<string, string>)
  datatype PriceData = PriceData(currency: string, productData: ProductData, unitAmount: int)
  datatype AdjustableQuantity = AdjustableQuantity(enabled: bool, minimum: int)
  datatype CheckoutLineItem = CheckoutLineItem(priceData: PriceData, adjustableQuantity: AdjustableQuantity, quantity: int)

  /** The parameters handed to `stripe.checkout.sessions.create`. */
  datatype SessionParams = SessionParams(
    submitType: string,
    mode: string,
    paymentMethodTypes: seq<string>,
    customerEmail: string,
    metadata: map<string, string>,
    lineItems: seq<CheckoutLineItem>,
    successUrl: string,
    cancelUrl: string)

  /** One Checkout line item per cart line, in order, priced in minor units. */
  function CheckoutLineItems(items: seq<CartLine>): (r: seq<CheckoutLineItem>)
    ensures |r| == |items|
    ensures forall i :: 0 <= i < |items| ==>
      var p := items[i].product;
      && r[i].priceData.currency == "inr"
      && r[i].priceData.productData == ProductData(p.name, p.image, map["productId" := p.id])
      && r[i].priceData.unitAmount == PriceWithDiscount(p.price, p.discount) * 100
      && r[i].adjustableQuantity == AdjustableQuantity(true, 1)
      && r[i].quantity == items[i].quantity
    decreases |items|
  {
    if items == [] then []
    else
      var p := items[0].product;
      [CheckoutLineItem(
         PriceData("inr", ProductData(p.name, p.image, map["productId" := p.id]),
                   PriceWithDiscount(p.price, p.discount) * 100),
         AdjustableQuantity(true, 1),
         items[0].quantity)]
      + CheckoutLineItems(items[1..])
  }

  /** The session request of paymentController for a user with that email. */
  function CheckoutSessionParams(userId: UserId, email: string, addressId: string,
                                 items: seq<CartLine>, frontendUrl: string): (r: SessionParams)
    ensures r.metadata.Keys == {"userId", "addressId"}
    ensures r.metadata["userId"] == userId && r.metadata["addressId"] == addressId
    ensures r.lineItems == CheckoutLineItems(items) && r.customerEmail == email
  {
    SessionParams("pay", "payment", ["card"], email,
                  map["userId" := userId, "addressId" := addressId],
                  CheckoutLineItems(items),
                  frontendUrl + "/success?session_id={CHECKOUT_SESSION_ID}",
                  frontendUrl + "/cancel")
  }

  /** The webhook's reading of session metadata: both `userId` and
      `addressId` present and non-empty, or None ("Missing metadata"). */
  function SessionTarget(metadata: map<string, string>): Option<(UserId, string)>
  {
    if "userId" in metadata && metadata["userId"] != "" && "addressId" in metadata && metadata["addressId"] != ""
    then Some((metadata["userId"], metadata["addressId"]))
    else None
  }

  /** The metadata stashed by the checkout comes back out of the completed
      session exactly, provided both ids were non-empty; otherwise the
      webhook rejects the session. */
  lemma MetadataRoundTrip(userId: UserId, email: string, addressId: string, items: seq<CartLine>, frontendUrl: string)
    ensures var md := CheckoutSessionParams(userId, email, addressId, items, frontendUrl).metadata;
      SessionTarget(md) == if userId != "" && addressId != "" then Some((userId, addressId)) else None
  {
  }

  // ------------------------------------------------------------ order query

  /** The orders of one user, in store order. */
  function OrdersOf(orders: seq<StoredOrder>, userId: UserId): (r: seq<StoredOrder>)
    ensures forall o :: o in r <==> o in orders && o.order.userId == userId
    ensures forall i :: 0 <= i < |r| ==> r[i].order.userId == userId
    ensures |r| <= |orders|
    ensures forall o :: multiset(r)[o] == if o.order.userId == userId then multiset(orders)[o] else 0
    decreases |orders|
  {
    if orders == [] then []
    else
      assert orders == [orders[0]] + orders[1..];
      if orders[0].order.userId == userId then [orders[0]] + OrdersOf(orders[1..], userId)
      else OrdersOf(orders[1..], userId)
  }

  ghost predicate NewestFirst(s: seq<StoredOrder>)
  {
    forall i, j :: 0 <= i < j < |s| ==> s[i].createdAt >= s[j].createdAt
  }

  /** Inserts o into a newest-first list, before the first order that is not newer. */
  function InsertByCreatedAt(o: StoredOrder, s: seq<StoredOrder>): (r: seq<StoredOrder>)
    requires NewestFirst(s)
    ensures |r| == |s| + 1
    ensures forall i :: 0 <= i < |r| ==> r[i] == o || r[i] in s
    ensures NewestFirst(r)
    ensures multiset(r) == multiset(s) + multiset{o}
    decreases |s|
  {
    if s == [] || o.createdAt >= s[0].createdAt then [o] + s
    else
      var rest := InsertByCreatedAt(o, s[1..]);
      assert s == [s[0]] + s[1..];
      [s[0]] + rest
  }

  /** `.sort({ createdAt : -1 })`: the same orders, newest first. Ties keep
      no particular order. */
  function SortNewestFirst(s: seq<StoredOrder>): (r: seq<StoredOrder>)
    ensures NewestFirst(r)
    ensures multiset(r) == multiset(s)
    decreases |s|
  {
    if s == [] then []
    else
      assert s == [s[0]] + s[1..];
      InsertByCreatedAt(s[0], SortNewestFirst(s[1..]))
  }
}
