/** The MongoDB collections the two controllers use, as one in-memory
    database: users, orders and cart products, plus the ObjectId counter
    that supplies fresh ids. */
module Store {
  import opened Results
  import opened ObjectIds

  type UserId = string

  /** A document of the users collection. Absent text fields are "". */
  datatype UserRecord = UserRecord(
    name: string,
    email: string,
    password: string,
    mobile: string,
    status: string,
    verifyEmail: bool,
    refreshToken: string,
    forgotPasswordOtp: string,
    forgotPasswordExpiry: string,
    lastLoginDate: string,
    shoppingCart: seq<string>)

  /** The fields of a user update document (`{ field : value, ... }`);
      None leaves a field as it is. */
  datatype Patch = Patch(
    name: Option<string>,
    email: Option<string>,
    password: Option<string>,
    mobile: Option<string>,
    verifyEmail: Option<bool>,
    refreshToken: Option<string>,
    forgotPasswordOtp: Option<string>,
    forgotPasswordExpiry: Option<string>,
    lastLoginDate: Option<string>,
    shoppingCart: Option<seq<string>>)

  const NoChange := Patch(None, None, None, None, None, None, None, None, None, None)

  function ApplyPatch(u: UserRecord, p: Patch): UserRecord
  {
    UserRecord(
      p.name.GetOr(u.name),
      p.email.GetOr(u.email),
      p.password.GetOr(u.password),
      p.mobile.GetOr(u.mobile),
      u.status,
      p.verifyEmail.GetOr(u.verifyEmail),
      p.refreshToken.GetOr(u.refreshToken),
      p.forgotPasswordOtp.GetOr(u.forgotPasswordOtp),
      p.forgotPasswordExpiry.GetOr(u.forgotPasswordExpiry),
      p.lastLoginDate.GetOr(u.lastLoginDate),
      p.shoppingCart.GetOr(u.shoppingCart))
  }

  /** A document of the cart-products collection. */
  datatype CartProduct = CartProduct(id: string, userId: UserId, productId: string, quantity: int)

  /** The snapshot of a product copied into an order. */
  datatype ProductDetails = ProductDetails(name: string, image: seq<string>)

  /** One order document: one product line of a checkout. */
  datatype OrderRecord = OrderRecord(
    userId: UserId,
    orderId: string,
    productId: string,
    productDetails: ProductDetails,
    paymentId: string,
    paymentStatus: string,
    deliveryAddress: string,
    subTotalAmt: real,
    totalAmt: real)

  /** An order as stored: the document plus the `createdAt` timestamp the
      schema adds on insertion. */
  datatype StoredOrder = StoredOrder(order: OrderRecord, createdAt: int)

  /** The documents of one insertMany call, all stamped with the same time. */
  function Stamp(batch: seq<OrderRecord>, now: int): (r: seq<StoredOrder>)
    ensures |r| == |batch|
    ensures forall i :: 0 <= i < |batch| ==> r[i].order == batch[i] && r[i].createdAt == now
  {
    seq(|batch|, i requires 0 <= i < |batch| => StoredOrder(batch[i], now))
  }

  /** `CartProductModel.deleteMany({ userId })`: the cart products left. */
  function WithoutUser(cps: seq<CartProduct>, userId: UserId): (r: seq<CartProduct>)
    ensures |r| <= |cps|
    ensures forall c :: c in r <==> c in cps && c.userId != userId
  {
    if cps == [] then []
    else if cps[0].userId == userId then WithoutUser(cps[1..], userId)
    else [cps[0]] + WithoutUser(cps[1..], userId)
  }

  /** `findOne({ email })`: the first user, in insertion order, with that email. */
  function FindByEmail(users: map<UserId, UserRecord>, ids: seq<UserId>, email: string): (r: Option<UserId>)
    ensures r.Some? ==> r.value in ids && r.value in users && users[r.value].email == email
    ensures r.None? ==> forall i :: 0 <= i < |ids| && ids[i] in users ==> users[ids[i]].email != email
  {
    if ids == [] then None
    else if ids[0] in users && users[ids[0]].email == email then Some(ids[0])
    else FindByEmail(users, ids[1..], email)
  }

  ghost predicate DistinctOrderIds(orders: seq<StoredOrder>)
  {
    forall i, j :: 0 <= i < j < |orders| ==> orders[i].order.orderId != orders[j].order.orderId
  }

  class Database {
    var users: map<UserId, UserRecord>
    /** The natural order of the users collection: ids in insertion order. */
    var userOrder: seq<UserId>
    var orders: seq<StoredOrder>
    var cartProducts: seq<CartProduct>
    /** The next ObjectId number to hand out. */
    var nextObjectId: nat

    ghost predicate Valid()
      reads this
    {
      && (forall i, j :: 0 <= i < j < |userOrder| ==> userOrder[i] != userOrder[j])
      && (forall id :: id in users <==> id in userOrder)
      && (forall id :: id in users ==> IssuedBefore(id, nextObjectId) && users[id].email != "")
      && DistinctOrderIds(orders)
      && (forall i :: 0 <= i < |orders| ==> OrderIdIssuedBefore(orders[i].order.orderId, nextObjectId))
    }

    constructor ()
      ensures Valid()
      ensures users == map[] && userOrder == [] && orders == [] && cartProducts == [] && nextObjectId == 0
    {
      users, userOrder, orders, cartProducts, nextObjectId := map[], [], [], [], 0;
    }

    /** Draws k fresh ObjectId numbers: first, first + 1, ..., first + k - 1. */
    method NewObjectIds(k: nat) returns (first: nat)
      requires Valid()
      modifies this`nextObjectId
      ensures Valid()
      ensures first == old(nextObjectId) && nextObjectId == first + k
    {
      first := nextObjectId;
      nextObjectId := nextObjectId + k;
    }

    /** `new UserModel(payload).save()`: the new user gets the next ObjectId. */
    method InsertUser(u: UserRecord) returns (id: UserId)
      requires Valid()
      requires u.email != ""
      modifies this`users, this`userOrder, this`nextObjectId
      ensures Valid()
      ensures id == Hex(old(nextObjectId)) && id !in old(users)
      ensures users == old(users)[id := u] && |users| == |old(users)| + 1
      ensures userOrder == old(userOrder) + [id]
      ensures nextObjectId == old(nextObjectId) + 1
    {
      id := Hex(nextObjectId);
      ParseHexOfHex(nextObjectId);
      users := users[id := u];
      userOrder := userOrder + [id];
      nextObjectId := nextObjectId + 1;
    }

    /** `OrderModel.insertMany(batch)`. */
    method InsertMany(batch: seq<OrderRecord>, now: int)
      modifies this`orders
      ensures orders == old(orders) + Stamp(batch, now)
    {
      orders := orders + Stamp(batch, now);
    }

    /** `CartProductModel.deleteMany({ userId })`. */
    method DeleteCartProductsOf(userId: UserId)
      requires Valid()
      modifies this`cartProducts
      ensures Valid()
      ensures cartProducts == WithoutUser(old(cartProducts), userId)
    {
      cartProducts := WithoutUser(cartProducts, userId);
    }

    /** `updateOne({ _id : id }, patch)` and `findByIdAndUpdate(id, patch)`:
        a user that does not exist is left alone. */
    method UpdateUser(id: UserId, p: Patch)
      requires Valid()
      requires p.email != Some("")
      modifies this`users
      ensures Valid()
      ensures users == if id in old(users) then old(users)[id := ApplyPatch(old(users)[id], p)] else old(users)
    {
      if id in users {
        users := users[id := ApplyPatch(users[id], p)];
      }
    }
  }

  /** The empty email never finds a user, since every stored email is non-empty. */
  lemma NoUserWithEmptyEmail(db: Database)
    requires db.Valid()
    ensures FindByEmail(db.users, db.userOrder, "") == None
  {
  }

  /** An update that keeps every email keeps the answer of every email lookup. */
  lemma {:induction false} FindByEmailStable(users: map<UserId, UserRecord>, users': map<UserId, UserRecord>,
                                             ids: seq<UserId>, email: string)
    requires users'.Keys == users.Keys
    requires forall id :: id in users ==> users'[id].email == users[id].email
    ensures FindByEmail(users', ids, email) == FindByEmail(users, ids, email)
    decreases |ids|
  {
    if ids != [] {
      FindByEmailStable(users, users', ids[1..], email);
    }
  }

  /** Appending a batch whose ids are drawn fresh from the counter keeps all
      order ids distinct and issued. */
  lemma {:induction false} FreshBatchKeepsIdsDistinct(orders: seq<StoredOrder>, batch: seq<StoredOrder>, next: nat)
    requires DistinctOrderIds(orders)
    requires forall i :: 0 <= i < |orders| ==> OrderIdIssuedBefore(orders[i].order.orderId, next)
    requires forall i :: 0 <= i < |batch| ==> batch[i].order.orderId == OrderIdOf(next + i)
    ensures DistinctOrderIds(orders + batch)
    ensures forall i :: 0 <= i < |orders + batch| ==>
      OrderIdIssuedBefore((orders + batch)[i].order.orderId, next + |batch|)
  {
    var all := orders + batch;
    forall i | 0 <= i < |batch|
      ensures ParseOrderId(batch[i].order.orderId) == Some(next + i)
    {
      ParseOrderIdOfOrderId(next + i);
    }
    forall i, j | 0 <= i < j < |all|
      ensures all[i].order.orderId != all[j].order.orderId
    {
      if j >= |orders| {
        assert all[j] == batch[j - |orders|];
        if i >= |orders| {
          assert all[i] == batch[i - |orders|];
        } else {
          assert all[i] == orders[i];
        }
      }
    }
    forall i | 0 <= i < |all|
      ensures OrderIdIssuedBefore(all[i].order.orderId, next + |batch|)
    {
      if i >= |orders| {
        assert all[i] == batch[i - |orders|];
      } else {
        assert all[i] == orders[i];
      }
    }
  }
}
