/** The P2P part of the frontend document store (frontend/database/local-rxdb.ts): orders
    keyed by `id`, payment verifications keyed by `orderId`, and two pure projections used
    when contacts and allowances are stored.

    Each store call meets the collection in one of three ways, given as a parameter:
    the collection is there and the call succeeds, the collection getter yields null so the
    `?.` chain skips the call, or the storage call throws. Inserting a document whose
    primary key is already stored is a conflict, which RxDB reports by throwing. */
module LocalRxdb {
  import opened Wrappers
  import opened OrderTypes

  datatype Io = Done | NoCollection | Throws

  /** What a rethrown insert failure carries. */
  datatype StoreError = Conflict | StorageFailure

  /** `Partial<Order>` without the primary key. */
  datatype OrderPatch = OrderPatch(
    sellerId: Option<string>,
    amount: Option<Number>,
    price: Option<Number>,
    status: Option<OrderStatus>,
    createdAt: Option<Millis>,
    expiresAt: Option<Millis>,
    paymentMethod: Option<PaymentMethod>,
    escrowId: Option<string>)

  const EmptyOrderPatch := OrderPatch(None, None, None, None, None, None, None, None)

  /** `{ status }`, the only order patch the services send. */
  function StatusPatch(s: OrderStatus): OrderPatch {
    EmptyOrderPatch.(status := Some(s))
  }

  /** `Partial<PaymentVerification>` without the primary key. */
  datatype VerificationPatch = VerificationPatch(
    status: Option<VerificationStatus>,
    proof: Option<string>,
    verifiedAt: Option<Millis>,
    verifiedBy: Option<string>)

  /** RxDB `patch`: each field named in the patch takes the patch's value, every other field
      keeps its value. */
  function PatchOrder(o: Order, p: OrderPatch): (r: Order)
    ensures r.id == o.id
    ensures p.sellerId.Some? ==> r.sellerId == p.sellerId.value
    ensures p.sellerId.None? ==> r.sellerId == o.sellerId
    ensures p.amount.Some? ==> r.amount == p.amount.value
    ensures p.amount.None? ==> r.amount == o.amount
    ensures p.price.Some? ==> r.price == p.price.value
    ensures p.price.None? ==> r.price == o.price
    ensures p.status.Some? ==> r.status == p.status.value
    ensures p.status.None? ==> r.status == o.status
    ensures p.createdAt.Some? ==> r.createdAt == p.createdAt.value
    ensures p.createdAt.None? ==> r.createdAt == o.createdAt
    ensures p.expiresAt.Some? ==> r.expiresAt == p.expiresAt.value
    ensures p.expiresAt.None? ==> r.expiresAt == o.expiresAt
    ensures p.paymentMethod.Some? ==> r.paymentMethod == p.paymentMethod.value
    ensures p.paymentMethod.None? ==> r.paymentMethod == o.paymentMethod
    ensures p.escrowId.Some? ==> r.escrowId == p.escrowId
    ensures p.escrowId.None? ==> r.escrowId == o.escrowId
  {
    Order(o.id, p.sellerId.GetOr(o.sellerId), p.amount.GetOr(o.amount), p.price.GetOr(o.price),
          p.status.GetOr(o.status), p.createdAt.GetOr(o.createdAt), p.expiresAt.GetOr(o.expiresAt),
          p.paymentMethod.GetOr(o.paymentMethod), if p.escrowId.Some? then p.escrowId else o.escrowId)
  }

  function PatchVerification(v: PaymentVerification, p: VerificationPatch): (r: PaymentVerification)
    ensures r.orderId == v.orderId
    ensures p.status.Some? ==> r.status == p.status.value
    ensures p.status.None? ==> r.status == v.status
    ensures p.proof.Some? ==> r.proof == p.proof
    ensures p.proof.None? ==> r.proof == v.proof
    ensures p.verifiedAt.Some? ==> r.verifiedAt == p.verifiedAt
    ensures p.verifiedAt.None? ==> r.verifiedAt == v.verifiedAt
    ensures p.verifiedBy.Some? ==> r.verifiedBy == p.verifiedBy
    ensures p.verifiedBy.None? ==> r.verifiedBy == v.verifiedBy
  {
    PaymentVerification(v.orderId, p.status.GetOr(v.status),
                        if p.proof.Some? then p.proof else v.proof,
                        if p.verifiedAt.Some? then p.verifiedAt else v.verifiedAt,
                        if p.verifiedBy.Some? then p.verifiedBy else v.verifiedBy)
  }

  /** The empty patch changes nothing. */
  lemma EmptyOrderPatchIsIdentity(o: Order)
    ensures PatchOrder(o, EmptyOrderPatch) == o
  {
  }

  /** Applying the same patch twice is applying it once. */
  lemma PatchOrderIdempotent(o: Order, p: OrderPatch)
    ensures PatchOrder(PatchOrder(o, p), p) == PatchOrder(o, p)
  {
  }

  lemma PatchVerificationIdempotent(v: PaymentVerification, p: VerificationPatch)
    ensures PatchVerification(PatchVerification(v, p), p) == PatchVerification(v, p)
  {
  }

  /** A status patch changes the status and nothing else, whatever the old status was. */
  lemma StatusPatchChangesOnlyStatus(o: Order, s: OrderStatus)
    ensures PatchOrder(o, StatusPatch(s)) == o.(status := s)
  {
  }

  /** A status patch at one key of the store, as a map update. */
  lemma StatusPatchChangesOnlyStatusAt(orders: map<string, Order>, id: string, s: OrderStatus)
    requires id in orders
    ensures orders[id := PatchOrder(orders[id], StatusPatch(s))] == orders[id := orders[id].(status := s)]
  {
    StatusPatchChangesOnlyStatus(orders[id], s);
  }

  /** Every stored record sits under its own primary key. */
  ghost predicate OrdersKeyed(orders: map<string, Order>) {
    forall id | id in orders :: orders[id].id == id
  }

  ghost predicate VerificationsKeyed(verifications: map<string, PaymentVerification>) {
    forall id | id in verifications :: verifications[id].orderId == id
  }

  /** The result of `find({ selector: { status } })`. */
  function OrdersWithStatus(orders: map<string, Order>, status: OrderStatus): (r: set<Order>)
    requires OrdersKeyed(orders)
    ensures forall o :: o in r <==> o.id in orders && orders[o.id] == o && o.status == status
  {
    set id | id in orders && orders[id].status == status :: orders[id]
  }

  /** The result of `find({ selector: { sellerId: userId } })`. */
  function OrdersOfSeller(orders: map<string, Order>, userId: string): (r: set<Order>)
    requires OrdersKeyed(orders)
    ensures forall o :: o in r <==> o.id in orders && orders[o.id] == o && o.sellerId == userId
  {
    set id | id in orders && orders[id].sellerId == userId :: orders[id]
  }

  /** The result of `find({ selector: { orderId } })`: since verifications are keyed by
      `orderId`, it is the one verification stored under that key, or none. */
  function VerificationsOfOrder(verifications: map<string, PaymentVerification>, orderId: string): (r: set<PaymentVerification>)
    requires VerificationsKeyed(verifications)
    ensures r == if orderId in verifications then {verifications[orderId]} else {}
    ensures |r| <= 1
  {
    var r := set k | k in verifications && verifications[k].orderId == orderId :: verifications[k];
    assert orderId in verifications ==> verifications[orderId] in r;
    r
  }

  /** Storing a new open order adds exactly that order to the open orders. */
  lemma InsertOpenOrder(orders: map<string, Order>, o: Order)
    requires OrdersKeyed(orders) && o.id !in orders && o.status == Open
    ensures OrdersKeyed(orders[o.id := o])
    ensures OrdersWithStatus(orders[o.id := o], Open) == OrdersWithStatus(orders, Open) + {o}
  {
    var after := orders[o.id := o];
    assert OrdersKeyed(after);
    forall x ensures x in OrdersWithStatus(after, Open) <==> x in OrdersWithStatus(orders, Open) + {o} {
      if x.id == o.id {
        assert x in OrdersWithStatus(orders, Open) ==> false;
      }
    }
  }

  /** After a status patch the order is found under its new status and under no other. */
  lemma StatusPatchMovesOrder(orders: map<string, Order>, id: string, s: OrderStatus, t: OrderStatus)
    requires OrdersKeyed(orders) && id in orders
    ensures OrdersKeyed(orders[id := PatchOrder(orders[id], StatusPatch(s))])
    ensures PatchOrder(orders[id], StatusPatch(s)) in OrdersWithStatus(orders[id := PatchOrder(orders[id], StatusPatch(s))], t) <==> t == s
  {
    var after := orders[id := PatchOrder(orders[id], StatusPatch(s))];
    assert OrdersKeyed(after);
  }

  /** An account of a contact, with the fields the store keeps and an optional
      `allowance`. The field types of `Contact` are not part of this model, hence the
      type parameters. */
  datatype ContactAccount<F, A> = ContactAccount(fields: F, allowance: Option<A>)

  datatype Contact<C, F, A> = Contact(info: C, accounts: seq<ContactAccount<F, A>>)

  /** `contact.accounts.map(...)` with each account's `allowance` removed. */
  function StorableAccounts<F, A>(accounts: seq<ContactAccount<F, A>>): (r: seq<ContactAccount<F, A>>)
    ensures |r| == |accounts|
    ensures forall i :: 0 <= i < |r| ==> r[i].fields == accounts[i].fields && r[i].allowance.None?
  {
    if accounts == [] then [] else [accounts[0].(allowance := None)] + StorableAccounts(accounts[1..])
  }

  /** `_getStorableContact`: every account is kept, in the same order, and loses only its allowance. */
  function StorableContact<C, F, A>(contact: Contact<C, F, A>): (r: Contact<C, F, A>)
    ensures r.info == contact.info
    ensures |r.accounts| == |contact.accounts|
    ensures forall i :: 0 <= i < |r.accounts| ==>
      r.accounts[i] == ContactAccount(contact.accounts[i].fields, None)
  {
    contact.(accounts := StorableAccounts(contact.accounts))
  }

  /** Storing a contact twice gives what storing it once gives. */
  lemma StorableContactIdempotent<C, F, A>(contact: Contact<C, F, A>)
    ensures StorableContact(StorableContact(contact)) == StorableContact(contact)
  {
    var once := StorableContact(contact);
    var twice := StorableContact(once);
    assert twice.accounts == once.accounts;
  }

  /** `TAllowance`; its field types are not part of this model, except that `asset` is an
      opaque type parameter and the rest are strings. */
  datatype Allowance<Asset> = Allowance(
    id: string, asset: Asset, subAccountId: string, spender: string, amount: string, expiration: string)

  datatype StoredAllowance<Asset> = StoredAllowance(id: string, asset: Asset, subAccountId: string, spender: string)

  /** `_getStorableAllowance`: drops `amount` and `expiration`. */
  function StorableAllowance<Asset>(a: Allowance<Asset>): (r: StoredAllowance<Asset>)
    ensures r.id == a.id && r.asset == a.asset && r.subAccountId == a.subAccountId && r.spender == a.spender
  {
    StoredAllowance(a.id, a.asset, a.subAccountId, a.spender)
  }

  /** Two allowances are stored alike exactly when they agree on id, asset, sub-account and
      spender: amount and expiration are forgotten, nothing else is. */
  lemma StorableAllowanceForgets<Asset>(a: Allowance<Asset>, b: Allowance<Asset>)
    ensures StorableAllowance(a) == StorableAllowance(b) <==>
      a.id == b.id && a.asset == b.asset && a.subAccountId == b.subAccountId && a.spender == b.spender
    ensures StorableAllowance(a) == StorableAllowance(a.(amount := b.amount, expiration := b.expiration))
  {
  }

  class LocalRxdbDatabase {
    var orders: map<string, Order>
    var verifications: map<string, PaymentVerification>

    ghost predicate Valid()
      reads this
    {
      OrdersKeyed(orders) && VerificationsKeyed(verifications)
    }

    constructor ()
      ensures Valid() && orders == map[] && verifications == map[]
    {
      orders := map[];
      verifications := map[];
    }

    /** `createOrder`: a conflict or a storage error is rethrown; without a collection the
        input is returned and nothing is stored. */
    method CreateOrder(order: Order, io: Io) returns (r: Result<Order, StoreError>)
      requires Valid()
      modifies this
      ensures Valid() && verifications == old(verifications)
      ensures r == if io == Throws then Failure(StorageFailure)
                   else if io == Done && order.id in old(orders) then Failure(Conflict)
                   else Success(order)
      ensures orders == if io == Done && order.id !in old(orders) then old(orders)[order.id := order] else old(orders)
    {
      if io == Throws {
        return Failure(StorageFailure);
      }
      if io == Done {
        if order.id in orders {
          return Failure(Conflict);
        }
        orders := orders[order.id := order];
      }
      r := Success(order);
    }

    /** `getOrder`: a missing record and a storage error both give null. */
    function GetOrder(id: string, io: Io): (r: Option<Order>)
      reads this
      requires Valid()
      ensures r.Some? <==> io == Done && id in orders
      ensures r.Some? ==> r.value == orders[id] && r.value.id == id
    {
      if io == Done && id in orders then Some(orders[id]) else None
    }

    /** `updateOrder`: a missing record and a storage error both give null and change nothing. */
    method UpdateOrder(id: string, updates: OrderPatch, io: Io) returns (r: Option<Order>)
      requires Valid()
      modifies this
      ensures Valid() && verifications == old(verifications)
      ensures r.Some? <==> io == Done && id in old(orders)
      ensures r.Some? ==> r.value == PatchOrder(old(orders)[id], updates) && orders == old(orders)[id := r.value]
      ensures r.None? ==> orders == old(orders)
    {
      if io == Done && id in orders {
        var updated := PatchOrder(orders[id], updates);
        orders := orders[id := updated];
        r := Some(updated);
      } else {
        r := None;
      }
    }

    /** `getOrdersByStatus`: a storage error gives the empty list. */
    function GetOrdersByStatus(status: OrderStatus, io: Io): (r: set<Order>)
      reads this
      requires Valid()
      ensures forall o :: o in r <==> io == Done && o.id in orders && orders[o.id] == o && o.status == status
    {
      if io == Done then OrdersWithStatus(orders, status) else {}
    }

    /** `getOrdersByUser`: the orders whose seller is `userId`. */
    function GetOrdersByUser(userId: string, io: Io): (r: set<Order>)
      reads this
      requires Valid()
      ensures forall o :: o in r <==> io == Done && o.id in orders && orders[o.id] == o && o.sellerId == userId
    {
      if io == Done then OrdersOfSeller(orders, userId) else {}
    }

    /** `createPaymentVerification`: keyed by `orderId`, so a second verification for the
        same order is a conflict. */
    method CreatePaymentVerification(v: PaymentVerification, io: Io) returns (r: Result<PaymentVerification, StoreError>)
      requires Valid()
      modifies this
      ensures Valid() && orders == old(orders)
      ensures r == if io == Throws then Failure(StorageFailure)
                   else if io == Done && v.orderId in old(verifications) then Failure(Conflict)
                   else Success(v)
      ensures verifications == if io == Done && v.orderId !in old(verifications)
                               then old(verifications)[v.orderId := v] else old(verifications)
    {
      if io == Throws {
        return Failure(StorageFailure);
      }
      if io == Done {
        if v.orderId in verifications {
          return Failure(Conflict);
        }
        verifications := verifications[v.orderId := v];
      }
      r := Success(v);
    }

    /** `getPaymentVerification`, looked up by `orderId`. */
    function GetPaymentVerification(orderId: string, io: Io): (r: Option<PaymentVerification>)
      reads this
      requires Valid()
      ensures r.Some? <==> io == Done && orderId in verifications
      ensures r.Some? ==> r.value == verifications[orderId] && r.value.orderId == orderId
    {
      if io == Done && orderId in verifications then Some(verifications[orderId]) else None
    }

    /** `updatePaymentVerification`, patched by `orderId`. */
    method UpdatePaymentVerification(orderId: string, updates: VerificationPatch, io: Io) returns (r: Option<PaymentVerification>)
      requires Valid()
      modifies this
      ensures Valid() && orders == old(orders)
      ensures r.Some? <==> io == Done && orderId in old(verifications)
      ensures r.Some? ==> r.value == PatchVerification(old(verifications)[orderId], updates)
                          && verifications == old(verifications)[orderId := r.value]
      ensures r.None? ==> verifications == old(verifications)
    {
      if io == Done && orderId in verifications {
        var updated := PatchVerification(verifications[orderId], updates);
        verifications := verifications[orderId := updated];
        r := Some(updated);
      } else {
        r := None;
      }
    }

    /** `getPaymentVerificationsByOrder`: at most one result. */
    function GetPaymentVerificationsByOrder(orderId: string, io: Io): (r: set<PaymentVerification>)
      reads this
      requires Valid()
      ensures r == if io == Done && orderId in verifications then {verifications[orderId]} else {}
    {
      if io == Done then VerificationsOfOrder(verifications, orderId) else {}
    }
  }
}
