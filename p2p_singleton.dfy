/** The singleton P2P service of frontend/services/p2p.ts over the frontend store. Ids
    (`Math.random`) and the clock (`new Date()`, `Date.now()`) are parameters; each store
    call the service makes gets its own storage outcome. */
module P2PSingleton {
  import opened Wrappers
  import opened OrderTypes
  import opened LocalRxdb
  import OrderSchema

  /** `ESCROW_TIMEOUT`: 24 hours in milliseconds, the only time constant of the service. */
  const EscrowTimeout: Millis := 24 * 60 * 60 * 1000

  /** `Omit<Order, "id" | "createdAt" | "status" | "expiresAt">`. */
  datatype OrderDraft = OrderDraft(
    sellerId: string,
    amount: Number,
    price: Number,
    paymentMethod: PaymentMethod,
    escrowId: Option<string>)

  /** `Omit<PaymentVerification, "status">`. */
  datatype VerificationDraft = VerificationDraft(
    orderId: string,
    proof: Option<string>,
    verifiedAt: Option<Millis>,
    verifiedBy: Option<string>)

  /** The patch `verifyPayment` sends; the verifier is always "system". */
  function VerifiedPatch(now: Millis): VerificationPatch {
    VerificationPatch(Some(Verified), None, Some(now), Some("system"))
  }

  /** `lockTokensInEscrow`: builds the escrow record and stores nothing. `lockedAt` is the
      `new Date()` reading and `nowMs` the later `Date.now()` reading the expiry is computed
      from, so the window is at least 24 hours whenever the clock does not run backwards. */
  function LockTokensInEscrow(order: Order, escrowId: string, lockedAt: Millis, nowMs: Millis): (e: Escrow)
    ensures e.id == escrowId && e.orderId == order.id && e.amount == order.amount
    ensures e.status == Locked && e.lockedAt == lockedAt
    ensures e.expiresAt == nowMs + 86_400_000
    ensures lockedAt <= nowMs ==> e.expiresAt - e.lockedAt >= 86_400_000
  {
    Escrow(escrowId, order.id, order.amount, Locked, lockedAt, nowMs + EscrowTimeout)
  }

  /** The lock window does not depend on the order: any two orders whose expiry is computed
      from the same clock reading expire at the same instant, whatever their amounts. */
  lemma EscrowWindowIsFlat(a: Order, b: Order, ida: string, idb: string, lockedA: Millis, lockedB: Millis, nowMs: Millis)
    ensures LockTokensInEscrow(a, ida, lockedA, nowMs).expiresAt == LockTokensInEscrow(b, idb, lockedB, nowMs).expiresAt
  {
  }

  /** `getPaymentMethods`: GCash, Maya and BPI (a bank); each passes the schema's `type` enum. */
  function GetPaymentMethods(): (r: seq<PaymentMethod>)
    ensures |r| == 3
    ensures r[0].kind == GCash && r[1].kind == Maya && r[2].kind == Bank
    ensures forall i :: 0 <= i < |r| ==> r[i].kind.Name() in OrderSchema.PaymentTypeEnum
    ensures forall i, j :: 0 <= i < j < |r| ==> r[i].id != r[j].id
  {
    var r := [
      PaymentMethod("gcash", "GCash", GCash, NoDetails.(walletAddress := Some("09123456789"))),
      PaymentMethod("maya", "Maya", Maya, NoDetails.(walletAddress := Some("09123456789"))),
      PaymentMethod("bpi", "BPI", Bank, PaymentDetails(Some("1234567890"), Some("Waste2Earn"),
                                                       Some("Bank of the Philippine Islands"), None))
    ];
    OrderSchema.PaymentKindsAdmitted(GCash);
    OrderSchema.PaymentKindsAdmitted(Maya);
    OrderSchema.PaymentKindsAdmitted(Bank);
    r
  }

  class P2PService {
    const db: LocalRxdbDatabase

    constructor (db: LocalRxdbDatabase)
      ensures this.db == db
    {
      this.db := db;
    }

    /** `createOrder`: status "open", created at `createdAt` (the `new Date()` reading) and
        expiring 24 hours after `nowMs` (the later `Date.now()` reading); the draft's fields are
        copied. A stored order is then among the available orders. */
    method CreateOrder(draft: OrderDraft, id: string, createdAt: Millis, nowMs: Millis, io: Io) returns (r: Result<Order, StoreError>)
      requires db.Valid()
      modifies db
      ensures db.Valid() && db.verifications == old(db.verifications)
      ensures var o := Order(id, draft.sellerId, draft.amount, draft.price, Open, createdAt, nowMs + EscrowTimeout,
                             draft.paymentMethod, draft.escrowId);
        && r == (if io == Throws then Failure(StorageFailure)
                 else if io == Done && id in old(db.orders) then Failure(Conflict)
                 else Success(o))
        && db.orders == (if io == Done && id !in old(db.orders) then old(db.orders)[id := o] else old(db.orders))
      ensures io == Done && r.Success? ==> r.value in GetAvailableOrders(Done)
    {
      var order := Order(id, draft.sellerId, draft.amount, draft.price, Open, createdAt, nowMs + EscrowTimeout,
                         draft.paymentMethod, draft.escrowId);
      r := db.CreateOrder(order, io);
    }

    /** `updateOrderStatus`: any status is accepted, whatever the current one; only the
        target order's status changes. */
    method UpdateOrderStatus(orderId: string, status: OrderStatus, io: Io)
      requires db.Valid()
      modifies db
      ensures db.Valid() && db.verifications == old(db.verifications)
      ensures db.orders == if io == Done && orderId in old(db.orders)
                           then old(db.orders)[orderId := old(db.orders)[orderId].(status := status)]
                           else old(db.orders)
    {
      var _ := db.UpdateOrder(orderId, StatusPatch(status), io);
      if orderId in old(db.orders) {
        StatusPatchChangesOnlyStatusAt(old(db.orders), orderId, status);
      }
    }

    /** `getAvailableOrders`: exactly the stored orders whose status is "open". */
    function GetAvailableOrders(io: Io): (r: set<Order>)
      reads this, db
      requires db.Valid()
      ensures forall o :: o in r <==> io == Done && o.id in db.orders && db.orders[o.id] == o && o.status == Open
    {
      db.GetOrdersByStatus(Open, io)
    }

    function GetOrderById(orderId: string, io: Io): (r: Option<Order>)
      reads this, db
      requires db.Valid()
      ensures r.Some? <==> io == Done && orderId in db.orders
      ensures r.Some? ==> r.value == db.orders[orderId]
    {
      db.GetOrder(orderId, io)
    }

    function GetOrdersByUser(userId: string, io: Io): (r: set<Order>)
      reads this, db
      requires db.Valid()
      ensures forall o :: o in r <==> io == Done && o.id in db.orders && db.orders[o.id] == o && o.sellerId == userId
    {
      db.GetOrdersByUser(userId, io)
    }

    /** `createPaymentVerification`: stores the draft with status "pending", keyed by its order id. */
    method CreatePaymentVerification(draft: VerificationDraft, io: Io) returns (r: Result<PaymentVerification, StoreError>)
      requires db.Valid()
      modifies db
      ensures db.Valid() && db.orders == old(db.orders)
      ensures var v := PaymentVerification(draft.orderId, Pending, draft.proof, draft.verifiedAt, draft.verifiedBy);
        && r == (if io == Throws then Failure(StorageFailure)
                 else if io == Done && draft.orderId in old(db.verifications) then Failure(Conflict)
                 else Success(v))
        && db.verifications == (if io == Done && draft.orderId !in old(db.verifications)
                                then old(db.verifications)[draft.orderId := v] else old(db.verifications))
    {
      var v := PaymentVerification(draft.orderId, Pending, draft.proof, draft.verifiedAt, draft.verifiedBy);
      r := db.CreatePaymentVerification(v, io);
    }

    /** `verifyPayment`: false with no change when no verification is found. Otherwise the
        verification is marked verified by "system" and the order completed, in that order,
        without looking at either status, and the answer is true even when the order is
        missing or a patch was swallowed. */
    method VerifyPayment(orderId: string, now: Millis, readIo: Io, markIo: Io, completeIo: Io) returns (ok: bool)
      requires db.Valid()
      modifies db
      ensures db.Valid()
      ensures ok <==> readIo == Done && orderId in old(db.verifications)
      ensures !ok ==> db.orders == old(db.orders) && db.verifications == old(db.verifications)
      ensures ok ==> (db.verifications ==
        if markIo == Done
        then old(db.verifications)[orderId := old(db.verifications)[orderId].(status := Verified,
               verifiedAt := Some(now), verifiedBy := Some("system"))]
        else old(db.verifications))
      ensures ok ==> (db.orders ==
        if completeIo == Done && orderId in old(db.orders)
        then old(db.orders)[orderId := old(db.orders)[orderId].(status := Completed)]
        else old(db.orders))
      ensures ok ==> orderId in db.verifications
    {
      var verification := db.GetPaymentVerification(orderId, readIo);
      if verification.None? {
        return false;
      }
      var _ := db.UpdatePaymentVerification(orderId, VerifiedPatch(now), markIo);
      ghost var marked := db.orders;
      var _ := db.UpdateOrder(orderId, StatusPatch(Completed), completeIo);
      if orderId in marked {
        StatusPatchChangesOnlyStatusAt(marked, orderId, Completed);
      }
      ok := true;
    }

    /** `disputeOrder`: false with no change for an unknown order; otherwise "disputed" from
        any status, "completed" included. */
    method DisputeOrder(orderId: string, readIo: Io, patchIo: Io) returns (ok: bool)
      requires db.Valid()
      modifies db
      ensures db.Valid() && db.verifications == old(db.verifications)
      ensures ok <==> readIo == Done && orderId in old(db.orders)
      ensures db.orders ==
        if ok && patchIo == Done
        then old(db.orders)[orderId := old(db.orders)[orderId].(status := Disputed)]
        else old(db.orders)
    {
      var order := db.GetOrder(orderId, readIo);
      if order.None? {
        return false;
      }
      var _ := db.UpdateOrder(orderId, StatusPatch(Disputed), patchIo);
      if orderId in old(db.orders) {
        StatusPatchChangesOnlyStatusAt(old(db.orders), orderId, Disputed);
      }
      ok := true;
    }
  }

  /** The accept flow of the P2P page (lock the escrow, then set "payment_pending"). The
      escrow matches the order, the order's new status is one the order schema rejects, and
      nothing records the escrow. */
  method AcceptOrder(service: P2PService, order: Order, escrowId: string, lockedAt: Millis, nowMs: Millis, io: Io) returns (e: Escrow)
    requires service.db.Valid()
    modifies service.db
    ensures service.db.Valid() && service.db.verifications == old(service.db.verifications)
    ensures e == LockTokensInEscrow(order, escrowId, lockedAt, nowMs)
    ensures io == Done && order.id in old(service.db.orders) ==>
      && service.db.orders == old(service.db.orders)[order.id := old(service.db.orders)[order.id].(status := PaymentPending)]
      && !OrderSchema.ValidOrderDoc(OrderSchema.OrderDocOf(service.db.orders[order.id]))
    ensures !(io == Done && order.id in old(service.db.orders)) ==> service.db.orders == old(service.db.orders)
  {
    e := LockTokensInEscrow(order, escrowId, lockedAt, nowMs);
    service.UpdateOrderStatus(order.id, PaymentPending, io);
    if io == Done && order.id in old(service.db.orders) {
      OrderSchema.OrderDocValidity(service.db.orders[order.id]);
    }
  }

  /** Verifying twice: the second call also answers true and leaves the statuses as the
      first call set them. */
  method VerifyPaymentTwice(service: P2PService, orderId: string, now1: Millis, now2: Millis) returns (first: bool, second: bool)
    requires service.db.Valid()
    modifies service.db
    ensures service.db.Valid()
    ensures first == second
    ensures first ==> orderId in service.db.verifications && service.db.verifications[orderId].status == Verified
    ensures first && orderId in service.db.orders ==> service.db.orders[orderId].status == Completed
  {
    first := service.VerifyPayment(orderId, now1, Done, Done, Done);
    second := service.VerifyPayment(orderId, now2, Done, Done, Done);
  }
}
