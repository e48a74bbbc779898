/** The injected-store P2P service of frontend/services/p2p/P2PService.ts. Ids (`uuidv4`)
    and the clock (`new Date()`) are parameters; each store call gets its own storage outcome. */
module P2PInjected {
  import opened Wrappers
  import opened OrderTypes
  import opened LocalRxdb

  /** `Omit<Order, 'id' | 'status' | 'createdAt'>`: the caller supplies `expiresAt`. */
  datatype OrderRequest = OrderRequest(
    sellerId: string,
    amount: Number,
    price: Number,
    expiresAt: Millis,
    paymentMethod: PaymentMethod,
    escrowId: Option<string>)

  class P2PService {
    const db: LocalRxdbDatabase

    constructor (db: LocalRxdbDatabase)
      ensures this.db == db
    {
      this.db := db;
    }

    /** `createOrder`: status 'open', created now, expiring when the caller says (no default window). */
    method CreateOrder(request: OrderRequest, id: string, now: Millis, io: Io) returns (r: Result<Order, StoreError>)
      requires db.Valid()
      modifies db
      ensures db.Valid() && db.verifications == old(db.verifications)
      ensures var o := Order(id, request.sellerId, request.amount, request.price, Open, now, request.expiresAt,
                             request.paymentMethod, request.escrowId);
        && r == (if io == Throws then Failure(StorageFailure)
                 else if io == Done && id in old(db.orders) then Failure(Conflict)
                 else Success(o))
        && db.orders == (if io == Done && id !in old(db.orders) then old(db.orders)[id := o] else old(db.orders))
    {
      var order := Order(id, request.sellerId, request.amount, request.price, Open, now, request.expiresAt,
                         request.paymentMethod, request.escrowId);
      r := db.CreateOrder(order, io);
    }

    function GetOrder(id: string, io: Io): (r: Option<Order>)
      reads this, db
      requires db.Valid()
      ensures r.Some? <==> io == Done && id in db.orders
      ensures r.Some? ==> r.value == db.orders[id]
    {
      db.GetOrder(id, io)
    }

    function GetUserOrders(userId: string, io: Io): (r: set<Order>)
      reads this, db
      requires db.Valid()
      ensures forall o :: o in r <==> io == Done && o.id in db.orders && db.orders[o.id] == o && o.sellerId == userId
    {
      db.GetOrdersByUser(userId, io)
    }

    /** `updateOrderStatus`: null and no change for an absent order; otherwise the returned
        order is the old one with only its status replaced. */
    method UpdateOrderStatus(id: string, status: OrderStatus, io: Io) returns (r: Option<Order>)
      requires db.Valid()
      modifies db
      ensures db.Valid() && db.verifications == old(db.verifications)
      ensures r.Some? <==> io == Done && id in old(db.orders)
      ensures r.Some? ==> r.value == old(db.orders)[id].(status := status) && db.orders == old(db.orders)[id := r.value]
      ensures r.None? ==> db.orders == old(db.orders)
    {
      r := db.UpdateOrder(id, StatusPatch(status), io);
      if r.Some? {
        StatusPatchChangesOnlyStatus(old(db.orders)[id], status);
      }
    }

    /** `submitPaymentVerification`: the order id comes from the argument and the status is 'pending'. */
    method SubmitPaymentVerification(orderId: string, proof: Option<string>, io: Io) returns (r: Result<PaymentVerification, StoreError>)
      requires db.Valid()
      modifies db
      ensures db.Valid() && db.orders == old(db.orders)
      ensures var v := PaymentVerification(orderId, Pending, proof, None, None);
        && r == (if io == Throws then Failure(StorageFailure)
                 else if io == Done && orderId in old(db.verifications) then Failure(Conflict)
                 else Success(v))
        && db.verifications == (if io == Done && orderId !in old(db.verifications)
                                then old(db.verifications)[orderId := v] else old(db.verifications))
    {
      var v := PaymentVerification(orderId, Pending, proof, None, None);
      r := db.CreatePaymentVerification(v, io);
    }

    /** `getOrderVerifications`: the verifications whose order id matches, which is the one
        stored under that id or none. */
    function GetOrderVerifications(orderId: string, io: Io): (r: set<PaymentVerification>)
      reads this, db
      requires db.Valid()
      ensures forall v :: v in r <==> io == Done && orderId in db.verifications && v == db.verifications[orderId]
      ensures forall v :: v in r ==> v.orderId == orderId
    {
      db.GetPaymentVerificationsByOrder(orderId, io)
    }

    /** `verifyPayment`: false and no change without a verification; otherwise the verification
        becomes 'verified' (by 'system', now) and then the order 'completed', and the answer is true. */
    method VerifyPayment(orderId: string, now: Millis, readIo: Io, markIo: Io, completeIo: Io) returns (ok: bool)
      requires db.Valid()
      modifies db
      ensures db.Valid()
      ensures ok <==> readIo == Done && orderId in old(db.verifications)
      ensures !ok ==> db.orders == old(db.orders) && db.verifications == old(db.verifications)
      ensures ok ==> (db.verifications ==
        if markIo == Done
        then old(db.verifications)[orderId := old(db.verifications)[orderId].(status := Verified,
               verifiedAt := Some(now), verifiedBy := Some("system"))]
        else old(db.verifications))
      ensures ok ==> (db.orders ==
        if completeIo == Done && orderId in old(db.orders)
        then old(db.orders)[orderId := old(db.orders)[orderId].(status := Completed)]
        else old(db.orders))
    {
      var verification := db.GetPaymentVerification(orderId, readIo);
      if verification.None? {
        return false;
      }
      var _ := db.UpdatePaymentVerification(orderId, VerificationPatch(Some(Verified), None, Some(now), Some("system")), markIo);
      ghost var marked := db.orders;
      var _ := db.UpdateOrder(orderId, StatusPatch(Completed), completeIo);
      if orderId in marked {
        StatusPatchChangesOnlyStatusAt(marked, orderId, Completed);
      }
      ok := true;
    }

    /** `disputeOrder`: false for an unknown order; otherwise 'disputed' and true. */
    method DisputeOrder(orderId: string, readIo: Io, patchIo: Io) returns (ok: bool)
      requires db.Valid()
      modifies db
      ensures db.Valid() && db.verifications == old(db.verifications)
      ensures ok <==> readIo == Done && orderId in old(db.orders)
      ensures db.orders ==
        if ok && patchIo == Done
        then old(db.orders)[orderId := old(db.orders)[orderId].(status := Disputed)]
        else old(db.orders)
    {
      var order := db.GetOrder(orderId, readIo);
      if order.None? {
        return false;
      }
      var _ := db.UpdateOrder(orderId, StatusPatch(Disputed), patchIo);
      if orderId in old(db.orders) {
        StatusPatchChangesOnlyStatusAt(old(db.orders), orderId, Disputed);
      }
      ok := true;
    }
  }
}
