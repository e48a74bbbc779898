/** The offer / transaction P2P service of src/services/p2p/P2PService.ts over the legacy
    store. Ids (`uuidv4`) and the ISO timestamp (`new Date().toISOString()`) are parameters;
    each store call gets its own storage outcome, and a rethrown storage error ends the
    operation with `Failure` after whatever writes came before it. */
module P2PLegacy {
  import opened Wrappers
  import opened LegacyTypes
  import opened LegacyRxdb

  /** `Omit<P2POffer, 'id' | 'status' | 'createdAt'>`. */
  datatype OfferDraft = OfferDraft(
    userId: string, amount: Number, currency: string, price: Number, paymentMethod: string,
    expiresAt: Option<string>)

  /** `Omit<P2PTransaction, 'id' | 'status' | 'createdAt'>`. */
  datatype TransactionDraft = TransactionDraft(
    offerId: string, buyerId: string, sellerId: string, amount: Number, currency: string,
    completedAt: Option<string>, disputeReason: Option<string>)

  /** `Omit<P2PPaymentVerification, 'id' | 'createdAt'>`: it carries its own transaction id and status. */
  datatype VerificationDraft = VerificationDraft(
    transactionId: string, userId: string, status: VerificationStatus, proof: string,
    notes: Option<string>, verifiedAt: Option<string>)

  function OfferOf(d: OfferDraft, id: string, createdAt: string): P2POffer {
    P2POffer(id, d.userId, d.amount, d.currency, d.price, d.paymentMethod, OfferActive, createdAt, d.expiresAt)
  }

  function TransactionOf(d: TransactionDraft, id: string, createdAt: string): P2PTransaction {
    P2PTransaction(id, d.offerId, d.buyerId, d.sellerId, d.amount, d.currency, TxPending, createdAt,
                   d.completedAt, d.disputeReason)
  }

  function VerificationOf(d: VerificationDraft, id: string, createdAt: string): P2PPaymentVerification {
    P2PPaymentVerification(id, d.transactionId, d.userId, d.status, d.proof, d.notes, createdAt, d.verifiedAt)
  }

  class P2PService {
    const db: LocalRxdbDatabase

    constructor (db: LocalRxdbDatabase)
      ensures this.db == db
    {
      this.db := db;
    }

    /** `createOffer`: status 'active', the caller's fields unchanged; a stored offer is then active. */
    method CreateOffer(draft: OfferDraft, id: string, createdAt: string, io: Io) returns (r: Result<P2POffer, StoreError>)
      requires db.Valid()
      modifies db
      ensures db.Valid() && db.transactions == old(db.transactions) && db.verifications == old(db.verifications)
      ensures var o := OfferOf(draft, id, createdAt);
        && o.status == OfferActive && o.userId == draft.userId && o.amount == draft.amount
        && o.currency == draft.currency && o.price == draft.price && o.paymentMethod == draft.paymentMethod
        && o.expiresAt == draft.expiresAt
        && r == (if io == Throws then Failure(StorageFailure)
                 else if id in old(db.offers) then Failure(Conflict)
                 else Success(o))
        && db.offers == (if r.Success? then old(db.offers)[id := o] else old(db.offers))
      ensures r.Success? ==> GetActiveOffers(Done).Success? && r.value in GetActiveOffers(Done).value
    {
      r := db.CreateP2POffer(OfferOf(draft, id, createdAt), io);
    }

    /** `getActiveOffers`: exactly the offers whose status is 'active'. */
    function GetActiveOffers(io: Io): (r: Result<set<P2POffer>, StoreError>)
      reads this, db
      requires db.Valid()
      ensures r.Failure? <==> io == Throws
      ensures r.Success? ==> forall o :: o in r.value <==> o.id in db.offers && db.offers[o.id] == o && o.status == OfferActive
    {
      db.GetActiveP2POffers(io)
    }

    function GetUserOffers(userId: string, io: Io): (r: Result<set<P2POffer>, StoreError>)
      reads this, db
      requires db.Valid()
      ensures r.Failure? <==> io == Throws
      ensures r.Success? ==> forall o :: o in r.value <==> o.id in db.offers && db.offers[o.id] == o && o.userId == userId
    {
      db.GetP2POffersByUser(userId, io)
    }

    /** `createTransaction`: status 'pending'; the referenced offer is left as it was (still 'active'). */
    method CreateTransaction(draft: TransactionDraft, id: string, createdAt: string, io: Io) returns (r: Result<P2PTransaction, StoreError>)
      requires db.Valid()
      modifies db
      ensures db.Valid() && db.offers == old(db.offers) && db.verifications == old(db.verifications)
      ensures var t := TransactionOf(draft, id, createdAt);
        && t.status == TxPending && t.offerId == draft.offerId && t.buyerId == draft.buyerId
        && t.sellerId == draft.sellerId && t.amount == draft.amount && t.currency == draft.currency
        && r == (if io == Throws then Failure(StorageFailure)
                 else if id in old(db.transactions) then Failure(Conflict)
                 else Success(t))
        && db.transactions == (if r.Success? then old(db.transactions)[id := t] else old(db.transactions))
    {
      r := db.CreateP2PTransaction(TransactionOf(draft, id, createdAt), io);
    }

    function GetTransaction(id: string, io: Io): (r: Result<Option<P2PTransaction>, StoreError>)
      reads this, db
      requires db.Valid()
      ensures r.Failure? <==> io == Throws
      ensures r.Success? ==> (r.value.Some? <==> id in db.transactions)
      ensures r.Success? && r.value.Some? ==> r.value.value == db.transactions[id]
    {
      db.GetP2PTransaction(id, io)
    }

    /** `getUserTransactions`: the transactions where the user is buyer or seller. */
    function GetUserTransactions(userId: string, io: Io): (r: Result<set<P2PTransaction>, StoreError>)
      reads this, db
      requires db.Valid()
      ensures r.Failure? <==> io == Throws
      ensures r.Success? ==> forall t :: t in r.value <==>
        t.id in db.transactions && db.transactions[t.id] == t && (t.buyerId == userId || t.sellerId == userId)
    {
      db.GetP2PTransactionsByUser(userId, io)
    }

    /** `updateTransactionStatus`: any status, whatever the current one; null for an absent id. */
    method UpdateTransactionStatus(id: string, status: TransactionStatus, io: Io) returns (r: Result<Option<P2PTransaction>, StoreError>)
      requires db.Valid()
      modifies db
      ensures db.Valid() && db.offers == old(db.offers) && db.verifications == old(db.verifications)
      ensures r.Failure? <==> io == Throws
      ensures r.Success? ==> (r.value.Some? <==> id in old(db.transactions))
      ensures r.Success? && r.value.Some? ==>
        r.value.value == old(db.transactions)[id].(status := status) && db.transactions == old(db.transactions)[id := r.value.value]
      ensures !(r.Success? && r.value.Some?) ==> db.transactions == old(db.transactions)
    {
      r := db.UpdateP2PTransaction(id, EmptyTransactionPatch.(status := Some(status)), io);
      if r.Success? && r.value.Some? {
        TransactionStatusPatch(old(db.transactions)[id], status);
      }
    }

    /** `submitPaymentVerification`: the `transactionId` argument is not used; the stored
        record's transaction id and status are the ones the draft carries. */
    method SubmitPaymentVerification(transactionId: string, draft: VerificationDraft, id: string, createdAt: string, io: Io)
      returns (r: Result<P2PPaymentVerification, StoreError>)
      requires db.Valid()
      modifies db
      ensures db.Valid() && db.transactions == old(db.transactions) && db.offers == old(db.offers)
      ensures var v := VerificationOf(draft, id, createdAt);
        && v.transactionId == draft.transactionId && v.status == draft.status && v.proof == draft.proof
        && r == (if io == Throws then Failure(StorageFailure)
                 else if id in old(db.verifications) then Failure(Conflict)
                 else Success(v))
        && db.verifications == (if r.Success? then old(db.verifications)[id := v] else old(db.verifications))
    {
      r := db.CreateP2PPaymentVerification(VerificationOf(draft, id, createdAt), io);
    }

    function GetTransactionVerifications(transactionId: string, io: Io): (r: Result<set<P2PPaymentVerification>, StoreError>)
      reads this, db
      requires db.Valid()
      ensures r.Failure? <==> io == Throws
      ensures r.Success? ==> forall v :: v in r.value <==>
        v.id in db.verifications && db.verifications[v.id] == v && v.transactionId == transactionId
    {
      db.GetP2PPaymentVerificationsByTransaction(transactionId, io)
    }

    /** `verifyPayment`: false and no change when the verification is missing or belongs to
        another transaction; otherwise the verification becomes 'verified' and then the
        transaction 'completed' (completedAt is not set), and the answer is true. A storage
        error after the first patch leaves the verification verified and the transaction as it was. */
    method VerifyPayment(transactionId: string, verificationId: string, readIo: Io, markIo: Io, completeIo: Io)
      returns (r: Result<bool, StoreError>)
      requires db.Valid()
      modifies db
      ensures db.Valid() && db.offers == old(db.offers)
      ensures var matches := verificationId in old(db.verifications)
                             && old(db.verifications)[verificationId].transactionId == transactionId;
        && r == (if readIo == Throws then Failure(StorageFailure)
                 else if !matches then Success(false)
                 else if markIo == Throws || completeIo == Throws then Failure(StorageFailure)
                 else Success(true))
        && db.verifications == (if readIo == Done && matches && markIo == Done
                                then old(db.verifications)[verificationId := old(db.verifications)[verificationId].(status := VerVerified)]
                                else old(db.verifications))
        && db.transactions == (if readIo == Done && matches && markIo == Done && completeIo == Done && transactionId in old(db.transactions)
                               then old(db.transactions)[transactionId := old(db.transactions)[transactionId].(status := TxCompleted)]
                               else old(db.transactions))
    {
      var found := db.GetP2PPaymentVerification(verificationId, readIo);
      if found.Failure? {
        return Failure(found.error);
      }
      if found.value.None? || found.value.value.transactionId != transactionId {
        return Success(false);
      }
      var marked := db.UpdateP2PPaymentVerification(verificationId, VerificationPatch(None, None, Some(VerVerified), None, None, None, None), markIo);
      if marked.Failure? {
        return Failure(marked.error);
      }
      VerificationStatusPatch(old(db.verifications)[verificationId], VerVerified);
      ghost var before := db.transactions;
      var completed := db.UpdateP2PTransaction(transactionId, EmptyTransactionPatch.(status := Some(TxCompleted)), completeIo);
      if completed.Failure? {
        return Failure(completed.error);
      }
      if transactionId in before {
        TransactionStatusPatch(before[transactionId], TxCompleted);
      }
      r := Success(true);
    }

    /** `disputeTransaction`: false for an unknown id; otherwise status 'disputed' and the
        reason recorded, every other field unchanged. */
    method DisputeTransaction(transactionId: string, reason: string, readIo: Io, patchIo: Io) returns (r: Result<bool, StoreError>)
      requires db.Valid()
      modifies db
      ensures db.Valid() && db.offers == old(db.offers) && db.verifications == old(db.verifications)
      ensures r == (if readIo == Throws then Failure(StorageFailure)
                    else if transactionId !in old(db.transactions) then Success(false)
                    else if patchIo == Throws then Failure(StorageFailure)
                    else Success(true))
      ensures db.transactions == if r == Success(true)
        then old(db.transactions)[transactionId := old(db.transactions)[transactionId].(status := TxDisputed, disputeReason := Some(reason))]
        else old(db.transactions)
    {
      var found := db.GetP2PTransaction(transactionId, readIo);
      if found.Failure? {
        return Failure(found.error);
      }
      if found.value.None? {
        return Success(false);
      }
      var patched := db.UpdateP2PTransaction(transactionId, EmptyTransactionPatch.(status := Some(TxDisputed), disputeReason := Some(reason)), patchIo);
      if patched.Failure? {
        return Failure(patched.error);
      }
      TransactionDisputePatch(old(db.transactions)[transactionId], reason);
      r := Success(true);
    }
  }
}
