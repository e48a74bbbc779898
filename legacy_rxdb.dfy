/** The transaction / offer / verification store of src/services/database/LocalRxdbDatabase.ts.
    Every record is keyed by `id`. Unlike the frontend store, every method rethrows a storage
    error: whether a call's storage access fails is a parameter, and a failure is
    `Failure(StorageFailure)`, never a null or an empty list. */
module LegacyRxdb {
  import opened Wrappers
  import opened LegacyTypes

  datatype Io = Done | Throws

  datatype StoreError = Conflict | StorageFailure

  /** `Partial<P2PTransaction>` without the primary key. */
  datatype TransactionPatch = TransactionPatch(
    offerId: Option<string>,
    buyerId: Option<string>,
    sellerId: Option<string>,
    amount: Option<Number>,
    currency: Option<string>,
    status: Option<TransactionStatus>,
    createdAt: Option<string>,
    completedAt: Option<string>,
    disputeReason: Option<string>)

  const EmptyTransactionPatch := TransactionPatch(None, None, None, None, None, None, None, None, None)

  /** `Partial<P2POffer>` without the primary key. */
  datatype OfferPatch = OfferPatch(
    userId: Option<string>,
    amount: Option<Number>,
    currency: Option<string>,
    price: Option<Number>,
    paymentMethod: Option<string>,
    status: Option<OfferStatus>,
    createdAt: Option<string>,
    expiresAt: Option<string>)

  /** `Partial<P2PPaymentVerification>` without the primary key. */
  datatype VerificationPatch = VerificationPatch(
    transactionId: Option<string>,
    userId: Option<string>,
    status: Option<VerificationStatus>,
    proof: Option<string>,
    notes: Option<string>,
    createdAt: Option<string>,
    verifiedAt: Option<string>)

  /** RxDB `patch` on a transaction: named fields take the patch's value, the rest stay. */
  function PatchTransaction(t: P2PTransaction, p: TransactionPatch): (r: P2PTransaction)
    ensures r.id == t.id
    ensures p.offerId.Some? ==> r.offerId == p.offerId.value
    ensures p.offerId.None? ==> r.offerId == t.offerId
    ensures p.buyerId.Some? ==> r.buyerId == p.buyerId.value
    ensures p.buyerId.None? ==> r.buyerId == t.buyerId
    ensures p.sellerId.Some? ==> r.sellerId == p.sellerId.value
    ensures p.sellerId.None? ==> r.sellerId == t.sellerId
    ensures p.amount.Some? ==> r.amount == p.amount.value
    ensures p.amount.None? ==> r.amount == t.amount
    ensures p.currency.Some? ==> r.currency == p.currency.value
    ensures p.currency.None? ==> r.currency == t.currency
    ensures p.status.Some? ==> r.status == p.status.value
    ensures p.status.None? ==> r.status == t.status
    ensures p.createdAt.Some? ==> r.createdAt == p.createdAt.value
    ensures p.createdAt.None? ==> r.createdAt == t.createdAt
    ensures p.completedAt.Some? ==> r.completedAt == p.completedAt
    ensures p.completedAt.None? ==> r.completedAt == t.completedAt
    ensures p.disputeReason.Some? ==> r.disputeReason == p.disputeReason
    ensures p.disputeReason.None? ==> r.disputeReason == t.disputeReason
  {
    P2PTransaction(t.id, p.offerId.GetOr(t.offerId), p.buyerId.GetOr(t.buyerId), p.sellerId.GetOr(t.sellerId),
                   p.amount.GetOr(t.amount), p.currency.GetOr(t.currency), p.status.GetOr(t.status),
                   p.createdAt.GetOr(t.createdAt),
                   if p.completedAt.Some? then p.completedAt else t.completedAt,
                   if p.disputeReason.Some? then p.disputeReason else t.disputeReason)
  }

  function PatchOffer(o: P2POffer, p: OfferPatch): (r: P2POffer)
    ensures r.id == o.id
    ensures p.userId.Some? ==> r.userId == p.userId.value
    ensures p.userId.None? ==> r.userId == o.userId
    ensures p.amount.Some? ==> r.amount == p.amount.value
    ensures p.amount.None? ==> r.amount == o.amount
    ensures p.currency.Some? ==> r.currency == p.currency.value
    ensures p.currency.None? ==> r.currency == o.currency
    ensures p.price.Some? ==> r.price == p.price.value
    ensures p.price.None? ==> r.price == o.price
    ensures p.paymentMethod.Some? ==> r.paymentMethod == p.paymentMethod.value
    ensures p.paymentMethod.None? ==> r.paymentMethod == o.paymentMethod
    ensures p.status.Some? ==> r.status == p.status.value
    ensures p.status.None? ==> r.status == o.status
    ensures p.createdAt.Some? ==> r.createdAt == p.createdAt.value
    ensures p.createdAt.None? ==> r.createdAt == o.createdAt
    ensures p.expiresAt.Some? ==> r.expiresAt == p.expiresAt
    ensures p.expiresAt.None? ==> r.expiresAt == o.expiresAt
  {
    P2POffer(o.id, p.userId.GetOr(o.userId), p.amount.GetOr(o.amount), p.currency.GetOr(o.currency),
             p.price.GetOr(o.price), p.paymentMethod.GetOr(o.paymentMethod), p.status.GetOr(o.status),
             p.createdAt.GetOr(o.createdAt), if p.expiresAt.Some? then p.expiresAt else o.expiresAt)
  }

  function PatchVerification(v: P2PPaymentVerification, p: VerificationPatch): (r: P2PPaymentVerification)
    ensures r.id == v.id
    ensures p.transactionId.Some? ==> r.transactionId == p.transactionId.value
    ensures p.transactionId.None? ==> r.transactionId == v.transactionId
    ensures p.userId.Some? ==> r.userId == p.userId.value
    ensures p.userId.None? ==> r.userId == v.userId
    ensures p.status.Some? ==> r.status == p.status.value
    ensures p.status.None? ==> r.status == v.status
    ensures p.proof.Some? ==> r.proof == p.proof.value
    ensures p.proof.None? ==> r.proof == v.proof
    ensures p.notes.Some? ==> r.notes == p.notes
    ensures p.notes.None? ==> r.notes == v.notes
    ensures p.createdAt.Some? ==> r.createdAt == p.createdAt.value
    ensures p.createdAt.None? ==> r.createdAt == v.createdAt
    ensures p.verifiedAt.Some? ==> r.verifiedAt == p.verifiedAt
    ensures p.verifiedAt.None? ==> r.verifiedAt == v.verifiedAt
  {
    P2PPaymentVerification(v.id, p.transactionId.GetOr(v.transactionId), p.userId.GetOr(v.userId),
                           p.status.GetOr(v.status), p.proof.GetOr(v.proof),
                           if p.notes.Some? then p.notes else v.notes, p.createdAt.GetOr(v.createdAt),
                           if p.verifiedAt.Some? then p.verifiedAt else v.verifiedAt)
  }

  /** `{ status }` on a transaction changes its status and nothing else. */
  lemma TransactionStatusPatch(t: P2PTransaction, s: TransactionStatus)
    ensures PatchTransaction(t, EmptyTransactionPatch.(status := Some(s))) == t.(status := s)
  {
  }

  /** `{ status: 'disputed', disputeReason }` changes those two fields and nothing else. */
  lemma TransactionDisputePatch(t: P2PTransaction, reason: string)
    ensures PatchTransaction(t, EmptyTransactionPatch.(status := Some(TxDisputed), disputeReason := Some(reason)))
         == t.(status := TxDisputed, disputeReason := Some(reason))
  {
  }

  /** `{ status }` on a verification changes its status and nothing else; `verifiedAt` is not set. */
  lemma VerificationStatusPatch(v: P2PPaymentVerification, s: VerificationStatus)
    ensures PatchVerification(v, VerificationPatch(None, None, Some(s), None, None, None, None)) == v.(status := s)
  {
  }

  ghost predicate TransactionsKeyed(m: map<string, P2PTransaction>) {
    forall id | id in m :: m[id].id == id
  }

  ghost predicate OffersKeyed(m: map<string, P2POffer>) {
    forall id | id in m :: m[id].id == id
  }

  ghost predicate VerificationsKeyed(m: map<string, P2PPaymentVerification>) {
    forall id | id in m :: m[id].id == id
  }

  /** Storing a new transaction that names a user adds it to that user's transactions,
      whichever side of the trade the user is on. */
  lemma NewTransactionIsTheUsers(m: map<string, P2PTransaction>, t: P2PTransaction, userId: string)
    requires TransactionsKeyed(m) && t.id !in m
    requires t.buyerId == userId || t.sellerId == userId
    ensures TransactionsKeyed(m[t.id := t])
    ensures TransactionsOfUser(m[t.id := t], userId) == TransactionsOfUser(m, userId) + {t}
  {
    var after := m[t.id := t];
    assert TransactionsKeyed(after);
    forall x ensures x in TransactionsOfUser(after, userId) <==> x in TransactionsOfUser(m, userId) + {t} {
      if x.id == t.id {
        assert x in TransactionsOfUser(m, userId) ==> false;
      }
    }
  }

  function TransactionsWithStatus(m: map<string, P2PTransaction>, status: TransactionStatus): (r: set<P2PTransaction>)
    requires TransactionsKeyed(m)
    ensures forall t :: t in r <==> t.id in m && m[t.id] == t && t.status == status
  {
    set id | id in m && m[id].status == status :: m[id]
  }

  /** `$or: [{ buyerId: userId }, { sellerId: userId }]`. */
  function TransactionsOfUser(m: map<string, P2PTransaction>, userId: string): (r: set<P2PTransaction>)
    requires TransactionsKeyed(m)
    ensures forall t :: t in r <==> t.id in m && m[t.id] == t && (t.buyerId == userId || t.sellerId == userId)
  {
    set id | id in m && (m[id].buyerId == userId || m[id].sellerId == userId) :: m[id]
  }

  function OffersWithStatus(m: map<string, P2POffer>, status: OfferStatus): (r: set<P2POffer>)
    requires OffersKeyed(m)
    ensures forall o :: o in r <==> o.id in m && m[o.id] == o && o.status == status
  {
    set id | id in m && m[id].status == status :: m[id]
  }

  function OffersOfUser(m: map<string, P2POffer>, userId: string): (r: set<P2POffer>)
    requires OffersKeyed(m)
    ensures forall o :: o in r <==> o.id in m && m[o.id] == o && o.userId == userId
  {
    set id | id in m && m[id].userId == userId :: m[id]
  }

  function VerificationsOfTransaction(m: map<string, P2PPaymentVerification>, transactionId: string): (r: set<P2PPaymentVerification>)
    requires VerificationsKeyed(m)
    ensures forall v :: v in r <==> v.id in m && m[v.id] == v && v.transactionId == transactionId
  {
    set id | id in m && m[id].transactionId == transactionId :: m[id]
  }

  class LocalRxdbDatabase {
    var transactions: map<string, P2PTransaction>
    var offers: map<string, P2POffer>
    var verifications: map<string, P2PPaymentVerification>

    ghost predicate Valid()
      reads this
    {
      TransactionsKeyed(transactions) && OffersKeyed(offers) && VerificationsKeyed(verifications)
    }

    constructor ()
      ensures Valid() && transactions == map[] && offers == map[] && verifications == map[]
    {
      transactions := map[];
      offers := map[];
      verifications := map[];
    }

    method CreateP2PTransaction(t: P2PTransaction, io: Io) returns (r: Result<P2PTransaction, StoreError>)
      requires Valid()
      modifies this
      ensures Valid() && offers == old(offers) && verifications == old(verifications)
      ensures r == if io == Throws then Failure(StorageFailure)
                   else if t.id in old(transactions) then Failure(Conflict)
                   else Success(t)
      ensures transactions == if r.Success? then old(transactions)[t.id := t] else old(transactions)
    {
      if io == Throws {
        return Failure(StorageFailure);
      }
      if t.id in transactions {
        return Failure(Conflict);
      }
      transactions := transactions[t.id := t];
      r := Success(t);
    }

    /** `getP2PTransaction`: null only when no transaction has the id; a storage error is rethrown. */
    function GetP2PTransaction(id: string, io: Io): (r: Result<Option<P2PTransaction>, StoreError>)
      reads this
      requires Valid()
      ensures r.Failure? <==> io == Throws
      ensures r.Failure? ==> r.error == StorageFailure
      ensures r.Success? ==> (r.value.Some? <==> id in transactions)
      ensures r.Success? && r.value.Some? ==> r.value.value == transactions[id] && r.value.value.id == id
    {
      if io == Throws then Failure(StorageFailure)
      else if id in transactions then Success(Some(transactions[id])) else Success(None)
    }

    /** `updateP2PTransaction`: null with no change for an absent id; otherwise only the given fields change. */
    method UpdateP2PTransaction(id: string, updates: TransactionPatch, io: Io) returns (r: Result<Option<P2PTransaction>, StoreError>)
      requires Valid()
      modifies this
      ensures Valid() && offers == old(offers) && verifications == old(verifications)
      ensures r.Failure? <==> io == Throws
      ensures r.Failure? ==> r.error == StorageFailure
      ensures r.Success? ==> (r.value.Some? <==> id in old(transactions))
      ensures r.Success? && r.value.Some? ==>
        r.value.value == PatchTransaction(old(transactions)[id], updates) && transactions == old(transactions)[id := r.value.value]
      ensures !(r.Success? && r.value.Some?) ==> transactions == old(transactions)
    {
      if io == Throws {
        return Failure(StorageFailure);
      }
      if id !in transactions {
        return Success(None);
      }
      var updated := PatchTransaction(transactions[id], updates);
      transactions := transactions[id := updated];
      r := Success(Some(updated));
    }

    function GetP2PTransactionsByStatus(status: TransactionStatus, io: Io): (r: Result<set<P2PTransaction>, StoreError>)
      reads this
      requires Valid()
      ensures r.Failure? <==> io == Throws
      ensures r.Failure? ==> r.error == StorageFailure
      ensures r.Success? ==> forall t :: t in r.value <==> t.id in transactions && transactions[t.id] == t && t.status == status
    {
      if io == Throws then Failure(StorageFailure) else Success(TransactionsWithStatus(transactions, status))
    }

    function GetP2PTransactionsByUser(userId: string, io: Io): (r: Result<set<P2PTransaction>, StoreError>)
      reads this
      requires Valid()
      ensures r.Failure? <==> io == Throws
      ensures r.Failure? ==> r.error == StorageFailure
      ensures r.Success? ==> forall t :: t in r.value <==>
        t.id in transactions && transactions[t.id] == t && (t.buyerId == userId || t.sellerId == userId)
    {
      if io == Throws then Failure(StorageFailure) else Success(TransactionsOfUser(transactions, userId))
    }

    method CreateP2POffer(o: P2POffer, io: Io) returns (r: Result<P2POffer, StoreError>)
      requires Valid()
      modifies this
      ensures Valid() && transactions == old(transactions) && verifications == old(verifications)
      ensures r == if io == Throws then Failure(StorageFailure)
                   else if o.id in old(offers) then Failure(Conflict)
                   else Success(o)
      ensures offers == if r.Success? then old(offers)[o.id := o] else old(offers)
    {
      if io == Throws {
        return Failure(StorageFailure);
      }
      if o.id in offers {
        return Failure(Conflict);
      }
      offers := offers[o.id := o];
      r := Success(o);
    }

    function GetP2POffer(id: string, io: Io): (r: Result<Option<P2POffer>, StoreError>)
      reads this
      requires Valid()
      ensures r.Failure? <==> io == Throws
      ensures r.Failure? ==> r.error == StorageFailure
      ensures r.Success? ==> (r.value.Some? <==> id in offers)
      ensures r.Success? && r.value.Some? ==> r.value.value == offers[id] && r.value.value.id == id
    {
      if io == Throws then Failure(StorageFailure)
      else if id in offers then Success(Some(offers[id])) else Success(None)
    }

    method UpdateP2POffer(id: string, updates: OfferPatch, io: Io) returns (r: Result<Option<P2POffer>, StoreError>)
      requires Valid()
      modifies this
      ensures Valid() && transactions == old(transactions) && verifications == old(verifications)
      ensures r.Failure? <==> io == Throws
      ensures r.Failure? ==> r.error == StorageFailure
      ensures r.Success? ==> (r.value.Some? <==> id in old(offers))
      ensures r.Success? && r.value.Some? ==>
        r.value.value == PatchOffer(old(offers)[id], updates) && offers == old(offers)[id := r.value.value]
      ensures !(r.Success? && r.value.Some?) ==> offers == old(offers)
    {
      if io == Throws {
        return Failure(StorageFailure);
      }
      if id !in offers {
        return Success(None);
      }
      var updated := PatchOffer(offers[id], updates);
      offers := offers[id := updated];
      r := Success(Some(updated));
    }

    function GetActiveP2POffers(io: Io): (r: Result<set<P2POffer>, StoreError>)
      reads this
      requires Valid()
      ensures r.Failure? <==> io == Throws
      ensures r.Failure? ==> r.error == StorageFailure
      ensures r.Success? ==> forall o :: o in r.value <==> o.id in offers && offers[o.id] == o && o.status == OfferActive
    {
      if io == Throws then Failure(StorageFailure) else Success(OffersWithStatus(offers, OfferActive))
    }

    function GetP2POffersByUser(userId: string, io: Io): (r: Result<set<P2POffer>, StoreError>)
      reads this
      requires Valid()
      ensures r.Failure? <==> io == Throws
      ensures r.Failure? ==> r.error == StorageFailure
      ensures r.Success? ==> forall o :: o in r.value <==> o.id in offers && offers[o.id] == o && o.userId == userId
    {
      if io == Throws then Failure(StorageFailure) else Success(OffersOfUser(offers, userId))
    }

    method CreateP2PPaymentVerification(v: P2PPaymentVerification, io: Io) returns (r: Result<P2PPaymentVerification, StoreError>)
      requires Valid()
      modifies this
      ensures Valid() && transactions == old(transactions) && offers == old(offers)
      ensures r == if io == Throws then Failure(StorageFailure)
                   else if v.id in old(verifications) then Failure(Conflict)
                   else Success(v)
      ensures verifications == if r.Success? then old(verifications)[v.id := v] else old(verifications)
    {
      if io == Throws {
        return Failure(StorageFailure);
      }
      if v.id in verifications {
        return Failure(Conflict);
      }
      verifications := verifications[v.id := v];
      r := Success(v);
    }

    function GetP2PPaymentVerification(id: string, io: Io): (r: Result<Option<P2PPaymentVerification>, StoreError>)
      reads this
      requires Valid()
      ensures r.Failure? <==> io == Throws
      ensures r.Failure? ==> r.error == StorageFailure
      ensures r.Success? ==> (r.value.Some? <==> id in verifications)
      ensures r.Success? && r.value.Some? ==> r.value.value == verifications[id] && r.value.value.id == id
    {
      if io == Throws then Failure(StorageFailure)
      else if id in verifications then Success(Some(verifications[id])) else Success(None)
    }

    method UpdateP2PPaymentVerification(id: string, updates: VerificationPatch, io: Io) returns (r: Result<Option<P2PPaymentVerification>, StoreError>)
      requires Valid()
      modifies this
      ensures Valid() && transactions == old(transactions) && offers == old(offers)
      ensures r.Failure? <==> io == Throws
      ensures r.Failure? ==> r.error == StorageFailure
      ensures r.Success? ==> (r.value.Some? <==> id in old(verifications))
      ensures r.Success? && r.value.Some? ==>
        r.value.value == PatchVerification(old(verifications)[id], updates) && verifications == old(verifications)[id := r.value.value]
      ensures !(r.Success? && r.value.Some?) ==> verifications == old(verifications)
    {
      if io == Throws {
        return Failure(StorageFailure);
      }
      if id !in verifications {
        return Success(None);
      }
      var updated := PatchVerification(verifications[id], updates);
      verifications := verifications[id := updated];
      r := Success(Some(updated));
    }

    function GetP2PPaymentVerificationsByTransaction(transactionId: string, io: Io): (r: Result<set<P2PPaymentVerification>, StoreError>)
      reads this
      requires Valid()
      ensures r.Failure? <==> io == Throws
      ensures r.Failure? ==> r.error == StorageFailure
      ensures r.Success? ==> forall v :: v in r.value <==>
        v.id in verifications && verifications[v.id] == v && v.transactionId == transactionId
    {
      if io == Throws then Failure(StorageFailure) else Success(VerificationsOfTransaction(verifications, transactionId))
    }
  }
}
