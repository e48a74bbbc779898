/** The transaction / offer / verification records used by the offer-based P2P service
    (src/types/p2p.ts; frontend/types/p2p.ts repeats the same declarations). Timestamps are
    ISO strings in these records, so they stay `string`. */
module LegacyTypes {
  import opened Wrappers

  type Number = real

  datatype TransactionStatus = TxPending | TxCompleted | TxDisputed | TxCancelled {
    function Name(): string {
      match this
      case TxPending => "pending"
      case TxCompleted => "completed"
      case TxDisputed => "disputed"
      case TxCancelled => "cancelled"
    }
  }

  datatype OfferStatus = OfferActive | OfferInactive | OfferCompleted {
    function Name(): string {
      match this
      case OfferActive => "active"
      case OfferInactive => "inactive"
      case OfferCompleted => "completed"
    }
  }

  datatype VerificationStatus = VerPending | VerVerified | VerRejected {
    function Name(): string {
      match this
      case VerPending => "pending"
      case VerVerified => "verified"
      case VerRejected => "rejected"
    }
  }

  /** `P2PTransaction`: `completedAt` and `disputeReason` are optional. */
  datatype P2PTransaction = P2PTransaction(
    id: string,
    offerId: string,
    buyerId: string,
    sellerId: string,
    amount: Number,
    currency: string,
    status: TransactionStatus,
    createdAt: string,
    completedAt: Option<string>,
    disputeReason: Option<string>)

  /** `P2POffer`: `expiresAt` is optional. */
  datatype P2POffer = P2POffer(
    id: string,
    userId: string,
    amount: Number,
    currency: string,
    price: Number,
    paymentMethod: string,
    status: OfferStatus,
    createdAt: string,
    expiresAt: Option<string>)

  /** `P2PPaymentVerification`: `notes` and `verifiedAt` are optional, `proof` is required. */
  datatype P2PPaymentVerification = P2PPaymentVerification(
    id: string,
    transactionId: string,
    userId: string,
    status: VerificationStatus,
    proof: string,
    notes: Option<string>,
    createdAt: string,
    verifiedAt: Option<string>)

  const AllTransactionStatuses: seq<TransactionStatus> := [TxPending, TxCompleted, TxDisputed, TxCancelled]
  const AllOfferStatuses: seq<OfferStatus> := [OfferActive, OfferInactive, OfferCompleted]

  /** Four transaction statuses and three offer statuses, each with its own literal. */
  lemma StatusVocabularies()
    ensures |AllTransactionStatuses| == 4 && forall s: TransactionStatus :: s in AllTransactionStatuses
    ensures |AllOfferStatuses| == 3 && forall s: OfferStatus :: s in AllOfferStatuses
    ensures forall s, t: TransactionStatus :: s != t ==> s.Name() != t.Name()
    ensures forall s, t: OfferStatus :: s != t ==> s.Name() != t.Name()
  {
    forall s: TransactionStatus ensures s in AllTransactionStatuses {
      match s
      case TxPending => assert AllTransactionStatuses[0] == s;
      case TxCompleted => assert AllTransactionStatuses[1] == s;
      case TxDisputed => assert AllTransactionStatuses[2] == s;
      case TxCancelled => assert AllTransactionStatuses[3] == s;
    }
    forall s: OfferStatus ensures s in AllOfferStatuses {
      match s
      case OfferActive => assert AllOfferStatuses[0] == s;
      case OfferInactive => assert AllOfferStatuses[1] == s;
      case OfferCompleted => assert AllOfferStatuses[2] == s;
    }
  }
}
