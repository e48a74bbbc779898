/** The order, escrow and payment-verification records of the frontend P2P layer
    (frontend/types/p2p.ts). A TypeScript `Date` is a count of milliseconds since the
    epoch, and a `number` is a real (nothing in the P2P layer computes on amounts or prices). */
module OrderTypes {
  import opened Wrappers

  type Millis = int
  type Number = real

  /** `OrderStatus`: the eleven string literals of the type, in declaration order. */
  datatype OrderStatus =
    | Open | EscrowPending | EscrowLocked | PaymentPending | PaymentSubmitted
    | PaymentVerified | Completed | Cancelled | Disputed | Refunded | Expired
  {
    /** The string literal that the TypeScript type uses for this status. */
    function Name(): string {
      match this
      case Open => "open"
      case EscrowPending => "escrow_pending"
      case EscrowLocked => "escrow_locked"
      case PaymentPending => "payment_pending"
      case PaymentSubmitted => "payment_submitted"
      case PaymentVerified => "payment_verified"
      case Completed => "completed"
      case Cancelled => "cancelled"
      case Disputed => "disputed"
      case Refunded => "refunded"
      case Expired => "expired"
    }
  }

  const AllOrderStatuses: seq<OrderStatus> :=
    [Open, EscrowPending, EscrowLocked, PaymentPending, PaymentSubmitted,
     PaymentVerified, Completed, Cancelled, Disputed, OrderStatus.Refunded, Expired]

  /** `PaymentMethod.type`. */
  datatype PaymentKind = Bank | GCash | Maya | CoinsPh {
    function Name(): string {
      match this
      case Bank => "bank"
      case GCash => "gcash"
      case Maya => "maya"
      case CoinsPh => "coins.ph"
    }
  }

  /** `PaymentMethod.details`: every field is optional. */
  datatype PaymentDetails = PaymentDetails(
    accountNumber: Option<string>,
    accountName: Option<string>,
    bankName: Option<string>,
    walletAddress: Option<string>)

  const NoDetails := PaymentDetails(None, None, None, None)

  datatype PaymentMethod = PaymentMethod(id: string, name: string, kind: PaymentKind, details: PaymentDetails)

  /** `Order`: every field is required except `escrowId`. */
  datatype Order = Order(
    id: string,
    sellerId: string,
    amount: Number,
    price: Number,
    status: OrderStatus,
    createdAt: Millis,
    expiresAt: Millis,
    paymentMethod: PaymentMethod,
    escrowId: Option<string>)

  datatype EscrowStatus = Locked | Released | Refunded {
    function Name(): string {
      match this
      case Locked => "locked"
      case Released => "released"
      case Refunded => "refunded"
    }
  }

  datatype Escrow = Escrow(
    id: string,
    orderId: string,
    amount: Number,
    status: EscrowStatus,
    lockedAt: Millis,
    expiresAt: Millis)

  datatype VerificationStatus = Pending | Verified | Rejected {
    function Name(): string {
      match this
      case Pending => "pending"
      case Verified => "verified"
      case Rejected => "rejected"
    }
  }

  /** `PaymentVerification` has no id of its own: it is identified by `orderId`. */
  datatype PaymentVerification = PaymentVerification(
    orderId: string,
    status: VerificationStatus,
    proof: Option<string>,
    verifiedAt: Option<Millis>,
    verifiedBy: Option<string>)

  /** The eleven statuses are listed once each, and every status is listed. */
  lemma OrderStatusesAreEleven()
    ensures |AllOrderStatuses| == 11
    ensures forall s: OrderStatus :: s in AllOrderStatuses
    ensures forall i, j :: 0 <= i < j < |AllOrderStatuses| ==> AllOrderStatuses[i] != AllOrderStatuses[j]
  {
    forall s: OrderStatus ensures s in AllOrderStatuses {
      match s
      case Open => assert AllOrderStatuses[0] == s;
      case EscrowPending => assert AllOrderStatuses[1] == s;
      case EscrowLocked => assert AllOrderStatuses[2] == s;
      case PaymentPending => assert AllOrderStatuses[3] == s;
      case PaymentSubmitted => assert AllOrderStatuses[4] == s;
      case PaymentVerified => assert AllOrderStatuses[5] == s;
      case Completed => assert AllOrderStatuses[6] == s;
      case Cancelled => assert AllOrderStatuses[7] == s;
      case Disputed => assert AllOrderStatuses[8] == s;
      case Refunded => assert AllOrderStatuses[9] == s;
      case Expired => assert AllOrderStatuses[10] == s;
    }
  }

  /** Different statuses have different string literals, and none of them is "pending":
      the word that the TopUpModal caller and the order schema use is not an `OrderStatus`. */
  lemma OrderStatusNames()
    ensures forall s, t: OrderStatus :: s != t ==> s.Name() != t.Name()
    ensures forall s: OrderStatus :: s.Name() != "pending"
  {
  }

  lemma PaymentKindNamesDistinct()
    ensures forall k, l: PaymentKind :: k != l ==> k.Name() != l.Name()
  {
  }
}
