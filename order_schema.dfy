/** The RxDB JSON schemas of frontend/database/schemas/p2p.ts, as validity predicates over
    documents. A document field is `None` when the property is absent. Property types
    (`type: 'string'`, `type: 'number'`, `type: 'object'`) are fixed by the Dafny types of
    the document; the predicates check what is left: required properties, `enum`
    membership and `maxLength`. A `date-time` property holds the instant its string denotes. */
module OrderSchema {
  import opened Wrappers
  import opened OrderTypes

  const MaxKeyLength: nat := 100
  const MaxProofLength: nat := 1000

  const OrderStatusEnum: seq<string> := ["open", "pending", "completed", "disputed", "cancelled"]
  const PaymentTypeEnum: seq<string> := ["bank", "gcash", "maya", "coins.ph"]
  const VerificationStatusEnum: seq<string> := ["pending", "verified", "rejected"]

  datatype DetailsDoc = DetailsDoc(
    accountNumber: Option<string>,
    accountName: Option<string>,
    bankName: Option<string>,
    walletAddress: Option<string>)

  datatype PaymentMethodDoc = PaymentMethodDoc(
    id: Option<string>,
    name: Option<string>,
    kind: Option<string>,
    details: Option<DetailsDoc>)

  datatype OrderDoc = OrderDoc(
    id: Option<string>,
    sellerId: Option<string>,
    amount: Option<Number>,
    price: Option<Number>,
    status: Option<string>,
    createdAt: Option<Millis>,
    expiresAt: Option<Millis>,
    paymentMethod: Option<PaymentMethodDoc>,
    escrowId: Option<string>)

  datatype VerificationDoc = VerificationDoc(
    orderId: Option<string>,
    status: Option<string>,
    proof: Option<string>,
    verifiedAt: Option<Millis>,
    verifiedBy: Option<string>)

  /** `maxLength: n` on an optional property. */
  predicate WithinLength(v: Option<string>, n: nat) {
    v.None? || |v.value| <= n
  }

  /** `enum: e` on an optional property. */
  predicate InEnum(v: Option<string>, e: seq<string>) {
    v.None? || v.value in e
  }

  /** The nested `paymentMethod` object: only `type` is constrained, nothing is required. */
  predicate ValidPaymentMethodDoc(p: PaymentMethodDoc) {
    InEnum(p.kind, PaymentTypeEnum)
  }

  /** `orderSchema`. */
  predicate ValidOrderDoc(d: OrderDoc) {
    && d.id.Some? && d.sellerId.Some? && d.amount.Some? && d.price.Some?
    && d.status.Some? && d.createdAt.Some? && d.expiresAt.Some? && d.paymentMethod.Some?
    && WithinLength(d.id, MaxKeyLength)
    && WithinLength(d.sellerId, MaxKeyLength)
    && WithinLength(d.escrowId, MaxKeyLength)
    && InEnum(d.status, OrderStatusEnum)
    && ValidPaymentMethodDoc(d.paymentMethod.value)
  }

  /** `paymentVerificationSchema`. */
  predicate ValidVerificationDoc(d: VerificationDoc) {
    && d.orderId.Some? && d.status.Some?
    && WithinLength(d.orderId, MaxKeyLength)
    && InEnum(d.status, VerificationStatusEnum)
    && WithinLength(d.proof, MaxProofLength)
    && WithinLength(d.verifiedBy, MaxKeyLength)
  }

  /** The document an `Order` value is stored as. */
  function OrderDocOf(o: Order): OrderDoc {
    var pm := o.paymentMethod;
    var dt := pm.details;
    OrderDoc(Some(o.id), Some(o.sellerId), Some(o.amount), Some(o.price), Some(o.status.Name()),
             Some(o.createdAt), Some(o.expiresAt),
             Some(PaymentMethodDoc(Some(pm.id), Some(pm.name), Some(pm.kind.Name()),
                                   Some(DetailsDoc(dt.accountNumber, dt.accountName, dt.bankName, dt.walletAddress)))),
             o.escrowId)
  }

  /** The document a `PaymentVerification` value is stored as. */
  function VerificationDocOf(v: PaymentVerification): VerificationDoc {
    VerificationDoc(Some(v.orderId), Some(v.status.Name()), v.proof, v.verifiedAt, v.verifiedBy)
  }

  /** The statuses of the `OrderStatus` type that the schema's enum admits. */
  predicate SchemaAdmits(s: OrderStatus) {
    s == Open || s == Completed || s == Disputed || s == Cancelled
  }

  /** A status passes the schema's enum exactly when it is one of open, completed, disputed,
      cancelled: the other seven statuses of the type are rejected. */
  lemma StatusEnumMembership(s: OrderStatus)
    ensures s.Name() in OrderStatusEnum <==> SchemaAdmits(s)
  {
    match s
    case Open => assert OrderStatusEnum[0] == s.Name();
    case Completed => assert OrderStatusEnum[2] == s.Name();
    case Disputed => assert OrderStatusEnum[3] == s.Name();
    case Cancelled => assert OrderStatusEnum[4] == s.Name();
    case _ =>
  }

  /** The schema and the type disagree both ways: the schema's "pending" is no `OrderStatus`,
      and "escrow_locked" and "payment_pending", which the type declares, are not in the enum
      (the P2P page writes "payment_pending"). */
  lemma VocabulariesDisagree()
    ensures "pending" in OrderStatusEnum
    ensures forall s: OrderStatus :: s.Name() != "pending"
    ensures EscrowLocked.Name() !in OrderStatusEnum && PaymentPending.Name() !in OrderStatusEnum
  {
    assert OrderStatusEnum[1] == "pending";
    StatusEnumMembership(EscrowLocked);
    StatusEnumMembership(PaymentPending);
  }

  /** Every payment kind of the type passes the schema's `type` enum. */
  lemma PaymentKindsAdmitted(k: PaymentKind)
    ensures k.Name() in PaymentTypeEnum
  {
    match k
    case Bank => assert PaymentTypeEnum[0] == k.Name();
    case GCash => assert PaymentTypeEnum[1] == k.Name();
    case Maya => assert PaymentTypeEnum[2] == k.Name();
    case CoinsPh => assert PaymentTypeEnum[3] == k.Name();
  }

  /** A typed order is a valid document exactly when its status is one the schema admits
      and its id, seller id and escrow id fit in 100 characters. */
  lemma OrderDocValidity(o: Order)
    ensures ValidOrderDoc(OrderDocOf(o)) <==>
      && SchemaAdmits(o.status)
      && |o.id| <= MaxKeyLength
      && |o.sellerId| <= MaxKeyLength
      && (o.escrowId.Some? ==> |o.escrowId.value| <= MaxKeyLength)
  {
    StatusEnumMembership(o.status);
    PaymentKindsAdmitted(o.paymentMethod.kind);
  }

  /** Each required property of an order document is needed: dropping it makes any document invalid. */
  lemma OrderRequiredProperties(d: OrderDoc)
    requires ValidOrderDoc(d)
    ensures !ValidOrderDoc(d.(id := None)) && !ValidOrderDoc(d.(sellerId := None))
    ensures !ValidOrderDoc(d.(amount := None)) && !ValidOrderDoc(d.(price := None))
    ensures !ValidOrderDoc(d.(status := None)) && !ValidOrderDoc(d.(createdAt := None))
    ensures !ValidOrderDoc(d.(expiresAt := None)) && !ValidOrderDoc(d.(paymentMethod := None))
    ensures ValidOrderDoc(d.(escrowId := None))
  {
  }

  /** A typed verification is a valid document exactly when its order id and verifier fit in
      100 characters and its proof in 1000; all three statuses are admitted. */
  lemma VerificationDocValidity(v: PaymentVerification)
    ensures ValidVerificationDoc(VerificationDocOf(v)) <==>
      && |v.orderId| <= MaxKeyLength
      && (v.proof.Some? ==> |v.proof.value| <= MaxProofLength)
      && (v.verifiedBy.Some? ==> |v.verifiedBy.value| <= MaxKeyLength)
  {
    match v.status
    case Pending => assert VerificationStatusEnum[0] == v.status.Name();
    case Verified => assert VerificationStatusEnum[1] == v.status.Name();
    case Rejected => assert VerificationStatusEnum[2] == v.status.Name();
  }

  /** Of a verification document only `orderId` and `status` are required. */
  lemma VerificationRequiredProperties(d: VerificationDoc)
    requires ValidVerificationDoc(d)
    ensures !ValidVerificationDoc(d.(orderId := None)) && !ValidVerificationDoc(d.(status := None))
    ensures ValidVerificationDoc(d.(proof := None, verifiedAt := None, verifiedBy := None))
  {
  }
}
