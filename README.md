# P2P order, escrow and payment-verification layer of the waste2earn wallet, in Dafny

This project models the peer-to-peer exchange layer of the wallet's browser client:

- the P2P records (orders, escrows, payment verifications and the older offer/transaction records);
- the two document stores that keep those records;
- the three service classes that create records and move their statuses;
- the RxDB schema for orders and verifications;
- the `common` Redux slice;
- the function that picks the database backend.

The model follows the code as written. There is no transition table anywhere:
- any status can be written over any other;
- `verifyPayment` and `disputeOrder` never read the current status;
- the escrow "lock" builds a record and stores nothing.

The only time constant is the flat 24-hour window.

Layout, one module per source file:

| module | file | source |
|---|---|---|
| `Wrappers` | wrappers.dfy | `T \| null` and thrown errors (`Option`, `Result`) |
| `OrderTypes` | order_types.dfy | frontend/types/p2p.ts:1-53 |
| `LegacyTypes` | legacy_types.dfy | src/types/p2p.ts (frontend/types/p2p.ts:55-95 repeats these declarations) |
| `OrderSchema` | order_schema.dfy | frontend/database/schemas/p2p.ts |
| `LocalRxdb` | local_rxdb.dfy | frontend/database/local-rxdb.ts, P2P part and the two storable projections |
| `LegacyRxdb` | legacy_rxdb.dfy | src/services/database/LocalRxdbDatabase.ts |
| `P2PSingleton` | p2p_singleton.dfy | frontend/services/p2p.ts |
| `P2PInjected` | p2p_injected.dfy | frontend/services/p2p/P2PService.ts |
| `P2PLegacy` | p2p_legacy.dfy | src/services/p2p/P2PService.ts |
| `CommonReducer` | common_reducer.dfy | frontend/redux/common/CommonReducer.ts |
| `DbSelector` | db_selector.dfy | frontend/database/db.ts |

How the model is built:
- **Stores.** Each store is a class whose fields are maps keyed by primary key:
  - frontend store: orders by `id`, verifications by `orderId`;
  - legacy store: transactions, offers and verifications by `id`.
- **Store invariant.** `Valid()` says every record is stored under its own key. Every method keeps it.
- **Queries.** Queries are functions that read the store.
- **Writes.** Inserts and patches are methods whose `ensures` give the whole new store.
- **Services.** Each service is a class holding its store.
- **Parameters.** These are parameters of the service and store members:
  - ids (`Math.random`, `uuidv4`);
  - the clock (`new Date()`, `Date.now()`, `toISOString()`);
  - the outcome of every storage call: `Io`.
- **Frontend storage outcomes.** `Io` has three values:
  - `Done`;
  - `NoCollection`: the collection getter yields null, so the `?.` chain skips the call;
  - `Throws`: the storage call throws.
- **Legacy storage outcomes.** `Io` has two values: `Done` and `Throws`.
- **Insert conflicts.** Inserting a key that is already stored is a conflict, and RxDB throws it.
- **Frontend error handling.** The frontend store rethrows insert failures. Its reads and patches turn every failure into `null` or an empty result.
- **Legacy error handling.** The legacy store rethrows everything, as `Failure(StorageFailure)`.

## Model

| member | source | states |
|---|---|---|
| `OrderTypes.OrderStatusesAreEleven` | frontend/types/p2p.ts:13-24 | `OrderStatus` has exactly eleven values, listed once each, from open to expired |
| `OrderTypes.OrderStatusNames` | frontend/types/p2p.ts:13-24 | the eleven literals are distinct, and none of them is "pending" |
| `OrderTypes.PaymentKindNamesDistinct` | frontend/types/p2p.ts:29 | the four payment kinds bank, gcash, maya, coins.ph have distinct literals |
| `LegacyTypes.StatusVocabularies` | src/types/p2p.ts:1-3 | a transaction status is one of four values and an offer status one of three, each with its own literal |
| `OrderSchema.ValidOrderDoc` | frontend/database/schemas/p2p.ts:4-61 | `orderSchema`: the eight required properties id, sellerId, amount, price, status, createdAt, expiresAt and paymentMethod are present. id, sellerId and escrowId have at most 100 characters. status is one of the five enum values, and `paymentMethod.type` is one of the four enum values |
| `OrderSchema.ValidVerificationDoc` | frontend/database/schemas/p2p.ts:63-90 | `paymentVerificationSchema`: orderId and status are present. orderId and verifiedBy have at most 100 characters and proof at most 1000. status is one of the three enum values |
| `OrderSchema.StatusEnumMembership` | frontend/database/schemas/p2p.ts:23-26 | an order status passes the schema's enum if and only if it is open, completed, disputed or cancelled |
| `OrderSchema.VocabulariesDisagree` | frontend/database/schemas/p2p.ts:23-26 | the schema admits "pending", which is no `OrderStatus`, and rejects "escrow_locked" and "payment_pending", which the type declares; the P2P page writes "payment_pending" |
| `OrderSchema.PaymentKindsAdmitted` | frontend/database/schemas/p2p.ts:40-43 | each payment kind of the type passes the schema's `type` enum |
| `OrderSchema.OrderDocValidity` | frontend/database/schemas/p2p.ts:4-61 | a typed order is a valid document if and only if its status is admitted and id, sellerId and escrowId have at most 100 characters |
| `OrderSchema.OrderRequiredProperties` | frontend/database/schemas/p2p.ts:60 | removing any of the eight required properties invalidates a valid order document; removing escrowId does not |
| `OrderSchema.VerificationDocValidity` | frontend/database/schemas/p2p.ts:63-90 | a typed verification is a valid document if and only if orderId and verifiedBy have at most 100 characters and proof at most 1000; all three statuses pass |
| `OrderSchema.VerificationRequiredProperties` | frontend/database/schemas/p2p.ts:89 | only orderId and status are required in a verification document |
| `LocalRxdb.PatchOrder` | frontend/database/local-rxdb.ts:636-642 | patching an order replaces each field the patch names and keeps every other field, the id included |
| `LocalRxdb.PatchVerification` | frontend/database/local-rxdb.ts:694-700 | patching a verification replaces exactly the named fields and keeps the orderId |
| `LocalRxdb.EmptyOrderPatchIsIdentity` | frontend/database/local-rxdb.ts:641 | an empty patch leaves the order unchanged |
| `LocalRxdb.PatchOrderIdempotent` | frontend/database/local-rxdb.ts:641 | applying an order patch twice gives the same order as applying it once |
| `LocalRxdb.PatchVerificationIdempotent` | frontend/database/local-rxdb.ts:699 | applying a verification patch twice gives the same verification as applying it once |
| `LocalRxdb.StatusPatchChangesOnlyStatus` | frontend/database/local-rxdb.ts:641 | a `{ status }` patch changes the status to the given value, whatever it was, and changes no other field |
| `LocalRxdb.StatusPatchChangesOnlyStatusAt` | frontend/database/local-rxdb.ts:636-642 | a status patch at one key of the order map leaves all other keys and fields as they were |
| `LocalRxdb.OrdersWithStatus` | frontend/database/local-rxdb.ts:649-654 | the result holds exactly the stored orders that have the given status |
| `LocalRxdb.OrdersOfSeller` | frontend/database/local-rxdb.ts:661-666 | the result holds exactly the stored orders whose sellerId is the user |
| `LocalRxdb.VerificationsOfOrder` | frontend/database/local-rxdb.ts:707-712 | verifications are keyed by orderId, so the result is the one verification stored under that key, or nothing, and never more than one |
| `LocalRxdb.InsertOpenOrder` | frontend/database/local-rxdb.ts:616-619 | storing a new open order adds exactly that order to the open orders |
| `LocalRxdb.StatusPatchMovesOrder` | frontend/database/local-rxdb.ts:636-654 | after a status patch, the order is found under its new status and under no other |
| `LocalRxdb.StorableAccounts` | frontend/database/local-rxdb.ts:369-373 | each account is kept, with the same count and order, and only its allowance is removed |
| `LocalRxdb.StorableContact` | frontend/database/local-rxdb.ts:366-375 | the other contact fields are unchanged; each account is the same account without its allowance |
| `LocalRxdb.StorableContactIdempotent` | frontend/database/local-rxdb.ts:366-375 | making a contact storable twice gives the same result as once |
| `LocalRxdb.StorableAllowance` | frontend/database/local-rxdb.ts:525-529 | the stored allowance keeps the input's id, asset, subAccountId and spender |
| `LocalRxdb.StorableAllowanceForgets` | frontend/database/local-rxdb.ts:525-529 | two allowances are stored alike if and only if they agree on id, asset, subAccountId and spender; amount and expiration are dropped |
| `LocalRxdb.LocalRxdbDatabase.constructor` | frontend/database/local-rxdb.ts:145-146 | a store whose order and verification collections are initialised and empty; it stands for the store after `init`, not for the private constructor, which leaves the collections null |
| `LocalRxdb.LocalRxdbDatabase.CreateOrder` | frontend/database/local-rxdb.ts:616-624 | inserts the order. A conflict or a storage error is rethrown with nothing stored. With no collection, it returns the input without storing it |
| `LocalRxdb.LocalRxdbDatabase.GetOrder` | frontend/database/local-rxdb.ts:626-634 | returns the stored order. Returns null both for an absent id and for a storage error |
| `LocalRxdb.LocalRxdbDatabase.UpdateOrder` | frontend/database/local-rxdb.ts:636-647 | returns null and changes nothing for an absent id or a storage error. Otherwise it stores and returns the patched order, and no other record changes |
| `LocalRxdb.LocalRxdbDatabase.GetOrdersByStatus` | frontend/database/local-rxdb.ts:649-659 | returns exactly the stored orders with that status. Returns empty on a storage error |
| `LocalRxdb.LocalRxdbDatabase.GetOrdersByUser` | frontend/database/local-rxdb.ts:661-671 | returns exactly the stored orders whose seller is the user. Returns empty on a storage error |
| `LocalRxdb.LocalRxdbDatabase.CreatePaymentVerification` | frontend/database/local-rxdb.ts:674-682 | inserts under orderId. A second verification for the same order is a conflict. Failures are rethrown |
| `LocalRxdb.LocalRxdbDatabase.GetPaymentVerification` | frontend/database/local-rxdb.ts:684-692 | looks the verification up by orderId. Returns null when it is absent or on a storage error |
| `LocalRxdb.LocalRxdbDatabase.UpdatePaymentVerification` | frontend/database/local-rxdb.ts:694-705 | patches the verification under orderId. Returns null with no change when it is absent or on a storage error |
| `LocalRxdb.LocalRxdbDatabase.GetPaymentVerificationsByOrder` | frontend/database/local-rxdb.ts:707-717 | returns the single verification of that order, or nothing. Returns empty on a storage error |
| `LegacyRxdb.PatchTransaction` | src/services/database/LocalRxdbDatabase.ts:23-31 | patching a transaction replaces the named fields and keeps the rest and the id |
| `LegacyRxdb.PatchOffer` | src/services/database/LocalRxdbDatabase.ts:89-97 | patching an offer replaces the named fields and keeps the rest and the id |
| `LegacyRxdb.PatchVerification` | src/services/database/LocalRxdbDatabase.ts:150-158 | patching a verification replaces each field the patch names, createdAt included, and keeps every other field and the id |
| `LegacyRxdb.TransactionStatusPatch` | src/services/database/LocalRxdbDatabase.ts:30 | a `{ status }` patch on a transaction changes only its status |
| `LegacyRxdb.TransactionDisputePatch` | src/services/database/LocalRxdbDatabase.ts:30 | a dispute patch changes only the status and disputeReason |
| `LegacyRxdb.VerificationStatusPatch` | src/services/database/LocalRxdbDatabase.ts:157 | a `{ status }` patch on a verification changes only its status; verifiedAt stays as it was |
| `LegacyRxdb.TransactionsWithStatus` | src/services/database/LocalRxdbDatabase.ts:38-43 | the result holds exactly the stored transactions with the given status |
| `LegacyRxdb.TransactionsOfUser` | src/services/database/LocalRxdbDatabase.ts:50-60 | the result holds exactly the stored transactions where the user is buyer or seller |
| `LegacyRxdb.NewTransactionIsTheUsers` | src/services/database/LocalRxdbDatabase.ts:1-4 | storing a new transaction that names the user, on either side, adds exactly it to the user's transactions |
| `LegacyRxdb.OffersWithStatus` | src/services/database/LocalRxdbDatabase.ts:104-109 | the result holds exactly the stored offers with the given status |
| `LegacyRxdb.OffersOfUser` | src/services/database/LocalRxdbDatabase.ts:116-121 | the result holds exactly the stored offers whose userId matches |
| `LegacyRxdb.VerificationsOfTransaction` | src/services/database/LocalRxdbDatabase.ts:165-170 | the result holds exactly the stored verifications whose transactionId matches |
| `LegacyRxdb.LocalRxdbDatabase.CreateP2PTransaction` | src/services/database/LocalRxdbDatabase.ts:1-9 | inserts the transaction. A conflict or a storage error is rethrown with nothing stored |
| `LegacyRxdb.LocalRxdbDatabase.GetP2PTransaction` | src/services/database/LocalRxdbDatabase.ts:11-21 | returns null exactly when no transaction has the id. A storage error is rethrown, not turned into null |
| `LegacyRxdb.LocalRxdbDatabase.UpdateP2PTransaction` | src/services/database/LocalRxdbDatabase.ts:23-36 | returns null with no change for an absent id. Otherwise it stores the patched record. Errors are rethrown with no change |
| `LegacyRxdb.LocalRxdbDatabase.GetP2PTransactionsByStatus` | src/services/database/LocalRxdbDatabase.ts:38-48 | returns exactly the transactions with that status. Errors are rethrown |
| `LegacyRxdb.LocalRxdbDatabase.GetP2PTransactionsByUser` | src/services/database/LocalRxdbDatabase.ts:50-65 | returns exactly the transactions where buyerId or sellerId is the user. Errors are rethrown |
| `LegacyRxdb.LocalRxdbDatabase.CreateP2POffer` | src/services/database/LocalRxdbDatabase.ts:67-75 | inserts the offer. A conflict or a storage error is rethrown |
| `LegacyRxdb.LocalRxdbDatabase.GetP2POffer` | src/services/database/LocalRxdbDatabase.ts:77-87 | returns null exactly when no offer has the id. Errors are rethrown |
| `LegacyRxdb.LocalRxdbDatabase.UpdateP2POffer` | src/services/database/LocalRxdbDatabase.ts:89-102 | returns null with no change for an absent id. Otherwise it stores the patched offer. Errors are rethrown |
| `LegacyRxdb.LocalRxdbDatabase.GetActiveP2POffers` | src/services/database/LocalRxdbDatabase.ts:104-114 | returns exactly the offers whose status is active. Errors are rethrown |
| `LegacyRxdb.LocalRxdbDatabase.GetP2POffersByUser` | src/services/database/LocalRxdbDatabase.ts:116-126 | returns exactly the offers whose userId matches. Errors are rethrown |
| `LegacyRxdb.LocalRxdbDatabase.CreateP2PPaymentVerification` | src/services/database/LocalRxdbDatabase.ts:128-136 | inserts the verification keyed by its id. Conflicts and errors are rethrown |
| `LegacyRxdb.LocalRxdbDatabase.GetP2PPaymentVerification` | src/services/database/LocalRxdbDatabase.ts:138-148 | returns null exactly when no verification has the id. Errors are rethrown |
| `LegacyRxdb.LocalRxdbDatabase.UpdateP2PPaymentVerification` | src/services/database/LocalRxdbDatabase.ts:150-163 | returns null with no change for an absent id. Otherwise it stores the patched verification. Errors are rethrown |
| `LegacyRxdb.LocalRxdbDatabase.GetP2PPaymentVerificationsByTransaction` | src/services/database/LocalRxdbDatabase.ts:165-175 | returns exactly the verifications with a matching transactionId. Errors are rethrown |
| `P2PSingleton.LockTokensInEscrow` | frontend/services/p2p.ts:32-44 | the escrow has the order's id and amount and status locked. lockedAt is the `new Date()` reading. expiresAt is the later `Date.now()` reading + 86 400 000 ms, so it is at least lockedAt + 24 h whenever the second reading is not earlier. It is a function, so it writes nothing |
| `P2PSingleton.EscrowWindowIsFlat` | frontend/services/p2p.ts:6 | two orders whose expiry comes from the same clock reading expire at the same instant, whatever their amounts: there are no size tiers |
| `P2PSingleton.GetPaymentMethods` | frontend/services/p2p.ts:97-127 | returns three methods with distinct ids: GCash, Maya and a bank. Each passes the schema's type enum |
| `P2PSingleton.P2PService.CreateOrder` | frontend/services/p2p.ts:20-30 | stores the order with status open. createdAt is the `new Date()` reading and expiresAt is the later `Date.now()` reading + 24 h. sellerId, amount, price, paymentMethod and escrowId are copied from the draft. A stored order is then among the available orders. Store failures pass through |
| `P2PSingleton.P2PService.UpdateOrderStatus` | frontend/services/p2p.ts:46-48 | changes only the target order's status. Any status is accepted, whatever the current one |
| `P2PSingleton.P2PService.GetAvailableOrders` | frontend/services/p2p.ts:50-52 | returns exactly the stored orders whose status is open |
| `P2PSingleton.P2PService.GetOrderById` | frontend/services/p2p.ts:54-56 | returns the stored order, or null |
| `P2PSingleton.P2PService.GetOrdersByUser` | frontend/services/p2p.ts:58-60 | returns exactly the stored orders of that seller |
| `P2PSingleton.P2PService.CreatePaymentVerification` | frontend/services/p2p.ts:62-69 | stores the draft with status pending, keyed by its orderId |
| `P2PSingleton.P2PService.VerifyPayment` | frontend/services/p2p.ts:71-85 | returns false with no change when no verification is found. Otherwise it marks the verification verified (by "system", at now), then marks the order completed, and returns true. It returns true even when the order is missing or a patch was swallowed |
| `P2PSingleton.P2PService.DisputeOrder` | frontend/services/p2p.ts:87-95 | returns false with no change for an unknown order. Otherwise it sets disputed from any status, completed included |
| `P2PSingleton.AcceptOrder` | frontend/pages/P2P.tsx:81-82 | the page locks the escrow and then sets "payment_pending". The escrow matches the order, nothing stores it, and the order's new status is one the order schema rejects. When the update does not apply, the orders are unchanged |
| `P2PSingleton.VerifyPaymentTwice` | frontend/services/p2p.ts:71-85 | a repeated verifyPayment also returns true and leaves the verification verified and the order completed |
| `P2PInjected.P2PService.constructor` | frontend/services/p2p/P2PService.ts:8-10 | the service holds the store it is given |
| `P2PInjected.P2PService.CreateOrder` | frontend/services/p2p/P2PService.ts:12-20 | stores status open with createdAt = now. expiresAt comes from the caller (there is no 24 h default) and the other fields are copied |
| `P2PInjected.P2PService.GetOrder` | frontend/services/p2p/P2PService.ts:22-24 | returns the stored order, or null |
| `P2PInjected.P2PService.GetUserOrders` | frontend/services/p2p/P2PService.ts:26-28 | returns exactly the stored orders of that seller |
| `P2PInjected.P2PService.UpdateOrderStatus` | frontend/services/p2p/P2PService.ts:30-32 | returns null with no change for an absent order. Otherwise the returned and stored order differs from the old one only in status |
| `P2PInjected.P2PService.SubmitPaymentVerification` | frontend/services/p2p/P2PService.ts:34-44 | stores the proof with the argument's orderId and status pending |
| `P2PInjected.P2PService.GetOrderVerifications` | frontend/services/p2p/P2PService.ts:46-48 | returns exactly the verifications whose orderId matches: at most one |
| `P2PInjected.P2PService.VerifyPayment` | frontend/services/p2p/P2PService.ts:50-65 | returns false with no change when there is no verification. Otherwise it marks the verification verified, then marks the order completed, and returns true |
| `P2PInjected.P2PService.DisputeOrder` | frontend/services/p2p/P2PService.ts:67-75 | returns false for an unknown id. Otherwise it sets disputed and returns true |
| `P2PLegacy.P2PService.constructor` | src/services/p2p/P2PService.ts:8-10 | the service holds the store it is given |
| `P2PLegacy.P2PService.CreateOffer` | src/services/p2p/P2PService.ts:12-20 | stores the offer with status active and the caller's fields unchanged. It is then among the active offers |
| `P2PLegacy.P2PService.GetActiveOffers` | src/services/p2p/P2PService.ts:22-24 | returns exactly the offers whose status is active |
| `P2PLegacy.P2PService.GetUserOffers` | src/services/p2p/P2PService.ts:26-28 | returns exactly the offers of that user |
| `P2PLegacy.P2PService.CreateTransaction` | src/services/p2p/P2PService.ts:30-38 | stores status pending with the caller's fields. The referenced offer is untouched |
| `P2PLegacy.P2PService.GetTransaction` | src/services/p2p/P2PService.ts:40-42 | returns the stored transaction, or null |
| `P2PLegacy.P2PService.GetUserTransactions` | src/services/p2p/P2PService.ts:44-46 | returns exactly the transactions where the user is buyer or seller |
| `P2PLegacy.P2PService.UpdateTransactionStatus` | src/services/p2p/P2PService.ts:48-50 | sets any status, whatever the current one. Returns null with no change for an absent id |
| `P2PLegacy.P2PService.SubmitPaymentVerification` | src/services/p2p/P2PService.ts:52-62 | stores the draft with a fresh id and createdAt. The transactionId and status stored are the draft's |
| `P2PLegacy.P2PService.GetTransactionVerifications` | src/services/p2p/P2PService.ts:64-66 | returns exactly the verifications with that transactionId |
| `P2PLegacy.P2PService.VerifyPayment` | src/services/p2p/P2PService.ts:68-81 | returns false with no change when the verification is missing or belongs to another transaction. Otherwise it marks the verification verified, then the transaction completed, and returns true; completedAt is not set. An error on the second patch leaves the first in place |
| `P2PLegacy.P2PService.DisputeTransaction` | src/services/p2p/P2PService.ts:83-95 | returns false for an unknown id. Otherwise it sets status disputed and disputeReason = reason, with the other fields unchanged |
| `CommonReducer.CurrencyValues` | frontend/redux/common/CommonReducer.ts:3-6 | a currency is USD or PHP, and the two values are distinct |
| `CommonReducer.CommonState.constructor` | frontend/redux/common/CommonReducer.ts:13-16 | the initial state is not refreshing, with currency USD |
| `CommonReducer.CommonState.SetAppDataRefreshing` | frontend/redux/common/CommonReducer.ts:22-24 | sets only the refreshing flag; the currency is unchanged |
| `CommonReducer.CommonState.SetCurrency` | frontend/redux/common/CommonReducer.ts:25-27 | sets only the currency; the flag is unchanged |
| `CommonReducer.SetAppDataRefreshingTwice` | frontend/redux/common/CommonReducer.ts:22-24 | on any state, dispatching `setAppDataRefreshing` twice with the same payload gives the state one dispatch gives: the flag is the payload and the currency is kept |
| `CommonReducer.SetCurrencyTwice` | frontend/redux/common/CommonReducer.ts:25-27 | on any state, dispatching `setCurrency` twice with the same payload gives the state one dispatch gives: the currency is the payload and the flag is kept |
| `DbSelector.Db` | frontend/database/db.ts:16-25 | "rxdb" selects RxdbDatabase and "local_rxdb" selects LocalRxdbDatabase, each if and only if. Everything else selects LocalStorageDatabase |
| `DbSelector.EveryDbTypeSelectsItsBackend` | frontend/database/db.ts:6-10 | the three DB_Type values are distinct, and each one stored selects its backend; "local" is reached through the fallback |
| `DbSelector.AbsentKeySelectsLocalStorage` | frontend/database/db.ts:22-24 | with no dbLocation key, LocalStorageDatabase is selected |

## Left out

- The singleton mechanics are not modelled: `getInstance`, the static `instance` fields and the module-level `p2pService` export. Each service class takes its store in its constructor instead.
- The RxDB plumbing of local-rxdb.ts is not modelled: `init`, `setIdentity`, collection getters, plugins, `_invalidateDb`, state-sync methods, Redux dispatches, and asset/contact/allowance/service/KYC CRUD. It is library calls and I/O with no logic of its own. Whether a collection exists is the `NoCollection` storage outcome.
- The collections the frontend store uses are not modelled. local-rxdb.ts binds `_orders` to the `p2p_transactions` collection and `_paymentVerifications` to the `p2p_payment_verifications` collection. Both are defined in schemas.json, which this model does not include. So `orderSchema` and `paymentVerificationSchema` are modelled as standalone predicates, not as checks the store applies on insert.
- The frontend store is assumed to key verifications by `orderId`, the primary key of `paymentVerificationSchema`, taking that schema as the schema of `p2p_payment_verifications`. `LocalRxdb.VerificationsOfOrder` returning at most one verification, and the conflict on a second verification for an order, rest on that assumption.
- `format: 'date-time'` is not checked. A date-time value is modelled as the instant it denotes.
- Serialising a `Date` to JSON and back through `toJSON()` is not modelled. Stored records keep their typed values.
- Patches that would change a primary key are not modelled. Every caller patches other fields only.
- The result order of `find` queries is not modelled: queries return sets. Each record is stored once per key, so a result holds no duplicates.
- Promise scheduling is not modelled. Operations run one after another, as the single-threaded UI calls them. No two calls interleave.
- `console.error` and `logger.debug` calls are not modelled.
- Runtime objects that carry extra properties past their TypeScript type through a spread `...x` are not modelled. Records have exactly their declared fields.
- The two clock readings of `createOrder` and `lockTokensInEscrow` are independent parameters. The model does not promise that the second is not earlier than the first; clock monotonicity is outside it.
- The legacy store awaits its `findOne`/`find` queries without calling `.exec()`. It then uses `toJSON()`, `patch` and `map` on what comes back. The model assumes that awaiting the query yields its result: one document or null for `findOne`, an array of documents for `find`. The RxDB library is not part of this model, so whether a bare await throws instead is not modelled.
- The legacy service imports its store from `@database/local-rxdb`. The model pairs it with src/services/database/LocalRxdbDatabase.ts, the store whose method names it calls. How that import path resolves is not part of this model.
- The field types of `Contact` and `TAllowance` are not part of this model. Contact fields and the allowance's asset are type parameters; the other allowance fields are strings.
- Statuses are closed datatypes, so a caller that writes a status outside the type cannot be expressed. One caller does: frontend/pages/home/components/TopUpModal.tsx:93 passes "pending" to `updateOrderStatus`, and a build that strips types would store it. Such untyped statuses are outside the model.
- The store constructors stand for stores whose collections are already initialised. In the source, the frontend store's private constructor sets every collection to null, and `init` opens them later. The null-collection state is the `NoCollection` storage outcome, not a constructor state. The legacy store file has no class header or constructor of its own.
- Escrow size tiers, rate limits, expiry timers, per-order locking and a checked transition table are not in the code, so nothing models them.
- Floating-point amounts and prices are modelled as exact reals. Nothing in the P2P layer computes on them.
