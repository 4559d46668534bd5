# stripe2netsuite-mvp: the webhook-to-ledger core in Dafny

stripe2netsuite-mvp receives Stripe webhooks and books them into a mock
NetSuite ledger. A webhook passes a signature gate and is deserialized. It is
then routed, by exact event type, to the first of five handlers that claims
it: payment intent, charge, invoice, subscription or customer. The handler
makes at most one call on the ledger. The ledger, `MockNetSuiteService`, is
an in-memory store with three maps and two counters:
- orders by id;
- order id by Stripe payment id;
- customers by id;
- the counters, which name new records `MOCK-ORDER-%03d` and `MOCK-CUST-%03d`.

A checkout flow, `OrderService.createOrder`, creates a Stripe PaymentIntent
first. It then pre-registers a pending order under the intent's id.

The model follows the program's structure.

- `order.dfy` (`OrderModel`): `Order` is a class with the source's seven
  nullable fields, its two constructors and its seven setters. The store
  keeps `Order` objects and changes them in place.
- `mock_netsuite.dfy` (`MockNetSuite`): `MockNetSuiteService` is a class
  whose fields are the three maps and the two counters. `ledger.dfy`
  (`Ledger`) holds the store's abstract state. `CreateOrder`,
  `UpdateOrderStatus`, `CreatePendingOrder`, `MarkOrderAsPaid` and
  `ResolveCustomer` are proved against the `Ledger` function of the same
  name. `FindCustomerByStripeId` and `FindOrderByStripePaymentIntentId` are
  proved against the `Ledger` lookups of the same name. The constructor,
  `InitializeSampleData` and `ClearData` are proved to produce
  `Ledger.SampleData`. `CreateMockCustomer`, `GetOrder`, `GetCustomer` and
  the step helpers state their effect on the fields directly. The invariant
  and the properties are lemmas in `Ledger`:
  - every stored id is a generated `MOCK-ORDER-n` or `MOCK-CUST-n` with n at
    most its counter, so ids not yet generated are fresh;
  - every index entry points at a stored order;
  - at most one customer per Stripe customer id.
- `stripe_objects.dfy`: the Stripe payloads the handlers read.
  `event_handler.dfy`: `canHandle`.
- `payment_intent_handler.dfy`, `charge_handler.dfy`, `invoice_handler.dfy`
  and `log_only_handlers.dfy`: one module per handler. Each has:
  - a `Dispatch` for its switch;
  - a pure `Action` naming the single ledger call it makes;
  - a `Handle` that performs the cast and then the call.
- `event_processor.dfy`: `findHandler` and `processEvent`.
  `event_parser.dfy`: the signature gate.
  `order_service.dfy`: the checkout flow.
- `pipeline.dfy`: end-to-end scenarios: checkout, then the webhook for the
  same payment, and replays.

A Java field or argument that the source may see as `null` is an `Option`, with `null` as `None`. The `id` of a Stripe object (event, payment intent, charge, invoice, created intent) is a plain string: Stripe always sets it, so the model does not cover a null id. A string built by `+` from a null
reads "null" (`JavaString`). Library calls that may throw are function
arguments that answer `None` where the library throws:
- `Webhook.constructEvent`;
- `ObjectMapper.readValue`;
- the safe and the unsafe deserializer;
- `PaymentIntent.create`.

The two sources of non-determinism are plain parameters:
- the random UUID of `createPendingOrder`;
- the clock reading of `createOrder`.

## Model

All paths are under `stripe2netsuite-mvp/src/main/java/com/pb/stripe2netsuite/stripe2netsuitemvp/`, written out in full in each row.

| member | source | states |
|---|---|---|
| Decimal.Pad3 | stripe2netsuite-mvp/src/main/java/com/pb/stripe2netsuite/stripe2netsuitemvp/service/MockNetSuiteService.java:102 | `%03d` yields decimal digits, at least three of them, with a leading zero only when the number has fewer than three digits; with `Pad3Exact` this is exactly `%03d`'s output |
| Decimal.DigitsExact | stripe2netsuite-mvp/src/main/java/com/pb/stripe2netsuite/stripe2netsuitemvp/service/OrderService.java:49 | the decimal rendering of n is the only digit string without a leading zero (other than "0" itself) that reads back as n |
| Decimal.Pad3Exact | stripe2netsuite-mvp/src/main/java/com/pb/stripe2netsuite/stripe2netsuitemvp/service/MockNetSuiteService.java:102 | `%03d` of n is the only string of three or more digits, zero-led only at width three, that reads back as n: no extra leading zeros |
| Decimal.Pad3Injective | stripe2netsuite-mvp/src/main/java/com/pb/stripe2netsuite/stripe2netsuitemvp/service/MockNetSuiteService.java:102 | distinct numbers format to distinct `%03d` strings |
| Decimal.Pad3Value | stripe2netsuite-mvp/src/main/java/com/pb/stripe2netsuite/stripe2netsuitemvp/service/MockNetSuiteService.java:102 | `%03d` of n reads back as n: the zero padding loses nothing |
| Decimal.PrefixedPad3Injective | stripe2netsuite-mvp/src/main/java/com/pb/stripe2netsuite/stripe2netsuitemvp/service/MockNetSuiteService.java:209 | two counter values give the same prefixed id only if they are equal |
| Decimal.ValueOfDigits | stripe2netsuite-mvp/src/main/java/com/pb/stripe2netsuite/stripe2netsuitemvp/service/MockNetSuiteService.java:211 | the decimal rendering of a number reads back as that number |
| OrderModel.Order.constructor | stripe2netsuite-mvp/src/main/java/com/pb/stripe2netsuite/stripe2netsuitemvp/model/Order.java:20-25 | sets id, status, amount and currency; customerId, stripePaymentId and description stay null |
| OrderModel.Order.Empty | stripe2netsuite-mvp/src/main/java/com/pb/stripe2netsuite/stripe2netsuitemvp/model/Order.java:17-18 | every field is null |
| OrderModel.Order.SetId | stripe2netsuite-mvp/src/main/java/com/pb/stripe2netsuite/stripe2netsuitemvp/model/Order.java:32-34 | writes id and no other field |
| OrderModel.Order.SetStatus | stripe2netsuite-mvp/src/main/java/com/pb/stripe2netsuite/stripe2netsuitemvp/model/Order.java:40-42 | writes status and no other field |
| OrderModel.Order.SetAmount | stripe2netsuite-mvp/src/main/java/com/pb/stripe2netsuite/stripe2netsuitemvp/model/Order.java:48-50 | writes amount and no other field |
| OrderModel.Order.SetCurrency | stripe2netsuite-mvp/src/main/java/com/pb/stripe2netsuite/stripe2netsuitemvp/model/Order.java:56-58 | writes currency and no other field |
| OrderModel.Order.SetCustomerId | stripe2netsuite-mvp/src/main/java/com/pb/stripe2netsuite/stripe2netsuitemvp/model/Order.java:64-66 | writes customerId and no other field |
| OrderModel.Order.SetStripePaymentId | stripe2netsuite-mvp/src/main/java/com/pb/stripe2netsuite/stripe2netsuitemvp/model/Order.java:72-74 | writes stripePaymentId and no other field |
| OrderModel.Order.SetDescription | stripe2netsuite-mvp/src/main/java/com/pb/stripe2netsuite/stripe2netsuitemvp/model/Order.java:80-82 | writes description and no other field |
| OrderModel.NewOrder | stripe2netsuite-mvp/src/main/java/com/pb/stripe2netsuite/stripe2netsuitemvp/service/MockNetSuiteService.java:116-123 | a fresh order built by the no-argument constructor and the seven setters holds exactly the given fields |
| OrderModel.NewOrderFromFour | stripe2netsuite-mvp/src/main/java/com/pb/stripe2netsuite/stripe2netsuitemvp/service/MockNetSuiteService.java:78-81 | a fresh order built by the four-argument constructor and three setters holds exactly the given fields |
| Ledger.OrderKeyInjective | stripe2netsuite-mvp/src/main/java/com/pb/stripe2netsuite/stripe2netsuitemvp/service/MockNetSuiteService.java:101-102 | distinct counter values give distinct order ids |
| Ledger.CustomerKeyInjective | stripe2netsuite-mvp/src/main/java/com/pb/stripe2netsuite/stripe2netsuitemvp/service/MockNetSuiteService.java:208-209 | distinct counter values give distinct customer ids |
| Ledger.KeysUpToMembers | stripe2netsuite-mvp/src/main/java/com/pb/stripe2netsuite/stripe2netsuitemvp/service/MockNetSuiteService.java:101-102 | the ids a counter has generated by value n are exactly the ids it makes from 1 to n; the store invariant keeps every stored id among them |
| Ledger.SampleKeys | stripe2netsuite-mvp/src/main/java/com/pb/stripe2netsuite/stripe2netsuitemvp/service/MockNetSuiteService.java:69-78 | the sample ids are the ids the counters would produce for 1 and 2 |
| Ledger.OrdersKeyedGrow | stripe2netsuite-mvp/src/main/java/com/pb/stripe2netsuite/stripe2netsuitemvp/service/MockNetSuiteService.java:101-126 | storing the order with the next id and raising the counter keeps every order under its own id, every id generated, and no future id taken |
| Ledger.CustomersKeyedGrow | stripe2netsuite-mvp/src/main/java/com/pb/stripe2netsuite/stripe2netsuitemvp/service/MockNetSuiteService.java:207-214 | the same for customers |
| Ledger.SampleDataInvariant | stripe2netsuite-mvp/src/main/java/com/pb/stripe2netsuite/stripe2netsuitemvp/service/MockNetSuiteService.java:67-86 | the sample data satisfies the store invariant: every id generated by its counter and none beyond it, index closed, one customer per Stripe id |
| Ledger.SampleOrdersKeyed | stripe2netsuite-mvp/src/main/java/com/pb/stripe2netsuite/stripe2netsuitemvp/service/MockNetSuiteService.java:78-85 | the sample order sits under its id and no id above counter 1 is taken |
| Ledger.SampleCustomersKeyed | stripe2netsuite-mvp/src/main/java/com/pb/stripe2netsuite/stripe2netsuitemvp/service/MockNetSuiteService.java:69-86 | the sample customers sit under their ids and no id above counter 2 is taken |
| Ledger.SampleCustomersUnique | stripe2netsuite-mvp/src/main/java/com/pb/stripe2netsuite/stripe2netsuitemvp/service/MockNetSuiteService.java:70-74 | the two sample customers have different Stripe ids |
| Ledger.FindCustomerByStripeId | stripe2netsuite-mvp/src/main/java/com/pb/stripe2netsuite/stripe2netsuitemvp/service/MockNetSuiteService.java:192-199 | answers a customer holding the Stripe id, and null exactly when no customer holds it |
| Ledger.CreateOrderAddsOne | stripe2netsuite-mvp/src/main/java/com/pb/stripe2netsuite/stripe2netsuitemvp/service/MockNetSuiteService.java:99-137 | under the invariant, createOrder adds exactly one order under an id not yet taken, raises the counter by one and leaves the payment-id index unchanged |
| Ledger.CreateOrderFields | stripe2netsuite-mvp/src/main/java/com/pb/stripe2netsuite/stripe2netsuitemvp/service/MockNetSuiteService.java:116-123 | status defaults to "pending" and currency to "usd"; amount, payment id and description are copied |
| Ledger.CreateOrderCustomer | stripe2netsuite-mvp/src/main/java/com/pb/stripe2netsuite/stripe2netsuitemvp/service/MockNetSuiteService.java:104-113 | a non-empty Stripe customer id resolves to its existing holder, or else to one new customer with the next id; a null or empty one creates no customer and is kept as the order's customer id |
| Ledger.ResolveCustomerInvariant | stripe2netsuite-mvp/src/main/java/com/pb/stripe2netsuite/stripe2netsuitemvp/service/MockNetSuiteService.java:207-219 | resolving a customer keeps customer ids fresh and at most one customer per Stripe id |
| Ledger.CreateOrderInvariant | stripe2netsuite-mvp/src/main/java/com/pb/stripe2netsuite/stripe2netsuitemvp/service/MockNetSuiteService.java:99-137 | createOrder preserves the store invariant |
| Ledger.UpdateOrderStatusFrame | stripe2netsuite-mvp/src/main/java/com/pb/stripe2netsuite/stripe2netsuitemvp/service/MockNetSuiteService.java:147-164 | an absent id returns null and changes nothing; a present id changes that order's status only, nothing else in the store |
| Ledger.UpdateOrderStatusInvariant | stripe2netsuite-mvp/src/main/java/com/pb/stripe2netsuite/stripe2netsuitemvp/service/MockNetSuiteService.java:147-164 | updateOrderStatus preserves the store invariant |
| Ledger.PendingPaymentId | stripe2netsuite-mvp/src/main/java/com/pb/stripe2netsuite/stripe2netsuitemvp/service/MockNetSuiteService.java:278-280 | the given payment id, or "pi_" followed by the first 24 characters of the dash-free UUID |
| Ledger.CreatePendingOrderIndexed | stripe2netsuite-mvp/src/main/java/com/pb/stripe2netsuite/stripe2netsuitemvp/service/MockNetSuiteService.java:273-309 | one new "pending" order for MOCK-CUST-001 under a fresh id, indexed under its payment id (replacing an earlier entry) and found by lookup |
| Ledger.CreatePendingOrderInvariant | stripe2netsuite-mvp/src/main/java/com/pb/stripe2netsuite/stripe2netsuitemvp/service/MockNetSuiteService.java:273-309 | createPendingOrder preserves the store invariant |
| Ledger.FindOrderNoneIffUnindexed | stripe2netsuite-mvp/src/main/java/com/pb/stripe2netsuite/stripe2netsuitemvp/service/MockNetSuiteService.java:317-323 | under the invariant, lookup by payment id fails exactly when the id is not indexed |
| Ledger.CreateOrderInvisibleToLookup | stripe2netsuite-mvp/src/main/java/com/pb/stripe2netsuite/stripe2netsuitemvp/service/MockNetSuiteService.java:126 | an order made by createOrder changes no answer of lookup by payment id |
| Ledger.MarkOrderAsPaidIsUpdate | stripe2netsuite-mvp/src/main/java/com/pb/stripe2netsuite/stripe2netsuitemvp/service/MockNetSuiteService.java:333-345 | on an indexed id, markOrderAsPaid is updateOrderStatus(order, "paid") on the order the index points at |
| Ledger.MarkOrderAsPaidFrame | stripe2netsuite-mvp/src/main/java/com/pb/stripe2netsuite/stripe2netsuitemvp/service/MockNetSuiteService.java:333-345 | an unindexed id returns null and changes nothing; an indexed one sets that order's status to "paid" and changes nothing else |
| Ledger.MarkOrderAsPaidIdempotent | stripe2netsuite-mvp/src/main/java/com/pb/stripe2netsuite/stripe2netsuitemvp/service/MockNetSuiteService.java:333-345 | marking paid twice leaves the state of marking paid once |
| Ledger.MarkOrderAsPaidInvariant | stripe2netsuite-mvp/src/main/java/com/pb/stripe2netsuite/stripe2netsuitemvp/service/MockNetSuiteService.java:333-345 | markOrderAsPaid preserves the store invariant |
| Ledger.ApplyCallInvariant | stripe2netsuite-mvp/src/main/java/com/pb/stripe2netsuite/stripe2netsuitemvp/service/NetSuiteService.java:23-49 | every call a handler can make through the ledger interface preserves the store invariant |
| MockNetSuite.MockNetSuiteService.constructor | stripe2netsuite-mvp/src/main/java/com/pb/stripe2netsuite/stripe2netsuitemvp/service/MockNetSuiteService.java:59-62 | a new store holds exactly the sample data and satisfies the invariant |
| MockNetSuite.MockNetSuiteService.InitializeSampleData | stripe2netsuite-mvp/src/main/java/com/pb/stripe2netsuite/stripe2netsuitemvp/service/MockNetSuiteService.java:67-90 | from empty maps, the store holds the two sample customers, the one sample order and its index entry, with counters 1 and 2 |
| MockNetSuite.MockNetSuiteService.PutSampleCustomers | stripe2netsuite-mvp/src/main/java/com/pb/stripe2netsuite/stripe2netsuitemvp/service/MockNetSuiteService.java:69-75 | the customer map holds exactly the two customers; orders and index unchanged |
| MockNetSuite.MockNetSuiteService.PutSampleOrder | stripe2netsuite-mvp/src/main/java/com/pb/stripe2netsuite/stripe2netsuitemvp/service/MockNetSuiteService.java:78-85 | orders hold exactly the sample order, indexed under its payment id, and the order counter is 1 |
| MockNetSuite.MockNetSuiteService.ClearData | stripe2netsuite-mvp/src/main/java/com/pb/stripe2netsuite/stripe2netsuitemvp/service/MockNetSuiteService.java:253-261 | from any state, the store is exactly the sample data again |
| MockNetSuite.MockNetSuiteService.FindCustomerByStripeId | stripe2netsuite-mvp/src/main/java/com/pb/stripe2netsuite/stripe2netsuitemvp/service/MockNetSuiteService.java:192-199 | the search loop answers what the customer lookup specifies |
| MockNetSuite.MockNetSuiteService.CreateMockCustomer | stripe2netsuite-mvp/src/main/java/com/pb/stripe2netsuite/stripe2netsuitemvp/service/MockNetSuiteService.java:207-220 | raises the customer counter by one and adds exactly the customer named by the new counter value |
| MockNetSuite.MockNetSuiteService.ResolveCustomer | stripe2netsuite-mvp/src/main/java/com/pb/stripe2netsuite/stripe2netsuitemvp/service/MockNetSuiteService.java:104-113 | customers, counter and the resulting customer id are those of the resolution function; the customer invariant is kept |
| MockNetSuite.MockNetSuiteService.StoreNext | stripe2netsuite-mvp/src/main/java/com/pb/stripe2netsuite/stripe2netsuitemvp/service/MockNetSuiteService.java:101-126 | raises the order counter and stores the order under the new counter's id, nothing else changed |
| MockNetSuite.MockNetSuiteService.IndexPayment | stripe2netsuite-mvp/src/main/java/com/pb/stripe2netsuite/stripe2netsuitemvp/service/MockNetSuiteService.java:299 | maps the payment id to the order id, overwriting, nothing else changed |
| MockNetSuite.MockNetSuiteService.CreateOrder | stripe2netsuite-mvp/src/main/java/com/pb/stripe2netsuite/stripe2netsuitemvp/service/MockNetSuiteService.java:99-137 | new state and returned order are those of Ledger.CreateOrder; the invariant is kept |
| MockNetSuite.MockNetSuiteService.SetStatusAndPut | stripe2netsuite-mvp/src/main/java/com/pb/stripe2netsuite/stripe2netsuitemvp/service/MockNetSuiteService.java:155-157 | changing a stored order's status in place is the status update of the abstract state |
| MockNetSuite.MockNetSuiteService.UpdateOrderStatus | stripe2netsuite-mvp/src/main/java/com/pb/stripe2netsuite/stripe2netsuitemvp/service/MockNetSuiteService.java:147-164 | new state is that of Ledger.UpdateOrderStatus; returns null exactly when the id is absent, and otherwise the stored order object itself, holding the updated fields that Ledger.UpdateOrderStatus returns |
| MockNetSuite.MockNetSuiteService.GetOrder | stripe2netsuite-mvp/src/main/java/com/pb/stripe2netsuite/stripe2netsuitemvp/service/MockNetSuiteService.java:246-248 | returns the stored order object, and null exactly when the id is absent |
| MockNetSuite.MockNetSuiteService.GetCustomer | stripe2netsuite-mvp/src/main/java/com/pb/stripe2netsuite/stripe2netsuitemvp/service/MockNetSuiteService.java:173-184 | returns the stored customer, and null exactly when the id is absent |
| MockNetSuite.MockNetSuiteService.CreatePendingOrder | stripe2netsuite-mvp/src/main/java/com/pb/stripe2netsuite/stripe2netsuitemvp/service/MockNetSuiteService.java:273-309 | new state and returned order are those of Ledger.CreatePendingOrder for the resolved payment id |
| MockNetSuite.MockNetSuiteService.FindOrderByStripePaymentIntentId | stripe2netsuite-mvp/src/main/java/com/pb/stripe2netsuite/stripe2netsuitemvp/service/MockNetSuiteService.java:317-323 | returns the order object the index points at, null when the id is unindexed |
| MockNetSuite.MockNetSuiteService.MarkOrderAsPaid | stripe2netsuite-mvp/src/main/java/com/pb/stripe2netsuite/stripe2netsuitemvp/service/MockNetSuiteService.java:333-345 | new state is that of Ledger.MarkOrderAsPaid; returns null exactly when the id is unindexed, and otherwise the stored order object the index points at, holding the "paid" fields that Ledger.MarkOrderAsPaid returns |
| MockNetSuite.Invoke | stripe2netsuite-mvp/src/main/java/com/pb/stripe2netsuite/stripe2netsuitemvp/service/NetSuiteService.java:23-49 | performs one ledger call on the store, keeping the invariant |
| StripeObjects.JavaString | stripe2netsuite-mvp/src/main/java/com/pb/stripe2netsuite/stripe2netsuitemvp/handler/ChargeEventHandler.java:92 | a null string concatenates as "null" |
| StripeObjects.MetadataGet | stripe2netsuite-mvp/src/main/java/com/pb/stripe2netsuite/stripe2netsuitemvp/handler/PaymentIntentEventHandler.java:63 | the metadata value, null exactly when the key is absent |
| EventHandler.CanHandle | stripe2netsuite-mvp/src/main/java/com/pb/stripe2netsuite/stripe2netsuitemvp/handler/AbstractStripeEventHandler.java:15-22 | true exactly when the type is non-null and equal to a listed type |
| EventHandler.CanHandleOrderFree | stripe2netsuite-mvp/src/main/java/com/pb/stripe2netsuite/stripe2netsuitemvp/handler/AbstractStripeEventHandler.java:15-22 | the answer does not depend on the order of the list |
| PaymentIntentEvents.Dispatch | stripe2netsuite-mvp/src/main/java/com/pb/stripe2netsuite/stripe2netsuitemvp/handler/PaymentIntentEventHandler.java:33-56 | a type has its own case exactly when it is one of the five supported types |
| PaymentIntentEvents.Action | stripe2netsuite-mvp/src/main/java/com/pb/stripe2netsuite/stripe2netsuitemvp/handler/PaymentIntentEventHandler.java:33-141 | the handler touches the store only for succeeded and payment_failed, never through a status update, and whatever it records or marks paid is keyed by the intent's own id |
| PaymentIntentEvents.Handle | stripe2netsuite-mvp/src/main/java/com/pb/stripe2netsuite/stripe2netsuitemvp/handler/PaymentIntentEventHandler.java:33-56 | a non-PaymentIntent object fails the cast and changes nothing; otherwise the store changes by the branch's single call, with the reconciliation test of line 65 as written |
| PaymentIntentEvents.SucceededBranch | stripe2netsuite-mvp/src/main/java/com/pb/stripe2netsuite/stripe2netsuitemvp/handler/PaymentIntentEventHandler.java:58-96 | marks paid, by the intent's id, exactly when the metadata orderId is present and does not start with `pending-`; otherwise one "completed" order with the intent's id, customer, amount and currency, described "PaymentIntent payment for " and the id |
| PaymentIntentEvents.SucceededBranchCorrected | stripe2netsuite-mvp/src/main/java/com/pb/stripe2netsuite/stripe2netsuitemvp/handler/PaymentIntentEventHandler.java:62-87 | corrected half of the Finding: marks paid, by the intent's id, exactly when the metadata orderId starts with `pending-`; otherwise the same completed order |
| PaymentIntentEvents.PaymentFailedBranch | stripe2netsuite-mvp/src/main/java/com/pb/stripe2netsuite/stripe2netsuitemvp/handler/PaymentIntentEventHandler.java:98-141 | always one new "failed" order with the intent's id, customer, amount and currency, since the local lookup finds nothing; described by the error message, "null" for an error without one, or "Unknown error" without a last payment error |
| PaymentIntentEvents.OtherBranchesUnaffected | stripe2netsuite-mvp/src/main/java/com/pb/stripe2netsuite/stripe2netsuitemvp/handler/PaymentIntentEventHandler.java:37-55 | the handler and its correction differ only on payment_intent.succeeded |
| PaymentIntentEvents.LogOnlyBranches | stripe2netsuite-mvp/src/main/java/com/pb/stripe2netsuite/stripe2netsuitemvp/handler/PaymentIntentEventHandler.java:143-159 | created, canceled, requires_action and unknown types make no ledger call |
| ChargeEvents.Dispatch | stripe2netsuite-mvp/src/main/java/com/pb/stripe2netsuite/stripe2netsuitemvp/handler/ChargeEventHandler.java:22-57 | a type has its own case exactly when it is supported and not charge.dispute.created |
| ChargeEvents.Handle | stripe2netsuite-mvp/src/main/java/com/pb/stripe2netsuite/stripe2netsuitemvp/handler/ChargeEventHandler.java:34-57 | a non-Charge object fails the cast and changes nothing; otherwise the store changes by the branch's single call |
| ChargeEvents.SucceededBranch | stripe2netsuite-mvp/src/main/java/com/pb/stripe2netsuite/stripe2netsuitemvp/handler/ChargeEventHandler.java:59-80 | one "completed" order with the charge's id as payment id, its customer, amount and currency |
| ChargeEvents.FailedBranch | stripe2netsuite-mvp/src/main/java/com/pb/stripe2netsuite/stripe2netsuitemvp/handler/ChargeEventHandler.java:82-101 | one "failed" order described "Failed Charge: " and the failure message, "null" when there is none |
| ChargeEvents.NoCallBranches | stripe2netsuite-mvp/src/main/java/com/pb/stripe2netsuite/stripe2netsuitemvp/handler/ChargeEventHandler.java:103-142 | refunded (the lookup stub finds nothing), captured, updated, dispute and unknown types make no ledger call |
| InvoiceEvents.Dispatch | stripe2netsuite-mvp/src/main/java/com/pb/stripe2netsuite/stripe2netsuitemvp/handler/InvoiceEventHandler.java:22-65 | a type has its own case exactly when it is supported and not invoice.marked_uncollectible |
| InvoiceEvents.Handle | stripe2netsuite-mvp/src/main/java/com/pb/stripe2netsuite/stripe2netsuitemvp/handler/InvoiceEventHandler.java:36-65 | a non-Invoice object fails the cast and changes nothing; otherwise the store changes by the branch's single call |
| InvoiceEvents.CreatingBranches | stripe2netsuite-mvp/src/main/java/com/pb/stripe2netsuite/stripe2netsuitemvp/handler/InvoiceEventHandler.java:67-150 | created, finalized, paid and payment_failed each record one new order (never an update) with status pending, finalized, completed or failed, the invoice's id, customer and total, and currency defaulting to "usd" |
| InvoiceEvents.NoCallBranches | stripe2netsuite-mvp/src/main/java/com/pb/stripe2netsuite/stripe2netsuitemvp/handler/InvoiceEventHandler.java:152-168 | voided, deleted, payment_action_required, marked_uncollectible and unknown types make no ledger call |
| SubscriptionEvents.Dispatch | stripe2netsuite-mvp/src/main/java/com/pb/stripe2netsuite/stripe2netsuitemvp/handler/SubscriptionEventHandler.java:14-52 | the switch has a case for exactly the six supported types |
| SubscriptionEvents.Handle | stripe2netsuite-mvp/src/main/java/com/pb/stripe2netsuite/stripe2netsuitemvp/handler/SubscriptionEventHandler.java:26-91 | succeeds exactly when the object is a Subscription; there is no store to change |
| CustomerEvents.Dispatch | stripe2netsuite-mvp/src/main/java/com/pb/stripe2netsuite/stripe2netsuitemvp/handler/CustomerEventHandler.java:14-40 | the switch has a case for exactly the three supported types |
| CustomerEvents.Handle | stripe2netsuite-mvp/src/main/java/com/pb/stripe2netsuite/stripe2netsuitemvp/handler/CustomerEventHandler.java:23-61 | succeeds exactly when the object is a Customer; there is no store to change |
| EventProcessor.FindHandler | stripe2netsuite-mvp/src/main/java/com/pb/stripe2netsuite/stripe2netsuitemvp/service/StripeEventProcessor.java:92-106 | a found handler is in the list and claims the type; null exactly when no listed handler claims it |
| EventProcessor.FindHandlerFirstMatch | stripe2netsuite-mvp/src/main/java/com/pb/stripe2netsuite/stripe2netsuitemvp/service/StripeEventProcessor.java:98-105 | the answer is the first claiming handler in list order |
| EventProcessor.SupportedListsDisjoint | stripe2netsuite-mvp/src/main/java/com/pb/stripe2netsuite/stripe2netsuitemvp/handler/SubscriptionEventHandler.java:14-23 | no type is on two handlers' lists |
| EventProcessor.ClaimedByOne | stripe2netsuite-mvp/src/main/java/com/pb/stripe2netsuite/stripe2netsuitemvp/service/StripeEventProcessor.java:101 | two handlers claiming one type are the same handler |
| EventProcessor.FindHandlerOrderFree | stripe2netsuite-mvp/src/main/java/com/pb/stripe2netsuite/stripe2netsuitemvp/service/StripeEventProcessor.java:98-103 | any permutation of the handler list routes every type to the same handler |
| EventProcessor.RoutesToOwner | stripe2netsuite-mvp/src/main/java/com/pb/stripe2netsuite/stripe2netsuitemvp/service/StripeEventProcessor.java:92-106 | a listed handler receives every type on its own list |
| EventProcessor.CustomerSubscriptionUnclaimed | stripe2netsuite-mvp/src/main/java/com/pb/stripe2netsuite/stripe2netsuitemvp/handler/CustomerEventHandler.java:14-20 | customer.subscription.created is claimed by no handler, whatever the list |
| EventProcessor.Deserialize | stripe2netsuite-mvp/src/main/java/com/pb/stripe2netsuite/stripe2netsuitemvp/service/StripeEventProcessor.java:64-85 | the safe result when present, else the unsafe attempt, null when that throws |
| EventProcessor.HandlerOutcome | stripe2netsuite-mvp/src/main/java/com/pb/stripe2netsuite/stripe2netsuitemvp/handler/PaymentIntentEventHandler.java:34 | each handler's handle gets past its first statement exactly when the object has that handler's Stripe type |
| EventProcessor.InvokeHandler | stripe2netsuite-mvp/src/main/java/com/pb/stripe2netsuite/stripe2netsuitemvp/service/StripeEventProcessor.java:52 | calls the chosen handler's handle once; the store changes by that handler's call |
| EventProcessor.ProcessEvent | stripe2netsuite-mvp/src/main/java/com/pb/stripe2netsuite/stripe2netsuitemvp/service/StripeEventProcessor.java:33-56 | undeserializable events and unclaimed types reach no handler and leave the store unchanged; otherwise the first claiming handler runs once on the event's type and object |
| EventProcessor.StoreChangedOnlyByLedgerHandlers | stripe2netsuite-mvp/src/main/java/com/pb/stripe2netsuite/stripe2netsuitemvp/service/StripeEventProcessor.java:40-55 | no ledger call for undeserializable, unclaimed, subscription or customer events |
| EventParser.ParseWithVerification | stripe2netsuite-mvp/src/main/java/com/pb/stripe2netsuite/stripe2netsuitemvp/service/StripeEventParser.java:54-72 | a null or empty header gives null; an event only ever comes from the verifier, with the payload, header and secret |
| EventParser.ParseEvent | stripe2netsuite-mvp/src/main/java/com/pb/stripe2netsuite/stripe2netsuitemvp/service/StripeEventParser.java:36-42 | without verification or secret, the reader's answer; with both, an event only from the verifier with a non-empty header |
| EventParser.UnverifiedPathIgnoresVerifier | stripe2netsuite-mvp/src/main/java/com/pb/stripe2netsuite/stripe2netsuitemvp/service/StripeEventParser.java:36-42 | off the verifying path, any two verifiers give the same answer |
| EventParser.VerifiedPathIgnoresReader | stripe2netsuite-mvp/src/main/java/com/pb/stripe2netsuite/stripe2netsuitemvp/service/StripeEventParser.java:36-42 | on the verifying path, any two readers give the same answer |
| EventParser.MissingHeaderRejected | stripe2netsuite-mvp/src/main/java/com/pb/stripe2netsuite/stripe2netsuitemvp/service/StripeEventParser.java:55-59 | on the verifying path, a null or empty header gives null whatever the verifier |
| EventParser.VerifiedEventPassedThrough | stripe2netsuite-mvp/src/main/java/com/pb/stripe2netsuite/stripe2netsuitemvp/service/StripeEventParser.java:63-71 | on the verifying path with a header, the verifier's answer is returned unchanged |
| EventParser.EmptySecretSkipsVerification | stripe2netsuite-mvp/src/main/java/com/pb/stripe2netsuite/stripe2netsuitemvp/service/StripeEventParser.java:47-49 | verification switched on with an empty secret still reads the payload unchecked |
| OrderService.PlaceholderOrderId | stripe2netsuite-mvp/src/main/java/com/pb/stripe2netsuite/stripe2netsuitemvp/service/OrderService.java:49 | "pending-" followed by the clock reading's digits without a leading zero, which read back as the clock reading; with `DigitsExact` this is exactly `Long.toString` of the reading |
| OrderService.PlaceholderIsNotOrderKey | stripe2netsuite-mvp/src/main/java/com/pb/stripe2netsuite/stripe2netsuitemvp/service/OrderService.java:49 | the placeholder is never a MOCK-ORDER id |
| OrderService.IntentParamsFor | stripe2netsuite-mvp/src/main/java/com/pb/stripe2netsuite/stripe2netsuitemvp/service/OrderService.java:89-111 | amount copied, currency defaulting to "usd", orderId in the metadata, automatic payment methods on, description in metadata and intent exactly when non-null and non-empty |
| OrderService.RecordPendingOrder | stripe2netsuite-mvp/src/main/java/com/pb/stripe2netsuite/stripe2netsuitemvp/service/OrderService.java:61-66 | step 2 of createOrder: the store changes by createPendingOrder under the intent's real id, and the new order's id is the next MOCK-ORDER id |
| OrderService.CreateOrder | stripe2netsuite-mvp/src/main/java/com/pb/stripe2netsuite/stripe2netsuitemvp/service/OrderService.java:43-79 | a failed Stripe call stores nothing; otherwise one pending order under the intent's real id, and the response with that order's id, "pending", the amount, the currency or "usd", and the intent's client secret and id |
| OrderService.MetadataOrderIdIsPlaceholder | stripe2netsuite-mvp/src/main/java/com/pb/stripe2netsuite/stripe2netsuitemvp/service/OrderService.java:96 | the metadata orderId always starts with "pending-" |
| Pipeline.CheckoutIntentIsPlaceholder | stripe2netsuite-mvp/src/main/java/com/pb/stripe2netsuite/stripe2netsuitemvp/handler/PaymentIntentEventHandler.java:62-65 | an intent created by checkout fails the test of line 65 and passes the corrected one |
| Pipeline.CheckoutPaymentAsWritten | stripe2netsuite-mvp/src/main/java/com/pb/stripe2netsuite/stripe2netsuitemvp/handler/PaymentIntentEventHandler.java:62-87 | as written, after checkout and its succeeded webhook the pre-created order is still "pending" and the store holds two new orders |
| Pipeline.CheckoutPaymentMarksPaid | stripe2netsuite-mvp/src/main/java/com/pb/stripe2netsuite/stripe2netsuitemvp/handler/PaymentIntentEventHandler.java:62-68 | corrected half of the Finding: the pre-created order becomes "paid" with its other fields unchanged, and no order is added |
| Pipeline.CheckoutPaymentReplayIdempotent | stripe2netsuite-mvp/src/main/java/com/pb/stripe2netsuite/stripe2netsuitemvp/handler/PaymentIntentEventHandler.java:62-68 | when the orderId is present and not `pending-`-prefixed, a second delivery of the succeeded webhook leaves the state of the first |
| Pipeline.FallbackReplayDuplicates | stripe2netsuite-mvp/src/main/java/com/pb/stripe2netsuite/stripe2netsuitemvp/handler/PaymentIntentEventHandler.java:76-87 | when the orderId is absent or `pending-`-prefixed, as on every checkout intent, there is no deduplication: each delivery of the succeeded webhook adds one order |
| Pipeline.RefundLeavesStore | stripe2netsuite-mvp/src/main/java/com/pb/stripe2netsuite/stripe2netsuitemvp/handler/ChargeEventHandler.java:103-117 | a charge.refunded event never changes the store, whatever the handler order |

## Left out

- Logging: every log call, including the debug listing in `findHandler`, is left out; none changes state.
- Concurrency: the maps are `ConcurrentHashMap`s and the counters are not atomic. The model is one sequential store.
- MockNetSuite.MockNetSuiteService.CreateOrder: the counters are Java `int`. The model uses unbounded naturals, so 32-bit wrap-around after 2^31 orders or customers is not modelled. Ids past 999 have more than three digits in both.
- Amounts are Java `Long`, modelled as unbounded integers. No negative-amount check exists in the source, and none is added.
- OrderService.PlaceholderOrderId: the clock reading is taken as a natural number; a negative `currentTimeMillis` is not modelled.
- `getAllOrders` and `getAllCustomers` return copies of the maps for the debug endpoints. They are not modelled; `GetOrder` and `GetCustomer` cover reads.
- Stripe object ids are never null in the model. In the source a null payment intent id on the mark-paid path would reach `ordersByStripePaymentId.get(null)` (MockNetSuiteService.java:317-323) and throw, and a null charge id would be described "Charge payment for null". Neither is modelled.
- Null map keys, and a null metadata map on a PaymentIntent (which would throw in the source), are not modelled. Maps are Dafny maps of non-null strings.
- The signature scheme behind `Webhook.constructEvent` (HMAC, timestamp tolerance) is not modelled. Neither are the exceptions other than `SignatureVerificationException` that it can throw, which `parseEvent` does not catch.
- `ObjectMapper.readValue`, Stripe deserialization and `PaymentIntent.create` are opaque function arguments.
- The UUID in `createPendingOrder` is a parameter holding the dash-free hex string. The UUID generator is not modelled.
- HTTP controllers, Spring configuration and the web UI are not part of this model.
- `getPublishableKey` only reads configuration and is not modelled.
- The helper methods `StoreNext`, `IndexPayment`, `SetStatusAndPut`, `PutSampleCustomers`, `PutSampleOrder`, `NewOrder` and `NewOrderFromFour` split the source's inline statements into separately proved steps. `StoreNext` performs the counter increment and the `put` together. In the source the customer resolution sits between them, and no other method can observe the order.
- `handle`'s `eventId` argument is only logged, so the model passes it through unused.

## Findings

| source | as written | input that shows it | evidently intended | confidence | as-written member | corrected member |
|---|---|---|---|---|---|---|
| stripe2netsuite-mvp/src/main/java/com/pb/stripe2netsuite/stripe2netsuitemvp/handler/PaymentIntentEventHandler.java:65 | `markOrderAsPaid` runs only when the metadata orderId does not start with `pending-`. `OrderService.createOrder` always writes a `pending-` placeholder there (OrderService.java:49, :96). So an order created at checkout never becomes paid, and its payment books a second, "completed" order beside it. | `createOrder` with any request at any clock reading, then the `payment_intent.succeeded` webhook for the intent it created | the order created at checkout, found by the intent's id, becomes "paid" and no order is added. The comment on that branch describes it as the path for orders created through the new API flow (PaymentIntentEventHandler.java:66-67). OrderService.java:34-36 lists the flow's steps: a placeholder id in the metadata, then a pending order under the real intent id. The web client's checkout walkthrough names the webhook step as the backend updating the order's status, then reads the checkout order back by its id and shows its final status (stripe2netsuite-mvp-web/src/App.jsx:164, :197-201). The model's handler keeps the test as written; `ReconcilesCorrected`, `ActionCorrected` and `SucceededBranchCorrected` hold the correction. | medium; not executed | Pipeline.CheckoutPaymentAsWritten | Pipeline.CheckoutPaymentMarksPaid |
