/**
 * The state of the in-memory NetSuite stand-in (`MockNetSuiteService`) as a
 * value, and each of its operations as a function from the state before to
 * the state after. The class in module MockNetSuite is proved against these
 * functions; the lemmas here state what the operations promise.
 */
module Ledger {
  import opened Wrappers
  import opened Decimal
  import opened OrderModel

  /** A ledger customer. The store never changes one after storing it. */
  datatype Customer = Customer(id: string, name: string, email: string, stripeCustomerId: Option<string>)

  /** What a webhook handler asks the store to record. */
  datatype OrderDto = OrderDto(
    stripePaymentId: Option<string>,
    stripeCustomerId: Option<string>,
    amount: Option<int>,
    currency: Option<string>,
    description: Option<string>,
    status: Option<string>)

  /**
   * orders: order id -> order; ordersByStripePaymentId: Stripe payment id ->
   * order id; customers: customer id -> customer; and the two counters from
   * which `MOCK-ORDER-nnn` and `MOCK-CUST-nnn` ids are made.
   */
  datatype Store = Store(
    orders: map<string, OrderRecord>,
    ordersByStripePaymentId: map<string, string>,
    customers: map<string, Customer>,
    orderCounter: nat,
    customerCounter: nat)

  /** A new state and the order an operation created. */
  datatype Created = Created(store: Store, order: OrderRecord)

  /** A new state and the order an operation found and changed, if any. */
  datatype Updated = Updated(store: Store, order: Option<OrderRecord>)

  // ---------------------------------------------------------------------------
  // Ids

  function OrderKey(n: nat): string {
    "MOCK-ORDER-" + Pad3(n)
  }

  function CustomerKey(n: nat): string {
    "MOCK-CUST-" + Pad3(n)
  }

  /** The ids a counter has produced by the time it reaches n, `key` making the id from the counter value. */
  function KeysUpTo(key: nat -> string, n: nat): set<string> {
    if n == 0 then {} else KeysUpTo(key, n - 1) + {key(n)}
  }

  /** `KeysUpTo(key, n)` holds exactly `key(i)` for 1 <= i <= n. */
  lemma {:induction false} KeysUpToMembers(key: nat -> string, n: nat, k: string)
    ensures k in KeysUpTo(key, n) <==> exists i: nat :: 1 <= i <= n && k == key(i)
  {
    if n > 0 {
      KeysUpToMembers(key, n - 1, k);
      if k == key(n) {
        assert 1 <= n <= n && k == key(n);
      }
      if exists i: nat :: 1 <= i <= n && k == key(i) {
        var i: nat :| 1 <= i <= n && k == key(i);
        if i < n {
          assert k in KeysUpTo(key, n - 1);
        }
      }
    }
  }

  lemma OrderKeyInjective(a: nat, b: nat)
    ensures OrderKey(a) == OrderKey(b) ==> a == b
  {
    PrefixedPad3Injective("MOCK-ORDER-", a, b);
  }

  lemma CustomerKeyInjective(a: nat, b: nat)
    ensures CustomerKey(a) == CustomerKey(b) ==> a == b
  {
    PrefixedPad3Injective("MOCK-CUST-", a, b);
  }

  /** The literal ids of the sample data are the first generated ids. */
  lemma SampleKeys()
    ensures OrderKey(1) == "MOCK-ORDER-001"
    ensures CustomerKey(1) == "MOCK-CUST-001" && CustomerKey(2) == "MOCK-CUST-002"
  {
    assert DigitChar(1) == '1' && DigitChar(2) == '2';
    Pad3OneDigit(1);
    Pad3OneDigit(2);
  }

  // ---------------------------------------------------------------------------
  // The invariant

  /**
   * Every order sits under its own id, every id is a generated
   * `MOCK-ORDER-n` with n at most the counter, and no id the counter will
   * produce later (n > counter) is taken yet.
   */
  ghost predicate OrdersKeyed(orders: map<string, OrderRecord>, counter: nat) {
    && (forall k | k in orders :: orders[k].id == Some(k))
    && orders.Keys <= KeysUpTo(OrderKey, counter)
    && (forall n: nat | counter < n :: OrderKey(n) !in orders)
  }

  /** Every index entry points at a stored order. */
  ghost predicate IndexClosed(index: map<string, string>, orders: map<string, OrderRecord>) {
    forall p | p in index :: index[p] in orders
  }

  /**
   * Every customer sits under its own id, every id is a generated
   * `MOCK-CUST-n` with n at most the counter, and no later one is taken yet.
   */
  ghost predicate CustomersKeyed(customers: map<string, Customer>, counter: nat) {
    && (forall k | k in customers :: customers[k].id == k)
    && customers.Keys <= KeysUpTo(CustomerKey, counter)
    && (forall n: nat | counter < n :: CustomerKey(n) !in customers)
  }

  /** At most one customer per Stripe customer id. */
  ghost predicate StripeCustomersUnique(customers: map<string, Customer>) {
    forall k1, k2 | k1 in customers && k2 in customers && k1 != k2 && customers[k1].stripeCustomerId.Some? ::
      customers[k1].stripeCustomerId != customers[k2].stripeCustomerId
  }

  ghost predicate Invariant(s: Store) {
    && OrdersKeyed(s.orders, s.orderCounter)
    && IndexClosed(s.ordersByStripePaymentId, s.orders)
    && CustomersKeyed(s.customers, s.customerCounter)
    && StripeCustomersUnique(s.customers)
  }

  lemma OrdersKeyedGrow(orders: map<string, OrderRecord>, counter: nat, order: OrderRecord)
    requires OrdersKeyed(orders, counter)
    requires order.id == Some(OrderKey(counter + 1))
    ensures OrdersKeyed(orders[OrderKey(counter + 1) := order], counter + 1)
  {
    forall n: nat | counter + 1 < n ensures OrderKey(n) != OrderKey(counter + 1) {
      OrderKeyInjective(n, counter + 1);
    }
  }

  lemma CustomersKeyedGrow(customers: map<string, Customer>, counter: nat, c: Customer)
    requires CustomersKeyed(customers, counter)
    requires c.id == CustomerKey(counter + 1)
    ensures CustomersKeyed(customers[c.id := c], counter + 1)
  {
    forall n: nat | counter + 1 < n ensures CustomerKey(n) != CustomerKey(counter + 1) {
      CustomerKeyInjective(n, counter + 1);
    }
  }

  // ---------------------------------------------------------------------------
  // Sample data (initializeSampleData, run by the constructor and by clearData)

  const SampleCustomer1 := Customer("MOCK-CUST-001", "John Doe", "john.doe@example.com", Some("cus_1234567890"))
  const SampleCustomer2 := Customer("MOCK-CUST-002", "Jane Smith", "jane.smith@example.com", Some("cus_0987654321"))
  const SampleOrder := OrderRecord(Some("MOCK-ORDER-001"), Some("pending"), Some(5000), Some("usd"),
                                   Some("MOCK-CUST-001"), Some("pi_1234567890"),
                                   Some("Sample order from Stripe payment"))

  /** Two customers, one pending order indexed by its payment id, and the counters at 1 and 2. */
  function SampleData(): Store {
    Store(
      map[][SampleOrder.id.value := SampleOrder],
      map[][SampleOrder.stripePaymentId.value := SampleOrder.id.value],
      map[][SampleCustomer1.id := SampleCustomer1][SampleCustomer2.id := SampleCustomer2],
      1,
      2)
  }

  /** The sample state satisfies the invariant, so a fresh or reset store does. */
  lemma SampleDataInvariant()
    ensures Invariant(SampleData())
  {
    SampleOrdersKeyed();
    SampleCustomersKeyed();
    SampleCustomersUnique();
  }

  lemma SampleOrdersKeyed()
    ensures OrdersKeyed(SampleData().orders, 1)
  {
    SampleKeys();
    forall n: nat | 1 < n ensures OrderKey(n) != "MOCK-ORDER-001" {
      OrderKeyInjective(n, 1);
    }
  }

  lemma SampleCustomersKeyed()
    ensures CustomersKeyed(SampleData().customers, 2)
  {
    SampleKeys();
    forall n: nat | 2 < n ensures CustomerKey(n) != "MOCK-CUST-001" && CustomerKey(n) != "MOCK-CUST-002" {
      CustomerKeyInjective(n, 1);
      CustomerKeyInjective(n, 2);
    }
  }

  lemma SampleCustomersUnique()
    ensures StripeCustomersUnique(SampleData().customers)
  {
    var cs := SampleData().customers;
    var c1, c2 := "MOCK-CUST-001", "MOCK-CUST-002";
    assert "cus_1234567890" != "cus_0987654321" by { assert "cus_1234567890"[4] != "cus_0987654321"[4]; }
    forall k1, k2 | k1 in cs && k2 in cs && k1 != k2
      ensures cs[k1].stripeCustomerId != cs[k2].stripeCustomerId
    {
      if k1 == c1 { assert k2 == c2; } else { assert k1 == c2 && k2 == c1; }
    }
  }

  // ---------------------------------------------------------------------------
  // Customers

  /** The id of the customer carrying this Stripe customer id, if there is one. */
  ghost function FindCustomerByStripeId(customers: map<string, Customer>, stripeCustomerId: string): (r: Option<string>)
    ensures r.Some? ==> r.value in customers && customers[r.value].stripeCustomerId == Some(stripeCustomerId)
    ensures r.None? <==> forall k | k in customers :: customers[k].stripeCustomerId != Some(stripeCustomerId)
  {
    if exists k :: k in customers && customers[k].stripeCustomerId == Some(stripeCustomerId) then
      var k :| k in customers && customers[k].stripeCustomerId == Some(stripeCustomerId);
      Some(k)
    else
      None
  }

  /** The customer `createMockCustomer` makes with counter value n. */
  function NewCustomer(n: nat, stripeCustomerId: string): Customer {
    Customer(CustomerKey(n), "Customer " + CustomerKey(n), "customer" + Digits(n) + "@example.com", Some(stripeCustomerId))
  }

  /**
   * The customer part of createOrder, on the customer map and counter: a
   * non-null, non-empty Stripe id is resolved to the customer holding it, or
   * to a new customer; any other value is kept as the order's customer id.
   * The result is the new customer map, the new counter and the customer id.
   */
  ghost function ResolveCustomer(customers: map<string, Customer>, counter: nat, stripeCustomerId: Option<string>)
    : (map<string, Customer>, nat, Option<string>)
  {
    if stripeCustomerId.Some? && stripeCustomerId.value != "" then
      match FindCustomerByStripeId(customers, stripeCustomerId.value)
      case Some(id) => (customers, counter, Some(id))
      case None =>
        var c := NewCustomer(counter + 1, stripeCustomerId.value);
        (customers[c.id := c], counter + 1, Some(c.id))
    else
      (customers, counter, stripeCustomerId)
  }

  // ---------------------------------------------------------------------------
  // createOrder

  ghost function CreateOrder(s: Store, dto: OrderDto): Created {
    var key := OrderKey(s.orderCounter + 1);
    var (customers, customerCounter, customerId) := ResolveCustomer(s.customers, s.customerCounter, dto.stripeCustomerId);
    var order := OrderRecord(Some(key), Some(dto.status.GetOr("pending")), dto.amount,
                             Some(dto.currency.GetOr("usd")), customerId, dto.stripePaymentId, dto.description);
    Created(s.(orders := s.orders[key := order], customers := customers, customerCounter := customerCounter,
               orderCounter := s.orderCounter + 1),
            order)
  }

  /** createOrder adds exactly one order, under a fresh id, and leaves the payment-id index alone. */
  lemma CreateOrderAddsOne(s: Store, dto: OrderDto)
    requires Invariant(s)
    ensures var r := CreateOrder(s, dto); var key := OrderKey(s.orderCounter + 1);
      && key !in s.orders
      && r.store.orders == s.orders[key := r.order]
      && |r.store.orders| == |s.orders| + 1
      && r.store.orderCounter == s.orderCounter + 1
      && r.store.ordersByStripePaymentId == s.ordersByStripePaymentId
  {
  }

  /** The created order's fields: null status and currency default, the rest is copied. */
  lemma CreateOrderFields(s: Store, dto: OrderDto)
    ensures var o := CreateOrder(s, dto).order;
      && o.id == Some(OrderKey(s.orderCounter + 1))
      && o.status == (if dto.status.None? then Some("pending") else dto.status)
      && o.currency == (if dto.currency.None? then Some("usd") else dto.currency)
      && o.amount == dto.amount
      && o.stripePaymentId == dto.stripePaymentId
      && o.description == dto.description
  {
  }

  /** Customer resolution: reuse the holder of the Stripe id, else add one new customer; never for a null or empty id. */
  lemma CreateOrderCustomer(s: Store, dto: OrderDto)
    requires Invariant(s)
    ensures var r := CreateOrder(s, dto); var sid := dto.stripeCustomerId;
      && (sid.None? || sid == Some("") ==>
            r.order.customerId == sid && r.store.customers == s.customers
            && r.store.customerCounter == s.customerCounter)
      && (forall k | k in s.customers && sid.Some? && sid != Some("") && s.customers[k].stripeCustomerId == sid ::
            r.order.customerId == Some(k) && r.store.customers == s.customers
            && r.store.customerCounter == s.customerCounter)
      && (sid.Some? && sid != Some("") && (forall k | k in s.customers :: s.customers[k].stripeCustomerId != sid) ==>
            var key := CustomerKey(s.customerCounter + 1);
            && key !in s.customers
            && r.order.customerId == Some(key)
            && r.store.customers == s.customers[key := NewCustomer(s.customerCounter + 1, sid.value)]
            && r.store.customerCounter == s.customerCounter + 1)
  {
  }

  /** Resolving a customer keeps the customer half of the invariant. */
  lemma ResolveCustomerInvariant(customers: map<string, Customer>, counter: nat, stripeCustomerId: Option<string>)
    requires CustomersKeyed(customers, counter) && StripeCustomersUnique(customers)
    ensures var r := ResolveCustomer(customers, counter, stripeCustomerId);
      CustomersKeyed(r.0, r.1) && StripeCustomersUnique(r.0)
  {
    if stripeCustomerId.Some? && stripeCustomerId.value != ""
       && FindCustomerByStripeId(customers, stripeCustomerId.value).None?
    {
      var c := NewCustomer(counter + 1, stripeCustomerId.value);
      CustomersKeyedGrow(customers, counter, c);
      var cs := customers[c.id := c];
      forall k1, k2 | k1 in cs && k2 in cs && k1 != k2 && cs[k1].stripeCustomerId.Some?
        ensures cs[k1].stripeCustomerId != cs[k2].stripeCustomerId
      {
        if k1 != c.id && k2 != c.id {
          assert cs[k1] == customers[k1] && cs[k2] == customers[k2];
        }
      }
    }
  }

  lemma CreateOrderInvariant(s: Store, dto: OrderDto)
    requires Invariant(s)
    ensures Invariant(CreateOrder(s, dto).store)
  {
    var r := CreateOrder(s, dto);
    ResolveCustomerInvariant(s.customers, s.customerCounter, dto.stripeCustomerId);
    OrdersKeyedGrow(s.orders, s.orderCounter, r.order);
    assert r.store.orders == s.orders[OrderKey(s.orderCounter + 1) := r.order];
  }

  // ---------------------------------------------------------------------------
  // updateOrderStatus

  ghost function UpdateOrderStatus(s: Store, orderId: string, status: string): Updated {
    if orderId in s.orders then
      var o := s.orders[orderId].(status := Some(status));
      Updated(s.(orders := s.orders[orderId := o]), Some(o))
    else
      Updated(s, None)
  }

  /** An absent id changes nothing; a present one changes that order's status and nothing else. */
  lemma UpdateOrderStatusFrame(s: Store, orderId: string, status: string)
    ensures var r := UpdateOrderStatus(s, orderId, status);
      && (orderId !in s.orders ==> r.order.None? && r.store == s)
      && (orderId in s.orders ==>
            && r.order == Some(s.orders[orderId].(status := Some(status)))
            && r.store.orders.Keys == s.orders.Keys
            && r.store.orders[orderId] == s.orders[orderId].(status := Some(status))
            && (forall k | k in s.orders && k != orderId :: r.store.orders[k] == s.orders[k])
            && r.store.ordersByStripePaymentId == s.ordersByStripePaymentId
            && r.store.customers == s.customers
            && r.store.orderCounter == s.orderCounter
            && r.store.customerCounter == s.customerCounter)
  {
  }

  lemma UpdateOrderStatusInvariant(s: Store, orderId: string, status: string)
    requires Invariant(s)
    ensures Invariant(UpdateOrderStatus(s, orderId, status).store)
  {
    var s' := UpdateOrderStatus(s, orderId, status).store;
    forall k | k in s'.orders ensures s'.orders[k].id == Some(k) {
      assert s'.orders[k].id == s.orders[k].id;
    }
  }

  // ---------------------------------------------------------------------------
  // createPendingOrder

  /** The payment id a pending order is stored under: the given one, else `pi_` and 24 random hex digits. */
  function PendingPaymentId(given: Option<string>, uuidHex: string): (r: string)
    requires given.None? ==> |uuidHex| >= 24
    ensures given.Some? ==> r == given.value
    ensures given.None? ==> |r| == 27 && r[..3] == "pi_" && r[3..] == uuidHex[..24]
  {
    match given
    case Some(id) => id
    case None => "pi_" + uuidHex[..24]
  }

  ghost function CreatePendingOrder(s: Store, amount: Option<int>, currency: Option<string>,
                                    description: Option<string>, paymentId: string): Created
  {
    var key := OrderKey(s.orderCounter + 1);
    var order := OrderRecord(Some(key), Some("pending"), amount, Some(currency.GetOr("usd")),
                             Some("MOCK-CUST-001"), Some(paymentId), description);
    Created(s.(orders := s.orders[key := order],
               ordersByStripePaymentId := s.ordersByStripePaymentId[paymentId := key],
               orderCounter := s.orderCounter + 1),
            order)
  }

  /**
   * createPendingOrder stores one new pending order for customer MOCK-CUST-001
   * and points the payment id at it, replacing any earlier entry; a lookup by
   * that payment id then finds exactly this order.
   */
  lemma CreatePendingOrderIndexed(s: Store, amount: Option<int>, currency: Option<string>,
                                  description: Option<string>, paymentId: string)
    requires Invariant(s)
    ensures var r := CreatePendingOrder(s, amount, currency, description, paymentId);
      var key := OrderKey(s.orderCounter + 1);
      && key !in s.orders
      && r.store.orders == s.orders[key := r.order]
      && r.store.ordersByStripePaymentId == s.ordersByStripePaymentId[paymentId := key]
      && r.order.status == Some("pending") && r.order.customerId == Some("MOCK-CUST-001")
      && r.order.stripePaymentId == Some(paymentId)
      && FindOrderByStripePaymentIntentId(r.store, paymentId) == Some(r.order)
  {
  }

  lemma CreatePendingOrderInvariant(s: Store, amount: Option<int>, currency: Option<string>,
                                    description: Option<string>, paymentId: string)
    requires Invariant(s)
    ensures Invariant(CreatePendingOrder(s, amount, currency, description, paymentId).store)
  {
    var r := CreatePendingOrder(s, amount, currency, description, paymentId);
    OrdersKeyedGrow(s.orders, s.orderCounter, r.order);
  }

  // ---------------------------------------------------------------------------
  // findOrderByStripePaymentIntentId and markOrderAsPaid

  function FindOrderByStripePaymentIntentId(s: Store, paymentId: string): Option<OrderRecord> {
    if paymentId in s.ordersByStripePaymentId && s.ordersByStripePaymentId[paymentId] in s.orders then
      Some(s.orders[s.ordersByStripePaymentId[paymentId]])
    else
      None
  }

  /** With the index closed, a lookup fails exactly when the payment id is not indexed. */
  lemma FindOrderNoneIffUnindexed(s: Store, paymentId: string)
    requires Invariant(s)
    ensures FindOrderByStripePaymentIntentId(s, paymentId).None? <==> paymentId !in s.ordersByStripePaymentId
  {
  }

  /** Orders made by createOrder are invisible to lookup by payment id: every lookup answers as before. */
  lemma CreateOrderInvisibleToLookup(s: Store, dto: OrderDto, paymentId: string)
    requires Invariant(s)
    ensures FindOrderByStripePaymentIntentId(CreateOrder(s, dto).store, paymentId)
         == FindOrderByStripePaymentIntentId(s, paymentId)
  {
  }

  ghost function MarkOrderAsPaid(s: Store, paymentId: string): Updated {
    match FindOrderByStripePaymentIntentId(s, paymentId)
    case None => Updated(s, None)
    case Some(found) =>
      var key := s.ordersByStripePaymentId[paymentId];
      var o := found.(status := Some("paid"));
      Updated(s.(orders := s.orders[key := o]), Some(o))
  }

  /** markOrderAsPaid on an indexed payment id is updateOrderStatus(orderId, "paid") on the order it points at. */
  lemma MarkOrderAsPaidIsUpdate(s: Store, paymentId: string)
    requires Invariant(s) && paymentId in s.ordersByStripePaymentId
    ensures MarkOrderAsPaid(s, paymentId)
         == UpdateOrderStatus(s, s.ordersByStripePaymentId[paymentId], "paid")
  {
  }

  /** markOrderAsPaid sets only the indexed order's status to "paid"; an unindexed id changes nothing. */
  lemma MarkOrderAsPaidFrame(s: Store, paymentId: string)
    requires Invariant(s)
    ensures var r := MarkOrderAsPaid(s, paymentId);
      && (paymentId !in s.ordersByStripePaymentId ==> r.order.None? && r.store == s)
      && (paymentId in s.ordersByStripePaymentId ==>
            var key := s.ordersByStripePaymentId[paymentId];
            && r.order == Some(s.orders[key].(status := Some("paid")))
            && r.store == s.(orders := s.orders[key := s.orders[key].(status := Some("paid"))]))
  {
  }

  /** Marking paid twice leaves the same state as marking paid once. */
  lemma MarkOrderAsPaidIdempotent(s: Store, paymentId: string)
    ensures MarkOrderAsPaid(MarkOrderAsPaid(s, paymentId).store, paymentId).store
         == MarkOrderAsPaid(s, paymentId).store
  {
  }

  lemma MarkOrderAsPaidInvariant(s: Store, paymentId: string)
    requires Invariant(s)
    ensures Invariant(MarkOrderAsPaid(s, paymentId).store)
  {
    if paymentId in s.ordersByStripePaymentId {
      UpdateOrderStatusInvariant(s, s.ordersByStripePaymentId[paymentId], "paid");
      assert MarkOrderAsPaid(s, paymentId).store
          == UpdateOrderStatus(s, s.ordersByStripePaymentId[paymentId], "paid").store;
    }
  }

  // ---------------------------------------------------------------------------
  // The calls a webhook handler makes through the NetSuiteService interface

  /** At most one store operation per handler invocation. */
  datatype StoreCall =
    | NoCall
    | CreateOrderCall(dto: OrderDto)
    | UpdateOrderStatusCall(orderId: string, status: string)
    | MarkOrderAsPaidCall(paymentId: string)

  ghost function ApplyCall(s: Store, call: StoreCall): Store {
    match call
    case NoCall => s
    case CreateOrderCall(dto) => CreateOrder(s, dto).store
    case UpdateOrderStatusCall(id, status) => UpdateOrderStatus(s, id, status).store
    case MarkOrderAsPaidCall(pid) => MarkOrderAsPaid(s, pid).store
  }

  lemma ApplyCallInvariant(s: Store, call: StoreCall)
    requires Invariant(s)
    ensures Invariant(ApplyCall(s, call))
  {
    match call
    case NoCall =>
    case CreateOrderCall(dto) => CreateOrderInvariant(s, dto);
    case UpdateOrderStatusCall(id, status) => UpdateOrderStatusInvariant(s, id, status);
    case MarkOrderAsPaidCall(pid) => MarkOrderAsPaidInvariant(s, pid);
  }
}
