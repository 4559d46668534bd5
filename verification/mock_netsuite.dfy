/**
 * `MockNetSuiteService`: the in-memory ledger. Its three maps and two counters
 * are fields that the methods reassign; stored orders are `Order` objects that
 * `updateOrderStatus` and `markOrderAsPaid` change in place. Through the
 * abstract view `State()`, each of `CreateOrder`, `UpdateOrderStatus`,
 * `CreatePendingOrder`, `MarkOrderAsPaid`, `ResolveCustomer` and the two
 * lookups is proved against the function of the same name in module Ledger,
 * and the constructor, `InitializeSampleData` and `ClearData` against
 * `Ledger.SampleData`; the other methods state their effect on the fields.
 */
module MockNetSuite {
  import opened Wrappers
  import opened OrderModel
  import Ledger

  /** Every order of a map replaced by its current fields. */
  ghost function Views(m: map<string, Order>): (r: map<string, OrderRecord>)
    reads m.Values
    ensures r.Keys == m.Keys
  {
    map k | k in m :: m[k].View()
  }

  /** No two ids share one Order object, so changing one order changes one entry. */
  ghost predicate Unaliased(m: map<string, Order>) {
    forall k1, k2 | k1 in m && k2 in m && k1 != k2 :: m[k1] != m[k2]
  }

  /** Storing a new object under a new key adds one view and keeps the map unaliased. */
  lemma OrderAdded(m: map<string, Order>, key: string, order: Order)
    requires key !in m && order !in m.Values && Unaliased(m)
    ensures Views(m[key := order]) == Views(m)[key := order.View()]
    ensures Unaliased(m[key := order])
  {
  }

  /** The views after the order under `key`, and no other, got a new status. */
  lemma StatusChanged(m: map<string, Order>, before: map<string, OrderRecord>, key: string, newStatus: string)
    requires key in before && m.Keys == before.Keys
    requires m[key].View() == before[key].(status := Some(newStatus))
    requires forall k | k in m && k != key :: m[k].View() == before[k]
    ensures Views(m) == before[key := before[key].(status := Some(newStatus))]
  {
  }

  class MockNetSuiteService {
    var orders: map<string, Order>
    var ordersByStripePaymentId: map<string, string>
    var customers: map<string, Ledger.Customer>
    var orderCounter: nat
    var customerCounter: nat

    /** The store as a value: every stored order replaced by its current fields. */
    ghost function State(): Ledger.Store
      reads this, orders.Values
    {
      Ledger.Store(Views(orders), ordersByStripePaymentId, customers, orderCounter, customerCounter)
    }

    /**
     * The class invariant: no two ids share one Order object, and the store's
     * value keeps the ledger invariant (orders under their own ids, every id
     * one the counters have produced and none they will produce later, the
     * payment-id index pointing at stored orders, customers keyed and unique
     * by Stripe id).
     */
    ghost predicate Valid()
      reads this, orders.Values
    {
      Unaliased(orders) && Ledger.Invariant(State())
    }

    constructor ()
      ensures Valid() && State() == Ledger.SampleData()
    {
      orders, ordersByStripePaymentId, customers := map[], map[], map[];
      orderCounter, customerCounter := 0, 0;
      new;
      InitializeSampleData();
    }

    /**
     * Fills empty maps with two customers and one pending order, then sets the
     * order counter to 1 and the customer counter to 2.
     */
    method InitializeSampleData()
      requires orders == map[] && ordersByStripePaymentId == map[] && customers == map[]
      modifies this
      ensures Valid() && State() == Ledger.SampleData()
    {
      PutSampleCustomers(Ledger.SampleCustomer1, Ledger.SampleCustomer2);
      PutSampleOrder(Ledger.SampleOrder);
      Ledger.SampleDataInvariant();
    }

    /** Two customers, each put under its own id, and the customer counter at 2. */
    method PutSampleCustomers(customer1: Ledger.Customer, customer2: Ledger.Customer)
      requires customers == map[]
      modifies this
      ensures customers == map[][customer1.id := customer1][customer2.id := customer2] && customerCounter == 2
      ensures orders == old(orders) && ordersByStripePaymentId == old(ordersByStripePaymentId)
    {
      customers := customers[customer1.id := customer1];
      customers := customers[customer2.id := customer2];
      customerCounter := 2;
    }

    /**
     * An order built from `fields`, the four-argument constructor first and
     * then one setter per remaining field, stored under its id and indexed by
     * its payment id; the order counter at 1.
     */
    method PutSampleOrder(fields: OrderRecord)
      requires fields.id.Some? && fields.stripePaymentId.Some?
      requires orders == map[] && ordersByStripePaymentId == map[]
      modifies this
      ensures Unaliased(orders) && Views(orders) == map[][fields.id.value := fields]
      ensures ordersByStripePaymentId == map[][fields.stripePaymentId.value := fields.id.value]
      ensures orderCounter == 1
      ensures customers == old(customers) && customerCounter == old(customerCounter)
    {
      var order1 := NewOrderFromFour(fields);
      OrderAdded(orders, fields.id.value, order1);
      orders := orders[fields.id.value := order1];
      ordersByStripePaymentId := ordersByStripePaymentId[fields.stripePaymentId.value := fields.id.value];
      orderCounter := 1;
    }

    /** Empties the three maps, resets both counters and loads the sample data again. */
    method ClearData()
      modifies this
      ensures Valid() && State() == Ledger.SampleData()
    {
      orders := map[];
      ordersByStripePaymentId := map[];
      customers := map[];
      orderCounter := 0;
      customerCounter := 0;
      InitializeSampleData();
    }

    /** A search over the customers in the map's (unspecified) iteration order. */
    method FindCustomerByStripeId(stripeCustomerId: string) returns (r: Option<string>)
      requires Ledger.CustomersKeyed(customers, customerCounter) && Ledger.StripeCustomersUnique(customers)
      ensures r == Ledger.FindCustomerByStripeId(customers, stripeCustomerId)
    {
      var unseen := customers.Keys;
      while unseen != {}
        invariant unseen <= customers.Keys
        invariant forall k | k in customers && k !in unseen :: customers[k].stripeCustomerId != Some(stripeCustomerId)
        decreases unseen
      {
        var k :| k in unseen;
        var customer := customers[k];
        if customer.stripeCustomerId == Some(stripeCustomerId) {
          return Some(customer.id);
        }
        unseen := unseen - {k};
      }
      return None;
    }

    /** Adds customer `MOCK-CUST-n` for the next counter value n. */
    method CreateMockCustomer(stripeCustomerId: string) returns (customerId: string)
      modifies this
      ensures customerCounter == old(customerCounter) + 1
      ensures customerId == Ledger.CustomerKey(customerCounter)
      ensures customers == old(customers)[customerId := Ledger.NewCustomer(customerCounter, stripeCustomerId)]
      ensures orders == old(orders) && ordersByStripePaymentId == old(ordersByStripePaymentId)
      ensures orderCounter == old(orderCounter)
    {
      customerCounter := customerCounter + 1;
      customerId := Ledger.CustomerKey(customerCounter);
      var customer := Ledger.NewCustomer(customerCounter, stripeCustomerId);
      customers := customers[customerId := customer];
    }

    /** The customer step of createOrder: find, or else create, the customer holding a Stripe id. */
    method ResolveCustomer(stripeCustomerId: Option<string>) returns (customerId: Option<string>)
      requires Ledger.CustomersKeyed(customers, customerCounter) && Ledger.StripeCustomersUnique(customers)
      modifies this
      ensures (customers, customerCounter, customerId)
           == Ledger.ResolveCustomer(old(customers), old(customerCounter), stripeCustomerId)
      ensures Ledger.CustomersKeyed(customers, customerCounter) && Ledger.StripeCustomersUnique(customers)
      ensures orders == old(orders) && ordersByStripePaymentId == old(ordersByStripePaymentId)
      ensures orderCounter == old(orderCounter)
    {
      ghost var resolved := Ledger.ResolveCustomer(customers, customerCounter, stripeCustomerId);
      Ledger.ResolveCustomerInvariant(customers, customerCounter, stripeCustomerId);
      customerId := stripeCustomerId;
      if customerId.Some? && customerId.value != "" {
        customerId := FindCustomerByStripeId(customerId.value);
        if customerId.None? {
          var created := CreateMockCustomer(stripeCustomerId.value);
          customerId := Some(created);
        }
      }
      assert (customers, customerCounter, customerId) == resolved;
    }

    /**
     * `++orderCounter` and `orders.put(id, order)` for a new order already
     * carrying the id the counter yields next.
     */
    method StoreNext(order: Order)
      requires Valid() && order !in orders.Values
      requires order.id == Some(Ledger.OrderKey(orderCounter + 1))
      modifies this
      ensures Valid()
      ensures orderCounter == old(orderCounter) + 1
      ensures orders == old(orders)[Ledger.OrderKey(orderCounter) := order]
      ensures State() == old(State()).(orders := old(State()).orders[Ledger.OrderKey(orderCounter) := order.View()],
                                       orderCounter := orderCounter)
    {
      var orderId := Ledger.OrderKey(orderCounter + 1);
      Ledger.OrdersKeyedGrow(State().orders, orderCounter, order.View());
      OrderAdded(orders, orderId, order);
      orders, orderCounter := orders[orderId := order], orderCounter + 1;
    }

    /** `ordersByStripePaymentId.put(paymentId, orderId)` for a stored order. */
    method IndexPayment(paymentId: string, orderId: string)
      requires Valid() && orderId in orders
      modifies this
      ensures Valid() && orders == old(orders)
      ensures State() == old(State()).(ordersByStripePaymentId := old(ordersByStripePaymentId)[paymentId := orderId])
    {
      ordersByStripePaymentId := ordersByStripePaymentId[paymentId := orderId];
    }

    method CreateOrder(dto: Ledger.OrderDto) returns (order: Order)
      requires Valid()
      modifies this
      ensures Valid() && fresh(order)
      ensures State() == Ledger.CreateOrder(old(State()), dto).store
      ensures order.View() == Ledger.CreateOrder(old(State()), dto).order
    {
      ghost var created := Ledger.CreateOrder(State(), dto);
      ghost var views := Views(orders);
      var orderId := Ledger.OrderKey(orderCounter + 1);

      var customerId := ResolveCustomer(dto.stripeCustomerId);
      assert customerId == created.order.customerId;
      assert Views(orders) == views;

      order := NewOrder(OrderRecord(Some(orderId), Some(dto.status.GetOr("pending")), dto.amount,
                                    Some(dto.currency.GetOr("usd")), customerId, dto.stripePaymentId,
                                    dto.description));
      assert order.View() == created.order;
      assert Views(orders) == views;
      StoreNext(order);
      assert orderId == Ledger.OrderKey(orderCounter);
      assert Views(orders) == views[orderId := created.order];
    }

    /** `order.setStatus(status)` then `orders.put(order.getId(), order)`, for an order the store holds. */
    method SetStatusAndPut(order: Order, status: string)
      requires Valid() && order.id.Some? && order.id.value in orders && orders[order.id.value] == order
      modifies this, order
      ensures Valid() && orders == old(orders)
      ensures State() == Ledger.UpdateOrderStatus(old(State()), old(order.id.value), status).store
    {
      ghost var key := order.id.value;
      Ledger.UpdateOrderStatusInvariant(State(), key, status);
      ghost var before := State().orders;
      order.SetStatus(Some(status));
      orders := orders[order.id.value := order];
      StatusChanged(orders, before, key, status);
    }

    method UpdateOrderStatus(orderId: string, status: string) returns (r: Option<Order>)
      requires Valid()
      modifies this, orders.Values
      ensures Valid()
      ensures State() == Ledger.UpdateOrderStatus(old(State()), orderId, status).store
      ensures r.None? <==> orderId !in orders
      ensures (if r.Some? then Some(r.value.View()) else None) == Ledger.UpdateOrderStatus(old(State()), orderId, status).order
      ensures r.Some? ==> r.value == orders[orderId]
    {
      if orderId !in orders {
        return None;
      }
      var order := orders[orderId];
      SetStatusAndPut(order, status);
      return Some(order);
    }

    method GetOrder(orderId: string) returns (r: Option<Order>)
      ensures r.Some? <==> orderId in State().orders
      ensures r.Some? ==> r.value == orders[orderId] && r.value.View() == State().orders[orderId]
    {
      if orderId in orders {
        return Some(orders[orderId]);
      }
      return None;
    }

    method GetCustomer(customerId: string) returns (r: Option<Ledger.Customer>)
      ensures r.Some? <==> customerId in customers
      ensures r.Some? ==> r.value == customers[customerId]
    {
      if customerId in customers {
        return Some(customers[customerId]);
      }
      return None;
    }

    method CreatePendingOrder(amount: Option<int>, currency: Option<string>, description: Option<string>,
                              stripePaymentIntentId: Option<string>, uuidHex: string) returns (order: Order)
      requires Valid()
      requires stripePaymentIntentId.None? ==> |uuidHex| >= 24
      modifies this
      ensures Valid() && fresh(order)
      ensures var c := Ledger.CreatePendingOrder(old(State()), amount, currency, description,
                                                 Ledger.PendingPaymentId(stripePaymentIntentId, uuidHex));
        State() == c.store && order.View() == c.order
    {
      var stripePaymentId := Ledger.PendingPaymentId(stripePaymentIntentId, uuidHex);
      var orderId := Ledger.OrderKey(orderCounter + 1);
      var customerId := "MOCK-CUST-001";
      order := NewOrder(OrderRecord(Some(orderId), Some("pending"), amount, Some(currency.GetOr("usd")),
                                    Some(customerId), Some(stripePaymentId), description));
      StoreNext(order);
      IndexPayment(stripePaymentId, orderId);
    }

    method FindOrderByStripePaymentIntentId(paymentId: string) returns (r: Option<Order>)
      ensures r.Some? <==> paymentId in ordersByStripePaymentId && ordersByStripePaymentId[paymentId] in orders
      ensures r.Some? ==> r.value == orders[ordersByStripePaymentId[paymentId]]
      ensures (if r.Some? then Some(r.value.View()) else None)
           == Ledger.FindOrderByStripePaymentIntentId(State(), paymentId)
    {
      if paymentId in ordersByStripePaymentId {
        var orderId := ordersByStripePaymentId[paymentId];
        if orderId in orders {
          return Some(orders[orderId]);
        }
      }
      return None;
    }

    method MarkOrderAsPaid(paymentId: string) returns (r: Option<Order>)
      requires Valid()
      modifies this, orders.Values
      ensures Valid()
      ensures State() == Ledger.MarkOrderAsPaid(old(State()), paymentId).store
      ensures r.None? <==> paymentId !in ordersByStripePaymentId
      ensures (if r.Some? then Some(r.value.View()) else None) == Ledger.MarkOrderAsPaid(old(State()), paymentId).order
      ensures r.Some? ==> r.value == orders[ordersByStripePaymentId[paymentId]]
    {
      var found := FindOrderByStripePaymentIntentId(paymentId);
      if found.None? {
        return None;
      }
      var order := found.value;
      Ledger.MarkOrderAsPaidIsUpdate(State(), paymentId);
      SetStatusAndPut(order, "paid");
      return Some(order);
    }
  }

  /** A handler's single call through the NetSuiteService interface. */
  method Invoke(store: MockNetSuiteService, call: Ledger.StoreCall)
    requires store.Valid()
    modifies store, store.orders.Values
    ensures store.Valid()
    ensures store.State() == Ledger.ApplyCall(old(store.State()), call)
  {
    match call
    case NoCall =>
    case CreateOrderCall(dto) =>
      var created := store.CreateOrder(dto);
    case UpdateOrderStatusCall(orderId, status) =>
      var updated := store.UpdateOrderStatus(orderId, status);
    case MarkOrderAsPaidCall(paymentId) =>
      var paid := store.MarkOrderAsPaid(paymentId);
  }
}
