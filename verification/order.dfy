/**
 * The ledger's mutable order entity. The store keeps these objects in its
 * map and changes them in place, so an `Order` is a class; `OrderRecord` is
 * the value of its fields at one moment, used by the specifications.
 */
module OrderModel {
  import opened Wrappers

  /** The fields of an order. Every one of them may be null in Java. */
  datatype OrderRecord = OrderRecord(
    id: Option<string>,
    status: Option<string>,
    amount: Option<int>,
    currency: Option<string>,
    customerId: Option<string>,
    stripePaymentId: Option<string>,
    description: Option<string>)

  /** What a freshly constructed, not yet filled order holds. */
  const NoFields := OrderRecord(None, None, None, None, None, None, None)

  class Order {
    var id: Option<string>
    var status: Option<string>
    var amount: Option<int>
    var currency: Option<string>
    var customerId: Option<string>
    var stripePaymentId: Option<string>
    var description: Option<string>

    /** The current field values. */
    function View(): OrderRecord
      reads this
    {
      OrderRecord(id, status, amount, currency, customerId, stripePaymentId, description)
    }

    /** `new Order()`: every field null. */
    constructor Empty()
      ensures View() == NoFields
    {
      id, status, amount, currency := None, None, None, None;
      customerId, stripePaymentId, description := None, None, None;
    }

    /** `new Order(id, status, amount, currency)`: the other three fields stay null. */
    constructor (id: Option<string>, status: Option<string>, amount: Option<int>, currency: Option<string>)
      ensures View() == NoFields.(id := id, status := status, amount := amount, currency := currency)
    {
      this.id, this.status, this.amount, this.currency := id, status, amount, currency;
      customerId, stripePaymentId, description := None, None, None;
    }

    method SetId(v: Option<string>)
      modifies this
      ensures View() == old(View()).(id := v)
    {
      id := v;
    }

    method SetStatus(v: Option<string>)
      modifies this
      ensures View() == old(View()).(status := v)
    {
      status := v;
    }

    method SetAmount(v: Option<int>)
      modifies this
      ensures View() == old(View()).(amount := v)
    {
      amount := v;
    }

    method SetCurrency(v: Option<string>)
      modifies this
      ensures View() == old(View()).(currency := v)
    {
      currency := v;
    }

    method SetCustomerId(v: Option<string>)
      modifies this
      ensures View() == old(View()).(customerId := v)
    {
      customerId := v;
    }

    method SetStripePaymentId(v: Option<string>)
      modifies this
      ensures View() == old(View()).(stripePaymentId := v)
    {
      stripePaymentId := v;
    }

    method SetDescription(v: Option<string>)
      modifies this
      ensures View() == old(View()).(description := v)
    {
      description := v;
    }
  }

  /** `new Order()` followed by one setter call per field, the way the store builds a new order. */
  method NewOrder(fields: OrderRecord) returns (order: Order)
    ensures fresh(order) && order.View() == fields
  {
    order := new Order.Empty();
    order.SetId(fields.id);
    order.SetStatus(fields.status);
    order.SetAmount(fields.amount);
    order.SetCurrency(fields.currency);
    order.SetCustomerId(fields.customerId);
    order.SetStripePaymentId(fields.stripePaymentId);
    order.SetDescription(fields.description);
  }

  /**
   * `new Order(id, status, amount, currency)` followed by the setters of the
   * other three fields, the way the sample order is built.
   */
  method NewOrderFromFour(fields: OrderRecord) returns (order: Order)
    ensures fresh(order) && order.View() == fields
  {
    order := new Order(fields.id, fields.status, fields.amount, fields.currency);
    order.SetCustomerId(fields.customerId);
    order.SetStripePaymentId(fields.stripePaymentId);
    order.SetDescription(fields.description);
  }
}
