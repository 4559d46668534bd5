/**
 * End-to-end behaviour of the checkout flow and the webhook pipeline over
 * the store's abstract state: an order pre-created by `OrderService`, then
 * the `payment_intent.succeeded` webhook Stripe sends for its intent, and
 * what replaying webhooks does.
 */
module Pipeline {
  import opened Wrappers
  import opened StripeObjects
  import opened Ledger
  import OrderService
  import PaymentIntentEvents
  import ChargeEvents
  import EventProcessor

  /** The intent Stripe reports back carries the id and metadata `createOrder` gave it. */
  predicate EchoesCheckout(paymentIntent: PaymentIntent, request: OrderService.CreateOrderRequest,
                           nowMillis: nat, intent: OrderService.CreatedIntent) {
    paymentIntent.id == intent.id
    && paymentIntent.metadata
       == OrderService.IntentParamsFor(request, OrderService.PlaceholderOrderId(nowMillis)).metadata
  }

  /** The store right after `createOrder` recorded its pending order for the intent. */
  ghost function AfterCheckout(s: Store, request: OrderService.CreateOrderRequest,
                               intent: OrderService.CreatedIntent): Store {
    CreatePendingOrder(s, request.amount, request.currency, request.description, intent.id).store
  }

  /** The metadata orderId of such an intent is the `pending-` placeholder. */
  lemma CheckoutIntentIsPlaceholder(paymentIntent: PaymentIntent, request: OrderService.CreateOrderRequest,
                                    nowMillis: nat, intent: OrderService.CreatedIntent)
    requires EchoesCheckout(paymentIntent, request, nowMillis, intent)
    ensures !PaymentIntentEvents.Reconciles(paymentIntent)
    ensures PaymentIntentEvents.ReconcilesCorrected(paymentIntent)
  {
    OrderService.MetadataOrderIdIsPlaceholder(request, nowMillis);
  }

  /**
   * As written: when the payment for a checkout order succeeds, the
   * pre-created order stays "pending" and a second, "completed" order is
   * recorded beside it, invisible to lookup by payment id.
   */
  lemma CheckoutPaymentAsWritten(s: Store, request: OrderService.CreateOrderRequest, nowMillis: nat,
                                 intent: OrderService.CreatedIntent, paymentIntent: PaymentIntent)
    requires Invariant(s)
    requires EchoesCheckout(paymentIntent, request, nowMillis, intent)
    ensures var before := AfterCheckout(s, request, intent);
      var after := ApplyCall(before, PaymentIntentEvents.Action("payment_intent.succeeded", paymentIntent));
      && FindOrderByStripePaymentIntentId(after, intent.id) == FindOrderByStripePaymentIntentId(before, intent.id)
      && FindOrderByStripePaymentIntentId(after, intent.id).Some?
      && FindOrderByStripePaymentIntentId(after, intent.id).value.status == Some("pending")
      && |after.orders| == |s.orders| + 2
  {
    var before := AfterCheckout(s, request, intent);
    CreatePendingOrderIndexed(s, request.amount, request.currency, request.description, intent.id);
    CreatePendingOrderInvariant(s, request.amount, request.currency, request.description, intent.id);
    CheckoutIntentIsPlaceholder(paymentIntent, request, nowMillis, intent);
    var dto := PaymentIntentEvents.CompletedOrder(paymentIntent);
    assert PaymentIntentEvents.Action("payment_intent.succeeded", paymentIntent) == CreateOrderCall(dto);
    CreateOrderAddsOne(before, dto);
    CreateOrderInvisibleToLookup(before, dto, intent.id);
  }

  /**
   * Corrected: when the payment for a checkout order succeeds, that same
   * order becomes "paid" with its other fields unchanged, and no order is
   * added.
   */
  lemma CheckoutPaymentMarksPaid(s: Store, request: OrderService.CreateOrderRequest, nowMillis: nat,
                                 intent: OrderService.CreatedIntent, paymentIntent: PaymentIntent)
    requires Invariant(s)
    requires EchoesCheckout(paymentIntent, request, nowMillis, intent)
    ensures var before := AfterCheckout(s, request, intent);
      var after := ApplyCall(before, PaymentIntentEvents.ActionCorrected("payment_intent.succeeded", paymentIntent));
      && FindOrderByStripePaymentIntentId(before, intent.id).Some?
      && FindOrderByStripePaymentIntentId(after, intent.id)
         == Some(FindOrderByStripePaymentIntentId(before, intent.id).value.(status := Some("paid")))
      && after.orders.Keys == before.orders.Keys
      && |after.orders| == |s.orders| + 1
  {
    CorrectedActionMarksPaid(paymentIntent, request, nowMillis, intent);
    PendingThenPaid(s, request, intent);
  }

  /** Marking the intent's payment paid right after checkout finds the pending order and changes only its status. */
  lemma PendingThenPaid(s: Store, request: OrderService.CreateOrderRequest, intent: OrderService.CreatedIntent)
    requires Invariant(s)
    ensures var before := AfterCheckout(s, request, intent);
      var after := MarkOrderAsPaid(before, intent.id).store;
      && FindOrderByStripePaymentIntentId(before, intent.id).Some?
      && FindOrderByStripePaymentIntentId(after, intent.id)
         == Some(FindOrderByStripePaymentIntentId(before, intent.id).value.(status := Some("paid")))
      && after.orders.Keys == before.orders.Keys
      && |after.orders| == |s.orders| + 1
  {
    var before := AfterCheckout(s, request, intent);
    CreatePendingOrderIndexed(s, request.amount, request.currency, request.description, intent.id);
    CreatePendingOrderInvariant(s, request.amount, request.currency, request.description, intent.id);
    MarkOrderAsPaidFrame(before, intent.id);
  }

  /** Under the corrected test, the webhook for a checkout intent marks that intent's order paid. */
  lemma CorrectedActionMarksPaid(paymentIntent: PaymentIntent, request: OrderService.CreateOrderRequest,
                                 nowMillis: nat, intent: OrderService.CreatedIntent)
    requires EchoesCheckout(paymentIntent, request, nowMillis, intent)
    ensures PaymentIntentEvents.ActionCorrected("payment_intent.succeeded", paymentIntent) == MarkOrderAsPaidCall(intent.id)
  {
    CheckoutIntentIsPlaceholder(paymentIntent, request, nowMillis, intent);
  }

  /**
   * When the succeeded branch reconciles (a metadata orderId that is not a
   * `pending-` placeholder), replaying the webhook changes nothing more: the
   * second delivery leaves the state of the first.
   */
  lemma CheckoutPaymentReplayIdempotent(s: Store, paymentIntent: PaymentIntent)
    requires PaymentIntentEvents.Reconciles(paymentIntent)
    ensures var call := PaymentIntentEvents.Action("payment_intent.succeeded", paymentIntent);
      ApplyCall(ApplyCall(s, call), call) == ApplyCall(s, call)
  {
    MarkOrderAsPaidIdempotent(s, paymentIntent.id);
  }

  /**
   * A succeeded intent that does not reconcile (no orderId, or a `pending-`
   * placeholder as on every checkout intent) takes the fallback, and there
   * is no event deduplication: each delivery records one more order.
   */
  lemma FallbackReplayDuplicates(s: Store, paymentIntent: PaymentIntent)
    requires Invariant(s)
    requires !PaymentIntentEvents.Reconciles(paymentIntent)
    ensures var call := PaymentIntentEvents.Action("payment_intent.succeeded", paymentIntent);
      |ApplyCall(ApplyCall(s, call), call).orders| == |s.orders| + 2
  {
    var dto := PaymentIntentEvents.CompletedOrder(paymentIntent);
    var once := CreateOrder(s, dto).store;
    CreateOrderAddsOne(s, dto);
    CreateOrderInvariant(s, dto);
    CreateOrderAddsOne(once, dto);
  }

  /**
   * A refunded charge reaches the charge handler and still leaves the store
   * as it was, whatever order the handlers are listed in.
   */
  lemma RefundLeavesStore(handlers: seq<EventProcessor.HandlerKind>, event: Event)
    requires event.eventType == Some("charge.refunded")
    ensures EventProcessor.EventCall(handlers, event) == NoCall
  {
    var found := EventProcessor.FindHandler(handlers, event.eventType);
    if found.Some? && EventProcessor.Deserialize(event).Some? {
      if found.value != EventProcessor.ChargeHandler {
        EventProcessor.SupportedListsDisjoint(EventProcessor.ChargeHandler, found.value, "charge.refunded");
      } else {
        var stripeObject := EventProcessor.Deserialize(event).value;
        if stripeObject.ChargeObject? {
          ChargeEvents.NoCallBranches("charge.refunded", stripeObject.charge);
        }
      }
    }
  }
}
