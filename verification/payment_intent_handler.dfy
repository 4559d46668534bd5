/**
 * `PaymentIntentEventHandler`: five payment-intent event types. A succeeded
 * intent either marks an existing order paid or records a new completed
 * order; a failed one records a new failed order; the rest only log.
 */
module PaymentIntentEvents {
  import opened Wrappers
  import opened StripeObjects
  import opened EventHandler
  import Ledger
  import MockNetSuite

  /** `getSupportedEventTypes()`. */
  const SupportedEventTypes: seq<string> := [
    "payment_intent.succeeded",
    "payment_intent.payment_failed",
    "payment_intent.created",
    "payment_intent.canceled",
    "payment_intent.requires_action"
  ]

  /** The cases of the switch in `handle`; `Unhandled` is its default. */
  datatype Branch = Succeeded | PaymentFailed | Created | Canceled | RequiresAction | Unhandled

  /** The switch on the event type passed to `handle`. */
  function Dispatch(eventType: string): (b: Branch)
    ensures b != Unhandled <==> eventType in SupportedEventTypes
  {
    if eventType == "payment_intent.succeeded" then Succeeded
    else if eventType == "payment_intent.payment_failed" then PaymentFailed
    else if eventType == "payment_intent.created" then Created
    else if eventType == "payment_intent.canceled" then Canceled
    else if eventType == "payment_intent.requires_action" then RequiresAction
    else Unhandled
  }

  /**
   * The succeeded branch's test: the metadata carries an `orderId` that does
   * NOT start with `pending-`. Every intent created by
   * `OrderService.createOrder` carries a `pending-` placeholder, so this test
   * turns the reconciliation away from exactly the orders it is meant for.
   */
  predicate Reconciles(paymentIntent: PaymentIntent) {
    var orderId := MetadataGet(paymentIntent.metadata, "orderId");
    orderId.Some? && !StartsWith(orderId.value, "pending-")
  }

  /**
   * The test corrected: the metadata carries the `pending-` placeholder that
   * the order flow writes, so the intent belongs to an order pre-created by
   * that flow and is reconciled by payment id.
   */
  predicate ReconcilesCorrected(paymentIntent: PaymentIntent) {
    var orderId := MetadataGet(paymentIntent.metadata, "orderId");
    orderId.Some? && StartsWith(orderId.value, "pending-")
  }

  /** The order a succeeded intent records when it does not reconcile. */
  function CompletedOrder(paymentIntent: PaymentIntent): Ledger.OrderDto {
    Ledger.OrderDto(
      Some(paymentIntent.id), paymentIntent.customer, paymentIntent.amount, paymentIntent.currency,
      Some("PaymentIntent payment for " + paymentIntent.id), Some("completed"))
  }

  /** The last payment error's message, or "Unknown error" when there is no error (the message itself may be null). */
  function FailureMessage(paymentIntent: PaymentIntent): Option<string> {
    match paymentIntent.lastPaymentError
    case Some(error) => error.message
    case None => Some("Unknown error")
  }

  function FailedOrder(paymentIntent: PaymentIntent): Ledger.OrderDto {
    Ledger.OrderDto(
      Some(paymentIntent.id), paymentIntent.customer, paymentIntent.amount, paymentIntent.currency,
      Some("Failed PaymentIntent: " + JavaString(FailureMessage(paymentIntent))), Some("failed"))
  }

  /** The handler's own `findOrderByStripePaymentId`: a stub that finds nothing. */
  function LocalOrderLookup(stripePaymentId: string): Option<string> {
    None
  }

  /**
   * The single store call, if any, that `handle` makes for a payment intent,
   * given the outcome of the succeeded branch's reconciliation test.
   */
  function ActionWith(eventType: string, paymentIntent: PaymentIntent, reconciles: bool): Ledger.StoreCall {
    match Dispatch(eventType)
    case Succeeded =>
      if reconciles then Ledger.MarkOrderAsPaidCall(paymentIntent.id)
      else Ledger.CreateOrderCall(CompletedOrder(paymentIntent))
    case PaymentFailed =>
      (match LocalOrderLookup(paymentIntent.id)
       case Some(orderId) => Ledger.UpdateOrderStatusCall(orderId, "failed")
       case None => Ledger.CreateOrderCall(FailedOrder(paymentIntent)))
    case Created => Ledger.NoCall
    case Canceled => Ledger.NoCall
    case RequiresAction => Ledger.NoCall
    case Unhandled => Ledger.NoCall
  }

  /**
   * `handle`'s store call: only the succeeded and failed branches touch the
   * store, never by a status update, and whatever they record or mark paid
   * is keyed by the intent's own id.
   */
  function Action(eventType: string, paymentIntent: PaymentIntent): (call: Ledger.StoreCall)
    ensures call != Ledger.NoCall ==>
      eventType == "payment_intent.succeeded" || eventType == "payment_intent.payment_failed"
    ensures !call.UpdateOrderStatusCall?
    ensures call.MarkOrderAsPaidCall? ==> call.paymentId == paymentIntent.id
    ensures call.CreateOrderCall? ==> call.dto.stripePaymentId == Some(paymentIntent.id)
  {
    ActionWith(eventType, paymentIntent, Reconciles(paymentIntent))
  }

  /** `handle`'s store call with the corrected reconciliation test. */
  function ActionCorrected(eventType: string, paymentIntent: PaymentIntent): Ledger.StoreCall {
    ActionWith(eventType, paymentIntent, ReconcilesCorrected(paymentIntent))
  }

  /** What `handle` asks of the store for any Stripe object: nothing when the cast fails. */
  function Call(eventType: string, stripeObject: StripeObject): Ledger.StoreCall {
    if stripeObject.PaymentIntentObject? then Action(eventType, stripeObject.paymentIntent) else Ledger.NoCall
  }

  /** `handle`: cast the object, then make the branch's store call. */
  method Handle(store: MockNetSuite.MockNetSuiteService, eventType: string, eventId: string,
                stripeObject: StripeObject) returns (outcome: HandleOutcome)
    requires store.Valid()
    modifies store, store.orders.Values
    ensures store.Valid()
    ensures outcome == (if stripeObject.PaymentIntentObject? then Handled else ClassCastFailure)
    ensures store.State() == Ledger.ApplyCall(old(store.State()), Call(eventType, stripeObject))
  {
    if !stripeObject.PaymentIntentObject? {
      return ClassCastFailure;
    }
    var paymentIntent := stripeObject.paymentIntent;
    MockNetSuite.Invoke(store, Action(eventType, paymentIntent));
    return Handled;
  }

  /**
   * A succeeded intent is marked paid, by its own id, exactly when its
   * metadata orderId is present and not a `pending-` placeholder; otherwise
   * exactly one new "completed" order is recorded with the intent's id,
   * customer, amount and currency.
   */
  lemma SucceededBranch(paymentIntent: PaymentIntent)
    ensures var call := Action("payment_intent.succeeded", paymentIntent);
      && (call.MarkOrderAsPaidCall? <==> Reconciles(paymentIntent))
      && (call.MarkOrderAsPaidCall? ==> call.paymentId == paymentIntent.id)
      && (!Reconciles(paymentIntent) ==>
            && call.CreateOrderCall?
            && call.dto.status == Some("completed")
            && call.dto.stripePaymentId == Some(paymentIntent.id)
            && call.dto.stripeCustomerId == paymentIntent.customer
            && call.dto.amount == paymentIntent.amount
            && call.dto.currency == paymentIntent.currency
            && call.dto.description == Some("PaymentIntent payment for " + paymentIntent.id))
  {
  }

  /**
   * Corrected: a succeeded intent is marked paid, by its own id, exactly when
   * its metadata orderId is a `pending-` placeholder; otherwise it records
   * the same completed order as the handler does.
   */
  lemma SucceededBranchCorrected(paymentIntent: PaymentIntent)
    ensures var call := ActionCorrected("payment_intent.succeeded", paymentIntent);
      && (call.MarkOrderAsPaidCall? <==> ReconcilesCorrected(paymentIntent))
      && (call.MarkOrderAsPaidCall? ==> call.paymentId == paymentIntent.id)
      && (!ReconcilesCorrected(paymentIntent) ==> call == Ledger.CreateOrderCall(CompletedOrder(paymentIntent)))
  {
  }

  /**
   * A failed intent always records a new "failed" order, because the local
   * lookup never finds one; the description names the error message,
   * "null" when the error has no message, or "Unknown error" when there is
   * no last payment error.
   */
  lemma PaymentFailedBranch(paymentIntent: PaymentIntent)
    ensures var call := Action("payment_intent.payment_failed", paymentIntent);
      && call.CreateOrderCall?
      && call.dto.status == Some("failed")
      && call.dto.stripePaymentId == Some(paymentIntent.id)
      && call.dto.stripeCustomerId == paymentIntent.customer
      && call.dto.amount == paymentIntent.amount
      && call.dto.currency == paymentIntent.currency
      && (paymentIntent.lastPaymentError.None? ==>
            call.dto.description == Some("Failed PaymentIntent: Unknown error"))
      && (paymentIntent.lastPaymentError.Some? && paymentIntent.lastPaymentError.value.message.None? ==>
            call.dto.description == Some("Failed PaymentIntent: null"))
      && (paymentIntent.lastPaymentError.Some? && paymentIntent.lastPaymentError.value.message.Some? ==>
            call.dto.description == Some("Failed PaymentIntent: " + paymentIntent.lastPaymentError.value.message.value))
  {
    assert "Failed PaymentIntent: " + "Unknown error" == "Failed PaymentIntent: Unknown error";
    assert "Failed PaymentIntent: " + "null" == "Failed PaymentIntent: null";
  }

  /** The handler and its correction differ only in the succeeded branch. */
  lemma OtherBranchesUnaffected(eventType: string, paymentIntent: PaymentIntent)
    requires eventType != "payment_intent.succeeded"
    ensures ActionCorrected(eventType, paymentIntent) == Action(eventType, paymentIntent)
  {
  }

  /** Created, canceled, requires_action and unknown types make no store call. */
  lemma LogOnlyBranches(eventType: string, paymentIntent: PaymentIntent)
    requires eventType != "payment_intent.succeeded" && eventType != "payment_intent.payment_failed"
    ensures Action(eventType, paymentIntent) == Ledger.NoCall
  {
  }
}
