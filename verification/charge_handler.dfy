/**
 * `ChargeEventHandler`: six charge event types. A succeeded or failed charge
 * records a new order; a refund looks for the order through a stub that
 * never finds one, so it changes nothing; the rest only log.
 */
module ChargeEvents {
  import opened Wrappers
  import opened StripeObjects
  import opened EventHandler
  import Ledger
  import MockNetSuite

  /** `getSupportedEventTypes()`. */
  const SupportedEventTypes: seq<string> := [
    "charge.succeeded",
    "charge.failed",
    "charge.refunded",
    "charge.captured",
    "charge.updated",
    "charge.dispute.created"
  ]

  /** The cases of the switch in `handle`; `Unhandled` is its default. */
  datatype Branch = Succeeded | Failed | Refunded | Captured | Updated | Unhandled

  /**
   * The switch on the event type. `charge.dispute.created` is supported but
   * has no case of its own, so it reaches the default.
   */
  function Dispatch(eventType: string): (b: Branch)
    ensures b != Unhandled <==> eventType in SupportedEventTypes && eventType != "charge.dispute.created"
  {
    if eventType == "charge.succeeded" then Succeeded
    else if eventType == "charge.failed" then Failed
    else if eventType == "charge.refunded" then Refunded
    else if eventType == "charge.captured" then Captured
    else if eventType == "charge.updated" then Updated
    else Unhandled
  }

  function CompletedOrder(charge: Charge): Ledger.OrderDto {
    Ledger.OrderDto(
      Some(charge.id), charge.customer, charge.amount, charge.currency,
      Some("Charge payment for " + charge.id), Some("completed"))
  }

  /** A null failure message reads "null" in the description. */
  function FailedOrder(charge: Charge): Ledger.OrderDto {
    Ledger.OrderDto(
      Some(charge.id), charge.customer, charge.amount, charge.currency,
      Some("Failed Charge: " + JavaString(charge.failureMessage)), Some("failed"))
  }

  /** The handler's own `findOrderByStripePaymentId`: a stub that finds nothing. */
  function LocalOrderLookup(stripePaymentId: string): Option<string> {
    None
  }

  /** The single store call, if any, that `handle` makes for a charge. */
  function Action(eventType: string, charge: Charge): Ledger.StoreCall {
    match Dispatch(eventType)
    case Succeeded => Ledger.CreateOrderCall(CompletedOrder(charge))
    case Failed => Ledger.CreateOrderCall(FailedOrder(charge))
    case Refunded =>
      (match LocalOrderLookup(charge.id)
       case Some(orderId) => Ledger.UpdateOrderStatusCall(orderId, "refunded")
       case None => Ledger.NoCall)
    case Captured => Ledger.NoCall
    case Updated => Ledger.NoCall
    case Unhandled => Ledger.NoCall
  }

  /** What `handle` asks of the store for any Stripe object: nothing when the cast fails. */
  function Call(eventType: string, stripeObject: StripeObject): Ledger.StoreCall {
    if stripeObject.ChargeObject? then Action(eventType, stripeObject.charge) else Ledger.NoCall
  }

  /** `handle`: cast the object, then make the branch's store call. */
  method Handle(store: MockNetSuite.MockNetSuiteService, eventType: string, eventId: string,
                stripeObject: StripeObject) returns (outcome: HandleOutcome)
    requires store.Valid()
    modifies store, store.orders.Values
    ensures store.Valid()
    ensures outcome == (if stripeObject.ChargeObject? then Handled else ClassCastFailure)
    ensures store.State() == Ledger.ApplyCall(old(store.State()), Call(eventType, stripeObject))
  {
    if !stripeObject.ChargeObject? {
      return ClassCastFailure;
    }
    var charge := stripeObject.charge;
    MockNetSuite.Invoke(store, Action(eventType, charge));
    return Handled;
  }

  /** A succeeded charge records one "completed" order whose payment id is the charge id. */
  lemma SucceededBranch(charge: Charge)
    ensures var call := Action("charge.succeeded", charge);
      && call.CreateOrderCall?
      && call.dto.status == Some("completed")
      && call.dto.stripePaymentId == Some(charge.id)
      && call.dto.stripeCustomerId == charge.customer
      && call.dto.amount == charge.amount && call.dto.currency == charge.currency
  {
  }

  /** A failed charge records one "failed" order described by the failure message. */
  lemma FailedBranch(charge: Charge)
    ensures var call := Action("charge.failed", charge);
      && call.CreateOrderCall?
      && call.dto.status == Some("failed")
      && call.dto.stripePaymentId == Some(charge.id)
      && (charge.failureMessage.Some? ==>
            call.dto.description == Some("Failed Charge: " + charge.failureMessage.value))
      && (charge.failureMessage.None? ==> call.dto.description == Some("Failed Charge: null"))
  {
    assert "Failed Charge: " + "null" == "Failed Charge: null";
  }

  /** Every type other than succeeded and failed, refunded included, makes no store call. */
  lemma NoCallBranches(eventType: string, charge: Charge)
    requires eventType != "charge.succeeded" && eventType != "charge.failed"
    ensures Action(eventType, charge) == Ledger.NoCall
  {
  }
}
