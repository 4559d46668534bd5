/**
 * `InvoiceEventHandler`: eight invoice event types. Created, finalized, paid
 * and payment_failed each record a new order, with the currency defaulting
 * to "usd"; the rest only log.
 */
module InvoiceEvents {
  import opened Wrappers
  import opened StripeObjects
  import opened EventHandler
  import Ledger
  import MockNetSuite

  /** `getSupportedEventTypes()`. */
  const SupportedEventTypes: seq<string> := [
    "invoice.created",
    "invoice.finalized",
    "invoice.paid",
    "invoice.payment_failed",
    "invoice.voided",
    "invoice.deleted",
    "invoice.marked_uncollectible",
    "invoice.payment_action_required"
  ]

  /** The cases of the switch in `handle`; `Unhandled` is its default. */
  datatype Branch = Created | Finalized | Paid | PaymentFailed | Voided | Deleted | PaymentActionRequired | Unhandled

  /**
   * The switch on the event type. `invoice.marked_uncollectible` is
   * supported but has no case of its own, so it reaches the default.
   */
  function Dispatch(eventType: string): (b: Branch)
    ensures b != Unhandled <==> eventType in SupportedEventTypes && eventType != "invoice.marked_uncollectible"
  {
    if eventType == "invoice.created" then Created
    else if eventType == "invoice.finalized" then Finalized
    else if eventType == "invoice.paid" then Paid
    else if eventType == "invoice.payment_failed" then PaymentFailed
    else if eventType == "invoice.voided" then Voided
    else if eventType == "invoice.deleted" then Deleted
    else if eventType == "invoice.payment_action_required" then PaymentActionRequired
    else Unhandled
  }

  /**
   * The order every creating branch records: the invoice id as payment id,
   * its customer and total, its currency or else "usd", the branch's
   * description prefix before the invoice number, and the branch's status.
   */
  function InvoiceOrder(invoice: Invoice, descriptionPrefix: string, status: string): Ledger.OrderDto {
    Ledger.OrderDto(
      Some(invoice.id), invoice.customer, invoice.total, Some(invoice.currency.GetOr("usd")),
      Some(descriptionPrefix + JavaString(invoice.number)), Some(status))
  }

  /** The single store call, if any, that `handle` makes for an invoice. */
  function Action(eventType: string, invoice: Invoice): Ledger.StoreCall {
    match Dispatch(eventType)
    case Created => Ledger.CreateOrderCall(InvoiceOrder(invoice, "Invoice: ", "pending"))
    case Finalized => Ledger.CreateOrderCall(InvoiceOrder(invoice, "Finalized Invoice: ", "finalized"))
    case Paid => Ledger.CreateOrderCall(InvoiceOrder(invoice, "Paid Invoice: ", "completed"))
    case PaymentFailed => Ledger.CreateOrderCall(InvoiceOrder(invoice, "Failed Invoice: ", "failed"))
    case Voided => Ledger.NoCall
    case Deleted => Ledger.NoCall
    case PaymentActionRequired => Ledger.NoCall
    case Unhandled => Ledger.NoCall
  }

  /** What `handle` asks of the store for any Stripe object: nothing when the cast fails. */
  function Call(eventType: string, stripeObject: StripeObject): Ledger.StoreCall {
    if stripeObject.InvoiceObject? then Action(eventType, stripeObject.invoice) else Ledger.NoCall
  }

  /** `handle`: cast the object, then make the branch's store call. */
  method Handle(store: MockNetSuite.MockNetSuiteService, eventType: string, eventId: string,
                stripeObject: StripeObject) returns (outcome: HandleOutcome)
    requires store.Valid()
    modifies store, store.orders.Values
    ensures store.Valid()
    ensures outcome == (if stripeObject.InvoiceObject? then Handled else ClassCastFailure)
    ensures store.State() == Ledger.ApplyCall(old(store.State()), Call(eventType, stripeObject))
  {
    if !stripeObject.InvoiceObject? {
      return ClassCastFailure;
    }
    var invoice := stripeObject.invoice;
    MockNetSuite.Invoke(store, Action(eventType, invoice));
    return Handled;
  }

  /**
   * The four creating types each record one new order, never an update, with
   * status pending, finalized, completed or failed respectively, the invoice
   * id as payment id, and "usd" when the invoice has no currency.
   */
  lemma CreatingBranches(eventType: string, invoice: Invoice)
    requires eventType in ["invoice.created", "invoice.finalized", "invoice.paid", "invoice.payment_failed"]
    ensures var call := Action(eventType, invoice);
      && call.CreateOrderCall?
      && call.dto.stripePaymentId == Some(invoice.id)
      && call.dto.stripeCustomerId == invoice.customer
      && call.dto.amount == invoice.total
      && call.dto.currency == Some(if invoice.currency.Some? then invoice.currency.value else "usd")
      && call.dto.status == Some(
           if eventType == "invoice.created" then "pending"
           else if eventType == "invoice.finalized" then "finalized"
           else if eventType == "invoice.paid" then "completed"
           else "failed")
  {
  }

  /** Voided, deleted, payment_action_required, marked_uncollectible and unknown types make no store call. */
  lemma NoCallBranches(eventType: string, invoice: Invoice)
    requires eventType !in ["invoice.created", "invoice.finalized", "invoice.paid", "invoice.payment_failed"]
    ensures Action(eventType, invoice) == Ledger.NoCall
  {
  }
}
