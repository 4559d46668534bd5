/**
 * The parts of Stripe's objects that the webhook handlers read, and the two
 * bits of Java string behaviour they rely on: `+` with a null operand and
 * `startsWith`.
 */
module StripeObjects {
  import opened Wrappers

  /** `PaymentIntent.getLastPaymentError()`: only its message is read. */
  datatype PaymentError = PaymentError(message: Option<string>)

  /** A payment intent: id, customer id, amount (Long), currency, metadata and last error. */
  datatype PaymentIntent = PaymentIntent(
    id: string,
    customer: Option<string>,
    amount: Option<int>,
    currency: Option<string>,
    metadata: map<string, string>,
    lastPaymentError: Option<PaymentError>)

  datatype Charge = Charge(
    id: string,
    customer: Option<string>,
    amount: Option<int>,
    currency: Option<string>,
    failureMessage: Option<string>)

  datatype Invoice = Invoice(
    id: string,
    customer: Option<string>,
    total: Option<int>,
    currency: Option<string>,
    number: Option<string>)

  /**
   * The deserialized data object of an event. Subscriptions and customers
   * are only logged, so nothing of them is kept; `OtherObject` is any other
   * Stripe type, which every handler's cast rejects.
   */
  datatype StripeObject =
    | PaymentIntentObject(paymentIntent: PaymentIntent)
    | ChargeObject(charge: Charge)
    | InvoiceObject(invoice: Invoice)
    | SubscriptionObject
    | CustomerObject
    | OtherObject

  /**
   * A Stripe event. `safeObject` is what the deserializer's `getObject()`
   * yields; `unsafeObject` is the result of `deserializeUnsafe()`, None when
   * that call throws.
   */
  datatype Event = Event(
    id: string,
    eventType: Option<string>,
    safeObject: Option<StripeObject>,
    unsafeObject: Option<StripeObject>)

  /** `String.valueOf(s)`: how Java's `+` renders a possibly null string. */
  function JavaString(s: Option<string>): (r: string)
    ensures s.Some? ==> r == s.value
    ensures s.None? ==> r == "null"
  {
    s.GetOr("null")
  }

  /** `s.startsWith(prefix)`. */
  predicate StartsWith(s: string, prefix: string) {
    |prefix| <= |s| && s[..|prefix|] == prefix
  }

  /** `metadata.get(key)`: null when the key is absent. */
  function MetadataGet(metadata: map<string, string>, key: string): (r: Option<string>)
    ensures r.Some? <==> key in metadata
    ensures r.Some? ==> r.value == metadata[key]
  {
    if key in metadata then Some(metadata[key]) else None
  }
}
