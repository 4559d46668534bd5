/**
 * `OrderService.createOrder`: the checkout flow. It builds a placeholder
 * order id from the clock, creates a Stripe PaymentIntent whose metadata
 * carries that placeholder, and only then records a pending order under the
 * intent's real id. The clock reading and `PaymentIntent.create` are
 * arguments; `create` answers None where the library throws
 * `StripeException`.
 */
module OrderService {
  import opened Wrappers
  import opened Decimal
  import opened StripeObjects
  import Ledger
  import MockNetSuite

  /** The frontend's request; `customerEmail` is carried but never read. */
  datatype CreateOrderRequest = CreateOrderRequest(
    amount: Option<int>, currency: Option<string>, description: Option<string>, customerEmail: Option<string>)

  /** What `createStripePaymentIntent` hands to `PaymentIntent.create`. */
  datatype IntentParams = IntentParams(
    amount: Option<int>,
    currency: string,
    metadata: map<string, string>,
    description: Option<string>,
    automaticPaymentMethodsEnabled: bool)

  /** The part of the created PaymentIntent that `createOrder` reads. */
  datatype CreatedIntent = CreatedIntent(id: string, clientSecret: Option<string>)

  /** `CreateOrderResponse`. */
  datatype CreateOrderResponse = CreateOrderResponse(
    orderId: string, status: string, amount: Option<int>, currency: string,
    clientSecret: Option<string>, paymentIntentId: string)

  /** `createOrder` propagates the Stripe library's exception. */
  datatype OrderFailure = StripeException

  /** `"pending-" + System.currentTimeMillis()`. */
  function PlaceholderOrderId(nowMillis: nat): (r: string)
    ensures StartsWith(r, "pending-") && IsPadded(r[8..], 1) && Value(r[8..]) == nowMillis
  {
    ValueOfDigits(nowMillis);
    "pending-" + Digits(nowMillis)
  }

  /** The placeholder is never the id of a stored order. */
  lemma PlaceholderIsNotOrderKey(nowMillis: nat, n: nat)
    ensures PlaceholderOrderId(nowMillis) != Ledger.OrderKey(n)
  {
    assert PlaceholderOrderId(nowMillis)[0] == 'p';
    assert Ledger.OrderKey(n)[0] == 'M';
  }

  /** Whether the request carries a description worth sending: non-null and non-empty. */
  predicate HasDescription(request: CreateOrderRequest) {
    request.description.Some? && request.description.value != ""
  }

  /**
   * `createStripePaymentIntent`'s parameters: the amount, the currency or
   * else "usd", the order id under "orderId" in the metadata, automatic
   * payment methods on, and the description both in the metadata and on the
   * intent exactly when it is non-null and non-empty.
   */
  function IntentParamsFor(request: CreateOrderRequest, orderId: string): (p: IntentParams)
    ensures p.amount == request.amount
    ensures p.currency == (if request.currency.Some? then request.currency.value else "usd")
    ensures p.automaticPaymentMethodsEnabled
    ensures "orderId" in p.metadata && p.metadata["orderId"] == orderId
    ensures HasDescription(request) ==>
      p.metadata == map["orderId" := orderId, "description" := request.description.value]
      && p.description == request.description
    ensures !HasDescription(request) ==> p.metadata == map["orderId" := orderId] && p.description.None?
  {
    var params := IntentParams(request.amount, request.currency.GetOr("usd"), map["orderId" := orderId], None, true);
    if HasDescription(request) then
      params.(metadata := params.metadata["description" := request.description.value],
              description := request.description)
    else
      params
  }

  /**
   * `createOrder`: when the Stripe call fails nothing is stored; otherwise
   * one pending order is stored and indexed under the intent's real id, and
   * the response reports that order's id, status "pending", the requested
   * amount, the currency or else "usd", and the intent's client secret and
   * id.
   */
  method CreateOrder(store: MockNetSuite.MockNetSuiteService, request: CreateOrderRequest, nowMillis: nat,
                     create: IntentParams -> Option<CreatedIntent>)
    returns (r: Result<CreateOrderResponse, OrderFailure>)
    requires store.Valid()
    modifies store
    ensures store.Valid()
    ensures var intent := create(IntentParamsFor(request, PlaceholderOrderId(nowMillis)));
      && (intent.None? ==> r == Failure(StripeException) && store.State() == old(store.State()))
      && (intent.Some? ==>
            && store.State() == Ledger.CreatePendingOrder(old(store.State()), request.amount, request.currency,
                                                          request.description, intent.value.id).store
            && r == Success(CreateOrderResponse(
                 Ledger.OrderKey(old(store.orderCounter) + 1), "pending", request.amount,
                 request.currency.GetOr("usd"), intent.value.clientSecret, intent.value.id)))
  {
    var tempOrderId := PlaceholderOrderId(nowMillis);
    var paymentIntent := create(IntentParamsFor(request, tempOrderId));
    if paymentIntent.None? {
      return Failure(StripeException);
    }
    var paymentIntentId := paymentIntent.value.id;
    var orderId := RecordPendingOrder(store, request, paymentIntentId);
    return Success(CreateOrderResponse(orderId, "pending", request.amount, request.currency.GetOr("usd"),
                                       paymentIntent.value.clientSecret, paymentIntentId));
  }

  /**
   * Step 2 of `createOrder`: `createPendingOrder` with the intent's real id,
   * answering the new order's id.
   */
  method RecordPendingOrder(store: MockNetSuite.MockNetSuiteService, request: CreateOrderRequest,
                            paymentIntentId: string) returns (orderId: string)
    requires store.Valid()
    modifies store
    ensures store.Valid()
    ensures store.State() == Ledger.CreatePendingOrder(old(store.State()), request.amount, request.currency,
                                                       request.description, paymentIntentId).store
    ensures orderId == Ledger.OrderKey(old(store.orderCounter) + 1)
  {
    ghost var created := Ledger.CreatePendingOrder(store.State(), request.amount, request.currency,
                                                   request.description, paymentIntentId);
    assert Ledger.PendingPaymentId(Some(paymentIntentId), "") == paymentIntentId;
    var pendingOrder := store.CreatePendingOrder(request.amount, request.currency, request.description,
                                                 Some(paymentIntentId), "");
    assert pendingOrder.View() == created.order;
    orderId := pendingOrder.id.value;
  }

  /**
   * The orderId Stripe echoes back in the intent's metadata is the
   * placeholder, so the succeeded-payment reconciliation never fires for an
   * intent created here.
   */
  lemma MetadataOrderIdIsPlaceholder(request: CreateOrderRequest, nowMillis: nat)
    ensures var metadata := IntentParamsFor(request, PlaceholderOrderId(nowMillis)).metadata;
      MetadataGet(metadata, "orderId").Some?
      && StartsWith(MetadataGet(metadata, "orderId").value, "pending-")
  {
  }
}
