/**
 * `StripeEventProcessor`: deserialize the event's object, find the first
 * handler in list order that claims the event type, and call its `handle`
 * once. The handler list is whatever the container injects; it is a
 * parameter here.
 */
module EventProcessor {
  import opened Wrappers
  import opened StripeObjects
  import opened EventHandler
  import Ledger
  import MockNetSuite
  import PaymentIntentEvents
  import ChargeEvents
  import InvoiceEvents
  import SubscriptionEvents
  import CustomerEvents

  /** The five handler implementations that can appear in the injected list. */
  datatype HandlerKind =
    | PaymentIntentHandler
    | ChargeHandler
    | InvoiceHandler
    | SubscriptionHandler
    | CustomerHandler

  /** Each handler's `getSupportedEventTypes()`. */
  function SupportedEventTypes(handler: HandlerKind): seq<string> {
    match handler
    case PaymentIntentHandler => PaymentIntentEvents.SupportedEventTypes
    case ChargeHandler => ChargeEvents.SupportedEventTypes
    case InvoiceHandler => InvoiceEvents.SupportedEventTypes
    case SubscriptionHandler => SubscriptionEvents.SupportedEventTypes
    case CustomerHandler => CustomerEvents.SupportedEventTypes
  }

  /** `handler.canHandle(eventType)`. */
  predicate Claims(handler: HandlerKind, eventType: Option<string>) {
    CanHandle(SupportedEventTypes(handler), eventType)
  }

  /**
   * `findHandler`: the first handler in list order that claims the type;
   * None exactly when no handler in the list claims it.
   */
  function FindHandler(handlers: seq<HandlerKind>, eventType: Option<string>): (r: Option<HandlerKind>)
    ensures r.Some? ==> r.value in handlers && Claims(r.value, eventType)
    ensures r.None? <==> forall h :: h in handlers ==> !Claims(h, eventType)
  {
    if handlers == [] then None
    else if Claims(handlers[0], eventType) then Some(handlers[0])
    else FindHandler(handlers[1..], eventType)
  }

  /** The handler found is the one at the first index that claims the type. */
  lemma {:induction false} FindHandlerFirstMatch(handlers: seq<HandlerKind>, eventType: Option<string>, i: nat)
    requires i < |handlers| && Claims(handlers[i], eventType)
    requires forall j :: 0 <= j < i ==> !Claims(handlers[j], eventType)
    ensures FindHandler(handlers, eventType) == Some(handlers[i])
  {
    if i > 0 {
      assert !Claims(handlers[0], eventType);
      forall j | 0 <= j < i - 1
        ensures !Claims(handlers[1..][j], eventType)
      {
        assert handlers[1..][j] == handlers[j + 1];
      }
      FindHandlerFirstMatch(handlers[1..], eventType, i - 1);
    }
  }

  /** The first two letters every type on a handler's list begins with. */
  function Initials(handler: HandlerKind): (char, char) {
    match handler
    case PaymentIntentHandler => ('p', 'a')
    case ChargeHandler => ('c', 'h')
    case InvoiceHandler => ('i', 'n')
    case SubscriptionHandler => ('s', 'u')
    case CustomerHandler => ('c', 'u')
  }

  /** Every listed type begins with its handler's initials. */
  lemma ListedTypesHaveInitials(handler: HandlerKind, eventType: string)
    ensures eventType in SupportedEventTypes(handler) ==>
      |eventType| >= 2 && (eventType[0], eventType[1]) == Initials(handler)
  {
  }

  /** No event type is listed by two different handlers. */
  lemma SupportedListsDisjoint(h1: HandlerKind, h2: HandlerKind, eventType: string)
    requires h1 != h2 && eventType in SupportedEventTypes(h1)
    ensures eventType !in SupportedEventTypes(h2)
  {
    ListedTypesHaveInitials(h1, eventType);
    ListedTypesHaveInitials(h2, eventType);
  }

  /** A claimed type is claimed by one handler only, so routing has one possible answer. */
  lemma ClaimedByOne(h1: HandlerKind, h2: HandlerKind, eventType: Option<string>)
    requires Claims(h1, eventType) && Claims(h2, eventType)
    ensures h1 == h2
  {
    if h1 != h2 {
      SupportedListsDisjoint(h1, h2, eventType.value);
    }
  }

  /**
   * Routing does not depend on the order of the injected list: two lists
   * holding the same handlers route every type to the same handler.
   */
  lemma FindHandlerOrderFree(a: seq<HandlerKind>, b: seq<HandlerKind>, eventType: Option<string>)
    requires multiset(a) == multiset(b)
    ensures FindHandler(a, eventType) == FindHandler(b, eventType)
  {
    var ra, rb := FindHandler(a, eventType), FindHandler(b, eventType);
    if ra.Some? {
      SameMembers(a, b, ra.value);
      ClaimedByOne(ra.value, rb.value, eventType);
    } else {
      forall h | h in b
        ensures !Claims(h, eventType)
      {
        SameMembers(a, b, h);
      }
    }
  }

  /** Two lists with the same multiset of handlers have the same members. */
  lemma SameMembers(a: seq<HandlerKind>, b: seq<HandlerKind>, handler: HandlerKind)
    requires multiset(a) == multiset(b)
    ensures handler in a <==> handler in b
  {
    assert handler in a <==> handler in multiset(a);
    assert handler in b <==> handler in multiset(b);
  }

  /** A listed handler receives every type on its own supported list. */
  lemma RoutesToOwner(handlers: seq<HandlerKind>, handler: HandlerKind, eventType: string)
    requires handler in handlers && eventType in SupportedEventTypes(handler)
    ensures FindHandler(handlers, Some(eventType)) == Some(handler)
  {
    ClaimedByOne(FindHandler(handlers, Some(eventType)).value, handler, Some(eventType));
  }

  /**
   * `customer.subscription.created` is on no handler's list: the customer
   * handler matches exactly, not by prefix, so the type goes unrouted.
   */
  lemma CustomerSubscriptionUnclaimed(handlers: seq<HandlerKind>)
    ensures FindHandler(handlers, Some("customer.subscription.created")) == None
  {
    var eventType := "customer.subscription.created";
    forall h | h in handlers
      ensures !Claims(h, Some(eventType))
    {
      ListedTypesHaveInitials(h, eventType);
    }
  }

  /**
   * `deserializeEventData`: the safely deserialized object when there is
   * one, otherwise the unsafe attempt, which yields None when it throws.
   */
  function Deserialize(event: Event): (r: Option<StripeObject>)
    ensures event.safeObject.Some? ==> r == event.safeObject
    ensures event.safeObject.None? ==> r == event.unsafeObject
  {
    if event.safeObject.Some? then event.safeObject else event.unsafeObject
  }

  /** What `processEvent` did with an event. */
  datatype ProcessOutcome =
    | NotDeserialized
    | NoHandler
    | Dispatched(handler: HandlerKind, outcome: HandleOutcome)

  /** The cast each handler's `handle` performs first. */
  function HandlerOutcome(handler: HandlerKind, stripeObject: StripeObject): (r: HandleOutcome)
    ensures r == Handled <==>
      match handler
      case PaymentIntentHandler => stripeObject.PaymentIntentObject?
      case ChargeHandler => stripeObject.ChargeObject?
      case InvoiceHandler => stripeObject.InvoiceObject?
      case SubscriptionHandler => stripeObject.SubscriptionObject?
      case CustomerHandler => stripeObject.CustomerObject?
  {
    match handler
    case PaymentIntentHandler => if stripeObject.PaymentIntentObject? then Handled else ClassCastFailure
    case ChargeHandler => if stripeObject.ChargeObject? then Handled else ClassCastFailure
    case InvoiceHandler => if stripeObject.InvoiceObject? then Handled else ClassCastFailure
    case SubscriptionHandler => SubscriptionEvents.Handle("", "", stripeObject)
    case CustomerHandler => CustomerEvents.Handle("", "", stripeObject)
  }

  /** The store call a handler's `handle` makes; the subscription and customer handlers make none. */
  function HandlerCall(handler: HandlerKind, eventType: string, stripeObject: StripeObject): Ledger.StoreCall {
    match handler
    case PaymentIntentHandler => PaymentIntentEvents.Call(eventType, stripeObject)
    case ChargeHandler => ChargeEvents.Call(eventType, stripeObject)
    case InvoiceHandler => InvoiceEvents.Call(eventType, stripeObject)
    case SubscriptionHandler => Ledger.NoCall
    case CustomerHandler => Ledger.NoCall
  }

  /** The store call, if any, that processing an event makes. */
  function EventCall(handlers: seq<HandlerKind>, event: Event): Ledger.StoreCall {
    match Deserialize(event)
    case None => Ledger.NoCall
    case Some(stripeObject) =>
      (match FindHandler(handlers, event.eventType)
       case None => Ledger.NoCall
       case Some(handler) => HandlerCall(handler, event.eventType.value, stripeObject))
  }

  /** `handler.handle(eventType, eventId, stripeObject)`, dispatched on the handler's class. */
  method InvokeHandler(store: MockNetSuite.MockNetSuiteService, handler: HandlerKind, eventType: string,
                       eventId: string, stripeObject: StripeObject) returns (result: HandleOutcome)
    requires store.Valid()
    modifies store, store.orders.Values
    ensures store.Valid()
    ensures result == HandlerOutcome(handler, stripeObject)
    ensures store.State() == Ledger.ApplyCall(old(store.State()), HandlerCall(handler, eventType, stripeObject))
  {
    match handler
    case PaymentIntentHandler =>
      result := PaymentIntentEvents.Handle(store, eventType, eventId, stripeObject);
    case ChargeHandler =>
      result := ChargeEvents.Handle(store, eventType, eventId, stripeObject);
    case InvoiceHandler =>
      result := InvoiceEvents.Handle(store, eventType, eventId, stripeObject);
    case SubscriptionHandler =>
      result := SubscriptionEvents.Handle(eventType, eventId, stripeObject);
    case CustomerHandler =>
      result := CustomerEvents.Handle(eventType, eventId, stripeObject);
  }

  /**
   * `processEvent`: an event whose object cannot be deserialized reaches no
   * handler; an unclaimed type reaches no handler; otherwise the first
   * claiming handler's `handle` runs once, on the event's own type and
   * object.
   */
  method ProcessEvent(store: MockNetSuite.MockNetSuiteService, handlers: seq<HandlerKind>, event: Event)
    returns (outcome: ProcessOutcome)
    requires store.Valid()
    modifies store, store.orders.Values
    ensures store.Valid()
    ensures store.State() == Ledger.ApplyCall(old(store.State()), EventCall(handlers, event))
    ensures Deserialize(event).None? ==> outcome == NotDeserialized
    ensures Deserialize(event).Some? && FindHandler(handlers, event.eventType).None? ==> outcome == NoHandler
    ensures Deserialize(event).Some? && FindHandler(handlers, event.eventType).Some? ==>
      outcome == Dispatched(FindHandler(handlers, event.eventType).value,
                            HandlerOutcome(FindHandler(handlers, event.eventType).value, Deserialize(event).value))
  {
    var stripeObject := Deserialize(event);
    if stripeObject.None? {
      return NotDeserialized;
    }
    var handler := FindHandler(handlers, event.eventType);
    if handler.None? {
      return NoHandler;
    }
    var result := InvokeHandler(store, handler.value, event.eventType.value, event.id, stripeObject.value);
    return Dispatched(handler.value, result);
  }

  /**
   * Only payment-intent, charge and invoice events can change the store:
   * subscription and customer events, and events that reach no handler,
   * leave it as it was.
   */
  lemma StoreChangedOnlyByLedgerHandlers(handlers: seq<HandlerKind>, event: Event)
    requires Deserialize(event).None?
      || FindHandler(handlers, event.eventType).None?
      || FindHandler(handlers, event.eventType).value in {SubscriptionHandler, CustomerHandler}
    ensures EventCall(handlers, event) == Ledger.NoCall
  {
  }
}
