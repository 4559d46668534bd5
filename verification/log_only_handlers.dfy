/**
 * `SubscriptionEventHandler`: six subscription event types, each only
 * logged. The handler holds no reference to the store.
 */
module SubscriptionEvents {
  import opened StripeObjects
  import opened EventHandler

  /** `getSupportedEventTypes()`. */
  const SupportedEventTypes: seq<string> := [
    "subscription.created",
    "subscription.updated",
    "subscription.deleted",
    "subscription.paused",
    "subscription.resumed",
    "subscription.trial_will_end"
  ]

  /** The cases of the switch in `handle`; `Unhandled` is its default. */
  datatype Branch = Created | Updated | Deleted | Paused | Resumed | TrialWillEnd | Unhandled

  /** The switch has a case for every supported type and for nothing else. */
  function Dispatch(eventType: string): (b: Branch)
    ensures b != Unhandled <==> eventType in SupportedEventTypes
  {
    if eventType == "subscription.created" then Created
    else if eventType == "subscription.updated" then Updated
    else if eventType == "subscription.deleted" then Deleted
    else if eventType == "subscription.paused" then Paused
    else if eventType == "subscription.resumed" then Resumed
    else if eventType == "subscription.trial_will_end" then TrialWillEnd
    else Unhandled
  }

  /**
   * `handle`: the cast to Subscription is the only thing that can fail;
   * every branch after it only logs.
   */
  function Handle(eventType: string, eventId: string, stripeObject: StripeObject): (outcome: HandleOutcome)
    ensures outcome == Handled <==> stripeObject.SubscriptionObject?
  {
    if stripeObject.SubscriptionObject? then Handled else ClassCastFailure
  }
}

/**
 * `CustomerEventHandler`: three customer event types, each only logged.
 * The handler holds no reference to the store.
 */
module CustomerEvents {
  import opened StripeObjects
  import opened EventHandler

  /** `getSupportedEventTypes()`. */
  const SupportedEventTypes: seq<string> := [
    "customer.created",
    "customer.updated",
    "customer.deleted"
  ]

  /** The cases of the switch in `handle`; `Unhandled` is its default. */
  datatype Branch = Created | Updated | Deleted | Unhandled

  /** The switch has a case for every supported type and for nothing else. */
  function Dispatch(eventType: string): (b: Branch)
    ensures b != Unhandled <==> eventType in SupportedEventTypes
  {
    if eventType == "customer.created" then Created
    else if eventType == "customer.updated" then Updated
    else if eventType == "customer.deleted" then Deleted
    else Unhandled
  }

  /**
   * `handle`: the cast to Customer is the only thing that can fail; every
   * branch after it only logs.
   */
  function Handle(eventType: string, eventId: string, stripeObject: StripeObject): (outcome: HandleOutcome)
    ensures outcome == Handled <==> stripeObject.CustomerObject?
  {
    if stripeObject.CustomerObject? then Handled else ClassCastFailure
  }
}
