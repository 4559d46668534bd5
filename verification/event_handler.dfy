/**
 * What every webhook handler shares: the `canHandle` membership test of
 * `AbstractStripeEventHandler`, and the two ways a `handle` call can end.
 */
module EventHandler {
  import opened Wrappers

  /**
   * `handle` either runs to its end or stops at its first statement, the
   * cast of the Stripe object to the handler's own type, with a
   * ClassCastException that `processEvent` does not catch.
   */
  datatype HandleOutcome = Handled | ClassCastFailure

  /**
   * `canHandle`: walks the supported list and answers true at the first entry
   * equal to the event type. `supported.equals(eventType)` is false for a null
   * event type, and the comparison is exact: no prefix, wildcard or case folding.
   */
  function CanHandle(supported: seq<string>, eventType: Option<string>): (r: bool)
    ensures r <==> eventType.Some? && eventType.value in supported
  {
    if supported == [] then false
    else if Some(supported[0]) == eventType then true
    else CanHandle(supported[1..], eventType)
  }

  /** The answer depends on which types are listed, not on their order. */
  lemma CanHandleOrderFree(a: seq<string>, b: seq<string>, eventType: Option<string>)
    requires multiset(a) == multiset(b)
    ensures CanHandle(a, eventType) == CanHandle(b, eventType)
  {
    if eventType.Some? {
      assert eventType.value in a <==> eventType.value in multiset(a);
      assert eventType.value in b <==> eventType.value in multiset(b);
    }
  }
}
