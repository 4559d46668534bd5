/**
 * `StripeEventParser`: the gate in front of the processor. With signature
 * verification switched on and a secret configured, the payload must come
 * with a non-empty `Stripe-Signature` header and pass Stripe's verifier;
 * otherwise the payload is parsed as it is. Both library calls stay opaque:
 * each is a function argument that answers None where the library throws.
 */
module EventParser {
  import opened Wrappers
  import opened StripeObjects

  /** The two settings of `StripeWebhookConfig` the parser reads. */
  datatype WebhookConfig = WebhookConfig(verifySignature: bool, secret: Option<string>)

  /** `hasValidSecret`: the secret is non-null and non-empty. */
  predicate HasValidSecret(config: WebhookConfig) {
    config.secret.Some? && config.secret.value != ""
  }

  /** Whether `parseEvent` takes the verifying path. */
  predicate Verifies(config: WebhookConfig) {
    config.verifySignature && HasValidSecret(config)
  }

  /**
   * `parseEventWithVerification`: a null or empty header is refused before
   * the verifier runs; otherwise the verifier's answer is returned as it is,
   * None standing for `SignatureVerificationException`.
   */
  function ParseWithVerification(payload: string, signatureHeader: Option<string>, secret: string,
                                 constructEvent: (string, string, string) -> Option<Event>): (r: Option<Event>)
    ensures (signatureHeader.None? || signatureHeader.value == "") ==> r.None?
    ensures r.Some? ==> signatureHeader.Some? && r == constructEvent(payload, signatureHeader.value, secret)
  {
    if signatureHeader.None? || signatureHeader.value == "" then None
    else constructEvent(payload, signatureHeader.value, secret)
  }

  /** `parseEventWithoutVerification`: the JSON reader's answer, None standing for any exception. */
  function ParseWithoutVerification(payload: string, readValue: string -> Option<Event>): Option<Event> {
    readValue(payload)
  }

  /** `parseEvent`: choose the path from the configuration alone. */
  function ParseEvent(config: WebhookConfig, payload: string, signatureHeader: Option<string>,
                      constructEvent: (string, string, string) -> Option<Event>,
                      readValue: string -> Option<Event>): (r: Option<Event>)
    ensures !Verifies(config) ==> r == readValue(payload)
    ensures Verifies(config) && r.Some? ==>
      signatureHeader.Some? && signatureHeader.value != ""
      && r == constructEvent(payload, signatureHeader.value, config.secret.value)
  {
    if Verifies(config) then ParseWithVerification(payload, signatureHeader, config.secret.value, constructEvent)
    else ParseWithoutVerification(payload, readValue)
  }

  /**
   * With verification off, or no secret configured, the verifier is never
   * consulted: any two verifiers give the same answer.
   */
  lemma UnverifiedPathIgnoresVerifier(config: WebhookConfig, payload: string, signatureHeader: Option<string>,
                                      verifier1: (string, string, string) -> Option<Event>,
                                      verifier2: (string, string, string) -> Option<Event>,
                                      readValue: string -> Option<Event>)
    requires !Verifies(config)
    ensures ParseEvent(config, payload, signatureHeader, verifier1, readValue)
         == ParseEvent(config, payload, signatureHeader, verifier2, readValue)
  {
  }

  /** On the verifying path the unchecked JSON reader is never consulted. */
  lemma VerifiedPathIgnoresReader(config: WebhookConfig, payload: string, signatureHeader: Option<string>,
                                  constructEvent: (string, string, string) -> Option<Event>,
                                  reader1: string -> Option<Event>, reader2: string -> Option<Event>)
    requires Verifies(config)
    ensures ParseEvent(config, payload, signatureHeader, constructEvent, reader1)
         == ParseEvent(config, payload, signatureHeader, constructEvent, reader2)
  {
  }

  /**
   * On the verifying path a missing or empty header yields no event, whatever
   * the verifier would have said and whatever the payload is.
   */
  lemma MissingHeaderRejected(config: WebhookConfig, payload: string, signatureHeader: Option<string>,
                              constructEvent: (string, string, string) -> Option<Event>,
                              readValue: string -> Option<Event>)
    requires Verifies(config)
    requires signatureHeader.None? || signatureHeader.value == ""
    ensures ParseEvent(config, payload, signatureHeader, constructEvent, readValue).None?
  {
  }

  /** On the verifying path with a header present, the verifier's event is passed through unchanged. */
  lemma VerifiedEventPassedThrough(config: WebhookConfig, payload: string, signatureHeader: Option<string>,
                                   constructEvent: (string, string, string) -> Option<Event>,
                                   readValue: string -> Option<Event>)
    requires Verifies(config) && signatureHeader.Some? && signatureHeader.value != ""
    ensures ParseEvent(config, payload, signatureHeader, constructEvent, readValue)
         == constructEvent(payload, signatureHeader.value, config.secret.value)
  {
  }

  /**
   * Switching verification on with an empty secret does not secure
   * anything: the payload is still read without a signature check.
   */
  lemma EmptySecretSkipsVerification(payload: string, signatureHeader: Option<string>,
                                     constructEvent: (string, string, string) -> Option<Event>,
                                     readValue: string -> Option<Event>)
    ensures ParseEvent(WebhookConfig(true, Some("")), payload, signatureHeader, constructEvent, readValue)
         == readValue(payload)
  {
  }
}
