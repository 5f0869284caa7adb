/** Payload objects as the job record sees them: a class name plus the set of
    optional methods the object responds to, each with what calling it does.
    Also the YAML codec (left uninterpreted) and the lazily decoded
    `payload_object` of a record. */
module Payloads {
  import opened Outcomes

  /** The lifecycle hooks `hook` may dispatch to. */
  datatype Hook = Enqueue | Before | Success | Error | After

  /** A hook method the payload defines: its Ruby arity and what calling it does. */
  datatype HookMethod = HookMethod(arity: int, outcome: Outcome)

  /** A payload object. Each optional method is present or absent, which is
      what `respond_to?` asks. */
  datatype Payload = Payload(
    className: string,                  // `payload_object.class.name`
    perform: Option<Outcome>,           // `perform`, and how it ends
    hooks: map<Hook, HookMethod>,       // the hook methods it defines
    displayName: Option<string>,        // `display_name`, when defined
    reschedules: bool,                  // defines its own `reschedule_at`
    maxAttempts: Option<int>)           // `max_attempts`, when defined

  /** `payload.respond_to?(:perform)` */
  predicate Performs(p: Payload) {
    p.perform.Some?
  }

  /** The observable effects of the job code, in order: calls of hook methods,
      the call of `perform`, and writes to the store. */
  datatype CallArgs = NoArgs | JobAnd(extra: seq<Exception>)
  datatype Event = Called(hook: Hook, args: CallArgs) | Performed | Saved

  /** `to_yaml` and `YAML.load`: a foreign library, so any pair of functions. */
  datatype Codec = Codec(encode: Payload -> string, decode: string -> Result<Payload>)

  /** The codec reconstructs every payload it encoded. */
  ghost predicate RoundTrips(c: Codec) {
    forall p :: c.decode(c.encode(p)) == Ok(p)
  }

  /** The exception classes `payload_object` turns into a DeserializationError. */
  predicate RescuedOnLoad(k: ExceptionKind) {
    IsA(k, TypeError) || IsA(k, LoadError) || IsA(k, NameError) || IsA(k, ArgumentError)
  }

  /** `handler.inspect`, without Ruby's escaping of special characters. */
  function Inspect(s: string): string {
    "\"" + s + "\""
  }

  /** The message of the DeserializationError raised for a failed load. */
  function LoadFailureMessage(cause: string, handler: string): string {
    "Job failed to load: " + cause + ". Handler: " + Inspect(handler)
  }

  /** What `payload_object` yields for a record whose memoised payload is
      `cache` and whose serialised form is `handler`. */
  function Materialize(cache: Option<Payload>, handler: string, decode: string -> Result<Payload>): (r: Result<Payload>)
    // A memoised payload is returned without decoding.
    ensures cache.Some? ==> r == Ok(cache.value)
    // Otherwise a successful decoding is the answer.
    ensures cache.None? && decode(handler).Ok? ==> r == decode(handler)
    // Load errors of the rescued classes reach the caller as a DeserializationError ...
    ensures cache.None? && decode(handler).Err? && RescuedOnLoad(decode(handler).error.kind) ==>
              r == Err(Exception(DeserializationError, LoadFailureMessage(decode(handler).error.message, handler)))
    // ... and every other load error passes through unchanged.
    ensures cache.None? && decode(handler).Err? && !RescuedOnLoad(decode(handler).error.kind) ==>
              r == decode(handler)
    ensures r.Err? ==> !RescuedOnLoad(r.error.kind)
  {
    match cache
    case Some(p) => Ok(p)
    case None =>
      match decode(handler)
      case Ok(p) => Ok(p)
      case Err(e) =>
        if RescuedOnLoad(e.kind)
        then Err(Exception(DeserializationError, LoadFailureMessage(e.message, handler)))
        else Err(e)
  }

  /** Decoding again after the cache is dropped gives back what was encoded. */
  lemma ReloadRoundTrip(c: Codec, p: Payload)
    requires RoundTrips(c)
    ensures Materialize(None, c.encode(p), c.decode) == Ok(p)
  {
    assert c.decode(c.encode(p)) == Ok(p);
  }
}
