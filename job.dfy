/** The job record (`Delayed::Backend::Base`, instance side): its columns,
    the memoised payload object and name, and the methods that update them
    in place. The store behind the record is not modelled: a write to it is
    reported as a `Saved` event, and its clock reading is an argument. */
module Jobs {
  import opened Outcomes
  import opened Payloads
  import opened Naming
  import opened Retry
  import opened Hooks

  /** The persisted columns of a record. */
  datatype Row = Row(
    handler: string,
    priority: Option<int>,
    queue: Option<string>,
    runAt: Option<int>,
    lockedAt: Option<int>,
    lockedBy: Option<string>,
    attempts: int,
    failedAt: Option<int>)

  class Job {
    /** The YAML codec the record serialises its payload with. */
    const codec: Codec

    var handler: string
    var priority: Option<int>
    var queue: Option<string>
    var runAt: Option<int>
    var lockedAt: Option<int>
    var lockedBy: Option<string>
    var attempts: int
    var failedAt: Option<int>
    /** `@payload_object`, the memoised decoding of `handler`. */
    var payloadCache: Option<Payload>
    /** `@name`, the memoised display name. */
    var nameCache: Option<string>

    function Columns(): Row
      reads this
    {
      Row(handler, priority, queue, runAt, lockedAt, lockedBy, attempts, failedAt)
    }

    /** What `payload_object` answers in the current state. */
    function Lookup(): Result<Payload>
      reads this
    {
      Materialize(payloadCache, handler, codec.decode)
    }

    /** A new, unsaved record with no attribute set. */
    constructor (codec: Codec)
      ensures this.codec == codec
      ensures Columns() == Row("", None, None, None, None, None, 0, None)
      ensures payloadCache == None && nameCache == None
    {
      this.codec := codec;
      handler, priority, queue, runAt := "", None, None, None;
      lockedAt, lockedBy, attempts, failedAt := None, None, 0, None;
      payloadCache, nameCache := None, None;
    }

    /** `failed?`: `!!failed_at`, a boolean that is true exactly when a
        failure time is recorded. */
    predicate Failed(): (b: bool)
      reads this
      ensures b <==> failedAt != None
    {
      match failedAt
      case Some(_) => true
      case None => false
    }

    /** `unlock`: releases the lease in memory; nothing is saved. */
    method Unlock()
      modifies this`lockedAt, this`lockedBy
      ensures lockedAt == None && lockedBy == None
      ensures Columns() == old(Columns()).(lockedAt := None, lockedBy := None)
      ensures Failed() == old(Failed())
    {
      lockedAt := None;
      lockedBy := None;
    }

    /** `fail!`: stamps `failed_at` with the store's clock and saves it. */
    method Fail(now: int) returns (effects: seq<Event>)
      modifies this`failedAt
      ensures failedAt == Some(now) && Failed()
      ensures Columns() == old(Columns()).(failedAt := Some(now))
      ensures effects == [Saved]
    {
      failedAt := Some(now);
      effects := [Saved];
    }

    /** `set_default_run_at`: a record without a run time runs now. */
    method SetDefaultRunAt(now: int)
      modifies this`runAt
      ensures runAt.Some?
      ensures old(runAt).Some? ==> runAt == old(runAt)
      ensures old(runAt).None? ==> runAt == Some(now)
    {
      if runAt.None? {
        runAt := Some(now);
      }
    }

    /** `reset`: drops the memoised payload, so the next lookup decodes `handler`. */
    method Reset()
      modifies this`payloadCache
      ensures payloadCache == None
      ensures Lookup() == Materialize(None, handler, codec.decode)
      ensures RoundTrips(codec) && old(payloadCache).Some? && handler == codec.encode(old(payloadCache).value)
              ==> Lookup() == old(Lookup())
    {
      payloadCache := None;
      if RoundTrips(codec) && old(payloadCache).Some? && handler == codec.encode(old(payloadCache).value) {
        ReloadRoundTrip(codec, old(payloadCache).value);
      }
    }

    /** `payload_object=`: keeps the object and serialises it into `handler`. */
    method SetPayloadObject(p: Payload)
      modifies this`payloadCache, this`handler
      ensures payloadCache == Some(p) && handler == codec.encode(p)
      ensures Lookup() == Ok(p)
      ensures RoundTrips(codec) ==> Materialize(None, handler, codec.decode) == Ok(p)
      ensures Columns() == old(Columns()).(handler := codec.encode(p))
    {
      payloadCache := Some(p);
      handler := codec.encode(p);
      if RoundTrips(codec) {
        ReloadRoundTrip(codec, p);
      }
    }

    /** `payload_object`: the memoised payload, or the decoding of `handler`,
        memoised when it succeeds. */
    method PayloadObject() returns (r: Result<Payload>)
      modifies this`payloadCache
      ensures r == old(Lookup()) && Lookup() == r
      ensures payloadCache == if r.Ok? then Some(r.value) else old(payloadCache)
    {
      if payloadCache.Some? {
        return Ok(payloadCache.value);
      }
      match codec.decode(handler)
      case Ok(p) =>
        payloadCache := Some(p);
        r := Ok(p);
      case Err(e) =>
        if RescuedOnLoad(e.kind) {
          r := Err(Exception(DeserializationError, LoadFailureMessage(e.message, handler)));
        } else {
          r := Err(e);
        }
    }

    /** `hook(name, *args)` */
    method Hook(h: Hook, args: seq<Exception>) returns (s: Step)
      modifies this`payloadCache
      ensures s == Dispatch(old(Lookup()), h, args)
      ensures Lookup() == old(Lookup())
      ensures payloadCache == if Lookup().Ok? then Some(Lookup().value) else old(payloadCache)
    {
      var pr := PayloadObject();
      s := Dispatch(pr, h, args);
    }

    /** `invoke_job`: the begin block with its rescue clause, then the
        ensure clause `hook :after`, whose own exception replaces any other. */
    method InvokeJob() returns (s: Step)
      modifies this`payloadCache
      ensures s == Invoke(old(Lookup()))
      ensures Lookup() == old(Lookup())
    {
      var body := Attempt();
      var after := Hook(After, []);
      s := Step(body.trace + after.trace, if after.outcome.Raises? then after.outcome else body.outcome);
    }

    /** The begin block of `invoke_job` (the before hook, then `perform`
        and the success hook), handing any exception to the rescue clause. */
    method Attempt() returns (s: Step)
      modifies this`payloadCache
      ensures s == Body(old(Lookup()))
      ensures Lookup() == old(Lookup())
    {
      var before := Hook(Before, []);
      var rest: Step;
      if before.outcome.Raises? {
        rest := RescueClause(before.outcome.exception);
      } else {
        var obj := PayloadObject();
        match obj
        case Err(e) =>
          rest := RescueClause(e);
        case Ok(p) =>
          rest := Perform(p);
      }
      s := Then(before.trace, rest);
    }

    /** The rest of the begin block once the payload is loaded: `perform`,
        then the success hook. */
    method Perform(p: Payload) returns (s: Step)
      requires Lookup() == Ok(p)
      modifies this`payloadCache
      ensures s == Run(Ok(p), p)
      ensures Lookup() == old(Lookup())
    {
      var run := PerformStep(p);
      if run.outcome.Raises? {
        var rescued := RescueClause(run.outcome.exception);
        s := Then(run.trace, rescued);
      } else {
        var success := Hook(Success, []);
        if success.outcome.Raises? {
          var rescued := RescueClause(success.outcome.exception);
          s := Then(run.trace + success.trace, rescued);
        } else {
          s := Step(run.trace + success.trace, Returns);
        }
      }
    }

    /** `rescue Exception => e`: `hook :error, e`, then `raise e`. */
    method RescueClause(e: Exception) returns (s: Step)
      modifies this`payloadCache
      ensures s == Rescue(old(Lookup()), e)
      ensures Lookup() == old(Lookup())
    {
      var err := Hook(Error, [e]);
      s := Step(err.trace, if err.outcome.Raises? then err.outcome else Raises(e));
    }

    /** `name`: the memoised name, else the payload's display name or class
        name (then memoised); on a DeserializationError the class name in the
        handler's type tag. */
    method Name() returns (r: Result<string>)
      modifies this`payloadCache, this`nameCache
      ensures old(nameCache).Some? ==> r == Ok(old(nameCache).value)
      ensures old(nameCache).None? ==> r == NameFrom(old(Lookup()), handler)
      ensures nameCache == if old(nameCache).None? && old(Lookup()).Ok? then Some(r.value) else old(nameCache)
      ensures Lookup() == old(Lookup())
    {
      if nameCache.Some? {
        return Ok(nameCache.value);
      }
      var pr := PayloadObject();
      r := NameFrom(pr, handler);
      if pr.Ok? {
        nameCache := Some(r.value);
      }
    }

    /** `reschedule_at`, with the store's clock reading `now` and the
        payload's own `reschedule_at` passed in. */
    method RescheduleAt(now: int, own: (Payload, int, int) -> int) returns (r: Result<int>)
      modifies this`payloadCache
      ensures r == RescheduleFrom(old(Lookup()), now, attempts, own)
      ensures Lookup() == old(Lookup())
    {
      var pr := PayloadObject();
      r := RescheduleFrom(pr, now, attempts, own);
    }

    /** `max_attempts` */
    method MaxAttempts() returns (r: Result<Option<int>>)
      modifies this`payloadCache
      ensures r == MaxAttemptsFrom(old(Lookup()))
      ensures Lookup() == old(Lookup())
    {
      var pr := PayloadObject();
      r := MaxAttemptsFrom(pr);
    }
  }
}
