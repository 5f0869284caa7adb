/** `enqueue` (class side): merge the caller's options over the worker
    defaults, accept the deprecated positional priority and run time, reject
    a payload that cannot perform, then either build, hook and save a record
    (deferred execution) or run the payload at once without saving. */
module Enqueueing {
  import opened Outcomes
  import opened Payloads
  import opened Hooks
  import opened Jobs

  /** The worker settings `enqueue` reads: `delay_jobs`, `default_priority`
      and `default_queue_name`. */
  datatype Config = Config(delayJobs: bool, defaultPriority: int, defaultQueueName: Option<string>)

  /** A key of the caller's options hash: absent, or present with a value. */
  datatype Entry<T> = Absent | Present(value: T)

  /** A Ruby value passed as the payload or as a positional argument. */
  datatype Value = Nil | Num(n: int) | Obj(payload: Payload)

  /** The options hash: the keys `enqueue` gives meaning to. */
  datatype Options = Options(
    payloadObject: Entry<Value>,
    priority: Entry<Option<int>>,
    queue: Entry<Option<string>>,
    runAt: Entry<Option<int>>)

  /** The attributes a new record is built from. */
  datatype Request = Request(payload: Value, priority: Option<int>, queue: Option<string>, runAt: Option<int>)

  /** What `enqueue` returned or raised, and the calls and store writes it made. */
  datatype Enqueued = Enqueued(result: Result<Row>, trace: seq<Event>)

  const NotPerformable := Exception(ArgumentError, "Cannot enqueue items which do not respond to perform")

  /** `options[:payload_object]` is truthy, so `||=` does not shift a positional argument. */
  predicate PayloadGiven(opts: Options) {
    opts.payloadObject.Present? && opts.payloadObject.value != Nil
  }

  /** The payload after `options[:payload_object] ||= args.shift`. */
  function PayloadArg(opts: Options, args: seq<Value>): Value {
    if PayloadGiven(opts) then opts.payloadObject.value
    else if |args| > 0 then args[0]
    else Nil
  }

  /** The positional arguments left after that shift (the deprecated
      priority and run time). */
  function Rest(opts: Options, args: seq<Value>): seq<Value> {
    if PayloadGiven(opts) || |args| == 0 then args else args[1..]
  }

  /** The deprecated positional priority and run time are integers or nil. */
  predicate PositionalTyped(opts: Options, args: seq<Value>) {
    var rest := Rest(opts, args);
    (|rest| > 0 ==> !rest[0].Obj?) && (|rest| > 1 ==> !rest[1].Obj?)
  }

  /** `payload.respond_to?(:perform)` for any Ruby value. */
  predicate RespondsToPerform(v: Value) {
    v.Obj? && Performs(v.payload)
  }

  /** The options after the merge over the defaults and the deprecated
      positional overrides. */
  function Resolve(cfg: Config, opts: Options, args: seq<Value>): (q: Request)
    requires PositionalTyped(opts, args)
    ensures q.payload == PayloadArg(opts, args)
    // The queue comes from the options, else from the worker default.
    ensures q.queue == if opts.queue.Present? then opts.queue.value else cfg.defaultQueueName
    // Without positional arguments the options override the defaults.
    ensures Rest(opts, args) == [] ==>
              && q.priority == (if opts.priority.Present? then opts.priority.value else Some(cfg.defaultPriority))
              && q.runAt == (if opts.runAt.Present? then opts.runAt.value else None)
    // A positional priority wins unless it is nil ...
    ensures Rest(opts, args) != [] && Rest(opts, args)[0].Num? ==> q.priority == Some(Rest(opts, args)[0].n)
    ensures Rest(opts, args) != [] && Rest(opts, args)[0].Nil? ==>
              q.priority == (if opts.priority.Present? then opts.priority.value else Some(cfg.defaultPriority))
    // ... and a positional call always sets the run time, to nil when none is given.
    ensures Rest(opts, args) != [] ==>
              q.runAt == (if |Rest(opts, args)| > 1 && Rest(opts, args)[1].Num? then Some(Rest(opts, args)[1].n) else None)
  {
    var merged := Request(
      if opts.payloadObject.Present? then opts.payloadObject.value else Nil,
      if opts.priority.Present? then opts.priority.value else Some(cfg.defaultPriority),
      if opts.queue.Present? then opts.queue.value else cfg.defaultQueueName,
      if opts.runAt.Present? then opts.runAt.value else None);
    var rest := Rest(opts, args);
    var q := merged.(payload := PayloadArg(opts, args));
    if |rest| > 0 then
      q.(priority := if rest[0].Num? then Some(rest[0].n) else q.priority,
         runAt := if |rest| > 1 && rest[1].Num? then Some(rest[1].n) else None)
    else q
  }

  /** The deferred branch of `enqueue` for a payload that performs: build
      the record, run the enqueue hook, save. */
  function Deferred(codec: Codec, p: Payload, q: Request): (e: Enqueued)
    // The record is saved exactly when the enqueue hook returns; an
    // exception from the hook stops the save and reaches the caller.
    ensures e.result.Ok? <==> Dispatch(Ok(p), Hook.Enqueue, []).outcome.Returns?
    ensures e.result.Err? ==> Dispatch(Ok(p), Hook.Enqueue, []).outcome == Raises(e.result.error)
    ensures e.result.Err? ==> Saved !in e.trace
    // Otherwise the hook's call, then exactly one save, last.
    ensures e.result.Ok? ==>
              && |e.trace| > 0 && e.trace[|e.trace| - 1] == Saved
              && Saved !in e.trace[..|e.trace| - 1]
              && e.trace[..|e.trace| - 1] == Dispatch(Ok(p), Hook.Enqueue, []).trace
    // The record holds the encoded payload and the resolved attributes, unleased.
    ensures e.result.Ok? ==> e.result.value == Row(codec.encode(p), q.priority, q.queue, q.runAt, None, None, 0, None)
  {
    var h := Dispatch(Ok(p), Hook.Enqueue, []);
    if h.outcome.Raises? then Enqueued(Err(h.outcome.exception), h.trace)
    else
      assert (h.trace + [Saved])[..|h.trace|] == h.trace;
      Enqueued(Ok(Row(codec.encode(p), q.priority, q.queue, q.runAt, None, None, 0, None)), h.trace + [Saved])
  }

  /** The inline branch of `enqueue`: `invoke_job` on an unsaved record. */
  function Inline(codec: Codec, p: Payload): (e: Enqueued)
    // Nothing is saved, and the job's own calls are the whole trace.
    ensures Saved !in e.trace
    ensures e.trace == Invoke(Ok(p)).trace
    ensures e.result.Ok? <==> Invoke(Ok(p)).outcome.Returns?
    ensures e.result.Err? ==> Invoke(Ok(p)).outcome == Raises(e.result.error)
    // Only the handler is set on the record returned.
    ensures e.result.Ok? ==> e.result.value == Row(codec.encode(p), None, None, None, None, None, 0, None)
  {
    var s := Invoke(Ok(p));
    Enqueued(if s.outcome.Raises? then Err(s.outcome.exception)
             else Ok(Row(codec.encode(p), None, None, None, None, None, 0, None)), s.trace)
  }

  /** The whole of `enqueue` on values: the record it returns (or the
      exception it raises) and its calls and store writes, in order. */
  function EnqueueSpec(cfg: Config, codec: Codec, opts: Options, args: seq<Value>): (e: Enqueued)
    requires PositionalTyped(opts, args)
    // A payload that cannot perform is rejected before anything runs or is saved.
    ensures !RespondsToPerform(PayloadArg(opts, args)) ==> e == Enqueued(Err(NotPerformable), [])
    ensures RespondsToPerform(PayloadArg(opts, args)) && cfg.delayJobs ==>
              e == Deferred(codec, PayloadArg(opts, args).payload, Resolve(cfg, opts, args))
    ensures RespondsToPerform(PayloadArg(opts, args)) && !cfg.delayJobs ==>
              e == Inline(codec, PayloadArg(opts, args).payload)
    // Inline execution never writes to the store.
    ensures !cfg.delayJobs ==> Saved !in e.trace
  {
    var q := Resolve(cfg, opts, args);
    if !RespondsToPerform(q.payload) then Enqueued(Err(NotPerformable), [])
    else if cfg.delayJobs then Deferred(codec, q.payload.payload, q)
    else Inline(codec, q.payload.payload)
  }

  /** `enqueue(payload)` with no options gives the worker's default priority
      and queue and no run time of its own. */
  lemma EnqueueDefaults(cfg: Config, codec: Codec, p: Payload)
    requires cfg.delayJobs && Performs(p) && Quiet(p, Hook.Enqueue)
    ensures var e := EnqueueSpec(cfg, codec, Options(Absent, Absent, Absent, Absent), [Obj(p)]);
            e.result.Ok? && e.result.value.priority == Some(cfg.defaultPriority)
            && e.result.value.queue == cfg.defaultQueueName && e.result.value.runAt == None
  {
  }

  /** A positional priority resets the run time: with the deprecated form,
      a `:run_at` option is overwritten with nil. */
  lemma PositionalPriorityDropsRunAt(cfg: Config, codec: Codec, p: Payload, prio: int, t: int)
    requires cfg.delayJobs && Performs(p) && Quiet(p, Hook.Enqueue)
    ensures var e := EnqueueSpec(cfg, codec, Options(Absent, Absent, Absent, Present(Some(t))), [Obj(p), Num(prio)]);
            e.result.Ok? && e.result.value.priority == Some(prio) && e.result.value.runAt == None
  {
    var opts := Options(Absent, Absent, Absent, Present(Some(t)));
    assert Rest(opts, [Obj(p), Num(prio)]) == [Num(prio)];
  }

  /** The deferred branch on a new record: assign the attributes and the
      payload, `hook :enqueue`, save. */
  method EnqueueDeferred(codec: Codec, p: Payload, q: Request) returns (r: Result<Job>, trace: seq<Event>)
    ensures var spec := Deferred(codec, p, q);
            && trace == spec.trace
            && (r.Ok? <==> spec.result.Ok?)
            && (r.Err? ==> r.error == spec.result.error)
            && (r.Ok? ==> fresh(r.value) && r.value.codec == codec && r.value.Columns() == spec.result.value)
  {
    var job := new Job(codec);
    job.priority, job.queue, job.runAt := q.priority, q.queue, q.runAt;
    job.SetPayloadObject(p);
    var h := job.Hook(Hook.Enqueue, []);
    trace := h.trace;
    if h.outcome.Raises? {
      return Err(h.outcome.exception), trace;
    }
    trace := trace + [Saved];
    r := Ok(job);
  }

  /** The inline branch on a new record: assign the payload, `invoke_job`. */
  method EnqueueInline(codec: Codec, p: Payload) returns (r: Result<Job>, trace: seq<Event>)
    ensures var spec := Inline(codec, p);
            && trace == spec.trace
            && (r.Ok? <==> spec.result.Ok?)
            && (r.Err? ==> r.error == spec.result.error)
            && (r.Ok? ==> fresh(r.value) && r.value.codec == codec && r.value.Columns() == spec.result.value)
  {
    var job := new Job(codec);
    job.SetPayloadObject(p);
    var s := job.InvokeJob();
    trace := s.trace;
    if s.outcome.Raises? {
      return Err(s.outcome.exception), trace;
    }
    r := Ok(job);
  }

  /** `enqueue(*args)` */
  method Enqueue(cfg: Config, codec: Codec, opts: Options, args: seq<Value>) returns (r: Result<Job>, trace: seq<Event>)
    requires PositionalTyped(opts, args)
    ensures var spec := EnqueueSpec(cfg, codec, opts, args);
            && trace == spec.trace
            && (r.Ok? <==> spec.result.Ok?)
            && (r.Err? ==> r.error == spec.result.error)
            && (r.Ok? ==> fresh(r.value) && r.value.codec == codec && r.value.Columns() == spec.result.value)
  {
    // options = { priority: default, queue: default }.merge!(options given)
    var priority := if opts.priority.Present? then opts.priority.value else Some(cfg.defaultPriority);
    var queue := if opts.queue.Present? then opts.queue.value else cfg.defaultQueueName;
    var runAt := if opts.runAt.Present? then opts.runAt.value else None;
    var payload := if opts.payloadObject.Present? then opts.payloadObject.value else Nil;
    var rest := args;
    // options[:payload_object] ||= args.shift
    if payload == Nil && |rest| > 0 {
      payload, rest := rest[0], rest[1..];
    }
    // the deprecated positional priority and run_at
    if |rest| > 0 {
      priority := if rest[0].Num? then Some(rest[0].n) else priority;
      runAt := if |rest| > 1 && rest[1].Num? then Some(rest[1].n) else None;
    }
    var q := Request(payload, priority, queue, runAt);
    assert q == Resolve(cfg, opts, args);
    if !RespondsToPerform(payload) {
      return Err(NotPerformable), [];
    }
    if cfg.delayJobs {
      r, trace := EnqueueDeferred(codec, payload.payload, q);
    } else {
      r, trace := EnqueueInline(codec, payload.payload);
    }
  }
}
