# delayed_job: the job record's own logic

This project models `Delayed::Backend::Base`, the mix-in that gives every
delayed_job backend its job-record behaviour, and proves properties of the
model in Dafny. A job record stores a serialised payload object (`handler`),
a priority, a queue, a run time, a lease (`locked_at`, `locked_by`), an
attempt counter and a failure time. The mix-in covers:

- putting a payload on the queue (`enqueue`), either deferred as a saved
  record or run inline at once;
- taking the first candidate a worker can lock (`reserve`);
- decoding the payload lazily and memoising it (`payload_object`), and
  turning load failures into a `DeserializationError`;
- naming a job (`name`), falling back to the class name in the handler's YAML
  type tag (the `ParseObjectFromYaml` regular expression);
- dispatching lifecycle hooks to the payload (`hook`) and running it with
  its before, success, error and after hooks (`invoke_job`);
- the retry arithmetic (`reschedule_at`, `max_attempts`);
- the small state changes `unlock`, `fail!`, `set_default_run_at` and `reset`.

Files and modules:

- `outcomes.dfy` (`Outcomes`): options, results, the Ruby exception classes
  the code names, with `NoMethodError` a kind of `NameError`, and how a piece
  of code ends.
- `payloads.dfy` (`Payloads`): a payload as a class name plus the optional
  methods it responds to, the YAML codec as an uninterpreted pair of
  functions, and `Materialize`, what `payload_object` answers.
- `yaml_tag.dfy` (`Naming`): the regular expression as a scanner, its
  declarative meaning (`TagAt`), leftmost-match correctness, the YAML tags
  from the repository's YAML tests, and `NameFrom`.
- `retry.dfy` (`Retry`): the default backoff and the payload overrides.
- `hooks.dfy` (`Hooks`): `hook` and `invoke_job` as trace semantics. A trace
  lists the calls made on the payload and the store writes, in order, and
  ends with a normal return or an exception.
- `job.dfy` (`Jobs`): `class Job`, with the record's columns and the two
  memo fields as mutable fields. Its methods update them in place and are
  proved against the functions above.
- `reservation.dfy` (`Reservation`): the `reserve` loop over the candidates
  the store found, with the exclusive lock as an oracle.
- `enqueue.dfy` (`Enqueueing`): option resolution, the whole of `enqueue`
  as a function, and the method that allocates the record.

## Model

| member | source | states |
|---|---|---|
| Enqueueing.Resolve | lib/delayed/backend/base.rb:11-22 | The queue comes from the options, else the worker default. Without positional arguments the options override the default priority and run time. A positional integer priority wins and a nil one keeps the option. Any positional call overwrites the run time with the second positional argument, or nil. The payload is the option when truthy, else the first argument. |
| Enqueueing.EnqueueSpec | lib/delayed/backend/base.rb:10-40 | A payload that does not respond to `perform` raises ArgumentError before any hook runs or anything is saved. Otherwise it is the deferred branch when `delay_jobs` is set and the inline branch when not. Inline execution never saves. |
| Enqueueing.Deferred | lib/delayed/backend/base.rb:28-34 | The record is saved exactly when the enqueue hook returns. The trace is then the hook's call followed by exactly one save, last. When the hook raises, nothing is saved and its exception reaches the caller. The record holds the encoded payload and the resolved priority, queue and run time, and has no lease, no attempts and no failure. |
| Enqueueing.Inline | lib/delayed/backend/base.rb:35-39 | The trace is exactly `invoke_job`'s, with no save. It returns the record iff the job ends normally, and raises the job's exception otherwise. The record has only its handler set. |
| Enqueueing.EnqueueDefaults | lib/delayed/backend/base.rb:11-14 | `enqueue(payload)` with no options saves the worker's default priority and queue, with no run time of its own. |
| Enqueueing.PositionalPriorityDropsRunAt | lib/delayed/backend/base.rb:18-22 | The deprecated form `enqueue(payload, priority)` with a `:run_at` option sets the priority and leaves the run time nil. |
| Enqueueing.EnqueueDeferred | lib/delayed/backend/base.rb:29-33 | A fresh record gets the attributes and the payload, the enqueue hook is dispatched, then the record is saved. Trace, result and columns equal `Deferred`. |
| Enqueueing.EnqueueInline | lib/delayed/backend/base.rb:36-38 | A fresh record gets the payload and `invoke_job` runs on it. Trace, result and columns equal `Inline`. |
| Enqueueing.Enqueue | lib/delayed/backend/base.rb:10-40 | The method merges the options, shifts the payload, applies the positional overrides, rejects a payload that cannot perform and runs the chosen branch. Its trace, error and new record's columns equal `EnqueueSpec`. |
| Reservation.Reserve | lib/delayed/backend/base.rb:47-52 | Locks are tried on a prefix of the candidates, in order. Every attempt but the last failed. The result is the last attempted job exactly when its lock succeeded. No result means every candidate was tried and every lock failed. |
| Naming.MatchAtCorrect | lib/delayed/backend/base.rb:81 | The scanner at one position answers exactly the capture of the regular expression `!ruby/\w+:([^\s]+)` anchored there. |
| Naming.SearchFromCorrect | lib/delayed/backend/base.rb:81 | Searching from `i` gives the capture of the leftmost match at or after `i`, or nothing when no position matches. |
| Naming.ParseObjectFromYamlCorrect | lib/delayed/backend/base.rb:81-88 | `ParseObjectFromYaml.match(h)[1]`, modelled by `ParseObjectFromYaml` over the scanner `MatchAt` and the search `SearchFrom`, is the capture of the leftmost match. No capture means no match anywhere in `h`. |
| Naming.WordEnd | lib/delayed/backend/base.rb:81 | The greedy `\w+` run from `k` ends at the first non-word character. |
| Naming.TokenEnd | lib/delayed/backend/base.rb:81 | The greedy `[^\s]+` run from `k` ends at the first white-space character. |
| Naming.TagAtUnique | lib/delayed/backend/base.rb:81 | A match at a given position has only one colon position and one capture. |
| Naming.SearchSkips | lib/delayed/backend/base.rb:81 | Positions without a `!` cannot start a match. |
| Naming.LeftmostOnlyCandidate | lib/delayed/backend/base.rb:81 | A match with no `!` before it is the one reported. |
| Naming.TagRecovered | lib/delayed/backend/base.rb:81 | A handler with a well-formed `!ruby/<word>:<name>` tag and no `!` before it yields `<name>`. |
| Naming.UntaggedHandler | lib/delayed/backend/base.rb:81 | A handler whose only `!` starts `!ruby/<word>` followed by neither a colon nor a word character has no match. |
| Naming.ObjectTagExample | spec/yaml_ext_spec.rb:27 | The object tag of an `Autoloaded::InstanceClazz` instance yields that class name. |
| Naming.StructTagExample | spec/yaml_ext_spec.rb:20 | The struct tag of an `Autoloaded::InstanceStruct` instance yields that class name. |
| Naming.ClassTagExample | spec/yaml_ext_spec.rb:6 | The class tag `!ruby/class Autoloaded::Clazz` has no match, so `name` would raise NoMethodError for it. |
| Naming.NameFrom | lib/delayed/backend/base.rb:83-89 | `display_name` is preferred, then the class name. On a DeserializationError `name` succeeds iff the handler contains a tag match, and then answers the capture of the leftmost match. Otherwise it raises NoMethodError from `nil[1]`. Any other load error propagates. |
| Jobs.Job.Name | lib/delayed/backend/base.rb:83-89 | A memoised name is returned unchanged. Otherwise the result is `NameFrom` of the payload lookup and the handler. The name is memoised only when the payload loaded. |
| Payloads.Materialize | lib/delayed/backend/base.rb:96-101 | A memoised payload is returned without decoding. Otherwise a successful decoding is the answer. TypeError, LoadError, NameError (and NoMethodError) and ArgumentError become a DeserializationError carrying the cause and the quoted handler. Other errors pass through unchanged. |
| Payloads.ReloadRoundTrip | lib/delayed/backend/base.rb:91-101 | With a codec that round-trips, decoding the handler written by `payload_object=` gives back the same payload. |
| Jobs.Job.SetPayloadObject | lib/delayed/backend/base.rb:91-94 | Memoises the payload and stores its encoding in `handler`, changing no other column. A later lookup answers the payload, with or without the memo when the codec round-trips. |
| Jobs.Job.PayloadObject | lib/delayed/backend/base.rb:96-101 | Answers `Materialize` of the old state. It memoises exactly on success, and the lookup answers the same afterwards. |
| Hooks.Invoke | lib/delayed/backend/base.rb:103-122 | Nothing is saved and `perform` runs at most once. A payload that cannot be loaded raises its load error and runs no hook. A normal end implies the payload loaded and performed. |
| Hooks.AfterRunsLast | lib/delayed/backend/base.rb:117-118 | Whenever the payload loads and defines an after hook, that hook is the last call `invoke_job` makes, however the begin block ended. |
| Hooks.Body | lib/delayed/backend/base.rb:105-116 | In the begin/rescue part, nothing is saved and `perform` runs at most once. A load error is re-raised as is. A normal end means `perform` ran. |
| Hooks.Run | lib/delayed/backend/base.rb:109-116 | Once the payload is loaded, `perform` and the success hook save nothing and perform at most once. A normal end means `perform` exists and ran. |
| Hooks.Rescue | lib/delayed/backend/base.rb:113-116 | The rescue clause makes exactly the calls of `hook :error, e`, never performs and never saves. It then raises `e` when the error hook is quiet, and the error hook's own exception when it raises one. With an undecodable payload it raises `e` after a DeserializationError, and the load error otherwise. |
| Hooks.PerformStep | lib/delayed/backend/base.rb:109 | `payload_object.perform` records one perform call and ends as `perform` does. A payload without `perform` raises NoMethodError and makes no call. |
| Hooks.InvokeSucceeds | lib/delayed/backend/base.rb:103-122 | A payload whose `perform` returns, with quiet hooks, gives the trace before, perform, success, after, and returns normally. |
| Hooks.InvokeFails | lib/delayed/backend/base.rb:103-122 | A payload whose `perform` raises `e`, with quiet hooks, gives the trace before, perform, error(e), after, and raises `e`. |
| Hooks.InvokeBeforeRaises | lib/delayed/backend/base.rb:103-122 | A before hook that raises `e`, with quiet error and after hooks, gives the trace before, error(e), after and raises `e`. `perform` never runs. |
| Hooks.InvokeSuccessRaises | lib/delayed/backend/base.rb:103-122 | A success hook that raises `e` after a clean `perform`, with quiet other hooks, gives the trace before, perform, success, error(e), after and raises `e`. |
| Hooks.AfterExceptionWins | lib/delayed/backend/base.rb:117-118 | An exception from the after hook in the ensure clause is what `invoke_job` raises, however the begin block ended. |
| Hooks.InvokeSuccessTrace | lib/delayed/backend/base.rb:103-122 | With one-argument before, success and after hooks, a clean run makes exactly those calls, each with the job, around `perform`. |
| Jobs.Job.InvokeJob | lib/delayed/backend/base.rb:103-122 | The method makes exactly the calls and ends exactly as `Invoke` of the lookup, and leaves the lookup unchanged. |
| Jobs.Job.Attempt | lib/delayed/backend/base.rb:105-116 | The begin block with its rescue equals `Body`. |
| Jobs.Job.Perform | lib/delayed/backend/base.rb:109-116 | `perform` and the success hook equal `Run`. |
| Jobs.Job.RescueClause | lib/delayed/backend/base.rb:113-116 | The rescue clause equals `Rescue`. |
| Jobs.Job.Failed | lib/delayed/backend/base.rb:76-78 | `failed?` is true exactly when `failed_at` is set. `Fail` makes it true and `Unlock` leaves it unchanged. |
| Jobs.Job.Unlock | lib/delayed/backend/base.rb:124-128 | Clears `locked_at` and `locked_by` and no other column. `failed?` is unchanged. |
| Hooks.Dispatch | lib/delayed/backend/base.rb:130-137 | At most one call, and only of the named hook. The hook is called iff the payload loads and defines it. Arity 0 gets no arguments and any other arity gets the job and the extra arguments. A DeserializationError, from the lookup or the hook itself, never escapes; every other exception does. An undefined hook, a hook that returns and a swallowed DeserializationError all make `hook` return normally. |
| Jobs.Job.Hook | lib/delayed/backend/base.rb:130-137 | Equals `Dispatch` of the lookup and leaves the lookup unchanged. |
| Retry.DefaultRescheduleAt | lib/delayed/backend/base.rb:142 | The default retry comes at least 5 seconds after the clock reading. |
| Retry.BackoffSchedule | lib/delayed/backend/base.rb:142 | The first retries come 5, 6, 21 and 86 seconds after the failure. |
| Retry.BackoffStrictlyIncreasing | lib/delayed/backend/base.rb:142 | More attempts push the default retry strictly later. |
| Retry.NextRunAt | lib/delayed/backend/base.rb:139-143 | The payload's own `reschedule_at(now, attempts)` replaces the formula when it is defined. Otherwise the formula applies. |
| Retry.RescheduleFrom | lib/delayed/backend/base.rb:139-143 | Succeeds iff the payload loads. The result is `now + attempts**4 + 5`, or the payload's own answer. A load error propagates unchanged. |
| Jobs.Job.RescheduleAt | lib/delayed/backend/base.rb:139-143 | Equals `RescheduleFrom` of the lookup, the store clock and `attempts`. |
| Retry.MaxAttemptsFrom | lib/delayed/backend/base.rb:145-147 | The payload's declared limit, or nil when it declares none. Succeeds iff the payload loads, and a load error propagates. |
| Jobs.Job.MaxAttempts | lib/delayed/backend/base.rb:145-147 | Equals `MaxAttemptsFrom` of the lookup. |
| Jobs.Job.Fail | lib/delayed/backend/base.rb:149-151 | Sets `failed_at` to the store clock and changes no other column. `failed?` then holds, and exactly one save is made. |
| Jobs.Job.SetDefaultRunAt | lib/delayed/backend/base.rb:155-157 | A record always has a run time afterwards. An existing run time is kept, and a missing one becomes the store clock. |
| Jobs.Job.Reset | lib/delayed/backend/base.rb:160-162 | Drops the memoised payload, so the next lookup decodes `handler`. With a round-tripping codec and a handler written from the memo, the lookup answers the same as before. |
| Jobs.Job.constructor | lib/delayed/backend/base.rb:29 | A new record has no attributes set and nothing memoised. |

## Left out

- Logging (`say`, in both its class and instance copies, and the deprecation `warn`s) is output only, and the model omits it.
- Hooks.Invoke: because `say` is omitted, an undecodable handler is described as raising its load error. In the source, the first `say` at base.rb:106 calls `name` first. For an undecodable handler with no `!ruby/<word>:` tag, `name` raises NoMethodError from `nil[1]`, so the source's `invoke_job` raises NoMethodError there and not the DeserializationError. With a tag, `say` succeeds and the load error follows as modelled.
- `before_fork`, `after_fork` and `work_off` are empty hooks or a delegation to the worker, which is not part of this model.
- `Delayed::Worker.lifecycle.run_callbacks` wraps `enqueue`'s hook and save and `invoke_job`. The model treats it as transparent, because the lifecycle plugins are not part of this model.
- The store (`find_available`, `lock_exclusively!`, `save`, `update_attributes`, `db_time_now`) belongs to each backend. Candidates are an argument, the lock is an oracle and the clock reading is a parameter. A save is an event in the trace and always succeeds.
- Reservation.Reserve: the `Delayed::Worker.logger ||= …` initialisation and the `read_ahead` argument are store and logging concerns and are not modelled.
- YAML itself (`to_yaml`, `YAML.load`) is a foreign library and is left as an uninterpreted codec. A decoding that answers nil or false, which `||=` would not memoise, is not modelled.
- Jobs.Job.SetPayloadObject: `to_yaml` is assumed to succeed, because the codec's `encode` is total. In the source `payload_object=` sets `@payload_object` before calling `to_yaml`. If that raises (a TypeError for an anonymous class, say), the memo is already set and `handler` keeps its old value. `enqueue` then raises from `self.new` or `Delayed::Job.new` before any hook or save. `Enqueueing.Deferred` and `Enqueueing.Inline` do not capture that path.
- Naming.NameFrom: the payload's `display_name`, `reschedule_at` and `max_attempts` are modelled as always returning, and the same holds for `Retry.RescheduleFrom` and `Retry.MaxAttemptsFrom`. In the source an exception from `reschedule_at` or `max_attempts` reaches their caller. A DeserializationError raised by `display_name` itself is caught by `name`'s rescue and answered with the tag capture. Only `perform` and the hook methods carry an outcome here.
- Enqueueing.Deferred: hook methods and `perform` are modelled as not changing the record. In the source a hook called with the job could assign its columns before `job.save`, or while `invoke_job` runs, which `Jobs.Job.InvokeJob`'s frame excludes. The saved record's resolved priority, queue and run time, and `invoke_job` leaving every column unchanged, hold only under this abstraction.
- Payloads.Inspect: `String#inspect` is modelled as plain quoting, without Ruby's escaping of special characters.
- Hooks.Dispatch: the ArgumentError Ruby raises for a hook defined with an arity that cannot take the arguments is folded into the hook method's own outcome.
- Jobs.Job.SetDefaultRunAt: backends call it before saving, but that wiring lives outside this module, so `enqueue`'s save does not call it here.
- Enqueueing.Resolve: positional priority and run-time arguments that are neither integers nor nil are excluded by its precondition, because the record's typed columns would cast them in backend-specific ways. Positional arguments beyond the second are ignored, as in the source. Only the options keys `payload_object`, `priority`, `queue` and `run_at` are modelled.
- Enqueueing.Inline: the inline branch builds a `Delayed::Job`, not a record of the enqueuing class. The model does not distinguish the two classes.
- Concurrency between workers is the store's concern, through the lock; the model is sequential.
