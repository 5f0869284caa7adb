/** Hook dispatch (`hook`) and job execution (`invoke_job`) as trace
    semantics: given what the record's payload lookup answers, the calls made
    on the payload, in order, and how the code ends. The lookup answers the
    same every time during one execution (its result is memoised on success
    and the decoding is deterministic), so one `Result<Payload>` stands for
    every `payload_object` call. */
module Hooks {
  import opened Outcomes
  import opened Payloads

  /** The calls a piece of job code made, and how it ended. */
  datatype Step = Step(trace: seq<Event>, outcome: Outcome)

  /** Prefix the calls made before `s`. */
  function Then(before: seq<Event>, s: Step): Step {
    Step(before + s.trace, s.outcome)
  }

  /** `hook(name, *args)`: skipped when the payload lacks the method; a
      method of arity 0 gets no arguments, any other gets `(job, *args)`;
      a DeserializationError, from the lookup or from the method itself, is
      swallowed; any other exception propagates. */
  function Dispatch(pr: Result<Payload>, h: Hook, args: seq<Exception>): (s: Step)
    // At most one call, and only of the named hook.
    ensures |s.trace| <= 1
    ensures s.trace != [] ==> s.trace[0].Called? && s.trace[0].hook == h
    // The hook is called exactly when the payload loads and defines it.
    ensures s.trace != [] <==> pr.Ok? && h in pr.value.hooks
    // Arity 0 means no arguments; otherwise the job and the extra arguments.
    ensures s.trace != [] ==> (s.trace[0].args == NoArgs <==> pr.value.hooks[h].arity == 0)
    ensures s.trace != [] && pr.value.hooks[h].arity != 0 ==> s.trace[0].args == JobAnd(args)
    // A DeserializationError never escapes.
    ensures s.outcome.Raises? ==> s.outcome.exception.kind != DeserializationError
    // Every other exception does.
    ensures pr.Err? && pr.error.kind != DeserializationError ==> s.outcome == Raises(pr.error)
    ensures pr.Ok? && h in pr.value.hooks && pr.value.hooks[h].outcome.Raises?
            && pr.value.hooks[h].outcome.exception.kind != DeserializationError
            ==> s.outcome == pr.value.hooks[h].outcome
    // A swallowed DeserializationError, an absent hook and a hook that
    // returns all let `hook` return normally.
    ensures pr.Err? && pr.error.kind == DeserializationError ==> s == Step([], Returns)
    ensures pr.Ok? && Quiet(pr.value, h) ==> s.outcome == Returns
  {
    match pr
    case Err(e) =>
      Step([], if e.kind == DeserializationError then Returns else Raises(e))
    case Ok(p) =>
      if h !in p.hooks then Step([], Returns)
      else
        var m := p.hooks[h];
        var call := Called(h, if m.arity == 0 then NoArgs else JobAnd(args));
        match m.outcome
        case Returns => Step([call], Returns)
        case Raises(e) => Step([call], if e.kind == DeserializationError then Returns else Raises(e))
  }

  /** The hook `h` of `p` ends normally whenever it is dispatched. */
  predicate Quiet(p: Payload, h: Hook) {
    h !in p.hooks || p.hooks[h].outcome.Returns?
    || p.hooks[h].outcome.exception.kind == DeserializationError
  }

  /** `payload_object.perform`; a payload without the method raises NoMethodError. */
  function PerformStep(p: Payload): (s: Step)
    ensures p.perform.Some? ==> s == Step([Performed], p.perform.value)
    ensures p.perform.None? ==> s.trace == [] && s.outcome.Raises? && s.outcome.exception.kind == NoMethodError
  {
    match p.perform
    case Some(o) => Step([Performed], o)
    case None => Step([], Raises(Exception(NoMethodError, "undefined method `perform'")))
  }

  /** The rescue clause of `invoke_job`: `hook :error, e` then `raise e`
      (an exception from the error hook itself wins). */
  function Rescue(pr: Result<Payload>, e: Exception): (s: Step)
    ensures Saved !in s.trace && Performed !in s.trace
    // The error hook is dispatched with the exception ...
    ensures s.trace == Dispatch(pr, Error, [e]).trace
    // ... and then `e` is re-raised, unless the error hook raised one of its own.
    ensures s.outcome.Raises?
    ensures pr.Ok? && Quiet(pr.value, Error) ==> s.outcome == Raises(e)
    ensures pr.Ok? && !Quiet(pr.value, Error) ==> s.outcome == pr.value.hooks[Error].outcome
    ensures pr.Err? && pr.error.kind == DeserializationError ==> s.outcome == Raises(e)
    ensures pr.Err? && pr.error.kind != DeserializationError ==> s.outcome == Raises(pr.error)
  {
    var err := Dispatch(pr, Error, [e]);
    Step(err.trace, if err.outcome.Raises? then err.outcome else Raises(e))
  }

  /** `perform` and the success hook, with the rescue clause, for a loaded payload. */
  function Run(pr: Result<Payload>, p: Payload): (s: Step)
    requires pr == Ok(p)
    ensures Saved !in s.trace
    ensures multiset(s.trace)[Performed] <= 1
    ensures s.outcome.Returns? ==> Performs(p) && Performed in s.trace
  {
    var run := PerformStep(p);
    if run.outcome.Raises? then Then(run.trace, Rescue(pr, run.outcome.exception))
    else
      var success := Dispatch(pr, Success, []);
      if success.outcome.Raises? then Then(run.trace + success.trace, Rescue(pr, success.outcome.exception))
      else Step(run.trace + success.trace, Returns)
  }

  /** The begin block of `invoke_job` with its rescue clause: the before
      hook, `perform`, the success hook. */
  function Body(pr: Result<Payload>): (s: Step)
    ensures Saved !in s.trace
    ensures multiset(s.trace)[Performed] <= 1
    ensures pr.Err? ==> s == Step([], Raises(pr.error))
    ensures s.outcome.Returns? ==> pr.Ok? && Performs(pr.value) && Performed in s.trace
  {
    var before := Dispatch(pr, Before, []);
    if before.outcome.Raises? then Then(before.trace, Rescue(pr, before.outcome.exception))
    else
      match pr
      case Err(e) => Then(before.trace, Rescue(pr, e))
      case Ok(p) => Then(before.trace, Run(pr, p))
  }

  /** `invoke_job`: the body, then the ensure clause `hook :after`, whose own
      exception, if any, replaces the pending outcome. */
  function Invoke(pr: Result<Payload>): (s: Step)
    // Execution writes nothing to the store.
    ensures Saved !in s.trace
    // `perform` runs at most once.
    ensures multiset(s.trace)[Performed] <= 1
    // A payload that cannot be loaded: no hook runs, and the load error is raised.
    ensures pr.Err? ==> s == Step([], Raises(pr.error))
    // A normal end means the payload loaded and performed.
    ensures s.outcome.Returns? ==> pr.Ok? && Performs(pr.value) && Performed in s.trace
  {
    var body := Body(pr);
    var after := Dispatch(pr, After, []);
    Step(body.trace + after.trace, if after.outcome.Raises? then after.outcome else body.outcome)
  }

  /** The after hook always runs, and runs last, however the body ended. */
  lemma AfterRunsLast(pr: Result<Payload>)
    requires pr.Ok? && After in pr.value.hooks
    ensures var t := Invoke(pr).trace;
            |t| > 0 && t[|t| - 1].Called? && t[|t| - 1].hook == After
  {
    var after := Dispatch(pr, After, []);
    assert after.trace == [after.trace[0]];
  }

  /** Re-associates a concatenation of traces, for the `Invoke*` proofs below. */
  lemma Regroup(a: seq<Event>, b: seq<Event>, c: seq<Event>)
    ensures a + (b + c) == a + b + c
  {
  }

  /** With a quiet before hook, the body is the before call and then `Run`. */
  lemma BodyAfterQuietBefore(p: Payload)
    requires Quiet(p, Before)
    ensures Body(Ok(p)) == Then(Dispatch(Ok(p), Before, []).trace, Run(Ok(p), p))
  {
  }

  /** With a quiet after hook, `invoke_job` ends as its body did. */
  lemma InvokeWithQuietAfter(p: Payload)
    requires Quiet(p, After)
    ensures Invoke(Ok(p)) == Step(Body(Ok(p)).trace + Dispatch(Ok(p), After, []).trace, Body(Ok(p)).outcome)
  {
  }

  /** With a quiet error hook, the rescue clause calls it and re-raises `e`. */
  lemma RescueWithQuietError(p: Payload, e: Exception)
    requires Quiet(p, Error)
    ensures Rescue(Ok(p), e) == Step(Dispatch(Ok(p), Error, [e]).trace, Raises(e))
  {
  }

  /** A performing payload with a quiet success hook runs cleanly. */
  lemma RunSucceeds(p: Payload)
    requires p.perform == Some(Returns) && Quiet(p, Success)
    ensures Run(Ok(p), p) == Step([Performed] + Dispatch(Ok(p), Success, []).trace, Returns)
  {
  }

  /** A failing `perform` goes to the rescue clause. */
  lemma RunFails(p: Payload, e: Exception)
    requires p.perform == Some(Raises(e))
    ensures Run(Ok(p), p) == Then([Performed], Rescue(Ok(p), e))
  {
  }

  /** A raising success hook goes to the rescue clause. */
  lemma RunSuccessRaises(p: Payload, e: Exception)
    requires p.perform == Some(Returns)
    requires Success in p.hooks && p.hooks[Success].outcome == Raises(e) && e.kind != DeserializationError
    ensures Run(Ok(p), p) == Then([Performed] + Dispatch(Ok(p), Success, []).trace, Rescue(Ok(p), e))
  {
  }

  /** A clean run calls before, perform, success and after, in that order,
      and ends normally. */
  lemma InvokeSucceeds(p: Payload)
    requires p.perform == Some(Returns)
    requires Quiet(p, Before) && Quiet(p, Success) && Quiet(p, After)
    ensures Invoke(Ok(p)) == Step(Dispatch(Ok(p), Before, []).trace + [Performed]
                                    + Dispatch(Ok(p), Success, []).trace
                                    + Dispatch(Ok(p), After, []).trace, Returns)
  {
    var pr := Ok(p);
    var before, success, after := Dispatch(pr, Before, []), Dispatch(pr, Success, []), Dispatch(pr, After, []);
    RunSucceeds(p);
    BodyAfterQuietBefore(p);
    InvokeWithQuietAfter(p);
    Regroup(before.trace, [Performed], success.trace);
  }

  /** A failing perform runs before, perform, error(e) and after, in that
      order, and re-raises the same exception. */
  lemma InvokeFails(p: Payload, e: Exception)
    requires p.perform == Some(Raises(e))
    requires Quiet(p, Before) && Quiet(p, Error) && Quiet(p, After)
    ensures Invoke(Ok(p)) == Step(Dispatch(Ok(p), Before, []).trace + [Performed]
                                    + Dispatch(Ok(p), Error, [e]).trace
                                    + Dispatch(Ok(p), After, []).trace, Raises(e))
  {
    var pr := Ok(p);
    var before, error, after := Dispatch(pr, Before, []), Dispatch(pr, Error, [e]), Dispatch(pr, After, []);
    RunFails(p, e);
    RescueWithQuietError(p, e);
    BodyAfterQuietBefore(p);
    InvokeWithQuietAfter(p);
    Regroup(before.trace, [Performed], error.trace);
  }

  /** A before hook that raises `e` skips `perform` and the success hook:
      the calls are before, error(e), after, and `e` is re-raised. */
  lemma InvokeBeforeRaises(p: Payload, e: Exception)
    requires Before in p.hooks && p.hooks[Before].outcome == Raises(e) && e.kind != DeserializationError
    requires Quiet(p, Error) && Quiet(p, After)
    ensures Invoke(Ok(p)) == Step(Dispatch(Ok(p), Before, []).trace
                                    + Dispatch(Ok(p), Error, [e]).trace
                                    + Dispatch(Ok(p), After, []).trace, Raises(e))
    ensures Performed !in Invoke(Ok(p)).trace
  {
    var pr := Ok(p);
    var before, error, after := Dispatch(pr, Before, []), Dispatch(pr, Error, [e]), Dispatch(pr, After, []);
    assert before.outcome == Raises(e);
    RescueWithQuietError(p, e);
    assert Body(pr) == Step(before.trace + error.trace, Raises(e));
    InvokeWithQuietAfter(p);
    assert Performed !in before.trace + error.trace + after.trace;
  }

  /** A success hook that raises `e` after `perform` is rescued like a
      failing `perform`: before, perform, success, error(e), after, and `e`
      is re-raised. */
  lemma InvokeSuccessRaises(p: Payload, e: Exception)
    requires p.perform == Some(Returns)
    requires Success in p.hooks && p.hooks[Success].outcome == Raises(e) && e.kind != DeserializationError
    requires Quiet(p, Before) && Quiet(p, Error) && Quiet(p, After)
    ensures Invoke(Ok(p)) == Step(Dispatch(Ok(p), Before, []).trace + [Performed]
                                    + Dispatch(Ok(p), Success, []).trace
                                    + Dispatch(Ok(p), Error, [e]).trace
                                    + Dispatch(Ok(p), After, []).trace, Raises(e))
  {
    var pr := Ok(p);
    var before, success := Dispatch(pr, Before, []), Dispatch(pr, Success, []);
    var error, after := Dispatch(pr, Error, [e]), Dispatch(pr, After, []);
    RunSuccessRaises(p, e);
    RescueWithQuietError(p, e);
    BodyAfterQuietBefore(p);
    InvokeWithQuietAfter(p);
    Regroup(before.trace, [Performed] + success.trace, error.trace);
    Regroup(before.trace, [Performed], success.trace);
  }

  /** An exception from the after hook, in the ensure clause, replaces how
      the body ended, whether it returned or raised. */
  lemma AfterExceptionWins(p: Payload, e: Exception)
    requires After in p.hooks && p.hooks[After].outcome == Raises(e) && e.kind != DeserializationError
    ensures Invoke(Ok(p)).outcome == Raises(e)
  {
    assert Dispatch(Ok(p), After, []).outcome == Raises(e);
  }

  /** With the three hooks defined to take the job, a clean run makes exactly
      these calls. */
  lemma InvokeSuccessTrace(p: Payload)
    requires p.perform == Some(Returns)
    requires Before in p.hooks && p.hooks[Before] == HookMethod(1, Returns)
    requires Success in p.hooks && p.hooks[Success] == HookMethod(1, Returns)
    requires After in p.hooks && p.hooks[After] == HookMethod(1, Returns)
    ensures Invoke(Ok(p)) == Step([Called(Before, JobAnd([])), Performed, Called(Success, JobAnd([])),
                                   Called(After, JobAnd([]))], Returns)
  {
    InvokeSucceeds(p);
  }
}
