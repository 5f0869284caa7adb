/** Retry arithmetic of a job record: when a failed job runs next
    (`reschedule_at`) and how often it may be tried (`max_attempts`).
    Times are integer seconds on the store's clock. */
module Retry {
  import opened Outcomes
  import opened Payloads

  /** `attempts ** 4` */
  function Pow4(a: int): nat {
    var s := a * a;
    s * s
  }

  /** The default backoff: `db_time_now + (attempts ** 4) + 5`. */
  function DefaultRescheduleAt(now: int, attempts: int): (t: int)
    ensures t >= now + 5
  {
    now + Pow4(attempts) + 5
  }

  /** The first retries come 5, 6, 21 and 86 seconds after the failure. */
  lemma BackoffSchedule(now: int)
    ensures DefaultRescheduleAt(now, 0) == now + 5
    ensures DefaultRescheduleAt(now, 1) == now + 6
    ensures DefaultRescheduleAt(now, 2) == now + 21
    ensures DefaultRescheduleAt(now, 3) == now + 86
  {
  }

  lemma SquareStrictlyIncreasing(x: int, y: int)
    requires 0 <= x < y
    ensures x * x < y * y
  {
    calc {
      x * x;
    <=  { assert x * x <= x * y; }
      x * y;
    <   { assert (y - x) * y > 0; }
      y * y;
    }
  }

  /** Each further failure pushes the default retry strictly later. */
  lemma BackoffStrictlyIncreasing(now: int, a: int, b: int)
    requires 0 <= a < b
    ensures DefaultRescheduleAt(now, a) < DefaultRescheduleAt(now, b)
  {
    SquareStrictlyIncreasing(a, b);
    SquareStrictlyIncreasing(a * a, b * b);
  }

  /** `reschedule_at` once the payload is known: the payload's own
      `reschedule_at(now, attempts)` replaces the formula entirely when it
      defines one. The payload's method is application code, so it is a
      parameter. */
  function NextRunAt(p: Payload, now: int, attempts: int, own: (Payload, int, int) -> int): (t: int)
    ensures p.reschedules ==> t == own(p, now, attempts)
    ensures !p.reschedules ==> t == DefaultRescheduleAt(now, attempts) && t >= now + 5
  {
    if p.reschedules then own(p, now, attempts) else DefaultRescheduleAt(now, attempts)
  }

  /** `reschedule_at` of a record whose payload lookup answered `pr`: a
      failed lookup is not rescued, so its exception reaches the caller. */
  function RescheduleFrom(pr: Result<Payload>, now: int, attempts: int, own: (Payload, int, int) -> int): (r: Result<int>)
    ensures r.Ok? <==> pr.Ok?
    ensures pr.Ok? && !pr.value.reschedules ==> r.value == now + Pow4(attempts) + 5
    ensures pr.Ok? && pr.value.reschedules ==> r.value == own(pr.value, now, attempts)
    ensures pr.Err? ==> r.error == pr.error
  {
    match pr
    case Ok(p) => Ok(NextRunAt(p, now, attempts, own))
    case Err(e) => Err(e)
  }

  /** `max_attempts`: what the payload declares, or nil when it declares
      nothing; a failed payload lookup is not rescued. */
  function MaxAttemptsFrom(pr: Result<Payload>): (r: Result<Option<int>>)
    ensures r.Ok? <==> pr.Ok?
    ensures pr.Ok? ==> r.value == pr.value.maxAttempts
    ensures pr.Err? ==> r.error == pr.error
  {
    match pr
    case Ok(p) => Ok(p.maxAttempts)
    case Err(e) => Err(e)
  }
}
