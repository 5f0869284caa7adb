/** Reservation (`reserve`, class side): walk the candidates the store found,
    in order, and take the first one whose exclusive lock succeeds. The
    candidate query (`find_available`) and the conditional lock write
    (`lock_exclusively!`) belong to the store: the candidates are an argument
    and the lock is an oracle. */
module Reservation {
  import opened Outcomes
  import opened Jobs

  /** `find_available(...).detect { |job| job.lock_exclusively!(max_run_time, worker.name) }`.
      Returns the reserved job, if any, and the candidates a lock was tried on,
      in order. */
  method Reserve(candidates: seq<Job>, workerName: string, maxRunTime: int,
                 lockExclusively: (Job, int, string) -> bool)
    returns (r: Option<Job>, attempted: seq<Job>)
    // Locks are tried on a prefix of the candidates, in order ...
    ensures |attempted| <= |candidates| && attempted == candidates[..|attempted|]
    // ... every one but the last of them failed ...
    ensures forall k :: 0 <= k < |attempted| - 1 ==> !lockExclusively(attempted[k], maxRunTime, workerName)
    // ... and the last one is the reserved job when its lock succeeded.
    ensures r.Some? <==> 0 < |attempted| && lockExclusively(attempted[|attempted| - 1], maxRunTime, workerName)
    ensures r.Some? ==> r.value == attempted[|attempted| - 1]
    // No reservation means every candidate was tried and none could be locked.
    ensures r.None? ==> attempted == candidates
    ensures r.None? ==> forall k :: 0 <= k < |candidates| ==> !lockExclusively(candidates[k], maxRunTime, workerName)
  {
    attempted := [];
    var i := 0;
    while i < |candidates|
      invariant 0 <= i <= |candidates|
      invariant attempted == candidates[..i]
      invariant forall k :: 0 <= k < i ==> !lockExclusively(candidates[k], maxRunTime, workerName)
    {
      var job := candidates[i];
      attempted := attempted + [job];
      if lockExclusively(job, maxRunTime, workerName) {
        return Some(job), attempted;
      }
      i := i + 1;
    }
    r := None;
  }
}
