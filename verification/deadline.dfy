/** The per-task deadline of the benchmark driver (`TaskTimer` in run.py). */
module Deadline {
  import opened Wrappers

  /** Seconds a task may take before the driver gives up on it. */
  const DefaultTimeout: int := 1800

  class TaskTimer {
    const timeout: int
    var startTime: Option<int>

    constructor (timeoutSec: int := DefaultTimeout)
      ensures timeout == timeoutSec && startTime == None
    {
      timeout := timeoutSec;
      startTime := None;
    }

    predicate Started()
      reads this
    {
      startTime.Some?
    }

    /** Records the clock reading `now` as the start of the task. */
    method Start(now: int)
      modifies this
      ensures startTime == Some(now)
    {
      startTime := Some(now);
    }

    /**
     * Whether more than `timeout` seconds have passed since the start, strictly.
     * Asking before `Start` is a `TypeError` in the source, so callers start first.
     */
    function Expired(now: int): (r: bool)
      reads this
      requires Started()
      ensures r <==> now > startTime.value + timeout
    {
      now - startTime.value > timeout
    }
  }

  /** Once expired, a timer stays expired. */
  lemma ExpiredIsMonotone(t: TaskTimer, now: int, later: int)
    requires t.Started() && now <= later && t.Expired(now)
    ensures t.Expired(later)
  {
  }

  /** Exactly `timeout` seconds after the start the timer has not yet expired. */
  lemma NotExpiredAtBoundary(t: TaskTimer)
    requires t.Started()
    ensures !t.Expired(t.startTime.value + t.timeout)
    ensures t.Expired(t.startTime.value + t.timeout + 1)
  {
  }
}
