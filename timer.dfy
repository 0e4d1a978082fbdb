/**
 * The stopwatch of util/timer.py. The wall clock is not read here: every
 * operation that reads time.time() takes the reading as a parameter.
 */
module Timing {
  import opened Values

  class Timer {
    /** The clock reading taken by the last start(), or None before any. */
    var startTime: Option<real>

    /** Timer(start_now); `now` is the reading start() would take. */
    constructor(startNow: bool, now: real)
      ensures startTime == (if startNow then Some(now) else None)
    {
      startTime := None;
      new;
      if startNow {
        Start(now);
      }
    }

    /** start(): records `now` as the start, replacing any earlier one. */
    method Start(now: real)
      modifies this
      ensures startTime == Some(now)
    {
      startTime := Some(now);
    }

    /**
     * get_duration(): the reading `now` minus the start. On a timer that was
     * never started Python evaluates `now - None`, a TypeError.
     */
    method GetDuration(now: real) returns (d: Result<real>)
      ensures startTime.None? ==> d == Err(TypeError)
      ensures startTime.Some? ==> d.Ok? && startTime.value + d.value == now
    {
      if startTime.None? {
        return Err(TypeError);
      }
      d := Ok(now - startTime.value);
    }
  }
}
