/** The wall clock and timers the exporter uses (`Date.now()` and
    `await sleep(ms)`), as a virtual clock: time moves only when someone sleeps,
    and every sleep is recorded. */
module Clock {

  class VirtualClock {
    /** The value `Date.now()` returns, in milliseconds. */
    var now: int
    /** Every delay slept so far, in order. */
    var sleeps: seq<nat>

    constructor (start: int)
      ensures now == start && sleeps == []
    {
      now := start;
      sleeps := [];
    }

    /** `await sleep(ms)`: the caller resumes `ms` milliseconds later. */
    method Sleep(ms: nat)
      modifies this
      ensures now == old(now) + ms
      ensures sleeps == old(sleeps) + [ms]
    {
      now := now + ms;
      sleeps := sleeps + [ms];
    }
  }
}
