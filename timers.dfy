/** The runtime's recurring timers (`setInterval` / `clearInterval`) as a table
    of running handles. A handle is an opaque token; a timer fires only when
    the model calls the client's tick for it. */
module Timers {

  datatype Handle = Handle(id: nat)

  /** What a running interval does: poll `pair` every `periodMs` milliseconds. */
  datatype PollTimer = PollTimer(pair: string, periodMs: nat)

  class IntervalTimers {
    /** The timers that are running. */
    var active: map<Handle, PollTimer>
    /** The id the next `setInterval` hands out. */
    var next: nat

    /** Every running handle was handed out earlier, so new ones are fresh. */
    predicate Valid()
      reads this
    {
      forall h | h in active :: h.id < next
    }

    constructor ()
      ensures Valid() && active == map[]
    {
      active := map[];
      next := 0;
    }

    /** `setInterval(poll pair, periodMs)`: a new, distinct handle. */
    method Start(pair: string, periodMs: nat) returns (h: Handle)
      requires Valid()
      modifies this
      ensures Valid()
      ensures h !in old(active) && active == old(active)[h := PollTimer(pair, periodMs)]
    {
      h := Handle(next);
      active := active[h := PollTimer(pair, periodMs)];
      next := next + 1;
    }

    /** `clearInterval(h)`: stops `h` if it is running. */
    method Clear(h: Handle)
      requires Valid()
      modifies this
      ensures Valid() && active == old(active) - {h}
    {
      active := active - {h};
    }
  }
}
