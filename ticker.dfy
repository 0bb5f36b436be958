/**
 * The virtual clock of the unit-test harness: the current time, one pending
 * tick slot and one special-event slot, the setters the engine uses, and the
 * choice the dispatch loop makes between the two slots.
 */
module Ticker {
  import opened BsTypes

  /** Stands for a tb_defs_unit_test_event_handler_t function pointer. */
  type HandlerId = nat

  /** The scheduler's globals: now, next_tick_time, the special event time and its handler. */
  datatype Clock = Clock(now: Time, tick: Time, special: Time, handler: Option<HandlerId>)

  /** The globals' initial values. */
  const START: Clock := Clock(0, TIME_NEVER, TIME_NEVER, None)

  /** Which slot the dispatch loop serves next. */
  datatype Source = TickSource | SpecialSource

  /**
   * Every pending slot lies at or after now, and a pending special event has a
   * handler to call. Every setter below keeps this.
   */
  predicate ClockOk(c: Clock)
  {
    && (c.tick == TIME_NEVER || c.tick >= c.now)
    && (c.special == TIME_NEVER || c.special >= c.now)
    && (c.special != TIME_NEVER ==> c.handler.Some?)
  }

  /** The loop of the scheduler keeps going while one of the slots is pending. */
  predicate Pending(c: Clock)
  {
    c.tick != TIME_NEVER || c.special != TIME_NEVER
  }

  function Min(a: Time, b: Time): Time
  {
    if a <= b then a else b
  }

  /** bst_ticker_set_next_tick_absolute: a time in the past cancels the tick instead. */
  function SetTickAbsolute(c: Clock, t: Time): (r: Clock)
    ensures r.now == c.now && r.special == c.special && r.handler == c.handler
    ensures c.now <= t ==> r.tick == t
    ensures t < c.now ==> r.tick == TIME_NEVER
    ensures ClockOk(c) ==> ClockOk(r)
  {
    c.(tick := if t >= c.now then t else TIME_NEVER)
  }

  /** bst_ticker_set_next_tick_delta: overwrites the pending tick with now + d. */
  function SetTickDelta(c: Clock, d: Time): (r: Clock)
    requires NoWrap(c.now, d)
    ensures r.now == c.now && r.special == c.special && r.handler == c.handler
    ensures r.tick - r.now == d
    ensures ClockOk(c) ==> ClockOk(r)
  {
    c.(tick := c.now + d)
  }

  /** tb_defs_unit_test_schedule_special_event_delta: overwrites the single event slot. */
  function ScheduleSpecial(c: Clock, d: Time, h: HandlerId): (r: Clock)
    requires NoWrap(c.now, d)
    ensures r.now == c.now && r.tick == c.tick
    ensures r.special - r.now == d && r.handler == Some(h)
    ensures ClockOk(c) ==> ClockOk(r)
  {
    c.(special := c.now + d, handler := Some(h))
  }

  /** The slot the loop serves: the special event only when it is strictly earlier. */
  function NextSource(c: Clock): (s: Source)
    ensures s == SpecialSource <==> c.special < c.tick
  {
    if c.special < c.tick then SpecialSource else TickSource
  }

  /**
   * One choice of the dispatch loop, before the handler runs: time jumps to the
   * earlier slot and that slot is emptied.
   */
  function Dispatch(c: Clock): (r: Clock)
    requires Pending(c)
    ensures r.now == Min(c.tick, c.special)
    ensures NextSource(c) == TickSource ==> r.tick == TIME_NEVER && r.special == c.special
    ensures NextSource(c) == SpecialSource ==> r.special == TIME_NEVER && r.tick == c.tick
    ensures r.handler == c.handler
  {
    match NextSource(c)
    case SpecialSource => c.(now := c.special, special := TIME_NEVER)
    case TickSource => c.(now := c.tick, tick := TIME_NEVER)
  }

  /** Ties go to the tick: an event due at the same time as the tick waits for it. */
  lemma TieGoesToTick(c: Clock)
    requires Pending(c) && c.tick == c.special
    ensures NextSource(c) == TickSource
    ensures Dispatch(c).now == c.tick && Dispatch(c).special == c.special
  {
  }

  /**
   * Dispatching from a sane clock never moves time backwards, takes the
   * earliest pending time, and leaves the clock sane.
   */
  lemma DispatchMonotone(c: Clock)
    requires ClockOk(c) && Pending(c)
    ensures c.now <= Dispatch(c).now
    ensures Dispatch(c).now != TIME_NEVER ==> Dispatch(c).now <= c.tick && Dispatch(c).now <= c.special
    ensures ClockOk(Dispatch(c))
    ensures NextSource(c) == SpecialSource ==> Dispatch(c).handler.Some?
  {
  }

  /** The globals of tb_defs_unit_test_utils.c, updated in place by the setters and the loop. */
  class Kernel {
    var now: Time
    var nextTick: Time
    var specialTime: Time
    var handler: Option<HandlerId>

    function Value(): Clock
      reads this
    {
      Clock(now, nextTick, specialTime, handler)
    }

    constructor ()
      ensures Value() == START
    {
      now, nextTick, specialTime, handler := 0, TIME_NEVER, TIME_NEVER, None;
    }

    /** tm_get_hw_time: the scheduler's current time. */
    function HwTime(): (t: Time)
      reads this
      ensures t == Value().now
    {
      now
    }

    method SetNextTickAbsolute(t: Time)
      modifies this
      ensures Value() == SetTickAbsolute(old(Value()), t)
    {
      nextTick := if t >= now then t else TIME_NEVER;
    }

    method SetNextTickDelta(d: Time)
      requires NoWrap(now, d)
      modifies this
      ensures Value() == SetTickDelta(old(Value()), d)
    {
      nextTick := now + d;
    }

    method ScheduleSpecialEventDelta(d: Time, h: HandlerId)
      requires NoWrap(now, d)
      modifies this
      ensures Value() == ScheduleSpecial(old(Value()), d, h)
    {
      specialTime := now + d;
      handler := Some(h);
    }

    /** The body of the dispatch loop up to the handler call: pick the slot, advance now, clear it. */
    method TakeNext() returns (s: Source)
      requires Pending(Value())
      modifies this
      ensures s == NextSource(old(Value()))
      ensures Value() == Dispatch(old(Value()))
    {
      if specialTime < nextTick {
        s := SpecialSource;
        now := specialTime;
        specialTime := TIME_NEVER;
      } else {
        s := TickSource;
        now := nextTick;
        nextTick := TIME_NEVER;
      }
    }
  }
}
