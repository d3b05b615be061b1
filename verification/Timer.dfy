/** The timer as a value, with unbounded times: which events are pending, when each is
    due, and the clock they are compared against. */
module Timer {
  import opened EventTime

  /** A time event block, named by what its callback acts on. */
  datatype TMEVTB = TaskTimeout(tsk: nat) | CyclicEvent(cyc: nat) | AlarmEvent(alm: nat)

  /** The tick period: `whole` milliseconds and `frac / deno` of one, that is
      TIC_NUME / TIC_DENO and TIC_NUME % TIC_DENO over TIC_DENO. */
  datatype Tick = Tick(whole: nat, frac: nat, deno: nat)

  /** `next` and `sub` are the time of the next tick and its fraction; `ticking` holds
      from the start of a tick until its last event has been fired. */
  datatype TimerState = TimerState(
    tick: Tick, pending: map<TMEVTB, nat>,
    min: nat, current: nat, next: nat, sub: nat, ticking: bool)

  /** The period is positive, short enough for every pending time to stay within one
      wrap of the origin, and its denominator leaves room to add two fractions. */
  predicate ValidTick(tick: Tick) {
    && tick.frac < tick.deno <= 0x8000_0000
    && tick.whole < 0x3fff_fff0
    && (tick.whole > 0 || tick.frac > 0)
  }

  function Initial(tick: Tick): TimerState {
    TimerState(tick, map[], 0, 0, tick.whole, tick.frac, false)
  }

  /** The origin of relative times: the time of the next tick, rounded up. */
  function Base(tm: TimerState): nat {
    tm.next + if tm.sub > 0 then 1 else 0
  }

  /** The clock never runs backwards, two ticks never exceed the window, and every
      pending time is neither overdue nor further ahead than can be asked for. */
  ghost predicate TimerOk(tm: TimerState) {
    && ValidTick(tm.tick)
    && tm.sub < tm.tick.deno
    && tm.min <= tm.current <= tm.min + tm.tick.whole + 1
    && tm.current <= tm.next <= tm.current + tm.tick.whole + 1
    && (tm.current < tm.next || tm.sub > 0)
    && (!tm.ticking ==> tm.min == tm.current)
    && forall e :: e in tm.pending ==> tm.min <= tm.pending[e] <= Base(tm) + TMAX_RELTIM
  }

  function Enqueue(tm: TimerState, e: TMEVTB, time: nat): TimerState {
    tm.(pending := tm.pending[e := Base(tm) + time])
  }

  function EnqueueAt(tm: TimerState, e: TMEVTB, time: nat): TimerState {
    tm.(pending := tm.pending[e := time])
  }

  /** The remaining time of an event, counted from the origin of relative times. */
  function Lefttim(tm: TimerState, e: TMEVTB): nat
    requires e in tm.pending
  {
    if tm.pending[e] <= Base(tm) then 0 else tm.pending[e] - Base(tm)
  }

  function Dequeue(tm: TimerState, e: TMEVTB): TimerState {
    tm.(pending := tm.pending - {e})
  }

  function BeginTick(tm: TimerState): TimerState {
    var sub := tm.sub + tm.tick.frac;
    if sub >= tm.tick.deno
    then tm.(current := tm.next, next := tm.next + tm.tick.whole + 1, sub := sub - tm.tick.deno, ticking := true)
    else tm.(current := tm.next, next := tm.next + tm.tick.whole, sub := sub, ticking := true)
  }

  function EndTick(tm: TimerState): TimerState {
    tm.(min := tm.current, ticking := false)
  }

  /** `e` is an event the loop of the current tick may fire next. */
  ghost predicate Fireable(tm: TimerState, e: TMEVTB) {
    && tm.ticking
    && e in tm.pending
    && tm.pending[e] <= tm.current
    && forall x :: x in tm.pending ==> tm.pending[e] <= tm.pending[x]
  }

  /** Nothing is left to fire in the current tick. */
  ghost predicate Drained(tm: TimerState) {
    forall x :: x in tm.pending ==> tm.pending[x] > tm.current
  }

  // ---- the window

  lemma BaseIsLater(tm: TimerState)
    requires TimerOk(tm)
    ensures tm.current < Base(tm)
    ensures Base(tm) + TMAX_RELTIM < tm.min + EVTTIM_MODULUS
  {
  }

  /** Every pending time lies in the window in which stored times compare correctly. */
  lemma PendingInWindow(tm: TimerState)
    requires TimerOk(tm)
    ensures forall e :: e in tm.pending ==> InWindow(tm.min, tm.pending[e])
    ensures InWindow(tm.min, tm.current) && InWindow(tm.min, tm.next) && InWindow(tm.min, Base(tm))
  {
    BaseIsLater(tm);
  }

  // ---- each operation keeps TimerOk

  lemma InitialOk(tick: Tick)
    requires ValidTick(tick)
    ensures TimerOk(Initial(tick))
  {
  }

  lemma EnqueueOk(tm: TimerState, e: TMEVTB, time: nat)
    requires TimerOk(tm) && time <= TMAX_RELTIM
    ensures TimerOk(Enqueue(tm, e, time))
  {
  }

  lemma DequeueOk(tm: TimerState, e: TMEVTB)
    requires TimerOk(tm)
    ensures TimerOk(Dequeue(tm, e))
    ensures e in tm.pending ==> |Dequeue(tm, e).pending| == |tm.pending| - 1
  {
    assert (tm.pending - {e}).Keys == tm.pending.Keys - {e};
  }

  lemma BeginTickOk(tm: TimerState)
    requires TimerOk(tm) && !tm.ticking
    ensures TimerOk(BeginTick(tm))
  {
  }

  lemma EndTickOk(tm: TimerState)
    requires TimerOk(tm) && Drained(tm)
    ensures TimerOk(EndTick(tm))
  {
  }

  /** A fired cyclic event may be put back one cycle later. */
  lemma RearmOk(tm: TimerState, e: TMEVTB, due: nat, cyctim: nat)
    requires TimerOk(tm) && tm.min <= due <= tm.current && cyctim <= TMAX_RELTIM
    ensures TimerOk(EnqueueAt(tm, e, due + cyctim))
  {
    BaseIsLater(tm);
  }

  /** Asking right after an enqueue gives back the time asked for. */
  lemma LefttimAfterEnqueue(tm: TimerState, e: TMEVTB, time: nat)
    ensures Lefttim(Enqueue(tm, e, time), e) == time
  {
    assert Base(Enqueue(tm, e, time)) == Base(tm);
  }
}
