/** The firing discipline over whole runs: handlers, nested interrupts and tasks may start
    and stop events at any moment, also between two firings of the same tick. */
module Firing {
  import opened EventTime
  import opened Timer

  /** One event fired: when it was due, the time of the tick that fired it and of the
      tick before, and the number of that tick. */
  datatype Fired = Fired(event: TMEVTB, due: nat, prev: nat, at: nat, tickNo: nat)

  datatype Action =
    | Start(event: TMEVTB, time: nat)     // tmevtb_enqueue
    | Cancel(event: TMEVTB)               // tmevtb_dequeue
    | SupplyTick                          // signal_time up to its loop
    | Fire(event: TMEVTB)                 // one iteration; a cyclic event is re-armed
    | FinishTick                          // signal_time after its loop

  datatype Run = Run(tm: TimerState, ticks: nat, log: seq<Fired>)

  /** The period of every cyclic handler. */
  ghost predicate ValidPeriods(cyctim: seq<nat>) {
    forall c :: 0 <= c < |cyctim| ==> 0 < cyctim[c] <= TMAX_RELTIM
  }

  function Period(cyctim: seq<nat>, e: TMEVTB): nat {
    if e.CyclicEvent? && e.cyc < |cyctim| then cyctim[e.cyc] else 0
  }

  /** Removing `e` for its callback; the cyclic handler routine puts it back at once. */
  function FireEvent(cyctim: seq<nat>, tm: TimerState, e: TMEVTB): TimerState
    requires e in tm.pending
  {
    if Period(cyctim, e) > 0
    then EnqueueAt(Dequeue(tm, e), e, tm.pending[e] + Period(cyctim, e))
    else Dequeue(tm, e)
  }

  ghost predicate Enabled(r: Run, a: Action) {
    match a
    case Start(e, time) => e !in r.tm.pending && time <= TMAX_RELTIM
    case Cancel(e) => e in r.tm.pending
    case SupplyTick => !r.tm.ticking
    case Fire(e) => Fireable(r.tm, e)
    case FinishTick => r.tm.ticking && Drained(r.tm)
  }

  ghost function Step(cyctim: seq<nat>, r: Run, a: Action): Run
    requires Enabled(r, a)
  {
    match a
    case Start(e, time) => r.(tm := Enqueue(r.tm, e, time))
    case Cancel(e) => r.(tm := Dequeue(r.tm, e))
    case SupplyTick => r.(tm := BeginTick(r.tm), ticks := r.ticks + 1)
    case Fire(e) => r.(tm := FireEvent(cyctim, r.tm, e),
                       log := r.log + [Fired(e, r.tm.pending[e], r.tm.min, r.tm.current, r.ticks)])
    case FinishTick => r.(tm := EndTick(r.tm))
  }

  /** At start-up only cyclic handlers are pending, at their phases. */
  ghost predicate InitialRun(r: Run) {
    && ValidTick(r.tm.tick)
    && r.tm == Initial(r.tm.tick).(pending := r.tm.pending)
    && (forall e :: e in r.tm.pending ==> r.tm.pending[e] <= TMAX_RELTIM)
    && r.ticks == 0 && r.log == []
  }

  ghost predicate Executes(cyctim: seq<nat>, r: Run, acts: seq<Action>, r': Run)
    decreases acts
  {
    if acts == [] then r == r'
    else Enabled(r, acts[0]) && Executes(cyctim, Step(cyctim, r, acts[0]), acts[1..], r')
  }

  // ---- the inductive invariant

  function Nume(tick: Tick): nat { tick.whole * tick.deno + tick.frac }

  /** The clock after `n` ticks is exactly `n` periods, rounded down, and the next tick
      with its fraction exactly one period more: fractions never accumulate an error. */
  ghost predicate ClockExact(tm: TimerState, n: nat) {
    && tm.next * tm.tick.deno + tm.sub == n * Nume(tm.tick) + Nume(tm.tick)
    && tm.current * tm.tick.deno <= n * Nume(tm.tick) < tm.current * tm.tick.deno + tm.tick.deno
  }

  /** The tick before tick `n`, as long as there was one. */
  ghost predicate PrevExact(tick: Tick, prev: nat, n: nat) {
    n >= 1 && prev * tick.deno <= (n - 1) * Nume(tick) < prev * tick.deno + tick.deno
  }

  /** A firing record is right: fired when due, not before, and by the first tick whose
      time had reached it. */
  ghost predicate FiredOnTime(tick: Tick, f: Fired) {
    && f.due <= f.at
    && f.tickNo >= 1
    && (f.prev < f.due || f.tickNo == 1)
    && f.at * tick.deno <= f.tickNo * Nume(tick)
    && PrevExact(tick, f.prev, f.tickNo)
  }

  ghost predicate Before(log: seq<Fired>, i: nat, j: nat)
    requires i < |log| && j < |log|
  {
    log[i].due <= log[j].due && (log[i].event == log[j].event ==> log[i].due < log[j].due)
  }

  /** Whatever fired was due no later than anything pending, and an event pending again
      is due strictly later than whenever it fired. */
  ghost predicate Passed(tm: TimerState, f: Fired) {
    && f.due <= tm.current
    && forall x :: x in tm.pending ==> f.due <= tm.pending[x] && (x == f.event ==> f.due < tm.pending[x])
  }

  ghost predicate NotOverdue(r: Run) {
    && (r.tm.ticking ==> r.ticks >= 1 && PrevExact(r.tm.tick, r.tm.min, r.ticks))
    && (r.ticks == 0 || (r.ticks == 1 && r.tm.ticking)
        || forall e :: e in r.tm.pending ==> r.tm.min < r.tm.pending[e])
  }

  ghost predicate RunOk(r: Run) {
    && TimerOk(r.tm)
    && ClockExact(r.tm, r.ticks)
    && NotOverdue(r)
    && (forall i :: 0 <= i < |r.log| ==> FiredOnTime(r.tm.tick, r.log[i]))
    && (forall i :: 0 <= i < |r.log| ==> Passed(r.tm, r.log[i]))
    && (forall i, j :: 0 <= i < j < |r.log| ==> Before(r.log, i, j))
  }

  lemma InitialRunOk(r: Run)
    requires InitialRun(r)
    ensures RunOk(r)
  {
    var t := r.tm.tick;
    assert 0 * Nume(t) == 0;
    assert r.tm.next * t.deno == t.whole * t.deno;
  }

  lemma SupplyTickExact(tm: TimerState, n: nat)
    requires ValidTick(tm.tick) && ClockExact(tm, n) && tm.sub < tm.tick.deno
    ensures ClockExact(BeginTick(tm), n + 1)
    ensures PrevExact(tm.tick, tm.current, n + 1)
  {
    var t := tm.tick;
    var N := Nume(t);
    assert (n + 1) * N == n * N + N;
    assert (tm.next + t.whole) * t.deno == tm.next * t.deno + t.whole * t.deno;
    assert (tm.next + t.whole + 1) * t.deno == tm.next * t.deno + t.whole * t.deno + t.deno;
  }

  lemma SupplyTickOk(r: Run)
    requires RunOk(r) && !r.tm.ticking
    ensures RunOk(r.(tm := BeginTick(r.tm), ticks := r.ticks + 1))
  {
    BeginTickOk(r.tm);
    SupplyTickExact(r.tm, r.ticks);
    var tm' := BeginTick(r.tm);
    forall i | 0 <= i < |r.log| ensures Passed(tm', r.log[i]) {
      assert Passed(r.tm, r.log[i]);
    }
  }

  lemma FireOk(cyctim: seq<nat>, r: Run, e: TMEVTB)
    requires ValidPeriods(cyctim) && RunOk(r) && Fireable(r.tm, e)
    ensures RunOk(Step(cyctim, r, Fire(e)))
  {
    var r' := Step(cyctim, r, Fire(e));
    var due := r.tm.pending[e];
    DequeueOk(r.tm, e);
    if Period(cyctim, e) > 0 {
      RearmOk(Dequeue(r.tm, e), e, due, Period(cyctim, e));
    }
    var f := Fired(e, due, r.tm.min, r.tm.current, r.ticks);
    assert FiredOnTime(r.tm.tick, f);
    forall i | 0 <= i < |r'.log| ensures FiredOnTime(r.tm.tick, r'.log[i]) && Passed(r'.tm, r'.log[i]) {
      if i < |r.log| {
        assert FiredOnTime(r.tm.tick, r.log[i]) && Passed(r.tm, r.log[i]);
      }
    }
    forall i, j | 0 <= i < j < |r'.log| ensures Before(r'.log, i, j) {
      if j < |r.log| {
        assert Before(r.log, i, j);
      } else {
        assert Passed(r.tm, r.log[i]);
      }
    }
  }

  lemma StepOk(cyctim: seq<nat>, r: Run, a: Action)
    requires ValidPeriods(cyctim) && RunOk(r) && Enabled(r, a)
    ensures RunOk(Step(cyctim, r, a))
  {
    var r' := Step(cyctim, r, a);
    match a
    case SupplyTick => SupplyTickOk(r);
    case Fire(e) => FireOk(cyctim, r, e);
    case Start(e, time) =>
      EnqueueOk(r.tm, e, time);
      BaseIsLater(r.tm);
      StaysPassed(r, r'.tm, e);
    case Cancel(e) =>
      DequeueOk(r.tm, e);
      StaysPassed(r, r'.tm, e);
    case FinishTick =>
      EndTickOk(r.tm);
      forall i | 0 <= i < |r.log| ensures Passed(r'.tm, r.log[i]) {
        assert Passed(r.tm, r.log[i]);
      }
  }

  /** What has fired stays passed while nothing becomes pending but `e`, for a later time. */
  lemma StaysPassed(r: Run, tm: TimerState, e: TMEVTB)
    requires RunOk(r) && tm.current == r.tm.current
    requires forall x :: x in tm.pending && x != e ==> x in r.tm.pending && tm.pending[x] == r.tm.pending[x]
    requires e in tm.pending ==> r.tm.current < tm.pending[e]
    ensures forall i :: 0 <= i < |r.log| ==> Passed(tm, r.log[i])
  {
    forall i | 0 <= i < |r.log| ensures Passed(tm, r.log[i]) {
      assert Passed(r.tm, r.log[i]);
    }
  }

  lemma {:induction false} RunKeepsOk(cyctim: seq<nat>, r: Run, acts: seq<Action>, r': Run)
    requires ValidPeriods(cyctim) && RunOk(r) && Executes(cyctim, r, acts, r')
    ensures RunOk(r') && r'.tm.tick == r.tm.tick
    decreases acts
  {
    if acts != [] {
      StepOk(cyctim, r, acts[0]);
      RunKeepsOk(cyctim, Step(cyctim, r, acts[0]), acts[1..], r');
    }
  }

  // ---- the theorems about runs

  /** Over every run: what fired had been due, by the first tick whose time reached it;
      due times never decrease along the log; and no event fires twice for the same time. */
  lemma FiringDiscipline(cyctim: seq<nat>, r: Run, acts: seq<Action>, r': Run)
    requires ValidPeriods(cyctim) && InitialRun(r) && Executes(cyctim, r, acts, r')
    ensures forall i :: 0 <= i < |r'.log| ==> FiredOnTime(r'.tm.tick, r'.log[i])
    ensures forall i, j :: 0 <= i < j < |r'.log| ==> r'.log[i].due <= r'.log[j].due
    ensures forall i, j :: 0 <= i < j < |r'.log| ==>
              (r'.log[i].event, r'.log[i].due) != (r'.log[j].event, r'.log[j].due)
  {
    InitialRunOk(r);
    RunKeepsOk(cyctim, r, acts, r');
    forall i, j | 0 <= i < j < |r'.log|
      ensures r'.log[i].due <= r'.log[j].due
      ensures (r'.log[i].event, r'.log[i].due) != (r'.log[j].event, r'.log[j].due)
    {
      assert Before(r'.log, i, j);
    }
  }

  ghost predicate HasFired(log: seq<Fired>, e: TMEVTB, due: nat) {
    exists i :: 0 <= i < |log| && log[i].event == e && log[i].due == due
  }

  /** An event that is never cancelled is either still waiting for its time or has fired. */
  lemma {:induction false} PendingOrFired(cyctim: seq<nat>, r: Run, acts: seq<Action>, r': Run, e: TMEVTB, due: nat)
    requires Executes(cyctim, r, acts, r')
    requires (e in r.tm.pending && r.tm.pending[e] == due) || HasFired(r.log, e, due)
    requires Cancel(e) !in acts
    ensures (e in r'.tm.pending && r'.tm.pending[e] == due) || HasFired(r'.log, e, due)
    decreases acts
  {
    if acts != [] {
      var s := Step(cyctim, r, acts[0]);
      assert acts[0] != Cancel(e);
      if HasFired(r.log, e, due) {
        var i :| 0 <= i < |r.log| && r.log[i].event == e && r.log[i].due == due;
        assert s.log[i] == r.log[i];
      } else if acts[0] == Fire(e) {
        var last := |r.log|;
        assert s.log[last].event == e && s.log[last].due == due;
      }
      PendingOrFired(cyctim, s, acts[1..], r', e, due);
    }
  }

  /** Every pending event that is not cancelled has fired, exactly once for that time, when
      a tick whose time reaches it is over. */
  lemma FiredByThen(cyctim: seq<nat>, r0: Run, before: seq<Action>, r: Run, acts: seq<Action>, r': Run, e: TMEVTB)
    requires ValidPeriods(cyctim) && InitialRun(r0)
    requires Executes(cyctim, r0, before, r) && Executes(cyctim, r, acts, r')
    requires e in r.tm.pending && Cancel(e) !in acts
    requires !r'.tm.ticking && r'.ticks > 0 && r.tm.pending[e] <= r'.tm.current
    ensures HasFired(r'.log, e, r.tm.pending[e])
    ensures forall i, j :: 0 <= i < j < |r'.log| && r'.log[i].event == r'.log[j].event == e ==>
              r'.log[i].due != r'.log[j].due
  {
    InitialRunOk(r0);
    RunKeepsOk(cyctim, r0, before, r);
    RunKeepsOk(cyctim, r, acts, r');
    PendingOrFired(cyctim, r, acts, r', e, r.tm.pending[e]);
    forall i, j | 0 <= i < j < |r'.log| && r'.log[i].event == r'.log[j].event == e
      ensures r'.log[i].due < r'.log[j].due
    {
      assert Before(r'.log, i, j);
    }
  }

  lemma MulLe(a: nat, b: nat, d: nat)
    requires a <= b
    ensures a * d <= b * d
  {
  }

  lemma MulAdd(a: nat, b: nat, d: nat)
    ensures (a + b) * d == a * d + b * d
  {
  }

  /** Rounding the next tick up moves it by less than a millisecond. */
  lemma BaseBounds(tm: TimerState)
    requires TimerOk(tm)
    ensures var D := tm.tick.deno;
            tm.next * D + tm.sub <= Base(tm) * D < tm.next * D + tm.sub + D
  {
    MulAdd(tm.next, 1, tm.tick.deno);
  }

  /** A time is passed by the tick that fires an event due then, and by less than a tick. */
  lemma FiredBounds(tick: Tick, f: Fired)
    requires ValidTick(tick) && FiredOnTime(tick, f) && f.due > 0
    ensures f.due * tick.deno <= f.tickNo * Nume(tick) < f.due * tick.deno + Nume(tick)
  {
    var N, D := Nume(tick), tick.deno;
    MulLe(f.due, f.at, D);
    MulAdd(f.tickNo - 1, 1, N);
    if f.tickNo == 1 {
      MulLe(1, f.due, D);
      assert (f.tickNo - 1) * N == 0;
    } else {
      MulLe(f.prev + 1, f.due, D);
      MulAdd(f.prev, 1, D);
    }
  }

  /** A relative time of `t` ms asked for at real time `now` (in units of 1/deno ms, after
      tick `r.ticks` and before the next) is never cut short, and is exceeded by less than
      one millisecond and two ticks. */
  lemma AccurateFiring(r: Run, f: Fired, t: nat, now: nat)
    requires RunOk(r) && FiredOnTime(r.tm.tick, f) && f.due == Base(r.tm) + t
    requires r.ticks * Nume(r.tm.tick) <= now < r.ticks * Nume(r.tm.tick) + Nume(r.tm.tick)
    ensures var fired := f.tickNo * Nume(r.tm.tick);
            && now + t * r.tm.tick.deno < fired
            && fired < now + (t + 1) * r.tm.tick.deno + 2 * Nume(r.tm.tick)
  {
    BaseBounds(r.tm);
    FiredBounds(r.tm.tick, f);
    MulAdd(Base(r.tm), t, r.tm.tick.deno);
    MulAdd(t, 1, r.tm.tick.deno);
  }

  /** So it is over every run, whatever else happens in between. */
  lemma TimeoutAccuracy(cyctim: seq<nat>, r0: Run, before: seq<Action>, r: Run, acts: seq<Action>, r': Run,
                        e: TMEVTB, t: nat, now: nat, i: nat)
    requires ValidPeriods(cyctim) && InitialRun(r0) && Executes(cyctim, r0, before, r)
    requires Enabled(r, Start(e, t)) && Executes(cyctim, Step(cyctim, r, Start(e, t)), acts, r')
    requires r.ticks * Nume(r.tm.tick) <= now < r.ticks * Nume(r.tm.tick) + Nume(r.tm.tick)
    requires i < |r'.log| && r'.log[i].event == e && r'.log[i].due == Base(r.tm) + t
    ensures var fired := r'.log[i].tickNo * Nume(r.tm.tick);
            && now + t * r.tm.tick.deno < fired
            && fired < now + (t + 1) * r.tm.tick.deno + 2 * Nume(r.tm.tick)
  {
    InitialRunOk(r0);
    RunKeepsOk(cyctim, r0, before, r);
    StepOk(cyctim, r, Start(e, t));
    RunKeepsOk(cyctim, Step(cyctim, r, Start(e, t)), acts, r');
    AccurateFiring(r, r'.log[i], t, now);
  }

  /** Fractions of a millisecond never add up to an error: after `n` ticks the next one is due
      exactly one period after `n` periods. */
  lemma NoDrift(cyctim: seq<nat>, r0: Run, acts: seq<Action>, r: Run)
    requires ValidPeriods(cyctim) && InitialRun(r0) && Executes(cyctim, r0, acts, r)
    ensures r.tm.next * r.tm.tick.deno + r.tm.sub == (r.ticks + 1) * Nume(r.tm.tick)
    ensures r.tm.tick == r0.tm.tick
  {
    InitialRunOk(r0);
    RunKeepsOk(cyctim, r0, acts, r);
    MulAdd(r.ticks, 1, Nume(r.tm.tick));
  }

  // ---- termination of the loop within one tick

  /** How much firing an event can still cause in the current tick. */
  function Weight(tm: TimerState, e: TMEVTB): nat {
    if e in tm.pending && tm.pending[e] <= tm.current then tm.current - tm.pending[e] + 1 else 0
  }

  function Work(keys: seq<TMEVTB>, tm: TimerState): nat {
    if keys == [] then 0 else Weight(tm, keys[0]) + Work(keys[1..], tm)
  }

  lemma {:induction false} WorkMonotone(keys: seq<TMEVTB>, tm: TimerState, tm': TimerState, e: TMEVTB)
    requires forall x :: x in keys ==> Weight(tm', x) <= Weight(tm, x)
    ensures Work(keys, tm') <= Work(keys, tm)
    ensures e in keys && Weight(tm', e) < Weight(tm, e) ==> Work(keys, tm') < Work(keys, tm)
  {
    if keys != [] {
      WorkMonotone(keys[1..], tm, tm', e);
      assert keys == [keys[0]] + keys[1..];
    }
  }

  /** Every firing uses up work, also when the event re-arms itself, and nothing that
      handlers do adds any: so one tick fires at most `Work` events. */
  lemma FiringTerminates(cyctim: seq<nat>, keys: seq<TMEVTB>, r: Run, a: Action)
    requires RunOk(r) && r.tm.ticking && Enabled(r, a)
    requires forall e :: e in r.tm.pending ==> e in keys
    ensures Work(keys, Step(cyctim, r, a).tm) <= Work(keys, r.tm)
    ensures a.Fire? ==> Work(keys, Step(cyctim, r, a).tm) < Work(keys, r.tm)
  {
    var r' := Step(cyctim, r, a);
    BaseIsLater(r.tm);
    WorkMonotone(keys, r.tm, r'.tm, if a.Fire? then a.event else TaskTimeout(0));
  }
}
