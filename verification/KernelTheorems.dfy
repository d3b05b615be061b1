/** What holds in every state the kernel can reach from its start. */
module KernelTheorems {
  import opened Prelude
  import opened Timer
  import opened KernelState
  import opened KernelCalls
  import opened KernelInv
  import opened KernelSteps
  import opened KernelPriority
  import opened KernelSystem
  import opened KernelRuns

  // ---- the start

  /** All tasks dormant, all objects new, no handler started. */
  function Reset(cfg: Config, tick: Tick): KState {
    KState(cfg,
           seq(|cfg.ipriority|, t requires 0 <= t < |cfg.ipriority| =>
               TCB(cfg.ipriority[t], Dormant, false, false, Wercd(E_OK), [])),
           seq(|cfg.objects|, o requires 0 <= o < |cfg.objects| => WOBJ([], None, IsemCnt(cfg, o))),
           seq(TNUM_TPRI, _ => []),
           None, false, true, false, false,
           seq(|cfg.cyclics|, _ => false), seq(cfg.alarms, _ => false), Initial(tick))
  }

  /** The tasks of `act` (TA_ACT) are activated in order. */
  function ActivateAll(k: KState, act: seq<nat>): KState
    decreases |act|
  {
    if act == [] then k else ActivateAll(MakeActive(k, act[0]), act[1..])
  }

  /** A handler started by the configuration: its first start is due at its phase. */
  function StartCyclic(k: KState, c: nat): KState {
    SetCyc(k, c, true, EnqueueAt(k.tm, CyclicEvent(c), CycInitOf(k.cfg, c).cycphs))
  }

  /** The cyclic handlers of `sta` (TA_STA) are started in order. */
  function StartAll(k: KState, sta: seq<nat>): KState
    decreases |sta|
  {
    if sta == [] then k else StartAll(StartCyclic(k, sta[0]), sta[1..])
  }

  /** The kernel as its start leaves it, about to run the highest-precedence task. */
  function Boot(cfg: Config, tick: Tick, act: seq<nat>, sta: seq<nat>): KState {
    Settle(StartAll(ActivateAll(Reset(cfg, tick), act), sta))
  }

  lemma ResetOk(cfg: Config, tick: Tick)
    requires ValidConfig(cfg) && ValidTick(tick)
    ensures System(Reset(cfg, tick))
  {
    var k := Reset(cfg, tick);
    InitialOk(tick);
    forall o | 0 <= o < |k.obj| ensures ObjLinked(k, o, {}, None) {
      assert ValidInit(cfg.objects[o]);
    }
    forall t | 0 <= t < |k.tcb| ensures TaskLinked(k, t, {}, None) {
      assert Attached(k, t);
    }
    var p := TopHeads(k.ready);
  }

  lemma {:induction false} ActivateAllOk(k: KState, act: seq<nat>)
    requires Links(k, {}, None) && NoDup(act)
    requires forall t :: t in act ==> t < |k.tcb| && k.tcb[t].tstat.Dormant?
    ensures Links(ActivateAll(k, act), {}, None) && OnlyWakes(k, ActivateAll(k, act))
    ensures ActivateAll(k, act).tm == k.tm
    decreases |act|
  {
    if act != [] {
      assert act[0] in act;
      NoDupTail(act);
      ActivateOk(k, act[0]);
      var k1 := MakeActive(k, act[0]);
      assert forall t :: 0 <= t < |k.tcb| && t != act[0] ==> k1.tcb[t] == k.tcb[t];
      ActivateAllOk(k1, act[1..]);
      OnlyWakesTwice(k, k1, ActivateAll(k1, act[1..]));
    }
  }

  lemma StartCyclicOk(k: KState, c: nat)
    requires Links(k, {}, None) && c < |k.cfg.cyclics| && k.tm.min == 0
    ensures Links(StartCyclic(k, c), {}, None)
  {
    var tm := EnqueueAt(k.tm, CyclicEvent(c), k.cfg.cyclics[c].cycphs);
    assert TimerOk(tm);
    SetCycOk(k, c, true, tm);
  }

  lemma {:induction false} StartAllOk(k: KState, sta: seq<nat>)
    requires Links(k, {}, None) && k.tm.min == 0 && forall c :: c in sta ==> c < |k.cfg.cyclics|
    ensures Links(StartAll(k, sta), {}, None)
    ensures var k' := StartAll(k, sta); k' == k.(cycsta := k'.cycsta, tm := k'.tm) && k'.tm.ticking == k.tm.ticking
    decreases |sta|
  {
    if sta != [] {
      assert sta[0] in sta;
      assert sta == [sta[0]] + sta[1..];
      StartCyclicOk(k, sta[0]);
      assert forall c :: c in sta[1..] ==> c in sta;
      StartAllOk(StartCyclic(k, sta[0]), sta[1..]);
    }
  }

  lemma BootOk(cfg: Config, tick: Tick, act: seq<nat>, sta: seq<nat>)
    requires ValidConfig(cfg) && ValidTick(tick) && NoDup(act)
    requires (forall t :: t in act ==> t < |cfg.ipriority|) && (forall c :: c in sta ==> c < |cfg.cyclics|)
    ensures System(Boot(cfg, tick, act, sta))
  {
    var k := Reset(cfg, tick);
    ResetOk(cfg, tick);
    ActivateAllOk(k, act);
    var k1 := ActivateAll(k, act);
    StartAllOk(k1, sta);
    SettleOk(StartAll(k1, sta));
  }

  // ---- runs

  /** Every call of the run may be made when its turn comes. */
  ghost predicate CanRun(k: KState, calls: seq<Call>)
    decreases |calls|
  {
    calls != [] ==> Enabled(k, calls[0]) && CanRun(Perform(k, calls[0]).k, calls[1..])
  }

  ghost function After(k: KState, calls: seq<Call>): KState
    requires CanRun(k, calls)
    decreases |calls|
  {
    if calls == [] then k else After(Perform(k, calls[0]).k, calls[1..])
  }

  lemma {:induction false} RunOk(k: KState, calls: seq<Call>)
    requires System(k) && CanRun(k, calls)
    ensures Next(k, After(k, calls))
    decreases |calls|
  {
    if calls != [] {
      StepOk(k, calls[0]);
      RunOk(Perform(k, calls[0]).k, calls[1..]);
    }
  }

  /** A run may be extended by one more call. */
  lemma {:induction false} RunExtends(k: KState, calls: seq<Call>, c: Call)
    requires CanRun(k, calls) && Enabled(After(k, calls), c)
    ensures CanRun(k, calls + [c]) && After(k, calls + [c]) == Perform(After(k, calls), c).k
    decreases |calls|
  {
    if calls == [] {
      assert ([] + [c])[0] == c && ([] + [c])[1..] == [];
    } else {
      RunExtends(Perform(k, calls[0]).k, calls[1..], c);
      assert (calls + [c])[1..] == calls[1..] + [c];
    }
  }

  ghost predicate Reachable(k: KState) {
    exists cfg: Config, tick: Tick, act: seq<nat>, sta: seq<nat>, calls: seq<Call> ::
      IsRun(cfg, tick, act, sta, calls, k)
  }

  /** A correctly configured kernel comes from its start to `k` by `calls`. */
  ghost predicate IsRun(cfg: Config, tick: Tick, act: seq<nat>, sta: seq<nat>, calls: seq<Call>, k: KState) {
    && ValidConfig(cfg) && ValidTick(tick) && NoDup(act)
    && (forall t :: t in act ==> t < |cfg.ipriority|) && (forall c :: c in sta ==> c < |cfg.cyclics|)
    && CanRun(Boot(cfg, tick, act, sta), calls)
    && k == After(Boot(cfg, tick, act, sta), calls)
  }

  lemma ReachableOk(k: KState)
    requires Reachable(k)
    ensures System(k)
  {
    var cfg: Config, tick: Tick, act: seq<nat>, sta: seq<nat>, calls: seq<Call> :| IsRun(cfg, tick, act, sta, calls, k);
    BootOk(cfg, tick, act, sta);
    RunOk(Boot(cfg, tick, act, sta), calls);
  }

  // ---- safety

  /** A task that can run is in the ready queue of its current priority, one that waits for
      an object is in the queue of that object, and no task is in any other queue, nor in
      any queue twice. */
  lemma OnePlace(k: KState, t: nat)
    requires Reachable(k) && t < |k.tcb|
    ensures forall p :: 0 <= p < TNUM_TPRI ==> (t in ReadyOf(k, p) <==> k.tcb[t].tstat.Runnable? && p == Pri(k, t))
    ensures forall o :: 0 <= o < |k.obj| ==> (t in k.obj[o].waitQueue <==> WaitsFor(k, t, o))
    ensures forall p :: 0 <= p < TNUM_TPRI ==> NoDup(ReadyOf(k, p))
    ensures forall o :: 0 <= o < |k.obj| ==> NoDup(k.obj[o].waitQueue)
  {
    ReachableOk(k);
    assert TaskLinked(k, t, {}, None) && Attached(k, t);
    PriInRange(k, t, {}, None);
    forall p | 0 <= p < TNUM_TPRI
      ensures NoDup(ReadyOf(k, p)) && (t in ReadyOf(k, p) <==> k.tcb[t].tstat.Runnable? && p == Pri(k, t))
    {
      assert ReadyLinked(k, p, {});
      if t in k.ready[p] { assert InReady(k, p, t, {}); }
    }
    forall o | 0 <= o < |k.obj|
      ensures NoDup(k.obj[o].waitQueue) && (t in k.obj[o].waitQueue <==> WaitsFor(k, t, o))
    {
      assert ObjLinked(k, o, {}, None);
      if t in k.obj[o].waitQueue { assert InWait(k, o, t, {}); }
    }
  }

  /** Queues ordered by task priority stay so, whatever happens to the priorities. */
  lemma QueuesSorted(k: KState, o: nat)
    requires Reachable(k) && o < |k.obj| && IsTpri(k.cfg, o)
    ensures SortedByPri(k, k.obj[o].waitQueue)
  {
    ReachableOk(k);
    assert ObjLinked(k, o, {}, None);
  }

  /** No dispatch is ever lost: between service calls, with dispatching enabled, the task
      that runs is the one that has been first in line longest at the highest priority. */
  lemma NoLostDispatch(k: KState)
    requires Reachable(k) && !k.inInt && Dspflg(k)
    ensures k.runtsk == Top(k.ready)
    ensures k.runtsk.Some? ==>
              && TcbOf(k, k.runtsk.value).tstat.Runnable?
              && forall x :: 0 <= x < |k.tcb| && k.tcb[x].tstat.Runnable? ==> Pri(k, k.runtsk.value) <= Pri(k, x)
    ensures k.runtsk.None? ==> forall x :: 0 <= x < |k.tcb| ==> !k.tcb[x].tstat.Runnable?
  {
    ReachableOk(k);
    TopIsHighest(k);
  }

  /** A task that cannot be replaced keeps running. */
  lemma RunningCanRun(k: KState)
    requires Reachable(k) && !Dspflg(k)
    ensures k.runtsk.Some? && k.runtsk.value < |k.tcb| && k.tcb[k.runtsk.value].tstat.Runnable?
  {
    ReachableOk(k);
  }

  /** The mutex queue of a task is exactly the set of mutexes it owns; a mutex with waiters
      has an owner, and nobody waits for a mutex it holds. */
  lemma Ownership(k: KState, m: nat)
    requires Reachable(k) && m < |k.obj| && IsMutex(k.cfg, m)
    ensures forall t :: 0 <= t < |k.tcb| ==> (m in k.tcb[t].held <==> k.obj[m].loctsk == Some(t))
    ensures k.obj[m].loctsk.Some? ==> k.obj[m].loctsk.value < |k.tcb| && !k.tcb[k.obj[m].loctsk.value].tstat.Dormant?
    ensures k.obj[m].waitQueue != [] ==> k.obj[m].loctsk.Some?
    ensures forall t :: 0 <= t < |k.tcb| && WaitsFor(k, t, m) ==> m !in k.tcb[t].held
  {
    ReachableOk(k);
    assert ObjLinked(k, m, {}, None);
    forall t | 0 <= t < |k.tcb| ensures m in k.tcb[t].held <==> k.obj[m].loctsk == Some(t) {
      assert TaskLinked(k, t, {}, None);
      if m in k.tcb[t].held { assert HeldOk(k, t, m); }
    }
    if k.obj[m].loctsk.Some? { AttachedFacts(k, k.obj[m].loctsk.value, None); }
    forall t | 0 <= t < |k.tcb| && WaitsFor(k, t, m) ensures m !in k.tcb[t].held {
      WaiterMayWait(k, t, m);
    }
  }

  /** Every ceiling a task holds or waits for is at least as high as its base priority, and
      its current priority is the highest of them all. */
  lemma PriorityRule(k: KState, t: nat)
    requires Reachable(k) && t < |k.tcb|
    ensures Pri(k, t) <= k.tcb[t].bpriority
    ensures forall m :: m in k.tcb[t].held && CeilingOf(k.cfg, m).Some? ==>
              Pri(k, t) <= CeilingOf(k.cfg, m).value <= k.tcb[t].bpriority
    ensures Pri(k, t) == k.tcb[t].bpriority
            || exists m :: m in k.tcb[t].held && CeilingOf(k.cfg, m) == Some(Pri(k, t))
    ensures forall m: nat :: WaitsFor(k, t, m) && CeilingOf(k.cfg, m).Some? ==> CeilingOf(k.cfg, m).value <= k.tcb[t].bpriority
  {
    ReachableOk(k);
    LowestIsMinimum(k.cfg, k.tcb[t].held, k.tcb[t].bpriority);
    HeldAllows(k, t, {}, None);
    forall m: nat | WaitsFor(k, t, m) ensures CeilingAllows(k.cfg, m, k.tcb[t].bpriority) {
      WaiterMayWait(k, t, m);
    }
  }

  // ---- the time event heap

  /** The heap holds one event for each task waiting with a timeout and each started
      handler, and nothing else; the union of a waiting task never holds a result. */
  lemma HeapExact(k: KState)
    requires Reachable(k)
    ensures forall t: nat :: TaskTimeout(t) in k.tm.pending <==> t < |k.tcb| && IsTimed(k.tcb[t])
    ensures forall c: nat :: CyclicEvent(c) in k.tm.pending <==> CycSta(k, c)
    ensures forall a: nat :: AlarmEvent(a) in k.tm.pending <==> AlmSta(k, a)
    ensures forall t :: 0 <= t < |k.tcb| && k.tcb[t].tstat.Waiting? ==> k.tcb[t].winfo.Tmevtb?
  {
    ReachableOk(k);
    forall t | 0 <= t < |k.tcb|
      ensures TaskTimeout(t) in k.tm.pending <==> IsTimed(k.tcb[t])
      ensures k.tcb[t].tstat.Waiting? ==> k.tcb[t].winfo.Tmevtb?
    {
      assert TaskLinked(k, t, {}, None) && Attached(k, t);
    }
    Known(k);
  }

  lemma Known(k: KState)
    requires HandlersLinked(k)
    ensures forall t: nat :: TaskTimeout(t) in k.tm.pending ==> t < |k.tcb|
    ensures forall c: nat :: CyclicEvent(c) in k.tm.pending ==> c < |k.cycsta|
    ensures forall a: nat :: AlarmEvent(a) in k.tm.pending ==> a < |k.almsta|
  {
    forall t: nat | TaskTimeout(t) in k.tm.pending ensures t < |k.tcb| {
      assert KnownEvent(k, TaskTimeout(t));
    }
    forall c: nat | CyclicEvent(c) in k.tm.pending ensures c < |k.cycsta| {
      assert KnownEvent(k, CyclicEvent(c));
    }
    forall a: nat | AlarmEvent(a) in k.tm.pending ensures a < |k.almsta| {
      assert KnownEvent(k, AlarmEvent(a));
    }
  }

  /** All events there can be. */
  function AllEvents(tasks: nat, cyclics: nat, alarms: nat): (s: set<TMEVTB>)
    ensures forall t: nat :: TaskTimeout(t) in s <==> t < tasks
    ensures forall c: nat :: CyclicEvent(c) in s <==> c < cyclics
    ensures forall a: nat :: AlarmEvent(a) in s <==> a < alarms
    ensures |s| <= tasks + cyclics + alarms
  {
    if tasks > 0 then AllEvents(tasks - 1, cyclics, alarms) + {TaskTimeout(tasks - 1)}
    else if cyclics > 0 then AllEvents(0, cyclics - 1, alarms) + {CyclicEvent(cyclics - 1)}
    else if alarms > 0 then AllEvents(0, 0, alarms - 1) + {AlarmEvent(alarms - 1)}
    else {}
  }

  lemma {:induction false} SubsetSize(a: set<TMEVTB>, b: set<TMEVTB>)
    requires a <= b
    ensures |a| <= |b|
  {
    if a != {} {
      var e :| e in a;
      SubsetSize(a - {e}, b - {e});
    }
  }

  lemma KnownFit(k: KState)
    requires forall e :: e in k.tm.pending ==> KnownEvent(k, e)
    ensures |k.tm.pending| <= |k.tcb| + |k.cycsta| + |k.almsta|
  {
    var s := AllEvents(|k.tcb|, |k.cycsta|, |k.almsta|);
    forall e | e in k.tm.pending.Keys ensures e in s {
      assert KnownEvent(k, e);
    }
    SubsetSize(k.tm.pending.Keys, s);
  }

  /** Room for one event per task, cyclic handler and alarm handler is always enough. */
  lemma HeapFits(k: KState)
    requires Reachable(k)
    ensures |k.tm.pending| <= |k.cfg.ipriority| + |k.cfg.cyclics| + k.cfg.alarms
  {
    ReachableOk(k);
    KnownFit(k);
  }
}
