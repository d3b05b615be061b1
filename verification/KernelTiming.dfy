/** The clock seen by whole runs of the kernel: whatever the service calls do, timeouts,
    cyclic handlers and alarms fire by the discipline of the timer. */
module KernelTiming {
  import opened Prelude
  import opened EventTime
  import opened Timer
  import opened KernelState
  import opened KernelCalls
  import opened KernelInv
  import opened KernelSystem
  import opened KernelRuns
  import opened KernelTheorems
  import F = Firing

  // ---- what a step does to the timer

  /** Some timeouts are cancelled and nothing else changes. */
  ghost predicate Cancels(tm: TimerState, tm': TimerState) {
    && tm' == tm.(pending := tm'.pending)
    && (forall e :: e in tm'.pending ==> e in tm.pending && tm'.pending[e] == tm.pending[e])
    && forall e :: e in tm.pending && e !in tm'.pending ==> e.TaskTimeout?
  }

  lemma CancelsTwice(tm: TimerState, tm1: TimerState, tm2: TimerState)
    requires Cancels(tm, tm1) && Cancels(tm1, tm2)
    ensures Cancels(tm, tm2)
  {
  }

  lemma RepositionTimer(k: KState, t: nat, oldpri: nat, mtxmode: bool)
    ensures Reposition(k, t, oldpri, mtxmode).tm == k.tm
  {
    match TcbOf(k, t).tstat
    case Waiting(OnObject(o), _) => assert JoinQueue(LeaveQueue(k, t), t, o).tm == LeaveQueue(k, t).tm;
    case _ =>
  }

  lemma AcquireTimer(k: KState, t: nat, m: nat)
    ensures Acquire(k, t, m).tm == k.tm
  {
    var k1 := SetHeld(SetOwner(k, m, Some(t)), t, [m] + TcbOf(k, t).held);
    assert k1.tm == k.tm;
    RepositionTimer(k1, t, Pri(k, t), true);
  }

  lemma EndWaitTimer(k: KState, t: nat, ercd: ER)
    ensures EndWait(k, t, ercd).tm == k.tm
  {
  }

  lemma WaitCompleteTimer(k: KState, t: nat, ercd: ER)
    ensures Cancels(k.tm, WaitComplete(k, t, ercd).tm)
  {
    EndWaitTimer(DequeueTimeout(k, t), t, ercd);
  }

  lemma WaitReleaseTimer(k: KState, t: nat, ercd: ER)
    ensures Cancels(k.tm, WaitRelease(k, t, ercd).tm)
  {
    assert LeaveQueue(k, t).tm == k.tm;
    WaitCompleteTimer(LeaveQueue(k, t), t, ercd);
  }

  lemma MakeNonWaitTimer(k: KState, t: nat)
    ensures MakeNonWait(k, t).tm == k.tm
  {
  }

  lemma DequeueTimer(k: KState, t: nat)
    ensures Cancels(k.tm, DequeueTimeout(k, t).tm)
  {
  }

  lemma HandOverTimer(k: KState, m: nat)
    requires ObjOf(k, m).waitQueue != []
    ensures Cancels(k.tm, HandOver(k, m).tm)
  {
    var q := ObjOf(k, m).waitQueue;
    var t := q[0];
    var k1 := SetQueue(k, m, q[1..]);
    assert k1.tm == k.tm;
    var k2 := SetWinfo(DequeueTimeout(k1, t), t, Wercd(E_OK));
    DequeueTimer(k1, t);
    assert k2.tm == DequeueTimeout(k1, t).tm;
    var k3 := SetOwner(k2, m, Some(t));
    var k4 := SetHeld(k3, t, TcbOf(k3, t).held + [m]);
    assert k4.tm == k2.tm;
    MakeNonWaitTimer(k4, t);
  }

  lemma ReleaseTimer(k: KState, m: nat)
    ensures Cancels(k.tm, Release(k, m).tm)
  {
    if ObjOf(k, m).waitQueue != [] { HandOverTimer(k, m); }
  }

  lemma {:induction false} ReleaseAllTimer(k: KState, t: nat, n: nat)
    ensures Cancels(k.tm, ReleaseAll(k, t, n).tm)
    decreases n
  {
    var held := TcbOf(k, t).held;
    if n > 0 && held != [] {
      var k1 := Unhold(k, t, held[0]);
      assert k1.tm == k.tm;
      ReleaseTimer(k1, held[0]);
      ReleaseAllTimer(Release(k1, held[0]), t, n - 1);
      CancelsTwice(k.tm, Release(k1, held[0]).tm, ReleaseAll(k, t, n).tm);
    }
  }

  lemma {:induction false} InitQueueTimer(k: KState, o: nat, n: nat)
    ensures Cancels(k.tm, InitQueue(k, o, n).tm)
    decreases n
  {
    var q := ObjOf(k, o).waitQueue;
    if n > 0 && q != [] {
      var k1 := SetQueue(k, o, q[1..]);
      assert k1.tm == k.tm;
      WaitCompleteTimer(k1, q[0], E_DLT);
      InitQueueTimer(WaitComplete(k1, q[0], E_DLT), o, n - 1);
      CancelsTwice(k.tm, WaitComplete(k1, q[0], E_DLT).tm, InitQueue(k, o, n).tm);
    }
  }

  lemma TerminateTimer(k: KState, t: nat)
    ensures Cancels(k.tm, Terminate(k, t).tm)
  {
    var n := |TcbOf(k, t).held|;
    ReleaseAllTimer(k, t, n);
    assert Terminate(k, t).tm == ReleaseAll(k, t, n).tm;
  }

  lemma WakeFirstTimer(k: KState, o: nat)
    requires ObjOf(k, o).waitQueue != []
    ensures Cancels(k.tm, WakeFirst(k, o).tm)
  {
    var q := ObjOf(k, o).waitQueue;
    assert SetQueue(k, o, q[1..]).tm == k.tm;
    WaitCompleteTimer(SetQueue(k, o, q[1..]), q[0], E_OK);
  }

  lemma EnterWaitTimer(k: KState, r: nat, cause: Cause, timeout: Option<nat>)
    ensures EnterWait(k, r, cause, timeout).tm
         == match timeout case Some(time) => Enqueue(k.tm, TaskTimeout(r), time) case None => k.tm
  {
    assert MakeNonRunnable(k, r).tm == k.tm;
  }

  // ---- the service calls

  predicate IsClockCall(c: Call) { c.TickBegin? || c.Fire? || c.TickEnd? }

  /** The calls that may register an event: those that wait, and those that start a handler. */
  predicate IsStartingCall(c: Call) {
    c.SlpTsk? || c.DlyTsk? || c.LocMtx? || c.WaiSem? || c.WaitOther? || c.StaCyc? || c.StaAlm?
  }

  predicate IsStoppingCall(c: Call) { c.StpCyc? || c.StpAlm? }

  lemma ExtTskTimer(k: KState)
    requires k.runtsk.Some?
    ensures Cancels(k.tm, KernelCalls.ExtTsk(k).k.tm)
  {
    var r := k.runtsk.value;
    var k1 := MakeNonRunnable(WithDispatch(k, false, true), r);
    assert k1.tm == k.tm;
    TerminateTimer(k1, r);
  }

  lemma TerTskTimer(k: KState, t: nat)
    ensures Cancels(k.tm, KernelCalls.TerTsk(k, t).k.tm)
  {
    if !TcbOf(k, t).tstat.Dormant? {
      DetachTimer(k, t);
      TerminateTimer(Detach(k, t), t);
      CancelsTwice(k.tm, Detach(k, t).tm, Terminate(Detach(k, t), t).tm);
    }
  }

  lemma ChgPriTimer(k: KState, t: nat, pri: nat)
    ensures KernelCalls.ChgPri(k, t, pri).k.tm == k.tm
  {
    var k1 := SetTcb(k, t, TcbOf(k, t).(bpriority := pri));
    assert k1.tm == k.tm;
    RepositionTimer(k1, t, Pri(k, t), false);
  }

  lemma SetStateTimer(k: KState, t: nat, s: TaskState)
    ensures SetState(k, t, s).tm == k.tm
  {
  }

  lemma MakeActiveTimer(k: KState, t: nat)
    ensures MakeActive(k, t).tm == k.tm
  {
    assert MakeRunnable(SetState(k, t, Runnable), t).tm == SetState(k, t, Runnable).tm;
  }

  lemma ActivationTimer(k: KState, t: nat)
    ensures KernelCalls.ActTsk(k, t).k.tm == KernelCalls.IactTsk(k, t).k.tm == k.tm
  {
    MakeActiveTimer(k, t);
    SetTcbTimer(k, t, TcbOf(k, t).(actque := true));
  }

  lemma SetTcbTimer(k: KState, t: nat, b: TCB)
    ensures SetTcb(k, t, b).tm == k.tm
  {
  }

  lemma SusTskTimer(k: KState, t: nat)
    ensures KernelCalls.SusTsk(k, t).k.tm == k.tm
  {
    match TcbOf(k, t).tstat
    case Runnable => assert MakeNonRunnable(SetState(k, t, Suspended), t).tm == SetState(k, t, Suspended).tm;
    case Waiting(c, false) => SetStateTimer(k, t, Waiting(c, true));
    case _ =>
  }

  lemma RsmTskTimer(k: KState, t: nat)
    ensures KernelCalls.RsmTsk(k, t).k.tm == k.tm
  {
    MakeActiveTimer(k, t);
    match TcbOf(k, t).tstat
    case Waiting(c, true) => SetStateTimer(k, t, Waiting(c, false));
    case _ =>
  }

  lemma WakeUpTimer(k: KState, t: nat)
    ensures Cancels(k.tm, KernelCalls.WupTsk(k, t).k.tm)
  {
    WaitCompleteTimer(k, t, E_OK);
    SetTcbTimer(k, t, TcbOf(k, t).(wupque := true));
  }

  lemma IwakeUpTimer(k: KState, t: nat)
    ensures Cancels(k.tm, KernelCalls.IwupTsk(k, t).k.tm)
  {
    WaitCompleteTimer(k, t, E_OK);
    SetTcbTimer(k, t, TcbOf(k, t).(wupque := true));
  }

  lemma ForceTimer(k: KState, t: nat)
    ensures Cancels(k.tm, KernelCalls.RelWai(k, t).k.tm) && Cancels(k.tm, KernelCalls.IrelWai(k, t).k.tm)
  {
    WaitReleaseTimer(k, t, E_RLWAI);
  }

  lemma DetachTimer(k: KState, t: nat)
    ensures Cancels(k.tm, Detach(k, t).tm)
  {
    assert LeaveQueue(k, t).tm == k.tm;
    DequeueTimer(LeaveQueue(k, t), t);
  }

  lemma UnlMtxTimer(k: KState, m: nat)
    requires k.runtsk.Some?
    ensures Cancels(k.tm, KernelCalls.UnlMtx(k, m).k.tm)
  {
    var r := k.runtsk.value;
    assert Unhold(k, r, m).tm == k.tm;
    RepositionTimer(Unhold(k, r, m), r, Pri(k, r), true);
    ReleaseTimer(Adjust(Unhold(k, r, m), r, Pri(k, r)), m);
  }

  lemma IniMtxTimer(k: KState, m: nat)
    ensures Cancels(k.tm, KernelCalls.IniMtx(k, m).k.tm)
  {
    InitQueueTimer(k, m, |ObjOf(k, m).waitQueue|);
    var k1 := InitQueue(k, m, |ObjOf(k, m).waitQueue|);
    match ObjOf(k1, m).loctsk
    case None =>
    case Some(t) =>
      var k2 := SetOwner(Unhold(k1, t, m), m, None);
      assert k2.tm == k1.tm;
      RepositionTimer(k2, t, Pri(k1, t), true);
  }

  lemma IniSemTimer(k: KState, o: nat)
    ensures Cancels(k.tm, KernelCalls.IniSem(k, o).k.tm)
  {
    InitQueueTimer(k, o, |ObjOf(k, o).waitQueue|);
  }

  lemma SignalTimer(k: KState, o: nat)
    ensures Cancels(k.tm, KernelCalls.SigSem(k, o).k.tm) && Cancels(k.tm, KernelCalls.IsigSem(k, o).k.tm)
  {
    if ObjOf(k, o).waitQueue != [] { WakeFirstTimer(k, o); }
  }

  lemma TaskCallCancels(k: KState, c: Call)
    requires Enabled(k, c) && IsTaskCall(c) && !IsStartingCall(c)
    ensures Cancels(k.tm, Perform(k, c).k.tm)
  {
    match c
    case ExtTsk => ExtTskTimer(k);
    case TerTsk(t) => TerTskTimer(k, t);
    case ChgPri(t, pri) => ChgPriTimer(k, t, pri);
    case ActTsk(t) => ActivationTimer(k, t);
    case IactTsk(t) => ActivationTimer(k, t);
    case SusTsk(t) => SusTskTimer(k, t);
    case RsmTsk(t) => RsmTskTimer(k, t);
    case WupTsk(t) => WakeUpTimer(k, t);
    case IwupTsk(t) => IwakeUpTimer(k, t);
    case RelWai(t) => ForceTimer(k, t);
    case IrelWai(t) => ForceTimer(k, t);
  }

  function HandlerOf(c: Call): TMEVTB
    requires IsStoppingCall(c) || c.StaCyc? || c.StaAlm?
  {
    if c.StpCyc? || c.StaCyc? then CyclicEvent(c.cyc) else AlarmEvent(c.alm)
  }

  /** Stopping a handler takes its event away, if it is registered, and nothing else. */
  lemma CallStops(k: KState, c: Call)
    requires Enabled(k, c) && IsStoppingCall(c)
    ensures Perform(k, c).k.tm == k.tm || Perform(k, c).k.tm == Dequeue(k.tm, HandlerOf(c))
  {
  }

  lemma {:induction false} WakeAllTimer(k: KState, ts: seq<nat>)
    ensures Cancels(k.tm, WakeAll(k, ts).tm)
    decreases |ts|
  {
    if ts != [] {
      var k1 := WaitRelease(k, ts[0], E_OK);
      WaitReleaseTimer(k, ts[0], E_OK);
      WakeAllTimer(k1, ts[1..]);
      CancelsTwice(k.tm, k1.tm, WakeAll(k, ts).tm);
    }
  }

  lemma WaitCallCancels(k: KState, c: Call)
    requires Enabled(k, c) && IsWaitCall(c) && !IsStartingCall(c)
    ensures Cancels(k.tm, Perform(k, c).k.tm)
  {
    match c
    case WakeOther(o, ts) =>
      OtherTimer(k, o, ts);
      assert Perform(k, c) == KernelCalls.WakeOther(k, o, ts);
    case IwakeOther(o, ts) =>
      OtherTimer(k, o, ts);
      assert Perform(k, c) == KernelCalls.IwakeOther(k, o, ts);
    case IniOther(o) =>
      OtherTimer(k, o, []);
      assert Perform(k, c) == KernelCalls.IniOther(k, o);
  }

  lemma OtherTimer(k: KState, o: nat, ts: seq<nat>)
    ensures Cancels(k.tm, KernelCalls.WakeOther(k, o, ts).k.tm) && Cancels(k.tm, KernelCalls.IwakeOther(k, o, ts).k.tm)
    ensures Cancels(k.tm, KernelCalls.IniOther(k, o).k.tm)
  {
    WakeAllTimer(k, ts);
    InitQueueTimer(k, o, |ObjOf(k, o).waitQueue|);
  }

  lemma ObjectCallCancels(k: KState, c: Call)
    requires Enabled(k, c) && IsObjectCall(c) && !IsStartingCall(c) && !IsStoppingCall(c)
    ensures Cancels(k.tm, Perform(k, c).k.tm)
  {
    match c
    case UnlMtx(m) =>
      UnlMtxTimer(k, m);
      assert Perform(k, c) == KernelCalls.UnlMtx(k, m);
    case IniMtx(m) =>
      IniMtxTimer(k, m);
      assert Perform(k, c) == KernelCalls.IniMtx(k, m);
    case SigSem(o) =>
      SignalTimer(k, o);
      assert Perform(k, c) == KernelCalls.SigSem(k, o);
    case IsigSem(o) =>
      SignalTimer(k, o);
      assert Perform(k, c) == KernelCalls.IsigSem(k, o);
    case IniSem(o) =>
      IniSemTimer(k, o);
      assert Perform(k, c) == KernelCalls.IniSem(k, o);
  }

  lemma FlagCallCancels(k: KState, c: Call)
    requires Enabled(k, c) && !IsClockCall(c) && !IsTaskCall(c) && !IsObjectCall(c) && !IsWaitCall(c)
    ensures Cancels(k.tm, Perform(k, c).k.tm)
  {
    if c.RotRdq? || c.IrotRdq? { assert Rotate(k, c.pri).tm == k.tm; }
  }

  /** No other call than these registers an event, stops a handler or moves the clock. */
  lemma CallCancels(k: KState, c: Call)
    requires Enabled(k, c) && !IsClockCall(c) && !IsStartingCall(c) && !IsStoppingCall(c)
    ensures Cancels(k.tm, Perform(k, c).k.tm)
  {
    if IsTaskCall(c) {
      TaskCallCancels(k, c);
    } else if IsObjectCall(c) {
      ObjectCallCancels(k, c);
    } else if IsWaitCall(c) {
      WaitCallCancels(k, c);
    } else {
      FlagCallCancels(k, c);
    }
  }

  /** At most an event that is not registered, after the old one of the same handler has
      been cancelled. */
  ghost predicate Starts(tm: TimerState, tm': TimerState, e: TMEVTB, time: nat) {
    tm' == tm || (time <= TMAX_RELTIM && tm' == Enqueue(Dequeue(tm, e), e, time))
  }

  lemma RunnerNotTimed(k: KState)
    requires System(k) && InTask(k) && Dspflg(k)
    ensures TaskTimeout(k.runtsk.value) !in k.tm.pending
    ensures Dequeue(k.tm, TaskTimeout(k.runtsk.value)) == k.tm
  {
    var r := k.runtsk.value;
    assert TaskLinked(k, r, {}, None) && Attached(k, r);
    assert k.tm.pending - {TaskTimeout(r)} == k.tm.pending;
  }

  /** A wait entered by the running task. */
  lemma WaitStarts(k: KState, cause: Cause, timeout: Option<nat>)
    requires System(k) && InTask(k) && Dspflg(k) && (timeout.Some? ==> timeout.value <= TMAX_RELTIM)
    ensures Starts(k.tm, Settle(EnterWait(k, k.runtsk.value, cause, timeout)).tm, TaskTimeout(k.runtsk.value),
                   if timeout.Some? then timeout.value else 0)
  {
    RunnerNotTimed(k);
    EnterWaitTimer(k, k.runtsk.value, cause, timeout);
  }

  lemma LockStarts(k: KState, m: nat, tmout: int)
    requires System(k) && Enabled(k, LocMtx(m, tmout))
    ensures Starts(k.tm, KernelCalls.LocMtx(k, m, tmout).k.tm, TaskTimeout(k.runtsk.value), if tmout > 0 then tmout else 0)
  {
    var r := k.runtsk.value;
    if KernelCalls.LocMtx(k, m, tmout).ercd == Blocked {
      WaitStarts(k, OnObject(m), TimeoutOf(tmout));
    } else {
      AcquireTimer(k, r, m);
      assert KernelCalls.LocMtx(k, m, tmout).k.tm == k.tm;
    }
  }

  lemma HandlerStarts(k: KState, c: Call)
    requires System(k) && Enabled(k, c) && (c.StaCyc? || c.StaAlm?)
    ensures Starts(k.tm, Perform(k, c).k.tm, HandlerOf(c),
                   if c.StaCyc? then k.cfg.cyclics[c.cyc].cycphs else c.time)
  {
    var e := HandlerOf(c);
    if e !in k.tm.pending { assert k.tm.pending - {e} == k.tm.pending; }
  }

  function TimeIn(tmout: int): nat { if tmout > 0 then tmout else 0 }

  /** A call that may make the caller wait. */
  predicate IsWaitingCall(c: Call) { IsStartingCall(c) && !c.StaCyc? && !c.StaAlm? }

  lemma WaitingStarts(k: KState, c: Call)
    requires System(k) && Enabled(k, c) && IsWaitingCall(c)
    ensures Starts(k.tm, Perform(k, c).k.tm, TaskTimeout(k.runtsk.value), if c.DlyTsk? then c.time else TimeIn(c.tmout))
  {
    match c
    case SlpTsk(tmout) => if tmout != TMO_POL { WaitStarts(k, Sleep, TimeoutOf(tmout)); }
    case DlyTsk(t) => WaitStarts(k, Delay, Some(t));
    case LocMtx(m, tmout) => LockStarts(k, m, tmout);
    case WaiSem(o, tmout) => if tmout != TMO_POL { WaitStarts(k, OnObject(o), TimeoutOf(tmout)); }
    case WaitOther(o, tmout) => WaitStarts(k, OnObject(o), TimeoutOf(tmout));
  }

  /** A starting call registers at most one event, whose block is free by then. */
  lemma CallStarts(k: KState, c: Call) returns (e: TMEVTB, time: nat)
    requires System(k) && Enabled(k, c) && IsStartingCall(c)
    ensures Starts(k.tm, Perform(k, c).k.tm, e, time)
    ensures e == if IsWaitingCall(c) then TaskTimeout(k.runtsk.value) else HandlerOf(c)
  {
    if IsWaitingCall(c) {
      e, time := TaskTimeout(k.runtsk.value), if c.DlyTsk? then c.time else TimeIn(c.tmout);
      WaitingStarts(k, c);
    } else {
      e, time := HandlerOf(c), if c.StaCyc? then k.cfg.cyclics[c.cyc].cycphs else c.time;
      HandlerStarts(k, c);
    }
  }

  // ---- runs of the kernel as runs of its timer

  function Periods(cfg: Config): (p: seq<nat>)
    ensures |p| == |cfg.cyclics| && forall c :: 0 <= c < |p| ==> p[c] == cfg.cyclics[c].cyctim
  {
    seq(|cfg.cyclics|, c requires 0 <= c < |cfg.cyclics| => cfg.cyclics[c].cyctim)
  }

  function TicksIn(c: Call): nat { if c.TickBegin? then 1 else 0 }

  /** What is written down when an event fires, after `n` ticks. */
  ghost function FiredIn(k: KState, c: Call, n: nat): seq<F.Fired>
    requires Enabled(k, c)
  {
    if c.Fire? then [F.Fired(c.event, k.tm.pending[c.event], k.tm.min, k.tm.current, n)] else []
  }

  /** The timer's run `r` after one more step of the kernel. */
  ghost function Noted(k: KState, c: Call, r: F.Run): F.Run
    requires Enabled(k, c)
  {
    F.Run(Perform(k, c).k.tm, r.ticks + TicksIn(c), r.log + FiredIn(k, c, r.ticks))
  }

  lemma CancelsOk(r: F.Run, tm': TimerState)
    requires F.RunOk(r) && Cancels(r.tm, tm')
    ensures F.RunOk(r.(tm := tm'))
  {
    forall i | 0 <= i < |r.log| ensures F.Passed(tm', r.log[i]) {
      assert F.Passed(r.tm, r.log[i]);
    }
  }

  lemma StopsOk(r: F.Run, tm': TimerState, e: TMEVTB)
    requires F.RunOk(r) && (tm' == r.tm || tm' == Dequeue(r.tm, e))
    ensures F.RunOk(r.(tm := tm'))
  {
    if tm' != r.tm {
      DequeueOk(r.tm, e);
      forall i | 0 <= i < |r.log| ensures F.Passed(tm', r.log[i]) {
        assert F.Passed(r.tm, r.log[i]);
      }
    }
  }

  lemma StartsOk(r: F.Run, tm': TimerState, e: TMEVTB, time: nat)
    requires F.RunOk(r) && Starts(r.tm, tm', e, time)
    ensures F.RunOk(r.(tm := tm'))
  {
    if tm' != r.tm {
      StopsOk(r, Dequeue(r.tm, e), e);
      F.StepOk([], r.(tm := Dequeue(r.tm, e)), F.Start(e, time));
    }
  }

  /** The callback re-arms cyclic events and touches no other. */
  lemma FireTimer(k: KState, e: TMEVTB)
    requires System(k) && e in k.tm.pending
    ensures FireEvent(k, e).tm == F.FireEvent(Periods(k.cfg), k.tm, e)
  {
    assert KnownEvent(k, e);
    var k1 := WithTimer(k, Dequeue(k.tm, e));
    match e
    case TaskTimeout(t) =>
      EndWaitTimer(k1, t, E_OK);
      assert LeaveQueue(k1, t).tm == k1.tm;
      EndWaitTimer(LeaveQueue(k1, t), t, E_TMOUT);
    case CyclicEvent(c) =>
    case AlarmEvent(a) =>
  }

  lemma FireStepOk(k: KState, e: TMEVTB, r: F.Run)
    requires System(k) && Fireable(k.tm, e) && r.tm == k.tm && F.RunOk(r)
    ensures F.RunOk(F.Run(FireEvent(k, e).tm, r.ticks,
                          r.log + [F.Fired(e, k.tm.pending[e], k.tm.min, k.tm.current, r.ticks)]))
    ensures FireEvent(k, e).tm.tick == k.tm.tick
  {
    FireTimer(k, e);
    F.FireOk(Periods(k.cfg), r, e);
    assert F.Step(Periods(k.cfg), r, F.Fire(e)).tm == FireEvent(k, e).tm;
  }

  lemma TickStepOk(k: KState, r: F.Run)
    requires !k.tm.ticking && r.tm == k.tm && F.RunOk(r)
    ensures F.RunOk(F.Run(BeginTick(k.tm), r.ticks + 1, r.log))
  {
    F.SupplyTickOk(r);
  }

  lemma EndStepOk(k: KState, r: F.Run)
    requires k.tm.ticking && Drained(k.tm) && r.tm == k.tm && F.RunOk(r)
    ensures F.RunOk(F.Run(EndTick(k.tm), r.ticks, r.log))
  {
    F.StepOk([], r, F.FinishTick);
  }

  lemma NotedIs(k: KState, c: Call, r: F.Run)
    requires Enabled(k, c) && r.tm == k.tm
    ensures c.TickBegin? ==> Noted(k, c, r) == F.Run(BeginTick(k.tm), r.ticks + 1, r.log)
    ensures c.TickEnd? ==> Noted(k, c, r) == F.Run(EndTick(k.tm), r.ticks, r.log)
    ensures c.Fire? ==> Noted(k, c, r) == F.Run(FireEvent(k, c.event).tm, r.ticks,
              r.log + [F.Fired(c.event, k.tm.pending[c.event], k.tm.min, k.tm.current, r.ticks)])
    ensures !c.Fire? && !c.TickBegin? ==> Noted(k, c, r) == r.(tm := Perform(k, c).k.tm)
  {
    assert r.log + [] == r.log;
  }

  lemma ClockStepOk(k: KState, c: Call, r: F.Run)
    requires System(k) && Enabled(k, c) && IsClockCall(c) && r.tm == k.tm && F.RunOk(r)
    ensures F.RunOk(Noted(k, c, r)) && Noted(k, c, r).tm.tick == r.tm.tick
  {
    NotedIs(k, c, r);
    if c.TickBegin? {
      TickStepOk(k, r);
    } else if c.TickEnd? {
      EndStepOk(k, r);
    } else {
      FireStepOk(k, c.event, r);
    }
  }

  /** Every step of the kernel keeps the discipline of its timer. */
  lemma StepKeepsTime(k: KState, c: Call, r: F.Run)
    requires System(k) && Enabled(k, c) && r.tm == k.tm && F.RunOk(r)
    ensures F.RunOk(Noted(k, c, r)) && Noted(k, c, r).tm.tick == r.tm.tick
  {
    if IsClockCall(c) {
      ClockStepOk(k, c, r);
    } else {
      var tm' := Perform(k, c).k.tm;
      if IsStartingCall(c) {
        var e, time := CallStarts(k, c);
        StartsOk(r, tm', e, time);
      } else if IsStoppingCall(c) {
        CallStops(k, c);
        StopsOk(r, tm', HandlerOf(c));
      } else {
        CallCancels(k, c);
        CancelsOk(r, tm');
      }
      NotedIs(k, c, r);
    }
  }

  function Ticks(calls: seq<Call>): nat {
    if calls == [] then 0 else TicksIn(calls[0]) + Ticks(calls[1..])
  }

  /** Everything that fires in the course of a run that starts after `n` ticks. */
  ghost function FiredBy(k: KState, calls: seq<Call>, n: nat): seq<F.Fired>
    requires CanRun(k, calls)
    decreases |calls|
  {
    if calls == [] then []
    else FiredIn(k, calls[0], n) + FiredBy(Perform(k, calls[0]).k, calls[1..], n + TicksIn(calls[0]))
  }

  /** The timer's run at the end of a run of the kernel. */
  ghost function Ended(k: KState, calls: seq<Call>, r: F.Run): F.Run
    requires CanRun(k, calls)
  {
    F.Run(After(k, calls).tm, r.ticks + Ticks(calls), r.log + FiredBy(k, calls, r.ticks))
  }

  lemma EndedSplit(k: KState, calls: seq<Call>, r: F.Run, k1: KState, r1: F.Run)
    requires calls != [] && CanRun(k, calls) && k1 == Perform(k, calls[0]).k && r1 == Noted(k, calls[0], r)
    ensures CanRun(k1, calls[1..]) && Ended(k, calls, r) == Ended(k1, calls[1..], r1)
  {
    var rest := FiredBy(k1, calls[1..], r1.ticks);
    assert FiredBy(k, calls, r.ticks) == FiredIn(k, calls[0], r.ticks) + rest;
    Associates(r.log, FiredIn(k, calls[0], r.ticks), rest);
  }

  lemma Associates<T>(a: seq<T>, b: seq<T>, c: seq<T>)
    ensures a + (b + c) == a + b + c
  {
  }

  lemma {:induction false} RunKeepsTime(k: KState, calls: seq<Call>, r: F.Run)
    requires System(k) && CanRun(k, calls) && r.tm == k.tm && F.RunOk(r)
    ensures F.RunOk(Ended(k, calls, r)) && Ended(k, calls, r).tm.tick == r.tm.tick
    decreases |calls|
  {
    if calls == [] {
      assert Ended(k, calls, r) == r;
    } else {
      StepKeepsTime(k, calls[0], r);
      StepOk(k, calls[0]);
      var k1, r1 := Perform(k, calls[0]).k, Noted(k, calls[0], r);
      RunKeepsTime(k1, calls[1..], r1);
      EndedSplit(k, calls, r, k1, r1);
    }
  }

  // ---- the start

  lemma {:induction false} StartAllTimer(k: KState, sta: seq<nat>)
    requires ValidConfig(k.cfg)
    requires forall e :: e in k.tm.pending ==> k.tm.pending[e] <= TMAX_RELTIM
    ensures var tm' := StartAll(k, sta).tm;
            tm' == k.tm.(pending := tm'.pending) && forall e :: e in tm'.pending ==> tm'.pending[e] <= TMAX_RELTIM
    decreases |sta|
  {
    if sta != [] { StartAllTimer(StartCyclic(k, sta[0]), sta[1..]); }
  }

  lemma BootKeepsTime(cfg: Config, tick: Tick, act: seq<nat>, sta: seq<nat>)
    requires IsRun(cfg, tick, act, sta, [], Boot(cfg, tick, act, sta))
    ensures F.RunOk(F.Run(Boot(cfg, tick, act, sta).tm, 0, []))
    ensures Boot(cfg, tick, act, sta).tm.tick == tick
  {
    var k := Reset(cfg, tick);
    ResetOk(cfg, tick);
    ActivateAllOk(k, act);
    StartAllTimer(ActivateAll(k, act), sta);
    F.InitialRunOk(F.Run(Boot(cfg, tick, act, sta).tm, 0, []));
  }

  /** The timer of a run of the kernel is a run of the timer. */
  lemma RunTimes(cfg: Config, tick: Tick, act: seq<nat>, sta: seq<nat>, calls: seq<Call>, k: KState)
    requires IsRun(cfg, tick, act, sta, calls, k)
    ensures F.RunOk(F.Run(k.tm, Ticks(calls), FiredBy(Boot(cfg, tick, act, sta), calls, 0))) && k.tm.tick == tick
  {
    var b := Boot(cfg, tick, act, sta);
    assert IsRun(cfg, tick, act, sta, [], b);
    BootOk(cfg, tick, act, sta);
    BootKeepsTime(cfg, tick, act, sta);
    RunKeepsTime(b, calls, F.Run(b.tm, 0, []));
    assert Ended(b, calls, F.Run(b.tm, 0, [])) == F.Run(k.tm, Ticks(calls), FiredBy(b, calls, 0));
  }

  /** Whatever fired had been due, and was fired by the first tick whose time had reached
      it; due times never decrease; nothing fired twice for the same time. */
  ghost predicate Punctual(tick: Tick, log: seq<F.Fired>) {
    && (forall i :: 0 <= i < |log| ==> F.FiredOnTime(tick, log[i]))
    && forall i, j :: 0 <= i < j < |log| ==>
         log[i].due <= log[j].due && (log[i].event, log[i].due) != (log[j].event, log[j].due)
  }

  lemma RunIsPunctual(r: F.Run)
    requires F.RunOk(r)
    ensures Punctual(r.tm.tick, r.log)
    ensures r.tm.next * r.tm.tick.deno + r.tm.sub == (r.ticks + 1) * F.Nume(r.tm.tick)
  {
    F.MulAdd(r.ticks, 1, F.Nume(r.tm.tick));
    forall i, j | 0 <= i < j < |r.log|
      ensures r.log[i].due <= r.log[j].due && (r.log[i].event, r.log[i].due) != (r.log[j].event, r.log[j].due)
    {
      assert F.Before(r.log, i, j);
    }
  }

  // ---- the theorems

  /** Over every run of the kernel, timeouts, cyclic handlers and alarms fire punctually, and
      after `n` ticks the next one is due at exactly `n + 1` tick lengths. */
  lemma TimersKeepDiscipline(cfg: Config, tick: Tick, act: seq<nat>, sta: seq<nat>, calls: seq<Call>, k: KState)
    requires IsRun(cfg, tick, act, sta, calls, k)
    ensures Punctual(tick, FiredBy(Boot(cfg, tick, act, sta), calls, 0))
    ensures k.tm.next * tick.deno + k.tm.sub == (Ticks(calls) + 1) * F.Nume(tick)
  {
    RunTimes(cfg, tick, act, sta, calls, k);
    RunIsPunctual(F.Run(k.tm, Ticks(calls), FiredBy(Boot(cfg, tick, act, sta), calls, 0)));
  }

  /** Outside the timer interrupt no timeout, cyclic handler or alarm whose time has come is
      still pending: no task waits beyond its time. */
  lemma NobodyOverdue(cfg: Config, tick: Tick, act: seq<nat>, sta: seq<nat>, calls: seq<Call>, k: KState)
    requires IsRun(cfg, tick, act, sta, calls, k)
    requires !k.tm.ticking && Ticks(calls) > 0
    ensures forall e :: e in k.tm.pending ==> k.tm.current < k.tm.pending[e]
  {
    RunTimes(cfg, tick, act, sta, calls, k);
  }

  /** A delay of `t` ms asked for at real time `now` ends no earlier than that, and less than
      one millisecond and two tick lengths later, whatever happens in the system meanwhile. */
  lemma DelayAccuracy(cfg: Config, tick: Tick, act: seq<nat>, sta: seq<nat>, before: seq<Call>, k: KState,
                      t: nat, calls: seq<Call>, k': KState, now: nat, i: nat)
    requires IsRun(cfg, tick, act, sta, before, k) && Enabled(k, DlyTsk(t))
    requires before + [DlyTsk(t)] <= calls && IsRun(cfg, tick, act, sta, calls, k')
    requires Ticks(before) * F.Nume(tick) <= now < Ticks(before) * F.Nume(tick) + F.Nume(tick)
    requires i < |FiredBy(Boot(cfg, tick, act, sta), calls, 0)|
    requires var f := FiredBy(Boot(cfg, tick, act, sta), calls, 0)[i];
             f.event == TaskTimeout(k.runtsk.value) && f.due == Base(k.tm) + t
    ensures Perform(k, DlyTsk(t)).k.tm == Enqueue(k.tm, TaskTimeout(k.runtsk.value), t)
    ensures var fired := FiredBy(Boot(cfg, tick, act, sta), calls, 0)[i].tickNo * F.Nume(tick);
            && now + t * tick.deno < fired
            && fired < now + (t + 1) * tick.deno + 2 * F.Nume(tick)
  {
    var log := FiredBy(Boot(cfg, tick, act, sta), calls, 0);
    TimersKeepDiscipline(cfg, tick, act, sta, calls, k');
    RunIsAccurate(cfg, tick, act, sta, before, k, log[i], t, now);
    DelayRegisters(k, t);
  }

  // ---- what is pending fires

  /** Call `c` takes event `e` away, other than by its firing: a handler is stopped or started
      anew, or the timed wait of a task ends. */
  ghost predicate TakesAway(k: KState, c: Call, e: TMEVTB)
    requires Enabled(k, c)
  {
    match e
    case TaskTimeout(t) => !IsTimed(TcbOf(Perform(k, c).k, t))
    case CyclicEvent(n) => c == StaCyc(n) || c == StpCyc(n)
    case AlarmEvent(a) => (c.StaAlm? && c.alm == a) || c == StpAlm(a)
  }

  /** Nothing takes `e` away before it has fired. */
  ghost predicate LeftAlone(k: KState, calls: seq<Call>, e: TMEVTB)
    requires CanRun(k, calls)
    decreases |calls|
  {
    calls != [] && calls[0] != Fire(e) ==>
      !TakesAway(k, calls[0], e) && LeftAlone(Perform(k, calls[0]).k, calls[1..], e)
  }

  ghost predicate Kept(tm: TimerState, tm': TimerState, e: TMEVTB)
    requires e in tm.pending
  {
    e in tm'.pending && tm'.pending[e] == tm.pending[e]
  }

  /** The running task, which is in no timed wait, may begin one; its event is another. */
  lemma WaitingKeeps(k: KState, c: Call, e: TMEVTB)
    requires System(k) && Enabled(k, c) && IsWaitingCall(c) && e in k.tm.pending
    ensures Kept(k.tm, Perform(k, c).k.tm, e)
  {
    WaitingStarts(k, c);
    var r := k.runtsk.value;
    assert TaskTimeout(r) !in k.tm.pending by {
      if Dspflg(k) { TopIsHighest(k); }
      assert TaskLinked(k, r, {}, None) && Attached(k, r);
    }
  }

  lemma ClockKeeps(k: KState, c: Call, e: TMEVTB)
    requires System(k) && Enabled(k, c) && IsClockCall(c) && e in k.tm.pending && c != Fire(e)
    ensures Kept(k.tm, Perform(k, c).k.tm, e)
  {
    if c.Fire? { FireTimer(k, c.event); }
  }

  lemma HandlerCallKeeps(k: KState, c: Call, e: TMEVTB)
    requires System(k) && Enabled(k, c) && (IsStoppingCall(c) || c.StaCyc? || c.StaAlm?)
    requires e in k.tm.pending && e != HandlerOf(c)
    ensures Kept(k.tm, Perform(k, c).k.tm, e)
  {
    if IsStoppingCall(c) { CallStops(k, c); } else { HandlerStarts(k, c); }
  }

  lemma CancellingKeeps(k: KState, c: Call, e: TMEVTB)
    requires System(k) && Enabled(k, c) && !IsClockCall(c) && !IsStartingCall(c) && !IsStoppingCall(c)
    requires e in k.tm.pending && (e.TaskTimeout? ==> IsTimed(TcbOf(Perform(k, c).k, e.tsk)))
    ensures Kept(k.tm, Perform(k, c).k.tm, e)
  {
    CallCancels(k, c);
    if e.TaskTimeout? { StillTimed(k, c, e.tsk); }
  }

  lemma HandlerLeft(k: KState, c: Call, e: TMEVTB)
    requires Enabled(k, c) && (IsStoppingCall(c) || c.StaCyc? || c.StaAlm?) && !TakesAway(k, c, e)
    ensures e != HandlerOf(c)
  {
  }

  lemma TimeoutLeft(k: KState, c: Call, e: TMEVTB)
    requires Enabled(k, c) && !TakesAway(k, c, e)
    ensures e.TaskTimeout? ==> IsTimed(TcbOf(Perform(k, c).k, e.tsk))
  {
  }

  /** What is not taken away stays, for the same time, unless it fires. */
  lemma StepKeeps(k: KState, c: Call, e: TMEVTB)
    requires System(k) && Enabled(k, c) && e in k.tm.pending && c != Fire(e) && !TakesAway(k, c, e)
    ensures Kept(k.tm, Perform(k, c).k.tm, e)
  {
    if IsClockCall(c) {
      ClockKeeps(k, c, e);
    } else if IsWaitingCall(c) {
      WaitingKeeps(k, c, e);
    } else if IsStartingCall(c) || IsStoppingCall(c) {
      HandlerLeft(k, c, e);
      HandlerCallKeeps(k, c, e);
    } else {
      TimeoutLeft(k, c, e);
      CancellingKeeps(k, c, e);
    }
  }

  lemma StillTimed(k: KState, c: Call, t: nat)
    requires System(k) && Enabled(k, c) && IsTimed(TcbOf(Perform(k, c).k, t))
    ensures TaskTimeout(t) in Perform(k, c).k.tm.pending
  {
    StepOk(k, c);
    assert TaskLinked(Perform(k, c).k, t, {}, None) && Attached(Perform(k, c).k, t);
  }

  /** What is pending and left alone is pending still, or has fired. */
  lemma {:induction false} PendingOrFired(k: KState, calls: seq<Call>, e: TMEVTB, n: nat)
    requires System(k) && CanRun(k, calls) && e in k.tm.pending && LeftAlone(k, calls, e)
    ensures Kept(k.tm, After(k, calls).tm, e) || F.HasFired(FiredBy(k, calls, n), e, k.tm.pending[e])
    decreases |calls|
  {
    if calls != [] {
      var k1, n1 := Perform(k, calls[0]).k, n + TicksIn(calls[0]);
      var first, rest := FiredIn(k, calls[0], n), FiredBy(k1, calls[1..], n1);
      if calls[0] == Fire(e) {
        assert (first + rest)[0] == first[0];
      } else {
        StepKeeps(k, calls[0], e);
        StepOk(k, calls[0]);
        PendingOrFired(k1, calls[1..], e, n1);
        if F.HasFired(rest, e, k.tm.pending[e]) { FiredLater(first, rest, e, k.tm.pending[e]); }
      }
    }
  }

  lemma FiredLater(first: seq<F.Fired>, rest: seq<F.Fired>, e: TMEVTB, due: nat)
    requires F.HasFired(rest, e, due)
    ensures F.HasFired(first + rest, e, due)
  {
    var i :| 0 <= i < |rest| && rest[i].event == e && rest[i].due == due;
    assert (first + rest)[|first| + i] == rest[i];
  }

  /** In every run of the kernel an event that is pending and left alone has fired, on time and
      once, when a tick whose time reaches it is over. */
  lemma FiredByThen(cfg: Config, tick: Tick, act: seq<nat>, sta: seq<nat>, before: seq<Call>, k: KState,
                    calls: seq<Call>, e: TMEVTB) returns (i: nat)
    requires IsRun(cfg, tick, act, sta, before, k) && CanRun(k, calls)
    requires e in k.tm.pending && LeftAlone(k, calls, e)
    requires Ticks(calls) > 0 && !After(k, calls).tm.ticking && k.tm.pending[e] <= After(k, calls).tm.current
    ensures var log := FiredBy(k, calls, Ticks(before));
            && i < |log| && log[i].event == e && log[i].due == k.tm.pending[e] && F.FiredOnTime(tick, log[i])
            && forall j :: 0 <= j < |log| && j != i ==> (log[j].event, log[j].due) != (e, k.tm.pending[e])
    ensures !Kept(k.tm, After(k, calls).tm, e)
  {
    var log0, log := FiredBy(Boot(cfg, tick, act, sta), before, 0), FiredBy(k, calls, Ticks(before));
    var r := F.Run(k.tm, Ticks(before), log0);
    RunTimes(cfg, tick, act, sta, before, k);
    ReachableOk(k) by { assert Reachable(k); }
    RunKeepsTime(k, calls, r);
    RunIsPunctual(Ended(k, calls, r));
    PendingOrFired(k, calls, e, Ticks(before));
    OverdueFired(Ended(k, calls, r), e, k.tm.pending[e]);
    i :| i < |log| && log[i].event == e && log[i].due == k.tm.pending[e];
    SuffixPunctual(tick, log0, log, i);
  }

  /** A delay of `t` ms asked for at real time `now` ends, unless the wait is ended otherwise,
      and it does so after `t` ms and less than one millisecond and two tick lengths later. */
  lemma DelayEnds(cfg: Config, tick: Tick, act: seq<nat>, sta: seq<nat>, before: seq<Call>, k: KState,
                  t: nat, calls: seq<Call>, now: nat) returns (i: nat)
    requires IsRun(cfg, tick, act, sta, before, k) && Enabled(k, DlyTsk(t))
    requires Ticks(before) * F.Nume(tick) <= now < Ticks(before) * F.Nume(tick) + F.Nume(tick)
    requires var k1 := Perform(k, DlyTsk(t)).k;
             && CanRun(k1, calls) && LeftAlone(k1, calls, TaskTimeout(k.runtsk.value)) && Ticks(calls) > 0
             && !After(k1, calls).tm.ticking && Base(k.tm) + t <= After(k1, calls).tm.current
    ensures var log, D := FiredBy(Perform(k, DlyTsk(t)).k, calls, Ticks(before)), tick.deno;
            && i < |log| && log[i].event == TaskTimeout(k.runtsk.value)
            && now + t * D < log[i].tickNo * F.Nume(tick) < now + (t + 1) * D + 2 * F.Nume(tick)
  {
    DelayRegisters(k, t);
    i := RegisteredFires(cfg, tick, act, sta, before, k, DlyTsk(t), TaskTimeout(k.runtsk.value), t, calls, now);
  }

  /** An event that call `c` registers for `t` ms, at real time `now`, and that is left alone. */
  lemma RegisteredFires(cfg: Config, tick: Tick, act: seq<nat>, sta: seq<nat>, before: seq<Call>, k: KState,
                        c: Call, e: TMEVTB, t: nat, calls: seq<Call>, now: nat) returns (i: nat)
    requires IsRun(cfg, tick, act, sta, before, k) && Enabled(k, c) && TicksIn(c) == 0
    requires Ticks(before) * F.Nume(tick) <= now < Ticks(before) * F.Nume(tick) + F.Nume(tick)
    requires var k1 := Perform(k, c).k;
             && k1.tm == Enqueue(k.tm, e, t) && CanRun(k1, calls) && LeftAlone(k1, calls, e) && Ticks(calls) > 0
             && !After(k1, calls).tm.ticking && Base(k.tm) + t <= After(k1, calls).tm.current
    ensures var log, D := FiredBy(Perform(k, c).k, calls, Ticks(before)), tick.deno;
            && i < |log| && log[i].event == e
            && now + t * D < log[i].tickNo * F.Nume(tick) < now + (t + 1) * D + 2 * F.Nume(tick)
    ensures !Kept(Perform(k, c).k.tm, After(Perform(k, c).k, calls).tm, e)
  {
    var k1 := Perform(k, c).k;
    RunsOn(cfg, tick, act, sta, before, k, c);
    i := FiredByThen(cfg, tick, act, sta, before + [c], k1, calls, e);
    RunIsAccurate(cfg, tick, act, sta, before, k, FiredBy(k1, calls, Ticks(before))[i], t, now);
  }

  lemma DelayRegisters(k: KState, t: nat)
    requires Enabled(k, DlyTsk(t))
    ensures Perform(k, DlyTsk(t)).k.tm == Enqueue(k.tm, TaskTimeout(k.runtsk.value), t)
  {
    EnterWaitTimer(k, k.runtsk.value, Delay, Some(t));
  }

  lemma RunIsAccurate(cfg: Config, tick: Tick, act: seq<nat>, sta: seq<nat>, before: seq<Call>, k: KState,
                      f: F.Fired, t: nat, now: nat)
    requires IsRun(cfg, tick, act, sta, before, k) && F.FiredOnTime(tick, f) && f.due == Base(k.tm) + t
    requires Ticks(before) * F.Nume(tick) <= now < Ticks(before) * F.Nume(tick) + F.Nume(tick)
    ensures now + t * tick.deno < f.tickNo * F.Nume(tick) < now + (t + 1) * tick.deno + 2 * F.Nume(tick)
  {
    RunTimes(cfg, tick, act, sta, before, k);
    F.AccurateFiring(F.Run(k.tm, Ticks(before), FiredBy(Boot(cfg, tick, act, sta), before, 0)), f, t, now);
  }

  lemma RunsOn(cfg: Config, tick: Tick, act: seq<nat>, sta: seq<nat>, before: seq<Call>, k: KState, c: Call)
    requires IsRun(cfg, tick, act, sta, before, k) && Enabled(k, c)
    ensures IsRun(cfg, tick, act, sta, before + [c], Perform(k, c).k)
    ensures Ticks(before + [c]) == Ticks(before) + TicksIn(c)
  {
    RunExtends(Boot(cfg, tick, act, sta), before, c);
    TicksAppend(before, c);
  }

  lemma {:induction false} TicksAppend(calls: seq<Call>, c: Call)
    ensures Ticks(calls + [c]) == Ticks(calls) + TicksIn(c)
  {
    if calls != [] {
      TicksAppend(calls[1..], c);
      assert (calls + [c])[1..] == calls[1..] + [c];
    }
  }

  lemma OverdueFired(r: F.Run, e: TMEVTB, due: nat)
    requires F.RunOk(r) && r.ticks > 0 && !r.tm.ticking && due <= r.tm.current
    ensures !(e in r.tm.pending && r.tm.pending[e] == due)
  {
  }

  lemma SuffixPunctual(tick: Tick, log0: seq<F.Fired>, log: seq<F.Fired>, i: nat)
    requires Punctual(tick, log0 + log) && i < |log|
    ensures F.FiredOnTime(tick, log[i])
    ensures forall j :: 0 <= j < |log| && j != i ==> (log[j].event, log[j].due) != (log[i].event, log[i].due)
  {
    var all, n := log0 + log, |log0|;
    assert all[n + i] == log[i];
    forall j | 0 <= j < |log| && j != i ensures (log[j].event, log[j].due) != (log[i].event, log[i].due) {
      assert all[n + j] == log[j];
    }
  }
}
