/** The service calls, the timer interrupt and the interrupt exit as functions on the
    kernel state: one atomic step each. */
module KernelCalls {
  import opened Prelude
  import opened Timer
  import opened KernelState

  datatype Outcome = Outcome(k: KState, ercd: ER)

  // ---- task management

  function ActTsk(k: KState, t: nat): Outcome {
    if TcbOf(k, t).tstat.Dormant? then Outcome(Settle(MakeActive(k, t)), E_OK)
    else if !TcbOf(k, t).actque then Outcome(QueueActivation(k, t, true), E_OK)
    else Outcome(k, E_QOVR)
  }

  function IactTsk(k: KState, t: nat): Outcome {
    if TcbOf(k, t).tstat.Dormant? then Outcome(Request(k, MakeActive(k, t)), E_OK)
    else if !TcbOf(k, t).actque then Outcome(QueueActivation(k, t, true), E_OK)
    else Outcome(k, E_QOVR)
  }

  function QueueActivation(k: KState, t: nat, queued: bool): KState {
    SetTcb(k, t, TcbOf(k, t).(actque := queued))
  }

  /** The common end of `ext_tsk` and `ter_tsk` for a task already out of every queue. */
  function Terminate(k: KState, t: nat): KState {
    var k1 := MakeDormant(ReleaseAll(k, t, |TcbOf(k, t).held|), t);
    if TcbOf(k1, t).actque then MakeActive(QueueActivation(k1, t, false), t) else k1
  }

  function ExtTsk(k: KState): Outcome
    requires k.runtsk.Some?
  {
    var r := k.runtsk.value;
    var k1 := WithDispatch(k, false, true);
    Outcome(Settle(Terminate(MakeNonRunnable(k1, r), r)), NoReturn)
  }

  function WithDispatch(k: KState, disdsp: bool, ipmflg: bool): KState {
    k.(disdsp := disdsp, ipmflg := ipmflg)
  }

  /** Out of the ready queue, or out of whatever the task waits for. */
  function Detach(k: KState, t: nat): KState {
    match TcbOf(k, t).tstat
    case Runnable => MakeNonRunnable(k, t)
    case Waiting(_, _) => DequeueTimeout(LeaveQueue(k, t), t)
    case _ => k
  }

  function TerTsk(k: KState, t: nat): Outcome {
    if TcbOf(k, t).tstat.Dormant? then Outcome(k, E_OBJ)
    else Outcome(Settle(Terminate(Detach(k, t), t)), E_OK)
  }

  /** No mutex the task holds or waits for has a ceiling below base priority `b`. */
  predicate CeilingsAllow(k: KState, t: nat, b: nat) {
    && (forall i :: 0 <= i < |TcbOf(k, t).held| ==> CeilingAllows(k.cfg, TcbOf(k, t).held[i], b))
    && (match TcbOf(k, t).tstat
        case Waiting(OnObject(o), _) => CeilingAllows(k.cfg, o, b)
        case _ => true)
  }

  predicate CeilingAllows(cfg: Config, o: nat, b: nat) {
    CeilingOf(cfg, o).Some? ==> CeilingOf(cfg, o).value <= b
  }

  predicate HoldsCeiling(k: KState, t: nat) {
    exists i :: 0 <= i < |TcbOf(k, t).held| && CeilingOf(k.cfg, TcbOf(k, t).held[i]).Some?
  }

  function ChgPri(k: KState, t: nat, pri: nat): Outcome {
    if TcbOf(k, t).tstat.Dormant? then Outcome(k, E_OBJ)
    else if !CeilingsAllow(k, t, pri) then Outcome(k, E_ILUSE)
    else
      var k1 := SetTcb(k, t, TcbOf(k, t).(bpriority := pri));
      Outcome(if HoldsCeiling(k, t) then k1 else Settle(Reposition(k1, t, Pri(k, t), false)), E_OK)
  }

  // ---- task-dependent synchronisation

  function SlpTsk(k: KState, tmout: int): Outcome
    requires k.runtsk.Some?
  {
    var r := k.runtsk.value;
    if TcbOf(k, r).wupque then Outcome(QueueWakeup(k, r, false), E_OK)
    else if tmout == TMO_POL then Outcome(k, E_TMOUT)
    else Outcome(Settle(EnterWait(k, r, Sleep, TimeoutOf(tmout))), Blocked)
  }

  function QueueWakeup(k: KState, t: nat, queued: bool): KState {
    SetTcb(k, t, TcbOf(k, t).(wupque := queued))
  }

  predicate IsSleeping(s: TaskState) { s.Waiting? && s.cause.Sleep? }

  function WupTsk(k: KState, t: nat): Outcome {
    if TcbOf(k, t).tstat.Dormant? then Outcome(k, E_OBJ)
    else if IsSleeping(TcbOf(k, t).tstat) then Outcome(Settle(WaitComplete(k, t, E_OK)), E_OK)
    else if !TcbOf(k, t).wupque then Outcome(QueueWakeup(k, t, true), E_OK)
    else Outcome(k, E_QOVR)
  }

  function IwupTsk(k: KState, t: nat): Outcome {
    if TcbOf(k, t).tstat.Dormant? then Outcome(k, E_OBJ)
    else if IsSleeping(TcbOf(k, t).tstat) then Outcome(Request(k, WaitComplete(k, t, E_OK)), E_OK)
    else if !TcbOf(k, t).wupque then Outcome(QueueWakeup(k, t, true), E_OK)
    else Outcome(k, E_QOVR)
  }

  function RelWai(k: KState, t: nat): Outcome {
    if !TcbOf(k, t).tstat.Waiting? then Outcome(k, E_OBJ)
    else Outcome(Settle(WaitRelease(k, t, E_RLWAI)), E_OK)
  }

  function IrelWai(k: KState, t: nat): Outcome {
    if !TcbOf(k, t).tstat.Waiting? then Outcome(k, E_OBJ)
    else Outcome(Request(k, WaitRelease(k, t, E_RLWAI)), E_OK)
  }

  function SusTsk(k: KState, t: nat): Outcome {
    if k.runtsk == Some(t) && !Dspflg(k) then Outcome(k, E_CTX)
    else
      match TcbOf(k, t).tstat
      case Dormant => Outcome(k, E_OBJ)
      case Runnable => Outcome(Settle(MakeNonRunnable(SetState(k, t, Suspended), t)), E_OK)
      case Suspended => Outcome(k, E_QOVR)
      case Waiting(c, true) => Outcome(k, E_QOVR)
      case Waiting(c, false) => Outcome(SetState(k, t, Waiting(c, true)), E_OK)
  }

  function RsmTsk(k: KState, t: nat): Outcome {
    match TcbOf(k, t).tstat
    case Suspended => Outcome(Settle(MakeActive(k, t)), E_OK)
    case Waiting(c, true) => Outcome(SetState(k, t, Waiting(c, false)), E_OK)
    case _ => Outcome(k, E_OBJ)
  }

  function DlyTsk(k: KState, time: nat): Outcome
    requires k.runtsk.Some?
  {
    Outcome(Settle(EnterWait(k, k.runtsk.value, Delay, Some(time))), Blocked)
  }

  // ---- precedence and dispatching

  function Rotate(k: KState, pri: nat): KState {
    var q := ReadyOf(k, pri);
    if |q| > 1 then SetReady(k, pri, q[1..] + [q[0]]) else k
  }

  function RotRdq(k: KState, pri: nat): Outcome {
    Outcome(Settle(Rotate(k, pri)), E_OK)
  }

  function IrotRdq(k: KState, pri: nat): Outcome {
    Outcome(Request(k, Rotate(k, pri)), E_OK)
  }

  function DisDsp(k: KState): Outcome {
    Outcome(WithDispatch(k, true, k.ipmflg), E_OK)
  }

  function EnaDsp(k: KState): Outcome {
    Outcome(Settle(WithDispatch(k, false, k.ipmflg)), E_OK)
  }

  function ChgIpm(k: KState, all: bool): Outcome {
    Outcome(Settle(WithDispatch(k, k.disdsp, all)), E_OK)
  }

  // ---- mutexes

  function LocMtx(k: KState, m: nat, tmout: int): Outcome
    requires k.runtsk.Some?
  {
    var r := k.runtsk.value;
    if !CeilingAllows(k.cfg, m, TcbOf(k, r).bpriority) then Outcome(k, E_ILUSE)
    else if ObjOf(k, m).loctsk.None? then Outcome(Acquire(k, r, m), E_OK)
    else if ObjOf(k, m).loctsk == Some(r) then Outcome(k, E_OBJ)
    else if tmout == TMO_POL then Outcome(k, E_TMOUT)
    else Outcome(Settle(EnterWait(k, r, OnObject(m), TimeoutOf(tmout))), Blocked)
  }

  function UnlMtx(k: KState, m: nat): Outcome
    requires k.runtsk.Some?
  {
    var r := k.runtsk.value;
    if ObjOf(k, m).loctsk != Some(r) then Outcome(k, E_OBJ)
    else
      var k1 := Adjust(Unhold(k, r, m), r, Pri(k, r));
      Outcome(Settle(Release(k1, m)), E_OK)
  }

  function IniMtx(k: KState, m: nat): Outcome {
    Outcome(Settle(Disown(InitQueue(k, m, |ObjOf(k, m).waitQueue|), m)), E_OK)
  }

  // ---- semaphores

  /** Takes the first waiter of `o` out of the queue and completes its wait. */
  function WakeFirst(k: KState, o: nat): KState
    requires ObjOf(k, o).waitQueue != []
  {
    var q := ObjOf(k, o).waitQueue;
    WaitComplete(SetQueue(k, o, q[1..]), q[0], E_OK)
  }

  function MaxSem(cfg: Config, o: nat): nat {
    if o < |cfg.objects| && cfg.objects[o].Semaphore? then cfg.objects[o].maxsem else 0
  }

  function IsemCnt(cfg: Config, o: nat): nat {
    if o < |cfg.objects| && cfg.objects[o].Semaphore? then cfg.objects[o].isemcnt else 0
  }

  function SetCount(k: KState, o: nat, n: nat): KState {
    SetObj(k, o, ObjOf(k, o).(semcnt := n))
  }

  function SigSem(k: KState, o: nat): Outcome {
    if ObjOf(k, o).waitQueue != [] then Outcome(Settle(WakeFirst(k, o)), E_OK)
    else if ObjOf(k, o).semcnt < MaxSem(k.cfg, o) then Outcome(SetCount(k, o, ObjOf(k, o).semcnt + 1), E_OK)
    else Outcome(k, E_QOVR)
  }

  function IsigSem(k: KState, o: nat): Outcome {
    if ObjOf(k, o).waitQueue != [] then Outcome(Request(k, WakeFirst(k, o)), E_OK)
    else if ObjOf(k, o).semcnt < MaxSem(k.cfg, o) then Outcome(SetCount(k, o, ObjOf(k, o).semcnt + 1), E_OK)
    else Outcome(k, E_QOVR)
  }

  function WaiSem(k: KState, o: nat, tmout: int): Outcome
    requires k.runtsk.Some?
  {
    if ObjOf(k, o).semcnt >= 1 then Outcome(SetCount(k, o, ObjOf(k, o).semcnt - 1), E_OK)
    else if tmout == TMO_POL then Outcome(k, E_TMOUT)
    else Outcome(Settle(EnterWait(k, k.runtsk.value, OnObject(o), TimeoutOf(tmout))), Blocked)
  }

  function IniSem(k: KState, o: nat): Outcome {
    var k1 := InitQueue(k, o, |ObjOf(k, o).waitQueue|);
    Outcome(Settle(SetCount(k1, o, IsemCnt(k1.cfg, o))), E_OK)
  }

  // ---- other objects with a wait queue

  /** `wobj_make_wait` and `wobj_make_wait_tmout`: the caller waits for object `o`. */
  function WaitOther(k: KState, o: nat, tmout: int): Outcome
    requires k.runtsk.Some?
  {
    Outcome(Settle(EnterWait(k, k.runtsk.value, OnObject(o), TimeoutOf(tmout))), Blocked)
  }

  /** The waits of the tasks in `ts` end with success, in that order. */
  function WakeAll(k: KState, ts: seq<nat>): KState
    decreases |ts|
  {
    if ts == [] then k else WakeAll(WaitRelease(k, ts[0], E_OK), ts[1..])
  }

  /** Some of the tasks waiting for `o` are released, for whatever reason the object has; one
      dispatch follows. */
  function WakeOther(k: KState, o: nat, ts: seq<nat>): Outcome { Outcome(Settle(WakeAll(k, ts)), E_OK) }

  function IwakeOther(k: KState, o: nat, ts: seq<nat>): Outcome { Outcome(Request(k, WakeAll(k, ts)), E_OK) }

  function IniOther(k: KState, o: nat): Outcome {
    Outcome(Settle(InitQueue(k, o, |ObjOf(k, o).waitQueue|)), E_OK)
  }

  // ---- time

  predicate CycSta(k: KState, c: nat) { c < |k.cycsta| && k.cycsta[c] }

  predicate AlmSta(k: KState, a: nat) { a < |k.almsta| && k.almsta[a] }

  function SetCyc(k: KState, c: nat, sta: bool, tm: TimerState): KState {
    if c < |k.cycsta| then k.(cycsta := k.cycsta[c := sta], tm := tm) else k
  }

  function SetAlm(k: KState, a: nat, sta: bool, tm: TimerState): KState {
    if a < |k.almsta| then k.(almsta := k.almsta[a := sta], tm := tm) else k
  }

  function CycInitOf(cfg: Config, c: nat): CycInit {
    if c < |cfg.cyclics| then cfg.cyclics[c] else CycInit(1, 0)
  }

  function StaCyc(k: KState, c: nat): Outcome {
    var tm := if CycSta(k, c) then Dequeue(k.tm, CyclicEvent(c)) else k.tm;
    Outcome(SetCyc(k, c, true, Enqueue(tm, CyclicEvent(c), CycInitOf(k.cfg, c).cycphs)), E_OK)
  }

  function StpCyc(k: KState, c: nat): Outcome {
    Outcome(if CycSta(k, c) then SetCyc(k, c, false, Dequeue(k.tm, CyclicEvent(c))) else k, E_OK)
  }

  function StaAlm(k: KState, a: nat, time: nat): Outcome {
    var tm := if AlmSta(k, a) then Dequeue(k.tm, AlarmEvent(a)) else k.tm;
    Outcome(SetAlm(k, a, true, Enqueue(tm, AlarmEvent(a), time)), E_OK)
  }

  function StpAlm(k: KState, a: nat): Outcome {
    Outcome(if AlmSta(k, a) then SetAlm(k, a, false, Dequeue(k.tm, AlarmEvent(a))) else k, E_OK)
  }

  /** The callback of event `e`, which has just been taken out of the heap; `due` is the
      time it was due. */
  function Callback(k: KState, e: TMEVTB, due: nat): KState {
    match e
    case TaskTimeout(t) =>
      if IsDelayed(TcbOf(k, t).tstat) then Request(k, EndWait(k, t, E_OK))
      else Request(k, EndWait(LeaveQueue(k, t), t, E_TMOUT))
    case CyclicEvent(c) => WithTimer(k, EnqueueAt(k.tm, e, due + CycInitOf(k.cfg, c).cyctim))
    case AlarmEvent(a) => SetAlm(k, a, false, k.tm)
  }

  predicate IsDelayed(s: TaskState) { s.Waiting? && s.cause.Delay? }

  predicate KnownEvent(k: KState, e: TMEVTB) {
    match e
    case TaskTimeout(t) => t < |k.tcb|
    case CyclicEvent(c) => c < |k.cycsta|
    case AlarmEvent(a) => a < |k.almsta|
  }

  function FireEvent(k: KState, e: TMEVTB): KState
    requires e in k.tm.pending
  {
    Callback(WithTimer(k, Dequeue(k.tm, e)), e, k.tm.pending[e])
  }

  // ---- interrupts

  /** The exit of the outermost interrupt handler dispatches if it has been asked to. */
  function IntExit(k: KState): KState {
    if k.reqflg then Settle(k.(reqflg := false, inInt := false)) else k.(inInt := false)
  }
}
