/** The kernel state as a value and the kernel's internal operations as functions on it.
    Nothing derived is stored: current priorities, the highest-precedence task and the
    dispatch-enabled flag are functions of the rest. */
module KernelState {
  import opened Prelude
  import opened Timer

  const TNUM_TPRI: nat := 16
  const TMO_FEVR: int := -1
  const TMO_POL: int := 0

  datatype ER = E_OK | E_TMOUT | E_RLWAI | E_DLT | E_ILUSE | E_OBJ | E_QOVR | E_CTX | E_PAR | Blocked | NoReturn

  datatype Cause = Sleep | Delay | OnObject(obj: nat)
  datatype TaskState = Dormant | Runnable | Suspended | Waiting(cause: Cause, suspended: bool)

  /** The union in a waiting task's WINFO: first whether a time event block is registered,
      later the result code of the wait. */
  datatype WINFO = Tmevtb(registered: bool) | Wercd(ercd: ER)

  datatype ObjInit =
    | Mutex(tpri: bool, ceiling: Option<nat>)
    | Semaphore(tpri: bool, isemcnt: nat, maxsem: nat)
    | Other(tpri: bool)            // a wait queue of an event flag, data queue or memory pool
  datatype CycInit = CycInit(cyctim: nat, cycphs: nat)
  datatype Config = Config(ipriority: seq<nat>, objects: seq<ObjInit>, cyclics: seq<CycInit>, alarms: nat)

  /** `held` is the task's mutex queue. */
  datatype TCB = TCB(bpriority: nat, tstat: TaskState, actque: bool, wupque: bool, winfo: WINFO, held: seq<nat>)
  /** A synchronisation object; `loctsk` matters for mutexes, `semcnt` for semaphores. */
  datatype WOBJ = WOBJ(waitQueue: seq<nat>, loctsk: Option<nat>, semcnt: nat)

  datatype KState = KState(
    cfg: Config, tcb: seq<TCB>, obj: seq<WOBJ>, ready: seq<seq<nat>>,
    runtsk: Option<nat>, disdsp: bool, ipmflg: bool, reqflg: bool, inInt: bool,
    cycsta: seq<bool>, almsta: seq<bool>, tm: TimerState)

  // ---- reading and writing the tables

  function TcbOf(k: KState, t: nat): TCB {
    if t < |k.tcb| then k.tcb[t] else TCB(0, Dormant, false, false, Wercd(E_OK), [])
  }

  function ObjOf(k: KState, o: nat): WOBJ {
    if o < |k.obj| then k.obj[o] else WOBJ([], None, 0)
  }

  function ReadyOf(k: KState, p: nat): seq<nat> { if p < |k.ready| then k.ready[p] else [] }

  function SetTcb(k: KState, t: nat, b: TCB): KState {
    if t < |k.tcb| then k.(tcb := k.tcb[t := b]) else k
  }

  function SetObj(k: KState, o: nat, b: WOBJ): KState {
    if o < |k.obj| then k.(obj := k.obj[o := b]) else k
  }

  function SetReady(k: KState, p: nat, s: seq<nat>): KState {
    if p < |k.ready| then k.(ready := k.ready[p := s]) else k
  }

  function SetQueue(k: KState, o: nat, s: seq<nat>): KState { SetObj(k, o, ObjOf(k, o).(waitQueue := s)) }

  function SetOwner(k: KState, o: nat, owner: Option<nat>): KState { SetObj(k, o, ObjOf(k, o).(loctsk := owner)) }

  function SetState(k: KState, t: nat, s: TaskState): KState { SetTcb(k, t, TcbOf(k, t).(tstat := s)) }

  function SetWinfo(k: KState, t: nat, w: WINFO): KState { SetTcb(k, t, TcbOf(k, t).(winfo := w)) }

  function SetHeld(k: KState, t: nat, held: seq<nat>): KState { SetTcb(k, t, TcbOf(k, t).(held := held)) }

  function WithTimer(k: KState, tm: TimerState): KState { k.(tm := tm) }

  // ---- derived values

  /** The ceiling of object `o`, for a mutex that has one. */
  function CeilingOf(cfg: Config, o: nat): Option<nat> {
    if o < |cfg.objects| && cfg.objects[o].Mutex? then cfg.objects[o].ceiling else None
  }

  predicate IsTpri(cfg: Config, o: nat) { o < |cfg.objects| && cfg.objects[o].tpri }

  predicate IsMutex(cfg: Config, o: nat) { o < |cfg.objects| && cfg.objects[o].Mutex? }

  /** The strict priority control rule: the highest of a base priority and the ceilings
      of the mutexes in `held`. */
  function LowestOf(cfg: Config, held: seq<nat>, base: nat): nat {
    if held == [] then base
    else
      var rest := LowestOf(cfg, held[1..], base);
      match CeilingOf(cfg, held[0])
      case Some(c) => Min(c, rest)
      case None => rest
  }

  function PriOf(cfg: Config, tcb: TCB): nat { LowestOf(cfg, tcb.held, tcb.bpriority) }

  function Pri(k: KState, t: nat): nat { PriOf(k.cfg, TcbOf(k, t)) }

  /** The current priority of every task. */
  function Pris(k: KState): (p: seq<nat>)
    ensures |p| == |k.tcb| && forall t :: 0 <= t < |k.tcb| ==> p[t] == Pri(k, t)
  {
    seq(|k.tcb|, t requires 0 <= t < |k.tcb| => Pri(k, t))
  }

  /** The task of highest precedence: the head of the first non-empty ready queue. */
  function Top(ready: seq<seq<nat>>): Option<nat> {
    if ready == [] then None
    else if ready[0] != [] then Some(ready[0][0])
    else Top(ready[1..])
  }

  predicate Dspflg(k: KState) { k.ipmflg && !k.disdsp }

  predicate IsSuspended(s: TaskState) { s.Suspended? || (s.Waiting? && s.suspended) }

  function PriIn(p: seq<nat>, t: nat): nat { if t < |p| then p[t] else 0 }

  /** The queue `s` with `t` placed behind every task of the same or a higher priority. */
  function InsertTpri(p: seq<nat>, s: seq<nat>, t: nat): seq<nat> {
    if s == [] then [t]
    else if PriIn(p, t) < PriIn(p, s[0]) then [t] + s
    else [s[0]] + InsertTpri(p, s[1..], t)
  }

  // ---- internal operations

  function MakeRunnable(k: KState, t: nat): KState {
    SetReady(k, Pri(k, t), ReadyOf(k, Pri(k, t)) + [t])
  }

  function MakeNonRunnable(k: KState, t: nat): KState {
    SetReady(k, Pri(k, t), Remove(ReadyOf(k, Pri(k, t)), t))
  }

  /** Back to what the task would be if it did not wait. */
  function MakeNonWait(k: KState, t: nat): KState {
    if IsSuspended(TcbOf(k, t).tstat) then SetState(k, t, Suspended)
    else MakeRunnable(SetState(k, t, Runnable), t)
  }

  /** Cancels the timeout of a waiting task, if it has one. */
  function DequeueTimeout(k: KState, t: nat): KState {
    if TcbOf(k, t).winfo == Tmevtb(true) then WithTimer(k, Dequeue(k.tm, TaskTimeout(t))) else k
  }

  /** Takes a waiting task out of the queue of the object it waits for. */
  function LeaveQueue(k: KState, t: nat): KState {
    match TcbOf(k, t).tstat
    case Waiting(OnObject(o), _) => SetQueue(k, o, Remove(ObjOf(k, o).waitQueue, t))
    case _ => k
  }

  function JoinQueue(k: KState, t: nat, o: nat): KState {
    var q := ObjOf(k, o).waitQueue;
    SetQueue(k, o, if IsTpri(k.cfg, o) then InsertTpri(Pris(k), q, t) else q + [t])
  }

  /** Hands the result code to a task that is in no queue any more and ends its wait. */
  function EndWait(k: KState, t: nat, ercd: ER): KState {
    MakeNonWait(SetWinfo(k, t, Wercd(ercd)), t)
  }

  /** `wait_complete` and its like: cancel the timeout, then end the wait. */
  function WaitComplete(k: KState, t: nat, ercd: ER): KState {
    EndWait(DequeueTimeout(k, t), t, ercd)
  }

  /** `wait_release`: taken out of whatever it waits for. */
  function WaitRelease(k: KState, t: nat, ercd: ER): KState {
    WaitComplete(LeaveQueue(k, t), t, ercd)
  }

  /** The state of a task about to wait: its cause, and its timeout when there is one. */
  function Armed(k: KState, r: nat, cause: Cause, timeout: Option<nat>): KState {
    var k1 := SetTcb(k, r, TcbOf(k, r).(tstat := Waiting(cause, false), winfo := Tmevtb(timeout.Some?)));
    if timeout.Some? then WithTimer(k1, Enqueue(k1.tm, TaskTimeout(r), timeout.value)) else k1
  }

  /** The running task `r` starts to wait: out of the ready queue, armed, and into the
      queue of the object. */
  function EnterWait(k: KState, r: nat, cause: Cause, timeout: Option<nat>): KState {
    var k1 := Armed(MakeNonRunnable(k, r), r, cause, timeout);
    if cause.OnObject? then JoinQueue(k1, r, cause.obj) else k1
  }

  function TimeoutOf(tmout: int): Option<nat> {
    if tmout > 0 then Some(tmout) else None
  }

  /** Moves task `t`, whose priority was `oldpri`, to where its present priority puts it:
      in front of its equals in mutex mode, behind them otherwise. */
  function Reposition(k: KState, t: nat, oldpri: nat, mtxmode: bool): KState {
    match TcbOf(k, t).tstat
    case Runnable =>
      var k1 := SetReady(k, oldpri, Remove(ReadyOf(k, oldpri), t));
      var q := ReadyOf(k1, Pri(k, t));
      SetReady(k1, Pri(k, t), if mtxmode then [t] + q else q + [t])
    case Waiting(OnObject(o), _) =>
      if IsTpri(k.cfg, o) then JoinQueue(LeaveQueue(k, t), t, o) else k
    case _ => k
  }

  /** A change of the mutexes a task holds moves it only if its priority changes. */
  function Adjust(k: KState, t: nat, oldpri: nat): KState {
    if Pri(k, t) == oldpri then k else Reposition(k, t, oldpri, true)
  }

  /** `mutex_acquire`. */
  function Acquire(k: KState, t: nat, m: nat): KState {
    Adjust(SetHeld(SetOwner(k, m, Some(t)), t, [m] + TcbOf(k, t).held), t, Pri(k, t))
  }

  /** Takes `m` out of the mutex queue of `t`. */
  function Unhold(k: KState, t: nat, m: nat): KState {
    SetHeld(k, t, Remove(TcbOf(k, t).held, m))
  }

  /** Gives mutex `m` to its first waiter, whose wait ends. */
  function HandOver(k: KState, m: nat): KState
    requires ObjOf(k, m).waitQueue != []
  {
    var q := ObjOf(k, m).waitQueue;
    var t := q[0];
    var k1 := SetQueue(k, m, q[1..]);
    var k2 := SetWinfo(DequeueTimeout(k1, t), t, Wercd(E_OK));
    var k3 := SetOwner(k2, m, Some(t));
    MakeNonWait(SetHeld(k3, t, TcbOf(k3, t).held + [m]), t)
  }

  /** `mutex_release`: free, or handed over to the first task waiting for it. */
  function Release(k: KState, m: nat): KState {
    var q := ObjOf(k, m).waitQueue;
    if q == [] then SetOwner(k, m, None) else HandOver(k, m)
  }

  /** Mutex `m`, which nobody waits for, is taken from its owner, if it has one. */
  function Disown(k: KState, m: nat): KState {
    match ObjOf(k, m).loctsk
    case None => k
    case Some(t) => Adjust(SetOwner(Unhold(k, t, m), m, None), t, Pri(k, t))
  }

  /** `mutex_release_all`: up to `n` mutexes of `t`, in the order of its mutex queue. */
  function ReleaseAll(k: KState, t: nat, n: nat): KState
    decreases n
  {
    var held := TcbOf(k, t).held;
    if n == 0 || held == [] then k
    else ReleaseAll(Release(Unhold(k, t, held[0]), held[0]), t, n - 1)
  }

  /** `init_wait_queue`: everyone waiting for `o`, up to `n` tasks, is told it is gone. */
  function InitQueue(k: KState, o: nat, n: nat): KState
    decreases n
  {
    var q := ObjOf(k, o).waitQueue;
    if n == 0 || q == [] then k
    else InitQueue(WaitComplete(SetQueue(k, o, q[1..]), q[0], E_DLT), o, n - 1)
  }

  function Ipriority(k: KState, t: nat): nat { if t < |k.cfg.ipriority| then k.cfg.ipriority[t] else 0 }

  function MakeDormant(k: KState, t: nat): KState {
    SetTcb(k, t, TcbOf(k, t).(tstat := Dormant, bpriority := Ipriority(k, t), wupque := false))
  }

  function MakeActive(k: KState, t: nat): KState {
    MakeRunnable(SetState(k, t, Runnable), t)
  }

  /** What a task does at the end of a service call: the highest-precedence task runs. */
  function Settle(k: KState): KState {
    if Dspflg(k) then k.(runtsk := Top(k.ready)) else k
  }

  /** What an interrupt handler does instead: it asks for a dispatch at its exit. */
  function Request(before: KState, k: KState): KState {
    k.(reqflg := k.reqflg || (Dspflg(k) && Top(k.ready) != Top(before.ready)))
  }
}
