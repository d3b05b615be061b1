/** Every step of the kernel, from any context, keeps the system invariant; hence so does
    every run. */
module KernelSystem {
  import opened Prelude
  import opened EventTime
  import opened Timer
  import opened KernelState
  import opened KernelCalls
  import opened KernelInv
  import opened KernelPriority

  /** The steps.  A waiting call comes with its timeout: TMO_FEVR, TMO_POL or a positive time. */
  datatype Call =
    | ActTsk(tsk: nat) | IactTsk(tsk: nat) | ExtTsk | TerTsk(tsk: nat) | ChgPri(tsk: nat, pri: nat)
    | SlpTsk(tmout: int) | WupTsk(tsk: nat) | IwupTsk(tsk: nat) | RelWai(tsk: nat) | IrelWai(tsk: nat)
    | SusTsk(tsk: nat) | RsmTsk(tsk: nat) | DlyTsk(time: nat)
    | RotRdq(pri: nat) | IrotRdq(pri: nat) | DisDsp | EnaDsp | ChgIpm(all: bool)
    | LocMtx(obj: nat, tmout: int) | UnlMtx(obj: nat) | IniMtx(obj: nat)
    | SigSem(obj: nat) | IsigSem(obj: nat) | WaiSem(obj: nat, tmout: int) | IniSem(obj: nat)
    | WaitOther(obj: nat, tmout: int) | WakeOther(obj: nat, tsks: seq<nat>) | IwakeOther(obj: nat, tsks: seq<nat>)
    | IniOther(obj: nat)
    | StaCyc(cyc: nat) | StpCyc(cyc: nat) | StaAlm(alm: nat, time: nat) | StpAlm(alm: nat)
    | IntEnter | IntExit | TickBegin | Fire(event: TMEVTB) | TickEnd

  // ---- when a step may be taken

  predicate InTask(k: KState) { k.runtsk.Some? && !k.inInt }

  predicate ValidTmout(tmout: int) { TMO_FEVR <= tmout <= TMAX_RELTIM }

  predicate IsSemaphore(cfg: Config, o: nat) { o < |cfg.objects| && cfg.objects[o].Semaphore? }

  predicate IsOther(cfg: Config, o: nat) { o < |cfg.objects| && cfg.objects[o].Other? }

  /** Different tasks, all of them waiting for `o`. */
  ghost predicate CanWake(k: KState, o: nat, ts: seq<nat>) {
    NoDup(ts) && forall t :: t in ts ==> t < |k.tcb| && WaitsFor(k, t, o)
  }

  /** What the entry checks of each service call demand: the right context, existing
      objects, and dispatching enabled for a call that may wait. */
  ghost predicate Enabled(k: KState, c: Call) {
    match c
    case ActTsk(t) => InTask(k) && t < |k.tcb|
    case IactTsk(t) => k.inInt && t < |k.tcb|
    case ExtTsk => InTask(k)
    case TerTsk(t) => InTask(k) && t < |k.tcb| && k.runtsk != Some(t)
    case ChgPri(t, pri) => InTask(k) && t < |k.tcb| && pri < TNUM_TPRI
    case SlpTsk(tmout) => InTask(k) && Dspflg(k) && ValidTmout(tmout)
    case WupTsk(t) => InTask(k) && t < |k.tcb|
    case IwupTsk(t) => k.inInt && t < |k.tcb|
    case RelWai(t) => InTask(k) && t < |k.tcb|
    case IrelWai(t) => k.inInt && t < |k.tcb|
    case SusTsk(t) => InTask(k) && t < |k.tcb|
    case RsmTsk(t) => InTask(k) && t < |k.tcb|
    case DlyTsk(time) => InTask(k) && Dspflg(k) && time <= TMAX_RELTIM
    case RotRdq(pri) => InTask(k) && pri < TNUM_TPRI
    case IrotRdq(pri) => k.inInt && pri < TNUM_TPRI
    case DisDsp => InTask(k)
    case EnaDsp => InTask(k)
    case ChgIpm(_) => InTask(k)
    case LocMtx(m, tmout) => InTask(k) && IsMutex(k.cfg, m) && ValidTmout(tmout) && (tmout != TMO_POL ==> Dspflg(k))
    case UnlMtx(m) => InTask(k) && IsMutex(k.cfg, m)
    case IniMtx(m) => InTask(k) && IsMutex(k.cfg, m)
    case SigSem(o) => InTask(k) && IsSemaphore(k.cfg, o)
    case IsigSem(o) => k.inInt && IsSemaphore(k.cfg, o)
    case WaiSem(o, tmout) => InTask(k) && IsSemaphore(k.cfg, o) && ValidTmout(tmout) && (tmout != TMO_POL ==> Dspflg(k))
    case IniSem(o) => InTask(k) && IsSemaphore(k.cfg, o)
    case WaitOther(o, tmout) => InTask(k) && IsOther(k.cfg, o) && ValidTmout(tmout) && tmout != TMO_POL && Dspflg(k)
    case WakeOther(o, ts) => InTask(k) && IsOther(k.cfg, o) && CanWake(k, o, ts)
    case IwakeOther(o, ts) => k.inInt && IsOther(k.cfg, o) && CanWake(k, o, ts)
    case IniOther(o) => InTask(k) && IsOther(k.cfg, o)
    case StaCyc(c) => InTask(k) && c < |k.cfg.cyclics|
    case StpCyc(c) => InTask(k) && c < |k.cfg.cyclics|
    case StaAlm(a, time) => (InTask(k) || k.inInt) && a < k.cfg.alarms && time <= TMAX_RELTIM
    case StpAlm(a) => (InTask(k) || k.inInt) && a < k.cfg.alarms
    case IntEnter => !k.inInt
    case IntExit => k.inInt && !k.tm.ticking
    case TickBegin => k.inInt && !k.tm.ticking
    case Fire(e) => k.inInt && Fireable(k.tm, e)
    case TickEnd => k.inInt && k.tm.ticking && Drained(k.tm)
  }

  ghost function Perform(k: KState, c: Call): Outcome
    requires Enabled(k, c)
  {
    match c
    case ActTsk(t) => KernelCalls.ActTsk(k, t)
    case IactTsk(t) => KernelCalls.IactTsk(k, t)
    case ExtTsk => KernelCalls.ExtTsk(k)
    case TerTsk(t) => KernelCalls.TerTsk(k, t)
    case ChgPri(t, pri) => KernelCalls.ChgPri(k, t, pri)
    case SlpTsk(tmout) => KernelCalls.SlpTsk(k, tmout)
    case WupTsk(t) => KernelCalls.WupTsk(k, t)
    case IwupTsk(t) => KernelCalls.IwupTsk(k, t)
    case RelWai(t) => KernelCalls.RelWai(k, t)
    case IrelWai(t) => KernelCalls.IrelWai(k, t)
    case SusTsk(t) => KernelCalls.SusTsk(k, t)
    case RsmTsk(t) => KernelCalls.RsmTsk(k, t)
    case DlyTsk(time) => KernelCalls.DlyTsk(k, time)
    case RotRdq(pri) => KernelCalls.RotRdq(k, pri)
    case IrotRdq(pri) => KernelCalls.IrotRdq(k, pri)
    case DisDsp => KernelCalls.DisDsp(k)
    case EnaDsp => KernelCalls.EnaDsp(k)
    case ChgIpm(all) => KernelCalls.ChgIpm(k, all)
    case LocMtx(m, tmout) => KernelCalls.LocMtx(k, m, tmout)
    case UnlMtx(m) => KernelCalls.UnlMtx(k, m)
    case IniMtx(m) => KernelCalls.IniMtx(k, m)
    case SigSem(o) => KernelCalls.SigSem(k, o)
    case IsigSem(o) => KernelCalls.IsigSem(k, o)
    case WaiSem(o, tmout) => KernelCalls.WaiSem(k, o, tmout)
    case IniSem(o) => KernelCalls.IniSem(k, o)
    case WaitOther(o, tmout) => KernelCalls.WaitOther(k, o, tmout)
    case WakeOther(o, ts) => KernelCalls.WakeOther(k, o, ts)
    case IwakeOther(o, ts) => KernelCalls.IwakeOther(k, o, ts)
    case IniOther(o) => KernelCalls.IniOther(k, o)
    case StaCyc(c) => KernelCalls.StaCyc(k, c)
    case StpCyc(c) => KernelCalls.StpCyc(k, c)
    case StaAlm(a, time) => KernelCalls.StaAlm(k, a, time)
    case StpAlm(a) => KernelCalls.StpAlm(k, a)
    case IntEnter => Outcome(k.(inInt := true), E_OK)
    case IntExit => Outcome(KernelCalls.IntExit(k), E_OK)
    case TickBegin => Outcome(WithTimer(k, BeginTick(k.tm)), E_OK)
    case Fire(e) => Outcome(FireEvent(k, e), E_OK)
    case TickEnd => Outcome(WithTimer(k, EndTick(k.tm)), E_OK)
  }

  // ---- the highest-precedence task

  /** Its place: at the head of a ready queue, with every queue before that one empty. */
  ghost predicate HeadsAt(ready: seq<seq<nat>>, p: nat, t: nat) {
    p < |ready| && ready[p] != [] && ready[p][0] == t && forall q :: 0 <= q < p ==> ready[q] == []
  }

  lemma {:induction false} TopHeads(ready: seq<seq<nat>>) returns (p: nat)
    ensures Top(ready).Some? ==> HeadsAt(ready, p, Top(ready).value)
    ensures Top(ready).None? ==> forall q :: 0 <= q < |ready| ==> ready[q] == []
  {
    p := 0;
    if ready != [] && ready[0] == [] {
      var p1 := TopHeads(ready[1..]);
      p := p1 + 1;
      forall q | 0 <= q < |ready| && (Top(ready).Some? ==> q < p) ensures ready[q] == [] {
        if q > 0 { assert ready[q] == ready[1..][q - 1]; }
      }
    }
  }

  lemma {:induction false} HeadsTop(ready: seq<seq<nat>>, p: nat, t: nat)
    requires HeadsAt(ready, p, t)
    ensures Top(ready) == Some(t)
  {
    if p > 0 {
      assert ready[0] == [];
      HeadsTop(ready[1..], p - 1, t);
    }
  }

  /** The highest-precedence task can run, and no runnable task has a higher priority. */
  lemma TopIsHighest(k: KState)
    requires Links(k, {}, None)
    ensures Top(k.ready).Some? ==>
              var t := Top(k.ready).value;
              && t < |k.tcb| && k.tcb[t].tstat.Runnable?
              && forall x :: 0 <= x < |k.tcb| && k.tcb[x].tstat.Runnable? ==> Pri(k, t) <= Pri(k, x)
    ensures Top(k.ready).None? ==> forall x :: 0 <= x < |k.tcb| ==> !k.tcb[x].tstat.Runnable?
  {
    var p := TopHeads(k.ready);
    if Top(k.ready).Some? {
      var t := Top(k.ready).value;
      assert ReadyLinked(k, p, {});
      assert t in k.ready[p];
      assert InReady(k, p, t, {});
      forall x | 0 <= x < |k.tcb| && k.tcb[x].tstat.Runnable? ensures Pri(k, t) <= Pri(k, x) {
        assert TaskLinked(k, x, {}, None) && Attached(k, x);
      }
    } else {
      forall x | 0 <= x < |k.tcb| ensures !k.tcb[x].tstat.Runnable? {
        assert TaskLinked(k, x, {}, None) && Attached(k, x);
      }
    }
  }

  // ---- frames and dispatching

  /** Flags, handler states and the clock are no part of the links between tasks. */
  lemma FlagsOk(k: KState, k': KState)
    requires Links(k, {}, None)
    requires k' == k.(runtsk := k'.runtsk, disdsp := k'.disdsp, ipmflg := k'.ipmflg, reqflg := k'.reqflg,
                      inInt := k'.inInt, cycsta := k'.cycsta, almsta := k'.almsta, tm := k'.tm)
    requires k'.runtsk.Some? ==> k'.runtsk.value < |k.tcb|
    requires |k'.cycsta| == |k.cycsta| && |k'.almsta| == |k.almsta|
    requires forall t :: 0 <= t < |k.tcb| ==> (TaskTimeout(t) in k'.tm.pending <==> TaskTimeout(t) in k.tm.pending)
    requires HandlersLinked(k')
    ensures Links(k', {}, None)
  {
    FrameReady(k, k', {}, {});
    forall o | 0 <= o < |k.obj| ensures ObjLinked(k', o, {}, None) {
      FrameObj(k, k', o, {}, {}, None);
    }
    forall t | 0 <= t < |k.tcb| ensures TaskLinked(k', t, {}, None) {
      FrameTask(k, k', t, {}, {}, None);
    }
  }

  ghost predicate SameFlags(k: KState, k': KState) {
    && k'.cfg == k.cfg && |k'.tcb| == |k.tcb|
    && k'.runtsk == k.runtsk && k'.disdsp == k.disdsp && k'.ipmflg == k.ipmflg
    && k'.reqflg == k.reqflg && k'.inInt == k.inInt && k'.tm.ticking == k.tm.ticking
  }

  /** The system is in order after a step, and configured as before. */
  ghost predicate Next(k: KState, k': KState) {
    System(k') && k'.cfg == k.cfg
  }

  /** The running task, if it cannot be replaced, can still run. */
  ghost predicate MayContinue(k: KState) {
    Dspflg(k) || (k.runtsk.Some? && k.runtsk.value < |k.tcb| && k.tcb[k.runtsk.value].tstat.Runnable?)
  }

  /** The end of a service call leaves the system in order. */
  lemma SettleOk(k: KState)
    requires Links(k, {}, None) && !k.reqflg && !k.inInt && !k.tm.ticking && MayContinue(k)
    ensures System(Settle(k))
  {
    TopIsHighest(k);
    FlagsOk(k, Settle(k));
  }

  lemma SettleCall(k: KState, k': KState)
    requires System(k) && InTask(k) && Links(k', {}, None) && SameFlags(k, k') && MayContinue(k')
    ensures Next(k, Settle(k'))
  {
    SettleOk(k');
  }

  lemma SettleWakes(k: KState, k': KState)
    requires System(k) && InTask(k) && Links(k', {}, None) && OnlyWakes(k, k')
    ensures Next(k, Settle(k'))
  {
    SettleOk(k');
  }

  lemma RequestWakes(k: KState, k': KState)
    requires System(k) && k.inInt && Links(k', {}, None) && OnlyWakes(k, k')
    ensures Next(k, Request(k, k'))
  {
    FlagsOk(k', Request(k, k'));
  }

  /** A step that leaves the highest-precedence task alone needs no dispatch. */
  lemma QuietCall(k: KState, k': KState)
    requires System(k) && Links(k', {}, None) && OnlyWakes(k, k') && Top(k'.ready) == Top(k.ready)
    ensures Next(k, k')
  {
  }
}
