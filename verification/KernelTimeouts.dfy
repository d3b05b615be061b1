/** What a timeout is for: a wait with a timeout of `tmout` ms that nothing else ends is over with
    E_TMOUT, no earlier than asked and less than one millisecond and two tick lengths later. */
module KernelTimeouts {
  import opened Prelude
  import opened Timer
  import opened KernelState
  import opened KernelCalls
  import opened KernelInv
  import opened KernelSystem
  import opened KernelRuns
  import opened KernelTheorems
  import opened KernelEffects
  import opened ReleaseOrder
  import opened CallEffects
  import opened MutexEffects
  import T = KernelTiming
  import F = Firing

  // ---- a wait goes on as it began

  /** A task that waits before and afterwards is in the same wait. */
  predicate SameWait(b: TCB, b': TCB) {
    b.tstat.Waiting? && b'.tstat.Waiting? ==> b'.tstat.cause == b.tstat.cause && b'.winfo == b.winfo
  }

  ghost predicate SameWaits(tcb: seq<TCB>, tcb': seq<TCB>) {
    |tcb'| == |tcb| && forall t :: 0 <= t < |tcb| ==> SameWait(tcb[t], tcb'[t])
  }

  lemma StartSameWaits(k: KState, k': KState, cause: Cause, timeout: Option<nat>)
    requires System(k) && InTask(k) && StartsWaiting(k, k', cause, timeout)
    ensures SameWaits(k.tcb, k'.tcb)
  {
    assert k.tcb[k.runtsk.value].tstat.Runnable?;
  }

  lemma EndSameWaits(k: KState, k': KState, t: nat, ercd: ER)
    requires OnlyEnds(k, k', t, ercd)
    ensures SameWaits(k.tcb, k'.tcb)
  {
  }

  lemma AllEndSameWaits(k: KState, k': KState, s: seq<nat>, ercd: ER)
    requires AllEnd(k, k', s, ercd)
    ensures SameWaits(k.tcb, k'.tcb)
  {
    forall t | 0 <= t < |k.tcb| ensures SameWait(k.tcb[t], k'.tcb[t]) {
      assert RecordEnds(k, k', s, ercd, t);
    }
  }

  /** Only the record of task `t` changes, and `t` does not begin another wait. */
  lemma OneSameWaits(k: KState, k': KState, t: nat)
    requires t < |k.tcb| == |k'.tcb| && (forall x :: 0 <= x < |k.tcb| && x != t ==> k'.tcb[x] == k.tcb[x]) && SameWait(k.tcb[t], k'.tcb[t])
    ensures SameWaits(k.tcb, k'.tcb)
  {
  }

  lemma ActivationSameWaits(k: KState, c: Call)
    requires System(k) && Enabled(k, c) && (c.ActTsk? || c.IactTsk?)
    ensures SameWaits(k.tcb, Perform(k, c).k.tcb)
  {
    if c.ActTsk? { ActTskEffect(k, c.tsk); } else { IactTskEffect(k, c.tsk); }
    OneSameWaits(k, Perform(k, c).k, c.tsk);
  }

  lemma WakesSameWaits(k: KState, o: Outcome, t: nat)
    requires t < |k.tcb| && (Wakes(k, o, t) || Forces(k, o, t))
    ensures SameWaits(k.tcb, o.k.tcb)
  {
  }

  lemma WakeupSameWaits(k: KState, c: Call)
    requires System(k) && Enabled(k, c) && (c.WupTsk? || c.IwupTsk? || c.RelWai? || c.IrelWai?)
    ensures SameWaits(k.tcb, Perform(k, c).k.tcb)
  {
    if c.WupTsk? { WupTskEffect(k, c.tsk); }
    else if c.IwupTsk? { IwupTskEffect(k, c.tsk); }
    else if c.RelWai? { RelWaiEffect(k, c.tsk); }
    else { IrelWaiEffect(k, c.tsk); }
    WakesSameWaits(k, Perform(k, c), c.tsk);
  }

  lemma SuspensionSameWaits(k: KState, c: Call)
    requires System(k) && Enabled(k, c) && (c.SusTsk? || c.RsmTsk?)
    ensures SameWaits(k.tcb, Perform(k, c).k.tcb)
  {
    if c.SusTsk? { SusTskEffect(k, c.tsk); } else { RsmTskEffect(k, c.tsk); }
    OneSameWaits(k, Perform(k, c).k, c.tsk);
  }

  lemma RebasesSameWaits(k: KState, o: Outcome, t: nat, pri: nat)
    requires t < |k.tcb| && Rebases(k, o, t, pri)
    ensures SameWaits(k.tcb, o.k.tcb)
  {
    var k1 := k.(tcb := k.tcb[t := k.tcb[t].(bpriority := pri)]);
    assert o.k.tcb == k.tcb || o.k.tcb == k1.tcb;
    OneSameWaits(k, k1, t);
    OneSameWaits(k, k, t);
  }

  lemma ChgPriSameWaits(k: KState, t: nat, pri: nat)
    requires System(k) && Enabled(k, ChgPri(t, pri))
    ensures SameWaits(k.tcb, Perform(k, ChgPri(t, pri)).k.tcb)
  {
    ChgPriEffect(k, t, pri);
    RebasesSameWaits(k, Perform(k, ChgPri(t, pri)), t, pri);
  }

  lemma WaitingSameWaits(k: KState, c: Call)
    requires System(k) && Enabled(k, c) && (c.SlpTsk? || c.DlyTsk?)
    ensures SameWaits(k.tcb, Perform(k, c).k.tcb)
  {
    var o := Perform(k, c);
    if c.DlyTsk? {
      DlyTskEffect(k, c.time);
      StartSameWaits(k, o.k, Delay, Some(c.time));
    } else {
      SlpTskEffect(k, c.tmout);
      if o.ercd == Blocked { StartSameWaits(k, o.k, Sleep, if c.tmout > 0 then Some(c.tmout) else None); }
    }
  }

  lemma LockSameWaits(k: KState, m: nat, tmout: int)
    requires System(k) && Enabled(k, LocMtx(m, tmout))
    ensures SameWaits(k.tcb, Perform(k, LocMtx(m, tmout)).k.tcb)
  {
    LocMtxEffect(k, m, tmout);
    var o := Perform(k, LocMtx(m, tmout));
    if o.ercd == Blocked {
      StartSameWaits(k, o.k, OnObject(m), if tmout > 0 then Some(tmout) else None);
    } else {
      OneSameWaits(k, o.k, k.runtsk.value);
    }
  }

  lemma HandedSameWaits(k: KState, k': KState, t: nat, held: seq<nat>)
    requires AllHanded(k, k', t, held)
    ensures SameWaits(k.tcb, k'.tcb)
  {
    forall x | 0 <= x < |k.tcb| ensures SameWait(k.tcb[x], k'.tcb[x]) {
      if x != t { assert RecordInherits(k, k', held, x); }
    }
  }

  lemma RenewedSameWaits(k: KState, k2: KState, k': KState, t: nat)
    requires t < |k.tcb| && Pri(k, t) < |k.ready| && AllHanded(OutOfQueues(k, t), k2, t, k.tcb[t].held) && Renewed(k2, k', t)
    ensures SameWaits(k.tcb, k'.tcb)
  {
    HandedSameWaits(OutOfQueues(k, t), k2, t, k.tcb[t].held);
    forall x | 0 <= x < |k.tcb| ensures SameWait(k.tcb[x], k'.tcb[x]) {
      assert SameWait(OutOfQueues(k, t).tcb[x], k2.tcb[x]);
    }
  }

  lemma TerTskSameWaits(k: KState, t: nat)
    requires System(k) && Enabled(k, TerTsk(t))
    ensures SameWaits(k.tcb, Perform(k, TerTsk(t)).k.tcb)
  {
    var k2 := TerTskEffect(k, t);
    if !k.tcb[t].tstat.Dormant? { RenewedSameWaits(k, k2, Perform(k, TerTsk(t)).k, t); }
  }

  lemma ExtTskSameWaits(k: KState)
    requires System(k) && Enabled(k, ExtTsk)
    ensures SameWaits(k.tcb, Perform(k, ExtTsk).k.tcb)
  {
    var k2 := ExtTskEffect(k);
    RenewedSameWaits(k.(disdsp := false, ipmflg := true), k2, Perform(k, ExtTsk).k, k.runtsk.value);
  }

  /** Apart from what the tasks hold, `k'` has the records of `k1`. */
  lemma HeldSameWaits(k: KState, k1: KState, k': KState)
    requires SameWaits(k.tcb, k1.tcb) && |k'.tcb| == |k1.tcb|
    requires forall x :: 0 <= x < |k1.tcb| ==> k'.tcb[x] == k1.tcb[x].(held := k'.tcb[x].held)
    ensures SameWaits(k.tcb, k'.tcb)
  {
    forall x | 0 <= x < |k.tcb| ensures SameWait(k.tcb[x], k'.tcb[x]) {
      assert SameWait(k.tcb[x], k1.tcb[x]);
    }
  }

  lemma HandedOnSameWaits(k: KState, k': KState, m: nat)
    requires m < |k.obj| && HandedOn(k, k', m)
    ensures SameWaits(k.tcb, k'.tcb)
  {
  }

  lemma AdjustedKeeps(k1: KState, k': KState, t: nat, oldpri: nat)
    requires t < |k1.tcb| && Adjusted(k1, k', t, oldpri)
    ensures k'.tcb == k1.tcb
  {
  }

  lemma UnlockSameWaits(k: KState, m: nat)
    requires System(k) && Enabled(k, UnlMtx(m))
    ensures SameWaits(k.tcb, Perform(k, UnlMtx(m)).k.tcb)
  {
    var r := k.runtsk.value;
    var k1 := UnlMtxEffect(k, m);
    if k.obj[m].loctsk == Some(r) {
      var k0 := k.(tcb := k.tcb[r := k.tcb[r].(held := Remove(k.tcb[r].held, m))]);
      AdjustedKeeps(k0, k1, r, Pri(k, r));
      UnlockedSameWaits(k, k0, k1, Perform(k, UnlMtx(m)).k, m);
    }
  }

  lemma UnlockedSameWaits(k: KState, k0: KState, k1: KState, k': KState, m: nat)
    requires m < |k1.obj| && HandedOn(k1, k', m) && k1.tcb == k0.tcb && |k0.tcb| == |k.tcb|
    requires forall x :: 0 <= x < |k.tcb| ==> k0.tcb[x] == k.tcb[x].(held := k0.tcb[x].held)
    ensures SameWaits(k.tcb, k'.tcb)
  {
    HandedOnSameWaits(k1, k', m);
    forall x | 0 <= x < |k.tcb| ensures SameWait(k.tcb[x], k'.tcb[x]) {
      assert SameWait(k1.tcb[x], k'.tcb[x]);
    }
  }

  lemma IniMtxSameWaits(k: KState, m: nat)
    requires System(k) && Enabled(k, IniMtx(m))
    ensures SameWaits(k.tcb, Perform(k, IniMtx(m)).k.tcb)
  {
    var k' := Perform(k, IniMtx(m)).k;
    var k1 := IniMtxEffect(k, m);
    AllEndSameWaits(k, k1, k.obj[m].waitQueue, E_DLT);
    if k.obj[m].loctsk.Some? {
      var t := k.obj[m].loctsk.value;
      AdjustedKeeps(k1.(tcb := k1.tcb[t := k1.tcb[t].(held := Remove(k1.tcb[t].held, m))],
                        obj := k1.obj[m := k1.obj[m].(loctsk := None)]), k'.(runtsk := k1.runtsk), t, Pri(k1, t));
    }
    HeldSameWaits(k, k1, k');
  }

  lemma IniSemSameWaits(k: KState, o: nat)
    requires System(k) && Enabled(k, IniSem(o))
    ensures SameWaits(k.tcb, Perform(k, IniSem(o)).k.tcb)
  {
    IniSemEffect(k, o);
    var k' := Perform(k, IniSem(o)).k;
    AllEndSameWaits(k, k'.(obj := k'.obj[o := k'.obj[o].(semcnt := k.obj[o].semcnt)]), k.obj[o].waitQueue, E_DLT);
  }

  lemma SignalSameWaits(k: KState, c: Call)
    requires System(k) && Enabled(k, c) && (c.SigSem? || c.IsigSem?)
    ensures SameWaits(k.tcb, Perform(k, c).k.tcb)
  {
    if c.SigSem? { SigSemEffect(k, c.obj); } else { IsigSemEffect(k, c.obj); }
    if k.obj[c.obj].waitQueue != [] { EndSameWaits(k, Perform(k, c).k, k.obj[c.obj].waitQueue[0], E_OK); }
  }

  lemma WaiSemSameWaits(k: KState, o: nat, tmout: int)
    requires System(k) && Enabled(k, WaiSem(o, tmout))
    ensures SameWaits(k.tcb, Perform(k, WaiSem(o, tmout)).k.tcb)
  {
    WaiSemEffect(k, o, tmout);
    var r := Perform(k, WaiSem(o, tmout));
    if r.ercd == Blocked { StartSameWaits(k, r.k, OnObject(o), if tmout > 0 then Some(tmout) else None); }
  }

  lemma OtherSameWaits(k: KState, c: Call)
    requires System(k) && Enabled(k, c) && IsWaitCall(c)
    ensures SameWaits(k.tcb, Perform(k, c).k.tcb)
  {
    var k' := Perform(k, c).k;
    if c.WaitOther? {
      WaitOtherEffect(k, c.obj, c.tmout);
      StartSameWaits(k, k', OnObject(c.obj), if c.tmout > 0 then Some(c.tmout) else None);
    } else if c.WakeOther? {
      WakeOtherEffect(k, c.obj, c.tsks);
      AllEndSameWaits(k, k', c.tsks, E_OK);
    } else if c.IwakeOther? {
      IwakeOtherEffect(k, c.obj, c.tsks);
      AllEndSameWaits(k, k', c.tsks, E_OK);
    } else {
      IniOtherEffect(k, c.obj);
      AllEndSameWaits(k, k', k.obj[c.obj].waitQueue, E_DLT);
    }
  }

  lemma HandlerCallSameWaits(k: KState, c: Call)
    requires System(k) && Enabled(k, c) && (c.StaCyc? || c.StpCyc? || c.StaAlm? || c.StpAlm?)
    ensures SameWaits(k.tcb, Perform(k, c).k.tcb)
  {
    if c.StaCyc? { StaCycEffect(k, c.cyc); }
    else if c.StpCyc? { StpCycEffect(k, c.cyc); }
    else if c.StaAlm? { StaAlmEffect(k, c.alm, c.time); }
    else { StpAlmEffect(k, c.alm); }
  }

  lemma FlagSameWaits(k: KState, c: Call)
    requires System(k) && Enabled(k, c) && IsPlainCall(c) && !c.Fire?
    ensures SameWaits(k.tcb, Perform(k, c).k.tcb)
  {
    if c.RotRdq? { RotRdqEffect(k, c.pri); }
    else if c.IrotRdq? { IrotRdqEffect(k, c.pri); }
    else if c.EnaDsp? { EnaDspEffect(k); }
    else if c.ChgIpm? { ChgIpmEffect(k, c.all); }
    else if c.IntExit? { IntExitEffect(k); }
    else if c.IntEnter? { IntEnterEffect(k); }
  }

  lemma FireSameWaits(k: KState, e: TMEVTB)
    requires System(k) && Enabled(k, Fire(e))
    ensures SameWaits(k.tcb, Perform(k, Fire(e)).k.tcb)
  {
    if e.TaskTimeout? {
      KernelEffects.TimeoutEnds(k, e.tsk);
      EndSameWaits(k, Perform(k, Fire(e)).k, e.tsk, if k.tcb[e.tsk].tstat.cause.Delay? then E_OK else E_TMOUT);
    } else {
      HandlerFires(k, e);
    }
  }

  lemma EndingSameWaits(k: KState, c: Call)
    requires System(k) && Enabled(k, c) && (c.ActTsk? || c.IactTsk? || c.ExtTsk? || c.TerTsk? || c.ChgPri?)
    ensures SameWaits(k.tcb, Perform(k, c).k.tcb)
  {
    if c.TerTsk? { TerTskSameWaits(k, c.tsk); }
    else if c.ChgPri? { ChgPriSameWaits(k, c.tsk, c.pri); }
    else if c.ExtTsk? { ExtTskSameWaits(k); }
    else { ActivationSameWaits(k, c); }
  }

  lemma TaskCallSameWaits(k: KState, c: Call)
    requires System(k) && Enabled(k, c) && IsTaskCall(c)
    ensures SameWaits(k.tcb, Perform(k, c).k.tcb)
  {
    if c.SlpTsk? || c.DlyTsk? { WaitingSameWaits(k, c); }
    else if c.SusTsk? || c.RsmTsk? { SuspensionSameWaits(k, c); }
    else if c.WupTsk? || c.IwupTsk? || c.RelWai? || c.IrelWai? { WakeupSameWaits(k, c); }
    else { EndingSameWaits(k, c); }
  }

  lemma MutexSameWaits(k: KState, c: Call)
    requires System(k) && Enabled(k, c) && (c.LocMtx? || c.UnlMtx? || c.IniMtx?)
    ensures SameWaits(k.tcb, Perform(k, c).k.tcb)
  {
    match c
    case LocMtx(m, tmout) => LockSameWaits(k, m, tmout);
    case UnlMtx(m) => UnlockSameWaits(k, m);
    case IniMtx(m) => IniMtxSameWaits(k, m);
  }

  lemma ObjectCallSameWaits(k: KState, c: Call)
    requires System(k) && Enabled(k, c) && IsObjectCall(c)
    ensures SameWaits(k.tcb, Perform(k, c).k.tcb)
  {
    if c.LocMtx? || c.UnlMtx? || c.IniMtx? { MutexSameWaits(k, c); }
    else if c.SigSem? || c.IsigSem? { SignalSameWaits(k, c); }
    else if c.WaiSem? { WaiSemSameWaits(k, c.obj, c.tmout); }
    else if c.IniSem? { IniSemSameWaits(k, c.obj); }
    else { HandlerCallSameWaits(k, c); }
  }

  /** No step turns one wait into another: a task that waits before and after it waits for the same. */
  lemma StepSameWaits(k: KState, c: Call)
    requires System(k) && Enabled(k, c)
    ensures SameWaits(k.tcb, Perform(k, c).k.tcb)
  {
    if IsTaskCall(c) { TaskCallSameWaits(k, c); }
    else if IsObjectCall(c) { ObjectCallSameWaits(k, c); }
    else if IsWaitCall(c) { OtherSameWaits(k, c); }
    else if c.Fire? { FireSameWaits(k, c.event); }
    else { FlagSameWaits(k, c); }
  }

  // ---- the end of a timed wait

  /** The first firing of the timeout of task `t` ends its wait, with E_TMOUT, and nothing else. */
  ghost predicate TimesOut(k: KState, calls: seq<Call>, t: nat)
    requires CanRun(k, calls)
    decreases |calls|
  {
    && calls != []
    && if calls[0] == Fire(TaskTimeout(t)) then OnlyEnds(k, Perform(k, calls[0]).k, t, E_TMOUT)
       else TimesOut(Perform(k, calls[0]).k, calls[1..], t)
  }

  lemma {:induction false} TimesOutOrKept(k: KState, calls: seq<Call>, t: nat)
    requires System(k) && CanRun(k, calls) && T.LeftAlone(k, calls, TaskTimeout(t))
    requires t < |k.tcb| && IsTimed(k.tcb[t]) && !k.tcb[t].tstat.cause.Delay? && TaskTimeout(t) in k.tm.pending
    ensures TimesOut(k, calls, t) || T.Kept(k.tm, After(k, calls).tm, TaskTimeout(t))
    decreases |calls|
  {
    if calls != [] {
      var c, k1 := calls[0], Perform(k, calls[0]).k;
      StepOk(k, c);
      if c == Fire(TaskTimeout(t)) {
        KernelEffects.TimeoutEnds(k, t);
      } else {
        StepSameWaits(k, c);
        T.StepKeeps(k, c, TaskTimeout(t));
        assert SameWait(k.tcb[t], k1.tcb[t]);
        TimesOutOrKept(k1, calls[1..], t);
      }
    }
  }

  /** The calls that wait with a timeout, other than the delay. */
  predicate IsTimedCall(c: Call) { (c.SlpTsk? || c.LocMtx? || c.WaiSem? || c.WaitOther?) && c.tmout > 0 }

  function CauseOf(c: Call): Cause
    requires IsTimedCall(c)
  {
    if c.SlpTsk? then Sleep else OnObject(c.obj)
  }

  lemma TimedObjectWait(k: KState, c: Call)
    requires System(k) && Enabled(k, c) && (c.LocMtx? || c.WaiSem?) && c.tmout > 0 && Perform(k, c).ercd == Blocked
    ensures StartsWaiting(k, Perform(k, c).k, CauseOf(c), Some(c.tmout))
  {
    if c.LocMtx? { LocMtxEffect(k, c.obj, c.tmout); } else { WaiSemEffect(k, c.obj, c.tmout); }
  }

  lemma TimedWaitStarts(k: KState, c: Call)
    requires System(k) && Enabled(k, c) && IsTimedCall(c) && Perform(k, c).ercd == Blocked
    ensures StartsWaiting(k, Perform(k, c).k, CauseOf(c), Some(c.tmout))
  {
    if c.SlpTsk? { SlpTskEffect(k, c.tmout); }
    else if c.WaitOther? { WaitOtherEffect(k, c.obj, c.tmout); }
    else { TimedObjectWait(k, c); }
  }

  lemma TimedWaitBegins(k: KState, c: Call)
    requires System(k) && Enabled(k, c) && IsTimedCall(c) && Perform(k, c).ercd == Blocked
    ensures var k1, r := Perform(k, c).k, k.runtsk.value;
            && r < |k1.tcb| && IsTimed(k1.tcb[r]) && !k1.tcb[r].tstat.cause.Delay?
            && k1.tm == Enqueue(k.tm, TaskTimeout(r), c.tmout)
  {
    TimedWaitStarts(k, c);
    StartedTimed(k, Perform(k, c).k, CauseOf(c), c.tmout);
  }

  lemma StartedTimed(k: KState, k': KState, cause: Cause, time: nat)
    requires k.runtsk.Some? && StartsWaiting(k, k', cause, Some(time)) && !cause.Delay?
    ensures var r := k.runtsk.value;
            && r < |k'.tcb| && IsTimed(k'.tcb[r]) && !k'.tcb[r].tstat.cause.Delay?
            && k'.tm == Enqueue(k.tm, TaskTimeout(r), time)
  {
  }

  /** A timed wait begun at real time `now` and ended by nothing else is ended by its timeout, with
      E_TMOUT, after `tmout` ms and less than one millisecond and two tick lengths later. */
  lemma TimedWaitEnds(cfg: Config, tick: Tick, act: seq<nat>, sta: seq<nat>, before: seq<Call>, k: KState,
                      c: Call, calls: seq<Call>, now: nat) returns (i: nat)
    requires IsRun(cfg, tick, act, sta, before, k) && Enabled(k, c) && IsTimedCall(c) && Perform(k, c).ercd == Blocked
    requires T.Ticks(before) * F.Nume(tick) <= now < T.Ticks(before) * F.Nume(tick) + F.Nume(tick)
    requires var k1 := Perform(k, c).k;
             && CanRun(k1, calls) && T.LeftAlone(k1, calls, TaskTimeout(k.runtsk.value)) && T.Ticks(calls) > 0
             && !After(k1, calls).tm.ticking && Base(k.tm) + c.tmout <= After(k1, calls).tm.current
    ensures TimesOut(Perform(k, c).k, calls, k.runtsk.value)
    ensures var log, D := T.FiredBy(Perform(k, c).k, calls, T.Ticks(before)), tick.deno;
            && i < |log| && log[i].event == TaskTimeout(k.runtsk.value)
            && now + c.tmout * D < log[i].tickNo * F.Nume(tick) < now + (c.tmout + 1) * D + 2 * F.Nume(tick)
  {
    ReachableOk(k) by { assert Reachable(k); }
    StepOk(k, c);
    TimedWaitBegins(k, c);
    assert T.TicksIn(c) == 0;
    i := T.RegisteredFires(cfg, tick, act, sta, before, k, c, TaskTimeout(k.runtsk.value), c.tmout, calls, now);
    TimesOutOrKept(Perform(k, c).k, calls, k.runtsk.value);
  }
}
