/** What each service call does, said of the fields of the state before and after it: the error
    code and when it is given, the records, queues, events and flags that change, and that
    nothing else does. */
module CallEffects {
  import opened Prelude
  import opened Timer
  import opened KernelState
  import opened KernelCalls
  import opened KernelInv
  import opened KernelSteps
  import opened KernelPriority
  import opened KernelSystem
  import opened KernelRuns
  import opened KernelTheorems
  import opened KernelEffects
  import opened ReleaseOrder

  // ---- who runs afterwards

  /** With dispatching enabled the head of the first non-empty ready queue, if there is one;
      otherwise the task that ran before. */
  ghost predicate Runs(k: KState, k': KState) {
    if k'.ipmflg && !k'.disdsp then
      match k'.runtsk
      case None => forall p :: 0 <= p < |k'.ready| ==> k'.ready[p] == []
      case Some(t) => exists p: nat :: HeadsAt(k'.ready, p, t)
    else k'.runtsk == k.runtsk
  }

  /** After a call of a task. */
  ghost predicate ByTask(k: KState, k': KState) { k'.reqflg == k.reqflg && Runs(k, k') }

  /** After a call of a handler: a dispatch is asked for if the highest-precedence task is
      another one than before. */
  ghost predicate ByHandler(k: KState, k': KState) {
    && k'.runtsk == k.runtsk
    && (k'.reqflg <==> k.reqflg || (k.ipmflg && !k.disdsp && Top(k'.ready) != Top(k.ready)))
  }

  lemma TopRuns(k: KState, k': KState)
    requires k'.reqflg == k.reqflg
    requires if k'.ipmflg && !k'.disdsp then k'.runtsk == Top(k'.ready) else k'.runtsk == k.runtsk
    ensures ByTask(k, k')
  {
    var p := TopHeads(k'.ready);
  }

  lemma SettleRuns(k: KState, k1: KState)
    requires k1.reqflg == k.reqflg && k1.runtsk == k.runtsk
    ensures ByTask(k, Settle(k1))
  {
    TopRuns(k, Settle(k1));
  }

  /** A call that changes no ready queue leaves the running task running. */
  lemma StillRuns(k: KState, k': KState)
    requires System(k) && InTask(k)
    requires k'.reqflg == k.reqflg && k'.runtsk == k.runtsk && k'.ready == k.ready
    requires k'.ipmflg == k.ipmflg && k'.disdsp == k.disdsp
    ensures ByTask(k, k')
  {
    TopRuns(k, k');
  }

  // ---- activation

  /** A dormant task can run, last in the ready queue of its initial priority; of any other
      task one activation is remembered. */
  ghost predicate Activates(k: KState, o: Outcome, t: nat)
    requires t < |k.tcb| && t < |k.cfg.ipriority|
  {
    var b, p := k.tcb[t], k.cfg.ipriority[t];
    if b.tstat.Dormant? then
      && o.ercd == E_OK && p < |k.ready|
      && o.k == k.(tcb := k.tcb[t := b.(tstat := Runnable)], ready := k.ready[p := k.ready[p] + [t]],
                   runtsk := o.k.runtsk, reqflg := o.k.reqflg)
    else if !b.actque then o == Outcome(k.(tcb := k.tcb[t := b.(actque := true)]), E_OK)
    else o == Outcome(k, E_QOVR)
  }

  lemma ActTskEffect(k: KState, t: nat)
    requires System(k) && Enabled(k, ActTsk(t))
    ensures Activates(k, Perform(k, ActTsk(t)), t) && ByTask(k, Perform(k, ActTsk(t)).k)
  {
    assert Perform(k, ActTsk(t)) == KernelCalls.ActTsk(k, t);
    ActivatedIs(k, t);
    if k.tcb[t].tstat.Dormant? {
      SettleRuns(k, MakeActive(k, t));
    } else {
      StillRuns(k, KernelCalls.ActTsk(k, t).k);
    }
  }

  lemma IactTskEffect(k: KState, t: nat)
    requires System(k) && Enabled(k, IactTsk(t))
    ensures Activates(k, Perform(k, IactTsk(t)), t) && ByHandler(k, Perform(k, IactTsk(t)).k)
  {
    assert Perform(k, IactTsk(t)) == KernelCalls.IactTsk(k, t);
    ActivatedIs(k, t);
  }

  lemma ActivatedIs(k: KState, t: nat)
    requires Links(k, {}, None) && t < |k.tcb|
    ensures k.tcb[t].tstat.Dormant? ==>
              var p := k.cfg.ipriority[t];
              && p < |k.ready|
              && MakeActive(k, t) == k.(tcb := k.tcb[t := k.tcb[t].(tstat := Runnable)], ready := k.ready[p := k.ready[p] + [t]])
  {
    assert TaskLinked(k, t, {}, None) && Attached(k, t);
    var k1 := SetState(k, t, Runnable);
    assert k.tcb[t].tstat.Dormant? ==> Pri(k1, t) == k.cfg.ipriority[t];
  }

  // ---- waking, releasing

  /** A sleep ends with E_OK; ahead of a sleep one wakeup is remembered. */
  ghost predicate Wakes(k: KState, o: Outcome, t: nat)
    requires t < |k.tcb|
  {
    var b := k.tcb[t];
    if b.tstat.Dormant? then o == Outcome(k, E_OBJ)
    else if b.tstat.Waiting? && b.tstat.cause == Sleep then o.ercd == E_OK && OnlyEnds(k, o.k, t, E_OK)
    else if !b.wupque then o == Outcome(k.(tcb := k.tcb[t := b.(wupque := true)]), E_OK)
    else o == Outcome(k, E_QOVR)
  }

  lemma WupTskEffect(k: KState, t: nat)
    requires System(k) && Enabled(k, WupTsk(t))
    ensures Wakes(k, Perform(k, WupTsk(t)), t) && ByTask(k, Perform(k, WupTsk(t)).k)
  {
    assert Perform(k, WupTsk(t)) == KernelCalls.WupTsk(k, t);
    if IsSleeping(k.tcb[t].tstat) {
      WupTskEnds(k, t);
      CompletesQuietly(k, t, E_OK);
      SettleRuns(k, WaitComplete(k, t, E_OK));
    } else {
      StillRuns(k, KernelCalls.WupTsk(k, t).k);
    }
  }

  lemma IwupTskEffect(k: KState, t: nat)
    requires System(k) && Enabled(k, IwupTsk(t))
    ensures Wakes(k, Perform(k, IwupTsk(t)), t) && ByHandler(k, Perform(k, IwupTsk(t)).k)
  {
    assert Perform(k, IwupTsk(t)) == KernelCalls.IwupTsk(k, t);
    if IsSleeping(k.tcb[t].tstat) {
      WupTskEnds(k, t);
      CompletesQuietly(k, t, E_OK);
    }
  }

  lemma CompletesQuietly(k: KState, t: nat, ercd: ER)
    requires t < |k.tcb|
    ensures WaitComplete(k, t, ercd).runtsk == k.runtsk && WaitComplete(k, t, ercd).reqflg == k.reqflg
    ensures WaitRelease(k, t, ercd).runtsk == k.runtsk && WaitRelease(k, t, ercd).reqflg == k.reqflg
    ensures Dspflg(WaitComplete(k, t, ercd)) == Dspflg(WaitRelease(k, t, ercd)) == Dspflg(k)
  {
    WaitCompleteEffect(k, t, ercd);
    LeaveQueueEffect(k, t);
    WaitCompleteEffect(LeaveQueue(k, t), t, ercd);
  }

  /** Any wait ends with E_RLWAI. */
  ghost predicate Forces(k: KState, o: Outcome, t: nat)
    requires t < |k.tcb|
  {
    if k.tcb[t].tstat.Waiting? then o.ercd == E_OK && OnlyEnds(k, o.k, t, E_RLWAI) else o == Outcome(k, E_OBJ)
  }

  lemma RelWaiEffect(k: KState, t: nat)
    requires System(k) && Enabled(k, RelWai(t))
    ensures Forces(k, Perform(k, RelWai(t)), t) && ByTask(k, Perform(k, RelWai(t)).k)
  {
    assert Perform(k, RelWai(t)) == KernelCalls.RelWai(k, t);
    if k.tcb[t].tstat.Waiting? {
      RelWaiEnds(k, t);
      CompletesQuietly(k, t, E_RLWAI);
      SettleRuns(k, WaitRelease(k, t, E_RLWAI));
    } else {
      StillRuns(k, k);
    }
  }

  lemma IrelWaiEffect(k: KState, t: nat)
    requires System(k) && Enabled(k, IrelWai(t))
    ensures Forces(k, Perform(k, IrelWai(t)), t) && ByHandler(k, Perform(k, IrelWai(t)).k)
  {
    assert Perform(k, IrelWai(t)) == KernelCalls.IrelWai(k, t);
    if k.tcb[t].tstat.Waiting? {
      RelWaiEnds(k, t);
      CompletesQuietly(k, t, E_RLWAI);
    }
  }

  // ---- suspending and resuming

  lemma SusTskEffect(k: KState, t: nat)
    requires System(k) && Enabled(k, SusTsk(t))
    ensures var o, b, p := Perform(k, SusTsk(t)), k.tcb[t], Pri(k, t);
            && ByTask(k, o.k)
            && if k.runtsk == Some(t) && !(k.ipmflg && !k.disdsp) then o == Outcome(k, E_CTX)
               else match b.tstat
                    case Dormant => o == Outcome(k, E_OBJ)
                    case Runnable =>
                      && o.ercd == E_OK && p < |k.ready|
                      && o.k == k.(tcb := k.tcb[t := b.(tstat := Suspended)], ready := k.ready[p := Remove(k.ready[p], t)],
                                   runtsk := o.k.runtsk)
                    case Suspended => o == Outcome(k, E_QOVR)
                    case Waiting(cause, suspended) =>
                      o == if suspended then Outcome(k, E_QOVR)
                           else Outcome(k.(tcb := k.tcb[t := b.(tstat := Waiting(cause, true))]), E_OK)
  {
    assert Perform(k, SusTsk(t)) == KernelCalls.SusTsk(k, t);
    AttachedFacts(k, t, None);
    if k.tcb[t].tstat.Runnable? && (k.runtsk != Some(t) || Dspflg(k)) {
      var k1 := SetState(k, t, Suspended);
      assert Pri(k1, t) == Pri(k, t) && k1.ready == k.ready;
      SettleRuns(k, MakeNonRunnable(k1, t));
    } else {
      StillRuns(k, KernelCalls.SusTsk(k, t).k);
    }
  }

  lemma RsmTskEffect(k: KState, t: nat)
    requires System(k) && Enabled(k, RsmTsk(t))
    ensures var o, b, p := Perform(k, RsmTsk(t)), k.tcb[t], Pri(k, t);
            && ByTask(k, o.k)
            && match b.tstat
               case Suspended =>
                 && o.ercd == E_OK && p < |k.ready|
                 && o.k == k.(tcb := k.tcb[t := b.(tstat := Runnable)], ready := k.ready[p := k.ready[p] + [t]],
                              runtsk := o.k.runtsk)
               case Waiting(cause, suspended) =>
                 o == if suspended then Outcome(k.(tcb := k.tcb[t := b.(tstat := Waiting(cause, false))]), E_OK)
                      else Outcome(k, E_OBJ)
               case _ => o == Outcome(k, E_OBJ)
  {
    assert Perform(k, RsmTsk(t)) == KernelCalls.RsmTsk(k, t);
    AttachedFacts(k, t, None);
    if k.tcb[t].tstat.Suspended? {
      var k1 := SetState(k, t, Runnable);
      assert Pri(k1, t) == Pri(k, t) && k1.ready == k.ready;
      SettleRuns(k, MakeActive(k, t));
    } else {
      StillRuns(k, KernelCalls.RsmTsk(k, t).k);
    }
  }

  // ---- beginning to wait

  /** The running task waits for `cause`, with a timeout when one is given: it leaves the head of
      its ready queue, takes its place in the queue of the object, by priority or last, and its
      event is due `timeout` after the origin of relative times. */
  ghost predicate StartsWaiting(k: KState, k': KState, cause: Cause, timeout: Option<nat>)
    requires k.runtsk.Some?
  {
    var r := k.runtsk.value;
    var p := Pri(k, r);
    && r < |k.tcb| && p < |k.ready| && k.ready[p] != [] && k.ready[p][0] == r
    && (cause.OnObject? ==> cause.obj < |k.obj|)
    && k' == k.(tcb := k.tcb[r := k.tcb[r].(tstat := Waiting(cause, false), winfo := Tmevtb(timeout.Some?))],
                ready := k.ready[p := k.ready[p][1..]],
                obj := JoinedBy(k, r, cause),
                tm := match timeout
                      case None => k.tm
                      case Some(time) => k.tm.(pending := k.tm.pending[TaskTimeout(r) := Base(k.tm) + time]),
                runtsk := k'.runtsk)
    && ByTask(k, k') && k'.runtsk != Some(r)
  }

  function JoinedBy(k: KState, r: nat, cause: Cause): seq<WOBJ>
    requires cause.OnObject? ==> cause.obj < |k.obj|
  {
    match cause
    case OnObject(o) =>
      var q := k.obj[o].waitQueue;
      k.obj[o := k.obj[o].(waitQueue := if IsTpri(k.cfg, o) then InsertTpri(Pris(k), q, r) else q + [r])]
    case _ => k.obj
  }

  /** A call that waits and does not fail at once. */
  lemma WaitBegins(k: KState, cause: Cause, timeout: Option<nat>)
    requires System(k) && InTask(k) && Dspflg(k) && (cause.OnObject? ==> cause.obj < |k.obj|)
    requires System(Settle(EnterWait(k, k.runtsk.value, cause, timeout)))
    ensures StartsWaiting(k, Settle(EnterWait(k, k.runtsk.value, cause, timeout)), cause, timeout)
  {
    var r := k.runtsk.value;
    var k1 := EnterWait(k, r, cause, timeout);
    RunnerHeads(k);
    EnterWaitIs(k, r, cause, timeout);
    SettleRuns(k, k1);
    assert k1.tcb[r].tstat.Waiting?;
  }

  lemma RunnerHeads(k: KState)
    requires System(k) && InTask(k) && Dspflg(k)
    ensures var r := k.runtsk.value;
            r < |k.tcb| && Pri(k, r) < |k.ready| && k.ready[Pri(k, r)] != [] && k.ready[Pri(k, r)][0] == r
  {
    var p := TopHeads(k.ready);
    assert ReadyLinked(k, p, {});
    assert k.ready[p][0] in k.ready[p];
    assert InReady(k, p, k.runtsk.value, {});
  }

  lemma EnterWaitIs(k: KState, r: nat, cause: Cause, timeout: Option<nat>)
    requires r < |k.tcb| && Pri(k, r) < |k.ready| && k.ready[Pri(k, r)] != [] && k.ready[Pri(k, r)][0] == r
    requires cause.OnObject? ==> cause.obj < |k.obj|
    ensures EnterWait(k, r, cause, timeout)
         == k.(tcb := k.tcb[r := k.tcb[r].(tstat := Waiting(cause, false), winfo := Tmevtb(timeout.Some?))],
               ready := k.ready[Pri(k, r) := k.ready[Pri(k, r)][1..]],
               obj := JoinedBy(k, r, cause),
               tm := match timeout
                     case None => k.tm
                     case Some(time) => k.tm.(pending := k.tm.pending[TaskTimeout(r) := Base(k.tm) + time]))
  {
    var k0 := MakeNonRunnable(k, r);
    assert k0 == k.(ready := k.ready[Pri(k, r) := k.ready[Pri(k, r)][1..]]);
    var k1 := Armed(k0, r, cause, timeout);
    assert k1.tcb == k.tcb[r := k1.tcb[r]] && k1.tcb[r].held == k.tcb[r].held && k1.obj == k.obj;
    forall t | 0 <= t < |k.tcb| ensures Pris(k1)[t] == Pris(k)[t] {
      assert Pri(k1, t) == Pri(k, t);
    }
    assert Pris(k1) == Pris(k);
  }

  /** `slp_tsk` and `tslp_tsk`. */
  lemma SlpTskEffect(k: KState, tmout: int)
    requires System(k) && Enabled(k, SlpTsk(tmout))
    ensures var o, r := Perform(k, SlpTsk(tmout)), k.runtsk.value;
            && ByTask(k, o.k) && r < |k.tcb|
            && if k.tcb[r].wupque then o == Outcome(k.(tcb := k.tcb[r := k.tcb[r].(wupque := false)]), E_OK)
               else if tmout == TMO_POL then o == Outcome(k, E_TMOUT)
               else o.ercd == Blocked && StartsWaiting(k, o.k, Sleep, if tmout > 0 then Some(tmout) else None)
  {
    assert Perform(k, SlpTsk(tmout)) == KernelCalls.SlpTsk(k, tmout);
    var r := k.runtsk.value;
    if !k.tcb[r].wupque && tmout != TMO_POL {
      StepOk(k, SlpTsk(tmout));
      WaitBegins(k, Sleep, TimeoutOf(tmout));
    } else {
      StillRuns(k, KernelCalls.SlpTsk(k, tmout).k);
    }
  }

  /** `dly_tsk`: always with a timeout, also of 0 ms. */
  lemma DlyTskEffect(k: KState, time: nat)
    requires System(k) && Enabled(k, DlyTsk(time))
    ensures var o := Perform(k, DlyTsk(time)); o.ercd == Blocked && StartsWaiting(k, o.k, Delay, Some(time))
  {
    assert Perform(k, DlyTsk(time)) == KernelCalls.DlyTsk(k, time);
    StepOk(k, DlyTsk(time));
    WaitBegins(k, Delay, Some(time));
  }

  /** `wai_sem`, `pol_sem` and `twai_sem`. */
  lemma WaiSemEffect(k: KState, o: nat, tmout: int)
    requires System(k) && Enabled(k, WaiSem(o, tmout))
    ensures var r := Perform(k, WaiSem(o, tmout));
            && ByTask(k, r.k) && o < |k.obj|
            && if k.obj[o].semcnt >= 1 then
                 r == Outcome(k.(obj := k.obj[o := k.obj[o].(semcnt := k.obj[o].semcnt - 1)]), E_OK)
               else if tmout == TMO_POL then r == Outcome(k, E_TMOUT)
               else r.ercd == Blocked && StartsWaiting(k, r.k, OnObject(o), if tmout > 0 then Some(tmout) else None)
  {
    assert Perform(k, WaiSem(o, tmout)) == KernelCalls.WaiSem(k, o, tmout);
    if k.obj[o].semcnt < 1 && tmout != TMO_POL {
      StepOk(k, WaiSem(o, tmout));
      WaitBegins(k, OnObject(o), TimeoutOf(tmout));
    } else {
      StillRuns(k, KernelCalls.WaiSem(k, o, tmout).k);
    }
  }

  /** The wait for a flag, a data queue or a pool. */
  lemma WaitOtherEffect(k: KState, o: nat, tmout: int)
    requires System(k) && Enabled(k, WaitOther(o, tmout))
    ensures var r := Perform(k, WaitOther(o, tmout));
            r.ercd == Blocked && StartsWaiting(k, r.k, OnObject(o), if tmout > 0 then Some(tmout) else None)
  {
    assert Perform(k, WaitOther(o, tmout)) == KernelCalls.WaitOther(k, o, tmout);
    StepOk(k, WaitOther(o, tmout));
    WaitBegins(k, OnObject(o), TimeoutOf(tmout));
  }

  // ---- precedence

  /** The first task of one ready queue goes to its end; every other place is as it was. */
  ghost predicate Rotates(k: KState, k': KState, pri: nat) {
    && pri < |k.ready| == |k'.ready| && |k'.ready[pri]| == |k.ready[pri]|
    && (k.ready[pri] != [] ==> k'.ready[pri][|k.ready[pri]| - 1] == k.ready[pri][0])
    && (forall i :: 0 <= i < |k.ready[pri]| - 1 ==> k'.ready[pri][i] == k.ready[pri][i + 1])
    && (forall p :: 0 <= p < |k.ready| && p != pri ==> k'.ready[p] == k.ready[p])
    && k' == k.(ready := k'.ready, runtsk := k'.runtsk, reqflg := k'.reqflg)
  }

  lemma RotRdqEffect(k: KState, pri: nat)
    requires System(k) && Enabled(k, RotRdq(pri))
    ensures var o := Perform(k, RotRdq(pri));
            && o.ercd == E_OK && Rotates(k, o.k, pri) && ByTask(k, o.k)
            && (k.ipmflg && !k.disdsp && HeadsAt(k.ready, pri, k.runtsk.value) && |k.ready[pri]| > 1 ==>
                  o.k.runtsk == Some(k.ready[pri][1]))
  {
    assert Perform(k, RotRdq(pri)) == KernelCalls.RotRdq(k, pri);
    var k1 := Rotate(k, pri);
    SettleRuns(k, k1);
    if HeadsAt(k.ready, pri, k.runtsk.value) && |k.ready[pri]| > 1 {
      HeadsTop(k1.ready, pri, k.ready[pri][1]);
    }
  }

  lemma IrotRdqEffect(k: KState, pri: nat)
    requires System(k) && Enabled(k, IrotRdq(pri))
    ensures var o := Perform(k, IrotRdq(pri)); o.ercd == E_OK && Rotates(k, o.k, pri) && ByHandler(k, o.k)
  {
    assert Perform(k, IrotRdq(pri)) == KernelCalls.IrotRdq(k, pri);
  }

  // ---- dispatching disabled and enabled

  lemma DisDspEffect(k: KState)
    requires System(k) && Enabled(k, DisDsp)
    ensures Perform(k, DisDsp) == Outcome(k.(disdsp := true), E_OK)
  {
  }

  lemma EnaDspEffect(k: KState)
    requires System(k) && Enabled(k, EnaDsp)
    ensures var o := Perform(k, EnaDsp);
            o.ercd == E_OK && o.k == k.(disdsp := false, runtsk := o.k.runtsk) && ByTask(k, o.k)
  {
    SettleRuns(k, WithDispatch(k, false, k.ipmflg));
  }

  /** `chg_ipm`; `all` says that every interrupt is enabled. */
  lemma ChgIpmEffect(k: KState, all: bool)
    requires System(k) && Enabled(k, ChgIpm(all))
    ensures var o := Perform(k, ChgIpm(all));
            o.ercd == E_OK && o.k == k.(ipmflg := all, runtsk := o.k.runtsk) && ByTask(k, o.k)
  {
    SettleRuns(k, WithDispatch(k, k.disdsp, all));
  }

  lemma IntEnterEffect(k: KState)
    requires System(k) && Enabled(k, IntEnter)
    ensures Perform(k, IntEnter) == Outcome(k.(inInt := true), E_OK)
  {
  }

  /** The exit of the outermost handler: a dispatch takes place if it has been asked for. */
  lemma IntExitEffect(k: KState)
    requires System(k) && Enabled(k, IntExit)
    ensures var k' := Perform(k, IntExit).k;
            k' == k.(inInt := false, reqflg := false, runtsk := k'.runtsk) && Runs(k, k')
  {
    var p := TopHeads(k.ready);
  }

  // ---- semaphores

  /** To the first task waiting, else to the count while it is below its maximum. */
  ghost predicate Signals(k: KState, r: Outcome, o: nat)
    requires o < |k.obj| && IsSemaphore(k.cfg, o)
  {
    var b := k.obj[o];
    if b.waitQueue != [] then
      r.ercd == E_OK && OnlyEnds(k, r.k, b.waitQueue[0], E_OK) && r.k.obj == k.obj[o := b.(waitQueue := b.waitQueue[1..])]
    else if b.semcnt < k.cfg.objects[o].maxsem then
      r == Outcome(k.(obj := k.obj[o := b.(semcnt := b.semcnt + 1)]), E_OK)
    else r == Outcome(k, E_QOVR)
  }

  lemma SigSemEffect(k: KState, o: nat)
    requires System(k) && Enabled(k, SigSem(o))
    ensures Signals(k, Perform(k, SigSem(o)), o) && ByTask(k, Perform(k, SigSem(o)).k)
    ensures Perform(k, SigSem(o)).ercd == E_OK <==> k.obj[o].waitQueue != [] || k.obj[o].semcnt < k.cfg.objects[o].maxsem
  {
    assert Perform(k, SigSem(o)) == KernelCalls.SigSem(k, o);
    if k.obj[o].waitQueue != [] {
      SignalEnds(k, o);
      FirstQuietly(k, o);
      SettleRuns(k, WakeFirst(k, o));
    } else {
      StillRuns(k, KernelCalls.SigSem(k, o).k);
    }
  }

  lemma IsigSemEffect(k: KState, o: nat)
    requires System(k) && Enabled(k, IsigSem(o))
    ensures Signals(k, Perform(k, IsigSem(o)), o) && ByHandler(k, Perform(k, IsigSem(o)).k)
    ensures Perform(k, IsigSem(o)).ercd == E_OK <==> k.obj[o].waitQueue != [] || k.obj[o].semcnt < k.cfg.objects[o].maxsem
  {
    assert Perform(k, IsigSem(o)) == KernelCalls.IsigSem(k, o);
    if k.obj[o].waitQueue != [] {
      SignalEnds(k, o);
      FirstQuietly(k, o);
    }
  }

  lemma FirstQuietly(k: KState, o: nat)
    requires Links(k, {}, None) && o < |k.obj| && k.obj[o].waitQueue != []
    ensures WakeFirst(k, o).runtsk == k.runtsk && WakeFirst(k, o).reqflg == k.reqflg && Dspflg(WakeFirst(k, o)) == Dspflg(k)
    ensures KernelCalls.IsigSem(k, o).k.obj == KernelCalls.SigSem(k, o).k.obj
  {
    WakeFirstWakes(k, o);
  }

  // ---- cyclic handlers and alarms

  /** A handler, started or not, is started anew: its event is due its phase after the origin of
      relative times. */
  lemma StaCycEffect(k: KState, c: nat)
    requires System(k) && Enabled(k, StaCyc(c))
    ensures c < |k.cycsta|
    ensures Perform(k, StaCyc(c))
         == Outcome(k.(cycsta := k.cycsta[c := true],
                       tm := k.tm.(pending := k.tm.pending[CyclicEvent(c) := Base(k.tm) + k.cfg.cyclics[c].cycphs])), E_OK)
  {
    assert Perform(k, StaCyc(c)) == KernelCalls.StaCyc(k, c);
    EnqueuedAnew(k.tm, CyclicEvent(c), k.cfg.cyclics[c].cycphs);
  }

  lemma EnqueuedAnew(tm: TimerState, e: TMEVTB, time: nat)
    ensures Enqueue(Dequeue(tm, e), e, time) == Enqueue(tm, e, time) == tm.(pending := tm.pending[e := Base(tm) + time])
  {
    assert (tm.pending - {e})[e := Base(tm) + time] == tm.pending[e := Base(tm) + time];
  }

  lemma StpCycEffect(k: KState, c: nat)
    requires System(k) && Enabled(k, StpCyc(c))
    ensures c < |k.cycsta|
    ensures Perform(k, StpCyc(c))
         == Outcome(k.(cycsta := k.cycsta[c := false], tm := k.tm.(pending := k.tm.pending - {CyclicEvent(c)})), E_OK)
  {
    assert Perform(k, StpCyc(c)) == KernelCalls.StpCyc(k, c);
    if !k.cycsta[c] {
      assert k.cycsta[c := false] == k.cycsta;
      assert k.tm.pending - {CyclicEvent(c)} == k.tm.pending;
    }
  }

  lemma StaAlmEffect(k: KState, a: nat, time: nat)
    requires System(k) && Enabled(k, StaAlm(a, time))
    ensures a < |k.almsta|
    ensures Perform(k, StaAlm(a, time))
         == Outcome(k.(almsta := k.almsta[a := true],
                       tm := k.tm.(pending := k.tm.pending[AlarmEvent(a) := Base(k.tm) + time])), E_OK)
  {
    assert Perform(k, StaAlm(a, time)) == KernelCalls.StaAlm(k, a, time);
    EnqueuedAnew(k.tm, AlarmEvent(a), time);
  }

  lemma StpAlmEffect(k: KState, a: nat)
    requires System(k) && Enabled(k, StpAlm(a))
    ensures a < |k.almsta|
    ensures Perform(k, StpAlm(a))
         == Outcome(k.(almsta := k.almsta[a := false], tm := k.tm.(pending := k.tm.pending - {AlarmEvent(a)})), E_OK)
  {
    assert Perform(k, StpAlm(a)) == KernelCalls.StpAlm(k, a);
    if !k.almsta[a] {
      assert k.almsta[a := false] == k.almsta;
      assert k.tm.pending - {AlarmEvent(a)} == k.tm.pending;
    }
  }

  /** The callback of a cyclic handler re-arms it one period after the time that was due; that of
      an alarm stops it. */
  lemma HandlerFires(k: KState, e: TMEVTB)
    requires System(k) && Enabled(k, Fire(e)) && !e.TaskTimeout?
    ensures match e
            case CyclicEvent(c) =>
              && c < |k.cfg.cyclics|
              && Perform(k, Fire(e)).k == k.(tm := k.tm.(pending := k.tm.pending[e := k.tm.pending[e] + k.cfg.cyclics[c].cyctim]))
            case AlarmEvent(a) =>
              && a < |k.almsta|
              && Perform(k, Fire(e)).k == k.(almsta := k.almsta[a := false], tm := k.tm.(pending := k.tm.pending - {e}))
            case _ => true
  {
    assert KnownEvent(k, e);
    assert Perform(k, Fire(e)).k == FireEvent(k, e);
    if e.CyclicEvent? {
      var due := k.tm.pending[e] + k.cfg.cyclics[e.cyc].cyctim;
      assert (k.tm.pending - {e})[e := due] == k.tm.pending[e := due];
    }
  }

  // ---- several waits ended by one call

  /** Tasks released by a flag, a data queue or a pool. */
  lemma WakeOtherEffect(k: KState, o: nat, ts: seq<nat>)
    requires System(k) && Enabled(k, WakeOther(o, ts))
    ensures var r := Perform(k, WakeOther(o, ts)); r.ercd == E_OK && AllEnd(k, r.k, ts, E_OK) && ByTask(k, r.k)
  {
    assert Perform(k, WakeOther(o, ts)) == KernelCalls.WakeOther(k, o, ts);
    WakeAllEnds(k, o, ts);
    WakeAllOk(k, o, ts);
    SettleRuns(k, WakeAll(k, ts));
    AnnouncedAll(k, WakeAll(k, ts), ts, E_OK);
  }

  lemma IwakeOtherEffect(k: KState, o: nat, ts: seq<nat>)
    requires System(k) && Enabled(k, IwakeOther(o, ts))
    ensures var r := Perform(k, IwakeOther(o, ts)); r.ercd == E_OK && AllEnd(k, r.k, ts, E_OK) && ByHandler(k, r.k)
  {
    assert Perform(k, IwakeOther(o, ts)) == KernelCalls.IwakeOther(k, o, ts);
    WakeAllEnds(k, o, ts);
    WakeAllOk(k, o, ts);
    AnnouncedAll(k, WakeAll(k, ts), ts, E_OK);
  }

  lemma AnnouncedAll(k: KState, k1: KState, s: seq<nat>, ercd: ER)
    requires AllEnd(k, k1, s, ercd)
    ensures AllEnd(k, Settle(k1), s, ercd) && AllEnd(k, Request(k, k1), s, ercd)
  {
    forall x | 0 <= x < |k.tcb| ensures RecordEnds(k, Settle(k1), s, ercd, x) && RecordEnds(k, Request(k, k1), s, ercd, x) {
      assert RecordEnds(k, k1, s, ercd, x);
    }
  }

  /** An object set back: everyone waiting for it is told, in the order of its queue. */
  lemma IniOtherEffect(k: KState, o: nat)
    requires System(k) && Enabled(k, IniOther(o))
    ensures var r := Perform(k, IniOther(o));
            && o < |k.obj| && r.ercd == E_OK && AllEnd(k, r.k, k.obj[o].waitQueue, E_DLT) && ByTask(k, r.k)
            && r.k.obj[o].waitQueue == []
  {
    assert Perform(k, IniOther(o)) == KernelCalls.IniOther(k, o);
    Drains(k, o);
    var k1 := InitQueue(k, o, |k.obj[o].waitQueue|);
    SettleRuns(k, k1);
    AnnouncedAll(k, k1, k.obj[o].waitQueue, E_DLT);
  }

  lemma Drains(k: KState, o: nat)
    requires Links(k, {}, None) && o < |k.obj|
    ensures var k1 := InitQueue(k, o, |k.obj[o].waitQueue|);
            && AllEnd(k, k1, k.obj[o].waitQueue, E_DLT) && |k1.obj| == |k.obj| && k1.obj[o].waitQueue == []
            && k1.runtsk == k.runtsk && k1.reqflg == k.reqflg
  {
    InitQueueEnds(k, o, |k.obj[o].waitQueue|);
    InitQueueOk(k, o, |k.obj[o].waitQueue|, {}, None);
  }

  /** `ini_sem`: beside that the count is the initial one. */
  lemma IniSemEffect(k: KState, o: nat)
    requires System(k) && Enabled(k, IniSem(o))
    ensures var r := Perform(k, IniSem(o));
            && o < |k.obj| == |r.k.obj| && r.ercd == E_OK && ByTask(k, r.k)
            && r.k.obj[o].waitQueue == [] && r.k.obj[o].semcnt == k.cfg.objects[o].isemcnt
            && AllEnd(k, r.k.(obj := r.k.obj[o := r.k.obj[o].(semcnt := k.obj[o].semcnt)]), k.obj[o].waitQueue, E_DLT)
  {
    assert Perform(k, IniSem(o)) == KernelCalls.IniSem(k, o);
    Drains(k, o);
    var k1 := InitQueue(k, o, |k.obj[o].waitQueue|);
    var k2 := SetCount(k1, o, k.cfg.objects[o].isemcnt);
    SettleRuns(k, k2);
    assert k1.obj[o].semcnt == k.obj[o].semcnt;
    assert Settle(k2).obj[o := k1.obj[o]] == k1.obj;
    AnnouncedAll(k, k1, k.obj[o].waitQueue, E_DLT);
  }

  // ---- the start

  /** The tasks of `act` of initial priority `p`, in order. */
  function OfPriority(cfg: Config, act: seq<nat>, p: nat): seq<nat> {
    if act == [] then []
    else (if act[0] < |cfg.ipriority| && cfg.ipriority[act[0]] == p then [act[0]] else []) + OfPriority(cfg, act[1..], p)
  }

  /** The tasks of `act`, all dormant before, are activated in that order. */
  ghost predicate AllActivated(k: KState, k': KState, act: seq<nat>) {
    && |k'.tcb| == |k.tcb| && |k'.ready| == |k.ready|
    && (forall t :: 0 <= t < |k.tcb| ==> k'.tcb[t] == if t in act then k.tcb[t].(tstat := Runnable) else k.tcb[t])
    && (forall p :: 0 <= p < |k.ready| ==> k'.ready[p] == k.ready[p] + OfPriority(k.cfg, act, p))
    && k' == k.(tcb := k'.tcb, ready := k'.ready)
  }

  lemma {:induction false} ActivateAllIs(k: KState, act: seq<nat>)
    requires Links(k, {}, None) && NoDup(act)
    requires forall t :: t in act ==> t < |k.tcb| && k.tcb[t].tstat.Dormant?
    ensures AllActivated(k, ActivateAll(k, act), act)
    decreases |act|
  {
    if act != [] {
      assert act[0] in act;
      NoDupTail(act);
      ActivateOk(k, act[0]);
      ActivatedIs(k, act[0]);
      var k1 := MakeActive(k, act[0]);
      assert forall t :: 0 <= t < |k.tcb| && t != act[0] ==> k1.tcb[t] == k.tcb[t];
      ActivateAllIs(k1, act[1..]);
      ActivatesMore(k, k1, ActivateAll(k1, act[1..]), act);
    }
  }

  lemma ActivatesMore(k: KState, k1: KState, k': KState, act: seq<nat>)
    requires act != [] && act[0] < |k.tcb| && act[0] < |k.cfg.ipriority| && k.cfg.ipriority[act[0]] < |k.ready|
    requires var p := k.cfg.ipriority[act[0]];
             k1 == k.(tcb := k.tcb[act[0] := k.tcb[act[0]].(tstat := Runnable)], ready := k.ready[p := k.ready[p] + [act[0]]])
    requires AllActivated(k1, k', act[1..])
    ensures AllActivated(k, k', act)
  {
    assert act == [act[0]] + act[1..];
  }

  /** The handlers of `sta` are started, each due at the absolute time of its phase. */
  ghost predicate AllStarted(k: KState, k': KState, sta: seq<nat>) {
    && |k'.cycsta| == |k.cycsta|
    && (forall c :: 0 <= c < |k.cycsta| ==> (k'.cycsta[c] <==> k.cycsta[c] || c in sta))
    && k'.tm == k.tm.(pending := k'.tm.pending)
    && (forall e :: e in k'.tm.pending <==> e in k.tm.pending || (e.CyclicEvent? && e.cyc in sta))
    && (forall e :: e in k'.tm.pending ==>
          k'.tm.pending[e] == if e.CyclicEvent? && e.cyc in sta && e.cyc < |k.cfg.cyclics| then k.cfg.cyclics[e.cyc].cycphs
                              else if e in k.tm.pending then k.tm.pending[e] else 0)
    && k' == k.(cycsta := k'.cycsta, tm := k'.tm)
  }

  lemma {:induction false} StartAllIs(k: KState, sta: seq<nat>)
    requires |k.cycsta| == |k.cfg.cyclics| && NoDup(sta) && forall c :: c in sta ==> c < |k.cfg.cyclics|
    ensures AllStarted(k, StartAll(k, sta), sta)
    decreases |sta|
  {
    if sta != [] {
      assert sta[0] in sta;
      NoDupTail(sta);
      StartAllIs(StartCyclic(k, sta[0]), sta[1..]);
    }
  }

  /** The kernel as its start leaves it. */
  lemma BootEffect(cfg: Config, tick: Tick, act: seq<nat>, sta: seq<nat>)
    requires ValidConfig(cfg) && ValidTick(tick) && NoDup(act) && NoDup(sta)
    requires (forall t :: t in act ==> t < |cfg.ipriority|) && (forall c :: c in sta ==> c < |cfg.cyclics|)
    ensures var k := Boot(cfg, tick, act, sta);
            && k.cfg == cfg && |k.tcb| == |cfg.ipriority| && |k.obj| == |cfg.objects| && |k.ready| == TNUM_TPRI
            && (forall t :: 0 <= t < |k.tcb| ==>
                  k.tcb[t] == TCB(cfg.ipriority[t], if t in act then Runnable else Dormant, false, false, Wercd(E_OK), []))
            && (forall o :: 0 <= o < |k.obj| ==>
                  k.obj[o] == WOBJ([], None, if cfg.objects[o].Semaphore? then cfg.objects[o].isemcnt else 0))
            && (forall p :: 0 <= p < TNUM_TPRI ==> k.ready[p] == OfPriority(cfg, act, p))
            && |k.cycsta| == |cfg.cyclics| && (forall c :: 0 <= c < |k.cycsta| ==> (k.cycsta[c] <==> c in sta))
            && |k.almsta| == cfg.alarms && (forall a :: 0 <= a < |k.almsta| ==> !k.almsta[a])
            && (forall e :: e in k.tm.pending <==> e.CyclicEvent? && e.cyc in sta)
            && (forall c :: c in sta ==> k.tm.pending[CyclicEvent(c)] == cfg.cyclics[c].cycphs)
            && !k.disdsp && k.ipmflg && !k.reqflg && !k.inInt
            && Runs(Reset(cfg, tick), k)
  {
    var k0 := Reset(cfg, tick);
    ResetOk(cfg, tick);
    ActivateAllIs(k0, act);
    var k1 := ActivateAll(k0, act);
    StartAllIs(k1, sta);
    SettleRuns(k0, StartAll(k1, sta));
  }
}
