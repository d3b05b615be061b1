/** Every step of the kernel, from any context, keeps the system invariant; hence so does
    every run. */
module KernelRuns {
  import opened Prelude
  import opened EventTime
  import opened Timer
  import opened KernelState
  import opened KernelCalls
  import opened KernelInv
  import opened KernelSteps
  import opened KernelPriority
  import opened KernelSystem

  // ---- task management

  /** A dormant or suspended task that is in no queue becomes runnable. */
  lemma MakeActiveOk(k: KState, t: nat)
    requires Links(k, {} + {t}, None) && t < |k.tcb| && TaskTimeout(t) !in k.tm.pending
    ensures Links(MakeActive(k, t), {}, None)
  {
    HeldAllows(k, t, {} + {t}, None);
    ChangeLoose(k, t, k.tcb[t].(tstat := Runnable), {} + {t}, None);
    var k1 := SetState(k, t, Runnable);
    assert TaskLinked(k1, t, {} + {t}, None);
    PriInRange(k1, t, {} + {t}, None);
    AttachReady(k1, t, k1.ready[Pri(k1, t)] + [t], {}, None);
  }

  lemma ActivateOk(k: KState, t: nat)
    requires Links(k, {}, None) && t < |k.tcb| && (k.tcb[t].tstat.Dormant? || k.tcb[t].tstat.Suspended?)
    ensures Links(MakeActive(k, t), {}, None) && OnlyWakes(k, MakeActive(k, t))
  {
    AttachedFacts(k, t, None);
    DetachIdle(k, t, {}, None);
    MakeActiveOk(k, t);
  }

  /** Queued requests, and the suspension of a task that waits anyway, are in no queue. */
  lemma ChangeCounts(k: KState, t: nat, b: TCB)
    requires Links(k, {}, None) && t < |k.tcb|
    requires b == k.tcb[t].(actque := b.actque, wupque := b.wupque, tstat := b.tstat)
    requires b.tstat == k.tcb[t].tstat
             || (b.tstat.Waiting? && k.tcb[t].tstat.Waiting? && b.tstat.cause == k.tcb[t].tstat.cause)
    requires k.tcb[t].tstat.Dormant? ==> b.wupque == k.tcb[t].wupque
    ensures Links(SetTcb(k, t, b), {}, None) && OnlyWakes(k, SetTcb(k, t, b))
  {
    var k' := SetTcb(k, t, b);
    forall p | 0 <= p < TNUM_TPRI ensures ReadyLinked(k', p, {}) {
      assert ReadyLinked(k, p, {});
      forall x | x in k'.ready[p] ensures x < |k'.tcb| && InReady(k', p, x, {}) {
        assert InReady(k, p, x, {});
      }
    }
    forall o | 0 <= o < |k'.obj| ensures ObjLinked(k', o, {}, None) {
      assert ObjLinked(k, o, {}, None);
      forall x | x in k'.obj[o].waitQueue
        ensures x < |k'.tcb| && InWait(k', o, x, {}) && Pri(k, x) == Pri(k', x)
      {
        assert InWait(k, o, x, {});
      }
    }
    forall x | 0 <= x < |k'.tcb| ensures TaskLinked(k', x, {}, None) {
      assert TaskLinked(k, x, {}, None) && Attached(k, x);
      forall h | h in k'.tcb[x].held ensures HeldOk(k', x, h) {
        assert HeldOk(k, x, h);
      }
    }
  }

  /** A task out of every queue ends: its mutexes are given up, and a queued activation
      starts it again. */
  lemma TerminateOk(k: KState, t: nat)
    requires Links(k, {} + {t}, None) && t < |k.tcb| && TaskTimeout(t) !in k.tm.pending
    ensures Links(Terminate(k, t), {}, None)
    ensures SameFlags(k, Terminate(k, t))
    ensures forall x :: 0 <= x < |k.tcb| && x != t && k.tcb[x].tstat.Runnable? ==> Terminate(k, t).tcb[x].tstat.Runnable?
  {
    ReleaseAllOk(k, t, |k.tcb[t].held|, {} + {t});
    var k1 := ReleaseAll(k, t, |k.tcb[t].held|);
    RestOk(k1, t);
  }

  lemma RestOk(k: KState, t: nat)
    requires Links(k, {} + {t}, None) && t < |k.tcb| && TaskTimeout(t) !in k.tm.pending && k.tcb[t].held == []
    ensures var k1 := MakeDormant(k, t);
            var k' := if TcbOf(k1, t).actque then MakeActive(QueueActivation(k1, t, false), t) else k1;
            && Links(k', {}, None) && SameFlags(k, k')
            && forall x :: 0 <= x < |k.tcb| && x != t ==> k'.tcb[x] == k.tcb[x]
  {
    assert Ipriority(k, t) < TNUM_TPRI;
    ChangeLoose(k, t, k.tcb[t].(tstat := Dormant, bpriority := Ipriority(k, t), wupque := false), {} + {t}, None);
    var k1 := MakeDormant(k, t);
    if TcbOf(k1, t).actque {
      StartAgainOk(k1, t);
    } else {
      AttachIdle(k1, t, {}, None);
    }
  }

  lemma StartAgainOk(k: KState, t: nat)
    requires Links(k, {} + {t}, None) && t < |k.tcb| && TaskTimeout(t) !in k.tm.pending
    requires k.tcb[t].held == [] && k.tcb[t].tstat.Dormant? && !k.tcb[t].wupque && k.tcb[t].bpriority == Ipriority(k, t)
    ensures var k' := MakeActive(QueueActivation(k, t, false), t);
            && Links(k', {}, None) && SameFlags(k, k')
            && forall x :: 0 <= x < |k.tcb| && x != t ==> k'.tcb[x] == k.tcb[x]
  {
    ChangeLoose(k, t, k.tcb[t].(actque := false), {} + {t}, None);
    MakeActiveOk(QueueActivation(k, t, false), t);
  }

  lemma DetachOk(k: KState, t: nat)
    requires Links(k, {}, None) && t < |k.tcb|
    ensures Links(Detach(k, t), {} + {t}, None) && TaskTimeout(t) !in Detach(k, t).tm.pending
  {
    AttachedFacts(k, t, None);
    match k.tcb[t].tstat
    case Runnable => DetachReady(k, t, {}, None);
    case Waiting(_, _) =>
      DetachWait(k, t, {}, None);
      LeaveQueueEffect(k, t);
      StopTimeoutOk(LeaveQueue(k, t), t, {} + {t}, None);
    case _ => DetachIdle(k, t, {}, None);
  }

  lemma LeaveQueueEffect(k: KState, t: nat)
    ensures var k' := LeaveQueue(k, t); k' == k.(obj := k'.obj) && |k'.obj| == |k.obj|
  {
  }

  lemma DetachEffect(k: KState, t: nat)
    ensures var k' := Detach(k, t);
            k' == k.(ready := k'.ready, obj := k'.obj, tm := k'.tm) && k'.tm.ticking == k.tm.ticking
  {
    LeaveQueueEffect(k, t);
  }

  lemma ExtTskOk(k: KState)
    requires System(k) && Enabled(k, ExtTsk)
    ensures Next(k, Perform(k, ExtTsk).k)
  {
    var r := k.runtsk.value;
    var k1 := WithDispatch(k, false, true);
    FlagsOk(k, k1);
    DetachOk(k1, r);
    TerminateOk(MakeNonRunnable(k1, r), r);
    SettleOk(Terminate(MakeNonRunnable(k1, r), r));
  }

  lemma TerTskOk(k: KState, t: nat)
    requires System(k) && Enabled(k, TerTsk(t))
    ensures Next(k, Perform(k, TerTsk(t)).k)
  {
    if !k.tcb[t].tstat.Dormant? {
      DetachOk(k, t);
      DetachEffect(k, t);
      TerminateOk(Detach(k, t), t);
      SettleCall(k, Terminate(Detach(k, t), t));
    }
  }

  lemma ReinsertEffect(k: KState, t: nat, oldpri: nat, mtxmode: bool)
    requires TcbOf(k, t).tstat.Runnable?
    ensures var k' := Reposition(k, t, oldpri, mtxmode); k' == k.(ready := k'.ready)
  {
    var k1 := SetReady(k, oldpri, Remove(ReadyOf(k, oldpri), t));
    assert k1 == k.(ready := k1.ready);
  }

  lemma JoinQueueEffect(k: KState, t: nat, o: nat)
    ensures var k' := JoinQueue(k, t, o); k' == k.(obj := k'.obj) && |k'.obj| == |k.obj|
  {
  }

  lemma RepositionEffect(k: KState, t: nat, oldpri: nat, mtxmode: bool)
    ensures var k' := Reposition(k, t, oldpri, mtxmode);
            k' == k.(ready := k'.ready, obj := k'.obj) && |k'.obj| == |k.obj|
  {
    match TcbOf(k, t).tstat
    case Runnable => ReinsertEffect(k, t, oldpri, mtxmode);
    case Waiting(OnObject(o), _) =>
      LeaveQueueEffect(k, t);
      JoinQueueEffect(LeaveQueue(k, t), t, o);
    case _ =>
  }

  /** The base priority of a task that holds a ceiling mutex is not its priority. */
  lemma CeilingHides(k: KState, t: nat, pri: nat)
    requires Links(k, {}, None) && t < |k.tcb| && CeilingsAllow(k, t, pri) && HoldsCeiling(k, t)
    ensures PriOf(k.cfg, k.tcb[t].(bpriority := pri)) == Pri(k, t)
  {
    HeldAllows(k, t, {}, None);
    var held := k.tcb[t].held;
    forall i | 0 <= i < |held| ensures CeilingAllows(k.cfg, held[i], k.tcb[t].bpriority) {
      assert held[i] in held;
    }
    LowestIgnoresBase(k.cfg, held, k.tcb[t].bpriority, pri);
  }

  lemma ChgPriOk(k: KState, t: nat, pri: nat)
    requires System(k) && Enabled(k, ChgPri(t, pri))
    ensures Next(k, Perform(k, ChgPri(t, pri)).k)
  {
    if !k.tcb[t].tstat.Dormant? && CeilingsAllow(k, t, pri) {
      var k1 := SetTcb(k, t, k.tcb[t].(bpriority := pri));
      if HoldsCeiling(k, t) {
        CeilingHides(k, t, pri);
        ChangeBase(k, t, pri, {});
        QuietCall(k, k1);
      } else {
        ChangeBaseOk(k, t, pri);
        RepositionEffect(k1, t, Pri(k, t), false);
        SettleWakes(k, Reposition(k1, t, Pri(k, t), false));
      }
    }
  }

  // ---- waiting and waking

  lemma EnterWaitFlags(k: KState, r: nat, cause: Cause, timeout: Option<nat>)
    requires r < |k.tcb|
    ensures SameFlags(k, EnterWait(k, r, cause, timeout))
  {
    var d := MakeNonRunnable(k, r);
    assert SameFlags(k, d);
    assert SameFlags(d, Armed(d, r, cause, timeout));
  }

  /** The running task starts to wait, and the next one runs. */
  lemma WaitOk(k: KState, cause: Cause, timeout: Option<nat>)
    requires System(k) && InTask(k) && Dspflg(k)
    requires timeout.Some? ==> timeout.value <= TMAX_RELTIM
    requires cause.Delay? ==> timeout.Some?
    requires cause.OnObject? ==> cause.obj < |k.obj| && MayWait(k, k.runtsk.value, cause.obj)
    ensures Next(k, Settle(EnterWait(k, k.runtsk.value, cause, timeout)))
  {
    EnterWaitOk(k, k.runtsk.value, cause, timeout);
    EnterWaitFlags(k, k.runtsk.value, cause, timeout);
    SettleCall(k, EnterWait(k, k.runtsk.value, cause, timeout));
  }

  lemma CompleteEffect(k: KState, t: nat, ercd: ER)
    requires t < |k.tcb| && k.tcb[t].tstat.Waiting?
    ensures OnlyWakes(k, WaitComplete(k, t, ercd))
  {
    WaitCompleteOnlyReleases(k, t, ercd);
    var k' := WaitComplete(k, t, ercd);
    forall x | 0 <= x < |k.tcb| ensures k.tcb[x].tstat.Runnable? ==> k'.tcb[x].tstat.Runnable? {
      assert Undisturbed(k, k', x);
    }
    EndWaitEffect(DequeueTimeout(k, t), t, ercd);
  }

  lemma ReleaseWaitOk(k: KState, t: nat, ercd: ER)
    requires Links(k, {}, None) && t < |k.tcb| && k.tcb[t].tstat.Waiting?
    ensures Links(WaitRelease(k, t, ercd), {}, None) && OnlyWakes(k, WaitRelease(k, t, ercd))
  {
    WaitReleaseOk(k, t, ercd, {}, None);
    var k1 := LeaveQueue(k, t);
    assert OnlyWakes(k, k1);
    CompleteEffect(k1, t, ercd);
    OnlyWakesTwice(k, k1, WaitRelease(k, t, ercd));
  }

  /** A sleeping task is in no object's queue. */
  lemma SleeperIsReleased(k: KState, t: nat, ercd: ER)
    requires IsSleeping(TcbOf(k, t).tstat)
    ensures WaitComplete(k, t, ercd) == WaitRelease(k, t, ercd)
  {
  }

  lemma WakeFirstWakes(k: KState, o: nat)
    requires Links(k, {}, None) && o < |k.obj| && k.obj[o].waitQueue != []
    ensures Links(WakeFirst(k, o), {}, None) && OnlyWakes(k, WakeFirst(k, o))
  {
    FirstLeaves(k, o, {}, None);
    ReleaseWaitOk(k, k.obj[o].waitQueue[0], E_OK);
  }

  lemma WakeupOk(k: KState, t: nat)
    requires System(k) && t < |k.tcb|
    ensures InTask(k) ==> Next(k, KernelCalls.WupTsk(k, t).k)
    ensures k.inInt ==> Next(k, KernelCalls.IwupTsk(k, t).k)
  {
    if IsSleeping(k.tcb[t].tstat) {
      SleeperIsReleased(k, t, E_OK);
      ReleaseWaitOk(k, t, E_OK);
      if InTask(k) { SettleWakes(k, WaitComplete(k, t, E_OK)); }
      if k.inInt { RequestWakes(k, WaitComplete(k, t, E_OK)); }
    } else if !k.tcb[t].tstat.Dormant? && !k.tcb[t].wupque {
      ChangeCounts(k, t, k.tcb[t].(wupque := true));
      QuietCall(k, QueueWakeup(k, t, true));
    }
  }

  lemma ActivationOk(k: KState, t: nat)
    requires System(k) && t < |k.tcb|
    ensures InTask(k) ==> Next(k, KernelCalls.ActTsk(k, t).k)
    ensures k.inInt ==> Next(k, KernelCalls.IactTsk(k, t).k)
  {
    if k.tcb[t].tstat.Dormant? {
      ActivateOk(k, t);
      if InTask(k) { SettleWakes(k, MakeActive(k, t)); }
      if k.inInt { RequestWakes(k, MakeActive(k, t)); }
    } else if !k.tcb[t].actque {
      ChangeCounts(k, t, k.tcb[t].(actque := true));
      QuietCall(k, QueueActivation(k, t, true));
    }
  }

  lemma ReleaseCallOk(k: KState, t: nat)
    requires System(k) && t < |k.tcb|
    ensures InTask(k) ==> Next(k, KernelCalls.RelWai(k, t).k)
    ensures k.inInt ==> Next(k, KernelCalls.IrelWai(k, t).k)
  {
    if k.tcb[t].tstat.Waiting? {
      ReleaseWaitOk(k, t, E_RLWAI);
      if InTask(k) { SettleWakes(k, WaitRelease(k, t, E_RLWAI)); }
      if k.inInt { RequestWakes(k, WaitRelease(k, t, E_RLWAI)); }
    }
  }

  lemma SlpTskOk(k: KState, tmout: int)
    requires System(k) && Enabled(k, SlpTsk(tmout))
    ensures Next(k, Perform(k, SlpTsk(tmout)).k)
  {
    var r := k.runtsk.value;
    if k.tcb[r].wupque {
      ChangeCounts(k, r, k.tcb[r].(wupque := false));
      QuietCall(k, QueueWakeup(k, r, false));
    } else if tmout != TMO_POL {
      WaitOk(k, Sleep, TimeoutOf(tmout));
    }
  }

  // ---- suspension

  lemma SuspendOk(k: KState, t: nat)
    requires Links(k, {}, None) && t < |k.tcb| && k.tcb[t].tstat.Runnable?
    ensures Links(MakeNonRunnable(SetState(k, t, Suspended), t), {}, None)
  {
    AttachedFacts(k, t, None);
    HeldAllows(k, t, {}, None);
    DetachReady(k, t, {}, None);
    var d := MakeNonRunnable(k, t);
    ChangeLoose(d, t, d.tcb[t].(tstat := Suspended), {} + {t}, None);
    var d1 := SetState(d, t, Suspended);
    AttachIdle(d1, t, {}, None);
    assert MakeNonRunnable(SetState(k, t, Suspended), t) == d1;
  }

  lemma SusTskOk(k: KState, t: nat)
    requires System(k) && Enabled(k, SusTsk(t))
    ensures Next(k, Perform(k, SusTsk(t)).k)
  {
    if k.runtsk != Some(t) || Dspflg(k) {
      match k.tcb[t].tstat
      case Runnable =>
        SuspendOk(k, t);
        SettleCall(k, MakeNonRunnable(SetState(k, t, Suspended), t));
      case Waiting(c, false) =>
        ChangeCounts(k, t, k.tcb[t].(tstat := Waiting(c, true)));
        QuietCall(k, SetState(k, t, Waiting(c, true)));
      case _ =>
    }
  }

  lemma RsmTskOk(k: KState, t: nat)
    requires System(k) && Enabled(k, RsmTsk(t))
    ensures Next(k, Perform(k, RsmTsk(t)).k)
  {
    match k.tcb[t].tstat
    case Suspended =>
      ActivateOk(k, t);
      SettleWakes(k, MakeActive(k, t));
    case Waiting(c, true) =>
      ChangeCounts(k, t, k.tcb[t].(tstat := Waiting(c, false)));
      QuietCall(k, SetState(k, t, Waiting(c, false)));
    case _ =>
  }

  // ---- precedence

  lemma RotateReadyOk(k: KState, pri: nat, p: nat)
    requires Links(k, {}, None) && pri < TNUM_TPRI && p < TNUM_TPRI
    ensures ReadyLinked(Rotate(k, pri), p, {})
  {
    var q, k' := k.ready[pri], Rotate(k, pri);
    assert ReadyLinked(k, p, {});
    if p == pri && |q| > 1 {
      NoDupTail(q);
      NoDupAppend(q[1..], q[0]);
    }
    forall x | x in k'.ready[p] ensures x < |k'.tcb| && InReady(k', p, x, {}) {
      assert x in k.ready[p];
      assert InReady(k, p, x, {});
    }
  }

  lemma RotateOk(k: KState, pri: nat)
    requires Links(k, {}, None) && pri < TNUM_TPRI
    ensures Links(Rotate(k, pri), {}, None) && OnlyWakes(k, Rotate(k, pri))
  {
    var q := k.ready[pri];
    if |q| > 1 {
      var k' := Rotate(k, pri);
      forall p | 0 <= p < TNUM_TPRI ensures ReadyLinked(k', p, {}) {
        RotateReadyOk(k, pri, p);
      }
      forall o | 0 <= o < |k.obj| ensures ObjLinked(k', o, {}, None) {
        FrameObj(k, k', o, {}, {}, None);
      }
      forall t | 0 <= t < |k.tcb| ensures TaskLinked(k', t, {}, None) {
        FrameTask(k, k', t, {}, {}, None);
      }
    }
  }

  lemma DispatchOk(k: KState, disdsp: bool, ipmflg: bool)
    requires System(k) && InTask(k)
    ensures Next(k, Settle(WithDispatch(k, disdsp, ipmflg)))
    ensures disdsp || !ipmflg ==> Next(k, WithDispatch(k, disdsp, ipmflg))
  {
    var k1 := WithDispatch(k, disdsp, ipmflg);
    FlagsOk(k, k1);
    SettleOk(k1);
  }

  // ---- mutexes

  lemma {:induction false} LowestAdds(cfg: Config, held: seq<nat>, m: nat, base: nat)
    ensures LowestOf(cfg, [m] + held, base) <= LowestOf(cfg, held, base)
  {
    assert ([m] + held)[1..] == held;
  }

  /** Locking a mutex needs no dispatch: the running task only rises, and in front of its
      equals. */
  lemma AcquireKeepsTop(k: KState, r: nat, m: nat)
    requires Links(k, {}, None) && Top(k.ready) == Some(r)
    ensures Top(Acquire(k, r, m).ready) == Some(r)
  {
    var p := TopHeads(k.ready);
    assert ReadyLinked(k, p, {});
    assert r in k.ready[p];
    assert InReady(k, p, r, {});
    LowestAdds(k.cfg, k.tcb[r].held, m, k.tcb[r].bpriority);
    RaiseKeepsTop(k, SetHeld(SetOwner(k, m, Some(r)), r, [m] + k.tcb[r].held), r, Pri(k, r));
  }

  lemma RaiseKeepsTop(k: KState, k2: KState, r: nat, oldpri: nat)
    requires HeadsAt(k.ready, oldpri, r) && k2.ready == k.ready && TcbOf(k2, r).tstat.Runnable?
    requires Pri(k2, r) <= oldpri
    ensures Top(Adjust(k2, r, oldpri).ready) == Some(r)
  {
    if Pri(k2, r) != oldpri {
      assert k.ready[Pri(k2, r)] == [];
      HeadsTop(Adjust(k2, r, oldpri).ready, Pri(k2, r), r);
    } else {
      HeadsTop(k.ready, oldpri, r);
    }
  }

  lemma AdjustEffect(k: KState, t: nat, oldpri: nat)
    ensures var k' := Adjust(k, t, oldpri);
            k' == k.(ready := k'.ready, obj := k'.obj) && |k'.obj| == |k.obj|
  {
    RepositionEffect(k, t, oldpri, true);
  }

  lemma LocMtxOk(k: KState, m: nat, tmout: int)
    requires System(k) && Enabled(k, LocMtx(m, tmout))
    ensures Next(k, Perform(k, LocMtx(m, tmout)).k)
  {
    var r := k.runtsk.value;
    if CeilingAllows(k.cfg, m, k.tcb[r].bpriority) {
      if k.obj[m].loctsk.None? {
        AcquireOk(k, r, m);
        AdjustEffect(SetHeld(SetOwner(k, m, Some(r)), r, [m] + k.tcb[r].held), r, Pri(k, r));
        if Dspflg(k) { AcquireKeepsTop(k, r, m); }
      } else if k.obj[m].loctsk != Some(r) && tmout != TMO_POL {
        WaitOk(k, OnObject(m), TimeoutOf(tmout));
      }
    }
  }

  lemma OwnerHolds(k: KState, m: nat)
    requires Links(k, {}, None) && m < |k.obj| && IsMutex(k.cfg, m) && k.obj[m].loctsk.Some?
    ensures k.obj[m].loctsk.value < |k.tcb| && m in k.tcb[k.obj[m].loctsk.value].held
  {
    assert ObjLinked(k, m, {}, None);
  }

  lemma UnlMtxOk(k: KState, m: nat)
    requires System(k) && Enabled(k, UnlMtx(m))
    ensures Next(k, Perform(k, UnlMtx(m)).k)
  {
    var r := k.runtsk.value;
    if k.obj[m].loctsk == Some(r) {
      OwnerHolds(k, m);
      DropOk(k, r, m);
      AdjustEffect(Unhold(k, r, m), r, Pri(k, r));
      var k1 := Adjust(Unhold(k, r, m), r, Pri(k, r));
      ReleaseOk(k1, m, {});
      ReleaseEffect(k1, m, {}, r);
      assert OnlyWakes(k, k1);
      OnlyWakesTwice(k, k1, Release(k1, m));
      SettleWakes(k, Release(k1, m));
    }
  }

  lemma InitQueueWakes(k: KState, o: nat)
    requires Links(k, {}, None) && o < |k.obj|
    ensures var k' := InitQueue(k, o, |k.obj[o].waitQueue|);
            && Links(k', {}, None) && OnlyWakes(k, k')
            && k'.obj == k.obj[o := k.obj[o].(waitQueue := [])]
  {
    InitQueueOk(k, o, |k.obj[o].waitQueue|, {}, None);
    InitQueuePending(k, o, |k.obj[o].waitQueue|);
    var k' := InitQueue(k, o, |k.obj[o].waitQueue|);
    forall x | 0 <= x < |k.tcb| ensures k.tcb[x].tstat.Runnable? ==> k'.tcb[x].tstat.Runnable? {
      assert Undisturbed(k, k', x);
    }
  }

  lemma WaitCompletePending(k: KState, t: nat, ercd: ER)
    ensures WaitComplete(k, t, ercd).tm.pending.Keys <= k.tm.pending.Keys
  {
    var d := DequeueTimeout(k, t);
    var w := SetWinfo(d, t, Wercd(ercd));
    assert d.tm.pending.Keys <= k.tm.pending.Keys && w.tm == d.tm;
    assert MakeNonWait(w, t).tm == w.tm;
  }

  lemma {:induction false} InitQueuePending(k: KState, o: nat, n: nat)
    ensures InitQueue(k, o, n).tm.pending.Keys <= k.tm.pending.Keys
    decreases n
  {
    var q := ObjOf(k, o).waitQueue;
    if n > 0 && q != [] {
      var k0 := SetQueue(k, o, q[1..]);
      assert k0.tm == k.tm;
      WaitCompletePending(k0, q[0], E_DLT);
      var k1 := WaitComplete(k0, q[0], E_DLT);
      InitQueuePending(k1, o, n - 1);
    }
  }

  lemma DropFreeWakes(k: KState, t: nat, m: nat)
    requires Links(k, {}, None) && t < |k.tcb| && m in k.tcb[t].held && m < |k.obj| && k.obj[m].waitQueue == []
    ensures var k' := Adjust(SetOwner(Unhold(k, t, m), m, None), t, Pri(k, t));
            Links(k', {}, None) && OnlyWakes(k, k')
  {
    DropFreeOk(k, t, m);
    AdjustEffect(SetOwner(Unhold(k, t, m), m, None), t, Pri(k, t));
  }

  lemma IniMtxOk(k: KState, m: nat)
    requires System(k) && Enabled(k, IniMtx(m))
    ensures Next(k, Perform(k, IniMtx(m)).k)
  {
    InitQueueWakes(k, m);
    var k1 := InitQueue(k, m, |k.obj[m].waitQueue|);
    match k1.obj[m].loctsk
    case None => SettleWakes(k, k1);
    case Some(t) =>
      OwnerHolds(k1, m);
      DropFreeWakes(k1, t, m);
      var k2 := Adjust(SetOwner(Unhold(k1, t, m), m, None), t, Pri(k1, t));
      OnlyWakesTwice(k, k1, k2);
      SettleWakes(k, k2);
  }

  // ---- semaphores

  lemma CountOk(k: KState, o: nat, n: nat)
    requires Links(k, {}, None) && IsSemaphore(k.cfg, o) && k.obj[o].waitQueue == [] && n <= MaxSem(k.cfg, o)
    ensures Links(SetCount(k, o, n), {}, None) && OnlyWakes(k, SetCount(k, o, n))
  {
    var k' := SetCount(k, o, n);
    FrameReady(k, k', {}, {});
    forall u | 0 <= u < |k'.obj| ensures ObjLinked(k', u, {}, None) {
      assert ObjLinked(k, u, {}, None);
      if u != o { FrameObj(k, k', u, {}, {}, None); }
    }
    forall x | 0 <= x < |k'.tcb| ensures TaskLinked(k', x, {}, None) {
      FrameTask(k, k', x, {}, {}, None);
    }
  }

  lemma SignalOk(k: KState, o: nat)
    requires System(k) && IsSemaphore(k.cfg, o)
    ensures InTask(k) ==> Next(k, KernelCalls.SigSem(k, o).k)
    ensures k.inInt ==> Next(k, KernelCalls.IsigSem(k, o).k)
  {
    if k.obj[o].waitQueue != [] {
      WakeFirstWakes(k, o);
      if InTask(k) { SettleWakes(k, WakeFirst(k, o)); }
      if k.inInt { RequestWakes(k, WakeFirst(k, o)); }
    } else if k.obj[o].semcnt < MaxSem(k.cfg, o) {
      CountOk(k, o, k.obj[o].semcnt + 1);
      QuietCall(k, SetCount(k, o, k.obj[o].semcnt + 1));
    }
  }

  lemma WaiSemOk(k: KState, o: nat, tmout: int)
    requires System(k) && Enabled(k, WaiSem(o, tmout))
    ensures Next(k, Perform(k, WaiSem(o, tmout)).k)
  {
    assert ObjLinked(k, o, {}, None) && OwnerOk(k, o);
    if k.obj[o].semcnt >= 1 {
      CountOk(k, o, k.obj[o].semcnt - 1);
      QuietCall(k, SetCount(k, o, k.obj[o].semcnt - 1));
    } else if tmout != TMO_POL {
      WaitOk(k, OnObject(o), TimeoutOf(tmout));
    }
  }

  lemma IniSemOk(k: KState, o: nat)
    requires System(k) && Enabled(k, IniSem(o))
    ensures Next(k, Perform(k, IniSem(o)).k)
  {
    InitQueueWakes(k, o);
    var k1 := InitQueue(k, o, |k.obj[o].waitQueue|);
    assert ValidInit(k.cfg.objects[o]);
    CountOk(k1, o, IsemCnt(k1.cfg, o));
    OnlyWakesTwice(k, k1, SetCount(k1, o, IsemCnt(k1.cfg, o)));
    SettleWakes(k, SetCount(k1, o, IsemCnt(k1.cfg, o)));
  }

  // ---- other objects

  /** One of the tasks to be released is; the others still wait. */
  lemma WakeOneOk(k: KState, o: nat, ts: seq<nat>)
    requires Links(k, {}, None) && CanWake(k, o, ts) && ts != []
    ensures var k1 := WaitRelease(k, ts[0], E_OK);
            Links(k1, {}, None) && OnlyWakes(k, k1) && CanWake(k1, o, ts[1..])
  {
    var t := ts[0];
    assert t in ts;
    NoDupTail(ts);
    ReleaseWaitOk(k, t, E_OK);
    LeaveQueueEffect(k, t);
    WaitCompleteEffect(LeaveQueue(k, t), t, E_OK);
  }

  lemma {:induction false} WakeAllOk(k: KState, o: nat, ts: seq<nat>)
    requires Links(k, {}, None) && CanWake(k, o, ts)
    ensures Links(WakeAll(k, ts), {}, None) && OnlyWakes(k, WakeAll(k, ts))
    decreases |ts|
  {
    if ts != [] {
      WakeOneOk(k, o, ts);
      var k1 := WaitRelease(k, ts[0], E_OK);
      WakeAllOk(k1, o, ts[1..]);
      OnlyWakesTwice(k, k1, WakeAll(k1, ts[1..]));
    }
  }

  predicate IsWaitCall(c: Call) { c.WaitOther? || c.WakeOther? || c.IwakeOther? || c.IniOther? }

  lemma WaitCallOk(k: KState, c: Call)
    requires System(k) && Enabled(k, c) && IsWaitCall(c)
    ensures Next(k, Perform(k, c).k)
  {
    match c
    case WaitOther(o, tmout) => WaitOk(k, OnObject(o), TimeoutOf(tmout));
    case WakeOther(o, ts) => WakeAllOk(k, o, ts); SettleWakes(k, WakeAll(k, ts));
    case IwakeOther(o, ts) => WakeAllOk(k, o, ts); RequestWakes(k, WakeAll(k, ts));
    case IniOther(o) => InitQueueWakes(k, o); SettleWakes(k, InitQueue(k, o, |k.obj[o].waitQueue|));
  }

  // ---- time

  /** Starting, stopping and firing handlers touches only the handlers and the timer. */
  lemma HandlersOk(k: KState, k': KState)
    requires Links(k, {}, None) && HandlersLinked(k')
    requires k' == k.(cycsta := k'.cycsta, almsta := k'.almsta, tm := k'.tm)
    requires |k'.cycsta| == |k.cycsta| && |k'.almsta| == |k.almsta| && k'.tm.ticking == k.tm.ticking
    requires forall t :: 0 <= t < |k.tcb| ==> (TaskTimeout(t) in k'.tm.pending <==> TaskTimeout(t) in k.tm.pending)
    ensures Links(k', {}, None) && (System(k) ==> Next(k, k'))
  {
    FlagsOk(k, k');
  }

  lemma SetCycOk(k: KState, c: nat, sta: bool, tm: TimerState)
    requires Links(k, {}, None) && c < |k.cycsta| && TimerOk(tm) && tm.ticking == k.tm.ticking
    requires tm.pending.Keys == if sta then k.tm.pending.Keys + {CyclicEvent(c)} else k.tm.pending.Keys - {CyclicEvent(c)}
    ensures var k' := SetCyc(k, c, sta, tm); Links(k', {}, None) && (System(k) ==> Next(k, k'))
  {
    var k' := SetCyc(k, c, sta, tm);
    forall e | e in tm.pending ensures KnownEvent(k', e) {
      assert e in k.tm.pending.Keys + {CyclicEvent(c)};
      if e != CyclicEvent(c) { assert KnownEvent(k, e); }
    }
    assert HandlersLinked(k');
    HandlersOk(k, k');
  }

  lemma SetAlmOk(k: KState, a: nat, sta: bool, tm: TimerState)
    requires Links(k, {}, None) && a < |k.almsta| && TimerOk(tm) && tm.ticking == k.tm.ticking
    requires tm.pending.Keys == if sta then k.tm.pending.Keys + {AlarmEvent(a)} else k.tm.pending.Keys - {AlarmEvent(a)}
    ensures var k' := SetAlm(k, a, sta, tm); Links(k', {}, None) && (System(k) ==> Next(k, k'))
  {
    var k' := SetAlm(k, a, sta, tm);
    forall e | e in tm.pending ensures KnownEvent(k', e) {
      assert e in k.tm.pending.Keys + {AlarmEvent(a)};
      if e != AlarmEvent(a) { assert KnownEvent(k, e); }
    }
    assert HandlersLinked(k');
    HandlersOk(k, k');
  }

  /** Starting anew an event that may be pending already. */
  lemma RestartOk(tm: TimerState, e: TMEVTB, time: nat, started: bool)
    requires TimerOk(tm) && time <= TMAX_RELTIM
    ensures var tm' := Enqueue(if started then Dequeue(tm, e) else tm, e, time);
            TimerOk(tm') && tm'.ticking == tm.ticking && tm'.pending.Keys == tm.pending.Keys + {e}
  {
    DequeueOk(tm, e);
    EnqueueOk(if started then Dequeue(tm, e) else tm, e, time);
  }

  lemma StaCycOk(k: KState, c: nat)
    requires System(k) && c < |k.cfg.cyclics|
    ensures Next(k, KernelCalls.StaCyc(k, c).k)
  {
    var e := CyclicEvent(c);
    RestartOk(k.tm, e, k.cfg.cyclics[c].cycphs, k.cycsta[c]);
    SetCycOk(k, c, true, Enqueue(if k.cycsta[c] then Dequeue(k.tm, e) else k.tm, e, k.cfg.cyclics[c].cycphs));
  }

  lemma StpCycOk(k: KState, c: nat)
    requires System(k) && c < |k.cfg.cyclics|
    ensures Next(k, KernelCalls.StpCyc(k, c).k)
  {
    DequeueOk(k.tm, CyclicEvent(c));
    SetCycOk(k, c, false, Dequeue(k.tm, CyclicEvent(c)));
  }

  lemma AlarmOk(k: KState, a: nat, time: nat)
    requires System(k) && a < k.cfg.alarms && time <= TMAX_RELTIM
    ensures Next(k, KernelCalls.StaAlm(k, a, time).k) && Next(k, KernelCalls.StpAlm(k, a).k)
  {
    var e := AlarmEvent(a);
    RestartOk(k.tm, e, time, k.almsta[a]);
    SetAlmOk(k, a, true, Enqueue(if k.almsta[a] then Dequeue(k.tm, e) else k.tm, e, time));
    DequeueOk(k.tm, e);
    SetAlmOk(k, a, false, Dequeue(k.tm, e));
  }

  /** The timeout of a waiting task: out of the queue of its object, if it is in one. */
  lemma TimeoutOk(k: KState, t: nat)
    requires System(k) && k.inInt && t < |k.tcb| && TaskTimeout(t) in k.tm.pending
    ensures Next(k, FireEvent(k, TaskTimeout(t)))
  {
    var k1 := WithTimer(k, Dequeue(k.tm, TaskTimeout(t)));
    assert TaskLinked(k, t, {}, None);
    DetachWait(k, t, {}, None);
    LeaveQueueEffect(k, t);
    assert LeaveQueue(k1, t) == WithTimer(LeaveQueue(k, t), k1.tm);
    if IsDelayed(k.tcb[t].tstat) {
      assert LeaveQueue(k1, t) == k1;
      TimeoutEnds(k, k1, LeaveQueue(k, t), t, E_OK);
    } else {
      TimeoutEnds(k, k1, LeaveQueue(k, t), t, E_TMOUT);
    }
  }

  lemma TimeoutEnds(k: KState, k1: KState, d: KState, t: nat, ercd: ER)
    requires System(k) && k.inInt && t < |k.tcb| && k.tcb[t].tstat.Waiting?
    requires Links(d, {} + {t}, None) && d == k.(obj := d.obj)
    requires k1 == WithTimer(k, Dequeue(k.tm, TaskTimeout(t)))
    ensures Next(k, Request(k1, EndWait(WithTimer(d, k1.tm), t, ercd)))
  {
    DequeueOk(k.tm, TaskTimeout(t));
    ChangeTimer(d, t, k1.tm, {} + {t}, None);
    var d1 := WithTimer(d, k1.tm);
    EndWaitOk(d1, t, ercd, {}, None);
    EndWaitEffect(d1, t, ercd);
    assert OnlyWakes(k, EndWait(d1, t, ercd));
    TimeoutRequest(k, k1, EndWait(d1, t, ercd));
  }

  /** What an interrupt handler asks for depends on the ready queue it found. */
  lemma TimeoutRequest(k: KState, k1: KState, k2: KState)
    requires System(k) && k.inInt && Links(k2, {}, None) && OnlyWakes(k, k2) && k1.ready == k.ready
    ensures Next(k, Request(k1, k2))
  {
    RequestWakes(k, k2);
    assert Request(k1, k2) == Request(k, k2);
  }

  lemma RearmedOk(tm: TimerState, e: TMEVTB, cyctim: nat)
    requires TimerOk(tm) && Fireable(tm, e) && cyctim <= TMAX_RELTIM
    ensures var tm' := EnqueueAt(Dequeue(tm, e), e, tm.pending[e] + cyctim);
            TimerOk(tm') && tm'.ticking == tm.ticking && tm'.pending.Keys == tm.pending.Keys
  {
    DequeueOk(tm, e);
    RearmOk(Dequeue(tm, e), e, tm.pending[e], cyctim);
  }

  /** A cyclic handler starts its next cycle from the time it was due. */
  lemma CyclicFires(k: KState, c: nat)
    requires System(k) && Enabled(k, Fire(CyclicEvent(c)))
    ensures Next(k, FireEvent(k, CyclicEvent(c)))
  {
    assert KnownEvent(k, CyclicEvent(c));
    RearmedOk(k.tm, CyclicEvent(c), k.cfg.cyclics[c].cyctim);
    HandlersOk(k, FireEvent(k, CyclicEvent(c)));
  }

  lemma AlarmFires(k: KState, a: nat)
    requires System(k) && Enabled(k, Fire(AlarmEvent(a)))
    ensures Next(k, FireEvent(k, AlarmEvent(a)))
  {
    var e := AlarmEvent(a);
    assert KnownEvent(k, e);
    DequeueOk(k.tm, e);
    SetAlmOk(k, a, false, Dequeue(k.tm, e));
  }

  lemma FireOk(k: KState, e: TMEVTB)
    requires System(k) && Enabled(k, Fire(e))
    ensures Next(k, FireEvent(k, e))
  {
    assert KnownEvent(k, e);
    match e
    case TaskTimeout(t) => TimeoutOk(k, t);
    case CyclicEvent(c) => CyclicFires(k, c);
    case AlarmEvent(a) => AlarmFires(k, a);
  }

  lemma TimerOkSteps(k: KState)
    requires System(k) && k.inInt
    ensures !k.tm.ticking ==> Next(k, WithTimer(k, BeginTick(k.tm)))
    ensures k.tm.ticking && Drained(k.tm) ==> Next(k, WithTimer(k, EndTick(k.tm)))
  {
    if !k.tm.ticking {
      BeginTickOk(k.tm);
      FlagsOk(k, WithTimer(k, BeginTick(k.tm)));
    } else if Drained(k.tm) {
      EndTickOk(k.tm);
      FlagsOk(k, WithTimer(k, EndTick(k.tm)));
    }
  }

  // ---- every step

  lemma InterruptOk(k: KState)
    requires System(k)
    ensures !k.inInt ==> Next(k, k.(inInt := true))
    ensures k.inInt && !k.tm.ticking ==> Next(k, KernelCalls.IntExit(k))
  {
    if !k.inInt {
      FlagsOk(k, k.(inInt := true));
    } else if !k.tm.ticking {
      FlagsOk(k, k.(reqflg := false, inInt := false));
      if k.reqflg { SettleOk(k.(reqflg := false, inInt := false)); }
    }
  }

  predicate IsTaskCall(c: Call) {
    c.ActTsk? || c.IactTsk? || c.ExtTsk? || c.TerTsk? || c.ChgPri? || c.SlpTsk? || c.WupTsk? || c.IwupTsk?
    || c.RelWai? || c.IrelWai? || c.SusTsk? || c.RsmTsk? || c.DlyTsk?
  }

  predicate IsObjectCall(c: Call) {
    c.LocMtx? || c.UnlMtx? || c.IniMtx? || c.SigSem? || c.IsigSem? || c.WaiSem? || c.IniSem?
    || c.StaCyc? || c.StpCyc? || c.StaAlm? || c.StpAlm?
  }

  lemma TaskCallOk(k: KState, c: Call)
    requires System(k) && Enabled(k, c) && IsTaskCall(c)
    ensures Next(k, Perform(k, c).k)
  {
    match c
    case ActTsk(t) => ActivationOk(k, t);
    case IactTsk(t) => ActivationOk(k, t);
    case ExtTsk => ExtTskOk(k);
    case TerTsk(t) => TerTskOk(k, t);
    case ChgPri(t, pri) => ChgPriOk(k, t, pri);
    case SlpTsk(tmout) => SlpTskOk(k, tmout);
    case WupTsk(t) => WakeupOk(k, t);
    case IwupTsk(t) => WakeupOk(k, t);
    case RelWai(t) => ReleaseCallOk(k, t);
    case IrelWai(t) => ReleaseCallOk(k, t);
    case SusTsk(t) => SusTskOk(k, t);
    case RsmTsk(t) => RsmTskOk(k, t);
    case DlyTsk(time) => WaitOk(k, Delay, Some(time));
    case _ =>
  }

  lemma ObjectCallOk(k: KState, c: Call)
    requires System(k) && Enabled(k, c) && IsObjectCall(c)
    ensures Next(k, Perform(k, c).k)
  {
    match c
    case LocMtx(m, tmout) => LocMtxOk(k, m, tmout);
    case UnlMtx(m) => UnlMtxOk(k, m);
    case IniMtx(m) => IniMtxOk(k, m);
    case SigSem(o) => SignalOk(k, o);
    case IsigSem(o) => SignalOk(k, o);
    case WaiSem(o, tmout) => WaiSemOk(k, o, tmout);
    case IniSem(o) => IniSemOk(k, o);
    case StaCyc(c) => StaCycOk(k, c);
    case StpCyc(c) => StpCycOk(k, c);
    case StaAlm(a, time) => AlarmOk(k, a, time);
    case StpAlm(a) => AlarmOk(k, a, 0);
    case _ =>
  }

  predicate IsPlainCall(c: Call) {
    c.RotRdq? || c.IrotRdq? || c.DisDsp? || c.EnaDsp? || c.ChgIpm?
    || c.IntEnter? || c.IntExit? || c.TickBegin? || c.Fire? || c.TickEnd?
  }

  lemma PlainCallOk(k: KState, c: Call)
    requires System(k) && Enabled(k, c) && IsPlainCall(c)
    ensures Next(k, Perform(k, c).k)
  {
    match c
    case RotRdq(pri) => RotateOk(k, pri); SettleWakes(k, Rotate(k, pri));
    case IrotRdq(pri) => RotateOk(k, pri); RequestWakes(k, Rotate(k, pri));
    case DisDsp => DispatchOk(k, true, k.ipmflg);
    case EnaDsp => DispatchOk(k, false, k.ipmflg);
    case ChgIpm(all) => DispatchOk(k, k.disdsp, all);
    case IntEnter => InterruptOk(k);
    case IntExit => InterruptOk(k);
    case TickBegin => TimerOkSteps(k);
    case Fire(e) => FireOk(k, e);
    case TickEnd => TimerOkSteps(k);
    case _ =>
  }

  /** Every service call, every part of the timer interrupt and every interrupt entry and
      exit keeps the system in order. */
  lemma StepOk(k: KState, c: Call)
    requires System(k) && Enabled(k, c)
    ensures Next(k, Perform(k, c).k)
  {
    if IsTaskCall(c) {
      TaskCallOk(k, c);
    } else if IsObjectCall(c) {
      ObjectCallOk(k, c);
    } else if IsWaitCall(c) {
      WaitCallOk(k, c);
    } else {
      PlainCallOk(k, c);
    }
  }
}
