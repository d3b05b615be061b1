/** Conservation of semaphore resources over runs: what a semaphore holds plus what has
    been taken is what it started with plus what has been returned. */
module SemaphoreRuns {
  import opened Prelude
  import opened Timer
  import opened KernelState
  import opened KernelCalls
  import opened KernelInv
  import opened KernelSteps
  import opened KernelPriority
  import opened KernelSystem
  import opened KernelRuns
  import opened KernelTheorems

  /** The tasks that waited for `o` and whose wait ended with success. */
  function Served(k: KState, k': KState, o: nat): set<nat> {
    set t | 0 <= t < |k.tcb| && IsServed(k, k', o, t)
  }

  predicate IsServed(k: KState, k': KState, o: nat, t: nat) {
    TcbOf(k, t).tstat.Waiting? && TcbOf(k, t).tstat.cause == OnObject(o) && TcbOf(k', t).winfo == Wercd(E_OK)
  }

  /** How many resources of `o` the step hands to tasks: to the caller at once, and to
      tasks that waited for them. */
  ghost function Taken(k: KState, c: Call, o: nat): nat
    requires Enabled(k, c)
  {
    (if c.WaiSem? && c.obj == o && Perform(k, c).ercd == E_OK then 1 else 0) + |Served(k, Perform(k, c).k, o)|
  }

  /** How many resources the step returns. */
  ghost function Returned(k: KState, c: Call, o: nat): nat
    requires Enabled(k, c)
  {
    if (c == SigSem(o) || c == IsigSem(o)) && Perform(k, c).ercd == E_OK then 1 else 0
  }

  /** The step neither touches the count of `o` nor ends a wait for it with success. */
  ghost predicate Quiet(k: KState, k': KState, o: nat) {
    && |k'.tcb| == |k.tcb| && ObjOf(k', o).semcnt == ObjOf(k, o).semcnt
    && forall t :: 0 <= t < |k.tcb| ==> !IsServed(k, k', o, t)
  }

  lemma QuietServesNobody(k: KState, k': KState, o: nat)
    requires Quiet(k, k', o)
    ensures Served(k, k', o) == {}
  {
  }

  /** Waiters of `o` are left exactly as they are. */
  ghost predicate Still(k: KState, k': KState, o: nat) {
    && |k'.tcb| == |k.tcb| && |k'.obj| == |k.obj| && ObjOf(k', o).semcnt == ObjOf(k, o).semcnt
    && forall t :: 0 <= t < |k.tcb| && WaitsFor(k, t, o) ==> k'.tcb[t] == k.tcb[t]
  }

  lemma StillTwice(k: KState, k1: KState, k2: KState, o: nat)
    requires Still(k, k1, o) && Still(k1, k2, o)
    ensures Still(k, k2, o)
  {
    forall t | 0 <= t < |k.tcb| && WaitsFor(k, t, o) ensures k2.tcb[t] == k.tcb[t] {
      assert WaitsFor(k1, t, o);
    }
  }

  /** No union and no count changes at all. */
  ghost predicate Unions(k: KState, k': KState) {
    && |k'.tcb| == |k.tcb| && |k'.obj| == |k.obj|
    && (forall t: nat :: TcbOf(k', t).winfo == TcbOf(k, t).winfo)
    && (forall o: nat :: ObjOf(k', o).semcnt == ObjOf(k, o).semcnt)
  }

  /** A waiting task's union holds no result. */
  lemma WaiterHasNoResult(k: KState, o: nat)
    requires Links(k, {}, None)
    ensures forall t :: 0 <= t < |k.tcb| && k.tcb[t].tstat.Waiting? ==> k.tcb[t].winfo.Tmevtb?
  {
    forall t | 0 <= t < |k.tcb| && k.tcb[t].tstat.Waiting? ensures k.tcb[t].winfo.Tmevtb? {
      assert TaskLinked(k, t, {}, None) && Attached(k, t);
    }
  }

  lemma UnionsQuiet(k: KState, k': KState, o: nat)
    requires Links(k, {}, None) && Unions(k, k')
    ensures Quiet(k, k', o)
  {
    WaiterHasNoResult(k, o);
    forall t | 0 <= t < |k.tcb| ensures !IsServed(k, k', o, t) {
      assert TcbOf(k', t).winfo == TcbOf(k, t).winfo;
    }
  }

  // ---- steps that change no union

  lemma MakeRunnableUnions(k: KState, t: nat)
    ensures Unions(k, MakeRunnable(k, t)) && Unions(k, MakeNonRunnable(k, t))
  {
  }

  lemma SetTcbUnions(k: KState, t: nat, b: TCB)
    requires b.winfo == TcbOf(k, t).winfo
    ensures Unions(k, SetTcb(k, t, b))
  {
  }

  lemma MakeActiveUnions(k: KState, t: nat)
    ensures Unions(k, MakeActive(k, t))
  {
    SetTcbUnions(k, t, TcbOf(k, t).(tstat := Runnable));
    MakeRunnableUnions(SetState(k, t, Runnable), t);
  }

  lemma LeaveQueueUnions(k: KState, t: nat)
    ensures Unions(k, LeaveQueue(k, t))
  {
  }

  lemma JoinQueueUnions(k: KState, t: nat, o: nat)
    ensures Unions(k, JoinQueue(k, t, o))
  {
  }

  lemma RepositionUnions(k: KState, t: nat, oldpri: nat, mtxmode: bool)
    ensures Unions(k, Reposition(k, t, oldpri, mtxmode))
  {
    match TcbOf(k, t).tstat
    case Runnable => ReinsertEffect(k, t, oldpri, mtxmode);
    case Waiting(OnObject(o), _) =>
      LeaveQueueUnions(k, t);
      JoinQueueUnions(LeaveQueue(k, t), t, o);
    case _ =>
  }

  lemma SetOwnerUnions(k: KState, m: nat, owner: Option<nat>)
    ensures Unions(k, SetOwner(k, m, owner))
  {
  }

  lemma AcquireUnions(k: KState, t: nat, m: nat)
    ensures Unions(k, Acquire(k, t, m))
  {
    var k1 := SetOwner(k, m, Some(t));
    SetOwnerUnions(k, m, Some(t));
    SetTcbUnions(k1, t, TcbOf(k1, t).(held := [m] + TcbOf(k, t).held));
    RepositionUnions(SetHeld(k1, t, [m] + TcbOf(k, t).held), t, Pri(k, t), true);
  }

  // ---- steps that end waits

  lemma EndWaitStill(k: KState, t: nat, ercd: ER, o: nat)
    requires t < |k.tcb| && !WaitsFor(k, t, o)
    ensures Still(k, EndWait(k, t, ercd), o) && Still(k, WaitComplete(k, t, ercd), o)
  {
    EndWaitEffect(k, t, ercd);
    WaitCompleteEffect(k, t, ercd);
  }

  lemma WaitCompleteObj(k: KState, t: nat, ercd: ER)
    requires t < |k.tcb|
    ensures WaitComplete(k, t, ercd).obj == k.obj && EndWait(k, t, ercd).obj == k.obj
    ensures TcbOf(WaitComplete(k, t, ercd), t).winfo == TcbOf(EndWait(k, t, ercd), t).winfo == Wercd(ercd)
  {
    EndWaitEffect(k, t, ercd);
    WaitCompleteEffect(k, t, ercd);
  }

  /** Ending one task's wait with another code than success. */
  lemma ReleaseQuiet(k: KState, t: nat, ercd: ER, o: nat)
    requires Links(k, {}, None) && t < |k.tcb| && k.tcb[t].tstat.Waiting?
    requires ercd != E_OK || !WaitsFor(k, t, o)
    ensures Quiet(k, WaitRelease(k, t, ercd), o)
  {
    WaiterHasNoResult(k, o);
    var k1 := LeaveQueue(k, t);
    LeaveQueueUnions(k, t);
    WaitCompleteEffect(k1, t, ercd);
    WaitCompleteObj(k1, t, ercd);
  }

  /** The first waiter of `o2` leaves the queue with code `ercd`: nothing to `o`. */
  lemma FirstStill(k: KState, o2: nat, ercd: ER, o: nat)
    requires Links(k, {}, None) && o2 < |k.obj| && k.obj[o2].waitQueue != [] && o2 != o
    ensures Still(k, WaitRelease(k, k.obj[o2].waitQueue[0], ercd), o)
  {
    var t := k.obj[o2].waitQueue[0];
    FirstLeaves(k, o2, {}, None);
    LeaveQueueUnions(k, t);
    EndWaitStill(LeaveQueue(k, t), t, ercd, o);
    assert Still(k, LeaveQueue(k, t), o);
    StillTwice(k, LeaveQueue(k, t), WaitRelease(k, t, ercd), o);
  }

  lemma {:induction false} InitQueueStill(k: KState, o2: nat, n: nat, o: nat)
    requires Links(k, {}, None) && o2 < |k.obj| && n == |k.obj[o2].waitQueue| && o2 != o
    ensures Still(k, InitQueue(k, o2, n), o)
    decreases n
  {
    if n > 0 {
      var t := k.obj[o2].waitQueue[0];
      FirstLeaves(k, o2, {}, None);
      WaitReleaseOk(k, t, E_DLT, {}, None);
      FirstStill(k, o2, E_DLT, o);
      var k1 := WaitRelease(k, t, E_DLT);
      WaitCompleteObj(LeaveQueue(k, t), t, E_DLT);
      InitQueueStill(k1, o2, n - 1, o);
      StillTwice(k, k1, InitQueue(k, o2, n), o);
    }
  }

  lemma StillQuiet(k: KState, k1: KState, k': KState, o: nat)
    requires Links(k, {}, None) && Still(k, k1, o) && Unions(k1, k')
    ensures Quiet(k, k', o)
  {
    WaiterHasNoResult(k, o);
    forall t | 0 <= t < |k.tcb| ensures !IsServed(k, k', o, t) {
      assert TcbOf(k', t).winfo == TcbOf(k1, t).winfo;
      assert WaitsFor(k, t, o) ==> k1.tcb[t] == k.tcb[t];
    }
  }

  // ---- mutexes handed over

  lemma HandOverStill(k: KState, m: nat, o: nat, lt: set<nat>)
    requires Links(k, lt, Some(m)) && m < |k.obj| && k.obj[m].waitQueue != [] && m != o
    ensures Still(k, HandOver(k, m), o)
  {
    FirstLeaves(k, m, lt, Some(m));
    HandOverEffect(k, m);
    HandOverCounts(k, m, o);
  }

  lemma MakeNonWaitObj(k: KState, t: nat)
    ensures MakeNonWait(k, t).obj == k.obj
  {
  }

  lemma HandOverCounts(k: KState, m: nat, o: nat)
    requires m < |k.obj| && k.obj[m].waitQueue != []
    ensures |HandOver(k, m).obj| == |k.obj| && ObjOf(HandOver(k, m), o).semcnt == ObjOf(k, o).semcnt
  {
    var q := k.obj[m].waitQueue;
    var t := q[0];
    var k1 := SetQueue(k, m, q[1..]);
    var k2 := SetWinfo(DequeueTimeout(k1, t), t, Wercd(E_OK));
    assert k2.obj == k1.obj;
    var k3 := SetOwner(k2, m, Some(t));
    SetOwnerUnions(k2, m, Some(t));
    var k4 := SetHeld(k3, t, TcbOf(k3, t).held + [m]);
    MakeNonWaitObj(k4, t);
  }

  lemma ReleaseStill(k: KState, m: nat, o: nat, lt: set<nat>)
    requires Links(k, lt, Some(m)) && m < |k.obj| && m != o
    ensures Still(k, Release(k, m), o)
  {
    if k.obj[m].waitQueue == [] {
      SetOwnerUnions(k, m, None);
    } else {
      HandOverStill(k, m, o, lt);
    }
  }

  /** Waiters of `o` other than `t` are left exactly as they are. */
  ghost predicate OthersStill(k: KState, k': KState, o: nat, t: nat) {
    && |k'.tcb| == |k.tcb| && |k'.obj| == |k.obj| && ObjOf(k', o).semcnt == ObjOf(k, o).semcnt
    && forall x :: 0 <= x < |k.tcb| && x != t && WaitsFor(k, x, o) ==> k'.tcb[x] == k.tcb[x]
  }

  lemma OthersStillTwice(k: KState, k1: KState, k2: KState, o: nat, t: nat)
    requires OthersStill(k, k1, o, t) && OthersStill(k1, k2, o, t)
    ensures OthersStill(k, k2, o, t)
  {
    forall x | 0 <= x < |k.tcb| && x != t && WaitsFor(k, x, o) ensures k2.tcb[x] == k.tcb[x] {
      assert WaitsFor(k1, x, o);
    }
  }

  lemma ReleaseFirstStill(k: KState, t: nat, m: nat, o: nat)
    requires Links(k, {t}, None) && t < |k.tcb| && m in k.tcb[t].held && !IsMutex(k.cfg, o)
    ensures OthersStill(k, Release(Unhold(k, t, m), m), o, t)
  {
    assert m < |k.obj| && IsMutex(k.cfg, m) by {
      assert TaskLinked(k, t, {t}, None);
      assert HeldOk(k, t, m);
    }
    LetGo(k, t, m, {t});
    var k1 := Unhold(k, t, m);
    assert OthersStill(k, k1, o, t);
    ReleaseStill(k1, m, o, {t});
    OthersStillTwice(k, k1, Release(k1, m), o, t);
  }

  lemma {:induction false} ReleaseAllStill(k: KState, t: nat, n: nat, o: nat)
    requires Links(k, {t}, None) && t < |k.tcb| && n == |k.tcb[t].held| && !IsMutex(k.cfg, o)
    ensures OthersStill(k, ReleaseAll(k, t, n), o, t)
    decreases n
  {
    if n > 0 {
      var m := k.tcb[t].held[0];
      ReleaseFirstStill(k, t, m, o);
      ReleaseFirstOk(k, t, {t});
      var k2 := Release(Unhold(k, t, m), m);
      ReleaseAllStill(k2, t, n - 1, o);
      OthersStillTwice(k, k2, ReleaseAll(k, t, n), o, t);
    }
  }

  lemma RestUnions(k: KState, t: nat)
    ensures var k1 := MakeDormant(k, t);
            Unions(k, if TcbOf(k1, t).actque then MakeActive(QueueActivation(k1, t, false), t) else k1)
  {
    var k1 := MakeDormant(k, t);
    SetTcbUnions(k, t, TcbOf(k1, t));
    if TcbOf(k1, t).actque {
      var k2 := QueueActivation(k1, t, false);
      SetTcbUnions(k1, t, TcbOf(k2, t));
      MakeActiveUnions(k2, t);
      UnionsTwice(k, k1, k2);
      UnionsTwice(k, k2, MakeActive(k2, t));
    }
  }

  /** A task that ends serves nobody who waits for a semaphore. */
  lemma TerminateQuiet(k: KState, d: KState, t: nat, o: nat)
    requires Links(k, {}, None) && Links(d, {t}, None) && t < |k.tcb| && !IsMutex(d.cfg, o)
    requires d.tcb == k.tcb && |d.obj| == |k.obj| && ObjOf(d, o).semcnt == ObjOf(k, o).semcnt
    ensures Quiet(k, Terminate(d, t), o)
  {
    WaiterHasNoResult(k, o);
    var n := |d.tcb[t].held|;
    ReleaseAllOk(d, t, n, {t});
    ReleaseAllStill(d, t, n, o);
    var k1 := ReleaseAll(d, t, n);
    RestUnions(k1, t);
    var k' := Terminate(d, t);
    forall x | 0 <= x < |k.tcb| ensures !IsServed(k, k', o, x) {
      assert TcbOf(k', x).winfo == TcbOf(k1, x).winfo;
      if WaitsFor(k, x, o) && x != t { assert WaitsFor(d, x, o); }
    }
  }

  // ---- every step that is not about `o`

  lemma QuietDone(k: KState, k1: KState, k': KState, o: nat)
    requires Quiet(k, k1, o) && k'.tcb == k1.tcb && k'.obj == k1.obj
    ensures Quiet(k, k', o)
  {
    forall t | 0 <= t < |k.tcb| ensures !IsServed(k, k', o, t) {
      assert !IsServed(k, k1, o, t);
    }
  }

  lemma UnionsDone(k: KState, k1: KState, k': KState, o: nat)
    requires Links(k, {}, None) && Unions(k, k1) && k'.tcb == k1.tcb && k'.obj == k1.obj
    ensures Quiet(k, k', o)
  {
    UnionsQuiet(k, k1, o);
    QuietDone(k, k1, k', o);
  }

  lemma WakeupQuiet(k: KState, t: nat, o: nat)
    requires System(k) && t < |k.tcb|
    ensures Quiet(k, KernelCalls.ActTsk(k, t).k, o) && Quiet(k, KernelCalls.IactTsk(k, t).k, o)
    ensures Quiet(k, KernelCalls.WupTsk(k, t).k, o) && Quiet(k, KernelCalls.IwupTsk(k, t).k, o)
  {
    ActivationQuiet(k, t, o);
    if IsSleeping(k.tcb[t].tstat) {
      SleeperIsReleased(k, t, E_OK);
      ReleaseQuiet(k, t, E_OK, o);
      QuietDone(k, WaitComplete(k, t, E_OK), KernelCalls.WupTsk(k, t).k, o);
      QuietDone(k, WaitComplete(k, t, E_OK), KernelCalls.IwupTsk(k, t).k, o);
    } else {
      SetTcbUnions(k, t, k.tcb[t].(wupque := true));
      UnionsQuiet(k, QueueWakeup(k, t, true), o);
      UnionsQuiet(k, k, o);
    }
  }

  lemma ActivationQuiet(k: KState, t: nat, o: nat)
    requires System(k) && t < |k.tcb|
    ensures Quiet(k, KernelCalls.ActTsk(k, t).k, o) && Quiet(k, KernelCalls.IactTsk(k, t).k, o)
  {
    if k.tcb[t].tstat.Dormant? {
      MakeActiveUnions(k, t);
      UnionsDone(k, MakeActive(k, t), KernelCalls.ActTsk(k, t).k, o);
      UnionsDone(k, MakeActive(k, t), KernelCalls.IactTsk(k, t).k, o);
    } else {
      SetTcbUnions(k, t, k.tcb[t].(actque := true));
      UnionsQuiet(k, QueueActivation(k, t, true), o);
      UnionsQuiet(k, k, o);
    }
  }

  lemma ReleaseCallQuiet(k: KState, t: nat, o: nat)
    requires System(k) && t < |k.tcb|
    ensures Quiet(k, KernelCalls.RelWai(k, t).k, o) && Quiet(k, KernelCalls.IrelWai(k, t).k, o)
  {
    if k.tcb[t].tstat.Waiting? {
      ReleaseQuiet(k, t, E_RLWAI, o);
      QuietDone(k, WaitRelease(k, t, E_RLWAI), KernelCalls.RelWai(k, t).k, o);
      QuietDone(k, WaitRelease(k, t, E_RLWAI), KernelCalls.IrelWai(k, t).k, o);
    } else {
      UnionsQuiet(k, k, o);
    }
  }

  lemma EnterWaitQuiet(k: KState, cause: Cause, timeout: Option<nat>, o: nat)
    requires System(k) && InTask(k)
    ensures Quiet(k, Settle(EnterWait(k, k.runtsk.value, cause, timeout)), o)
  {
    var r := k.runtsk.value;
    var d := MakeNonRunnable(k, r);
    var a := Armed(d, r, cause, timeout);
    assert a.obj == k.obj && a.tcb == k.tcb[r := a.tcb[r]];
    if cause.OnObject? { JoinQueueUnions(a, r, cause.obj); }
    EnterWaitServes(k, a, EnterWait(k, r, cause, timeout), r, o);
    QuietDone(k, EnterWait(k, r, cause, timeout), Settle(EnterWait(k, r, cause, timeout)), o);
  }

  lemma EnterWaitServes(k: KState, a: KState, k': KState, r: nat, o: nat)
    requires Links(k, {}, None) && r < |k.tcb| && k.tcb[r].tstat.Runnable?
    requires a.obj == k.obj && |a.tcb| == |k.tcb| && a.tcb == k.tcb[r := a.tcb[r]] && (Unions(a, k') || k' == a)
    ensures Quiet(k, k', o)
  {
    WaiterHasNoResult(k, o);
    forall t | 0 <= t < |k.tcb| ensures !IsServed(k, k', o, t) {
      assert TcbOf(k', t).winfo == TcbOf(a, t).winfo;
    }
  }

  lemma SlpTskQuiet(k: KState, tmout: int, o: nat)
    requires System(k) && Enabled(k, SlpTsk(tmout))
    ensures Quiet(k, Perform(k, SlpTsk(tmout)).k, o)
  {
    var r := k.runtsk.value;
    if k.tcb[r].wupque {
      SetTcbUnions(k, r, k.tcb[r].(wupque := false));
      UnionsQuiet(k, QueueWakeup(k, r, false), o);
    } else if tmout == TMO_POL {
      UnionsQuiet(k, k, o);
    } else {
      EnterWaitQuiet(k, Sleep, TimeoutOf(tmout), o);
    }
  }

  lemma SuspendQuiet(k: KState, t: nat, o: nat)
    requires System(k) && t < |k.tcb|
    ensures Quiet(k, KernelCalls.SusTsk(k, t).k, o)
  {
    UnionsQuiet(k, k, o);
    match k.tcb[t].tstat
    case Runnable =>
      var k1 := SetState(k, t, Suspended);
      SetTcbUnions(k, t, k.tcb[t].(tstat := Suspended));
      MakeRunnableUnions(k1, t);
      UnionsDone(k, MakeNonRunnable(k1, t), Settle(MakeNonRunnable(k1, t)), o);
    case Waiting(c, false) =>
      SetTcbUnions(k, t, k.tcb[t].(tstat := Waiting(c, true)));
      UnionsQuiet(k, SetState(k, t, Waiting(c, true)), o);
    case _ =>
  }

  lemma ResumeQuiet(k: KState, t: nat, o: nat)
    requires System(k) && t < |k.tcb|
    ensures Quiet(k, KernelCalls.RsmTsk(k, t).k, o)
  {
    UnionsQuiet(k, k, o);
    match k.tcb[t].tstat
    case Suspended =>
      MakeActiveUnions(k, t);
      UnionsDone(k, MakeActive(k, t), Settle(MakeActive(k, t)), o);
    case Waiting(c, true) =>
      SetTcbUnions(k, t, k.tcb[t].(tstat := Waiting(c, false)));
      UnionsQuiet(k, SetState(k, t, Waiting(c, false)), o);
    case _ =>
  }

  lemma ExtTskQuiet(k: KState, o: nat)
    requires System(k) && Enabled(k, ExtTsk) && !IsMutex(k.cfg, o)
    ensures Quiet(k, Perform(k, ExtTsk).k, o)
  {
    var r := k.runtsk.value;
    var k1 := WithDispatch(k, false, true);
    FlagsOk(k, k1);
    DetachOk(k1, r);
    MakeRunnableUnions(k1, r);
    assert {} + {r} == {r};
    var d := MakeNonRunnable(k1, r);
    TerminateQuiet(k, d, r, o);
    QuietDone(k, Terminate(d, r), Settle(Terminate(d, r)), o);
  }

  lemma TerTskQuiet(k: KState, t: nat, o: nat)
    requires System(k) && Enabled(k, TerTsk(t)) && !IsMutex(k.cfg, o)
    ensures Quiet(k, Perform(k, TerTsk(t)).k, o)
  {
    if k.tcb[t].tstat.Dormant? {
      UnionsQuiet(k, k, o);
    } else {
      DetachOk(k, t);
      DetachEffect(k, t);
      LeaveQueueUnions(k, t);
      assert {} + {t} == {t};
      var d := Detach(k, t);
      assert |d.obj| == |k.obj| && ObjOf(d, o).semcnt == ObjOf(k, o).semcnt;
      TerminateQuiet(k, d, t, o);
      QuietDone(k, Terminate(d, t), Settle(Terminate(d, t)), o);
    }
  }

  lemma ChgPriQuiet(k: KState, t: nat, pri: nat, o: nat)
    requires System(k) && t < |k.tcb|
    ensures Quiet(k, KernelCalls.ChgPri(k, t, pri).k, o)
  {
    var k1 := SetTcb(k, t, k.tcb[t].(bpriority := pri));
    SetTcbUnions(k, t, k.tcb[t].(bpriority := pri));
    RepositionUnions(k1, t, Pri(k, t), false);
    var k2 := Reposition(k1, t, Pri(k, t), false);
    UnionsQuiet(k, k, o);
    UnionsQuiet(k, k1, o);
    UnionsDone(k, k2, Settle(k2), o);
  }

  lemma LocMtxQuiet(k: KState, m: nat, tmout: int, o: nat)
    requires System(k) && Enabled(k, LocMtx(m, tmout))
    ensures Quiet(k, Perform(k, LocMtx(m, tmout)).k, o)
  {
    var r := k.runtsk.value;
    if CeilingAllows(k.cfg, m, TcbOf(k, r).bpriority) && k.obj[m].loctsk.None? {
      AcquireUnions(k, r, m);
      UnionsQuiet(k, Acquire(k, r, m), o);
    } else {
      UnionsQuiet(k, k, o);
      EnterWaitQuiet(k, OnObject(m), TimeoutOf(tmout), o);
    }
  }

  lemma UnlMtxQuiet(k: KState, m: nat, o: nat)
    requires System(k) && Enabled(k, UnlMtx(m)) && !IsMutex(k.cfg, o)
    ensures Quiet(k, Perform(k, UnlMtx(m)).k, o)
  {
    var r := k.runtsk.value;
    if k.obj[m].loctsk == Some(r) {
      OwnerHolds(k, m);
      UnlockQuiet(k, r, m, o);
    } else {
      UnionsQuiet(k, k, o);
    }
  }

  lemma UnlockQuiet(k: KState, r: nat, m: nat, o: nat)
    requires System(k) && r < |k.tcb| && k.tcb[r].tstat.Runnable? && m in k.tcb[r].held && m < |k.obj| && IsMutex(k.cfg, m) && !IsMutex(k.cfg, o)
    ensures Quiet(k, Settle(Release(Adjust(Unhold(k, r, m), r, Pri(k, r)), m)), o)
  {
    DropOk(k, r, m);
    RepositionUnions(Unhold(k, r, m), r, Pri(k, r), true);
    var k1 := Adjust(Unhold(k, r, m), r, Pri(k, r));
    AdjustEffect(Unhold(k, r, m), r, Pri(k, r));
    assert Still(k, k1, o) by {
      assert k1.tcb == k.tcb[r := k1.tcb[r]] && ObjOf(k1, o).semcnt == ObjOf(k, o).semcnt;
    }
    ReleaseStill(k1, m, o, {});
    StillTwice(k, k1, Release(k1, m), o);
    StillQuiet(k, Release(k1, m), Settle(Release(k1, m)), o);
  }

  lemma IniMtxQuiet(k: KState, m: nat, o: nat)
    requires System(k) && Enabled(k, IniMtx(m)) && m != o
    ensures Quiet(k, Perform(k, IniMtx(m)).k, o)
  {
    InitQueueStill(k, m, |k.obj[m].waitQueue|, o);
    var k1 := InitQueue(k, m, |k.obj[m].waitQueue|);
    match ObjOf(k1, m).loctsk
    case None => StillQuiet(k, k1, Settle(k1), o);
    case Some(t) =>
      FreeUnions(k1, t, m);
      StillQuiet(k, k1, Settle(Adjust(SetOwner(Unhold(k1, t, m), m, None), t, Pri(k1, t))), o);
  }

  lemma FreeUnions(k: KState, t: nat, m: nat)
    ensures Unions(k, Adjust(SetOwner(Unhold(k, t, m), m, None), t, Pri(k, t)))
  {
    var k1 := Unhold(k, t, m);
    var k2 := SetOwner(k1, m, None);
    SetTcbUnions(k, t, TcbOf(k, t).(held := Remove(TcbOf(k, t).held, m)));
    SetOwnerUnions(k1, m, None);
    RepositionUnions(k2, t, Pri(k, t), true);
    UnionsTwice(k, k1, k2);
    UnionsTwice(k, k2, Adjust(k2, t, Pri(k, t)));
  }

  lemma UnionsTwice(k: KState, k1: KState, k2: KState)
    requires Unions(k, k1) && Unions(k1, k2)
    ensures Unions(k, k2)
  {
    forall t: nat ensures TcbOf(k2, t).winfo == TcbOf(k, t).winfo {
      assert TcbOf(k1, t).winfo == TcbOf(k, t).winfo;
    }
    forall o: nat ensures ObjOf(k2, o).semcnt == ObjOf(k, o).semcnt {
      assert ObjOf(k1, o).semcnt == ObjOf(k, o).semcnt;
    }
  }

  lemma FireQuiet(k: KState, e: TMEVTB, o: nat)
    requires System(k) && Enabled(k, Fire(e))
    ensures Quiet(k, FireEvent(k, e), o)
  {
    assert KnownEvent(k, e);
    WaiterHasNoResult(k, o);
    UnionsQuiet(k, k, o);
    match e
    case TaskTimeout(t) =>
      assert TaskLinked(k, t, {}, None);
      TimeoutQuiet(k, WithTimer(k, Dequeue(k.tm, e)), t, o);
    case CyclicEvent(c) => QuietDone(k, k, FireEvent(k, e), o);
    case AlarmEvent(a) => QuietDone(k, k, FireEvent(k, e), o);
  }

  lemma TimeoutQuiet(k: KState, k1: KState, t: nat, o: nat)
    requires System(k) && t < |k.tcb| && k1 == WithTimer(k, k1.tm) && k.tcb[t].tstat.Waiting?
    ensures Quiet(k, if IsDelayed(TcbOf(k1, t).tstat) then Request(k1, EndWait(k1, t, E_OK))
                     else Request(k1, EndWait(LeaveQueue(k1, t), t, E_TMOUT)), o)
  {
    WaiterHasNoResult(k, o);
    if IsDelayed(k.tcb[t].tstat) {
      EndWaitStill(k1, t, E_OK, o);
      StillQuiet(k, EndWait(k1, t, E_OK), Request(k1, EndWait(k1, t, E_OK)), o);
    } else {
      TimeoutRest(k, k1, t, o);
    }
  }

  lemma TimeoutRest(k: KState, k1: KState, t: nat, o: nat)
    requires System(k) && t < |k.tcb| && k1 == WithTimer(k, k1.tm) && k.tcb[t].tstat.Waiting?
    ensures Quiet(k, Request(k1, EndWait(LeaveQueue(k1, t), t, E_TMOUT)), o)
  {
    var d := LeaveQueue(k1, t);
    LeaveQueueUnions(k1, t);
    WaitCompleteObj(d, t, E_TMOUT);
    EndWaitEffect(d, t, E_TMOUT);
    WaiterHasNoResult(k, o);
    forall x | 0 <= x < |k.tcb| ensures !IsServed(k, EndWait(d, t, E_TMOUT), o, x) {
    }
    QuietDone(k, EndWait(d, t, E_TMOUT), Request(k1, EndWait(d, t, E_TMOUT)), o);
  }

  lemma OtherSignalQuiet(k: KState, o2: nat, o: nat)
    requires System(k) && IsSemaphore(k.cfg, o2) && o2 != o
    ensures Quiet(k, KernelCalls.SigSem(k, o2).k, o) && Quiet(k, KernelCalls.IsigSem(k, o2).k, o)
  {
    UnionsQuiet(k, k, o);
    if k.obj[o2].waitQueue != [] {
      FirstLeaves(k, o2, {}, None);
      ReleaseQuiet(k, k.obj[o2].waitQueue[0], E_OK, o);
      QuietDone(k, WakeFirst(k, o2), KernelCalls.SigSem(k, o2).k, o);
      QuietDone(k, WakeFirst(k, o2), KernelCalls.IsigSem(k, o2).k, o);
    } else {
      CountQuiet(k, o2, k.obj[o2].semcnt + 1, o);
    }
  }

  lemma CountServes(k: KState, o2: nat, n: nat, o: nat)
    requires Links(k, {}, None)
    ensures Served(k, SetCount(k, o2, n), o) == {}
  {
    WaiterHasNoResult(k, o);
  }

  lemma CountQuiet(k: KState, o2: nat, n: nat, o: nat)
    requires Links(k, {}, None) && o2 != o
    ensures Quiet(k, SetCount(k, o2, n), o)
  {
    WaiterHasNoResult(k, o);
  }

  lemma OtherWaitQuiet(k: KState, o2: nat, tmout: int, o: nat)
    requires System(k) && Enabled(k, WaiSem(o2, tmout)) && o2 != o
    ensures Quiet(k, Perform(k, WaiSem(o2, tmout)).k, o)
  {
    UnionsQuiet(k, k, o);
    if k.obj[o2].semcnt >= 1 {
      CountQuiet(k, o2, k.obj[o2].semcnt - 1, o);
    } else {
      EnterWaitQuiet(k, OnObject(o2), TimeoutOf(tmout), o);
    }
  }

  lemma OtherInitQuiet(k: KState, o2: nat, o: nat)
    requires System(k) && Enabled(k, IniSem(o2)) && o2 != o
    ensures Quiet(k, Perform(k, IniSem(o2)).k, o)
  {
    InitQueueStill(k, o2, |k.obj[o2].waitQueue|, o);
    var k1 := InitQueue(k, o2, |k.obj[o2].waitQueue|);
    var k2 := SetCount(k1, o2, IsemCnt(k1.cfg, o2));
    assert Still(k1, k2, o);
    StillTwice(k, k1, k2, o);
    StillQuiet(k, k2, Settle(k2), o);
  }

  /** Ending the wait of a task that waits for something else. */
  lemma ReleaseOtherStill(k: KState, t: nat, ercd: ER, o: nat)
    requires t < |k.tcb| && k.tcb[t].tstat.Waiting? && !WaitsFor(k, t, o)
    ensures Still(k, WaitRelease(k, t, ercd), o)
  {
    LeaveQueueUnions(k, t);
    LeaveQueueEffect(k, t);
    WaitCompleteEffect(LeaveQueue(k, t), t, ercd);
    assert ObjOf(LeaveQueue(k, t), o).semcnt == ObjOf(k, o).semcnt;
  }

  lemma {:induction false} WakeAllStill(k: KState, o2: nat, ts: seq<nat>, o: nat)
    requires Links(k, {}, None) && CanWake(k, o2, ts) && o2 != o
    ensures Still(k, WakeAll(k, ts), o)
    decreases |ts|
  {
    if ts != [] {
      assert ts[0] in ts;
      var k1 := WaitRelease(k, ts[0], E_OK);
      WakeOneOk(k, o2, ts);
      ReleaseOtherStill(k, ts[0], E_OK, o);
      WakeAllStill(k1, o2, ts[1..], o);
      StillTwice(k, k1, WakeAll(k1, ts[1..]), o);
    }
  }

  lemma WaitCallQuiet(k: KState, c: Call, o: nat)
    requires System(k) && Enabled(k, c) && IsWaitCall(c) && IsSemaphore(k.cfg, o)
    ensures Quiet(k, Perform(k, c).k, o)
  {
    match c
    case WaitOther(o2, tmout) => EnterWaitQuiet(k, OnObject(o2), TimeoutOf(tmout), o);
    case WakeOther(o2, ts) =>
      WakeAllStill(k, o2, ts, o);
      StillQuiet(k, WakeAll(k, ts), Settle(WakeAll(k, ts)), o);
    case IwakeOther(o2, ts) =>
      WakeAllStill(k, o2, ts, o);
      StillQuiet(k, WakeAll(k, ts), Request(k, WakeAll(k, ts)), o);
    case IniOther(o2) =>
      InitQueueStill(k, o2, |k.obj[o2].waitQueue|, o);
      var k1 := InitQueue(k, o2, |k.obj[o2].waitQueue|);
      StillQuiet(k, k1, Settle(k1), o);
  }

  // ---- conservation

  ghost predicate Conserves(k: KState, c: Call, o: nat)
    requires Enabled(k, c)
  {
    ObjOf(Perform(k, c).k, o).semcnt + Taken(k, c, o) == ObjOf(k, o).semcnt + Returned(k, c, o)
  }

  lemma SignalWakes(k: KState, c: Call, o: nat)
    requires Enabled(k, c) && (c == SigSem(o) || c == IsigSem(o)) && o < |k.obj| && k.obj[o].waitQueue != []
    ensures Perform(k, c).ercd == E_OK && Perform(k, c).k.tcb == WakeFirst(k, o).tcb
    ensures Perform(k, c).k.obj == WakeFirst(k, o).obj
  {
    FirstWakes(k, o);
    assert Perform(k, c) == if c.SigSem? then KernelCalls.SigSem(k, o) else KernelCalls.IsigSem(k, o);
  }

  lemma FirstWakes(k: KState, o: nat)
    requires o < |k.obj| && k.obj[o].waitQueue != []
    ensures KernelCalls.SigSem(k, o).ercd == E_OK && SameTasks(WakeFirst(k, o), KernelCalls.SigSem(k, o).k)
    ensures KernelCalls.IsigSem(k, o).ercd == E_OK && SameTasks(WakeFirst(k, o), KernelCalls.IsigSem(k, o).k)
  {
  }

  /** A signal goes to the first waiter, or to the count. */
  lemma SignalConserves(k: KState, c: Call, o: nat)
    requires System(k) && Enabled(k, c) && (c == SigSem(o) || c == IsigSem(o))
    ensures Conserves(k, c, o)
  {
    if k.obj[o].waitQueue != [] {
      SignalServes(k, o);
      SignalWakes(k, c, o);
      SameServed(k, WakeFirst(k, o), Perform(k, c).k, o);
    } else {
      SignalCounts(k, c, o);
    }
  }

  lemma SignalCounts(k: KState, c: Call, o: nat)
    requires System(k) && Enabled(k, c) && (c == SigSem(o) || c == IsigSem(o)) && k.obj[o].waitQueue == []
    ensures Conserves(k, c, o)
  {
    if k.obj[o].semcnt < MaxSem(k.cfg, o) {
      CountServes(k, o, k.obj[o].semcnt + 1, o);
    } else {
      UnionsQuiet(k, k, o);
      QuietServesNobody(k, k, o);
    }
  }

  lemma SameServed(k: KState, k1: KState, k': KState, o: nat)
    requires k'.tcb == k1.tcb
    ensures Served(k, k', o) == Served(k, k1, o)
  {
    assert forall t: nat :: TcbOf(k', t) == TcbOf(k1, t);
  }

  lemma SignalServes(k: KState, o: nat)
    requires System(k) && o < |k.obj| && k.obj[o].waitQueue != []
    ensures Served(k, WakeFirst(k, o), o) == {k.obj[o].waitQueue[0]}
    ensures ObjOf(WakeFirst(k, o), o).semcnt == k.obj[o].semcnt
  {
    var t := k.obj[o].waitQueue[0];
    FirstLeaves(k, o, {}, None);
    WaiterHasNoResult(k, o);
    var k1 := LeaveQueue(k, t);
    LeaveQueueUnions(k, t);
    WaitCompleteEffect(k1, t, E_OK);
    WaitCompleteObj(k1, t, E_OK);
    assert IsServed(k, WakeFirst(k, o), o, t);
  }

  lemma WaitConserves(k: KState, o: nat, tmout: int)
    requires System(k) && Enabled(k, WaiSem(o, tmout))
    ensures Conserves(k, WaiSem(o, tmout), o)
  {
    if k.obj[o].semcnt >= 1 {
      CountServes(k, o, k.obj[o].semcnt - 1, o);
    } else if tmout == TMO_POL {
      UnionsQuiet(k, k, o);
      QuietServesNobody(k, k, o);
    } else {
      EnterWaitQuiet(k, OnObject(o), TimeoutOf(tmout), o);
      QuietServesNobody(k, Settle(EnterWait(k, k.runtsk.value, OnObject(o), TimeoutOf(tmout))), o);
    }
  }

  predicate About(c: Call, o: nat) {
    c == SigSem(o) || c == IsigSem(o) || c == IniSem(o) || (c.WaiSem? && c.obj == o)
  }

  lemma TaskCallQuiet(k: KState, c: Call, o: nat)
    requires System(k) && Enabled(k, c) && IsTaskCall(c) && !IsMutex(k.cfg, o)
    ensures Quiet(k, Perform(k, c).k, o)
  {
    match c
    case ActTsk(t) => WakeupQuiet(k, t, o);
    case IactTsk(t) => WakeupQuiet(k, t, o);
    case ExtTsk => ExtTskQuiet(k, o);
    case TerTsk(t) => TerTskQuiet(k, t, o);
    case ChgPri(t, pri) => ChgPriQuiet(k, t, pri, o);
    case SlpTsk(tmout) => SlpTskQuiet(k, tmout, o);
    case WupTsk(t) => WakeupQuiet(k, t, o);
    case IwupTsk(t) => WakeupQuiet(k, t, o);
    case RelWai(t) => ReleaseCallQuiet(k, t, o);
    case IrelWai(t) => ReleaseCallQuiet(k, t, o);
    case SusTsk(t) => SuspendQuiet(k, t, o);
    case RsmTsk(t) => ResumeQuiet(k, t, o);
    case DlyTsk(time) => EnterWaitQuiet(k, Delay, Some(time), o);
    case _ =>
  }

  lemma ObjectCallQuiet(k: KState, c: Call, o: nat)
    requires System(k) && Enabled(k, c) && IsObjectCall(c) && IsSemaphore(k.cfg, o) && !About(c, o) && !IsHandlerCall(c)
    ensures Quiet(k, Perform(k, c).k, o)
  {
    match c
    case LocMtx(m, tmout) => LocMtxQuiet(k, m, tmout, o);
    case UnlMtx(m) => UnlMtxQuiet(k, m, o);
    case IniMtx(m) => IniMtxQuiet(k, m, o);
    case SigSem(o2) => OtherSignalQuiet(k, o2, o);
    case IsigSem(o2) => OtherSignalQuiet(k, o2, o);
    case WaiSem(o2, tmout) => OtherWaitQuiet(k, o2, tmout, o);
    case IniSem(o2) => OtherInitQuiet(k, o2, o);
    case _ =>
  }

  predicate IsHandlerCall(c: Call) { c.StaCyc? || c.StpCyc? || c.StaAlm? || c.StpAlm? }

  /** A step that touches neither task nor object. */
  lemma ApartQuiet(k: KState, k': KState, o: nat)
    requires System(k) && k'.tcb == k.tcb && k'.obj == k.obj
    ensures Quiet(k, k', o)
  {
    UnionsQuiet(k, k, o);
    QuietDone(k, k, k', o);
  }

  lemma HandlerCallQuiet(k: KState, c: Call, o: nat)
    requires System(k) && Enabled(k, c) && IsHandlerCall(c)
    ensures Quiet(k, Perform(k, c).k, o)
  {
    ApartQuiet(k, Perform(k, c).k, o);
  }

  ghost predicate SameTasks(k: KState, k': KState) { k'.tcb == k.tcb && k'.obj == k.obj }

  lemma RotateKeepsTasks(k: KState, pri: nat)
    ensures SameTasks(k, KernelCalls.RotRdq(k, pri).k) && SameTasks(k, KernelCalls.IrotRdq(k, pri).k)
  {
  }

  lemma SwitchKeepsTasks(k: KState, all: bool)
    ensures SameTasks(k, KernelCalls.EnaDsp(k).k) && SameTasks(k, KernelCalls.DisDsp(k).k)
    ensures SameTasks(k, KernelCalls.ChgIpm(k, all).k) && SameTasks(k, KernelCalls.IntExit(k))
  {
  }

  lemma PlainKeepsTasks(k: KState, c: Call)
    requires Enabled(k, c) && IsPlainCall(c) && !c.Fire?
    ensures Perform(k, c).k.tcb == k.tcb && Perform(k, c).k.obj == k.obj
  {
    match c
    case RotRdq(pri) => RotateKeepsTasks(k, pri);
    case IrotRdq(pri) => RotateKeepsTasks(k, pri);
    case EnaDsp => SwitchKeepsTasks(k, true);
    case ChgIpm(all) => SwitchKeepsTasks(k, all);
    case DisDsp => SwitchKeepsTasks(k, true);
    case IntExit => SwitchKeepsTasks(k, true);
    case _ =>
  }

  lemma PlainCallQuiet(k: KState, c: Call, o: nat)
    requires System(k) && Enabled(k, c) && IsPlainCall(c)
    ensures Quiet(k, Perform(k, c).k, o)
  {
    if c.Fire? {
      FireQuiet(k, c.event, o);
    } else {
      PlainKeepsTasks(k, c);
      ApartQuiet(k, Perform(k, c).k, o);
    }
  }

  lemma OtherCallQuiet(k: KState, c: Call, o: nat)
    requires System(k) && Enabled(k, c) && IsSemaphore(k.cfg, o) && !About(c, o)
    ensures Quiet(k, Perform(k, c).k, o)
  {
    if IsTaskCall(c) {
      TaskCallQuiet(k, c, o);
    } else if IsHandlerCall(c) {
      HandlerCallQuiet(k, c, o);
    } else if IsObjectCall(c) {
      ObjectCallQuiet(k, c, o);
    } else if IsWaitCall(c) {
      WaitCallQuiet(k, c, o);
    } else {
      PlainCallQuiet(k, c, o);
    }
  }

  /** Every step but the one that sets the semaphore back keeps its resources. */
  lemma StepConserves(k: KState, c: Call, o: nat)
    requires System(k) && Enabled(k, c) && IsSemaphore(k.cfg, o) && c != IniSem(o)
    ensures Conserves(k, c, o)
  {
    if c == SigSem(o) || c == IsigSem(o) {
      SignalConserves(k, c, o);
    } else if c.WaiSem? && c.obj == o {
      WaitConserves(k, o, c.tmout);
    } else {
      OtherCallQuiet(k, c, o);
      QuietServesNobody(k, Perform(k, c).k, o);
    }
  }

  ghost function AllTaken(k: KState, calls: seq<Call>, o: nat): nat
    requires CanRun(k, calls)
    decreases |calls|
  {
    if calls == [] then 0 else Taken(k, calls[0], o) + AllTaken(Perform(k, calls[0]).k, calls[1..], o)
  }

  ghost function AllReturned(k: KState, calls: seq<Call>, o: nat): nat
    requires CanRun(k, calls)
    decreases |calls|
  {
    if calls == [] then 0 else Returned(k, calls[0], o) + AllReturned(Perform(k, calls[0]).k, calls[1..], o)
  }

  lemma {:induction false} RunConserves(k: KState, calls: seq<Call>, o: nat)
    requires System(k) && CanRun(k, calls) && IsSemaphore(k.cfg, o) && IniSem(o) !in calls
    ensures ObjOf(After(k, calls), o).semcnt + AllTaken(k, calls, o) == ObjOf(k, o).semcnt + AllReturned(k, calls, o)
    decreases |calls|
  {
    if calls != [] {
      assert calls[0] in calls;
      var k1 := Perform(k, calls[0]).k;
      StepOk(k, calls[0]);
      StepConserves(k, calls[0], o);
      RunConserves(k1, calls[1..], o);
    }
  }

  /** From the start of the kernel: what is there and what was taken is the initial count and
      what was returned; the count keeps its bounds, and only an exhausted semaphore is
      waited for. */
  lemma Conservation(cfg: Config, tick: Tick, act: seq<nat>, sta: seq<nat>, calls: seq<Call>, k: KState, o: nat)
    requires IsRun(cfg, tick, act, sta, calls, k) && IsSemaphore(cfg, o) && IniSem(o) !in calls
    ensures ObjOf(k, o).semcnt + AllTaken(Boot(cfg, tick, act, sta), calls, o)
            == IsemCnt(cfg, o) + AllReturned(Boot(cfg, tick, act, sta), calls, o)
    ensures ObjOf(k, o).semcnt <= MaxSem(cfg, o)
    ensures ObjOf(k, o).waitQueue != [] ==> ObjOf(k, o).semcnt == 0
  {
    var b := Boot(cfg, tick, act, sta);
    BootOk(cfg, tick, act, sta);
    BootCounts(cfg, tick, act, sta, o);
    RunConserves(b, calls, o);
    RunOk(b, calls);
    assert ObjLinked(k, o, {}, None) && OwnerOk(k, o);
  }

  lemma BootCounts(cfg: Config, tick: Tick, act: seq<nat>, sta: seq<nat>, o: nat)
    requires ValidConfig(cfg) && ValidTick(tick) && NoDup(act) && IsSemaphore(cfg, o)
    requires (forall t :: t in act ==> t < |cfg.ipriority|) && (forall c :: c in sta ==> c < |cfg.cyclics|)
    ensures ObjOf(Boot(cfg, tick, act, sta), o).semcnt == IsemCnt(cfg, o) && Boot(cfg, tick, act, sta).cfg == cfg
  {
    var k := Reset(cfg, tick);
    ResetOk(cfg, tick);
    ActivateAllOk(k, act);
    ActivateAllUnions(k, act);
    assert k.obj[o].semcnt == IsemCnt(cfg, o);
    assert ObjOf(ActivateAll(k, act), o).semcnt == ObjOf(k, o).semcnt;
    StartAllOk(ActivateAll(k, act), sta);
  }

  lemma {:induction false} ActivateAllUnions(k: KState, act: seq<nat>)
    ensures Unions(k, ActivateAll(k, act))
    decreases |act|
  {
    if act != [] {
      MakeActiveUnions(k, act[0]);
      ActivateAllUnions(MakeActive(k, act[0]), act[1..]);
    }
  }
}
