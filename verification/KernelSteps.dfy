/** The internal operations of the kernel keep every link: waits beginning and ending,
    priorities changing, mutexes changing hands. */
module KernelSteps {
  import opened Prelude
  import opened EventTime
  import opened Timer
  import opened KernelState
  import opened KernelCalls
  import opened KernelInv

  lemma HeldAllows(k: KState, t: nat, lt: set<nat>, lm: Option<nat>)
    requires Links(k, lt, lm) && t < |k.tcb|
    ensures k.tcb[t].bpriority < TNUM_TPRI
    ensures forall m :: m in k.tcb[t].held ==> m < |k.obj| && CeilingAllows(k.cfg, m, k.tcb[t].bpriority)
  {
    assert TaskLinked(k, t, lt, lm);
    forall m | m in k.tcb[t].held ensures m < |k.obj| && CeilingAllows(k.cfg, m, k.tcb[t].bpriority) {
      assert HeldOk(k, t, m);
    }
  }

  // ---- ending a wait

  lemma MakeNonWaitOk(k: KState, t: nat, lt: set<nat>, lm: Option<nat>)
    requires Links(k, lt + {t}, lm) && t !in lt && t < |k.tcb|
    requires k.tcb[t].tstat.Waiting? && TaskTimeout(t) !in k.tm.pending
    ensures Links(MakeNonWait(k, t), lt, lm)
  {
    if k.tcb[t].tstat.suspended {
      HeldAllows(k, t, lt + {t}, lm);
      ChangeLoose(k, t, k.tcb[t].(tstat := Suspended), lt + {t}, lm);
      AttachIdle(SetState(k, t, Suspended), t, lt, lm);
    } else {
      BecomesRunnable(k, t, lt, lm);
    }
  }

  lemma BecomesRunnable(k: KState, t: nat, lt: set<nat>, lm: Option<nat>)
    requires Links(k, lt + {t}, lm) && t !in lt && t < |k.tcb|
    requires k.tcb[t].tstat.Waiting? && !k.tcb[t].tstat.suspended && TaskTimeout(t) !in k.tm.pending
    ensures Links(MakeRunnable(SetState(k, t, Runnable), t), lt, lm)
  {
    HeldAllows(k, t, lt + {t}, lm);
    ChangeLoose(k, t, k.tcb[t].(tstat := Runnable), lt + {t}, lm);
    var k1 := SetState(k, t, Runnable);
    assert TaskLinked(k1, t, lt + {t}, lm);
    PriInRange(k1, t, lt + {t}, lm);
    AttachReady(k1, t, k1.ready[Pri(k1, t)] + [t], lt, lm);
  }

  lemma EndWaitOk(k: KState, t: nat, ercd: ER, lt: set<nat>, lm: Option<nat>)
    requires Links(k, lt + {t}, lm) && t !in lt && t < |k.tcb|
    requires k.tcb[t].tstat.Waiting? && TaskTimeout(t) !in k.tm.pending
    ensures Links(EndWait(k, t, ercd), lt, lm)
  {
    HeldAllows(k, t, lt + {t}, lm);
    ChangeLoose(k, t, k.tcb[t].(winfo := Wercd(ercd)), lt + {t}, lm);
    MakeNonWaitOk(SetWinfo(k, t, Wercd(ercd)), t, lt, lm);
  }

  lemma StopTimeoutOk(k: KState, t: nat, lt: set<nat>, lm: Option<nat>)
    requires Links(k, lt, lm) && t in lt && t < |k.tcb| && k.tcb[t].tstat.Waiting?
    requires TaskTimeout(t) in k.tm.pending <==> IsTimed(k.tcb[t])
    ensures Links(DequeueTimeout(k, t), lt, lm)
    ensures TaskTimeout(t) !in DequeueTimeout(k, t).tm.pending
    ensures DequeueTimeout(k, t) == k.(tm := Dequeue(k.tm, TaskTimeout(t)))
  {
    if k.tcb[t].winfo == Tmevtb(true) {
      DequeueOk(k.tm, TaskTimeout(t));
      ChangeTimer(k, t, Dequeue(k.tm, TaskTimeout(t)), lt, lm);
    } else {
      assert Dequeue(k.tm, TaskTimeout(t)).pending == k.tm.pending;
    }
  }

  lemma WaitCompleteOk(k: KState, t: nat, ercd: ER, lt: set<nat>, lm: Option<nat>)
    requires Links(k, lt + {t}, lm) && t !in lt && t < |k.tcb| && k.tcb[t].tstat.Waiting?
    requires TaskTimeout(t) in k.tm.pending <==> IsTimed(k.tcb[t])
    ensures Links(WaitComplete(k, t, ercd), lt, lm)
  {
    StopTimeoutOk(k, t, lt + {t}, lm);
    EndWaitOk(DequeueTimeout(k, t), t, ercd, lt, lm);
  }

  lemma WaitReleaseOk(k: KState, t: nat, ercd: ER, lt: set<nat>, lm: Option<nat>)
    requires Links(k, lt, lm) && t !in lt && t < |k.tcb| && k.tcb[t].tstat.Waiting?
    ensures Links(WaitRelease(k, t, ercd), lt, lm)
  {
    assert TaskLinked(k, t, lt, lm) && Attached(k, t);
    DetachWait(k, t, lt, lm);
    WaitCompleteOk(LeaveQueue(k, t), t, ercd, lt, lm);
  }

  /** Taking the first task out of a queue is taking that task out of what it waits for. */
  lemma FirstLeaves(k: KState, o: nat, lt: set<nat>, lm: Option<nat>)
    requires Links(k, lt, lm) && o < |k.obj| && k.obj[o].waitQueue != []
    ensures var t := k.obj[o].waitQueue[0];
            && t < |k.tcb| && t !in lt && WaitsFor(k, t, o)
            && LeaveQueue(k, t) == SetQueue(k, o, k.obj[o].waitQueue[1..])
  {
    var t := k.obj[o].waitQueue[0];
    assert ObjLinked(k, o, lt, lm);
    assert t in k.obj[o].waitQueue;
    assert InWait(k, o, t, lt);
  }

  /** Apart from queues and task states, `k'` is like `k`; nobody who could run is stopped. */
  ghost predicate OnlyReleases(k: KState, k': KState) {
    && k'.cfg == k.cfg && |k'.tcb| == |k.tcb|
    && k'.runtsk == k.runtsk && k'.disdsp == k.disdsp && k'.ipmflg == k.ipmflg
    && k'.reqflg == k.reqflg && k'.inInt == k.inInt
    && k'.cycsta == k.cycsta && k'.almsta == k.almsta
    && k'.tm.ticking == k.tm.ticking
    && forall x :: 0 <= x < |k.tcb| ==> Undisturbed(k, k', x)
  }

  ghost predicate Undisturbed(k: KState, k': KState, x: nat)
    requires x < |k.tcb| == |k'.tcb|
  {
    && (k.tcb[x].tstat.Runnable? ==> k'.tcb[x].tstat.Runnable?)
    && k'.tcb[x].bpriority == k.tcb[x].bpriority
    && k'.tcb[x].held == k.tcb[x].held
  }

  function AfterWait(s: TaskState): TaskState { if IsSuspended(s) then Suspended else Runnable }

  /** What the end of a wait does, apart from the ready queue. */
  lemma MakeNonWaitEffect(k: KState, t: nat)
    requires t < |k.tcb|
    ensures var k' := MakeNonWait(k, t);
            k' == k.(tcb := k.tcb[t := k.tcb[t].(tstat := AfterWait(k.tcb[t].tstat))], ready := k'.ready)
  {
  }

  lemma EndWaitEffect(k: KState, t: nat, ercd: ER)
    requires t < |k.tcb|
    ensures var k' := EndWait(k, t, ercd);
            k' == k.(tcb := k.tcb[t := k.tcb[t].(winfo := Wercd(ercd), tstat := AfterWait(k.tcb[t].tstat))],
                     ready := k'.ready)
  {
    MakeNonWaitEffect(SetWinfo(k, t, Wercd(ercd)), t);
  }

  lemma WaitCompleteEffect(k: KState, t: nat, ercd: ER)
    requires t < |k.tcb|
    ensures var k' := WaitComplete(k, t, ercd);
            && k' == k.(tcb := k.tcb[t := k.tcb[t].(winfo := Wercd(ercd), tstat := AfterWait(k.tcb[t].tstat))],
                        ready := k'.ready, tm := k'.tm)
            && k'.tm == k.tm.(pending := k'.tm.pending)
  {
    EndWaitEffect(DequeueTimeout(k, t), t, ercd);
  }

  lemma WaitCompleteOnlyReleases(k: KState, t: nat, ercd: ER)
    requires t < |k.tcb| && k.tcb[t].tstat.Waiting?
    ensures OnlyReleases(k, WaitComplete(k, t, ercd)) && WaitComplete(k, t, ercd).obj == k.obj
  {
    WaitCompleteEffect(k, t, ercd);
    var k' := WaitComplete(k, t, ercd);
    forall x | 0 <= x < |k.tcb| ensures Undisturbed(k, k', x) {
    }
  }

  lemma OnlyReleasesTwice(k: KState, k1: KState, k2: KState)
    requires OnlyReleases(k, k1) && OnlyReleases(k1, k2)
    ensures OnlyReleases(k, k2)
  {
    forall x | 0 <= x < |k.tcb| ensures Undisturbed(k, k2, x) {
      assert Undisturbed(k, k1, x) && Undisturbed(k1, k2, x);
    }
  }

  lemma {:induction false} InitQueueOk(k: KState, o: nat, n: nat, lt: set<nat>, lm: Option<nat>)
    requires Links(k, lt, lm) && o < |k.obj| && n == |k.obj[o].waitQueue|
    ensures Links(InitQueue(k, o, n), lt, lm)
    ensures OnlyReleases(k, InitQueue(k, o, n))
    ensures InitQueue(k, o, n).obj == k.obj[o := k.obj[o].(waitQueue := [])]
    decreases n
  {
    if n == 0 {
      assert k.obj[o].(waitQueue := []) == k.obj[o];
      assert k.obj == k.obj[o := k.obj[o]];
      forall x | 0 <= x < |k.tcb| ensures Undisturbed(k, k, x) {
      }
    } else {
      var t := k.obj[o].waitQueue[0];
      FirstLeaves(k, o, lt, lm);
      WaitReleaseOk(k, t, E_DLT, lt, lm);
      var k0 := LeaveQueue(k, t);
      var k1 := WaitComplete(k0, t, E_DLT);
      WaitCompleteOnlyReleases(k0, t, E_DLT);
      InitQueueOk(k1, o, n - 1, lt, lm);
      var k' := InitQueue(k1, o, n - 1);
      assert InitQueue(k, o, n) == k';
      OnlyReleasesTwice(k0, k1, k');
      SameTasksOnlyReleases(k, k0, k');
    }
  }

  lemma SameTasksOnlyReleases(k: KState, k0: KState, k': KState)
    requires OnlyReleases(k0, k') && k0 == k.(obj := k0.obj)
    ensures OnlyReleases(k, k')
  {
    forall x | 0 <= x < |k.tcb| ensures Undisturbed(k, k', x) {
      assert Undisturbed(k0, k', x);
    }
  }

  // ---- beginning a wait

  lemma ArmedOk(d: KState, r: nat, cause: Cause, timeout: Option<nat>, lt: set<nat>)
    requires Links(d, lt, None) && r in lt && r < |d.tcb| && TaskTimeout(r) !in d.tm.pending
    requires timeout.Some? ==> timeout.value <= TMAX_RELTIM
    ensures Links(Armed(d, r, cause, timeout), lt, None)
  {
    HeldAllows(d, r, lt, None);
    assert TaskLinked(d, r, lt, None);
    var b := d.tcb[r].(tstat := Waiting(cause, false), winfo := Tmevtb(timeout.Some?));
    ChangeLoose(d, r, b, lt, None);
    if timeout.Some? {
      EnqueueOk(d.tm, TaskTimeout(r), timeout.value);
      ChangeTimer(SetTcb(d, r, b), r, Enqueue(d.tm, TaskTimeout(r), timeout.value), lt, None);
    }
  }

  /** A runnable task that may wait does so without disturbing any link. */
  lemma EnterWaitOk(k: KState, r: nat, cause: Cause, timeout: Option<nat>)
    requires Links(k, {}, None) && r < |k.tcb| && k.tcb[r].tstat.Runnable?
    requires timeout.Some? ==> timeout.value <= TMAX_RELTIM
    requires cause.Delay? ==> timeout.Some?
    requires cause.OnObject? ==> cause.obj < |k.obj| && MayWait(k, r, cause.obj)
    ensures Links(EnterWait(k, r, cause, timeout), {}, None)
  {
    assert TaskLinked(k, r, {}, None) && Attached(k, r);
    DetachReady(k, r, {}, None);
    var d := MakeNonRunnable(k, r);
    ArmedOk(d, r, cause, timeout, {} + {r});
    if cause.OnObject? {
      AttachWait(Armed(d, r, cause, timeout), r, cause.obj, {}, None);
    } else {
      AttachIdle(Armed(d, r, cause, timeout), r, {}, None);
    }
  }
}
