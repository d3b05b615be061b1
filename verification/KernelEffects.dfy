/** What the service calls are for: what each does to the tasks and objects it is about,
    said of the states before and after and not of how the step is put together. */
module KernelEffects {
  import opened Prelude
  import opened Timer
  import opened KernelState
  import opened KernelCalls
  import opened KernelInv
  import opened KernelSteps
  import opened KernelPriority
  import opened KernelSystem
  import opened KernelRuns

  /** A call that reports an error changes nothing. */
  lemma ErrorsChangeNothing(k: KState, c: Call)
    requires Enabled(k, c) && Perform(k, c).ercd !in {E_OK, Blocked, NoReturn}
    ensures Perform(k, c).k == k
  {
    if IsTaskCall(c) { TaskErrorsChangeNothing(k, c); }
  }

  lemma TaskErrorsChangeNothing(k: KState, c: Call)
    requires Enabled(k, c) && IsTaskCall(c) && Perform(k, c).ercd !in {E_OK, Blocked, NoReturn}
    ensures Perform(k, c).k == k
  {
  }

  // ---- the end of a wait

  /** The wait of `t` is over with result `ercd`: the task can run, or is suspended if it was
      so already; it is in no wait queue, and its timeout is cancelled. */
  ghost predicate Ended(k: KState, k': KState, t: nat, ercd: ER)
    requires t < |k.tcb| == |k'.tcb|
  {
    && k.tcb[t].tstat.Waiting?
    && k'.tcb[t] == k.tcb[t].(winfo := Wercd(ercd), tstat := if k.tcb[t].tstat.suspended then Suspended else Runnable)
    && TaskTimeout(t) !in k'.tm.pending
    && forall o :: 0 <= o < |k'.obj| ==> t !in k'.obj[o].waitQueue
  }

  /** One wait ends, with `ercd`, and nothing else happens: the task, unless it is suspended,
      is last in the ready queue of its priority; it leaves the queue of what it waited for,
      and its timeout is cancelled.  Who runs then, or whether a dispatch is asked for, is left
      open. */
  ghost predicate OnlyEnds(k: KState, k': KState, t: nat, ercd: ER) {
    && t < |k.tcb| == |k'.tcb| && Ended(k, k', t, ercd)
    && (forall x :: 0 <= x < |k.tcb| && x != t ==> k'.tcb[x] == k.tcb[x])
    && Pri(k, t) < |k.ready|
    && k' == AfterEnd(k, t, ercd).(runtsk := k'.runtsk, reqflg := k'.reqflg)
  }

  function AfterEnd(k: KState, t: nat, ercd: ER): KState
    requires t < |k.tcb| && k.tcb[t].tstat.Waiting? && Pri(k, t) < |k.ready|
  {
    var b, p := k.tcb[t], Pri(k, t);
    k.(tcb := k.tcb[t := b.(winfo := Wercd(ercd), tstat := if b.tstat.suspended then Suspended else Runnable)],
       ready := if b.tstat.suspended then k.ready else k.ready[p := k.ready[p] + [t]],
       obj := LeftBy(k, t, b.tstat.cause),
       tm := k.tm.(pending := k.tm.pending - {TaskTimeout(t)}))
  }

  /** The objects once task `t` has left the queue it waits in. */
  function LeftBy(k: KState, t: nat, cause: Cause): seq<WOBJ> {
    if cause.OnObject? && cause.obj < |k.obj|
    then k.obj[cause.obj := k.obj[cause.obj].(waitQueue := Remove(k.obj[cause.obj].waitQueue, t))]
    else k.obj
  }

  lemma NotWaiting(k: KState, t: nat)
    requires Links(k, {}, None) && t < |k.tcb| && !k.tcb[t].tstat.Waiting?
    ensures TaskTimeout(t) !in k.tm.pending
    ensures forall o :: 0 <= o < |k.obj| ==> t !in k.obj[o].waitQueue
  {
    assert TaskLinked(k, t, {}, None) && Attached(k, t);
    forall o | 0 <= o < |k.obj| ensures t !in k.obj[o].waitQueue {
      QueuedWait(k, o);
    }
  }

  lemma QueuedWait(k: KState, o: nat)
    requires Links(k, {}, None) && o < |k.obj|
    ensures forall x :: x in k.obj[o].waitQueue ==> x < |k.tcb| && WaitsFor(k, x, o)
    ensures k.obj[o].waitQueue != [] ==> k.obj[o].waitQueue[0] < |k.tcb| && WaitsFor(k, k.obj[o].waitQueue[0], o)
  {
    assert ObjLinked(k, o, {}, None);
    assert k.obj[o].waitQueue != [] ==> k.obj[o].waitQueue[0] in k.obj[o].waitQueue;
    forall x | x in k.obj[o].waitQueue ensures x < |k.tcb| && WaitsFor(k, x, o) {
      assert InWait(k, o, x, {});
    }
  }

  lemma WaitReleaseEnds(k: KState, t: nat, ercd: ER)
    requires Links(k, {}, None) && t < |k.tcb| && k.tcb[t].tstat.Waiting?
    ensures OnlyEnds(k, WaitRelease(k, t, ercd), t, ercd)
  {
    ReleaseWaitOk(k, t, ercd);
    AttachedFacts(k, t, None);
    WaitReleaseIs(k, t, ercd);
    EndsOnly(k, WaitRelease(k, t, ercd), t, ercd);
  }

  lemma EndsOnly(k: KState, k': KState, t: nat, ercd: ER)
    requires t < |k.tcb| && k.tcb[t].tstat.Waiting? && Pri(k, t) < |k.ready| && Links(k', {}, None)
    requires k' == AfterEnd(k, t, ercd).(runtsk := k'.runtsk, reqflg := k'.reqflg)
    ensures OnlyEnds(k, k', t, ercd)
  {
    assert k'.tcb == k.tcb[t := k'.tcb[t]];
    NotWaiting(k', t);
  }

  lemma WaitReleaseIs(k: KState, t: nat, ercd: ER)
    requires t < |k.tcb| && k.tcb[t].tstat.Waiting? && Pri(k, t) < |k.ready|
    requires TaskTimeout(t) in k.tm.pending ==> k.tcb[t].winfo == Tmevtb(true)
    ensures WaitRelease(k, t, ercd) == AfterEnd(k, t, ercd)
  {
    LeavesAndCancels(k, t);
    var k1 := DequeueTimeout(LeaveQueue(k, t), t);
    assert k1.tcb == k.tcb && Pri(k1, t) == Pri(k, t);
    EndWaitIs(k1, t, ercd);
  }

  lemma LeavesAndCancels(k: KState, t: nat)
    requires t < |k.tcb| && k.tcb[t].tstat.Waiting? && (TaskTimeout(t) in k.tm.pending ==> k.tcb[t].winfo == Tmevtb(true))
    ensures LeaveQueue(k, t) == k.(obj := LeftBy(k, t, k.tcb[t].tstat.cause))
    ensures DequeueTimeout(LeaveQueue(k, t), t)
         == k.(obj := LeftBy(k, t, k.tcb[t].tstat.cause), tm := k.tm.(pending := k.tm.pending - {TaskTimeout(t)}))
  {
    var k1 := LeaveQueue(k, t);
    assert k1 == k.(obj := LeftBy(k, t, k.tcb[t].tstat.cause));
    if k.tcb[t].winfo != Tmevtb(true) { assert k.tm.pending - {TaskTimeout(t)} == k.tm.pending; }
  }

  lemma EndWaitIs(k: KState, t: nat, ercd: ER)
    requires t < |k.tcb| && k.tcb[t].tstat.Waiting? && Pri(k, t) < |k.ready|
    ensures EndWait(k, t, ercd)
         == k.(tcb := k.tcb[t := k.tcb[t].(winfo := Wercd(ercd), tstat := if k.tcb[t].tstat.suspended then Suspended else Runnable)],
               ready := if k.tcb[t].tstat.suspended then k.ready else k.ready[Pri(k, t) := k.ready[Pri(k, t)] + [t]])
  {
    EndWaitEffect(k, t, ercd);
    var k1 := SetState(SetWinfo(k, t, Wercd(ercd)), t, Runnable);
    assert Pri(k1, t) == Pri(k, t) && k1.ready == k.ready;
  }

  /** A forced release ends any wait, with E_RLWAI, and concerns nobody else. */
  lemma RelWaiEnds(k: KState, t: nat)
    requires System(k) && t < |k.tcb| && k.tcb[t].tstat.Waiting?
    ensures OnlyEnds(k, KernelCalls.RelWai(k, t).k, t, E_RLWAI)
    ensures OnlyEnds(k, KernelCalls.IrelWai(k, t).k, t, E_RLWAI)
  {
    WaitReleaseEnds(k, t, E_RLWAI);
    AnnounceEnds(k, WaitRelease(k, t, E_RLWAI), t, E_RLWAI);
  }

  /** Dispatching, and asking for it, ends no wait and begins none. */
  lemma AnnounceEnds(k: KState, k1: KState, t: nat, ercd: ER)
    requires OnlyEnds(k, k1, t, ercd)
    ensures OnlyEnds(k, Settle(k1), t, ercd) && OnlyEnds(k, Request(k, k1), t, ercd)
  {
  }

  /** A wakeup ends a sleep with E_OK. */
  lemma WupTskEnds(k: KState, t: nat)
    requires System(k) && t < |k.tcb| && IsSleeping(k.tcb[t].tstat)
    ensures OnlyEnds(k, KernelCalls.WupTsk(k, t).k, t, E_OK)
    ensures OnlyEnds(k, KernelCalls.IwupTsk(k, t).k, t, E_OK)
  {
    SleeperIsReleased(k, t, E_OK);
    WaitReleaseEnds(k, t, E_OK);
    AnnounceEnds(k, WaitRelease(k, t, E_OK), t, E_OK);
  }

  /** A wakeup ahead of the sleep is remembered, once, and makes the sleep return at once. */
  lemma WakeupAhead(k: KState, tmout: int)
    requires System(k) && InTask(k) && !TcbOf(k, k.runtsk.value).wupque
    ensures var o := KernelCalls.WupTsk(k, k.runtsk.value);
            && o.ercd == E_OK && KernelCalls.WupTsk(o.k, k.runtsk.value).ercd == E_QOVR
            && o.k.runtsk == k.runtsk && KernelCalls.SlpTsk(o.k, tmout) == Outcome(k, E_OK)
  {
    var r := k.runtsk.value;
    if Dspflg(k) { TopIsHighest(k); }
    var k1 := QueueWakeup(k, r, true);
    assert QueueWakeup(k1, r, false).tcb == k.tcb;
  }

  /** A timeout ends the wait with E_TMOUT, a delay with E_OK. */
  lemma TimeoutEnds(k: KState, t: nat)
    requires System(k) && Enabled(k, Fire(TaskTimeout(t)))
    ensures t < |k.tcb| && k.tcb[t].tstat.Waiting?
    ensures OnlyEnds(k, Perform(k, Fire(TaskTimeout(t))).k, t, if k.tcb[t].tstat.cause.Delay? then E_OK else E_TMOUT)
  {
    assert KnownEvent(k, TaskTimeout(t));
    AttachedFacts(k, t, None);
    FireOk(k, TaskTimeout(t));
    TimedOutIs(k, t);
    EndsOnly(k, FireEvent(k, TaskTimeout(t)), t, if k.tcb[t].tstat.cause.Delay? then E_OK else E_TMOUT);
  }

  lemma TimedOutIs(k: KState, t: nat)
    requires t < |k.tcb| && k.tcb[t].tstat.Waiting? && Pri(k, t) < |k.ready| && TaskTimeout(t) in k.tm.pending
    ensures var k1 := AfterEnd(k, t, if k.tcb[t].tstat.cause.Delay? then E_OK else E_TMOUT);
            var k' := FireEvent(k, TaskTimeout(t));
            k' == k1.(reqflg := k'.reqflg)
  {
    var k1 := WithTimer(k, Dequeue(k.tm, TaskTimeout(t)));
    LeavesAndCancels(k1, t);
    var k2 := if IsDelayed(k.tcb[t].tstat) then k1 else LeaveQueue(k1, t);
    assert k2.tcb == k.tcb && Pri(k2, t) == Pri(k, t);
    EndWaitIs(k2, t, if IsDelayed(k.tcb[t].tstat) then E_OK else E_TMOUT);
  }

  // ---- semaphores

  /** A signal ends the wait of the first task in the queue and leaves the count alone. */
  lemma SignalEnds(k: KState, o: nat)
    requires System(k) && IsSemaphore(k.cfg, o) && k.obj[o].waitQueue != []
    ensures OnlyEnds(k, KernelCalls.SigSem(k, o).k, k.obj[o].waitQueue[0], E_OK)
    ensures OnlyEnds(k, KernelCalls.IsigSem(k, o).k, k.obj[o].waitQueue[0], E_OK)
    ensures KernelCalls.SigSem(k, o).k.obj == k.obj[o := k.obj[o].(waitQueue := k.obj[o].waitQueue[1..])]
  {
    var t := k.obj[o].waitQueue[0];
    FirstLeaves(k, o, {}, None);
    WaitReleaseEnds(k, t, E_OK);
    AnnounceEnds(k, WaitRelease(k, t, E_OK), t, E_OK);
    WaitCompleteEffect(LeaveQueue(k, t), t, E_OK);
  }

  // ---- mutexes

  /** Who gets a mutex that is given up: the first task waiting for it, if there is one. */
  function Heir(k: KState, m: nat): Option<nat> {
    if ObjOf(k, m).waitQueue == [] then None else Some(ObjOf(k, m).waitQueue[0])
  }

  lemma RunnerNotHeir(k: KState, m: nat)
    requires System(k) && InTask(k) && m < |k.obj|
    ensures k.runtsk.value < |k.tcb| && k.tcb[k.runtsk.value].tstat.Runnable? && Heir(k, m) != k.runtsk
  {
    if Dspflg(k) { TopIsHighest(k); }
    QueuedWait(k, m);
  }

  // ---- tasks

  lemma NoCeilingHides(k: KState, t: nat, pri: nat)
    requires t < |k.tcb| && !HoldsCeiling(k, t)
    ensures PriOf(k.cfg, k.tcb[t].(bpriority := pri)) == pri
  {
    LowestIsMinimum(k.cfg, k.tcb[t].held, pri);
    var held := k.tcb[t].held;
    forall i | 0 <= i < |held| ensures CeilingOf(k.cfg, held[i]).None? {
      assert TcbOf(k, t).held[i] == held[i];
    }
  }

  /** Suspending a waiting task and resuming it leaves no trace. */
  lemma SuspendResume(k: KState, t: nat)
    requires t < |k.tcb| && k.tcb[t].tstat.Waiting? && !k.tcb[t].tstat.suspended && k.runtsk != Some(t)
    ensures KernelCalls.RsmTsk(KernelCalls.SusTsk(k, t).k, t) == Outcome(k, E_OK)
  {
    var c := k.tcb[t].tstat.cause;
    var k1 := SetState(k, t, Waiting(c, true));
    assert k1.tcb[t].(tstat := Waiting(c, false)) == k.tcb[t];
    assert k1.tcb[t := k.tcb[t]] == k.tcb;
  }

  lemma SuspendedIs(k: KState, t: nat)
    requires t < |k.tcb| && k.tcb[t].tstat.Runnable? && (k.runtsk != Some(t) || Dspflg(k))
    ensures var k1 := KernelCalls.SusTsk(k, t).k;
            && k1.tcb == k.tcb[t := k.tcb[t].(tstat := Suspended)]
            && k1 == k.(tcb := k1.tcb, ready := k1.ready, runtsk := k1.runtsk)
            && k1.ready == SetReady(k, Pri(k, t), Remove(ReadyOf(k, Pri(k, t)), t)).ready
  {
    var k0 := SetState(k, t, Suspended);
    assert Pri(k0, t) == Pri(k, t);
  }

  /** A task that can run is behind its equals afterwards. */
  lemma SuspendResumeReady(k: KState, t: nat)
    requires t < |k.tcb| && k.tcb[t].tstat.Runnable? && (k.runtsk != Some(t) || Dspflg(k))
    ensures var k1 := KernelCalls.SusTsk(k, t).k;
            var k' := KernelCalls.RsmTsk(k1, t).k;
            && k'.tcb == k.tcb && k'.obj == k.obj && k'.tm == k.tm
            && k'.ready == SetReady(k, Pri(k, t), Remove(ReadyOf(k, Pri(k, t)), t) + [t]).ready
  {
    SuspendedIs(k, t);
    ResumedIs(k, KernelCalls.SusTsk(k, t).k, t);
  }

  lemma ResumedIs(k: KState, k1: KState, t: nat)
    requires t < |k.tcb| && k.tcb[t].tstat.Runnable? && k1.tcb == k.tcb[t := k.tcb[t].(tstat := Suspended)] && k1.cfg == k.cfg
    ensures var k' := MakeActive(k1, t);
            && k'.tcb == k.tcb && k'.obj == k1.obj && k'.tm == k1.tm
            && k'.ready == SetReady(k1, Pri(k, t), ReadyOf(k1, Pri(k, t)) + [t]).ready
  {
    var k2 := SetState(k1, t, Runnable);
    assert k1.tcb[t].(tstat := Runnable) == k.tcb[t];
    assert k2 == k1.(tcb := k.tcb);
    assert Pri(k2, t) == Pri(k, t);
  }
}
