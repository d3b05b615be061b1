/** What locking, unlocking, changing a priority and ending a task do, said of the fields of the
    state before and after: who owns what, where each task stands, and that nothing else
    changes. */
module MutexEffects {
  import opened Prelude
  import opened Timer
  import opened KernelState
  import opened KernelCalls
  import opened KernelInv
  import opened KernelSteps
  import opened KernelPriority
  import opened KernelSystem
  import opened KernelRuns
  import opened KernelEffects
  import opened ReleaseOrder
  import opened CallEffects

  // ---- places in the ready queues

  /** Task `t` is in the ready queue of priority `p` and in no other, first or last in it; all
      others stand as before. */
  ghost predicate Placed(ready: seq<seq<nat>>, ready': seq<seq<nat>>, t: nat, p: nat, front: bool) {
    && |ready'| == |ready| && p < |ready|
    && (forall q :: 0 <= q < |ready| ==> Remove(ready'[q], t) == Remove(ready[q], t))
    && (forall q :: 0 <= q < |ready| && q != p ==> t !in ready'[q])
    && ready'[p] != [] && (if front then ready'[p][0] else ready'[p][|ready'[p]| - 1]) == t
  }

  lemma {:induction false} RemoveLast(q: seq<nat>, t: nat)
    requires t !in q
    ensures Remove(q + [t], t) == q
  {
    if q != [] {
      assert (q + [t])[1..] == q[1..] + [t];
      RemoveLast(q[1..], t);
    }
  }

  /** Task `t` is in the ready queue of priority `p`, once, and in no other. */
  ghost predicate OnlyAt(ready: seq<seq<nat>>, t: nat, p: nat) {
    && p < |ready| && t in ready[p]
    && (forall q :: 0 <= q < |ready| ==> NoDup(ready[q]))
    && (forall q :: 0 <= q < |ready| && q != p ==> t !in ready[q])
  }

  lemma RunnableOnlyAt(k: KState, t: nat)
    requires Links(k, {}, None) && t < |k.tcb| && k.tcb[t].tstat.Runnable?
    ensures OnlyAt(k.ready, t, Pri(k, t))
  {
    assert TaskLinked(k, t, {}, None) && Attached(k, t);
    PriInRange(k, t, {}, None);
    forall q | 0 <= q < |k.ready| ensures NoDup(k.ready[q]) && (q != Pri(k, t) ==> t !in k.ready[q]) {
      assert ReadyLinked(k, q, {});
      if t in k.ready[q] { assert InReady(k, q, t, {}); }
    }
  }

  lemma MovesTo(ready: seq<seq<nat>>, t: nat, from: nat, to: nat, front: bool)
    requires OnlyAt(ready, t, from) && to < |ready|
    ensures var ready1 := ready[from := Remove(ready[from], t)];
            var q := ready1[to];
            Placed(ready, ready1[to := if front then [t] + q else q + [t]], t, to, front)
  {
    var ready1 := ready[from := Remove(ready[from], t)];
    var q := ready1[to];
    RemoveNoDup(ready[from], t);
    assert forall p :: 0 <= p < |ready| ==> t !in ready1[p];
    RemoveLast(q, t);
    forall p | 0 <= p < |ready| ensures Remove(ready1[p], t) == Remove(ready[p], t) {
      if p == from { RemoveAbsent(Remove(ready[from], t), t); }
    }
    RemoveAbsent(q, t);
    assert ([t] + q)[1..] == q;
  }

  /** Where a task stands after its priority has become `p`: a task that can run in the ready
      queue of `p`, a waiting one where its new priority puts it if its queue is ordered by
      priority.  `k1` is the state with the new records. */
  ghost predicate Repositioned(k1: KState, k': KState, t: nat, p: nat, front: bool)
    requires t < |k1.tcb|
  {
    match k1.tcb[t].tstat
    case Runnable => Placed(k1.ready, k'.ready, t, p, front) && k' == k1.(ready := k'.ready)
    case Waiting(OnObject(o), _) =>
      && o < |k1.obj|
      && k' == if IsTpri(k1.cfg, o)
               then k1.(obj := k1.obj[o := k1.obj[o].(waitQueue := InsertTpri(Pris(k1), Remove(k1.obj[o].waitQueue, t), t))])
               else k1
    case _ => k' == k1
  }

  lemma RepositionIs(k1: KState, t: nat, oldpri: nat, front: bool)
    requires t < |k1.tcb| && Pri(k1, t) < |k1.ready|
    requires k1.tcb[t].tstat.Runnable? ==> OnlyAt(k1.ready, t, oldpri)
    requires k1.tcb[t].tstat.Waiting? && k1.tcb[t].tstat.cause.OnObject? ==> k1.tcb[t].tstat.cause.obj < |k1.obj|
    ensures Repositioned(k1, Reposition(k1, t, oldpri, front), t, Pri(k1, t), front)
  {
    match k1.tcb[t].tstat
    case Runnable => MovesTo(k1.ready, t, oldpri, Pri(k1, t), front);
    case Waiting(OnObject(o), _) => RequeueIs(k1, t, o);
    case _ =>
  }

  lemma RequeueIs(k: KState, t: nat, o: nat)
    requires t < |k.tcb| && WaitsFor(k, t, o) && o < |k.obj|
    ensures JoinQueue(LeaveQueue(k, t), t, o)
         == k.(obj := k.obj[o := k.obj[o].(waitQueue := if IsTpri(k.cfg, o) then InsertTpri(Pris(k), Remove(k.obj[o].waitQueue, t), t)
                                                         else Remove(k.obj[o].waitQueue, t) + [t])])
  {
    assert Pris(LeaveQueue(k, t)) == Pris(k);
  }

  /** A change of the mutexes a task holds: it moves only if its priority changes, and then in
      front of its equals. */
  ghost predicate Adjusted(k1: KState, k': KState, t: nat, oldpri: nat)
    requires t < |k1.tcb|
  {
    if Pri(k1, t) == oldpri then k' == k1 else Repositioned(k1, k', t, Pri(k1, t), true)
  }

  // ---- locking

  /** The caller owns the mutex, which is first in its mutex queue, and has at least the
      priority of the ceiling. */
  ghost predicate Locks(k: KState, k': KState, r: nat, m: nat)
    requires r < |k.tcb| && m < |k.obj| && IsMutex(k.cfg, m)
  {
    var k1 := k.(tcb := k.tcb[r := k.tcb[r].(held := [m] + k.tcb[r].held)], obj := k.obj[m := k.obj[m].(loctsk := Some(r))]);
    && Adjusted(k1, k', r, Pri(k, r))
    && Pri(k', r) == match k.cfg.objects[m].ceiling case None => Pri(k, r) case Some(c) => if c < Pri(k, r) then c else Pri(k, r)
  }

  /** With its error codes, in the order in which they are checked. */
  ghost predicate LocksOrWaits(k: KState, o: Outcome, m: nat, tmout: int)
    requires k.runtsk.Some? && IsMutex(k.cfg, m)
  {
    var r, c := k.runtsk.value, k.cfg.objects[m].ceiling;
    && r < |k.tcb| && m < |k.obj| && ByTask(k, o.k)
    && if c.Some? && k.tcb[r].bpriority < c.value then o == Outcome(k, E_ILUSE)
       else if k.obj[m].loctsk == None then o.ercd == E_OK && Locks(k, o.k, r, m)
       else if k.obj[m].loctsk == Some(r) then o == Outcome(k, E_OBJ)
       else if tmout == TMO_POL then o == Outcome(k, E_TMOUT)
       else o.ercd == Blocked && StartsWaiting(k, o.k, OnObject(m), if tmout > 0 then Some(tmout) else None)
  }

  /** `loc_mtx`, `ploc_mtx` and `tloc_mtx`. */
  lemma LocMtxEffect(k: KState, m: nat, tmout: int)
    requires System(k) && Enabled(k, LocMtx(m, tmout))
    ensures LocksOrWaits(k, Perform(k, LocMtx(m, tmout)), m, tmout)
  {
    StepOk(k, LocMtx(m, tmout));
    assert Perform(k, LocMtx(m, tmout)) == KernelCalls.LocMtx(k, m, tmout);
    LocMtxIs(k, m, tmout);
  }

  lemma LocMtxIs(k: KState, m: nat, tmout: int)
    requires System(k) && InTask(k) && IsMutex(k.cfg, m) && (tmout != TMO_POL ==> Dspflg(k))
    requires System(KernelCalls.LocMtx(k, m, tmout).k)
    ensures LocksOrWaits(k, KernelCalls.LocMtx(k, m, tmout), m, tmout)
  {
    var r, o := k.runtsk.value, KernelCalls.LocMtx(k, m, tmout);
    if o.ercd == Blocked {
      WaitBegins(k, OnObject(m), TimeoutOf(tmout));
    } else if o.ercd == E_OK {
      LockIs(k, r, m);
      GoesOn(k, o.k);
    } else {
      StillRuns(k, k);
    }
  }

  lemma GoesOn(k: KState, k': KState)
    requires System(k) && InTask(k) && System(k') && k'.runtsk == k.runtsk && k'.reqflg == k.reqflg
    ensures ByTask(k, k')
  {
    TopRuns(k, k');
  }

  lemma LockIs(k: KState, r: nat, m: nat)
    requires Links(k, {}, None) && r < |k.tcb| && k.tcb[r].tstat.Runnable? && m < |k.obj| && IsMutex(k.cfg, m)
    ensures Locks(k, Acquire(k, r, m), r, m)
    ensures Acquire(k, r, m).runtsk == k.runtsk && Acquire(k, r, m).reqflg == k.reqflg
    ensures Dspflg(Acquire(k, r, m)) == Dspflg(k)
  {
    var k1 := SetHeld(SetOwner(k, m, Some(r)), r, [m] + k.tcb[r].held);
    assert k1 == k.(tcb := k.tcb[r := k.tcb[r].(held := [m] + k.tcb[r].held)], obj := k.obj[m := k.obj[m].(loctsk := Some(r))]);
    RunnableOnlyAt(k, r);
    assert ([m] + k.tcb[r].held)[1..] == k.tcb[r].held;
    RepositionIs(k1, r, Pri(k, r), true);
    AdjustEffect(k1, r, Pri(k, r));
  }

  // ---- unlocking

  /** The mutex goes to the first task waiting for it, whose wait ends with E_OK and which has it
      last in its mutex queue, with at least the priority of the ceiling; or it is free. */
  ghost predicate HandedOn(k: KState, k': KState, m: nat)
    requires m < |k.obj|
  {
    var q := k.obj[m].waitQueue;
    if q == [] then k' == k.(obj := k.obj[m := k.obj[m].(loctsk := None)], runtsk := k'.runtsk)
    else
      && q[0] < |k.tcb| && k.tcb[q[0]].tstat.Waiting? && Pri(k', q[0]) < |k.ready|
      && var t, b, p := q[0], k.tcb[q[0]], Pri(k', q[0]);
         k' == k.(tcb := k.tcb[t := b.(held := b.held + [m], winfo := Wercd(E_OK),
                                       tstat := if b.tstat.suspended then Suspended else Runnable)],
                  obj := k.obj[m := k.obj[m].(waitQueue := q[1..], loctsk := Some(t))],
                  ready := if b.tstat.suspended then k.ready else k.ready[p := k.ready[p] + [t]],
                  tm := k.tm.(pending := k.tm.pending - {TaskTimeout(t)}),
                  runtsk := k'.runtsk)
  }

  lemma ReleaseIs(k: KState, m: nat, lt: set<nat>)
    requires Links(k, lt, Some(m)) && m < |k.obj| && IsMutex(k.cfg, m)
    ensures HandedOn(k, Release(k, m), m) && Release(k, m).runtsk == k.runtsk
  {
    if k.obj[m].waitQueue != [] {
      HandOverFacts(k, m, lt);
      HandOverIs(k, m);
    }
  }

  lemma HandOverFacts(k: KState, m: nat, lt: set<nat>)
    requires Links(k, lt, Some(m)) && m < |k.obj| && IsMutex(k.cfg, m) && k.obj[m].waitQueue != []
    ensures var t := k.obj[m].waitQueue[0];
            && t < |k.tcb| && k.tcb[t].tstat.Waiting? && PriOf(k.cfg, k.tcb[t].(held := k.tcb[t].held + [m])) < |k.ready|
            && (TaskTimeout(t) in k.tm.pending ==> k.tcb[t].winfo == Tmevtb(true))
  {
    var t := k.obj[m].waitQueue[0];
    FirstLeaves(k, m, lt, Some(m));
    assert TaskLinked(k, t, lt, Some(m));
    LowestInRange(k.cfg, k.tcb[t].held + [m], k.tcb[t].bpriority);
  }

  lemma HandOverIs(k: KState, m: nat)
    requires m < |k.obj| && k.obj[m].waitQueue != []
    requires var t := k.obj[m].waitQueue[0];
             && t < |k.tcb| && k.tcb[t].tstat.Waiting? && PriOf(k.cfg, k.tcb[t].(held := k.tcb[t].held + [m])) < |k.ready|
             && (TaskTimeout(t) in k.tm.pending ==> k.tcb[t].winfo == Tmevtb(true))
    ensures HandedOn(k, HandOver(k, m), m) && HandOver(k, m).runtsk == k.runtsk
  {
    var t := k.obj[m].waitQueue[0];
    HandOverEnds(k, m);
    HeirRuns(Entitled(k, m), t);
    assert Entitled(k, m).ready == k.ready;
  }

  /** The heir owns the mutex; its wait is about to end. */
  function Entitled(k: KState, m: nat): KState
    requires m < |k.obj| && k.obj[m].waitQueue != [] && k.obj[m].waitQueue[0] < |k.tcb|
  {
    var q := k.obj[m].waitQueue;
    var b := k.tcb[q[0]];
    k.(tcb := k.tcb[q[0] := b.(winfo := Wercd(E_OK), held := b.held + [m])],
       obj := k.obj[m := k.obj[m].(waitQueue := q[1..], loctsk := Some(q[0]))],
       tm := k.tm.(pending := k.tm.pending - {TaskTimeout(q[0])}))
  }

  lemma HandOverEnds(k: KState, m: nat)
    requires m < |k.obj| && k.obj[m].waitQueue != [] && k.obj[m].waitQueue[0] < |k.tcb|
    requires var t := k.obj[m].waitQueue[0]; TaskTimeout(t) in k.tm.pending ==> k.tcb[t].winfo == Tmevtb(true)
    ensures HandOver(k, m) == MakeNonWait(Entitled(k, m), k.obj[m].waitQueue[0])
  {
    var q := k.obj[m].waitQueue;
    var t := q[0];
    var k1 := SetQueue(k, m, q[1..]);
    if k.tcb[t].winfo != Tmevtb(true) { assert k.tm.pending - {TaskTimeout(t)} == k.tm.pending; }
    var k2 := SetWinfo(DequeueTimeout(k1, t), t, Wercd(E_OK));
    assert k2 == k1.(tcb := k.tcb[t := k.tcb[t].(winfo := Wercd(E_OK))],
                     tm := k.tm.(pending := k.tm.pending - {TaskTimeout(t)}));
    EntitledIs(k, k2, m);
  }

  lemma EntitledIs(k: KState, k2: KState, m: nat)
    requires m < |k.obj| && k.obj[m].waitQueue != [] && k.obj[m].waitQueue[0] < |k.tcb|
    requires var t := k.obj[m].waitQueue[0];
             k2 == SetQueue(k, m, k.obj[m].waitQueue[1..]).(tcb := k.tcb[t := k.tcb[t].(winfo := Wercd(E_OK))],
                                                            tm := k.tm.(pending := k.tm.pending - {TaskTimeout(t)}))
    ensures var t := k.obj[m].waitQueue[0];
            var k3 := SetOwner(k2, m, Some(t));
            SetHeld(k3, t, TcbOf(k3, t).held + [m]) == Entitled(k, m)
  {
  }

  lemma HeirRuns(k: KState, t: nat)
    requires t < |k.tcb| && k.tcb[t].tstat.Waiting? && Pri(k, t) < |k.ready|
    ensures var b := k.tcb[t];
            && Pri(MakeNonWait(k, t), t) == Pri(k, t)
            && MakeNonWait(k, t) == k.(tcb := k.tcb[t := b.(tstat := if b.tstat.suspended then Suspended else Runnable)],
                                       ready := if b.tstat.suspended then k.ready
                                                else k.ready[Pri(k, t) := k.ready[Pri(k, t)] + [t]])
  {
    var k1 := SetState(k, t, Runnable);
    assert Pri(k1, t) == Pri(k, t) && k1.ready == k.ready;
  }

  /** `unl_mtx`: the caller, in state `k1`, no longer has the mutex and stands where its remaining
      ceilings put it; then the mutex is handed on. */
  lemma UnlMtxEffect(k: KState, m: nat) returns (k1: KState)
    requires System(k) && Enabled(k, UnlMtx(m))
    ensures var o, r := Perform(k, UnlMtx(m)), k.runtsk.value;
            && r < |k.tcb| && m < |k.obj| && ByTask(k, o.k)
            && if k.obj[m].loctsk != Some(r) then o == Outcome(k, E_OBJ)
               else
                 && o.ercd == E_OK && |k1.obj| == |k.obj| && HandedOn(k1, o.k, m)
                 && Adjusted(k.(tcb := k.tcb[r := k.tcb[r].(held := Remove(k.tcb[r].held, m))]), k1, r, Pri(k, r))
  {
    assert Perform(k, UnlMtx(m)) == KernelCalls.UnlMtx(k, m);
    var r := k.runtsk.value;
    k1 := k;
    if k.obj[m].loctsk != Some(r) {
      StillRuns(k, k);
    } else {
      k1 := Adjust(Unhold(k, r, m), r, Pri(k, r));
      UnlockIs(k, r, m);
      SettleRuns(k, Release(k1, m));
    }
  }

  lemma UnlockIs(k: KState, r: nat, m: nat)
    requires System(k) && InTask(k) && r == k.runtsk.value && m < |k.obj| && IsMutex(k.cfg, m) && k.obj[m].loctsk == Some(r)
    ensures var k1 := Adjust(Unhold(k, r, m), r, Pri(k, r));
            && r < |k.tcb| && |k1.obj| == |k.obj| && HandedOn(k1, Settle(Release(k1, m)), m)
            && Adjusted(k.(tcb := k.tcb[r := k.tcb[r].(held := Remove(k.tcb[r].held, m))]), k1, r, Pri(k, r))
            && Release(k1, m).runtsk == k.runtsk && Release(k1, m).reqflg == k.reqflg
  {
    OwnerHolds(k, m);
    RunnerNotHeir(k, m);
    DropOk(k, r, m);
    var k0 := Unhold(k, r, m);
    var k1 := Adjust(k0, r, Pri(k, r));
    AdjustEffect(k0, r, Pri(k, r));
    RunnableOnlyAt(k, r);
    DropInRange(k, r, m);
    RepositionIs(k0, r, Pri(k, r), true);
    ReleaseIs(k1, m, {});
    HandedEither(k1, Release(k1, m), m);
  }

  lemma DropInRange(k: KState, t: nat, m: nat)
    requires Links(k, {}, None) && t < |k.tcb|
    ensures Pri(Unhold(k, t, m), t) < |k.ready|
  {
    assert TaskLinked(k, t, {}, None);
    LowestInRange(k.cfg, Remove(k.tcb[t].held, m), k.tcb[t].bpriority);
  }

  /** Who runs is left open. */
  lemma HandedEither(k: KState, k': KState, m: nat)
    requires m < |k.obj| && HandedOn(k, k', m)
    ensures HandedOn(k, Settle(k'), m)
  {
    if k.obj[m].waitQueue != [] {
      assert Pri(Settle(k'), k.obj[m].waitQueue[0]) == Pri(k', k.obj[m].waitQueue[0]);
    }
  }

  // ---- a mutex set back

  /** `ini_mtx`: in state `k1` everyone waiting has been told; then the holder, if there is one,
      no longer has the mutex and stands where its remaining ceilings put it. */
  lemma IniMtxEffect(k: KState, m: nat) returns (k1: KState)
    requires System(k) && Enabled(k, IniMtx(m))
    ensures var o := Perform(k, IniMtx(m));
            && m < |k.obj| == |k1.obj| && o.ercd == E_OK && ByTask(k, o.k)
            && AllEnd(k, k1, k.obj[m].waitQueue, E_DLT) && k1.obj[m].waitQueue == []
            && match k.obj[m].loctsk
               case None => o.k == k1.(runtsk := o.k.runtsk)
               case Some(t) =>
                 && t < |k1.tcb|
                 && Adjusted(k1.(tcb := k1.tcb[t := k1.tcb[t].(held := Remove(k1.tcb[t].held, m))],
                                 obj := k1.obj[m := k1.obj[m].(loctsk := None)]),
                             o.k.(runtsk := k1.runtsk), t, Pri(k1, t))
  {
    assert Perform(k, IniMtx(m)) == KernelCalls.IniMtx(k, m);
    k1 := InitQueue(k, m, |k.obj[m].waitQueue|);
    Drains(k, m);
    InitQueueOk(k, m, |k.obj[m].waitQueue|, {}, None);
    if k.obj[m].loctsk.Some? {
      FreeIs(k1, k1.obj[m].loctsk.value, m);
    }
    SettleRuns(k, Disown(k1, m));
  }

  lemma FreeIs(k: KState, t: nat, m: nat)
    requires Links(k, {}, None) && m < |k.obj| && IsMutex(k.cfg, m) && k.obj[m].loctsk == Some(t)
    ensures t < |k.tcb| && Disown(k, m).runtsk == k.runtsk && Disown(k, m).reqflg == k.reqflg
    ensures Adjusted(k.(tcb := k.tcb[t := k.tcb[t].(held := Remove(k.tcb[t].held, m))],
                        obj := k.obj[m := k.obj[m].(loctsk := None)]), Disown(k, m), t, Pri(k, t))
  {
    OwnerHolds(k, m);
    var k1 := SetOwner(Unhold(k, t, m), m, None);
    DropInRange(k, t, m);
    if k.tcb[t].tstat.Runnable? { RunnableOnlyAt(k, t); }
    assert TaskLinked(k, t, {}, None) && Attached(k, t);
    assert Pri(k1, t) == Pri(Unhold(k, t, m), t);
    RepositionIs(k1, t, Pri(k, t), true);
    AdjustEffect(k1, t, Pri(k, t));
  }

  // ---- another base priority

  /** The ceiling of some mutex that the task holds or waits for is not above priority `pri`. */
  ghost predicate BreaksCeiling(k: KState, t: nat, pri: nat)
    requires t < |k.tcb|
  {
    || (exists m :: m in k.tcb[t].held && IsMutex(k.cfg, m) && k.cfg.objects[m].ceiling.Some? && pri < k.cfg.objects[m].ceiling.value)
    || match k.tcb[t].tstat
       case Waiting(OnObject(m), _) =>
         IsMutex(k.cfg, m) && k.cfg.objects[m].ceiling.Some? && pri < k.cfg.objects[m].ceiling.value
       case _ => false
  }

  /** The task holds a mutex with a ceiling. */
  ghost predicate UnderCeiling(k: KState, t: nat)
    requires t < |k.tcb|
  {
    exists m :: m in k.tcb[t].held && IsMutex(k.cfg, m) && k.cfg.objects[m].ceiling.Some?
  }

  ghost predicate Rebases(k: KState, o: Outcome, t: nat, pri: nat)
    requires t < |k.tcb|
  {
    var k1 := k.(tcb := k.tcb[t := k.tcb[t].(bpriority := pri)]);
    if k.tcb[t].tstat.Dormant? then o == Outcome(k, E_OBJ)
    else if BreaksCeiling(k, t, pri) then o == Outcome(k, E_ILUSE)
    else if UnderCeiling(k, t) then o == Outcome(k1, E_OK) && Pri(k1, t) == Pri(k, t)
    else o.ercd == E_OK && Repositioned(k1, o.k.(runtsk := k.runtsk), t, pri, false) && Pri(k1, t) == pri
  }

  /** `chg_pri`. */
  lemma ChgPriEffect(k: KState, t: nat, pri: nat)
    requires System(k) && Enabled(k, ChgPri(t, pri))
    ensures Rebases(k, Perform(k, ChgPri(t, pri)), t, pri) && ByTask(k, Perform(k, ChgPri(t, pri)).k)
  {
    assert Perform(k, ChgPri(t, pri)) == KernelCalls.ChgPri(k, t, pri);
    CeilingsAre(k, t, pri);
    var k1 := SetTcb(k, t, k.tcb[t].(bpriority := pri));
    if !k.tcb[t].tstat.Dormant? && CeilingsAllow(k, t, pri) {
      if HoldsCeiling(k, t) {
        CeilingHides(k, t, pri);
        StillRuns(k, k1);
      } else {
        PlainMove(k, t, pri);
        RepositionEffect(k1, t, Pri(k, t), false);
        SettleRuns(k, Reposition(k1, t, Pri(k, t), false));
      }
    } else {
      StillRuns(k, k);
    }
  }

  lemma CeilingsAre(k: KState, t: nat, pri: nat)
    requires t < |k.tcb|
    ensures CeilingsAllow(k, t, pri) <==> !BreaksCeiling(k, t, pri)
    ensures HoldsCeiling(k, t) <==> UnderCeiling(k, t)
  {
    var held := k.tcb[t].held;
    assert forall m :: m in held <==> exists i :: 0 <= i < |held| && held[i] == m;
  }

  lemma PlainMove(k: KState, t: nat, pri: nat)
    requires Links(k, {}, None) && t < |k.tcb| && pri < TNUM_TPRI && !HoldsCeiling(k, t)
    ensures var k1 := k.(tcb := k.tcb[t := k.tcb[t].(bpriority := pri)]);
            Pri(k1, t) == pri && Repositioned(k1, Reposition(k1, t, Pri(k, t), false), t, pri, false)
  {
    var k1 := k.(tcb := k.tcb[t := k.tcb[t].(bpriority := pri)]);
    NoCeilingHides(k, t, pri);
    if k.tcb[t].tstat.Runnable? { RunnableOnlyAt(k, t); }
    assert TaskLinked(k, t, {}, None) && Attached(k, t);
    RepositionIs(k1, t, Pri(k, t), false);
  }

  // ---- the end of a task

  /** Task `x` is the first one waiting for one of the mutexes in `held`. */
  predicate Inherits(k: KState, held: seq<nat>, x: nat) {
    match TcbOf(k, x).tstat
    case Waiting(OnObject(m), _) => m in held && Heir(k, m) == Some(x)
    case _ => false
  }

  /** Such a task has the mutex and waits no longer; every other record is as it was. */
  ghost predicate RecordInherits(k: KState, k': KState, held: seq<nat>, x: nat)
    requires x < |k.tcb| == |k'.tcb|
  {
    var b := k.tcb[x];
    k'.tcb[x] == if Inherits(k, held, x)
                 then b.(held := b.held + [b.tstat.cause.obj], winfo := Wercd(E_OK),
                         tstat := if b.tstat.suspended then Suspended else Runnable)
                 else b
  }

  ghost predicate ObjInherited(k: KState, k': KState, held: seq<nat>, o: nat)
    requires o < |k.obj| == |k'.obj|
  {
    var q := k.obj[o].waitQueue;
    k'.obj[o] == if o in held then k.obj[o].(loctsk := Heir(k, o), waitQueue := if q == [] then [] else q[1..]) else k.obj[o]
  }

  /** The heir of mutex `m`, if it can run once it waits no longer and has the mutex, and is of
      priority `p` then. */
  function EntersFor(k: KState, m: nat, p: nat): seq<nat> {
    match Heir(k, m)
    case None => []
    case Some(h) =>
      var b := TcbOf(k, h);
      if b.tstat.Waiting? && !b.tstat.suspended && PriOf(k.cfg, b.(held := b.held + [m])) == p then [h] else []
  }

  /** All such heirs, in the order of the mutexes. */
  function Entering(k: KState, held: seq<nat>, p: nat): seq<nat> {
    if held == [] then [] else EntersFor(k, held[0], p) + Entering(k, held[1..], p)
  }

  ghost predicate TimeoutsInherited(k: KState, tm': TimerState, held: seq<nat>) {
    && tm' == k.tm.(pending := tm'.pending)
    && (forall e :: e in tm'.pending <==> e in k.tm.pending && !(e.TaskTimeout? && Inherits(k, held, e.tsk)))
    && forall e :: e in tm'.pending ==> tm'.pending[e] == k.tm.pending[e]
  }

  /** Task `t` has given up the mutexes in `held`, all it had, in that order. */
  ghost predicate AllHanded(k: KState, k': KState, t: nat, held: seq<nat>) {
    && t < |k.tcb| == |k'.tcb| && k'.tcb[t] == k.tcb[t].(held := [])
    && (forall x :: 0 <= x < |k.tcb| && x != t ==> RecordInherits(k, k', held, x))
    && |k'.obj| == |k.obj| && (forall o :: 0 <= o < |k.obj| ==> ObjInherited(k, k', held, o))
    && |k'.ready| == |k.ready| && (forall p :: 0 <= p < |k.ready| ==> k'.ready[p] == k.ready[p] + Entering(k, held, p))
    && TimeoutsInherited(k, k'.tm, held)
    && k' == k.(tcb := k'.tcb, ready := k'.ready, obj := k'.obj, tm := k'.tm, runtsk := k'.runtsk)
  }

  lemma {:induction false} ReleaseAllHands(k: KState, t: nat, n: nat)
    requires Links(k, {t}, None) && t < |k.tcb| && n == |k.tcb[t].held| && TaskTimeout(t) !in k.tm.pending
    ensures AllHanded(k, ReleaseAll(k, t, n), t, k.tcb[t].held)
    decreases n
  {
    var held := k.tcb[t].held;
    if n == 0 {
      NoneHanded(k, t);
    } else {
      var k0 := Unhold(k, t, held[0]);
      var k1 := Release(k0, held[0]);
      ReleaseFirstOk(k, t, {t});
      FirstHanded(k, t);
      ReleaseAllHands(k1, t, n - 1);
      assert ReleaseAll(k, t, n) == ReleaseAll(k1, t, n - 1);
      HandedMore(k, k1, ReleaseAll(k, t, n), t);
    }
  }

  lemma NoneHanded(k: KState, t: nat)
    requires t < |k.tcb| && k.tcb[t].held == []
    ensures AllHanded(k, k, t, [])
  {
    assert k.tcb[t].(held := []) == k.tcb[t];
  }

  lemma FirstHanded(k: KState, t: nat)
    requires Links(k, {t}, None) && t < |k.tcb| && k.tcb[t].held != []
    ensures OneHanded(k, Release(Unhold(k, t, k.tcb[t].held[0]), k.tcb[t].held[0]), t)
  {
    var m := k.tcb[t].held[0];
    assert TaskLinked(k, t, {t}, None);
    assert HeldOk(k, t, m);
    LetGo(k, t, m, {t});
    ReleaseIs(Unhold(k, t, m), m, {t});
    LinksHeirsWait(k, t);
    assert Unhold(k, t, m) == k.(tcb := k.tcb[t := k.tcb[t].(held := k.tcb[t].held[1..])]);
  }

  /** Heirs wait for what they inherit; task `t` is none of them. */
  ghost predicate HeirsWait(k: KState, t: nat, held: seq<nat>) {
    forall m :: m in held && Heir(k, m).Some? ==>
                  Heir(k, m).value < |k.tcb| && WaitsFor(k, Heir(k, m).value, m) && Heir(k, m).value != t
  }

  lemma LinksHeirsWait(k: KState, t: nat)
    requires Links(k, {t}, None) && t < |k.tcb|
    ensures HeirsWait(k, t, k.tcb[t].held) && NoDup(k.tcb[t].held)
  {
    var held := k.tcb[t].held;
    assert TaskLinked(k, t, {t}, None);
    forall m | m in held && Heir(k, m).Some?
      ensures Heir(k, m).value < |k.tcb| && WaitsFor(k, Heir(k, m).value, m) && Heir(k, m).value != t
    {
      assert HeldOk(k, t, m);
      FirstLeaves(k, m, {t}, None);
    }
  }

  /** The first mutex of `t` has been handed on; the others are to follow. */
  ghost predicate OneHanded(k: KState, k1: KState, t: nat) {
    && t < |k.tcb| && k.tcb[t].held != [] && k.tcb[t].held[0] < |k.obj|
    && HeirsWait(k, t, k.tcb[t].held) && NoDup(k.tcb[t].held)
    && HandedOn(k.(tcb := k.tcb[t := k.tcb[t].(held := k.tcb[t].held[1..])]), k1, k.tcb[t].held[0])
  }

  /** Said record by record. */
  ghost predicate AfterFirst(k: KState, k1: KState, t: nat) {
    && t < |k.tcb| == |k1.tcb| && k.tcb[t].held != [] && k.tcb[t].held[0] < |k.obj| == |k1.obj|
    && HeirsWait(k, t, k.tcb[t].held) && NoDup(k.tcb[t].held)
    && k1.tcb[t] == k.tcb[t].(held := k.tcb[t].held[1..]) && k1.cfg == k.cfg
    && (forall o :: 0 <= o < |k.obj| && o != k.tcb[t].held[0] ==> k1.obj[o] == k.obj[o])
    && (forall x :: 0 <= x < |k.tcb| && x != t ==> FirstInherited(k, k1, k.tcb[t].held[0], x))
  }

  ghost predicate FirstInherited(k: KState, k1: KState, m: nat, x: nat)
    requires x < |k.tcb| == |k1.tcb|
  {
    var b := k.tcb[x];
    if Heir(k, m) == Some(x)
    then
      && WaitsFor(k, x, m)
      && k1.tcb[x] == b.(held := b.held + [m], winfo := Wercd(E_OK), tstat := if b.tstat.suspended then Suspended else Runnable)
    else k1.tcb[x] == b
  }

  lemma HandedRecords(k: KState, k1: KState, t: nat)
    requires OneHanded(k, k1, t)
    ensures AfterFirst(k, k1, t)
  {
    var m := k.tcb[t].held[0];
    assert m in k.tcb[t].held;
    forall x | 0 <= x < |k.tcb| && x != t ensures FirstInherited(k, k1, m, x) {
    }
  }

  lemma InheritsMore(k: KState, k1: KState, t: nat, x: nat)
    requires AfterFirst(k, k1, t) && x < |k.tcb| && x != t
    ensures Inherits(k, k.tcb[t].held, x) <==> Heir(k, k.tcb[t].held[0]) == Some(x) || Inherits(k1, k.tcb[t].held[1..], x)
    ensures Heir(k, k.tcb[t].held[0]) == Some(x) ==> !Inherits(k1, k.tcb[t].held[1..], x) && WaitsFor(k, x, k.tcb[t].held[0])
  {
    var held := k.tcb[t].held;
    assert FirstInherited(k, k1, held[0], x);
    assert forall m :: m in held[1..] <==> m in held && m != held[0] by { NoDupTail(held); }
  }

  lemma {:induction false} EnteringSame(k: KState, k1: KState, t: nat, rest: seq<nat>, p: nat)
    requires AfterFirst(k, k1, t) && HeirsWait(k, t, rest) && k.tcb[t].held[0] !in rest
    ensures Entering(k1, rest, p) == Entering(k, rest, p)
  {
    if rest != [] {
      var m := rest[0];
      assert m in rest;
      assert Heir(k1, m) == Heir(k, m);
      if Heir(k, m).Some? { assert FirstInherited(k, k1, k.tcb[t].held[0], Heir(k, m).value); }
      EnteringSame(k, k1, t, rest[1..], p);
    }
  }

  lemma FirstEnters(k: KState, k1: KState, t: nat, p: nat)
    requires OneHanded(k, k1, t) && p < |k.ready|
    ensures |k1.ready| == |k.ready| && k1.ready[p] == k.ready[p] + EntersFor(k, k.tcb[t].held[0], p)
  {
    assert k.tcb[t].held[0] in k.tcb[t].held;
  }

  lemma HandedReady(k: KState, k1: KState, t: nat, p: nat)
    requires AfterFirst(k, k1, t) && p < |k.ready| == |k1.ready|
    requires k1.ready[p] == k.ready[p] + EntersFor(k, k.tcb[t].held[0], p)
    ensures k1.ready[p] + Entering(k1, k.tcb[t].held[1..], p) == k.ready[p] + Entering(k, k.tcb[t].held, p)
  {
    var held := k.tcb[t].held;
    NoDupTail(held);
    assert HeirsWait(k, t, held[1..]);
    EnteringSame(k, k1, t, held[1..], p);
    Associates(k.ready[p], EntersFor(k, held[0], p), Entering(k, held[1..], p));
  }

  lemma Associates(a: seq<nat>, b: seq<nat>, c: seq<nat>)
    ensures (a + b) + c == a + (b + c)
  {
  }

  ghost predicate FirstCancelled(k: KState, tm1: TimerState, m: nat) {
    tm1 == match Heir(k, m) case None => k.tm case Some(h) => k.tm.(pending := k.tm.pending - {TaskTimeout(h)})
  }

  lemma HandedTimeouts(k: KState, k1: KState, tm': TimerState, t: nat)
    requires AfterFirst(k, k1, t) && FirstCancelled(k, k1.tm, k.tcb[t].held[0]) && TimeoutsInherited(k1, tm', k.tcb[t].held[1..])
    requires TaskTimeout(t) !in k.tm.pending && forall e :: e in k.tm.pending && e.TaskTimeout? ==> e.tsk < |k.tcb|
    ensures TimeoutsInherited(k, tm', k.tcb[t].held)
  {
    var held := k.tcb[t].held;
    forall e ensures e in tm'.pending <==> e in k.tm.pending && !(e.TaskTimeout? && Inherits(k, held, e.tsk)) {
      if e in k.tm.pending && e.TaskTimeout? { InheritsMore(k, k1, t, e.tsk); }
    }
  }

  lemma HandedRest(k: KState, k1: KState, k': KState, t: nat)
    requires AfterFirst(k, k1, t) && AllHanded(k1, k', t, k.tcb[t].held[1..])
    ensures forall x :: 0 <= x < |k.tcb| && x != t ==> RecordInherits(k, k', k.tcb[t].held, x)
  {
    var held := k.tcb[t].held;
    forall x | 0 <= x < |k.tcb| && x != t ensures RecordInherits(k, k', held, x) {
      assert RecordInherits(k1, k', held[1..], x) && FirstInherited(k, k1, held[0], x);
      InheritsMore(k, k1, t, x);
    }
  }

  lemma HandedObjs(k: KState, k1: KState, k': KState, t: nat)
    requires AfterFirst(k, k1, t) && AllHanded(k1, k', t, k.tcb[t].held[1..])
    requires ObjInherited(k, k1, [k.tcb[t].held[0]], k.tcb[t].held[0])
    ensures forall o :: 0 <= o < |k.obj| ==> ObjInherited(k, k', k.tcb[t].held, o)
  {
    var held := k.tcb[t].held;
    NoDupTail(held);
    forall o | 0 <= o < |k.obj| ensures ObjInherited(k, k', held, o) {
      assert ObjInherited(k1, k', held[1..], o);
    }
  }

  lemma HandedMore(k: KState, k1: KState, k': KState, t: nat)
    requires OneHanded(k, k1, t) && AllHanded(k1, k', t, k.tcb[t].held[1..])
    requires TaskTimeout(t) !in k.tm.pending && forall e :: e in k.tm.pending && e.TaskTimeout? ==> e.tsk < |k.tcb|
    ensures AllHanded(k, k', t, k.tcb[t].held)
  {
    HandedRecords(k, k1, t);
    FirstTouches(k, k1, t);
    HandedRest(k, k1, k', t);
    HandedObjs(k, k1, k', t);
    forall p | 0 <= p < |k.ready| ensures k'.ready[p] == k.ready[p] + Entering(k, k.tcb[t].held, p) {
      FirstEnters(k, k1, t, p);
      HandedReady(k, k1, t, p);
    }
    HandedTimeouts(k, k1, k'.tm, t);
  }

  lemma FirstTouches(k: KState, k1: KState, t: nat)
    requires OneHanded(k, k1, t)
    ensures var m := k.tcb[t].held[0];
            && FirstCancelled(k, k1.tm, m) && |k1.obj| == |k.obj| && ObjInherited(k, k1, [m], m) && |k1.ready| == |k.ready|
            && k1 == k.(tcb := k1.tcb, ready := k1.ready, obj := k1.obj, tm := k1.tm, runtsk := k1.runtsk)
  {
    assert k.tcb[t].held[0] in k.tcb[t].held;
  }

  /** Task `t` is in no queue any more, and its timeout, if it has one, is cancelled. */
  function OutOfQueues(k: KState, t: nat): KState
    requires t < |k.tcb| && Pri(k, t) < |k.ready|
  {
    var s, p := k.tcb[t].tstat, Pri(k, t);
    k.(ready := if s.Runnable? then k.ready[p := Remove(k.ready[p], t)] else k.ready,
       obj := if s.Waiting? then LeftBy(k, t, s.cause) else k.obj,
       tm := k.tm.(pending := k.tm.pending - {TaskTimeout(t)}))
  }

  /** Task `t` is as new: dormant, or started again because an activation was remembered. */
  ghost predicate Renewed(k: KState, k': KState, t: nat) {
    && t < |k.tcb| && t < |k.cfg.ipriority| && k.cfg.ipriority[t] < |k.ready|
    && var b, p := k.tcb[t], k.cfg.ipriority[t];
       k' == k.(tcb := k.tcb[t := TCB(p, if b.actque then Runnable else Dormant, false, false, b.winfo, [])],
                ready := if b.actque then k.ready[p := k.ready[p] + [t]] else k.ready,
                runtsk := k'.runtsk)
  }

  /** `ter_tsk`: task `t` leaves every queue, gives up all its mutexes (state `k2`), and is new. */
  lemma TerTskEffect(k: KState, t: nat) returns (k2: KState)
    requires System(k) && Enabled(k, TerTsk(t))
    ensures var o := Perform(k, TerTsk(t));
            && ByTask(k, o.k) && Pri(k, t) < |k.ready|
            && if k.tcb[t].tstat.Dormant? then o == Outcome(k, E_OBJ)
               else o.ercd == E_OK && AllHanded(OutOfQueues(k, t), k2, t, k.tcb[t].held) && Renewed(k2, o.k, t)
  {
    assert Perform(k, TerTsk(t)) == KernelCalls.TerTsk(k, t);
    AttachedFacts(k, t, None);
    k2 := k;
    if k.tcb[t].tstat.Dormant? {
      StillRuns(k, k);
    } else {
      k2 := EndIs(k, t);
      SettleRuns(k, Terminate(Detach(k, t), t));
    }
  }

  /** `ext_tsk`: the same for the caller, with dispatching enabled again. */
  lemma ExtTskEffect(k: KState) returns (k2: KState)
    requires System(k) && Enabled(k, ExtTsk)
    ensures var o, r, k1 := Perform(k, ExtTsk), k.runtsk.value, k.(disdsp := false, ipmflg := true);
            && r < |k.tcb| && Pri(k1, r) < |k1.ready| && o.ercd == NoReturn && ByTask(k, o.k)
            && AllHanded(OutOfQueues(k1, r), k2, r, k.tcb[r].held) && Renewed(k2, o.k, r)
  {
    assert Perform(k, ExtTsk) == KernelCalls.ExtTsk(k);
    var r, k1 := k.runtsk.value, k.(disdsp := false, ipmflg := true);
    FlagsOk(k, k1);
    AttachedFacts(k1, r, None);
    k2 := EndIs(k1, r);
    SettleRuns(k, Terminate(MakeNonRunnable(k1, r), r));
  }

  lemma EndIs(k: KState, t: nat) returns (k2: KState)
    requires Links(k, {}, None) && t < |k.tcb| && !k.tcb[t].tstat.Dormant?
    ensures Pri(k, t) < |k.ready| && AllHanded(OutOfQueues(k, t), k2, t, k.tcb[t].held)
    ensures var k' := Terminate(Detach(k, t), t);
            Renewed(k2, Settle(k'), t) && k'.runtsk == k.runtsk && k'.reqflg == k.reqflg
  {
    AttachedFacts(k, t, None);
    DetachedIs(k, t);
    DetachOk(k, t);
    var d := Detach(k, t);
    assert {} + {t} == {t};
    ReleaseAllHands(d, t, |d.tcb[t].held|);
    k2 := ReleaseAll(d, t, |d.tcb[t].held|);
    TerminateOk(d, t);
    RenewedIs(k2, t);
  }

  lemma DetachedIs(k: KState, t: nat)
    requires Links(k, {}, None) && t < |k.tcb| && !k.tcb[t].tstat.Dormant? && Pri(k, t) < |k.ready|
    ensures Detach(k, t) == OutOfQueues(k, t)
  {
    AttachedFacts(k, t, None);
    if k.tcb[t].tstat.Waiting? {
      LeavesAndCancels(k, t);
    } else {
      assert k.tm.pending - {TaskTimeout(t)} == k.tm.pending;
    }
  }

  lemma RenewedIs(k: KState, t: nat)
    requires t < |k.tcb| && k.tcb[t].held == [] && t < |k.cfg.ipriority| && k.cfg.ipriority[t] < |k.ready|
    ensures var k1 := MakeDormant(k, t);
            var k' := if TcbOf(k1, t).actque then MakeActive(QueueActivation(k1, t, false), t) else k1;
            Renewed(k, k', t) && Renewed(k, Settle(k'), t) && k'.runtsk == k.runtsk && k'.reqflg == k.reqflg
  {
    var k1 := MakeDormant(k, t);
    var k2 := SetState(QueueActivation(k1, t, false), t, Runnable);
    assert k2.ready == k.ready && Pri(k2, t) == k.cfg.ipriority[t];
  }
}
