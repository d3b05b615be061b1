/** The kernel's control blocks and global variables, and the operations that change them in
    place, each proved against its function on the abstract state `K()`. */
module Kernel {
  import opened Prelude
  import opened EventTime
  import opened Timer
  import opened HeapOrder
  import opened TimeEvent
  import opened Primap
  import opened KernelState
  import opened KernelCalls
  import opened KernelInv
  import opened KernelSteps
  import opened KernelPriority
  import opened KernelSystem
  import opened KernelRuns
  import opened KernelTheorems
  import KernelTiming
  import opened KernelCache
  import F = Firing

  class Kernel {
    const cfg: Config
    const primap: ReadyPrimap            // ready_primap
    const heap: TimeEventHeap
    var tcb: seq<TCB>
    var priority: seq<nat>               // the `priority` field of every TCB
    var obj: seq<WOBJ>
    var readyQueue: seq<seq<nat>>
    var schedtsk: Option<nat>            // p_schedtsk
    var runtsk: Option<nat>              // p_runtsk
    var disdsp: bool
    var ipmflg: bool
    var dspflg: bool
    var reqflg: bool
    var inInt: bool
    var cycsta: seq<bool>
    var almsta: seq<bool>
    ghost var stale: Option<nat>         // a task that is being terminated

    /** The state with everything cached left out. */
    ghost function K(): KState
      reads this, heap
    {
      KState(cfg, tcb, obj, readyQueue, runtsk, disdsp, ipmflg, reqflg, inInt, cycsta, almsta, heap.tm)
    }

    /** The bitmap, the first task and the dispatch flag agree with the rest. */
    ghost predicate Scheduled()
      reads `readyQueue, `schedtsk, `dspflg, `ipmflg, `disdsp, primap
    {
      && primap.Valid()
      && Mapped(readyQueue, primap.marks) && schedtsk == Top(readyQueue)
      && dspflg == (ipmflg && !disdsp)
    }

    ghost predicate Valid()
      reads `readyQueue, `schedtsk, `dspflg, `ipmflg, `disdsp, primap, `tcb, `priority, `stale
    {
      && Scheduled()
      && Priorities(cfg, tcb, priority, stale)
      && Queues(tcb, priority, readyQueue, None)
    }

    /** The kernel before any task is activated or any handler started. */
    constructor (cfg: Config, tick: Tick, nodes: array<TMEVTN>)
      requires ValidConfig(cfg) && ValidTick(tick)
      ensures Valid() && heap.Valid() && this.cfg == cfg && fresh(primap) && fresh(heap) && heap.tmevtHeap == nodes
      ensures K() == Reset(cfg, tick) && schedtsk == None && stale == None
    {
      this.cfg := cfg;
      primap := new ReadyPrimap();
      heap := new TimeEventHeap(tick, nodes);
      var k := Reset(cfg, tick);
      tcb := k.tcb;
      priority := cfg.ipriority;
      obj := k.obj;
      readyQueue := k.ready;
      schedtsk := None;
      runtsk := None;
      disdsp, ipmflg, dspflg := false, true, true;
      reqflg, inInt := false, false;
      cycsta := k.cycsta;
      almsta := k.almsta;
      stale := None;
      new;
      TopNone(readyQueue);
    }

    // ---- scheduling

    method SearchSchedtsk() returns (t: nat)
      requires primap.Valid() && Mapped(readyQueue, primap.marks) && primap.marks != {}
      ensures Top(readyQueue) == Some(t)
    {
      var schedpri := primap.Search();
      t := readyQueue[schedpri][0];
      assert forall q :: 0 <= q < schedpri ==> readyQueue[q] == [];
      HeadsTop(readyQueue, schedpri, t);
    }

    method MakeRunnable(t: nat) returns (r: bool)
      requires stale != Some(t)
      requires Valid() && t < |tcb| && tcb[t].tstat.Runnable? && Unqueued(readyQueue, t)
      modifies `readyQueue, `schedtsk, primap
      ensures Valid() && K() == KernelState.MakeRunnable(old(K()), t)
      ensures r <==> dspflg && schedtsk != old(schedtsk)
    {
      PriorityRange(cfg, tcb, priority, stale, t);
      RunnableIs(K(), t, priority[t]);
      var pri := priority[t];
      PutLast(t, pri);
      r := Overtakes(t, pri);
    }

    /** Task `t`, now in its ready queue, is the one to run if it comes before the one that was. */
    method Overtakes(t: nat, pri: nat) returns (r: bool)
      requires schedtsk != Some(t) && (schedtsk.Some? ==> schedtsk.value < |priority|)
      modifies `schedtsk
      ensures schedtsk == if old(schedtsk).None? || pri < priority[old(schedtsk).value] then Some(t) else old(schedtsk)
      ensures r <==> dspflg && schedtsk != old(schedtsk)
    {
      r := false;
      if schedtsk.None? || pri < priority[schedtsk.value] {
        schedtsk := Some(t);
        r := dspflg;
      }
    }

    /** Into the ready queue of its priority, behind its equals. */
    method PutLast(t: nat, pri: nat)
      requires primap.Valid() && Mapped(readyQueue, primap.marks) && Queues(tcb, priority, readyQueue, None)
      requires t < |tcb| && t < |priority| && pri == priority[t] < TNUM_TPRI && tcb[t].tstat.Runnable? && Unqueued(readyQueue, t)
      modifies `readyQueue, primap
      ensures primap.Valid() && Mapped(readyQueue, primap.marks) && Queues(tcb, priority, readyQueue, None)
      ensures pri < |old(readyQueue)| && readyQueue == old(readyQueue)[pri := old(readyQueue[pri]) + [t]]
      ensures var s := Top(old(readyQueue));
              && s != Some(t) && (s.Some? ==> s.value < |priority|)
              && Top(readyQueue) == if s.None? || pri < priority[s.value] then Some(t) else s
    {
      Joined(tcb, priority, readyQueue, primap.marks, t);
      readyQueue := readyQueue[pri := readyQueue[pri] + [t]];
      primap.Set(pri);
    }

    /** `t` may already be in a state in which it cannot run. */
    method MakeNonRunnable(t: nat) returns (r: bool)
      requires stale != Some(t)
      requires Scheduled() && Priorities(cfg, tcb, priority, stale) && Queues(tcb, priority, readyQueue, Some(t))
      requires t < |tcb| && t in ReadyOf(K(), priority[t])
      modifies `readyQueue, `schedtsk, primap
      ensures Valid() && K() == KernelState.MakeNonRunnable(old(K()), t) && Unqueued(readyQueue, t)
      ensures r <==> dspflg && schedtsk != old(schedtsk)
      ensures old(schedtsk) != Some(t) ==> schedtsk == old(schedtsk)
    {
      PriorityRange(cfg, tcb, priority, stale, t);
      RunnableIs(K(), t, priority[t]);
      Left(tcb, priority, readyQueue, primap.marks, t);
      var pri := priority[t];
      readyQueue := readyQueue[pri := Remove(readyQueue[pri], t)];
      r := false;
      if readyQueue[pri] == [] {
        primap.Clear(pri);
        if schedtsk == Some(t) {
          schedtsk := FirstReady();
          r := dspflg;
        }
      } else if schedtsk == Some(t) {
        schedtsk := Some(readyQueue[pri][0]);
        r := dspflg;
      }
    }

    /** The head of the first non-empty ready queue, or none. */
    method FirstReady() returns (s: Option<nat>)
      requires primap.Valid() && Mapped(readyQueue, primap.marks)
      ensures s == Top(readyQueue)
    {
      var none := primap.Empty();
      if none {
        TopNone(readyQueue);
        return None;
      }
      var t := SearchSchedtsk();
      return Some(t);
    }

    /** `make_active`. */
    method MakeActive(t: nat) returns (r: bool)
      requires stale != Some(t)
      requires Valid() && t < |tcb| && !tcb[t].tstat.Runnable?
      modifies `tcb, `readyQueue, `schedtsk, primap
      ensures Valid() && K() == KernelState.MakeActive(old(K()), t)
      ensures r <==> dspflg && schedtsk != old(schedtsk)
    {
      NotRunnableUnqueued(tcb, priority, readyQueue, t);
      SetStateOk(t, Runnable);
      tcb := tcb[t := tcb[t].(tstat := Runnable)];
      r := MakeRunnable(t);
    }

    /** The state of a task in no ready queue may change. */
    lemma SetStateOk(t: nat, tstat: TaskState)
      requires Priorities(cfg, tcb, priority, stale) && Queues(tcb, priority, readyQueue, None)
      requires t < |tcb| && Unqueued(readyQueue, t)
      ensures var tcb' := tcb[t := tcb[t].(tstat := tstat)];
              Priorities(cfg, tcb', priority, stale) && Queues(tcb', priority, readyQueue, None)
    {
      var b := tcb[t].(tstat := tstat);
      assert priority[t := priority[t]] == priority;
      ChangeUnqueued(tcb, priority, readyQueue, t, b, priority[t]);
      assert PriOf(cfg, b) == PriOf(cfg, tcb[t]);
      assert stale != Some(t) ==> PriorityOk(cfg, tcb[t], priority[t]);
      assert priority[t := priority[t]] == priority;
      PrioritiesBut(cfg, tcb, priority, stale, t, b, priority[t]);
    }

    /** `change_priority`: what the task holds and its base priority are up to date already,
        its cached priority is not. */
    method ChangePriority(t: nat, newpri: nat, mtxmode: bool) returns (r: bool)
      requires stale == None
      requires Scheduled() && Queues(tcb, priority, readyQueue, None)
      requires t < |tcb| == |priority| && Priorities(cfg, tcb, priority[t := newpri], None) && priority[t] < TNUM_TPRI
      requires tcb[t].tstat.Runnable? ==> t in ReadyOf(K(), priority[t])
      requires forall o :: 0 <= o < |obj| ==> forall x :: x in obj[o].waitQueue ==> x < |tcb|
      modifies `priority, `readyQueue, `schedtsk, `obj, primap
      ensures Valid() && K() == Reposition(old(K()), t, old(priority[t]), mtxmode)
      ensures r <==> dspflg && schedtsk != old(schedtsk)
    {
      PriorityRange(cfg, tcb, priority[t := newpri], None, t);
      if tcb[t].tstat.Runnable? {
        RepositionIs(K(), t, priority[t], newpri, mtxmode);
        r := MoveReady(t, newpri, mtxmode);
      } else {
        MoveOther(t, newpri);
        r := false;
      }
    }

    /** The case of a task that cannot run. */
    method MoveOther(t: nat, newpri: nat)
      requires stale == None
      requires Scheduled() && Queues(tcb, priority, readyQueue, None)
      requires t < |tcb| == |priority| && Priorities(cfg, tcb, priority[t := newpri], None) && !tcb[t].tstat.Runnable?
      requires forall o :: 0 <= o < |obj| ==> forall x :: x in obj[o].waitQueue ==> x < |tcb|
      modifies `priority, `obj
      ensures Valid() && forall oldpri, mtxmode :: K() == Reposition(old(K()), t, oldpri, mtxmode)
    {
      NotRunnableUnqueued(tcb, priority, readyQueue, t);
      ChangeUnqueued(tcb, priority, readyQueue, t, tcb[t], newpri);
      assert tcb[t := tcb[t]] == tcb;
      priority := priority[t := newpri];
      if tcb[t].tstat.Waiting? && tcb[t].tstat.cause.OnObject? {
        WobjChangePriority(tcb[t].tstat.cause.obj, t);
      }
    }

    /** The case of a runnable task. */
    method MoveReady(t: nat, newpri: nat, mtxmode: bool) returns (r: bool)
      requires Scheduled() && Queues(tcb, priority, readyQueue, None)
      requires t < |tcb| == |priority| && newpri < TNUM_TPRI && priority[t] < TNUM_TPRI
      requires tcb[t].tstat.Runnable? && t in readyQueue[priority[t]]
      modifies `priority, `readyQueue, `schedtsk, primap
      ensures Scheduled() && Queues(tcb, priority, readyQueue, None) && priority == old(priority)[t := newpri]
      ensures readyQueue == Moved(old(readyQueue), t, old(priority[t]), newpri, mtxmode)
      ensures r <==> dspflg && schedtsk != old(schedtsk)
    {
      var oldpri := priority[t];
      MovedTop(tcb, priority, readyQueue, primap.marks, t, newpri, mtxmode);
      Requeue(t, newpri, mtxmode);
      r := false;
      if schedtsk == Some(t) {
        if newpri >= oldpri {
          var first := SearchSchedtsk();
          schedtsk := Some(first);
          r := first != t && dspflg;
        }
      } else if if mtxmode then newpri <= priority[schedtsk.value] else newpri < priority[schedtsk.value] {
        schedtsk := Some(t);
        r := dspflg;
      }
    }

    /** From the queue of its old priority to the queue of its new one. */
    method Requeue(t: nat, newpri: nat, front: bool)
      requires primap.Valid() && Mapped(readyQueue, primap.marks) && Queues(tcb, priority, readyQueue, None)
      requires t < |tcb| == |priority| && newpri < TNUM_TPRI && priority[t] < TNUM_TPRI && t in readyQueue[priority[t]]
      modifies `priority, `readyQueue, primap
      ensures primap.Valid() && Mapped(readyQueue, primap.marks) && Queues(tcb, priority, readyQueue, None)
      ensures primap.marks != {} && priority == old(priority)[t := newpri]
      ensures readyQueue == Moved(old(readyQueue), t, old(priority[t]), newpri, front)
    {
      var oldpri := priority[t];
      MovedOk(tcb, priority, readyQueue, primap.marks, t, newpri, front);
      priority := priority[t := newpri];
      readyQueue := readyQueue[oldpri := Remove(readyQueue[oldpri], t)];
      if readyQueue[oldpri] == [] { primap.Clear(oldpri); }
      readyQueue := readyQueue[newpri := if front then [t] + readyQueue[newpri] else readyQueue[newpri] + [t]];
      primap.Set(newpri);
      assert newpri in primap.marks;
    }

    /** `wobj_change_priority`. */
    method WobjChangePriority(o: nat, t: nat)
      requires stale == None
      requires Valid() && t < |tcb| && tcb[t].tstat.Waiting? && tcb[t].tstat.cause == OnObject(o)
      requires o < |obj| ==> forall x :: x in obj[o].waitQueue ==> x < |tcb|
      modifies `obj
      ensures Valid() && K() == if IsTpri(cfg, o) then JoinQueue(LeaveQueue(old(K()), t), t, o) else old(K())
    {
      if o < |obj| && o < |cfg.objects| && cfg.objects[o].tpri {
        PrisAre(K(), priority);
        RequeuedIs(K(), t, o);
        var q := Remove(obj[o].waitQueue, t);
        RemoveIn(obj[o].waitQueue, t);
        var q' := QueueInsertTpri(q, t);
        obj := obj[o := obj[o].(waitQueue := q')];
      }
    }

    /** `queue_insert_tpri`: the place is in front of the first task of lower priority. */
    method QueueInsertTpri(queue: seq<nat>, t: nat) returns (r: seq<nat>)
      requires t < |priority| && forall x :: x in queue ==> x < |priority|
      ensures r == InsertTpri(priority, queue, t)
    {
      var pri := priority[t];
      var entry := 0;
      while entry < |queue|
        invariant entry <= |queue|
        invariant forall j :: 0 <= j < entry ==> PriIn(priority, queue[j]) <= PriIn(priority, t)
      {
        assert queue[entry] in queue;
        if pri < priority[queue[entry]] { break; }
        entry := entry + 1;
      }
      InsertAt(priority, queue, t, entry);
      r := queue[..entry] + [t] + queue[entry..];
    }

    /** `rotate_ready_queue`. */
    method RotateReadyQueue(pri: nat) returns (r: bool)
      requires Valid() && pri < TNUM_TPRI
      modifies `readyQueue, `schedtsk
      ensures Valid() && K() == Rotate(old(K()), pri)
      ensures r <==> dspflg && schedtsk != old(schedtsk)
    {
      r := false;
      if |readyQueue[pri]| > 1 {
        Rotated(tcb, priority, readyQueue, primap.marks, pri);
        var entry := readyQueue[pri][0];
        readyQueue := readyQueue[pri := readyQueue[pri][1..] + [entry]];
        if schedtsk == Some(entry) {
          schedtsk := Some(readyQueue[pri][0]);
          r := dspflg;
        }
      }
    }

    // ---- waiting

    /** `make_non_wait`. */
    method MakeNonWait(t: nat) returns (r: bool)
      requires stale != Some(t)
      requires Valid() && t < |tcb| && tcb[t].tstat.Waiting?
      modifies `tcb, `readyQueue, `schedtsk, primap
      ensures Valid() && K() == KernelState.MakeNonWait(old(K()), t)
      ensures r <==> dspflg && schedtsk != old(schedtsk)
    {
      NotRunnableUnqueued(tcb, priority, readyQueue, t);
      if !tcb[t].tstat.suspended {
        SetStateOk(t, Runnable);
        tcb := tcb[t := tcb[t].(tstat := Runnable)];
        r := MakeRunnable(t);
      } else {
        SetStateOk(t, Suspended);
        tcb := tcb[t := tcb[t].(tstat := Suspended)];
        r := false;
      }
    }

    /** `wait_dequeue_wobj`. */
    method WaitDequeueWobj(t: nat)
      requires Valid() && t < |tcb|
      modifies `obj
      ensures Valid() && K() == LeaveQueue(old(K()), t)
    {
      if tcb[t].tstat.Waiting? && tcb[t].tstat.cause.OnObject? {
        var o := tcb[t].tstat.cause.obj;
        if o < |obj| {
          obj := obj[o := obj[o].(waitQueue := Remove(obj[o].waitQueue, t))];
        }
      }
    }

    /** `wait_dequeue_tmevtb`; it reads the time event member of the union, which must not
        have been overwritten by a result code. */
    method WaitDequeueTmevtb(t: nat)
      requires Valid() && heap.Valid() && t < |tcb| && tcb[t].winfo.Tmevtb?
      requires tcb[t].winfo.registered ==> TaskTimeout(t) in heap.tm.pending
      modifies heap, heap.tmevtHeap
      ensures Valid() && heap.Valid() && K() == DequeueTimeout(old(K()), t)
    {
      if tcb[t].winfo.registered {
        heap.TmevtbDelete(TaskTimeout(t));
      }
    }

    /** The result code of a wait that ends. */
    method SetWercd(t: nat, ercd: ER)
      requires stale != Some(t)
      requires Valid() && t < |tcb| && tcb[t].tstat.Waiting?
      modifies `tcb
      ensures Valid() && K() == SetWinfo(old(K()), t, Wercd(ercd))
    {
      NotRunnableUnqueued(tcb, priority, readyQueue, t);
      var b := tcb[t].(winfo := Wercd(ercd));
      ChangeUnqueued(tcb, priority, readyQueue, t, b, priority[t]);
      assert priority[t := priority[t]] == priority;
      assert PriOf(cfg, b) == PriOf(cfg, tcb[t]);
      assert stale != Some(t) ==> PriorityOk(cfg, tcb[t], priority[t]);
      PrioritiesBut(cfg, tcb, priority, stale, t, b, priority[t]);
      tcb := tcb[t := b];
    }

    /** `wait_complete`, with the result code as a parameter. */
    method WaitComplete(t: nat, ercd: ER) returns (r: bool)
      requires stale != Some(t)
      requires Valid() && heap.Valid() && t < |tcb| && tcb[t].tstat.Waiting? && tcb[t].winfo.Tmevtb?
      requires tcb[t].winfo.registered ==> TaskTimeout(t) in heap.tm.pending
      modifies `tcb, `readyQueue, `schedtsk, primap, heap, heap.tmevtHeap
      ensures Valid() && heap.Valid() && K() == KernelState.WaitComplete(old(K()), t, ercd)
      ensures r <==> dspflg && schedtsk != old(schedtsk)
    {
      GiveResult(t, ercd);
      r := MakeNonWait(t);
    }

    /** `wait_release`, with the result code as a parameter. */
    method WaitRelease(t: nat, ercd: ER) returns (r: bool)
      requires stale != Some(t)
      requires Valid() && heap.Valid() && t < |tcb| && tcb[t].tstat.Waiting? && tcb[t].winfo.Tmevtb?
      requires tcb[t].winfo.registered ==> TaskTimeout(t) in heap.tm.pending
      modifies `tcb, `obj, `readyQueue, `schedtsk, primap, heap, heap.tmevtHeap
      ensures Valid() && heap.Valid() && K() == KernelState.WaitRelease(old(K()), t, ercd)
      ensures r <==> dspflg && schedtsk != old(schedtsk)
    {
      WaitDequeueWobj(t);
      r := WaitComplete(t, ercd);
    }

    /** The heap array has room for every event there can be. */
    ghost predicate HasRoom() {
      heap.tmevtHeap.Length >= |cfg.ipriority| + |cfg.cyclics| + cfg.alarms
    }

    /** The running task enters a wait: the state the service call sets, and what
        `make_wait` and `make_wait_tmout` have in common. */
    method MakeWait(cause: Cause, registered: bool)
      requires stale == None
      requires Valid() && runtsk.Some? && runtsk.value < |tcb| && runtsk.value in ReadyOf(K(), priority[runtsk.value])
      modifies `tcb, `readyQueue, `schedtsk, primap
      ensures Valid()
      ensures K() == var d := KernelState.MakeNonRunnable(old(K()), runtsk.value);
                     SetTcb(d, runtsk.value, TcbOf(d, runtsk.value).(tstat := Waiting(cause, false), winfo := Tmevtb(registered)))
    {
      var r := runtsk.value;
      ghost var k := K();
      PriorityRange(cfg, tcb, priority, stale, r);
      StartWait(r, cause);
      var dspreq := MakeNonRunnable(r);
      WaitingCommutes(k, r, priority[r], cause, registered, K());
      SetTmevtb(r, registered);
    }

    method MakeWaitTmout(cause: Cause, tmout: int)
      requires stale == None
      requires Valid() && heap.Valid() && |heap.tm.pending| < heap.tmevtHeap.Length
      requires runtsk.Some? && runtsk.value < |tcb| && runtsk.value in ReadyOf(K(), priority[runtsk.value])
      requires TaskTimeout(runtsk.value) !in heap.tm.pending && tmout <= TMAX_RELTIM
      modifies `tcb, `readyQueue, `schedtsk, primap, heap, heap.tmevtHeap
      ensures Valid() && heap.Valid()
      ensures K() == Armed(KernelState.MakeNonRunnable(old(K()), runtsk.value), runtsk.value, cause, TimeoutOf(tmout))
    {
      MakeWait(cause, tmout > 0);
      if tmout > 0 {
        heap.TmevtbEnqueue(TaskTimeout(runtsk.value), tmout);
      }
    }

    method StartWait(r: nat, cause: Cause)
      requires stale == None
      requires Valid() && r < |tcb|
      modifies `tcb
      ensures Scheduled() && Priorities(cfg, tcb, priority, stale) && Queues(tcb, priority, readyQueue, Some(r))
      ensures K() == SetState(old(K()), r, Waiting(cause, false))
    {
      var b := tcb[r].(tstat := Waiting(cause, false));
      forall p | 0 <= p < |readyQueue| ensures QueueOk(tcb[r := b], priority, readyQueue[p], p, Some(r)) {
        assert QueueOk(tcb, priority, readyQueue[p], p, None);
      }
      assert PriOf(cfg, b) == PriOf(cfg, tcb[r]);
      assert PriorityOk(cfg, tcb[r], priority[r]);
      assert priority[r := priority[r]] == priority;
      PrioritiesBut(cfg, tcb, priority, stale, r, b, priority[r]);
      tcb := tcb[r := b];
    }

    method SetTmevtb(r: nat, registered: bool)
      requires stale == None
      requires Valid() && r < |tcb| && Unqueued(readyQueue, r)
      modifies `tcb
      ensures Valid() && K() == SetWinfo(old(K()), r, Tmevtb(registered))
    {
      var b := tcb[r].(winfo := Tmevtb(registered));
      ChangeUnqueued(tcb, priority, readyQueue, r, b, priority[r]);
      assert priority[r := priority[r]] == priority;
      assert PriOf(cfg, b) == PriOf(cfg, tcb[r]);
      assert PriorityOk(cfg, tcb[r], priority[r]);
      assert priority[r := priority[r]] == priority;
      PrioritiesBut(cfg, tcb, priority, stale, r, b, priority[r]);
      tcb := tcb[r := b];
    }

    /** `wobj_queue_insert`. */
    method WobjQueueInsert(o: nat, t: nat)
      requires stale == None
      requires Valid() && t < |tcb|
      requires o < |obj| ==> forall x :: x in obj[o].waitQueue ==> x < |tcb|
      modifies `obj
      ensures Valid() && K() == JoinQueue(old(K()), t, o)
    {
      if o < |obj| {
        PrisAre(K(), priority);
        var q;
        if o < |cfg.objects| && cfg.objects[o].tpri {
          q := QueueInsertTpri(obj[o].waitQueue, t);
        } else {
          q := obj[o].waitQueue + [t];
        }
        obj := obj[o := obj[o].(waitQueue := q)];
      }
    }

    // ---- dispatching

    /** `if (dspreq) dispatch();` */
    method DispatchIf(dspreq: bool)
      requires Valid() && (dspreq ==> dspflg) && (dspflg && schedtsk != runtsk ==> dspreq)
      modifies `runtsk
      ensures Valid() && K() == Settle(old(K()))
    {
      if dspreq { runtsk := schedtsk; }
    }

    /** `if (dspreq) reqflg = true;` */
    method RequestIf(dspreq: bool, ghost before: KState)
      requires Valid() && (dspreq <==> dspflg && schedtsk != Top(before.ready))
      modifies `reqflg
      ensures Valid() && K() == Request(before, old(K()))
    {
      if dspreq { reqflg := true; }
    }

    /** `queue_delete_next` on a waiting queue. */
    method DeleteNext(o: nat) returns (t: nat)
      requires Valid() && o < |obj| && obj[o].waitQueue != []
      modifies `obj
      ensures Valid() && t == old(obj[o].waitQueue[0])
      ensures K() == SetQueue(old(K()), o, old(obj[o].waitQueue[1..]))
    {
      t := obj[o].waitQueue[0];
      obj := obj[o := obj[o].(waitQueue := obj[o].waitQueue[1..])];
    }

    method SetLoctsk(m: nat, owner: Option<nat>)
      modifies `obj
      ensures K() == SetOwner(old(K()), m, owner)
    {
      if m < |obj| { obj := obj[m := obj[m].(loctsk := owner)]; }
    }

    /** The first task waiting for `o` leaves the queue and its wait ends. */
    method CompleteFirst(o: nat, ercd: ER) returns (r: bool)
      requires stale == None
      requires Valid() && heap.Valid() && Links(K(), {}, None) && o < |obj| && obj[o].waitQueue != []
      modifies `tcb, `obj, `readyQueue, `schedtsk, primap, heap, heap.tmevtHeap
      ensures Valid() && heap.Valid() && Links(K(), {}, None)
      ensures K() == var q := old(obj[o].waitQueue); KernelState.WaitComplete(SetQueue(old(K()), o, q[1..]), q[0], ercd)
      ensures |obj| == |old(obj)| && obj[o].waitQueue == old(obj[o].waitQueue[1..])
      ensures r <==> dspflg && schedtsk != old(schedtsk)
    {
      ghost var k := K();
      FirstLeaves(k, o, {}, None);
      var t := DeleteNext(o);
      AttachedWaiter(k, t);
      WaitReleaseOk(k, t, ercd, {}, None);
      WaitCompleteOnlyReleases(LeaveQueue(k, t), t, ercd);
      r := WaitComplete(t, ercd);
    }

    /** One round of `init_wait_queue`. */
    method InitFirst(o: nat) returns (r: bool)
      requires stale == None && Valid() && heap.Valid() && Links(K(), {}, None) && o < |obj| && obj[o].waitQueue != []
      modifies `tcb, `obj, `readyQueue, `schedtsk, primap, heap, heap.tmevtHeap
      ensures Valid() && heap.Valid() && Links(K(), {}, None) && o < |obj|
      ensures |obj[o].waitQueue| == old(|obj[o].waitQueue|) - 1
      ensures InitQueue(K(), o, |obj[o].waitQueue|) == InitQueue(old(K()), o, old(|obj[o].waitQueue|))
      ensures r <==> dspflg && schedtsk != old(schedtsk)
    {
      ghost var k := K();
      r := CompleteFirst(o, E_DLT);
      InitQueueStep(k, K(), o);
    }

    /** `init_wait_queue`. */
    method InitWaitQueue(o: nat) returns (dspreq: bool)
      requires stale == None && Valid() && heap.Valid() && Links(K(), {}, None) && o < |obj|
      modifies `tcb, `obj, `readyQueue, `schedtsk, primap, heap, heap.tmevtHeap
      ensures Valid() && heap.Valid() && K() == InitQueue(old(K()), o, old(|obj[o].waitQueue|))
      ensures dspreq ==> dspflg
      ensures dspflg && schedtsk != old(schedtsk) ==> dspreq
    {
      dspreq := false;
      while obj[o].waitQueue != []
        invariant o < |obj| && Valid() && heap.Valid() && Links(K(), {}, None)
        invariant InitQueue(K(), o, |obj[o].waitQueue|) == InitQueue(old(K()), o, old(|obj[o].waitQueue|))
        invariant dspreq ==> dspflg
        invariant dspflg && schedtsk != old(schedtsk) ==> dspreq
        decreases |obj[o].waitQueue|
      {
        var r := InitFirst(o);
        if r { dspreq := true; }
      }
    }

    // ---- mutexes

    /** `mutex_check_ceilpri`. */
    method MutexCheckCeilpri(t: nat, bpriority: nat) returns (ok: bool)
      requires t < |tcb|
      ensures ok <==> CeilingsAllow(K(), t, bpriority)
    {
      var held := tcb[t].held;
      var i := 0;
      while i < |held|
        invariant i <= |held|
        invariant forall j :: 0 <= j < i ==> CeilingAllows(cfg, held[j], bpriority)
      {
        var c := CeilingOf(cfg, held[i]);
        if c.Some? && bpriority < c.value { return false; }
        i := i + 1;
      }
      if tcb[t].tstat.Waiting? && tcb[t].tstat.cause.OnObject? {
        var c := CeilingOf(cfg, tcb[t].tstat.cause.obj);
        if c.Some? && bpriority < c.value { return false; }
      }
      return true;
    }

    /** `mutex_scan_ceilmtx`. */
    method MutexScanCeilmtx(t: nat) returns (r: bool)
      requires t < |tcb|
      ensures r <==> HoldsCeiling(K(), t)
    {
      var held := tcb[t].held;
      var i := 0;
      while i < |held|
        invariant i <= |held|
        invariant forall j :: 0 <= j < i ==> CeilingOf(cfg, held[j]).None?
      {
        if CeilingOf(cfg, held[i]).Some? {
          assert CeilingOf(K().cfg, TcbOf(K(), t).held[i]).Some?;
          return true;
        }
        i := i + 1;
      }
      return false;
    }

    /** `mutex_calc_priority`. */
    method MutexCalcPriority(t: nat) returns (pri: nat)
      requires t < |tcb|
      ensures pri == PriOf(cfg, tcb[t])
    {
      var held := tcb[t].held;
      pri := tcb[t].bpriority;
      var i := 0;
      while i < |held|
        invariant i <= |held|
        invariant LowestOf(cfg, held[i..], pri) == PriOf(cfg, tcb[t])
      {
        LowestStep(cfg, held, i, pri);
        var c := CeilingOf(cfg, held[i]);
        if c.Some? && c.value < pri { pri := c.value; }
        i := i + 1;
      }
    }

    /** `mutex_drop_priority`: only if the ceiling given up is the task's priority can that
        have changed. */
    method MutexDropPriority(t: nat, oldpri: nat) returns (r: bool)
      requires stale == None
      requires Scheduled() && Queues(tcb, priority, readyQueue, None)
      requires t < |tcb| == |priority| && Priorities(cfg, tcb, priority[t := PriOf(cfg, tcb[t])], None) && priority[t] < TNUM_TPRI
      requires priority[t] == Min(oldpri, PriOf(cfg, tcb[t]))
      requires tcb[t].tstat.Runnable? ==> t in ReadyOf(K(), priority[t])
      requires forall o :: 0 <= o < |obj| ==> forall x :: x in obj[o].waitQueue ==> x < |tcb|
      modifies `priority, `readyQueue, `schedtsk, `obj, primap
      ensures Valid() && K() == Adjust(old(K()), t, old(priority[t]))
      ensures r <==> dspflg && schedtsk != old(schedtsk)
    {
      if oldpri == priority[t] {
        var newpri := MutexCalcPriority(t);
        if newpri != priority[t] {
          r := ChangePriority(t, newpri, true);
          return;
        }
      }
      assert priority[t := priority[t]] == priority;
      r := false;
    }

    /** Task `t` is the owner of mutex `m`, which goes to the front of its mutex queue. */
    method Own(t: nat, m: nat)
      requires Valid() && stale == None && t < |tcb| && m < |obj|
      modifies `tcb, `obj
      ensures Scheduled() && Queues(tcb, priority, readyQueue, None)
      ensures K() == SetHeld(SetOwner(old(K()), m, Some(t)), t, [m] + old(tcb[t].held))
      ensures |tcb| == |old(tcb)| == |priority| && tcb[t] == old(tcb[t]).(held := [m] + old(tcb[t].held))
      ensures Priorities(cfg, tcb, priority[t := PriOf(cfg, tcb[t])], None)
      ensures |obj| == |old(obj)| && forall o :: 0 <= o < |obj| ==> obj[o].waitQueue == old(obj)[o].waitQueue
    {
      obj := obj[m := obj[m].(loctsk := Some(t))];
      HoldMore(t, [m] + tcb[t].held);
    }

    /** `mutex_acquire`. */
    method MutexAcquire(t: nat, m: nat) returns (r: bool)
      requires stale == None
      requires Valid() && t < |tcb| && m < |obj| && tcb[t].tstat.Runnable? && t in ReadyOf(K(), priority[t])
      requires forall o :: 0 <= o < |obj| ==> forall x :: x in obj[o].waitQueue ==> x < |tcb|
      modifies `tcb, `priority, `readyQueue, `schedtsk, `obj, primap
      ensures Valid() && K() == Acquire(old(K()), t, m)
      ensures r <==> dspflg && schedtsk != old(schedtsk)
    {
      PriorityRange(cfg, tcb, priority, stale, t);
      LowestOfMore(cfg, tcb[t].held, m, tcb[t].bpriority);
      Own(t, m);
      var c := CeilingOf(cfg, m);
      r := false;
      if c.Some? && c.value < priority[t] {
        r := ChangePriority(t, c.value, true);
      } else {
        assert priority[t := priority[t]] == priority;
      }
    }

    /** The mutex queue of `t` changes; its cached priority does not follow at once. */
    method HoldMore(t: nat, held: seq<nat>)
      requires stale == None
      requires Valid() && t < |tcb|
      modifies `tcb
      ensures Scheduled() && Queues(tcb, priority, readyQueue, None)
      ensures K() == SetHeld(old(K()), t, held) && |tcb| == |old(tcb)| == |priority|
      ensures Priorities(cfg, tcb, priority[t := PriOf(cfg, tcb[t])], None)
    {
      var b := tcb[t].(held := held);
      assert PriorityOk(cfg, tcb[t], priority[t]);
      PrioritiesBut(cfg, tcb, priority, stale, t, b, PriOf(cfg, b));
      QueuesBut(tcb, priority, readyQueue, t, b);
      tcb := tcb[t := b];
    }

    /** `mutex_release`: free, or handed over to the first task waiting for it. */
    method MutexRelease(m: nat, ghost lt: set<nat>) returns (r: bool)
      requires Valid() && heap.Valid() && Links(K(), lt, Some(m)) && m < |obj|
      requires stale == None || lt == {stale.value}
      modifies `tcb, `priority, `obj, `readyQueue, `schedtsk, primap, heap, heap.tmevtHeap
      ensures Valid() && heap.Valid() && K() == Release(old(K()), m)
      ensures r <==> dspflg && schedtsk != old(schedtsk)
    {
      if obj[m].waitQueue == [] {
        obj := obj[m := obj[m].(loctsk := None)];
        r := false;
      } else {
        FirstLeaves(K(), m, lt, Some(m));
        FirstMayOwn(K(), m, lt);
        FirstUnion(K(), m, lt);
        r := MutexHandOver(m);
      }
    }

    method MutexHandOver(m: nat) returns (r: bool)
      requires Valid() && heap.Valid() && m < |obj| && obj[m].waitQueue != []
      requires var t := obj[m].waitQueue[0];
               && t < |tcb| && stale != Some(t) && tcb[t].tstat.Waiting? && tcb[t].winfo.Tmevtb?
               && (tcb[t].winfo.registered ==> TaskTimeout(t) in heap.tm.pending)
      modifies `tcb, `priority, `obj, `readyQueue, `schedtsk, primap, heap, heap.tmevtHeap
      ensures Valid() && heap.Valid() && K() == HandOver(old(K()), m)
      ensures r <==> dspflg && schedtsk != old(schedtsk)
    {
      var t := TakeFirst(m);
      Inherit(t, m);
      r := MakeNonWait(t);
    }

    /** The first waiter leaves the queue with success and becomes the owner. */
    method TakeFirst(m: nat) returns (t: nat)
      requires Valid() && heap.Valid() && m < |obj| && obj[m].waitQueue != [] && obj[m].waitQueue[0] < |tcb|
      requires var u := obj[m].waitQueue[0];
               && stale != Some(u) && tcb[u].tstat.Waiting? && tcb[u].winfo.Tmevtb?
               && (tcb[u].winfo.registered ==> TaskTimeout(u) in heap.tm.pending)
      modifies `tcb, `obj, heap, heap.tmevtHeap
      ensures Valid() && heap.Valid() && t == old(obj[m].waitQueue[0])
      ensures K() == SetOwner(SetWinfo(DequeueTimeout(SetQueue(old(K()), m, old(obj[m].waitQueue[1..])), t), t, Wercd(E_OK)),
                              m, Some(t))
      ensures |tcb| == |old(tcb)| && tcb[t].tstat == old(tcb)[t].tstat
    {
      t := DeleteNext(m);
      GiveResult(t, E_OK);
      SetLoctsk(m, Some(t));
    }

    /** The result code of a task in no queue any more, whose timeout is cancelled first. */
    method GiveResult(t: nat, ercd: ER)
      requires stale != Some(t)
      requires Valid() && heap.Valid() && t < |tcb| && tcb[t].tstat.Waiting? && tcb[t].winfo.Tmevtb?
      requires tcb[t].winfo.registered ==> TaskTimeout(t) in heap.tm.pending
      modifies `tcb, heap, heap.tmevtHeap
      ensures Valid() && heap.Valid() && K() == SetWinfo(DequeueTimeout(old(K()), t), t, Wercd(ercd))
      ensures |tcb| == |old(tcb)| && tcb[t].tstat == old(tcb)[t].tstat
    {
      WaitDequeueTmevtb(t);
      SetWercd(t, ercd);
    }

    /** A task that waited for mutex `m` has got it, and with it its ceiling. */
    method Inherit(t: nat, m: nat)
      requires stale != Some(t)
      requires Valid() && t < |tcb| && !tcb[t].tstat.Runnable?
      modifies `tcb, `priority
      ensures Valid() && K() == SetHeld(old(K()), t, old(tcb[t].held) + [m])
      ensures |tcb| == |old(tcb)| && tcb[t].tstat == old(tcb)[t].tstat
    {
      PriorityRange(cfg, tcb, priority, stale, t);
      LowestOfMore(cfg, tcb[t].held, m, tcb[t].bpriority);
      NotRunnableUnqueued(tcb, priority, readyQueue, t);
      var b := tcb[t].(held := tcb[t].held + [m]);
      var c := CeilingOf(cfg, m);
      var pri := if c.Some? && c.value < priority[t] then c.value else priority[t];
      assert PriorityOk(cfg, tcb[t], priority[t]);
      PrioritiesBut(cfg, tcb, priority, stale, t, b, pri);
      ChangeUnqueued(tcb, priority, readyQueue, t, b, pri);
      tcb := tcb[t := b];
      if c.Some? && c.value < priority[t] { priority := priority[t := c.value]; }
      assert priority == old(priority)[t := pri];
    }

    /** `mutex_release_all`, for a task in no queue. */
    method MutexReleaseAll(t: nat) returns (dspreq: bool)
      requires stale == Some(t) && Valid() && heap.Valid() && Links(K(), {t}, None) && t < |tcb|
      modifies `tcb, `priority, `obj, `readyQueue, `schedtsk, primap, heap, heap.tmevtHeap
      ensures Valid() && heap.Valid() && K() == ReleaseAll(old(K()), t, old(|tcb[t].held|))
      ensures dspreq ==> dspflg
      ensures dspflg && schedtsk != old(schedtsk) ==> dspreq
    {
      dspreq := false;
      while tcb[t].held != []
        invariant t < |tcb| && Valid() && heap.Valid() && Links(K(), {t}, None)
        invariant ReleaseAll(K(), t, |tcb[t].held|) == ReleaseAll(old(K()), t, old(|tcb[t].held|))
        invariant dspreq ==> dspflg
        invariant dspflg && schedtsk != old(schedtsk) ==> dspreq
        decreases |tcb[t].held|
      {
        var r := MutexReleaseFirst(t);
        if r { dspreq := true; }
      }
    }

    /** One round of `mutex_release_all`. */
    method MutexReleaseFirst(t: nat) returns (r: bool)
      requires stale == Some(t) && Valid() && heap.Valid() && Links(K(), {t}, None) && t < |tcb| && tcb[t].held != []
      modifies `tcb, `priority, `obj, `readyQueue, `schedtsk, primap, heap, heap.tmevtHeap
      ensures Valid() && heap.Valid() && Links(K(), {t}, None)
      ensures t < |tcb| && |tcb[t].held| == old(|tcb[t].held|) - 1
      ensures ReleaseAll(K(), t, |tcb[t].held|) == ReleaseAll(old(K()), t, old(|tcb[t].held|))
      ensures r <==> dspflg && schedtsk != old(schedtsk)
    {
      ghost var k := K();
      var m := tcb[t].held[0];
      HeldKnown(k, t, m, {t});
      ReleaseFirstOk(k, t, {t});
      LetGo(k, t, m, {t});
      Forget(t, tcb[t].held[1..]);
      r := MutexRelease(m, {t});
      ReleaseAllStep(k, K(), t);
    }

    /** The mutex queue of a task that is being terminated shrinks; its priority stays. */
    method Forget(t: nat, held: seq<nat>)
      requires Valid() && t < |tcb| && stale == Some(t)
      modifies `tcb
      ensures Valid() && K() == SetHeld(old(K()), t, held)
    {
      var b := tcb[t].(held := held);
      PrioritiesBut(cfg, tcb, priority, stale, t, b, priority[t]);
      assert priority[t := priority[t]] == priority;
      QueuesBut(tcb, priority, readyQueue, t, b);
      tcb := tcb[t := b];
    }

    // ---- the start

    /** What the kernel does between its initialization and its first task: the tasks of TA_ACT
        are activated, the cyclic handlers of TA_STA started, and the first task runs. */
    method StartUp(tick: Tick, act: seq<nat>, sta: seq<nat>)
      requires Valid() && stale == None && heap.Valid() && HasRoom() && K() == Reset(cfg, tick)
      requires ValidConfig(cfg) && ValidTick(tick) && NoDup(act) && NoDup(sta)
      requires (forall t :: t in act ==> t < |cfg.ipriority|) && (forall c :: c in sta ==> c < |cfg.cyclics|)
      modifies this, primap, heap, heap.tmevtHeap
      ensures Ready() && K() == Boot(cfg, tick, act, sta)
    {
      ResetOk(cfg, tick);
      ActivateAllOk(K(), act);
      BootOk(cfg, tick, act, sta);
      ActivateTasks(act);
      NewHandlers(cfg, tick, act);
      StartAllOk(K(), sta);
      StartHandlers(sta);
      Dispatch();
    }

    /** The loop of `initialize_task`. */
    method ActivateTasks(act: seq<nat>)
      requires Valid() && stale == None && NewTasks(act)
      modifies `tcb, `readyQueue, `schedtsk, primap
      ensures Valid() && K() == ActivateAll(old(K()), act)
    {
      var rest: seq<nat> := act;
      while rest != []
        invariant Valid() && NewTasks(rest)
        invariant ActivateAll(K(), rest) == ActivateAll(old(K()), act)
        decreases |rest|
      {
        ActivateFirst(rest);
        rest := rest[1..];
      }
    }

    ghost predicate NewTasks(act: seq<nat>)
      reads `tcb
    {
      NoDup(act) && forall t :: t in act ==> t < |tcb| && tcb[t].tstat.Dormant?
    }

    method ActivateFirst(act: seq<nat>)
      requires Valid() && stale == None && NewTasks(act) && act != []
      modifies `tcb, `readyQueue, `schedtsk, primap
      ensures Valid() && NewTasks(act[1..]) && K() == KernelState.MakeActive(old(K()), act[0])
    {
      NoDupTail(act);
      assert act[0] in act;
      ActiveIs(K(), act[0]);
      var dspreq := MakeActive(act[0]);
    }

    /** The loop of `initialize_cyclic`. */
    method StartHandlers(sta: seq<nat>)
      requires Valid() && stale == None && heap.Valid() && HasRoom() && Startable(K(), sta)
      modifies `cycsta, heap, heap.tmevtHeap
      ensures Valid() && heap.Valid() && K() == StartAll(old(K()), sta)
    {
      var rest: seq<nat> := sta;
      while rest != []
        invariant Valid() && heap.Valid() && Startable(K(), rest)
        invariant StartAll(K(), rest) == StartAll(old(K()), sta)
        decreases |rest|
      {
        StartFirst(rest);
        rest := rest[1..];
      }
    }

    method StartFirst(sta: seq<nat>)
      requires Valid() && stale == None && heap.Valid() && HasRoom() && Startable(K(), sta) && sta != []
      modifies `cycsta, heap, heap.tmevtHeap
      ensures Valid() && heap.Valid() && K() == StartCyclic(old(K()), sta[0]) && Startable(K(), sta[1..])
    {
      StartableNext(K(), sta);
      StartHandler(sta[0]);
    }

    method StartHandler(c: nat)
      requires Valid() && heap.Valid() && c < |cycsta| == |cfg.cyclics| && CyclicEvent(c) !in heap.tm.pending
      requires cfg.cyclics[c].cycphs <= TMAX_RELTIM && TimerOk(EnqueueAt(heap.tm, CyclicEvent(c), cfg.cyclics[c].cycphs))
      requires |heap.tm.pending| < heap.tmevtHeap.Length
      modifies `cycsta, heap, heap.tmevtHeap
      ensures Valid() && heap.Valid() && K() == StartCyclic(old(K()), c)
    {
      cycsta := cycsta[c := true];
      heap.TmevtbEnqueueEvttim(CyclicEvent(c), cfg.cyclics[c].cycphs, cfg.cyclics[c].cycphs);
    }

    // ---- service calls

    /** Between two steps of the kernel. */
    ghost predicate Ready()
      reads this, primap, heap, heap.tmevtHeap
    {
      Valid() && stale == None && heap.Valid() && HasRoom() && System(K())
    }

    method ActTsk(t: nat) returns (ercd: ER)
      requires Ready() && InTask(K()) && t < |tcb|
      modifies this, primap
      ensures Valid() && stale == None && Outcome(K(), ercd) == KernelCalls.ActTsk(old(K()), t)
    {
      if tcb[t].tstat.Dormant? {
        FirstRuns(K());
        var r := MakeActive(t);
        DispatchIf(r);
        ercd := E_OK;
      } else {
        ercd := QueueActivationOf(t);
      }
    }

    method IactTsk(t: nat) returns (ercd: ER)
      requires Ready() && inInt && t < |tcb|
      modifies this, primap
      ensures Valid() && stale == None && Outcome(K(), ercd) == KernelCalls.IactTsk(old(K()), t)
    {
      if tcb[t].tstat.Dormant? {
        ghost var k := K();
        var r := MakeActive(t);
        RequestIf(r, k);
        ercd := E_OK;
      } else {
        ercd := QueueActivationOf(t);
      }
    }

    /** An activation of a task that is active already is queued, at most once. */
    method QueueActivationOf(t: nat) returns (ercd: ER)
      requires Valid() && t < |tcb|
      modifies `tcb
      ensures Valid()
      ensures K() == if old(tcb[t].actque) then old(K()) else QueueActivation(old(K()), t, true)
      ensures ercd == if old(tcb[t].actque) then E_QOVR else E_OK
    {
      if !tcb[t].actque {
        SetCounts(t, true, tcb[t].wupque);
        ercd := E_OK;
      } else {
        ercd := E_QOVR;
      }
    }

    method SetCounts(t: nat, actque: bool, wupque: bool)
      requires Valid() && t < |tcb|
      modifies `tcb
      ensures Valid() && K() == SetTcb(old(K()), t, old(tcb[t]).(actque := actque, wupque := wupque))
    {
      var b := tcb[t].(actque := actque, wupque := wupque);
      assert PriOf(cfg, b) == PriOf(cfg, tcb[t]);
      assert stale != Some(t) ==> PriorityOk(cfg, tcb[t], priority[t]);
      assert priority[t := priority[t]] == priority;
      PrioritiesBut(cfg, tcb, priority, stale, t, b, priority[t]);
      QueuesBut(tcb, priority, readyQueue, t, b);
      tcb := tcb[t := b];
    }

    method CompleteAndDispatch(t: nat)
      requires Valid() && heap.Valid() && stale == None && t < |tcb| && tcb[t].tstat.Waiting? && tcb[t].winfo.Tmevtb?
      requires tcb[t].winfo.registered ==> TaskTimeout(t) in heap.tm.pending
      requires dspflg ==> runtsk == schedtsk
      modifies `tcb, `readyQueue, `schedtsk, `runtsk, primap, heap, heap.tmevtHeap
      ensures Valid() && heap.Valid() && K() == Settle(KernelState.WaitComplete(old(K()), t, E_OK))
    {
      var r := WaitComplete(t, E_OK);
      DispatchIf(r);
    }

    method CompleteAndRequest(t: nat)
      requires Valid() && heap.Valid() && stale == None && t < |tcb| && tcb[t].tstat.Waiting? && tcb[t].winfo.Tmevtb?
      requires tcb[t].winfo.registered ==> TaskTimeout(t) in heap.tm.pending
      modifies `tcb, `readyQueue, `schedtsk, `reqflg, primap, heap, heap.tmevtHeap
      ensures Valid() && heap.Valid() && K() == Request(old(K()), KernelState.WaitComplete(old(K()), t, E_OK))
    {
      ghost var k := K();
      var r := WaitComplete(t, E_OK);
      RequestIf(r, k);
    }

    method WupTsk(t: nat) returns (ercd: ER)
      requires Ready() && InTask(K()) && t < |tcb|
      modifies this, primap, heap, heap.tmevtHeap
      ensures Valid() && stale == None && heap.Valid() && Outcome(K(), ercd) == KernelCalls.WupTsk(old(K()), t)
    {
      if tcb[t].tstat.Dormant? {
        ercd := E_OBJ;
      } else if tcb[t].tstat.Waiting? && tcb[t].tstat.cause.Sleep? {
        FirstRuns(K());
        WaiterFacts(K(), t);
        CompleteAndDispatch(t);
        ercd := E_OK;
      } else if !tcb[t].wupque {
        SetCounts(t, tcb[t].actque, true);
        ercd := E_OK;
      } else {
        ercd := E_QOVR;
      }
    }

    method IwupTsk(t: nat) returns (ercd: ER)
      requires Ready() && inInt && t < |tcb|
      modifies this, primap, heap, heap.tmevtHeap
      ensures Valid() && stale == None && heap.Valid() && Outcome(K(), ercd) == KernelCalls.IwupTsk(old(K()), t)
    {
      if tcb[t].tstat.Dormant? {
        ercd := E_OBJ;
      } else if tcb[t].tstat.Waiting? && tcb[t].tstat.cause.Sleep? {
        WaiterFacts(K(), t);
        CompleteAndRequest(t);
        ercd := E_OK;
      } else if !tcb[t].wupque {
        SetCounts(t, tcb[t].actque, true);
        ercd := E_OK;
      } else {
        ercd := E_QOVR;
      }
    }

    method RelWai(t: nat) returns (ercd: ER)
      requires Ready() && InTask(K()) && t < |tcb|
      modifies this, primap, heap, heap.tmevtHeap
      ensures Valid() && stale == None && heap.Valid() && Outcome(K(), ercd) == KernelCalls.RelWai(old(K()), t)
    {
      if !tcb[t].tstat.Waiting? { return E_OBJ; }
      FirstRuns(K());
      WaiterFacts(K(), t);
      ReleaseAndDispatch(t);
      ercd := E_OK;
    }

    method ReleaseAndDispatch(t: nat)
      requires Valid() && heap.Valid() && stale == None && t < |tcb| && tcb[t].tstat.Waiting? && tcb[t].winfo.Tmevtb?
      requires tcb[t].winfo.registered ==> TaskTimeout(t) in heap.tm.pending
      requires dspflg ==> runtsk == schedtsk
      modifies `tcb, `obj, `readyQueue, `schedtsk, `runtsk, primap, heap, heap.tmevtHeap
      ensures Valid() && heap.Valid() && K() == Settle(KernelState.WaitRelease(old(K()), t, E_RLWAI))
    {
      var r := WaitRelease(t, E_RLWAI);
      DispatchIf(r);
    }

    method IrelWai(t: nat) returns (ercd: ER)
      requires Ready() && inInt && t < |tcb|
      modifies this, primap, heap, heap.tmevtHeap
      ensures Valid() && stale == None && heap.Valid() && Outcome(K(), ercd) == KernelCalls.IrelWai(old(K()), t)
    {
      if !tcb[t].tstat.Waiting? { return E_OBJ; }
      ghost var k := K();
      WaiterFacts(k, t);
      var r := WaitRelease(t, E_RLWAI);
      RequestIf(r, k);
      ercd := E_OK;
    }

    /** The running task waits, and the next one runs. */
    method WaitAndDispatch(cause: Cause, tmout: int)
      requires Ready() && InTask(K()) && dspflg && tmout <= TMAX_RELTIM
      requires cause.OnObject? ==> cause.obj < |obj|
      modifies this, primap, heap, heap.tmevtHeap
      ensures Valid() && stale == None && heap.Valid()
      ensures K() == Settle(EnterWait(old(K()), old(runtsk.value), cause, TimeoutOf(tmout)))
    {
      RunnerFacts(K(), runtsk.value);
      RunnerPriority();
      RoomFor(K(), TaskTimeout(runtsk.value));
      WaitersKnown(K());
      JoinWait(cause, tmout);
      Dispatch();
    }

    method JoinWait(cause: Cause, tmout: int)
      requires Valid() && stale == None && heap.Valid() && |heap.tm.pending| < heap.tmevtHeap.Length
      requires runtsk.Some? && runtsk.value < |tcb| && runtsk.value in ReadyOf(K(), priority[runtsk.value])
      requires TaskTimeout(runtsk.value) !in heap.tm.pending && tmout <= TMAX_RELTIM
      requires (cause.OnObject? ==> cause.obj < |obj|) && KnownWaiters()
      modifies `tcb, `readyQueue, `schedtsk, `obj, primap, heap, heap.tmevtHeap
      ensures Valid() && heap.Valid() && K() == KernelState.EnterWait(old(K()), runtsk.value, cause, TimeoutOf(tmout))
    {
      MakeWaitTmout(cause, tmout);
      if cause.OnObject? { WobjQueueInsert(cause.obj, runtsk.value); }
    }

    /** `dispatch`. */
    method Dispatch()
      requires Valid() && dspflg
      modifies `runtsk
      ensures Valid() && K() == Settle(old(K()))
    {
      runtsk := schedtsk;
    }

    lemma RunnerPriority()
      requires Valid() && stale == None && runtsk.Some? && runtsk.value < |tcb|
      ensures priority[runtsk.value] == Pri(K(), runtsk.value)
    {
      PriorityRange(cfg, tcb, priority, stale, runtsk.value);
    }

    /** `slp_tsk` (with TMO_FEVR) and `tslp_tsk`. */
    method SlpTsk(tmout: int) returns (ercd: ER)
      requires Ready() && InTask(K()) && dspflg && ValidTmout(tmout)
      modifies this, primap, heap, heap.tmevtHeap
      ensures Valid() && stale == None && heap.Valid() && Outcome(K(), ercd) == KernelCalls.SlpTsk(old(K()), tmout)
    {
      if tcb[runtsk.value].wupque {
        SetCounts(runtsk.value, tcb[runtsk.value].actque, false);
        ercd := E_OK;
      } else if tmout == TMO_POL {
        ercd := E_TMOUT;
      } else {
        WaitAndDispatch(Sleep, tmout);
        ercd := Blocked;
      }
    }

    method DlyTsk(dlytim: nat) returns (ercd: ER)
      requires Ready() && InTask(K()) && dspflg && dlytim <= TMAX_RELTIM
      modifies this, primap, heap, heap.tmevtHeap
      ensures Valid() && stale == None && heap.Valid() && Outcome(K(), ercd) == KernelCalls.DlyTsk(old(K()), dlytim)
    {
      RunnerFacts(K(), runtsk.value);
      RunnerPriority();
      RoomFor(K(), TaskTimeout(runtsk.value));
      Delay(dlytim);
      Dispatch();
      ercd := Blocked;
    }

    method Delay(dlytim: nat)
      requires Valid() && stale == None && heap.Valid() && |heap.tm.pending| < heap.tmevtHeap.Length
      requires runtsk.Some? && runtsk.value < |tcb| && runtsk.value in ReadyOf(K(), priority[runtsk.value])
      requires TaskTimeout(runtsk.value) !in heap.tm.pending && dlytim <= TMAX_RELTIM
      modifies `tcb, `readyQueue, `schedtsk, primap, heap, heap.tmevtHeap
      ensures Valid() && heap.Valid()
      ensures K() == EnterWait(old(K()), runtsk.value, Cause.Delay, Some(dlytim))
    {
      MakeWait(Cause.Delay, true);
      heap.TmevtbEnqueue(TaskTimeout(runtsk.value), dlytim);
    }

    method SusTsk(t: nat) returns (ercd: ER)
      requires Ready() && InTask(K()) && t < |tcb|
      modifies this, primap
      ensures Valid() && stale == None && Outcome(K(), ercd) == KernelCalls.SusTsk(old(K()), t)
    {
      if runtsk == Some(t) && !dspflg {
        ercd := E_CTX;
      } else if tcb[t].tstat.Dormant? {
        ercd := E_OBJ;
      } else if tcb[t].tstat.Runnable? {
        Suspend(t);
        ercd := E_OK;
      } else if tcb[t].tstat.Suspended? || tcb[t].tstat.suspended {
        ercd := E_QOVR;
      } else {
        ChangeWaiting(t, true);
        ercd := E_OK;
      }
    }

    /** From runnable to suspended. */
    method Suspend(t: nat)
      requires Ready() && InTask(K()) && t < |tcb| && tcb[t].tstat.Runnable?
      modifies `tcb, `readyQueue, `schedtsk, `runtsk, primap
      ensures Valid()
      ensures K() == Settle(KernelState.MakeNonRunnable(SetState(old(K()), t, Suspended), t))
    {
      FirstRuns(K());
      RunnerFacts(K(), t);
      PriorityRange(cfg, tcb, priority, stale, t);
      SetLoose(t, Suspended);
      var r := MakeNonRunnable(t);
      DispatchIf(r);
    }

    /** A task that is still in its ready queue gets a state in which it cannot run. */
    method SetLoose(t: nat, tstat: TaskState)
      requires Valid() && t < |tcb| && stale == None
      modifies `tcb
      ensures Scheduled() && Priorities(cfg, tcb, priority, stale) && Queues(tcb, priority, readyQueue, Some(t))
      ensures K() == SetState(old(K()), t, tstat)
    {
      var b := tcb[t].(tstat := tstat);
      forall p | 0 <= p < |readyQueue| ensures QueueOk(tcb[t := b], priority, readyQueue[p], p, Some(t)) {
        assert QueueOk(tcb, priority, readyQueue[p], p, None);
      }
      assert PriorityOk(cfg, tcb[t], priority[t]);
      assert priority[t := priority[t]] == priority;
      PrioritiesBut(cfg, tcb, priority, stale, t, b, priority[t]);
      tcb := tcb[t := b];
    }

    /** A waiting task is suspended as well, or no longer. */
    method ChangeWaiting(t: nat, suspended: bool)
      requires Valid() && t < |tcb| && stale == None && tcb[t].tstat.Waiting?
      modifies `tcb
      ensures Valid() && K() == SetState(old(K()), t, Waiting(old(tcb[t].tstat.cause), suspended))
    {
      var tstat := Waiting(tcb[t].tstat.cause, suspended);
      NotRunnableUnqueued(tcb, priority, readyQueue, t);
      SetStateOk(t, tstat);
      tcb := tcb[t := tcb[t].(tstat := tstat)];
    }

    method RsmTsk(t: nat) returns (ercd: ER)
      requires Ready() && InTask(K()) && t < |tcb|
      modifies this, primap
      ensures Valid() && stale == None && Outcome(K(), ercd) == KernelCalls.RsmTsk(old(K()), t)
    {
      match tcb[t].tstat
      case Suspended =>
        FirstRuns(K());
        var r := MakeActive(t);
        DispatchIf(r);
        ercd := E_OK;
      case Waiting(_, true) =>
        ChangeWaiting(t, false);
        ercd := E_OK;
      case _ => ercd := E_OBJ;
    }

    // ---- precedence and dispatching

    method RotRdq(pri: nat) returns (ercd: ER)
      requires Ready() && InTask(K()) && pri < TNUM_TPRI
      modifies this
      ensures Valid() && stale == None && Outcome(K(), ercd) == KernelCalls.RotRdq(old(K()), pri)
    {
      FirstRuns(K());
      var r := RotateReadyQueue(pri);
      DispatchIf(r);
      ercd := E_OK;
    }

    method IrotRdq(pri: nat) returns (ercd: ER)
      requires Ready() && inInt && pri < TNUM_TPRI
      modifies this
      ensures Valid() && stale == None && Outcome(K(), ercd) == KernelCalls.IrotRdq(old(K()), pri)
    {
      ghost var k := K();
      var r := RotateReadyQueue(pri);
      RequestIf(r, k);
      ercd := E_OK;
    }

    method DisDsp() returns (ercd: ER)
      requires Ready() && InTask(K())
      modifies this
      ensures Valid() && stale == None && Outcome(K(), ercd) == KernelCalls.DisDsp(old(K()))
    {
      disdsp := true;
      dspflg := false;
      ercd := E_OK;
    }

    method EnaDsp() returns (ercd: ER)
      requires Ready() && InTask(K())
      modifies this
      ensures Valid() && stale == None && Outcome(K(), ercd) == KernelCalls.EnaDsp(old(K()))
    {
      disdsp := false;
      if ipmflg {
        dspflg := true;
        if runtsk != schedtsk { Dispatch(); }
      }
      ercd := E_OK;
    }

    /** `chg_ipm`: `all` if the new mask is TIPM_ENAALL. */
    method ChgIpm(all: bool) returns (ercd: ER)
      requires Ready() && InTask(K())
      modifies this
      ensures Valid() && stale == None && Outcome(K(), ercd) == KernelCalls.ChgIpm(old(K()), all)
    {
      if all {
        ipmflg := true;
        if !disdsp {
          dspflg := true;
          if runtsk != schedtsk { Dispatch(); }
        }
      } else {
        ipmflg := false;
        dspflg := false;
      }
      ercd := E_OK;
    }

    // ---- the end of a task

    /** `make_dormant`. */
    method MakeDormant(t: nat)
      requires Valid() && t < |tcb| && stale == Some(t) && tcb[t].held == [] && Unqueued(readyQueue, t)
      requires ValidConfig(cfg) && t < |cfg.ipriority|
      modifies `tcb, `priority, `stale
      ensures Valid() && stale == None && K() == KernelState.MakeDormant(old(K()), t)
    {
      var b := tcb[t].(tstat := Dormant, bpriority := cfg.ipriority[t], wupque := false);
      ChangeUnqueued(tcb, priority, readyQueue, t, b, cfg.ipriority[t]);
      PrioritiesBut(cfg, tcb, priority, stale, t, b, cfg.ipriority[t]);
      tcb := tcb[t := b];
      priority := priority[t := cfg.ipriority[t]];
      stale := None;
      assert PriorityOk(cfg, tcb[t], priority[t]);
    }

    /** What `ext_tsk` and `ter_tsk` do with a task that is out of every queue. */
    method Terminate(t: nat) returns (dspreq: bool)
      requires Valid() && stale == None && heap.Valid() && t < |tcb|
      requires Links(K(), {t}, None) && TaskTimeout(t) !in heap.tm.pending
      modifies `tcb, `priority, `obj, `readyQueue, `schedtsk, `stale, primap, heap, heap.tmevtHeap
      ensures Valid() && stale == None && heap.Valid() && K() == KernelCalls.Terminate(old(K()), t)
      ensures dspreq ==> dspflg
      ensures dspflg && schedtsk != old(schedtsk) ==> dspreq
    {
      dspreq := GiveUpAll(t);
      var r := Rest(t);
      if r { dspreq := true; }
    }

    method GiveUpAll(t: nat) returns (dspreq: bool)
      requires Valid() && stale == None && heap.Valid() && t < |tcb| && Links(K(), {t}, None)
      modifies `tcb, `priority, `obj, `readyQueue, `schedtsk, `stale, primap, heap, heap.tmevtHeap
      ensures Valid() && stale == Some(t) && heap.Valid() && K() == ReleaseAll(old(K()), t, old(|tcb[t].held|))
      ensures t < |tcb| && tcb[t].held == [] && Unqueued(readyQueue, t) && ValidConfig(cfg) && t < |cfg.ipriority|
      ensures dspreq ==> dspflg
      ensures dspflg && schedtsk != old(schedtsk) ==> dspreq
    {
      AfterReleaseAll(K(), t);
      BeginTermination(t);
      dspreq := MutexReleaseAll(t);
    }

    /** From here on the priority of `t` is not kept up to date. */
    ghost method BeginTermination(t: nat)
      requires Valid() && stale == None
      modifies `stale
      ensures Valid() && stale == Some(t) && K() == old(K())
    {
      stale := Some(t);
    }

    /** The task is dormant, or starts anew if an activation is queued. */
    method Rest(t: nat) returns (r: bool)
      requires Valid() && t < |tcb| && stale == Some(t) && tcb[t].held == [] && Unqueued(readyQueue, t)
      requires ValidConfig(cfg) && t < |cfg.ipriority|
      modifies `tcb, `priority, `stale, `readyQueue, `schedtsk, primap
      ensures Valid() && stale == None
      ensures K() == var k1 := KernelState.MakeDormant(old(K()), t);
                     if TcbOf(k1, t).actque then KernelState.MakeActive(QueueActivation(k1, t, false), t) else k1
      ensures r <==> dspflg && schedtsk != old(schedtsk)
    {
      MakeDormant(t);
      r := false;
      if tcb[t].actque {
        SetCounts(t, false, tcb[t].wupque);
        r := MakeActive(t);
      }
    }

    method ExtTsk()
      requires Ready() && InTask(K())
      modifies this, primap, heap, heap.tmevtHeap
      ensures Valid() && stale == None && heap.Valid() && K() == KernelCalls.ExtTsk(old(K())).k
    {
      ExtFacts(K());
      EndSelf(runtsk.value);
    }

    method EndSelf(r: nat)
      requires Valid() && stale == None && heap.Valid() && r < |tcb| && r in ReadyOf(K(), Pri(K(), r))
      requires Links(KernelState.MakeNonRunnable(WithDispatch(K(), false, true), r), {r}, None)
      requires TaskTimeout(r) !in heap.tm.pending
      modifies this, primap, heap, heap.tmevtHeap
      ensures Valid() && stale == None && heap.Valid()
      ensures K() == Settle(KernelCalls.Terminate(KernelState.MakeNonRunnable(WithDispatch(old(K()), false, true), r), r))
    {
      EnableDispatch();
      Leave(r);
      var dspreq := Terminate(r);
      Dispatch();
    }

    /** A task that ends does so with dispatching enabled and the interrupt mask open. */
    method EnableDispatch()
      requires Valid()
      modifies `disdsp, `ipmflg, `dspflg
      ensures Valid() && dspflg && K() == WithDispatch(old(K()), false, true)
    {
      disdsp := false;
      ipmflg := true;
      dspflg := true;
    }

    /** `make_non_runnable` for a task in its ready queue. */
    method Leave(t: nat)
      requires Valid() && stale == None && t < |tcb| && t in ReadyOf(K(), Pri(K(), t))
      modifies `readyQueue, `schedtsk, primap
      ensures Valid() && K() == KernelState.MakeNonRunnable(old(K()), t)
      ensures old(schedtsk) != Some(t) ==> schedtsk == old(schedtsk)
    {
      PriorityRange(cfg, tcb, priority, stale, t);
      LooseQueues(tcb, priority, readyQueue, t);
      var dspreq := MakeNonRunnable(t);
    }

    method TerTsk(t: nat) returns (ercd: ER)
      requires Ready() && InTask(K()) && t < |tcb| && runtsk != Some(t)
      modifies this, primap, heap, heap.tmevtHeap
      ensures Valid() && stale == None && heap.Valid() && Outcome(K(), ercd) == KernelCalls.TerTsk(old(K()), t)
    {
      if tcb[t].tstat.Dormant? {
        ercd := E_OBJ;
      } else {
        TerFacts(K(), t);
        EndOther(t);
        ercd := E_OK;
      }
    }

    method EndOther(t: nat)
      requires Valid() && stale == None && heap.Valid() && t < |tcb| && Detachable(t)
      requires runtsk != Some(t) && (dspflg ==> runtsk == schedtsk)
      requires Links(KernelCalls.Detach(K(), t), {t}, None) && TaskTimeout(t) !in KernelCalls.Detach(K(), t).tm.pending
      modifies this, primap, heap, heap.tmevtHeap
      ensures Valid() && stale == None && heap.Valid()
      ensures K() == Settle(KernelCalls.Terminate(KernelCalls.Detach(old(K()), t), t))
    {
      Detach(t);
      var dspreq := Terminate(t);
      DispatchIf(dspreq);
    }

    /** The task is in the queue its state says, and its union as its wait says. */
    ghost predicate Detachable(t: nat)
      requires t < |tcb|
      reads this, heap
    {
      && (tcb[t].tstat.Runnable? ==> t in ReadyOf(K(), Pri(K(), t)))
      && (tcb[t].tstat.Waiting? ==>
            tcb[t].winfo.Tmevtb? && (tcb[t].winfo.registered ==> TaskTimeout(t) in heap.tm.pending))
    }

    /** Out of the ready queue, or out of what the task waits for; the first task is not
        affected unless it is that one. */
    method Detach(t: nat)
      requires Valid() && stale == None && heap.Valid() && t < |tcb| && Detachable(t)
      modifies `obj, `readyQueue, `schedtsk, primap, heap, heap.tmevtHeap
      ensures Valid() && heap.Valid() && K() == KernelCalls.Detach(old(K()), t)
      ensures old(schedtsk) != Some(t) ==> schedtsk == old(schedtsk)
    {
      match tcb[t].tstat
      case Runnable => Leave(t);
      case Waiting(_, _) =>
        WaitDequeueWobj(t);
        WaitDequeueTmevtb(t);
      case _ =>
    }

    // ---- base priorities

    method ChgPri(t: nat, newbpri: nat) returns (ercd: ER)
      requires Ready() && InTask(K()) && t < |tcb| && newbpri < TNUM_TPRI
      modifies this, primap
      ensures Valid() && stale == None && Outcome(K(), ercd) == KernelCalls.ChgPri(old(K()), t, newbpri)
    {
      if tcb[t].tstat.Dormant? { return E_OBJ; }
      var ok := MutexCheckCeilpri(t, newbpri);
      if !ok { return E_ILUSE; }
      FirstRuns(K());
      var hidden := MutexScanCeilmtx(t);
      if hidden {
        CeilingHides(K(), t, newbpri);
        SetHiddenBase(t, newbpri);
      } else {
        ChangeBasePriority(t, newbpri);
      }
      ercd := E_OK;
    }

    /** A base priority that the ceilings hide. */
    method SetHiddenBase(t: nat, newbpri: nat)
      requires Valid() && stale == None && t < |tcb| && newbpri < TNUM_TPRI
      requires PriOf(cfg, tcb[t].(bpriority := newbpri)) == PriOf(cfg, tcb[t])
      modifies `tcb
      ensures Valid() && K() == SetTcb(old(K()), t, old(tcb[t]).(bpriority := newbpri))
    {
      var b := tcb[t].(bpriority := newbpri);
      assert PriorityOk(cfg, tcb[t], priority[t]);
      assert priority[t := priority[t]] == priority;
      PrioritiesBut(cfg, tcb, priority, stale, t, b, priority[t]);
      QueuesBut(tcb, priority, readyQueue, t, b);
      tcb := tcb[t := b];
    }

    method SetBase(t: nat, newbpri: nat)
      requires Valid() && stale == None && t < |tcb| && newbpri < TNUM_TPRI
      requires PriOf(cfg, tcb[t].(bpriority := newbpri)) == newbpri
      modifies `tcb
      ensures Scheduled() && Queues(tcb, priority, readyQueue, None)
      ensures K() == SetTcb(old(K()), t, old(tcb[t]).(bpriority := newbpri)) && |tcb| == |old(tcb)| == |priority|
      ensures Priorities(cfg, tcb, priority[t := newbpri], None)
    {
      var b := tcb[t].(bpriority := newbpri);
      PrioritiesBut(cfg, tcb, priority, stale, t, b, newbpri);
      QueuesBut(tcb, priority, readyQueue, t, b);
      tcb := tcb[t := b];
    }

    /** A base priority that is the current priority. */
    method ChangeBasePriority(t: nat, newbpri: nat)
      requires Ready() && InTask(K()) && t < |tcb| && newbpri < TNUM_TPRI && !HoldsCeiling(K(), t)
      modifies `tcb, `priority, `obj, `readyQueue, `schedtsk, `runtsk, primap
      ensures Valid()
      ensures K() == Settle(Reposition(SetTcb(old(K()), t, old(tcb[t]).(bpriority := newbpri)), t, Pri(old(K()), t), false))
    {
      FirstRuns(K());
      WaitersKnown(K());
      if tcb[t].tstat.Runnable? { RunnerFacts(K(), t); }
      PlainPriority(K(), t, newbpri);
      PriorityRange(cfg, tcb, priority, stale, t);
      var r := SetPriority(t, newbpri);
      DispatchIf(r);
    }

    method SetPriority(t: nat, newbpri: nat) returns (r: bool)
      requires Valid() && stale == None && t < |tcb| && newbpri < TNUM_TPRI && KnownWaiters()
      requires PriOf(cfg, tcb[t].(bpriority := newbpri)) == newbpri && priority[t] < TNUM_TPRI
      requires tcb[t].tstat.Runnable? ==> t in ReadyOf(K(), priority[t])
      modifies `tcb, `priority, `obj, `readyQueue, `schedtsk, primap
      ensures Valid() && K() == Reposition(SetTcb(old(K()), t, old(tcb[t]).(bpriority := newbpri)), t, old(priority[t]), false)
      ensures r <==> dspflg && schedtsk != old(schedtsk)
    {
      SetBase(t, newbpri);
      r := ChangePriority(t, newbpri, false);
    }

    // ---- mutex service calls

    /** A mutex nobody owns: the caller becomes its owner and goes on running. */
    method LockFree(r: nat, m: nat)
      requires Ready() && InTask(K()) && runtsk == Some(r) && IsMutex(cfg, m) && obj[m].loctsk.None?
      requires CeilingAllows(cfg, m, tcb[r].bpriority)
      modifies `tcb, `priority, `readyQueue, `schedtsk, `obj, primap
      ensures Valid() && K() == Acquire(old(K()), r, m)
    {
      RunnerFacts(K(), r);
      WaitersKnown(K());
      RunnerPriority();
      if dspflg { AcquireKeepsTop(K(), r, m); }
      var dspreq := MutexAcquire(r, m);
      assert !(runtsk != schedtsk && dspflg);
    }

    /** `loc_mtx` (TMO_FEVR), `ploc_mtx` (TMO_POL) and `tloc_mtx`. */
    method LocMtx(m: nat, tmout: int) returns (ercd: ER)
      requires Ready() && InTask(K()) && IsMutex(cfg, m) && ValidTmout(tmout) && (tmout != TMO_POL ==> dspflg)
      modifies this, primap, heap, heap.tmevtHeap
      ensures Valid() && stale == None && heap.Valid() && Outcome(K(), ercd) == KernelCalls.LocMtx(old(K()), m, tmout)
    {
      var r := runtsk.value;
      var c := CeilingOf(cfg, m);
      if c.Some? && tcb[r].bpriority < c.value {
        ercd := E_ILUSE;
      } else if obj[m].loctsk.None? {
        LockFree(r, m);
        ercd := E_OK;
      } else if obj[m].loctsk == runtsk {
        ercd := E_OBJ;
      } else if tmout == TMO_POL {
        ercd := E_TMOUT;
      } else {
        WaitAndDispatch(OnObject(m), tmout);
        ercd := Blocked;
      }
    }

    method UnlMtx(m: nat) returns (ercd: ER)
      requires Ready() && InTask(K()) && IsMutex(cfg, m)
      modifies this, primap, heap, heap.tmevtHeap
      ensures Valid() && stale == None && heap.Valid() && Outcome(K(), ercd) == KernelCalls.UnlMtx(old(K()), m)
    {
      if obj[m].loctsk != runtsk {
        ercd := E_OBJ;
      } else {
        UnlFacts(K(), m);
        Unlock(runtsk.value, m);
        ercd := E_OK;
      }
    }

    method Unlock(r: nat, m: nat)
      requires Valid() && heap.Valid() && stale == None && r < |tcb| && m in tcb[r].held && m < |obj|
      requires dspflg ==> runtsk == schedtsk
      requires tcb[r].tstat.Runnable? && r in ReadyOf(K(), Pri(K(), r)) && KnownWaiters()
      requires Links(Adjust(Unhold(K(), r, m), r, Pri(K(), r)), {}, Some(m))
      modifies this, primap, heap, heap.tmevtHeap
      ensures Valid() && heap.Valid() && stale == None
      ensures K() == Settle(Release(Adjust(Unhold(old(K()), r, m), r, Pri(old(K()), r)), m))
    {
      var dspreq := GiveUp(r, m);
      DispatchIf(dspreq);
    }

    /** The two requests for a dispatch are accumulated. */
    method GiveUp(r: nat, m: nat) returns (dspreq: bool)
      requires Valid() && heap.Valid() && stale == None && r < |tcb| && m in tcb[r].held && m < |obj|
      requires tcb[r].tstat.Runnable? && r in ReadyOf(K(), Pri(K(), r)) && KnownWaiters()
      requires Links(Adjust(Unhold(K(), r, m), r, Pri(K(), r)), {}, Some(m))
      modifies `tcb, `priority, `obj, `readyQueue, `schedtsk, primap, heap, heap.tmevtHeap
      ensures Valid() && heap.Valid()
      ensures K() == Release(Adjust(Unhold(old(K()), r, m), r, Pri(old(K()), r)), m)
      ensures (dspreq ==> dspflg) && (dspflg && schedtsk != old(schedtsk) ==> dspreq)
    {
      AdjustEffect(Unhold(K(), r, m), r, Pri(K(), r));
      dspreq := DropMutex(r, m);
      var r2 := MutexRelease(m, {});
      if r2 { dspreq := true; }
    }

    ghost predicate KnownWaiters()
      reads `obj, `tcb
    {
      forall o :: 0 <= o < |obj| ==> forall x :: x in obj[o].waitQueue ==> x < |tcb|
    }

    /** Out of the mutex queue; a ceiling given up may lower the priority. */
    method DropMutex(t: nat, m: nat) returns (r: bool)
      requires Valid() && stale == None && t < |tcb| && m in tcb[t].held && KnownWaiters()
      requires tcb[t].tstat.Runnable? ==> t in ReadyOf(K(), Pri(K(), t))
      modifies `tcb, `priority, `readyQueue, `schedtsk, `obj, primap
      ensures Valid() && K() == Adjust(Unhold(old(K()), t, m), t, Pri(old(K()), t))
      ensures r <==> dspflg && schedtsk != old(schedtsk)
    {
      PriorityRange(cfg, tcb, priority, stale, t);
      LowestOfLess(cfg, tcb[t].held, m, tcb[t].bpriority);
      HoldMore(t, Remove(tcb[t].held, m));
      r := DropCeiling(t, m);
    }

    /** What follows when `t` has just lost mutex `m`. */
    method DropCeiling(t: nat, m: nat) returns (r: bool)
      requires stale == None && Scheduled() && Queues(tcb, priority, readyQueue, None)
      requires t < |tcb| == |priority| && Priorities(cfg, tcb, priority[t := PriOf(cfg, tcb[t])], None)
      requires priority[t] == Raised(cfg, m, PriOf(cfg, tcb[t])) && priority[t] < TNUM_TPRI && KnownWaiters()
      requires tcb[t].tstat.Runnable? ==> t in ReadyOf(K(), priority[t])
      modifies `priority, `readyQueue, `schedtsk, `obj, primap
      ensures Valid() && K() == Adjust(old(K()), t, old(priority[t]))
      ensures r <==> dspflg && schedtsk != old(schedtsk)
    {
      var c := CeilingOf(cfg, m);
      r := false;
      if c.Some? {
        r := MutexDropPriority(t, c.value);
      } else {
        assert priority[t := priority[t]] == priority;
      }
    }

    method IniMtx(m: nat) returns (ercd: ER)
      requires Ready() && InTask(K()) && IsMutex(cfg, m)
      modifies this, primap, heap, heap.tmevtHeap
      ensures Valid() && stale == None && heap.Valid() && Outcome(K(), ercd) == KernelCalls.IniMtx(old(K()), m)
    {
      FirstRuns(K());
      var dspreq := DrainAndFree(m);
      DispatchIf(dspreq);
      ercd := E_OK;
    }

    method DrainAndFree(m: nat) returns (dspreq: bool)
      requires Valid() && stale == None && heap.Valid() && Links(K(), {}, None) && IsMutex(cfg, m) && m < |obj|
      modifies `tcb, `priority, `readyQueue, `schedtsk, `obj, primap, heap, heap.tmevtHeap
      ensures Valid() && heap.Valid() && K() == Disown(InitQueue(old(K()), m, old(|obj[m].waitQueue|)), m)
      ensures (dspreq ==> dspflg) && (dspflg && schedtsk != old(schedtsk) ==> dspreq)
    {
      dspreq := Drain(m);
      var r := FreeIfLocked(m);
      if r { dspreq := true; }
    }

    method Drain(m: nat) returns (dspreq: bool)
      requires Valid() && stale == None && heap.Valid() && Links(K(), {}, None) && IsMutex(cfg, m) && m < |obj|
      modifies `tcb, `obj, `readyQueue, `schedtsk, primap, heap, heap.tmevtHeap
      ensures Valid() && heap.Valid() && K() == InitQueue(old(K()), m, old(|obj[m].waitQueue|)) && KnownWaiters() && m < |obj|
      ensures obj[m].loctsk.Some? ==>
                var t := obj[m].loctsk.value;
                && t < |tcb| && m in tcb[t].held && (tcb[t].tstat.Runnable? ==> t in ReadyOf(K(), Pri(K(), t)))
      ensures (dspreq ==> dspflg) && (dspflg && schedtsk != old(schedtsk) ==> dspreq)
    {
      InitQueueWakes(K(), m);
      IniFacts(InitQueue(K(), m, |obj[m].waitQueue|), m);
      dspreq := InitWaitQueue(m);
    }

    method FreeIfLocked(m: nat) returns (r: bool)
      requires Valid() && stale == None && m < |obj| && KnownWaiters()
      requires obj[m].loctsk.Some? ==>
                 var t := obj[m].loctsk.value;
                 && t < |tcb| && m in tcb[t].held && (tcb[t].tstat.Runnable? ==> t in ReadyOf(K(), Pri(K(), t)))
      modifies `tcb, `priority, `readyQueue, `schedtsk, `obj, primap
      ensures Valid()
      ensures K() == Disown(old(K()), m)
      ensures r <==> dspflg && schedtsk != old(schedtsk)
    {
      r := false;
      if obj[m].loctsk.Some? { r := FreeMutex(obj[m].loctsk.value, m); }
    }

    /** The owner loses the mutex, which is free then. */
    method FreeMutex(t: nat, m: nat) returns (r: bool)
      requires Valid() && stale == None && t < |tcb| && m in tcb[t].held && KnownWaiters()
      requires tcb[t].tstat.Runnable? ==> t in ReadyOf(K(), Pri(K(), t))
      modifies `tcb, `priority, `readyQueue, `schedtsk, `obj, primap
      ensures Valid() && K() == Adjust(SetOwner(Unhold(old(K()), t, m), m, None), t, Pri(old(K()), t))
      ensures r <==> dspflg && schedtsk != old(schedtsk)
    {
      PriorityRange(cfg, tcb, priority, stale, t);
      LowestOfLess(cfg, tcb[t].held, m, tcb[t].bpriority);
      HoldMore(t, Remove(tcb[t].held, m));
      SetLoctsk(m, None);
      r := DropCeiling(t, m);
    }

    // ---- semaphores

    method WakeAndDispatch(o: nat)
      requires stale == None && Valid() && heap.Valid() && Links(K(), {}, None) && o < |obj| && obj[o].waitQueue != []
      requires dspflg ==> runtsk == schedtsk
      modifies `tcb, `obj, `readyQueue, `schedtsk, `runtsk, primap, heap, heap.tmevtHeap
      ensures Valid() && heap.Valid() && K() == Settle(WakeFirst(old(K()), o))
    {
      var r := CompleteFirst(o, E_OK);
      DispatchIf(r);
    }

    method WakeAndRequest(o: nat)
      requires stale == None && Valid() && heap.Valid() && Links(K(), {}, None) && o < |obj| && obj[o].waitQueue != []
      modifies `tcb, `obj, `readyQueue, `schedtsk, `reqflg, primap, heap, heap.tmevtHeap
      ensures Valid() && heap.Valid() && K() == Request(old(K()), WakeFirst(old(K()), o))
    {
      ghost var k := K();
      var r := CompleteFirst(o, E_OK);
      RequestIf(r, k);
    }

    method SigSem(o: nat) returns (ercd: ER)
      requires Ready() && InTask(K()) && IsSemaphore(cfg, o)
      modifies this, primap, heap, heap.tmevtHeap
      ensures Valid() && stale == None && heap.Valid() && Outcome(K(), ercd) == KernelCalls.SigSem(old(K()), o)
    {
      if obj[o].waitQueue != [] {
        FirstRuns(K());
        WakeAndDispatch(o);
        ercd := E_OK;
      } else {
        ercd := CountUp(o);
      }
    }

    method IsigSem(o: nat) returns (ercd: ER)
      requires Ready() && inInt && IsSemaphore(cfg, o)
      modifies this, primap, heap, heap.tmevtHeap
      ensures Valid() && stale == None && heap.Valid() && Outcome(K(), ercd) == KernelCalls.IsigSem(old(K()), o)
    {
      ghost var next := KernelCalls.IsigSem(K(), o);
      if obj[o].waitQueue != [] {
        WakeAndRequest(o);
        assert K() == next.k;
        ercd := E_OK;
      } else {
        ercd := CountUp(o);
      }
    }

    method CountUp(o: nat) returns (ercd: ER)
      requires Valid() && o < |obj|
      modifies `obj
      ensures Valid()
      ensures K() == if old(obj[o].semcnt) < MaxSem(cfg, o) then SetCount(old(K()), o, old(obj[o].semcnt) + 1) else old(K())
      ensures ercd == if old(obj[o].semcnt) < MaxSem(cfg, o) then E_OK else E_QOVR
    {
      if obj[o].semcnt < MaxSem(cfg, o) {
        obj := obj[o := obj[o].(semcnt := obj[o].semcnt + 1)];
        ercd := E_OK;
      } else {
        ercd := E_QOVR;
      }
    }

    method CountDown(o: nat)
      requires Valid() && o < |obj| && obj[o].semcnt >= 1
      modifies `obj
      ensures Valid() && K() == SetCount(old(K()), o, old(obj[o].semcnt) - 1)
    {
      obj := obj[o := obj[o].(semcnt := obj[o].semcnt - 1)];
    }

    /** `wai_sem` (TMO_FEVR), `pol_sem` (TMO_POL) and `twai_sem`. */
    method WaiSem(o: nat, tmout: int) returns (ercd: ER)
      requires Ready() && InTask(K()) && IsSemaphore(cfg, o) && ValidTmout(tmout) && (tmout != TMO_POL ==> dspflg)
      modifies this, primap, heap, heap.tmevtHeap
      ensures Valid() && stale == None && heap.Valid() && Outcome(K(), ercd) == KernelCalls.WaiSem(old(K()), o, tmout)
    {
      if obj[o].semcnt >= 1 {
        CountDown(o);
        ercd := E_OK;
      } else if tmout == TMO_POL {
        ercd := E_TMOUT;
      } else {
        WaitAndDispatch(OnObject(o), tmout);
        ercd := Blocked;
      }
    }

    method IniSem(o: nat) returns (ercd: ER)
      requires Ready() && InTask(K()) && IsSemaphore(cfg, o)
      modifies this, primap, heap, heap.tmevtHeap
      ensures Valid() && stale == None && heap.Valid() && Outcome(K(), ercd) == KernelCalls.IniSem(old(K()), o)
    {
      FirstRuns(K());
      InitQueueWakes(K(), o);
      var dspreq := InitWaitQueue(o);
      SetSemcnt(o, IsemCnt(cfg, o));
      DispatchIf(dspreq);
      ercd := E_OK;
    }

    method SetSemcnt(o: nat, n: nat)
      requires Valid()
      modifies `obj
      ensures Valid() && K() == SetCount(old(K()), o, n)
    {
      if o < |obj| { obj := obj[o := obj[o].(semcnt := n)]; }
    }

    // ---- other objects with a wait queue

    /** `wobj_make_wait`, `wobj_make_wait_tmout` and `dispatch`. */
    method WaitOther(o: nat, tmout: int) returns (ercd: ER)
      requires Ready() && InTask(K()) && IsOther(cfg, o) && ValidTmout(tmout) && tmout != TMO_POL && dspflg
      modifies this, primap, heap, heap.tmevtHeap
      ensures Valid() && stale == None && heap.Valid() && Outcome(K(), ercd) == KernelCalls.WaitOther(old(K()), o, tmout)
    {
      WaitAndDispatch(OnObject(o), tmout);
      ercd := Blocked;
    }

    /** One more task is released, in a series that began with the ready queues `ready`; the
        requests for a dispatch are accumulated. */
    method ReleaseNext(ts: seq<nat>, ghost ready: seq<seq<nat>>, ghost all: KState, dspreq: bool) returns (dspreq': bool)
      requires ts != [] && Releasing(ts, ready, all, dspreq)
      modifies `tcb, `obj, `readyQueue, `schedtsk, primap, heap, heap.tmevtHeap
      ensures Releasing(ts[1..], ready, all, dspreq')
    {
      ghost var k := K();
      var r := WaitRelease(ts[0], E_OK);
      WakeRises(k, ts[0], E_OK);
      RisesTwice(ready, k.ready, readyQueue);
      if Top(k.ready) != Top(ready) { RisenTop(tcb, priority, ready, k.ready, readyQueue); }
      dspreq' := dspreq || r;
    }

    /** The object's reason to release them lies outside the kernel. */
    method ReleaseWaiters(ts: seq<nat>) returns (dspreq: bool)
      requires stale == None && Valid() && heap.Valid() && Wakeable(K(), ts)
      modifies `tcb, `obj, `readyQueue, `schedtsk, primap, heap, heap.tmevtHeap
      ensures Valid() && heap.Valid() && K() == WakeAll(old(K()), ts)
      ensures dspreq <==> dspflg && schedtsk != old(schedtsk)
    {
      dspreq := false;
      var rest := ts;
      ghost var ready, all := readyQueue, WakeAll(K(), ts);
      while rest != []
        invariant Releasing(rest, ready, all, dspreq)
        decreases |rest|
      {
        dspreq := ReleaseNext(rest, ready, all, dspreq);
        rest := rest[1..];
      }
    }

    /** Still to be released: `rest`, which leads to `all`; `ready` is what the queues were. */
    ghost predicate Releasing(rest: seq<nat>, ready: seq<seq<nat>>, all: KState, dspreq: bool)
      reads this, primap, heap, heap.tmevtHeap
    {
      && stale == None && Valid() && heap.Valid() && Wakeable(K(), rest) && WakeAll(K(), rest) == all
      && Rises(ready, readyQueue) && (dspreq <==> dspflg && schedtsk != Top(ready))
    }

    method WakeOther(o: nat, ts: seq<nat>) returns (ercd: ER)
      requires Ready() && InTask(K()) && IsOther(cfg, o) && CanWake(K(), o, ts)
      modifies this, primap, heap, heap.tmevtHeap
      ensures Valid() && stale == None && heap.Valid() && Outcome(K(), ercd) == KernelCalls.WakeOther(old(K()), o, ts)
    {
      FirstRuns(K());
      CanWakeAll(K(), o, ts);
      var dspreq := ReleaseWaiters(ts);
      DispatchIf(dspreq);
      ercd := E_OK;
    }

    method IwakeOther(o: nat, ts: seq<nat>) returns (ercd: ER)
      requires Ready() && inInt && IsOther(cfg, o) && CanWake(K(), o, ts)
      modifies this, primap, heap, heap.tmevtHeap
      ensures Valid() && stale == None && heap.Valid() && Outcome(K(), ercd) == KernelCalls.IwakeOther(old(K()), o, ts)
    {
      ghost var k := K();
      CanWakeAll(k, o, ts);
      var dspreq := ReleaseWaiters(ts);
      RequestIf(dspreq, k);
      ercd := E_OK;
    }

    method IniOther(o: nat) returns (ercd: ER)
      requires Ready() && InTask(K()) && IsOther(cfg, o)
      modifies this, primap, heap, heap.tmevtHeap
      ensures Valid() && stale == None && heap.Valid() && Outcome(K(), ercd) == KernelCalls.IniOther(old(K()), o)
    {
      FirstRuns(K());
      var dspreq := InitWaitQueue(o);
      DispatchIf(dspreq);
      ercd := E_OK;
    }

    // ---- cyclic handlers and alarms

    /** A handler's event is registered anew, whether it was pending or not. */
    method Restart(e: TMEVTB, started: bool, time: nat)
      requires heap.Valid() && (started <==> e in heap.tm.pending) && time <= TMAX_RELTIM
      requires |heap.tm.pending| <= heap.tmevtHeap.Length && (!started ==> |heap.tm.pending| < heap.tmevtHeap.Length)
      modifies heap, heap.tmevtHeap
      ensures heap.Valid() && heap.tm == Enqueue(if started then Dequeue(old(heap.tm), e) else old(heap.tm), e, time)
    {
      if started {
        DequeueOk(heap.tm, e);
        heap.TmevtbDelete(e);
      }
      heap.TmevtbEnqueue(e, time);
    }

    method StaCyc(c: nat) returns (ercd: ER)
      requires Ready() && InTask(K()) && c < |cfg.cyclics|
      modifies `cycsta, heap, heap.tmevtHeap
      ensures Valid() && stale == None && heap.Valid() && Outcome(K(), ercd) == KernelCalls.StaCyc(old(K()), c)
    {
      RoomFacts(K(), CyclicEvent(c));
      Restart(CyclicEvent(c), cycsta[c], cfg.cyclics[c].cycphs);
      cycsta := cycsta[c := true];
      ercd := E_OK;
    }

    method StpCyc(c: nat) returns (ercd: ER)
      requires Ready() && InTask(K()) && c < |cfg.cyclics|
      modifies `cycsta, heap, heap.tmevtHeap
      ensures Valid() && stale == None && heap.Valid() && Outcome(K(), ercd) == KernelCalls.StpCyc(old(K()), c)
    {
      if cycsta[c] {
        cycsta := cycsta[c := false];
        heap.TmevtbDelete(CyclicEvent(c));
      }
      ercd := E_OK;
    }

    /** `sta_alm` and `ista_alm`. */
    method StaAlm(a: nat, almtim: nat) returns (ercd: ER)
      requires Ready() && (InTask(K()) || inInt) && a < cfg.alarms && almtim <= TMAX_RELTIM
      modifies `almsta, heap, heap.tmevtHeap
      ensures Valid() && stale == None && heap.Valid() && Outcome(K(), ercd) == KernelCalls.StaAlm(old(K()), a, almtim)
    {
      RoomFacts(K(), AlarmEvent(a));
      StartAlarm(a, almtim);
      ercd := E_OK;
    }

    method StartAlarm(a: nat, almtim: nat)
      requires Valid() && heap.Valid() && a < |almsta| && almtim <= TMAX_RELTIM
      requires almsta[a] <==> AlarmEvent(a) in heap.tm.pending
      requires |heap.tm.pending| <= heap.tmevtHeap.Length && (!almsta[a] ==> |heap.tm.pending| < heap.tmevtHeap.Length)
      modifies `almsta, heap, heap.tmevtHeap
      ensures Valid() && heap.Valid() && K() == KernelCalls.StaAlm(old(K()), a, almtim).k
    {
      AlarmStarts(K(), a, almtim);
      var started := almsta[a];
      almsta := almsta[a := true];
      Restart(AlarmEvent(a), started, almtim);
    }

    /** `stp_alm` and `istp_alm`. */
    method StpAlm(a: nat) returns (ercd: ER)
      requires Ready() && (InTask(K()) || inInt) && a < cfg.alarms
      modifies `almsta, heap, heap.tmevtHeap
      ensures Valid() && stale == None && heap.Valid() && Outcome(K(), ercd) == KernelCalls.StpAlm(old(K()), a)
    {
      if almsta[a] {
        almsta := almsta[a := false];
        heap.TmevtbDelete(AlarmEvent(a));
      }
      ercd := E_OK;
    }

    // ---- interrupt entry and exit

    method IntEnter()
      requires Valid() && !inInt
      modifies `inInt
      ensures Valid() && K() == old(K()).(inInt := true)
    {
      inInt := true;
    }

    /** The exit of the outermost interrupt handler. */
    method IntExit()
      requires Valid() && inInt
      modifies `inInt, `reqflg, `runtsk
      ensures Valid() && K() == KernelCalls.IntExit(old(K()))
    {
      inInt := false;
      if reqflg {
        reqflg := false;
        if dspflg && runtsk != schedtsk { runtsk := schedtsk; }
      }
    }

    // ---- any call

    method ServeTask(c: Call) returns (ercd: ER)
      requires Ready() && Enabled(K(), c) && IsTaskCall(c) && !IsSyncCall(c)
      modifies this, primap, heap, heap.tmevtHeap
      ensures Valid() && stale == None && heap.Valid() && Outcome(K(), ercd) == Perform(old(K()), c)
    {
      match c
      case ActTsk(t) => ercd := ActTsk(t);
      case IactTsk(t) => ercd := IactTsk(t);
      case ExtTsk => ExtTsk(); ercd := NoReturn;
      case TerTsk(t) => ercd := TerTsk(t);
      case ChgPri(t, pri) => ercd := ChgPri(t, pri);
    }

    method ServeSync(c: Call) returns (ercd: ER)
      requires Ready() && Enabled(K(), c) && IsSyncCall(c)
      modifies this, primap, heap, heap.tmevtHeap
      ensures Valid() && stale == None && heap.Valid() && Outcome(K(), ercd) == Perform(old(K()), c)
    {
      match c
      case SlpTsk(tmout) => ercd := SlpTsk(tmout);
      case WupTsk(t) => ercd := WupTsk(t);
      case IwupTsk(t) => ercd := IwupTsk(t);
      case RelWai(t) => ercd := RelWai(t);
      case IrelWai(t) => ercd := IrelWai(t);
      case SusTsk(t) => ercd := SusTsk(t);
      case RsmTsk(t) => ercd := RsmTsk(t);
      case DlyTsk(time) => ercd := DlyTsk(time);
    }

    method ServeMutex(c: Call) returns (ercd: ER)
      requires Ready() && Enabled(K(), c) && (c.LocMtx? || c.UnlMtx? || c.IniMtx?)
      modifies this, primap, heap, heap.tmevtHeap
      ensures Valid() && stale == None && heap.Valid() && Outcome(K(), ercd) == Perform(old(K()), c)
    {
      match c
      case LocMtx(m, tmout) => ercd := LocMtx(m, tmout);
      case UnlMtx(m) => ercd := UnlMtx(m);
      case IniMtx(m) => ercd := IniMtx(m);
    }

    method ServeSemaphore(c: Call) returns (ercd: ER)
      requires Ready() && Enabled(K(), c) && (c.SigSem? || c.IsigSem? || c.WaiSem? || c.IniSem?)
      modifies this, primap, heap, heap.tmevtHeap
      ensures Valid() && stale == None && heap.Valid() && Outcome(K(), ercd) == Perform(old(K()), c)
    {
      match c
      case SigSem(o) => ercd := SigSem(o);
      case IsigSem(o) => ercd := IsigSem(o);
      case WaiSem(o, tmout) => ercd := WaiSem(o, tmout);
      case IniSem(o) => ercd := IniSem(o);
    }

    method ServeWait(c: Call) returns (ercd: ER)
      requires Ready() && Enabled(K(), c) && IsWaitCall(c)
      modifies this, primap, heap, heap.tmevtHeap
      ensures Valid() && stale == None && heap.Valid() && Outcome(K(), ercd) == Perform(old(K()), c)
    {
      match c
      case WaitOther(o, tmout) => ercd := WaitOther(o, tmout);
      case WakeOther(o, ts) => ercd := WakeOther(o, ts);
      case IwakeOther(o, ts) => ercd := IwakeOther(o, ts);
      case IniOther(o) => ercd := IniOther(o);
    }

    method ServeHandler(c: Call) returns (ercd: ER)
      requires Ready() && Enabled(K(), c) && (c.StaCyc? || c.StpCyc? || c.StaAlm? || c.StpAlm?)
      modifies this, primap, heap, heap.tmevtHeap
      ensures Valid() && stale == None && heap.Valid() && Outcome(K(), ercd) == Perform(old(K()), c)
    {
      if c.StaCyc? || c.StpCyc? {
        ercd := ServeCyclic(c);
      } else {
        ercd := ServeAlarm(c);
      }
    }

    method ServeCyclic(c: Call) returns (ercd: ER)
      requires Ready() && Enabled(K(), c) && (c.StaCyc? || c.StpCyc?)
      modifies this, primap, heap, heap.tmevtHeap
      ensures Valid() && stale == None && heap.Valid() && Outcome(K(), ercd) == Perform(old(K()), c)
    {
      match c
      case StaCyc(n) => ercd := StaCyc(n);
      case StpCyc(n) => ercd := StpCyc(n);
    }

    method ServeAlarm(c: Call) returns (ercd: ER)
      requires Ready() && Enabled(K(), c) && (c.StaAlm? || c.StpAlm?)
      modifies this, primap, heap, heap.tmevtHeap
      ensures Valid() && stale == None && heap.Valid() && Outcome(K(), ercd) == Perform(old(K()), c)
    {
      match c
      case StaAlm(a, time) => ercd := StaAlm(a, time);
      case StpAlm(a) => ercd := StpAlm(a);
    }

    method ServePlain(c: Call) returns (ercd: ER)
      requires Ready() && Enabled(K(), c) && IsPlainCall(c) && !c.TickBegin? && !c.Fire? && !c.TickEnd?
      modifies this
      ensures Valid() && stale == None && heap.Valid() && Outcome(K(), ercd) == Perform(old(K()), c)
    {
      match c
      case RotRdq(pri) => ercd := RotRdq(pri);
      case IrotRdq(pri) => ercd := IrotRdq(pri);
      case DisDsp => ercd := DisDsp();
      case EnaDsp => ercd := EnaDsp();
      case ChgIpm(all) => ercd := ChgIpm(all);
      case IntEnter => IntEnter(); ercd := E_OK;
      case IntExit => IntExit(); ercd := E_OK;
    }

    /** Every service call, and the entry and exit of interrupts, from a kernel in order to a
        kernel in order: the caches are right again and the state is what the step makes it. */
    method Serve(c: Call) returns (ercd: ER)
      requires Ready() && Enabled(K(), c) && !c.TickBegin? && !c.Fire? && !c.TickEnd?
      modifies this, primap, heap, heap.tmevtHeap
      ensures Ready() && Outcome(K(), ercd) == Perform(old(K()), c)
    {
      StepOk(K(), c);
      if IsSyncCall(c) {
        ercd := ServeSync(c);
      } else if IsTaskCall(c) {
        ercd := ServeTask(c);
      } else if c.LocMtx? || c.UnlMtx? || c.IniMtx? {
        ercd := ServeMutex(c);
      } else if c.SigSem? || c.IsigSem? || c.WaiSem? || c.IniSem? {
        ercd := ServeSemaphore(c);
      } else if IsWaitCall(c) {
        ercd := ServeWait(c);
      } else if IsObjectCall(c) {
        ercd := ServeHandler(c);
      } else {
        ercd := ServePlain(c);
      }
    }

    // ---- the timer interrupt

    /** `wait_tmout`. */
    method WaitTmout(t: nat)
      requires Valid() && heap.Valid() && stale == None && t < |tcb| && tcb[t].tstat.Waiting?
      modifies `tcb, `obj, `readyQueue, `schedtsk, `reqflg, primap
      ensures Valid() && K() == Request(old(K()), EndWait(LeaveQueue(old(K()), t), t, E_TMOUT))
    {
      ghost var k := K();
      WaitDequeueWobj(t);
      SetWercd(t, E_TMOUT);
      var r := MakeNonWait(t);
      RequestIf(r, k);
    }

    /** `wait_tmout_ok`. */
    method WaitTmoutOk(t: nat)
      requires Valid() && heap.Valid() && stale == None && t < |tcb| && tcb[t].tstat.Waiting?
      modifies `tcb, `readyQueue, `schedtsk, `reqflg, primap
      ensures Valid() && K() == Request(old(K()), EndWait(old(K()), t, E_OK))
    {
      ghost var k := K();
      SetWercd(t, E_OK);
      var r := MakeNonWait(t);
      RequestIf(r, k);
    }

    /** One round of the loop of `signal_time`: the root event is deleted and its callback
        runs.  `time` is the due time as the cyclic handler keeps it. */
    method FireTop(e: TMEVTB, time: EVTTIM)
      requires Valid() && stale == None && heap.Valid() && FireReady(K(), e) && HasRoom()
      requires time == Wrap(heap.tm.pending[e])
      requires heap.lastIndex > 0 && heap.tmevtHeap[0].p_tmevtb == e
      modifies this, primap, heap, heap.tmevtHeap
      ensures Valid() && stale == None && heap.Valid() && K() == FireEvent(old(K()), e)
    {
      ghost var due := heap.tm.pending[e];
      heap.TmevtbDeleteTop();
      CallBack(e, time, due);
    }

    /** The callback of an event that has left the heap: `wait_tmout` or `wait_tmout_ok`,
        `call_cychdr`, `call_almhdr`. */
    method CallBack(e: TMEVTB, time: EVTTIM, ghost due: nat)
      requires Valid() && stale == None && heap.Valid() && KnownEvent(K(), e) && |cycsta| == |cfg.cyclics|
      requires e !in heap.tm.pending && |heap.tm.pending| < heap.tmevtHeap.Length && time == Wrap(due)
      requires e.TaskTimeout? ==> tcb[e.tsk].tstat.Waiting?
      requires e.CyclicEvent? ==> TimerOk(EnqueueAt(heap.tm, e, due + cfg.cyclics[e.cyc].cyctim))
      modifies this, primap, heap, heap.tmevtHeap
      ensures Valid() && stale == None && heap.Valid() && K() == Callback(old(K()), e, due)
    {
      match e
      case TaskTimeout(t) =>
        if tcb[t].tstat.cause.Delay? { WaitTmoutOk(t); } else { WaitTmout(t); }
      case CyclicEvent(c) => CallCychdr(c, time, due);
      case AlarmEvent(a) => CallAlmhdr(a);
    }

    /** `call_cychdr`: the next cycle is counted from when this one was due. */
    method CallCychdr(c: nat, time: EVTTIM, ghost due: nat)
      requires Valid() && heap.Valid() && c < |cfg.cyclics| && CyclicEvent(c) !in heap.tm.pending
      requires |heap.tm.pending| < heap.tmevtHeap.Length && time == Wrap(due)
      requires TimerOk(EnqueueAt(heap.tm, CyclicEvent(c), due + cfg.cyclics[c].cyctim))
      modifies heap, heap.tmevtHeap
      ensures Valid() && heap.Valid() && K() == Callback(old(K()), CyclicEvent(c), due)
    {
      CyclicRearms(K(), c, due);
      WrapAdd(due, cfg.cyclics[c].cyctim);
      heap.TmevtbEnqueueEvttim(CyclicEvent(c), AddWrap(time, cfg.cyclics[c].cyctim), due + cfg.cyclics[c].cyctim);
    }

    /** `call_almhdr`. */
    method CallAlmhdr(a: nat)
      requires Valid() && a < |almsta|
      modifies `almsta
      ensures Valid() && K() == SetAlm(old(K()), a, false, old(K()).tm)
    {
      almsta := almsta[a := false];
    }

    /** `signal_time`.  It amounts to a run of the timer steps: the start of a tick, firings of
        whatever is due and earliest, and the end of the tick when nothing due is left.  After
        each firing the callback lets interrupts in and the user's handler run: `handlers`
        says what they call, and whatever that is the loop comes to its end. */
    method SignalTime(handlers: seq<seq<Call>>) returns (ghost calls: seq<Call>)
      requires Ready() && inInt && !heap.tm.ticking
      modifies this, primap, heap, heap.tmevtHeap
      ensures Ready()
      ensures CanRun(old(K()), calls) && K() == After(old(K()), calls)
      ensures |calls| >= 2 && calls[0] == TickBegin && calls[|calls| - 1] == TickEnd
      ensures forall i :: 0 < i < |calls| - 1 ==> calls[i].Fire? || InTick(calls[i])
    {
      ghost var k := K();
      calls := OpenTick();
      var n := 0;
      var e, time := heap.NextDue();
      while e.Some?
        invariant Ticking(k, calls)
        invariant e.Some? ==> heap.lastIndex > 0 && heap.tmevtHeap[0].p_tmevtb == e.value && Fireable(heap.tm, e.value)
                              && time == Wrap(heap.tm.pending[e.value])
        invariant e.None? ==> Drained(heap.tm)
        decreases F.Work(Events(cfg), heap.tm)
      {
        calls := Round(e.value, time, k, calls);
        calls := RunHandlers(if 0 <= n < |handlers| then handlers[n] else [], k, calls);
        n := n + 1;
        e, time := heap.NextDue();
      }
      calls := ShutTick(k, calls);
    }

    /** The calls that may be made, one after the other. */
    method RunHandlers(script: seq<Call>, ghost k: KState, ghost calls: seq<Call>) returns (ghost calls': seq<Call>)
      requires System(k) && HasRoom() && Ticking(k, calls)
      modifies this, primap, heap, heap.tmevtHeap
      ensures Ticking(k, calls') && F.Work(Events(cfg), heap.tm) <= old(F.Work(Events(cfg), heap.tm))
    {
      calls' := calls;
      var rest := script;
      while rest != []
        invariant Ticking(k, calls') && F.Work(Events(cfg), heap.tm) <= old(F.Work(Events(cfg), heap.tm))
        decreases |rest|
      {
        if MayCall(rest[0]) { calls' := CallInTick(rest[0], k, calls'); }
        rest := rest[1..];
      }
    }

    /** Whether a handler may make the call, with arguments that exist. */
    predicate MayCall(c: Call)
      reads `tcb
    {
      match c
      case IactTsk(t) => t < |tcb|
      case IwupTsk(t) => t < |tcb|
      case IrelWai(t) => t < |tcb|
      case IrotRdq(pri) => pri < TNUM_TPRI
      case IsigSem(o) => IsSemaphore(cfg, o)
      case IwakeOther(o, ts) => IsOther(cfg, o) && AllWaiting(o, ts)
      case StaAlm(a, time) => a < cfg.alarms && time <= TMAX_RELTIM
      case StpAlm(a) => a < cfg.alarms
      case _ => false
    }

    predicate AllWaiting(o: nat, ts: seq<nat>)
      reads `tcb
    {
      && (forall i, j :: 0 <= i < j < |ts| ==> ts[i] != ts[j])
      && forall i :: 0 <= i < |ts| ==> ts[i] < |tcb| && tcb[ts[i]].tstat.Waiting? && tcb[ts[i]].tstat.cause == OnObject(o)
    }

    method CallInTick(c: Call, ghost k: KState, ghost calls: seq<Call>) returns (ghost calls': seq<Call>)
      requires System(k) && HasRoom() && Ticking(k, calls) && MayCall(c)
      modifies this, primap, heap, heap.tmevtHeap
      ensures Ticking(k, calls') && F.Work(Events(cfg), heap.tm) <= old(F.Work(Events(cfg), heap.tm))
    {
      MayBeServed(c, k, calls);
      var ercd := Serve(c);
      calls' := calls + [c];
    }

    lemma MayBeServed(c: Call, k: KState, calls: seq<Call>)
      requires System(k) && HasRoom() && Ticking(k, calls) && MayCall(c)
      ensures Ready() && Enabled(K(), c) && InTick(c)
      ensures Amounts(k, calls + [c], Perform(K(), c).k) && k.cfg == cfg
      ensures F.Work(Events(cfg), Perform(K(), c).k.tm) <= F.Work(Events(cfg), heap.tm)
    {
      RunOk(k, calls);
      InTickOk(K(), k, calls, c);
    }

    method ShutTick(ghost k: KState, ghost calls: seq<Call>) returns (ghost calls': seq<Call>)
      requires System(k) && HasRoom() && Ticking(k, calls) && Drained(heap.tm)
      modifies heap
      ensures Ready() && CanRun(k, calls') && K() == After(k, calls') && calls' == calls + [TickEnd]
    {
      LastOk(K(), k, calls);
      ghost var k1 := WithTimer(K(), EndTick(heap.tm));
      heap.CloseTick();
      assert K() == k1;
      calls' := calls + [TickEnd];
    }

    /** In the middle of `signal_time`, begun in `k`: `calls` is what it amounts to so far. */
    ghost predicate Ticking(k: KState, calls: seq<Call>)
      reads this, primap, heap, heap.tmevtHeap
    {
      Valid() && stale == None && heap.Valid() && Amounts(k, calls, K())
    }

    method OpenTick() returns (ghost calls: seq<Call>)
      requires Ready() && inInt && !heap.tm.ticking
      modifies heap
      ensures Ticking(old(K()), calls)
    {
      StepOk(K(), TickBegin);
      heap.AdvanceClock();
      calls := [TickBegin];
    }

    method Round(e: TMEVTB, time: EVTTIM, ghost k: KState, ghost calls: seq<Call>) returns (ghost calls': seq<Call>)
      requires System(k) && HasRoom() && Ticking(k, calls)
      requires Fireable(heap.tm, e) && time == Wrap(heap.tm.pending[e])
      requires heap.lastIndex > 0 && heap.tmevtHeap[0].p_tmevtb == e
      modifies this, primap, heap, heap.tmevtHeap
      ensures Ticking(k, calls')
      ensures F.Work(Events(cfg), heap.tm) < old(F.Work(Events(cfg), heap.tm))
    {
      RoundOk(K(), k, calls, e);
      FireTop(e, time);
      calls' := calls + [Fire(e)];
    }
  }

  /** The task-dependent synchronisation functions. */
  predicate IsSyncCall(c: Call) {
    c.SlpTsk? || c.WupTsk? || c.IwupTsk? || c.RelWai? || c.IrelWai? || c.SusTsk? || c.RsmTsk? || c.DlyTsk?
  }

  lemma AttachedWaiter(k: KState, t: nat)
    requires Links(k, {}, None) && t < |k.tcb| && k.tcb[t].tstat.Waiting?
    ensures k.tcb[t].winfo.Tmevtb?
    ensures k.tcb[t].winfo.registered <==> TaskTimeout(t) in k.tm.pending
  {
    assert TaskLinked(k, t, {}, None) && Attached(k, t);
  }

  /** Handlers that are not started yet, in a kernel whose clock stands at zero. */
  ghost predicate Startable(k: KState, sta: seq<nat>) {
    && Links(k, {}, None) && k.tm.min == 0 && NoDup(sta)
    && forall c :: c in sta ==> c < |k.cfg.cyclics| && CyclicEvent(c) !in k.tm.pending
  }

  lemma StartableNext(k: KState, sta: seq<nat>)
    requires Startable(k, sta) && sta != []
    ensures var c := sta[0];
            && c < |k.cycsta| == |k.cfg.cyclics| && CyclicEvent(c) !in k.tm.pending && k.cfg.cyclics[c].cycphs <= TMAX_RELTIM
            && TimerOk(EnqueueAt(k.tm, CyclicEvent(c), k.cfg.cyclics[c].cycphs))
            && |k.tm.pending| < |k.cfg.ipriority| + |k.cfg.cyclics| + k.cfg.alarms
            && Startable(StartCyclic(k, c), sta[1..])
  {
    assert sta[0] in sta;
    NoDupTail(sta);
    RoomFor(k, CyclicEvent(sta[0]));
    StartCyclicOk(k, sta[0]);
  }

  lemma ActiveIs(k: KState, t: nat)
    requires t < |k.tcb|
    ensures MakeActive(k, t).tcb == k.tcb[t := k.tcb[t].(tstat := Runnable)]
  {
  }

  lemma NewHandlers(cfg: Config, tick: Tick, act: seq<nat>)
    requires Links(ActivateAll(Reset(cfg, tick), act), {}, None)
    requires ActivateAll(Reset(cfg, tick), act).tm == Reset(cfg, tick).tm
    ensures forall c: nat :: CyclicEvent(c) !in ActivateAll(Reset(cfg, tick), act).tm.pending
    ensures ActivateAll(Reset(cfg, tick), act).tm.min == 0
  {
  }

  /** What `wait_release` relies on, for each of the tasks in turn. */
  ghost predicate Wakeable(k: KState, ts: seq<nat>)
    decreases |ts|
  {
    ts != [] ==>
      && ts[0] < |k.tcb| && k.tcb[ts[0]].tstat.Waiting? && k.tcb[ts[0]].winfo.Tmevtb?
      && (k.tcb[ts[0]].winfo.registered ==> TaskTimeout(ts[0]) in k.tm.pending)
      && Wakeable(KernelState.WaitRelease(k, ts[0], E_OK), ts[1..])
  }

  lemma {:induction false} CanWakeAll(k: KState, o: nat, ts: seq<nat>)
    requires Links(k, {}, None) && CanWake(k, o, ts)
    ensures Wakeable(k, ts)
    decreases |ts|
  {
    if ts != [] {
      assert ts[0] in ts;
      AttachedWaiter(k, ts[0]);
      WakeOneOk(k, o, ts);
      CanWakeAll(KernelState.WaitRelease(k, ts[0], E_OK), o, ts[1..]);
    }
  }

  lemma UnlFacts(k: KState, m: nat)
    requires System(k) && InTask(k) && IsMutex(k.cfg, m) && k.obj[m].loctsk == k.runtsk
    ensures var r := k.runtsk.value;
            && (Dspflg(k) ==> k.runtsk == Top(k.ready))
            && r < |k.tcb| && m in k.tcb[r].held && k.tcb[r].tstat.Runnable? && r in ReadyOf(k, Pri(k, r))
            && (forall o :: 0 <= o < |k.obj| ==> forall x :: x in k.obj[o].waitQueue ==> x < |k.tcb|)
            && Links(Adjust(Unhold(k, r, m), r, Pri(k, r)), {}, Some(m))
  {
    var r := k.runtsk.value;
    OwnerHolds(k, m);
    RunnerFacts(k, r);
    WaitersKnown(k);
    DropOk(k, r, m);
  }

  lemma IniFacts(k: KState, m: nat)
    requires Links(k, {}, None) && IsMutex(k.cfg, m)
    ensures forall o :: 0 <= o < |k.obj| ==> forall x :: x in k.obj[o].waitQueue ==> x < |k.tcb|
    ensures k.obj[m].loctsk.Some? ==>
              var t := k.obj[m].loctsk.value;
              && t < |k.tcb| && m in k.tcb[t].held
              && (k.tcb[t].tstat.Runnable? ==> t in ReadyOf(k, Pri(k, t)))
  {
    WaitersKnown(k);
    if k.obj[m].loctsk.Some? {
      OwnerHolds(k, m);
      assert TaskLinked(k, k.obj[m].loctsk.value, {}, None) && Attached(k, k.obj[m].loctsk.value);
    }
  }

  /** What firing event `e` relies on. */
  ghost predicate FireReady(k: KState, e: TMEVTB) {
    && e in k.tm.pending && KnownEvent(k, e)
    && |k.cycsta| == |k.cfg.cyclics| && |k.almsta| == k.cfg.alarms && |k.tcb| == |k.cfg.ipriority|
    && |Dequeue(k.tm, e).pending| < |k.tcb| + |k.cycsta| + |k.almsta|
    && (e.TaskTimeout? ==> k.tcb[e.tsk].tstat.Waiting?)
    && (e.CyclicEvent? ==> TimerOk(EnqueueAt(Dequeue(k.tm, e), e, k.tm.pending[e] + k.cfg.cyclics[e.cyc].cyctim)))
  }

  lemma FireFacts(k: KState, e: TMEVTB)
    requires System(k) && Fireable(k.tm, e)
    ensures FireReady(k, e)
  {
    assert KnownEvent(k, e);
    DequeueOk(k.tm, e);
    KnownFit(k);
    if e.TaskTimeout? { assert TaskLinked(k, e.tsk, {}, None); }
    if e.CyclicEvent? { RearmedOk(k.tm, e, k.cfg.cyclics[e.cyc].cyctim); }
  }

  /** The events known to `k` are all in `keys`. */
  ghost predicate EventsIn(k: KState, keys: seq<TMEVTB>) {
    forall e :: e in k.tm.pending ==> e in keys
  }

  function EventList(tasks: nat, cyclics: nat, alarms: nat): (s: seq<TMEVTB>)
    ensures forall t: nat :: t < tasks ==> TaskTimeout(t) in s
    ensures forall c: nat :: c < cyclics ==> CyclicEvent(c) in s
    ensures forall a: nat :: a < alarms ==> AlarmEvent(a) in s
  {
    if tasks > 0 then [TaskTimeout(tasks - 1)] + EventList(tasks - 1, cyclics, alarms)
    else if cyclics > 0 then [CyclicEvent(cyclics - 1)] + EventList(0, cyclics - 1, alarms)
    else if alarms > 0 then [AlarmEvent(alarms - 1)] + EventList(0, 0, alarms - 1)
    else []
  }

  /** Each firing uses up work, a cyclic handler's too, since its period is positive. */
  lemma FireWork(k: KState, keys: seq<TMEVTB>, e: TMEVTB)
    requires System(k) && Fireable(k.tm, e) && EventsIn(k, keys)
    ensures F.Work(keys, FireEvent(k, e).tm) < F.Work(keys, k.tm) && EventsIn(FireEvent(k, e), keys)
  {
    assert KnownEvent(k, e);
    KernelTiming.FireTimer(k, e);
    F.WorkMonotone(keys, k.tm, FireEvent(k, e).tm, e);
  }

  /** What the room for every possible event means for one event. */
  lemma RoomFacts(k: KState, e: TMEVTB)
    requires System(k) && KnownEvent(k, e)
    ensures |k.tm.pending| <= |k.tcb| + |k.cycsta| + |k.almsta|
    ensures e !in k.tm.pending ==> |k.tm.pending| < |k.tcb| + |k.cycsta| + |k.almsta|
  {
    KnownFit(k);
    if e !in k.tm.pending { RoomFor(k, e); }
  }

  function Events(cfg: Config): seq<TMEVTB> {
    EventList(|cfg.ipriority|, |cfg.cyclics|, cfg.alarms)
  }

  lemma EventsListed(k: KState)
    requires HandlersLinked(k) && Shape(k)
    ensures EventsIn(k, Events(k.cfg))
  {
    forall x | x in k.tm.pending ensures x in Events(k.cfg) {
      assert KnownEvent(k, x);
    }
  }

  /** One firing within a tick keeps the system in order and makes progress. */
  lemma ProgressOk(k: KState, e: TMEVTB)
    requires System(k) && k.inInt && Fireable(k.tm, e)
    ensures var k' := FireEvent(k, e);
            System(k') && k'.inInt && k'.tm.ticking && F.Work(Events(k.cfg), k'.tm) < F.Work(Events(k.cfg), k.tm)
  {
    FireOk(k, e);
    EventsListed(k);
    FireWork(k, Events(k.cfg), e);
    KernelTiming.FireTimer(k, e);
    FireContext(k, e);
  }

  lemma LastOk(k: KState, k0: KState, calls: seq<Call>)
    requires System(k0) && Amounts(k0, calls, k) && Drained(k.tm)
    ensures var k' := WithTimer(k, EndTick(k.tm));
            System(k') && CanRun(k0, calls + [TickEnd]) && k' == After(k0, calls + [TickEnd])
  {
    RunOk(k0, calls);
    StepOk(k, TickEnd);
    RunExtends(k0, calls, TickEnd);
  }

  lemma RoundOk(k: KState, k0: KState, calls: seq<Call>, e: TMEVTB)
    requires System(k0) && Amounts(k0, calls, k) && Fireable(k.tm, e)
    ensures FireReady(k, e) && Amounts(k0, calls + [Fire(e)], FireEvent(k, e)) && k.cfg == k0.cfg
    ensures F.Work(Events(k.cfg), FireEvent(k, e).tm) < F.Work(Events(k.cfg), k.tm)
  {
    RunOk(k0, calls);
    FireFacts(k, e);
    ProgressOk(k, e);
    AmountsMore(k0, calls, k, Fire(e));
  }

  /** The calls that handlers and interrupts may make in the middle of a tick. */
  predicate InTick(c: Call) {
    c.IactTsk? || c.IwupTsk? || c.IrelWai? || c.IrotRdq? || c.IsigSem? || c.IwakeOther? || c.StaAlm? || c.StpAlm?
  }

  /** In the middle of a tick: `calls` lead from `k0` to `k`. */
  ghost predicate Amounts(k0: KState, calls: seq<Call>, k: KState) {
    && CanRun(k0, calls) && k == After(k0, calls) && k.inInt && k.tm.ticking
    && |calls| >= 1 && calls[0] == TickBegin && forall i :: 0 < i < |calls| ==> calls[i].Fire? || InTick(calls[i])
  }

  lemma AmountsMore(k0: KState, calls: seq<Call>, k: KState, c: Call)
    requires System(k0) && Amounts(k0, calls, k) && Enabled(k, c) && (c.Fire? || InTick(c))
    requires Perform(k, c).k.inInt && Perform(k, c).k.tm.ticking
    ensures System(k) && Amounts(k0, calls + [c], Perform(k, c).k)
  {
    RunOk(k0, calls);
    RunExtends(k0, calls, c);
  }

  lemma InTickOk(k: KState, k0: KState, calls: seq<Call>, c: Call)
    requires System(k0) && Amounts(k0, calls, k) && Enabled(k, c) && InTick(c)
    ensures System(k) && Amounts(k0, calls + [c], Perform(k, c).k) && k.cfg == k0.cfg
    ensures F.Work(Events(k.cfg), Perform(k, c).k.tm) <= F.Work(Events(k.cfg), k.tm)
  {
    RunOk(k0, calls);
    StaysInTick(k, c);
    AddsNoWork(k, c);
    AmountsMore(k0, calls, k, c);
  }

  lemma StaysInTick(k: KState, c: Call)
    requires System(k) && Enabled(k, c) && InTick(c) && k.inInt
    ensures Perform(k, c).k.inInt
  {
    match c
    case IactTsk(t) => StaysAfterTask(k, t);
    case IwupTsk(t) => StaysAfterTask(k, t);
    case IrelWai(t) => StaysAfterTask(k, t);
    case IrotRdq(pri) => RotateOk(k, pri);
    case IsigSem(o) => StaysAfterSignal(k, o);
    case IwakeOther(o, ts) => WakeAllOk(k, o, ts);
    case _ =>
  }

  lemma StaysAfterTask(k: KState, t: nat)
    requires Links(k, {}, None) && t < |k.tcb| && k.inInt
    ensures KernelCalls.IactTsk(k, t).k.inInt && KernelCalls.IwupTsk(k, t).k.inInt && KernelCalls.IrelWai(k, t).k.inInt
  {
    if k.tcb[t].tstat.Dormant? { ActivateOk(k, t); }
    if IsSleeping(k.tcb[t].tstat) { SleeperIsReleased(k, t, E_OK); }
    if k.tcb[t].tstat.Waiting? {
      ReleaseWaitOk(k, t, E_OK);
      ReleaseWaitOk(k, t, E_RLWAI);
    }
  }

  lemma StaysAfterSignal(k: KState, o: nat)
    requires Links(k, {}, None) && o < |k.obj| && k.inInt
    ensures KernelCalls.IsigSem(k, o).k.inInt
  {
    if k.obj[o].waitQueue != [] { WakeFirstWakes(k, o); }
  }

  /** What is pending afterwards was pending for the same time or is for a later one. */
  ghost predicate OnlyLater(tm: TimerState, tm': TimerState) {
    && tm'.current == tm.current && tm'.ticking == tm.ticking
    && forall e :: e in tm'.pending ==> (e in tm.pending && tm'.pending[e] == tm.pending[e]) || tm.current < tm'.pending[e]
  }

  /** What is cancelled, or registered for later, is no work for the present tick. */
  lemma LaterAddsNoWork(keys: seq<TMEVTB>, tm: TimerState, tm': TimerState)
    requires OnlyLater(tm, tm')
    ensures F.Work(keys, tm') <= F.Work(keys, tm)
  {
    F.WorkMonotone(keys, tm, tm', TaskTimeout(0));
  }

  lemma AddsNoWork(k: KState, c: Call)
    requires System(k) && Enabled(k, c) && InTick(c)
    ensures var tm' := Perform(k, c).k.tm;
            F.Work(Events(k.cfg), tm') <= F.Work(Events(k.cfg), k.tm) && tm'.ticking == k.tm.ticking
  {
    OnlyLaterPending(k, c);
    LaterAddsNoWork(Events(k.cfg), k.tm, Perform(k, c).k.tm);
  }

  lemma OnlyLaterPending(k: KState, c: Call)
    requires System(k) && Enabled(k, c) && InTick(c)
    ensures OnlyLater(k.tm, Perform(k, c).k.tm)
  {
    if c.StaAlm? {
      BaseIsLater(k.tm);
      KernelTiming.HandlerStarts(k, c);
    } else if c.StpAlm? {
      KernelTiming.CallStops(k, c);
    } else {
      KernelTiming.CallCancels(k, c);
    }
  }

  lemma FireContext(k: KState, e: TMEVTB)
    requires e in k.tm.pending && KnownEvent(k, e)
    ensures FireEvent(k, e).inInt == k.inInt
  {
    var k1 := WithTimer(k, Dequeue(k.tm, e));
    match e
    case TaskTimeout(t) =>
      EndWaitEffect(k1, t, E_OK);
      EndWaitEffect(LeaveQueue(k1, t), t, E_TMOUT);
      LeaveQueueEffect(k1, t);
    case CyclicEvent(_) =>
    case AlarmEvent(_) =>
  }

  lemma AfterReleaseAll(k: KState, t: nat)
    requires Links(k, {t}, None) && t < |k.tcb|
    ensures var k' := ReleaseAll(k, t, |k.tcb[t].held|);
            && |k'.tcb| == |k.tcb| && k'.tcb[t].held == [] && Unqueued(k'.ready, t)
            && ValidConfig(k'.cfg) && t < |k'.cfg.ipriority|
  {
    ReleaseAllOk(k, t, |k.tcb[t].held|, {t});
    LooseUnqueued(ReleaseAll(k, t, |k.tcb[t].held|), t, {t});
  }

  lemma ExtFacts(k: KState)
    requires System(k) && InTask(k)
    ensures var r := k.runtsk.value;
            && r < |k.tcb| && r in ReadyOf(k, Pri(k, r)) && TaskTimeout(r) !in k.tm.pending
            && Links(KernelState.MakeNonRunnable(WithDispatch(k, false, true), r), {r}, None)
  {
    var r := k.runtsk.value;
    var k1 := WithDispatch(k, false, true);
    RunnerFacts(k, r);
    FlagsOk(k, k1);
    DetachOk(k1, r);
    assert {} + {r} == {r};
  }

  lemma TerFacts(k: KState, t: nat)
    requires System(k) && InTask(k) && t < |k.tcb|
    ensures Dspflg(k) ==> k.runtsk == Top(k.ready)
    ensures k.tcb[t].tstat.Runnable? ==> t in ReadyOf(k, Pri(k, t))
    ensures k.tcb[t].tstat.Waiting? ==>
              k.tcb[t].winfo.Tmevtb? && (k.tcb[t].winfo.registered ==> TaskTimeout(t) in k.tm.pending)
    ensures Links(Detach(k, t), {t}, None) && TaskTimeout(t) !in Detach(k, t).tm.pending
  {
    if k.tcb[t].tstat.Runnable? { RunnerFacts(k, t); }
    if k.tcb[t].tstat.Waiting? { WaiterFacts(k, t); }
    DetachOk(k, t);
    assert {} + {t} == {t};
  }

  /** With dispatching enabled, the task that makes a service call is the first. */
  lemma FirstRuns(k: KState)
    requires System(k) && InTask(k)
    ensures Dspflg(k) ==> k.runtsk == Top(k.ready)
  {
  }

  lemma RequeuedIs(k: KState, t: nat, o: nat)
    requires t < |k.tcb| && k.tcb[t].tstat.Waiting? && k.tcb[t].tstat.cause == OnObject(o) && o < |k.obj| && IsTpri(k.cfg, o)
    ensures JoinQueue(LeaveQueue(k, t), t, o)
         == SetQueue(k, o, InsertTpri(Pris(k), Remove(k.obj[o].waitQueue, t), t))
  {
    assert Pris(LeaveQueue(k, t)) == Pris(k);
  }

  lemma CyclicRearms(k: KState, c: nat, due: nat)
    requires c < |k.cfg.cyclics|
    ensures var e := CyclicEvent(c);
            Callback(k, e, due) == k.(tm := EnqueueAt(k.tm, e, due + k.cfg.cyclics[c].cyctim))
  {
  }

  lemma AlarmStarts(k: KState, a: nat, time: nat)
    requires a < |k.almsta| && time <= TMAX_RELTIM
    ensures var e := AlarmEvent(a);
            KernelCalls.StaAlm(k, a, time).k
            == k.(almsta := k.almsta[a := true], tm := Enqueue(if k.almsta[a] then Dequeue(k.tm, e) else k.tm, e, time))
  {
  }

  /** Without ceilings the base priority is the priority. */
  lemma PlainPriority(k: KState, t: nat, base: nat)
    requires t < |k.tcb| && !HoldsCeiling(k, t)
    ensures PriOf(k.cfg, k.tcb[t].(bpriority := base)) == base
  {
    forall i | 0 <= i < |k.tcb[t].held| ensures CeilingOf(k.cfg, k.tcb[t].held[i]).None? {
      assert TcbOf(k, t).held[i] == k.tcb[t].held[i];
    }
    NoCeilingPlain(k.cfg, k.tcb[t].held, base);
  }

  lemma {:induction false} NoCeilingPlain(cfg: Config, held: seq<nat>, base: nat)
    requires forall i :: 0 <= i < |held| ==> CeilingOf(cfg, held[i]).None?
    ensures LowestOf(cfg, held, base) == base
  {
    if held != [] { NoCeilingPlain(cfg, held[1..], base); }
  }
}
