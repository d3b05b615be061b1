/** The values the kernel caches and what they must agree with: the bitmap with the ready
    queues, the highest-precedence task with their heads, and each current priority with
    the priority control rule. */
module KernelCache {
  import opened Prelude
  import opened Timer
  import opened KernelState
  import opened KernelCalls
  import opened KernelInv
  import opened KernelSteps
  import opened KernelPriority
  import opened KernelSystem
  import opened KernelTheorems

  /** The bitmap marks the non-empty ready queues. */
  ghost predicate Mapped(ready: seq<seq<nat>>, marks: set<nat>) {
    && |ready| == TNUM_TPRI
    && (forall p :: p in marks ==> p < TNUM_TPRI)
    && (forall p :: 0 <= p < TNUM_TPRI ==> (p in marks <==> ready[p] != []))
  }

  /** A ready queue holds runnable tasks of its priority, each once; `loose` may be in it
      although it no longer can run. */
  ghost predicate QueueOk(tcb: seq<TCB>, priority: seq<nat>, q: seq<nat>, p: nat, loose: Option<nat>) {
    && NoDup(q)
    && forall x :: x in q ==> x < |tcb| && x < |priority| && priority[x] == p && (loose == Some(x) || tcb[x].tstat.Runnable?)
  }

  ghost predicate Queues(tcb: seq<TCB>, priority: seq<nat>, ready: seq<seq<nat>>, loose: Option<nat>) {
    forall p :: 0 <= p < |ready| ==> QueueOk(tcb, priority, ready[p], p, loose)
  }

  ghost predicate PriorityOk(cfg: Config, b: TCB, priority: nat) {
    b.bpriority < TNUM_TPRI && priority == PriOf(cfg, b)
  }

  /** `stale` is a task that is being terminated: its priority is not kept up to date. */
  ghost predicate Priorities(cfg: Config, tcb: seq<TCB>, priority: seq<nat>, stale: Option<nat>) {
    && |priority| == |tcb|
    && forall t :: 0 <= t < |tcb| && stale != Some(t) ==> PriorityOk(cfg, tcb[t], priority[t])
  }

  ghost predicate Unqueued(ready: seq<seq<nat>>, t: nat) {
    forall p :: 0 <= p < |ready| ==> t !in ready[p]
  }

  /** The highest-precedence task heads the queue of its own priority. */
  lemma TopPlace(tcb: seq<TCB>, priority: seq<nat>, ready: seq<seq<nat>>, loose: Option<nat>)
    requires Queues(tcb, priority, ready, loose) && Top(ready).Some?
    ensures var s := Top(ready).value; s < |priority| && s < |tcb| && HeadsAt(ready, priority[s], s)
  {
    var p := TopHeads(ready);
    var s := Top(ready).value;
    assert s in ready[p];
    assert QueueOk(tcb, priority, ready[p], p, loose);
  }

  lemma TopEmpty(ready: seq<seq<nat>>)
    requires Top(ready).None?
    ensures forall p :: 0 <= p < |ready| ==> ready[p] == []
  {
    var p := TopHeads(ready);
  }

  lemma {:induction false} TopNone(ready: seq<seq<nat>>)
    requires forall p :: 0 <= p < |ready| ==> ready[p] == []
    ensures Top(ready).None?
  {
    if ready != [] { TopNone(ready[1..]); }
  }

  /** A task joins a queue at its end: it becomes the first only if its priority is higher
      than that of the first one. */
  lemma AppendTop(ready: seq<seq<nat>>, p: nat, t: nat, h: nat)
    requires p < |ready|
    requires Top(ready).Some? ==> HeadsAt(ready, h, Top(ready).value)
    ensures Top(ready[p := ready[p] + [t]]) == if Top(ready).None? || p < h then Some(t) else Top(ready)
  {
    var ready' := ready[p := ready[p] + [t]];
    if Top(ready).None? {
      TopEmpty(ready);
      HeadsTop(ready', p, t);
    } else if p < h {
      HeadsTop(ready', p, t);
    } else {
      HeadsTop(ready', h, Top(ready).value);
    }
  }

  /** A task joins a queue at its front: it becomes the first unless a higher priority is there. */
  lemma PrependTop(ready: seq<seq<nat>>, p: nat, t: nat, h: nat)
    requires p < |ready|
    requires Top(ready).Some? ==> HeadsAt(ready, h, Top(ready).value)
    ensures Top(ready[p := [t] + ready[p]]) == if Top(ready).None? || p <= h then Some(t) else Top(ready)
  {
    var ready' := ready[p := [t] + ready[p]];
    if Top(ready).None? {
      TopEmpty(ready);
      HeadsTop(ready', p, t);
    } else if p <= h {
      HeadsTop(ready', p, t);
    } else {
      HeadsTop(ready', h, Top(ready).value);
    }
  }

  /** Tasks have joined ready queues, all of them at the end. */
  ghost predicate Rises(ready: seq<seq<nat>>, ready': seq<seq<nat>>) {
    |ready'| == |ready| && forall p :: 0 <= p < |ready| ==> ready[p] <= ready'[p]
  }

  lemma RisesTwice(ready: seq<seq<nat>>, ready1: seq<seq<nat>>, ready2: seq<seq<nat>>)
    requires Rises(ready, ready1) && Rises(ready1, ready2)
    ensures Rises(ready, ready2)
  {
    forall p | 0 <= p < |ready| ensures ready[p] <= ready2[p] {
      assert ready[p] <= ready1[p] && ready1[p] <= ready2[p];
    }
  }

  /** Once the first task is another one it stays so: whoever joins can only be in front of it. */
  lemma RisenTop(tcb: seq<TCB>, priority: seq<nat>, ready: seq<seq<nat>>, ready1: seq<seq<nat>>, ready2: seq<seq<nat>>)
    requires Rises(ready, ready1) && Rises(ready1, ready2) && Queues(tcb, priority, ready2, None)
    requires Top(ready1) != Top(ready)
    ensures Top(ready2) != Top(ready)
  {
    var p0 := TopHeads(ready);
    var p1 := TopHeads(ready1);
    var p2 := TopHeads(ready2);
    if Top(ready).Some? {
      var t := Top(ready).value;
      assert ready[p0] <= ready1[p0] && ready1[p0] <= ready2[p0];
      assert QueueOk(tcb, priority, ready2[p0], p0, None) && t in ready2[p0];
      if Top(ready2).Some? {
        assert QueueOk(tcb, priority, ready2[p2], p2, None) && Top(ready2).value in ready2[p2];
        assert ready1[p1] <= ready2[p1];
      }
    } else {
      assert ready1[p1] <= ready2[p1];
    }
  }

  lemma WakeRises(k: KState, t: nat, ercd: ER)
    ensures Rises(k.ready, WaitRelease(k, t, ercd).ready)
  {
    var k1 := SetWinfo(DequeueTimeout(LeaveQueue(k, t), t), t, Wercd(ercd));
    assert k1.ready == k.ready;
    NonWaitRises(k1, t);
  }

  lemma NonWaitRises(k: KState, t: nat)
    ensures Rises(k.ready, MakeNonWait(k, t).ready)
  {
  }

  /** The first task leaves: the next in its queue is the first. */
  lemma HeadLeaves(ready: seq<seq<nat>>, p: nat, t: nat)
    requires HeadsAt(ready, p, t) && |ready[p]| > 1
    ensures Remove(ready[p], t) == ready[p][1..] && Top(ready[p := Remove(ready[p], t)]) == Some(ready[p][1])
  {
    HeadsTop(ready[p := Remove(ready[p], t)], p, ready[p][1]);
  }

  /** Another task leaves: the first stays. */
  lemma OtherLeaves(ready: seq<seq<nat>>, p: nat, t: nat, h: nat)
    requires p < |ready| && Top(ready).Some? && HeadsAt(ready, h, Top(ready).value) && Top(ready).value != t
    ensures Top(ready[p := Remove(ready[p], t)]) == Top(ready)
    ensures HeadsAt(ready[p := Remove(ready[p], t)], h, Top(ready).value)
  {
    HeadsTop(ready[p := Remove(ready[p], t)], h, Top(ready).value);
  }

  lemma LeaveQueues(tcb: seq<TCB>, priority: seq<nat>, ready: seq<seq<nat>>, p: nat, t: nat, loose: Option<nat>)
    requires Queues(tcb, priority, ready, loose) && p < |ready|
    requires loose == None || loose == Some(t)
    requires t < |priority| ==> priority[t] == p
    ensures Queues(tcb, priority, ready[p := Remove(ready[p], t)], None)
    ensures Unqueued(ready[p := Remove(ready[p], t)], t)
  {
    var ready' := ready[p := Remove(ready[p], t)];
    forall q | 0 <= q < |ready'| ensures QueueOk(tcb, priority, ready'[q], q, None) && t !in ready'[q] {
      assert QueueOk(tcb, priority, ready[q], q, loose);
      RemoveNoDup(ready[q], t);
    }
  }

  lemma JoinQueues(tcb: seq<TCB>, priority: seq<nat>, ready: seq<seq<nat>>, p: nat, t: nat, q': seq<nat>)
    requires Queues(tcb, priority, ready, None) && p < |ready| && Unqueued(ready, t)
    requires t < |tcb| && t < |priority| && priority[t] == p && tcb[t].tstat.Runnable?
    requires q' == ready[p] + [t] || q' == [t] + ready[p]
    ensures Queues(tcb, priority, ready[p := q'], None)
  {
    var ready' := ready[p := q'];
    NoDupAppend2(ready[p], t, q');
    forall q | 0 <= q < |ready'| ensures QueueOk(tcb, priority, ready'[q], q, None) {
      assert QueueOk(tcb, priority, ready[q], q, None);
    }
  }

  lemma NoDupAppend2(s: seq<nat>, t: nat, s': seq<nat>)
    requires NoDup(s) && t !in s && (s' == s + [t] || s' == [t] + s)
    ensures NoDup(s') && forall x :: x in s' <==> x in s || x == t
  {
  }

  /** The record and the priority of a task that is in no ready queue do not matter to them. */
  lemma ChangeUnqueued(tcb: seq<TCB>, priority: seq<nat>, ready: seq<seq<nat>>, t: nat, b: TCB, pri: nat)
    requires Queues(tcb, priority, ready, None) && t < |tcb| == |priority| && Unqueued(ready, t)
    ensures Queues(tcb[t := b], priority[t := pri], ready, None)
  {
    forall q | 0 <= q < |ready| ensures QueueOk(tcb[t := b], priority[t := pri], ready[q], q, None) {
      assert QueueOk(tcb, priority, ready[q], q, None);
    }
  }

  lemma NotRunnableUnqueued(tcb: seq<TCB>, priority: seq<nat>, ready: seq<seq<nat>>, t: nat)
    requires Queues(tcb, priority, ready, None) && t < |tcb| && !tcb[t].tstat.Runnable?
    ensures Unqueued(ready, t)
  {
    forall p | 0 <= p < |ready| ensures t !in ready[p] {
      assert QueueOk(tcb, priority, ready[p], p, None);
    }
  }

  lemma PriorityRange(cfg: Config, tcb: seq<TCB>, priority: seq<nat>, stale: Option<nat>, t: nat)
    requires Priorities(cfg, tcb, priority, stale) && t < |tcb| && stale != Some(t)
    ensures priority[t] < TNUM_TPRI && priority[t] == PriOf(cfg, tcb[t])
  {
    assert PriorityOk(cfg, tcb[t], priority[t]);
    LowestInRange(cfg, tcb[t].held, tcb[t].bpriority);
  }

  // ---- the three ways a ready queue changes

  /** `t` joins its queue at the end. */
  lemma Joined(tcb: seq<TCB>, priority: seq<nat>, ready: seq<seq<nat>>, marks: set<nat>, t: nat)
    requires Queues(tcb, priority, ready, None) && Mapped(ready, marks) && Unqueued(ready, t)
    requires t < |tcb| && t < |priority| && priority[t] < TNUM_TPRI && tcb[t].tstat.Runnable?
    ensures var p, s := priority[t], Top(ready);
            var ready' := ready[p := ready[p] + [t]];
            && Mapped(ready', marks + {p}) && Queues(tcb, priority, ready', None)
            && (s.Some? ==> s.value < |priority|)
            && Top(ready') == (if s.None? || p < priority[s.value] then Some(t) else s)
            && s != Some(t)
  {
    var p, s := priority[t], Top(ready);
    if s.Some? { TopPlace(tcb, priority, ready, None); }
    AppendTop(ready, p, t, if s.Some? then priority[s.value] else 0);
    JoinQueues(tcb, priority, ready, p, t, ready[p] + [t]);
  }

  /** `t` leaves its queue. */
  lemma Left(tcb: seq<TCB>, priority: seq<nat>, ready: seq<seq<nat>>, marks: set<nat>, t: nat)
    requires Queues(tcb, priority, ready, Some(t)) && Mapped(ready, marks)
    requires t < |priority| && priority[t] < |ready| && t in ready[priority[t]]
    ensures var p, s := priority[t], Top(ready);
            var ready' := ready[p := Remove(ready[p], t)];
            && Mapped(ready', if ready'[p] == [] then marks - {p} else marks)
            && Queues(tcb, priority, ready', None) && Unqueued(ready', t)
            && s.Some?
            && (s != Some(t) ==> Top(ready') == s)
            && (s == Some(t) ==> Top(ready') != s)
            && (s == Some(t) && ready'[p] != [] ==> Top(ready') == Some(ready'[p][0]))
  {
    var p := priority[t];
    var ready' := ready[p := Remove(ready[p], t)];
    LeaveQueues(tcb, priority, ready, p, t, Some(t));
    if Top(ready).None? { TopEmpty(ready); }
    TopPlace(tcb, priority, ready, Some(t));
    if Top(ready) != Some(t) {
      OtherLeaves(ready, p, t, priority[Top(ready).value]);
    } else {
      if |ready[p]| > 1 { HeadLeaves(ready, p, t); }
      var h := TopHeads(ready');
    }
  }

  lemma RunnableIs(k: KState, t: nat, pri: nat)
    requires t < |k.tcb| && pri == PriOf(k.cfg, k.tcb[t]) && pri < |k.ready|
    ensures MakeRunnable(k, t) == k.(ready := k.ready[pri := k.ready[pri] + [t]])
    ensures MakeNonRunnable(k, t) == k.(ready := k.ready[pri := Remove(k.ready[pri], t)])
  {
  }

  /** The queue a task moves to, at its front or at its end. */
  function Moved(ready: seq<seq<nat>>, t: nat, oldpri: nat, newpri: nat, front: bool): seq<seq<nat>>
    requires oldpri < |ready| && newpri < |ready|
  {
    var ready1 := ready[oldpri := Remove(ready[oldpri], t)];
    ready1[newpri := if front then [t] + ready1[newpri] else ready1[newpri] + [t]]
  }

  /** Who is first once `t` has moved. */
  lemma MovedTop(tcb: seq<TCB>, priority: seq<nat>, ready: seq<seq<nat>>, marks: set<nat>, t: nat, newpri: nat, front: bool)
    requires Queues(tcb, priority, ready, None) && Mapped(ready, marks)
    requires t < |priority| && priority[t] < |ready| && t in ready[priority[t]] && newpri < |ready|
    ensures var s, ready' := Top(ready), Moved(ready, t, priority[t], newpri, front);
            && s.Some? && s.value < |priority|
            && (s == Some(t) && newpri < priority[t] ==> Top(ready') == s)
            && (s != Some(t) ==>
                  Top(ready') == if (if front then newpri <= priority[s.value] else newpri < priority[s.value])
                                 then Some(t) else s)
  {
    var p := priority[t];
    var ready1 := ready[p := Remove(ready[p], t)];
    Left0(tcb, priority, ready, marks, t);
    TopPlace(tcb, priority, ready, None);
    var s := Top(ready);
    var h := TopHeads(ready1);
    if s != Some(t) {
      OtherLeaves(ready, p, t, priority[s.value]);
      h := priority[s.value];
    }
    if front { PrependTop(ready1, newpri, t, h); } else { AppendTop(ready1, newpri, t, h); }
  }

  lemma Left0(tcb: seq<TCB>, priority: seq<nat>, ready: seq<seq<nat>>, marks: set<nat>, t: nat)
    requires Queues(tcb, priority, ready, None) && Mapped(ready, marks)
    requires t < |priority| && priority[t] < |ready| && t in ready[priority[t]]
    ensures var p := priority[t];
            var ready' := ready[p := Remove(ready[p], t)];
            && Mapped(ready', if ready'[p] == [] then marks - {p} else marks)
            && Queues(tcb, priority, ready', None) && Unqueued(ready', t) && Top(ready).Some?
            && t < |tcb| && tcb[t].tstat.Runnable?
  {
    LooseQueues(tcb, priority, ready, t);
    Left(tcb, priority, ready, marks, t);
    assert QueueOk(tcb, priority, ready[priority[t]], priority[t], None);
  }

  lemma LooseQueues(tcb: seq<TCB>, priority: seq<nat>, ready: seq<seq<nat>>, t: nat)
    requires Queues(tcb, priority, ready, None)
    ensures Queues(tcb, priority, ready, Some(t))
  {
    forall q | 0 <= q < |ready| ensures QueueOk(tcb, priority, ready[q], q, Some(t)) {
      assert QueueOk(tcb, priority, ready[q], q, None);
    }
  }

  /** The queues stay in order when `t` moves to the queue of its new priority. */
  lemma MovedOk(tcb: seq<TCB>, priority: seq<nat>, ready: seq<seq<nat>>, marks: set<nat>, t: nat, newpri: nat, front: bool)
    requires Queues(tcb, priority, ready, None) && Mapped(ready, marks)
    requires t < |priority| && priority[t] < |ready| && t in ready[priority[t]] && newpri < |ready| && |tcb| == |priority|
    ensures var p := priority[t];
            var ready' := Moved(ready, t, p, newpri, front);
            && Mapped(ready', (if Remove(ready[p], t) == [] then marks - {p} else marks) + {newpri})
            && Queues(tcb, priority[t := newpri], ready', None)
  {
    var p := priority[t];
    var ready1 := ready[p := Remove(ready[p], t)];
    Left0(tcb, priority, ready, marks, t);
    ChangeUnqueued(tcb, priority, ready1, t, tcb[t], newpri);
    assert tcb[t := tcb[t]] == tcb;
    JoinQueues(tcb, priority[t := newpri], ready1, newpri, t,
               if front then [t] + ready1[newpri] else ready1[newpri] + [t]);
  }

  lemma RepositionIs(k: KState, t: nat, oldpri: nat, newpri: nat, mtxmode: bool)
    requires t < |k.tcb| && newpri == PriOf(k.cfg, k.tcb[t]) && newpri < |k.ready| && oldpri < |k.ready|
    requires k.tcb[t].tstat.Runnable?
    ensures Reposition(k, t, oldpri, mtxmode) == k.(ready := Moved(k.ready, t, oldpri, newpri, mtxmode))
  {
    var k1 := SetReady(k, oldpri, Remove(ReadyOf(k, oldpri), t));
    assert k1 == k.(ready := k.ready[oldpri := Remove(k.ready[oldpri], t)]);
  }

  /** A task goes behind its equals and in front of the first of lower priority. */
  lemma {:induction false} InsertAt(p: seq<nat>, s: seq<nat>, t: nat, i: nat)
    requires i <= |s| && forall j :: 0 <= j < i ==> PriIn(p, s[j]) <= PriIn(p, t)
    requires i < |s| ==> PriIn(p, t) < PriIn(p, s[i])
    ensures InsertTpri(p, s, t) == s[..i] + [t] + s[i..]
  {
    if i == 0 {
      assert s[..0] + [t] + s[0..] == [t] + s;
    } else {
      InsertAt(p, s[1..], t, i - 1);
      assert [s[0]] + s[1..][..i - 1] == s[..i] && s[1..][i - 1..] == s[i..];
    }
  }

  lemma PrisAre(k: KState, priority: seq<nat>)
    requires Priorities(k.cfg, k.tcb, priority, None)
    ensures Pris(k) == priority
  {
    forall t | 0 <= t < |priority| ensures Pris(k)[t] == priority[t] {
      assert PriorityOk(k.cfg, k.tcb[t], priority[t]);
    }
  }

  /** Rotating a queue of more than one task. */
  lemma Rotated(tcb: seq<TCB>, priority: seq<nat>, ready: seq<seq<nat>>, marks: set<nat>, p: nat)
    requires Queues(tcb, priority, ready, None) && Mapped(ready, marks) && p < |ready| && |ready[p]| > 1
    ensures var q := ready[p];
            var ready' := ready[p := q[1..] + [q[0]]];
            && Mapped(ready', marks) && Queues(tcb, priority, ready', None)
            && Top(ready') == (if Top(ready) == Some(q[0]) then Some(q[1]) else Top(ready))
            && q[0] != q[1]
  {
    var q := ready[p];
    var ready' := ready[p := q[1..] + [q[0]]];
    assert QueueOk(tcb, priority, q, p, None);
    NoDupTail(q);
    NoDupAppend(q[1..], q[0]);
    forall x | 0 <= x < |ready'| ensures QueueOk(tcb, priority, ready'[x], x, None) {
      assert QueueOk(tcb, priority, ready[x], x, None);
    }
    if Top(ready).None? { TopEmpty(ready); }
    TopPlace(tcb, priority, ready, None);
    var s := Top(ready).value;
    assert q[0] in q;
    HeadsTop(ready', priority[s], if s == q[0] then q[1] else s);
  }

  // ---- what the system invariant gives to the operations

  /** A waiting task's union holds its time event member, registered as it says. */
  lemma WaiterFacts(k: KState, t: nat)
    requires System(k) && t < |k.tcb| && k.tcb[t].tstat.Waiting?
    ensures k.tcb[t].winfo.Tmevtb?
    ensures k.tcb[t].winfo.registered <==> TaskTimeout(t) in k.tm.pending
  {
    assert TaskLinked(k, t, {}, None) && Attached(k, t);
  }

  lemma RunnerFacts(k: KState, t: nat)
    requires System(k) && t < |k.tcb| && k.tcb[t].tstat.Runnable?
    ensures t in ReadyOf(k, Pri(k, t)) && TaskTimeout(t) !in k.tm.pending
  {
    assert TaskLinked(k, t, {}, None) && Attached(k, t);
  }

  lemma WaitersKnown(k: KState)
    requires Links(k, {}, None)
    ensures forall o :: 0 <= o < |k.obj| ==> forall x :: x in k.obj[o].waitQueue ==> x < |k.tcb|
  {
    forall o | 0 <= o < |k.obj| ensures forall x :: x in k.obj[o].waitQueue ==> x < |k.tcb| {
      assert ObjLinked(k, o, {}, None);
    }
  }

  /** There is room in the heap for an event that is not pending yet. */
  lemma RoomFor(k: KState, e: TMEVTB)
    requires HandlersLinked(k) && KnownEvent(k, e) && e !in k.tm.pending
    ensures |k.tm.pending| < |k.tcb| + |k.cycsta| + |k.almsta|
  {
    var k1 := WithTimer(k, EnqueueAt(k.tm, e, 0));
    forall x | x in k1.tm.pending ensures KnownEvent(k1, x) {
      if x != e { assert KnownEvent(k, x); }
    }
    KnownFit(k1);
    assert k1.tm.pending.Keys == k.tm.pending.Keys + {e};
  }

  /** The order in which a task leaves its ready queue and is armed does not matter. */
  lemma WaitingCommutes(k: KState, r: nat, pri: nat, cause: Cause, registered: bool, k1: KState)
    requires r < |k.tcb| && pri == PriOf(k.cfg, k.tcb[r]) && pri < |k.ready|
    requires k1 == MakeNonRunnable(SetState(k, r, Waiting(cause, false)), r)
    ensures SetWinfo(k1, r, Tmevtb(registered))
         == SetTcb(MakeNonRunnable(k, r), r,
                   TcbOf(MakeNonRunnable(k, r), r).(tstat := Waiting(cause, false), winfo := Tmevtb(registered)))
  {
    RunnableIs(k, r, pri);
    RunnableIs(SetState(k, r, Waiting(cause, false)), r, pri);
  }

  lemma InitQueueStep(k: KState, k1: KState, o: nat)
    requires o < |k.obj| && k.obj[o].waitQueue != []
    requires k1 == var q := k.obj[o].waitQueue; WaitComplete(SetQueue(k, o, q[1..]), q[0], E_DLT)
    ensures InitQueue(k, o, |k.obj[o].waitQueue|) == InitQueue(k1, o, |k.obj[o].waitQueue| - 1)
  {
  }

  // ---- priorities one mutex at a time

  lemma {:induction false} LowestMin(cfg: Config, held: seq<nat>, base: nat, c: nat)
    ensures LowestOf(cfg, held, Min(c, base)) == Min(c, LowestOf(cfg, held, base))
  {
    if held != [] { LowestMin(cfg, held[1..], base, c); }
  }

  /** `p` and the ceiling of `m`, whichever is higher. */
  function Raised(cfg: Config, m: nat, p: nat): nat {
    match CeilingOf(cfg, m)
    case Some(c) => Min(c, p)
    case None => p
  }

  lemma LowestStep(cfg: Config, held: seq<nat>, i: nat, p: nat)
    requires i < |held|
    ensures LowestOf(cfg, held[i..], p) == LowestOf(cfg, held[i + 1..], Raised(cfg, held[i], p))
  {
    assert held[i..][1..] == held[i + 1..];
    if CeilingOf(cfg, held[i]).Some? { LowestMin(cfg, held[i + 1..], p, CeilingOf(cfg, held[i]).value); }
  }

  lemma LowestOfMore(cfg: Config, held: seq<nat>, m: nat, base: nat)
    ensures LowestOf(cfg, [m] + held, base) == Raised(cfg, m, LowestOf(cfg, held, base))
    ensures LowestOf(cfg, held + [m], base) == Raised(cfg, m, LowestOf(cfg, held, base))
  {
    assert ([m] + held)[1..] == held;
    LowestAppend(cfg, held, m, base);
  }

  lemma LowestOfLess(cfg: Config, held: seq<nat>, m: nat, base: nat)
    requires m in held
    ensures LowestOf(cfg, held, base) == Raised(cfg, m, LowestOf(cfg, Remove(held, m), base))
  {
    LowestRemove(cfg, held, m, base);
  }

  /** The cached priorities are right but for that of `t`, which should be `newpri`. */
  lemma PrioritiesBut(cfg: Config, tcb: seq<TCB>, priority: seq<nat>, stale: Option<nat>, t: nat, b: TCB, newpri: nat)
    requires Priorities(cfg, tcb, priority, stale) && t < |tcb|
    requires stale == Some(t) || (b.bpriority < TNUM_TPRI && newpri == PriOf(cfg, b))
    ensures Priorities(cfg, tcb[t := b], priority[t := newpri], stale)
  {
    var tcb', priority' := tcb[t := b], priority[t := newpri];
    forall x | 0 <= x < |tcb| && stale != Some(x) ensures PriorityOk(cfg, tcb'[x], priority'[x]) {
      assert x != t ==> PriorityOk(cfg, tcb[x], priority[x]);
    }
  }

  /** The record of a task may change as long as its state does not. */
  lemma QueuesBut(tcb: seq<TCB>, priority: seq<nat>, ready: seq<seq<nat>>, t: nat, b: TCB)
    requires Queues(tcb, priority, ready, None) && t < |tcb| && b.tstat == tcb[t].tstat
    ensures Queues(tcb[t := b], priority, ready, None)
  {
    forall q | 0 <= q < |ready| ensures QueueOk(tcb[t := b], priority, ready[q], q, None) {
      assert QueueOk(tcb, priority, ready[q], q, None);
    }
  }

  /** The first waiter of a mutex has a time event member in its union. */
  lemma FirstUnion(k: KState, m: nat, lt: set<nat>)
    requires Links(k, lt, Some(m)) && m < |k.obj| && k.obj[m].waitQueue != []
    ensures var t := k.obj[m].waitQueue[0]; t < |k.tcb| && t !in lt && k.tcb[t].winfo.Tmevtb?
  {
    var t := k.obj[m].waitQueue[0];
    FirstLeaves(k, m, lt, Some(m));
    assert TaskLinked(k, t, lt, Some(m)) && Attached(k, t);
  }

  lemma ReleaseAllStep(k: KState, k1: KState, t: nat)
    requires t < |k.tcb| && k.tcb[t].held != []
    requires k1 == var m := k.tcb[t].held[0]; Release(Unhold(k, t, m), m)
    ensures ReleaseAll(k, t, |k.tcb[t].held|) == ReleaseAll(k1, t, |k.tcb[t].held| - 1)
  {
  }

  lemma HeldKnown(k: KState, t: nat, m: nat, lt: set<nat>)
    requires Links(k, lt, None) && t < |k.tcb| && m in k.tcb[t].held
    ensures m < |k.obj|
  {
    assert TaskLinked(k, t, lt, None);
    assert HeldOk(k, t, m);
  }

  lemma LooseUnqueued(k: KState, t: nat, lt: set<nat>)
    requires Links(k, lt, None) && t in lt
    ensures Unqueued(k.ready, t)
  {
    forall p | 0 <= p < |k.ready| ensures t !in k.ready[p] {
      assert ReadyLinked(k, p, lt);
      assert t < |k.tcb| ==> !InReady(k, p, t, lt);
    }
  }
}
