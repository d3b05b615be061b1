/** Several waits ended by one call: exactly those waits end, everybody else is left alone, and
    the tasks join the ready queues in the order in which their waits are ended. */
module ReleaseOrder {
  import opened Prelude
  import opened Timer
  import opened KernelState
  import opened KernelCalls
  import opened KernelInv
  import opened KernelSteps
  import opened KernelPriority
  import opened KernelSystem
  import opened KernelRuns
  import opened KernelEffects

  /** The tasks of `s` that can run once they wait no longer, of priority `p`, in order. */
  function Joining(k: KState, s: seq<nat>, p: nat): seq<nat> {
    if s == [] then []
    else
      var b := TcbOf(k, s[0]);
      (if b.tstat.Waiting? && !b.tstat.suspended && Pri(k, s[0]) == p then [s[0]] else []) + Joining(k, s[1..], p)
  }

  /** The queue `q` without the tasks of `s`, in order. */
  function LeftOver(q: seq<nat>, s: seq<nat>): seq<nat> {
    if q == [] then [] else (if q[0] in s then [] else [q[0]]) + LeftOver(q[1..], s)
  }

  /** Record by record. */
  ghost predicate RecordsEnd(k: KState, k': KState, s: seq<nat>, ercd: ER) {
    && |k'.tcb| == |k.tcb|
    && forall x :: 0 <= x < |k.tcb| ==> RecordEnds(k, k', s, ercd, x)
  }

  ghost predicate RecordEnds(k: KState, k': KState, s: seq<nat>, ercd: ER, x: nat)
    requires x < |k.tcb| == |k'.tcb|
  {
    k'.tcb[x] == if x in s && k.tcb[x].tstat.Waiting?
                 then k.tcb[x].(winfo := Wercd(ercd), tstat := if k.tcb[x].tstat.suspended then Suspended else Runnable)
                 else k.tcb[x]
  }

  ghost predicate InOrder(k: KState, k': KState, s: seq<nat>) {
    && |k'.ready| == |k.ready|
    && forall p :: 0 <= p < |k.ready| ==> k'.ready[p] == k.ready[p] + Joining(k, s, p)
  }

  ghost predicate QueuesLeft(k: KState, k': KState, s: seq<nat>) {
    && |k'.obj| == |k.obj|
    && forall o :: 0 <= o < |k.obj| ==> k'.obj[o] == k.obj[o].(waitQueue := LeftOver(k.obj[o].waitQueue, s))
  }

  ghost predicate TimeoutsCancelled(tm: TimerState, tm': TimerState, s: seq<nat>) {
    && tm' == tm.(pending := tm'.pending)
    && (forall e :: e in tm'.pending <==> e in tm.pending && !(e.TaskTimeout? && e.tsk in s))
    && forall e :: e in tm'.pending ==> tm'.pending[e] == tm.pending[e]
  }

  /** The waits of the tasks in `s` end with `ercd`, in that order, and nothing else happens; who
      runs then, or whether a dispatch is asked for, is left open. */
  ghost predicate AllEnd(k: KState, k': KState, s: seq<nat>, ercd: ER) {
    && RecordsEnd(k, k', s, ercd) && InOrder(k, k', s) && QueuesLeft(k, k', s) && TimeoutsCancelled(k.tm, k'.tm, s)
    && k' == k.(tcb := k'.tcb, ready := k'.ready, obj := k'.obj, tm := k'.tm, runtsk := k'.runtsk, reqflg := k'.reqflg)
  }

  // ---- none, and one more

  lemma {:induction false} LeftOverNone(q: seq<nat>)
    ensures LeftOver(q, []) == q
  {
    if q != [] { LeftOverNone(q[1..]); }
  }

  lemma AllEndNone(k: KState, ercd: ER)
    ensures AllEnd(k, k, [], ercd)
  {
    forall o | 0 <= o < |k.obj| ensures k.obj[o] == k.obj[o].(waitQueue := LeftOver(k.obj[o].waitQueue, [])) {
      LeftOverNone(k.obj[o].waitQueue);
    }
  }

  lemma {:induction false} LeftOverMore(q: seq<nat>, t: nat, s: seq<nat>)
    requires NoDup(q)
    ensures LeftOver(Remove(q, t), s) == LeftOver(q, [t] + s)
  {
    if q != [] {
      NoDupTail(q);
      if q[0] == t {
        LeftOverAbsent(q[1..], t, s);
      } else {
        LeftOverMore(q[1..], t, s);
        assert q[0] in [t] + s <==> q[0] in s;
      }
    }
  }

  lemma {:induction false} LeftOverAbsent(q: seq<nat>, t: nat, s: seq<nat>)
    requires t !in q
    ensures LeftOver(q, s) == LeftOver(q, [t] + s)
  {
    if q != [] {
      assert q[0] in [t] + s <==> q[0] in s;
      LeftOverAbsent(q[1..], t, s);
    }
  }

  /** Tasks whose records are the same join as before. */
  lemma {:induction false} JoiningSame(k: KState, k1: KState, s: seq<nat>, p: nat)
    requires k1.cfg == k.cfg && forall x :: x in s ==> TcbOf(k1, x) == TcbOf(k, x)
    ensures Joining(k1, s, p) == Joining(k, s, p)
  {
    if s != [] {
      assert s[0] in s && Pri(k1, s[0]) == Pri(k, s[0]);
      JoiningSame(k, k1, s[1..], p);
    }
  }

  lemma OrderMore(k: KState, k1: KState, k': KState, s: seq<nat>, ercd: ER)
    requires s != [] && NoDup(s) && s[0] < |k.tcb| && k.tcb[s[0]].tstat.Waiting? && Pri(k, s[0]) < |k.ready|
    requires k1 == AfterEnd(k, s[0], ercd) && InOrder(k1, k', s[1..])
    ensures InOrder(k, k', s)
  {
    NoDupTail(s);
    forall p | 0 <= p < |k.ready| ensures k'.ready[p] == k.ready[p] + Joining(k, s, p) {
      JoiningSame(k, k1, s[1..], p);
    }
  }

  lemma QueuesMore(k: KState, k1: KState, k': KState, s: seq<nat>, ercd: ER)
    requires Links(k, {}, None) && s != [] && s[0] < |k.tcb| && k.tcb[s[0]].tstat.Waiting? && Pri(k, s[0]) < |k.ready|
    requires k1 == AfterEnd(k, s[0], ercd) && QueuesLeft(k1, k', s[1..])
    ensures QueuesLeft(k, k', s)
  {
    var t := s[0];
    assert s == [t] + s[1..];
    forall o | 0 <= o < |k.obj| ensures k'.obj[o] == k.obj[o].(waitQueue := LeftOver(k.obj[o].waitQueue, s)) {
      var q := k.obj[o].waitQueue;
      assert ObjLinked(k, o, {}, None);
      if WaitsFor(k, t, o) {
        LeftOverMore(q, t, s[1..]);
      } else {
        QueuedWait(k, o);
        LeftOverAbsent(q, t, s[1..]);
      }
    }
  }

  lemma AllEndMore(k: KState, k1: KState, k': KState, s: seq<nat>, ercd: ER)
    requires Links(k, {}, None) && s != [] && NoDup(s)
    requires s[0] < |k.tcb| && k.tcb[s[0]].tstat.Waiting? && Pri(k, s[0]) < |k.ready|
    requires k1 == AfterEnd(k, s[0], ercd) && AllEnd(k1, k', s[1..], ercd)
    ensures AllEnd(k, k', s, ercd)
  {
    NoDupTail(s);
    OrderMore(k, k1, k', s, ercd);
    QueuesMore(k, k1, k', s, ercd);
    forall x | 0 <= x < |k.tcb| ensures RecordEnds(k, k', s, ercd, x) {
      assert RecordEnds(k1, k', s[1..], ercd, x);
    }
  }

  // ---- releasing some, and releasing all

  lemma {:induction false} WakeAllEnds(k: KState, o: nat, ts: seq<nat>)
    requires Links(k, {}, None) && CanWake(k, o, ts)
    ensures AllEnd(k, WakeAll(k, ts), ts, E_OK)
    decreases |ts|
  {
    if ts == [] {
      AllEndNone(k, E_OK);
    } else {
      var k1 := WaitRelease(k, ts[0], E_OK);
      assert ts[0] in ts;
      WakeOneOk(k, o, ts);
      WaitReleaseEnds(k, ts[0], E_OK);
      ReleasedIs(k, ts[0], E_OK);
      WakeAllEnds(k1, o, ts[1..]);
      AllEndMore(k, k1, WakeAll(k, ts), ts, E_OK);
    }
  }

  lemma ReleasedIs(k: KState, t: nat, ercd: ER)
    requires Links(k, {}, None) && t < |k.tcb| && k.tcb[t].tstat.Waiting?
    ensures Pri(k, t) < |k.ready| && WaitRelease(k, t, ercd) == AfterEnd(k, t, ercd)
  {
    AttachedFacts(k, t, None);
    WaitReleaseIs(k, t, ercd);
  }

  lemma {:induction false} InitQueueEnds(k: KState, o: nat, n: nat)
    requires Links(k, {}, None) && o < |k.obj| && n == |k.obj[o].waitQueue|
    ensures AllEnd(k, InitQueue(k, o, n), k.obj[o].waitQueue, E_DLT)
    decreases n
  {
    var q := k.obj[o].waitQueue;
    if n == 0 {
      AllEndNone(k, E_DLT);
    } else {
      FirstLeaves(k, o, {}, None);
      ReleaseWaitOk(k, q[0], E_DLT);
      ReleasedIs(k, q[0], E_DLT);
      assert ObjLinked(k, o, {}, None);
      var k1 := WaitRelease(k, q[0], E_DLT);
      InitQueueEnds(k1, o, n - 1);
      AllEndMore(k, k1, InitQueue(k, o, n), q, E_DLT);
    }
  }

  /** Who can be released by one call waits for its object. */
  lemma {:induction false} LeftOverAll(q: seq<nat>, s: seq<nat>)
    requires forall x :: x in q ==> x in s
    ensures LeftOver(q, s) == []
  {
    if q != [] {
      assert q[0] in q;
      LeftOverAll(q[1..], s);
    }
  }
}
