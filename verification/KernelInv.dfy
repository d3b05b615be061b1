/** What every service call keeps: each task is linked into exactly the queue its state
    says, queues are in order, mutexes and their owners agree, and each timeout, alarm and
    cyclic handler that is started has its event pending.

    In the middle of a call one task may be loose (in no queue) and one mutex may be
    loose (its owner not settled). */
module KernelInv {
  import opened Prelude
  import opened EventTime
  import opened Timer
  import opened KernelState
  import opened KernelCalls
  import WaitList

  // ---- shape

  predicate ValidInit(o: ObjInit) {
    match o
    case Mutex(tpri, ceiling) => ceiling.Some? ==> tpri && ceiling.value < TNUM_TPRI
    case Semaphore(_, isemcnt, maxsem) => isemcnt <= maxsem
    case Other(_) => true
  }

  ghost predicate ValidConfig(cfg: Config) {
    && (forall t :: 0 <= t < |cfg.ipriority| ==> cfg.ipriority[t] < TNUM_TPRI)
    && (forall o :: 0 <= o < |cfg.objects| ==> ValidInit(cfg.objects[o]))
    && (forall c :: 0 <= c < |cfg.cyclics| ==>
          0 < cfg.cyclics[c].cyctim <= TMAX_RELTIM && cfg.cyclics[c].cycphs <= TMAX_RELTIM)
  }

  /** Table sizes agree with the configuration. */
  ghost predicate Shape(k: KState) {
    && ValidConfig(k.cfg)
    && |k.tcb| == |k.cfg.ipriority| && |k.obj| == |k.cfg.objects| && |k.ready| == TNUM_TPRI
    && |k.cycsta| == |k.cfg.cyclics| && |k.almsta| == k.cfg.alarms
    && (k.runtsk.Some? ==> k.runtsk.value < |k.tcb|)
  }

  lemma {:induction false} LowestInRange(cfg: Config, held: seq<nat>, base: nat)
    ensures LowestOf(cfg, held, base) <= base
  {
    if held != [] { LowestInRange(cfg, held[1..], base); }
  }

  lemma {:induction false} RemoveIn(s: seq<nat>, t: nat)
    ensures forall x :: x in Remove(s, t) ==> x in s
  {
    if s != [] { RemoveIn(s[1..], t); }
  }

  // ---- links

  ghost predicate InReady(k: KState, p: nat, t: nat, lt: set<nat>)
    requires t < |k.tcb|
  {
    k.tcb[t].tstat.Runnable? && Pri(k, t) == p && t !in lt
  }

  ghost predicate ReadyLinked(k: KState, p: nat, lt: set<nat>)
    requires p < |k.ready|
  {
    && NoDup(k.ready[p])
    && forall t :: t in k.ready[p] ==> t < |k.tcb| && InReady(k, p, t, lt)
  }

  ghost predicate WaitsFor(k: KState, t: nat, o: nat)
    requires t < |k.tcb|
  {
    k.tcb[t].tstat.Waiting? && k.tcb[t].tstat.cause == OnObject(o)
  }

  ghost predicate InWait(k: KState, o: nat, t: nat, lt: set<nat>)
    requires t < |k.tcb|
  {
    WaitsFor(k, t, o) && t !in lt && CeilingAllows(k.cfg, o, k.tcb[t].bpriority)
  }

  ghost predicate SortedByPri(k: KState, s: seq<nat>) {
    forall i, j :: 0 <= i < j < |s| ==> Pri(k, s[i]) <= Pri(k, s[j])
  }

  /** A mutex with waiters has an owner, which holds it and is not itself waiting for it;
      a semaphore with waiters is exhausted. */
  ghost predicate OwnerOk(k: KState, o: nat)
    requires o < |k.obj| && o < |k.cfg.objects|
  {
    var b := k.obj[o];
    match k.cfg.objects[o]
    case Mutex(_, _) =>
      && (b.waitQueue != [] ==> b.loctsk.Some?)
      && (b.loctsk.Some? ==> b.loctsk.value < |k.tcb| && o in k.tcb[b.loctsk.value].held
                             && b.loctsk.value !in b.waitQueue)
    case Semaphore(_, _, maxsem) =>
      b.loctsk.None? && b.semcnt <= maxsem && (b.waitQueue != [] ==> b.semcnt == 0)
    case Other(_) => b.loctsk.None?
  }

  ghost predicate ObjLinked(k: KState, o: nat, lt: set<nat>, lm: Option<nat>)
    requires o < |k.obj| && o < |k.cfg.objects|
  {
    && NoDup(k.obj[o].waitQueue)
    && (forall t :: t in k.obj[o].waitQueue ==> t < |k.tcb| && InWait(k, o, t, lt))
    && (IsTpri(k.cfg, o) ==> SortedByPri(k, k.obj[o].waitQueue))
    && (lm != Some(o) ==> OwnerOk(k, o))
  }

  ghost predicate HeldOk(k: KState, t: nat, m: nat)
    requires t < |k.tcb|
  {
    m < |k.obj| && IsMutex(k.cfg, m) && k.obj[m].loctsk == Some(t) && CeilingAllows(k.cfg, m, k.tcb[t].bpriority)
  }

  predicate IsTimed(b: TCB) { b.tstat.Waiting? && b.winfo == Tmevtb(true) }

  /** The task is in the queue its state says, and its timeout is registered exactly if its
      WINFO says so; while it waits its WINFO holds no result code. */
  ghost predicate Attached(k: KState, t: nat)
    requires t < |k.tcb|
  {
    && (TaskTimeout(t) in k.tm.pending <==> IsTimed(k.tcb[t]))
    && (match k.tcb[t].tstat
        case Dormant => k.tcb[t].held == [] && k.tcb[t].bpriority == Ipriority(k, t) && !k.tcb[t].wupque
        case Runnable => t in ReadyOf(k, Pri(k, t))
        case Suspended => true
        case Waiting(cause, _) =>
          && k.tcb[t].winfo.Tmevtb?
          && (cause.Delay? ==> k.tcb[t].winfo == Tmevtb(true))
          && (cause.OnObject? ==> cause.obj < |k.obj| && t in k.obj[cause.obj].waitQueue))
  }

  ghost predicate TaskLinked(k: KState, t: nat, lt: set<nat>, lm: Option<nat>)
    requires t < |k.tcb|
  {
    && k.tcb[t].bpriority < TNUM_TPRI
    && NoDup(k.tcb[t].held)
    && (forall m :: m in k.tcb[t].held ==> HeldOk(k, t, m) && lm != Some(m))
    && (t !in lt ==> Attached(k, t))
    && (TaskTimeout(t) in k.tm.pending ==> IsTimed(k.tcb[t]))
  }

  /** Started handlers, and no others, have their event pending. */
  ghost predicate HandlersLinked(k: KState) {
    && TimerOk(k.tm)
    && (forall e :: e in k.tm.pending ==> KnownEvent(k, e))
    && (forall c :: 0 <= c < |k.cycsta| ==> (CyclicEvent(c) in k.tm.pending <==> k.cycsta[c]))
    && (forall a :: 0 <= a < |k.almsta| ==> (AlarmEvent(a) in k.tm.pending <==> k.almsta[a]))
  }

  ghost predicate Links(k: KState, lt: set<nat>, lm: Option<nat>) {
    && Shape(k)
    && HandlersLinked(k)
    && (forall p :: 0 <= p < TNUM_TPRI ==> ReadyLinked(k, p, lt))
    && (forall o :: 0 <= o < |k.obj| ==> ObjLinked(k, o, lt, lm))
    && (forall t :: 0 <= t < |k.tcb| ==> TaskLinked(k, t, lt, lm))
  }

  /** The running task can run; it is the one of highest precedence whenever dispatching is
      enabled and nothing has been asked of the interrupt exit. */
  ghost predicate Dispatched(k: KState)
    requires Shape(k)
  {
    && (k.runtsk.Some? ==> k.tcb[k.runtsk.value].tstat.Runnable?)
    && (k.runtsk.None? ==> Dspflg(k))
    && (k.reqflg ==> k.inInt)
    && (k.tm.ticking ==> k.inInt)
    && (Dspflg(k) && k.runtsk != Top(k.ready) ==> k.reqflg)
  }

  ghost predicate System(k: KState) {
    Links(k, {}, None) && Dispatched(k)
  }

  lemma PriInRange(k: KState, t: nat, lt: set<nat>, lm: Option<nat>)
    requires t < |k.tcb| && TaskLinked(k, t, lt, lm)
    ensures Pri(k, t) < TNUM_TPRI
  {
    LowestInRange(k.cfg, k.tcb[t].held, k.tcb[t].bpriority);
  }

  // ---- what an operation leaves alone

  /** Task `x` has the same record and is not the loose task. */
  ghost predicate SameTask(k: KState, k': KState, x: nat, lt': set<nat>) {
    x < |k.tcb| && x < |k'.tcb| && k'.tcb[x] == k.tcb[x] && x !in lt'
  }

  ghost predicate SameTables(k: KState, k': KState) {
    Shape(k) && Shape(k') && k'.cfg == k.cfg
  }

  lemma FrameReady(k: KState, k': KState, lt: set<nat>, lt': set<nat>)
    requires SameTables(k, k') && k'.ready == k.ready
    requires forall x :: 0 <= x < |k.tcb| && k.tcb[x].tstat.Runnable? && x !in lt ==> SameTask(k, k', x, lt')
    requires forall p :: 0 <= p < TNUM_TPRI ==> ReadyLinked(k, p, lt)
    ensures forall p :: 0 <= p < TNUM_TPRI ==> ReadyLinked(k', p, lt')
  {
    forall p | 0 <= p < TNUM_TPRI ensures ReadyLinked(k', p, lt') {
      assert ReadyLinked(k, p, lt);
      forall x | x in k'.ready[p] ensures x < |k'.tcb| && InReady(k', p, x, lt') {
        assert InReady(k, p, x, lt);
      }
    }
  }

  lemma FrameObj(k: KState, k': KState, o: nat, lt: set<nat>, lt': set<nat>, lm: Option<nat>)
    requires SameTables(k, k') && o < |k.obj| && k'.obj[o] == k.obj[o]
    requires forall x :: 0 <= x < |k.tcb| && WaitsFor(k, x, o) && x !in lt ==> SameTask(k, k', x, lt')
    requires forall x :: 0 <= x < |k.tcb| ==> k'.tcb[x].held == k.tcb[x].held
    requires ObjLinked(k, o, lt, lm)
    ensures ObjLinked(k', o, lt', lm)
  {
    forall x | x in k'.obj[o].waitQueue
      ensures x < |k'.tcb| && InWait(k', o, x, lt') && Pri(k, x) == Pri(k', x)
    {
      assert InWait(k, o, x, lt);
    }
  }

  /** Queues of `k'` contain at least what those of `k` contain of task `x`. */
  ghost predicate StillQueued(k: KState, k': KState, x: nat)
    requires SameTables(k, k')
  {
    && (forall p :: 0 <= p < TNUM_TPRI && x in k.ready[p] ==> x in k'.ready[p])
    && (forall o :: 0 <= o < |k.obj| && x in k.obj[o].waitQueue ==> x in k'.obj[o].waitQueue)
  }

  lemma FrameTask(k: KState, k': KState, x: nat, lt: set<nat>, lt': set<nat>, lm: Option<nat>)
    requires SameTables(k, k') && x < |k.tcb| && k'.tcb[x] == k.tcb[x]
    requires forall m :: 0 <= m < |k.obj| ==> k'.obj[m].loctsk == k.obj[m].loctsk
    requires TaskTimeout(x) in k'.tm.pending <==> TaskTimeout(x) in k.tm.pending
    requires TaskLinked(k, x, lt, lm)
    requires x in lt' || Attached(k', x) || (x !in lt && StillQueued(k, k', x))
    ensures TaskLinked(k', x, lt', lm)
  {
    forall m | m in k'.tcb[x].held ensures HeldOk(k', x, m) && lm != Some(m) {
      assert HeldOk(k, x, m);
    }
  }

  // ---- taking a task out of its queue

  lemma DetachReady(k: KState, t: nat, lt: set<nat>, lm: Option<nat>)
    requires Links(k, lt, lm) && t !in lt && t < |k.tcb| && k.tcb[t].tstat.Runnable?
    ensures Links(MakeNonRunnable(k, t), lt + {t}, lm)
  {
    var k' := MakeNonRunnable(k, t);
    var q := Pri(k, t);
    PriInRange(k, t, lt, lm);
    assert ReadyLinked(k, q, lt);
    RemoveNoDup(k.ready[q], t);
    forall p | 0 <= p < TNUM_TPRI ensures ReadyLinked(k', p, lt + {t}) {
      assert ReadyLinked(k, p, lt);
      forall x | x in k'.ready[p] ensures x < |k'.tcb| && InReady(k', p, x, lt + {t}) {
        assert x in k.ready[p];
        assert InReady(k, p, x, lt);
      }
    }
    forall o | 0 <= o < |k'.obj| ensures ObjLinked(k', o, lt + {t}, lm) {
      FrameObj(k, k', o, lt, lt + {t}, lm);
    }
    forall x | 0 <= x < |k'.tcb| ensures TaskLinked(k', x, lt + {t}, lm) {
      FrameTask(k, k', x, lt, lt + {t}, lm);
    }
  }

  lemma {:induction false} RemoveKeepsSorted(k: KState, s: seq<nat>, t: nat)
    requires SortedByPri(k, s)
    ensures SortedByPri(k, Remove(s, t))
  {
    if s != [] && s[0] != t {
      RemoveKeepsSorted(k, s[1..], t);
      var r := Remove(s[1..], t);
      RemoveIn(s[1..], t);
      forall i, j | 0 <= i < j < |[s[0]] + r| ensures Pri(k, ([s[0]] + r)[i]) <= Pri(k, ([s[0]] + r)[j]) {
        if i == 0 {
          assert r[j - 1] in s[1..];
        }
      }
    }
  }

  lemma LeaveQueueMembers(k: KState, t: nat, o: nat, lt: set<nat>, lm: Option<nat>)
    requires Shape(k) && t < |k.tcb| && o < |k.obj| && ObjLinked(k, o, lt, lm)
    ensures var q := k.obj[o].waitQueue;
            && NoDup(Remove(q, t))
            && (forall x :: x in Remove(q, t) <==> x in q && x != t)
            && (IsTpri(k.cfg, o) ==> SortedByPri(k, Remove(q, t)))
  {
    RemoveNoDup(k.obj[o].waitQueue, t);
    if IsTpri(k.cfg, o) { RemoveKeepsSorted(k, k.obj[o].waitQueue, t); }
  }

  lemma LeaveQueueObj(k: KState, t: nat, o: nat, lt: set<nat>, lm: Option<nat>)
    requires Shape(k) && t < |k.tcb| && o < |k.obj| && WaitsFor(k, t, o) && ObjLinked(k, o, lt, lm)
    ensures ObjLinked(LeaveQueue(k, t), o, lt + {t}, lm)
    ensures forall x :: x != t && x in k.obj[o].waitQueue ==> x in LeaveQueue(k, t).obj[o].waitQueue
  {
    var k' := LeaveQueue(k, t);
    LeaveQueueMembers(k, t, o, lt, lm);
    var q' := Remove(k.obj[o].waitQueue, t);
    assert k'.obj[o] == k.obj[o].(waitQueue := q') && k'.tcb == k.tcb;
    forall x | x in q'
      ensures x < |k'.tcb| && InWait(k', o, x, lt + {t}) && Pri(k, x) == Pri(k', x)
    {
      assert InWait(k, o, x, lt);
    }
    assert lm != Some(o) ==> OwnerOk(k, o);
  }

  lemma LeaveQueueObjs(k: KState, t: nat, lt: set<nat>, lm: Option<nat>)
    requires Links(k, lt, lm) && t !in lt && t < |k.tcb| && k.tcb[t].tstat.Waiting?
    ensures var k' := LeaveQueue(k, t);
            && k' == k.(obj := k'.obj) && Shape(k')
            && (forall o :: 0 <= o < |k.obj| ==> ObjLinked(k', o, lt + {t}, lm))
            && (forall o :: 0 <= o < |k.obj| ==> k'.obj[o].loctsk == k.obj[o].loctsk)
            && (forall x :: 0 <= x < |k.tcb| && x != t ==> StillQueued(k, k', x))
  {
    var k' := LeaveQueue(k, t);
    forall o | 0 <= o < |k'.obj|
      ensures ObjLinked(k', o, lt + {t}, lm)
      ensures forall x :: x != t && x in k.obj[o].waitQueue ==> x in k'.obj[o].waitQueue
    {
      if WaitsFor(k, t, o) {
        LeaveQueueObj(k, t, o, lt, lm);
      } else {
        FrameObj(k, k', o, lt, lt + {t}, lm);
      }
    }
  }

  /** A waiting task leaves the queue it waits in; its timeout stays registered. */
  lemma DetachWait(k: KState, t: nat, lt: set<nat>, lm: Option<nat>)
    requires Links(k, lt, lm) && t !in lt && t < |k.tcb| && k.tcb[t].tstat.Waiting?
    ensures Links(LeaveQueue(k, t), lt + {t}, lm)
  {
    LeaveQueueObjs(k, t, lt, lm);
    var k' := LeaveQueue(k, t);
    FrameReady(k, k', lt, lt + {t});
    forall x | 0 <= x < |k'.tcb| ensures TaskLinked(k', x, lt + {t}, lm) {
      FrameTask(k, k', x, lt, lt + {t}, lm);
    }
  }

  /** A task that neither runs nor waits is in no queue to begin with. */
  lemma DetachIdle(k: KState, t: nat, lt: set<nat>, lm: Option<nat>)
    requires Links(k, lt, lm) && t !in lt && t < |k.tcb|
    requires k.tcb[t].tstat.Suspended? || k.tcb[t].tstat.Dormant?
    ensures Links(k, lt + {t}, lm)
  {
    FrameReady(k, k, lt, lt + {t});
    forall o | 0 <= o < |k.obj| ensures ObjLinked(k, o, lt + {t}, lm) {
      FrameObj(k, k, o, lt, lt + {t}, lm);
    }
    forall x | 0 <= x < |k.tcb| ensures TaskLinked(k, x, lt + {t}, lm) {
      FrameTask(k, k, x, lt, lt + {t}, lm);
    }
  }

  // ---- changing a task that is in no queue

  /** The record of a loose task may change freely, apart from the mutexes it holds. */
  lemma ChangeLoose(k: KState, t: nat, b: TCB, lt: set<nat>, lm: Option<nat>)
    requires Links(k, lt, lm) && t in lt && t < |k.tcb|
    requires b.bpriority < TNUM_TPRI && b.held == k.tcb[t].held
    requires forall m :: m in b.held ==> CeilingAllows(k.cfg, m, b.bpriority)
    requires TaskTimeout(t) in k.tm.pending ==> IsTimed(b)
    ensures Links(SetTcb(k, t, b), lt, lm)
  {
    assert TaskLinked(k, t, lt, lm);
    var k' := SetTcb(k, t, b);
    FrameReady(k, k', lt, lt);
    forall o | 0 <= o < |k'.obj| ensures ObjLinked(k', o, lt, lm) {
      FrameObj(k, k', o, lt, lt, lm);
    }
    forall x | 0 <= x < |k'.tcb| ensures TaskLinked(k', x, lt, lm) {
      if x != t {
        FrameTask(k, k', x, lt, lt, lm);
      } else {
        forall m | m in b.held ensures HeldOk(k', t, m) && lm != Some(m) {
          assert HeldOk(k, t, m);
        }
      }
    }
  }

  /** The timeout of a loose task may be started or stopped. */
  lemma ChangeTimer(k: KState, t: nat, tm: TimerState, lt: set<nat>, lm: Option<nat>)
    requires Links(k, lt, lm) && t in lt && t < |k.tcb| && TimerOk(tm)
    requires forall e :: e != TaskTimeout(t) ==> (e in tm.pending <==> e in k.tm.pending)
    requires TaskTimeout(t) in tm.pending ==> IsTimed(k.tcb[t])
    ensures Links(WithTimer(k, tm), lt, lm)
  {
    var k' := WithTimer(k, tm);
    FrameReady(k, k', lt, lt);
    forall o | 0 <= o < |k'.obj| ensures ObjLinked(k', o, lt, lm) {
      FrameObj(k, k', o, lt, lt, lm);
    }
    forall x | 0 <= x < |k'.tcb| ensures TaskLinked(k', x, lt, lm) {
      assert TaskLinked(k, x, lt, lm);
      if x != t {
        FrameTask(k, k', x, lt, lt, lm);
      } else {
        forall m | m in k.tcb[t].held ensures HeldOk(k', t, m) && lm != Some(m) {
          assert HeldOk(k, t, m);
        }
      }
    }
  }

  // ---- putting a loose task where its state says

  lemma JoinReady(k: KState, t: nat, q: seq<nat>, q': seq<nat>, lt: set<nat>)
    requires Shape(k) && t < |k.tcb| && k.tcb[t].tstat.Runnable?
    requires Pri(k, t) < TNUM_TPRI && q == k.ready[Pri(k, t)] && ReadyLinked(k, Pri(k, t), lt + {t})
    requires q' == [t] + q || q' == q + [t]
    ensures NoDup(q')
    ensures forall x :: x in q' <==> x in q || x == t
  {
    assert !InReady(k, Pri(k, t), t, lt + {t});
    NoDupAppend(q, t);
  }

  /** Into the ready queue of its priority, at either end. */
  lemma AttachReady(k: KState, t: nat, q': seq<nat>, lt: set<nat>, lm: Option<nat>)
    requires Links(k, lt + {t}, lm) && t !in lt && t < |k.tcb| && k.tcb[t].tstat.Runnable? && Pri(k, t) < TNUM_TPRI
    requires TaskTimeout(t) !in k.tm.pending
    requires q' == [t] + k.ready[Pri(k, t)] || q' == k.ready[Pri(k, t)] + [t]
    ensures Links(SetReady(k, Pri(k, t), q'), lt, lm)
  {
    var pr := Pri(k, t);
    assert ReadyLinked(k, pr, lt + {t});
    JoinReady(k, t, k.ready[pr], q', lt);
    var k' := SetReady(k, pr, q');
    forall p | 0 <= p < TNUM_TPRI ensures ReadyLinked(k', p, lt) {
      assert ReadyLinked(k, p, lt + {t});
      forall x | x in k'.ready[p] ensures x < |k'.tcb| && InReady(k', p, x, lt) {
        if x in k.ready[p] { assert InReady(k, p, x, lt + {t}); }
      }
    }
    forall o | 0 <= o < |k'.obj| ensures ObjLinked(k', o, lt, lm) {
      FrameObj(k, k', o, lt + {t}, lt, lm);
    }
    forall x | 0 <= x < |k'.tcb| ensures TaskLinked(k', x, lt, lm) {
      FrameTask(k, k', x, lt + {t}, lt, lm);
    }
  }

  /** Into no queue, for a task that is suspended, dormant, or waits for no object. */
  lemma AttachIdle(k: KState, t: nat, lt: set<nat>, lm: Option<nat>)
    requires Links(k, lt + {t}, lm) && t !in lt && t < |k.tcb| && Attached(k, t)
    requires !k.tcb[t].tstat.Runnable? && !(k.tcb[t].tstat.Waiting? && k.tcb[t].tstat.cause.OnObject?)
    ensures Links(k, lt, lm)
  {
    FrameReady(k, k, lt + {t}, lt);
    forall o | 0 <= o < |k.obj| ensures ObjLinked(k, o, lt, lm) {
      FrameObj(k, k, o, lt + {t}, lt, lm);
    }
    forall x | 0 <= x < |k.tcb| ensures TaskLinked(k, x, lt, lm) {
      FrameTask(k, k, x, lt + {t}, lt, lm);
    }
  }

  /** A new arrival goes behind its equals and before everyone of lower priority. */
  lemma {:induction false} InsertPosition(p: seq<nat>, s: seq<nat>, t: nat) returns (i: nat)
    requires t < |p|
    requires forall i :: 0 <= i < |s| ==> s[i] < |p|
    ensures i <= |s| && InsertTpri(p, s, t) == s[..i] + [t] + s[i..]
    ensures forall j :: 0 <= j < i ==> p[s[j]] <= p[t]
    ensures i < |s| ==> p[t] < p[s[i]]
  {
    if s == [] || p[t] < p[s[0]] {
      i := 0;
    } else {
      var i1 := InsertPosition(p, s[1..], t);
      i := i1 + 1;
      assert s[..i] == [s[0]] + s[1..][..i1];
      assert s[i..] == s[1..][i1..];
      forall j | 0 <= j < i ensures p[s[j]] <= p[t] {
        if j > 0 { assert s[j] == s[1..][j - 1]; }
      }
    }
  }

  lemma InsertKeepsSorted(k: KState, s: seq<nat>, t: nat)
    requires t < |k.tcb| && (forall i :: 0 <= i < |s| ==> s[i] < |k.tcb|) && SortedByPri(k, s)
    ensures SortedByPri(k, InsertTpri(Pris(k), s, t))
  {
    var i := InsertPosition(Pris(k), s, t);
    var r := InsertTpri(Pris(k), s, t);
    forall a, b | 0 <= a < b < |r| ensures Pri(k, r[a]) <= Pri(k, r[b]) {
      assert r[a] == if a < i then s[a] else if a == i then t else s[a - 1];
      assert r[b] == if b < i then s[b] else if b == i then t else s[b - 1];
      if i < |s| && b > i {
        assert Pri(k, s[i]) <= Pri(k, s[b - 1]);
      }
    }
  }

  /** What the queue of an object needs before task `t` may join it. */
  ghost predicate MayWait(k: KState, t: nat, o: nat)
    requires Shape(k) && t < |k.tcb| && o < |k.obj|
  {
    && CeilingAllows(k.cfg, o, k.tcb[t].bpriority)
    && (match k.cfg.objects[o]
        case Mutex(_, _) => k.obj[o].loctsk.Some? && k.obj[o].loctsk != Some(t)
        case Semaphore(_, _, _) => k.obj[o].semcnt == 0
        case Other(_) => true)
  }

  lemma JoinQueueObj(k: KState, t: nat, o: nat, lt: set<nat>, lm: Option<nat>)
    requires Links(k, lt + {t}, lm) && t !in lt && t < |k.tcb| && o < |k.obj| && WaitsFor(k, t, o)
    requires MayWait(k, t, o) && lm != Some(o)
    ensures ObjLinked(JoinQueue(k, t, o), o, lt, lm)
    ensures forall x :: x in JoinQueue(k, t, o).obj[o].waitQueue <==> x in k.obj[o].waitQueue || x == t
  {
    var k' := JoinQueue(k, t, o);
    var q, q' := k.obj[o].waitQueue, k'.obj[o].waitQueue;
    assert ObjLinked(k, o, lt + {t}, lm);
    assert !InWait(k, o, t, lt + {t});
    WaitList.InsertMembers(Pris(k), q, t);
    NoDupAppend(q, t);
    if IsTpri(k.cfg, o) {
      assert forall i :: 0 <= i < |q| ==> q[i] in q;
      InsertKeepsSorted(k, q, t);
    }
    assert forall x :: x in q' <==> x in q || x == t;
    assert forall x :: Pri(k, x) == Pri(k', x);
    forall x | x in q' ensures x < |k'.tcb| && InWait(k', o, x, lt) {
      if x in q { assert InWait(k, o, x, lt + {t}); }
    }
  }

  /** Into the queue of the object it waits for. */
  lemma AttachWait(k: KState, t: nat, o: nat, lt: set<nat>, lm: Option<nat>)
    requires Links(k, lt + {t}, lm) && t !in lt && t < |k.tcb| && o < |k.obj| && WaitsFor(k, t, o)
    requires k.tcb[t].winfo.Tmevtb? && (TaskTimeout(t) in k.tm.pending <==> IsTimed(k.tcb[t]))
    requires MayWait(k, t, o) && lm != Some(o)
    ensures Links(JoinQueue(k, t, o), lt, lm)
  {
    var k' := JoinQueue(k, t, o);
    JoinQueueObj(k, t, o, lt, lm);
    FrameReady(k, k', lt + {t}, lt);
    forall u | 0 <= u < |k'.obj| ensures ObjLinked(k', u, lt, lm) {
      if u != o { FrameObj(k, k', u, lt + {t}, lt, lm); }
    }
    forall x | 0 <= x < |k'.tcb| ensures TaskLinked(k', x, lt, lm) {
      FrameTask(k, k', x, lt + {t}, lt, lm);
    }
  }

  // ---- mutexes changing hands

  /** The waiters of `o` are still in place, in the same order. */
  ghost predicate WaitersKept(k: KState, k': KState, o: nat, lt: set<nat>)
    requires SameTables(k, k') && o < |k.obj|
  {
    forall x :: x in k.obj[o].waitQueue ==>
      x < |k.tcb| && InWait(k', o, x, lt) && (IsTpri(k.cfg, o) ==> Pri(k', x) == Pri(k, x))
  }

  /** No queue that `t` is in depends on its priority. */
  predicate Unordered(k: KState, t: nat)
    requires t < |k.tcb|
  {
    match k.tcb[t].tstat
    case Runnable => false
    case Waiting(OnObject(o), _) => !IsTpri(k.cfg, o)
    case _ => true
  }

  /** Task `t` may get the held mutexes and the base priority of `b` where it is. */
  ghost predicate InPlace(k: KState, t: nat, b: TCB, lt: set<nat>)
    requires t < |k.tcb|
  {
    && b == k.tcb[t].(held := b.held, bpriority := b.bpriority)
    && b.bpriority < TNUM_TPRI
    && (t in lt || PriOf(k.cfg, b) == Pri(k, t) || Unordered(k, t))
    && (t in lt || match b.tstat
                   case Waiting(OnObject(o), _) => CeilingAllows(k.cfg, o, b.bpriority)
                   case _ => true)
  }

  lemma SamePlace(k: KState, t: nat, b: TCB, lt: set<nat>, lm: Option<nat>)
    requires Links(k, lt, lm) && t < |k.tcb| && InPlace(k, t, b, lt)
    ensures forall p :: 0 <= p < TNUM_TPRI ==> ReadyLinked(SetTcb(k, t, b), p, lt)
    ensures forall o :: 0 <= o < |k.obj| ==> WaitersKept(k, SetTcb(k, t, b), o, lt)
  {
    var k' := SetTcb(k, t, b);
    forall p | 0 <= p < TNUM_TPRI ensures ReadyLinked(k', p, lt) {
      assert ReadyLinked(k, p, lt);
      forall x | x in k'.ready[p] ensures x < |k'.tcb| && InReady(k', p, x, lt) {
        assert InReady(k, p, x, lt);
      }
    }
    forall o | 0 <= o < |k.obj| ensures WaitersKept(k, k', o, lt) {
      assert ObjLinked(k, o, lt, lm);
      forall x | x in k.obj[o].waitQueue
        ensures x < |k.tcb| && InWait(k', o, x, lt) && (IsTpri(k.cfg, o) ==> Pri(k', x) == Pri(k, x))
      {
        assert InWait(k, o, x, lt);
      }
    }
  }

  /** A mutex taken out of a task's mutex queue has no settled owner for a moment. */
  lemma LetGo(k: KState, t: nat, m: nat, lt: set<nat>)
    requires Links(k, lt, None) && t < |k.tcb| && m in k.tcb[t].held
    requires t in lt || Pri(Unhold(k, t, m), t) == Pri(k, t) || Unordered(k, t)
    ensures Links(Unhold(k, t, m), lt, Some(m))
  {
    var k' := Unhold(k, t, m);
    assert TaskLinked(k, t, lt, None);
    RemoveNoDup(k.tcb[t].held, m);
    if t !in lt { WaitAllows(k, t, lt, None); }
    SamePlace(k, t, k'.tcb[t], lt, None);
    forall o | 0 <= o < |k'.obj| ensures ObjLinked(k', o, lt, Some(m)) {
      assert ObjLinked(k, o, lt, None) && WaitersKept(k, k', o, lt);
    }
    forall x | 0 <= x < |k'.tcb| ensures TaskLinked(k', x, lt, Some(m)) {
      assert TaskLinked(k, x, lt, None);
      forall h | h in k'.tcb[x].held ensures HeldOk(k', x, h) && Some(m) != Some(h) {
        assert HeldOk(k, x, h) && HeldOk(k, t, m);
      }
      if x !in lt { assert Attached(k, x); }
    }
  }

  lemma WaitAllows(k: KState, t: nat, lt: set<nat>, lm: Option<nat>)
    requires Links(k, lt, lm) && t < |k.tcb| && t !in lt
    ensures match k.tcb[t].tstat
            case Waiting(OnObject(o), _) => CeilingAllows(k.cfg, o, k.tcb[t].bpriority)
            case _ => true
  {
    assert TaskLinked(k, t, lt, lm) && Attached(k, t);
    match k.tcb[t].tstat
    case Waiting(OnObject(o), _) =>
      assert ObjLinked(k, o, lt, lm);
      assert InWait(k, o, t, lt);
    case _ =>
  }

  /** The base priority of a task may change within its ceilings. */
  lemma ChangeBase(k: KState, t: nat, base: nat, lt: set<nat>)
    requires Links(k, lt, None) && t < |k.tcb| && base < TNUM_TPRI && !k.tcb[t].tstat.Dormant?
    requires CeilingsAllow(k, t, base)
    requires t in lt || PriOf(k.cfg, k.tcb[t].(bpriority := base)) == Pri(k, t) || Unordered(k, t)
    ensures Links(SetTcb(k, t, k.tcb[t].(bpriority := base)), lt, None)
  {
    assert TaskLinked(k, t, lt, None);
    var b := k.tcb[t].(bpriority := base);
    var k' := SetTcb(k, t, b);
    SamePlace(k, t, b, lt, None);
    forall o | 0 <= o < |k'.obj| ensures ObjLinked(k', o, lt, None) {
      assert ObjLinked(k, o, lt, None) && WaitersKept(k, k', o, lt);
    }
    forall x | 0 <= x < |k'.tcb| ensures TaskLinked(k', x, lt, None) {
      assert TaskLinked(k, x, lt, None);
      forall h | h in k'.tcb[x].held ensures HeldOk(k', x, h) {
        assert HeldOk(k, x, h);
      }
      if x !in lt { assert Attached(k, x); }
    }
  }

  /** A mutex may be considered without a settled owner as long as nobody holds it. */
  lemma Unsettle(k: KState, lt: set<nat>, m: nat)
    requires Links(k, lt, None) && m < |k.obj| && k.obj[m].loctsk.None?
    ensures Links(k, lt, Some(m))
  {
    forall o | 0 <= o < |k.obj| ensures ObjLinked(k, o, lt, Some(m)) {
      assert ObjLinked(k, o, lt, None);
    }
    forall x | 0 <= x < |k.tcb| ensures TaskLinked(k, x, lt, Some(m)) {
      assert TaskLinked(k, x, lt, None);
      forall h | h in k.tcb[x].held ensures HeldOk(k, x, h) && Some(m) != Some(h) {
        assert HeldOk(k, x, h);
      }
    }
  }

  /** The owner and the waiting queue of a mutex without a settled owner may change: the
      queue may lose its first task. */
  lemma ChangeOwner(k: KState, lt: set<nat>, m: nat, owner: Option<nat>)
    requires Links(k, lt, Some(m)) && m < |k.obj| && (owner.Some? ==> owner.value < |k.tcb|)
    ensures Links(SetOwner(k, m, owner), lt, Some(m))
  {
    var k' := SetOwner(k, m, owner);
    FrameReady(k, k', lt, lt);
    forall o | 0 <= o < |k'.obj| ensures ObjLinked(k', o, lt, Some(m)) {
      assert ObjLinked(k, o, lt, Some(m));
      forall x | x in k'.obj[o].waitQueue
        ensures x < |k'.tcb| && InWait(k', o, x, lt) && Pri(k, x) == Pri(k', x)
      {
        assert InWait(k, o, x, lt);
      }
    }
    forall x | 0 <= x < |k'.tcb| ensures TaskLinked(k', x, lt, Some(m)) {
      assert TaskLinked(k, x, lt, Some(m));
      forall h | h in k'.tcb[x].held ensures HeldOk(k', x, h) && Some(m) != Some(h) {
        assert HeldOk(k, x, h);
      }
      if x !in lt { assert Attached(k, x); }
    }
  }

  /** Free, and nobody waits for it: settled. */
  lemma SettleFree(k: KState, lt: set<nat>, m: nat)
    requires Links(k, lt, Some(m)) && m < |k.obj| && IsMutex(k.cfg, m)
    requires k.obj[m].loctsk.None? && k.obj[m].waitQueue == []
    ensures Links(k, lt, None)
  {
    forall o | 0 <= o < |k.obj| ensures ObjLinked(k, o, lt, None) {
      assert ObjLinked(k, o, lt, Some(m));
    }
    forall x | 0 <= x < |k.tcb| ensures TaskLinked(k, x, lt, None) {
      assert TaskLinked(k, x, lt, Some(m));
    }
  }

  /** Put into the mutex queue of the task that owns it: settled. */
  lemma SettleHeld(k: KState, t: nat, m: nat, held: seq<nat>, lt: set<nat>)
    requires Links(k, lt, Some(m)) && t < |k.tcb| && m < |k.obj| && IsMutex(k.cfg, m)
    requires k.obj[m].loctsk == Some(t) && t !in k.obj[m].waitQueue
    requires CeilingAllows(k.cfg, m, k.tcb[t].bpriority)
    requires held == [m] + k.tcb[t].held || held == k.tcb[t].held + [m]
    requires t in lt || (!k.tcb[t].tstat.Dormant? && (PriOf(k.cfg, k.tcb[t].(held := held)) == Pri(k, t) || Unordered(k, t)))
    ensures Links(SetHeld(k, t, held), lt, None)
  {
    assert TaskLinked(k, t, lt, Some(m));
    var k' := SetHeld(k, t, held);
    assert forall h :: h in held <==> h in k.tcb[t].held || h == m;
    NoDupAppend(k.tcb[t].held, m);
    if t !in lt { WaitAllows(k, t, lt, Some(m)); }
    SamePlace(k, t, k'.tcb[t], lt, Some(m));
    forall o | 0 <= o < |k'.obj| ensures ObjLinked(k', o, lt, None) {
      assert ObjLinked(k, o, lt, Some(m)) && WaitersKept(k, k', o, lt);
    }
    forall x | 0 <= x < |k'.tcb| ensures TaskLinked(k', x, lt, None) {
      assert TaskLinked(k, x, lt, Some(m));
      forall h | h in k'.tcb[x].held ensures HeldOk(k', x, h) {
        if h != m { assert HeldOk(k, x, h); }
      }
      if x !in lt { assert Attached(k, x); }
    }
  }
}
