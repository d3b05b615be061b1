/** Priorities changing and mutexes changing hands keep every link. */
module KernelPriority {
  import opened Prelude
  import opened Timer
  import opened KernelState
  import opened KernelCalls
  import opened KernelInv
  import opened KernelSteps

  // ---- the priority control rule

  lemma {:induction false} LowestAppend(cfg: Config, held: seq<nat>, m: nat, base: nat)
    ensures LowestOf(cfg, held + [m], base) == LowestOf(cfg, [m] + held, base)
  {
    assert ([m] + held)[1..] == held;
    if held == [] {
      assert held + [m] == [m] + held;
    } else {
      LowestAppend(cfg, held[1..], m, base);
      assert ([m] + held[1..])[1..] == held[1..];
      assert (held + [m])[1..] == held[1..] + [m];
    }
  }

  /** Giving up a mutex whose ceiling is not the current priority changes nothing. */
  lemma {:induction false} LowestRemove(cfg: Config, held: seq<nat>, m: nat, base: nat)
    requires m in held
    ensures LowestOf(cfg, held, base) ==
            (match CeilingOf(cfg, m)
             case Some(c) => Min(c, LowestOf(cfg, Remove(held, m), base))
             case None => LowestOf(cfg, Remove(held, m), base))
  {
    if held[0] != m {
      assert m in held[1..];
      LowestRemove(cfg, held[1..], m, base);
      var r := Remove(held[1..], m);
      assert ([held[0]] + r)[1..] == r;
    }
  }

  /** The current priority is exactly the highest of the base priority and the ceilings held. */
  lemma {:induction false} LowestIsMinimum(cfg: Config, held: seq<nat>, base: nat)
    ensures LowestOf(cfg, held, base) <= base
    ensures forall m :: m in held && CeilingOf(cfg, m).Some? ==> LowestOf(cfg, held, base) <= CeilingOf(cfg, m).value
    ensures LowestOf(cfg, held, base) == base
            || exists m :: m in held && CeilingOf(cfg, m) == Some(LowestOf(cfg, held, base))
  {
    if held != [] {
      LowestIsMinimum(cfg, held[1..], base);
      assert held == [held[0]] + held[1..];
    }
  }

  lemma {:induction false} LowestIgnoresBase(cfg: Config, held: seq<nat>, base: nat, base': nat)
    requires forall i :: 0 <= i < |held| ==> CeilingAllows(cfg, held[i], base) && CeilingAllows(cfg, held[i], base')
    requires exists i :: 0 <= i < |held| && CeilingOf(cfg, held[i]).Some?
    ensures LowestOf(cfg, held, base) == LowestOf(cfg, held, base')
  {
    LowestIsMinimum(cfg, held, base);
    LowestIsMinimum(cfg, held, base');
    var i :| 0 <= i < |held| && CeilingOf(cfg, held[i]).Some?;
    assert held[i] in held;
    var p, p' := LowestOf(cfg, held, base), LowestOf(cfg, held, base');
    assert CeilingAllows(cfg, held[i], base) && CeilingAllows(cfg, held[i], base');
    assert p <= p' by {
      if p' != base' {
        var m :| m in held && CeilingOf(cfg, m) == Some(p');
      }
    }
    assert p' <= p by {
      if p != base {
        var m :| m in held && CeilingOf(cfg, m) == Some(p);
      }
    }
  }

  // ---- moving a task whose priority has changed

  /** `k` without task `t` in the queue whose order depends on priorities, where it still
      stands at priority `oldpri`. */
  function Pulled(k: KState, t: nat, oldpri: nat): KState {
    if TcbOf(k, t).tstat.Runnable? then SetReady(k, oldpri, Remove(ReadyOf(k, oldpri), t)) else LeaveQueue(k, t)
  }

  lemma PulledOk(k: KState, t: nat, lm: Option<nat>)
    requires Links(k, {}, lm) && t < |k.tcb| && !Unordered(k, t)
    ensures Links(Pulled(k, t, Pri(k, t)), {} + {t}, lm)
  {
    if k.tcb[t].tstat.Runnable? {
      DetachReady(k, t, {}, lm);
    } else {
      DetachWait(k, t, {}, lm);
    }
  }

  /** Putting a pulled task back where its present priority says. */
  lemma RepositionOk(k1: KState, t: nat, oldpri: nat, mtxmode: bool, lm: Option<nat>)
    requires Links(Pulled(k1, t, oldpri), {} + {t}, lm) && t < |k1.tcb| && !Unordered(k1, t)
    requires TaskTimeout(t) in k1.tm.pending <==> IsTimed(k1.tcb[t])
    requires match k1.tcb[t].tstat
             case Waiting(OnObject(o), _) =>
               o < |k1.obj| && o < |k1.cfg.objects| && k1.tcb[t].winfo.Tmevtb? && MayWait(k1, t, o) && lm != Some(o)
             case _ => true
    ensures Links(Reposition(k1, t, oldpri, mtxmode), {}, lm)
  {
    var d := Pulled(k1, t, oldpri);
    assert TaskLinked(d, t, {} + {t}, lm);
    PriInRange(d, t, {} + {t}, lm);
    match k1.tcb[t].tstat
    case Runnable =>
      var q := d.ready[Pri(k1, t)];
      AttachReady(d, t, if mtxmode then [t] + q else q + [t], {}, lm);
    case Waiting(OnObject(o), _) =>
      AttachWait(d, t, o, {}, lm);
    case _ =>
  }

  /** What an attached waiting task knows about the object it waits for. */
  lemma WaiterMayWait(k: KState, t: nat, o: nat)
    requires Links(k, {}, None) && t < |k.tcb| && WaitsFor(k, t, o)
    ensures o < |k.obj| && MayWait(k, t, o) && t in k.obj[o].waitQueue && k.tcb[t].winfo.Tmevtb?
  {
    assert TaskLinked(k, t, {}, None) && Attached(k, t);
    assert ObjLinked(k, o, {}, None);
    assert InWait(k, o, t, {});
  }

  lemma AttachedFacts(k: KState, t: nat, lm: Option<nat>)
    requires Links(k, {}, lm) && t < |k.tcb|
    ensures TaskTimeout(t) in k.tm.pending <==> IsTimed(k.tcb[t])
    ensures k.tcb[t].tstat.Dormant? ==> k.tcb[t].held == []
    ensures Pri(k, t) < TNUM_TPRI
  {
    assert TaskLinked(k, t, {}, lm) && Attached(k, t);
    PriInRange(k, t, {}, lm);
  }

  /** `chg_pri`'s call of `change_priority`: behind the equals. */
  lemma ChangeBaseOk(k: KState, t: nat, base: nat)
    requires Links(k, {}, None) && t < |k.tcb| && base < TNUM_TPRI && !k.tcb[t].tstat.Dormant?
    requires CeilingsAllow(k, t, base)
    ensures Links(Reposition(SetTcb(k, t, k.tcb[t].(bpriority := base)), t, Pri(k, t), false), {}, None)
  {
    var k1 := SetTcb(k, t, k.tcb[t].(bpriority := base));
    if Unordered(k, t) {
      ChangeBase(k, t, base, {});
      assert Reposition(k1, t, Pri(k, t), false) == k1;
    } else {
      ChangeBaseMoves(k, t, base, k1);
    }
  }

  /** Pulling a task does not look at its base priority. */
  lemma PulledBase(k: KState, t: nat, base: nat, oldpri: nat)
    requires t < |k.tcb|
    ensures Pulled(SetTcb(k, t, k.tcb[t].(bpriority := base)), t, oldpri)
         == SetTcb(Pulled(k, t, oldpri), t, k.tcb[t].(bpriority := base))
  {
    assert SetTcb(k, t, k.tcb[t].(bpriority := base)).tcb[t].tstat == k.tcb[t].tstat;
  }

  /** Pulling a task does not look at what it holds, nor at who owns a mutex. */
  lemma PulledHeld(k: KState, t: nat, m: nat, held: seq<nat>, oldpri: nat)
    requires t < |k.tcb| && k.tcb[t].tstat.Runnable?
    ensures Pulled(SetHeld(SetOwner(k, m, Some(t)), t, held), t, oldpri)
         == SetHeld(SetOwner(Pulled(k, t, oldpri), m, Some(t)), t, held)
  {
    assert TcbOf(SetHeld(SetOwner(k, m, Some(t)), t, held), t).tstat.Runnable?;
  }

  lemma ChangeBasePulled(k: KState, t: nat, base: nat, k1: KState)
    requires Links(k, {}, None) && t < |k.tcb| && base < TNUM_TPRI && !Unordered(k, t)
    requires CeilingsAllow(k, t, base) && k1 == SetTcb(k, t, k.tcb[t].(bpriority := base))
    ensures Links(Pulled(k1, t, Pri(k, t)), {} + {t}, None)
  {
    AttachedFacts(k, t, None);
    PulledOk(k, t, None);
    var d := Pulled(k, t, Pri(k, t));
    assert d.tcb == k.tcb && d.cfg == k.cfg;
    ChangeBase(d, t, base, {} + {t});
    PulledBase(k, t, base, Pri(k, t));
  }

  lemma ChangeBaseMoves(k: KState, t: nat, base: nat, k1: KState)
    requires Links(k, {}, None) && t < |k.tcb| && base < TNUM_TPRI && !Unordered(k, t)
    requires CeilingsAllow(k, t, base) && k1 == SetTcb(k, t, k.tcb[t].(bpriority := base))
    ensures Links(Reposition(k1, t, Pri(k, t), false), {}, None)
  {
    AttachedFacts(k, t, None);
    ChangeBasePulled(k, t, base, k1);
    if k.tcb[t].tstat.Waiting? {
      WaiterMayWait(k, t, k.tcb[t].tstat.cause.obj);
    }
    RepositionOk(k1, t, Pri(k, t), false, None);
  }

  /** Giving up a mutex: out of the mutex queue, and to where the remaining ceilings say. */
  lemma DropOk(k: KState, t: nat, m: nat)
    requires Links(k, {}, None) && t < |k.tcb| && m in k.tcb[t].held
    ensures Links(Adjust(Unhold(k, t, m), t, Pri(k, t)), {}, Some(m))
  {
    var k1 := Unhold(k, t, m);
    if Pri(k1, t) == Pri(k, t) || Unordered(k, t) {
      LetGo(k, t, m, {});
      assert Adjust(k1, t, Pri(k, t)) == k1;
    } else {
      DropMoves(k, t, m, k1);
    }
  }

  lemma DropPulled(k: KState, t: nat, m: nat, k1: KState)
    requires Links(k, {}, None) && t < |k.tcb| && m in k.tcb[t].held
    requires k1 == Unhold(k, t, m) && !Unordered(k, t)
    ensures Links(Pulled(k1, t, Pri(k, t)), {} + {t}, Some(m))
  {
    assert HeldOk(k, t, m) by { assert TaskLinked(k, t, {}, None); }
    PulledOk(k, t, None);
    var d := Pulled(k, t, Pri(k, t));
    LetGo(d, t, m, {} + {t});
    assert Pulled(k1, t, Pri(k, t)) == Unhold(d, t, m);
  }

  lemma DropMoves(k: KState, t: nat, m: nat, k1: KState)
    requires Links(k, {}, None) && t < |k.tcb| && m in k.tcb[t].held
    requires k1 == Unhold(k, t, m) && !Unordered(k, t)
    ensures Links(Reposition(k1, t, Pri(k, t), true), {}, Some(m))
  {
    AttachedFacts(k, t, None);
    assert HeldOk(k, t, m) by { assert TaskLinked(k, t, {}, None); }
    DropPulled(k, t, m, k1);
    if k.tcb[t].tstat.Waiting? {
      WaiterMayWait(k, t, k.tcb[t].tstat.cause.obj);
    }
    RepositionOk(k1, t, Pri(k, t), true, Some(m));
  }

  /** Letting go of a mutex nobody waits for and marking it free. */
  lemma LetGoFree(k: KState, t: nat, m: nat, lt: set<nat>)
    requires Links(k, lt, None) && t < |k.tcb| && m in k.tcb[t].held && m < |k.obj| && k.obj[m].waitQueue == []
    requires t in lt || Pri(Unhold(k, t, m), t) == Pri(k, t) || Unordered(k, t)
    ensures Links(SetOwner(Unhold(k, t, m), m, None), lt, None)
  {
    assert HeldOk(k, t, m) by { assert TaskLinked(k, t, lt, None); }
    LetGo(k, t, m, lt);
    ChangeOwner(Unhold(k, t, m), lt, m, None);
    SettleFree(SetOwner(Unhold(k, t, m), m, None), lt, m);
  }

  lemma PulledCommutes(k: KState, t: nat, m: nat, oldpri: nat)
    requires t < |k.tcb| && m < |k.obj| && !WaitsFor(k, t, m)
    ensures Pulled(SetOwner(Unhold(k, t, m), m, None), t, oldpri)
         == SetOwner(Unhold(Pulled(k, t, oldpri), t, m), m, None)
  {
    var k1 := SetOwner(Unhold(k, t, m), m, None);
    assert k1.tcb[t].tstat == k.tcb[t].tstat && k1.ready == k.ready;
    if k.tcb[t].tstat.Waiting? && k.tcb[t].tstat.cause.OnObject? {
      var o := k.tcb[t].tstat.cause.obj;
      assert o != m;
      if o < |k.obj| {
        var b := k.obj[o].(waitQueue := Remove(k.obj[o].waitQueue, t));
        assert k.obj[m := k.obj[m].(loctsk := None)][o := b] == k.obj[o := b][m := k.obj[m].(loctsk := None)];
      }
    }
  }

  /** The same for `ini_mtx`, which leaves the mutex free. */
  lemma DropFreeOk(k: KState, t: nat, m: nat)
    requires Links(k, {}, None) && t < |k.tcb| && m in k.tcb[t].held && m < |k.obj| && k.obj[m].waitQueue == []
    ensures Links(Adjust(SetOwner(Unhold(k, t, m), m, None), t, Pri(k, t)), {}, None)
  {
    var k1 := SetOwner(Unhold(k, t, m), m, None);
    assert Pri(k1, t) == Pri(Unhold(k, t, m), t);
    assert k1.tcb[t].tstat == k.tcb[t].tstat;
    if Pri(k1, t) == Pri(k, t) || Unordered(k, t) {
      LetGoFree(k, t, m, {});
      assert Adjust(k1, t, Pri(k, t)) == k1;
    } else {
      DropFreeMoves(k, t, m, k1);
    }
  }

  lemma DropFreePulled(k: KState, t: nat, m: nat, k1: KState)
    requires Links(k, {}, None) && t < |k.tcb| && m in k.tcb[t].held && m < |k.obj| && k.obj[m].waitQueue == []
    requires k1 == SetOwner(Unhold(k, t, m), m, None) && !Unordered(k, t)
    ensures Links(Pulled(k1, t, Pri(k, t)), {} + {t}, None)
  {
    AttachedFacts(k, t, None);
    PulledOk(k, t, None);
    var d := Pulled(k, t, Pri(k, t));
    assert d.tcb == k.tcb && d.obj[m].waitQueue == [];
    LetGoFree(d, t, m, {} + {t});
    assert !WaitsFor(k, t, m) by {
      assert TaskLinked(k, t, {}, None) && Attached(k, t);
    }
    PulledCommutes(k, t, m, Pri(k, t));
  }

  lemma DropFreeMoves(k: KState, t: nat, m: nat, k1: KState)
    requires Links(k, {}, None) && t < |k.tcb| && m in k.tcb[t].held && m < |k.obj| && k.obj[m].waitQueue == []
    requires k1 == SetOwner(Unhold(k, t, m), m, None) && !Unordered(k, t)
    ensures Links(Reposition(k1, t, Pri(k, t), true), {}, None)
  {
    AttachedFacts(k, t, None);
    DropFreePulled(k, t, m, k1);
    if k.tcb[t].tstat.Waiting? {
      WaiterMayWait(k, t, k.tcb[t].tstat.cause.obj);
    }
    RepositionOk(k1, t, Pri(k, t), true, None);
  }

  /** Locking a free mutex, within the ceiling, for a task that can run. */
  lemma AcquireOk(k: KState, t: nat, m: nat)
    requires Links(k, {}, None) && t < |k.tcb| && k.tcb[t].tstat.Runnable?
    requires m < |k.obj| && IsMutex(k.cfg, m) && k.obj[m].loctsk.None?
    requires CeilingAllows(k.cfg, m, k.tcb[t].bpriority)
    ensures Links(Acquire(k, t, m), {}, None)
  {
    AttachedFacts(k, t, None);
    assert k.obj[m].waitQueue == [] by { assert ObjLinked(k, m, {}, None) && OwnerOk(k, m); }
    Unsettle(k, {}, m);
    var held := [m] + k.tcb[t].held;
    var k1 := SetOwner(k, m, Some(t));
    if Pri(SetHeld(k1, t, held), t) == Pri(k, t) {
      ChangeOwner(k, {}, m, Some(t));
      SettleHeld(k1, t, m, held, {});
    } else {
      AcquireMoves(k, t, m, held);
    }
  }

  lemma AcquirePulled(k: KState, t: nat, m: nat, held: seq<nat>)
    requires Links(k, {}, Some(m)) && t < |k.tcb| && k.tcb[t].tstat.Runnable?
    requires m < |k.obj| && IsMutex(k.cfg, m) && k.obj[m].waitQueue == [] && held == [m] + k.tcb[t].held
    requires CeilingAllows(k.cfg, m, k.tcb[t].bpriority)
    ensures Links(Pulled(SetHeld(SetOwner(k, m, Some(t)), t, held), t, Pri(k, t)), {} + {t}, None)
  {
    PulledOk(k, t, Some(m));
    var d := Pulled(k, t, Pri(k, t));
    ChangeOwner(d, {} + {t}, m, Some(t));
    SettleHeld(SetOwner(d, m, Some(t)), t, m, held, {} + {t});
    PulledHeld(k, t, m, held, Pri(k, t));
  }

  lemma AcquireMoves(k: KState, t: nat, m: nat, held: seq<nat>)
    requires Links(k, {}, Some(m)) && t < |k.tcb| && k.tcb[t].tstat.Runnable?
    requires m < |k.obj| && IsMutex(k.cfg, m) && k.obj[m].waitQueue == [] && held == [m] + k.tcb[t].held
    requires CeilingAllows(k.cfg, m, k.tcb[t].bpriority)
    ensures Links(Reposition(SetHeld(SetOwner(k, m, Some(t)), t, held), t, Pri(k, t), true), {}, None)
  {
    AttachedFacts(k, t, Some(m));
    AcquirePulled(k, t, m, held);
    RepositionOk(SetHeld(SetOwner(k, m, Some(t)), t, held), t, Pri(k, t), true, None);
  }

  // ---- mutexes changing hands

  /** The first waiter is not in the rest of the queue, and its base priority is within
      the ceiling of the mutex. */
  lemma FirstMayOwn(k: KState, m: nat, lt: set<nat>)
    requires Links(k, lt, Some(m)) && m < |k.obj| && k.obj[m].waitQueue != []
    ensures var t := k.obj[m].waitQueue[0];
            && t < |k.tcb| && t !in k.obj[m].waitQueue[1..]
            && CeilingAllows(k.cfg, m, k.tcb[t].bpriority)
            && (TaskTimeout(t) in k.tm.pending <==> IsTimed(k.tcb[t]))
  {
    var t := k.obj[m].waitQueue[0];
    assert ObjLinked(k, m, lt, Some(m));
    NoDupTail(k.obj[m].waitQueue);
    assert t in k.obj[m].waitQueue;
    assert InWait(k, m, t, lt);
    assert TaskLinked(k, t, lt, Some(m)) && Attached(k, t);
  }

  lemma HandOverOk(k: KState, m: nat, lt: set<nat>)
    requires Links(k, lt, Some(m)) && m < |k.obj| && IsMutex(k.cfg, m) && k.obj[m].waitQueue != []
    ensures Links(HandOver(k, m), lt, None)
  {
    var t := k.obj[m].waitQueue[0];
    FirstLeaves(k, m, lt, Some(m));
    FirstMayOwn(k, m, lt);
    DetachWait(k, t, lt, Some(m));
    HandOverRest(LeaveQueue(k, t), t, m, lt);
  }

  /** The mutex goes to a task that has left its queue. */
  lemma HandOverRest(k: KState, t: nat, m: nat, lt: set<nat>)
    requires Links(k, lt + {t}, Some(m)) && t !in lt && m < |k.obj| && IsMutex(k.cfg, m) && t < |k.tcb|
    requires k.tcb[t].tstat.Waiting? && t !in k.obj[m].waitQueue
    requires CeilingAllows(k.cfg, m, k.tcb[t].bpriority)
    requires TaskTimeout(t) in k.tm.pending <==> IsTimed(k.tcb[t])
    ensures var k3 := SetOwner(SetWinfo(DequeueTimeout(k, t), t, Wercd(E_OK)), m, Some(t));
            Links(MakeNonWait(SetHeld(k3, t, TcbOf(k3, t).held + [m]), t), lt, None)
  {
    var lm := Some(m);
    StopTimeoutOk(k, t, lt + {t}, lm);
    var k1 := DequeueTimeout(k, t);
    HeldAllows(k1, t, lt + {t}, lm);
    ChangeLoose(k1, t, k1.tcb[t].(winfo := Wercd(E_OK)), lt + {t}, lm);
    var k2 := SetWinfo(k1, t, Wercd(E_OK));
    ChangeOwner(k2, lt + {t}, m, Some(t));
    var k3 := SetOwner(k2, m, Some(t));
    SettleHeld(k3, t, m, k3.tcb[t].held + [m], lt + {t});
    MakeNonWaitOk(SetHeld(k3, t, k3.tcb[t].held + [m]), t, lt, None);
  }

  /** `mutex_release` settles the mutex again: free, or held by the first waiter. */
  lemma ReleaseOk(k: KState, m: nat, lt: set<nat>)
    requires Links(k, lt, Some(m)) && m < |k.obj| && IsMutex(k.cfg, m)
    ensures Links(Release(k, m), lt, None)
  {
    if k.obj[m].waitQueue == [] {
      ChangeOwner(k, lt, m, None);
      SettleFree(SetOwner(k, m, None), lt, m);
    } else {
      HandOverOk(k, m, lt);
    }
  }

  /** Apart from its queues and its timer, `k'` differs from `k` at most in task `t`. */
  ghost predicate OnlyTask(k: KState, k': KState, t: nat) {
    && k'.cfg == k.cfg && |k'.tcb| == |k.tcb|
    && k'.runtsk == k.runtsk && k'.disdsp == k.disdsp && k'.ipmflg == k.ipmflg
    && k'.reqflg == k.reqflg && k'.inInt == k.inInt && k'.tm.ticking == k.tm.ticking
    && k'.tm.pending.Keys <= k.tm.pending.Keys
    && forall x :: 0 <= x < |k.tcb| && x != t ==> k'.tcb[x] == k.tcb[x]
  }

  /** `k'` is `k` with another record for task `t`, in the same state. */
  ghost predicate SameRun(k: KState, k': KState, t: nat)
    requires t < |k.tcb|
  {
    OnlyTask(k, k', t) && k'.tcb[t].tstat == k.tcb[t].tstat
  }

  lemma GiveEffect(k: KState, m: nat, t: nat, held: seq<nat>)
    requires t < |k.tcb|
    ensures SameRun(k, SetHeld(SetOwner(k, m, Some(t)), t, held), t)
  {
  }

  lemma StopEffect(k: KState, t: nat)
    requires t < |k.tcb|
    ensures SameRun(k, SetWinfo(DequeueTimeout(k, t), t, Wercd(E_OK)), t)
  {
  }

  lemma TakeEffect(k: KState, m: nat, t: nat, q: seq<nat>)
    requires t < |k.tcb|
    ensures SameRun(k, SetWinfo(DequeueTimeout(SetQueue(k, m, q), t), t, Wercd(E_OK)), t)
  {
    StopEffect(SetQueue(k, m, q), t);
    assert OnlyTask(k, SetQueue(k, m, q), t);
  }

  lemma HandOverEffect(k: KState, m: nat)
    requires m < |k.obj| && k.obj[m].waitQueue != [] && k.obj[m].waitQueue[0] < |k.tcb|
    ensures var k', t := HandOver(k, m), k.obj[m].waitQueue[0];
            OnlyTask(k, k', t) && k'.tcb[t].tstat == AfterWait(k.tcb[t].tstat)
  {
    var q := k.obj[m].waitQueue;
    var t := q[0];
    var k2 := SetWinfo(DequeueTimeout(SetQueue(k, m, q[1..]), t), t, Wercd(E_OK));
    TakeEffect(k, m, t, q[1..]);
    var held := TcbOf(SetOwner(k2, m, Some(t)), t).held + [m];
    GiveEffect(k2, m, t, held);
    var k4 := SetHeld(SetOwner(k2, m, Some(t)), t, held);
    HandOverEnd(k, k2, k4, t);
    assert HandOver(k, m) == MakeNonWait(k4, t);
  }

  lemma HandOverEnd(k: KState, k2: KState, k4: KState, t: nat)
    requires t < |k.tcb| && SameRun(k, k2, t) && SameRun(k2, k4, t)
    ensures OnlyTask(k, MakeNonWait(k4, t), t) && MakeNonWait(k4, t).tcb[t].tstat == AfterWait(k.tcb[t].tstat)
  {
    MakeNonWaitEffect(k4, t);
  }

  /** No flag and no running task is touched; nobody who could run is stopped. */
  ghost predicate OnlyWakes(k: KState, k': KState) {
    && k'.cfg == k.cfg && |k'.tcb| == |k.tcb|
    && k'.runtsk == k.runtsk && k'.disdsp == k.disdsp && k'.ipmflg == k.ipmflg
    && k'.reqflg == k.reqflg && k'.inInt == k.inInt && k'.tm.ticking == k.tm.ticking
    && k'.tm.pending.Keys <= k.tm.pending.Keys
    && forall x :: 0 <= x < |k.tcb| ==> (k.tcb[x].tstat.Runnable? ==> k'.tcb[x].tstat.Runnable?)
  }

  lemma OnlyWakesTwice(k: KState, k1: KState, k2: KState)
    requires OnlyWakes(k, k1) && OnlyWakes(k1, k2)
    ensures OnlyWakes(k, k2)
  {
  }

  lemma ReleaseEffect(k: KState, m: nat, lt: set<nat>, t: nat)
    requires Links(k, lt, Some(m)) && m < |k.obj| && t < |k.tcb|
    requires t in lt || !k.tcb[t].tstat.Waiting?
    ensures OnlyWakes(k, Release(k, m)) && Release(k, m).tcb[t] == k.tcb[t]
  {
    if k.obj[m].waitQueue != [] {
      FirstLeaves(k, m, lt, Some(m));
      HandOverEffect(k, m);
    }
  }

  /** Giving up the first mutex in the mutex queue of a loose task. */
  lemma ReleaseFirstOk(k: KState, t: nat, lt: set<nat>)
    requires Links(k, lt, None) && t in lt && t < |k.tcb| && k.tcb[t].held != []
    ensures var k1 := Release(Unhold(k, t, k.tcb[t].held[0]), k.tcb[t].held[0]);
            && Links(k1, lt, None) && OnlyWakes(k, k1) && k1.tcb[t] == k.tcb[t].(held := k.tcb[t].held[1..])
  {
    var m := k.tcb[t].held[0];
    assert m < |k.obj| && IsMutex(k.cfg, m) by {
      assert TaskLinked(k, t, lt, None);
      assert HeldOk(k, t, m);
    }
    LetGo(k, t, m, lt);
    var k0 := Unhold(k, t, m);
    ReleaseOk(k0, m, lt);
    ReleaseEffect(k0, m, lt, t);
    assert OnlyWakes(k, k0);
    OnlyWakesTwice(k, k0, Release(k0, m));
  }

  /** A terminating task gives up every mutex it holds, each freed or handed over. */
  lemma {:induction false} ReleaseAllOk(k: KState, t: nat, n: nat, lt: set<nat>)
    requires Links(k, lt, None) && t in lt && t < |k.tcb| && n == |k.tcb[t].held|
    ensures Links(ReleaseAll(k, t, n), lt, None)
    ensures OnlyWakes(k, ReleaseAll(k, t, n))
    ensures ReleaseAll(k, t, n).tcb[t] == k.tcb[t].(held := [])
    decreases n
  {
    if n > 0 {
      var m := k.tcb[t].held[0];
      ReleaseFirstOk(k, t, lt);
      var k1 := Release(Unhold(k, t, m), m);
      ReleaseAllOk(k1, t, n - 1, lt);
      OnlyWakesTwice(k, k1, ReleaseAll(k1, t, n - 1));
    }
  }
}
