/** The priority ceiling protocol never makes a task wait for a mutex, and so never
    deadlocks: as long as every mutex has a ceiling, dispatching stays enabled and a task
    that holds a mutex keeps its base priority and neither waits, is suspended nor is
    rotated away. */
module CeilingProtocol {
  import opened Prelude
  import opened Timer
  import opened KernelState
  import opened KernelCalls
  import opened KernelInv
  import opened KernelSteps
  import opened KernelPriority
  import opened KernelSystem
  import opened KernelRuns
  import opened KernelTheorems

  ghost predicate Holder(k: KState, t: nat) { t < |k.tcb| && k.tcb[t].held != [] }

  /** First in the ready queue of its current priority. */
  ghost predicate Heads(k: KState, t: nat) {
    && TcbOf(k, t).tstat.Runnable?
    && ReadyOf(k, Pri(k, t)) != [] && ReadyOf(k, Pri(k, t))[0] == t
  }

  /** If `t` is above `u` it is so by its base priority already. */
  ghost predicate Above(k: KState, t: nat, u: nat) {
    Pri(k, t) < Pri(k, u) ==> TcbOf(k, t).bpriority < Pri(k, u)
  }

  /** The holders form a stack: each is the first of its ready queue, and the base priority
      of each is higher than the current priority of every holder below it.  The tasks in
      `out` are left out of account. */
  ghost predicate Stacked(k: KState, out: set<nat>) {
    && (forall t: nat :: Holder(k, t) && t !in out ==> Heads(k, t))
    && (forall t: nat, u: nat :: Holder(k, t) && Holder(k, u) && t !in out && u !in out && t != u ==> Above(k, t, u))
  }

  ghost predicate Unwaited(k: KState) {
    forall m :: 0 <= m < |k.obj| && IsMutex(k.cfg, m) ==> k.obj[m].waitQueue == []
  }

  ghost predicate AllCeilings(cfg: Config) {
    forall m: nat :: IsMutex(cfg, m) ==> CeilingOf(cfg, m).Some?
  }

  ghost predicate Protocol(k: KState) {
    AllCeilings(k.cfg) && Dspflg(k) && Unwaited(k) && Stacked(k, {})
  }

  /** The discipline the application keeps. */
  ghost predicate Allowed(k: KState, c: Call)
    requires Enabled(k, c)
  {
    match c
    case DisDsp => false
    case ChgIpm(all) => all
    case RotRdq(pri) => ReadyOf(k, pri) != [] ==> !Holder(k, ReadyOf(k, pri)[0])
    case IrotRdq(pri) => ReadyOf(k, pri) != [] ==> !Holder(k, ReadyOf(k, pri)[0])
    case SusTsk(t) => !Holder(k, t)
    case ChgPri(t, _) => !Holder(k, t)
    case SlpTsk(tmout) => KernelCalls.SlpTsk(k, tmout).ercd == Blocked ==> !Holder(k, k.runtsk.value)
    case DlyTsk(_) => !Holder(k, k.runtsk.value)
    case WaiSem(o, tmout) => KernelCalls.WaiSem(k, o, tmout).ercd == Blocked ==> !Holder(k, k.runtsk.value)
    case WaitOther(_, _) => !Holder(k, k.runtsk.value)
    case _ => true
  }

  // ---- the point of it

  lemma RunningHeads(k: KState)
    requires System(k) && InTask(k) && Dspflg(k)
    ensures Heads(k, k.runtsk.value) && HeadsAt(k.ready, Pri(k, k.runtsk.value), k.runtsk.value)
  {
    var p := TopHeads(k.ready);
    assert ReadyLinked(k, p, {});
    assert k.runtsk.value in k.ready[p];
    assert InReady(k, p, k.runtsk.value, {});
  }

  /** Every other holder is below the base priority of the running task. */
  lemma HoldersBelow(k: KState, h: nat)
    requires System(k) && InTask(k) && Protocol(k) && Holder(k, h) && h != k.runtsk.value
    ensures TcbOf(k, k.runtsk.value).bpriority < Pri(k, h)
  {
    var r := k.runtsk.value;
    TopIsHighest(k);
    RunningHeads(k);
    assert Heads(k, h);
    assert Pri(k, r) < Pri(k, h);
    if Holder(k, r) { assert Above(k, r, h); }
  }

  /** No task but the running one can own a mutex it may lock. */
  lemma NeverOwnedByAnother(k: KState, m: nat)
    requires System(k) && InTask(k) && Protocol(k) && IsMutex(k.cfg, m)
    requires CeilingAllows(k.cfg, m, TcbOf(k, k.runtsk.value).bpriority)
    ensures k.obj[m].loctsk.None? || k.obj[m].loctsk == k.runtsk
  {
    if k.obj[m].loctsk.Some? && k.obj[m].loctsk != k.runtsk {
      var h := k.obj[m].loctsk.value;
      OwnerHolds(k, m);
      LowestIsMinimum(k.cfg, k.tcb[h].held, k.tcb[h].bpriority);
      assert Holder(k, h);
      HoldersBelow(k, h);
      assert false;
    }
  }

  /** The call succeeds at once, unless it is an error by the task's own doing. */
  ghost predicate LocksAtOnce(k: KState, m: nat, tmout: int)
    requires k.runtsk.Some?
  {
    KernelCalls.LocMtx(k, m, tmout).ercd ==
      if !CeilingAllows(k.cfg, m, TcbOf(k, k.runtsk.value).bpriority) then E_ILUSE
      else if m in TcbOf(k, k.runtsk.value).held then E_OBJ
      else E_OK
  }

  /** Locking a mutex within its ceiling succeeds at once, unless the task holds it already. */
  lemma NeverBlocks(k: KState, m: nat, tmout: int)
    requires System(k) && Protocol(k) && Enabled(k, LocMtx(m, tmout))
    ensures LocksAtOnce(k, m, tmout)
  {
    var r := k.runtsk.value;
    assert TaskLinked(k, r, {}, None);
    if m in k.tcb[r].held { assert HeldOk(k, r, m); }
    if CeilingAllows(k.cfg, m, TcbOf(k, r).bpriority) {
      NeverOwnedByAnother(k, m);
      if k.obj[m].loctsk == Some(r) { OwnerHolds(k, m); }
    }
  }

  // ---- steps that only add to the ready queues

  ghost predicate Grows(k: KState, k': KState) {
    && k'.cfg == k.cfg && |k'.tcb| == |k.tcb| && |k'.obj| == |k.obj| && |k'.ready| == |k.ready|
    && k'.disdsp == k.disdsp && k'.ipmflg == k.ipmflg
    && (forall t :: 0 <= t < |k.tcb| ==> Undisturbed(k, k', t))
    && (forall p :: 0 <= p < |k.ready| ==> k.ready[p] <= k'.ready[p])
    && (forall o :: 0 <= o < |k.obj| && k.obj[o].waitQueue == [] ==> k'.obj[o].waitQueue == [])
  }

  lemma GrowsTwice(k: KState, k1: KState, k2: KState)
    requires Grows(k, k1) && Grows(k1, k2)
    ensures Grows(k, k2)
  {
    forall t | 0 <= t < |k.tcb| ensures Undisturbed(k, k2, t) {
      assert Undisturbed(k, k1, t) && Undisturbed(k1, k2, t);
    }
    forall p | 0 <= p < |k.ready| ensures k.ready[p] <= k2.ready[p] {
      assert k.ready[p] <= k1.ready[p] && k1.ready[p] <= k2.ready[p];
    }
  }

  lemma GrownStack(k: KState, k': KState, out: set<nat>)
    requires Stacked(k, out) && Grows(k, k')
    ensures Stacked(k', out)
  {
    forall t: nat | Holder(k', t) && t !in out ensures Heads(k', t) && Holder(k, t) && Pri(k', t) == Pri(k, t) {
      assert Undisturbed(k, k', t);
      assert Holder(k, t) && Heads(k, t);
      assert k.ready[Pri(k, t)] <= k'.ready[Pri(k, t)];
    }
    forall t: nat, u: nat | Holder(k', t) && Holder(k', u) && t !in out && u !in out && t != u ensures Above(k', t, u) {
      assert Undisturbed(k, k', t) && Undisturbed(k, k', u);
      assert Holder(k, t) && Holder(k, u);
      assert Above(k, t, u);
    }
  }

  lemma GrownProtocol(k: KState, k': KState)
    requires Protocol(k) && Grows(k, k')
    ensures Protocol(k')
  {
    GrownStack(k, k', {});
  }

  lemma MakeRunnableGrows(k: KState, t: nat)
    ensures Grows(k, MakeRunnable(k, t))
  {
    var k' := MakeRunnable(k, t);
    forall t | 0 <= t < |k.tcb| ensures Undisturbed(k, k', t) {
    }
  }

  /** The record of a task that cannot run may change, apart from what it holds and its
      base priority. */
  lemma SetTcbGrows(k: KState, t: nat, b: TCB)
    requires b.held == TcbOf(k, t).held && b.bpriority == TcbOf(k, t).bpriority
    requires TcbOf(k, t).tstat.Runnable? ==> b.tstat.Runnable?
    ensures Grows(k, SetTcb(k, t, b))
  {
    var k' := SetTcb(k, t, b);
    forall x | 0 <= x < |k.tcb| ensures Undisturbed(k, k', x) {
    }
  }

  lemma SetQueueGrows(k: KState, o: nat, b: WOBJ)
    requires ObjOf(k, o).waitQueue == [] ==> b.waitQueue == []
    ensures Grows(k, SetObj(k, o, b))
  {
    var k' := SetObj(k, o, b);
    forall x | 0 <= x < |k.tcb| ensures Undisturbed(k, k', x) {
    }
  }

  /** Nothing the protocol depends on. */
  lemma FlagsGrow(k: KState, k': KState)
    requires k' == k.(runtsk := k'.runtsk, reqflg := k'.reqflg, inInt := k'.inInt,
                      cycsta := k'.cycsta, almsta := k'.almsta, tm := k'.tm)
    ensures Grows(k, k')
  {
    forall x | 0 <= x < |k.tcb| ensures Undisturbed(k, k', x) {
    }
  }

  lemma MakeActiveGrows(k: KState, t: nat)
    requires !TcbOf(k, t).tstat.Waiting?
    ensures Grows(k, MakeActive(k, t))
  {
    SetTcbGrows(k, t, TcbOf(k, t).(tstat := Runnable));
    MakeRunnableGrows(SetState(k, t, Runnable), t);
    GrowsTwice(k, SetState(k, t, Runnable), MakeActive(k, t));
  }

  lemma EndWaitGrows(k: KState, t: nat, ercd: ER)
    requires TcbOf(k, t).tstat.Waiting?
    ensures Grows(k, EndWait(k, t, ercd))
  {
    var k1 := SetWinfo(k, t, Wercd(ercd));
    SetTcbGrows(k, t, TcbOf(k, t).(winfo := Wercd(ercd)));
    if IsSuspended(TcbOf(k1, t).tstat) {
      SetTcbGrows(k1, t, TcbOf(k1, t).(tstat := Suspended));
      GrowsTwice(k, k1, SetState(k1, t, Suspended));
    } else {
      SetTcbGrows(k1, t, TcbOf(k1, t).(tstat := Runnable));
      MakeRunnableGrows(SetState(k1, t, Runnable), t);
      GrowsTwice(k1, SetState(k1, t, Runnable), MakeRunnable(SetState(k1, t, Runnable), t));
      GrowsTwice(k, k1, EndWait(k, t, ercd));
    }
  }

  lemma WaitCompleteGrows(k: KState, t: nat, ercd: ER)
    requires TcbOf(k, t).tstat.Waiting?
    ensures Grows(k, WaitComplete(k, t, ercd))
  {
    var k1 := DequeueTimeout(k, t);
    FlagsGrow(k, k1);
    EndWaitGrows(k1, t, ercd);
    GrowsTwice(k, k1, WaitComplete(k, t, ercd));
  }

  lemma LeaveQueueGrows(k: KState, t: nat)
    ensures Grows(k, LeaveQueue(k, t))
  {
    match TcbOf(k, t).tstat
    case Waiting(OnObject(o), _) =>
      SetQueueGrows(k, o, ObjOf(k, o).(waitQueue := Remove(ObjOf(k, o).waitQueue, t)));
    case _ => FlagsGrow(k, k);
  }

  lemma WaitReleaseGrows(k: KState, t: nat, ercd: ER)
    requires TcbOf(k, t).tstat.Waiting?
    ensures Grows(k, WaitRelease(k, t, ercd))
  {
    LeaveQueueGrows(k, t);
    WaitCompleteGrows(LeaveQueue(k, t), t, ercd);
    GrowsTwice(k, LeaveQueue(k, t), WaitRelease(k, t, ercd));
  }

  lemma WakeFirstGrows(k: KState, o: nat)
    requires Links(k, {}, None) && o < |k.obj| && k.obj[o].waitQueue != []
    ensures Grows(k, WakeFirst(k, o))
  {
    FirstLeaves(k, o, {}, None);
    WaitReleaseGrows(k, k.obj[o].waitQueue[0], E_OK);
  }

  lemma {:induction false} InitQueueGrows(k: KState, o: nat, n: nat)
    requires Links(k, {}, None) && o < |k.obj| && n == |k.obj[o].waitQueue|
    ensures Grows(k, InitQueue(k, o, n))
    decreases n
  {
    if n == 0 {
      FlagsGrow(k, k);
    } else {
      var t := k.obj[o].waitQueue[0];
      FirstLeaves(k, o, {}, None);
      WaitReleaseOk(k, t, E_DLT, {}, None);
      WaitReleaseGrows(k, t, E_DLT);
      var k1 := WaitRelease(k, t, E_DLT);
      WaitCompleteOnlyReleases(LeaveQueue(k, t), t, E_DLT);
      InitQueueGrows(k1, o, n - 1);
      GrowsTwice(k, k1, InitQueue(k, o, n));
    }
  }

  // ---- tasks leaving the ready queues

  /** A task that runs no longer is out of account until it holds nothing. */
  lemma {:induction false} RemoveKeepsHead(s: seq<nat>, t: nat)
    requires s != [] && s[0] != t
    ensures Remove(s, t) != [] && Remove(s, t)[0] == s[0]
  {
  }

  /** `t` is in no ready queue any more; no other task is affected. */
  lemma TakenStack(k: KState, k': KState, t: nat, p: nat)
    requires Stacked(k, {t}) && |k'.tcb| == |k.tcb| && k'.cfg == k.cfg
    requires k'.ready == k.ready || (p < |k.ready| && k'.ready == k.ready[p := Remove(k.ready[p], t)])
    requires forall x :: 0 <= x < |k.tcb| && x != t ==> k'.tcb[x] == k.tcb[x]
    ensures Stacked(k', {t})
  {
    forall x: nat | Holder(k', x) && x !in {t} ensures Heads(k', x) {
      assert Holder(k, x) && Heads(k, x);
      if k'.ready != k.ready && Pri(k, x) == p { RemoveKeepsHead(k.ready[p], t); }
    }
    forall x: nat, u: nat | Holder(k', x) && Holder(k', u) && x !in {t} && u !in {t} && x != u ensures Above(k', x, u) {
      assert Holder(k, x) && Holder(k, u);
      assert Above(k, x, u);
    }
  }

  lemma OutOfAccount(k: KState, t: nat)
    requires Stacked(k, {})
    ensures Stacked(k, {t})
  {
    forall x: nat | Holder(k, x) && x !in {t} ensures Heads(k, x) {
      assert x !in {};
    }
    forall x: nat, u: nat | Holder(k, x) && Holder(k, u) && x !in {t} && u !in {t} && x != u ensures Above(k, x, u) {
      assert x !in {} && u !in {};
    }
  }

  lemma BackInAccount(k: KState, t: nat)
    requires Stacked(k, {t}) && !Holder(k, t)
    ensures Stacked(k, {})
  {
    forall x: nat | Holder(k, x) ensures Heads(k, x) {
      assert x !in {t};
    }
    forall x: nat, u: nat | Holder(k, x) && Holder(k, u) && x != u ensures Above(k, x, u) {
      assert x !in {t} && u !in {t};
    }
  }

  /** A task that holds nothing stops being runnable. */
  lemma StopsProtocol(k: KState, k': KState, t: nat, p: nat)
    requires Protocol(k) && !Holder(k, t) && t < |k.tcb| && |k'.tcb| == |k.tcb|
    requires k'.cfg == k.cfg && k'.disdsp == k.disdsp && k'.ipmflg == k.ipmflg && Unwaited(k')
    requires k'.ready == k.ready || (p < |k.ready| && k'.ready == k.ready[p := Remove(k.ready[p], t)])
    requires forall x :: 0 <= x < |k.tcb| && x != t ==> k'.tcb[x] == k.tcb[x]
    requires k'.tcb[t].held == k.tcb[t].held
    ensures Protocol(k')
  {
    OutOfAccount(k, t);
    TakenStack(k, k', t, p);
    BackInAccount(k', t);
  }

  lemma EnterWaitEffect(k: KState, r: nat, cause: Cause, timeout: Option<nat>)
    requires r < |k.tcb| && Pri(k, r) < |k.ready|
    ensures var k' := EnterWait(k, r, cause, timeout);
            && k'.ready == k.ready[Pri(k, r) := Remove(k.ready[Pri(k, r)], r)]
            && k'.tcb == k.tcb[r := k'.tcb[r]] && k'.tcb[r].held == k.tcb[r].held
            && |k'.obj| == |k.obj|
            && forall o :: 0 <= o < |k.obj| && cause != OnObject(o) ==> k'.obj[o] == k.obj[o]
  {
    var d := MakeNonRunnable(k, r);
    var a := Armed(d, r, cause, timeout);
    assert a.tcb == k.tcb[r := a.tcb[r]] && a.tcb[r].held == k.tcb[r].held && a.obj == k.obj && a.ready == d.ready;
  }

  lemma EnterWaitProtocol(k: KState, cause: Cause, timeout: Option<nat>)
    requires System(k) && InTask(k) && Protocol(k) && !Holder(k, k.runtsk.value)
    requires cause.OnObject? ==> !IsMutex(k.cfg, cause.obj)
    ensures Protocol(Settle(EnterWait(k, k.runtsk.value, cause, timeout)))
  {
    var r := k.runtsk.value;
    var k' := EnterWait(k, r, cause, timeout);
    AttachedFacts(k, r, None);
    EnterWaitEffect(k, r, cause, timeout);
    EnterWaitFlags(k, r, cause, timeout);
    StopsProtocol(k, k', r, Pri(k, r));
    FlagsGrow(k', Settle(k'));
    GrownProtocol(k', Settle(k'));
  }

  lemma SusTskProtocol(k: KState, t: nat)
    requires System(k) && Protocol(k) && Enabled(k, SusTsk(t)) && !Holder(k, t)
    ensures Protocol(Perform(k, SusTsk(t)).k)
  {
    match k.tcb[t].tstat
    case Runnable =>
      AttachedFacts(k, t, None);
      var k' := MakeNonRunnable(SetState(k, t, Suspended), t);
      StopsProtocol(k, k', t, Pri(k, t));
      FlagsGrow(k', Settle(k'));
      GrownProtocol(k', Settle(k'));
    case Waiting(c, false) =>
      SetTcbGrows(k, t, k.tcb[t].(tstat := Waiting(c, true)));
      GrownProtocol(k, SetState(k, t, Waiting(c, true)));
    case _ =>
  }

  // ---- termination

  /** Giving up a mutex nobody waits for. */
  lemma ReleaseStack(k: KState, t: nat)
    requires Links(k, {t}, None) && t < |k.tcb| && k.tcb[t].held != [] && Stacked(k, {t}) && Unwaited(k)
    ensures var k' := Release(Unhold(k, t, k.tcb[t].held[0]), k.tcb[t].held[0]);
            && Stacked(k', {t}) && Unwaited(k') && k'.disdsp == k.disdsp && k'.ipmflg == k.ipmflg
  {
    var m := k.tcb[t].held[0];
    assert m < |k.obj| && IsMutex(k.cfg, m) by {
      assert TaskLinked(k, t, {t}, None);
      assert HeldOk(k, t, m);
    }
    var k1 := Unhold(k, t, m);
    TakenStack(k, k1, t, 0);
    var b := ObjOf(k1, m).(loctsk := None);
    SetQueueGrows(k1, m, b);
    GrownStack(k1, SetObj(k1, m, b), {t});
  }

  lemma {:induction false} ReleaseAllStack(k: KState, t: nat, n: nat)
    requires Links(k, {t}, None) && t < |k.tcb| && n == |k.tcb[t].held| && Stacked(k, {t}) && Unwaited(k)
    ensures var k' := ReleaseAll(k, t, n);
            && Stacked(k', {t}) && Unwaited(k') && k'.disdsp == k.disdsp && k'.ipmflg == k.ipmflg
    decreases n
  {
    if n > 0 {
      var m := k.tcb[t].held[0];
      ReleaseFirstOk(k, t, {t});
      ReleaseStack(k, t);
      var k1 := Release(Unhold(k, t, m), m);
      ReleaseAllStack(k1, t, n - 1);
      assert ReleaseAll(k, t, n) == ReleaseAll(k1, t, n - 1);
    }
  }

  lemma TerminateProtocol(k: KState, t: nat)
    requires Links(k, {t}, None) && t < |k.tcb| && Stacked(k, {t}) && Unwaited(k) && Dspflg(k) && AllCeilings(k.cfg)
    ensures Protocol(Terminate(k, t))
  {
    var n := |k.tcb[t].held|;
    ReleaseAllOk(k, t, n, {t});
    ReleaseAllStack(k, t, n);
    var k1 := ReleaseAll(k, t, n);
    var k2 := MakeDormant(k1, t);
    TakenStack(k1, k2, t, 0);
    BackInAccount(k2, t);
    if TcbOf(k2, t).actque {
      var k3 := QueueActivation(k2, t, false);
      SetTcbGrows(k2, t, TcbOf(k2, t).(actque := false));
      GrownProtocol(k2, k3);
      MakeActiveGrows(k3, t);
      GrownProtocol(k3, MakeActive(k3, t));
    }
  }

  lemma DetachStack(k: KState, t: nat)
    requires Links(k, {}, None) && t < |k.tcb| && Stacked(k, {}) && Unwaited(k)
    ensures Stacked(Detach(k, t), {t}) && Unwaited(Detach(k, t))
  {
    AttachedFacts(k, t, None);
    OutOfAccount(k, t);
    match k.tcb[t].tstat
    case Runnable => TakenStack(k, Detach(k, t), t, Pri(k, t));
    case Waiting(_, _) =>
      LeaveQueueGrows(k, t);
      var k1 := LeaveQueue(k, t);
      GrownStack(k, k1, {t});
      FlagsGrow(k1, DequeueTimeout(k1, t));
      GrownStack(k1, DequeueTimeout(k1, t), {t});
    case _ =>
  }

  lemma TerTskProtocol(k: KState, t: nat)
    requires System(k) && Protocol(k) && Enabled(k, TerTsk(t))
    ensures Protocol(Perform(k, TerTsk(t)).k)
  {
    if !k.tcb[t].tstat.Dormant? {
      DetachOk(k, t);
      DetachStack(k, t);
      DetachEffect(k, t);
      assert {} + {t} == {t};
      TerminateProtocol(Detach(k, t), t);
      var k' := Terminate(Detach(k, t), t);
      FlagsGrow(k', Settle(k'));
      GrownProtocol(k', Settle(k'));
    }
  }

  lemma ExtTskProtocol(k: KState)
    requires System(k) && Protocol(k) && Enabled(k, ExtTsk)
    ensures Protocol(Perform(k, ExtTsk).k)
  {
    var r := k.runtsk.value;
    assert WithDispatch(k, false, true) == k;
    DetachOk(k, r);
    DetachStack(k, r);
    assert {} + {r} == {r};
    TerminateProtocol(MakeNonRunnable(k, r), r);
    var k' := Terminate(MakeNonRunnable(k, r), r);
    FlagsGrow(k', Settle(k'));
    GrownProtocol(k', Settle(k'));
  }

  // ---- priorities changing

  /** A task that holds nothing gets another base priority. */
  lemma ChgPriProtocol(k: KState, t: nat, pri: nat)
    requires System(k) && Protocol(k) && Enabled(k, ChgPri(t, pri)) && !Holder(k, t)
    ensures Protocol(Perform(k, ChgPri(t, pri)).k)
  {
    if !k.tcb[t].tstat.Dormant? && CeilingsAllow(k, t, pri) {
      var k1 := SetTcb(k, t, k.tcb[t].(bpriority := pri));
      StopsProtocol(k, k1, t, 0);
      MoveProtocol(k, k1, t);
      var k' := Reposition(k1, t, Pri(k, t), false);
      FlagsGrow(k', Settle(k'));
      GrownProtocol(k', Settle(k'));
    }
  }

  lemma MoveProtocol(k: KState, k1: KState, t: nat)
    requires System(k) && Protocol(k1) && t < |k.tcb| && !Holder(k, t)
    requires k1 == k.(tcb := k.tcb[t := k.tcb[t].(bpriority := TcbOf(k1, t).bpriority)])
    ensures Protocol(Reposition(k1, t, Pri(k, t), false))
  {
    AttachedFacts(k, t, None);
    match k.tcb[t].tstat
    case Runnable =>
      var k2 := SetReady(k1, Pri(k, t), Remove(ReadyOf(k1, Pri(k, t)), t));
      StopsProtocol(k1, k2, t, Pri(k, t));
      MakeRunnableGrows(k2, t);
      GrownProtocol(k2, MakeRunnable(k2, t));
    case Waiting(OnObject(o), _) =>
      WaiterMayWait(k, t, o);
      if IsTpri(k.cfg, o) { RequeueProtocol(k1, Reposition(k1, t, Pri(k, t), false), t, o); }
    case _ =>
  }

  lemma RequeueProtocol(k: KState, k': KState, t: nat, o: nat)
    requires Protocol(k) && t < |k.tcb| && WaitsFor(k, t, o) && o < |k.obj| && !IsMutex(k.cfg, o)
    requires k' == JoinQueue(LeaveQueue(k, t), t, o) || k' == k
    ensures Protocol(k')
  {
    forall x: nat | Holder(k', x) ensures Heads(k', x) {
      assert Holder(k, x) && Heads(k, x);
    }
    forall x: nat, u: nat | Holder(k', x) && Holder(k', u) && x != u ensures Above(k', x, u) {
      assert Holder(k, x) && Holder(k, u) && Above(k, x, u);
    }
  }

  /** No holder but `t` has `t`'s new priority, and the stack is in order with it. */
  ghost predicate Fits(k: KState, t: nat, pri: nat, u: nat) {
    && Pri(k, u) != pri
    && (pri < Pri(k, u) ==> TcbOf(k, t).bpriority < Pri(k, u))
    && (Pri(k, u) < pri ==> TcbOf(k, u).bpriority < pri)
  }

  /** The first task of its ready queue changes what it holds and goes in front of its new
      equals. */
  lemma AdjustStack(k: KState, k2: KState, t: nat)
    requires Stacked(k, {}) && Heads(k, t) && t < |k.tcb|
    requires |k2.tcb| == |k.tcb| && k2.cfg == k.cfg && k2.ready == k.ready && k2.disdsp == k.disdsp && k2.ipmflg == k.ipmflg
    requires forall x :: 0 <= x < |k.tcb| && x != t ==> k2.tcb[x] == k.tcb[x]
    requires k2.tcb[t] == k.tcb[t].(held := k2.tcb[t].held) && Pri(k2, t) < |k.ready|
    requires forall u: nat :: Holder(k, u) && u != t ==> Fits(k, t, Pri(k2, t), u)
    ensures Stacked(Adjust(k2, t, Pri(k, t)), {})
  {
    var k' := Adjust(k2, t, Pri(k, t));
    assert k'.tcb == k2.tcb && k'.cfg == k.cfg;
    assert Heads(k', t);
    forall x: nat | Holder(k', x) ensures Heads(k', x) {
      if x != t {
        assert Holder(k, x) && Heads(k, x) && Fits(k, t, Pri(k2, t), x);
      }
    }
    forall x: nat, u: nat | Holder(k', x) && Holder(k', u) && x != u ensures Above(k', x, u) {
      if x == t {
        assert Holder(k, u) && Fits(k, t, Pri(k2, t), u);
      } else if u == t {
        assert Holder(k, x) && Fits(k, t, Pri(k2, t), x);
      } else {
        assert Holder(k, x) && Holder(k, u) && Above(k, x, u);
      }
    }
  }

  lemma AcquireProtocol(k: KState, m: nat)
    requires System(k) && InTask(k) && Protocol(k) && IsMutex(k.cfg, m)
    requires CeilingAllows(k.cfg, m, TcbOf(k, k.runtsk.value).bpriority)
    ensures Protocol(Acquire(k, k.runtsk.value, m))
  {
    var r := k.runtsk.value;
    RunningHeads(k);
    var k2 := SetHeld(SetOwner(k, m, Some(r)), r, [m] + k.tcb[r].held);
    LowestIsMinimum(k.cfg, k2.tcb[r].held, k.tcb[r].bpriority);
    AttachedFacts(k, r, None);
    LowestAdds(k.cfg, k.tcb[r].held, m, k.tcb[r].bpriority);
    forall u: nat | Holder(k, u) && u != r ensures Fits(k, r, Pri(k2, r), u) {
      HoldersBelow(k, u);
    }
    AdjustStack(k, k2, r);
    AdjustEffect(k2, r, Pri(k, r));
    AdjustUnwaited(k, k2, r, Pri(k, r));
  }

  /** Moving a runnable task touches no waiting queue. */
  lemma AdjustUnwaited(k: KState, k2: KState, t: nat, oldpri: nat)
    requires Unwaited(k) && k2.cfg == k.cfg && |k2.obj| == |k.obj| && TcbOf(k2, t).tstat.Runnable?
    requires forall o :: 0 <= o < |k.obj| ==> k2.obj[o].waitQueue == k.obj[o].waitQueue
    ensures Unwaited(Adjust(k2, t, oldpri)) && Adjust(k2, t, oldpri).obj == k2.obj
  {
    if Pri(k2, t) != oldpri { ReinsertEffect(k2, t, oldpri, true); }
  }

  /** Any holder that gives up a mutex falls at most to its base priority, which keeps it
      above every holder below it. */
  lemma DropFits(k: KState, t: nat, m: nat, u: nat)
    requires Protocol(k) && Holder(k, t) && Holder(k, u) && u != t && m in k.tcb[t].held
    ensures Fits(k, t, LowestOf(k.cfg, Remove(k.tcb[t].held, m), k.tcb[t].bpriority), u)
  {
    LowestRemove(k.cfg, k.tcb[t].held, m, k.tcb[t].bpriority);
    LowestIsMinimum(k.cfg, Remove(k.tcb[t].held, m), k.tcb[t].bpriority);
    assert Heads(k, t) && Heads(k, u);
    assert Above(k, t, u) && Above(k, u, t);
  }

  lemma DropProtocol(k: KState, t: nat, m: nat, k2: KState)
    requires Links(k, {}, None) && Protocol(k) && Holder(k, t) && m in k.tcb[t].held
    requires k2 == Unhold(k, t, m) || k2 == SetOwner(Unhold(k, t, m), m, None)
    ensures Protocol(Adjust(k2, t, Pri(k, t)))
  {
    assert Heads(k, t);
    HeldAllows(k, t, {}, None);
    LowestIsMinimum(k.cfg, Remove(k.tcb[t].held, m), k.tcb[t].bpriority);
    forall u: nat | Holder(k, u) && u != t ensures Fits(k, t, Pri(k2, t), u) {
      DropFits(k, t, m, u);
    }
    AdjustStack(k, k2, t);
    AdjustEffect(k2, t, Pri(k, t));
    AdjustUnwaited(k, k2, t, Pri(k, t));
  }

  lemma UnlMtxProtocol(k: KState, m: nat)
    requires System(k) && Protocol(k) && Enabled(k, UnlMtx(m))
    ensures Protocol(Perform(k, UnlMtx(m)).k)
  {
    var r := k.runtsk.value;
    if k.obj[m].loctsk == Some(r) {
      OwnerHolds(k, m);
      assert Holder(k, r) && Heads(k, r);
      DropProtocol(k, r, m, Unhold(k, r, m));
      AdjustUnwaited(k, Unhold(k, r, m), r, Pri(k, r));
      var k1 := Adjust(Unhold(k, r, m), r, Pri(k, r));
      var b := ObjOf(k1, m).(loctsk := None);
      SetQueueGrows(k1, m, b);
      GrownProtocol(k1, SetObj(k1, m, b));
      var k' := Release(k1, m);
      assert k' == SetObj(k1, m, b);
      FlagsGrow(k', Settle(k'));
      GrownProtocol(k', Settle(k'));
    }
  }

  lemma IniMtxProtocol(k: KState, m: nat)
    requires System(k) && Protocol(k) && Enabled(k, IniMtx(m))
    ensures Protocol(Perform(k, IniMtx(m)).k)
  {
    assert InitQueue(k, m, |k.obj[m].waitQueue|) == k;
    var k' := k;
    if k.obj[m].loctsk.Some? {
      var t := k.obj[m].loctsk.value;
      OwnerHolds(k, m);
      assert Holder(k, t);
      DropProtocol(k, t, m, SetOwner(Unhold(k, t, m), m, None));
      k' := Adjust(SetOwner(Unhold(k, t, m), m, None), t, Pri(k, t));
    }
    FlagsGrow(k', Settle(k'));
    GrownProtocol(k', Settle(k'));
  }

  lemma RotateProtocol(k: KState, pri: nat)
    requires Protocol(k) && (ReadyOf(k, pri) != [] ==> !Holder(k, ReadyOf(k, pri)[0]))
    ensures Protocol(Rotate(k, pri))
  {
    var k' := Rotate(k, pri);
    forall x: nat | Holder(k', x) ensures Heads(k', x) {
      assert Holder(k, x) && Heads(k, x);
    }
    forall x: nat, u: nat | Holder(k', x) && Holder(k', u) && x != u ensures Above(k', x, u) {
      assert Holder(k, x) && Holder(k, u) && Above(k, x, u);
    }
  }

  // ---- every run

  lemma WakeupProtocol(k: KState, c: Call, t: nat)
    requires System(k) && Protocol(k) && Enabled(k, c)
    requires c == ActTsk(t) || c == IactTsk(t) || c == WupTsk(t) || c == IwupTsk(t)
    ensures Protocol(Perform(k, c).k)
  {
    var k1 :=
      if c.ActTsk? || c.IactTsk? then
        if k.tcb[t].tstat.Dormant? then MakeActive(k, t) else QueueActivation(k, t, true)
      else
        if IsSleeping(k.tcb[t].tstat) then WaitComplete(k, t, E_OK) else QueueWakeup(k, t, true);
    assert Grows(k, k1) by {
      if (c.ActTsk? || c.IactTsk?) && k.tcb[t].tstat.Dormant? {
        MakeActiveGrows(k, t);
      } else if c.ActTsk? || c.IactTsk? {
        SetTcbGrows(k, t, k.tcb[t].(actque := true));
      } else if IsSleeping(k.tcb[t].tstat) {
        WaitCompleteGrows(k, t, E_OK);
      } else {
        SetTcbGrows(k, t, k.tcb[t].(wupque := true));
      }
    }
    DoneProtocol(k, k1);
  }

  /** What follows the work of a service call. */
  lemma DoneProtocol(k: KState, k1: KState)
    requires Protocol(k) && Grows(k, k1)
    ensures Protocol(k1) && Protocol(Settle(k1)) && Protocol(Request(k, k1))
  {
    GrownProtocol(k, k1);
    FlagsGrow(k1, Settle(k1));
    GrownProtocol(k1, Settle(k1));
    FlagsGrow(k1, Request(k, k1));
    GrownProtocol(k1, Request(k, k1));
  }

  lemma ReleaseProtocol(k: KState, t: nat)
    requires Protocol(k) && t < |k.tcb|
    ensures Protocol(KernelCalls.RelWai(k, t).k) && Protocol(KernelCalls.IrelWai(k, t).k)
  {
    if k.tcb[t].tstat.Waiting? {
      WaitReleaseGrows(k, t, E_RLWAI);
      DoneProtocol(k, WaitRelease(k, t, E_RLWAI));
    }
  }

  lemma SlpTskProtocol(k: KState, tmout: int)
    requires System(k) && Protocol(k) && Enabled(k, SlpTsk(tmout)) && Allowed(k, SlpTsk(tmout))
    ensures Protocol(Perform(k, SlpTsk(tmout)).k)
  {
    var r := k.runtsk.value;
    if k.tcb[r].wupque {
      SetTcbGrows(k, r, k.tcb[r].(wupque := false));
      GrownProtocol(k, QueueWakeup(k, r, false));
    } else if tmout != TMO_POL {
      EnterWaitProtocol(k, Sleep, TimeoutOf(tmout));
    }
  }

  lemma RsmTskProtocol(k: KState, t: nat)
    requires Protocol(k) && t < |k.tcb|
    ensures Protocol(KernelCalls.RsmTsk(k, t).k)
  {
    match k.tcb[t].tstat
    case Suspended =>
      MakeActiveGrows(k, t);
      DoneProtocol(k, MakeActive(k, t));
    case Waiting(c, true) =>
      SetTcbGrows(k, t, k.tcb[t].(tstat := Waiting(c, false)));
      DoneProtocol(k, SetState(k, t, Waiting(c, false)));
    case _ =>
  }

  lemma LocMtxProtocol(k: KState, m: nat, tmout: int)
    requires System(k) && Protocol(k) && Enabled(k, LocMtx(m, tmout))
    ensures Protocol(Perform(k, LocMtx(m, tmout)).k)
  {
    NeverBlocks(k, m, tmout);
    if CeilingAllows(k.cfg, m, TcbOf(k, k.runtsk.value).bpriority) && k.obj[m].loctsk.None? {
      AcquireProtocol(k, m);
    }
  }

  lemma SignalProtocol(k: KState, o: nat)
    requires System(k) && Protocol(k) && IsSemaphore(k.cfg, o)
    ensures Protocol(KernelCalls.SigSem(k, o).k) && Protocol(KernelCalls.IsigSem(k, o).k)
  {
    if k.obj[o].waitQueue != [] {
      WakeFirstGrows(k, o);
      DoneProtocol(k, WakeFirst(k, o));
    } else {
      SetQueueGrows(k, o, k.obj[o].(semcnt := k.obj[o].semcnt + 1));
      DoneProtocol(k, SetCount(k, o, k.obj[o].semcnt + 1));
    }
  }

  lemma CountProtocol(k: KState, o: nat, n: nat)
    requires Protocol(k)
    ensures Protocol(SetCount(k, o, n))
  {
    SetQueueGrows(k, o, ObjOf(k, o).(semcnt := n));
    GrownProtocol(k, SetCount(k, o, n));
  }

  lemma WaiSemProtocol(k: KState, o: nat, tmout: int)
    requires System(k) && Protocol(k) && Enabled(k, WaiSem(o, tmout)) && Allowed(k, WaiSem(o, tmout))
    ensures Protocol(Perform(k, WaiSem(o, tmout)).k)
  {
    WaiSemKeeps(k, o, tmout);
  }

  lemma WaiSemKeeps(k: KState, o: nat, tmout: int)
    requires System(k) && Protocol(k) && InTask(k) && o < |k.obj| && !IsMutex(k.cfg, o)
    requires KernelCalls.WaiSem(k, o, tmout).ercd == Blocked ==> !Holder(k, k.runtsk.value)
    ensures Protocol(KernelCalls.WaiSem(k, o, tmout).k)
  {
    var k' := KernelCalls.WaiSem(k, o, tmout).k;
    if k.obj[o].semcnt >= 1 {
      CountProtocol(k, o, k.obj[o].semcnt - 1);
      assert k' == SetCount(k, o, k.obj[o].semcnt - 1);
    } else if tmout != TMO_POL {
      EnterWaitProtocol(k, OnObject(o), TimeoutOf(tmout));
      assert k' == Settle(EnterWait(k, k.runtsk.value, OnObject(o), TimeoutOf(tmout)));
    } else {
      assert k' == k;
    }
  }

  lemma IniSemProtocol(k: KState, o: nat)
    requires System(k) && Protocol(k) && Enabled(k, IniSem(o))
    ensures Protocol(Perform(k, IniSem(o)).k)
  {
    InitQueueGrows(k, o, |k.obj[o].waitQueue|);
    var k1 := InitQueue(k, o, |k.obj[o].waitQueue|);
    SetQueueGrows(k1, o, ObjOf(k1, o).(semcnt := IsemCnt(k1.cfg, o)));
    GrowsTwice(k, k1, SetCount(k1, o, IsemCnt(k1.cfg, o)));
    DoneProtocol(k, SetCount(k1, o, IsemCnt(k1.cfg, o)));
  }

  lemma {:induction false} WakeAllGrows(k: KState, o: nat, ts: seq<nat>)
    requires Links(k, {}, None) && CanWake(k, o, ts)
    ensures Grows(k, WakeAll(k, ts))
    decreases |ts|
  {
    if ts == [] {
      FlagsGrow(k, k);
    } else {
      assert ts[0] in ts;
      var k1 := WaitRelease(k, ts[0], E_OK);
      WakeOneOk(k, o, ts);
      WaitReleaseGrows(k, ts[0], E_OK);
      WakeAllGrows(k1, o, ts[1..]);
      GrowsTwice(k, k1, WakeAll(k1, ts[1..]));
    }
  }

  lemma WaitCallProtocol(k: KState, c: Call)
    requires System(k) && Protocol(k) && Enabled(k, c) && Allowed(k, c) && IsWaitCall(c)
    ensures Protocol(Perform(k, c).k)
  {
    match c
    case WaitOther(o, tmout) => EnterWaitProtocol(k, OnObject(o), TimeoutOf(tmout));
    case WakeOther(o, ts) => WakeAllGrows(k, o, ts); DoneProtocol(k, WakeAll(k, ts));
    case IwakeOther(o, ts) => WakeAllGrows(k, o, ts); DoneProtocol(k, WakeAll(k, ts));
    case IniOther(o) =>
      InitQueueGrows(k, o, |k.obj[o].waitQueue|);
      DoneProtocol(k, InitQueue(k, o, |k.obj[o].waitQueue|));
  }

  lemma FireProtocol(k: KState, e: TMEVTB)
    requires System(k) && Protocol(k) && Enabled(k, Fire(e))
    ensures Protocol(FireEvent(k, e))
  {
    assert KnownEvent(k, e);
    var k1 := WithTimer(k, Dequeue(k.tm, e));
    FlagsGrow(k, k1);
    GrownProtocol(k, k1);
    match e
    case TaskTimeout(t) =>
      assert TaskLinked(k, t, {}, None);
      if IsDelayed(k.tcb[t].tstat) {
        EndWaitGrows(k1, t, E_OK);
        DoneProtocol(k1, EndWait(k1, t, E_OK));
      } else {
        LeaveQueueGrows(k1, t);
        EndWaitGrows(LeaveQueue(k1, t), t, E_TMOUT);
        GrowsTwice(k1, LeaveQueue(k1, t), EndWait(LeaveQueue(k1, t), t, E_TMOUT));
        DoneProtocol(k1, EndWait(LeaveQueue(k1, t), t, E_TMOUT));
      }
    case CyclicEvent(c) =>
      FlagsGrow(k1, FireEvent(k, e));
      GrownProtocol(k1, FireEvent(k, e));
    case AlarmEvent(a) =>
      FlagsGrow(k1, FireEvent(k, e));
      GrownProtocol(k1, FireEvent(k, e));
  }

  predicate IsTimerCall(c: Call) {
    c.StaCyc? || c.StpCyc? || c.StaAlm? || c.StpAlm? || c.IntEnter? || c.IntExit? || c.TickBegin? || c.TickEnd?
  }

  lemma TimerCallProtocol(k: KState, c: Call)
    requires Protocol(k) && Enabled(k, c) && IsTimerCall(c)
    ensures Protocol(Perform(k, c).k)
  {
    FlagsGrow(k, Perform(k, c).k);
    GrownProtocol(k, Perform(k, c).k);
  }

  lemma RotateCallProtocol(k: KState, pri: nat)
    requires Protocol(k) && (ReadyOf(k, pri) != [] ==> !Holder(k, ReadyOf(k, pri)[0]))
    ensures Protocol(KernelCalls.RotRdq(k, pri).k) && Protocol(KernelCalls.IrotRdq(k, pri).k)
  {
    RotateProtocol(k, pri);
    var k1 := Rotate(k, pri);
    FlagsGrow(k1, Settle(k1));
    GrownProtocol(k1, Settle(k1));
    FlagsGrow(k1, Request(k, k1));
    GrownProtocol(k1, Request(k, k1));
  }

  /** Dispatching is enabled already. */
  lemma EnableProtocol(k: KState)
    requires Protocol(k)
    ensures Protocol(KernelCalls.EnaDsp(k).k) && Protocol(KernelCalls.ChgIpm(k, true).k)
  {
    assert WithDispatch(k, false, true) == k;
    FlagsGrow(k, Settle(k));
    GrownProtocol(k, Settle(k));
  }

  // The calls that end waits or remember a request.
  ghost predicate IsWakeup(c: Call) {
    c.ActTsk? || c.IactTsk? || c.WupTsk? || c.IwupTsk? || c.RelWai? || c.IrelWai?
  }

  lemma WakeupCallProtocol(k: KState, c: Call)
    requires System(k) && Protocol(k) && Enabled(k, c) && IsWakeup(c)
    ensures Protocol(Perform(k, c).k)
  {
    match c
    case RelWai(t) => ReleaseProtocol(k, t);
    case IrelWai(t) => ReleaseProtocol(k, t);
    case ActTsk(t) => WakeupProtocol(k, c, t);
    case IactTsk(t) => WakeupProtocol(k, c, t);
    case WupTsk(t) => WakeupProtocol(k, c, t);
    case IwupTsk(t) => WakeupProtocol(k, c, t);
    case _ =>
  }

  // The other calls on tasks.
  lemma TaskCallProtocol(k: KState, c: Call)
    requires System(k) && Protocol(k) && Enabled(k, c) && Allowed(k, c) && IsTaskCall(c) && !IsWakeup(c)
    ensures Protocol(Perform(k, c).k)
  {
    match c
    case ExtTsk => ExtTskProtocol(k);
    case TerTsk(t) => TerTskProtocol(k, t);
    case ChgPri(t, pri) => ChgPriProtocol(k, t, pri);
    case SlpTsk(tmout) => SlpTskProtocol(k, tmout);
    case SusTsk(t) => SusTskProtocol(k, t);
    case RsmTsk(t) => RsmTskProtocol(k, t);
    case DlyTsk(time) => EnterWaitProtocol(k, Delay, Some(time));
    case _ =>
  }

  lemma ObjectCallProtocol(k: KState, c: Call)
    requires System(k) && Protocol(k) && Enabled(k, c) && Allowed(k, c) && IsObjectCall(c) && !IsTimerCall(c)
    ensures Protocol(Perform(k, c).k)
  {
    match c
    case LocMtx(m, tmout) => LocMtxProtocol(k, m, tmout);
    case UnlMtx(m) => UnlMtxProtocol(k, m);
    case IniMtx(m) => IniMtxProtocol(k, m);
    case SigSem(o) => SignalProtocol(k, o);
    case IsigSem(o) => SignalProtocol(k, o);
    case WaiSem(o, tmout) => WaiSemProtocol(k, o, tmout);
    case IniSem(o) => IniSemProtocol(k, o);
    case _ =>
  }

  lemma PlainProtocol(k: KState, c: Call)
    requires System(k) && Protocol(k) && Enabled(k, c) && Allowed(k, c) && IsPlainCall(c) && !IsTimerCall(c)
    ensures Protocol(Perform(k, c).k)
  {
    match c
    case RotRdq(pri) => RotateCallProtocol(k, pri);
    case IrotRdq(pri) => RotateCallProtocol(k, pri);
    case EnaDsp => EnableProtocol(k);
    case ChgIpm(_) => EnableProtocol(k);
    case Fire(e) => FireProtocol(k, e);
    case _ =>
  }

  /** The discipline keeps the stack. */
  lemma StepProtocol(k: KState, c: Call)
    requires System(k) && Protocol(k) && Enabled(k, c) && Allowed(k, c)
    ensures Protocol(Perform(k, c).k)
  {
    if IsWakeup(c) {
      WakeupCallProtocol(k, c);
    } else if IsTaskCall(c) {
      TaskCallProtocol(k, c);
    } else if IsTimerCall(c) {
      TimerCallProtocol(k, c);
    } else if IsObjectCall(c) {
      ObjectCallProtocol(k, c);
    } else if IsWaitCall(c) {
      WaitCallProtocol(k, c);
    } else {
      PlainProtocol(k, c);
    }
  }

  ghost predicate Disciplined(k: KState, calls: seq<Call>)
    requires CanRun(k, calls)
    decreases |calls|
  {
    calls != [] ==> Allowed(k, calls[0]) && Disciplined(Perform(k, calls[0]).k, calls[1..])
  }

  lemma {:induction false} RunProtocol(k: KState, calls: seq<Call>)
    requires System(k) && Protocol(k) && CanRun(k, calls) && Disciplined(k, calls)
    ensures Protocol(After(k, calls)) && System(After(k, calls))
    decreases |calls|
  {
    if calls != [] {
      StepOk(k, calls[0]);
      StepProtocol(k, calls[0]);
      RunProtocol(Perform(k, calls[0]).k, calls[1..]);
    }
  }

  lemma BootProtocol(cfg: Config, tick: Tick, act: seq<nat>, sta: seq<nat>)
    requires ValidConfig(cfg) && ValidTick(tick) && NoDup(act) && AllCeilings(cfg)
    requires (forall t :: t in act ==> t < |cfg.ipriority|) && (forall c :: c in sta ==> c < |cfg.cyclics|)
    ensures Protocol(Boot(cfg, tick, act, sta))
  {
    var k := Reset(cfg, tick);
    assert forall t: nat :: !Holder(k, t);
    ActivateAllGrows(k, act);
    var k1 := ActivateAll(k, act);
    ResetOk(cfg, tick);
    ActivateAllOk(k, act);
    StartAllOk(k1, sta);
    FlagsGrow(k1, StartAll(k1, sta));
    GrownProtocol(k, k1);
    GrownProtocol(k1, StartAll(k1, sta));
    FlagsGrow(StartAll(k1, sta), Boot(cfg, tick, act, sta));
    GrownProtocol(StartAll(k1, sta), Boot(cfg, tick, act, sta));
  }

  lemma {:induction false} ActivateAllGrows(k: KState, act: seq<nat>)
    requires forall t :: 0 <= t < |k.tcb| ==> !k.tcb[t].tstat.Waiting?
    ensures Grows(k, ActivateAll(k, act))
    decreases |act|
  {
    if act != [] {
      MakeActiveGrows(k, act[0]);
      ActivateAllGrows(MakeActive(k, act[0]), act[1..]);
      GrowsTwice(k, MakeActive(k, act[0]), ActivateAll(k, act));
    } else {
      FlagsGrow(k, k);
    }
  }

  /** From the start on, as long as the discipline is kept, no task ever waits for a mutex;
      in particular there is no deadlock over mutexes. */
  lemma NobodyWaits(cfg: Config, tick: Tick, act: seq<nat>, sta: seq<nat>, calls: seq<Call>, k: KState)
    requires IsRun(cfg, tick, act, sta, calls, k) && AllCeilings(cfg)
    requires Disciplined(Boot(cfg, tick, act, sta), calls)
    ensures forall t: nat, m: nat :: t < |k.tcb| && IsMutex(k.cfg, m) ==> !WaitsFor(k, t, m)
    ensures forall m: nat, tmout: int :: Enabled(k, LocMtx(m, tmout)) ==> LocksAtOnce(k, m, tmout)
  {
    BootOk(cfg, tick, act, sta);
    BootProtocol(cfg, tick, act, sta);
    RunProtocol(Boot(cfg, tick, act, sta), calls);
    forall t: nat, m: nat | t < |k.tcb| && IsMutex(k.cfg, m) ensures !WaitsFor(k, t, m) {
      if WaitsFor(k, t, m) { WaiterMayWait(k, t, m); }
    }
    forall m: nat, tmout: int | Enabled(k, LocMtx(m, tmout)) ensures LocksAtOnce(k, m, tmout) {
      NeverBlocks(k, m, tmout);
    }
  }
}
