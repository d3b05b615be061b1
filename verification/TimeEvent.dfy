/** The time event heap as the kernel keeps it, with the clock variables it is compared
    against.  It refines `TimerState`: `tm` is what the concrete fields stand for. */
module TimeEvent {
  import opened Prelude
  import opened EventTime
  import opened Timer
  import opened HeapOrder

  class TimeEventHeap {
    const tick: Tick
    const tmevtHeap: array<TMEVTN>      // node `i` of the heap is element `i - 1`
    var index: map<TMEVTB, nat>         // the `index` field of every time event block
    var lastIndex: nat
    var currentTime: EVTTIM
    var minTime: EVTTIM
    var nextTime: EVTTIM
    var nextSubtime: nat
    ghost var tm: TimerState

    ghost predicate Clock()
      reads this
    {
      && tm.tick == tick
      && TimerOk(tm)
      && currentTime == Wrap(tm.current)
      && minTime == Wrap(tm.min)
      && nextTime == Wrap(tm.next)
      && nextSubtime == tm.sub
    }

    ghost predicate Valid()
      reads this, tmevtHeap
    {
      && Clock()
      && lastIndex == |tm.pending|
      && Linked(tmevtHeap[..], index, lastIndex, tm.pending, 0)
      && Ordered(tmevtHeap[..], lastIndex, tm.pending, 0)
    }

    /** `initialize_tmevt`: time zero, nothing pending. */
    constructor (tick: Tick, heap: array<TMEVTN>)
      requires ValidTick(tick)
      ensures Valid() && this.tick == tick && tmevtHeap == heap
      ensures tm == Initial(tick)
    {
      this.tick := tick;
      tmevtHeap := heap;
      index := map[];
      lastIndex := 0;
      currentTime := 0;
      minTime := 0;
      nextTime := tick.whole;
      nextSubtime := tick.frac;
      tm := Initial(tick);
    }

    function BaseTime(): EVTTIM
      reads this
    {
      AddWrap(nextTime, if nextSubtime > 0 then 1 else 0)
    }

    lemma BaseTimeIsBase()
      requires Clock()
      ensures BaseTime() == Wrap(Base(tm))
    {
      WrapAdd(tm.next, if nextSubtime > 0 then 1 else 0);
    }

    // ---- searching for the insertion position

    /** Moves the vacancy up to where an event of time `time` belongs. */
    method TmevtUp(start: nat, time: EVTTIM,
                   ghost due: map<TMEVTB, nat>, ghost d: nat, ghost m: nat) returns (hole: nat)
      requires minTime == Wrap(m) && time == Wrap(d) && InWindow(m, d)
      requires forall e :: e in due ==> InWindow(m, due[e])
      requires 1 <= start <= lastIndex
      requires Linked(tmevtHeap[..], index, lastIndex, due, start)
      requires Ordered(tmevtHeap[..], lastIndex, due, start)
      requires AboveChildren(tmevtHeap[..], lastIndex, due, start, d)
      modifies tmevtHeap, `index
      ensures 1 <= hole <= lastIndex
      ensures Linked(tmevtHeap[..], index, lastIndex, due, hole)
      ensures Ordered(tmevtHeap[..], lastIndex, due, hole)
      ensures AboveChildren(tmevtHeap[..], lastIndex, due, hole, d)
      ensures BelowParent(tmevtHeap[..], due, hole, d)
      ensures tmevtHeap[lastIndex..] == old(tmevtHeap[lastIndex..])
    {
      hole := start;
      while hole > 1
        invariant 1 <= hole <= lastIndex
        invariant Linked(tmevtHeap[..], index, lastIndex, due, hole)
        invariant Ordered(tmevtHeap[..], lastIndex, due, hole)
        invariant AboveChildren(tmevtHeap[..], lastIndex, due, hole, d)
        invariant tmevtHeap[lastIndex..] == old(tmevtHeap[lastIndex..])
      {
        ghost var h, ix := tmevtHeap[..], index;
        var parent := hole / 2;
        assert NodeLinked(h, ix, due, parent);
        ComparisonsAgree(m, DueAt(h, due, parent), d);
        if EvttimLe(tmevtHeap[parent - 1].time, time, minTime) {
          break;
        }
        MoveUpKeepsOrder(h, ix, lastIndex, due, hole, d);
        tmevtHeap[hole - 1] := tmevtHeap[parent - 1];
        index := index[tmevtHeap[hole - 1].p_tmevtb := hole];
        assert tmevtHeap[..] == h[hole - 1 := h[parent - 1]];
        hole := parent;
      }
    }

    /** Of the children of the vacancy, one that is due earliest. */
    method EarlierChild(hole: nat, ghost due: map<TMEVTB, nat>, ghost m: nat) returns (child: nat)
      requires minTime == Wrap(m) && forall e :: e in due ==> InWindow(m, due[e])
      requires 1 <= hole && 2 * hole <= lastIndex
      requires Linked(tmevtHeap[..], index, lastIndex, due, hole)
      ensures 2 <= child <= lastIndex && child / 2 == hole
      ensures AboveChildren(tmevtHeap[..], lastIndex, due, hole, DueAt(tmevtHeap[..], due, child))
    {
      ghost var h := tmevtHeap[..];
      child := 2 * hole;
      assert NodeLinked(h, index, due, child);
      if child + 1 <= lastIndex {
        assert NodeLinked(h, index, due, child + 1);
        ComparisonsAgree(m, DueAt(h, due, child + 1), DueAt(h, due, child));
        if EvttimLt(tmevtHeap[child].time, tmevtHeap[child - 1].time, minTime) {
          child := child + 1;
        }
      }
    }

    /** Moves the vacancy down to where an event of time `time` belongs. */
    method TmevtDown(start: nat, time: EVTTIM,
                     ghost due: map<TMEVTB, nat>, ghost d: nat, ghost m: nat) returns (hole: nat)
      requires minTime == Wrap(m) && time == Wrap(d) && InWindow(m, d)
      requires forall e :: e in due ==> InWindow(m, due[e])
      requires 1 <= start <= lastIndex
      requires Linked(tmevtHeap[..], index, lastIndex, due, start)
      requires Ordered(tmevtHeap[..], lastIndex, due, start)
      requires BelowParent(tmevtHeap[..], due, start, d)
      modifies tmevtHeap, `index
      ensures 1 <= hole <= lastIndex
      ensures Linked(tmevtHeap[..], index, lastIndex, due, hole)
      ensures Ordered(tmevtHeap[..], lastIndex, due, hole)
      ensures AboveChildren(tmevtHeap[..], lastIndex, due, hole, d)
      ensures BelowParent(tmevtHeap[..], due, hole, d)
      ensures tmevtHeap[lastIndex..] == old(tmevtHeap[lastIndex..])
    {
      hole := start;
      while 2 * hole <= lastIndex
        invariant 1 <= hole <= lastIndex
        invariant Linked(tmevtHeap[..], index, lastIndex, due, hole)
        invariant Ordered(tmevtHeap[..], lastIndex, due, hole)
        invariant BelowParent(tmevtHeap[..], due, hole, d)
        invariant tmevtHeap[lastIndex..] == old(tmevtHeap[lastIndex..])
        decreases lastIndex - hole
      {
        ghost var h, ix := tmevtHeap[..], index;
        var child := EarlierChild(hole, due, m);
        assert NodeLinked(h, ix, due, child);
        ComparisonsAgree(m, d, DueAt(h, due, child));
        if EvttimLe(time, tmevtHeap[child - 1].time, minTime) {
          break;
        }
        MoveDownKeepsOrder(h, ix, lastIndex, due, hole, child, d);
        tmevtHeap[hole - 1] := tmevtHeap[child - 1];
        index := index[tmevtHeap[hole - 1].p_tmevtb := hole];
        assert tmevtHeap[..] == h[hole - 1 := h[child - 1]];
        hole := child;
      }
    }

    // ---- registering and cancelling

    method TmevtbInsert(e: TMEVTB, time: EVTTIM, ghost d: nat)
      requires Valid() && e !in tm.pending && lastIndex < tmevtHeap.Length
      requires time == Wrap(d) && TimerOk(Timer.EnqueueAt(tm, e, d))
      modifies this, tmevtHeap
      ensures Valid() && tm == Timer.EnqueueAt(old(tm), e, d)
    {
      ghost var due, last, vacant := tm.pending, lastIndex, lastIndex + 1;
      PendingInWindow(Timer.EnqueueAt(tm, e, d));
      assert Timer.EnqueueAt(tm, e, d).pending[e] == d;
      PendingInWindow(tm);
      lastIndex := lastIndex + 1;
      ghost var h := tmevtHeap[..];
      forall i | 1 <= i <= lastIndex && i != vacant ensures NodeLinked(h, index, due, i) {
      }
      forall x | x in due ensures EventLinked(h, index, lastIndex, vacant, x) {
        assert EventLinked(h, index, last, 0, x);
      }
      forall i | 2 <= i <= lastIndex ensures OrderedAt(h, due, vacant, i) {
        if i <= last { assert OrderedAt(h, due, 0, i); }
      }
      var hole := TmevtUp(lastIndex, time, due, d, tm.min);
      PlaceCompletes(tmevtHeap[..], index, lastIndex, due, hole, e, d);
      ghost var h' := tmevtHeap[..];
      tmevtHeap[hole - 1] := TMEVTN(time, e);
      assert tmevtHeap[..] == h'[hole - 1 := TMEVTN(time, e)];
      index := index[e := hole];
      tm := Timer.EnqueueAt(tm, e, d);
    }

    /** Fills node `start`, whose event is being deleted, with the event of the node
        after the last one; `up` says that this event is due before the parent of `start`. */
    method FillFromLast(start: nat, up: bool, ghost due: map<TMEVTB, nat>, ghost m: nat)
      requires minTime == Wrap(m) && forall e :: e in due ==> InWindow(m, due[e])
      requires 1 <= start <= lastIndex
      requires Linked(tmevtHeap[..], index, lastIndex + 1, due, 0)
      requires Ordered(tmevtHeap[..], lastIndex + 1, due, 0)
      requires up <==> start > 1 && DueAt(tmevtHeap[..], due, lastIndex + 1) < DueAt(tmevtHeap[..], due, start / 2)
      modifies tmevtHeap, `index
      ensures Linked(tmevtHeap[..], index, lastIndex, due - {old(tmevtHeap[start - 1].p_tmevtb)}, 0)
      ensures Ordered(tmevtHeap[..], lastIndex, due - {old(tmevtHeap[start - 1].p_tmevtb)}, 0)
    {
      ghost var last, h, ix := lastIndex, tmevtHeap[..], index;
      ghost var e, f := h[start - 1].p_tmevtb, h[last].p_tmevtb;
      assert NodeLinked(h, ix, due, last + 1) && NodeLinked(h, ix, due, start);
      ghost var d := due[f];
      ghost var rest := due - {e} - {f};
      RestLinked(h, ix, last, due, start);
      var time := tmevtHeap[lastIndex].time;
      var hole;
      if up {
        var parent := start / 2;
        assert NodeLinked(h, ix, rest, parent);
        MoveUpKeepsOrder(h, ix, last, rest, start, d);
        tmevtHeap[start - 1] := tmevtHeap[parent - 1];
        index := index[tmevtHeap[start - 1].p_tmevtb := start];
        assert tmevtHeap[..] == h[start - 1 := h[parent - 1]];
        assert tmevtHeap[lastIndex..] == h[lastIndex..];
        hole := TmevtUp(parent, time, rest, d, m);
      } else {
        hole := TmevtDown(start, time, rest, d, m);
      }
      PlaceCompletes(tmevtHeap[..], index, last, rest, hole, f, d);
      ghost var h' := tmevtHeap[..];
      assert h'[last] == h'[last..][0] == h[last..][0] == TMEVTN(Wrap(d), f);
      tmevtHeap[hole - 1] := tmevtHeap[lastIndex];
      assert tmevtHeap[..] == h'[hole - 1 := TMEVTN(Wrap(d), f)];
      index := index[tmevtHeap[hole - 1].p_tmevtb := hole];
      assert rest[f := d] == due - {e};
    }

    /** Is the event of the last node due before the parent of node `i`? */
    method BeforeParent(i: nat, ghost due: map<TMEVTB, nat>, ghost m: nat) returns (up: bool)
      requires minTime == Wrap(m) && forall e :: e in due ==> InWindow(m, due[e])
      requires 1 <= i <= lastIndex && Linked(tmevtHeap[..], index, lastIndex, due, 0)
      ensures up <==> i > 1 && DueAt(tmevtHeap[..], due, lastIndex) < DueAt(tmevtHeap[..], due, i / 2)
    {
      ghost var h := tmevtHeap[..];
      up := false;
      if i > 1 {
        assert NodeLinked(h, index, due, i / 2) && NodeLinked(h, index, due, lastIndex);
        ComparisonsAgree(m, DueAt(h, due, lastIndex), DueAt(h, due, i / 2));
        up := EvttimLt(tmevtHeap[lastIndex - 1].time, tmevtHeap[i / 2 - 1].time, minTime);
      }
    }

    /** Deletes the event of node `i`, the node after the last one being given up. */
    method CloseGap(i: nat, up: bool, ghost due: map<TMEVTB, nat>, ghost m: nat)
      requires minTime == Wrap(m) && forall e :: e in due ==> InWindow(m, due[e])
      requires 1 <= i <= lastIndex + 1 && lastIndex > 0
      requires Linked(tmevtHeap[..], index, lastIndex + 1, due, 0)
      requires Ordered(tmevtHeap[..], lastIndex + 1, due, 0)
      requires up <==> i > 1 && DueAt(tmevtHeap[..], due, lastIndex + 1) < DueAt(tmevtHeap[..], due, i / 2)
      modifies tmevtHeap, `index
      ensures Linked(tmevtHeap[..], index, lastIndex, due - {old(tmevtHeap[i - 1].p_tmevtb)}, 0)
      ensures Ordered(tmevtHeap[..], lastIndex, due - {old(tmevtHeap[i - 1].p_tmevtb)}, 0)
    {
      if i > lastIndex {
        // the last node itself: it is not due before its parent, the downward search
        // stops at once, and the node is copied onto itself
        ghost var h := tmevtHeap[..];
        assert NodeLinked(h, index, due, i);
        LastLinked(h, index, lastIndex, due, h[i - 1].p_tmevtb);
        assert OrderedAt(h, due, 0, i);
        assert !up;
        tmevtHeap[i - 1] := tmevtHeap[lastIndex];
        assert tmevtHeap[..] == h;
      } else {
        FillFromLast(i, up, due, m);
      }
    }

    /** Deletes any registered event, wherever its node is. */
    method TmevtbDelete(e: TMEVTB)
      requires Valid() && e in tm.pending
      modifies this, tmevtHeap
      ensures Valid() && tm == Timer.Dequeue(old(tm), e)
    {
      ghost var due := tm.pending;
      assert EventLinked(tmevtHeap[..], index, lastIndex, 0, e);
      var i := index[e];
      PendingInWindow(tm);
      DequeueOk(tm, e);
      var up := BeforeParent(i, due, tm.min);
      lastIndex := lastIndex - 1;
      if lastIndex == 0 {
        OnlyEvent(due, e);
      } else {
        CloseGap(i, up, due, tm.min);
      }
      tm := Timer.Dequeue(tm, e);
    }

    method TmevtbDeleteTop()
      requires Valid() && lastIndex > 0
      modifies this, tmevtHeap
      ensures Valid() && tm == Timer.Dequeue(old(tm), old(tmevtHeap[0].p_tmevtb))
    {
      ghost var due, h := tm.pending, tmevtHeap[..];
      ghost var e := h[0].p_tmevtb;
      PendingInWindow(tm);
      DequeueOk(tm, e);
      assert NodeLinked(h, index, due, 1);
      lastIndex := lastIndex - 1;
      if lastIndex == 0 {
        OnlyEvent(due, e);
        tm := Timer.Dequeue(tm, e);
        return;
      }
      FillFromLast(1, false, due, tm.min);
      tm := Timer.Dequeue(tm, e);
    }

    /** `tmevtb_enqueue`: due `time` after the time of the next tick, rounded up. */
    method TmevtbEnqueue(e: TMEVTB, time: nat)
      requires Valid() && e !in tm.pending && lastIndex < tmevtHeap.Length && time <= TMAX_RELTIM
      modifies this, tmevtHeap
      ensures Valid() && tm == Timer.Enqueue(old(tm), e, time)
    {
      EnqueueOk(tm, e, time);
      BaseTimeIsBase();
      WrapAdd(Base(tm), time);
      TmevtbInsert(e, AddWrap(BaseTime(), time), Base(tm) + time);
    }

    /** `tmevtb_enqueue_evttim`: due at the stored time of `d`. */
    method TmevtbEnqueueEvttim(e: TMEVTB, time: EVTTIM, ghost d: nat)
      requires Valid() && e !in tm.pending && lastIndex < tmevtHeap.Length
      requires time == Wrap(d) && TimerOk(Timer.EnqueueAt(tm, e, d))
      modifies this, tmevtHeap
      ensures Valid() && tm == Timer.EnqueueAt(old(tm), e, d)
    {
      TmevtbInsert(e, time, d);
    }

    /** Remaining time of an event, counted from the origin of relative times, so that
        asking right after an enqueue gives back the time asked for. */
    method TmevtLefttim(e: TMEVTB) returns (left: nat)
      requires Valid() && e in tm.pending
      ensures left == Lefttim(tm, e)
    {
      assert EventLinked(tmevtHeap[..], index, lastIndex, 0, e);
      assert NodeLinked(tmevtHeap[..], index, tm.pending, index[e]);
      var time := tmevtHeap[index[e] - 1].time;
      PendingInWindow(tm);
      ghost var due := tm.pending[e];
      ComparisonsAgree(tm.min, due, tm.next);
      if EvttimLe(time, nextTime, minTime) {
        left := 0;
      } else {
        BaseTimeIsBase();
        SubWrapExact(Base(tm), due);
        left := SubWrap(time, BaseTime());
      }
    }

    // ---- the parts of `signal_time` around its loop

    /** Advances the clock variables by one period. */
    method AdvanceClock()
      requires Valid() && !tm.ticking
      modifies this
      ensures Valid() && tm == BeginTick(old(tm))
    {
      BeginTickOk(tm);
      currentTime := nextTime;
      nextSubtime := nextSubtime + tick.frac;
      nextTime := AddWrap(currentTime, tick.whole);
      WrapAdd(tm.next, tick.whole);
      if nextSubtime >= tick.deno {
        nextSubtime := nextSubtime - tick.deno;
        nextTime := AddWrap(nextTime, 1);
        WrapAdd(tm.next + tick.whole, 1);
      }
      tm := BeginTick(tm);
    }

    /** Is there an event left to fire in this tick?  If so, which one is at the root, and
        its time. */
    method NextDue() returns (e: Option<TMEVTB>, time: EVTTIM)
      requires Valid() && tm.ticking
      ensures e.Some? ==> e.value in tm.pending && time == Wrap(tm.pending[e.value])
      ensures e.Some? ==> lastIndex > 0 && tmevtHeap[0].p_tmevtb == e.value && Fireable(tm, e.value)
      ensures e.None? ==> Drained(tm)
    {
      e, time := None, 0;
      if lastIndex > 0 {
        RootIsMinimum(tmevtHeap[..], index, lastIndex, tm.pending);
        PendingInWindow(tm);
        assert NodeLinked(tmevtHeap[..], index, tm.pending, 1);
        ComparisonsAgree(tm.min, tm.pending[tmevtHeap[0].p_tmevtb], tm.current);
        if EvttimLe(tmevtHeap[0].time, currentTime, minTime) {
          e, time := Some(tmevtHeap[0].p_tmevtb), tmevtHeap[0].time;
        }
      } else {
        assert tm.pending == map[];
      }
    }

    /** Moves the origin of the comparisons up to the current time. */
    method CloseTick()
      requires Valid() && Drained(tm)
      modifies this
      ensures Valid() && tm == EndTick(old(tm))
    {
      EndTickOk(tm);
      minTime := currentTime;
      tm := EndTick(tm);
    }
  }

  lemma OnlyEvent(due: map<TMEVTB, nat>, e: TMEVTB)
    requires |due| == 1 && e in due
    ensures due - {e} == map[]
  {
    assert |due.Keys - {e}| == 0;
    assert (due - {e}).Keys == {};
  }

  /** What remains linked when node `start` is vacated and the last node is set aside. */
  lemma RestLinked(h: seq<TMEVTN>, ix: map<TMEVTB, nat>, last: nat, due: map<TMEVTB, nat>, start: nat)
    requires Linked(h, ix, last + 1, due, 0) && Ordered(h, last + 1, due, 0) && 1 <= start <= last
    ensures var rest := due - {h[start - 1].p_tmevtb} - {h[last].p_tmevtb};
            && Linked(h, ix, last, rest, start)
            && Ordered(h, last, rest, start)
            && (start > 1 ==> DueAt(h, rest, start / 2) == DueAt(h, due, start / 2))
  {
    var rest := due - {h[start - 1].p_tmevtb} - {h[last].p_tmevtb};
    assert NodeLinked(h, ix, due, last + 1) && NodeLinked(h, ix, due, start);
    forall i | 1 <= i <= last && i != start
      ensures NodeLinked(h, ix, rest, i) && DueAt(h, rest, i) == DueAt(h, due, i)
    {
      assert NodeLinked(h, ix, due, i);
    }
    forall x | x in rest ensures EventLinked(h, ix, last, start, x) {
      assert EventLinked(h, ix, last + 1, 0, x);
    }
    VacateKeepsOrder(h, ix, last + 1, last, due, rest, start);
  }

  lemma LastLinked(h: seq<TMEVTN>, ix: map<TMEVTB, nat>, last: nat, due: map<TMEVTB, nat>, e: TMEVTB)
    requires Linked(h, ix, last + 1, due, 0) && Ordered(h, last + 1, due, 0)
    requires e in due && ix[e] == last + 1
    ensures Linked(h, ix, last, due - {e}, 0) && Ordered(h, last, due - {e}, 0)
    ensures last >= 1 ==> DueAt(h, due, (last + 1) / 2) <= DueAt(h, due, last + 1)
  {
    assert last >= 1 ==> OrderedAt(h, due, 0, last + 1);
    assert EventLinked(h, ix, last + 1, 0, e);
    forall i | 1 <= i <= last
      ensures NodeLinked(h, ix, due - {e}, i) && DueAt(h, due - {e}, i) == DueAt(h, due, i)
    {
      assert NodeLinked(h, ix, due, i);
    }
    forall x | x in due - {e} ensures EventLinked(h, ix, last, 0, x) {
      assert EventLinked(h, ix, last + 1, 0, x);
    }
    forall i | 2 <= i <= last ensures OrderedAt(h, due - {e}, 0, i) {
      assert OrderedAt(h, due, 0, i);
    }
  }
}
