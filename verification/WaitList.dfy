/** Waiting tasks: the order they are queued in, and what their WINFO holds beside it, a datum
    to send or a condition. */
module WaitList {
  import opened Prelude
  import opened KernelState

  // ---- the order of the tasks

  ghost predicate SortedIn(priority: seq<nat>, q: seq<nat>) {
    forall i, j :: 0 <= i < j < |q| ==> PriIn(priority, q[i]) <= PriIn(priority, q[j])
  }

  /** A wait queue: no task twice, and sorted by current priority if TA_TPRI is set. */
  ghost predicate Queued(tpri: bool, priority: seq<nat>, q: seq<nat>) {
    NoDup(q) && (tpri ==> SortedIn(priority, q))
  }

  /** A task joins the others, by its priority or behind them. */
  function Enqueued(tpri: bool, priority: seq<nat>, q: seq<nat>, t: nat): seq<nat> {
    if tpri then InsertTpri(priority, q, t) else q + [t]
  }

  /** `wobj_change_priority`: a task whose priority has changed is queued anew. */
  function Requeued(tpri: bool, priority: seq<nat>, q: seq<nat>, t: nat): seq<nat> {
    if tpri && t in q then InsertTpri(priority, Remove(q, t), t) else q
  }

  lemma SortedInPrepend(priority: seq<nat>, t: nat, q: seq<nat>)
    requires SortedIn(priority, q) && (q != [] ==> PriIn(priority, t) <= PriIn(priority, q[0]))
    ensures SortedIn(priority, [t] + q)
  {
  }

  lemma {:induction false} InsertOk(priority: seq<nat>, q: seq<nat>, t: nat)
    requires SortedIn(priority, q)
    ensures SortedIn(priority, InsertTpri(priority, q, t))
    ensures q != [] ==> InsertTpri(priority, q, t)[0] == if PriIn(priority, t) < PriIn(priority, q[0]) then t else q[0]
  {
    if q == [] || PriIn(priority, t) < PriIn(priority, q[0]) {
      SortedInPrepend(priority, t, q);
    } else {
      InsertOk(priority, q[1..], t);
      SortedInPrepend(priority, q[0], InsertTpri(priority, q[1..], t));
    }
  }

  lemma {:induction false} InsertMembers(priority: seq<nat>, q: seq<nat>, t: nat)
    ensures forall x :: x in InsertTpri(priority, q, t) <==> x in q || x == t
    ensures NoDup(q) && t !in q ==> NoDup(InsertTpri(priority, q, t))
  {
    if q != [] {
      assert q == [q[0]] + q[1..];
      InsertMembers(priority, q[1..], t);
      assert NoDup(q) && t !in q ==> q[0] !in InsertTpri(priority, q[1..], t);
    }
  }

  lemma EnqueuedOk(tpri: bool, priority: seq<nat>, q: seq<nat>, t: nat)
    requires Queued(tpri, priority, q) && t !in q
    ensures Queued(tpri, priority, Enqueued(tpri, priority, q, t))
    ensures forall x :: x in Enqueued(tpri, priority, q, t) <==> x in q || x == t
  {
    if tpri {
      InsertOk(priority, q, t);
      InsertMembers(priority, q, t);
    }
  }

  /** Task `t` has joined queue `q` at place `i`: behind every task of the same or a higher priority
      and in front of every lower one if the queue is ordered by priority, else last. */
  ghost predicate JoinedAt(tpri: bool, priority: seq<nat>, q: seq<nat>, t: nat, i: nat, q': seq<nat>) {
    && i <= |q| && q' == q[..i] + [t] + q[i..]
    && (if tpri then
          && (forall j :: 0 <= j < i ==> PriIn(priority, q[j]) <= PriIn(priority, t))
          && (forall j :: i <= j < |q| ==> PriIn(priority, t) < PriIn(priority, q[j]))
        else i == |q|)
  }

  lemma {:induction false} EnqueuedAt(tpri: bool, priority: seq<nat>, q: seq<nat>, t: nat) returns (i: nat)
    requires tpri ==> SortedIn(priority, q)
    ensures JoinedAt(tpri, priority, q, t, i, Enqueued(tpri, priority, q, t))
  {
    i := |q|;
    if tpri && q != [] {
      if PriIn(priority, t) < PriIn(priority, q[0]) {
        i := 0;
      } else {
        var i1 := EnqueuedAt(tpri, priority, q[1..], t);
        i := i1 + 1;
        assert q[..i] == [q[0]] + q[1..][..i1] && q[i..] == q[1..][i1..];
      }
    }
  }

  /** A queue not ordered by priority stays as it is; in the other the task leaves its place and
      joins again. */
  lemma RequeuedAt(tpri: bool, priority: seq<nat>, q: seq<nat>, t: nat) returns (i: nat)
    requires tpri ==> SortedIn(priority, Remove(q, t))
    ensures if tpri && t in q then JoinedAt(true, priority, Remove(q, t), t, i, Requeued(tpri, priority, q, t))
            else Requeued(tpri, priority, q, t) == q
  {
    i := 0;
    if tpri && t in q { i := EnqueuedAt(true, priority, Remove(q, t), t); }
  }

  /** Taking a task out of the queue, wherever it stands. */
  lemma DropAtOk(tpri: bool, priority: seq<nat>, q: seq<nat>, i: nat)
    requires Queued(tpri, priority, q) && i < |q|
    ensures Queued(tpri, priority, q[..i] + q[i + 1..])
  {
  }

  lemma {:induction false} RemoveSorted(priority: seq<nat>, q: seq<nat>, t: nat)
    requires SortedIn(priority, q)
    ensures SortedIn(priority, Remove(q, t))
    ensures Remove(q, t) != [] ==> PriIn(priority, q[0]) <= PriIn(priority, Remove(q, t)[0])
  {
    if q != [] && q[0] != t {
      RemoveSorted(priority, q[1..], t);
      SortedInPrepend(priority, q[0], Remove(q[1..], t));
    }
  }

  lemma RemoveOk(tpri: bool, priority: seq<nat>, q: seq<nat>, t: nat)
    requires Queued(tpri, priority, q)
    ensures Queued(tpri, priority, Remove(q, t))
    ensures forall x :: x in Remove(q, t) <==> x in q && x != t
  {
    RemoveNoDup(q, t);
    if tpri { RemoveSorted(priority, q, t); }
  }

  /** The priority of a task outside the queue does not matter to it. */
  lemma OthersSorted(priority: seq<nat>, q: seq<nat>, t: nat, pri: nat)
    requires SortedIn(priority, q) && t < |priority| && t !in q
    ensures SortedIn(priority[t := pri], q)
  {
    forall i | 0 <= i < |q| ensures PriIn(priority[t := pri], q[i]) == PriIn(priority, q[i]) {
      assert q[i] in q;
    }
  }

  /** Whoever's priority changes, the queue is in order afterwards, with the same tasks. */
  lemma RequeuedOk(tpri: bool, priority: seq<nat>, q: seq<nat>, t: nat, pri: nat)
    requires Queued(tpri, priority, q) && t < |priority|
    ensures var p := priority[t := pri];
            Queued(tpri, p, Requeued(tpri, p, q, t)) && forall x :: x in Requeued(tpri, p, q, t) <==> x in q
  {
    var p := priority[t := pri];
    if tpri && t in q {
      RemoveOk(tpri, priority, q, t);
      OthersSorted(priority, Remove(q, t), t, pri);
      EnqueuedOk(tpri, p, Remove(q, t), t);
    } else if tpri {
      OthersSorted(priority, q, t, pri);
    }
  }

  // ---- tasks with their data

  datatype Entry<T> = Entry(tsk: nat, info: T)

  function Tasks<T>(s: seq<Entry<T>>): (r: seq<nat>)
    ensures |r| == |s| && forall i :: 0 <= i < |s| ==> r[i] == s[i].tsk
  {
    seq(|s|, i requires 0 <= i < |s| => s[i].tsk)
  }

  function Join<T>(tpri: bool, priority: seq<nat>, s: seq<Entry<T>>, x: Entry<T>): seq<Entry<T>> {
    if !tpri || s == [] then s + [x]
    else if PriIn(priority, x.tsk) < PriIn(priority, s[0].tsk) then [x] + s
    else [s[0]] + Join(tpri, priority, s[1..], x)
  }

  function Without<T>(s: seq<Entry<T>>, t: nat): (r: seq<Entry<T>>)
    ensures |r| <= |s| && forall w :: w in r ==> w in s
  {
    if s == [] then [] else if s[0].tsk == t then s[1..] else [s[0]] + Without(s[1..], t)
  }

  function Rejoin<T>(tpri: bool, priority: seq<nat>, s: seq<Entry<T>>, t: nat): seq<Entry<T>> {
    if tpri && t in Tasks(s) then Join(tpri, priority, Without(s, t), EntryOf(s, t)) else s
  }

  function EntryOf<T>(s: seq<Entry<T>>, t: nat): (x: Entry<T>)
    requires t in Tasks(s)
    ensures x in s && x.tsk == t
  {
    if s[0].tsk == t then s[0]
    else
      assert Tasks(s) == [s[0].tsk] + Tasks(s[1..]);
      EntryOf(s[1..], t)
  }

  lemma {:induction false} JoinMembers<T>(tpri: bool, priority: seq<nat>, s: seq<Entry<T>>, x: Entry<T>)
    ensures |Join(tpri, priority, s, x)| == |s| + 1
    ensures forall w :: w in Join(tpri, priority, s, x) <==> w in s || w == x
  {
    if s != [] {
      JoinMembers(tpri, priority, s[1..], x);
      assert s == [s[0]] + s[1..];
    }
  }

  /** The tasks stand in the order in which the kernel queues them. */
  lemma {:induction false} JoinIsEnqueued<T>(tpri: bool, priority: seq<nat>, s: seq<Entry<T>>, x: Entry<T>)
    ensures Tasks(Join(tpri, priority, s, x)) == Enqueued(tpri, priority, Tasks(s), x.tsk)
  {
    if tpri && s != [] {
      JoinIsEnqueued(tpri, priority, s[1..], x);
      assert Tasks(s)[1..] == Tasks(s[1..]);
      var r := Join(tpri, priority, s[1..], x);
      assert Tasks([s[0]] + r) == [s[0].tsk] + Tasks(r);
    }
  }

  lemma {:induction false} WithoutIsRemove<T>(s: seq<Entry<T>>, t: nat)
    ensures Tasks(Without(s, t)) == Remove(Tasks(s), t)
  {
    if s != [] {
      assert Tasks(s)[1..] == Tasks(s[1..]);
      if s[0].tsk != t {
        WithoutIsRemove(s[1..], t);
        var r := Without(s[1..], t);
        assert Tasks([s[0]] + r) == [s[0].tsk] + Tasks(r);
      }
    }
  }

  lemma RejoinIsRequeued<T>(tpri: bool, priority: seq<nat>, s: seq<Entry<T>>, t: nat)
    ensures Tasks(Rejoin(tpri, priority, s, t)) == Requeued(tpri, priority, Tasks(s), t)
  {
    if tpri && t in Tasks(s) {
      WithoutIsRemove(s, t);
      JoinIsEnqueued(tpri, priority, Without(s, t), EntryOf(s, t));
    }
  }

  lemma {:induction false} WithoutMembers<T>(s: seq<Entry<T>>, t: nat)
    requires t in Tasks(s)
    ensures |Without(s, t)| == |s| - 1
    ensures forall w :: w in s <==> w in Without(s, t) || w == EntryOf(s, t)
  {
    assert s == [s[0]] + s[1..];
    if s[0].tsk != t {
      assert Tasks(s) == [s[0].tsk] + Tasks(s[1..]);
      WithoutMembers(s[1..], t);
    }
  }

  lemma RejoinMembers<T>(tpri: bool, priority: seq<nat>, s: seq<Entry<T>>, t: nat)
    ensures |Rejoin(tpri, priority, s, t)| == |s|
    ensures forall w :: w in Rejoin(tpri, priority, s, t) <==> w in s
  {
    if tpri && t in Tasks(s) {
      WithoutMembers(s, t);
      JoinMembers(tpri, priority, Without(s, t), EntryOf(s, t));
    }
  }

  ghost predicate Listed<T>(tpri: bool, priority: seq<nat>, s: seq<Entry<T>>) {
    Queued(tpri, priority, Tasks(s))
  }

  lemma JoinOk<T>(tpri: bool, priority: seq<nat>, s: seq<Entry<T>>, x: Entry<T>)
    requires Listed(tpri, priority, s) && x.tsk !in Tasks(s)
    ensures Listed(tpri, priority, Join(tpri, priority, s, x))
  {
    JoinIsEnqueued(tpri, priority, s, x);
    EnqueuedOk(tpri, priority, Tasks(s), x.tsk);
  }

  lemma WithoutOk<T>(tpri: bool, priority: seq<nat>, s: seq<Entry<T>>, t: nat)
    requires Listed(tpri, priority, s)
    ensures Listed(tpri, priority, Without(s, t)) && t !in Tasks(Without(s, t))
  {
    WithoutIsRemove(s, t);
    RemoveOk(tpri, priority, Tasks(s), t);
  }

  lemma RejoinOk<T>(tpri: bool, priority: seq<nat>, s: seq<Entry<T>>, t: nat, pri: nat)
    requires Listed(tpri, priority, s) && t < |priority|
    ensures Listed(tpri, priority[t := pri], Rejoin(tpri, priority[t := pri], s, t))
  {
    RejoinIsRequeued(tpri, priority[t := pri], s, t);
    RequeuedOk(tpri, priority, Tasks(s), t, pri);
  }

  /** The entry at place `i` leaves. */
  lemma DropOk<T>(tpri: bool, priority: seq<nat>, s: seq<Entry<T>>, i: nat)
    requires Listed(tpri, priority, s) && i < |s|
    ensures Listed(tpri, priority, s[..i] + s[i + 1..])
  {
    DropAtOk(tpri, priority, Tasks(s), i);
    assert Tasks(s[..i] + s[i + 1..]) == Tasks(s)[..i] + Tasks(s)[i + 1..];
  }

  lemma FirstOk<T>(tpri: bool, priority: seq<nat>, s: seq<Entry<T>>)
    requires Listed(tpri, priority, s) && s != []
    ensures Listed(tpri, priority, s[1..])
  {
    DropOk(tpri, priority, s, 0);
    assert s[..0] + s[1..] == s[1..];
  }
}
