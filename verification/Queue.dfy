/** The intrusive circular doubly linked list every kernel queue is made of, at the level of
    its pointers.  A task's link is its first field, so a link stands for a task; a queue is
    the header followed by the links of its members, and the operations do to that sequence
    what the kernel's queue operations do to sequences of tasks. */
module Queue {
  import opened Prelude
  import opened KernelState
  import opened KernelCache

  class Link {
    const tskid: nat
    var pNext: Link
    var pPrev: Link

    /** `queue_initialize`. */
    constructor (tskid: nat)
      ensures Ring([this]) && this.tskid == tskid
    {
      this.tskid := tskid;
      pNext := this;
      pPrev := this;
    }
  }

  /** The header and the members, linked both ways in a circle. */
  ghost predicate Ring(s: seq<Link>)
    reads s
  {
    && s != []
    && (forall i, j :: 0 <= i < j < |s| ==> s[i] != s[j])
    && (forall i :: 0 <= i < |s| ==> Joined(s[i], s[if i + 1 < |s| then i + 1 else 0]))
  }

  ghost predicate Joined(a: Link, b: Link)
    reads a, b
  {
    a.pNext == b && b.pPrev == a
  }

  /** The tasks in the queue, in order. */
  ghost function Members(s: seq<Link>): (r: seq<nat>)
    requires s != []
    ensures |r| == |s| - 1 && forall i :: 0 <= i < |r| ==> r[i] == s[i + 1].tskid
  {
    seq(|s| - 1, i requires 0 <= i < |s| - 1 => s[i + 1].tskid)
  }

  /** Each task has one link. */
  ghost predicate OwnLinks(s: seq<Link>) {
    forall i, j :: 0 <= i < j < |s| ==> s[i].tskid != s[j].tskid
  }

  /** `queue_empty`. */
  method QueueEmpty(queue: Link, ghost s: seq<Link>) returns (r: bool)
    requires Ring(s) && s[0] == queue
    ensures r <==> Members(s) == []
  {
    r := queue.pNext == queue;
    assert Joined(s[0], s[if 1 < |s| then 1 else 0]);
  }

  /** `queue_insert_prev`: before entry `i`, or at the end if that is the header. */
  method QueueInsertPrev(queue: Link, entry: Link, ghost s: seq<Link>, ghost i: nat) returns (ghost s': seq<Link>)
    requires Ring(s) && i < |s| && s[i] == queue && entry !in s
    modifies s, entry
    ensures s' == (if i == 0 then s + [entry] else s[..i] + [entry] + s[i..]) && Ring(s')
    ensures Members(s') == if i == 0 then Members(s) + [entry.tskid]
                           else Members(s)[..i - 1] + [entry.tskid] + Members(s)[i - 1..]
  {
    ghost var k := if i == 0 then |s| - 1 else i - 1;
    assert Joined(s[k], s[if k + 1 < |s| then k + 1 else 0]);
    entry.pPrev := queue.pPrev;
    entry.pNext := queue;
    queue.pPrev.pNext := entry;
    queue.pPrev := entry;
    s' := if i == 0 then s + [entry] else s[..i] + [entry] + s[i..];
    forall j | 0 <= j < |s'| ensures Joined(s'[j], s'[if j + 1 < |s'| then j + 1 else 0]) {
      if i == 0 {
        if j < |s| - 1 { assert old(Joined(s[j], s[j + 1])); }
      } else if j < i - 1 {
        assert old(Joined(s[j], s[j + 1]));
      } else if j > i {
        assert old(Joined(s[j - 1], s[if j < |s| then j else 0]));
      }
    }
    MembersOfMore(s, entry, i);
  }

  lemma MembersOfMore(s: seq<Link>, entry: Link, i: nat)
    requires i < |s|
    ensures Members(s + [entry]) == Members(s) + [entry.tskid]
    ensures i > 0 ==> Members(s[..i] + [entry] + s[i..]) == Members(s)[..i - 1] + [entry.tskid] + Members(s)[i - 1..]
  {
  }

  /** `queue_insert_next` on the header: the new entry comes first. */
  method QueueInsertNext(queue: Link, entry: Link, ghost s: seq<Link>) returns (ghost s': seq<Link>)
    requires Ring(s) && s[0] == queue && entry !in s
    modifies s, entry
    ensures s' == [queue, entry] + s[1..] && Ring(s') && Members(s') == [entry.tskid] + Members(s)
  {
    assert Joined(s[0], s[if 1 < |s| then 1 else 0]);
    entry.pNext := queue.pNext;
    entry.pPrev := queue;
    queue.pNext.pPrev := entry;
    queue.pNext := entry;
    s' := [queue, entry] + s[1..];
    forall j | 0 <= j < |s'| ensures Joined(s'[j], s'[if j + 1 < |s'| then j + 1 else 0]) {
      if j >= 2 { assert old(Joined(s[j - 1], s[if j < |s| then j else 0])); }
    }
  }

  /** `queue_delete`. */
  method QueueDelete(entry: Link, ghost s: seq<Link>, ghost i: nat) returns (ghost s': seq<Link>)
    requires Ring(s) && 0 < i < |s| && s[i] == entry
    modifies s
    ensures s' == s[..i] + s[i + 1..] && Ring(s')
    ensures OwnLinks(s) ==> Members(s') == Remove(Members(s), entry.tskid)
  {
    ghost var k := if i + 1 < |s| then i + 1 else 0;
    assert Joined(s[i - 1], s[i]) && Joined(s[i], s[k]);
    entry.pPrev.pNext := entry.pNext;
    entry.pNext.pPrev := entry.pPrev;
    s' := s[..i] + s[i + 1..];
    forall j | 0 <= j < |s'| ensures Joined(s'[j], s'[if j + 1 < |s'| then j + 1 else 0]) {
      if j < i - 1 {
        assert old(Joined(s[j], s[j + 1]));
      } else if j >= i {
        assert old(Joined(s[j + 1], s[if j + 2 < |s| then j + 2 else 0]));
      }
    }
    if OwnLinks(s) { MembersRemove(s, i); }
  }

  lemma MembersRemove(s: seq<Link>, i: nat)
    requires OwnLinks(s) && 0 < i < |s|
    ensures Members(s[..i] + s[i + 1..]) == Remove(Members(s), s[i].tskid)
  {
    var m := Members(s);
    assert m[i - 1] == s[i].tskid;
    forall j | 0 <= j < i - 1 ensures m[j] != m[i - 1] {
      assert m[j] == s[j + 1].tskid;
    }
    RemoveAt(m, i - 1);
  }

  /** `queue_delete_next` on the header: the first member. */
  method QueueDeleteNext(queue: Link, ghost s: seq<Link>) returns (entry: Link, ghost s': seq<Link>)
    requires Ring(s) && s[0] == queue && |s| > 1
    modifies s
    ensures entry == s[1] && s' == [queue] + s[2..] && Ring(s')
    ensures entry.tskid == Members(s)[0] && Members(s') == Members(s)[1..]
  {
    assert Joined(s[0], s[1]) && Joined(s[1], s[if 2 < |s| then 2 else 0]);
    entry := queue.pNext;
    queue.pNext := entry.pNext;
    entry.pNext.pPrev := queue;
    s' := [queue] + s[2..];
    forall j | 0 <= j < |s'| ensures Joined(s'[j], s'[if j + 1 < |s'| then j + 1 else 0]) {
      if j >= 1 { assert old(Joined(s[j + 1], s[if j + 2 < |s| then j + 2 else 0])); }
    }
  }

  /** The loop of `queue_insert_tpri`: the first member of lower priority, or the header. */
  method FindPlace(queue: Link, id: nat, priority: seq<nat>, ghost s: seq<Link>) returns (p: Link, ghost i: nat)
    requires Ring(s) && s[0] == queue && id < |priority|
    requires forall i :: 0 <= i < |s| ==> s[i].tskid < |priority|
    ensures 1 <= i <= |s| && p == s[if i < |s| then i else 0]
    ensures InsertTpri(priority, Members(s), id) == Members(s)[..i - 1] + [id] + Members(s)[i - 1..]
  {
    var pri := priority[id];
    assert Joined(s[0], s[if 1 < |s| then 1 else 0]);
    p, i := queue.pNext, 1;
    while p != queue
      invariant 1 <= i <= |s| && p == s[if i < |s| then i else 0]
      invariant forall j :: 0 <= j < i - 1 ==> PriIn(priority, Members(s)[j]) <= pri
      decreases |s| - i
    {
      if pri < priority[p.tskid] { break; }
      assert Joined(s[i], s[if i + 1 < |s| then i + 1 else 0]);
      p := p.pNext;
      i := i + 1;
    }
    assert i < |s| ==> Members(s)[i - 1] == p.tskid;
    InsertAt(priority, Members(s), id, i - 1);
  }

  /** `queue_insert_tpri`: before the first member of lower priority, or at the end. */
  method QueueInsertTpri(queue: Link, entry: Link, priority: seq<nat>, ghost s: seq<Link>) returns (ghost s': seq<Link>)
    requires Ring(s) && s[0] == queue && entry !in s && entry.tskid < |priority|
    requires forall i :: 0 <= i < |s| ==> s[i].tskid < |priority|
    modifies s, entry
    ensures Ring(s') && Members(s') == InsertTpri(priority, Members(s), entry.tskid)
  {
    ghost var i;
    var p;
    p, i := FindPlace(queue, entry.tskid, priority, s);
    s' := QueueInsertPrev(p, entry, s, if i < |s| then i else 0);
    assert i == |s| ==> Members(s)[..i - 1] == Members(s) && Members(s)[i - 1..] == [];
  }
}
