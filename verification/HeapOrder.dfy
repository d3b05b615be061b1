/** The shape of the time event heap while one of its nodes is vacant, as predicates
    on the array contents, and what moving a node into the vacancy does to them.
    Node `i` of the heap is element `i - 1`; its parent is node `i / 2`. */
module HeapOrder {
  import opened EventTime
  import opened Timer

  datatype TMEVTN = TMEVTN(time: EVTTIM, p_tmevtb: TMEVTB)

  /** Node `i` holds a pending event, with its stored time, that points back to it. */
  ghost predicate NodeLinked(h: seq<TMEVTN>, ix: map<TMEVTB, nat>, due: map<TMEVTB, nat>, i: nat)
    requires 1 <= i <= |h|
  {
    && h[i - 1].p_tmevtb in due
    && h[i - 1].time == Wrap(due[h[i - 1].p_tmevtb])
    && h[i - 1].p_tmevtb in ix
    && ix[h[i - 1].p_tmevtb] == i
  }

  /** Event `e` is found where its index says, and not at the vacant node. */
  ghost predicate EventLinked(h: seq<TMEVTN>, ix: map<TMEVTB, nat>, last: nat, hole: nat, e: TMEVTB)
    requires last <= |h|
  {
    e in ix && 1 <= ix[e] <= last && ix[e] != hole && h[ix[e] - 1].p_tmevtb == e
  }

  /** Nodes 1 to `last`, except the vacant node `hole` (0: none vacant), hold exactly the
      events of `due`. */
  ghost predicate Linked(h: seq<TMEVTN>, ix: map<TMEVTB, nat>, last: nat, due: map<TMEVTB, nat>, hole: nat) {
    && last <= |h|
    && (forall i :: 1 <= i <= last && i != hole ==> NodeLinked(h, ix, due, i))
    && (forall e :: e in due ==> EventLinked(h, ix, last, hole, e))
  }

  /** The time at which the event of node `i` is due. */
  function DueAt(h: seq<TMEVTN>, due: map<TMEVTB, nat>, i: nat): nat {
    if 1 <= i <= |h| && h[i - 1].p_tmevtb in due then due[h[i - 1].p_tmevtb] else 0
  }

  /** Node `i` is due no earlier than its parent, or than its grandparent when the
      parent is the vacant node. */
  ghost predicate OrderedAt(h: seq<TMEVTN>, due: map<TMEVTB, nat>, hole: nat, i: nat) {
    if i == hole then true
    else if i / 2 == hole then hole >= 2 ==> DueAt(h, due, hole / 2) <= DueAt(h, due, i)
    else DueAt(h, due, i / 2) <= DueAt(h, due, i)
  }

  ghost predicate Ordered(h: seq<TMEVTN>, last: nat, due: map<TMEVTB, nat>, hole: nat) {
    forall i :: 2 <= i <= last ==> OrderedAt(h, due, hole, i)
  }

  /** An event due at `d` may stand at `hole` as far as the children there are concerned. */
  ghost predicate AboveChildren(h: seq<TMEVTN>, last: nat, due: map<TMEVTB, nat>, hole: nat, d: nat) {
    forall i :: 2 <= i <= last && i / 2 == hole ==> d <= DueAt(h, due, i)
  }

  /** An event due at `d` may stand at `hole` as far as the parent there is concerned. */
  ghost predicate BelowParent(h: seq<TMEVTN>, due: map<TMEVTB, nat>, hole: nat, d: nat) {
    2 <= hole ==> DueAt(h, due, hole / 2) <= d
  }

  /** Node `from` moves into the vacancy and leaves one behind. */
  lemma MoveKeepsLinks(h: seq<TMEVTN>, ix: map<TMEVTB, nat>, last: nat, due: map<TMEVTB, nat>,
                       hole: nat, from: nat)
    requires Linked(h, ix, last, due, hole)
    requires 1 <= from <= last && 1 <= hole <= last && from != hole
    ensures Linked(h[hole - 1 := h[from - 1]], ix[h[from - 1].p_tmevtb := hole], last, due, from)
  {
    var m := h[from - 1].p_tmevtb;
    var h', ix' := h[hole - 1 := h[from - 1]], ix[m := hole];
    assert NodeLinked(h, ix, due, from);
    forall i | 1 <= i <= last && i != from ensures NodeLinked(h', ix', due, i) {
      if i != hole { assert NodeLinked(h, ix, due, i); }
    }
    forall e | e in due ensures EventLinked(h', ix', last, from, e) {
      assert EventLinked(h, ix, last, hole, e);
    }
  }

  lemma MoveKeepsDue(h: seq<TMEVTN>, due: map<TMEVTB, nat>, hole: nat, from: nat, i: nat)
    requires 1 <= from <= |h| && 1 <= hole <= |h|
    ensures DueAt(h[hole - 1 := h[from - 1]], due, i) == DueAt(h, due, if i == hole then from else i)
  {
  }

  lemma MoveUpKeepsOrder(h: seq<TMEVTN>, ix: map<TMEVTB, nat>, last: nat, due: map<TMEVTB, nat>,
                         hole: nat, d: nat)
    requires Linked(h, ix, last, due, hole) && 2 <= hole <= last
    requires Ordered(h, last, due, hole)
    requires d < DueAt(h, due, hole / 2)
    ensures var h' := h[hole - 1 := h[hole / 2 - 1]];
            && Linked(h', ix[h[hole / 2 - 1].p_tmevtb := hole], last, due, hole / 2)
            && Ordered(h', last, due, hole / 2)
            && AboveChildren(h', last, due, hole / 2, d)
  {
    var p := hole / 2;
    MoveKeepsLinks(h, ix, last, due, hole, p);
    var h' := h[hole - 1 := h[p - 1]];
    assert p >= 2 ==> OrderedAt(h, due, hole, p);
    forall i | 2 <= i <= last ensures OrderedAt(h', due, p, i) {
      assert OrderedAt(h, due, hole, i);
      MoveKeepsDue(h, due, hole, p, i);
      MoveKeepsDue(h, due, hole, p, i / 2);
      MoveKeepsDue(h, due, hole, p, p / 2);
    }
    forall i | 2 <= i <= last && i / 2 == p ensures d <= DueAt(h', due, i) {
      assert OrderedAt(h, due, hole, i);
      MoveKeepsDue(h, due, hole, p, i);
    }
  }

  lemma MoveDownKeepsOrder(h: seq<TMEVTN>, ix: map<TMEVTB, nat>, last: nat, due: map<TMEVTB, nat>,
                           hole: nat, child: nat, d: nat)
    requires Linked(h, ix, last, due, hole) && 1 <= hole <= last
    requires Ordered(h, last, due, hole)
    requires 2 <= child <= last && child / 2 == hole
    requires AboveChildren(h, last, due, hole, DueAt(h, due, child))
    requires DueAt(h, due, child) <= d
    ensures var h' := h[hole - 1 := h[child - 1]];
            && Linked(h', ix[h[child - 1].p_tmevtb := hole], last, due, child)
            && Ordered(h', last, due, child)
            && BelowParent(h', due, child, d)
  {
    MoveKeepsLinks(h, ix, last, due, hole, child);
    var h' := h[hole - 1 := h[child - 1]];
    assert OrderedAt(h, due, hole, child);
    forall i | 2 <= i <= last ensures OrderedAt(h', due, child, i) {
      assert OrderedAt(h, due, hole, i);
      MoveKeepsDue(h, due, hole, child, i);
      MoveKeepsDue(h, due, hole, child, i / 2);
      MoveKeepsDue(h, due, hole, child, child / 2);
    }
    MoveKeepsDue(h, due, hole, child, child / 2);
  }

  /** Filling the vacancy with an event that fits completes the heap. */
  lemma PlaceCompletes(h: seq<TMEVTN>, ix: map<TMEVTB, nat>, last: nat, due: map<TMEVTB, nat>,
                       hole: nat, e: TMEVTB, d: nat)
    requires Linked(h, ix, last, due, hole) && 1 <= hole <= last
    requires Ordered(h, last, due, hole)
    requires AboveChildren(h, last, due, hole, d) && BelowParent(h, due, hole, d)
    requires e !in due
    ensures var h', due' := h[hole - 1 := TMEVTN(Wrap(d), e)], due[e := d];
            Linked(h', ix[e := hole], last, due', 0) && Ordered(h', last, due', 0)
  {
    var h', ix', due' := h[hole - 1 := TMEVTN(Wrap(d), e)], ix[e := hole], due[e := d];
    forall i | 1 <= i <= last
      ensures NodeLinked(h', ix', due', i)
      ensures DueAt(h', due', i) == if i == hole then d else DueAt(h, due, i)
    {
      if i != hole { assert NodeLinked(h, ix, due, i); }
    }
    forall x | x in due' ensures EventLinked(h', ix', last, 0, x) {
      if x != e { assert EventLinked(h, ix, last, hole, x); }
    }
    forall i | 2 <= i <= last ensures OrderedAt(h', due', 0, i) {
      assert OrderedAt(h, due, hole, i);
    }
  }

  /** Vacating a node of a complete heap leaves one whose order skips over it. */
  lemma VacateKeepsOrder(h: seq<TMEVTN>, ix: map<TMEVTB, nat>, last: nat, last': nat, due: map<TMEVTB, nat>,
                         due': map<TMEVTB, nat>, hole: nat)
    requires Linked(h, ix, last, due, 0) && Ordered(h, last, due, 0)
    requires 1 <= hole <= last' <= last
    requires forall i :: 1 <= i <= last' && i != hole ==> DueAt(h, due', i) == DueAt(h, due, i)
    ensures Ordered(h, last', due', hole)
  {
    forall i | 2 <= i <= last' ensures OrderedAt(h, due', hole, i) {
      assert OrderedAt(h, due, 0, i);
      if i / 2 == hole && hole >= 2 {
        assert OrderedAt(h, due, 0, hole);
      }
    }
  }

  /** In a complete heap no node is due before the root. */
  lemma {:induction false} RootIsEarliest(h: seq<TMEVTN>, last: nat, due: map<TMEVTB, nat>, i: nat)
    requires Ordered(h, last, due, 0) && 1 <= i <= last
    ensures DueAt(h, due, 1) <= DueAt(h, due, i)
  {
    if i > 1 {
      RootIsEarliest(h, last, due, i / 2);
      assert OrderedAt(h, due, 0, i);
    }
  }

  lemma RootIsMinimum(h: seq<TMEVTN>, ix: map<TMEVTB, nat>, last: nat, due: map<TMEVTB, nat>)
    requires Linked(h, ix, last, due, 0) && Ordered(h, last, due, 0) && last > 0
    ensures h[0].p_tmevtb in due
    ensures forall x :: x in due ==> due[h[0].p_tmevtb] <= due[x]
  {
    assert NodeLinked(h, ix, due, 1);
    forall x | x in due
      ensures due[h[0].p_tmevtb] <= due[x]
    {
      assert EventLinked(h, ix, last, 0, x);
      RootIsEarliest(h, last, due, ix[x]);
    }
  }
}
