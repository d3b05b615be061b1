/** Priority data queues: a sorted list of cells and a list of free cells, both threaded
    through one array, with the tasks waiting to send or to receive. */
module PriDataQueue {
  import opened Prelude
  import opened KernelState
  import opened WaitList

  datatype Datum = Datum(data: int, datapri: int)
  /** A cell of the management area, `p_next` as an index. */
  datatype PDQMB = PDQMB(next: Option<nat>, datum: Datum)

  /** A task waiting to send, with its datum. */
  type Sender = Entry<Datum>

  // ---- the buffer as a sequence

  /** Behind everything of the same or a higher priority. */
  function InsertDatum(buf: seq<Datum>, d: Datum): seq<Datum> {
    if buf == [] || d.datapri < buf[0].datapri then [d] + buf
    else [buf[0]] + InsertDatum(buf[1..], d)
  }

  ghost predicate Sorted(buf: seq<Datum>) {
    forall i, j :: 0 <= i < j < |buf| ==> buf[i].datapri <= buf[j].datapri
  }

  lemma {:induction false} InsertDatumAt(buf: seq<Datum>, d: Datum, k: nat)
    requires k <= |buf| && forall i :: 0 <= i < k ==> buf[i].datapri <= d.datapri
    requires k < |buf| ==> d.datapri < buf[k].datapri
    ensures InsertDatum(buf, d) == buf[..k] + [d] + buf[k..]
  {
    if k == 0 {
      assert buf[..0] + [d] + buf[0..] == [d] + buf;
    } else {
      InsertDatumAt(buf[1..], d, k - 1);
      assert [buf[0]] + buf[1..][..k - 1] == buf[..k] && buf[1..][k - 1..] == buf[k..];
    }
  }

  lemma SortedPrepend(x: Datum, r: seq<Datum>)
    requires Sorted(r) && (r != [] ==> x.datapri <= r[0].datapri)
    ensures Sorted([x] + r) && forall y :: y in [x] + r <==> y == x || y in r
  {
  }

  lemma {:induction false} InsertKeepsSorted(buf: seq<Datum>, d: Datum)
    requires Sorted(buf)
    ensures Sorted(InsertDatum(buf, d)) && |InsertDatum(buf, d)| == |buf| + 1
    ensures forall x :: x in InsertDatum(buf, d) <==> x in buf || x == d
  {
    if buf != [] && buf[0].datapri <= d.datapri {
      InsertKeepsSorted(buf[1..], d);
      SortedPrepend(buf[0], InsertDatum(buf[1..], d));
      SortedPrepend(buf[0], buf[1..]);
      assert buf == [buf[0]] + buf[1..];
    } else {
      SortedPrepend(d, buf);
    }
  }

  /** The data of one priority, in order. */
  function OfPriority(buf: seq<Datum>, p: int): seq<Datum> {
    if buf == [] then []
    else if buf[0].datapri == p then [buf[0]] + OfPriority(buf[1..], p)
    else OfPriority(buf[1..], p)
  }

  /** First in, first out among data of the same priority. */
  lemma {:induction false} InsertIsFifo(buf: seq<Datum>, d: Datum, p: int)
    requires Sorted(buf)
    ensures OfPriority(InsertDatum(buf, d), p) == if d.datapri == p then OfPriority(buf, p) + [d] else OfPriority(buf, p)
  {
    if buf == [] || d.datapri < buf[0].datapri {
      assert ([d] + buf)[1..] == buf;
      if d.datapri == p { NoneOfPriority(buf, p); }
    } else {
      InsertIsFifo(buf[1..], d, p);
      assert ([buf[0]] + InsertDatum(buf[1..], d))[1..] == InsertDatum(buf[1..], d);
    }
  }

  lemma {:induction false} NoneOfPriority(buf: seq<Datum>, p: int)
    requires forall i :: 0 <= i < |buf| ==> buf[i].datapri > p
    ensures OfPriority(buf, p) == []
  {
    if buf != [] { NoneOfPriority(buf[1..], p); }
  }

  // ---- the cells

  ghost predicate CellOk(cells: seq<PDQMB>, list: seq<nat>, i: nat)
    requires i < |list|
  {
    list[i] < |cells| && cells[list[i]].next == if i + 1 < |list| then Some(list[i + 1]) else None
  }

  ghost predicate Chained(cells: seq<PDQMB>, head: Option<nat>, list: seq<nat>) {
    && NoDup(list)
    && head == (if list == [] then None else Some(list[0]))
    && forall i :: 0 <= i < |list| ==> CellOk(cells, list, i)
  }

  /** The cells that have been used are on exactly one of the two lists. */
  ghost predicate Area(cells: seq<PDQMB>, unused: nat, head: Option<nat>, list: seq<nat>, freelist: Option<nat>, free: seq<nat>) {
    && unused <= |cells|
    && Chained(cells, head, list) && Chained(cells, freelist, free)
    && (forall i :: i in list ==> i < unused && i !in free)
    && (forall i :: i in free ==> i < unused)
    && (forall i :: 0 <= i < unused ==> i in list || i in free)
    && |list| + |free| == unused
  }

  ghost function Contents(cells: seq<PDQMB>, list: seq<nat>): (r: seq<Datum>)
    requires forall i :: 0 <= i < |list| ==> list[i] < |cells|
    ensures |r| == |list| && forall i :: 0 <= i < |list| ==> r[i] == cells[list[i]].datum
  {
    seq(|list|, i requires 0 <= i < |list| => cells[list[i]].datum)
  }

  lemma ChainInRange(cells: seq<PDQMB>, head: Option<nat>, list: seq<nat>)
    requires Chained(cells, head, list)
    ensures forall i :: 0 <= i < |list| ==> list[i] < |cells|
  {
    forall i | 0 <= i < |list| ensures list[i] < |cells| {
      assert CellOk(cells, list, i);
    }
  }

  /** A change of cells that are not on the list leaves it alone. */
  lemma ChainFrame(cells: seq<PDQMB>, cells': seq<PDQMB>, head: Option<nat>, list: seq<nat>)
    requires Chained(cells, head, list) && |cells'| == |cells|
    requires forall i :: i in list ==> i < |cells| && cells'[i] == cells[i]
    ensures Chained(cells', head, list)
    ensures forall i :: 0 <= i < |list| ==> list[i] < |cells|
    ensures Contents(cells', list) == Contents(cells, list)
  {
    ChainInRange(cells, head, list);
    forall i | 0 <= i < |list| ensures CellOk(cells', list, i) {
      assert CellOk(cells, list, i) && list[i] in list;
    }
  }

  function LinkedIn(cells: seq<PDQMB>, list: seq<nat>, k: nat, c: nat, d: Datum): seq<PDQMB>
    requires k <= |list| && c < |cells| && (k > 0 ==> list[k - 1] < |cells|)
  {
    var cells1 := cells[c := PDQMB(if k < |list| then Some(list[k]) else None, d)];
    if k == 0 then cells1 else cells1[list[k - 1] := cells1[list[k - 1]].(next := Some(c))]
  }

  /** What linking a cell in does to each cell. */
  ghost predicate LinkedAt(cells: seq<PDQMB>, cells': seq<PDQMB>, list: seq<nat>, k: nat, c: nat, i: nat)
    requires i < |list|
  {
    && list[i] < |cells| == |cells'| && list[i] != c
    && cells'[list[i]] == if i + 1 == k then cells[list[i]].(next := Some(c)) else cells[list[i]]
  }

  lemma LinkedCells(cells: seq<PDQMB>, head: Option<nat>, list: seq<nat>, k: nat, c: nat, d: Datum)
    requires Chained(cells, head, list) && k <= |list| && c < |cells| && c !in list
    ensures k > 0 ==> list[k - 1] < |cells|
    ensures var cells' := LinkedIn(cells, list, k, c, d);
            && |cells'| == |cells| && cells'[c] == PDQMB(if k < |list| then Some(list[k]) else None, d)
            && forall i :: 0 <= i < |list| ==> LinkedAt(cells, cells', list, k, c, i)
  {
    ChainInRange(cells, head, list);
    var cells' := LinkedIn(cells, list, k, c, d);
    assert k > 0 ==> list[k - 1] in list;
    forall i | 0 <= i < |list| ensures LinkedAt(cells, cells', list, k, c, i) {
      assert list[i] in list;
    }
  }

  /** Cell `c` is linked in before the `k`-th cell of the list. */
  lemma ChainInsert(cells: seq<PDQMB>, cells': seq<PDQMB>, head: Option<nat>, list: seq<nat>, k: nat, c: nat, d: Datum)
    requires Chained(cells, head, list) && k <= |list| && c < |cells| == |cells'| && c !in list
    requires cells'[c] == PDQMB(if k < |list| then Some(list[k]) else None, d)
    requires forall i :: 0 <= i < |list| ==> LinkedAt(cells, cells', list, k, c, i)
    ensures Chained(cells', if k == 0 then Some(c) else head, list[..k] + [c] + list[k..])
  {
    var list' := list[..k] + [c] + list[k..];
    forall i | 0 <= i < |list'| ensures CellOk(cells', list', i) {
      if i < k {
        assert CellOk(cells, list, i) && LinkedAt(cells, cells', list, k, c, i);
      } else if i > k {
        assert CellOk(cells, list, i - 1) && LinkedAt(cells, cells', list, k, c, i - 1);
      }
    }
    assert forall i :: 0 <= i < |list| ==> list[i] in list;
  }

  lemma ContentsInsert(cells: seq<PDQMB>, cells': seq<PDQMB>, list: seq<nat>, k: nat, c: nat, d: Datum)
    requires k <= |list| && c < |cells| == |cells'| && cells'[c].datum == d
    requires forall i :: 0 <= i < |list| ==> LinkedAt(cells, cells', list, k, c, i)
    ensures forall i :: 0 <= i < |list| ==> list[i] < |cells|
    ensures var list' := list[..k] + [c] + list[k..];
            && (forall i :: 0 <= i < |list'| ==> list'[i] < |cells'|)
            && Contents(cells', list') == Contents(cells, list)[..k] + [d] + Contents(cells, list)[k..]
  {
    forall i | 0 <= i < |list| ensures list[i] < |cells| && cells'[list[i]].datum == cells[list[i]].datum {
      assert LinkedAt(cells, cells', list, k, c, i);
    }
  }

  /** The area while cell `c` is on neither list. */
  ghost predicate AreaBut(cells: seq<PDQMB>, unused: nat, head: Option<nat>, list: seq<nat>,
                          freelist: Option<nat>, free: seq<nat>, c: nat) {
    && c < unused <= |cells| && c !in list && c !in free
    && Chained(cells, head, list) && Chained(cells, freelist, free)
    && (forall i :: i in list ==> i < unused && i !in free)
    && (forall i :: i in free ==> i < unused)
    && (forall i :: 0 <= i < unused && i != c ==> i in list || i in free)
    && |list| + |free| + 1 == unused
  }

  lemma TakeFree(cells: seq<PDQMB>, unused: nat, head: Option<nat>, list: seq<nat>, freelist: Option<nat>, free: seq<nat>)
    requires Area(cells, unused, head, list, freelist, free) && freelist.Some?
    ensures free != [] && freelist.value < |cells|
    ensures AreaBut(cells, unused, head, list, cells[freelist.value].next, free[1..], freelist.value)
  {
    assert CellOk(cells, free, 0) && free[0] in free;
    NoDupTail(free);
    forall i | 0 <= i < |free[1..]| ensures CellOk(cells, free[1..], i) {
      assert CellOk(cells, free, i + 1);
    }
  }

  lemma TakeUnused(cells: seq<PDQMB>, unused: nat, head: Option<nat>, list: seq<nat>, freelist: Option<nat>, free: seq<nat>)
    requires Area(cells, unused, head, list, freelist, free) && unused < |cells|
    ensures AreaBut(cells, unused + 1, head, list, freelist, free, unused)
  {
  }

  lemma PutInList(cells: seq<PDQMB>, unused: nat, head: Option<nat>, list: seq<nat>,
                  freelist: Option<nat>, free: seq<nat>, c: nat, k: nat, d: Datum)
    requires AreaBut(cells, unused, head, list, freelist, free, c) && k <= |list|
    ensures k > 0 ==> list[k - 1] < |cells|
    ensures forall i :: 0 <= i < |list| ==> list[i] < |cells|
    ensures var cells', list' := LinkedIn(cells, list, k, c, d), list[..k] + [c] + list[k..];
            && Area(cells', unused, if k == 0 then Some(c) else head, list', freelist, free)
            && (forall i :: 0 <= i < |list'| ==> list'[i] < |cells'|)
            && Contents(cells', list') == Contents(cells, list)[..k] + [d] + Contents(cells, list)[k..]
  {
    LinkedCells(cells, head, list, k, c, d);
    var cells' := LinkedIn(cells, list, k, c, d);
    ChainInsert(cells, cells', head, list, k, c, d);
    ContentsInsert(cells, cells', list, k, c, d);
    assert k > 0 ==> list[k - 1] in list;
    ChainFrame(cells, cells', freelist, free);
    Inserted(list, k, c);
    AreaFilled(cells, cells', unused, head, list, freelist, free, c, k);
  }

  lemma Inserted(list: seq<nat>, k: nat, c: nat)
    requires k <= |list|
    ensures forall i :: i in list[..k] + [c] + list[k..] <==> i in list || i == c
    ensures NoDup(list) && c !in list ==> NoDup(list[..k] + [c] + list[k..])
  {
    assert list == list[..k] + list[k..];
  }

  /** Once the missing cell is on the data list the area is complete again. */
  lemma AreaFilled(cells: seq<PDQMB>, cells': seq<PDQMB>, unused: nat, head: Option<nat>, list: seq<nat>,
                   freelist: Option<nat>, free: seq<nat>, c: nat, k: nat)
    requires AreaBut(cells, unused, head, list, freelist, free, c) && k <= |list| && |cells'| == |cells|
    requires Chained(cells', freelist, free)
    requires Chained(cells', if k == 0 then Some(c) else head, list[..k] + [c] + list[k..])
    ensures Area(cells', unused, if k == 0 then Some(c) else head, list[..k] + [c] + list[k..], freelist, free)
  {
    Inserted(list, k, c);
  }

  lemma FirstLeaves(cells: seq<PDQMB>, unused: nat, head: Option<nat>, list: seq<nat>, freelist: Option<nat>, free: seq<nat>)
    requires Area(cells, unused, head, list, freelist, free) && list != []
    ensures head == Some(list[0]) && list[0] < |cells|
    ensures AreaBut(cells, unused, cells[list[0]].next, list[1..], freelist, free, list[0])
  {
    assert CellOk(cells, list, 0) && list[0] in list;
    NoDupTail(list);
    forall i | 0 <= i < |list[1..]| ensures CellOk(cells, list[1..], i) {
      assert CellOk(cells, list, i + 1);
    }
  }

  lemma PutInFree(cells: seq<PDQMB>, unused: nat, head: Option<nat>, list: seq<nat>,
                  freelist: Option<nat>, free: seq<nat>, c: nat)
    requires AreaBut(cells, unused, head, list, freelist, free, c)
    ensures var cells' := cells[c := cells[c].(next := freelist)];
            && Area(cells', unused, head, list, Some(c), [c] + free)
            && (forall i :: 0 <= i < |list| ==> list[i] < |cells|)
            && Contents(cells', list) == Contents(cells, list)
  {
    var cells' := cells[c := cells[c].(next := freelist)];
    ChainFrame(cells, cells', head, list);
    ChainFrame(cells, cells', freelist, free);
    ChainPrepend(cells', freelist, free, c);
    AreaFreed(cells, cells', unused, head, list, freelist, free, c);
  }

  lemma ChainPrepend(cells: seq<PDQMB>, head: Option<nat>, list: seq<nat>, c: nat)
    requires Chained(cells, head, list) && c !in list && c < |cells| && cells[c].next == head
    ensures Chained(cells, Some(c), [c] + list)
  {
    NoDupAppend(list, c);
    forall i | 0 <= i < |[c] + list| ensures CellOk(cells, [c] + list, i) {
      if i > 0 { assert CellOk(cells, list, i - 1); }
    }
  }

  /** Once the missing cell is on the free list the area is complete again. */
  lemma AreaFreed(cells: seq<PDQMB>, cells': seq<PDQMB>, unused: nat, head: Option<nat>, list: seq<nat>,
                  freelist: Option<nat>, free: seq<nat>, c: nat)
    requires AreaBut(cells, unused, head, list, freelist, free, c) && |cells'| == |cells|
    requires Chained(cells', head, list) && Chained(cells', Some(c), [c] + free)
    ensures Area(cells', unused, head, list, Some(c), [c] + free)
  {
    assert forall i :: i in [c] + free <==> i == c || i in free;
  }

  class Pdq {
    const pdqcnt: nat
    const maxdpri: int
    const tpri: bool
    const pdqmb: array<PDQMB>
    var priority: seq<nat>         // the current priority of every task
    var swaitQueue: seq<Sender>
    var rwaitQueue: seq<nat>
    var count: nat
    var head: Option<nat>
    var unused: nat
    var freelist: Option<nat>
    ghost var list: seq<nat>
    ghost var free: seq<nat>

    /** The lists are in order and the data sorted. */
    ghost predicate Linked()
      reads `count, `head, `unused, `freelist, `list, `free, pdqmb
    {
      && pdqmb.Length == pdqcnt
      && Area(pdqmb[..], unused, head, list, freelist, free)
      && count == |list|
    }

    /** What is in the queue, in the order it will be received. */
    ghost function Buffer(): (r: seq<Datum>)
      requires Linked()
      reads `count, `head, `unused, `freelist, `list, `free, pdqmb
      ensures |r| == count
    {
      ChainInRange(pdqmb[..], head, list);
      Contents(pdqmb[..], list)
    }

    /** Tasks wait to receive only when nothing is there, to send only when no room is, and
        both in order. */
    ghost predicate Valid()
      reads this, pdqmb
    {
      && Linked() && Sorted(Buffer())
      && Listed(tpri, priority, swaitQueue) && NoDup(rwaitQueue)
      && (rwaitQueue != [] ==> Buffer() == [] && swaitQueue == [])
      && (swaitQueue != [] ==> |Buffer()| == pdqcnt)
    }

    constructor (pdqcnt: nat, maxdpri: int, tpri: bool, pdqmb: array<PDQMB>, priority: seq<nat>)
      requires pdqmb.Length == pdqcnt
      ensures this.priority == priority && Valid() && Buffer() == [] && swaitQueue == [] && rwaitQueue == []
      ensures this.pdqcnt == pdqcnt && this.maxdpri == maxdpri && this.tpri == tpri && this.pdqmb == pdqmb
    {
      this.pdqcnt, this.maxdpri, this.tpri, this.pdqmb := pdqcnt, maxdpri, tpri, pdqmb;
      this.priority := priority;
      swaitQueue, rwaitQueue := [], [];
      count, head, unused, freelist := 0, None, 0, None;
      list, free := [], [];
    }

    /** `enqueue_pridata`; the next cell is always inside the management area. */
    method EnqueuePridata(d: Datum)
      requires Linked() && count < pdqcnt
      modifies `count, `head, `unused, `freelist, `list, `free, pdqmb
      ensures Linked() && Buffer() == InsertDatum(old(Buffer()), d)
    {
      ghost var cells := pdqmb[..];
      var c;
      if freelist.Some? {
        TakeFree(cells, unused, head, list, freelist, free);
        c := freelist.value;
        freelist := pdqmb[c].next;
        free := free[1..];
      } else {
        TakeUnused(cells, unused, head, list, freelist, free);
        c := unused;
        unused := unused + 1;
      }
      ChainInRange(cells, head, list);
      LinkIn(c, d);
    }

    /** Where the datum goes: the cell in front of its place, and the one behind. */
    method FindPlace(datapri: int) returns (prev: Option<nat>, next: Option<nat>, ghost k: nat)
      requires Chained(pdqmb[..], head, list)
      ensures k <= |list| && next == (if k < |list| then Some(list[k]) else None)
      ensures prev == (if k == 0 then None else Some(list[k - 1])) && (k > 0 ==> list[k - 1] < pdqmb.Length)
      ensures forall i :: 0 <= i < |list| ==> list[i] < pdqmb.Length
      ensures forall i :: 0 <= i < k ==> Contents(pdqmb[..], list)[i].datapri <= datapri
      ensures k < |list| ==> datapri < Contents(pdqmb[..], list)[k].datapri
    {
      ChainInRange(pdqmb[..], head, list);
      prev, next, k := None, head, 0;
      while next.Some?
        invariant k <= |list| && next == (if k < |list| then Some(list[k]) else None)
        invariant prev == if k == 0 then None else Some(list[k - 1])
        invariant forall i :: 0 <= i < k ==> Contents(pdqmb[..], list)[i].datapri <= datapri
        decreases |list| - k
      {
        assert CellOk(pdqmb[..], list, k);
        if pdqmb[next.value].datum.datapri > datapri { break; }
        prev, next := next, pdqmb[next.value].next;
        k := k + 1;
      }
    }

    method LinkIn(c: nat, d: Datum)
      requires pdqmb.Length == pdqcnt && AreaBut(pdqmb[..], unused, head, list, freelist, free, c) && count == |list|
      requires forall i :: 0 <= i < |list| ==> list[i] < pdqmb.Length
      modifies `count, `head, `list, pdqmb
      ensures Linked() && Buffer() == InsertDatum(old(Contents(pdqmb[..], list)), d)
    {
      ghost var cells := pdqmb[..];
      ghost var k;
      var prev, next;
      prev, next, k := FindPlace(d.datapri);
      PutInList(cells, unused, head, list, freelist, free, c, k, d);
      InsertDatumAt(Contents(cells, list), d, k);
      pdqmb[c] := PDQMB(next, d);
      if prev.None? {
        head := Some(c);
      } else {
        pdqmb[prev.value] := pdqmb[prev.value].(next := Some(c));
      }
      assert pdqmb[..] == LinkedIn(cells, list, k, c, d);
      list := list[..k] + [c] + list[k..];
      count := count + 1;
    }

    /** `dequeue_pridata`. */
    method DequeuePridata() returns (d: Datum)
      requires Linked() && count > 0
      modifies `count, `head, `freelist, `list, `free, pdqmb
      ensures Linked() && d == old(Buffer())[0] && Buffer() == old(Buffer())[1..]
    {
      ghost var cells := pdqmb[..];
      FirstLeaves(cells, unused, head, list, freelist, free);
      var c := head.value;
      PutInFree(cells, unused, cells[c].next, list[1..], freelist, free, c);
      head := pdqmb[c].next;
      count := count - 1;
      d := pdqmb[c].datum;
      pdqmb[c] := pdqmb[c].(next := freelist);
      freelist := Some(c);
      assert pdqmb[..] == cells[c := cells[c].(next := old(freelist))];
      list, free := list[1..], [c] + free;
    }

    // ---- sending and receiving

    /** The first task waiting to receive gets the datum. */
    method HandPridata(d: Datum) returns (woken: Option<Entry<Datum>>)
      requires NoDup(rwaitQueue) && rwaitQueue != []
      modifies `rwaitQueue
      ensures woken == Some(Entry(old(rwaitQueue)[0], d))
      ensures rwaitQueue == old(rwaitQueue)[1..] && NoDup(rwaitQueue)
    {
      NoDupTail(rwaitQueue);
      woken := Some(Entry(rwaitQueue[0], d));
      rwaitQueue := rwaitQueue[1..];
    }

    /** `send_pridata`: to the first task waiting to receive (`woken`, with what it gets), or
        into the buffer. */
    method SendPridata(d: Datum) returns (sent: bool, woken: Option<Entry<Datum>>)
      requires Valid()
      modifies `rwaitQueue, `count, `head, `unused, `freelist, `list, `free, pdqmb
      ensures Valid() && swaitQueue == old(swaitQueue)
      ensures sent <==> old(rwaitQueue) != [] || |old(Buffer())| < pdqcnt
      ensures woken == if old(rwaitQueue) != [] then Some(Entry(old(rwaitQueue)[0], d)) else None
      ensures rwaitQueue == if old(rwaitQueue) != [] then old(rwaitQueue)[1..] else []
      ensures Buffer() == if sent && woken.None? then InsertDatum(old(Buffer()), d) else old(Buffer())
    {
      sent, woken := false, None;
      if rwaitQueue != [] {
        sent := true;
        woken := HandPridata(d);
      } else if count < pdqcnt {
        sent := true;
        InsertKeepsSorted(Buffer(), d);
        EnqueuePridata(d);
      }
    }

    /** `receive_pridata`: the first datum; room in the buffer goes to the first task waiting
        to send (`woken`). */
    method ReceivePridata() returns (received: bool, d: Datum, woken: Option<nat>)
      requires Valid()
      modifies `swaitQueue, `count, `head, `unused, `freelist, `list, `free, pdqmb
      ensures Valid() && rwaitQueue == old(rwaitQueue)
      ensures received <==> old(Buffer()) != [] || old(swaitQueue) != []
      ensures old(Buffer()) != [] ==> d == old(Buffer())[0]
      ensures old(Buffer()) == [] && old(swaitQueue) != [] ==> d == old(swaitQueue)[0].info
      ensures old(swaitQueue) != [] ==> woken == Some(old(swaitQueue)[0].tsk) && swaitQueue == old(swaitQueue)[1..]
      ensures old(swaitQueue) == [] ==> woken == None && swaitQueue == []
      ensures old(Buffer()) != [] ==>
                Buffer() == if old(swaitQueue) == [] then old(Buffer())[1..]
                            else InsertDatum(old(Buffer())[1..], old(swaitQueue)[0].info)
      ensures old(Buffer()) == [] ==> Buffer() == []
    {
      received, d, woken := false, Datum(0, 0), None;
      if count > 0 {
        received := true;
        d := DequeuePridata();
        if swaitQueue != [] {
          InsertKeepsSorted(Buffer(), swaitQueue[0].info);
          EnqueuePridata(swaitQueue[0].info);
          woken := Some(swaitQueue[0].tsk);
          FirstOk(tpri, priority, swaitQueue);
          swaitQueue := swaitQueue[1..];
        }
      } else if swaitQueue != [] {
        received, d, woken := true, swaitQueue[0].info, Some(swaitQueue[0].tsk);
        FirstOk(tpri, priority, swaitQueue);
        swaitQueue := swaitQueue[1..];
      }
    }

    /** `snd_pdq` (TMO_FEVR), `psnd_pdq` (TMO_POL) and `tsnd_pdq` by task `t`. */
    method SndPdq(t: nat, d: Datum, tmout: int) returns (ercd: ER, woken: Option<Entry<Datum>>)
      requires Valid() && t !in Tasks(swaitQueue)
      modifies `swaitQueue, `rwaitQueue, `count, `head, `unused, `freelist, `list, `free, pdqmb
      ensures Valid()
      ensures ercd == if d.datapri > maxdpri then E_PAR
                      else if old(rwaitQueue) != [] || |old(Buffer())| < pdqcnt then E_OK
                      else if tmout == TMO_POL then E_TMOUT else Blocked
      ensures Buffer() == if ercd == E_OK && woken.None? then InsertDatum(old(Buffer()), d) else old(Buffer())
      ensures woken == if ercd == E_OK && old(rwaitQueue) != [] then Some(Entry(old(rwaitQueue)[0], d)) else None
      ensures rwaitQueue == if woken.Some? then old(rwaitQueue)[1..] else old(rwaitQueue)
      ensures swaitQueue == if ercd == Blocked then Join(tpri, priority, old(swaitQueue), Entry(t, d))
                            else old(swaitQueue)
    {
      if d.datapri > maxdpri { return E_PAR, None; }
      var sent;
      sent, woken := SendPridata(d);
      if sent {
        ercd := E_OK;
      } else if tmout == TMO_POL {
        ercd := E_TMOUT;
      } else {
        JoinOk(tpri, priority, swaitQueue, Entry(t, d));
        swaitQueue := Join(tpri, priority, swaitQueue, Entry(t, d));
        ercd := Blocked;
      }
    }

    /** `rcv_pdq` (TMO_FEVR), `prcv_pdq` (TMO_POL) and `trcv_pdq` by task `t`. */
    method RcvPdq(t: nat, tmout: int) returns (ercd: ER, d: Datum, woken: Option<nat>)
      requires Valid() && t !in rwaitQueue
      modifies `swaitQueue, `rwaitQueue, `count, `head, `unused, `freelist, `list, `free, pdqmb
      ensures Valid()
      ensures ercd == if old(Buffer()) != [] || old(swaitQueue) != [] then E_OK
                      else if tmout == TMO_POL then E_TMOUT else Blocked
      ensures ercd == E_OK ==> d == if old(Buffer()) != [] then old(Buffer())[0] else old(swaitQueue)[0].info
      ensures swaitQueue == if old(swaitQueue) != [] then old(swaitQueue)[1..] else []
      ensures woken == if old(swaitQueue) != [] then Some(old(swaitQueue)[0].tsk) else None
      ensures rwaitQueue == if ercd == Blocked then old(rwaitQueue) + [t] else old(rwaitQueue)
      ensures Buffer() == if old(Buffer()) == [] then []
                          else if old(swaitQueue) == [] then old(Buffer())[1..]
                          else InsertDatum(old(Buffer())[1..], old(swaitQueue)[0].info)
    {
      var received;
      received, d, woken := ReceivePridata();
      if received {
        ercd := E_OK;
      } else if tmout == TMO_POL {
        ercd := E_TMOUT;
      } else {
        NoDupAppend(rwaitQueue, t);
        rwaitQueue := rwaitQueue + [t];
        ercd := Blocked;
      }
    }

    /** A waiting task is released by a timeout, by force or by its termination. */
    method Leave(t: nat)
      requires Valid()
      modifies `swaitQueue, `rwaitQueue
      ensures Valid() && swaitQueue == Without(old(swaitQueue), t) && rwaitQueue == Remove(old(rwaitQueue), t)
    {
      WithoutOk(tpri, priority, swaitQueue, t);
      RemoveNoDup(rwaitQueue, t);
      swaitQueue := Without(swaitQueue, t);
      rwaitQueue := Remove(rwaitQueue, t);
    }

    /** The current priority of task `t` changes; if it waits to send it is queued anew, and its
        datum with it. */
    method ChangePriority(t: nat, pri: nat)
      requires Valid() && t < |priority|
      modifies `priority, `swaitQueue
      ensures Valid() && priority == old(priority)[t := pri]
      ensures swaitQueue == Rejoin(tpri, priority, old(swaitQueue), t)
    {
      RejoinOk(tpri, priority, swaitQueue, t, pri);
      RejoinMembers(tpri, priority[t := pri], swaitQueue, t);
      priority := priority[t := pri];
      swaitQueue := Rejoin(tpri, priority, swaitQueue, t);
    }

    /** `ini_pdq`: everyone waiting is told, nothing is left in the queue. */
    method IniPdq() returns (senders: seq<Sender>, receivers: seq<nat>)
      requires Valid()
      modifies `swaitQueue, `rwaitQueue, `count, `head, `unused, `freelist, `list, `free
      ensures Valid() && Buffer() == [] && swaitQueue == [] && rwaitQueue == []
      ensures senders == old(swaitQueue) && receivers == old(rwaitQueue)
    {
      senders, receivers := swaitQueue, rwaitQueue;
      swaitQueue, rwaitQueue := [], [];
      count, head, unused, freelist := 0, None, 0, None;
      list, free := [], [];
    }
  }
}
