/** Fixed-size memory pools: blocks handed out from a free list threaded through the
    management area, and from the part of the pool that was never used. */
module MemPool {
  import opened Prelude
  import opened KernelState
  import opened WaitList

  const INDEX_NULL: nat := 0xffff_ffff    // end of the free list
  const INDEX_ALLOC: nat := 0xffff_fffe   // a block that is allocated
  const SIZE_MODULUS: nat := 0x1_0000_0000

  // ---- addresses

  function Offset(i: nat, blksz: nat): nat { i * blksz }

  lemma OffsetBelow(i: nat, n: nat, blksz: nat)
    requires i < n
    ensures Offset(i, blksz) + blksz <= Offset(n, blksz)
  {
    assert (i + 1) * blksz <= n * blksz;
  }

  /** An offset is a block's exactly if it is a multiple of the block size. */
  lemma OffsetIndex(x: nat, i: nat, blksz: nat)
    requires blksz > 0
    ensures x == Offset(i, blksz) <==> x % blksz == 0 && x / blksz == i
  {
    var q, r := x / blksz, x % blksz;
    assert x == q * blksz + r;
    if q < i { OffsetBelow(q, i, blksz); }
    if i < q { OffsetBelow(i, q, blksz); }
  }

  // ---- the management area

  ghost predicate LinkOk(next: seq<nat>, free: seq<nat>, i: nat)
    requires i < |free|
  {
    free[i] < |next| && next[free[i]] == if i + 1 < |free| then free[i + 1] else INDEX_NULL
  }

  /** `free` is the chain that starts at `head` and is linked by `next`; it is acyclic. */
  ghost predicate Chain(next: seq<nat>, head: nat, free: seq<nat>) {
    && NoDup(free)
    && head == (if free == [] then INDEX_NULL else free[0])
    && forall i :: 0 <= i < |free| ==> LinkOk(next, free, i)
  }

  /** A block below `unused` is either somebody's, and marked so, or on the free list. */
  ghost predicate BlockOk(next: seq<nat>, free: seq<nat>, owner: map<nat, nat>, i: nat)
    requires i < |next|
  {
    (i in owner <==> next[i] == INDEX_ALLOC) && (i in owner <==> i !in free)
  }

  ghost predicate Area(next: seq<nat>, unused: nat, freelist: nat, free: seq<nat>, owner: map<nat, nat>) {
    && |next| < INDEX_ALLOC && unused <= |next|
    && Chain(next, freelist, free)
    && (forall i :: i in free ==> i < unused)
    && (forall i :: i in owner ==> i < unused)
    && (forall i :: 0 <= i < unused ==> BlockOk(next, free, owner, i))
  }

  lemma AreaTakesFree(next: seq<nat>, unused: nat, freelist: nat, free: seq<nat>, owner: map<nat, nat>, t: nat)
    requires Area(next, unused, freelist, free, owner) && free != []
    ensures freelist == free[0] && freelist < unused && freelist !in owner
    ensures Area(next[freelist := INDEX_ALLOC], unused, next[freelist], free[1..], owner[freelist := t])
  {
    assert free[0] in free;
    assert LinkOk(next, free, 0) && BlockOk(next, free, owner, freelist);
    NoDupTail(free);
    var next', owner' := next[freelist := INDEX_ALLOC], owner[freelist := t];
    forall i | 0 <= i < |free[1..]| ensures LinkOk(next', free[1..], i) {
      assert LinkOk(next, free, i + 1);
    }
    forall i | 0 <= i < unused ensures BlockOk(next', free[1..], owner', i) {
      assert BlockOk(next, free, owner, i);
    }
  }

  lemma AreaTakesUnused(next: seq<nat>, unused: nat, freelist: nat, free: seq<nat>, owner: map<nat, nat>, t: nat)
    requires Area(next, unused, freelist, free, owner) && unused < |next|
    ensures Area(next[unused := INDEX_ALLOC], unused + 1, freelist, free, owner[unused := t])
  {
    var next', owner' := next[unused := INDEX_ALLOC], owner[unused := t];
    forall i | 0 <= i < |free| ensures LinkOk(next', free, i) {
      assert LinkOk(next, free, i) && free[i] in free;
    }
    forall i | 0 <= i < unused + 1 ensures BlockOk(next', free, owner', i) {
      if i < unused { assert BlockOk(next, free, owner, i); }
    }
  }

  lemma AreaGivesBack(next: seq<nat>, unused: nat, freelist: nat, free: seq<nat>, owner: map<nat, nat>, i: nat)
    requires Area(next, unused, freelist, free, owner) && i in owner
    ensures Area(next[i := freelist], unused, i, [i] + free, owner - {i})
  {
    assert BlockOk(next, free, owner, i);
    NoDupAppend(free, i);
    var next', owner' := next[i := freelist], owner - {i};
    forall j | 0 <= j < |[i] + free| ensures LinkOk(next', [i] + free, j) {
      if j > 0 { assert LinkOk(next, free, j - 1) && free[j - 1] in free; }
    }
    assert free != [] ==> free[0] in free;
    forall j | 0 <= j < unused ensures BlockOk(next', [i] + free, owner', j) {
      assert BlockOk(next, free, owner, j);
    }
  }

  lemma FreelistEnds(next: seq<nat>, unused: nat, freelist: nat, free: seq<nat>, owner: map<nat, nat>)
    requires Area(next, unused, freelist, free, owner)
    ensures freelist == INDEX_NULL <==> free == []
  {
    if free != [] { assert free[0] in free; }
  }

  function Below(n: nat): (s: set<nat>)
    ensures |s| == n && forall i: nat :: i in s <==> i < n
  {
    if n == 0 then {} else Below(n - 1) + {n - 1}
  }

  function Elements(s: seq<nat>): (r: set<nat>)
    ensures forall i: nat :: i in r <==> i in s
  {
    if s == [] then {} else Elements(s[1..]) + {s[0]}
  }

  lemma {:induction false} ElementsCount(s: seq<nat>)
    requires NoDup(s)
    ensures |Elements(s)| == |s|
  {
    if s != [] {
      NoDupTail(s);
      ElementsCount(s[1..]);
    }
  }

  /** Every block that was ever used is on the free list or somebody's: none is lost. */
  lemma BlockCount(next: seq<nat>, unused: nat, freelist: nat, free: seq<nat>, owner: map<nat, nat>)
    requires Area(next, unused, freelist, free, owner)
    ensures |free| + |owner| == unused
  {
    var f, o := Elements(free), owner.Keys;
    ElementsCount(free);
    forall i: nat ensures i in Below(unused) <==> i in f + o {
      if i < unused { assert BlockOk(next, free, owner, i); }
    }
    forall i: nat | i in f ensures i !in o {
      assert BlockOk(next, free, owner, i);
    }
    assert Below(unused) == f + o;
    assert |f + o| == |f| + |o|;
  }

  class Mpf {
    const blkcnt: nat
    const blksz: nat
    const mpf: nat                 // address of the pool
    const tpri: bool
    const mpfmb: array<nat>        // the `next` field of every management block
    var priority: seq<nat>         // the current priority of every task
    var fblkcnt: nat
    var unused: nat
    var freelist: nat
    var waitQueue: seq<nat>
    ghost var free: seq<nat>       // the free list
    ghost var owner: map<nat, nat> // which task has been given which block

    ghost predicate Valid()
      reads this, mpfmb
    {
      && mpfmb.Length == blkcnt
      && Area(mpfmb[..], unused, freelist, free, owner)
      && fblkcnt == |free| + (blkcnt - unused)
      && (waitQueue != [] ==> fblkcnt == 0)
      && Queued(tpri, priority, waitQueue)
    }

    /** The pool lies in the address space. */
    predicate InSpace() {
      0 < blksz && mpf + Offset(blkcnt, blksz) <= SIZE_MODULUS
    }

    function Address(i: nat): nat { mpf + Offset(i, blksz) }

    /** A pool with every block free. */
    constructor (blkcnt: nat, blksz: nat, mpf: nat, tpri: bool, mpfmb: array<nat>, priority: seq<nat>)
      requires 0 < blksz && blkcnt < INDEX_ALLOC && mpfmb.Length == blkcnt && mpf + Offset(blkcnt, blksz) <= SIZE_MODULUS
      ensures Valid() && InSpace() && owner == map[] && waitQueue == [] && fblkcnt == blkcnt
      ensures this.mpf == mpf && this.blksz == blksz && this.tpri == tpri && this.mpfmb == mpfmb
      ensures this.priority == priority
    {
      this.blkcnt := blkcnt;
      this.blksz := blksz;
      this.mpf := mpf;
      this.tpri := tpri;
      this.priority := priority;
      this.mpfmb := mpfmb;
      fblkcnt := blkcnt;
      unused := 0;
      freelist := INDEX_NULL;
      waitQueue := [];
      free := [];
      owner := map[];
    }

    /** Free blocks and blocks in use make up the pool. */
    lemma NothingLost()
      requires Valid()
      ensures fblkcnt + |owner| == blkcnt
    {
      BlockCount(mpfmb[..], unused, freelist, free, owner);
    }

    /** `get_mpf_block`: a block nobody has goes to task `t`. */
    method GetMpfBlock(ghost t: nat) returns (blk: nat, ghost i: nat)
      requires Valid() && fblkcnt > 0
      modifies `fblkcnt, `unused, `freelist, `free, `owner, mpfmb
      ensures Valid() && waitQueue == old(waitQueue) && fblkcnt == old(fblkcnt) - 1
      ensures blk == Address(i) && i < blkcnt && i !in old(owner) && owner == old(owner)[i := t]
    {
      var blkidx;
      ghost var was := mpfmb[..];
      FreelistEnds(was, unused, freelist, free, owner);
      if freelist != INDEX_NULL {
        AreaTakesFree(was, unused, freelist, free, owner, t);
        blkidx := freelist;
        freelist := mpfmb[blkidx];
        free := free[1..];
      } else {
        AreaTakesUnused(was, unused, freelist, free, owner, t);
        blkidx := unused;
        unused := unused + 1;
      }
      i := blkidx;
      blk := mpf + Offset(blkidx, blksz);
      fblkcnt := fblkcnt - 1;
      mpfmb[blkidx] := INDEX_ALLOC;
      owner := owner[i := t];
      assert mpfmb[..] == was[i := INDEX_ALLOC];
    }

    /** `get_mpf` (TMO_FEVR), `pget_mpf` (TMO_POL) and `tget_mpf` by task `t`: a block at once
        if there is one; a task waits only if there is none. */
    method GetMpf(t: nat, tmout: int) returns (ercd: ER, blk: nat)
      requires Valid() && t !in waitQueue
      modifies `fblkcnt, `unused, `freelist, `free, `owner, `waitQueue, mpfmb
      ensures Valid()
      ensures ercd == if old(fblkcnt) > 0 then E_OK else if tmout == TMO_POL then E_TMOUT else Blocked
      ensures ercd == E_OK ==>
                && waitQueue == old(waitQueue)
                && exists i: nat :: i < blkcnt && i !in old(owner) && owner == old(owner)[i := t] && blk == Address(i)
      ensures ercd != E_OK ==> owner == old(owner)
      ensures ercd == E_TMOUT ==> waitQueue == old(waitQueue)
      ensures ercd == Blocked ==> waitQueue == Enqueued(tpri, priority, old(waitQueue), t)
    {
      blk := 0;
      if fblkcnt > 0 {
        ghost var i;
        blk, i := GetMpfBlock(t);
        ercd := E_OK;
      } else if tmout == TMO_POL {
        ercd := E_TMOUT;
      } else {
        EnqueuedOk(tpri, priority, waitQueue, t);
        waitQueue := Enqueued(tpri, priority, waitQueue, t);
        ercd := Blocked;
      }
    }

    /** The checks of `rel_mpf`: which allocated block starts at address `blk`. */
    method FindBlock(blk: nat) returns (i: Option<nat>)
      requires Valid() && InSpace() && blk < SIZE_MODULUS
      ensures i.None? ==> forall j: nat :: j in owner ==> blk != Address(j)
      ensures i.Some? ==> i.value in owner && forall j: nat :: blk == Address(j) <==> j == i.value
    {
      // unsigned arithmetic: an address below the pool wraps around
      var blkoffset := if mpf <= blk then blk - mpf else SIZE_MODULUS + blk - mpf;
      var blkidx := blkoffset / blksz;
      forall j: nat ensures blkoffset == Offset(j, blksz) <==> blkoffset % blksz == 0 && blkidx == j {
        OffsetIndex(blkoffset, j, blksz);
      }
      if !(mpf <= blk) || !(blkoffset % blksz == 0) || !(blkidx < unused) || !(mpfmb[blkidx] == INDEX_ALLOC) {
        forall j: nat | j in owner ensures blk != Address(j) {
          assert BlockOk(mpfmb[..], free, owner, j);
        }
        return None;
      }
      assert BlockOk(mpfmb[..], free, owner, blkidx);
      i := Some(blkidx);
    }

    /** The block goes to the first task waiting for one. */
    method PassOn(i: nat) returns (t: nat)
      requires Valid() && i in owner && waitQueue != []
      modifies `waitQueue, `owner
      ensures Valid() && t == old(waitQueue)[0] && waitQueue == old(waitQueue)[1..] && owner == old(owner)[i := t]
    {
      t := waitQueue[0];
      DropAtOk(tpri, priority, waitQueue, 0);
      assert waitQueue[..0] + waitQueue[1..] == waitQueue[1..];
      waitQueue := waitQueue[1..];
      AreaPasses(mpfmb[..], unused, freelist, free, owner, i, t);
      owner := owner[i := t];
    }

    /** The block goes back to the free list. */
    method PutBack(i: nat)
      requires Valid() && i in owner && waitQueue == []
      modifies `fblkcnt, `freelist, `free, `owner, mpfmb
      ensures Valid() && owner == old(owner) - {i}
    {
      ghost var was := mpfmb[..];
      AreaGivesBack(was, unused, freelist, free, owner, i);
      assert i < mpfmb.Length by { assert BlockOk(was, free, owner, i); }
      fblkcnt := fblkcnt + 1;
      mpfmb[i] := freelist;
      assert mpfmb[..] == was[i := freelist];
      freelist := i;
      free := [i] + free;
      owner := owner - {i};
    }

    /** `rel_mpf`: accepts exactly the addresses of allocated blocks.  The block goes straight
        to the first task waiting for one (`woken`), or back to the free list. */
    method RelMpf(blk: nat) returns (ercd: ER, woken: Option<nat>)
      requires Valid() && InSpace() && blk < SIZE_MODULUS
      modifies `fblkcnt, `unused, `freelist, `free, `owner, `waitQueue, mpfmb
      ensures Valid()
      ensures ercd == E_OK <==> exists i: nat :: i in old(owner) && blk == Address(i)
      ensures ercd != E_OK ==> ercd == E_PAR && woken == None && owner == old(owner) && waitQueue == old(waitQueue)
      ensures ercd == E_OK && old(waitQueue) != [] ==>
                && woken == Some(old(waitQueue[0])) && waitQueue == old(waitQueue[1..])
                && forall i: nat :: blk == Address(i) ==> owner == old(owner)[i := woken.value]
      ensures ercd == E_OK && old(waitQueue) == [] ==>
                && woken == None && waitQueue == []
                && forall i: nat :: blk == Address(i) ==> owner == old(owner) - {i}
    {
      woken := None;
      var i := FindBlock(blk);
      if i.None? { return E_PAR, None; }
      if waitQueue != [] {
        var t := PassOn(i.value);
        woken := Some(t);
      } else {
        PutBack(i.value);
      }
      ercd := E_OK;
    }

    /** A waiting task is released by a timeout, by force or by its termination. */
    method Leave(t: nat)
      requires Valid()
      modifies `waitQueue
      ensures Valid() && waitQueue == Remove(old(waitQueue), t)
    {
      RemoveOk(tpri, priority, waitQueue, t);
      waitQueue := Remove(waitQueue, t);
    }

    /** The current priority of task `t` changes; if it waits here it is queued anew. */
    method ChangePriority(t: nat, pri: nat)
      requires Valid() && t < |priority|
      modifies `priority, `waitQueue
      ensures Valid() && priority == old(priority)[t := pri]
      ensures waitQueue == Requeued(tpri, priority, old(waitQueue), t)
    {
      RequeuedOk(tpri, priority, waitQueue, t, pri);
      assert waitQueue == [] ==> Requeued(tpri, priority[t := pri], waitQueue, t) == [];
      priority := priority[t := pri];
      waitQueue := Requeued(tpri, priority, waitQueue, t);
    }

    /** `ini_mpf`: everyone waiting is told, every block is free again. */
    method IniMpf() returns (released: seq<nat>)
      requires Valid()
      modifies `fblkcnt, `unused, `freelist, `free, `owner, `waitQueue
      ensures Valid() && released == old(waitQueue) && waitQueue == [] && owner == map[] && fblkcnt == blkcnt
    {
      released := waitQueue;
      waitQueue := [];
      fblkcnt := blkcnt;
      unused := 0;
      freelist := INDEX_NULL;
      free := [];
      owner := map[];
    }
  }

  lemma AreaPasses(next: seq<nat>, unused: nat, freelist: nat, free: seq<nat>, owner: map<nat, nat>, i: nat, t: nat)
    requires Area(next, unused, freelist, free, owner) && i in owner
    ensures Area(next, unused, freelist, free, owner[i := t])
  {
    var owner' := owner[i := t];
    forall j | 0 <= j < unused ensures BlockOk(next, free, owner', j) {
      assert BlockOk(next, free, owner, j);
    }
  }
}
