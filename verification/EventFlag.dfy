/** Event flags: after every operation no waiting task's condition holds. */
module EventFlag {
  import opened KernelState
  import opened WaitList

  type FLGPTN = bv32

  /** What a task waits for; `orw` is TWF_ORW. */
  datatype Condition = Condition(waiptn: FLGPTN, orw: bool)
  type Waiter = Entry<Condition>

  /** The release condition. */
  predicate Holds(ptn: FLGPTN, waiptn: FLGPTN, orw: bool) {
    if orw then ptn & waiptn != 0 else ptn & waiptn == waiptn
  }

  predicate Met(ptn: FLGPTN, w: Waiter) { Holds(ptn, w.info.waiptn, w.info.orw) }

  /** Bit `i` of a pattern. */
  predicate Bit(ptn: FLGPTN, i: bv5) { (ptn >> i) & 1 == 1 }

  lemma BitAnd(a: FLGPTN, b: FLGPTN, i: bv5)
    ensures Bit(a & b, i) <==> Bit(a, i) && Bit(b, i)
    ensures Bit(!a, i) <==> !Bit(a, i)
  {
  }

  lemma SomeBit(x: FLGPTN)
    requires x != 0
    ensures exists i: bv5 :: Bit(x, i)
  {
    assert Bit(x, 0) || Bit(x, 1) || Bit(x, 2) || Bit(x, 3) || Bit(x, 4) || Bit(x, 5) || Bit(x, 6) || Bit(x, 7)
        || Bit(x, 8) || Bit(x, 9) || Bit(x, 10) || Bit(x, 11) || Bit(x, 12) || Bit(x, 13) || Bit(x, 14) || Bit(x, 15)
        || Bit(x, 16) || Bit(x, 17) || Bit(x, 18) || Bit(x, 19) || Bit(x, 20) || Bit(x, 21) || Bit(x, 22) || Bit(x, 23)
        || Bit(x, 24) || Bit(x, 25) || Bit(x, 26) || Bit(x, 27) || Bit(x, 28) || Bit(x, 29) || Bit(x, 30) || Bit(x, 31);
  }

  /** TWF_ANDW asks for all the bits waited for, TWF_ORW for one of them. */
  lemma HoldsBits(ptn: FLGPTN, waiptn: FLGPTN)
    ensures Holds(ptn, waiptn, false) <==> forall i: bv5 :: Bit(waiptn, i) ==> Bit(ptn, i)
    ensures Holds(ptn, waiptn, true) <==> exists i: bv5 :: Bit(waiptn, i) && Bit(ptn, i)
  {
    forall i: bv5 ensures Bit(ptn & waiptn, i) <==> Bit(ptn, i) && Bit(waiptn, i) { BitAnd(ptn, waiptn, i); }
    if ptn & waiptn != 0 {
      SomeBit(ptn & waiptn);
      var i: bv5 :| Bit(ptn & waiptn, i);
      assert Bit(waiptn, i) && Bit(ptn, i);
    } else {
      NoBit();
    }
    if ptn & waiptn != waiptn { MissingBit(ptn, waiptn); }
  }

  lemma NoBit()
    ensures forall i: bv5 :: !Bit(0, i)
  {
  }

  lemma MissingBit(ptn: FLGPTN, waiptn: FLGPTN)
    requires ptn & waiptn != waiptn
    ensures exists i: bv5 :: Bit(waiptn, i) && !Bit(ptn, i)
  {
    SomeBit(waiptn & !ptn);
    var i: bv5 :| Bit(waiptn & !ptn, i);
    BitAnd(waiptn, !ptn, i);
    BitAnd(ptn, ptn, i);
    assert Bit(waiptn, i) && !Bit(ptn, i);
  }

  lemma NothingMeetsZero(w: Waiter)
    requires w.info.waiptn != 0
    ensures !Met(0, w)
  {
  }

  /** Clearing bits makes no condition true. */
  lemma ClearingMeetsNoMore(ptn: FLGPTN, clrptn: FLGPTN, w: Waiter)
    requires Met(ptn & clrptn, w)
    ensures Met(ptn, w)
  {
  }

  // ---- what one pass over the waiting tasks does

  function AllMet(s: seq<Waiter>, ptn: FLGPTN): seq<Waiter> {
    if s == [] then []
    else if Met(ptn, s[0]) then [s[0]] + AllMet(s[1..], ptn)
    else AllMet(s[1..], ptn)
  }

  function NoneMet(s: seq<Waiter>, ptn: FLGPTN): seq<Waiter> {
    if s == [] then []
    else if Met(ptn, s[0]) then NoneMet(s[1..], ptn)
    else [s[0]] + NoneMet(s[1..], ptn)
  }

  lemma {:induction false} NoneMetIsUnmet(s: seq<Waiter>, ptn: FLGPTN)
    ensures forall w :: w in NoneMet(s, ptn) ==> w in s && !Met(ptn, w)
    ensures forall w :: w in AllMet(s, ptn) <==> w in s && Met(ptn, w)
    ensures |AllMet(s, ptn)| + |NoneMet(s, ptn)| == |s|
  {
    if s != [] {
      NoneMetIsUnmet(s[1..], ptn);
      assert s == [s[0]] + s[1..];
    }
  }

  /** Both keep the order of the queue: what holds of its parts, one after the other, holds of the
      whole. */
  lemma {:induction false} MetSplits(a: seq<Waiter>, b: seq<Waiter>, ptn: FLGPTN)
    ensures AllMet(a + b, ptn) == AllMet(a, ptn) + AllMet(b, ptn)
    ensures NoneMet(a + b, ptn) == NoneMet(a, ptn) + NoneMet(b, ptn)
  {
    if a == [] {
      assert a + b == b;
    } else {
      assert (a + b)[1..] == a[1..] + b;
      MetSplits(a[1..], b, ptn);
    }
  }

  /** The place of the first task whose condition holds. */
  function FirstMet(s: seq<Waiter>, ptn: FLGPTN): (k: nat)
    ensures k <= |s| && (k < |s| ==> Met(ptn, s[k])) && forall i :: 0 <= i < k ==> !Met(ptn, s[i])
  {
    if s == [] || Met(ptn, s[0]) then 0 else 1 + FirstMet(s[1..], ptn)
  }

  lemma {:induction false} FirstMetIs(s: seq<Waiter>, ptn: FLGPTN, k: nat)
    requires k <= |s| && (k < |s| ==> Met(ptn, s[k])) && forall i :: 0 <= i < k ==> !Met(ptn, s[i])
    ensures FirstMet(s, ptn) == k
  {
    if k > 0 { FirstMetIs(s[1..], ptn, k - 1); }
  }

  /** Nobody in the queue could be released. */
  ghost predicate Unmet(q: seq<Waiter>, ptn: FLGPTN) {
    forall i :: 0 <= i < |q| ==> q[i].info.waiptn != 0 && !Met(ptn, q[i])
  }

  lemma UnmetByZero(q: seq<Waiter>, ptn: FLGPTN)
    requires Unmet(q, ptn)
    ensures Unmet(q, 0)
  {
    forall i | 0 <= i < |q| ensures !Met(0, q[i]) { NothingMeetsZero(q[i]); }
  }

  lemma UnmetCleared(q: seq<Waiter>, ptn: FLGPTN, clrptn: FLGPTN)
    requires Unmet(q, ptn)
    ensures Unmet(q, ptn & clrptn)
  {
    forall i | 0 <= i < |q| ensures !Met(ptn & clrptn, q[i]) {
      if Met(ptn & clrptn, q[i]) { ClearingMeetsNoMore(ptn, clrptn, q[i]); }
    }
  }

  lemma UnmetJoined(tpri: bool, priority: seq<nat>, q: seq<Waiter>, x: Waiter, ptn: FLGPTN)
    requires Unmet(q, ptn) && x.info.waiptn != 0 && !Met(ptn, x)
    ensures Unmet(Join(tpri, priority, q, x), ptn) && |Join(tpri, priority, q, x)| == |q| + 1
  {
    JoinMembers(tpri, priority, q, x);
    var r := Join(tpri, priority, q, x);
    forall i | 0 <= i < |r| ensures r[i].info.waiptn != 0 && !Met(ptn, r[i]) { assert r[i] in r; }
  }

  lemma UnmetWithout(q: seq<Waiter>, t: nat, ptn: FLGPTN)
    requires Unmet(q, ptn)
    ensures Unmet(Without(q, t), ptn) && |Without(q, t)| <= |q|
  {
    var r := Without(q, t);
    forall i | 0 <= i < |r| ensures r[i].info.waiptn != 0 && !Met(ptn, r[i]) { assert r[i] in q; }
  }

  lemma UnmetRejoined(tpri: bool, priority: seq<nat>, q: seq<Waiter>, t: nat, ptn: FLGPTN)
    requires Unmet(q, ptn)
    ensures Unmet(Rejoin(tpri, priority, q, t), ptn) && |Rejoin(tpri, priority, q, t)| == |q|
  {
    RejoinMembers(tpri, priority, q, t);
    var r := Rejoin(tpri, priority, q, t);
    forall i | 0 <= i < |r| ensures r[i].info.waiptn != 0 && !Met(ptn, r[i]) { assert r[i] in r; }
  }

  /** Each released task has been given the pattern `ptn`. */
  ghost predicate Given(released: seq<Waiter>, ptns: seq<FLGPTN>, ptn: FLGPTN) {
    |ptns| == |released| && forall i :: 0 <= i < |ptns| ==> ptns[i] == ptn
  }

  lemma GivenMore(released: seq<Waiter>, ptns: seq<FLGPTN>, ptn: FLGPTN, w: Waiter)
    requires Given(released, ptns, ptn)
    ensures Given(released + [w], ptns + [ptn], ptn)
  {
  }

  class Flg {
    const clr: bool                // TA_CLR
    const wmul: bool               // TA_WMUL
    const tpri: bool
    const iflgptn: FLGPTN
    var priority: seq<nat>         // the current priority of every task
    var flgptn: FLGPTN
    var waitQueue: seq<Waiter>

    /** Nobody waits whose condition holds, or twice; the queue is in order; more than one
        task waits only with TA_WMUL. */
    ghost predicate Valid()
      reads this
    {
      && Unmet(waitQueue, flgptn)
      && Listed(tpri, priority, waitQueue)
      && (!wmul ==> |waitQueue| <= 1)
    }

    constructor (clr: bool, wmul: bool, tpri: bool, iflgptn: FLGPTN, priority: seq<nat>)
      ensures Valid() && flgptn == iflgptn && waitQueue == [] && this.priority == priority
      ensures this.clr == clr && this.wmul == wmul && this.tpri == tpri && this.iflgptn == iflgptn
    {
      this.clr, this.wmul, this.tpri, this.iflgptn := clr, wmul, tpri, iflgptn;
      this.priority := priority;
      flgptn := iflgptn;
      waitQueue := [];
    }

    /** `check_flg_cond`: with TA_CLR a pattern that releases a task is cleared. */
    method CheckFlgCond(waiptn: FLGPTN, orw: bool) returns (r: bool, ptn: FLGPTN)
      modifies `flgptn
      ensures r <==> Holds(old(flgptn), waiptn, orw)
      ensures r ==> ptn == old(flgptn)
      ensures flgptn == if r && clr then 0 else old(flgptn)
    {
      ptn := 0;
      r := if orw then flgptn & waiptn != 0 else flgptn & waiptn == waiptn;
      if r {
        ptn := flgptn;
        if clr { flgptn := 0; }
      }
    }

    /** `set_flg`: one pass over the queue, deleting on the way.  Without TA_CLR everybody whose
        condition holds is released, with it exactly the first; `ptns` are the patterns they
        are given, each the one in force when its task was released. */
    method SetFlg(setptn: FLGPTN) returns (released: seq<Waiter>, ptns: seq<FLGPTN>)
      requires Valid()
      modifies `flgptn, `waitQueue
      ensures Valid()
      ensures Passed(clr, old(waitQueue), old(flgptn) | setptn, released, waitQueue, flgptn)
      ensures Given(released, ptns, old(flgptn) | setptn)
    {
      flgptn := flgptn | setptn;
      ghost var q, got := waitQueue, flgptn;
      released, ptns := Scan();
      PassedLeavesUnmet(clr, q, got, released, waitQueue, flgptn);
    }

    /** The pass: its loop deletes while it walks along the queue. */
    method Scan() returns (released: seq<Waiter>, ptns: seq<FLGPTN>)
      requires Listed(tpri, priority, waitQueue)
      modifies `flgptn, `waitQueue
      ensures Passed(clr, old(waitQueue), old(flgptn), released, waitQueue, flgptn)
      ensures Listed(tpri, priority, waitQueue)
      ensures Given(released, ptns, old(flgptn))
    {
      released, ptns := [], [];
      ghost var q, got := waitQueue, flgptn;
      var i: nat := 0;
      ghost var n: nat := 0;             // how many have been looked at
      while i < |waitQueue|
        invariant Scanning(clr, q, got, n, released, i, waitQueue, flgptn)
        invariant Listed(tpri, priority, waitQueue) && Given(released, ptns, got)
        decreases |q| - n
      {
        var last;
        i, released, ptns, last := LookAt(i, released, ptns, q, got, n);
        if last { return; }
        n := n + 1;
      }
      ScanningEnds(clr, q, got, n, released, i, waitQueue, flgptn);
    }

    /** One round of the pass: the task at place `i` is released or left waiting; `last` says
        that the pass ends with it. */
    method LookAt(i: nat, released: seq<Waiter>, ptns: seq<FLGPTN>, ghost q: seq<Waiter>, ghost got: FLGPTN, ghost n: nat)
        returns (i': nat, released': seq<Waiter>, ptns': seq<FLGPTN>, last: bool)
      requires i < |waitQueue| && Listed(tpri, priority, waitQueue) && Given(released, ptns, got)
      requires Scanning(clr, q, got, n, released, i, waitQueue, flgptn)
      modifies `flgptn, `waitQueue
      ensures Listed(tpri, priority, waitQueue) && Given(released', ptns', got)
      ensures last ==> Passed(clr, q, got, released', waitQueue, flgptn)
      ensures !last ==> n < |q| && Scanning(clr, q, got, n + 1, released', i', waitQueue, flgptn)
    {
      ScanningStep(clr, q, got, n, released, i, waitQueue, flgptn);
      i', released', ptns', last := i, released, ptns, false;
      var w := waitQueue[i];
      var met, ptn := TestAt(i);
      if met {
        GivenMore(released, ptns, got, w);
        released', ptns', last := released + [w], ptns + [ptn], clr;
      } else {
        i' := i + 1;
      }
    }

    /** The task at place `i` leaves with the pattern if its condition holds. */
    method TestAt(i: nat) returns (met: bool, ptn: FLGPTN)
      requires i < |waitQueue| && Listed(tpri, priority, waitQueue)
      modifies `flgptn, `waitQueue
      ensures Listed(tpri, priority, waitQueue)
      ensures met <==> Met(old(flgptn), old(waitQueue)[i])
      ensures met ==> ptn == old(flgptn)
      ensures waitQueue == if met then old(waitQueue)[..i] + old(waitQueue)[i + 1..] else old(waitQueue)
      ensures flgptn == if met && clr then 0 else old(flgptn)
    {
      DropOk(tpri, priority, waitQueue, i);
      met, ptn := CheckFlgCond(waitQueue[i].info.waiptn, waitQueue[i].info.orw);
      if met { waitQueue := waitQueue[..i] + waitQueue[i + 1..]; }
    }

    /** `clr_flg`. */
    method ClrFlg(clrptn: FLGPTN)
      requires Valid()
      modifies `flgptn
      ensures Valid() && flgptn == old(flgptn) & clrptn
    {
      UnmetCleared(waitQueue, flgptn, clrptn);
      flgptn := flgptn & clrptn;
    }

    /** `wai_flg` (TMO_FEVR), `pol_flg` (TMO_POL) and `twai_flg` by task `t`. */
    method WaiFlg(t: nat, waiptn: FLGPTN, orw: bool, tmout: int) returns (ercd: ER, got: FLGPTN)
      requires Valid() && waiptn != 0 && t !in Tasks(waitQueue)
      modifies `flgptn, `waitQueue
      ensures Valid()
      ensures ercd == if !wmul && old(waitQueue) != [] then E_ILUSE
                      else if Holds(old(flgptn), waiptn, orw) then E_OK
                      else if tmout == TMO_POL then E_TMOUT else Blocked
      ensures ercd == E_OK ==> got == old(flgptn)
      ensures flgptn == if ercd == E_OK && clr then 0 else old(flgptn)
      ensures waitQueue == if ercd == Blocked then Join(tpri, priority, old(waitQueue), Entry(t, Condition(waiptn, orw)))
                           else old(waitQueue)
    {
      if !wmul && waitQueue != [] { return E_ILUSE, 0; }
      var met;
      met, got := CheckFlgCond(waiptn, orw);
      if met {
        UnmetByZero(waitQueue, old(flgptn));
        ercd := E_OK;
      } else if tmout == TMO_POL {
        ercd := E_TMOUT;
      } else {
        UnmetJoined(tpri, priority, waitQueue, Entry(t, Condition(waiptn, orw)), flgptn);
        JoinOk(tpri, priority, waitQueue, Entry(t, Condition(waiptn, orw)));
        waitQueue := Join(tpri, priority, waitQueue, Entry(t, Condition(waiptn, orw)));
        ercd := Blocked;
      }
    }

    /** A waiting task is released by a timeout, by force or by its termination. */
    method Leave(t: nat)
      requires Valid()
      modifies `waitQueue
      ensures Valid() && waitQueue == Without(old(waitQueue), t)
    {
      UnmetWithout(waitQueue, t, flgptn);
      WithoutOk(tpri, priority, waitQueue, t);
      waitQueue := Without(waitQueue, t);
    }

    /** The current priority of task `t` changes; if it waits here it is queued anew. */
    method ChangePriority(t: nat, pri: nat)
      requires Valid() && t < |priority|
      modifies `priority, `waitQueue
      ensures Valid() && priority == old(priority)[t := pri]
      ensures waitQueue == Rejoin(tpri, priority, old(waitQueue), t)
    {
      RejoinOk(tpri, priority, waitQueue, t, pri);
      UnmetRejoined(tpri, priority[t := pri], waitQueue, t, flgptn);
      priority := priority[t := pri];
      waitQueue := Rejoin(tpri, priority, waitQueue, t);
    }

    /** `ini_flg`. */
    method IniFlg() returns (released: seq<Waiter>)
      requires Valid()
      modifies `flgptn, `waitQueue
      ensures Valid() && flgptn == iflgptn && waitQueue == [] && released == old(waitQueue)
    {
      released := waitQueue;
      waitQueue := [];
      flgptn := iflgptn;
    }
  }

  ghost predicate NoneBefore(q: seq<Waiter>, ptn: FLGPTN, k: nat) {
    k <= |q| && forall i :: 0 <= i < k ==> !Met(ptn, q[i])
  }

  /** `n` tasks have been looked at: some are released, the others kept. */
  ghost predicate InPass(q: seq<Waiter>, ptn: FLGPTN, n: nat, released: seq<Waiter>, kept: seq<Waiter>) {
    && n <= |q|
    && released + AllMet(q[n..], ptn) == AllMet(q, ptn)
    && kept + NoneMet(q[n..], ptn) == NoneMet(q, ptn)
  }

  lemma PassStep(q: seq<Waiter>, ptn: FLGPTN, n: nat, released: seq<Waiter>, kept: seq<Waiter>)
    requires n < |q| && InPass(q, ptn, n, released, kept)
    ensures if Met(ptn, q[n]) then InPass(q, ptn, n + 1, released + [q[n]], kept)
            else InPass(q, ptn, n + 1, released, kept + [q[n]])
  {
    assert q[n..][1..] == q[n + 1..];
    assert released + ([q[n]] + AllMet(q[n + 1..], ptn)) == released + [q[n]] + AllMet(q[n + 1..], ptn);
    assert kept + ([q[n]] + NoneMet(q[n + 1..], ptn)) == kept + [q[n]] + NoneMet(q[n + 1..], ptn);
  }

  /** The pass has looked at `n` tasks of `q` and stands at place `i` of what is left. */
  ghost predicate Scanning(clr: bool, q: seq<Waiter>, got: FLGPTN, n: nat, released: seq<Waiter>,
                           i: nat, rest: seq<Waiter>, ptn: FLGPTN) {
    && i <= |rest| && n <= |q| && rest[i..] == q[n..] && ptn == got
    && if clr then released == [] && i == n && rest == q && NoneBefore(q, got, i)
       else InPass(q, got, n, released, rest[..i])
  }

  lemma ScanningStep(clr: bool, q: seq<Waiter>, got: FLGPTN, n: nat, released: seq<Waiter>,
                     i: nat, rest: seq<Waiter>, ptn: FLGPTN)
    requires Scanning(clr, q, got, n, released, i, rest, ptn) && i < |rest|
    ensures n < |q|
    ensures var without := rest[..i] + rest[i + 1..];
            if !Met(ptn, rest[i]) then Scanning(clr, q, got, n + 1, released, i + 1, rest, ptn)
            else if clr then Passed(clr, q, got, released + [rest[i]], without, 0)
            else Scanning(clr, q, got, n + 1, released + [rest[i]], i, without, ptn)
  {
    assert rest[i] == rest[i..][0] == q[n];
    assert rest[i + 1..] == rest[i..][1..] == q[n..][1..] == q[n + 1..];
    if clr {
      if Met(ptn, q[n]) { FirstMetIs(q, got, n); }
    } else {
      PassStep(q, got, n, released, rest[..i]);
      assert rest[..i + 1] == rest[..i] + [rest[i]];
      assert (rest[..i] + rest[i + 1..])[..i] == rest[..i];
      assert (rest[..i] + rest[i + 1..])[i..] == rest[i + 1..];
    }
  }

  lemma ScanningEnds(clr: bool, q: seq<Waiter>, got: FLGPTN, n: nat, released: seq<Waiter>,
                     i: nat, rest: seq<Waiter>, ptn: FLGPTN)
    requires Scanning(clr, q, got, n, released, i, rest, ptn) && i == |rest|
    ensures Passed(clr, q, got, released, rest, ptn)
  {
    if clr { FirstMetIs(q, got, i); } else { assert rest[..i] == rest; }
  }

  /** Without TA_CLR everybody whose condition holds is released, in order, and the rest
      stay in order; with TA_CLR exactly the first one, and the pattern is cleared. */
  ghost predicate Passed(clr: bool, q: seq<Waiter>, got: FLGPTN, released: seq<Waiter>, rest: seq<Waiter>, ptn: FLGPTN) {
    if !clr then ptn == got && released == AllMet(q, got) && rest == NoneMet(q, got)
    else
      var k := FirstMet(q, got);
      if k == |q| then ptn == got && released == [] && rest == q
      else ptn == 0 && released == [q[k]] && rest == q[..k] + q[k + 1..]
  }

  /** Either way nobody is left waiting whose condition holds. */
  lemma PassedLeavesUnmet(clr: bool, q: seq<Waiter>, got: FLGPTN, released: seq<Waiter>, rest: seq<Waiter>, ptn: FLGPTN)
    requires Passed(clr, q, got, released, rest, ptn) && forall i :: 0 <= i < |q| ==> q[i].info.waiptn != 0
    ensures Unmet(rest, ptn)
    ensures |rest| <= |q|
  {
    if clr { ClearedQueue(q, rest, got, ptn); } else { KeptQueue(q, rest, got); }
  }

  lemma KeptQueue(q: seq<Waiter>, r: seq<Waiter>, ptn: FLGPTN)
    requires r == NoneMet(q, ptn) && forall i :: 0 <= i < |q| ==> q[i].info.waiptn != 0
    ensures Unmet(r, ptn)
    ensures |r| <= |q|
  {
    NoneMetIsUnmet(q, ptn);
    forall i | 0 <= i < |r| ensures r[i].info.waiptn != 0 && !Met(ptn, r[i]) {
      assert r[i] in NoneMet(q, ptn);
      assert r[i] in q;
    }
  }

  lemma ClearedQueue(q: seq<Waiter>, r: seq<Waiter>, got: FLGPTN, ptn: FLGPTN)
    requires forall i :: 0 <= i < |q| ==> q[i].info.waiptn != 0
    requires var k := FirstMet(q, got);
             if k == |q| then r == q && ptn == got else r == q[..k] + q[k + 1..] && ptn == 0
    ensures Unmet(r, ptn)
  {
    forall i | 0 <= i < |r| ensures r[i].info.waiptn != 0 && !Met(ptn, r[i]) {
      assert r[i] in q;
      if ptn == 0 { NothingMeetsZero(r[i]); }
    }
  }
}
