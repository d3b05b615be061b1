/** Data queues: a ring buffer, possibly of capacity 0, with the tasks waiting to send or to
    receive.  What is pending is one sequence: the ring and then the senders' data. */
module DataQueue {
  import opened Prelude
  import opened KernelState
  import opened RingBuffer
  import opened WaitList

  /** A task waiting to send, with its datum. */
  type Sender = Entry<int>

  function DataOf(s: seq<Sender>): (r: seq<int>)
    ensures |r| == |s| && forall i :: 0 <= i < |s| ==> r[i] == s[i].info
  {
    seq(|s|, i requires 0 <= i < |s| => s[i].info)
  }

  /** The datum of the first task waiting to send follows what is in the ring. */
  lemma FirstFollows(ring: seq<int>, s: seq<Sender>)
    requires s != []
    ensures ring + [s[0].info] + DataOf(s[1..]) == ring + DataOf(s)
  {
    assert DataOf(s) == [s[0].info] + DataOf(s[1..]);
  }

  lemma HeadOfRing(ring: seq<int>, d: seq<int>)
    requires ring != []
    ensures (ring + d)[0] == ring[0] && (ring + d)[1..] == ring[1..] + d
  {
  }

  /** Writing at the tail of a ring, full or not, and moving the tail on. */
  lemma Forced(buf: seq<int>, head: nat, count: nat, x: int)
    requires head < |buf| && count <= |buf|
    ensures var tail := Place(head, count, |buf|);
            var tail', buf' := if tail + 1 >= |buf| then 0 else tail + 1, buf[tail := x];
            && tail' < |buf|
            && (count < |buf| ==> tail' == Place(head, count + 1, |buf|) && Ring(buf', head, count + 1) == Ring(buf, head, count) + [x])
            && (count == |buf| ==> tail' == Place(tail', count, |buf|) && Ring(buf', tail', count) == Ring(buf, head, count)[1..] + [x])
  {
    if count < |buf| { RingPut(buf, head, count, x); } else { RingReplace(buf, head, x); }
  }

  class Dtq {
    const dtqcnt: nat
    const tpri: bool
    const dtqmb: array<int>
    var priority: seq<nat>         // the current priority of every task
    var swaitQueue: seq<Sender>
    var rwaitQueue: seq<nat>
    var count: nat
    var head: nat
    var tail: nat

    ghost predicate Linked()
      reads `count, `head, `tail
    {
      && dtqmb.Length == dtqcnt && count <= dtqcnt
      && (dtqcnt > 0 ==> head < dtqcnt && tail == Place(head, count, dtqcnt))
      && (dtqcnt == 0 ==> head == 0 && tail == 0)
    }

    /** The ring, oldest datum first. */
    ghost function Buffer(): (r: seq<int>)
      requires Linked()
      reads `count, `head, `tail, dtqmb
      ensures |r| == count
    {
      Ring(dtqmb[..], head, count)
    }

    /** Everything sent and not yet received, in the order it will be. */
    ghost function Pending(): seq<int>
      requires Linked()
      reads `count, `head, `tail, `swaitQueue, dtqmb
    {
      Buffer() + DataOf(swaitQueue)
    }

    /** Tasks wait to receive only when nothing is pending, to send only when the ring is full,
        and both in order. */
    ghost predicate Valid()
      reads this, dtqmb
    {
      && Linked()
      && Listed(tpri, priority, swaitQueue) && NoDup(rwaitQueue)
      && (rwaitQueue != [] ==> Pending() == [])
      && (swaitQueue != [] ==> count == dtqcnt)
    }

    constructor (dtqcnt: nat, tpri: bool, dtqmb: array<int>, priority: seq<nat>)
      requires dtqmb.Length == dtqcnt
      ensures Valid() && Pending() == [] && rwaitQueue == [] && this.priority == priority
      ensures this.dtqcnt == dtqcnt && this.tpri == tpri && this.dtqmb == dtqmb
    {
      this.dtqcnt, this.tpri, this.dtqmb, this.priority := dtqcnt, tpri, dtqmb, priority;
      swaitQueue, rwaitQueue := [], [];
      count, head, tail := 0, 0, 0;
    }

    /** `enqueue_data`. */
    method EnqueueData(data: int)
      requires Linked() && count < dtqcnt
      modifies `count, `tail, dtqmb
      ensures Linked() && Buffer() == old(Buffer()) + [data]
    {
      ghost var was := dtqmb[..];
      RingPut(was, head, count, data);
      dtqmb[tail] := data;
      assert dtqmb[..] == was[tail := data];
      count := count + 1;
      tail := tail + 1;
      if tail >= dtqcnt { tail := 0; }
    }

    /** `force_enqueue_data`: a full ring loses its oldest datum. */
    method ForceEnqueueData(data: int)
      requires Linked() && dtqcnt > 0
      modifies `count, `tail, `head, dtqmb
      ensures Linked()
      ensures Buffer() == if old(count) < dtqcnt then old(Buffer()) + [data] else old(Buffer())[1..] + [data]
    {
      ghost var was := dtqmb[..];
      Forced(was, head, count, data);
      dtqmb[tail] := data;
      assert dtqmb[..] == was[tail := data];
      tail := tail + 1;
      if tail >= dtqcnt { tail := 0; }
      if count < dtqcnt {
        count := count + 1;
      } else {
        head := tail;
      }
    }

    /** `dequeue_data`. */
    method DequeueData() returns (data: int)
      requires Linked() && count > 0
      modifies `count, `head
      ensures Linked() && data == old(Buffer())[0] && Buffer() == old(Buffer())[1..]
    {
      RingGet(dtqmb[..], head, count);
      data := dtqmb[head];
      count := count - 1;
      head := head + 1;
      if head >= dtqcnt { head := 0; }
    }

    /** The first task waiting to receive gets the datum. */
    method HandData(data: int) returns (woken: Option<Entry<int>>)
      requires NoDup(rwaitQueue) && rwaitQueue != []
      modifies `rwaitQueue
      ensures woken == Some(Entry(old(rwaitQueue)[0], data))
      ensures rwaitQueue == old(rwaitQueue)[1..] && NoDup(rwaitQueue)
    {
      NoDupTail(rwaitQueue);
      woken := Some(Entry(rwaitQueue[0], data));
      rwaitQueue := rwaitQueue[1..];
    }

    /** `send_data`: to the first task waiting to receive (`woken`, with what it gets), or
        into the ring. */
    method SendData(data: int) returns (sent: bool, woken: Option<Entry<int>>)
      requires Valid()
      modifies `rwaitQueue, `count, `tail, dtqmb
      ensures Valid() && swaitQueue == old(swaitQueue)
      ensures sent <==> old(rwaitQueue) != [] || old(count) < dtqcnt
      ensures woken == if old(rwaitQueue) != [] then Some(Entry(old(rwaitQueue)[0], data)) else None
      ensures rwaitQueue == if woken.Some? then old(rwaitQueue)[1..] else []
      ensures Pending() == if sent && woken.None? then old(Pending()) + [data] else old(Pending())
      ensures !sent ==> Buffer() == old(Buffer())
    {
      sent, woken := false, None;
      if rwaitQueue != [] {
        sent := true;
        woken := HandData(data);
      } else if count < dtqcnt {
        EnqueueData(data);
        sent := true;
      }
    }

    /** The datum of the first task waiting to send enters the ring; the task is released. */
    method AdmitSender() returns (t: nat)
      requires Linked() && count < dtqcnt && swaitQueue != [] && Listed(tpri, priority, swaitQueue)
      modifies `swaitQueue, `count, `tail, dtqmb
      ensures Listed(tpri, priority, swaitQueue)
      ensures Linked() && count == old(count) + 1 && Pending() == old(Pending())
      ensures t == old(swaitQueue)[0].tsk && swaitQueue == old(swaitQueue)[1..]
    {
      FirstFollows(Buffer(), swaitQueue);
      EnqueueData(swaitQueue[0].info);
      t := swaitQueue[0].tsk;
      FirstOk(tpri, priority, swaitQueue);
      swaitQueue := swaitQueue[1..];
    }

    /** Room in the ring goes to the first task waiting to send, if there is one. */
    method RefillRing() returns (woken: Option<nat>)
      requires Linked() && count < dtqcnt && Listed(tpri, priority, swaitQueue)
      requires swaitQueue != [] ==> count + 1 == dtqcnt
      modifies `swaitQueue, `count, `tail, dtqmb
      ensures Linked() && Listed(tpri, priority, swaitQueue) && Pending() == old(Pending())
      ensures swaitQueue != [] ==> count == dtqcnt
      ensures woken == if old(swaitQueue) != [] then Some(old(swaitQueue)[0].tsk) else None
      ensures swaitQueue == if woken.Some? then old(swaitQueue)[1..] else []
    {
      woken := None;
      if swaitQueue != [] {
        var t := AdmitSender();
        woken := Some(t);
      }
    }

    /** `receive_data`: always the oldest pending datum; room in the ring goes to the first
        task waiting to send (`woken`). */
    method ReceiveData() returns (received: bool, data: int, woken: Option<nat>)
      requires Valid()
      modifies `swaitQueue, `count, `head, `tail, dtqmb
      ensures Valid() && rwaitQueue == old(rwaitQueue)
      ensures received <==> old(Pending()) != []
      ensures received ==> data == old(Pending())[0] && Pending() == old(Pending())[1..]
      ensures !received ==> Pending() == []
      ensures woken == if old(swaitQueue) != [] then Some(old(swaitQueue)[0].tsk) else None
      ensures swaitQueue == if woken.Some? then old(swaitQueue)[1..] else []
    {
      received, data, woken := false, 0, None;
      if count > 0 {
        received := true;
        HeadOfRing(Buffer(), DataOf(swaitQueue));
        data := DequeueData();
        woken := RefillRing();
      } else if swaitQueue != [] {
        received, data, woken := true, swaitQueue[0].info, Some(swaitQueue[0].tsk);
        FirstOk(tpri, priority, swaitQueue);
        FirstFollows([], swaitQueue);
        swaitQueue := swaitQueue[1..];
      }
    }

    /** `snd_dtq` (TMO_FEVR), `psnd_dtq` (TMO_POL) and `tsnd_dtq` by task `t`. */
    method SndDtq(t: nat, data: int, tmout: int) returns (ercd: ER, woken: Option<Entry<int>>)
      requires Valid() && t !in Tasks(swaitQueue)
      modifies `swaitQueue, `rwaitQueue, `count, `tail, dtqmb
      ensures Valid()
      ensures ercd == if old(rwaitQueue) != [] || old(count) < dtqcnt then E_OK
                      else if tmout == TMO_POL then E_TMOUT else Blocked
      ensures woken == if old(rwaitQueue) != [] then Some(Entry(old(rwaitQueue)[0], data)) else None
      ensures rwaitQueue == if woken.Some? then old(rwaitQueue)[1..] else []
      ensures swaitQueue == if ercd == Blocked then Join(tpri, priority, old(swaitQueue), Entry(t, data))
                            else old(swaitQueue)
      ensures ercd == E_OK ==> Pending() == if woken.Some? then old(Pending()) else old(Pending()) + [data]
      ensures ercd == E_TMOUT ==> Pending() == old(Pending())
      ensures ercd == Blocked ==> Buffer() == old(Buffer()) && (!tpri ==> Pending() == old(Pending()) + [data])
    {
      var sent;
      sent, woken := SendData(data);
      if sent {
        ercd := E_OK;
      } else if tmout == TMO_POL {
        ercd := E_TMOUT;
      } else {
        ghost var ring := Buffer();
        JoinOk(tpri, priority, swaitQueue, Entry(t, data));
        swaitQueue := Join(tpri, priority, swaitQueue, Entry(t, data));
        assert Buffer() == ring;
        ercd := Blocked;
      }
    }

    /** `fsnd_dtq`: never waits; takes the place of the oldest datum if the ring is full. */
    method FsndDtq(data: int) returns (ercd: ER, woken: Option<Entry<int>>)
      requires Valid()
      modifies `rwaitQueue, `count, `head, `tail, dtqmb
      ensures Valid() && swaitQueue == old(swaitQueue)
      ensures ercd == if dtqcnt == 0 then E_ILUSE else E_OK
      ensures woken == if ercd == E_OK && old(rwaitQueue) != [] then Some(Entry(old(rwaitQueue)[0], data)) else None
      ensures rwaitQueue == if woken.Some? then old(rwaitQueue)[1..] else old(rwaitQueue)
      ensures Buffer() == if ercd != E_OK || woken.Some? then old(Buffer())
                          else if old(count) < dtqcnt then old(Buffer()) + [data]
                          else old(Buffer())[1..] + [data]
    {
      if !(dtqcnt > 0) { return E_ILUSE, None; }
      woken := None;
      if rwaitQueue != [] {
        woken := HandData(data);
      } else {
        ForceEnqueueData(data);
      }
      ercd := E_OK;
    }

    /** `rcv_dtq` (TMO_FEVR), `prcv_dtq` (TMO_POL) and `trcv_dtq` by task `t`. */
    method RcvDtq(t: nat, tmout: int) returns (ercd: ER, data: int, woken: Option<nat>)
      requires Valid() && t !in rwaitQueue
      modifies `swaitQueue, `rwaitQueue, `count, `head, `tail, dtqmb
      ensures Valid()
      ensures ercd == if old(Pending()) != [] then E_OK else if tmout == TMO_POL then E_TMOUT else Blocked
      ensures ercd == E_OK ==> data == old(Pending())[0] && Pending() == old(Pending())[1..]
      ensures ercd != E_OK ==> Pending() == []
      ensures woken == if old(swaitQueue) != [] then Some(old(swaitQueue)[0].tsk) else None
      ensures swaitQueue == if woken.Some? then old(swaitQueue)[1..] else []
      ensures rwaitQueue == if ercd == Blocked then old(rwaitQueue) + [t] else old(rwaitQueue)
    {
      var received;
      received, data, woken := ReceiveData();
      if received {
        ercd := E_OK;
      } else if tmout == TMO_POL {
        ercd := E_TMOUT;
      } else {
        NoDupAppend(rwaitQueue, t);
        rwaitQueue := rwaitQueue + [t];
        ercd := Blocked;
      }
    }

    /** A waiting task is released by a timeout, by force or by its termination. */
    method Leave(t: nat)
      requires Valid()
      modifies `swaitQueue, `rwaitQueue
      ensures Valid() && swaitQueue == Without(old(swaitQueue), t) && rwaitQueue == Remove(old(rwaitQueue), t)
    {
      WithoutOk(tpri, priority, swaitQueue, t);
      RemoveNoDup(rwaitQueue, t);
      swaitQueue := Without(swaitQueue, t);
      rwaitQueue := Remove(rwaitQueue, t);
    }

    /** The current priority of task `t` changes; if it waits to send it is queued anew, and its
        datum with it. */
    method ChangePriority(t: nat, pri: nat)
      requires Valid() && t < |priority|
      modifies `priority, `swaitQueue
      ensures Valid() && priority == old(priority)[t := pri]
      ensures swaitQueue == Rejoin(tpri, priority, old(swaitQueue), t)
    {
      RejoinOk(tpri, priority, swaitQueue, t, pri);
      RejoinMembers(tpri, priority[t := pri], swaitQueue, t);
      priority := priority[t := pri];
      swaitQueue := Rejoin(tpri, priority, swaitQueue, t);
    }

    /** `ini_dtq`: everyone waiting is told, nothing is pending any more. */
    method IniDtq() returns (senders: seq<Sender>, receivers: seq<nat>)
      requires Valid()
      modifies `swaitQueue, `rwaitQueue, `count, `head, `tail
      ensures Valid() && Pending() == [] && rwaitQueue == []
      ensures senders == old(swaitQueue) && receivers == old(rwaitQueue)
    {
      senders, receivers := swaitQueue, rwaitQueue;
      swaitQueue, rwaitQueue := [], [];
      count, head, tail := 0, 0, 0;
    }
  }
}
