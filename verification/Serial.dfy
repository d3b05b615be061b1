/** The serial interface driver: the parts of it that run with interrupts locked, on the ring
    buffers and flags of a port, each proved against a function on the abstract port. */
module Serial {
  import opened Prelude
  import opened RingBuffer

  const FC_STOP: char := 0x13 as char
  const FC_START: char := 0x11 as char

  function BufcntStop(bufsz: nat): nat { bufsz * 3 / 4 }
  function BufcntStart(bufsz: nat): nat { bufsz / 2 }

  /** The bits of `ioctl`. */
  datatype Ioctl = Ioctl(echo: bool, crlf: bool, fcsnd: bool, fcany: bool, fcrcv: bool)

  /** A port: its two buffers, oldest character first, and its flow control; `rdySnd` says that the
      device calls back when it can send.  `accepted` and `sent` are all data characters taken
      from tasks and handed to the device so far, `stored` and `read` all those taken from the
      device and handed to tasks, `fcSent` the START and STOP characters handed to the device. */
  datatype Port = Port(
    sndBufsz: nat, rcvBufsz: nat, ioctl: Ioctl,
    snd: seq<char>, rcv: seq<char>,
    rcvFcChr: Option<char>, rcvStopped: bool, sndStopped: bool, rdySnd: bool,
    accepted: seq<char>, sent: seq<char>, stored: seq<char>, read: seq<char>, fcSent: seq<char>)

  predicate Full(p: Port) { |p.snd| == p.sndBufsz }

  /** Buffers are within bounds; nothing is lost, invented or reordered on the way. */
  ghost predicate PortOk(p: Port) {
    && p.sndBufsz > 0 && p.rcvBufsz > 0 && |p.snd| <= p.sndBufsz && |p.rcv| <= p.rcvBufsz
    && p.accepted == p.sent + p.snd
    && p.stored == p.read + p.rcv
  }

  // ---- the locked sections

  /** `serial_wri_chr` after its carriage return: to the device if nothing is in front and it
      is `ready`, else into the buffer. */
  function WriChr(p: Port, c: char, ready: bool): Port {
    var p1 := p.(accepted := p.accepted + [c]);
    if p.snd == [] && !p.sndStopped && ready then p1.(sent := p.sent + [c])
    else p1.(snd := p.snd + [c], rdySnd := p.rdySnd || (p.snd == [] && !p.sndStopped))
  }

  /** START or STOP goes to the device, or waits for it. */
  function Tell(p: Port, c: char, ready: bool): Port {
    if ready then p.(fcSent := p.fcSent + [c]) else p.(rcvFcChr := Some(c), rdySnd := true)
  }

  /** What `serial_wri_chr` returns. */
  predicate WriFull(p: Port, c: char, ready: bool) {
    !(p.snd == [] && !p.sndStopped && ready) && |p.snd| + 1 == p.sndBufsz
  }

  /** `serial_rea_chr`; asks for more when the buffer has emptied enough. */
  function ReaChr(p: Port, ready: bool): Port
    requires p.rcv != []
  {
    var p1 := p.(rcv := p.rcv[1..], read := p.read + [p.rcv[0]]);
    if p.rcvStopped && |p1.rcv| <= BufcntStart(p.rcvBufsz)
    then Tell(p1.(rcvStopped := false), FC_START, ready)
    else p1
  }

  /** The oldest buffered character goes to the device. */
  function SendFirst(p: Port): Port
    requires p.snd != []
  {
    p.(snd := p.snd[1..], sent := p.sent + [p.snd[0]])
  }

  /** `sio_irdy_snd`: a pending START or STOP first, then data unless stopped. */
  function IrdySnd(p: Port): Port {
    if p.rcvFcChr.Some? then p.(rcvFcChr := None, fcSent := p.fcSent + [p.rcvFcChr.value])
    else if !p.sndStopped && p.snd != [] then SendFirst(p)
    else p.(rdySnd := false)
  }

  /** Whether `sio_irdy_snd` signals the send semaphore. */
  predicate IrdySndSignals(p: Port) { p.rcvFcChr.None? && !p.sndStopped && p.snd != [] && Full(p) }

  /** The character resumes sending. */
  predicate Resumes(p: Port, c: char) {
    !(p.ioctl.fcsnd && c == FC_STOP) && p.sndStopped && (c == FC_START || p.ioctl.fcany)
  }

  /** The character is data, and there is room for it. */
  predicate Stores(p: Port, c: char) {
    && !(p.ioctl.fcsnd && c == FC_STOP) && !Resumes(p, c) && !(p.ioctl.fcsnd && c == FC_START)
    && |p.rcv| != p.rcvBufsz
  }

  function Resumed(p: Port, ready: bool): Port {
    var p1 := p.(sndStopped := false);
    if p.snd == [] then p1 else if ready then SendFirst(p1) else p1.(rdySnd := true)
  }

  function Accepted(p: Port, c: char, ready: bool): Port {
    var p1 := p.(rcv := p.rcv + [c], stored := p.stored + [c]);
    if p.ioctl.fcrcv && !p.rcvStopped && |p1.rcv| >= BufcntStop(p.rcvBufsz)
    then Tell(p1.(rcvStopped := true), FC_STOP, ready)
    else p1
  }

  /** `sio_irdy_rcv` for character `c`; `ready` is what the device answers if asked. */
  function IrdyRcv(p: Port, c: char, ready: bool): Port {
    if p.ioctl.fcsnd && c == FC_STOP then p.(sndStopped := true)
    else if Resumes(p, c) then Resumed(p, ready)
    else if Stores(p, c) then Accepted(p, c, ready)
    else p
  }

  predicate IrdyRcvSignalsSnd(p: Port, c: char, ready: bool) { Resumes(p, c) && p.snd != [] && ready && Full(p) }

  predicate IrdyRcvSignalsRcv(p: Port, c: char) { Stores(p, c) && p.rcv == [] }

  lemma WriChrKeeps(p: Port, c: char, ready: bool)
    requires PortOk(p) && !Full(p)
    ensures PortOk(WriChr(p, c, ready)) && (WriFull(p, c, ready) <==> Full(WriChr(p, c, ready)))
    ensures WriChr(p, c, ready).rcv == p.rcv
  {
    if p.snd == [] && !p.sndStopped && ready { assert p.sent + p.snd + [c] == p.sent + [c] + p.snd; }
  }

  lemma ReaChrKeeps(p: Port, ready: bool)
    requires PortOk(p) && p.rcv != []
    ensures PortOk(ReaChr(p, ready)) && ReaChr(p, ready).snd == p.snd && ReaChr(p, ready).sndBufsz == p.sndBufsz
  {
    assert p.rcv == [p.rcv[0]] + p.rcv[1..];
  }

  lemma SendFirstKeeps(p: Port)
    requires PortOk(p) && p.snd != []
    ensures PortOk(SendFirst(p)) && !Full(SendFirst(p))
  {
    assert p.snd == [p.snd[0]] + p.snd[1..];
  }

  /** The semaphore is signalled exactly when a full buffer becomes less than full. */
  lemma IrdySndKeeps(p: Port)
    requires PortOk(p)
    ensures PortOk(IrdySnd(p)) && IrdySnd(p).rcv == p.rcv
    ensures IrdySndSignals(p) <==> Full(p) && !Full(IrdySnd(p))
    ensures Full(IrdySnd(p)) ==> Full(p)
  {
    if p.snd != [] { SendFirstKeeps(p); }
  }

  lemma IrdyRcvKeeps(p: Port, c: char, ready: bool)
    requires PortOk(p)
    ensures PortOk(IrdyRcv(p, c, ready))
    ensures IrdyRcvSignalsSnd(p, c, ready) <==> Full(p) && !Full(IrdyRcv(p, c, ready))
    ensures Full(IrdyRcv(p, c, ready)) ==> Full(p)
    ensures IrdyRcvSignalsRcv(p, c) <==> p.rcv == [] && IrdyRcv(p, c, ready).rcv != []
    ensures IrdyRcv(p, c, ready).rcv == [] ==> p.rcv == []
  {
    if Resumes(p, c) {
      if p.snd != [] { SendFirstKeeps(p.(sndStopped := false)); }
    } else if Stores(p, c) {
      assert p.read + p.rcv + [c] == p.read + (p.rcv + [c]);
    }
  }

  // ---- the port

  /** INC_PTR. */
  method IncPtr(ptr: nat, bufsz: nat) returns (r: nat)
    requires ptr < bufsz
    ensures r < bufsz && r == if ptr + 1 == bufsz then 0 else ptr + 1
  {
    r := ptr + 1;
    if r == bufsz { r := 0; }
  }

  class Spcb {
    const sndBufsz: nat
    const rcvBufsz: nat
    const sndBuffer: array<char>
    const rcvBuffer: array<char>
    var ioctl: Ioctl
    var rcvReadPtr: nat
    var rcvWritePtr: nat
    var rcvCount: nat
    var rcvFcChr: Option<char>
    var rcvStopped: bool
    var sndReadPtr: nat
    var sndWritePtr: nat
    var sndCount: nat
    var sndStopped: bool
    var rdySnd: bool               // the device's callback for SIO_RDY_SND
    ghost var accepted: seq<char>
    ghost var sent: seq<char>
    ghost var stored: seq<char>
    ghost var read: seq<char>
    ghost var fcSent: seq<char>

    ghost predicate Valid()
      reads this
    {
      && sndBuffer != rcvBuffer
      && 0 < sndBufsz == sndBuffer.Length && 0 < rcvBufsz == rcvBuffer.Length
      && sndCount <= sndBufsz && rcvCount <= rcvBufsz
      && sndReadPtr < sndBufsz && sndWritePtr == Place(sndReadPtr, sndCount, sndBufsz)
      && rcvReadPtr < rcvBufsz && rcvWritePtr == Place(rcvReadPtr, rcvCount, rcvBufsz)
    }

    ghost function P(): Port
      requires Valid()
      reads this, sndBuffer, rcvBuffer
    {
      Port(sndBufsz, rcvBufsz, ioctl, Ring(sndBuffer[..], sndReadPtr, sndCount), Ring(rcvBuffer[..], rcvReadPtr, rcvCount),
           rcvFcChr, rcvStopped, sndStopped, rdySnd, accepted, sent, stored, read, fcSent)
    }

    /** What `serial_opn_por` initializes. */
    constructor (sndBuffer: array<char>, rcvBuffer: array<char>, ioctl: Ioctl)
      requires sndBuffer != rcvBuffer && sndBuffer.Length > 0 && rcvBuffer.Length > 0
      ensures Valid() && PortOk(P()) && P().snd == [] && P().rcv == [] && P().rcvFcChr == None
      ensures !rcvStopped && !sndStopped && !rdySnd && fcSent == [] && this.ioctl == ioctl
    {
      this.sndBuffer, this.rcvBuffer, this.ioctl := sndBuffer, rcvBuffer, ioctl;
      sndBufsz, rcvBufsz := sndBuffer.Length, rcvBuffer.Length;
      rcvReadPtr, rcvWritePtr, rcvCount, rcvFcChr, rcvStopped := 0, 0, 0, None, false;
      sndReadPtr, sndWritePtr, sndCount, sndStopped, rdySnd := 0, 0, 0, false, false;
      accepted, sent, stored, read, fcSent := [], [], [], [], [];
    }

    /** The locked section of `serial_wri_chr`. */
    method SerialWriChr(c: char, ready: bool) returns (bufferFull: bool)
      requires Valid() && sndCount < sndBufsz
      modifies this, sndBuffer
      ensures Valid() && P() == WriChr(old(P()), c, ready)
      ensures bufferFull <==> WriFull(old(P()), c, ready)
    {
      bufferFull := false;
      accepted := accepted + [c];
      var taken := false;
      if sndCount == 0 && !sndStopped { taken := SerialSndChr(ready); }
      if taken {
        sent := sent + [c];
      } else {
        Buffer(c);
        bufferFull := sndCount == sndBufsz;
      }
    }

    /** `serial_snd_chr`: a device that does not take a character calls back when it can. */
    method SerialSndChr(ready: bool) returns (taken: bool)
      modifies `rdySnd
      ensures taken == ready && rdySnd == (old(rdySnd) || !ready)
    {
      taken := ready;
      if !ready { rdySnd := true; }
    }

    /** START or STOP goes to the device, or waits for it. */
    method TellPeer(c: char, ready: bool)
      requires Valid()
      modifies `rcvFcChr, `rdySnd, `fcSent
      ensures Valid() && P() == Tell(old(P()), c, ready)
    {
      var taken := SerialSndChr(ready);
      if taken { fcSent := fcSent + [c]; } else { rcvFcChr := Some(c); }
    }

    /** A character joins the send buffer. */
    method Buffer(c: char)
      requires Valid() && sndCount < sndBufsz
      modifies `sndWritePtr, `sndCount, sndBuffer
      ensures Valid() && P() == old(P()).(snd := old(P()).snd + [c])
    {
      ghost var was := sndBuffer[..];
      RingPut(was, sndReadPtr, sndCount, c);
      sndBuffer[sndWritePtr] := c;
      assert sndBuffer[..] == was[sndWritePtr := c];
      sndWritePtr := IncPtr(sndWritePtr, sndBufsz);
      sndCount := sndCount + 1;
    }

    /** The oldest character of the send buffer has gone to the device. */
    method TakeSent()
      requires Valid() && sndCount > 0
      modifies `sndReadPtr, `sndCount, `sent
      ensures Valid() && P() == SendFirst(old(P()))
    {
      RingGet(sndBuffer[..], sndReadPtr, sndCount);
      sent := sent + [sndBuffer[sndReadPtr]];
      sndReadPtr := IncPtr(sndReadPtr, sndBufsz);
      sndCount := sndCount - 1;
    }

    /** The oldest character of the receive buffer goes to a task. */
    method TakeStored() returns (c: char)
      requires Valid() && rcvCount > 0
      modifies `rcvReadPtr, `rcvCount, `read
      ensures Valid() && c == old(P()).rcv[0]
      ensures P() == old(P()).(rcv := old(P()).rcv[1..], read := old(P()).read + [c])
    {
      RingGet(rcvBuffer[..], rcvReadPtr, rcvCount);
      c := rcvBuffer[rcvReadPtr];
      read := read + [c];
      rcvReadPtr := IncPtr(rcvReadPtr, rcvBufsz);
      rcvCount := rcvCount - 1;
    }

    /** The locked section of `serial_rea_chr`. */
    method SerialReaChr(ready: bool) returns (c: char, bufferEmpty: bool)
      requires Valid() && rcvCount > 0
      modifies this
      ensures Valid() && P() == ReaChr(old(P()), ready) && c == old(P()).rcv[0]
      ensures bufferEmpty <==> P().rcv == []
    {
      c := TakeStored();
      bufferEmpty := rcvCount == 0;
      if rcvStopped && rcvCount <= BufcntStart(rcvBufsz) {
        rcvStopped := false;
        TellPeer(FC_START, ready);
      }
    }

    /** `sio_irdy_snd`; the result is whether it signals the send semaphore. */
    method SioIrdySnd() returns (signal: bool)
      requires Valid()
      modifies this
      ensures Valid() && P() == IrdySnd(old(P())) && (signal <==> IrdySndSignals(old(P())))
    {
      signal := false;
      if rcvFcChr.Some? {
        fcSent := fcSent + [rcvFcChr.value];
        rcvFcChr := None;
      } else if !sndStopped && sndCount > 0 {
        signal := sndCount == sndBufsz;
        TakeSent();
      } else {
        rdySnd := false;
      }
    }

    /** `sio_irdy_rcv`; the results are whether it signals the semaphores. */
    method SioIrdyRcv(c: char, ready: bool) returns (signalSnd: bool, signalRcv: bool)
      requires Valid()
      modifies this, rcvBuffer
      ensures Valid() && P() == IrdyRcv(old(P()), c, ready)
      ensures signalSnd <==> IrdyRcvSignalsSnd(old(P()), c, ready)
      ensures signalRcv <==> IrdyRcvSignalsRcv(old(P()), c)
    {
      signalSnd, signalRcv := false, false;
      if ioctl.fcsnd && c == FC_STOP {
        sndStopped := true;
      } else if sndStopped && (c == FC_START || ioctl.fcany) {
        signalSnd := Resume(ready);
      } else if ioctl.fcsnd && c == FC_START {
      } else if rcvCount == rcvBufsz {
      } else {
        signalRcv := rcvCount == 0;
        Accept(c, ready);
      }
    }

    /** Sending resumes, with a character at once if the device takes one. */
    method Resume(ready: bool) returns (signal: bool)
      requires Valid()
      modifies `sndStopped, `sndReadPtr, `sndCount, `sent, `rdySnd
      ensures Valid() && P() == Resumed(old(P()), ready)
      ensures signal <==> old(P()).snd != [] && ready && Full(old(P()))
    {
      signal := false;
      sndStopped := false;
      if sndCount > 0 {
        var taken := SerialSndChr(ready);
        if taken {
          signal := sndCount == sndBufsz;
          TakeSent();
        }
      }
    }

    /** A data character is stored; the peer is told to stop when the buffer fills up. */
    method Accept(c: char, ready: bool)
      requires Valid() && rcvCount < rcvBufsz
      modifies `rcvWritePtr, `rcvCount, `stored, `rcvFcChr, `rcvStopped, `rdySnd, `fcSent, rcvBuffer
      ensures Valid() && P() == Accepted(old(P()), c, ready)
    {
      Store(c);
      if ioctl.fcrcv && !rcvStopped && rcvCount >= BufcntStop(rcvBufsz) {
        rcvStopped := true;
        TellPeer(FC_STOP, ready);
      }
    }

    method Store(c: char)
      requires Valid() && rcvCount < rcvBufsz
      modifies `rcvWritePtr, `rcvCount, `stored, rcvBuffer
      ensures Valid() && P() == old(P()).(rcv := old(P()).rcv + [c], stored := old(P()).stored + [c])
    {
      ghost var was := rcvBuffer[..];
      RingPut(was, rcvReadPtr, rcvCount, c);
      rcvBuffer[rcvWritePtr] := c;
      assert rcvBuffer[..] == was[rcvWritePtr := c];
      stored := stored + [c];
      rcvWritePtr := IncPtr(rcvWritePtr, rcvBufsz);
      rcvCount := rcvCount + 1;
    }
  }
}
