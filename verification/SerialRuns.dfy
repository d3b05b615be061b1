/** The token protocol of the serial driver under every interleaving of its tasks and its
    callbacks.  A port has one send token: it is in the send semaphore, with a writer, or
    taken away because the buffer is full; and one receive token: in the receive semaphore,
    with a reader, or taken away because the buffer is empty. */
module SerialRuns {
  import opened Prelude
  import opened Serial

  datatype Token = Out | Waiting | Held

  /** Where a task is in its call.  A writer has `buf` still to write, `cr` says that the
      carriage return before a line feed has been written; a reader has `todo` characters
      still to read and may be echoing one. */
  datatype Thread =
    | Idle
    | Writing(buf: seq<char>, cr: bool, stok: Token)
    | Reading(todo: nat, rtok: Token, echo: Echoing)
  datatype Echoing = NoEcho | Echo(c: char, ecr: bool, etok: Token) | EchoSig

  datatype Sem = Sem(cnt: nat, queue: seq<nat>)

  /** `lost` counts receive tokens that went with an aborted echo. */
  datatype Sys = Sys(port: Port, ssem: Sem, rsem: Sem, thr: seq<Thread>, errorflag: bool, lost: nat)

  // ---- semaphores

  function SemOf(s: Sys, snd: bool): Sem { if snd then s.ssem else s.rsem }

  function WithSem(s: Sys, snd: bool, sem: Sem): Sys { if snd then s.(ssem := sem) else s.(rsem := sem) }

  function TokenOf(th: Thread, snd: bool): Token {
    match th
    case Idle => Out
    case Writing(_, _, stok) => if snd then stok else Out
    case Reading(_, rtok, echo) =>
      if !snd then rtok
      else match echo
           case NoEcho => Out
           case Echo(_, _, etok) => etok
           case EchoSig => Held
  }

  function WithToken(th: Thread, snd: bool, tok: Token): Thread {
    match th
    case Idle => Idle
    case Writing(_, _, _) => if snd then th.(stok := tok) else th
    case Reading(_, _, echo) =>
      if !snd then th.(rtok := tok)
      else if echo.Echo? then th.(echo := echo.(etok := tok)) else th
  }

  function SetThread(s: Sys, t: nat, th: Thread): Sys
    requires t < |s.thr|
  {
    s.(thr := s.thr[t := th])
  }

  /** `sig_sem` and `isig_sem`; an overflow sets the error flag. */
  function Signal(s: Sys, snd: bool): Sys {
    var sem := SemOf(s, snd);
    if sem.queue != [] && sem.queue[0] < |s.thr| then
      var t := sem.queue[0];
      WithSem(SetThread(s, t, WithToken(s.thr[t], snd, Held)), snd, sem.(queue := sem.queue[1..]))
    else if sem.cnt < 1 then WithSem(s, snd, sem.(cnt := sem.cnt + 1))
    else s.(errorflag := true)
  }

  /** Task `t` enters a queue at place `at`, or last: where its priority puts it. */
  function PutIn(queue: seq<nat>, t: nat, at: nat): seq<nat> {
    if at < |queue| then queue[..at] + [t] + queue[at..] else queue + [t]
  }

  /** `wai_sem`; a task that has to wait gets place `at` in the queue. */
  function Acquire(s: Sys, snd: bool, t: nat, at: nat): Sys
    requires t < |s.thr|
  {
    var sem := SemOf(s, snd);
    if sem.cnt >= 1 then WithSem(SetThread(s, t, WithToken(s.thr[t], snd, Held)), snd, sem.(cnt := sem.cnt - 1))
    else WithSem(SetThread(s, t, WithToken(s.thr[t], snd, Waiting)), snd, sem.(queue := PutIn(sem.queue, t, at)))
  }

  // ---- steps

  datatype Action =
    | StartWrite(t: nat, data: seq<char>) | StartRead(t: nat, len: nat)
    | WaitSnd(t: nat, at: nat) | WaitRcv(t: nat, at: nat)
    | Reorder(t: nat, at: nat)    // the priority of a waiting task changes
    | Write(t: nat, ready: bool) | EndWrite(t: nat)
    | Read(t: nat, ready: bool) | EchoDone(t: nat) | EndRead(t: nat)
    | Abort(t: nat)
    | SndCallback | RcvCallback(c: char, ready: bool) | Control(ioctl: Ioctl)

  predicate Is(s: Sys, t: nat) { t < |s.thr| }

  predicate Enabled(s: Sys, a: Action) {
    match a
    case StartWrite(t, _) => Is(s, t) && s.thr[t].Idle?
    case StartRead(t, _) => Is(s, t) && s.thr[t].Idle?
    case WaitSnd(t, _) => Is(s, t) && NextChar(s.thr[t]).Some? && TokenOf(s.thr[t], true).Out?
    case WaitRcv(t, _) => Is(s, t) && s.thr[t].Reading? && s.thr[t].todo > 0 && s.thr[t].echo.NoEcho? && s.thr[t].rtok.Out?
    case Reorder(t, _) => Is(s, t) && (TokenOf(s.thr[t], true).Waiting? || TokenOf(s.thr[t], false).Waiting?)
    case Write(t, _) => Is(s, t) && NextChar(s.thr[t]).Some? && TokenOf(s.thr[t], true).Held?
    case EndWrite(t) => Is(s, t) && s.thr[t].Writing? && s.thr[t].buf == []
    case Read(t, _) => Is(s, t) && s.thr[t].Reading? && s.thr[t].todo > 0 && s.thr[t].echo.NoEcho? && s.thr[t].rtok.Held?
    case EchoDone(t) => Is(s, t) && s.thr[t].Reading? && s.thr[t].echo.EchoSig?
    case EndRead(t) => Is(s, t) && s.thr[t].Reading? && s.thr[t].todo == 0 && s.thr[t].echo.NoEcho?
    case Abort(t) => Is(s, t) && (TokenOf(s.thr[t], true).Waiting? || TokenOf(s.thr[t], false).Waiting?)
    case SndCallback => true
    case RcvCallback(_, _) => true
    case Control(_) => true
  }

  /** The character a task is about to write, and whether its carriage return is out. */
  function NextChar(th: Thread): Option<(char, bool)> {
    match th
    case Writing(buf, cr, _) => if buf == [] then None else Some((buf[0], cr))
    case Reading(_, _, Echo(c, ecr, _)) => Some((c, ecr))
    case _ => None
  }

  /** After writing: with `cr` only the carriage return, and `full` takes the token away. */
  function Written(th: Thread, cr: bool, full: bool): Thread {
    var tok := if full then Out else Held;
    match th
    case Writing(buf, _, _) => if cr || buf == [] then Writing(buf, true, tok) else Writing(buf[1..], false, tok)
    case Reading(todo, rtok, Echo(c, _, _)) =>
      Reading(todo, rtok, if cr then Echo(c, true, tok) else if full then NoEcho else EchoSig)
    case _ => th
  }

  function Step(s: Sys, a: Action): Sys
    requires Enabled(s, a)
  {
    match a
    case StartWrite(t, data) => SetThread(s, t, Writing(data, false, Out))
    case StartRead(t, len) => SetThread(s, t, Reading(len, Out, NoEcho))
    case WaitSnd(t, at) => Acquire(s, true, t, at)
    case WaitRcv(t, at) => Acquire(s, false, t, at)
    case Reorder(t, at) =>
      var snd := TokenOf(s.thr[t], true).Waiting?;
      var sem := SemOf(s, snd);
      WithSem(s, snd, sem.(queue := PutIn(Remove(sem.queue, t), t, at)))
    case Write(t, ready) =>
      var (c, cr) := NextChar(s.thr[t]).value;
      var first := c == '\n' && s.port.ioctl.crlf && !cr;
      var c1 := if first then '\r' else c;
      SetThread(s.(port := WriChr(s.port, c1, ready)), t, Written(s.thr[t], first, WriFull(s.port, c1, ready)))
    case EndWrite(t) =>
      var s1 := SetThread(s, t, Idle);
      if s.thr[t].stok.Held? then Signal(s1, true) else s1
    case Read(t, ready) =>
      if s.port.rcv == [] then s.(errorflag := true)
      else
        var p1 := ReaChr(s.port, ready);
        SetThread(s.(port := p1), t,
                  Reading(s.thr[t].todo - 1, if p1.rcv == [] then Out else Held,
                          if p1.ioctl.echo then Echo(s.port.rcv[0], false, Out) else NoEcho))
    case EchoDone(t) => Signal(SetThread(s, t, s.thr[t].(echo := NoEcho)), true)
    case EndRead(t) =>
      var s1 := SetThread(s, t, Idle);
      if s.thr[t].rtok.Held? then Signal(s1, false) else s1
    case Abort(t) =>
      var snd := TokenOf(s.thr[t], true).Waiting?;
      var sem := SemOf(s, snd);
      var s1 := WithSem(SetThread(s, t, Idle), snd, sem.(queue := Remove(sem.queue, t)));
      if TokenOf(s.thr[t], false).Held? then s1.(lost := s.lost + 1) else s1
    case SndCallback =>
      var s1 := s.(port := IrdySnd(s.port));
      if IrdySndSignals(s.port) then Signal(s1, true) else s1
    case RcvCallback(c, ready) =>
      var s1 := s.(port := IrdyRcv(s.port, c, ready));
      if IrdyRcvSignalsSnd(s.port, c, ready) then Signal(s1, true)
      else if IrdyRcvSignalsRcv(s.port, c) then Signal(s1, false)
      else s1
    case Control(ioctl) => s.(port := s.port.(ioctl := ioctl))
  }

  // ---- the invariant

  function Count(thr: seq<Thread>, snd: bool): nat {
    if thr == [] then 0 else (if TokenOf(thr[0], snd).Held? then 1 else 0) + Count(thr[1..], snd)
  }

  ghost predicate QueueOk(s: Sys, snd: bool) {
    var sem := SemOf(s, snd);
    && NoDup(sem.queue)
    && (forall t :: t in sem.queue ==> t < |s.thr| && TokenOf(s.thr[t], snd).Waiting?)
    && (forall t :: 0 <= t < |s.thr| && TokenOf(s.thr[t], snd).Waiting? ==> t in sem.queue)
    && (sem.queue != [] ==> sem.cnt == 0)
  }

  /** A task waits only where its call waits. */
  predicate ThreadOk(th: Thread) {
    match th
    case Idle => true
    case Writing(buf, _, stok) => stok.Waiting? ==> buf != []
    case Reading(todo, rtok, echo) => rtok.Waiting? ==> todo > 0 && echo.NoEcho?
  }

  /** How many tokens are neither in the semaphore nor with a task. */
  function Away(s: Sys, snd: bool): nat {
    if snd then (if Full(s.port) then 1 else 0)
    else (if s.port.rcv == [] then 1 else 0) + s.lost
  }

  /** Everything but the number of tokens. */
  ghost predicate Base(s: Sys) {
    && PortOk(s.port) && !s.errorflag
    && (forall t :: 0 <= t < |s.thr| ==> ThreadOk(s.thr[t]))
    && QueueOk(s, true) && QueueOk(s, false)
  }

  function Sum(s: Sys, snd: bool): nat { SemOf(s, snd).cnt + Count(s.thr, snd) + Away(s, snd) }

  ghost predicate SysOk(s: Sys) {
    Base(s) && Sum(s, true) == 1 && Sum(s, false) == 1
  }

  function TokenCount(th: Thread, snd: bool): nat { if TokenOf(th, snd).Held? then 1 else 0 }

  lemma {:induction false} CountUpdate(thr: seq<Thread>, snd: bool, t: nat, th: Thread)
    requires t < |thr|
    ensures Count(thr[t := th], snd) + TokenCount(thr[t], snd) == Count(thr, snd) + TokenCount(th, snd)
  {
    if t > 0 {
      CountUpdate(thr[1..], snd, t - 1, th);
      assert thr[t := th][1..] == thr[1..][t - 1 := th];
    } else {
      assert thr[t := th][1..] == thr[1..];
    }
  }

  lemma {:induction false} SomeHeld(thr: seq<Thread>, snd: bool, t: nat)
    requires t < |thr| && TokenOf(thr[t], snd).Held?
    ensures Count(thr, snd) >= 1
  {
    if t > 0 { SomeHeld(thr[1..], snd, t - 1); }
  }

  predicate Waits(th: Thread) { TokenOf(th, true).Waiting? || TokenOf(th, false).Waiting? }

  /** A task that waits for nothing moves on in its call. */
  lemma SetThreadBase(s: Sys, t: nat, th: Thread)
    requires Base(s) && t < |s.thr| && !Waits(s.thr[t]) && !Waits(th) && ThreadOk(th)
    ensures Base(SetThread(s, t, th))
    ensures forall snd :: Sum(SetThread(s, t, th), snd) + TokenCount(s.thr[t], snd) == Sum(s, snd) + TokenCount(th, snd)
  {
    CountUpdate(s.thr, true, t, th);
    CountUpdate(s.thr, false, t, th);
    forall snd ensures QueueOk(SetThread(s, t, th), snd) {
      assert QueueOk(s, snd);
    }
  }

  lemma PortBase(s: Sys, p: Port)
    requires Base(s) && PortOk(p)
    ensures Base(s.(port := p))
    ensures forall snd :: Sum(s.(port := p), snd) + Away(s, snd) == Sum(s, snd) + Away(s.(port := p), snd)
  {
    forall snd ensures QueueOk(s.(port := p), snd) {
      assert QueueOk(s, snd);
    }
  }

  /** What giving a task a token, or letting it wait for one, does to its state. */
  lemma WithTokenIs(th: Thread, snd: bool, tok: Token)
    requires TokenOf(th, snd).Waiting? || (TokenOf(th, snd).Out? && WantsToken(th, snd))
    requires ThreadOk(th)
    ensures var th' := WithToken(th, snd, tok);
            TokenOf(th', snd) == tok && TokenOf(th', !snd) == TokenOf(th, !snd) && ThreadOk(th')
  {
  }

  predicate WantsToken(th: Thread, snd: bool) {
    if snd then NextChar(th).Some? else th.Reading? && th.todo > 0 && th.echo.NoEcho?
  }

  /** A signal with the semaphore empty adds one token. */
  lemma SignalBase(s: Sys, snd: bool)
    requires Base(s) && SemOf(s, snd).cnt == 0
    ensures Base(Signal(s, snd)) && Sum(Signal(s, snd), snd) == Sum(s, snd) + 1
    ensures Sum(Signal(s, snd), !snd) == Sum(s, !snd)
  {
    assert QueueOk(s, snd) && QueueOk(s, !snd);
    var sem := SemOf(s, snd);
    if sem.queue != [] {
      var t := sem.queue[0];
      assert t in sem.queue;
      NoDupTail(sem.queue);
      var th := WithToken(s.thr[t], snd, Held);
      WithTokenIs(s.thr[t], snd, Held);
      CountUpdate(s.thr, true, t, th);
      CountUpdate(s.thr, false, t, th);
      assert QueueOk(Signal(s, snd), snd);
      assert QueueOk(Signal(s, snd), !snd);
    } else {
      assert QueueOk(Signal(s, snd), snd);
      assert QueueOk(Signal(s, snd), !snd);
    }
  }

  lemma PutInOk(queue: seq<nat>, t: nat, at: nat)
    requires NoDup(queue) && t !in queue
    ensures NoDup(PutIn(queue, t, at)) && forall x :: x in PutIn(queue, t, at) <==> x in queue || x == t
  {
    if at < |queue| { assert queue == queue[..at] + queue[at..]; }
  }

  lemma AcquireBase(s: Sys, snd: bool, t: nat, at: nat)
    requires Base(s) && t < |s.thr| && TokenOf(s.thr[t], snd).Out? && WantsToken(s.thr[t], snd)
    ensures Base(Acquire(s, snd, t, at)) && Sum(Acquire(s, snd, t, at), snd) == Sum(s, snd)
    ensures Sum(Acquire(s, snd, t, at), !snd) == Sum(s, !snd)
  {
    assert QueueOk(s, snd) && QueueOk(s, !snd);
    var sem := SemOf(s, snd);
    var tok := if sem.cnt >= 1 then Held else Waiting;
    var th := WithToken(s.thr[t], snd, tok);
    WithTokenIs(s.thr[t], snd, tok);
    CountUpdate(s.thr, true, t, th);
    CountUpdate(s.thr, false, t, th);
    if sem.cnt == 0 { PutInOk(sem.queue, t, at); }
    assert QueueOk(Acquire(s, snd, t, at), snd);
    assert QueueOk(Acquire(s, snd, t, at), !snd);
  }

  /** A waiting task moves within its queue. */
  lemma ReorderOk(s: Sys, t: nat, at: nat)
    requires SysOk(s) && Enabled(s, Reorder(t, at))
    ensures SysOk(Step(s, Reorder(t, at)))
  {
    var snd := TokenOf(s.thr[t], true).Waiting?;
    var s' := Step(s, Reorder(t, at));
    var q := SemOf(s, snd).queue;
    assert QueueOk(s, snd) && QueueOk(s, !snd);
    RemoveNoDup(q, t);
    PutInOk(Remove(q, t), t, at);
    assert QueueOk(s', snd) && QueueOk(s', !snd);
  }

  // ---- every step

  /** A holder of the send token finds room in the buffer. */
  lemma WriteOk(s: Sys, t: nat, ready: bool)
    requires SysOk(s) && Enabled(s, Write(t, ready))
    ensures SysOk(Step(s, Write(t, ready)))
  {
    var (c, cr) := NextChar(s.thr[t]).value;
    var first := c == '\n' && s.port.ioctl.crlf && !cr;
    WriteCharOk(s, t, if first then '\r' else c, first, ready);
  }

  lemma WriteCharOk(s: Sys, t: nat, c1: char, first: bool, ready: bool)
    requires SysOk(s) && t < |s.thr| && TokenOf(s.thr[t], true).Held? && NextChar(s.thr[t]).Some?
    ensures SysOk(SetThread(s.(port := WriChr(s.port, c1, ready)), t, Written(s.thr[t], first, WriFull(s.port, c1, ready))))
  {
    SomeHeld(s.thr, true, t);
    WriChrKeeps(s.port, c1, ready);
    var s1 := s.(port := WriChr(s.port, c1, ready));
    PortBase(s, s1.port);
    var th := Written(s.thr[t], first, WriFull(s.port, c1, ready));
    assert Away(s1, false) == Away(s, false);
    SetThreadBase(s1, t, th);
    assert TokenCount(th, false) == TokenCount(s.thr[t], false);
    assert Sum(s1, true) == Sum(s, true) - Away(s, true) + Away(s1, true);
  }

  /** A holder of the receive token finds a character in the buffer. */
  lemma ReadOk(s: Sys, t: nat, ready: bool)
    requires SysOk(s) && Enabled(s, Read(t, ready))
    ensures SysOk(Step(s, Read(t, ready))) && s.port.rcv != []
  {
    SomeHeld(s.thr, false, t);
    assert Away(s, false) == 0;
    var p1 := ReaChr(s.port, ready);
    ReaChrKeeps(s.port, ready);
    var s1 := s.(port := p1);
    PortBase(s, p1);
    var th := Reading(s.thr[t].todo - 1, if p1.rcv == [] then Out else Held,
                      if p1.ioctl.echo then Echo(s.port.rcv[0], false, Out) else NoEcho);
    SetThreadBase(s1, t, th);
    assert Away(s1, true) == Away(s, true);
    assert TokenCount(th, true) == 0 == TokenCount(s.thr[t], true);
  }

  /** A token that is given back finds its semaphore empty. */
  lemma ReturnOk(s: Sys, snd: bool, t: nat, th: Thread)
    requires SysOk(s) && t < |s.thr| && !Waits(s.thr[t]) && !Waits(th) && ThreadOk(th)
    requires TokenOf(s.thr[t], snd).Held? && TokenCount(th, snd) == 0
    requires TokenCount(th, !snd) == TokenCount(s.thr[t], !snd)
    ensures SysOk(Signal(SetThread(s, t, th), snd))
  {
    SomeHeld(s.thr, snd, t);
    SetThreadBase(s, t, th);
    assert SemOf(SetThread(s, t, th), snd).cnt == 0;
    SignalBase(SetThread(s, t, th), snd);
  }

  /** A task moves on in its call without touching a token. */
  lemma MoveOk(s: Sys, t: nat, th: Thread)
    requires SysOk(s) && t < |s.thr| && !Waits(s.thr[t]) && !Waits(th) && ThreadOk(th)
    requires forall snd :: TokenCount(th, snd) == TokenCount(s.thr[t], snd)
    ensures SysOk(SetThread(s, t, th))
  {
    SetThreadBase(s, t, th);
  }

  lemma SndCallbackOk(s: Sys)
    requires SysOk(s)
    ensures SysOk(Step(s, SndCallback))
  {
    IrdySndKeeps(s.port);
    var s1 := s.(port := IrdySnd(s.port));
    PortBase(s, s1.port);
    if IrdySndSignals(s.port) { SignalBase(s1, true); }
  }

  lemma RcvCallbackOk(s: Sys, c: char, ready: bool)
    requires SysOk(s)
    ensures SysOk(Step(s, RcvCallback(c, ready)))
  {
    IrdyRcvKeeps(s.port, c, ready);
    var s1 := s.(port := IrdyRcv(s.port, c, ready));
    PortBase(s, s1.port);
    if IrdyRcvSignalsSnd(s.port, c, ready) {
      SignalBase(s1, true);
    } else if IrdyRcvSignalsRcv(s.port, c) {
      SignalBase(s1, false);
    }
  }

  lemma AbortOk(s: Sys, t: nat)
    requires SysOk(s) && Enabled(s, Abort(t))
    ensures SysOk(Step(s, Abort(t)))
  {
    var snd := TokenOf(s.thr[t], true).Waiting?;
    assert QueueOk(s, snd) && QueueOk(s, !snd);
    RemoveNoDup(SemOf(s, snd).queue, t);
    CountUpdate(s.thr, true, t, Idle);
    CountUpdate(s.thr, false, t, Idle);
    var s' := Step(s, Abort(t));
    assert QueueOk(s', snd) && QueueOk(s', !snd);
  }

  /** Every step of every task and every callback keeps both tokens unique, the buffers
      within bounds and the characters in order, and raises no error. */
  lemma StepOk(s: Sys, a: Action)
    requires SysOk(s) && Enabled(s, a)
    ensures SysOk(Step(s, a))
  {
    match a
    case StartWrite(t, data) => MoveOk(s, t, Writing(data, false, Out));
    case StartRead(t, len) => MoveOk(s, t, Reading(len, Out, NoEcho));
    case WaitSnd(t, at) => AcquireBase(s, true, t, at);
    case WaitRcv(t, at) => AcquireBase(s, false, t, at);
    case Reorder(t, at) => ReorderOk(s, t, at);
    case Write(t, ready) => WriteOk(s, t, ready);
    case EndWrite(t) =>
      if s.thr[t].stok.Held? { ReturnOk(s, true, t, Idle); } else { MoveOk(s, t, Idle); }
    case Read(t, ready) => ReadOk(s, t, ready);
    case EchoDone(t) => ReturnOk(s, true, t, s.thr[t].(echo := NoEcho));
    case EndRead(t) =>
      if s.thr[t].rtok.Held? { ReturnOk(s, false, t, Idle); } else { MoveOk(s, t, Idle); }
    case Abort(t) => AbortOk(s, t);
    case SndCallback => SndCallbackOk(s);
    case RcvCallback(c, ready) => RcvCallbackOk(s, c, ready);
    case Control(ioctl) => PortBase(s, s.port.(ioctl := ioctl));
  }

  // ---- runs

  predicate CanRun(s: Sys, acts: seq<Action>)
    decreases |acts|
  {
    acts != [] ==> Enabled(s, acts[0]) && CanRun(Step(s, acts[0]), acts[1..])
  }

  function After(s: Sys, acts: seq<Action>): Sys
    requires CanRun(s, acts)
    decreases |acts|
  {
    if acts == [] then s else After(Step(s, acts[0]), acts[1..])
  }

  /** A port just opened: send semaphore 1, receive semaphore 0, `n` tasks. */
  function Opened(p: Port, n: nat): Sys {
    Sys(p, Sem(1, []), Sem(0, []), seq(n, _ => Idle), false, 0)
  }

  lemma {:induction false} NoTokens(n: nat, snd: bool)
    ensures Count(seq(n, _ => Idle), snd) == 0
  {
    if n > 0 {
      NoTokens(n - 1, snd);
      assert seq(n, _ => Idle)[1..] == seq(n - 1, _ => Idle);
    }
  }

  lemma OpenedOk(p: Port, n: nat)
    requires PortOk(p) && p.snd == [] && p.rcv == []
    ensures SysOk(Opened(p, n))
  {
    NoTokens(n, true);
    NoTokens(n, false);
    var s := Opened(p, n);
    assert QueueOk(s, true) && QueueOk(s, false);
  }

  lemma {:induction false} RunOk(s: Sys, acts: seq<Action>)
    requires SysOk(s) && CanRun(s, acts)
    ensures SysOk(After(s, acts))
    decreases |acts|
  {
    if acts != [] {
      StepOk(s, acts[0]);
      RunOk(Step(s, acts[0]), acts[1..]);
    }
  }

  /** Under every interleaving, from the opening of the port on: the send token is unique, the
      send buffer never overruns, no semaphore overflows, and the characters leave the driver
      exactly in the order in which they were accepted; a task waits for the token only
      while another one has it or the buffer is full. */
  lemma SendSide(p: Port, n: nat, acts: seq<Action>)
    requires PortOk(p) && p.snd == [] && p.rcv == [] && CanRun(Opened(p, n), acts)
    ensures var s := After(Opened(p, n), acts);
            && s.ssem.cnt + Count(s.thr, true) + (if Full(s.port) then 1 else 0) == 1
            && |s.port.snd| <= s.port.sndBufsz && !s.errorflag
            && s.port.accepted == s.port.sent + s.port.snd
            && (s.ssem.queue != [] ==> Count(s.thr, true) == 1 || Full(s.port))
  {
    OpenedOk(p, n);
    RunOk(Opened(p, n), acts);
    assert QueueOk(After(Opened(p, n), acts), true);
  }

  /** An abort takes the receive token away if it hits the wait of an echo whose reader still
      has that token. */
  predicate Harmful(s: Sys, a: Action)
    requires Enabled(s, a)
  {
    a.Abort? && TokenOf(s.thr[a.t], false).Held?
  }

  predicate Harmless(s: Sys, acts: seq<Action>)
    requires CanRun(s, acts)
    decreases |acts|
  {
    acts != [] ==> !Harmful(s, acts[0]) && Harmless(Step(s, acts[0]), acts[1..])
  }

  lemma StepLost(s: Sys, a: Action)
    requires Enabled(s, a)
    ensures Step(s, a).lost == if Harmful(s, a) then s.lost + 1 else s.lost
  {
  }

  lemma {:induction false} LostExactly(s: Sys, acts: seq<Action>)
    requires CanRun(s, acts)
    ensures After(s, acts).lost >= s.lost
    ensures After(s, acts).lost == s.lost <==> Harmless(s, acts)
    decreases |acts|
  {
    if acts != [] {
      StepLost(s, acts[0]);
      LostExactly(Step(s, acts[0]), acts[1..]);
    }
  }

  /** The same for the receive side, if and only if no echo is aborted that way: else the
      token is gone for good, and with it every further character. */
  lemma ReceiveSide(p: Port, n: nat, acts: seq<Action>)
    requires PortOk(p) && p.snd == [] && p.rcv == [] && CanRun(Opened(p, n), acts)
    ensures var s := After(Opened(p, n), acts);
            && |s.port.rcv| <= s.port.rcvBufsz && s.port.stored == s.port.read + s.port.rcv
            && (Harmless(Opened(p, n), acts) <==>
                s.rsem.cnt + Count(s.thr, false) + (if s.port.rcv == [] then 1 else 0) == 1)
            && (!Harmless(Opened(p, n), acts) ==>
                s.rsem.cnt == 0 && Count(s.thr, false) == 0 && s.port.rcv != [])
  {
    OpenedOk(p, n);
    RunOk(Opened(p, n), acts);
    LostExactly(Opened(p, n), acts);
  }

  // ---- a run that loses the receive token

  /** Two characters have come in; a task reads with echo and has taken the first. */
  function Reads(): seq<Action> {
    [StartRead(0, 2), RcvCallback('a', true), RcvCallback('b', true), WaitRcv(0, 0), Read(0, true)]
  }

  /** Another task takes the send token, and the reader's wait for it is aborted. */
  function Spoils(): seq<Action> {
    [StartWrite(1, ['x']), WaitSnd(1, 0), WaitSnd(0, 0), Abort(0)]
  }

  const FRESH: Port := Port(8, 8, Ioctl(true, true, true, false, true), [], [], None, false, false, false, [], [], [], [], [])

  const ECHOING: Sys :=
    Sys(FRESH.(rcv := ['b'], stored := ['a', 'b'], read := ['a']), Sem(1, []), Sem(0, []),
        [Reading(1, Held, Echo('a', false, Out)), Idle], false, 0)

  lemma ReadsLeadTo()
    ensures CanRun(Opened(FRESH, 2), Reads()) && After(Opened(FRESH, 2), Reads()) == ECHOING
  {
    var s0 := Opened(FRESH, 2);
    assert s0.thr == [Idle, Idle];
    var s1 := Step(s0, StartRead(0, 2));
    assert s1.thr == [Reading(2, Out, NoEcho), Idle];
    var s2 := Step(s1, RcvCallback('a', true));
    assert s2 == s1.(port := FRESH.(rcv := ['a'], stored := ['a']), rsem := Sem(1, []));
    ReadsRest(s2);
    assert Reads()[1..][1..] == Reads()[2..];
  }

  lemma ReadsRest(s2: Sys)
    requires s2 == Opened(FRESH.(rcv := ['a'], stored := ['a']), 2).(rsem := Sem(1, []), thr := [Reading(2, Out, NoEcho), Idle])
    ensures CanRun(s2, Reads()[2..]) && After(s2, Reads()[2..]) == ECHOING
  {
    var s3 := Step(s2, RcvCallback('b', true));
    assert s3 == s2.(port := FRESH.(rcv := ['a', 'b'], stored := ['a', 'b']));
    var s4 := Step(s3, WaitRcv(0, 0));
    assert s4.thr == [Reading(2, Held, NoEcho), Idle];
    var s5 := Step(s4, Read(0, true));
    assert s5 == ECHOING;
    assert Reads()[2..][1..][1..][1..] == [];
  }

  lemma SpoilsLoses()
    ensures CanRun(ECHOING, Spoils()) && !Harmless(ECHOING, Spoils())
  {
    var s1 := Step(ECHOING, StartWrite(1, ['x']));
    assert s1.thr == [Reading(1, Held, Echo('a', false, Out)), Writing(['x'], false, Out)];
    var s2 := Step(s1, WaitSnd(1, 0));
    assert s2.ssem == Sem(0, []) && s2.thr == [Reading(1, Held, Echo('a', false, Out)), Writing(['x'], false, Held)];
    var s3 := Step(s2, WaitSnd(0, 0));
    assert s3.thr == [Reading(1, Held, Echo('a', false, Waiting)), Writing(['x'], false, Held)];
    assert Harmful(s3, Abort(0));
    assert Spoils()[1..][1..][1..][1..] == [];
  }

  /** Such a run is possible from the opening of a port: the abort of an echo does lose the
      receive token. */
  lemma EchoAbortLosesToken()
    ensures CanRun(Opened(FRESH, 2), Reads())
    ensures CanRun(After(Opened(FRESH, 2), Reads()), Spoils())
    ensures !Harmless(After(Opened(FRESH, 2), Reads()), Spoils())
  {
    ReadsLeadTo();
    SpoilsLoses();
  }
}
