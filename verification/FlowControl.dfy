/** Flow control of a serial port in both directions, and what the tasks' calls write and read:
    said of buffers, flags and the characters handed to the device. */
module FlowControl {
  import opened Prelude
  import opened Serial
  import opened SerialRuns

  // ---- the peer stops and resumes the port

  /** Whether sending is stopped after a character has come in. */
  predicate StoppedBy(p: Port, c: char) {
    if p.ioctl.fcsnd && c == 0x13 as char then true
    else p.sndStopped && !(c == 0x11 as char || p.ioctl.fcany)
  }

  /** The character is data for the tasks: not STOP or START for a port that heeds them, and not
      what resumes sending. */
  predicate IsData(p: Port, c: char) {
    && !(p.ioctl.fcsnd && (c == 0x13 as char || c == 0x11 as char))
    && !(p.sndStopped && (c == 0x11 as char || p.ioctl.fcany))
  }

  /** STOP stops, START, or any character with `fcany`, resumes; the first buffered character goes
      out with the resumption if the device takes it; data is stored while there is room. */
  lemma ReceivedEffect(p: Port, c: char, ready: bool)
    ensures var p' := IrdyRcv(p, c, ready);
            var resumes := p.sndStopped && !StoppedBy(p, c);
            && p'.sndStopped == StoppedBy(p, c)
            && (if resumes && p.snd != [] && ready then p'.snd == p.snd[1..] && p'.sent == p.sent + [p.snd[0]]
                else p'.snd == p.snd && p'.sent == p.sent)
            && (if IsData(p, c) && |p.rcv| < p.rcvBufsz then p'.rcv == p.rcv + [c] && p'.stored == p.stored + [c]
                else |p.rcv| <= p.rcvBufsz ==> p'.rcv == p.rcv && p'.stored == p.stored)
            && p'.accepted == p.accepted && p'.read == p.read && p'.ioctl == p.ioctl
  {
  }

  /** Nothing but such a character stops or resumes sending, and while it is stopped no data goes
      to the device. */
  lemma StoppedIsSilent(p: Port, c: char, ready: bool)
    ensures WriChr(p, c, ready).sndStopped == IrdySnd(p).sndStopped == p.sndStopped
    ensures p.rcv != [] ==> ReaChr(p, ready).sndStopped == p.sndStopped && ReaChr(p, ready).sent == p.sent
    ensures p.sndStopped ==> WriChr(p, c, ready).sent == p.sent && WriChr(p, c, ready).snd == p.snd + [c]
    ensures p.sndStopped ==> IrdySnd(p).sent == p.sent && IrdySnd(p).snd == p.snd
  {
  }

  /** A character from a task: straight to a device that takes it if nothing is in front, else last
      in the buffer. */
  lemma WrittenEffect(p: Port, c: char, ready: bool)
    ensures var p' := WriChr(p, c, ready);
            && p'.accepted == p.accepted + [c]
            && (if p.snd == [] && !p.sndStopped && ready then p'.sent == p.sent + [c] && p'.snd == p.snd
                else p'.sent == p.sent && p'.snd == p.snd + [c])
            && p'.rcv == p.rcv && p'.fcSent == p.fcSent && p'.rcvFcChr == p.rcvFcChr && p'.rcvStopped == p.rcvStopped
  {
  }

  /** The send callback: a pending START or STOP goes first, then data unless it is stopped; with
      nothing to send the callback is disabled. */
  lemma CallbackEffect(p: Port)
    ensures var p' := IrdySnd(p);
            if p.rcvFcChr.Some? then p' == p.(rcvFcChr := None, fcSent := p.fcSent + [p.rcvFcChr.value])
            else if p.sndStopped || p.snd == [] then p' == p.(rdySnd := false)
            else p' == p.(snd := p.snd[1..], sent := p.sent + [p.snd[0]])
  {
  }

  // ---- the port stops and resumes the peer

  /** START is due: the peer was stopped and reading has emptied the buffer to a half. */
  predicate StartDue(p: Port) { p.rcvStopped && 2 * (|p.rcv| - 1) <= p.rcvBufsz }

  /** STOP is due: the port controls reception and a character fills the buffer to three quarters. */
  predicate StopDue(p: Port, c: char) {
    IsData(p, c) && |p.rcv| < p.rcvBufsz && p.ioctl.fcrcv && !p.rcvStopped && |p.rcv| + 1 >= p.rcvBufsz * 3 / 4
  }

  /** Character `c` is for the peer: at once if the device takes it, else by the callback. */
  ghost predicate Tells(p: Port, p': Port, c: char, ready: bool) {
    if ready then p'.fcSent == p.fcSent + [c] && p'.rcvFcChr == p.rcvFcChr && p'.rdySnd == p.rdySnd
    else p'.fcSent == p.fcSent && p'.rcvFcChr == Some(c) && p'.rdySnd
  }

  ghost predicate TellsNothing(p: Port, p': Port) {
    p'.fcSent == p.fcSent && p'.rcvFcChr == p.rcvFcChr && p'.rcvStopped == p.rcvStopped
  }

  lemma ReadEffect(p: Port, ready: bool)
    requires p.rcv != []
    ensures var p' := ReaChr(p, ready);
            && p'.rcv == p.rcv[1..] && p'.read == p.read + [p.rcv[0]] && p'.stored == p.stored
            && if StartDue(p) then !p'.rcvStopped && Tells(p, p', 0x11 as char, ready)
               else TellsNothing(p, p') && p'.rdySnd == p.rdySnd
  {
  }

  lemma StopEffect(p: Port, c: char, ready: bool)
    ensures var p' := IrdyRcv(p, c, ready);
            if StopDue(p, c) then p'.rcvStopped && Tells(p, p', 0x13 as char, ready)
            else |p.rcv| <= p.rcvBufsz ==> TellsNothing(p, p')
  {
  }

  // ---- what the peer has been told

  /** The last START or STOP the peer gets: the one that waits for the device, else the last one
      sent; in the beginning it may send. */
  function LastTold(p: Port): char {
    if p.rcvFcChr.Some? then p.rcvFcChr.value
    else if p.fcSent == [] then FC_START else p.fcSent[|p.fcSent| - 1]
  }

  /** What the peer is told is what `rcv_stopped` says. */
  predicate Agrees(p: Port) { LastTold(p) == if p.rcvStopped then FC_STOP else FC_START }

  /** One goes to the device at once while another still waits for it, which is then sent last. */
  predicate OvertakesBy(p: Port, told: bool, ready: bool) { told && ready && p.rcvFcChr.Some? }

  lemma TellsAgree(p: Port, p': Port, c: char, ready: bool)
    requires Agrees(p) && Tells(p, p', c, ready) && (c == FC_STOP || c == FC_START)
    requires p'.rcvStopped == (c == FC_STOP) && p.rcvStopped == (c == FC_START)
    ensures Agrees(p') <==> !OvertakesBy(p, true, ready)
  {
  }

  /** Of all steps exactly those make the port and its peer disagree. */
  lemma AgreementKept(p: Port, c: char, ready: bool)
    requires Agrees(p) && |p.rcv| <= p.rcvBufsz
    ensures Agrees(WriChr(p, c, ready)) && Agrees(IrdySnd(p))
    ensures p.rcv != [] ==> (Agrees(ReaChr(p, ready)) <==> !OvertakesBy(p, StartDue(p), ready))
    ensures Agrees(IrdyRcv(p, c, ready)) <==> !OvertakesBy(p, StopDue(p, c), ready)
  {
    WrittenEffect(p, c, ready);
    CallbackEffect(p);
    StopEffect(p, c, ready);
    if StopDue(p, c) { TellsAgree(p, IrdyRcv(p, c, ready), FC_STOP, ready); }
    if p.rcv != [] {
      ReadEffect(p, ready);
      if StartDue(p) { TellsAgree(p, ReaChr(p, ready), FC_START, ready); }
    }
  }

  // ---- transmission does not come to a standstill

  /** While there is something to send the device calls back when it can. */
  predicate Going(p: Port) { p.rcvFcChr.Some? || (!p.sndStopped && p.snd != []) ==> p.rdySnd }

  /** Sending is resumed by handing one of several characters to the device, with its callback
      disabled. */
  predicate Strands(p: Port, c: char, ready: bool) {
    p.sndStopped && !StoppedBy(p, c) && ready && |p.snd| > 1 && !p.rdySnd
  }

  /** Of all steps exactly those leave characters behind that nothing sends. */
  lemma GoingKept(p: Port, c: char, ready: bool)
    requires Going(p) && |p.rcv| <= p.rcvBufsz
    ensures Going(WriChr(p, c, ready)) && Going(IrdySnd(p))
    ensures p.rcv != [] ==> Going(ReaChr(p, ready))
    ensures Going(IrdyRcv(p, c, ready)) <==> !Strands(p, c, ready)
  {
  }

  // ---- over runs

  /** Neither happens in the step. */
  predicate Tidy(s: Sys, a: Action)
    requires SerialRuns.Enabled(s, a)
  {
    match a
    case Read(_, ready) => s.port.rcv != [] ==> !OvertakesBy(s.port, StartDue(s.port), ready)
    case RcvCallback(c, ready) => !OvertakesBy(s.port, StopDue(s.port, c), ready) && !Strands(s.port, c, ready)
    case _ => true
  }

  predicate AllTidy(s: Sys, acts: seq<Action>)
    requires CanRun(s, acts)
    decreases |acts|
  {
    acts != [] ==> Tidy(s, acts[0]) && AllTidy(Step(s, acts[0]), acts[1..])
  }

  lemma SignalPort(s: Sys, snd: bool)
    ensures Signal(s, snd).port == s.port
  {
  }

  /** The steps that work on the port. */
  lemma PortStepTidy(s: Sys, a: Action)
    requires PortOk(s.port) && SerialRuns.Enabled(s, a) && Agrees(s.port) && Going(s.port)
    requires a.Write? || a.Read? || a.SndCallback? || a.RcvCallback?
    ensures Agrees(Step(s, a).port) && Going(Step(s, a).port) <==> Tidy(s, a)
  {
    if a.RcvCallback? {
      AgreementKept(s.port, a.c, a.ready);
      GoingKept(s.port, a.c, a.ready);
    } else if a.Write? {
      var (c, cr) := NextChar(s.thr[a.t]).value;
      WriteTidy(s, if c == '\n' && s.port.ioctl.crlf && !cr then '\r' else c, a.ready);
    } else {
      AgreementKept(s.port, 'x', a.Read? && a.ready);
      GoingKept(s.port, 'x', a.Read? && a.ready);
    }
  }

  lemma WriteTidy(s: Sys, c: char, ready: bool)
    requires PortOk(s.port) && Agrees(s.port) && Going(s.port)
    ensures Agrees(WriChr(s.port, c, ready)) && Going(WriChr(s.port, c, ready))
  {
    AgreementKept(s.port, c, ready);
    GoingKept(s.port, c, ready);
  }

  lemma StepTidy(s: Sys, a: Action)
    requires PortOk(s.port) && SerialRuns.Enabled(s, a) && Agrees(s.port) && Going(s.port)
    ensures Agrees(Step(s, a).port) && Going(Step(s, a).port) <==> Tidy(s, a)
  {
    if a.Write? || a.Read? || a.SndCallback? || a.RcvCallback? {
      PortStepTidy(s, a);
    } else if a.EndWrite? || a.EndRead? {
      SignalPort(SetThread(s, a.t, Idle), a.EndWrite?);
    } else if a.EchoDone? {
      SignalPort(SetThread(s, a.t, s.thr[a.t].(echo := NoEcho)), true);
    }
  }

  /** At every moment of the run. */
  predicate AlwaysInOrder(s: Sys, acts: seq<Action>)
    requires CanRun(s, acts)
    decreases |acts|
  {
    Agrees(s.port) && Going(s.port) && (acts != [] ==> AlwaysInOrder(Step(s, acts[0]), acts[1..]))
  }

  lemma {:induction false} RunTidy(s: Sys, acts: seq<Action>)
    requires SysOk(s) && Agrees(s.port) && Going(s.port) && CanRun(s, acts)
    ensures AlwaysInOrder(s, acts) <==> AllTidy(s, acts)
    decreases |acts|
  {
    if acts != [] {
      StepTidy(s, acts[0]);
      SerialRuns.StepOk(s, acts[0]);
      if Tidy(s, acts[0]) { RunTidy(Step(s, acts[0]), acts[1..]); }
    }
  }

  /** From the opening of a port on, under every interleaving: the port and its peer agree, and
      whatever there is to send will be asked for, if and only if the run has no such step. */
  lemma FlowKept(p: Port, n: nat, acts: seq<Action>)
    requires PortOk(p) && p.snd == [] && p.rcv == [] && p.rcvFcChr == None && !p.rcvStopped && p.fcSent == []
    requires CanRun(Opened(p, n), acts)
    ensures AlwaysInOrder(Opened(p, n), acts) <==> AllTidy(Opened(p, n), acts)
  {
    OpenedOk(p, n);
    RunTidy(Opened(p, n), acts);
  }

  // ---- runs with such a step

  /** A task writes two characters while sending is stopped; then START comes in. */
  function Stranding(): seq<Action> {
    [RcvCallback(0x13 as char, true), StartWrite(0, ['a', 'b']), WaitSnd(0, 0), Write(0, true), Write(0, true),
     RcvCallback(0x11 as char, true)]
  }

  /** The second character stays behind: it is not stopped, and no callback will send it. */
  lemma StartStrandsCharacters()
    ensures CanRun(Opened(FRESH, 1), Stranding())
    ensures var p := After(Opened(FRESH, 1), Stranding()).port;
            p.sent == ['a'] && p.snd == ['b'] && !p.sndStopped && !p.rdySnd && p.rcvFcChr == None
  {
    var s0 := Opened(FRESH, 1);
    var s1 := Step(s0, RcvCallback(0x13 as char, true));
    assert s1.port == FRESH.(sndStopped := true) && s1.thr == [Idle] && s1.ssem == Sem(1, []);
    var s2 := Step(s1, StartWrite(0, ['a', 'b']));
    assert s2.thr == [Writing(['a', 'b'], false, Out)];
    var s3 := Step(s2, WaitSnd(0, 0));
    assert s3.thr == [Writing(['a', 'b'], false, Held)] && s3.port == s1.port;
    StrandingRest(s3);
    assert Stranding()[1..][1..][1..] == Stranding()[3..];
  }

  lemma StrandingRest(s3: Sys)
    requires s3.thr == [Writing(['a', 'b'], false, Held)] && s3.port == FRESH.(sndStopped := true)
    ensures CanRun(s3, Stranding()[3..])
    ensures var p := After(s3, Stranding()[3..]).port;
            p.sent == ['a'] && p.snd == ['b'] && !p.sndStopped && !p.rdySnd && p.rcvFcChr == None
  {
    var s4 := Step(s3, Write(0, true));
    assert s4.thr == [Writing(['b'], false, Held)] && s4.port == s3.port.(snd := ['a'], accepted := ['a']);
    StrandingEnds(s4);
    assert Stranding()[3..][1..] == Stranding()[4..];
  }

  lemma StrandingEnds(s4: Sys)
    requires s4.thr == [Writing(['b'], false, Held)] && s4.port == FRESH.(sndStopped := true, snd := ['a'], accepted := ['a'])
    ensures CanRun(s4, Stranding()[4..])
    ensures var p := After(s4, Stranding()[4..]).port;
            p.sent == ['a'] && p.snd == ['b'] && !p.sndStopped && !p.rdySnd && p.rcvFcChr == None
  {
    var s5 := Step(s4, Write(0, true));
    assert s5.port == FRESH.(sndStopped := true, snd := ['a', 'b'], accepted := ['a', 'b']);
    var s6 := Step(s5, RcvCallback(0x11 as char, true));
    assert s6.port == FRESH.(snd := ['b'], sent := ['a'], accepted := ['a', 'b']);
    assert Stranding()[4..][1..][1..] == [];
  }

  /** Writing does not help: what follows joins the buffer behind it. */
  lemma StrandedStays(p: Port, c: char, ready: bool)
    requires p.snd != [] && !p.sndStopped && !p.rdySnd
    ensures var p' := WriChr(p, c, ready); p'.sent == p.sent && p'.snd == p.snd + [c] && !p'.rdySnd
  {
  }

  /** Six characters come in; the device does not take the STOP at once.  Two are read, and it takes
      the START before it calls back. */
  function Arrivals(): seq<Action> {
    [RcvCallback('x', true), RcvCallback('x', true), RcvCallback('x', true), RcvCallback('x', true), RcvCallback('x', true),
     RcvCallback('x', false)]
  }

  function Overtaking(): seq<Action> { [StartRead(0, 2), WaitRcv(0, 0), Read(0, true), Read(0, true), SndCallback] }

  const NO_ECHO: Port := FRESH.(ioctl := FRESH.ioctl.(echo := false))

  const ARRIVED: Port :=
    NO_ECHO.(rcv := ['x', 'x', 'x', 'x', 'x', 'x'], stored := ['x', 'x', 'x', 'x', 'x', 'x'],
             rcvFcChr := Some(FC_STOP), rcvStopped := true, rdySnd := true)

  lemma FourArrive(s: Sys)
    requires s == Opened(NO_ECHO, 1)
    ensures CanRun(s, Arrivals()[..4])
    ensures After(s, Arrivals()[..4])
         == s.(port := NO_ECHO.(rcv := ['x', 'x', 'x', 'x'], stored := ['x', 'x', 'x', 'x']), rsem := Sem(1, []))
  {
    var a := RcvCallback('x', true);
    var s1 := Step(s, a);
    assert s1 == s.(port := NO_ECHO.(rcv := ['x'], stored := ['x']), rsem := Sem(1, []));
    var s2 := Step(s1, a);
    assert s2 == s1.(port := NO_ECHO.(rcv := ['x', 'x'], stored := ['x', 'x']));
    var s3 := Step(s2, a);
    assert s3 == s2.(port := NO_ECHO.(rcv := ['x', 'x', 'x'], stored := ['x', 'x', 'x']));
    var s4 := Step(s3, a);
    assert s4 == s3.(port := NO_ECHO.(rcv := ['x', 'x', 'x', 'x'], stored := ['x', 'x', 'x', 'x']));
    assert Arrivals()[..4] == [a, a, a, a];
    assert Arrivals()[..4][1..][1..][1..][1..] == [];
  }

  lemma TwoArrive(s: Sys)
    requires s == Opened(NO_ECHO.(rcv := ['x', 'x', 'x', 'x'], stored := ['x', 'x', 'x', 'x']), 1).(rsem := Sem(1, []))
    ensures CanRun(s, Arrivals()[4..]) && After(s, Arrivals()[4..]) == s.(port := ARRIVED)
  {
    var s5 := Step(s, RcvCallback('x', true));
    assert s5 == s.(port := NO_ECHO.(rcv := ['x', 'x', 'x', 'x', 'x'], stored := ['x', 'x', 'x', 'x', 'x']));
    var s6 := Step(s5, RcvCallback('x', false));
    assert s6 == s.(port := ARRIVED);
    assert Arrivals()[4..] == [RcvCallback('x', true), RcvCallback('x', false)];
    assert Arrivals()[4..][1..][1..] == [];
  }

  /** The peer ends up stopped while the port thinks it may send: START and STOP went out in the
      wrong order, and no further START will follow. */
  lemma StartOvertakesStop()
    ensures var s4 := After(Opened(NO_ECHO, 1), Arrivals()[..4]);
            && CanRun(Opened(NO_ECHO, 1), Arrivals()[..4]) && CanRun(s4, Arrivals()[4..])
            && CanRun(After(s4, Arrivals()[4..]), Overtaking())
            && var p := After(After(s4, Arrivals()[4..]), Overtaking()).port;
               p.fcSent == [FC_START, FC_STOP] && p.rcvFcChr == None && !p.rcvStopped && |p.rcv| == 4
  {
    FourArrive(Opened(NO_ECHO, 1));
    TwoArrive(After(Opened(NO_ECHO, 1), Arrivals()[..4]));
    Overtakes(Opened(ARRIVED, 1).(rsem := Sem(1, [])));
  }

  lemma Overtakes(s: Sys)
    requires s == Opened(ARRIVED, 1).(rsem := Sem(1, []))
    ensures CanRun(s, Overtaking())
    ensures var p := After(s, Overtaking()).port;
            p.fcSent == [FC_START, FC_STOP] && p.rcvFcChr == None && !p.rcvStopped && |p.rcv| == 4
  {
    var s1 := Step(s, StartRead(0, 2));
    assert s1.thr == [Reading(2, Out, NoEcho)] && s1.port == ARRIVED && s1.rsem == Sem(1, []);
    var s2 := Step(s1, WaitRcv(0, 0));
    assert s2.thr == [Reading(2, Held, NoEcho)] && s2.port == ARRIVED;
    var s3 := Step(s2, Read(0, true));
    assert s3.thr == [Reading(1, Held, NoEcho)] && s3.port == ARRIVED.(rcv := ['x', 'x', 'x', 'x', 'x'], read := ['x']);
    OvertakesRest(s3);
    assert Overtaking()[1..][1..][1..] == Overtaking()[3..];
  }

  lemma OvertakesRest(s3: Sys)
    requires s3.thr == [Reading(1, Held, NoEcho)] && s3.port == ARRIVED.(rcv := ['x', 'x', 'x', 'x', 'x'], read := ['x'])
    ensures CanRun(s3, Overtaking()[3..])
    ensures var p := After(s3, Overtaking()[3..]).port;
            p.fcSent == [FC_START, FC_STOP] && p.rcvFcChr == None && !p.rcvStopped && |p.rcv| == 4
  {
    var s4 := Step(s3, Read(0, true));
    assert s4.port == ARRIVED.(rcv := ['x', 'x', 'x', 'x'], read := ['x', 'x'], rcvStopped := false, fcSent := [FC_START]);
    var s5 := Step(s4, SndCallback);
    assert s5.port == s4.port.(rcvFcChr := None, fcSent := [FC_START, FC_STOP]);
    assert Overtaking()[3..][1..][1..] == [];
  }

  // ---- what a call writes and reads

  /** The characters of `s` as they are to go out: a carriage return before each line feed if
      `crlf` is set. */
  function Expanded(s: seq<char>, crlf: bool): seq<char> {
    if s == [] then []
    else (if s[0] == '\n' && crlf then ['\r', '\n'] else [s[0]]) + Expanded(s[1..], crlf)
  }

  /** What a task still has to write. */
  function Remaining(th: Thread, crlf: bool): seq<char> {
    match th
    case Idle => []
    case Writing(buf, cr, _) => if cr && buf != [] then [buf[0]] + Expanded(buf[1..], crlf) else Expanded(buf, crlf)
    case Reading(_, _, Echo(c, cr, _)) => if cr then [c] else Expanded([c], crlf)
    case Reading(_, _, _) => []
  }

  lemma NextWritten(th: Thread, crlf: bool, full: bool)
    requires NextChar(th).Some?
    ensures var (c, cr) := NextChar(th).value;
            var first := c == '\n' && crlf && !cr;
            Remaining(th, crlf) == [if first then '\r' else c] + Remaining(Written(th, first, full), crlf)
  {
    match th
    case Writing(buf, cr, _) =>
      if buf[0] == '\n' && crlf && !cr {
        assert ['\r', '\n'] + Expanded(buf[1..], crlf) == ['\r'] + (['\n'] + Expanded(buf[1..], crlf));
      }
    case Reading(_, _, Echo(c, cr, _)) =>
      assert Expanded([c], crlf) == (if c == '\n' && crlf then ['\r', '\n'] else [c]) + Expanded([], crlf);
  }

  /** A write step takes the next of these. */
  lemma WriteTakesNext(s: Sys, t: nat, ready: bool)
    requires SerialRuns.Enabled(s, Write(t, ready))
    ensures var s', crlf := Step(s, Write(t, ready)), s.port.ioctl.crlf;
            && |s'.thr| == |s.thr| && |s'.port.accepted| == |s.port.accepted| + 1
            && s'.port.accepted[..|s.port.accepted|] == s.port.accepted
            && Remaining(s.thr[t], crlf) == [s'.port.accepted[|s.port.accepted|]] + Remaining(s'.thr[t], crlf)
  {
    var (c, cr) := NextChar(s.thr[t]).value;
    var first := c == '\n' && s.port.ioctl.crlf && !cr;
    var c1 := if first then '\r' else c;
    var full := WriFull(s.port, c1, ready);
    NextWritten(s.thr[t], s.port.ioctl.crlf, full);
    WrittenEffect(s.port, c1, ready);
    assert Step(s, Write(t, ready)) == SetThread(s.(port := WriChr(s.port, c1, ready)), t, Written(s.thr[t], first, full));
  }

  /** What the step takes from task `t`, and what a run takes. */
  function Takes(s: Sys, a: Action, t: nat): seq<char>
    requires SerialRuns.Enabled(s, a)
  {
    var p := Step(s, a).port;
    if a.Write? && a.t == t && p.accepted != [] then [p.accepted[|p.accepted| - 1]] else []
  }

  function AcceptedOf(s: Sys, acts: seq<Action>, t: nat): seq<char>
    requires CanRun(s, acts)
    decreases |acts|
  {
    if acts == [] then [] else Takes(s, acts[0], t) + AcceptedOf(Step(s, acts[0]), acts[1..], t)
  }

  /** No step of the run begins or ends the call of task `t`, or changes the port's control. */
  predicate InCall(acts: seq<Action>, t: nat) {
    forall i :: 0 <= i < |acts| ==> StaysInCall(acts[i], t)
  }

  predicate StaysInCall(a: Action, t: nat) {
    match a
    case StartWrite(u, _) => u != t
    case StartRead(u, _) => u != t
    case EndWrite(u) => u != t
    case EndRead(u) => u != t
    case Abort(u) => u != t
    case Control(_) => false
    case _ => true
  }

  /** Task `t` goes on writing the same. */
  ghost predicate StillWrites(s: Sys, s': Sys, t: nat) {
    && t < |s.thr| == |s'.thr| && s.thr[t].Writing? && s'.thr[t].Writing?
    && s'.thr[t].buf == s.thr[t].buf && s'.thr[t].cr == s.thr[t].cr
  }

  lemma TokensStillWrite(s: Sys, snd: bool, u: nat, at: nat, t: nat)
    requires t < |s.thr| && s.thr[t].Writing? && u < |s.thr|
    ensures StillWrites(s, Signal(s, snd), t) && StillWrites(s, Acquire(s, snd, u, at), t)
    ensures Signal(s, snd).port == Acquire(s, snd, u, at).port == s.port
  {
  }

  lemma CallStillWrites(s: Sys, a: Action, t: nat)
    requires SerialRuns.Enabled(s, a) && StaysInCall(a, t) && t < |s.thr| && s.thr[t].Writing? && !(a.Write? && a.t == t)
    requires a.StartWrite? || a.StartRead? || a.Write? || a.Read? || a.Reorder? || a.WaitSnd? || a.WaitRcv?
    ensures StillWrites(s, Step(s, a), t) && Step(s, a).port.ioctl == s.port.ioctl
  {
    if a.WaitSnd? || a.WaitRcv? { TokensStillWrite(s, a.WaitSnd?, a.t, a.at, t); }
  }

  lemma SignalStillWrites(s: Sys, a: Action, t: nat)
    requires SerialRuns.Enabled(s, a) && StaysInCall(a, t) && t < |s.thr| && s.thr[t].Writing?
    requires a.EndWrite? || a.EndRead? || a.EchoDone? || a.Abort? || a.SndCallback? || a.RcvCallback?
    ensures StillWrites(s, Step(s, a), t) && Step(s, a).port.ioctl == s.port.ioctl
  {
    match a
    case EndWrite(u) => TokensStillWrite(SetThread(s, u, Idle), true, u, 0, t);
    case EndRead(u) => TokensStillWrite(SetThread(s, u, Idle), false, u, 0, t);
    case EchoDone(u) => TokensStillWrite(SetThread(s, u, s.thr[u].(echo := NoEcho)), true, u, 0, t);
    case SndCallback => TokensStillWrite(s.(port := IrdySnd(s.port)), true, t, 0, t);
    case RcvCallback(c, ready) =>
      ReceivedEffect(s.port, c, ready);
      TokensStillWrite(s.(port := IrdyRcv(s.port, c, ready)), true, t, 0, t);
      TokensStillWrite(s.(port := IrdyRcv(s.port, c, ready)), false, t, 0, t);
    case _ =>
  }

  /** Other steps neither take anything from what a writer still has to write nor add to it. */
  lemma WriterStays(s: Sys, a: Action, t: nat)
    requires SerialRuns.Enabled(s, a) && StaysInCall(a, t) && t < |s.thr| && s.thr[t].Writing? && !(a.Write? && a.t == t)
    ensures StillWrites(s, Step(s, a), t) && Step(s, a).port.ioctl == s.port.ioctl
  {
    if a.EndWrite? || a.EndRead? || a.EchoDone? || a.Abort? || a.SndCallback? || a.RcvCallback? {
      SignalStillWrites(s, a, t);
    } else {
      CallStillWrites(s, a, t);
    }
  }

  lemma StepWrites(s: Sys, a: Action, t: nat)
    requires SerialRuns.Enabled(s, a) && StaysInCall(a, t) && t < |s.thr| && s.thr[t].Writing?
    ensures var s', crlf := Step(s, a), s.port.ioctl.crlf;
            && t < |s'.thr| && s'.thr[t].Writing? && s'.port.ioctl == s.port.ioctl
            && Takes(s, a, t) + Remaining(s'.thr[t], crlf) == Remaining(s.thr[t], crlf)
  {
    if a.Write? && a.t == t {
      WriteTakesNext(s, t, a.ready);
      WriterWrites(s, t, a.ready);
    } else {
      WriterStays(s, a, t);
    }
  }

  /** The call of a writer: what has been accepted of it and what it still has to write make up
      its data, in order, whatever other tasks and the callbacks do meanwhile. */
  lemma {:induction false} WriterInOrder(s: Sys, acts: seq<Action>, t: nat)
    requires CanRun(s, acts) && InCall(acts, t) && t < |s.thr| && s.thr[t].Writing?
    ensures var s' := After(s, acts);
            && t < |s'.thr| && s'.thr[t].Writing?
            && AcceptedOf(s, acts, t) + Remaining(s'.thr[t], s.port.ioctl.crlf) == Remaining(s.thr[t], s.port.ioctl.crlf)
    decreases |acts|
  {
    if acts != [] {
      var s1 := Step(s, acts[0]);
      assert StaysInCall(acts[0], t);
      StepWrites(s, acts[0], t);
      assert InCall(acts[1..], t) by { InCallRest(acts, t); }
      WriterInOrder(s1, acts[1..], t);
      Associates(Takes(s, acts[0], t), AcceptedOf(s1, acts[1..], t), Remaining(After(s1, acts[1..]).thr[t], s.port.ioctl.crlf));
    }
  }

  lemma InCallRest(acts: seq<Action>, t: nat)
    requires acts != [] && InCall(acts, t)
    ensures InCall(acts[1..], t)
  {
    forall i | 0 <= i < |acts[1..]| ensures StaysInCall(acts[1..][i], t) {
      assert StaysInCall(acts[i + 1], t);
    }
  }

  lemma WriterWrites(s: Sys, t: nat, ready: bool)
    requires SerialRuns.Enabled(s, Write(t, ready)) && s.thr[t].Writing?
    ensures var s' := Step(s, Write(t, ready));
            t < |s'.thr| && s'.thr[t].Writing? && s'.port.ioctl == s.port.ioctl
  {
  }

  lemma Associates(a: seq<char>, b: seq<char>, c: seq<char>)
    ensures (a + b) + c == a + (b + c)
  {
  }

  /** A read step takes the first stored character, and with `echo` the task has to write it next. */
  lemma ReadTakesNext(s: Sys, t: nat, ready: bool)
    requires SysOk(s) && SerialRuns.Enabled(s, Read(t, ready)) && s.port.rcv != []
    ensures var s', c := Step(s, Read(t, ready)), s.port.rcv[0];
            && |s'.thr| == |s.thr| && s'.port.read == s.port.read + [c] && s'.port.rcv == s.port.rcv[1..]
            && s'.thr[t].Reading? && s'.thr[t].todo == s.thr[t].todo - 1
            && s'.thr[t].rtok == (if s'.port.rcv == [] then Out else Held)
            && s'.thr[t].echo == (if s.port.ioctl.echo then Echo(c, false, Out) else NoEcho)
  {
  }
}
