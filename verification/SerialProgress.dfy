/**
 What the serial driver brings about: characters written are sent, one an interrupt and in order; those
 received are stored; each task writes its text; and how START and STOP go out.
 */
module SerialProgress {
  import opened Base
  import opened Serial

  // ---------------------------------------------------------------- sending

  /** A transmit interrupt sends a pending START or STOP alone, or else the next character written unless
      the other side has stopped transmission. */
  lemma InterruptSends(p: Port)
    requires PortOk(p)
    ensures var r := SendReady(p);
            if p.rcvFc.Some? then r == p.(rcvFc := None, fcout := p.fcout + [p.rcvFc.value])
            else if p.sndStopped || p.snd == [] then r == p
            else
              && |p.sent| < |p.written| && r.sent == p.sent + [p.written[|p.sent|]]
              && |r.snd| == |p.snd| - 1 && r == p.(snd := r.snd, sent := r.sent)
  {
  }

  /** The send token is freed iff the buffer was full and is not any more: it wakes the first task waiting
      for it, or is there for the next one. */
  lemma InterruptFrees(s: Sys)
    requires Inv(s)
    ensures var r := Next(s, SndInterrupt);
            && r.port == SendReady(s.port) && r.rcvSem == s.rcvSem && !r.errorflag
            && if !(Full(s.port) && s.port.rcvFc.None? && !s.port.sndStopped) then r.sndSem == s.sndSem && r.tasks == s.tasks
               else if s.sndSem.queue == [] then r.sndSem == Sem(1, []) && r.tasks == s.tasks
               else
                 var t := s.sndSem.queue[0];
                 && t in s.tasks && s.tasks[t].w.WaitSnd? && r.sndSem == Sem(0, s.sndSem.queue[1..])
                 && r.tasks == s.tasks[t := s.tasks[t].(w := HoldSnd(s.tasks[t].w.rest))]
  {
  }

  /** `k` transmit interrupts with nothing in between. */
  ghost function Interrupted(s: Sys, k: nat): Sys {
    if k == 0 then s else Next(Interrupted(s, k - 1), SndInterrupt)
  }

  function Min(a: nat, b: nat): nat { if a < b then a else b }

  /** They send the next `k` characters written, or all there are. */
  lemma {:induction false} Drains(s: Sys, k: nat)
    requires Inv(s) && s.port.rcvFc.None? && !s.port.sndStopped
    ensures var r := Interrupted(s, k);
            var m := Min(k, |s.port.snd|);
            && Inv(r) && r.port.rcvFc.None? && !r.port.sndStopped && r.port.written == s.port.written
            && |s.port.sent| + |s.port.snd| == |s.port.written|
            && r.port.sent == s.port.written[..|s.port.sent| + m] && |r.port.snd| == |s.port.snd| - m
  {
    hide Inv, Next, Sent, SendReady;
    PortKnown(s);
    if k > 0 {
      Drains(s, k - 1);
      var r := Interrupted(s, k - 1);
      PortKnown(r);
      StepOk(r, SndInterrupt);
      InterruptSends(r.port);
      InterruptFrees(r);
      if r.port.snd != [] {
        var n := |r.port.sent|;
        assert r.port.written[..n + 1] == r.port.written[..n] + [r.port.written[n]];
      }
    }
  }

  lemma PortKnown(s: Sys)
    requires Inv(s)
    ensures PortOk(s.port) && |s.port.written| == |s.port.sent| + |s.port.snd|
    ensures s.port.sent == s.port.written[..|s.port.sent|]
  {
  }

  /** A pending START or STOP goes first, alone. */
  lemma FlowCharFirst(s: Sys)
    requires Inv(s) && s.port.rcvFc.Some?
    ensures var r := Next(s, SndInterrupt); r == s.(port := s.port.(rcvFc := None, fcout := s.port.fcout + [s.port.rcvFc.value]))
  {
  }

  /** A character is written behind all others; it goes to the device at once if nothing is before it, the
      other side has not stopped transmission and the device takes it, and otherwise into the buffer. */
  lemma PutWrites(p: Port, c: char, ready: bool)
    requires PortOk(p) && !Full(p)
    ensures var r := PutChr(p, c, ready);
            && PortOk(r) && r.written == p.written + [c]
            && r.sent == (if p.snd == [] && !p.sndStopped && ready then r.written else p.sent)
            && r == p.(written := r.written, sent := r.sent, snd := r.snd)
  {
  }

  // ---------------------------------------------------------------- receiving

  /** What the receiver does with a character: STOP and START control transmission, if they are to; any
      other character is stored if there is room, and is lost if not. */
  lemma Receives(p: Port, c: char, k: nat, ready: bool)
    requires PortOk(p) && k <= |p.snd|
    ensures var r := Received(p, c, k, ready);
            && (p.ioctl.fcsnd && c == FC_STOP ==> r == p.(sndStopped := true))
            && (!(p.ioctl.fcsnd && c == FC_STOP) && p.sndStopped && (c == FC_START || p.ioctl.fcany) ==>
                  !r.sndStopped && r.sent == p.written[..|p.sent| + k] && |r.snd| == |p.snd| - k && r.got == p.got && r.rcvFc == p.rcvFc)
            && (IsData(p, c) ==>
                  && r.sndStopped == p.sndStopped && r.sent == p.sent && r.snd == p.snd && r.read == p.read
                  && r.got == (if |p.rcv| < p.rcvsz then p.got + [c] else p.got))
            && r.written == p.written && r.read == p.read && PortOk(r)
  {
    assert p.sent + p.snd[..k] == p.written[..|p.sent| + k];
    assert p.got == p.read + p.rcv;
  }

  /** The character is neither STOP nor START, nor does it let transmission go on. */
  predicate IsData(p: Port, c: char) {
    && !(p.ioctl.fcsnd && (c == FC_STOP || c == FC_START)) && !(p.sndStopped && (c == FC_START || p.ioctl.fcany))
  }

  /** A reader takes the oldest character. */
  lemma Reads(p: Port, ready: bool)
    requires PortOk(p) && p.rcv != []
    ensures var r := ReadChr(p, ready);
            && |p.read| < |p.got| && r.read == p.read + [p.got[|p.read|]] && r.got == p.got
            && r.snd == p.snd && r.sent == p.sent && r.written == p.written && PortOk(r)
  {
  }

  // ---------------------------------------------------------------- START and STOP

  /** All START and STOP characters, with the one still to go out. */
  function FlowChars(p: Port): seq<char> { p.fcout + if p.rcvFc.Some? then [p.rcvFc.value] else [] }

  /** The last one says whether the other side is to stop. */
  ghost predicate FlowOk(p: Port) {
    var fc := FlowChars(p);
    if fc == [] then !p.rcvStopped else fc[|fc| - 1] == if p.rcvStopped then FC_STOP else FC_START
  }

  /** START is due once a reader has left no more than half of the buffer full, STOP once the receiver has
      filled three quarters of it. */
  predicate StartDue(p: Port) { p.rcvStopped && |p.rcv| - 1 <= p.rcvsz / 2 }

  predicate StopDue(p: Port, c: char) {
    IsData(p, c) && |p.rcv| < p.rcvsz && p.ioctl.fcrcv && !p.rcvStopped && |p.rcv| + 1 >= p.rcvsz * 3 / 4
  }

  /** The receiver stops the other side when STOP is due and lets it go on when START is, and at no other
      time. */
  lemma StopsAndStarts(p: Port, c: char, k: nat, ready: bool)
    requires PortOk(p)
    ensures k <= |p.snd| ==> (Received(p, c, k, ready).rcvStopped <==> p.rcvStopped || StopDue(p, c))
    ensures p.rcv != [] ==> (ReadChr(p, ready).rcvStopped <==> p.rcvStopped && !StartDue(p))
    ensures k <= |p.snd| && StopDue(p, c) ==>
              var r := Received(p, c, k, ready); if ready then r.fcout == p.fcout + [FC_STOP] && r.rcvFc == p.rcvFc else r.rcvFc == Some(FC_STOP) && r.fcout == p.fcout
    ensures p.rcv != [] && StartDue(p) ==>
              var r := ReadChr(p, ready); if ready then r.fcout == p.fcout + [FC_START] && r.rcvFc == p.rcvFc else r.rcvFc == Some(FC_START) && r.fcout == p.fcout
  {
  }

  /** A START or STOP that is due now is taken by the device while another one is still waiting to go out,
      which then goes out after it. */
  predicate Overtakes(p: Port, step: Step) {
    match step
    case Read(t, ready) => p.rcv != [] && StartDue(p) && ready && p.rcvFc.Some?
    case RcvInterrupt(c, k, ready) => StopDue(p, c) && ready && p.rcvFc.Some?
    case _ => false
  }

  /** The last START or STOP is right after a step unless, and only unless, it was overtaken so. */
  lemma FlowStep(s: Sys, step: Step)
    requires Inv(s) && Enabled(s, step) && FlowOk(s.port)
    ensures FlowOk(Next(s, step).port) <==> !Overtakes(s.port, step)
  {
    hide Inv, SignalSnd, SignalRcv, WriteStep, ReadStep, RcvStep, Received, SendReady, ReadChr, Expand, PortOk, FlowOk, Overtakes;
    PortKnown(s);
    NeverOtherwise(s.port, step);
    match step
    case Read(t, ready) => FlowRead(s, t, ready);
    case RcvInterrupt(c, k, ready) =>
      FlowReceived(s.port, c, k, ready);
      RcvPort(s, c, k, ready);
    case SndInterrupt =>
      SameFlowOut(s.port);
      SndPort(s);
    case Write(t, ready) =>
      SamePortFlow(s, t, ready);
      SameFlow(s.port, WriteStep(s, t, ready).port);
    case GiveSnd(t) => SignalsKeep(SetW(s, t, NotWriting), t);
    case GiveRcv(t) => SignalsKeep(SetR(s, t, NotReading), t);
    case Control(ioctl) => SameFlow(s.port, s.port.(ioctl := ioctl));
    case _ =>
  }

  lemma NeverOtherwise(p: Port, step: Step)
    ensures Overtakes(p, step) ==> step.Read? || step.RcvInterrupt?
  {
  }

  lemma SameFlow(p: Port, r: Port)
    requires r.fcout == p.fcout && r.rcvFc == p.rcvFc && r.rcvStopped == p.rcvStopped
    ensures FlowOk(r) <==> FlowOk(p)
  {
  }

  lemma SameFlowOut(p: Port)
    ensures FlowOk(SendReady(p)) <==> FlowOk(p)
  {
    assert FlowChars(SendReady(p)) == FlowChars(p);
  }

  lemma RcvPort(s: Sys, c: char, k: nat, ready: bool)
    requires k <= |s.port.snd|
    ensures RcvStep(s, c, k, ready).port == Received(s.port, c, k, ready)
  {
    hide Received;
  }

  lemma SndPort(s: Sys)
    ensures Next(s, SndInterrupt).port == SendReady(s.port)
  {
    hide SendReady;
  }

  lemma SamePortFlow(s: Sys, t: nat, ready: bool)
    requires Enabled(s, Write(t, ready))
    ensures var p := WriteStep(s, t, ready).port; p.fcout == s.port.fcout && p.rcvFc == s.port.rcvFc && p.rcvStopped == s.port.rcvStopped
  {
  }

  lemma FlowRead(s: Sys, t: nat, ready: bool)
    requires PortOk(s.port) && Enabled(s, Read(t, ready)) && FlowOk(s.port)
    ensures FlowOk(Next(s, Read(t, ready)).port) <==> !Overtakes(s.port, Read(t, ready))
  {
    var p := s.port;
    if p.rcv != [] && StartDue(p) { Sending(p.(rcv := p.rcv[1..], read := p.read + [p.rcv[0]]), FC_START, ready); }
  }

  lemma FlowReceived(p: Port, c: char, k: nat, ready: bool)
    requires PortOk(p) && k <= |p.snd| && FlowOk(p)
    ensures FlowOk(Received(p, c, k, ready)) <==> !Overtakes(p, RcvInterrupt(c, k, ready))
  {
    if StopDue(p, c) { Sending(p.(rcv := p.rcv + [c], got := p.got + [c]), FC_STOP, ready); }
  }

  lemma Sending(p: Port, c: char, ready: bool)
    requires FlowOk(p) && c == if p.rcvStopped then FC_START else FC_STOP
    ensures var r := SendFc(p, c, ready).(rcvStopped := !p.rcvStopped); FlowOk(r) <==> !(ready && p.rcvFc.Some?)
  {
  }

  /** In every run, as long as and only as long as none is overtaken, the last START or STOP says whether the
      receiver wants the other side to stop. */
  lemma {:induction false} FlowControl(ss: seq<Sys>, steps: seq<Step>, n: nat)
    requires IsRun(ss, steps) && n < |ss|
    ensures (forall m :: 0 <= m <= n ==> FlowOk(ss[m].port)) <==> forall m :: 0 <= m < n ==> !Overtakes(ss[m].port, steps[m])
  {
    hide Inv, Next, FlowOk, Overtakes;
    if n == 0 {
      NoFlowYet(ss[0]);
    } else {
      FlowControl(ss, steps, n - 1);
      TokensConserved(ss, steps, n - 1);
      assert Enabled(ss[n - 1], steps[n - 1]) && ss[n] == Next(ss[n - 1], steps[n - 1]);
      if FlowOk(ss[n - 1].port) { FlowStep(ss[n - 1], steps[n - 1]); }
    }
  }

  lemma NoFlowYet(s: Sys)
    requires Opened(s)
    ensures FlowOk(s.port)
  {
  }

  // ---------------------------------------------------------------- texts

  /** The text with the CR taken out again in front of every LF. */
  function Collapse(cs: seq<char>): seq<char> {
    if |cs| < 2 then cs
    else if cs[0] == CR && cs[1] == LF then [LF] + Collapse(cs[2..])
    else [cs[0]] + Collapse(cs[1..])
  }

  /** Without CR/LF conversion nothing changes. */
  lemma {:induction false} ExpandPlain(cs: seq<char>)
    ensures Expand(cs, false) == cs
  {
    if cs != [] { ExpandPlain(cs[1..]); }
  }

  /** The conversion can be undone. */
  lemma {:induction false} ExpandUndone(cs: seq<char>)
    ensures Collapse(Expand(cs, true)) == cs
  {
    if cs != [] {
      var rest := Expand(cs[1..], true);
      ExpandUndone(cs[1..]);
      if cs[0] == LF {
        assert ([CR, LF] + rest)[2..] == rest;
      } else {
        assert ([cs[0]] + rest)[1..] == rest;
        assert rest != [] ==> rest[0] != LF;
      }
    }
  }

  /** And no LF goes out without a CR in front of it. */
  lemma {:induction false} CrBeforeLf(cs: seq<char>, i: nat)
    requires i < |Expand(cs, true)| && Expand(cs, true)[i] == LF
    ensures i > 0 && Expand(cs, true)[i - 1] == CR
  {
    if cs[0] == LF {
      if i >= 2 { CrBeforeLf(cs[1..], i - 2); }
    } else if i >= 1 {
      CrBeforeLf(cs[1..], i - 1);
    }
  }

  /** What is left of a task's text. */
  function Left(w: Writer): seq<char> { if w.NotWriting? then [] else w.rest }

  /** The text a step gives task `t` to write: of a call, or the echo of a character read. */
  function Given(s: Sys, step: Step, t: nat): seq<char>
    requires Enabled(s, step)
  {
    match step
    case StartWrite(u, cs) => if u == t then Expand(cs, s.port.ioctl.crlf) else []
    case Read(u, ready) => if u == t && s.port.rcv != [] && s.port.ioctl.echo then Expand([s.port.rcv[0]], s.port.ioctl.crlf) else []
    case _ => []
  }

  /** The character a step writes for task `t`. */
  function Put1(s: Sys, step: Step, t: nat): seq<char>
    requires Enabled(s, step)
  {
    if step.Write? && step.t == t then [s.tasks[t].w.rest[0]] else []
  }

  /** Passing a token on leaves all texts, and what is still to be read. */
  lemma SignalsKeep(s: Sys, t: nat)
    requires t in s.tasks
    ensures var r := SignalSnd(s); r.tasks.Keys == s.tasks.Keys && Left(r.tasks[t].w) == Left(s.tasks[t].w) && r.tasks[t].r == s.tasks[t].r && r.port == s.port
    ensures var r := SignalRcv(s);
            r.tasks.Keys == s.tasks.Keys && r.tasks[t].w == s.tasks[t].w && ToRead(r.tasks[t].r) == ToRead(s.tasks[t].r) && r.port == s.port
  {
  }

  lemma RcvKeeps(s: Sys, c: char, k: nat, ready: bool, t: nat)
    requires t in s.tasks && k <= |s.port.snd|
    ensures var r := RcvStep(s, c, k, ready);
            && r.tasks.Keys == s.tasks.Keys && Left(r.tasks[t].w) == Left(s.tasks[t].w) && ToRead(r.tasks[t].r) == ToRead(s.tasks[t].r)
            && r.port == Received(s.port, c, k, ready)
  {
    hide SignalSnd, SignalRcv, Left, ToRead, Received;
    var p := Received(s.port, c, k, ready);
    var u := s.(port := p);
    SignalsKeep(u, t);
    var v := if Full(s.port) && |p.snd| < |s.port.snd| then SignalSnd(u) else u;
    SignalsKeep(v, t);
  }

  lemma SndKeeps(s: Sys, t: nat)
    requires t in s.tasks
    ensures var r := Next(s, SndInterrupt);
            && r.tasks.Keys == s.tasks.Keys && Left(r.tasks[t].w) == Left(s.tasks[t].w) && ToRead(r.tasks[t].r) == ToRead(s.tasks[t].r)
            && r.port == SendReady(s.port)
  {
    hide SignalSnd, Left, ToRead, SendReady;
    SignalsKeep(s.(port := SendReady(s.port)), t);
  }

  /** Calls by which the tokens are asked for or given. */
  predicate Handles(step: Step) { step.TakeSnd? || step.GiveSnd? || step.TakeRcv? || step.GiveRcv? || step.Control? }

  lemma HandlingKeeps(s: Sys, step: Step, t: nat)
    requires Enabled(s, step) && t in s.tasks && Handles(step)
    ensures var r := Next(s, step);
            && r.tasks.Keys == s.tasks.Keys && Left(r.tasks[t].w) == Left(s.tasks[t].w) && ToRead(r.tasks[t].r) == ToRead(s.tasks[t].r)
            && r.port == (if step.Control? then s.port.(ioctl := step.ioctl) else s.port)
  {
    hide SignalSnd, SignalRcv;
    if step.GiveSnd? { SignalsKeep(SetW(s, step.t, NotWriting), t); }
    if step.GiveRcv? { SignalsKeep(SetR(s, step.t, NotReading), t); }
  }

  lemma WriteKeeps(s: Sys, u: nat, ready: bool, t: nat)
    requires Enabled(s, Write(u, ready)) && t in s.tasks
    ensures var r := WriteStep(s, u, ready);
            && r.tasks.Keys == s.tasks.Keys && r.tasks[t].r == s.tasks[t].r
            && Left(s.tasks[t].w) == (if u == t then [s.tasks[t].w.rest[0]] else []) + Left(r.tasks[t].w)
            && r.port.written == s.port.written + [s.tasks[u].w.rest[0]] && r.port.read == s.port.read
  {
  }

  lemma ReadKeeps(s: Sys, u: nat, ready: bool, t: nat)
    requires Enabled(s, Read(u, ready)) && t in s.tasks && PortOk(s.port) && s.port.rcv != []
    ensures var r := ReadStep(s, u, ready);
            && r.tasks.Keys == s.tasks.Keys && (t != u ==> r.tasks[t] == s.tasks[t])
            && Left(r.tasks[t].w) == Left(s.tasks[t].w) + Given(s, Read(u, ready), t)
            && ToRead(r.tasks[u].r) == ToRead(s.tasks[u].r) - 1 && r.port == ReadChr(s.port, ready)
  {
    hide ReadChr, Expand, PortOk;
  }

  lemma NotEmpty(s: Sys, u: nat, ready: bool)
    requires Inv(s) && Enabled(s, Read(u, ready))
    ensures s.port.rcv != [] && PortOk(s.port)
  {
    HolderAlone(s, u);
  }

  /** A step writes one character of one task's text, the next one, or none. */
  lemma TextStep(s: Sys, step: Step, t: nat)
    requires Inv(s) && Enabled(s, step) && t in s.tasks
    ensures var r := Next(s, step);
            && r.tasks.Keys == s.tasks.Keys
            && Put1(s, step, t) + Left(r.tasks[t].w) == Left(s.tasks[t].w) + Given(s, step, t)
            && r.port.written == s.port.written + (if step.Write? then Put1(s, step, step.t) else [])
  {
    hide Inv, SignalSnd, SignalRcv, WriteStep, ReadStep, RcvStep, Received, SendReady, ReadChr, Expand, PortOk;
    PortKnown(s);
    match step
    case SndInterrupt =>
      SndKeeps(s, t);
      InterruptSends(s.port);
    case Read(u, ready) =>
      NotEmpty(s, u, ready);
      ReadKeeps(s, u, ready, t);
      Reads(s.port, ready);
    case RcvInterrupt(c, k, ready) =>
      RcvKeeps(s, c, k, ready, t);
      Receives(s.port, c, k, ready);
    case Write(u, ready) => WriteKeeps(s, u, ready, t);
    case StartWrite(u, cs) => assert cs == [] ==> Expand(cs, s.port.ioctl.crlf) == [] by { NoText(s.port.ioctl.crlf); }
    case StartRead(u, n) =>
    case _ => HandlingKeeps(s, step, t);
  }

  lemma NoText(crlf: bool)
    ensures Expand([], crlf) == []
  {
  }

  /** The texts given to `t` in the first `n` steps, and what it has written. */
  ghost function AllGiven(ss: seq<Sys>, steps: seq<Step>, n: nat, t: nat): seq<char>
    requires IsRun(ss, steps) && n < |ss|
  {
    if n == 0 then [] else AllGiven(ss, steps, n - 1, t) + Given(ss[n - 1], steps[n - 1], t)
  }

  ghost function AllPut(ss: seq<Sys>, steps: seq<Step>, n: nat, t: nat): seq<char>
    requires IsRun(ss, steps) && n < |ss|
  {
    if n == 0 then [] else AllPut(ss, steps, n - 1, t) + Put1(ss[n - 1], steps[n - 1], t)
  }

  /** In every run each task has written its texts, CR in front of LF as asked for, in order and up to what
      is left. */
  lemma {:induction false} TextsWritten(ss: seq<Sys>, steps: seq<Step>, n: nat, t: nat)
    requires IsRun(ss, steps) && n < |ss| && t in ss[0].tasks
    ensures t in ss[n].tasks && AllGiven(ss, steps, n, t) == AllPut(ss, steps, n, t) + Left(ss[n].tasks[t].w)
  {
    hide Inv, Next, Given, Put1;
    if n == 0 {
      NobodyWrites(ss[0], t);
    } else {
      TextsWritten(ss, steps, n - 1, t);
      TokensConserved(ss, steps, n - 1);
      assert Enabled(ss[n - 1], steps[n - 1]) && ss[n] == Next(ss[n - 1], steps[n - 1]);
      TextStep(ss[n - 1], steps[n - 1], t);
      Regroup(AllPut(ss, steps, n - 1, t), Left(ss[n - 1].tasks[t].w), Given(ss[n - 1], steps[n - 1], t),
        Put1(ss[n - 1], steps[n - 1], t), Left(ss[n].tasks[t].w));
    }
  }

  lemma Regroup(a: seq<char>, b: seq<char>, c: seq<char>, d: seq<char>, e: seq<char>)
    requires d + e == b + c
    ensures (a + b) + c == (a + d) + e
  {
    assert (a + b) + c == a + (b + c) && (a + d) + e == a + (d + e);
  }

  lemma NobodyWrites(s: Sys, t: nat)
    requires Opened(s) && t in s.tasks
    ensures Left(s.tasks[t].w) == []
  {
  }

  // ---------------------------------------------------------------- reading

  /** How many characters a task still has to read. */
  function ToRead(r: Reader): nat { if r.NotReading? then 0 else r.n }

  /** A step reads the next character received for one task, or none. */
  lemma ReadStep1(s: Sys, step: Step, t: nat)
    requires Inv(s) && Enabled(s, step) && t in s.tasks
    ensures var r := Next(s, step);
            && ToRead(r.tasks[t].r) == (if step.StartRead? && step.t == t then step.n
                                        else if step.Read? && step.t == t then ToRead(s.tasks[t].r) - 1 else ToRead(s.tasks[t].r))
            && (if step.Read? then |s.port.read| < |s.port.got| && r.port.read == s.port.read + [s.port.got[|s.port.read|]] else r.port.read == s.port.read)
  {
    hide Inv, SignalSnd, SignalRcv, WriteStep, ReadStep, RcvStep, Received, SendReady, ReadChr, Expand, PortOk;
    PortKnown(s);
    match step
    case SndInterrupt =>
      SndKeeps(s, t);
      InterruptSends(s.port);
    case Read(u, ready) =>
      NotEmpty(s, u, ready);
      ReadKeeps(s, u, ready, t);
      Reads(s.port, ready);
    case RcvInterrupt(c, k, ready) =>
      RcvKeeps(s, c, k, ready, t);
      Receives(s.port, c, k, ready);
    case Write(u, ready) => WriteKeeps(s, u, ready, t);
    case StartWrite(u, cs) =>
    case StartRead(u, n) =>
    case _ => HandlingKeeps(s, step, t);
  }
}
