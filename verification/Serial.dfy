/**
 The serial interface driver: tasks and interrupt handlers share two ring buffers, and one semaphore for
 each direction passes the right to use it.
 */
module Serial {
  import opened Base

  const FC_STOP: char := 19 as char      // Ctrl-S
  const FC_START: char := 17 as char     // Ctrl-Q
  const LF: char := 10 as char
  const CR: char := 13 as char

  // ---------------------------------------------------------------- the port

  datatype Ioctl = Ioctl(echo: bool, crlf: bool, fcsnd: bool, fcany: bool, fcrcv: bool)

  /** `snd` and `rcv` are what the buffers hold. `written` and `got` record the characters put in by tasks
      and by the receiver, `sent` and `read` those that left for the device and for tasks; `fcout` the START
      and STOP characters that left. */
  datatype Port = Port(ioctl: Ioctl,
                       sndsz: nat, snd: seq<char>, sndStopped: bool,
                       rcvsz: nat, rcv: seq<char>, rcvFc: Option<char>, rcvStopped: bool,
                       written: seq<char>, sent: seq<char>, got: seq<char>, read: seq<char>, fcout: seq<char>)

  predicate Full(p: Port) { |p.snd| == p.sndsz }

  /** The locked part of serial_wri_chr; `ready` is whether the device takes a character now. */
  function PutChr(p: Port, c: char, ready: bool): Port {
    var q := p.(written := p.written + [c]);
    if p.snd == [] && !p.sndStopped && ready then q.(sent := p.sent + [c]) else q.(snd := p.snd + [c])
  }

  /** START or STOP goes out now, or is left for the next transmission. */
  function SendFc(p: Port, c: char, ready: bool): Port { if ready then p.(fcout := p.fcout + [c]) else p.(rcvFc := Some(c)) }

  /** serial_rea_chr. */
  function ReadChr(p: Port, ready: bool): Port
    requires p.rcv != []
  {
    var q := p.(rcv := p.rcv[1..], read := p.read + [p.rcv[0]]);
    if p.rcvStopped && |q.rcv| <= p.rcvsz / 2 then SendFc(q, FC_START, ready).(rcvStopped := false) else q
  }

  /** Up to `k` characters go from the send buffer to the device. */
  function Sent(p: Port, k: nat): Port
    requires k <= |p.snd|
  {
    p.(snd := p.snd[k..], sent := p.sent + p.snd[..k])
  }

  /** sio_irdy_snd: the device can take one character. */
  function SendReady(p: Port): Port {
    if p.rcvFc.Some? then p.(rcvFc := None, fcout := p.fcout + [p.rcvFc.value])
    else if !p.sndStopped && p.snd != [] then Sent(p, 1)
    else p
  }

  /** sio_irdy_rcv: a character has come in. If it lets transmission go on, the device takes `k`
      characters at once. */
  function Received(p: Port, c: char, k: nat, ready: bool): Port
    requires k <= |p.snd|
  {
    if p.ioctl.fcsnd && c == FC_STOP then p.(sndStopped := true)
    else if p.sndStopped && (c == FC_START || p.ioctl.fcany) then Sent(p.(sndStopped := false), k)
    else if p.ioctl.fcsnd && c == FC_START then p
    else if |p.rcv| == p.rcvsz then p
    else
      var q := p.(rcv := p.rcv + [c], got := p.got + [c]);
      if p.ioctl.fcrcv && !p.rcvStopped && |q.rcv| >= p.rcvsz * 3 / 4 then SendFc(q, FC_STOP, ready).(rcvStopped := true) else q
  }

  /** Every character in the buffers came in and has not left, in order, and the buffers hold them. */
  ghost predicate PortOk(p: Port) {
    && p.written == p.sent + p.snd && p.got == p.read + p.rcv
    && |p.snd| <= p.sndsz && |p.rcv| <= p.rcvsz && p.sndsz > 0 && p.rcvsz > 0
  }

  /** serial_wri_chr sends a CR before an LF. */
  function Expand(cs: seq<char>, crlf: bool): seq<char> {
    if cs == [] then [] else (if cs[0] == LF && crlf then [CR, LF] else [cs[0]]) + Expand(cs[1..], crlf)
  }

  // ---------------------------------------------------------------- tasks and semaphores

  /** A binary semaphore: its count and the tasks waiting for it. */
  datatype Sem = Sem(cnt: nat, queue: seq<nat>)

  /** _serial_wri_dat, with the characters still to write: before wai_sem, in it, or past it. */
  datatype Writer = NotWriting | WantSnd(rest: seq<char>) | WaitSnd(rest: seq<char>) | HoldSnd(rest: seq<char>)

  /** _serial_rea_dat, with the number of characters still to read. */
  datatype Reader = NotReading | WantRcv(n: nat) | WaitRcv(n: nat) | HoldRcv(n: nat)

  /** A reader becomes a writer for each echo. */
  datatype Task = Task(w: Writer, r: Reader)

  datatype Sys = Sys(port: Port, sndSem: Sem, rcvSem: Sem, tasks: map<nat, Task>, errorflag: bool)

  function SetW(s: Sys, t: nat, w: Writer): Sys
    requires t in s.tasks
  {
    s.(tasks := s.tasks[t := s.tasks[t].(w := w)])
  }

  function SetR(s: Sys, t: nat, r: Reader): Sys
    requires t in s.tasks
  {
    s.(tasks := s.tasks[t := s.tasks[t].(r := r)])
  }

  /** sig_sem of the send semaphore; E_QOVR sets the error flag. */
  function SignalSnd(s: Sys): Sys {
    if s.sndSem.queue != [] then
      var t := s.sndSem.queue[0];
      if t in s.tasks && s.tasks[t].w.WaitSnd? then
        SetW(s, t, HoldSnd(s.tasks[t].w.rest)).(sndSem := s.sndSem.(queue := s.sndSem.queue[1..]))
      else s
    else if s.sndSem.cnt < 1 then s.(sndSem := s.sndSem.(cnt := s.sndSem.cnt + 1))
    else s.(errorflag := true)
  }

  function SignalRcv(s: Sys): Sys {
    if s.rcvSem.queue != [] then
      var t := s.rcvSem.queue[0];
      if t in s.tasks && s.tasks[t].r.WaitRcv? then
        SetR(s, t, HoldRcv(s.tasks[t].r.n)).(rcvSem := s.rcvSem.(queue := s.rcvSem.queue[1..]))
      else s
    else if s.rcvSem.cnt < 1 then s.(rcvSem := s.rcvSem.(cnt := s.rcvSem.cnt + 1))
    else s.(errorflag := true)
  }

  /** The atomic steps of tasks `t` and of the two interrupt callbacks. A waiting task enters its queue
      at place `i`. */
  datatype Step =
    | StartWrite(t: nat, cs: seq<char>) | TakeSnd(t: nat, i: nat) | Write(t: nat, ready: bool) | GiveSnd(t: nat)
    | StartRead(t: nat, n: nat) | TakeRcv(t: nat, i: nat) | Read(t: nat, ready: bool) | GiveRcv(t: nat)
    | SndInterrupt | RcvInterrupt(c: char, k: nat, ready: bool) | Control(ioctl: Ioctl)

  predicate Enabled(s: Sys, step: Step) {
    match step
    case StartWrite(t, cs) => t in s.tasks && s.tasks[t] == Task(NotWriting, NotReading)
    case TakeSnd(t, i) => t in s.tasks && s.tasks[t].w.WantSnd? && i <= |s.sndSem.queue|
    case Write(t, ready) => t in s.tasks && s.tasks[t].w.HoldSnd? && s.tasks[t].w.rest != []
    case GiveSnd(t) => t in s.tasks && s.tasks[t].w == HoldSnd([])
    case StartRead(t, n) => t in s.tasks && s.tasks[t] == Task(NotWriting, NotReading)
    case TakeRcv(t, i) => t in s.tasks && s.tasks[t].w.NotWriting? && s.tasks[t].r.WantRcv? && i <= |s.rcvSem.queue|
    case Read(t, ready) => t in s.tasks && s.tasks[t].w.NotWriting? && s.tasks[t].r.HoldRcv? && s.tasks[t].r.n > 0
    case GiveRcv(t) => t in s.tasks && s.tasks[t].w.NotWriting? && s.tasks[t].r == HoldRcv(0)
    case RcvInterrupt(c, k, ready) => k <= |s.port.snd|
    case _ => true
  }

  function WriteStep(s: Sys, t: nat, ready: bool): Sys
    requires Enabled(s, Write(t, ready))
  {
    var rest := s.tasks[t].w.rest;
    var p := PutChr(s.port, rest[0], ready);
    var direct := |p.snd| == |s.port.snd|;
    var w :=
      if !direct && Full(p) then (if |rest| == 1 then NotWriting else WantSnd(rest[1..]))
      else HoldSnd(rest[1..]);
    SetW(s, t, w).(port := p)
  }

  function ReadStep(s: Sys, t: nat, ready: bool): Sys
    requires Enabled(s, Read(t, ready))
  {
    if s.port.rcv == [] then s
    else
      var n := s.tasks[t].r.n - 1;
      var p := ReadChr(s.port, ready);
      var r := if p.rcv != [] then HoldRcv(n) else if n == 0 then NotReading else WantRcv(n);
      var w := if s.port.ioctl.echo then WantSnd(Expand([s.port.rcv[0]], s.port.ioctl.crlf)) else NotWriting;
      s.(port := p, tasks := s.tasks[t := Task(w, r)])
  }

  function RcvStep(s: Sys, c: char, k: nat, ready: bool): Sys
    requires k <= |s.port.snd|
  {
    var p := Received(s.port, c, k, ready);
    var u := s.(port := p);
    var v := if Full(s.port) && |p.snd| < |s.port.snd| then SignalSnd(u) else u;
    if s.port.rcv == [] && p.rcv != [] then SignalRcv(v) else v
  }

  function Next(s: Sys, step: Step): Sys
    requires Enabled(s, step)
  {
    match step
    case StartWrite(t, cs) => if cs == [] then s else SetW(s, t, WantSnd(Expand(cs, s.port.ioctl.crlf)))
    case TakeSnd(t, i) =>
      var rest := s.tasks[t].w.rest;
      if s.sndSem.cnt >= 1 then SetW(s, t, HoldSnd(rest)).(sndSem := s.sndSem.(cnt := s.sndSem.cnt - 1))
      else SetW(s, t, WaitSnd(rest)).(sndSem := s.sndSem.(queue := InsertAt(s.sndSem.queue, i, t)))
    case Write(t, ready) => WriteStep(s, t, ready)
    case GiveSnd(t) => SignalSnd(SetW(s, t, NotWriting))
    case StartRead(t, n) => if n == 0 then s else SetR(s, t, WantRcv(n))
    case TakeRcv(t, i) =>
      var n := s.tasks[t].r.n;
      if s.rcvSem.cnt >= 1 then SetR(s, t, HoldRcv(n)).(rcvSem := s.rcvSem.(cnt := s.rcvSem.cnt - 1))
      else SetR(s, t, WaitRcv(n)).(rcvSem := s.rcvSem.(queue := InsertAt(s.rcvSem.queue, i, t)))
    case Read(t, ready) => ReadStep(s, t, ready)
    case GiveRcv(t) => SignalRcv(SetR(s, t, NotReading))
    case SndInterrupt =>
      var p := SendReady(s.port);
      if Full(s.port) && |p.snd| < |s.port.snd| then SignalSnd(s.(port := p)) else s.(port := p)
    case RcvInterrupt(c, k, ready) => RcvStep(s, c, k, ready)
    case Control(ioctl) => s.(port := s.port.(ioctl := ioctl))
  }

  // ---------------------------------------------------------------- one token each way

  function SndHolders(s: Sys): set<nat> { set t | t in s.tasks && s.tasks[t].w.HoldSnd? }

  function RcvHolders(s: Sys): set<nat> { set t | t in s.tasks && s.tasks[t].r.HoldRcv? }

  /** The send tokens: in the semaphore, with tasks, and behind a full buffer. */
  function SndTokens(s: Sys): nat { s.sndSem.cnt + |SndHolders(s)| + if Full(s.port) then 1 else 0 }

  /** The receive tokens: in the semaphore, with tasks, and behind an empty buffer. */
  function RcvTokens(s: Sys): nat { s.rcvSem.cnt + |RcvHolders(s)| + if s.port.rcv == [] then 1 else 0 }

  /** Exactly the tasks in their wait are queued, and none waits for a token that is there. */
  ghost predicate SndQueued(s: Sys) {
    && NoDup(s.sndSem.queue) && (s.sndSem.queue != [] ==> s.sndSem.cnt == 0)
    && (forall i {:trigger s.sndSem.queue[i]} :: 0 <= i < |s.sndSem.queue| ==> s.sndSem.queue[i] in s.tasks && s.tasks[s.sndSem.queue[i]].w.WaitSnd?)
    && (forall t {:trigger t in s.sndSem.queue} :: t in s.tasks && s.tasks[t].w.WaitSnd? ==> t in s.sndSem.queue)
  }

  ghost predicate RcvQueued(s: Sys) {
    && NoDup(s.rcvSem.queue) && (s.rcvSem.queue != [] ==> s.rcvSem.cnt == 0)
    && (forall i {:trigger s.rcvSem.queue[i]} :: 0 <= i < |s.rcvSem.queue| ==> s.rcvSem.queue[i] in s.tasks && s.tasks[s.rcvSem.queue[i]].r.WaitRcv?)
    && (forall t {:trigger t in s.rcvSem.queue} :: t in s.tasks && s.tasks[t].r.WaitRcv? ==> t in s.rcvSem.queue)
  }

  ghost predicate Inv(s: Sys) {
    && PortOk(s.port) && !s.errorflag
    && SndQueued(s) && SndTokens(s) == 1
    && RcvQueued(s) && RcvTokens(s) == 1
  }

  lemma SetWHolders(s: Sys, t: nat, w: Writer)
    requires t in s.tasks
    ensures SndHolders(SetW(s, t, w)) == if w.HoldSnd? then SndHolders(s) + {t} else SndHolders(s) - {t}
    ensures RcvHolders(SetW(s, t, w)) == RcvHolders(s)
  {
  }

  lemma SetRHolders(s: Sys, t: nat, r: Reader)
    requires t in s.tasks
    ensures RcvHolders(SetR(s, t, r)) == if r.HoldRcv? then RcvHolders(s) + {t} else RcvHolders(s) - {t}
    ensures SndHolders(SetR(s, t, r)) == SndHolders(s)
  {
  }

  /** The receive side does not depend on the writers, nor the send side on the readers. */
  lemma SetWKeepsRcv(s: Sys, t: nat, w: Writer)
    requires t in s.tasks && RcvQueued(s)
    ensures RcvQueued(SetW(s, t, w)) && RcvTokens(SetW(s, t, w)) == RcvTokens(s)
  {
    SetWHolders(s, t, w);
  }

  lemma SetRKeepsSnd(s: Sys, t: nat, r: Reader)
    requires t in s.tasks && SndQueued(s)
    ensures SndQueued(SetR(s, t, r)) && SndTokens(SetR(s, t, r)) == SndTokens(s)
  {
    SetRHolders(s, t, r);
  }

  /** A writer outside its wait may change its state to any other outside it. */
  lemma SetWKeepsQueue(s: Sys, t: nat, w: Writer)
    requires t in s.tasks && SndQueued(s) && !s.tasks[t].w.WaitSnd? && !w.WaitSnd?
    ensures SndQueued(SetW(s, t, w))
  {
    var r := SetW(s, t, w);
    forall i | 0 <= i < |r.sndSem.queue| ensures r.sndSem.queue[i] in r.tasks && r.tasks[r.sndSem.queue[i]].w.WaitSnd? {
      assert s.sndSem.queue[i] != t;
    }
  }

  lemma SetRKeepsQueue(s: Sys, t: nat, r: Reader)
    requires t in s.tasks && RcvQueued(s) && !s.tasks[t].r.WaitRcv? && !r.WaitRcv?
    ensures RcvQueued(SetR(s, t, r))
  {
    var u := SetR(s, t, r);
    forall i | 0 <= i < |u.rcvSem.queue| ensures u.rcvSem.queue[i] in u.tasks && u.tasks[u.rcvSem.queue[i]].r.WaitRcv? {
      assert s.rcvSem.queue[i] != t;
    }
  }

  /** Giving up the token passes it on or puts it back, and never overflows the semaphore. */
  lemma SignalSndOk(s: Sys)
    requires SndQueued(s) && SndTokens(s) == 0 && RcvQueued(s)
    ensures var r := SignalSnd(s);
            && SndQueued(r) && SndTokens(r) == 1 && RcvQueued(r) && RcvTokens(r) == RcvTokens(s)
            && r.port == s.port && r.errorflag == s.errorflag
  {
    if s.sndSem.queue != [] {
      var t, q := s.sndSem.queue[0], s.sndSem.queue[1..];
      var w := HoldSnd(s.tasks[t].w.rest);
      SetWHolders(s, t, w);
      SetWKeepsRcv(s, t, w);
      var r := SignalSnd(s);
      assert SndHolders(r) == SndHolders(SetW(s, t, w)) && RcvHolders(r) == RcvHolders(SetW(s, t, w));
      forall i | 0 <= i < |q| ensures q[i] in r.tasks && r.tasks[q[i]].w.WaitSnd? { assert q[i] == s.sndSem.queue[i + 1] && q[i] != t; }
      forall x | x in r.tasks && r.tasks[x].w.WaitSnd? ensures x in q { assert x in s.sndSem.queue && x != t; }
    }
  }

  lemma SignalRcvOk(s: Sys)
    requires RcvQueued(s) && RcvTokens(s) == 0 && SndQueued(s)
    ensures var r := SignalRcv(s);
            && RcvQueued(r) && RcvTokens(r) == 1 && SndQueued(r) && SndTokens(r) == SndTokens(s)
            && r.port == s.port && r.errorflag == s.errorflag
  {
    if s.rcvSem.queue != [] {
      var t, q := s.rcvSem.queue[0], s.rcvSem.queue[1..];
      var u := HoldRcv(s.tasks[t].r.n);
      SetRHolders(s, t, u);
      SetRKeepsSnd(s, t, u);
      var r := SignalRcv(s);
      assert RcvHolders(r) == RcvHolders(SetR(s, t, u)) && SndHolders(r) == SndHolders(SetR(s, t, u));
      forall i | 0 <= i < |q| ensures q[i] in r.tasks && r.tasks[q[i]].r.WaitRcv? { assert q[i] == s.rcvSem.queue[i + 1] && q[i] != t; }
      forall x | x in r.tasks && r.tasks[x].r.WaitRcv? ensures x in q { assert x in s.rcvSem.queue && x != t; }
    }
  }

  /** Holding the send token means that there is room; holding the receive token that there is something
      to read. */
  lemma HolderAlone(s: Sys, t: nat)
    requires t in s.tasks
    ensures SndTokens(s) == 1 && s.tasks[t].w.HoldSnd? ==> !Full(s.port) && s.sndSem.cnt == 0 && SndHolders(s) == {t}
    ensures RcvTokens(s) == 1 && s.tasks[t].r.HoldRcv? ==> s.port.rcv != [] && s.rcvSem.cnt == 0 && RcvHolders(s) == {t}
  {
    if s.tasks[t].w.HoldSnd? {
      assert t in SndHolders(s);
      SubsetSize({t}, SndHolders(s));
      if SndTokens(s) == 1 { Single(SndHolders(s), t); }
    }
    if s.tasks[t].r.HoldRcv? {
      assert t in RcvHolders(s);
      SubsetSize({t}, RcvHolders(s));
      if RcvTokens(s) == 1 { Single(RcvHolders(s), t); }
    }
  }

  lemma Single(h: set<nat>, t: nat)
    requires t in h && |h| <= 1
    ensures h == {t}
  {
    forall x | x in h && x != t ensures false { TwoIn(h, x, t); }
  }

  lemma TwoIn(h: set<nat>, x: nat, y: nat)
    requires x in h && y in h && x != y
    ensures |h| >= 2
  {
    SubsetSize({x, y}, h);
    assert |{x, y}| == 2;
  }

  lemma GrantedSndOk(s: Sys, t: nat, i: nat)
    requires Inv(s) && Enabled(s, TakeSnd(t, i)) && s.sndSem.cnt >= 1
    ensures Inv(Next(s, TakeSnd(t, i)))
  {
    hide NoDup;
    var rest := s.tasks[t].w.rest;
    var r := Next(s, TakeSnd(t, i));
    SetWHolders(s, t, HoldSnd(rest));
    SetWKeepsRcv(s, t, HoldSnd(rest));
    SetWKeepsQueue(s, t, HoldSnd(rest));
    assert SndHolders(r) == SndHolders(SetW(s, t, HoldSnd(rest))) && RcvHolders(r) == RcvHolders(SetW(s, t, HoldSnd(rest)));
    assert t !in SndHolders(s);
  }

  lemma QueuedSndOk(s: Sys, t: nat, i: nat)
    requires Inv(s) && Enabled(s, TakeSnd(t, i)) && s.sndSem.cnt == 0
    ensures Inv(Next(s, TakeSnd(t, i)))
  {
    hide NoDup, PortOk;
    var rest := s.tasks[t].w.rest;
    var r := Next(s, TakeSnd(t, i));
    SetWHolders(s, t, WaitSnd(rest));
    SetWKeepsRcv(s, t, WaitSnd(rest));
    assert t !in s.sndSem.queue;
    InsertNew(s.sndSem.queue, i, t);
    assert SndHolders(r) == SndHolders(s) && RcvHolders(r) == RcvHolders(s);
    forall j | 0 <= j < |r.sndSem.queue| ensures r.sndSem.queue[j] in r.tasks && r.tasks[r.sndSem.queue[j]].w.WaitSnd? {
      assert r.sndSem.queue[j] in r.sndSem.queue;
    }
  }

  lemma GrantedRcvOk(s: Sys, t: nat, i: nat)
    requires Inv(s) && Enabled(s, TakeRcv(t, i)) && s.rcvSem.cnt >= 1
    ensures Inv(Next(s, TakeRcv(t, i)))
  {
    hide NoDup;
    var n := s.tasks[t].r.n;
    var r := Next(s, TakeRcv(t, i));
    SetRHolders(s, t, HoldRcv(n));
    SetRKeepsSnd(s, t, HoldRcv(n));
    SetRKeepsQueue(s, t, HoldRcv(n));
    assert SndHolders(r) == SndHolders(SetR(s, t, HoldRcv(n))) && RcvHolders(r) == RcvHolders(SetR(s, t, HoldRcv(n)));
    assert t !in RcvHolders(s);
  }

  lemma QueuedRcvOk(s: Sys, t: nat, i: nat)
    requires Inv(s) && Enabled(s, TakeRcv(t, i)) && s.rcvSem.cnt == 0
    ensures Inv(Next(s, TakeRcv(t, i)))
  {
    hide NoDup;
    var n := s.tasks[t].r.n;
    var r := Next(s, TakeRcv(t, i));
    SetRHolders(s, t, WaitRcv(n));
    SetRKeepsSnd(s, t, WaitRcv(n));
    assert t !in s.rcvSem.queue;
    InsertNew(s.rcvSem.queue, i, t);
    assert SndHolders(r) == SndHolders(s) && RcvHolders(r) == RcvHolders(s);
    forall j | 0 <= j < |r.rcvSem.queue| ensures r.rcvSem.queue[j] in r.tasks && r.tasks[r.rcvSem.queue[j]].r.WaitRcv? {
      assert r.rcvSem.queue[j] in r.rcvSem.queue;
    }
  }

  lemma ReadChrOk(p: Port, ready: bool)
    requires PortOk(p) && p.rcv != []
    ensures PortOk(ReadChr(p, ready)) && ReadChr(p, ready).rcv == p.rcv[1..]
    ensures ReadChr(p, ready).snd == p.snd && ReadChr(p, ready).sndsz == p.sndsz
  {
    assert p.rcv == [p.rcv[0]] + p.rcv[1..];
  }

  lemma PutChrOk(p: Port, c: char, ready: bool)
    requires PortOk(p) && !Full(p)
    ensures PortOk(PutChr(p, c, ready)) && PutChr(p, c, ready).rcv == p.rcv
    ensures Full(PutChr(p, c, ready)) ==> |PutChr(p, c, ready).snd| == |p.snd| + 1
  {
    assert p.sent + [] == p.sent;
    assert p.written + [c] == p.sent + (p.snd + [c]);
  }

  lemma WriteOk(s: Sys, t: nat, ready: bool)
    requires Inv(s) && Enabled(s, Write(t, ready))
    ensures Inv(WriteStep(s, t, ready))
  {
    hide NoDup, PutChr;
    HolderAlone(s, t);
    var rest, r := s.tasks[t].w.rest, WriteStep(s, t, ready);
    PutChrOk(s.port, rest[0], ready);
    var w := r.tasks[t].w;
    SetWHolders(s, t, w);
    SetWKeepsRcv(s, t, w);
    SetWKeepsQueue(s, t, w);
    assert SndHolders(r) == SndHolders(SetW(s, t, w)) && RcvHolders(r) == RcvHolders(s);
  }

  lemma GiveSndOk(s: Sys, t: nat)
    requires Inv(s) && Enabled(s, GiveSnd(t))
    ensures Inv(Next(s, GiveSnd(t)))
  {
    hide NoDup;
    HolderAlone(s, t);
    SetWHolders(s, t, NotWriting);
    SetWKeepsRcv(s, t, NotWriting);
    SetWKeepsQueue(s, t, NotWriting);
    SignalSndOk(SetW(s, t, NotWriting));
  }

  lemma GiveRcvOk(s: Sys, t: nat)
    requires Inv(s) && Enabled(s, GiveRcv(t))
    ensures Inv(Next(s, GiveRcv(t)))
  {
    hide NoDup;
    HolderAlone(s, t);
    SetRHolders(s, t, NotReading);
    SetRKeepsSnd(s, t, NotReading);
    SetRKeepsQueue(s, t, NotReading);
    SignalRcvOk(SetR(s, t, NotReading));
  }

  lemma NoSndChange(s: Sys, t: nat, w: Writer)
    requires t in s.tasks && !s.tasks[t].w.HoldSnd? && !w.HoldSnd?
    ensures SndHolders(SetW(s, t, w)) == SndHolders(s)
  {
  }

  lemma ReadOk(s: Sys, t: nat, ready: bool)
    requires Inv(s) && Enabled(s, Read(t, ready))
    ensures Inv(ReadStep(s, t, ready))
  {
    hide NoDup, Expand, ReadChr, PortOk, SndQueued, RcvQueued, RcvHolders, SndHolders;
    HolderAlone(s, t);
    ReadChrOk(s.port, ready);
    var u := ReadStep(s, t, ready);
    var w, r := u.tasks[t].w, u.tasks[t].r;
    var m := SetR(s, t, r);
    SetRHolders(s, t, r);
    SetRKeepsSnd(s, t, r);
    SetRKeepsQueue(s, t, r);
    SetWHolders(m, t, w);
    NoSndChange(m, t, w);
    SetWKeepsRcv(m, t, w);
    SetWKeepsQueue(m, t, w);
    var v := SetW(m, t, w);
    PortChanged(v, u.port);
    assert u == v.(port := u.port);
    assert {t} - {t} == {} && {t} + {t} == {t};
  }

  /** Changing only the port leaves tasks and semaphores alone. */
  lemma PortChanged(s: Sys, p: Port)
    requires SndQueued(s) && RcvQueued(s)
    ensures var r := s.(port := p);
            SndQueued(r) && RcvQueued(r) && SndHolders(r) == SndHolders(s) && RcvHolders(r) == RcvHolders(s)
  {
  }

  lemma SentOk(p: Port, k: nat)
    requires PortOk(p) && k <= |p.snd|
    ensures PortOk(Sent(p, k)) && |Sent(p, k).snd| == |p.snd| - k
  {
    assert p.snd == p.snd[..k] + p.snd[k..];
  }

  lemma SndInterruptOk(s: Sys)
    requires Inv(s)
    ensures Inv(Next(s, SndInterrupt))
  {
    hide NoDup;
    var p := SendReady(s.port);
    if s.port.snd != [] { SentOk(s.port, 1); }
    PortChanged(s, p);
    if Full(s.port) && |p.snd| < |s.port.snd| { SignalSndOk(s.(port := p)); }
  }

  lemma ReceivedOk(p: Port, c: char, k: nat, ready: bool)
    requires PortOk(p) && k <= |p.snd|
    ensures var q := Received(p, c, k, ready);
            && PortOk(q) && q.sndsz == p.sndsz && |q.snd| <= |p.snd|
            && (q.rcv == p.rcv || (q.rcv == p.rcv + [c] && q.snd == p.snd))
  {
    SentOk(p.(sndStopped := false), k);
    assert p.got + [c] == p.read + (p.rcv + [c]);
  }

  lemma RcvInterruptOk(s: Sys, c: char, k: nat, ready: bool)
    requires Inv(s) && k <= |s.port.snd|
    ensures Inv(RcvStep(s, c, k, ready))
  {
    hide NoDup, Received;
    var p := Received(s.port, c, k, ready);
    ReceivedOk(s.port, c, k, ready);
    PortChanged(s, p);
    var u := s.(port := p);
    if Full(s.port) && |p.snd| < |s.port.snd| {
      SignalSndOk(u);
    } else if s.port.rcv == [] && p.rcv != [] {
      SignalRcvOk(u);
    }
  }

  lemma StartOk(s: Sys, step: Step)
    requires Inv(s) && Enabled(s, step) && (step.StartWrite? || step.StartRead? || step.Control?)
    ensures Inv(Next(s, step))
  {
    hide NoDup, Expand;
    match step
    case StartWrite(t, cs) =>
      var w := WantSnd(Expand(cs, s.port.ioctl.crlf));
      SetWHolders(s, t, w);
      SetWKeepsRcv(s, t, w);
      SetWKeepsQueue(s, t, w);
    case StartRead(t, n) =>
      SetRHolders(s, t, WantRcv(n));
      SetRKeepsSnd(s, t, WantRcv(n));
      SetRKeepsQueue(s, t, WantRcv(n));
    case Control(ioctl) => PortChanged(s, s.port.(ioctl := ioctl));
  }

  /** Every step of every task and interrupt keeps the one token each way. */
  lemma StepOk(s: Sys, step: Step)
    requires Inv(s) && Enabled(s, step)
    ensures Inv(Next(s, step))
  {
    hide Inv;
    match step
    case TakeSnd(t, i) => if s.sndSem.cnt >= 1 { GrantedSndOk(s, t, i); } else { QueuedSndOk(s, t, i); }
    case Write(t, ready) => WriteOk(s, t, ready);
    case GiveSnd(t) => GiveSndOk(s, t);
    case TakeRcv(t, i) => if s.rcvSem.cnt >= 1 { GrantedRcvOk(s, t, i); } else { QueuedRcvOk(s, t, i); }
    case Read(t, ready) => ReadOk(s, t, ready);
    case GiveRcv(t) => GiveRcvOk(s, t);
    case SndInterrupt => SndInterruptOk(s);
    case RcvInterrupt(c, k, ready) => RcvInterruptOk(s, c, k, ready);
    case _ => StartOk(s, step);
  }

  // ---------------------------------------------------------------- all interleavings

  /** A port just opened: the send semaphore at 1, the receive semaphore at 0, nobody at work. */
  ghost predicate Opened(s: Sys) {
    && s.port.snd == s.port.rcv == s.port.written == s.port.sent == s.port.got == s.port.read == s.port.fcout == []
    && !s.port.sndStopped && s.port.rcvFc.None? && !s.port.rcvStopped
    && s.port.sndsz > 0 && s.port.rcvsz > 0 && !s.errorflag
    && s.sndSem == Sem(1, []) && s.rcvSem == Sem(0, [])
    && forall t :: t in s.tasks ==> s.tasks[t] == Task(NotWriting, NotReading)
  }

  ghost predicate IsRun(ss: seq<Sys>, steps: seq<Step>) {
    && |ss| == |steps| + 1 && Opened(ss[0])
    && forall i {:trigger steps[i]} :: 0 <= i < |steps| ==> Enabled(ss[i], steps[i]) && ss[i + 1] == Next(ss[i], steps[i])
  }

  /** In every interleaving there is one token each way, no sig_sem overflows, the buffers never over- or
      underflow, and what was written reaches the device in order. */
  lemma {:induction false} TokensConserved(ss: seq<Sys>, steps: seq<Step>, n: nat)
    requires IsRun(ss, steps) && n < |ss|
    ensures Inv(ss[n])
  {
    hide Inv, Enabled, Next, Opened;
    if n > 0 {
      TokensConserved(ss, steps, n - 1);
      assert Enabled(ss[n - 1], steps[n - 1]);
      StepOk(ss[n - 1], steps[n - 1]);
    } else {
      OpenedOk(ss[0]);
    }
  }

  lemma OpenedOk(s: Sys)
    requires Opened(s)
    ensures Inv(s)
  {
    assert SndHolders(s) == {} && RcvHolders(s) == {};
  }

  /** At most one task has the right to write, and then there is room; at most one has the right to read,
      and then there is something to read. */
  lemma ExclusiveRights(ss: seq<Sys>, steps: seq<Step>, n: nat, t: nat, u: nat)
    requires IsRun(ss, steps) && n < |ss| && t in ss[n].tasks && u in ss[n].tasks
    ensures var s := ss[n];
            && (s.tasks[t].w.HoldSnd? ==> |s.port.snd| < s.port.sndsz && (s.tasks[u].w.HoldSnd? ==> t == u))
            && (s.tasks[t].r.HoldRcv? ==> s.port.rcv != [] && (s.tasks[u].r.HoldRcv? ==> t == u))
            && s.port.sent <= s.port.written
  {
    TokensConserved(ss, steps, n);
    HolderAlone(ss[n], t);
    var s := ss[n];
    if s.tasks[u].w.HoldSnd? { assert u in SndHolders(s); }
    if s.tasks[u].r.HoldRcv? { assert u in RcvHolders(s); }
  }

  // ---------------------------------------------------------------- the port in memory

  /** A ring of characters with its two pointers and its count. */
  class CharRing {
    const buffer: array<char>
    var readPtr: nat
    var writePtr: nat
    var count: nat
    ghost var chars: seq<char>

    ghost predicate Valid()
      reads this, buffer
    {
      && buffer.Length > 0 && count == |chars| <= buffer.Length
      && readPtr < buffer.Length && writePtr < buffer.Length && writePtr == Place(count)
      && forall i :: 0 <= i < count ==> buffer[Place(i)] == chars[i]
    }

    /** The place `i` characters behind the read pointer. */
    ghost function Place(i: nat): (p: nat)
      requires readPtr < buffer.Length && i <= buffer.Length
      reads `readPtr
      ensures p < buffer.Length
    {
      if readPtr + i < buffer.Length then readPtr + i else readPtr + i - buffer.Length
    }

    constructor (size: nat)
      requires size > 0
      ensures Valid() && chars == [] && buffer.Length == size && fresh(buffer)
    {
      buffer := new char[size](_ => CR);
      readPtr, writePtr, count, chars := 0, 0, 0, [];
    }

    /** INC_PTR. */
    method Increment(p: nat) returns (q: nat)
      requires p < buffer.Length
      ensures q == (if p + 1 == buffer.Length then 0 else p + 1)
    {
      q := p + 1;
      if q == buffer.Length {
        q := 0;
      }
    }

    method Put(c: char)
      requires Valid() && count < buffer.Length
      modifies this, buffer
      ensures Valid() && chars == old(chars) + [c]
    {
      buffer[writePtr] := c;
      writePtr := Increment(writePtr);
      count := count + 1;
      chars := chars + [c];
    }

    method Take() returns (c: char)
      requires Valid() && count > 0
      modifies this
      ensures Valid() && old(chars) == [c] + chars
    {
      c := buffer[readPtr];
      readPtr := Increment(readPtr);
      count := count - 1;
      chars := chars[1..];
    }
  }

  class SerialPort {
    const snd: CharRing
    const rcv: CharRing
    var ioctl: Ioctl
    var sndStopped: bool
    var rcvFcChr: Option<char>
    var rcvStopped: bool
    ghost var written: seq<char>
    ghost var sent: seq<char>
    ghost var got: seq<char>
    ghost var read: seq<char>
    ghost var fcout: seq<char>

    ghost predicate Valid()
      reads this, snd, rcv, snd.buffer, rcv.buffer
    {
      snd != rcv && snd.buffer != rcv.buffer && snd.Valid() && rcv.Valid()
    }

    ghost function Abs(): Port
      reads this, snd, rcv
    {
      Port(ioctl, snd.buffer.Length, snd.chars, sndStopped, rcv.buffer.Length, rcv.chars, rcvFcChr, rcvStopped, written, sent, got, read, fcout)
    }

    /** _serial_opn_por. */
    constructor (sndsz: nat, rcvsz: nat)
      requires sndsz > 0 && rcvsz > 0
      ensures Valid() && PortOk(Abs()) && snd.chars == rcv.chars == written == sent == got == read == fcout == []
    {
      snd := new CharRing(sndsz);
      rcv := new CharRing(rcvsz);
      ioctl := Ioctl(true, true, true, false, true);
      sndStopped, rcvFcChr, rcvStopped := false, None, false;
      written, sent, got, read, fcout := [], [], [], [], [];
    }

    /** The locked part of serial_wri_chr. */
    method SerialWriChr(c: char, ready: bool) returns (bufferFull: bool)
      requires Valid() && !Full(Abs())
      modifies this, snd, snd.buffer
      ensures Valid() && Abs() == PutChr(old(Abs()), c, ready)
      ensures bufferFull <==> |Abs().snd| > |old(Abs()).snd| && Full(Abs())
    {
      written := written + [c];
      if snd.count == 0 && !sndStopped && ready {
        sent := sent + [c];
        bufferFull := false;
      } else {
        snd.Put(c);
        bufferFull := snd.count == snd.buffer.Length;
      }
    }

    /** The locked part of serial_rea_chr. */
    method SerialReaChr(ready: bool) returns (c: char, bufferEmpty: bool)
      requires Valid() && rcv.chars != []
      modifies this, rcv
      ensures Valid() && Abs() == ReadChr(old(Abs()), ready)
      ensures c == old(Abs()).rcv[0] && (bufferEmpty <==> Abs().rcv == [])
    {
      ghost var before := rcv.chars;
      c := rcv.Take();
      assert rcv.chars == before[1..];
      read := read + [c];
      bufferEmpty := rcv.count == 0;
      if rcvStopped && rcv.count <= rcv.buffer.Length / 2 {
        if !ready {
          rcvFcChr := Some(FC_START);
        } else {
          fcout := fcout + [FC_START];
        }
        rcvStopped := false;
      }
    }

    /** sio_irdy_snd; the semaphore is signalled exactly when the buffer was full and is not any more. */
    method SioIrdySnd() returns (signal: bool)
      requires Valid()
      modifies this, snd
      ensures Valid() && Abs() == SendReady(old(Abs()))
      ensures signal <==> Full(old(Abs())) && |Abs().snd| < |old(Abs()).snd|
    {
      signal := false;
      if rcvFcChr != None {
        fcout := fcout + [rcvFcChr.value];
        rcvFcChr := None;
      } else if !sndStopped && snd.count > 0 {
        signal := snd.count == snd.buffer.Length;
        ghost var before := snd.chars;
        var c := snd.Take();
        assert snd.chars == before[1..];
        sent := sent + [c];
        assert before[..1] == [c];
      }
    }

    /** The loop that lets transmission go on; the device takes `k` characters. */
    method Resume(k: nat) returns (signal: bool)
      requires Valid() && k <= |snd.chars|
      modifies `sent, snd
      ensures Valid() && Abs() == Sent(old(Abs()), k)
      ensures signal <==> Full(old(Abs())) && k > 0
    {
      signal := false;
      ghost var before, out := snd.chars, sent;
      var n := 0;
      while snd.count > 0
        invariant Valid() && n <= k && snd.chars == before[n..] && sent == out + before[..n]
        invariant signal <==> |before| == snd.buffer.Length && n > 0
        decreases snd.count
      {
        if n == k {
          break;
        }
        if snd.count == snd.buffer.Length {
          signal := true;
        }
        var c := snd.Take();
        assert before[n..] == [c] + before[n + 1..] && before[..n + 1] == before[..n] + [c];
        sent := sent + [c];
        n := n + 1;
      }
    }

    /** sio_irdy_rcv; each semaphore is signalled exactly when its buffer stops being full, or empty. */
    method SioIrdyRcv(c: char, k: nat, ready: bool) returns (sigSnd: bool, sigRcv: bool)
      requires Valid() && k <= |snd.chars|
      modifies this, snd, rcv, rcv.buffer
      ensures Valid() && Abs() == Received(old(Abs()), c, k, ready)
      ensures sigSnd <==> Full(old(Abs())) && |Abs().snd| < |old(Abs()).snd|
      ensures sigRcv <==> old(Abs()).rcv == [] && Abs().rcv != []
    {
      sigSnd, sigRcv := false, false;
      if ioctl.fcsnd && c == FC_STOP {
        sndStopped := true;
      } else if sndStopped && (c == FC_START || ioctl.fcany) {
        sndStopped := false;
        sigSnd := Resume(k);
      } else if ioctl.fcsnd && c == FC_START {
      } else if rcv.count == rcv.buffer.Length {
      } else {
        sigRcv := rcv.count == 0;
        StoreReceived(c, ready);
      }
    }

    method StoreReceived(c: char, ready: bool)
      requires Valid() && rcv.count < rcv.buffer.Length
      modifies this, rcv, rcv.buffer
      ensures Valid()
      ensures var q := old(Abs()).(rcv := old(Abs()).rcv + [c], got := old(Abs()).got + [c]);
              Abs() == if q.ioctl.fcrcv && !q.rcvStopped && |q.rcv| >= q.rcvsz * 3 / 4 then SendFc(q, FC_STOP, ready).(rcvStopped := true) else q
    {
      rcv.Put(c);
      got := got + [c];
      if ioctl.fcrcv && !rcvStopped && rcv.count >= rcv.buffer.Length * 3 / 4 {
        if !ready {
          rcvFcChr := Some(FC_STOP);
        } else {
          fcout := fcout + [FC_STOP];
        }
        rcvStopped := true;
      }
    }
  }
}
