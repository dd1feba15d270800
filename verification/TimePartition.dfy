/**
 Time partitioning: system cycles, the time windows of a cycle, switches put off while dispatching is
 disabled, and changes of the system operating mode.
 */
module TimePartition {
  import opened Base

  // ---------------------------------------------------------------- tables

  datatype Window = Window(twdlen: nat, dom: nat)

  /** The windows of mode `m` are those from its `first` to the `first` of the next entry. */
  datatype Mode = Mode(first: nat, next: Option<nat>)

  datatype Tables = Tables(cyctim: nat, windows: seq<Window>, modes: seq<Mode>)

  /** What the configurator checks: cycle and windows have a length, the slices follow one another; the
      last entry of `modes` only ends the slice before it. */
  ghost predicate TablesOk(c: Tables) {
    && c.cyctim > 0 && |c.modes| >= 1
    && (forall w :: 0 <= w < |c.windows| ==> c.windows[w].twdlen > 0)
    && (forall m, n :: 0 <= m < n < |c.modes| ==> First(c, m) <= First(c, n))
    && (forall m :: 0 <= m < |c.modes| ==> First(c, m) <= |c.windows|)
    && forall m :: 0 <= m < |c.modes| - 1 ==> IsMode(c, c.modes[m].next)
  }

  predicate IsMode(c: Tables, m: Option<nat>) { m.Some? ==> m.value < |c.modes| - 1 }

  function First(c: Tables, m: nat): nat
    requires m < |c.modes|
  {
    c.modes[m].first
  }

  // ---------------------------------------------------------------- what is started when

  /** A cycle starts, in a mode or none, for the given event time; a window starts; the idle window
      starts; a window is cut off by the next cycle. */
  datatype Event = Cycle(mode: Option<nat>, at: int) | Start(w: nat) | Idle | Overrun(w: nat)

  /** How far the current cycle has come: `next` is the window to start next. */
  datatype Progress = Progress(mode: Option<nat>, at: int, next: nat, idle: bool)

  /** Which event may come next: cycles one period apart, windows in table order within the mode. */
  predicate MayFollow(c: Tables, p: Progress, e: Event)
    requires IsMode(c, p.mode)
  {
    match e
    case Cycle(m, at) => IsMode(c, m) && (p.mode.Some? ==> at == p.at + c.cyctim)
    case Start(w) => p.mode.Some? && !p.idle && w == p.next && First(c, p.mode.value) <= w < First(c, p.mode.value + 1)
    case Idle => p.mode.Some? && !p.idle && p.next == First(c, p.mode.value + 1)
    case Overrun(w) => p.mode.Some? && !p.idle && p.next == w + 1
  }

  function Onward(c: Tables, p: Progress, e: Event): Progress {
    match e
    case Cycle(m, at) => Progress(m, at, if m.Some? && m.value < |c.modes| then First(c, m.value) else 0, false)
    case Start(w) => p.(next := w + 1)
    case Idle => p.(idle := true)
    case Overrun(w) => p.(idle := true)
  }

  function Reached(c: Tables, log: seq<Event>): Progress {
    if log == [] then Progress(None, 0, 0, false) else Onward(c, Reached(c, log[..|log| - 1]), log[|log| - 1])
  }

  ghost predicate InOrder(c: Tables, log: seq<Event>) {
    forall i :: 0 <= i < |log| ==> IsMode(c, Reached(c, log[..i]).mode) && MayFollow(c, Reached(c, log[..i]), log[i])
  }

  lemma InOrderMore(c: Tables, log: seq<Event>, e: Event)
    requires InOrder(c, log) && IsMode(c, Reached(c, log).mode) && MayFollow(c, Reached(c, log), e)
    ensures InOrder(c, log + [e]) && Reached(c, log + [e]) == Onward(c, Reached(c, log), e)
  {
    hide MayFollow, Onward, IsMode;
    var more := log + [e];
    assert more[..|log|] == log;
    forall i | 0 <= i < |more| ensures IsMode(c, Reached(c, more[..i]).mode) && MayFollow(c, Reached(c, more[..i]), more[i]) {
      assert more[..i] == log[..i];
      assert i == |log| ==> log[..i] == log;
    }
  }

  /** Between two starts of cycles the mode stays, and windows of its slice start in table order, each at
      most once. */
  lemma {:induction false} WindowsInOrder(c: Tables, log: seq<Event>, i: nat, j: nat)
    requires InOrder(c, log) && i <= j < |log| && forall n :: i < n <= j ==> !log[n].Cycle?
    ensures Reached(c, log[..j + 1]).mode == Reached(c, log[..i + 1]).mode
    ensures Reached(c, log[..i + 1]).next <= Reached(c, log[..j + 1]).next
    ensures i < j && log[i].Start? && log[j].Start? ==> log[i].w < log[j].w
    ensures log[j].Start? ==>
      var m := Reached(c, log[..i + 1]).mode;
      m.Some? && m.value + 1 < |c.modes| && First(c, m.value) <= log[j].w < First(c, m.value + 1)
  {
    hide InOrder, Reached;
    OneMore(c, log, j);
    if i < j {
      WindowsInOrder(c, log, i, j - 1);
      OneMore(c, log, i);
    }
  }

  /** Cycles are one period apart, however late each was started. */
  lemma {:induction false} CyclesPeriodic(c: Tables, log: seq<Event>, i: nat, j: nat)
    requires InOrder(c, log) && i < j < |log| && log[i].Cycle? && log[i].mode.Some?
    requires log[j].Cycle? && forall n :: i < n < j ==> !log[n].Cycle?
    ensures log[j].at == log[i].at + c.cyctim
  {
    hide InOrder, Reached;
    OneMore(c, log, i);
    OneMore(c, log, j);
    SameCycle(c, log, i, j - 1);
  }

  lemma {:induction false} SameCycle(c: Tables, log: seq<Event>, i: nat, j: nat)
    requires InOrder(c, log) && i <= j < |log| && forall n :: i < n <= j ==> !log[n].Cycle?
    ensures Reached(c, log[..j + 1]).at == Reached(c, log[..i + 1]).at
    ensures Reached(c, log[..j + 1]).mode == Reached(c, log[..i + 1]).mode
  {
    hide InOrder, Reached;
    if i < j {
      OneMore(c, log, j);
      SameCycle(c, log, i, j - 1);
    }
  }

  lemma OneMore(c: Tables, log: seq<Event>, j: nat)
    requires InOrder(c, log) && j < |log|
    ensures Reached(c, log[..j + 1]) == Onward(c, Reached(c, log[..j]), log[j])
    ensures IsMode(c, Reached(c, log[..j]).mode) && MayFollow(c, Reached(c, log[..j]), log[j])
  {
    hide MayFollow, Onward;
    assert log[..j + 1][..j] == log[..j];
  }

  // ---------------------------------------------------------------- the state machine

  datatype Sched = KernelSched | IdleSched | DomainSched(dom: nat)

  datatype State = State(
    cursom: Option<nat>, nxtsom: Option<nat>,          // p_cursom, p_nxtsom
    pendingScyc: bool,                                 // pending_scycswitch
    runtwd: Option<nat>,                               // p_runtwd
    pendingTwd: bool,                                  // pending_twdswitch
    enable: bool, running: bool, left: int,            // twdtimer_enable, twdtimer_flag, left_twdtim
    dspflg: bool,
    twdsched: Sched, idlesched: Sched,                 // p_twdsched, p_idlesched
    evttim: int, registered: nat,                      // scyc_tmevtb, and how often it is in the kernel's heap
    log: seq<Event>)

  function Noted(s: State, e: Event): State { s.(log := s.log + [e]) }

  /** initialize_domain with time partitioning. */
  function Initial(inisom: Option<nat>): State {
    State(None, inisom, false, None, false, false, false, 0, true, KernelSched, KernelSched, 0, if inisom.Some? then 1 else 0, [])
  }

  /** twd_start from `p_runtwd == w`. */
  function WindowStarted(c: Tables, s: State, w: nat): State {
    if s.cursom.Some? && s.cursom.value + 1 < |c.modes| && w < First(c, s.cursom.value + 1) && w < |c.windows| then
      Noted(s.(runtwd := Some(w), twdsched := DomainSched(c.windows[w].dom), idlesched := IdleSched,
               enable := true, left := c.windows[w].twdlen, running := true), Event.Start(w))
    else
      Noted(s.(runtwd := None, twdsched := IdleSched, idlesched := IdleSched, enable := false), Idle)
  }

  /** twdtimer_stop, the timer showing `rest`. */
  function TimerStopped(s: State, rest: int): State {
    if s.running then s.(running := false, left := rest) else s
  }

  /** The window still running when a cycle ends. */
  function CutOff(s: State, rest: int): State {
    if s.runtwd.None? then s else Noted(TimerStopped(s, rest).(pendingTwd := false), Overrun(s.runtwd.value))
  }

  /** scyc_start; `rest` is what the timer shows if a window is cut off. */
  function CycleStarted(c: Tables, s: State, rest: int): State { CycleBegun(c, CutOff(s, rest)) }

  function CycleBegun(c: Tables, t: State): State {
    var u := Noted(t.(cursom := t.nxtsom), Cycle(t.nxtsom, t.evttim));
    if u.cursom.None? then
      u.(twdsched := KernelSched, idlesched := KernelSched, runtwd := None, enable := false)
    else if u.cursom.value < |c.modes| then
      WindowStarted(c, u.(evttim := u.evttim + c.cyctim, registered := u.registered + 1, nxtsom := c.modes[u.cursom.value].next), First(c, u.cursom.value))
    else u
  }

  datatype Call =
    | CycleEvent(rest: int)                             // the cycle event is due: scyc_switch
    | TimerInterrupt(rest: int)                         // the window timer, stopped at `rest`: twd_switch
    | StopTimer(rest: int) | StartTimer                 // twdtimer_control
    | Disable                                           // dis_dsp, chg_ipm
    | Enable(rest: int)                                 // ena_dsp, chg_ipm, ext_tsk: set_dspflg
    | ChgSom(som: Option<nat>, now: int, rest: int)     // chg_som

  /** The cycle event comes only if it is registered; the timer counts down to 0. */
  predicate Possible(c: Tables, s: State, call: Call) {
    match call
    case CycleEvent(rest) => s.registered > 0 && (s.running ==> 0 <= rest <= s.left)
    case TimerInterrupt(rest) => s.running ==> 0 <= rest <= s.left
    case StopTimer(rest) => s.running ==> 0 <= rest <= s.left
    case Enable(rest) => s.running ==> 0 <= rest <= s.left
    case ChgSom(som, now, rest) => IsMode(c, som)
    case _ => true
  }

  /** chg_som to a mode before the boot-time cycle event has come. */
  predicate TooEarly(s: State, call: Call) {
    call.ChgSom? && call.som.Some? && s.cursom.None? && s.registered > 0
  }

  function WindowSwitched(c: Tables, s: State): State {
    if s.enable && s.left == 0 && s.runtwd.Some? then
      if s.dspflg then WindowStarted(c, s, s.runtwd.value + 1) else s.(pendingTwd := true, enable := false)
    else s
  }

  function DispatchEnabled(c: Tables, s: State, rest: int): State {
    var t :=
      if s.pendingScyc then CycleStarted(c, s.(dspflg := false), rest).(pendingScyc := false, pendingTwd := false)
      else if s.pendingTwd && s.runtwd.Some? then WindowStarted(c, s.(dspflg := false), s.runtwd.value + 1).(pendingTwd := false)
      else s;
    t.(dspflg := true)
  }

  function ChgSomStep(c: Tables, s: State, som: Option<nat>, now: int, rest: int): State {
    var t := s.(nxtsom := som);
    if s.cursom.None? && som.Some? then
      var u := t.(evttim := now);
      if s.dspflg then CycleStarted(c, u.(dspflg := false), rest).(dspflg := true) else u.(pendingScyc := true)
    else t
  }

  function Step(c: Tables, s: State, call: Call): State {
    match call
    case CycleEvent(rest) =>
      var t := s.(registered := if s.registered > 0 then s.registered - 1 else 0);
      if s.dspflg then CycleStarted(c, t, rest) else t.(pendingScyc := true)
    case TimerInterrupt(rest) => WindowSwitched(c, TimerStopped(s, rest))
    case StopTimer(rest) => TimerStopped(s, rest)
    case StartTimer => if s.enable then s.(running := true) else s
    case Disable => s.(dspflg := false)
    case Enable(rest) => DispatchEnabled(c, s, rest)
    case ChgSom(som, now, rest) => ChgSomStep(c, s, som, now, rest)
  }

  // ---------------------------------------------------------------- invariants

  ghost predicate Switching(s: State) {
    && (s.pendingTwd <==> s.runtwd.Some? && !s.enable)
    && (s.pendingScyc || s.pendingTwd ==> !s.dspflg)
    && (s.enable ==> s.runtwd.Some?) && (s.running ==> s.enable)
  }

  /** The current mode and window determine which tasks may run. */
  ghost predicate Placed(c: Tables, s: State) {
    && IsMode(c, s.cursom) && IsMode(c, s.nxtsom)
    && match s.runtwd
       case Some(w) =>
         && s.cursom.Some? && First(c, s.cursom.value) <= w < First(c, s.cursom.value + 1) && w < |c.windows|
         && s.twdsched == DomainSched(c.windows[w].dom) && s.idlesched == IdleSched
         && 0 <= s.left <= c.windows[w].twdlen
       case None => s.twdsched == s.idlesched == if s.cursom.Some? then IdleSched else KernelSched
  }

  /** The cycle event is registered while a mode is active and no cycle switch is put off; before the
      boot-time event also with no mode. */
  ghost predicate EventOk(s: State) {
    && (s.cursom.Some? ==> s.registered == if s.pendingScyc then 0 else 1)
    && (s.cursom.None? ==> s.registered <= 1 && (s.registered == 1 ==> !s.pendingScyc && s.log == []))
  }

  /** What happened so far was in order and led here. */
  ghost predicate Recorded(c: Tables, s: State) {
    && InOrder(c, s.log)
    && var p := Reached(c, s.log);
       && p.mode == s.cursom
       && (s.cursom.Some? ==> s.evttim == p.at + c.cyctim)
       && (s.runtwd.Some? ==> !p.idle && p.next == s.runtwd.value + 1)
  }

  ghost predicate Inv(c: Tables, s: State) {
    Switching(s) && Placed(c, s) && EventOk(s) && Recorded(c, s)
  }

  /** Between windows: the next one to start is `w`. */
  ghost predicate Between(c: Tables, s: State, w: nat) {
    && IsMode(c, s.cursom) && IsMode(c, s.nxtsom) && s.cursom.Some? && !s.running
    && First(c, s.cursom.value) <= w <= First(c, s.cursom.value + 1)
    && InOrder(c, s.log) && Reached(c, s.log) == Progress(s.cursom, s.evttim - c.cyctim, w, false)
  }

  lemma WindowStartedOk(c: Tables, s: State, w: nat)
    requires TablesOk(c) && Between(c, s, w)
    ensures var r := WindowStarted(c, s, w);
            && Placed(c, r) && Recorded(c, r) && r.cursom == s.cursom && r.log != []
            && (r.enable <==> r.runtwd.Some?) && (r.running ==> r.enable)
            && r == s.(runtwd := r.runtwd, enable := r.enable, running := r.running, left := r.left,
                       twdsched := r.twdsched, idlesched := r.idlesched, log := r.log)
  {
    hide InOrder, Reached;
    if w < First(c, s.cursom.value + 1) {
      InOrderMore(c, s.log, Event.Start(w));
    } else {
      InOrderMore(c, s.log, Idle);
    }
  }

  /** Cutting off the running window leaves the cycle ready for its end. */
  lemma CutOffOk(c: Tables, s: State, rest: int)
    requires TablesOk(c) && Switching(s) && Placed(c, s) && Recorded(c, s)
    ensures var t := CutOff(s, rest);
            && !t.running && !t.pendingTwd && InOrder(c, t.log)
            && Reached(c, t.log).mode == s.cursom && Reached(c, t.log).at == Reached(c, s.log).at
            && t == s.(running := t.running, left := t.left, pendingTwd := t.pendingTwd, log := t.log)
  {
    hide InOrder, Reached;
    if s.runtwd.Some? { InOrderMore(c, s.log, Overrun(s.runtwd.value)); }
  }

  /** A cycle starts, or the cycles stop: any window still running is cut off first. */
  lemma CycleStartedOk(c: Tables, s: State, rest: int)
    requires TablesOk(c) && Switching(s) && Placed(c, s) && Recorded(c, s)
    ensures var r := CycleStarted(c, s, rest);
            && Placed(c, r) && Recorded(c, r) && r.log != []
            && (r.enable <==> r.runtwd.Some?) && (r.running ==> r.enable) && !r.pendingTwd
            && r.cursom == s.nxtsom && r.registered == s.registered + (if r.cursom.Some? then 1 else 0)
            && r.pendingScyc == s.pendingScyc && r.dspflg == s.dspflg
  {
    hide InOrder, Reached, WindowStarted;
    CutOffOk(c, s, rest);
    var t := CutOff(s, rest);
    InOrderMore(c, t.log, Cycle(s.nxtsom, s.evttim));
    var u := Noted(t.(cursom := s.nxtsom), Cycle(s.nxtsom, s.evttim));
    if u.cursom.Some? {
      var v := u.(evttim := u.evttim + c.cyctim, registered := u.registered + 1, nxtsom := c.modes[u.cursom.value].next);
      WindowStartedOk(c, v, First(c, u.cursom.value));
    }
  }

  lemma TimerInterruptOk(c: Tables, s: State, rest: int)
    requires TablesOk(c) && Inv(c, s) && Possible(c, s, TimerInterrupt(rest))
    ensures Inv(c, Step(c, s, TimerInterrupt(rest)))
  {
    hide InOrder, Reached, MayFollow, WindowStarted;
    var t := TimerStopped(s, rest);
    if t.enable && t.left == 0 && t.dspflg {
      WindowStartedOk(c, t, t.runtwd.value + 1);
    }
  }

  lemma EnableOk(c: Tables, s: State, rest: int)
    requires TablesOk(c) && Inv(c, s) && Possible(c, s, Enable(rest))
    ensures Inv(c, Step(c, s, Enable(rest)))
  {
    hide InOrder, Reached, MayFollow, WindowStarted, CycleStarted;
    if s.pendingScyc {
      CycleStartedOk(c, s.(dspflg := false), rest);
    } else if s.pendingTwd {
      WindowStartedOk(c, s.(dspflg := false), s.runtwd.value + 1);
    }
  }

  lemma ChgSomOk(c: Tables, s: State, som: Option<nat>, now: int, rest: int)
    requires TablesOk(c) && Inv(c, s) && Possible(c, s, ChgSom(som, now, rest))
    ensures Inv(c, ChgSomStep(c, s, som, now, rest)) <==> !TooEarly(s, ChgSom(som, now, rest))
  {
    hide InOrder, Reached, MayFollow, WindowStarted, CycleStarted;
    if s.cursom.None? && som.Some? && s.dspflg {
      CycleStartedOk(c, s.(nxtsom := som, evttim := now, dspflg := false), rest);
    }
  }

  /** Every call keeps the invariant, except, and exactly, a change of mode that comes too early. */
  lemma StepOk(c: Tables, s: State, call: Call)
    requires TablesOk(c) && Inv(c, s) && Possible(c, s, call)
    ensures Inv(c, Step(c, s, call)) <==> !TooEarly(s, call)
  {
    hide InOrder, Reached, MayFollow, WindowStarted, CycleStarted, DispatchEnabled, ChgSomStep;
    match call
    case CycleEvent(rest) =>
      if s.dspflg { CycleStartedOk(c, s.(registered := 0), rest); }
    case TimerInterrupt(rest) => TimerInterruptOk(c, s, rest);
    case Enable(rest) => EnableOk(c, s, rest);
    case ChgSom(som, now, rest) => ChgSomOk(c, s, som, now, rest);
    case _ =>
  }

  ghost predicate IsRun(c: Tables, ss: seq<State>, calls: seq<Call>) {
    && TablesOk(c) && |ss| == |calls| + 1
    && (exists inisom: Option<nat> :: IsMode(c, inisom) && ss[0] == Initial(inisom))
    && forall i {:trigger calls[i]} :: 0 <= i < |calls| ==> Possible(c, ss[i], calls[i]) && ss[i + 1] == Step(c, ss[i], calls[i])
  }

  /** None of the first `n` calls changes the mode too early. */
  ghost predicate NoneTooEarly(ss: seq<State>, calls: seq<Call>, n: nat)
    requires n < |ss| == |calls| + 1
  {
    forall m {:trigger calls[m]} :: 0 <= m < n ==> !TooEarly(ss[m], calls[m])
  }

  lemma {:induction false} RunOk(c: Tables, ss: seq<State>, calls: seq<Call>, n: nat)
    requires IsRun(c, ss, calls) && n < |ss| && NoneTooEarly(ss, calls, n)
    ensures Inv(c, ss[n])
  {
    if n > 0 {
      RunOk(c, ss, calls, n - 1);
      assert Possible(c, ss[n - 1], calls[n - 1]);
      StepOk(c, ss[n - 1], calls[n - 1]);
    }
  }

  lemma {:induction false} FirstTooEarly(ss: seq<State>, calls: seq<Call>, n: nat) returns (m: nat)
    requires n < |ss| == |calls| + 1 && !NoneTooEarly(ss, calls, n)
    ensures m < n && NoneTooEarly(ss, calls, m) && TooEarly(ss[m], calls[m])
  {
    if NoneTooEarly(ss, calls, n - 1) {
      m := n - 1;
    } else {
      m := FirstTooEarly(ss, calls, n - 1);
    }
  }

  /** In every run the pending flags, the windows and the cycle event are consistent, and cycles and
      windows have started in order, exactly as long as no change of mode comes too early. */
  lemma PartitionRun(c: Tables, ss: seq<State>, calls: seq<Call>, n: nat)
    requires IsRun(c, ss, calls) && n < |ss|
    ensures (forall m :: 0 <= m <= n ==> Inv(c, ss[m])) <==> NoneTooEarly(ss, calls, n)
  {
    hide Inv, Step;
    if NoneTooEarly(ss, calls, n) {
      forall m | 0 <= m <= n ensures Inv(c, ss[m]) { RunOk(c, ss, calls, m); }
    } else {
      var m := FirstTooEarly(ss, calls, n);
      RunOk(c, ss, calls, m);
      assert Possible(c, ss[m], calls[m]);
      StepOk(c, ss[m], calls[m]);
      assert ss[m + 1] == Step(c, ss[m], calls[m]);
    }
  }

  /** A change of mode right after start-up: the cycle event is in the heap twice, or registered with a
      cycle switch pending. */
  lemma EarlyChange(c: Tables, m: nat, m2: nat, now: int, rest: int)
    requires TablesOk(c) && IsMode(c, Some(m)) && IsMode(c, Some(m2))
    ensures var s := Initial(Some(m));
            && Inv(c, s) && Step(c, s, ChgSom(Some(m2), now, rest)).registered == 2
            && var t := Step(c, Step(c, s, Disable), ChgSom(Some(m2), now, rest)); t.registered == 1 && t.pendingScyc
  {
  }

  lemma CutOffKeeps(s: State, rest: int)
    ensures var t := CutOff(s, rest); t == s.(running := t.running, left := t.left, pendingTwd := t.pendingTwd, log := t.log)
  {
  }

  lemma WindowStartedAnyway(c: Tables, s: State, runtwd: Option<nat>, w: nat)
    ensures WindowStarted(c, s.(runtwd := runtwd), w) == WindowStarted(c, s, w)
  {
  }

  // ---------------------------------------------------------------- the module itself

  class TimePartitioning {
    const c: Tables
    var cursom: Option<nat>
    var nxtsom: Option<nat>
    var pendingScycswitch: bool
    var runtwd: Option<nat>
    var pendingTwdswitch: bool
    var twdtimerEnable: bool
    var twdtimerFlag: bool
    var leftTwdtim: int
    var dspflg: bool
    var twdsched: Sched
    var idlesched: Sched
    var scycEvttim: int
    ghost var registered: nat       // how often the cycle event is in the kernel's heap
    ghost var log: seq<Event>

    ghost function Abs(): State
      reads this
    {
      State(cursom, nxtsom, pendingScycswitch, runtwd, pendingTwdswitch, twdtimerEnable, twdtimerFlag, leftTwdtim, dspflg,
            twdsched, idlesched, scycEvttim, registered, log)
    }

    ghost predicate Valid()
      reads this
    {
      TablesOk(c) && Inv(c, Abs())
    }

    /** initialize_domain. */
    constructor (c: Tables, inisom: Option<nat>)
      requires TablesOk(c) && IsMode(c, inisom)
      ensures Valid() && this.c == c && Abs() == Initial(inisom)
    {
      this.c := c;
      cursom, nxtsom, runtwd := None, inisom, None;
      pendingScycswitch, pendingTwdswitch, twdtimerEnable, twdtimerFlag, leftTwdtim, dspflg := false, false, false, false, 0, true;
      twdsched, idlesched, scycEvttim, registered, log := KernelSched, KernelSched, 0, if inisom.Some? then 1 else 0, [];
    }

    method TwdtimerStart()
      modifies `twdtimerFlag
      ensures Abs() == old(Abs()).(running := true)
    {
      if !twdtimerFlag {
        twdtimerFlag := true;
      }
    }

    /** twdtimer_stop, the timer showing `rest`. */
    method TwdtimerStop(rest: int)
      modifies `twdtimerFlag, `leftTwdtim
      ensures Abs() == TimerStopped(old(Abs()), rest)
    {
      if twdtimerFlag {
        leftTwdtim := rest;
        twdtimerFlag := false;
      }
    }

    method OpenWindow()
      requires runtwd.Some? && runtwd.value < |c.windows|
      modifies this
      ensures var s, w := old(Abs()), old(runtwd.value);
              Abs() == Noted(s.(twdsched := DomainSched(c.windows[w].dom), idlesched := IdleSched, enable := true,
                                left := c.windows[w].twdlen, running := true), Event.Start(w))
    {
      var window := c.windows[runtwd.value];
      log := log + [Event.Start(runtwd.value)];
      twdsched, idlesched := DomainSched(window.dom), IdleSched;
      twdtimerEnable := true;
      leftTwdtim := window.twdlen;
      TwdtimerStart();
    }

    /** twd_start. */
    method TwdStart()
      requires TablesOk(c) && runtwd.Some? && cursom.Some? && cursom.value + 1 < |c.modes|
      modifies this
      ensures Abs() == WindowStarted(c, old(Abs()), old(runtwd.value))
    {
      if runtwd.value < c.modes[cursom.value + 1].first {
        assert First(c, cursom.value + 1) <= |c.windows|;
        OpenWindow();
      } else {
        log := log + [Idle];
        runtwd := None;
        twdsched, idlesched := IdleSched, IdleSched;
        twdtimerEnable := false;
      }
    }

    /** The window after the current one. */
    method NextWindow()
      requires TablesOk(c) && runtwd.Some? && cursom.Some? && cursom.value + 1 < |c.modes|
      modifies this
      ensures Abs() == WindowStarted(c, old(Abs()), old(runtwd.value) + 1)
    {
      hide WindowStarted, TablesOk;
      WindowStartedAnyway(c, Abs(), Some(runtwd.value + 1), runtwd.value + 1);
      runtwd := Some(runtwd.value + 1);
      TwdStart();
    }

    /** The system cycle overrun at the beginning of scyc_start. */
    method EndWindow(rest: int)
      modifies `twdtimerFlag, `leftTwdtim, `pendingTwdswitch, `log
      ensures Abs() == CutOff(old(Abs()), rest)
    {
      if runtwd != None {
        TwdtimerStop(rest);
        pendingTwdswitch := false;
        log := log + [Overrun(runtwd.value)];
      }
    }

    /** The start of a cycle in a mode, at the end of scyc_start. */
    method FirstWindow()
      requires TablesOk(c) && cursom.Some? && cursom.value + 1 < |c.modes|
      modifies this
      ensures var s := old(Abs());
              Abs() == WindowStarted(c, s.(evttim := s.evttim + c.cyctim, registered := s.registered + 1, nxtsom := c.modes[s.cursom.value].next),
                                     First(c, s.cursom.value))
    {
      hide WindowStarted;
      scycEvttim := scycEvttim + c.cyctim;
      registered := registered + 1;
      nxtsom := c.modes[cursom.value].next;
      WindowStartedAnyway(c, Abs(), Some(First(c, cursom.value)), First(c, cursom.value));
      runtwd := Some(c.modes[cursom.value].first);
      TwdStart();
    }

    /** scyc_start. */
    method ScycStart(rest: int)
      requires TablesOk(c) && (nxtsom.Some? ==> nxtsom.value + 1 < |c.modes|)
      modifies this
      ensures Abs() == CycleStarted(c, old(Abs()), rest)
    {
      hide CutOff, CycleBegun, IsMode, TablesOk;
      EndWindow(rest);
      CutOffKeeps(old(Abs()), rest);
      BeginCycle();
    }

    method StopCycles()
      modifies `twdsched, `idlesched, `runtwd, `twdtimerEnable
      ensures Abs() == old(Abs()).(twdsched := KernelSched, idlesched := KernelSched, runtwd := None, enable := false)
    {
      twdsched, idlesched := KernelSched, KernelSched;
      runtwd := None;
      twdtimerEnable := false;
    }

    method BeginCycle()
      requires TablesOk(c) && (nxtsom.Some? ==> nxtsom.value + 1 < |c.modes|)
      modifies this
      ensures Abs() == CycleBegun(c, old(Abs()))
    {
      hide WindowStarted, IsMode, TablesOk;
      cursom := nxtsom;
      log := log + [Cycle(cursom, scycEvttim)];
      if cursom == None {
        StopCycles();
      } else {
        FirstWindow();
      }
    }

    /** The callback of the cycle event: scyc_switch. */
    method ScycSwitch(rest: int)
      requires Valid() && Possible(c, Abs(), CycleEvent(rest))
      modifies this
      ensures Valid() && Abs() == Step(c, old(Abs()), CycleEvent(rest))
    {
      hide InOrder, Reached, MayFollow, WindowStarted, CycleStarted, Recorded;
      StepOk(c, Abs(), CycleEvent(rest));
      registered := registered - 1;
      if dspflg {
        ScycStart(rest);
      } else {
        pendingScycswitch := true;
      }
    }

    /** The window timer's interrupt, which stops the timer, up to and including twd_switch. */
    method TwdSwitch(rest: int)
      requires Valid() && Possible(c, Abs(), TimerInterrupt(rest))
      modifies this
      ensures Valid() && Abs() == Step(c, old(Abs()), TimerInterrupt(rest))
    {
      hide InOrder, Reached, MayFollow, WindowStarted, Recorded;
      StepOk(c, Abs(), TimerInterrupt(rest));
      TwdtimerStop(rest);
      if twdtimerEnable && leftTwdtim == 0 {
        if dspflg {
          NextWindow();
        } else {
          pendingTwdswitch := true;
          twdtimerEnable := false;
        }
      }
    }

    /** set_dspflg: whatever was put off is done now. */
    method SetDspflg(rest: int)
      requires Valid() && Possible(c, Abs(), Enable(rest))
      modifies this
      ensures Valid() && Abs() == Step(c, old(Abs()), Enable(rest))
      ensures dspflg && !pendingScycswitch && !pendingTwdswitch
    {
      hide InOrder, Reached, MayFollow, WindowStarted, CycleStarted, Recorded, TablesOk, First;
      StepOk(c, Abs(), Enable(rest));
      dspflg := false;
      if pendingScycswitch {
        ScycStart(rest);
        pendingScycswitch := false;
        pendingTwdswitch := false;
      } else if pendingTwdswitch {
        NextWindow();
        pendingTwdswitch := false;
      }
      dspflg := true;
    }

    /** chg_som, with the clock at `now`. */
    method ChgSom(som: Option<nat>, now: int, rest: int)
      requires Valid() && Possible(c, Abs(), Call.ChgSom(som, now, rest))
      modifies this
      ensures Abs() == Step(c, old(Abs()), Call.ChgSom(som, now, rest))
      ensures Valid() <==> !TooEarly(old(Abs()), Call.ChgSom(som, now, rest))
    {
      hide InOrder, Reached, MayFollow, WindowStarted, CycleStarted, Recorded, EventOk, Placed;
      StepOk(c, Abs(), Call.ChgSom(som, now, rest));
      nxtsom := som;
      if cursom == None && som != None {
        scycEvttim := now;
        if dspflg {
          dspflg := false;
          ScycStart(rest);
          dspflg := true;
        } else {
          pendingScycswitch := true;
        }
      }
    }
  }
}
