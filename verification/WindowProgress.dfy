/**
 What time partitioning brings about: every window ends when its time is used up, no sooner, every cycle
 event starts a cycle, and each cycle runs in the mode asked for last.
 */
module WindowProgress {
  import opened Base
  import opened TimePartition

  /** The window's time is used up: the timer stopped at nothing, or had been stopped there before. */
  predicate Expires(s: State, call: Call) {
    call.TimerInterrupt? && s.enable && (if s.running then call.rest == 0 else s.left == 0)
  }

  /** What comes when window `w` is over. */
  function NextEvent(c: Tables, s: State, w: nat): Event
    requires s.cursom.Some? && s.cursom.value + 1 < |c.modes|
  {
    if w + 1 < First(c, s.cursom.value + 1) then Event.Start(w + 1) else Idle
  }

  /** The window after the current one starts, with its whole length on the running timer, or the idle
      window. */
  ghost predicate WindowBegins(c: Tables, s: State, r: State, e: Event) {
    && s.runtwd.Some? && r.log == s.log + [e] && r.cursom == s.cursom && r.nxtsom == s.nxtsom && r.evttim == s.evttim
    && (r.runtwd == if e.Start? then Some(s.runtwd.value + 1) else None)
    && (e.Start? ==> s.runtwd.value + 1 < |c.windows| && r.left == c.windows[s.runtwd.value + 1].twdlen && r.enable && r.running)
    && (e.Idle? ==> !r.enable && !r.running)
  }

  lemma InWindow(c: Tables, s: State)
    requires TablesOk(c) && Inv(c, s) && s.runtwd.Some?
    ensures s.cursom.Some? && s.cursom.value + 1 < |c.modes| && First(c, s.cursom.value + 1) <= |c.windows|
    ensures First(c, s.cursom.value) <= s.runtwd.value < First(c, s.cursom.value + 1)
  {
    hide InOrder, Reached;
  }

  /** With dispatching enabled the next window, or the idle window, starts when the time is used up; it gets
      its whole length and the timer runs. */
  lemma WindowEnds(c: Tables, s: State, call: Call)
    requires TablesOk(c) && Inv(c, s) && Possible(c, s, call) && Expires(s, call) && s.dspflg
    ensures s.runtwd.Some? && s.cursom.Some? && s.cursom.value + 1 < |c.modes|
    ensures WindowBegins(c, s, Step(c, s, call), NextEvent(c, s, s.runtwd.value))
  {
    hide InOrder, Reached;
    InWindow(c, s);
  }

  /** With dispatching disabled the switch is put off, and nothing starts. */
  lemma WindowPutOff(c: Tables, s: State, call: Call)
    requires TablesOk(c) && Inv(c, s) && Possible(c, s, call) && Expires(s, call) && !s.dspflg
    ensures var r := Step(c, s, call);
            && s.runtwd.Some? && r.pendingTwd && r == s.(pendingTwd := true, enable := false, running := false, left := 0)
  {
    hide InOrder, Reached;
  }

  /** An interrupt that comes while time is left changes neither window nor log. */
  lemma TooSoon(c: Tables, s: State, call: Call)
    requires TablesOk(c) && Inv(c, s) && Possible(c, s, call) && call.TimerInterrupt? && !Expires(s, call)
    ensures var r := Step(c, s, call); r == s.(running := false, left := if s.running then call.rest else s.left)
  {
    hide InOrder, Reached;
  }

  /** What was put off comes when dispatching is enabled: a cycle if one is due, or else the window after
      the one that is over. */
  lemma ComesLater(c: Tables, s: State, rest: int)
    requires TablesOk(c) && Inv(c, s) && Possible(c, s, Enable(rest))
    ensures var r := Step(c, s, Enable(rest));
            && r.dspflg && !r.pendingScyc && !r.pendingTwd
            && (s.pendingTwd && !s.pendingScyc ==>
                  && s.runtwd.Some? && s.cursom.Some? && s.cursom.value + 1 < |c.modes|
                  && WindowBegins(c, s, r, NextEvent(c, s, s.runtwd.value)))
            && (s.pendingScyc ==> CycleBegins(c, s, r))
            && (!s.pendingTwd && !s.pendingScyc ==> r == s.(dspflg := true))
  {
    hide InOrder, Reached, CycleStarted;
    if s.runtwd.Some? { InWindow(c, s); }
    if s.pendingScyc { Begins(c, s.(dspflg := false), rest); }
  }

  /** A cycle starts in the mode that was to come next, after the window still running, if any, was cut
      off; if the cycles do not stop, its first window, or the idle window, starts at once. */
  ghost predicate CycleBegins(c: Tables, s: State, r: State) {
    var cut := if s.runtwd.Some? then [Overrun(s.runtwd.value)] else [];
    && IsMode(c, s.nxtsom) && r.cursom == s.nxtsom
    && if s.nxtsom.None? then
         r.log == s.log + cut + [Cycle(None, s.evttim)] && r.runtwd.None? && r.nxtsom.None? && r.evttim == s.evttim
       else
         var m := s.nxtsom.value;
         && m + 1 < |c.modes| && r.nxtsom == c.modes[m].next && r.evttim == s.evttim + c.cyctim
         && (if First(c, m) < First(c, m + 1) then
               && First(c, m) < |c.windows| && r.log == s.log + cut + [Cycle(Some(m), s.evttim), Event.Start(First(c, m))]
               && r.runtwd == Some(First(c, m)) && r.left == c.windows[First(c, m)].twdlen && r.enable && r.running
             else r.log == s.log + cut + [Cycle(Some(m), s.evttim), Idle] && r.runtwd.None? && !r.enable)
  }

  lemma Begins(c: Tables, s: State, rest: int)
    requires TablesOk(c) && IsMode(c, s.nxtsom)
    ensures CycleBegins(c, s, CycleStarted(c, s, rest))
  {
    hide TablesOk;
    Cut(s, rest);
    var t := CutOff(s, rest);
    var u := Noted(t.(cursom := s.nxtsom), Cycle(s.nxtsom, s.evttim));
    if s.nxtsom.Some? {
      var m := s.nxtsom.value;
      Slice(c, m);
      var v := u.(evttim := u.evttim + c.cyctim, registered := u.registered + 1, nxtsom := c.modes[m].next);
      FirstBegins(c, v, First(c, m));
    }
  }

  lemma Slice(c: Tables, m: nat)
    requires TablesOk(c) && m + 1 < |c.modes|
    ensures First(c, m) <= First(c, m + 1) <= |c.windows|
  {
  }

  lemma Cut(s: State, rest: int)
    ensures var t := CutOff(s, rest);
            && t.log == s.log + (if s.runtwd.Some? then [Overrun(s.runtwd.value)] else [])
            && t.nxtsom == s.nxtsom && t.evttim == s.evttim && t.dspflg == s.dspflg
  {
  }

  lemma FirstBegins(c: Tables, s: State, w: nat)
    requires s.cursom.Some? && s.cursom.value + 1 < |c.modes| && First(c, s.cursom.value + 1) <= |c.windows|
    ensures var r := WindowStarted(c, s, w);
            && r.cursom == s.cursom && r.nxtsom == s.nxtsom && r.evttim == s.evttim
            && if w < First(c, s.cursom.value + 1) then
                 r.log == s.log + [Event.Start(w)] && r.runtwd == Some(w) && r.left == c.windows[w].twdlen && r.enable && r.running
               else r.log == s.log + [Idle] && r.runtwd.None? && !r.enable
  {
  }

  /** The cycle event starts a cycle, or makes one pending. */
  lemma CycleComes(c: Tables, s: State, rest: int)
    requires TablesOk(c) && Inv(c, s) && Possible(c, s, CycleEvent(rest))
    ensures var r := Step(c, s, CycleEvent(rest));
            if s.dspflg then CycleBegins(c, s, r) else r == s.(pendingScyc := true, registered := s.registered - 1)
  {
    hide InOrder, Reached, CycleStarted;
    Begins(c, s.(registered := s.registered - 1), rest);
  }

  /** chg_som says which mode comes next; from no mode the first cycle starts at once or becomes pending. */
  lemma ChangeAsked(c: Tables, s: State, som: Option<nat>, now: int, rest: int)
    requires TablesOk(c) && Inv(c, s) && Possible(c, s, ChgSom(som, now, rest))
    ensures var r := Step(c, s, ChgSom(som, now, rest));
            if s.cursom.Some? || som.None? then r == s.(nxtsom := som)
            else if s.dspflg then CycleBegins(c, s.(nxtsom := som, evttim := now), r) && r.dspflg
            else r == s.(nxtsom := som, evttim := now, pendingScyc := true)
  {
    hide InOrder, Reached, CycleStarted;
    if s.cursom.None? && som.Some? && s.dspflg { Begins(c, s.(nxtsom := som, evttim := now, dspflg := false), rest); }
  }

  /** Stopping the timer keeps what is left; it starts again while a window is open. */
  lemma TimerControl(c: Tables, s: State, rest: int)
    ensures Step(c, s, StopTimer(rest)) == s.(running := false, left := if s.running then rest else s.left)
    ensures Step(c, s, StartTimer) == s.(running := s.running || s.enable)
    ensures Step(c, s, Disable) == s.(dspflg := false)
  {
  }

  // ---------------------------------------------------------------- how many windows are over

  /** The windows of the current cycle that are over. */
  function Over(c: Tables, s: State): int
    requires s.cursom.Some? && s.cursom.value + 1 < |c.modes|
  {
    var m := s.cursom.value;
    if s.runtwd.Some? then s.runtwd.value - First(c, m) + (if s.enable then 0 else 1) else First(c, m + 1) - First(c, m)
  }

  /** No cycle starts in the step. */
  ghost predicate SameCycle1(s: State, r: State) {
    |s.log| <= |r.log| && forall i :: |s.log| <= i < |r.log| ==> !r.log[i].Cycle?
  }

  lemma HasMode(c: Tables, s: State)
    requires TablesOk(c) && Inv(c, s) && s.cursom.Some?
    ensures s.cursom.value + 1 < |c.modes|
  {
    hide InOrder, Reached;
  }

  /** Within a cycle just the expiry of a window's time adds one to the windows that are over. */
  lemma OverStep(c: Tables, s: State, call: Call)
    requires TablesOk(c) && Inv(c, s) && Possible(c, s, call) && s.cursom.Some? && s.cursom.value + 1 < |c.modes|
    requires SameCycle1(s, Step(c, s, call))
    ensures var r := Step(c, s, call); r.cursom == s.cursom && Over(c, r) == Over(c, s) + if Expires(s, call) then 1 else 0
  {
    hide InOrder, Reached, CycleStarted, WindowStarted, SameCycle1, Recorded;
    var r := Step(c, s, call);
    match call
    case CycleEvent(rest) =>
      CycleComes(c, s, rest);
      if s.dspflg { NotSame(c, s, s, r); }
    case TimerInterrupt(rest) =>
      if !Expires(s, call) {
        TooSoon(c, s, call);
      } else if s.dspflg {
        InWindow(c, s);
        WindowEnds(c, s, call);
      } else {
        WindowPutOff(c, s, call);
      }
    case Enable(rest) =>
      if s.runtwd.Some? { InWindow(c, s); }
      ComesLater(c, s, rest);
      if s.pendingScyc { NotSame(c, s, s, r); }
    case _ =>
  }

  /** If a cycle begins it is in the log. */
  lemma NotSame(c: Tables, s: State, t: State, r: State)
    requires CycleBegins(c, t, r) && t.log == s.log
    ensures !SameCycle1(s, r)
  {
    var cut := if t.runtwd.Some? then [Overrun(t.runtwd.value)] else [];
    assert r.log[|s.log| + |cut|].Cycle?;
  }

  /** No cycle starts in step `m`. */
  ghost predicate Stays(ss: seq<State>, m: nat)
    requires m + 1 < |ss|
  {
    SameCycle1(ss[m], ss[m + 1])
  }

  /** How many windows' times expire from state `i` to state `n` of a run. */
  ghost function Expired(ss: seq<State>, calls: seq<Call>, i: nat, n: nat): nat
    requires i <= n < |ss| == |calls| + 1
  {
    if i == n then 0 else Expired(ss, calls, i, n - 1) + if Expires(ss[n - 1], calls[n - 1]) then 1 else 0
  }

  /** In every run, as long as no new cycle starts, as many windows are over as have used up their time. */
  lemma {:induction false} WindowsOver(c: Tables, ss: seq<State>, calls: seq<Call>, i: nat, n: nat)
    requires IsRun(c, ss, calls) && i <= n < |ss| && NoneTooEarly(ss, calls, n) && ss[i].cursom.Some?
    requires forall m :: i <= m < n ==> Stays(ss, m)
    ensures ss[n].cursom == ss[i].cursom && ss[i].cursom.value + 1 < |c.modes|
    ensures Over(c, ss[n]) == Over(c, ss[i]) + Expired(ss, calls, i, n)
  {
    hide Inv, Step, Over, Possible, SameCycle1;
    RunOk(c, ss, calls, i);
    HasMode(c, ss[i]);
    if i < n {
      WindowsOver(c, ss, calls, i, n - 1);
      RunOk(c, ss, calls, n - 1);
      assert Possible(c, ss[n - 1], calls[n - 1]) && ss[n] == Step(c, ss[n - 1], calls[n - 1]);
      assert Stays(ss, n - 1);
      OverStep(c, ss[n - 1], calls[n - 1]);
    }
  }

  /** When a cycle begins, none of its windows is over, or there are none. */
  lemma NoneOverAtFirst(c: Tables, s: State, r: State)
    requires TablesOk(c) && CycleBegins(c, s, r) && s.nxtsom.Some?
    ensures r.cursom.Some? && r.cursom.value + 1 < |c.modes| && Over(c, r) == 0
  {
  }

  // ---------------------------------------------------------------- a window's time

  /** A window, or none, starts in the step. */
  ghost predicate NewWindow(s: State, r: State) {
    |s.log| < |r.log| && (r.log[|r.log| - 1].Start? || r.log[|r.log| - 1].Idle?)
  }

  /** How much of its time the window uses up in the step: what the timer counted until it was stopped. */
  function Used(s: State, call: Call): int {
    match call
    case TimerInterrupt(rest) => if s.running then s.left - rest else 0
    case StopTimer(rest) => if s.running then s.left - rest else 0
    case _ => 0
  }

  /** How much time the current window has used up since it started. */
  ghost function Spent(ss: seq<State>, calls: seq<Call>, n: nat): int
    requires n < |ss| == |calls| + 1
  {
    if n == 0 || NewWindow(ss[n - 1], ss[n]) then 0 else Spent(ss, calls, n - 1) + Used(ss[n - 1], calls[n - 1])
  }

  /** In a step a window starts with its whole length, or what is left of the current one goes down by what
      was used. */
  lemma TimeStep(c: Tables, s: State, call: Call)
    requires TablesOk(c) && Inv(c, s) && Possible(c, s, call)
    ensures var r := Step(c, s, call);
            r.runtwd.Some? ==>
              && r.runtwd.value < |c.windows|
              && if NewWindow(s, r) then r.left == c.windows[r.runtwd.value].twdlen
                 else s.runtwd == r.runtwd && r.left == s.left - Used(s, call)
  {
    hide InOrder, Reached, CycleStarted, WindowStarted, Recorded;
    if s.runtwd.Some? { InWindow(c, s); }
    match call
    case CycleEvent(rest) => CycleComes(c, s, rest);
    case TimerInterrupt(rest) =>
      if !Expires(s, call) {
        TooSoon(c, s, call);
      } else if s.dspflg {
        WindowEnds(c, s, call);
      } else {
        WindowPutOff(c, s, call);
      }
    case StopTimer(rest) => TimerControl(c, s, rest);
    case StartTimer => TimerControl(c, s, 0);
    case Disable => TimerControl(c, s, 0);
    case Enable(rest) => ComesLater(c, s, rest);
    case ChgSom(som, now, rest) => ChangeAsked(c, s, som, now, rest);
  }

  /** In every run what a window has used up and what is left make up its length: it ends when it has had
      all of its time, unless the cycle ends first. */
  lemma {:induction false} TimeKept(c: Tables, ss: seq<State>, calls: seq<Call>, n: nat)
    requires IsRun(c, ss, calls) && n < |ss| && NoneTooEarly(ss, calls, n) && ss[n].runtwd.Some?
    ensures ss[n].runtwd.value < |c.windows| && Spent(ss, calls, n) + ss[n].left == c.windows[ss[n].runtwd.value].twdlen
  {
    hide Inv, Step, Possible, NewWindow, Used;
    if n > 0 {
      RunOk(c, ss, calls, n - 1);
      assert Possible(c, ss[n - 1], calls[n - 1]) && ss[n] == Step(c, ss[n - 1], calls[n - 1]);
      TimeStep(c, ss[n - 1], calls[n - 1]);
      if !NewWindow(ss[n - 1], ss[n]) { TimeKept(c, ss, calls, n - 1); }
    } else {
      NoWindowFirst(c, ss, calls);
    }
  }

  lemma NoWindowFirst(c: Tables, ss: seq<State>, calls: seq<Call>)
    requires IsRun(c, ss, calls)
    ensures ss[0].runtwd.None?
  {
  }

  // ---------------------------------------------------------------- the mode of each cycle

  /** A cycle starts in the step. */
  ghost predicate NewCycle(s: State, r: State) {
    |s.log| < |r.log| && exists i :: |s.log| <= i < |r.log| && r.log[i].Cycle?
  }

  /** The mode asked for before step `n`: by the last chg_som since the last cycle started, or else by the
      table entry of that cycle's mode. */
  ghost function Asked(c: Tables, ss: seq<State>, calls: seq<Call>, n: nat): Option<nat>
    requires n < |ss| == |calls| + 1
  {
    if n == 0 then ss[0].nxtsom
    else if NewCycle(ss[n - 1], ss[n]) then
      (if ss[n].cursom.Some? && ss[n].cursom.value < |c.modes| then c.modes[ss[n].cursom.value].next else None)
    else if calls[n - 1].ChgSom? then calls[n - 1].som
    else Asked(c, ss, calls, n - 1)
  }

  lemma ModeStep(c: Tables, s: State, call: Call)
    requires TablesOk(c) && Inv(c, s) && Possible(c, s, call)
    ensures var r := Step(c, s, call);
            if NewCycle(s, r) then
              && r.cursom == (if call.ChgSom? then call.som else s.nxtsom)
              && r.nxtsom == (if r.cursom.Some? && r.cursom.value < |c.modes| then c.modes[r.cursom.value].next else None)
            else r.cursom == s.cursom && r.nxtsom == if call.ChgSom? then call.som else s.nxtsom
  {
    hide InOrder, Reached, CycleStarted, WindowStarted, Recorded;
    var r := Step(c, s, call);
    if s.runtwd.Some? { InWindow(c, s); }
    match call
    case CycleEvent(rest) =>
      CycleComes(c, s, rest);
      if s.dspflg { NotSame(c, s, s, r); }
    case TimerInterrupt(rest) =>
      if !Expires(s, call) {
        TooSoon(c, s, call);
      } else if s.dspflg {
        WindowEnds(c, s, call);
      } else {
        WindowPutOff(c, s, call);
      }
    case StopTimer(rest) => TimerControl(c, s, rest);
    case StartTimer => TimerControl(c, s, 0);
    case Disable => TimerControl(c, s, 0);
    case Enable(rest) =>
      ComesLater(c, s, rest);
      if s.pendingScyc { NotSame(c, s, s, r); }
    case ChgSom(som, now, rest) =>
      ChangeAsked(c, s, som, now, rest);
      if s.cursom.None? && som.Some? && s.dspflg { NotSame(c, s, s.(nxtsom := som, evttim := now), r); }
  }

  /** In every run a cycle that starts in step `n` is in the mode asked for. */
  lemma {:induction false} ModesAsked(c: Tables, ss: seq<State>, calls: seq<Call>, n: nat)
    requires IsRun(c, ss, calls) && n < |ss| && NoneTooEarly(ss, calls, n)
    ensures ss[n].nxtsom == Asked(c, ss, calls, n)
    ensures n > 0 && NewCycle(ss[n - 1], ss[n]) ==>
              ss[n].cursom == if calls[n - 1].ChgSom? then calls[n - 1].som else Asked(c, ss, calls, n - 1)
  {
    hide Inv, Step, Possible, NewCycle;
    if n > 0 {
      ModesAsked(c, ss, calls, n - 1);
      RunOk(c, ss, calls, n - 1);
      assert Possible(c, ss[n - 1], calls[n - 1]) && ss[n] == Step(c, ss[n - 1], calls[n - 1]);
      ModeStep(c, ss[n - 1], calls[n - 1]);
    }
  }
}
