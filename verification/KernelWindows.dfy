/**
 Time partitioning and scheduling together: the scheduling units of the kernel are those the current
 window dictates, and a task of a partitioned domain runs only in a window of its domain.
 */
module KernelWindows {
  import opened Base
  import opened KernelState
  import opened KernelInvariant
  import opened KernelCalls
  import opened KernelRuns
  import opened KernelTheorems
  import P = TimePartition

  /** The scheduling units: of the kernel domain, shared by all domains without a window, and of each
      domain with windows. */
  datatype Units = Units(idle: UnitId, dom: seq<UnitId>)

  function UnitOf(us: Units, s: P.Sched): UnitId {
    match s
    case KernelSched => KERNEL_UNIT
    case IdleSched => us.idle
    case DomainSched(d) => if d < |us.dom| then us.dom[d] else us.idle
  }

  /** What the configurator's tables guarantee. */
  ghost predicate TablesFit(us: Units, c: P.Tables, cfg: Cfg) {
    && P.TablesOk(c) && CfgOk(cfg) && us.idle < cfg.units
    && (forall d :: 0 <= d < |us.dom| ==> us.dom[d] < cfg.units)
    && (forall w :: 0 <= w < |c.windows| ==> c.windows[w].dom < |us.dom|)
  }

  // ---------------------------------------------------------------- the joint state machine

  datatype Joint = Joint(k: K, p: P.State)

  datatype Move =
    | Serve(call: Call)          // a call or timeout that has nothing to do with windows
    | Interrupt(event: P.Call)   // the cycle event, the window timer, its stopping and starting, chg_som
    | DisDsp
    | EnaDsp(rest: int)
    | ExtTsk(rest: int)

  /** Calls that neither switch windows nor enable or disable dispatching. */
  predicate Plain(call: Call) {
    !call.DisDsp? && !call.EnaDsp? && !call.ExtTsk? && !call.SwitchWindow?
  }

  /** The units of the kernel follow those of the windows. */
  function Switched(us: Units, p: P.State): Call { SwitchWindow(UnitOf(us, p.twdsched), UnitOf(us, p.idlesched)) }

  /** Where ext_tsk leaves the windows: set_dspflg is called only if dispatching is disabled. */
  function Enabled(c: P.Tables, p: P.State, rest: int): P.State { if p.dspflg then p else P.Step(c, p, P.Enable(rest)) }

  function WindowsAfter(c: P.Tables, p: P.State, m: Move): P.State {
    match m
    case Serve(call) => p
    case Interrupt(event) => P.Step(c, p, event)
    case DisDsp => P.Step(c, p, P.Disable)
    case EnaDsp(rest) => P.Step(c, p, P.Enable(rest))
    case ExtTsk(rest) => Enabled(c, p, rest)
  }

  /** The kernel's step that goes with it, given the windows afterwards; none if dispatching is disabled
      when an interrupt comes. */
  function KernelCall(us: Units, k: K, p: P.State, m: Move): Option<Call> {
    match m
    case Serve(call) => Some(call)
    case Interrupt(event) => if k.dsp then Some(Switched(us, p)) else None
    case DisDsp => Some(Call.DisDsp)
    case EnaDsp(rest) => Some(Call.EnaDsp(UnitOf(us, p.twdsched), UnitOf(us, p.idlesched)))
    case ExtTsk(rest) => Some(Call.ExtTsk(UnitOf(us, p.twdsched), UnitOf(us, p.idlesched)))
  }

  /** The event is possible for the windows and the call for the kernel. */
  ghost predicate Allowed(us: Units, c: P.Tables, j: Joint, m: Move) {
    && Shape(j.k) && WindowsAllow(c, j, m)
    && var call := KernelCall(us, j.k, WindowsAfter(c, j.p, m), m); call.Some? ==> Callable(j.k, call.value)
  }

  predicate WindowsAllow(c: P.Tables, j: Joint, m: Move) {
    match m
    case Serve(call) => Plain(call)
    case Interrupt(event) => P.Possible(c, j.p, event) && !event.Disable? && !event.Enable?
    case DisDsp => j.k.run.Some?
    case EnaDsp(rest) => j.k.run.Some? && P.Possible(c, j.p, P.Enable(rest))
    case ExtTsk(rest) => j.k.run.Some? && P.Possible(c, j.p, P.Enable(rest))
  }

  lemma UnitInRange(us: Units, c: P.Tables, cfg: Cfg, s: P.Sched)
    requires TablesFit(us, c, cfg)
    ensures UnitOf(us, s) < cfg.units
  {
  }

  /** What the windows allow the kernel never refuses. */
  lemma NeverRefused(us: Units, c: P.Tables, j: Joint, m: Move)
    requires TablesFit(us, c, j.k.cfg) && Settled(j.k) && WindowsAllow(c, j, m) && !m.Serve?
    ensures Allowed(us, c, j, m)
  {
    hide Settled, P.Step, TablesFit, Shape;
    SettledShape(j.k);
    var p := WindowsAfter(c, j.p, m);
    UnitInRange(us, c, j.k.cfg, p.twdsched);
    UnitInRange(us, c, j.k.cfg, p.idlesched);
  }

  function MoveStep(us: Units, c: P.Tables, j: Joint, m: Move): Joint
    requires Allowed(us, c, j, m)
  {
    var p := WindowsAfter(c, j.p, m);
    var call := KernelCall(us, j.k, p, m);
    Joint(if call.Some? then Step(j.k, call.value).0 else j.k, p)
  }

  // ---------------------------------------------------------------- what the two sides agree on

  predicate Agree(us: Units, j: Joint) {
    j.k.dsp == j.p.dspflg && j.k.twd == UnitOf(us, j.p.twdsched) && j.k.idle == UnitOf(us, j.p.idlesched)
  }

  lemma StartsKeep(c: P.Tables, p: P.State, w: nat, rest: int)
    ensures P.WindowStarted(c, p, w).dspflg == P.CycleStarted(c, p, rest).dspflg == p.dspflg
  {
  }

  /** With dispatching disabled every switch is put off; no event enables or disables dispatching. */
  lemma PutOff(c: P.Tables, p: P.State, event: P.Call)
    requires !event.Disable? && !event.Enable?
    ensures var r := P.Step(c, p, event);
            r.dspflg == p.dspflg && (!p.dspflg ==> r.twdsched == p.twdsched && r.idlesched == p.idlesched)
  {
    hide P.WindowStarted, P.CycleStarted;
    match event
    case CycleEvent(rest) => StartsKeep(c, p.(registered := if p.registered > 0 then p.registered - 1 else 0), 0, rest);
    case TimerInterrupt(rest) =>
      if p.runtwd.Some? { StartsKeep(c, P.TimerStopped(p, rest), p.runtwd.value + 1, rest); }
    case _ =>
  }

  lemma EnabledIs(c: P.Tables, p: P.State, rest: int)
    ensures P.Step(c, p, P.Enable(rest)).dspflg && Enabled(c, p, rest).dspflg
  {
  }

  /** No other call touches the units or the dispatching state. */
  lemma PlainKeeps(k: K, call: Call)
    requires Shape(k) && Callable(k, call) && Plain(call)
    ensures SameUnits(k, Step(k, call).0)
  {
    hide TaskStep, ObjectStep, Shape, SameUnits;
    if IsTaskCall(call) { PlainTaskKeeps(k, call); } else { PlainObjectKeeps(k, call); }
  }

  predicate SameUnits(k: K, r: K) { r.cfg == k.cfg && r.dsp == k.dsp && r.twd == k.twd && r.idle == k.idle }

  lemma PlainTaskKeeps(k: K, call: Call)
    requires Shape(k) && Callable(k, call) && IsTaskCall(call) && Plain(call)
    ensures SameUnits(k, TaskStep(k, call).0)
  {
    hide QueueShape, TaskShape, CfgOk;
  }

  lemma PlainObjectKeeps(k: K, call: Call)
    requires Shape(k) && Callable(k, call) && !IsTaskCall(call) && Plain(call)
    ensures SameUnits(k, ObjectStep(k, call).0)
  {
    hide QueueShape, TaskShape, CfgOk;
  }

  lemma EnabledIn(k: K, twd: UnitId, idle: UnitId)
    requires Shape(k) && k.run.Some? && twd < k.cfg.units && idle < k.cfg.units
    ensures var r := Step(k, Call.EnaDsp(twd, idle)).0; r.cfg == k.cfg && r.dsp && r.twd == twd && r.idle == idle
  {
    hide QueueShape, TaskShape, CfgOk, TaskTerminate;
    TerminateKeeps(SetDspflg(k, twd, idle), k.run.value);
  }

  lemma EndedIn(k: K, twd: UnitId, idle: UnitId)
    requires Shape(k) && k.run.Some? && twd < k.cfg.units && idle < k.cfg.units
    ensures var r := Step(k, Call.ExtTsk(twd, idle)).0;
            r.cfg == k.cfg && r.dsp && (r.twd, r.idle) == if k.dsp then (k.twd, k.idle) else (twd, idle)
  {
    hide QueueShape, TaskShape, CfgOk, TaskTerminate;
    TerminateKeeps(if k.dsp then k else SetDspflg(k, twd, idle), k.run.value);
  }

  lemma TerminateKeeps(k: K, t: TaskId)
    requires Shape(k) && IsTask(k, t)
    ensures SameUnits(k, TaskTerminate(k, t, 0)) && Shape(TaskTerminate(k, t, 0))
  {
  }

  lemma SwitchedIn(k: K, twd: UnitId, idle: UnitId)
    requires Shape(k) && k.dsp && twd < k.cfg.units && idle < k.cfg.units
    ensures var r := Step(k, SwitchWindow(twd, idle)).0; r.cfg == k.cfg && r.dsp && r.twd == twd && r.idle == idle
  {
    hide QueueShape, TaskShape, CfgOk;
  }

  lemma DisabledIn(k: K)
    requires Shape(k) && k.run.Some?
    ensures Step(k, Call.DisDsp).0 == k.(dsp := false)
  {
    hide QueueShape, TaskShape, CfgOk;
  }

  /** Every move keeps the agreement, and the kernel's own invariant. */
  lemma MoveAgrees(us: Units, c: P.Tables, j: Joint, m: Move)
    requires TablesFit(us, c, j.k.cfg) && Settled(j.k) && Allowed(us, c, j, m) && Agree(us, j)
    ensures var r := MoveStep(us, c, j, m); Agree(us, r) && Settled(r.k) && r.k.cfg == j.k.cfg
  {
    hide Settled, P.Step, Step, TablesFit, Shape;
    var p := WindowsAfter(c, j.p, m);
    UnitInRange(us, c, j.k.cfg, p.twdsched);
    UnitInRange(us, c, j.k.cfg, p.idlesched);
    var call := KernelCall(us, j.k, p, m);
    if call.Some? { StepSettled(j.k, call.value); }
    match m
    case Serve(call) => PlainKeeps(j.k, call);
    case Interrupt(event) =>
      PutOff(c, j.p, event);
      if j.k.dsp { SwitchedIn(j.k, UnitOf(us, p.twdsched), UnitOf(us, p.idlesched)); }
    case DisDsp =>
      DisabledIn(j.k);
      Disabled(c, j.p);
    case EnaDsp(rest) =>
      EnabledIs(c, j.p, rest);
      EnabledIn(j.k, UnitOf(us, p.twdsched), UnitOf(us, p.idlesched));
    case ExtTsk(rest) =>
      EnabledIs(c, j.p, rest);
      EndedIn(j.k, UnitOf(us, p.twdsched), UnitOf(us, p.idlesched));
  }

  lemma Disabled(c: P.Tables, p: P.State)
    ensures P.Step(c, p, P.Disable) == p.(dspflg := false)
  {
  }

  // ---------------------------------------------------------------- every run

  ghost predicate IsRun(us: Units, c: P.Tables, cfg: Cfg, js: seq<Joint>, ms: seq<Move>) {
    && TablesFit(us, c, cfg) && CfgOk(cfg) && |js| == |ms| + 1
    && (exists inisom :: P.IsMode(c, inisom) && js[0] == Joint(Initial(cfg), P.Initial(inisom)))
    && forall i {:trigger ms[i]} :: 0 <= i < |ms| ==> Allowed(us, c, js[i], ms[i]) && js[i + 1] == MoveStep(us, c, js[i], ms[i])
  }

  /** In every run the two sides agree: the kernel's units are those of the current window, and a switch
      is put off by the one exactly if dispatching is disabled for the other. */
  lemma {:induction false} RunAgrees(us: Units, c: P.Tables, cfg: Cfg, js: seq<Joint>, ms: seq<Move>, n: nat)
    requires IsRun(us, c, cfg, js, ms) && n < |js|
    ensures Agree(us, js[n]) && Settled(js[n].k) && js[n].k.cfg == cfg
  {
    hide Settled, MoveStep, Allowed, TablesFit;
    if n == 0 {
      InitialSettled(cfg);
    } else {
      RunAgrees(us, c, cfg, js, ms, n - 1);
      assert Allowed(us, c, js[n - 1], ms[n - 1]);
      MoveAgrees(us, c, js[n - 1], ms[n - 1]);
    }
  }

  /** No change of mode in the first `n` moves comes before the boot-time cycle event. */
  ghost predicate NoneTooEarly(js: seq<Joint>, ms: seq<Move>, n: nat)
    requires n < |js| == |ms| + 1
  {
    forall i {:trigger ms[i]} :: 0 <= i < n && ms[i].Interrupt? ==> !P.TooEarly(js[i].p, ms[i].event)
  }

  lemma {:induction false} RunPartitioned(us: Units, c: P.Tables, cfg: Cfg, js: seq<Joint>, ms: seq<Move>, n: nat)
    requires IsRun(us, c, cfg, js, ms) && n < |js| && NoneTooEarly(js, ms, n)
    ensures P.Inv(c, js[n].p)
  {
    hide P.Inv, P.Step, Step, Shape;
    if n == 0 {
      InitialInv(c, js[0].p);
    } else {
      RunPartitioned(us, c, cfg, js, ms, n - 1);
      var j, m := js[n - 1], ms[n - 1];
      assert Allowed(us, c, j, m);
      match m
      case Serve(call) =>
      case Interrupt(event) => P.StepOk(c, j.p, event);
      case DisDsp => P.StepOk(c, j.p, P.Disable);
      case EnaDsp(rest) => P.StepOk(c, j.p, P.Enable(rest));
      case ExtTsk(rest) => P.StepOk(c, j.p, P.Enable(rest));
    }
  }

  lemma InitialInv(c: P.Tables, p: P.State)
    requires P.TablesOk(c) && exists inisom :: P.IsMode(c, inisom) && p == P.Initial(inisom)
    ensures P.Inv(c, p)
  {
  }

  /** Which unit's tasks may run: with no mode only the kernel's; otherwise the kernel's, those of the
      window's domain while a window is open, and those of domains without a window. */
  predicate MayRun(us: Units, c: P.Tables, p: P.State, u: UnitId) {
    || u == KERNEL_UNIT
    || (p.cursom.Some? && u == us.idle)
    || (p.runtwd.Some? && p.runtwd.value < |c.windows| && u == UnitOf(us, P.DomainSched(c.windows[p.runtwd.value].dom)))
  }

  /** Temporal isolation: in every run in which no change of mode comes before the boot-time cycle event,
      whenever dispatching is enabled the running task is one of the kernel domain, of the domain whose
      window it is, or of a domain without windows; a task of another domain never runs. */
  lemma OnlyInItsWindow(us: Units, c: P.Tables, cfg: Cfg, js: seq<Joint>, ms: seq<Move>, n: nat)
    requires IsRun(us, c, cfg, js, ms) && n < |js| && NoneTooEarly(js, ms, n)
    ensures Settled(js[n].k) && js[n].k.cfg == cfg
    ensures js[n].k.dsp && js[n].k.run.Some? ==> MayRun(us, c, js[n].p, cfg.unitOf[js[n].k.run.value])
  {
    hide IsRun, P.Recorded, P.EventOk, QueueOk, TaskOk;
    RunAgrees(us, c, cfg, js, ms, n);
    RunPartitioned(us, c, cfg, js, ms, n);
    var k := js[n].k;
    if k.dsp && k.run.Some? { RunsInUnits(k); }
  }

  lemma RunsInUnits(k: K)
    requires Settled(k) && k.dsp && k.run.Some?
    ensures IsTask(k, k.run.value) && k.cfg.unitOf[k.run.value] in {KERNEL_UNIT, k.twd, k.idle}
  {
    hide QueueOk, TaskOk;
    BestIsRunnable(k, KERNEL_UNIT, 0);
    BestIsRunnable(k, k.twd, 0);
    BestIsRunnable(k, k.idle, 0);
  }
}
