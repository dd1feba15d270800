/**
 The theorems about whole runs of the kernel: every sequence of service calls, timeouts and window
 switches from the initial state.
 */
module KernelTheorems {
  import opened Base
  import opened KernelState
  import opened KernelInvariant
  import opened KernelProofs
  import opened KernelCalls
  import opened KernelRuns

  /** initialize_task before any TA_ACT activation, which is an ActTsk step. */
  function Initial(c: Cfg): (k: K)
    requires CfgOk(c)
  {
    K(c,
      seq(|c.ipri|, t requires 0 <= t < |c.ipri| =>
        Tcb(Dormant, c.ipri[t], c.ipri[t], false, false, false, true, E_OK)),
      map h | h in AllHomes(c) :: [],
      seq(|c.ipri|, t => []),
      seq(|c.wobj|, q => None),
      {},
      seq(|c.wobj|, q requires 0 <= q < |c.wobj| =>
        if c.wobj[q].kind.Semaphore? then c.wobj[q].kind.isemcnt else 0),
      None, true, KERNEL_UNIT, KERNEL_UNIT)
  }

  function AllHomes(c: Cfg): (hs: set<Home>)
    ensures forall h :: h in hs <==> ValidHome(c, h)
  {
    (set u, p | 0 <= u < c.units && 0 <= p < TNUM_TPRI :: Ready(u, p)) + (set q | 0 <= q < |c.wobj| :: WaitQ(q))
  }

  lemma InitialSettled(c: Cfg)
    requires CfgOk(c)
    ensures Settled(Initial(c))
  {
    var k := Initial(c);
    assert QueueShape(k);
    assert Shape(k);
    forall h | ValidHome(c, h) ensures QueueOk(k, TIGHT, h) { assert k.queues[h] == []; }
    forall t | 0 <= t < |k.tcb| ensures TaskOk(k, TIGHT, t) {}
    ChoiceIsRunnable(k);
  }

  lemma SettledShape(k: K)
    requires Settled(k)
    ensures Shape(k) && (k.run.Some? ==> IsTask(k, k.run.value))
  {
  }

  /** Calls of a task that concern itself. */
  predicate OfItself(c: Call) { c.SlpTsk? || c.DlyTsk? || c.ExtTsk? || c.DisTer? || c.EnaTer? }

  lemma OwnCallSettled(k: K, c: Call)
    requires Settled(k) && Callable(k, c) && OfItself(c) && Shape(k)
    ensures IsTaskCall(c) && Settled(TaskStep(k, c).0)
  {
    hide Settled, SlpTskStep, DlyTskStep, ExtTskStep, EnaTerStep, Dispatch, Shape, SetTcb;
    SettledShape(k);
    var me := k.run.value;
    match c
    case SlpTsk(tmo) => SlpTskInv(k, me, tmo);
    case DlyTsk => DlyTskInv(k, me);
    case ExtTsk(twd, idle) => ExtTskInv(k, me, twd, idle);
    case DisTer => FlagStep(k, me, k.tcb[me].(enater := false));
    case EnaTer => EnaTerInv(k, me);
  }

  lemma TaskStepSettled(k: K, c: Call)
    requires Settled(k) && Callable(k, c) && IsTaskCall(c) && Shape(k)
    ensures Settled(TaskStep(k, c).0)
  {
    hide Settled, ActTskStep, ChgPriStep, SlpTskStep, WupTskStep, DlyTskStep, RelWaiStep, SusTskStep, RsmTskStep,
      ExtTskStep, RasTerStep, EnaTerStep, TerTskStep, Dispatch, RotateReadyQueue, Shape, SetTcb;
    match c
    case ActTsk(t) => ActTskInv(k, t);
    case CanAct(t) => FlagStep(k, t, k.tcb[t].(actque := false));
    case ChgPri(t, p) => ChgPriInv(k, t, p);
    case WupTsk(t) => WupTskInv(k, t);
    case CanWup(t) => FlagStep(k, t, k.tcb[t].(wupque := false));
    case RelWai(t, n) => RelWaiInv(k, t, n);
    case SusTsk(t) => SusTskInv(k, t);
    case RsmTsk(t) => RsmTskInv(k, t);
    case RasTer(t, n) => RasTerInv(k, t, n);
    case TerTsk(t, n) => TerTskInv(k, t, n);
    case RotRdq(p, u) => RotateInv(k, p, u);
    case _ => OwnCallSettled(k, c);
  }

  lemma ObjectStepSettled(k: K, c: Call)
    requires Settled(k) && Callable(k, c) && !IsTaskCall(c) && Shape(k)
    ensures Settled(ObjectStep(k, c).0)
  {
    hide Settled, LocMtxStep, PlocMtxStep, UnlMtxStep, IniMtxStep, WaiSemStep, SigSemStep, IniSemStep, ObjWaitStep,
      ObjWakeStep, EnaDspStep, Dispatch, Expire, InitWaitQueue, QueueShape, TaskShape, CfgOk;
    SettledShape(k);
    var me := if k.run.Some? then k.run.value else 0;
    match c
    case LocMtx(m, tmo) => LocMtxInv(k, me, m, tmo);
    case PlocMtx(m) => LocMtxInv(k, me, m, Poll);
    case UnlMtx(m) => UnlMtxInv(k, me, m);
    case IniMtx(m) => IniMtxInv(k, m);
    case WaiSem(q, tmo) => WaiSemInv(k, me, q, tmo);
    case SigSem(q) => SigSemInv(k, q);
    case IniSem(q) => IniSemInv(k, q);
    case ObjWait(q, tmo) => ObjWaitInv(k, me, q, tmo);
    case ObjWake(q, i) => ObjWakeInv(k, q, i);
    case ObjInit(q) => ObjInitInv(k, q);
    case Timeout(t, n) => TimeoutInv(k, t, n);
    case DisDsp => WindowStep(k, false, k.twd, k.idle);
    case EnaDsp(twd, idle) => EnaDspInv(k, me, twd, idle);
    case SwitchWindow(twd, idle) => WindowStep(k, true, twd, idle);
  }

  /** Every step keeps the invariant. */
  lemma StepSettled(k: K, c: Call)
    requires Settled(k) && Callable(k, c)
    ensures Shape(k) && Settled(Step(k, c).0)
  {
    hide Settled, TaskStep, ObjectStep;
    SettledShape(k);
    if IsTaskCall(c) { TaskStepSettled(k, c); } else { ObjectStepSettled(k, c); }
  }

  /** `ks` lists the states of a run: each is a step away from the one before. */
  ghost predicate IsRun(c: Cfg, ks: seq<K>, calls: seq<Call>)
    requires CfgOk(c)
  {
    && |ks| == |calls| + 1
    && ks[0] == Initial(c)
    && forall i :: 0 <= i < |calls| ==> Shape(ks[i]) && Callable(ks[i], calls[i]) && ks[i + 1] == Step(ks[i], calls[i]).0
  }

  ghost predicate Reachable(k: K) {
    Shape(k) && exists ks: seq<K>, calls: seq<Call> :: CfgOk(k.cfg) && IsRun(k.cfg, ks, calls) && k == ks[|calls|]
  }

  lemma {:induction false} RunSettled(c: Cfg, ks: seq<K>, calls: seq<Call>, n: nat)
    requires CfgOk(c) && IsRun(c, ks, calls) && n <= |calls|
    ensures Settled(ks[n])
  {
    hide Settled, Step;
    if n == 0 {
      InitialSettled(c);
    } else {
      RunSettled(c, ks, calls, n - 1);
      StepSettled(ks[n - 1], calls[n - 1]);
    }
  }

  lemma ReachableSettled(k: K)
    requires Reachable(k)
    ensures Settled(k)
  {
    var ks: seq<K>, calls: seq<Call> :| CfgOk(k.cfg) && IsRun(k.cfg, ks, calls) && k == ks[|calls|];
    RunSettled(k.cfg, ks, calls, |calls|);
  }

  // ---------------------------------------------------------------- what it means

  /** How often a task is linked to a queue. */
  ghost function Links(k: K, h: Home, t: TaskId): nat
    requires h in k.queues
  {
    multiset(k.queues[h])[t]
  }

  lemma {:induction false} CountNoDup(s: seq<TaskId>, t: TaskId)
    requires NoDup(s)
    ensures multiset(s)[t] == if t in s then 1 else 0
  {
    if s != [] {
      assert s == s[..|s| - 1] + [s[|s| - 1]];
      CountNoDup(s[..|s| - 1], t);
    }
  }

  /** Membership: in every reachable state each task is linked exactly once to the queue its state
      dictates and to no other, and its timeout block is registered iff it waits with a timeout. */
  lemma Membership(k: K, t: TaskId, h: Home)
    requires Reachable(k) && IsTask(k, t)
    ensures Settled(k)
    ensures h in k.queues ==> Links(k, h, t) == if TaskHome(k, t) == Some(h) then 1 else 0
    ensures TaskHome(k, t) == Some(h) ==> h in k.queues
    ensures t in k.timed <==> k.tcb[t].stat.Waiting? && k.tcb[t].stat.tmo
  {
    ReachableSettled(k);
    assert TaskOk(k, TIGHT, t);
    if h in k.queues {
      assert QueueOk(k, TIGHT, h);
      CountNoDup(k.queues[h], t);
      if t in k.queues[h] {
        var i :| 0 <= i < |k.queues[h]| && k.queues[h][i] == t;
        assert TaskHome(k, k.queues[h][i]) == Some(h);
      }
    }
  }

  /** Immediate priority ceiling: in every reachable state the current priority of a task is the
      minimum of its base priority and the ceilings it holds, and no ceiling it holds or waits for is
      lower than its base priority (smaller numbers are higher priorities). */
  lemma PriorityCeiling(k: K, t: TaskId, m: WobjId)
    requires Reachable(k) && IsTask(k, t) && IsMutex(k.cfg, m)
    ensures k.tcb[t].pri <= k.tcb[t].bpri
    ensures k.owner[m] == Some(t) && Ceiling(k.cfg, m).Some? ==>
              k.tcb[t].pri <= Ceiling(k.cfg, m).value <= k.tcb[t].bpri
    ensures WaitsOn(k.tcb[t].stat, m) && Ceiling(k.cfg, m).Some? ==> Ceiling(k.cfg, m).value <= k.tcb[t].bpri
    ensures k.tcb[t].pri == k.tcb[t].bpri ||
              exists x: WobjId :: x < |k.owner| && k.owner[x] == Some(t) && Ceiling(k.cfg, x) == Some(k.tcb[t].pri)
  {
    ReachableSettled(k);
    assert TaskOk(k, TIGHT, t);
    if k.tcb[t].pri != k.tcb[t].bpri {
      var x :| x in k.held[t] && Ceiling(k.cfg, x).Some? && Ceiling(k.cfg, x).value == k.tcb[t].pri;
      assert IsMutex(k.cfg, x) && k.owner[x] == Some(t);
    }
  }

  /** Mutex ownership: chains hold exactly the owned mutexes, once each; a mutex with waiters has an
      owner, which is none of the waiters; a dormant task owns nothing. */
  lemma MutexOwnership(k: K, t: TaskId, m: WobjId)
    requires Reachable(k) && IsTask(k, t) && IsMutex(k.cfg, m)
    ensures multiset(k.held[t])[m] == if k.owner[m] == Some(t) then 1 else 0
    ensures WaitsOn(k.tcb[t].stat, m) ==> k.owner[m].Some? && k.owner[m] != Some(t)
    ensures k.tcb[t].stat.Dormant? ==> k.owner[m] != Some(t)
    ensures Q(k, WaitQ(m)) != [] ==> k.owner[m].Some? && k.owner[m].value !in Q(k, WaitQ(m))
  {
    ReachableSettled(k);
    assert TaskOk(k, TIGHT, t);
    CountNoDup(k.held[t], m);
    assert QueueOk(k, TIGHT, WaitQ(m));
    forall i | 0 <= i < |Q(k, WaitQ(m))|
      ensures k.owner[m].Some? && k.owner[m].value != Q(k, WaitQ(m))[i]
    {
      assert TaskOk(k, TIGHT, Q(k, WaitQ(m))[i]);
    }
    if Q(k, WaitQ(m)) != [] { assert TaskOk(k, TIGHT, Q(k, WaitQ(m))[0]); }
  }

  /** TA_TPRI wait queues are in order of current priority. */
  lemma PriorityOrder(k: K, q: WobjId, i: nat, j: nat)
    requires Reachable(k) && q < |k.cfg.wobj| && k.cfg.wobj[q].tpri && WaitQ(q) in k.queues
    requires i < j < |k.queues[WaitQ(q)]|
    ensures var s := k.queues[WaitQ(q)];
            IsTask(k, s[i]) && IsTask(k, s[j]) && k.tcb[s[i]].pri <= k.tcb[s[j]].pri
  {
    ReachableSettled(k);
    assert QueueOk(k, TIGHT, WaitQ(q));
  }

  /** Priority scheduling: while dispatching is enabled, no runnable task of the kernel domain has a
      higher priority than the running task, and none of the window's unit has, unless the running
      task is the kernel's. */
  lemma RunsTheBest(k: K, t: TaskId)
    requires Reachable(k) && k.dsp && IsTask(k, t) && k.tcb[t].stat.Runnable?
    ensures k.cfg.unitOf[t] in {KERNEL_UNIT, k.twd, k.idle} ==> k.run.Some?
    ensures k.run.Some? ==> IsTask(k, k.run.value)
    ensures k.cfg.unitOf[t] in {KERNEL_UNIT, k.twd} ==> k.tcb[k.run.value].pri <= k.tcb[t].pri
    ensures k.run.Some? && k.cfg.unitOf[t] == KERNEL_UNIT && k.tcb[k.run.value].pri == k.tcb[t].pri ==>
              k.cfg.unitOf[k.run.value] == KERNEL_UNIT
  {
    ReachableSettled(k);
    assert TaskOk(k, TIGHT, t);
    var u := k.cfg.unitOf[t];
    assert Ready(u, k.tcb[t].pri) in k.queues;
    BestNotBelow(k, u, 0, k.tcb[t].pri);
    BestIsRunnable(k, KERNEL_UNIT, 0);
    BestIsRunnable(k, k.twd, 0);
    BestIsRunnable(k, k.idle, 0);
  }

  /** The best task of a unit is at least as urgent as any non-empty level. */
  lemma {:induction false} BestNotBelow(k: K, u: UnitId, p: nat, b: Pri)
    requires Inv(k, TIGHT) && u < k.cfg.units && p <= b < TNUM_TPRI && k.queues[Ready(u, b)] != []
    ensures BestFrom(k, u, p).Some? && IsTask(k, BestFrom(k, u, p).value)
    ensures k.tcb[BestFrom(k, u, p).value].pri <= b
    decreases b - p
  {
    assert QueueOk(k, TIGHT, Ready(u, p));
    if k.queues[Ready(u, p)] == [] { BestNotBelow(k, u, p + 1, b); }
  }

  // ---------------------------------------------------------------- termination and mutexes

  lemma LastOrBefore(ms: seq<WobjId>, x: WobjId)
    requires ms != []
    ensures x in ms <==> x == ms[|ms| - 1] || x in ms[..|ms| - 1]
  {
  }

  /** mutex_release_all: each mutex of the chain goes to its first waiter or to nobody, every other
      mutex keeps its owner. */
  lemma {:induction false} ReleaseAllOwners(k: K, s: Slack, t: TaskId, n: nat, x: WobjId)
    requires Inv(k, s) && IsTask(k, t) && t in s.out && t in s.stale && n >= |k.held[t]|
    requires IsMutex(k.cfg, x)
    ensures var r := MutexReleaseAll(k, t, n);
            r.owner[x] == if x !in k.held[t] then k.owner[x]
                          else if Q(k, WaitQ(x)) == [] then None
                          else Some(Q(k, WaitQ(x))[0])
    decreases n
  {
    hide Inv, MutexRelease, PopHeld, QueueShape, TaskShape, CfgOk;
    InvShape(k, s);
    if n != 0 && k.held[t] != [] {
      var ms := k.held[t];
      var m := ms[|ms| - 1];
      var k2 := ReleaseLast(k, s, t);
      LastOrBefore(ms, x);
      ReleaseAllOwners(k2, s, t, n - 1, x);
    }
  }

  /** ter_tsk and the like: afterwards the ended task owns no mutex and holds no queue place unless
      a queued activation restarted it. */
  lemma TerminationReleasesAll(k: K, t: TaskId, n: nat)
    requires Settled(k) && IsTask(k, t) && !k.tcb[t].stat.Dormant?
    ensures var r := TaskTerminate(k, t, n);
            && Inv(r, TIGHT) && r.held[t] == [] && t !in r.timed
            && (forall m: WobjId :: IsMutex(k.cfg, m) ==> r.owner[m] != Some(t))
            && r.tcb[t].stat == (if k.tcb[t].actque then Runnable else Dormant)
  {
    hide QueueOk, MutexReleaseAll, QueueShape, TaskShape, CfgOk;
    TaskTerminateInv(k, t, n);
    var r := TaskTerminate(k, t, n);
    assert TaskOk(r, TIGHT, t);
    var k1 := TaskOutInv(k, t, n);
    MutexReleaseAllInv(k1, Stale(Out(TIGHT, t), t), t, |k1.held[t]|);
  }

  /** unl_mtx succeeds exactly on the most recently locked mutex of the caller. */
  lemma UnlockIsLifo(k: K, m: WobjId)
    requires Reachable(k) && Callable(k, UnlMtx(m))
    ensures var t := k.run.value;
            Step(k, UnlMtx(m)).1 == E_OK <==>
              k.owner[m] == Some(t) && k.held[t] != [] && k.held[t][|k.held[t]| - 1] == m
  {
    hide QueueShape, TaskShape, CfgOk, QueueOk;
    ReachableSettled(k);
    var t := k.run.value;
    assert TaskOk(k, TIGHT, t);
    if k.held[t] != [] { assert k.held[t][|k.held[t]| - 1] in k.held[t]; }
  }
}
