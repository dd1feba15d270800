/**
 Each service call and timeout, as one atomic step, keeps the kernel invariant.
 */
module KernelRuns {
  import opened Base
  import opened KernelState
  import opened KernelInvariant
  import opened KernelProofs
  import opened KernelCalls

  /** The running task is runnable, and is the scheduler's choice while dispatching is enabled. */
  ghost predicate RunOk(k: K)
    requires Shape(k)
  {
    && (k.run.Some? ==> k.tcb[k.run.value].stat.Runnable?)
    && (k.dsp ==> k.run == Choice(k))
  }

  /** Holds between steps. */
  ghost predicate Settled(k: K) {
    Inv(k, TIGHT) && RunOk(k)
  }

  // ---------------------------------------------------------------- scheduling

  lemma {:induction false} BestIsRunnable(k: K, u: UnitId, p: nat)
    requires Inv(k, TIGHT) && u < k.cfg.units && p <= TNUM_TPRI
    ensures BestFrom(k, u, p).Some? ==>
              var t := BestFrom(k, u, p).value;
              IsTask(k, t) && k.tcb[t].stat.Runnable? && k.cfg.unitOf[t] == u && p <= k.tcb[t].pri
    decreases TNUM_TPRI - p
  {
    if p < TNUM_TPRI {
      assert QueueOk(k, TIGHT, Ready(u, p));
      BestIsRunnable(k, u, p + 1);
    }
  }

  lemma ChoiceIsRunnable(k: K)
    requires Inv(k, TIGHT)
    ensures Choice(k).Some? ==> IsTask(k, Choice(k).value) && k.tcb[Choice(k).value].stat.Runnable?
  {
    hide QueueOk, TaskOk;
    BestIsRunnable(k, KERNEL_UNIT, 0);
    BestIsRunnable(k, k.twd, 0);
    BestIsRunnable(k, k.idle, 0);
  }

  /** After a dispatch the running task is the choice, if the step left it runnable otherwise. */
  lemma DispatchInv(k: K)
    requires Inv(k, TIGHT)
    requires !k.dsp && k.run.Some? ==> k.tcb[k.run.value].stat.Runnable?
    ensures Settled(Dispatch(k))
  {
    hide QueueOk, TaskOk;
    var r := Dispatch(k);
    ChoiceIsRunnable(k);
    SemsOk(k, TIGHT);
    SameTasks(k, r, TIGHT);
    if k.dsp { ChoiceSame(k, r); }
  }

  /** The invariant does not mention the running task, the windows or the dispatch flag. */
  lemma SameTasks(k: K, r: K, s: Slack)
    requires Inv(k, s) && Shape(r) && r.cfg == k.cfg && r.tcb == k.tcb && r.queues == k.queues
    requires r.held == k.held && r.owner == k.owner && r.timed == k.timed
    requires forall q: WobjId :: IsSem(k.cfg, q) ==>
               r.semcnt[q] <= k.cfg.wobj[q].kind.maxsem && (r.semcnt[q] == 0 || r.queues[WaitQ(q)] == [])
    ensures Inv(r, s)
  {
    forall h | ValidHome(r.cfg, h) ensures QueueOk(r, s, h) { assert QueueOk(k, s, h); }
    forall t | 0 <= t < |r.tcb| ensures TaskOk(r, s, t) { assert TaskOk(k, s, t); }
  }

  lemma SemsOk(k: K, s: Slack)
    requires Inv(k, s)
    ensures forall q: WobjId :: IsSem(k.cfg, q) ==>
              k.semcnt[q] <= k.cfg.wobj[q].kind.maxsem && (k.semcnt[q] == 0 || k.queues[WaitQ(q)] == [])
  {
    forall q: WobjId | IsSem(k.cfg, q)
      ensures k.semcnt[q] <= k.cfg.wobj[q].kind.maxsem && (k.semcnt[q] == 0 || k.queues[WaitQ(q)] == [])
    {
      assert QueueOk(k, s, WaitQ(q));
    }
  }

  lemma {:induction false} BestSame(k: K, r: K, u: UnitId, p: nat)
    requires Shape(k) && Shape(r) && r.cfg == k.cfg && u < k.cfg.units && p <= TNUM_TPRI
    requires forall i :: 0 <= i < TNUM_TPRI ==> r.queues[Ready(u, i)] == k.queues[Ready(u, i)]
    ensures BestFrom(r, u, p) == BestFrom(k, u, p)
    decreases TNUM_TPRI - p
  {
    if p < TNUM_TPRI { BestSame(k, r, u, p + 1); }
  }

  /** The choice depends on the ready queues, the windows and current priorities only. */
  lemma ChoiceSame(k: K, r: K)
    requires Shape(k) && Shape(r) && r.cfg == k.cfg && r.twd == k.twd && r.idle == k.idle
    requires forall u, i :: 0 <= u < k.cfg.units && 0 <= i < TNUM_TPRI ==> r.queues[Ready(u, i)] == k.queues[Ready(u, i)]
    requires forall t :: 0 <= t < |k.tcb| ==> r.tcb[t].pri == k.tcb[t].pri
    ensures Choice(r) == Choice(k)
  {
    BestSame(k, r, KERNEL_UNIT, 0);
    BestSame(k, r, k.twd, 0);
    BestSame(k, r, k.idle, 0);
    BestIsTask(k, KERNEL_UNIT, 0);
    BestIsTask(k, k.twd, 0);
  }

  /** A step that touches neither ready queues nor priorities needs no dispatch. */
  lemma QuietStep(k: K, r: K)
    requires Settled(k) && Inv(r, TIGHT) && r.cfg == k.cfg && r.run == k.run && r.dsp == k.dsp
    requires r.twd == k.twd && r.idle == k.idle && r.queues == k.queues
    requires forall t :: 0 <= t < |k.tcb| ==> r.tcb[t].pri == k.tcb[t].pri
    requires forall t :: 0 <= t < |k.tcb| && k.tcb[t].stat.Runnable? ==> r.tcb[t].stat.Runnable?
    ensures Settled(r)
  {
    ChoiceSame(k, r);
  }

  /** Flags of a task record may change without further ado. */
  lemma FlagInv(k: K, t: TaskId, r: Tcb)
    requires Inv(k, TIGHT) && IsTask(k, t)
    requires r.stat == k.tcb[t].stat && r.pri == k.tcb[t].pri && r.bpri == k.tcb[t].bpri
    ensures Inv(SetTcb(k, t, r), TIGHT)
  {
    assert TaskOk(k, TIGHT, t);
    var k' := SetTcb(k, t, r);
    assert TaskOk(k', Stale(TIGHT, t), t);
    RecordInv(k, TIGHT, t, r);
    FreshInv(k', Stale(TIGHT, t), t);
    assert Fresh(Stale(TIGHT, t), t) == TIGHT;
  }

  lemma FlagStep(k: K, t: TaskId, r: Tcb)
    requires Settled(k) && IsTask(k, t)
    requires r.stat == k.tcb[t].stat && r.pri == k.tcb[t].pri && r.bpri == k.tcb[t].bpri
    ensures Settled(SetTcb(k, t, r))
  {
    hide QueueOk, TaskOk;
    FlagInv(k, t, r);
    QuietStep(k, SetTcb(k, t, r));
  }

  // ---------------------------------------------------------------- the calls, one by one

  /** A task that is in no queue becomes runnable. */
  lemma EnterReady(k: K, t: TaskId, k1: K)
    requires Inv(k, TIGHT) && IsTask(k, t) && TaskHome(k, t) == None && t !in k.timed
    requires k1 == SetStat(k, t, Runnable)
    ensures Inv(MakeRunnable(k1, t), TIGHT)
  {
    assert TaskOk(k, TIGHT, t);
    LeaveInv(k, TIGHT, t);
    OutsideInv(k, Out(TIGHT, t), t, k1);
    assert TaskOk(k1, Out(TIGHT, t), t);
    MakeRunnableInv(k1, Out(TIGHT, t), t);
    assert In(Out(TIGHT, t), t) == TIGHT;
  }

  lemma ActTskInv(k: K, t: TaskId)
    requires Settled(k) && IsTask(k, t)
    ensures Settled(ActTskStep(k, t).0)
  {
    if k.tcb[t].stat.Dormant? {
      assert TaskOk(k, TIGHT, t);
      EnterReady(k, t, SetStat(k, t, Runnable));
      DispatchInv(MakeActive(k, t));
    } else {
      FlagStep(k, t, k.tcb[t].(actque := true));
    }
  }

  /** chg_pri's checks are exactly what the ceiling rule needs. */
  lemma ChgPriInv(k: K, t: TaskId, newpri: Option<Pri>)
    requires Settled(k) && IsTask(k, t) && (newpri.Some? ==> newpri.value < TNUM_TPRI)
    ensures Settled(ChgPriStep(k, t, newpri).0)
  {
    hide QueueOk, TaskOk, ChangePriority, Dispatch;
    var b := if newpri.Some? then newpri.value else k.cfg.ipri[t];
    var (r, e) := ChgPriStep(k, t, newpri);
    if e == E_OK {
      var k1 := BaseChanged(k, t, b);
      assert Fresh(Stale(TIGHT, t), t) == TIGHT;
      if k.held[t] == [] || !ScanCeilmtx(k, t) {
        RebasedInv(k, k1, t, b);
      } else {
        CeilingsDecide(k.cfg, k.tcb[t].bpri, b, k.held[t]);
        FreshInv(k1, Stale(TIGHT, t), t);
        QuietStep(k, k1);
      }
    }
  }

  /** With no ceiling mutex held the base priority is the new priority. */
  lemma RebasedInv(k: K, k1: K, t: TaskId, b: Pri)
    requires Settled(k) && IsTask(k, t) && b < TNUM_TPRI && !k.tcb[t].stat.Dormant? && !ScanCeilmtx(k, t)
    requires k1 == SetTcb(k, t, k.tcb[t].(bpri := b)) && Inv(k1, Stale(TIGHT, t)) && CeilingsOk(k.cfg, b, k.held[t])
    ensures Settled(Dispatch(ChangePriority(k1, t, b, false)))
  {
    hide QueueOk, TaskOk, QueueShape, TaskShape, CfgOk;
    MinCeilingIs(k.cfg, b, k.held[t], b);
    ChangePriorityInv(k1, Stale(TIGHT, t), t, b, false);
    assert Fresh(Stale(TIGHT, t), t) == TIGHT;
    DispatchInv(ChangePriority(k1, t, b, false));
  }

  lemma BaseChanged(k: K, t: TaskId, b: Pri) returns (k1: K)
    requires Inv(k, TIGHT) && IsTask(k, t) && b < TNUM_TPRI && !k.tcb[t].stat.Dormant?
    requires CheckCeilpri(k, t, b) || (k.held[t] == [] && !(k.tcb[t].stat.Waiting? && k.tcb[t].stat.cause.OnQueue?
                                         && IsMutex(k.cfg, k.tcb[t].stat.cause.q)))
    ensures k1 == SetTcb(k, t, k.tcb[t].(bpri := b)) && Inv(k1, Stale(TIGHT, t))
    ensures CeilingsOk(k.cfg, b, k.held[t]) && CeilingsOk(k.cfg, k.tcb[t].bpri, k.held[t])
    ensures k.tcb[t].pri == MinCeiling(k.cfg, k.tcb[t].bpri, k.held[t])
  {
    assert TaskOk(k, TIGHT, t);
    SetBpriInv(k, TIGHT, t, b);
    k1 := SetTcb(k, t, k.tcb[t].(bpri := b));
  }

  /** While a ceiling mutex is held, any base priority its ceiling allows gives the same minimum:
      why chg_pri need not recompute. */
  lemma CeilingsDecide(c: Cfg, b1: Pri, b2: Pri, ms: seq<WobjId>)
    requires CeilingsOk(c, b1, ms) && CeilingsOk(c, b2, ms)
    requires exists m :: m in ms && Ceiling(c, m).Some?
    ensures MinCeiling(c, b1, ms) == MinCeiling(c, b2, ms)
  {
    var m :| m in ms && Ceiling(c, m).Some?;
    var r := MinCeiling(c, b1, ms);
    assert r <= Ceiling(c, m).value <= b1;
    if r == b1 { assert Ceiling(c, m).value == r; }
    MinCeilingIs(c, b2, ms, r);
  }

  lemma WaitStep(k: K, t: TaskId, c: Cause, tmo: bool)
    requires Settled(k) && k.run == Some(t) && k.dsp && !c.OnQueue?
    ensures Settled(Dispatch(MakeWait(k, t, c, tmo)))
  {
    PlainWaitInv(k, TIGHT, t, c, tmo);
    DispatchInv(MakeWait(k, t, c, tmo));
  }

  lemma WobjWaitStep(k: K, t: TaskId, q: WobjId, tmo: bool)
    requires Settled(k) && k.run == Some(t) && k.dsp && q < |k.cfg.wobj|
    requires IsMutex(k.cfg, q) ==>
      && k.owner[q].Some? && k.owner[q] != Some(t)
      && (Ceiling(k.cfg, q).Some? ==> Ceiling(k.cfg, q).value <= k.tcb[t].bpri)
    requires IsSem(k.cfg, q) ==> k.semcnt[q] == 0
    ensures Settled(Dispatch(WobjMakeWait(k, t, q, tmo)))
  {
    hide QueueOk, TaskOk;
    WobjMakeWaitInv(k, TIGHT, t, q, tmo);
    DispatchInv(WobjMakeWait(k, t, q, tmo));
  }

  lemma WupTskInv(k: K, t: TaskId)
    requires Settled(k) && IsTask(k, t)
    ensures Settled(WupTskStep(k, t).0)
  {
    hide QueueShape, TaskShape, CfgOk, QueueOk;
    if k.tcb[t].stat.Waiting? && k.tcb[t].stat.cause.Sleeping? {
      assert TaskOk(k, TIGHT, t);
      LeaveInv(k, TIGHT, t);
      WaitEndInv(k, Out(TIGHT, t), t, E_OK);
      assert In(Out(TIGHT, t), t) == TIGHT;
      DispatchInv(WaitEnd(k, t, E_OK));
    } else if !k.tcb[t].stat.Dormant? {
      FlagStep(k, t, k.tcb[t].(wupque := true));
    }
  }

  lemma RelWaiInv(k: K, t: TaskId, n: nat)
    requires Settled(k) && IsTask(k, t)
    ensures Settled(RelWaiStep(k, t, n).0)
  {
    hide QueueOk, TaskOk;
    if k.tcb[t].stat.Waiting? {
      ForcedEndInv(k, TIGHT, t, n, E_RLWAI);
      DispatchInv(WaitEnd(WaitDequeueWobj(k, t, n), t, E_RLWAI));
    }
  }

  lemma SusTskInv(k: K, t: TaskId)
    requires Settled(k) && IsTask(k, t)
    ensures Settled(SusTskStep(k, t).0)
  {
    hide QueueShape, TaskShape, CfgOk, QueueOk, Dispatch;
    var (r, e) := SusTskStep(k, t);
    if e == E_OK {
      assert TaskOk(k, TIGHT, t);
      if k.tcb[t].stat.Runnable? {
        LeaveInv(k, TIGHT, t);
        var k1 := MakeNonRunnable(SetStat(k, t, Suspended), t);
        OutsideInv(Leave(k, t), Out(TIGHT, t), t, k1);
        assert TaskOk(k1, Out(TIGHT, t), t);
        RestInv(k1, Out(TIGHT, t), t);
        assert In(Out(TIGHT, t), t) == TIGHT;
        DispatchInv(k1);
      } else {
        SuspBitInv(k, t, true);
      }
    }
  }

  /** Setting or clearing the suspension of a waiting task moves nothing. */
  lemma SuspBitInv(k: K, t: TaskId, b: bool)
    requires Settled(k) && IsTask(k, t) && k.tcb[t].stat.Waiting?
    ensures Settled(SetStat(k, t, k.tcb[t].stat.(susp := b)))
  {
    var r := k.tcb[t].(stat := k.tcb[t].stat.(susp := b));
    var k' := SetTcb(k, t, r);
    assert TaskOk(k, TIGHT, t);
    assert TaskHome(k', t) == TaskHome(k, t);
    assert TaskOk(k', Stale(TIGHT, t), t);
    RecordInv(k, TIGHT, t, r);
    FreshInv(k', Stale(TIGHT, t), t);
    assert Fresh(Stale(TIGHT, t), t) == TIGHT;
    QuietStep(k, k');
  }

  lemma RsmTskInv(k: K, t: TaskId)
    requires Settled(k) && IsTask(k, t)
    ensures Settled(RsmTskStep(k, t).0)
  {
    var (r, e) := RsmTskStep(k, t);
    if e == E_OK {
      assert TaskOk(k, TIGHT, t);
      if k.tcb[t].stat.Waiting? {
        SuspBitInv(k, t, false);
      } else {
        EnterReady(k, t, SetStat(k, t, Runnable));
        DispatchInv(Resumed(k, t));
      }
    }
  }

  function Resumed(k: K, t: TaskId): K
    requires Shape(k) && IsTask(k, t)
  {
    MakeRunnable(SetStat(k, t, Runnable), t)
  }

  lemma TerminateStep(k: K, t: TaskId, n: nat)
    requires Inv(k, TIGHT) && IsTask(k, t) && !k.tcb[t].stat.Dormant?
    requires k.dsp || (k.run.Some? ==> k.run != Some(t) && k.tcb[k.run.value].stat.Runnable?)
    ensures Settled(Dispatch(TaskTerminate(k, t, n)))
  {
    hide QueueOk, TaskOk;
    TaskTerminateInv(k, t, n);
    DispatchInv(TaskTerminate(k, t, n));
  }

  lemma RasTerInv(k: K, t: TaskId, n: nat)
    requires Settled(k) && IsTask(k, t)
    ensures Settled(RasTerStep(k, t, n).0)
  {
    if k.run == Some(t) || k.tcb[t].stat.Dormant? {
    } else if k.tcb[t].enater {
      TerminateStep(k, t, n);
    } else {
      FlagStep(k, t, k.tcb[t].(raster := true));
      if !k.tcb[t].stat.Runnable? {
        RasterReleaseInv(SetTcb(k, t, k.tcb[t].(raster := true)), t, n);
      }
    }
  }

  lemma RasterReleaseInv(k: K, t: TaskId, n: nat)
    requires Settled(k) && IsTask(k, t) && !k.tcb[t].stat.Dormant? && !k.tcb[t].stat.Runnable?
    ensures Settled(Dispatch(RasterRelease(k, t, n)))
  {
    hide QueueOk, TaskOk, Dispatch;
    if k.tcb[t].stat.Waiting? {
      WaitCutInv(k, t, n);
      DispatchInv(RasterRelease(k, t, n));
    } else {
      assert RasterRelease(k, t, n) == Resumed(k, t);
      SuspensionEnds(k, t);
      DispatchInv(Resumed(k, t));
    }
  }

  lemma SuspensionEnds(k: K, t: TaskId)
    requires Inv(k, TIGHT) && IsTask(k, t) && k.tcb[t].stat.Suspended?
    ensures Inv(Resumed(k, t), TIGHT)
  {
    assert TaskOk(k, TIGHT, t);
    EnterReady(k, t, SetStat(k, t, Runnable));
  }

  lemma WaitCutInv(k: K, t: TaskId, n: nat)
    requires Inv(k, TIGHT) && IsTask(k, t) && k.tcb[t].stat.Waiting?
    ensures Inv(RasterRelease(k, t, n), TIGHT)
    ensures forall u :: 0 <= u < |k.tcb| && k.tcb[u].stat.Runnable? ==> RasterRelease(k, t, n).tcb[u].stat.Runnable?
  {
    hide QueueOk, TaskOk, WaitDequeueWobj;
    var k1 := TaskOutInv(k, t, n);
    var k3 := SetStat(SetWercd(k1, t, E_RASTER), t, Runnable);
    OutsideInv(k1, Stale(Out(TIGHT, t), t), t, k3);
    RelinkInv(k, k1, k3, t);
  }

  /** A task taken out of everything, its priority untouched, becomes runnable. */
  lemma RelinkInv(k: K, k1: K, k3: K, t: TaskId)
    requires Inv(k, TIGHT) && IsTask(k, t) && !k.tcb[t].stat.Dormant? && Kept(k, k1) && Kept(k1, k3)
    requires k1.tcb[t] == k.tcb[t] && k1.held[t] == k.held[t] && k3.held == k1.held
    requires k3.tcb[t].stat.Runnable? && k3.tcb[t].pri == k.tcb[t].pri && k3.tcb[t].bpri == k.tcb[t].bpri
    requires Inv(k3, Stale(Out(TIGHT, t), t)) && t !in k3.timed
    ensures Inv(MakeRunnable(k3, t), TIGHT)
  {
    assert TaskOk(k, TIGHT, t);
    var s := Stale(Out(TIGHT, t), t);
    assert TaskOk(k3, s, t);
    MakeRunnableInv(k3, s, t);
    FreshInv(MakeRunnable(k3, t), In(s, t), t);
    assert Fresh(In(s, t), t) == TIGHT;
  }

  lemma RotatedQueue(k: K, p: Pri, u: UnitId)
    requires Inv(k, TIGHT) && p < TNUM_TPRI && u < k.cfg.units && |k.queues[Ready(u, p)]| > 1
    ensures QueueOk(RotateReadyQueue(k, p, u), TIGHT, Ready(u, p))
    ensures forall t :: t in k.queues[Ready(u, p)] ==> t in RotateReadyQueue(k, p, u).queues[Ready(u, p)]
  {
    var s := k.queues[Ready(u, p)];
    var s' := s[1..] + [s[0]];
    assert QueueOk(k, TIGHT, Ready(u, p));
    assert forall i :: 0 <= i < |s'| ==> s'[i] == if i < |s| - 1 then s[i + 1] else s[0];
    assert s == [s[0]] + s[1..];
  }

  lemma RotateInv(k: K, p: Pri, u: UnitId)
    requires Settled(k) && p < TNUM_TPRI && u < k.cfg.units
    ensures Settled(Dispatch(RotateReadyQueue(k, p, u)))
  {
    var r := RotateReadyQueue(k, p, u);
    if |k.queues[Ready(u, p)]| > 1 {
      RotatedQueue(k, p, u);
      hide NoDup, Sorted;
      forall h2 | ValidHome(r.cfg, h2) ensures QueueOk(r, TIGHT, h2) { assert QueueOk(k, TIGHT, h2); }
      forall t | 0 <= t < |r.tcb| ensures TaskOk(r, TIGHT, t) { assert TaskOk(k, TIGHT, t); }
      assert Inv(r, TIGHT);
    }
    DispatchInv(r);
  }

  // ---------------------------------------------------------------- mutex calls

  lemma {:induction false} BestAt(k: K, u: UnitId, p: nat, b: Pri)
    requires Shape(k) && u < k.cfg.units && p <= b < TNUM_TPRI
    requires (forall i :: p <= i < b ==> k.queues[Ready(u, i)] == []) && k.queues[Ready(u, b)] != []
    ensures BestFrom(k, u, p) == Some(k.queues[Ready(u, b)][0])
    decreases b - p
  {
    if p < b { BestAt(k, u, p + 1, b); }
  }

  lemma {:induction false} NothingBetter(k: K, u: UnitId, p: nat, t: TaskId)
    requires Inv(k, TIGHT) && u < k.cfg.units && p <= TNUM_TPRI && IsTask(k, t)
    requires BestFrom(k, u, p) == Some(t)
    ensures p <= k.tcb[t].pri && forall i :: p <= i < k.tcb[t].pri ==> k.queues[Ready(u, i)] == []
    decreases TNUM_TPRI - p
  {
    if p < TNUM_TPRI {
      assert QueueOk(k, TIGHT, Ready(u, p));
      if k.queues[Ready(u, p)] == [] { NothingBetter(k, u, p + 1, t); }
    }
  }

  /** The task chosen to run is the best of its own unit. */
  lemma ChosenIsBest(k: K, t: TaskId)
    requires Inv(k, TIGHT) && Choice(k) == Some(t)
    ensures IsTask(k, t) && Best(k, k.cfg.unitOf[t]) == Some(t)
  {
    BestIsRunnable(k, KERNEL_UNIT, 0);
    BestIsRunnable(k, k.twd, 0);
    BestIsRunnable(k, k.idle, 0);
  }

  /** Raising the priority of the chosen task, ahead of its new equals, keeps it chosen. */
  lemma RaisedStaysChosen(k: K, t: TaskId, p: Pri)
    requires Inv(k, TIGHT) && Choice(k) == Some(t) && IsTask(k, t) && k.tcb[t].stat.Runnable? && p < k.tcb[t].pri
    ensures Choice(ChangePriority(k, t, p, true)) == Some(t)
  {
    hide QueueOk, TaskOk, QueueShape, CfgOk, BestFrom;
    ChosenIsBest(k, t);
    RaisedIsBest(k, t, p);
    var r := ChangePriority(k, t, p, true);
    OtherUnits(k, t, p, KERNEL_UNIT);
    OtherUnits(k, t, p, k.twd);
    OtherUnits(k, t, p, k.idle);
    BestIsTask(k, KERNEL_UNIT, 0);
    BestIsTask(k, k.twd, 0);
    assert r.tcb == k.tcb[t := k.tcb[t].(pri := p)];
  }

  lemma RaisedIsBest(k: K, t: TaskId, p: Pri)
    requires Inv(k, TIGHT) && IsTask(k, t) && k.tcb[t].stat.Runnable? && p < k.tcb[t].pri
    requires Best(k, k.cfg.unitOf[t]) == Some(t)
    ensures Best(ChangePriority(k, t, p, true), k.cfg.unitOf[t]) == Some(t)
  {
    hide TaskOk, CfgOk, QueueOk, NoDup, BestFrom;
    var u := k.cfg.unitOf[t];
    var r := ChangePriority(k, t, p, true);
    NothingBetter(k, u, 0, t);
    assert forall i :: 0 <= i < p ==> r.queues[Ready(u, i)] == k.queues[Ready(u, i)];
    BestAt(r, u, 0, p);
  }

  lemma OtherUnits(k: K, t: TaskId, p: Pri, u: UnitId)
    requires Shape(k) && IsTask(k, t) && k.tcb[t].stat.Runnable? && p < TNUM_TPRI && u < k.cfg.units
    ensures u != k.cfg.unitOf[t] ==> Best(ChangePriority(k, t, p, true), u) == Best(k, u)
  {
    if u != k.cfg.unitOf[t] {
      BestSame(k, ChangePriority(k, t, p, true), u, 0);
    }
  }

  /** The assertion in loc_mtx and ploc_mtx: acquiring a mutex, ceiling or not, never makes a
      dispatch necessary. */
  lemma LockNeedsNoDispatch(k: K, t: TaskId, m: WobjId)
    requires Settled(k) && k.run == Some(t) && k.dsp && IsMutex(k.cfg, m)
    ensures Choice(MutexAcquire(k, t, m)) == Some(t)
  {
    hide QueueShape;
    var k1 := SetHeld(SetOwner(k, m, Some(t)), t, k.held[t] + [m]);
    var c := Ceiling(k.cfg, m);
    if c.Some? && c.value < k.tcb[t].pri {
      RaisedStaysChosen(k, t, c.value);
      ChoiceSame(ChangePriority(k, t, c.value, true), ChangePriority(k1, t, c.value, true));
    } else {
      ChoiceSame(k, k1);
    }
  }

  lemma AcquireInv(k: K, t: TaskId, m: WobjId)
    requires Settled(k) && k.run == Some(t) && IsMutex(k.cfg, m) && k.owner[m] == None
    requires Ceiling(k.cfg, m).Some? ==> Ceiling(k.cfg, m).value <= k.tcb[t].bpri
    ensures Settled(MutexAcquire(k, t, m))
  {
    hide QueueOk, TaskOk;
    MutexAcquireInv(k, TIGHT, t, m);
    if k.dsp { LockNeedsNoDispatch(k, t, m); }
  }

  lemma LocMtxInv(k: K, t: TaskId, m: WobjId, tmo: Tmo)
    requires Settled(k) && k.run == Some(t) && IsMutex(k.cfg, m)
    ensures Settled(LocMtxStep(k, t, m, tmo).0) && Settled(PlocMtxStep(k, t, m).0)
  {
    hide QueueOk, TaskOk;
    if !(Ceiling(k.cfg, m).Some? && k.tcb[t].bpri < Ceiling(k.cfg, m).value) {
      if k.owner[m] == None {
        AcquireInv(k, t, m);
      } else if k.dsp && k.owner[m] != Some(t) {
        WobjWaitStep(k, t, m, tmo.Timed?);
      }
    }
  }

  lemma UnlMtxInv(k: K, t: TaskId, m: WobjId)
    requires Settled(k) && k.run == Some(t) && IsMutex(k.cfg, m)
    ensures Settled(UnlMtxStep(k, t, m).0)
  {
    var ms := k.held[t];
    if ms != [] && ms[|ms| - 1] == m {
      assert TaskOk(k, TIGHT, t);
      PopInv(k, TIGHT, t);
      var k1 := PopHeld(k, t);
      var s := Stale(Free(TIGHT, m), t);
      UnlMtxRest(k, k1, t, m, ms, |ms| - 1);
    }
  }

  /** What follows once `m` is out of the chain of `t`: the priority drops, a waiter may take over. */
  lemma UnlMtxRest(k: K, k1: K, t: TaskId, m: WobjId, ms: seq<WobjId>, n: nat)
    requires Inv(k1, Stale(Free(TIGHT, m), t)) && IsTask(k1, t) && IsMutex(k1.cfg, m) && k1.tcb[t].stat.Runnable?
    requires k1.run.Some? ==> k1.tcb[k1.run.value].stat.Runnable?
    requires n < |ms| && ms[n] == m && k1.held[t] == ms[..n] + ms[n + 1..]
    requires k1.tcb[t].pri == MinCeiling(k1.cfg, k1.tcb[t].bpri, ms)
    ensures Settled(Dispatch(MutexRelease(MutexDropPriority(k1, t, m), m)))
  {
    hide QueueOk, TaskOk, MutexDropPriority, MutexRelease;
    MutexDropPriorityInv(k1, Stale(Free(TIGHT, m), t), t, ms, n);
    var k2 := MutexDropPriority(k1, t, m);
    assert Fresh(Stale(Free(TIGHT, m), t), t) == Free(TIGHT, m);
    MutexReleaseInv(k2, Free(TIGHT, m), m);
    assert Taken(Free(TIGHT, m), m) == TIGHT;
    DispatchInv(MutexRelease(k2, m));
  }

  lemma IniMtxInv(k: K, m: WobjId)
    requires Settled(k) && IsMutex(k.cfg, m)
    ensures Settled(IniMtxStep(k, m).0)
  {
    hide QueueOk, TaskOk, InitWaitQueue;
    InitWaitQueueInv(k, TIGHT, m);
    var k1 := InitWaitQueue(k, m);
    if k.owner[m].Some? {
      ReclaimInv(k1, m, k.owner[m].value);
    } else {
      DispatchInv(k1);
    }
  }

  /** ini_mtx takes the mutex out of the middle of its owner's chain. */
  lemma ReclaimReady(k: K, m: WobjId, t: TaskId) returns (n: nat)
    requires Inv(k, TIGHT) && IsTask(k, t) && IsMutex(k.cfg, m) && k.owner[m] == Some(t) && Q(k, WaitQ(m)) == []
    ensures n < |k.held[t]| && k.held[t][n] == m && !k.tcb[t].stat.Dormant?
    ensures Remove(k.held[t], m) == k.held[t][..n] + k.held[t][n + 1..]
    ensures forall x :: x in Remove(k.held[t], m) ==> IsMutex(k.cfg, x)
    ensures k.tcb[t].pri == MinCeiling(k.cfg, k.tcb[t].bpri, k.held[t])
    ensures Inv(SetHeld(SetOwner(k, m, None), t, Remove(k.held[t], m)), Stale(TIGHT, t))
  {
    assert TaskOk(k, TIGHT, t);
    var ms := k.held[t];
    n := RemoveCuts(ms, m);
    DropInv(k, TIGHT, t, n);
    var s := Stale(Free(TIGHT, m), t);
    var k1 := SetHeld(k, t, ms[..n] + ms[n + 1..]);
    DisownInv(k1, s, m);
    var k2 := SetOwner(k1, m, None);
    assert k2 == SetHeld(SetOwner(k, m, None), t, Remove(ms, m));
    assert Taken(s, m) == Stale(TIGHT, t);
  }

  lemma ReclaimInv(k: K, m: WobjId, t: TaskId)
    requires Inv(k, TIGHT) && IsTask(k, t) && IsMutex(k.cfg, m) && k.owner[m] == Some(t) && Q(k, WaitQ(m)) == []
    requires k.run.Some? ==> k.tcb[k.run.value].stat.Runnable?
    requires forall x :: x in Remove(k.held[t], m) ==> IsMutex(k.cfg, x)
    ensures Settled(Dispatch(MutexDropPriority(SetHeld(SetOwner(k, m, None), t, Remove(k.held[t], m)), t, m)))
  {
    hide QueueOk, TaskOk, MutexDropPriority;
    var n := ReclaimReady(k, m, t);
    var k2 := SetHeld(SetOwner(k, m, None), t, Remove(k.held[t], m));
    MutexDropPriorityInv(k2, Stale(TIGHT, t), t, k.held[t], n);
    assert Fresh(Stale(TIGHT, t), t) == TIGHT;
    DispatchInv(MutexDropPriority(k2, t, m));
  }

  // ---------------------------------------------------------------- semaphores, objects, timeouts

  lemma SemInv(k: K, s: Slack, q: WobjId, n: nat)
    requires Inv(k, s) && IsSem(k.cfg, q) && n <= k.cfg.wobj[q].kind.maxsem
    requires n == 0 || k.queues[WaitQ(q)] == []
    ensures Inv(SetSem(k, q, n), s)
  {
    SemsOk(k, s);
    SameTasks(k, SetSem(k, q, n), s);
  }

  lemma WaiSemInv(k: K, t: TaskId, q: WobjId, tmo: Tmo)
    requires Settled(k) && k.run == Some(t) && IsSem(k.cfg, q)
    ensures Settled(WaiSemStep(k, t, q, tmo).0)
  {
    hide QueueOk, TaskOk, QueueShape, TaskShape, CfgOk, WobjMakeWait;
    SemsOk(k, TIGHT);
    if k.semcnt[q] >= 1 {
      SemInv(k, TIGHT, q, k.semcnt[q] - 1);
      QuietStep(k, SetSem(k, q, k.semcnt[q] - 1));
    } else if k.dsp {
      WobjWaitStep(k, t, q, tmo.Timed?);
    }
  }

  lemma SigSemInv(k: K, q: WobjId)
    requires Settled(k) && IsSem(k.cfg, q)
    ensures Settled(SigSemStep(k, q).0)
  {
    hide QueueOk, TaskOk, WakeFirst;
    if k.queues[WaitQ(q)] != [] {
      WakeFirstInv(k, TIGHT, q, E_OK);
      DispatchInv(WakeFirst(k, q, E_OK));
    } else if k.semcnt[q] < k.cfg.wobj[q].kind.maxsem {
      SemInv(k, TIGHT, q, k.semcnt[q] + 1);
      QuietStep(k, SetSem(k, q, k.semcnt[q] + 1));
    }
  }

  lemma IniSemInv(k: K, q: WobjId)
    requires Settled(k) && IsSem(k.cfg, q)
    ensures Settled(IniSemStep(k, q).0)
  {
    hide QueueOk, TaskOk, InitWaitQueue;
    InitWaitQueueInv(k, TIGHT, q);
    var k1 := InitWaitQueue(k, q);
    SemInv(k1, TIGHT, q, k.cfg.wobj[q].kind.isemcnt);
    DispatchInv(SetSem(k1, q, k.cfg.wobj[q].kind.isemcnt));
  }

  lemma ObjInitInv(k: K, q: WobjId)
    requires Settled(k) && IsOther(k.cfg, q)
    ensures Settled(Dispatch(InitWaitQueue(k, q)))
  {
    hide QueueOk, TaskOk, InitWaitQueue;
    InitWaitQueueInv(k, TIGHT, q);
    DispatchInv(InitWaitQueue(k, q));
  }

  lemma ObjWakeInv(k: K, q: WobjId, i: nat)
    requires Settled(k) && IsOther(k.cfg, q)
    ensures Settled(ObjWakeStep(k, q, i).0)
  {
    hide TaskShape, CfgOk, NoDup;
    var s := k.queues[WaitQ(q)];
    if i < |s| {
      assert QueueOk(k, TIGHT, WaitQ(q));
      var t := s[i];
      assert TaskOk(k, TIGHT, t);
      hide QueueOk, TaskOk;
      LeaveInv(k, TIGHT, t);
      WaitEndInv(Leave(k, t), Out(TIGHT, t), t, E_OK);
      assert In(Out(TIGHT, t), t) == TIGHT;
      DispatchInv(WaitEnd(Leave(k, t), t, E_OK));
    }
  }

  function Untimed(k: K, t: TaskId): (r: K)
    requires Shape(k)
    ensures Shape(r)
  {
    SetTimed(k, k.timed - {t})
  }

  lemma WakeCommutes(k: K, q: WobjId, t: TaskId)
    requires Shape(k) && q < |k.cfg.wobj| && Q(k, WaitQ(q)) != []
    ensures Q(Untimed(k, t), WaitQ(q)) == Q(k, WaitQ(q))
    ensures WakeFirst(Untimed(k, t), q, E_OK) == Untimed(WakeFirst(k, q, E_OK), t)
  {
    hide TaskShape, CfgOk, MakeNonWait;
    var u := Q(k, WaitQ(q))[0];
    var k1 := SetQ(k, WaitQ(q), Q(k, WaitQ(q))[1..]);
    assert k.timed - {t} - {u} == k.timed - {u} - {t};
    assert SetQ(Untimed(k, t), WaitQ(q), Q(k, WaitQ(q))[1..]) == Untimed(k1, t);
    var k2 := SetWercd(DequeueTmevtb(k1, u), u, E_OK);
    assert SetWercd(DequeueTmevtb(Untimed(k1, t), u), u, E_OK) == Untimed(k2, t);
    NonWaitCommutes(k2, u, t);
  }

  lemma NonWaitCommutes(k: K, u: TaskId, t: TaskId)
    requires Shape(k) && IsTask(k, u)
    ensures MakeNonWait(Untimed(k, t), u) == Untimed(MakeNonWait(k, u), t)
  {
  }

  /** Taking the block off the heap before or after the senders behind it are served is the same. */
  lemma {:induction false} TimedCommutes(k: K, q: WobjId, n: nat, t: TaskId)
    requires Shape(k) && q < |k.cfg.wobj|
    ensures MbfSignal(Untimed(k, t), q, n) == Untimed(MbfSignal(k, q, n), t)
    decreases n
  {
    hide WakeFirst, QueueShape, TaskShape, CfgOk;
    if n != 0 && Q(k, WaitQ(q)) != [] {
      WakeCommutes(k, q, t);
      TimedCommutes(WakeFirst(k, q, E_OK), q, n - 1, t);
    }
  }

  /** A timeout ends the wait as any other release does, with its own result. */
  lemma ExpireIs(k: K, t: TaskId, n: nat)
    requires Inv(k, TIGHT) && IsTask(k, t) && t in k.timed
    ensures k.tcb[t].stat.Waiting? && k.tcb[t].stat.tmo
    ensures Expire(k, t, n) == WaitEnd(WaitDequeueWobj(k, t, n), t, if k.tcb[t].stat.cause.Delayed? then E_OK else E_TMOUT)
  {
    hide CfgOk, QueueOk;
    assert TaskOk(k, TIGHT, t);
    WaitDequeueWobjInv(k, TIGHT, t, n);
    var e := if k.tcb[t].stat.cause.Delayed? then E_OK else E_TMOUT;
    var k1 := WaitDequeueWobj(k, t, n);
    var k2 := WaitDequeueWobj(Untimed(k, t), t, n);
    hide QueueOk, TaskOk;
    assert k1.tcb[t] == k.tcb[t];
    if k.tcb[t].stat.cause.OnQueue? {
      var q := k.tcb[t].stat.cause.q;
      TimedCommutes(Unlink(k, WaitQ(q), t), q, n, t);
    }
    assert k2 == SetTimed(k1, k1.timed - {t});
    assert SetWercd(k2, t, e) == SetWercd(DequeueTmevtb(k1, t), t, e);
  }

  lemma TimeoutInv(k: K, t: TaskId, n: nat)
    requires Settled(k) && IsTask(k, t) && t in k.timed
    ensures Settled(Dispatch(Expire(k, t, n)))
  {
    hide QueueOk, TaskOk, Expire;
    ExpireIs(k, t, n);
    var e := if k.tcb[t].stat.cause.Delayed? then E_OK else E_TMOUT;
    ForcedEndInv(k, TIGHT, t, n, e);
    DispatchInv(Expire(k, t, n));
  }

  lemma WindowInv(k: K, dsp: bool, twd: UnitId, idle: UnitId)
    requires Settled(k) && twd < k.cfg.units && idle < k.cfg.units
    ensures Inv(k.(dsp := dsp, twd := twd, idle := idle), TIGHT)
  {
    SemsOk(k, TIGHT);
    SameTasks(k, k.(dsp := dsp, twd := twd, idle := idle), TIGHT);
  }

  lemma SlpTskInv(k: K, t: TaskId, tmo: Tmo)
    requires Settled(k) && k.run == Some(t)
    ensures Settled(SlpTskStep(k, t, tmo).0)
  {
    hide QueueOk, TaskOk;
    FlagStep(k, t, k.tcb[t].(wupque := false));
    if k.dsp { WaitStep(k, t, Sleeping, tmo.Timed?); }
  }

  lemma DlyTskInv(k: K, t: TaskId)
    requires Settled(k) && k.run == Some(t)
    ensures Settled(DlyTskStep(k, t).0)
  {
    hide QueueOk, TaskOk;
    if k.dsp { WaitStep(k, t, Delayed, true); }
  }

  lemma ObjWaitInv(k: K, t: TaskId, q: WobjId, tmo: Tmo)
    requires Settled(k) && k.run == Some(t) && IsOther(k.cfg, q)
    ensures Settled(ObjWaitStep(k, t, q, tmo).0)
  {
    hide QueueOk, TaskOk;
    if k.dsp { WobjWaitStep(k, t, q, tmo.Timed?); }
  }

  lemma ExtTskInv(k: K, t: TaskId, twd: UnitId, idle: UnitId)
    requires Settled(k) && k.run == Some(t) && twd < k.cfg.units && idle < k.cfg.units
    ensures Settled(ExtTskStep(k, t, twd, idle).0)
  {
    hide QueueOk, TaskOk, TaskTerminate;
    WindowInv(k, true, twd, idle);
    TerminateStep(if k.dsp then k else SetDspflg(k, twd, idle), t, 0);
  }

  lemma EnaDspInv(k: K, t: TaskId, twd: UnitId, idle: UnitId)
    requires Settled(k) && k.run == Some(t) && twd < k.cfg.units && idle < k.cfg.units
    ensures Settled(EnaDspStep(k, t, twd, idle).0)
  {
    hide QueueOk, TaskOk, TaskTerminate;
    if k.tcb[t].raster && k.tcb[t].enater {
      WindowInv(k, true, twd, idle);
      TerminateStep(SetDspflg(k, twd, idle), t, 0);
    } else {
      WindowStep(k, true, twd, idle);
    }
  }

  lemma EnaTerInv(k: K, t: TaskId)
    requires Settled(k) && k.run == Some(t)
    ensures Settled(EnaTerStep(k, t).0)
  {
    hide QueueOk, TaskOk, TaskTerminate;
    if k.tcb[t].raster && k.dsp { TerminateStep(k, t, 0); }
    else { FlagStep(k, t, k.tcb[t].(enater := true)); }
  }

  lemma TerTskInv(k: K, t: TaskId, n: nat)
    requires Settled(k) && IsTask(k, t)
    ensures Settled(TerTskStep(k, t, n).0)
  {
    hide QueueOk, TaskOk, TaskTerminate;
    if k.run != Some(t) && !k.tcb[t].stat.Dormant? { TerminateStep(k, t, n); }
  }

  /** Switching windows and enabling or disabling dispatching. */
  lemma WindowStep(k: K, dsp: bool, twd: UnitId, idle: UnitId)
    requires Settled(k) && twd < k.cfg.units && idle < k.cfg.units
    ensures Settled(Dispatch(k.(dsp := dsp, twd := twd, idle := idle)))
    ensures Settled(k.(dsp := false))
  {
    hide QueueOk, TaskOk;
    WindowInv(k, dsp, twd, idle);
    WindowInv(k, false, k.twd, k.idle);
    DispatchInv(k.(dsp := dsp, twd := twd, idle := idle));
  }
}
