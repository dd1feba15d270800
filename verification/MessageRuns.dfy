/**
 Joint runs of the kernel and a message buffer: the buffer's queues are the kernel's wait queues after every
 call, whether it is one of the buffer's own or one that ends a wait or changes a priority.
 */
module MessageRuns {
  import opened Base
  import opened KernelState
  import opened KernelInvariant
  import opened KernelProofs
  import opened KernelCalls
  import opened KernelRuns
  import opened KernelTheorems
  import opened WaitQueue
  import opened MessageTasks

  // ---------------------------------------------------------------- wait queues a move leaves alone

  /** The queue is the same. */
  ghost predicate SameQueue(k: K, r: K, q: WobjId)
    requires Shape(k) && q < |k.cfg.wobj|
  {
    Shape(r) && r.cfg == k.cfg && |r.tcb| == |k.tcb| && Q(r, WaitQ(q)) == Q(k, WaitQ(q))
  }

  /** And so are the priorities of its tasks. */
  ghost predicate Still(k: K, r: K, q: WobjId)
    requires Shape(k) && q < |k.cfg.wobj|
  {
    && SameQueue(k, r, q)
    && forall u {:trigger r.tcb[u]} :: 0 <= u < |k.tcb| && u in Q(k, WaitQ(q)) ==> r.tcb[u].pri == k.tcb[u].pri
  }

  lemma StillAgain(k: K, r: K, u: K, q: WobjId)
    requires Shape(k) && q < |k.cfg.wobj| && Still(k, r, q) && Still(r, u, q)
    ensures Still(k, u, q)
  {
    hide Shape, Q;
  }

  lemma StillRecord(k: K, t: TaskId, r: Tcb, q: WobjId)
    requires Shape(k) && q < |k.cfg.wobj| && IsTask(k, t) && TcbShape(k.cfg, r)
    requires r.pri == k.tcb[t].pri || t !in Q(k, WaitQ(q))
    ensures Still(k, SetTcb(k, t, r), q)
  {
  }

  lemma StillReady(k: K, t: TaskId, q: WobjId)
    requires Shape(k) && q < |k.cfg.wobj| && IsTask(k, t)
    ensures Still(k, MakeRunnable(k, t), q) && Still(k, MakeNonRunnable(k, t), q) && Still(k, MakeActive(k, t), q)
  {
    hide TaskShape, CfgOk;
  }

  lemma StillMarked(k: K, t: TaskId, e: Ercd, q: WobjId)
    requires Shape(k) && q < |k.cfg.wobj| && IsTask(k, t)
    ensures Still(k, DequeueTmevtb(k, t), q) && Still(k, SetWercd(DequeueTmevtb(k, t), t, e), q)
    ensures Still(k, SetWercd(k, t, e), q)
  {
    hide TaskShape, CfgOk;
  }

  lemma StillNonWait(k: K, t: TaskId, q: WobjId)
    requires Shape(k) && q < |k.cfg.wobj| && IsTask(k, t)
    ensures Still(k, MakeNonWait(k, t), q)
  {
    hide TaskShape, CfgOk;
  }

  lemma StillEnd(k: K, t: TaskId, e: Ercd, q: WobjId)
    requires Shape(k) && q < |k.cfg.wobj| && IsTask(k, t)
    ensures Still(k, WaitEnd(k, t, e), q)
  {
    hide MakeNonWait, DequeueTmevtb, Still, QueueShape, TaskShape, CfgOk;
    var k1 := SetWercd(DequeueTmevtb(k, t), t, e);
    StillMarked(k, t, e, q);
    StillFacts(k, k1, q);
    StillNonWait(k1, t, q);
    StillAgain(k, k1, WaitEnd(k, t, e), q);
  }

  lemma StillUnlinked(k: K, t: TaskId, h: WobjId, q: WobjId)
    requires Shape(k) && q < |k.cfg.wobj| && h < |k.cfg.wobj| && h != q
    ensures Still(k, Unlink(k, WaitQ(h), t), q)
  {
    hide TaskShape, CfgOk;
  }

  lemma StillWoken(k: K, h: WobjId, e: Ercd, q: WobjId)
    requires Shape(k) && q < |k.cfg.wobj| && h < |k.cfg.wobj| && h != q && Q(k, WaitQ(h)) != []
    ensures Still(k, WakeFirst(k, h, e), q)
  {
    hide WaitEnd, TaskShape, CfgOk;
    var k1 := SetQ(k, WaitQ(h), Q(k, WaitQ(h))[1..]);
    StillEnd(k1, Q(k, WaitQ(h))[0], e, q);
  }

  lemma WokenRest(k: K, h: WobjId, e: Ercd)
    requires Shape(k) && h < |k.cfg.wobj| && Q(k, WaitQ(h)) != []
    ensures var r := WakeFirst(k, h, e); Shape(r) && r.cfg == k.cfg && Q(r, WaitQ(h)) == Q(k, WaitQ(h))[1..]
  {
  }

  lemma {:induction false} StillSignalled(k: K, h: WobjId, n: nat, q: WobjId)
    requires Shape(k) && q < |k.cfg.wobj| && h < |k.cfg.wobj| && h != q
    ensures Still(k, MbfSignal(k, h, n), q)
    decreases n
  {
    hide WakeFirst, Shape, Q;
    if n > 0 && Q(k, WaitQ(h)) != [] {
      var r := WakeFirst(k, h, E_OK);
      WokenRest(k, h, E_OK);
      StillWoken(k, h, E_OK, q);
      StillSignalled(r, h, n - 1, q);
      StillAgain(k, r, MbfSignal(k, h, n), q);
    }
  }

  lemma {:induction false} StillReleased(k: K, h: WobjId, q: WobjId)
    requires Shape(k) && q < |k.cfg.wobj| && h < |k.cfg.wobj| && h != q
    ensures Still(k, InitWaitQueue(k, h), q)
    decreases |Q(k, WaitQ(h))|
  {
    hide WakeFirst, Shape, Q;
    if Q(k, WaitQ(h)) != [] {
      var r := WakeFirst(k, h, E_DLT);
      WokenRest(k, h, E_DLT);
      StillWoken(k, h, E_DLT, q);
      StillReleased(r, h, q);
      StillAgain(k, r, InitWaitQueue(k, h), q);
    }
  }

  lemma StillDequeued(k: K, t: TaskId, n: nat, q: WobjId)
    requires Shape(k) && q < |k.cfg.wobj| && IsTask(k, t) && !WaitsOn(k.tcb[t].stat, q)
    ensures Still(k, WaitDequeueWobj(k, t, n), q)
  {
    hide MbfSignal, Still, QueueShape, CfgOk;
    StillSelf(k, q);
    if k.tcb[t].stat.Waiting? && k.tcb[t].stat.cause.OnQueue? {
      var h := k.tcb[t].stat.cause.q;
      StillUnlinked(k, t, h, q);
      StillSignalled(Unlink(k, WaitQ(h), t), h, n, q);
      StillAgain(k, Unlink(k, WaitQ(h), t), MbfSignal(Unlink(k, WaitQ(h), t), h, n), q);
    }
  }

  lemma StillSelf(k: K, q: WobjId)
    requires Shape(k) && q < |k.cfg.wobj|
    ensures Still(k, k, q)
  {
  }

  lemma StillWaiting(k: K, t: TaskId, c: Cause, tmo: bool, q: WobjId)
    requires Shape(k) && q < |k.cfg.wobj| && IsTask(k, t) && ValidCause(k.cfg, Waiting(c, false, tmo))
    ensures Still(k, MakeWait(k, t, c, tmo), q)
    ensures c.OnQueue? && c.q != q ==> Still(k, WobjMakeWait(k, t, c.q, tmo), q)
  {
    hide TaskShape, CfgOk, QueueShape;
  }

  lemma StillMoved(k: K, t: TaskId, p: Pri, mtxmode: bool, q: WobjId)
    requires Shape(k) && q < |k.cfg.wobj| && IsTask(k, t) && p < TNUM_TPRI && !WaitsOn(k.tcb[t].stat, q)
    requires t !in Q(k, WaitQ(q))
    ensures Still(k, ChangePriority(k, t, p, mtxmode), q)
  {
    hide TaskShape, CfgOk;
  }

  lemma StillMutex(k: K, t: TaskId, m: WobjId, q: WobjId)
    requires Shape(k) && q < |k.cfg.wobj| && IsTask(k, t) && IsMutex(k.cfg, m) && !WaitsOn(k.tcb[t].stat, q)
    requires t !in Q(k, WaitQ(q))
    ensures Still(k, MutexAcquire(k, t, m), q) && Still(k, MutexDropPriority(k, t, m), q)
  {
    hide ChangePriority, QueueShape;
    var c, newpri := Ceiling(k.cfg, m), MinCeiling(k.cfg, k.tcb[t].bpri, k.held[t]);
    var k1 := SetHeld(SetOwner(k, m, Some(t)), t, k.held[t] + [m]);
    if c.Some? && c.value < k.tcb[t].pri { StillMoved(k1, t, c.value, true, q); }
    StillMoved(k, t, newpri, true, q);
  }

  lemma StillHandedOver(k: K, m: WobjId, t: TaskId, q: WobjId)
    requires Shape(k) && q < |k.cfg.wobj| && IsMutex(k.cfg, m) && q != m && Apart(k, q, t)
    ensures Still(k, MutexRelease(k, m), q) && Apart(MutexRelease(k, m), q, t)
  {
    hide MutexRelease, Q, Shape;
    HandOverKeeps(k, q, m);
    HandOverShrinks(k, m);
    ApartStays(k, MutexRelease(k, m), q, t);
  }

  lemma {:induction false} StillAfterAll(k: K, t: TaskId, n: nat, q: WobjId)
    requires Shape(k) && q < |k.cfg.wobj| && !k.cfg.wobj[q].kind.Mutex? && IsTask(k, t) && Apart(k, q, t)
    ensures Still(k, MutexReleaseAll(k, t, n), q)
    decreases n
  {
    hide MutexRelease, Still, Apart, QueueShape, CfgOk;
    StillSelf(k, q);
    if n > 0 && k.held[t] != [] {
      var k1, m := PopHeld(k, t), k.held[t][|k.held[t]| - 1];
      StillPopped(k, t, q);
      StillHandedOver(k1, m, t, q);
      StillAgain(k, k1, MutexRelease(k1, m), q);
      StillFacts(k, MutexRelease(k1, m), q);
      StillAfterAll(MutexRelease(k1, m), t, n - 1, q);
      StillAgain(k, MutexRelease(k1, m), MutexReleaseAll(k, t, n), q);
    }
  }

  lemma StillFacts(k: K, r: K, q: WobjId)
    requires Shape(k) && q < |k.cfg.wobj| && Still(k, r, q)
    ensures Shape(r) && r.cfg == k.cfg && |r.tcb| == |k.tcb| && Q(r, WaitQ(q)) == Q(k, WaitQ(q))
  {
  }

  lemma StillPopped(k: K, t: TaskId, q: WobjId)
    requires Shape(k) && q < |k.cfg.wobj| && IsTask(k, t) && k.held[t] != [] && Apart(k, q, t)
    ensures Still(k, PopHeld(k, t), q) && Apart(PopHeld(k, t), q, t)
  {
    ApartStays(k, PopHeld(k, t), q, t);
  }

  lemma StillDormant(k: K, t: TaskId, q: WobjId)
    requires Shape(k) && q < |k.cfg.wobj| && IsTask(k, t) && t !in Q(k, WaitQ(q))
    ensures var r := MakeDormant(k, t);
            Still(k, if r.tcb[t].actque then MakeActive(SetTcb(r, t, r.tcb[t].(actque := false)), t) else r, q)
  {
    hide CfgOk;
  }

  // ---------------------------------------------------------------- calls that have nothing to do with a queue

  /** A queue of a message buffer's senders or receivers. */
  predicate OfBuffer(c: Cfg, q: WobjId) { q < |c.wobj| && (c.wobj[q].kind.MbfSender? || c.wobj[q].kind.Receiver?) }

  /** Only the tasks that wait on the queue are in it, so no task that waits for a mutex is. */
  lemma OnlyWaiters(k: K, q: WobjId, t: TaskId)
    requires Inv(k, TIGHT) && OfBuffer(k.cfg, q) && IsTask(k, t)
    ensures Shape(k) && (t in Q(k, WaitQ(q)) <==> WaitsOn(k.tcb[t].stat, q))
    ensures t !in Q(k, WaitQ(q)) ==> Apart(k, q, t)
  {
    assert QueueOk(k, TIGHT, WaitQ(q));
    assert TaskOk(k, TIGHT, t);
    forall m: WobjId, x {:trigger x in Q(k, WaitQ(m))} | IsMutex(k.cfg, m) && x in Q(k, WaitQ(m)) ensures x !in Q(k, WaitQ(q)) {
      assert QueueOk(k, TIGHT, WaitQ(m));
    }
  }

  lemma StillTerminated(k: K, t: TaskId, n: nat, q: WobjId)
    requires Inv(k, TIGHT) && OfBuffer(k.cfg, q) && IsTask(k, t)
    ensures Shape(k) && (t !in Q(k, WaitQ(q)) ==> Still(k, TaskTerminate(k, t, n), q))
  {
    hide WaitDequeueWobj, DequeueTmevtb, MutexReleaseAll, MakeDormant, MakeActive, MakeNonRunnable, Still, Apart, QueueOk, TaskOk, Q, CfgOk,
      QueueShape;
    OnlyWaiters(k, q, t);
    if t !in Q(k, WaitQ(q)) {
      var k1 := Stopped(k, t, n, q);
      var k2 := MutexReleaseAll(k1, t, |k1.held[t]|);
      StillFacts(k, k1, q);
      StillAfterAll(k1, t, |k1.held[t]|, q);
      StillFacts(k1, k2, q);
      StillAgain(k, k1, k2, q);
      StillDormant(k2, t, q);
      StillAgain(k, k2, TaskTerminate(k, t, n), q);
    }
  }

  /** The first part of a termination. */
  lemma Stopped(k: K, t: TaskId, n: nat, q: WobjId) returns (r: K)
    requires Shape(k) && q < |k.cfg.wobj| && IsTask(k, t) && !WaitsOn(k.tcb[t].stat, q) && Apart(k, q, t)
    ensures r == if k.tcb[t].stat.Runnable? then MakeNonRunnable(k, t)
                 else if k.tcb[t].stat.Waiting? then DequeueTmevtb(WaitDequeueWobj(k, t, n), t)
                 else k
    ensures Shape(r) && IsTask(r, t) && |r.held| == |r.tcb| && r.cfg == k.cfg && Still(k, r, q) && Apart(r, q, t)
  {
    hide WaitDequeueWobj, DequeueTmevtb, MakeNonRunnable, Still, Apart, Q, QueueShape, TaskShape, CfgOk;
    var d := WaitDequeueWobj(k, t, n);
    r := if k.tcb[t].stat.Runnable? then MakeNonRunnable(k, t) else if k.tcb[t].stat.Waiting? then DequeueTmevtb(d, t) else k;
    StillSelf(k, q);
    StillReady(k, t, q);
    StillDequeued(k, t, n, q);
    StillFacts(k, d, q);
    StillMarked(d, t, E_OK, q);
    StillAgain(k, d, DequeueTmevtb(d, t), q);
    StillFacts(k, r, q);
    StoppedShrinks(k, t, n);
    ApartStays(k, r, q, t);
  }

  lemma ShrinksOn(k: K, r: K, u: K)
    requires Shrinks(k, r) && Shrinks(r, u)
    ensures Shrinks(k, u)
  {
    hide Q, Shape;
  }

  lemma UnlinkShrinks(k: K, h: Home, t: TaskId)
    requires Shape(k) && ValidHome(k.cfg, h)
    ensures Shrinks(k, k) && Shrinks(k, Unlink(k, h, t))
  {
    hide TaskShape, CfgOk;
  }

  lemma UntimedShrinks(k: K, t: TaskId)
    requires Shape(k) && IsTask(k, t)
    ensures Shrinks(k, DequeueTmevtb(k, t)) && Shrinks(k, k)
  {
    hide TaskShape, CfgOk;
  }

  lemma StoppedShrinks(k: K, t: TaskId, n: nat)
    requires Shape(k) && IsTask(k, t)
    ensures Shrinks(k, k) && Shrinks(k, MakeNonRunnable(k, t)) && Shrinks(k, DequeueTmevtb(WaitDequeueWobj(k, t, n), t))
  {
    hide MbfSignal, Unlink, DequeueTmevtb, Shrinks, QueueShape, TaskShape;
    UntimedShrinks(k, t);
    CauseKnown(k, t);
    UnlinkShrinks(k, ReadyQ(k, t, k.tcb[t].pri), t);
    var d := WaitDequeueWobj(k, t, n);
    if k.tcb[t].stat.Waiting? && k.tcb[t].stat.cause.OnQueue? {
      var h := k.tcb[t].stat.cause.q;
      UnlinkShrinks(k, WaitQ(h), t);
      Unlinked(k, WaitQ(h), t);
      SignalShrinks(Unlink(k, WaitQ(h), t), h, n);
      ShrinksOn(k, Unlink(k, WaitQ(h), t), MbfSignal(Unlink(k, WaitQ(h), t), h, n));
    }
    Sizes(k, t, n);
    UntimedShrinks(d, t);
    ShrinksOn(k, d, DequeueTmevtb(d, t));
  }

  lemma Unlinked(k: K, h: Home, t: TaskId)
    requires Shape(k) && ValidHome(k.cfg, h)
    ensures Shape(Unlink(k, h, t)) && Unlink(k, h, t).cfg == k.cfg
  {
  }

  lemma CauseKnown(k: K, t: TaskId)
    requires Shape(k) && IsTask(k, t)
    ensures k.tcb[t].stat.Waiting? && k.tcb[t].stat.cause.OnQueue? ==> k.tcb[t].stat.cause.q < |k.cfg.wobj|
    ensures ValidHome(k.cfg, ReadyQ(k, t, k.tcb[t].pri))
  {
  }

  /** Calls that end the wait of their task, if it waits. */
  predicate EndsWait(c: Call) { c.RelWai? || c.RasTer? || c.TerTsk? || c.Timeout? }

  /** The call has nothing to do with the queue: its task is not in it, and its object is another one. */
  ghost predicate Away(k: K, c: Call, q: WobjId)
    requires Shape(k) && Callable(k, c) && q < |k.cfg.wobj|
  {
    match c
    case ChgPri(t, _) => t !in Q(k, WaitQ(q))
    case RelWai(t, _) => t !in Q(k, WaitQ(q))
    case RasTer(t, _) => t !in Q(k, WaitQ(q))
    case TerTsk(t, _) => t !in Q(k, WaitQ(q))
    case Timeout(t, _) => t !in Q(k, WaitQ(q))
    case IniMtx(m) => k.owner[m].Some? ==> k.owner[m].value !in Q(k, WaitQ(q))
    case ObjWait(h, _) => h != q
    case ObjWake(h, _) => h != q
    case ObjInit(h) => h != q
    case _ => true
  }

  lemma StillDispatched(k: K, r: K, q: WobjId)
    requires Shape(k) && q < |k.cfg.wobj| && Still(k, r, q)
    ensures Shape(r) && Shape(Dispatch(r)) && Still(k, Dispatch(r), q)
  {
    ChoiceKnown(r);
  }

  lemma ChoiceKnown(k: K)
    requires Shape(k)
    ensures Choice(k).Some? ==> IsTask(k, Choice(k).value)
  {
    BestIsTask(k, KERNEL_UNIT, 0);
    BestIsTask(k, k.twd, 0);
    BestIsTask(k, k.idle, 0);
  }

  /** The running task waits on nothing. */
  lemma RunningAway(k: K, q: WobjId)
    requires Settled(k) && OfBuffer(k.cfg, q) && k.run.Some?
    ensures Shape(k) && IsTask(k, k.run.value) && k.tcb[k.run.value].stat.Runnable? && k.run.value !in Q(k, WaitQ(q))
  {
    hide TaskOk;
    assert QueueOk(k, TIGHT, WaitQ(q));
  }

  lemma StillChgPri(k: K, t: TaskId, p: Option<Pri>, q: WobjId)
    requires Inv(k, TIGHT) && OfBuffer(k.cfg, q) && IsTask(k, t) && (p.Some? ==> p.value < TNUM_TPRI)
    ensures Shape(k) && (t !in Q(k, WaitQ(q)) ==> Still(k, ChgPriStep(k, t, p).0, q))
  {
    hide ChangePriority, CheckCeilpri, ScanCeilmtx, Dispatch, Still, QueueOk, TaskOk, Q, QueueShape;
    OnlyWaiters(k, q, t);
    if t !in Q(k, WaitQ(q)) {
      var b := if p.Some? then p.value else k.cfg.ipri[t];
      var k1 := SetTcb(k, t, k.tcb[t].(bpri := b));
      StillSelf(k, q);
      StillRecord(k, t, k.tcb[t].(bpri := b), q);
      StillFacts(k, k1, q);
      StillMoved(k1, t, b, false, q);
      StillAgain(k, k1, ChangePriority(k1, t, b, false), q);
      StillDispatched(k, ChangePriority(k1, t, b, false), q);
    }
  }

  lemma StillForced(k: K, t: TaskId, n: nat, e: Ercd, q: WobjId)
    requires Shape(k) && q < |k.cfg.wobj| && IsTask(k, t) && !WaitsOn(k.tcb[t].stat, q)
    ensures Still(k, WaitEnd(WaitDequeueWobj(k, t, n), t, e), q) && Still(k, RasterRelease(k, t, n), q)
  {
    hide WaitDequeueWobj, WaitEnd, DequeueTmevtb, Still, QueueShape, TaskShape, CfgOk;
    var d := WaitDequeueWobj(k, t, n);
    StillDequeued(k, t, n, q);
    StillFacts(k, d, q);
    StillEnd(d, t, e, q);
    StillAgain(k, d, WaitEnd(d, t, e), q);
    StillMarked(d, t, E_RASTER, q);
    var m := SetWercd(DequeueTmevtb(d, t), t, E_RASTER);
    StillAgain(k, d, m, q);
    StillSelf(k, q);
    var k1 := if k.tcb[t].stat.Waiting? then m else k;
    StillFacts(k, k1, q);
    StillResumed(k1, t, q);
    StillAgain(k, k1, RasterRelease(k, t, n), q);
  }

  lemma StillResumed(k: K, t: TaskId, q: WobjId)
    requires Shape(k) && q < |k.cfg.wobj| && IsTask(k, t)
    ensures Still(k, MakeRunnable(SetStat(k, t, Runnable), t), q)
  {
    hide TaskShape, CfgOk;
  }

  lemma StillExpired(k: K, t: TaskId, n: nat, q: WobjId)
    requires Shape(k) && q < |k.cfg.wobj| && IsTask(k, t) && !WaitsOn(k.tcb[t].stat, q)
    ensures Still(k, Expire(k, t, n), q)
  {
    hide WaitDequeueWobj, MakeNonWait, Still, QueueShape, TaskShape, CfgOk;
    var k1 := SetTimed(k, k.timed - {t});
    StillUntimed(k, t, q);
    StillFacts(k, k1, q);
    var d := WaitDequeueWobj(k1, t, n);
    StillDequeued(k1, t, n, q);
    StillAgain(k, k1, d, q);
    StillFacts(k, d, q);
    var e := if k.tcb[t].stat.Waiting? && k.tcb[t].stat.cause.Delayed? then SetWercd(k1, t, E_OK) else SetWercd(d, t, E_TMOUT);
    StillMarked(k1, t, E_OK, q);
    StillMarked(d, t, E_TMOUT, q);
    StillAgain(k, k1, SetWercd(k1, t, E_OK), q);
    StillAgain(k, d, SetWercd(d, t, E_TMOUT), q);
    StillFacts(k, e, q);
    StillNonWait(e, t, q);
    StillAgain(k, e, Expire(k, t, n), q);
  }

  lemma StillUntimed(k: K, t: TaskId, q: WobjId)
    requires Shape(k) && q < |k.cfg.wobj|
    ensures Still(k, SetTimed(k, k.timed - {t}), q)
  {
  }

  lemma StillRasTer(k: K, t: TaskId, n: nat, q: WobjId)
    requires Inv(k, TIGHT) && OfBuffer(k.cfg, q) && IsTask(k, t)
    ensures Shape(k) && (t !in Q(k, WaitQ(q)) ==> Still(k, RasTerStep(k, t, n).0, q))
  {
    hide TaskTerminate, RasterRelease, Dispatch, Still, QueueOk, TaskOk, Q, QueueShape;
    OnlyWaiters(k, q, t);
    if t !in Q(k, WaitQ(q)) {
      StillSelf(k, q);
      StillTerminated(k, t, n, q);
      StillDispatched(k, TaskTerminate(k, t, n), q);
      var k1 := SetTcb(k, t, k.tcb[t].(raster := true));
      StillRecord(k, t, k.tcb[t].(raster := true), q);
      StillFacts(k, k1, q);
      StillForced(k1, t, n, E_OK, q);
      StillAgain(k, k1, RasterRelease(k1, t, n), q);
      StillDispatched(k, RasterRelease(k1, t, n), q);
    }
  }

  lemma StillUnlMtx(k: K, t: TaskId, m: WobjId, q: WobjId)
    requires Inv(k, TIGHT) && OfBuffer(k.cfg, q) && IsTask(k, t) && IsMutex(k.cfg, m) && k.tcb[t].stat.Runnable?
    ensures Shape(k) && Still(k, UnlMtxStep(k, t, m).0, q)
  {
    hide MutexDropPriority, MutexRelease, Dispatch, Still, Apart, Shrinks, QueueOk, TaskOk, Q, QueueShape, CfgOk;
    OnlyWaiters(k, q, t);
    StillSelf(k, q);
    if k.held[t] != [] {
      var k1 := PopHeld(k, t);
      StillPopped(k, t, q);
      StillFacts(k, k1, q);
      var k2 := MutexDropPriority(k1, t, m);
      StillMutex(k1, t, m, q);
      StillFacts(k1, k2, q);
      StillAgain(k, k1, k2, q);
      DroppedShrinks(k1, t, m);
      ApartStays(k1, k2, q, t);
      StillHandedOver(k2, m, t, q);
      StillAgain(k, k2, MutexRelease(k2, m), q);
      StillDispatched(k, MutexRelease(k2, m), q);
    }
  }

  /** A new priority may change the place in a queue, but not which queue it is. */
  lemma DroppedShrinks(k: K, t: TaskId, m: WobjId)
    requires Shape(k) && IsTask(k, t) && IsMutex(k.cfg, m) && k.tcb[t].stat.Runnable?
    ensures Shrinks(k, MutexDropPriority(k, t, m))
  {
    hide TaskShape;
  }

  lemma StillIniMtx(k: K, m: WobjId, q: WobjId)
    requires Inv(k, TIGHT) && OfBuffer(k.cfg, q) && IsMutex(k.cfg, m)
    ensures Shape(k) && ((k.owner[m].Some? ==> k.owner[m].value !in Q(k, WaitQ(q))) ==> Still(k, IniMtxStep(k, m).0, q))
  {
    hide MutexDropPriority, InitWaitQueue, Dispatch, Still, QueueOk, TaskOk, Q, QueueShape;
    InvShape(k, TIGHT);
    var k1, o := InitWaitQueue(k, m), k.owner[m];
    StillReleased(k, m, q);
    StillFacts(k, k1, q);
    StillDispatched(k, k1, q);
    if o.Some? && o.value !in Q(k, WaitQ(q)) {
      InitKeeps(k, m, o.value);
      OnlyWaiters(k, q, o.value);
      RemoveMembersOf(k1.held[o.value], m);
      var k2 := SetHeld(SetOwner(k1, m, None), o.value, Remove(k1.held[o.value], m));
      StillOwners(k1, m, o.value, q);
      StillFacts(k1, k2, q);
      StillAgain(k, k1, k2, q);
      StillMutex(k2, o.value, m, q);
      StillAgain(k, k2, MutexDropPriority(k2, o.value, m), q);
      StillDispatched(k, MutexDropPriority(k2, o.value, m), q);
    }
  }

  lemma StillOwners(k: K, m: WobjId, t: TaskId, q: WobjId)
    requires Shape(k) && q < |k.cfg.wobj| && IsMutex(k.cfg, m) && IsTask(k, t) && forall x :: x in Remove(k.held[t], m) ==> x in k.held[t]
    ensures var k2 := SetHeld(SetOwner(k, m, None), t, Remove(k.held[t], m)); Still(k, k2, q) && k2.tcb == k.tcb
  {
  }

  lemma OtherKept(k: K, q: WobjId, e: Ercd, t: TaskId)
    requires Shape(k) && q < |k.cfg.wobj| && Q(k, WaitQ(q)) != [] && IsTask(k, t) && t != Q(k, WaitQ(q))[0]
    ensures var r := WakeFirst(k, q, e); IsTask(r, t) && r.tcb[t] == k.tcb[t]
  {
    hide TaskShape, CfgOk;
  }

  lemma {:induction false} NotReleased(k: K, q: WobjId, t: TaskId)
    requires Shape(k) && q < |k.cfg.wobj| && IsTask(k, t) && t !in Q(k, WaitQ(q))
    ensures var r := InitWaitQueue(k, q); IsTask(r, t) && r.tcb[t] == k.tcb[t]
    decreases |Q(k, WaitQ(q))|
  {
    hide WakeFirst, Shape, Q;
    if Q(k, WaitQ(q)) != [] {
      OtherKept(k, q, E_DLT, t);
      WokenRest(k, q, E_DLT);
      NotReleased(WakeFirst(k, q, E_DLT), q, t);
    }
  }

  /** Releasing the waiters of a mutex leaves its owner alone. */
  lemma InitKeeps(k: K, m: WobjId, t: TaskId)
    requires Inv(k, TIGHT) && IsMutex(k.cfg, m) && k.owner[m] == Some(t) && Shape(k)
    ensures IsTask(k, t)
    ensures var r := InitWaitQueue(k, m); |r.held| == |k.held| && IsTask(r, t) && r.tcb[t] == k.tcb[t] && r.held == k.held && r.owner == k.owner
  {
    hide InitWaitQueue;
    assert TaskOk(k, TIGHT, t);
    assert QueueOk(k, TIGHT, WaitQ(m));
    NotReleased(k, m, t);
    InitWaitQueueInv(k, TIGHT, m);
  }

  lemma StillLocMtx(k: K, t: TaskId, m: WobjId, tmo: Tmo, q: WobjId)
    requires Inv(k, TIGHT) && OfBuffer(k.cfg, q) && IsTask(k, t) && IsMutex(k.cfg, m) && k.tcb[t].stat.Runnable?
    ensures Shape(k) && Still(k, LocMtxStep(k, t, m, tmo).0, q) && Still(k, PlocMtxStep(k, t, m).0, q)
  {
    hide MutexAcquire, WobjMakeWait, Dispatch, Still, QueueOk, TaskOk, Q, QueueShape, TaskShape, CfgOk;
    OnlyWaiters(k, q, t);
    StillSelf(k, q);
    StillMutex(k, t, m, q);
    StillWaiting(k, t, OnQueue(m), tmo.Timed?, q);
    StillDispatched(k, WobjMakeWait(k, t, m, tmo.Timed?), q);
  }

  lemma StillSem(k: K, t: TaskId, h: WobjId, tmo: Tmo, q: WobjId)
    requires Shape(k) && OfBuffer(k.cfg, q) && IsSem(k.cfg, h)
    ensures Still(k, SigSemStep(k, h).0, q) && Still(k, IniSemStep(k, h).0, q)
    ensures IsTask(k, t) ==> Still(k, WaiSemStep(k, t, h, tmo).0, q)
  {
    hide WakeFirst, InitWaitQueue, WobjMakeWait, Dispatch, Still, QueueShape, TaskShape, CfgOk;
    StillSelf(k, q);
    forall n: nat ensures Still(k, SetSem(k, h, n), q) { StillCount(k, h, n, q); }
    if Q(k, WaitQ(h)) != [] {
      StillWoken(k, h, E_OK, q);
      StillDispatched(k, WakeFirst(k, h, E_OK), q);
    }
    var r := InitWaitQueue(k, h);
    StillReleased(k, h, q);
    StillFacts(k, r, q);
    StillCount(r, h, k.cfg.wobj[h].kind.isemcnt, q);
    StillAgain(k, r, SetSem(r, h, k.cfg.wobj[h].kind.isemcnt), q);
    StillDispatched(k, SetSem(r, h, k.cfg.wobj[h].kind.isemcnt), q);
    if IsTask(k, t) {
      StillWaiting(k, t, OnQueue(h), tmo.Timed?, q);
      StillDispatched(k, WobjMakeWait(k, t, h, tmo.Timed?), q);
    }
  }

  lemma StillCount(k: K, h: WobjId, n: nat, q: WobjId)
    requires Shape(k) && q < |k.cfg.wobj| && h < |k.semcnt|
    ensures Still(k, SetSem(k, h, n), q)
  {
  }

  lemma StillObj(k: K, t: TaskId, h: WobjId, i: nat, tmo: Tmo, q: WobjId)
    requires Shape(k) && q < |k.cfg.wobj| && IsOther(k.cfg, h) && h != q
    ensures Still(k, ObjWakeStep(k, h, i).0, q) && Still(k, Dispatch(InitWaitQueue(k, h)), q)
    ensures IsTask(k, t) ==> Still(k, ObjWaitStep(k, t, h, tmo).0, q)
  {
    hide WaitEnd, InitWaitQueue, WobjMakeWait, Dispatch, Still, TaskShape, CfgOk, QueueShape, Q;
    StillSelf(k, q);
    var s := Q(k, WaitQ(h));
    if i < |s| {
      var k1 := Unlink(k, WaitQ(h), s[i]);
      StillUnlinked(k, s[i], h, q);
      StillFacts(k, k1, q);
      StillEnd(k1, s[i], E_OK, q);
      StillAgain(k, k1, WaitEnd(k1, s[i], E_OK), q);
      StillDispatched(k, WaitEnd(k1, s[i], E_OK), q);
    }
    StillReleased(k, h, q);
    StillDispatched(k, InitWaitQueue(k, h), q);
    if IsTask(k, t) {
      StillWaiting(k, t, OnQueue(h), tmo.Timed?, q);
      StillDispatched(k, WobjMakeWait(k, t, h, tmo.Timed?), q);
    }
  }

  lemma StillAtomic(k: K, t: TaskId, q: WobjId)
    requires Shape(k) && q < |k.cfg.wobj| && IsTask(k, t)
    ensures Still(k, ActTskStep(k, t).0, q) && Still(k, WupTskStep(k, t).0, q)
  {
    hide WaitEnd, MakeActive, Dispatch, Still, Q, QueueShape, TaskShape, CfgOk;
    StillSelf(k, q);
    StillReady(k, t, q);
    StillDispatched(k, MakeActive(k, t), q);
    StillEnd(k, t, E_OK, q);
    StillDispatched(k, WaitEnd(k, t, E_OK), q);
    StillFlagged(k, t, q);
  }

  lemma StillSuspended(k: K, t: TaskId, q: WobjId)
    requires Shape(k) && q < |k.cfg.wobj| && IsTask(k, t)
    ensures Still(k, RsmTskStep(k, t).0, q)
  {
    hide MakeRunnable, Dispatch, Still, Q, QueueShape, CfgOk;
    StillSelf(k, q);
    StillFlags(k, t, q);
    StillResumed(k, t, q);
    StillDispatched(k, MakeRunnable(SetStat(k, t, Runnable), t), q);
  }

  lemma StillFlagged(k: K, t: TaskId, q: WobjId)
    requires Shape(k) && q < |k.cfg.wobj| && IsTask(k, t)
    ensures forall b: bool ::
      && TcbShape(k.cfg, k.tcb[t].(actque := b)) && Still(k, SetTcb(k, t, k.tcb[t].(actque := b)), q)
      && TcbShape(k.cfg, k.tcb[t].(wupque := b)) && Still(k, SetTcb(k, t, k.tcb[t].(wupque := b)), q)
      && TcbShape(k.cfg, k.tcb[t].(enater := b)) && Still(k, SetTcb(k, t, k.tcb[t].(enater := b)), q)
  {
    hide SetTcb, Still, Q, QueueShape, CfgOk;
    StillFlags(k, t, q);
  }

  lemma StillFlags(k: K, t: TaskId, q: WobjId)
    requires Shape(k) && q < |k.cfg.wobj| && IsTask(k, t)
    ensures forall r: Tcb {:trigger SetTcb(k, t, r)} :: TcbShape(k.cfg, r) && r.pri == k.tcb[t].pri ==> Still(k, SetTcb(k, t, r), q)
  {
    hide Still;
    forall r: Tcb {:trigger SetTcb(k, t, r)} | TcbShape(k.cfg, r) && r.pri == k.tcb[t].pri ensures Still(k, SetTcb(k, t, r), q) {
      StillRecord(k, t, r, q);
    }
  }

  lemma StillStopping(k: K, t: TaskId, tmo: Tmo, q: WobjId)
    requires Shape(k) && q < |k.cfg.wobj| && IsTask(k, t)
    ensures Still(k, SlpTskStep(k, t, tmo).0, q) && Still(k, DlyTskStep(k, t).0, q)
  {
    hide MakeWait, Dispatch, Still, Q, QueueShape, TaskShape, CfgOk;
    StillSelf(k, q);
    StillFlagged(k, t, q);
    StillWaiting(k, t, Sleeping, tmo.Timed?, q);
    StillDispatched(k, MakeWait(k, t, Sleeping, tmo.Timed?), q);
    StillWaiting(k, t, Delayed, true, q);
    StillDispatched(k, MakeWait(k, t, Delayed, true), q);
  }

  lemma StillSuspending(k: K, t: TaskId, q: WobjId)
    requires Shape(k) && q < |k.cfg.wobj| && IsTask(k, t)
    ensures Still(k, SusTskStep(k, t).0, q)
  {
    hide MakeNonRunnable, Dispatch, Still, Q, QueueShape, CfgOk;
    StillSelf(k, q);
    StillFlags(k, t, q);
    var k1 := SetStat(k, t, Suspended);
    StillFacts(k, k1, q);
    StillReady(k1, t, q);
    StillAgain(k, k1, MakeNonRunnable(k1, t), q);
    StillDispatched(k, MakeNonRunnable(k1, t), q);
  }

  lemma StillEnded(k: K, t: TaskId, twd: UnitId, idle: UnitId, q: WobjId)
    requires Settled(k) && OfBuffer(k.cfg, q) && k.run == Some(t) && twd < k.cfg.units && idle < k.cfg.units
    ensures Shape(k) && IsTask(k, t)
    ensures Still(k, ExtTskStep(k, t, twd, idle).0, q) && Still(k, EnaDspStep(k, t, twd, idle).0, q)
    ensures Still(k, EnaTerStep(k, t).0, q)
  {
    hide TaskTerminate, Dispatch, Still, QueueOk, TaskOk, Q, QueueShape;
    RunningAway(k, q);
    var k1 := SetDspflg(k, twd, idle);
    WindowInv(k, true, twd, idle);
    StillWindows(k, true, twd, idle, q);
    StillTerminated(k, t, 0, q);
    StillTerminated(k1, t, 0, q);
    StillFacts(k, k1, q);
    StillAgain(k, k1, TaskTerminate(k1, t, 0), q);
    StillDispatched(k, TaskTerminate(k, t, 0), q);
    StillDispatched(k, TaskTerminate(k1, t, 0), q);
    StillDispatched(k, k1, q);
    StillFlags(k, t, q);
  }

  lemma StillWindows(k: K, dsp: bool, twd: UnitId, idle: UnitId, q: WobjId)
    requires Shape(k) && q < |k.cfg.wobj| && twd < k.cfg.units && idle < k.cfg.units
    ensures Still(k, k.(dsp := dsp, twd := twd, idle := idle), q)
  {
  }

  lemma StillTaskCall(k: K, c: Call, q: WobjId)
    requires Settled(k) && OfBuffer(k.cfg, q) && Shape(k) && Callable(k, c) && IsTaskCall(c) && Away(k, c, q)
    ensures Still(k, TaskStep(k, c).0, q)
  {
    hide ActTskStep, ChgPriStep, SlpTskStep, WupTskStep, DlyTskStep, SusTskStep, RsmTskStep, ExtTskStep, RasTerStep,
      EnaTerStep, TaskTerminate, WaitDequeueWobj, WaitEnd, RotateReadyQueue, Dispatch, Still, QueueOk, TaskOk, Q,
      QueueShape, TaskShape, CfgOk;
    var me := if k.run.Some? then k.run.value else 0;
    StillSelf(k, q);
    match c
    case ActTsk(t) => StillAtomic(k, t, q);
    case CanAct(t) => StillFlagged(k, t, q);
    case ChgPri(t, p) => StillChgPri(k, t, p, q);
    case SlpTsk(tmo) => StillStopping(k, me, tmo, q);
    case WupTsk(t) => StillAtomic(k, t, q);
    case CanWup(t) => StillFlagged(k, t, q);
    case DlyTsk => StillStopping(k, me, Poll, q);
    case RelWai(t, n) =>
      OnlyWaiters(k, q, t);
      StillForced(k, t, n, E_RLWAI, q);
      StillDispatched(k, WaitEnd(WaitDequeueWobj(k, t, n), t, E_RLWAI), q);
    case SusTsk(t) => StillSuspending(k, t, q);
    case RsmTsk(t) => StillSuspended(k, t, q);
    case ExtTsk(twd, idle) => StillEnded(k, me, twd, idle, q);
    case RasTer(t, n) => StillRasTer(k, t, n, q);
    case DisTer => StillFlagged(k, me, q);
    case EnaTer => StillEnded(k, me, k.twd, k.idle, q);
    case TerTsk(t, n) =>
      StillTerminated(k, t, n, q);
      StillDispatched(k, TaskTerminate(k, t, n), q);
    case RotRdq(p, u) =>
      StillRotated(k, p, u, q);
      StillDispatched(k, RotateReadyQueue(k, p, u), q);
  }

  lemma StillRotated(k: K, p: Pri, u: UnitId, q: WobjId)
    requires Shape(k) && q < |k.cfg.wobj| && p < TNUM_TPRI && u < k.cfg.units
    ensures Still(k, RotateReadyQueue(k, p, u), q)
  {
    hide TaskShape, CfgOk;
  }

  lemma StillObjectCall(k: K, c: Call, q: WobjId)
    requires Settled(k) && OfBuffer(k.cfg, q) && Shape(k) && Callable(k, c) && !IsTaskCall(c) && Away(k, c, q)
    ensures Still(k, ObjectStep(k, c).0, q)
  {
    hide LocMtxStep, PlocMtxStep, UnlMtxStep, IniMtxStep, WaiSemStep, SigSemStep, IniSemStep, ObjWaitStep, ObjWakeStep, EnaDspStep,
      InitWaitQueue, Expire, Dispatch, Still, QueueOk, TaskOk, Q, QueueShape, CfgOk;
    var me := if k.run.Some? then k.run.value else 0;
    if k.run.Some? { RunningAway(k, q); }
    match c
    case LocMtx(m, tmo) => StillLocMtx(k, me, m, tmo, q);
    case PlocMtx(m) => StillLocMtx(k, me, m, Poll, q);
    case UnlMtx(m) => StillUnlMtx(k, me, m, q);
    case IniMtx(m) => StillIniMtx(k, m, q);
    case WaiSem(h, tmo) => StillSem(k, me, h, tmo, q);
    case SigSem(h) => StillSem(k, me, h, Poll, q);
    case IniSem(h) => StillSem(k, me, h, Poll, q);
    case ObjWait(h, tmo) => StillObj(k, me, h, 0, tmo, q);
    case ObjWake(h, i) => StillObj(k, me, h, i, Poll, q);
    case ObjInit(h) => StillObj(k, me, h, 0, Poll, q);
    case Timeout(t, n) =>
      OnlyWaiters(k, q, t);
      StillExpired(k, t, n, q);
      StillDispatched(k, Expire(k, t, n), q);
    case DisDsp => StillWindowCalls(k, k.twd, k.idle, q);
    case EnaDsp(twd, idle) => StillEnded(k, me, twd, idle, q);
    case SwitchWindow(twd, idle) => StillWindowCalls(k, twd, idle, q);
  }

  lemma StillWindowCalls(k: K, twd: UnitId, idle: UnitId, q: WobjId)
    requires Shape(k) && q < |k.cfg.wobj| && twd < k.cfg.units && idle < k.cfg.units
    ensures Still(k, k.(dsp := false), q)
    ensures var r := k.(twd := twd, idle := idle); Shape(r) && Still(k, Dispatch(r), q)
  {
    hide Dispatch;
    var r := k.(twd := twd, idle := idle);
    StillWindows(k, k.dsp, twd, idle, q);
    StillDispatched(k, r, q);
  }

  /** A call that has nothing to do with the queue leaves it alone. */
  lemma CallStill(k: K, c: Call, q: WobjId)
    requires Settled(k) && OfBuffer(k.cfg, q) && Shape(k) && Callable(k, c) && Away(k, c, q)
    ensures Still(k, Step(k, c).0, q)
  {
    hide TaskStep, ObjectStep, Settled, Still, Away;
    if IsTaskCall(c) { StillTaskCall(k, c, q); } else { StillObjectCall(k, c, q); }
  }

  // ---------------------------------------------------------------- a receiver stops waiting

  /** The task at place `i` of a queue of receivers leaves it. */
  lemma ReceiverOut(k: K, t: TaskId, n: nat, q: WobjId, i: nat)
    requires Inv(k, TIGHT) && OfBuffer(k.cfg, q) && k.cfg.wobj[q].kind.Receiver? && Shape(k)
    requires i < |Q(k, WaitQ(q))| && t == Q(k, WaitQ(q))[i]
    ensures IsTask(k, t) && k.tcb[t].stat.Waiting? && k.tcb[t].stat.cause == OnQueue(q)
    ensures WaitDequeueWobj(k, t, n) == Unlink(k, WaitQ(q), t)
    ensures var r := Unlink(k, WaitQ(q), t);
            && Shape(r) && r.cfg == k.cfg && r.tcb == k.tcb && Q(r, WaitQ(q)) == Drop(Q(k, WaitQ(q)), i) && Apart(r, q, t)
  {
    hide TaskOk;
    assert QueueOk(k, TIGHT, WaitQ(q));
    RemoveIsDrop(Q(k, WaitQ(q)), i);
    RemoveMembers(Q(k, WaitQ(q)), t);
    var r := Unlink(k, WaitQ(q), t);
    forall m: WobjId, x {:trigger x in Q(r, WaitQ(m))} | IsMutex(k.cfg, m) && x in Q(r, WaitQ(m)) ensures x !in Q(r, WaitQ(q)) {
      assert QueueOk(k, TIGHT, WaitQ(m)) && x in Q(k, WaitQ(m));
    }
  }

  /** Of the queue only that task is gone. */
  ghost predicate Without1(k: K, r: K, q: WobjId, i: nat)
    requires Shape(k) && q < |k.cfg.wobj| && i < |Q(k, WaitQ(q))|
  {
    Shape(r) && r.cfg == k.cfg && Q(r, WaitQ(q)) == Drop(Q(k, WaitQ(q)), i)
  }

  lemma ReceiverTerminated(k: K, t: TaskId, n: nat, q: WobjId, i: nat)
    requires Inv(k, TIGHT) && OfBuffer(k.cfg, q) && k.cfg.wobj[q].kind.Receiver? && Shape(k)
    requires i < |Q(k, WaitQ(q))| && t == Q(k, WaitQ(q))[i]
    ensures IsTask(k, t) && Without1(k, TaskTerminate(k, t, n), q, i)
  {
    hide WaitDequeueWobj, DequeueTmevtb, MutexReleaseAll, MakeDormant, MakeActive, Unlink, Still, Apart, QueueOk, TaskOk, Q, CfgOk, QueueShape;
    ReceiverOut(k, t, n, q, i);
    var d := Unlink(k, WaitQ(q), t);
    var k1 := DequeueTmevtb(d, t);
    StillMarked(d, t, E_OK, q);
    StillFacts(d, k1, q);
    UntimedShrinks(d, t);
    ApartStays(d, k1, q, t);
    var k2 := MutexReleaseAll(k1, t, |k1.held[t]|);
    StillAfterAll(k1, t, |k1.held[t]|, q);
    StillFacts(k1, k2, q);
    NotIn(k1, q, t);
    StillDormant(k2, t, q);
    StillFacts(k2, TaskTerminate(k, t, n), q);
  }

  lemma NotIn(k: K, q: WobjId, t: TaskId)
    requires Shape(k) && q < |k.cfg.wobj| && Apart(k, q, t)
    ensures t !in Q(k, WaitQ(q))
  {
  }

  lemma ReceiverForced(k: K, t: TaskId, n: nat, e: Ercd, q: WobjId, i: nat)
    requires Inv(k, TIGHT) && OfBuffer(k.cfg, q) && k.cfg.wobj[q].kind.Receiver? && Shape(k)
    requires i < |Q(k, WaitQ(q))| && t == Q(k, WaitQ(q))[i]
    ensures IsTask(k, t) && Without1(k, WaitEnd(WaitDequeueWobj(k, t, n), t, e), q, i)
    ensures Without1(k, RasterRelease(k, t, n), q, i)
  {
    hide WaitDequeueWobj, WaitEnd, DequeueTmevtb, Unlink, Still, QueueOk, TaskOk, Q, CfgOk, QueueShape;
    ReceiverOut(k, t, n, q, i);
    var d := Unlink(k, WaitQ(q), t);
    StillEnd(d, t, e, q);
    StillFacts(d, WaitEnd(d, t, e), q);
    var k1 := SetWercd(DequeueTmevtb(d, t), t, E_RASTER);
    StillMarked(d, t, E_RASTER, q);
    StillFacts(d, k1, q);
    StillResumed(k1, t, q);
    StillFacts(k1, RasterRelease(k, t, n), q);
  }

  lemma ReceiverExpired(k: K, t: TaskId, n: nat, q: WobjId, i: nat)
    requires Inv(k, TIGHT) && OfBuffer(k.cfg, q) && k.cfg.wobj[q].kind.Receiver? && Shape(k)
    requires i < |Q(k, WaitQ(q))| && t == Q(k, WaitQ(q))[i]
    ensures IsTask(k, t) && Without1(k, Expire(k, t, n), q, i)
  {
    hide MakeNonWait, Still, QueueOk, TaskOk, CfgOk, QueueShape, TaskShape;
    ReceiverOut(k, t, n, q, i);
    var k1 := SetTimed(k, k.timed - {t});
    var d := Unlink(k1, WaitQ(q), t);
    assert WaitDequeueWobj(k1, t, n) == d && Q(d, WaitQ(q)) == Drop(Q(k, WaitQ(q)), i);
    StillMarked(d, t, E_TMOUT, q);
    StillFacts(d, SetWercd(d, t, E_TMOUT), q);
    StillNonWait(SetWercd(d, t, E_TMOUT), t, q);
    StillFacts(SetWercd(d, t, E_TMOUT), Expire(k, t, n), q);
  }

  lemma Dispatched1(k: K, r: K, q: WobjId, i: nat)
    requires Shape(k) && q < |k.cfg.wobj| && i < |Q(k, WaitQ(q))| && Without1(k, r, q, i)
    ensures Shape(Dispatch(r)) && Without1(k, Dispatch(r), q, i)
  {
    ChoiceKnown(r);
  }

  /** A call that ends the wait of a receiver takes it out of the queue, and nobody else. */
  lemma ReceiverLeaves(k: K, c: Call, t: TaskId, q: WobjId, i: nat)
    requires Settled(k) && OfBuffer(k.cfg, q) && k.cfg.wobj[q].kind.Receiver? && Shape(k) && Callable(k, c)
    requires EndsWait(c) && c.t == t && i < |Q(k, WaitQ(q))| && t == Q(k, WaitQ(q))[i]
    ensures Without1(k, Step(k, c).0, q, i)
  {
    hide TaskTerminate, RasterRelease, WaitDequeueWobj, WaitEnd, Expire, Dispatch, Without1, QueueOk, TaskOk, Q,
      CfgOk, QueueShape, TaskShape;
    ReceiverOut(k, t, c.n, q, i);
    WaitingTask(k, t);
    match c
    case RelWai(_, n) =>
      ReceiverForced(k, t, n, E_RLWAI, q, i);
      Dispatched1(k, WaitEnd(WaitDequeueWobj(k, t, n), t, E_RLWAI), q, i);
    case RasTer(_, n) =>
      if k.tcb[t].enater {
        ReceiverTerminated(k, t, n, q, i);
        Dispatched1(k, TaskTerminate(k, t, n), q, i);
      } else {
        ReceiverAsked(k, t, n, q, i);
      }
    case TerTsk(_, n) =>
      ReceiverTerminated(k, t, n, q, i);
      Dispatched1(k, TaskTerminate(k, t, n), q, i);
    case Timeout(_, n) =>
      ReceiverExpired(k, t, n, q, i);
      Dispatched1(k, Expire(k, t, n), q, i);
  }

  lemma ReceiverAsked(k: K, t: TaskId, n: nat, q: WobjId, i: nat)
    requires Settled(k) && OfBuffer(k.cfg, q) && k.cfg.wobj[q].kind.Receiver? && Shape(k)
    requires i < |Q(k, WaitQ(q))| && t == Q(k, WaitQ(q))[i] && IsTask(k, t) && TcbShape(k.cfg, k.tcb[t].(raster := true))
    ensures var k1 := SetTcb(k, t, k.tcb[t].(raster := true)); Without1(k, Dispatch(RasterRelease(k1, t, n)), q, i)
  {
    hide RasterRelease, Dispatch, QueueOk, TaskOk, CfgOk, QueueShape;
    var k1 := SetTcb(k, t, k.tcb[t].(raster := true));
    FlagStep(k, t, k.tcb[t].(raster := true));
    ReceiverForced(k1, t, n, E_OK, q, i);
    assert Without1(k, RasterRelease(k1, t, n), q, i);
    Dispatched1(k, RasterRelease(k1, t, n), q, i);
  }

  // ---------------------------------------------------------------- the priority of a waiting task changes

  lemma NoTwice(k: K, q: WobjId)
    requires Inv(k, TIGHT) && q < |k.cfg.wobj|
    ensures Shape(k) && NoDup(Q(k, WaitQ(q)))
  {
    assert QueueOk(k, TIGHT, WaitQ(q));
  }

  /** With TA_TFIFO only the record changes. */
  lemma MovedInPlace(k: K, q: WobjId, s: M.Mbf, i: nat, p: Pri)
    requires SameSenders(k, q, s) && NoDup(Q(k, WaitQ(q))) && i < |s.senders| && p < TNUM_TPRI && IsTask(k, s.senders[i].tid)
    ensures SameSenders(SetPri(k, s.senders[i].tid, p), q, s.(senders := s.senders[i := s.senders[i].(pri := p)]))
  {
    hide CfgOk, TaskShape, QueueShape;
    var t, ts := s.senders[i].tid, Q(k, WaitQ(q));
    assert forall j :: 0 <= j < |ts| && j != i ==> ts[j] != t;
  }

  /** The other senders, and their places. */
  lemma OthersTied(k: K, q: WobjId, s: M.Mbf, i: nat, p: Pri)
    requires SameSenders(k, q, s) && NoDup(Q(k, WaitQ(q))) && i < |s.senders| && p < TNUM_TPRI && IsTask(k, s.senders[i].tid)
    ensures var k1, rest, ws := SetPri(k, s.senders[i].tid, p), Drop(Q(k, WaitQ(q)), i), Drop(s.senders, i);
            && Shape(k1) && Members(rest, |k1.tcb|) && |ws| == |rest|
            && (forall j :: 0 <= j < |rest| ==> ws[j].tid == rest[j] && ws[j].pri == k1.tcb[rest[j]].pri)
            && TpriPos(k1.tcb, rest, p) == PlaceOf(ws, p)
  {
    hide CfgOk, TaskShape;
    var t, ts := s.senders[i].tid, Q(k, WaitQ(q));
    var k1, rest, ws := SetPri(k, t, p), Drop(ts, i), Drop(s.senders, i);
    forall j | 0 <= j < |rest| ensures rest[j] < |k1.tcb| && ws[j].tid == rest[j] && ws[j].pri == k1.tcb[rest[j]].pri {
      var l := if j < i then j else j + 1;
      assert rest[j] == ts[l] && ws[j] == s.senders[l] && ts[l] != t;
    }
    SamePlace(k1.tcb, rest, ws, p);
  }

  lemma MovedByPriority(k: K, q: WobjId, s: M.Mbf, i: nat, p: Pri)
    requires SameSenders(k, q, s) && NoDup(Q(k, WaitQ(q))) && i < |s.senders| && p < TNUM_TPRI
    requires Sender(k, q, s, i) && k.cfg.wobj[q].tpri
    ensures var k1 := SetPri(k, s.senders[i].tid, p);
            SameSenders(Reinsert(k1, q, s.senders[i].tid, p), q, s.(senders := Enter(Drop(s.senders, i), s.senders[i].(pri := p), true)))
  {
    hide CfgOk, TaskShape, NoDup, Drop, TpriPos, PlaceOf;
    var t, rest, ws := s.senders[i].tid, Drop(Q(k, WaitQ(q)), i), Drop(s.senders, i);
    var k1 := SetPri(k, t, p);
    OthersTied(k, q, s, i, p);
    PlaceInRange(ws, p);
    Inserted(k1, rest, ws, t, s.senders[i].(pri := p), PlaceOf(ws, p));
  }

  lemma PlaceInRange(ws: seq<Waiter<R.Message>>, p: nat)
    ensures 0 <= PlaceOf(ws, p) <= |ws|
  {
  }

  /** change_priority of a sender moves it in both queues to the same place. */
  lemma MovedTied(k: K, q: WobjId, s: M.Mbf, i: nat, p: Pri, mtxmode: bool)
    requires SameSenders(k, q, s) && NoDup(Q(k, WaitQ(q))) && i < |s.senders| && Sender(k, q, s, i) && p < TNUM_TPRI
    ensures SameSenders(ChangePriority(k, s.senders[i].tid, p, mtxmode), q, M.Step(s, M.Reprioritize(i, p)))
  {
    hide CfgOk, TaskShape, QueueShape, SameSenders, NoDup, Drop, Reinsert, Enter, Q;
    Lengths(k, q, s);
    SameKind(k, q, s);
    if k.cfg.wobj[q].tpri { MovedByPriority(k, q, s, i, p); } else { MovedInPlace(k, q, s, i, p); }
  }

  lemma SameKind(k: K, q: WobjId, s: M.Mbf)
    requires SameSenders(k, q, s)
    ensures Shape(k) && q < |k.cfg.wobj| && k.cfg.wobj[q].kind.MbfSender? && k.cfg.wobj[q].tpri == s.byPri
  {
  }

  lemma Inserted(k: K, ts: seq<TaskId>, ws: seq<Waiter<R.Message>>, t: TaskId, w: Waiter<R.Message>, at: nat)
    requires |ts| == |ws| && at <= |ts| && w.tid == t && t < |k.tcb| && w.pri == k.tcb[t].pri && Members(ts, |k.tcb|)
    requires forall j :: 0 <= j < |ts| ==> ws[j].tid == ts[j] && ws[j].pri == k.tcb[ts[j]].pri
    ensures var a, b := InsertAt(ts, at, t), InsertAt(ws, at, w);
            |a| == |b| && forall j :: 0 <= j < |a| ==> a[j] < |k.tcb| && b[j].tid == a[j] && b[j].pri == k.tcb[a[j]].pri
  {
    var a, b := InsertAt(ts, at, t), InsertAt(ws, at, w);
    forall j | 0 <= j < |a| ensures a[j] < |k.tcb| && b[j].tid == a[j] && b[j].pri == k.tcb[a[j]].pri {
      if j != at {
        var l := if j < at then j else j - 1;
        assert a[j] == ts[l] && b[j] == ws[l];
      }
    }
  }

  /** The priority of a receiver changes nothing in its queue, which is served in order of arrival. */
  lemma MovedReceiver(k: K, t: TaskId, p: Pri, mtxmode: bool, q: WobjId)
    requires Shape(k) && q < |k.cfg.wobj| && k.cfg.wobj[q].kind.Receiver? && IsTask(k, t) && p < TNUM_TPRI
    requires !k.tcb[t].stat.Runnable? && (k.tcb[t].stat.Waiting? && k.tcb[t].stat.cause.OnQueue? ==> k.tcb[t].stat.cause.q == q)
    ensures SameQueue(k, ChangePriority(k, t, p, mtxmode), q)
  {
  }

  // ---------------------------------------------------------------- the joint state machine

  /** The wait queues of a message buffer: swait_queue and rwait_queue. */
  datatype Ends = Ends(snd: WobjId, rcv: WobjId)

  ghost predicate BufferOf(c: Cfg, e: Ends, byPri: bool) {
    && e.snd < |c.wobj| && c.wobj[e.snd].kind.MbfSender? && c.wobj[e.snd].tpri == byPri
    && e.rcv < |c.wobj| && c.wobj[e.rcv].kind.Receiver?
  }

  /** The kernel's queues are the buffer's. */
  ghost predicate Joined(k: K, e: Ends, s: M.Mbf) {
    SameSenders(k, e.snd, s) && BufferOf(k.cfg, e, s.byPri) && Q(k, WaitQ(e.rcv)) == s.receivers
  }

  datatype Move =
    | Serve(c: Call)                     // a call that is not one of the buffer's
    | Snd(m: R.Message, tmo: Tmo)        // snd_mbf, tsnd_mbf
    | Psnd(m: R.Message)                 // psnd_mbf, by a task or an interrupt handler
    | Rcv(tmo: Tmo)                      // rcv_mbf, trcv_mbf
    | Prcv                               // prcv_mbf
    | IniMbf                             // ini_mbf

  /** Where a task is in a queue, or the length. */
  function Place(ts: seq<TaskId>, t: TaskId): (i: nat)
    ensures i <= |ts| && (i < |ts| ==> ts[i] == t) && (t in ts <==> i < |ts|)
  {
    if ts == [] || ts[0] == t then 0 else 1 + Place(ts[1..], t)
  }

  /** The task whose priority a call changes while it may be waiting, and to what. */
  function Moved(k: K, c: Call): Option<(TaskId, Pri)>
    requires Shape(k) && Callable(k, c)
  {
    match c
    case ChgPri(t, newpri) =>
      if ChgPriStep(k, t, newpri).1 == E_OK && (k.held[t] == [] || !ScanCeilmtx(k, t)) then
        Some((t, if newpri.Some? then newpri.value else k.cfg.ipri[t]))
      else None
    case IniMtx(m) =>
      if k.owner[m].None? then None
      else
        var o := k.owner[m].value;
        var newpri := MinCeiling(k.cfg, k.tcb[o].bpri, Remove(k.held[o], m));
        if Ceiling(k.cfg, m) == Some(k.tcb[o].pri) && newpri != k.tcb[o].pri then Some((o, newpri)) else None
    case _ => None
  }

  /** What a call that is not one of the buffer's does to the buffer. */
  function Effect(k: K, e: Ends, c: Call): Option<M.MbfCall>
    requires Shape(k) && Callable(k, c) && e.snd < |k.cfg.wobj| && e.rcv < |k.cfg.wobj|
  {
    var ts, rs := Q(k, WaitQ(e.snd)), Q(k, WaitQ(e.rcv));
    if EndsWait(c) then
      if c.t in ts then Some(M.GiveUp(Place(ts, c.t))) else if c.t in rs then Some(M.Desist(Place(rs, c.t))) else None
    else
      var mv := Moved(k, c);
      if mv.Some? && mv.value.0 in ts then Some(M.Reprioritize(Place(ts, mv.value.0), mv.value.1)) else None
  }

  /** The number of senders a call lets go on is the one the buffer computes. */
  ghost predicate Counted(k: K, e: Ends, s: M.Mbf, c: Call)
    requires Joined(k, e, s)
  {
    EndsWait(c) && c.t in Q(k, WaitQ(e.snd)) ==> c.n == GoOn(Without(s, Place(Q(k, WaitQ(e.snd)), c.t)))
  }

  ghost predicate Allowed(k: K, e: Ends, s: M.Mbf, m: Move) {
    && Joined(k, e, s)
    && match m
       case Serve(c) =>
         && Callable(k, c) && Counted(k, e, s, c)
         && (c.ObjWait? || c.ObjWake? || c.ObjInit? ==> c.q != e.snd && c.q != e.rcv)
       case Snd(_, _) => k.run.Some?
       case Rcv(_) => k.run.Some?
       case _ => true
  }

  /** send_message, and waiting if it could not: `me` is the running task if `wait`. */
  function Sent(k: K, e: Ends, s: M.Mbf, w: Waiter<R.Message>, wait: bool, tmo: bool): (K, M.Mbf)
    requires Joined(k, e, s) && (wait ==> IsTask(k, w.tid))
  {
    var r := M.Step(s, M.Send(w, wait));
    if !M.Sendable(s, w) then (k, r)
    else if Q(k, WaitQ(e.rcv)) != [] then (Dispatch(WakeFirst(k, e.rcv, E_OK)), r)
    else if (Q(k, WaitQ(e.snd)) == [] && M.Fits(s, w.item)) || !wait then (k, r)
    else (Dispatch(WobjMakeWait(k, w.tid, e.snd, tmo)), r)
  }

  /** receive_message, and waiting if there was none. */
  function Received(k: K, e: Ends, s: M.Mbf, me: TaskId, wait: bool, tmo: bool): (K, M.Mbf)
    requires Joined(k, e, s) && (wait ==> IsTask(k, me))
  {
    var r := M.Step(s, M.Receive(me, wait));
    if s.stored != [] then (Dispatch(MbfSignal(k, e.snd, GoOn(Taken1(s)))), r)
    else if Q(k, WaitQ(e.snd)) != [] then (Dispatch(WakeFirst(k, e.snd, E_OK)), r)
    else if wait then (Dispatch(WobjMakeWait(k, me, e.rcv, tmo)), r)
    else (k, r)
  }

  /** The first stored message has been received. */
  function Taken1(s: M.Mbf): M.Mbf
    requires s.stored != []
  {
    s.(stored := s.stored[1..], received := s.received + [s.stored[0]])
  }

  function MoveStep(k: K, e: Ends, s: M.Mbf, m: Move): (K, M.Mbf)
    requires Allowed(k, e, s, m)
  {
    match m
    case Serve(c) =>
      var effect := Effect(k, e, c);
      (Step(k, c).0, if effect.Some? then M.Step(s, effect.value) else s)
    case Snd(msg, tmo) =>
      var me := k.run.value;
      if !k.dsp || k.tcb[me].raster then (k, s)
      else Sent(k, e, s, Waiter(me, k.tcb[me].pri, msg), !tmo.Poll?, tmo.Timed?)
    case Psnd(msg) => Sent(k, e, s, Waiter(0, 0, msg), false, false)
    case Rcv(tmo) =>
      var me := k.run.value;
      if !k.dsp || k.tcb[me].raster then (k, s) else Received(k, e, s, me, !tmo.Poll?, tmo.Timed?)
    case Prcv => Received(k, e, s, 0, false, false)
    case IniMbf => (Dispatch(InitWaitQueue(InitWaitQueue(k, e.snd), e.rcv)), M.Step(s, M.Init))
  }

  // ---------------------------------------------------------------- every move keeps the queues joined

  lemma JoinedStill(k: K, r: K, e: Ends, s: M.Mbf)
    requires Joined(k, e, s) && Still(k, r, e.snd) && SameQueue(k, r, e.rcv)
    ensures Joined(r, e, s)
  {
    hide Shape, Q;
    SendersStill(k, r, e.snd, s);
  }

  lemma SendersStill(k: K, r: K, q: WobjId, s: M.Mbf)
    requires SameSenders(k, q, s) && Still(k, r, q)
    ensures SameSenders(r, q, s)
  {
    hide CfgOk, TaskShape;
  }

  lemma JoinedFacts(k: K, e: Ends, s: M.Mbf)
    requires Joined(k, e, s)
    ensures Shape(k) && OfBuffer(k.cfg, e.snd) && OfBuffer(k.cfg, e.rcv) && e.snd != e.rcv && BufferOf(k.cfg, e, s.byPri)
    ensures SameSenders(k, e.snd, s) && Q(k, WaitQ(e.rcv)) == s.receivers && |s.senders| == |Q(k, WaitQ(e.snd))|
    ensures forall i :: 0 <= i < |s.senders| ==> s.senders[i].tid == Q(k, WaitQ(e.snd))[i]
  {
  }

  /** Only the senders matter, not what became of the messages. */
  lemma SendersOnly(k: K, q: WobjId, s: M.Mbf, u: M.Mbf)
    requires SameSenders(k, q, s) && u.senders == s.senders && u.byPri == s.byPri
    ensures SameSenders(k, q, u)
  {
    hide Shape, Q;
  }

  lemma SameSendersStill(k: K, e: Ends, s: M.Mbf, r: K, u: M.Mbf)
    requires Joined(k, e, s) && SameSenders(r, e.snd, u) && u.byPri == s.byPri && Still(k, r, e.rcv)
    requires u.receivers == s.receivers
    ensures Joined(r, e, u)
  {
    hide Shape, Q;
  }

  /** A dispatch changes no queue. */
  lemma JoinedDispatched(k: K, e: Ends, s: M.Mbf)
    requires Joined(k, e, s)
    ensures Shape(Dispatch(k)) && Joined(Dispatch(k), e, s)
  {
    hide Dispatch, Joined, Q, CfgOk, QueueShape, TaskShape;
    JoinedFacts(k, e, s);
    StillSelf(k, e.snd);
    StillSelf(k, e.rcv);
    StillDispatched(k, k, e.snd);
    StillDispatched(k, k, e.rcv);
    JoinedStill(k, Dispatch(k), e, s);
  }

  lemma EndedTied(k: K, e: Ends, s: M.Mbf, c: Call, i: nat)
    requires Settled(k) && Joined(k, e, s) && Callable(k, c) && EndsWait(c) && i < |s.senders| && c.t == s.senders[i].tid
    requires c.n == GoOn(Without(s, i))
    ensures SameSenders(Step(k, c).0, e.snd, M.Step(s, M.GiveUp(i)))
  {
    hide Settled, Joined, SameSenders, RelWaiStep, RasTerStep, TerTskStep, M.Step, Dispatch, Shape, Drop;
    JoinedFacts(k, e, s);
    match c
    case RelWai(t, n) => RelWaiTied(k, e.snd, s, i);
    case RasTer(t, n) => RasTerTied(k, e.snd, s, i);
    case TerTsk(t, n) => TerTskTied(k, e.snd, s, i);
    case Timeout(t, n) => TimeoutTied(k, e.snd, s, i);
  }

  lemma GivesUp(s: M.Mbf, i: nat)
    requires M.Consistent(s) && i < |s.senders|
    ensures var r := M.Step(s, M.GiveUp(i)); r.byPri == s.byPri && r.receivers == s.receivers
  {
    hide M.Signal;
    M.StillConsistent(s, i);
    M.SignalKeepsOrder(s.(senders := Drop(s.senders, i)));
  }

  /** The end of the wait of a sender, of a receiver, or of a task that has nothing to do with the buffer. */
  lemma EndedJoined(k: K, e: Ends, s: M.Mbf, c: Call)
    requires Settled(k) && M.Consistent(s) && Allowed(k, e, s, Serve(c)) && EndsWait(c)
    ensures var (r, u) := MoveStep(k, e, s, Serve(c)); Joined(r, e, u)
  {
    hide Settled, Joined, SameSenders, Step, M.Step, M.Consistent, Still, Without1, Shape, Q, Callable;
    JoinedFacts(k, e, s);
    KnownTask(k, c);
    var t, r := c.t, Step(k, c).0;
    OnlyWaiters1(k, e.snd, t);
    OnlyWaiters1(k, e.rcv, t);
    if t in Q(k, WaitQ(e.snd)) {
      var i := Place(Q(k, WaitQ(e.snd)), t);
      EndedTied(k, e, s, c, i);
      CallStill(k, c, e.rcv);
      GivesUp(s, i);
      SameSendersStill(k, e, s, r, M.Step(s, M.GiveUp(i)));
    } else {
      CallStill(k, c, e.snd);
      if t in Q(k, WaitQ(e.rcv)) {
        var j := Place(Q(k, WaitQ(e.rcv)), t);
        ReceiverLeaves(k, c, t, e.rcv, j);
        DesistJoined(k, r, e, s, j);
      } else {
        CallStill(k, c, e.rcv);
        StillQueue(k, r, e.rcv);
        JoinedStill(k, r, e, s);
      }
    }
  }

  lemma KnownTask(k: K, c: Call)
    requires Shape(k) && Callable(k, c) && EndsWait(c)
    ensures IsTask(k, c.t)
  {
  }

  lemma StillQueue(k: K, r: K, q: WobjId)
    requires Shape(k) && q < |k.cfg.wobj| && Still(k, r, q)
    ensures SameQueue(k, r, q)
  {
  }

  lemma OnlyWaiters1(k: K, q: WobjId, t: TaskId)
    requires Settled(k) && OfBuffer(k.cfg, q) && IsTask(k, t)
    ensures Shape(k) && (t in Q(k, WaitQ(q)) <==> WaitsOn(k.tcb[t].stat, q))
  {
    hide QueueOk, TaskOk;
    OnlyWaiters(k, q, t);
  }

  lemma DesistJoined(k: K, r: K, e: Ends, s: M.Mbf, j: nat)
    requires Joined(k, e, s) && Still(k, r, e.snd) && j < |Q(k, WaitQ(e.rcv))| && Without1(k, r, e.rcv, j)
    ensures Joined(r, e, M.Step(s, M.Desist(j)))
  {
    hide Shape, Q, Drop;
    SendersStill(k, r, e.snd, s);
    SendersOnly(r, e.snd, s, M.Step(s, M.Desist(j)));
  }

  /** chg_pri of a sender, a receiver or anybody else. */
  lemma ChgPriJoined(k: K, e: Ends, s: M.Mbf, t: TaskId, newpri: Option<Pri>)
    requires Settled(k) && Allowed(k, e, s, Serve(ChgPri(t, newpri)))
    ensures var (r, u) := MoveStep(k, e, s, Serve(ChgPri(t, newpri))); Joined(r, e, u)
  {
    hide Settled, Joined, SameSenders, M.Step, Still, Shape, Q, ChangePriority, Dispatch, CheckCeilpri, ScanCeilmtx;
    JoinedFacts(k, e, s);
    OnlyWaiters1(k, e.snd, t);
    OnlyWaiters1(k, e.rcv, t);
    var c := ChgPri(t, newpri);
    var r := Step(k, c).0;
    NewBase(k, t, newpri);
    if t !in Q(k, WaitQ(e.snd)) && t !in Q(k, WaitQ(e.rcv)) {
      CallStill(k, c, e.snd);
      CallStill(k, c, e.rcv);
      StillQueue(k, r, e.rcv);
      JoinedStill(k, r, e, s);
    } else if Moved(k, c).None? {
      RebasedJoined(k, e, s, t, if newpri.Some? then newpri.value else k.cfg.ipri[t]);
    } else {
      MovedJoined(k, e, s, t, if newpri.Some? then newpri.value else k.cfg.ipri[t]);
    }
  }

  lemma NewBase(k: K, t: TaskId, newpri: Option<Pri>)
    requires Shape(k) && IsTask(k, t) && (newpri.Some? ==> newpri.value < TNUM_TPRI)
    ensures t < |k.cfg.ipri| && k.cfg.ipri[t] < TNUM_TPRI
  {
  }

  /** A new base priority alone. */
  lemma RebasedJoined(k: K, e: Ends, s: M.Mbf, t: TaskId, b: Pri)
    requires Joined(k, e, s) && Shape(k) && IsTask(k, t) && b < TNUM_TPRI
    ensures TcbShape(k.cfg, k.tcb[t].(bpri := b)) && Joined(SetTcb(k, t, k.tcb[t].(bpri := b)), e, s)
  {
    hide Joined, SameSenders, Still, Q, CfgOk, QueueShape;
    JoinedFacts(k, e, s);
    StillRecord(k, t, k.tcb[t].(bpri := b), e.snd);
    StillRecord(k, t, k.tcb[t].(bpri := b), e.rcv);
    StillQueue(k, SetTcb(k, t, k.tcb[t].(bpri := b)), e.rcv);
    JoinedStill(k, SetTcb(k, t, k.tcb[t].(bpri := b)), e, s);
  }

  /** A sender or receiver gets another priority. */
  lemma MovedJoined(k: K, e: Ends, s: M.Mbf, t: TaskId, b: Pri)
    requires Settled(k) && Joined(k, e, s) && Shape(k) && IsTask(k, t) && b < TNUM_TPRI
    requires t in Q(k, WaitQ(e.snd)) || t in Q(k, WaitQ(e.rcv))
    ensures TcbShape(k.cfg, k.tcb[t].(bpri := b))
    ensures var ts := Q(k, WaitQ(e.snd));
            var k1 := SetTcb(k, t, k.tcb[t].(bpri := b));
            Joined(Dispatch(ChangePriority(k1, t, b, false)), e, if t in ts then M.Step(s, M.Reprioritize(Place(ts, t), b)) else s)
  {
    hide Settled, Joined, SameSenders, M.Step, Still, SameQueue, Q, ChangePriority, Dispatch, CfgOk, QueueShape;
    JoinedFacts(k, e, s);
    OnlyWaiters1(k, e.snd, t);
    OnlyWaiters1(k, e.rcv, t);
    RebasedJoined(k, e, s, t, b);
    var k1 := SetTcb(k, t, k.tcb[t].(bpri := b));
    FlagStep1(k, t, b, e);
    JoinedFacts(k1, e, s);
    PrioritizedJoined(k1, e, s, t, b, false);
    var ts := Q(k, WaitQ(e.snd));
    JoinedDispatched(ChangePriority(k1, t, b, false), e, if t in ts then M.Step(s, M.Reprioritize(Place(ts, t), b)) else s);
  }

  /** What the invariant says of the two queues, without the rest of it. */
  ghost predicate Lined(k: K, e: Ends)
    requires Shape(k) && e.snd < |k.cfg.wobj| && e.rcv < |k.cfg.wobj|
  {
    && NoDup(Q(k, WaitQ(e.snd)))
    && (forall t :: t in Q(k, WaitQ(e.snd)) ==> t < |k.tcb| && WaitsOn(k.tcb[t].stat, e.snd))
    && (forall t :: t in Q(k, WaitQ(e.rcv)) ==> t < |k.tcb| && WaitsOn(k.tcb[t].stat, e.rcv))
  }

  lemma FlagStep1(k: K, t: TaskId, b: Pri, e: Ends)
    requires Settled(k) && Shape(k) && OfBuffer(k.cfg, e.snd) && OfBuffer(k.cfg, e.rcv) && IsTask(k, t)
    requires TcbShape(k.cfg, k.tcb[t].(bpri := b))
    ensures var k1 := SetTcb(k, t, k.tcb[t].(bpri := b));
            Lined(k1, e) && Q(k1, WaitQ(e.snd)) == Q(k, WaitQ(e.snd)) && Q(k1, WaitQ(e.rcv)) == Q(k, WaitQ(e.rcv))
  {
    hide TaskOk;
    assert QueueOk(k, TIGHT, WaitQ(e.snd)) && QueueOk(k, TIGHT, WaitQ(e.rcv));
  }

  /** change_priority of a task waiting in one of the queues. */
  lemma PrioritizedJoined(k: K, e: Ends, s: M.Mbf, t: TaskId, p: Pri, mtxmode: bool)
    requires Joined(k, e, s) && Shape(k) && Lined(k, e) && p < TNUM_TPRI
    requires t in Q(k, WaitQ(e.snd)) || t in Q(k, WaitQ(e.rcv))
    ensures IsTask(k, t)
    ensures var ts := Q(k, WaitQ(e.snd));
            Joined(ChangePriority(k, t, p, mtxmode), e, if t in ts then M.Step(s, M.Reprioritize(Place(ts, t), p)) else s)
  {
    hide Joined, SameSenders, Still, SameQueue, Q, ChangePriority, NoDup, CfgOk, QueueShape, TaskShape;
    JoinedFacts(k, e, s);
    var ts, r := Q(k, WaitQ(e.snd)), ChangePriority(k, t, p, mtxmode);
    if t in ts {
      var i := Place(ts, t);
      assert ts[i] in ts;
      SenderKnown(k, e, s, i);
      MovedTied(k, e.snd, s, i, p, mtxmode);
      StillMovedElsewhere(k, t, p, mtxmode, e.rcv);
      SameSendersStill(k, e, s, r, M.Step(s, M.Reprioritize(i, p)));
    } else {
      StillMovedElsewhere(k, t, p, mtxmode, e.snd);
      MovedReceiver(k, t, p, mtxmode, e.rcv);
      JoinedStill(k, r, e, s);
    }
  }

  lemma StillMovedElsewhere(k: K, t: TaskId, p: Pri, mtxmode: bool, q: WobjId)
    requires Shape(k) && q < |k.cfg.wobj| && IsTask(k, t) && p < TNUM_TPRI && !WaitsOn(k.tcb[t].stat, q)
    requires t !in Q(k, WaitQ(q))
    ensures Still(k, ChangePriority(k, t, p, mtxmode), q)
  {
    StillMoved(k, t, p, mtxmode, q);
  }

  lemma SenderKnown(k: K, e: Ends, s: M.Mbf, i: nat)
    requires Joined(k, e, s) && Lined(k, e) && i < |s.senders|
    ensures SameSenders(k, e.snd, s) && Sender(k, e.snd, s, i)
  {
    hide Shape;
    assert Q(k, WaitQ(e.snd))[i] in Q(k, WaitQ(e.snd));
    RemoveIsDrop(Q(k, WaitQ(e.snd)), i);
  }

  lemma LinedUp(k: K, e: Ends)
    requires Inv(k, TIGHT) && OfBuffer(k.cfg, e.snd) && OfBuffer(k.cfg, e.rcv)
    ensures Shape(k) && Lined(k, e)
  {
    hide TaskOk;
    assert QueueOk(k, TIGHT, WaitQ(e.snd)) && QueueOk(k, TIGHT, WaitQ(e.rcv));
  }

  lemma LinedSame(k: K, r: K, e: Ends)
    requires Shape(k) && e.snd < |k.cfg.wobj| && e.rcv < |k.cfg.wobj| && Lined(k, e)
    requires Still(k, r, e.snd) && Still(k, r, e.rcv) && r.tcb == k.tcb
    ensures Lined(r, e)
  {
    hide Shape, Q, NoDup;
  }

  /** The mutex as it is when the priority of its last owner is reconsidered. */
  lemma Unowned(k: K, e: Ends, s: M.Mbf, m: WobjId) returns (k2: K)
    requires Inv(k, TIGHT) && Joined(k, e, s) && IsMutex(k.cfg, m) && Shape(k) && k.owner[m].Some?
    ensures var o := k.owner[m].value;
            var k1 := InitWaitQueue(k, m);
            && IsTask(k, o) && |k1.held| == |k.held| && (forall x :: x in Remove(k1.held[o], m) ==> x in k1.held[o])
            && Shape(k1) && k1.cfg == k.cfg && |k1.tcb| == |k.tcb| && m < |k1.owner| && (forall x :: x in k1.held[o] ==> IsMutex(k.cfg, x))
            && k2 == SetHeld(SetOwner(k1, m, None), o, Remove(k1.held[o], m))
            && k2.tcb[o] == k.tcb[o] && k2.held[o] == Remove(k.held[o], m) && k2.cfg == k.cfg && |k2.held| == |k2.tcb| == |k.tcb|
            && Shape(k2) && Joined(k2, e, s) && Lined(k2, e)
            && Q(k2, WaitQ(e.snd)) == Q(k, WaitQ(e.snd)) && Q(k2, WaitQ(e.rcv)) == Q(k, WaitQ(e.rcv))
  {
    hide InitWaitQueue, Joined, SameSenders, Still, SameQueue, Lined, QueueOk, TaskOk, Q, QueueShape;
    JoinedFacts(k, e, s);
    var k1, o := InitWaitQueue(k, m), k.owner[m].value;
    InitKeeps(k, m, o);
    InitWaitQueueInv(k, TIGHT, m);
    RemoveMembersOf(k1.held[o], m);
    StillReleased(k, m, e.snd);
    StillReleased(k, m, e.rcv);
    StillFacts(k, k1, e.snd);
    StillFacts(k, k1, e.rcv);
    LinedUp(k1, e);
    k2 := SetHeld(SetOwner(k1, m, None), o, Remove(k1.held[o], m));
    StillOwners(k1, m, o, e.snd);
    StillOwners(k1, m, o, e.rcv);
    LinedSame(k1, k2, e);
    StillAgain(k, k1, k2, e.snd);
    StillAgain(k, k1, k2, e.rcv);
    StillFacts(k, k2, e.snd);
    StillFacts(k, k2, e.rcv);
    StillQueue(k, k2, e.rcv);
    JoinedStill(k, k2, e, s);
  }

  /** ini_mtx of a mutex whose owner waits in one of the queues, or of any other. */
  lemma IniMtxJoined(k: K, e: Ends, s: M.Mbf, m: WobjId)
    requires Settled(k) && Allowed(k, e, s, Serve(IniMtx(m)))
    ensures var (r, u) := MoveStep(k, e, s, Serve(IniMtx(m))); Joined(r, e, u)
  {
    hide Settled, Joined, SameSenders, M.Step, Still, Lined, Shape, Q, IniMtxStep;
    JoinedFacts(k, e, s);
    var r := Step(k, IniMtx(m)).0;
    if k.owner[m].Some? && (k.owner[m].value in Q(k, WaitQ(e.snd)) || k.owner[m].value in Q(k, WaitQ(e.rcv))) {
      OwnerJoined(k, e, s, m);
    } else {
      CallStill(k, IniMtx(m), e.snd);
      CallStill(k, IniMtx(m), e.rcv);
      StillQueue(k, r, e.rcv);
      JoinedStill(k, r, e, s);
    }
  }

  lemma OwnerJoined(k: K, e: Ends, s: M.Mbf, m: WobjId)
    requires Settled(k) && Joined(k, e, s) && Shape(k) && IsMutex(k.cfg, m) && Callable(k, IniMtx(m)) && k.owner[m].Some?
    requires k.owner[m].value in Q(k, WaitQ(e.snd)) || k.owner[m].value in Q(k, WaitQ(e.rcv))
    ensures var mv, ts := Moved(k, IniMtx(m)), Q(k, WaitQ(e.snd));
            Joined(IniMtxStep(k, m).0, e,
                   if mv.Some? && mv.value.0 in ts then M.Step(s, M.Reprioritize(Place(ts, mv.value.0), mv.value.1)) else s)
  {
    hide Joined, SameSenders, M.Step, Still, Lined, InitWaitQueue, ChangePriority, Dispatch, QueueOk, TaskOk, Q,
      CfgOk, QueueShape;
    JoinedFacts(k, e, s);
    var o := k.owner[m].value;
    var k2 := Unowned(k, e, s, m);
    var newpri := MinCeiling(k.cfg, k.tcb[o].bpri, Remove(k.held[o], m));
    if Ceiling(k.cfg, m) == Some(k.tcb[o].pri) && newpri != k.tcb[o].pri {
      PrioritizedJoined(k2, e, s, o, newpri, true);
      var ts := Q(k, WaitQ(e.snd));
      JoinedDispatched(ChangePriority(k2, o, newpri, true), e, if o in ts then M.Step(s, M.Reprioritize(Place(ts, o), newpri)) else s);
    } else {
      JoinedDispatched(k2, e, s);
    }
  }

  /** A call that is not one of the buffer's. */
  lemma ServedJoined(k: K, e: Ends, s: M.Mbf, c: Call)
    requires Settled(k) && M.Consistent(s) && Allowed(k, e, s, Serve(c))
    ensures var (r, u) := MoveStep(k, e, s, Serve(c)); Joined(r, e, u)
  {
    hide Settled, Joined, SameSenders, M.Step, M.Consistent, Still, Shape, Q, Step, Callable;
    JoinedFacts(k, e, s);
    if EndsWait(c) {
      EndedJoined(k, e, s, c);
    } else if c.ChgPri? {
      ChgPriJoined(k, e, s, c.t, c.newpri);
    } else if c.IniMtx? {
      IniMtxJoined(k, e, s, c.m);
    } else {
      CallStill(k, c, e.snd);
      CallStill(k, c, e.rcv);
      StillQueue(k, Step(k, c).0, e.rcv);
      JoinedStill(k, Step(k, c).0, e, s);
    }
  }

  // ---------------------------------------------------------------- the buffer's own calls

  /** A task that has to wait enters both queues. */
  lemma SenderEnters(k: K, q: WobjId, s: M.Mbf, w: Waiter<R.Message>, tmo: bool)
    requires SameSenders(k, q, s) && IsTask(k, w.tid) && w.pri == k.tcb[w.tid].pri
    ensures SameSenders(WobjMakeWait(k, w.tid, q, tmo), q, s.(senders := Enter(s.senders, w, s.byPri)))
  {
    hide MakeWait, Enter, CfgOk, TaskShape;
    var k1, ts := MakeWait(k, w.tid, OnQueue(q), tmo), Q(k, WaitQ(q));
    WaitKeeps(k, w.tid, q, tmo);
    SamePlace(k1.tcb, ts, s.senders, w.pri);
    PlaceInRange(s.senders, w.pri);
    Inserted(k1, ts, s.senders, w.tid, w, if s.byPri then PlaceOf(s.senders, w.pri) else |ts|);
    EnterIs(s.senders, w, s.byPri);
  }

  lemma WaitKeeps(k: K, t: TaskId, q: WobjId, tmo: bool)
    requires Shape(k) && IsTask(k, t) && q < |k.cfg.wobj|
    ensures var r := MakeWait(k, t, OnQueue(q), tmo);
            && Shape(r) && r.cfg == k.cfg && |r.tcb| == |k.tcb| && Q(r, WaitQ(q)) == Q(k, WaitQ(q))
            && forall u :: 0 <= u < |k.tcb| ==> r.tcb[u].pri == k.tcb[u].pri
  {
    hide TaskShape, CfgOk;
  }

  lemma {:induction false} EnterIs(q: seq<Waiter<R.Message>>, w: Waiter<R.Message>, byPri: bool)
    ensures PlaceOf(q, w.pri) <= |q| && Enter(q, w, byPri) == InsertAt(q, if byPri then PlaceOf(q, w.pri) else |q|, w)
  {
    PlaceInRange(q, w.pri);
    if !byPri {
      hide PlaceOf;
      assert q[..|q|] == q && q[|q|..] == [];
    }
  }

  lemma ReceiverEnters(k: K, q: WobjId, t: TaskId, tmo: bool)
    requires Shape(k) && q < |k.cfg.wobj| && k.cfg.wobj[q].kind.Receiver? && IsTask(k, t)
    ensures var r := WobjMakeWait(k, t, q, tmo);
            Shape(r) && r.cfg == k.cfg && |r.tcb| == |k.tcb| && Q(r, WaitQ(q)) == Q(k, WaitQ(q)) + [t]
  {
    hide TaskShape;
  }

  lemma SentJoined(k: K, e: Ends, s: M.Mbf, w: Waiter<R.Message>, wait: bool, tmo: bool)
    requires Joined(k, e, s) && (wait ==> IsTask(k, w.tid) && w.pri == k.tcb[w.tid].pri)
    ensures var (r, u) := Sent(k, e, s, w, wait, tmo); Joined(r, e, u)
  {
    hide Joined, SameSenders, Still, WakeFirst, WobjMakeWait, Dispatch, Enter, Shape, Q, M.Fits;
    JoinedFacts(k, e, s);
    var u := M.Step(s, M.Send(w, wait));
    if !M.Sendable(s, w) {
    } else if Q(k, WaitQ(e.rcv)) != [] {
      var r := WakeFirst(k, e.rcv, E_OK);
      StillWoken(k, e.rcv, E_OK, e.snd);
      WokenRest(k, e.rcv, E_OK);
      HeadGone(k, r, e, s, u);
      JoinedDispatched(r, e, u);
    } else if (Q(k, WaitQ(e.snd)) == [] && M.Fits(s, w.item)) || !wait {
      SameLists(k, e, s, u);
    } else {
      var r := WobjMakeWait(k, w.tid, e.snd, tmo);
      SenderEnters(k, e.snd, s, w, tmo);
      StillWaiting(k, w.tid, OnQueue(e.snd), tmo, e.rcv);
      SameSendersStill(k, e, s, r, u);
      JoinedDispatched(r, e, u);
    }
  }

  /** The first receiver is gone. */
  lemma HeadGone(k: K, r: K, e: Ends, s: M.Mbf, u: M.Mbf)
    requires Joined(k, e, s) && Still(k, r, e.snd) && s.receivers != [] && Q(r, WaitQ(e.rcv)) == Q(k, WaitQ(e.rcv))[1..]
    requires u.senders == s.senders && u.byPri == s.byPri && u.receivers == s.receivers[1..]
    ensures Joined(r, e, u)
  {
    hide Shape, Q;
    SendersStill(k, r, e.snd, s);
    SendersOnly(r, e.snd, s, u);
  }

  lemma SameLists(k: K, e: Ends, s: M.Mbf, u: M.Mbf)
    requires Joined(k, e, s) && u.senders == s.senders && u.byPri == s.byPri && u.receivers == s.receivers
    ensures Joined(k, e, u)
  {
    hide Shape, Q;
    SendersOnly(k, e.snd, s, u);
  }

  lemma ReceivedJoined(k: K, e: Ends, s: M.Mbf, me: TaskId, wait: bool, tmo: bool)
    requires Joined(k, e, s) && M.Consistent(s) && (wait ==> IsTask(k, me))
    ensures var (r, u) := Received(k, e, s, me, wait, tmo); Joined(r, e, u)
  {
    hide Joined, SameSenders, Still, WakeFirst, WobjMakeWait, MbfSignal, Dispatch, Shape, Q, M.Signal, M.Consistent;
    JoinedFacts(k, e, s);
    var u := M.Step(s, M.Receive(me, wait));
    if s.stored != [] {
      var t := Taken1(s);
      SameLists(k, e, s, t);
      JoinedFacts(k, e, t);
      SignalTied(k, e.snd, t);
      StillSignalled(k, e.snd, GoOn(t), e.rcv);
      SignalKeepsReceivers(s);
      SameSendersStill(k, e, t, MbfSignal(k, e.snd, GoOn(t)), u);
      JoinedDispatched(MbfSignal(k, e.snd, GoOn(t)), e, u);
    } else if Q(k, WaitQ(e.snd)) != [] {
      var r := WakeFirst(k, e.snd, E_OK);
      WakeTied(k, e.snd, s);
      SendersOnly(r, e.snd, FirstIn(s), u);
      StillWoken(k, e.snd, E_OK, e.rcv);
      SameSendersStill(k, e, s, r, u);
      JoinedDispatched(r, e, u);
    } else if wait {
      var r := WobjMakeWait(k, me, e.rcv, tmo);
      ReceiverEnters(k, e.rcv, me, tmo);
      StillWaiting(k, me, OnQueue(e.rcv), tmo, e.snd);
      TailCome(k, r, e, s, u, me);
      JoinedDispatched(r, e, u);
    }
  }

  lemma TailCome(k: K, r: K, e: Ends, s: M.Mbf, u: M.Mbf, t: TaskId)
    requires Joined(k, e, s) && Still(k, r, e.snd) && Q(r, WaitQ(e.rcv)) == Q(k, WaitQ(e.rcv)) + [t]
    requires u == s.(receivers := s.receivers + [t])
    ensures Joined(r, e, u)
  {
    hide Shape, Q;
    SendersStill(k, r, e.snd, s);
    SendersOnly(r, e.snd, s, u);
  }

  lemma SignalKeepsReceivers(s: M.Mbf)
    requires M.Consistent(s) && s.stored != []
    ensures var r := M.Signal(Taken1(s)); r.byPri == s.byPri && r.receivers == s.receivers
  {
    hide M.Signal;
    TakenConsistent(s);
    M.SignalKeepsOrder(Taken1(s));
  }

  lemma TakenConsistent(s: M.Mbf)
    requires M.Consistent(s) && s.stored != []
    ensures M.Consistent(Taken1(s))
  {
  }

  lemma InitJoined(k: K, e: Ends, s: M.Mbf)
    requires Joined(k, e, s)
    ensures var (r, u) := MoveStep(k, e, s, IniMbf); Joined(r, e, u)
  {
    hide Joined, SameSenders, Still, InitWaitQueue, Dispatch, Shape, Q;
    JoinedFacts(k, e, s);
    var k1 := InitWaitQueue(k, e.snd);
    StillReleased(k, e.snd, e.rcv);
    StillFacts(k, k1, e.rcv);
    var k2, u := InitWaitQueue(k1, e.rcv), M.Step(s, M.Init);
    StillReleased(k1, e.rcv, e.snd);
    StillFacts(k1, k2, e.snd);
    AllReleased(k, e.snd);
    AllReleased(k1, e.rcv);
    NobodyJoined(k2, e, u);
    JoinedDispatched(k2, e, u);
  }

  lemma AllReleased(k: K, q: WobjId)
    requires Shape(k) && q < |k.cfg.wobj|
    ensures var r := InitWaitQueue(k, q); Shape(r) && r.cfg == k.cfg && Q(r, WaitQ(q)) == []
  {
  }

  lemma NobodyJoined(k: K, e: Ends, u: M.Mbf)
    requires Shape(k) && BufferOf(k.cfg, e, u.byPri) && Q(k, WaitQ(e.snd)) == [] && Q(k, WaitQ(e.rcv)) == []
    requires u.senders == [] && u.receivers == []
    ensures Joined(k, e, u)
  {
  }

  /** Every move keeps the kernel's queues those of the buffer. */
  lemma MoveJoined(k: K, e: Ends, s: M.Mbf, m: Move)
    requires Settled(k) && M.Consistent(s) && Allowed(k, e, s, m)
    ensures var (r, u) := MoveStep(k, e, s, m); Joined(r, e, u)
  {
    hide Settled, Joined, M.Step, M.Consistent, Sent, Received, Effect, Step, Callable, Q;
    match m
    case Serve(c) => ServedJoined(k, e, s, c);
    case Snd(msg, tmo) =>
      SettledShape(k);
      SentJoined(k, e, s, Waiter(k.run.value, k.tcb[k.run.value].pri, msg), !tmo.Poll?, tmo.Timed?);
    case Psnd(msg) => SentJoined(k, e, s, Waiter(0, 0, msg), false, false);
    case Rcv(tmo) =>
      SettledShape(k);
      ReceivedJoined(k, e, s, k.run.value, !tmo.Poll?, tmo.Timed?);
    case Prcv => ReceivedJoined(k, e, s, 0, false, false);
    case IniMbf => InitJoined(k, e, s);
  }

  // ---------------------------------------------------------------- and the kernel's own invariant

  /** The end of a call that leaves runnable tasks runnable. */
  lemma SettledAfter(k: K, r: K)
    requires Settled(k) && Shape(k) && Inv(r, TIGHT) && Bystanders(k, r, TIGHT)
    ensures Shape(r) && Settled(Dispatch(r))
  {
    hide QueueOk, TaskOk, Dispatch;
    DispatchInv(r);
  }

  lemma WokenSettled(k: K, q: WobjId)
    requires Settled(k) && Shape(k) && q < |k.cfg.wobj| && Q(k, WaitQ(q)) != []
    ensures Shape(WakeFirst(k, q, E_OK)) && Settled(Dispatch(WakeFirst(k, q, E_OK)))
  {
    hide QueueOk, TaskOk, WakeFirst, Dispatch, QueueShape, TaskShape, CfgOk;
    WakeFirstInv(k, TIGHT, q, E_OK);
    SettledAfter(k, WakeFirst(k, q, E_OK));
  }

  lemma SignalledSettled(k: K, q: WobjId, n: nat)
    requires Settled(k) && Shape(k) && q < |k.cfg.wobj|
    ensures Shape(MbfSignal(k, q, n)) && Settled(Dispatch(MbfSignal(k, q, n)))
  {
    hide QueueOk, TaskOk, MbfSignal, Dispatch, QueueShape, TaskShape, CfgOk;
    MbfSignalInv(k, TIGHT, q, n);
    SettledAfter(k, MbfSignal(k, q, n));
  }

  lemma WaitSettled(k: K, t: TaskId, q: WobjId, tmo: bool)
    requires Settled(k) && Shape(k) && k.run == Some(t) && k.dsp && OfBuffer(k.cfg, q)
    ensures IsTask(k, t) && Shape(WobjMakeWait(k, t, q, tmo)) && Settled(Dispatch(WobjMakeWait(k, t, q, tmo)))
  {
    hide QueueOk, TaskOk, Dispatch;
    WobjWaitStep(k, t, q, tmo);
  }

  lemma ResetSettled(k: K, e: Ends)
    requires Settled(k) && Shape(k) && e.snd < |k.cfg.wobj| && e.rcv < |k.cfg.wobj|
    ensures var k1 := InitWaitQueue(k, e.snd);
            Shape(k1) && e.rcv < |k1.cfg.wobj| && Shape(InitWaitQueue(k1, e.rcv)) && Settled(Dispatch(InitWaitQueue(k1, e.rcv)))
  {
    hide QueueOk, TaskOk, InitWaitQueue, Dispatch, QueueShape, TaskShape, CfgOk;
    var k1 := InitWaitQueue(k, e.snd);
    InitWaitQueueInv(k, TIGHT, e.snd);
    InitWaitQueueInv(k1, TIGHT, e.rcv);
    BystandersTrans(k, k1, InitWaitQueue(k1, e.rcv), TIGHT);
    SettledAfter(k, InitWaitQueue(k1, e.rcv));
  }

  lemma SentSettled(k: K, e: Ends, s: M.Mbf, w: Waiter<R.Message>, wait: bool, tmo: bool)
    requires Settled(k) && Joined(k, e, s) && (wait ==> k.dsp && k.run == Some(w.tid) && IsTask(k, w.tid))
    ensures Settled(Sent(k, e, s, w, wait, tmo).0)
  {
    hide Settled, Joined, SameSenders, WakeFirst, WobjMakeWait, Dispatch, Shape, Q, M.Step, M.Fits;
    JoinedFacts(k, e, s);
    if Q(k, WaitQ(e.rcv)) != [] { WokenSettled(k, e.rcv); }
    if wait { WaitSettled(k, w.tid, e.snd, tmo); }
  }

  lemma ReceivedSettled(k: K, e: Ends, s: M.Mbf, me: TaskId, wait: bool, tmo: bool)
    requires Settled(k) && Joined(k, e, s) && (wait ==> k.dsp && k.run == Some(me) && IsTask(k, me))
    ensures Settled(Received(k, e, s, me, wait, tmo).0)
  {
    hide Settled, Joined, SameSenders, WakeFirst, MbfSignal, WobjMakeWait, Dispatch, Shape, Q, M.Step;
    JoinedFacts(k, e, s);
    if s.stored != [] { SignalledSettled(k, e.snd, GoOn(Taken1(s))); }
    if Q(k, WaitQ(e.snd)) != [] { WokenSettled(k, e.snd); }
    if wait { WaitSettled(k, me, e.rcv, tmo); }
  }

  lemma MoveSettled(k: K, e: Ends, s: M.Mbf, m: Move)
    requires Settled(k) && Allowed(k, e, s, m)
    ensures Settled(MoveStep(k, e, s, m).0)
  {
    hide Settled, Joined, M.Step, Sent, Received, Effect, Step, Callable, Counted, InitWaitQueue, Q, Shape;
    JoinedFacts(k, e, s);
    SettledShape(k);
    match m
    case Serve(c) => StepSettled(k, c);
    case Snd(msg, tmo) =>
      if k.dsp { SentSettled(k, e, s, Waiter(k.run.value, k.tcb[k.run.value].pri, msg), !tmo.Poll?, tmo.Timed?); }
    case Psnd(msg) => SentSettled(k, e, s, Waiter(0, 0, msg), false, false);
    case Rcv(tmo) =>
      if k.dsp { ReceivedSettled(k, e, s, k.run.value, !tmo.Poll?, tmo.Timed?); }
    case Prcv => ReceivedSettled(k, e, s, 0, false, false);
    case IniMbf => ResetSettled(k, e);
  }

  // ---------------------------------------------------------------- every joint run

  /** A move is at most one call on the buffer. */
  lemma OneCall(k: K, e: Ends, s: M.Mbf, m: Move) returns (call: Option<M.MbfCall>)
    requires Allowed(k, e, s, m)
    ensures MoveStep(k, e, s, m).1 == if call.Some? then M.Step(s, call.value) else s
  {
    hide M.Step, Joined, Effect, Step, Callable, Counted, WakeFirst, MbfSignal, InitWaitQueue, WobjMakeWait, Dispatch, Q, M.Fits;
    JoinedFacts(k, e, s);
    match m
    case Serve(c) =>
      call := Effect(k, e, c);
    case Snd(msg, tmo) =>
      var me := k.run.value;
      call := if !k.dsp || k.tcb[me].raster then None else Some(M.Send(Waiter(me, k.tcb[me].pri, msg), !tmo.Poll?));
    case Psnd(msg) =>
      call := Some(M.Send(Waiter(0, 0, msg), false));
    case Rcv(tmo) =>
      call := if !k.dsp || k.tcb[k.run.value].raster then None else Some(M.Receive(k.run.value, !tmo.Poll?));
    case Prcv =>
      call := Some(M.Receive(0, false));
    case IniMbf =>
      call := Some(M.Init);
  }

  datatype Pair = Pair(k: K, s: M.Mbf)

  ghost predicate IsRun(c: Cfg, e: Ends, size: nat, maxmsz: nat, byPri: bool, ps: seq<Pair>, ms: seq<Move>) {
    && CfgOk(c) && BufferOf(c, e, byPri) && |ps| == |ms| + 1
    && ps[0] == Pair(Initial(c), M.Empty(size, maxmsz, byPri))
    && forall i {:trigger ms[i]} :: 0 <= i < |ms| ==>
         Allowed(ps[i].k, e, ps[i].s, ms[i]) && (ps[i + 1].k, ps[i + 1].s) == MoveStep(ps[i].k, e, ps[i].s, ms[i])
  }

  lemma InitialJoined(c: Cfg, e: Ends, size: nat, maxmsz: nat, byPri: bool)
    requires CfgOk(c) && BufferOf(c, e, byPri)
    ensures Settled(Initial(c)) && Joined(Initial(c), e, M.Empty(size, maxmsz, byPri))
    ensures M.Consistent(M.Empty(size, maxmsz, byPri))
  {
    hide Settled;
    InitialSettled(c);
    SettledShape(Initial(c));
  }

  /** In every joint run the kernel's invariant and the buffer's hold, and the queues of both are the same:
      the same senders in the same order with their current priorities, the same receivers. A buffer of
      safe sizes leaves no sender waiting in vain, whatever the tasks do. */
  lemma {:induction false} RunJoined(c: Cfg, e: Ends, size: nat, maxmsz: nat, byPri: bool, ps: seq<Pair>, ms: seq<Move>, n: nat)
    requires IsRun(c, e, size, maxmsz, byPri, ps, ms) && n < |ps|
    ensures Settled(ps[n].k) && Joined(ps[n].k, e, ps[n].s) && M.Consistent(ps[n].s)
    ensures ps[n].s.size == size && ps[n].s.maxmsz == maxmsz && ps[n].s.byPri == byPri && M.InOrder(ps[n].s)
    ensures M.SafeSizes(size, maxmsz, byPri) ==> M.NoneInVain(ps[n].s)
  {
    hide Settled, Joined, M.Step, M.Consistent, M.InOrder, M.SafeSizes, M.NoneInVain, MoveStep, Allowed;
    if n == 0 {
      InitialJoined(c, e, size, maxmsz, byPri);
      NoSenders(size, maxmsz, byPri);
    } else {
      RunJoined(c, e, size, maxmsz, byPri, ps, ms, n - 1);
      var k, s, m := ps[n - 1].k, ps[n - 1].s, ms[n - 1];
      MoveJoined(k, e, s, m);
      MoveSettled(k, e, s, m);
      var call := OneCall(k, e, s, m);
      if call.Some? {
        M.StepConsistent(s, call.value);
        M.StepKeepsShape(s, call.value);
        M.StepInOrder(s, call.value);
        if M.SafeSizes(size, maxmsz, byPri) { M.StepNotInVain(s, call.value); }
      }
    }
  }

  lemma NoSenders(size: nat, maxmsz: nat, byPri: bool)
    ensures M.InOrder(M.Empty(size, maxmsz, byPri)) && M.NoneInVain(M.Empty(size, maxmsz, byPri))
  {
  }
}
