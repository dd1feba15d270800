/**
 Termination requests: a task asked to terminate never waits and is never suspended, and once it allows
 termination and dispatching is enabled it is terminated at once.
 */
module KernelTermination {
  import opened Base
  import opened KernelState
  import opened KernelCalls
  import opened KernelRuns
  import opened KernelTheorems

  /** A task with a request is runnable; it allows termination only if the request is put off. */
  predicate RequestOk(r: Tcb, putOff: bool) {
    r.raster ==> r.stat.Runnable? && (r.enater ==> putOff)
  }

  /** Dispatching is disabled by the task. */
  predicate PutOff(k: K, t: TaskId) { !k.dsp && k.run == Some(t) }

  ghost predicate Served(k: K) {
    forall t :: 0 <= t < |k.tcb| ==> RequestOk(k.tcb[t], PutOff(k, t))
  }

  // ---------------------------------------------------------------- what the moves of a call leave alone

  /** No request is new, none has come to be allowed, and no task with one has stopped. */
  predicate CalmTcb(a: Tcb, b: Tcb) {
    b.raster ==> a.raster && (b.enater ==> a.enater) && (a.stat.Runnable? ==> b.stat.Runnable?)
  }

  ghost predicate Calm(k: K, r: K) {
    && |r.tcb| == |k.tcb| && r.dsp == k.dsp && r.run == k.run
    && forall t :: 0 <= t < |k.tcb| ==> CalmTcb(k.tcb[t], r.tcb[t])
  }

  lemma CalmServed(k: K, r: K)
    requires Served(k) && Calm(k, r)
    ensures Served(r) && (Shape(r) ==> Served(Dispatch(r)))
  {
    forall t | 0 <= t < |r.tcb| ensures RequestOk(r.tcb[t], PutOff(r, t)) {
      assert RequestOk(k.tcb[t], PutOff(k, t)) && CalmTcb(k.tcb[t], r.tcb[t]);
    }
    if Shape(r) {
      var d := Dispatch(r);
      forall t | 0 <= t < |d.tcb| ensures RequestOk(d.tcb[t], PutOff(d, t)) {
        assert RequestOk(r.tcb[t], PutOff(r, t));
      }
    }
  }

  lemma CalmAgain(k: K, r: K, u: K)
    requires Calm(k, r) && Calm(r, u)
    ensures Calm(k, u)
  {
    forall t | 0 <= t < |k.tcb| ensures CalmTcb(k.tcb[t], u.tcb[t]) {
      assert CalmTcb(k.tcb[t], r.tcb[t]) && CalmTcb(r.tcb[t], u.tcb[t]);
    }
  }

  lemma CalmWaitEnd(k: K, t: TaskId, e: Ercd)
    requires Shape(k) && IsTask(k, t)
    ensures Calm(k, MakeNonWait(k, t)) && Calm(k, WaitEnd(k, t, e)) && Calm(k, DequeueTmevtb(k, t))
    ensures Calm(k, SetWercd(DequeueTmevtb(k, t), t, e))
  {
    hide QueueShape, TaskShape, CfgOk;
  }

  lemma CalmWakeFirst(k: K, q: WobjId, e: Ercd)
    requires Shape(k) && q < |k.cfg.wobj| && Q(k, WaitQ(q)) != []
    ensures Calm(k, WakeFirst(k, q, e))
  {
    hide WaitEnd, Calm, TaskShape, CfgOk;
    var k1 := SetQ(k, WaitQ(q), Q(k, WaitQ(q))[1..]);
    CalmQueues(k, k1);
    CalmWaitEnd(k1, Q(k, WaitQ(q))[0], e);
    CalmAgain(k, k1, WakeFirst(k, q, e));
  }

  lemma CalmQueues(k: K, r: K)
    requires r.tcb == k.tcb && r.dsp == k.dsp && r.run == k.run
    ensures Calm(k, r)
  {
  }

  lemma {:induction false} CalmSignal(k: K, q: WobjId, n: nat)
    requires Shape(k) && q < |k.cfg.wobj|
    ensures Calm(k, MbfSignal(k, q, n))
    decreases n
  {
    hide WakeFirst, Calm, Shape;
    if n == 0 || Q(k, WaitQ(q)) == [] {
      CalmQueues(k, k);
    } else {
      var r := WakeFirst(k, q, E_OK);
      CalmWakeFirst(k, q, E_OK);
      WakeFirstSame(k, q, E_OK);
      CalmSignal(r, q, n - 1);
      CalmAgain(k, r, MbfSignal(k, q, n));
    }
  }

  lemma WakeFirstSame(k: K, q: WobjId, e: Ercd)
    requires Shape(k) && q < |k.cfg.wobj| && Q(k, WaitQ(q)) != []
    ensures Shape(WakeFirst(k, q, e)) && WakeFirst(k, q, e).cfg == k.cfg
    ensures Q(WakeFirst(k, q, e), WaitQ(q)) == Q(k, WaitQ(q))[1..]
  {
  }

  lemma {:induction false} CalmInit(k: K, q: WobjId)
    requires Shape(k) && q < |k.cfg.wobj|
    ensures Calm(k, InitWaitQueue(k, q))
    decreases |Q(k, WaitQ(q))|
  {
    hide WakeFirst, Calm, Shape;
    if Q(k, WaitQ(q)) == [] {
      CalmQueues(k, k);
    } else {
      var r := WakeFirst(k, q, E_DLT);
      CalmWakeFirst(k, q, E_DLT);
      WakeFirstSame(k, q, E_DLT);
      CalmInit(r, q);
      CalmAgain(k, r, InitWaitQueue(k, q));
    }
  }

  lemma CalmDequeue(k: K, t: TaskId, n: nat)
    requires Shape(k) && IsTask(k, t)
    ensures Calm(k, WaitDequeueWobj(k, t, n))
  {
    hide MbfSignal, Calm, QueueShape, CfgOk;
    CalmQueues(k, k);
    if k.tcb[t].stat.Waiting? && k.tcb[t].stat.cause.OnQueue? {
      var q := k.tcb[t].stat.cause.q;
      var k1 := Unlink(k, WaitQ(q), t);
      CalmQueues(k, k1);
      CalmSignal(k1, q, n);
      CalmAgain(k, k1, MbfSignal(k1, q, n));
    }
  }

  lemma CalmChange(k: K, t: TaskId, p: Pri, mtxmode: bool)
    requires Shape(k) && IsTask(k, t) && p < TNUM_TPRI
    ensures Calm(k, ChangePriority(k, t, p, mtxmode))
  {
    hide QueueShape, TaskShape, CfgOk;
  }

  lemma CalmAcquire(k: K, t: TaskId, m: WobjId)
    requires Shape(k) && IsTask(k, t) && IsMutex(k.cfg, m)
    ensures Calm(k, MutexAcquire(k, t, m)) && Calm(k, MutexDropPriority(k, t, m)) && Calm(k, MutexHandOver(k, m, t))
  {
    hide ChangePriority, QueueShape;
    var k1 := SetHeld(SetOwner(k, m, Some(t)), t, k.held[t] + [m]);
    var c, newpri := Ceiling(k.cfg, m), MinCeiling(k.cfg, k.tcb[t].bpri, k.held[t]);
    if c.Some? && c.value < k.tcb[t].pri { CalmChange(k1, t, c.value, true); }
    CalmChange(k, t, newpri, true);
  }

  lemma CalmRelease(k: K, m: WobjId)
    requires Shape(k) && IsMutex(k.cfg, m)
    ensures Calm(k, MutexRelease(k, m))
  {
    hide Calm, MutexHandOver, MakeNonWait, TaskShape, CfgOk;
    var s := Q(k, WaitQ(m));
    if s == [] {
      CalmQueues(k, MutexRelease(k, m));
    } else {
      var t, k0 := s[0], SetQ(k, WaitQ(m), s[1..]);
      var k1 := SetWercd(DequeueTmevtb(k0, t), t, E_OK);
      CalmQueues(k, k0);
      CalmWaitEnd(k0, t, E_OK);
      CalmAgain(k, k0, k1);
      CalmAcquire(k1, t, m);
      CalmAgain(k, k1, MutexHandOver(k1, m, t));
      CalmWaitEnd(MutexHandOver(k1, m, t), t, E_OK);
      CalmAgain(k, MutexHandOver(k1, m, t), MutexRelease(k, m));
    }
  }

  lemma {:induction false} CalmReleaseAll(k: K, t: TaskId, n: nat)
    requires Shape(k) && IsTask(k, t)
    ensures Calm(k, MutexReleaseAll(k, t, n))
    decreases n
  {
    hide MutexRelease, Calm, QueueShape, CfgOk;
    CalmQueues(k, k);
    if n > 0 && k.held[t] != [] {
      var k1, m := PopHeld(k, t), k.held[t][|k.held[t]| - 1];
      CalmQueues(k, k1);
      CalmRelease(k1, m);
      CalmReleaseAll(MutexRelease(k1, m), t, n - 1);
      CalmAgain(k, k1, MutexRelease(k1, m));
      CalmAgain(k, MutexRelease(k1, m), MutexReleaseAll(k, t, n));
    }
  }

  lemma CalmDormant(k: K, t: TaskId)
    requires Shape(k) && IsTask(k, t)
    ensures var r := MakeDormant(k, t);
            var u := if r.tcb[t].actque then MakeActive(SetTcb(r, t, r.tcb[t].(actque := false)), t) else r;
            Calm(k, u) && !u.tcb[t].raster
  {
    hide QueueShape, CfgOk;
  }

  /** After a termination the task has no request any more, and nobody else has one that it had not. */
  lemma CalmTerminate(k: K, t: TaskId, n: nat)
    requires Shape(k) && IsTask(k, t)
    ensures Calm(k, TaskTerminate(k, t, n)) && !TaskTerminate(k, t, n).tcb[t].raster
  {
    hide WaitDequeueWobj, DequeueTmevtb, MutexReleaseAll, MakeDormant, MakeActive, MakeNonRunnable, Calm, QueueShape, TaskShape, CfgOk;
    var k1 := CalmStopped(k, t, n);
    var k2 := MutexReleaseAll(k1, t, |k1.held[t]|);
    CalmReleaseAll(k1, t, |k1.held[t]|);
    CalmAgain(k, k1, k2);
    CalmDormant(k2, t);
    CalmAgain(k, k2, TaskTerminate(k, t, n));
  }

  /** The first part of a termination. */
  lemma CalmStopped(k: K, t: TaskId, n: nat) returns (r: K)
    requires Shape(k) && IsTask(k, t)
    ensures r == if k.tcb[t].stat.Runnable? then MakeNonRunnable(k, t)
                 else if k.tcb[t].stat.Waiting? then DequeueTmevtb(WaitDequeueWobj(k, t, n), t)
                 else k
    ensures Shape(r) && IsTask(r, t) && Calm(k, r)
  {
    hide WaitDequeueWobj, QueueShape, TaskShape, CfgOk;
    r := if k.tcb[t].stat.Runnable? then MakeNonRunnable(k, t)
         else if k.tcb[t].stat.Waiting? then DequeueTmevtb(WaitDequeueWobj(k, t, n), t)
         else k;
    CalmDequeue(k, t, n);
    CalmWaitEnd(WaitDequeueWobj(k, t, n), t, E_OK);
    CalmAgain(k, WaitDequeueWobj(k, t, n), DequeueTmevtb(WaitDequeueWobj(k, t, n), t));
  }

  /** A task without a request may stop. */
  lemma CalmMakeWait(k: K, t: TaskId, c: Cause, tmo: bool)
    requires Shape(k) && IsTask(k, t) && ValidCause(k.cfg, Waiting(c, false, tmo)) && !k.tcb[t].raster
    ensures Calm(k, MakeWait(k, t, c, tmo))
    ensures c.OnQueue? ==> Calm(k, WobjMakeWait(k, t, c.q, tmo))
  {
    hide QueueShape, TaskShape, CfgOk;
  }

  lemma CalmExpire(k: K, t: TaskId, n: nat)
    requires Shape(k) && IsTask(k, t)
    ensures Calm(k, Expire(k, t, n))
  {
    hide WaitDequeueWobj, QueueShape, TaskShape, CfgOk;
    var k1 := SetTimed(k, k.timed - {t});
    CalmDequeue(k1, t, n);
    CalmAgain(k, k1, WaitDequeueWobj(k1, t, n));
    var r := SetWercd(WaitDequeueWobj(k1, t, n), t, E_TMOUT);
    CalmWaitEnd(r, t, E_OK);
    CalmAgain(k, WaitDequeueWobj(k1, t, n), r);
    CalmAgain(k, r, MakeNonWait(r, t));
  }

  lemma CalmEndForced(k: K, t: TaskId, n: nat, e: Ercd)
    requires Shape(k) && IsTask(k, t)
    ensures Calm(k, WaitEnd(WaitDequeueWobj(k, t, n), t, e)) && Calm(k, RasterRelease(k, t, n))
  {
    hide WaitDequeueWobj, WaitEnd, QueueShape, TaskShape, CfgOk;
    var r := WaitDequeueWobj(k, t, n);
    CalmDequeue(k, t, n);
    CalmWaitEnd(r, t, e);
    CalmWaitEnd(r, t, E_RASTER);
    CalmAgain(k, r, WaitEnd(r, t, e));
    CalmAgain(k, r, SetWercd(DequeueTmevtb(r, t), t, E_RASTER));
  }

  // ---------------------------------------------------------------- the calls

  lemma SameServed(k: K, r: K)
    requires Served(k) && r.tcb == k.tcb && (k.dsp || (r.dsp == k.dsp && r.run == k.run))
    ensures Served(r) && (Shape(r) ==> Served(Dispatch(r)))
  {
    forall t | 0 <= t < |r.tcb| ensures RequestOk(r.tcb[t], PutOff(r, t)) { assert RequestOk(k.tcb[t], PutOff(k, t)); }
    if Shape(r) {
      var d := Dispatch(r);
      forall t | 0 <= t < |d.tcb| ensures RequestOk(d.tcb[t], PutOff(d, t)) { assert RequestOk(k.tcb[t], PutOff(k, t)); }
    }
  }

  /** Dispatching is enabled when the running task has no request it allows. */
  lemma EnabledServed(k: K, t: TaskId, twd: UnitId, idle: UnitId)
    requires Served(k) && Shape(k) && k.run == Some(t) && twd < k.cfg.units && idle < k.cfg.units
    requires !(k.tcb[t].raster && k.tcb[t].enater)
    ensures Served(SetDspflg(k, twd, idle)) && Served(Dispatch(SetDspflg(k, twd, idle)))
  {
    hide QueueShape, TaskShape, CfgOk;
    var r := SetDspflg(k, twd, idle);
    forall u | 0 <= u < |r.tcb| ensures RequestOk(r.tcb[u], PutOff(r, u)) { assert RequestOk(k.tcb[u], PutOff(k, u)); }
    SameServed(r, r);
  }

  /** The running task terminates, dispatching enabled before or only now. */
  lemma EndedServed(k: K, t: TaskId, twd: UnitId, idle: UnitId)
    requires Served(k) && Shape(k) && k.run == Some(t) && twd < k.cfg.units && idle < k.cfg.units
    ensures Served(Dispatch(TaskTerminate(k, t, 0))) && Served(Dispatch(TaskTerminate(SetDspflg(k, twd, idle), t, 0)))
  {
    hide TaskTerminate, QueueShape, TaskShape, CfgOk;
    CalmTerminate(k, t, 0);
    CalmServed(k, TaskTerminate(k, t, 0));
    var s := SetDspflg(k, twd, idle);
    var r := TaskTerminate(s, t, 0);
    CalmTerminate(s, t, 0);
    forall u | 0 <= u < |r.tcb| ensures RequestOk(r.tcb[u], PutOff(r, u)) {
      assert RequestOk(k.tcb[u], PutOff(k, u)) && CalmTcb(s.tcb[u], r.tcb[u]);
    }
    SameServed(r, r);
  }

  lemma RasTerServed(k: K, t: TaskId, n: nat)
    requires Served(k) && Shape(k) && IsTask(k, t)
    ensures Served(RasTerStep(k, t, n).0)
  {
    hide TaskTerminate, RasterRelease, Dispatch, QueueShape, CfgOk;
    if k.tcb[t].enater {
      CalmTerminate(k, t, n);
      CalmServed(k, TaskTerminate(k, t, n));
    } else {
      AskedServed(k, t, n);
    }
  }

  /** A request to a task that does not allow termination ends its wait or suspension. */
  lemma AskedServed(k: K, t: TaskId, n: nat)
    requires Served(k) && Shape(k) && IsTask(k, t) && !k.tcb[t].enater
    requires TcbShape(k.cfg, k.tcb[t].(raster := true))
    ensures var k1 := SetTcb(k, t, k.tcb[t].(raster := true));
            && (k.tcb[t].stat.Runnable? ==> Served(k1)) && Served(Dispatch(RasterRelease(k1, t, n)))
  {
    hide RasterRelease, QueueShape, TaskShape, CfgOk;
    var k1 := SetTcb(k, t, k.tcb[t].(raster := true));
    CalmEndForced(k1, t, n, E_OK);
    var r := RasterRelease(k1, t, n);
    RasterRuns(k1, t, n);
    forall u | 0 <= u < |k.tcb| ensures RequestOk(r.tcb[u], PutOff(r, u)) {
      assert RequestOk(k.tcb[u], PutOff(k, u)) && CalmTcb(k1.tcb[u], r.tcb[u]);
    }
    SameServed(r, r);
  }

  lemma RasterRuns(k: K, t: TaskId, n: nat)
    requires Shape(k) && IsTask(k, t)
    ensures |RasterRelease(k, t, n).tcb| == |k.tcb| && RasterRelease(k, t, n).tcb[t].stat.Runnable?
  {
    CalmDequeue(k, t, n);
  }

  lemma ChgPriServed(k: K, t: TaskId, p: Option<Pri>)
    requires Served(k) && Shape(k) && IsTask(k, t) && (p.Some? ==> p.value < TNUM_TPRI)
    ensures Served(ChgPriStep(k, t, p).0)
  {
    hide ChangePriority, Dispatch, CheckCeilpri, ScanCeilmtx, QueueShape;
    var b := if p.Some? then p.value else k.cfg.ipri[t];
    var k1 := SetTcb(k, t, k.tcb[t].(bpri := b));
    CalmServed(k, k1);
    CalmChange(k1, t, b, false);
    CalmServed(k1, ChangePriority(k1, t, b, false));
  }

  /** The calls by which the running task stops are refused to a task with a request. */
  lemma WaitServed(k: K, t: TaskId, c: Cause, tmo: bool)
    requires Served(k) && Shape(k) && IsTask(k, t) && ValidCause(k.cfg, Waiting(c, false, tmo)) && !k.tcb[t].raster
    ensures Served(Dispatch(MakeWait(k, t, c, tmo)))
    ensures c.OnQueue? ==> Served(Dispatch(WobjMakeWait(k, t, c.q, tmo)))
  {
    hide MakeWait, WobjMakeWait, QueueShape, TaskShape, CfgOk;
    CalmMakeWait(k, t, c, tmo);
    CalmServed(k, MakeWait(k, t, c, tmo));
    if c.OnQueue? { CalmServed(k, WobjMakeWait(k, t, c.q, tmo)); }
  }

  lemma SleepServed(k: K, t: TaskId, tmo: Tmo)
    requires Served(k) && Shape(k) && IsTask(k, t)
    ensures Served(SlpTskStep(k, t, tmo).0) && Served(DlyTskStep(k, t).0)
  {
    hide MakeWait, Dispatch, QueueShape, CfgOk;
    if !k.tcb[t].raster {
      WaitServed(k, t, Sleeping, tmo.Timed?);
      WaitServed(k, t, Delayed, true);
      RecordServed(k, t, k.tcb[t].(wupque := false));
    }
  }

  /** Counts and flags may change, and what a request depends on if it stays all right. */
  lemma RecordServed(k: K, t: TaskId, r: Tcb)
    requires Served(k) && Shape(k) && IsTask(k, t) && TcbShape(k.cfg, r) && RequestOk(r, PutOff(k, t))
    ensures Served(SetTcb(k, t, r))
  {
    hide QueueShape, TaskShape, CfgOk;
    var k1 := SetTcb(k, t, r);
    forall u | 0 <= u < |k1.tcb| ensures RequestOk(k1.tcb[u], PutOff(k1, u)) { assert RequestOk(k.tcb[u], PutOff(k, u)); }
  }

  lemma StopServed(k: K, t: TaskId)
    requires Served(k) && Shape(k) && IsTask(k, t)
    ensures Served(SusTskStep(k, t).0) && Served(RsmTskStep(k, t).0)
  {
    hide Dispatch, QueueShape, CfgOk;
    assert RequestOk(k.tcb[t], PutOff(k, t));
    var s, r := SetStat(k, t, Suspended), SetStat(k, t, Runnable);
    if !k.tcb[t].raster {
      CalmServed(k, s);
      CalmServed(k, MakeNonRunnable(s, t));
    }
    CalmServed(k, MakeRunnable(r, t));
    if k.tcb[t].stat.Waiting? {
      CalmServed(k, SetStat(k, t, k.tcb[t].stat.(susp := true)));
      CalmServed(k, SetStat(k, t, k.tcb[t].stat.(susp := false)));
    }
  }

  lemma WupServed(k: K, t: TaskId)
    requires Served(k) && Shape(k) && IsTask(k, t)
    ensures Served(WupTskStep(k, t).0) && Served(ActTskStep(k, t).0)
  {
    hide WaitEnd, Dispatch, QueueShape, CfgOk;
    assert RequestOk(k.tcb[t], PutOff(k, t));
    CalmWaitEnd(k, t, E_OK);
    CalmServed(k, WaitEnd(k, t, E_OK));
    CalmServed(k, MakeActive(k, t));
    RecordServed(k, t, k.tcb[t].(wupque := true));
    RecordServed(k, t, k.tcb[t].(actque := true));
  }

  lemma TaskStepServed(k: K, c: Call)
    requires Served(k) && Shape(k) && Callable(k, c) && IsTaskCall(c)
    ensures Served(TaskStep(k, c).0)
  {
    hide WupTskStep, ActTskStep, ChgPriStep, SlpTskStep, DlyTskStep, SusTskStep, RsmTskStep, RasTerStep, TaskTerminate,
      WaitDequeueWobj, WaitEnd, RotateReadyQueue, Dispatch, QueueShape, CfgOk;
    var me := if k.run.Some? then k.run.value else 0;
    match c
    case ActTsk(t) => WupServed(k, t);
    case CanAct(t) =>
      assert RequestOk(k.tcb[t], PutOff(k, t));
      RecordServed(k, t, k.tcb[t].(actque := false));
    case ChgPri(t, p) => ChgPriServed(k, t, p);
    case SlpTsk(tmo) => SleepServed(k, me, tmo);
    case WupTsk(t) => WupServed(k, t);
    case CanWup(t) =>
      assert RequestOk(k.tcb[t], PutOff(k, t));
      RecordServed(k, t, k.tcb[t].(wupque := false));
    case DlyTsk => SleepServed(k, me, Poll);
    case RelWai(t, n) =>
      CalmEndForced(k, t, n, E_RLWAI);
      CalmServed(k, WaitEnd(WaitDequeueWobj(k, t, n), t, E_RLWAI));
    case SusTsk(t) => StopServed(k, t);
    case RsmTsk(t) => StopServed(k, t);
    case ExtTsk(twd, idle) => EndedServed(k, me, twd, idle);
    case RasTer(t, n) => RasTerServed(k, t, n);
    case DisTer =>
      assert RequestOk(k.tcb[me], PutOff(k, me));
      RecordServed(k, me, k.tcb[me].(enater := false));
    case EnaTer =>
      assert RequestOk(k.tcb[me], PutOff(k, me));
      if k.tcb[me].raster && k.dsp { EndedServed(k, me, k.twd, k.idle); } else { RecordServed(k, me, k.tcb[me].(enater := true)); }
    case TerTsk(t, n) =>
      CalmTerminate(k, t, n);
      CalmServed(k, TaskTerminate(k, t, n));
    case RotRdq(p, u) =>
      RotateTasks(k, p, u);
      CalmQueues(k, RotateReadyQueue(k, p, u));
      CalmServed(k, RotateReadyQueue(k, p, u));
  }

  lemma RotateTasks(k: K, p: Pri, u: UnitId)
    requires Shape(k) && p < TNUM_TPRI && u < k.cfg.units
    ensures var r := RotateReadyQueue(k, p, u); r.tcb == k.tcb && r.dsp == k.dsp && r.run == k.run
  {
  }

  lemma LockServed(k: K, t: TaskId, m: WobjId, tmo: Tmo)
    requires Served(k) && Shape(k) && IsTask(k, t) && IsMutex(k.cfg, m)
    ensures Served(LocMtxStep(k, t, m, tmo).0) && Served(PlocMtxStep(k, t, m).0)
  {
    hide WobjMakeWait, MutexAcquire, Dispatch, QueueShape, TaskShape, CfgOk;
    CalmAcquire(k, t, m);
    CalmServed(k, MutexAcquire(k, t, m));
    if !k.tcb[t].raster { WaitServed(k, t, OnQueue(m), tmo.Timed?); }
  }

  lemma UnlockServed(k: K, t: TaskId, m: WobjId)
    requires Served(k) && Shape(k) && IsTask(k, t) && IsMutex(k.cfg, m)
    ensures Served(UnlMtxStep(k, t, m).0)
  {
    hide MutexDropPriority, MutexRelease, Calm, Dispatch, QueueShape, TaskShape, CfgOk;
    if k.held[t] != [] {
      var k1 := PopHeld(k, t);
      var k2 := MutexDropPriority(k1, t, m);
      CalmQueues(k, k1);
      CalmAcquire(k1, t, m);
      CalmAgain(k, k1, k2);
      CalmRelease(k2, m);
      CalmAgain(k, k2, MutexRelease(k2, m));
      CalmServed(k, MutexRelease(k2, m));
    }
  }

  lemma IniMtxServed(k: K, m: WobjId)
    requires Served(k) && Shape(k) && IsMutex(k.cfg, m)
    ensures Served(IniMtxStep(k, m).0)
  {
    hide MutexDropPriority, InitWaitQueue, Calm, Dispatch, QueueShape, CfgOk;
    var k1 := InitWaitQueue(k, m);
    CalmInit(k, m);
    CalmServed(k, k1);
    var o := k.owner[m];
    if o.Some? {
      RemoveMembersOf(k1.held[o.value], m);
      var k2 := SetHeld(SetOwner(k1, m, None), o.value, Remove(k1.held[o.value], m));
      CalmQueues(k1, k2);
      CalmAgain(k, k1, k2);
      CalmAcquire(k2, o.value, m);
      CalmAgain(k, k2, MutexDropPriority(k2, o.value, m));
      CalmServed(k, MutexDropPriority(k2, o.value, m));
    }
  }

  lemma SemServed(k: K, t: TaskId, q: WobjId, tmo: Tmo)
    requires Served(k) && Shape(k) && IsSem(k.cfg, q)
    ensures Served(SigSemStep(k, q).0) && Served(IniSemStep(k, q).0)
    ensures IsTask(k, t) ==> Served(WaiSemStep(k, t, q, tmo).0)
  {
    hide WobjMakeWait, WakeFirst, InitWaitQueue, Calm, Dispatch, QueueShape, TaskShape, CfgOk;
    forall n: nat ensures Served(SetSem(k, q, n)) { SameServed(k, SetSem(k, q, n)); }
    if Q(k, WaitQ(q)) != [] {
      CalmWakeFirst(k, q, E_OK);
      CalmServed(k, WakeFirst(k, q, E_OK));
    }
    var r := InitWaitQueue(k, q);
    CalmInit(k, q);
    CalmServed(k, r);
    SameServed(r, SetSem(r, q, k.cfg.wobj[q].kind.isemcnt));
    if IsTask(k, t) && !k.tcb[t].raster { WaitServed(k, t, OnQueue(q), tmo.Timed?); }
  }

  lemma ObjServed(k: K, t: TaskId, q: WobjId, i: nat, tmo: Tmo)
    requires Served(k) && Shape(k) && IsOther(k.cfg, q)
    ensures Served(ObjWakeStep(k, q, i).0) && Served(Dispatch(InitWaitQueue(k, q)))
    ensures IsTask(k, t) ==> Served(ObjWaitStep(k, t, q, tmo).0)
  {
    hide WobjMakeWait, WaitEnd, InitWaitQueue, Calm, Dispatch, TaskShape, CfgOk;
    if i < |Q(k, WaitQ(q))| {
      var w := Q(k, WaitQ(q))[i];
      var k1 := Unlink(k, WaitQ(q), w);
      CalmQueues(k, k1);
      CalmWaitEnd(k1, w, E_OK);
      CalmAgain(k, k1, WaitEnd(k1, w, E_OK));
      CalmServed(k, WaitEnd(k1, w, E_OK));
    }
    CalmInit(k, q);
    CalmServed(k, InitWaitQueue(k, q));
    if IsTask(k, t) && !k.tcb[t].raster { WaitServed(k, t, OnQueue(q), tmo.Timed?); }
  }

  lemma WindowServed(k: K, twd: UnitId, idle: UnitId)
    requires Served(k) && Shape(k) && k.dsp && twd < k.cfg.units && idle < k.cfg.units
    ensures var r := k.(twd := twd, idle := idle); Shape(r) && Served(Dispatch(r))
  {
    SameServed(k, k.(twd := twd, idle := idle));
  }

  lemma ObjectStepServed(k: K, c: Call)
    requires Served(k) && Shape(k) && Callable(k, c) && !IsTaskCall(c)
    ensures Served(ObjectStep(k, c).0)
  {
    hide LocMtxStep, PlocMtxStep, UnlMtxStep, IniMtxStep, WaiSemStep, SigSemStep, IniSemStep, ObjWaitStep, ObjWakeStep,
      InitWaitQueue, TaskTerminate, Expire, Dispatch, QueueShape, CfgOk;
    var me := if k.run.Some? then k.run.value else 0;
    match c
    case LocMtx(m, tmo) => LockServed(k, me, m, tmo);
    case PlocMtx(m) => LockServed(k, me, m, Poll);
    case UnlMtx(m) => UnlockServed(k, me, m);
    case IniMtx(m) => IniMtxServed(k, m);
    case WaiSem(q, tmo) => SemServed(k, me, q, tmo);
    case SigSem(q) => SemServed(k, me, q, Poll);
    case IniSem(q) => SemServed(k, me, q, Poll);
    case ObjWait(q, tmo) => ObjServed(k, me, q, 0, tmo);
    case ObjWake(q, i) => ObjServed(k, me, q, i, Poll);
    case ObjInit(q) => ObjServed(k, me, q, 0, Poll);
    case Timeout(t, n) =>
      CalmExpire(k, t, n);
      CalmServed(k, Expire(k, t, n));
    case DisDsp => SameServed(k, k.(dsp := false));
    case EnaDsp(twd, idle) =>
      if k.tcb[me].raster && k.tcb[me].enater { EndedServed(k, me, twd, idle); } else { EnabledServed(k, me, twd, idle); }
    case SwitchWindow(twd, idle) => WindowServed(k, twd, idle);
  }

  // ---------------------------------------------------------------- every run

  lemma StepServed(k: K, c: Call)
    requires Settled(k) && Served(k) && Callable(k, c)
    ensures Shape(k) && Served(Step(k, c).0)
  {
    hide Settled, TaskStep, ObjectStep, Served;
    SettledShape(k);
    if IsTaskCall(c) { TaskStepServed(k, c); } else { ObjectStepServed(k, c); }
  }

  lemma {:induction false} RunServed(c: Cfg, ks: seq<K>, calls: seq<Call>, n: nat)
    requires CfgOk(c) && IsRun(c, ks, calls) && n <= |calls|
    ensures Settled(ks[n]) && Served(ks[n])
  {
    hide Settled, Step;
    if n == 0 {
      InitialSettled(c);
    } else {
      RunServed(c, ks, calls, n - 1);
      StepSettled(ks[n - 1], calls[n - 1]);
      StepServed(ks[n - 1], calls[n - 1]);
    }
  }

  /** In every reachable state a task asked to terminate is runnable, and if it allows termination, it is
      the running task and has disabled dispatching. */
  lemma TerminationServed(k: K, t: TaskId)
    requires Reachable(k) && IsTask(k, t) && k.tcb[t].raster
    ensures k.tcb[t].stat.Runnable?
    ensures k.tcb[t].enater ==> !k.dsp && k.run == Some(t)
  {
    hide Step;
    var ks: seq<K>, calls: seq<Call> :| CfgOk(k.cfg) && IsRun(k.cfg, ks, calls) && k == ks[|calls|];
    RunServed(k.cfg, ks, calls, |calls|);
    assert RequestOk(k.tcb[t], PutOff(k, t));
  }
}
