/**
 What the answer of a call says of the task the call is about, and which task owns a mutex after it.
 */
module KernelAnswers {
  import opened Base
  import opened KernelState
  import opened KernelInvariant
  import opened KernelCalls
  import opened KernelRuns
  import opened KernelFairness

  // ---------------------------------------------------------------- records

  /** A wait is over with result `e`; a suspension outlives it. */
  function Released(a: Tcb, e: Ercd): Tcb {
    a.(stat := if SuspFlag(a.stat) then Suspended else Runnable, wercd := e)
  }

  /** A task has ended, and was started again if an activation was queued. */
  predicate Ended(a: Tcb, b: Tcb, ipri: Pri) {
    && b.stat == (if a.actque then Runnable else Dormant)
    && b.bpri == b.pri == ipri && !b.actque && !b.wupque && !b.raster && b.enater
  }

  /** What becomes of the task a call is about when the answer is no error. */
  predicate Concerned(k: K, c: Call, e: Ercd, t: TaskId, b: Tcb)
    requires Shape(k) && IsTask(k, t)
  {
    var a := k.tcb[t];
    match c
    case ActTsk(_) => if a.stat.Dormant? then b == a.(stat := Runnable) else !a.actque && b == a.(actque := true)
    case CanAct(_) => b == a.(actque := false)
    case ChgPri(_, p) => !a.stat.Dormant? && b == a.(bpri := if p.Some? then p.value else k.cfg.ipri[t], pri := b.pri)
    case SlpTsk(tmo) =>
      if e == Blocked then !a.wupque && b == a.(stat := Waiting(Sleeping, false, tmo.Timed?)) else a.wupque && b == a.(wupque := false)
    case WupTsk(_) =>
      if a.stat.Waiting? && a.stat.cause.Sleeping? then b == Released(a, E_OK) else !a.stat.Dormant? && !a.wupque && b == a.(wupque := true)
    case CanWup(_) => !a.stat.Dormant? && b == a.(wupque := false)
    case DlyTsk => b == a.(stat := Waiting(Delayed, false, true))
    case RelWai(_, _) => a.stat.Waiting? && b == Released(a, E_RLWAI)
    case SusTsk(_) => SuspFlag(b.stat) && a == b.(stat := a.stat) && a.stat == (if b.stat.Waiting? then b.stat.(susp := false) else Runnable)
    case RsmTsk(_) => SuspFlag(a.stat) && b == a.(stat := if a.stat.Waiting? then a.stat.(susp := false) else Runnable)
    case ExtTsk(_, _) => Ended(a, b, k.cfg.ipri[t])
    case TerTsk(_, _) => !a.stat.Dormant? && Ended(a, b, k.cfg.ipri[t])
    case RasTer(_, _) =>
      && !a.stat.Dormant?
      && if a.enater then Ended(a, b, k.cfg.ipri[t])
      else b == a.(raster := true, stat := Runnable, wercd := if a.stat.Waiting? then E_RASTER else a.wercd)
    case DisTer => b == a.(enater := false)
    case EnaTer => if e == NoReturn then Ended(a, b, k.cfg.ipri[t]) else b == a.(enater := true)
    case EnaDsp(_, _) => if e == NoReturn then Ended(a, b, k.cfg.ipri[t]) else b == a
    case LocMtx(m, tmo) => b == if e == Blocked then a.(stat := Waiting(OnQueue(m), false, tmo.Timed?)) else a.(pri := b.pri)
    case PlocMtx(_) => b == a.(pri := b.pri)
    case WaiSem(q, tmo) => b == if e == Blocked then a.(stat := Waiting(OnQueue(q), false, tmo.Timed?)) else a
    case ObjWait(q, tmo) => e == Blocked && b == a.(stat := Waiting(OnQueue(q), false, tmo.Timed?))
    case Timeout(_, _) => b == Released(a, if a.stat.Waiting? && a.stat.cause.Delayed? then E_OK else E_TMOUT)
    case _ => b == a
  }

  /** The call ends task `t`. */
  predicate Terminates(k: K, c: Call, e: Ercd, t: TaskId)
    requires IsTask(k, t)
  {
    match c
    case ExtTsk(_, _) => k.run == Some(t)
    case EnaTer => k.run == Some(t) && e == NoReturn
    case EnaDsp(_, _) => k.run == Some(t) && e == NoReturn
    case TerTsk(u, _) => u == t && e == E_OK
    case RasTer(u, _) => u == t && e == E_OK && k.tcb[t].enater
    case _ => false
  }

  // ---------------------------------------------------------------- the parts of a call, at one task

  lemma WokenRecord(k: K, q: WobjId, t: TaskId)
    requires Shape(k) && q < |k.cfg.wobj| && Q(k, WaitQ(q)) != [] && IsTask(k, t) && t !in Q(k, WaitQ(q))
    ensures var r := WakeFirst(k, q, E_OK); Shape(r) && r.cfg == k.cfg && |r.tcb| == |k.tcb| && r.tcb[t] == k.tcb[t] && t !in Q(r, WaitQ(q))
  {
    hide CfgOk, TaskShape;
    assert Q(k, WaitQ(q))[0] in Q(k, WaitQ(q));
  }

  lemma {:induction false} SignalLeaves(k: K, q: WobjId, n: nat, t: TaskId)
    requires Shape(k) && q < |k.cfg.wobj| && IsTask(k, t) && t !in Q(k, WaitQ(q))
    ensures var r := MbfSignal(k, q, n); |r.tcb| == |k.tcb| && r.tcb[t] == k.tcb[t]
    decreases n
  {
    hide Shape, Q, WakeFirst;
    if n != 0 && Q(k, WaitQ(q)) != [] {
      WokenRecord(k, q, t);
      SignalLeaves(WakeFirst(k, q, E_OK), q, n - 1, t);
    }
  }

  lemma ReleasedRecord(k: K, q: WobjId, t: TaskId)
    requires Shape(k) && q < |k.cfg.wobj| && Q(k, WaitQ(q)) != [] && IsTask(k, t) && t !in Q(k, WaitQ(q))
    ensures var r := WakeFirst(k, q, E_DLT);
            Shape(r) && r.cfg == k.cfg && |r.tcb| == |k.tcb| && r.tcb[t] == k.tcb[t] && Q(r, WaitQ(q)) == Q(k, WaitQ(q))[1..]
  {
    hide CfgOk, TaskShape;
    assert Q(k, WaitQ(q))[0] in Q(k, WaitQ(q));
  }

  lemma {:induction false} InitLeaves(k: K, q: WobjId, t: TaskId)
    requires Shape(k) && q < |k.cfg.wobj| && IsTask(k, t) && t !in Q(k, WaitQ(q))
    ensures var r := InitWaitQueue(k, q); Shape(r) && r.cfg == k.cfg && |r.tcb| == |k.tcb| && |r.held| == |k.held| && r.tcb[t] == k.tcb[t]
    decreases |Q(k, WaitQ(q))|
  {
    hide WakeFirst, QueueShape, TaskShape, CfgOk, Q;
    if Q(k, WaitQ(q)) != [] {
      ReleasedRecord(k, q, t);
      QLength(k, q);
      assert forall x :: x in Q(k, WaitQ(q))[1..] ==> x in Q(k, WaitQ(q));
      InitLeaves(WakeFirst(k, q, E_DLT), q, t);
    }
  }

  lemma DequeuedRecord(k: K, t: TaskId, n: nat)
    requires AllLined(k) && IsTask(k, t)
    ensures var r := WaitDequeueWobj(k, t, n); Shape(r) && r.cfg == k.cfg && |r.tcb| == |k.tcb| && r.tcb[t] == k.tcb[t]
  {
    hide MbfSignal, AllLined, Fair, CfgOk;
    LinedShape(k);
    FairDequeued(k, t, n, {}, {});
    LinedShape(WaitDequeueWobj(k, t, n));
    if k.tcb[t].stat.Waiting? && k.tcb[t].stat.cause.OnQueue? {
      var q := k.tcb[t].stat.cause.q;
      FairUnlinked(k, t, q, {}, {}, E_OK);
      SignalLeaves(Unlink(k, WaitQ(q), t), q, n, t);
    }
  }

  lemma EndRecord(k: K, t: TaskId, e: Ercd)
    requires Shape(k) && IsTask(k, t)
    ensures var r := WaitEnd(k, t, e); Shape(r) && r.cfg == k.cfg && r.tcb == k.tcb[t := Released(k.tcb[t], e)]
    ensures forall q: WobjId :: q < |k.cfg.wobj| ==> Q(WaitEnd(k, t, e), WaitQ(q)) == Q(k, WaitQ(q))
  {
    hide QueueShape, CfgOk;
  }

  lemma ForcedRecord(k: K, t: TaskId, n: nat, e: Ercd)
    requires AllLined(k) && IsTask(k, t)
    ensures var r := WaitEnd(WaitDequeueWobj(k, t, n), t, e); |r.tcb| == |k.tcb| && r.tcb[t] == Released(k.tcb[t], e)
    ensures var r := RasterRelease(k, t, n);
            |r.tcb| == |k.tcb| && r.tcb[t] == k.tcb[t].(stat := Runnable, wercd := if k.tcb[t].stat.Waiting? then E_RASTER else k.tcb[t].wercd)
  {
    hide WaitDequeueWobj, QueueShape, CfgOk, AllLined;
    LinedShape(k);
    DequeuedRecord(k, t, n);
    EndRecord(WaitDequeueWobj(k, t, n), t, e);
  }

  lemma ExpiredRecord(k: K, t: TaskId, n: nat)
    requires AllLined(k) && IsTask(k, t)
    ensures var r := Expire(k, t, n);
            |r.tcb| == |k.tcb| && r.tcb[t] == Released(k.tcb[t], if k.tcb[t].stat.Waiting? && k.tcb[t].stat.cause.Delayed? then E_OK else E_TMOUT)
  {
    hide WaitDequeueWobj, QueueShape, CfgOk, AllLined;
    LinedShape(k);
    UntimedLined(k, t);
    DequeuedRecord(SetTimed(k, k.timed - {t}), t, n);
  }

  lemma EndedRecord(k: K, t: TaskId, n: nat)
    requires AllLined(k) && IsTask(k, t)
    ensures var r := TaskTerminate(k, t, n); |r.tcb| == |k.tcb| && Ended(k.tcb[t], r.tcb[t], k.cfg.ipri[t])
  {
    hide Fair, AllLined, WaitDequeueWobj, DequeueTmevtb, MutexReleaseAll, MakeNonRunnable, MakeRunnable, QueueShape, CfgOk;
    LinedShape(k);
    var k1 := StoppedRecord(k, t, n);
    LinedShape(k1);
    var k2 := MutexReleaseAll(k1, t, |k1.held[t]|);
    FairAfterAll(k1, t, |k1.held[t]|, {}, {});
    FairAt(k1, k2, t, E_OK);
    DormantRecord(k2, t);
  }

  lemma StoppedRecord(k: K, t: TaskId, n: nat) returns (r: K)
    requires AllLined(k) && IsTask(k, t)
    ensures r == if k.tcb[t].stat.Runnable? then MakeNonRunnable(k, t)
                 else if k.tcb[t].stat.Waiting? then DequeueTmevtb(WaitDequeueWobj(k, t, n), t)
                 else k
    ensures AllLined(r) && r.cfg == k.cfg && |r.tcb| == |r.held| == |k.tcb| && r.tcb[t] == k.tcb[t]
  {
    hide Fair, AllLined, WaitDequeueWobj, MakeNonRunnable, QueueShape, CfgOk;
    LinedShape(k);
    r := FairStopped(k, t, n, {t}, {t});
    DequeuedRecord(k, t, n);
    NonRunnableRecord(k, t);
  }

  lemma NonRunnableRecord(k: K, t: TaskId)
    requires Shape(k) && IsTask(k, t)
    ensures MakeNonRunnable(k, t).tcb == k.tcb && MakeRunnable(k, t).tcb == k.tcb
  {
  }

  lemma FairAt(k: K, r: K, t: TaskId, e: Ercd)
    requires Fair(k, r, {}, {}, e) && IsTask(k, t)
    ensures Shape(r) && r.cfg == k.cfg && |r.tcb| == |k.tcb| && Stays(k.tcb[t], r.tcb[t], e)
  {
  }

  lemma DormantRecord(k: K, t: TaskId)
    requires Shape(k) && IsTask(k, t)
    ensures var r := MakeDormant(k, t);
            var u := if r.tcb[t].actque then MakeActive(SetTcb(r, t, r.tcb[t].(actque := false)), t) else r;
            |u.tcb| == |k.tcb| && Ended(k.tcb[t], u.tcb[t], k.cfg.ipri[t])
  {
    hide QueueShape;
  }

  // ---------------------------------------------------------------- the calls

  predicate IsError(e: Ercd) { !e.E_OK? && !e.Blocked? && !e.NoReturn? }

  /** An error changes nothing; otherwise the call has done to `t` what it is for. */
  ghost predicate Answered(k: K, c: Call, t: TaskId, re: (K, Ercd))
    requires Shape(k) && IsTask(k, t)
  {
    |re.0.tcb| == |k.tcb| && if IsError(re.1) then re.0 == k else Concerned(k, c, re.1, t, re.0.tcb[t])
  }

  lemma PriorityRecord(k: K, t: TaskId, p: Pri, mtxmode: bool)
    requires Shape(k) && IsTask(k, t) && p < TNUM_TPRI
    ensures ChangePriority(k, t, p, mtxmode).tcb == k.tcb[t := k.tcb[t].(pri := p)]
  {
    hide CfgOk, QueueShape, TaskShape;
  }

  lemma ActTskAnswered(k: K, t: TaskId)
    requires Shape(k) && IsTask(k, t)
    ensures Answered(k, ActTsk(t), t, ActTskStep(k, t)) && Answered(k, WupTsk(t), t, WupTskStep(k, t))
  {
    hide MakeRunnable, WaitEnd, QueueShape, CfgOk;
    NonRunnableRecord(SetStat(k, t, Runnable), t);
    EndRecord(k, t, E_OK);
  }

  lemma SusTskAnswered(k: K, t: TaskId)
    requires Shape(k) && IsTask(k, t)
    ensures Answered(k, SusTsk(t), t, SusTskStep(k, t))
  {
    hide MakeNonRunnable, QueueShape, CfgOk, Choice;
    NonRunnableRecord(SetStat(k, t, Suspended), t);
  }

  lemma RsmTskAnswered(k: K, t: TaskId)
    requires Shape(k) && IsTask(k, t)
    ensures Answered(k, RsmTsk(t), t, RsmTskStep(k, t))
  {
    hide MakeRunnable, QueueShape, CfgOk, Choice;
    NonRunnableRecord(SetStat(k, t, Runnable), t);
  }

  lemma PausesAnswered(k: K, t: TaskId, tmo: Tmo)
    requires Shape(k) && IsTask(k, t)
    ensures Answered(k, SlpTsk(tmo), t, SlpTskStep(k, t, tmo)) && Answered(k, DlyTsk, t, DlyTskStep(k, t))
  {
    hide MakeNonRunnable, QueueShape, CfgOk;
    WaitRecord(k, t, Sleeping, tmo.Timed?);
    WaitRecord(k, t, Delayed, true);
  }

  lemma WaitRecord(k: K, t: TaskId, c: Cause, tmo: bool)
    requires Shape(k) && IsTask(k, t) && ValidCause(k.cfg, Waiting(c, false, tmo))
    ensures MakeWait(k, t, c, tmo).tcb == k.tcb[t := k.tcb[t].(stat := Waiting(c, false, tmo))]
    ensures c.OnQueue? ==> WobjMakeWait(k, t, c.q, tmo).tcb == k.tcb[t := k.tcb[t].(stat := Waiting(c, false, tmo))]
  {
    hide QueueShape, CfgOk;
  }

  lemma WaiSemAnswered(k: K, t: TaskId, q: WobjId, tmo: Tmo)
    requires Shape(k) && IsTask(k, t) && IsSem(k.cfg, q)
    ensures Answered(k, WaiSem(q, tmo), t, WaiSemStep(k, t, q, tmo))
  {
    hide WobjMakeWait, QueueShape, CfgOk, Choice;
    WaitRecord(k, t, OnQueue(q), tmo.Timed?);
  }

  lemma ObjWaitAnswered(k: K, t: TaskId, q: WobjId, tmo: Tmo)
    requires Shape(k) && IsTask(k, t) && IsOther(k.cfg, q)
    ensures Answered(k, ObjWait(q, tmo), t, ObjWaitStep(k, t, q, tmo))
  {
    hide WobjMakeWait, QueueShape, CfgOk, Choice;
    WaitRecord(k, t, OnQueue(q), tmo.Timed?);
  }

  lemma LocMtxAnswered(k: K, t: TaskId, m: WobjId, tmo: Tmo)
    requires Shape(k) && IsTask(k, t) && IsMutex(k.cfg, m)
    ensures Answered(k, LocMtx(m, tmo), t, LocMtxStep(k, t, m, tmo))
  {
    hide WobjMakeWait, MutexAcquire, QueueShape, CfgOk, Choice;
    WaitRecord(k, t, OnQueue(m), tmo.Timed?);
    AcquiredRecord(k, t, m);
  }

  lemma PlocMtxAnswered(k: K, t: TaskId, m: WobjId)
    requires Shape(k) && IsTask(k, t) && IsMutex(k.cfg, m)
    ensures Answered(k, PlocMtx(m), t, PlocMtxStep(k, t, m))
  {
    hide MutexAcquire, QueueShape, CfgOk;
    AcquiredRecord(k, t, m);
  }

  lemma DropKept(k: K, t: TaskId, m: WobjId)
    requires Shape(k) && IsTask(k, t) && IsMutex(k.cfg, m)
    ensures var r := MutexDropPriority(k, t, m);
            Shape(r) && r.cfg == k.cfg && r.owner == k.owner && r.held == k.held && |r.tcb| == |k.tcb|
            && (!WaitsOn(k.tcb[t].stat, m) ==> Q(r, WaitQ(m)) == Q(k, WaitQ(m)))
  {
    hide CfgOk, TaskShape, MinCeiling;
  }

  lemma AcquiredRecord(k: K, t: TaskId, m: WobjId)
    requires Shape(k) && IsTask(k, t) && IsMutex(k.cfg, m)
    ensures var r := MutexAcquire(k, t, m); |r.tcb| == |k.tcb| && r.tcb[t] == k.tcb[t].(pri := r.tcb[t].pri)
  {
    hide ChangePriority, QueueShape;
    var c := Ceiling(k.cfg, m);
    if c.Some? { PriorityRecord(SetHeld(SetOwner(k, m, Some(t)), t, k.held[t] + [m]), t, c.value, true); }
  }

  lemma ChgPriAnswered(k: K, t: TaskId, newpri: Option<Pri>)
    requires Shape(k) && IsTask(k, t) && (newpri.Some? ==> newpri.value < TNUM_TPRI)
    ensures Answered(k, ChgPri(t, newpri), t, ChgPriStep(k, t, newpri))
  {
    hide ChangePriority, CheckCeilpri, ScanCeilmtx, QueueShape;
    var b := if newpri.Some? then newpri.value else k.cfg.ipri[t];
    PriorityRecord(SetTcb(k, t, k.tcb[t].(bpri := b)), t, b, false);
  }

  lemma ExitAnswered(k: K, t: TaskId, twd: UnitId, idle: UnitId)
    requires AllLined(k) && IsTask(k, t) && twd < k.cfg.units && idle < k.cfg.units
    ensures Answered(k, ExtTsk(twd, idle), t, ExtTskStep(k, t, twd, idle))
  {
    hide AllLined, TaskTerminate, QueueShape, CfgOk, Choice;
    LinedShape(k);
    WindowLined(k, twd, idle);
    EndedRecord(if k.dsp then k else SetDspflg(k, twd, idle), t, 0);
  }

  lemma EnabledAnswered(k: K, t: TaskId, twd: UnitId, idle: UnitId)
    requires AllLined(k) && IsTask(k, t) && twd < k.cfg.units && idle < k.cfg.units
    ensures Answered(k, EnaDsp(twd, idle), t, EnaDspStep(k, t, twd, idle))
  {
    hide AllLined, TaskTerminate, QueueShape, CfgOk, Choice;
    LinedShape(k);
    WindowLined(k, twd, idle);
    EndedRecord(SetDspflg(k, twd, idle), t, 0);
  }

  lemma EnaTerAnswered(k: K, t: TaskId)
    requires AllLined(k) && IsTask(k, t)
    ensures Answered(k, EnaTer, t, EnaTerStep(k, t))
  {
    hide AllLined, TaskTerminate, QueueShape, CfgOk, Choice;
    LinedShape(k);
    EndedRecord(k, t, 0);
  }

  lemma TerTskAnswered(k: K, t: TaskId, n: nat)
    requires AllLined(k) && IsTask(k, t)
    ensures Answered(k, TerTsk(t, n), t, TerTskStep(k, t, n))
  {
    hide AllLined, TaskTerminate, QueueShape, CfgOk, Choice;
    LinedShape(k);
    EndedRecord(k, t, n);
  }

  lemma RasTerAnswered(k: K, t: TaskId, n: nat)
    requires AllLined(k) && IsTask(k, t)
    ensures Answered(k, RasTer(t, n), t, RasTerStep(k, t, n))
  {
    hide AllLined, TaskTerminate, RasterRelease, QueueShape, CfgOk, Choice;
    LinedShape(k);
    EndedRecord(k, t, n);
    FlagLined(k, t);
    ForcedRecord(SetTcb(k, t, k.tcb[t].(raster := true)), t, n, E_RASTER);
  }

  lemma ReleaseAnswered(k: K, t: TaskId, n: nat)
    requires AllLined(k) && IsTask(k, t)
    ensures Answered(k, RelWai(t, n), t, RelWaiStep(k, t, n))
    ensures Answered(k, Timeout(t, n), t, (Dispatch(Expire(k, t, n)), E_OK))
  {
    hide AllLined, WaitEnd, WaitDequeueWobj, Expire, QueueShape, CfgOk, TaskShape;
    LinedShape(k);
    ForcedRecord(k, t, n, E_RLWAI);
    ExpiredRecord(k, t, n);
  }

  lemma TaskCallAnswered(k: K, c: Call, t: TaskId)
    requires Settled(k) && Shape(k) && Callable(k, c) && IsTaskCall(c) && t in About(k, c)
    ensures IsTask(k, t) && Answered(k, c, t, TaskStep(k, c))
  {
    hide AllLined, ActTskStep, ChgPriStep, SlpTskStep, WupTskStep, DlyTskStep, RelWaiStep, SusTskStep, RsmTskStep,
      ExtTskStep, RasTerStep, EnaTerStep, TerTskStep, Dispatch, QueueShape, CfgOk, Inv, RunOk, TaskShape;
    SettledLined(k);
    RunnerKnown(k);
    match c
    case ActTsk(_) => ActTskAnswered(k, t);
    case ChgPri(_, p) => ChgPriAnswered(k, t, p);
    case SlpTsk(tmo) => PausesAnswered(k, t, tmo);
    case WupTsk(_) => ActTskAnswered(k, t);
    case DlyTsk => PausesAnswered(k, t, Poll);
    case RelWai(_, n) => ReleaseAnswered(k, t, n);
    case SusTsk(_) => SusTskAnswered(k, t);
    case RsmTsk(_) => RsmTskAnswered(k, t);
    case ExtTsk(twd, idle) => ExitAnswered(k, t, twd, idle);
    case RasTer(_, n) => RasTerAnswered(k, t, n);
    case EnaTer => EnaTerAnswered(k, t);
    case TerTsk(_, n) => TerTskAnswered(k, t, n);
    case _ =>
  }

  lemma ObjectCallAnswered(k: K, c: Call, t: TaskId)
    requires Settled(k) && Shape(k) && Callable(k, c) && !IsTaskCall(c) && t in About(k, c)
    ensures IsTask(k, t) && Answered(k, c, t, ObjectStep(k, c))
  {
    hide AllLined, LocMtxStep, PlocMtxStep, WaiSemStep, ObjWaitStep, EnaDspStep, Expire, Dispatch, QueueShape, CfgOk, Inv, RunOk;
    SettledLined(k);
    RunnerKnown(k);
    match c
    case LocMtx(m, tmo) => LocMtxAnswered(k, t, m, tmo);
    case PlocMtx(m) => PlocMtxAnswered(k, t, m);
    case WaiSem(q, tmo) => WaiSemAnswered(k, t, q, tmo);
    case ObjWait(q, tmo) => ObjWaitAnswered(k, t, q, tmo);
    case Timeout(_, n) => ReleaseAnswered(k, t, n);
    case EnaDsp(twd, idle) => EnabledAnswered(k, t, twd, idle);
    case _ =>
  }

  /** Whatever is called: an error leaves the kernel as it was, and any other answer says what has happened to
      the task the call is about. */
  lemma CallAnswered(k: K, c: Call, t: TaskId)
    requires Settled(k) && Shape(k) && Callable(k, c) && t in About(k, c)
    ensures IsTask(k, t) && Answered(k, c, t, Step(k, c))
  {
    hide Settled, Answered, About, TaskStep, ObjectStep;
    if IsTaskCall(c) { TaskCallAnswered(k, c, t); } else { ObjectCallAnswered(k, c, t); }
  }

  /** Which calls may make their caller wait, and which may not come back. */
  predicate Kind(c: Call, e: Ercd) {
    && (e.Blocked? ==> c.SlpTsk? || c.DlyTsk? || c.LocMtx? || c.WaiSem? || c.ObjWait?)
    && (e.NoReturn? ==> c.ExtTsk? || c.EnaTer? || c.EnaDsp?)
    && (e.E_OK? ==> !c.DlyTsk? && !c.ObjWait?) && (c.ExtTsk? ==> e.NoReturn?)
  }

  lemma TaskCallKinds(k: K, c: Call)
    requires Shape(k) && Callable(k, c) && IsTaskCall(c)
    ensures Kind(c, TaskStep(k, c).1) && (IsError(TaskStep(k, c).1) ==> TaskStep(k, c).0 == k)
  {
    hide TaskTerminate, RasterRelease, MakeActive, MakeRunnable, MakeNonRunnable, ChangePriority, CheckCeilpri, ScanCeilmtx, WaitEnd,
      WaitDequeueWobj, MakeWait, Dispatch, QueueShape, TaskShape, CfgOk;
  }

  lemma ObjectCallKinds(k: K, c: Call)
    requires Shape(k) && Callable(k, c) && !IsTaskCall(c)
    ensures Kind(c, ObjectStep(k, c).1) && (IsError(ObjectStep(k, c).1) ==> ObjectStep(k, c).0 == k)
  {
    hide TaskTerminate, MutexAcquire, MutexRelease, MutexDropPriority, InitWaitQueue, WakeFirst, WaitEnd, WobjMakeWait, Expire, Dispatch,
      QueueShape, TaskShape, CfgOk;
  }

  /** A call that fails changes nothing, whichever it is. */
  lemma ErrorChangesNothing(k: K, c: Call)
    requires Shape(k) && Callable(k, c)
    ensures Kind(c, Step(k, c).1) && (IsError(Step(k, c).1) ==> Step(k, c).0 == k)
  {
    hide TaskStep, ObjectStep;
    if IsTaskCall(c) { TaskCallKinds(k, c); } else { ObjectCallKinds(k, c); }
  }

  /** A mutex of `t`, or one it waits for, whose ceiling is below the base priority `b`. */
  ghost predicate Exceeds(k: K, t: TaskId, b: Pri)
    requires Shape(k) && IsTask(k, t)
  {
    exists m: WobjId :: IsMutex(k.cfg, m) && (m in k.held[t] || WaitsOn(k.tcb[t].stat, m)) && Ceiling(k.cfg, m).Some? && b < Ceiling(k.cfg, m).value
  }

  /** What stands in the way of waiting. */
  function NoWait(k: K, t: TaskId): Option<Ercd>
    requires IsTask(k, t)
  {
    if !k.dsp then Some(E_CTX) else if k.tcb[t].raster then Some(E_RASTER) else None
  }

  /** Why a lock is refused to a task that need not wait for it. */
  function NoLock(k: K, t: TaskId, m: WobjId): Option<Ercd>
    requires Shape(k) && IsTask(k, t) && IsMutex(k.cfg, m)
  {
    if Ceiling(k.cfg, m).Some? && k.tcb[t].bpri < Ceiling(k.cfg, m).value then Some(E_ILUSE)
    else if k.owner[m] == Some(t) then Some(E_OBJ)
    else None
  }

  /** The error of a call, if it fails. */
  ghost function Refusal(k: K, c: Call): Option<Ercd>
    requires Shape(k) && Callable(k, c) && (k.run.Some? ==> IsTask(k, k.run.value))
  {
    match c
    case ActTsk(t) => if !k.tcb[t].stat.Dormant? && (k.cfg.noactque[t] || k.tcb[t].actque) then Some(E_QOVR) else None
    case ChgPri(t, p) =>
      if k.tcb[t].stat.Dormant? then Some(E_OBJ)
      else if Exceeds(k, t, if p.Some? then p.value else k.cfg.ipri[t]) then Some(E_ILUSE) else None
    case SlpTsk(tmo) =>
      if NoWait(k, k.run.value).Some? then NoWait(k, k.run.value)
      else if tmo.Poll? && !k.tcb[k.run.value].wupque then Some(E_TMOUT) else None
    case DlyTsk => NoWait(k, k.run.value)
    case WupTsk(t) =>
      var a := k.tcb[t];
      if a.stat.Dormant? then Some(E_OBJ) else if a.wupque && !(a.stat.Waiting? && a.stat.cause.Sleeping?) then Some(E_QOVR) else None
    case CanWup(t) => if k.tcb[t].stat.Dormant? then Some(E_OBJ) else None
    case RelWai(t, _) => if k.tcb[t].stat.Waiting? then None else Some(E_OBJ)
    case SusTsk(t) =>
      if k.run == Some(t) && !k.dsp then Some(E_CTX)
      else if k.tcb[t].stat.Dormant? then Some(E_OBJ)
      else if k.tcb[t].raster then Some(E_RASTER)
      else if SuspFlag(k.tcb[t].stat) then Some(E_QOVR) else None
    case RsmTsk(t) => if SuspFlag(k.tcb[t].stat) then None else Some(E_OBJ)
    case RasTer(t, _) => if k.run == Some(t) then Some(E_ILUSE) else if k.tcb[t].stat.Dormant? then Some(E_OBJ) else None
    case TerTsk(t, _) => if k.run == Some(t) then Some(E_ILUSE) else if k.tcb[t].stat.Dormant? then Some(E_OBJ) else None
    case LocMtx(m, tmo) =>
      if NoWait(k, k.run.value).Some? then NoWait(k, k.run.value)
      else if NoLock(k, k.run.value, m).Some? then NoLock(k, k.run.value, m)
      else if tmo.Poll? && k.owner[m].Some? then Some(E_TMOUT) else None
    case PlocMtx(m) =>
      if NoLock(k, k.run.value, m).Some? then NoLock(k, k.run.value, m)
      else if k.owner[m].Some? then Some(E_TMOUT) else None
    case UnlMtx(m) =>
      var ms := k.held[k.run.value];
      if ms != [] && ms[|ms| - 1] == m then None else Some(E_OBJ)
    case WaiSem(q, tmo) =>
      if NoWait(k, k.run.value).Some? then NoWait(k, k.run.value)
      else if tmo.Poll? && k.semcnt[q] == 0 then Some(E_TMOUT) else None
    case SigSem(q) => if Q(k, WaitQ(q)) == [] && k.semcnt[q] >= k.cfg.wobj[q].kind.maxsem then Some(E_QOVR) else None
    case ObjWait(_, tmo) =>
      if NoWait(k, k.run.value).Some? then NoWait(k, k.run.value) else if tmo.Poll? then Some(E_TMOUT) else None
    case _ => None
  }

  lemma TaskCallRefused(k: K, c: Call)
    requires Shape(k) && Callable(k, c) && IsTaskCall(c) && !c.ChgPri? && (k.run.Some? ==> IsTask(k, k.run.value))
    ensures var e := TaskStep(k, c).1; (IsError(e) <==> Refusal(k, c).Some?) && (IsError(e) ==> Refusal(k, c) == Some(e))
  {
    hide TaskTerminate, RasterRelease, MakeActive, MakeRunnable, MakeNonRunnable, ChangePriority, WaitEnd, WaitDequeueWobj, MakeWait, Dispatch,
      QueueShape, TaskShape, CfgOk;
  }

  lemma ChgPriRefused(k: K, t: TaskId, p: Option<Pri>)
    requires Shape(k) && Callable(k, ChgPri(t, p)) && (k.run.Some? ==> IsTask(k, k.run.value))
    ensures var e := ChgPriStep(k, t, p).1; (IsError(e) <==> Refusal(k, ChgPri(t, p)).Some?) && (IsError(e) ==> Refusal(k, ChgPri(t, p)) == Some(e))
  {
    hide ChangePriority, Dispatch, ScanCeilmtx, QueueShape;
    var b := if p.Some? then p.value else k.cfg.ipri[t];
    if Exceeds(k, t, b) {
      var m: WobjId :| IsMutex(k.cfg, m) && (m in k.held[t] || WaitsOn(k.tcb[t].stat, m)) && Ceiling(k.cfg, m).Some? && b < Ceiling(k.cfg, m).value;
    }
  }

  lemma ObjectCallRefused(k: K, c: Call)
    requires Shape(k) && Callable(k, c) && !IsTaskCall(c) && (k.run.Some? ==> IsTask(k, k.run.value))
    ensures var e := ObjectStep(k, c).1; (IsError(e) <==> Refusal(k, c).Some?) && (IsError(e) ==> Refusal(k, c) == Some(e))
  {
    hide TaskTerminate, MutexAcquire, MutexRelease, MutexDropPriority, InitWaitQueue, WakeFirst, WaitEnd, WobjMakeWait, Expire, Dispatch,
      QueueShape, TaskShape, CfgOk;
  }

  /** A call fails exactly when there is a reason to refuse it, with the error that belongs to that reason. */
  lemma FailsExactly(k: K, c: Call)
    requires Shape(k) && Callable(k, c) && (k.run.Some? ==> IsTask(k, k.run.value))
    ensures var e := Step(k, c).1; (IsError(e) <==> Refusal(k, c).Some?) && (IsError(e) ==> Refusal(k, c) == Some(e))
  {
    hide TaskStep, ObjectStep, Refusal;
    if c.ChgPri? { ChgPriRefused(k, c.t, c.newpri); TaskCallIs(k, c); }
    else if IsTaskCall(c) { TaskCallRefused(k, c); }
    else { ObjectCallRefused(k, c); }
  }

  lemma TaskCallIs(k: K, c: Call)
    requires Shape(k) && Callable(k, c) && c.ChgPri?
    ensures TaskStep(k, c) == ChgPriStep(k, c.t, c.newpri)
  {
    hide ChgPriStep;
  }
}
