/**
 Whose a mutex is after each call, and in which order a task holds its mutexes.
 */
module KernelOwners {
  import opened Base
  import opened KernelState
  import opened KernelInvariant
  import opened KernelProofs
  import opened KernelCalls
  import opened KernelRuns
  import opened KernelTheorems
  import opened KernelFairness
  import opened KernelAnswers
  import opened KernelCounts

  function FirstWaiter(k: K, m: WobjId): Option<TaskId>
    requires Shape(k) && IsMutex(k.cfg, m)
  {
    if Q(k, WaitQ(m)) == [] then None else Some(Q(k, WaitQ(m))[0])
  }

  /** Whose `m` is after a call: only locking, unlocking, ini_mtx and the end of its owner change that. */
  function OwnerAfter(k: K, c: Call, e: Ercd, m: WobjId): Option<TaskId>
    requires Shape(k) && Callable(k, c) && IsMutex(k.cfg, m)
  {
    if (c == PlocMtx(m) || (c.LocMtx? && c.m == m)) && e == E_OK then k.run
    else if c == UnlMtx(m) && e == E_OK then FirstWaiter(k, m)
    else if c == IniMtx(m) then None
    else if k.owner[m].Some? && Terminates(k, c, e, k.owner[m].value) then FirstWaiter(k, m)
    else k.owner[m]
  }

  /** The chain of `u` after a call: it ends, loses its last mutex or one that is initialised, or gets longer at
      its end. */
  ghost predicate ChainAfter(k: K, c: Call, e: Ercd, r: K, u: TaskId)
    requires Shape(k) && Shape(r) && Callable(k, c) && IsTask(k, u) && IsTask(r, u)
  {
    if Terminates(k, c, e, u) then r.held[u] == []
    else if c.UnlMtx? && e == E_OK && k.run == Some(u) then k.held[u] != [] && r.held[u] == k.held[u][..|k.held[u]| - 1]
    else if c.IniMtx? && k.owner[c.m] == Some(u) then r.held[u] == Remove(k.held[u], c.m)
    else k.held[u] <= r.held[u]
  }

  // ---------------------------------------------------------------- releasing

  lemma ReleaseHeld(k: K, m: WobjId, u: TaskId)
    requires Shape(k) && IsMutex(k.cfg, m) && IsTask(k, u)
    ensures var r := MutexRelease(k, m); Shape(r) && |r.held| == |k.held| && k.held[u] <= r.held[u]
  {
    hide MakeNonWait, DequeueTmevtb, QueueShape;
    var s := Q(k, WaitQ(m));
    if s != [] {
      var k1 := SetWercd(DequeueTmevtb(SetQ(k, WaitQ(m), s[1..]), s[0]), s[0], E_OK);
      ChainKept(SetQ(k, WaitQ(m), s[1..]), s[0]);
      ChainKept(MutexHandOver(k1, m, s[0]), s[0]);
    }
  }

  lemma ChainKept(k: K, t: TaskId)
    requires Shape(k) && IsTask(k, t)
    ensures DequeueTmevtb(k, t).held == k.held && DequeueTmevtb(k, t).owner == k.owner && Shape(DequeueTmevtb(k, t))
    ensures MakeNonWait(k, t).held == k.held && MakeNonWait(k, t).owner == k.owner && Shape(MakeNonWait(k, t))
    ensures |DequeueTmevtb(k, t).tcb| == |k.tcb| && DequeueTmevtb(k, t).cfg == k.cfg
  {
  }

  lemma {:induction false} ReleaseAllHeld(k: K, t: TaskId, n: nat, u: TaskId)
    requires Shape(k) && IsTask(k, t) && IsTask(k, u) && u != t
    ensures var r := MutexReleaseAll(k, t, n); Shape(r) && |r.held| == |k.held| && k.held[u] <= r.held[u]
    decreases n
  {
    hide MutexRelease, QueueShape, CfgOk;
    if n != 0 && k.held[t] != [] {
      var m := k.held[t][|k.held[t]| - 1];
      var k1 := PopHeld(k, t);
      ReleaseHeld(k1, m, u);
      var k2 := MutexRelease(k1, m);
      ReleaseAllHeld(k2, t, n - 1, u);
    }
  }

  /** Taking a task out of its wait touches no mutex but the one it waits for. */
  lemma OutAt(k: K, t: TaskId, n: nat, m: WobjId) returns (k1: K)
    requires Inv(k, TIGHT) && IsTask(k, t) && !k.tcb[t].stat.Dormant? && IsMutex(k.cfg, m)
    ensures k1 == if k.tcb[t].stat.Runnable? then MakeNonRunnable(k, t)
                  else if k.tcb[t].stat.Waiting? then DequeueTmevtb(WaitDequeueWobj(k, t, n), t)
                  else k
    ensures Inv(k1, Stale(Out(TIGHT, t), t)) && Kept(k, k1) && k1.held == k.held && k1.owner == k.owner
    ensures !WaitsOn(k.tcb[t].stat, m) ==> Q(k1, WaitQ(m)) == Q(k, WaitQ(m))
  {
    hide QueueOk, TaskOk, MbfSignal, QueueShape, TaskShape, CfgOk;
    k1 := TaskOutInv(k, t, n);
    if k.tcb[t].stat.Waiting? {
      WaitDequeueWobjInv(k, TIGHT, t, n);
      ChainKept(WaitDequeueWobj(k, t, n), t);
      QueueKept(k, t, n, m);
    } else {
      ReadyKept(k, t, m);
    }
  }

  lemma ReadyKept(k: K, t: TaskId, m: WobjId)
    requires Shape(k) && IsTask(k, t) && m < |k.cfg.wobj|
    ensures var r := MakeNonRunnable(k, t); r.owner == k.owner && r.held == k.held && Q(r, WaitQ(m)) == Q(k, WaitQ(m))
  {
  }

  lemma QueueKept(k: K, t: TaskId, n: nat, m: WobjId)
    requires Shape(k) && IsTask(k, t) && IsMutex(k.cfg, m)
    ensures var r := DequeueTmevtb(WaitDequeueWobj(k, t, n), t); !WaitsOn(k.tcb[t].stat, m) ==> Q(r, WaitQ(m)) == Q(k, WaitQ(m))
  {
    hide MbfSignal, CfgOk;
    if k.tcb[t].stat.Waiting? && k.tcb[t].stat.cause.OnQueue? && k.tcb[t].stat.cause.q != m {
      SignalKept(Unlink(k, WaitQ(k.tcb[t].stat.cause.q), t), k.tcb[t].stat.cause.q, n, m);
    }
  }

  lemma {:induction false} SignalKept(k: K, q: WobjId, n: nat, m: WobjId)
    requires Shape(k) && q < |k.cfg.wobj| && m < |k.cfg.wobj| && m != q
    ensures var r := MbfSignal(k, q, n); Shape(r) && r.cfg == k.cfg && Q(r, WaitQ(m)) == Q(k, WaitQ(m))
    decreases n
  {
    hide CfgOk, TaskShape, WaitEnd;
    if n != 0 && Q(k, WaitQ(q)) != [] {
      WokenKept(k, q, m);
      SignalKept(WakeFirst(k, q, E_OK), q, n - 1, m);
    }
  }

  lemma WokenKept(k: K, q: WobjId, m: WobjId)
    requires Shape(k) && q < |k.cfg.wobj| && m < |k.cfg.wobj| && m != q && Q(k, WaitQ(q)) != []
    ensures var r := WakeFirst(k, q, E_OK); Shape(r) && r.cfg == k.cfg && Q(r, WaitQ(m)) == Q(k, WaitQ(m))
  {
    hide CfgOk, TaskShape;
  }

  /** A task that ends gives each of its mutexes to the first waiter or to nobody. */
  lemma TerminationOwners(k: K, t: TaskId, n: nat, m: WobjId, u: TaskId)
    requires Inv(k, TIGHT) && IsTask(k, t) && !k.tcb[t].stat.Dormant? && IsMutex(k.cfg, m) && IsTask(k, u)
    ensures var r := TaskTerminate(k, t, n);
            && Shape(r) && |r.owner| == |k.owner| && |r.held| == |k.held|
            && r.owner[m] == (if k.owner[m] == Some(t) then FirstWaiter(k, m) else k.owner[m])
            && (if u == t then r.held[u] == [] else k.held[u] <= r.held[u])
  {
    hide QueueOk, TaskOk, MutexReleaseAll, WaitDequeueWobj, DequeueTmevtb, MakeNonRunnable, MakeDormant, MakeActive, QueueShape, TaskShape, CfgOk;
    OwnerWaitsNot(k, t, m);
    var s := Stale(Out(TIGHT, t), t);
    var k1 := OutAt(k, t, n, m);
    var k2 := MutexReleaseAll(k1, t, |k1.held[t]|);
    ReleaseAllOwners(k1, s, t, |k1.held[t]|, m);
    MutexReleaseAllInv(k1, s, t, |k1.held[t]|);
    if u != t { ReleaseAllHeld(k1, t, |k1.held[t]|, u); }
    DormantKept(k2, t);
  }

  lemma DormantKept(k: K, t: TaskId)
    requires Shape(k) && IsTask(k, t)
    ensures var r := MakeDormant(k, t);
            var u := if r.tcb[t].actque then MakeActive(SetTcb(r, t, r.tcb[t].(actque := false)), t) else r;
            u.owner == k.owner && u.held == k.held
  {
    hide QueueShape, CfgOk;
  }

  lemma OwnerWaitsNot(k: K, t: TaskId, m: WobjId)
    requires Inv(k, TIGHT) && IsTask(k, t) && IsMutex(k.cfg, m)
    ensures m in k.held[t] <==> k.owner[m] == Some(t)
    ensures k.owner[m] == Some(t) ==> !WaitsOn(k.tcb[t].stat, m)
  {
    assert TaskOk(k, TIGHT, t);
  }

  // ---------------------------------------------------------------- each call

  predicate OfMutex(c: Call) { c.LocMtx? || c.PlocMtx? || c.UnlMtx? || c.IniMtx? }

  /** Owners and chains are as the answer says. */
  ghost predicate Held(k: K, c: Call, re: (K, Ercd), m: WobjId, u: TaskId)
    requires Shape(k) && Callable(k, c) && IsMutex(k.cfg, m) && IsTask(k, u)
  {
    && Shape(re.0) && |re.0.owner| == |k.owner| && IsTask(re.0, u)
    && re.0.owner[m] == OwnerAfter(k, c, re.1, m) && ChainAfter(k, c, re.1, re.0, u)
  }

  lemma SameHeld(k: K, c: Call, re: (K, Ercd), m: WobjId, u: TaskId)
    requires Shape(k) && Callable(k, c) && IsMutex(k.cfg, m) && IsTask(k, u)
    requires Shape(re.0) && re.0.cfg == k.cfg && re.0.owner == k.owner && re.0.held == k.held
    requires !c.LocMtx? && !c.PlocMtx? && !c.UnlMtx? && !c.IniMtx? && forall t :: IsTask(k, t) ==> !Terminates(k, c, re.1, t)
    ensures Held(k, c, re, m, u)
  {
  }

  lemma DispatchKept(k: K)
    requires Shape(k)
    ensures var r := Dispatch(k); Shape(r) && r.cfg == k.cfg && r.owner == k.owner && r.held == k.held && r.queues == k.queues && r.tcb == k.tcb
  {
    DispatchShape(k);
  }

  predicate Locks(c: Call, m: WobjId) { c == PlocMtx(m) || (c.LocMtx? && c.m == m) }

  lemma LockedHeld(k: K, c: Call, re: (K, Ercd), m: WobjId, x: WobjId, u: TaskId)
    requires Shape(k) && Callable(k, c) && IsMutex(k.cfg, x) && IsTask(k, u) && Locks(c, m)
    requires Shape(re.0) && |re.0.owner| == |k.owner| && IsTask(re.0, u) && k.held[u] <= re.0.held[u]
    requires re.0.owner[x] == if re.1 == E_OK && x == m then k.run else k.owner[x]
    ensures Held(k, c, re, x, u)
  {
    hide Callable, QueueShape, TaskShape, CfgOk;
  }

  lemma LocMtxHeld(k: K, m: WobjId, tmo: Tmo, x: WobjId, u: TaskId)
    requires Shape(k) && Callable(k, LocMtx(m, tmo)) && k.run.Some? && IsTask(k, k.run.value)
    requires IsMutex(k.cfg, m) && IsMutex(k.cfg, x) && IsTask(k, u)
    ensures Held(k, LocMtx(m, tmo), LocMtxStep(k, k.run.value, m, tmo), x, u)
  {
    hide Held, Callable, MutexAcquire, WobjMakeWait, Dispatch, QueueShape, CfgOk;
    var t := k.run.value;
    AcquireKept(k, t, m, x, u);
    WaitKept(k, t, OnQueue(m), tmo.Timed?);
    DispatchKept(WobjMakeWait(k, t, m, tmo.Timed?));
    LockedHeld(k, LocMtx(m, tmo), LocMtxStep(k, t, m, tmo), m, x, u);
  }

  lemma PlocMtxHeld(k: K, m: WobjId, x: WobjId, u: TaskId)
    requires Shape(k) && Callable(k, PlocMtx(m)) && k.run.Some? && IsTask(k, k.run.value) && IsMutex(k.cfg, m)
    requires IsMutex(k.cfg, x) && IsTask(k, u)
    ensures Held(k, PlocMtx(m), PlocMtxStep(k, k.run.value, m), x, u)
  {
    hide Held, Callable, MutexAcquire, QueueShape, CfgOk;
    AcquireKept(k, k.run.value, m, x, u);
    LockedHeld(k, PlocMtx(m), PlocMtxStep(k, k.run.value, m), m, x, u);
  }

  lemma AcquireKept(k: K, t: TaskId, m: WobjId, x: WobjId, u: TaskId)
    requires Shape(k) && IsTask(k, t) && IsMutex(k.cfg, m) && IsMutex(k.cfg, x) && IsTask(k, u)
    ensures var r := MutexAcquire(k, t, m);
            Shape(r) && |r.owner| == |k.owner| && IsTask(r, u) && r.owner[x] == (if x == m then Some(t) else k.owner[x]) && k.held[u] <= r.held[u]
  {
    hide ChangePriority, QueueShape, CfgOk;
    var k1 := SetHeld(SetOwner(k, m, Some(t)), t, k.held[t] + [m]);
    var c := Ceiling(k.cfg, m);
    if c.Some? && c.value < TNUM_TPRI { MovedKept(k1, t, c.value, true); }
    CeilingRange(k, m);
  }

  lemma CeilingRange(k: K, m: WobjId)
    requires Shape(k) && IsMutex(k.cfg, m)
    ensures Ceiling(k.cfg, m).Some? ==> Ceiling(k.cfg, m).value < TNUM_TPRI
  {
  }

  lemma MovedKept(k: K, t: TaskId, p: Pri, mtxmode: bool)
    requires Shape(k) && IsTask(k, t) && p < TNUM_TPRI
    ensures var r := ChangePriority(k, t, p, mtxmode); Shape(r) && r.cfg == k.cfg && r.owner == k.owner && r.held == k.held && |r.tcb| == |k.tcb|
  {
    hide CfgOk, QueueShape, TaskShape;
  }

  lemma WaitKept(k: K, t: TaskId, c: Cause, tmo: bool)
    requires Shape(k) && IsTask(k, t) && ValidCause(k.cfg, Waiting(c, false, tmo))
    ensures var r := MakeWait(k, t, c, tmo); Shape(r) && r.cfg == k.cfg && r.owner == k.owner && r.held == k.held
    ensures c.OnQueue? ==> var r := WobjMakeWait(k, t, c.q, tmo); Shape(r) && r.cfg == k.cfg && r.owner == k.owner && r.held == k.held
  {
    hide QueueShape, CfgOk;
  }

  lemma UnlockHeld(k: K, m: WobjId, x: WobjId, u: TaskId)
    requires Settled(k) && Shape(k) && Callable(k, UnlMtx(m)) && IsMutex(k.cfg, m) && IsMutex(k.cfg, x) && IsTask(k, u)
    ensures Held(k, UnlMtx(m), UnlMtxStep(k, k.run.value, m), x, u)
  {
    hide Inv, RunOk, MutexDropPriority, MutexRelease, Dispatch, QueueShape, TaskShape, CfgOk;
    RunnerKnown(k);
    var t, ms := k.run.value, k.held[k.run.value];
    if ms != [] && ms[|ms| - 1] == m {
      var k1 := PopHeld(k, t);
      var k2 := MutexDropPriority(k1, t, m);
      DropKept(k1, t, m);
      ReleaseIsLocal(k2, m);
      ReleaseHeld(k2, m, u);
      PoppedRelease(k, m);
      DispatchKept(MutexRelease(k2, m));
    }
  }

  /** The task that unlocks is not its own heir. */
  lemma PoppedRelease(k: K, m: WobjId)
    requires Settled(k) && Shape(k) && k.run.Some? && IsMutex(k.cfg, m) && IsTask(k, k.run.value)
    requires var ms := k.held[k.run.value]; ms != [] && ms[|ms| - 1] == m
    ensures MutexRelease(MutexDropPriority(PopHeld(k, k.run.value), k.run.value, m), m).held[k.run.value] == PopHeld(k, k.run.value).held[k.run.value]
  {
    hide QueueOk, TaskOk, MutexDropPriority, MutexRelease, QueueShape, TaskShape, CfgOk;
    var t := k.run.value;
    UnlockFacts(k, TIGHT, t);
    PopInv(k, TIGHT, t);
    var k1 := PopHeld(k, t);
    var s := Stale(Free(TIGHT, m), t);
    MutexDropPriorityInv(k1, s, t, k.held[t], |k.held[t]| - 1);
    assert Fresh(s, t) == Free(TIGHT, m);
    MutexReleaseInv(MutexDropPriority(k1, t, m), Free(TIGHT, m), m);
  }

  lemma UnlockFacts(k: K, s: Slack, t: TaskId)
    requires Inv(k, s) && IsTask(k, t) && t !in s.out && t !in s.stale
    ensures k.tcb[t].pri == MinCeiling(k.cfg, k.tcb[t].bpri, k.held[t])
  {
    assert TaskOk(k, s, t);
  }

  lemma InitHeld(k: K, m: WobjId, x: WobjId, u: TaskId)
    requires Settled(k) && Shape(k) && Callable(k, IniMtx(m)) && IsMutex(k.cfg, m) && IsMutex(k.cfg, x) && IsTask(k, u)
    ensures Held(k, IniMtx(m), IniMtxStep(k, m), x, u)
  {
    hide QueueOk, TaskOk, MutexDropPriority, InitWaitQueue, Dispatch, QueueShape, TaskShape, CfgOk;
    InitWaitQueueInv(k, TIGHT, m);
    var k1, o := InitWaitQueue(k, m), k.owner[m];
    DispatchKept(k1);
    if o.Some? {
      OwnerIsTask(k, m);
      RemoveMembersOf(k1.held[o.value], m);
      HeldMutex(k1, o.value);
      var k2 := SetHeld(SetOwner(k1, m, None), o.value, Remove(k1.held[o.value], m));
      DropKept(k2, o.value, m);
      DispatchKept(MutexDropPriority(k2, o.value, m));
    }
  }

  lemma OwnerIsTask(k: K, m: WobjId)
    requires Shape(k) && IsMutex(k.cfg, m) && k.owner[m].Some?
    ensures IsTask(k, k.owner[m].value)
  {
  }

  lemma EndHeld(k: K, c: Call, re: (K, Ercd), t: TaskId, m: WobjId, u: TaskId)
    requires Shape(k) && Callable(k, c) && IsTask(k, t) && IsMutex(k.cfg, m) && IsTask(k, u) && !OfMutex(c)
    requires Terminates(k, c, re.1, t) && forall x :: IsTask(k, x) && x != t ==> !Terminates(k, c, re.1, x)
    requires Shape(re.0) && |re.0.owner| == |k.owner| && |re.0.held| == |k.held|
    requires re.0.owner[m] == if k.owner[m] == Some(t) then FirstWaiter(k, m) else k.owner[m]
    requires if u == t then re.0.held[u] == [] else k.held[u] <= re.0.held[u]
    ensures Held(k, c, re, m, u)
  {
    hide Terminates, Callable, QueueShape, CfgOk;
  }

  lemma TerminateHeld(k: K, c: Call, k0: K, t: TaskId, n: nat, e: Ercd, m: WobjId, u: TaskId)
    requires Inv(k0, TIGHT) && Shape(k) && Callable(k, c) && IsTask(k, t) && !k.tcb[t].stat.Dormant?
    requires IsMutex(k.cfg, m) && IsTask(k, u)
    requires k0 == k.(dsp := k0.dsp, twd := k0.twd, idle := k0.idle)
    requires !OfMutex(c) && Terminates(k, c, e, t) && forall x :: IsTask(k, x) && x != t ==> !Terminates(k, c, e, x)
    ensures Shape(k0) && Held(k, c, (Dispatch(TaskTerminate(k0, t, n)), e), m, u)
  {
    hide QueueOk, TaskOk, TaskTerminate, Dispatch, QueueShape, TaskShape, CfgOk, Terminates, Callable, Held;
    TerminationOwners(k0, t, n, m, u);
    DispatchKept(TaskTerminate(k0, t, n));
    assert FirstWaiter(k0, m) == FirstWaiter(k, m);
    EndHeld(k, c, (Dispatch(TaskTerminate(k0, t, n)), e), t, m, u);
  }

  predicate MayTerminate(c: Call) { c.ExtTsk? || c.EnaTer? || c.EnaDsp? || c.TerTsk? || c.RasTer? }

  lemma PlainTaskHeld(k: K, c: Call)
    requires Settled(k) && Shape(k) && Callable(k, c) && IsTaskCall(c) && !MayTerminate(c)
    ensures var r := TaskStep(k, c).0; r.owner == k.owner && r.held == k.held
  {
    hide Inv, RunOk, SlpTskStep, DlyTskStep, WupTskStep, RelWaiStep, ChgPriStep, MakeNonRunnable, QueueShape, CfgOk,
      TaskShape;
    RunnerKnown(k);
    match c
    case ChgPri(t, p) => ChgPriKept(k, t, p);
    case SlpTsk(tmo) => PauseKept(k, k.run.value, tmo);
    case DlyTsk => PauseKept(k, k.run.value, Poll);
    case WupTsk(t) => ReleaseKept(k, t, 0);
    case RelWai(t, n) => ReleaseKept(k, t, n);
    case SusTsk(t) => ReadyChains(SetStat(k, t, Suspended), t);
    case _ =>
  }

  lemma PauseKept(k: K, t: TaskId, tmo: Tmo)
    requires Shape(k) && IsTask(k, t)
    ensures var r := SlpTskStep(k, t, tmo).0; r.owner == k.owner && r.held == k.held
    ensures var r := DlyTskStep(k, t).0; r.owner == k.owner && r.held == k.held
  {
    hide MakeWait, QueueShape, CfgOk, Choice;
    WaitKept(k, t, Sleeping, tmo.Timed?);
    WaitKept(k, t, Delayed, true);
  }

  lemma ReleaseKept(k: K, t: TaskId, n: nat)
    requires Settled(k) && Shape(k) && IsTask(k, t)
    ensures var r := WupTskStep(k, t).0; r.owner == k.owner && r.held == k.held
    ensures var r := RelWaiStep(k, t, n).0; r.owner == k.owner && r.held == k.held
  {
    hide QueueOk, TaskOk, RunOk, WaitEnd, WaitDequeueWobj, QueueShape, CfgOk, Choice;
    EndKept(k, t, E_OK);
    if k.tcb[t].stat.Waiting? { ForcedEndInv(k, TIGHT, t, n, E_RLWAI); }
  }

  lemma ChgPriKept(k: K, t: TaskId, p: Option<Pri>)
    requires Shape(k) && IsTask(k, t) && (p.Some? ==> p.value < TNUM_TPRI)
    ensures var r := ChgPriStep(k, t, p).0; r.owner == k.owner && r.held == k.held
  {
    hide ChangePriority, CheckCeilpri, ScanCeilmtx, QueueShape;
    var b := if p.Some? then p.value else k.cfg.ipri[t];
    MovedKept(SetTcb(k, t, k.tcb[t].(bpri := b)), t, b, false);
  }

  lemma ReadyChains(k: K, t: TaskId)
    requires Shape(k) && IsTask(k, t)
    ensures var r := MakeNonRunnable(k, t); r.owner == k.owner && r.held == k.held
  {
  }

  lemma EndKept(k: K, t: TaskId, e: Ercd)
    requires Shape(k) && IsTask(k, t)
    ensures var r := WaitEnd(k, t, e); r.owner == k.owner && r.held == k.held
  {
    hide QueueShape, CfgOk;
  }

  lemma PlainObjectHeld(k: K, c: Call)
    requires Settled(k) && Shape(k) && Callable(k, c) && !IsTaskCall(c) && !MayTerminate(c) && !OfMutex(c)
    ensures var r := ObjectStep(k, c).0; r.owner == k.owner && r.held == k.held
  {
    hide QueueOk, TaskOk, RunOk, WobjMakeWait, WakeFirst, WaitEnd, InitWaitQueue, Expire, QueueShape, CfgOk;
    RunnerKnown(k);
    match c
    case WaiSem(q, tmo) => WaitKept(k, k.run.value, OnQueue(q), tmo.Timed?);
    case SigSem(q) => if Q(k, WaitQ(q)) != [] { WakeFirstInv(k, TIGHT, q, E_OK); }
    case IniSem(q) => InitWaitQueueInv(k, TIGHT, q);
    case ObjWait(q, tmo) => WaitKept(k, k.run.value, OnQueue(q), tmo.Timed?);
    case ObjWake(q, i) =>
      var s := Q(k, WaitQ(q));
      if i < |s| { EndKept(Unlink(k, WaitQ(q), s[i]), s[i], E_OK); }
    case ObjInit(q) => InitWaitQueueInv(k, TIGHT, q);
    case Timeout(t, n) =>
      ExpireIs(k, t, n);
      ForcedEndInv(k, TIGHT, t, n, if k.tcb[t].stat.cause.Delayed? then E_OK else E_TMOUT);
    case _ =>
  }

  lemma TerminatorHeld(k: K, c: Call, m: WobjId, u: TaskId)
    requires Settled(k) && Shape(k) && Callable(k, c) && MayTerminate(c) && IsMutex(k.cfg, m) && IsTask(k, u)
    ensures Held(k, c, Step(k, c), m, u)
  {
    hide Held, Inv, RunOk, TaskTerminate, RasterRelease, Dispatch, QueueShape, TaskShape, CfgOk;
    RunnerKnown(k);
    match c
    case ExtTsk(twd, idle) =>
      WindowInv(k, true, twd, idle);
      TerminateHeld(k, c, if k.dsp then k else SetDspflg(k, twd, idle), k.run.value, 0, NoReturn, m, u);
    case EnaTer =>
      if k.tcb[k.run.value].raster && k.dsp { TerminateHeld(k, c, k, k.run.value, 0, NoReturn, m, u); }
      else { SameHeld(k, c, EnaTerStep(k, k.run.value), m, u); }
    case EnaDsp(twd, idle) =>
      WindowInv(k, true, twd, idle);
      DispatchKept(SetDspflg(k, twd, idle));
      if k.tcb[k.run.value].raster && k.tcb[k.run.value].enater { TerminateHeld(k, c, SetDspflg(k, twd, idle), k.run.value, 0, NoReturn, m, u); }
      else { SameHeld(k, c, EnaDspStep(k, k.run.value, twd, idle), m, u); }
    case TerTsk(t, n) =>
      if k.run == Some(t) || k.tcb[t].stat.Dormant? { SameHeld(k, c, TerTskStep(k, t, n), m, u); }
      else { TerminateHeld(k, c, k, t, n, E_OK, m, u); }
    case RasTer(t, n) => RasTerHeld(k, t, n, m, u);
  }

  lemma RasTerHeld(k: K, t: TaskId, n: nat, m: WobjId, u: TaskId)
    requires Settled(k) && Shape(k) && IsTask(k, t) && Callable(k, RasTer(t, n)) && IsMutex(k.cfg, m) && IsTask(k, u)
    ensures Held(k, RasTer(t, n), RasTerStep(k, t, n), m, u)
  {
    hide Held, Inv, RunOk, TaskTerminate, RasterRelease, Dispatch, QueueShape, CfgOk;
    var c := RasTer(t, n);
    if k.run == Some(t) || k.tcb[t].stat.Dormant? {
      SameHeld(k, c, RasTerStep(k, t, n), m, u);
    } else if k.tcb[t].enater {
      TerminateHeld(k, c, k, t, n, E_OK, m, u);
    } else {
      FlagInv(k, t, k.tcb[t].(raster := true));
      var k1 := SetTcb(k, t, k.tcb[t].(raster := true));
      RasterKept(k1, t, n);
      DispatchKept(RasterRelease(k1, t, n));
      SameHeld(k, c, RasTerStep(k, t, n), m, u);
    }
  }

  lemma RasterKept(k: K, t: TaskId, n: nat)
    requires Inv(k, TIGHT) && IsTask(k, t)
    ensures var r := RasterRelease(k, t, n); Shape(r) && r.cfg == k.cfg && r.owner == k.owner && r.held == k.held
  {
    hide QueueOk, TaskOk, WaitDequeueWobj, QueueShape, CfgOk;
    if k.tcb[t].stat.Waiting? {
      WaitDequeueWobjInv(k, TIGHT, t, n);
      ChainKept(WaitDequeueWobj(k, t, n), t);
    }
  }

  /** Whatever is called: each mutex has the owner, and each task the chain, that the answer says. */
  lemma CallHeld(k: K, c: Call, m: WobjId, u: TaskId)
    requires Settled(k) && Shape(k) && Callable(k, c) && IsMutex(k.cfg, m) && IsTask(k, u)
    ensures Held(k, c, Step(k, c), m, u)
  {
    hide Settled, Held, TaskStep, ObjectStep, LocMtxStep, PlocMtxStep, UnlMtxStep, IniMtxStep;
    StepKeeps(k, c);
    if MayTerminate(c) {
      TerminatorHeld(k, c, m, u);
    } else if OfMutex(c) {
      MutexCallHeld(k, c, m, u);
    } else {
      if IsTaskCall(c) { PlainTaskHeld(k, c); } else { PlainObjectHeld(k, c); }
      SameHeld(k, c, Step(k, c), m, u);
    }
  }

  lemma MutexCallHeld(k: K, c: Call, m: WobjId, u: TaskId)
    requires Settled(k) && Shape(k) && Callable(k, c) && OfMutex(c) && IsMutex(k.cfg, m) && IsTask(k, u)
    ensures Held(k, c, ObjectStep(k, c), m, u)
  {
    hide Settled, Held, LocMtxStep, PlocMtxStep, UnlMtxStep, IniMtxStep, Dispatch;
    RunnerKnown(k);
    match c
    case LocMtx(x, tmo) => LocMtxHeld(k, x, tmo, m, u);
    case PlocMtx(x) => PlocMtxHeld(k, x, m, u);
    case UnlMtx(x) => UnlockHeld(k, x, m, u);
    case IniMtx(x) => InitHeld(k, x, m, u);
  }

  // ---------------------------------------------------------------- along a run

  /** The step after which `t` last came to own `m`, if it does after `n` steps. */
  ghost function Since(ks: seq<K>, m: WobjId, t: TaskId, n: nat): (i: nat)
    requires n < |ks| && forall i :: 0 <= i < |ks| ==> m < |ks[i].owner|
    ensures i <= n
  {
    if n == 0 then 0 else if ks[n - 1].owner[m] == Some(t) then Since(ks, m, t, n - 1) else n
  }

  /** Every mutex table has its length. */
  ghost predicate Tables(c: Cfg, ks: seq<K>) {
    forall i :: 0 <= i < |ks| ==> |ks[i].owner| == |c.wobj| && |ks[i].held| == |c.unitOf|
  }

  lemma RunTables(c: Cfg, ks: seq<K>, calls: seq<Call>)
    requires CfgOk(c) && IsRun(c, ks, calls)
    ensures Tables(c, ks)
  {
    hide Step, Settled;
    forall n | 0 <= n < |ks| ensures |ks[n].owner| == |c.wobj| && |ks[n].held| == |c.unitOf| { RunKeeps(c, ks, calls, n); }
  }

  /** The chain of `t` is in the order in which it came to own its mutexes. */
  ghost predicate ByTime(c: Cfg, ks: seq<K>, t: TaskId, n: nat)
    requires Tables(c, ks) && n < |ks| && t < |c.unitOf|
  {
    var ms := ks[n].held[t];
    && (forall i :: 0 <= i < |ms| ==> ms[i] < |c.wobj|)
    && forall i, j :: 0 <= i < j < |ms| ==> Since(ks, ms[i], t, n) < Since(ks, ms[j], t, n)
  }

  lemma ChainFacts(k: K, t: TaskId)
    requires Settled(k) && Shape(k) && IsTask(k, t)
    ensures NoDup(k.held[t]) && forall m :: m in k.held[t] ==> IsMutex(k.cfg, m) && k.owner[m] == Some(t)
    ensures forall m: WobjId :: IsMutex(k.cfg, m) && k.owner[m] == Some(t) ==> m in k.held[t]
  {
    assert TaskOk(k, TIGHT, t);
  }

  /** A call makes a task the owner of one more mutex at most. */
  lemma OneMore(k: K, c: Call, x: WobjId, y: WobjId, u: TaskId)
    requires Settled(k) && Shape(k) && Callable(k, c) && IsMutex(k.cfg, x) && IsMutex(k.cfg, y) && IsTask(k, u)
    requires k.owner[x] != Some(u) && k.owner[y] != Some(u)
    requires var e := Step(k, c).1; OwnerAfter(k, c, e, x) == Some(u) && OwnerAfter(k, c, e, y) == Some(u)
    ensures x == y
  {
    hide Settled, Step, Shape;
    HeirWaits(k, x);
    HeirWaits(k, y);
  }

  lemma HeirWaits(k: K, m: WobjId)
    requires Settled(k) && Shape(k) && IsMutex(k.cfg, m)
    ensures FirstWaiter(k, m).Some? ==> IsTask(k, FirstWaiter(k, m).value) && WaitsOn(k.tcb[FirstWaiter(k, m).value].stat, m)
  {
    hide Inv, RunOk, TaskShape, CfgOk;
    if Q(k, WaitQ(m)) != [] { WaitersAre(k, m, Q(k, WaitQ(m))[0]); }
  }

  lemma CutOrder(c: Cfg, ks: seq<K>, t: TaskId, n: nat, i: nat)
    requires Tables(c, ks) && 0 < n < |ks| && t < |c.unitOf| && ByTime(c, ks, t, n - 1)
    requires var ms := ks[n - 1].held[t]; i < |ms| && ks[n].held[t] == ms[..i] + ms[i + 1..]
    requires var k := ks[n - 1]; forall j :: 0 <= j < |k.held[t]| ==> k.held[t][j] < |c.wobj| && k.owner[k.held[t][j]] == Some(t)
    ensures ByTime(c, ks, t, n)
  {
    var ms, r := ks[n - 1].held[t], ks[n].held[t];
    forall a | 0 <= a < |r| ensures r[a] == ms[if a < i then a else a + 1] && Since(ks, r[a], t, n) == Since(ks, r[a], t, n - 1) {}
    forall a, b | 0 <= a < b < |r| ensures Since(ks, r[a], t, n) < Since(ks, r[b], t, n) {
      assert Since(ks, ms[if a < i then a else a + 1], t, n - 1) < Since(ks, ms[if b < i then b else b + 1], t, n - 1);
    }
  }

  lemma LongerOrder(c: Cfg, ks: seq<K>, calls: seq<Call>, t: TaskId, n: nat)
    requires CfgOk(c) && IsRun(c, ks, calls) && Tables(c, ks) && 0 < n <= |calls| && t < |c.unitOf|
    requires ByTime(c, ks, t, n - 1)
    requires ks[n - 1].held[t] <= ks[n].held[t]
    ensures ByTime(c, ks, t, n)
  {
    hide Settled, Step, Shape;
    RunKeeps(c, ks, calls, n - 1);
    RunKeeps(c, ks, calls, n);
    var k, r := ks[n - 1], ks[n];
    ChainFacts(k, t);
    ChainFacts(r, t);
    var ms := r.held[t];
    forall a | 0 <= a < |ms| ensures ms[a] < |c.wobj| && r.owner[ms[a]] == Some(t) { assert ms[a] in ms; }
    forall a, b | 0 <= a < b < |ms| ensures Since(ks, ms[a], t, n) < Since(ks, ms[b], t, n) {
      assert ms[a] in ms && ms[b] in ms && ms[a] != ms[b];
      if b < |k.held[t]| {
        assert k.held[t][a] in k.held[t] && k.held[t][b] in k.held[t];
        assert Since(ks, ms[a], t, n - 1) < Since(ks, ms[b], t, n - 1);
      } else {
        NewOne(k.held[t], ms, b);
        if a < |k.held[t]| {
          assert k.held[t][a] in k.held[t];
        } else {
          NewOne(k.held[t], ms, a);
          CallHeld(k, calls[n - 1], ms[a], t);
          CallHeld(k, calls[n - 1], ms[b], t);
          OneMore(k, calls[n - 1], ms[a], ms[b], t);
        }
      }
    }
  }

  lemma NewOne(a: seq<WobjId>, b: seq<WobjId>, i: nat)
    requires a <= b && NoDup(b) && |a| <= i < |b|
    ensures b[i] !in a
  {
  }

  /** In every run a task holds its mutexes in the order in which it came to own them. */
  lemma {:induction false} HeldByTime(c: Cfg, ks: seq<K>, calls: seq<Call>, t: TaskId, n: nat)
    requires CfgOk(c) && IsRun(c, ks, calls) && Tables(c, ks) && t < |c.unitOf| && n <= |calls|
    ensures ByTime(c, ks, t, n)
  {
    hide Settled, Step, Shape, ByTime, Held;
    if n == 0 {
      NothingHeld(c, ks, t);
    } else {
      HeldByTime(c, ks, calls, t, n - 1);
      RunKeeps(c, ks, calls, n - 1);
      ChainNext(c, ks, calls, t, n);
    }
  }

  lemma NothingHeld(c: Cfg, ks: seq<K>, t: TaskId)
    requires CfgOk(c) && Tables(c, ks) && ks != [] && t < |c.unitOf| && ks[0] == Initial(c)
    ensures ByTime(c, ks, t, 0)
  {
  }

  lemma ChainNext(c: Cfg, ks: seq<K>, calls: seq<Call>, t: TaskId, n: nat)
    requires CfgOk(c) && IsRun(c, ks, calls) && Tables(c, ks) && 0 < n <= |calls| && t < |c.unitOf|
    requires ByTime(c, ks, t, n - 1)
    ensures ByTime(c, ks, t, n)
  {
    hide Settled, Step, Shape, Terminates;
    RunKeeps(c, ks, calls, n - 1);
    var k, r, d := ks[n - 1], ks[n], calls[n - 1];
    ChainFacts(k, t);
    forall j | 0 <= j < |k.held[t]| ensures k.held[t][j] < |c.wobj| && k.owner[k.held[t][j]] == Some(t) { assert k.held[t][j] in k.held[t]; }
    ChainCall(k, d, t);
    var e := Step(k, d).1;
    if r.held[t] == [] {
    } else if k.held[t] <= r.held[t] {
      LongerOrder(c, ks, calls, t, n);
    } else if d.IniMtx? {
      var i := RemoveCuts(k.held[t], d.m);
      CutOrder(c, ks, t, n, i);
    } else {
      CutOrder(c, ks, t, n, |k.held[t]| - 1);
    }
  }

  lemma ChainCall(k: K, c: Call, t: TaskId)
    requires Settled(k) && Shape(k) && Callable(k, c) && IsTask(k, t)
    ensures var (r, e) := Step(k, c); Shape(r) && IsTask(r, t)
    ensures var (r, e) := Step(k, c);
            || r.held[t] == [] || k.held[t] <= r.held[t]
            || (c.IniMtx? && c.m in k.held[t] && r.held[t] == Remove(k.held[t], c.m))
            || (c.UnlMtx? && k.held[t] != [] && r.held[t] == k.held[t][..|k.held[t]| - 1])
  {
    hide Inv, RunOk, Step, QueueShape, TaskShape, CfgOk, Terminates;
    StepKeeps(k, c);
    ChainFacts(k, t);
    if k.held[t] != [] {
      assert k.held[t][0] in k.held[t];
      CallHeld(k, c, k.held[t][0], t);
    }
  }

  lemma UnlockAnswer(k: K, m: WobjId)
    requires Shape(k) && Callable(k, UnlMtx(m)) && IsTask(k, k.run.value)
    ensures var ms := k.held[k.run.value]; Step(k, UnlMtx(m)).1 == E_OK <==> ms != [] && ms[|ms| - 1] == m
  {
    hide QueueShape, TaskShape, CfgOk, MutexRelease, MutexDropPriority, Dispatch;
  }

  lemma LastOwned(c: Cfg, ks: seq<K>, t: TaskId, n: nat, m: WobjId)
    requires Tables(c, ks) && n < |ks| && t < |c.unitOf| && m < |c.wobj| && ByTime(c, ks, t, n)
    ensures var ms := ks[n].held[t];
            ms != [] && ms[|ms| - 1] == m <==>
              m in ms && forall x: WobjId :: x < |c.wobj| && x in ms && x != m ==> Since(ks, x, t, n) < Since(ks, m, t, n)
  {
    var ms := ks[n].held[t];
    if m in ms {
      var i :| 0 <= i < |ms| && ms[i] == m;
      if i == |ms| - 1 {
        forall x: WobjId | x in ms && x != m ensures Since(ks, x, t, n) < Since(ks, m, t, n) { var j :| 0 <= j < |ms| && ms[j] == x; }
      } else {
        assert ms[|ms| - 1] in ms && Since(ks, m, t, n) < Since(ks, ms[|ms| - 1], t, n);
      }
    }
  }

  /** unl_mtx succeeds iff the caller owns the mutex and came to own no other one later. */
  lemma UnlockLatest(c: Cfg, ks: seq<K>, calls: seq<Call>, n: nat, m: WobjId)
    requires CfgOk(c) && IsRun(c, ks, calls) && Tables(c, ks) && n <= |calls| && Shape(ks[n]) && Callable(ks[n], UnlMtx(m))
    ensures var k, t := ks[n], ks[n].run.value;
            m < |c.wobj| && (Step(k, UnlMtx(m)).1 == E_OK <==>
              k.owner[m] == Some(t) && forall x: WobjId :: IsMutex(c, x) && k.owner[x] == Some(t) && x != m ==>
                Since(ks, x, t, n) < Since(ks, m, t, n))
  {
    hide Inv, RunOk, Step, QueueShape, TaskShape, CfgOk, ByTime;
    RunKeeps(c, ks, calls, n);
    var k, t := ks[n], ks[n].run.value;
    RunnerKnown(k);
    HeldByTime(c, ks, calls, t, n);
    ChainFacts(k, t);
    UnlockAnswer(k, m);
    LastOwned(c, ks, t, n, m);
  }
}
