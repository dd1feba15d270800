/**
 The service calls and timeout callbacks as atomic steps on the abstract kernel, each running from
 the CPU lock to the dispatch that may follow.
 */
module KernelCalls {
  import opened Base
  import opened KernelState

  datatype Tmo = Poll | Timed | Forever

  /** `n` counts the waiting senders whose messages fit when a waiting sender is removed. */
  datatype Call =
    | ActTsk(t: TaskId) | CanAct(t: TaskId) | ChgPri(t: TaskId, newpri: Option<Pri>)
    | SlpTsk(tmo: Tmo) | WupTsk(t: TaskId) | CanWup(t: TaskId) | DlyTsk
    | RelWai(t: TaskId, n: nat) | SusTsk(t: TaskId) | RsmTsk(t: TaskId)
    | ExtTsk(twd: UnitId, idle: UnitId) | RasTer(t: TaskId, n: nat) | DisTer | EnaTer | TerTsk(t: TaskId, n: nat)
    | RotRdq(p: Pri, u: UnitId)
    | LocMtx(m: WobjId, tmo: Tmo) | PlocMtx(m: WobjId) | UnlMtx(m: WobjId) | IniMtx(m: WobjId)
    | WaiSem(q: WobjId, tmo: Tmo) | SigSem(q: WobjId) | IniSem(q: WobjId)
    | ObjWait(q: WobjId, tmo: Tmo) | ObjWake(q: WobjId, i: nat) | ObjInit(q: WobjId)
    | Timeout(t: TaskId, n: nat)
    | DisDsp | EnaDsp(twd: UnitId, idle: UnitId) | SwitchWindow(twd: UnitId, idle: UnitId)

  /** Calls only a running task can make. */
  predicate NeedsTask(c: Call) {
    match c
    case ActTsk(_) | WupTsk(_) | RelWai(_, _) | RotRdq(_, _) | SigSem(_) | ObjWake(_, _) => false
    case Timeout(_, _) | SwitchWindow(_, _) => false
    case _ => true
  }

  predicate Arguments(k: K, c: Call) {
    match c
    case ActTsk(t) => IsTask(k, t)
    case CanAct(t) => IsTask(k, t)
    case ChgPri(t, p) => IsTask(k, t) && (p.Some? ==> p.value < TNUM_TPRI)
    case WupTsk(t) => IsTask(k, t)
    case CanWup(t) => IsTask(k, t)
    case RelWai(t, _) => IsTask(k, t)
    case SusTsk(t) => IsTask(k, t)
    case RsmTsk(t) => IsTask(k, t)
    case RasTer(t, _) => IsTask(k, t)
    case TerTsk(t, _) => IsTask(k, t)
    case RotRdq(p, u) => p < TNUM_TPRI && u < k.cfg.units
    case LocMtx(m, _) => IsMutex(k.cfg, m)
    case PlocMtx(m) => IsMutex(k.cfg, m)
    case UnlMtx(m) => IsMutex(k.cfg, m)
    case IniMtx(m) => IsMutex(k.cfg, m)
    case WaiSem(q, _) => IsSem(k.cfg, q)
    case SigSem(q) => IsSem(k.cfg, q)
    case IniSem(q) => IsSem(k.cfg, q)
    case ObjWait(q, _) => IsOther(k.cfg, q)
    case ObjWake(q, _) => IsOther(k.cfg, q)
    case ObjInit(q) => IsOther(k.cfg, q)
    // an event fires only if it is registered
    case Timeout(t, _) => IsTask(k, t) && t in k.timed
    case EnaDsp(twd, idle) => twd < k.cfg.units && idle < k.cfg.units
    case ExtTsk(twd, idle) => twd < k.cfg.units && idle < k.cfg.units
    // window switches are put off while dispatching is disabled
    case SwitchWindow(twd, idle) => twd < k.cfg.units && idle < k.cfg.units && k.dsp
    case _ => true
  }

  predicate Callable(k: K, c: Call) {
    Arguments(k, c) && (NeedsTask(c) ==> k.run.Some?)
  }

  /** The task that runs when a step is over. With dispatching disabled the choice is frozen. */
  function Dispatch(k: K): (r: K)
    requires Shape(k)
  {
    if k.dsp then k.(run := Choice(k)) else k
  }

  // ---------------------------------------------------------------- task_manage.c, task_sync.c

  function ActTskStep(k: K, t: TaskId): (K, Ercd)
    requires Shape(k) && IsTask(k, t)
  {
    if k.tcb[t].stat.Dormant? then (Dispatch(MakeActive(k, t)), E_OK)
    else if k.cfg.noactque[t] || k.tcb[t].actque then (k, E_QOVR)
    else (SetTcb(k, t, k.tcb[t].(actque := true)), E_OK)
  }

  /** mutex_check_ceilpri. */
  predicate CheckCeilpri(k: K, t: TaskId, b: Pri)
    requires Shape(k) && IsTask(k, t)
  {
    && (forall m <- k.held[t] :: Ceiling(k.cfg, m).Some? ==> Ceiling(k.cfg, m).value <= b)
    && (k.tcb[t].stat.Waiting? && k.tcb[t].stat.cause.OnQueue? && Ceiling(k.cfg, k.tcb[t].stat.cause.q).Some? ==>
          Ceiling(k.cfg, k.tcb[t].stat.cause.q).value <= b)
  }

  /** mutex_scan_ceilmtx. */
  predicate ScanCeilmtx(k: K, t: TaskId)
    requires Shape(k) && IsTask(k, t)
  {
    exists m <- k.held[t] :: Ceiling(k.cfg, m).Some?
  }

  function ChgPriStep(k: K, t: TaskId, newpri: Option<Pri>): (K, Ercd)
    requires Shape(k) && IsTask(k, t) && (newpri.Some? ==> newpri.value < TNUM_TPRI)
  {
    var b := if newpri.Some? then newpri.value else k.cfg.ipri[t];
    var waitsMtx := k.tcb[t].stat.Waiting? && k.tcb[t].stat.cause.OnQueue? && IsMutex(k.cfg, k.tcb[t].stat.cause.q);
    if k.tcb[t].stat.Dormant? then (k, E_OBJ)
    else if (k.held[t] != [] || waitsMtx) && !CheckCeilpri(k, t, b) then (k, E_ILUSE)
    else
      var k1 := SetTcb(k, t, k.tcb[t].(bpri := b));
      if k.held[t] == [] || !ScanCeilmtx(k, t) then (Dispatch(ChangePriority(k1, t, b, false)), E_OK)
      else (k1, E_OK)
  }

  /** slp_tsk and tslp_tsk. */
  function SlpTskStep(k: K, t: TaskId, tmo: Tmo): (K, Ercd)
    requires Shape(k) && IsTask(k, t)
  {
    if !k.dsp then (k, E_CTX)
    else if k.tcb[t].raster then (k, E_RASTER)
    else if k.tcb[t].wupque then (SetTcb(k, t, k.tcb[t].(wupque := false)), E_OK)
    else if tmo.Poll? then (k, E_TMOUT)
    else (Dispatch(MakeWait(k, t, Sleeping, tmo.Timed?)), Blocked)
  }

  function WupTskStep(k: K, t: TaskId): (K, Ercd)
    requires Shape(k) && IsTask(k, t)
  {
    if k.tcb[t].stat.Dormant? then (k, E_OBJ)
    else if k.tcb[t].stat.Waiting? && k.tcb[t].stat.cause.Sleeping? then (Dispatch(WaitEnd(k, t, E_OK)), E_OK)
    else if !k.tcb[t].wupque then (SetTcb(k, t, k.tcb[t].(wupque := true)), E_OK)
    else (k, E_QOVR)
  }

  function DlyTskStep(k: K, t: TaskId): (K, Ercd)
    requires Shape(k) && IsTask(k, t)
  {
    if !k.dsp then (k, E_CTX)
    else if k.tcb[t].raster then (k, E_RASTER)
    else (Dispatch(MakeWait(k, t, Delayed, true)), Blocked)
  }

  function RelWaiStep(k: K, t: TaskId, n: nat): (K, Ercd)
    requires Shape(k) && IsTask(k, t)
  {
    if !k.tcb[t].stat.Waiting? then (k, E_OBJ)
    else (Dispatch(WaitEnd(WaitDequeueWobj(k, t, n), t, E_RLWAI)), E_OK)
  }

  function SusTskStep(k: K, t: TaskId): (K, Ercd)
    requires Shape(k) && IsTask(k, t)
  {
    var st := k.tcb[t].stat;
    if k.run == Some(t) && !k.dsp then (k, E_CTX)
    else if st.Dormant? then (k, E_OBJ)
    else if k.tcb[t].raster then (k, E_RASTER)
    else if st.Runnable? then (Dispatch(MakeNonRunnable(SetStat(k, t, Suspended), t)), E_OK)
    else if SuspFlag(st) then (k, E_QOVR)
    else (SetStat(k, t, st.(susp := true)), E_OK)
  }

  function RsmTskStep(k: K, t: TaskId): (K, Ercd)
    requires Shape(k) && IsTask(k, t)
  {
    var st := k.tcb[t].stat;
    if !SuspFlag(st) then (k, E_OBJ)
    else if !st.Waiting? then (Dispatch(MakeRunnable(SetStat(k, t, Runnable), t)), E_OK)
    else (SetStat(k, t, st.(susp := false)), E_OK)
  }

  // ---------------------------------------------------------------- task_term.c

  /** set_dspflg, which may carry out a deferred window switch. */
  function SetDspflg(k: K, twd: UnitId, idle: UnitId): (r: K)
    requires Shape(k) && twd < k.cfg.units && idle < k.cfg.units
    ensures Shape(r)
  {
    k.(dsp := true, twd := twd, idle := idle)
  }

  function ExtTskStep(k: K, t: TaskId, twd: UnitId, idle: UnitId): (K, Ercd)
    requires Shape(k) && IsTask(k, t) && twd < k.cfg.units && idle < k.cfg.units
  {
    (Dispatch(TaskTerminate(if k.dsp then k else SetDspflg(k, twd, idle), t, 0)), NoReturn)
  }

  /** ena_dsp, and chg_ipm to an open mask: a termination request that had to wait for dispatching is
      carried out now. */
  function EnaDspStep(k: K, t: TaskId, twd: UnitId, idle: UnitId): (K, Ercd)
    requires Shape(k) && IsTask(k, t) && twd < k.cfg.units && idle < k.cfg.units
  {
    var k1 := SetDspflg(k, twd, idle);
    if k.tcb[t].raster && k.tcb[t].enater then (Dispatch(TaskTerminate(k1, t, 0)), NoReturn) else (Dispatch(k1), E_OK)
  }

  /** A termination request ends a wait or a suspension, or both. */
  function RasterRelease(k: K, t: TaskId, n: nat): (r: K)
    requires Shape(k) && IsTask(k, t)
    ensures Kept(k, r)
  {
    var k1 := if k.tcb[t].stat.Waiting?
              then SetWercd(DequeueTmevtb(WaitDequeueWobj(k, t, n), t), t, E_RASTER)
              else k;
    MakeRunnable(SetStat(k1, t, Runnable), t)
  }

  function RasTerStep(k: K, t: TaskId, n: nat): (K, Ercd)
    requires Shape(k) && IsTask(k, t)
  {
    if k.run == Some(t) then (k, E_ILUSE)
    else if k.tcb[t].stat.Dormant? then (k, E_OBJ)
    else if k.tcb[t].enater then (Dispatch(TaskTerminate(k, t, n)), E_OK)
    else
      var k1 := SetTcb(k, t, k.tcb[t].(raster := true));
      if k.tcb[t].stat.Runnable? then (k1, E_OK)
      else (Dispatch(RasterRelease(k1, t, n)), E_OK)
  }

  function EnaTerStep(k: K, t: TaskId): (K, Ercd)
    requires Shape(k) && IsTask(k, t)
  {
    if k.tcb[t].raster && k.dsp then (Dispatch(TaskTerminate(k, t, 0)), NoReturn)
    else (SetTcb(k, t, k.tcb[t].(enater := true)), E_OK)
  }

  function TerTskStep(k: K, t: TaskId, n: nat): (K, Ercd)
    requires Shape(k) && IsTask(k, t)
  {
    if k.run == Some(t) then (k, E_ILUSE)
    else if k.tcb[t].stat.Dormant? then (k, E_OBJ)
    else (Dispatch(TaskTerminate(k, t, n)), E_OK)
  }

  // ---------------------------------------------------------------- mutex.c

  /** loc_mtx and tloc_mtx. */
  function LocMtxStep(k: K, t: TaskId, m: WobjId, tmo: Tmo): (K, Ercd)
    requires Shape(k) && IsTask(k, t) && IsMutex(k.cfg, m)
  {
    if !k.dsp then (k, E_CTX)
    else if k.tcb[t].raster then (k, E_RASTER)
    else if Ceiling(k.cfg, m).Some? && k.tcb[t].bpri < Ceiling(k.cfg, m).value then (k, E_ILUSE)
    else if k.owner[m] == None then (MutexAcquire(k, t, m), E_OK)
    else if k.owner[m] == Some(t) then (k, E_OBJ)
    else if tmo.Poll? then (k, E_TMOUT)
    else (Dispatch(WobjMakeWait(k, t, m, tmo.Timed?)), Blocked)
  }

  function PlocMtxStep(k: K, t: TaskId, m: WobjId): (K, Ercd)
    requires Shape(k) && IsTask(k, t) && IsMutex(k.cfg, m)
  {
    if Ceiling(k.cfg, m).Some? && k.tcb[t].bpri < Ceiling(k.cfg, m).value then (k, E_ILUSE)
    else if k.owner[m] == None then (MutexAcquire(k, t, m), E_OK)
    else if k.owner[m] == Some(t) then (k, E_OBJ)
    else (k, E_TMOUT)
  }

  function UnlMtxStep(k: K, t: TaskId, m: WobjId): (K, Ercd)
    requires Shape(k) && IsTask(k, t) && IsMutex(k.cfg, m)
  {
    var ms := k.held[t];
    if ms == [] || ms[|ms| - 1] != m then (k, E_OBJ)
    else (Dispatch(MutexRelease(MutexDropPriority(PopHeld(k, t), t, m), m)), E_OK)
  }

  function IniMtxStep(k: K, m: WobjId): (K, Ercd)
    requires Shape(k) && IsMutex(k.cfg, m)
  {
    var k1 := InitWaitQueue(k, m);
    var o := k.owner[m];
    var k2 :=
      if o.Some? then
        RemoveMembersOf(k1.held[o.value], m);
        MutexDropPriority(SetHeld(SetOwner(k1, m, None), o.value, Remove(k1.held[o.value], m)), o.value, m)
      else k1;
    (Dispatch(k2), E_OK)
  }

  lemma RemoveMembersOf(ms: seq<WobjId>, m: WobjId)
    ensures forall x :: x in Remove(ms, m) ==> x in ms
  {
  }

  // ---------------------------------------------------------------- semaphores and other wait objects

  function SetSem(k: K, q: WobjId, n: nat): (r: K)
    requires Shape(k) && q < |k.semcnt|
    ensures Shape(r)
  {
    k.(semcnt := k.semcnt[q := n])
  }

  function WaiSemStep(k: K, t: TaskId, q: WobjId, tmo: Tmo): (K, Ercd)
    requires Shape(k) && IsTask(k, t) && IsSem(k.cfg, q)
  {
    if !k.dsp then (k, E_CTX)
    else if k.tcb[t].raster then (k, E_RASTER)
    else if k.semcnt[q] >= 1 then (SetSem(k, q, k.semcnt[q] - 1), E_OK)
    else if tmo.Poll? then (k, E_TMOUT)
    else (Dispatch(WobjMakeWait(k, t, q, tmo.Timed?)), Blocked)
  }

  function SigSemStep(k: K, q: WobjId): (K, Ercd)
    requires Shape(k) && IsSem(k.cfg, q)
  {
    if Q(k, WaitQ(q)) != [] then (Dispatch(WakeFirst(k, q, E_OK)), E_OK)
    else if k.semcnt[q] < k.cfg.wobj[q].kind.maxsem then (SetSem(k, q, k.semcnt[q] + 1), E_OK)
    else (k, E_QOVR)
  }

  function IniSemStep(k: K, q: WobjId): (K, Ercd)
    requires Shape(k) && IsSem(k.cfg, q)
  {
    (Dispatch(SetSem(InitWaitQueue(k, q), q, k.cfg.wobj[q].kind.isemcnt)), E_OK)
  }

  /** The blocking half of the message, data and flag calls and of get_mpf. */
  function ObjWaitStep(k: K, t: TaskId, q: WobjId, tmo: Tmo): (K, Ercd)
    requires Shape(k) && IsTask(k, t) && IsOther(k.cfg, q)
  {
    if !k.dsp then (k, E_CTX)
    else if k.tcb[t].raster then (k, E_RASTER)
    else if tmo.Poll? then (k, E_TMOUT)
    else (Dispatch(WobjMakeWait(k, t, q, tmo.Timed?)), Blocked)
  }

  /** The waking half: the waiter at index `i` is unlinked and its wait completed. */
  function ObjWakeStep(k: K, q: WobjId, i: nat): (K, Ercd)
    requires Shape(k) && IsOther(k.cfg, q)
  {
    var s := Q(k, WaitQ(q));
    if i < |s| then (Dispatch(WaitEnd(Unlink(k, WaitQ(q), s[i]), s[i], E_OK)), E_OK) else (k, E_OK)
  }

  // ---------------------------------------------------------------- timeouts

  /** wait_tmout and wait_tmout_ok, called after the block has been taken off the heap. */
  function Expire(k: K, t: TaskId, n: nat): (r: K)
    requires Shape(k) && IsTask(k, t)
    ensures Kept(k, r)
  {
    var k1 := SetTimed(k, k.timed - {t});
    if k.tcb[t].stat.Waiting? && k.tcb[t].stat.cause.Delayed? then MakeNonWait(SetWercd(k1, t, E_OK), t)
    else MakeNonWait(SetWercd(WaitDequeueWobj(k1, t, n), t, E_TMOUT), t)
  }

  // ---------------------------------------------------------------- one step

  /** Calls that act on tasks, against those that act on wait objects and on dispatching. */
  predicate IsTaskCall(c: Call) {
    c.ActTsk? || c.CanAct? || c.ChgPri? || c.SlpTsk? || c.WupTsk? || c.CanWup? || c.DlyTsk? || c.RelWai? || c.SusTsk?
    || c.RsmTsk? || c.ExtTsk? || c.RasTer? || c.DisTer? || c.EnaTer? || c.TerTsk? || c.RotRdq?
  }

  function TaskStep(k: K, c: Call): (K, Ercd)
    requires Shape(k) && Callable(k, c) && IsTaskCall(c)
  {
    var me := if k.run.Some? then k.run.value else 0;
    match c
    case ActTsk(t) => ActTskStep(k, t)
    case CanAct(t) => (SetTcb(k, t, k.tcb[t].(actque := false)), E_OK)
    case ChgPri(t, p) => ChgPriStep(k, t, p)
    case SlpTsk(tmo) => SlpTskStep(k, me, tmo)
    case WupTsk(t) => WupTskStep(k, t)
    case CanWup(t) => if k.tcb[t].stat.Dormant? then (k, E_OBJ) else (SetTcb(k, t, k.tcb[t].(wupque := false)), E_OK)
    case DlyTsk => DlyTskStep(k, me)
    case RelWai(t, n) => RelWaiStep(k, t, n)
    case SusTsk(t) => SusTskStep(k, t)
    case RsmTsk(t) => RsmTskStep(k, t)
    case ExtTsk(twd, idle) => ExtTskStep(k, me, twd, idle)
    case RasTer(t, n) => RasTerStep(k, t, n)
    case DisTer => (SetTcb(k, me, k.tcb[me].(enater := false)), E_OK)
    case EnaTer => EnaTerStep(k, me)
    case TerTsk(t, n) => TerTskStep(k, t, n)
    case RotRdq(p, u) => (Dispatch(RotateReadyQueue(k, p, u)), E_OK)
  }

  function ObjectStep(k: K, c: Call): (K, Ercd)
    requires Shape(k) && Callable(k, c) && !IsTaskCall(c)
  {
    var me := if k.run.Some? then k.run.value else 0;
    match c
    case LocMtx(m, tmo) => LocMtxStep(k, me, m, tmo)
    case PlocMtx(m) => PlocMtxStep(k, me, m)
    case UnlMtx(m) => UnlMtxStep(k, me, m)
    case IniMtx(m) => IniMtxStep(k, m)
    case WaiSem(q, tmo) => WaiSemStep(k, me, q, tmo)
    case SigSem(q) => SigSemStep(k, q)
    case IniSem(q) => IniSemStep(k, q)
    case ObjWait(q, tmo) => ObjWaitStep(k, me, q, tmo)
    case ObjWake(q, i) => ObjWakeStep(k, q, i)
    case ObjInit(q) => (Dispatch(InitWaitQueue(k, q)), E_OK)
    case Timeout(t, n) => (Dispatch(Expire(k, t, n)), E_OK)
    case DisDsp => (k.(dsp := false), E_OK)
    case EnaDsp(twd, idle) => EnaDspStep(k, me, twd, idle)
    case SwitchWindow(twd, idle) => (Dispatch(k.(twd := twd, idle := idle)), E_OK)
  }

  function Step(k: K, c: Call): (K, Ercd)
    requires Shape(k) && Callable(k, c)
  {
    if IsTaskCall(c) then TaskStep(k, c) else ObjectStep(k, c)
  }
}
