/**
 The abstract kernel: task control blocks, every task queue as a sequence, the mutexes each task
 holds, and the set of tasks whose timeout block is registered. Scheduler caches (priority bitmap,
 best task of a unit, chosen task) and link pointers are absent here; module KernelObject adds them and
 proves that they agree with what this module defines.
 */
module KernelState {
  import opened Base

  const TNUM_TPRI: nat := 16

  type TaskId = nat
  type WobjId = nat
  type UnitId = nat
  type Pri = nat

  /** The unit of the kernel domain. */
  const KERNEL_UNIT: UnitId := 0

  datatype Ercd =
    | E_OK | E_OBJ | E_CTX | E_ILUSE | E_QOVR | E_RASTER | E_TMOUT | E_RLWAI | E_DLT
    | Blocked      // the caller waits; its result is the wercd it finds when it resumes
    | NoReturn     // the calling task has ended

  /** Wait-object kinds that the generic wait operations distinguish. `Receiver` queues are the ones
      outside the common control block: always FIFO, never reordered. */
  datatype WobjKind = Semaphore(isemcnt: nat, maxsem: nat) | Mutex(ceiling: Option<Pri>) | MbfSender | OtherWobj | Receiver

  datatype Wobj = Wobj(kind: WobjKind, tpri: bool)

  datatype Cfg = Cfg(
    units: nat,               // scheduling units; unit 0 is the kernel's
    unitOf: seq<UnitId>,      // of each task
    ipri: seq<Pri>,           // initial priority of each task
    noactque: seq<bool>,      // TA_NOACTQUE of each task
    wobj: seq<Wobj>)          // one entry per wait queue

  datatype Cause = Sleeping | Delayed | OnQueue(q: WobjId)

  /** Task state: `susp` marks WAITING-SUSPENDED, `tmo` that a timeout block is registered. */
  datatype Stat = Dormant | Runnable | Suspended | Waiting(cause: Cause, susp: bool, tmo: bool)

  datatype Tcb = Tcb(
    stat: Stat, bpri: Pri, pri: Pri,
    actque: bool, wupque: bool, raster: bool, enater: bool, wercd: Ercd)

  /** Where a task can be queued. */
  datatype Home = Ready(u: UnitId, p: Pri) | WaitQ(q: WobjId)

  datatype K = K(
    cfg: Cfg,
    tcb: seq<Tcb>,
    queues: map<Home, seq<TaskId>>,
    held: seq<seq<WobjId>>,          // mutexes each task holds, most recently locked last
    owner: seq<Option<TaskId>>,
    timed: set<TaskId>,              // tasks whose timeout block is in their domain's event heap
    semcnt: seq<nat>,
    run: Option<TaskId>,
    dsp: bool,                       // dspflg
    twd: UnitId,                     // unit of the running time window
    idle: UnitId)                    // unit chosen when nothing else can run

  predicate CfgOk(c: Cfg) {
    && c.units > KERNEL_UNIT
    && |c.unitOf| == |c.ipri| == |c.noactque|
    && (forall t :: 0 <= t < |c.unitOf| ==> c.unitOf[t] < c.units)
    && (forall t :: 0 <= t < |c.ipri| ==> c.ipri[t] < TNUM_TPRI)
    && (forall q :: 0 <= q < |c.wobj| ==>
          && (c.wobj[q].kind.Receiver? ==> !c.wobj[q].tpri)
          && (c.wobj[q].kind.Semaphore? ==> c.wobj[q].kind.isemcnt <= c.wobj[q].kind.maxsem)
          && (c.wobj[q].kind.Mutex? && c.wobj[q].kind.ceiling.Some? ==> c.wobj[q].kind.ceiling.value < TNUM_TPRI))
  }

  predicate ValidHome(c: Cfg, h: Home) {
    match h
    case Ready(u, p) => u < c.units && p < TNUM_TPRI
    case WaitQ(q) => q < |c.wobj|
  }

  predicate ValidCause(c: Cfg, s: Stat) {
    s.Waiting? && s.cause.OnQueue? ==> s.cause.q < |c.wobj|
  }

  ghost predicate TcbShape(c: Cfg, r: Tcb) {
    r.pri < TNUM_TPRI && r.bpri < TNUM_TPRI && ValidCause(c, r.stat)
  }

  /** Every entry of the queue is a task. */
  ghost predicate Members(s: seq<TaskId>, n: nat) {
    forall i :: 0 <= i < |s| ==> s[i] < n
  }

  ghost predicate QueueShape(k: K) {
    && (forall h :: h in k.queues <==> ValidHome(k.cfg, h))
    && (forall h :: h in k.queues ==> Members(k.queues[h], |k.tcb|))
  }

  ghost predicate TaskShape(k: K) {
    && (forall t :: 0 <= t < |k.tcb| ==> TcbShape(k.cfg, k.tcb[t]))
    && (forall t, m :: 0 <= t < |k.held| && m in k.held[t] ==> IsMutex(k.cfg, m))
    && (forall m :: 0 <= m < |k.owner| && k.owner[m].Some? ==> k.owner[m].value < |k.tcb|)
  }

  /** Table sizes and ranges: what the configurator's tables guarantee. */
  ghost predicate Shape(k: K) {
    && CfgOk(k.cfg)
    && |k.tcb| == |k.cfg.unitOf| == |k.held|
    && |k.owner| == |k.cfg.wobj| == |k.semcnt|
    && k.twd < k.cfg.units && k.idle < k.cfg.units
    && QueueShape(k)
    && TaskShape(k)
    && (k.run.Some? ==> k.run.value < |k.tcb|)
  }

  /** `r` is well shaped and differs from `k` in task states, queues, mutexes and timeouts only. */
  ghost predicate Kept(k: K, r: K) {
    && Shape(r)
    && r.cfg == k.cfg && r.semcnt == k.semcnt && r.run == k.run
    && r.dsp == k.dsp && r.twd == k.twd && r.idle == k.idle
  }

  predicate IsMutex(c: Cfg, q: WobjId) { q < |c.wobj| && c.wobj[q].kind.Mutex? }

  predicate IsSem(c: Cfg, q: WobjId) { q < |c.wobj| && c.wobj[q].kind.Semaphore? }

  /** Wait objects that neither mutex nor semaphore calls serve. */
  predicate IsOther(c: Cfg, q: WobjId) { q < |c.wobj| && !c.wobj[q].kind.Mutex? && !c.wobj[q].kind.Semaphore? }

  function Ceiling(c: Cfg, m: WobjId): Option<Pri> {
    if IsMutex(c, m) then c.wobj[m].kind.ceiling else None
  }

  predicate IsTask(k: K, t: TaskId) { t < |k.tcb| }

  /** TSTAT_SUSPENDED: suspended, or waiting and suspended. */
  predicate SuspFlag(s: Stat) { s.Suspended? || (s.Waiting? && s.susp) }

  predicate WaitsOn(s: Stat, q: WobjId) { s.Waiting? && s.cause == OnQueue(q) }

  /** The queue a task must be linked to, as its state dictates. */
  function HomeOf(c: Cfg, u: UnitId, r: Tcb): Option<Home> {
    if r.stat.Runnable? then Some(Ready(u, r.pri))
    else if r.stat.Waiting? && r.stat.cause.OnQueue? then Some(WaitQ(r.stat.cause.q))
    else None
  }

  function TaskHome(k: K, t: TaskId): Option<Home>
    requires |k.tcb| == |k.cfg.unitOf| && IsTask(k, t)
  {
    HomeOf(k.cfg, k.cfg.unitOf[t], k.tcb[t])
  }

  function ReadyQ(k: K, t: TaskId, p: Pri): Home
    requires |k.tcb| == |k.cfg.unitOf| && IsTask(k, t)
  {
    Ready(k.cfg.unitOf[t], p)
  }

  // ---------------------------------------------------------------- choice of the task to run

  /** Head of the highest-priority non-empty ready queue at or below priority `p`. */
  function BestFrom(k: K, u: UnitId, p: nat): (r: Option<TaskId>)
    requires Shape(k) && u < k.cfg.units && p <= TNUM_TPRI
    decreases TNUM_TPRI - p
  {
    if p == TNUM_TPRI then None
    else if k.queues[Ready(u, p)] != [] then Some(k.queues[Ready(u, p)][0])
    else BestFrom(k, u, p + 1)
  }

  function Best(k: K, u: UnitId): Option<TaskId>
    requires Shape(k) && u < k.cfg.units
  {
    BestFrom(k, u, 0)
  }

  /** Which of the three units' best tasks runs, given the tasks' current priorities. */
  function Choose(tcb: seq<Tcb>, kernel: Option<TaskId>, twd: Option<TaskId>, idle: Option<TaskId>): Option<TaskId>
    requires kernel.Some? ==> kernel.value < |tcb|
    requires twd.Some? ==> twd.value < |tcb|
  {
    if kernel.Some? then
      if twd.Some? && tcb[twd.value].pri < tcb[kernel.value].pri then twd else kernel
    else if twd.Some? then twd
    else idle
  }

  lemma BestIsTask(k: K, u: UnitId, p: nat)
    requires Shape(k) && u < k.cfg.units && p <= TNUM_TPRI
    ensures BestFrom(k, u, p).Some? ==> IsTask(k, BestFrom(k, u, p).value)
    decreases TNUM_TPRI - p
  {
    if p < TNUM_TPRI {
      BestIsTask(k, u, p + 1);
      assert Members(k.queues[Ready(u, p)], |k.tcb|);
    }
  }

  /** The task that should run: the kernel unit's best unless the window's is strictly better. */
  function Choice(k: K): Option<TaskId>
    requires Shape(k)
  {
    BestIsTask(k, KERNEL_UNIT, 0);
    BestIsTask(k, k.twd, 0);
    Choose(k.tcb, Best(k, KERNEL_UNIT), Best(k, k.twd), Best(k, k.idle))
  }

  // ---------------------------------------------------------------- elementary updates

  function SetTcb(k: K, t: TaskId, r: Tcb): (k': K)
    requires Shape(k) && IsTask(k, t) && TcbShape(k.cfg, r)
    ensures Kept(k, k')
  {
    k.(tcb := k.tcb[t := r])
  }

  function SetStat(k: K, t: TaskId, s: Stat): (k': K)
    requires Shape(k) && IsTask(k, t) && ValidCause(k.cfg, s)
    ensures Kept(k, k')
  {
    SetTcb(k, t, k.tcb[t].(stat := s))
  }

  function SetWercd(k: K, t: TaskId, e: Ercd): (k': K)
    requires Shape(k) && IsTask(k, t)
    ensures Kept(k, k')
  {
    SetTcb(k, t, k.tcb[t].(wercd := e))
  }

  function SetPri(k: K, t: TaskId, p: Pri): (k': K)
    requires Shape(k) && IsTask(k, t) && p < TNUM_TPRI
    ensures Kept(k, k')
  {
    SetTcb(k, t, k.tcb[t].(pri := p))
  }

  function SetQ(k: K, h: Home, s: seq<TaskId>): (k': K)
    requires Shape(k) && ValidHome(k.cfg, h) && Members(s, |k.tcb|)
    ensures Kept(k, k')
  {
    k.(queues := k.queues[h := s])
  }

  function SetTimed(k: K, ts: set<TaskId>): (k': K)
    requires Shape(k)
    ensures Kept(k, k')
  {
    k.(timed := ts)
  }

  function SetHeld(k: K, t: TaskId, ms: seq<WobjId>): (k': K)
    requires Shape(k) && IsTask(k, t) && forall m :: m in ms ==> IsMutex(k.cfg, m)
    ensures Kept(k, k')
  {
    k.(held := k.held[t := ms])
  }

  function SetOwner(k: K, m: WobjId, o: Option<TaskId>): (k': K)
    requires Shape(k) && m < |k.owner| && (o.Some? ==> IsTask(k, o.value))
    ensures Kept(k, k')
  {
    k.(owner := k.owner[m := o])
  }

  /** The sequence held in queue `h`. */
  function Q(k: K, h: Home): (s: seq<TaskId>)
    requires Shape(k) && ValidHome(k.cfg, h)
    ensures Members(s, |k.tcb|)
  {
    k.queues[h]
  }

  lemma RemoveKeepsMembers(s: seq<TaskId>, t: TaskId, n: nat)
    requires Members(s, n)
    ensures Members(Remove(s, t), n)
  {
    var r := Remove(s, t);
    forall i | 0 <= i < |r| ensures r[i] < n {
      assert r[i] in s;
    }
  }

  /** queue_delete. */
  function Unlink(k: K, h: Home, t: TaskId): (k': K)
    requires Shape(k) && ValidHome(k.cfg, h)
    ensures Kept(k, k')
  {
    RemoveKeepsMembers(Q(k, h), t, |k.tcb|);
    SetQ(k, h, Remove(Q(k, h), t))
  }

  /** Where a task of priority `p` goes in a priority-ordered queue: behind its equals. */
  function TpriPos(tcb: seq<Tcb>, s: seq<TaskId>, p: Pri): (i: nat)
    requires Members(s, |tcb|)
    ensures i <= |s|
    ensures forall j :: 0 <= j < i ==> tcb[s[j]].pri <= p
    ensures i < |s| ==> p < tcb[s[i]].pri
  {
    if s == [] || p < tcb[s[0]].pri then 0 else 1 + TpriPos(tcb, s[1..], p)
  }

  /** Index at which a task entering wait queue `q` is linked. */
  function EntryPos(k: K, q: WobjId, p: Pri): (i: nat)
    requires Shape(k) && q < |k.cfg.wobj|
    ensures i <= |Q(k, WaitQ(q))|
  {
    if k.cfg.wobj[q].tpri then TpriPos(k.tcb, Q(k, WaitQ(q)), p) else |Q(k, WaitQ(q))|
  }

  // ---------------------------------------------------------------- task.c

  function MakeRunnable(k: K, t: TaskId): (r: K)
    requires Shape(k) && IsTask(k, t)
    ensures Kept(k, r)
  {
    var h := ReadyQ(k, t, k.tcb[t].pri);
    SetQ(k, h, Q(k, h) + [t])
  }

  function MakeNonRunnable(k: K, t: TaskId): (r: K)
    requires Shape(k) && IsTask(k, t)
    ensures Kept(k, r)
  {
    Unlink(k, ReadyQ(k, t, k.tcb[t].pri), t)
  }

  function DormantTcb(c: Cfg, t: TaskId, r: Tcb): Tcb
    requires t < |c.ipri|
  {
    r.(stat := Dormant, bpri := c.ipri[t], pri := c.ipri[t], wupque := false, raster := false, enater := true)
  }

  function MakeDormant(k: K, t: TaskId): (r: K)
    requires Shape(k) && IsTask(k, t)
    ensures Kept(k, r)
  {
    SetTcb(k, t, DormantTcb(k.cfg, t, k.tcb[t]))
  }

  function MakeActive(k: K, t: TaskId): (r: K)
    requires Shape(k) && IsTask(k, t)
    ensures Kept(k, r)
  {
    MakeRunnable(SetStat(k, t, Runnable), t)
  }

  /** Repositions a runnable task, or a task waiting in a priority-ordered queue. */
  function ChangePriority(k: K, t: TaskId, newpri: Pri, mtxmode: bool): (r: K)
    requires Shape(k) && IsTask(k, t) && newpri < TNUM_TPRI
    ensures Kept(k, r)
  {
    var oldpri := k.tcb[t].pri;
    var k1 := SetPri(k, t, newpri);
    if k.tcb[t].stat.Runnable? then
      var k2 := Unlink(k1, ReadyQ(k, t, oldpri), t);
      var h := ReadyQ(k, t, newpri);
      SetQ(k2, h, if mtxmode then [t] + Q(k2, h) else Q(k2, h) + [t])
    else if k.tcb[t].stat.Waiting? && k.tcb[t].stat.cause.OnQueue? && k.cfg.wobj[k.tcb[t].stat.cause.q].tpri then
      Reinsert(k1, k.tcb[t].stat.cause.q, t, newpri)
    else k1
  }

  /** wobj_change_priority: out of the wait queue and in again at the place of the priority. */
  function Reinsert(k: K, q: WobjId, t: TaskId, pri: Pri): (r: K)
    requires Shape(k) && IsTask(k, t) && q < |k.cfg.wobj| && pri < TNUM_TPRI
    ensures Kept(k, r)
  {
    var k2 := Unlink(k, WaitQ(q), t);
    SetQ(k2, WaitQ(q), InsertAt(Q(k2, WaitQ(q)), EntryPos(k2, q, pri), t))
  }

  function RotateReadyQueue(k: K, p: Pri, u: UnitId): (r: K)
    requires Shape(k) && p < TNUM_TPRI && u < k.cfg.units
    ensures Kept(k, r)
  {
    var s := Q(k, Ready(u, p));
    if |s| > 1 then SetQ(k, Ready(u, p), s[1..] + [s[0]]) else k
  }

  // ---------------------------------------------------------------- wait.c, wait.h

  /** wait_dequeue_tmevtb. */
  function DequeueTmevtb(k: K, t: TaskId): (r: K)
    requires Shape(k) && IsTask(k, t)
    ensures Kept(k, r)
  {
    if k.tcb[t].stat.Waiting? && k.tcb[t].stat.tmo then SetTimed(k, k.timed - {t}) else k
  }

  function MakeNonWait(k: K, t: TaskId): (r: K)
    requires Shape(k) && IsTask(k, t)
    ensures Kept(k, r)
  {
    if !SuspFlag(k.tcb[t].stat) then MakeRunnable(SetStat(k, t, Runnable), t)
    else SetStat(k, t, Suspended)
  }

  /** Ends a wait with result `e`; the task is already out of its wait queue. */
  function WaitEnd(k: K, t: TaskId, e: Ercd): (r: K)
    requires Shape(k) && IsTask(k, t)
    ensures Kept(k, r)
    ensures forall q :: 0 <= q < |k.cfg.wobj| ==> Q(r, WaitQ(q)) == Q(k, WaitQ(q))
  {
    MakeNonWait(SetWercd(DequeueTmevtb(k, t), t, e), t)
  }

  /** queue_delete_next followed by ending the removed task's wait. */
  function WakeFirst(k: K, q: WobjId, e: Ercd): (r: K)
    requires Shape(k) && q < |k.cfg.wobj| && Q(k, WaitQ(q)) != []
    ensures Kept(k, r) && Q(r, WaitQ(q)) == Q(k, WaitQ(q))[1..]
  {
    var t := Q(k, WaitQ(q))[0];
    WaitEnd(SetQ(k, WaitQ(q), Q(k, WaitQ(q))[1..]), t, e)
  }

  /** messagebuf_signal, seen from the task side: the messages of the first `n` waiting senders fit. */
  function MbfSignal(k: K, q: WobjId, n: nat): (r: K)
    requires Shape(k) && q < |k.cfg.wobj|
    ensures Kept(k, r)
    decreases n
  {
    if n == 0 || Q(k, WaitQ(q)) == [] then k
    else MbfSignal(WakeFirst(k, q, E_OK), q, n - 1)
  }

  function WaitDequeueWobj(k: K, t: TaskId, n: nat): (r: K)
    requires Shape(k) && IsTask(k, t)
    ensures Kept(k, r)
  {
    if k.tcb[t].stat.Waiting? && k.tcb[t].stat.cause.OnQueue? then
      var q := k.tcb[t].stat.cause.q;
      var k1 := Unlink(k, WaitQ(q), t);
      if k.cfg.wobj[q].kind.MbfSender? then MbfSignal(k1, q, n) else k1
    else k
  }

  /** make_wait and make_wait_tmout for the running task. */
  function MakeWait(k: K, t: TaskId, c: Cause, tmo: bool): (r: K)
    requires Shape(k) && IsTask(k, t) && ValidCause(k.cfg, Waiting(c, false, tmo))
    ensures Kept(k, r)
  {
    var k1 := MakeNonRunnable(SetStat(k, t, Waiting(c, false, tmo)), t);
    if tmo then SetTimed(k1, k1.timed + {t}) else k1
  }

  /** wobj_make_wait and wobj_make_wait_tmout; receive queues are joined at the tail the same way. */
  function WobjMakeWait(k: K, t: TaskId, q: WobjId, tmo: bool): (r: K)
    requires Shape(k) && IsTask(k, t) && q < |k.cfg.wobj|
    ensures Kept(k, r)
  {
    var k1 := MakeWait(k, t, OnQueue(q), tmo);
    SetQ(k1, WaitQ(q), InsertAt(Q(k1, WaitQ(q)), EntryPos(k1, q, k1.tcb[t].pri), t))
  }

  function InitWaitQueue(k: K, q: WobjId): (r: K)
    requires Shape(k) && q < |k.cfg.wobj|
    ensures Kept(k, r) && Q(r, WaitQ(q)) == []
    decreases |Q(k, WaitQ(q))|
  {
    if Q(k, WaitQ(q)) == [] then k else InitWaitQueue(WakeFirst(k, q, E_DLT), q)
  }

  // ---------------------------------------------------------------- mutex.c

  /** The smallest of `p` and the ceilings of the mutexes in `ms`: mutex_calc_priority. */
  function MinCeiling(c: Cfg, p: Pri, ms: seq<WobjId>): (r: Pri)
    ensures r <= p
    ensures forall m :: m in ms && Ceiling(c, m).Some? ==> r <= Ceiling(c, m).value
    ensures r == p || exists m :: m in ms && Ceiling(c, m).Some? && Ceiling(c, m).value == r
  {
    if ms == [] then p
    else
      var rest := MinCeiling(c, p, ms[1..]);
      if Ceiling(c, ms[0]).Some? && Ceiling(c, ms[0]).value < rest then Ceiling(c, ms[0]).value else rest
  }

  function MutexAcquire(k: K, t: TaskId, m: WobjId): (r: K)
    requires Shape(k) && IsTask(k, t) && IsMutex(k.cfg, m)
    ensures Kept(k, r)
  {
    var k1 := SetHeld(SetOwner(k, m, Some(t)), t, k.held[t] + [m]);
    var c := Ceiling(k.cfg, m);
    if c.Some? && c.value < k.tcb[t].pri then ChangePriority(k1, t, c.value, true) else k1
  }

  /** mutex_drop_priority: recomputes only when the released ceiling equals the current priority. */
  function MutexDropPriority(k: K, t: TaskId, m: WobjId): (r: K)
    requires Shape(k) && IsTask(k, t) && IsMutex(k.cfg, m)
    ensures Kept(k, r)
  {
    var newpri := MinCeiling(k.cfg, k.tcb[t].bpri, k.held[t]);
    if Ceiling(k.cfg, m) == Some(k.tcb[t].pri) && newpri != k.tcb[t].pri then ChangePriority(k, t, newpri, true)
    else k
  }

  /** Ownership of `m` passes to `t`, which has left the wait queue; its priority is raised in place. */
  function MutexHandOver(k: K, m: WobjId, t: TaskId): (r: K)
    requires Shape(k) && IsMutex(k.cfg, m) && IsTask(k, t)
    ensures Kept(k, r)
  {
    var k1 := SetHeld(SetOwner(k, m, Some(t)), t, k.held[t] + [m]);
    var c := Ceiling(k.cfg, m);
    if c.Some? && c.value < k.tcb[t].pri then SetPri(k1, t, c.value) else k1
  }

  function MutexRelease(k: K, m: WobjId): (r: K)
    requires Shape(k) && IsMutex(k.cfg, m)
    ensures Kept(k, r)
  {
    var s := Q(k, WaitQ(m));
    if s == [] then SetOwner(k, m, None)
    else
      var t := s[0];
      var k1 := SetWercd(DequeueTmevtb(SetQ(k, WaitQ(m), s[1..]), t), t, E_OK);
      MakeNonWait(MutexHandOver(k1, m, t), t)
  }

  /** The mutex most recently locked by `t` leaves its chain. */
  function PopHeld(k: K, t: TaskId): (r: K)
    requires Shape(k) && IsTask(k, t) && k.held[t] != []
    ensures Kept(k, r)
  {
    SetHeld(k, t, k.held[t][..|k.held[t]| - 1])
  }

  /** mutex_release_all, unrolled at most `n` times: `t` itself is in no wait queue. */
  function MutexReleaseAll(k: K, t: TaskId, n: nat): (r: K)
    requires Shape(k) && IsTask(k, t)
    ensures Kept(k, r)
    decreases n
  {
    if n == 0 || k.held[t] == [] then k
    else MutexReleaseAll(MutexRelease(PopHeld(k, t), k.held[t][|k.held[t]| - 1]), t, n - 1)
  }

  function TaskTerminate(k: K, t: TaskId, n: nat): (r: K)
    requires Shape(k) && IsTask(k, t)
    ensures Kept(k, r)
  {
    var k1 :=
      if k.tcb[t].stat.Runnable? then MakeNonRunnable(k, t)
      else if k.tcb[t].stat.Waiting? then DequeueTmevtb(WaitDequeueWobj(k, t, n), t)
      else k;
    var k2 := MutexReleaseAll(k1, t, |k1.held[t]|);
    var k3 := MakeDormant(k2, t);
    if k3.tcb[t].actque then MakeActive(SetTcb(k3, t, k3.tcb[t].(actque := false)), t) else k3
  }
}
