/**
 Timeouts of the kernel and the time event heap together: the block of a task is registered exactly while
 the task waits with a timeout, so that the callback of a timeout finds its task waiting.
 */
module KernelTimeouts {
  import opened Base
  import opened KernelState
  import opened KernelCalls
  import opened KernelRuns
  import opened KernelTheorems
  import opened KernelObject
  import opened EventTime
  import opened EventHeap
  import opened SystemClock
  import opened TimeEvents

  // ---------------------------------------------------------------- which calls start a timeout

  lemma FewerEnded(k: K, t: TaskId, e: Ercd)
    requires Shape(k) && IsTask(k, t)
    ensures MakeNonWait(k, t).timed == k.timed && DequeueTmevtb(k, t).timed <= k.timed && WaitEnd(k, t, e).timed <= k.timed
  {
    hide QueueShape, TaskShape, CfgOk;
  }

  lemma FewerWoken(k: K, q: WobjId, e: Ercd)
    requires Shape(k) && q < |k.cfg.wobj| && Q(k, WaitQ(q)) != []
    ensures WakeFirst(k, q, e).timed <= k.timed && Shape(WakeFirst(k, q, e)) && WakeFirst(k, q, e).cfg == k.cfg
    ensures Q(WakeFirst(k, q, e), WaitQ(q)) == Q(k, WaitQ(q))[1..]
  {
    hide WaitEnd, TaskShape, CfgOk;
    FewerEnded(SetQ(k, WaitQ(q), Q(k, WaitQ(q))[1..]), Q(k, WaitQ(q))[0], e);
    StillShaped(k, q, e);
  }

  lemma StillShaped(k: K, q: WobjId, e: Ercd)
    requires Shape(k) && q < |k.cfg.wobj| && Q(k, WaitQ(q)) != []
    ensures Shape(WakeFirst(k, q, e)) && WakeFirst(k, q, e).cfg == k.cfg
    ensures Q(WakeFirst(k, q, e), WaitQ(q)) == Q(k, WaitQ(q))[1..]
  {
  }

  lemma {:induction false} FewerSignalled(k: K, q: WobjId, n: nat)
    requires Shape(k) && q < |k.cfg.wobj|
    ensures MbfSignal(k, q, n).timed <= k.timed
    decreases n
  {
    hide WakeFirst, Shape, Q;
    if n > 0 && Q(k, WaitQ(q)) != [] {
      FewerWoken(k, q, E_OK);
      FewerSignalled(WakeFirst(k, q, E_OK), q, n - 1);
    }
  }

  lemma {:induction false} FewerReleased(k: K, q: WobjId)
    requires Shape(k) && q < |k.cfg.wobj|
    ensures InitWaitQueue(k, q).timed <= k.timed
    decreases |Q(k, WaitQ(q))|
  {
    hide WakeFirst, Shape, Q;
    if Q(k, WaitQ(q)) != [] {
      FewerWoken(k, q, E_DLT);
      FewerReleased(WakeFirst(k, q, E_DLT), q);
    }
  }

  lemma FewerDequeued(k: K, t: TaskId, n: nat)
    requires Shape(k) && IsTask(k, t)
    ensures WaitDequeueWobj(k, t, n).timed <= k.timed
  {
    hide MbfSignal, QueueShape, CfgOk;
    if k.tcb[t].stat.Waiting? && k.tcb[t].stat.cause.OnQueue? {
      FewerSignalled(Unlink(k, WaitQ(k.tcb[t].stat.cause.q), t), k.tcb[t].stat.cause.q, n);
    }
  }

  lemma SameForPriority(k: K, t: TaskId, p: Pri, mtxmode: bool)
    requires Shape(k) && IsTask(k, t) && p < TNUM_TPRI
    ensures ChangePriority(k, t, p, mtxmode).timed == k.timed
  {
    hide QueueShape, TaskShape, CfgOk;
  }

  lemma SameForMutex(k: K, t: TaskId, m: WobjId)
    requires Shape(k) && IsTask(k, t) && IsMutex(k.cfg, m)
    ensures MutexAcquire(k, t, m).timed == MutexDropPriority(k, t, m).timed == MutexHandOver(k, m, t).timed == k.timed
  {
    hide ChangePriority, QueueShape;
    var c, newpri := Ceiling(k.cfg, m), MinCeiling(k.cfg, k.tcb[t].bpri, k.held[t]);
    if c.Some? && c.value < k.tcb[t].pri {
      SameForPriority(SetHeld(SetOwner(k, m, Some(t)), t, k.held[t] + [m]), t, c.value, true);
    }
    SameForPriority(k, t, newpri, true);
  }

  lemma FewerHandedOver(k: K, m: WobjId)
    requires Shape(k) && IsMutex(k.cfg, m)
    ensures MutexRelease(k, m).timed <= k.timed
  {
    hide MutexHandOver, MakeNonWait, TaskShape, CfgOk;
    var s := Q(k, WaitQ(m));
    if s != [] {
      var k1 := SetWercd(DequeueTmevtb(SetQ(k, WaitQ(m), s[1..]), s[0]), s[0], E_OK);
      SameForMutex(k1, s[0], m);
      FewerEnded(MutexHandOver(k1, m, s[0]), s[0], E_OK);
    }
  }

  lemma {:induction false} FewerAfterAll(k: K, t: TaskId, n: nat)
    requires Shape(k) && IsTask(k, t)
    ensures MutexReleaseAll(k, t, n).timed <= k.timed
    decreases n
  {
    hide MutexRelease, QueueShape, CfgOk;
    if n > 0 && k.held[t] != [] {
      var k1, m := PopHeld(k, t), k.held[t][|k.held[t]| - 1];
      FewerHandedOver(k1, m);
      ReleaseShaped(k1, m);
      FewerAfterAll(MutexRelease(k1, m), t, n - 1);
    }
  }

  lemma ReleaseShaped(k: K, m: WobjId)
    requires Shape(k) && IsMutex(k.cfg, m)
    ensures Shape(MutexRelease(k, m)) && |MutexRelease(k, m).tcb| == |k.tcb|
  {
  }

  lemma FewerTerminated(k: K, t: TaskId, n: nat)
    requires Shape(k) && IsTask(k, t)
    ensures TaskTerminate(k, t, n).timed <= k.timed
  {
    hide WaitDequeueWobj, MutexReleaseAll, QueueShape, TaskShape, CfgOk;
    var k1 :=
      if k.tcb[t].stat.Runnable? then MakeNonRunnable(k, t)
      else if k.tcb[t].stat.Waiting? then DequeueTmevtb(WaitDequeueWobj(k, t, n), t)
      else k;
    FewerDequeued(k, t, n);
    FewerAfterAll(k1, t, |k1.held[t]|);
  }

  lemma FewerForced(k: K, t: TaskId, n: nat, e: Ercd)
    requires Shape(k) && IsTask(k, t)
    ensures WaitEnd(WaitDequeueWobj(k, t, n), t, e).timed <= k.timed && RasterRelease(k, t, n).timed <= k.timed
    ensures Expire(k, t, n).timed <= k.timed - {t}
  {
    hide WaitDequeueWobj, WaitEnd, QueueShape, TaskShape, CfgOk;
    FewerDequeued(k, t, n);
    FewerEnded(WaitDequeueWobj(k, t, n), t, e);
    FewerDequeued(SetTimed(k, k.timed - {t}), t, n);
  }

  /** Calls that may let the running task wait. */
  predicate Blocks(c: Call) { c.SlpTsk? || c.DlyTsk? || c.LocMtx? || c.WaiSem? || c.ObjWait? }

  /** Calls that may end waits of other tasks, or change priorities. */
  predicate Ends(c: Call) { c.ChgPri? || c.WupTsk? || c.RelWai? || c.ExtTsk? || c.RasTer? || c.EnaTer? || c.TerTsk? }

  lemma ChgPriTimed(k: K, t: TaskId, p: Option<Pri>)
    requires Shape(k) && IsTask(k, t) && (p.Some? ==> p.value < TNUM_TPRI)
    ensures ChgPriStep(k, t, p).0.timed == k.timed
  {
    hide ChangePriority, CheckCeilpri, ScanCeilmtx, QueueShape;
    var b := if p.Some? then p.value else k.cfg.ipri[t];
    SameForPriority(SetTcb(k, t, k.tcb[t].(bpri := b)), t, b, false);
  }

  lemma RasTerTimed(k: K, t: TaskId, n: nat)
    requires Shape(k) && IsTask(k, t)
    ensures RasTerStep(k, t, n).0.timed <= k.timed
  {
    hide TaskTerminate, RasterRelease, QueueShape, CfgOk;
    FewerTerminated(k, t, n);
    FewerForced(SetTcb(k, t, k.tcb[t].(raster := true)), t, n, E_OK);
  }

  lemma EndingCallTimed(k: K, c: Call)
    requires Shape(k) && Callable(k, c) && IsTaskCall(c) && Ends(c)
    ensures TaskStep(k, c).0.timed <= k.timed
  {
    hide WaitDequeueWobj, TaskTerminate, WaitEnd, ChgPriStep, RasTerStep, QueueShape, TaskShape, CfgOk;
    var me := if k.run.Some? then k.run.value else 0;
    match c
    case ChgPri(t, p) => ChgPriTimed(k, t, p);
    case WupTsk(t) => FewerEnded(k, t, E_OK);
    case RelWai(t, n) => FewerForced(k, t, n, E_RLWAI);
    case ExtTsk(twd, idle) => ExtTskTimed(k, me, twd, idle);
    case RasTer(t, n) => RasTerTimed(k, t, n);
    case EnaTer => FewerTerminated(k, me, 0);
    case TerTsk(t, n) => FewerTerminated(k, t, n);
  }

  lemma ExtTskTimed(k: K, t: TaskId, twd: UnitId, idle: UnitId)
    requires Shape(k) && IsTask(k, t) && twd < k.cfg.units && idle < k.cfg.units
    ensures ExtTskStep(k, t, twd, idle).0.timed <= k.timed && EnaDspStep(k, t, twd, idle).0.timed <= k.timed
  {
    hide TaskTerminate;
    FewerTerminated(k, t, 0);
    FewerTerminated(SetDspflg(k, twd, idle), t, 0);
  }

  lemma OtherCallTimed(k: K, c: Call)
    requires Shape(k) && Callable(k, c) && IsTaskCall(c) && !Ends(c)
    ensures TaskStep(k, c).0.timed <= k.timed + (if Blocks(c) then {k.run.value} else {})
  {
    hide QueueShape, TaskShape, CfgOk;
  }

  lemma ObjectCallTimed(k: K, c: Call)
    requires Shape(k) && Callable(k, c) && !IsTaskCall(c)
    ensures ObjectStep(k, c).0.timed <= k.timed + (if Blocks(c) then {k.run.value} else {})
    ensures c.Timeout? ==> ObjectStep(k, c).0.timed <= k.timed - {c.t}
  {
    hide WakeFirst, TaskTerminate, WaitEnd, Expire, InitWaitQueue, MutexAcquire, MutexDropPriority, MutexRelease,
      QueueShape, TaskShape, CfgOk, MakeRunnable, IniMtxStep, EnaDspStep, Q, UnlMtxStep, ObjWakeStep;
    var me := if k.run.Some? then k.run.value else 0;
    match c
    case LocMtx(m, tmo) => SameForMutex(k, me, m);
    case PlocMtx(m) => SameForMutex(k, me, m);
    case UnlMtx(m) => FewerUnlocked(k, me, m);
    case IniMtx(m) => FewerReset(k, m);
    case SigSem(q) =>
      if Q(k, WaitQ(q)) != [] { FewerWoken(k, q, E_OK); }
    case IniSem(q) => FewerReleased(k, q);
    case ObjWake(q, i) => FewerServed(k, q, i);
    case ObjInit(q) => FewerReleased(k, q);
    case Timeout(t, n) => FewerForced(k, t, n, E_OK);
    case EnaDsp(twd, idle) => ExtTskTimed(k, me, twd, idle);
    case _ =>
  }

  lemma FewerUnlocked(k: K, t: TaskId, m: WobjId)
    requires Shape(k) && IsTask(k, t) && IsMutex(k.cfg, m)
    ensures UnlMtxStep(k, t, m).0.timed <= k.timed
  {
    hide MutexDropPriority, MutexRelease, QueueShape, CfgOk;
    if k.held[t] != [] {
      SameForMutex(PopHeld(k, t), t, m);
      FewerHandedOver(MutexDropPriority(PopHeld(k, t), t, m), m);
    }
  }

  lemma FewerServed(k: K, q: WobjId, i: nat)
    requires Shape(k) && IsOther(k.cfg, q)
    ensures ObjWakeStep(k, q, i).0.timed <= k.timed
  {
    hide WaitEnd, TaskShape, CfgOk;
    var s := Q(k, WaitQ(q));
    if i < |s| { FewerEnded(Unlink(k, WaitQ(q), s[i]), s[i], E_OK); }
  }

  lemma FewerReset(k: K, m: WobjId)
    requires Shape(k) && IsMutex(k.cfg, m)
    ensures IniMtxStep(k, m).0.timed <= k.timed
  {
    hide MutexDropPriority, InitWaitQueue, QueueShape;
    var k1, o := InitWaitQueue(k, m), k.owner[m];
    FewerReleased(k, m);
    if o.Some? {
      RemoveMembersOf(k1.held[o.value], m);
      SameForMutex(SetHeld(SetOwner(k1, m, None), o.value, Remove(k1.held[o.value], m)), o.value, m);
    }
  }

  /** Only a blocking call starts a timeout, and only its caller's; the callback of a timeout finds the
      timeout ended. */
  lemma TimedByCaller(k: K, c: Call)
    requires Shape(k) && Callable(k, c)
    ensures Step(k, c).0.timed <= k.timed + (if Blocks(c) then {k.run.value} else {})
    ensures c.Timeout? ==> Step(k, c).0.timed <= k.timed - {c.t}
  {
    hide TaskStep, ObjectStep, Shape;
    if !IsTaskCall(c) {
      ObjectCallTimed(k, c);
    } else if Ends(c) {
      EndingCallTimed(k, c);
    } else {
      OtherCallTimed(k, c);
    }
  }

  // ---------------------------------------------------------------- the kernel with its timer

  class TimedKernel {
    const kernel: Kernel
    const timer: TimerModule
    const blocks: seq<TimeEventBlock>      // the tmevtb of each task's wait

    ghost predicate Valid()
      reads this, kernel, timer, timer.time, timer.heap, timer.heap.slots, timer.all
    {
      kernel.Valid() && Settled(kernel.Abs()) && Placed() && timer.Valid() && Tied()
    }

    /** Each task has its own block. */
    ghost predicate Placed()
      reads kernel
    {
      && |blocks| == |kernel.tcb|
      && (forall t {:trigger blocks[t]} :: 0 <= t < |blocks| ==> blocks[t] in timer.all)
      && forall t, u {:trigger blocks[t], blocks[u]} :: 0 <= t < u < |blocks| ==> blocks[t] != blocks[u]
    }

    /** A task's block is registered exactly while the task waits with a timeout. */
    ghost predicate Tied()
      reads kernel, timer, timer.heap
    {
      forall t {:trigger blocks[t]} :: 0 <= t < |blocks| ==> (blocks[t] in timer.heap.blocks <==> t in kernel.timed)
    }

    /** At the start no task waits. */
    constructor (kernel: Kernel, timer: TimerModule, blocks: seq<TimeEventBlock>)
      requires kernel.Valid() && Settled(kernel.Abs()) && kernel.timed == {} && timer.Valid() && |blocks| == |kernel.tcb|
      requires forall t :: 0 <= t < |blocks| ==> blocks[t] in timer.all && blocks[t] !in timer.heap.blocks
      requires forall t, u :: 0 <= t < u < |blocks| ==> blocks[t] != blocks[u]
      ensures Valid() && this.kernel == kernel && this.timer == timer && this.blocks == blocks
    {
      hide Settled;
      this.kernel, this.timer, this.blocks := kernel, timer, blocks;
    }

    /** The heap follows the kernel: a wait that has ended withdraws its timeout, one that has begun
        registers it. The CPU is locked all the while; the counter is read anew each time. */
    method Follow(reltim: nat)
      requires Placed() && timer.Valid() && reltim <= TMAX_RELTIM
      modifies timer`hrtEvent, timer`armedAt, timer.time, timer.heap`last, timer.heap`blocks, timer.heap.slots, timer.all
      ensures Placed() && timer.Valid() && Tied() && old(timer.time.clock.now) <= timer.time.clock.now
      ensures forall x :: x in old(timer.heap.blocks) && x !in blocks ==> x in timer.heap.blocks
      ensures forall x :: x in old(timer.heap.blocks) && x in timer.heap.blocks ==> x.due == old(x.due)
      ensures forall t {:trigger blocks[t]} :: 0 <= t < |blocks| && t in kernel.timed && blocks[t] !in old(timer.heap.blocks) ==>
        old(timer.time.clock.now) + timer.tstep + reltim <= blocks[t].due <= timer.time.clock.now + timer.tstep + reltim
    {
      hide TimerModule.Valid, Kernel.Valid;
      var i := 0;
      while i < |blocks|
        invariant i <= |blocks| && Placed() && timer.Valid() && old(timer.time.clock.now) <= timer.time.clock.now
        invariant forall t {:trigger blocks[t]} :: 0 <= t < i ==> (blocks[t] in timer.heap.blocks <==> t in kernel.timed)
        invariant forall t {:trigger blocks[t]} :: i <= t < |blocks| ==> (blocks[t] in timer.heap.blocks <==> blocks[t] in old(timer.heap.blocks))
        invariant forall x :: x in old(timer.heap.blocks) && x !in blocks ==> x in timer.heap.blocks
        invariant forall x :: x in old(timer.heap.blocks) && x in timer.heap.blocks ==> x.due == old(x.due)
        invariant forall t {:trigger blocks[t]} :: 0 <= t < i && t in kernel.timed && blocks[t] !in old(timer.heap.blocks) ==>
          old(timer.time.clock.now) + timer.tstep + reltim <= blocks[t].due <= timer.time.clock.now + timer.tstep + reltim
      {
        FollowOne(i, reltim);
        i := i + 1;
      }
    }

    method FollowOne(t: TaskId, reltim: nat)
      requires Placed() && timer.Valid() && t < |blocks| && reltim <= TMAX_RELTIM
      modifies timer`hrtEvent, timer`armedAt, timer.time, timer.heap`last, timer.heap`blocks, timer.heap.slots, timer.all`node, blocks[t]
      ensures timer.Valid() && old(timer.time.clock.now) <= timer.time.clock.now
      ensures timer.heap.blocks == if t in kernel.timed then old(timer.heap.blocks) + {blocks[t]} else old(timer.heap.blocks) - {blocks[t]}
      ensures blocks[t] in old(timer.heap.blocks) ==> blocks[t].due == old(blocks[t].due)
      ensures t in kernel.timed && blocks[t] !in old(timer.heap.blocks) ==> blocks[t].due == timer.time.clock.now + timer.tstep + reltim
    {
      hide Wrap, SystemClock.Valid, TimeEventHeap.Ordered, TimeEventHeap.Shaped, Placed;
      BlockKnown(t);
      var registered := timer.IsRegistered(blocks[t]);
      if registered && t !in kernel.timed {
        var hrtcnt, elapsed := timer.ReadCounter();
        timer.Dequeue(blocks[t], hrtcnt, elapsed);
      } else if !registered && t in kernel.timed {
        var hrtcnt, elapsed := timer.ReadCounter();
        timer.EnqueueReltim(blocks[t], reltim, hrtcnt, elapsed);
      }
    }

    lemma BlockKnown(t: TaskId)
      requires Placed() && t < |blocks|
      ensures blocks[t] in timer.all
    {
    }

    /** The number of tasks never changes. */
    lemma Sized()
      requires Settled(kernel.Abs())
      ensures |kernel.tcb| == |kernel.cfg.unitOf|
    {
    }

    lemma Bounded()
      requires Settled(kernel.Abs())
      ensures forall t :: t in kernel.timed ==> t < |kernel.tcb|
    {
    }

    lemma SoundIs()
      ensures timer.Valid() ==> timer.Sound()
      ensures timer.Sound() && timer.inSignalTime ==> timer.Valid()
    {
    }

    /** A service call, with the time to wait if it is a blocking one with a timeout. The timeouts of
        other tasks stay as they are, or end; the caller's never comes early. */
    method Perform(c: Call, reltim: nat) returns (ercd: Ercd)
      requires Valid() && Callable(kernel.Abs(), c) && !c.Timeout? && reltim <= TMAX_RELTIM
      modifies kernel, timer`hrtEvent, timer`armedAt, timer.time, timer.heap`last, timer.heap`blocks, timer.heap.slots, timer.all
      ensures Valid() && Shape(old(kernel.Abs())) && Callable(old(kernel.Abs()), c)
      ensures (kernel.Abs(), ercd) == Step(old(kernel.Abs()), c)
      ensures forall t :: t in kernel.timed && t in old(kernel.timed) ==> t < |blocks| && blocks[t].due == old(blocks[t].due)
      ensures forall t :: t in kernel.timed && t !in old(kernel.timed) ==>
        && Blocks(c) && old(kernel.runtsk) == Some(t) && t < |blocks|
        && blocks[t].due >= old(timer.time.clock.now) + timer.tstep + reltim
    {
      hide Step, Settled, TimerModule.Valid, TimerModule.Sound, Kernel.Valid;
      ghost var k := kernel.Abs();
      SettledShape(k);
      TimedByCaller(k, c);
      Sized();
      ercd := kernel.Do(c);
      Sized();
      assert Blocks(c) ==> k.run.Some?;
      assert forall t :: t in kernel.timed && t !in k.timed ==> Blocks(c) && k.run == Some(t);
      Bounded();
      assert forall t :: t in kernel.timed ==> t < |blocks|;
      Follow(reltim);
    }

    /** wait_tmout or wait_tmout_ok; the block has left the heap. Waits that end with it withdraw theirs. */
    method CallBack(t: TaskId, n: nat)
      requires kernel.Valid() && Settled(kernel.Abs()) && Placed() && timer.Valid() && t < |blocks| && t in kernel.timed
      requires forall u {:trigger blocks[u]} :: 0 <= u < |blocks| ==> (blocks[u] in timer.heap.blocks <==> u in kernel.timed && u != t)
      modifies kernel, timer`hrtEvent, timer`armedAt, timer.time, timer.heap`last, timer.heap`blocks, timer.heap.slots, timer.all
      ensures Valid() && old(timer.time.clock.now) <= timer.time.clock.now
      ensures Shape(old(kernel.Abs())) && Callable(old(kernel.Abs()), Call.Timeout(t, n))
      ensures kernel.Abs() == Step(old(kernel.Abs()), Call.Timeout(t, n)).0
    {
      hide Step, Settled, TimerModule.Valid, TimerModule.Sound, Kernel.Valid;
      SettledShape(kernel.Abs());
      Sized();
      TimedByCaller(kernel.Abs(), Call.Timeout(t, n));
      var _ := kernel.Timeout(t, n);
      Sized();
      Follow(0);
    }

    /** tmevt_proc_top: the callback of a timeout, wait_tmout or wait_tmout_ok, finds its task waiting with
        a timeout, and nothing registered is earlier. Blocks that are not of tasks have other callbacks. */
    method ProcTop(n: nat) returns (top: TimeEventBlock?, expired: Option<TaskId>)
      requires Valid() && timer.inSignalTime
      modifies kernel, timer`hrtEvent, timer`armedAt, timer.time, timer.heap`last, timer.heap`blocks, timer.heap.slots, timer.all
      ensures Valid()
      ensures top != null ==> top in old(timer.heap.blocks) && old(top.due) <= timer.time.clock.now
      ensures top != null ==> forall x :: x in old(timer.heap.blocks) ==> old(top.due) <= old(x.due)
      ensures expired.Some? <==> top != null && top in blocks
      ensures expired.Some? ==>
        && expired.value < |blocks| && blocks[expired.value] == top && expired.value in old(kernel.timed)
        && Shape(old(kernel.Abs())) && Callable(old(kernel.Abs()), Call.Timeout(expired.value, n))
        && kernel.Abs() == Step(old(kernel.Abs()), Call.Timeout(expired.value, n)).0
      ensures expired.None? ==> kernel.Abs() == old(kernel.Abs())
    {
      hide Step, Settled, TimerModule.Valid, TimerModule.Sound, Kernel.Valid;
      ghost var k := kernel.Abs();
      SettledShape(k);
      Sized();
      expired := None;
      SoundIs();
      var hrtcnt, elapsed := timer.ReadCounter();
      top := timer.ProcTop(hrtcnt, elapsed);
      SoundIs();
      if top != null {
        expired := TaskOf(top);
        if expired.Some? {
          CallBack(expired.value, n);
        }
      }
    }

    /** The callback's argument. */
    method TaskOf(block: TimeEventBlock) returns (t: Option<TaskId>)
      ensures t.Some? ==> t.value < |blocks| && blocks[t.value] == block
      ensures t.None? ==> block !in blocks
    {
      t := None;
      for i := 0 to |blocks|
        invariant t.Some? ==> t.value < |blocks| && blocks[t.value] == block
        invariant t.None? ==> block !in blocks[..i]
      {
        if blocks[i] == block {
          t := Some(i);
        }
      }
    }
  }
}
