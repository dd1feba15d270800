/**
 Message buffers and tasks together: the number of senders the kernel model lets go on, when a sender
 stops waiting, is the one the message buffer computes from the messages.
 */
module MessageTasks {
  import opened Base
  import opened KernelState
  import opened KernelInvariant
  import opened KernelCalls
  import opened KernelRuns
  import opened WaitQueue
  import M = MessageBuffer
  import R = MessageRing

  /** The wait queue `q` of the kernel holds the buffer's senders, in the same order and with their
      current priorities. */
  ghost predicate SameSenders(k: K, q: WobjId, s: M.Mbf) {
    && Shape(k) && q < |k.cfg.wobj| && k.cfg.wobj[q].kind.MbfSender? && k.cfg.wobj[q].tpri == s.byPri
    && |s.senders| == |Q(k, WaitQ(q))|
    && forall i :: 0 <= i < |s.senders| ==>
         s.senders[i].tid == Q(k, WaitQ(q))[i] && s.senders[i].pri == k.tcb[Q(k, WaitQ(q))[i]].pri
  }

  /** How many senders go on when the buffer signals. */
  function GoOn(s: M.Mbf): (n: nat)
    decreases |s.senders|
  {
    if s.senders != [] && M.Fits(s, s.senders[0].item) then 1 + GoOn(FirstIn(s)) else 0
  }

  /** The first sender's message is stored and its wait completed. */
  function FirstIn(s: M.Mbf): M.Mbf
    requires s.senders != []
  {
    s.(stored := s.stored + [s.senders[0].item], senders := s.senders[1..], woken := s.woken + [s.senders[0].tid])
  }

  lemma WakeTied(k: K, q: WobjId, s: M.Mbf)
    requires SameSenders(k, q, s) && s.senders != []
    ensures Q(k, WaitQ(q)) != [] && Q(k, WaitQ(q))[0] == s.senders[0].tid
    ensures SameSenders(WakeFirst(k, q, E_OK), q, FirstIn(s))
    ensures Q(WakeFirst(k, q, E_OK), WaitQ(q)) == Q(k, WaitQ(q))[1..]
  {
    hide WakeFirst, CfgOk, QueueShape, TaskShape;
    WakeKeepsPri(k, q, E_OK);
    var r, u := WakeFirst(k, q, E_OK), FirstIn(s);
    forall i | 0 <= i < |u.senders|
      ensures u.senders[i].tid == Q(r, WaitQ(q))[i] && u.senders[i].pri == r.tcb[Q(r, WaitQ(q))[i]].pri
    {
      assert u.senders[i] == s.senders[i + 1] && Q(r, WaitQ(q))[i] == Q(k, WaitQ(q))[i + 1];
    }
  }

  lemma WakeKeepsPri(k: K, q: WobjId, e: Ercd)
    requires Shape(k) && q < |k.cfg.wobj| && Q(k, WaitQ(q)) != []
    ensures var r := WakeFirst(k, q, e);
            && Kept(k, r) && Q(r, WaitQ(q)) == Q(k, WaitQ(q))[1..]
            && |r.tcb| == |k.tcb| && forall u :: 0 <= u < |k.tcb| ==> r.tcb[u].pri == k.tcb[u].pri
  {
  }

  lemma Lengths(k: K, q: WobjId, s: M.Mbf)
    requires SameSenders(k, q, s)
    ensures Shape(k) && q < |k.cfg.wobj| && |s.senders| == |Q(k, WaitQ(q))|
  {
  }

  /** messagebuf_signal on both sides: the same tasks go on, the same ones are left. */
  lemma {:induction false} SignalTied(k: K, q: WobjId, s: M.Mbf)
    requires SameSenders(k, q, s) && Shape(k) && q < |k.cfg.wobj|
    ensures SameSenders(MbfSignal(k, q, GoOn(s)), q, M.Signal(s))
    ensures GoOn(s) <= |Q(k, WaitQ(q))| && M.Signal(s).woken == s.woken + Q(k, WaitQ(q))[..GoOn(s)]
    decreases |s.senders|
  {
    hide SameSenders, WakeFirst, M.Fits, Shape, Q;
    Lengths(k, q, s);
    if s.senders != [] && M.Fits(s, s.senders[0].item) {
      var r := WakeFirst(k, q, E_OK);
      WakeTied(k, q, s);
      Lengths(r, q, FirstIn(s));
      SignalTied(r, q, FirstIn(s));
      var w := Q(k, WaitQ(q));
      assert w[..GoOn(s)] == [w[0]] + w[1..][..GoOn(FirstIn(s))];
      assert M.Signal(s) == M.Signal(FirstIn(s));
    }
  }

  // ---------------------------------------------------------------- the calls

  lemma RemoveIsDrop(s: seq<TaskId>, i: nat)
    requires NoDup(s) && i < |s|
    ensures Remove(s, s[i]) == Drop(s, i)
  {
    var j := RemoveCuts(s, s[i]);
  }

  /** The sender at place `i` of the buffer is a task waiting at this place of the queue, and there only. */
  ghost predicate Sender(k: K, q: WobjId, s: M.Mbf, i: nat)
    requires SameSenders(k, q, s) && i < |s.senders|
  {
    var t := s.senders[i].tid;
    IsTask(k, t) && WaitsOn(k.tcb[t].stat, q) && Remove(Q(k, WaitQ(q)), t) == Drop(Q(k, WaitQ(q)), i)
  }

  lemma SenderWaits(k: K, q: WobjId, s: M.Mbf, i: nat)
    requires Inv(k, TIGHT) && SameSenders(k, q, s) && i < |s.senders|
    ensures Sender(k, q, s, i)
  {
    assert QueueOk(k, TIGHT, WaitQ(q));
    RemoveIsDrop(Q(k, WaitQ(q)), i);
  }

  /** The buffer without its `i`-th sender. */
  function Without(s: M.Mbf, i: nat): M.Mbf
    requires i < |s.senders|
  {
    s.(senders := Drop(s.senders, i))
  }

  lemma UnlinkTied(k: K, q: WobjId, s: M.Mbf, i: nat)
    requires SameSenders(k, q, s) && i < |s.senders|
    requires Remove(Q(k, WaitQ(q)), s.senders[i].tid) == Drop(Q(k, WaitQ(q)), i)
    ensures SameSenders(Unlink(k, WaitQ(q), s.senders[i].tid), q, Without(s, i))
  {
    var r, u := Unlink(k, WaitQ(q), s.senders[i].tid), Without(s, i);
    forall j | 0 <= j < |u.senders|
      ensures u.senders[j].tid == Q(r, WaitQ(q))[j] && u.senders[j].pri == r.tcb[Q(r, WaitQ(q))[j]].pri
    {
      assert u.senders[j] == s.senders[if j < i then j else j + 1];
    }
  }

  /** wait_dequeue_wobj with its hook: when a sender stops waiting for whatever reason, exactly the
      senders go on that the buffer lets in, and the rest stay in order. */
  lemma DequeueTied(k: K, q: WobjId, s: M.Mbf, i: nat)
    requires SameSenders(k, q, s) && i < |s.senders| && Sender(k, q, s, i)
    ensures SameSenders(WaitDequeueWobj(k, s.senders[i].tid, GoOn(Without(s, i))), q, M.Step(s, M.GiveUp(i)))
  {
    hide M.Signal, MbfSignal, SameSenders, Q, Unlink;
    Lengths(k, q, s);
    UnlinkTied(k, q, s, i);
    Lengths(Unlink(k, WaitQ(q), s.senders[i].tid), q, Without(s, i));
    MbfQueue(k, q, s);
    SignalTied(Unlink(k, WaitQ(q), s.senders[i].tid), q, Without(s, i));
  }

  lemma MbfQueue(k: K, q: WobjId, s: M.Mbf)
    requires SameSenders(k, q, s)
    ensures q < |k.cfg.wobj| && k.cfg.wobj[q].kind.MbfSender?
  {
  }

  /** Only the queue and the priorities matter. */
  lemma Carried(k: K, r: K, q: WobjId, s: M.Mbf)
    requires SameSenders(k, q, s) && Shape(r) && r.cfg == k.cfg && Q(r, WaitQ(q)) == Q(k, WaitQ(q)) && |r.tcb| == |k.tcb|
    requires forall u :: 0 <= u < |k.tcb| ==> r.tcb[u].pri == k.tcb[u].pri
    ensures SameSenders(r, q, s)
  {
  }

  lemma EndKeeps(k: K, q: WobjId, t: TaskId)
    requires Shape(k) && IsTask(k, t) && q < |k.cfg.wobj|
    ensures var r := MakeNonWait(k, t);
            && Shape(r) && r.cfg == k.cfg && Q(r, WaitQ(q)) == Q(k, WaitQ(q)) && |r.tcb| == |k.tcb|
            && forall u :: 0 <= u < |k.tcb| ==> r.tcb[u].pri == k.tcb[u].pri
  {
  }

  lemma ReleaseKeeps(k: K, q: WobjId, t: TaskId)
    requires Shape(k) && IsTask(k, t) && q < |k.cfg.wobj|
    ensures var r := MakeRunnable(SetStat(k, t, Runnable), t);
            && Shape(r) && r.cfg == k.cfg && Q(r, WaitQ(q)) == Q(k, WaitQ(q)) && |r.tcb| == |k.tcb|
            && forall u :: 0 <= u < |k.tcb| ==> r.tcb[u].pri == k.tcb[u].pri
  {
  }

  lemma MarkedKeeps(k: K, q: WobjId, t: TaskId, e: Ercd)
    requires Shape(k) && IsTask(k, t) && q < |k.cfg.wobj|
    ensures var r := SetWercd(DequeueTmevtb(k, t), t, e);
            && Shape(r) && r.cfg == k.cfg && Q(r, WaitQ(q)) == Q(k, WaitQ(q)) && |r.tcb| == |k.tcb|
            && forall u :: 0 <= u < |k.tcb| ==> r.tcb[u].pri == k.tcb[u].pri
    ensures var r := SetWercd(k, t, e);
            && Shape(r) && r.cfg == k.cfg && Q(r, WaitQ(q)) == Q(k, WaitQ(q)) && |r.tcb| == |k.tcb|
            && forall u :: 0 <= u < |k.tcb| ==> r.tcb[u].pri == k.tcb[u].pri
  {
  }

  lemma DispatchTied(k: K, q: WobjId, s: M.Mbf)
    requires SameSenders(k, q, s) && Shape(k) && Shape(Dispatch(k))
    ensures SameSenders(Dispatch(k), q, s)
  {
  }

  lemma Sizes(k: K, t: TaskId, n: nat)
    requires Shape(k) && IsTask(k, t)
    ensures |WaitDequeueWobj(k, t, n).tcb| == |k.tcb|
  {
  }

  /** The end of a sender's wait by rel_wai: the buffer's side is a sender giving up. */
  lemma RelWaiTied(k: K, q: WobjId, s: M.Mbf, i: nat)
    requires Settled(k) && SameSenders(k, q, s) && i < |s.senders|
    ensures Shape(k) && IsTask(k, s.senders[i].tid)
    ensures SameSenders(RelWaiStep(k, s.senders[i].tid, GoOn(Without(s, i))).0, q, M.Step(s, M.GiveUp(i)))
  {
    hide M.Step, SameSenders, WaitDequeueWobj, Dispatch, QueueOk, TaskOk, MakeNonWait, Q, Shape;
    InvShape(k, TIGHT);
    MbfQueue(k, q, s);
    SenderWaits(k, q, s, i);
    DequeueTied(k, q, s, i);
    var t, u := s.senders[i].tid, M.Step(s, M.GiveUp(i));
    var n := GoOn(Without(s, i));
    Sizes(k, t, n);
    RelWaiInv(k, t, n);
    var k1 := WaitDequeueWobj(k, t, n);
    var k2 := SetWercd(DequeueTmevtb(k1, t), t, E_RLWAI);
    MarkedKeeps(k1, q, t, E_RLWAI);
    Carried(k1, k2, q, u);
    EndKeeps(k2, q, t);
    Carried(k2, MakeNonWait(k2, t), q, u);
    InvShape(Dispatch(MakeNonWait(k2, t)), TIGHT);
    DispatchTied(MakeNonWait(k2, t), q, u);
  }

  /** The same by timeout. */
  lemma TimeoutTied(k: K, q: WobjId, s: M.Mbf, i: nat)
    requires Settled(k) && SameSenders(k, q, s) && i < |s.senders| && s.senders[i].tid in k.timed
    ensures Shape(k) && Callable(k, Timeout(s.senders[i].tid, GoOn(Without(s, i))))
    ensures SameSenders(Step(k, Timeout(s.senders[i].tid, GoOn(Without(s, i)))).0, q, M.Step(s, M.GiveUp(i)))
  {
    hide M.Step, SameSenders, WaitDequeueWobj, Dispatch, QueueOk, TaskOk, MakeNonWait, Q, Shape, QueueShape, CfgOk;
    InvShape(k, TIGHT);
    MbfQueue(k, q, s);
    SenderWaits(k, q, s, i);
    var t, u := s.senders[i].tid, M.Step(s, M.GiveUp(i));
    var n := GoOn(Without(s, i));
    var k0 := SetTimed(k, k.timed - {t});
    TimedKeeps(k, q, s, i);
    DequeueTied(k0, q, s, i);
    Sizes(k0, t, n);
    TimeoutInv(k, t, n);
    var k1 := WaitDequeueWobj(k0, t, n);
    var k2 := SetWercd(k1, t, E_TMOUT);
    MarkedKeeps(k1, q, t, E_TMOUT);
    Carried(k1, k2, q, u);
    EndKeeps(k2, q, t);
    Carried(k2, MakeNonWait(k2, t), q, u);
    InvShape(Dispatch(MakeNonWait(k2, t)), TIGHT);
    DispatchTied(MakeNonWait(k2, t), q, u);
  }

  lemma TimedKeeps(k: K, q: WobjId, s: M.Mbf, i: nat)
    requires SameSenders(k, q, s) && i < |s.senders| && Sender(k, q, s, i)
    ensures var k0 := SetTimed(k, k.timed - {s.senders[i].tid}); SameSenders(k0, q, s) && Sender(k0, q, s, i)
  {
  }

  /** The same by a termination request that the task does not accept yet. */
  lemma RasterTied(k: K, q: WobjId, s: M.Mbf, i: nat)
    requires Inv(k, TIGHT) && SameSenders(k, q, s) && i < |s.senders|
    ensures IsTask(k, s.senders[i].tid)
    ensures SameSenders(RasterRelease(k, s.senders[i].tid, GoOn(Without(s, i))), q, M.Step(s, M.GiveUp(i)))
  {
    hide M.Step, SameSenders, WaitDequeueWobj, QueueOk, TaskOk, MakeRunnable, Q, Shape;
    InvShape(k, TIGHT);
    MbfQueue(k, q, s);
    SenderWaits(k, q, s, i);
    DequeueTied(k, q, s, i);
    var t, u := s.senders[i].tid, M.Step(s, M.GiveUp(i));
    Sizes(k, t, GoOn(Without(s, i)));
    var k1 := WaitDequeueWobj(k, t, GoOn(Without(s, i)));
    var k2 := SetWercd(DequeueTmevtb(k1, t), t, E_RASTER);
    MarkedKeeps(k1, q, t, E_RASTER);
    Carried(k1, k2, q, u);
    ReleaseKeeps(k2, q, t);
    Carried(k2, MakeRunnable(SetStat(k2, t, Runnable), t), q, u);
  }

  // ---------------------------------------------------------------- terminations

  /** Neither `t` nor a task that waits for a mutex is in the wait queue `q`. */
  ghost predicate Apart(k: K, q: WobjId, t: TaskId)
    requires Shape(k) && q < |k.cfg.wobj|
  {
    && t !in Q(k, WaitQ(q))
    && forall m: WobjId, x {:trigger x in Q(k, WaitQ(m))} :: IsMutex(k.cfg, m) && x in Q(k, WaitQ(m)) ==> x !in Q(k, WaitQ(q))
  }

  /** No wait queue gets a new member. */
  ghost predicate Shrinks(k: K, r: K) {
    && Shape(k) && Shape(r) && r.cfg == k.cfg
    && forall h: WobjId, x {:trigger x in Q(r, WaitQ(h))} :: h < |k.cfg.wobj| && x in Q(r, WaitQ(h)) ==> x in Q(k, WaitQ(h))
  }

  lemma ApartStays(k: K, r: K, q: WobjId, t: TaskId)
    requires Shrinks(k, r) && q < |k.cfg.wobj| && Apart(k, q, t)
    ensures Apart(r, q, t)
  {
    hide Q, Shape;
  }

  lemma WakeShrinks(k: K, q: WobjId)
    requires Shape(k) && q < |k.cfg.wobj| && Q(k, WaitQ(q)) != []
    ensures Shrinks(k, WakeFirst(k, q, E_OK))
  {
    hide TaskShape, CfgOk;
  }

  lemma {:induction false} SignalShrinks(k: K, q: WobjId, n: nat)
    requires Shape(k) && q < |k.cfg.wobj|
    ensures Shrinks(k, MbfSignal(k, q, n))
    decreases n
  {
    hide WakeFirst, Shape, Q;
    if n > 0 && Q(k, WaitQ(q)) != [] {
      WakeShrinks(k, q);
      SignalShrinks(WakeFirst(k, q, E_OK), q, n - 1);
    }
  }

  /** At the start of a sender's termination. */
  lemma ApartAtFirst(k: K, q: WobjId, s: M.Mbf, i: nat)
    requires Inv(k, TIGHT) && SameSenders(k, q, s) && i < |s.senders|
    ensures Shape(k) && Apart(Unlink(k, WaitQ(q), s.senders[i].tid), q, s.senders[i].tid)
  {
    hide TaskOk;
    var t, ts := s.senders[i].tid, Q(k, WaitQ(q));
    assert QueueOk(k, TIGHT, WaitQ(q));
    RemoveIsDrop(ts, i);
    var r := Unlink(k, WaitQ(q), t);
    forall m: WobjId, x {:trigger x in Q(r, WaitQ(m))} | IsMutex(k.cfg, m) && x in Q(r, WaitQ(m)) ensures x !in Q(r, WaitQ(q)) {
      assert QueueOk(k, TIGHT, WaitQ(m)) && x in Q(k, WaitQ(m));
    }
  }

  /** The handing over of a mutex changes the priority of a task waiting for it only. */
  lemma HandOverKeeps(k: K, q: WobjId, m: WobjId)
    requires Shape(k) && IsMutex(k.cfg, m) && q < |k.cfg.wobj|
    ensures var r := MutexRelease(k, m);
            && Shape(r) && r.cfg == k.cfg && |r.tcb| == |k.tcb|
            && Q(r, WaitQ(q)) == (if q == m && Q(k, WaitQ(m)) != [] then Q(k, WaitQ(m))[1..] else Q(k, WaitQ(q)))
            && forall u :: 0 <= u < |k.tcb| && u !in Q(k, WaitQ(m)) ==> r.tcb[u].pri == k.tcb[u].pri
  {
    hide MutexHandOver, MakeNonWait, DequeueTmevtb, TaskShape, CfgOk;
    var ts := Q(k, WaitQ(m));
    if ts != [] {
      var t, k0 := ts[0], SetQ(k, WaitQ(m), ts[1..]);
      MarkedKeeps(k0, q, t, E_OK);
      var k1 := SetWercd(DequeueTmevtb(k0, t), t, E_OK);
      TakenOver(k1, q, m, t);
      EndKeeps(MutexHandOver(k1, m, t), q, t);
      assert t in ts;
    }
  }

  lemma TakenOver(k: K, q: WobjId, m: WobjId, t: TaskId)
    requires Shape(k) && IsMutex(k.cfg, m) && IsTask(k, t) && q < |k.cfg.wobj|
    ensures var r := MutexHandOver(k, m, t);
            && Shape(r) && r.cfg == k.cfg && Q(r, WaitQ(q)) == Q(k, WaitQ(q)) && |r.tcb| == |k.tcb|
            && forall u :: 0 <= u < |k.tcb| && u != t ==> r.tcb[u].pri == k.tcb[u].pri
  {
    hide QueueShape;
  }

  lemma HandOverShrinks(k: K, m: WobjId)
    requires Shape(k) && IsMutex(k.cfg, m)
    ensures Shrinks(k, MutexRelease(k, m))
  {
    hide MutexRelease, Q, QueueShape, TaskShape, CfgOk;
    var r := MutexRelease(k, m);
    HandOverKeeps(k, m, m);
    forall h: WobjId, x | h < |k.cfg.wobj| && x in Q(r, WaitQ(h)) ensures x in Q(k, WaitQ(h)) {
      HandOverKeeps(k, h, m);
    }
  }

  /** Only the priorities of the queue's tasks matter. */
  lemma CarriedFor(k: K, r: K, q: WobjId, s: M.Mbf)
    requires SameSenders(k, q, s) && Shape(r) && r.cfg == k.cfg && Q(r, WaitQ(q)) == Q(k, WaitQ(q)) && |r.tcb| == |k.tcb|
    requires forall u :: u in Q(k, WaitQ(q)) ==> r.tcb[u].pri == k.tcb[u].pri
    ensures SameSenders(r, q, s)
  {
  }

  lemma ReleaseTied(k: K, q: WobjId, s: M.Mbf, t: TaskId, m: WobjId)
    requires SameSenders(k, q, s) && Apart(k, q, t) && IsTask(k, t) && IsMutex(k.cfg, m)
    ensures SameSenders(MutexRelease(k, m), q, s) && Apart(MutexRelease(k, m), q, t)
  {
    hide MutexRelease, SameSenders, Q, Shape;
    Lengths(k, q, s);
    MbfQueue(k, q, s);
    HandOverKeeps(k, q, m);
    HandOverShrinks(k, m);
    ApartStays(k, MutexRelease(k, m), q, t);
    forall u | u in Q(k, WaitQ(q)) ensures u < |k.tcb| && u !in Q(k, WaitQ(m)) { Known(k, q); }
    CarriedFor(k, MutexRelease(k, m), q, s);
  }

  lemma Known(k: K, q: WobjId)
    requires Shape(k) && q < |k.cfg.wobj|
    ensures forall u :: u in Q(k, WaitQ(q)) ==> u < |k.tcb|
  {
  }

  lemma {:induction false} ReleaseAllTied(k: K, q: WobjId, s: M.Mbf, t: TaskId, n: nat)
    requires SameSenders(k, q, s) && Apart(k, q, t) && IsTask(k, t)
    ensures SameSenders(MutexReleaseAll(k, t, n), q, s) && Apart(MutexReleaseAll(k, t, n), q, t)
    ensures |MutexReleaseAll(k, t, n).tcb| == |k.tcb|
    decreases n
  {
    hide MutexRelease, SameSenders, Apart, QueueShape, CfgOk;
    Lengths(k, q, s);
    if n > 0 && k.held[t] != [] {
      PopTied(k, q, s, t);
      ReleaseTied(PopHeld(k, t), q, s, t, k.held[t][|k.held[t]| - 1]);
      ReleaseAllTied(MutexRelease(PopHeld(k, t), k.held[t][|k.held[t]| - 1]), q, s, t, n - 1);
    }
  }

  lemma PopTied(k: K, q: WobjId, s: M.Mbf, t: TaskId)
    requires SameSenders(k, q, s) && Apart(k, q, t) && IsTask(k, t) && k.held[t] != []
    ensures SameSenders(PopHeld(k, t), q, s) && Apart(PopHeld(k, t), q, t)
  {
    ApartStays(k, PopHeld(k, t), q, t);
  }

  lemma DormantTied(k: K, q: WobjId, s: M.Mbf, t: TaskId)
    requires SameSenders(k, q, s) && Apart(k, q, t) && IsTask(k, t)
    ensures var r := MakeDormant(k, t);
            SameSenders(if r.tcb[t].actque then MakeActive(SetTcb(r, t, r.tcb[t].(actque := false)), t) else r, q, s)
  {
    hide CfgOk;
  }

  /** Terminating a sender, whatever mutexes it holds, is for the buffer a sender that stops waiting. */
  lemma TerminateTied(k: K, q: WobjId, s: M.Mbf, i: nat)
    requires Inv(k, TIGHT) && SameSenders(k, q, s) && i < |s.senders|
    ensures IsTask(k, s.senders[i].tid)
    ensures SameSenders(TaskTerminate(k, s.senders[i].tid, GoOn(Without(s, i))), q, M.Step(s, M.GiveUp(i)))
  {
    hide M.Step, SameSenders, Apart, WaitDequeueWobj, MutexReleaseAll, MakeDormant, MakeActive, DequeueTmevtb, QueueOk, TaskOk, Q, Shape;
    InvShape(k, TIGHT);
    SenderWaits(k, q, s, i);
    var t, n, u := s.senders[i].tid, GoOn(Without(s, i)), M.Step(s, M.GiveUp(i));
    LeftApart(k, q, s, i, n);
    DequeueTied(k, q, s, i);
    var k1 := WaitDequeueWobj(k, t, n);
    var k2 := DequeueTmevtb(k1, t);
    UntimedTied(k1, q, u, t);
    ReleaseAllTied(k2, q, u, t, |k2.held[t]|);
    DormantTied(MutexReleaseAll(k2, t, |k2.held[t]|), q, u, t);
  }

  lemma LeftApart(k: K, q: WobjId, s: M.Mbf, i: nat, n: nat)
    requires Inv(k, TIGHT) && SameSenders(k, q, s) && i < |s.senders| && Sender(k, q, s, i)
    ensures var r := WaitDequeueWobj(k, s.senders[i].tid, n);
            Shape(r) && q < |r.cfg.wobj| && Apart(r, q, s.senders[i].tid) && |r.tcb| == |k.tcb|
  {
    hide QueueOk, TaskOk, Q, MbfSignal, Unlink, Apart;
    var t := s.senders[i].tid;
    ApartAtFirst(k, q, s, i);
    Sizes(k, t, n);
    SignalShrinks(Unlink(k, WaitQ(q), t), q, n);
    ApartStays(Unlink(k, WaitQ(q), t), WaitDequeueWobj(k, t, n), q, t);
  }

  lemma UntimedTied(k: K, q: WobjId, s: M.Mbf, t: TaskId)
    requires SameSenders(k, q, s) && Shape(k) && q < |k.cfg.wobj| && Apart(k, q, t) && IsTask(k, t)
    ensures SameSenders(DequeueTmevtb(k, t), q, s) && Apart(DequeueTmevtb(k, t), q, t)
    ensures |DequeueTmevtb(k, t).tcb| == |DequeueTmevtb(k, t).held| == |k.tcb|
  {
    ApartStays(k, DequeueTmevtb(k, t), q, t);
  }

  /** ter_tsk of a sender. */
  lemma TerTskTied(k: K, q: WobjId, s: M.Mbf, i: nat)
    requires Settled(k) && SameSenders(k, q, s) && i < |s.senders|
    ensures Shape(k) && IsTask(k, s.senders[i].tid)
    ensures SameSenders(TerTskStep(k, s.senders[i].tid, GoOn(Without(s, i))).0, q, M.Step(s, M.GiveUp(i)))
  {
    hide M.Step, SameSenders, TaskTerminate, Dispatch, QueueOk, TaskOk, Q, Shape;
    InvShape(k, TIGHT);
    SenderWaits(k, q, s, i);
    WaitingTask(k, s.senders[i].tid);
    var t, n := s.senders[i].tid, GoOn(Without(s, i));
    TerminateTied(k, q, s, i);
    TerTskInv(k, t, n);
    InvShape(Dispatch(TaskTerminate(k, t, n)), TIGHT);
    DispatchTied(TaskTerminate(k, t, n), q, M.Step(s, M.GiveUp(i)));
  }

  lemma WaitingTask(k: K, t: TaskId)
    requires Settled(k) && Shape(k) && IsTask(k, t) && k.tcb[t].stat.Waiting?
    ensures k.run != Some(t) && TcbShape(k.cfg, k.tcb[t].(raster := true))
  {
    ChoiceIsRunnable(k);
  }

  /** ras_ter of a sender, whether it terminates it or only ends its wait. */
  lemma RasTerTied(k: K, q: WobjId, s: M.Mbf, i: nat)
    requires Settled(k) && SameSenders(k, q, s) && i < |s.senders|
    ensures Shape(k) && IsTask(k, s.senders[i].tid)
    ensures SameSenders(RasTerStep(k, s.senders[i].tid, GoOn(Without(s, i))).0, q, M.Step(s, M.GiveUp(i)))
  {
    hide M.Step, SameSenders, TaskTerminate, RasterRelease, Dispatch, QueueOk, TaskOk, SetTcb, Q, Shape;
    InvShape(k, TIGHT);
    SenderWaits(k, q, s, i);
    WaitingTask(k, s.senders[i].tid);
    var t, n := s.senders[i].tid, GoOn(Without(s, i));
    RasTerInv(k, t, n);
    if k.tcb[t].enater {
      TerminateTied(k, q, s, i);
      InvShape(Dispatch(TaskTerminate(k, t, n)), TIGHT);
      DispatchTied(TaskTerminate(k, t, n), q, M.Step(s, M.GiveUp(i)));
    } else {
      var k1 := Asked(k, q, s, t);
      RasterTied(k1, q, s, i);
      InvShape(Dispatch(RasterRelease(k1, t, n)), TIGHT);
      DispatchTied(RasterRelease(k1, t, n), q, M.Step(s, M.GiveUp(i)));
    }
  }

  /** A request alone changes nothing for the buffer. */
  lemma Asked(k: K, q: WobjId, s: M.Mbf, t: TaskId) returns (r: K)
    requires Settled(k) && SameSenders(k, q, s) && Shape(k) && IsTask(k, t) && TcbShape(k.cfg, k.tcb[t].(raster := true))
    ensures r == SetTcb(k, t, k.tcb[t].(raster := true)) && Inv(r, TIGHT) && SameSenders(r, q, s)
  {
    hide QueueOk, TaskOk;
    r := SetTcb(k, t, k.tcb[t].(raster := true));
    FlagStep(k, t, k.tcb[t].(raster := true));
    CarriedFor(k, r, q, s);
  }

  /** A sender that has to wait enters both queues at the same place. */
  lemma {:induction false} SamePlace(tcb: seq<Tcb>, ts: seq<TaskId>, ws: seq<Waiter<R.Message>>, p: Pri)
    requires Members(ts, |tcb|) && |ts| == |ws| && forall i :: 0 <= i < |ts| ==> ws[i].pri == tcb[ts[i]].pri
    ensures TpriPos(tcb, ts, p) == PlaceOf(ws, p)
  {
    if ts != [] && tcb[ts[0]].pri <= p { SamePlace(tcb, ts[1..], ws[1..], p); }
  }
}
