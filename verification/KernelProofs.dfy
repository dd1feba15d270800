/**
 Each kernel-internal operation keeps the invariant of KernelInvariant, with the slack its callers
 rely on.
 */
module KernelProofs {
  import opened Base
  import opened KernelState
  import opened KernelInvariant

  function Stale(s: Slack, t: TaskId): Slack { s.(stale := s.stale + {t}) }

  function Fresh(s: Slack, t: TaskId): Slack { s.(stale := s.stale - {t}) }

  function Free(s: Slack, m: WobjId): Slack { s.(free := s.free + {m}) }

  function Taken(s: Slack, m: WobjId): Slack { s.(free := s.free - {m}) }

  /** Tasks being moved and runnable tasks are left alone: same record, same timeout. */
  ghost predicate Bystanders(k: K, r: K, s: Slack)
    requires Shape(k)
  {
    && Kept(k, r)
    && (forall u :: 0 <= u < |k.tcb| && (u in s.out || k.tcb[u].stat.Runnable?) ==>
          r.tcb[u] == k.tcb[u] && (u in r.timed <==> u in k.timed))
  }

  lemma StaleInv(k: K, s: Slack, t: TaskId)
    requires Inv(k, s)
    ensures Inv(k, Stale(s, t))
  {
    forall h | ValidHome(k.cfg, h) ensures QueueOk(k, Stale(s, t), h) { assert QueueOk(k, s, h); }
    forall u | 0 <= u < |k.tcb| ensures TaskOk(k, Stale(s, t), u) { assert TaskOk(k, s, u); }
  }

  lemma FreshInv(k: K, s: Slack, t: TaskId)
    requires Inv(k, s) && IsTask(k, t)
    requires k.tcb[t].pri == MinCeiling(k.cfg, k.tcb[t].bpri, k.held[t])
    ensures Inv(k, Fresh(s, t))
  {
    forall h | ValidHome(k.cfg, h) ensures QueueOk(k, Fresh(s, t), h) { assert QueueOk(k, s, h); }
    forall u | 0 <= u < |k.tcb| ensures TaskOk(k, Fresh(s, t), u) { assert TaskOk(k, s, u); }
  }

  /** A mutex without an owner is in no chain. */
  lemma FreeInv(k: K, s: Slack, m: WobjId)
    requires Inv(k, s) && IsMutex(k.cfg, m) && m !in s.free && k.owner[m] == None
    ensures Inv(k, Free(s, m))
  {
    forall h | ValidHome(k.cfg, h) ensures QueueOk(k, Free(s, m), h) { assert QueueOk(k, s, h); }
    forall u | 0 <= u < |k.tcb| ensures TaskOk(k, Free(s, m), u) { assert TaskOk(k, s, u); }
  }

  // ---------------------------------------------------------------- linking a runnable task

  lemma MakeRunnableInv(k: K, s: Slack, t: TaskId)
    requires Inv(k, s) && IsTask(k, t) && t in s.out && k.tcb[t].stat.Runnable?
    requires Ready2Join(k, s, t)
    ensures Inv(MakeRunnable(k, t), In(s, t))
  {
    var h := ReadyQ(k, t, k.tcb[t].pri);
    JoinInv(k, s, t, h, |k.queues[h]|);
    assert InsertAt(k.queues[h], |k.queues[h]|, t) == k.queues[h] + [t];
  }

  // ---------------------------------------------------------------- ending waits

  lemma MakeNonWaitInv(k: K, s: Slack, t: TaskId)
    requires Inv(k, s) && IsTask(k, t) && t in s.out && k.tcb[t].stat.Waiting?
    requires t !in k.timed && PriOk(k, In(s, t), t)
    ensures Inv(MakeNonWait(k, t), In(s, t)) && Bystanders(k, MakeNonWait(k, t), In(s, t))
    ensures MakeNonWait(k, t).held == k.held && MakeNonWait(k, t).owner == k.owner
    ensures MakeNonWait(k, t).timed == k.timed
  {
    hide Shape, Kept;
    assert TaskOk(k, s, t);
    if !SuspFlag(k.tcb[t].stat) {
      var k1 := SetStat(k, t, Runnable);
      OutsideInv(k, s, t, k1);
      MakeRunnableInv(k1, s, t);
    } else {
      var k1 := SetStat(k, t, Suspended);
      OutsideInv(k, s, t, k1);
      RestInv(k1, s, t);
    }
  }

  lemma WaitEndInv(k: K, s: Slack, t: TaskId, e: Ercd)
    requires Inv(k, s) && IsTask(k, t) && t in s.out && k.tcb[t].stat.Waiting?
    requires t in k.timed ==> k.tcb[t].stat.tmo
    requires PriOk(k, In(s, t), t)
    ensures Inv(WaitEnd(k, t, e), In(s, t)) && Bystanders(k, WaitEnd(k, t, e), In(s, t))
    ensures WaitEnd(k, t, e).held == k.held && WaitEnd(k, t, e).owner == k.owner
    ensures WaitEnd(k, t, e).timed == k.timed - {t}
  {
    var k1 := SetWercd(DequeueTmevtb(k, t), t, e);
    OutsideInv(k, s, t, k1);
    MakeNonWaitInv(k1, s, t);
  }

  /** Unlinking the head of a wait queue is leaving it. */
  lemma HeadLeaves(k: K, s: Slack, q: WobjId) returns (t: TaskId)
    requires Inv(k, s) && q < |k.cfg.wobj| && k.queues[WaitQ(q)] != []
    ensures t == k.queues[WaitQ(q)][0] && IsTask(k, t) && t !in s.out
    ensures TaskHome(k, t) == Some(WaitQ(q)) && k.tcb[t].stat.Waiting?
    ensures TimedOk(k, s, t) && ChainOk(k, s, t) && WaitOk(k, s, t) && PriOk(k, s, t)
    ensures Leave(k, t) == SetQ(k, WaitQ(q), k.queues[WaitQ(q)][1..])
    ensures Inv(Leave(k, t), Out(s, t))
  {
    assert QueueOk(k, s, WaitQ(q));
    t := k.queues[WaitQ(q)][0];
    assert TaskOk(k, s, t);
    LeaveInv(k, s, t);
  }

  lemma WakeFirstInv(k: K, s: Slack, q: WobjId, e: Ercd)
    requires Inv(k, s) && q < |k.cfg.wobj| && k.queues[WaitQ(q)] != []
    ensures Inv(WakeFirst(k, q, e), s) && Bystanders(k, WakeFirst(k, q, e), s)
    ensures WakeFirst(k, q, e).held == k.held && WakeFirst(k, q, e).owner == k.owner
  {
    hide QueueShape, TaskShape;
    var t := HeadLeaves(k, s, q);
    WaitEndInv(Leave(k, t), Out(s, t), t, e);
    assert In(Out(s, t), t) == s;
  }

  lemma BystandersTrans(a: K, b: K, c: K, s: Slack)
    requires Shape(a) && Bystanders(a, b, s) && Bystanders(b, c, s)
    ensures Bystanders(a, c, s)
  {
  }

  lemma {:induction false} MbfSignalInv(k: K, s: Slack, q: WobjId, n: nat)
    requires Inv(k, s) && q < |k.cfg.wobj|
    ensures var r := MbfSignal(k, q, n);
            Inv(r, s) && Bystanders(k, r, s) && r.held == k.held && r.owner == k.owner
    decreases n
  {
    hide QueueOk, TaskOk, WakeFirst;
    if n != 0 && Q(k, WaitQ(q)) != [] {
      WakeFirstInv(k, s, q, E_OK);
      var k1 := WakeFirst(k, q, E_OK);
      MbfSignalInv(k1, s, q, n - 1);
      BystandersTrans(k, k1, MbfSignal(k1, q, n - 1), s);
    }
  }

  lemma {:induction false} InitWaitQueueInv(k: K, s: Slack, q: WobjId)
    requires Inv(k, s) && q < |k.cfg.wobj|
    ensures var r := InitWaitQueue(k, q);
            Inv(r, s) && Bystanders(k, r, s) && r.held == k.held && r.owner == k.owner
    decreases |k.queues[WaitQ(q)]|
  {
    if Q(k, WaitQ(q)) != [] {
      WakeFirstInv(k, s, q, E_DLT);
      var k1 := WakeFirst(k, q, E_DLT);
      InitWaitQueueInv(k1, s, q);
      BystandersTrans(k, k1, InitWaitQueue(k1, q), s);
    }
  }

  lemma WaitDequeueWobjInv(k: K, s: Slack, t: TaskId, n: nat)
    requires Inv(k, s) && IsTask(k, t) && t !in s.out && k.tcb[t].stat.Waiting?
    ensures var r := WaitDequeueWobj(k, t, n);
            Inv(r, Out(s, t)) && Bystanders(k, r, Out(s, t)) && r.held == k.held && r.owner == k.owner
  {
    hide QueueOk, TaskOk, MbfSignal, QueueShape, CfgOk;
    LeaveInv(k, s, t);
    if k.tcb[t].stat.cause.OnQueue? {
      MbfSignalInv(Leave(k, t), Out(s, t), k.tcb[t].stat.cause.q, n);
    }
  }

  /** rel_wai, ras_ter and a timeout all end a wait this way. */
  lemma ForcedEndInv(k: K, s: Slack, t: TaskId, n: nat, e: Ercd)
    requires Inv(k, s) && IsTask(k, t) && t !in s.out && k.tcb[t].stat.Waiting?
    ensures var r := WaitEnd(WaitDequeueWobj(k, t, n), t, e);
            Inv(r, s) && r.held == k.held && r.owner == k.owner && Bystanders(k, r, s)
  {
    assert TaskOk(k, s, t);
    WaitDequeueWobjInv(k, s, t, n);
    WaitEndInv(WaitDequeueWobj(k, t, n), Out(s, t), t, e);
    assert In(Out(s, t), t) == s;
  }

  // ---------------------------------------------------------------- entering waits

  /** The task out of its ready queue, with its waiting record and timeout. */
  lemma MakeWaitInv(k: K, s: Slack, t: TaskId, c: Cause, tmo: bool)
    requires Inv(k, s) && IsTask(k, t) && t !in s.out && k.tcb[t].stat.Runnable?
    requires ValidCause(k.cfg, Waiting(c, false, tmo))
    ensures var r := MakeWait(k, t, c, tmo);
            && Inv(r, Out(s, t)) && r.held == k.held && r.owner == k.owner
            && (t in r.timed <==> tmo) && r.tcb == k.tcb[t := k.tcb[t].(stat := Waiting(c, false, tmo))]
  {
    assert TaskOk(k, s, t);
    LeaveInv(k, s, t);
    var r := MakeWait(k, t, c, tmo);
    OutsideInv(Leave(k, t), Out(s, t), t, r);
  }

  lemma PlainWaitInv(k: K, s: Slack, t: TaskId, c: Cause, tmo: bool)
    requires Inv(k, s) && IsTask(k, t) && t !in s.out && k.tcb[t].stat.Runnable? && !c.OnQueue?
    ensures Inv(MakeWait(k, t, c, tmo), s)
  {
    assert TaskOk(k, s, t);
    MakeWaitInv(k, s, t, c, tmo);
    var r := MakeWait(k, t, c, tmo);
    assert TaskOk(r, Out(s, t), t);
    RestInv(r, Out(s, t), t);
    assert In(Out(s, t), t) == s;
  }

  lemma WaiterReady(k: K, s: Slack, t: TaskId, q: WobjId, tmo: bool)
    requires Inv(k, s) && IsTask(k, t) && t !in s.out && k.tcb[t].stat.Runnable? && q < |k.cfg.wobj|
    requires IsMutex(k.cfg, q) ==>
      && k.owner[q].Some? && k.owner[q] != Some(t)
      && (Ceiling(k.cfg, q).Some? ==> Ceiling(k.cfg, q).value <= k.tcb[t].bpri)
    ensures Ready2Join(MakeWait(k, t, OnQueue(q), tmo), Out(s, t), t)
    ensures TaskHome(MakeWait(k, t, OnQueue(q), tmo), t) == Some(WaitQ(q))
  {
    assert TaskOk(k, s, t);
    MakeWaitInv(k, s, t, OnQueue(q), tmo);
    var r := MakeWait(k, t, OnQueue(q), tmo);
    assert TaskOk(r, Out(s, t), t);
  }

  lemma WobjMakeWaitInv(k: K, s: Slack, t: TaskId, q: WobjId, tmo: bool)
    requires Inv(k, s) && IsTask(k, t) && t !in s.out && k.tcb[t].stat.Runnable? && q < |k.cfg.wobj|
    requires IsMutex(k.cfg, q) ==>
      && k.owner[q].Some? && k.owner[q] != Some(t)
      && (Ceiling(k.cfg, q).Some? ==> Ceiling(k.cfg, q).value <= k.tcb[t].bpri)
    requires IsSem(k.cfg, q) ==> k.semcnt[q] == 0
    ensures Inv(WobjMakeWait(k, t, q, tmo), s)
  {
    hide QueueOk, TaskOk, Ready2Join, MakeWait;
    MakeWaitInv(k, s, t, OnQueue(q), tmo);
    WaiterReady(k, s, t, q, tmo);
    var r := MakeWait(k, t, OnQueue(q), tmo);
    TpriPlace(r, Out(s, t), q, r.tcb[t].pri);
    JoinInv(r, Out(s, t), t, WaitQ(q), EntryPos(r, q, r.tcb[t].pri));
    assert In(Out(s, t), t) == s;
  }

  /** The entry position splits an ordered queue into tasks not below and tasks below `p`. */
  lemma TpriPlace(k: K, s: Slack, q: WobjId, p: Pri)
    requires Inv(k, s) && q < |k.cfg.wobj|
    ensures var i := EntryPos(k, q, p);
            var l := k.queues[WaitQ(q)];
            k.cfg.wobj[q].tpri ==>
              forall j :: 0 <= j < |l| ==> if j < i then k.tcb[l[j]].pri <= p else p < k.tcb[l[j]].pri
  {
    assert QueueOk(k, s, WaitQ(q));
  }

  // ---------------------------------------------------------------- priorities

  /** change_priority puts a task where its new priority belongs, whatever its state. */
  lemma ChangePriorityInv(k: K, s: Slack, t: TaskId, p: Pri, mtxmode: bool)
    requires Inv(k, s) && IsTask(k, t) && t !in s.out && !k.tcb[t].stat.Dormant?
    requires p < TNUM_TPRI && p == MinCeiling(k.cfg, k.tcb[t].bpri, k.held[t])
    ensures var r := ChangePriority(k, t, p, mtxmode);
            && Inv(r, Fresh(s, t)) && r.held == k.held && r.owner == k.owner && r.timed == k.timed
            && r.tcb == k.tcb[t := k.tcb[t].(pri := p)]
  {
    var st := k.tcb[t].stat;
    if st.Runnable? {
      RequeuedInv(k, s, t, p, mtxmode);
    } else if st.Waiting? && st.cause.OnQueue? && k.cfg.wobj[st.cause.q].tpri {
      ReorderedInv(k, s, t, p, mtxmode);
    } else {
      InPlaceInv(k, s, t, p);
    }
  }

  lemma RequeuedInv(k: K, s: Slack, t: TaskId, p: Pri, mtxmode: bool)
    requires Inv(k, s) && IsTask(k, t) && t !in s.out && k.tcb[t].stat.Runnable?
    requires p < TNUM_TPRI && p == MinCeiling(k.cfg, k.tcb[t].bpri, k.held[t])
    ensures var r := ChangePriority(k, t, p, mtxmode);
            && Inv(r, Fresh(s, t)) && r.held == k.held && r.owner == k.owner && r.timed == k.timed
            && r.tcb == k.tcb[t := k.tcb[t].(pri := p)]
  {
    hide QueueOk, TaskOk, Leave, Unlink, Ready2Join;
    var k1 := Extracted(k, s, t, p);
    var h := ReadyQ(k1, t, p);
    var l := Q(k1, h);
    assert InsertAt(l, 0, t) == [t] + l && InsertAt(l, |l|, t) == l + [t];
    Rejoined(k1, s, t, h, if mtxmode then 0 else |l|);
  }

  lemma ReorderedInv(k: K, s: Slack, t: TaskId, p: Pri, mtxmode: bool)
    requires Inv(k, s) && IsTask(k, t) && t !in s.out
    requires k.tcb[t].stat.Waiting? && k.tcb[t].stat.cause.OnQueue? && k.cfg.wobj[k.tcb[t].stat.cause.q].tpri
    requires p < TNUM_TPRI && p == MinCeiling(k.cfg, k.tcb[t].bpri, k.held[t])
    ensures var r := ChangePriority(k, t, p, mtxmode);
            && Inv(r, Fresh(s, t)) && r.held == k.held && r.owner == k.owner && r.timed == k.timed
            && r.tcb == k.tcb[t := k.tcb[t].(pri := p)]
  {
    hide QueueOk, TaskOk, Leave, Unlink, Ready2Join;
    var q := k.tcb[t].stat.cause.q;
    var k1 := Extracted(k, s, t, p);
    TpriPlace(k1, Stale(Out(s, t), t), q, p);
    Rejoined(k1, s, t, WaitQ(q), EntryPos(k1, q, p));
  }

  /** First half of change_priority: `t` out of its queue, with the new priority in its record. */
  lemma Extracted(k: K, s: Slack, t: TaskId, p: Pri) returns (k1: K)
    requires Inv(k, s) && IsTask(k, t) && t !in s.out && !k.tcb[t].stat.Dormant? && p < TNUM_TPRI
    requires TaskHome(k, t).Some?
    ensures k1 == SetPri(Leave(k, t), t, p) && k1 == Unlink(SetPri(k, t, p), TaskHome(k, t).value, t)
    ensures Inv(k1, Stale(Out(s, t), t)) && Ready2Join(k1, Stale(Out(s, t), t), t)
    ensures k1.cfg == k.cfg && k1.held == k.held && k1.owner == k.owner && k1.timed == k.timed && k1.semcnt == k.semcnt
    ensures k1.tcb == k.tcb[t := k.tcb[t].(pri := p)]
    ensures TaskHome(k, t).value.WaitQ? && IsSem(k.cfg, TaskHome(k, t).value.q) ==> k.semcnt[TaskHome(k, t).value.q] == 0
  {
    assert TaskOk(k, s, t);
    assert QueueOk(k, s, TaskHome(k, t).value);
    LeaveInv(k, s, t);
    StaleInv(Leave(k, t), Out(s, t), t);
    k1 := SetPri(Leave(k, t), t, p);
    OutsideInv(Leave(k, t), Stale(Out(s, t), t), t, k1);
    assert TaskOk(k1, Stale(Out(s, t), t), t);
  }

  /** Second half of change_priority: `t` linked again, its priority up to date. */
  lemma Rejoined(k: K, s: Slack, t: TaskId, h: Home, i: nat)
    requires IsTask(k, t) && t !in s.out && Inv(k, Stale(Out(s, t), t)) && Ready2Join(k, Stale(Out(s, t), t), t)
    requires ValidHome(k.cfg, h) && TaskHome(k, t) == Some(h) && i <= |k.queues[h]|
    requires h.WaitQ? && k.cfg.wobj[h.q].tpri ==>
      forall j :: 0 <= j < |k.queues[h]| ==>
        if j < i then k.tcb[k.queues[h][j]].pri <= k.tcb[t].pri else k.tcb[t].pri <= k.tcb[k.queues[h][j]].pri
    requires h.WaitQ? && IsSem(k.cfg, h.q) ==> k.semcnt[h.q] == 0
    requires k.tcb[t].pri == MinCeiling(k.cfg, k.tcb[t].bpri, k.held[t])
    ensures Members(InsertAt(k.queues[h], i, t), |k.tcb|)
    ensures Inv(SetQ(k, h, InsertAt(k.queues[h], i, t)), Fresh(s, t))
  {
    JoinInv(k, Stale(Out(s, t), t), t, h, i);
    FreshInv(SetQ(k, h, InsertAt(k.queues[h], i, t)), In(Stale(Out(s, t), t), t), t);
    assert Fresh(In(Stale(Out(s, t), t), t), t) == Fresh(s, t);
  }

  /** A task in no priority-ordered queue keeps its place. */
  lemma InPlaceInv(k: K, s: Slack, t: TaskId, p: Pri)
    requires Inv(k, s) && IsTask(k, t) && t !in s.out && p < TNUM_TPRI
    requires !k.tcb[t].stat.Dormant? && !k.tcb[t].stat.Runnable?
    requires k.tcb[t].stat.Waiting? && k.tcb[t].stat.cause.OnQueue? ==> !k.cfg.wobj[k.tcb[t].stat.cause.q].tpri
    requires p == MinCeiling(k.cfg, k.tcb[t].bpri, k.held[t])
    ensures Inv(SetPri(k, t, p), Fresh(s, t))
  {
    hide CfgOk;
    var r := SetPri(k, t, p);
    assert TaskOk(k, s, t);
    var home := TaskHome(k, t);
    if home.Some? {
      assert QueueOk(k, s, home.value);
      var q := k.queues[home.value];
      forall i | 0 <= i < |q| ensures TaskHome(r, q[i]) == home {
        assert r.tcb[q[i]].stat == k.tcb[q[i]].stat;
      }
      assert QueueOk(r, Fresh(s, t), home.value);
    }
    forall h | ValidHome(k.cfg, h) && home != Some(h) ensures t !in k.queues[h] { assert QueueOk(k, s, h); }
    assert TaskOk(r, Fresh(s, t), t);
    OneTask(k, s, r, Fresh(s, t), t, if home.Some? then {home.value} else {});
  }

  /** Changing the base priority within the limits the ceilings set. */
  lemma SetBpriInv(k: K, s: Slack, t: TaskId, b: Pri)
    requires Inv(k, s) && IsTask(k, t) && b < TNUM_TPRI && !k.tcb[t].stat.Dormant?
    requires CeilingsOk(k.cfg, b, k.held[t])
    requires forall m: WobjId :: IsMutex(k.cfg, m) && WaitsOn(k.tcb[t].stat, m) && Ceiling(k.cfg, m).Some? ==>
               Ceiling(k.cfg, m).value <= b
    ensures Inv(SetTcb(k, t, k.tcb[t].(bpri := b)), Stale(s, t))
  {
    assert TaskOk(k, s, t);
    var r := SetTcb(k, t, k.tcb[t].(bpri := b));
    assert TaskHome(r, t) == TaskHome(k, t);
    assert TaskOk(r, Stale(s, t), t);
    RecordInv(k, s, t, k.tcb[t].(bpri := b));
  }

  /** Record fields that decide neither queue nor ownership may change in place. */
  lemma RecordInv(k: K, s: Slack, t: TaskId, r: Tcb)
    requires Inv(k, s) && IsTask(k, t) && TcbShape(k.cfg, r)
    requires r.pri == k.tcb[t].pri
    requires HomeOf(k.cfg, k.cfg.unitOf[t], r) == TaskHome(k, t)
    requires TaskOk(SetTcb(k, t, r), Stale(s, t), t)
    ensures Inv(SetTcb(k, t, r), Stale(s, t))
  {
    var k' := SetTcb(k, t, r);
    var home := TaskHome(k, t);
    if home.Some? {
      assert QueueOk(k, s, home.value);
      var q := k.queues[home.value];
      forall i | 0 <= i < |q| ensures TaskHome(k', q[i]) == home && k'.tcb[q[i]].pri == k.tcb[q[i]].pri {
      }
      assert QueueOk(k', Stale(s, t), home.value);
    }
    forall h | ValidHome(k.cfg, h) && home != Some(h) ensures t !in k.queues[h] { assert QueueOk(k, s, h); }
    OneTask(k, s, k', Stale(s, t), t, if home.Some? then {home.value} else {});
  }

  // ---------------------------------------------------------------- mutexes

  /** A linked task becomes owner; its current priority is recomputed afterwards. */
  lemma OwnLinkedInv(k: K, s: Slack, m: WobjId, t: TaskId)
    requires Inv(k, s) && IsMutex(k.cfg, m) && m in s.free && IsTask(k, t) && t !in s.out && t in s.stale
    requires k.tcb[t].stat.Runnable?
    requires Ceiling(k.cfg, m).Some? ==> Ceiling(k.cfg, m).value <= k.tcb[t].bpri
    ensures Inv(SetHeld(SetOwner(k, m, Some(t)), t, k.held[t] + [m]), Taken(s, m))
  {
    var k' := SetHeld(SetOwner(k, m, Some(t)), t, k.held[t] + [m]);
    var s' := Taken(s, m);
    forall h | ValidHome(k'.cfg, h) ensures QueueOk(k', s', h) { assert QueueOk(k, s, h); }
    forall u | 0 <= u < |k'.tcb| ensures TaskOk(k', s', u) {
      assert TaskOk(k, s, u);
      assert TaskHome(k', u) == TaskHome(k, u);
      forall x: WobjId | IsMutex(k'.cfg, x) && x !in s'.free
        ensures x in k'.held[u] <==> k'.owner[x] == Some(u)
      {
        assert x != m ==> x !in s.free;
        assert m !in k.held[u];
      }
    }
  }

  /** A runnable task becomes owner of a mutex nobody owns; its priority is now due. */
  lemma OwnedInv(k: K, s: Slack, t: TaskId, m: WobjId)
    requires Inv(k, s) && IsTask(k, t) && t !in s.out && k.tcb[t].stat.Runnable?
    requires IsMutex(k.cfg, m) && m !in s.free && k.owner[m] == None
    requires Ceiling(k.cfg, m).Some? ==> Ceiling(k.cfg, m).value <= k.tcb[t].bpri
    ensures Inv(SetHeld(SetOwner(k, m, Some(t)), t, k.held[t] + [m]), Stale(s, t))
    ensures forall u :: 0 <= u < |k.tcb| ==> m !in k.held[u]
  {
    forall u | 0 <= u < |k.tcb| ensures m !in k.held[u] { assert TaskOk(k, s, u); }
    FreeInv(k, s, m);
    StaleInv(k, Free(s, m), t);
    OwnLinkedInv(k, Stale(Free(s, m), t), m, t);
    assert Taken(Stale(Free(s, m), t), m) == Stale(s, t);
  }

  lemma TaskFacts(k: K, s: Slack, t: TaskId)
    requires Inv(k, s) && IsTask(k, t)
    ensures LinkOk(k, s, t) && TimedOk(k, s, t) && ChainOk(k, s, t) && WaitOk(k, s, t) && PriOk(k, s, t)
  {
    assert TaskOk(k, s, t);
  }

  lemma MutexAcquireInv(k: K, s: Slack, t: TaskId, m: WobjId)
    requires Inv(k, s) && IsTask(k, t) && t !in s.out && t !in s.stale && k.tcb[t].stat.Runnable?
    requires IsMutex(k.cfg, m) && m !in s.free && k.owner[m] == None
    requires Ceiling(k.cfg, m).Some? ==> Ceiling(k.cfg, m).value <= k.tcb[t].bpri
    ensures Inv(MutexAcquire(k, t, m), s)
    ensures forall u :: 0 <= u < |k.tcb| ==> MutexAcquire(k, t, m).tcb[u].stat == k.tcb[u].stat
  {
    hide QueueOk, TaskOk, QueueShape, CfgOk, NoDup, MinCeiling, ChangePriority;
    TaskFacts(k, s, t);
    OwnedInv(k, s, t, m);
    var k1 := SetHeld(SetOwner(k, m, Some(t)), t, k.held[t] + [m]);
    MinCeilingPush(k.cfg, k.tcb[t].bpri, k.held[t], m);
    var c := Ceiling(k.cfg, m);
    if c.Some? && c.value < k.tcb[t].pri {
      ChangePriorityInv(k1, Stale(s, t), t, c.value, true);
    } else {
      FreshInv(k1, Stale(s, t), t);
    }
    assert Fresh(Stale(s, t), t) == s;
  }

  /** After `m` has left the chain of `t`, the shortcut finds the right current priority. */
  lemma MutexDropPriorityInv(k: K, s: Slack, t: TaskId, ms: seq<WobjId>, n: nat)
    requires Inv(k, s) && IsTask(k, t) && t !in s.out && !k.tcb[t].stat.Dormant?
    requires n < |ms| && IsMutex(k.cfg, ms[n]) && k.held[t] == ms[..n] + ms[n + 1..]
    requires k.tcb[t].pri == MinCeiling(k.cfg, k.tcb[t].bpri, ms)
    ensures var r := MutexDropPriority(k, t, ms[n]);
            && Inv(r, Fresh(s, t)) && r.held == k.held && r.owner == k.owner
            && forall u :: 0 <= u < |k.tcb| ==> r.tcb[u].stat == k.tcb[u].stat
  {
    hide QueueOk, TaskOk, CfgOk;
    var newpri := MinCeiling(k.cfg, k.tcb[t].bpri, k.held[t]);
    if Ceiling(k.cfg, ms[n]) == Some(k.tcb[t].pri) && newpri != k.tcb[t].pri {
      assert TcbShape(k.cfg, k.tcb[t]);
      ChangePriorityInv(k, s, t, newpri, true);
    } else {
      if Ceiling(k.cfg, ms[n]) != Some(k.tcb[t].pri) {
        MinCeilingDrop(k.cfg, k.tcb[t].bpri, ms, n);
      }
      FreshInv(k, s, t);
    }
  }

  lemma MutexHandOverInv(k: K, s: Slack, m: WobjId, t: TaskId)
    requires Inv(k, s) && IsMutex(k.cfg, m) && m in s.free && IsTask(k, t) && t in s.out
    requires PriOk(k, In(s, t), t) && !k.tcb[t].stat.Dormant?
    requires Ceiling(k.cfg, m).Some? ==> Ceiling(k.cfg, m).value <= k.tcb[t].bpri
    ensures var r := MutexHandOver(k, m, t);
            && Inv(r, Taken(s, m)) && PriOk(r, In(Taken(s, m), t), t)
            && r.timed == k.timed && r.tcb[t].stat == k.tcb[t].stat && r.queues == k.queues
            && forall u :: 0 <= u < |k.tcb| && u != t ==> r.tcb[u] == k.tcb[u] && r.held[u] == k.held[u]
  {
    hide QueueOk, TaskOk, QueueShape, CfgOk;
    OwnInv(k, s, m, t);
    var k1 := SetHeld(SetOwner(k, m, Some(t)), t, k.held[t] + [m]);
    var r := MutexHandOver(k, m, t);
    assert Inv(r, Taken(s, m)) by {
      hide Inv, PriOk;
      OutsideInv(k1, Taken(s, m), t, r);
    }
    HandedPri(k, s, m, t);
  }

  /** The new owner's priority takes the ceiling into account. */
  lemma HandedPri(k: K, s: Slack, m: WobjId, t: TaskId)
    requires Shape(k) && IsMutex(k.cfg, m) && IsTask(k, t) && PriOk(k, In(s, t), t) && !k.tcb[t].stat.Dormant?
    requires Ceiling(k.cfg, m).Some? ==> Ceiling(k.cfg, m).value <= k.tcb[t].bpri
    requires t in s.out
    ensures PriOk(MutexHandOver(k, m, t), In(Taken(s, m), t), t)
  {
    hide QueueShape, TaskShape, CfgOk;
    MinCeilingPush(k.cfg, k.tcb[t].bpri, k.held[t], m);
  }

  /** The first waiter, unlinked, takes the mutex over and stops waiting. */
  lemma WaiterTakesInv(k: K, s: Slack, m: WobjId, t: TaskId)
    requires Inv(k, s) && IsMutex(k.cfg, m) && m in s.free && IsTask(k, t) && t in s.out
    requires PriOk(k, In(s, t), t) && k.tcb[t].stat.Waiting? && (t in k.timed ==> k.tcb[t].stat.tmo)
    requires Ceiling(k.cfg, m).Some? ==> Ceiling(k.cfg, m).value <= k.tcb[t].bpri
    ensures var r := MakeNonWait(MutexHandOver(SetWercd(DequeueTmevtb(k, t), t, E_OK), m, t), t);
            && Inv(r, In(Taken(s, m), t)) && Bystanders(k, r, In(s, t))
            && forall u :: 0 <= u < |k.tcb| && u != t ==> r.held[u] == k.held[u]
  {
    hide QueueOk, TaskOk, QueueShape, CfgOk;
    var k1 := SetWercd(DequeueTmevtb(k, t), t, E_OK);
    OutsideInv(k, s, t, k1);
    MutexHandOverInv(k1, s, m, t);
    MakeNonWaitInv(MutexHandOver(k1, m, t), Taken(s, m), t);
  }

  lemma MutexReleaseInv(k: K, s: Slack, m: WobjId)
    requires Inv(k, s) && IsMutex(k.cfg, m) && m in s.free
    ensures var r := MutexRelease(k, m);
            && Inv(r, Taken(s, m)) && Bystanders(k, r, s)
            && forall u :: 0 <= u < |k.tcb| && (u in s.out || k.tcb[u].stat.Runnable?) ==> r.held[u] == k.held[u]
  {
    hide QueueOk, TaskOk, Leave, MutexHandOver, MakeNonWait, TaskShape, CfgOk;
    if k.queues[WaitQ(m)] == [] {
      DisownInv(k, s, m);
    } else {
      var t := HeadLeaves(k, s, m);
      WaiterTakesInv(Leave(k, t), Out(s, t), m, t);
      assert In(Out(s, t), t) == s && In(Taken(Out(s, t), m), t) == Taken(s, m);
    }
  }

  /** Nothing but its own wait queue and owner entry is changed by releasing a mutex. */
  lemma ReleaseIsLocal(k: K, m: WobjId)
    requires Shape(k) && IsMutex(k.cfg, m)
    ensures var r := MutexRelease(k, m);
            && (forall x: WobjId :: x < |k.owner| && x != m ==> r.owner[x] == k.owner[x] && Q(r, WaitQ(x)) == Q(k, WaitQ(x)))
            && r.owner[m] == if Q(k, WaitQ(m)) == [] then None else Some(Q(k, WaitQ(m))[0])
  {
    hide MutexHandOver, MakeNonWait, DequeueTmevtb, QueueShape, TaskShape, CfgOk;
    var s := Q(k, WaitQ(m));
    if s != [] {
      var k0 := SetQ(k, WaitQ(m), s[1..]);
      WaitParts(k0, s[0]);
      var k1 := SetWercd(DequeueTmevtb(k0, s[0]), s[0], E_OK);
      HandOverIs(k1, m, s[0]);
      var k2 := MutexHandOver(k1, m, s[0]);
      assert k2.owner == k.owner[m := Some(s[0])] && k2.queues == k.queues[WaitQ(m) := s[1..]];
      WaitParts(k2, s[0]);
    }
  }

  lemma HandOverIs(k: K, m: WobjId, t: TaskId)
    requires Shape(k) && IsMutex(k.cfg, m) && IsTask(k, t)
    ensures var r := MutexHandOver(k, m, t);
            Shape(r) && r.cfg == k.cfg && |r.tcb| == |k.tcb| && r.owner == k.owner[m := Some(t)] && r.queues == k.queues
  {
    hide QueueShape;
  }

  /** Ending a wait changes no owner and no wait queue. */
  lemma WaitParts(k: K, t: TaskId)
    requires Shape(k) && IsTask(k, t)
    ensures var r := DequeueTmevtb(k, t); Shape(r) && r.cfg == k.cfg && |r.tcb| == |k.tcb| && r.owner == k.owner && r.queues == k.queues
    ensures var r := MakeNonWait(k, t);
            Shape(r) && r.cfg == k.cfg && r.owner == k.owner && forall x: WobjId :: x < |k.cfg.wobj| ==> Q(r, WaitQ(x)) == Q(k, WaitQ(x))
  {
    hide TaskShape, CfgOk;
  }

  /** One turn of the loop in mutex_release_all. */
  lemma ReleaseLast(k: K, s: Slack, t: TaskId) returns (k2: K)
    requires Inv(k, s) && IsTask(k, t) && t in s.out && t in s.stale && k.held[t] != []
    ensures var ms := k.held[t];
            var m := ms[|ms| - 1];
            && k2 == MutexRelease(PopHeld(k, t), m) && Kept(k, k2) && Inv(k2, s) && Bystanders(k, k2, s)
            && IsMutex(k.cfg, m) && k2.held[t] == ms[..|ms| - 1] && m !in k2.held[t]
            && (forall x: WobjId :: x < |k.owner| && x != m ==> k2.owner[x] == k.owner[x] && Q(k2, WaitQ(x)) == Q(k, WaitQ(x)))
            && k2.owner[m] == if Q(k, WaitQ(m)) == [] then None else Some(Q(k, WaitQ(m))[0])
  {
    hide QueueOk, TaskOk, MutexRelease, QueueShape, CfgOk;
    TaskFacts(k, s, t);
    var ms := k.held[t];
    var m := ms[|ms| - 1];
    assert m in ms && m !in ms[..|ms| - 1];
    var k1 := PopHeld(k, t);
    var s1 := s.(free := s.free + {m}, stale := s.stale + {t});
    PopInv(k, s, t);
    assert Taken(s1, m) == s;
    MutexReleaseInv(k1, s1, m);
    ReleaseIsLocal(k1, m);
    k2 := MutexRelease(k1, m);
  }

  lemma {:induction false} MutexReleaseAllInv(k: K, s: Slack, t: TaskId, n: nat)
    requires Inv(k, s) && IsTask(k, t) && t in s.out && t in s.stale && n >= |k.held[t]|
    ensures var r := MutexReleaseAll(k, t, n);
            Inv(r, s) && r.held[t] == [] && Bystanders(k, r, s)
    decreases n
  {
    hide Inv, MutexRelease, PopHeld, QueueShape, TaskShape, CfgOk;
    InvShape(k, s);
    if n != 0 && k.held[t] != [] {
      var k2 := ReleaseLast(k, s, t);
      MutexReleaseAllInv(k2, s, t, n - 1);
      BystandersTrans(k, k2, MutexReleaseAll(k2, t, n - 1), s);
    }
  }

  // ---------------------------------------------------------------- termination of a task

  lemma TaskOutInv(k: K, t: TaskId, n: nat) returns (k1: K)
    requires Inv(k, TIGHT) && IsTask(k, t) && !k.tcb[t].stat.Dormant?
    ensures k1 == if k.tcb[t].stat.Runnable? then MakeNonRunnable(k, t)
                  else if k.tcb[t].stat.Waiting? then DequeueTmevtb(WaitDequeueWobj(k, t, n), t)
                  else k
    ensures Inv(k1, Stale(Out(TIGHT, t), t)) && t !in k1.timed && Kept(k, k1)
    ensures forall u :: 0 <= u < |k.tcb| && u != t && k.tcb[u].stat.Runnable? ==> k1.tcb[u] == k.tcb[u]
    ensures k1.tcb[t] == k.tcb[t] && k1.held == k.held
  {
    assert TaskOk(k, TIGHT, t);
    if k.tcb[t].stat.Waiting? {
      WaitDequeueWobjInv(k, TIGHT, t, n);
      k1 := DequeueTmevtb(WaitDequeueWobj(k, t, n), t);
      OutsideInv(WaitDequeueWobj(k, t, n), Out(TIGHT, t), t, k1);
    } else {
      LeaveInv(k, TIGHT, t);
      k1 := if k.tcb[t].stat.Runnable? then MakeNonRunnable(k, t) else k;
    }
    StaleInv(k1, Out(TIGHT, t), t);
  }

  lemma TaskTerminateInv(k: K, t: TaskId, n: nat)
    requires Inv(k, TIGHT) && IsTask(k, t) && !k.tcb[t].stat.Dormant?
    ensures Inv(TaskTerminate(k, t, n), TIGHT)
    ensures TaskTerminate(k, t, n).held[t] == []
    ensures forall u :: 0 <= u < |k.tcb| && u != t && k.tcb[u].stat.Runnable? ==>
              TaskTerminate(k, t, n).tcb[u].stat.Runnable?
  {
    hide QueueOk, MutexReleaseAll, TaskShape;
    var s := Stale(Out(TIGHT, t), t);
    var k1 := TaskOutInv(k, t, n);
    MutexReleaseAllInv(k1, s, t, |k1.held[t]|);
    var k2 := MutexReleaseAll(k1, t, |k1.held[t]|);
    var k3 := MakeDormant(k2, t);
    OutsideInv(k2, s, t, k3);
    assert TaskOk(k3, s, t);
    if k3.tcb[t].actque {
      var k4 := SetStat(SetTcb(k3, t, k3.tcb[t].(actque := false)), t, Runnable);
      OutsideInv(k3, s, t, k4);
      MakeRunnableInv(k4, s, t);
      FreshInv(MakeRunnable(k4, t), In(s, t), t);
    } else {
      RestInv(k3, s, t);
      FreshInv(k3, In(s, t), t);
    }
    assert Fresh(In(s, t), t) == TIGHT;
  }
}
