/**
 Where a task stands in its queue after the call that put it there.
 */
module KernelPlaces {
  import opened Base
  import opened KernelState
  import opened KernelInvariant
  import opened KernelCalls
  import opened KernelRuns
  import opened KernelFairness
  import opened KernelAnswers
  import opened KernelCounts

  /** A newcomer of priority `p` belongs at `i`: last, or in order of priority behind its equals. */
  ghost predicate PlaceFor(tcb: seq<Tcb>, s: seq<TaskId>, i: nat, p: Pri, tpri: bool)
    requires Members(s, |tcb|)
  {
    i <= |s| && if tpri then forall j :: 0 <= j < |s| ==> (j < i <==> tcb[s[j]].pri <= p) else i == |s|
  }

  lemma EntryPlace(k: K, q: WobjId, p: Pri)
    requires Shape(k) && q < |k.cfg.wobj| && (k.cfg.wobj[q].tpri ==> Sorted(k.tcb, Q(k, WaitQ(q))))
    ensures PlaceFor(k.tcb, Q(k, WaitQ(q)), EntryPos(k, q, p), p, k.cfg.wobj[q].tpri)
  {
    hide QueueShape, TaskShape, CfgOk;
  }

  /** The caller of a call that blocks on an object joins its queue there. */
  lemma JoinsAt(k: K, t: TaskId, q: WobjId, tmo: bool) returns (i: nat)
    requires Settled(k) && IsTask(k, t) && q < |k.cfg.wobj|
    ensures var s, r := Q(k, WaitQ(q)), WobjMakeWait(k, t, q, tmo);
            PlaceFor(k.tcb, s, i, k.tcb[t].pri, k.cfg.wobj[q].tpri) && Q(r, WaitQ(q)) == s[..i] + [t] + s[i..]
  {
    hide TaskOk, RunOk, TaskShape, CfgOk, NoDup, Sorted;
    assert QueueOk(k, TIGHT, WaitQ(q));
    var k1 := MakeWait(k, t, OnQueue(q), tmo);
    i := EntryPos(k1, q, k1.tcb[t].pri);
    WaitingSame(k, t, q, tmo);
    EntryPlace(k1, q, k1.tcb[t].pri);
  }

  lemma WaitingSame(k: K, t: TaskId, q: WobjId, tmo: bool)
    requires Settled(k) && IsTask(k, t) && q < |k.cfg.wobj|
    ensures var k1 := MakeWait(k, t, OnQueue(q), tmo);
            && k1.cfg == k.cfg && |k1.tcb| == |k.tcb| && Q(k1, WaitQ(q)) == Q(k, WaitQ(q))
            && (forall u :: 0 <= u < |k.tcb| ==> k1.tcb[u].pri == k.tcb[u].pri)
            && (k.cfg.wobj[q].tpri ==> Sorted(k1.tcb, Q(k1, WaitQ(q))))
  {
    assert QueueOk(k, TIGHT, WaitQ(q));
  }

  /** The wait queue a blocking call joins. */
  function Joined(c: Call): Option<WobjId> {
    match c
    case WaiSem(q, _) => Some(q)
    case ObjWait(q, _) => Some(q)
    case LocMtx(m, _) => Some(m)
    case _ => None
  }

  function TimeoutOf(c: Call): Tmo {
    match c
    case WaiSem(_, tmo) => tmo
    case ObjWait(_, tmo) => tmo
    case LocMtx(_, tmo) => tmo
    case _ => Poll
  }

  /** A call that blocks on an object puts its caller last, or in order of priority behind its equals. */
  lemma BlockedPlace(k: K, c: Call) returns (i: nat)
    requires Settled(k) && Shape(k) && Callable(k, c) && Joined(c).Some? && Step(k, c).1 == Blocked
    ensures var t, q, r := k.run.value, Joined(c).value, Step(k, c).0;
            && Shape(r) && r.cfg == k.cfg && IsTask(k, t) && q < |k.cfg.wobj|
            && var s := Q(k, WaitQ(q));
               PlaceFor(k.tcb, s, i, k.tcb[t].pri, k.cfg.wobj[q].tpri) && Q(r, WaitQ(q)) == s[..i] + [t] + s[i..]
  {
    hide Inv, RunOk, WobjMakeWait, QueueShape, TaskShape, CfgOk, Choice, MutexAcquire;
    RunnerKnown(k);
    StepKeeps(k, c);
    i := JoinsAt(k, k.run.value, Joined(c).value, TimeoutOf(c).Timed?);
    match c
    case WaiSem(_, _) =>
    case ObjWait(_, _) =>
    case LocMtx(_, _) =>
  }

  // ---------------------------------------------------------------- changes of priority

  /** A runnable task whose priority changes comes behind its new equals, or in front of them in the mode that
      the mutexes use. */
  lemma MovedTo(k: K, t: TaskId, p: Pri, mtxmode: bool)
    requires Shape(k) && IsTask(k, t) && p < TNUM_TPRI && k.tcb[t].stat.Runnable?
    ensures ValidHome(k.cfg, ReadyQ(k, t, p))
    ensures var r, h := ChangePriority(k, t, p, mtxmode), ReadyQ(k, t, p);
            && Shape(r) && r.cfg == k.cfg && r.tcb == k.tcb[t := k.tcb[t].(pri := p)]
            && var others := if k.tcb[t].pri == p then Remove(Q(k, h), t) else Q(k, h);
               Q(r, h) == if mtxmode then [t] + others else others + [t]
  {
    hide TaskShape;
  }

  /** chg_pri: a runnable task comes behind all others of its new priority, unless a ceiling it holds decides. */
  lemma ChgPriBehind(k: K, t: TaskId, newpri: Option<Pri>)
    requires Settled(k) && Shape(k) && Callable(k, ChgPri(t, newpri)) && Step(k, ChgPri(t, newpri)).1 == E_OK
    requires k.tcb[t].stat.Runnable? && forall m: WobjId :: IsMutex(k.cfg, m) && k.owner[m] == Some(t) ==> Ceiling(k.cfg, m) == None
    ensures var p, r := (if newpri.Some? then newpri.value else k.cfg.ipri[t]), Step(k, ChgPri(t, newpri)).0;
            && Shape(r) && r.cfg == k.cfg && p < TNUM_TPRI && ValidHome(k.cfg, ReadyQ(k, t, p)) && r.tcb == k.tcb[t := k.tcb[t].(bpri := p, pri := p)]
            && Q(r, ReadyQ(k, t, p)) == (if k.tcb[t].pri == p then Remove(Q(k, ReadyQ(k, t, p)), t) else Q(k, ReadyQ(k, t, p))) + [t]
  {
    hide Inv, RunOk, ChangePriority, Choice, CheckCeilpri, QueueShape;
    StepKeeps(k, ChgPri(t, newpri));
    NoCeilingHeld(k, t);
    var p := if newpri.Some? then newpri.value else k.cfg.ipri[t];
    MovedTo(SetTcb(k, t, k.tcb[t].(bpri := p)), t, p, false);
  }

  lemma NoCeilingHeld(k: K, t: TaskId)
    requires Settled(k) && Shape(k) && IsTask(k, t)
    requires forall m: WobjId :: IsMutex(k.cfg, m) && k.owner[m] == Some(t) ==> Ceiling(k.cfg, m) == None
    ensures !ScanCeilmtx(k, t)
  {
    assert TaskOk(k, TIGHT, t);
  }

  /** unl_mtx: if its priority drops, the caller stands first among its new equals: it was running. */
  lemma UnlockInFront(k: K, m: WobjId)
    requires Settled(k) && Shape(k) && Callable(k, UnlMtx(m)) && Step(k, UnlMtx(m)).1 == E_OK
    ensures var t, r := k.run.value, Step(k, UnlMtx(m)).0;
            && Shape(r) && r.cfg == k.cfg && IsTask(k, t) && IsTask(r, t)
            && (r.tcb[t].pri != k.tcb[t].pri ==> ValidHome(r.cfg, ReadyQ(r, t, r.tcb[t].pri)) && IsFirst(Q(r, ReadyQ(r, t, r.tcb[t].pri)), t))
  {
    hide Inv, RunOk, MutexDropPriority, MutexRelease, Choice, QueueShape, CfgOk;
    RunnerKnown(k);
    StepKeeps(k, UnlMtx(m));
    var t := k.run.value;
    var k1 := PopHeld(k, t);
    DroppedFirst(k1, t, m);
    var k2 := MutexDropPriority(k1, t, m);
    WaitersAre(k, m, t);
    DropKeeps(k1, t, m);
    ReadyThere(k2, t, k2.tcb[t].pri);
    OthersBehind(k2, m, t, ReadyQ(k2, t, k2.tcb[t].pri));
  }

  lemma DropKeeps(k: K, t: TaskId, m: WobjId)
    requires Shape(k) && IsTask(k, t) && IsMutex(k.cfg, m) && k.tcb[t].stat.Runnable?
    ensures Q(MutexDropPriority(k, t, m), WaitQ(m)) == Q(k, WaitQ(m))
  {
    hide TaskShape, CfgOk;
  }

  predicate IsFirst(s: seq<TaskId>, t: TaskId) { s != [] && s[0] == t }

  lemma DroppedFirst(k: K, t: TaskId, m: WobjId)
    requires Shape(k) && IsTask(k, t) && IsMutex(k.cfg, m) && k.tcb[t].stat.Runnable?
    ensures var r := MutexDropPriority(k, t, m);
            && Shape(r) && r.cfg == k.cfg && |r.tcb| == |k.tcb| && r.tcb[t].stat.Runnable?
            && (r.tcb[t].pri != k.tcb[t].pri ==> ValidHome(r.cfg, ReadyQ(r, t, r.tcb[t].pri)) && IsFirst(Q(r, ReadyQ(r, t, r.tcb[t].pri)), t))
  {
    hide ChangePriority, QueueShape, CfgOk;
    var p := MinCeiling(k.cfg, k.tcb[t].bpri, k.held[t]);
    MovedTo(k, t, p, true);
  }

  /** Releasing a mutex changes nothing for whom it does not go to, and only adds behind those who are runnable. */
  lemma OthersBehind(k: K, m: WobjId, t: TaskId, h: Home)
    requires Shape(k) && IsMutex(k.cfg, m) && IsTask(k, t) && t !in Q(k, WaitQ(m)) && h.Ready? && ValidHome(k.cfg, h)
    ensures var r := MutexRelease(k, m); Shape(r) && r.cfg == k.cfg && IsTask(r, t) && r.tcb[t] == k.tcb[t] && Q(k, h) <= Q(r, h)
  {
    hide MutexHandOver, MakeNonWait, DequeueTmevtb, TaskShape, CfgOk;
    var s := Q(k, WaitQ(m));
    if s != [] {
      assert s[0] in s;
      var k0 := SetQ(k, WaitQ(m), s[1..]);
      MarkedRecord(k0, s[0], E_OK);
      var k1 := SetWercd(DequeueTmevtb(k0, s[0]), s[0], E_OK);
      HandOverRecord(k1, m, s[0]);
      NonWaitBehind(MutexHandOver(k1, m, s[0]), s[0], h);
    }
  }

  lemma NonWaitBehind(k: K, t: TaskId, h: Home)
    requires Shape(k) && IsTask(k, t) && h.Ready? && ValidHome(k.cfg, h)
    ensures var r := MakeNonWait(k, t);
            Shape(r) && r.cfg == k.cfg && |r.tcb| == |k.tcb| && (forall u :: 0 <= u < |k.tcb| && u != t ==> r.tcb[u] == k.tcb[u]) && Q(k, h) <= Q(r, h)
  {
    hide TaskShape, CfgOk;
  }

  // ---------------------------------------------------------------- waking and rotating

  /** The call that serves a waiting task ends the wait of just this one, and takes just this one out. */
  lemma WakesJust(k: K, q: WobjId, i: nat)
    requires Settled(k) && Shape(k) && Callable(k, ObjWake(q, i)) && i < |Q(k, WaitQ(q))|
    ensures var s, r := Q(k, WaitQ(q)), Step(k, ObjWake(q, i)).0;
            && Shape(r) && r.cfg == k.cfg && |r.tcb| == |k.tcb| && IsTask(k, s[i])
            && r.tcb == k.tcb[s[i] := Released(k.tcb[s[i]], E_OK)] && Q(r, WaitQ(q)) == s[..i] + s[i + 1..]
  {
    hide Inv, RunOk, WaitEnd, Choice, TaskShape, CfgOk, NoDup;
    StepKeeps(k, ObjWake(q, i));
    var s := Q(k, WaitQ(q));
    assert s[i] in s;
    SettledLined(k);
    RemovedAt(s, i);
    UnlinkedRecord(k, s[i], q);
    EndRecord(Unlink(k, WaitQ(q), s[i]), s[i], E_OK);
  }

  lemma RemovedAt(s: seq<TaskId>, i: nat)
    requires NoDup(s) && i < |s|
    ensures Remove(s, s[i]) == s[..i] + s[i + 1..]
  {
    var j := RemoveCuts(s, s[i]);
  }

  /** rot_rdq: the first of the level comes behind all others of it, and nothing else moves. */
  lemma RotatesOnce(k: K, p: Pri, u: UnitId)
    requires Settled(k) && Shape(k) && Callable(k, RotRdq(p, u))
    ensures var (r, e) := Step(k, RotRdq(p, u));
            && Shape(r) && r.cfg == k.cfg && r.tcb == k.tcb && e == E_OK && p < TNUM_TPRI && u < k.cfg.units
            && (forall h {:trigger r.queues[h]} :: ValidHome(k.cfg, h) && h != Ready(u, p) ==> r.queues[h] == k.queues[h])
            && |Q(r, Ready(u, p))| == |Q(k, Ready(u, p))|
            && forall i :: 0 <= i < |Q(k, Ready(u, p))| ==>
                 Q(r, Ready(u, p))[i] == if i + 1 < |Q(k, Ready(u, p))| then Q(k, Ready(u, p))[i + 1] else Q(k, Ready(u, p))[0]
  {
    hide Inv, RunOk, Choice, TaskShape, CfgOk;
    StepKeeps(k, RotRdq(p, u));
    RotateOnce(k, p, u);
  }
}
