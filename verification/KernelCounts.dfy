/**
 What is conserved over whole runs: the units of a semaphore, the activations of a task and its
 wake-ups, counted by what the calls answered and by whose waits ended.
 */
module KernelCounts {
  import opened Base
  import opened KernelState
  import opened KernelInvariant
  import opened KernelCalls
  import opened KernelRuns
  import opened KernelTheorems
  import opened KernelFairness
  import opened KernelAnswers

  function One(b: bool): nat { if b then 1 else 0 }

  // ---------------------------------------------------------------- calls that leave semaphores alone

  predicate IsSemCall(c: Call) { c.WaiSem? || c.SigSem? || c.IniSem? }

  lemma DispatchCounts(k: K)
    requires Shape(k)
    ensures Dispatch(k).semcnt == k.semcnt && Dispatch(k).queues == k.queues && Dispatch(k).tcb == k.tcb
    ensures Dispatch(k).cfg == k.cfg
  {
  }

  lemma TaskCallCounts(k: K, c: Call)
    requires Shape(k) && Callable(k, c) && IsTaskCall(c)
    ensures TaskStep(k, c).0.semcnt == k.semcnt && TaskStep(k, c).0.cfg == k.cfg
  {
    hide QueueShape, TaskShape, CfgOk, MinCeiling, MutexReleaseAll, MbfSignal, Arguments;
  }

  lemma ObjectCallCounts(k: K, c: Call)
    requires Shape(k) && Callable(k, c) && !IsTaskCall(c)
    ensures ObjectStep(k, c).0.cfg == k.cfg && (!IsSemCall(c) ==> ObjectStep(k, c).0.semcnt == k.semcnt)
  {
    hide QueueShape, TaskShape, CfgOk, MinCeiling, Arguments, MbfSignal, TaskTerminate, MutexRelease, WobjMakeWait;
  }

  // ---------------------------------------------------------------- semaphores

  /** The tasks whose wait for `q` ends between two states. */
  function Leavers(k: K, r: K, q: WobjId): set<TaskId>
    requires |r.tcb| == |k.tcb|
  {
    set t | 0 <= t < |k.tcb| && WaitsOn(k.tcb[t].stat, q) && !WaitsOn(r.tcb[t].stat, q)
  }

  /** The tasks in the queue of `q` are those that wait for it. */
  lemma WaitersAre(k: K, q: WobjId, t: TaskId)
    requires Settled(k) && IsTask(k, t) && q < |k.cfg.wobj|
    ensures t in Q(k, WaitQ(q)) <==> WaitsOn(k.tcb[t].stat, q)
  {
    assert QueueOk(k, TIGHT, WaitQ(q)) && TaskOk(k, TIGHT, t);
    if t in Q(k, WaitQ(q)) {
      var i :| 0 <= i < |Q(k, WaitQ(q))| && Q(k, WaitQ(q))[i] == t;
    }
  }

  lemma StepKeeps(k: K, c: Call)
    requires Settled(k) && Shape(k) && Callable(k, c)
    ensures var r := Step(k, c).0; Settled(r) && Shape(r) && r.cfg == k.cfg && |r.tcb| == |k.tcb|
    ensures !IsSemCall(c) ==> Step(k, c).0.semcnt == k.semcnt
  {
    hide Settled, TaskStep, ObjectStep;
    StepSettled(k, c);
    SettledShape(Step(k, c).0);
    if IsTaskCall(c) { TaskCallCounts(k, c); } else { ObjectCallCounts(k, c); }
  }

  /** What sig_sem does, at its queue and its count. */
  lemma SigSemEffect(k: K, q: WobjId)
    requires Shape(k) && IsSem(k.cfg, q)
    ensures var (r, e) := SigSemStep(k, q);
            var s := Q(k, WaitQ(q));
            && e == (if s == [] && k.semcnt[q] >= k.cfg.wobj[q].kind.maxsem then E_QOVR else E_OK)
            && (e == E_QOVR ==> r == k)
            && r.semcnt == k.semcnt[q := k.semcnt[q] + One(e == E_OK && s == [])]
            && (s == [] ==> r.tcb == k.tcb)
            && (s != [] ==> s[0] < |r.tcb| && r.tcb[s[0]].wercd == E_OK && WaitQ(q) in r.queues && r.queues[WaitQ(q)] == s[1..])
  {
    hide CfgOk, TaskShape;
  }

  /** sig_sem fails iff nobody waits and the count is at its limit, and then does nothing; else it wakes the
      first waiter and nobody else, or counts one up. */
  lemma SigSemAnswers(k: K, q: WobjId)
    requires Settled(k) && Shape(k) && Callable(k, SigSem(q))
    ensures var (r, e) := Step(k, SigSem(q));
            var s := Q(k, WaitQ(q));
            && Shape(r) && |r.tcb| == |k.tcb| && r.cfg == k.cfg
            && (e == E_OK || e == E_QOVR)
            && (e == E_QOVR <==> s == [] && k.semcnt[q] == k.cfg.wobj[q].kind.maxsem)
            && (e == E_QOVR ==> r == k)
            && r.semcnt == k.semcnt[q := k.semcnt[q] + One(e == E_OK && s == [])]
            && Leavers(k, r, q) == (if s == [] then {} else {s[0]})
            && (s != [] ==> s[0] < |k.tcb| && r.tcb[s[0]].wercd == E_OK && Q(r, WaitQ(q)) == s[1..])
  {
    hide SigSemStep, Inv, RunOk, CfgOk, QueueShape, TaskShape;
    SigSemEffect(k, q);
    StepKeeps(k, SigSem(q));
    SemBounded(k, q);
    var (r, e) := Step(k, SigSem(q));
    var s := Q(k, WaitQ(q));
    forall t | 0 <= t < |k.tcb| ensures t in Leavers(k, r, q) <==> s != [] && t == s[0] {
      WaitersAre(k, q, t);
      WaitersAre(r, q, t);
    }
    assert Leavers(k, r, q) == if s == [] then {} else {s[0]};
  }

  lemma SemBounded(k: K, q: WobjId)
    requires Settled(k) && Shape(k) && IsSem(k.cfg, q)
    ensures k.semcnt[q] <= k.cfg.wobj[q].kind.maxsem && NoDup(Q(k, WaitQ(q)))
  {
    assert QueueOk(k, TIGHT, WaitQ(q));
  }

  /** wai_sem and its kin: the caller gets a unit iff there is one, and otherwise waits unless it only polls. */
  lemma WaiSemAnswers(k: K, q: WobjId, tmo: Tmo)
    requires Settled(k) && Shape(k) && Callable(k, WaiSem(q, tmo))
    ensures var t := k.run.value;
            var (r, e) := Step(k, WaiSem(q, tmo));
            && Shape(r) && |r.tcb| == |k.tcb| && r.cfg == k.cfg && IsTask(k, t)
            && (e == E_CTX <==> !k.dsp)
            && (e == E_RASTER <==> k.dsp && k.tcb[t].raster)
            && (k.dsp && !k.tcb[t].raster ==>
                  && (e == E_OK <==> k.semcnt[q] > 0)
                  && (e == E_TMOUT <==> k.semcnt[q] == 0 && tmo.Poll?)
                  && (e == Blocked <==> k.semcnt[q] == 0 && !tmo.Poll?))
            && r.semcnt == (if e == E_OK then k.semcnt[q := k.semcnt[q] - 1] else k.semcnt)
            && r.tcb[t].stat == (if e == Blocked then Waiting(OnQueue(q), false, tmo.Timed?) else k.tcb[t].stat)
  {
    hide Inv, RunOk, CfgOk, QueueShape, TaskShape;
    StepKeeps(k, WaiSem(q, tmo));
    RunnerKnown(k);
  }

  /** ini_sem: the count is the initial one, and nobody waits. */
  lemma IniSemAnswers(k: K, q: WobjId)
    requires Settled(k) && Shape(k) && Callable(k, IniSem(q))
    ensures var (r, e) := Step(k, IniSem(q));
            && Shape(r) && |r.tcb| == |k.tcb| && r.cfg == k.cfg && e == E_OK && Q(r, WaitQ(q)) == []
            && r.semcnt == k.semcnt[q := k.cfg.wobj[q].kind.isemcnt]
            && Leavers(k, r, q) == set t | t in Q(k, WaitQ(q))
  {
    hide Inv, RunOk, CfgOk, QueueShape, TaskShape;
    StepKeeps(k, IniSem(q));
    var (r, e) := Step(k, IniSem(q));
    assert Q(r, WaitQ(q)) == [];
    forall t | 0 <= t < |k.tcb| ensures t in Leavers(k, r, q) <==> t in Q(k, WaitQ(q)) {
      WaitersAre(k, q, t);
      WaitersAre(r, q, t);
    }
  }

  /** How a call changes the count of a semaphore, told from its answer. */
  lemma SemStep(k: K, c: Call, q: WobjId)
    requires Settled(k) && Shape(k) && Callable(k, c) && IsSem(k.cfg, q)
    ensures var (r, e) := Step(k, c);
            && Shape(r) && |r.tcb| == |k.tcb| && r.cfg == k.cfg
            && if c == IniSem(q) then r.semcnt[q] == k.cfg.wobj[q].kind.isemcnt
               else r.semcnt[q] + One(c.WaiSem? && c.q == q && e == E_OK) + (if c == SigSem(q) then |Leavers(k, r, q)| else 0)
                    == k.semcnt[q] + One(c == SigSem(q) && e == E_OK)
  {
    hide Settled, Step, Leavers;
    StepKeeps(k, c);
    match c
    case WaiSem(p, tmo) => WaiSemAnswers(k, p, tmo);
    case SigSem(p) => SigSemAnswers(k, p);
    case IniSem(p) => IniSemAnswers(k, p);
    case _ =>
  }

  // ---------------------------------------------------------------- counting along a run

  /** The answers of the calls numbered from `i` to before `j` are counted. */
  ghost function Signalled(ks: seq<K>, calls: seq<Call>, q: WobjId, i: nat, j: nat): nat
    requires Steps(ks, calls) && j <= |calls|
  {
    if j <= i then 0
    else Signalled(ks, calls, q, i, j - 1) + One(calls[j - 1] == SigSem(q) && Step(ks[j - 1], calls[j - 1]).1 == E_OK)
  }

  ghost function Taken(ks: seq<K>, calls: seq<Call>, q: WobjId, i: nat, j: nat): nat
    requires Steps(ks, calls) && j <= |calls|
  {
    if j <= i then 0
    else Taken(ks, calls, q, i, j - 1)
         + One(calls[j - 1].WaiSem? && calls[j - 1].q == q && Step(ks[j - 1], calls[j - 1]).1 == E_OK)
  }

  /** Waiters woken by sig_sem. */
  ghost function Woken(ks: seq<K>, calls: seq<Call>, q: WobjId, i: nat, j: nat): nat
    requires Steps(ks, calls) && j <= |calls|
  {
    if j <= i then 0
    else Woken(ks, calls, q, i, j - 1) + if calls[j - 1] == SigSem(q) then |Leavers(ks[j - 1], ks[j], q)| else 0
  }

  ghost predicate Steps(ks: seq<K>, calls: seq<Call>) {
    && |ks| == |calls| + 1
    && (forall i :: 0 <= i < |ks| ==> |ks[i].tcb| == |ks[0].tcb|)
    && forall i :: 0 <= i < |calls| ==> Shape(ks[i]) && Callable(ks[i], calls[i]) && ks[i + 1] == Step(ks[i], calls[i]).0
  }

  lemma {:induction false} RunKeeps(c: Cfg, ks: seq<K>, calls: seq<Call>, n: nat)
    requires CfgOk(c) && IsRun(c, ks, calls) && n <= |calls|
    ensures Settled(ks[n]) && Shape(ks[n]) && ks[n].cfg == c && |ks[n].tcb| == |c.unitOf|
  {
    hide Settled, Step;
    RunSettled(c, ks, calls, n);
    SettledShape(ks[n]);
    if n > 0 {
      RunKeeps(c, ks, calls, n - 1);
      StepKeeps(ks[n - 1], calls[n - 1]);
    }
  }

  lemma RunSteps(c: Cfg, ks: seq<K>, calls: seq<Call>)
    requires CfgOk(c) && IsRun(c, ks, calls)
    ensures Steps(ks, calls)
  {
    hide Step, Shape;
    forall n | 0 <= n < |ks| ensures |ks[n].tcb| == |c.unitOf| { RunKeeps(c, ks, calls, n); }
  }

  /** Semaphores conserve their units: from the start or an ini_sem up to the next one, what is there, what
      was taken and what was handed to woken waiters is what was there at first and what was signalled. */
  lemma {:induction false} SemConserved(c: Cfg, ks: seq<K>, calls: seq<Call>, q: WobjId, i: nat, j: nat)
    requires CfgOk(c) && IsRun(c, ks, calls) && Steps(ks, calls) && IsSem(c, q) && i <= j <= |calls|
    requires i == 0 || calls[i - 1] == IniSem(q)
    requires forall n :: i <= n < j ==> calls[n] != IniSem(q)
    ensures q < |ks[j].semcnt|
    ensures ks[j].semcnt[q] + Taken(ks, calls, q, i, j) + Woken(ks, calls, q, i, j)
            == c.wobj[q].kind.isemcnt + Signalled(ks, calls, q, i, j)
    decreases j
  {
    hide Settled, Step, Leavers, Arguments, Callable, CfgOk, TaskShape, QueueShape;
    RunKeeps(c, ks, calls, j);
    if i < j {
      SemConserved(c, ks, calls, q, i, j - 1);
      RunKeeps(c, ks, calls, j - 1);
      SemStep(ks[j - 1], calls[j - 1], q);
    } else if i > 0 {
      RunKeeps(c, ks, calls, i - 1);
      SemStep(ks[i - 1], calls[i - 1], q);
    }
  }

  // ---------------------------------------------------------------- activations and wake-ups

  /** What a call does to the record of `t`, whomever the call is about. */
  lemma RecordAfter(k: K, c: Call, t: TaskId)
    requires Settled(k) && Shape(k) && Callable(k, c) && IsTask(k, t)
    ensures var (r, e) := Step(k, c);
            && Shape(r) && |r.tcb| == |k.tcb|
            && (if t !in About(k, c) then Stays(k.tcb[t], r.tcb[t], CodeOf(c))
                else if IsError(e) then r.tcb[t] == k.tcb[t] else Concerned(k, c, e, t, r.tcb[t]))
  {
    hide Settled, Step, Stays, Concerned, Answered, Fair, About;
    StepKeeps(k, c);
    if t in About(k, c) {
      CallAnswered(k, c, t);
      AnsweredAt(k, c, t);
    } else if c.RotRdq? {
      RotationKeeps(k, c, t);
    } else {
      CallFair(k, c);
      FairElsewhere(k, Step(k, c).0, About(k, c), Moves(k, c), t, CodeOf(c));
    }
  }

  lemma AnsweredAt(k: K, c: Call, t: TaskId)
    requires Shape(k) && Callable(k, c) && IsTask(k, t) && Answered(k, c, t, Step(k, c))
    ensures var (r, e) := Step(k, c);
            |r.tcb| == |k.tcb| && if IsError(e) then r.tcb[t] == k.tcb[t] else Concerned(k, c, e, t, r.tcb[t])
  {
    hide Step, Concerned;
  }

  lemma FairElsewhere(k: K, r: K, rec: set<TaskId>, out: set<TaskId>, t: TaskId, e: Ercd)
    requires Fair(k, r, rec, out, e) && IsTask(k, t) && t !in rec
    ensures |r.tcb| == |k.tcb| && Stays(k.tcb[t], r.tcb[t], e)
  {
    hide Shape, Longer, Shorter, Stays;
  }

  lemma RotationKeeps(k: K, c: Call, t: TaskId)
    requires Shape(k) && Callable(k, c) && c.RotRdq? && IsTask(k, t)
    ensures |Step(k, c).0.tcb| == |k.tcb| && Stays(k.tcb[t], Step(k, c).0.tcb[t], CodeOf(c))
  {
    hide QueueShape, TaskShape, CfgOk;
  }

  /** The object an initialisation is about. */
  function Initialised(c: Call): Option<WobjId> {
    match c
    case IniMtx(m) => Some(m)
    case IniSem(q) => Some(q)
    case ObjInit(q) => Some(q)
    case _ => None
  }

  lemma InitQueue(k: K, c: Call)
    requires Settled(k) && Shape(k) && Callable(k, c) && Initialised(c).Some?
    ensures var q, r := Initialised(c).value, Step(k, c).0; q < |k.cfg.wobj| && WaitQ(q) in r.queues && r.queues[WaitQ(q)] == []
  {
    hide Inv, RunOk, TaskShape, CfgOk, IniMtxStep, Choice;
    match c
    case IniMtx(m) => InitMutexQueue(k, m);
    case _ =>
  }

  lemma InitMutexQueue(k: K, m: WobjId)
    requires Settled(k) && Shape(k) && IsMutex(k.cfg, m)
    ensures var r := IniMtxStep(k, m).0; WaitQ(m) in r.queues && r.queues[WaitQ(m)] == []
  {
    hide QueueOk, RunOk, TaskShape, CfgOk, InitWaitQueue, MutexDropPriority, Choice;
    var k1, o := InitWaitQueue(k, m), k.owner[m];
    if o.Some? {
      OwnerStands(k, m);
      InitLeaves(k, m, o.value);
      RemoveMembersOf(k1.held[o.value], m);
      HeldMutex(k1, o.value);
      var k2 := SetHeld(SetOwner(k1, m, None), o.value, Remove(k1.held[o.value], m));
      DropKept(k2, o.value, m);
    }
  }

  lemma OwnerStands(k: K, m: WobjId)
    requires Settled(k) && Shape(k) && IsMutex(k.cfg, m) && k.owner[m].Some?
    ensures var t := k.owner[m].value; IsTask(k, t) && !WaitsOn(k.tcb[t].stat, m) && t !in Q(k, WaitQ(m))
  {
    hide QueueOk, RunOk;
    assert IsTask(k, k.owner[m].value) && TaskOk(k, TIGHT, k.owner[m].value);
    WaitersAre(k, m, k.owner[m].value);
  }

  lemma HeldMutex(k: K, t: TaskId)
    requires Shape(k) && IsTask(k, t)
    ensures forall m :: m in k.held[t] ==> IsMutex(k.cfg, m)
  {
  }

  /** ini_mtx, ini_sem and the like release everybody who waits, and nobody else. */
  lemma InitReleases(k: K, c: Call)
    requires Settled(k) && Shape(k) && Callable(k, c) && Initialised(c).Some?
    ensures var q, r := Initialised(c).value, Step(k, c).0;
            && Shape(r) && |r.tcb| == |k.tcb| && r.cfg == k.cfg && q < |k.cfg.wobj| && Q(r, WaitQ(q)) == []
            && (forall t {:trigger r.tcb[t]} :: 0 <= t < |k.tcb| ==>
                  if t in Q(k, WaitQ(q)) then !r.tcb[t].stat.Waiting? && r.tcb[t].wercd == E_DLT else r.tcb[t].stat == k.tcb[t].stat)
  {
    hide Inv, RunOk, Step, Stays, CfgOk, QueueShape, TaskShape;
    StepKeeps(k, c);
    InitQueue(k, c);
    var q, r := Initialised(c).value, Step(k, c).0;
    forall t {:trigger r.tcb[t]} | 0 <= t < |k.tcb|
      ensures if t in Q(k, WaitQ(q)) then !r.tcb[t].stat.Waiting? && r.tcb[t].wercd == E_DLT else r.tcb[t].stat == k.tcb[t].stat
    {
      WaitersAre(k, q, t);
      WaitersAre(r, q, t);
      if t in Q(k, WaitQ(q)) { InitEnds(k, c, t); } else { InitSpares(k, c, t); }
    }
  }

  lemma InitEnds(k: K, c: Call, t: TaskId)
    requires Settled(k) && Shape(k) && Callable(k, c) && Initialised(c).Some? && IsTask(k, t)
    requires WaitsOn(k.tcb[t].stat, Initialised(c).value)
    requires |Step(k, c).0.tcb| == |k.tcb| && !WaitsOn(Step(k, c).0.tcb[t].stat, Initialised(c).value)
    ensures var b := Step(k, c).0.tcb[t]; !b.stat.Waiting? && b.wercd == E_DLT
  {
    hide Settled, Step, Shape;
    RecordAfter(k, c, t);
  }

  lemma InitSpares(k: K, c: Call, t: TaskId)
    requires Shape(k) && Callable(k, c) && Initialised(c).Some? && IsTask(k, t) && t !in Q(k, WaitQ(Initialised(c).value))
    ensures |Step(k, c).0.tcb| == |k.tcb| && Step(k, c).0.tcb[t].stat == k.tcb[t].stat
  {
    hide InitWaitQueue, MutexDropPriority, QueueShape, TaskShape, CfgOk;
    InitLeaves(k, Initialised(c).value, t);
    match c
    case IniMtx(m) => IniMtxSpares(k, m, t);
    case _ =>
  }

  lemma IniMtxSpares(k: K, m: WobjId, t: TaskId)
    requires Shape(k) && IsMutex(k.cfg, m) && IsTask(k, t) && t !in Q(k, WaitQ(m))
    ensures var r := IniMtxStep(k, m).0; |r.tcb| == |k.tcb| && r.tcb[t].stat == k.tcb[t].stat
  {
    hide InitWaitQueue, ChangePriority, QueueShape;
    InitLeaves(k, m, t);
    var k1, o := InitWaitQueue(k, m), k.owner[m];
    if o.Some? {
      RemoveMembersOf(k1.held[o.value], m);
      var k2 := SetHeld(SetOwner(k1, m, None), o.value, Remove(k1.held[o.value], m));
      PriorityRecord(k2, o.value, MinCeiling(k.cfg, k2.tcb[o.value].bpri, k2.held[o.value]), true);
    }
  }

  /** The task starts: it was dormant and is not, or it ended and was started again. */
  function Starts(k: K, c: Call, e: Ercd, r: K, t: TaskId): nat
    requires IsTask(k, t) && IsTask(r, t)
  {
    One((k.tcb[t].stat.Dormant? || Terminates(k, c, e, t)) && !r.tcb[t].stat.Dormant?)
  }

  lemma RunnerAwake(k: K, c: Call, t: TaskId)
    requires Settled(k) && Shape(k) && Callable(k, c) && IsTask(k, t)
    ensures k.run == Some(t) ==> k.tcb[t].stat.Runnable?
    ensures c.Timeout? && c.t == t ==> k.tcb[t].stat.Waiting?
  {
    assert TaskOk(k, TIGHT, t);
  }

  /** The activations of `t` balance. */
  ghost predicate ActivationsBalance(k: K, c: Call, e: Ercd, r: K, t: TaskId)
    requires IsTask(k, t) && IsTask(r, t)
  {
    One(r.tcb[t].actque) + Starts(k, c, e, r, t) + (if c == CanAct(t) && e == E_OK then One(k.tcb[t].actque) else 0)
      == One(k.tcb[t].actque) + One(c == ActTsk(t) && e == E_OK)
  }

  /** The wake-ups of `t` balance. */
  ghost predicate WakeupsBalance(k: K, c: Call, e: Ercd, r: K, t: TaskId)
    requires IsTask(k, t) && IsTask(r, t)
  {
    One(r.tcb[t].wupque) + WakeupsUsed(k, c, e, r, t) + WakeupsDropped(k, c, e, t)
      == One(k.tcb[t].wupque) + One(c == WupTsk(t) && e == E_OK)
  }

  lemma BalanceAway(k: K, c: Call, e: Ercd, r: K, t: TaskId)
    requires Shape(k) && Callable(k, c) && IsTask(k, t) && IsTask(r, t) && t !in About(k, c)
    requires Stays(k.tcb[t], r.tcb[t], CodeOf(c))
    ensures ActivationsBalance(k, c, e, r, t) && WakeupsBalance(k, c, e, r, t)
  {
    hide Shape;
  }

  lemma ActivationsAt(k: K, c: Call, e: Ercd, r: K, t: TaskId)
    requires Shape(k) && Callable(k, c) && IsTask(k, t) && IsTask(r, t) && t in About(k, c) && Kind(c, e)
    requires k.run == Some(t) ==> k.tcb[t].stat.Runnable?
    requires c.Timeout? && c.t == t ==> k.tcb[t].stat.Waiting?
    requires if IsError(e) then r.tcb[t] == k.tcb[t] else Concerned(k, c, e, t, r.tcb[t])
    ensures ActivationsBalance(k, c, e, r, t)
  {
    hide Shape, Arguments;
  }

  lemma WakeupsAt(k: K, c: Call, e: Ercd, r: K, t: TaskId)
    requires Shape(k) && Callable(k, c) && IsTask(k, t) && IsTask(r, t) && t in About(k, c) && Kind(c, e)
    requires k.run == Some(t) ==> k.tcb[t].stat.Runnable?
    requires c.Timeout? && c.t == t ==> k.tcb[t].stat.Waiting?
    requires if IsError(e) then r.tcb[t] == k.tcb[t] else Concerned(k, c, e, t, r.tcb[t])
    ensures WakeupsBalance(k, c, e, r, t)
  {
    hide Shape, Arguments;
  }

  /** One call's activations: each is queued, starts the task, or is cancelled. One call's wake-ups: each is
      queued, ends a sleep, spares one, is cancelled, or is lost with the task. */
  lemma BalanceStep(k: K, c: Call, t: TaskId)
    requires Settled(k) && Shape(k) && Callable(k, c) && IsTask(k, t)
    ensures var (r, e) := Step(k, c); Shape(r) && IsTask(r, t) && ActivationsBalance(k, c, e, r, t) && WakeupsBalance(k, c, e, r, t)
  {
    hide Settled, Step, Shape, Concerned, Stays, Kind, ActivationsBalance, WakeupsBalance;
    RecordAfter(k, c, t);
    RunnerAwake(k, c, t);
    ErrorChangesNothing(k, c);
    var (r, e) := Step(k, c);
    if t in About(k, c) {
      ActivationsAt(k, c, e, r, t);
      WakeupsAt(k, c, e, r, t);
    } else {
      BalanceAway(k, c, e, r, t);
    }
  }

  predicate Sleeps(a: Tcb) { a.stat.Waiting? && a.stat.cause.Sleeping? }

  /** A sleep that wup_tsk ends, or that slp_tsk need not begin. */
  function WakeupsUsed(k: K, c: Call, e: Ercd, r: K, t: TaskId): nat
    requires IsTask(k, t) && IsTask(r, t)
  {
    One(c == WupTsk(t) && Sleeps(k.tcb[t]) && !Sleeps(r.tcb[t])) + One(c.SlpTsk? && k.run == Some(t) && e == E_OK)
  }

  /** Queued wake-ups that can_wup or the end of the task takes away. */
  function WakeupsDropped(k: K, c: Call, e: Ercd, t: TaskId): nat
    requires IsTask(k, t)
  {
    if (c == CanWup(t) && e == E_OK) || Terminates(k, c, e, t) then One(k.tcb[t].wupque) else 0
  }

  // ---------------------------------------------------------------- along a run

  /** How many of the first `n` calls were act_tsk of `t` answered E_OK. */
  ghost function Activated(ks: seq<K>, calls: seq<Call>, t: TaskId, n: nat): nat
    requires Steps(ks, calls) && n <= |calls| && t < |ks[0].tcb|
  {
    if n == 0 then 0
    else Activated(ks, calls, t, n - 1) + One(calls[n - 1] == ActTsk(t) && Step(ks[n - 1], calls[n - 1]).1 == E_OK)
  }

  /** How often `t` was started by them. */
  ghost function Started(ks: seq<K>, calls: seq<Call>, t: TaskId, n: nat): nat
    requires Steps(ks, calls) && n <= |calls| && t < |ks[0].tcb|
  {
    if n == 0 then 0
    else Started(ks, calls, t, n - 1) + Starts(ks[n - 1], calls[n - 1], Step(ks[n - 1], calls[n - 1]).1, ks[n], t)
  }

  /** How many queued activations can_act took away. */
  ghost function Cancelled(ks: seq<K>, calls: seq<Call>, t: TaskId, n: nat): nat
    requires Steps(ks, calls) && n <= |calls| && t < |ks[0].tcb|
  {
    if n == 0 then 0
    else Cancelled(ks, calls, t, n - 1)
         + if calls[n - 1] == CanAct(t) && Step(ks[n - 1], calls[n - 1]).1 == E_OK then One(ks[n - 1].tcb[t].actque) else 0
  }

  /** No activation is lost and none is made up: in every run each one accepted has started the task, was
      cancelled, or is queued. */
  lemma {:induction false} ActivationsConserved(c: Cfg, ks: seq<K>, calls: seq<Call>, t: TaskId, n: nat)
    requires CfgOk(c) && IsRun(c, ks, calls) && Steps(ks, calls) && t < |ks[0].tcb| && n <= |calls|
    ensures Activated(ks, calls, t, n) == Started(ks, calls, t, n) + Cancelled(ks, calls, t, n) + One(ks[n].tcb[t].actque)
  {
    hide Settled, Step, Shape, Starts, Terminates;
    if n > 0 {
      ActivationsConserved(c, ks, calls, t, n - 1);
      RunKeeps(c, ks, calls, n - 1);
      BalanceStep(ks[n - 1], calls[n - 1], t);
    }
  }

  ghost function Wakeups(ks: seq<K>, calls: seq<Call>, t: TaskId, n: nat): nat
    requires Steps(ks, calls) && n <= |calls| && t < |ks[0].tcb|
  {
    if n == 0 then 0
    else Wakeups(ks, calls, t, n - 1) + One(calls[n - 1] == WupTsk(t) && Step(ks[n - 1], calls[n - 1]).1 == E_OK)
  }

  ghost function Used(ks: seq<K>, calls: seq<Call>, t: TaskId, n: nat): nat
    requires Steps(ks, calls) && n <= |calls| && t < |ks[0].tcb|
  {
    if n == 0 then 0
    else Used(ks, calls, t, n - 1) + WakeupsUsed(ks[n - 1], calls[n - 1], Step(ks[n - 1], calls[n - 1]).1, ks[n], t)
  }

  ghost function Dropped(ks: seq<K>, calls: seq<Call>, t: TaskId, n: nat): nat
    requires Steps(ks, calls) && n <= |calls| && t < |ks[0].tcb|
  {
    if n == 0 then 0
    else Dropped(ks, calls, t, n - 1) + WakeupsDropped(ks[n - 1], calls[n - 1], Step(ks[n - 1], calls[n - 1]).1, t)
  }

  /** In every run each wake-up accepted has ended a sleep or spared one, was cancelled by can_wup or the end
      of the task, or is queued. */
  lemma {:induction false} WakeupsConserved(c: Cfg, ks: seq<K>, calls: seq<Call>, t: TaskId, n: nat)
    requires CfgOk(c) && IsRun(c, ks, calls) && Steps(ks, calls) && t < |ks[0].tcb| && n <= |calls|
    ensures Wakeups(ks, calls, t, n) == Used(ks, calls, t, n) + Dropped(ks, calls, t, n) + One(ks[n].tcb[t].wupque)
  {
    hide Settled, Step, Shape, WakeupsUsed, WakeupsDropped;
    if n > 0 {
      WakeupsConserved(c, ks, calls, t, n - 1);
      RunKeeps(c, ks, calls, n - 1);
      BalanceStep(ks[n - 1], calls[n - 1], t);
    }
  }

  /** Nobody sleeps while a wake-up is queued for him, and a dormant task is as good as new. */
  predicate Tidy(a: Tcb) {
    && (Sleeps(a) ==> !a.wupque)
    && (a.stat.Dormant? ==> !a.actque && !a.wupque && !a.raster && a.enater)
  }

  /** In every run every task is tidy. */
  lemma {:induction false} AlwaysTidy(c: Cfg, ks: seq<K>, calls: seq<Call>, t: TaskId, n: nat)
    requires CfgOk(c) && IsRun(c, ks, calls) && Steps(ks, calls) && t < |ks[0].tcb| && n <= |calls|
    ensures Tidy(ks[n].tcb[t])
  {
    hide Settled, Step, Shape, Concerned, Stays, Tidy;
    if n == 0 {
      TidyFirst(c, t);
    } else {
      AlwaysTidy(c, ks, calls, t, n - 1);
      RunKeeps(c, ks, calls, n - 1);
      var k, d := ks[n - 1], calls[n - 1];
      RecordAfter(k, d, t);
      RunnerAwake(k, d, t);
      ErrorChangesNothing(k, d);
      if t in About(k, d) {
        if !IsError(Step(k, d).1) { TidyConcerned(k, d, Step(k, d).1, t, ks[n].tcb[t]); }
      } else {
        TidyStays(k.tcb[t], ks[n].tcb[t], CodeOf(d));
      }
    }
  }

  lemma TidyFirst(c: Cfg, t: TaskId)
    requires CfgOk(c) && t < |Initial(c).tcb|
    ensures Tidy(Initial(c).tcb[t])
  {
  }

  lemma TidyConcerned(k: K, c: Call, e: Ercd, t: TaskId, b: Tcb)
    requires Shape(k) && Callable(k, c) && IsTask(k, t) && t in About(k, c) && Concerned(k, c, e, t, b) && Tidy(k.tcb[t])
    requires k.run == Some(t) ==> k.tcb[t].stat.Runnable?
    requires c.Timeout? && c.t == t ==> k.tcb[t].stat.Waiting?
    ensures Tidy(b)
  {
    hide Shape;
  }

  lemma TidyStays(a: Tcb, b: Tcb, e: Ercd)
    requires Stays(a, b, e) && Tidy(a)
    ensures Tidy(b)
  {
  }

  // ---------------------------------------------------------------- a task's life

  /** What a task finds whose wait a call ends. */
  function ResultOf(c: Call, a: Tcb, t: TaskId): Ercd {
    match c
    case RelWai(u, _) => if u == t then E_RLWAI else E_OK
    case RasTer(u, _) => if u == t then E_RASTER else E_OK
    case Timeout(u, _) => if u != t || (a.stat.Waiting? && a.stat.cause.Delayed?) then E_OK else E_TMOUT
    case IniMtx(_) => E_DLT
    case IniSem(_) => E_DLT
    case ObjInit(_) => E_DLT
    case _ => E_OK
  }

  /** The states a task can go to from where it is, and by which answer. */
  ghost predicate Lives(k: K, c: Call, e: Ercd, t: TaskId, a: Tcb, b: Tcb)
    requires IsTask(k, t)
  {
    if Terminates(k, c, e, t) then b.stat == if a.actque then Runnable else Dormant
    else match a.stat
      case Dormant => b.stat == if c == ActTsk(t) && e == E_OK then Runnable else Dormant
      case Runnable =>
        && (b.stat.Waiting? <==> k.run == Some(t) && e == Blocked) && (b.stat.Suspended? <==> c == SusTsk(t) && e == E_OK)
        && !b.stat.Dormant? && (b.stat.Waiting? ==> !b.stat.susp)
      case Suspended =>
        b.stat == if (c == RsmTsk(t) || (c.RasTer? && c.t == t)) && e == E_OK then Runnable else Suspended
      case Waiting(cause, susp, tmo) =>
        if b.stat.Waiting? then
          && b.stat == a.stat.(susp := b.stat.susp)
          && b.stat.susp == (if e != E_OK then susp else if c == SusTsk(t) then true else if c == RsmTsk(t) then false else susp)
        else b.stat == (if susp && !(c.RasTer? && c.t == t) then Suspended else Runnable) && b.wercd == ResultOf(c, a, t)
  }

  lemma LivesAway(k: K, c: Call, e: Ercd, t: TaskId, b: Tcb)
    requires Shape(k) && Callable(k, c) && IsTask(k, t) && t !in About(k, c) && Stays(k.tcb[t], b, CodeOf(c)) && Kind(c, e)
    ensures Lives(k, c, e, t, k.tcb[t], b)
  {
    hide Shape, Arguments;
  }

  lemma LivesAt(k: K, c: Call, e: Ercd, t: TaskId, b: Tcb)
    requires Shape(k) && Callable(k, c) && IsTask(k, t) && t in About(k, c) && Kind(c, e)
    requires k.run == Some(t) ==> k.tcb[t].stat.Runnable?
    requires c.Timeout? && c.t == t ==> k.tcb[t].stat.Waiting?
    requires if IsError(e) then b == k.tcb[t] else Concerned(k, c, e, t, b)
    ensures Lives(k, c, e, t, k.tcb[t], b)
  {
    hide Shape;
  }

  /** Whatever is called, every task lives by the rules: from each state it goes where, and only where, the
      call and its answer say, and a wait that is over has the result of what ended it. */
  lemma LifeCycle(k: K, c: Call, t: TaskId)
    requires Settled(k) && Shape(k) && Callable(k, c) && IsTask(k, t)
    ensures var (r, e) := Step(k, c); Shape(r) && IsTask(r, t) && Lives(k, c, e, t, k.tcb[t], r.tcb[t])
  {
    hide Settled, Step, Shape, Concerned, Stays, Kind, Lives;
    RecordAfter(k, c, t);
    RunnerAwake(k, c, t);
    ErrorChangesNothing(k, c);
    var (r, e) := Step(k, c);
    if t in About(k, c) { LivesAt(k, c, e, t, r.tcb[t]); } else { LivesAway(k, c, e, t, r.tcb[t]); }
  }
}
