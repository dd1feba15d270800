/**
 The kernel as the source keeps it: control blocks and queues updated in place, the priority bitmaps
 and best tasks as caches, mutex chains as pointers. Every method is proved against the abstract
 kernel of KernelState and KernelCalls.
 */
module KernelObject {
  import opened Base
  import opened Bitmap
  import opened KernelState
  import opened KernelInvariant
  import opened KernelProofs
  import opened KernelCalls
  import opened KernelRuns
  import opened KernelTheorems
  import opened ReadyCaches

  /** The pointer chain `last`, `prev[last]`, ... lists `ms` from its end. */
  ghost predicate ChainAt(last: Option<WobjId>, prev: seq<Option<WobjId>>, ms: seq<WobjId>) {
    && last == LastOf(ms, |ms|)
    && (forall i :: 0 <= i < |ms| ==> ms[i] < |prev|)
    && forall i {:trigger prev[ms[i]]} :: 0 <= i < |ms| ==> prev[ms[i]] == LastOf(ms, i)
  }

  /** The `i`-th entry from the front, counting from one. */
  ghost function LastOf(ms: seq<WobjId>, i: nat): Option<WobjId>
    requires i <= |ms|
  {
    if i == 0 then None else Some(ms[i - 1])
  }

  ghost predicate ChainsAt(lastmtx: seq<Option<WobjId>>, prevmtx: seq<Option<WobjId>>, held: seq<seq<WobjId>>) {
    |lastmtx| == |held| && forall t :: 0 <= t < |held| ==> ChainAt(lastmtx[t], prevmtx, held[t])
  }

  /** Locking puts a mutex that is in no chain at the end of the task's. */
  lemma ChainPush(last: seq<Option<WobjId>>, prev: seq<Option<WobjId>>, held: seq<seq<WobjId>>, t: TaskId, m: WobjId)
    requires ChainsAt(last, prev, held) && t < |held| && m < |prev|
    requires forall u :: 0 <= u < |held| ==> m !in held[u]
    ensures ChainsAt(last[t := Some(m)], prev[m := last[t]], held[t := held[t] + [m]])
  {
    var l', p', h' := last[t := Some(m)], prev[m := last[t]], held[t := held[t] + [m]];
    forall u | 0 <= u < |h'| ensures ChainAt(l'[u], p', h'[u]) {
      assert ChainAt(last[u], prev, held[u]);
      assert forall i :: 0 <= i < |held[u]| ==> held[u][i] in held[u];
    }
  }

  /** A chain does not notice a change of some other mutex's pointer. */
  lemma ChainElsewhere(last: Option<WobjId>, prev: seq<Option<WobjId>>, ms: seq<WobjId>, m: WobjId, v: Option<WobjId>)
    requires ChainAt(last, prev, ms) && m < |prev| && m !in ms
    ensures ChainAt(last, prev[m := v], ms)
  {
    assert forall i :: 0 <= i < |ms| ==> ms[i] in ms;
  }

  /** Taking the entry at index `n` out of a chain: its successor, or the task, skips it. */
  lemma ChainSkip(last: Option<WobjId>, prev: seq<Option<WobjId>>, ms: seq<WobjId>, n: nat)
    requires ChainAt(last, prev, ms) && NoDup(ms) && n < |ms|
    ensures ms[n] < |prev|
    ensures n + 1 == |ms| ==> ChainAt(prev[ms[n]], prev, ms[..n])
    ensures n + 1 < |ms| ==> ms[n + 1] < |prev| && ChainAt(last, prev[ms[n + 1] := prev[ms[n]]], ms[..n] + ms[n + 1..])
  {
    if n + 1 < |ms| {
      var rest := ms[..n] + ms[n + 1..];
      var p' := prev[ms[n + 1] := prev[ms[n]]];
      SkipAt(prev, ms, n, rest, p');
    }
  }

  lemma SkipAt(prev: seq<Option<WobjId>>, ms: seq<WobjId>, n: nat, rest: seq<WobjId>, p': seq<Option<WobjId>>)
    requires NoDup(ms) && n + 1 < |ms| && rest == ms[..n] + ms[n + 1..]
    requires forall i :: 0 <= i < |ms| ==> ms[i] < |prev| && prev[ms[i]] == LastOf(ms, i)
    requires p' == prev[ms[n + 1] := prev[ms[n]]]
    ensures forall i :: 0 <= i < |rest| ==> rest[i] < |p'| && p'[rest[i]] == LastOf(rest, i)
  {
    forall i | 0 <= i < |rest| ensures rest[i] < |p'| && p'[rest[i]] == LastOf(rest, i) {
      if i < n {
        assert rest[i] == ms[i] && ms[i] != ms[n + 1];
      } else if i == n {
        assert rest[i] == ms[n + 1];
      } else {
        assert rest[i] == ms[i + 1] && ms[i + 1] != ms[n + 1] && rest[i - 1] == ms[i];
      }
    }
  }

  lemma ChainCut(last: seq<Option<WobjId>>, prev: seq<Option<WobjId>>, held: seq<seq<WobjId>>, t: TaskId, n: nat)
    requires ChainsAt(last, prev, held) && t < |held| && n < |held[t]|
    requires NoDup(held[t]) && forall u, i :: 0 <= u < |held| && u != t && 0 <= i < |held[u]| ==> held[u][i] !in held[t]
    ensures held[t][n] < |prev|
    ensures var ms := held[t];
            if n + 1 == |ms| then ChainsAt(last[t := prev[ms[n]]], prev, held[t := ms[..n]])
            else ms[n + 1] < |prev| && ChainsAt(last, prev[ms[n + 1] := prev[ms[n]]], held[t := ms[..n] + ms[n + 1..]])
  {
    var ms := held[t];
    assert ChainAt(last[t], prev, ms);
    ChainSkip(last[t], prev, ms, n);
    if n + 1 == |ms| {
      var l', h' := last[t := prev[ms[n]]], held[t := ms[..n]];
      forall u | 0 <= u < |h'| ensures ChainAt(l'[u], prev, h'[u]) { assert ChainAt(last[u], prev, held[u]); }
    } else {
      var p', h' := prev[ms[n + 1] := prev[ms[n]]], held[t := ms[..n] + ms[n + 1..]];
      forall u | 0 <= u < |h'| ensures ChainAt(last[u], p', h'[u]) {
        assert ChainAt(last[u], prev, held[u]);
        if u != t {
          assert ms[n + 1] !in held[u];
          ChainElsewhere(last[u], prev, held[u], ms[n + 1], prev[ms[n]]);
        }
      }
    }
  }

  /** Different tasks hold different mutexes. */
  lemma ChainsApart(k: K, s: Slack, t: TaskId)
    requires Inv(k, s) && IsTask(k, t)
    ensures |k.held| == |k.tcb| && NoDup(k.held[t])
    ensures forall u, i :: 0 <= u < |k.held| && u != t && 0 <= i < |k.held[u]| ==> k.held[u][i] !in k.held[t]
    ensures forall i :: 0 <= i < |k.held[t]| ==> IsMutex(k.cfg, k.held[t][i])
  {
    assert TaskOk(k, s, t);
    forall u, i | 0 <= u < |k.held| && u != t && 0 <= i < |k.held[u]| ensures k.held[u][i] !in k.held[t] {
      assert TaskOk(k, s, u);
      assert k.held[u][i] in k.held[u];
    }
    forall i | 0 <= i < |k.held[t]| ensures IsMutex(k.cfg, k.held[t][i]) { assert k.held[t][i] in k.held[t]; }
  }

  lemma CeilingRange(c: Cfg, m: WobjId)
    requires CfgOk(c)
    ensures Ceiling(c, m).Some? ==> Ceiling(c, m).value < TNUM_TPRI
  {
  }

  /** A mutex between owners is in no chain. */
  lemma FreeChains(k: K, s: Slack, m: WobjId)
    requires Inv(k, s) && m in s.free
    ensures forall u :: 0 <= u < |k.held| ==> m !in k.held[u]
  {
    forall u | 0 <= u < |k.held| ensures m !in k.held[u] { assert TaskOk(k, s, u); }
  }

  lemma LastHeld(last: seq<Option<WobjId>>, prev: seq<Option<WobjId>>, held: seq<seq<WobjId>>, t: TaskId)
    requires ChainsAt(last, prev, held) && t < |held|
    ensures |last| == |held| && (last[t].Some? <==> held[t] != [])
  {
    assert ChainAt(last[t], prev, held[t]);
  }

  /** A task waiting for a mutex: TSTAT_WAIT_MTX. */
  predicate WaitsMtxIn(c: Cfg, r: Tcb) {
    r.stat.Waiting? && r.stat.cause.OnQueue? && IsMutex(c, r.stat.cause.q)
  }

  /** What a service call may rely on when it starts. */
  lemma Start(k: K, c: Call, primap: seq<bv16>, pred: seq<Option<TaskId>>)
    requires UnitsOk(k, primap, pred) && Settled(k) && Callable(k, c)
    ensures Shape(k) && Inv(k, TIGHT) && Settled(Step(k, c).0)
    ensures |k.cfg.unitOf| == |k.cfg.noactque| == |k.cfg.ipri| == |k.tcb| == |k.held|
    ensures |k.owner| == |k.cfg.wobj| == |k.semcnt|
    ensures k.run.Some? ==> IsTask(k, k.run.value) && k.tcb[k.run.value].stat.Runnable?
    ensures forall q: WobjId :: q < |k.cfg.wobj| ==> WaitQ(q) in k.queues
  {
    StepSettled(k, c);
  }

  lemma LastIs(last: seq<Option<WobjId>>, prev: seq<Option<WobjId>>, held: seq<seq<WobjId>>, t: TaskId)
    requires ChainsAt(last, prev, held) && t < |held|
    ensures |last| == |held| && last[t] == LastOf(held[t], |held[t]|) && ChainAt(last[t], prev, held[t])
  {
    assert ChainAt(last[t], prev, held[t]);
  }

  lemma PriIsMin(k: K, t: TaskId)
    requires Inv(k, TIGHT) && IsTask(k, t)
    ensures k.tcb[t].pri == MinCeiling(k.cfg, k.tcb[t].bpri, k.held[t])
  {
    assert TaskOk(k, TIGHT, t);
  }

  lemma OwnerKnown(k: K, m: WobjId)
    requires Shape(k) && m < |k.owner|
    ensures k.owner[m].Some? ==> IsTask(k, k.owner[m].value)
  {
  }

  lemma InitialCaches(c: Cfg)
    requires CfgOk(c)
    ensures CachesOk(Initial(c), seq(c.units, _ => 0), seq(c.units, _ => None), None)
  {
    hide QueueShape, TaskShape, CfgOk, Best;
    InitialSettled(c);
    var k := Initial(c);
    var pm: seq<bv16>, pd: seq<Option<TaskId>> := seq(c.units, _ => 0), seq(c.units, _ => None);
    assert forall u, p :: 0 <= u < c.units && 0 <= p < TNUM_TPRI ==> k.queues[Ready(u, p)] == [];
    ZeroBits(0);
    hide Bit;
    forall u | 0 <= u < c.units ensures UnitOk(k, u, pm[u], pd[u]) {
      BestIsNone(k, u);
      assert BitsOk(k, u, pm[u]);
    }
    BestIsNone(k, KERNEL_UNIT);
  }

  lemma NoneHeld(k: K, t: TaskId)
    requires Shape(k) && IsTask(k, t)
    ensures k.held[t] == [] ==> MutexReleaseAll(k, t, |k.held[t]|) == k
  {
  }

  lemma ChoiceInRange(k: K)
    requires Shape(k)
    ensures Choice(k).Some? ==> IsTask(k, Choice(k).value)
  {
    BestIsTask(k, KERNEL_UNIT, 0);
    BestIsTask(k, k.twd, 0);
    BestIsTask(k, k.idle, 0);
  }

  lemma UnitsShape(k: K, primap: seq<bv16>, pred: seq<Option<TaskId>>)
    requires UnitsOk(k, primap, pred)
    ensures Shape(k) && |primap| == |pred| == k.cfg.units
  {
  }

  lemma ReadyKnown(k: K, t: TaskId, p: Pri)
    requires Shape(k) && IsTask(k, t) && p < TNUM_TPRI
    ensures k.cfg.unitOf[t] < k.cfg.units && k.tcb[t].pri < TNUM_TPRI
    ensures Ready(k.cfg.unitOf[t], k.tcb[t].pri) in k.queues && Ready(k.cfg.unitOf[t], p) in k.queues
  {
  }

  /** change_priority on a runnable task, as updates of the record table and of two queues. */
  lemma RequeueForm(k: K, t: TaskId, newpri: Pri, mtxmode: bool)
    requires Shape(k) && IsTask(k, t) && newpri < TNUM_TPRI && k.tcb[t].stat.Runnable?
    ensures var h0 := ReadyQ(k, t, k.tcb[t].pri);
            var h1 := ReadyQ(k, t, newpri);
            && h0 in k.queues && h1 in k.queues
            && var q := k.queues[h0 := Remove(k.queues[h0], t)];
            && ChangePriority(k, t, newpri, mtxmode) ==
                 k.(tcb := k.tcb[t := k.tcb[t].(pri := newpri)],
                    queues := q[h1 := if mtxmode then [t] + q[h1] else q[h1] + [t]])
            && ValidHome(k.cfg, h0) && Q(MakeNonRunnable(k, t), h0) == Remove(k.queues[h0], t)
  {
  }

  lemma InsertMembers(k: K, q: WobjId, i: nat, t: TaskId)
    requires Shape(k) && q < |k.cfg.wobj| && i <= |Q(k, WaitQ(q))| && IsTask(k, t)
    ensures Members(InsertAt(Q(k, WaitQ(q)), i, t), |k.tcb|)
  {
  }

  lemma WaiterKnown(k: K, q: WobjId, i: nat)
    requires Shape(k) && q < |k.cfg.wobj|
    ensures WaitQ(q) in k.queues && (i < |Q(k, WaitQ(q))| ==> IsTask(k, Q(k, WaitQ(q))[i]))
  {
  }

  class Kernel {
    const cfg: Cfg
    var tcb: seq<Tcb>
    var queues: map<Home, seq<TaskId>>
    var timed: set<TaskId>
    var semcnt: seq<nat>
    // scheduler caches
    var primap: seq<bv16>                  // ready_primap of each unit
    var predtsk: seq<Option<TaskId>>       // p_predtsk of each unit
    var schedtsk: Option<TaskId>
    var runtsk: Option<TaskId>
    var dspflg: bool
    var twdsched: UnitId
    var idlesched: UnitId
    // mutexes
    var loctsk: seq<Option<TaskId>>
    var lastmtx: seq<Option<WobjId>>       // of each task
    var prevmtx: seq<Option<WobjId>>       // of each mutex
    ghost var held: seq<seq<WobjId>>       // what the chains list

    ghost function Abs(): K
      reads this
    {
      K(cfg, tcb, queues, held, loctsk, timed, semcnt, runtsk, dspflg, twdsched, idlesched)
    }

    ghost predicate Valid()
      reads this
    {
      && CachesOk(Abs(), primap, predtsk, schedtsk)
      && |prevmtx| == |cfg.wobj| && ChainsAt(lastmtx, prevmtx, held)
    }

    /** initialize_task and initialize_domain, before any activation. */
    constructor (c: Cfg)
      requires CfgOk(c)
      ensures Valid() && Abs() == Initial(c) && cfg == c
    {
      var k := Initial(c);
      InitialCaches(c);
      cfg := c;
      tcb, queues, timed, semcnt := k.tcb, k.queues, {}, k.semcnt;
      primap, predtsk := seq(c.units, _ => 0), seq(c.units, _ => None);
      schedtsk, runtsk, dspflg, twdsched, idlesched := None, None, true, KERNEL_UNIT, KERNEL_UNIT;
      loctsk, lastmtx, prevmtx := k.owner, seq(|c.ipri|, _ => None), seq(|c.wobj|, _ => None);
      held := k.held;
    }

    // ---------------------------------------------------------------- task.h, task.c

    /** update_schedtsk. */
    method UpdateSchedtsk()
      requires UnitsOk(Abs(), primap, predtsk)
      modifies `schedtsk
      ensures schedtsk == Choice(Abs())
    {
      hide QueueShape, TaskShape, LevelsOk, CfgOk;
      assert UnitOk(Abs(), KERNEL_UNIT, primap[KERNEL_UNIT], predtsk[KERNEL_UNIT]);
      assert UnitOk(Abs(), twdsched, primap[twdsched], predtsk[twdsched]);
      assert UnitOk(Abs(), idlesched, primap[idlesched], predtsk[idlesched]);
      BestIsTask(Abs(), KERNEL_UNIT, 0);
      BestIsTask(Abs(), twdsched, 0);
      if predtsk[KERNEL_UNIT].Some? {
        if predtsk[twdsched].Some? && tcb[predtsk[twdsched].value].pri < tcb[predtsk[KERNEL_UNIT].value].pri {
          schedtsk := predtsk[twdsched];
        } else {
          schedtsk := predtsk[KERNEL_UNIT];
        }
      } else {
        if predtsk[twdsched].Some? {
          schedtsk := predtsk[twdsched];
        } else {
          schedtsk := predtsk[idlesched];
        }
      }
    }

    /** search_predtsk. */
    method SearchPredtsk(u: UnitId) returns (t: TaskId)
      requires Shape(Abs()) && u < cfg.units && u < |primap| && BitsOk(Abs(), u, primap[u]) && primap[u] != 0
      ensures Best(Abs(), u) == Some(t)
    {
      SearchFinds(Abs(), u, primap[u]);
      hide BitsOk;
      var schedpri := BitmapSearch(primap[u]);
      t := queues[Ready(u, schedpri)][0];
    }

    /** The unit's best task becomes `b`; the system-wide choice follows if dispatching is enabled. */
    method ReplaceBest(u: UnitId, b: Option<TaskId>)
      requires u < |predtsk| && UnitsOk(Abs(), primap, predtsk[u := b]) && (!dspflg ==> schedtsk == runtsk)
      modifies `predtsk, `schedtsk
      ensures CachesOk(Abs(), primap, predtsk, schedtsk)
    {
      predtsk := predtsk[u := b];
      if dspflg {
        UpdateSchedtsk();
      }
    }

    /** The unit's best task is looked up again. */
    method ElectBest(u: UnitId)
      requires Shape(Abs()) && u < |predtsk| && u < cfg.units && UnitsOk(Abs(), primap, predtsk[u := Best(Abs(), u)])
      requires !dspflg ==> schedtsk == runtsk
      modifies `predtsk, `schedtsk
      ensures CachesOk(Abs(), primap, predtsk, schedtsk)
    {
      assert UnitOk(Abs(), u, primap[u], predtsk[u := Best(Abs(), u)][u]);
      SearchFinds(Abs(), u, primap[u]);
      hide BitsOk, LevelsOk, Best;
      var best := None;
      if primap[u] != 0 {
        var t := SearchPredtsk(u);
        best := Some(t);
      }
      ReplaceBest(u, best);
    }

    method MakeRunnable(t: TaskId)
      requires Valid() && IsTask(Abs(), t)
      modifies `queues, `primap, `predtsk, `schedtsk
      ensures Valid() && Abs() == KernelState.MakeRunnable(old(Abs()), t)
    {
      hide Shape, UnitsOk, ChainsAt, Choice;
      ghost var k := Abs();
      Bounds(k, primap, predtsk, t);
      var u := cfg.unitOf[t];
      var pri := tcb[t].pri;
      LinkedOk(k, KernelState.MakeRunnable(k, t), t, false, primap, predtsk);
      queues := queues[Ready(u, pri) := queues[Ready(u, pri)] + [t]];
      primap := primap[u := Set(primap[u], pri)];
      if predtsk[u].None? || pri < tcb[predtsk[u].value].pri {
        ReplaceBest(u, Some(t));
      } else {
        assert predtsk == predtsk[u := predtsk[u]];
      }
    }

    method MakeNonRunnable(t: TaskId)
      requires Valid() && IsTask(Abs(), t) && t in Q(Abs(), ReadyQ(Abs(), t, tcb[t].pri))
      modifies `queues, `primap, `predtsk, `schedtsk
      ensures Valid() && Abs() == KernelState.MakeNonRunnable(old(Abs()), t)
    {
      hide Shape, UnitsOk, ChainsAt, Choice, Best, BitsOk, QueueShape, CfgOk, LevelsOk;
      ghost var k := Abs();
      Bounds(k, primap, predtsk, t);
      var u := cfg.unitOf[t];
      var pri := tcb[t].pri;
      UnlinkedOk(k, t, primap, predtsk);
      queues := queues[Ready(u, pri) := Remove(queues[Ready(u, pri)], t)];
      assert primap == primap[u := primap[u]] && predtsk == predtsk[u := predtsk[u]];
      if queues[Ready(u, pri)] == [] {
        primap := primap[u := Clear(primap[u], pri)];
        if predtsk[u] == Some(t) {
          ElectBest(u);
        }
      } else {
        if predtsk[u] == Some(t) {
          ReplaceBest(u, Some(queues[Ready(u, pri)][0]));
        }
      }
    }

    /** change_priority, with the incremental updates of the caches. */
    method ChangePriority(t: TaskId, newpri: Pri, mtxmode: bool, ghost s: Slack)
      requires Valid() && Inv(Abs(), s) && IsTask(Abs(), t) && t !in s.out && newpri < TNUM_TPRI
      modifies `tcb, `queues, `primap, `predtsk, `schedtsk
      ensures Valid() && Abs() == KernelState.ChangePriority(old(Abs()), t, newpri, mtxmode)
    {
      if tcb[t].stat.Runnable? {
        Requeue(t, newpri, mtxmode, s);
      } else {
        RunnableOnce(Abs(), s, t);
        UnitsKept(Abs(), SetPri(Abs(), t, newpri), t, primap, predtsk);
        tcb := tcb[t := tcb[t].(pri := newpri)];
        if tcb[t].stat.Waiting? && tcb[t].stat.cause.OnQueue? {
          WobjChangePriority(tcb[t].stat.cause.q, t);
        }
      }
    }

    /** The branch of change_priority for a runnable task. */
    method Requeue(t: TaskId, newpri: Pri, mtxmode: bool, ghost s: Slack)
      requires Valid() && Inv(Abs(), s) && IsTask(Abs(), t) && t !in s.out && newpri < TNUM_TPRI && tcb[t].stat.Runnable?
      modifies `tcb, `queues, `primap, `predtsk, `schedtsk
      ensures Valid() && Abs() == KernelState.ChangePriority(old(Abs()), t, newpri, mtxmode)
    {
      hide Shape, UnitsOk, Inv, ChainsAt, Choice, Best, BitsOk, KernelState.ChangePriority;
      ghost var k := Abs();
      Bounds(k, primap, predtsk, t);
      RequeuedOk(k, s, t, newpri, mtxmode, primap, predtsk);
      ghost var r := KernelState.ChangePriority(k, t, newpri, mtxmode);
      assert r.tcb == k.tcb[t := k.tcb[t].(pri := newpri)] && Kept(k, r) by { RequeueSteps(k, t, newpri, mtxmode); }
      var oldpri := tcb[t].pri;
      Relevel(t, newpri, mtxmode);
      RequeueBest(t, cfg.unitOf[t], oldpri, newpri, mtxmode);
    }

    /** The queue and bitmap updates of change_priority. */
    method Relevel(t: TaskId, newpri: Pri, mtxmode: bool)
      requires Shape(Abs()) && IsTask(Abs(), t) && newpri < TNUM_TPRI && tcb[t].stat.Runnable? && |primap| == cfg.units
      modifies `tcb, `queues, `primap
      ensures Abs() == KernelState.ChangePriority(old(Abs()), t, newpri, mtxmode)
      ensures var k := old(Abs());
              var u := cfg.unitOf[t];
              var oldpri := k.tcb[t].pri;
              var m := if Q(KernelState.MakeNonRunnable(k, t), ReadyQ(k, t, oldpri)) == []
                       then Clear(old(primap)[u], oldpri) else old(primap)[u];
              primap == old(primap)[u := Set(m, newpri)]
    {
      hide Set, Clear, TaskShape, QueueShape, CfgOk, KernelState.ChangePriority, KernelState.MakeNonRunnable;
      ReadyKnown(Abs(), t, newpri);
      RequeueForm(Abs(), t, newpri, mtxmode);
      var u := cfg.unitOf[t];
      var oldpri := tcb[t].pri;
      tcb := tcb[t := tcb[t].(pri := newpri)];
      LevelDelete(t, u, oldpri);
      var h := Ready(u, newpri);
      queues := queues[h := if mtxmode then [t] + queues[h] else queues[h] + [t]];
      primap := primap[u := Set(primap[u], newpri)];
    }

    /** queue_delete on a ready queue, with primap_clear if that empties it. */
    method LevelDelete(t: TaskId, u: UnitId, p: Pri)
      requires Ready(u, p) in queues && u < |primap| && p < TNUM_TPRI
      modifies `queues, `primap
      ensures queues == old(queues)[Ready(u, p) := Remove(old(queues)[Ready(u, p)], t)]
      ensures primap == if queues[Ready(u, p)] == [] then old(primap)[u := Clear(old(primap)[u], p)] else old(primap)
    {
      queues := queues[Ready(u, p) := Remove(queues[Ready(u, p)], t)];
      if queues[Ready(u, p)] == [] {
        primap := primap[u := Clear(primap[u], p)];
      }
    }

    /** The last step of change_priority: who is the unit's best now? */
    method RequeueBest(t: TaskId, u: UnitId, oldpri: Pri, newpri: Pri, mtxmode: bool)
      requires Shape(Abs()) && u < |predtsk| && u < cfg.units && UnitsOk(Abs(), primap, predtsk[u := Best(Abs(), u)])
      requires predtsk[u].Some? && IsTask(Abs(), predtsk[u].value) && (!dspflg ==> schedtsk == runtsk)
      requires predtsk[u] == Some(t) && newpri < oldpri ==> Best(Abs(), u) == Some(t)
      requires predtsk[u] != Some(t) ==>
        var better := if mtxmode then newpri <= tcb[predtsk[u].value].pri else newpri < tcb[predtsk[u].value].pri;
        && Best(Abs(), u) == (if better then Some(t) else predtsk[u])
        && (!better && dspflg ==> schedtsk == Choice(Abs()))
      modifies `predtsk, `schedtsk
      ensures CachesOk(Abs(), primap, predtsk, schedtsk)
    {
      hide Best, UnitsOk, Choice;
      if predtsk[u] == Some(t) {
        if newpri >= oldpri {
          ElectBest(u);
        } else {
          ReplaceBest(u, Some(t));
        }
      } else if if mtxmode then newpri <= tcb[predtsk[u].value].pri else newpri < tcb[predtsk[u].value].pri {
        ReplaceBest(u, Some(t));
      } else {
        assert predtsk == predtsk[u := predtsk[u]];
      }
    }

    method MakeDormant(t: TaskId)
      requires Valid() && IsTask(Abs(), t) && NotReady(Abs(), t)
      modifies `tcb
      ensures Valid() && Abs() == KernelState.MakeDormant(old(Abs()), t)
    {
      ghost var k := Abs();
      UnitsKept(k, KernelState.MakeDormant(k, t), t, primap, predtsk);
      tcb := tcb[t := tcb[t].(stat := Dormant, bpri := cfg.ipri[t], pri := cfg.ipri[t],
                              wupque := false, raster := false, enater := true)];
    }

    method MakeActive(t: TaskId)
      requires Valid() && IsTask(Abs(), t)
      modifies `tcb, `queues, `primap, `predtsk, `schedtsk
      ensures Valid() && Abs() == KernelState.MakeActive(old(Abs()), t)
    {
      hide QueueShape, TaskShape, Best;
      ghost var k := Abs();
      UnitsKept(k, SetStat(k, t, Runnable), t, primap, predtsk);
      tcb := tcb[t := tcb[t].(stat := Runnable)];
      MakeRunnable(t);
    }
  
    /** rotate_ready_queue. */
    method RotateReadyQueue(p: Pri, u: UnitId, ghost s: Slack)
      requires Valid() && Inv(Abs(), s) && p < TNUM_TPRI && u < cfg.units
      modifies `queues, `predtsk, `schedtsk
      ensures Valid() && Abs() == KernelState.RotateReadyQueue(old(Abs()), p, u)
    {
      hide UnitsOk, Inv, ChainsAt, Choice, QueueShape, TaskShape, CfgOk;
      ghost var k := Abs();
      UnitsShape(k, primap, predtsk);
      ReadyNoDup(k, s, p, u);
      HomeKnown(k, Ready(u, p));
      var q := queues[Ready(u, p)];
      if |q| > 1 {
        RotatedOk(k, p, u, primap, predtsk);
        assert predtsk == predtsk[u := predtsk[u]];
        queues := queues[Ready(u, p) := q[1..] + [q[0]]];
        if predtsk[u] == Some(q[0]) {
          ReplaceBest(u, Some(queues[Ready(u, p)][0]));
        }
      }
    }

    // ---------------------------------------------------------------- wait.h, wait.c

    /** The search loop of queue_insert_tpri. */
    method TpriIndex(q: WobjId, p: Pri) returns (i: nat)
      requires Shape(Abs()) && q < |cfg.wobj|
      ensures i == TpriPos(tcb, Q(Abs(), WaitQ(q)), p)
    {
      i := 0;
      ghost var s := Q(Abs(), WaitQ(q));
      assert s[0..] == s;
      while i < |queues[WaitQ(q)]| && p >= tcb[queues[WaitQ(q)][i]].pri
        invariant i <= |s| && TpriPos(tcb, s, p) == i + TpriPos(tcb, s[i..], p)
      {
        assert s[i..][1..] == s[i + 1..];
        i := i + 1;
      }
    }

    /** Links `t` to a wait queue, in order of priority or at the tail. */
    method WobjQueueInsert(q: WobjId, t: TaskId)
      requires Valid() && q < |cfg.wobj| && IsTask(Abs(), t)
      modifies `queues
      ensures Valid()
      ensures Abs() == SetQ(old(Abs()), WaitQ(q),
                            InsertAt(old(Q(Abs(), WaitQ(q))), EntryPos(old(Abs()), q, old(tcb[t].pri)), t))
    {
      hide UnitsOk, ChainsAt, Choice, TaskShape, CfgOk, InsertAt, LevelsOk, Best;
      ghost var k := Abs();
      UnitsShape(k, primap, predtsk);
      var i := |queues[WaitQ(q)]|;
      if cfg.wobj[q].tpri {
        i := TpriIndex(q, tcb[t].pri);
      }
      InsertMembers(k, q, i, t);
      ghost var r := SetQ(k, WaitQ(q), InsertAt(Q(k, WaitQ(q)), i, t));
      UnitsKept(k, r, t, primap, predtsk);
      queues := queues[WaitQ(q) := InsertAt(queues[WaitQ(q)], i, t)];
    }

    method WobjQueueDelete(q: WobjId, t: TaskId)
      requires Valid() && q < |cfg.wobj| && IsTask(Abs(), t)
      modifies `queues
      ensures Valid() && Abs() == Unlink(old(Abs()), WaitQ(q), t)
    {
      ghost var k := Abs();
      UnitsKept(k, Unlink(k, WaitQ(q), t), t, primap, predtsk);
      queues := queues[WaitQ(q) := Remove(queues[WaitQ(q)], t)];
    }

    /** wobj_change_priority. */
    method WobjChangePriority(q: WobjId, t: TaskId)
      requires Valid() && q < |cfg.wobj| && IsTask(Abs(), t)
      modifies `queues
      ensures Valid()
      ensures cfg.wobj[q].tpri ==>
                var k := Unlink(old(Abs()), WaitQ(q), t);
                Abs() == SetQ(k, WaitQ(q), InsertAt(Q(k, WaitQ(q)), EntryPos(k, q, k.tcb[t].pri), t))
      ensures !cfg.wobj[q].tpri ==> Abs() == old(Abs())
    {
      if cfg.wobj[q].tpri {
        WobjQueueDelete(q, t);
        WobjQueueInsert(q, t);
      }
    }
  
    /** A change of one task's record that leaves its current priority alone. */
    method SetRecord(t: TaskId, r: Tcb)
      requires Valid() && IsTask(Abs(), t) && TcbShape(cfg, r) && r.pri == tcb[t].pri
      modifies `tcb
      ensures Valid() && Abs() == SetTcb(old(Abs()), t, r)
    {
      UnitsKept(Abs(), SetTcb(Abs(), t, r), t, primap, predtsk);
      tcb := tcb[t := r];
    }

    /** make_wait and make_wait_tmout. */
    method MakeWait(t: TaskId, c: Cause, tmo: bool, ghost s: Slack)
      requires Valid() && Inv(Abs(), s) && IsTask(Abs(), t) && t !in s.out && tcb[t].stat.Runnable?
      requires ValidCause(cfg, Waiting(c, false, tmo))
      modifies `tcb, `queues, `primap, `predtsk, `schedtsk, `timed
      ensures Valid() && Abs() == KernelState.MakeWait(old(Abs()), t, c, tmo)
    {
      hide UnitsOk, Inv, ChainsAt, Choice, Best;
      ghost var k := Abs();
      Bounds(k, primap, predtsk, t);
      RunnableOnce(k, s, t);
      SetRecord(t, tcb[t].(stat := Waiting(c, false, tmo)));
      MakeNonRunnable(t);
      if tmo {
        TmevtbEnqueue(t);
      }
    }

    /** tmevtb_enqueue_reltim, as far as the task side sees it. */
    method TmevtbEnqueue(t: TaskId)
      requires Valid() && IsTask(Abs(), t)
      modifies `timed
      ensures Valid() && Abs() == SetTimed(old(Abs()), old(timed) + {t})
    {
      UnitsKept(Abs(), SetTimed(Abs(), timed + {t}), t, primap, predtsk);
      timed := timed + {t};
    }

    method TmevtbDequeue(t: TaskId)
      requires Valid() && IsTask(Abs(), t)
      modifies `timed
      ensures Valid() && Abs() == SetTimed(old(Abs()), old(timed) - {t})
    {
      UnitsKept(Abs(), SetTimed(Abs(), timed - {t}), t, primap, predtsk);
      timed := timed - {t};
    }

    /** wait_dequeue_tmevtb. */
    method WaitDequeueTmevtb(t: TaskId)
      requires Valid() && IsTask(Abs(), t)
      modifies `timed
      ensures Valid() && Abs() == DequeueTmevtb(old(Abs()), t)
    {
      if tcb[t].stat.Waiting? && tcb[t].stat.tmo {
        TmevtbDequeue(t);
      }
    }

    /** make_non_wait. */
    method MakeNonWait(t: TaskId)
      requires Valid() && IsTask(Abs(), t)
      modifies `tcb, `queues, `primap, `predtsk, `schedtsk
      ensures Valid() && Abs() == KernelState.MakeNonWait(old(Abs()), t)
    {
      hide UnitsOk, ChainsAt, Choice, Best, QueueShape;
      Bounds(Abs(), primap, predtsk, t);
      if !SuspFlag(tcb[t].stat) {
        SetRecord(t, tcb[t].(stat := Runnable));
        MakeRunnable(t);
      } else {
        SetRecord(t, tcb[t].(stat := Suspended));
      }
    }

    /** The end of a wait: wait_complete with result `e`. */
    method WaitEnd(t: TaskId, e: Ercd)
      requires Valid() && IsTask(Abs(), t)
      modifies `tcb, `queues, `primap, `predtsk, `schedtsk, `timed
      ensures Valid() && Abs() == KernelState.WaitEnd(old(Abs()), t, e)
    {
      hide UnitsOk, ChainsAt, Choice, Best, QueueShape, KernelState.MakeNonWait;
      WaitDequeueTmevtb(t);
      Bounds(Abs(), primap, predtsk, t);
      SetRecord(t, tcb[t].(wercd := e));
      MakeNonWait(t);
    }

    /** queue_delete_next on a wait queue, then the end of that task's wait. */
    method WakeFirst(q: WobjId, e: Ercd) returns (t: TaskId)
      requires Valid() && q < |cfg.wobj| && Q(Abs(), WaitQ(q)) != []
      modifies `tcb, `queues, `primap, `predtsk, `schedtsk, `timed
      ensures Valid() && Abs() == KernelState.WakeFirst(old(Abs()), q, e)
      ensures t == old(Q(Abs(), WaitQ(q))[0])
    {
      hide UnitsOk, ChainsAt, Choice, Best, KernelState.MakeNonWait;
      ghost var k := Abs();
      UnitsShape(k, primap, predtsk);
      t := queues[WaitQ(q)][0];
      UnitsKept(k, SetQ(k, WaitQ(q), queues[WaitQ(q)][1..]), t, primap, predtsk);
      queues := queues[WaitQ(q) := queues[WaitQ(q)][1..]];
      WaitEnd(t, e);
    }

    /** messagebuf_signal: wakes waiting senders in order while their messages fit. */
    method MessagebufSignal(q: WobjId, n: nat)
      requires Valid() && q < |cfg.wobj|
      modifies `tcb, `queues, `primap, `predtsk, `schedtsk, `timed
      ensures Valid() && Abs() == MbfSignal(old(Abs()), q, n)
    {
      hide UnitsOk, ChainsAt, Choice, Best, KernelState.WakeFirst, TaskShape, CfgOk;
      ghost var k := Abs();
      UnitsShape(k, primap, predtsk);
      HomeKnown(Abs(), WaitQ(q));
      var fits := n;
      while fits != 0 && queues[WaitQ(q)] != []
        invariant Valid() && Shape(Abs()) && WaitQ(q) in queues
        invariant MbfSignal(Abs(), q, fits) == MbfSignal(k, q, n)
      {
        var _ := WakeFirst(q, E_OK);
        fits := fits - 1;
        UnitsShape(Abs(), primap, predtsk);
        HomeKnown(Abs(), WaitQ(q));
      }
    }

    /** wait_dequeue_wobj. */
    method WaitDequeueWobj(t: TaskId, n: nat)
      requires Valid() && IsTask(Abs(), t)
      modifies `tcb, `queues, `primap, `predtsk, `schedtsk, `timed
      ensures Valid() && Abs() == KernelState.WaitDequeueWobj(old(Abs()), t, n)
    {
      hide UnitsOk, ChainsAt, Choice, Best, MbfSignal, QueueShape;
      Bounds(Abs(), primap, predtsk, t);
      if tcb[t].stat.Waiting? && tcb[t].stat.cause.OnQueue? {
        var q := tcb[t].stat.cause.q;
        WobjQueueDelete(q, t);
        if cfg.wobj[q].kind.MbfSender? {
          MessagebufSignal(q, n);
        }
      }
    }

    /** wobj_make_wait and wobj_make_wait_tmout. */
    method WobjMakeWait(t: TaskId, q: WobjId, tmo: bool, ghost s: Slack)
      requires Valid() && Inv(Abs(), s) && IsTask(Abs(), t) && t !in s.out && tcb[t].stat.Runnable? && q < |cfg.wobj|
      modifies `tcb, `queues, `primap, `predtsk, `schedtsk, `timed
      ensures Valid() && Abs() == KernelState.WobjMakeWait(old(Abs()), t, q, tmo)
    {
      hide UnitsOk, ChainsAt, Choice, Best, Inv, KernelState.MakeWait, QueueShape;
      Bounds(Abs(), primap, predtsk, t);
      MakeWait(t, OnQueue(q), tmo, s);
      WobjQueueInsert(q, t);
    }

    /** init_wait_queue. */
    method InitWaitQueue(q: WobjId)
      requires Valid() && q < |cfg.wobj|
      modifies `tcb, `queues, `primap, `predtsk, `schedtsk, `timed
      ensures Valid() && Abs() == KernelState.InitWaitQueue(old(Abs()), q)
    {
      hide UnitsOk, ChainsAt, Choice, Best, KernelState.WakeFirst, TaskShape, CfgOk;
      ghost var k := Abs();
      UnitsShape(k, primap, predtsk);
      HomeKnown(Abs(), WaitQ(q));
      while queues[WaitQ(q)] != []
        invariant Valid() && Shape(Abs()) && WaitQ(q) in queues
        invariant KernelState.InitWaitQueue(Abs(), q) == KernelState.InitWaitQueue(k, q)
        decreases |queues[WaitQ(q)]|
      {
        var _ := WakeFirst(q, E_DLT);
        UnitsShape(Abs(), primap, predtsk);
        HomeKnown(Abs(), WaitQ(q));
      }
    }
  
    // ---------------------------------------------------------------- mutex.c

    /** mutex_check_ceilpri walks the chain, then looks at the mutex waited for. */
    method MutexCheckCeilpri(t: TaskId, bpriority: Pri) returns (ok: bool)
      requires Valid() && IsTask(Abs(), t)
      ensures ok == CheckCeilpri(Abs(), t, bpriority)
    {
      ghost var ms := held[t];
      assert ChainAt(lastmtx[t], prevmtx, ms);
      var p := lastmtx[t];
      ghost var i := |ms|;
      while p.Some?
        invariant 0 <= i <= |ms| && p == LastOf(ms, i)
        invariant forall j :: i <= j < |ms| && Ceiling(cfg, ms[j]).Some? ==> Ceiling(cfg, ms[j]).value <= bpriority
        decreases i
      {
        var c := Ceiling(cfg, p.value);
        if c.Some? && bpriority < c.value {
          assert ms[i - 1] in ms;
          return false;
        }
        p := prevmtx[p.value];
        i := i - 1;
      }
      if tcb[t].stat.Waiting? && tcb[t].stat.cause.OnQueue? {
        var c := Ceiling(cfg, tcb[t].stat.cause.q);
        if c.Some? && bpriority < c.value {
          return false;
        }
      }
      return true;
    }

    /** mutex_scan_ceilmtx: is any ceiling mutex in the chain? */
    method MutexScanCeilmtx(t: TaskId) returns (found: bool)
      requires Valid() && IsTask(Abs(), t)
      ensures found == ScanCeilmtx(Abs(), t)
    {
      ghost var ms := held[t];
      assert ChainAt(lastmtx[t], prevmtx, ms);
      var p := lastmtx[t];
      ghost var i := |ms|;
      while p.Some?
        invariant 0 <= i <= |ms| && p == LastOf(ms, i)
        invariant forall j :: i <= j < |ms| ==> Ceiling(cfg, ms[j]).None?
        decreases i
      {
        if Ceiling(cfg, p.value).Some? {
          assert ms[i - 1] in ms;
          return true;
        }
        p := prevmtx[p.value];
        i := i - 1;
      }
      return false;
    }

    /** mutex_calc_priority walks the chain from the most recent mutex. */
    method MutexCalcPriority(t: TaskId) returns (priority: Pri)
      requires Valid() && IsTask(Abs(), t)
      ensures priority == MinCeiling(cfg, tcb[t].bpri, held[t])
    {
      hide QueueShape;
      ghost var ms := held[t];
      assert ChainAt(lastmtx[t], prevmtx, ms);
      priority := tcb[t].bpri;
      var p := lastmtx[t];
      ghost var i := |ms|;
      while p.Some?
        invariant 0 <= i <= |ms| && p == LastOf(ms, i)
        invariant priority == MinCeiling(cfg, tcb[t].bpri, ms[i..])
        decreases i
      {
        var c := Ceiling(cfg, p.value);
        if c.Some? && c.value < priority {
          priority := c.value;
        }
        assert ms[i - 1..] == [ms[i - 1]] + ms[i..];
        p := prevmtx[p.value];
        i := i - 1;
      }
      assert ms[0..] == ms;
    }

    /** The linking part of mutex_acquire and mutex_release. */
    method ChainMutex(t: TaskId, m: WobjId)
      requires Valid() && IsTask(Abs(), t) && IsMutex(cfg, m)
      requires forall u :: 0 <= u < |held| ==> m !in held[u]
      modifies `loctsk, `lastmtx, `prevmtx, `held
      ensures Valid() && Abs() == SetHeld(SetOwner(old(Abs()), m, Some(t)), t, old(held)[t] + [m])
    {
      ChainPush(lastmtx, prevmtx, held, t, m);
      ghost var r := SetHeld(SetOwner(Abs(), m, Some(t)), t, held[t] + [m]);
      UnitsKept(Abs(), r, t, primap, predtsk);
      loctsk := loctsk[m := Some(t)];
      prevmtx := prevmtx[m := lastmtx[t]];
      lastmtx := lastmtx[t := Some(m)];
      held := held[t := held[t] + [m]];
    }

    method MutexAcquire(t: TaskId, m: WobjId)
      requires Valid() && Inv(Abs(), TIGHT) && IsTask(Abs(), t) && tcb[t].stat.Runnable?
      requires IsMutex(cfg, m) && m < |loctsk| && loctsk[m] == None
      requires Ceiling(cfg, m).Some? ==> Ceiling(cfg, m).value <= tcb[t].bpri
      modifies `tcb, `queues, `primap, `predtsk, `schedtsk, `loctsk, `lastmtx, `prevmtx, `held
      ensures Valid() && Abs() == KernelState.MutexAcquire(old(Abs()), t, m)
    {
      hide UnitsOk, ChainsAt, Choice, Best, Inv, QueueShape, TaskShape, KernelState.ChangePriority;
      Bounds(Abs(), primap, predtsk, t);
      OwnedInv(Abs(), TIGHT, t, m);
      ChainMutex(t, m);
      CeilingRange(cfg, m);
      var c := Ceiling(cfg, m);
      if c.Some? && c.value < tcb[t].pri {
        ChangePriority(t, c.value, true, Stale(TIGHT, t));
      }
    }

    /** mutex_drop_priority. */
    method MutexDropPriority(t: TaskId, m: WobjId, ghost s: Slack)
      requires Valid() && Inv(Abs(), s) && IsTask(Abs(), t) && t !in s.out && IsMutex(cfg, m)
      modifies `tcb, `queues, `primap, `predtsk, `schedtsk
      ensures Valid() && Abs() == KernelState.MutexDropPriority(old(Abs()), t, m)
    {
      hide UnitsOk, ChainsAt, Choice, Best, Inv, QueueShape, KernelState.ChangePriority;
      Bounds(Abs(), primap, predtsk, t);
      assert TcbShape(cfg, tcb[t]);
      if Ceiling(cfg, m) == Some(tcb[t].pri) {
        var newpri := MutexCalcPriority(t);
        if newpri != tcb[t].pri {
          ChangePriority(t, newpri, true, s);
        }
      }
    }

    /** mutex_release: the first waiter takes over, or the mutex is left without an owner. */
    method MutexRelease(m: WobjId, ghost s: Slack)
      requires Valid() && Inv(Abs(), s) && IsMutex(cfg, m) && m in s.free
      modifies `tcb, `queues, `primap, `predtsk, `schedtsk, `timed, `loctsk, `lastmtx, `prevmtx, `held
      ensures Valid() && Abs() == KernelState.MutexRelease(old(Abs()), m)
    {
      hide UnitsOk, ChainsAt, Choice, Best, Inv, TaskShape, QueueShape, KernelState.MakeNonWait, CfgOk, LevelsOk;
      ghost var k := Abs();
      UnitsShape(k, primap, predtsk);
      HomeKnown(k, WaitQ(m));
      if queues[WaitQ(m)] == [] {
        Disown(m);
      } else {
        ghost var _ := HeadLeaves(k, s, m);
        FreeChains(k, s, m);
        var t := queues[WaitQ(m)][0];
        RunnableOnce(k, s, t);
        Bounds(k, primap, predtsk, t);
        WobjQueueDelete(m, t);
        WaitDequeueTmevtb(t);
        SetRecord(t, tcb[t].(wercd := E_OK));
        TakeOver(t, m);
        MakeNonWait(t);
      }
    }

    method Disown(m: WobjId)
      requires Valid() && IsMutex(cfg, m)
      modifies `loctsk
      ensures Valid() && Abs() == SetOwner(old(Abs()), m, None)
    {
      UnitsSame(Abs(), SetOwner(Abs(), m, None), primap, predtsk);
      loctsk := loctsk[m := None];
    }

    /** The new owner of a mutex, still off every ready queue, gets mutex and ceiling. */
    method TakeOver(t: TaskId, m: WobjId)
      requires Valid() && IsTask(Abs(), t) && IsMutex(cfg, m) && NotReady(Abs(), t)
      requires forall u :: 0 <= u < |held| ==> m !in held[u]
      modifies `tcb, `loctsk, `lastmtx, `prevmtx, `held
      ensures Valid() && Abs() == MutexHandOver(old(Abs()), m, t)
    {
      hide UnitsOk, ChainsAt, Choice, Best, QueueShape, TaskShape;
      Bounds(Abs(), primap, predtsk, t);
      CeilingRange(cfg, m);
      ChainMutex(t, m);
      var c := Ceiling(cfg, m);
      if c.Some? && c.value < tcb[t].pri {
        UnitsKept(Abs(), SetPri(Abs(), t, c.value), t, primap, predtsk);
        tcb := tcb[t := tcb[t].(pri := c.value)];
      }
    }
  
    /** The most recently locked mutex leaves the chain of `t`. */
    method PopMutex(t: TaskId, ghost s: Slack) returns (m: WobjId)
      requires Valid() && Inv(Abs(), s) && IsTask(Abs(), t) && Abs().held[t] != []
      modifies `lastmtx, `held
      ensures m == old(held)[t][|old(held)[t]| - 1] && IsMutex(cfg, m)
      ensures Valid() && Abs() == PopHeld(old(Abs()), t)
    {
      hide UnitsOk, Choice, Best, Inv, QueueShape, TaskShape;
      UnitsShape(Abs(), primap, predtsk);
      ChainsApart(Abs(), s, t);
      ChainCut(lastmtx, prevmtx, held, t, |held[t]| - 1);
      assert ChainAt(lastmtx[t], prevmtx, held[t]);
      UnitsSame(Abs(), PopHeld(Abs(), t), primap, predtsk);
      m := lastmtx[t].value;
      lastmtx := lastmtx[t := prevmtx[m]];
      held := held[t := held[t][..|held[t]| - 1]];
    }

    /** mutex_release_all. */
    method MutexReleaseAll(t: TaskId, ghost s: Slack)
      requires Valid() && Inv(Abs(), s) && IsTask(Abs(), t) && t in s.out && t in s.stale
      modifies `tcb, `queues, `primap, `predtsk, `schedtsk, `timed, `loctsk, `lastmtx, `prevmtx, `held
      ensures Valid() && Abs() == KernelState.MutexReleaseAll(old(Abs()), t, |old(Abs()).held[t]|)
    {
      hide UnitsOk, Choice, Best, Inv, QueueShape, TaskShape, KernelState.MutexRelease, PopHeld, ChainsAt;
      ghost var k := Abs();
      UnitsShape(k, primap, predtsk);
      LastHeld(lastmtx, prevmtx, held, t);
      while lastmtx[t].Some?
        invariant Valid() && Inv(Abs(), s) && Shape(Abs()) && IsTask(Abs(), t) && t < |held| && t < |lastmtx|
        invariant lastmtx[t].Some? <==> held[t] != []
        invariant KernelState.MutexReleaseAll(Abs(), t, |held[t]|) == KernelState.MutexReleaseAll(k, t, |k.held[t]|)
        decreases |held[t]|
      {
        ReleaseNext(t, s);
        UnitsShape(Abs(), primap, predtsk);
        LastHeld(lastmtx, prevmtx, held, t);
      }
    }

    /** One turn of the loop. */
    method ReleaseNext(t: TaskId, ghost s: Slack)
      requires Valid() && Inv(Abs(), s) && IsTask(Abs(), t) && t in s.out && t in s.stale && Abs().held[t] != []
      modifies `tcb, `queues, `primap, `predtsk, `schedtsk, `timed, `loctsk, `lastmtx, `prevmtx, `held
      ensures Valid() && Inv(Abs(), s) && Kept(old(Abs()), Abs())
      ensures var k := old(Abs());
              var m := k.held[t][|k.held[t]| - 1];
              IsMutex(cfg, m) && Abs() == KernelState.MutexRelease(PopHeld(k, t), m) && |Abs().held[t]| == |k.held[t]| - 1
    {
      hide UnitsOk, Choice, Best, Inv, QueueShape, TaskShape, KernelState.MutexRelease, PopHeld, ChainsAt;
      UnitsShape(Abs(), primap, predtsk);
      PopInv(Abs(), s, t);
      ghost var _ := ReleaseLast(Abs(), s, t);
      var m := PopMutex(t, s);
      MutexRelease(m, s.(free := s.free + {m}, stale := s.stale + {t}));
    }

    /** task_terminate. */
    method TaskTerminate(t: TaskId, n: nat)
      requires Valid() && Inv(Abs(), TIGHT) && IsTask(Abs(), t) && !tcb[t].stat.Dormant?
      modifies `tcb, `queues, `primap, `predtsk, `schedtsk, `timed, `loctsk, `lastmtx, `prevmtx, `held
      ensures Valid() && Abs() == KernelState.TaskTerminate(old(Abs()), t, n)
    {
      hide UnitsOk, Choice, Best, Inv, QueueShape, TaskShape, ChainsAt, KernelState.MutexReleaseAll,
        KernelState.WaitDequeueWobj, KernelState.MakeNonRunnable, DormantTcb;
      ghost var k := Abs();
      ghost var s := Stale(Out(TIGHT, t), t);
      Bounds(k, primap, predtsk, t);
      RunnableOnce(k, TIGHT, t);
      ghost var k1 := TaskOutInv(k, t, n);
      if tcb[t].stat.Runnable? {
        MakeNonRunnable(t);
      } else if tcb[t].stat.Waiting? {
        WaitDequeueWobj(t, n);
        WaitDequeueTmevtb(t);
      }
      TerminateRest(t, s);
    }

    /** The second half of task_terminate: mutexes, reset, restart. */
    method TerminateRest(t: TaskId, ghost s: Slack)
      requires Valid() && Inv(Abs(), s) && IsTask(Abs(), t) && t in s.out && t in s.stale
      modifies `tcb, `queues, `primap, `predtsk, `schedtsk, `timed, `loctsk, `lastmtx, `prevmtx, `held
      ensures var k1 := old(Abs());
              var k2 := KernelState.MutexReleaseAll(k1, t, |k1.held[t]|);
              var k3 := KernelState.MakeDormant(k2, t);
              Valid() && Abs() == if k3.tcb[t].actque
                then KernelState.MakeActive(SetTcb(k3, t, k3.tcb[t].(actque := false)), t) else k3
    {
      hide UnitsOk, Choice, Best, Inv, QueueShape, TaskShape, ChainsAt, KernelState.MutexReleaseAll, DormantTcb;
      UnitsShape(Abs(), primap, predtsk);
      MutexReleaseAllInv(Abs(), s, t, |held[t]|);
      LastHeld(lastmtx, prevmtx, held, t);
      NoneHeld(Abs(), t);
      if lastmtx[t] != None {
        MutexReleaseAll(t, s);
      }
      UnitsShape(Abs(), primap, predtsk);
      RunnableOnce(Abs(), s, t);
      MakeDormant(t);
      if tcb[t].actque {
        Bounds(Abs(), primap, predtsk, t);
        SetRecord(t, tcb[t].(actque := false));
        MakeActive(t);
      }
    }

    // ---------------------------------------------------------------- dispatching

    /** dispatch, or the dispatch requested on return from an interrupt: run p_schedtsk. */
    method DispatchNow()
      requires Valid()
      modifies `runtsk
      ensures Valid() && Abs() == Dispatch(old(Abs()))
    {
      ghost var k := Abs();
      ghost var r := Dispatch(k);
      ChoiceInRange(k);
      if runtsk != schedtsk {
        runtsk := schedtsk;
      }
      assert Abs() == r;
      UnitsSame(k, r, primap, predtsk);
    }
  
    // ---------------------------------------------------------------- service calls

    ghost predicate CanDo(c: Call)
      reads this
    {
      Valid() && Settled(Abs()) && Callable(Abs(), c)
    }

    /** The call has done to the kernel what the abstract step does, and returns its result. */
    ghost predicate Does(k: K, c: Call, ercd: Ercd)
      reads this
      requires Shape(k) && Callable(k, c)
    {
      Valid() && Settled(Abs()) && (Abs(), ercd) == Step(k, c)
    }

    method ActTsk(t: TaskId) returns (ercd: Ercd)
      requires CanDo(Call.ActTsk(t))
      modifies this
      ensures Does(old(Abs()), Call.ActTsk(t), ercd)
    {
      hide UnitsOk, Choice, Best, Inv, QueueShape, TaskShape, ChainsAt, Dispatch, KernelState.MakeActive;
      Start(Abs(), Call.ActTsk(t), primap, predtsk);
      if tcb[t].stat.Dormant? {
        MakeActive(t);
        DispatchNow();
        ercd := E_OK;
      } else if cfg.noactque[t] || tcb[t].actque {
        ercd := E_QOVR;
      } else {
        Bounds(Abs(), primap, predtsk, t);
        SetRecord(t, tcb[t].(actque := true));
        ercd := E_OK;
      }
    }

    method ChgPri(t: TaskId, newpri: Option<Pri>) returns (ercd: Ercd)
      requires CanDo(Call.ChgPri(t, newpri))
      modifies this
      ensures Does(old(Abs()), Call.ChgPri(t, newpri), ercd)
    {
      hide UnitsOk, Choice, Best, Inv, QueueShape, TaskShape, ChainsAt, Dispatch, KernelState.ChangePriority;
      Start(Abs(), Call.ChgPri(t, newpri), primap, predtsk);
      Bounds(Abs(), primap, predtsk, t);
      var newbpri := if newpri.Some? then newpri.value else cfg.ipri[t];
      var checked := MutexCheckCeilpri(t, newbpri);
      LastHeld(lastmtx, prevmtx, held, t);
      if tcb[t].stat.Dormant? {
        ercd := E_OBJ;
      } else if (lastmtx[t] != None || WaitsMtxIn(cfg, tcb[t])) && !checked {
        ercd := E_ILUSE;
      } else {
        var moved := ChangeBase(t, newbpri);
        if moved {
          DispatchNow();
        }
        ercd := E_OK;
      }
    }
  
    method SlpTsk(tmo: Tmo) returns (ercd: Ercd)
      requires CanDo(Call.SlpTsk(tmo))
      modifies this
      ensures Does(old(Abs()), Call.SlpTsk(tmo), ercd)
    {
      hide UnitsOk, Choice, Best, Inv, QueueShape, TaskShape, ChainsAt, Dispatch, KernelState.MakeWait;
      Start(Abs(), Call.SlpTsk(tmo), primap, predtsk);
      var t := runtsk.value;
      if !dspflg {
        ercd := E_CTX;
      } else if tcb[t].raster {
        ercd := E_RASTER;
      } else if tcb[t].wupque {
        Bounds(Abs(), primap, predtsk, t);
        SetRecord(t, tcb[t].(wupque := false));
        ercd := E_OK;
      } else if tmo.Poll? {
        ercd := E_TMOUT;
      } else {
        MakeWait(t, Sleeping, tmo.Timed?, TIGHT);
        DispatchNow();
        ercd := Blocked;
      }
    }

    method WupTsk(t: TaskId) returns (ercd: Ercd)
      requires CanDo(Call.WupTsk(t))
      modifies this
      ensures Does(old(Abs()), Call.WupTsk(t), ercd)
    {
      hide UnitsOk, Choice, Best, Inv, QueueShape, TaskShape, ChainsAt, Dispatch, KernelState.WaitEnd;
      Start(Abs(), Call.WupTsk(t), primap, predtsk);
      if tcb[t].stat.Dormant? {
        ercd := E_OBJ;
      } else if tcb[t].stat.Waiting? && tcb[t].stat.cause.Sleeping? {
        WaitEnd(t, E_OK);
        DispatchNow();
        ercd := E_OK;
      } else if !tcb[t].wupque {
        Bounds(Abs(), primap, predtsk, t);
        SetRecord(t, tcb[t].(wupque := true));
        ercd := E_OK;
      } else {
        ercd := E_QOVR;
      }
    }

    method DlyTsk() returns (ercd: Ercd)
      requires CanDo(Call.DlyTsk)
      modifies this
      ensures Does(old(Abs()), Call.DlyTsk, ercd)
    {
      hide UnitsOk, Choice, Best, Inv, QueueShape, TaskShape, ChainsAt, Dispatch, KernelState.MakeWait;
      Start(Abs(), Call.DlyTsk, primap, predtsk);
      var t := runtsk.value;
      if !dspflg {
        ercd := E_CTX;
      } else if tcb[t].raster {
        ercd := E_RASTER;
      } else {
        MakeWait(t, Delayed, true, TIGHT);
        DispatchNow();
        ercd := Blocked;
      }
    }

    method RelWai(t: TaskId, n: nat) returns (ercd: Ercd)
      requires CanDo(Call.RelWai(t, n))
      modifies this
      ensures Does(old(Abs()), Call.RelWai(t, n), ercd)
    {
      hide UnitsOk, Choice, Best, Inv, QueueShape, TaskShape, ChainsAt, Dispatch, KernelState.WaitEnd, KernelState.WaitDequeueWobj;
      Start(Abs(), Call.RelWai(t, n), primap, predtsk);
      if !tcb[t].stat.Waiting? {
        ercd := E_OBJ;
      } else {
        WaitDequeueWobj(t, n);
        WaitEnd(t, E_RLWAI);
        DispatchNow();
        ercd := E_OK;
      }
    }

    method SusTsk(t: TaskId) returns (ercd: Ercd)
      requires CanDo(Call.SusTsk(t))
      modifies this
      ensures Does(old(Abs()), Call.SusTsk(t), ercd)
    {
      hide UnitsOk, Choice, Best, Inv, QueueShape, TaskShape, ChainsAt, Dispatch, KernelState.MakeNonRunnable, CfgOk,
        LevelsOk;
      Start(Abs(), Call.SusTsk(t), primap, predtsk);
      Bounds(Abs(), primap, predtsk, t);
      if runtsk == Some(t) && !dspflg {
        ercd := E_CTX;
      } else if tcb[t].stat.Dormant? {
        ercd := E_OBJ;
      } else if tcb[t].raster {
        ercd := E_RASTER;
      } else if tcb[t].stat.Runnable? {
        RunnableOnce(Abs(), TIGHT, t);
        SetRecord(t, tcb[t].(stat := Suspended));
        MakeNonRunnable(t);
        DispatchNow();
        ercd := E_OK;
      } else if SuspFlag(tcb[t].stat) {
        ercd := E_QOVR;
      } else {
        SetRecord(t, tcb[t].(stat := tcb[t].stat.(susp := true)));
        ercd := E_OK;
      }
    }

    method RsmTsk(t: TaskId) returns (ercd: Ercd)
      requires CanDo(Call.RsmTsk(t))
      modifies this
      ensures Does(old(Abs()), Call.RsmTsk(t), ercd)
    {
      hide UnitsOk, Choice, Best, Inv, QueueShape, TaskShape, ChainsAt, Dispatch, KernelState.MakeRunnable, CfgOk;
      Start(Abs(), Call.RsmTsk(t), primap, predtsk);
      Bounds(Abs(), primap, predtsk, t);
      if !SuspFlag(tcb[t].stat) {
        ercd := E_OBJ;
      } else if !tcb[t].stat.Waiting? {
        Resume(t);
        DispatchNow();
        ercd := E_OK;
      } else {
        SetRecord(t, tcb[t].(stat := tcb[t].stat.(susp := false)));
        ercd := E_OK;
      }
    }

    method ExtTsk(twd: UnitId, idle: UnitId) returns (ercd: Ercd)
      requires CanDo(Call.ExtTsk(twd, idle))
      modifies this
      ensures Does(old(Abs()), Call.ExtTsk(twd, idle), ercd)
    {
      hide UnitsOk, Choice, Best, Inv, QueueShape, TaskShape, ChainsAt, Dispatch, KernelState.TaskTerminate;
      Start(Abs(), Call.ExtTsk(twd, idle), primap, predtsk);
      var t := runtsk.value;
      WindowInv(Abs(), true, twd, idle);
      if !dspflg {
        SetDspflg(twd, idle);
      }
      TaskTerminate(t, 0);
      DispatchNow();
      ercd := NoReturn;
    }

    method RasTer(t: TaskId, n: nat) returns (ercd: Ercd)
      requires CanDo(Call.RasTer(t, n))
      modifies this
      ensures Does(old(Abs()), Call.RasTer(t, n), ercd)
    {
      hide UnitsOk, Choice, Best, Inv, QueueShape, TaskShape, ChainsAt, Dispatch, KernelState.TaskTerminate, RasterRelease;
      Start(Abs(), Call.RasTer(t, n), primap, predtsk);
      Bounds(Abs(), primap, predtsk, t);
      if runtsk == Some(t) {
        ercd := E_ILUSE;
      } else if tcb[t].stat.Dormant? {
        ercd := E_OBJ;
      } else if tcb[t].enater {
        TaskTerminate(t, n);
        DispatchNow();
        ercd := E_OK;
      } else {
        SetRecord(t, tcb[t].(raster := true));
        if !tcb[t].stat.Runnable? {
          ReleaseForRaster(t, n);
          DispatchNow();
        }
        ercd := E_OK;
      }
    }

    method EnaTer() returns (ercd: Ercd)
      requires CanDo(Call.EnaTer)
      modifies this
      ensures Does(old(Abs()), Call.EnaTer, ercd)
    {
      hide UnitsOk, Choice, Best, Inv, QueueShape, TaskShape, ChainsAt, Dispatch, KernelState.TaskTerminate;
      Start(Abs(), Call.EnaTer, primap, predtsk);
      var t := runtsk.value;
      if tcb[t].raster && dspflg {
        TaskTerminate(t, 0);
        DispatchNow();
        ercd := NoReturn;
      } else {
        Bounds(Abs(), primap, predtsk, t);
        SetRecord(t, tcb[t].(enater := true));
        ercd := E_OK;
      }
    }

    method TerTsk(t: TaskId, n: nat) returns (ercd: Ercd)
      requires CanDo(Call.TerTsk(t, n))
      modifies this
      ensures Does(old(Abs()), Call.TerTsk(t, n), ercd)
    {
      hide UnitsOk, Choice, Best, Inv, QueueShape, TaskShape, ChainsAt, Dispatch, KernelState.TaskTerminate;
      Start(Abs(), Call.TerTsk(t, n), primap, predtsk);
      if runtsk == Some(t) {
        ercd := E_ILUSE;
      } else if tcb[t].stat.Dormant? {
        ercd := E_OBJ;
      } else {
        TaskTerminate(t, n);
        DispatchNow();
        ercd := E_OK;
      }
    }

    method LocMtx(m: WobjId, tmo: Tmo) returns (ercd: Ercd)
      requires CanDo(Call.LocMtx(m, tmo))
      modifies this
      ensures Does(old(Abs()), Call.LocMtx(m, tmo), ercd)
    {
      hide UnitsOk, Choice, Best, Inv, QueueShape, TaskShape, ChainsAt, Dispatch, KernelState.MutexAcquire, KernelState.WobjMakeWait;
      Start(Abs(), Call.LocMtx(m, tmo), primap, predtsk);
      var t := runtsk.value;
      if !dspflg {
        ercd := E_CTX;
      } else if tcb[t].raster {
        ercd := E_RASTER;
      } else if Ceiling(cfg, m).Some? && tcb[t].bpri < Ceiling(cfg, m).value {
        ercd := E_ILUSE;
      } else if loctsk[m] == None {
        LockNeedsNoDispatch(Abs(), t, m);
        MutexAcquire(t, m);
        assert runtsk == schedtsk;
        ercd := E_OK;
      } else if loctsk[m] == Some(t) {
        ercd := E_OBJ;
      } else if tmo.Poll? {
        ercd := E_TMOUT;
      } else {
        WobjMakeWait(t, m, tmo.Timed?, TIGHT);
        DispatchNow();
        ercd := Blocked;
      }
    }

    method PlocMtx(m: WobjId) returns (ercd: Ercd)
      requires CanDo(Call.PlocMtx(m))
      modifies this
      ensures Does(old(Abs()), Call.PlocMtx(m), ercd)
    {
      hide UnitsOk, Choice, Best, Inv, QueueShape, TaskShape, ChainsAt, Dispatch, KernelState.MutexAcquire;
      Start(Abs(), Call.PlocMtx(m), primap, predtsk);
      var t := runtsk.value;
      if Ceiling(cfg, m).Some? && tcb[t].bpri < Ceiling(cfg, m).value {
        ercd := E_ILUSE;
      } else if loctsk[m] == None {
        if dspflg {
          LockNeedsNoDispatch(Abs(), t, m);
        }
        MutexAcquire(t, m);
        assert runtsk == schedtsk;
        ercd := E_OK;
      } else if loctsk[m] == Some(t) {
        ercd := E_OBJ;
      } else {
        ercd := E_TMOUT;
      }
    }

    method UnlMtx(m: WobjId) returns (ercd: Ercd)
      requires CanDo(Call.UnlMtx(m))
      modifies this
      ensures Does(old(Abs()), Call.UnlMtx(m), ercd)
    {
      hide UnitsOk, Choice, Best, Inv, QueueShape, TaskShape, ChainsAt, Dispatch, KernelState.MutexRelease, KernelState.MutexDropPriority;
      Start(Abs(), Call.UnlMtx(m), primap, predtsk);
      var t := runtsk.value;
      LastIs(lastmtx, prevmtx, held, t);
      if lastmtx[t] != Some(m) {
        ercd := E_OBJ;
      } else {
        ghost var s := Stale(Free(TIGHT, m), t);
        PopInv(Abs(), TIGHT, t);
        ghost var ms := held[t];
        PriIsMin(Abs(), t);
        var _ := PopMutex(t, TIGHT);
        MutexDropPriorityInv(Abs(), s, t, ms, |ms| - 1);
        MutexDropPriority(t, m, s);
        MutexRelease(m, Fresh(s, t));
        DispatchNow();
        ercd := E_OK;
      }
    }

    method IniMtx(m: WobjId) returns (ercd: Ercd)
      requires CanDo(Call.IniMtx(m))
      modifies this
      ensures Does(old(Abs()), Call.IniMtx(m), ercd)
    {
      hide UnitsOk, Choice, Best, Inv, QueueShape, TaskShape, ChainsAt, Dispatch, KernelState.InitWaitQueue, KernelState.MutexDropPriority;
      Start(Abs(), Call.IniMtx(m), primap, predtsk);
      InitWaitQueueInv(Abs(), TIGHT, m);
      InitWaitQueue(m);
      UnitsShape(Abs(), primap, predtsk);
      OwnerKnown(Abs(), m);
      if loctsk[m] != None {
        ReclaimMutex(loctsk[m].value, m);
      }
      DispatchNow();
      ercd := E_OK;
    }

    method WaiSem(q: WobjId, tmo: Tmo) returns (ercd: Ercd)
      requires CanDo(Call.WaiSem(q, tmo))
      modifies this
      ensures Does(old(Abs()), Call.WaiSem(q, tmo), ercd)
    {
      hide UnitsOk, Choice, Best, Inv, QueueShape, TaskShape, ChainsAt, Dispatch, KernelState.WobjMakeWait;
      Start(Abs(), Call.WaiSem(q, tmo), primap, predtsk);
      var t := runtsk.value;
      if !dspflg {
        ercd := E_CTX;
      } else if tcb[t].raster {
        ercd := E_RASTER;
      } else if semcnt[q] >= 1 {
        SetSemcnt(q, semcnt[q] - 1);
        ercd := E_OK;
      } else if tmo.Poll? {
        ercd := E_TMOUT;
      } else {
        WobjMakeWait(t, q, tmo.Timed?, TIGHT);
        DispatchNow();
        ercd := Blocked;
      }
    }

    method SigSem(q: WobjId) returns (ercd: Ercd)
      requires CanDo(Call.SigSem(q))
      modifies this
      ensures Does(old(Abs()), Call.SigSem(q), ercd)
    {
      hide UnitsOk, Choice, Best, Inv, QueueShape, TaskShape, ChainsAt, Dispatch, KernelState.WakeFirst;
      Start(Abs(), Call.SigSem(q), primap, predtsk);
      if queues[WaitQ(q)] != [] {
        var _ := WakeFirst(q, E_OK);
        DispatchNow();
        ercd := E_OK;
      } else if semcnt[q] < cfg.wobj[q].kind.maxsem {
        SetSemcnt(q, semcnt[q] + 1);
        ercd := E_OK;
      } else {
        ercd := E_QOVR;
      }
    }

    method IniSem(q: WobjId) returns (ercd: Ercd)
      requires CanDo(Call.IniSem(q))
      modifies this
      ensures Does(old(Abs()), Call.IniSem(q), ercd)
    {
      hide UnitsOk, Choice, Best, Inv, QueueShape, TaskShape, ChainsAt, Dispatch, KernelState.InitWaitQueue;
      Start(Abs(), Call.IniSem(q), primap, predtsk);
      InitWaitQueue(q);
      SetSemcnt(q, cfg.wobj[q].kind.isemcnt);
      DispatchNow();
      ercd := E_OK;
    }

    method Timeout(t: TaskId, n: nat) returns (ercd: Ercd)
      requires CanDo(Call.Timeout(t, n))
      modifies this
      ensures Does(old(Abs()), Call.Timeout(t, n), ercd)
    {
      hide UnitsOk, Choice, Best, Inv, QueueShape, TaskShape, ChainsAt, Dispatch, KernelCalls.Expire, CfgOk;
      Start(Abs(), Call.Timeout(t, n), primap, predtsk);
      Expire(t, n);
      DispatchNow();
      ercd := E_OK;
    }

    // ---------------------------------------------------------------- parts of the calls

    method SetSemcnt(q: WobjId, n: nat)
      requires Valid() && q < |semcnt|
      modifies `semcnt
      ensures Valid() && q < |old(semcnt)| && Abs() == SetSem(old(Abs()), q, n)
    {
      UnitsSame(Abs(), SetSem(Abs(), q, n), primap, predtsk);
      semcnt := semcnt[q := n];
    }

    /** set_dspflg: a window switch put off earlier may come first. */
    method SetDspflg(twd: UnitId, idle: UnitId)
      requires Valid() && twd < cfg.units && idle < cfg.units
      modifies `dspflg, `twdsched, `idlesched, `schedtsk
      ensures Valid() && Abs() == KernelCalls.SetDspflg(old(Abs()), twd, idle)
    {
      hide QueueShape, Best;
      UnitsSame(Abs(), KernelCalls.SetDspflg(Abs(), twd, idle), primap, predtsk);
      twdsched, idlesched := twd, idle;
      dspflg := true;
      UpdateSchedtsk();
    }

    /** wait_tmout and wait_tmout_ok, called after the block has been taken off the heap. */
    method Expire(t: TaskId, n: nat)
      requires Valid() && IsTask(Abs(), t)
      modifies this
      ensures Valid() && Abs() == KernelCalls.Expire(old(Abs()), t, n)
    {
      hide UnitsOk, Choice, Best, QueueShape, TaskShape, ChainsAt, CfgOk, KernelState.MakeNonWait, KernelState.WaitDequeueWobj;
      TmevtbDequeue(t);
      Bounds(Abs(), primap, predtsk, t);
      if tcb[t].stat.Waiting? && tcb[t].stat.cause.Delayed? {
        SetRecord(t, tcb[t].(wercd := E_OK));
      } else {
        WaitDequeueWobj(t, n);
        Bounds(Abs(), primap, predtsk, t);
        SetRecord(t, tcb[t].(wercd := E_TMOUT));
      }
      MakeNonWait(t);
    }

    /** The end of a suspension. */
    method Resume(t: TaskId)
      requires Valid() && IsTask(Abs(), t)
      modifies this
      ensures Valid() && Abs() == KernelState.MakeRunnable(SetStat(old(Abs()), t, Runnable), t)
    {
      hide UnitsOk, Choice, Best, QueueShape, TaskShape, ChainsAt, CfgOk, KernelState.MakeRunnable;
      Bounds(Abs(), primap, predtsk, t);
      SetRecord(t, tcb[t].(stat := Runnable));
      MakeRunnable(t);
    }

    /** The part of chg_pri that changes the priorities. */
    method ChangeBase(t: TaskId, newbpri: Pri) returns (moved: bool)
      requires Valid() && Inv(Abs(), TIGHT) && IsTask(Abs(), t) && newbpri < TNUM_TPRI && !tcb[t].stat.Dormant?
      requires CheckCeilpri(Abs(), t, newbpri) || (held[t] == [] && !WaitsMtxIn(cfg, tcb[t]))
      modifies this
      ensures Valid() && (moved <==> old(held[t]) == [] || !ScanCeilmtx(old(Abs()), t))
      ensures var k1 := SetTcb(old(Abs()), t, old(tcb[t]).(bpri := newbpri));
              Abs() == if moved then KernelState.ChangePriority(k1, t, newbpri, false) else k1
    {
      hide UnitsOk, Choice, Best, Inv, QueueShape, TaskShape, ChainsAt, KernelState.ChangePriority, CfgOk;
      Bounds(Abs(), primap, predtsk, t);
      ghost var k1 := BaseChanged(Abs(), t, newbpri);
      LastHeld(lastmtx, prevmtx, held, t);
      SetRecord(t, tcb[t].(bpri := newbpri));
      var scanned := MutexScanCeilmtx(t);
      moved := lastmtx[t] == None || !scanned;
      if moved {
        ChangePriority(t, newbpri, false, Stale(TIGHT, t));
      }
    }

    /** The release part of ras_ter. */
    method ReleaseForRaster(t: TaskId, n: nat)
      requires Valid() && IsTask(Abs(), t)
      modifies this
      ensures Valid() && Abs() == RasterRelease(old(Abs()), t, n)
    {
      hide UnitsOk, Choice, Best, QueueShape, TaskShape, ChainsAt, KernelState.WaitDequeueWobj, KernelState.MakeRunnable;
      UnitsShape(Abs(), primap, predtsk);
      if tcb[t].stat.Waiting? {
        WaitDequeueWobj(t, n);
        UnitsShape(Abs(), primap, predtsk);
        WaitDequeueTmevtb(t);
        Bounds(Abs(), primap, predtsk, t);
        SetRecord(t, tcb[t].(wercd := E_RASTER));
      }
      Bounds(Abs(), primap, predtsk, t);
      SetRecord(t, tcb[t].(stat := Runnable));
      MakeRunnable(t);
    }

    /** ini_mtx walks the owner's chain for the link that points to the mutex and makes it skip it. */
    method ReclaimMutex(t: TaskId, m: WobjId)
      requires Valid() && Inv(Abs(), TIGHT) && IsTask(Abs(), t) && IsMutex(cfg, m) && loctsk == Abs().owner
      requires m < |loctsk| && loctsk[m] == Some(t) && Q(Abs(), WaitQ(m)) == []
      modifies this
      ensures Valid() && (forall x :: x in Remove(old(Abs()).held[t], m) ==> IsMutex(cfg, x))
      ensures var k := old(Abs());
              Abs() == KernelState.MutexDropPriority(SetHeld(SetOwner(k, m, None), t, Remove(k.held[t], m)), t, m)
    {
      hide UnitsOk, Choice, Best, Inv, QueueShape, TaskShape, ChainsAt, KernelState.MutexDropPriority;
      ghost var k := Abs();
      ghost var n := ReclaimReady(k, m, t);
      UnitsShape(k, primap, predtsk);
      Disown(m);
      ChainsApart(k, TIGHT, t);
      UnlinkMutex(t, m, n);
      MutexDropPriority(t, m, Stale(TIGHT, t));
    }

    method UnlinkMutex(t: TaskId, m: WobjId, ghost n: nat)
      requires Valid() && IsTask(Abs(), t) && t < |held| && n < |held[t]| && held[t][n] == m && NoDup(held[t])
      requires forall u, i :: 0 <= u < |held| && u != t && 0 <= i < |held[u]| ==> held[u][i] !in held[t]
      requires Remove(held[t], m) == held[t][..n] + held[t][n + 1..]
      requires forall x :: x in Remove(held[t], m) ==> IsMutex(cfg, x)
      modifies `lastmtx, `prevmtx, `held
      ensures Valid() && Abs() == SetHeld(old(Abs()), t, Remove(old(held)[t], m))
    {
      hide UnitsOk, Choice, Best, QueueShape, TaskShape, ChainAt, NoDup, Remove;
      UnitsShape(Abs(), primap, predtsk);
      UnitsSame(Abs(), SetHeld(Abs(), t, Remove(held[t], m)), primap, predtsk);
      ChainCut(lastmtx, prevmtx, held, t, n);
      assert n + 1 == |held[t]| ==> held[t][..n] + held[t][n + 1..] == held[t][..n];
      LastIs(lastmtx, prevmtx, held, t);
      var link := FindLink(t, m, n);
      if link.None? {
        lastmtx := lastmtx[t := prevmtx[m]];
      } else {
        prevmtx := prevmtx[link.value := prevmtx[m]];
      }
      held := held[t := held[t][..n] + held[t][n + 1..]];
    }

    /** The chain walk: `link` is the mutex whose pointer leads to `m`; None stands for the task's. */
    method FindLink(t: TaskId, m: WobjId, ghost n: nat) returns (link: Option<WobjId>)
      requires t < |held| && t < |lastmtx| && ChainAt(lastmtx[t], prevmtx, held[t])
      requires n < |held[t]| && held[t][n] == m && NoDup(held[t])
      ensures link == if n + 1 == |held[t]| then None else Some(held[t][n + 1])
    {
      ghost var ms := held[t];
      link := None;
      var cur := lastmtx[t];
      ghost var i := |ms|;
      while cur != Some(m)
        invariant n < i <= |ms| && cur == Some(ms[i - 1])
        invariant link == if i == |ms| then None else Some(ms[i])
        decreases i
      {
        assert prevmtx[ms[i - 1]] == LastOf(ms, i - 1);
        link := cur;
        cur := prevmtx[cur.value];
        i := i - 1;
      }
      assert i - 1 == n;
    }
  
    method RotRdq(p: Pri, u: UnitId) returns (ercd: Ercd)
      requires CanDo(Call.RotRdq(p, u))
      modifies this
      ensures Does(old(Abs()), Call.RotRdq(p, u), ercd)
    {
      hide UnitsOk, Choice, Best, Inv, QueueShape, TaskShape, ChainsAt, Dispatch, KernelState.RotateReadyQueue;
      Start(Abs(), Call.RotRdq(p, u), primap, predtsk);
      RotateReadyQueue(p, u, TIGHT);
      DispatchNow();
      ercd := E_OK;
    }

    /** A change of window, or of the tasks that run when its tasks do not, with dispatching enabled:
        what scyc_switch and twd_switch leave to the scheduler. */
    method SwitchWindow(twd: UnitId, idle: UnitId) returns (ercd: Ercd)
      requires CanDo(Call.SwitchWindow(twd, idle))
      modifies this
      ensures Does(old(Abs()), Call.SwitchWindow(twd, idle), ercd)
    {
      hide UnitsOk, Choice, Best, Inv, QueueShape, TaskShape, ChainsAt, Dispatch;
      Start(Abs(), Call.SwitchWindow(twd, idle), primap, predtsk);
      WindowInv(Abs(), true, twd, idle);
      UnitsSame(Abs(), KernelCalls.SetDspflg(Abs(), twd, idle), primap, predtsk);
      twdsched, idlesched := twd, idle;
      UpdateSchedtsk();
      DispatchNow();
      ercd := E_OK;
    }

    /** ena_dsp; a window switch put off earlier comes first, then a termination put off. */
    method EnaDsp(twd: UnitId, idle: UnitId) returns (ercd: Ercd)
      requires CanDo(Call.EnaDsp(twd, idle))
      modifies this
      ensures Does(old(Abs()), Call.EnaDsp(twd, idle), ercd)
    {
      hide UnitsOk, Choice, Best, Inv, QueueShape, TaskShape, ChainsAt, Dispatch, KernelState.TaskTerminate;
      Start(Abs(), Call.EnaDsp(twd, idle), primap, predtsk);
      var t := runtsk.value;
      WindowInv(Abs(), true, twd, idle);
      SetDspflg(twd, idle);
      if tcb[t].raster && tcb[t].enater {
        TaskTerminate(t, 0);
        DispatchNow();
        ercd := NoReturn;
      } else {
        DispatchNow();
        ercd := E_OK;
      }
    }

    /** dis_dsp. */
    method DisDsp() returns (ercd: Ercd)
      requires CanDo(Call.DisDsp)
      modifies this
      ensures Does(old(Abs()), Call.DisDsp, ercd)
    {
      hide UnitsOk, Choice, Best, Inv, QueueShape, TaskShape, ChainsAt, Dispatch;
      Start(Abs(), Call.DisDsp, primap, predtsk);
      FreezeDispatch();
      ercd := E_OK;
    }

    method FreezeDispatch()
      requires Valid() && Settled(Abs())
      modifies `dspflg, `schedtsk
      ensures Valid() && Abs() == old(Abs()).(dsp := false)
    {
      hide Best, UnitsOk, Inv, ChainsAt;
      UnitsShape(Abs(), primap, predtsk);
      UnitsSame(Abs(), Abs().(dsp := false), primap, predtsk);
      dspflg := false;
    }

    /** `count` is what the call returns: how many activations it took away. */
    method CanAct(t: TaskId) returns (ercd: Ercd, count: nat)
      requires CanDo(Call.CanAct(t))
      modifies this
      ensures Does(old(Abs()), Call.CanAct(t), ercd)
      ensures t < |old(tcb)| && count == if old(tcb)[t].actque then 1 else 0
    {
      hide UnitsOk, Choice, Best, Inv, QueueShape, TaskShape, ChainsAt, Dispatch;
      Start(Abs(), Call.CanAct(t), primap, predtsk);
      Bounds(Abs(), primap, predtsk, t);
      count := if tcb[t].actque then 1 else 0;
      SetRecord(t, tcb[t].(actque := false));
      ercd := E_OK;
    }

    method CanWup(t: TaskId) returns (ercd: Ercd, count: nat)
      requires CanDo(Call.CanWup(t))
      modifies this
      ensures Does(old(Abs()), Call.CanWup(t), ercd)
      ensures t < |old(tcb)| && (ercd == E_OK ==> count == if old(tcb)[t].wupque then 1 else 0)
    {
      hide UnitsOk, Choice, Best, Inv, QueueShape, TaskShape, ChainsAt, Dispatch;
      Start(Abs(), Call.CanWup(t), primap, predtsk);
      Bounds(Abs(), primap, predtsk, t);
      count := 0;
      if tcb[t].stat.Dormant? {
        ercd := E_OBJ;
      } else {
        count := if tcb[t].wupque then 1 else 0;
        SetRecord(t, tcb[t].(wupque := false));
        ercd := E_OK;
      }
    }

    method DisTer() returns (ercd: Ercd)
      requires CanDo(Call.DisTer)
      modifies this
      ensures Does(old(Abs()), Call.DisTer, ercd)
    {
      hide UnitsOk, Choice, Best, Inv, QueueShape, TaskShape, ChainsAt, Dispatch;
      Start(Abs(), Call.DisTer, primap, predtsk);
      Bounds(Abs(), primap, predtsk, runtsk.value);
      SetRecord(runtsk.value, tcb[runtsk.value].(enater := false));
      ercd := E_OK;
    }

    /** What a blocking call of a message, data, flag or memory object does to the task. */
    method ObjWait(q: WobjId, tmo: Tmo) returns (ercd: Ercd)
      requires CanDo(Call.ObjWait(q, tmo))
      modifies this
      ensures Does(old(Abs()), Call.ObjWait(q, tmo), ercd)
    {
      hide UnitsOk, Choice, Best, Inv, QueueShape, TaskShape, ChainsAt, Dispatch, KernelState.WobjMakeWait;
      Start(Abs(), Call.ObjWait(q, tmo), primap, predtsk);
      var t := runtsk.value;
      if !dspflg {
        ercd := E_CTX;
      } else if tcb[t].raster {
        ercd := E_RASTER;
      } else if tmo.Poll? {
        ercd := E_TMOUT;
      } else {
        WobjMakeWait(t, q, tmo.Timed?, TIGHT);
        DispatchNow();
        ercd := Blocked;
      }
    }

    /** What the call that serves the waiting task at place `i` does to it. */
    method ObjWake(q: WobjId, i: nat) returns (ercd: Ercd)
      requires CanDo(Call.ObjWake(q, i))
      modifies this
      ensures Does(old(Abs()), Call.ObjWake(q, i), ercd)
    {
      hide UnitsOk, Choice, Best, Inv, QueueShape, TaskShape, ChainsAt, Dispatch, KernelState.WaitEnd;
      Start(Abs(), Call.ObjWake(q, i), primap, predtsk);
      WaiterKnown(Abs(), q, i);
      if i < |queues[WaitQ(q)]| {
        var t := queues[WaitQ(q)][i];
        WobjQueueDelete(q, t);
        WaitEnd(t, E_OK);
        DispatchNow();
      }
      ercd := E_OK;
    }

    /** What ini_mbf and the like do to the tasks waiting in one of the object's queues. */
    method ObjInit(q: WobjId) returns (ercd: Ercd)
      requires CanDo(Call.ObjInit(q))
      modifies this
      ensures Does(old(Abs()), Call.ObjInit(q), ercd)
    {
      hide UnitsOk, Choice, Best, Inv, QueueShape, TaskShape, ChainsAt, Dispatch, KernelState.InitWaitQueue;
      Start(Abs(), Call.ObjInit(q), primap, predtsk);
      InitWaitQueue(q);
      DispatchNow();
      ercd := E_OK;
    }

    /** Every step of the abstract kernel has its method: the class refines all of them. */
    method Do(c: Call) returns (ercd: Ercd)
      requires CanDo(c)
      modifies this
      ensures Does(old(Abs()), c, ercd)
    {
      hide CanDo, Does;
      match c
      case ActTsk(t) => ercd := ActTsk(t);
      case CanAct(t) =>
        var count;
        ercd, count := CanAct(t);
      case ChgPri(t, p) => ercd := ChgPri(t, p);
      case SlpTsk(tmo) => ercd := SlpTsk(tmo);
      case WupTsk(t) => ercd := WupTsk(t);
      case CanWup(t) =>
        var count;
        ercd, count := CanWup(t);
      case DlyTsk => ercd := DlyTsk();
      case RelWai(t, n) => ercd := RelWai(t, n);
      case SusTsk(t) => ercd := SusTsk(t);
      case RsmTsk(t) => ercd := RsmTsk(t);
      case ExtTsk(twd, idle) => ercd := ExtTsk(twd, idle);
      case RasTer(t, n) => ercd := RasTer(t, n);
      case DisTer => ercd := DisTer();
      case EnaTer => ercd := EnaTer();
      case TerTsk(t, n) => ercd := TerTsk(t, n);
      case RotRdq(p, u) => ercd := RotRdq(p, u);
      case LocMtx(m, tmo) => ercd := LocMtx(m, tmo);
      case PlocMtx(m) => ercd := PlocMtx(m);
      case UnlMtx(m) => ercd := UnlMtx(m);
      case IniMtx(m) => ercd := IniMtx(m);
      case WaiSem(q, tmo) => ercd := WaiSem(q, tmo);
      case SigSem(q) => ercd := SigSem(q);
      case IniSem(q) => ercd := IniSem(q);
      case ObjWait(q, tmo) => ercd := ObjWait(q, tmo);
      case ObjWake(q, i) => ercd := ObjWake(q, i);
      case ObjInit(q) => ercd := ObjInit(q);
      case Timeout(t, n) => ercd := Timeout(t, n);
      case DisDsp => ercd := DisDsp();
      case EnaDsp(twd, idle) => ercd := EnaDsp(twd, idle);
      case SwitchWindow(twd, idle) => ercd := SwitchWindow(twd, idle);
    }
  }
}
