/**
 What the scheduler caches must say: the priority bitmap and the best task of each scheduling unit,
 and the task chosen for the whole system. The lemmas justify each incremental update in task.c
 against the definitions in KernelState.
 */
module ReadyCaches {
  import opened Base
  import opened Bitmap
  import opened KernelState
  import opened KernelInvariant
  import opened KernelRuns

  /** Ready queues hold tasks of their own unit and priority. */
  ghost predicate LevelsOk(k: K)
    requires Shape(k)
  {
    forall u, p, i :: 0 <= u < k.cfg.units && 0 <= p < TNUM_TPRI && 0 <= i < |Q(k, Ready(u, p))| ==>
      LevelOk(k, u, p, Q(k, Ready(u, p))[i])
  }

  ghost predicate LevelOk(k: K, u: UnitId, p: Pri, t: TaskId)
    requires Shape(k)
  {
    IsTask(k, t) && k.tcb[t].pri == p && k.cfg.unitOf[t] == u
  }

  /** The bitmap marks the non-empty queues; the cached task is the unit's best. */
  ghost predicate UnitOk(k: K, u: UnitId, m: bv16, b: Option<TaskId>)
    requires Shape(k) && u < k.cfg.units
  {
    BitsOk(k, u, m) && b == Best(k, u)
  }

  ghost predicate BitsOk(k: K, u: UnitId, m: bv16)
    requires Shape(k) && u < k.cfg.units
  {
    forall p: nat :: p < TNUM_TPRI ==> (Bit(m, p) <==> Q(k, Ready(u, p)) != [])
  }

  ghost predicate UnitsOk(k: K, primap: seq<bv16>, pred: seq<Option<TaskId>>) {
    && Shape(k) && |primap| == |pred| == k.cfg.units && LevelsOk(k)
    && forall u :: 0 <= u < k.cfg.units ==> UnitOk(k, u, primap[u], pred[u])
  }

  /** With dispatching enabled the cached choice is current; otherwise it is frozen. */
  ghost predicate CachesOk(k: K, primap: seq<bv16>, pred: seq<Option<TaskId>>, sched: Option<TaskId>) {
    UnitsOk(k, primap, pred) && sched == if k.dsp then Choice(k) else k.run
  }

  /** Sizes and ranges a method needs to touch the tables. */
  lemma Bounds(k: K, primap: seq<bv16>, pred: seq<Option<TaskId>>, t: TaskId)
    requires UnitsOk(k, primap, pred) && IsTask(k, t)
    ensures Shape(k) && LevelsOk(k) && |primap| == |pred| == k.cfg.units && |k.cfg.unitOf| == |k.tcb| == |k.held|
    ensures k.cfg.unitOf[t] < k.cfg.units && k.tcb[t].pri < TNUM_TPRI && TcbShape(k.cfg, k.tcb[t])
    ensures Ready(k.cfg.unitOf[t], k.tcb[t].pri) in k.queues
    ensures ValidHome(k.cfg, Ready(k.cfg.unitOf[t], k.tcb[t].pri))
  {
  }

  lemma HomeKnown(k: K, h: Home)
    requires Shape(k) && ValidHome(k.cfg, h)
    ensures h in k.queues
  {
  }

  /** The level of the best task, or TNUM_TPRI. */
  lemma {:induction false} LevelFrom(k: K, u: UnitId, p: nat) returns (l: nat)
    requires Shape(k) && u < k.cfg.units && p <= TNUM_TPRI
    ensures p <= l <= TNUM_TPRI && forall i :: p <= i < l ==> Q(k, Ready(u, i)) == []
    ensures BestFrom(k, u, p) == if l == TNUM_TPRI then None else
              if Q(k, Ready(u, l)) == [] then BestFrom(k, u, p) else Some(Q(k, Ready(u, l))[0])
    ensures l < TNUM_TPRI ==> Q(k, Ready(u, l)) != []
    decreases TNUM_TPRI - p
  {
    if p == TNUM_TPRI || Q(k, Ready(u, p)) != [] { l := p; } else { l := LevelFrom(k, u, p + 1); }
  }

  /** If all levels below `l` are empty and `l` is not, the best is the head of level `l`. */
  lemma BestIsHead(k: K, u: UnitId, l: Pri)
    requires Shape(k) && u < k.cfg.units && l < TNUM_TPRI && Q(k, Ready(u, l)) != []
    requires forall i :: 0 <= i < l ==> Q(k, Ready(u, i)) == []
    ensures Best(k, u) == Some(Q(k, Ready(u, l))[0])
  {
    BestAt(k, u, 0, l);
  }

  lemma BestIsNone(k: K, u: UnitId)
    requires Shape(k) && u < k.cfg.units && forall i :: 0 <= i < TNUM_TPRI ==> Q(k, Ready(u, i)) == []
    ensures Best(k, u) == None
  {
    var l := LevelFrom(k, u, 0);
  }

  /** The best task's priority is its level; everything above is empty. */
  lemma BestLevel(k: K, u: UnitId)
    requires Shape(k) && LevelsOk(k) && u < k.cfg.units
    ensures Best(k, u) == None ==> forall i :: 0 <= i < TNUM_TPRI ==> Q(k, Ready(u, i)) == []
    ensures Best(k, u).Some? ==>
              var t := Best(k, u).value;
              && IsTask(k, t) && k.cfg.unitOf[t] == u && Q(k, Ready(u, k.tcb[t].pri)) != []
              && Q(k, Ready(u, k.tcb[t].pri))[0] == t
              && forall i :: 0 <= i < k.tcb[t].pri ==> Q(k, Ready(u, i)) == []
  {
    var l := LevelFrom(k, u, 0);
    if l < TNUM_TPRI { assert LevelOk(k, u, l, Q(k, Ready(u, l))[0]); }
  }

  /** A unit whose queues did not change keeps its caches. */
  lemma UnitKept(k: K, r: K, u: UnitId, m: bv16, b: Option<TaskId>)
    requires Shape(k) && Shape(r) && r.cfg == k.cfg && u < k.cfg.units && UnitOk(k, u, m, b)
    requires forall p :: 0 <= p < TNUM_TPRI ==> r.queues[Ready(u, p)] == k.queues[Ready(u, p)]
    ensures UnitOk(r, u, m, b)
  {
    BestSame(k, r, u, 0);
  }

  // ---------------------------------------------------------------- the incremental updates

  /** No queue of another unit changed. */
  ghost predicate OthersSame(k: K, r: K, u: UnitId)
    requires Shape(k) && Shape(r) && r.cfg == k.cfg
  {
    forall v, p :: 0 <= v < k.cfg.units && v != u && 0 <= p < TNUM_TPRI ==> r.queues[Ready(v, p)] == k.queues[Ready(v, p)]
  }

  /** Only unit `u` changed: its caches suffice. */
  lemma UnitChanged(k: K, r: K, u: UnitId, primap: seq<bv16>, pred: seq<Option<TaskId>>, m: bv16, b: Option<TaskId>)
    requires UnitsOk(k, primap, pred) && Shape(r) && r.cfg == k.cfg && LevelsOk(r) && u < k.cfg.units
    requires OthersSame(k, r, u)
    requires UnitOk(r, u, m, b)
    ensures UnitsOk(r, primap[u := m], pred[u := b])
  {
    hide BitsOk;
    var pm, pd := primap[u := m], pred[u := b];
    forall v | 0 <= v < k.cfg.units ensures UnitOk(r, v, pm[v], pd[v]) {
      if v != u { UnitKept(k, r, v, primap[v], pred[v]); }
    }
  }

  /** Setting the bit of a queue that is now non-empty. */
  lemma BitsSet(k: K, r: K, u: UnitId, pri: Pri, m: bv16)
    requires Shape(k) && Shape(r) && r.cfg == k.cfg && u < k.cfg.units && pri < TNUM_TPRI && BitsOk(k, u, m)
    requires Q(r, Ready(u, pri)) != []
    requires forall p: nat :: p < TNUM_TPRI && p != pri ==> Q(r, Ready(u, p)) == Q(k, Ready(u, p))
    ensures BitsOk(r, u, Set(m, pri))
  {
    hide Bit, Set;
    forall p: nat | p < TNUM_TPRI ensures Bit(Set(m, pri), p) <==> Q(r, Ready(u, p)) != [] {
      SetBit(m, pri, p);
    }
  }

  /** Clearing the bit of a queue that has become empty. */
  lemma BitsCleared(k: K, r: K, u: UnitId, pri: Pri, m: bv16)
    requires Shape(k) && Shape(r) && r.cfg == k.cfg && u < k.cfg.units && pri < TNUM_TPRI && BitsOk(k, u, m)
    requires Q(r, Ready(u, pri)) == []
    requires forall p: nat :: p < TNUM_TPRI && p != pri ==> Q(r, Ready(u, p)) == Q(k, Ready(u, p))
    ensures BitsOk(r, u, Clear(m, pri))
  {
    hide Bit, Clear;
    forall p: nat | p < TNUM_TPRI ensures Bit(Clear(m, pri), p) <==> Q(r, Ready(u, p)) != [] {
      ClearBit(m, pri, p);
    }
  }

  /** The choice is decided by the three best tasks and their priorities. */
  lemma ChoiceByBest(k: K, r: K, u: UnitId)
    requires Shape(k) && Shape(r) && r.cfg == k.cfg && r.twd == k.twd && r.idle == k.idle && u < k.cfg.units
    requires LevelsOk(k) && Best(r, u) == Best(k, u)
    requires forall t :: 0 <= t < |k.tcb| && r.tcb[t].pri != k.tcb[t].pri ==> k.cfg.unitOf[t] == u && Best(k, u) != Some(t)
    requires OthersSame(k, r, u)
    ensures Choice(r) == Choice(k)
  {
    hide BestFrom, LevelsOk, QueueShape, TaskShape;
    if KERNEL_UNIT != u { BestSame(k, r, KERNEL_UNIT, 0); }
    if k.twd != u { BestSame(k, r, k.twd, 0); }
    if k.idle != u { BestSame(k, r, k.idle, 0); }
    BestLevel(k, KERNEL_UNIT);
    BestLevel(k, k.twd);
  }

  /** search_predtsk: the head of the queue of the lowest set bit. */
  lemma SearchFinds(k: K, u: UnitId, m: bv16)
    requires Shape(k) && u < k.cfg.units && BitsOk(k, u, m)
    ensures m == 0 ==> Best(k, u) == None
    ensures forall n: nat :: n < TNUM_TPRI && Bit(m, n) && (forall i :: 0 <= i < n ==> !Bit(m, i)) ==>
              Q(k, Ready(u, n)) != [] && Best(k, u) == Some(Q(k, Ready(u, n))[0])
  {
    ZeroBits(m);
    hide Bit;
    if m == 0 { BestIsNone(k, u); }
    forall n: nat | n < TNUM_TPRI && Bit(m, n) && (forall i :: 0 <= i < n ==> !Bit(m, i))
      ensures Q(k, Ready(u, n)) != [] && Best(k, u) == Some(Q(k, Ready(u, n))[0])
    {
      BestIsHead(k, u, n);
    }
  }

  lemma UnlinkedLevels(k: K, t: TaskId)
    requires Shape(k) && LevelsOk(k) && IsTask(k, t)
    ensures LevelsOk(MakeNonRunnable(k, t))
  {
    var r := MakeNonRunnable(k, t);
    forall u, p, i | 0 <= u < r.cfg.units && 0 <= p < TNUM_TPRI && 0 <= i < |Q(r, Ready(u, p))|
      ensures LevelOk(r, u, p, Q(r, Ready(u, p))[i])
    {
      assert Q(r, Ready(u, p))[i] in Q(k, Ready(u, p));
      var j :| 0 <= j < |Q(k, Ready(u, p))| && Q(k, Ready(u, p))[j] == Q(r, Ready(u, p))[i];
      assert LevelOk(k, u, p, Q(k, Ready(u, p))[j]);
    }
  }

  /** make_non_runnable: the best changes only if it is the task that leaves, and then it is the next
      of its level as long as that level is not empty. */
  lemma UnlinkedBest(k: K, t: TaskId)
    requires Shape(k) && LevelsOk(k) && IsTask(k, t) && t in Q(k, ReadyQ(k, t, k.tcb[t].pri))
    ensures var r := MakeNonRunnable(k, t);
            var u := k.cfg.unitOf[t];
            var s := Q(r, ReadyQ(k, t, k.tcb[t].pri));
            && Best(k, u).Some?
            && (Best(k, u) != Some(t) ==> Best(r, u) == Best(k, u))
            && (Best(k, u) == Some(t) && s != [] ==> Best(r, u) == Some(s[0]))
  {
    var r := MakeNonRunnable(k, t);
    var u := k.cfg.unitOf[t];
    var pri := k.tcb[t].pri;
    var q := Q(k, Ready(u, pri));
    BestLevel(k, u);
    var b := Best(k, u).value;
    var i := RemoveCuts(q, t);
    hide LevelsOk;
    assert forall p :: 0 <= p < TNUM_TPRI && p != pri ==> Q(r, Ready(u, p)) == Q(k, Ready(u, p));
    if b != t {
      assert k.tcb[b].pri == pri ==> q[0] == b && i != 0 && Q(r, Ready(u, pri))[0] == b;
      BestIsHead(r, u, k.tcb[b].pri);
    } else if Q(r, Ready(u, pri)) != [] {
      BestIsHead(r, u, pri);
    }
  }

  /** make_non_runnable, the caches of the unit with the new best. */
  lemma UnlinkedOk(k: K, t: TaskId, primap: seq<bv16>, pred: seq<Option<TaskId>>)
    requires UnitsOk(k, primap, pred) && IsTask(k, t) && t in Q(k, ReadyQ(k, t, k.tcb[t].pri))
    ensures var r := MakeNonRunnable(k, t);
            var u := k.cfg.unitOf[t];
            var pri := k.tcb[t].pri;
            var m := if Q(r, Ready(u, pri)) == [] then Clear(primap[u], pri) else primap[u];
            && UnitsOk(r, primap[u := m], pred[u := Best(r, u)]) && BitsOk(r, u, m)
            && (pred[u] != Some(t) ==> Best(r, u) == pred[u] && Choice(r) == Choice(k))
            && (pred[u] == Some(t) && Q(r, Ready(u, pri)) != [] ==> Best(r, u) == Some(Q(r, Ready(u, pri))[0]))
  {
    var r := MakeNonRunnable(k, t);
    var u := k.cfg.unitOf[t];
    UnlinkedLevels(k, t);
    UnlinkedBest(k, t);
    UnlinkedBits(k, t, primap[u]);
    assert UnitOk(k, u, primap[u], pred[u]);
    assert OthersSame(k, r, u);
    hide BitsOk, LevelsOk, BestFrom, MakeNonRunnable;
    if pred[u] != Some(t) { ChoiceByBest(k, r, u); }
    var m := if Q(r, ReadyQ(k, t, k.tcb[t].pri)) == [] then Clear(primap[u], k.tcb[t].pri) else primap[u];
    UnitChanged(k, r, u, primap, pred, m, Best(r, u));
  }

  lemma UnlinkedBits(k: K, t: TaskId, m: bv16)
    requires Shape(k) && IsTask(k, t) && BitsOk(k, k.cfg.unitOf[t], m) && t in Q(k, ReadyQ(k, t, k.tcb[t].pri))
    ensures var r := MakeNonRunnable(k, t);
            var pri := k.tcb[t].pri;
            BitsOk(r, k.cfg.unitOf[t], if Q(r, ReadyQ(k, t, pri)) == [] then Clear(m, pri) else m)
  {
    var r := MakeNonRunnable(k, t);
    var h := ReadyQ(k, t, k.tcb[t].pri);
    if Q(r, h) == [] { BitsCleared(k, r, h.u, h.p, m); }
  }

  /** `t` linked at the front or back of the level its record names. */
  ghost predicate Linked(k: K, r: K, t: TaskId, front: bool)
    requires Shape(k) && IsTask(k, t)
  {
    var h := ReadyQ(k, t, k.tcb[t].pri);
    Shape(r) && r == SetQ(k, h, if front then [t] + Q(k, h) else Q(k, h) + [t])
  }

  lemma LinkedBest(k: K, r: K, t: TaskId, front: bool)
    requires Shape(k) && LevelsOk(k) && IsTask(k, t) && Linked(k, r, t, front)
    ensures var u := k.cfg.unitOf[t];
            var pri := k.tcb[t].pri;
            && (Best(k, u).Some? ==> IsTask(k, Best(k, u).value))
            && Best(r, u) == if Best(k, u).None? || pri < k.tcb[Best(k, u).value].pri
                                || (front && pri == k.tcb[Best(k, u).value].pri) then Some(t) else Best(k, u)
  {
    hide BestFrom, LevelsOk;
    var u := k.cfg.unitOf[t];
    var pri := k.tcb[t].pri;
    BestLevel(k, u);
    var b := Best(k, u);
    BestIsHead(r, u, if b.None? || pri <= k.tcb[b.value].pri then pri else k.tcb[b.value].pri);
  }

  /** make_runnable and the second half of change_priority: the linked task is best iff there was
      none, or it beats the best's priority, or equals it and goes to the front. */
  lemma LinkedOk(k: K, r: K, t: TaskId, front: bool, primap: seq<bv16>, pred: seq<Option<TaskId>>)
    requires UnitsOk(k, primap, pred) && IsTask(k, t) && Linked(k, r, t, front)
    ensures var u := k.cfg.unitOf[t];
            var pri := k.tcb[t].pri;
            && (pred[u].Some? ==> IsTask(k, pred[u].value))
            && var better := pred[u].None? || pri < k.tcb[pred[u].value].pri || (front && pri == k.tcb[pred[u].value].pri);
            && UnitsOk(r, primap[u := Set(primap[u], pri)], pred[u := if better then Some(t) else pred[u]])
            && (!better ==> Choice(r) == Choice(k))
  {
    hide BitsOk, LevelsOk, BestFrom, Linked, OthersSame, CfgOk;
    var u := k.cfg.unitOf[t];
    var pri := k.tcb[t].pri;
    LinkedBest(k, r, t, front);
    LinkedLevels(k, r, t, front);
    Bounds(k, primap, pred, t);
    PredIsBest(k, primap, pred, u);
    LinkedSame(k, r, t, front);
    BitsSet(k, r, u, pri, primap[u]);
    if Best(r, u) == pred[u] { ChoiceByBest(k, r, u); }
    UnitChanged(k, r, u, primap, pred, Set(primap[u], pri), Best(r, u));
  }

  lemma LinkedSame(k: K, r: K, t: TaskId, front: bool)
    requires Shape(k) && IsTask(k, t) && Linked(k, r, t, front)
    ensures Shape(r) && r.cfg == k.cfg && r.tcb == k.tcb && r.twd == k.twd && r.idle == k.idle
    ensures var h := ReadyQ(k, t, k.tcb[t].pri);
            && OthersSame(k, r, h.u) && Q(r, h) != []
            && forall p: nat :: p < TNUM_TPRI && p != h.p ==> Q(r, Ready(h.u, p)) == Q(k, Ready(h.u, p))
  {
  }

  lemma LinkedLevels(k: K, r: K, t: TaskId, front: bool)
    requires Shape(k) && LevelsOk(k) && IsTask(k, t) && Linked(k, r, t, front)
    ensures LevelsOk(r)
  {
    forall u, p, i | 0 <= u < r.cfg.units && 0 <= p < TNUM_TPRI && 0 <= i < |Q(r, Ready(u, p))|
      ensures LevelOk(r, u, p, Q(r, Ready(u, p))[i])
    {
      var q := Q(k, Ready(u, p));
      var j := if front && p == k.tcb[t].pri && u == k.cfg.unitOf[t] then i - 1 else i;
      if 0 <= j < |q| { assert LevelOk(k, u, p, q[j]); }
    }
  }

  /** A change that leaves the ready queues and the priorities of their tasks alone. */
  lemma UnitsKept(k: K, r: K, t: TaskId, primap: seq<bv16>, pred: seq<Option<TaskId>>)
    requires UnitsOk(k, primap, pred) && Shape(r) && r.cfg == k.cfg && IsTask(k, t)
    requires forall u, p :: 0 <= u < k.cfg.units && 0 <= p < TNUM_TPRI ==> r.queues[Ready(u, p)] == k.queues[Ready(u, p)]
    requires forall x :: 0 <= x < |k.tcb| && x != t ==> r.tcb[x].pri == k.tcb[x].pri
    requires r.tcb[t].pri == k.tcb[t].pri || NotReady(k, t)
    ensures UnitsOk(r, primap, pred)
    ensures r.twd == k.twd && r.idle == k.idle ==> Choice(r) == Choice(k)
  {
    forall u, p, i | 0 <= u < r.cfg.units && 0 <= p < TNUM_TPRI && 0 <= i < |Q(r, Ready(u, p))|
      ensures LevelOk(r, u, p, Q(r, Ready(u, p))[i])
    {
      assert LevelOk(k, u, p, Q(k, Ready(u, p))[i]);
    }
    forall u | 0 <= u < k.cfg.units ensures UnitOk(r, u, primap[u], pred[u]) {
      UnitKept(k, r, u, primap[u], pred[u]);
    }
    if r.twd == k.twd && r.idle == k.idle {
      BestSame(k, r, KERNEL_UNIT, 0);
      BestSame(k, r, k.twd, 0);
      BestSame(k, r, k.idle, 0);
      BestLevel(k, KERNEL_UNIT);
      BestLevel(k, k.twd);
    }
  }

  lemma UnitsSame(k: K, r: K, primap: seq<bv16>, pred: seq<Option<TaskId>>)
    requires UnitsOk(k, primap, pred) && Shape(r) && r.cfg == k.cfg && r.queues == k.queues && r.tcb == k.tcb
    ensures UnitsOk(r, primap, pred)
    ensures r.twd == k.twd && r.idle == k.idle ==> Choice(r) == Choice(k)
  {
    forall u | 0 <= u < k.cfg.units ensures UnitOk(r, u, primap[u], pred[u]) {
      UnitKept(k, r, u, primap[u], pred[u]);
    }
    forall u, p, i | 0 <= u < r.cfg.units && 0 <= p < TNUM_TPRI && 0 <= i < |Q(r, Ready(u, p))|
      ensures LevelOk(r, u, p, Q(r, Ready(u, p))[i])
    {
      assert LevelOk(k, u, p, Q(k, Ready(u, p))[i]);
    }
    if r.twd == k.twd && r.idle == k.idle { ChoiceSame(k, r); }
  }

  /** `t` is in no ready queue. */
  ghost predicate NotReady(k: K, t: TaskId)
    requires Shape(k)
  {
    forall u, p :: 0 <= u < k.cfg.units && 0 <= p < TNUM_TPRI ==> t !in Q(k, Ready(u, p))
  }

  /** rotate_ready_queue: the second task of the level becomes its head. */
  lemma RotatedOk(k: K, p: Pri, u: UnitId, primap: seq<bv16>, pred: seq<Option<TaskId>>)
    requires UnitsOk(k, primap, pred) && p < TNUM_TPRI && u < k.cfg.units && |Q(k, Ready(u, p))| > 1
    requires NoDup(Q(k, Ready(u, p)))
    ensures var r := RotateReadyQueue(k, p, u);
            var s := Q(k, Ready(u, p));
            && UnitsOk(r, primap, pred[u := if pred[u] == Some(s[0]) then Some(s[1]) else pred[u]])
            && (pred[u] != Some(s[0]) ==> Choice(r) == Choice(k))
  {
    hide QueueShape;
    var r := RotateReadyQueue(k, p, u);
    var s := Q(k, Ready(u, p));
    RotatedBest(k, p, u);
    RotatedLevels(k, p, u);
    assert UnitOk(k, u, primap[u], pred[u]);
    RotatedBits(k, p, u, primap[u]);
    assert OthersSame(k, r, u);
    hide BitsOk, LevelsOk, BestFrom, RotateReadyQueue, CfgOk, TaskShape;
    if pred[u] != Some(s[0]) { ChoiceByBest(k, r, u); }
    UnitChanged(k, r, u, primap, pred, primap[u], Best(r, u));
    assert primap == primap[u := primap[u]];
  }

  lemma ReadyNoDup(k: K, s: Slack, p: Pri, u: UnitId)
    requires Inv(k, s) && p < TNUM_TPRI && u < k.cfg.units
    ensures ValidHome(k.cfg, Ready(u, p)) && NoDup(Q(k, Ready(u, p)))
  {
    assert QueueOk(k, s, Ready(u, p));
  }

  lemma RotatedBits(k: K, p: Pri, u: UnitId, m: bv16)
    requires Shape(k) && p < TNUM_TPRI && u < k.cfg.units && BitsOk(k, u, m)
    ensures BitsOk(RotateReadyQueue(k, p, u), u, m)
  {
  }

  lemma RotatedBest(k: K, p: Pri, u: UnitId)
    requires Shape(k) && LevelsOk(k) && p < TNUM_TPRI && u < k.cfg.units && |Q(k, Ready(u, p))| > 1
    requires NoDup(Q(k, Ready(u, p)))
    ensures var s := Q(k, Ready(u, p));
            Best(RotateReadyQueue(k, p, u), u) == if Best(k, u) == Some(s[0]) then Some(s[1]) else Best(k, u)
  {
    var s := Q(k, Ready(u, p));
    assert LevelOk(k, u, p, s[0]);
    BestLevel(k, u);
    hide BestFrom;
    BestIsHead(RotateReadyQueue(k, p, u), u, k.tcb[Best(k, u).value].pri);
  }

  lemma RotatedLevels(k: K, p: Pri, u: UnitId)
    requires Shape(k) && LevelsOk(k) && p < TNUM_TPRI && u < k.cfg.units && |Q(k, Ready(u, p))| > 1
    ensures LevelsOk(RotateReadyQueue(k, p, u))
  {
    var r := RotateReadyQueue(k, p, u);
    var s := Q(k, Ready(u, p));
    forall v, l, i | 0 <= v < r.cfg.units && 0 <= l < TNUM_TPRI && 0 <= i < |Q(r, Ready(v, l))|
      ensures LevelOk(r, v, l, Q(r, Ready(v, l))[i])
    {
      var j := if v == u && l == p then (if i < |s| - 1 then i + 1 else 0) else i;
      assert LevelOk(k, v, l, Q(k, Ready(v, l))[j]);
    }
  }

  // ---------------------------------------------------------------- change_priority

  /** A runnable task that is linked once leaves no trace when it is unlinked. */
  lemma RunnableOnce(k: K, s: Slack, t: TaskId)
    requires Inv(k, s) && IsTask(k, t)
    ensures t in s.out || !k.tcb[t].stat.Runnable? ==> NotReady(k, t)
    ensures t !in s.out && k.tcb[t].stat.Runnable? ==>
              t in Q(k, ReadyQ(k, t, k.tcb[t].pri)) && NotReady(MakeNonRunnable(k, t), t)
  {
    assert TaskOk(k, s, t);
    forall h | ValidHome(k.cfg, h) ensures NoDup(k.queues[h]) && (t in k.queues[h] ==> t !in s.out && TaskHome(k, t) == Some(h)) {
      assert QueueOk(k, s, h);
    }
    RemoveMembers(Q(k, ReadyQ(k, t, k.tcb[t].pri)), t);
  }

  /** Nothing more urgent than the best can be the best once it has left. */
  lemma NextBest(k: K, t: TaskId)
    requires Shape(k) && LevelsOk(k) && IsTask(k, t) && Best(k, k.cfg.unitOf[t]) == Some(t)
    ensures var b := Best(MakeNonRunnable(k, t), k.cfg.unitOf[t]);
            b.Some? ==> IsTask(k, b.value) && k.tcb[t].pri <= k.tcb[b.value].pri
  {
    var u := k.cfg.unitOf[t];
    var r := MakeNonRunnable(k, t);
    BestLevel(k, u);
    UnlinkedLevels(k, t);
    BestLevel(r, u);
    assert forall i :: 0 <= i < k.tcb[t].pri ==> Q(r, Ready(u, i)) == [];
  }

  /** The three steps change_priority takes for a runnable task, in terms of the elementary ones. */
  lemma RequeueSteps(k: K, t: TaskId, newpri: Pri, mtxmode: bool)
    requires Shape(k) && IsTask(k, t) && newpri < TNUM_TPRI && k.tcb[t].stat.Runnable?
    ensures Linked(SetPri(MakeNonRunnable(k, t), t, newpri), ChangePriority(k, t, newpri, mtxmode), t, mtxmode)
    ensures SetPri(MakeNonRunnable(k, t), t, newpri) == MakeNonRunnable(k, t).(tcb := k.tcb[t := k.tcb[t].(pri := newpri)])
  {
  }

  lemma RequeuedOk(k: K, s: Slack, t: TaskId, newpri: Pri, mtxmode: bool, primap: seq<bv16>, pred: seq<Option<TaskId>>)
    requires UnitsOk(k, primap, pred) && Inv(k, s) && IsTask(k, t) && t !in s.out && k.tcb[t].stat.Runnable?
    requires newpri < TNUM_TPRI
    ensures var r := ChangePriority(k, t, newpri, mtxmode);
            var u := k.cfg.unitOf[t];
            var oldpri := k.tcb[t].pri;
            var b := pred[u];
            var m := if Q(MakeNonRunnable(k, t), Ready(u, oldpri)) == [] then Clear(primap[u], oldpri) else primap[u];
            && UnitsOk(r, primap[u := Set(m, newpri)], pred[u := Best(r, u)])
            && b.Some? && IsTask(k, b.value)
            && (b == Some(t) && newpri < oldpri ==> Best(r, u) == b)
            && (b != Some(t) ==>
                  var better := if mtxmode then newpri <= k.tcb[b.value].pri else newpri < k.tcb[b.value].pri;
                  && Best(r, u) == (if better then Some(t) else b)
                  && (!better ==> Choice(r) == Choice(k)))
  {
    hide Inv, UnitsOk, LevelsOk, BitsOk, BestFrom, ChangePriority, MakeNonRunnable, Linked, CfgOk, TaskShape, QueueShape;
    Bounds(k, primap, pred, t);
    var u := k.cfg.unitOf[t];
    var oldpri := k.tcb[t].pri;
    RunnableOnce(k, s, t);
    UnlinkedBest(k, t);
    UnlinkedOk(k, t, primap, pred);
    PredIsBest(k, primap, pred, u);
    if pred[u] == Some(t) { NextBest(k, t); }
    var k2 := MakeNonRunnable(k, t);
    var m := if Q(k2, Ready(u, oldpri)) == [] then Clear(primap[u], oldpri) else primap[u];
    var k3 := SetPri(k2, t, newpri);
    UnitsKept(k2, k3, t, primap[u := m], pred[u := Best(k2, u)]);
    RequeueSteps(k, t, newpri, mtxmode);
    var r := ChangePriority(k, t, newpri, mtxmode);
    LinkedOk(k3, r, t, mtxmode, primap[u := m], pred[u := Best(k2, u)]);
    var b2 := Best(k2, u);
    var better2 := b2.None? || newpri < k3.tcb[b2.value].pri || (mtxmode && newpri == k3.tcb[b2.value].pri);
    PredIsBest(r, primap[u := m][u := Set(m, newpri)], pred[u := b2][u := if better2 then Some(t) else b2], u);
    assert primap[u := m][u := Set(m, newpri)] == primap[u := Set(m, newpri)];
    assert pred[u := b2][u := if better2 then Some(t) else b2] == pred[u := Best(r, u)];
  }

  lemma PredIsBest(k: K, primap: seq<bv16>, pred: seq<Option<TaskId>>, u: UnitId)
    requires UnitsOk(k, primap, pred) && u < k.cfg.units
    ensures pred[u] == Best(k, u) && BitsOk(k, u, primap[u])
    ensures pred[u].Some? ==> IsTask(k, pred[u].value)
  {
    assert UnitOk(k, u, primap[u], pred[u]);
    BestLevel(k, u);
  }
}
