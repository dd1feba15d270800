/**
 The kernel-wide invariant and the lemmas that carry it through the elementary moves of a task:
 leaving its queue, changing its record, joining a queue, and mutexes changing hands. Between two
 elementary steps of a service call the invariant is held up to a `Slack`.
 */
module KernelInvariant {
  import opened Base
  import opened KernelState

  /** What a service call has temporarily taken apart. */
  datatype Slack = Slack(
    out: set<TaskId>,      // tasks being moved: in no queue, timeout flag not significant
    free: set<WobjId>,     // mutexes being handed over: in no task's chain
    stale: set<TaskId>)    // tasks whose current priority is about to be recomputed

  const TIGHT := Slack({}, {}, {})

  ghost predicate Sorted(tcb: seq<Tcb>, s: seq<TaskId>)
    requires Members(s, |tcb|)
  {
    forall i, j :: 0 <= i < j < |s| ==> tcb[s[i]].pri <= tcb[s[j]].pri
  }

  /** Every task linked to `h` belongs there, once; ordered queues are ordered; nobody waits for an
      available semaphore. */
  ghost predicate QueueOk(k: K, s: Slack, h: Home)
    requires Shape(k) && ValidHome(k.cfg, h)
  {
    var q := k.queues[h];
    && Members(q, |k.tcb|)
    && NoDup(q)
    && (forall i :: 0 <= i < |q| ==> q[i] !in s.out && TaskHome(k, q[i]) == Some(h))
    && (h.WaitQ? && k.cfg.wobj[h.q].tpri ==> Sorted(k.tcb, q))
    && (h.WaitQ? && k.cfg.wobj[h.q].kind.Semaphore? ==>
          (q == [] || k.semcnt[h.q] == 0) && k.semcnt[h.q] <= k.cfg.wobj[h.q].kind.maxsem)
  }

  /** The task is linked to the queue its state dictates. */
  ghost predicate LinkOk(k: K, s: Slack, t: TaskId)
    requires Shape(k) && IsTask(k, t)
  {
    t !in s.out && TaskHome(k, t).Some? ==> t in k.queues[TaskHome(k, t).value]
  }

  /** Its timeout block is registered exactly while it waits with a timeout. */
  ghost predicate TimedOk(k: K, s: Slack, t: TaskId)
    requires Shape(k) && IsTask(k, t)
  {
    t !in s.out ==> (t in k.timed <==> k.tcb[t].stat.Waiting? && k.tcb[t].stat.tmo)
  }

  /** Its chain holds, once each, the mutexes it owns. */
  ghost predicate ChainOk(k: K, s: Slack, t: TaskId)
    requires Shape(k) && IsTask(k, t)
  {
    && NoDup(k.held[t])
    && (forall m: WobjId :: IsMutex(k.cfg, m) && m !in s.free ==> (m in k.held[t] <==> k.owner[m] == Some(t)))
    && (forall m :: m in k.held[t] ==> m !in s.free)
  }

  /** A mutex it waits for has another owner, and a ceiling its base priority does not exceed. */
  ghost predicate WaitOk(k: K, s: Slack, t: TaskId)
    requires Shape(k) && IsTask(k, t)
  {
    forall m: WobjId :: t !in s.out && IsMutex(k.cfg, m) && WaitsOn(k.tcb[t].stat, m) ==>
      && k.owner[m].Some? && k.owner[m] != Some(t)
      && (Ceiling(k.cfg, m).Some? ==> Ceiling(k.cfg, m).value <= k.tcb[t].bpri)
  }

  ghost predicate CeilingsOk(c: Cfg, bpri: Pri, ms: seq<WobjId>) {
    forall m :: m in ms && Ceiling(c, m).Some? ==> Ceiling(c, m).value <= bpri
  }

  /** Current priority is the minimum of base priority and held ceilings; a dormant task is reset. */
  ghost predicate PriOk(k: K, s: Slack, t: TaskId)
    requires Shape(k) && IsTask(k, t)
  {
    t !in s.out ==>
      && (t !in s.stale ==> k.tcb[t].pri == MinCeiling(k.cfg, k.tcb[t].bpri, k.held[t]))
      && CeilingsOk(k.cfg, k.tcb[t].bpri, k.held[t])
      && (k.tcb[t].stat.Dormant? ==> k.held[t] == [] && k.tcb[t].bpri == k.cfg.ipri[t])
  }

  ghost predicate TaskOk(k: K, s: Slack, t: TaskId)
    requires Shape(k) && IsTask(k, t)
  {
    LinkOk(k, s, t) && TimedOk(k, s, t) && ChainOk(k, s, t) && WaitOk(k, s, t) && PriOk(k, s, t)
  }

  ghost predicate Inv(k: K, s: Slack) {
    && Shape(k)
    && (forall h :: ValidHome(k.cfg, h) ==> QueueOk(k, s, h))
    && (forall t :: 0 <= t < |k.tcb| ==> TaskOk(k, s, t))
    && (forall t :: t in k.timed ==> t < |k.tcb|)
  }

  lemma InvShape(k: K, s: Slack)
    requires Inv(k, s)
    ensures Shape(k)
  {
  }

  // ---------------------------------------------------------------- changing one task

  /** `k'` differs from `k` in task `t` only: its record, its chain, its timeout, its place. */
  ghost predicate OnlyTask(k: K, k': K, t: TaskId) {
    && Shape(k) && Shape(k') && k'.cfg == k.cfg && k'.semcnt == k.semcnt && IsTask(k, t)
    && k'.owner == k.owner
    && (forall u :: 0 <= u < |k.tcb| && u != t ==> k'.tcb[u] == k.tcb[u] && k'.held[u] == k.held[u])
    && (forall u :: u != t ==> (u in k'.timed <==> u in k.timed))
    && (forall h :: ValidHome(k.cfg, h) && k'.queues[h] != k.queues[h] ==>
          forall u :: u != t && u in k.queues[h] ==> u in k'.queues[h])
  }

  ghost predicate SlackBut(s: Slack, s': Slack, t: TaskId) {
    && s'.free == s.free
    && (forall u :: u != t ==> (u in s'.out <==> u in s.out) && (u in s'.stale <==> u in s.stale))
  }

  /** If only `t` changed, only `t` and the queues it left or entered need a fresh look. */
  lemma OneTask(k: K, s: Slack, k': K, s': Slack, t: TaskId, touched: set<Home>)
    requires Inv(k, s) && OnlyTask(k, k', t) && SlackBut(s, s', t)
    requires forall h :: ValidHome(k.cfg, h) && h in touched ==> QueueOk(k', s', h)
    requires forall h :: ValidHome(k.cfg, h) && h !in touched ==> k'.queues[h] == k.queues[h] && t !in k.queues[h]
    requires TaskOk(k', s', t)
    requires t in k'.timed ==> IsTask(k, t)
    ensures Inv(k', s')
  {
    hide NoDup;
    forall h | ValidHome(k'.cfg, h) ensures QueueOk(k', s', h) {
      if h !in touched {
        assert QueueOk(k, s, h);
        var q := k.queues[h];
        forall i | 0 <= i < |q| ensures q[i] !in s'.out && TaskHome(k', q[i]) == Some(h) {
          assert q[i] in q;
        }
        assert forall i :: 0 <= i < |q| ==> q[i] in q && k'.tcb[q[i]] == k.tcb[q[i]];
      }
    }
    forall u | 0 <= u < |k'.tcb| ensures TaskOk(k', s', u) {
      if u != t {
        assert TaskOk(k, s, u);
        assert TaskHome(k', u) == TaskHome(k, u);
      }
    }
  }

  /** `t` is taken out of the queue it is linked to. */
  function Leave(k: K, t: TaskId): (r: K)
    requires Shape(k) && IsTask(k, t)
    ensures Kept(k, r)
  {
    if TaskHome(k, t).Some? then Unlink(k, TaskHome(k, t).value, t) else k
  }

  function Out(s: Slack, t: TaskId): Slack { s.(out := s.out + {t}) }

  function In(s: Slack, t: TaskId): Slack { s.(out := s.out - {t}) }

  lemma RemoveKeepsSorted(tcb: seq<Tcb>, s: seq<TaskId>, t: TaskId)
    requires Members(s, |tcb|) && Members(Remove(s, t), |tcb|) && Sorted(tcb, s)
    ensures Sorted(tcb, Remove(s, t))
  {
    var r := Remove(s, t);
    if t in s {
      var i := RemoveCuts(s, t);
      hide Remove;
      forall a, b | 0 <= a < b < |r| ensures tcb[r[a]].pri <= tcb[r[b]].pri {
        var a', b' := if a < i then a else a + 1, if b < i then b else b + 1;
        assert r[a] == s[a'] && r[b] == s[b'];
      }
    }
  }

  lemma LeaveInv(k: K, s: Slack, t: TaskId)
    requires Inv(k, s) && IsTask(k, t) && t !in s.out
    ensures Inv(Leave(k, t), Out(s, t))
  {
    hide NoDup, Sorted;
    var k' := Leave(k, t);
    var s' := Out(s, t);
    var home := TaskHome(k, t);
    assert TaskOk(k, s, t);
    if home.Some? {
      var h := home.value;
      assert QueueOk(k, s, h);
      RemoveMembers(k.queues[h], t);
      if h.WaitQ? && k.cfg.wobj[h.q].tpri { RemoveKeepsSorted(k.tcb, k.queues[h], t); }
      var q := k'.queues[h];
      forall i | 0 <= i < |q| ensures q[i] !in s'.out && TaskHome(k', q[i]) == Some(h) {
        assert q[i] in q;
      }
      assert QueueOk(k', s', h);
    }
    forall h | ValidHome(k.cfg, h) && home != Some(h)
      ensures k'.queues[h] == k.queues[h] && t !in k.queues[h]
    {
      assert QueueOk(k, s, h);
    }
    OneTask(k, s, k', s', t, if home.Some? then {home.value} else {});
  }

  /** Everything about `t` but its queue: what must hold before it is linked again. */
  ghost predicate Ready2Join(k: K, s: Slack, t: TaskId)
    requires Shape(k) && IsTask(k, t)
  {
    TimedOk(k, In(s, t), t) && ChainOk(k, s, t) && WaitOk(k, In(s, t), t) && PriOk(k, In(s, t), t)
  }

  lemma InsertedIs(q: seq<TaskId>, i: nat, t: TaskId)
    requires i <= |q|
    ensures var r := InsertAt(q, i, t);
            |r| == |q| + 1 && forall j :: 0 <= j < |r| ==> r[j] == if j < i then q[j] else if j == i then t else q[j - 1]
  {
  }

  lemma JoinQueueOk(k: K, s: Slack, t: TaskId, h: Home, i: nat)
    requires Shape(k) && IsTask(k, t) && t in s.out
    requires ValidHome(k.cfg, h) && QueueOk(k, s, h)
    requires TaskHome(k, t) == Some(h) && i <= |k.queues[h]|
    requires h.WaitQ? && k.cfg.wobj[h.q].tpri ==>
      forall j :: 0 <= j < |k.queues[h]| ==>
        if j < i then k.tcb[k.queues[h][j]].pri <= k.tcb[t].pri else k.tcb[t].pri <= k.tcb[k.queues[h][j]].pri
    requires h.WaitQ? && IsSem(k.cfg, h.q) ==> k.semcnt[h.q] == 0
    ensures Members(InsertAt(k.queues[h], i, t), |k.tcb|)
    ensures QueueOk(SetQ(k, h, InsertAt(k.queues[h], i, t)), In(s, t), h)
  {
    hide TaskShape, CfgOk, NoDup, Sorted, HomeOf;
    var q := k.queues[h];
    InsertedIs(q, i, t);
    InsertedOnce(q, i, t);
    if h.WaitQ? && k.cfg.wobj[h.q].tpri { InsertedSorted(k.tcb, q, i, t); }
    SameShape(k, h, InsertAt(q, i, t));
  }

  lemma InsertedOnce(q: seq<TaskId>, i: nat, t: TaskId)
    requires NoDup(q) && i <= |q| && t !in q
    ensures NoDup(InsertAt(q, i, t))
  {
    InsertNew(q, i, t);
  }

  lemma InsertedSorted(tcb: seq<Tcb>, q: seq<TaskId>, i: nat, t: TaskId)
    requires Members(q, |tcb|) && Sorted(tcb, q) && i <= |q| && t < |tcb|
    requires forall j :: 0 <= j < |q| ==> if j < i then tcb[q[j]].pri <= tcb[t].pri else tcb[t].pri <= tcb[q[j]].pri
    ensures Members(InsertAt(q, i, t), |tcb|) && Sorted(tcb, InsertAt(q, i, t))
  {
    InsertedIs(q, i, t);
  }

  lemma SameShape(k: K, h: Home, q: seq<TaskId>)
    requires Shape(k) && ValidHome(k.cfg, h) && Members(q, |k.tcb|)
    ensures Shape(SetQ(k, h, q)) && SetQ(k, h, q) == k.(queues := k.queues[h := q])
  {
  }

  /** Linking `t` to the queue its record dictates, at a position that keeps that queue ordered. */
  lemma JoinInv(k: K, s: Slack, t: TaskId, h: Home, i: nat)
    requires Inv(k, s) && IsTask(k, t) && t in s.out
    requires ValidHome(k.cfg, h) && TaskHome(k, t) == Some(h) && i <= |k.queues[h]|
    requires Ready2Join(k, s, t)
    requires h.WaitQ? && k.cfg.wobj[h.q].tpri ==>
      forall j :: 0 <= j < |k.queues[h]| ==>
        if j < i then k.tcb[k.queues[h][j]].pri <= k.tcb[t].pri else k.tcb[t].pri <= k.tcb[k.queues[h][j]].pri
    requires h.WaitQ? && IsSem(k.cfg, h.q) ==> k.semcnt[h.q] == 0
    ensures Members(InsertAt(k.queues[h], i, t), |k.tcb|)
    ensures Inv(SetQ(k, h, InsertAt(k.queues[h], i, t)), In(s, t))
  {
    var q := k.queues[h];
    var r := InsertAt(q, i, t);
    assert QueueOk(k, s, h);
    assert Members(r, |k.tcb|) by { InsertedIs(q, i, t); }
    var k' := SetQ(k, h, r);
    var s' := In(s, t);
    assert QueueOk(k', s', h) by { JoinQueueOk(k, s, t, h, i); }
    forall h2 | ValidHome(k.cfg, h2) && h2 != h
      ensures k'.queues[h2] == k.queues[h2] && t !in k.queues[h2]
    {
      assert QueueOk(k, s, h2);
    }
    assert TaskOk(k', s', t);
    OneTask(k, s, k', s', t, {h});
  }

  /** A task whose state belongs to no queue needs no linking. */
  lemma RestInv(k: K, s: Slack, t: TaskId)
    requires Inv(k, s) && IsTask(k, t) && t in s.out
    requires TaskHome(k, t) == None && Ready2Join(k, s, t)
    ensures Inv(k, In(s, t))
  {
    forall h | ValidHome(k.cfg, h) ensures t !in k.queues[h] { assert QueueOk(k, s, h); }
    assert TaskOk(k, In(s, t), t);
    OneTask(k, s, k, In(s, t), t, {});
  }

  /** The record and timeout of a task that is out of every queue may change freely. */
  lemma OutsideInv(k: K, s: Slack, t: TaskId, k': K)
    requires Inv(k, s) && IsTask(k, t) && t in s.out
    requires Kept(k, k') && k'.queues == k.queues && k'.owner == k.owner && k'.held == k.held
    requires forall u :: 0 <= u < |k.tcb| && u != t ==> k'.tcb[u] == k.tcb[u]
    requires forall u :: u != t ==> (u in k'.timed <==> u in k.timed)
    ensures Inv(k', s)
  {
    forall h | ValidHome(k.cfg, h) ensures t !in k.queues[h] { assert QueueOk(k, s, h); }
    assert TaskOk(k, s, t);
    assert TaskOk(k', s, t);
    OneTask(k, s, k', s, t, {});
  }

  // ---------------------------------------------------------------- mutexes changing hands

  /** The most recently locked mutex leaves its owner's chain. */
  lemma PopInv(k: K, s: Slack, t: TaskId)
    requires Inv(k, s) && IsTask(k, t) && k.held[t] != []
    ensures var m := k.held[t][|k.held[t]| - 1];
            Inv(PopHeld(k, t), s.(free := s.free + {m}, stale := s.stale + {t}))
  {
    var n := |k.held[t]| - 1;
    DropInv(k, s, t, n);
    assert k.held[t][..n] + k.held[t][n + 1..] == k.held[t][..n];
  }

  /** Any mutex leaves its owner's chain. */
  lemma DropInv(k: K, s: Slack, t: TaskId, n: nat)
    requires Inv(k, s) && IsTask(k, t) && n < |k.held[t]|
    ensures Inv(SetHeld(k, t, k.held[t][..n] + k.held[t][n + 1..]),
                s.(free := s.free + {k.held[t][n]}, stale := s.stale + {t}))
  {
    hide QueueShape, CfgOk;
    var m := k.held[t][n];
    var ms := k.held[t];
    var rest := ms[..n] + ms[n + 1..];
    var k' := SetHeld(k, t, rest);
    var s' := s.(free := s.free + {m}, stale := s.stale + {t});
    assert TaskOk(k, s, t);
    assert forall j :: 0 <= j < |rest| ==> rest[j] == if j < n then ms[j] else ms[j + 1];
    forall x | x in ms && x != m ensures x in rest {
      var j :| 0 <= j < |ms| && ms[j] == x;
      assert rest[if j < n then j else j - 1] == x;
    }
    forall h | ValidHome(k'.cfg, h) ensures QueueOk(k', s', h) { assert QueueOk(k, s, h); }
    forall u | 0 <= u < |k'.tcb| ensures TaskOk(k', s', u) {
      assert TaskOk(k, s, u);
      assert m in ms;
    }
  }

  /** A mutex nobody waits for is left without an owner. */
  lemma DisownInv(k: K, s: Slack, m: WobjId)
    requires Inv(k, s) && IsMutex(k.cfg, m) && m in s.free && k.queues[WaitQ(m)] == []
    ensures Inv(SetOwner(k, m, None), s.(free := s.free - {m}))
  {
    var k' := SetOwner(k, m, None);
    var s' := s.(free := s.free - {m});
    forall h | ValidHome(k'.cfg, h) ensures QueueOk(k', s', h) { assert QueueOk(k, s, h); }
    forall u | 0 <= u < |k'.tcb| ensures TaskOk(k', s', u) {
      assert TaskOk(k, s, u);
      assert TaskHome(k', u) == TaskHome(k, u);
      forall x: WobjId | IsMutex(k'.cfg, x) && x !in s'.free
        ensures x in k'.held[u] <==> k'.owner[x] == Some(u)
      {
        assert x != m ==> x !in s.free;
        assert m !in k.held[u];
      }
    }
  }

  /** `t`, being out of every queue, becomes the owner of a mutex that is in no chain. */
  lemma OwnInv(k: K, s: Slack, m: WobjId, t: TaskId)
    requires Inv(k, s) && IsMutex(k.cfg, m) && m in s.free && IsTask(k, t) && t in s.out
    ensures Inv(SetHeld(SetOwner(k, m, Some(t)), t, k.held[t] + [m]), s.(free := s.free - {m}))
  {
    var k' := SetHeld(SetOwner(k, m, Some(t)), t, k.held[t] + [m]);
    var s' := s.(free := s.free - {m});
    forall h | ValidHome(k'.cfg, h) ensures QueueOk(k', s', h) { assert QueueOk(k, s, h); }
    forall u | 0 <= u < |k'.tcb| ensures TaskOk(k', s', u) {
      assert TaskOk(k, s, u);
      assert TaskHome(k', u) == TaskHome(k, u);
      forall x: WobjId | IsMutex(k'.cfg, x) && x !in s'.free
        ensures x in k'.held[u] <==> k'.owner[x] == Some(u)
      {
        assert x != m ==> x !in s.free;
        assert m !in k.held[u];
      }
    }
  }

  /** MinCeiling is the largest lower bound of the base priority and the held ceilings. */
  lemma MinCeilingIs(c: Cfg, p: Pri, ms: seq<WobjId>, r: Pri)
    requires r <= p && forall m :: m in ms && Ceiling(c, m).Some? ==> r <= Ceiling(c, m).value
    requires r == p || exists m :: m in ms && Ceiling(c, m).Some? && Ceiling(c, m).value == r
    ensures MinCeiling(c, p, ms) == r
  {
  }

  /** Adding a mutex lowers the minimum to its ceiling at most: the shortcut of mutex_acquire. */
  lemma MinCeilingPush(c: Cfg, p: Pri, ms: seq<WobjId>, m: WobjId)
    ensures MinCeiling(c, p, ms + [m]) ==
            if Ceiling(c, m).Some? && Ceiling(c, m).value < MinCeiling(c, p, ms) then Ceiling(c, m).value
            else MinCeiling(c, p, ms)
  {
    var all := ms + [m];
    var r := if Ceiling(c, m).Some? && Ceiling(c, m).value < MinCeiling(c, p, ms) then Ceiling(c, m).value
             else MinCeiling(c, p, ms);
    assert m in all && forall x :: x in ms ==> x in all;
    MinCeilingIs(c, p, all, r);
  }

  /** Dropping a mutex whose ceiling is not the minimum leaves the minimum: the shortcut of
      mutex_drop_priority. */
  lemma MinCeilingDrop(c: Cfg, p: Pri, ms: seq<WobjId>, n: nat)
    requires n < |ms| && Ceiling(c, ms[n]) != Some(MinCeiling(c, p, ms))
    ensures MinCeiling(c, p, ms[..n] + ms[n + 1..]) == MinCeiling(c, p, ms)
  {
    var rest := ms[..n] + ms[n + 1..];
    var r := MinCeiling(c, p, ms);
    assert forall x :: x in rest ==> x in ms;
    if r != p {
      var x :| x in ms && Ceiling(c, x).Some? && Ceiling(c, x).value == r;
      assert x in rest;
    }
    MinCeilingIs(c, p, rest, r);
  }
}
