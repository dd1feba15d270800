/**
 What a call does to the tasks it does not concern: their waits may end, with the result that belongs to
 the call, and nothing else happens to them; and nobody among them overtakes another.
 */
module KernelFairness {
  import opened Base
  import opened KernelState
  import opened KernelInvariant
  import opened KernelCalls
  import opened KernelRuns
  import opened KernelTheorems

  // ---------------------------------------------------------------- records

  /** The task stays as it is, but for its current priority, or its wait ends with result `e`. */
  predicate Stays(a: Tcb, b: Tcb, e: Ercd) {
    && b == a.(stat := b.stat, pri := b.pri, wercd := b.wercd)
    && if a.stat.Waiting? && !b.stat.Waiting? then b.wercd == e && b.stat == (if a.stat.susp then Suspended else Runnable)
       else b.stat == a.stat && b.wercd == a.wercd
  }

  // ---------------------------------------------------------------- order

  /** `x` stands before `y`. */
  ghost predicate Before(s: seq<TaskId>, x: TaskId, y: TaskId) {
    exists i, j :: 0 <= i < j < |s| && s[i] == x && s[j] == y
  }

  /** A ready queue got longer at its end: everybody is still there, in the same order, and who came stands
      behind who was there; those in `out` aside. */
  ghost predicate Longer(a: seq<TaskId>, b: seq<TaskId>, out: set<TaskId>) {
    && (forall x {:trigger x in b} :: x in a && x !in out ==> x in b)
    && (forall x, y {:trigger Before(b, x, y)} :: x !in out && y !in out && x in a && y in b && (y in a ==> Before(a, x, y)) ==> Before(b, x, y))
  }

  /** A wait queue got shorter: nobody came, and those left are in the same order; those in `out` aside. */
  ghost predicate Shorter(a: seq<TaskId>, b: seq<TaskId>, out: set<TaskId>) {
    && (forall x {:trigger x in b} :: x in b && x !in out ==> x in a)
    && (forall x, y {:trigger Before(b, x, y)} :: x !in out && y !in out && Before(b, x, y) ==> Before(a, x, y))
  }

  /** Tasks outside `rec` stay, or their waits end with `e`; those outside `out` keep their places. */
  ghost predicate Fair(k: K, r: K, rec: set<TaskId>, out: set<TaskId>, e: Ercd) {
    && Shape(k) && Shape(r) && r.cfg == k.cfg && |r.tcb| == |k.tcb|
    && (forall u {:trigger r.tcb[u]} :: 0 <= u < |k.tcb| && u !in rec ==> Stays(k.tcb[u], r.tcb[u], e))
    && (forall h {:trigger r.queues[h]} :: ValidHome(k.cfg, h) && h.Ready? ==> Longer(k.queues[h], r.queues[h], out))
    && (forall h {:trigger r.queues[h]} :: ValidHome(k.cfg, h) && h.WaitQ? ==> Shorter(k.queues[h], r.queues[h], out))
  }

  lemma LongerAgain(a: seq<TaskId>, b: seq<TaskId>, c: seq<TaskId>, out: set<TaskId>)
    requires Longer(a, b, out) && Longer(b, c, out)
    ensures Longer(a, c, out)
  {
    hide Before;
  }

  lemma ShorterAgain(a: seq<TaskId>, b: seq<TaskId>, c: seq<TaskId>, out: set<TaskId>)
    requires Shorter(a, b, out) && Shorter(b, c, out)
    ensures Shorter(a, c, out)
  {
    hide Before;
  }

  lemma FairAgain(k: K, r: K, u: K, rec: set<TaskId>, out: set<TaskId>, e: Ercd)
    requires Fair(k, r, rec, out, e) && Fair(r, u, rec, out, e)
    ensures Fair(k, u, rec, out, e)
  {
    hide Longer, Shorter, TaskShape, CfgOk;
    forall t {:trigger u.tcb[t]} | 0 <= t < |k.tcb| && t !in rec ensures Stays(k.tcb[t], u.tcb[t], e) {
      assert Stays(k.tcb[t], r.tcb[t], e) && Stays(r.tcb[t], u.tcb[t], e);
    }
    forall h {:trigger u.queues[h]} | ValidHome(k.cfg, h) && h.Ready? ensures Longer(k.queues[h], u.queues[h], out) {
      LongerAgain(k.queues[h], r.queues[h], u.queues[h], out);
    }
    forall h {:trigger u.queues[h]} | ValidHome(k.cfg, h) && h.WaitQ? ensures Shorter(k.queues[h], u.queues[h], out) {
      ShorterAgain(k.queues[h], r.queues[h], u.queues[h], out);
    }
  }

  lemma LongerSelf(a: seq<TaskId>, out: set<TaskId>)
    ensures Longer(a, a, out) && Shorter(a, a, out)
  {
    hide Before;
  }

  lemma FairMore(k: K, r: K, rec: set<TaskId>, out: set<TaskId>, rec': set<TaskId>, out': set<TaskId>, e: Ercd)
    requires Fair(k, r, rec, out, e) && rec <= rec' && out <= out'
    ensures Fair(k, r, rec', out', e)
  {
    hide Before, QueueShape, TaskShape, CfgOk;
  }

  // ---------------------------------------------------------------- elementary moves

  /** Only records of tasks in `out` change. */
  lemma FairRecords(k: K, r: K, rec: set<TaskId>, out: set<TaskId>, e: Ercd)
    requires Shape(k) && Shape(r) && r.cfg == k.cfg && r.queues == k.queues && |r.tcb| == |k.tcb|
    requires forall u :: 0 <= u < |k.tcb| && u !in rec ==> Stays(k.tcb[u], r.tcb[u], e)
    ensures Fair(k, r, rec, out, e)
  {
    hide Longer, Shorter, TaskShape, CfgOk;
    forall h | ValidHome(k.cfg, h) ensures Longer(k.queues[h], r.queues[h], out) && Shorter(k.queues[h], r.queues[h], out) {
      HomeThere(k, h);
      LongerSelf(k.queues[h], out);
    }
  }

  lemma HomeThere(k: K, h: Home)
    requires Shape(k) && ValidHome(k.cfg, h)
    ensures h in k.queues
  {
  }

  /** One queue changes. */
  lemma FairQueue(k: K, h: Home, s: seq<TaskId>, rec: set<TaskId>, out: set<TaskId>, e: Ercd)
    requires Shape(k) && ValidHome(k.cfg, h) && Members(s, |k.tcb|) && h in k.queues
    requires if h.Ready? then Longer(k.queues[h], s, out) else Shorter(k.queues[h], s, out)
    ensures Fair(k, SetQ(k, h, s), rec, out, e)
  {
    hide Longer, Shorter, TaskShape, CfgOk;
    forall g | ValidHome(k.cfg, g) && g != h ensures Longer(k.queues[g], k.queues[g], out) && Shorter(k.queues[g], k.queues[g], out) {
      LongerSelf(k.queues[g], out);
    }
  }

  lemma LongerByOne(a: seq<TaskId>, t: TaskId, out: set<TaskId>)
    ensures Longer(a, a + [t], out)
  {
    var b := a + [t];
    forall x | x in a ensures x in b {}
    forall x, y {:trigger Before(b, x, y)} | x in a && y in b && (y in a ==> Before(a, x, y)) ensures Before(b, x, y) {
      if y in a {
        var i, j :| 0 <= i < j < |a| && a[i] == x && a[j] == y;
        assert b[i] == x && b[j] == y;
      } else {
        var i :| 0 <= i < |a| && a[i] == x;
        assert b[i] == x && b[|a|] == y;
      }
    }
  }

  /** A task concerned leaves a ready queue, or changes its place there. */
  lemma LongerWithout(a: seq<TaskId>, t: TaskId, out: set<TaskId>)
    requires t in out
    ensures Longer(a, Remove(a, t), out)
  {
    if t in a {
      var b := Remove(a, t);
      var n := RemoveCuts(a, t);
      hide Remove;
      forall x | x in a && x != t ensures x in b {
        var i :| 0 <= i < |a| && a[i] == x;
        assert b[if i < n then i else i - 1] == x;
      }
      forall x, y {:trigger Before(b, x, y)} | x != t && y != t && x in a && y in b && (y in a ==> Before(a, x, y)) ensures Before(b, x, y) {
        assert y in a;
        var i, j :| 0 <= i < j < |a| && a[i] == x && a[j] == y;
        assert b[if i < n then i else i - 1] == x && b[if j < n then j else j - 1] == y;
      }
    } else {
      LongerSelf(a, out);
    }
  }

  lemma LongerInFront(a: seq<TaskId>, t: TaskId, out: set<TaskId>)
    requires t in out
    ensures Longer(a, [t] + a, out)
  {
    var b := [t] + a;
    forall x | x in a ensures x in b { var i :| 0 <= i < |a| && a[i] == x; assert b[i + 1] == x; }
    forall x, y {:trigger Before(b, x, y)} | x != t && y != t && x in a && y in b && (y in a ==> Before(a, x, y)) ensures Before(b, x, y) {
      assert y in a;
      var i, j :| 0 <= i < j < |a| && a[i] == x && a[j] == y;
      assert b[i + 1] == x && b[j + 1] == y;
    }
  }

  lemma ShorterWithout(a: seq<TaskId>, t: TaskId, out: set<TaskId>)
    ensures Shorter(a, Remove(a, t), out)
  {
    if t in a {
      var b := Remove(a, t);
      var n := RemoveCuts(a, t);
      hide Remove;
      forall x, y {:trigger Before(b, x, y)} | Before(b, x, y) ensures Before(a, x, y) {
        var i, j :| 0 <= i < j < |b| && b[i] == x && b[j] == y;
        assert a[if i < n then i else i + 1] == x && a[if j < n then j else j + 1] == y;
      }
    } else {
      LongerSelf(a, out);
    }
  }

  lemma ShorterRest(a: seq<TaskId>, out: set<TaskId>)
    requires a != []
    ensures Shorter(a, a[1..], out)
  {
    var b := a[1..];
    forall x, y {:trigger Before(b, x, y)} | Before(b, x, y) ensures Before(a, x, y) {
      var i, j :| 0 <= i < j < |b| && b[i] == x && b[j] == y;
      assert a[i + 1] == x && a[j + 1] == y;
    }
  }

  /** A task concerned comes to a wait queue. */
  lemma ShorterWith(a: seq<TaskId>, n: nat, t: TaskId, out: set<TaskId>)
    requires t in out && n <= |a|
    ensures Shorter(a, InsertAt(a, n, t), out)
  {
    var b := InsertAt(a, n, t);
    forall x, y {:trigger Before(b, x, y)} | x != t && y != t && Before(b, x, y) ensures Before(a, x, y) {
      var i, j :| 0 <= i < j < |b| && b[i] == x && b[j] == y;
      assert i != n && j != n;
      assert a[if i < n then i else i - 1] == x && a[if j < n then j else j - 1] == y;
    }
  }

  lemma FairRunnable(k: K, t: TaskId, rec: set<TaskId>, out: set<TaskId>, e: Ercd)
    requires Shape(k) && IsTask(k, t)
    ensures Fair(k, MakeRunnable(k, t), rec, out, e)
  {
    hide Longer, Shorter, QueueShape, CfgOk;
    ReadyThere(k, t, k.tcb[t].pri);
    var h := ReadyQ(k, t, k.tcb[t].pri);
    LongerByOne(k.queues[h], t, out);
    FairQueue(k, h, k.queues[h] + [t], rec, out, e);
  }

  lemma ReadyThere(k: K, t: TaskId, p: Pri)
    requires Shape(k) && IsTask(k, t) && (p < TNUM_TPRI || p == k.tcb[t].pri)
    ensures p < TNUM_TPRI && ValidHome(k.cfg, ReadyQ(k, t, p)) && ReadyQ(k, t, p) in k.queues
    ensures Members(k.queues[ReadyQ(k, t, p)] + [t], |k.tcb|) && Members([t] + k.queues[ReadyQ(k, t, p)], |k.tcb|)
    ensures Members(Remove(k.queues[ReadyQ(k, t, p)], t), |k.tcb|)
  {
    RemoveKeepsMembers(k.queues[ReadyQ(k, t, p)], t, |k.tcb|);
  }

  lemma FairNonRunnable(k: K, t: TaskId, rec: set<TaskId>, out: set<TaskId>, e: Ercd)
    requires Shape(k) && IsTask(k, t) && t in out
    ensures Fair(k, MakeNonRunnable(k, t), rec, out, e)
  {
    hide Longer, Shorter, QueueShape, CfgOk;
    ReadyThere(k, t, k.tcb[t].pri);
    var h := ReadyQ(k, t, k.tcb[t].pri);
    LongerWithout(k.queues[h], t, out);
    FairQueue(k, h, Remove(k.queues[h], t), rec, out, e);
  }

  lemma FairTask(k: K, t: TaskId, r: Tcb, rec: set<TaskId>, out: set<TaskId>, e: Ercd)
    requires Shape(k) && IsTask(k, t) && TcbShape(k.cfg, r) && (t in rec || Stays(k.tcb[t], r, e))
    ensures Fair(k, SetTcb(k, t, r), rec, out, e)
  {
    hide Longer, Shorter, QueueShape;
    FairRecords(k, SetTcb(k, t, r), rec, out, e);
  }

  lemma FairSame(k: K, r: K, rec: set<TaskId>, out: set<TaskId>, e: Ercd)
    requires Shape(k) && Shape(r) && r.cfg == k.cfg && r.queues == k.queues && r.tcb == k.tcb
    ensures Fair(k, r, rec, out, e)
  {
    hide Longer, Shorter, QueueShape, TaskShape, CfgOk;
    FairRecords(k, r, rec, out, e);
  }

  lemma FairFacts(k: K, r: K, rec: set<TaskId>, out: set<TaskId>, e: Ercd)
    requires Fair(k, r, rec, out, e)
    ensures Shape(k) && Shape(r) && r.cfg == k.cfg && |r.tcb| == |k.tcb|
  {
  }

  // ---------------------------------------------------------------- waits that end

  /** Whoever is in a wait queue waits there, and is there once. */
  ghost predicate AllLined(k: K) {
    && Shape(k)
    && (forall q: WobjId {:trigger Q(k, WaitQ(q))} :: q < |k.cfg.wobj| ==> NoDup(Q(k, WaitQ(q))))
    && forall q: WobjId, x {:trigger x in Q(k, WaitQ(q))} :: q < |k.cfg.wobj| && x in Q(k, WaitQ(q)) ==> x < |k.tcb| && WaitsOn(k.tcb[x].stat, q)
  }

  lemma LinedFirst(k: K)
    requires Inv(k, TIGHT)
    ensures AllLined(k)
  {
    hide TaskOk;
    forall q: WobjId | q < |k.cfg.wobj| ensures QueueOk(k, TIGHT, WaitQ(q)) {}
  }

  /** Queues get shorter, and only tasks in none of them change state. */
  lemma LinedOn(k: K, r: K)
    requires AllLined(k) && Shape(r) && r.cfg == k.cfg && |r.tcb| == |k.tcb|
    requires forall q: WobjId {:trigger Q(r, WaitQ(q))} :: q < |k.cfg.wobj| ==> NoDup(Q(r, WaitQ(q)))
    requires forall q: WobjId, x {:trigger x in Q(r, WaitQ(q))} :: q < |k.cfg.wobj| && x in Q(r, WaitQ(q)) ==>
               x in Q(k, WaitQ(q)) && r.tcb[x].stat == k.tcb[x].stat
    ensures AllLined(r)
  {
    hide NoDup, Shape;
  }

  lemma LinedSame(k: K, r: K)
    requires AllLined(k) && Shape(r) && r.cfg == k.cfg && r.tcb == k.tcb && r.queues == k.queues
    ensures AllLined(r)
  {
    hide NoDup, CfgOk, TaskShape;
    forall q: WobjId | q < |k.cfg.wobj| ensures Q(r, WaitQ(q)) == Q(k, WaitQ(q)) { HomeThere(k, WaitQ(q)); }
    LinedOn(k, r);
  }

  /** A waiting task out of its wait queue stops waiting. */
  ghost predicate WaitDone(k: K, r: K, t: TaskId, e: Ercd) {
    && Shape(k) && Shape(r) && r.cfg == k.cfg && IsTask(k, t) && |r.tcb| == |k.tcb| && k.tcb[t].stat.Waiting?
    && (forall u :: 0 <= u < |k.tcb| && u != t ==> r.tcb[u] == k.tcb[u])
    && Stays(k.tcb[t], r.tcb[t], e) && !r.tcb[t].stat.Waiting? && r.tcb[t].pri < TNUM_TPRI
    && var h := ReadyQ(k, t, r.tcb[t].pri);
       && ValidHome(k.cfg, h) && h in k.queues
       && r.queues == if r.tcb[t].stat.Runnable? then k.queues[h := k.queues[h] + [t]] else k.queues
  }

  lemma FairDone(k: K, r: K, t: TaskId, rec: set<TaskId>, out: set<TaskId>, e: Ercd)
    requires WaitDone(k, r, t, e)
    ensures Fair(k, r, rec, out, e)
  {
    hide Longer, Shorter, TaskShape, CfgOk;
    var h := ReadyQ(k, t, r.tcb[t].pri);
    forall g | ValidHome(k.cfg, g) ensures if g.Ready? then Longer(k.queues[g], r.queues[g], out) else Shorter(k.queues[g], r.queues[g], out) {
      HomeThere(k, g);
      HomeThere(r, g);
      LongerSelf(k.queues[g], out);
      LongerByOne(k.queues[g], t, out);
    }
  }

  lemma LinedDone(k: K, r: K, t: TaskId, e: Ercd)
    requires AllLined(k) && WaitDone(k, r, t, e) && forall q: WobjId :: q < |k.cfg.wobj| ==> t !in Q(k, WaitQ(q))
    ensures AllLined(r)
  {
    hide NoDup, CfgOk, TaskShape, Stays;
    forall q: WobjId | q < |k.cfg.wobj| ensures Q(r, WaitQ(q)) == Q(k, WaitQ(q)) { HomeThere(k, WaitQ(q)); }
    LinedOn(k, r);
  }

  lemma WaitEndDone(k: K, t: TaskId, e: Ercd)
    requires Shape(k) && IsTask(k, t) && k.tcb[t].stat.Waiting?
    ensures WaitDone(k, WaitEnd(k, t, e), t, e)
  {
    hide MakeNonWait, DequeueTmevtb, SetWercd, QueueShape, TaskShape, CfgOk;
    MarkedRecord(k, t, e);
    NonWaitRecord(SetWercd(DequeueTmevtb(k, t), t, e), t);
    ReadyThere(k, t, k.tcb[t].pri);
  }

  /** The first of a queue leaves it. */
  lemma HeadOut(k: K, q: WobjId, rec: set<TaskId>, out: set<TaskId>, e: Ercd)
    requires AllLined(k) && q < |k.cfg.wobj| && Q(k, WaitQ(q)) != []
    ensures var s := Q(k, WaitQ(q));
            && Members(s[1..], |k.tcb|) && IsTask(k, s[0]) && k.tcb[s[0]].stat.Waiting?
            && var r := SetQ(k, WaitQ(q), s[1..]);
               && Fair(k, r, rec, out, e) && AllLined(r) && forall h: WobjId :: h < |k.cfg.wobj| ==> s[0] !in Q(r, WaitQ(h))
  {
    hide TaskShape, CfgOk;
    var s := Q(k, WaitQ(q));
    assert s[0] in s;
    HomeThere(k, WaitQ(q));
    RestOnce(s);
    ShorterRest(s, out);
    FairQueue(k, WaitQ(q), s[1..], rec, out, e);
    OneShorter(k, q, s[1..]);
  }

  /** One wait queue gets shorter. */
  lemma OneShorter(k: K, q: WobjId, s: seq<TaskId>)
    requires AllLined(k) && q < |k.cfg.wobj| && Members(s, |k.tcb|) && NoDup(s) && forall x :: x in s ==> x in Q(k, WaitQ(q))
    ensures AllLined(SetQ(k, WaitQ(q), s))
  {
    hide NoDup, TaskShape, CfgOk;
    var r := SetQ(k, WaitQ(q), s);
    forall h: WobjId | h < |k.cfg.wobj| ensures Q(r, WaitQ(h)) == (if h == q then s else Q(k, WaitQ(h))) && NoDup(Q(r, WaitQ(h))) {
      HomeThere(k, WaitQ(h));
    }
    LinedOn(k, r);
  }

  lemma RestOnce(s: seq<TaskId>)
    requires NoDup(s) && s != []
    ensures NoDup(s[1..]) && s[0] !in s[1..]
  {
  }

  lemma FairWoken(k: K, q: WobjId, rec: set<TaskId>, out: set<TaskId>, e: Ercd)
    requires AllLined(k) && q < |k.cfg.wobj| && Q(k, WaitQ(q)) != []
    ensures var r := WakeFirst(k, q, e); Fair(k, r, rec, out, e) && AllLined(r) && r.cfg == k.cfg && Q(r, WaitQ(q)) == Q(k, WaitQ(q))[1..]
  {
    hide Fair, WaitDone, AllLined, WaitEnd, TaskShape, CfgOk;
    LinedShape(k);
    var t, k0 := Q(k, WaitQ(q))[0], SetQ(k, WaitQ(q), Q(k, WaitQ(q))[1..]);
    HeadOut(k, q, rec, out, e);
    WaitEndDone(k0, t, e);
    FairDone(k0, WaitEnd(k0, t, e), t, rec, out, e);
    FairAgain(k, k0, WaitEnd(k0, t, e), rec, out, e);
    LinedDone(k0, WaitEnd(k0, t, e), t, e);
    WokenRest1(k, q, e);
  }

  lemma WokenRest1(k: K, q: WobjId, e: Ercd)
    requires Shape(k) && q < |k.cfg.wobj| && Q(k, WaitQ(q)) != []
    ensures var r := WakeFirst(k, q, e); Shape(r) && r.cfg == k.cfg && Q(r, WaitQ(q)) == Q(k, WaitQ(q))[1..]
  {
  }

  lemma LinedShape(k: K)
    requires AllLined(k)
    ensures Shape(k)
  {
  }

  lemma {:induction false} FairSignalled(k: K, q: WobjId, n: nat, rec: set<TaskId>, out: set<TaskId>)
    requires AllLined(k) && q < |k.cfg.wobj|
    ensures var r := MbfSignal(k, q, n); Fair(k, r, rec, out, E_OK) && AllLined(r) && r.cfg == k.cfg
    decreases n
  {
    hide Fair, AllLined, WakeFirst, Shape, Q;
    LinedShape(k);
    if n == 0 || Q(k, WaitQ(q)) == [] {
      FairSame(k, k, rec, out, E_OK);
    } else {
      FairWoken(k, q, rec, out, E_OK);
      var r := WakeFirst(k, q, E_OK);
      FairSignalled(r, q, n - 1, rec, out);
      FairAgain(k, r, MbfSignal(k, q, n), rec, out, E_OK);
    }
  }

  lemma {:induction false} FairReleased(k: K, q: WobjId, rec: set<TaskId>, out: set<TaskId>)
    requires AllLined(k) && q < |k.cfg.wobj|
    ensures var r := InitWaitQueue(k, q); Fair(k, r, rec, out, E_DLT) && AllLined(r) && r.cfg == k.cfg
    decreases |Q(k, WaitQ(q))|
  {
    hide Fair, AllLined, WakeFirst, Shape, Q;
    LinedShape(k);
    if Q(k, WaitQ(q)) == [] {
      FairSame(k, k, rec, out, E_DLT);
    } else {
      FairWoken(k, q, rec, out, E_DLT);
      var r := WakeFirst(k, q, E_DLT);
      QLength(k, q);
      FairReleased(r, q, rec, out);
      FairAgain(k, r, InitWaitQueue(k, q), rec, out, E_DLT);
    }
  }

  lemma QLength(k: K, q: WobjId)
    requires Shape(k) && q < |k.cfg.wobj| && Q(k, WaitQ(q)) != []
    ensures |Q(k, WaitQ(q))[1..]| < |Q(k, WaitQ(q))|
  {
  }

  /** A task leaves a wait queue. */
  lemma FairUnlinked(k: K, t: TaskId, q: WobjId, rec: set<TaskId>, out: set<TaskId>, e: Ercd)
    requires AllLined(k) && q < |k.cfg.wobj|
    ensures var r := Unlink(k, WaitQ(q), t); Fair(k, r, rec, out, e) && AllLined(r) && r.cfg == k.cfg && t !in Q(r, WaitQ(q))
  {
    hide TaskShape, CfgOk;
    HomeThere(k, WaitQ(q));
    var s := Q(k, WaitQ(q));
    RemoveKeepsMembers(s, t, |k.tcb|);
    ShorterWithout(s, t, out);
    RemoveMembers(s, t);
    FairQueue(k, WaitQ(q), Remove(s, t), rec, out, e);
    OneShorter(k, q, Remove(s, t));
  }

  lemma FairDequeued(k: K, t: TaskId, n: nat, rec: set<TaskId>, out: set<TaskId>)
    requires AllLined(k) && IsTask(k, t)
    ensures var r := WaitDequeueWobj(k, t, n); Fair(k, r, rec, out, E_OK) && AllLined(r) && r.cfg == k.cfg && |r.tcb| == |k.tcb|
    ensures forall q: WobjId :: q < |k.cfg.wobj| && k.tcb[t].stat.Waiting? ==> t !in Q(WaitDequeueWobj(k, t, n), WaitQ(q))
  {
    hide Fair, MbfSignal, QueueShape, CfgOk, NoDup;
    if k.tcb[t].stat.Waiting? && k.tcb[t].stat.cause.OnQueue? {
      var q := k.tcb[t].stat.cause.q;
      var k1 := Unlink(k, WaitQ(q), t);
      FairUnlinked(k, t, q, rec, out, E_OK);
      FairSignalled(k1, q, n, rec, out);
      FairAgain(k, k1, MbfSignal(k1, q, n), rec, out, E_OK);
      FairFacts(k, MbfSignal(k1, q, n), rec, out, E_OK);
      FairSignalled(k1, q, n, {}, {});
      forall h: WobjId | h < |k.cfg.wobj| ensures t !in Q(MbfSignal(k1, q, n), WaitQ(h)) { NobodyComes(k1, MbfSignal(k1, q, n), h, t); }
    } else {
      FairSame(k, k, rec, out, E_OK);
    }
  }

  lemma NobodyComes(k: K, r: K, q: WobjId, t: TaskId)
    requires Fair(k, r, {}, {}, E_OK) && q < |k.cfg.wobj| && t !in Q(k, WaitQ(q))
    ensures t !in Q(r, WaitQ(q))
  {
    hide TaskShape, CfgOk;
    HomeThere(k, WaitQ(q));
    assert Shorter(k.queues[WaitQ(q)], r.queues[WaitQ(q)], {});
  }

  // ---------------------------------------------------------------- priorities and mutexes

  /** A task gets another priority, and another place. */
  lemma FairMoved(k: K, t: TaskId, p: Pri, mtxmode: bool, rec: set<TaskId>, out: set<TaskId>, e: Ercd)
    requires Shape(k) && IsTask(k, t) && p < TNUM_TPRI && t in out
    ensures Fair(k, ChangePriority(k, t, p, mtxmode), rec, out, e)
  {
    hide Fair, Longer, Shorter, Reinsert, MakeNonRunnable, QueueShape, CfgOk;
    var k1 := SetPri(k, t, p);
    FairTask(k, t, k.tcb[t].(pri := p), rec, out, e);
    if k.tcb[t].stat.Runnable? {
      FairRequeued(k1, t, k.tcb[t].pri, p, mtxmode, rec, out, e);
      FairAgain(k, k1, ChangePriority(k, t, p, mtxmode), rec, out, e);
    } else if k.tcb[t].stat.Waiting? && k.tcb[t].stat.cause.OnQueue? && k.cfg.wobj[k.tcb[t].stat.cause.q].tpri {
      FairReinserted(k1, k.tcb[t].stat.cause.q, t, p, rec, out, e);
      FairAgain(k, k1, ChangePriority(k, t, p, mtxmode), rec, out, e);
    }
  }

  lemma FairRequeued(k: K, t: TaskId, oldpri: Pri, p: Pri, mtxmode: bool, rec: set<TaskId>, out: set<TaskId>, e: Ercd)
    requires Shape(k) && IsTask(k, t) && p < TNUM_TPRI && oldpri < TNUM_TPRI && t in out
    ensures ValidHome(k.cfg, ReadyQ(k, t, oldpri)) && ValidHome(k.cfg, ReadyQ(k, t, p))
    ensures var k2 := Unlink(k, ReadyQ(k, t, oldpri), t);
            var s := if mtxmode then [t] + Q(k2, ReadyQ(k, t, p)) else Q(k2, ReadyQ(k, t, p)) + [t];
            Members(s, |k.tcb|) && Fair(k, SetQ(k2, ReadyQ(k, t, p), s), rec, out, e)
  {
    hide Fair, Longer, Shorter, QueueShape, TaskShape, CfgOk;
    ReadyThere(k, t, oldpri);
    ReadyThere(k, t, p);
    var h0, h := ReadyQ(k, t, oldpri), ReadyQ(k, t, p);
    LongerWithout(k.queues[h0], t, out);
    FairQueue(k, h0, Remove(k.queues[h0], t), rec, out, e);
    var k2 := Unlink(k, h0, t);
    ReadyThere(k2, t, p);
    LongerByOne(k2.queues[h], t, out);
    LongerInFront(k2.queues[h], t, out);
    var s := if mtxmode then [t] + k2.queues[h] else k2.queues[h] + [t];
    FairQueue(k2, h, s, rec, out, e);
    FairAgain(k, k2, SetQ(k2, h, s), rec, out, e);
  }

  lemma FairReinserted(k: K, q: WobjId, t: TaskId, p: Pri, rec: set<TaskId>, out: set<TaskId>, e: Ercd)
    requires Shape(k) && IsTask(k, t) && q < |k.cfg.wobj| && p < TNUM_TPRI && t in out
    ensures Fair(k, Reinsert(k, q, t, p), rec, out, e)
  {
    hide Fair, Longer, Shorter, TaskShape, CfgOk;
    HomeThere(k, WaitQ(q));
    var s := Q(k, WaitQ(q));
    RemoveKeepsMembers(s, t, |k.tcb|);
    ShorterWithout(s, t, out);
    FairQueue(k, WaitQ(q), Remove(s, t), rec, out, e);
    var k2 := Unlink(k, WaitQ(q), t);
    var n := EntryPos(k2, q, p);
    ShorterWith(k2.queues[WaitQ(q)], n, t, out);
    InsertedMembers(k2.queues[WaitQ(q)], n, t, |k.tcb|);
    FairQueue(k2, WaitQ(q), InsertAt(k2.queues[WaitQ(q)], n, t), rec, out, e);
    FairAgain(k, k2, Reinsert(k, q, t, p), rec, out, e);
  }

  lemma InsertedMembers(s: seq<TaskId>, i: nat, t: TaskId, n: nat)
    requires Members(s, n) && i <= |s| && t < n
    ensures Members(InsertAt(s, i, t), n)
  {
    var r := InsertAt(s, i, t);
    forall j | 0 <= j < |r| ensures r[j] < n { assert r[j] == if j < i then s[j] else if j == i then t else s[j - 1]; }
  }

  lemma FairMutex(k: K, t: TaskId, m: WobjId, rec: set<TaskId>, out: set<TaskId>, e: Ercd)
    requires Shape(k) && IsTask(k, t) && IsMutex(k.cfg, m) && t in out
    ensures Fair(k, MutexAcquire(k, t, m), rec, out, e) && Fair(k, MutexDropPriority(k, t, m), rec, out, e)
  {
    hide Fair, ChangePriority, QueueShape;
    var c, newpri := Ceiling(k.cfg, m), MinCeiling(k.cfg, k.tcb[t].bpri, k.held[t]);
    var k1 := SetHeld(SetOwner(k, m, Some(t)), t, k.held[t] + [m]);
    FairSame(k, k1, rec, out, e);
    FairSame(k, k, rec, out, e);
    if c.Some? && c.value < k.tcb[t].pri {
      FairMoved(k1, t, c.value, true, rec, out, e);
      FairAgain(k, k1, ChangePriority(k1, t, c.value, true), rec, out, e);
    }
    FairMoved(k, t, newpri, true, rec, out, e);
  }

  lemma HandOverRecord(k: K, m: WobjId, t: TaskId)
    requires Shape(k) && IsMutex(k.cfg, m) && IsTask(k, t)
    ensures var r := MutexHandOver(k, m, t);
            && Shape(r) && r.cfg == k.cfg && r.queues == k.queues && r.tcb == k.tcb[t := k.tcb[t].(pri := r.tcb[t].pri)]
            && r.tcb[t].pri < TNUM_TPRI
  {
    hide QueueShape;
  }

  lemma MarkedRecord(k: K, t: TaskId, e: Ercd)
    requires Shape(k) && IsTask(k, t)
    ensures var r := SetWercd(DequeueTmevtb(k, t), t, e);
            Shape(r) && r.cfg == k.cfg && r.queues == k.queues && r.tcb == k.tcb[t := k.tcb[t].(wercd := e)]
  {
    hide QueueShape, TaskShape, CfgOk;
  }

  lemma NonWaitRecord(k: K, t: TaskId)
    requires Shape(k) && IsTask(k, t) && k.tcb[t].stat.Waiting?
    ensures var r, st := MakeNonWait(k, t), if k.tcb[t].stat.susp then Suspended else Runnable;
            && Shape(r) && r.cfg == k.cfg && r.tcb == k.tcb[t := k.tcb[t].(stat := st)]
            && ReadyQ(k, t, k.tcb[t].pri) in k.queues
            && r.queues == if st.Runnable? then k.queues[ReadyQ(k, t, k.tcb[t].pri) := k.queues[ReadyQ(k, t, k.tcb[t].pri)] + [t]] else k.queues
  {
    hide TaskShape;
    ReadyThere(k, t, k.tcb[t].pri);
  }

  /** The new owner of a mutex stops waiting. */
  lemma TakerDone(k: K, m: WobjId, t: TaskId)
    requires Shape(k) && IsMutex(k.cfg, m) && IsTask(k, t) && k.tcb[t].stat.Waiting?
    ensures WaitDone(k, MakeNonWait(MutexHandOver(SetWercd(DequeueTmevtb(k, t), t, E_OK), m, t), t), t, E_OK)
  {
    hide MutexHandOver, MakeNonWait, DequeueTmevtb, SetWercd, QueueShape, TaskShape, CfgOk;
    var k1 := SetWercd(DequeueTmevtb(k, t), t, E_OK);
    MarkedRecord(k, t, E_OK);
    HandOverRecord(k1, m, t);
    var k2 := MutexHandOver(k1, m, t);
    NonWaitRecord(k2, t);
    ReadyThere(k, t, k2.tcb[t].pri);
  }

  lemma FairHandedOver(k: K, m: WobjId, rec: set<TaskId>, out: set<TaskId>)
    requires AllLined(k) && IsMutex(k.cfg, m)
    ensures var r := MutexRelease(k, m); Fair(k, r, rec, out, E_OK) && AllLined(r) && r.cfg == k.cfg && |r.tcb| == |k.tcb|
  {
    hide Fair, WaitDone, MutexHandOver, MakeNonWait, DequeueTmevtb, TaskShape, CfgOk, NoDup;
    var s := Q(k, WaitQ(m));
    if s == [] {
      FairSame(k, SetOwner(k, m, None), rec, out, E_OK);
      LinedSame(k, SetOwner(k, m, None));
    } else {
      var t, k0 := s[0], SetQ(k, WaitQ(m), s[1..]);
      HeadOut(k, m, rec, out, E_OK);
      TakerDone(k0, m, t);
      var r := MutexRelease(k, m);
      FairDone(k0, r, t, rec, out, E_OK);
      FairAgain(k, k0, r, rec, out, E_OK);
      LinedDone(k0, r, t, E_OK);
      FairFacts(k, r, rec, out, E_OK);
    }
  }

  lemma {:induction false} FairAfterAll(k: K, t: TaskId, n: nat, rec: set<TaskId>, out: set<TaskId>)
    requires AllLined(k) && IsTask(k, t)
    ensures var r := MutexReleaseAll(k, t, n); Fair(k, r, rec, out, E_OK) && r.cfg == k.cfg && |r.tcb| == |k.tcb|
    decreases n
  {
    hide Fair, AllLined, MutexRelease, QueueShape, CfgOk;
    LinedShape(k);
    if n == 0 || k.held[t] == [] {
      FairSame(k, k, rec, out, E_OK);
    } else {
      var k1, m := PopHeld(k, t), k.held[t][|k.held[t]| - 1];
      PoppedLined(k, t);
      FairSame(k, k1, rec, out, E_OK);
      FairHandedOver(k1, m, rec, out);
      var r := MutexRelease(k1, m);
      LinedShape(r);
      FairAgain(k, k1, r, rec, out, E_OK);
      FairAfterAll(r, t, n - 1, rec, out);
      FairAgain(k, r, MutexReleaseAll(k, t, n), rec, out, E_OK);
    }
  }

  lemma PoppedLined(k: K, t: TaskId)
    requires AllLined(k) && IsTask(k, t) && k.held[t] != []
    ensures AllLined(PopHeld(k, t))
  {
    LinedSame(k, PopHeld(k, t));
  }

  // ---------------------------------------------------------------- parts of calls

  lemma FairUntimed(k: K, t: TaskId, rec: set<TaskId>, out: set<TaskId>, e: Ercd)
    requires AllLined(k) && IsTask(k, t)
    ensures var r := DequeueTmevtb(k, t); Fair(k, r, rec, out, e) && AllLined(r) && r.cfg == k.cfg && |r.tcb| == |k.tcb| && |r.held| == |k.held|
  {
    hide Fair, Longer, Shorter, NoDup;
    FairSame(k, DequeueTmevtb(k, t), rec, out, e);
    LinedSame(k, DequeueTmevtb(k, t));
  }

  lemma LinedNonRunnable(k: K, t: TaskId)
    requires AllLined(k) && IsTask(k, t)
    ensures AllLined(MakeNonRunnable(k, t))
  {
    hide NoDup, TaskShape, CfgOk;
    var r := MakeNonRunnable(k, t);
    forall q: WobjId | q < |k.cfg.wobj| ensures Q(r, WaitQ(q)) == Q(k, WaitQ(q)) { HomeThere(k, WaitQ(q)); }
    LinedOn(k, r);
  }

  /** The first part of a termination. */
  lemma FairStopped(k: K, t: TaskId, n: nat, rec: set<TaskId>, out: set<TaskId>) returns (r: K)
    requires AllLined(k) && IsTask(k, t) && t in rec && t in out
    ensures r == if k.tcb[t].stat.Runnable? then MakeNonRunnable(k, t)
                 else if k.tcb[t].stat.Waiting? then DequeueTmevtb(WaitDequeueWobj(k, t, n), t)
                 else k
    ensures Fair(k, r, rec, out, E_OK) && AllLined(r) && r.cfg == k.cfg && |r.tcb| == |r.held| == |k.tcb|
  {
    hide Fair, AllLined, WaitDequeueWobj, DequeueTmevtb, MakeNonRunnable, QueueShape, TaskShape, CfgOk;
    LinedShape(k);
    var d := WaitDequeueWobj(k, t, n);
    r := if k.tcb[t].stat.Runnable? then MakeNonRunnable(k, t) else if k.tcb[t].stat.Waiting? then DequeueTmevtb(d, t) else k;
    FairSame(k, k, rec, out, E_OK);
    FairNonRunnable(k, t, rec, out, E_OK);
    LinedNonRunnable(k, t);
    FairDequeued(k, t, n, rec, out);
    FairUntimed(d, t, rec, out, E_OK);
    FairAgain(k, d, DequeueTmevtb(d, t), rec, out, E_OK);
    FairFacts(k, r, rec, out, E_OK);
  }

  lemma FairDormant(k: K, t: TaskId, rec: set<TaskId>, out: set<TaskId>)
    requires Shape(k) && IsTask(k, t) && t in rec
    ensures var r := MakeDormant(k, t);
            Fair(k, if r.tcb[t].actque then MakeActive(SetTcb(r, t, r.tcb[t].(actque := false)), t) else r, rec, out, E_OK)
  {
    hide Fair, MakeRunnable, QueueShape;
    var r := MakeDormant(k, t);
    FairTask(k, t, r.tcb[t], rec, out, E_OK);
    if r.tcb[t].actque {
      var r1 := SetStat(SetTcb(r, t, r.tcb[t].(actque := false)), t, Runnable);
      FairTask(r, t, r.tcb[t].(actque := false), rec, out, E_OK);
      FairTask(SetTcb(r, t, r.tcb[t].(actque := false)), t, r1.tcb[t], rec, out, E_OK);
      FairRunnable(r1, t, rec, out, E_OK);
      FairAgain(k, r, SetTcb(r, t, r.tcb[t].(actque := false)), rec, out, E_OK);
      FairAgain(k, SetTcb(r, t, r.tcb[t].(actque := false)), r1, rec, out, E_OK);
      FairAgain(k, r1, MakeRunnable(r1, t), rec, out, E_OK);
    }
  }

  lemma FairTerminated(k: K, t: TaskId, n: nat)
    requires AllLined(k) && IsTask(k, t)
    ensures Fair(k, TaskTerminate(k, t, n), {t}, {t}, E_OK)
  {
    hide Fair, AllLined, WaitDequeueWobj, DequeueTmevtb, MutexReleaseAll, MakeDormant, MakeActive, MakeNonRunnable, QueueShape, TaskShape, CfgOk;
    LinedShape(k);
    var k1 := FairStopped(k, t, n, {t}, {t});
    var k2 := MutexReleaseAll(k1, t, |k1.held[t]|);
    LinedShape(k1);
    FairAfterAll(k1, t, |k1.held[t]|, {t}, {t});
    FairFacts(k1, k2, {t}, {t}, E_OK);
    FairAgain(k, k1, k2, {t}, {t}, E_OK);
    FairDormant(k2, t, {t}, {t});
    FairAgain(k, k2, TaskTerminate(k, t, n), {t}, {t}, E_OK);
  }

  /** The caller goes to wait. */
  lemma FairWaiting(k: K, t: TaskId, c: Cause, tmo: bool, e: Ercd)
    requires Shape(k) && IsTask(k, t) && ValidCause(k.cfg, Waiting(c, false, tmo))
    ensures Fair(k, MakeWait(k, t, c, tmo), {t}, {t}, e)
    ensures c.OnQueue? ==> Fair(k, WobjMakeWait(k, t, c.q, tmo), {t}, {t}, e)
  {
    hide Fair, MakeNonRunnable, Longer, Shorter, CfgOk;
    var k0 := SetStat(k, t, Waiting(c, false, tmo));
    var k1, k2 := MakeNonRunnable(k0, t), MakeWait(k, t, c, tmo);
    FairTask(k, t, k0.tcb[t], {t}, {t}, e);
    FairNonRunnable(k0, t, {t}, {t}, e);
    FairFacts(k0, k1, {t}, {t}, e);
    FairAgain(k, k0, k1, {t}, {t}, e);
    FairSame(k1, k2, {t}, {t}, e);
    FairAgain(k, k1, k2, {t}, {t}, e);
    if c.OnQueue? {
      var q := c.q;
      HomeThere(k2, WaitQ(q));
      var s, n := Q(k2, WaitQ(q)), EntryPos(k2, q, k2.tcb[t].pri);
      ShorterWith(s, n, t, {t});
      InsertedMembers(s, n, t, |k.tcb|);
      FairQueue(k2, WaitQ(q), InsertAt(s, n, t), {t}, {t}, e);
      FairAgain(k, k2, WobjMakeWait(k, t, q, tmo), {t}, {t}, e);
    }
  }

  /** The wait of `t` ends, in whatever way, and those of senders it lets go on. */
  lemma FairForced(k: K, t: TaskId, n: nat, e: Ercd)
    requires AllLined(k) && IsTask(k, t)
    ensures Fair(k, WaitEnd(WaitDequeueWobj(k, t, n), t, e), {t}, {}, E_OK)
    ensures Fair(k, RasterRelease(k, t, n), {t}, {}, E_OK) && Fair(k, Expire(k, t, n), {t}, {}, E_OK)
  {
    hide Fair, AllLined, WaitDequeueWobj, MakeNonWait, DequeueTmevtb, QueueShape, TaskShape, CfgOk;
    LinedShape(k);
    var d := WaitDequeueWobj(k, t, n);
    FairDequeued(k, t, n, {t}, {});
    LinedShape(d);
    FairEnded(d, t, e);
    FairAgain(k, d, WaitEnd(d, t, e), {t}, {}, E_OK);
    FairEnded(d, t, E_RASTER);
    var m := SetWercd(DequeueTmevtb(d, t), t, E_RASTER);
    FairAgain(k, d, m, {t}, {}, E_OK);
    FairSame(k, k, {t}, {}, E_OK);
    var k1 := if k.tcb[t].stat.Waiting? then m else k;
    FairFacts(k, k1, {t}, {}, E_OK);
    FairResumed(k1, t);
    FairAgain(k, k1, RasterRelease(k, t, n), {t}, {}, E_OK);
    FairExpired(k, t, n);
  }

  lemma FairEnded(k: K, t: TaskId, e: Ercd)
    requires Shape(k) && IsTask(k, t)
    ensures Fair(k, SetWercd(DequeueTmevtb(k, t), t, e), {t}, {}, E_OK) && Fair(k, SetWercd(k, t, e), {t}, {}, E_OK)
    ensures Fair(k, WaitEnd(k, t, e), {t}, {}, E_OK)
  {
    hide Fair, Longer, Shorter, MakeNonWait, QueueShape, CfgOk;
    var k1 := SetWercd(DequeueTmevtb(k, t), t, e);
    FairRecords(k, k1, {t}, {}, E_OK);
    FairRecords(k, SetWercd(k, t, e), {t}, {}, E_OK);
    FairNonWait(k1, t);
    FairAgain(k, k1, MakeNonWait(k1, t), {t}, {}, E_OK);
  }

  lemma FairNonWait(k: K, t: TaskId)
    requires Shape(k) && IsTask(k, t)
    ensures Fair(k, MakeNonWait(k, t), {t}, {}, E_OK)
  {
    hide Fair, MakeRunnable, QueueShape, CfgOk;
    FairTask(k, t, k.tcb[t].(stat := Suspended), {t}, {}, E_OK);
    FairResumed(k, t);
  }

  lemma FairResumed(k: K, t: TaskId)
    requires Shape(k) && IsTask(k, t)
    ensures Fair(k, MakeRunnable(SetStat(k, t, Runnable), t), {t}, {}, E_OK)
  {
    hide Fair, MakeRunnable, QueueShape, CfgOk;
    var k1 := SetStat(k, t, Runnable);
    FairTask(k, t, k.tcb[t].(stat := Runnable), {t}, {}, E_OK);
    FairRunnable(k1, t, {t}, {}, E_OK);
    FairAgain(k, k1, MakeRunnable(k1, t), {t}, {}, E_OK);
  }

  lemma FairExpired(k: K, t: TaskId, n: nat)
    requires AllLined(k) && IsTask(k, t)
    ensures Fair(k, Expire(k, t, n), {t}, {}, E_OK)
  {
    hide Fair, AllLined, WaitDequeueWobj, MakeNonWait, QueueShape, TaskShape, CfgOk;
    LinedShape(k);
    var k1 := SetTimed(k, k.timed - {t});
    UntimedLined(k, t);
    FairSame(k, k1, {t}, {}, E_OK);
    var d := WaitDequeueWobj(k1, t, n);
    FairDequeued(k1, t, n, {t}, {});
    LinedShape(d);
    FairAgain(k, k1, d, {t}, {}, E_OK);
    FairEnded(k1, t, E_OK);
    FairEnded(d, t, E_TMOUT);
    var m := if k.tcb[t].stat.Waiting? && k.tcb[t].stat.cause.Delayed? then SetWercd(k1, t, E_OK) else SetWercd(d, t, E_TMOUT);
    FairAgain(k, k1, SetWercd(k1, t, E_OK), {t}, {}, E_OK);
    FairAgain(k, d, SetWercd(d, t, E_TMOUT), {t}, {}, E_OK);
    FairFacts(k, m, {t}, {}, E_OK);
    FairNonWait(m, t);
    FairAgain(k, m, Expire(k, t, n), {t}, {}, E_OK);
  }

  lemma UntimedLined(k: K, t: TaskId)
    requires AllLined(k)
    ensures AllLined(SetTimed(k, k.timed - {t}))
  {
    LinedSame(k, SetTimed(k, k.timed - {t}));
  }

  lemma FairDispatched(k: K, r: K, rec: set<TaskId>, out: set<TaskId>, e: Ercd)
    requires Fair(k, r, rec, out, e)
    ensures Shape(r) && Shape(Dispatch(r)) && Fair(k, Dispatch(r), rec, out, e)
  {
    hide Fair, QueueShape, TaskShape, CfgOk;
    FairFacts(k, r, rec, out, e);
    DispatchShape(r);
    FairSame(r, Dispatch(r), rec, out, e);
    FairAgain(k, r, Dispatch(r), rec, out, e);
  }

  lemma DispatchShape(k: K)
    requires Shape(k)
    ensures var r := Dispatch(k); Shape(r) && r.cfg == k.cfg && r.queues == k.queues && r.tcb == k.tcb
  {
    BestIsTask(k, KERNEL_UNIT, 0);
    BestIsTask(k, k.twd, 0);
    BestIsTask(k, k.idle, 0);
  }

  // ---------------------------------------------------------------- calls

  /** Tasks whose records a call is about: its target, or its caller. */
  function About(k: K, c: Call): set<TaskId>
    requires Shape(k) && Callable(k, c)
  {
    match c
    case ActTsk(t) => {t}
    case CanAct(t) => {t}
    case ChgPri(t, _) => {t}
    case WupTsk(t) => {t}
    case CanWup(t) => {t}
    case RelWai(t, _) => {t}
    case SusTsk(t) => {t}
    case RsmTsk(t) => {t}
    case RasTer(t, _) => {t}
    case TerTsk(t, _) => {t}
    case Timeout(t, _) => {t}
    case UnlMtx(_) => {}
    case IniMtx(_) => {}
    case RotRdq(_, _) => {}
    case SigSem(_) => {}
    case IniSem(_) => {}
    case ObjWake(_, _) => {}
    case ObjInit(_) => {}
    case SwitchWindow(_, _) => {}
    case _ => {k.run.value}
  }

  /** Those that may lose their place in a queue by it; the others concerned only come behind. */
  function Moves(k: K, c: Call): set<TaskId>
    requires Shape(k) && Callable(k, c)
  {
    match c
    case ActTsk(t) => {}
    case WupTsk(t) => {}
    case RelWai(t, _) => {}
    case RsmTsk(t) => {}
    case RasTer(t, _) => if k.tcb[t].enater then {t} else {}
    case Timeout(t, _) => {}
    case UnlMtx(_) => {k.run.value}
    case IniMtx(m) => if k.owner[m].Some? then {k.owner[m].value} else {}
    case _ => About(k, c)
  }

  /** What those find whose waits the call ends, its target aside. */
  function CodeOf(c: Call): Ercd { if c.IniMtx? || c.IniSem? || c.ObjInit? then E_DLT else E_OK }

  lemma FairActTsk(k: K, t: TaskId)
    requires Shape(k) && IsTask(k, t)
    ensures Fair(k, ActTskStep(k, t).0, {t}, {}, E_OK)
  {
    hide Fair, MakeRunnable, Dispatch, QueueShape, CfgOk;
    FairSame(k, k, {t}, {}, E_OK);
    FairTask(k, t, k.tcb[t].(actque := true), {t}, {}, E_OK);
    FairResumed(k, t);
    FairDispatched(k, MakeRunnable(SetStat(k, t, Runnable), t), {t}, {}, E_OK);
  }

  lemma FairWupTsk(k: K, t: TaskId)
    requires Shape(k) && IsTask(k, t)
    ensures Fair(k, WupTskStep(k, t).0, {t}, {}, E_OK)
  {
    hide Fair, WaitEnd, Dispatch, QueueShape, CfgOk;
    FairSame(k, k, {t}, {}, E_OK);
    FairTask(k, t, k.tcb[t].(wupque := true), {t}, {}, E_OK);
    FairEnded(k, t, E_OK);
    FairDispatched(k, WaitEnd(k, t, E_OK), {t}, {}, E_OK);
  }

  lemma FairRsmTsk(k: K, t: TaskId)
    requires Shape(k) && IsTask(k, t)
    ensures Fair(k, RsmTskStep(k, t).0, {t}, {}, E_OK)
  {
    hide Fair, MakeRunnable, Dispatch, QueueShape, CfgOk;
    FairSame(k, k, {t}, {}, E_OK);
    FairTask(k, t, k.tcb[t].(stat := if k.tcb[t].stat.Waiting? then k.tcb[t].stat.(susp := false) else k.tcb[t].stat), {t}, {}, E_OK);
    FairResumed(k, t);
    FairDispatched(k, MakeRunnable(SetStat(k, t, Runnable), t), {t}, {}, E_OK);
  }

  lemma FairChgPri(k: K, t: TaskId, newpri: Option<Pri>)
    requires Shape(k) && IsTask(k, t) && (newpri.Some? ==> newpri.value < TNUM_TPRI)
    ensures Fair(k, ChgPriStep(k, t, newpri).0, {t}, {t}, E_OK)
  {
    hide Fair, ChangePriority, Dispatch, CheckCeilpri, ScanCeilmtx, QueueShape;
    var b := if newpri.Some? then newpri.value else k.cfg.ipri[t];
    var k1 := SetTcb(k, t, k.tcb[t].(bpri := b));
    FairSame(k, k, {t}, {t}, E_OK);
    FairTask(k, t, k.tcb[t].(bpri := b), {t}, {t}, E_OK);
    FairMoved(k1, t, b, false, {t}, {t}, E_OK);
    FairAgain(k, k1, ChangePriority(k1, t, b, false), {t}, {t}, E_OK);
    FairDispatched(k, ChangePriority(k1, t, b, false), {t}, {t}, E_OK);
  }

  lemma FairStops(k: K, t: TaskId, tmo: Tmo)
    requires Shape(k) && IsTask(k, t)
    ensures Fair(k, SlpTskStep(k, t, tmo).0, {t}, {t}, E_OK) && Fair(k, DlyTskStep(k, t).0, {t}, {t}, E_OK)
  {
    hide Fair, MakeWait, Dispatch, QueueShape, CfgOk;
    FairSame(k, k, {t}, {t}, E_OK);
    FairTask(k, t, k.tcb[t].(wupque := false), {t}, {t}, E_OK);
    FairWaiting(k, t, Sleeping, tmo.Timed?, E_OK);
    FairDispatched(k, MakeWait(k, t, Sleeping, tmo.Timed?), {t}, {t}, E_OK);
    FairWaiting(k, t, Delayed, true, E_OK);
    FairDispatched(k, MakeWait(k, t, Delayed, true), {t}, {t}, E_OK);
  }

  lemma FairSuspends(k: K, t: TaskId)
    requires Shape(k) && IsTask(k, t)
    ensures Fair(k, SusTskStep(k, t).0, {t}, {t}, E_OK)
  {
    hide Fair, MakeNonRunnable, Dispatch, QueueShape, CfgOk;
    FairSame(k, k, {t}, {t}, E_OK);
    var k1 := SetStat(k, t, Suspended);
    FairTask(k, t, k.tcb[t].(stat := Suspended), {t}, {t}, E_OK);
    FairNonRunnable(k1, t, {t}, {t}, E_OK);
    FairAgain(k, k1, MakeNonRunnable(k1, t), {t}, {t}, E_OK);
    FairDispatched(k, MakeNonRunnable(k1, t), {t}, {t}, E_OK);
    FairTask(k, t, k.tcb[t].(stat := if k.tcb[t].stat.Waiting? then k.tcb[t].stat.(susp := true) else k.tcb[t].stat), {t}, {t}, E_OK);
  }

  lemma FairEnds(k: K, t: TaskId, twd: UnitId, idle: UnitId)
    requires AllLined(k) && IsTask(k, t) && twd < k.cfg.units && idle < k.cfg.units
    ensures Fair(k, ExtTskStep(k, t, twd, idle).0, {t}, {t}, E_OK) && Fair(k, EnaDspStep(k, t, twd, idle).0, {t}, {t}, E_OK)
    ensures Fair(k, EnaTerStep(k, t).0, {t}, {t}, E_OK)
  {
    hide Fair, AllLined, TaskTerminate, Dispatch, QueueShape, CfgOk;
    LinedShape(k);
    var k1 := SetDspflg(k, twd, idle);
    WindowLined(k, twd, idle);
    FairSame(k, k1, {t}, {t}, E_OK);
    FairTerminated(k, t, 0);
    FairTerminated(k1, t, 0);
    FairAgain(k, k1, TaskTerminate(k1, t, 0), {t}, {t}, E_OK);
    FairDispatched(k, TaskTerminate(k, t, 0), {t}, {t}, E_OK);
    FairDispatched(k, TaskTerminate(k1, t, 0), {t}, {t}, E_OK);
    FairDispatched(k, k1, {t}, {t}, E_OK);
    FairTask(k, t, k.tcb[t].(enater := true), {t}, {t}, E_OK);
  }

  lemma WindowLined(k: K, twd: UnitId, idle: UnitId)
    requires AllLined(k) && twd < k.cfg.units && idle < k.cfg.units
    ensures AllLined(SetDspflg(k, twd, idle))
  {
    LinedSame(k, SetDspflg(k, twd, idle));
  }

  lemma FairRasTer(k: K, t: TaskId, n: nat)
    requires AllLined(k) && IsTask(k, t)
    ensures Fair(k, RasTerStep(k, t, n).0, {t}, if k.tcb[t].enater then {t} else {}, E_OK)
  {
    hide Fair, AllLined, TaskTerminate, RasterRelease, Dispatch, QueueShape, CfgOk;
    LinedShape(k);
    var out := if k.tcb[t].enater then {t} else {};
    FairSame(k, k, {t}, out, E_OK);
    if k.tcb[t].enater {
      FairTerminated(k, t, n);
      FairDispatched(k, TaskTerminate(k, t, n), {t}, {t}, E_OK);
    } else {
      var k1 := SetTcb(k, t, k.tcb[t].(raster := true));
      FairTask(k, t, k.tcb[t].(raster := true), {t}, {}, E_OK);
      FlagLined(k, t);
      FairForced(k1, t, n, E_OK);
      FairAgain(k, k1, RasterRelease(k1, t, n), {t}, {}, E_OK);
      FairDispatched(k, RasterRelease(k1, t, n), {t}, {}, E_OK);
    }
  }

  lemma FlagLined(k: K, t: TaskId)
    requires AllLined(k) && IsTask(k, t) && TcbShape(k.cfg, k.tcb[t].(raster := true))
    ensures AllLined(SetTcb(k, t, k.tcb[t].(raster := true)))
  {
    hide NoDup, CfgOk, TaskShape;
    var r := SetTcb(k, t, k.tcb[t].(raster := true));
    forall q: WobjId | q < |k.cfg.wobj| ensures Q(r, WaitQ(q)) == Q(k, WaitQ(q)) { HomeThere(k, WaitQ(q)); }
    LinedOn(k, r);
  }

  lemma FairTaskCall(k: K, c: Call)
    requires AllLined(k) && Shape(k) && Callable(k, c) && IsTaskCall(c) && !c.RotRdq?
    ensures Fair(k, TaskStep(k, c).0, About(k, c), Moves(k, c), E_OK)
  {
    hide Fair, AllLined, ActTskStep, ChgPriStep, SlpTskStep, WupTskStep, DlyTskStep, SusTskStep, RsmTskStep, ExtTskStep, RasTerStep,
      EnaTerStep, TaskTerminate, WaitDequeueWobj, WaitEnd, Dispatch, QueueShape, CfgOk;
    match c
    case ActTsk(t) => FairActTsk(k, t);
    case CanAct(t) => FairTask(k, t, k.tcb[t].(actque := false), {t}, {t}, E_OK);
    case ChgPri(t, p) => FairChgPri(k, t, p);
    case SlpTsk(tmo) => FairStops(k, k.run.value, tmo);
    case WupTsk(t) => FairWupTsk(k, t);
    case CanWup(t) =>
      FairSame(k, k, {t}, {t}, E_OK);
      FairTask(k, t, k.tcb[t].(wupque := false), {t}, {t}, E_OK);
    case DlyTsk => FairStops(k, k.run.value, Poll);
    case RelWai(t, n) =>
      FairSame(k, k, {t}, {}, E_OK);
      FairForced(k, t, n, E_RLWAI);
      FairDispatched(k, WaitEnd(WaitDequeueWobj(k, t, n), t, E_RLWAI), {t}, {}, E_OK);
    case SusTsk(t) => FairSuspends(k, t);
    case RsmTsk(t) => FairRsmTsk(k, t);
    case ExtTsk(twd, idle) => FairEnds(k, k.run.value, twd, idle);
    case RasTer(t, n) => FairRasTer(k, t, n);
    case DisTer => FairTask(k, k.run.value, k.tcb[k.run.value].(enater := false), {k.run.value}, {k.run.value}, E_OK);
    case EnaTer => FairEnds(k, k.run.value, k.twd, k.idle);
    case TerTsk(t, n) =>
      FairSame(k, k, {t}, {t}, E_OK);
      FairTerminated(k, t, n);
      FairDispatched(k, TaskTerminate(k, t, n), {t}, {t}, E_OK);
  }

  lemma FairLock(k: K, t: TaskId, m: WobjId, tmo: Tmo)
    requires Shape(k) && IsTask(k, t) && IsMutex(k.cfg, m)
    ensures Fair(k, LocMtxStep(k, t, m, tmo).0, {t}, {t}, E_OK) && Fair(k, PlocMtxStep(k, t, m).0, {t}, {t}, E_OK)
  {
    hide Fair, MutexAcquire, WobjMakeWait, Dispatch, QueueShape, CfgOk;
    FairSame(k, k, {t}, {t}, E_OK);
    FairMutex(k, t, m, {t}, {t}, E_OK);
    FairWaiting(k, t, OnQueue(m), tmo.Timed?, E_OK);
    FairDispatched(k, WobjMakeWait(k, t, m, tmo.Timed?), {t}, {t}, E_OK);
  }

  lemma FairUnlock(k: K, t: TaskId, m: WobjId)
    requires Inv(k, TIGHT) && IsTask(k, t) && IsMutex(k.cfg, m) && k.tcb[t].stat.Runnable?
    ensures Shape(k) && Fair(k, UnlMtxStep(k, t, m).0, {}, {t}, E_OK)
  {
    hide Fair, AllLined, MutexDropPriority, MutexRelease, Dispatch, QueueOk, TaskOk, QueueShape, CfgOk;
    LinedFirst(k);
    FairSame(k, k, {}, {t}, E_OK);
    if k.held[t] != [] {
      var k1 := PopHeld(k, t);
      var k2 := MutexDropPriority(k1, t, m);
      FairSame(k, k1, {}, {t}, E_OK);
      FairMutex(k1, t, m, {}, {t}, E_OK);
      FairAgain(k, k1, k2, {}, {t}, E_OK);
      DroppedLined(k, t, m);
      FairHandedOver(k2, m, {}, {t});
      FairAgain(k, k2, MutexRelease(k2, m), {}, {t}, E_OK);
      FairDispatched(k, MutexRelease(k2, m), {}, {t}, E_OK);
    }
  }

  lemma DroppedLined(k: K, t: TaskId, m: WobjId)
    requires AllLined(k) && IsTask(k, t) && IsMutex(k.cfg, m) && k.tcb[t].stat.Runnable? && k.held[t] != []
    ensures AllLined(MutexDropPriority(PopHeld(k, t), t, m))
  {
    hide NoDup, TaskShape;
    PoppedLined(k, t);
    var k1 := PopHeld(k, t);
    var r := MutexDropPriority(k1, t, m);
    forall q: WobjId | q < |k.cfg.wobj| ensures Q(r, WaitQ(q)) == Q(k1, WaitQ(q)) { HomeThere(k1, WaitQ(q)); }
    LinedOn(k1, r);
  }

  lemma FairIniMtx(k: K, m: WobjId, out: set<TaskId>)
    requires Inv(k, TIGHT) && IsMutex(k.cfg, m) && (k.owner[m].Some? ==> k.owner[m].value in out)
    ensures Shape(k) && Fair(k, IniMtxStep(k, m).0, {}, out, E_DLT)
  {
    hide Fair, AllLined, MutexDropPriority, InitWaitQueue, Dispatch, QueueOk, TaskOk, QueueShape, CfgOk;
    LinedFirst(k);
    LinedShape(k);
    var k1, o := InitWaitQueue(k, m), k.owner[m];
    FairReleased(k, m, {}, out);
    FairDispatched(k, k1, {}, out, E_DLT);
    if o.Some? {
      RemoveMembersOf(k1.held[o.value], m);
      var k2 := SetHeld(SetOwner(k1, m, None), o.value, Remove(k1.held[o.value], m));
      FairSame(k1, k2, {}, out, E_DLT);
      FairAgain(k, k1, k2, {}, out, E_DLT);
      FairMutex(k2, o.value, m, {}, out, E_DLT);
      FairAgain(k, k2, MutexDropPriority(k2, o.value, m), {}, out, E_DLT);
      FairDispatched(k, MutexDropPriority(k2, o.value, m), {}, out, E_DLT);
    }
  }

  lemma FairSem(k: K, q: WobjId)
    requires AllLined(k) && IsSem(k.cfg, q)
    ensures Fair(k, SigSemStep(k, q).0, {}, {}, E_OK) && Fair(k, IniSemStep(k, q).0, {}, {}, E_DLT)
  {
    hide Fair, AllLined, WakeFirst, InitWaitQueue, Dispatch, QueueShape, TaskShape, CfgOk;
    LinedShape(k);
    FairSame(k, k, {}, {}, E_OK);
    forall n: nat ensures Fair(k, SetSem(k, q, n), {}, {}, E_OK) { FairSame(k, SetSem(k, q, n), {}, {}, E_OK); }
    if Q(k, WaitQ(q)) != [] {
      FairWoken(k, q, {}, {}, E_OK);
      FairDispatched(k, WakeFirst(k, q, E_OK), {}, {}, E_OK);
    }
    var r := InitWaitQueue(k, q);
    FairReleased(k, q, {}, {});
    FairFacts(k, r, {}, {}, E_DLT);
    FairSame(r, SetSem(r, q, k.cfg.wobj[q].kind.isemcnt), {}, {}, E_DLT);
    FairAgain(k, r, SetSem(r, q, k.cfg.wobj[q].kind.isemcnt), {}, {}, E_DLT);
    FairDispatched(k, SetSem(r, q, k.cfg.wobj[q].kind.isemcnt), {}, {}, E_DLT);
  }

  lemma FairTakes(k: K, t: TaskId, q: WobjId, tmo: Tmo)
    requires Shape(k) && IsTask(k, t)
    ensures IsSem(k.cfg, q) ==> Fair(k, WaiSemStep(k, t, q, tmo).0, {t}, {t}, E_OK)
    ensures IsOther(k.cfg, q) ==> Fair(k, ObjWaitStep(k, t, q, tmo).0, {t}, {t}, E_OK)
  {
    hide Fair, WobjMakeWait, Dispatch, QueueShape, CfgOk;
    FairSame(k, k, {t}, {t}, E_OK);
    if q < |k.cfg.wobj| {
      forall n: nat ensures Fair(k, SetSem(k, q, n), {t}, {t}, E_OK) { FairSame(k, SetSem(k, q, n), {t}, {t}, E_OK); }
      FairWaiting(k, t, OnQueue(q), tmo.Timed?, E_OK);
      FairDispatched(k, WobjMakeWait(k, t, q, tmo.Timed?), {t}, {t}, E_OK);
    }
  }

  lemma FairServed(k: K, q: WobjId, i: nat)
    requires AllLined(k) && IsOther(k.cfg, q)
    ensures Fair(k, ObjWakeStep(k, q, i).0, {}, {}, E_OK) && Fair(k, Dispatch(InitWaitQueue(k, q)), {}, {}, E_DLT)
  {
    hide Fair, AllLined, WaitDone, WaitEnd, InitWaitQueue, Dispatch, TaskShape, CfgOk;
    LinedShape(k);
    FairSame(k, k, {}, {}, E_OK);
    FairReleased(k, q, {}, {});
    FairDispatched(k, InitWaitQueue(k, q), {}, {}, E_DLT);
    var s := Q(k, WaitQ(q));
    if i < |s| {
      WaiterWaits(k, q, i);
      var k1 := Unlink(k, WaitQ(q), s[i]);
      FairUnlinked(k, s[i], q, {}, {}, E_OK);
      UnlinkedRecord(k, s[i], q);
      WaitEndDone(k1, s[i], E_OK);
      FairDone(k1, WaitEnd(k1, s[i], E_OK), s[i], {}, {}, E_OK);
      FairAgain(k, k1, WaitEnd(k1, s[i], E_OK), {}, {}, E_OK);
      FairDispatched(k, WaitEnd(k1, s[i], E_OK), {}, {}, E_OK);
    }
  }

  lemma WaiterWaits(k: K, q: WobjId, i: nat)
    requires AllLined(k) && q < |k.cfg.wobj| && i < |Q(k, WaitQ(q))|
    ensures IsTask(k, Q(k, WaitQ(q))[i]) && k.tcb[Q(k, WaitQ(q))[i]].stat.Waiting?
  {
    assert Q(k, WaitQ(q))[i] in Q(k, WaitQ(q));
  }

  lemma UnlinkedRecord(k: K, t: TaskId, q: WobjId)
    requires Shape(k) && q < |k.cfg.wobj|
    ensures Unlink(k, WaitQ(q), t).tcb == k.tcb
  {
  }

  lemma FairObjectCall(k: K, c: Call)
    requires Settled(k) && Shape(k) && Callable(k, c) && !IsTaskCall(c)
    ensures Fair(k, ObjectStep(k, c).0, About(k, c), Moves(k, c), CodeOf(c))
  {
    hide Fair, AllLined, LocMtxStep, PlocMtxStep, UnlMtxStep, IniMtxStep, WaiSemStep, SigSemStep, IniSemStep, ObjWaitStep, ObjWakeStep,
      EnaDspStep, InitWaitQueue, Expire, Dispatch, QueueOk, TaskOk, QueueShape, CfgOk;
    LinedFirst(k);
    RunnerKnown(k);
    match c
    case LocMtx(m, tmo) => FairLock(k, k.run.value, m, tmo);
    case PlocMtx(m) => FairLock(k, k.run.value, m, Poll);
    case UnlMtx(m) => FairUnlock(k, k.run.value, m);
    case IniMtx(m) => FairIniMtx(k, m, Moves(k, c));
    case WaiSem(q, tmo) => FairTakes(k, k.run.value, q, tmo);
    case SigSem(q) => FairSem(k, q);
    case IniSem(q) => FairSem(k, q);
    case ObjWait(q, tmo) => FairTakes(k, k.run.value, q, tmo);
    case ObjWake(q, i) => FairServed(k, q, i);
    case ObjInit(q) => FairServed(k, q, 0);
    case Timeout(t, n) =>
      FairForced(k, t, n, E_OK);
      FairDispatched(k, Expire(k, t, n), {t}, {}, E_OK);
    case DisDsp => FairDisabled(k, About(k, c), Moves(k, c));
    case EnaDsp(twd, idle) => FairEnds(k, k.run.value, twd, idle);
    case SwitchWindow(twd, idle) => FairSwitch(k, twd, idle);
  }

  lemma FairSwitch(k: K, twd: UnitId, idle: UnitId)
    requires Shape(k) && twd < k.cfg.units && idle < k.cfg.units
    ensures var r := k.(twd := twd, idle := idle); Shape(r) && Fair(k, Dispatch(r), {}, {}, E_OK)
  {
    hide Fair, Dispatch;
    var r := k.(twd := twd, idle := idle);
    FairSame(k, r, {}, {}, E_OK);
    FairDispatched(k, r, {}, {}, E_OK);
  }

  lemma FairDisabled(k: K, rec: set<TaskId>, out: set<TaskId>)
    requires Shape(k)
    ensures Fair(k, k.(dsp := false), rec, out, E_OK)
  {
    FairSame(k, k.(dsp := false), rec, out, E_OK);
  }

  lemma RunnerKnown(k: K)
    requires Settled(k)
    ensures Shape(k) && (k.run.Some? ==> IsTask(k, k.run.value) && k.tcb[k.run.value].stat.Runnable?)
  {
  }

  /** Whatever is called: of the tasks it is not about, some waits may end, with the call's result, and
      nothing else changes; and of those it does not move nobody overtakes another: they keep their order in
      every queue, and who becomes runnable comes behind who was. */
  lemma CallFair(k: K, c: Call)
    requires Settled(k) && Shape(k) && Callable(k, c) && !c.RotRdq?
    ensures Fair(k, Step(k, c).0, About(k, c), Moves(k, c), CodeOf(c))
  {
    hide Settled, Fair, About, Moves, TaskStep, ObjectStep;
    if IsTaskCall(c) {
      SettledLined(k);
      FairTaskCall(k, c);
    } else {
      FairObjectCall(k, c);
    }
  }

  lemma SettledLined(k: K)
    requires Settled(k)
    ensures AllLined(k)
  {
    LinedFirst(k);
  }

  // ---------------------------------------------------------------- rotation

  /** rot_rdq: everybody else moves up one place, and the first comes behind all. */
  lemma RotateOnce(k: K, p: Pri, u: UnitId)
    requires Shape(k) && p < TNUM_TPRI && u < k.cfg.units
    ensures var r := RotateReadyQueue(k, p, u);
            var s := Q(k, Ready(u, p));
            && r == k.(queues := r.queues) && r.queues.Keys == k.queues.Keys
            && (forall h {:trigger r.queues[h]} :: h in k.queues && h != Ready(u, p) ==> r.queues[h] == k.queues[h])
            && |Q(r, Ready(u, p))| == |s|
            && forall i :: 0 <= i < |s| ==> Q(r, Ready(u, p))[i] == if i + 1 < |s| then s[i + 1] else s[0]
  {
    hide TaskShape, CfgOk;
    HomeThere(k, Ready(u, p));
    RotatedIs(k, p, u);
  }

  /** `n` rotations. */
  function Rotations(k: K, p: Pri, u: UnitId, n: nat): (r: K)
    requires Shape(k) && p < TNUM_TPRI && u < k.cfg.units
    ensures Kept(k, r)
  {
    if n == 0 then k else RotateReadyQueue(Rotations(k, p, u, n - 1), p, u)
  }

  /** Each task of the level gets its turn, and after as many rotations as there are tasks all are back. */
  lemma {:induction false} RotateTurns(k: K, p: Pri, u: UnitId, n: nat)
    requires Shape(k) && p < TNUM_TPRI && u < k.cfg.units && n <= |Q(k, Ready(u, p))|
    ensures var s := Q(k, Ready(u, p)); Q(Rotations(k, p, u, n), Ready(u, p)) == s[n..] + s[..n]
  {
    hide Shape, Q, RotateReadyQueue;
    var s := Q(k, Ready(u, p));
    if n == 0 {
      assert s[0..] + s[..0] == s;
    } else {
      RotateTurns(k, p, u, n - 1);
      RotatedIs(Rotations(k, p, u, n - 1), p, u);
      TurnedOnce(s, n);
    }
  }

  lemma TurnedOnce<T>(s: seq<T>, n: nat)
    requires 0 < n <= |s|
    ensures var t := s[n - 1..] + s[..n - 1]; (if |t| > 1 then t[1..] + [t[0]] else t) == s[n..] + s[..n]
  {
    var x, y, z := s[..n - 1], s[n - 1], s[n..];
    assert s[n - 1..] == [y] + z && s[..n] == x + [y];
    Turned(x, y, z);
  }

  lemma Turned<T>(x: seq<T>, y: T, z: seq<T>)
    ensures var t := ([y] + z) + x; (if |t| > 1 then t[1..] + [t[0]] else t) == z + (x + [y])
  {
    var t := ([y] + z) + x;
    assert t == [y] + (z + x);
    assert t[1..] == z + x;
  }

  lemma RotatedIs(k: K, p: Pri, u: UnitId)
    requires Shape(k) && p < TNUM_TPRI && u < k.cfg.units
    ensures var s := Q(k, Ready(u, p)); Q(RotateReadyQueue(k, p, u), Ready(u, p)) == if |s| > 1 then s[1..] + [s[0]] else s
  {
    hide TaskShape, CfgOk;
  }

  // ---------------------------------------------------------------- whose turn it is

  /** In every reachable state with dispatching enabled the running task is the first of its ready queue:
      among equals whoever came first runs first. */
  lemma RunsFirst(k: K)
    requires Reachable(k) && k.dsp && k.run.Some?
    ensures IsTask(k, k.run.value)
    ensures var h := ReadyQ(k, k.run.value, k.tcb[k.run.value].pri); h in k.queues && k.queues[h] != [] && k.queues[h][0] == k.run.value
  {
    hide QueueOk, TaskOk;
    ReachableSettled(k);
    if Best(k, KERNEL_UNIT).Some? { BestFirst(k, KERNEL_UNIT, 0); }
    if Best(k, k.twd).Some? { BestFirst(k, k.twd, 0); }
    if Best(k, k.idle).Some? { BestFirst(k, k.idle, 0); }
  }

  lemma {:induction false} BestFirst(k: K, u: UnitId, p: nat)
    requires Inv(k, TIGHT) && u < k.cfg.units && p <= TNUM_TPRI && BestFrom(k, u, p).Some?
    ensures var t := BestFrom(k, u, p).value;
            IsTask(k, t) && var h := ReadyQ(k, t, k.tcb[t].pri); h in k.queues && k.queues[h] != [] && k.queues[h][0] == t
    decreases TNUM_TPRI - p
  {
    if p < TNUM_TPRI {
      if k.queues[Ready(u, p)] != [] {
        assert QueueOk(k, TIGHT, Ready(u, p));
      } else {
        BestFirst(k, u, p + 1);
      }
    }
  }
}
