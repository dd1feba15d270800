/**
 Fixed-size memory pools: blocks are known by their index; the management array links the free ones and
 marks the ones given out.
 */
module FixedPool {
  import opened Base
  import opened WaitQueue
  import opened Turns

  // ---------------------------------------------------------------- the protocol

  /** One handing-out of a block: to whom, and the how many-th it was. */
  datatype Grant = Grant(tid: nat, id: nat)

  /** A release that has passed the checks of rel_mpf, made before the CPU is locked: of which block and
      grant, and whether another release of the block or an initialisation has come in between. */
  datatype Checked = Checked(b: nat, id: nat, disturbed: bool)

  /** `owner` tells to whom each block is given; blocks from `unused` on were never given out. `pending`
      are the releases between check and lock, `robbed` the grants ended by a release checked for
      another one. */
  datatype Pool = Pool(blkcnt: nat, byPri: bool, free: seq<nat>, unused: nat, owner: map<nat, Grant>, grants: nat,
                       waiters: seq<Waiter<()>>, woken: seq<nat>, pending: seq<Checked>, robbed: seq<Grant>)

  datatype PoolCall =
    | Get(w: Waiter<()>, wait: bool)   // get_mpf, tget_mpf; pget_mpf if `wait` is false
    | Check(b: nat)                    // rel_mpf of the block's address up to lock_cpu
    | Return(i: nat)                   // the rest of the i-th pending rel_mpf
    | GiveUp(i: nat)                   // the i-th wait ends any other way
    | Reprioritize(i: nat, pri: nat)   // the priority of the i-th waiter changes
    | Init                             // ini_mpf

  datatype Reply = Done | Given(b: nat) | Waits | TimedOut | BadParameter

  function FreeCount(s: Pool): int { |s.free| + s.blkcnt - s.unused }

  /** get_mpf_block takes the block released last, or else the first one never used. */
  function NextBlock(s: Pool): nat { if s.free != [] then s.free[0] else s.unused }

  function Handed(s: Pool, b: nat, tid: nat): Pool {
    s.(owner := s.owner[b := Grant(tid, s.grants)], grants := s.grants + 1)
  }

  function Take(s: Pool, tid: nat): Pool {
    var t := Handed(s, NextBlock(s), tid);
    if s.free != [] then t.(free := s.free[1..]) else t.(unused := s.unused + 1)
  }

  /** Pending releases, those of block `b` (of all blocks if none is given) disturbed. */
  function Disturbed(ps: seq<Checked>, b: Option<nat>): (r: seq<Checked>)
    ensures |r| == |ps|
    ensures forall k :: 0 <= k < |ps| ==> r[k] == ps[k].(disturbed := ps[k].disturbed || b.None? || b.value == ps[k].b)
  {
    seq(|ps|, k requires 0 <= k < |ps| => ps[k].(disturbed := ps[k].disturbed || b.None? || b.value == ps[k].b))
  }

  /** The locked part of rel_mpf, which does not look at the block again. */
  function ReturnStep(s: Pool, i: nat): Pool
    requires i < |s.pending|
  {
    var p := s.pending[i];
    var t := s.(pending := Disturbed(Drop(s.pending, i), Some(p.b)),
                robbed := if p.b in s.owner && s.owner[p.b].id != p.id then s.robbed + [s.owner[p.b]] else s.robbed);
    if s.waiters != [] then
      Handed(t, p.b, s.waiters[0].tid).(waiters := s.waiters[1..], woken := s.woken + [s.waiters[0].tid])
    else t.(owner := s.owner - {p.b}, free := [p.b] + s.free)
  }

  lemma ReturnIs(s: Pool, i: nat)
    requires i < |s.pending|
    ensures var b, r := s.pending[i].b, ReturnStep(s, i);
            && r.blkcnt == s.blkcnt && r.byPri == s.byPri && r.unused == s.unused
            && FreeCount(r) == FreeCount(s) + (if s.waiters == [] then 1 else 0)
            && (s.waiters != [] ==> r.waiters == s.waiters[1..] && r.free == s.free && r.owner.Keys == s.owner.Keys + {b})
            && (s.waiters == [] ==> r.waiters == [] && r.free == [b] + s.free && r.owner == s.owner - {b})
  {
  }

  function Step(s: Pool, call: PoolCall): Pool {
    match call
    case Get(w, wait) =>
      if FreeCount(s) > 0 then Take(s, w.tid)
      else if wait then s.(waiters := Enter(s.waiters, w, s.byPri))
      else s
    case Check(b) => if b in s.owner then s.(pending := s.pending + [Checked(b, s.owner[b].id, false)]) else s
    case Return(i) => if i < |s.pending| then ReturnStep(s, i) else s
    case GiveUp(i) => if i < |s.waiters| then s.(waiters := Drop(s.waiters, i)) else s
    case Reprioritize(i, pri) => if i < |s.waiters| then s.(waiters := Reordered(s.waiters, i, pri, s.byPri)) else s
    case Init => s.(free := [], unused := 0, owner := map[], waiters := [], pending := Disturbed(s.pending, None))
  }

  function Answer(s: Pool, call: PoolCall): Reply {
    match call
    case Get(w, wait) => if FreeCount(s) > 0 then Given(NextBlock(s)) else if wait then Waits else TimedOut
    case Check(b) => if b in s.owner then Done else BadParameter
    case _ => Done
  }

  // ---------------------------------------------------------------- invariants

  /** The blocks used so far are either on the free list or given out; waiting means none is free. */
  ghost predicate Consistent(s: Pool) {
    && s.unused <= s.blkcnt && NoDup(s.free)
    && (forall b {:trigger b in s.owner} :: b in s.owner ==> b < s.unused)
    && (forall i {:trigger s.free[i]} :: 0 <= i < |s.free| ==> s.free[i] < s.unused && s.free[i] !in s.owner)
    && (forall b {:trigger b in s.free} :: 0 <= b < s.unused && b !in s.owner ==> b in s.free)
    && (s.waiters != [] ==> FreeCount(s) == 0)
  }

  lemma TakeConsistent(s: Pool, tid: nat)
    requires Consistent(s) && FreeCount(s) > 0
    ensures Consistent(Take(s, tid))
  {
    hide NoDup;
    var r := Take(s, tid);
    if s.free != [] {
      RestNoDup(s.free);
      assert s.free == [s.free[0]] + r.free;
      forall i | 0 <= i < |r.free| ensures r.free[i] < r.unused && r.free[i] !in r.owner { assert r.free[i] == s.free[i + 1]; }
      forall b | 0 <= b < r.unused && b !in r.owner ensures b in r.free { assert b in s.free; }
    }
  }

  lemma RestNoDup(s: seq<nat>)
    requires NoDup(s) && s != []
    ensures NoDup(s[1..]) && s[0] !in s[1..]
  {
    CutOut(s, 0);
    assert s[..0] + s[1..] == s[1..];
  }

  lemma ReleaseConsistent(s: Pool, b: nat)
    requires Consistent(s) && b in s.owner && s.waiters == []
    ensures Consistent(s.(owner := s.owner - {b}, free := [b] + s.free))
  {
    hide NoDup;
    var r := s.(owner := s.owner - {b}, free := [b] + s.free);
    InsertNew(s.free, 0, b);
    assert s.free[..0] + [b] + s.free[0..] == r.free;
    forall i | 0 <= i < |r.free| ensures r.free[i] < r.unused && r.free[i] !in r.owner { assert i > 0 ==> r.free[i] == s.free[i - 1]; }
    forall c | 0 <= c < r.unused && c !in r.owner ensures c in r.free { assert c != b ==> c in s.free; }
  }

  /** No block is in two places, and no grant was ended by a release that was not its own. */
  ghost predicate Orderly(s: Pool) { Consistent(s) && s.robbed == [] }

  /** The grant a pending release was checked for is still there. */
  predicate Current(s: Pool, p: Checked) { p.b in s.owner && s.owner[p.b].id == p.id }

  /** Grants are numbered, and a pending release is disturbed iff its grant is gone. */
  ghost predicate Bookkept(s: Pool) {
    && (forall b {:trigger b in s.owner} :: b in s.owner ==> s.owner[b].id < s.grants)
    && forall k {:trigger s.pending[k]} :: 0 <= k < |s.pending| ==>
         s.pending[k].id < s.grants && s.pending[k].b < s.blkcnt && (s.pending[k].disturbed <==> !Current(s, s.pending[k]))
  }

  /** The call returns a block whose checked grant is gone. */
  predicate ReturnsDisturbed(s: Pool, call: PoolCall) {
    call.Return? && call.i < |s.pending| && s.pending[call.i].disturbed
  }

  lemma TakeBookkept(s: Pool, tid: nat)
    requires Consistent(s) && Bookkept(s) && FreeCount(s) > 0
    ensures Bookkept(Take(s, tid))
  {
    hide NoDup;
    var r := Take(s, tid);
    assert NextBlock(s) !in s.owner;
    forall k | 0 <= k < |r.pending| ensures r.pending[k].disturbed <==> !Current(r, r.pending[k]) {
      assert r.pending[k] == s.pending[k];
    }
  }

  lemma ReturnBookkept(s: Pool, i: nat)
    requires Bookkept(s) && i < |s.pending|
    ensures Bookkept(ReturnStep(s, i))
  {
    var r := ReturnStep(s, i);
    forall k | 0 <= k < |r.pending|
      ensures r.pending[k].id < r.grants && r.pending[k].b < r.blkcnt && (r.pending[k].disturbed <==> !Current(r, r.pending[k]))
    {
      var p := s.pending[if k < i then k else k + 1];
      assert Drop(s.pending, i)[k] == p && r.pending[k].b == p.b && r.pending[k].id == p.id;
    }
  }

  /** Returning a block twice, or one that an initialisation took back, shows at once. */
  lemma DisturbedShows(s: Pool, i: nat)
    requires Orderly(s) && Bookkept(s) && i < |s.pending| && s.pending[i].disturbed
    ensures !Orderly(ReturnStep(s, i))
  {
    var p, r := s.pending[i], ReturnStep(s, i);
    assert !Current(s, p);
    if p.b !in s.owner {
      NoneWaits(s, p.b);
      assert r.free[0] == p.b;
      if p.b < s.unused {
        assert p.b in s.free;
        var k :| 0 <= k < |s.free| && s.free[k] == p.b;
        assert r.free[k + 1] == p.b;
      }
    }
  }

  lemma NoneWaits(s: Pool, b: nat)
    requires Consistent(s) && b < s.blkcnt && b !in s.owner
    ensures s.waiters == []
  {
    FreeCountCounts(s);
    SubsetSize({b}, FreeBlocks(s));
  }

  lemma EmptyPool(s: Pool)
    requires Consistent(s) && s.waiters != []
    ensures FreeBlocks(s) == {}
  {
    FreeCountCounts(s);
  }

  lemma ReturnConsistent(s: Pool, i: nat)
    requires Orderly(s) && Bookkept(s) && i < |s.pending| && !s.pending[i].disturbed
    ensures Orderly(ReturnStep(s, i))
  {
    hide NoDup;
    var p := s.pending[i];
    assert Current(s, p);
    if s.waiters == [] { ReleaseConsistent(s, p.b); }
  }

  /** Every call keeps the pool orderly, except, and exactly, the return of a disturbed release. */
  lemma StepConsistent(s: Pool, call: PoolCall)
    requires Orderly(s) && Bookkept(s)
    ensures Orderly(Step(s, call)) <==> !ReturnsDisturbed(s, call)
    ensures Bookkept(Step(s, call))
  {
    hide NoDup, Take, ReturnStep;
    match call
    case Get(w, wait) =>
      if FreeCount(s) > 0 {
        TakeConsistent(s, w.tid);
        TakeBookkept(s, w.tid);
        TakeRobs(s, w.tid);
      }
    case Return(i) =>
      if i < |s.pending| {
        ReturnBookkept(s, i);
        if s.pending[i].disturbed { DisturbedShows(s, i); } else { ReturnConsistent(s, i); }
      }
    case Init =>
      assert NoDup<nat>([]) by { EmptyNoDup(); }
    case _ =>
  }

  lemma TakeOk(s: Pool, tid: nat)
    requires Orderly(s) && Bookkept(s) && FreeCount(s) > 0
    ensures var r := Take(s, tid);
            && Orderly(r) && Bookkept(r) && FreeCount(r) == FreeCount(s) - 1 && r.owner.Keys == s.owner.Keys + {NextBlock(s)}
  {
    hide Consistent, Bookkept;
    TakeConsistent(s, tid);
    TakeBookkept(s, tid);
  }

  lemma TakeRobs(s: Pool, tid: nat)
    ensures Take(s, tid).robbed == s.robbed
  {
  }

  lemma EmptyNoDup()
    ensures NoDup<nat>([])
  {
  }

  /** The blocks nobody has. */
  function FreeBlocks(s: Pool): set<nat> {
    set b: nat | b < s.blkcnt && b !in s.owner
  }

  /** The free count counts the blocks nobody has. */
  lemma FreeCountCounts(s: Pool)
    requires Consistent(s)
    ensures FreeCount(s) == |FreeBlocks(s)|
  {
    var rest := Upwards(s.unused, s.blkcnt);
    ListedSize(s.free);
    assert FreeBlocks(s) == Listed(s.free) + rest;
    assert Listed(s.free) !! rest;
  }

  function Upwards(lo: nat, hi: nat): (r: set<nat>)
    requires lo <= hi
    ensures |r| == hi - lo && (forall b :: b in r <==> lo <= b < hi)
    decreases hi
  {
    if lo == hi then {} else Upwards(lo, hi - 1) + {hi - 1}
  }

  function Listed(s: seq<nat>): set<nat> { set b | b in s }

  lemma {:induction false} ListedSize(s: seq<nat>)
    requires NoDup(s)
    ensures |Listed(s)| == |s|
  {
    if s != [] {
      var rest, last := s[..|s| - 1], s[|s| - 1];
      ListedSize(rest);
      assert last !in rest;
      assert Listed(s) == Listed(rest) + {last};
    }
  }

  /** A block given out was nobody's; an owner changes only when his block is returned to the first
      waiter, which in an orderly pool ends the grant the release was checked for. */
  lemma GivenWasFree(s: Pool, call: PoolCall)
    requires Orderly(s) && Bookkept(s)
    ensures Answer(s, call).Given? ==>
      var b := Answer(s, call).b;
      && b in FreeBlocks(s) && call.Get? && Step(s, call).owner == s.owner[b := Grant(call.w.tid, s.grants)]
      && FreeBlocks(Step(s, call)) == FreeBlocks(s) - {b}
    ensures forall b :: b in s.owner && b in Step(s, call).owner && s.owner[b] != Step(s, call).owner[b] ==>
      && call.Return? && call.i < |s.pending| && s.pending[call.i].b == b && s.waiters != []
      && Step(s, call).owner[b].tid == s.waiters[0].tid
      && (!s.pending[call.i].disturbed ==> s.pending[call.i].id == s.owner[b].id)
  {
  }

  /** Getting a block and releasing it leaves the same blocks free and the same owners. */
  lemma GetThenRelease(s: Pool, w: Waiter<()>, wait: bool)
    requires Orderly(s) && Bookkept(s) && FreeCount(s) > 0
    ensures var t := Step(s, Get(w, wait));
            var u := Step(t, Check(NextBlock(s)));
            var r := Step(u, Return(|s.pending|));
            && Answer(t, Check(NextBlock(s))).Done?
            && FreeBlocks(r) == FreeBlocks(s) && r.owner == s.owner && FreeCount(r) == FreeCount(s) && NextBlock(r) == NextBlock(s)
  {
    assert NextBlock(s) !in s.owner;
    var t := Step(s, Get(w, wait));
    var u := Step(t, Check(NextBlock(s)));
    assert u.pending[|s.pending|] == Checked(NextBlock(s), s.grants, false);
    var r := Step(u, Return(|s.pending|));
    assert r.owner == s.owner;
  }

  // ---------------------------------------------------------------- all interleavings

  function Fresh(blkcnt: nat, byPri: bool): Pool { Pool(blkcnt, byPri, [], 0, map[], 0, [], [], [], []) }

  ghost predicate IsRun(ss: seq<Pool>, calls: seq<PoolCall>, blkcnt: nat, byPri: bool) {
    && |ss| == |calls| + 1 && ss[0] == Fresh(blkcnt, byPri)
    && forall i {:trigger calls[i]} :: 0 <= i < |calls| ==> ss[i + 1] == Step(ss[i], calls[i])
  }

  /** None of the first `n` calls returns a block of which another release was carried out, or whose
      pool was initialised, since its check. */
  ghost predicate Undisturbed(ss: seq<Pool>, calls: seq<PoolCall>, n: nat)
    requires n < |ss| == |calls| + 1
  {
    forall m {:trigger calls[m]} :: 0 <= m < n ==> !ReturnsDisturbed(ss[m], calls[m])
  }

  lemma {:induction false} UndisturbedOrderly(ss: seq<Pool>, calls: seq<PoolCall>, blkcnt: nat, byPri: bool, n: nat)
    requires IsRun(ss, calls, blkcnt, byPri) && n < |ss| && Undisturbed(ss, calls, n)
    ensures Orderly(ss[n]) && Bookkept(ss[n]) && ss[n].blkcnt == blkcnt
  {
    hide NoDup;
    if n > 0 {
      UndisturbedOrderly(ss, calls, blkcnt, byPri, n - 1);
      StepConsistent(ss[n - 1], calls[n - 1]);
      assert ss[n] == Step(ss[n - 1], calls[n - 1]);
    } else {
      EmptyNoDup();
    }
  }

  /** A run stays orderly exactly as long as no disturbed release is returned; as long as it does, the
      free list and the owners split the blocks, the count is right, and tasks wait only for a pool with
      no free block. */
  lemma {:induction false} PoolRun(ss: seq<Pool>, calls: seq<PoolCall>, blkcnt: nat, byPri: bool, n: nat)
    requires IsRun(ss, calls, blkcnt, byPri) && n < |ss|
    ensures (forall m :: 0 <= m <= n ==> Orderly(ss[m])) <==> Undisturbed(ss, calls, n)
    ensures Undisturbed(ss, calls, n) ==>
      && Consistent(ss[n]) && FreeCount(ss[n]) == |FreeBlocks(ss[n])|
      && (ss[n].waiters != [] ==> FreeBlocks(ss[n]) == {})
  {
    hide Consistent, Step;
    if Undisturbed(ss, calls, n) {
      forall m | 0 <= m <= n ensures Orderly(ss[m]) { UndisturbedOrderly(ss, calls, blkcnt, byPri, m); }
      FreeCountCounts(ss[n]);
      if ss[n].waiters != [] { EmptyPool(ss[n]); }
    } else {
      var m := FirstDisturbed(ss, calls, n);
      UndisturbedOrderly(ss, calls, blkcnt, byPri, m);
      StepConsistent(ss[m], calls[m]);
      assert ss[m + 1] == Step(ss[m], calls[m]);
    }
  }

  lemma {:induction false} FirstDisturbed(ss: seq<Pool>, calls: seq<PoolCall>, n: nat) returns (m: nat)
    requires n < |ss| == |calls| + 1 && !Undisturbed(ss, calls, n)
    ensures m < n && Undisturbed(ss, calls, m) && ReturnsDisturbed(ss[m], calls[m])
  {
    if Undisturbed(ss, calls, n - 1) {
      m := n - 1;
    } else {
      m := FirstDisturbed(ss, calls, n - 1);
    }
  }

  /** A pool of which the first block is out, with two releases of it checked. */
  function CheckedTwice(blkcnt: nat, byPri: bool, tid: nat): Pool {
    Fresh(blkcnt, byPri).(owner := map[0 := Grant(tid, 0)], grants := 1, unused := 1,
                          pending := [Checked(0, 0, false), Checked(0, 0, false)])
  }

  lemma BothRelease(blkcnt: nat, byPri: bool, tid: nat)
    ensures var r := Step(Step(CheckedTwice(blkcnt, byPri, tid), Return(0)), Return(0)); r.free == [0, 0]
  {
    var s := CheckedTwice(blkcnt, byPri, tid);
    assert Drop(s.pending, 0) == [Checked(0, 0, false)];
    assert Step(s, Return(0)).pending == [Checked(0, 0, true)];
  }

  /** Two releases of one block that both pass the check: the block is on the free list twice. */
  lemma ReleasedTwice(blkcnt: nat, byPri: bool, tid: nat) returns (ss: seq<Pool>, calls: seq<PoolCall>)
    requires blkcnt > 0
    ensures IsRun(ss, calls, blkcnt, byPri) && |ss| == 6 && ss[5].free == [0, 0] && !Consistent(ss[5])
  {
    hide ReturnStep;
    BothRelease(blkcnt, byPri, tid);
    calls := [Get(Waiter(tid, 0, ()), false), Check(0), Check(0), Return(0), Return(0)];
    var s0, s3 := Fresh(blkcnt, byPri), CheckedTwice(blkcnt, byPri, tid);
    var s1 := s3.(pending := []);
    var s2 := s1.(pending := [Checked(0, 0, false)]);
    var s4 := Step(s3, Return(0));
    ss := [s0, s1, s2, s3, s4, Step(s4, Return(0))];
    assert Step(s0, calls[0]) == s1;
    assert Step(s1, calls[1]) == s2;
    assert Step(s2, calls[2]) == s3;
    assert ss[5].free[0] == ss[5].free[1];
  }

  /** A pool of one block that is out, with two tasks waiting and two releases of the block checked. */
  function Contended(tid: nat, w1: Waiter<()>, w2: Waiter<()>): Pool {
    Fresh(1, false).(owner := map[0 := Grant(tid, 0)], grants := 1, unused := 1, waiters := [w1, w2],
                     pending := [Checked(0, 0, false), Checked(0, 0, false)])
  }

  lemma BothReturn(tid: nat, w1: Waiter<()>, w2: Waiter<()>)
    ensures var r := Step(Step(Contended(tid, w1, w2), Return(0)), Return(0));
            r.woken == [w1.tid, w2.tid] && r.owner == map[0 := Grant(w2.tid, 2)] && r.robbed == [Grant(w1.tid, 1)]
  {
    var s := Contended(tid, w1, w2);
    assert Drop(s.pending, 0) == [Checked(0, 0, false)] && [w1, w2][1..] == [w2];
    assert Step(s, Return(0)).pending == [Checked(0, 0, true)];
  }

  /** The same with two tasks waiting: the first one's block is taken from it and given to the second. */
  lemma GivenTwice(tid: nat, w1: Waiter<()>, w2: Waiter<()>) returns (ss: seq<Pool>, calls: seq<PoolCall>)
    ensures IsRun(ss, calls, 1, false) && |ss| == 8
    ensures ss[7].woken == [w1.tid, w2.tid] && ss[7].owner == map[0 := Grant(w2.tid, 2)]
    ensures ss[7].robbed == [Grant(w1.tid, 1)]
  {
    hide ReturnStep;
    BothReturn(tid, w1, w2);
    calls := [Get(Waiter(tid, 0, ()), false), Get(w1, true), Get(w2, true), Check(0), Check(0), Return(0), Return(0)];
    var s0, s5 := Fresh(1, false), Contended(tid, w1, w2);
    var s1 := s5.(waiters := [], pending := []);
    var s2 := s1.(waiters := [w1]);
    var s3 := s1.(waiters := [w1, w2]);
    var s4 := s3.(pending := [Checked(0, 0, false)]);
    var s6 := Step(s5, Return(0));
    ss := [s0, s1, s2, s3, s4, s5, s6, Step(s6, Return(0))];
    assert Step(s0, calls[0]) == s1;
    assert Step(s1, calls[1]) == s2;
    assert Step(s2, calls[2]) == s3;
    assert Step(s3, calls[3]) == s4;
    assert Step(s4, calls[4]) == s5;
  }

  /** A TA_TPRI queue of waiting tasks is in order of priority. */
  ghost predicate InOrder(s: Pool) { s.byPri ==> ByPriority(s.waiters) }

  lemma StepInOrder(s: Pool, call: PoolCall)
    requires InOrder(s)
    ensures InOrder(Step(s, call))
  {
    hide ByPriority, Enter, Reordered, Drop;
    if s.byPri {
      if call.Get? { StaysByPriority(s.waiters, call.w, 0); }
      if s.waiters != [] { RestByPriority(s.waiters, 1); }
      if call.GiveUp? && call.i < |s.waiters| { StaysByPriority(s.waiters, s.waiters[0], call.i); }
      if call.Reprioritize? && call.i < |s.waiters| { ReorderedByPriority(s.waiters, call.i, call.pri); }
      NoneInOrder<()>();
    }
  }

  /** In every run a TA_TPRI queue keeps its tasks in order of priority, whatever priorities change. */
  lemma {:induction false} WaitersInOrder(ss: seq<Pool>, calls: seq<PoolCall>, blkcnt: nat, byPri: bool, n: nat)
    requires IsRun(ss, calls, blkcnt, byPri) && n < |ss|
    ensures InOrder(ss[n])
  {
    hide Step;
    if n > 0 {
      WaitersInOrder(ss, calls, blkcnt, byPri, n - 1);
      StepInOrder(ss[n - 1], calls[n - 1]);
      assert ss[n] == Step(ss[n - 1], calls[n - 1]);
    }
  }

  // ---------------------------------------------------------------- whose turn it is

  /** What a call is to the waiting tasks: a block that is returned goes to the first of them. */
  function WaiterTurn(s: Pool, call: PoolCall): Turn {
    match call
    case Get(w, _) => if Answer(s, call).Waits? then Come(w.tid, EntryPlace(s.waiters, w.pri, s.byPri)) else Stay
    case Return(i) => if i < |s.pending| && s.waiters != [] then Serve(1) else Stay
    case GiveUp(i) => if i < |s.waiters| then Quit(i, 0) else Stay
    case Reprioritize(i, pri) => if i < |s.waiters| then Move(i, NewPlace(s.waiters, i, pri, s.byPri)) else Stay
    case Init => Clear
    case _ => Stay
  }

  /** Every call serves the task whose turn it is, ends its wait, and gives it the block returned. */
  lemma TurnStep(s: Pool, call: PoolCall)
    ensures var r, t := Step(s, call), WaiterTurn(s, call);
            && Possible(|s.waiters|, t) && Tids(r.waiters) == After(Tids(s.waiters), t)
            && r.woken == s.woken + Served(Tids(s.waiters), t)
            && (t.Serve? ==> call.Return? && var b := s.pending[call.i].b; b in r.owner && Served(Tids(s.waiters), t) == [r.owner[b].tid])
  {
    hide Tids, Enter, Reordered, Drop;
    var w := s.woken;
    assert w + [] == w;
    match call
    case Get(w, _) => EnterTurn(s.waiters, w, s.byPri);
    case Return(i) =>
      if s.waiters != [] {
        RestTurn(s.waiters, 1);
        FirstTid(s.waiters);
      }
    case GiveUp(i) => if i < |s.waiters| { DropTurn(s.waiters, i); }
    case Reprioritize(i, pri) => if i < |s.waiters| { MoveTurn(s.waiters, i, pri, s.byPri); }
    case _ =>
  }

  function WaiterTurns(ss: seq<Pool>, calls: seq<PoolCall>): (ts: seq<Turn>)
    requires |ss| == |calls| + 1
  {
    seq(|calls|, i requires 0 <= i < |calls| => WaiterTurn(ss[i], calls[i]))
  }

  function WaiterQueues(ss: seq<Pool>): seq<seq<nat>> { seq(|ss|, i requires 0 <= i < |ss| => Tids(ss[i].waiters)) }

  /** In every run the waiting tasks are served in turn, and exactly those served have been woken. */
  lemma {:induction false} InTurn(ss: seq<Pool>, calls: seq<PoolCall>, blkcnt: nat, byPri: bool, n: nat)
    requires IsRun(ss, calls, blkcnt, byPri) && n < |ss|
    ensures var qs, ts := WaiterQueues(ss), WaiterTurns(ss, calls);
            && Queueing(qs, ts) && ss[n].woken == AllServed(qs, ts, n) && Everybody(qs, ts, n) == ss[n].woken + Tids(ss[n].waiters)
  {
    hide Step, WaiterTurn, After, Possible, Served, Everybody, AllServed;
    WaitersQueue(ss, calls, blkcnt, byPri);
    WokenServed(ss, calls, blkcnt, byPri, n);
    ServedInTurn(WaiterQueues(ss), WaiterTurns(ss, calls), n);
  }

  lemma WaitersQueue(ss: seq<Pool>, calls: seq<PoolCall>, blkcnt: nat, byPri: bool)
    requires IsRun(ss, calls, blkcnt, byPri)
    ensures Queueing(WaiterQueues(ss), WaiterTurns(ss, calls))
  {
    hide Step, WaiterTurn, After, Possible, Served;
    forall i | 0 <= i < |calls|
      ensures Possible(|ss[i].waiters|, WaiterTurn(ss[i], calls[i]))
      ensures Tids(ss[i + 1].waiters) == After(Tids(ss[i].waiters), WaiterTurn(ss[i], calls[i]))
    {
      TurnStep(ss[i], calls[i]);
      assert ss[i + 1] == Step(ss[i], calls[i]);
    }
  }

  lemma {:induction false} WokenServed(ss: seq<Pool>, calls: seq<PoolCall>, blkcnt: nat, byPri: bool, n: nat)
    requires IsRun(ss, calls, blkcnt, byPri) && n < |ss| && Queueing(WaiterQueues(ss), WaiterTurns(ss, calls))
    ensures ss[n].woken == AllServed(WaiterQueues(ss), WaiterTurns(ss, calls), n)
  {
    hide Step, WaiterTurn, After, Possible, Served, Queueing;
    if n > 0 {
      WokenServed(ss, calls, blkcnt, byPri, n - 1);
      TurnStep(ss[n - 1], calls[n - 1]);
      assert ss[n] == Step(ss[n - 1], calls[n - 1]);
    }
  }

  // ---------------------------------------------------------------- the object

  const INDEX_NULL: int := 0xFFFF_FFFF    // the end of the free list
  const INDEX_ALLOC: int := 0xFFFF_FFFE   // a block given out

  lemma DivideProduct(b: nat, m: nat)
    requires m > 0
    ensures (m * b) % m == 0 && (m * b) / m == b
  {
    var q, r := (m * b) / m, (m * b) % m;
    assert m * (b - q) == r by { assert m * (b - q) == m * b - m * q; }
    assert m * (b - q) == -(m * (q - b));
    if b > q { Grows(m, b - q); } else if b < q { Grows(m, q - b); }
  }

  lemma Grows(m: nat, k: nat)
    requires k >= 1
    ensures m * k >= m
  {
  }

  lemma DivideExact(x: nat, m: nat)
    requires m > 0 && x % m == 0
    ensures x == m * (x / m)
  {
  }

  class FixedPool {
    const mpfmb: array<int>                  // the link of each block, or INDEX_ALLOC
    const mpf: int                           // the address of the first block
    const blksz: nat
    const byPri: bool                        // TA_TPRI
    var fblkcnt: int
    var unused: nat
    var freelist: int
    var waiters: seq<Waiter<()>>             // wait_queue
    ghost var free: seq<nat>                 // the blocks from `freelist` on
    ghost var owner: map<nat, Grant>
    ghost var grants: nat
    ghost var woken: seq<nat>
    ghost var pending: seq<Checked>          // calls of rel_mpf between check and lock
    ghost var robbed: seq<Grant>

    ghost predicate Valid()
      reads this, mpfmb
    {
      && mpfmb.Length <= INDEX_ALLOC && blksz > 0
      && Orderly(Abs()) && Bookkept(Abs()) && fblkcnt == FreeCount(Abs()) && unused <= mpfmb.Length && Marked()
    }

    /** The management array marks the blocks given out and links the free ones. */
    ghost predicate Marked()
      reads this, mpfmb
      requires unused <= mpfmb.Length
    {
      && (forall b {:trigger mpfmb[b]} :: 0 <= b < unused ==> (b in owner <==> mpfmb[b] == INDEX_ALLOC))
      && freelist == LinkTo(0)
      && forall i, j {:trigger free[i], LinkTo(j)} :: 0 <= i < |free| && j == i + 1 ==> free[i] < mpfmb.Length && mpfmb[free[i]] == LinkTo(j)
    }

    ghost function LinkTo(i: nat): int
      reads `free
    {
      if i < |free| then free[i] else INDEX_NULL
    }

    ghost function Abs(): Pool
      reads this
    {
      Pool(mpfmb.Length, byPri, free, unused, owner, grants, waiters, woken, pending, robbed)
    }

    constructor (blkcnt: nat, mpf: int, blksz: nat, byPri: bool)
      requires blkcnt <= INDEX_ALLOC && blksz > 0
      ensures Valid() && Abs() == Fresh(blkcnt, byPri) && fresh(mpfmb)
    {
      mpfmb := new int[blkcnt](_ => 0);
      this.mpf, this.blksz, this.byPri := mpf, blksz, byPri;
      fblkcnt, unused, freelist := blkcnt, 0, INDEX_NULL;
      waiters, free, owner, grants, woken, pending, robbed := [], [], map[], 0, [], [], [];
    }

    /** Where a block starts. */
    function Address(b: nat): int { mpf + blksz * b }

    lemma LinkAt(i: nat)
      requires Valid() && i < |free|
      ensures free[i] < mpfmb.Length && mpfmb[free[i]] == LinkTo(i + 1)
    {
    }

    lemma NextInRange()
      requires Valid() && fblkcnt > 0
      ensures NextBlock(Abs()) < mpfmb.Length && NextBlock(Abs()) !in owner && unused <= mpfmb.Length
      ensures if freelist == INDEX_NULL then free == [] && NextBlock(Abs()) == unused
              else free != [] && NextBlock(Abs()) == freelist
    {
      if free != [] { LinkAt(0); }
    }

    /** get_mpf_block. */
    method GetMpfBlock(ghost tid: nat) returns (blkidx: nat, blk: int)
      requires Valid() && fblkcnt > 0
      modifies `fblkcnt, `unused, `freelist, `free, `owner, `grants, mpfmb
      ensures Valid() && Abs() == Take(old(Abs()), tid) && blkidx == NextBlock(old(Abs())) && blk == Address(blkidx)
    {
      hide NoDup, Bookkept, Orderly, FreeCount, Marked;
      TakeOk(Abs(), tid);
      NextInRange();
      owner, grants := owner[NextBlock(Abs()) := Grant(tid, grants)], grants + 1;
      if freelist != INDEX_NULL {
        blkidx := freelist;
        freelist := mpfmb[blkidx];
        free := free[1..];
      } else {
        blkidx := unused;
        unused := unused + 1;
      }
      blk := mpf + blksz * blkidx;
      fblkcnt := fblkcnt - 1;
      mpfmb[blkidx] := INDEX_ALLOC;
      LinksAfterGet(blkidx);
    }

    /** The links after a block was taken. */
    twostate lemma LinksAfterGet(blkidx: nat)
      requires old(Valid()) && blkidx < mpfmb.Length && mpfmb[blkidx] == INDEX_ALLOC && blkidx == old(NextBlock(Abs()))
      requires owner.Keys == old(owner).Keys + {blkidx}
      requires if old(free) != [] then free == old(free)[1..] && freelist == old(mpfmb[blkidx]) && unused == old(unused)
               else free == [] && freelist == old(freelist) && unused == old(unused) + 1
      requires forall b :: 0 <= b < mpfmb.Length && b != blkidx ==> mpfmb[b] == old(mpfmb[b])
      ensures unused <= mpfmb.Length && Marked()
    {
      if old(free) != [] { assert old(mpfmb[free[0]]) == old(LinkTo(1)); }
      forall b {:trigger mpfmb[b]} | 0 <= b < unused && b < mpfmb.Length ensures b in owner <==> mpfmb[b] == INDEX_ALLOC {
        assert b != blkidx ==> (b in owner <==> old(b in owner));
      }
      forall i, j | 0 <= i < |free| && j == i + 1 ensures free[i] < mpfmb.Length && mpfmb[free[i]] == LinkTo(j) {
        assert old(mpfmb[free[i + 1]]) == old(LinkTo(i + 2)) && old(free)[i + 1] == free[i] && free[i] != blkidx;
      }
    }

    /** get_mpf and tget_mpf if `wait`, pget_mpf if not. */
    method GetMpf(w: Waiter<()>, wait: bool) returns (r: Reply, blk: int)
      requires Valid()
      modifies this, mpfmb
      ensures Valid() && Abs() == Step(old(Abs()), Get(w, wait)) && r == Answer(old(Abs()), Get(w, wait))
      ensures r.Given? ==> blk == Address(r.b)
    {
      StepConsistent(Abs(), Get(w, wait));
      r, blk := TimedOut, mpf;
      if fblkcnt > 0 {
        var blkidx;
        blkidx, blk := GetMpfBlock(w.tid);
        r := Given(blkidx);
      } else if wait {
        waiters := Enter(waiters, w, byPri);
        r := Waits;
      }
    }

    /** Dividing finds the block an address belongs to. */
    lemma AddressDivides(b: nat)
      requires blksz > 0
      ensures (Address(b) - mpf) % blksz == 0 && (Address(b) - mpf) / blksz == b
    {
      DivideProduct(b, blksz);
    }

    /** rel_mpf up to lock_cpu: accepts exactly the addresses of blocks that are out. */
    method CheckMpf(blk: int) returns (r: Reply, blkidx: nat)
      requires Valid()
      modifies `pending
      ensures Valid() && (r.Done? <==> exists b: nat :: b in owner && blk == Address(b))
      ensures r.Done? ==> blk == Address(blkidx) && r == Answer(old(Abs()), Check(blkidx)) && Abs() == Step(old(Abs()), Check(blkidx))
      ensures !r.Done? ==> r.BadParameter? && Abs() == old(Abs())
    {
      forall b: nat | blk == Address(b) ensures (blk - mpf) % blksz == 0 && (blk - mpf) / blksz == b && mpf <= blk {
        AddressDivides(b);
      }
      r, blkidx := BadParameter, 0;
      if mpf <= blk {
        var blkoffset := blk - mpf;
        if blkoffset % blksz == 0 && blkoffset / blksz < unused {
          DivideExact(blkoffset, blksz);
          blkidx := blkoffset / blksz;
          assert blk == Address(blkidx);
          if mpfmb[blkidx] == INDEX_ALLOC {
            StepConsistent(Abs(), Check(blkidx));
            pending := pending + [Checked(blkidx, owner[blkidx].id, false)];
            r := Done;
          }
        }
      }
    }

    /** rel_mpf from lock_cpu on, which does not check again: all is well afterwards exactly if no other
        release of the block and no initialisation came in between. A block that is at the head of the
        free list already is linked to itself. */
    method ReturnMpf(blkidx: nat, ghost i: nat)
      requires Valid() && i < |pending| && pending[i].b == blkidx
      modifies this, mpfmb
      ensures Abs() == Step(old(Abs()), Return(i))
      ensures Valid() <==> !old(pending[i].disturbed)
      ensures old(waiters) == [] ==> freelist == blkidx && mpfmb[blkidx] == old(freelist)
    {
      hide NoDup, Bookkept, Orderly, ReturnStep, FreeCount, Marked;
      ghost var s, t := Abs(), ReturnStep(Abs(), i);
      StepConsistent(s, Return(i));
      ReturnIs(s, i);
      KnownPending(i);
      owner, grants, woken, pending, robbed := t.owner, t.grants, t.woken, t.pending, t.robbed;
      if waiters != [] {
        waiters := waiters[1..];
        if !s.pending[i].disturbed { MarksStay(); }
      } else {
        fblkcnt := fblkcnt + 1;
        mpfmb[blkidx] := freelist;
        freelist := blkidx;
        free := [blkidx] + free;
        if !s.pending[i].disturbed {
          LinksAfterReturn(blkidx);
        }
      }
    }

    lemma KnownPending(i: nat)
      requires Valid() && i < |pending|
      ensures pending[i].b < mpfmb.Length && (!pending[i].disturbed ==> Current(Abs(), pending[i]))
      ensures waiters != [] ==> free == []
    {
    }

    twostate lemma MarksStay()
      requires old(Valid()) && unused == old(unused) && free == old(free) && freelist == old(freelist)
      requires owner.Keys == old(owner).Keys
      requires mpfmb[..] == old(mpfmb[..])
      ensures unused <= mpfmb.Length && Marked()
    {
      forall b {:trigger mpfmb[b]} | 0 <= b < mpfmb.Length ensures mpfmb[b] == old(mpfmb[b]) { assert mpfmb[..][b] == old(mpfmb[..])[b]; }
    }

    /** The links after a block that was out came back. */
    twostate lemma LinksAfterReturn(blkidx: nat)
      requires old(Valid()) && old(blkidx in owner) && unused == old(unused)
      requires free == [blkidx] + old(free) && freelist == blkidx && owner == old(owner) - {blkidx}
      requires blkidx < mpfmb.Length && mpfmb[blkidx] == old(freelist)
      requires forall b :: 0 <= b < mpfmb.Length && b != blkidx ==> mpfmb[b] == old(mpfmb[b])
      ensures unused <= mpfmb.Length && Marked()
    {
      forall i, j | 0 <= i < |free| && j == i + 1 ensures mpfmb[free[i]] == LinkTo(j) {
        if i > 0 {
          assert old(mpfmb[free[i - 1]]) == old(LinkTo(i)) && old(free)[i - 1] == free[i] && free[i] != blkidx;
        }
      }
    }

    /** rel_mpf with nothing in between. */
    method RelMpf(blk: int) returns (r: Reply)
      requires Valid()
      modifies this, mpfmb
      ensures Valid()
      ensures r.Done? <==> exists b: nat :: b in old(owner) && blk == Address(b)
      ensures forall b: nat :: r.Done? && blk == Address(b) ==>
        Abs() == Step(Step(old(Abs()), Check(b)), Return(|old(pending)|))
      ensures !r.Done? ==> r.BadParameter? && Abs() == old(Abs())
    {
      forall b: nat, c: nat | Address(b) == Address(c) ensures b == c {
        AddressDivides(b);
        AddressDivides(c);
      }
      var blkidx;
      r, blkidx := CheckMpf(blk);
      if r.Done? {
        ReturnMpf(blkidx, |old(pending)|);
      }
    }

    /** The end of a wait by timeout, release, termination or the like. */
    method EndWait(i: nat)
      requires Valid() && i < |waiters|
      modifies `waiters
      ensures Valid() && Abs() == Step(old(Abs()), GiveUp(i))
    {
      waiters := Drop(waiters, i);
    }

    /** A change of the priority of a waiting task: wobj_change_priority. */
    method ChangePriority(i: nat, pri: nat)
      requires Valid() && i < |waiters|
      modifies `waiters
      ensures Valid() && Abs() == Step(old(Abs()), Reprioritize(i, pri))
    {
      waiters := Reordered(waiters, i, pri, byPri);
    }

    /** ini_mpf. */
    method IniMpf()
      requires Valid()
      modifies this
      ensures Valid() && Abs() == Step(old(Abs()), Init)
    {
      hide Consistent, Bookkept, NoDup;
      StepConsistent(Abs(), Init);
      waiters := [];
      fblkcnt, unused, freelist := mpfmb.Length, 0, INDEX_NULL;
      free, owner, pending := [], map[], Disturbed(pending, None);
    }
  }
}
