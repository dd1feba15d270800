/**
 Time event management: the event heap, the clock and the timer interrupt together. Every comparison
 the code makes is modular; every contract here is about unbounded times.
 */
module TimeEvents {
  import opened Base
  import opened EventTime
  import opened EventHeap
  import opened SystemClock

  // ---------------------------------------------------------------- all runs, on unbounded times

  /** The clock and the times of the registered events, over all heaps. */
  datatype Timers = Timers(clock: Clock, events: map<nat, int>)

  datatype TimerStep =
    | Tick(d: nat)                          // the counter is read
    | Correct(a: int)                       // adj_tim
    | Register(id: nat, reltim: nat, d: nat)  // tmevtb_enqueue_reltim
    | Repeat(id: nat, due: int, period: nat)  // a cyclic event, or the cycle event, that was just due
    | Withdraw(id: nat)                     // tmevtb_dequeue, or the removal of a due event

  predicate Allowed(s: Timers, step: TimerStep, tstep: nat) {
    match step
    case Tick(d) => true
    case Correct(a) => Adjustable(s.clock, a)
    case Register(id, reltim, d) => id !in s.events && reltim <= TMAX_RELTIM
    case Repeat(id, due, period) => id !in s.events && due <= s.clock.now && period <= TMAX_RELTIM
    case Withdraw(id) => true
  }

  function After(s: Timers, step: TimerStep, tstep: nat): Timers {
    match step
    case Tick(d) => s.(clock := Moved(s.clock, d))
    case Correct(a) => s.(clock := Moved(s.clock, a))
    case Register(id, reltim, d) =>
      var c := Moved(s.clock, d);
      Timers(c, s.events[id := c.now + tstep + reltim])
    case Repeat(id, due, period) => s.(events := s.events[id := due + period])
    case Withdraw(id) => s.(events := s.events - {id})
  }

  /** No registered event is overdue by more than the margin. */
  ghost predicate NoneTooLate(s: Timers) {
    forall id :: id in s.events ==> s.clock.now - BOUNDARY_MARGIN <= s.events[id]
  }

  /** No event is further ahead of the clock's furthest point than a registration allows. */
  ghost predicate NoneTooFar(s: Timers, tstep: nat) {
    ClockOk(s.clock) && forall id :: id in s.events ==> s.events[id] <= s.clock.peak + TMAX_RELTIM + tstep
  }

  ghost predicate IsTimerRun(ss: seq<Timers>, steps: seq<TimerStep>, tstep: nat) {
    && |ss| == |steps| + 1 && ss[0] == Timers(Clock(0, 0, 0), map[])
    && forall i {:trigger steps[i]} :: 0 <= i < |steps| ==> Allowed(ss[i], steps[i], tstep) && ss[i + 1] == After(ss[i], steps[i], tstep)
  }

  lemma StepNotTooFar(s: Timers, step: TimerStep, tstep: nat)
    requires NoneTooFar(s, tstep) && Allowed(s, step, tstep)
    ensures NoneTooFar(After(s, step, tstep), tstep)
  {
  }

  lemma {:induction false} RunNotTooFar(ss: seq<Timers>, steps: seq<TimerStep>, tstep: nat, n: nat)
    requires IsTimerRun(ss, steps, tstep) && n < |ss|
    ensures NoneTooFar(ss[n], tstep)
  {
    if n > 0 {
      RunNotTooFar(ss, steps, tstep, n - 1);
      assert Allowed(ss[n - 1], steps[n - 1], tstep);
      StepNotTooFar(ss[n - 1], steps[n - 1], tstep);
    }
  }

  /** In every run and at every reading, as long as no event is too late the modular order of any two
      registered events, and of an event and the clock, is the real one. */
  lemma WraparoundOrder(ss: seq<Timers>, steps: seq<TimerStep>, tstep: nat, n: nat, x: nat, y: nat)
    requires tstep <= TSTEP_MAX && IsTimerRun(ss, steps, tstep) && n < |ss| && NoneTooLate(ss[n])
    requires x in ss[n].events && y in ss[n].events
    ensures var s := ss[n];
            var b := Wrap(s.clock.now - BOUNDARY_MARGIN);
            && (Le(Wrap(s.events[x]), Wrap(s.events[y]), b) <==> s.events[x] <= s.events[y])
            && (Lt(Wrap(s.events[x]), Wrap(s.events[y]), b) <==> s.events[x] < s.events[y])
            && (Le(Wrap(s.events[x]), Wrap(s.clock.now), b) <==> s.events[x] <= s.clock.now)
  {
    RunNotTooFar(ss, steps, tstep, n);
    var s := ss[n];
    OrderAgrees(s.events[x], s.events[y], s.clock.now - BOUNDARY_MARGIN);
    OrderAgrees(s.events[x], s.clock.now, s.clock.now - BOUNDARY_MARGIN);
  }

  /** The margin is the exact limit: in every run, an event less than one word late is taken for due
      when it is due exactly if it is not too late. */
  lemma LatenessLimit(ss: seq<Timers>, steps: seq<TimerStep>, tstep: nat, n: nat, x: nat)
    requires tstep <= TSTEP_MAX && IsTimerRun(ss, steps, tstep) && n < |ss|
    requires x in ss[n].events && ss[n].clock.now - WORD < ss[n].events[x]
    ensures var s := ss[n];
            (Le(Wrap(s.events[x]), Wrap(s.clock.now), Wrap(s.clock.now - BOUNDARY_MARGIN)) <==> s.events[x] <= s.clock.now)
            <==> s.clock.now - BOUNDARY_MARGIN <= s.events[x]
  {
    RunNotTooFar(ss, steps, tstep, n);
    DueTestExact(ss[n].events[x], ss[n].clock.now);
  }

  // ---------------------------------------------------------------- what an interrupt does to the events

  type Times = map<TimeEventBlock, int>

  /** A callback is made for a due event, an event is registered, an event is withdrawn. */
  datatype Happening = Called(block: TimeEventBlock, due: int) | Entered(block: TimeEventBlock, due: int) | Withdrawn(block: TimeEventBlock)

  /** Calls are made for an earliest registered event only, and entering needs an event that is not
      registered. */
  ghost predicate Possible(s: Times, h: Happening) {
    match h
    case Called(b, due) => b in s && s[b] == due && forall x :: x in s ==> due <= s[x]
    case Entered(b, due) => b !in s
    case Withdrawn(b) => b in s
  }

  ghost function DoOne(s: Times, h: Happening): Times {
    match h
    case Called(b, due) => s - {b}
    case Entered(b, due) => s[b := due]
    case Withdrawn(b) => s - {b}
  }

  ghost function Replay(s: Times, t: seq<Happening>): Times {
    if t == [] then s else DoOne(Replay(s, t[..|t| - 1]), t[|t| - 1])
  }

  ghost predicate Legal(s: Times, t: seq<Happening>) {
    forall i :: 0 <= i < |t| ==> Possible(Replay(s, t[..i]), t[i])
  }

  /** No callback comes before one for a later time, and nothing is entered for a time already passed. */
  ghost predicate InOrder(t: seq<Happening>) {
    forall i, j :: 0 <= i < j < |t| && t[i].Called? && !t[j].Withdrawn? ==> t[i].due <= t[j].due
  }

  lemma Extend(s: Times, t: seq<Happening>, h: Happening)
    requires Legal(s, t) && Possible(Replay(s, t), h)
    ensures Legal(s, t + [h]) && Replay(s, t + [h]) == DoOne(Replay(s, t), h)
  {
    hide Possible, DoOne;
    var u := t + [h];
    assert u[..|u| - 1] == t;
    forall i | 0 <= i < |u| ensures Possible(Replay(s, u[..i]), u[i]) {
      assert u[..i] == t[..i];
      assert i == |t| ==> t[..i] == t;
    }
  }

  /** How often `b` occurs in `t`: entered, and taken out by a call or a withdrawal. */
  ghost function Entries(t: seq<Happening>, b: TimeEventBlock): nat {
    if t == [] then 0 else Entries(t[..|t| - 1], b) + if t[|t| - 1].Entered? && t[|t| - 1].block == b then 1 else 0
  }

  ghost function Exits(t: seq<Happening>, b: TimeEventBlock): nat {
    if t == [] then 0 else Exits(t[..|t| - 1], b) + if !t[|t| - 1].Entered? && t[|t| - 1].block == b then 1 else 0
  }

  /** Every registration ends exactly once, by its callback or by a withdrawal, or is still there. */
  lemma {:induction false} OnceEach(s: Times, t: seq<Happening>, b: TimeEventBlock)
    requires Legal(s, t)
    ensures (if b in s then 1 else 0) + Entries(t, b) == Exits(t, b) + (if b in Replay(s, t) then 1 else 0)
  {
    if t != [] {
      var n := |t| - 1;
      forall i | 0 <= i < n ensures Possible(Replay(s, t[..n][..i]), t[..n][i]) {
        assert t[..n][..i] == t[..i];
      }
      OnceEach(s, t[..n], b);
      assert Possible(Replay(s, t[..n]), t[n]);
    }
  }

  /** What a callback does: a cyclic one registers its event again one period later, and any may start
      and stop events. */
  datatype Callback = Callback(period: Option<nat>, requests: seq<Request>)

  datatype Request = Start(block: TimeEventBlock, reltim: nat) | Stop(block: TimeEventBlock)

  // ---------------------------------------------------------------- what the callbacks ask for

  /** The callback made for `block`, and what happened for each of its requests. */
  datatype Round = Round(block: TimeEventBlock, due: int, c: Callback, parts: seq<seq<Happening>>)

  ghost function Flat(parts: seq<seq<Happening>>): seq<Happening> {
    if parts == [] then [] else Flat(parts[..|parts| - 1]) + parts[|parts| - 1]
  }

  /** The call, and for a cyclic event at once the registration one period later. */
  ghost function Head(b: TimeEventBlock, due: int, c: Callback): seq<Happening> {
    [Called(b, due)] + if c.period.Some? then [Entered(b, due + c.period.value)] else []
  }

  ghost function Told(rs: seq<Round>): seq<Happening> {
    if rs == [] then []
    else
      var r := rs[|rs| - 1];
      Told(rs[..|rs| - 1]) + Head(r.block, r.due, r.c) + Flat(r.parts)
  }

  /** What happens for one request when the events are `s`: a start withdraws the event if it is registered
      and enters it the given time after a tick that ends between `lo` and `hi`; a stop withdraws it. */
  ghost predicate PartOk(s: Times, u: seq<Happening>, r: Request, lo: int, hi: int) {
    var gone := if r.block in s then [Withdrawn(r.block)] else [];
    match r
    case Start(b, reltim) =>
      u != [] && u[|u| - 1].Entered? && u == gone + [Entered(b, u[|u| - 1].due)] && lo + reltim <= u[|u| - 1].due <= hi + reltim
    case Stop(b) => u == gone
  }

  /** The parts answer the requests one by one; `t` has happened before. */
  ghost predicate PartsOk(start: Times, t: seq<Happening>, requests: seq<Request>, parts: seq<seq<Happening>>, lo: int, hi: int) {
    && |parts| <= |requests|
    && forall i {:trigger parts[i]} :: 0 <= i < |parts| ==> PartOk(Replay(start, t + Flat(parts[..i])), parts[i], requests[i], lo, hi)
  }

  ghost predicate RoundOk(start: Times, t: seq<Happening>, r: Round, tstep: nat, hi: int) {
    |r.parts| == |r.c.requests| && PartsOk(start, t + Head(r.block, r.due, r.c), r.c.requests, r.parts, r.due + tstep, hi)
  }

  /** The n-th callback made is the n-th of `callbacks`; past their end callbacks do nothing. */
  ghost predicate Follows(start: Times, rs: seq<Round>, callbacks: seq<Callback>, tstep: nat, hi: int) {
    forall n {:trigger rs[n]} :: 0 <= n < |rs| ==>
      && rs[n].c == (if n < |callbacks| then callbacks[n] else Callback(None, []))
      && RoundOk(start, Told(rs[..n]), rs[n], tstep, hi)
  }

  lemma LaterParts(start: Times, t: seq<Happening>, requests: seq<Request>, parts: seq<seq<Happening>>, lo: int, hi: int, hi': int)
    requires PartsOk(start, t, requests, parts, lo, hi) && hi <= hi'
    ensures PartsOk(start, t, requests, parts, lo, hi')
  {
  }

  lemma LaterRounds(start: Times, rs: seq<Round>, callbacks: seq<Callback>, tstep: nat, hi: int, hi': int)
    requires Follows(start, rs, callbacks, tstep, hi) && hi <= hi'
    ensures Follows(start, rs, callbacks, tstep, hi')
  {
    hide PartsOk, Replay, Told;
    forall n {:trigger rs[n]} | 0 <= n < |rs| ensures RoundOk(start, Told(rs[..n]), rs[n], tstep, hi') {
      var r := rs[n];
      LaterParts(start, Told(rs[..n]) + Head(r.block, r.due, r.c), r.c.requests, r.parts, r.due + tstep, hi, hi');
    }
  }

  lemma OnePartMore(start: Times, t: seq<Happening>, requests: seq<Request>, parts: seq<seq<Happening>>, u: seq<Happening>, lo: int, hi: int)
    requires PartsOk(start, t, requests, parts, lo, hi) && |parts| < |requests|
    requires PartOk(Replay(start, t + Flat(parts)), u, requests[|parts|], lo, hi)
    ensures PartsOk(start, t, requests, parts + [u], lo, hi) && Flat(parts + [u]) == Flat(parts) + u
  {
    hide PartOk, Replay;
    var more := parts + [u];
    assert more[..|parts|] == parts;
    forall i {:trigger more[i]} | 0 <= i < |more| ensures PartOk(Replay(start, t + Flat(more[..i])), more[i], requests[i], lo, hi) {
      if i < |parts| { assert more[..i] == parts[..i] && more[i] == parts[i]; }
    }
  }

  lemma NoParts(start: Times, t: seq<Happening>, requests: seq<Request>, lo: int, hi: int)
    ensures Flat([]) == [] && PartsOk(start, t, requests, [], lo, hi)
  {
  }

  lemma NoRounds(start: Times, callbacks: seq<Callback>, tstep: nat, hi: int)
    ensures Told([]) == [] && Follows(start, [], callbacks, tstep, hi)
  {
  }

  lemma ToldMore(rs: seq<Round>, r: Round)
    ensures Told(rs + [r]) == Told(rs) + Head(r.block, r.due, r.c) + Flat(r.parts)
  {
    hide Head, Flat;
    assert (rs + [r])[..|rs|] == rs;
  }

  lemma OneRoundMore(start: Times, rs: seq<Round>, r: Round, callbacks: seq<Callback>, tstep: nat, hi: int)
    requires Follows(start, rs, callbacks, tstep, hi) && RoundOk(start, Told(rs), r, tstep, hi)
    requires r.c == if |rs| < |callbacks| then callbacks[|rs|] else Callback(None, [])
    ensures Follows(start, rs + [r], callbacks, tstep, hi)
  {
    hide RoundOk, Told;
    var more := rs + [r];
    assert more[..|rs|] == rs;
    forall n {:trigger more[n]} | 0 <= n < |more|
      ensures more[n].c == (if n < |callbacks| then callbacks[n] else Callback(None, []))
      ensures RoundOk(start, Told(more[..n]), more[n], tstep, hi)
    {
      if n < |rs| { assert more[..n] == rs[..n] && more[n] == rs[n]; }
    }
  }

  // ---------------------------------------------------------------- cyclic events

  /** How often `b` was called. */
  ghost function Calls(rs: seq<Round>, b: TimeEventBlock): nat {
    if rs == [] then 0 else Calls(rs[..|rs| - 1], b) + if rs[|rs| - 1].block == b then 1 else 0
  }

  /** The callback asks nothing about `b`. */
  ghost predicate LeavesAlone(c: Callback, b: TimeEventBlock) {
    forall i :: 0 <= i < |c.requests| ==> c.requests[i].block != b
  }

  lemma {:induction false} PartsLeaveAlone(start: Times, t: seq<Happening>, r: Round, b: TimeEventBlock, lo: int, hi: int, n: nat)
    requires PartsOk(start, t, r.c.requests, r.parts, lo, hi) && LeavesAlone(r.c, b) && n <= |r.parts|
    ensures var s, u := Replay(start, t), Replay(start, t + Flat(r.parts[..n])); (b in s <==> b in u) && (b in s ==> s[b] == u[b])
  {
    hide PartsOk;
    if n == 0 {
      assert t + Flat(r.parts[..0]) == t;
    } else {
      PartsLeaveAlone(start, t, r, b, lo, hi, n - 1);
      var before := t + Flat(r.parts[..n - 1]);
      OnePart(start, t, r, lo, hi, n - 1);
      assert r.parts[..n][..n - 1] == r.parts[..n - 1];
      assert t + Flat(r.parts[..n]) == before + r.parts[n - 1];
      OtherBlocks(start, before, r.parts[n - 1], r.c.requests[n - 1].block, b);
    }
  }

  lemma OnePart(start: Times, t: seq<Happening>, r: Round, lo: int, hi: int, i: nat)
    requires PartsOk(start, t, r.c.requests, r.parts, lo, hi) && i < |r.parts|
    ensures i < |r.c.requests| && PartOk(Replay(start, t + Flat(r.parts[..i])), r.parts[i], r.c.requests[i], lo, hi)
  {
  }

  /** What happens to one block changes nothing for another. */
  lemma {:induction false} OtherBlocks(start: Times, t: seq<Happening>, u: seq<Happening>, other: TimeEventBlock, b: TimeEventBlock)
    requires b != other && forall i :: 0 <= i < |u| ==> u[i].block == other
    ensures var s, r := Replay(start, t), Replay(start, t + u); (b in s <==> b in r) && (b in s ==> s[b] == r[b])
  {
    if u == [] {
      assert t + u == t;
    } else {
      OtherBlocks(start, t, u[..|u| - 1], other, b);
      assert (t + u)[..|t + u| - 1] == t + u[..|u| - 1];
    }
  }

  /** A cyclic event, whatever else is called, is still registered afterwards, as many periods after its
      old time as it was called. */
  lemma {:induction false} CyclicStays(start: Times, rs: seq<Round>, callbacks: seq<Callback>, tstep: nat, hi: int, b: TimeEventBlock, period: nat)
    requires Legal(start, Told(rs)) && Follows(start, rs, callbacks, tstep, hi) && b in start
    requires forall n {:trigger rs[n]} :: 0 <= n < |rs| ==> LeavesAlone(rs[n].c, b) && (rs[n].block == b ==> rs[n].c.period == Some(period))
    ensures var after := Replay(start, Told(rs)); b in after && after[b] == start[b] + Calls(rs, b) * period
  {
    hide Replay, Flat, Head, Legal, Follows, RoundOk, LeavesAlone;
    if rs == [] {
      NothingHappened(start);
    } else {
      var n := |rs| - 1;
      var r, past := rs[n], Told(rs[..n]);
      assert Told(rs) == past + (Head(r.block, r.due, r.c) + Flat(r.parts));
      LegalBefore(start, past, Head(r.block, r.due, r.c) + Flat(r.parts));
      FewerRounds(start, rs, callbacks, tstep, hi, n);
      CyclicStays(start, rs[..n], callbacks, tstep, hi, b, period);
      RoundKeeps(start, past, r, b, period, tstep, hi);
      Stretch(Calls(rs[..n], b), period);
    }
  }

  lemma NothingHappened(start: Times)
    ensures Replay(start, []) == start && Told([]) == []
  {
  }

  lemma Stretch(n: nat, period: nat)
    ensures (n + 1) * period == n * period + period
  {
  }

  lemma LegalBefore(start: Times, past: seq<Happening>, u: seq<Happening>)
    requires Legal(start, past + u)
    ensures Legal(start, past)
  {
    hide Possible, Replay;
    var t := past + u;
    forall i | 0 <= i < |past| ensures Possible(Replay(start, past[..i]), past[i]) { assert past[..i] == t[..i] && past[i] == t[i]; }
  }

  lemma FewerRounds(start: Times, rs: seq<Round>, callbacks: seq<Callback>, tstep: nat, hi: int, n: nat)
    requires Follows(start, rs, callbacks, tstep, hi) && n < |rs|
    ensures Follows(start, rs[..n], callbacks, tstep, hi) && RoundOk(start, Told(rs[..n]), rs[n], tstep, hi)
  {
    hide RoundOk, Told;
    var less := rs[..n];
    forall k {:trigger less[k]} | 0 <= k < n
      ensures less[k].c == (if k < |callbacks| then callbacks[k] else Callback(None, []))
      ensures RoundOk(start, Told(less[..k]), less[k], tstep, hi)
    {
      assert less[..k] == rs[..k] && less[k] == rs[k];
    }
  }

  /** One round more: its event, if it is `b`, is registered one period later. */
  lemma RoundKeeps(start: Times, past: seq<Happening>, r: Round, b: TimeEventBlock, period: nat, tstep: nat, hi: int)
    requires Legal(start, past + Head(r.block, r.due, r.c) + Flat(r.parts)) && RoundOk(start, past, r, tstep, hi)
    requires b in Replay(start, past) && LeavesAlone(r.c, b) && (r.block == b ==> r.c.period == Some(period))
    ensures var s, u := Replay(start, past), Replay(start, past + Head(r.block, r.due, r.c) + Flat(r.parts));
            b in u && u[b] == s[b] + if r.block == b then period else 0
  {
    hide Replay, Flat, Head, Legal, PartsOk;
    HeadKeeps(start, past, past + Head(r.block, r.due, r.c) + Flat(r.parts), r, b, period);
    PartsLeaveAlone(start, past + Head(r.block, r.due, r.c), r, b, r.due + tstep, hi, |r.parts|);
    assert r.parts[..|r.parts|] == r.parts;
  }

  /** The call and, for a cyclic event, the new registration. */
  lemma HeadKeeps(start: Times, past: seq<Happening>, t: seq<Happening>, r: Round, b: TimeEventBlock, period: nat)
    requires Legal(start, t) && t == past + Head(r.block, r.due, r.c) + Flat(r.parts)
    requires b in Replay(start, past) && (r.block == b ==> r.c.period == Some(period))
    ensures var s, u := Replay(start, past), Replay(start, past + Head(r.block, r.due, r.c));
            b in u && u[b] == s[b] + if r.block == b then period else 0
  {
    hide Flat;
    assert t[..|past|] == past && t[|past|] == Called(r.block, r.due);
    assert Possible(Replay(start, past), t[|past|]);
    var one := past + [Called(r.block, r.due)];
    assert one[..|past|] == past;
    if r.c.period.Some? {
      var two := one + [Entered(r.block, r.due + r.c.period.value)];
      assert two[..|one|] == one && past + Head(r.block, r.due, r.c) == two;
    } else {
      assert past + Head(r.block, r.due, r.c) == one;
    }
  }

  // ---------------------------------------------------------------- the module itself

  /** What the timer was last told: raise the interrupt now, or after so many counts. */
  datatype HrtEvent = Raised | Delayed(count: nat)

  /** E_OK, E_PAR, E_OBJ. */
  datatype AdjResult = Done | BadParameter | BadState

  class TimerModule {
    const heap: TimeEventHeap
    const time: SystemClock
    const tstep: nat                        // TSTEP_HRTCNT
    const bound: nat                        // HRTCNT_BOUND
    ghost const all: set<TimeEventBlock>    // every block that may ever be registered
    var inSignalTime: bool
    var hrtEvent: HrtEvent
    ghost var armedAt: int                  // the clock when the timer was told

    ghost predicate Valid()
      reads this, time, heap, heap.slots, all
    {
      Sound() && (inSignalTime || Armed())
    }

    /** Everything but the setting of the timer. */
    ghost predicate Sound()
      reads this, time, heap, heap.slots, all
    {
      && heap.blocks <= all && |all| < heap.slots.Length
      && tstep <= TSTEP_MAX && bound < time.cycle
      && time.Valid() && heap.Valid() && heap.Ordered(time.boundaryEvttim)
      && (forall x :: x in heap.blocks ==> Punctual(x))
    }

    /** The block's word stands for a time neither too late nor too far ahead. */
    ghost predicate Punctual(x: TimeEventBlock)
      reads this, time, x
    {
      && x.evttim == Wrap(x.due)
      && time.clock.now - BOUNDARY_MARGIN <= x.due <= time.clock.peak + TMAX_RELTIM + tstep
    }

    /** The interrupt is raised, or comes before any registered event is due and within the bound. */
    ghost predicate Armed()
      reads this, heap, heap.blocks
    {
      hrtEvent.Delayed? ==> hrtEvent.count <= bound && forall x :: x in heap.blocks ==> armedAt + hrtEvent.count <= x.due
    }

    /** initialize_tmevt and the start of the timer: no event is registered. */
    constructor (cycle: nat, hrtcnt: U32, tstep: nat, bound: nat, capacity: nat, ghost all: set<TimeEventBlock>)
      requires 0 < cycle <= WORD && hrtcnt < cycle && tstep <= TSTEP_MAX && bound < cycle && |all| <= capacity
      ensures Valid() && heap.blocks == {} && time.clock == Clock(0, 0, 0) && !inSignalTime && this.all == all
    {
      hide Wrap, SystemClock.Valid, TimeEventHeap.Valid, TimeEventHeap.Ordered;
      heap := new TimeEventHeap(capacity);
      time := new SystemClock(cycle, hrtcnt);
      this.tstep, this.bound, this.all := tstep, bound, all;
      inSignalTime, hrtEvent, armedAt := false, Delayed(bound), 0;
    }

    /** No registered event would be too late if the clock moved by `d`. */
    ghost predicate InTime(d: nat)
      reads this, time, heap, heap.blocks
    {
      forall x :: x in heap.blocks ==> time.clock.now + d - BOUNDARY_MARGIN <= x.due
    }

    ghost predicate Reads(hrtcnt: U32, elapsed: nat)
      reads this, time, heap, heap.blocks
    {
      time.cycle > 0 && hrtcnt == (time.ticks + elapsed) % time.cycle && InTime(time.Seen(elapsed))
    }

    lemma InWindows(d: int)
      requires time.Valid() && tstep <= TSTEP_MAX
      requires forall x :: x in heap.blocks ==> Punctual(x)
      requires forall x :: x in heap.blocks ==> time.clock.now + d - BOUNDARY_MARGIN <= x.due
      requires TMIN_ADJTIM <= d
      ensures heap.Timely(time.clock.now - BOUNDARY_MARGIN) && heap.Timely(time.clock.now + d - BOUNDARY_MARGIN)
    {
    }

    /** update_current_evttim: the heap needs no change when the boundary moves. */
    method UpdateCurrentEvttim(hrtcnt: U32, ghost elapsed: nat)
      requires Sound() && Reads(hrtcnt, elapsed)
      modifies time
      ensures Sound() && time.clock == Apply(old(time.clock), Elapse(time.Seen(elapsed)))
      ensures time.ticks == old(time.ticks) + elapsed
    {
      InWindows(time.Seen(elapsed));
      ghost var before := time.clock.now - BOUNDARY_MARGIN;
      time.UpdateCurrentEvttim(hrtcnt, elapsed);
      heap.BoundaryMoves(before, time.clock.now - BOUNDARY_MARGIN);
    }

    /** set_hrt_event. */
    method SetHrtEvent()
      requires Sound()
      modifies `hrtEvent, `armedAt
      ensures Sound() && Armed() && armedAt == time.clock.now
      ensures hrtEvent.Raised? <==> exists x :: x in heap.blocks && x.due <= time.clock.now
    {
      hide Wrap, TimeEventHeap.Ordered, TimeEventHeap.Shaped;
      armedAt := time.clock.now;
      if heap.last < 1 {
        hrtEvent := Delayed(bound);
        NoBlocks();
      } else {
        var top := EarliestBlock();
        if Le(top.evttim, time.currentEvttim, time.boundaryEvttim) {
          hrtEvent := Raised;
        } else {
          WrapSub(top.due, time.clock.now);
          WrapSmall(top.due - time.clock.now);
          var hrtcnt := Wrap(top.evttim - time.currentEvttim);
          hrtEvent := Delayed(if hrtcnt > bound then bound else hrtcnt);
        }
      }
    }

    lemma NoBlocks()
      requires heap.Valid() && heap.last == 0
      ensures heap.blocks == {}
    {
    }

    /** The block at the root, with what its modular comparison with the clock means. */
    method EarliestBlock() returns (top: TimeEventBlock)
      requires Sound() && heap.last >= 1
      ensures top in heap.blocks && top.node == 1 && forall x :: x in heap.blocks ==> top.due <= x.due
      ensures Le(top.evttim, time.currentEvttim, time.boundaryEvttim) <==> top.due <= time.clock.now
    {
      InWindows(0);
      top := heap.Top(time.boundaryEvttim);
      forall x | x in heap.blocks ensures top.due <= x.due {
        OrderAgrees(top.due, x.due, time.clock.now - BOUNDARY_MARGIN);
      }
      OrderAgrees(top.due, time.clock.now, time.clock.now - BOUNDARY_MARGIN);
    }

    /** tmevtb_register: the heap has room for every block. */
    method Register(block: TimeEventBlock)
      requires Sound() && block in all && block !in heap.blocks && Punctual(block)
      modifies heap`last, heap`blocks, heap.slots, heap.blocks`node, block`node
      ensures Sound() && heap.blocks == old(heap.blocks) + {block}
    {
      RoomForOne(block);
      heap.Insert(block, time.boundaryEvttim);
    }

    lemma RoomForOne(block: TimeEventBlock)
      requires Sound() && block in all && block !in heap.blocks
      ensures heap.last + 1 < heap.slots.Length
    {
      heap.Count();
      SubsetSize(heap.blocks + {block}, all);
    }

    method SetDue(block: TimeEventBlock, reltim: nat)
      requires Sound() && block !in heap.blocks && reltim <= TMAX_RELTIM
      modifies block`evttim, block`due
      ensures Sound() && Punctual(block) && block.due == time.clock.now + tstep + reltim
    {
      block.due := time.clock.now + tstep + reltim;
      block.evttim := Wrap(Wrap(time.currentEvttim + tstep) + reltim);
      WrapAdd(time.clock.now, tstep);
      WrapAdd(time.clock.now + tstep, reltim);
    }

    /** tmevtb_enqueue_reltim: the event is due the given time after the end of the current tick. */
    method EnqueueReltim(block: TimeEventBlock, reltim: nat, hrtcnt: U32, ghost elapsed: nat)
      requires Valid() && block in all && block !in heap.blocks && reltim <= TMAX_RELTIM && Reads(hrtcnt, elapsed)
      modifies this`hrtEvent, this`armedAt, time, heap`last, heap`blocks, heap.slots, all`node, block
      ensures Valid() && heap.blocks == old(heap.blocks) + {block} && block.due == time.clock.now + tstep + reltim
      ensures time.clock == Apply(old(time.clock), Elapse(time.Seen(elapsed))) && time.ticks == old(time.ticks) + elapsed
    {
      UpdateCurrentEvttim(hrtcnt, elapsed);
      SetDue(block, reltim);
      Register(block);
      if !inSignalTime && block.node == 1 {
        SetHrtEvent();
      } else if !inSignalTime {
        StillArmed(block);
      }
    }

    /** A new event that is not the earliest one needs no new setting of the timer. */
    lemma StillArmed(block: TimeEventBlock)
      requires Sound() && block in heap.blocks && block.node != 1
      requires hrtEvent.Delayed? ==> hrtEvent.count <= bound && forall x :: x in heap.blocks - {block} ==> armedAt + hrtEvent.count <= x.due
      ensures Armed()
    {
      InWindows(0);
      heap.RootIsEarliest(time.clock.now - BOUNDARY_MARGIN, block);
    }

    /** tmevtb_dequeue: the counter is read only if the earliest event goes away. */
    method Dequeue(block: TimeEventBlock, hrtcnt: U32, ghost elapsed: nat)
      requires Valid() && block in heap.blocks && Reads(hrtcnt, elapsed)
      modifies this`hrtEvent, this`armedAt, time, heap`last, heap`blocks, heap.slots, all`node
      ensures Valid() && heap.blocks == old(heap.blocks) - {block}
      ensures time.clock == if old(inSignalTime) || old(block.node) != 1 then old(time.clock) else Apply(old(time.clock), Elapse(time.Seen(elapsed)))
    {
      var node := block.node;
      heap.Delete(block, time.boundaryEvttim);
      if !inSignalTime && node == 1 {
        UpdateCurrentEvttim(hrtcnt, elapsed);
        SetHrtEvent();
      }
    }

    /** tmevt_lefttim: how long until the event, counted from the end of the current tick, never negative. */
    method LeftTime(block: TimeEventBlock, hrtcnt: U32, ghost elapsed: nat) returns (left: nat)
      requires Valid() && block in heap.blocks && Reads(hrtcnt, elapsed)
      modifies time
      ensures Valid() && time.clock == Apply(old(time.clock), Elapse(time.Seen(elapsed)))
      ensures left == Max(0, block.due - (time.clock.now + tstep))
    {
      hide Wrap, Le, SystemClock.Valid, SystemClock.Seen, TimeEventHeap.Ordered, TimeEventHeap.Shaped;
      UpdateCurrentEvttim(hrtcnt, elapsed);
      var currentEvttimUb := Wrap(time.currentEvttim + tstep);
      BlockInWindow(block);
      if Le(block.evttim, currentEvttimUb, time.boundaryEvttim) {
        left := 0;
      } else {
        left := Wrap(block.evttim - currentEvttimUb);
      }
    }

    /** A registered block and the end of the current tick can be compared. */
    lemma BlockInWindow(block: TimeEventBlock)
      requires Sound() && block in heap.blocks
      ensures var ub := time.clock.now + tstep;
              && Wrap(time.currentEvttim + tstep) == Wrap(ub)
              && (Le(block.evttim, Wrap(ub), time.boundaryEvttim) <==> block.due <= ub)
              && (block.due > ub ==> Wrap(block.evttim - Wrap(ub)) == block.due - ub)
    {
      hide Wrap, Le, TimeEventHeap.Valid, TimeEventHeap.Ordered;
      assert Punctual(block);
      WrapAdd(time.clock.now, tstep);
      LeftAgrees(block.due, time.clock.now + tstep, time.clock.now - BOUNDARY_MARGIN);
    }

    /** check_adjtim: a step ahead is refused when an event is late already, a step back when the clock
        lags already. */
    method CheckAdjtim(adjtim: int) returns (refused: bool)
      requires Sound() && TMIN_ADJTIM <= adjtim <= TMAX_ADJTIM
      ensures refused <==>
        if adjtim > 0 then exists x :: x in heap.blocks && x.due + TMAX_ADJTIM <= time.clock.now
        else adjtim < 0 && time.clock.peak - time.clock.now >= -TMIN_ADJTIM
    {
      refused := false;
      if adjtim > 0 {
        if heap.last >= 1 {
          var top := EarliestBlock();
          WrapAdd(top.due, TMAX_ADJTIM);
          OrderAgrees(top.due + TMAX_ADJTIM, time.clock.now, time.clock.now - BOUNDARY_MARGIN);
          refused := Le(Wrap(top.evttim + TMAX_ADJTIM), time.currentEvttim, time.boundaryEvttim);
        } else {
          NoBlocks();
        }
      } else if adjtim < 0 {
        time.LagIs();
        refused := Wrap(time.monotonicEvttim - time.currentEvttim) >= -TMIN_ADJTIM;
      }
    }

    /** adj_tim. The check is what keeps a step ahead from making any event too late. */
    method AdjTim(adjtim: int, hrtcnt: U32, ghost elapsed: nat) returns (ercd: AdjResult)
      requires Valid() && Reads(hrtcnt, elapsed)
      modifies this`hrtEvent, this`armedAt, time
      ensures Valid()
      ensures ercd.BadParameter? <==> !(TMIN_ADJTIM <= adjtim <= TMAX_ADJTIM)
      ensures ercd.BadParameter? ==> time.clock == old(time.clock)
      ensures !ercd.BadParameter? ==>
        var c := Apply(old(time.clock), Elapse(time.Seen(elapsed)));
        && time.clock == (if ercd.Done? then Apply(c, Adjust(adjtim)) else c)
        && (ercd.BadState? <==>
              if adjtim > 0 then exists x :: x in heap.blocks && x.due + TMAX_ADJTIM <= c.now
              else adjtim < 0 && c.peak - c.now >= -TMIN_ADJTIM)
    {
      if !(TMIN_ADJTIM <= adjtim <= TMAX_ADJTIM) {
        return BadParameter;
      }
      UpdateCurrentEvttim(hrtcnt, elapsed);
      var refused := CheckAdjtim(adjtim);
      if refused {
        return BadState;
      }
      ShiftClock(adjtim);
      if !inSignalTime {
        SetHrtEvent();
      }
      ercd := Done;
    }

    /** A step of the clock that leaves every event in time leaves the heap in order. */
    method ShiftClock(adjtim: int)
      requires Sound() && Adjustable(time.clock, adjtim)
      requires adjtim > 0 ==> forall x :: x in heap.blocks ==> x.due + TMAX_ADJTIM > time.clock.now
      modifies time
      ensures Sound() && time.clock == Apply(old(time.clock), Adjust(adjtim))
    {
      InWindows(adjtim);
      ghost var before := time.clock.now - BOUNDARY_MARGIN;
      time.Shift(adjtim);
      heap.BoundaryMoves(before, time.clock.now - BOUNDARY_MARGIN);
    }

    /** Removes an earliest event if it is due: the test and removal in tmevt_proc_top and signal_time. */
    method TakeDue() returns (top: TimeEventBlock?)
      requires Sound()
      modifies heap`last, heap`blocks, heap.slots, heap.blocks`node
      ensures Sound()
      ensures top == null ==> heap.blocks == old(heap.blocks) && heap.last == old(heap.last) && forall x :: x in heap.blocks ==> time.clock.now < x.due
      ensures top != null ==>
        && top in old(heap.blocks) && heap.blocks == old(heap.blocks) - {top}
        && top.due <= time.clock.now && (forall x :: x in old(heap.blocks) ==> top.due <= x.due)
        && heap.last == old(heap.last) - 1
    {
      top := null;
      if heap.last >= 1 {
        var first := EarliestBlock();
        if Le(first.evttim, time.currentEvttim, time.boundaryEvttim) {
          top := TakeTop();
        }
      } else {
        NoBlocks();
      }
    }

    /** tmevtb_delete_top, in unbounded times. */
    method TakeTop() returns (top: TimeEventBlock)
      requires Sound() && heap.last >= 1
      modifies heap`last, heap`blocks, heap.slots, heap.blocks`node
      ensures Sound() && top in old(heap.blocks) && heap.blocks == old(heap.blocks) - {top}
      ensures heap.last == old(heap.last) - 1
      ensures forall x :: x in old(heap.blocks) ==> top.due <= x.due
    {
      InWindows(0);
      top := heap.DeleteTop(time.boundaryEvttim);
      forall x | x in old(heap.blocks) ensures top.due <= x.due {
        OrderAgrees(top.due, x.due, time.clock.now - BOUNDARY_MARGIN);
      }
    }

    /** tmevt_proc_top up to the callback: reads the counter and takes an earliest event if it is due. */
    method ProcTop(hrtcnt: U32, ghost elapsed: nat) returns (top: TimeEventBlock?)
      requires Sound() && Reads(hrtcnt, elapsed)
      modifies time, heap`last, heap`blocks, heap.slots, heap.blocks`node
      ensures Sound() && time.clock == Apply(old(time.clock), Elapse(time.Seen(elapsed)))
      ensures top == null <==> forall x :: x in old(heap.blocks) ==> time.clock.now < x.due
      ensures top == null ==> heap.blocks == old(heap.blocks)
      ensures top != null ==> top in old(heap.blocks) && heap.blocks == old(heap.blocks) - {top} && forall x :: x in old(heap.blocks) ==> top.due <= x.due
    {
      UpdateCurrentEvttim(hrtcnt, elapsed);
      top := TakeDue();
    }

    // -------------------------------------------------------------- the timer interrupt

    /** The times of the registered events. */
    ghost function Registered(): Times
      reads heap, heap.blocks
    {
      map x | x in heap.blocks :: x.due
    }

    /** Every callback so far was for a time that has come and that no registered event precedes. */
    ghost predicate CallsPast(t: seq<Happening>)
      reads time, heap, heap.blocks
    {
      forall i :: 0 <= i < |t| && t[i].Called? ==>
        t[i].due <= time.clock.now && forall x :: x in heap.blocks ==> t[i].due <= x.due
    }

    /** What the interrupt handler knows about the happenings `t` since the times were `start`. */
    ghost predicate Handled(start: Times, t: seq<Happening>)
      reads this, time, heap, heap.slots, all
    {
      Sound() && inSignalTime && Registered() == Replay(start, t) && Legal(start, t) && InOrder(t) && CallsPast(t)
    }

    /** The timer hardware. Callers know only the contract, so what they prove holds for every reading
        that leaves no registered event too late. */
    method ReadCounter() returns (hrtcnt: U32, ghost elapsed: nat)
      requires Sound()
      ensures Reads(hrtcnt, elapsed)
    {
      hrtcnt, elapsed := time.currentHrtcnt, 0;
      SmallMod(0, time.cycle);
    }

    ghost predicate Sensible(r: Request) {
      r.block in all && (r.Start? ==> r.reltim <= TMAX_RELTIM)
    }

    ghost predicate Plausible(c: Callback) {
      && (c.period.Some? ==> c.period.value <= TMAX_RELTIM)
      && forall i :: 0 <= i < |c.requests| ==> Sensible(c.requests[i])
    }

    /** Recording one more happening. */
    lemma Record(start: Times, before: Times, t: seq<Happening>, h: Happening)
      requires Sound() && inSignalTime && Legal(start, t) && before == Replay(start, t) && InOrder(t)
      requires Possible(before, h) && Registered() == DoOne(before, h)
      requires CallsPast(t) && (h.Called? ==> CallsPast([h]))
      requires !h.Withdrawn? ==> forall i :: 0 <= i < |t| && t[i].Called? ==> t[i].due <= h.due
      ensures Handled(start, t + [h])
    {
      Extend(start, t, h);
      hide Legal, Replay, Possible, DoOne, Sound;
      assert h.Called? ==> [h][0] == h;
    }

    /** An event just taken out for its callback. */
    ghost predicate Taken(top: TimeEventBlock, t: seq<Happening>)
      reads time, heap, top
    {
      && top in all && top !in heap.blocks && top.evttim == Wrap(top.due)
      && time.clock.now - BOUNDARY_MARGIN <= top.due <= time.clock.now
      && forall i :: 0 <= i < |t| && t[i].Called? ==> t[i].due <= top.due
    }

    lemma RecordCall(start: Times, before: Times, t: seq<Happening>, b: TimeEventBlock, due: int)
      requires Sound() && inSignalTime && Legal(start, t) && before == Replay(start, t) && InOrder(t)
      requires b in before && before[b] == due <= time.clock.now && Registered() == before - {b}
      requires forall x :: x in before ==> due <= before[x]
      requires forall i :: 0 <= i < |t| && t[i].Called? ==> t[i].due <= due
      ensures Handled(start, t + [Called(b, due)])
    {
      hide Legal, Replay, InOrder, Sound;
      forall x | x in heap.blocks ensures due <= x.due {
        assert x in Registered() && Registered()[x] == before[x];
      }
      Record(start, before, t, Called(b, due));
    }

    method TakeDueNow() returns (top: TimeEventBlock?)
      requires Sound()
      modifies heap`last, heap`blocks, heap.slots, all`node
      ensures Sound() && (top == null ==> heap.blocks == old(heap.blocks) && heap.last == old(heap.last) && forall x :: x in heap.blocks ==> time.clock.now < x.due)
      ensures top != null ==> Registered() == old(Registered()) - {top} && heap.blocks == old(heap.blocks) - {top} && heap.last == old(heap.last) - 1
      ensures top != null ==> top in old(heap.blocks) && top.evttim == Wrap(top.due) && top.due <= time.clock.now && forall x :: x in old(heap.blocks) ==> top.due <= x.due
      ensures top != null ==> time.clock.now - BOUNDARY_MARGIN <= top.due
    {
      top := TakeDue();
    }

    /** The next due event, with the happening recorded. */
    method NextDue(ghost start: Times, ghost t: seq<Happening>) returns (top: TimeEventBlock?, ghost t': seq<Happening>)
      requires Handled(start, t)
      modifies heap`last, heap`blocks, heap.slots, all`node
      ensures Handled(start, t')
      ensures top == null ==> t' == t && heap.last == old(heap.last) && forall x :: x in heap.blocks ==> time.clock.now < x.due
      ensures top != null ==>
        && t' == t + [Called(top, top.due)] && heap.last == old(heap.last) - 1 && heap.blocks == old(heap.blocks) - {top}
        && Taken(top, t')
    {
      hide Legal, Replay, InOrder, Possible, DoOne;
      ghost var before := Registered();
      top := TakeDueNow();
      t' := t;
      if top != null {
        t' := t + [Called(top, top.due)];
        RecordCall(start, before, t, top, top.due);
      }
    }

    /** call_cyclic registers the event again, one period after the time it was due. */
    method Repeat(block: TimeEventBlock, period: nat, ghost start: Times, ghost t: seq<Happening>) returns (ghost t': seq<Happening>)
      requires Handled(start, t) && Taken(block, t) && period <= TMAX_RELTIM
      modifies heap`last, heap`blocks, heap.slots, all`node, block
      ensures Handled(start, t') && t' == t + [Entered(block, old(block.due) + period)]
    {
      hide Legal, Replay, InOrder;
      ghost var before := Registered();
      RegisterAgain(block, period);
      t' := t + [Entered(block, block.due)];
      Record(start, before, t, Entered(block, block.due));
    }

    method RegisterAgain(block: TimeEventBlock, period: nat)
      requires Sound() && block in all && block !in heap.blocks && period <= TMAX_RELTIM && block.evttim == Wrap(block.due)
      requires time.clock.now - BOUNDARY_MARGIN <= block.due <= time.clock.now
      modifies heap`last, heap`blocks, heap.slots, all`node, block
      ensures Sound() && block.due == old(block.due) + period
      ensures heap.blocks == old(heap.blocks) + {block} && Registered() == old(Registered())[block := block.due]
    {
      DelayDue(block, period);
      Register(block);
    }

    method DelayDue(block: TimeEventBlock, period: nat)
      requires Sound() && block !in heap.blocks && period <= TMAX_RELTIM && block.evttim == Wrap(block.due)
      requires time.clock.now - BOUNDARY_MARGIN <= block.due <= time.clock.now
      modifies block`evttim, block`due
      ensures Sound() && Punctual(block) && block.due == old(block.due) + period
    {
      WrapAdd(block.due, period);
      block.due := block.due + period;
      block.evttim := Wrap(block.evttim + period);
    }

    method EnqueueNow(block: TimeEventBlock, reltim: nat)
      requires Sound() && inSignalTime && block in all && block !in heap.blocks && reltim <= TMAX_RELTIM
      modifies this`hrtEvent, this`armedAt, time, heap`last, heap`blocks, heap.slots, all`node, block
      ensures Sound() && old(time.clock.now) <= time.clock.now && block.due == time.clock.now + tstep + reltim
      ensures heap.blocks == old(heap.blocks) + {block} && Registered() == old(Registered())[block := block.due]
    {
      var hrtcnt, elapsed := ReadCounter();
      EnqueueReltim(block, reltim, hrtcnt, elapsed);
    }

    /** A registration from a callback; the counter is read. */
    method EnterOne(block: TimeEventBlock, reltim: nat, ghost start: Times, ghost t: seq<Happening>) returns (ghost t': seq<Happening>)
      requires Handled(start, t) && block in all && block !in heap.blocks && reltim <= TMAX_RELTIM
      modifies this`hrtEvent, this`armedAt, time, heap`last, heap`blocks, heap.slots, all`node, block
      ensures Handled(start, t') && t' == t + [Entered(block, time.clock.now + tstep + reltim)]
      ensures old(time.clock.now) <= time.clock.now
    {
      hide Legal, Replay, InOrder, Wrap, SystemClock.Valid, SystemClock.Seen, TimeEventHeap.Ordered, TimeEventHeap.Shaped;
      ghost var before := Registered();
      EnqueueNow(block, reltim);
      Record(start, before, t, Entered(block, block.due));
      t' := t + [Entered(block, block.due)];
    }

    /** A start from a callback: sta_alm, sta_cyc and the waits with a timeout. An event still
        registered is withdrawn first. */
    method StartOne(block: TimeEventBlock, reltim: nat, ghost start: Times, ghost t: seq<Happening>) returns (ghost t': seq<Happening>)
      requires Handled(start, t) && block in all && reltim <= TMAX_RELTIM
      modifies this`hrtEvent, this`armedAt, time, heap`last, heap`blocks, heap.slots, all`node, block
      ensures Handled(start, t') && old(time.clock.now) <= time.clock.now
      ensures t' == (if block in old(heap.blocks) then t + [Withdrawn(block)] else t) + [Entered(block, time.clock.now + tstep + reltim)]
    {
      hide Legal, Replay, InOrder, CallsPast;
      t' := t;
      var registered := IsRegistered(block);
      if registered {
        t' := StopOne(block, start, t);
      }
      t' := EnterOne(block, reltim, start, t');
    }

    /** Whether the block is in the heap: what almsta, cycsta and the wait state record. */
    method IsRegistered(block: TimeEventBlock) returns (r: bool)
      requires Sound()
      ensures r <==> block in heap.blocks
    {
      r := 1 <= block.node <= heap.last && heap.slots[block.node] == block;
      assert r ==> heap.Occupied(block.node);
    }

    /** A stop from a callback. */
    method StopOne(block: TimeEventBlock, ghost start: Times, ghost t: seq<Happening>) returns (ghost t': seq<Happening>)
      requires Handled(start, t) && block in heap.blocks
      modifies heap`last, heap`blocks, heap.slots, all`node
      ensures Handled(start, t') && t' == t + [Withdrawn(block)] && heap.blocks == old(heap.blocks) - {block}
      ensures heap.last == old(heap.last) - 1
    {
      hide Legal, Replay, InOrder;
      ghost var before := Registered();
      heap.Delete(block, time.boundaryEvttim);
      t' := t + [Withdrawn(block)];
      assert Registered() == before - {block};
      Record(start, before, t, Withdrawn(block));
    }

    /** One thing a callback asks for. */
    method ServeOne(r: Request, ghost start: Times, ghost t: seq<Happening>, ghost lo: int) returns (ghost u: seq<Happening>)
      requires Handled(start, t) && Sensible(r) && lo <= time.clock.now + tstep
      modifies this`hrtEvent, this`armedAt, time, heap`last, heap`blocks, heap.slots, all
      ensures Handled(start, t + u) && old(time.clock.now) <= time.clock.now
      ensures PartOk(Replay(start, t), u, r, lo, time.clock.now + tstep)
    {
      hide Handled, Replay;
      Known(start, t);
      ghost var there := r.block in heap.blocks;
      ghost var t' := t;
      u := [];
      if r.Start? {
        t' := StartOne(r.block, r.reltim, start, t);
        u := (if there then [Withdrawn(r.block)] else []) + [Entered(r.block, time.clock.now + tstep + r.reltim)];
        assert t' == t + u;
      } else {
        var registered := IsRegisteredNow(r.block, start, t);
        if registered {
          t' := StopOne(r.block, start, t);
          u := [Withdrawn(r.block)];
        }
        assert t' == t + u;
      }
    }

    lemma Known(start: Times, t: seq<Happening>)
      requires Handled(start, t)
      ensures forall x :: x in Replay(start, t) <==> x in heap.blocks
    {
      hide Replay, Legal, InOrder;
    }

    /** Everything a callback asks for. */
    method Serve(requests: seq<Request>, ghost start: Times, ghost t: seq<Happening>, ghost lo: int)
      returns (ghost t': seq<Happening>, ghost parts: seq<seq<Happening>>)
      requires Handled(start, t) && (forall i :: 0 <= i < |requests| ==> Sensible(requests[i])) && lo <= time.clock.now + tstep
      modifies this`hrtEvent, this`armedAt, time, heap`last, heap`blocks, heap.slots, all
      ensures Handled(start, t') && (requests == [] ==> heap.last == old(heap.last)) && old(time.clock.now) <= time.clock.now
      ensures t' == t + Flat(parts) && |parts| == |requests|
      ensures PartsOk(start, t, requests, parts, lo, time.clock.now + tstep)
    {
      hide Handled, PartOk, PartsOk, Flat, Replay;
      t', parts := t, [];
      NoParts(start, t, requests, lo, time.clock.now + tstep);
      for k := 0 to |requests|
        invariant Handled(start, t') && (k == 0 ==> heap.last == old(heap.last)) && old(time.clock.now) <= time.clock.now
        invariant t' == t + Flat(parts) && |parts| == k && PartsOk(start, t, requests, parts, lo, time.clock.now + tstep)
      {
        ghost var before, hi := t', time.clock.now + tstep;
        ghost var u := ServeOne(requests[k], start, t', lo);
        LaterParts(start, t, requests, parts, lo, hi, time.clock.now + tstep);
        OnePartMore(start, t, requests, parts, u, lo, time.clock.now + tstep);
        t', parts := t' + u, parts + [u];
      }
    }

    method IsRegisteredNow(block: TimeEventBlock, ghost start: Times, ghost t: seq<Happening>) returns (r: bool)
      requires Handled(start, t)
      ensures r <==> block in heap.blocks
    {
      r := IsRegistered(block);
    }

    /** The callback of an event just taken. */
    method CallBack(top: TimeEventBlock, c: Callback, ghost start: Times, ghost t: seq<Happening>)
      returns (ghost t': seq<Happening>, ghost r: Round)
      requires Plausible(c) && Handled(start, t + [Called(top, top.due)]) && Taken(top, t + [Called(top, top.due)])
      modifies this`hrtEvent, this`armedAt, time, heap`last, heap`blocks, heap.slots, all
      ensures Handled(start, t') && (c == Callback(None, []) ==> heap.last == old(heap.last)) && old(time.clock.now) <= time.clock.now
      ensures r.block == top && r.due == old(top.due) && r.c == c && RoundOk(start, t, r, tstep, time.clock.now + tstep)
      ensures t' == t + Head(r.block, r.due, r.c) + Flat(r.parts)
    {
      hide Handled, PartsOk, Replay;
      ghost var due := top.due;
      t' := t + [Called(top, due)];
      if c.period.Some? {
        t' := Repeat(top, c.period.value, start, t');
      }
      assert t' == t + Head(top, due, c);
      ghost var parts;
      t', parts := Serve(c.requests, start, t', due + tstep);
      r := Round(top, due, c, parts);
    }

    /**
     signal_time, for any callbacks that do not adjust the clock; those past the end of `callbacks` do
     nothing. Callbacks come in the order of their times, each for an earliest registered event; what
     happens is what they ask for and nothing else; and at the end no registered event is due at the last
     reading.
     */
    method SignalTime(callbacks: seq<Callback>) returns (ghost t: seq<Happening>, ghost rs: seq<Round>)
      requires Valid() && !inSignalTime && forall i :: 0 <= i < |callbacks| ==> Plausible(callbacks[i])
      modifies this, time, heap`last, heap`blocks, heap.slots, all
      ensures Valid() && !inSignalTime && armedAt == time.clock.now
      ensures Registered() == Replay(old(Registered()), t) && Legal(old(Registered()), t) && InOrder(t)
      ensures t == Told(rs) && Follows(old(Registered()), rs, callbacks, tstep, time.clock.now + tstep)
      ensures forall x :: x in heap.blocks ==> time.clock.now < x.due
    {
      hide Handled, Sound, Replay, Legal, InOrder, Valid, RoundOk, Follows, Told, Head, Flat;
      ghost var start := Registered();
      Enter(start);
      t, rs := [], [];
      NoRounds(start, callbacks, tstep, time.clock.now + tstep);
      var n, callflag := 0, true;
      while callflag
        invariant Handled(start, t) && n <= |callbacks|
        invariant t == Told(rs) && Follows(start, rs, callbacks, tstep, time.clock.now + tstep)
        invariant n == if |rs| < |callbacks| then |rs| else |callbacks|
        invariant !callflag ==> forall x :: x in heap.blocks ==> time.clock.now < x.due
        decreases |callbacks| - n, heap.last, callflag
      {
        ghost var n0, last0 := n, heap.last;
        callflag := false;
        ghost var hi := time.clock.now + tstep;
        ReadOn(start, t);
        LaterRounds(start, rs, callbacks, tstep, hi, time.clock.now + tstep);
        var top;
        ghost var t1;
        top, t1 := NextDue(start, t);
        while top != null
          invariant n0 <= n <= |callbacks| && t == Told(rs) && Follows(start, rs, callbacks, tstep, time.clock.now + tstep)
          invariant n == if |rs| < |callbacks| then |rs| else |callbacks|
          invariant top == null ==> Handled(start, t) && forall x :: x in heap.blocks ==> time.clock.now < x.due
          invariant top != null ==> Handled(start, t + [Called(top, top.due)]) && Taken(top, t + [Called(top, top.due)])
          invariant n == n0 ==> heap.last + (if top != null then 1 else 0) + (if callflag then 1 else 0) <= last0
          decreases |callbacks| - n, heap.last + (if top != null then 1 else 0)
        {
          var c := Callback(None, []);
          if n < |callbacks| {
            c := callbacks[n];
            n := n + 1;
          }
          ghost var r, hi := Round(top, 0, c, []), time.clock.now + tstep;
          t, r := CallBack(top, c, start, t);
          LaterRounds(start, rs, callbacks, tstep, hi, time.clock.now + tstep);
          OneRoundMore(start, rs, r, callbacks, tstep, time.clock.now + tstep);
          ToldMore(rs, r);
          rs := rs + [r];
          callflag := true;
          top, t1 := NextDue(start, t);
        }
      }
      Leave(start, t);
    }

    method Enter(ghost start: Times)
      requires Valid() && start == Registered()
      modifies `inSignalTime
      ensures Handled(start, []) && inSignalTime
    {
      inSignalTime := true;
    }

    method ReadOn(ghost start: Times, ghost t: seq<Happening>)
      requires Handled(start, t)
      modifies time
      ensures Handled(start, t) && old(time.clock.now) <= time.clock.now
    {
      var hrtcnt, elapsed := ReadCounter();
      UpdateCurrentEvttim(hrtcnt, elapsed);
    }

    method Leave(ghost start: Times, ghost t: seq<Happening>)
      requires Handled(start, t)
      modifies `hrtEvent, `armedAt, `inSignalTime
      ensures Valid() && !inSignalTime && armedAt == time.clock.now
      ensures Registered() == Replay(start, t) && Legal(start, t) && InOrder(t)
    {
      hide HeapOrdered, Wrap;
      SetHrtEvent();
      inSignalTime := false;
    }
  }
}
