/**
 The system clock: a 32-bit event time advanced from a wrapping hardware counter, adjustable forwards
 and backwards, and a 64-bit system time that never goes back.
 */
module SystemClock {
  import opened EventTime

  const WORD64: int := 0x1_0000_0000_0000_0000
  /** check_adjtim keeps the clock less than this behind its furthest point. */
  const MAX_LAG: int := -2 * TMIN_ADJTIM

  function Wrap64(x: int): nat { x % WORD64 }

  // ---------------------------------------------------------------- the unbounded clock

  /** `now` is the adjusted clock, `peak` the furthest it has been, `base` what set_tim added to it. */
  datatype Clock = Clock(now: int, peak: int, base: int)

  datatype Change = Elapse(d: nat) | Adjust(a: int) | SetTime(systim: nat)

  predicate ClockOk(c: Clock) { 0 <= c.peak - c.now < MAX_LAG && 0 <= Reading(c) }

  function Max(x: int, y: int): int { if x < y then y else x }

  function Moved(c: Clock, d: int): Clock { c.(now := c.now + d, peak := Max(c.peak, c.now + d)) }

  /** adj_tim's range check and, for a step back, its limit; steps forward may also be refused because
      of a late event, which changes nothing here. */
  predicate Adjustable(c: Clock, a: int) {
    TMIN_ADJTIM <= a <= TMAX_ADJTIM && (a < 0 ==> c.peak - c.now < -TMIN_ADJTIM)
  }

  function Apply(c: Clock, h: Change): Clock {
    match h
    case Elapse(d) => Moved(c, d)
    case Adjust(a) => if Adjustable(c, a) then Moved(c, a) else c
    case SetTime(s) => c.(base := s - c.peak)
  }

  /** What get_tim reads, before reduction to 64 bits. */
  function Reading(c: Clock): int { c.base + c.peak }

  lemma ApplyOk(c: Clock, h: Change)
    requires ClockOk(c)
    ensures ClockOk(Apply(c, h))
    ensures h.SetTime? ==> Reading(Apply(c, h)) == h.systim
    ensures !h.SetTime? ==> Reading(c) <= Reading(Apply(c, h))
  {
  }

  ghost predicate IsRun(cs: seq<Clock>, hs: seq<Change>) {
    && |cs| == |hs| + 1 && cs[0] == Clock(0, 0, 0)
    && forall i :: 0 <= i < |hs| ==> cs[i + 1] == Apply(cs[i], hs[i])
  }

  /** In every run the lag is bounded, `peak` is the running maximum of the clock, and readings never
      decrease between two settings of the time. */
  lemma {:induction false} ClockRuns(cs: seq<Clock>, hs: seq<Change>, i: nat, j: nat)
    requires IsRun(cs, hs) && i <= j < |cs|
    ensures ClockOk(cs[j]) && cs[i].now <= cs[j].peak
    ensures exists m :: 0 <= m <= j && cs[m].now == cs[j].peak
    ensures (forall n :: i <= n < j ==> !hs[n].SetTime?) ==> Reading(cs[i]) <= Reading(cs[j]) && cs[i].base == cs[j].base
  {
    if j == 0 {
      assert cs[0].now == cs[j].peak;
    } else {
      ClockRuns(cs, hs, if i < j then i else j - 1, j - 1);
      ApplyOk(cs[j - 1], hs[j - 1]);
      assert cs[j] == Apply(cs[j - 1], hs[j - 1]);
      if cs[j].peak == cs[j].now {
        assert cs[j].now == cs[j].peak;
      } else {
        assert cs[j].peak == cs[j - 1].peak;
        var m :| 0 <= m <= j - 1 && cs[m].now == cs[j - 1].peak;
        assert cs[m].now == cs[j].peak;
      }
    }
  }

  /** Time that passes while changes `i` to before `j` are made. */
  function Ticked(hs: seq<Change>, i: nat, j: nat): nat
    requires j <= |hs|
  {
    if j <= i then 0 else Ticked(hs, i, j - 1) + if hs[j - 1].Elapse? then hs[j - 1].d else 0
  }

  /** The step adj_tim makes: one within its range, and back only if the clock is not yet as far behind its
      furthest point. */
  function Correction(c: Clock, h: Change): int {
    match h
    case Adjust(a) => if a < TMIN_ADJTIM || TMAX_ADJTIM < a || (a < 0 && c.peak - c.now >= -TMIN_ADJTIM) then 0 else a
    case _ => 0
  }

  ghost function Corrected(cs: seq<Clock>, hs: seq<Change>, i: nat, j: nat): int
    requires j <= |hs| && |cs| == |hs| + 1
  {
    if j <= i then 0 else Corrected(cs, hs, i, j - 1) + Correction(cs[j - 1], hs[j - 1])
  }

  /** In every run the clock is as much further as time has passed and as it was corrected. */
  lemma {:induction false} TimeKept(cs: seq<Clock>, hs: seq<Change>, i: nat, j: nat)
    requires IsRun(cs, hs) && i <= j < |cs|
    ensures cs[j].now == cs[i].now + Ticked(hs, i, j) + Corrected(cs, hs, i, j)
  {
    if i < j {
      TimeKept(cs, hs, i, j - 1);
      assert cs[j] == Apply(cs[j - 1], hs[j - 1]);
    }
  }

  /** While nobody sets or corrects the time, what get_tim returns grows by the time that passes, less what the
      clock is behind its furthest point: after a step back it stands still until that is made up. */
  lemma {:induction false} TimePasses(cs: seq<Clock>, hs: seq<Change>, i: nat, j: nat)
    requires IsRun(cs, hs) && i <= j < |cs| && forall n :: i <= n < j ==> hs[n].Elapse?
    ensures Reading(cs[j]) == Reading(cs[i]) + Max(0, Ticked(hs, i, j) - (cs[i].peak - cs[i].now))
    ensures cs[j].now == cs[i].now + Ticked(hs, i, j) && cs[j].peak == Max(cs[i].peak, cs[j].now) && cs[j].base == cs[i].base
  {
    ClockRuns(cs, hs, i, i);
    if i < j {
      TimePasses(cs, hs, i, j - 1);
      assert cs[j] == Apply(cs[j - 1], hs[j - 1]);
      assert Ticked(hs, i, j) == Ticked(hs, i, j - 1) + hs[j - 1].d;
    }
  }

  /** What get_tim returns never decreases between two settings of the time, short of 2^64. */
  lemma ReadingsAscend(cs: seq<Clock>, hs: seq<Change>, i: nat, j: nat)
    requires IsRun(cs, hs) && i <= j < |cs| && (forall n :: i <= n < j ==> !hs[n].SetTime?) && Reading(cs[j]) < WORD64
    ensures Wrap64(Reading(cs[i])) <= Wrap64(Reading(cs[j]))
  {
    ClockRuns(cs, hs, i, j);
    ClockRuns(cs, hs, i, i);
    Wrap64Small(Reading(cs[i]));
    Wrap64Small(Reading(cs[j]));
  }

  lemma Wrap64Small(x: int)
    requires 0 <= x < WORD64
    ensures Wrap64(x) == x
  {
  }

  // ---------------------------------------------------------------- 32-bit facts

  /** The counter difference, corrected for a counter that wraps below 32 bits. */
  function HrtcntAdvance(newcnt: U32, oldcnt: U32, cycle: nat): U32 {
    if newcnt < oldcnt && cycle < WORD then Wrap(Wrap(newcnt - oldcnt) + cycle) else Wrap(newcnt - oldcnt)
  }

  /** Two readings recover the elapsed ticks modulo the counter's cycle; hence exactly the elapsed ticks
      if and only if the counter is read within one cycle. */
  lemma AdvanceRecovered(ticks: nat, elapsed: nat, cycle: nat)
    requires 0 < cycle <= WORD
    ensures 0 <= ticks % cycle < WORD && 0 <= (ticks + elapsed) % cycle < WORD
    ensures HrtcntAdvance((ticks + elapsed) % cycle, ticks % cycle, cycle) == elapsed % cycle
    ensures HrtcntAdvance((ticks + elapsed) % cycle, ticks % cycle, cycle) == elapsed <==> elapsed < cycle
  {
    var x, y := ticks % cycle, elapsed % cycle;
    ModSum(ticks, elapsed, cycle);
    assert (ticks + elapsed) % cycle == if x + y < cycle then x + y else x + y - cycle;
    if x + y < cycle {
      assert Wrap(y) == y;
    } else if cycle < WORD {
      assert Wrap(y - cycle) == y - cycle + WORD;
    }
    if elapsed < cycle { SmallMod(elapsed, cycle); }
  }

  lemma SmallMod(x: nat, m: nat)
    requires x < m
    ensures x % m == x
  {
  }

  lemma ModSum(a: nat, b: nat, m: nat)
    requires m > 0
    ensures (a + b) % m == if a % m + b % m < m then a % m + b % m else a % m + b % m - m
  {
    var x, y := a % m, b % m;
    var q := a / m + b / m;
    assert a == (a / m) * m + x && b == (b / m) * m + y;
    assert a + b == q * m + (x + y) by { assert (a / m) * m + (b / m) * m == q * m; }
    if x + y < m {
      ModUnique(a + b, m, q, x + y);
    } else {
      assert a + b == (q + 1) * m + (x + y - m);
      ModUnique(a + b, m, q + 1, x + y - m);
    }
  }

  lemma ModUnique(n: int, m: nat, q: int, r: int)
    requires m > 0 && 0 <= r < m && n == q * m + r
    ensures n % m == r
  {
    var q1, r1 := n / m, n % m;
    Distribute(q, q1, m);
    if q > q1 { AtLeastOnce(q - q1, m); } else if q < q1 { Distribute(q1, q, m); AtLeastOnce(q1 - q, m); }
  }

  lemma Distribute(x: int, y: int, m: int)
    ensures (x - y) * m == x * m - y * m
  {
  }

  lemma AtLeastOnce(x: int, m: nat)
    requires x >= 1
    ensures x * m >= m
  {
  }

  /** The offset and the 32-bit furthest point still add up to the reading when both have moved. */
  lemma OffsetFollows(offset1: int, mono1: int, offset2: int, mono2: int, reading: int, d: int)
    requires Wrap64(offset1 + mono1) == Wrap64(reading)
    requires d == mono2 - mono1 + (if mono2 < mono1 then WORD else 0)
    requires offset2 == if mono2 < mono1 then Wrap64(offset1 + WORD) else offset1
    ensures Wrap64(offset2 + mono2) == Wrap64(reading + d)
  {
  }

  lemma Wrap64Bound(x: int)
    ensures Wrap64(x) < WORD64
  {
  }

  lemma OffsetSet(systim: int, mono: int)
    ensures Wrap64(Wrap64(systim - mono) + mono) == Wrap64(systim)
  {
  }

  /** Going less than one word forward crosses a multiple of 2^32 exactly when the image gets smaller. */
  lemma Crossing(from: int, to: int)
    requires from < to < from + WORD
    ensures to - from == Wrap(to) - Wrap(from) + (if Wrap(to) < Wrap(from) then WORD else 0)
  {
    var d := to - from;
    WrapAdd(from, d);
    assert Wrap(from + d) == Wrap(to);
  }

  // ---------------------------------------------------------------- the clock in 32 bits

  class SystemClock {
    const cycle: nat            // TCYC_HRTCNT, or 2^32 when the counter uses all 32 bits
    var currentEvttim: U32
    var boundaryEvttim: U32
    var monotonicEvttim: U32
    var currentHrtcnt: U32
    var systimOffset: nat
    ghost var clock: Clock      // the unbounded clock these words stand for
    ghost var ticks: nat        // how far the timer had counted at the last reading

    ghost predicate Valid()
      reads this
    {
      && 0 < cycle <= WORD && currentHrtcnt == ticks % cycle
      && ClockOk(clock)
      && currentEvttim == Wrap(clock.now)
      && boundaryEvttim == Wrap(clock.now - BOUNDARY_MARGIN)
      && monotonicEvttim == Wrap(clock.peak)
      && systimOffset < WORD64
      && Wrap64(systimOffset + monotonicEvttim) == Wrap64(Reading(clock))
    }

    constructor (cycle: nat, hrtcnt: U32)
      requires 0 < cycle <= WORD && hrtcnt < cycle
      ensures Valid() && clock == Clock(0, 0, 0) && ticks == hrtcnt && this.cycle == cycle
    {
      SmallMod(hrtcnt, cycle);
      this.cycle := cycle;
      currentEvttim, boundaryEvttim, monotonicEvttim := 0, Wrap(-BOUNDARY_MARGIN), 0;
      currentHrtcnt, systimOffset := hrtcnt, 0;
      clock, ticks := Clock(0, 0, 0), hrtcnt;
    }

    /** How far the clock moves when the timer has counted `elapsed` more. */
    ghost function Seen(elapsed: nat): nat
      requires cycle > 0
    {
      elapsed % cycle
    }

    /** The clock words move by `d`; the system time follows only past the furthest point so far. */
    method Move(d: int)
      requires Valid() && 0 <= d < WORD
      modifies `currentEvttim, `boundaryEvttim, `monotonicEvttim, `systimOffset, `clock
      ensures Valid() && clock == Moved(old(clock), d)
    {
      hide Wrap;
      var previous := currentEvttim;
      ghost var from := clock;
      clock := Moved(clock, d);
      currentEvttim := Wrap(currentEvttim + d);
      boundaryEvttim := Wrap(currentEvttim - BOUNDARY_MARGIN);
      WrapAdd(from.now, d);
      WrapAdd(from.now + d, -BOUNDARY_MARGIN);
      WrapSub(from.peak, from.now);
      WrapSmall(from.peak - from.now);
      if Wrap(monotonicEvttim - previous) < d {
        Crossing(from.peak, clock.peak);
        if currentEvttim < monotonicEvttim {
          systimOffset := Wrap64(systimOffset + WORD);
        }
        monotonicEvttim := currentEvttim;
        OffsetFollows(old(systimOffset), old(monotonicEvttim), systimOffset, monotonicEvttim, Reading(from), clock.peak - from.peak);
      }
    }

    /** update_current_evttim: the words follow the timer, whatever wrapped in between. */
    method UpdateCurrentEvttim(newHrtcnt: U32, ghost elapsed: nat)
      requires Valid() && newHrtcnt == (ticks + elapsed) % cycle
      modifies this
      ensures Valid() && ticks == old(ticks) + elapsed && clock == Apply(old(clock), Elapse(Seen(elapsed)))
      ensures elapsed < cycle ==> clock == Apply(old(clock), Elapse(elapsed))
    {
      hide Wrap, ClockOk, Reading, Wrap64, Moved;
      AdvanceRecovered(ticks, elapsed, cycle);
      var hrtcntAdvance := Wrap(newHrtcnt - currentHrtcnt);
      if newHrtcnt < currentHrtcnt && cycle < WORD {
        hrtcntAdvance := Wrap(hrtcntAdvance + cycle);
      }
      currentHrtcnt := newHrtcnt;
      ticks := ticks + elapsed;
      Move(hrtcntAdvance);
    }

    /** The step of adj_tim after its checks; going back leaves the furthest point alone. */
    method Shift(adjtim: int)
      requires Valid() && Adjustable(clock, adjtim)
      modifies this
      ensures Valid() && clock == Apply(old(clock), Adjust(adjtim)) && ticks == old(ticks)
      ensures currentHrtcnt == old(currentHrtcnt)
    {
      if adjtim >= 0 {
        Move(adjtim);
      } else {
        WrapAdd(clock.now, adjtim);
        WrapAdd(clock.now + adjtim, -BOUNDARY_MARGIN);
        currentEvttim := Wrap(currentEvttim + adjtim);
        boundaryEvttim := Wrap(currentEvttim - BOUNDARY_MARGIN);
        clock := Moved(clock, adjtim);
      }
    }

    /** The lag, as check_adjtim computes it. */
    lemma LagIs()
      requires Valid()
      ensures Wrap(monotonicEvttim - currentEvttim) == clock.peak - clock.now
    {
      WrapSub(clock.peak, clock.now);
      WrapSmall(clock.peak - clock.now);
    }

    /** get_tim: the base set last plus the furthest point of the clock, in 64 bits. */
    method GetTim(newHrtcnt: U32, ghost elapsed: nat) returns (systim: nat)
      requires Valid() && newHrtcnt == (ticks + elapsed) % cycle
      modifies this
      ensures Valid() && ticks == old(ticks) + elapsed && clock == Apply(old(clock), Elapse(Seen(elapsed)))
      ensures systim == Wrap64(Reading(clock))
    {
      UpdateCurrentEvttim(newHrtcnt, elapsed);
      systim := Wrap64(systimOffset + monotonicEvttim);
    }

    /** The offset is chosen so that the reading becomes `systim`. */
    method SetOffset(systim: nat)
      requires Valid() && systim < WORD64
      modifies `systimOffset, `clock
      ensures Valid() && clock == Apply(old(clock), SetTime(systim)) && Reading(clock) == systim
    {
      hide Wrap64, Wrap;
      Wrap64Bound(systim - monotonicEvttim);
      systimOffset := Wrap64(systim - monotonicEvttim);
      OffsetSet(systim, monotonicEvttim);
      clock := Apply(clock, SetTime(systim));
    }

    /** set_tim. */
    method SetTim(systim: nat, newHrtcnt: U32, ghost elapsed: nat)
      requires Valid() && newHrtcnt == (ticks + elapsed) % cycle && systim < WORD64
      modifies this
      ensures Valid() && ticks == old(ticks) + elapsed
      ensures clock == Apply(Apply(old(clock), Elapse(Seen(elapsed))), SetTime(systim)) && Reading(clock) == systim
    {
      UpdateCurrentEvttim(newHrtcnt, elapsed);
      SetOffset(systim);
    }
  }

  // ---------------------------------------------------------------- two readings of one clock

  /** What the counter shows when it has counted `elapsed` more. */
  method CounterAfter(c: SystemClock, elapsed: nat) returns (hrtcnt: U32)
    requires c.Valid()
    ensures hrtcnt == (c.ticks + elapsed) % c.cycle
  {
    AdvanceRecovered(c.ticks, elapsed, c.cycle);
    AddToMod(c.ticks, elapsed, c.cycle);
    hrtcnt := (c.currentHrtcnt + elapsed) % c.cycle;
  }

  lemma AddToMod(a: nat, b: nat, m: nat)
    requires m > 0
    ensures (a % m + b) % m == (a + b) % m
  {
    ModSum(a, b, m);
    ModSum(a % m, b, m);
    SmallMod(a % m, m);
  }

  /** A reading, any advances and adjustments of the clock, and another reading: the second is not
      earlier, as long as 64 bits hold it. */
  method ReadTwice(c: SystemClock, d1: nat, changes: seq<Change>, d2: nat) returns (first: nat, second: nat)
    requires c.Valid() && forall i :: 0 <= i < |changes| ==> !changes[i].SetTime?
    modifies c
    ensures c.Valid() && second == Wrap64(Reading(c.clock))
    ensures Reading(c.clock) < WORD64 ==> first <= second
  {
    hide Wrap64;
    var hrtcnt := CounterAfter(c, d1);
    first := c.GetTim(hrtcnt, d1);
    ghost var reading := Reading(c.clock);
    for k := 0 to |changes|
      invariant c.Valid() && reading <= Reading(c.clock)
    {
      ApplyTo(c, changes[k]);
    }
    hrtcnt := CounterAfter(c, d2);
    second := c.GetTim(hrtcnt, d2);
    if Reading(c.clock) < WORD64 {
      Wrap64Small(reading);
      Wrap64Small(Reading(c.clock));
    }
  }

  /** An advance of the counter or an adjustment, if it is allowed. */
  method ApplyTo(c: SystemClock, h: Change)
    requires c.Valid() && !h.SetTime?
    modifies c
    ensures c.Valid() && Reading(old(c.clock)) <= Reading(c.clock)
    ensures c.clock == Apply(old(c.clock), if h.Elapse? then Elapse(c.Seen(h.d)) else h)
  {
    if h.Elapse? {
      var hrtcnt := CounterAfter(c, h.d);
      c.UpdateCurrentEvttim(hrtcnt, h.d);
    } else {
      c.LagIs();
      if TMIN_ADJTIM <= h.a <= TMAX_ADJTIM && (h.a < 0 ==> Wrap(c.monotonicEvttim - c.currentEvttim) < -TMIN_ADJTIM) {
        c.Shift(h.a);
      }
    }
  }
}
