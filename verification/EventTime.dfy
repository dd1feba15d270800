/**
 Event times: 32-bit values compared relative to a moving boundary, against the unbounded times they
 stand for.
 */
module EventTime {

  const WORD: int := 0x1_0000_0000
  const BOUNDARY_MARGIN: int := 200_000_000
  const TMAX_RELTIM: int := 4_000_000_000
  const TMIN_ADJTIM: int := -1_000_000
  const TMAX_ADJTIM: int := 1_000_000
  const TSTEP_MAX: int := 4_000     // TSTEP_HRTCNT is limited to this at compile time

  /** uint32_t. */
  type U32 = x: int | 0 <= x < WORD

  function Wrap(x: int): U32 { x % WORD }

  /** EVTTIM_ADVANCE, EVTTIM_LT, EVTTIM_LE. */
  function Advance(t: U32, b: U32): U32 { Wrap(t - b) }

  predicate Lt(t1: U32, t2: U32, b: U32) { Advance(t1, b) < Advance(t2, b) }

  predicate Le(t1: U32, t2: U32, b: U32) { Advance(t1, b) <= Advance(t2, b) }

  /** The unbounded times that 32 bits can order when the boundary is `b`. */
  predicate InWindow(e: int, b: int) { b <= e < b + WORD }

  lemma WrapSub(x: int, y: int)
    ensures Wrap(Wrap(x) - Wrap(y)) == Wrap(x - y)
  {
    var qx, qy := x / WORD, y / WORD;
    assert x == qx * WORD + Wrap(x) && y == qy * WORD + Wrap(y);
    WrapShift(Wrap(x) - Wrap(y), qx - qy);
    assert x - y == Wrap(x) - Wrap(y) + (qx - qy) * WORD;
  }

  lemma WrapAdd(x: int, y: int)
    ensures Wrap(Wrap(x) + y) == Wrap(x + y)
  {
    var q := x / WORD;
    assert x == q * WORD + Wrap(x);
    WrapShift(Wrap(x) + y, q);
    assert x + y == Wrap(x) + y + q * WORD;
  }

  lemma WrapShift(x: int, q: int)
    ensures Wrap(x + q * WORD) == Wrap(x)
  {
  }

  lemma WrapSmall(x: int)
    requires 0 <= x < WORD
    ensures Wrap(x) == x
  {
  }

  /** Within the window, the advance is the distance from the boundary. */
  lemma AdvanceIs(e: int, b: int)
    requires InWindow(e, b)
    ensures Advance(Wrap(e), Wrap(b)) == e - b
  {
    WrapSub(e, b);
    WrapSmall(e - b);
  }

  /** Within the window, the modular order is the order of the times. */
  lemma OrderAgrees(e1: int, e2: int, b: int)
    requires InWindow(e1, b) && InWindow(e2, b)
    ensures Le(Wrap(e1), Wrap(e2), Wrap(b)) <==> e1 <= e2
    ensures Lt(Wrap(e1), Wrap(e2), Wrap(b)) <==> e1 < e2
  {
    AdvanceIs(e1, b);
    AdvanceIs(e2, b);
  }

  /** The time left until `e`, in 32 bits. */
  lemma LeftAgrees(e: int, ub: int, b: int)
    requires InWindow(e, b) && InWindow(ub, b)
    ensures Le(Wrap(e), Wrap(ub), Wrap(b)) <==> e <= ub
    ensures e > ub ==> Wrap(Wrap(e) - Wrap(ub)) == e - ub
  {
    OrderAgrees(e, ub, b);
    WrapSub(e, ub);
    if e > ub { WrapSmall(e - ub); }
  }

  /** How far the order holds: for a time less than a word in the past and below the window's end, the
      test "is it due" is right exactly when it is overdue by no more than BOUNDARY_MARGIN. */
  lemma DueTestExact(e: int, now: int)
    requires now - WORD < e < now - BOUNDARY_MARGIN + WORD
    ensures (Le(Wrap(e), Wrap(now), Wrap(now - BOUNDARY_MARGIN)) <==> e <= now) <==> e >= now - BOUNDARY_MARGIN
  {
    var b := now - BOUNDARY_MARGIN;
    AdvanceIs(now, b);
    if e >= b {
      AdvanceIs(e, b);
    } else {
      AdvanceIs(e + WORD, b);
      WrapShift(e, 1);
    }
  }

  /** A time overdue by one tick more than the margin looks like one far in the future. */
  lemma OverdueLooksFuture()
    ensures var now := 1_000_000_000;
            var e := now - BOUNDARY_MARGIN - 1;
            e <= now && !Le(Wrap(e), Wrap(now), Wrap(now - BOUNDARY_MARGIN))
  {
    DueTestExact(1_000_000_000 - BOUNDARY_MARGIN - 1, 1_000_000_000);
  }
}
