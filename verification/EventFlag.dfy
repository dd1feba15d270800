/** Event flags: a bit pattern, and tasks waiting for all or any of some bits. */
module EventFlag {
  import opened WaitQueue

  // ---------------------------------------------------------------- conditions on bits

  /** What a task waits for: any of the bits (TWF_ORW) or all of them (TWF_ANDW). */
  datatype Want = Want(waiptn: bv32, any: bool)

  function And(p: bv32, q: bv32): bv32 { p & q }

  function Or(p: bv32, q: bv32): bv32 { p | q }

  predicate AnyBit(p: bv32, w: bv32) { p & w != 0 }

  predicate AllBits(p: bv32, w: bv32) { p & w == w }

  predicate Met(flgptn: bv32, w: Want) {
    if w.any then AnyBit(flgptn, w.waiptn) else AllBits(flgptn, w.waiptn)
  }

  lemma ZeroHasNoBits(w: bv32)
    requires w != 0
    ensures !AnyBit(0, w) && !AllBits(0, w)
  {
  }

  lemma NothingMetByZero(w: Want)
    requires w.waiptn != 0
    ensures !Met(0, w)
  {
    hide AnyBit, AllBits;
    ZeroHasNoBits(w.waiptn);
  }

  lemma ClearingMeetsNoMore(flgptn: bv32, clrptn: bv32, w: Want)
    requires Met(And(flgptn, clrptn), w)
    ensures Met(flgptn, w)
  {
    hide And, AnyBit, AllBits;
    if w.any { AnyStays(flgptn, clrptn, w.waiptn); } else { AllStay(flgptn, clrptn, w.waiptn); }
  }

  lemma AnyStays(p: bv32, c: bv32, w: bv32)
    requires AnyBit(And(p, c), w)
    ensures AnyBit(p, w)
  {
    assert p & w == 0 ==> (p & c) & w == 0;
  }

  lemma AllStay(p: bv32, c: bv32, w: bv32)
    requires AllBits(And(p, c), w)
    ensures AllBits(p, w)
  {
    assert (p & c) & w == w ==> p & w == w;
  }

  // ---------------------------------------------------------------- the protocol

  /** `clear` is TA_CLR, `multi` TA_WMUL. `released` records whose waits were completed, and the pattern
      each one got. */
  datatype Flag = Flag(flgptn: bv32, initial: bv32, clear: bool, multi: bool, byPri: bool,
                       waiters: seq<Waiter<Want>>, released: seq<(nat, bv32)>)

  datatype FlagCall =
    | Set(setptn: bv32)
    | Clear(clrptn: bv32)
    | Wait(w: Waiter<Want>, wait: bool)   // wai_flg, twai_flg; pol_flg if `wait` is false
    | GiveUp(i: nat)                      // the i-th wait ends any other way
    | Reprioritize(i: nat, pri: nat)      // the priority of the i-th waiter changes
    | Init

  datatype Reply = Done | Got(flgptn: bv32) | Waits | TimedOut | BadParameter | IllegalUse

  /** The waiters of a queue that are satisfied, or not, in the order of the queue. */
  function Sift(q: seq<Waiter<Want>>, flgptn: bv32, met: bool): (r: seq<Waiter<Want>>)
    ensures forall i :: 0 <= i < |r| ==> Met(flgptn, r[i].item) == met
  {
    if q == [] then [] else (if Met(flgptn, q[0].item) == met then [q[0]] else []) + Sift(q[1..], flgptn, met)
  }

  /** The place of the first satisfied waiter, or the length of the queue. */
  function FirstMet(q: seq<Waiter<Want>>, flgptn: bv32): (i: nat)
    ensures i <= |q| && (i < |q| ==> Met(flgptn, q[i].item))
    ensures forall j :: 0 <= j < i ==> !Met(flgptn, q[j].item)
  {
    if q == [] || Met(flgptn, q[0].item) then 0 else 1 + FirstMet(q[1..], flgptn)
  }

  function Releases(q: seq<Waiter<Want>>, flgptn: bv32): (r: seq<(nat, bv32)>)
    ensures |r| == |q| && forall i :: 0 <= i < |q| ==> r[i] == (q[i].tid, flgptn)
  {
    seq(|q|, i requires 0 <= i < |q| => (q[i].tid, flgptn))
  }

  /** set_flg: without TA_CLR every satisfied waiter is released, with it only the first one, which takes
      the pattern with it. */
  function SetStep(s: Flag, setptn: bv32): Flag {
    var ptn := Or(s.flgptn, setptn);
    if !s.clear then
      s.(flgptn := ptn, waiters := Sift(s.waiters, ptn, false), released := s.released + Releases(Sift(s.waiters, ptn, true), ptn))
    else
      var i := FirstMet(s.waiters, ptn);
      if i == |s.waiters| then s.(flgptn := ptn)
      else s.(flgptn := 0, waiters := Drop(s.waiters, i), released := s.released + [(s.waiters[i].tid, ptn)])
  }

  function Step(s: Flag, call: FlagCall): Flag {
    match call
    case Set(setptn) => SetStep(s, setptn)
    case Clear(clrptn) => s.(flgptn := And(s.flgptn, clrptn))
    case Wait(w, wait) =>
      if w.item.waiptn == 0 || (!s.multi && s.waiters != []) then s
      else if Met(s.flgptn, w.item) then (if s.clear then s.(flgptn := 0) else s)
      else if wait then s.(waiters := Enter(s.waiters, w, s.byPri))
      else s
    case GiveUp(i) => if i < |s.waiters| then s.(waiters := Drop(s.waiters, i)) else s
    case Reprioritize(i, pri) => if i < |s.waiters| then s.(waiters := Reordered(s.waiters, i, pri, s.byPri)) else s
    case Init => s.(flgptn := s.initial, waiters := [])
  }

  function Answer(s: Flag, call: FlagCall): Reply {
    match call
    case Wait(w, wait) =>
      if w.item.waiptn == 0 then BadParameter
      else if !s.multi && s.waiters != [] then IllegalUse
      else if Met(s.flgptn, w.item) then Got(s.flgptn)
      else if wait then Waits else TimedOut
    case _ => Done
  }

  // ---------------------------------------------------------------- all runs

  /** No waiting task's condition is met by the current pattern. */
  ghost predicate NoneMet(s: Flag) {
    && (forall i :: 0 <= i < |s.waiters| ==> s.waiters[i].item.waiptn != 0 && !Met(s.flgptn, s.waiters[i].item))
    && (!s.multi ==> |s.waiters| <= 1)
  }

  lemma {:induction false} SiftFrom(q: seq<Waiter<Want>>, flgptn: bv32, met: bool, i: nat)
    requires i < |Sift(q, flgptn, met)|
    ensures Sift(q, flgptn, met)[i] in q && |Sift(q, flgptn, met)| <= |q|
  {
    var here := if Met(flgptn, q[0].item) == met then 1 else 0;
    if i >= here {
      SiftFrom(q[1..], flgptn, met, i - here);
    } else {
      SiftSize(q[1..], flgptn, met);
    }
  }

  lemma {:induction false} SiftSize(q: seq<Waiter<Want>>, flgptn: bv32, met: bool)
    ensures |Sift(q, flgptn, met)| <= |q|
  {
    if q != [] { SiftSize(q[1..], flgptn, met); }
  }

  /** Every waiter is either released or kept. */
  lemma {:induction false} SiftSplits(q: seq<Waiter<Want>>, flgptn: bv32)
    ensures multiset(Sift(q, flgptn, true)) + multiset(Sift(q, flgptn, false)) == multiset(q)
  {
    if q != [] {
      SiftSplits(q[1..], flgptn);
      assert q == [q[0]] + q[1..];
    }
  }

  lemma {:induction false} SiftAppend(q: seq<Waiter<Want>>, w: Waiter<Want>, flgptn: bv32, met: bool)
    ensures Sift(q + [w], flgptn, met) == Sift(q, flgptn, met) + if Met(flgptn, w.item) == met then [w] else []
  {
    hide Met, And, Or;
    if q == [] {
      assert q + [w] == [w];
    } else {
      assert (q + [w])[1..] == q[1..] + [w];
      SiftAppend(q[1..], w, flgptn, met);
    }
  }

  lemma SiftMore(q: seq<Waiter<Want>>, n: nat, flgptn: bv32)
    requires n < |q|
    ensures Sift(q[..n + 1], flgptn, true) == Sift(q[..n], flgptn, true) + if Met(flgptn, q[n].item) then [q[n]] else []
    ensures Sift(q[..n + 1], flgptn, false) == Sift(q[..n], flgptn, false) + if Met(flgptn, q[n].item) then [] else [q[n]]
    ensures q[n..] == [q[n]] + q[n + 1..]
  {
    hide Met, And, Or;
    assert q[..n + 1] == q[..n] + [q[n]];
    SiftAppend(q[..n], q[n], flgptn, true);
    SiftAppend(q[..n], q[n], flgptn, false);
  }

  lemma ReleasesAppend(q: seq<Waiter<Want>>, w: Waiter<Want>, flgptn: bv32)
    ensures Releases(q + [w], flgptn) == Releases(q, flgptn) + [(w.tid, flgptn)]
  {
  }

  /** The walk over a queue has looked at `seen` of its waiters: `now` is left, `gone` was released. */
  ghost predicate Walked(was: seq<Waiter<Want>>, ptn: bv32, seen: nat, i: nat, now: seq<Waiter<Want>>, gone: seq<(nat, bv32)>) {
    && seen <= |was| && i == |Sift(was[..seen], ptn, false)|
    && now == Sift(was[..seen], ptn, false) + was[seen..]
    && gone == Releases(Sift(was[..seen], ptn, true), ptn)
  }

  lemma WalkStarts(was: seq<Waiter<Want>>, ptn: bv32)
    ensures Walked(was, ptn, 0, 0, was, []) && 0 <= FirstMet(was, ptn)
  {
    assert was[..0] == [] && was == [] + was[0..];
  }

  lemma WalkAt(was: seq<Waiter<Want>>, ptn: bv32, seen: nat, i: nat, now: seq<Waiter<Want>>, gone: seq<(nat, bv32)>)
    requires Walked(was, ptn, seen, i, now, gone) && i < |now|
    ensures seen < |was| && now[i] == was[seen]
    ensures now == Sift(was[..seen], ptn, false) + ([was[seen]] + was[seen + 1..])
  {
    hide Met, Sift, Releases;
  }

  lemma WalkFirst(was: seq<Waiter<Want>>, ptn: bv32, seen: nat)
    requires seen < |was| && seen <= FirstMet(was, ptn)
    ensures if Met(ptn, was[seen].item) then seen == FirstMet(was, ptn) else seen < FirstMet(was, ptn)
  {
    hide Met;
  }

  lemma WalkMore(was: seq<Waiter<Want>>, ptn: bv32, seen: nat, kept: seq<Waiter<Want>>, out: seq<Waiter<Want>>)
    requires seen < |was| && kept == Sift(was[..seen], ptn, false) && out == Sift(was[..seen], ptn, true)
    ensures var w, rest := was[seen], was[seen + 1..];
            if Met(ptn, w.item) then Walked(was, ptn, seen + 1, |kept|, kept + rest, Releases(out + [w], ptn))
            else Walked(was, ptn, seen + 1, |kept| + 1, (kept + [w]) + rest, Releases(out, ptn))
  {
    hide Met, Sift, Releases;
    SiftMore(was, seen, ptn);
  }

  lemma WalkOn(was: seq<Waiter<Want>>, ptn: bv32, seen: nat, i: nat, now: seq<Waiter<Want>>, gone: seq<(nat, bv32)>)
    requires Walked(was, ptn, seen, i, now, gone) && i < |now|
    ensures seen < |was| && now[i] == was[seen]
    ensures Met(ptn, now[i].item) ==> Walked(was, ptn, seen + 1, i, Drop(now, i), gone + [(now[i].tid, ptn)])
    ensures !Met(ptn, now[i].item) ==> Walked(was, ptn, seen + 1, i + 1, now, gone)
    ensures seen <= FirstMet(was, ptn) ==> if Met(ptn, now[i].item) then seen == FirstMet(was, ptn) else seen < FirstMet(was, ptn)
  {
    hide Met, Sift, Releases, Drop, Walked, FirstMet;
    WalkAt(was, ptn, seen, i, now, gone);
    Unfolded(was, ptn, seen, i, now, gone);
    var kept, out := Sift(was[..seen], ptn, false), Sift(was[..seen], ptn, true);
    if seen <= FirstMet(was, ptn) { WalkFirst(was, ptn, seen); }
    Middle(kept, was[seen], was[seen + 1..]);
    ReleasesAppend(out, was[seen], ptn);
    WalkMore(was, ptn, seen, kept, out);
  }

  lemma Unfolded(was: seq<Waiter<Want>>, ptn: bv32, seen: nat, i: nat, now: seq<Waiter<Want>>, gone: seq<(nat, bv32)>)
    requires Walked(was, ptn, seen, i, now, gone)
    ensures seen <= |was| && i == |Sift(was[..seen], ptn, false)| && gone == Releases(Sift(was[..seen], ptn, true), ptn)
  {
  }

  /** The waiter behind those kept so far, taken out or kept as well. */
  lemma Middle<T>(a: seq<T>, x: T, b: seq<T>)
    ensures (a + ([x] + b))[|a|] == x && Drop(a + ([x] + b), |a|) == a + b && a + ([x] + b) == (a + [x]) + b
  {
  }

  lemma WalkEnds(was: seq<Waiter<Want>>, ptn: bv32, seen: nat, i: nat, now: seq<Waiter<Want>>, gone: seq<(nat, bv32)>)
    requires Walked(was, ptn, seen, i, now, gone) && i >= |now|
    ensures now == Sift(was, ptn, false) && gone == Releases(Sift(was, ptn, true), ptn)
  {
    assert was[..seen] == was;
  }

  lemma FirstMetAtEnd(q: seq<Waiter<Want>>, ptn: bv32)
    ensures |q| <= FirstMet(q, ptn) ==> FirstMet(q, ptn) == |q|
  {
  }

  lemma KeptNoneMet(s: Flag, ptn: bv32)
    requires NoneMet(s)
    ensures NoneMet(s.(flgptn := ptn, waiters := Sift(s.waiters, ptn, false)))
  {
    hide Met;
    var q := Sift(s.waiters, ptn, false);
    SiftSize(s.waiters, ptn, false);
    forall i | 0 <= i < |q| ensures q[i].item.waiptn != 0 && !Met(ptn, q[i].item) { SiftFrom(s.waiters, ptn, false, i); }
  }

  lemma ClearedNoneMet(s: Flag, i: nat)
    requires NoneMet(s) && i < |s.waiters|
    ensures NoneMet(s.(flgptn := 0, waiters := Drop(s.waiters, i)))
  {
    hide Met;
    var q := Drop(s.waiters, i);
    forall j | 0 <= j < |q| ensures q[j].item.waiptn != 0 && !Met(0, q[j].item) {
      assert q[j] == s.waiters[if j < i then j else j + 1];
      NothingMetByZero(q[j].item);
    }
  }

  lemma SetNoneMet(s: Flag, setptn: bv32)
    requires NoneMet(s)
    ensures NoneMet(SetStep(s, setptn))
  {
    hide Met, Or, Sift, Drop, Releases;
    var ptn := Or(s.flgptn, setptn);
    if !s.clear {
      KeptNoneMet(s, ptn);
    } else if FirstMet(s.waiters, ptn) < |s.waiters| {
      ClearedNoneMet(s, FirstMet(s.waiters, ptn));
    }
  }

  lemma WaitNoneMet(s: Flag, w: Waiter<Want>, wait: bool)
    requires NoneMet(s)
    ensures NoneMet(Step(s, Wait(w, wait)))
  {
    hide Met, And, Or, Enter;
    forall i | 0 <= i < |s.waiters| ensures !Met(0, s.waiters[i].item) { NothingMetByZero(s.waiters[i].item); }
    EnteredFrom(s.waiters, w, s.byPri);
  }

  lemma EnteredFrom(q: seq<Waiter<Want>>, w: Waiter<Want>, byPri: bool)
    ensures var r := Enter(q, w, byPri);
            |r| == |q| + 1 && forall i :: 0 <= i < |r| ==> r[i] == w || exists j :: 0 <= j < |q| && r[i] == q[j]
  {
    var k, r := PlaceOf(q, w.pri), Enter(q, w, byPri);
    assert byPri ==> forall i :: 0 <= i < |r| ==> r[i] == if i < k then q[i] else if i == k then w else q[i - 1];
  }

  lemma LessNoneMet(s: Flag, clrptn: bv32)
    requires NoneMet(s)
    ensures NoneMet(s.(flgptn := And(s.flgptn, clrptn)))
  {
    hide Met, And;
    forall i | 0 <= i < |s.waiters| && Met(And(s.flgptn, clrptn), s.waiters[i].item) ensures false {
      ClearingMeetsNoMore(s.flgptn, clrptn, s.waiters[i].item);
    }
  }

  lemma DroppedNoneMet(s: Flag, i: nat)
    requires NoneMet(s) && i < |s.waiters|
    ensures NoneMet(s.(waiters := Drop(s.waiters, i)))
  {
    hide Met;
    var q := Drop(s.waiters, i);
    forall j | 0 <= j < |q| ensures q[j].item.waiptn != 0 && !Met(s.flgptn, q[j].item) {
      assert q[j] == s.waiters[if j < i then j else j + 1];
    }
  }

  lemma ReorderedNoneMet(s: Flag, i: nat, pri: nat)
    requires NoneMet(s) && i < |s.waiters|
    ensures NoneMet(s.(waiters := Reordered(s.waiters, i, pri, s.byPri)))
  {
    hide Met;
    var q := Reordered(s.waiters, i, pri, s.byPri);
    forall j | 0 <= j < |q| ensures q[j].item.waiptn != 0 && !Met(s.flgptn, q[j].item) {
      var k := ReorderedFrom(s.waiters, i, pri, s.byPri, j);
    }
  }

  lemma EmptyNoneMet(s: Flag)
    ensures NoneMet(s.(flgptn := s.initial, waiters := []))
  {
  }

  lemma StepNoneMet(s: Flag, call: FlagCall)
    requires NoneMet(s)
    ensures NoneMet(Step(s, call))
  {
    hide NoneMet, Met, And, Or, SetStep, Enter, Drop, Reordered;
    match call
    case Set(setptn) => SetNoneMet(s, setptn);
    case Clear(clrptn) => LessNoneMet(s, clrptn);
    case Wait(w, wait) => WaitNoneMet(s, w, wait);
    case GiveUp(i) =>
      if i < |s.waiters| { DroppedNoneMet(s, i); }
    case Reprioritize(i, pri) =>
      if i < |s.waiters| { ReorderedNoneMet(s, i, pri); }
    case Init => EmptyNoneMet(s);
  }

  ghost predicate IsRun(ss: seq<Flag>, calls: seq<FlagCall>) {
    && |ss| == |calls| + 1 && ss[0].waiters == []
    && forall i {:trigger calls[i]} :: 0 <= i < |calls| ==> ss[i + 1] == Step(ss[i], calls[i])
  }

  /** In every run, no task waits for what the flag already shows. */
  lemma {:induction false} NobodyWaitsForWhatIsSet(ss: seq<Flag>, calls: seq<FlagCall>, n: nat)
    requires IsRun(ss, calls) && n < |ss|
    ensures NoneMet(ss[n])
  {
    if n > 0 {
      NobodyWaitsForWhatIsSet(ss, calls, n - 1);
      StepNoneMet(ss[n - 1], calls[n - 1]);
      assert ss[n] == Step(ss[n - 1], calls[n - 1]);
    }
  }

  /** A TA_TPRI queue of waiting tasks is in order of priority. */
  ghost predicate InOrder(s: Flag) { s.byPri ==> ByPriority(s.waiters) }

  lemma {:induction false} SiftInOrder(q: seq<Waiter<Want>>, flgptn: bv32, met: bool)
    requires ByPriority(q)
    ensures ByPriority(Sift(q, flgptn, met))
  {
    hide Met;
    if q != [] {
      var rest := Sift(q[1..], flgptn, met);
      SiftInOrder(q[1..], flgptn, met);
      forall i | 0 <= i < |rest| ensures q[0].pri <= rest[i].pri { SiftFrom(q[1..], flgptn, met, i); }
    }
  }

  lemma SetInOrder(s: Flag, setptn: bv32)
    requires InOrder(s)
    ensures InOrder(SetStep(s, setptn))
  {
    hide ByPriority, Met, Or, Sift, Drop, Releases;
    var ptn := Or(s.flgptn, setptn);
    if s.byPri { SiftInOrder(s.waiters, ptn, false); }
    var i := FirstMet(s.waiters, ptn);
    if s.byPri && i < |s.waiters| { StaysByPriority(s.waiters, s.waiters[0], i); }
  }

  lemma StepInOrder(s: Flag, call: FlagCall)
    requires InOrder(s)
    ensures InOrder(Step(s, call))
  {
    hide ByPriority, Enter, Reordered, Drop, SetStep, Met, And;
    NoneInOrder<Want>();
    match call
    case Set(setptn) => SetInOrder(s, setptn);
    case Wait(w, wait) =>
      if s.byPri { StaysByPriority(s.waiters, w, 0); }
    case GiveUp(i) =>
      if i < |s.waiters| && s.byPri { StaysByPriority(s.waiters, s.waiters[0], i); }
    case Reprioritize(i, pri) =>
      if i < |s.waiters| && s.byPri { ReorderedByPriority(s.waiters, i, pri); }
    case _ =>
  }

  /** In every run a TA_TPRI queue keeps its tasks in order of priority, whatever priorities change. */
  lemma {:induction false} WaitersInOrder(ss: seq<Flag>, calls: seq<FlagCall>, n: nat)
    requires IsRun(ss, calls) && n < |ss|
    ensures InOrder(ss[n])
  {
    hide Step;
    if n > 0 {
      WaitersInOrder(ss, calls, n - 1);
      StepInOrder(ss[n - 1], calls[n - 1]);
      assert ss[n] == Step(ss[n - 1], calls[n - 1]);
    }
  }

  // ---------------------------------------------------------------- the object

  class EventFlag {
    const initial: bv32                      // iflgptn
    const clear: bool
    const multi: bool
    const byPri: bool                        // TA_TPRI
    var flgptn: bv32
    var waiters: seq<Waiter<Want>>           // wait_queue
    ghost var released: seq<(nat, bv32)>

    ghost function Abs(): Flag
      reads this
    {
      Flag(flgptn, initial, clear, multi, byPri, waiters, released)
    }

    constructor (initial: bv32, clear: bool, multi: bool, byPri: bool)
      ensures Abs() == Flag(initial, initial, clear, multi, byPri, [], [])
    {
      this.initial, this.clear, this.multi, this.byPri := initial, clear, multi, byPri;
      flgptn, waiters, released := initial, [], [];
    }

    /** check_flg_cond. */
    method CheckFlgCond(want: Want) returns (met: bool, got: bv32)
      modifies `flgptn
      ensures met <==> Met(old(flgptn), want)
      ensures met ==> got == old(flgptn)
      ensures flgptn == if met && clear then 0 else old(flgptn)
    {
      hide AnyBit, AllBits;
      met, got := if want.any then AnyBit(flgptn, want.waiptn) else AllBits(flgptn, want.waiptn), 0;
      if met {
        got := flgptn;
        if clear {
          flgptn := 0;
        }
      }
    }

    /** set_flg. */
    method SetFlg(setptn: bv32)
      modifies this
      ensures Abs() == Step(old(Abs()), Set(setptn))
    {
      hide Met, And, Or, Sift, Releases, Drop, FirstMet;
      flgptn := Or(flgptn, setptn);
      ReleaseMet();
    }

    /** The loop of set_flg: walks the queue and takes waiters out of it on the way. */
    method ReleaseMet()
      modifies this
      ensures !clear ==> flgptn == old(flgptn) && waiters == Sift(old(waiters), flgptn, false)
      ensures !clear ==> released == old(released) + Releases(Sift(old(waiters), flgptn, true), flgptn)
      ensures clear ==> var i := FirstMet(old(waiters), old(flgptn));
        if i == |old(waiters)| then flgptn == old(flgptn) && waiters == old(waiters) && released == old(released)
        else flgptn == 0 && waiters == Drop(old(waiters), i) && released == old(released) + [(old(waiters)[i].tid, old(flgptn))]
    {
      hide Met, And, Or, Sift, Releases, Walked, Drop, FirstMet;
      ghost var ptn, was, gone, seen := flgptn, waiters, [], 0;
      var i := 0;
      WalkStarts(was, ptn);
      while i < |waiters|
        invariant i <= |waiters| && seen <= |was| && flgptn == ptn && released == old(released) + gone
        invariant Walked(was, ptn, seen, i, waiters, gone)
        invariant clear ==> i == seen && waiters == was && gone == [] && seen <= FirstMet(was, ptn)
        decreases |was| - seen
      {
        WalkOn(was, ptn, seen, i, waiters, gone);
        var met, got := CheckFlgCond(waiters[i].item);
        if met {
          released := released + [(waiters[i].tid, got)];
          gone := gone + [(waiters[i].tid, got)];
          waiters := Drop(waiters, i);
          if clear {
            break;
          }
        } else {
          i := i + 1;
        }
        seen := seen + 1;
      }
      if !clear {
        WalkEnds(was, ptn, seen, i, waiters, gone);
      } else if i == |was| {
        FirstMetAtEnd(was, ptn);
      }
    }

    /** clr_flg. */
    method ClrFlg(clrptn: bv32)
      modifies `flgptn
      ensures Abs() == Step(old(Abs()), Clear(clrptn))
    {
      hide And;
      flgptn := And(flgptn, clrptn);
    }

    /** wai_flg and twai_flg if `wait`, pol_flg if not. */
    method WaiFlg(w: Waiter<Want>, wait: bool) returns (r: Reply)
      modifies this
      ensures Abs() == Step(old(Abs()), Wait(w, wait)) && r == Answer(old(Abs()), Wait(w, wait))
    {
      hide Met, And, Or;
      if w.item.waiptn == 0 {
        return BadParameter;
      }
      if !multi && waiters != [] {
        return IllegalUse;
      }
      var met, got := CheckFlgCond(w.item);
      if met {
        r := Got(got);
      } else if wait {
        waiters := Enter(waiters, w, byPri);
        r := Waits;
      } else {
        r := TimedOut;
      }
    }

    /** The end of a wait by timeout, release, termination or the like. */
    method EndWait(i: nat)
      requires i < |waiters|
      modifies `waiters
      ensures Abs() == Step(old(Abs()), GiveUp(i))
    {
      waiters := Drop(waiters, i);
    }

    /** A change of the priority of a waiting task: wobj_change_priority. */
    method ChangePriority(i: nat, pri: nat)
      requires i < |waiters|
      modifies `waiters
      ensures Abs() == Step(old(Abs()), Reprioritize(i, pri))
    {
      waiters := Reordered(waiters, i, pri, byPri);
    }

    /** ini_flg. */
    method IniFlg()
      modifies this
      ensures Abs() == Step(old(Abs()), Init)
    {
      waiters := [];
      flgptn := initial;
    }
  }
}
