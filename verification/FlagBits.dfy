/**
 What the calls of an event flag do bit by bit: which bits are set after which calls, and what a waiting
 condition asks of each bit.
 */
module FlagBits {
  import opened WaitQueue
  import opened EventFlag
  import Turns

  /** Bit `i` of a pattern. */
  predicate Bit(p: bv32, i: bv5) { (p >> i) & 1 == 1 }

  /** Patterns with the same bits are the same. */
  lemma SameBits(p: bv32, q: bv32)
    requires forall i: bv5 :: Bit(p, i) <==> Bit(q, i)
    ensures p == q
  {
    if p != q {
      var i := Differing(p ^ q);
      XorBit(p, q, i);
    }
  }

  lemma XorBit(p: bv32, q: bv32, i: bv5)
    ensures Bit(p ^ q, i) <==> Bit(p, i) != Bit(q, i)
  {
  }

  /** Some bit of a pattern other than 0 is set. */
  lemma {:induction false} Differing(p: bv32) returns (i: bv5)
    requires p != 0
    ensures Bit(p, i)
    decreases p
  {
    if p & 1 == 1 {
      i := 0;
    } else {
      Halved(p);
      var j := Differing(p >> 1);
      ShiftedBit(p, j);
      i := j + 1;
    }
  }

  lemma Halved(p: bv32)
    requires p != 0 && p & 1 != 1
    ensures p >> 1 != 0 && p >> 1 < p
  {
  }

  lemma ShiftedBit(p: bv32, j: bv5)
    requires Bit(p >> 1, j)
    ensures Bit(p, j + 1)
  {
  }

  lemma Bits(p: bv32, q: bv32, i: bv5)
    ensures Bit(Or(p, q), i) <==> Bit(p, i) || Bit(q, i)
    ensures Bit(And(p, q), i) <==> Bit(p, i) && Bit(q, i)
  {
    hide Bit, Or, And;
    OrBit(p, q, i);
    AndBit(p, q, i);
  }

  lemma OrBit(p: bv32, q: bv32, i: bv5)
    ensures Bit(Or(p, q), i) <==> Bit(p, i) || Bit(q, i)
  {
  }

  lemma AndBit(p: bv32, q: bv32, i: bv5)
    ensures Bit(And(p, q), i) <==> Bit(p, i) && Bit(q, i)
  {
  }

  lemma NoBits(i: bv5)
    ensures !Bit(0, i)
  {
  }

  lemma ByAnd(p: bv32, w: bv32)
    ensures AllBits(p, w) <==> And(p, w) == w
    ensures AnyBit(p, w) <==> And(p, w) != 0
  {
  }

  // ---------------------------------------------------------------- conditions

  /** TWF_ORW: some bit waited for is set. */
  ghost predicate SomeSet(flgptn: bv32, waiptn: bv32) { exists i: bv5 :: Bit(waiptn, i) && Bit(flgptn, i) }

  /** TWF_ANDW: every bit waited for is set. */
  ghost predicate EachSet(flgptn: bv32, waiptn: bv32) { forall i: bv5 :: Bit(waiptn, i) ==> Bit(flgptn, i) }

  /** What the two waiting modes mean. */
  lemma MetBitwise(flgptn: bv32, w: Want)
    ensures Met(flgptn, w) <==> if w.any then SomeSet(flgptn, w.waiptn) else EachSet(flgptn, w.waiptn)
  {
    if w.any { AnyBitwise(flgptn, w.waiptn); } else { AllBitwise(flgptn, w.waiptn); }
  }

  lemma AnyBitwise(p: bv32, w: bv32)
    ensures AnyBit(p, w) <==> SomeSet(p, w)
  {
    hide Bit, And, AnyBit;
    ByAnd(p, w);
    if AnyBit(p, w) {
      var i := Differing(And(p, w));
      Bits(p, w, i);
    }
    if SomeSet(p, w) {
      var i: bv5 :| Bit(w, i) && Bit(p, i);
      Bits(p, w, i);
      NoBits(i);
    }
  }

  lemma AllBitwise(p: bv32, w: bv32)
    ensures AllBits(p, w) <==> EachSet(p, w)
  {
    hide Bit, And, AllBits;
    ByAnd(p, w);
    if AllBits(p, w) {
      forall i: bv5 | Bit(w, i) ensures Bit(p, i) { Bits(p, w, i); }
    }
    if EachSet(p, w) {
      forall i: bv5 ensures Bit(And(p, w), i) <==> Bit(w, i) { Bits(p, w, i); }
      SameBits(And(p, w), w);
    }
  }

  // ---------------------------------------------------------------- calls

  /** A waiter's condition is met, in terms of bits. */
  ghost predicate Satisfied(flgptn: bv32, w: Waiter<Want>) {
    if w.item.any then SomeSet(flgptn, w.item.waiptn) else EachSet(flgptn, w.item.waiptn)
  }

  /** The pattern with the bits of both. */
  ghost predicate Joins(r: bv32, p: bv32, q: bv32) { forall i: bv5 :: Bit(r, i) <==> Bit(p, i) || Bit(q, i) }

  ghost predicate Overlaps(r: bv32, p: bv32, q: bv32) { forall i: bv5 :: Bit(r, i) <==> Bit(p, i) && Bit(q, i) }

  /** set_flg adds the bits to the pattern; with TA_CLR, if that satisfies anybody, no bit is left. */
  lemma SetBits(s: Flag, setptn: bv32) returns (ptn: bv32)
    ensures Joins(ptn, s.flgptn, setptn)
    ensures var r := Step(s, Set(setptn));
            r.flgptn == if s.clear && exists i :: 0 <= i < |s.waiters| && Satisfied(ptn, s.waiters[i]) then 0 else ptn
  {
    hide Or, And, Met, Sift, Drop, Releases, FirstMet, SomeSet, EachSet;
    ptn := Or(s.flgptn, setptn);
    forall i: bv5 ensures Bit(ptn, i) <==> Bit(s.flgptn, i) || Bit(setptn, i) { Bits(s.flgptn, setptn, i); }
    forall i | 0 <= i < |s.waiters| ensures Satisfied(ptn, s.waiters[i]) <==> Met(ptn, s.waiters[i].item) { MetBitwise(ptn, s.waiters[i].item); }
    FirstIs(s.waiters, ptn);
  }

  lemma FirstIs(q: seq<Waiter<Want>>, flgptn: bv32)
    ensures var i := FirstMet(q, flgptn); 0 <= i <= |q| && (i < |q| ==> Met(flgptn, q[i].item)) && forall j :: 0 <= j < i ==> !Met(flgptn, q[j].item)
  {
  }

  /** clr_flg leaves the bits that are in both. */
  lemma ClearBits(s: Flag, clrptn: bv32)
    ensures var r := Step(s, Clear(clrptn)); Overlaps(r.flgptn, s.flgptn, clrptn) && r == s.(flgptn := r.flgptn)
  {
    hide And;
    forall i: bv5 ensures Bit(And(s.flgptn, clrptn), i) <==> Bit(s.flgptn, i) && Bit(clrptn, i) { Bits(s.flgptn, clrptn, i); }
  }

  /** wai_flg and pol_flg answer with the pattern iff the condition holds; with TA_CLR no bit is left. A
      task whose condition does not hold waits, or is refused, and the pattern stays. */
  lemma WaitBits(s: Flag, w: Waiter<Want>, wait: bool)
    ensures var r, a := Step(s, Wait(w, wait)), Answer(s, Wait(w, wait));
            && (a.BadParameter? <==> w.item.waiptn == 0)
            && (a.IllegalUse? <==> w.item.waiptn != 0 && !s.multi && s.waiters != [])
            && (a.Got? <==> w.item.waiptn != 0 && (s.multi || s.waiters == []) && Satisfied(s.flgptn, w))
            && (a.Got? ==> a.flgptn == s.flgptn && r == s.(flgptn := if s.clear then 0 else s.flgptn))
            && (!a.Got? ==> r == s.(waiters := r.waiters))
            && (a.Waits? ==> wait && |r.waiters| == |s.waiters| + 1 && w in r.waiters)
            && (!a.Waits? ==> r.waiters == s.waiters)
  {
    hide Met, SomeSet, EachSet, PlaceOf;
    MetBitwise(s.flgptn, w.item);
  }

  // ---------------------------------------------------------------- who is released

  /** The waiters of `q` at the places `at`, in this order. */
  ghost predicate Chosen(q: seq<Waiter<Want>>, at: seq<nat>, r: seq<Waiter<Want>>) {
    && |r| == |at| && (forall i :: 0 <= i < |at| ==> at[i] < |q| && r[i] == q[at[i]])
    && forall i, j :: 0 <= i < j < |at| ==> at[i] < at[j]
  }

  /** Places in the rest of a queue are one further on in the queue. */
  lemma ChosenLater(q: seq<Waiter<Want>>, rest: seq<nat>, r: seq<Waiter<Want>>, first: bool) returns (at: seq<nat>)
    requires q != [] && Chosen(q[1..], rest, r)
    ensures Chosen(q, at, (if first then [q[0]] else []) + r)
    ensures forall k: nat :: k in at <==> if k == 0 then first else k - 1 in rest
  {
    hide Met;
    var later := seq(|rest|, i requires 0 <= i < |rest| => rest[i] + 1);
    at := (if first then [0] else []) + later;
    forall k: nat | k > 0 ensures k in later <==> k - 1 in rest {
      if k - 1 in rest { var i :| 0 <= i < |rest| && rest[i] == k - 1; assert later[i] == k; }
      if k in later { var i :| 0 <= i < |later| && later[i] == k; assert rest[i] == k - 1; }
    }
    assert 0 !in later;
  }

  /** Sifting takes all those satisfied, or all others, in the order of the queue. */
  lemma {:induction false} SiftChooses(q: seq<Waiter<Want>>, flgptn: bv32, met: bool) returns (at: seq<nat>)
    ensures Chosen(q, at, Sift(q, flgptn, met))
    ensures forall k: nat :: k < |q| ==> (k in at <==> Met(flgptn, q[k].item) == met)
  {
    hide Met, Chosen;
    if q == [] {
      at := [];
      NoneChosen();
    } else {
      var rest := SiftChooses(q[1..], flgptn, met);
      at := ChosenLater(q, rest, Sift(q[1..], flgptn, met), Met(flgptn, q[0].item) == met);
      forall k: nat | k < |q| ensures k in at <==> Met(flgptn, q[k].item) == met {
        if k > 0 { assert q[k] == q[1..][k - 1]; }
      }
    }
  }

  lemma NoneChosen()
    ensures Chosen([], [], [])
  {
  }

  /** Without TA_CLR set_flg releases exactly the tasks whose condition holds, in the order of the queue,
      each with the new pattern; the others go on waiting in their order. */
  lemma SetReleases(s: Flag, setptn: bv32) returns (ptn: bv32, out: seq<nat>, stay: seq<nat>)
    requires !s.clear
    ensures var r := Step(s, Set(setptn));
            && r.flgptn == ptn && Joins(ptn, s.flgptn, setptn) && Chosen(s.waiters, stay, r.waiters)
            && (forall k :: 0 <= k < |s.waiters| ==> (k in out <==> Satisfied(ptn, s.waiters[k])) && (k in stay <==> !Satisfied(ptn, s.waiters[k])))
            && |r.released| == |s.released| + |out| && r.released[..|s.released|] == s.released
            && (forall i :: 0 <= i < |out| ==> out[i] < |s.waiters| && r.released[|s.released| + i] == (s.waiters[out[i]].tid, ptn))
            && forall i, j :: 0 <= i < j < |out| ==> out[i] < out[j]
  {
    hide Or, And, Met, Sift, SomeSet, EachSet;
    ptn := SetBits(s, setptn);
    out := SiftChooses(s.waiters, ptn, true);
    stay := SiftChooses(s.waiters, ptn, false);
    forall k | 0 <= k < |s.waiters| ensures Satisfied(ptn, s.waiters[k]) <==> Met(ptn, s.waiters[k].item) { MetBitwise(ptn, s.waiters[k].item); }
  }

  /** With TA_CLR it releases the first such task only, which takes the pattern with it. */
  lemma SetReleasesOne(s: Flag, setptn: bv32) returns (ptn: bv32, i: nat)
    requires s.clear
    ensures Joins(ptn, s.flgptn, setptn) && i <= |s.waiters|
    ensures (forall j :: 0 <= j < i ==> !Satisfied(ptn, s.waiters[j])) && (i < |s.waiters| ==> Satisfied(ptn, s.waiters[i]))
    ensures var r := Step(s, Set(setptn));
            if i == |s.waiters| then r == s.(flgptn := ptn)
            else r == s.(flgptn := 0, waiters := s.waiters[..i] + s.waiters[i + 1..], released := s.released + [(s.waiters[i].tid, ptn)])
  {
    hide Or, And, Met, Sift, Releases, FirstMet, SomeSet, EachSet;
    ptn := Or(s.flgptn, setptn);
    forall b: bv5 ensures Bit(ptn, b) <==> Bit(s.flgptn, b) || Bit(setptn, b) { Bits(s.flgptn, setptn, b); }
    i := FirstMet(s.waiters, ptn);
    FirstIs(s.waiters, ptn);
    forall k | 0 <= k < |s.waiters| ensures Satisfied(ptn, s.waiters[k]) <==> Met(ptn, s.waiters[k].item) { MetBitwise(ptn, s.waiters[k].item); }
  }

  // ---------------------------------------------------------------- runs without TA_CLR

  /** What the last of the first `n` calls that names the bit makes of it: set_flg names the bits of its
      pattern and sets them, clr_flg the others and clears them, ini_flg names all. */
  ghost function LastWord(calls: seq<FlagCall>, n: nat, i: bv5, initial: bv32): bool
    requires n <= |calls|
  {
    if n == 0 then Bit(initial, i)
    else
      match calls[n - 1]
      case Set(setptn) => Bit(setptn, i) || LastWord(calls, n - 1, i, initial)
      case Clear(clrptn) => Bit(clrptn, i) && LastWord(calls, n - 1, i, initial)
      case Init => Bit(initial, i)
      case _ => LastWord(calls, n - 1, i, initial)
  }

  /** In every run of a flag without TA_CLR a bit is set iff the last call that names it set it. */
  lemma {:induction false} BitsOfRun(ss: seq<Flag>, calls: seq<FlagCall>, n: nat, i: bv5)
    requires IsRun(ss, calls) && n < |ss| && !ss[0].clear && ss[0].flgptn == ss[0].initial
    ensures !ss[n].clear && ss[n].initial == ss[0].initial
    ensures Bit(ss[n].flgptn, i) <==> LastWord(calls, n, i, ss[0].initial)
  {
    hide Bit;
    if n > 0 {
      BitsOfRun(ss, calls, n - 1, i);
      assert ss[n] == Step(ss[n - 1], calls[n - 1]);
      BitsOfStep(ss[n - 1], calls[n - 1], i);
    }
  }

  lemma BitsOfStep(s: Flag, call: FlagCall, i: bv5)
    requires !s.clear
    ensures var r := Step(s, call);
            && !r.clear && r.initial == s.initial
            && (Bit(r.flgptn, i) <==>
                match call
                case Set(setptn) => Bit(setptn, i) || Bit(s.flgptn, i)
                case Clear(clrptn) => Bit(clrptn, i) && Bit(s.flgptn, i)
                case Init => Bit(s.initial, i)
                case _ => Bit(s.flgptn, i))
  {
    hide Bit, Met, Sift, Releases, Enter, Drop, Reordered, And, Or;
    match call
    case Set(setptn) => Bits(s.flgptn, setptn, i);
    case Clear(clrptn) => Bits(s.flgptn, clrptn, i);
    case _ =>
  }

  // ---------------------------------------------------------------- who waits

  /** What the calls other than set_flg are to the waiting tasks. */
  function WaiterTurn(s: Flag, call: FlagCall): Turns.Turn {
    match call
    case Wait(w, _) => if Answer(s, call).Waits? then Turns.Come(w.tid, Turns.EntryPlace(s.waiters, w.pri, s.byPri)) else Turns.Stay
    case GiveUp(i) => if i < |s.waiters| then Turns.Quit(i, 0) else Turns.Stay
    case Reprioritize(i, pri) => if i < |s.waiters| then Turns.Move(i, Turns.NewPlace(s.waiters, i, pri, s.byPri)) else Turns.Stay
    case Init => Turns.Clear
    case _ => Turns.Stay
  }

  /** Only set_flg ends waits by serving them; the other calls let tasks come, go and change places. */
  lemma OnlySetServes(s: Flag, call: FlagCall)
    requires !call.Set?
    ensures var r, t := Step(s, call), WaiterTurn(s, call);
            && Turns.Possible(|s.waiters|, t) && Turns.Tids(r.waiters) == Turns.After(Turns.Tids(s.waiters), t)
            && r.released == s.released && !t.Serve?
  {
    hide Turns.Tids, Met, Enter, Reordered, Drop, And, Or;
    match call
    case Wait(w, wait) => Turns.EnterTurn(s.waiters, w, s.byPri);
    case GiveUp(i) => if i < |s.waiters| { Turns.DropTurn(s.waiters, i); }
    case Reprioritize(i, pri) => if i < |s.waiters| { Turns.MoveTurn(s.waiters, i, pri, s.byPri); }
    case _ =>
  }
}
