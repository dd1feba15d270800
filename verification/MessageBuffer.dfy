/**
 Message buffers: stored messages in a ring, senders waiting for room and receivers waiting for a
 message.
 */
module MessageBuffer {
  import opened WaitQueue
  import opened Turns
  import opened MessageRing

  // ---------------------------------------------------------------- the protocol

  /** `received` and `woken` record what was delivered and which waits were completed, in order. */
  datatype Mbf = Mbf(size: nat, maxmsz: nat, byPri: bool,
                     stored: seq<Message>, senders: seq<Waiter<Message>>, receivers: seq<nat>,
                     received: seq<Message>, woken: seq<nat>)

  datatype MbfCall =
    | Send(w: Waiter<Message>, wait: bool)   // snd_mbf, tsnd_mbf; psnd_mbf if `wait` is false
    | Receive(tid: nat, wait: bool)          // rcv_mbf, trcv_mbf; prcv_mbf
    | GiveUp(i: nat)                         // the wait of the i-th sender ends any other way
    | Reprioritize(i: nat, pri: nat)         // the priority of the i-th sender changes
    | Desist(i: nat)                         // the wait of the i-th receiver ends any other way
    | Init                                   // ini_mbf

  datatype Reply = Done | Got(m: Message) | Waits | TimedOut | BadParameter

  /** The message fits in the free room. */
  predicate Fits(s: Mbf, m: Message) { Alloc(|m|) + Used(s.stored) <= s.size }

  /** messagebuf_signal. */
  function Signal(s: Mbf): Mbf
    decreases |s.senders|
  {
    if s.senders != [] && Fits(s, s.senders[0].item) then
      Signal(s.(stored := s.stored + [s.senders[0].item], senders := s.senders[1..], woken := s.woken + [s.senders[0].tid]))
    else s
  }

  predicate Sendable(s: Mbf, w: Waiter<Message>) { 0 < |w.item| <= s.maxmsz }

  function SendStep(s: Mbf, w: Waiter<Message>, wait: bool): Mbf {
    if !Sendable(s, w) then s
    else if s.receivers != [] then s.(receivers := s.receivers[1..], received := s.received + [w.item], woken := s.woken + [s.receivers[0]])
    else if s.senders == [] && Fits(s, w.item) then s.(stored := s.stored + [w.item])
    else if wait then s.(senders := Enter(s.senders, w, s.byPri))
    else s
  }

  function ReceiveStep(s: Mbf, tid: nat, wait: bool): Mbf {
    if s.stored != [] then Signal(s.(stored := s.stored[1..], received := s.received + [s.stored[0]]))
    else if s.senders != [] then
      s.(senders := s.senders[1..], received := s.received + [s.senders[0].item], woken := s.woken + [s.senders[0].tid])
    else if wait then s.(receivers := s.receivers + [tid])
    else s
  }

  function Step(s: Mbf, call: MbfCall): Mbf {
    match call
    case Send(w, wait) => SendStep(s, w, wait)
    case Receive(tid, wait) => ReceiveStep(s, tid, wait)
    case GiveUp(i) => if i < |s.senders| then Signal(s.(senders := Drop(s.senders, i))) else s
    case Reprioritize(i, pri) => if i < |s.senders| then s.(senders := Reordered(s.senders, i, pri, s.byPri)) else s
    case Desist(i) => if i < |s.receivers| then s.(receivers := Drop(s.receivers, i)) else s
    case Init => s.(stored := [], senders := [], receivers := [])
  }

  function Answer(s: Mbf, call: MbfCall): Reply {
    match call
    case Send(w, wait) =>
      if !Sendable(s, w) then BadParameter
      else if s.receivers != [] || (s.senders == [] && Fits(s, w.item)) then Done
      else if wait then Waits else TimedOut
    case Receive(tid, wait) =>
      if s.stored != [] then Got(s.stored[0])
      else if s.senders != [] then Got(s.senders[0].item)
      else if wait then Waits else TimedOut
    case _ => Done
  }

  // ---------------------------------------------------------------- invariants and order

  /** Stored and waiting messages, in the order they will be received. */
  function Pending(s: Mbf): seq<Message> { s.stored + Items(s.senders) }

  /** Waiting receivers mean that there is nothing to receive; the stored messages fit. */
  ghost predicate Consistent(s: Mbf) {
    && Used(s.stored) <= s.size
    && (s.receivers != [] ==> s.stored == [] && s.senders == [])
    && (forall i :: 0 <= i < |s.stored| ==> 0 < |s.stored[i]| <= s.maxmsz)
    && forall i :: 0 <= i < |s.senders| ==> Sendable(s, s.senders[i])
  }

  lemma {:induction false} UsedAppend(ms: seq<Message>, m: Message)
    ensures Used(ms + [m]) == Used(ms) + Alloc(|m|)
  {
    if ms == [] {
      assert ms + [m] == [m];
    } else {
      assert (ms + [m])[1..] == ms[1..] + [m];
      UsedAppend(ms[1..], m);
    }
  }

  /** Signalling stores the messages of the first `k` senders. */
  ghost predicate LetIn(s: Mbf, r: Mbf, k: nat) {
    && k <= |s.senders|
    && r == s.(stored := s.stored + Items(s.senders)[..k], senders := s.senders[k..], woken := r.woken)
    && Consistent(r) && (r.senders == [] || !Fits(r, r.senders[0].item))
  }

  lemma MoreLetIn(q: seq<Waiter<Message>>, j: nat)
    requires j < |q|
    ensures forall a: seq<Message> :: (a + [q[0].item]) + Items(q[1..])[..j] == a + Items(q)[..j + 1]
    ensures q[1..][j..] == q[j + 1..]
  {
    assert Items(q)[..j + 1] == [q[0].item] + Items(q[1..])[..j];
  }

  lemma {:induction false} SignalLetsIn(s: Mbf) returns (k: nat)
    requires Consistent(s)
    ensures LetIn(s, Signal(s), k)
    decreases |s.senders|
  {
    hide RoundUp, Alloc;
    if s.senders != [] && Fits(s, s.senders[0].item) {
      var t := s.(stored := s.stored + [s.senders[0].item], senders := s.senders[1..], woken := s.woken + [s.senders[0].tid]);
      UsedAppend(s.stored, s.senders[0].item);
      assert t.receivers == [];
      var j := SignalLetsIn(t);
      k := j + 1;
      MoreLetIn(s.senders, j);
    } else {
      k := 0;
      assert s.senders == s.senders[0..] && s.stored == s.stored + Items(s.senders)[..0];
    }
  }

  /** Signalling lets waiting messages in without changing the order of anything, and goes on until the
      first waiting message does not fit. */
  lemma SignalKeepsOrder(s: Mbf)
    requires Consistent(s)
    ensures var r := Signal(s);
            && Consistent(r) && Pending(r) == Pending(s)
            && (r.senders == [] || !Fits(r, r.senders[0].item))
            && r == s.(stored := r.stored, senders := r.senders, woken := r.woken)
  {
    hide RoundUp, Alloc, Consistent, Signal;
    var k := SignalLetsIn(s);
    var r := Signal(s);
    assert r.stored == s.stored + Items(s.senders)[..k] && r.senders == s.senders[k..];
    assert Items(s.senders[k..]) == Items(s.senders)[k..];
    assert Pending(r) == s.stored + (Items(s.senders)[..k] + Items(s.senders)[k..]);
  }

  lemma SentConsistent(s: Mbf, w: Waiter<Message>, wait: bool)
    requires Consistent(s)
    ensures Consistent(SendStep(s, w, wait))
  {
    hide RoundUp, Alloc, Used, Enter;
    UsedAppend(s.stored, w.item);
    if Sendable(s, w) { EnteredItems(s, w); }
  }

  lemma ReceivedConsistent(s: Mbf, tid: nat, wait: bool)
    requires Consistent(s)
    ensures Consistent(ReceiveStep(s, tid, wait))
  {
    hide RoundUp, Alloc, Signal;
    if s.stored != [] {
      SignalKeepsOrder(s.(stored := s.stored[1..], received := s.received + [s.stored[0]]));
    }
  }

  lemma ReorderedConsistent(s: Mbf, i: nat, pri: nat)
    requires Consistent(s) && i < |s.senders|
    ensures Consistent(s.(senders := Reordered(s.senders, i, pri, s.byPri)))
  {
    hide RoundUp, Alloc, Used, Reordered;
    var r := s.(senders := Reordered(s.senders, i, pri, s.byPri));
    SameLength(s.senders, i, pri, s.byPri);
    forall j | 0 <= j < |r.senders| ensures Sendable(r, r.senders[j]) {
      var k := ReorderedFrom(s.senders, i, pri, s.byPri, j);
      assert Sendable(s, s.senders[k]);
    }
  }

  lemma SameLength(q: seq<Waiter<Message>>, i: nat, pri: nat, byPri: bool)
    requires i < |q|
    ensures |Reordered(q, i, pri, byPri)| == |q|
  {
  }

  lemma ReceiversConsistent(s: Mbf, i: nat)
    requires Consistent(s)
    ensures i < |s.receivers| ==> Consistent(s.(receivers := Drop(s.receivers, i)))
  {
    hide RoundUp, Alloc, Used;
  }

  lemma EmptiedConsistent(s: Mbf)
    ensures Consistent(s.(stored := [], senders := [], receivers := []))
  {
  }

  /** Every call keeps the buffer consistent. */
  lemma StepConsistent(s: Mbf, call: MbfCall)
    requires Consistent(s)
    ensures Consistent(Step(s, call))
  {
    hide Consistent, Signal, Enter, Drop, Reordered, Sendable, Fits;
    match call
    case Send(w, wait) => SentConsistent(s, w, wait);
    case Receive(tid, wait) => ReceivedConsistent(s, tid, wait);
    case GiveUp(i) =>
      if i < |s.senders| {
        StillConsistent(s, i);
        SignalKeepsOrder(s.(senders := Drop(s.senders, i)));
      }
    case Reprioritize(i, pri) =>
      if i < |s.senders| { ReorderedConsistent(s, i, pri); }
    case Desist(i) => ReceiversConsistent(s, i);
    case Init => EmptiedConsistent(s);
  }

  lemma EnteredItems(s: Mbf, w: Waiter<Message>)
    requires Sendable(s, w) && forall i :: 0 <= i < |s.senders| ==> Sendable(s, s.senders[i])
    ensures var q := Enter(s.senders, w, s.byPri); forall i :: 0 <= i < |q| ==> Sendable(s, q[i])
  {
    var k, q := PlaceOf(s.senders, w.pri), Enter(s.senders, w, s.byPri);
    assert s.byPri ==> forall i :: 0 <= i < |q| ==> q[i] == if i < k then s.senders[i] else if i == k then w else s.senders[i - 1];
  }

  /** Everything received so far, then everything still to come. */
  function Flow(s: Mbf): seq<Message> { s.received + Pending(s) }

  /** What one call does to the messages accepted so far: a sending adds one at the end, a sender that
      gives up takes its own away, initialisation takes away what was not received. */
  function Ledger(s: Mbf, call: MbfCall, ledger: seq<Message>): seq<Message>
    requires |ledger| == |Flow(s)|
  {
    match call
    case Send(w, wait) => if Answer(s, call).Done? || Answer(s, call).Waits? then ledger + [w.item] else ledger
    case GiveUp(i) => if i < |s.senders| then Drop(ledger, |s.received| + |s.stored| + i) else ledger
    case Init => ledger[..|s.received|]
    case _ => ledger
  }

  lemma FlowReceived(s: Mbf)
    requires Consistent(s) && s.stored != []
    ensures var t := s.(stored := s.stored[1..], received := s.received + [s.stored[0]]);
            Consistent(t) && Flow(t) == Flow(s) && Flow(Signal(t)) == Flow(s) && Signal(t).received == t.received
  {
    hide Signal, RoundUp, Alloc;
    var t := s.(stored := s.stored[1..], received := s.received + [s.stored[0]]);
    SignalKeepsOrder(t);
    assert Pending(s) == [s.stored[0]] + Pending(t);
  }

  lemma FlowHandedOver(s: Mbf)
    requires s.stored == [] && s.senders != []
    ensures var r := s.(senders := s.senders[1..], received := s.received + [s.senders[0].item], woken := s.woken + [s.senders[0].tid]);
            Flow(r) == Flow(s)
    ensures Pending(s)[0] == s.senders[0].item
  {
    hide Used, RoundUp, Alloc;
    assert Items(s.senders) == [s.senders[0].item] + Items(s.senders[1..]);
    Shift(s.received, s.senders[0].item, Items(s.senders[1..]));
  }

  lemma Shift(a: seq<Message>, x: Message, b: seq<Message>)
    ensures a + ([] + ([x] + b)) == (a + [x]) + ([] + b)
  {
  }

  lemma ItemsDropped(q: seq<Waiter<Message>>, i: nat)
    requires i < |q|
    ensures Items(Drop(q, i)) == Drop(Items(q), i)
  {
  }

  lemma FlowGivenUp(s: Mbf, i: nat)
    requires Consistent(s) && i < |s.senders|
    ensures var t := s.(senders := Drop(s.senders, i));
            Consistent(t) && Flow(Signal(t)) == Drop(Flow(s), |s.received| + |s.stored| + i)
  {
    hide Signal, Used, RoundUp, Alloc, Items, Consistent;
    StillConsistent(s, i);
    var t := s.(senders := Drop(s.senders, i));
    SignalKeepsOrder(t);
    ItemsDropped(s.senders, i);
    DropBehindBoth(s.received, s.stored, Items(s.senders), i);
  }

  lemma StillConsistent(s: Mbf, i: nat)
    requires Consistent(s) && i < |s.senders|
    ensures Consistent(s.(senders := Drop(s.senders, i)))
  {
  }

  lemma DropBehindBoth(a: seq<Message>, b: seq<Message>, c: seq<Message>, i: nat)
    requires i < |c|
    ensures Drop(a + (b + c), |a| + |b| + i) == a + (b + Drop(c, i))
  {
    DropBehind(b, c, i);
    DropBehind(a, b + c, |b| + i);
  }

  /** A first-come-first-served buffer is one queue of messages, whatever waits where. */
  lemma FifoStep(s: Mbf, call: MbfCall)
    requires Consistent(s) && !s.byPri
    ensures Flow(Step(s, call)) == Ledger(s, call, Flow(s))
    ensures call.Receive? && Pending(s) != [] ==>
      Answer(s, call) == Got(Pending(s)[0]) && Step(s, call).received == s.received + [Pending(s)[0]]
  {
    hide Consistent, Signal, RoundUp, Alloc, Items, Drop, Reordered, Fits;
    var r := Step(s, call);
    match call
    case Send(w, wait) => FlowSent(s, w, wait);
    case Receive(tid, wait) =>
      if s.stored != [] {
        FlowReceived(s);
      } else if s.senders != [] {
        FlowHandedOver(s);
      }
    case GiveUp(i) =>
      if i < |s.senders| { FlowGivenUp(s, i); }
    case Reprioritize(i, pri) =>
      if i < |s.senders| { ReorderedItems(s.senders, i, pri); }
    case Desist(i) =>
    case Init =>
      assert Flow(s)[..|s.received|] == s.received;
  }

  lemma FlowSent(s: Mbf, w: Waiter<Message>, wait: bool)
    requires Consistent(s) && !s.byPri
    ensures Flow(SendStep(s, w, wait)) == Ledger(s, Send(w, wait), Flow(s))
  {
    hide RoundUp, Alloc, Used, Items, Drop, Sendable;
    var r := SendStep(s, w, wait);
    if Sendable(s, w) && s.receivers == [] && !(s.senders == [] && Fits(s, w.item)) && wait {
      assert Items(r.senders) == Items(s.senders) + [w.item];
    }
  }

  // ---------------------------------------------------------------- all runs

  function Empty(size: nat, maxmsz: nat, byPri: bool): Mbf {
    Mbf(size, maxmsz, byPri, [], [], [], [], [])
  }

  ghost predicate IsRun(ss: seq<Mbf>, calls: seq<MbfCall>, size: nat, maxmsz: nat, byPri: bool) {
    && |ss| == |calls| + 1 && ss[0] == Empty(size, maxmsz, byPri)
    && forall i {:trigger calls[i]} :: 0 <= i < |calls| ==> ss[i + 1] == Step(ss[i], calls[i])
  }

  lemma {:induction false} RunConsistent(ss: seq<Mbf>, calls: seq<MbfCall>, size: nat, maxmsz: nat, byPri: bool, n: nat)
    requires IsRun(ss, calls, size, maxmsz, byPri) && n < |ss|
    ensures Consistent(ss[n]) && ss[n].size == size && ss[n].maxmsz == maxmsz && ss[n].byPri == byPri
  {
    if n > 0 {
      RunConsistent(ss, calls, size, maxmsz, byPri, n - 1);
      StepConsistent(ss[n - 1], calls[n - 1]);
      StepKeepsShape(ss[n - 1], calls[n - 1]);
      assert ss[n] == Step(ss[n - 1], calls[n - 1]);
    }
  }

  lemma StepKeepsShape(s: Mbf, call: MbfCall)
    requires Consistent(s)
    ensures var r := Step(s, call); r.size == s.size && r.maxmsz == s.maxmsz && r.byPri == s.byPri
  {
    if call.Receive? && s.stored != [] {
      SignalKeepsOrder(s.(stored := s.stored[1..], received := s.received + [s.stored[0]]));
    } else if call.GiveUp? && call.i < |s.senders| {
      SignalKeepsOrder(s.(senders := Drop(s.senders, call.i)));
    }
  }

  /** The messages accepted in the first `n` calls of a run and not taken back. */
  ghost function Accepted(ss: seq<Mbf>, calls: seq<MbfCall>, n: nat): seq<Message>
    requires n < |ss| == |calls| + 1
  {
    if n == 0 then []
    else
      var before := Accepted(ss, calls, n - 1);
      if |before| == |Flow(ss[n - 1])| then Ledger(ss[n - 1], calls[n - 1], before) else []
  }

  /** In every run of a first-come-first-served buffer, what was received followed by what is stored
      and what waits is exactly what was accepted, in that order. */
  lemma {:induction false} FifoRun(ss: seq<Mbf>, calls: seq<MbfCall>, size: nat, maxmsz: nat, n: nat)
    requires IsRun(ss, calls, size, maxmsz, false) && n < |ss|
    ensures Flow(ss[n]) == Accepted(ss, calls, n)
  {
    hide Items, Reordered, Used;
    if n > 0 {
      FifoRun(ss, calls, size, maxmsz, n - 1);
      RunConsistent(ss, calls, size, maxmsz, false, n - 1);
      FifoStep(ss[n - 1], calls[n - 1]);
      assert ss[n] == Step(ss[n - 1], calls[n - 1]);
    }
  }

  // ---------------------------------------------------------------- no sender waits in vain

  /** The first waiting message does not fit. */
  predicate NoneInVain(s: Mbf) { s.senders == [] || !Fits(s, s.senders[0].item) }

  /** Nothing wastes room in any run of a buffer of these sizes. */
  ghost predicate NeverInVain(size: nat, maxmsz: nat, byPri: bool) {
    forall ss: seq<Mbf>, calls: seq<MbfCall>, n: nat :: IsRun(ss, calls, size, maxmsz, byPri) && n < |ss| ==> NoneInVain(ss[n])
  }

  /** The area holds no message at all, or one of maximum size; with TA_TPRI, moreover, all messages take
      the same room or no two fit. */
  predicate SafeSizes(size: nat, maxmsz: nat, byPri: bool) {
    || size < Alloc(1)
    || (size >= Alloc(maxmsz) && (byPri ==> maxmsz <= WORD_SIZE || size < 2 * Alloc(1)))
  }

  lemma AllocMonotone(x: nat, y: nat)
    requires x <= y
    ensures Alloc(x) <= Alloc(y)
  {
  }

  /** While a sender waits, an area of safe sizes has no room for any message that could overtake it. */
  lemma NothingFits(s: Mbf, w: Waiter<Message>)
    requires Consistent(s) && NoneInVain(s) && SafeSizes(s.size, s.maxmsz, true) && s.senders != [] && Sendable(s, w)
    ensures !Fits(s, w.item)
  {
    AllocMonotone(1, |w.item|);
    AllocMonotone(|s.senders[0].item|, s.maxmsz);
    if s.stored != [] { AllocMonotone(1, |s.stored[0]|); }
  }

  lemma SameRoom(s: Mbf, r: Mbf)
    requires r.size == s.size && r.stored == s.stored
    ensures forall m :: Fits(r, m) <==> Fits(s, m)
  {
  }

  lemma SentNotInVain(s: Mbf, w: Waiter<Message>, wait: bool)
    requires Consistent(s) && NoneInVain(s) && SafeSizes(s.size, s.maxmsz, s.byPri)
    ensures NoneInVain(SendStep(s, w, wait))
  {
    hide SafeSizes, Alloc, Used;
    if s.senders != [] && Sendable(s, w) && s.byPri { NothingFits(s, w); }
  }

  lemma ReceivedNotInVain(s: Mbf, tid: nat, wait: bool)
    requires Consistent(s) && NoneInVain(s) && SafeSizes(s.size, s.maxmsz, s.byPri)
    ensures NoneInVain(ReceiveStep(s, tid, wait))
  {
    hide Alloc, Signal;
    if s.stored != [] {
      SignalKeepsOrder(s.(stored := s.stored[1..], received := s.received + [s.stored[0]]));
    } else if s.senders != [] {
      AllocMonotone(|s.senders[0].item|, s.maxmsz);
      if |s.senders| > 1 {
        assert Sendable(s, s.senders[1]);
        AllocMonotone(1, |s.senders[1].item|);
      }
    }
  }

  lemma ReorderedNotInVain(s: Mbf, i: nat, pri: nat)
    requires Consistent(s) && NoneInVain(s) && SafeSizes(s.size, s.maxmsz, s.byPri) && i < |s.senders|
    ensures NoneInVain(s.(senders := Reordered(s.senders, i, pri, s.byPri)))
  {
    hide SafeSizes, Alloc, Used, RoundUp;
    var r := s.(senders := Reordered(s.senders, i, pri, s.byPri));
    if s.byPri {
      var k := ReorderedFrom(s.senders, i, pri, true, 0);
      assert Sendable(s, s.senders[k]);
      NothingFits(s, s.senders[k]);
    }
  }

  lemma StepNotInVain(s: Mbf, call: MbfCall)
    requires Consistent(s) && NoneInVain(s) && SafeSizes(s.size, s.maxmsz, s.byPri)
    ensures NoneInVain(Step(s, call))
  {
    hide Fits, Consistent, SafeSizes, Signal, Enter, Drop, Reordered;
    match call
    case Send(w, wait) => SentNotInVain(s, w, wait);
    case Receive(tid, wait) => ReceivedNotInVain(s, tid, wait);
    case GiveUp(i) =>
      if i < |s.senders| {
        StillConsistent(s, i);
        SignalKeepsOrder(s.(senders := Drop(s.senders, i)));
      }
    case Reprioritize(i, pri) =>
      if i < |s.senders| { ReorderedNotInVain(s, i, pri); }
    case Desist(i) => SameRoom(s, s.(receivers := if i < |s.receivers| then Drop(s.receivers, i) else s.receivers));
    case Init =>
  }

  lemma {:induction false} RunNotInVain(ss: seq<Mbf>, calls: seq<MbfCall>, size: nat, maxmsz: nat, byPri: bool, n: nat)
    requires IsRun(ss, calls, size, maxmsz, byPri) && n < |ss| && SafeSizes(size, maxmsz, byPri)
    ensures NoneInVain(ss[n])
  {
    if n > 0 {
      RunNotInVain(ss, calls, size, maxmsz, byPri, n - 1);
      RunConsistent(ss, calls, size, maxmsz, byPri, n - 1);
      StepNotInVain(ss[n - 1], calls[n - 1]);
      assert ss[n] == Step(ss[n - 1], calls[n - 1]);
    }
  }

  /** In a buffer that can hold some message but not the largest, a small message can be left waiting
      behind a large one that was handed over directly. */
  lemma LeftInVain(size: nat, maxmsz: nat, byPri: bool) returns (ss: seq<Mbf>, calls: seq<MbfCall>)
    requires Alloc(1) <= size < Alloc(maxmsz)
    ensures IsRun(ss, calls, size, maxmsz, byPri) && |ss| == 4 && !NoneInVain(ss[3])
  {
    var large, small := seq(maxmsz, _ => 0), [0];
    var a, b := Waiter(1, 0, large), Waiter(2, 0, small);
    AllocMonotone(1, maxmsz);
    calls := [Send(a, true), Send(b, true), Receive(3, true)];
    var s0 := Empty(size, maxmsz, byPri);
    var s1 := s0.(senders := [a]);
    var s2 := s0.(senders := [a, b]);
    var s3 := s0.(senders := [b], received := [large], woken := [1]);
    ss := [s0, s1, s2, s3];
    assert maxmsz >= 1;
    assert Enter([], a, byPri) == [a] && Enter([a], b, byPri) == [a, b];
    assert Step(s0, calls[0]) == s1;
    assert Step(s1, calls[1]) == s2;
    assert Step(s2, calls[2]) == s3 by { assert s2.senders[1..] == [b]; }
  }

  /** Small messages that fill an area up to less than one word short of `room`. */
  function Filling(room: nat): (ms: seq<Message>)
    requires room >= Alloc(1)
    ensures Used(ms) <= room < Used(ms) + WORD_SIZE
    ensures forall i :: 0 <= i < |ms| ==> 1 <= |ms[i]| <= WORD_SIZE + 1
  {
    if room < Alloc(1) + WORD_SIZE then [[0]]
    else if room < 2 * Alloc(1) then [[0, 0, 0, 0, 0]]
    else [[0]] + Filling(room - Alloc(1))
  }

  /** One more call. */
  lemma RunOn(ss: seq<Mbf>, calls: seq<MbfCall>, size: nat, maxmsz: nat, byPri: bool, call: MbfCall)
    requires IsRun(ss, calls, size, maxmsz, byPri)
    ensures IsRun(ss + [Step(ss[|calls|], call)], calls + [call], size, maxmsz, byPri)
  {
    var ss', calls' := ss + [Step(ss[|calls|], call)], calls + [call];
    forall i {:trigger calls'[i]} | 0 <= i < |calls'| ensures ss'[i + 1] == Step(ss'[i], calls'[i]) {
      assert i < |calls| ==> calls'[i] == calls[i];
    }
  }

  /** Messages that fit together can be stored one after the other. */
  lemma {:induction false} StoreAll(ms: seq<Message>, size: nat, maxmsz: nat, byPri: bool)
    returns (ss: seq<Mbf>, calls: seq<MbfCall>)
    requires Used(ms) <= size && forall i :: 0 <= i < |ms| ==> 1 <= |ms[i]| <= maxmsz
    ensures IsRun(ss, calls, size, maxmsz, byPri) && ss[|calls|] == Empty(size, maxmsz, byPri).(stored := ms)
  {
    hide Items, Enter, Used;
    if ms == [] {
      ss, calls := [Empty(size, maxmsz, byPri)], [];
    } else {
      var n := |ms| - 1;
      assert ms == ms[..n] + [ms[n]];
      UsedAppend(ms[..n], ms[n]);
      ss, calls := StoreAll(ms[..n], size, maxmsz, byPri);
      var call := Send(Waiter(1, 1, ms[n]), false);
      RunOn(ss, calls, size, maxmsz, byPri, call);
      ss, calls := ss + [Step(ss[|calls|], call)], calls + [call];
    }
  }

  /** In a TA_TPRI buffer that holds two messages, of which not all take the same room, a sender queued
      ahead by its priority can wait in vain. */
  lemma OvertakerInVain(size: nat, maxmsz: nat) returns (ss: seq<Mbf>, calls: seq<MbfCall>)
    requires size >= 2 * Alloc(1) && maxmsz > WORD_SIZE
    ensures IsRun(ss, calls, size, maxmsz, true) && !NoneInVain(ss[|calls|])
  {
    var ms := Filling(size - Alloc(1));
    ss, calls := StoreAll(ms, size, maxmsz, true);
    var a, b := Waiter(2, 2, seq(maxmsz, _ => 0)), Waiter(3, 1, [0]);
    var s1 := Empty(size, maxmsz, true).(stored := ms);
    AllocMonotone(WORD_SIZE + 1, maxmsz);
    assert Alloc(WORD_SIZE + 1) == Alloc(1) + WORD_SIZE;
    RunOn(ss, calls, size, maxmsz, true, Send(a, true));
    assert Enter([], a, true) == [a];
    assert Step(s1, Send(a, true)) == s1.(senders := [a]);
    ss, calls := ss + [s1.(senders := [a])], calls + [Send(a, true)];
    RunOn(ss, calls, size, maxmsz, true, Send(b, true));
    assert Enter([a], b, true) == [b, a];
    assert Step(s1.(senders := [a]), Send(b, true)) == s1.(senders := [b, a]);
    ss, calls := ss + [s1.(senders := [b, a])], calls + [Send(b, true)];
  }

  /** Exactly the sizes for which no sender ever waits in vain, for both attributes. */
  lemma InVainExactly(size: nat, maxmsz: nat, byPri: bool)
    ensures NeverInVain(size, maxmsz, byPri) <==> SafeSizes(size, maxmsz, byPri)
  {
    hide NoneInVain, Alloc;
    if SafeSizes(size, maxmsz, byPri) {
      forall ss: seq<Mbf>, calls: seq<MbfCall>, n: nat | IsRun(ss, calls, size, maxmsz, byPri) && n < |ss|
        ensures NoneInVain(ss[n])
      {
        RunNotInVain(ss, calls, size, maxmsz, byPri, n);
      }
    } else if size < Alloc(maxmsz) {
      var ss, calls := LeftInVain(size, maxmsz, byPri);
      assert IsRun(ss, calls, size, maxmsz, byPri) && 3 < |ss| && !NoneInVain(ss[3]);
    } else {
      var ss, calls := OvertakerInVain(size, maxmsz);
      assert IsRun(ss, calls, size, maxmsz, byPri) && |calls| < |ss| && !NoneInVain(ss[|calls|]);
    }
  }

  /** A TA_TPRI queue of senders is in order of priority. */
  ghost predicate InOrder(s: Mbf) { s.byPri ==> ByPriority(s.senders) }

  lemma {:induction false} SignalInOrder(s: Mbf)
    ensures Signal(s).byPri == s.byPri && (ByPriority(s.senders) ==> ByPriority(Signal(s).senders))
    decreases |s.senders|
  {
    hide ByPriority, Fits;
    if s.senders != [] && Fits(s, s.senders[0].item) {
      if ByPriority(s.senders) { RestByPriority(s.senders, 1); }
      SignalInOrder(s.(stored := s.stored + [s.senders[0].item], senders := s.senders[1..], woken := s.woken + [s.senders[0].tid]));
    }
  }

  lemma StepInOrder(s: Mbf, call: MbfCall)
    requires InOrder(s)
    ensures InOrder(Step(s, call))
  {
    hide ByPriority, Enter, Reordered, Drop, Signal, Fits;
    NoneInOrder<Message>();
    match call
    case Send(w, wait) =>
      if s.byPri { StaysByPriority(s.senders, w, 0); }
    case Receive(tid, wait) =>
      if s.stored != [] {
        SignalInOrder(s.(stored := s.stored[1..], received := s.received + [s.stored[0]]));
      } else if s.senders != [] && s.byPri {
        RestByPriority(s.senders, 1);
      }
    case GiveUp(i) =>
      if i < |s.senders| {
        if s.byPri { StaysByPriority(s.senders, s.senders[0], i); }
        SignalInOrder(s.(senders := Drop(s.senders, i)));
      }
    case Reprioritize(i, pri) =>
      if i < |s.senders| && s.byPri { ReorderedByPriority(s.senders, i, pri); }
    case _ =>
  }

  /** In every run a TA_TPRI queue keeps its senders in order of priority, whatever priorities change. */
  lemma {:induction false} SendersInOrder(ss: seq<Mbf>, calls: seq<MbfCall>, size: nat, maxmsz: nat, byPri: bool, n: nat)
    requires IsRun(ss, calls, size, maxmsz, byPri) && n < |ss|
    ensures InOrder(ss[n])
  {
    hide Step;
    if n > 0 {
      SendersInOrder(ss, calls, size, maxmsz, byPri, n - 1);
      StepInOrder(ss[n - 1], calls[n - 1]);
      assert ss[n] == Step(ss[n - 1], calls[n - 1]);
    }
  }

  // ---------------------------------------------------------------- whose turn it is

  /** What a call is to the waiting receivers: whoever has waited longest gets the message. */
  function ReceiverTurn(s: Mbf, call: MbfCall): Turn {
    match call
    case Send(_, _) => if Answer(s, call).Done? && s.receivers != [] then Serve(1) else Stay
    case Receive(tid, _) => if Answer(s, call).Waits? then Come(tid, |s.receivers|) else Stay
    case Desist(i) => if i < |s.receivers| then Quit(i, 0) else Stay
    case Init => Clear
    case _ => Stay
  }

  /** By how many senders fewer wait afterwards. */
  function Fewer(s: Mbf, call: MbfCall): nat {
    var n := |Step(s, call).senders|;
    if n < |s.senders| then |s.senders| - n else 0
  }

  /** What a call is to the waiting senders: when a message or a sender is gone, as many go on, from
      the first, as there is room for. */
  function SenderTurn(s: Mbf, call: MbfCall): Turn {
    match call
    case Send(w, _) => if Answer(s, call).Waits? then Come(w.tid, EntryPlace(s.senders, w.pri, s.byPri)) else Stay
    case Receive(_, _) => if Answer(s, call).Got? then Serve(Fewer(s, call)) else Stay
    case GiveUp(i) => if i < |s.senders| && Fewer(s, call) > 0 then Quit(i, Fewer(s, call) - 1) else Stay
    case Reprioritize(i, pri) => if i < |s.senders| then Move(i, NewPlace(s.senders, i, pri, s.byPri)) else Stay
    case Init => Clear
    case _ => Stay
  }

  /** Signalling wakes those whose messages it stores. */
  lemma {:induction false} SignalWakes(s: Mbf)
    ensures var r, k := Signal(s), |s.senders| - |Signal(s).senders|;
            && 0 <= k <= |s.senders| && r.senders == s.senders[k..] && r.woken == s.woken + Tids(s.senders)[..k] && r.receivers == s.receivers
    decreases |s.senders|
  {
    hide RoundUp, Alloc, Used, Tids;
    if s.senders != [] && Fits(s, s.senders[0].item) {
      var t := s.(stored := s.stored + [s.senders[0].item], senders := s.senders[1..], woken := s.woken + [s.senders[0].tid]);
      SignalWakes(t);
      var j := |t.senders| - |Signal(t).senders|;
      TidsOnward(s.senders, j);
      assert s.woken + ([s.senders[0].tid] + Tids(t.senders)[..j]) == t.woken + Tids(t.senders)[..j];
    } else {
      assert s.senders == s.senders[0..] && s.woken == s.woken + Tids(s.senders)[..0];
    }
  }

  lemma TidsOnward(q: seq<Waiter<Message>>, j: nat)
    requires j < |q|
    ensures q[1..][j..] == q[j + 1..] && Tids(q)[..j + 1] == [q[0].tid] + Tids(q[1..])[..j]
  {
  }

  /** A call serves those whose turn it is, ends their waits, and hands a receiver the message sent. */
  ghost predicate TurnTaken(s: Mbf, call: MbfCall, r: Mbf) {
    var rt, st := ReceiverTurn(s, call), SenderTurn(s, call);
    && Possible(|s.receivers|, rt) && r.receivers == After(s.receivers, rt)
    && Possible(|s.senders|, st) && Tids(r.senders) == After(Tids(s.senders), st)
    && r.woken == s.woken + Served(s.receivers, rt) + Served(Tids(s.senders), st)
    && (rt.Serve? ==> call.Send? && r.received == s.received + [call.w.item])
    && (Answer(s, call).Got? ==> r.received == s.received + [Answer(s, call).m])
  }

  lemma SendTurn(s: Mbf, w: Waiter<Message>, wait: bool)
    requires Consistent(s)
    ensures TurnTaken(s, Send(w, wait), SendStep(s, w, wait))
  {
    hide Tids, Enter, RoundUp, Alloc, Used;
    var ws, q := s.woken, Tids(s.senders);
    assert ws + [] == ws;
    if !Sendable(s, w) {
    } else if s.receivers != [] {
      assert s.receivers[..1] == [s.receivers[0]];
    } else if s.senders == [] && Fits(s, w.item) {
    } else if wait {
      EnterTurn(s.senders, w, s.byPri);
    }
  }

  lemma ReceiveTurn(s: Mbf, tid: nat, wait: bool)
    requires Consistent(s)
    ensures TurnTaken(s, Receive(tid, wait), ReceiveStep(s, tid, wait))
  {
    hide Consistent, Tids, Signal, RoundUp, Alloc, Used;
    if s.stored != [] {
      StoredTurn(s, tid, wait);
    } else {
      var ws := s.woken;
      assert ws + [] == ws;
      LastPlace(s.receivers, tid);
      if s.senders != [] {
        RestTurn(s.senders, 1);
        FirstTid(s.senders);
      }
    }
  }

  lemma StoredTurn(s: Mbf, tid: nat, wait: bool)
    requires Consistent(s) && s.stored != []
    ensures TurnTaken(s, Receive(tid, wait), ReceiveStep(s, tid, wait))
  {
    hide Consistent, Tids, Signal, RoundUp, Alloc, Used;
    var ws := s.woken;
    assert ws + [] == ws;
    SignalWakes(s.(stored := s.stored[1..], received := s.received + [s.stored[0]]));
    StillReceived(s);
    RestTurn(s.senders, Fewer(s, Receive(tid, wait)));
  }

  lemma StillReceived(s: Mbf)
    requires Consistent(s) && s.stored != []
    ensures var t := s.(stored := s.stored[1..], received := s.received + [s.stored[0]]); Signal(t).received == t.received
  {
    hide Signal, RoundUp, Alloc, Used;
    FlowReceived(s);
  }

  lemma GiveUpTurn(s: Mbf, i: nat)
    ensures TurnTaken(s, GiveUp(i), Step(s, GiveUp(i)))
  {
    hide Tids, Signal, Drop, RoundUp, Alloc, Used;
    var ws := s.woken;
    assert ws + [] == ws;
    if i < |s.senders| {
      SignalWakes(s.(senders := Drop(s.senders, i)));
      DropTurn(s.senders, i);
      RestTurn(Drop(s.senders, i), Fewer(s, GiveUp(i)) - 1);
    }
  }

  lemma MovedTurn(s: Mbf, i: nat, pri: nat)
    ensures TurnTaken(s, Reprioritize(i, pri), Step(s, Reprioritize(i, pri)))
  {
    hide Tids, Reordered, Drop;
    var ws := s.woken;
    assert ws + [] == ws;
    if i < |s.senders| { MoveTurn(s.senders, i, pri, s.byPri); }
  }

  lemma DesistTurn(s: Mbf, i: nat)
    ensures TurnTaken(s, Desist(i), Step(s, Desist(i))) && TurnTaken(s, Init, Step(s, Init))
  {
    hide Drop;
    var ws := s.woken;
    assert ws + [] == ws;
  }

  /** Every call takes its turns. */
  lemma TurnStep(s: Mbf, call: MbfCall)
    requires Consistent(s)
    ensures TurnTaken(s, call, Step(s, call))
  {
    hide Consistent, TurnTaken, SendStep, ReceiveStep;
    match call
    case Send(w, wait) => SendTurn(s, w, wait);
    case Receive(tid, wait) => ReceiveTurn(s, tid, wait);
    case GiveUp(i) => GiveUpTurn(s, i);
    case Reprioritize(i, pri) => MovedTurn(s, i, pri);
    case Desist(i) => DesistTurn(s, i);
    case Init => DesistTurn(s, 0);
  }

  function ReceiverTurns(ss: seq<Mbf>, calls: seq<MbfCall>): (ts: seq<Turn>)
    requires |ss| == |calls| + 1
  {
    seq(|calls|, i requires 0 <= i < |calls| => ReceiverTurn(ss[i], calls[i]))
  }

  function SenderTurns(ss: seq<Mbf>, calls: seq<MbfCall>): (ts: seq<Turn>)
    requires |ss| == |calls| + 1
  {
    seq(|calls|, i requires 0 <= i < |calls| => SenderTurn(ss[i], calls[i]))
  }

  function ReceiverQueues(ss: seq<Mbf>): seq<seq<nat>> { seq(|ss|, i requires 0 <= i < |ss| => ss[i].receivers) }

  function SenderQueues(ss: seq<Mbf>): seq<seq<nat>> { seq(|ss|, i requires 0 <= i < |ss| => Tids(ss[i].senders)) }

  function Wakings(ss: seq<Mbf>): seq<seq<nat>> { seq(|ss|, i requires 0 <= i < |ss| => ss[i].woken) }

  /** In every run receivers and senders are served in turn, and exactly those served have been woken. */
  lemma InTurn(ss: seq<Mbf>, calls: seq<MbfCall>, size: nat, maxmsz: nat, byPri: bool)
    requires IsRun(ss, calls, size, maxmsz, byPri)
    ensures Duly(ReceiverQueues(ss), ReceiverTurns(ss, calls), SenderQueues(ss), SenderTurns(ss, calls), Wakings(ss))
  {
    hide Step, ReceiverTurn, SenderTurn, After, Possible, Served, Consistent, TurnTaken;
    forall i | 0 <= i < |calls| ensures TurnTaken(ss[i], calls[i], ss[i + 1]) {
      RunConsistent(ss, calls, size, maxmsz, byPri, i);
      TurnStep(ss[i], calls[i]);
      assert ss[i + 1] == Step(ss[i], calls[i]);
    }
    AllTaken(ss, calls);
  }

  lemma AllTaken(ss: seq<Mbf>, calls: seq<MbfCall>)
    requires |ss| == |calls| + 1 && ss[0].senders == [] && ss[0].receivers == [] && ss[0].woken == []
    requires forall i {:trigger calls[i]} :: 0 <= i < |calls| ==> TurnTaken(ss[i], calls[i], ss[i + 1])
    ensures Duly(ReceiverQueues(ss), ReceiverTurns(ss, calls), SenderQueues(ss), SenderTurns(ss, calls), Wakings(ss))
  {
    hide Step, ReceiverTurn, SenderTurn, After, Possible, Served;
  }

  // ---------------------------------------------------------------- the object

  class MessageBuffer {
    const ring: Ring
    const maxmsz: nat
    const byPri: bool                            // TA_TPRI
    var senders: seq<Waiter<Message>>            // swait_queue
    var receivers: seq<nat>                      // rwait_queue
    ghost var received: seq<Message>
    ghost var woken: seq<nat>

    ghost predicate Valid()
      reads this, ring, ring.buf
    {
      ring.Valid() && Consistent(Abs()) && maxmsz <= UINT_RANGE - 2 * WORD_SIZE
    }

    ghost function Abs(): Mbf
      reads this, ring
    {
      Mbf(ring.buf.Length, maxmsz, byPri, ring.messages, senders, receivers, received, woken)
    }

    constructor (size: nat, maxmsz: nat, byPri: bool)
      requires Aligned(size) && maxmsz <= UINT_RANGE - 2 * WORD_SIZE
      ensures Valid() && Abs() == Empty(size, maxmsz, byPri)
      ensures fresh(ring) && fresh(ring.buf)
    {
      ring := new Ring(size);
      this.maxmsz, this.byPri := maxmsz, byPri;
      senders, receivers, received, woken := [], [], [], [];
    }

    /** messagebuf_signal. */
    method MessagebufSignal()
      requires Valid()
      modifies this, ring, ring.buf
      ensures Valid() && Abs() == Signal(old(Abs()))
    {
      hide RoundUp, Alloc, Ring.Valid;
      ghost var start := Abs();
      while senders != []
        invariant Valid() && Signal(Abs()) == Signal(start)
        decreases |senders|
      {
        var w := senders[0];
        ghost var before := Abs();
        var stored := Accept(w.item);
        if stored {
          senders := senders[1..];
          woken := woken + [w.tid];
          assert Abs() == before.(stored := before.stored + [w.item], senders := before.senders[1..], woken := before.woken + [w.tid]);
        } else {
          break;
        }
      }
    }

    /** enqueue_message, seen from the whole object. */
    method Accept(m: Message) returns (stored: bool)
      requires ring.Valid() && Used(ring.messages) <= ring.buf.Length && |m| <= maxmsz <= UINT_RANGE - 2 * WORD_SIZE
      modifies ring, ring.buf
      ensures ring.Valid() && Used(ring.messages) <= ring.buf.Length && (stored <==> Fits(old(Abs()), m))
      ensures Abs() == if stored then old(Abs()).(stored := old(Abs()).stored + [m]) else old(Abs())
    {
      stored := ring.EnqueueMessage(m);
    }

    /** snd_mbf and tsnd_mbf if `wait`, psnd_mbf if not, around send_message. */
    method SndMbf(w: Waiter<Message>, wait: bool) returns (r: Reply)
      requires Valid()
      modifies this, ring, ring.buf
      ensures Valid() && Abs() == Step(old(Abs()), Send(w, wait)) && r == Answer(old(Abs()), Send(w, wait))
    {
      hide RoundUp, Alloc, Ring.Valid;
      StepConsistent(Abs(), Send(w, wait));
      if !(0 < |w.item| <= maxmsz) {
        return BadParameter;
      }
      if receivers != [] {
        received := received + [w.item];
        woken := woken + [receivers[0]];
        receivers := receivers[1..];
        return Done;
      }
      if senders == [] {
        var stored := Accept(w.item);
        if stored {
          return Done;
        }
      }
      if !wait {
        return TimedOut;
      }
      senders := Enter(senders, w, byPri);
      r := Waits;
    }

    /** rcv_mbf and trcv_mbf if `wait`, prcv_mbf if not, around receive_message. */
    method RcvMbf(tid: nat, wait: bool) returns (r: Reply)
      requires Valid()
      modifies this, ring, ring.buf
      ensures Valid() && Abs() == Step(old(Abs()), Receive(tid, wait)) && r == Answer(old(Abs()), Receive(tid, wait))
    {
      hide RoundUp, Alloc, Ring.Valid;
      StepConsistent(Abs(), Receive(tid, wait));
      Counted();
      if ring.count > 0 {
        r := TakeFirst();
        MessagebufSignal();
      } else if senders != [] {
        r := Got(senders[0].item);
        received := received + [senders[0].item];
        woken := woken + [senders[0].tid];
        senders := senders[1..];
      } else if wait {
        receivers := receivers + [tid];
        r := Waits;
      } else {
        r := TimedOut;
      }
    }

    lemma Counted()
      requires Valid()
      ensures ring.count == |ring.messages|
    {
    }

    /** dequeue_message, seen from the whole object. */
    method TakeFirst() returns (r: Reply)
      requires Valid() && ring.messages != []
      modifies ring, `received
      ensures Valid() && r == Got(old(ring.messages)[0])
      ensures Abs() == old(Abs()).(stored := old(Abs()).stored[1..], received := old(Abs()).received + [old(Abs()).stored[0]])
    {
      assert ring.count == |ring.messages|;
      ghost var before := ring.messages;
      var m := ring.DequeueMessage();
      assert ring.messages == before[1..];
      received := received + [m];
      r := Got(m);
    }

    /** The end of a sender's wait by timeout, release, termination or the like: messagebuf_dequeue_wobj. */
    method EndSenderWait(i: nat)
      requires Valid() && i < |senders|
      modifies this, ring, ring.buf
      ensures Valid() && Abs() == Step(old(Abs()), GiveUp(i))
    {
      senders := Drop(senders, i);
      MessagebufSignal();
    }

    /** A change of the priority of a waiting sender: wobj_change_priority. */
    method ChangePriority(i: nat, pri: nat)
      requires Valid() && i < |senders|
      modifies `senders
      ensures Valid() && Abs() == Step(old(Abs()), Reprioritize(i, pri))
    {
      hide Items;
      senders := Reordered(senders, i, pri, byPri);
    }

    method EndReceiverWait(i: nat)
      requires Valid() && i < |receivers|
      modifies this
      ensures Valid() && Abs() == Step(old(Abs()), Desist(i))
    {
      receivers := Drop(receivers, i);
    }

    /** ini_mbf. */
    method IniMbf()
      requires Valid()
      modifies this, ring
      ensures Valid() && Abs() == Step(old(Abs()), Init)
    {
      senders, receivers := [], [];
      ring.Clear();
    }
  }
}
