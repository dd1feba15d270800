/**
 Data queues: words in a ring, senders waiting for room, receivers waiting for data, and forced sending,
 which drops the oldest word of a full queue.
 */
module DataQueue {
  import opened WaitQueue
  import opened Turns

  // ---------------------------------------------------------------- the protocol

  /** `received` and `woken` record what was delivered and which waits were completed, in order. */
  datatype Dtq = Dtq(capacity: nat, byPri: bool, stored: seq<int>, senders: seq<Waiter<int>>, receivers: seq<nat>,
                     received: seq<int>, woken: seq<nat>)

  datatype DtqCall =
    | Send(w: Waiter<int>, wait: bool)   // snd_dtq, tsnd_dtq; psnd_dtq if `wait` is false
    | ForceSend(data: int)               // fsnd_dtq
    | Receive(tid: nat, wait: bool)      // rcv_dtq, trcv_dtq; prcv_dtq
    | GiveUp(i: nat)                     // the wait of the i-th sender ends any other way
    | Reprioritize(i: nat, pri: nat)     // the priority of the i-th sender changes
    | Desist(i: nat)                     // the wait of the i-th receiver ends any other way
    | Init                               // ini_dtq

  datatype Reply = Done | Got(data: int) | Waits | TimedOut | IllegalUse

  function HandTo(s: Dtq, data: int): Dtq
    requires s.receivers != []
  {
    s.(receivers := s.receivers[1..], received := s.received + [data], woken := s.woken + [s.receivers[0]])
  }

  function SendStep(s: Dtq, w: Waiter<int>, wait: bool): Dtq {
    if s.receivers != [] then HandTo(s, w.item)
    else if |s.stored| < s.capacity then s.(stored := s.stored + [w.item])
    else if wait then s.(senders := Enter(s.senders, w, s.byPri))
    else s
  }

  function ForceStep(s: Dtq, data: int): Dtq {
    if s.capacity == 0 then s
    else if s.receivers != [] then HandTo(s, data)
    else if |s.stored| < s.capacity then s.(stored := s.stored + [data])
    else if s.stored == [] then s
    else s.(stored := s.stored[1..] + [data])
  }

  function ReceiveStep(s: Dtq, tid: nat, wait: bool): Dtq {
    if s.stored != [] then
      var t := s.(stored := s.stored[1..], received := s.received + [s.stored[0]]);
      if s.senders == [] then t
      else t.(stored := t.stored + [s.senders[0].item], senders := s.senders[1..], woken := s.woken + [s.senders[0].tid])
    else if s.senders != [] then
      s.(senders := s.senders[1..], received := s.received + [s.senders[0].item], woken := s.woken + [s.senders[0].tid])
    else if wait then s.(receivers := s.receivers + [tid])
    else s
  }

  function Step(s: Dtq, call: DtqCall): Dtq {
    match call
    case Send(w, wait) => SendStep(s, w, wait)
    case ForceSend(data) => ForceStep(s, data)
    case Receive(tid, wait) => ReceiveStep(s, tid, wait)
    case GiveUp(i) => if i < |s.senders| then s.(senders := Drop(s.senders, i)) else s
    case Reprioritize(i, pri) => if i < |s.senders| then s.(senders := Reordered(s.senders, i, pri, s.byPri)) else s
    case Desist(i) => if i < |s.receivers| then s.(receivers := Drop(s.receivers, i)) else s
    case Init => s.(stored := [], senders := [], receivers := [])
  }

  function Answer(s: Dtq, call: DtqCall): Reply {
    match call
    case Send(w, wait) => if s.receivers != [] || |s.stored| < s.capacity then Done else if wait then Waits else TimedOut
    case ForceSend(data) => if s.capacity == 0 then IllegalUse else Done
    case Receive(tid, wait) =>
      if s.stored != [] then Got(s.stored[0])
      else if s.senders != [] then Got(s.senders[0].item)
      else if wait then Waits else TimedOut
    case _ => Done
  }

  // ---------------------------------------------------------------- invariants and order

  /** Waiting senders mean a full queue, waiting receivers mean nothing to receive. */
  ghost predicate Consistent(s: Dtq) {
    && |s.stored| <= s.capacity
    && (s.senders != [] ==> |s.stored| == s.capacity)
    && (s.receivers != [] ==> s.stored == [] && s.senders == [])
  }

  lemma StepConsistent(s: Dtq, call: DtqCall)
    requires Consistent(s)
    ensures Consistent(Step(s, call))
  {
  }

  /** Everything received so far, then the stored and the waiting data in the order they will be. */
  function Flow(s: Dtq): seq<int> { s.received + s.stored + Items(s.senders) }

  /** What one call does to the data accepted so far. A forced sending to a full queue takes out the
      oldest stored word and puts the new one behind the stored ones, before those still waiting. */
  function Ledger(s: Dtq, call: DtqCall, ledger: seq<int>): seq<int>
    requires |ledger| == |Flow(s)|
  {
    var gone := |s.received|;
    match call
    case Send(w, wait) => if Answer(s, call).TimedOut? then ledger else ledger + [w.item]
    case ForceSend(data) =>
      if s.capacity == 0 then ledger
      else if |s.stored| < s.capacity then ledger + [data]
      else if s.stored == [] then ledger
      else ledger[..gone] + ledger[gone + 1..gone + |s.stored|] + [data] + ledger[gone + |s.stored|..]
    case GiveUp(i) => if i < |s.senders| then Drop(ledger, gone + |s.stored| + i) else ledger
    case Init => ledger[..gone]
    case _ => ledger
  }

  lemma FlowForced(s: Dtq, data: int)
    requires Consistent(s)
    ensures Flow(ForceStep(s, data)) == Ledger(s, ForceSend(data), Flow(s))
  {
    var a, b, c := s.received, s.stored, Items(s.senders);
    if s.capacity > 0 && |b| == s.capacity {
      Pieces(a, b, c);
      assert Flow(ForceStep(s, data)) == a + (b[1..] + [data]) + c;
      assert a + (b[1..] + [data]) + c == a + b[1..] + [data] + c;
    }
  }

  lemma Pieces(a: seq<int>, b: seq<int>, c: seq<int>)
    requires b != []
    ensures var flow := a + b + c;
            flow[..|a|] == a && flow[|a| + 1..|a| + |b|] == b[1..] && flow[|a| + |b|..] == c
  {
  }

  lemma FlowReceived(s: Dtq, tid: nat, wait: bool)
    requires Consistent(s)
    ensures Flow(ReceiveStep(s, tid, wait)) == Flow(s)
  {
    var a, b, c := s.received, s.stored, Items(s.senders);
    if c != [] { assert Items(s.senders[1..]) == c[1..]; }
    if b != [] && c != [] {
      Regroup(a, b[0], b[1..], [c[0]], c[1..]);
      assert b == [b[0]] + b[1..] && c == [c[0]] + c[1..];
    } else if b != [] {
      Regroup(a, b[0], b[1..], [], c);
      assert b == [b[0]] + b[1..] && b[1..] + [] == b[1..];
    } else if c != [] {
      Regroup(a, c[0], [], [], c[1..]);
      assert c == [c[0]] + c[1..];
    }
  }

  lemma Regroup(a: seq<int>, x: int, b: seq<int>, y: seq<int>, c: seq<int>)
    ensures (a + [x]) + (b + y) + c == a + ([x] + b) + (y + c)
  {
  }

  lemma FlowGivenUp(s: Dtq, i: nat)
    requires i < |s.senders|
    ensures Flow(s.(senders := Drop(s.senders, i))) == Drop(Flow(s), |s.received| + |s.stored| + i)
  {
    assert Items(Drop(s.senders, i)) == Drop(Items(s.senders), i);
    DropBehind(s.received + s.stored, Items(s.senders), i);
  }

  lemma FlowSent(s: Dtq, w: Waiter<int>, wait: bool)
    requires Consistent(s) && !s.byPri
    ensures Flow(SendStep(s, w, wait)) == Ledger(s, Send(w, wait), Flow(s))
  {
    assert Items(s.senders + [w]) == Items(s.senders) + [w.item];
  }

  /** A first-come-first-served queue is one queue of data, whatever waits where. */
  lemma FifoStep(s: Dtq, call: DtqCall)
    requires Consistent(s) && !s.byPri
    ensures Flow(Step(s, call)) == Ledger(s, call, Flow(s))
    ensures call.Receive? && s.stored + Items(s.senders) != [] ==>
      var first := (s.stored + Items(s.senders))[0];
      Answer(s, call) == Got(first) && Step(s, call).received == s.received + [first]
  {
    match call
    case Send(w, wait) => FlowSent(s, w, wait);
    case ForceSend(data) => FlowForced(s, data);
    case Receive(tid, wait) => FlowReceived(s, tid, wait);
    case GiveUp(i) =>
      if i < |s.senders| { FlowGivenUp(s, i); }
    case Reprioritize(i, pri) =>
      if i < |s.senders| { ReorderedItems(s.senders, i, pri); }
    case Desist(i) =>
    case Init => assert Flow(s)[..|s.received|] == s.received;
  }

  function Empty(capacity: nat, byPri: bool): Dtq { Dtq(capacity, byPri, [], [], [], [], []) }

  ghost predicate IsRun(ss: seq<Dtq>, calls: seq<DtqCall>, capacity: nat, byPri: bool) {
    && |ss| == |calls| + 1 && ss[0] == Empty(capacity, byPri)
    && forall i {:trigger calls[i]} :: 0 <= i < |calls| ==> ss[i + 1] == Step(ss[i], calls[i])
  }

  lemma {:induction false} RunConsistent(ss: seq<Dtq>, calls: seq<DtqCall>, capacity: nat, byPri: bool, n: nat)
    requires IsRun(ss, calls, capacity, byPri) && n < |ss|
    ensures Consistent(ss[n]) && ss[n].capacity == capacity && ss[n].byPri == byPri
  {
    if n > 0 {
      RunConsistent(ss, calls, capacity, byPri, n - 1);
      StepConsistent(ss[n - 1], calls[n - 1]);
      assert ss[n] == Step(ss[n - 1], calls[n - 1]);
    }
  }

  /** The data accepted in the first `n` calls of a run and neither taken back nor dropped. */
  ghost function Accepted(ss: seq<Dtq>, calls: seq<DtqCall>, n: nat): seq<int>
    requires n < |ss| == |calls| + 1
  {
    if n == 0 then []
    else
      var before := Accepted(ss, calls, n - 1);
      if |before| == |Flow(ss[n - 1])| then Ledger(ss[n - 1], calls[n - 1], before) else []
  }

  /** In every run of a first-come-first-served queue, what was received followed by what is stored and
      what waits is exactly what was accepted, in that order. */
  lemma {:induction false} FifoRun(ss: seq<Dtq>, calls: seq<DtqCall>, capacity: nat, n: nat)
    requires IsRun(ss, calls, capacity, false) && n < |ss|
    ensures Flow(ss[n]) == Accepted(ss, calls, n)
  {
    if n > 0 {
      FifoRun(ss, calls, capacity, n - 1);
      RunConsistent(ss, calls, capacity, false, n - 1);
      FifoStep(ss[n - 1], calls[n - 1]);
      assert ss[n] == Step(ss[n - 1], calls[n - 1]);
    }
  }

  /** A TA_TPRI queue of senders is in order of priority. */
  ghost predicate InOrder(s: Dtq) { s.byPri ==> ByPriority(s.senders) }

  lemma StepInOrder(s: Dtq, call: DtqCall)
    requires InOrder(s)
    ensures InOrder(Step(s, call))
  {
    hide ByPriority, Enter, Reordered, Drop;
    if s.byPri {
      if call.Send? { StaysByPriority(s.senders, call.w, 0); }
      if call.Receive? && s.senders != [] { RestByPriority(s.senders, 1); }
      if call.GiveUp? && call.i < |s.senders| { StaysByPriority(s.senders, s.senders[0], call.i); }
      if call.Reprioritize? && call.i < |s.senders| { ReorderedByPriority(s.senders, call.i, call.pri); }
      NoneInOrder<int>();
    }
  }

  /** In every run a TA_TPRI queue keeps its senders in order of priority, whatever priorities change. */
  lemma {:induction false} SendersInOrder(ss: seq<Dtq>, calls: seq<DtqCall>, capacity: nat, byPri: bool, n: nat)
    requires IsRun(ss, calls, capacity, byPri) && n < |ss|
    ensures InOrder(ss[n])
  {
    hide Step;
    if n > 0 {
      SendersInOrder(ss, calls, capacity, byPri, n - 1);
      StepInOrder(ss[n - 1], calls[n - 1]);
      assert ss[n] == Step(ss[n - 1], calls[n - 1]);
    }
  }

  // ---------------------------------------------------------------- whose turn it is

  /** What a call is to the waiting receivers: whoever has waited longest gets the datum. */
  function ReceiverTurn(s: Dtq, call: DtqCall): Turn {
    match call
    case Send(_, _) => if Answer(s, call).Done? && s.receivers != [] then Serve(1) else Stay
    case ForceSend(_) => if Answer(s, call).Done? && s.receivers != [] then Serve(1) else Stay
    case Receive(tid, _) => if Answer(s, call).Waits? then Come(tid, |s.receivers|) else Stay
    case Desist(i) => if i < |s.receivers| then Quit(i, 0) else Stay
    case Init => Clear
    case _ => Stay
  }

  /** What a call is to the waiting senders: whenever a datum is received, the first of them goes on. */
  function SenderTurn(s: Dtq, call: DtqCall): Turn {
    match call
    case Send(w, _) => if Answer(s, call).Waits? then Come(w.tid, EntryPlace(s.senders, w.pri, s.byPri)) else Stay
    case Receive(_, _) => if Answer(s, call).Got? && s.senders != [] then Serve(1) else Stay
    case GiveUp(i) => if i < |s.senders| then Quit(i, 0) else Stay
    case Reprioritize(i, pri) => if i < |s.senders| then Move(i, NewPlace(s.senders, i, pri, s.byPri)) else Stay
    case Init => Clear
    case _ => Stay
  }

  /** A call serves those whose turn it is, ends their waits, and hands a receiver the datum sent. */
  ghost predicate TurnTaken(s: Dtq, call: DtqCall, r: Dtq) {
    var rt, st := ReceiverTurn(s, call), SenderTurn(s, call);
    && Possible(|s.receivers|, rt) && r.receivers == After(s.receivers, rt)
    && Possible(|s.senders|, st) && Tids(r.senders) == After(Tids(s.senders), st)
    && r.woken == s.woken + Served(s.receivers, rt) + Served(Tids(s.senders), st)
    && (rt.Serve? ==> (call.Send? || call.ForceSend?) && r.received == s.received + [if call.Send? then call.w.item else call.data])
    && (Answer(s, call).Got? ==> r.received == s.received + [Answer(s, call).data])
  }

  lemma SendTurn(s: Dtq, w: Waiter<int>, wait: bool)
    requires Consistent(s)
    ensures TurnTaken(s, Send(w, wait), SendStep(s, w, wait))
  {
    hide Tids, Enter;
    var ws, q := s.woken, Tids(s.senders);
    assert ws + [] == ws;
    if s.receivers != [] {
      assert s.receivers[..1] == [s.receivers[0]];
    } else if |s.stored| < s.capacity {
    } else if wait {
      EnterTurn(s.senders, w, s.byPri);
    }
  }

  lemma ReceiveTurn(s: Dtq, tid: nat, wait: bool)
    requires Consistent(s)
    ensures TurnTaken(s, Receive(tid, wait), ReceiveStep(s, tid, wait))
  {
    hide Tids;
    var ws := s.woken;
    assert ws + [] == ws;
    if s.senders != [] {
      RestTurn(s.senders, 1);
      FirstTid(s.senders);
    }
    LastPlace(s.receivers, tid);
  }

  lemma ForceTurn(s: Dtq, data: int)
    requires Consistent(s)
    ensures TurnTaken(s, ForceSend(data), ForceStep(s, data))
  {
    hide Tids;
    var ws := s.woken;
    assert ws + [] == ws;
    if s.receivers != [] { assert s.receivers[..1] == [s.receivers[0]]; }
  }

  lemma GiveUpTurn(s: Dtq, i: nat)
    ensures TurnTaken(s, GiveUp(i), Step(s, GiveUp(i)))
  {
    hide Tids, Drop;
    var ws := s.woken;
    assert ws + [] == ws;
    if i < |s.senders| { DropTurn(s.senders, i); }
  }

  lemma MovedTurn(s: Dtq, i: nat, pri: nat)
    ensures TurnTaken(s, Reprioritize(i, pri), Step(s, Reprioritize(i, pri)))
  {
    hide Tids, Reordered, Drop;
    var ws := s.woken;
    assert ws + [] == ws;
    if i < |s.senders| { MoveTurn(s.senders, i, pri, s.byPri); }
  }

  lemma DesistTurn(s: Dtq, i: nat)
    ensures TurnTaken(s, Desist(i), Step(s, Desist(i))) && TurnTaken(s, Init, Step(s, Init))
  {
    hide Drop;
    var ws := s.woken;
    assert ws + [] == ws;
  }

  /** Every call takes its turns. */
  lemma TurnStep(s: Dtq, call: DtqCall)
    requires Consistent(s)
    ensures TurnTaken(s, call, Step(s, call))
  {
    hide Consistent, TurnTaken, SendStep, ForceStep, ReceiveStep;
    match call
    case Send(w, wait) => SendTurn(s, w, wait);
    case Receive(tid, wait) => ReceiveTurn(s, tid, wait);
    case ForceSend(data) => ForceTurn(s, data);
    case GiveUp(i) => GiveUpTurn(s, i);
    case Reprioritize(i, pri) => MovedTurn(s, i, pri);
    case Desist(i) => DesistTurn(s, i);
    case Init => DesistTurn(s, 0);
  }

  function ReceiverTurns(ss: seq<Dtq>, calls: seq<DtqCall>): (ts: seq<Turn>)
    requires |ss| == |calls| + 1
  {
    seq(|calls|, i requires 0 <= i < |calls| => ReceiverTurn(ss[i], calls[i]))
  }

  function SenderTurns(ss: seq<Dtq>, calls: seq<DtqCall>): (ts: seq<Turn>)
    requires |ss| == |calls| + 1
  {
    seq(|calls|, i requires 0 <= i < |calls| => SenderTurn(ss[i], calls[i]))
  }

  function ReceiverQueues(ss: seq<Dtq>): seq<seq<nat>> { seq(|ss|, i requires 0 <= i < |ss| => ss[i].receivers) }

  function SenderQueues(ss: seq<Dtq>): seq<seq<nat>> { seq(|ss|, i requires 0 <= i < |ss| => Tids(ss[i].senders)) }

  function Wakings(ss: seq<Dtq>): seq<seq<nat>> { seq(|ss|, i requires 0 <= i < |ss| => ss[i].woken) }

  /** In every run receivers and senders are served in turn, and exactly those served have been woken. */
  lemma InTurn(ss: seq<Dtq>, calls: seq<DtqCall>, capacity: nat, byPri: bool)
    requires IsRun(ss, calls, capacity, byPri)
    ensures Duly(ReceiverQueues(ss), ReceiverTurns(ss, calls), SenderQueues(ss), SenderTurns(ss, calls), Wakings(ss))
  {
    hide Step, ReceiverTurn, SenderTurn, After, Possible, Served, Consistent, TurnTaken;
    forall i | 0 <= i < |calls| ensures TurnTaken(ss[i], calls[i], ss[i + 1]) {
      RunConsistent(ss, calls, capacity, byPri, i);
      TurnStep(ss[i], calls[i]);
      assert ss[i + 1] == Step(ss[i], calls[i]);
    }
    AllTaken(ss, calls);
  }

  lemma AllTaken(ss: seq<Dtq>, calls: seq<DtqCall>)
    requires |ss| == |calls| + 1 && ss[0].senders == [] && ss[0].receivers == [] && ss[0].woken == []
    requires forall i {:trigger calls[i]} :: 0 <= i < |calls| ==> TurnTaken(ss[i], calls[i], ss[i + 1])
    ensures Duly(ReceiverQueues(ss), ReceiverTurns(ss, calls), SenderQueues(ss), SenderTurns(ss, calls), Wakings(ss))
  {
    hide Step, ReceiverTurn, SenderTurn, After, Possible, Served;
  }

  // ---------------------------------------------------------------- the object

  class DataQueue {
    const area: array<int>                   // p_dtqmb
    const byPri: bool                        // TA_TPRI
    var count: nat
    var head: nat
    var tail: nat
    var senders: seq<Waiter<int>>            // swait_queue
    var receivers: seq<nat>                  // rwait_queue
    ghost var stored: seq<int>
    ghost var received: seq<int>
    ghost var woken: seq<nat>

    ghost predicate Valid()
      reads this, area
    {
      RingOk() && Consistent(Abs())
    }

    /** The ring holds the stored data, oldest at `head`. */
    ghost predicate RingOk()
      reads this, area
    {
      && count == |stored| <= area.Length
      && (if area.Length == 0 then head == tail == 0
          else head < area.Length && tail == Place(head, count) && tail < area.Length)
      && forall i :: 0 <= i < count ==> Place(head, i) < area.Length && area[Place(head, i)] == stored[i]
    }

    /** A place on the ring, `d` further on. */
    ghost function Place(at: nat, d: nat): int
    {
      if at + d < area.Length then at + d else at + d - area.Length
    }

    ghost function Abs(): Dtq
      reads this
    {
      Dtq(area.Length, byPri, stored, senders, receivers, received, woken)
    }

    constructor (capacity: nat, byPri: bool)
      ensures Valid() && Abs() == Empty(capacity, byPri) && fresh(area)
    {
      area := new int[capacity](_ => 0);
      this.byPri := byPri;
      count, head, tail := 0, 0, 0;
      senders, receivers, stored, received, woken := [], [], [], [], [];
    }

    /** enqueue_data. */
    method EnqueueData(data: int)
      requires RingOk() && count < area.Length
      modifies `count, `tail, `stored, area
      ensures RingOk() && stored == old(stored) + [data]
    {
      area[tail] := data;
      count, tail := count + 1, tail + 1;
      if tail >= area.Length {
        tail := 0;
      }
      stored := stored + [data];
    }

    /** force_enqueue_data. */
    method ForceEnqueueData(data: int)
      requires RingOk() && area.Length > 0
      modifies `count, `head, `tail, `stored, area
      ensures RingOk()
      ensures stored == (if old(|stored|) < area.Length then old(stored) else old(stored)[1..]) + [data]
    {
      hide Consistent;
      area[tail] := data;
      tail := tail + 1;
      if tail >= area.Length {
        tail := 0;
      }
      if count < area.Length {
        count := count + 1;
        stored := stored + [data];
      } else {
        head := tail;
        stored := stored[1..] + [data];
      }
    }

    /** dequeue_data. */
    method DequeueData() returns (data: int)
      requires RingOk() && count > 0
      modifies `count, `head, `stored
      ensures RingOk() && old(stored) == [data] + stored
    {
      data := area[head];
      count, head := count - 1, head + 1;
      if head >= area.Length {
        head := 0;
      }
      stored := stored[1..];
    }

    /** snd_dtq and tsnd_dtq if `wait`, psnd_dtq if not, around send_data. */
    method SndDtq(w: Waiter<int>, wait: bool) returns (r: Reply)
      requires Valid()
      modifies this, area
      ensures Valid() && Abs() == Step(old(Abs()), Send(w, wait)) && r == Answer(old(Abs()), Send(w, wait))
    {
      StepConsistent(Abs(), Send(w, wait));
      if receivers != [] {
        HandOver(w.item);
        r := Done;
      } else if count < area.Length {
        EnqueueData(w.item);
        r := Done;
      } else if wait {
        senders := Enter(senders, w, byPri);
        r := Waits;
      } else {
        r := TimedOut;
      }
    }

    /** The first waiting receiver gets the data. */
    method HandOver(data: int)
      requires Valid() && receivers != []
      modifies `receivers, `received, `woken
      ensures Valid() && Abs() == HandTo(old(Abs()), data)
    {
      received := received + [data];
      woken := woken + [receivers[0]];
      receivers := receivers[1..];
    }

    /** fsnd_dtq, around force_send_data. */
    method FsndDtq(data: int) returns (r: Reply)
      requires Valid()
      modifies this, area
      ensures Valid() && Abs() == Step(old(Abs()), ForceSend(data)) && r == Answer(old(Abs()), ForceSend(data))
    {
      if area.Length == 0 {
        return IllegalUse;
      }
      if receivers != [] {
        HandOver(data);
      } else {
        ForceEnqueueData(data);
      }
      r := Done;
    }

    /** The branch of a receiving call with something stored: the first waiting sender takes the place. */
    method TakeStored(ghost tid: nat, ghost wait: bool) returns (r: Reply)
      requires Valid() && stored != []
      modifies this, area
      ensures Valid() && Abs() == ReceiveStep(old(Abs()), tid, wait) && r == Got(old(stored)[0])
    {
      hide Enter;
      StepConsistent(Abs(), Receive(tid, wait));
      ghost var before := stored;
      var data := DequeueData();
      assert stored == before[1..];
      received := received + [data];
      if senders != [] {
        EnqueueData(senders[0].item);
        woken := woken + [senders[0].tid];
        senders := senders[1..];
      }
      r := Got(data);
    }

    /** rcv_dtq and trcv_dtq if `wait`, prcv_dtq if not, around receive_data. */
    method RcvDtq(tid: nat, wait: bool) returns (r: Reply)
      requires Valid()
      modifies this, area
      ensures Valid() && Abs() == Step(old(Abs()), Receive(tid, wait)) && r == Answer(old(Abs()), Receive(tid, wait))
    {
      hide Enter;
      StepConsistent(Abs(), Receive(tid, wait));
      if count > 0 {
        r := TakeStored(tid, wait);
      } else if senders != [] {
        r := Got(senders[0].item);
        received := received + [senders[0].item];
        woken := woken + [senders[0].tid];
        senders := senders[1..];
      } else if wait {
        receivers := receivers + [tid];
        r := Waits;
      } else {
        r := TimedOut;
      }
    }

    /** The end of a sender's wait by timeout, release, termination or the like. */
    method EndSenderWait(i: nat)
      requires Valid() && i < |senders|
      modifies `senders
      ensures Valid() && Abs() == Step(old(Abs()), GiveUp(i))
    {
      senders := Drop(senders, i);
    }

    /** A change of the priority of a waiting sender: wobj_change_priority. */
    method ChangePriority(i: nat, pri: nat)
      requires Valid() && i < |senders|
      modifies `senders
      ensures Valid() && Abs() == Step(old(Abs()), Reprioritize(i, pri))
    {
      senders := Reordered(senders, i, pri, byPri);
    }

    method EndReceiverWait(i: nat)
      requires Valid() && i < |receivers|
      modifies `receivers
      ensures Valid() && Abs() == Step(old(Abs()), Desist(i))
    {
      receivers := Drop(receivers, i);
    }

    /** ini_dtq. */
    method IniDtq()
      requires Valid()
      modifies this
      ensures Valid() && Abs() == Step(old(Abs()), Init)
    {
      senders, receivers := [], [];
      count, head, tail := 0, 0, 0;
      stored := [];
    }
  }
}
