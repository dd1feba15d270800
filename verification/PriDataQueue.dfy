/**
 Priority data queues: data in a list linked inside an array, in order of data priority and of arrival
 within a priority; unlinked nodes go to a free list.
 */
module PriDataQueue {
  import opened Base
  import opened WaitQueue
  import opened Turns

  const TMIN_DPRI: int := 1

  datatype Datum = Datum(data: int, pri: int)

  // ---------------------------------------------------------------- order of priority and arrival

  /** Before the first datum of a lower priority, that is of a larger number. */
  function Insert(s: seq<Datum>, d: Datum): (r: seq<Datum>)
    ensures |r| == |s| + 1
  {
    if s == [] || s[0].pri > d.pri then [d] + s else [s[0]] + Insert(s[1..], d)
  }

  lemma PutAt<T(!new)>(s: seq<T>, i: nat, x: T, j: nat)
    requires i <= |s| && j <= |s|
    ensures |InsertAt(s, i, x)| == |s| + 1 && InsertAt(s, i, x)[j] == if j < i then s[j] else if j == i then x else s[j - 1]
  {
  }

  ghost predicate Sorted(s: seq<Datum>) {
    forall i, j :: 0 <= i < j < |s| ==> s[i].pri <= s[j].pri
  }

  /** The data of one priority, in order. */
  function OfPri(s: seq<Datum>, p: int): seq<Datum> {
    if s == [] then [] else (if s[0].pri == p then [s[0]] else []) + OfPri(s[1..], p)
  }

  /** `s` is the stable sort of `arrived`. */
  ghost predicate StablySorted(s: seq<Datum>, arrived: seq<Datum>) {
    Sorted(s) && forall p :: OfPri(s, p) == OfPri(arrived, p)
  }

  lemma {:induction false} OfPriNone(s: seq<Datum>, p: int)
    ensures OfPri(s, p) == [] <==> forall i :: 0 <= i < |s| ==> s[i].pri != p
    ensures forall i :: 0 <= i < |OfPri(s, p)| ==> OfPri(s, p)[i].pri == p
  {
    if s != [] {
      OfPriNone(s[1..], p);
      if forall i :: 0 <= i < |s| ==> s[i].pri != p {
        assert s[0].pri != p;
        assert forall i :: 0 <= i < |s[1..]| ==> s[1..][i].pri != p;
      } else if s[0].pri != p {
        var i :| 0 <= i < |s| && s[i].pri == p;
        assert s[1..][i - 1].pri == p;
      }
    }
  }

  lemma {:induction false} InsertAtPlace(s: seq<Datum>, d: Datum, i: nat)
    requires i <= |s| && (forall j :: 0 <= j < i ==> s[j].pri <= d.pri) && (i < |s| ==> s[i].pri > d.pri)
    ensures Insert(s, d) == InsertAt(s, i, d)
  {
    if i > 0 {
      InsertAtPlace(s[1..], d, i - 1);
      assert s[..i] == [s[0]] + s[1..][..i - 1];
    }
  }

  lemma {:induction false} PlaceExists(s: seq<Datum>, d: Datum) returns (i: nat)
    ensures i <= |s| && (forall j :: 0 <= j < i ==> s[j].pri <= d.pri) && (i < |s| ==> s[i].pri > d.pri)
  {
    i := 0;
    while i < |s| && s[i].pri <= d.pri
      invariant i <= |s| && forall j :: 0 <= j < i ==> s[j].pri <= d.pri
    {
      i := i + 1;
    }
  }

  lemma {:induction false} OfPriInserted(s: seq<Datum>, d: Datum, p: int)
    requires Sorted(s)
    ensures OfPri(Insert(s, d), p) == OfPri(s, p) + if d.pri == p then [d] else []
  {
    var r := Insert(s, d);
    if s == [] || s[0].pri > d.pri {
      assert r[1..] == s;
      OfPriNone(s, d.pri);
    } else {
      assert r[0] == s[0] && r[1..] == Insert(s[1..], d);
      OfPriInserted(s[1..], d, p);
    }
  }

  /** Inserting is what sorting stably after one more arrival comes to. */
  lemma InsertIsStable(s: seq<Datum>, arrived: seq<Datum>, d: Datum)
    requires StablySorted(s, arrived)
    ensures StablySorted(Insert(s, d), arrived + [d])
  {
    hide OfPri;
    InsertSorted(s, d);
    forall p ensures OfPri(Insert(s, d), p) == OfPri(arrived + [d], p) {
      OfPriInserted(s, d, p);
      OfPriAppend(arrived, d, p);
    }
  }

  lemma InsertSorted(s: seq<Datum>, d: Datum)
    requires Sorted(s)
    ensures Sorted(Insert(s, d))
  {
    hide Insert;
    var i := PlaceExists(s, d);
    InsertAtPlace(s, d, i);
    var r := Insert(s, d);
    assert forall j :: 0 <= j < |r| ==> r[j] == if j < i then s[j] else if j == i then d else s[j - 1];
  }

  lemma {:induction false} OfPriAppend(s: seq<Datum>, d: Datum, p: int)
    ensures OfPri(s + [d], p) == OfPri(s, p) + if d.pri == p then [d] else []
  {
    if s == [] {
      assert s + [d] == [d];
    } else {
      var here := if s[0].pri == p then [s[0]] else [];
      assert (s + [d])[1..] == s[1..] + [d] && (s + [d])[0] == s[0];
      OfPriAppend(s[1..], d, p);
      assert OfPri(s + [d], p) == here + OfPri(s[1..] + [d], p);
    }
  }

  lemma {:induction false} OfPriDropped(s: seq<Datum>, k: nat, q: int)
    requires k < |s| && forall i :: 0 <= i < k ==> s[i].pri != s[k].pri
    ensures OfPri(s, q) == (if q == s[k].pri then [s[k]] else []) + OfPri(Drop(s, k), q)
  {
    var r := Drop(s, k);
    if k == 0 {
      assert r == s[1..];
    } else {
      assert r[0] == s[0] && r[1..] == Drop(s[1..], k - 1);
      OfPriDropped(s[1..], k - 1, q);
    }
  }

  /** Where in order of arrival the head of the sorted list stands: the oldest of the best priority. */
  lemma HeadIsOldestBest(s: seq<Datum>, arrived: seq<Datum>) returns (k: nat)
    requires StablySorted(s, arrived) && s != []
    ensures k < |arrived| && arrived[k] == s[0]
    ensures forall i :: 0 <= i < |arrived| ==> s[0].pri <= arrived[i].pri
    ensures forall i :: 0 <= i < k ==> s[0].pri < arrived[i].pri
    ensures StablySorted(s[1..], Drop(arrived, k))
  {
    hide OfPri;
    var p := s[0].pri;
    OfPriDropped(s, 0, p);
    k := FirstOfPri(arrived, p);
    forall i | 0 <= i < |arrived| ensures p <= arrived[i].pri { SamePriorities(s, arrived, i); }
    forall q ensures OfPri(s[1..], q) == OfPri(Drop(arrived, k), q) {
      OfPriDropped(s, 0, q);
      OfPriDropped(arrived, k, q);
      assert Drop(s, 0) == s[1..];
      assert OfPri(s, q) == OfPri(arrived, q);
      SameRest(if q == p then [s[0]] else [], OfPri(s[1..], q), OfPri(Drop(arrived, k), q));
    }
  }

  lemma SameRest(a: seq<Datum>, b: seq<Datum>, c: seq<Datum>)
    requires a + b == a + c
    ensures b == c
  {
    assert (a + b)[|a|..] == b && (a + c)[|a|..] == c;
  }

  lemma SamePriorities(s: seq<Datum>, arrived: seq<Datum>, i: nat)
    requires StablySorted(s, arrived) && i < |arrived|
    ensures exists j :: 0 <= j < |s| && s[j].pri == arrived[i].pri
  {
    OfPriNone(arrived, arrived[i].pri);
    OfPriNone(s, arrived[i].pri);
  }

  lemma {:induction false} FirstOfPri(s: seq<Datum>, p: int) returns (k: nat)
    requires OfPri(s, p) != []
    ensures k < |s| && s[k] == OfPri(s, p)[0] && s[k].pri == p && forall i :: 0 <= i < k ==> s[i].pri != p
  {
    if s[0].pri == p {
      k := 0;
    } else {
      var j := FirstOfPri(s[1..], p);
      k := j + 1;
    }
  }

  // ---------------------------------------------------------------- the protocol

  /** `received` and `woken` record what was delivered and which waits were completed, in order. */
  datatype Pdq = Pdq(capacity: nat, maxdpri: int, byPri: bool,
                     stored: seq<Datum>, senders: seq<Waiter<Datum>>, receivers: seq<nat>,
                     received: seq<Datum>, woken: seq<nat>)

  datatype PdqCall =
    | Send(w: Waiter<Datum>, wait: bool)   // snd_pdq, tsnd_pdq; psnd_pdq if `wait` is false
    | Receive(tid: nat, wait: bool)        // rcv_pdq, trcv_pdq; prcv_pdq
    | GiveUp(i: nat)                       // the wait of the i-th sender ends any other way
    | Reprioritize(i: nat, pri: nat)       // the priority of the i-th sender changes
    | Desist(i: nat)                       // the wait of the i-th receiver ends any other way
    | Init                                 // ini_pdq

  datatype Reply = Done | Got(d: Datum) | Waits | TimedOut | BadParameter

  predicate Sendable(s: Pdq, d: Datum) { TMIN_DPRI <= d.pri <= s.maxdpri }

  function SendStep(s: Pdq, w: Waiter<Datum>, wait: bool): Pdq {
    if !Sendable(s, w.item) then s
    else if s.receivers != [] then s.(receivers := s.receivers[1..], received := s.received + [w.item], woken := s.woken + [s.receivers[0]])
    else if |s.stored| < s.capacity then s.(stored := Insert(s.stored, w.item))
    else if wait then s.(senders := Enter(s.senders, w, s.byPri))
    else s
  }

  function ReceiveStep(s: Pdq, tid: nat, wait: bool): Pdq {
    if s.stored != [] then
      var t := s.(stored := s.stored[1..], received := s.received + [s.stored[0]]);
      if s.senders == [] then t
      else t.(stored := Insert(t.stored, s.senders[0].item), senders := s.senders[1..], woken := s.woken + [s.senders[0].tid])
    else if s.senders != [] then
      s.(senders := s.senders[1..], received := s.received + [s.senders[0].item], woken := s.woken + [s.senders[0].tid])
    else if wait then s.(receivers := s.receivers + [tid])
    else s
  }

  function Step(s: Pdq, call: PdqCall): Pdq {
    match call
    case Send(w, wait) => SendStep(s, w, wait)
    case Receive(tid, wait) => ReceiveStep(s, tid, wait)
    case GiveUp(i) => if i < |s.senders| then s.(senders := Drop(s.senders, i)) else s
    case Reprioritize(i, pri) => if i < |s.senders| then s.(senders := Reordered(s.senders, i, pri, s.byPri)) else s
    case Desist(i) => if i < |s.receivers| then s.(receivers := Drop(s.receivers, i)) else s
    case Init => s.(stored := [], senders := [], receivers := [])
  }

  function Answer(s: Pdq, call: PdqCall): Reply {
    match call
    case Send(w, wait) =>
      if !Sendable(s, w.item) then BadParameter
      else if s.receivers != [] || |s.stored| < s.capacity then Done
      else if wait then Waits else TimedOut
    case Receive(tid, wait) =>
      if s.stored != [] then Got(s.stored[0])
      else if s.senders != [] then Got(s.senders[0].item)
      else if wait then Waits else TimedOut
    case _ => Done
  }

  /** Waiting senders mean a full queue, waiting receivers mean nothing to receive. */
  ghost predicate Consistent(s: Pdq) {
    && |s.stored| <= s.capacity
    && (s.senders != [] ==> |s.stored| == s.capacity)
    && (s.receivers != [] ==> s.stored == [] && s.senders == [])
  }

  lemma StepConsistent(s: Pdq, call: PdqCall)
    requires Consistent(s)
    ensures Consistent(Step(s, call))
  {
  }

  // ---------------------------------------------------------------- all runs, against the order of arrival

  /** The oldest datum of the best priority. */
  ghost predicate OldestBest(arrived: seq<Datum>, k: nat) {
    && k < |arrived|
    && (forall i :: 0 <= i < |arrived| ==> arrived[k].pri <= arrived[i].pri)
    && forall i :: 0 <= i < k ==> arrived[k].pri < arrived[i].pri
  }

  /** How a call changes the list of the data stored and not yet received, in order of arrival. */
  ghost predicate Arrivals(s: Pdq, call: PdqCall, before: seq<Datum>, after: seq<Datum>) {
    match call
    case Send(w, wait) =>
      after == if Sendable(s, w.item) && s.receivers == [] && |s.stored| < s.capacity then before + [w.item] else before
    case Receive(tid, wait) =>
      if before == [] then after == before
      else exists k: nat :: OldestBest(before, k) && after == Drop(before, k) + if s.senders == [] then [] else [s.senders[0].item]
    case Init => after == []
    case _ => after == before
  }

  lemma EmptyTogether(s: seq<Datum>, arrived: seq<Datum>)
    requires StablySorted(s, arrived)
    ensures s == [] <==> arrived == []
  {
    if s == [] && arrived != [] {
      SamePriorities(s, arrived, 0);
    } else if s != [] && arrived == [] {
      var k := HeadIsOldestBest(s, arrived);
    }
  }

  lemma OneOldestBest(arrived: seq<Datum>, j: nat, k: nat)
    requires OldestBest(arrived, j) && OldestBest(arrived, k)
    ensures j == k
  {
    assert arrived[j].pri == arrived[k].pri;
  }

  /** One call keeps the stored data the stable sort of the arrivals, and receives the oldest datum of the
      best priority. */
  lemma ArrivalStep(s: Pdq, call: PdqCall, before: seq<Datum>, after: seq<Datum>)
    requires Consistent(s) && StablySorted(s.stored, before) && Arrivals(s, call, before, after)
    ensures StablySorted(Step(s, call).stored, after)
    ensures call.Receive? && before != [] ==> exists k: nat :: OldestBest(before, k) && Answer(s, call) == Got(before[k])
  {
    EmptyTogether(s.stored, before);
    match call
    case Send(w, wait) => InsertIsStable(s.stored, before, w.item);
    case Receive(tid, wait) =>
      if before != [] {
        var k := HeadIsOldestBest(s.stored, before);
        assert OldestBest(before, k);
        var j :| OldestBest(before, j) && after == Drop(before, j) + if s.senders == [] then [] else [s.senders[0].item];
        OneOldestBest(before, j, k);
        if s.senders == [] {
          assert after == Drop(before, k);
        } else {
          InsertIsStable(s.stored[1..], Drop(before, k), s.senders[0].item);
        }
      }
    case _ =>
  }

  ghost predicate IsRun(ss: seq<Pdq>, calls: seq<PdqCall>, arrived: seq<seq<Datum>>, capacity: nat, maxdpri: int, byPri: bool) {
    && |ss| == |arrived| == |calls| + 1
    && ss[0] == Pdq(capacity, maxdpri, byPri, [], [], [], [], []) && arrived[0] == []
    && forall i {:trigger calls[i]} :: 0 <= i < |calls| ==>
         ss[i + 1] == Step(ss[i], calls[i]) && Arrivals(ss[i], calls[i], arrived[i], arrived[i + 1])
  }

  /** In every run, the stored data are the stable sort, by priority, of what arrived and was not
      received. */
  lemma {:induction false} StableRun(ss: seq<Pdq>, calls: seq<PdqCall>, arrived: seq<seq<Datum>>, capacity: nat, maxdpri: int, byPri: bool, n: nat)
    requires IsRun(ss, calls, arrived, capacity, maxdpri, byPri) && n < |ss|
    ensures Consistent(ss[n]) && StablySorted(ss[n].stored, arrived[n])
  {
    if n > 0 {
      StableRun(ss, calls, arrived, capacity, maxdpri, byPri, n - 1);
      assert ss[n] == Step(ss[n - 1], calls[n - 1]);
      StepConsistent(ss[n - 1], calls[n - 1]);
      ArrivalStep(ss[n - 1], calls[n - 1], arrived[n - 1], arrived[n]);
    }
  }

  /** A TA_TPRI queue of senders is in order of priority. */
  ghost predicate InOrder(s: Pdq) { s.byPri ==> ByPriority(s.senders) }

  lemma StepInOrder(s: Pdq, call: PdqCall)
    requires InOrder(s)
    ensures InOrder(Step(s, call))
  {
    hide ByPriority, Enter, Reordered, Drop, Insert;
    if s.byPri {
      if call.Send? { StaysByPriority(s.senders, call.w, 0); }
      if call.Receive? && s.senders != [] { RestByPriority(s.senders, 1); }
      if call.GiveUp? && call.i < |s.senders| { StaysByPriority(s.senders, s.senders[0], call.i); }
      if call.Reprioritize? && call.i < |s.senders| { ReorderedByPriority(s.senders, call.i, call.pri); }
      NoneInOrder<Datum>();
    }
  }

  /** In every run a TA_TPRI queue keeps its senders in order of priority, whatever priorities change. */
  lemma {:induction false} SendersInOrder(ss: seq<Pdq>, calls: seq<PdqCall>, arrived: seq<seq<Datum>>, capacity: nat, maxdpri: int, byPri: bool, n: nat)
    requires IsRun(ss, calls, arrived, capacity, maxdpri, byPri) && n < |ss|
    ensures InOrder(ss[n])
  {
    hide Step;
    if n > 0 {
      SendersInOrder(ss, calls, arrived, capacity, maxdpri, byPri, n - 1);
      StepInOrder(ss[n - 1], calls[n - 1]);
      assert ss[n] == Step(ss[n - 1], calls[n - 1]);
    }
  }

  /** Only data of priorities 1 to maxdpri get in, and of these all do. */
  ghost predicate InRange(s: Pdq) {
    && (forall i :: 0 <= i < |s.stored| ==> 1 <= s.stored[i].pri <= s.maxdpri)
    && (forall i :: 0 <= i < |s.senders| ==> 1 <= s.senders[i].item.pri <= s.maxdpri)
    && forall i :: 0 <= i < |s.received| ==> 1 <= s.received[i].pri <= s.maxdpri
  }

  lemma InsertedInRange(s: seq<Datum>, d: Datum, maxdpri: int)
    requires (forall i :: 0 <= i < |s| ==> 1 <= s[i].pri <= maxdpri) && 1 <= d.pri <= maxdpri
    ensures forall i :: 0 <= i < |Insert(s, d)| ==> 1 <= Insert(s, d)[i].pri <= maxdpri
  {
    var i := PlaceExists(s, d);
    InsertAtPlace(s, d, i);
    hide Insert;
    var r := InsertAt(s, i, d);
    assert forall j :: 0 <= j < |r| ==> r[j] == if j < i then s[j] else if j == i then d else s[j - 1];
  }

  lemma EnteredInRange(s: Pdq, w: Waiter<Datum>)
    requires InRange(s) && 1 <= w.item.pri <= s.maxdpri
    ensures var q := Enter(s.senders, w, s.byPri); forall i :: 0 <= i < |q| ==> 1 <= q[i].item.pri <= s.maxdpri
  {
    var k, q := PlaceOf(s.senders, w.pri), Enter(s.senders, w, s.byPri);
    assert s.byPri ==> forall i :: 0 <= i < |q| ==> q[i] == if i < k then s.senders[i] else if i == k then w else s.senders[i - 1];
  }

  lemma MovedInRange(s: Pdq, i: nat, pri: nat)
    requires InRange(s) && i < |s.senders|
    ensures var q := Reordered(s.senders, i, pri, s.byPri); forall j :: 0 <= j < |q| ==> 1 <= q[j].item.pri <= s.maxdpri
  {
    hide Reordered;
    forall j | 0 <= j < |Reordered(s.senders, i, pri, s.byPri)|
      ensures 1 <= Reordered(s.senders, i, pri, s.byPri)[j].item.pri <= s.maxdpri
    {
      SameLength(s.senders, i, pri, s.byPri);
      var k := ReorderedFrom(s.senders, i, pri, s.byPri, j);
    }
  }

  lemma SameLength(q: seq<Waiter<Datum>>, i: nat, pri: nat, byPri: bool)
    requires i < |q|
    ensures |Reordered(q, i, pri, byPri)| == |q|
  {
  }

  /** A datum is refused iff its priority is out of range, whatever the state of the queue. */
  lemma StepInRange(s: Pdq, call: PdqCall)
    requires InRange(s)
    ensures InRange(Step(s, call)) && Step(s, call).maxdpri == s.maxdpri
    ensures call.Send? ==> (Answer(s, call) == BadParameter <==> call.w.item.pri < 1 || s.maxdpri < call.w.item.pri)
  {
    hide Insert, Enter, Reordered;
    match call
    case Send(w, wait) =>
      if 1 <= w.item.pri <= s.maxdpri {
        InsertedInRange(s.stored, w.item, s.maxdpri);
        EnteredInRange(s, w);
      }
    case Receive(tid, wait) =>
      if s.stored != [] && s.senders != [] { InsertedInRange(s.stored[1..], s.senders[0].item, s.maxdpri); }
    case Reprioritize(i, pri) => if i < |s.senders| { MovedInRange(s, i, pri); }
    case _ =>
  }

  /** In every run. */
  lemma {:induction false} RunInRange(ss: seq<Pdq>, calls: seq<PdqCall>, arrived: seq<seq<Datum>>, capacity: nat, maxdpri: int, byPri: bool, n: nat)
    requires IsRun(ss, calls, arrived, capacity, maxdpri, byPri) && n < |ss|
    ensures InRange(ss[n]) && ss[n].maxdpri == maxdpri
  {
    hide Step, InRange;
    if n == 0 {
      NothingInRange(ss[0]);
    } else {
      RunInRange(ss, calls, arrived, capacity, maxdpri, byPri, n - 1);
      StepInRange(ss[n - 1], calls[n - 1]);
      assert ss[n] == Step(ss[n - 1], calls[n - 1]);
    }
  }

  lemma NothingInRange(s: Pdq)
    requires s.stored == [] && s.senders == [] && s.received == []
    ensures InRange(s)
  {
  }

  // ---------------------------------------------------------------- whose turn it is

  /** What a call is to the waiting receivers: whoever has waited longest gets the datum. */
  function ReceiverTurn(s: Pdq, call: PdqCall): Turn {
    match call
    case Send(_, _) => if Answer(s, call).Done? && s.receivers != [] then Serve(1) else Stay
    case Receive(tid, _) => if Answer(s, call).Waits? then Come(tid, |s.receivers|) else Stay
    case Desist(i) => if i < |s.receivers| then Quit(i, 0) else Stay
    case Init => Clear
    case _ => Stay
  }

  /** What a call is to the waiting senders: whenever a datum is received, the first of them goes on. */
  function SenderTurn(s: Pdq, call: PdqCall): Turn {
    match call
    case Send(w, _) => if Answer(s, call).Waits? then Come(w.tid, EntryPlace(s.senders, w.pri, s.byPri)) else Stay
    case Receive(_, _) => if Answer(s, call).Got? && s.senders != [] then Serve(1) else Stay
    case GiveUp(i) => if i < |s.senders| then Quit(i, 0) else Stay
    case Reprioritize(i, pri) => if i < |s.senders| then Move(i, NewPlace(s.senders, i, pri, s.byPri)) else Stay
    case Init => Clear
    case _ => Stay
  }

  /** A call serves those whose turn it is, ends their waits, and hands a receiver the datum sent. */
  ghost predicate TurnTaken(s: Pdq, call: PdqCall, r: Pdq) {
    var rt, st := ReceiverTurn(s, call), SenderTurn(s, call);
    && Possible(|s.receivers|, rt) && r.receivers == After(s.receivers, rt)
    && Possible(|s.senders|, st) && Tids(r.senders) == After(Tids(s.senders), st)
    && r.woken == s.woken + Served(s.receivers, rt) + Served(Tids(s.senders), st)
    && (rt.Serve? ==> call.Send? && r.received == s.received + [call.w.item])
    && (Answer(s, call).Got? ==> r.received == s.received + [Answer(s, call).d])
  }

  lemma SendTurn(s: Pdq, w: Waiter<Datum>, wait: bool)
    requires Consistent(s)
    ensures TurnTaken(s, Send(w, wait), SendStep(s, w, wait))
  {
    hide Tids, Enter, Insert;
    var ws, q := s.woken, Tids(s.senders);
    assert ws + [] == ws;
    if !Sendable(s, w.item) {
    } else if s.receivers != [] {
      assert s.receivers[..1] == [s.receivers[0]];
    } else if |s.stored| < s.capacity {
    } else if wait {
      EnterTurn(s.senders, w, s.byPri);
    }
  }

  lemma ReceiveTurn(s: Pdq, tid: nat, wait: bool)
    requires Consistent(s)
    ensures TurnTaken(s, Receive(tid, wait), ReceiveStep(s, tid, wait))
  {
    hide Tids, Insert;
    var ws := s.woken;
    assert ws + [] == ws;
    if s.senders != [] {
      RestTurn(s.senders, 1);
      FirstTid(s.senders);
    }
    LastPlace(s.receivers, tid);
  }

  lemma GiveUpTurn(s: Pdq, i: nat)
    ensures TurnTaken(s, GiveUp(i), Step(s, GiveUp(i)))
  {
    hide Tids, Drop;
    var ws := s.woken;
    assert ws + [] == ws;
    if i < |s.senders| { DropTurn(s.senders, i); }
  }

  lemma MovedTurn(s: Pdq, i: nat, pri: nat)
    ensures TurnTaken(s, Reprioritize(i, pri), Step(s, Reprioritize(i, pri)))
  {
    hide Tids, Reordered, Drop;
    var ws := s.woken;
    assert ws + [] == ws;
    if i < |s.senders| { MoveTurn(s.senders, i, pri, s.byPri); }
  }

  lemma DesistTurn(s: Pdq, i: nat)
    ensures TurnTaken(s, Desist(i), Step(s, Desist(i))) && TurnTaken(s, Init, Step(s, Init))
  {
    hide Drop;
    var ws := s.woken;
    assert ws + [] == ws;
  }

  /** Every call takes its turns. */
  lemma TurnStep(s: Pdq, call: PdqCall)
    requires Consistent(s)
    ensures TurnTaken(s, call, Step(s, call))
  {
    hide Consistent, TurnTaken, SendStep, ReceiveStep;
    match call
    case Send(w, wait) => SendTurn(s, w, wait);
    case Receive(tid, wait) => ReceiveTurn(s, tid, wait);
    case GiveUp(i) => GiveUpTurn(s, i);
    case Reprioritize(i, pri) => MovedTurn(s, i, pri);
    case Desist(i) => DesistTurn(s, i);
    case Init => DesistTurn(s, 0);
  }

  function ReceiverTurns(ss: seq<Pdq>, calls: seq<PdqCall>): (ts: seq<Turn>)
    requires |ss| == |calls| + 1
  {
    seq(|calls|, i requires 0 <= i < |calls| => ReceiverTurn(ss[i], calls[i]))
  }

  function SenderTurns(ss: seq<Pdq>, calls: seq<PdqCall>): (ts: seq<Turn>)
    requires |ss| == |calls| + 1
  {
    seq(|calls|, i requires 0 <= i < |calls| => SenderTurn(ss[i], calls[i]))
  }

  function ReceiverQueues(ss: seq<Pdq>): seq<seq<nat>> { seq(|ss|, i requires 0 <= i < |ss| => ss[i].receivers) }

  function SenderQueues(ss: seq<Pdq>): seq<seq<nat>> { seq(|ss|, i requires 0 <= i < |ss| => Tids(ss[i].senders)) }

  function Wakings(ss: seq<Pdq>): seq<seq<nat>> { seq(|ss|, i requires 0 <= i < |ss| => ss[i].woken) }

  /** In every run receivers and senders are served in turn, and exactly those served have been woken. */
  lemma InTurn(ss: seq<Pdq>, calls: seq<PdqCall>, arrived: seq<seq<Datum>>, capacity: nat, maxdpri: int, byPri: bool)
    requires IsRun(ss, calls, arrived, capacity, maxdpri, byPri)
    ensures Duly(ReceiverQueues(ss), ReceiverTurns(ss, calls), SenderQueues(ss), SenderTurns(ss, calls), Wakings(ss))
  {
    hide Step, ReceiverTurn, SenderTurn, After, Possible, Served, Consistent, TurnTaken;
    forall i | 0 <= i < |calls| ensures TurnTaken(ss[i], calls[i], ss[i + 1]) {
      StableRun(ss, calls, arrived, capacity, maxdpri, byPri, i);
      TurnStep(ss[i], calls[i]);
      assert ss[i + 1] == Step(ss[i], calls[i]);
    }
    AllTaken(ss, calls);
  }

  lemma AllTaken(ss: seq<Pdq>, calls: seq<PdqCall>)
    requires |ss| == |calls| + 1 && ss[0].senders == [] && ss[0].receivers == [] && ss[0].woken == []
    requires forall i {:trigger calls[i]} :: 0 <= i < |calls| ==> TurnTaken(ss[i], calls[i], ss[i + 1])
    ensures Duly(ReceiverQueues(ss), ReceiverTurns(ss, calls), SenderQueues(ss), SenderTurns(ss, calls), Wakings(ss))
  {
    hide Step, ReceiverTurn, SenderTurn, After, Possible, Served;
  }

  // ---------------------------------------------------------------- the object

  const NULL: int := -1

  /** Taking the first entry out of the second of two lists without duplicates. */
  lemma CutSecond(a: seq<nat>, b: seq<nat>)
    requires NoDup(a + b) && b != []
    ensures NoDup(a + b[1..]) && b[0] !in a + b[1..] && forall x :: x in a + b && x != b[0] ==> x in a + b[1..]
  {
    CutOut(a + b, |a|);
    assert (a + b)[..|a|] + (a + b)[|a| + 1..] == a + b[1..];
  }

  /** Putting a new entry into the first of two lists without duplicates. */
  lemma PutIn(a: seq<nat>, b: seq<nat>, i: nat, x: nat)
    requires NoDup(a + b) && i <= |a| && x !in a + b
    ensures var r := InsertAt(a, i, x); NoDup(r + b) && forall y :: y in r + b <==> y in a + b || y == x
  {
    InsertNew(a + b, i, x);
    assert InsertAt(a, i, x) + b == (a + b)[..i] + [x] + (a + b)[i..];
  }

  /** Moving the first entry of one list to the front of the other. */
  lemma MoveOver(a: seq<nat>, b: seq<nat>)
    requires NoDup(a + b) && a != []
    ensures var r := a[1..] + ([a[0]] + b); NoDup(r) && forall y :: y in r <==> y in a + b
  {
    var ab, r, n := a + b, a[1..] + ([a[0]] + b), |a|;
    assert forall j :: 0 <= j < |r| ==> r[j] == if j < n - 1 then ab[j + 1] else if j == n - 1 then ab[0] else ab[j];
    forall j, k | 0 <= j < k < |r| ensures r[j] != r[k] {
      assert ab[if j < n - 1 then j + 1 else if j == n - 1 then 0 else j] != ab[if k < n - 1 then k + 1 else if k == n - 1 then 0 else k];
    }
    forall y | y in ab ensures y in r {
      var j :| 0 <= j < |ab| && ab[j] == y;
      assert r[if j == 0 then n - 1 else if j < n then j - 1 else j] == y;
    }
  }

  /** PDQMB; a link is an index, or NULL. */
  datatype Node = Node(next: int, data: int, datapri: int)

  function DatumIn(n: Node): Datum { Datum(n.data, n.datapri) }

  /** What links to place `i` of a list. */
  ghost function LinkTo(nodes: seq<nat>, i: nat): int {
    if i < |nodes| then nodes[i] else NULL
  }

  ghost predicate Chained(mem: seq<Node>, nodes: seq<nat>) {
    && (forall i :: 0 <= i < |nodes| ==> nodes[i] < |mem|)
    && forall i, j {:trigger nodes[i], LinkTo(nodes, j)} :: 0 <= i < |nodes| && j == i + 1 ==> mem[nodes[i]].next == LinkTo(nodes, j)
  }

  ghost predicate Holds(mem: seq<Node>, nodes: seq<nat>, data: seq<Datum>) {
    |data| == |nodes| && forall i :: 0 <= i < |nodes| ==> nodes[i] < |mem| && data[i] == DatumIn(mem[nodes[i]])
  }

  lemma ChainAt(mem: seq<Node>, nodes: seq<nat>, i: nat)
    requires Chained(mem, nodes) && i < |nodes|
    ensures nodes[i] < |mem| && mem[nodes[i]].next == LinkTo(nodes, i + 1)
  {
  }

  /** The list behind its first node. */
  lemma ChainRest(mem: seq<Node>, nodes: seq<nat>)
    requires Chained(mem, nodes) && nodes != []
    ensures Chained(mem, nodes[1..]) && nodes[0] < |mem| && mem[nodes[0]].next == LinkTo(nodes[1..], 0)
  {
    var rest := nodes[1..];
    ChainAt(mem, nodes, 0);
    forall i, j | 0 <= i < |rest| && j == i + 1 ensures mem[rest[i]].next == LinkTo(rest, j) {
      ChainAt(mem, nodes, i + 1);
    }
  }

  /** A list with a node in front of it. */
  lemma ChainFront(mem: seq<Node>, nodes: seq<nat>, x: nat)
    requires Chained(mem, nodes) && x < |mem| && mem[x].next == LinkTo(nodes, 0)
    ensures Chained(mem, [x] + nodes)
  {
    var r := [x] + nodes;
    forall i, j | 0 <= i < |r| && j == i + 1 ensures mem[r[i]].next == LinkTo(r, j) {
      if i > 0 { ChainAt(mem, nodes, i - 1); }
    }
  }

  /** A list does not notice changes to other nodes. */
  lemma ChainKept(before: seq<Node>, after: seq<Node>, nodes: seq<nat>)
    requires Chained(before, nodes) && |before| == |after|
    requires forall i :: 0 <= i < |nodes| && nodes[i] < |before| ==> after[nodes[i]] == before[nodes[i]]
    ensures Chained(after, nodes)
  {
  }

  /** The memory with a node linked in between `prev` and `next`. */
  function LinkedIn(mem: seq<Node>, node: nat, prev: int, next: int, d: Datum): (r: seq<Node>)
    requires node < |mem| && -1 <= prev < |mem|
    ensures |r| == |mem|
  {
    var m := mem[node := Node(next, d.data, d.pri)];
    if prev == NULL then m else m[prev := m[prev].(next := node)]
  }

  lemma LinkedInAt(mem: seq<Node>, node: nat, prev: int, next: int, d: Datum, x: nat)
    requires node < |mem| && -1 <= prev < |mem| && node != prev && x < |mem|
    ensures |LinkedIn(mem, node, prev, next, d)| == |mem|
    ensures LinkedIn(mem, node, prev, next, d)[x] ==
      if x == node then Node(next, d.data, d.pri) else if x == prev then mem[x].(next := node) else mem[x]
  {
  }

  /** One node of the list after a node was linked in at place `i`. */
  lemma ThreadAt(mem: seq<Node>, nodes: seq<nat>, data: seq<Datum>, i: nat, node: nat, d: Datum, j: nat)
    requires Chained(mem, nodes) && Holds(mem, nodes, data) && node !in nodes && node < |mem| && i <= |nodes| && j <= |nodes|
    requires forall k :: 0 <= k < |nodes| && k != i - 1 && i > 0 ==> nodes[k] != nodes[i - 1]
    requires i > 0 ==> nodes[i - 1] < |mem|
    ensures var prev := if i == 0 then NULL else nodes[i - 1];
            var m, r := LinkedIn(mem, node, prev, LinkTo(nodes, i), d), InsertAt(nodes, i, node);
            r[j] < |m| && m[r[j]].next == LinkTo(r, j + 1) && InsertAt(data, i, d)[j] == DatumIn(m[r[j]])
  {
    PutAt(nodes, i, node, j);
    PutAt(data, i, d, j);
    if j < |nodes| { PutAt(nodes, i, node, j + 1); }
    if j != i { ChainAt(mem, nodes, if j < i then j else j - 1); }
    var prev := if i == 0 then NULL else nodes[i - 1];
    LinkedInAt(mem, node, prev, LinkTo(nodes, i), d, InsertAt(nodes, i, node)[j]);
  }

  lemma ThreadIn(mem: seq<Node>, nodes: seq<nat>, data: seq<Datum>, i: nat, node: nat, d: Datum)
    requires Chained(mem, nodes) && Holds(mem, nodes, data) && NoDup(nodes) && node !in nodes && node < |mem| && i <= |nodes|
    ensures |data| == |nodes| && (i > 0 ==> nodes[i - 1] < |mem|)
    ensures var prev := if i == 0 then NULL else nodes[i - 1];
            var m, r := LinkedIn(mem, node, prev, LinkTo(nodes, i), d), InsertAt(nodes, i, node);
            Chained(m, r) && Holds(m, r, InsertAt(data, i, d))
  {
    hide LinkedIn;
    var prev := if i == 0 then NULL else nodes[i - 1];
    LinkedInAt(mem, node, prev, LinkTo(nodes, i), d, node);
    var m, r, e := LinkedIn(mem, node, prev, LinkTo(nodes, i), d), InsertAt(nodes, i, node), InsertAt(data, i, d);
    forall j | 0 <= j < |r| ensures r[j] < |m| && m[r[j]].next == LinkTo(r, j + 1) && e[j] == DatumIn(m[r[j]]) {
      ThreadAt(mem, nodes, data, i, node, d, j);
    }
  }

  class PriDataQueue {
    const area: array<Node>                  // p_pdqmb
    const maxdpri: int
    const byPri: bool                        // TA_TPRI
    var count: nat
    var head: int
    var unused: nat
    var freelist: int
    var senders: seq<Waiter<Datum>>          // swait_queue
    var receivers: seq<nat>                  // rwait_queue
    ghost var list: seq<nat>                 // the nodes from `head` on
    ghost var free: seq<nat>                 // the nodes from `freelist` on
    ghost var stored: seq<Datum>
    ghost var received: seq<Datum>
    ghost var woken: seq<nat>

    ghost predicate Valid()
      reads this, area
    {
      NodesOk() && Consistent(Abs())
    }

    /** The two lists divide the nodes used so far between them. */
    ghost predicate NodesOk()
      reads this, area
    {
      && unused <= area.Length && count == |list| == |stored| && |list| + |free| == unused
      && NoDup(list + free) && (forall i :: 0 <= i < unused ==> i in list + free)
      && Linked(head, list) && Linked(freelist, free) && Holding()
    }

    ghost predicate Linked(first: int, nodes: seq<nat>)
      reads `unused, area
    {
      first == LinkTo(nodes, 0) && Chained(area[..], nodes) && forall i :: 0 <= i < |nodes| ==> nodes[i] < unused
    }

    /** The nodes of the list hold the stored data. */
    ghost predicate Holding()
      reads `list, `stored, area
    {
      Holds(area[..], list, stored)
    }

    ghost function Abs(): Pdq
      reads this
    {
      Pdq(area.Length, maxdpri, byPri, stored, senders, receivers, received, woken)
    }

    constructor (capacity: nat, maxdpri: int, byPri: bool)
      ensures Valid() && Abs() == Pdq(capacity, maxdpri, byPri, [], [], [], [], []) && fresh(area)
    {
      hide NodesOk;
      area := new Node[capacity](_ => Node(NULL, 0, 0));
      this.maxdpri, this.byPri := maxdpri, byPri;
      count, head, unused, freelist := 0, NULL, 0, NULL;
      senders, receivers, list, free, stored, received, woken := [], [], [], [], [], [], [];
      new;
      NoNodes();
    }

    lemma NoNodes()
      requires count == unused == 0 && head == freelist == NULL && list == free == [] && stored == []
      ensures NodesOk()
    {
      hide Insert;
    }

    /** A node taken from the free list, or the first one never used. */
    method TakeNode() returns (node: nat)
      requires NodesOk() && count < area.Length
      modifies `freelist, `unused, `free
      ensures node < area.Length && node < unused <= area.Length && node !in list && node !in free
      ensures |list| + |free| + 1 == unused && NoDup(list + free) && (forall i :: 0 <= i < unused && i != node ==> i in list + free)
      ensures Linked(head, list) && Linked(freelist, free) && Holding()
    {
      if freelist != NULL {
        node := freelist;
        ChainRest(area[..], free);
        freelist := area[node].next;
        CutSecond(list, free);
        free := free[1..];
      } else {
        assert free == [];
        node := unused;
        unused := unused + 1;
      }
    }

    /** Walks the list to the first node of a lower priority. */
    method FindPlace(datapri: int) returns (prev: int, next: int, ghost i: nat)
      requires Linked(head, list) && Holding()
      ensures i <= |list| && next == LinkTo(list, i) && prev == (if i == 0 then NULL else list[i - 1])
      ensures (forall j :: 0 <= j < i ==> stored[j].pri <= datapri) && (i < |list| ==> stored[i].pri > datapri)
    {
      prev, next, i := NULL, head, 0;
      while next != NULL
        invariant i <= |list| && next == LinkTo(list, i) && prev == (if i == 0 then NULL else list[i - 1])
        invariant forall j :: 0 <= j < i ==> stored[j].pri <= datapri
        decreases |list| - i
      {
        assert stored[i] == DatumIn(area[list[i]]);
        if area[next].datapri > datapri {
          break;
        }
        prev, next, i := next, area[next].next, i + 1;
      }
    }

    /** Links a node in between `prev` and `next`. */
    method LinkIn(node: nat, prev: int, next: int, d: Datum, ghost i: nat)
      requires Linked(head, list) && Holding() && NoDup(list)
      requires node < area.Length && node < unused && node !in list
      requires i <= |list| && next == LinkTo(list, i) && prev == (if i == 0 then NULL else list[i - 1])
      modifies `head, `list, `stored, area
      ensures Linked(head, list) && Holding()
      ensures list == InsertAt(old(list), i, node) && stored == InsertAt(old(stored), i, d)
      ensures forall x :: 0 <= x < area.Length && x !in list ==> area[x] == old(area[x])
    {
      hide NoDup, Chained, Holds;
      ghost var mem := area[..];
      ThreadIn(mem, list, stored, i, node, d);
      area[node] := Node(next, d.data, d.pri);
      if prev == NULL {
        head := node;
      } else {
        area[prev] := area[prev].(next := node);
      }
      assert area[..] == LinkedIn(mem, node, prev, next, d);
      list := InsertAt(list, i, node);
      stored := InsertAt(stored, i, d);
      assert list[i] == node && (i > 0 ==> list[i - 1] == prev);
    }

    /** The free list does not notice what happens to other nodes. */
    twostate lemma FreeListKept(new nodes: seq<nat>)
      requires old(Linked(freelist, free)) && freelist == old(freelist) && free == old(free) && old(unused) <= unused
      requires forall x :: 0 <= x < area.Length && x !in nodes ==> area[x] == old(area[x])
      requires forall j :: 0 <= j < |free| ==> free[j] !in nodes
      ensures Linked(freelist, free)
    {
    }

    lemma Apart()
      requires NoDup(list + free)
      ensures NoDup(list) && forall j :: 0 <= j < |free| ==> free[j] !in list
    {
      var whole := list + free;
      forall i, j | 0 <= i < j < |list| ensures list[i] != list[j] { assert whole[i] != whole[j]; }
      forall i, j | 0 <= i < |list| && 0 <= j < |free| ensures list[i] != free[j] { assert whole[i] != whole[|list| + j]; }
    }

    lemma RestApart()
      requires NoDup(list) && list != []
      ensures forall j :: 0 <= j < |list[1..]| ==> list[1..][j] != list[0]
    {
    }

    /** enqueue_pridata. */
    method EnqueuePridata(d: Datum)
      requires NodesOk() && count < area.Length
      modifies `count, `head, `unused, `freelist, `list, `free, `stored, area
      ensures NodesOk() && stored == Insert(old(stored), d)
    {
      hide NoDup, Insert, Holding, Linked, LinkTo;
      var node := TakeNode();
      Apart();
      var prev, next, i := FindPlace(d.pri);
      InsertHere(d, i);
      PutIn(list, free, i, node);
      label before:
      LinkIn(node, prev, next, d, i);
      Apart();
      FreeListKept@before(list);
      count := count + 1;
    }

    lemma InsertHere(d: Datum, i: nat)
      requires Holding() && i <= |list|
      requires (forall j :: 0 <= j < i ==> stored[j].pri <= d.pri) && (i < |list| ==> stored[i].pri > d.pri)
      ensures i <= |stored| && Insert(stored, d) == InsertAt(stored, i, d)
    {
      InsertAtPlace(stored, d, i);
    }

    /** dequeue_pridata. */
    method DequeuePridata() returns (d: Datum)
      requires NodesOk() && count > 0
      modifies `count, `head, `freelist, `list, `free, `stored, area
      ensures NodesOk() && old(stored) == [d] + stored
    {
      hide NoDup, Chained;
      var node := head;
      ghost var mem := area[..];
      Apart();
      MoveOver(list, free);
      RestApart();
      ChainRest(mem, list);
      head := area[node].next;
      count := count - 1;
      d := Datum(area[node].data, area[node].datapri);
      area[node] := area[node].(next := freelist);
      ChainKept(mem, area[..], list[1..]);
      ChainKept(mem, area[..], free);
      ChainFront(area[..], free, node);
      freelist := node;
      free := [node] + free;
      list := list[1..];
      stored := stored[1..];
    }

    /** snd_pdq and tsnd_pdq if `wait`, psnd_pdq if not, around send_pridata. */
    method SndPdq(w: Waiter<Datum>, wait: bool) returns (r: Reply)
      requires Valid()
      modifies this, area
      ensures Valid() && Abs() == Step(old(Abs()), Send(w, wait)) && r == Answer(old(Abs()), Send(w, wait))
    {
      hide NoDup, Linked, Holding;
      StepConsistent(Abs(), Send(w, wait));
      if !(TMIN_DPRI <= w.item.pri <= maxdpri) {
        return BadParameter;
      }
      if receivers != [] {
        received := received + [w.item];
        woken := woken + [receivers[0]];
        receivers := receivers[1..];
        r := Done;
      } else if count < area.Length {
        EnqueuePridata(w.item);
        r := Done;
      } else if wait {
        senders := Enter(senders, w, byPri);
        r := Waits;
      } else {
        r := TimedOut;
      }
    }

    /** The branch of a receiving call with something stored: the first waiting sender takes the place. */
    method TakeStored(ghost tid: nat, ghost wait: bool) returns (r: Reply)
      requires Valid() && stored != []
      modifies this, area
      ensures Valid() && Abs() == ReceiveStep(old(Abs()), tid, wait) && r == Got(old(stored)[0])
    {
      hide NoDup, Linked, Insert;
      StepConsistent(Abs(), Receive(tid, wait));
      ghost var before := stored;
      var d := DequeuePridata();
      assert stored == before[1..];
      received := received + [d];
      if senders != [] {
        EnqueuePridata(senders[0].item);
        woken := woken + [senders[0].tid];
        senders := senders[1..];
      }
      r := Got(d);
    }

    /** rcv_pdq and trcv_pdq if `wait`, prcv_pdq if not, around receive_pridata. */
    method RcvPdq(tid: nat, wait: bool) returns (r: Reply)
      requires Valid()
      modifies this, area
      ensures Valid() && Abs() == Step(old(Abs()), Receive(tid, wait)) && r == Answer(old(Abs()), Receive(tid, wait))
    {
      hide NoDup, Linked, Insert, Enter, SendStep;
      StepConsistent(Abs(), Receive(tid, wait));
      if count > 0 {
        r := TakeStored(tid, wait);
      } else if senders != [] {
        r := Got(senders[0].item);
        received := received + [senders[0].item];
        woken := woken + [senders[0].tid];
        senders := senders[1..];
      } else if wait {
        receivers := receivers + [tid];
        r := Waits;
      } else {
        r := TimedOut;
      }
    }

    /** The end of a sender's wait by timeout, release, termination or the like. */
    method EndSenderWait(i: nat)
      requires Valid() && i < |senders|
      modifies `senders
      ensures Valid() && Abs() == Step(old(Abs()), GiveUp(i))
    {
      senders := Drop(senders, i);
    }

    /** A change of the priority of a waiting sender: wobj_change_priority. */
    method ChangePriority(i: nat, pri: nat)
      requires Valid() && i < |senders|
      modifies `senders
      ensures Valid() && Abs() == Step(old(Abs()), Reprioritize(i, pri))
    {
      senders := Reordered(senders, i, pri, byPri);
    }

    method EndReceiverWait(i: nat)
      requires Valid() && i < |receivers|
      modifies `receivers
      ensures Valid() && Abs() == Step(old(Abs()), Desist(i))
    {
      receivers := Drop(receivers, i);
    }

    /** ini_pdq. */
    method IniPdq()
      requires Valid()
      modifies this
      ensures Valid() && Abs() == Step(old(Abs()), Init)
    {
      hide NodesOk, Insert;
      senders, receivers := [], [];
      count, head, unused, freelist := 0, NULL, 0, NULL;
      list, free, stored := [], [], [];
      NoNodes();
    }
  }
}
