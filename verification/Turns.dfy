/**
 Whose turn it is at an object: the tasks that came to wait, in the order in which they are to be served,
 against those that were served and those that still wait.
 */
module Turns {
  import opened Base
  import opened WaitQueue

  /** What happens to a queue of waiting tasks: one comes to a place, the first `k` are served, one leaves
      unserved (whereupon the first `k` others may be served), one changes its place, or all are sent away. */
  datatype Turn = Come(tid: nat, at: nat) | Serve(k: nat) | Quit(i: nat, k: nat) | Move(i: nat, at: nat) | Clear | Stay

  /** The turn can be taken in a queue of this length. */
  predicate Possible(n: nat, t: Turn) {
    match t
    case Come(_, at) => at <= n
    case Serve(k) => k <= n
    case Quit(i, k) => i < n && k < n
    case Move(i, at) => i < n && at < n
    case _ => true
  }

  function After(q: seq<nat>, t: Turn): seq<nat>
    requires Possible(|q|, t)
  {
    match t
    case Come(tid, at) => InsertAt(q, at, tid)
    case Serve(k) => q[k..]
    case Quit(i, k) => Drop(q, i)[k..]
    case Move(i, at) => InsertAt(Drop(q, i), at, q[i])
    case Clear => []
    case Stay => q
  }

  /** Those whose turn it is, in order. */
  function Served(q: seq<nat>, t: Turn): seq<nat>
    requires Possible(|q|, t)
  {
    match t
    case Serve(k) => q[..k]
    case Quit(i, k) => Drop(q, i)[..k]
    case _ => []
  }

  /** The list of those who came and did not leave unserved: the first `had` of them have been served. Only
      coming, leaving unserved and a change of place among those waiting alter it. */
  function Listed(list: seq<nat>, had: nat, t: Turn): seq<nat>
    requires had <= |list| && Possible(|list| - had, t)
  {
    match t
    case Come(tid, at) => InsertAt(list, had + at, tid)
    case Quit(i, _) => Drop(list, had + i)
    case Move(i, at) => InsertAt(Drop(list, had + i), had + at, list[had + i])
    case Clear => list[..had]
    case _ => list
  }

  lemma InsertBehind<T(!new)>(a: seq<T>, b: seq<T>, i: nat, x: T)
    requires i <= |b|
    ensures InsertAt(a + b, |a| + i, x) == a + InsertAt(b, i, x)
  {
  }

  lemma Cut<T>(a: seq<T>, b: seq<T>, k: nat)
    requires k <= |b|
    ensures (a + b[..k]) + b[k..] == a + b
  {
    assert b == b[..k] + b[k..];
  }

  lemma QuitListed(had: seq<nat>, q: seq<nat>, i: nat, k: nat)
    requires Possible(|q|, Quit(i, k))
    ensures Listed(had + q, |had|, Quit(i, k)) == (had + Served(q, Quit(i, k))) + After(q, Quit(i, k))
  {
    DropBehind(had, q, i);
    Cut(had, Drop(q, i), k);
  }

  lemma MoveListed(had: seq<nat>, q: seq<nat>, i: nat, at: nat)
    requires Possible(|q|, Move(i, at))
    ensures Listed(had + q, |had|, Move(i, at)) == had + After(q, Move(i, at))
  {
    hide InsertAt;
    DropBehind(had, q, i);
    InsertBehind(had, Drop(q, i), at, q[i]);
  }

  /** Serving from the front keeps the list: whoever is served is the next on it. */
  lemma ListedStep(had: seq<nat>, q: seq<nat>, t: Turn)
    requires Possible(|q|, t)
    ensures Listed(had + q, |had|, t) == (had + Served(q, t)) + After(q, t)
  {
    hide InsertAt, Drop;
    assert had + [] == had;
    match t
    case Come(tid, at) => InsertBehind(had, q, at, tid);
    case Serve(k) => Cut(had, q, k);
    case Quit(i, k) => QuitListed(had, q, i, k);
    case Move(i, at) => MoveListed(had, q, i, at);
    case Clear => assert (had + q)[..|had|] == had;
    case Stay =>
  }

  // ---------------------------------------------------------------- along a run

  /** The queue goes through `qs`, one turn at a time. */
  ghost predicate Queueing(qs: seq<seq<nat>>, ts: seq<Turn>) {
    && |qs| == |ts| + 1 && qs[0] == []
    && forall i {:trigger ts[i]} :: 0 <= i < |ts| ==> Possible(|qs[i]|, ts[i]) && qs[i + 1] == After(qs[i], ts[i])
  }

  /** Everybody served in the first `n` turns, in order. */
  ghost function AllServed(qs: seq<seq<nat>>, ts: seq<Turn>, n: nat): seq<nat>
    requires Queueing(qs, ts) && n <= |ts|
  {
    if n == 0 then [] else AllServed(qs, ts, n - 1) + Served(qs[n - 1], ts[n - 1])
  }

  /** Everybody served in either of two queues of one object, in order. */
  ghost function AllWoken(qs: seq<seq<nat>>, ts: seq<Turn>, qs': seq<seq<nat>>, ts': seq<Turn>, n: nat): seq<nat>
    requires Queueing(qs, ts) && Queueing(qs', ts') && n <= |ts| == |ts'|
  {
    if n == 0 then []
    else AllWoken(qs, ts, qs', ts', n - 1) + Served(qs[n - 1], ts[n - 1]) + Served(qs'[n - 1], ts'[n - 1])
  }

  /** Everybody who came in the first `n` turns and did not leave unserved. */
  ghost function Everybody(qs: seq<seq<nat>>, ts: seq<Turn>, n: nat): seq<nat>
    requires Queueing(qs, ts) && n <= |ts|
  {
    if n == 0 then []
    else
      var before, had := Everybody(qs, ts, n - 1), |AllServed(qs, ts, n - 1)|;
      if |before| == had + |qs[n - 1]| then Listed(before, had, ts[n - 1]) else []
  }

  /** In every run those served so far, followed by those still waiting, are all who came, in their order. */
  lemma {:induction false} ServedInTurn(qs: seq<seq<nat>>, ts: seq<Turn>, n: nat)
    requires Queueing(qs, ts) && n <= |ts|
    ensures Everybody(qs, ts, n) == AllServed(qs, ts, n) + qs[n]
  {
    hide Listed, Served, After;
    if n > 0 {
      ServedInTurn(qs, ts, n - 1);
      ListedStep(AllServed(qs, ts, n - 1), qs[n - 1], ts[n - 1]);
      assert qs[n] == After(qs[n - 1], ts[n - 1]);
    }
  }

  /** Two queues of one object, receivers and senders, and the tasks woken so far: exactly those are woken
      whose turn it is. */
  ghost predicate Duly(qs: seq<seq<nat>>, ts: seq<Turn>, qs': seq<seq<nat>>, ts': seq<Turn>, ws: seq<seq<nat>>) {
    && Queueing(qs, ts) && Queueing(qs', ts') && |ts| == |ts'| && |ws| == |qs| && ws[0] == []
    && forall i {:trigger ts[i]} :: 0 <= i < |ts| ==> ws[i + 1] == ws[i] + Served(qs[i], ts[i]) + Served(qs'[i], ts'[i])
  }

  /** In every run those served and those still waiting are all who came, in their order, and exactly those
      served have been woken. */
  lemma {:induction false} DulyServed(qs: seq<seq<nat>>, ts: seq<Turn>, qs': seq<seq<nat>>, ts': seq<Turn>, ws: seq<seq<nat>>, n: nat)
    requires Duly(qs, ts, qs', ts', ws) && n <= |ts|
    ensures Everybody(qs, ts, n) == AllServed(qs, ts, n) + qs[n]
    ensures Everybody(qs', ts', n) == AllServed(qs', ts', n) + qs'[n]
    ensures ws[n] == AllWoken(qs, ts, qs', ts', n)
  {
    hide Served, After, Everybody, AllServed;
    ServedInTurn(qs, ts, n);
    ServedInTurn(qs', ts', n);
    if n > 0 {
      DulyServed(qs, ts, qs', ts', ws, n - 1);
      assert ws[n] == ws[n - 1] + Served(qs[n - 1], ts[n - 1]) + Served(qs'[n - 1], ts'[n - 1]);
    }
  }

  // ---------------------------------------------------------------- queues of waiters

  /** The tasks in a queue of waiters. */
  function Tids<T>(q: seq<Waiter<T>>): (r: seq<nat>)
    ensures |r| == |q| && forall i :: 0 <= i < |q| ==> r[i] == q[i].tid
  {
    seq(|q|, i requires 0 <= i < |q| => q[i].tid)
  }

  /** Where a newcomer goes. */
  function EntryPlace<T>(q: seq<Waiter<T>>, pri: nat, byPri: bool): (i: nat)
    ensures i <= |q|
  {
    if byPri then PlaceOf(q, pri) else |q|
  }

  /** Where a waiter goes whose priority changes. */
  function NewPlace<T>(q: seq<Waiter<T>>, i: nat, pri: nat, byPri: bool): (j: nat)
    requires i < |q|
    ensures j < |q|
  {
    if byPri then PlaceOf(Drop(q, i), pri) else i
  }

  lemma EnterTurn<T(!new)>(q: seq<Waiter<T>>, w: Waiter<T>, byPri: bool)
    ensures Tids(Enter(q, w, byPri)) == InsertAt(Tids(q), EntryPlace(q, w.pri, byPri), w.tid)
  {
    var i, r := EntryPlace(q, w.pri, byPri), Enter(q, w, byPri);
    assert forall j :: 0 <= j < |r| ==> r[j] == if j < i then q[j] else if j == i then w else q[j - 1];
  }

  lemma DropTurn<T>(q: seq<Waiter<T>>, i: nat)
    requires i < |q|
    ensures Tids(Drop(q, i)) == Drop(Tids(q), i)
  {
  }

  lemma RestTurn<T>(q: seq<Waiter<T>>, k: nat)
    requires k <= |q|
    ensures Tids(q[k..]) == Tids(q)[k..] && Tids(q[..k]) == Tids(q)[..k]
  {
  }

  lemma FirstTid<T>(q: seq<Waiter<T>>)
    requires q != []
    ensures Tids(q)[..1] == [q[0].tid]
  {
  }

  lemma LastPlace(q: seq<nat>, t: nat)
    ensures InsertAt(q, |q|, t) == q + [t]
  {
  }

  lemma MoveTurn<T(!new)>(q: seq<Waiter<T>>, i: nat, pri: nat, byPri: bool)
    requires i < |q|
    ensures Tids(Reordered(q, i, pri, byPri)) == InsertAt(Drop(Tids(q), i), NewPlace(q, i, pri, byPri), q[i].tid)
  {
    if byPri {
      EnterTurn(Drop(q, i), q[i].(pri := pri), true);
      DropTurn(q, i);
    } else {
      var t := Tids(q);
      assert t == t[..i] + [t[i]] + t[i + 1..];
      assert Drop(t, i)[..i] == t[..i] && Drop(t, i)[i..] == t[i + 1..];
      assert Tids(q[i := q[i].(pri := pri)]) == t;
    }
  }
}
