/** Queues of waiting tasks on objects that carry data: first come first served or by task priority. */
module WaitQueue {
  import opened Base

  datatype Waiter<+T> = Waiter(tid: nat, pri: nat, item: T)

  /** queue_insert_tpri: before the first waiter of a lower priority, that is of a larger number. */
  function PlaceOf<T>(q: seq<Waiter<T>>, pri: nat): (i: nat)
    ensures i <= |q| && (i < |q| ==> pri < q[i].pri)
    ensures forall j :: 0 <= j < i ==> q[j].pri <= pri
  {
    if q == [] || pri < q[0].pri then 0 else 1 + PlaceOf(q[1..], pri)
  }

  /** wobj_queue_insert. */
  function Enter<T(!new)>(q: seq<Waiter<T>>, w: Waiter<T>, byPri: bool): (r: seq<Waiter<T>>)
    ensures |r| == |q| + 1
  {
    if byPri then InsertAt(q, PlaceOf(q, w.pri), w) else q + [w]
  }

  /** What the waiters carry, in the order of the queue. */
  function Items<T>(q: seq<Waiter<T>>): (r: seq<T>)
    ensures |r| == |q| && forall i :: 0 <= i < |q| ==> r[i] == q[i].item
  {
    seq(|q|, i requires 0 <= i < |q| => q[i].item)
  }

  function Drop<T>(q: seq<T>, i: nat): (r: seq<T>)
    requires i < |q|
    ensures |r| == |q| - 1
  {
    q[..i] + q[i + 1..]
  }

  /** wobj_change_priority: the `i`-th waiter's priority changes, and in a TA_TPRI queue its place. */
  function Reordered<T(!new)>(q: seq<Waiter<T>>, i: nat, pri: nat, byPri: bool): (r: seq<Waiter<T>>)
    requires i < |q|
    ensures |r| == |q|
  {
    var w := q[i].(pri := pri);
    if byPri then Enter(Drop(q, i), w, true) else q[i := w]
  }

  ghost predicate ByPriority<T>(q: seq<Waiter<T>>) {
    forall i, j :: 0 <= i < j < |q| ==> q[i].pri <= q[j].pri
  }

  /** Entering and leaving keep the order of priorities. */
  lemma StaysByPriority<T(!new)>(q: seq<Waiter<T>>, w: Waiter<T>, i: nat)
    requires ByPriority(q)
    ensures ByPriority(Enter(q, w, true))
    ensures i < |q| ==> ByPriority(Drop(q, i))
  {
    var k := PlaceOf(q, w.pri);
    var r := Enter(q, w, true);
    assert forall j :: 0 <= j < |r| ==> r[j] == if j < k then q[j] else if j == k then w else q[j - 1];
  }

  lemma NoneInOrder<T>()
    ensures ByPriority<T>([])
  {
  }

  lemma RestByPriority<T>(q: seq<Waiter<T>>, k: nat)
    requires ByPriority(q) && k <= |q|
    ensures ByPriority(q[k..])
  {
  }

  lemma ReorderedByPriority<T(!new)>(q: seq<Waiter<T>>, i: nat, pri: nat)
    requires ByPriority(q) && i < |q|
    ensures ByPriority(Reordered(q, i, pri, true))
  {
    StaysByPriority(q, q[i], i);
    StaysByPriority(Drop(q, i), q[i].(pri := pri), 0);
  }

  /** Nobody comes or goes, and everybody carries what he carried. */
  lemma ReorderedFrom<T(!new)>(q: seq<Waiter<T>>, i: nat, pri: nat, byPri: bool, j: nat) returns (k: nat)
    requires i < |q| && j < |q|
    ensures k < |q| && var w := Reordered(q, i, pri, byPri)[j]; w.item == q[k].item && w.tid == q[k].tid
  {
    if byPri {
      var p := PlaceOf(Drop(q, i), pri);
      var l := if j < p then j else j - 1;
      k := if j == p then i else if l < i then l else l + 1;
    } else {
      k := j;
    }
  }

  lemma ReorderedItems<T(!new)>(q: seq<Waiter<T>>, i: nat, pri: nat)
    requires i < |q|
    ensures Items(Reordered(q, i, pri, false)) == Items(q)
  {
  }

  lemma DropBehind<T>(a: seq<T>, b: seq<T>, i: nat)
    requires i < |b|
    ensures Drop(a + b, |a| + i) == a + Drop(b, i)
  {
  }
}
