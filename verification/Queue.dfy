/**
 Queues as rings of doubly linked entries: the header's next entry is the first of the queue, its
 previous entry the last.
 */
module Queue {
  import opened Base

  class Entry {
    var next: Entry     // p_next
    var prev: Entry     // p_prev

    constructor ()
      ensures next == this && prev == this
    {
      next, prev := this, this;
    }
  }

  /** The place after `i` on a ring of `n`. */
  function After(i: nat, n: nat): nat
    requires i < n
  {
    if i + 1 < n then i + 1 else 0
  }

  /** Following the links leads once around the entries of `r`, in order, and back. */
  ghost predicate Ring(r: seq<Entry>)
    reads r
  {
    && r != [] && NoDup(r)
    && forall i {:trigger r[i]} :: 0 <= i < |r| ==> r[i].next == r[After(i, |r|)] && r[After(i, |r|)].prev == r[i]
  }

  /** The ring through `header` holds the queue `q`. */
  ghost predicate IsQueue(header: Entry, q: seq<Entry>)
    reads header, q
  {
    Ring([header] + q)
  }

  /** The same links, read backwards. */
  lemma PrevIs(r: seq<Entry>, i: nat)
    requires Ring(r) && i < |r|
    ensures r[i].prev == r[if i == 0 then |r| - 1 else i - 1]
  {
    assert After(if i == 0 then |r| - 1 else i - 1, |r|) == i;
  }

  /** queue_initialize. */
  method Initialize(header: Entry)
    modifies header
    ensures IsQueue(header, [])
  {
    header.prev := header;
    header.next := header;
    assert [header] + [] == [header];
  }

  /** queue_insert_prev: before the entry at place `i` of the ring; before the header means last. */
  method InsertPrev(at: Entry, entry: Entry, ghost r: seq<Entry>, ghost i: nat)
    requires Ring(r) && i < |r| && r[i] == at && entry !in r
    modifies r, entry
    ensures var p := if i == 0 then |r| else i; Ring(r[..p] + [entry] + r[p..])
  {
    ghost var n := |r|;
    ghost var p := if i == 0 then n else i;
    PrevIs(r, i);
    assert at.prev == r[p - 1];
    ghost var links := Links(r);
    RingJoined(r);
    Distinct(r, i);
    Distinct(r, p - 1);
    hide Ring, NoDup, Joined;
    entry.prev := at.prev;
    entry.next := at;
    at.prev.next := entry;
    at.prev := entry;
    PutIn(r, links, entry, p);
  }

  /** queue_insert_next: behind the entry at place `i` of the ring; behind the header means first. */
  method InsertNext(at: Entry, entry: Entry, ghost r: seq<Entry>, ghost i: nat)
    requires Ring(r) && i < |r| && r[i] == at && entry !in r
    modifies r, entry
    ensures Ring(r[..i + 1] + [entry] + r[i + 1..])
  {
    ghost var links := Links(r);
    RingJoined(r);
    Distinct(r, i);
    Distinct(r, After(i, |r|));
    assert at.next == r[After(i, |r|)];
    hide Ring, NoDup, Joined;
    entry.prev := at;
    entry.next := at.next;
    at.next.prev := entry;
    at.next := entry;
    PutIn(r, links, entry, i + 1);
  }

  /** What every entry of a ring points to. */
  ghost function Links(r: seq<Entry>): (l: seq<(Entry, Entry)>)
    reads r
    ensures |l| == |r| && forall i :: 0 <= i < |r| ==> l[i] == (r[i].next, r[i].prev)
  {
    seq(|r|, i requires 0 <= i < |r| reads r => (r[i].next, r[i].prev))
  }

  /** The links of `r`, as they are or were. */
  ghost predicate Joined(r: seq<Entry>, links: seq<(Entry, Entry)>) {
    && |links| == |r|
    && forall i, j :: 0 <= i < |r| && j == After(i, |r|) ==> links[i].0 == r[j] && links[j].1 == r[i]
  }

  lemma RingJoined(r: seq<Entry>)
    requires Ring(r)
    ensures Joined(r, Links(r))
  {
    forall i, j | 0 <= i < |r| && j == After(i, |r|) ensures Links(r)[i].0 == r[j] && Links(r)[j].1 == r[i] {
      assert r[i].next == r[j];
    }
  }

  lemma Distinct(r: seq<Entry>, i: nat)
    requires Ring(r) && i < |r|
    ensures NoDup(r) && forall k {:trigger r[k]} :: 0 <= k < |r| && k != i ==> r[k] != r[i]
  {
  }

  /** Links that once made a ring make a ring with one more entry between its places `p - 1` and `q`. */
  lemma PutIn(r: seq<Entry>, links: seq<(Entry, Entry)>, entry: Entry, p: nat)
    requires r != [] && NoDup(r) && entry !in r && Joined(r, links) && 1 <= p <= |r|
    requires var q := if p < |r| then p else 0;
             && entry.prev == r[p - 1] && entry.next == r[q] && r[p - 1].next == entry && r[q].prev == entry
             && forall i :: 0 <= i < |r| ==> (i != p - 1 ==> r[i].next == links[i].0) && (i != q ==> r[i].prev == links[i].1)
    ensures Ring(r[..p] + [entry] + r[p..])
  {
    hide NoDup;
    var n, s := |r|, r[..p] + [entry] + r[p..];
    InsertNew(r, p, entry);
    forall j {:trigger s[j]} | 0 <= j < |s| ensures s[j].next == s[After(j, |s|)] && s[After(j, |s|)].prev == s[j] {
      if j == p - 1 {
        assert s[j] == r[p - 1] && s[After(j, n + 1)] == entry;
      } else if j == p {
        assert s[j] == entry && s[After(j, n + 1)] == r[if p < n then p else 0];
      } else {
        var i := if j < p then j else j - 1;
        var k := After(i, n);
        assert s[j] == r[i] && s[After(j, n + 1)] == r[k];
        assert links[i].0 == r[k] && links[k].1 == r[i];
      }
    }
  }

  /** queue_delete: the other entries stay in order. */
  method Delete(entry: Entry, ghost r: seq<Entry>, ghost i: nat)
    requires Ring(r) && 1 <= i < |r| && r[i] == entry
    modifies r
    ensures Ring(r[..i] + r[i + 1..])
  {
    PrevIs(r, i);
    ghost var links := Links(r);
    RingJoined(r);
    entry.prev.next := entry.next;
    entry.next.prev := entry.prev;
    TakeOut(r, links, i);
  }

  /** Links that once made a ring make one without the entry at place `p`. */
  lemma TakeOut(r: seq<Entry>, links: seq<(Entry, Entry)>, p: nat)
    requires NoDup(r) && Joined(r, links) && 1 <= p < |r|
    requires var q := After(p, |r|);
             && r[p - 1].next == r[q] && r[q].prev == r[p - 1]
             && forall i :: 0 <= i < |r| && i != p ==> (i != p - 1 ==> r[i].next == links[i].0) && (i != q ==> r[i].prev == links[i].1)
    ensures Ring(r[..p] + r[p + 1..])
  {
    hide NoDup;
    var n, s := |r|, r[..p] + r[p + 1..];
    CutOut(r, p);
    forall j {:trigger s[j]} | 0 <= j < |s| ensures s[j].next == s[After(j, |s|)] && s[After(j, |s|)].prev == s[j] {
      var i := if j < p then j else j + 1;
      assert s[j] == r[i];
      if j == p - 1 {
        assert s[After(j, n - 1)] == r[After(p, n)];
      } else {
        var k := After(i, n);
        assert k != p && s[After(j, n - 1)] == r[k];
        assert links[i].0 == r[k] && links[k].1 == r[i];
      }
    }
  }

  /** queue_delete_next on a header: takes the first entry of the queue. */
  method DeleteNext(header: Entry, ghost q: seq<Entry>) returns (entry: Entry)
    requires IsQueue(header, q) && q != []
    modifies header, q
    ensures entry == q[0] && IsQueue(header, q[1..])
  {
    ghost var r := [header] + q;
    assert r[0] == header && r[1] == q[0] && After(0, |r|) == 1;
    ghost var links := Links(r);
    RingJoined(r);
    entry := header.next;
    assert entry.next == r[After(1, |r|)];
    header.next := entry.next;
    entry.next.prev := header;
    TakeOut(r, links, 1);
    assert r[..1] + r[2..] == [header] + q[1..];
  }

  /** queue_empty. */
  method Empty(header: Entry, ghost q: seq<Entry>) returns (empty: bool)
    requires IsQueue(header, q)
    ensures empty <==> q == []
  {
    ghost var r := [header] + q;
    assert r[0] == header && header.next == r[After(0, |r|)];
    empty := header.next == header;
  }

  /** queue_insert_prev on a header: the entry becomes the last of the queue. */
  method Append(header: Entry, entry: Entry, ghost q: seq<Entry>)
    requires IsQueue(header, q) && entry != header && entry !in q
    modifies header, q, entry
    ensures IsQueue(header, q + [entry])
  {
    ghost var r := [header] + q;
    InsertPrev(header, entry, r, 0);
    assert r[..|r|] + [entry] + r[|r|..] == [header] + (q + [entry]);
  }
}
