/**
 The time event heap: an array of references to event blocks, each block knowing its slot. Insertion
 and deletion move an empty node up or down; the order is the modular one of EventTime.
 */
module EventHeap {
  import opened EventTime

  // ---------------------------------------------------------------- heap order on keys

  /** Every node is no earlier than its parent. Slot 0 is not part of the heap. */
  ghost predicate HeapOrdered(key: seq<int>) {
    forall i :: 2 <= i < |key| ==> key[i / 2] <= key[i]
  }

  /** Heap order except at the empty slot `h`, whose parent precedes its children. */
  ghost predicate OrderedAround(key: seq<int>, h: nat) {
    && (forall i :: 2 <= i < |key| && i != h && i / 2 != h ==> key[i / 2] <= key[i])
    && (forall i :: 2 <= i < |key| && i / 2 == h && h > 1 ==> key[h / 2] <= key[i])
  }

  ghost predicate FitsBelow(key: seq<int>, h: nat, t: int) {
    forall i :: 2 <= i < |key| && i / 2 == h ==> t <= key[i]
  }

  ghost predicate FitsAbove(key: seq<int>, h: nat, t: int) {
    1 < h < |key| ==> key[h / 2] <= t
  }

  /** The root of an ordered heap is a minimum. */
  lemma {:induction false} RootIsLeast(key: seq<int>, i: nat)
    requires HeapOrdered(key) && 1 <= i < |key|
    ensures key[1] <= key[i]
  {
    if i > 1 { RootIsLeast(key, i / 2); }
  }

  /** Emptying an ordered slot leaves order around it. */
  lemma Emptied(key: seq<int>, h: nat)
    requires HeapOrdered(key) && 1 <= h
    ensures OrderedAround(key, h)
  {
    forall i | 2 <= i < |key| && i / 2 == h && h > 1 ensures key[h / 2] <= key[i] {
      assert key[h / 2] <= key[h] && key[i / 2] <= key[i];
    }
  }

  /** Filling the empty slot where the time fits restores the order. */
  lemma Filled(key: seq<int>, h: nat, t: int)
    requires 1 <= h < |key| && OrderedAround(key, h) && FitsBelow(key, h, t) && FitsAbove(key, h, t)
    ensures HeapOrdered(key[h := t])
  {
  }

  /** The parent moves down into the empty slot. */
  lemma ParentMoved(key: seq<int>, h: nat, t: int)
    requires 1 < h < |key| && OrderedAround(key, h) && t < key[h / 2]
    ensures OrderedAround(key[h := key[h / 2]], h / 2)
    ensures FitsBelow(key[h := key[h / 2]], h / 2, t)
  {
    var p := h / 2;
    var k := key[h := key[p]];
    forall i | 2 <= i < |k| && i != p && i / 2 != p ensures k[i / 2] <= k[i] {}
    forall i | 2 <= i < |k| && i / 2 == p && p > 1 ensures k[p / 2] <= k[i] {
      assert key[p / 2] <= key[p];
    }
  }

  /** The earlier child moves up into the empty slot. */
  lemma ChildMoved(key: seq<int>, h: nat, c: nat)
    requires 1 <= h && 2 <= c < |key| && c / 2 == h && OrderedAround(key, h)
    requires forall i :: 2 <= i < |key| && i / 2 == h ==> key[c] <= key[i]
    ensures OrderedAround(key[h := key[c]], c)
  {
  }

  /** Order around an empty slot does not depend on what its key is taken to be. */
  lemma SameAround(k1: seq<int>, k2: seq<int>, h: nat, t: int)
    requires |k1| == |k2| && forall i :: 1 <= i < |k1| && i != h ==> k1[i] == k2[i]
    requires h >= 1
    ensures OrderedAround(k1, h) ==> OrderedAround(k2, h)
    ensures FitsBelow(k1, h, t) ==> FitsBelow(k2, h, t)
    ensures FitsAbove(k1, h, t) ==> FitsAbove(k2, h, t)
  {
    if OrderedAround(k1, h) {
      forall i | 2 <= i < |k2| && i != h && i / 2 != h ensures k2[i / 2] <= k2[i] { assert k1[i / 2] <= k1[i]; }
    }
  }

  /** Order around a slot beyond the end is plain order. */
  lemma AroundNothing(key: seq<int>, h: nat)
    requires OrderedAround(key, h) && h >= |key|
    ensures HeapOrdered(key)
  {
  }

  lemma SameOrder(k1: seq<int>, k2: seq<int>)
    requires |k1| == |k2| && forall i :: 1 <= i < |k1| ==> k1[i] == k2[i]
    ensures HeapOrdered(k1) ==> HeapOrdered(k2)
  {
    if HeapOrdered(k1) {
      forall i | 2 <= i < |k2| ensures k2[i / 2] <= k2[i] { assert k1[i / 2] <= k1[i]; }
    }
  }

  lemma HeapOrderedPrefix(key: seq<int>, n: nat)
    requires HeapOrdered(key) && n <= |key|
    ensures HeapOrdered(key[..n])
  {
    forall i | 2 <= i < n ensures key[..n][i / 2] <= key[..n][i] { assert key[i / 2] <= key[i]; }
  }

  /** A new last slot, empty, has nothing below it. */
  lemma Extended(key: seq<int>, k: seq<int>)
    requires HeapOrdered(key) && |k| == |key| + 1 && |key| >= 1 && forall i :: 1 <= i < |key| ==> k[i] == key[i]
    ensures OrderedAround(k, |key|) && forall t :: FitsBelow(k, |key|, t)
  {
    forall i | 2 <= i < |k| && i != |key| && i / 2 != |key| ensures k[i / 2] <= k[i] { assert key[i / 2] <= key[i]; }
  }

  // ---------------------------------------------------------------- the structure

  /** TMEVTB; the callback and its argument play no part in the heap. */
  class TimeEventBlock {
    var evttim: U32
    var node: nat           // p_tmevtn, as a slot number
    ghost var due: int      // the unbounded time evttim stands for

    constructor (t: U32, ghost d: int)
      ensures evttim == t && due == d
    {
      evttim, node, due := t, 0, d;
    }
  }

  class TimeEventHeap {
    const slots: array<TimeEventBlock?>   // slot 0 holds p_last in the source
    var last: nat                         // p_last as a slot number: how many blocks there are
    ghost var blocks: set<TimeEventBlock>

    /** Slots and blocks match one to one, except that slot `h` is empty. */
    ghost predicate Shaped(h: nat)
      reads this, slots, blocks
    {
      && last < slots.Length
      && (forall i :: 1 <= i <= last && i != h ==> Occupied(i))
      && (forall x :: x in blocks ==> 1 <= x.node <= last && x.node != h && slots[x.node] == x)
    }

    /** Slot `i` holds a registered block that points back to it. */
    ghost predicate Occupied(i: nat)
      reads this, slots, blocks
    {
      i < slots.Length && slots[i] != null && slots[i] in blocks && slots[i].node == i
    }

    ghost predicate Valid()
      reads this, slots, blocks
    {
      Shaped(0)
    }

    /** The advances of the registered times, slot by slot. */
    ghost function Keys(b: U32): (key: seq<int>)
      reads this, slots, blocks
      ensures |key| == last + 1
      ensures forall i :: 0 <= i <= last && Occupied(i) ==> key[i] == Advance(slots[i].evttim, b)
    {
      seq(last + 1, i requires 0 <= i reads this, slots, blocks => if Occupied(i) then Advance(slots[i].evttim, b) else 0)
    }

    ghost predicate Ordered(b: U32)
      reads this, slots, blocks
    {
      HeapOrdered(Keys(b))
    }

    constructor (capacity: nat)
      ensures Valid() && blocks == {} && last == 0 && slots.Length == capacity + 1 && fresh(slots)
      ensures forall b :: Ordered(b)
    {
      slots := new TimeEventBlock?[capacity + 1](_ => null);
      last := 0;
      blocks := {};
    }

    /** The block in slot `from` moves to the empty slot `to`; `from` becomes the empty one. */
    method MoveNode(from: nat, to: nat, b: U32)
      requires 1 <= from <= last && 1 <= to <= last && from != to && Shaped(to)
      modifies slots, blocks`node
      ensures Shaped(from) && forall i :: 1 <= i <= last && i != from ==> Keys(b)[i] == old(Keys(b))[if i == to then from else i]
    {
      assert Occupied(from);
      slots[to] := slots[from];
      slots[to].node := to;
      assert Occupied(to);
      forall i | 1 <= i <= last && i != from ensures Occupied(i) {
        assert i != to ==> old(Occupied(i));
      }
    }

    /** tmevt_up: moves the empty slot towards the root until `evttim` fits. */
    method Up(start: nat, evttim: U32, b: U32) returns (p: nat)
      requires 1 <= start <= last && Shaped(start) && OrderedAround(Keys(b), start)
      requires FitsBelow(Keys(b), start, Advance(evttim, b))
      modifies slots, blocks`node
      ensures 1 <= p <= last && Shaped(p) && OrderedAround(Keys(b), p)
      ensures FitsBelow(Keys(b), p, Advance(evttim, b)) && FitsAbove(Keys(b), p, Advance(evttim, b))
    {
      p := start;
      while p > 1
        invariant 1 <= p <= last && Shaped(p) && OrderedAround(Keys(b), p) && FitsBelow(Keys(b), p, Advance(evttim, b))
        decreases p
      {
        var parent := p / 2;
        assert Occupied(parent);
        if Le(slots[parent].evttim, evttim, b) {
          break;
        }
        p := PushDown(p, evttim, b);
      }
    }

    /** The earlier child of slot `p`, the left one if they are equal. */
    method EarlierChild(p: nat, b: U32) returns (child: nat)
      requires 1 <= p && Shaped(p) && 2 * p <= last
      ensures 2 <= child <= last && child / 2 == p
      ensures forall i :: 2 <= i <= last && i / 2 == p ==> Keys(b)[child] <= Keys(b)[i]
    {
      child := 2 * p;
      assert Occupied(child);
      if child + 1 <= last {
        assert Occupied(child + 1);
        if Lt(slots[child + 1].evttim, slots[child].evttim, b) {
          child := child + 1;
        }
      }
      assert forall i :: 2 <= i <= last && i / 2 == p ==> i == 2 * p || i == 2 * p + 1;
    }

    /** tmevt_down: moves the empty slot towards the leaves until `evttim` fits. */
    method Down(start: nat, evttim: U32, b: U32) returns (p: nat)
      requires 1 <= start && Shaped(start) && OrderedAround(Keys(b), start) && FitsAbove(Keys(b), start, Advance(evttim, b))
      modifies slots, blocks`node
      ensures Shaped(p) && OrderedAround(Keys(b), p) && (if start <= last then 1 <= p <= last else p == start)
      ensures FitsBelow(Keys(b), p, Advance(evttim, b)) && FitsAbove(Keys(b), p, Advance(evttim, b))
    {
      hide HeapOrdered, OrderedAround, FitsAbove, Wrap;
      p := start;
      while 2 * p <= last
        invariant 1 <= p && Shaped(p) && OrderedAround(Keys(b), p) && FitsAbove(Keys(b), p, Advance(evttim, b))
        invariant if start <= last then p <= last else p == start
        decreases last - p
      {
        var child := EarlierChild(p, b);
        assert Occupied(child);
        if Le(evttim, slots[child].evttim, b) {
          break;
        }
        p := PullUp(p, child, evttim, b);
      }
    }

    /** The earlier child moves up; its slot is the empty one now. */
    method PullUp(p: nat, child: nat, evttim: U32, b: U32) returns (r: nat)
      requires 1 <= p && Shaped(p) && 2 <= child <= last && child / 2 == p && OrderedAround(Keys(b), p)
      requires forall i :: 2 <= i <= last && i / 2 == p ==> Keys(b)[child] <= Keys(b)[i]
      requires Keys(b)[child] <= Advance(evttim, b)
      modifies slots, blocks`node
      ensures r == child && Shaped(r) && OrderedAround(Keys(b), r) && FitsAbove(Keys(b), r, Advance(evttim, b))
    {
      ghost var key := Keys(b);
      ChildMoved(key, p, child);
      MoveNode(child, p, b);
      SameAround(key[p := key[child]], Keys(b), child, Advance(evttim, b));
      r := child;
    }

    /** Puts a block into the empty slot. */
    method Occupy(p: nat, block: TimeEventBlock, b: U32)
      requires 1 <= p <= last && Shaped(p) && block !in blocks
      modifies slots, block`node, `blocks
      ensures Valid() && blocks == old(blocks) + {block} && block.node == p
      ensures forall i :: 1 <= i <= last ==> Keys(b)[i] == if i == p then Advance(block.evttim, b) else old(Keys(b))[i]
    {
      hide Wrap;
      slots[p] := block;
      block.node := p;
      blocks := blocks + {block};
      assert Occupied(p);
      forall i | 1 <= i <= last && i != p ensures Occupied(i) && slots[i] == old(slots[i]) {
        assert old(Occupied(i));
      }
    }

    /** Puts a block into the empty slot, where its time fits. */
    method Place(p: nat, block: TimeEventBlock, b: U32)
      requires 1 <= p <= last && Shaped(p) && block !in blocks
      requires OrderedAround(Keys(b), p) && FitsBelow(Keys(b), p, Advance(block.evttim, b))
      requires FitsAbove(Keys(b), p, Advance(block.evttim, b))
      modifies slots, block`node, `blocks
      ensures Valid() && Ordered(b) && blocks == old(blocks) + {block} && block.node == p
    {
      hide HeapOrdered, OrderedAround, FitsBelow, FitsAbove, Occupied, Wrap;
      ghost var key := Keys(b);
      Filled(key, p, Advance(block.evttim, b));
      Occupy(p, block, b);
      SameOrder(key[p := Advance(block.evttim, b)], Keys(b));
    }

    /** tmevtb_insert. */
    method Insert(block: TimeEventBlock, b: U32)
      requires Valid() && Ordered(b) && block !in blocks && last + 1 < slots.Length
      modifies `last, `blocks, slots, blocks`node, block`node
      ensures Valid() && Ordered(b) && blocks == old(blocks) + {block} && last == old(last) + 1
    {
      ghost var key := Keys(b);
      last := last + 1;
      assert forall i :: 1 <= i < last ==> Occupied(i);
      Extended(key, Keys(b));
      var p := Up(last, block.evttim, b);
      Place(p, block, b);
    }

    /** The last slot is given up; slot `h` is empty from now on. */
    method Shrink(h: nat, b: U32) returns (moved: TimeEventBlock)
      requires Valid() && Ordered(b) && 1 <= h <= last
      modifies `last, `blocks
      ensures last == old(last) - 1 && Shaped(h) && OrderedAround(Keys(b), h)
      ensures moved == old(slots[last]) && moved in old(blocks) && blocks == old(blocks) - {moved, slots[h]}
    {
      assert Occupied(last) && Occupied(h);
      ghost var key := Keys(b);
      HeapOrderedPrefix(key, last);
      Emptied(key[..last], h);
      hide HeapOrdered, OrderedAround;
      moved := slots[last];
      blocks := blocks - {moved, slots[h]};
      last := last - 1;
      forall i | 1 <= i <= last && i != h ensures Occupied(i) && Keys(b)[i] == key[i] {
        assert old(Occupied(i));
      }
      SameAround(key[..last + 1], Keys(b), h, 0);
    }

    /** tmevtb_delete: removes a block from whatever slot it is in. */
    method Delete(block: TimeEventBlock, b: U32)
      requires Valid() && Ordered(b) && block in blocks
      modifies `last, `blocks, slots, blocks`node
      ensures Valid() && Ordered(b) && blocks == old(blocks) - {block} && last == old(last) - 1
    {
      var p := block.node;
      assert Occupied(p) && (p > 1 ==> Occupied(p / 2));
      ghost var before := p > 1 ==> Le(slots[p / 2].evttim, block.evttim, b);
      assert before by { assert p > 1 ==> Keys(b)[p / 2] <= Keys(b)[p]; }
      var moved := Shrink(p, b);
      if last >= 1 {
        Refill(p, moved, b);
      }
    }

    /** The last block goes where slot `p` was emptied, above or below. If it was itself the block in
        slot `p`, it is out of the heap already. */
    method Refill(p: nat, moved: TimeEventBlock, b: U32)
      requires Shaped(p) && OrderedAround(Keys(b), p) && 1 <= p <= last + 1 && last >= 1 && moved !in blocks
      requires p == last + 1 ==> Occupied(p / 2) && Le(slots[p / 2].evttim, moved.evttim, b)
      modifies slots, blocks`node, `blocks, moved`node
      ensures Valid() && Ordered(b)
      ensures blocks == if p <= last then old(blocks) + {moved} else old(blocks)
    {
      hide HeapOrdered, OrderedAround;
      var q := p;
      assert p > 1 ==> Occupied(p / 2);
      if p > 1 && Lt(moved.evttim, slots[p / 2].evttim, b) {
        q := PushDown(p, moved.evttim, b);
        q := Up(q, moved.evttim, b);
      } else {
        q := Down(p, moved.evttim, b);
      }
      if p <= last {
        Place(q, moved, b);
      } else {
        AroundNothing(Keys(b), p);
      }
    }

    /** The parent of the empty slot moves down; its slot is the empty one now. */
    method PushDown(p: nat, evttim: U32, b: U32) returns (r: nat)
      requires 1 < p <= last && Shaped(p) && OrderedAround(Keys(b), p) && Advance(evttim, b) < Keys(b)[p / 2]
      modifies slots, blocks`node
      ensures r == p / 2 && Shaped(r) && OrderedAround(Keys(b), r) && FitsBelow(Keys(b), r, Advance(evttim, b))
    {
      ghost var key := Keys(b);
      ParentMoved(key, p, Advance(evttim, b));
      r := p / 2;
      MoveNode(r, p, b);
      SameAround(key[p := key[r]], Keys(b), r, Advance(evttim, b));
    }

    /** tmevtb_delete_top: removes and returns an earliest block. */
    method DeleteTop(b: U32) returns (top: TimeEventBlock)
      requires Valid() && Ordered(b) && last >= 1
      modifies `last, `blocks, slots, blocks`node
      ensures Valid() && Ordered(b) && top in old(blocks) && blocks == old(blocks) - {top} && last == old(last) - 1
      ensures forall x :: x in old(blocks) ==> Le(top.evttim, x.evttim, b)
    {
      hide HeapOrdered, OrderedAround;
      top := Top(b);
      var moved := Shrink(1, b);
      if last >= 1 {
        RefillRoot(moved, b);
      } else {
        AroundNothing(Keys(b), 1);
      }
    }

    /** The last block sinks from the root to where it fits. */
    method RefillRoot(moved: TimeEventBlock, b: U32)
      requires Shaped(1) && OrderedAround(Keys(b), 1) && last >= 1 && moved !in blocks
      modifies slots, blocks`node, `blocks, moved`node
      ensures Valid() && Ordered(b) && blocks == old(blocks) + {moved}
    {
      var p := Down(1, moved.evttim, b);
      Place(p, moved, b);
    }

    /** The block at the root is an earliest one. */
    method Top(b: U32) returns (top: TimeEventBlock)
      requires Valid() && Ordered(b) && last >= 1
      ensures top in blocks && top.node == 1
      ensures forall x :: x in blocks ==> Le(top.evttim, x.evttim, b)
    {
      assert Occupied(1);
      top := slots[1];
      forall x | x in blocks ensures Le(top.evttim, x.evttim, b) {
        assert Occupied(x.node);
        RootIsLeast(Keys(b), x.node);
      }
    }
  
    // ---------------------------------------------------------------- unbounded times

    /** Every registered time is the 32-bit image of an unbounded time the boundary can order. */
    ghost predicate Timely(b: int)
      reads this, slots, blocks
    {
      forall x :: x in blocks ==> x.evttim == Wrap(x.due) && InWindow(x.due, b)
    }

    /** Moving the boundary keeps the heap in order, as long as both windows hold all its times: the
        update of boundary_evttim never needs to touch the heap. */
    lemma BoundaryMoves(b1: int, b2: int)
      requires Valid() && Timely(b1) && Timely(b2) && Ordered(Wrap(b1))
      ensures Ordered(Wrap(b2))
    {
      var k1, k2 := Keys(Wrap(b1)), Keys(Wrap(b2));
      forall i | 2 <= i < |k2| ensures k2[i / 2] <= k2[i] {
        assert Occupied(i) && Occupied(i / 2) && k1[i / 2] <= k1[i];
        OrderAgrees(slots[i / 2].due, slots[i].due, b1);
        OrderAgrees(slots[i / 2].due, slots[i].due, b2);
      }
    }

    /** The root's unbounded time is the least of all. */
    lemma RootIsEarliest(b: int, x: TimeEventBlock)
      requires Valid() && Timely(b) && Ordered(Wrap(b)) && x in blocks
      ensures last >= 1 && Occupied(1) && slots[1].due <= x.due
    {
      assert Occupied(1) && Occupied(x.node);
      RootIsLeast(Keys(Wrap(b)), x.node);
      OrderAgrees(slots[1].due, x.due, b);
    }

    // ---------------------------------------------------------------- room

    /** As many blocks as slots. */
    lemma Count()
      requires Valid()
      ensures |blocks| == last
    {
      CountUpTo(last);
      assert blocks == set x | x in blocks && x.node <= last;
    }

    lemma {:induction false} CountUpTo(n: nat)
      requires Valid() && n <= last
      ensures |set x | x in blocks && x.node <= n| == n
    {
      if n > 0 {
        CountUpTo(n - 1);
        assert Occupied(n);
        assert (set x | x in blocks && x.node <= n) == (set x | x in blocks && x.node <= n - 1) + {slots[n]};
      } else {
        assert (set x | x in blocks && x.node <= n) == {};
      }
    }
  }
}
