/** The ready-queue priority bitmap and its search for the lowest set bit. */
module Bitmap {

  /** PRIMAP_BIT: the mask of bit `i`. */
  function Mask(i: nat): bv16
    requires i < 16
  {
    if i == 0 then 0x0001 else if i == 1 then 0x0002 else if i == 2 then 0x0004 else if i == 3 then 0x0008
    else if i == 4 then 0x0010 else if i == 5 then 0x0020 else if i == 6 then 0x0040 else if i == 7 then 0x0080
    else if i == 8 then 0x0100 else if i == 9 then 0x0200 else if i == 10 then 0x0400 else if i == 11 then 0x0800
    else if i == 12 then 0x1000 else if i == 13 then 0x2000 else if i == 14 then 0x4000 else 0x8000
  }

  predicate Meets(m: bv16, a: bv16) { m & a != 0 }

  function Or(m: bv16, a: bv16): bv16 { m | a }

  function AndNot(m: bv16, a: bv16): bv16 { m & !a }

  predicate Bit(m: bv16, i: nat)
    requires i < 16
  {
    Meets(m, Mask(i))
  }

  function Set(m: bv16, i: nat): bv16
    requires i < 16
  {
    Or(m, Mask(i))
  }

  function Clear(m: bv16, i: nat): bv16
    requires i < 16
  {
    AndNot(m, Mask(i))
  }

  lemma OrMeets(m: bv16, a: bv16, b: bv16)
    ensures !Meets(a, b) ==> (Meets(Or(m, a), b) <==> Meets(m, b))
    ensures a != 0 ==> Meets(Or(m, a), a)
  {
  }

  lemma AndNotMeets(m: bv16, a: bv16, b: bv16)
    ensures !Meets(a, b) ==> (Meets(AndNot(m, a), b) <==> Meets(m, b))
    ensures !Meets(AndNot(m, a), a)
  {
  }

  lemma MasksMeet(i: nat, j: nat)
    requires i < 16 && j < 16
    ensures Meets(Mask(i), Mask(j)) <==> i == j
    ensures Mask(i) != 0
  {
  }

  /** Setting a bit sets that bit and no other. */
  lemma SetBit(m: bv16, i: nat, j: nat)
    requires i < 16 && j < 16
    ensures Bit(Set(m, i), j) <==> j == i || Bit(m, j)
  {
    hide Mask, Meets, Or;
    MasksMeet(i, j);
    OrMeets(m, Mask(i), Mask(j));
  }

  /** Clearing a bit clears that bit and no other. */
  lemma ClearBit(m: bv16, i: nat, j: nat)
    requires i < 16 && j < 16
    ensures Bit(Clear(m, i), j) <==> j != i && Bit(m, j)
  {
    hide Mask, Meets, AndNot;
    MasksMeet(i, j);
    AndNotMeets(m, Mask(i), Mask(j));
  }

  /** The bitmap is zero exactly when no bit is set. */
  lemma ZeroBits(m: bv16)
    ensures m == 0 <==> forall i :: 0 <= i < 16 ==> !Bit(m, i)
  {
    if forall i :: 0 <= i < 16 ==> !Bit(m, i) {
      assert !Bit(m, 0) && !Bit(m, 1) && !Bit(m, 2) && !Bit(m, 3) && !Bit(m, 4) && !Bit(m, 5) && !Bit(m, 6) && !Bit(m, 7);
      assert !Bit(m, 8) && !Bit(m, 9) && !Bit(m, 10) && !Bit(m, 11) && !Bit(m, 12) && !Bit(m, 13) && !Bit(m, 14) && !Bit(m, 15);
    }
  }

  const BITMAP_SEARCH_TABLE: seq<nat> := [0, 1, 0, 2, 0, 1, 0, 3, 0, 1, 0, 2, 0, 1, 0]

  /** Four-bit group `g` of the word, as the search isolates it. */
  function Group(b: bv16, g: nat): bv16
    requires g < 4
  {
    if g == 0 then b & 0x000f
    else if g == 1 then (b >> 4) & 0x000f
    else if g == 2 then (b >> 8) & 0x000f
    else ((b >> 8) >> 4) & 0x000f
  }

  /** The table gives the lowest set bit of every non-zero four-bit value. */
  lemma TableEntry(x: bv16)
    requires 0 < x <= 0x000f
    ensures 0 <= (x - 1) as int < |BITMAP_SEARCH_TABLE|
    ensures var e := BITMAP_SEARCH_TABLE[(x - 1) as int];
            e < 4 && Bit(x, e) && forall i :: 0 <= i < e ==> !Bit(x, i)
  {
    if x == 1 {} else if x == 2 {} else if x == 3 {} else if x == 4 {} else if x == 5 {} else if x == 6 {}
    else if x == 7 {} else if x == 8 {} else if x == 9 {} else if x == 10 {} else if x == 11 {} else if x == 12 {}
    else if x == 13 {} else if x == 14 {} else { assert x == 15; }
  }

  lemma GroupMeets(b: bv16, a: bv16)
    requires a <= 8
    ensures Meets(Group(b, 0), a) <==> Meets(b, a)
    ensures Meets(Group(b, 1), a) <==> Meets(b, a << 4)
    ensures Meets(Group(b, 2), a) <==> Meets(b, a << 8)
    ensures Meets(Group(b, 3), a) <==> Meets(b, a << 12)
  {
  }

  lemma MaskShift(i: nat)
    requires i < 4
    ensures Mask(i) <= 8
    ensures Mask(4 + i) == Mask(i) << 4 && Mask(8 + i) == Mask(i) << 8 && Mask(12 + i) == Mask(i) << 12
  {
  }

  /** The bits of a group are bits of the word. */
  lemma GroupBits(b: bv16, g: nat, i: nat)
    requires g < 4 && i < 4
    ensures Bit(Group(b, g), i) <==> Bit(b, 4 * g + i)
  {
    MaskShift(i);
    hide Mask, Meets, Group;
    GroupMeets(b, Mask(i));
  }

  lemma GroupRange(b: bv16, g: nat)
    requires g < 4
    ensures Group(b, g) <= 0x000f
  {
  }

  lemma GroupClear(b: bv16, g: nat, i: nat)
    requires g < 4 && Group(b, g) == 0 && 4 * g <= i < 4 * g + 4
    ensures !Bit(b, i)
  {
    GroupBits(b, g, i - 4 * g);
    hide Group;
  }

  /** Which group the two halving steps leave. */
  lemma Halving(b: bv16)
    requires b != 0
    ensures b & 0x00ff == 0 ==> Group(b, 0) == 0 && Group(b, 1) == 0 && (Group(b, 2) != 0 || Group(b, 3) != 0)
    ensures b & 0x00ff != 0 ==> Group(b, 0) != 0 || Group(b, 1) != 0
  {
  }

  /** bitmap_search: halves the word twice, then looks the last four bits up. */
  method BitmapSearch(bitmap: bv16) returns (n: nat)
    requires bitmap != 0
    ensures n < 16 && Bit(bitmap, n)
    ensures forall i :: 0 <= i < n ==> !Bit(bitmap, i)
  {
    hide Bit;
    Halving(bitmap);
    var m := bitmap;
    n := 0;
    if m & 0x00ff == 0 {
      m := m >> 8;
      n := n + 8;
    }
    if m & 0x000f == 0 {
      m := m >> 4;
      n := n + 4;
    }
    ghost var g := n / 4;
    var x := m & 0x000f;
    assert x == Group(bitmap, g) && x != 0;
    n := LookUp(bitmap, g, n, x);
  }

  /** The last step of bitmap_search, on the lowest non-zero group. */
  method LookUp(bitmap: bv16, ghost g: nat, base: nat, x: bv16) returns (n: nat)
    requires g < 4 && base == 4 * g && x == Group(bitmap, g) && x != 0
    requires forall h :: 0 <= h < g ==> Group(bitmap, h) == 0
    ensures n < 16 && Bit(bitmap, n)
    ensures forall i :: 0 <= i < n ==> !Bit(bitmap, i)
  {
    GroupRange(bitmap, g);
    hide Mask, Group, Bit, Meets;
    TableEntry(x);
    var e := BITMAP_SEARCH_TABLE[(x - 1) as int];
    n := base + e;
    GroupBits(bitmap, g, e);
    forall i | 0 <= i < n ensures !Bit(bitmap, i) {
      if i < base { GroupClear(bitmap, i / 4, i); } else { GroupBits(bitmap, g, i - base); }
    }
  }
}
