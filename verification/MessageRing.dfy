/**
 The ring of a message buffer: variable-length records, each a word holding the length and the message
 rounded up to whole words, wrapping at the end of the area, in the middle of a message if need be.
 */
module MessageRing {
  import opened Base

  type Byte = x: int | 0 <= x < 256

  type Message = seq<Byte>

  const WORD_SIZE: nat := 4     // sizeof(uint_t)
  const UINT_RANGE: int := 0x1_0000_0000

  predicate Aligned(n: int) { n % WORD_SIZE == 0 }

  function RoundUp(n: nat): (r: nat)
    ensures n <= r < n + WORD_SIZE && Aligned(r)
  {
    (n + 3) / 4 * 4
  }

  lemma AlignedSums(a: int, b: int)
    requires Aligned(a) && Aligned(b)
    ensures Aligned(a + b) && Aligned(a - b) && (a < b ==> a + WORD_SIZE <= b)
  {
  }

  lemma RoundUpLeast(n: nat, k: nat)
    requires Aligned(k) && n <= k
    ensures RoundUp(n) <= k
  {
  }

  /** Cutting whole words off the front shortens the rounded size by as much. */
  lemma RoundUpRest(n: nat, cut: nat)
    requires Aligned(cut) && cut <= n
    ensures RoundUp(n - cut) == RoundUp(n) - cut
  {
  }

  /** The room one message takes. */
  function Alloc(msgsz: nat): nat { WORD_SIZE + RoundUp(msgsz) }

  function Used(ms: seq<Message>): nat {
    if ms == [] then 0 else Alloc(|ms[0]|) + Used(ms[1..])
  }

  /** A word in memory, low byte first. */
  function EncodeWord(n: nat): (bs: seq<Byte>)
    requires n < UINT_RANGE
    ensures |bs| == WORD_SIZE
  {
    var n1 := n / 256;
    var n2 := n1 / 256;
    [n % 256, n1 % 256, n2 % 256, n2 / 256]
  }

  function DecodeWord(bs: seq<Byte>): (n: nat)
    requires |bs| == WORD_SIZE
  {
    (bs[0] as int) + 256 * (bs[1] as int) + 65536 * (bs[2] as int) + 16777216 * (bs[3] as int)
  }

  lemma WordRoundTrip(n: nat)
    requires n < UINT_RANGE
    ensures DecodeWord(EncodeWord(n)) == n
  {
  }

  /** What a stored message fixes of memory: its length, its bytes, but not the padding. */
  function Record(m: Message): (r: seq<Option<Byte>>)
    requires |m| < UINT_RANGE
    ensures |r| == Alloc(|m|)
    ensures forall i :: 0 <= i < WORD_SIZE ==> r[i] == Some(EncodeWord(|m|)[i])
    ensures forall i :: 0 <= i < |m| ==> r[WORD_SIZE + i] == Some(m[i])
    ensures forall i :: WORD_SIZE + |m| <= i < |r| ==> r[i] == None
  {
    seq(WORD_SIZE, i requires 0 <= i < WORD_SIZE => Some(EncodeWord(|m|)[i]))
      + seq(|m|, i requires 0 <= i < |m| => Some(m[i]))
      + seq(RoundUp(|m|) - |m|, _ => None)
  }

  ghost predicate Sized(ms: seq<Message>) {
    forall i :: 0 <= i < |ms| ==> |ms[i]| < UINT_RANGE
  }

  function Image(ms: seq<Message>): (r: seq<Option<Byte>>)
    requires Sized(ms)
    ensures |r| == Used(ms)
  {
    if ms == [] then [] else Record(ms[0]) + Image(ms[1..])
  }

  lemma {:induction false} ImageAppend(ms: seq<Message>, m: Message)
    requires Sized(ms) && |m| < UINT_RANGE
    ensures Sized(ms + [m]) && Image(ms + [m]) == Image(ms) + Record(m)
  {
    if ms == [] {
      assert ms + [m] == [m];
      assert [m][1..] == [];
      assert Image([m]) == Record(m) + [];
    } else {
      assert (ms + [m])[1..] == ms[1..] + [m];
      ImageAppend(ms[1..], m);
    }
  }

  /** How far behind `at` position `p` comes on a ring of size `n`. */
  function Ahead(at: nat, p: nat, n: nat): nat
    requires at < n && p < n
  {
    if at <= p then p - at else p + n - at
  }

  /** A place on the ring, `d` further on. */
  function Onward(at: nat, d: nat, n: nat): nat
    requires at < n && d <= n
  {
    if at + d < n then at + d else at + d - n
  }

  /** `p` seen from two places: `used` further on the ring. */
  lemma AheadMoves(at: nat, to: nat, used: nat, p: nat, n: nat)
    requires at < n && p < n && used <= n && to == Onward(at, used, n)
    ensures to < n && Ahead(to, p, n) == if used <= Ahead(at, p, n) then Ahead(at, p, n) - used else Ahead(at, p, n) + n - used
  {
  }

  /** Memory agrees with what the stored messages fix, read from `head` on. */
  ghost predicate Holds(mem: seq<Byte>, head: nat, image: seq<Option<Byte>>) {
    && head < |mem|
    && forall p {:trigger mem[p]} :: 0 <= p < |mem| ==>
         Ahead(head, p, |mem|) < |image| && image[Ahead(head, p, |mem|)].Some? ==> mem[p] == image[Ahead(head, p, |mem|)].value
  }

  /** The ring after `data` was put down from `at` on. */
  ghost predicate PutDown(before: seq<Byte>, after: seq<Byte>, at: nat, data: seq<Byte>) {
    && at < |before| == |after|
    && forall p {:trigger after[p]} :: 0 <= p < |before| ==>
         after[p] == if Ahead(at, p, |before|) < |data| then data[Ahead(at, p, |before|)] else before[p]
  }

  lemma WordAligned()
    ensures Aligned(0) && Aligned(WORD_SIZE)
  {
  }

  lemma AlignedOnward(at: nat, d: nat, n: nat)
    requires at < n && d <= n && Aligned(at) && Aligned(d) && Aligned(n)
    ensures Aligned(Onward(at, d, n))
  {
    AlignedSums(at, d);
    AlignedSums(at + d, n);
  }

  /** Putting down the length and then the message behind what is stored stores one record more. */
  lemma Appended(before: seq<Byte>, mid: seq<Byte>, after: seq<Byte>, head: nat, image: seq<Option<Byte>>, m: Message)
    requires |m| < UINT_RANGE && Holds(before, head, image) && |image| + Alloc(|m|) <= |before|
    requires var tail := Onward(head, |image|, |before|);
             PutDown(before, mid, tail, EncodeWord(|m|)) && PutDown(mid, after, Onward(tail, WORD_SIZE, |before|), m)
    ensures Holds(after, head, image + Record(m))
  {
    hide EncodeWord;
    var n, record := |before|, Record(m);
    var tail := Onward(head, |image|, n);
    var at := Onward(tail, WORD_SIZE, n);
    forall p {:trigger after[p]} | 0 <= p < n && Ahead(head, p, n) < |image + record| && (image + record)[Ahead(head, p, n)].Some?
      ensures after[p] == (image + record)[Ahead(head, p, n)].value
    {
      AheadMoves(head, tail, |image|, p, n);
      AheadMoves(tail, at, WORD_SIZE, p, n);
      assert mid[p] == if Ahead(tail, p, n) < WORD_SIZE then EncodeWord(|m|)[Ahead(tail, p, n)] else before[p];
      if Ahead(head, p, n) < |image| {
        assert image[Ahead(head, p, n)].Some?;
      } else {
        var i := Ahead(head, p, n) - |image|;
        assert (image + record)[Ahead(head, p, n)] == record[i] && i == Ahead(tail, p, n);
        if i >= WORD_SIZE { assert i < WORD_SIZE + |m|; }
      }
    }
  }

  /** The stored bytes from `at` on, going on at the start of the area. */
  function Stretch(mem: seq<Byte>, at: nat, size: nat): (r: seq<Byte>)
    requires at < |mem| && size <= |mem|
    ensures |r| == size
  {
    if at + size <= |mem| then mem[at..at + size] else mem[at..] + mem[..at + size - |mem|]
  }

  lemma StretchAt(mem: seq<Byte>, at: nat, size: nat, i: nat)
    requires at < |mem| && size <= |mem| && i < size
    ensures Onward(at, i, |mem|) < |mem| && Stretch(mem, at, size)[i] == mem[Onward(at, i, |mem|)]
    ensures Ahead(at, Onward(at, i, |mem|), |mem|) == i
  {
  }

  /** The first record can be read back, and what follows it is the image of the rest. */
  lemma FirstRecord(mem: seq<Byte>, head: nat, m: Message, image: seq<Option<Byte>>)
    requires |m| < UINT_RANGE && Holds(mem, head, Record(m) + image) && Alloc(|m|) + |image| <= |mem|
    ensures Stretch(mem, head, WORD_SIZE) == EncodeWord(|m|)
    ensures Stretch(mem, Onward(head, WORD_SIZE, |mem|), |m|) == m
    ensures Holds(mem, Onward(head, Alloc(|m|), |mem|), image)
  {
    hide EncodeWord;
    var n, whole := |mem|, Record(m) + image;
    var body, next := Onward(head, WORD_SIZE, n), Onward(head, Alloc(|m|), n);
    forall i | 0 <= i < WORD_SIZE ensures Stretch(mem, head, WORD_SIZE)[i] == EncodeWord(|m|)[i] {
      StretchAt(mem, head, WORD_SIZE, i);
      assert whole[i] == Some(EncodeWord(|m|)[i]);
    }
    forall i | 0 <= i < |m| ensures Stretch(mem, body, |m|)[i] == m[i] {
      StretchAt(mem, body, |m|, i);
      AheadMoves(head, body, WORD_SIZE, Onward(body, i, n), n);
      assert whole[WORD_SIZE + i] == Some(m[i]);
    }
    forall p {:trigger mem[p]} | 0 <= p < n && Ahead(next, p, n) < |image| && image[Ahead(next, p, n)].Some?
      ensures mem[p] == image[Ahead(next, p, n)].value
    {
      AheadMoves(head, next, Alloc(|m|), p, n);
      assert whole[Ahead(head, p, n)] == image[Ahead(next, p, n)];
    }
  }

  class Ring {
    const buf: array<Byte>      // mbfmb
    var head: nat
    var tail: nat
    var free: nat               // fmbfsz
    var count: nat              // smbfcnt
    ghost var messages: seq<Message>

    ghost predicate Valid()
      reads this, buf
    {
      && Aligned(buf.Length)
      && count == |messages| && Sized(messages)
      && free + Used(messages) == buf.Length
      && (if buf.Length == 0 then head == tail == 0 else InRange() && Holds(buf[..], head, Image(messages)))
    }

    /** Head and tail are aligned, inside the area, and as far apart as the messages need. */
    ghost predicate InRange()
      reads this
    {
      && head < buf.Length && tail < buf.Length && Aligned(head) && Aligned(tail)
      && Used(messages) <= buf.Length && tail == Onward(head, Used(messages), buf.Length)
    }

    constructor (size: nat)
      requires Aligned(size)
      ensures Valid() && messages == [] && buf.Length == size && fresh(buf)
    {
      buf := new Byte[size](_ => 0);
      head, tail, free, count := 0, 0, size, 0;
      messages := [];
    }

    /** The buffer part of ini_mbf. */
    method Clear()
      requires Valid()
      modifies this
      ensures Valid() && messages == []
    {
      head, tail, free, count := 0, 0, buf.Length, 0;
      messages := [];
    }

    method CopyIn(at: nat, data: seq<Byte>)
      requires at + |data| <= buf.Length
      modifies buf
      ensures forall p :: 0 <= p < buf.Length ==> buf[p] == if at <= p < at + |data| then data[p - at] else old(buf[p])
    {
      forall k | 0 <= k < |data| {
        buf[at + k] := data[k];
      }
    }

    /** The body of a message, in two pieces if the area ends inside it. */
    method StoreBody(at: nat, m: Message) returns (end: nat)
      requires at < buf.Length && Aligned(buf.Length) && Aligned(at) && RoundUp(|m|) <= buf.Length
      modifies buf
      ensures PutDown(old(buf[..]), buf[..], at, m)
      ensures end == Onward(at, RoundUp(|m|), buf.Length)
    {
      hide Aligned, RoundUp;
      var remsz := buf.Length - at;
      AlignedSums(buf.Length, at);
      if remsz < |m| {
        RoundUpRest(|m|, remsz);
        CopyIn(at, m[..remsz]);
        CopyIn(0, m[remsz..]);
        end := RoundUp(|m| - remsz);
      } else {
        RoundUpLeast(|m|, remsz);
        CopyIn(at, m);
        end := at + RoundUp(|m|);
      }
      if end >= buf.Length {
        end := 0;
      }
    }

    /** Puts the length and then the message down at the tail. */
    method StoreRecord(m: Message)
      requires Valid() && |m| < UINT_RANGE && Alloc(|m|) <= free
      modifies `tail, buf
      ensures Holds(buf[..], head, Image(messages) + Record(m)) && Aligned(tail)
      ensures tail == Onward(old(tail), Alloc(|m|), buf.Length)
    {
      hide Aligned, RoundUp, EncodeWord, Used, Image, Record, Holds;
      ghost var before, image := buf[..], Image(messages);
      assert Aligned(WORD_SIZE) by { WordAligned(); }
      AlignedSums(tail, buf.Length);
      CopyIn(tail, EncodeWord(|m|));
      ghost var mid := buf[..];
      assert PutDown(before, mid, tail, EncodeWord(|m|));
      AlignedSums(tail, WORD_SIZE);
      tail := tail + WORD_SIZE;
      if tail >= buf.Length {
        tail := 0;
      }
      AlignedSums(0, 0);
      AlignedOnward(tail, RoundUp(|m|), buf.Length);
      tail := StoreBody(tail, m);
      Appended(before, mid, buf[..], head, image, m);
    }

    /** enqueue_message: stores the message if it fits, whole and behind the others. */
    method EnqueueMessage(m: Message) returns (stored: bool)
      requires Valid() && |m| <= UINT_RANGE - 2 * WORD_SIZE
      modifies this, buf
      ensures Valid() && (stored <==> Alloc(|m|) <= old(free))
      ensures messages == if stored then old(messages) + [m] else old(messages)
    {
      hide Aligned, RoundUp, Used, Image, Record, Holds;
      var allocsz := Alloc(|m|);
      if allocsz <= free {
        StoreRecord(m);
        ImageAppend(messages, m);
        messages := messages + [m];
        free, count := free - allocsz, count + 1;
        return true;
      }
      return false;
    }

    /** The body of the first message, gathered from two pieces if the area ends inside it. */
    method LoadBody(at: nat, msgsz: nat) returns (m: Message, end: nat)
      requires at < buf.Length && Aligned(buf.Length) && Aligned(at) && RoundUp(msgsz) <= buf.Length
      ensures m == Stretch(buf[..], at, msgsz) && end == Onward(at, RoundUp(msgsz), buf.Length)
    {
      hide Aligned, RoundUp;
      var remsz, copysz := buf.Length - at, msgsz;
      var from := at;
      m := [];
      AlignedSums(buf.Length, at);
      if remsz < copysz {
        RoundUpRest(msgsz, remsz);
        m := buf[from..from + remsz];
        copysz := copysz - remsz;
        from := 0;
      } else {
        RoundUpLeast(msgsz, remsz);
      }
      m := m + buf[from..from + copysz];
      end := from + RoundUp(copysz);
      if end >= buf.Length {
        end := 0;
      }
    }

    /** Reads the length and then the message at the head. */
    method LoadRecord() returns (m: Message)
      requires Valid() && count > 0
      modifies `head
      ensures m == messages[0] && Aligned(head) && buf.Length > 0
      ensures old(head) < buf.Length && Alloc(|m|) <= buf.Length && head == Onward(old(head), Alloc(|m|), buf.Length)
    {
      hide Aligned, RoundUp, Holds, Record, EncodeWord, DecodeWord;
      ghost var first := messages[0];
      FirstIs();
      FirstRecord(buf[..], head, first, Image(messages[1..]));
      WordRoundTrip(|first|);
      WordAligned();
      AlignedSums(head, buf.Length);
      var msgsz := DecodeWord(buf[head..head + WORD_SIZE]);
      AlignedSums(head, WORD_SIZE);
      head := head + WORD_SIZE;
      if head >= buf.Length {
        head := 0;
      }
      AlignedOnward(head, RoundUp(msgsz), buf.Length);
      m, head := LoadBody(head, msgsz);
    }

    /** dequeue_message: takes out the first message, byte for byte as it was stored. */
    method DequeueMessage() returns (m: Message)
      requires Valid() && count > 0
      modifies this
      ensures Valid() && old(messages) == [m] + messages
    {
      hide Aligned, RoundUp, Holds, Record, Image, Used;
      FirstIs();
      FirstRecord(buf[..], head, messages[0], Image(messages[1..]));
      m := LoadRecord();
      free, count := free + WORD_SIZE + RoundUp(|m|), count - 1;
      messages := messages[1..];
    }

    lemma FirstIs()
      requires Valid() && count > 0
      ensures buf.Length > 0 && Sized(messages[1..]) && Image(messages) == Record(messages[0]) + Image(messages[1..])
      ensures Used(messages) == Alloc(|messages[0]|) + Used(messages[1..])
    {
    }
  }
}