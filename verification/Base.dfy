/** Small definitions shared by every module: optional values and list facts. */
module Base {

  datatype Option<+T> = None | Some(value: T)

  /** No element occurs twice. */
  ghost predicate NoDup<T>(s: seq<T>) {
    forall i, j :: 0 <= i < j < |s| ==> s[i] != s[j]
  }

  /** `s` without the first occurrence of `x`: what unlinking an entry does to a queue. */
  function Remove<T(==)>(s: seq<T>, x: T): (r: seq<T>)
    ensures forall y :: y in r ==> y in s
    ensures x !in s ==> r == s
  {
    if s == [] then []
    else if s[0] == x then s[1..]
    else [s[0]] + Remove(s[1..], x)
  }

  /** Removing an element cuts it out at one index and keeps the order of the others. */
  lemma {:induction false} RemoveCuts<T>(s: seq<T>, x: T) returns (i: nat)
    requires x in s
    ensures i < |s| && s[i] == x && Remove(s, x) == s[..i] + s[i + 1..]
  {
    if s[0] == x {
      i := 0;
    } else {
      var j := RemoveCuts(s[1..], x);
      i := j + 1;
      assert s[..i] + s[i + 1..] == [s[0]] + (s[1..][..j] + s[1..][j + 1..]);
    }
  }

  /** In a list without duplicates, removal takes away exactly the one element. */
  lemma {:induction false} RemoveMembers<T(!new)>(s: seq<T>, x: T)
    requires NoDup(s)
    ensures NoDup(Remove(s, x))
    ensures forall y :: y in Remove(s, x) <==> y in s && y != x
    ensures |Remove(s, x)| == if x in s then |s| - 1 else |s|
  {
    if x in s {
      var i := RemoveCuts(s, x);
      var r := Remove(s, x);
      assert forall j :: 0 <= j < |r| ==> r[j] == if j < i then s[j] else s[j + 1];
      forall y | y in s && y != x
        ensures y in r
      {
        var j :| 0 <= j < |s| && s[j] == y;
        assert r[if j < i then j else j - 1] == y;
      }
    }
  }

  /** `s` with `x` put in at index `i`. */
  function InsertAt<T(!new)>(s: seq<T>, i: nat, x: T): (r: seq<T>)
    requires i <= |s|
    ensures |r| == |s| + 1 && r[i] == x
    ensures forall y :: y in r <==> y in s || y == x
  {
    s[..i] + [x] + s[i..]
  }

  /** A subset is no larger. */
  lemma {:induction false} SubsetSize<T>(s: set<T>, t: set<T>)
    requires s <= t
    ensures |s| <= |t|
  {
    if s != {} {
      var x :| x in s;
      SubsetSize(s - {x}, t - {x});
    }
  }

  /** Putting a new element in keeps a list free of duplicates. */
  lemma InsertNew<T>(s: seq<T>, i: nat, x: T)
    requires NoDup(s) && i <= |s| && x !in s
    ensures NoDup(s[..i] + [x] + s[i..])
  {
    var r := s[..i] + [x] + s[i..];
    assert forall j :: 0 <= j < |r| ==> r[j] == if j < i then s[j] else if j == i then x else s[j - 1];
    forall j, k | 0 <= j < k < |r| ensures r[j] != r[k] {
      assert j != i && k != i ==> s[if j < i then j else j - 1] != s[if k < i then k else k - 1];
    }
  }

  /** Cutting an element out keeps a list free of duplicates, and takes away just that element. */
  lemma CutOut<T>(s: seq<T>, i: nat)
    requires NoDup(s) && i < |s|
    ensures var r := s[..i] + s[i + 1..]; NoDup(r) && s[i] !in r && forall x :: x in s && x != s[i] ==> x in r
  {
    var r := s[..i] + s[i + 1..];
    assert forall j :: 0 <= j < |r| ==> r[j] == if j < i then s[j] else s[j + 1];
    forall j, k | 0 <= j < k < |r| ensures r[j] != r[k] {
      assert s[if j < i then j else j + 1] != s[if k < i then k else k + 1];
    }
    forall j | 0 <= j < |r| ensures r[j] != s[i] {
      assert s[if j < i then j else j + 1] != s[i];
    }
    forall x | x in s && x != s[i] ensures x in r {
      var j :| 0 <= j < |s| && s[j] == x;
      assert r[if j < i then j else j - 1] == x;
    }
  }
}
