/** Ordering of lists by an integer key. A database `orderBy` is modelled by
    the pure function `OrderByDesc`; the client's `Array.prototype.sort`,
    which works on the array in place, by the method `SortInPlace`. An
    ascending order is a descending order on the negated key. */
module Sorting {

  /** Keys never increase from left to right. */
  predicate SortedDesc<T>(s: seq<T>, key: T -> int)
  {
    forall i, j :: 0 <= i < j < |s| ==> key(s[i]) >= key(s[j])
  }

  /** Inserts `x` into a list that is already in descending key order. */
  function Insert<T>(x: T, s: seq<T>, key: T -> int): (r: seq<T>)
    requires SortedDesc(s, key)
    ensures SortedDesc(r, key)
    ensures multiset(r) == multiset(s) + multiset{x}
    ensures |r| == |s| + 1
  {
    if s == [] then [x]
    else if key(x) >= key(s[0]) then [x] + s
    else
      var tail := Insert(x, s[1..], key);
      assert s == [s[0]] + s[1..];
      HeadStaysFirst(s[0], x, s[1..], tail, key);
      [s[0]] + tail
  }

  /** A head whose key bounds both the inserted element and the rest of a
      sorted list stays in front of their rearrangement. */
  lemma HeadStaysFirst<T>(h: T, x: T, rest: seq<T>, tail: seq<T>, key: T -> int)
    requires SortedDesc([h] + rest, key) && key(x) < key(h)
    requires SortedDesc(tail, key) && multiset(tail) == multiset(rest) + multiset{x}
    ensures SortedDesc([h] + tail, key)
  {
    forall k | 0 <= k < |tail|
      ensures key(h) >= key(tail[k])
    {
      assert tail[k] in multiset(tail);
      if tail[k] != x {
        assert tail[k] in multiset(rest);
        var m :| 0 <= m < |rest| && rest[m] == tail[k];
        assert ([h] + rest)[0] == h && ([h] + rest)[m + 1] == rest[m];
      }
    }
  }

  /** The rows of `s` ordered by `key`, largest first. */
  function OrderByDesc<T>(s: seq<T>, key: T -> int): (r: seq<T>)
    ensures SortedDesc(r, key)
    ensures multiset(r) == multiset(s)
    ensures |r| == |s|
  {
    if s == [] then []
    else
      assert s == [s[0]] + s[1..];
      Insert(s[0], OrderByDesc(s[1..], key), key)
  }

  /** A permutation keeps exactly the elements of the original list. */
  lemma PermutationSameElements<T>(r: seq<T>, s: seq<T>)
    requires multiset(r) == multiset(s)
    ensures forall x :: x in r <==> x in s
  {
    forall x
      ensures x in r <==> x in s
    {
      assert x in r <==> x in multiset(r);
      assert x in s <==> x in multiset(s);
    }
  }

  /** Exchanges two entries of an array. */
  method Swap<T>(a: array<T>, i: int, j: int)
    requires 0 <= i < a.Length && 0 <= j < a.Length
    modifies a
    ensures a[i] == old(a[j]) && a[j] == old(a[i])
    ensures forall k :: 0 <= k < a.Length && k != i && k != j ==> a[k] == old(a[k])
    ensures multiset(a[..]) == old(multiset(a[..]))
  {
    a[i], a[j] := a[j], a[i];
  }

  /** Insertion sort of `a` in place, largest key first. */
  method SortInPlace<T>(a: array<T>, key: T -> int)
    modifies a
    ensures SortedDesc(a[..], key)
    ensures multiset(a[..]) == old(multiset(a[..]))
  {
    if a.Length == 0 { return; }
    var i := 1;
    while i < a.Length
      invariant 1 <= i <= a.Length
      invariant SortedDesc(a[..i], key)
      invariant multiset(a[..]) == old(multiset(a[..]))
    {
      var j := i;
      while j > 0 && key(a[j - 1]) < key(a[j])
        invariant 0 <= j <= i
        invariant forall m, n :: 0 <= m < n <= i && m != j && n != j ==> key(a[m]) >= key(a[n])
        invariant forall n :: j < n <= i ==> key(a[j]) > key(a[n])
        invariant forall m, n :: 0 <= m < j < n <= i ==> key(a[m]) >= key(a[n])
        invariant multiset(a[..]) == old(multiset(a[..]))
      {
        Swap(a, j - 1, j);
        j := j - 1;
      }
      i := i + 1;
    }
    assert a[..] == a[..a.Length];
  }
}
