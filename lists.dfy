/** The array operations the handlers and pages use on lists of records:
    `filter`, `map` with a conditional replacement, `findFirst`, and a
    summing `reduce`. */
module Lists {
  import opened Domain

  /** `s.filter(p)`: the elements of `s` that satisfy `p`, in their order. */
  function Filter<T(==)>(s: seq<T>, p: T -> bool): (r: seq<T>)
    ensures |r| <= |s|
    ensures forall i :: 0 <= i < |r| ==> p(r[i]) && r[i] in s
    ensures forall i :: 0 <= i < |s| && p(s[i]) ==> s[i] in r
  {
    if s == [] then []
    else if p(s[0]) then [s[0]] + Filter(s[1..], p)
    else Filter(s[1..], p)
  }

  /** Filtering distributes over concatenation. */
  lemma {:induction false} FilterAppend<T>(s: seq<T>, t: seq<T>, p: T -> bool)
    ensures Filter(s + t, p) == Filter(s, p) + Filter(t, p)
  {
    if s == [] {
      assert s + t == t;
    } else {
      assert (s + t)[1..] == s[1..] + t;
      FilterAppend(s[1..], t, p);
    }
  }

  /** Two predicates that agree on every element select the same list. */
  lemma {:induction false} FilterEquivalent<T>(s: seq<T>, p: T -> bool, q: T -> bool)
    requires forall x :: p(x) == q(x)
    ensures Filter(s, p) == Filter(s, q)
  {
    if s != [] {
      FilterEquivalent(s[1..], p, q);
    }
  }

  /** A filter that every element passes keeps the whole list. */
  lemma {:induction false} FilterKeepsAll<T>(s: seq<T>, p: T -> bool)
    requires forall i :: 0 <= i < |s| ==> p(s[i])
    ensures Filter(s, p) == s
  {
    if s != [] {
      FilterKeepsAll(s[1..], p);
    }
  }

  /** Every element before position `i`, and every element after it,
      passes `p`, so filtering keeps those parts whole. */
  lemma {:induction false} FilterKeepsAround<T>(s: seq<T>, p: T -> bool, i: nat)
    requires i < |s|
    requires forall k :: 0 <= k < |s| && k != i ==> p(s[k])
    ensures Filter(s[..i], p) == s[..i]
    ensures Filter(s[i + 1..], p) == s[i + 1..]
  {
    var before, after := s[..i], s[i + 1..];
    forall k | 0 <= k < |before|
      ensures p(before[k])
    {
      assert before[k] == s[k];
    }
    forall k | 0 <= k < |after|
      ensures p(after[k])
    {
      assert after[k] == s[i + 1 + k];
    }
    FilterKeepsAll(before, p);
    FilterKeepsAll(after, p);
  }

  /** A list is its part before `i`, its element at `i` and its part after. */
  lemma SplitAround<T>(s: seq<T>, i: nat)
    requires i < |s|
    ensures s == s[..i] + [s[i]] + s[i + 1..]
  {
  }

  /** When exactly the element at `i` fails `p`, the filter removes that one
      position and keeps every other element in its order. */
  lemma {:induction false} FilterDropsOne<T>(s: seq<T>, p: T -> bool, i: nat)
    requires i < |s| && !p(s[i])
    requires forall k :: 0 <= k < |s| && k != i ==> p(s[k])
    ensures Filter(s, p) == s[..i] + s[i + 1..]
  {
    FilterKeepsAround(s, p, i);
    SplitAround(s, i);
    FilterDropsMiddle(s[..i], s[i], s[i + 1..], p);
  }

  /** Filtering drops a failing element between two parts it keeps whole. */
  lemma {:induction false} FilterDropsMiddle<T>(before: seq<T>, x: T, after: seq<T>, p: T -> bool)
    requires Filter(before, p) == before && Filter(after, p) == after && !p(x)
    ensures Filter(before + [x] + after, p) == before + after
  {
    calc {
      Filter(before + [x] + after, p);
      { FilterAppend(before + [x], after, p); }
      Filter(before + [x], p) + Filter(after, p);
      { FilterAppend(before, [x], p); FilterRejectsOne(x, p); }
      before + [] + after;
      before + after;
    }
  }

  /** A one-element list whose element fails `p` filters to nothing. */
  lemma FilterRejectsOne<T>(x: T, p: T -> bool)
    requires !p(x)
    ensures Filter([x], p) == []
  {
    assert [x][1..] == [];
  }

  /** Two filters whose predicates never both hold select at most `|s|`
      elements between them. */
  lemma {:induction false} DisjointFiltersBound<T>(s: seq<T>, p: T -> bool, q: T -> bool)
    requires forall x :: !(p(x) && q(x))
    ensures |Filter(s, p)| + |Filter(s, q)| <= |s|
  {
    if s != [] {
      DisjointFiltersBound(s[1..], p, q);
    }
  }

  /** A weaker predicate selects at least as many elements. */
  lemma {:induction false} FilterMonotone<T>(s: seq<T>, p: T -> bool, q: T -> bool)
    requires forall x :: p(x) ==> q(x)
    ensures |Filter(s, p)| <= |Filter(s, q)|
  {
    if s != [] {
      FilterMonotone(s[1..], p, q);
    }
  }

  /** `s.map(x => p(x) ? f(x) : x)`: replaces the elements satisfying `p`. */
  function MapWhere<T>(s: seq<T>, p: T -> bool, f: T -> T): (r: seq<T>)
    ensures |r| == |s|
    ensures forall i :: 0 <= i < |s| && p(s[i]) ==> r[i] == f(s[i])
    ensures forall i :: 0 <= i < |s| && !p(s[i]) ==> r[i] == s[i]
  {
    if s == [] then []
    else [if p(s[0]) then f(s[0]) else s[0]] + MapWhere(s[1..], p, f)
  }

  /** Replacing the selected elements by values the filter `keep` rejects,
      then filtering, is filtering first and then dropping the selected
      elements: a list kept equal to `Filter(s, keep)` stays so when the
      same elements are replaced in `s` and dropped from it. */
  lemma {:induction false} FilterAfterMapWhere<T>(s: seq<T>, keep: T -> bool, sel: T -> bool,
                                                  unsel: T -> bool, f: T -> T)
    requires forall x :: sel(x) ==> !keep(f(x))
    requires forall x :: unsel(x) == !sel(x)
    ensures Filter(MapWhere(s, sel, f), keep) == Filter(Filter(s, keep), unsel)
  {
    if s != [] {
      var rest := Filter(s[1..], keep);
      assert MapWhere(s, sel, f)[1..] == MapWhere(s[1..], sel, f);
      FilterAfterMapWhere(s[1..], keep, sel, unsel, f);
      if keep(s[0]) {
        assert Filter(s, keep) == [s[0]] + rest;
        assert ([s[0]] + rest)[1..] == rest;
      } else {
        assert Filter(s, keep) == rest;
      }
    }
  }

  /** Replacing the element at `i` by `y` changes the number of elements
      satisfying `p` by what the two elements contribute. */
  lemma {:induction false} FilterCountReplace<T>(s: seq<T>, i: nat, y: T, p: T -> bool)
    requires i < |s|
    ensures |Filter(s[i := y], p)| == |Filter(s, p)| - (if p(s[i]) then 1 else 0) + (if p(y) then 1 else 0)
  {
    if i == 0 {
      assert s[i := y][1..] == s[1..];
    } else {
      FilterCountReplace(s[1..], i - 1, y, p);
      assert s[i := y][0] == s[0] && s[i := y][1..] == s[1..][i - 1 := y];
    }
  }

  /** `findFirst`: the first element satisfying `p`, if there is one. */
  function FindFirst<T>(s: seq<T>, p: T -> bool): (r: Option<T>)
    ensures r.None? <==> forall i :: 0 <= i < |s| ==> !p(s[i])
    ensures r.Some? ==> exists i :: 0 <= i < |s| && s[i] == r.value && p(s[i]) &&
                                   forall k :: 0 <= k < i ==> !p(s[k])
  {
    if s == [] then None
    else if p(s[0]) then Some(s[0])
    else
      var r := FindFirst(s[1..], p);
      assert r.Some? ==> exists i :: 1 <= i < |s| && s[i] == r.value && p(s[i]) &&
                                     forall k :: 1 <= k < i ==> !p(s[k]);
      r
  }

  /** `s.reduce((sum, x) => sum + f(x), 0)`. */
  function Sum<T>(s: seq<T>, f: T -> int): int
  {
    if s == [] then 0 else f(s[0]) + Sum(s[1..], f)
  }

  /** A sum of non-negative terms is non-negative. */
  lemma {:induction false} SumNonNegative<T>(s: seq<T>, f: T -> int)
    requires forall i :: 0 <= i < |s| ==> f(s[i]) >= 0
    ensures Sum(s, f) >= 0
  {
    if s != [] {
      SumNonNegative(s[1..], f);
    }
  }

  /** Summing distributes over concatenation. */
  lemma {:induction false} SumAppend<T>(s: seq<T>, t: seq<T>, f: T -> int)
    ensures Sum(s + t, f) == Sum(s, f) + Sum(t, f)
  {
    if s == [] {
      assert s + t == t;
    } else {
      assert (s + t)[1..] == s[1..] + t;
      SumAppend(s[1..], t, f);
    }
  }
}
