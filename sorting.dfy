/** `[...daten].sort(comparator)`: a stable sort of a copy of an array.
    Since ECMAScript 2019 (section 22.1.3.27 of ECMA-262, 10th edition)
    `Array.prototype.sort` must be stable; with a consistent comparator that
    fixes its result, which `SortBy` (insertion sort) computes. The
    comparator follows the JS convention: a positive result puts the first
    operand after the second. */
module Sorting {

  import opened Seqs

  /** What `Array.prototype.sort` needs of a comparator to be consistent:
      swapping the operands negates it, and "not after" is transitive. */
  ghost predicate IsPreorder<T(!new)>(cmp: (T, T) -> int)
  {
    (forall a, b :: cmp(b, a) == -cmp(a, b)) &&
    (forall a, b, c :: cmp(a, b) <= 0 && cmp(b, c) <= 0 ==> cmp(a, c) <= 0)
  }

  /** No element compares after a later one. */
  ghost predicate Sorted<T>(cmp: (T, T) -> int, s: seq<T>)
  {
    forall i, j :: 0 <= i < j < |s| ==> cmp(s[i], s[j]) <= 0
  }

  /** The elements of `s` that compare equal to `z`, in order. A sort is
      stable iff it leaves every such subsequence as it was. */
  function EqualKeyed<T>(cmp: (T, T) -> int, s: seq<T>, z: T): seq<T>
  {
    if s == [] then []
    else EqualKeyed(cmp, s[..|s| - 1], z) + (if cmp(s[|s| - 1], z) == 0 then [s[|s| - 1]] else [])
  }

  /** Inserts `x` after the last element of `s` that does not compare after it. */
  function Insert<T>(cmp: (T, T) -> int, s: seq<T>, x: T): seq<T>
  {
    if s == [] || cmp(s[|s| - 1], x) <= 0 then s + [x]
    else Insert(cmp, s[..|s| - 1], x) + [s[|s| - 1]]
  }

  /** The stable sort of `s`. */
  function SortBy<T>(cmp: (T, T) -> int, s: seq<T>): seq<T>
  {
    if s == [] then [] else Insert(cmp, SortBy(cmp, s[..|s| - 1]), s[|s| - 1])
  }

  lemma {:induction false} InsertPermutation<T>(cmp: (T, T) -> int, s: seq<T>, x: T)
    ensures multiset(Insert(cmp, s, x)) == multiset(s) + multiset{x}
  {
    if s != [] && cmp(s[|s| - 1], x) > 0 {
      InsertPermutation(cmp, s[..|s| - 1], x);
      assert s == s[..|s| - 1] + [s[|s| - 1]];
    }
  }

  /** Appending an element that no element of a sorted sequence compares
      after keeps it sorted. */
  lemma AppendSorted<T>(cmp: (T, T) -> int, s: seq<T>, x: T)
    requires Sorted(cmp, s)
    requires forall i :: 0 <= i < |s| ==> cmp(s[i], x) <= 0
    ensures Sorted(cmp, s + [x])
  {
    var r := s + [x];
    forall i, j | 0 <= i < j < |r|
      ensures cmp(r[i], r[j]) <= 0
    {
      if j < |s| {
        assert r[i] == s[i] && r[j] == s[j];
      } else {
        assert r[i] == s[i] && r[j] == x;
      }
    }
  }

  lemma {:induction false} InsertSorted<T(!new)>(cmp: (T, T) -> int, s: seq<T>, x: T)
    requires IsPreorder(cmp) && Sorted(cmp, s)
    ensures Sorted(cmp, Insert(cmp, s, x))
  {
    if s == [] {
    } else if cmp(s[|s| - 1], x) <= 0 {
      var e := s[|s| - 1];
      forall i | 0 <= i < |s|
        ensures cmp(s[i], x) <= 0
      {
        if i < |s| - 1 {
          assert cmp(s[i], e) <= 0;
        }
      }
      AppendSorted(cmp, s, x);
    } else {
      var init, e := s[..|s| - 1], s[|s| - 1];
      assert Sorted(cmp, init) by {
        forall i, j | 0 <= i < j < |init|
          ensures cmp(init[i], init[j]) <= 0
        {
          assert init[i] == s[i] && init[j] == s[j];
        }
      }
      InsertSorted(cmp, init, x);
      InsertPermutation(cmp, init, x);
      var ins := Insert(cmp, init, x);
      forall i | 0 <= i < |ins|
        ensures cmp(ins[i], e) <= 0
      {
        assert ins[i] in multiset(ins);
        if ins[i] == x {
          assert cmp(x, e) == -cmp(e, x);
        } else {
          assert ins[i] in multiset(init);
          var k :| 0 <= k < |init| && init[k] == ins[i];
          assert s[k] == init[k];
        }
      }
      AppendSorted(cmp, ins, e);
    }
  }

  lemma {:induction false} InsertStable<T(!new)>(cmp: (T, T) -> int, s: seq<T>, x: T, z: T)
    requires IsPreorder(cmp)
    ensures EqualKeyed(cmp, Insert(cmp, s, x), z) ==
            EqualKeyed(cmp, s, z) + (if cmp(x, z) == 0 then [x] else [])
  {
    if s == [] || cmp(s[|s| - 1], x) <= 0 {
      assert (s + [x])[..|s|] == s;
    } else {
      var init, e := s[..|s| - 1], s[|s| - 1];
      var ins := Insert(cmp, init, x);
      InsertStable(cmp, init, x, z);
      assert (ins + [e])[..|ins|] == ins;
      // e compares after x, so e and x cannot both compare equal to z
      assert cmp(x, z) == 0 ==> cmp(e, z) != 0;
    }
  }

  /** The sorted copy holds exactly the elements of the input. */
  lemma {:induction false} SortByPermutation<T>(cmp: (T, T) -> int, s: seq<T>)
    ensures |SortBy(cmp, s)| == |s|
    ensures multiset(SortBy(cmp, s)) == multiset(s)
  {
    if s != [] {
      var init, last := s[..|s| - 1], s[|s| - 1];
      SortByPermutation(cmp, init);
      InsertPermutation(cmp, SortBy(cmp, init), last);
      assert s == init + [last];
      assert multiset(s) == multiset(init) + multiset{last};
    }
    assert |multiset(SortBy(cmp, s))| == |SortBy(cmp, s)|;
  }

  /** No element of the sorted copy compares after a later one. */
  lemma {:induction false} SortBySorted<T(!new)>(cmp: (T, T) -> int, s: seq<T>)
    requires IsPreorder(cmp)
    ensures Sorted(cmp, SortBy(cmp, s))
  {
    if s != [] {
      SortBySorted(cmp, s[..|s| - 1]);
      InsertSorted(cmp, SortBy(cmp, s[..|s| - 1]), s[|s| - 1]);
    }
  }

  /** Elements that compare equal keep their relative order. */
  lemma {:induction false} SortByStable<T(!new)>(cmp: (T, T) -> int, s: seq<T>, z: T)
    requires IsPreorder(cmp)
    ensures EqualKeyed(cmp, SortBy(cmp, s), z) == EqualKeyed(cmp, s, z)
  {
    if s != [] {
      SortByStable(cmp, s[..|s| - 1], z);
      InsertStable(cmp, SortBy(cmp, s[..|s| - 1]), s[|s| - 1], z);
    }
  }

  lemma {:induction false} EqualKeyedAll<T>(cmp: (T, T) -> int, s: seq<T>, z: T)
    requires forall i :: 0 <= i < |s| ==> cmp(s[i], z) == 0
    ensures EqualKeyed(cmp, s, z) == s
  {
    if s != [] {
      EqualKeyedAll(cmp, s[..|s| - 1], z);
      assert s == s[..|s| - 1] + [s[|s| - 1]];
    }
  }

  /** A comparator that always returns 0 leaves the order as it was. */
  lemma SortByConstantZero<T(!new)>(cmp: (T, T) -> int, s: seq<T>)
    requires forall a, b :: cmp(a, b) == 0
    ensures SortBy(cmp, s) == s
  {
    if s != [] {
      assert IsPreorder(cmp);
      SortByStable(cmp, s, s[0]);
      EqualKeyedAll(cmp, s, s[0]);
      SortByPermutation(cmp, s);
      EqualKeyedAll(cmp, SortBy(cmp, s), s[0]);
    }
  }

  /** Filtering a sorted sequence leaves it sorted. */
  lemma {:induction false} FilterSorted<T>(cmp: (T, T) -> int, s: seq<T>, p: T -> bool)
    requires Sorted(cmp, s)
    ensures Sorted(cmp, Filter(s, p))
  {
    if s != [] {
      var rest := Filter(s[1..], p);
      assert Sorted(cmp, s[1..]) by {
        forall i, j | 0 <= i < j < |s[1..]|
          ensures cmp(s[1..][i], s[1..][j]) <= 0
        {
          assert s[1..][i] == s[i + 1] && s[1..][j] == s[j + 1];
        }
      }
      FilterSorted(cmp, s[1..], p);
      if p(s[0]) {
        var r := [s[0]] + rest;
        forall i, j | 0 <= i < j < |r|
          ensures cmp(r[i], r[j]) <= 0
        {
          if i > 0 {
            assert r[i] == rest[i - 1] && r[j] == rest[j - 1];
          } else {
            assert r[j] == rest[j - 1] && r[j] in rest;
            FilterMembers(s[1..], p, r[j]);
            var k :| 0 <= k < |s[1..]| && s[1..][k] == r[j];
            assert s[k + 1] == r[j];
          }
        }
      }
    }
  }

  /** Where the inner loop of `InsertAt` stops, `x` goes: after every element
      that does not compare after it, before the run of elements that do. */
  lemma {:induction false} InsertPlace<T>(cmp: (T, T) -> int, sorted: seq<T>, x: T, j: int)
    requires 0 <= j <= |sorted|
    requires j > 0 ==> cmp(sorted[j - 1], x) <= 0
    requires forall k :: j <= k < |sorted| ==> cmp(sorted[k], x) > 0
    ensures Insert(cmp, sorted, x) == sorted[..j] + [x] + sorted[j..]
    decreases |sorted| - j
  {
    if j < |sorted| {
      var init := sorted[..|sorted| - 1];
      InsertPlace(cmp, init, x, j);
      assert init[..j] == sorted[..j];
      assert sorted[j..] == init[j..] + [sorted[|sorted| - 1]];
    } else {
      assert sorted[..j] == sorted;
    }
  }

  /** Moves `a[i]` left past every element of the sorted prefix `a[..i]` that
      compares after it, leaving the rest of the array alone. */
  method InsertAt<T>(cmp: (T, T) -> int, a: array<T>, i: int)
    requires 0 <= i < a.Length
    modifies a
    ensures a[..i + 1] == Insert(cmp, old(a[..i]), old(a[i]))
    ensures forall k :: i < k < a.Length ==> a[k] == old(a[k])
  {
    ghost var sorted := a[..i];
    var x := a[i];
    var j := i;
    while j > 0 && cmp(a[j - 1], x) > 0
      invariant 0 <= j <= i
      invariant forall k {:trigger a[k]} :: 0 <= k < j ==> a[k] == sorted[k]
      invariant forall k {:trigger a[k]} :: j < k <= i ==> a[k] == sorted[k - 1]
      invariant forall k {:trigger a[k]} :: i < k < a.Length ==> a[k] == old(a[k])
      invariant forall k :: j <= k < i ==> cmp(sorted[k], x) > 0
    {
      a[j] := a[j - 1];
      j := j - 1;
    }
    a[j] := x;
    InsertPlace(cmp, sorted, x, j);
    ghost var placed := sorted[..j] + [x] + sorted[j..];
    assert forall k :: 0 <= k <= i ==> a[k] == placed[k];
    assert a[..i + 1] == placed;
  }

  /** The sort as the page runs it: copy `s` into a fresh array and sort the
      copy in place (insertion sort, which is stable); `s` itself is a value
      and stays as it was. */
  method SortCopy<T>(cmp: (T, T) -> int, s: seq<T>) returns (r: seq<T>)
    ensures r == SortBy(cmp, s)
  {
    var a := new T[|s|](i requires 0 <= i < |s| => s[i]);
    var i := 0;
    while i < a.Length
      invariant 0 <= i <= a.Length
      invariant a[..i] == SortBy(cmp, s[..i])
      invariant forall k :: i <= k < a.Length ==> a[k] == s[k]
    {
      ghost var sorted := SortBy(cmp, s[..i]);
      assert SortBy(cmp, s[..i + 1]) == Insert(cmp, sorted, s[i]) by {
        assert s[..i + 1][..i] == s[..i];
      }
      InsertAt(cmp, a, i);
      i := i + 1;
    }
    r := a[..];
    assert s[..a.Length] == s;
  }
}
