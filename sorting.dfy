/** `Collections.sort` with a `compareTo` that returns an `int`: a stable sort.
    It is modelled as insertion from the back, which places each element after
    every earlier element that does not compare greater than it. For a comparator
    that is a total preorder this is the one stable sorted permutation, which is
    what Java's merge sort also returns. */
module Sorting {

  /** Inserts `x` into `s`, passing from the back over the elements greater than `x`. */
  function Insert<T>(x: T, s: seq<T>, cmp: (T, T) -> int): (r: seq<T>)
    ensures |r| == |s| + 1
    ensures multiset(r) == multiset(s) + multiset{x}
    ensures r[|r| - 1] == x || (|s| > 0 && r[|r| - 1] == s[|s| - 1])
    decreases |s|
  {
    if s == [] then [x]
    else if cmp(x, s[|s| - 1]) < 0 then
      assert s == s[..|s| - 1] + [s[|s| - 1]];
      Insert(x, s[..|s| - 1], cmp) + [s[|s| - 1]]
    else s + [x]
  }

  function Sort<T>(s: seq<T>, cmp: (T, T) -> int): (r: seq<T>)
    ensures |r| == |s|
    ensures multiset(r) == multiset(s)
    decreases |s|
  {
    if s == [] then []
    else
      assert s == s[..|s| - 1] + [s[|s| - 1]];
      Insert(s[|s| - 1], Sort(s[..|s| - 1], cmp), cmp)
  }

  /** `compareTo` changes sign when its arguments are swapped. */
  ghost predicate Antisymmetric<T(!new)>(cmp: (T, T) -> int) {
    forall a, b :: cmp(a, b) == -cmp(b, a)
  }

  /** "Compares at most zero" is transitive. */
  ghost predicate Transitive<T(!new)>(cmp: (T, T) -> int) {
    forall a, b, c :: cmp(a, b) <= 0 && cmp(b, c) <= 0 ==> cmp(a, c) <= 0
  }

  /** Every element compares at most zero with its successor. */
  ghost predicate AdjacentSorted<T>(s: seq<T>, cmp: (T, T) -> int) {
    forall i, j :: 0 <= i && j == i + 1 && j < |s| ==> cmp(s[i], s[j]) <= 0
  }

  /** Every element compares at most zero with every later one. */
  ghost predicate Sorted<T>(s: seq<T>, cmp: (T, T) -> int) {
    forall i, j :: 0 <= i < j < |s| ==> cmp(s[i], s[j]) <= 0
  }

  lemma {:induction false} InsertAdjacentSorted<T(!new)>(x: T, s: seq<T>, cmp: (T, T) -> int)
    requires Antisymmetric(cmp)
    requires AdjacentSorted(s, cmp)
    ensures AdjacentSorted(Insert(x, s, cmp), cmp)
    decreases |s|
  {
    if s != [] {
      var init, last := s[..|s| - 1], s[|s| - 1];
      if cmp(x, last) < 0 {
        AdjacentSortedInit(s, cmp);
        InsertAdjacentSorted(x, init, cmp);
        var r := Insert(x, init, cmp);
        assert cmp(r[|r| - 1], last) <= 0 by {
          if r[|r| - 1] != x {
            assert r[|r| - 1] == s[|s| - 2];
          }
        }
        AdjacentSortedSnoc(r, last, cmp);
      } else {
        assert cmp(last, x) <= 0 by { assert cmp(last, x) == -cmp(x, last); }
        AdjacentSortedSnoc(s, x, cmp);
      }
    }
  }

  lemma AdjacentSortedInit<T>(s: seq<T>, cmp: (T, T) -> int)
    requires AdjacentSorted(s, cmp) && s != []
    ensures AdjacentSorted(s[..|s| - 1], cmp)
  {
    var init := s[..|s| - 1];
    forall i | 0 <= i < |init| - 1 ensures cmp(init[i], init[i + 1]) <= 0 {
      assert init[i] == s[i] && init[i + 1] == s[i + 1];
    }
  }

  lemma AdjacentSortedSnoc<T>(s: seq<T>, y: T, cmp: (T, T) -> int)
    requires AdjacentSorted(s, cmp)
    requires s != [] ==> cmp(s[|s| - 1], y) <= 0
    ensures AdjacentSorted(s + [y], cmp)
  {
    var t := s + [y];
    forall i | 0 <= i < |t| - 1 ensures cmp(t[i], t[i + 1]) <= 0 {
      if i + 1 < |s| {
        assert t[i] == s[i] && t[i + 1] == s[i + 1];
      } else {
        assert t[i] == s[|s| - 1] && t[i + 1] == y;
      }
    }
  }

  /** The sorted list puts no element after one that it compares below. */
  lemma {:induction false} SortAdjacentSorted<T(!new)>(s: seq<T>, cmp: (T, T) -> int)
    requires Antisymmetric(cmp)
    ensures AdjacentSorted(Sort(s, cmp), cmp)
    decreases |s|
  {
    if s != [] {
      SortAdjacentSorted(s[..|s| - 1], cmp);
      InsertAdjacentSorted(s[|s| - 1], Sort(s[..|s| - 1], cmp), cmp);
    }
  }

  /** An element that does not compare below the last one goes at the end. */
  lemma InsertNotBelowLast<T>(x: T, s: seq<T>, cmp: (T, T) -> int)
    requires s != [] ==> cmp(x, s[|s| - 1]) >= 0
    ensures Insert(x, s, cmp) == s + [x]
  {
  }

  /** A list that is already in order is left as it is. */
  lemma {:induction false} SortKeepsSorted<T(!new)>(s: seq<T>, cmp: (T, T) -> int)
    requires Antisymmetric(cmp)
    requires AdjacentSorted(s, cmp)
    ensures Sort(s, cmp) == s
    decreases |s|
  {
    if s != [] {
      var init, last := s[..|s| - 1], s[|s| - 1];
      assert s == init + [last];
      AdjacentSortedInit(s, cmp);
      SortKeepsSorted(init, cmp);
      if init != [] {
        AdjacentSortedAt(s, |s| - 2, cmp);
        assert cmp(last, init[|init| - 1]) == -cmp(init[|init| - 1], last);
      }
      InsertNotBelowLast(last, init, cmp);
    }
  }

  lemma AdjacentSortedAt<T>(s: seq<T>, i: nat, cmp: (T, T) -> int)
    requires AdjacentSorted(s, cmp) && i + 1 < |s|
    ensures cmp(s[i], s[i + 1]) <= 0
  {
  }

  /** With a transitive comparator, order between neighbours is order between all pairs. */
  lemma AdjacentSortedIsSorted<T(!new)>(s: seq<T>, cmp: (T, T) -> int)
    requires Transitive(cmp)
    requires AdjacentSorted(s, cmp)
    ensures Sorted(s, cmp)
  {
    forall i, j | 0 <= i < j < |s| ensures cmp(s[i], s[j]) <= 0 {
      var k := i + 1;
      while k < j
        invariant i < k <= j
        invariant cmp(s[i], s[k]) <= 0
      {
        assert cmp(s[k], s[k + 1]) <= 0;
        k := k + 1;
      }
    }
  }

  /** With an antisymmetric and transitive comparator the sorted list is in order between all pairs. */
  lemma SortSorted<T(!new)>(s: seq<T>, cmp: (T, T) -> int)
    requires Antisymmetric(cmp) && Transitive(cmp)
    ensures Sorted(Sort(s, cmp), cmp)
  {
    SortAdjacentSorted(s, cmp);
    AdjacentSortedIsSorted(Sort(s, cmp), cmp);
  }

  /** The first elements of two sorted permutations compare equal both ways. */
  lemma SortedHeadsCompareEqual<T(!new)>(s: seq<T>, t: seq<T>, cmp: (T, T) -> int)
    requires Antisymmetric(cmp)
    requires Sorted(s, cmp) && Sorted(t, cmp)
    requires multiset(s) == multiset(t) && s != []
    ensures |t| > 0 && cmp(s[0], t[0]) == 0 && t[0] in s
  {
    assert s[0] in multiset(t);
    var k :| 0 <= k < |t| && t[k] == s[0];
    assert t[0] in multiset(s);
    var m :| 0 <= m < |s| && s[m] == t[0];
    assert cmp(s[0], s[m]) <= 0 by {
      if m == 0 { assert cmp(s[0], s[0]) == -cmp(s[0], s[0]); }
    }
    assert cmp(t[0], t[k]) <= 0 by {
      if k == 0 { assert cmp(t[0], t[0]) == -cmp(t[0], t[0]); }
    }
    assert cmp(t[0], s[0]) == -cmp(s[0], t[0]);
  }

  lemma MultisetTail<T>(s: seq<T>, t: seq<T>)
    requires s != [] && t != [] && s[0] == t[0] && multiset(s) == multiset(t)
    ensures multiset(s[1..]) == multiset(t[1..])
  {
    assert s == [s[0]] + s[1..] && t == [t[0]] + t[1..];
    assert multiset(s) == multiset{s[0]} + multiset(s[1..]);
    assert multiset(t) == multiset{s[0]} + multiset(t[1..]);
    assert multiset(s[1..]) == multiset(s) - multiset{s[0]};
    assert multiset(t[1..]) == multiset(t) - multiset{s[0]};
  }

  lemma SortedTail<T>(s: seq<T>, cmp: (T, T) -> int)
    requires Sorted(s, cmp) && s != []
    ensures Sorted(s[1..], cmp)
  {
    var s' := s[1..];
    forall i, j | 0 <= i < j < |s'| ensures cmp(s'[i], s'[j]) <= 0 {
      assert s'[i] == s[i + 1] && s'[j] == s[j + 1];
    }
  }

  /** Only equal elements of `s` compare equal. */
  ghost predicate Discriminating<T>(s: seq<T>, cmp: (T, T) -> int) {
    forall a, b :: a in s && b in s && cmp(a, b) == 0 ==> a == b
  }

  lemma DiscriminatingTail<T>(s: seq<T>, cmp: (T, T) -> int)
    requires Discriminating(s, cmp) && s != []
    ensures Discriminating(s[1..], cmp)
  {
    assert forall a :: a in s[1..] ==> a in s;
  }

  /** Two sorted permutations of the same elements are equal when only equal
      elements compare equal: so sorting makes the input order irrelevant. */
  lemma {:induction false} SortedPermutationsEqual<T(!new)>(s: seq<T>, t: seq<T>, cmp: (T, T) -> int)
    requires Antisymmetric(cmp)
    requires Sorted(s, cmp) && Sorted(t, cmp)
    requires multiset(s) == multiset(t)
    requires Discriminating(s, cmp)
    ensures s == t
    decreases |s|
  {
    if s != [] {
      SortedHeadsCompareEqual(s, t, cmp);
      assert s[0] == t[0];
      MultisetTail(s, t);
      SortedTail(s, cmp);
      SortedTail(t, cmp);
      DiscriminatingTail(s, cmp);
      SortedPermutationsEqual(s[1..], t[1..], cmp);
      assert s == [s[0]] + s[1..] && t == [t[0]] + t[1..];
    } else {
      assert |t| == |multiset(t)| == 0;
    }
  }
}
