/**
 * Python's `list.sort` is stable, also with `reverse=True`: it orders by a
 * key and keeps elements with equal keys in their original order. This module
 * gives that sort as an insertion sort over a strict weak order `lt`
 * ("sorts strictly before") and proves that its result is sorted, is a
 * permutation of its input, and keeps every class of equal keys in input order.
 */
module Sorting {
  import opened Common

  /** `lt` is irreflexive, transitive, and incomparability is transitive. */
  ghost predicate StrictWeakOrder<T(!new)>(lt: (T, T) -> bool) {
    && (forall a :: !lt(a, a))
    && (forall a, b, c :: lt(a, b) && lt(b, c) ==> lt(a, c))
    && (forall a, b, c :: Equivalent(lt, a, b) && Equivalent(lt, b, c) ==> Equivalent(lt, a, c))
  }

  /** Whatever lies strictly between two keys is comparable to at least one of them. */
  lemma Between<T(!new)>(lt: (T, T) -> bool, a: T, b: T, c: T)
    requires StrictWeakOrder(lt) && lt(a, b)
    ensures lt(a, c) || lt(c, b)
  {
    assert Equivalent(lt, a, c) && Equivalent(lt, c, b) ==> Equivalent(lt, a, b);
  }

  /** No element sorts strictly before an earlier one. */
  ghost predicate Sorted<T>(s: seq<T>, lt: (T, T) -> bool) {
    forall i, j :: 0 <= i < j < |s| ==> !lt(s[j], s[i])
  }

  /** Neither sorts before the other: equal keys. */
  predicate Equivalent<T>(lt: (T, T) -> bool, a: T, b: T) {
    !lt(a, b) && !lt(b, a)
  }

  /** The elements of `s` with the same key as `k`, in their order in `s`. */
  function SameClass<T>(s: seq<T>, lt: (T, T) -> bool, k: T): (r: seq<T>)
    ensures |r| <= |s|
  {
    if s == [] then []
    else (if Equivalent(lt, s[0], k) then [s[0]] else []) + SameClass(s[1..], lt, k)
  }

  /** Insert `x` after every element that does not sort strictly after it. */
  function Insert<T>(x: T, s: seq<T>, lt: (T, T) -> bool): (r: seq<T>)
    ensures multiset(r) == multiset(s) + multiset{x}
  {
    if s == [] || lt(x, s[0]) then [x] + s
    else
      assert s == [s[0]] + s[1..];
      [s[0]] + Insert(x, s[1..], lt)
  }

  /** Stable sort: insert the elements one by one, each after its equals. */
  function StableSort<T>(s: seq<T>, lt: (T, T) -> bool): (r: seq<T>)
    ensures multiset(r) == multiset(s)
  {
    if s == [] then []
    else
      assert s == s[..|s| - 1] + [s[|s| - 1]];
      Insert(s[|s| - 1], StableSort(s[..|s| - 1], lt), lt)
  }

  lemma {:induction false} InsertSorted<T(!new)>(x: T, s: seq<T>, lt: (T, T) -> bool)
    requires StrictWeakOrder(lt) && Sorted(s, lt)
    ensures Sorted(Insert(x, s, lt), lt)
    decreases |s|
  {
    var r := Insert(x, s, lt);
    if s == [] {
    } else if lt(x, s[0]) {
      forall i, j | 0 <= i < j < |r| ensures !lt(r[j], r[i]) {
        if i == 0 {
          assert r[j] == s[j - 1];
        } else {
          assert r[i] == s[i - 1] && r[j] == s[j - 1];
        }
      }
    } else {
      var tail := Insert(x, s[1..], lt);
      InsertSorted(x, s[1..], lt);
      assert r == [s[0]] + tail;
      forall i, j | 0 <= i < j < |r| ensures !lt(r[j], r[i]) {
        if i == 0 {
          var y := r[j];
          assert y in multiset(tail);
          assert y in multiset(s[1..]) || y == x;
          if y != x {
            var m :| 0 <= m < |s[1..]| && s[1..][m] == y;
            assert s[m + 1] == y;
          }
        } else {
          assert r[i] == tail[i - 1] && r[j] == tail[j - 1];
        }
      }
    }
  }

  lemma {:induction false} StableSortSorted<T(!new)>(s: seq<T>, lt: (T, T) -> bool)
    requires StrictWeakOrder(lt)
    ensures Sorted(StableSort(s, lt), lt)
    decreases |s|
  {
    if s != [] {
      StableSortSorted(s[..|s| - 1], lt);
      InsertSorted(s[|s| - 1], StableSort(s[..|s| - 1], lt), lt);
    }
  }

  lemma {:induction false} SameClassAppend<T>(a: seq<T>, b: seq<T>, lt: (T, T) -> bool, k: T)
    ensures SameClass(a + b, lt, k) == SameClass(a, lt, k) + SameClass(b, lt, k)
    decreases |a|
  {
    if a == [] {
      assert a + b == b;
    } else {
      var head := if Equivalent(lt, a[0], k) then [a[0]] else [];
      assert (a + b)[0] == a[0] && (a + b)[1..] == a[1..] + b;
      SameClassAppend(a[1..], b, lt, k);
      calc {
        SameClass(a + b, lt, k);
        head + SameClass(a[1..] + b, lt, k);
        head + (SameClass(a[1..], lt, k) + SameClass(b, lt, k));
        (head + SameClass(a[1..], lt, k)) + SameClass(b, lt, k);
      }
    }
  }

  lemma {:induction false} SameClassNone<T>(s: seq<T>, lt: (T, T) -> bool, k: T)
    requires forall i :: 0 <= i < |s| ==> !Equivalent(lt, s[i], k)
    ensures SameClass(s, lt, k) == []
    decreases |s|
  {
    if s != [] {
      SameClassNone(s[1..], lt, k);
    }
  }

  /** Nothing in a sorted list that starts strictly after `x` has the key of `x`. */
  lemma AfterNoneEquivalent<T(!new)>(x: T, s: seq<T>, lt: (T, T) -> bool, k: T)
    requires StrictWeakOrder(lt) && Sorted(s, lt) && s != [] && lt(x, s[0]) && Equivalent(lt, x, k)
    ensures SameClass(s, lt, k) == []
  {
    Between(lt, x, s[0], k);
    assert lt(k, s[0]);
    forall i | 0 <= i < |s| ensures !Equivalent(lt, s[i], k) {
      if i > 0 {
        assert !lt(s[i], s[0]);
        Between(lt, k, s[0], s[i]);
      }
    }
    SameClassNone(s, lt, k);
  }

  /** The class of a list with one more element in front. */
  lemma ConsSameClass<T>(h: T, tail: seq<T>, lt: (T, T) -> bool, k: T)
    ensures SameClass([h] + tail, lt, k) == (if Equivalent(lt, h, k) then [h] else []) + SameClass(tail, lt, k)
  {
    assert ([h] + tail)[0] == h && ([h] + tail)[1..] == tail;
  }

  lemma {:induction false} InsertSameClass<T(!new)>(x: T, s: seq<T>, lt: (T, T) -> bool, k: T)
    requires StrictWeakOrder(lt) && Sorted(s, lt)
    ensures SameClass(Insert(x, s, lt), lt, k)
         == SameClass(s, lt, k) + (if Equivalent(lt, x, k) then [x] else [])
    decreases |s|
  {
    var mine := if Equivalent(lt, x, k) then [x] else [];
    if s == [] || lt(x, s[0]) {
      assert Insert(x, s, lt) == [x] + s;
      ConsSameClass(x, s, lt, k);
      if Equivalent(lt, x, k) && s != [] {
        AfterNoneEquivalent(x, s, lt, k);
      }
      assert mine + SameClass(s, lt, k) == SameClass(s, lt, k) + mine;
    } else {
      var tail := Insert(x, s[1..], lt);
      InsertSameClass(x, s[1..], lt, k);
      assert Insert(x, s, lt) == [s[0]] + tail;
      ConsSameClass(s[0], tail, lt, k);
      assert s == [s[0]] + s[1..];
      ConsSameClass(s[0], s[1..], lt, k);
      AppendAssoc(if Equivalent(lt, s[0], k) then [s[0]] else [], SameClass(s[1..], lt, k), mine);
    }
  }

  lemma InsertIntoSortedSameClass<T(!new)>(x: T, s: seq<T>, lt: (T, T) -> bool, k: T)
    requires StrictWeakOrder(lt)
    ensures SameClass(Insert(x, StableSort(s, lt), lt), lt, k)
         == SameClass(StableSort(s, lt), lt, k) + (if Equivalent(lt, x, k) then [x] else [])
  {
    StableSortSorted(s, lt);
    InsertSameClass(x, StableSort(s, lt), lt, k);
  }

  lemma SameClassSnoc<T>(init: seq<T>, last: T, lt: (T, T) -> bool, k: T)
    ensures SameClass(init + [last], lt, k)
         == SameClass(init, lt, k) + (if Equivalent(lt, last, k) then [last] else [])
  {
    assert [last][1..] == [];
    SameClassAppend(init, [last], lt, k);
  }

  /** Stability: within each class of equal keys the input order survives. */
  lemma {:induction false} StableSortSameClass<T(!new)>(s: seq<T>, lt: (T, T) -> bool, k: T)
    requires StrictWeakOrder(lt)
    ensures SameClass(StableSort(s, lt), lt, k) == SameClass(s, lt, k)
    decreases |s|
  {
    if s != [] {
      var init, last := s[..|s| - 1], s[|s| - 1];
      StableSortSameClass(init, lt, k);
      InsertIntoSortedSameClass(last, init, lt, k);
      assert s == init + [last];
      SameClassSnoc(init, last, lt, k);
    }
  }
}
