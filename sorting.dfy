/**
 * The stable sort `Collections.sort` performs, for any comparator that is a
 * total preorder, together with the distinct-element bookkeeping the
 * queries of the statistics store need.
 */
module Sorting {

  /**
   * On the values in `dom`, `le(a, b)` plays the role of `compare(a, b) <= 0`
   * for a well-behaved comparator.
   */
  ghost predicate TotalPreorder<T>(dom: set<T>, le: (T, T) -> bool)
  {
    && (forall a, b | a in dom && b in dom :: le(a, b) || le(b, a))
    && (forall a, b, c | a in dom && b in dom && c in dom :: le(a, b) && le(b, c) ==> le(a, c))
  }

  predicate Sorted<T>(s: seq<T>, le: (T, T) -> bool)
  {
    forall i, j :: 0 <= i < j < |s| ==> le(s[i], s[j])
  }

  predicate NoDuplicates<T(==)>(s: seq<T>)
  {
    forall i, j :: 0 <= i < j < |s| ==> s[i] != s[j]
  }

  /** Puts `x` after every element not strictly greater than it, which keeps equal elements in order. */
  function Insert<T>(x: T, s: seq<T>, le: (T, T) -> bool): (r: seq<T>)
    ensures multiset(r) == multiset(s) + multiset{x}
    ensures |r| == |s| + 1
  {
    if s == [] then [x]
    else if le(x, s[0]) && !le(s[0], x) then [x] + s
    else
      assert s == [s[0]] + s[1..];
      [s[0]] + Insert(x, s[1..], le)
  }

  /** Insertion sort, element by element from the left. */
  function SortBy<T>(s: seq<T>, le: (T, T) -> bool): (r: seq<T>)
    ensures multiset(r) == multiset(s)
    ensures |r| == |s|
  {
    if s == [] then []
    else
      assert s == s[..|s| - 1] + [s[|s| - 1]];
      Insert(s[|s| - 1], SortBy(s[..|s| - 1], le), le)
  }

  lemma {:induction false} InsertSorted<T>(dom: set<T>, x: T, s: seq<T>, le: (T, T) -> bool)
    requires TotalPreorder(dom, le)
    requires x in dom && forall y :: y in s ==> y in dom
    requires Sorted(s, le)
    ensures Sorted(Insert(x, s, le), le)
  {
    if s == [] {
    } else if le(x, s[0]) && !le(s[0], x) {
      var r := Insert(x, s, le);
      forall i, j | 0 <= i < j < |r| ensures le(r[i], r[j]) {
        if i == 0 {
          assert le(x, s[0]) && le(s[0], r[j]);
        }
      }
    } else {
      InsertSorted(dom, x, s[1..], le);
      var r := Insert(x, s, le);
      var t := Insert(x, s[1..], le);
      assert r == [s[0]] + t;
      assert le(s[0], x);
      forall i, j | 0 <= i < j < |r| ensures le(r[i], r[j]) {
        if i == 0 {
          assert r[j] in multiset(t);
          assert r[j] in multiset(s[1..]) + multiset{x};
          if r[j] != x || r[j] in multiset(s[1..]) {
            if r[j] in multiset(s[1..]) {
              var k :| 0 <= k < |s[1..]| && s[1..][k] == r[j];
              assert le(s[0], s[k + 1]);
            }
          }
        }
      }
    }
  }

  /** `SortBy` returns the elements ordered by `le`. */
  lemma {:induction false} SortBySorted<T>(dom: set<T>, s: seq<T>, le: (T, T) -> bool)
    requires TotalPreorder(dom, le)
    requires forall y :: y in s ==> y in dom
    ensures Sorted(SortBy(s, le), le)
    decreases |s|
  {
    if s != [] {
      SortBySorted(dom, s[..|s| - 1], le);
      var sorted := SortBy(s[..|s| - 1], le);
      assert forall y :: y in sorted ==> y in multiset(s[..|s| - 1]);
      InsertSorted(dom, s[|s| - 1], sorted, le);
    }
  }

  /** The elements of `s` that tie with `z` under `le`, in their order in `s`. */
  function Ties<T>(s: seq<T>, z: T, le: (T, T) -> bool): (r: seq<T>)
    ensures |r| <= |s|
    ensures forall y | y in r :: y in s && le(y, z) && le(z, y)
  {
    if s == [] then []
    else (if le(s[0], z) && le(z, s[0]) then [s[0]] else []) + Ties(s[1..], z, le)
  }

  lemma {:induction false} TiesAppend<T>(a: seq<T>, b: seq<T>, z: T, le: (T, T) -> bool)
    ensures Ties(a + b, z, le) == Ties(a, z, le) + Ties(b, z, le)
  {
    if a == [] {
      assert a + b == b;
    } else {
      assert (a + b)[1..] == a[1..] + b;
      TiesAppend(a[1..], b, z, le);
    }
  }

  lemma {:induction false} NoTies<T>(s: seq<T>, z: T, le: (T, T) -> bool)
    requires forall i :: 0 <= i < |s| ==> !(le(s[i], z) && le(z, s[i]))
    ensures Ties(s, z, le) == []
  {
    if s != [] {
      NoTies(s[1..], z, le);
    }
  }

  /** No element of a sorted list ties with an `x` strictly below its head. */
  lemma NoTiesAbove<T>(dom: set<T>, x: T, s: seq<T>, z: T, le: (T, T) -> bool)
    requires TotalPreorder(dom, le)
    requires x in dom && z in dom && forall y :: y in s ==> y in dom
    requires Sorted(s, le) && s != [] && le(x, s[0]) && !le(s[0], x)
    requires le(x, z) && le(z, x)
    ensures Ties(s, z, le) == []
  {
    forall i | 0 <= i < |s| ensures !le(s[i], z) {
      assert s[i] in s && s[0] in s;
      if i > 0 {
        assert le(s[0], s[i]);
      }
    }
    NoTies(s, z, le);
  }

  /** Insertion puts `x` after every element of the sorted list that ties with it. */
  lemma {:induction false} InsertStable<T>(dom: set<T>, x: T, s: seq<T>, z: T, le: (T, T) -> bool)
    requires TotalPreorder(dom, le)
    requires x in dom && z in dom && forall y :: y in s ==> y in dom
    requires Sorted(s, le)
    ensures Ties(Insert(x, s, le), z, le) == Ties(s, z, le) + Ties([x], z, le)
  {
    if s == [] {
    } else if le(x, s[0]) && !le(s[0], x) {
      TiesAppend([x], s, z, le);
      if le(x, z) && le(z, x) {
        NoTiesAbove(dom, x, s, z, le);
      }
    } else {
      var t := Insert(x, s[1..], le);
      assert Sorted(s[1..], le);
      InsertStable(dom, x, s[1..], z, le);
      assert Insert(x, s, le) == [s[0]] + t;
      TiesAppend([s[0]], t, z, le);
      assert s == [s[0]] + s[1..];
      TiesAppend([s[0]], s[1..], z, le);
    }
  }

  /**
   * `SortBy` is stable: the elements that tie with any `z` keep their input
   * order, as `Collections.sort` promises.
   */
  lemma {:induction false} SortByStable<T>(dom: set<T>, s: seq<T>, z: T, le: (T, T) -> bool)
    requires TotalPreorder(dom, le)
    requires z in dom && forall y :: y in s ==> y in dom
    ensures Ties(SortBy(s, le), z, le) == Ties(s, z, le)
    decreases |s|
  {
    if s != [] {
      var init := s[..|s| - 1];
      var sorted := SortBy(init, le);
      SortByStable(dom, init, z, le);
      SortBySorted(dom, init, le);
      assert forall y :: y in sorted ==> y in multiset(init);
      InsertStable(dom, s[|s| - 1], sorted, z, le);
      assert s == init + [s[|s| - 1]];
      TiesAppend(init, [s[|s| - 1]], z, le);
    }
  }

  /** A sequence without duplicates and any rearrangement of it have the same elements, once each. */
  lemma PermutationKeepsNoDuplicates<T>(a: seq<T>, b: seq<T>)
    requires multiset(a) == multiset(b)
    requires NoDuplicates(a)
    ensures NoDuplicates(b)
    ensures forall x :: x in a <==> x in b
  {
    forall i, j | 0 <= i < j < |b| ensures b[i] != b[j] {
      if b[i] == b[j] {
        var x := b[i];
        assert multiset(b)[x] >= 2 by {
          assert b == b[..i] + [b[i]] + b[i + 1..j] + [b[j]] + b[j + 1..];
        }
        NoDuplicatesCountAtMostOne(a, x);
      }
    }
    forall x ensures x in a <==> x in b {
      assert x in a <==> x in multiset(a);
      assert x in b <==> x in multiset(b);
    }
  }

  lemma {:induction false} NoDuplicatesCountAtMostOne<T>(a: seq<T>, x: T)
    requires NoDuplicates(a)
    ensures multiset(a)[x] <= 1
  {
    if a != [] {
      assert a == [a[0]] + a[1..];
      NoDuplicatesCountAtMostOne(a[1..], x);
      if a[0] == x {
        assert x !in a[1..];
      }
    }
  }

  /** `r` lists every value of `values` exactly once, in `le` order. */
  ghost predicate ListsSorted<T>(r: seq<T>, values: set<T>, le: (T, T) -> bool)
  {
    && Sorted(r, le)
    && NoDuplicates(r)
    && (forall x | x in r :: x in values)
    && (forall x | x in values :: x in r)
  }

  /** Sorting a list without duplicates of exactly `values` lists each of them once, in order. */
  lemma SortDistinct<T>(dom: set<T>, xs: seq<T>, values: set<T>, le: (T, T) -> bool)
    requires TotalPreorder(dom, le)
    requires forall x :: x in xs ==> x in dom
    requires NoDuplicates(xs)
    requires forall x :: x in xs <==> x in values
    ensures ListsSorted(SortBy(xs, le), values, le)
  {
    SortBySorted(dom, xs, le);
    var r := SortBy(xs, le);
    PermutationKeepsNoDuplicates(xs, r);
    forall x | x in r ensures x in values {
      assert x in multiset(r);
    }
  }

  /** A list without duplicates is as long as the set of its elements is large. */
  lemma {:induction false} DistinctLength<T>(xs: seq<T>)
    requires NoDuplicates(xs)
    ensures |set x | x in xs| == |xs|
  {
    if xs != [] {
      var init := xs[..|xs| - 1];
      var last := xs[|xs| - 1];
      DistinctLength(init);
      assert (set x | x in xs) == (set x | x in init) + {last} by {
        assert xs == init + [last];
      }
      assert last !in init;
    }
  }

  /** A listing of a set, once each, is as long as the set is large. */
  lemma ListsSortedLength<T>(r: seq<T>, values: set<T>, le: (T, T) -> bool)
    requires ListsSorted(r, values, le)
    ensures |r| == |values|
  {
    DistinctLength(r);
    assert (set x | x in r) == values;
  }
}
