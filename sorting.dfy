/** A stable sort by a real-valued key, the behaviour of JavaScript's
    `Array.prototype.sort` with a numeric comparator `(a, b) => key(a) - key(b)`
    (the language requires the sort to be stable). Sorting descending is
    sorting by the negated key. */
module Sorting {

  predicate SortedBy<T>(s: seq<T>, key: T -> real) {
    forall i, j :: 0 <= i < j < |s| ==> key(s[i]) <= key(s[j])
  }

  /** The elements of `s` whose key is `k`, in the order they have in `s`. */
  function WithKey<T>(s: seq<T>, key: T -> real, k: real): seq<T> {
    if s == [] then []
    else (if key(s[0]) == k then [s[0]] else []) + WithKey(s[1..], key, k)
  }

  /** Key-`k` subsequences distribute over concatenation. */
  lemma {:induction false} WithKeyAppend<T>(a: seq<T>, b: seq<T>, key: T -> real, k: real)
    ensures WithKey(a + b, key, k) == WithKey(a, key, k) + WithKey(b, key, k)
  {
    if a != [] {
      var h := if key(a[0]) == k then [a[0]] else [];
      assert (a + b)[0] == a[0];
      assert (a + b)[1..] == a[1..] + b;
      assert WithKey(a + b, key, k) == h + WithKey(a[1..] + b, key, k);
      WithKeyAppend(a[1..], b, key, k);
      assert WithKey(a, key, k) == h + WithKey(a[1..], key, k);
    } else {
      assert a + b == b;
    }
  }

  /** A sequence without key-`k` elements has an empty key-`k` subsequence. */
  lemma {:induction false} WithKeyAbsent<T>(s: seq<T>, key: T -> real, k: real)
    requires forall i :: 0 <= i < |s| ==> key(s[i]) != k
    ensures WithKey(s, key, k) == []
  {
    if s != [] {
      WithKeyAbsent(s[1..], key, k);
    }
  }

  /** How many leading elements of a sorted `s` have a key below `x`'s. */
  function InsertionPoint<T>(x: T, s: seq<T>, key: T -> real): (p: nat)
    ensures p <= |s|
    ensures forall i :: 0 <= i < p ==> key(s[i]) < key(x)
    ensures p < |s| ==> key(x) <= key(s[p])
  {
    if s == [] || key(x) <= key(s[0]) then 0 else 1 + InsertionPoint(x, s[1..], key)
  }

  /** Puts `x` in front of the first element whose key is not smaller. */
  function Insert<T>(x: T, s: seq<T>, key: T -> real): (r: seq<T>)
    requires SortedBy(s, key)
    ensures |r| == |s| + 1
    ensures SortedBy(r, key)
    ensures multiset(r) == multiset(s) + multiset{x}
  {
    var p := InsertionPoint(x, s, key);
    assert s == s[..p] + s[p..];
    InsertKeepsOrder(x, s, key, p);
    s[..p] + [x] + s[p..]
  }

  lemma InsertKeepsOrder<T>(x: T, s: seq<T>, key: T -> real, p: nat)
    requires SortedBy(s, key)
    requires p == InsertionPoint(x, s, key)
    ensures SortedBy(s[..p] + [x] + s[p..], key)
  {
    var r := s[..p] + [x] + s[p..];
    forall i, j | 0 <= i < j < |r|
      ensures key(r[i]) <= key(r[j])
    {
      if j < p {
        assert r[i] == s[i] && r[j] == s[j];
      } else if j == p {
        assert r[i] == s[i] && r[j] == x;
      } else if i < p {
        assert r[i] == s[i] && r[j] == s[j - 1];
      } else if i == p {
        assert r[i] == x && r[j] == s[j - 1];
        assert key(x) <= key(s[p]);
      } else {
        assert r[i] == s[i - 1] && r[j] == s[j - 1];
      }
    }
  }

  /** Placing `x` after elements of smaller key only puts `x` at the head
      of its own key's subsequence. */
  lemma PlaceAfterSmaller<T>(a: seq<T>, x: T, b: seq<T>, key: T -> real, k: real)
    requires forall i :: 0 <= i < |a| ==> key(a[i]) < key(x)
    ensures WithKey(a + [x] + b, key, k) == (if key(x) == k then [x] else []) + WithKey(a + b, key, k)
  {
    WithKeyAppend(a + [x], b, key, k);
    WithKeyAppend(a, [x], key, k);
    WithKeyAppend(a, b, key, k);
    assert [x][1..] == [];
    assert WithKey([x], key, k) == if key(x) == k then [x] else [];
    if key(x) == k {
      WithKeyAbsent(a, key, k);
    }
  }

  /** Inserting `x` puts it in front of the elements that share its key. */
  lemma InsertIsStableAt<T>(x: T, s: seq<T>, key: T -> real, k: real)
    requires SortedBy(s, key)
    ensures WithKey(Insert(x, s, key), key, k) == (if key(x) == k then [x] else []) + WithKey(s, key, k)
  {
    var p := InsertionPoint(x, s, key);
    assert s == s[..p] + s[p..];
    PlaceAfterSmaller(s[..p], x, s[p..], key, k);
  }

  /** Insertion sort: the result is ordered by key and is a permutation of
      the input (stability is `SortByIsStable`). */
  function SortBy<T>(s: seq<T>, key: T -> real): (r: seq<T>)
    ensures |r| == |s|
    ensures SortedBy(r, key)
    ensures multiset(r) == multiset(s)
  {
    if s == [] then []
    else
      assert s == [s[0]] + s[1..];
      Insert(s[0], SortBy(s[1..], key), key)
  }

  /** The sort is stable: for every key, the elements with that key keep
      their input order. */
  lemma {:induction false} SortByIsStable<T>(s: seq<T>, key: T -> real, k: real)
    ensures WithKey(SortBy(s, key), key, k) == WithKey(s, key, k)
  {
    if s != [] {
      SortByIsStable(s[1..], key, k);
      InsertIsStableAt(s[0], SortBy(s[1..], key), key, k);
    }
  }

  /** The first element of `s` with key `k` heads the key-`k` subsequence. */
  lemma {:induction false} WithKeyHead<T>(s: seq<T>, key: T -> real, i: nat)
    requires i < |s|
    requires forall j :: 0 <= j < i ==> key(s[j]) != key(s[i])
    ensures WithKey(s, key, key(s[i])) != []
    ensures WithKey(s, key, key(s[i]))[0] == s[i]
  {
    if i > 0 {
      WithKeyHead(s[1..], key, i - 1);
    }
  }

  /** An element of the input sits at some index of the sorted output. */
  lemma InSorted<T>(s: seq<T>, key: T -> real, x: T) returns (j: nat)
    requires x in s
    ensures j < |s| && SortBy(s, key)[j] == x
  {
    var r := SortBy(s, key);
    assert x in multiset(s);
    assert x in multiset(r);
    j :| 0 <= j < |r| && r[j] == x;
  }

  /** An element of the sorted output sits at some index of the input. */
  lemma FromInput<T>(s: seq<T>, key: T -> real, j: nat) returns (i: nat)
    requires j < |s|
    ensures i < |s| && s[i] == SortBy(s, key)[j]
  {
    var r := SortBy(s, key);
    assert r[j] in multiset(r);
    assert r[j] in multiset(s);
    i :| 0 <= i < |s| && s[i] == r[j];
  }

  /** The sorted sequence starts with a key equal to the input's minimum. */
  lemma SortedHeadKey<T>(s: seq<T>, key: T -> real, i: nat)
    requires i < |s|
    requires forall j :: 0 <= j < |s| ==> key(s[i]) <= key(s[j])
    ensures key(SortBy(s, key)[0]) == key(s[i])
  {
    var a := FromInput(s, key, 0);
    var b := InSorted(s, key, s[i]);
  }

  /** The sorted sequence starts with the earliest element of smallest key:
      the lowest key wins, and among equal keys the input order decides. */
  lemma LeastComesFirst<T>(s: seq<T>, key: T -> real, i: nat)
    requires i < |s|
    requires forall j :: 0 <= j < |s| ==> key(s[i]) <= key(s[j])
    requires forall j :: 0 <= j < i ==> key(s[i]) < key(s[j])
    ensures SortBy(s, key)[0] == s[i]
  {
    var r := SortBy(s, key);
    SortedHeadKey(s, key, i);
    WithKeyHead(r, key, 0);
    WithKeyHead(s, key, i);
    SortByIsStable(s, key, key(s[i]));
  }

  /** Every element of the input has a key no smaller than the first
      element's, and every element other than the first has a key no smaller
      than the second's. */
  lemma FirstTwoAreLowest<T>(s: seq<T>, key: T -> real, x: T)
    requires x in s
    ensures key(SortBy(s, key)[0]) <= key(x)
    ensures |s| >= 2 && x != SortBy(s, key)[0] ==> key(SortBy(s, key)[1]) <= key(x)
  {
    var j := InSorted(s, key, x);
  }

  /** The first index at or before `j` whose key is `k`. */
  lemma {:induction false} FirstWithKey<T>(s: seq<T>, key: T -> real, k: real, j: nat) returns (i: nat)
    requires j < |s| && key(s[j]) == k
    ensures i <= j && key(s[i]) == k
    ensures forall m :: 0 <= m < i ==> key(s[m]) != k
  {
    if j == 0 || forall m :: 0 <= m < j ==> key(s[m]) != k {
      i := j;
    } else {
      var m :| 0 <= m < j && key(s[m]) == k;
      i := FirstWithKey(s, key, k, m);
    }
  }

  /** Among the input elements whose key is the smallest, the one the sorted
      sequence starts with comes first in the input. */
  lemma HeadIsEarliestAmongLeast<T>(s: seq<T>, key: T -> real, j: nat) returns (i: nat)
    requires j < |s|
    requires key(s[j]) == key(SortBy(s, key)[0])
    ensures i <= j && s[i] == SortBy(s, key)[0]
  {
    var r := SortBy(s, key);
    var k := key(r[0]);
    i := FirstWithKey(s, key, k, j);
    forall m | 0 <= m < |s|
      ensures k <= key(s[m])
    {
      FirstTwoAreLowest(s, key, s[m]);
    }
    LeastComesFirst(s, key, i);
  }

  /** Among the input elements other than the sorted head that share the key
      of the second sorted element, that element comes first in the input. */
  lemma SecondIsEarliestAmongRest<T>(s: seq<T>, key: T -> real, j: nat) returns (i: nat)
    requires 2 <= |s| && j < |s|
    requires s[j] != SortBy(s, key)[0]
    requires key(s[j]) == key(SortBy(s, key)[1])
    ensures i <= j && s[i] == SortBy(s, key)[1]
  {
    var r := SortBy(s, key);
    var k := key(r[1]);
    SortByIsStable(s, key, k);
    if key(r[0]) != k {
      i := FirstWithKey(s, key, k, j);
      WithKeyHead(s, key, i);
      WithKeyHead(r, key, 1);
    } else {
      i := SecondOfSharedLeast(s, key, j);
    }
  }

  /** The case where the first two sorted elements share the smallest key:
      the second is the next element of that key in the input. */
  lemma SecondOfSharedLeast<T>(s: seq<T>, key: T -> real, j: nat) returns (i: nat)
    requires 2 <= |s| && j < |s|
    requires s[j] != SortBy(s, key)[0]
    requires key(SortBy(s, key)[0]) == key(SortBy(s, key)[1]) == key(s[j])
    requires WithKey(SortBy(s, key), key, key(s[j])) == WithKey(s, key, key(s[j]))
    ensures i <= j && s[i] == SortBy(s, key)[1]
  {
    var r := SortBy(s, key);
    var k := key(s[j]);
    var i0 := FirstWithKey(s, key, k, j);
    forall m | 0 <= m < |s|
      ensures k <= key(s[m])
    {
      FirstTwoAreLowest(s, key, s[m]);
    }
    LeastComesFirst(s, key, i0);
    var t := s[i0 + 1..];
    var m := FirstWithKey(t, key, k, j - i0 - 1);
    i := i0 + 1 + m;
    WithKeyAfterFirst(s, key, k, i0);
    WithKeyHead(t, key, m);
    assert t[m] == s[i];
    assert WithKey(s, key, k)[1] == s[i];
    assert r[1..][0] == r[1];
    WithKeyHead(r[1..], key, 0);
    assert WithKey(r, key, k) == [r[0]] + WithKey(r[1..], key, k);
    assert WithKey(r, key, k)[1] == r[1];
  }

  /** The key-`k` subsequence of `s` is its first element of key `k`
      followed by the key-`k` subsequence of the rest. */
  lemma WithKeyAfterFirst<T>(s: seq<T>, key: T -> real, k: real, i0: nat)
    requires i0 < |s| && key(s[i0]) == k
    requires forall m :: 0 <= m < i0 ==> key(s[m]) != k
    ensures WithKey(s, key, k) == [s[i0]] + WithKey(s[i0 + 1..], key, k)
  {
    var t := s[i0 + 1..];
    assert s == s[..i0] + [s[i0]] + t;
    WithKeyAbsent(s[..i0], key, k);
    WithKeyAppend(s[..i0] + [s[i0]], t, key, k);
    WithKeyAppend(s[..i0], [s[i0]], key, k);
    assert [s[i0]][1..] == [];
  }

  /** In a sequence without duplicates every element occurs once. */
  lemma DistinctOccursOnce<T>(s: seq<T>, i: nat)
    requires forall m, n :: 0 <= m < n < |s| ==> s[m] != s[n]
    requires i < |s|
    ensures multiset(s)[s[i]] == 1
  {
    var x := s[i];
    assert s == s[..i] + [x] + s[i + 1..];
    assert x !in s[..i];
    assert x !in s[i + 1..];
  }

  /** An element found at two indices occurs at least twice. */
  lemma TwiceAtTwoIndices<T>(t: seq<T>, a: nat, b: nat)
    requires a < b < |t|
    ensures t[a] == t[b] ==> multiset(t)[t[a]] >= 2
  {
    assert t == t[..a] + [t[a]] + t[a + 1..b] + [t[b]] + t[b + 1..];
  }

  /** Sorting a sequence without duplicates gives one without duplicates. */
  lemma SortedDistinct<T>(s: seq<T>, key: T -> real, a: nat, b: nat)
    requires forall i, j :: 0 <= i < j < |s| ==> s[i] != s[j]
    requires a < b < |s|
    ensures SortBy(s, key)[a] != SortBy(s, key)[b]
  {
    var r := SortBy(s, key);
    var i := FromInput(s, key, a);
    DistinctOccursOnce(s, i);
    TwiceAtTwoIndices(r, a, b);
  }

  /** A sorted row is a row of the input. */
  lemma InSortBy<T>(rows: seq<T>, key: T -> real, x: T)
    requires x in SortBy(rows, key)
    ensures x in rows
  {
    assert x in multiset(SortBy(rows, key));
  }
}
