/** The pagination arithmetic the list endpoints share: rows are skipped
    `(page - 1) * limit` at a time, a page holds at most `limit` rows, and
    the page count is `Math.ceil(total / limit)`. */
module Paging {
  import opened Sorting

  /** The number `Math.ceil(total / limit)` evaluates to: a whole number or,
      for a zero limit, `Infinity` (some rows) or `NaN` (no rows), both of
      which a JSON reply shows as null. */
  datatype PageCount = Pages(n: int) | Unbounded | Undefined

  function TotalPages(total: nat, limit: int): PageCount {
    if limit > 0 then Pages((total + limit - 1) / limit)
    else if limit < 0 then Pages(-(total / -limit))
    else if total > 0 then Unbounded
    else Undefined
  }

  /** For a non-zero limit the page count is the ceiling of the quotient:
      the least whole `n` with `n * limit >= total` when the limit is
      positive (and the mirror image when it is negative); a zero limit
      gives no number. */
  lemma TotalPagesIsCeiling(total: nat, limit: int)
    ensures limit != 0 <==> TotalPages(total, limit).Pages?
    ensures limit > 0 ==>
      var n := TotalPages(total, limit).n;
      n >= 0 && (n - 1) * limit < total <= n * limit
    ensures limit < 0 ==>
      var n := TotalPages(total, limit).n;
      n <= 0 && n * limit <= total < (n - 1) * limit
  {
    if limit > 0 {
      CeilingOfPositive(total, limit);
    } else if limit < 0 {
      CeilingOfNegative(total, limit);
    }
  }

  lemma CeilingOfPositive(total: nat, limit: int)
    requires limit > 0
    ensures var n := (total + limit - 1) / limit;
      n >= 0 && (n - 1) * limit < total <= n * limit
  {
    var q := (total + limit - 1) / limit;
    var r := (total + limit - 1) % limit;
    var ql := q * limit;
    assert total + limit - 1 == ql + r && 0 <= r < limit;
    assert (q - 1) * limit == ql - limit;
    assert q >= 0;
  }

  lemma CeilingOfNegative(total: nat, limit: int)
    requires limit < 0
    ensures var n := -(total / -limit);
      n <= 0 && n * limit <= total < (n - 1) * limit
  {
    var m := -limit;
    var q := total / m;
    var qm := q * m;
    assert total == qm + total % m && 0 <= total % m < m;
    assert (-q) * limit == qm;
    assert (-q - 1) * limit == qm + m;
  }

  /** Rows skipped before page `page`. */
  function Skip(page: int, limit: int): int {
    (page - 1) * limit
  }

  /** `page < Math.ceil(total / limit)`: true below a finite count and below
      `Infinity`, false against `NaN`. */
  predicate HasNextPage(page: int, pages: PageCount) {
    (pages.Pages? && page < pages.n) || pages.Unbounded?
  }

  predicate HasPrevPage(page: int) {
    page > 1
  }

  /** With a positive limit there is a next page exactly when rows remain
      after the first `page` pages. */
  lemma {:induction false} HasNextPageIffMoreRows(page: int, total: nat, limit: int)
    requires limit > 0
    ensures HasNextPage(page, TotalPages(total, limit)) <==> page * limit < total
  {
    CeilingOfPositive(total, limit);
    var n := TotalPages(total, limit).n;
    if page < n {
      MulAtMost(page, n - 1, limit);
    } else {
      MulAtMost(n, page, limit);
    }
  }

  lemma MulAtMost(a: int, b: int, c: int)
    requires a <= b && c >= 0
    ensures a * c <= b * c
  {
    var d := b - a;
    assert b * c == a * c + d * c;
  }

  /** The rows `skip`/`take` select from a result list: the `take` rows (or
      fewer, at the end) that follow the first `skip`. */
  function Window<T>(rows: seq<T>, skip: nat, take: nat): (r: seq<T>)
    ensures |r| <= take
    ensures skip < |rows| ==> |r| == if take < |rows| - skip then take else |rows| - skip
    ensures skip >= |rows| ==> r == []
    ensures forall i :: 0 <= i < |r| ==> skip + i < |rows| && r[i] == rows[skip + i]
  {
    if skip >= |rows| then []
    else if skip + take >= |rows| then rows[skip..]
    else rows[skip..skip + take]
  }

  /** Every row is on exactly the page its position says: row `k` is entry
      `k % limit` of page `k / limit + 1`. */
  lemma {:induction false} PagesCover<T>(rows: seq<T>, limit: int, k: nat)
    requires limit > 0 && k < |rows|
    ensures var page := k / limit + 1;
      && Skip(page, limit) >= 0
      && k % limit < |Window(rows, Skip(page, limit), limit)|
      && Window(rows, Skip(page, limit), limit)[k % limit] == rows[k]
  {
    var page := k / limit + 1;
    assert Skip(page, limit) == (k / limit) * limit;
    assert k == (k / limit) * limit + k % limit;
  }

  /** A page from the first on holds rows exactly up to the page count. */
  lemma {:induction false} PageFilledIffWithinCount<T>(rows: seq<T>, page: int, limit: int)
    requires limit > 0 && page >= 1
    ensures Skip(page, limit) >= 0
    ensures |Window(rows, Skip(page, limit), limit)| > 0 <==> page <= TotalPages(|rows|, limit).n
  {
    assert Skip(page, limit) >= 0 by {
      assert Skip(page, limit) == (page - 1) * limit;
    }
    HasNextPageIffMoreRows(page - 1, |rows|, limit);
  }

  /** A row of a window is a row of the sequence it is taken from. */
  lemma InWindow<T>(rows: seq<T>, skip: nat, take: nat, x: T)
    requires x in Window(rows, skip, take)
    ensures x in rows
  {
    var i :| 0 <= i < |Window(rows, skip, take)| && Window(rows, skip, take)[i] == x;
    assert rows[skip + i] == x;
  }

  /** A window of a sorted sequence is sorted. */
  lemma SortedWindow<T>(rows: seq<T>, key: T -> real, skip: nat, take: nat)
    requires SortedBy(rows, key)
    ensures SortedBy(Window(rows, skip, take), key)
  {
    var w := Window(rows, skip, take);
    forall i, j | 0 <= i < j < |w|
      ensures key(w[i]) <= key(w[j])
    {
      assert w[i] == rows[skip + i] && w[j] == rows[skip + j];
    }
  }

  /** The rows in reverse order. */
  function Reverse<T>(s: seq<T>): (r: seq<T>)
    ensures |r| == |s|
    ensures forall i :: 0 <= i < |s| ==> r[i] == s[|s| - 1 - i]
  {
    if s == [] then [] else Reverse(s[1..]) + [s[0]]
  }

  /** The rows the database's `skip` and `take` select. A non-negative
      `take` counts forward from the first row not skipped. A negative
      `take` counts `-take` rows back from the end, after `skip` rows have
      been skipped there. Either way the rows keep their order. */
  function Slice<T>(rows: seq<T>, skip: nat, take: int): (r: seq<T>)
    ensures take >= 0 ==> r == Window(rows, skip, take)
    ensures take < 0 ==>
      |r| == (if skip >= |rows| then 0 else if -take < |rows| - skip then -take else |rows| - skip)
    ensures take < 0 ==> forall i :: 0 <= i < |r| ==> r[i] == rows[|rows| - skip - |r| + i]
  {
    if take >= 0 then Window(rows, skip, take)
    else if skip >= |rows| then []
    else
      var end := |rows| - skip;
      var start := if -take < end then end + take else 0;
      rows[start..end]
  }

  /** A negative `take` is a positive one on the reversed rows, reversed
      back: reverse the order, skip, take, and restore the order. */
  lemma NegativeTakeReversed<T>(rows: seq<T>, skip: nat, n: nat)
    requires n > 0
    ensures Slice(rows, skip, -(n as int)) == Reverse(Window(Reverse(rows), skip, n))
  {
    var a := Slice(rows, skip, -(n as int));
    var w := Window(Reverse(rows), skip, n);
    var b := Reverse(w);
    var m := |w|;
    assert |a| == m;
    forall i | 0 <= i < m
      ensures a[i] == b[i]
    {
      var x := skip + m - 1 - i;
      assert b[i] == w[m - 1 - i];
      assert w[m - 1 - i] == Reverse(rows)[x];
      assert Reverse(rows)[x] == rows[|rows| - 1 - x];
      assert a[i] == rows[|rows| - skip - m + i];
    }
  }

  /** With a negative `take` and nothing skipped, a slice is the last
      `-take` rows (all of them when there are fewer). */
  lemma NegativeTakeIsSuffix<T>(rows: seq<T>, take: int)
    requires take < 0
    ensures var n := if -take < |rows| then -take else |rows|;
      Slice(rows, 0, take) == rows[|rows| - n..]
  {
  }

  /** A row of a slice is a row of the sequence it is taken from. */
  lemma InSlice<T>(rows: seq<T>, skip: nat, take: int, x: T)
    requires x in Slice(rows, skip, take)
    ensures x in rows
  {
    if take >= 0 {
      InWindow(rows, skip, take, x);
    } else {
      var r := Slice(rows, skip, take);
      var i :| 0 <= i < |r| && r[i] == x;
      assert rows[|rows| - skip - |r| + i] == x;
    }
  }

  /** A slice of a sorted sequence is sorted. */
  lemma SortedSlice<T>(rows: seq<T>, key: T -> real, skip: nat, take: int)
    requires SortedBy(rows, key)
    ensures SortedBy(Slice(rows, skip, take), key)
  {
    if take >= 0 {
      SortedWindow(rows, key, skip, take);
    } else {
      var r := Slice(rows, skip, take);
      var o := |rows| - skip - |r|;
      forall i, j | 0 <= i < j < |r|
        ensures key(r[i]) <= key(r[j])
      {
        assert r[i] == rows[o + i] && r[j] == rows[o + j];
        assert 0 <= o + i < o + j < |rows|;
      }
    }
  }
}
