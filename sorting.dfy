/**
 * AQL `SORT` and `LIMIT` over sequences. Sorting is a stable insertion sort by a
 * comparator `le` ("may come before"); AQL leaves the order of ties open, and
 * this model keeps the collection order among them.
 */
module Sorting {

  ghost predicate TotalPreorder<T(!new)>(le: (T, T) -> bool)
  {
    && (forall a, b :: le(a, b) || le(b, a))
    && (forall a, b, c :: le(a, b) && le(b, c) ==> le(a, c))
  }

  ghost predicate SortedBy<T>(s: seq<T>, le: (T, T) -> bool)
  {
    forall i, j :: 0 <= i < j < |s| ==> le(s[i], s[j])
  }

  function Insert<T>(x: T, s: seq<T>, le: (T, T) -> bool): (r: seq<T>)
    ensures multiset(r) == multiset(s) + multiset{x}
    ensures |r| == |s| + 1
  {
    if |s| == 0 then [x]
    else if le(x, s[0]) then [x] + s
    else
      assert s == [s[0]] + s[1..];
      [s[0]] + Insert(x, s[1..], le)
  }

  /** `SORT` by `le`: a permutation of the input. */
  function SortBy<T>(s: seq<T>, le: (T, T) -> bool): (r: seq<T>)
    ensures multiset(r) == multiset(s)
    ensures |r| == |s|
  {
    if |s| == 0 then []
    else
      assert s == [s[0]] + s[1..];
      Insert(s[0], SortBy(s[1..], le), le)
  }

  lemma {:induction false} InsertSorted<T(!new)>(x: T, s: seq<T>, le: (T, T) -> bool)
    requires TotalPreorder(le)
    requires SortedBy(s, le)
    ensures SortedBy(Insert(x, s, le), le)
  {
    if |s| > 0 && !le(x, s[0]) {
      var tail := Insert(x, s[1..], le);
      InsertSorted(x, s[1..], le);
      forall k | 0 <= k < |tail| ensures le(s[0], tail[k]) {
        assert tail[k] in multiset(tail);
        if tail[k] != x {
          assert tail[k] in multiset(s[1..]);
          var m :| 0 <= m < |s[1..]| && s[1..][m] == tail[k];
          assert s[m + 1] == tail[k];
        }
      }
    }
  }

  /** `SORT` by a total preorder yields a sorted sequence. */
  lemma {:induction false} SortBySorted<T(!new)>(s: seq<T>, le: (T, T) -> bool)
    requires TotalPreorder(le)
    ensures SortedBy(SortBy(s, le), le)
  {
    if |s| > 0 {
      SortBySorted(s[1..], le);
      InsertSorted(s[0], SortBy(s[1..], le), le);
    }
  }

  /** `LIMIT n`: the first `n` elements (all of them when there are fewer). */
  function Take<T>(s: seq<T>, n: nat): (r: seq<T>)
    ensures |r| == if n < |s| then n else |s|
    ensures r <= s
  {
    if n < |s| then s[..n] else s
  }

  /** `LIMIT offset, n`: skip `offset` elements, then take `n`. */
  function Window<T>(s: seq<T>, offset: nat, n: nat): (r: seq<T>)
    ensures |r| <= n
    ensures offset <= |s| ==> r <= s[offset..] && |r| == if n < |s| - offset then n else |s| - offset
    ensures offset > |s| ==> r == []
  {
    if offset <= |s| then Take(s[offset..], n) else []
  }

  /**
   * `SORT ... LIMIT n` leaves out only elements that every kept element may
   * precede, and then it keeps `n` of them: an element kept fewer times than
   * it occurs is only missing from a full page.
   */
  lemma TakeSortedComplete<T(!new)>(s: seq<T>, n: nat, le: (T, T) -> bool, x: T)
    requires TotalPreorder(le)
    requires multiset(Take(SortBy(s, le), n))[x] < multiset(s)[x]
    ensures |Take(SortBy(s, le), n)| == n
    ensures forall i :: 0 <= i < n ==> le(Take(SortBy(s, le), n)[i], x)
  {
    var sorted := SortBy(s, le);
    SortBySorted(s, le);
    var w := Take(sorted, n);
    var rest := sorted[|w|..];
    assert sorted == w + rest;
    assert x in multiset(rest);
    var k :| 0 <= k < |rest| && rest[k] == x;
    assert sorted[|w| + k] == x;
  }

  /** A prefix of a sorted sequence is sorted. */
  lemma TakeSorted<T>(s: seq<T>, n: nat, le: (T, T) -> bool)
    requires SortedBy(s, le)
    ensures SortedBy(Take(s, n), le)
  {
  }

  /** `SORT ... LIMIT n` is sorted. */
  lemma SortedTake<T(!new)>(s: seq<T>, n: nat, le: (T, T) -> bool)
    requires TotalPreorder(le)
    ensures SortedBy(Take(SortBy(s, le), n), le)
  {
    SortBySorted(s, le);
    TakeSorted(SortBy(s, le), n, le);
  }

  /** `SORT ... LIMIT n` keeps only elements of its input. */
  lemma TakeSortMembers<T>(s: seq<T>, n: nat, le: (T, T) -> bool, w: seq<T>)
    requires w == Take(SortBy(s, le), n)
    ensures forall i :: 0 <= i < |w| ==> w[i] in s
  {
    var sorted := SortBy(s, le);
    forall i | 0 <= i < |w| ensures w[i] in s {
      assert w[i] == sorted[i];
      assert sorted[i] in multiset(s);
    }
  }

  /** A window of a sorted sequence is sorted. */
  lemma WindowSorted<T>(s: seq<T>, offset: nat, n: nat, le: (T, T) -> bool)
    requires SortedBy(s, le)
    ensures SortedBy(Window(s, offset, n), le)
  {
    if offset <= |s| {
      var w := Window(s, offset, n);
      forall i, j | 0 <= i < j < |w| ensures le(w[i], w[j]) {
        assert w[i] == s[offset + i] && w[j] == s[offset + j];
      }
    }
  }

  /**
   * `before`, `w` and `after` divide the elements of `s` among them, and
   * every element of `before` may precede every element of `w`, which may
   * precede every element of `after`.
   */
  ghost predicate Splits<T>(s: seq<T>, before: seq<T>, w: seq<T>, after: seq<T>, le: (T, T) -> bool)
  {
    && multiset(before) + multiset(w) + multiset(after) == multiset(s)
    && (forall i, j :: 0 <= i < |before| && 0 <= j < |w| ==> le(before[i], w[j]))
    && (forall i, j :: 0 <= i < |w| && 0 <= j < |after| ==> le(w[i], after[j]))
  }

  /**
   * The parts of `s` around a page `w` of `LIMIT offset, n`: `offset` elements
   * (or all of them) before it, and nothing after a short page.
   */
  ghost predicate WindowParts<T>(s: seq<T>, before: seq<T>, w: seq<T>, after: seq<T>, le: (T, T) -> bool, offset: nat, n: nat)
  {
    && Splits(s, before, w, after, le)
    && |before| == (if offset < |s| then offset else |s|)
    && (|w| < n ==> after == [])
  }

  /** A sorted sequence cut in three parts is split in the sense of `Splits`. */
  lemma SortedSplits<T>(s: seq<T>, sorted: seq<T>, before: seq<T>, w: seq<T>, after: seq<T>, le: (T, T) -> bool)
    requires multiset(sorted) == multiset(s) && SortedBy(sorted, le)
    requires sorted == before + w + after
    ensures Splits(s, before, w, after, le)
  {
    forall i, j | 0 <= i < |before| && 0 <= j < |w| ensures le(before[i], w[j]) {
      assert before[i] == sorted[i] && w[j] == sorted[|before| + j];
    }
    forall i, j | 0 <= i < |w| && 0 <= j < |after| ensures le(w[i], after[j]) {
      assert w[i] == sorted[|before| + i] && after[j] == sorted[|before| + |w| + j];
    }
  }

  /** A window of `s` together with what precedes and follows it is `s` again. */
  lemma WindowCut<T>(s: seq<T>, offset: nat, n: nat)
    ensures var a := if offset < |s| then offset else |s|;
      s == s[..a] + Window(s, offset, n) + s[a + |Window(s, offset, n)|..]
  {
    var a := if offset < |s| then offset else |s|;
    var w := Window(s, offset, n);
    forall k | 0 <= k < |w| ensures w[k] == s[a + k] {
      assert w[k] == s[offset..][k];
    }
    assert s[..a] + w + s[a + |w|..] == s;
  }

  /**
   * `SORT ... LIMIT offset, n` returns the elements that follow the first
   * `offset` in the order: those skipped may all precede the page, the page
   * may precede all those after it, and nothing follows a short page.
   */
  lemma WindowSplit<T(!new)>(s: seq<T>, offset: nat, n: nat, le: (T, T) -> bool)
    requires TotalPreorder(le)
    ensures exists before, after :: WindowParts(s, before, Window(SortBy(s, le), offset, n), after, le, offset, n)
  {
    var sorted := SortBy(s, le);
    SortBySorted(s, le);
    var w := Window(sorted, offset, n);
    var a := if offset < |s| then offset else |s|;
    WindowCut(sorted, offset, n);
    var before, after := sorted[..a], sorted[a + |w|..];
    SortedSplits(s, sorted, before, w, after, le);
    assert |w| < n ==> after == [];
    assert WindowParts(s, before, w, after, le, offset, n);
  }

  /** `SORT ... LIMIT n` returns the first `n` elements of the order. */
  lemma TakeSplit<T(!new)>(s: seq<T>, n: nat, le: (T, T) -> bool)
    requires TotalPreorder(le)
    ensures exists after :: WindowParts(s, [], Take(SortBy(s, le), n), after, le, 0, n)
  {
    var sorted := SortBy(s, le);
    SortBySorted(s, le);
    var w := Take(sorted, n);
    assert sorted == [] + w + sorted[|w|..];
    var after := sorted[|w|..];
    SortedSplits(s, sorted, [], w, after, le);
    assert |w| < n ==> after == [];
    assert WindowParts(s, [], w, after, le, 0, n);
  }

  /** `LIMIT n` keeps only elements of its input, each at most as often. */
  lemma TakeSubMultiset<T>(s: seq<T>, n: nat)
    ensures multiset(Take(s, n)) <= multiset(s)
  {
    assert s == Take(s, n) + s[|Take(s, n)|..];
  }

  /** `LIMIT offset, n` keeps only elements of its input, each at most as often. */
  lemma WindowSubMultiset<T>(s: seq<T>, offset: nat, n: nat)
    ensures multiset(Window(s, offset, n)) <= multiset(s)
  {
    var w := Window(s, offset, n);
    if offset <= |s| {
      assert s == s[..offset] + w + s[offset + |w|..];
    }
  }
}
