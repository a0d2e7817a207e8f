/**
 * AQL `COLLECT v = expr WITH COUNT INTO cnt SORT cnt DESC LIMIT n`: the
 * distinct values of a sequence, most frequent first, at most `n` of them.
 */
module Grouping {
  import opened Sorting

  /** How many times `x` occurs in `s`. */
  function Occurrences<T(==)>(s: seq<T>, x: T): (n: nat)
    ensures n <= |s|
    ensures n == multiset(s)[x]
  {
    if |s| == 0 then 0
    else
      assert s == [s[0]] + s[1..];
      (if s[0] == x then 1 else 0) + Occurrences(s[1..], x)
  }

  /** Every element of `s` occurs in it exactly once. */
  ghost predicate NoRepeats<T>(s: seq<T>)
  {
    forall i, j :: 0 <= i < j < |s| ==> s[i] != s[j]
  }

  /** `COLLECT v = ...`: each value of `s` once, in order of first occurrence. */
  function Distinct<T(==)>(s: seq<T>): (r: seq<T>)
    ensures NoRepeats(r)
    ensures forall i :: 0 <= i < |r| ==> r[i] in s
    ensures forall i :: 0 <= i < |s| ==> s[i] in r
  {
    if |s| == 0 then []
    else
      var d := Distinct(s[..|s| - 1]);
      var last := s[|s| - 1];
      assert forall i :: 0 <= i < |s| - 1 ==> s[i] == s[..|s| - 1][i];
      if last in d then d else d + [last]
  }

  /** `Distinct` keeps exactly the values of `s`. */
  lemma DistinctMember<T>(s: seq<T>, x: T)
    ensures x in Distinct(s) <==> x in s
  {
    var d := Distinct(s);
    if x in d {
      var i :| 0 <= i < |d| && d[i] == x;
    }
    if x in s {
      var i :| 0 <= i < |s| && s[i] == x;
    }
  }

  lemma {:induction false} NoRepeatsAtMostOnce<T>(s: seq<T>, x: T)
    requires NoRepeats(s)
    ensures multiset(s)[x] <= 1
  {
    if |s| > 0 {
      assert s == [s[0]] + s[1..];
      assert NoRepeats(s[1..]) by {
        forall i, j | 0 <= i < j < |s[1..]| ensures s[1..][i] != s[1..][j] {
          assert s[1..][i] == s[i + 1] && s[1..][j] == s[j + 1];
        }
      }
      NoRepeatsAtMostOnce(s[1..], x);
      if s[0] == x {
        forall k | 0 <= k < |s[1..]| ensures s[1..][k] != x {
          assert s[1..][k] == s[k + 1];
        }
        assert x !in s[1..];
      }
    }
  }

  /** Reordering a sequence without repeats leaves it without repeats. */
  lemma PermutationNoRepeats<T>(a: seq<T>, b: seq<T>)
    requires multiset(a) == multiset(b) && NoRepeats(a)
    ensures NoRepeats(b)
  {
    forall i, j | 0 <= i < j < |b| ensures b[i] != b[j] {
      assert b == b[..j] + b[j..];
      assert b[i] in b[..j] && b[j] in b[j..];
      assert multiset(b)[b[j]] >= 1 + (if b[i] == b[j] then 1 else 0) by {
        assert multiset(b) == multiset(b[..j]) + multiset(b[j..]);
        assert multiset(b[..j])[b[i]] >= 1;
        assert multiset(b[j..])[b[j]] >= 1;
      }
      NoRepeatsAtMostOnce(a, b[j]);
    }
  }

  /** The order of `SORT cnt DESC` over the groups of `s`. */
  predicate MoreFrequent<T(==)>(s: seq<T>, a: T, b: T)
  {
    Occurrences(s, a) >= Occurrences(s, b)
  }

  lemma MoreFrequentTotal<T(!new)>(s: seq<T>)
    ensures TotalPreorder((a: T, b: T) => MoreFrequent(s, a, b))
  {
  }

  /** The groups of `s` sorted by non-increasing count. */
  function ByFrequency<T(==,!new)>(s: seq<T>): (r: seq<T>)
    ensures multiset(r) == multiset(Distinct(s))
    ensures SortedBy(r, (a: T, b: T) => MoreFrequent(s, a, b))
  {
    MoreFrequentTotal(s);
    SortBySorted(Distinct(s), (a: T, b: T) => MoreFrequent(s, a, b));
    SortBy(Distinct(s), (a: T, b: T) => MoreFrequent(s, a, b))
  }

  /** `COLLECT v WITH COUNT INTO cnt SORT cnt DESC LIMIT n RETURN v`. */
  function TopByCount<T(==,!new)>(s: seq<T>, n: nat): (r: seq<T>)
    ensures |r| <= n
    ensures NoRepeats(r)
    ensures forall i :: 0 <= i < |r| ==> r[i] in s
    ensures forall i, j :: 0 <= i < j < |r| ==> Occurrences(s, r[i]) >= Occurrences(s, r[j])
  {
    ByFrequencyNoRepeats(s);
    ByFrequencyMembers(s);
    ByFrequencyOrdered(s);
    Take(ByFrequency(s), n)
  }

  lemma ByFrequencyNoRepeats<T(!new)>(s: seq<T>)
    ensures NoRepeats(ByFrequency(s))
  {
    PermutationNoRepeats(Distinct(s), ByFrequency(s));
  }

  lemma ByFrequencyMembers<T(!new)>(s: seq<T>)
    ensures forall i :: 0 <= i < |ByFrequency(s)| ==> ByFrequency(s)[i] in s
  {
    var sorted := ByFrequency(s);
    forall i | 0 <= i < |sorted| ensures sorted[i] in s {
      assert sorted[i] in multiset(Distinct(s));
      DistinctMember(s, sorted[i]);
    }
  }

  lemma ByFrequencyOrdered<T(!new)>(s: seq<T>)
    ensures var sorted := ByFrequency(s);
      forall i, j :: 0 <= i < j < |sorted| ==> Occurrences(s, sorted[i]) >= Occurrences(s, sorted[j])
  {
    var sorted := ByFrequency(s);
    forall i, j | 0 <= i < j < |sorted| ensures Occurrences(s, sorted[i]) >= Occurrences(s, sorted[j]) {
      assert MoreFrequent(s, sorted[i], sorted[j]);
    }
  }

  /** A value left out of the top `n` is no more frequent than any value kept, and `n` were kept. */
  lemma TopByCountComplete<T(!new)>(s: seq<T>, n: nat, x: T)
    requires x in s && x !in TopByCount(s, n)
    ensures |TopByCount(s, n)| == n
    ensures forall i :: 0 <= i < n ==> Occurrences(s, TopByCount(s, n)[i]) >= Occurrences(s, x)
  {
    var sorted := ByFrequency(s);
    assert x in Distinct(s);
    assert x in multiset(sorted);
    var k :| 0 <= k < |sorted| && sorted[k] == x;
    assert TopByCount(s, n) == Take(sorted, n);
    assert n <= k;
  }

  /** The sum of the counts in `s` of the values listed in `d`. */
  function SumOccurrences<T(==)>(d: seq<T>, s: seq<T>): nat
  {
    if |d| == 0 then 0 else Occurrences(s, d[0]) + SumOccurrences(d[1..], s)
  }

  lemma {:induction false} SumOccurrencesEmpty<T>(d: seq<T>)
    ensures SumOccurrences(d, []) == 0
  {
    if |d| > 0 {
      SumOccurrencesEmpty(d[1..]);
    }
  }

  lemma {:induction false} SumOccurrencesCons<T>(d: seq<T>, x: T, s: seq<T>)
    ensures SumOccurrences(d, [x] + s) == Occurrences(d, x) + SumOccurrences(d, s)
  {
    if |d| > 0 {
      assert ([x] + s)[1..] == s;
      SumOccurrencesCons(d[1..], x, s);
    }
  }

  /**
   * Counting every value of `s` once, over a list of distinct values that
   * covers `s`, counts each element of `s` once.
   */
  lemma {:induction false} SumOccurrencesCovers<T>(d: seq<T>, s: seq<T>)
    requires NoRepeats(d)
    requires forall i :: 0 <= i < |s| ==> s[i] in d
    ensures SumOccurrences(d, s) == |s|
  {
    if |s| == 0 {
      SumOccurrencesEmpty(d);
    } else {
      assert s == [s[0]] + s[1..];
      SumOccurrencesCons(d, s[0], s[1..]);
      assert forall i :: 0 <= i < |s[1..]| ==> s[1..][i] == s[i + 1];
      SumOccurrencesCovers(d, s[1..]);
      NoRepeatsAtMostOnce(d, s[0]);
    }
  }

  /** The counts of the groups of `s` add up to the length of `s`. */
  lemma GroupCountsSum<T>(s: seq<T>)
    ensures SumOccurrences(Distinct(s), s) == |s|
  {
    SumOccurrencesCovers(Distinct(s), s);
  }
}
