/**
 * AQL `FILTER`, `COUNT` and the driver's "first result or none" over
 * sequences in storage order.
 */
module Collections {
  import opened Wrappers

  /** `FILTER p`: the elements satisfying `p`, in storage order. */
  function Filter<T>(s: seq<T>, p: T -> bool): (r: seq<T>)
    ensures |r| <= |s|
    ensures forall i :: 0 <= i < |r| ==> r[i] in s && p(r[i])
    ensures forall i :: 0 <= i < |s| && p(s[i]) ==> s[i] in r
  {
    if |s| == 0 then [] else (if p(s[0]) then [s[0]] else []) + Filter(s[1..], p)
  }

  lemma {:induction false} FilterConcat<T>(a: seq<T>, b: seq<T>, p: T -> bool)
    ensures Filter(a + b, p) == Filter(a, p) + Filter(b, p)
  {
    if |a| > 0 {
      assert (a + b)[1..] == a[1..] + b;
      FilterConcat(a[1..], b, p);
    } else {
      assert a + b == b;
    }
  }

  /** Filtering with a predicate every element meets keeps everything. */
  lemma {:induction false} FilterAll<T>(s: seq<T>, p: T -> bool)
    requires forall i :: 0 <= i < |s| ==> p(s[i])
    ensures Filter(s, p) == s
  {
    if |s| > 0 {
      FilterAll(s[1..], p);
      assert [s[0]] + s[1..] == s;
    }
  }

  /** Filtering with a predicate no element meets keeps nothing. */
  lemma {:induction false} FilterNone<T>(s: seq<T>, p: T -> bool)
    requires forall i :: 0 <= i < |s| ==> !p(s[i])
    ensures Filter(s, p) == []
  {
    if |s| > 0 {
      FilterNone(s[1..], p);
    }
  }

  /** `COLLECT WITH COUNT` over a filter: the number of elements satisfying `p`. */
  function Count<T>(s: seq<T>, p: T -> bool): (n: nat)
    ensures n <= |s|
    ensures n == 0 <==> forall i :: 0 <= i < |s| ==> !p(s[i])
  {
    if |s| == 0 then 0 else (if p(s[0]) then 1 else 0) + Count(s[1..], p)
  }

  lemma {:induction false} CountConcat<T>(a: seq<T>, b: seq<T>, p: T -> bool)
    ensures Count(a + b, p) == Count(a, p) + Count(b, p)
  {
    if |a| > 0 {
      assert (a + b)[1..] == a[1..] + b;
      CountConcat(a[1..], b, p);
    } else {
      assert a + b == b;
    }
  }

  /** Counting is filtering and taking the length. */
  lemma {:induction false} CountFilter<T>(s: seq<T>, p: T -> bool)
    ensures Count(s, p) == |Filter(s, p)|
  {
    if |s| > 0 {
      CountFilter(s[1..], p);
    }
  }

  /** `QueryOne`: the first element satisfying `p`, if any. */
  function Find<T>(s: seq<T>, p: T -> bool): (r: Option<T>)
    ensures r.None? <==> forall i :: 0 <= i < |s| ==> !p(s[i])
    ensures r.Some? ==> exists i :: 0 <= i < |s| && s[i] == r.value && p(s[i]) && forall j :: 0 <= j < i ==> !p(s[j])
  {
    if |s| == 0 then None
    else if p(s[0]) then Some(s[0])
    else
      var r := Find(s[1..], p);
      assert r.Some? ==> exists i :: 1 <= i < |s| && s[i] == r.value && p(s[i]) && forall j :: 0 <= j < i ==> !p(s[j]) by {
        if r.Some? {
          var i :| 0 <= i < |s[1..]| && s[1..][i] == r.value && p(s[1..][i]) && forall j :: 0 <= j < i ==> !p(s[1..][j]);
          assert forall j :: 1 <= j < i + 1 ==> s[j] == s[1..][j - 1];
        }
      }
      r
  }

  /** The first match is the element at the first index where `p` holds. */
  lemma FindAt<T>(s: seq<T>, p: T -> bool, i: nat)
    requires i < |s| && p(s[i]) && forall j :: 0 <= j < i ==> !p(s[j])
    ensures Find(s, p) == Some(s[i])
  {
    var r := Find(s, p);
    var m :| 0 <= m < |s| && s[m] == r.value && p(s[m]) && forall j :: 0 <= j < m ==> !p(s[j]);
    assert m == i;
  }

  /** Elements before the first match do not change it, so a prefix with no match can be skipped. */
  lemma {:induction false} FindSkip<T>(a: seq<T>, b: seq<T>, p: T -> bool)
    requires forall j :: 0 <= j < |a| ==> !p(a[j])
    ensures Find(a + b, p) == Find(b, p)
  {
    if |a| > 0 {
      assert (a + b)[1..] == a[1..] + b;
      FindSkip(a[1..], b, p);
    } else {
      assert a + b == b;
    }
  }
}
