/**
 * binify: counts a sample into len(bins) + 1 buckets delimited by the
 * boundaries in bins.
 */
module Histogram {
  import opened Wrappers

  /** len(filter(p, data)). */
  function Count(data: seq<real>, p: real -> bool): nat
  {
    if |data| == 0 then 0
    else Count(data[..|data| - 1], p) + (if p(data[|data| - 1]) then 1 else 0)
  }

  /**
   * Whether x belongs in bucket i: below bins[0] for the first, in
   * [bins[i-1], bins[i]) for the inner ones, at least the last boundary for the last.
   */
  predicate InBucket(bins: seq<real>, i: int, x: real)
  {
    if |bins| == 0 || i < 0 || i > |bins| then false
    else if i == 0 then x < bins[0]
    else if i < |bins| then bins[i - 1] <= x < bins[i]
    else x >= bins[|bins| - 1]
  }

  /** The histogram the source promises: one count per bucket. */
  function Histogram(bins: seq<real>, data: seq<real>): (h: seq<nat>)
    ensures |h| == |bins| + 1
  {
    seq(|bins| + 1, i => Count(data, x => InBucket(bins, i, x)))
  }

  /** Ascending boundaries. */
  predicate Ascending(bins: seq<real>)
  {
    forall i, j :: 0 <= i < j < |bins| ==> bins[i] <= bins[j]
  }

  /** The sum of a sequence of counts. */
  function Sum(s: seq<nat>): nat
  {
    if |s| == 0 then 0 else Sum(s[..|s| - 1]) + s[|s| - 1]
  }

  /**
   * The source's loop. With no boundaries the final bins[-1] raises
   * IndexError, modelled as None.
   */
  method Binify(bins: seq<real>, data: seq<real>) returns (r: Option<seq<nat>>)
    ensures |bins| == 0 <==> r == None
    ensures r.Some? ==> r.value == Histogram(bins, data)
  {
    var result: seq<nat> := [];
    for i := 0 to |bins|
      invariant |result| == i
      invariant forall k :: 0 <= k < i ==> result[k] == Count(data, x => InBucket(bins, k, x))
    {
      var bin := bins[i];
      var n: nat;
      if i > 0 {
        var lo := bins[i - 1];
        n := Count(data, x => x >= lo && x < bin);
      } else {
        n := Count(data, x => x < bin);
      }
      CountSame(data, x => InBucket(bins, i, x), if i > 0 then (x => x >= bins[i - 1] && x < bin) else (x => x < bin));
      result := result + [n];
    }
    if |bins| == 0 {
      return None;
    }
    var last := bins[|bins| - 1];
    var n := Count(data, x => x >= last);
    CountSame(data, x => InBucket(bins, |bins|, x), x => x >= last);
    result := result + [n];
    r := Some(result);
  }

  /** Counting with two predicates that agree on every sample gives the same count. */
  lemma {:induction false} CountSame(data: seq<real>, p: real -> bool, q: real -> bool)
    requires forall x :: p(x) == q(x)
    ensures Count(data, p) == Count(data, q)
  {
    if |data| > 0 {
      CountSame(data[..|data| - 1], p, q);
    }
  }

  /** Taking out the samples of a weaker predicate q: Count(p && !q) == Count(p) - Count(q). */
  lemma {:induction false} CountDifference(data: seq<real>, p: real -> bool, q: real -> bool)
    requires forall x :: q(x) ==> p(x)
    ensures Count(data, x => p(x) && !q(x)) + Count(data, q) == Count(data, p)
  {
    if |data| > 0 {
      CountDifference(data[..|data| - 1], p, q);
    }
  }

  /** Every sample is counted. */
  lemma {:induction false} CountAll(data: seq<real>, p: real -> bool)
    requires forall x :: p(x)
    ensures Count(data, p) == |data|
  {
    if |data| > 0 {
      CountAll(data[..|data| - 1], p);
    }
  }

  /** With ascending boundaries the first i + 1 buckets hold the samples below bins[i]. */
  lemma {:induction false} PrefixSum(bins: seq<real>, data: seq<real>, i: nat)
    requires Ascending(bins) && i < |bins|
    ensures Sum(Histogram(bins, data)[..i + 1]) == Count(data, x => x < bins[i])
  {
    var h := Histogram(bins, data);
    assert h[..i + 1][..i] == h[..i];
    if i == 0 {
      CountSame(data, x => InBucket(bins, 0, x), x => x < bins[0]);
    } else {
      PrefixSum(bins, data, i - 1);
      var p := x => x < bins[i];
      var q := x => x < bins[i - 1];
      CountDifference(data, p, q);
      CountSame(data, x => InBucket(bins, i, x), x => p(x) && !q(x));
    }
  }

  /** With ascending boundaries every sample lands in exactly one bucket: the counts add up to len(data). */
  lemma HistogramSum(bins: seq<real>, data: seq<real>)
    requires Ascending(bins) && |bins| > 0
    ensures Sum(Histogram(bins, data)) == |data|
  {
    var h := Histogram(bins, data);
    var n := |bins|;
    PrefixSum(bins, data, n - 1);
    assert h[..n + 1][..n] == h[..n];
    assert h[..n + 1] == h;
    var p := x => true;
    var q := x => x < bins[n - 1];
    CountDifference(data, p, q);
    CountAll(data, p);
    CountSame(data, x => InBucket(bins, n, x), x => p(x) && !q(x));
  }

  /** binify([10, 20], [5, 10, 15, 25]) == [1, 2, 1]. */
  lemma Example()
    ensures Histogram([10.0, 20.0], [5.0, 10.0, 15.0, 25.0]) == [1, 2, 1]
  {
    var bins, data := [10.0, 20.0], [5.0, 10.0, 15.0, 25.0];
    var h := Histogram(bins, data);
    forall i | 0 <= i < 3
      ensures h[i] == (if InBucket(bins, i, 5.0) then 1 else 0) + (if InBucket(bins, i, 10.0) then 1 else 0)
                      + (if InBucket(bins, i, 15.0) then 1 else 0) + (if InBucket(bins, i, 25.0) then 1 else 0)
    {
      CountOfFour(data, x => InBucket(bins, i, x));
    }
  }

  lemma CountOfFour(data: seq<real>, p: real -> bool)
    requires |data| == 4
    ensures Count(data, p) == (if p(data[0]) then 1 else 0) + (if p(data[1]) then 1 else 0)
                              + (if p(data[2]) then 1 else 0) + (if p(data[3]) then 1 else 0)
  {
    assert data[..3][..2] == data[..2];
    assert data[..2][..1] == data[..1];
    assert data[..1][..0] == [];
    assert Count(data[..1], p) == (if p(data[0]) then 1 else 0);
    assert Count(data[..2], p) == Count(data[..1], p) + (if p(data[1]) then 1 else 0);
    assert Count(data[..3], p) == Count(data[..2], p) + (if p(data[2]) then 1 else 0);
  }
}
