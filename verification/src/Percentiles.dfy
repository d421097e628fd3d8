/**
 The latency percentile of a guided step: sort, then take the element whose rank is the rounded
 fraction of the last index. The laws below say which order statistic that is.
 */
module Percentiles {
  import opened Wrappers

  function Insert(x: nat, s: seq<nat>): seq<nat> {
    if s == [] then [x]
    else if x <= s[0] then [x] + s
    else [s[0]] + Insert(x, s[1..])
  }

  function Sort(s: seq<nat>): (r: seq<nat>)
    ensures |r| == |s|
  {
    if s == [] then [] else
      var rest := Sort(s[1..]);
      InsertLength(s[0], rest);
      Insert(s[0], rest)
  }

  function Rank(n: nat): nat
    requires n > 0
  {
    Min(n - 1, Max(0, RoundHalfEven(95 * (n - 1), 100)))
  }

  /** `None` when there is no sample, as the source returns. */
  function P95(samples: seq<nat>): Option<nat> {
    if samples == [] then None else Some(Sort(samples)[Rank(|samples|)])
  }

  /** How many samples lie strictly below, respectively at or below, a bound. */
  function CountBelow(s: seq<nat>, v: nat): nat {
    if s == [] then 0 else (if s[0] < v then 1 else 0) + CountBelow(s[1..], v)
  }

  function CountAtMost(s: seq<nat>, v: nat): nat {
    if s == [] then 0 else (if s[0] <= v then 1 else 0) + CountAtMost(s[1..], v)
  }

  ghost predicate Ascending(s: seq<nat>) {
    forall i, j :: 0 <= i < j < |s| ==> s[i] <= s[j]
  }

  lemma InsertLength(x: nat, s: seq<nat>)
    ensures |Insert(x, s)| == |s| + 1
  {
  }

  lemma {:induction false} InsertKeepsSamples(x: nat, s: seq<nat>)
    ensures multiset(Insert(x, s)) == multiset(s) + multiset{x}
  {
    if s != [] {
      assert s == [s[0]] + s[1..];
      if x > s[0] {
        InsertKeepsSamples(x, s[1..]);
      }
    }
  }

  lemma {:induction false} InsertStaysAbove(x: nat, s: seq<nat>, least: nat)
    requires least <= x && forall i :: 0 <= i < |s| ==> least <= s[i]
    ensures forall i :: 0 <= i < |Insert(x, s)| ==> least <= Insert(x, s)[i]
  {
    if s != [] && x > s[0] {
      assert Insert(x, s) == [s[0]] + Insert(x, s[1..]);
      hide Insert;
      InsertStaysAbove(x, s[1..], least);
    }
  }

  lemma {:induction false} InsertKeepsOrder(x: nat, s: seq<nat>)
    requires Ascending(s)
    ensures Ascending(Insert(x, s))
  {
    if s != [] && x > s[0] {
      var r := Insert(x, s[1..]);
      assert Insert(x, s) == [s[0]] + r;
      hide Insert;
      InsertKeepsOrder(x, s[1..]);
      InsertStaysAbove(x, s[1..], s[0]);
    }
  }

  lemma {:induction false} InsertCounts(x: nat, s: seq<nat>, v: nat)
    ensures CountBelow(Insert(x, s), v) == CountBelow(s, v) + (if x < v then 1 else 0)
    ensures CountAtMost(Insert(x, s), v) == CountAtMost(s, v) + (if x <= v then 1 else 0)
  {
    if s != [] {
      if x <= s[0] {
        assert ([x] + s)[1..] == s;
      } else {
        InsertCounts(x, s[1..], v);
        var r := Insert(x, s[1..]);
        assert ([s[0]] + r)[1..] == r;
      }
    }
  }

  lemma {:induction false} SortOrders(s: seq<nat>)
    ensures multiset(Sort(s)) == multiset(s)
    ensures Ascending(Sort(s))
  {
    if s != [] {
      SortOrders(s[1..]);
      InsertKeepsSamples(s[0], Sort(s[1..]));
      InsertKeepsOrder(s[0], Sort(s[1..]));
      assert s == [s[0]] + s[1..];
    }
  }

  lemma {:induction false} SortCounts(s: seq<nat>, v: nat)
    ensures CountBelow(Sort(s), v) == CountBelow(s, v)
    ensures CountAtMost(Sort(s), v) == CountAtMost(s, v)
  {
    if s != [] {
      SortCounts(s[1..], v);
      InsertCounts(s[0], Sort(s[1..]), v);
    }
  }

  lemma {:induction false} CountBelowAtMostPrefix(s: seq<nat>, v: nat, k: nat)
    requires k <= |s|
    requires forall i :: k <= i < |s| ==> v <= s[i]
    ensures CountBelow(s, v) <= k
  {
    if s != [] {
      CountBelowAtMostPrefix(s[1..], v, if k == 0 then 0 else k - 1);
    }
  }

  lemma {:induction false} CountAtMostCoversPrefix(s: seq<nat>, v: nat, k: nat)
    requires k <= |s|
    requires forall i :: 0 <= i < k ==> s[i] <= v
    ensures CountAtMost(s, v) >= k
  {
    if k > 0 {
      CountAtMostCoversPrefix(s[1..], v, k - 1);
    }
  }

  lemma RankedElementCounts(s: seq<nat>, k: nat)
    requires Ascending(s) && k < |s|
    ensures CountBelow(s, s[k]) <= k < CountAtMost(s, s[k])
  {
    CountBelowAtMostPrefix(s, s[k], k);
    CountAtMostCoversPrefix(s, s[k], k + 1);
  }

  /** `k` is the whole number nearest to 95 percent of the last index, the even one of two. */
  predicate IsRank(n: nat, k: nat) {
    && k < n && -100 <= 2 * (95 * (n - 1) - 100 * k) <= 100
    && (2 * (95 * (n - 1) - 100 * k) == 100 || 2 * (95 * (n - 1) - 100 * k) == -100 ==> k % 2 == 0)
  }

  /** Clipping the rank never acts. */
  lemma RankIsNearest(n: nat)
    requires n > 0
    ensures IsRank(n, Rank(n))
  {
    assert RoundHalfEven(95 * (n - 1), 100) <= n - 1;
  }

  /** The reported value is a sample, at most `Rank` samples lie below it and more than `Rank` reach up to it. */
  lemma P95IsOrderStatistic(samples: seq<nat>, v: nat)
    requires P95(samples) == Some(v)
    ensures v in samples && IsRank(|samples|, Rank(|samples|))
    ensures CountBelow(samples, v) <= Rank(|samples|) < CountAtMost(samples, v)
  {
    var s := Sort(samples);
    RankIsNearest(|samples|);
    hide IsRank, Rank;
    SortOrders(samples);
    RankedElementCounts(s, Rank(|samples|));
    SortCounts(samples, v);
    assert v in multiset(s);
    assert v in multiset(samples);
  }

  lemma {:induction false} CountAtMostMonotone(s: seq<nat>, v: nat, w: nat)
    requires v <= w
    ensures CountAtMost(s, v) <= CountAtMost(s, w)
  {
    if s != [] {
      CountAtMostMonotone(s[1..], v, w);
    }
  }

  /** Respecting the bound means at least nineteen twentieths of the samples, up to rounding, are within it. */
  lemma P95BoundCoversSamples(samples: seq<nat>, v: nat, bound: nat)
    requires P95(samples) == Some(v) && v <= bound
    ensures 20 * CountAtMost(samples, bound) >= 19 * |samples| - 9
  {
    P95IsOrderStatistic(samples, v);
    CountAtMostMonotone(samples, v, bound);
  }
}
