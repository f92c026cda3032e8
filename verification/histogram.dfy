// The load test's bucketed latency percentile, against the order statistic of the samples.
module Histogram {
  import opened Proto

  const MAX_LATENCY_MS: nat := 10_000

  function Min(a: nat, b: nat): (r: nat) {
    if a < b then a else b
  }

  function SatAdd(a: nat, b: nat): (r: nat) {
    Min(a + b, U64_MAX)
  }

  function SatMul(a: nat, b: nat): (r: nat) {
    Min(a * b, U64_MAX)
  }

  // ---------- the reference: sorting the samples ----------

  function Placed(x: nat, s: seq<nat>): (r: seq<nat>)
    ensures |r| == |s| + 1 && r[0] == (if s == [] || x <= s[0] then x else s[0])
    ensures multiset(r) == multiset(s) + multiset{x}
  {
    if s == [] || x <= s[0] then
      [x] + s
    else
      assert s == [s[0]] + s[1..];
      [s[0]] + Placed(x, s[1..])
  }

  function Sorted(s: seq<nat>): (r: seq<nat>)
    ensures |r| == |s|
  {
    if s == [] then [] else Placed(s[0], Sorted(s[1..]))
  }

  ghost predicate NonDecreasing(s: seq<nat>) {
    forall i, j :: 0 <= i <= j < |s| ==> s[i] <= s[j]
  }

  lemma Prepended(x: nat, s: seq<nat>)
    requires NonDecreasing(s) && (s != [] ==> x <= s[0])
    ensures NonDecreasing([x] + s)
  {
    var r := [x] + s;
    forall i, j | 0 <= i <= j < |r| ensures r[i] <= r[j] {
      assert j > 0 ==> r[j] == s[j - 1] && s[0] <= s[j - 1];
      assert i > 0 ==> r[i] == s[i - 1];
    }
  }

  lemma {:induction false} PlacedInOrder(x: nat, s: seq<nat>)
    requires NonDecreasing(s)
    ensures NonDecreasing(Placed(x, s))
  {
    if s != [] && x > s[0] {
      PlacedInOrder(x, s[1..]);
      Prepended(s[0], Placed(x, s[1..]));
    } else {
      Prepended(x, s);
    }
  }

  lemma FirstAndRest(s: seq<nat>)
    requires s != []
    ensures multiset(s) == multiset(s[1..]) + multiset{s[0]}
  {
    assert s == [s[0]] + s[1..];
  }

  lemma {:induction false} SortedInOrder(s: seq<nat>)
    ensures NonDecreasing(Sorted(s)) && multiset(Sorted(s)) == multiset(s)
  {
    if s == [] {
    } else {
      hide Placed, NonDecreasing;
      SortedInOrder(s[1..]);
      PlacedInOrder(s[0], Sorted(s[1..]));
      FirstAndRest(s);
    }
  }

  /** The nearest rank of a percentile: p percent of n, rounded up. */
  function NearestRank(n: nat, p: nat): (r: nat) {
    (n * p + 99) / 100
  }

  lemma RankInRange(n: nat, p: nat)
    requires n > 0 && 1 <= p <= 100
    ensures 1 <= NearestRank(n, p) <= n
    ensures 100 * NearestRank(n, p) >= n * p > 100 * (NearestRank(n, p) - 1)
  {
    assert n * p >= 1 by {
      assert n * p >= n * 1;
    }
    assert n * p <= n * 100;
  }

  /** The rank as the code computes it, with saturating arithmetic. */
  function Target(samples: nat, percentile: nat): (r: nat) {
    SatAdd(SatMul(samples, percentile), 99) / 100
  }

  // ---------- counting ----------

  function AtMost(s: seq<nat>, v: int): (r: nat)
    ensures r <= |s|
  {
    if s == [] then 0 else (if s[0] <= v then 1 else 0) + AtMost(s[1..], v)
  }

  lemma {:induction false} AtMostStep(s: seq<nat>, v: nat)
    ensures AtMost(s, v) == AtMost(s, v - 1) + multiset(s)[v]
  {
    if s == [] {
    } else {
      assert s == [s[0]] + s[1..];
      AtMostStep(s[1..], v);
    }
  }

  lemma {:induction false} AtMostNegative(s: seq<nat>, v: int)
    requires v < 0
    ensures AtMost(s, v) == 0
  {
    if s == [] {
    } else {
      AtMostNegative(s[1..], v);
    }
  }

  lemma {:induction false} AtMostSame(s: seq<nat>, t: seq<nat>, v: int)
    requires multiset(s) == multiset(t)
    ensures AtMost(s, v) == AtMost(t, v)
  {
    if v < 0 {
      AtMostNegative(s, v);
      AtMostNegative(t, v);
    } else {
      AtMostSame(s, t, v - 1);
      AtMostStep(s, v);
      AtMostStep(t, v);
    }
  }

  /** In a sorted list at least k elements are at most v exactly when the k-th is. */
  lemma {:induction false} RankAtMost(t: seq<nat>, k: nat, v: int)
    requires NonDecreasing(t) && 1 <= k <= |t|
    ensures AtMost(t, v) >= k <==> t[k - 1] <= v
  {
    if t[0] > v {
      NoneAtMost(t, v);
    } else if k > 1 {
      RankAtMost(t[1..], k - 1, v);
    }
  }

  lemma {:induction false} NoneAtMost(t: seq<nat>, v: int)
    requires forall i :: 0 <= i < |t| ==> t[i] > v
    ensures AtMost(t, v) == 0
  {
    if t == [] {
    } else {
      NoneAtMost(t[1..], v);
    }
  }

  /** The least bound that at least k samples respect is the k-th order statistic. */
  lemma OrderStatistic(s: seq<nat>, k: nat, v: nat)
    requires 1 <= k <= |s|
    ensures AtMost(s, v) >= k && AtMost(s, v - 1) < k <==> v == Sorted(s)[k - 1]
  {
    var t := Sorted(s);
    SortedInOrder(s);
    AtMostSame(s, t, v);
    AtMostSame(s, t, v - 1);
    RankAtMost(t, k, v);
    RankAtMost(t, k, v - 1);
  }

  // ---------- the histogram ----------

  class LatencyHistogram {
    const buckets: array<nat>
    var samples: nat
    /** The samples so far, capped at the last bucket. */
    ghost var recorded: seq<nat>

    /** Every counter is the exact count, or stuck at the maximum. */
    ghost predicate Valid()
      reads this, buckets
    {
      && buckets.Length == MAX_LATENCY_MS + 1
      && samples == Min(|recorded|, U64_MAX)
      && (forall i :: 0 <= i < |recorded| ==> recorded[i] <= MAX_LATENCY_MS)
      && forall v: nat :: 0 <= v < buckets.Length ==> buckets[v] == Min(multiset(recorded)[v], U64_MAX)
    }

    constructor ()
      ensures Valid() && recorded == [] && fresh(buckets)
    {
      buckets := new nat[MAX_LATENCY_MS + 1](_ => 0);
      samples := 0;
      recorded := [];
    }

    method Record(latency: nat)
      requires Valid()
      modifies this, buckets
      ensures Valid() && recorded == old(recorded) + [Min(latency, MAX_LATENCY_MS)]
    {
      var bucket := Min(latency, MAX_LATENCY_MS);
      buckets[bucket] := SatAdd(buckets[bucket], 1);
      samples := SatAdd(samples, 1);
      recorded := recorded + [bucket];
    }

    method Merge(other: LatencyHistogram)
      requires Valid() && other.Valid() && other != this && other.buckets != buckets
      modifies this, buckets
      ensures Valid() && recorded == old(recorded) + other.recorded
    {
      ghost var mine: seq<nat> := recorded;
      ghost var theirs: seq<nat> := other.recorded;
      samples := SatAdd(samples, other.samples);
      for i := 0 to buckets.Length
        invariant unchanged(other, other.buckets) && samples == Min(|mine| + |theirs|, U64_MAX)
        invariant recorded == mine
        invariant forall v: nat :: 0 <= v < i ==>
                    buckets[v] == Min(multiset(mine)[v] + multiset(theirs)[v], U64_MAX)
        invariant forall v: nat :: i <= v < buckets.Length ==> buckets[v] == Min(multiset(mine)[v], U64_MAX)
      {
        assert other.buckets[i] == Min(multiset(theirs)[i], U64_MAX);
        buckets[i] := SatAdd(buckets[i], other.buckets[i]);
      }
      assert multiset(mine + theirs) == multiset(mine) + multiset(theirs);
      recorded := mine + theirs;
    }

    /** Within counter bounds this is the nearest-rank percentile of the capped samples. */
    method Percentile(percentile: nat) returns (r: Option<nat>)
      requires Valid()
      ensures r.Some? ==> r.value <= MAX_LATENCY_MS
      ensures recorded == [] ==> r == None
      ensures 1 <= percentile <= 100 && recorded != [] && |recorded| * percentile + 99 <= U64_MAX ==>
                && 1 <= NearestRank(|recorded|, percentile) <= |recorded|
                && r == Some(Sorted(recorded)[NearestRank(|recorded|, percentile) - 1])
      ensures recorded != [] && percentile == 0 ==> r == Some(0)
      ensures percentile > 100 && |recorded| * percentile + 99 <= U64_MAX ==> r == None
    {
      hide AtMost, Sorted, NearestRank, Target;
      if samples == 0 {
        return None;
      }
      var target := Target(samples, percentile);
      ghost var exact := 1 <= percentile <= 100 && |recorded| * percentile + 99 <= U64_MAX;
      TargetInRange(|recorded|, percentile);
      AllAtMost(recorded);
      AtMostNegative(recorded, -1);
      var seen := 0;
      for i := 0 to buckets.Length
        invariant seen == Min(AtMost(recorded, i - 1), U64_MAX)
        invariant exact ==> AtMost(recorded, i - 1) < target
        invariant target == 0 ==> i == 0
      {
        AtMostStep(recorded, i);
        seen := SatAdd(seen, buckets[i]);
        if seen >= target {
          if exact {
            OrderStatistic(recorded, target, i);
          }
          return Some(i);
        }
      }
      return None;
    }
  }

  /** The rank that the scan looks for: exact within counter bounds, zero for no percent, and more than there are
      samples past one hundred percent. */
  lemma TargetInRange(n: nat, p: nat)
    requires n > 0
    ensures p == 0 ==> Target(Min(n, U64_MAX), p) == 0
    ensures 1 <= p <= 100 && n * p + 99 <= U64_MAX ==>
              Target(Min(n, U64_MAX), p) == NearestRank(n, p) && 1 <= NearestRank(n, p) <= n
    ensures p > 100 && n * p + 99 <= U64_MAX ==> Target(Min(n, U64_MAX), p) > n
  {
    if p == 0 {
      assert Min(n, U64_MAX) * p == 0;
    } else if n * p + 99 <= U64_MAX {
      NoFewer(n, p);
      assert Min(n, U64_MAX) == n && Target(n, p) == NearestRank(n, p);
      if p <= 100 {
        RankInRange(n, p);
      } else {
        NoFewer(n, p - 100);
        assert n * p >= n * 101;
        RankBeyond(n, p, n * p);
      }
    }
  }

  lemma NoFewer(n: nat, p: nat)
    requires p > 0
    ensures n * p >= n && n * p == n * 100 + n * (p - 100)
  {
  }

  lemma RankBeyond(n: nat, p: nat, product: nat)
    requires product == n * p && product >= n * 101 && n > 0
    ensures NearestRank(n, p) > n
  {
    assert (product + 99) / 100 > n;
  }

  lemma {:induction false} AllAtMost(s: seq<nat>)
    requires forall i :: 0 <= i < |s| ==> s[i] <= MAX_LATENCY_MS
    ensures AtMost(s, MAX_LATENCY_MS) == |s|
  {
    if s == [] {
    } else {
      AllAtMost(s[1..]);
    }
  }
}
