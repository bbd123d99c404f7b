/** The processing-time histogram of crates/mini-aec-engine/src/runtime.rs. */
module ProcessingTime {
  import opened AudioTypes

  const LIMITS_US: seq<nat> := [100, 250, 500, 1_000, 2_000, 5_000, 10_000, U64_MAX]

  function SaturatingMul(a: nat, b: nat): nat { Min(a * b, U64_MAX) }

  function BucketFrom(us: nat, i: nat): nat
    requires i <= 7
    decreases 7 - i
  {
    if i == 7 || us <= LIMITS_US[i] then i else BucketFrom(us, i + 1)
  }

  /** The first bucket whose limit is not exceeded. */
  function Bucket(us: nat): (b: nat)
    ensures b < 8
    ensures us <= U64_MAX ==> us <= LIMITS_US[b]
    ensures b > 0 ==> LIMITS_US[b - 1] < us
  {
    BucketFrom(us, 0)
  }

  // ---- The recorded durations as a list ----

  function AtMost(s: seq<nat>, limit: int): (n: nat)
    ensures n <= |s|
  {
    if s == [] then 0 else AtMost(s[..|s| - 1], limit) + if s[|s| - 1] <= limit then 1 else 0
  }

  function InBucket(s: seq<nat>, b: nat): nat {
    if s == [] then 0 else InBucket(s[..|s| - 1], b) + if Bucket(s[|s| - 1]) == b then 1 else 0
  }

  function Maximum(s: seq<nat>): (m: nat)
    ensures forall i :: 0 <= i < |s| ==> s[i] <= m
  {
    if s == [] then 0 else Max(Maximum(s[..|s| - 1]), s[|s| - 1])
  }

  ghost predicate Bounded(s: seq<nat>) { forall i :: 0 <= i < |s| ==> s[i] <= U64_MAX }

  function Target(samples: nat, percentile: nat): nat { (SaturatingMul(samples, percentile) + 99) / 100 }

  /** The limit of the first bucket, from `b` on, by which `target` durations were reached. */
  function Reached(s: seq<nat>, target: nat, b: nat): nat
    decreases 8 - b
  {
    if b >= 8 then Maximum(s)
    else if AtMost(s, LIMITS_US[b]) >= target then Min(LIMITS_US[b], Max(Maximum(s), 1))
    else Reached(s, target, b + 1)
  }

  function Percentile(s: seq<nat>, percentile: nat): nat {
    if s == [] then 0 else Reached(s, Target(|s|, percentile), 0)
  }

  /** `v` is the `rank`-th smallest element of `s`, counting from one. */
  ghost predicate HasRank(s: seq<nat>, rank: nat, v: nat) {
    v in s && AtMost(s, v - 1) < rank <= AtMost(s, v)
  }

  ghost predicate Sorted(s: seq<nat>) { forall i, j :: 0 <= i < j < |s| ==> s[i] <= s[j] }

  lemma {:induction false} AtMostMonotone(s: seq<nat>, a: int, b: int)
    requires a <= b
    ensures AtMost(s, a) <= AtMost(s, b)
  {
    if s != [] {
      AtMostMonotone(s[..|s| - 1], a, b);
    }
  }

  lemma {:induction false} AtMostConcat(s: seq<nat>, t: seq<nat>, limit: int)
    ensures AtMost(s + t, limit) == AtMost(s, limit) + AtMost(t, limit)
  {
    if t == [] {
      assert s + t == s;
    } else {
      AtMostConcat(s, t[..|t| - 1], limit);
      assert (s + t)[..|s + t| - 1] == s + t[..|t| - 1];
    }
  }

  lemma WithoutOne(t: seq<nat>, i: nat, limit: int)
    requires i < |t|
    ensures var rest := t[..i] + t[i + 1..];
            && multiset(rest) == multiset(t) - multiset{t[i]}
            && AtMost(t, limit) == AtMost(rest, limit) + if t[i] <= limit then 1 else 0
  {
    var x := [t[i]];
    assert t == t[..i] + (x + t[i + 1..]);
    AtMostConcat(t[..i], x + t[i + 1..], limit);
    AtMostConcat(x, t[i + 1..], limit);
    AtMostConcat(t[..i], t[i + 1..], limit);
    AtMostAll(x, limit);
    hide AtMost;
  }

  lemma {:induction false} AtMostPermuted(s: seq<nat>, t: seq<nat>, limit: int)
    requires multiset(s) == multiset(t)
    ensures AtMost(s, limit) == AtMost(t, limit)
    decreases |s|
  {
    if s == [] {
      assert |multiset(t)| == 0;
    } else {
      var n := |s| - 1;
      assert s[..n] + s[n + 1..] == s[..n];
      WithoutOne(s, n, limit);
      assert s[n] in multiset(t);
      var i :| 0 <= i < |t| && t[i] == s[n];
      WithoutOne(t, i, limit);
      AtMostPermuted(s[..n], t[..i] + t[i + 1..], limit);
    }
  }

  lemma {:induction false} AtMostAll(s: seq<nat>, limit: int)
    ensures (forall i :: 0 <= i < |s| ==> s[i] <= limit) ==> AtMost(s, limit) == |s|
    ensures (forall i :: 0 <= i < |s| ==> s[i] > limit) ==> AtMost(s, limit) == 0
  {
    if s != [] {
      AtMostAll(s[..|s| - 1], limit);
    }
  }

  lemma PrefixCounts(low: seq<nat>, high: seq<nat>, limit: int)
    ensures (forall i :: 0 <= i < |low| ==> low[i] <= limit) ==> |low| <= AtMost(low + high, limit)
    ensures (forall i :: 0 <= i < |high| ==> high[i] > limit) ==> AtMost(low + high, limit) <= |low|
  {
    AtMostConcat(low, high, limit);
    AtMostAll(low, limit);
    AtMostAll(high, limit);
  }

  lemma LowerPart(sorted: seq<nat>, rank: nat)
    requires Sorted(sorted) && 1 <= rank <= |sorted|
    ensures var low := sorted[..rank]; forall i :: 0 <= i < |low| ==> low[i] <= sorted[rank - 1]
  {
  }

  lemma UpperPart(sorted: seq<nat>, rank: nat)
    requires Sorted(sorted) && 1 <= rank <= |sorted|
    ensures var high := sorted[rank - 1..]; forall i :: 0 <= i < |high| ==> high[i] > sorted[rank - 1] as int - 1
  {
  }

  lemma RankFromBelow(sorted: seq<nat>, rank: nat)
    requires Sorted(sorted) && 1 <= rank <= |sorted|
    ensures rank <= AtMost(sorted, sorted[rank - 1])
  {
    hide AtMost, Sorted;
    LowerPart(sorted, rank);
    PrefixCounts(sorted[..rank], sorted[rank..], sorted[rank - 1]);
    assert sorted[..rank] + sorted[rank..] == sorted;
  }

  lemma RankFromAbove(sorted: seq<nat>, rank: nat)
    requires Sorted(sorted) && 1 <= rank <= |sorted|
    ensures AtMost(sorted, sorted[rank - 1] as int - 1) < rank
  {
    hide AtMost, Sorted;
    UpperPart(sorted, rank);
    PrefixCounts(sorted[..rank - 1], sorted[rank - 1..], sorted[rank - 1] as int - 1);
    assert sorted[..rank - 1] + sorted[rank - 1..] == sorted;
  }

  /** In any sorted arrangement the element of a rank is where one expects it. */
  lemma SortedHasRank(s: seq<nat>, sorted: seq<nat>, rank: nat)
    requires multiset(s) == multiset(sorted) && Sorted(sorted) && 1 <= rank <= |sorted|
    ensures HasRank(s, rank, sorted[rank - 1])
  {
    var v: int := sorted[rank - 1];
    assert sorted[rank - 1] in multiset(s);
    RankFromBelow(sorted, rank);
    RankFromAbove(sorted, rank);
    AtMostPermuted(s, sorted, v);
    AtMostPermuted(s, sorted, v - 1);
  }

  lemma Products(a: nat, b: nat)
    requires a > 0 && 1 <= b <= 100
    ensures 1 <= a * b <= a * 100
  {
  }

  lemma TargetIsRank(samples: nat, percentile: nat)
    requires 0 < samples && 1 <= percentile <= 100 && samples * 100 <= U64_MAX
    ensures 1 <= Target(samples, percentile) <= samples
  {
    Products(samples, percentile);
    var product := samples * percentile;
    assert SaturatingMul(samples, percentile) == product;
  }

  lemma {:induction false} ReachedBounds(s: seq<nat>, target: nat, b: nat, v: nat)
    requires Bounded(s) && HasRank(s, target, v) && b <= Bucket(v)
    ensures Reached(s, target, b) == Min(LIMITS_US[Bucket(v)], Max(Maximum(s), 1))
    decreases 8 - b
  {
    var i :| 0 <= i < |s| && s[i] == v;
    if b < Bucket(v) {
      LimitsIncrease(b, Bucket(v) - 1);
      AtMostMonotone(s, LIMITS_US[b], v - 1);
      ReachedBounds(s, target, b + 1, v);
    } else {
      AtMostMonotone(s, v, LIMITS_US[b]);
    }
  }

  lemma LimitsIncrease(a: nat, b: nat)
    requires a <= b < 8
    ensures LIMITS_US[a] <= LIMITS_US[b]
  {
  }

  /**
   * A reported percentile is never below the true nearest-rank percentile of everything recorded, and
   * is off by less than a bucket.
   */
  lemma PercentileIsClose(s: seq<nat>, percentile: nat, sorted: seq<nat>)
    requires s != [] && Bounded(s) && 1 <= percentile <= 100 && |s| * 100 <= U64_MAX
    requires multiset(s) == multiset(sorted) && Sorted(sorted)
    ensures |sorted| == |s| && 1 <= Target(|s|, percentile) <= |s|
    ensures var exact := sorted[Target(|s|, percentile) - 1];
            exact <= Percentile(s, percentile) && Bucket(Percentile(s, percentile)) == Bucket(exact)
  {
    assert |multiset(s)| == |s| && |multiset(sorted)| == |sorted|;
    TargetIsRank(|s|, percentile);
    var rank := Target(|s|, percentile);
    var v := sorted[rank - 1];
    SortedHasRank(s, sorted, rank);
    ReachedBounds(s, rank, 0, v);
    var i :| 0 <= i < |s| && s[i] == v;
    SameBucket(v, Maximum(s));
  }

  /** The published limit that a duration falls under. */
  function Limit(us: nat): nat {
    if us <= 100 then 100
    else if us <= 250 then 250
    else if us <= 500 then 500
    else if us <= 1_000 then 1_000
    else if us <= 2_000 then 2_000
    else if us <= 5_000 then 5_000
    else if us <= 10_000 then 10_000
    else 0xFFFF_FFFF_FFFF_FFFF
  }

  lemma BucketHasLimit(us: nat)
    requires us <= U64_MAX
    ensures LIMITS_US[Bucket(us)] == Limit(us)
  {
    var b := Bucket(us);
    assert b > 0 ==> LIMITS_US[b - 1] < us;
    assert b == 0 || b == 1 || b == 2 || b == 3 || b == 4 || b == 5 || b == 6 || b == 7;
    hide Bucket;
  }

  lemma {:induction false} MaximumIsReached(s: seq<nat>)
    requires s != []
    ensures Maximum(s) in s
  {
    if |s| > 1 {
      MaximumIsReached(s[..|s| - 1]);
    }
  }

  lemma MaximumIsLast(s: seq<nat>, sorted: seq<nat>)
    requires s != [] && multiset(s) == multiset(sorted) && Sorted(sorted)
    ensures |sorted| == |s| && Maximum(s) == sorted[|sorted| - 1]
  {
    assert |multiset(s)| == |s| && |multiset(sorted)| == |sorted|;
    MaximumIsReached(s);
    assert Maximum(s) in multiset(sorted);
    var last := sorted[|sorted| - 1];
    assert last in multiset(s);
    hide Maximum;
  }

  lemma RankIsTarget(samples: nat, percentile: nat, rank: nat)
    requires 0 < samples && 1 <= percentile <= 100 && samples * 100 <= U64_MAX
    requires 100 * (rank - 1) < samples * percentile <= 100 * rank
    ensures Target(samples, percentile) == rank
  {
    Products(samples, percentile);
    var product := samples * percentile;
    assert SaturatingMul(samples, percentile) == product;
  }

  /**
   * The percentile reported is, exactly, the published limit above the duration of nearest rank in any sorted
   * arrangement of everything recorded, but no more than the largest one, of which nothing counts as one.
   */
  lemma PercentileIsExact(s: seq<nat>, percentile: nat, sorted: seq<nat>, rank: nat)
    requires s != [] && Bounded(s) && 1 <= percentile <= 100 && |s| * 100 <= U64_MAX
    requires multiset(s) == multiset(sorted) && Sorted(sorted)
    requires 100 * (rank - 1) < |s| * percentile <= 100 * rank
    ensures 1 <= rank <= |s| == |sorted|
    ensures Percentile(s, percentile) == Min(Limit(sorted[rank - 1]), Max(sorted[|sorted| - 1], 1))
    ensures Percentile([], percentile) == 0
  {
    TargetIsRank(|s|, percentile);
    RankIsTarget(|s|, percentile, rank);
    MaximumIsLast(s, sorted);
    SortedHasRank(s, sorted, rank);
    var v := sorted[rank - 1];
    ReachedBounds(s, rank, 0, v);
    var i :| 0 <= i < |s| && s[i] == v;
    BucketHasLimit(v);
    hide Bucket, Limit, Reached, Maximum, Sorted;
  }

  lemma SameBucket(v: nat, maximum: nat)
    requires v <= maximum && v <= U64_MAX
    ensures Bucket(Min(LIMITS_US[Bucket(v)], Max(maximum, 1))) == Bucket(v)
  {
    var r := Min(LIMITS_US[Bucket(v)], Max(maximum, 1));
    var a, b := Bucket(v), Bucket(r);
    if b < a {
      LimitsIncrease(b, a - 1);
    } else if a < b {
      LimitsIncrease(a, b - 1);
    }
  }

  lemma {:induction false} ReachedMonotone(s: seq<nat>, a: nat, c: nat, b: nat)
    requires a <= c <= |s| && Bounded(s) && b < 8
    ensures Reached(s, a, b) <= Reached(s, c, b) <= Max(Maximum(s), 1)
    decreases 8 - b
  {
    if b == 7 {
      AtMostAll(s, U64_MAX);
    } else {
      ReachedMonotone(s, a, c, b + 1);
      ReachedAbove(s, c, b + 1);
    }
  }

  lemma {:induction false} ReachedAbove(s: seq<nat>, target: nat, b: nat)
    requires target <= |s| && Bounded(s) && b < 8
    ensures Min(LIMITS_US[b], Max(Maximum(s), 1)) <= Reached(s, target, b)
    decreases 8 - b
  {
    if b == 7 {
      AtMostAll(s, U64_MAX);
    } else {
      ReachedAbove(s, target, b + 1);
      LimitsIncrease(b, b + 1);
    }
  }

  /** p50 <= p95 <= p99 <= maximum, where an all-zero history counts as one microsecond. */
  lemma PercentilesAreOrdered(s: seq<nat>)
    requires s != [] && Bounded(s) && |s| * 100 <= U64_MAX
    ensures Percentile(s, 50) <= Percentile(s, 95) <= Percentile(s, 99) <= Max(Maximum(s), 1)
  {
    TargetIsRank(|s|, 50);
    TargetIsRank(|s|, 95);
    TargetIsRank(|s|, 99);
    ReachedMonotone(s, Target(|s|, 50), Target(|s|, 95), 0);
    ReachedMonotone(s, Target(|s|, 95), Target(|s|, 99), 0);
  }

  function Cumulative(s: seq<nat>, b: nat): nat {
    if b == 0 then 0 else Cumulative(s, b - 1) + InBucket(s, b - 1)
  }

  /** The buckets up to `b` together hold everything up to the limit of `b`. */
  lemma {:induction false} CumulativeIsAtMost(s: seq<nat>, b: nat)
    requires Bounded(s) && b < 8
    ensures Cumulative(s, b + 1) == AtMost(s, LIMITS_US[b])
  {
    if s == [] {
      EmptyCumulative(b + 1);
    } else {
      var init, x := s[..|s| - 1], s[|s| - 1];
      CumulativeIsAtMost(init, b);
      CumulativeSnoc(s, b + 1);
      if Bucket(x) <= b {
        LimitsIncrease(Bucket(x), b);
      } else {
        LimitsIncrease(b, Bucket(x) - 1);
      }
    }
  }

  lemma {:induction false} EmptyCumulative(b: nat)
    ensures Cumulative([], b) == 0
  {
    if b > 0 {
      EmptyCumulative(b - 1);
    }
  }

  lemma {:induction false} CumulativeSnoc(s: seq<nat>, b: nat)
    requires s != []
    ensures Cumulative(s, b) == Cumulative(s[..|s| - 1], b) + if Bucket(s[|s| - 1]) < b then 1 else 0
    decreases b
  {
    if b > 0 {
      CumulativeSnoc(s, b - 1);
    }
  }

  class ProcessingHistogram {
    const buckets: array<nat>
    var samples: nat
    var maximumUs: nat
    ghost var recorded: seq<nat>

    ghost predicate Valid()
      reads this, buckets
    {
      && buckets.Length == 8 && Bounded(recorded)
      && samples == |recorded| && maximumUs == Maximum(recorded)
      && forall b :: 0 <= b < 8 ==> buckets[b] == InBucket(recorded, b)
    }

    constructor ()
      ensures Valid() && fresh(buckets) && recorded == []
    {
      buckets := new nat[8](_ => 0);
      samples, maximumUs, recorded := 0, 0, [];
    }

    method Record(durationUs: nat)
      requires Valid()
      modifies this, buckets
      ensures Valid() && recorded == old(recorded) + [Min(durationUs, U64_MAX)]
    {
      var micros := Min(durationUs, U64_MAX);
      var index := 0;
      while index < 7 && micros > LIMITS_US[index]
        invariant index <= 7 && Bucket(micros) == BucketFrom(micros, index)
      {
        index := index + 1;
      }
      recorded := recorded + [micros];
      assert recorded[..|recorded| - 1] == old(recorded);
      buckets[index] := buckets[index] + 1;
      samples := samples + 1;
      maximumUs := Max(maximumUs, micros);
    }

    method GetPercentile(percentile: nat) returns (us: nat)
      requires Valid()
      ensures us == Percentile(recorded, percentile)
    {
      if samples == 0 {
        return 0;
      }
      var target := (SaturatingMul(samples, percentile) + 99) / 100;
      var cumulative := 0;
      for b := 0 to 8
        invariant cumulative == Cumulative(recorded, b)
        invariant Percentile(recorded, percentile) == Reached(recorded, target, b)
      {
        CumulativeIsAtMost(recorded, b);
        cumulative := cumulative + buckets[b];
        if cumulative >= target {
          return Min(LIMITS_US[b], Max(maximumUs, 1));
        }
      }
      us := maximumUs;
    }
  }
}
