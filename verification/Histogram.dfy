/** The logarithmic latency histogram and how far off its percentiles can be. */
module Histogram {
  import opened Types
  import opened Words

  const BUCKETS := 64

  /** std::bit_width */
  function BitWidth(v: nat): nat { if v == 0 then 0 else 1 + BitWidth(v / 2) }

  function BucketFor(v: u64): (b: nat)
    ensures b < BUCKETS
  {
    if v <= 1 then 0
    else
      var width := BitWidth(v - 1);
      if width >= BUCKETS then BUCKETS - 1 else width
  }

  function BucketUpperBound(b: nat): nat {
    if b >= 63 then WORD - 1 else PowerOfTwo(b)
  }

  lemma {:induction false} BitWidthBounds(v: nat)
    ensures v < PowerOfTwo(BitWidth(v))
    ensures v > 0 ==> BitWidth(v) > 0 && PowerOfTwo(BitWidth(v) - 1) <= v
  {
    if v > 1 {
      BitWidthBounds(v / 2);
    }
  }

  lemma {:induction false} PowerMonotone(a: nat, b: nat)
    requires a <= b
    ensures PowerOfTwo(a) <= PowerOfTwo(b)
    decreases b
  {
    if a < b {
      PowerMonotone(a, b - 1);
    }
  }

  lemma {:induction false} TopPowers()
    ensures PowerOfTwo(63) == 0x8000_0000_0000_0000 && PowerOfTwo(62) == 0x4000_0000_0000_0000
    ensures PowerOfTwo(64) == WORD
  {
    WordIsPower();
    assert PowerOfTwo(64) == 2 * PowerOfTwo(63);
    assert PowerOfTwo(63) == 2 * PowerOfTwo(62);
  }

  /** Bucket `b` holds the values above `2^(b-1)` up to `2^b`, except that the
      last holds everything above `2^62` and the first also holds zero. */
  lemma {:induction false} BucketRange(v: u64)
    ensures BucketFor(v) < 63 ==> v <= PowerOfTwo(BucketFor(v))
    ensures BucketFor(v) > 0 ==> PowerOfTwo(BucketFor(v) - 1) < v
    ensures BucketFor(v) == 0 <==> v <= 1
  {
    if v > 1 {
      BitWidthBounds(v - 1);
      if BitWidth(v - 1) >= BUCKETS {
        PowerMonotone(62, BitWidth(v - 1) - 1);
      }
    }
  }

  lemma {:induction false} BucketMonotone(x: u64, y: u64)
    requires x <= y
    ensures BucketFor(x) <= BucketFor(y)
  {
    hide BucketFor, PowerOfTwo;
    BucketRange(x);
    BucketRange(y);
    if BucketFor(y) < BucketFor(x) {
      PowerMonotone(BucketFor(y), BucketFor(x) - 1);
    }
  }

  /** The bound is never below the value, and less than twice the value exactly
      outside zero and the open interval between `2^62` and `2^63`. */
  lemma {:induction false} BoundWithinFactorTwo(v: u64)
    ensures var u := BucketUpperBound(BucketFor(v));
            v <= u && (u < 2 * v <==> v >= 1 && (v <= 0x4000_0000_0000_0000 || v >= 0x8000_0000_0000_0000))
  {
    hide BucketFor, PowerOfTwo;
    TopPowers();
    BucketRange(v);
    var b := BucketFor(v);
    if 0 < b < 63 {
      PowerMonotone(b, 62);
      Doubles(b - 1);
    } else if b == 0 {
      PowerZero();
    }
  }

  /** The bound of a bucket is the largest value that the bucket holds. */
  lemma {:induction false} BoundIsLargest(b: nat, v: u64)
    requires b < BUCKETS
    ensures BucketUpperBound(b) < WORD && BucketFor(BucketUpperBound(b)) == b
    ensures BucketFor(v) == b ==> v <= BucketUpperBound(b)
  {
    hide BucketFor, PowerOfTwo;
    TopPowers();
    BucketRange(v);
    if b == 63 {
      TopBucket();
    } else {
      PowerMonotone(b, 62);
      BoundInBucket(b);
    }
  }

  lemma {:induction false} TopBucket()
    ensures BucketFor(WORD - 1) == 63
  {
    hide BucketFor, PowerOfTwo;
    TopPowers();
    BucketRange(WORD - 1);
    if BucketFor(WORD - 1) < 63 {
      PowerMonotone(BucketFor(WORD - 1), 62);
    }
  }

  lemma {:induction false} BoundInBucket(b: nat)
    requires b < 63 && PowerOfTwo(b) < WORD
    ensures BucketFor(PowerOfTwo(b)) == b
  {
    hide BucketFor, PowerOfTwo;
    TopPowers();
    PowerZero();
    PowerMonotone(0, b);
    var c := BucketFor(PowerOfTwo(b));
    BucketRange(PowerOfTwo(b));
    if c > 0 {
      PowerReflects(b, c - 1);
    }
    PowerReflects(c, b);
  }

  lemma {:induction false} PowerReflects(a: nat, b: nat)
    ensures PowerOfTwo(b) < PowerOfTwo(a) ==> b < a
    ensures PowerOfTwo(b) <= PowerOfTwo(a) ==> b <= a
  {
    hide PowerOfTwo;
    if a <= b {
      PowerMonotone(a, b);
    }
    if a < b {
      PowerMonotone(a, b - 1);
      Doubles(b - 1);
      PowerMonotone(0, b - 1);
      PowerZero();
    }
  }

  lemma {:induction false} Doubles(n: nat)
    ensures PowerOfTwo(n + 1) == 2 * PowerOfTwo(n)
  {
  }

  lemma {:induction false} PowerZero()
    ensures PowerOfTwo(0) == 1
  {
  }

  // ---------------------------------------------------------------------
  // Counting samples

  function One(b: bool): nat { if b then 1 else 0 }

  /** Samples in bucket `b`. */
  ghost function InBucket(samples: seq<u64>, b: nat): nat {
    if samples == [] then 0
    else var n := |samples| - 1; InBucket(samples[..n], b) + One(BucketFor(samples[n]) == b)
  }

  /** Samples in buckets before `b`. */
  ghost function Before(samples: seq<u64>, b: nat): nat {
    if samples == [] then 0
    else var n := |samples| - 1; Before(samples[..n], b) + One(BucketFor(samples[n]) < b)
  }

  /** Samples smaller than `v`. */
  ghost function Smaller(samples: seq<u64>, v: nat): nat {
    if samples == [] then 0
    else var n := |samples| - 1; Smaller(samples[..n], v) + One(samples[n] < v)
  }

  /** `s` is the `rank`th smallest sample, counting from one. */
  ghost predicate Ranked(samples: seq<u64>, rank: nat, s: u64) {
    s in samples && Smaller(samples, s) < rank <= Smaller(samples, s + 1)
  }

  ghost function Sum(samples: seq<u64>): nat {
    if samples == [] then 0 else var n := |samples| - 1; Sum(samples[..n]) + samples[n]
  }

  lemma {:induction false} BeforeNext(samples: seq<u64>, b: nat)
    ensures Before(samples, b + 1) == Before(samples, b) + InBucket(samples, b)
    ensures Before(samples, 0) == 0 && Before(samples, BUCKETS) == |samples|
  {
    hide BucketFor;
    if samples != [] {
      BeforeNext(samples[..|samples| - 1], b);
    }
  }

  lemma {:induction false} BeforeGrows(samples: seq<u64>, a: nat, b: nat)
    requires a <= b
    ensures Before(samples, a) <= Before(samples, b)
  {
    hide BucketFor;
    if samples != [] {
      BeforeGrows(samples[..|samples| - 1], a, b);
    }
  }

  /** The buckets below that of `s` hold only smaller samples; with its own they
      hold every sample up to `s`. */
  lemma {:induction false} BucketsBracket(samples: seq<u64>, s: u64)
    ensures Before(samples, BucketFor(s)) <= Smaller(samples, s)
    ensures Smaller(samples, s + 1) <= Before(samples, BucketFor(s) + 1)
  {
    hide BucketFor;
    if samples != [] {
      var n := |samples| - 1;
      BucketsBracket(samples[..n], s);
      if samples[n] <= s {
        BucketMonotone(samples[n], s);
      } else {
        BucketMonotone(s, samples[n]);
      }
    }
  }

  lemma {:induction false} Snoc(samples: seq<u64>, v: u64, b: nat)
    ensures InBucket(samples + [v], b) == InBucket(samples, b) + One(BucketFor(v) == b)
    ensures Sum(samples + [v]) == Sum(samples) + v
  {
    hide BucketFor;
    assert (samples + [v])[..|samples|] == samples;
  }

  lemma {:induction false} SumWraps(samples: seq<u64>, v: u64)
    ensures (Sum(samples) % WORD + v) % WORD == Sum(samples + [v]) % WORD
  {
    hide Sum;
    Snoc(samples, v, 0);
    WrapAdd(Sum(samples), v);
  }

  // ---------------------------------------------------------------------
  // Every rank has a sample

  lemma {:induction false} SmallerAll(samples: seq<u64>, v: nat)
    requires forall i :: 0 <= i < |samples| ==> samples[i] < v
    ensures Smaller(samples, v) == |samples|
  {
    if samples != [] {
      SmallerAll(samples[..|samples| - 1], v);
    }
  }

  lemma {:induction false} SmallerNone(samples: seq<u64>, a: nat, b: nat)
    requires a <= b && forall i :: 0 <= i < |samples| ==> !(a <= samples[i] < b)
    ensures Smaller(samples, a) == Smaller(samples, b)
  {
    if samples != [] {
      SmallerNone(samples[..|samples| - 1], a, b);
    }
  }

  /** Lowering `v` one by one meets the sample of the wanted rank. */
  lemma {:induction false} RankedFrom(samples: seq<u64>, rank: nat, v: nat) returns (s: u64)
    requires 1 <= rank <= Smaller(samples, v) && v <= WORD
    ensures Ranked(samples, rank, s)
    decreases v
  {
    if v == 0 {
      SmallerZero(samples);
      assert false;
    } else if Smaller(samples, v - 1) >= rank {
      s := RankedFrom(samples, rank, v - 1);
    } else {
      s := v - 1;
      if s !in samples {
        SmallerNone(samples, v - 1, v);
        assert false;
      }
    }
  }

  lemma {:induction false} SmallerZero(samples: seq<u64>)
    ensures Smaller(samples, 0) == 0
  {
    if samples != [] {
      SmallerZero(samples[..|samples| - 1]);
    }
  }

  lemma {:induction false} EveryRankHasASample(samples: seq<u64>, rank: nat) returns (s: u64)
    requires 1 <= rank <= |samples|
    ensures Ranked(samples, rank, s)
  {
    SmallerAll(samples, WORD);
    s := RankedFrom(samples, rank, WORD);
  }

  // ---------------------------------------------------------------------
  // The class

  /** These fields are what recording exactly `samples` leaves behind. */
  ghost predicate Summarises(buckets: seq<nat>, count: nat, total: u64, min: u64, max: u64, samples: seq<u64>) {
    && |buckets| == BUCKETS
    && (forall b :: 0 <= b < BUCKETS ==> buckets[b] == InBucket(samples, b))
    && count == |samples|
    && total == Sum(samples) % WORD
    && (forall x :: x in samples ==> min <= x <= max)
    && (if samples == [] then min == WORD - 1 && max == 0 else min in samples && max in samples)
  }

  /** Used by one thread at a time; `samples` remembers what was recorded. */
  class LatencyHistogram {
    const buckets: array<nat>
    var count: nat
    var total: u64
    var min: u64
    var max: u64
    ghost var samples: seq<u64>

    ghost predicate Valid()
      reads this, buckets
    {
      Summarises(buckets[..], count, total, min, max, samples)
    }

    constructor ()
      ensures Valid() && samples == [] && fresh(buckets)
    {
      buckets := new nat[BUCKETS](_ => 0);
      count, total, min, max, samples := 0, 0, WORD - 1, 0, [];
    }

    method Record(v: u64)
      requires Valid()
      modifies this, buckets
      ensures Valid() && samples == old(samples) + [v]
    {
      hide BucketFor, InBucket, Sum;
      var b := BucketFor(v);
      forall i | 0 <= i < BUCKETS
        ensures InBucket(samples + [v], i) == InBucket(samples, i) + One(b == i)
      {
        Snoc(samples, v, i);
      }
      SumWraps(samples, v);
      buckets[b] := buckets[b] + 1;
      count := count + 1;
      total := (total + v) % WORD;
      if v < min { min := v; }
      if v > max { max := v; }
      samples := samples + [v];
    }

    /** The bound reported for a rank is that of the sample with the rank; past the
        last sample it is the maximum. Rank zero is taken for one. */
    method PercentileUpperBound(rank: nat) returns (u: nat)
      requires Valid()
      ensures var r := if rank == 0 then 1 else rank;
              && (r > |samples| ==> u == max)
              && (forall s :: Ranked(samples, r, s) ==> u == BucketUpperBound(BucketFor(s)))
    {
      hide BucketFor, InBucket, Before, BucketUpperBound, Smaller;
      var r := if rank == 0 then 1 else rank;
      var cumulative := 0;
      BeforeNext(samples, 0);
      for i := 0 to BUCKETS
        invariant cumulative == Before(samples, i) < r
      {
        cumulative := cumulative + buckets[i];
        BeforeNext(samples, i);
        if cumulative >= r {
          forall s | Ranked(samples, r, s)
            ensures BucketFor(s) == i
          {
            FoundBucket(samples, r, s, i);
          }
          BeforeGrows(samples, i + 1, BUCKETS);
          return BucketUpperBound(i);
        }
      }
      u := max;
      forall s | Ranked(samples, r, s)
        ensures false
      {
        BucketsBracket(samples, s);
        BeforeGrows(samples, BucketFor(s) + 1, BUCKETS);
      }
    }

    /** What a percentile means: the bound stands for the fraction `p` of the samples. */
    method Percentile(p: real) returns (u: nat)
      requires Valid() && 0.0 <= p <= 1.0 && samples != []
      ensures StandsFor(samples, Portion(p, |samples|), u)
    {
      hide BucketFor, BucketUpperBound, Smaller, InBucket, Sum, Ceiling, Portion, StandsFor, Ranked;
      PortionFits(p, count);
      var x := Portion(p, count);
      var rank := Ceiling(x);
      u := PercentileUpperBound(rank);
      ghost var r := if rank == 0 then 1 else rank;
      ghost var s := EveryRankHasASample(samples, r);
      BoundIsLargest(BucketFor(s), s);
      RankMeans(samples, x, r, s, u);
    }
  }

  /** The smallest integer that is at least `x`. */
  function Ceiling(x: real): (n: int)
    ensures x <= n as real < x + 1.0
  {
    if (x.Floor as real) < x then x.Floor + 1 else x.Floor
  }

  lemma {:induction false} SmallerGrows(samples: seq<u64>, a: nat, b: nat)
    requires a <= b
    ensures Smaller(samples, a) <= Smaller(samples, b)
  {
    if samples != [] {
      SmallerGrows(samples[..|samples| - 1], a, b);
    }
  }

  function Portion(p: real, n: nat): real { p * n as real }

  lemma {:induction false} PortionFits(p: real, n: nat)
    requires 0.0 <= p <= 1.0
    ensures 0.0 <= Portion(p, n) <= n as real
  {
    Scaled(p, n as real);
  }

  lemma {:induction false} Scaled(p: real, c: real)
    requires 0.0 <= p <= 1.0 && c >= 0.0
    ensures 0.0 <= p * c <= c
  {
  }

  /** At least `x` samples lie at or below `u`, which is the bound of the bucket of a
      sample with fewer than `x` below it. */
  ghost predicate StandsFor(samples: seq<u64>, x: real, u: nat) {
    && x <= Smaller(samples, u + 1) as real
    && exists s :: && s in samples && u == BucketUpperBound(BucketFor(s))
                   && (Smaller(samples, s) == 0 || Smaller(samples, s) as real < x)
  }

  /** The sample at the rounded-up rank stands for the fraction `x` of the count. */
  lemma {:induction false} RankMeans(samples: seq<u64>, x: real, r: nat, s: u64, u: nat)
    requires Ranked(samples, r, s) && s <= u == BucketUpperBound(BucketFor(s))
    requires x <= r as real && (r == 1 || r as real < x + 1.0)
    ensures StandsFor(samples, x, u)
  {
    hide Smaller, BucketFor, BucketUpperBound;
    var next: nat := s as int + 1;
    SmallerGrows(samples, next, u + 1);
  }

  /** The first bucket at which the running count reaches the rank is the bucket of
      the ranked sample. */
  lemma {:induction false} FoundBucket(samples: seq<u64>, r: nat, s: u64, i: nat)
    requires Ranked(samples, r, s) && Before(samples, i) < r <= Before(samples, i + 1)
    ensures BucketFor(s) == i
  {
    hide BucketFor, Before, Smaller;
    BucketsBracket(samples, s);
    if BucketFor(s) < i {
      BeforeGrows(samples, BucketFor(s) + 1, i);
    } else if BucketFor(s) > i {
      BeforeGrows(samples, i + 1, BucketFor(s));
    }
  }
}
