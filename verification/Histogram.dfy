/** The log2 histogram behind hedge timing (nestor/src/latency.rs:9-13, 154-172): bucket arithmetic,
    its error bound, and the bucket walk against the sorted samples. */
module Histogram {
  import opened Common
  import opened Powers

  const MIN_SHIFT: nat := 16
  const SUB_BITS: nat := 3
  const SUB_BUCKETS: nat := 8
  const OCTAVES: nat := 24
  const BUCKETS: nat := SUB_BUCKETS * OCTAVES

  /** `ilog2`. */
  function Log2(v: nat): (k: nat)
    requires v > 0
    ensures Pow2(k) <= v < Pow2(k + 1)
  {
    if v == 1 then 0 else
      var k := Log2(v / 2);
      assert Pow2(k + 2) == 2 * Pow2(k + 1);
      k + 1
  }

  lemma {:induction false} Pow2Monotone(i: nat, j: nat)
    requires i <= j
    ensures Pow2(i) <= Pow2(j)
  {
    if i < j {
      Pow2Monotone(i, j - 1);
    }
  }

  /** The exponent of a power-of-two cell is unique. */
  lemma Log2Bounds(v: nat, k: nat)
    requires v > 0
    ensures v < Pow2(k) <==> Log2(v) < k
  {
    if Log2(v) < k {
      Pow2Monotone(Log2(v) + 1, k);
    } else {
      Pow2Monotone(k, Log2(v));
    }
  }

  lemma Log2Monotone(x: nat, y: nat)
    requires 0 < x <= y
    ensures Log2(x) <= Log2(y)
  {
    Log2Bounds(x, Log2(y) + 1);
  }

  /** Samples below 2^16 share the first bucket. */
  function Floor(nanos: nat): nat { Max(nanos, Pow2(MIN_SHIFT)) }

  lemma FloorLog(nanos: nat)
    ensures Log2(Floor(nanos)) >= MIN_SHIFT
  {
    Log2Bounds(Floor(nanos), MIN_SHIFT);
  }

  /** The leading bits of a value, as its position among the eighths of its octave. */
  function Eighth(value: nat): nat
    requires value > 0 && Log2(value) >= SUB_BITS
  {
    value / Pow2(Log2(value) - SUB_BITS)
  }

  lemma QuotientBounds(value: nat, e: Pos)
    requires 8 * e <= value < 16 * e
    ensures 8 <= value / e < 16 && value / e * e <= value < value / e * e + e
  {
    var q := value / e;
    assert q * e <= value < q * e + e;
    MulMonotone(q, 7, e);
    MulMonotone(16, q, e);
  }

  lemma EighthBounds(value: nat)
    requires value > 0 && Log2(value) >= SUB_BITS
    ensures 8 <= Eighth(value) < 16
    ensures var e := Pow2(Log2(value) - SUB_BITS); Eighth(value) * e <= value < Eighth(value) * e + e
  {
    Octave(Log2(value) - SUB_BITS);
    QuotientBounds(value, Pow2(Log2(value) - SUB_BITS));
  }

  lemma Octave(k: nat)
    ensures Pow2(k + 3) == 8 * Pow2(k) && Pow2(k + 4) == 16 * Pow2(k)
  {
    assert Pow2(k + 1) == 2 * Pow2(k) && Pow2(k + 2) == 2 * Pow2(k + 1) && Pow2(k + 3) == 2 * Pow2(k + 2);
  }

  function Bucket(nanos: nat): (i: nat)
    ensures i < BUCKETS
  {
    FloorLog(nanos);
    var value := Floor(nanos);
    var octave := Log2(value) - MIN_SHIFT;
    var sub := Eighth(value) % SUB_BUCKETS;
    Min(octave * SUB_BUCKETS + sub, BUCKETS - 1)
  }

  function UpperEdge(index: nat): nat {
    (SUB_BUCKETS + index % SUB_BUCKETS + 1) * Pow2(index / SUB_BUCKETS + MIN_SHIFT - SUB_BITS)
  }

  /** The bucket before it is clamped to the last one. */
  function Position(nanos: nat): nat {
    FloorLog(nanos);
    EighthBounds(Floor(nanos));
    (Log2(Floor(nanos)) - MIN_SHIFT) * SUB_BUCKETS + Eighth(Floor(nanos)) - SUB_BUCKETS
  }

  lemma LogBelow40(nanos: nat)
    ensures nanos < Pow2(40) <==> Log2(Floor(nanos)) < 40
  {
    Pow2Monotone(MIN_SHIFT + 1, 40);
    Log2Bounds(Floor(nanos), 40);
  }

  /** One eighth more than a value with at least eight of them. */
  lemma EdgeArithmetic(q: nat, e: Pos, value: nat)
    requires 8 <= q && q * e <= value < q * e + e
    ensures value < (q + 1) * e && 8 * ((q + 1) * e) <= 9 * value
  {
    MulMonotone(8, q, e);
    assert (q + 1) * e == q * e + e;
  }

  lemma EdgeOf(octave: nat, sub: nat)
    requires sub < SUB_BUCKETS
    ensures UpperEdge(octave * SUB_BUCKETS + sub) == (SUB_BUCKETS + sub + 1) * Pow2(octave + MIN_SHIFT - SUB_BITS)
  {
    assert (octave * SUB_BUCKETS + sub) / SUB_BUCKETS == octave && (octave * SUB_BUCKETS + sub) % SUB_BUCKETS == sub;
  }

  /** Where a sample lands: its octave, its eighth and the width of that eighth. */
  lemma Place(nanos: nat) returns (octave: nat, q: nat, e: Pos)
    ensures octave == Log2(Floor(nanos)) - MIN_SHIFT && 8 <= q < 16 && e == Pow2(octave + MIN_SHIFT - SUB_BITS)
    ensures Position(nanos) == octave * SUB_BUCKETS + (q - SUB_BUCKETS)
    ensures Bucket(nanos) == Min(octave * SUB_BUCKETS + q % SUB_BUCKETS, BUCKETS - 1)
    ensures q * e <= Floor(nanos) < q * e + e
  {
    FloorLog(nanos);
    EighthBounds(Floor(nanos));
    octave, q, e := Log2(Floor(nanos)) - MIN_SHIFT, Eighth(Floor(nanos)), Pow2(Log2(Floor(nanos)) - SUB_BITS);
  }

  lemma BucketIsPosition(nanos: nat)
    ensures Bucket(nanos) == Min(Position(nanos), BUCKETS - 1)
    ensures Position(nanos) < BUCKETS <==> nanos < Pow2(40)
  {
    var octave, q, e := Place(nanos);
    LogBelow40(nanos);
  }

  lemma PositionEdge(nanos: nat)
    ensures UpperEdge(Position(nanos)) > nanos
    ensures 8 * UpperEdge(Position(nanos)) <= 9 * Floor(nanos)
  {
    var octave, q, e := Place(nanos);
    EdgeAbove(octave, q, e, Floor(nanos));
  }

  lemma EdgeAbove(octave: nat, q: nat, e: Pos, value: nat)
    requires 8 <= q < 16 && e == Pow2(octave + MIN_SHIFT - SUB_BITS) && q * e <= value < q * e + e
    ensures value < UpperEdge(octave * SUB_BUCKETS + (q - SUB_BUCKETS))
    ensures 8 * UpperEdge(octave * SUB_BUCKETS + (q - SUB_BUCKETS)) <= 9 * value
  {
    EdgeOf(octave, q - SUB_BUCKETS);
    EdgeArithmetic(q, e, value);
  }

  /** A quantile's edge lies strictly above the sample exactly when the sample is below 2^40, and
      then by at most an eighth of the sample or of 2^16. */
  lemma EdgeBound(nanos: nat)
    ensures UpperEdge(Bucket(nanos)) > nanos <==> nanos < Pow2(40)
    ensures nanos < Pow2(40) ==> 8 * UpperEdge(Bucket(nanos)) <= 9 * Max(nanos, Pow2(16))
  {
    BucketIsPosition(nanos);
    PositionEdge(nanos);
    if nanos >= Pow2(40) {
      EdgeOf(OCTAVES - 1, SUB_BUCKETS - 1);
      assert Pow2(37) == 2 * Pow2(36) && Pow2(38) == 2 * Pow2(37) && Pow2(39) == 2 * Pow2(38)
             && Pow2(40) == 2 * Pow2(39);
    }
  }

  lemma PositionMonotone(x: nat, y: nat)
    requires x <= y
    ensures Position(x) <= Position(y)
  {
    var octaveX, qx, ex := Place(x);
    var octaveY, qy, ey := Place(y);
    Log2Monotone(Floor(x), Floor(y));
    if octaveX == octaveY && qy < qx {
      MulMonotone(qy, qx, ex);
    }
  }

  /** Larger samples never land in a smaller bucket. */
  lemma BucketMonotone(x: nat, y: nat)
    requires x <= y
    ensures Bucket(x) <= Bucket(y)
  {
    BucketIsPosition(x);
    BucketIsPosition(y);
    PositionMonotone(x, y);
  }

  // ---- Order statistics ----

  ghost predicate Monotone(f: nat -> nat) { forall x, y :: x <= y ==> f(x) <= f(y) }

  /** How many samples `f` puts in bucket `i`, and how many in `i` or below. */
  function Tally(f: nat -> nat, samples: seq<nat>, i: nat): (n: nat)
    ensures n <= |samples|
  {
    if samples == [] then 0
    else Tally(f, samples[..|samples| - 1], i) + (if f(samples[|samples| - 1]) == i then 1 else 0)
  }

  function AtOrBelow(f: nat -> nat, samples: seq<nat>, i: int): (n: nat)
    ensures n <= |samples|
  {
    if samples == [] then 0
    else AtOrBelow(f, samples[..|samples| - 1], i) + (if f(samples[|samples| - 1]) <= i then 1 else 0)
  }

  lemma {:induction false} AtOrBelowStep(f: nat -> nat, samples: seq<nat>, i: nat)
    ensures AtOrBelow(f, samples, i) == AtOrBelow(f, samples, i - 1) + Tally(f, samples, i)
  {
    if samples != [] {
      AtOrBelowStep(f, samples[..|samples| - 1], i);
    }
  }

  lemma {:induction false} AtOrBelowEnds(f: nat -> nat, samples: seq<nat>)
    requires forall x :: f(x) < BUCKETS
    ensures AtOrBelow(f, samples, -1) == 0 && AtOrBelow(f, samples, BUCKETS - 1) == |samples|
  {
    if samples != [] {
      AtOrBelowEnds(f, samples[..|samples| - 1]);
    }
  }

  lemma {:induction false} AtOrBelowRemove(f: nat -> nat, samples: seq<nat>, k: nat, i: int)
    requires k < |samples|
    ensures AtOrBelow(f, samples, i) == AtOrBelow(f, samples[..k] + samples[k + 1..], i)
            + (if f(samples[k]) <= i then 1 else 0)
  {
    var n := |samples| - 1;
    var rest := samples[..k] + samples[k + 1..];
    if k == n {
      assert rest == samples[..n];
    } else {
      AtOrBelowRemove(f, samples[..n], k, i);
      assert rest[..n - 1] == samples[..n][..k] + samples[..n][k + 1..];
    }
  }

  /** The counts do not depend on the order of arrival. */
  lemma {:induction false} AtOrBelowPermuted(f: nat -> nat, a: seq<nat>, b: seq<nat>, i: int)
    requires multiset(a) == multiset(b)
    ensures AtOrBelow(f, a, i) == AtOrBelow(f, b, i)
    decreases |a|
  {
    if a == [] {
      assert |multiset(b)| == 0;
    } else {
      var n := |a| - 1;
      assert a == a[..n] + [a[n]];
      assert a[n] in multiset(b);
      var k :| 0 <= k < |b| && b[k] == a[n];
      var rest := b[..k] + b[k + 1..];
      WithoutOne(b, k);
      assert multiset(a[..n]) == multiset(a) - multiset{a[n]};
      AtOrBelowPermuted(f, a[..n], rest, i);
      AtOrBelowRemove(f, b, k, i);
    }
  }

  lemma WithoutOne(b: seq<nat>, k: nat)
    requires k < |b|
    ensures multiset(b[..k] + b[k + 1..]) == multiset(b) - multiset{b[k]}
  {
    assert b == b[..k] + [b[k]] + b[k + 1..];
  }

  ghost predicate Sorted(s: seq<nat>) { forall i, j :: 0 <= i <= j < |s| ==> s[i] <= s[j] }

  /** In sorted order the first `r` samples are at or below bucket `i` exactly when the `r`-th is. */
  lemma {:induction false} SortedAtOrBelow(f: nat -> nat, sorted: seq<nat>, i: int, r: nat)
    requires Monotone(f) && Sorted(sorted) && 1 <= r <= |sorted|
    ensures AtOrBelow(f, sorted, i) >= r <==> f(sorted[r - 1]) <= i
  {
    var n := |sorted| - 1;
    assert f(sorted[r - 1]) <= f(sorted[n]);
    if f(sorted[n]) <= i {
      AllAtOrBelow(f, sorted, i);
    } else if r <= n {
      SortedAtOrBelow(f, sorted[..n], i, r);
    }
  }

  lemma {:induction false} AllAtOrBelow(f: nat -> nat, sorted: seq<nat>, i: int)
    requires Monotone(f) && Sorted(sorted) && sorted != [] && f(sorted[|sorted| - 1]) <= i
    ensures AtOrBelow(f, sorted, i) == |sorted|
  {
    var n := |sorted| - 1;
    if n > 0 {
      assert f(sorted[n - 1]) <= f(sorted[n]);
      AllAtOrBelow(f, sorted[..n], i);
    }
  }

  /** The bucket at which the running count first reaches `r` is the bucket of the `r`-th smallest
      sample, whatever order the samples came in. */
  lemma WalkFindsRank(f: nat -> nat, samples: seq<nat>, sorted: seq<nat>, r: nat, i: nat)
    requires Monotone(f) && multiset(sorted) == multiset(samples) && Sorted(sorted) && 1 <= r <= |sorted|
    requires AtOrBelow(f, samples, i) >= r && AtOrBelow(f, samples, i - 1) < r
    ensures f(sorted[r - 1]) == i
  {
    AtOrBelowPermuted(f, samples, sorted, i);
    AtOrBelowPermuted(f, samples, sorted, i - 1);
    SortedAtOrBelow(f, sorted, i, r);
    SortedAtOrBelow(f, sorted, i - 1, r);
  }

  /** Quantile bound: the edge of the bucket where the walk stops lies above the `r`-th smallest
      sample `x` exactly when `x` is below 2^40, and then by at most an eighth of `max(x, 2^16)`. */
  lemma QuantileBound(f: nat -> nat, samples: seq<nat>, sorted: seq<nat>, r: nat, i: nat)
    requires forall x :: f(x) == Bucket(x)
    requires multiset(sorted) == multiset(samples) && Sorted(sorted) && 1 <= r <= |sorted|
    requires AtOrBelow(f, samples, i) >= r && AtOrBelow(f, samples, i - 1) < r
    ensures UpperEdge(i) > sorted[r - 1] <==> sorted[r - 1] < Pow2(40)
    ensures sorted[r - 1] < Pow2(40) ==> 8 * UpperEdge(i) <= 9 * Max(sorted[r - 1], Pow2(16))
  {
    forall x, y | x <= y ensures f(x) <= f(y) {
      BucketMonotone(x, y);
    }
    WalkFindsRank(f, samples, sorted, r, i);
    EdgeBound(sorted[r - 1]);
  }

  // ---- Ranks ----

  function Clamp(quantile: real): real {
    if quantile < 0.0 then 0.0 else if quantile > 1.0 then 1.0 else quantile
  }

  function Ceiling(x: real): int { -((-x).Floor) }

  /** `rank`, over real numbers. */
  function Rank(quantile: real, total: nat): (r: nat)
    ensures r >= 1
  {
    Max(Ceiling(Clamp(quantile) * total as real), 1)
  }

  /** The rank of a quantile is a rank there is, and the least that has at least that share of the samples at
      or below it. */
  lemma RankExactly(quantile: real, total: nat, r: nat)
    requires total > 0 && 1 <= r
    ensures 1 <= Rank(quantile, total) <= total
    ensures Rank(quantile, total) <= r <==> r as real >= Clamp(quantile) * total as real
  {
    var share := Clamp(quantile) * total as real;
    assert 0.0 <= share <= total as real;
  }
}
