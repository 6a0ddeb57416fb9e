/** Equity-curve kernels of the console: maximum drawdown and the two
    downsamplers.  Values are reals, indices are integers. */
module Series {
  import opened Collections

  datatype MaxDrawdown = MaxDrawdown(abs: real, pct: real, peak: real)

  /** `d` is the largest drop from a value to a later (or the same) value. */
  ghost predicate IsMaxDrop(values: seq<real>, d: real) {
    && (forall i, j :: 0 <= i <= j < |values| ==> values[i] - values[j] <= d)
    && (exists i, j :: 0 <= i <= j < |values| && values[i] - values[j] == d)
  }

  ghost predicate IsMaximum(values: seq<real>, m: real) {
    m in values && forall v :: v in values ==> v <= m
  }

  method ComputeMaxDrawdown(values: seq<real>) returns (r: MaxDrawdown)
    ensures values == [] ==> r == MaxDrawdown(0.0, 0.0, 0.0)
    ensures values != [] ==> IsMaxDrop(values, r.abs) && IsMaximum(values, r.peak)
    ensures r.pct == if r.peak > 0.0 then r.abs / r.peak * 100.0 else 0.0
    // the percentage is relative to the final peak, so it never overstates the
    // relative size of the drop it reports
    ensures r.peak > 0.0 ==> exists i, j ::
      0 <= i <= j < |values| && values[i] - values[j] == r.abs
      && (values[i] > 0.0 ==> r.pct <= r.abs / values[i] * 100.0)
  {
    if |values| == 0 {
      return MaxDrawdown(0.0, 0.0, 0.0);
    }
    var peak, maxDd := values[0], 0.0;
    ghost var top, hi, lo := 0, 0, 0;
    for k := 0 to |values|
      invariant 0 <= top < |values| && values[top] == peak && (top < k || top == 0)
      invariant 0 <= hi <= lo < |values| && values[hi] - values[lo] == maxDd && maxDd >= 0.0
      invariant lo < k || (k == 0 && lo == 0)
      invariant forall i :: 0 <= i < k ==> values[i] <= peak
      invariant forall i, j :: 0 <= i <= j < k ==> values[i] - values[j] <= maxDd
    {
      var eq := values[k];
      if eq > peak {
        peak, top := eq, k;
      }
      if peak - eq > maxDd {
        maxDd, hi, lo := peak - eq, top, k;
      }
    }
    var pct := if peak > 0.0 then maxDd / peak * 100.0 else 0.0;
    r := MaxDrawdown(maxDd, pct, peak);
    if peak > 0.0 && values[hi] > 0.0 {
      QuotientAntitone(maxDd, values[hi], peak);
    }
  }

  lemma QuotientAntitone(d: real, a: real, b: real)
    requires 0.0 <= d && 0.0 < a <= b
    ensures d / b <= d / a
  {
    var x, y := d / a, d / b;
    assert x * a == d && y * b == d && 0.0 <= y;
    assert y * a <= y * b;
    ProductLe(y, x, a);
  }

  lemma ProductLe(y: real, x: real, a: real)
    requires y * a <= x * a && a > 0.0
    ensures y <= x
  {
    assert (x - y) * a >= 0.0;
  }

  // --- Sampling by index -------------------------------------------------

  ghost predicate StrictlyIncreasing(idx: seq<int>) {
    forall a, b :: 0 <= a < b < |idx| ==> idx[a] < idx[b]
  }

  ghost predicate InRange(idx: seq<int>, n: nat) {
    forall a :: 0 <= a < |idx| ==> 0 <= idx[a] < n
  }

  function Pick(values: seq<real>, idx: seq<int>): (r: seq<real>)
    requires InRange(idx, |values|)
    ensures |r| == |idx|
    ensures forall a :: 0 <= a < |idx| ==> r[a] == values[idx[a]]
  {
    seq(|idx|, a requires 0 <= a < |idx| => values[idx[a]])
  }

  /** `idx` samples a series of `n` points: in order, within the point budget,
      and keeping both ends. */
  ghost predicate IsSampling(n: nat, maxPoints: int, idx: seq<int>) {
    && StrictlyIncreasing(idx)
    && InRange(idx, n)
    && 2 <= |idx| <= maxPoints
    && idx[0] == 0 && idx[|idx| - 1] == n - 1
  }

  /** Array.prototype.slice(-maxPoints) for maxPoints < 2; slice(-0) is the
      whole array. */
  function SliceTail(values: seq<real>, maxPoints: int): seq<real>
    requires maxPoints < 2
  {
    if maxPoints == 1 then (if |values| == 0 then [] else values[|values| - 1..])
    else if -maxPoints <= |values| then values[-maxPoints..] else []
  }

  // --- Integer division --------------------------------------------------

  /** Math.round of a non-negative quotient: half rounds up. */
  function RoundDiv(a: nat, b: nat): nat
    requires b > 0
  {
    (2 * a + b) / (2 * b)
  }

  lemma DivBounds(y: int, d: int)
    requires d > 0
    ensures d * (y / d) <= y < d * (y / d + 1)
  {
  }

  lemma FactorLess(d: int, p: int, q: int)
    requires d > 0 && d * p < d * q
    ensures p < q
  {
    assert d * (q - p) > 0;
  }

  /** The floor of y/d is the only q with d*q <= y < d*(q+1). */
  lemma DivIs(y: int, d: int, q: int)
    requires d > 0
    ensures d * q <= y ==> y / d >= q
    ensures y < d * (q + 1) ==> y / d <= q
  {
    var p := y / d;
    DivBounds(y, d);
    if d * q <= y { FactorLess(d, q, p + 1); }
    if y < d * (q + 1) { FactorLess(d, p, q + 1); }
  }

  /** Index of the i-th of m + 1 even samples of 0 .. last. */
  function EvenIndex(i: nat, last: nat, m: nat): nat
    requires m >= 1
  {
    RoundDiv(i * last, m)
  }

  lemma EvenIndexEnds(last: nat, m: nat)
    requires m >= 1
    ensures EvenIndex(0, last, m) == 0 && EvenIndex(m, last, m) == last
  {
    DivIs(m, 2 * m, 0);
    var y := 2 * (m * last) + m;
    assert (2 * m) * last == 2 * (m * last) && (2 * m) * (last + 1) == 2 * (m * last) + 2 * m;
    DivIs(y, 2 * m, last);
  }

  lemma EvenIndexSteps(i: nat, last: nat, m: nat)
    requires m >= 1 && last >= m
    ensures EvenIndex(i, last, m) < EvenIndex(i + 1, last, m)
  {
    var x, y := 2 * (i * last) + m, 2 * ((i + 1) * last) + m;
    assert y == x + 2 * last;
    var q := x / (2 * m);
    DivBounds(x, 2 * m);
    assert (2 * m) * (q + 1) == (2 * m) * q + 2 * m;
    DivIs(y, 2 * m, q + 1);
  }

  lemma EvenIndicesIncrease(i: nat, j: nat, last: nat, m: nat)
    requires m >= 1 && last >= m && i <= j
    ensures EvenIndex(i, last, m) + (j - i) <= EvenIndex(j, last, m)
    decreases j - i
  {
    if i < j {
      EvenIndexSteps(i, last, m);
      EvenIndicesIncrease(i + 1, j, last, m);
    }
  }

  /** Each index is the nearest one to an even share of the way to the last, halves
      rounded up. */
  ghost predicate Even(idx: seq<int>, last: int) {
    forall a :: 0 <= a < |idx| ==> NearestTo(idx[a], a * last, |idx| - 1)
  }

  /** `q` is the nearest integer to x / m. */
  predicate NearestTo(q: int, x: int, m: int) { 2 * x - m < 2 * m * q <= 2 * x + m }

  lemma EvenIndexNearest(i: nat, last: nat, m: nat)
    requires m >= 1
    ensures NearestTo(EvenIndex(i, last, m), i * last, m)
  {
    DivBounds(2 * (i * last) + m, 2 * m);
  }

  method DownsampleSeries(values: seq<real>, maxPoints: int) returns (r: seq<real>)
    ensures |values| <= maxPoints ==> r == values
    ensures |values| > maxPoints && maxPoints < 2 ==> r == SliceTail(values, maxPoints)
    ensures |values| > maxPoints >= 2 ==>
      exists idx :: IsSampling(|values|, maxPoints, idx) && |idx| == maxPoints && Even(idx, |values| - 1)
                    && r == Pick(values, idx)
  {
    if |values| <= maxPoints {
      return values;
    }
    if maxPoints < 2 {
      return SliceTail(values, maxPoints);
    }
    var lastIdx := |values| - 1;
    var m := maxPoints - 1;
    r := [];
    ghost var idx: seq<int> := [];
    hide NearestTo, EvenIndex;
    EvenIndexEnds(lastIdx, m);
    for i := 0 to maxPoints
      invariant |idx| == i && |r| == i && InRange(idx, |values|)
      invariant forall a :: 0 <= a < i ==> r[a] == values[idx[a]]
      invariant i > 0 ==> idx[0] == 0 && idx[i - 1] == EvenIndex(i - 1, lastIdx, m)
      invariant StrictlyIncreasing(idx)
      invariant forall a :: 0 <= a < i ==> NearestTo(idx[a], a * lastIdx, m)
    {
      EvenIndexNearest(i, lastIdx, m);
      EvenIndicesIncrease(i, m, lastIdx, m);
      if i > 0 {
        EvenIndexSteps(i - 1, lastIdx, m);
      }
      var k := EvenIndex(i, lastIdx, m);
      r := r + [values[k]];
      idx := idx + [k];
    }
    assert r == Pick(values, idx) && Even(idx, lastIdx);
    assert IsSampling(|values|, maxPoints, idx);
  }

  // --- Buckets -----------------------------------------------------------

  function NumBuckets(maxPoints: int): (k: nat)
    ensures k >= 1
    ensures maxPoints >= 4 ==> 2 + 2 * k <= maxPoints
  {
    if (maxPoints - 2) / 2 > 1 then (maxPoints - 2) / 2 else 1
  }

  /** First index of bucket `b`; bucket `b` is BucketStart(b) up to, not
      including, BucketStart(b + 1). */
  function BucketStart(b: nat, lastIdx: int, k: nat): int
    requires k >= 1
  {
    1 + b * (lastIdx - 1) / k
  }

  /** Boundaries that cut 1 .. last - 1 into consecutive, possibly empty, runs. */
  ghost predicate Tiling(starts: seq<int>, last: int) {
    && |starts| >= 2 && starts[0] == 1 && starts[|starts| - 1] == last
    && forall b, c :: 0 <= b <= c < |starts| ==> starts[b] <= starts[c]
  }

  ghost function Boundaries(last: int, k: nat): (starts: seq<int>)
    requires k >= 1
    ensures |starts| == k + 1
    ensures forall b :: 0 <= b <= k ==> starts[b] == BucketStart(b, last, k)
  {
    seq(k + 1, b requires 0 <= b <= k => BucketStart(b, last, k))
  }

  lemma BucketEnds(last: int, k: nat)
    requires k >= 1
    ensures BucketStart(0, last, k) == 1 && BucketStart(k, last, k) == last
  {
    DivIs(0, k, 0);
    assert k * (last - 1) < k * (last - 1 + 1);
    DivIs(k * (last - 1), k, last - 1);
  }

  lemma BucketStartMonotone(b: nat, c: nat, last: int, k: nat)
    requires k >= 1 && b <= c && last >= 1
    ensures BucketStart(b, last, k) <= BucketStart(c, last, k)
  {
    var x, y := b * (last - 1), c * (last - 1);
    assert y == x + (c - b) * (last - 1);
    DivBounds(x, k);
    DivIs(y, k, x / k);
  }

  /** The computed bucket bounds tile the interior exactly. */
  lemma BoundariesTile(last: int, k: nat)
    requires k >= 1 && last >= 1
    ensures Tiling(Boundaries(last, k), last)
  {
    BucketEnds(last, k);
    forall b, c | 0 <= b <= c <= k
      ensures BucketStart(b, last, k) <= BucketStart(c, last, k)
    {
      BucketStartMonotone(b, c, last, k);
    }
  }

  /** In a tiling each interior index lies in exactly one bucket. */
  lemma {:induction false} BucketOf(starts: seq<int>, last: int, i: int) returns (b: int)
    requires Tiling(starts, last) && 1 <= i < last
    ensures 0 <= b < |starts| - 1 && starts[b] <= i < starts[b + 1]
    ensures forall c :: 0 <= c < |starts| - 1 && starts[c] <= i < starts[c + 1] ==> c == b
  {
    b := 0;
    while starts[b + 1] <= i
      invariant 0 <= b < |starts| - 1 && starts[b] <= i
      decreases |starts| - b
    {
      b := b + 1;
    }
    forall c | 0 <= c < |starts| - 1 && starts[c] <= i < starts[c + 1] ensures c == b {
      if c < b {
        assert false;
      } else if b < c {
        assert false;
      }
    }
  }

  /** The first smallest and the first largest point of s .. e - 1. */
  ghost predicate IsFirstMin(values: seq<real>, m: int, s: int, e: int)
    requires 0 <= s && e <= |values|
  {
    s <= m < e && forall i :: s <= i < e ==> values[m] <= values[i] && (i < m ==> values[m] < values[i])
  }

  ghost predicate IsFirstMax(values: seq<real>, m: int, s: int, e: int)
    requires 0 <= s && e <= |values|
  {
    s <= m < e && forall i :: s <= i < e ==> values[i] <= values[m] && (i < m ==> values[i] < values[m])
  }

  /** The kept indices hold the first smallest and the first largest point of
      s .. e - 1. */
  ghost predicate KeepsExtrema(values: seq<real>, kept: set<int>, s: int, e: int)
    requires 0 <= s && e <= |values|
  {
    exists lo, hi :: lo in kept && hi in kept && IsFirstMin(values, lo, s, e) && IsFirstMax(values, hi, s, e)
  }

  /** An end, or the first smallest or largest point of a bucket. */
  ghost predicate WorthKeeping(values: seq<real>, starts: seq<int>, x: int)
    requires Tiling(starts, |values| - 1)
  {
    x == 0 || x == |values| - 1 || exists b :: 0 <= b < |starts| - 1 && IsExtreme(values, starts, b, x)
  }

  ghost predicate IsExtreme(values: seq<real>, starts: seq<int>, b: int, x: int)
    requires Tiling(starts, |values| - 1) && 0 <= b < |starts| - 1
  {
    IsFirstMin(values, x, starts[b], starts[b + 1]) || IsFirstMax(values, x, starts[b], starts[b + 1])
  }

  ghost predicate BucketsKept(values: seq<real>, kept: set<int>, starts: seq<int>, upTo: nat)
    requires Tiling(starts, |values| - 1) && upTo < |starts|
  {
    forall b :: 0 <= b < upTo && starts[b] < starts[b + 1] ==>
      KeepsExtrema(values, kept, starts[b], starts[b + 1])
  }

  ghost function IndexSet(idx: seq<int>): set<int> {
    set x | x in idx
  }

  /** The extrema-preserving sample for a given tiling: the ends and the first extremes
      of every bucket, and nothing else. */
  ghost predicate IsExtremaSampling(values: seq<real>, maxPoints: int, starts: seq<int>, idx: seq<int>) {
    && IsSampling(|values|, maxPoints, idx)
    && Tiling(starts, |values| - 1)
    && BucketsKept(values, IndexSet(idx), starts, |starts| - 1)
    && forall x :: x in IndexSet(idx) ==> WorthKeeping(values, starts, x)
  }

  method BucketExtrema(values: seq<real>, start: int, end: int) returns (minI: int, maxI: int)
    requires 0 <= start <= end < |values|
    ensures IsFirstMin(values, minI, start, end + 1) && IsFirstMax(values, maxI, start, end + 1)
  {
    minI, maxI := start, start;
    for i := start + 1 to end + 1
      invariant IsFirstMin(values, minI, start, i) && IsFirstMax(values, maxI, start, i)
    {
      if values[i] < values[minI] { minI := i; }
      if values[i] > values[maxI] { maxI := i; }
    }
  }

  method LeastOf(s: set<int>) returns (m: int)
    requires s != {}
    ensures m in s && forall x :: x in s ==> m <= x
  {
    ghost var some := AnyOf(s);
    m :| m in s;
    var rest := s - {m};
    while rest != {}
      invariant m in s && rest <= s
      invariant forall x :: x in s ==> x in rest || m <= x
      decreases |rest|
    {
      ghost var other := AnyOf(rest);
      var x :| x in rest;
      if x < m { m := x; }
      rest := rest - {x};
    }
  }

  /** The members of a finite set of indices in ascending order. */
  method SortIndices(s: set<int>) returns (sorted: seq<int>)
    ensures StrictlyIncreasing(sorted) && IndexSet(sorted) == s && |sorted| == |s|
  {
    sorted := [];
    var rest := s;
    while rest != {}
      invariant StrictlyIncreasing(sorted)
      invariant forall x :: x in s <==> x in sorted || x in rest
      invariant forall a, x :: 0 <= a < |sorted| && x in rest ==> sorted[a] < x
      invariant |sorted| + |rest| == |s|
      decreases |rest|
    {
      var m := LeastOf(rest);
      sorted := sorted + [m];
      rest := rest - {m};
    }
    assert forall x :: x in s <==> x in sorted;
  }

  method DownsampleSeriesPreserveExtrema(values: seq<real>, maxPoints: int) returns (r: seq<real>)
    ensures |values| <= maxPoints ==> r == values
    ensures |values| > maxPoints && maxPoints < 2 ==> r == SliceTail(values, maxPoints)
    ensures |values| > maxPoints >= 2 ==>
      exists idx :: IsSampling(|values|, maxPoints, idx) && r == Pick(values, idx)
    ensures |values| > maxPoints >= 4 ==>
      exists idx :: IsExtremaSampling(values, maxPoints, Boundaries(|values| - 1, NumBuckets(maxPoints)), idx)
                    && r == Pick(values, idx)
  {
    if |values| <= maxPoints {
      return values;
    }
    hide BucketStart, BucketsKept, IsSampling, IsExtremaSampling, Tiling, Pick, NumBuckets, InRange, WorthKeeping;
    var lastIdx := |values| - 1;
    var numBuckets := NumBuckets(maxPoints);
    ghost var starts := Boundaries(lastIdx, numBuckets);
    var indices := {0, lastIdx};
    if |values| >= 2 {
      BoundariesTile(lastIdx, numBuckets);
      indices := KeepBucketExtrema(values, numBuckets, starts);
    }
    var sorted := SortIndices(indices);
    if |sorted| > maxPoints {
      r := DownsampleSeries(values, maxPoints);
      return;
    }
    SortedIsSampling(sorted, values, maxPoints, numBuckets, starts);
    r := Pick(values, sorted);
  }

  /** The bucket loop: two ends, then the extremes of every bucket. */
  method KeepBucketExtrema(values: seq<real>, numBuckets: nat, ghost starts: seq<int>) returns (indices: set<int>)
    requires |values| >= 2 && numBuckets >= 1
    requires starts == Boundaries(|values| - 1, numBuckets) && Tiling(starts, |values| - 1)
    ensures {0, |values| - 1} <= indices && forall x :: x in indices ==> 0 <= x < |values|
    ensures |indices| <= 2 + 2 * numBuckets
    ensures BucketsKept(values, indices, starts, numBuckets)
    ensures forall x :: x in indices ==> WorthKeeping(values, starts, x)
  {
    var lastIdx := |values| - 1;
    indices := {0, lastIdx};
    assert BucketsKept(values, indices, starts, 0);
    hide BucketStart, BucketsKept, KeepsExtrema, IsFirstMin, IsFirstMax;
    for bucket := 0 to numBuckets
      invariant {0, lastIdx} <= indices && forall x :: x in indices ==> 0 <= x <= lastIdx
      invariant |indices| <= 2 + 2 * bucket
      invariant BucketsKept(values, indices, starts, bucket)
      invariant forall x :: x in indices ==> WorthKeeping(values, starts, x)
    {
      var start := BucketStart(bucket, lastIdx, numBuckets);
      var end := BucketStart(bucket + 1, lastIdx, numBuckets) - 1;
      assert starts[0] <= starts[bucket] == start && starts[bucket + 1] == end + 1 <= starts[numBuckets];
      if start > end {
        EmptyBucket(values, indices, starts, bucket);
      } else {
        var minI, maxI := BucketExtrema(values, start, end);
        KeptGrows(values, indices, minI, maxI, starts, bucket);
        assert IsExtreme(values, starts, bucket, minI) && IsExtreme(values, starts, bucket, maxI);
        indices := indices + {minI} + {maxI};
      }
    }
  }

  lemma EmptyBucket(values: seq<real>, kept: set<int>, starts: seq<int>, b: nat)
    requires Tiling(starts, |values| - 1) && b + 1 < |starts| && BucketsKept(values, kept, starts, b)
    requires starts[b] >= starts[b + 1]
    ensures BucketsKept(values, kept, starts, b + 1)
  {
  }

  lemma KeptGrows(values: seq<real>, kept: set<int>, minI: int, maxI: int, starts: seq<int>, upTo: nat)
    requires Tiling(starts, |values| - 1) && upTo + 1 < |starts| && BucketsKept(values, kept, starts, upTo)
    requires IsFirstMin(values, minI, starts[upTo], starts[upTo + 1])
    requires IsFirstMax(values, maxI, starts[upTo], starts[upTo + 1])
    ensures BucketsKept(values, kept + {minI} + {maxI}, starts, upTo + 1)
    ensures |kept + {minI} + {maxI}| <= |kept| + 2
  {
    forall b | 0 <= b < upTo + 1 && starts[b] < starts[b + 1]
      ensures KeepsExtrema(values, kept + {minI} + {maxI}, starts[b], starts[b + 1])
    {
      if b < upTo {
        assert KeepsExtrema(values, kept, starts[b], starts[b + 1]);
      }
    }
    assert |kept + {minI}| <= |kept| + 1;
  }

  lemma SortedIsSampling(sorted: seq<int>, values: seq<real>, maxPoints: int, k: nat, starts: seq<int>)
    requires StrictlyIncreasing(sorted) && 0 in IndexSet(sorted) && |values| - 1 in IndexSet(sorted)
    requires forall x :: x in IndexSet(sorted) ==> 0 <= x < |values|
    requires |sorted| <= maxPoints < |values| && k >= 1 && |starts| == k + 1
    requires |values| >= 2 ==>
      && Tiling(starts, |values| - 1) && BucketsKept(values, IndexSet(sorted), starts, k)
      && forall x :: x in IndexSet(sorted) ==> WorthKeeping(values, starts, x)
    ensures maxPoints >= 2 && InRange(sorted, |values|)
    ensures IsSampling(|values|, maxPoints, sorted) && IsExtremaSampling(values, maxPoints, starts, sorted)
  {
    hide WorthKeeping, BucketsKept;
    var n := |values|;
    assert forall a :: 0 <= a < |sorted| ==> sorted[a] in IndexSet(sorted);
    var z :| 0 <= z < |sorted| && sorted[z] == 0;
    var l :| 0 <= l < |sorted| && sorted[l] == n - 1;
    assert sorted[0] in sorted && sorted[|sorted| - 1] in sorted;
  }

  // --- What the samplers guarantee about drawdown ------------------------

  /** No sample in index order can show a deeper drawdown than the full series. */
  lemma SampleNeverDeepensDrawdown(values: seq<real>, idx: seq<int>, full: real, sampled: real)
    requires StrictlyIncreasing(idx) && InRange(idx, |values|)
    requires IsMaxDrop(values, full) && IsMaxDrop(Pick(values, idx), sampled)
    ensures sampled <= full
  {
    var p := Pick(values, idx);
    var a, b :| 0 <= a <= b < |p| && p[a] - p[b] == sampled;
    assert idx[a] <= idx[b];
    assert values[idx[a]] - values[idx[b]] <= full;
  }

  /** Index `j` comes after the bucket that holds `i`; the first and the last
      index belong to no bucket. */
  ghost predicate Separated(starts: seq<int>, i: int, j: int) {
    i < j && forall b :: 0 <= b < |starts| - 1 ==> !(starts[b] <= i && j < starts[b + 1])
  }

  /** Bounds of the cell of index `i`: its bucket, or just `i` at either end. */
  ghost predicate InCell(starts: seq<int>, i: int, s: int, e: int) {
    && |starts| > 0 && s <= i < e
    && ((s == i && e == i + 1 && (i == 0 || i == starts[|starts| - 1]))
        || exists b :: 0 <= b < |starts| - 1 && s == starts[b] && e == starts[b + 1])
  }

  /** The sample keeps, on behalf of index `i`, a value at least as small and
      one at least as large from the same cell. */
  lemma Representatives(values: seq<real>, maxPoints: int, starts: seq<int>, idx: seq<int>, i: int)
    returns (s: int, e: int, lo: int, hi: int)
    requires |starts| >= 2 && IsExtremaSampling(values, maxPoints, starts, idx) && 0 <= i < |values|
    ensures InCell(starts, i, s, e)
    ensures 0 <= lo < |idx| && s <= idx[lo] < e && values[idx[lo]] <= values[i]
    ensures 0 <= hi < |idx| && s <= idx[hi] < e && values[i] <= values[idx[hi]]
  {
    var last := |values| - 1;
    if i == 0 {
      return 0, 1, 0, 0;
    }
    if i == last {
      return i, i + 1, |idx| - 1, |idx| - 1;
    }
    var b := BucketOf(starts, last, i);
    s, e := starts[b], starts[b + 1];
    assert KeepsExtrema(values, IndexSet(idx), s, e);
    var l, h :| l in IndexSet(idx) && h in IndexSet(idx)
      && IsFirstMin(values, l, s, e) && IsFirstMax(values, h, s, e);
    assert values[l] <= values[i] <= values[h];
    lo :| 0 <= lo < |idx| && idx[lo] == l;
    hi :| 0 <= hi < |idx| && idx[hi] == h;
  }

  lemma SeparatedCells(starts: seq<int>, last: int, i: int, j: int, si: int, ei: int, sj: int, ej: int)
    requires Tiling(starts, last) && 0 <= i <= last && 0 <= j <= last && Separated(starts, i, j)
    requires InCell(starts, i, si, ei) && InCell(starts, j, sj, ej)
    ensures ei <= sj
  {
    if i == 0 || i == last || j == 0 || j == last {
      return;
    }
    var b :| 0 <= b < |starts| - 1 && si == starts[b] && ei == starts[b + 1];
    var c :| 0 <= c < |starts| - 1 && sj == starts[c] && ej == starts[c + 1];
  }

  /** Every peak-to-trough drop whose ends are not in one bucket survives. */
  lemma SeparatedDropSurvives(values: seq<real>, maxPoints: int, starts: seq<int>, idx: seq<int>,
                              i: int, j: int, sampled: real)
    requires IsExtremaSampling(values, maxPoints, starts, idx)
    requires 0 <= i < j < |values| && Separated(starts, i, j)
    requires IsMaxDrop(Pick(values, idx), sampled)
    ensures values[i] - values[j] <= sampled
  {
    var si, ei, _, hi := Representatives(values, maxPoints, starts, idx, i);
    var sj, ej, lo, _ := Representatives(values, maxPoints, starts, idx, j);
    SeparatedCells(starts, |values| - 1, i, j, si, ei, sj, ej);
    assert idx[hi] < idx[lo];
    var p := Pick(values, idx);
    assert p[hi] - p[lo] <= sampled;
  }

  /** The drop from `i` to `j` survives: the two are one point, are not in one bucket, or
      are the first largest and the first smallest point of a bucket, in that order. */
  ghost predicate SurvivingPair(values: seq<real>, starts: seq<int>, i: int, j: int)
    requires Tiling(starts, |values| - 1)
  {
    || i == j || Separated(starts, i, j)
    || (i < j && exists b :: 0 <= b < |starts| - 1 && ExtremePair(values, starts, b, i, j))
  }

  ghost predicate ExtremePair(values: seq<real>, starts: seq<int>, b: int, i: int, j: int)
    requires Tiling(starts, |values| - 1) && 0 <= b < |starts| - 1
  {
    IsFirstMax(values, i, starts[b], starts[b + 1]) && IsFirstMin(values, j, starts[b], starts[b + 1])
  }

  ghost predicate DeepestPair(values: seq<real>, full: real, i: int, j: int) {
    0 <= i <= j < |values| && values[i] - values[j] == full
  }

  /** The drawdown of the sample is that of the series exactly when some deepest pair is
      a surviving one. */
  lemma DrawdownSurvivesIff(values: seq<real>, maxPoints: int, starts: seq<int>, idx: seq<int>,
                            full: real, sampled: real)
    requires IsExtremaSampling(values, maxPoints, starts, idx)
    requires IsMaxDrop(values, full) && IsMaxDrop(Pick(values, idx), sampled)
    ensures sampled == full <==>
      exists i, j :: DeepestPair(values, full, i, j) && SurvivingPair(values, starts, i, j)
  {
    hide BucketsKept, WorthKeeping, IsSampling, SurvivingPair, IsMaxDrop, DeepestPair;
    SampledWithin(values, maxPoints, starts, idx, full, sampled);
    forall i, j | DeepestPair(values, full, i, j) && SurvivingPair(values, starts, i, j) ensures sampled >= full {
      PairSurvives(values, maxPoints, starts, idx, full, sampled, i, j);
    }
    if sampled == full {
      var i, j := SurvivorOf(values, maxPoints, starts, idx, full);
    }
  }

  lemma SampledWithin(values: seq<real>, maxPoints: int, starts: seq<int>, idx: seq<int>, full: real, sampled: real)
    requires IsExtremaSampling(values, maxPoints, starts, idx)
    requires IsMaxDrop(values, full) && IsMaxDrop(Pick(values, idx), sampled)
    ensures sampled <= full
  {
    SampleNeverDeepensDrawdown(values, idx, full, sampled);
  }

  lemma PairSurvives(values: seq<real>, maxPoints: int, starts: seq<int>, idx: seq<int>, full: real, sampled: real,
                     i: int, j: int)
    requires IsExtremaSampling(values, maxPoints, starts, idx) && IsMaxDrop(Pick(values, idx), sampled)
    requires DeepestPair(values, full, i, j) && SurvivingPair(values, starts, i, j)
    ensures full <= sampled
  {
    var p := Pick(values, idx);
    if i == j {
      assert p[0] - p[0] <= sampled;
    } else if Separated(starts, i, j) {
      hide IsMaxDrop;
      SeparatedDropSurvives(values, maxPoints, starts, idx, i, j, sampled);
    } else {
      var b :| 0 <= b < |starts| - 1 && ExtremePair(values, starts, b, i, j);
      var a, c := PairKept(values, maxPoints, starts, idx, b, i, j);
      assert p[a] - p[c] <= sampled;
    }
  }

  lemma PairKept(values: seq<real>, maxPoints: int, starts: seq<int>, idx: seq<int>, b: int, i: int, j: int)
    returns (a: int, c: int)
    requires IsExtremaSampling(values, maxPoints, starts, idx)
    requires 0 <= b < |starts| - 1 && ExtremePair(values, starts, b, i, j) && i < j
    ensures 0 <= a <= c < |idx| && idx[a] == i && idx[c] == j
  {
    var s, e := starts[b], starts[b + 1];
    assert KeepsExtrema(values, IndexSet(idx), s, e);
    var lo, hi :| lo in IndexSet(idx) && hi in IndexSet(idx)
      && IsFirstMin(values, lo, s, e) && IsFirstMax(values, hi, s, e);
    FirstsAreUnique(values, s, e, lo, j, hi, i);
    a :| 0 <= a < |idx| && idx[a] == i;
    c :| 0 <= c < |idx| && idx[c] == j;
  }

  lemma FirstsAreUnique(values: seq<real>, s: int, e: int, lo: int, lo': int, hi: int, hi': int)
    requires 0 <= s && e <= |values|
    requires IsFirstMin(values, lo, s, e) && IsFirstMin(values, lo', s, e)
    requires IsFirstMax(values, hi, s, e) && IsFirstMax(values, hi', s, e)
    ensures lo == lo' && hi == hi'
  {
  }

  /** A deepest pair of the sample is a deepest pair of the series. */
  lemma PairOfSample(values: seq<real>, idx: seq<int>, full: real) returns (i: int, j: int)
    requires InRange(idx, |values|) && StrictlyIncreasing(idx) && IsMaxDrop(Pick(values, idx), full)
    ensures DeepestPair(values, full, i, j) && i in IndexSet(idx) && j in IndexSet(idx)
  {
    var p := Pick(values, idx);
    var a, c :| 0 <= a <= c < |p| && p[a] - p[c] == full;
    i, j := idx[a], idx[c];
  }

  /** Two extremes of one bucket that make a deepest pair are its first maximum and then
      its first minimum. */
  lemma ExtremesInOrder(values: seq<real>, starts: seq<int>, b: int, i: int, j: int)
    requires Tiling(starts, |values| - 1) && 0 <= b < |starts| - 1 && starts[b] <= i < j < starts[b + 1]
    requires IsExtreme(values, starts, b, i) && IsExtreme(values, starts, b, j)
    requires 0 <= i && j < |values| && values[i] >= values[j]
    ensures ExtremePair(values, starts, b, i, j)
  {
  }

  /** A deepest pair of the sample is a surviving one of the series. */
  lemma SurvivorOf(values: seq<real>, maxPoints: int, starts: seq<int>, idx: seq<int>, full: real)
    returns (i: int, j: int)
    requires IsExtremaSampling(values, maxPoints, starts, idx)
    requires IsMaxDrop(values, full) && IsMaxDrop(Pick(values, idx), full)
    ensures DeepestPair(values, full, i, j) && SurvivingPair(values, starts, i, j)
  {
    i, j := PairOfSample(values, idx, full);
    assert full >= values[0] - values[0];
    assert WorthKeeping(values, starts, i) && WorthKeeping(values, starts, j);
    hide IsMaxDrop, BucketsKept, IndexSet, Pick, WorthKeeping, IsExtreme, ExtremePair;
    if i < j && !Separated(starts, i, j) {
      var b :| 0 <= b < |starts| - 1 && starts[b] <= i && j < starts[b + 1];
      KeptInBucket(values, starts, b, i);
      KeptInBucket(values, starts, b, j);
      ExtremesInOrder(values, starts, b, i, j);
    }
  }

  /** A kept point of a bucket is one of its first extremes. */
  lemma KeptInBucket(values: seq<real>, starts: seq<int>, b: int, x: int)
    requires Tiling(starts, |values| - 1) && 0 <= b < |starts| - 1 && starts[b] <= x < starts[b + 1]
    requires WorthKeeping(values, starts, x)
    ensures IsExtreme(values, starts, b, x)
  {
    assert 1 <= starts[b] && starts[b + 1] <= |values| - 1;
    var c :| 0 <= c < |starts| - 1 && IsExtreme(values, starts, c, x);
    var _ := BucketOf(starts, |values| - 1, x);
  }

  /** Nothing in the series lies outside the range of the sample, so the global
      minimum and maximum are among the kept values. */
  lemma GlobalExtremaSurvive(values: seq<real>, maxPoints: int, starts: seq<int>, idx: seq<int>, i: int)
    requires IsExtremaSampling(values, maxPoints, starts, idx) && 0 <= i < |values|
    ensures exists a, b :: 0 <= a < |idx| && 0 <= b < |idx|
              && Pick(values, idx)[a] <= values[i] <= Pick(values, idx)[b]
  {
    var _, _, lo, hi := Representatives(values, maxPoints, starts, idx, i);
    assert Pick(values, idx)[lo] <= values[i] <= Pick(values, idx)[hi];
  }

  /** A drop inside one bucket can vanish: the deepest drop of this series, 8 to
      1, has both ends in the only bucket, whose maximum 9 comes after its
      minimum 1, so no extrema-preserving sample of four points shows it. */
  lemma DropInsideBucketCanVanish(values: seq<real>, idx: seq<int>, d: real)
    requires values == [7.0, 8.0, 1.0, 9.0, 7.0]
    requires IsExtremaSampling(values, 4, Boundaries(4, NumBuckets(4)), idx)
    requires InRange(idx, 5) && IsMaxDrop(Pick(values, idx), d)
    ensures IsMaxDrop(values, 7.0) && d == 6.0
  {
    hide IsMaxDrop, IsExtremaSampling;
    DropsOfFive();
    OneBucket(4, NumBuckets(4));
    hide Boundaries;
    SampleOfFive(values, [1, 4], idx);
    assert Pick(values, idx) == [7.0, 1.0, 9.0, 7.0];
    MaxDropUnique([7.0, 1.0, 9.0, 7.0], d, 6.0);
  }

  lemma OneBucket(last: int, k: nat)
    requires k == 1 && last >= 1
    ensures Boundaries(last, k) == [1, last]
  {
    BucketEnds(last, k);
    hide BucketStart;
    var starts := Boundaries(last, k);
    assert starts[0] == 1 && starts[1] == last;
  }

  lemma DropsOfFive()
    ensures IsMaxDrop([7.0, 8.0, 1.0, 9.0, 7.0], 7.0)
    ensures IsMaxDrop([7.0, 1.0, 9.0, 7.0], 6.0)
  {
    var full, kept := [7.0, 8.0, 1.0, 9.0, 7.0], [7.0, 1.0, 9.0, 7.0];
    assert full[1] - full[2] == 7.0 && kept[0] - kept[1] == 6.0;
  }

  lemma MaxDropUnique(values: seq<real>, a: real, b: real)
    requires IsMaxDrop(values, a) && IsMaxDrop(values, b)
    ensures a == b
  {
  }

  lemma SampleOfFive(values: seq<real>, starts: seq<int>, idx: seq<int>)
    requires values == [7.0, 8.0, 1.0, 9.0, 7.0] && starts == [1, 4]
    requires IsExtremaSampling(values, 4, starts, idx)
    ensures idx == [0, 2, 3, 4]
  {
    assert KeepsExtrema(values, IndexSet(idx), starts[0], starts[1]);
    ExtremesOfFive(values, IndexSet(idx));
    hide BucketsKept, KeepsExtrema;
    var a :| 0 <= a < |idx| && idx[a] == 2;
    var b :| 0 <= b < |idx| && idx[b] == 3;
    assert 0 < a < b < |idx| - 1;
  }

  lemma ExtremesOfFive(values: seq<real>, kept: set<int>)
    requires values == [7.0, 8.0, 1.0, 9.0, 7.0] && KeepsExtrema(values, kept, 1, 4)
    ensures 2 in kept && 3 in kept
  {
    assert values[1] == 8.0 && values[2] == 1.0 && values[3] == 9.0;
    var lo, hi :| lo in kept && hi in kept && IsFirstMin(values, lo, 1, 4) && IsFirstMax(values, hi, 1, 4);
    assert values[lo] <= values[2] && values[3] <= values[hi];
  }
}
