/**
  The Largest-Triangle-Three-Buckets reducer `downsample(data, threshold)`
  of src/chartjs-plugin-downsample.js.

  The reducer keeps the first and the last point, splits the interior
  indices into `threshold - 2` buckets whose boundaries are
  `floor(i * every) + 1` with `every = (n - 2) / (threshold - 2)`, and from
  each bucket keeps the point that spans the largest triangle with the
  previously kept point and the mean of the next bucket.

  `Downsampled` is the specification; the method `Downsample` is the loop of
  the source proved against it; the lemmas state what the output is.
*/
module Lttb {

  /** A data point: `t` is a timestamp in epoch milliseconds, `y` its value. */
  datatype Point = Point(t: int, y: real)

  function Abs(x: real): real { if x < 0.0 then -x else x }

  /**
    The area of the triangle whose corners are the anchor `a`, the candidate
    `c` and the look-ahead mean (avgX, avgY).
  */
  function Area(a: Point, c: Point, avgX: real, avgY: real): (r: real)
    ensures r >= 0.0
  {
    Abs((a.t as real - avgX) * (c.y - a.y) - (a.t as real - c.t as real) * (avgY - a.y)) * 0.5
  }

  /** The input comes back unchanged when the threshold is out of range. */
  predicate Passthrough(n: int, threshold: int)
  {
    threshold >= n || threshold <= 0
  }

  /** How many times the bucket loop runs: `threshold - 2`, never negative. */
  function Buckets(threshold: int): nat
  {
    if threshold > 2 then threshold - 2 else 0
  }

  /** The real-valued bucket size. */
  function Every(n: int, threshold: int): real
    requires threshold > 2
  {
    (n - 2) as real / (threshold - 2) as real
  }

  /**
    `i * every`, written as `i` additions of `every` so that the proofs about
    bucket boundaries stay in linear arithmetic, which the solver handles
    cheaply; `ScaledIsProduct` below proves it is the product, and
    `BucketFloor` computes the product itself, as the source does.
  */
  function Scaled(i: nat, every: real): real
  {
    if i == 0 then 0.0 else Scaled(i - 1, every) + every
  }

  /** `floor(i * every) + 1`, the first index of bucket `i` for bucket size `every`. */
  function BucketStart(i: nat, every: real): int
  {
    Scaled(i, every).Floor + 1
  }

  /** The first index of bucket `i` of `n` points reduced to `threshold`. */
  function Boundary(i: nat, n: int, threshold: int): int
    requires threshold > 2
  {
    BucketStart(i, Every(n, threshold))
  }

  /** The end of the look-ahead range of bucket `i`, clipped to the data length. */
  function LookAheadEnd(i: nat, n: int, threshold: int): (e: int)
    requires threshold > 2
    ensures e <= n
  {
    var e := Boundary(i + 2, n, threshold);
    if e < n then e else n
  }

  // ---------------------------------------------------------------------
  // Bucket arithmetic

  lemma FloorMonotone(u: real, v: real)
    requires u <= v
    ensures u.Floor <= v.Floor
  {
  }

  lemma FloorStep(u: real, v: real)
    requires u + 1.0 <= v
    ensures u.Floor + 1 <= v.Floor
  {
  }

  /** The bucket size is at least one whenever the reducer does any work. */
  lemma EveryAtLeastOne(n: int, threshold: int)
    requires 3 <= threshold < n
    ensures Every(n, threshold) >= 1.0
    ensures (threshold - 2) as real * Every(n, threshold) == (n - 2) as real
  {
    var d, m := (threshold - 2) as real, (n - 2) as real;
    var e := Every(n, threshold);
    assert e * d == m;
  }

  /** The repeated addition is the product. */
  lemma {:induction false} ScaledIsProduct(i: nat, e: real)
    ensures Scaled(i, e) == (i as real) * e
  {
    if i > 0 {
      ScaledIsProduct(i - 1, e);
      assert (i as real) * e == ((i - 1) as real) * e + e;
    }
  }

  lemma {:induction false} ScaleMonotone(i: nat, j: nat, e: real)
    requires i <= j && e >= 0.0
    ensures Scaled(i, e) <= Scaled(j, e)
    decreases j - i
  {
    if i < j {
      ScaleMonotone(i, j - 1, e);
    }
  }

  /** Consecutive boundaries are strictly increasing: no bucket is empty. */
  lemma BoundaryStep(i: nat, n: int, threshold: int)
    requires 3 <= threshold < n
    ensures Boundary(i, n, threshold) < Boundary(i + 1, n, threshold)
  {
    var e := Every(n, threshold);
    EveryAtLeastOne(n, threshold);
    FloorStep(Scaled(i, e), Scaled(i + 1, e));
  }

  lemma BoundaryMonotone(i: nat, j: nat, n: int, threshold: int)
    requires 3 <= threshold < n && i <= j
    ensures Boundary(i, n, threshold) <= Boundary(j, n, threshold)
  {
    var e := Every(n, threshold);
    EveryAtLeastOne(n, threshold);
    ScaleMonotone(i, j, e);
    FloorMonotone(Scaled(i, e), Scaled(j, e));
  }

  /**
    The buckets tile the interior: bucket 0 starts at index 1, the last
    bucket `threshold - 3` ends at index `n - 1`, and the boundary after it
    is at least `n`.
  */
  lemma BoundaryEnds(n: int, threshold: int)
    requires 3 <= threshold < n
    ensures Boundary(0, n, threshold) == 1
    ensures Boundary(threshold - 2, n, threshold) == n - 1
    ensures Boundary(threshold - 1, n, threshold) >= n
  {
    var e := Every(n, threshold);
    EveryAtLeastOne(n, threshold);
    ScaledIsProduct(threshold - 2, e);
    FloorStep(Scaled(threshold - 2, e), Scaled(threshold - 1, e));
  }

  lemma RealScale(i: int, m: int, d: int)
    requires d > 0
    ensures (i as real) * ((m as real) / (d as real)) == ((i * m) as real) / (d as real)
  {
  }

  lemma FloorOfQuotient(x: int, d: int)
    requires d > 0
    ensures ((x as real) / (d as real)).Floor == x / d
  {
    var q, r := x / d, x % d;
    var v := (x as real) / (d as real);
    assert v * (d as real) == x as real;
    assert (x as real) == (q as real) * (d as real) + (r as real);
    assert v == q as real + (r as real) / (d as real);
    assert 0.0 <= (r as real) / (d as real) < 1.0;
  }

  /** For threshold >= 3 the boundary `floor(i * every) + 1` is computed exactly in integers. */
  lemma BoundaryExact(i: nat, n: int, threshold: int)
    requires threshold > 2 && n >= 2
    ensures Boundary(i, n, threshold) == i * (n - 2) / (threshold - 2) + 1
  {
    var e := Every(n, threshold);
    ScaledIsProduct(i, e);
    RealScale(i, n - 2, threshold - 2);
    FloorOfQuotient(i * (n - 2), threshold - 2);
  }

  /** Every bucket is a non-empty index range inside `1 .. n - 2`. */
  lemma BucketInRange(i: nat, n: int, threshold: int)
    requires 3 <= threshold < n && 0 <= i < threshold - 2
    ensures 1 <= Boundary(i, n, threshold) < Boundary(i + 1, n, threshold) <= n - 1
  {
    BoundaryEnds(n, threshold);
    BoundaryMonotone(0, i, n, threshold);
    BoundaryStep(i, n, threshold);
    BoundaryMonotone(i + 1, threshold - 2, n, threshold);
  }

  /**
    The look-ahead range of bucket `i` is never empty and lies within the
    data: it is bucket `i + 1` itself, except for the last bucket, whose
    look-ahead is the last point alone. So the averages never divide by zero.
  */
  lemma LookAheadInRange(i: nat, n: int, threshold: int)
    requires 3 <= threshold < n && 0 <= i < threshold - 2
    ensures 1 <= Boundary(i + 1, n, threshold) < LookAheadEnd(i, n, threshold) <= n
    ensures i < threshold - 3 ==> LookAheadEnd(i, n, threshold) == Boundary(i + 2, n, threshold)
    ensures i == threshold - 3 ==>
      Boundary(i + 1, n, threshold) == n - 1 && LookAheadEnd(i, n, threshold) == n
  {
    BoundaryEnds(n, threshold);
    BoundaryMonotone(0, i + 1, n, threshold);
    BoundaryStep(i + 1, n, threshold);
    if i < threshold - 3 {
      BoundaryMonotone(i + 2, threshold - 2, n, threshold);
    } else {
      BoundaryMonotone(i + 1, threshold - 2, n, threshold);
    }
  }

  // ---------------------------------------------------------------------
  // Specification

  /** Sum of the timestamps of `data[lo..hi]`. */
  function SumT(data: seq<Point>, lo: int, hi: int): real
    requires 0 <= lo <= hi <= |data|
    decreases hi - lo
  {
    if lo == hi then 0.0 else SumT(data, lo, hi - 1) + data[hi - 1].t as real
  }

  /** Sum of the values of `data[lo..hi]`. */
  function SumY(data: seq<Point>, lo: int, hi: int): real
    requires 0 <= lo <= hi <= |data|
    decreases hi - lo
  {
    if lo == hi then 0.0 else SumY(data, lo, hi - 1) + data[hi - 1].y
  }

  /** Mean timestamp of the look-ahead range of bucket `i`. */
  function AvgT(data: seq<Point>, threshold: int, i: int): real
    requires 3 <= threshold < |data| && 0 <= i < threshold - 2
  {
    LookAheadInRange(i, |data|, threshold);
    var lo, hi := Boundary(i + 1, |data|, threshold), LookAheadEnd(i, |data|, threshold);
    SumT(data, lo, hi) / (hi - lo) as real
  }

  /** Mean value of the look-ahead range of bucket `i`. */
  function AvgY(data: seq<Point>, threshold: int, i: int): real
    requires 3 <= threshold < |data| && 0 <= i < threshold - 2
  {
    LookAheadInRange(i, |data|, threshold);
    var lo, hi := Boundary(i + 1, |data|, threshold), LookAheadEnd(i, |data|, threshold);
    SumY(data, lo, hi) / (hi - lo) as real
  }

  /**
    The index in `lo .. hi - 1` whose point spans the largest triangle with
    `a` and the mean (avgX, avgY); on a tie the earliest index wins.
  */
  function FirstMax(data: seq<Point>, lo: int, hi: int, a: Point, avgX: real, avgY: real): (r: int)
    requires 0 <= lo < hi <= |data|
    ensures lo <= r < hi
    ensures forall j :: lo <= j < hi ==> Area(a, data[j], avgX, avgY) <= Area(a, data[r], avgX, avgY)
    ensures forall j :: lo <= j < r ==> Area(a, data[j], avgX, avgY) < Area(a, data[r], avgX, avgY)
    decreases hi - lo
  {
    if hi == lo + 1 then lo
    else
      var m := FirstMax(data, lo, hi - 1, a, avgX, avgY);
      if Area(a, data[hi - 1], avgX, avgY) > Area(a, data[m], avgX, avgY) then hi - 1 else m
  }

  /** The first maximum is the only index with the two properties `FirstMax` promises. */
  lemma FirstMaxUnique(data: seq<Point>, lo: int, hi: int, a: Point, avgX: real, avgY: real, r: int)
    requires 0 <= lo <= r < hi <= |data|
    requires forall j :: lo <= j < hi ==> Area(a, data[j], avgX, avgY) <= Area(a, data[r], avgX, avgY)
    requires forall j :: lo <= j < r ==> Area(a, data[j], avgX, avgY) < Area(a, data[r], avgX, avgY)
    ensures r == FirstMax(data, lo, hi, a, avgX, avgY)
  {
    var m := FirstMax(data, lo, hi, a, avgX, avgY);
    assert !(r < m) && !(m < r);
  }

  /** The point picked from bucket `i` when the previous pick is `data[a]`. */
  function Pick(data: seq<Point>, threshold: int, i: int, a: int): (r: int)
    requires 3 <= threshold < |data| && 0 <= i < threshold - 2 && 0 <= a < |data|
    ensures 1 <= r < |data| - 1
  {
    BucketInRange(i, |data|, threshold);
    FirstMax(data, Boundary(i, |data|, threshold), Boundary(i + 1, |data|, threshold),
             data[a], AvgT(data, threshold, i), AvgY(data, threshold, i))
  }

  /** The anchor after the picks `p`: the last pick, or the first point. */
  function Anchor(p: seq<int>): int
  {
    if |p| == 0 then 0 else p[|p| - 1]
  }

  /** The indices picked from buckets `0 .. k - 1`, each anchored on the one before. */
  function Picks(data: seq<Point>, threshold: int, k: nat): (p: seq<int>)
    requires 0 < threshold < |data| && k <= Buckets(threshold)
    ensures |p| == k
    ensures forall j :: 0 <= j < k ==> 1 <= p[j] < |data| - 1
  {
    if k == 0 then []
    else
      var prev := Picks(data, threshold, k - 1);
      BucketInRange(k - 1, |data|, threshold);
      prev + [Pick(data, threshold, k - 1, Anchor(prev))]
  }

  lemma PicksStep(data: seq<Point>, threshold: int, k: nat)
    requires 0 < threshold < |data| && k < Buckets(threshold)
    ensures Picks(data, threshold, k + 1)
         == Picks(data, threshold, k) + [Pick(data, threshold, k, Anchor(Picks(data, threshold, k)))]
  {
  }

  /** The indices of the kept points when the threshold is in range. */
  function Indices(data: seq<Point>, threshold: int): (idx: seq<int>)
    requires !Passthrough(|data|, threshold)
    ensures |idx| == Buckets(threshold) + 2
    ensures forall k :: 0 <= k < |idx| ==> 0 <= idx[k] < |data|
  {
    var picks := Picks(data, threshold, Buckets(threshold));
    var idx := [0] + picks + [|data| - 1];
    assert forall k :: 1 <= k < |idx| - 1 ==> idx[k] == picks[k - 1];
    idx
  }

  /** The points of `data` at the indices `idx`, in that order. */
  function Select(data: seq<Point>, idx: seq<int>): (r: seq<Point>)
    requires forall k :: 0 <= k < |idx| ==> 0 <= idx[k] < |data|
    ensures |r| == |idx|
    ensures forall k :: 0 <= k < |idx| ==> r[k] == data[idx[k]]
  {
    if idx == [] then [] else Select(data, idx[..|idx| - 1]) + [data[idx[|idx| - 1]]]
  }

  /** What `downsample(data, threshold)` returns. */
  function Downsampled(data: seq<Point>, threshold: int): (r: seq<Point>)
    ensures |r| <= |data|
  {
    if Passthrough(|data|, threshold) then data
    else Select(data, Indices(data, threshold))
  }

  // ---------------------------------------------------------------------
  // What the output is

  /**
    Pass-through when the threshold is out of range; otherwise exactly
    `threshold` points (two when the threshold is 1 or 2, which leave the
    bucket loop empty), starting with the first input point and ending with
    the last.
  */
  lemma DownsampledShape(data: seq<Point>, threshold: int)
    ensures Passthrough(|data|, threshold) ==> Downsampled(data, threshold) == data
    ensures !Passthrough(|data|, threshold) ==>
      var r := Downsampled(data, threshold);
      && |r| == Buckets(threshold) + 2
      && r[0] == data[0]
      && r[|r| - 1] == data[|data| - 1]
    ensures 3 <= threshold < |data| ==> |Downsampled(data, threshold)| == threshold
    ensures 0 < threshold < 3 && threshold < |data| ==>
      Downsampled(data, threshold) == [data[0], data[|data| - 1]]
  {
    hide Pick;
    if !Passthrough(|data|, threshold) {
      var idx := Indices(data, threshold);
      var r := Downsampled(data, threshold);
      assert r[0] == data[idx[0]];
      assert r[|r| - 1] == data[idx[|idx| - 1]];
      if threshold < 3 {
        assert idx == [0, |data| - 1];
      }
    }
  }

  /** Each pick lies in its own bucket. */
  lemma PickInBucket(data: seq<Point>, threshold: int, i: int, a: int)
    requires 3 <= threshold < |data| && 0 <= i < threshold - 2 && 0 <= a < |data|
    ensures Boundary(i, |data|, threshold) <= Pick(data, threshold, i, a) < Boundary(i + 1, |data|, threshold)
  {
  }

  /** A shorter run of the bucket loop is a prefix of a longer one. */
  lemma {:induction false} PicksPrefix(data: seq<Point>, threshold: int, j: nat, m: nat)
    requires 0 < threshold < |data| && j <= m <= Buckets(threshold)
    ensures Picks(data, threshold, m)[..j] == Picks(data, threshold, j)
    decreases m - j
  {
    hide Pick;
    if j < m {
      PicksPrefix(data, threshold, j, m - 1);
      assert Picks(data, threshold, m)[..m - 1] == Picks(data, threshold, m - 1);
    }
  }

  /** Pick `j` of any run is made with the anchor left by the picks before it. */
  lemma PicksAt(data: seq<Point>, threshold: int, j: nat, m: nat)
    requires 0 < threshold < |data| && j < m <= Buckets(threshold)
    ensures Picks(data, threshold, m)[j] == Pick(data, threshold, j, Anchor(Picks(data, threshold, j)))
    ensures Boundary(j, |data|, threshold) <= Picks(data, threshold, m)[j] < Boundary(j + 1, |data|, threshold)
  {
    hide Pick;
    PicksPrefix(data, threshold, j + 1, m);
    assert Picks(data, threshold, m)[j] == Picks(data, threshold, m)[..j + 1][j];
    PickInBucket(data, threshold, j, Anchor(Picks(data, threshold, j)));
  }

  /** Two picks are in the order of their buckets. */
  lemma PicksOrdered(data: seq<Point>, threshold: int, j: int, k: int)
    requires 0 < threshold < |data| && 0 <= j < k < Buckets(threshold)
    ensures Picks(data, threshold, Buckets(threshold))[j] < Picks(data, threshold, Buckets(threshold))[k]
  {
    hide Pick;
    PicksAt(data, threshold, j, Buckets(threshold));
    PicksAt(data, threshold, k, Buckets(threshold));
    BoundaryMonotone(j + 1, k, |data|, threshold);
  }

  /** Two kept indices are in the order of their buckets. */
  lemma IndicesOrdered(data: seq<Point>, threshold: int, j: int, k: int)
    requires !Passthrough(|data|, threshold)
    requires 0 <= j < k < Buckets(threshold) + 2
    ensures Indices(data, threshold)[j] < Indices(data, threshold)[k]
  {
    hide Pick;
    var p := Picks(data, threshold, Buckets(threshold));
    var idx := Indices(data, threshold);
    assert idx == [0] + p + [|data| - 1];
    if 0 < j && k < |idx| - 1 {
      PicksOrdered(data, threshold, j - 1, k - 1);
    }
  }

  /**
    The output is an order-preserving selection of the input: the kept
    indices start at 0, end at `n - 1`, and strictly increase.
  */
  lemma IndicesIncreasing(data: seq<Point>, threshold: int)
    requires !Passthrough(|data|, threshold)
    ensures var idx := Indices(data, threshold);
      && |idx| == |Downsampled(data, threshold)|
      && idx[0] == 0 && idx[|idx| - 1] == |data| - 1
      && (forall k :: 0 <= k < |idx| ==> Downsampled(data, threshold)[k] == data[idx[k]])
      && (forall j, k :: 0 <= j < k < |idx| ==> idx[j] < idx[k])
  {
    hide Pick;
    var idx := Indices(data, threshold);
    assert idx == [0] + Picks(data, threshold, Buckets(threshold)) + [|data| - 1];
    forall j, k | 0 <= j < k < |idx|
      ensures idx[j] < idx[k]
    {
      IndicesOrdered(data, threshold, j, k);
    }
  }

  /** Interior kept index `k` is the pick of bucket `k - 1` on the kept index before it. */
  lemma IndexIsPick(data: seq<Point>, threshold: int, k: int)
    requires 3 <= threshold < |data| && 1 <= k <= threshold - 2
    ensures Indices(data, threshold)[k] == Pick(data, threshold, k - 1, Indices(data, threshold)[k - 1])
  {
    hide Pick;
    var idx, m := Indices(data, threshold), Buckets(threshold);
    var p := Picks(data, threshold, m);
    assert idx == [0] + p + [|data| - 1];
    PicksAt(data, threshold, k - 1, m);
    if k > 1 {
      PicksPrefix(data, threshold, k - 1, m);
      assert Anchor(Picks(data, threshold, k - 1)) == p[k - 2];
    }
  }

  /**
    Interior pick `k` (1 <= k <= threshold - 2) is taken from bucket `k - 1`,
    the non-empty range `floor((k-1) * every) + 1 .. floor(k * every)` inside
    `1 .. n - 2`, and is the earliest point of that bucket with the largest
    triangle on the previous pick and the mean of the look-ahead range.
  */
  lemma PickIsLargestTriangle(data: seq<Point>, threshold: int, k: int)
    requires 3 <= threshold < |data| && 1 <= k <= threshold - 2
    ensures
      var idx, n := Indices(data, threshold), |data|;
      var lo, hi := Boundary(k - 1, n, threshold), Boundary(k, n, threshold);
      var a, avgX, avgY := data[idx[k - 1]], AvgT(data, threshold, k - 1), AvgY(data, threshold, k - 1);
      && 1 <= lo <= idx[k] < hi <= n - 1
      && (forall j :: lo <= j < hi ==> Area(a, data[j], avgX, avgY) <= Area(a, data[idx[k]], avgX, avgY))
      && (forall j :: lo <= j < idx[k] ==> Area(a, data[j], avgX, avgY) < Area(a, data[idx[k]], avgX, avgY))
  {
    hide Picks, Indices, Downsampled;
    IndexIsPick(data, threshold, k);
    BucketInRange(k - 1, |data|, threshold);
  }

  /** Bucket `i`'s point `r`, chosen on the anchor `data[a]`, is its earliest largest triangle. */
  ghost predicate IsBucketPick(data: seq<Point>, threshold: int, i: int, a: int, r: int)
    requires 3 <= threshold < |data| && 0 <= i < threshold - 2
  {
    BucketInRange(i, |data|, threshold);
    var lo, hi := Boundary(i, |data|, threshold), Boundary(i + 1, |data|, threshold);
    var avgX, avgY := AvgT(data, threshold, i), AvgY(data, threshold, i);
    && 0 <= a < |data|
    && lo <= r < hi
    && (forall j :: lo <= j < hi ==> Area(data[a], data[j], avgX, avgY) <= Area(data[a], data[r], avgX, avgY))
    && (forall j :: lo <= j < r ==> Area(data[a], data[j], avgX, avgY) < Area(data[a], data[r], avgX, avgY))
  }

  /**
    The selection LTTB promises, stated without the loop: the first and
    last index, and for every bucket the earliest largest-triangle point on
    the previous selection.
  */
  ghost predicate IsLttbSelection(data: seq<Point>, threshold: int, idx: seq<int>)
    requires !Passthrough(|data|, threshold)
  {
    && |idx| == Buckets(threshold) + 2
    && idx[0] == 0
    && idx[|idx| - 1] == |data| - 1
    && forall k :: 1 <= k <= Buckets(threshold) ==> IsBucketPick(data, threshold, k - 1, idx[k - 1], idx[k])
  }

  /** The kept indices meet the LTTB selection. */
  lemma IndicesAreSelection(data: seq<Point>, threshold: int)
    requires !Passthrough(|data|, threshold)
    ensures IsLttbSelection(data, threshold, Indices(data, threshold))
  {
    hide Pick;
    var ind := Indices(data, threshold);
    IndicesIncreasing(data, threshold);
    forall k | 1 <= k <= Buckets(threshold)
      ensures IsBucketPick(data, threshold, k - 1, ind[k - 1], ind[k])
    {
      PickIsLargestTriangle(data, threshold, k);
    }
  }

  /** A bucket has only one earliest largest-triangle point for a given anchor. */
  lemma BucketPickUnique(data: seq<Point>, threshold: int, i: int, a: int, r1: int, r2: int)
    requires 3 <= threshold < |data| && 0 <= i < threshold - 2
    requires IsBucketPick(data, threshold, i, a, r1) && IsBucketPick(data, threshold, i, a, r2)
    ensures r1 == r2
  {
    BucketInRange(i, |data|, threshold);
    var avgX, avgY := AvgT(data, threshold, i), AvgY(data, threshold, i);
    assert Area(data[a], data[r1], avgX, avgY) == Area(data[a], data[r2], avgX, avgY);
  }

  /** The kept indices are exactly the LTTB selection: it exists and it is unique. */
  lemma SelectionCharacterised(data: seq<Point>, threshold: int, idx: seq<int>)
    requires !Passthrough(|data|, threshold)
    ensures IsLttbSelection(data, threshold, Indices(data, threshold))
    ensures IsLttbSelection(data, threshold, idx) <==> idx == Indices(data, threshold)
  {
    hide Pick;
    IndicesAreSelection(data, threshold);
    if IsLttbSelection(data, threshold, idx) {
      SelectionAgrees(data, threshold, idx, |idx| - 1);
      assert idx == idx[..|idx|];
      assert Indices(data, threshold) == Indices(data, threshold)[..|idx|];
    }
  }

  /** A sequence meeting the LTTB selection agrees with the kept indices on every prefix. */
  lemma {:induction false} SelectionAgrees(data: seq<Point>, threshold: int, idx: seq<int>, k: int)
    requires !Passthrough(|data|, threshold)
    requires IsLttbSelection(data, threshold, idx)
    requires 0 <= k < |idx|
    ensures idx[..k + 1] == Indices(data, threshold)[..k + 1]
  {
    hide Pick, Picks, Indices, Downsampled;
    var ind := Indices(data, threshold);
    IndicesAreSelection(data, threshold);
    if k > 0 {
      SelectionAgrees(data, threshold, idx, k - 1);
      assert idx[k - 1] == idx[..k][k - 1] && ind[k - 1] == ind[..k][k - 1];
      if k < |idx| - 1 {
        BucketPickUnique(data, threshold, k - 1, idx[k - 1], idx[k], ind[k]);
      }
      assert idx[..k + 1] == idx[..k] + [idx[k]];
      assert ind[..k + 1] == ind[..k] + [ind[k]];
    }
  }

  /**
    Reducing twice gives the same result as reducing once: the output of a
    reduction is already at or below the threshold (or is the two endpoints).
  */
  lemma DownsampleIdempotent(data: seq<Point>, threshold: int)
    ensures Downsampled(Downsampled(data, threshold), threshold) == Downsampled(data, threshold)
  {
    hide Pick;
    DownsampledShape(data, threshold);
    var r := Downsampled(data, threshold);
    if !Passthrough(|data|, threshold) && threshold == 1 {
      DownsampledShape(r, threshold);
    }
  }

  // ---------------------------------------------------------------------
  // The algorithm

  /**
    The mean of `data[lo..hi]`, accumulated as the first inner loop of
    `downsample` does it (lines 53-66).
  */
  method LookAheadMean(data: seq<Point>, lo: int, hi: int) returns (avgX: real, avgY: real)
    requires 0 <= lo < hi <= |data|
    ensures avgX == SumT(data, lo, hi) / (hi - lo) as real
    ensures avgY == SumY(data, lo, hi) / (hi - lo) as real
  {
    avgX, avgY := 0.0, 0.0;
    var avgRangeStart, avgRangeEnd := lo, hi;
    var avgRangeLength := avgRangeEnd - avgRangeStart;
    while avgRangeStart < avgRangeEnd
      invariant lo <= avgRangeStart <= avgRangeEnd == hi
      invariant avgX == SumT(data, lo, avgRangeStart)
      invariant avgY == SumY(data, lo, avgRangeStart)
    {
      avgX := avgX + data[avgRangeStart].t as real;
      avgY := avgY + data[avgRangeStart].y;
      avgRangeStart := avgRangeStart + 1;
    }
    avgX := avgX / avgRangeLength as real;
    avgY := avgY / avgRangeLength as real;
  }

  /**
    The index in `lo .. hi - 1` of the point spanning the largest triangle
    with `a` and (avgX, avgY), found as the second inner loop of `downsample`
    does it (lines 72-88): strict `>`, so the first maximum is kept.
  */
  method LargestTriangle(data: seq<Point>, lo: int, hi: int, a: Point, avgX: real, avgY: real)
    returns (nextA: int)
    requires 0 <= lo < hi <= |data|
    ensures nextA == FirstMax(data, lo, hi, a, avgX, avgY)
  {
    var maxArea := -1.0;
    var rangeOffs, rangeTo := lo, hi;
    nextA := lo;
    while rangeOffs < rangeTo
      invariant lo <= rangeOffs <= rangeTo == hi
      invariant rangeOffs == lo ==> maxArea == -1.0
      invariant rangeOffs > lo ==>
        && nextA == FirstMax(data, lo, rangeOffs, a, avgX, avgY)
        && maxArea == Area(a, data[nextA], avgX, avgY)
    {
      var area := Area(a, data[rangeOffs], avgX, avgY);
      if area > maxArea {
        maxArea := area;
        nextA := rangeOffs;
      }
      rangeOffs := rangeOffs + 1;
    }
  }

  /**
    One round of the bucket loop of `downsample` (lines 52-88): the mean of
    the next bucket, then the point of bucket `i` with the largest triangle
    on the anchor `data[a]`.
  */
  method PickFromBucket(data: seq<Point>, threshold: int, every: real, i: int, a: int) returns (nextA: int)
    requires 3 <= threshold < |data| && 0 <= i < threshold - 2 && 0 <= a < |data|
    requires every == Every(|data|, threshold)
    ensures nextA == Pick(data, threshold, i, a)
  {
    var dataLength := |data|;
    LookAheadInRange(i, dataLength, threshold);
    BucketInRange(i, dataLength, threshold);

    var avgRangeStart := BucketFloor(i + 1, every);
    var avgRangeEnd := BucketFloor(i + 2, every);
    avgRangeEnd := if avgRangeEnd < dataLength then avgRangeEnd else dataLength;
    assert avgRangeStart == Boundary(i + 1, dataLength, threshold);
    assert avgRangeEnd == LookAheadEnd(i, dataLength, threshold);
    var avgX, avgY := LookAheadMean(data, avgRangeStart, avgRangeEnd);
    assert avgX == AvgT(data, threshold, i) && avgY == AvgY(data, threshold, i);

    var rangeOffs := BucketFloor(i, every);
    var rangeTo := BucketFloor(i + 1, every);
    assert rangeOffs == Boundary(i, dataLength, threshold);
    assert rangeTo == Boundary(i + 1, dataLength, threshold);
    nextA := LargestTriangle(data, rangeOffs, rangeTo, data[a], avgX, avgY);
  }

  /** `floor(i * every) + 1`, computed with the product as lines 55-56 and 69-70 do. */
  method BucketFloor(i: nat, every: real) returns (b: int)
    ensures b == BucketStart(i, every)
  {
    ScaledIsProduct(i, every);
    b := ((i as real) * every).Floor + 1;
  }

  /** What the bucket loop has built when it ends, with the last point added, is `Downsampled(data, threshold)`. */
  lemma SampledIsDownsampled(data: seq<Point>, threshold: int, picks: seq<int>)
    requires !Passthrough(|data|, threshold)
    requires picks == Picks(data, threshold, Buckets(threshold))
    ensures [data[0]] + Select(data, picks) + [data[|data| - 1]] == Downsampled(data, threshold)
  {
    hide Pick;
    var idx := Indices(data, threshold);
    assert idx == [0] + picks + [|data| - 1];
    var r, sampled := Downsampled(data, threshold), [data[0]] + Select(data, picks) + [data[|data| - 1]];
    assert |r| == |sampled|;
    forall k | 0 <= k < |r|
      ensures r[k] == sampled[k]
    {
      assert r[k] == data[idx[k]];
    }
  }

  /** `downsample(data, threshold)`: the bucket loop, filling `sampled` one kept point at a time. */
  method Downsample(data: seq<Point>, threshold: int) returns (sampled: seq<Point>)
    ensures sampled == Downsampled(data, threshold)
  {
    hide Pick, Picks, Downsampled, Indices, Every, Boundary, LookAheadEnd, AvgT, AvgY, FirstMax;
    var dataLength := |data|;
    if threshold >= dataLength || threshold <= 0 {
      DownsampledShape(data, threshold);
      return data;
    }
    sampled := [];
    // bucket size; for threshold 1 or 2 the loop below never runs and it is not read
    var every := if threshold > 2 then Every(dataLength, threshold) else 0.0;
    var a := 0;
    sampled := sampled + [data[a]];
    ghost var picks: seq<int> := [];
    var i := 0;
    while i < threshold - 2
      invariant 0 <= i <= Buckets(threshold)
      invariant picks == Picks(data, threshold, i)
      invariant a == Anchor(picks)
      invariant sampled == [data[0]] + Select(data, picks)
    {
      var nextA := PickFromBucket(data, threshold, every, i, a);
      PicksStep(data, threshold, i);
      assert (picks + [nextA])[..i] == picks;
      sampled := sampled + [data[nextA]];
      a := nextA;
      picks := picks + [nextA];
      i := i + 1;
    }
    sampled := sampled + [data[dataLength - 1]];
    SampledIsDownsampled(data, threshold, picks);
  }
}
