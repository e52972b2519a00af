/**
 Duration-weighted averages over fixed intervals. Measurements are reals, times
 whole milliseconds; a missing measurement is None.
 */
module ChartAverages {
  import opened Common

  datatype Point = Point(at: int, resolutionMs: Option<int>, values: seq<Option<real>>)

  /** `NotFinite` is what dividing by a total weight of zero gives. */
  datatype Cell = Missing | Mean(value: real) | NotFinite

  datatype Average = Average(at: real, resolutionMs: int, values: seq<Cell>)

  datatype Bucket = Bucket(at: real, sums: map<nat, real>, weights: map<nat, real>)

  /** The charted range and how it is cut up. */
  datatype Range = Range(start: int, end: int, interval: int) {
    predicate Valid() {
      start < end && interval > 0
    }

    /** Intervals, the last one possibly shorter. */
    function Count(): nat
      requires Valid()
    {
      (end - start + interval - 1) / interval
    }

    function BucketOf(at: int): int
      requires Valid()
    {
      var b := (at - start) / interval;
      if b < Count() - 1 then b else Count() - 1
    }

    /** Interval `b` holds this time: it starts in it, or is the end of the range and `b` is the last. */
    predicate Covers(b: nat, at: int)
      requires Valid()
    {
      && b < Count()
      && (start + b * interval <= at < start + (b + 1) * interval || (at == end && b == Count() - 1))
    }

    /** Dividing the time since the start gives exactly the interval that holds it. */
    lemma BucketCovers(at: int, b: nat)
      requires Valid() && start <= at <= end
      ensures BucketOf(at) == b <==> Covers(b, at)
    {
      Buckets(at);
      WhichPart(at - start, end - start, interval, Count(), b);
    }

    function Middle(i: nat): real
      requires Valid()
    {
      var rest := end - start - i * interval;
      (start + i * interval) as real + (if interval < rest then interval else rest) as real / 2.0
    }

    lemma Buckets(at: int)
      requires Valid()
      ensures Count() > 0 && (Count() - 1) * interval < end - start <= Count() * interval
      ensures start <= at <= end ==> 0 <= BucketOf(at) < Count()
    {
      var total := end - start + interval - 1;
      var count := total / interval;
      assert total == count * interval + total % interval;
      assert count <= 0 ==> count * interval <= 0;
      assert at >= start ==> (at - start) / interval >= 0;
    }
  }

  lemma Division(x: int, d: int)
    requires d > 0 && x >= 0
    ensures (x / d) * d <= x < (x / d) * d + d
  {
    assert x == (x / d) * d + x % d;
  }

  lemma {:induction false} Multiples(a: int, b: int, d: int)
    requires d > 0 && a < b
    ensures a * d + d <= b * d
    decreases b - a
  {
    assert b * d == (b - 1) * d + d;
    if a < b - 1 {
      Multiples(a, b - 1, d);
    }
  }

  /** The quotient is the one multiple count that reaches to `x`. */
  lemma Quotient(x: int, d: int, b: int)
    requires d > 0 && x >= 0
    ensures (x / d) * d <= x < (x / d + 1) * d
    ensures b * d <= x < (b + 1) * d <==> b == x / d
  {
    var q := x / d;
    Division(x, d);
    assert (b + 1) * d == b * d + d && (q + 1) * d == q * d + d;
    if b < q {
      Multiples(b, q, d);
    } else if q < b {
      Multiples(q, b, d);
    }
  }

  /** Where time `x` falls when `total` is cut into `count` parts of length `d`, the last possibly shorter. */
  lemma WhichPart(x: int, total: int, d: int, count: int, b: int)
    requires 0 <= x <= total && d > 0 && (count - 1) * d < total <= count * d
    ensures (if x / d < count - 1 then x / d else count - 1) == b <==>
              b < count && ((b * d <= x < (b + 1) * d) || (x == total && b == count - 1))
  {
    Quotient(x, d, b);
    if x < total {
      Smaller(x / d, count, d, x);
    } else {
      Smaller(count - 1, x / d + 1, d, x);
    }
  }

  lemma Smaller(a: int, b: int, d: int, x: int)
    requires d > 0 && a * d <= x < b * d
    ensures a < b
  {
    if b < a {
      Multiples(b, a, d);
    }
  }

  /** The rows tile the range: the first starts with it, the last reaches its end, and each stands at the middle of its part. */
  lemma RowsTileRange(r: Range, b: nat)
    requires r.Valid() && b < r.Count()
    ensures r.start + (r.Count() - 1) * r.interval < r.end <= r.start + r.Count() * r.interval
    ensures var lo, next := r.start + b * r.interval, r.start + (b + 1) * r.interval;
            2.0 * r.Middle(b) == (lo + if next < r.end then next else r.end) as real
  {
    r.Buckets(r.start);
    assert (b + 1) * r.interval == b * r.interval + r.interval;
  }

  function Weight(p: Point): real {
    (if p.resolutionMs.Some? then p.resolutionMs.value else 10000) as real
  }

  predicate WellFormed(points: seq<Point>, series: nat) {
    forall p <- points :: |p.values| == series
  }

  predicate Positive(points: seq<Point>) {
    forall p <- points :: Weight(p) > 0.0
  }

  predicate InRange(p: Point, r: Range) {
    r.start <= p.at <= r.end
  }

  /** Bucket `b` receives a value of series `k` from this point. */
  predicate Receives(p: Point, r: Range, b: nat, k: nat)
    requires r.Valid()
  {
    InRange(p, r) && r.Covers(b, p.at) && k < |p.values| && p.values[k].Some?
  }

  predicate Received(points: seq<Point>, r: Range, b: nat, k: nat)
    requires r.Valid()
  {
    exists i :: 0 <= i < |points| && Receives(points[i], r, b, k)
  }

  function SumOf(points: seq<Point>, r: Range, b: nat, k: nat): real
    requires r.Valid()
  {
    if points == [] then 0.0
    else
      var p := points[|points| - 1];
      SumOf(points[..|points| - 1], r, b, k) + if Receives(p, r, b, k) then p.values[k].value * Weight(p) else 0.0
  }

  function WeightOf(points: seq<Point>, r: Range, b: nat, k: nat): real
    requires r.Valid()
  {
    if points == [] then 0.0
    else
      var p := points[|points| - 1];
      WeightOf(points[..|points| - 1], r, b, k) + if Receives(p, r, b, k) then Weight(p) else 0.0
  }

  /** The weighted sum of everything that falls in range. */
  function TotalOf(points: seq<Point>, r: Range, k: nat): real {
    if points == [] then 0.0
    else
      var p := points[|points| - 1];
      TotalOf(points[..|points| - 1], r, k)
      + if InRange(p, r) && k < |p.values| && p.values[k].Some? then p.values[k].value * Weight(p) else 0.0
  }

  /** Nothing exactly if nothing was received, else the weighted mean if there is one. */
  predicate Tells(cell: Cell, received: bool, weight: real, sum: real) {
    match cell
    case Missing => !received
    case NotFinite => received && weight == 0.0
    case Mean(value) => received && weight != 0.0 && value * weight == sum
  }

  /** What a finished bucket shows. */
  predicate Shows(cell: Cell, points: seq<Point>, r: Range, b: nat, k: nat)
    requires r.Valid()
  {
    Tells(cell, Received(points, r, b, k), WeightOf(points, r, b, k), SumOf(points, r, b, k))
  }

  /** Points that fall at the same times with the same values and durations. */
  ghost predicate SameInput(a: seq<Point>, c: seq<Point>) {
    && |a| == |c|
    && forall i :: 0 <= i < |a| ==> a[i].at == c[i].at && a[i].values == c[i].values && Weight(a[i]) == Weight(c[i])
  }

  lemma {:induction false} SameSums(a: seq<Point>, c: seq<Point>, r: Range, b: nat, k: nat)
    requires r.Valid() && SameInput(a, c)
    ensures SumOf(a, r, b, k) == SumOf(c, r, b, k) && WeightOf(a, r, b, k) == WeightOf(c, r, b, k)
    ensures Received(a, r, b, k) <==> Received(c, r, b, k)
  {
    assert forall i :: 0 <= i < |a| ==> (Receives(a[i], r, b, k) <==> Receives(c[i], r, b, k));
    if a != [] {
      SameSums(a[..|a| - 1], c[..|c| - 1], r, b, k);
    }
  }

  lemma TellsSame(cell: Cell, r1: bool, w1: real, s1: real, r2: bool, w2: real, s2: real)
    requires r1 == r2 && w1 == w2 && s1 == s2
    ensures Tells(cell, r1, w1, s1) == Tells(cell, r2, w2, s2)
  {
  }

  lemma SameShows(cell: Cell, a: seq<Point>, c: seq<Point>, r: Range, b: nat, k: nat)
    requires r.Valid() && SameInput(a, c)
    ensures Shows(cell, a, r, b, k) <==> Shows(cell, c, r, b, k)
  {
    SameSums(a, c, r, b, k);
    TellsSame(cell, Received(a, r, b, k), WeightOf(a, r, b, k), SumOf(a, r, b, k),
              Received(c, r, b, k), WeightOf(c, r, b, k), SumOf(c, r, b, k));
  }

  lemma TenSecondsInput(points: seq<Point>, i: nat)
    requires i < |points| && points[i].resolutionMs.None?
    ensures SameInput(points, points[i := points[i].(resolutionMs := Some(10000))])
  {
  }

  /** A point of unknown resolution counts for ten seconds. */
  lemma UnknownResolution(cell: Cell, points: seq<Point>, i: nat, r: Range, b: nat, k: nat)
    requires r.Valid() && i < |points| && points[i].resolutionMs.None?
    ensures Shows(cell, points, r, b, k) <==>
              Shows(cell, points[i := points[i].(resolutionMs := Some(10000))], r, b, k)
  {
    TenSecondsInput(points, i);
    SameShows(cell, points, points[i := points[i].(resolutionMs := Some(10000))], r, b, k);
  }

  // ---- Accumulating ----

  /** The bucket has taken in exactly these points. */
  predicate Holds(bucket: Bucket, points: seq<Point>, r: Range, b: nat, k: nat)
    requires r.Valid()
  {
    && (k in bucket.weights <==> Received(points, r, b, k))
    && (k in bucket.sums <==> k in bucket.weights)
    && (k in bucket.weights ==>
          bucket.weights[k] == WeightOf(points, r, b, k) && bucket.sums[k] == SumOf(points, r, b, k))
    && (k !in bucket.weights ==> WeightOf(points, r, b, k) == 0.0 && SumOf(points, r, b, k) == 0.0)
  }

  function Get(m: map<nat, real>, k: nat): real {
    if k in m then m[k] else 0.0
  }

  function AddValue(bucket: Bucket, k: nat, value: real, weight: real): Bucket {
    bucket.(sums := bucket.sums[k := Get(bucket.sums, k) + value * weight],
            weights := bucket.weights[k := Get(bucket.weights, k) + weight])
  }

  lemma ReceivedStep(points: seq<Point>, p: Point, r: Range, b: nat, k: nat)
    requires r.Valid()
    ensures Received(points + [p], r, b, k) <==> Received(points, r, b, k) || Receives(p, r, b, k)
  {
    var all := points + [p];
    assert all[|points|] == p;
    if Received(points, r, b, k) {
      var i :| 0 <= i < |points| && Receives(points[i], r, b, k);
      assert all[i] == points[i];
    }
    if Received(all, r, b, k) {
      var i :| 0 <= i < |all| && Receives(all[i], r, b, k);
      assert i < |points| ==> points[i] == all[i];
    }
  }

  lemma HoldsStep(bucket: Bucket, next: Bucket, points: seq<Point>, p: Point, r: Range, b: nat, k: nat)
    requires r.Valid() && Holds(bucket, points, r, b, k) && k < |p.values|
    requires if Receives(p, r, b, k) then Took(bucket, next, p, k) else SameAt(bucket, next, k)
    ensures Holds(next, points + [p], r, b, k)
  {
    ReceivedStep(points, p, r, b, k);
    assert (points + [p])[..|points|] == points;
  }

  predicate SameAt(bucket: Bucket, next: Bucket, k: nat) {
    && (k in next.sums <==> k in bucket.sums) && (k in next.weights <==> k in bucket.weights)
    && (k in next.sums ==> next.sums[k] == bucket.sums[k])
    && (k in next.weights ==> next.weights[k] == bucket.weights[k])
  }

  /** The bucket took in the point's value of series `k`, or had none to take. */
  predicate Took(bucket: Bucket, next: Bucket, p: Point, k: nat)
    requires k < |p.values|
  {
    if p.values[k].Some? then
      && k in next.sums && next.sums[k] == Get(bucket.sums, k) + p.values[k].value * Weight(p)
      && k in next.weights && next.weights[k] == Get(bucket.weights, k) + Weight(p)
    else SameAt(bucket, next, k)
  }

  /** One point enters its bucket, series by series. */
  method AddPoint(bucket: Bucket, point: Point, series: nat) returns (next: Bucket)
    requires |point.values| == series
    ensures next.at == bucket.at
    ensures forall k :: 0 <= k < series ==> Took(bucket, next, point, k)
  {
    next := bucket;
    for n := 0 to series
      invariant next.at == bucket.at
      invariant forall k :: 0 <= k < n ==> Took(bucket, next, point, k)
      invariant forall k :: n <= k < series ==> SameAt(bucket, next, k)
    {
      ghost var before := next;
      assert SameAt(bucket, before, n);
      if point.values[n].Some? {
        next := AddValue(next, n, point.values[n].value, Weight(point));
      }
      forall k | 0 <= k < series && k != n
        ensures if k < n then Took(bucket, next, point, k) else SameAt(bucket, next, k)
      {
        assert if k < n then Took(bucket, before, point, k) else SameAt(bucket, before, k);
      }
    }
  }

  predicate AllHold(buckets: seq<Bucket>, points: seq<Point>, r: Range, series: nat)
    requires r.Valid()
  {
    forall b, k :: 0 <= b < |buckets| && 0 <= k < series ==> Holds(buckets[b], points, r, b, k)
  }

  method Accumulate(points: seq<Point>, r: Range, series: nat) returns (buckets: seq<Bucket>)
    requires r.Valid() && WellFormed(points, series)
    ensures |buckets| == r.Count() && AllHold(buckets, points, r, series)
    ensures forall b :: 0 <= b < |buckets| ==> buckets[b].at == r.Middle(b)
  {
    buckets := seq(r.Count(), i requires 0 <= i < r.Count() => Bucket(r.Middle(i), map[], map[]));
    for n := 0 to |points|
      invariant |buckets| == r.Count() && AllHold(buckets, points[..n], r, series)
      invariant forall b :: 0 <= b < |buckets| ==> buckets[b].at == r.Middle(b)
    {
      var point := points[n];
      assert point in points;
      ghost var before := buckets;
      if r.start <= point.at <= r.end {
        r.Buckets(point.at);
        var b := r.BucketOf(point.at);
        var next := AddPoint(buckets[b], point, series);
        buckets := buckets[b := next];
      }
      ghost var sofar := points[..n + 1];
      assert sofar == points[..n] + [point];
      forall b, k | 0 <= b < |buckets| && 0 <= k < series ensures Holds(buckets[b], sofar, r, b, k) {
        assert Holds(before[b], points[..n], r, b, k);
        if InRange(point, r) {
          r.BucketCovers(point.at, b);
        }
        if InRange(point, r) && b == r.BucketOf(point.at) {
          assert Took(before[b], buckets[b], point, k);
        } else {
          assert SameAt(before[b], buckets[b], k);
        }
        HoldsStep(before[b], buckets[b], points[..n], point, r, b, k);
      }
    }
    assert points[..|points|] == points;
  }

  lemma {:induction false} PositiveWeight(points: seq<Point>, r: Range, b: nat, k: nat)
    requires r.Valid() && Positive(points)
    ensures WeightOf(points, r, b, k) >= 0.0
    ensures Received(points, r, b, k) ==> WeightOf(points, r, b, k) > 0.0
  {
    if points != [] {
      var n := |points| - 1;
      assert forall p <- points[..n] :: p in points;
      PositiveWeight(points[..n], r, b, k);
      assert points[n] in points;
      assert points == points[..n] + [points[n]];
      ReceivedStep(points[..n], points[n], r, b, k);
    }
  }

  /** The mean a bucket shows of one series. */
  function CellOf(bucket: Bucket, k: nat): Cell
    requires k in bucket.weights ==> k in bucket.sums
  {
    if k !in bucket.weights then Missing
    else if bucket.weights[k] == 0.0 then NotFinite
    else Mean(bucket.sums[k] / bucket.weights[k])
  }

  lemma CellShows(bucket: Bucket, points: seq<Point>, r: Range, b: nat, k: nat)
    requires r.Valid() && Holds(bucket, points, r, b, k)
    ensures Shows(CellOf(bucket, k), points, r, b, k)
  {
    if k in bucket.weights && bucket.weights[k] != 0.0 {
      Undivide(bucket.sums[k], bucket.weights[k]);
    }
  }

  /** One row of the chart. */
  method ShowBucket(bucket: Bucket, ghost points: seq<Point>, ghost r: Range, series: nat, ghost b: nat) returns (values: seq<Cell>)
    requires r.Valid() && forall k :: 0 <= k < series ==> Holds(bucket, points, r, b, k)
    ensures |values| == series
    ensures forall k :: 0 <= k < series ==> Shows(values[k], points, r, b, k)
  {
    values := [];
    for k := 0 to series
      invariant |values| == k
      invariant forall j :: 0 <= j < k ==> Shows(values[j], points, r, b, j)
    {
      assert Holds(bucket, points, r, b, k);
      CellShows(bucket, points, r, b, k);
      values := values + [CellOf(bucket, k)];
    }
  }

  /** Empty input, an empty range or no interval give no rows; otherwise one row per interval, at its middle. */
  method AverageChartPoints(points: seq<Point>, r: Range, series: nat) returns (result: seq<Average>)
    requires WellFormed(points, series)
    ensures points == [] || !r.Valid() ==> result == []
    ensures points != [] && r.Valid() ==>
              && |result| == r.Count()
              && (forall b :: 0 <= b < |result| ==>
                    && result[b].at == r.Middle(b) && result[b].resolutionMs == r.interval
                    && |result[b].values| == series)
              && (forall b, k :: 0 <= b < |result| && 0 <= k < series ==>
                    Shows(result[b].values[k], points, r, b, k))
  {
    if points == [] || r.end <= r.start || r.interval <= 0 {
      return [];
    }
    var buckets := Accumulate(points, r, series);
    result := [];
    for b := 0 to |buckets|
      invariant |result| == b
      invariant forall c :: 0 <= c < b ==>
                  && result[c].at == r.Middle(c) && result[c].resolutionMs == r.interval
                  && |result[c].values| == series
      invariant forall c, k :: 0 <= c < b && 0 <= k < series ==> Shows(result[c].values[k], points, r, c, k)
    {
      var values := ShowBucket(buckets[b], points, r, series, b);
      result := result + [Average(buckets[b].at, r.interval, values)];
    }
  }

  lemma Undivide(s: real, w: real)
    requires w != 0.0
    ensures s / w * w == s
  {
  }

  // ---- What the averages mean ----

  /** `sum` is what weight `total` of values between `lo` and `hi` can add up to. */
  predicate Between(lo: real, hi: real, total: real, sum: real) {
    lo * total <= sum && sum <= hi * total
  }

  /** Everything bucket `b` receives of series `k` lies between `lo` and `hi`. */
  ghost predicate Within(points: seq<Point>, r: Range, b: nat, k: nat, lo: real, hi: real)
    requires r.Valid()
  {
    forall p <- points :: Receives(p, r, b, k) ==> lo <= p.values[k].value <= hi
  }

  lemma WithoutLast(points: seq<Point>, r: Range, b: nat, k: nat, lo: real, hi: real)
    requires r.Valid() && points != [] && Positive(points) && Within(points, r, b, k, lo, hi)
    ensures var front, p := points[..|points| - 1], points[|points| - 1];
            && Positive(front) && Within(front, r, b, k, lo, hi) && Weight(p) > 0.0
            && (Receives(p, r, b, k) ==> lo <= p.values[k].value <= hi)
  {
    assert points[|points| - 1] in points;
    forall q <- points[..|points| - 1] ensures q in points {}
  }

  lemma {:induction false} SumBounds(points: seq<Point>, r: Range, b: nat, k: nat, lo: real, hi: real)
    requires r.Valid() && Positive(points) && Within(points, r, b, k, lo, hi)
    ensures Between(lo, hi, WeightOf(points, r, b, k), SumOf(points, r, b, k))
  {
    if points != [] {
      var front, p := points[..|points| - 1], points[|points| - 1];
      WithoutLast(points, r, b, k, lo, hi);
      SumBounds(front, r, b, k, lo, hi);
      var total, sum := WeightOf(front, r, b, k), SumOf(front, r, b, k);
      if Receives(p, r, b, k) {
        var value, weight := p.values[k].value, Weight(p);
        BoundStep(lo, value, hi, total, weight, sum);
        assert WeightOf(points, r, b, k) == total + weight && SumOf(points, r, b, k) == sum + value * weight;
      } else {
        assert WeightOf(points, r, b, k) == total && SumOf(points, r, b, k) == sum;
      }
    }
  }

  lemma BoundStep(lo: real, v: real, hi: real, total: real, w: real, sum: real)
    requires Between(lo, hi, total, sum) && lo <= v <= hi && w > 0.0
    ensures Between(lo, hi, total + w, sum + v * w)
  {
    assert (v - lo) * w >= 0.0 && (hi - v) * w >= 0.0;
  }

  lemma Bounded(lo: real, x: real, hi: real, total: real, sum: real)
    requires total > 0.0 && Between(lo, hi, total, sum) && x * total == sum
    ensures lo <= x <= hi
  {
    assert lo > x ==> (lo - x) * total > 0.0;
    assert x > hi ==> (x - hi) * total > 0.0;
  }

  lemma Lowest(points: seq<Point>, r: Range, b: nat, k: nat) returns (i: nat)
    requires r.Valid() && Received(points, r, b, k)
    ensures i < |points| && Receives(points[i], r, b, k)
    ensures forall p <- points :: Receives(p, r, b, k) ==> points[i].values[k].value <= p.values[k].value
  {
    i :| 0 <= i < |points| && Receives(points[i], r, b, k);
    for n := 0 to |points|
      invariant i < |points| && Receives(points[i], r, b, k)
      invariant forall j :: 0 <= j < n && Receives(points[j], r, b, k) ==>
                  points[i].values[k].value <= points[j].values[k].value
    {
      if Receives(points[n], r, b, k) && points[n].values[k].value < points[i].values[k].value {
        i := n;
      }
    }
  }

  lemma Highest(points: seq<Point>, r: Range, b: nat, k: nat) returns (i: nat)
    requires r.Valid() && Received(points, r, b, k)
    ensures i < |points| && Receives(points[i], r, b, k)
    ensures forall p <- points :: Receives(p, r, b, k) ==> p.values[k].value <= points[i].values[k].value
  {
    i :| 0 <= i < |points| && Receives(points[i], r, b, k);
    for n := 0 to |points|
      invariant i < |points| && Receives(points[i], r, b, k)
      invariant forall j :: 0 <= j < n && Receives(points[j], r, b, k) ==>
                  points[j].values[k].value <= points[i].values[k].value
    {
      if Receives(points[n], r, b, k) && points[n].values[k].value > points[i].values[k].value {
        i := n;
      }
    }
  }

  /** With positive weights a bucket that received something shows a finite mean. */
  lemma PositiveIsFinite(cell: Cell, points: seq<Point>, r: Range, b: nat, k: nat)
    requires r.Valid() && Positive(points) && Shows(cell, points, r, b, k)
    ensures !cell.NotFinite? && (cell.Mean? <==> Received(points, r, b, k))
  {
    PositiveWeight(points, r, b, k);
  }

  lemma MeanIsWithin(cell: Cell, points: seq<Point>, r: Range, b: nat, k: nat, lo: real, hi: real)
    requires r.Valid() && Positive(points) && Shows(cell, points, r, b, k) && cell.Mean? && Within(points, r, b, k, lo, hi)
    ensures lo <= cell.value <= hi
  {
    PositiveWeight(points, r, b, k);
    SumBounds(points, r, b, k, lo, hi);
    Bounded(lo, cell.value, hi, WeightOf(points, r, b, k), SumOf(points, r, b, k));
  }

  /** With positive weights an average lies between the smallest and the largest value its bucket received. */
  lemma AverageIsBetween(cell: Cell, points: seq<Point>, r: Range, b: nat, k: nat)
    returns (low: nat, high: nat)
    requires r.Valid() && Positive(points) && Shows(cell, points, r, b, k) && cell.Mean?
    ensures low < |points| && Receives(points[low], r, b, k)
    ensures high < |points| && Receives(points[high], r, b, k)
    ensures points[low].values[k].value <= cell.value <= points[high].values[k].value
    ensures Within(points, r, b, k, points[low].values[k].value, points[high].values[k].value)
  {
    low := Lowest(points, r, b, k);
    high := Highest(points, r, b, k);
    MeanIsWithin(cell, points, r, b, k, points[low].values[k].value, points[high].values[k].value);
  }

  // ---- Conservation ----

  function SumOver(points: seq<Point>, r: Range, k: nat, n: nat): real
    requires r.Valid()
  {
    if n == 0 then 0.0 else SumOver(points, r, k, n - 1) + SumOf(points, r, n - 1, k)
  }

  function Back(cell: Cell, weight: real): real {
    if cell.Mean? then cell.value * weight else 0.0
  }

  /** The averages of series `k` over the first `n` rows, each times its bucket's weight. */
  function WeighedBack(result: seq<Average>, points: seq<Point>, r: Range, k: nat, n: nat): real
    requires r.Valid() && n <= |result| && forall b :: 0 <= b < n ==> k < |result[b].values|
  {
    if n == 0 then 0.0
    else
      WeighedBack(result, points, r, k, n - 1) + Back(result[n - 1].values[k], WeightOf(points, r, n - 1, k))
  }

  /** What the buckets without a finite mean had received. */
  function Lost(result: seq<Average>, points: seq<Point>, r: Range, k: nat, n: nat): real
    requires r.Valid() && n <= |result| && forall b :: 0 <= b < n ==> k < |result[b].values|
  {
    if n == 0 then 0.0
    else
      Lost(result, points, r, k, n - 1) + if result[n - 1].values[k].NotFinite? then SumOf(points, r, n - 1, k) else 0.0
  }

  lemma {:induction false} NothingReceived(points: seq<Point>, r: Range, b: nat, k: nat)
    requires r.Valid() && !Received(points, r, b, k)
    ensures SumOf(points, r, b, k) == 0.0
  {
    if points != [] {
      var n := |points| - 1;
      assert points == points[..n] + [points[n]];
      ReceivedStep(points[..n], points[n], r, b, k);
      NothingReceived(points[..n], r, b, k);
    }
  }

  lemma {:induction false} WeighedBackIsSum(result: seq<Average>, points: seq<Point>, r: Range, k: nat, n: nat)
    requires r.Valid() && n <= |result| && forall b :: 0 <= b < n ==> k < |result[b].values|
    requires forall b :: 0 <= b < n ==> Shows(result[b].values[k], points, r, b, k)
    ensures WeighedBack(result, points, r, k, n) + Lost(result, points, r, k, n) == SumOver(points, r, k, n)
  {
    if n > 0 {
      WeighedBackIsSum(result, points, r, k, n - 1);
      var cell := result[n - 1].values[k];
      assert Shows(cell, points, r, n - 1, k);
      if cell.Missing? {
        NothingReceived(points, r, n - 1, k);
      }
      CellAccounts(cell, Received(points, r, n - 1, k), WeightOf(points, r, n - 1, k), SumOf(points, r, n - 1, k));
    }
  }

  lemma CellAccounts(cell: Cell, received: bool, weight: real, sum: real)
    requires Tells(cell, received, weight, sum) && (cell.Missing? ==> sum == 0.0)
    ensures Back(cell, weight) + (if cell.NotFinite? then sum else 0.0) == sum
  {
  }

  lemma {:induction false} NothingLost(result: seq<Average>, points: seq<Point>, r: Range, k: nat, n: nat)
    requires r.Valid() && n <= |result| && forall b :: 0 <= b < n ==> k < |result[b].values|
    requires forall b :: 0 <= b < n ==> !result[b].values[k].NotFinite?
    ensures Lost(result, points, r, k, n) == 0.0
  {
    if n > 0 {
      NothingLost(result, points, r, k, n - 1);
    }
  }

  /** One more point adds its share to exactly one bucket. */
  lemma {:induction false} SumOverStep(points: seq<Point>, p: Point, r: Range, k: nat, n: nat)
    requires r.Valid()
    ensures SumOver(points + [p], r, k, n)
            == SumOver(points, r, k, n)
               + if InRange(p, r) && k < |p.values| && p.values[k].Some? && 0 <= r.BucketOf(p.at) < n
                 then p.values[k].value * Weight(p) else 0.0
  {
    if n > 0 {
      SumOverStep(points, p, r, k, n - 1);
      if InRange(p, r) {
        r.BucketCovers(p.at, n - 1);
      }
      assert (points + [p])[..|points|] == points;
    }
  }

  lemma {:induction false} NoPoints(r: Range, k: nat, n: nat)
    requires r.Valid()
    ensures SumOver([], r, k, n) == 0.0
  {
    if n > 0 {
      NoPoints(r, k, n - 1);
    }
  }

  lemma {:induction false} BucketsPartition(points: seq<Point>, r: Range, k: nat)
    requires r.Valid()
    ensures SumOver(points, r, k, r.Count()) == TotalOf(points, r, k)
  {
    if points == [] {
      NoPoints(r, k, r.Count());
    } else {
      var n := |points| - 1;
      BucketsPartition(points[..n], r, k);
      SumOverStep(points[..n], points[n], r, k, r.Count());
      assert points == points[..n] + [points[n]];
      r.Buckets(points[n].at);
    }
  }

  /**
   * For every input the averages times their bucket weights, and what went into
   * buckets without a finite mean, add up to the weighted sum of all points in
   * range; with positive weights the averages account for all of it.
   */
  lemma AveragesConserve(result: seq<Average>, points: seq<Point>, r: Range, series: nat, k: nat)
    requires r.Valid() && k < series && |result| == r.Count()
    requires forall b :: 0 <= b < |result| ==> |result[b].values| == series
    requires forall b :: 0 <= b < |result| ==> Shows(result[b].values[k], points, r, b, k)
    ensures WeighedBack(result, points, r, k, |result|) + Lost(result, points, r, k, |result|) == TotalOf(points, r, k)
    ensures Positive(points) ==> WeighedBack(result, points, r, k, |result|) == TotalOf(points, r, k)
  {
    WeighedBackIsSum(result, points, r, k, |result|);
    BucketsPartition(points, r, k);
    if Positive(points) {
      forall b | 0 <= b < |result| ensures !result[b].values[k].NotFinite? {
        PositiveIsFinite(result[b].values[k], points, r, b, k);
      }
      NothingLost(result, points, r, k, |result|);
    }
  }
}
