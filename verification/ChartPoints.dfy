/**
 Reducing chart rows for drawing: per bucket the edges and the extrema of each
 series, plus both sides of every gap. Each row holds the same series.
 */
module ChartPoints {
  import opened Common

  datatype Row = Row(at: int, values: seq<Option<real>>)

  predicate Uniform(points: seq<Row>, series: nat) {
    forall i :: 0 <= i < |points| ==> |points[i].values| == series
  }

  /** Every row has series `k` and those before it. */
  predicate Has(points: seq<Row>, k: int) {
    forall j :: 0 <= j < |points| ==> k < |points[j].values|
  }

  predicate Gap(points: seq<Row>, i: nat, k: nat)
    requires i < |points| && k < |points[i].values|
  {
    points[i].values[k].None?
  }

  // ---- What must be kept ----

  /** A gap row next to a measured row is kept together with it. */
  predicate EdgeKept(points: seq<Row>, keep: set<nat>, k: nat, i: nat)
    requires i < |points| && Has(points, k)
  {
    Gap(points, i, k) ==>
      && (i > 0 && !Gap(points, i - 1, k) ==> i - 1 in keep && i in keep)
      && (i + 1 < |points| && !Gap(points, i + 1, k) ==> i in keep && i + 1 in keep)
  }

  /** Row `m` of the bucket is as low as any measured row of it; it is a gap only if all are. */
  predicate IsLowest(points: seq<Row>, k: nat, start: nat, end: nat, m: nat)
    requires start <= end <= |points| && Has(points, k)
  {
    && start <= m < end
    && forall i :: start <= i < end && !Gap(points, i, k) ==>
         !Gap(points, m, k) && points[m].values[k].value <= points[i].values[k].value
  }

  predicate IsHighest(points: seq<Row>, k: nat, start: nat, end: nat, m: nat)
    requires start <= end <= |points| && Has(points, k)
  {
    && start <= m < end
    && forall i :: start <= i < end && !Gap(points, i, k) ==>
         !Gap(points, m, k) && points[m].values[k].value >= points[i].values[k].value
  }

  predicate ExtremaKept(points: seq<Row>, keep: set<nat>, k: nat, start: nat, end: nat)
    requires start <= end <= |points| && Has(points, k)
  {
    && (exists m :: m in keep && IsLowest(points, k, start, end, m))
    && (exists m :: m in keep && IsHighest(points, k, start, end, m))
  }

  /** Everything one bucket contributes for its first `series` series. */
  predicate BucketKept(points: seq<Row>, keep: set<nat>, series: nat, start: nat, end: nat)
    requires start < end <= |points| && Has(points, series - 1)
  {
    && start in keep && end - 1 in keep
    && forall k :: 0 <= k < series ==> SeriesKept(points, keep, k, start, end)
  }

  predicate SeriesKept(points: seq<Row>, keep: set<nat>, k: nat, start: nat, end: nat)
    requires start <= end <= |points| && Has(points, k)
  {
    && ExtremaKept(points, keep, k, start, end)
    && forall i :: start <= i < end ==> EdgeKept(points, keep, k, i)
  }

  lemma SeriesKeptGrows(points: seq<Row>, keep: set<nat>, more: set<nat>, k: nat, start: nat, end: nat)
    requires start <= end <= |points| && Has(points, k)
    requires keep <= more && SeriesKept(points, keep, k, start, end)
    ensures SeriesKept(points, more, k, start, end)
  {
    forall i | start <= i < end ensures EdgeKept(points, more, k, i) {
      assert EdgeKept(points, keep, k, i);
    }
  }

  /** The first `upTo` series have their extrema and gap edges. */
  predicate FirstKept(points: seq<Row>, keep: set<nat>, upTo: nat, start: nat, end: nat)
    requires start <= end <= |points| && Has(points, upTo - 1)
  {
    forall k :: 0 <= k < upTo ==> SeriesKept(points, keep, k, start, end)
  }

  lemma NextKept(points: seq<Row>, before: set<nat>, keep: set<nat>, k: nat, start: nat, end: nat)
    requires start <= end <= |points| && Has(points, k) && before <= keep
    requires FirstKept(points, before, k, start, end) && SeriesKept(points, keep, k, start, end)
    ensures FirstKept(points, keep, k + 1, start, end)
  {
    forall j | 0 <= j < k ensures SeriesKept(points, keep, j, start, end) {
      SeriesKeptGrows(points, before, keep, j, start, end);
    }
  }

  // ---- How many rows the gaps can cost ----

  /** Gap edges charged to row `i`: a measured neighbour on either side of a gap. */
  function EdgesAt(points: seq<Row>, k: nat, i: nat): nat
    requires i < |points| && Has(points, k)
  {
    if !Gap(points, i, k) then 0
    else (if i > 0 && !Gap(points, i - 1, k) then 1 else 0)
         + (if i + 1 < |points| && !Gap(points, i + 1, k) then 1 else 0)
  }

  function Edges(points: seq<Row>, k: nat, start: nat, end: nat): nat
    requires start <= end <= |points| && Has(points, k)
    decreases end
  {
    if start == end then 0 else Edges(points, k, start, end - 1) + EdgesAt(points, k, end - 1)
  }

  /** How often series `k` changes between measured and gap over the first `n` rows. */
  function Changes(points: seq<Row>, k: nat, n: nat): nat
    requires n <= |points| && Has(points, k)
  {
    if n <= 1 then 0
    else Changes(points, k, n - 1) + if Gap(points, n - 2, k) != Gap(points, n - 1, k) then 1 else 0
  }

  function TotalChanges(points: seq<Row>, series: nat): nat
    requires Has(points, series - 1)
  {
    if series == 0 then 0 else TotalChanges(points, series - 1) + Changes(points, series - 1, |points|)
  }

  function AllEdges(points: seq<Row>, series: nat, start: nat, end: nat): nat
    requires start <= end <= |points| && Has(points, series - 1)
  {
    if series == 0 then 0 else AllEdges(points, series - 1, start, end) + Edges(points, series - 1, start, end)
  }

  lemma {:induction false} EdgesJoin(points: seq<Row>, k: nat, start: nat, mid: nat, end: nat)
    requires start <= mid <= end <= |points| && Has(points, k)
    ensures Edges(points, k, start, end) == Edges(points, k, start, mid) + Edges(points, k, mid, end)
    decreases end
  {
    if mid < end {
      EdgesJoin(points, k, start, mid, end - 1);
    }
  }

  lemma {:induction false} AllEdgesJoin(points: seq<Row>, series: nat, start: nat, mid: nat, end: nat)
    requires start <= mid <= end <= |points| && Has(points, series - 1)
    ensures AllEdges(points, series, start, end) == AllEdges(points, series, start, mid) + AllEdges(points, series, mid, end)
  {
    if series > 0 {
      AllEdgesJoin(points, series - 1, start, mid, end);
      EdgesJoin(points, series - 1, start, mid, end);
    }
  }

  /** Each change has one gap side, so it is charged once; a change at the open end is charged ahead. */
  lemma {:induction false} EdgesAreChanges(points: seq<Row>, k: nat, n: nat)
    requires n <= |points| && Has(points, k)
    ensures Edges(points, k, 0, n)
            == Changes(points, k, n)
               + if 0 < n < |points| && Gap(points, n - 1, k) && !Gap(points, n, k) then 1 else 0
    decreases n
  {
    if n > 0 {
      EdgesAreChanges(points, k, n - 1);
    }
  }

  lemma {:induction false} AllEdgesAreChanges(points: seq<Row>, series: nat)
    requires Has(points, series - 1)
    ensures AllEdges(points, series, 0, |points|) == TotalChanges(points, series)
  {
    if series > 0 {
      AllEdgesAreChanges(points, series - 1);
      EdgesAreChanges(points, series - 1, |points|);
    }
  }

  // ---- The loops ----

  lemma Adds(keep: set<nat>, a: nat)
    ensures |keep + {a}| <= |keep| + 1
  {
    if a in keep {
      assert keep + {a} == keep;
    }
  }

  lemma EdgesKeptGrow(points: seq<Row>, keep: set<nat>, more: set<nat>, k: nat, start: nat, end: nat)
    requires start <= end <= |points| && Has(points, k) && keep <= more
    requires forall j :: start <= j < end ==> EdgeKept(points, keep, k, j)
    ensures forall j :: start <= j < end ==> EdgeKept(points, more, k, j)
  {
    forall j | start <= j < end ensures EdgeKept(points, more, k, j) {
      assert EdgeKept(points, keep, k, j);
    }
  }

  /** The gap edges at one row. */
  method KeepEdges(points: seq<Row>, k: nat, i: nat, kept: set<nat>) returns (keep: set<nat>)
    requires i < |points| && Has(points, k) && forall j <- kept :: j < |points|
    ensures kept <= keep && forall j <- keep :: j < |points|
    ensures EdgeKept(points, keep, k, i)
    ensures |keep| <= |kept| + 2 * EdgesAt(points, k, i)
  {
    keep := kept;
    if points[i].values[k].None? {
      if i > 0 && points[i - 1].values[k].Some? {
        Adds(keep, i - 1);
        Adds(keep + {i - 1}, i);
        keep := keep + {i - 1} + {i};
      }
      if i + 1 < |points| && points[i + 1].values[k].Some? {
        Adds(keep, i);
        Adds(keep + {i}, i + 1);
        keep := keep + {i} + {i + 1};
      }
    }
  }

  /** One series over one bucket. */
  method ScanSeries(points: seq<Row>, k: nat, start: nat, end: nat, kept: set<nat>) returns (keep: set<nat>)
    requires start < end <= |points| && Has(points, k)
    requires forall i <- kept :: i < |points|
    ensures kept <= keep && forall i <- keep :: i < |points|
    ensures SeriesKept(points, keep, k, start, end)
    ensures |keep| <= |kept| + 2 * Edges(points, k, start, end) + 2
  {
    keep := kept;
    var min, max := start, start;
    for i := start to end
      invariant start <= min < end && start <= max < end
      invariant i > start ==> IsLowest(points, k, start, i, min) && IsHighest(points, k, start, i, max)
      invariant i == start ==> min == start && max == start
      invariant kept <= keep && forall j <- keep :: j < |points|
      invariant forall j :: start <= j < i ==> EdgeKept(points, keep, k, j)
      invariant |keep| <= |kept| + 2 * Edges(points, k, start, i)
    {
      ghost var before := keep;
      keep := KeepEdges(points, k, i, keep);
      EdgesKeptGrow(points, before, keep, k, start, i);
      var value := points[i].values[k];
      if value.Some? {
        if points[min].values[k].None? || value.value < points[min].values[k].value {
          min := i;
        }
        if points[max].values[k].None? || value.value > points[max].values[k].value {
          max := i;
        }
      }
    }
    Adds(keep, min);
    Adds(keep + {min}, max);
    ghost var before := keep;
    keep := keep + {min} + {max};
    assert min in keep && max in keep;
    EdgesKeptGrow(points, before, keep, k, start, end);
  }

  method ScanBucket(points: seq<Row>, series: nat, start: nat, end: nat, kept: set<nat>) returns (keep: set<nat>)
    requires start < end <= |points| && Has(points, series - 1)
    requires forall i <- kept :: i < |points|
    ensures kept <= keep && forall i <- keep :: i < |points|
    ensures BucketKept(points, keep, series, start, end)
    ensures |keep| <= |kept| + 2 + 2 * series + 2 * AllEdges(points, series, start, end)
  {
    Adds(kept, start);
    Adds(kept + {start}, end - 1);
    keep := kept + {start} + {end - 1};
    for k := 0 to series
      invariant kept + {start, end - 1} <= keep && forall i <- keep :: i < |points|
      invariant FirstKept(points, keep, k, start, end)
      invariant |keep| <= |kept| + 2 + 2 * k + 2 * AllEdges(points, k, start, end)
    {
      ghost var before := keep;
      keep := ScanSeries(points, k, start, end, keep);
      NextKept(points, before, keep, k, start, end);
    }
  }

  /** Rows per bucket, rounded up; no buckets at all means one bucket over everything. */
  function BucketSize(n: nat, buckets: nat): (size: nat)
    requires n > 0
    ensures size > 0 && (if buckets == 0 then size == n else (size - 1) * buckets < n <= size * buckets)
  {
    if buckets == 0 then n else CeilingCovers(n, buckets); (n + buckets - 1) / buckets
  }

  lemma CeilingCovers(n: nat, buckets: nat)
    requires n > 0 && buckets > 0
    ensures var size := (n + buckets - 1) / buckets; size > 0 && (size - 1) * buckets < n <= size * buckets
  {
    var size := (n + buckets - 1) / buckets;
    assert n + buckets - 1 == size * buckets + (n + buckets - 1) % buckets;
    assert size <= 0 ==> size * buckets <= 0;
  }

  /** A bucket whose start is still inside the rows is one of the first `buckets`. */
  lemma BucketsSuffice(n: nat, buckets: nat, size: nat, b: nat)
    requires size * buckets >= n && b * size < n
    ensures b < buckets
  {
    assert b >= buckets ==> b * size >= buckets * size;
  }

  /** The end of bucket `b`. */
  function EndOf(n: nat, size: nat, start: nat): nat {
    if start + size < n then start + size else n
  }

  /** Bucket `b`, the rows from `b * size` on, keeps its edges, extrema and gap edges. */
  predicate BucketAt(points: seq<Row>, keep: set<nat>, series: nat, size: nat, b: nat)
    requires size > 0 && b * size < |points| && Has(points, series - 1)
  {
    BucketKept(points, keep, series, b * size, EndOf(|points|, size, b * size))
  }

  ghost predicate AllKept(points: seq<Row>, keep: set<nat>, series: nat, size: nat, upTo: nat)
    requires size > 0 && upTo <= |points| && Has(points, series - 1)
  {
    forall b: nat | b * size < upTo :: BucketAt(points, keep, series, size, b)
  }

  lemma BucketAtGrows(points: seq<Row>, keep: set<nat>, more: set<nat>, series: nat, size: nat, b: nat)
    requires size > 0 && b * size < |points| && Has(points, series - 1)
    requires keep <= more && BucketAt(points, keep, series, size, b)
    ensures BucketAt(points, more, series, size, b)
  {
    forall k | 0 <= k < series ensures SeriesKept(points, more, k, b * size, EndOf(|points|, size, b * size)) {
      SeriesKeptGrows(points, keep, more, k, b * size, EndOf(|points|, size, b * size));
    }
  }

  lemma NextBucket(b: nat, x: nat)
    ensures (b + 1) * x == b * x + x
  {
  }

  /** Adding bucket `b` to the kept buckets before it. */
  lemma BucketAdded(points: seq<Row>, before: set<nat>, keep: set<nat>, series: nat, size: nat, b: nat)
    requires size > 0 && b * size < |points| && Has(points, series - 1) && before <= keep
    requires AllKept(points, before, series, size, b * size)
    requires BucketAt(points, keep, series, size, b)
    ensures AllKept(points, keep, series, size, EndOf(|points|, size, b * size))
  {
    NextBucket(b, size);
    forall c: nat | c * size < EndOf(|points|, size, b * size)
      ensures BucketAt(points, keep, series, size, c)
    {
      SameBucket(b, c, size);
      if c * size < b * size {
        BucketAtGrows(points, before, keep, series, size, c);
      }
    }
  }

  method KeepRows(points: seq<Row>, series: nat, buckets: nat) returns (keep: set<nat>)
    requires points != [] && Uniform(points, series)
    ensures forall i <- keep :: i < |points|
    ensures AllKept(points, keep, series, BucketSize(|points|, buckets), |points|)
    ensures buckets > 0 ==> |keep| <= buckets * (2 + 2 * series) + 2 * TotalChanges(points, series)
  {
    var n := |points|;
    var size := BucketSize(n, buckets);
    keep := {};
    var start := 0;
    ghost var b: nat, last: nat, cost: nat, done: nat := 0, 0, 0, 0;
    while start < n
      invariant 0 <= start == b * size && done == (if start < n then start else n)
      invariant cost == b * (2 + 2 * series)
      invariant b > 0 ==> last + 1 == b && last * size < n
      invariant forall i <- keep :: i < n
      invariant AllKept(points, keep, series, size, done)
      invariant |keep| <= cost + 2 * AllEdges(points, series, 0, done)
    {
      var end := if start + size < n then start + size else n;
      ghost var before := keep;
      keep := ScanBucket(points, series, start, end, keep);
      AllEdgesJoin(points, series, 0, start, end);
      BucketAdded(points, before, keep, series, size, b);
      NextBucket(b, size);
      NextBucket(b, 2 + 2 * series);
      last, cost, done := b, cost + 2 + 2 * series, end;
      b := b + 1;
      start := start + size;
    }
    AllEdgesAreChanges(points, series);
    if buckets > 0 {
      BucketsSuffice(n, buckets, size, last);
      CostBound(b, buckets, 2 + 2 * series);
    }
  }

  lemma CostBound(b: nat, buckets: nat, x: nat)
    requires b <= buckets
    ensures b * x <= buckets * x
  {
  }

  /** Below the end of bucket `b` only the starts of buckets up to `b` lie. */
  lemma SameBucket(b: nat, c: nat, size: nat)
    requires size > 0
    ensures c * size < (b + 1) * size ==> c * size < b * size || c == b
  {
    if c > b {
      assert c * size >= (b + 1) * size;
    } else if c < b {
      assert c * size < b * size;
    }
  }

  // ---- The reduced rows ----

  /** The kept row numbers below `n`, ascending. */
  function Sorted(keep: set<nat>, n: nat): (r: seq<nat>)
    ensures forall i :: 0 <= i < |r| ==> r[i] in keep && r[i] < n
    ensures forall i, j :: 0 <= i < j < |r| ==> r[i] < r[j]
  {
    if n == 0 then [] else if n - 1 in keep then Sorted(keep, n - 1) + [n - 1] else Sorted(keep, n - 1)
  }

  lemma {:induction false} SortedHoldsAll(keep: set<nat>, n: nat)
    ensures forall i :: i in Sorted(keep, n) <==> i in keep && i < n
  {
    if n > 0 {
      SortedHoldsAll(keep, n - 1);
    }
  }

  lemma {:induction false} SortedSize(keep: set<nat>, n: nat)
    requires forall i <- keep :: i < n
    ensures |Sorted(keep, n)| == |keep|
    decreases n
  {
    if n == 0 {
      assert keep == {};
    } else {
      var fewer := keep - {n - 1};
      SortedSize(fewer, n - 1);
      SortedSame(keep, fewer, n - 1);
      if n - 1 in keep {
        assert keep == fewer + {n - 1};
      } else {
        assert keep == fewer;
      }
    }
  }

  lemma {:induction false} SortedSame(a: set<nat>, b: set<nat>, n: nat)
    requires forall i :: 0 <= i < n ==> (i in a <==> i in b)
    ensures Sorted(a, n) == Sorted(b, n)
  {
    if n > 0 {
      SortedSame(a, b, n - 1);
    }
  }

  /** The result shows exactly the rows numbered `kept`, in order. */
  predicate Picks(points: seq<Row>, kept: seq<nat>, result: seq<Row>) {
    && |result| == |kept|
    && (forall i :: 0 <= i < |kept| ==> kept[i] < |points| && result[i] == points[kept[i]])
    && (forall i, j :: 0 <= i < j < |kept| ==> kept[i] < kept[j])
  }

  /** Two neighbouring kept rows that are both measured have no gap row of that series between them. */
  predicate NoGapSkipped(points: seq<Row>, kept: seq<nat>, k: nat)
    requires Has(points, k) && forall i :: 0 <= i < |kept| ==> kept[i] < |points|
  {
    forall a, m | 0 <= a < |kept| - 1 && kept[a] < m < kept[a + 1]
                  && !Gap(points, kept[a], k) && !Gap(points, kept[a + 1], k) :: !Gap(points, m, k)
  }

  /** Every row lies in some bucket, so all gap edges are kept. */
  lemma EveryEdgeKept(points: seq<Row>, keep: set<nat>, series: nat, size: nat, k: nat, i: nat)
    requires size > 0 && Has(points, series - 1) && AllKept(points, keep, series, size, |points|)
    requires k < series && i < |points|
    ensures EdgeKept(points, keep, k, i)
  {
    var b := i / size;
    assert b * size <= i < b * size + size;
    assert BucketAt(points, keep, series, size, b);
    assert SeriesKept(points, keep, k, b * size, EndOf(|points|, size, b * size));
  }

  /** The first and the last row are bucket edges. */
  lemma EndsKept(points: seq<Row>, keep: set<nat>, series: nat, size: nat)
    requires size > 0 && points != [] && Has(points, series - 1) && AllKept(points, keep, series, size, |points|)
    ensures 0 in keep && |points| - 1 in keep
  {
    assert 0 * size == 0;
    assert BucketAt(points, keep, series, size, 0);
    var b := (|points| - 1) / size;
    assert b * size <= |points| - 1 < b * size + size;
    assert BucketAt(points, keep, series, size, b);
  }

  /** Between two kept neighbours the first gap row would have been kept too. */
  lemma {:induction false} FirstGapKept(points: seq<Row>, keep: set<nat>, k: nat, p: nat, m: nat) returns (g: nat)
    requires Has(points, k) && p < m < |points| && !Gap(points, p, k) && Gap(points, m, k)
    requires forall i :: 0 <= i < |points| ==> EdgeKept(points, keep, k, i)
    ensures p < g <= m && g in keep
    decreases m
  {
    if Gap(points, m - 1, k) {
      g := FirstGapKept(points, keep, k, p, m - 1);
    } else {
      assert EdgeKept(points, keep, k, m);
      g := m;
    }
  }

  lemma NothingBetween(kept: seq<nat>, a: nat, g: nat)
    requires a + 1 < |kept| && kept[a] < g < kept[a + 1]
    requires forall i, j :: 0 <= i < j < |kept| ==> kept[i] < kept[j]
    ensures g !in kept
  {
  }

  lemma GapsSurvive(points: seq<Row>, keep: set<nat>, k: nat)
    requires Has(points, k) && forall i :: 0 <= i < |points| ==> EdgeKept(points, keep, k, i)
    ensures NoGapSkipped(points, Sorted(keep, |points|), k)
  {
    var kept := Sorted(keep, |points|);
    SortedHoldsAll(keep, |points|);
    forall a, m | 0 <= a < |kept| - 1 && kept[a] < m < kept[a + 1]
                  && !Gap(points, kept[a], k) && !Gap(points, kept[a + 1], k)
      ensures !Gap(points, m, k)
    {
      if Gap(points, m, k) {
        var g := FirstGapKept(points, keep, k, kept[a], m);
        NothingBetween(kept, a, g);
        assert false;
      }
    }
  }

  function Chosen(kept: seq<nat>): set<nat> {
    set i | i in kept
  }

  function Pick(points: seq<Row>, kept: seq<nat>): (r: seq<Row>)
    requires forall i :: 0 <= i < |kept| ==> kept[i] < |points|
    requires forall i, j :: 0 <= i < j < |kept| ==> kept[i] < kept[j]
    ensures Picks(points, kept, r)
  {
    seq(|kept|, i requires 0 <= i < |kept| => points[kept[i]])
  }

  /** What a selection with all bucket rows kept looks like once sorted. */
  lemma SortedSelection(points: seq<Row>, keep: set<nat>, series: nat, size: nat)
    requires size > 0 && points != [] && Has(points, series - 1)
    requires AllKept(points, keep, series, size, |points|) && forall i <- keep :: i < |points|
    ensures var kept := Sorted(keep, |points|);
            && |kept| == |keep| && Chosen(kept) == keep
            && kept != [] && kept[0] == 0 && kept[|kept| - 1] == |points| - 1
            && forall k :: 0 <= k < series ==> NoGapSkipped(points, kept, k)
  {
    var n := |points|;
    var kept := Sorted(keep, n);
    SortedHoldsAll(keep, n);
    SortedSize(keep, n);
    EndsKept(points, keep, series, size);
    assert 0 in kept && n - 1 in kept;
    forall k | 0 <= k < series ensures NoGapSkipped(points, kept, k) {
      forall i | 0 <= i < n ensures EdgeKept(points, keep, k, i) {
        EveryEdgeKept(points, keep, series, size, k, i);
      }
      GapsSurvive(points, keep, k);
    }
  }

  method Reduce(points: seq<Row>, series: nat, buckets: nat) returns (result: seq<Row>, ghost kept: seq<nat>)
    requires Uniform(points, series) && |points| > 2 * buckets
    ensures Picks(points, kept, result)
    ensures kept != [] && kept[0] == 0 && kept[|kept| - 1] == |points| - 1
    ensures forall k :: 0 <= k < series ==> NoGapSkipped(points, kept, k)
    ensures AllKept(points, Chosen(kept), series, BucketSize(|points|, buckets), |points|)
    ensures buckets > 0 ==> |result| <= buckets * (2 + 2 * series) + 2 * TotalChanges(points, series)
  {
    var keep := KeepRows(points, series, buckets);
    SortedSelection(points, keep, series, BucketSize(|points|, buckets));
    kept := Sorted(keep, |points|);
    result := Pick(points, Sorted(keep, |points|));
  }

  /**
   The reduced rows are an in-order selection that keeps both ends, the extrema
   and edges of every bucket and every gap, within the stated size.
   */
  method ChartPoints(points: seq<Row>, series: nat, buckets: nat) returns (result: seq<Row>, ghost kept: seq<nat>)
    requires Uniform(points, series)
    ensures Picks(points, kept, result)
    ensures |points| <= 2 * buckets ==> result == points
    ensures points != [] ==> kept != [] && kept[0] == 0 && kept[|kept| - 1] == |points| - 1
    ensures forall k :: 0 <= k < series ==> NoGapSkipped(points, kept, k)
    ensures |points| > 2 * buckets ==>
              AllKept(points, Chosen(kept), series, BucketSize(|points|, buckets), |points|)
    ensures |points| > 2 * buckets > 0 ==>
              |result| <= buckets * (2 + 2 * series) + 2 * TotalChanges(points, series)
  {
    var n := |points|;
    if n <= 2 * buckets {
      kept := seq(n, i => i);
      return points, kept;
    }
    result, kept := Reduce(points, series, buckets);
  }
}
