/**
 Metric history: turning readings into samples, adding live samples, and merging
 a disk read into the live history. Times are whole milliseconds, measurements
 are reals. An interface list with a repeated name means its last entry.
 */
module MetricHistory {
  import opened Common

  const HISTORY_MS := 7 * 24 * 60 * 60 * 1000
  const MAX_SAMPLES: nat := 120960
  const GAP_MS := 30000
  const MINUTE_MS := 60000

  datatype Traffic = Traffic(received: real, sent: real, rx: Option<real>, tx: Option<real>)

  datatype Interface = Interface(name: string, traffic: Traffic)

  datatype MetricInput = MetricInput(
    cpu: real, memoryUsed: real, memoryTotal: real, load: seq<real>, uptime: real,
    resolutionMs: Option<int>, gap: bool, network: seq<Interface>)

  /** An input as `makeSample` reads it: first load figure, interfaces by name. */
  datatype Reading = Reading(
    cpu: real, memoryUsed: real, memoryTotal: real, load: Option<real>, uptime: real,
    resolutionMs: Option<int>, gap: bool, network: map<string, Traffic>)

  datatype MetricSample = MetricSample(
    at: int, resolutionMs: Option<int>, incomplete: Option<int>,
    cpu: real, memory: real, load: Option<real>, uptime: real, network: map<string, Traffic>)

  datatype SavedSample = SavedSample(at: int, data: MetricInput)

  function ByName(network: seq<Interface>): map<string, Traffic> {
    if network == [] then map[]
    else
      var last := network[|network| - 1];
      ByName(network[..|network| - 1])[last.name := last.traffic]
  }

  function Read(d: MetricInput): Reading {
    Reading(d.cpu, d.memoryUsed, d.memoryTotal, if d.load == [] then None else Some(d.load[0]), d.uptime,
            d.resolutionMs, d.gap, ByName(d.network))
  }

  /** A live sample as the input it would have come from. */
  function Unmake(p: MetricSample): Reading {
    Reading(p.cpu, p.memory, 100.0, p.load, p.uptime, p.resolutionMs,
            p.incomplete.Some? && p.incomplete.value != 0, p.network)
  }

  // ---- One sample ----

  predicate Continuous(last: Option<MetricSample>, input: Reading, at: int) {
    && last.Some?
    && (last.value.resolutionMs.None? || last.value.resolutionMs.value == 10000)
    && at - last.value.at <= GAP_MS
    && input.uptime >= last.value.uptime
  }

  function Rate(before: real, now: real, elapsedMs: int): Option<real>
    requires elapsedMs > 0
  {
    if now >= before then Some((now - before) / (elapsedMs as real / 1000.0)) else None
  }

  function Rated(last: Option<MetricSample>, input: Reading, at: int, name: string): Traffic
    requires name in input.network && (last.Some? ==> last.value.at < at)
  {
    var n := input.network[name];
    if input.resolutionMs == Some(MINUTE_MS) then n
    else if Continuous(last, input, at) && name in last.value.network then
      var before := last.value.network[name];
      var elapsed := at - last.value.at;
      n.(rx := Rate(before.received, n.received, elapsed), tx := Rate(before.sent, n.sent, elapsed))
    else n.(rx := None, tx := None)
  }

  function MakeSample(last: Option<MetricSample>, input: Reading, at: int): MetricSample
    requires last.Some? ==> last.value.at < at
  {
    MetricSample(
      at,
      Some(if input.resolutionMs.Some? then input.resolutionMs.value else 10000),
      Some(if input.gap then 1 else 0),
      input.cpu,
      if input.memoryTotal != 0.0 then input.memoryUsed / input.memoryTotal * 100.0 else 0.0,
      input.load,
      input.uptime,
      map name | name in input.network :: Rated(last, input, at, name))
  }

  /** Rebuilding a sample from itself after the same predecessor changes nothing. */
  lemma RemadeSample(last: Option<MetricSample>, input: Reading, at: int)
    requires last.Some? ==> last.value.at < at
    ensures var sample := MakeSample(last, input, at); MakeSample(last, Unmake(sample), at) == sample
  {
    var sample := MakeSample(last, input, at);
    var again := MakeSample(last, Unmake(sample), at);
    assert again.memory == sample.memory;
    forall name <- input.network ensures again.network[name] == sample.network[name] {
    }
    assert again.network.Keys == sample.network.Keys;
    assert again.network == sample.network;
  }

  // ---- Times in the window ----

  lemma MinExists(s: set<int>) returns (m: int)
    requires s != {}
    ensures m in s && forall x <- s :: m <= x
    decreases |s|
  {
    assert (forall x :: x !in s) ==> s == {};
    m :| m in s;
    var others := s - {m};
    if others != {} {
      var rest := MinExists(others);
      m := if rest < m then rest else m;
    }
    assert forall x <- s :: x in others || x in s - others;
  }

  lemma MaxExists(s: set<int>) returns (m: int)
    requires s != {}
    ensures m in s && forall x <- s :: x <= m
    decreases |s|
  {
    assert (forall x :: x !in s) ==> s == {};
    m :| m in s;
    var others := s - {m};
    if others != {} {
      var rest := MaxExists(others);
      m := if m < rest then rest else m;
    }
    assert forall x <- s :: x in others || x in s - others;
  }

  function Min(s: set<int>): (m: int)
    requires s != {}
    ensures m in s && forall x <- s :: m <= x
  {
    assert exists m :: m in s && forall x <- s :: m <= x by { var m := MinExists(s); }
    var m :| m in s && forall x <- s :: m <= x;
    m
  }

  function Max(s: set<int>): (m: int)
    requires s != {}
    ensures m in s && forall x <- s :: x <= m
  {
    assert exists m :: m in s && forall x <- s :: x <= m by { var m := MaxExists(s); }
    var m :| m in s && forall x <- s :: x <= m;
    m
  }

  predicate Ascending(times: seq<int>) {
    forall i, j :: 0 <= i < j < |times| ==> times[i] < times[j]
  }

  function Sorted(s: set<int>): (r: seq<int>)
    ensures Ascending(r) && |r| == |s|
    ensures forall x :: x in r <==> x in s
    decreases |s|
  {
    if s == {} then []
    else
      var m := Min(s);
      var rest := Sorted(s - {m});
      assert forall i :: 0 <= i < |rest| ==> rest[i] in rest;
      [m] + rest
  }

  /** The last `limit` times. */
  function Newest(times: seq<int>, limit: nat): seq<int> {
    if |times| <= limit then times else times[|times| - limit..]
  }

  function Recent(s: set<int>): set<int> {
    if s == {} then {} else set x | x in s && x >= Max(s) - HISTORY_MS
  }

  /** The times that survive: within the retention window of the newest, and at most `MAX_SAMPLES`. */
  function Window(s: set<int>): seq<int> {
    Newest(Sorted(Recent(s)), MAX_SAMPLES)
  }

  lemma WindowMembers(s: set<int>)
    ensures Ascending(Window(s)) && |Window(s)| <= MAX_SAMPLES
    ensures forall x <- Window(s) :: x in s && x >= Max(s) - HISTORY_MS
    ensures s != {} ==> Window(s) != [] && Window(s)[|Window(s)| - 1] == Max(s)
  {
    NewestAreMembers(Sorted(Recent(s)), MAX_SAMPLES);
    if s != {} {
      var sorted := Sorted(Recent(s));
      assert Max(s) in sorted;
      LastIsMax(sorted, Max(s));
    }
  }

  lemma LastIsMax(times: seq<int>, m: int)
    requires Ascending(times) && m in times && forall x <- times :: x <= m
    ensures times[|times| - 1] == m
  {
    var i :| 0 <= i < |times| && times[i] == m;
    assert times[|times| - 1] in times;
  }

  lemma NewestOfLonger(m: int, rest: seq<int>, limit: nat)
    requires |rest| >= limit
    ensures Newest([m] + rest, limit) == Newest(rest, limit)
  {
    assert ([m] + rest)[1 + |rest| - limit..] == rest[|rest| - limit..];
  }

  lemma SortedFromMin(a: set<int>)
    requires a != {}
    ensures Sorted(a) == [Min(a)] + Sorted(a - {Min(a)})
  {
  }

  lemma NewestDropsMin(a: set<int>, limit: nat)
    requires |a| > limit
    ensures Newest(Sorted(a), limit) == Newest(Sorted(a - {Min(a)}), limit)
  {
    SortedFromMin(a);
    NewestOfLonger(Min(a), Sorted(a - {Min(a)}), limit);
  }

  lemma MinOfPart(a: set<int>, b: set<int>)
    requires a != {} && b <= a && Min(a) in b
    ensures Min(b) == Min(a)
  {
  }

  /** The smallest time is never among the newest when there are enough others. */
  lemma NewestSkipsMin(rest: set<int>, m: int, b: set<int>, limit: nat)
    requires m !in rest && forall x <- Newest(Sorted(rest), limit) :: x in b
    ensures forall x <- Newest(Sorted(rest), limit) :: x in b - {m}
  {
    var times := Sorted(rest);
    NewestAreMembers(times, limit);
    forall x <- Newest(times, limit) ensures x in b - {m} {
      assert x in times;
    }
  }

  lemma NewestOfPart(rest: set<int>, m: int, b: set<int>, limit: nat)
    requires |rest| >= limit && m in b && Min(b) == m
    requires forall x <- Newest(Sorted(rest), limit) :: x in b - {m}
    ensures Newest(Sorted(b - {m}), limit) == Newest(Sorted(b), limit)
  {
    NewestInside(Sorted(rest), b - {m}, limit);
    assert |b| == |b - {m}| + 1;
    NewestDropsMin(b, limit);
  }

  lemma NewestWithoutMin(a: set<int>, b: set<int>, limit: nat)
    requires |a| > limit && b <= a && forall x <- Newest(Sorted(a), limit) :: x in b
    ensures forall x <- Newest(Sorted(a - {Min(a)}), limit) :: x in b - {Min(a)}
    ensures Newest(Sorted(b - {Min(a)}), limit) == Newest(Sorted(b), limit)
  {
    var m := Min(a);
    NewestDropsMin(a, limit);
    NewestSkipsMin(a - {m}, m, b, limit);
    if m in b {
      MinOfPart(a, b);
      NewestOfPart(a - {m}, m, b, limit);
    } else {
      assert b - {m} == b;
    }
  }

  /** Dropping times outside the newest ones does not change the newest ones. */
  lemma {:induction false} NewestIgnoresDropped(a: set<int>, b: set<int>, limit: nat)
    requires b <= a && forall x <- Newest(Sorted(a), limit) :: x in b
    ensures Newest(Sorted(b), limit) == Newest(Sorted(a), limit)
    decreases |a|
  {
    if |a| <= limit {
      assert forall x <- a :: x in Sorted(a);
      assert a == b;
    } else {
      NewestWithoutMin(a, b, limit);
      NewestDropsMin(a, limit);
      NewestIgnoresDropped(a - {Min(a)}, b - {Min(a)}, limit);
    }
  }

  lemma NewestAreMembers(times: seq<int>, limit: nat)
    requires Ascending(times)
    ensures forall x <- Newest(times, limit) :: x in times
    ensures Ascending(Newest(times, limit)) && |Newest(times, limit)| <= limit
  {
    var n := Newest(times, limit);
    forall x <- n ensures x in times {
      var i :| 0 <= i < |n| && n[i] == x;
      assert x == times[|times| - |n| + i];
    }
  }

  /** A set holding the newest of at least `limit` times has that many too. */
  lemma NewestInside(times: seq<int>, b: set<int>, limit: nat)
    requires Ascending(times) && |times| >= limit && forall x <- Newest(times, limit) :: x in b
    ensures |b| >= limit
  {
    var n := Newest(times, limit);
    NewestAreMembers(times, limit);
    DistinctCount(n);
    SubsetSize(Members(n), b);
  }

  function Members(times: seq<int>): set<int> {
    set x | x in times
  }

  lemma {:induction false} DistinctCount(times: seq<int>)
    requires Ascending(times)
    ensures |Members(times)| == |times|
  {
    if times != [] {
      var rest, last := times[..|times| - 1], times[|times| - 1];
      DistinctCount(rest);
      assert Members(times) == Members(rest) + {last};
      assert last !in rest;
    }
  }

  lemma {:induction false} SubsetSize(a: set<int>, b: set<int>)
    requires a <= b
    ensures |a| <= |b|
    decreases |a|
  {
    if a != {} {
      var x := Min(a);
      SubsetSize(a - {x}, b - {x});
    }
  }

  lemma WindowIgnoresDropped(a: set<int>, b: set<int>)
    requires b <= a && forall x <- Window(a) :: x in b
    ensures Window(b) == Window(a)
  {
    if a != {} {
      WindowMembers(a);
      assert Max(a) in b;
      assert Max(b) == Max(a);
      assert Recent(b) <= Recent(a);
      NewestIgnoresDropped(Recent(a), Recent(b), MAX_SAMPLES);
    } else {
      assert b == {};
    }
  }

  /** How many times of `s` are newer than `x`. */
  function Newer(s: set<int>, x: int): set<int> {
    set y | y in s && y > x
  }

  lemma NewerAt(times: seq<int>, i: nat)
    requires Ascending(times) && i < |times|
    ensures |Newer(Members(times), times[i])| == |times| - i - 1
  {
    var above := times[i + 1..];
    forall y | y in Members(times) && y > times[i] ensures y in above {
      var j :| 0 <= j < |times| && times[j] == y;
      assert above[j - i - 1] == y;
    }
    assert Newer(Members(times), times[i]) == Members(above);
    DistinctCount(above);
  }

  lemma NewestAt(times: seq<int>, limit: nat, i: nat)
    requires Ascending(times) && i < |times|
    ensures times[i] in Newest(times, limit) <==> |times| - i <= limit
  {
    var n := Newest(times, limit);
    if |times| - i <= limit {
      assert n[i - (|times| - |n|)] == times[i];
    }
  }

  lemma NewestMeaning(times: seq<int>, limit: nat, x: int)
    requires Ascending(times)
    ensures x in Newest(times, limit) <==> x in times && |Newer(Members(times), x)| < limit
  {
    NewestAreMembers(times, limit);
    if x in times {
      var i :| 0 <= i < |times| && times[i] == x;
      NewerAt(times, i);
      NewestAt(times, limit, i);
    }
  }

  /** Exactly the times within retention that fewer than `MAX_SAMPLES` newer ones follow survive. */
  lemma WindowMeaning(s: set<int>, x: int)
    requires x in s
    ensures x in Window(s) <==> x >= Max(s) - HISTORY_MS && |Newer(s, x)| < MAX_SAMPLES
  {
    var sorted := Sorted(Recent(s));
    NewestMeaning(sorted, MAX_SAMPLES, x);
    assert Members(sorted) == Recent(s);
    if x >= Max(s) - HISTORY_MS {
      assert Newer(Recent(s), x) == Newer(s, x);
    }
  }

  // ---- Merging a disk read ----

  function Minute(at: int): int {
    at / MINUTE_MS
  }

  /** The disk read holds a one-minute summary for this time's minute. */
  predicate Summarized(saved: seq<SavedSample>, at: int) {
    exists i :: 0 <= i < |saved| && saved[i].data.resolutionMs == Some(MINUTE_MS) && Minute(saved[i].at) == Minute(at)
  }

  function MergeSaved(saved: seq<SavedSample>): map<int, Reading> {
    if saved == [] then map[]
    else
      var last := saved[|saved| - 1];
      MergeSaved(saved[..|saved| - 1])[last.at := Read(last.data)]
  }

  function MergeLive(m: map<int, Reading>, saved: seq<SavedSample>, previous: seq<MetricSample>): map<int, Reading> {
    if previous == [] then m
    else
      var last := previous[|previous| - 1];
      var before := MergeLive(m, saved, previous[..|previous| - 1]);
      if Summarized(saved, last.at) then before else before[last.at := Unmake(last)]
  }

  function Merged(previous: seq<MetricSample>, saved: seq<SavedSample>): map<int, Reading> {
    MergeLive(MergeSaved(saved), saved, previous)
  }

  /** Some sample not covered by a summary has this time. */
  predicate LiveAt(saved: seq<SavedSample>, previous: seq<MetricSample>, at: int) {
    !Summarized(saved, at) && exists i :: 0 <= i < |previous| && previous[i].at == at
  }

  lemma {:induction false} MergedKeys(m: map<int, Reading>, saved: seq<SavedSample>, previous: seq<MetricSample>, at: int)
    ensures var r := MergeLive(m, saved, previous);
            && (at in r <==> at in m || LiveAt(saved, previous, at))
            && (!LiveAt(saved, previous, at) && at in m ==> r[at] == m[at])
  {
    if previous != [] {
      var n := |previous| - 1;
      var front := previous[..n];
      MergedKeys(m, saved, front, at);
      assert LiveAt(saved, front, at) ==> LiveAt(saved, previous, at) by {
        if LiveAt(saved, front, at) {
          var i :| 0 <= i < |front| && front[i].at == at;
          assert previous[i].at == at;
        }
      }
      if LiveAt(saved, previous, at) && previous[n].at != at {
        var i :| 0 <= i < |previous| && previous[i].at == at;
        assert front[i].at == at;
      }
    }
  }

  /** A sample received in this session, and not summarised on disk, wins over the disk read. */
  lemma {:induction false} LiveSamplesWin(m: map<int, Reading>, saved: seq<SavedSample>, previous: seq<MetricSample>, i: nat)
    requires i < |previous| && !Summarized(saved, previous[i].at)
    requires forall j :: i < j < |previous| ==> previous[j].at != previous[i].at
    ensures var r := MergeLive(m, saved, previous); previous[i].at in r && r[previous[i].at] == Unmake(previous[i])
  {
    var n := |previous| - 1;
    if i < n {
      LiveSamplesWin(m, saved, previous[..n], i);
    }
  }

  // ---- Rebuilding the samples ----

  function LastOf(samples: seq<MetricSample>): Option<MetricSample> {
    if samples == [] then None else Some(samples[|samples| - 1])
  }

  predicate TimesAre(samples: seq<MetricSample>, times: seq<int>) {
    |samples| <= |times| && forall i :: 0 <= i < |samples| ==> samples[i].at == times[i]
  }

  predicate Timed(m: map<int, Reading>, times: seq<int>) {
    Ascending(times) && forall i :: 0 <= i < |times| ==> times[i] in m
  }

  /** The next sample after those already built. */
  function NextSample(before: seq<MetricSample>, input: Reading, at: int): MetricSample
    requires before != [] ==> before[|before| - 1].at < at
  {
    MakeSample(LastOf(before), input, at)
  }

  /** The samples at the first `n` times. */
  function Chain(m: map<int, Reading>, times: seq<int>, n: nat): (r: seq<MetricSample>)
    requires Timed(m, times) && n <= |times|
    ensures |r| == n && TimesAre(r, times)
  {
    if n == 0 then []
    else
      var before := Chain(m, times, n - 1);
      before + [NextSample(before, m[times[n - 1]], times[n - 1])]
  }

  function Restored(previous: seq<MetricSample>, saved: seq<SavedSample>): seq<MetricSample> {
    var m := Merged(previous, saved);
    WindowMembers(m.Keys);
    var times := Window(m.Keys);
    assert forall i :: 0 <= i < |times| ==> times[i] in times;
    Chain(m, times, |times|)
  }

  /** The restored history: strictly increasing, within retention of its newest sample, and bounded. */
  lemma RestoredShape(previous: seq<MetricSample>, saved: seq<SavedSample>)
    ensures var r := Restored(previous, saved);
            && |r| <= MAX_SAMPLES
            && (forall i, j :: 0 <= i < j < |r| ==> r[i].at < r[j].at)
            && (forall i :: 0 <= i < |r| ==> r[i].at >= r[|r| - 1].at - HISTORY_MS)
            && (r == [] ==> saved == [] && previous == [])
  {
    var m := Merged(previous, saved);
    var w := Window(m.Keys);
    var r := Restored(previous, saved);
    WindowMembers(m.Keys);
    assert TimesAre(r, w);
    forall i | 0 <= i < |r| ensures r[i].at >= r[|r| - 1].at - HISTORY_MS {
      assert w[i] in w;
    }
    if saved != [] || previous != [] {
      SomethingMerged(previous, saved);
    }
  }

  lemma SomethingMerged(previous: seq<MetricSample>, saved: seq<SavedSample>)
    requires saved != [] || previous != []
    ensures Merged(previous, saved).Keys != {}
  {
    if saved != [] {
      var last := saved[|saved| - 1];
      MergedKeys(MergeSaved(saved), saved, previous, last.at);
      assert last.at in MergeSaved(saved);
      assert last.at in Merged(previous, saved).Keys;
    } else {
      var last := previous[|previous| - 1];
      assert !Summarized(saved, last.at);
      assert last.at in Merged(previous, saved).Keys;
    }
  }

  /** `again` may replace an input by what was made of it. */
  predicate SameOrRemade(m: map<int, Reading>, again: map<int, Reading>, at: int, made: MetricSample) {
    at in m && at in again && (again[at] == m[at] || again[at] == Unmake(made))
  }

  lemma RemadeNext(before: seq<MetricSample>, m: map<int, Reading>, again: map<int, Reading>, at: int)
    requires before != [] ==> before[|before| - 1].at < at
    requires at in m && SameOrRemade(m, again, at, NextSample(before, m[at], at))
    ensures NextSample(before, again[at], at) == NextSample(before, m[at], at)
  {
    RemadeSample(LastOf(before), m[at], at);
  }

  lemma {:induction false} ChainAgain(m: map<int, Reading>, again: map<int, Reading>, times: seq<int>, n: nat)
    requires Timed(m, times) && Timed(again, times) && n <= |times|
    requires forall i :: 0 <= i < n ==> SameOrRemade(m, again, times[i], Chain(m, times, n)[i])
    ensures Chain(again, times, n) == Chain(m, times, n)
  {
    if n > 0 {
      forall i | 0 <= i < n - 1 ensures SameOrRemade(m, again, times[i], Chain(m, times, n - 1)[i]) {
        assert SameOrRemade(m, again, times[i], Chain(m, times, n)[i]);
      }
      ChainAgain(m, again, times, n - 1);
      assert SameOrRemade(m, again, times[n - 1], Chain(m, times, n)[n - 1]);
      RemadeNext(Chain(m, times, n - 1), m, again, times[n - 1]);
    }
  }

  /** What a second merge with the restored history starts from at one of its times. */
  lemma MergedAgain(previous: seq<MetricSample>, saved: seq<SavedSample>, i: nat)
    requires i < |Restored(previous, saved)|
    ensures var r := Restored(previous, saved);
            var m, again := Merged(previous, saved), Merged(r, saved);
            && r[i].at in m && r[i].at in again
            && (again[r[i].at] == m[r[i].at] || again[r[i].at] == Unmake(r[i]))
  {
    var r := Restored(previous, saved);
    var m := Merged(previous, saved);
    var base := MergeSaved(saved);
    var at := r[i].at;
    RestoredShape(previous, saved);
    WindowMembers(m.Keys);
    assert Window(m.Keys)[i] == at;
    assert at in Window(m.Keys);
    MergedKeys(base, saved, previous, at);
    MergedKeys(base, saved, r, at);
    if !Summarized(saved, at) {
      LiveSamplesWin(base, saved, r, i);
    }
  }

  /** The second merge adds no time and loses none that survives. */
  lemma SameWindow(previous: seq<MetricSample>, saved: seq<SavedSample>)
    ensures var m, again := Merged(previous, saved), Merged(Restored(previous, saved), saved);
            Window(again.Keys) == Window(m.Keys)
  {
    var r := Restored(previous, saved);
    var m, again := Merged(previous, saved), Merged(r, saved);
    var base := MergeSaved(saved);
    WindowMembers(m.Keys);
    var w := Window(m.Keys);
    forall at <- again.Keys ensures at in m.Keys {
      MergedKeys(base, saved, previous, at);
      MergedKeys(base, saved, r, at);
      if at !in base {
        var i :| 0 <= i < |r| && r[i].at == at;
        assert w[i] == at && at in w;
      }
    }
    forall at <- w ensures at in again.Keys {
      var i :| 0 <= i < |w| && w[i] == at;
      assert r[i].at == at;
      MergedAgain(previous, saved, i);
    }
    WindowIgnoresDropped(m.Keys, again.Keys);
  }

  /** Restoring from the same disk read a second time changes nothing, whatever the inputs. */
  lemma RestoreIsIdempotent(previous: seq<MetricSample>, saved: seq<SavedSample>)
    ensures Restored(Restored(previous, saved), saved) == Restored(previous, saved)
  {
    var r := Restored(previous, saved);
    var m, again := Merged(previous, saved), Merged(r, saved);
    var w := Window(m.Keys);
    WindowMembers(m.Keys);
    SameWindow(previous, saved);
    WindowMembers(again.Keys);
    forall i | 0 <= i < |w|
      ensures SameOrRemade(m, again, w[i], Chain(m, w, |w|)[i])
    {
      assert r[i].at == w[i];
      MergedAgain(previous, saved, i);
    }
    ChainAgain(m, again, w, |w|);
  }

  // ---- The method ----

  /** `minutes` are those the first `n` saved samples hold summaries for. */
  ghost predicate SummaryMinutes(saved: seq<SavedSample>, n: nat, minutes: set<int>)
    requires n <= |saved|
  {
    forall at :: Minute(at) in minutes <==> Summarized(saved[..n], at)
  }

  lemma NextSummary(saved: seq<SavedSample>, n: nat, before: set<int>, after: set<int>)
    requires n < |saved| && SummaryMinutes(saved, n, before)
    requires after == if saved[n].data.resolutionMs == Some(MINUTE_MS) then before + {Minute(saved[n].at)} else before
    ensures SummaryMinutes(saved, n + 1, after)
  {
    forall at ensures Minute(at) in after <==> Summarized(saved[..n + 1], at) {
      assert Minute(at) in before <==> Summarized(saved[..n], at);
      SummaryStep(saved, n, at);
    }
  }

  lemma NextSaved(saved: seq<SavedSample>, n: nat)
    requires n < |saved|
    ensures MergeSaved(saved[..n + 1]) == MergeSaved(saved[..n])[saved[n].at := Read(saved[n].data)]
  {
    assert saved[..n + 1][..n] == saved[..n];
  }

  /** Readings of the disk read by time, and the minutes it holds summaries for. */
  method IndexSaved(saved: seq<SavedSample>) returns (merged: map<int, Reading>, summarized: set<int>)
    ensures merged == MergeSaved(saved)
    ensures forall at :: Minute(at) in summarized <==> Summarized(saved, at)
  {
    merged, summarized := map[], {};
    for n := 0 to |saved|
      invariant merged == MergeSaved(saved[..n])
      invariant SummaryMinutes(saved, n, summarized)
    {
      NextSaved(saved, n);
      merged := merged[saved[n].at := Read(saved[n].data)];
      ghost var before := summarized;
      if saved[n].data.resolutionMs == Some(MINUTE_MS) {
        summarized := summarized + {Minute(saved[n].at)};
      }
      NextSummary(saved, n, before, summarized);
    }
    assert saved[..|saved|] == saved;
  }

  method MergeHistory(previous: seq<MetricSample>, saved: seq<SavedSample>) returns (merged: map<int, Reading>)
    ensures merged == Merged(previous, saved)
  {
    var summarized;
    merged, summarized := IndexSaved(saved);
    for n := 0 to |previous|
      invariant merged == MergeLive(MergeSaved(saved), saved, previous[..n])
    {
      assert previous[..n + 1][..n] == previous[..n];
      if Minute(previous[n].at) in summarized {
        continue;
      }
      merged := merged[previous[n].at := Unmake(previous[n])];
    }
    assert previous[..|previous|] == previous;
  }

  lemma WindowIsTimed(m: map<int, Reading>)
    ensures Timed(m, Window(m.Keys))
  {
    var times := Window(m.Keys);
    WindowMembers(m.Keys);
    forall i | 0 <= i < |times| ensures times[i] in m {
      assert times[i] in times;
    }
  }

  /** Each sample is made after the one pushed before it. */
  method Rebuild(m: map<int, Reading>, times: seq<int>) returns (result: seq<MetricSample>)
    requires Timed(m, times)
    ensures result == Chain(m, times, |times|)
  {
    result := [];
    for n := 0 to |times|
      invariant result == Chain(m, times, n)
    {
      result := result + [NextSample(result, m[times[n]], times[n])];
    }
  }

  method RestoreHistory(previous: seq<MetricSample>, saved: seq<SavedSample>) returns (result: seq<MetricSample>)
    ensures result == Restored(previous, saved)
  {
    var merged := MergeHistory(previous, saved);
    WindowIsTimed(merged);
    result := Rebuild(merged, Window(merged.Keys));
  }

  lemma SummaryStep(saved: seq<SavedSample>, n: nat, at: int)
    requires n < |saved|
    ensures Summarized(saved[..n + 1], at) <==>
              Summarized(saved[..n], at)
              || (saved[n].data.resolutionMs == Some(MINUTE_MS) && Minute(saved[n].at) == Minute(at))
  {
    if Summarized(saved[..n], at) {
      var i :| 0 <= i < n && saved[..n][i].data.resolutionMs == Some(MINUTE_MS) && Minute(saved[..n][i].at) == Minute(at);
      assert saved[..n + 1][i] == saved[..n][i];
    }
    if Summarized(saved[..n + 1], at) {
      var i :| 0 <= i < n + 1 && saved[..n + 1][i].data.resolutionMs == Some(MINUTE_MS)
               && Minute(saved[..n + 1][i].at) == Minute(at);
      if i < n {
        assert saved[..n][i] == saved[..n + 1][i];
      }
    }
    assert saved[..n + 1][n] == saved[n];
  }

  // ---- Live samples ----

  function Kept(previous: seq<MetricSample>, at: int): (r: seq<MetricSample>) {
    if previous == [] then []
    else
      var last := previous[|previous| - 1];
      Kept(previous[..|previous| - 1], at) + if at - last.at <= HISTORY_MS then [last] else []
  }

  function LastSamples(samples: seq<MetricSample>, limit: nat): seq<MetricSample> {
    if |samples| <= limit then samples else samples[|samples| - limit..]
  }

  /** A late or repeated time is ignored; otherwise the sample is appended and old ones drop out. */
  function AddSample(previous: seq<MetricSample>, input: MetricInput, at: int): seq<MetricSample> {
    if previous != [] && at <= previous[|previous| - 1].at then previous
    else LastSamples(Kept(previous, at) + [MakeSample(LastOf(previous), Read(input), at)], MAX_SAMPLES)
  }

  predicate Increasing(samples: seq<MetricSample>) {
    forall i, j :: 0 <= i < j < |samples| ==> samples[i].at < samples[j].at
  }

  lemma {:induction false} KeptInOrder(previous: seq<MetricSample>, at: int)
    requires Increasing(previous) && forall p <- previous :: p.at < at
    ensures Increasing(Kept(previous, at))
    ensures forall p <- Kept(previous, at) :: p in previous && at - p.at <= HISTORY_MS
  {
    if previous != [] {
      var n := |previous| - 1;
      KeptInOrder(previous[..n], at);
      var front := Kept(previous[..n], at);
      forall i | 0 <= i < |front| ensures front[i].at < previous[n].at {
        assert front[i] in previous[..n];
      }
    }
  }

  /** Adding a newer sample keeps the history increasing, bounded and within retention, and ends with it. */
  lemma AddSampleKeepsHistory(previous: seq<MetricSample>, input: MetricInput, at: int)
    requires Increasing(previous)
    ensures var r := AddSample(previous, input, at);
            && Increasing(r)
            && if previous != [] && at <= previous[|previous| - 1].at then r == previous
               else
                 && 0 < |r| <= MAX_SAMPLES && r[|r| - 1] == MakeSample(LastOf(previous), Read(input), at)
                 && forall p <- r :: at - p.at <= HISTORY_MS
  {
    if previous == [] || previous[|previous| - 1].at < at {
      NewSampleKeepsHistory(previous, input, at);
    }
  }

  lemma AppendedInOrder(samples: seq<MetricSample>, last: MetricSample)
    requires Increasing(samples) && forall p <- samples :: p.at < last.at
    ensures Increasing(samples + [last])
  {
    forall i | 0 <= i < |samples| ensures samples[i].at < last.at {
      assert samples[i] in samples;
    }
  }

  /** Keeping only the last samples keeps their order and the newest one. */
  lemma LastSamplesInOrder(samples: seq<MetricSample>, limit: nat)
    requires Increasing(samples) && samples != [] && limit > 0
    ensures var r := LastSamples(samples, limit);
            && Increasing(r) && 0 < |r| <= limit && r[|r| - 1] == samples[|samples| - 1]
            && forall p <- r :: p in samples
  {
  }

  lemma NewSampleKeepsHistory(previous: seq<MetricSample>, input: MetricInput, at: int)
    requires Increasing(previous) && (previous != [] ==> previous[|previous| - 1].at < at)
    ensures var r := AddSample(previous, input, at);
            && Increasing(r) && 0 < |r| <= MAX_SAMPLES && r[|r| - 1] == MakeSample(LastOf(previous), Read(input), at)
            && forall p <- r :: at - p.at <= HISTORY_MS
  {
    forall p <- previous ensures p.at < at {
      var i :| 0 <= i < |previous| && previous[i] == p;
      assert i == |previous| - 1 || previous[i].at < previous[|previous| - 1].at;
    }
    var kept, sample := Kept(previous, at), MakeSample(LastOf(previous), Read(input), at);
    KeptInOrder(previous, at);
    AppendedInOrder(kept, sample);
    LastSamplesInOrder(kept + [sample], MAX_SAMPLES);
  }
}
