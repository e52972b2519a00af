/** What a history holds, told from the readings and times given to it. */
module MetricHistoryMeaning {
  import opened Common
  import opened MetricHistory
  import Rates = Traffic

  // ---- One sample ----

  /** The rate of a counter: measured exactly when the neighbour is usable and the counter did not go back. */
  predicate RateIs(rate: Option<real>, usable: bool, before: real, now: real, elapsedMs: int) {
    && (rate.Some? <==> usable && now >= before)
    && (rate.Some? ==> rate.value * (elapsedMs as real / 1000.0) == now - before)
  }

  /** The last sample is a raw one of the same boot, at most half a minute ago, and knows the interface. */
  predicate Usable(last: Option<MetricSample>, uptime: real, at: int, name: string) {
    && last.Some? && (last.value.resolutionMs.None? || last.value.resolutionMs.value == 10000)
    && at - last.value.at <= 30000 && uptime >= last.value.uptime && name in last.value.network
  }

  predicate MeasuredRates(last: Option<MetricSample>, uptime: real, at: int, name: string, n: MetricHistory.Traffic) {
    if Usable(last, uptime, at, name) then
      var before := last.value.network[name];
      && RateIs(n.rx, true, before.received, n.received, at - last.value.at)
      && RateIs(n.tx, true, before.sent, n.sent, at - last.value.at)
    else n.rx.None? && n.tx.None?
  }

  /** Entry `i` is the one that counts for its name. */
  predicate Counts(network: seq<Interface>, i: nat) {
    i < |network| && forall j :: i < j < |network| ==> network[j].name != network[i].name
  }

  predicate Named(network: seq<Interface>, name: string) {
    exists i :: 0 <= i < |network| && network[i].name == name
  }

  /** What the sample shows of one interface: its counters, with its own rates in a summary and measured ones otherwise. */
  predicate ShowsInterface(last: Option<MetricSample>, d: MetricInput, at: int, s: MetricSample, i: nat)
    requires i < |d.network|
  {
    var one := d.network[i];
    && one.name in s.network
    && s.network[one.name].received == one.traffic.received && s.network[one.name].sent == one.traffic.sent
    && if d.resolutionMs == Some(60000)
       then s.network[one.name].rx == one.traffic.rx && s.network[one.name].tx == one.traffic.tx
       else MeasuredRates(last, d.uptime, at, one.name, s.network[one.name])
  }

  /** `s` shows the reading `d` taken at `at` after the sample `last`. */
  ghost predicate Measures(last: Option<MetricSample>, d: MetricInput, at: int, s: MetricSample) {
    && s.at == at && s.cpu == d.cpu && s.uptime == d.uptime
    && (if d.load == [] then s.load.None? else s.load == Some(d.load[0]))
    && (if d.resolutionMs.None? then s.resolutionMs == Some(10000) else s.resolutionMs == d.resolutionMs)
    && (if d.gap then s.incomplete == Some(1) else s.incomplete == Some(0))
    && (if d.memoryTotal == 0.0 then s.memory == 0.0 else s.memory * d.memoryTotal == d.memoryUsed * 100.0)
    && (forall name :: name in s.network <==> Named(d.network, name))
    && (forall i :: Counts(d.network, i) ==> ShowsInterface(last, d, at, s, i))
  }

  lemma {:induction false} NamesOf(network: seq<Interface>, name: string)
    ensures name in ByName(network) <==> Named(network, name)
  {
    if network != [] {
      var n := |network| - 1;
      NamesOf(network[..n], name);
      if Named(network[..n], name) {
        var i :| 0 <= i < n && network[..n][i].name == name;
        assert network[i].name == name;
      }
      if Named(network, name) && network[n].name != name {
        var i :| 0 <= i < |network| && network[i].name == name;
        assert network[..n][i].name == name;
      }
    }
  }

  lemma {:induction false} LastEntryCounts(network: seq<Interface>, i: nat)
    requires Counts(network, i)
    ensures network[i].name in ByName(network) && ByName(network)[network[i].name] == network[i].traffic
  {
    var n := |network| - 1;
    if i < n {
      LastEntryCounts(network[..n], i);
    }
  }

  lemma Percent(used: real, total: real)
    requires total != 0.0
    ensures used / total * 100.0 * total == used * 100.0
  {
    assert used / total * total == used;
  }

  lemma InterfaceShown(last: Option<MetricSample>, d: MetricInput, at: int, i: nat)
    requires (last.Some? ==> last.value.at < at) && Counts(d.network, i)
    ensures ShowsInterface(last, d, at, MakeSample(last, Read(d), at), i)
  {
    var name := d.network[i].name;
    LastEntryCounts(d.network, i);
    if d.resolutionMs != Some(60000) {
      Rates.RatesMeasureTraffic(last, Read(d), at, name);
    }
  }

  lemma SampleMeaning(last: Option<MetricSample>, d: MetricInput, at: int)
    requires last.Some? ==> last.value.at < at
    ensures Measures(last, d, at, MakeSample(last, Read(d), at))
  {
    var s := MakeSample(last, Read(d), at);
    if d.memoryTotal != 0.0 {
      Percent(d.memoryUsed, d.memoryTotal);
    }
    forall name ensures name in s.network <==> Named(d.network, name) {
      NamesOf(d.network, name);
    }
    forall i | Counts(d.network, i) ensures ShowsInterface(last, d, at, s, i) {
      InterfaceShown(last, d, at, i);
    }
  }

  // ---- Adding a live sample ----

  predicate Within(at: int, p: MetricSample) {
    at - p.at <= 604800000
  }

  /** Exactly the samples from `j` on are within retention. */
  predicate WithinFrom(previous: seq<MetricSample>, at: int, j: nat) {
    j <= |previous| && forall i :: 0 <= i < |previous| ==> (i >= j <==> Within(at, previous[i]))
  }

  lemma WithinFromFront(previous: seq<MetricSample>, at: int, j: nat)
    requires Increasing(previous) && previous != [] && WithinFrom(previous[..|previous| - 1], at, j)
    ensures WithinFrom(previous, at, if Within(at, previous[|previous| - 1]) then j else |previous|)
    ensures !Within(at, previous[|previous| - 1]) ==> j == |previous| - 1
  {
    var n := |previous| - 1;
    forall i | 0 <= i < n ensures previous[..n][i] == previous[i] && (Within(at, previous[i]) ==> Within(at, previous[n])) {
    }
    assert j < n ==> Within(at, previous[..n][j]);
  }

  lemma {:induction false} KeptIsEnd(previous: seq<MetricSample>, at: int) returns (j: nat)
    requires Increasing(previous)
    ensures WithinFrom(previous, at, j) && Kept(previous, at) == previous[j..]
  {
    if previous == [] {
      j := 0;
    } else {
      var n := |previous| - 1;
      var front := KeptIsEnd(previous[..n], at);
      WithinFromFront(previous, at, front);
      j := if Within(at, previous[n]) then front else |previous|;
      KeptStep(previous, at, front);
    }
  }

  lemma TailOfLonger(front: seq<MetricSample>, last: MetricSample, j: nat)
    requires j <= |front|
    ensures (front + [last])[j..] == front[j..] + [last]
  {
  }

  lemma KeptStep(previous: seq<MetricSample>, at: int, j: nat)
    requires previous != [] && j <= |previous| - 1
    requires Kept(previous[..|previous| - 1], at) == previous[..|previous| - 1][j..]
    requires !Within(at, previous[|previous| - 1]) ==> j == |previous| - 1
    ensures Kept(previous, at) == if Within(at, previous[|previous| - 1]) then previous[j..] else previous[|previous|..]
  {
    var front, last := previous[..|previous| - 1], previous[|previous| - 1];
    assert previous == front + [last];
    if Within(at, last) {
      TailOfLonger(front, last, j);
    }
  }

  /** The samples from `j` on are the ones within retention that leave room for one more. */
  predicate StaysFrom(previous: seq<MetricSample>, at: int, j: nat) {
    && j <= |previous|
    && forall i :: 0 <= i < |previous| ==> (i >= j <==> Within(at, previous[i]) && |previous| - i < 120960)
  }

  lemma LastOfTail(previous: seq<MetricSample>, j: nat, last: MetricSample, limit: nat)
    requires j <= |previous| && limit > 0
    ensures var k := if |previous| - j < limit then j else |previous| + 1 - limit;
            j <= k <= |previous| && LastSamples(previous[j..] + [last], limit) == previous[k..] + [last]
  {
  }

  /**
   * A sample that is not late goes to the end of the history, and of the samples
   * before it exactly those stay that are at most seven days older and have fewer
   * than 120960 samples after them, the new one included.
   */
  lemma AddedSample(previous: seq<MetricSample>, d: MetricInput, at: int) returns (j: nat, s: MetricSample)
    requires Increasing(previous) && (previous != [] ==> previous[|previous| - 1].at < at)
    ensures StaysFrom(previous, at, j) && AddSample(previous, d, at) == previous[j..] + [s]
    ensures Measures(LastOf(previous), d, at, s)
  {
    s := MakeSample(LastOf(previous), Read(d), at);
    SampleMeaning(LastOf(previous), d, at);
    var k := KeptIsEnd(previous, at);
    LastOfTail(previous, k, s, MAX_SAMPLES);
    j := if |previous| - k < MAX_SAMPLES then k else |previous| + 1 - MAX_SAMPLES;
  }

  // ---- Restoring from a disk read ----

  predicate InMinute(m: int, at: int) {
    m * 60000 <= at < m * 60000 + 60000
  }

  predicate SummaryOf(saved: seq<SavedSample>, i: nat, m: int) {
    i < |saved| && saved[i].data.resolutionMs == Some(60000) && InMinute(m, saved[i].at)
  }

  /** The disk read has a one-minute summary of the minute of this time. */
  ghost predicate Covered(saved: seq<SavedSample>, at: int) {
    exists i, m :: SummaryOf(saved, i, m) && InMinute(m, at)
  }

  lemma MinuteIs(m: int, at: int)
    ensures InMinute(m, at) <==> Minute(at) == m
  {
  }

  lemma CoveredMeans(saved: seq<SavedSample>, at: int)
    ensures Covered(saved, at) <==> Summarized(saved, at)
  {
    if i: nat, m: int :| SummaryOf(saved, i, m) && InMinute(m, at) {
      MinuteIs(m, at);
      MinuteIs(m, saved[i].at);
    }
    if Summarized(saved, at) {
      var i :| 0 <= i < |saved| && saved[i].data.resolutionMs == Some(MINUTE_MS) && Minute(saved[i].at) == Minute(at);
      MinuteIs(Minute(at), at);
      MinuteIs(Minute(at), saved[i].at);
      assert SummaryOf(saved, i, Minute(at));
    }
  }

  /** Entry `i` of the disk read is the last one of its time. */
  predicate LastSaved(saved: seq<SavedSample>, i: nat, at: int) {
    i < |saved| && saved[i].at == at && forall j :: i < j < |saved| ==> saved[j].at != at
  }

  predicate LastLive(previous: seq<MetricSample>, i: nat, at: int) {
    i < |previous| && previous[i].at == at && forall j :: i < j < |previous| ==> previous[j].at != at
  }

  lemma {:induction false} SavedReading(saved: seq<SavedSample>, at: int) returns (i: nat)
    ensures at in MergeSaved(saved) <==> LastSaved(saved, i, at)
    ensures at in MergeSaved(saved) ==> MergeSaved(saved)[at] == Read(saved[i].data)
    ensures at in MergeSaved(saved) <==> exists k :: 0 <= k < |saved| && saved[k].at == at
  {
    i := 0;
    if saved != [] {
      var n := |saved| - 1;
      if saved[n].at == at {
        i := n;
      } else {
        i := SavedReading(saved[..n], at);
        assert forall k :: 0 <= k < n ==> saved[..n][k] == saved[k];
        if at in MergeSaved(saved) {
          var k :| 0 <= k < |saved[..n]| && saved[..n][k].at == at;
          assert saved[k].at == at;
        }
      }
    }
  }

  lemma {:induction false} LastLiveOf(previous: seq<MetricSample>, k: nat) returns (i: nat)
    requires k < |previous|
    ensures LastLive(previous, i, previous[k].at)
    decreases |previous| - k
  {
    if j: nat :| k < j < |previous| && previous[j].at == previous[k].at {
      i := LastLiveOf(previous, j);
    } else {
      i := k;
    }
  }

  /** The times known: every saved one, and the live ones no summary covers. */
  ghost predicate Known(previous: seq<MetricSample>, saved: seq<SavedSample>, at: int) {
    || (exists i :: 0 <= i < |saved| && saved[i].at == at)
    || (!Covered(saved, at) && exists i :: 0 <= i < |previous| && previous[i].at == at)
  }

  lemma KnownTimes(previous: seq<MetricSample>, saved: seq<SavedSample>, at: int)
    ensures at in Merged(previous, saved) <==> Known(previous, saved, at)
  {
    MergedKeys(MergeSaved(saved), saved, previous, at);
    var _ := SavedReading(saved, at);
    CoveredMeans(saved, at);
  }

  ghost predicate HasTime(samples: seq<MetricSample>, at: int) {
    exists i :: 0 <= i < |samples| && samples[i].at == at
  }

  /** Known, at most seven days before the newest known time, and with fewer than 120960 known ones after it. */
  ghost predicate Survives(known: set<int>, at: int) {
    at in known && (forall y <- known :: y - at <= 604800000) && |Newer(known, at)| < 120960
  }

  /** Exactly the surviving known times are restored. */
  lemma RestoredTimes(previous: seq<MetricSample>, saved: seq<SavedSample>, known: set<int>, at: int)
    requires forall x :: x in known <==> Known(previous, saved, x)
    ensures HasTime(Restored(previous, saved), at) <==> Survives(known, at)
  {
    var keys := Merged(previous, saved).Keys;
    forall x ensures x in keys <==> x in known {
      KnownTimes(previous, saved, x);
    }
    assert keys == known;
    RestoredAtWindow(previous, saved, at);
    if at in known {
      WindowMeaning(known, at);
    } else {
      WindowMembers(known);
    }
  }

  lemma RestoredAtWindow(previous: seq<MetricSample>, saved: seq<SavedSample>, at: int)
    ensures HasTime(Restored(previous, saved), at) <==> at in Window(Merged(previous, saved).Keys)
  {
    var w := Window(Merged(previous, saved).Keys);
    var r := Restored(previous, saved);
    WindowMembers(Merged(previous, saved).Keys);
    assert |r| == |w| && TimesAre(r, w);
    if at in w {
      var i :| 0 <= i < |w| && w[i] == at;
      assert r[i].at == at;
    }
  }

  /** A live sample is shown with its own figures, and a summary with its own rates. */
  predicate StillShows(p: MetricSample, s: MetricSample) {
    && s.at == p.at && s.cpu == p.cpu && s.memory == p.memory && s.load == p.load && s.uptime == p.uptime
    && s.network.Keys == p.network.Keys
    && (forall name <- p.network ::
          s.network[name].received == p.network[name].received && s.network[name].sent == p.network[name].sent)
    && (if p.resolutionMs.None? then s.resolutionMs == Some(10000) else s.resolutionMs == p.resolutionMs)
    && (if p.incomplete.Some? && p.incomplete.value != 0 then s.incomplete == Some(1) else s.incomplete == Some(0))
    && (p.resolutionMs == Some(60000) ==> s.network == p.network)
  }

  lemma LiveIsStillShown(last: Option<MetricSample>, p: MetricSample)
    requires last.Some? ==> last.value.at < p.at
    ensures StillShows(p, MakeSample(last, Unmake(p), p.at))
  {
  }

  /** The sample before the `k`-th one. */
  function Preceding(samples: seq<MetricSample>, k: nat): Option<MetricSample>
    requires k < |samples|
  {
    if k == 0 then None else Some(samples[k - 1])
  }

  lemma {:induction false} ChainLink(m: map<int, Reading>, times: seq<int>, n: nat, k: nat)
    requires Timed(m, times) && k < n <= |times|
    ensures var r, last := Chain(m, times, n), Preceding(Chain(m, times, n), k);
            && (last.Some? ==> last.value.at < times[k])
            && r[k] == MakeSample(last, m[times[k]], times[k])
    decreases n
  {
    if k < n - 1 {
      ChainLink(m, times, n - 1, k);
    }
  }

  lemma RestoredLink(previous: seq<MetricSample>, saved: seq<SavedSample>, k: nat)
    requires k < |Restored(previous, saved)|
    ensures var r, m := Restored(previous, saved), Merged(previous, saved);
            && r[k].at in m && (Preceding(r, k).Some? ==> Preceding(r, k).value.at < r[k].at)
            && r[k] == MakeSample(Preceding(r, k), m[r[k].at], r[k].at)
  {
    var m := Merged(previous, saved);
    WindowIsTimed(m);
    ChainLink(m, Window(m.Keys), |Window(m.Keys)|, k);
  }

  /** Sample `s` shows the last live sample of its time if no summary covers it, and else the last saved one. */
  ghost predicate Represents(previous: seq<MetricSample>, saved: seq<SavedSample>, last: Option<MetricSample>, s: MetricSample, i: nat) {
    if !Covered(saved, s.at) && HasTime(previous, s.at) then LastLive(previous, i, s.at) && StillShows(previous[i], s)
    else LastSaved(saved, i, s.at) && Measures(last, saved[i].data, s.at, s)
  }

  /** Every restored sample is the live one of its time where that counts, and the saved one otherwise. */
  lemma RestoredMeaning(previous: seq<MetricSample>, saved: seq<SavedSample>, k: nat) returns (i: nat)
    requires k < |Restored(previous, saved)|
    ensures var r := Restored(previous, saved); Represents(previous, saved, Preceding(r, k), r[k], i)
  {
    var r := Restored(previous, saved);
    var s, last := r[k], Preceding(r, k);
    RestoredLink(previous, saved, k);
    CoveredMeans(saved, s.at);
    if !Covered(saved, s.at) && HasTime(previous, s.at) {
      var any :| 0 <= any < |previous| && previous[any].at == s.at;
      i := LastLiveOf(previous, any);
      LiveSamplesWin(MergeSaved(saved), saved, previous, i);
      LiveIsStillShown(last, previous[i]);
    } else {
      MergedKeys(MergeSaved(saved), saved, previous, s.at);
      i := SavedReading(saved, s.at);
      SampleMeaning(last, saved[i].data, s.at);
    }
  }
}
