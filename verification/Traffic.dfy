/** What the rates of history samples mean: over an unbroken stretch they add up to the bytes counted. */
module Traffic {
  import opened Common
  import opened MetricHistory

  /** A measured rate over the elapsed time gives exactly the increase of its counter. */
  predicate Explains(rate: Option<real>, before: real, now: real, elapsedMs: int) {
    && (rate.Some? <==> now >= before)
    && (rate.Some? ==> rate.value >= 0.0 && rate.value * (elapsedMs as real / 1000.0) == now - before)
  }

  lemma RateExplains(before: real, now: real, elapsedMs: int)
    requires elapsedMs > 0
    ensures Explains(Rate(before, now, elapsedMs), before, now, elapsedMs)
  {
    if now >= before {
      var seconds := elapsedMs as real / 1000.0;
      assert (now - before) / seconds * seconds == now - before;
    }
  }

  /**
   Rates of a raw sample: none without a continuous predecessor that knows the
   interface, none across a counter reset, and otherwise what the counters say.
   */
  lemma RatesMeasureTraffic(last: Option<MetricSample>, input: Reading, at: int, name: string)
    requires (last.Some? ==> last.value.at < at) && name in input.network && input.resolutionMs != Some(MINUTE_MS)
    ensures var n := MakeSample(last, input, at).network[name];
            && n.received == input.network[name].received && n.sent == input.network[name].sent
            && if Continuous(last, input, at) && name in last.value.network then
                 var before := last.value.network[name];
                 && Explains(n.rx, before.received, n.received, at - last.value.at)
                 && Explains(n.tx, before.sent, n.sent, at - last.value.at)
               else n.rx.None? && n.tx.None?
  {
    if Continuous(last, input, at) && name in last.value.network {
      var before, n := last.value.network[name], input.network[name];
      RateExplains(before.received, n.received, at - last.value.at);
      RateExplains(before.sent, n.sent, at - last.value.at);
    }
  }

  // ---- Rates of a restored history ----

  /** Each sample is made from the merged input of its time and the sample before it. */
  lemma {:induction false} ChainLinks(m: map<int, Reading>, times: seq<int>, n: nat, i: nat)
    requires Timed(m, times) && 0 < i < n <= |times|
    ensures var samples := Chain(m, times, n);
            samples[i - 1].at < times[i] && samples[i] == MakeSample(Some(samples[i - 1]), m[times[i]], times[i])
    decreases n
  {
    if i < n - 1 {
      ChainLinks(m, times, n - 1, i);
    }
  }

  /** A raw sample with a receive rate for this interface. */
  predicate HasRate(b: MetricSample, name: string) {
    b.resolutionMs != Some(MINUTE_MS) && name in b.network && b.network[name].rx.Some?
  }

  /** The receive rate of `b` accounts for the bytes counted since `a`. */
  predicate Follows(a: MetricSample, b: MetricSample, name: string) {
    && name in a.network && name in b.network && b.network[name].rx.Some?
    && b.network[name].rx.value * ((b.at - a.at) as real / 1000.0)
       == b.network[name].received - a.network[name].received
  }

  lemma RateFollows(a: MetricSample, input: Reading, at: int, name: string)
    requires a.at < at && HasRate(MakeSample(Some(a), input, at), name)
    ensures Follows(a, MakeSample(Some(a), input, at), name)
  {
    RatesMeasureTraffic(Some(a), input, at, name);
  }

  lemma RestoredLinks(previous: seq<MetricSample>, saved: seq<SavedSample>, i: nat) returns (input: Reading)
    requires 0 < i < |Restored(previous, saved)|
    ensures var r := Restored(previous, saved);
            r[i - 1].at < r[i].at && r[i] == MakeSample(Some(r[i - 1]), input, r[i].at)
  {
    var m := Merged(previous, saved);
    var times := Window(m.Keys);
    WindowMembers(m.Keys);
    assert forall j :: 0 <= j < |times| ==> times[j] in times;
    ChainLinks(m, times, |times|, i);
    input := m[times[i]];
  }

  predicate RawRate(samples: seq<MetricSample>, name: string, i: nat) {
    i < |samples| && HasRate(samples[i], name)
  }

  predicate Accounted(samples: seq<MetricSample>, name: string, i: nat) {
    0 < i < |samples| && Follows(samples[i - 1], samples[i], name)
  }

  lemma RestoredIsAccounted(previous: seq<MetricSample>, saved: seq<SavedSample>, name: string, i: nat)
    requires i > 0 && RawRate(Restored(previous, saved), name, i)
    ensures Accounted(Restored(previous, saved), name, i)
  {
    var r := Restored(previous, saved);
    var input := RestoredLinks(previous, saved, i);
    RateFollows(r[i - 1], input, r[i].at, name);
  }

  /** What the chart shows as received between samples `k` and `n`: each rate times its own interval. */
  function Shown(samples: seq<MetricSample>, name: string, k: nat, n: nat): real
    requires k <= n < |samples| && forall i :: k < i <= n ==> RawRate(samples, name, i)
  {
    if n == k then 0.0
    else
      assert RawRate(samples, name, n);
      Shown(samples, name, k, n - 1)
      + samples[n].network[name].rx.value * ((samples[n].at - samples[n - 1].at) as real / 1000.0)
  }

  lemma {:induction false} AccountedAddsUp(samples: seq<MetricSample>, name: string, k: nat, n: nat)
    requires k <= n < |samples| && name in samples[k].network
    requires forall i :: k < i <= n ==> RawRate(samples, name, i) && Accounted(samples, name, i)
    ensures name in samples[n].network
    ensures Shown(samples, name, k, n) == samples[n].network[name].received - samples[k].network[name].received
    decreases n
  {
    if n > k {
      assert RawRate(samples, name, n) && Accounted(samples, name, n);
      AccountedAddsUp(samples, name, k, n - 1);
    }
  }

  /** Over an unbroken stretch of raw samples of a restored history, the charted rates add up to exactly the bytes counted. */
  lemma TrafficAddsUp(previous: seq<MetricSample>, saved: seq<SavedSample>, name: string, k: nat, n: nat)
    requires k <= n < |Restored(previous, saved)| && name in Restored(previous, saved)[k].network
    requires forall i :: k < i <= n ==> RawRate(Restored(previous, saved), name, i)
    ensures var r := Restored(previous, saved);
            && name in r[n].network
            && Shown(r, name, k, n) == r[n].network[name].received - r[k].network[name].received
  {
    var r := Restored(previous, saved);
    forall i | k < i <= n ensures Accounted(r, name, i) {
      assert RawRate(r, name, i);
      RestoredIsAccounted(previous, saved, name, i);
    }
    AccountedAddsUp(r, name, k, n);
  }
}
