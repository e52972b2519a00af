/**
 * Connection evidence. Overlapping attempts report in any order; a success counts
 * from the moment it finished, a failure only if it started after that.
 */
module Connectivity {
  import opened Common

  datatype Outcome = Success | Failure(message: string)

  /** Times of an attempt; `wall` is the wall clock when it finished. */
  datatype Observation = Observation(started: int, finished: int, wall: int, outcome: Outcome)

  datatype Evidence = Evidence(seen: Option<int>, seenWall: Option<int>, succeeded: Option<int>, error: Option<string>)

  const Nothing := Evidence(None, None, None, None)

  predicate LaterThan(at: Option<int>, time: int) {
    at.Some? && at.value > time
  }

  /** Older than what is already known. */
  predicate Outdated(e: Evidence, o: Observation) {
    match o.outcome
    case Success => LaterThan(e.seen, o.finished)
    case Failure(_) => LaterThan(e.seen, o.started) || (e.succeeded.Some? && e.succeeded.value >= o.started)
  }

  function Observe(e: Evidence, o: Observation): Evidence {
    if Outdated(e, o) then e
    else match o.outcome
      case Success => Evidence(Some(o.finished), Some(o.wall), Some(o.finished), None)
      case Failure(message) => Evidence(Some(o.finished), Some(o.wall), e.succeeded, Some(message))
  }

  class ConnectionEvidence {
    var observed: Option<int>
    var observedWall: Option<int>
    var succeeded: Option<int>
    var error: Option<string>

    function View(): Evidence
      reads this
    {
      Evidence(observed, observedWall, succeeded, error)
    }

    constructor ()
      ensures View() == Nothing
    {
      observed, observedWall, succeeded, error := None, None, None, None;
    }

    method ObserveAt(started: int, finished: int, wall: int, outcome: Outcome)
      modifies this
      ensures View() == Observe(old(View()), Observation(started, finished, wall, outcome))
    {
      var cutoff := if outcome.Success? then finished else started;
      if (observed.Some? && observed.value > cutoff)
        || (outcome.Failure? && succeeded.Some? && succeeded.value >= started)
      {
        return;
      }
      observed := Some(finished);
      observedWall := Some(wall);
      match outcome {
        case Success =>
          succeeded := Some(finished);
          error := None;
        case Failure(message) =>
          error := Some(message);
      }
    }
  }

  // ---- Whole runs ----

  /** The evidence after a run of observations, in the order they were delivered. */
  function After(run: seq<Observation>): Evidence {
    if run == [] then Nothing else Observe(After(run[..|run| - 1]), run[|run| - 1])
  }

  predicate Attempts(run: seq<Observation>) {
    forall i :: 0 <= i < |run| ==> run[i].started <= run[i].finished
  }

  /** Failed attempt `f` started strictly after every success of the run had finished. */
  predicate FailedAfterAll(run: seq<Observation>, f: nat) {
    && f < |run| && run[f].outcome.Failure?
    && forall i :: 0 <= i < |run| && run[i].outcome.Success? ==> run[i].finished < run[f].started
  }

  /** No success is delivered after an observation that finished later. */
  predicate SuccessesOnTime(run: seq<Observation>) {
    forall i, j :: 0 <= i < j < |run| && run[j].outcome.Success? ==> run[i].finished <= run[j].finished
  }

  predicate FinishOrder(run: seq<Observation>) {
    forall i, j :: 0 <= i < j < |run| ==> run[i].finished <= run[j].finished
  }

  lemma FinishOrderIsOnTime(run: seq<Observation>)
    requires FinishOrder(run)
    ensures SuccessesOnTime(run)
  {
  }

  /** Observation `i` is the one the evidence reports now. */
  predicate Reports(e: Evidence, run: seq<Observation>, i: nat) {
    && i < |run| && e.seen == Some(run[i].finished) && e.seenWall == Some(run[i].wall)
    && (match run[i].outcome
        case Success => e.error.None? && e.succeeded == Some(run[i].finished)
        case Failure(message) =>
          e.error == Some(message) && (e.succeeded.Some? ==> e.succeeded.value < run[i].started))
  }

  /** `at` is the finish of a success of the run, or there is none. */
  predicate FromASuccess(at: Option<int>, run: seq<Observation>) {
    at.Some? ==> exists i :: 0 <= i < |run| && run[i].outcome == Success && run[i].finished == at.value
  }

  /**
   * In any order of delivery the evidence always reports one of the observations
   * made, a held error comes from an attempt that started strictly after the
   * recorded success, and that success is one of the run.
   */
  lemma {:induction false} AlwaysReportsAnAttempt(run: seq<Observation>)
    requires Attempts(run)
    ensures if run == [] then After(run) == Nothing else exists i :: Reports(After(run), run, i)
    ensures FromASuccess(After(run).succeeded, run)
    decreases |run|
  {
    if run != [] {
      var n := |run| - 1;
      var before := run[..n];
      AlwaysReportsAnAttempt(before);
      if Outdated(After(before), run[n]) {
        var i: nat :| Reports(After(before), before, i);
        assert Reports(After(run), run, i);
      } else {
        assert Reports(After(run), run, n);
      }
    }
  }

  /** However late observations are delivered, the time of the newest evidence never goes back. */
  lemma {:induction false} NeverGoesBack(run: seq<Observation>, n: nat)
    requires Attempts(run) && n <= |run|
    ensures After(run[..n]).seen.Some? ==>
              After(run).seen.Some? && After(run[..n]).seen.value <= After(run).seen.value
    decreases |run|
  {
    if n == |run| {
      assert run[..n] == run;
    } else {
      var before := run[..|run| - 1];
      NeverGoesBack(before, n);
      assert before[..n] == run[..n];
    }
  }

  /** In any order of delivery, a failure that started after every success finished leaves an error. */
  lemma {:induction false} LastingFailure(run: seq<Observation>, f: nat)
    requires Attempts(run) && FailedAfterAll(run, f)
    ensures After(run).error.Some? && After(run).seen.Some? && After(run).seen.value >= run[f].started
    decreases |run|
  {
    var n := |run| - 1;
    var before := run[..n];
    AlwaysReportsAnAttempt(before);
    if f < n {
      LastingFailure(before, f);
    } else if Outdated(After(before), run[n]) {
      var i: nat :| Reports(After(before), before, i);
      assert run[i] == before[i];
    }
  }

  // ---- The meaning, and exactly when it holds ----

  /** The evidence ends with an error exactly when some failed attempt started after every success had finished. */
  ghost predicate MeansNewerFailure(run: seq<Observation>) {
    After(run).error.Some? <==> exists f :: FailedAfterAll(run, f)
  }

  /** Success `j` has the latest finish of all successes. */
  predicate LatestSuccess(run: seq<Observation>, j: nat) {
    && j < |run| && run[j].outcome.Success?
    && forall i :: 0 <= i < |run| && run[i].outcome.Success? ==> run[i].finished <= run[j].finished
  }

  /** When `j` is delivered, nothing that finished later has been taken in. */
  predicate OnTime(run: seq<Observation>, j: nat)
    requires j < |run|
  {
    !LaterThan(After(run[..j]).seen, run[j].finished)
  }

  /** Some failed attempt started after `at`. */
  predicate FailedAfter(run: seq<Observation>, at: int) {
    exists f :: 0 <= f < |run| && run[f].outcome.Failure? && run[f].started > at
  }

  lemma {:induction false} LatestStaysRecorded(run: seq<Observation>, j: nat, n: nat)
    requires Attempts(run) && LatestSuccess(run, j) && OnTime(run, j) && j < n <= |run|
    ensures After(run[..n]).succeeded == Some(run[j].finished)
    ensures After(run[..n]).seen.Some? && After(run[..n]).seen.value >= run[j].finished
    decreases n
  {
    assert run[..n][..n - 1] == run[..n - 1];
    if n > j + 1 {
      LatestStaysRecorded(run, j, n - 1);
    }
  }

  lemma {:induction false} DroppedLeavesError(run: seq<Observation>, j: nat, n: nat)
    requires Attempts(run) && LatestSuccess(run, j) && !OnTime(run, j) && j <= n <= |run|
    ensures After(run[..n]).error.Some? && LaterThan(After(run[..n]).seen, run[j].finished)
    decreases n
  {
    if n == j {
      AlwaysReportsAnAttempt(run[..j]);
      var i: nat :| Reports(After(run[..j]), run[..j], i);
      assert run[..j][i] == run[i];
    } else {
      assert run[..n][..n - 1] == run[..n - 1];
      DroppedLeavesError(run, j, n - 1);
    }
  }

  /**
   * Exactly when the evidence has its meaning, in any order of delivery: the latest
   * success is taken in when it is delivered, or a failure started after it anyway.
   */
  lemma MeaningIffLatestOnTime(run: seq<Observation>, j: nat)
    requires Attempts(run) && LatestSuccess(run, j)
    ensures MeansNewerFailure(run) <==> OnTime(run, j) || FailedAfter(run, run[j].finished)
  {
    assert run[..|run|] == run;
    AlwaysReportsAnAttempt(run);
    if FailedAfter(run, run[j].finished) {
      var f :| 0 <= f < |run| && run[f].outcome.Failure? && run[f].started > run[j].finished;
      assert FailedAfterAll(run, f);
      LastingFailure(run, f);
    } else {
      assert forall f: nat :: !FailedAfterAll(run, f);
      if OnTime(run, j) {
        LatestStaysRecorded(run, j, |run|);
        var i: nat :| Reports(After(run), run, i);
      } else {
        DroppedLeavesError(run, j, |run|);
      }
    }
  }

  /** Without any success the meaning always holds: any failure leaves an error. */
  lemma MeaningWithoutSuccess(run: seq<Observation>)
    requires Attempts(run) && forall i :: 0 <= i < |run| ==> run[i].outcome.Failure?
    ensures MeansNewerFailure(run)
  {
    AlwaysReportsAnAttempt(run);
    if run != [] {
      assert FailedAfterAll(run, 0);
    }
  }

  lemma {:induction false} LatestExists(run: seq<Observation>, n: nat) returns (j: nat)
    requires n <= |run| && exists i :: 0 <= i < n && run[i].outcome.Success?
    ensures j < n && run[j].outcome.Success?
    ensures forall i :: 0 <= i < n && run[i].outcome.Success? ==> run[i].finished <= run[j].finished
    decreases n
  {
    if forall i :: 0 <= i < n - 1 ==> run[i].outcome.Failure? {
      j := n - 1;
    } else {
      j := LatestExists(run, n - 1);
      if run[n - 1].outcome.Success? && run[n - 1].finished > run[j].finished {
        j := n - 1;
      }
    }
  }

  /**
   * When no success is delivered late, in particular in finish order, a run ends
   * with an error exactly when some failed attempt started strictly after every
   * success had finished.
   */
  lemma ErrorMeansNewerFailure(run: seq<Observation>)
    requires Attempts(run) && SuccessesOnTime(run)
    ensures MeansNewerFailure(run)
  {
    if exists i :: 0 <= i < |run| && run[i].outcome.Success? {
      var j := LatestExists(run, |run|);
      AlwaysReportsAnAttempt(run[..j]);
      if j > 0 {
        var i: nat :| Reports(After(run[..j]), run[..j], i);
        assert run[..j][i] == run[i];
      }
      MeaningIffLatestOnTime(run, j);
    } else {
      MeaningWithoutSuccess(run);
    }
  }

  /**
   * For a failure delivered before a success the meaning holds exactly when the
   * success finished before the failure started, or not before the failure finished.
   */
  lemma LateSuccess(failure: Observation, success: Observation)
    requires failure.outcome.Failure? && success.outcome.Success? && Attempts([failure, success])
    ensures MeansNewerFailure([failure, success])
       <==> (success.finished < failure.started || failure.finished <= success.finished)
  {
    var run := [failure, success];
    assert run[..1] == [failure] && [failure][..0] == [];
    assert After([failure]) == Observe(Nothing, failure);
    assert run[0] == failure && run[1] == success;
    assert LatestSuccess(run, 1);
    MeaningIffLatestOnTime(run, 1);
  }

  /** A connection that was up at 5 reads as failed: the attempt of 1 to 10 is delivered first. */
  lemma LateSuccessIsLost()
    ensures var run := [Observation(1, 10, 10, Failure("timeout")), Observation(1, 5, 5, Success)];
            After(run).error.Some? && !MeansNewerFailure(run)
  {
    var run := [Observation(1, 10, 10, Failure("timeout")), Observation(1, 5, 5, Success)];
    LateSuccess(run[0], run[1]);
    assert run[..1] == [run[0]] && [run[0]][..0] == [];
    assert After(run) == Observe(Observe(Nothing, run[0]), run[1]);
  }

  // ---- Which observations count ----

  /** What was taken in as `a` leaves room for `b`. */
  predicate LeavesRoom(a: Observation, b: Observation) {
    match b.outcome
    case Success => a.finished <= b.finished
    case Failure(_) => a.finished <= b.started && (a.outcome.Success? ==> a.finished < b.started)
  }

  /** Observation `k` counts: all that counted before it leave room for it. */
  predicate Taken(run: seq<Observation>, k: nat)
    requires k < |run|
    decreases k
  {
    forall i :: 0 <= i < k ==> Taken(run, i) ==> LeavesRoom(run[i], run[k])
  }

  lemma {:induction false} TakenEarlier(run: seq<Observation>, n: nat, k: nat)
    requires k < n <= |run|
    ensures Taken(run[..n], k) == Taken(run, k)
    decreases k
  {
    forall i: nat | i < k ensures Taken(run[..n], i) == Taken(run, i) {
      TakenEarlier(run, n, i);
    }
    assert forall i :: 0 <= i <= k ==> run[..n][i] == run[i];
  }

  /** `i` is the last observation that counts. */
  predicate LastTaken(run: seq<Observation>, i: nat) {
    i < |run| && Taken(run, i) && forall j :: i < j < |run| ==> !Taken(run, j)
  }

  predicate TakenSuccess(run: seq<Observation>, i: nat) {
    i < |run| && Taken(run, i) && run[i].outcome.Success?
  }

  predicate SuccessAt(run: seq<Observation>, i: nat, time: int) {
    TakenSuccess(run, i) && run[i].finished == time
  }

  /** The finish of the newest success that counts. */
  ghost predicate NewestSuccess(run: seq<Observation>, at: Option<int>) {
    && (at.Some? ==> exists i: nat :: SuccessAt(run, i, at.value))
    && (forall i: nat :: TakenSuccess(run, i) ==> at.Some? && run[i].finished <= at.value)
  }

  /** The evidence is as new as everything that counts. */
  predicate Covers(e: Evidence, run: seq<Observation>) {
    forall i :: 0 <= i < |run| ==> Taken(run, i) ==> e.seen.Some? && run[i].finished <= e.seen.value
  }

  ghost predicate Last(e: Evidence, run: seq<Observation>, last: nat) {
    if run == [] then e == Nothing else LastTaken(run, last) && Reports(e, run, last)
  }

  /** An observation that counted leaves no room for `o`. */
  predicate Blocks(run: seq<Observation>, i: nat, o: Observation) {
    i < |run| && Taken(run, i) && !LeavesRoom(run[i], o)
  }

  lemma OutdatedMeans(run: seq<Observation>, o: Observation, e: Evidence, last: nat)
    requires Covers(e, run) && NewestSuccess(run, e.succeeded) && Last(e, run, last)
    ensures Outdated(e, o) <==> exists i: nat :: Blocks(run, i, o)
  {
    if Outdated(e, o) {
      if o.outcome.Failure? && e.succeeded.Some? && e.succeeded.value >= o.started {
        var i: nat :| SuccessAt(run, i, e.succeeded.value);
        assert Blocks(run, i, o);
      } else {
        assert Blocks(run, last, o);
      }
    }
    if i: nat :| Blocks(run, i, o) {
      assert run[i].outcome.Success? ==> TakenSuccess(run, i);
    }
  }

  /** Whether the last observation counts. */
  lemma TakenNext(run: seq<Observation>, o: Observation)
    ensures forall i :: 0 <= i < |run| ==> Taken(run + [o], i) == Taken(run, i)
    ensures Taken(run + [o], |run|) <==> forall i: nat :: !Blocks(run, i, o)
  {
    var all := run + [o];
    assert all[..|run|] == run;
    forall i: nat | i < |run| ensures Taken(all, i) == Taken(run, i) {
      TakenEarlier(all, |run|, i);
    }
    if Taken(all, |run|) {
      forall i: nat ensures !Blocks(run, i, o) {
        assert i < |run| ==> Taken(all, i) == Taken(run, i) && all[i] == run[i];
      }
    } else {
      var i :| 0 <= i < |run| && Taken(all, i) && !LeavesRoom(all[i], all[|run|]);
      assert Blocks(run, i, o);
    }
  }

  lemma SuccessNext(run: seq<Observation>, o: Observation, i: nat)
    ensures TakenSuccess(run + [o], i) <==>
              TakenSuccess(run, i) || (i == |run| && Taken(run + [o], |run|) && o.outcome.Success?)
  {
    TakenNext(run, o);
  }

  lemma CoversNext(run: seq<Observation>, o: Observation, e: Evidence, last: nat)
    requires o.started <= o.finished && Covers(e, run) && Last(e, run, last)
    requires Outdated(e, o) <==> !Taken(run + [o], |run|)
    ensures Covers(Observe(e, o), run + [o])
  {
    var all := run + [o];
    TakenNext(run, o);
    forall i | 0 <= i < |all| && Taken(all, i)
      ensures Observe(e, o).seen.Some? && all[i].finished <= Observe(e, o).seen.value
    {
      if i < |run| {
        assert all[i] == run[i] && Taken(run, i);
        assert e.seen.Some? && run[i].finished <= e.seen.value;
      }
    }
  }

  lemma NewestNext(run: seq<Observation>, o: Observation, e: Evidence)
    requires NewestSuccess(run, e.succeeded) && Covers(e, run)
    requires Outdated(e, o) <==> !Taken(run + [o], |run|)
    ensures NewestSuccess(run + [o], Observe(e, o).succeeded)
  {
    var all, at := run + [o], Observe(e, o).succeeded;
    if at.Some? {
      NewestIsThere(run, o, e);
    }
    forall i: nat | TakenSuccess(all, i) ensures at.Some? && all[i].finished <= at.value {
      SuccessNext(run, o, i);
      if i < |run| {
        assert all[i] == run[i] && TakenSuccess(run, i);
      }
    }
  }

  lemma NewestIsThere(run: seq<Observation>, o: Observation, e: Evidence)
    requires NewestSuccess(run, e.succeeded) && Observe(e, o).succeeded.Some?
    requires Outdated(e, o) <==> !Taken(run + [o], |run|)
    ensures exists i: nat :: SuccessAt(run + [o], i, Observe(e, o).succeeded.value)
  {
    if !Outdated(e, o) && o.outcome.Success? {
      SuccessNext(run, o, |run|);
      assert SuccessAt(run + [o], |run|, o.finished);
    } else {
      var i: nat :| SuccessAt(run, i, e.succeeded.value);
      SuccessNext(run, o, i);
      assert SuccessAt(run + [o], i, e.succeeded.value);
    }
  }

  lemma LastNext(run: seq<Observation>, o: Observation, e: Evidence, last: nat)
    requires o.started <= o.finished && Last(e, run, last)
    requires Outdated(e, o) <==> !Taken(run + [o], |run|)
    ensures Last(Observe(e, o), run + [o], if Outdated(e, o) then last else |run|)
  {
    TakenNext(run, o);
    if Outdated(e, o) {
      assert (run + [o])[last] == run[last];
    }
  }

  /**
   * In any order of delivery the evidence is told by the observations that count:
   * a success counts if nothing that counted finished later, a failure if it
   * started no earlier than all that counted had finished, and after all successes
   * among them. The evidence reports the last one that counts, and holds the finish of
   * the newest success among them.
   */
  lemma {:induction false} EvidenceIsTheLastThatCounts(run: seq<Observation>) returns (last: nat)
    requires Attempts(run)
    ensures if run == [] then After(run) == Nothing else LastTaken(run, last) && Reports(After(run), run, last)
    ensures NewestSuccess(run, After(run).succeeded)
    ensures Covers(After(run), run)
    decreases |run|
  {
    last := 0;
    if run != [] {
      var front, o := run[..|run| - 1], run[|run| - 1];
      assert run == front + [o];
      var before := EvidenceIsTheLastThatCounts(front);
      var e := After(front);
      OutdatedMeans(front, o, e, before);
      TakenNext(front, o);
      CoversNext(front, o, e, before);
      NewestNext(front, o, e);
      LastNext(front, o, e, before);
      last := if Outdated(e, o) then before else |front|;
    }
  }
}
