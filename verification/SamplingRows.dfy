/** Which readings are stored and shown, told from the steps of the run alone. */
module SamplingRows {
  import opened Common
  import opened Sampling
  import opened SamplingProofs

  // ---- Runs by their last step ----

  lemma {:induction false} SplitRun(s: State, steps: seq<Step>)
    requires ValidRun(s, steps) && steps != []
    ensures var n := |steps| - 1;
            && ValidRun(s, steps[..n]) && Enabled(After(s, steps[..n]), steps[n])
            && After(s, steps) == Next(After(s, steps[..n]), steps[n])
    decreases |steps|
  {
    var n := |steps| - 1;
    if n > 0 {
      SplitRun(Next(s, steps[0]), steps[1..]);
      assert steps[1..][..n - 1] == steps[..n][1..];
    }
  }

  // ---- What the steps tell about each process ----

  /** A sampler between starting to collect and finishing. */
  predicate HasBegun(p: Process) {
    && p.job.Sample?
    && (p.stage.Collecting? || p.stage.Collected? || p.stage.Cloned? || p.stage.Barred?
        || p.stage.Confirmed? || p.stage.Recorded? || p.stage.Published?)
  }

  predicate HasReading(p: Process) {
    HasBegun(p) && !p.stage.Collecting?
  }

  predicate OwnStep(step: Step, pid: Pid) {
    Moves(step) && step.pid == pid
  }

  /** The collection began at step `p.started`, after the process was spawned for its ticket. */
  predicate BeganAt(steps: seq<Step>, pid: Pid, p: Process)
    requires p.job.Sample?
  {
    p.started < |steps| && steps[p.started] == Collect(pid) && Spawn(pid, p.job) in steps[..p.started]
  }

  /** A read came back after that, well or badly as the reading says. */
  ghost predicate ReadAfter(steps: seq<Step>, pid: Pid, p: Process)
    requires p.job.Sample?
  {
    && (exists a :: p.started < a < |steps| && steps[a] == Read(pid, p.reading.Good?))
    && (p.reading.Good? ==> p.reading == Good(p.job.ticket, p.started, false))
  }

  /** Every step of the run that concerns `pid` is reflected in `p`. */
  ghost predicate Reflects(steps: seq<Step>, pid: Pid, p: Process) {
    && (forall k :: 0 <= k < |steps| && steps[k].Spawn? && steps[k].pid == pid ==> steps[k].job == p.job)
    && (forall k :: 0 <= k < |steps| && steps[k] == Collect(pid) ==>
          (HasBegun(p) && k == p.started) || p.stage.Finished?)
    && (forall k :: 0 <= k < |steps| && steps[k].Read? && steps[k].pid == pid ==>
          (HasReading(p) && steps[k].ok == p.reading.Good?) || p.stage.Finished?)
  }

  ghost predicate Told(steps: seq<Step>, pid: Pid, p: Process) {
    && Spawn(pid, p.job) in steps
    && (HasBegun(p) ==> BeganAt(steps, pid, p))
    && (HasReading(p) ==> ReadAfter(steps, pid, p))
    && Reflects(steps, pid, p)
  }

  ghost predicate Chronicle(steps: seq<Step>, s: State) {
    && s.now == |steps|
    && (forall pid <- s.procs :: Told(steps, pid, s.procs[pid]))
    && (forall k :: 0 <= k < |steps| && Moves(steps[k]) ==> steps[k].pid in s.procs)
  }

  /** Steps of others change nothing about a process. */
  lemma OthersTellNothing(steps: seq<Step>, step: Step, pid: Pid, p: Process)
    requires Told(steps, pid, p) && !OwnStep(step, pid)
    ensures Told(steps + [step], pid, p)
  {
    var more := steps + [step];
    assert forall k :: 0 <= k < |steps| ==> more[k] == steps[k];
    if HasBegun(p) {
      assert more[..p.started] == steps[..p.started];
    }
    if HasReading(p) {
      var a :| p.started < a < |steps| && steps[a] == Read(pid, p.reading.Good?);
      assert more[a] == steps[a];
    }
  }

  lemma SpawnTells(steps: seq<Step>, s: State, pid: Pid, job: Job)
    requires Chronicle(steps, s) && Enabled(s, Spawn(pid, job))
    ensures Told(steps + [Spawn(pid, job)], pid, NextProcess(s, Spawn(pid, job)))
  {
    var more := steps + [Spawn(pid, job)];
    assert forall k :: 0 <= k < |steps| ==> more[k] == steps[k];
    assert more[|steps|] == Spawn(pid, job);
  }

  lemma CollectTells(steps: seq<Step>, s: State, pid: Pid)
    requires Chronicle(steps, s) && Enabled(s, Collect(pid))
    ensures Told(steps + [Collect(pid)], pid, NextProcess(s, Collect(pid)))
  {
    var more := steps + [Collect(pid)];
    assert Told(steps, pid, s.procs[pid]);
    assert forall k :: 0 <= k < |steps| ==> more[k] == steps[k];
    assert more[|steps|] == Collect(pid) && more[..|steps|] == steps;
  }

  lemma ReadTells(steps: seq<Step>, s: State, pid: Pid, ok: bool)
    requires Chronicle(steps, s) && Enabled(s, Read(pid, ok))
    ensures Told(steps + [Read(pid, ok)], pid, NextProcess(s, Read(pid, ok)))
  {
    var more := steps + [Read(pid, ok)];
    var p := s.procs[pid];
    assert Told(steps, pid, p);
    assert forall k :: 0 <= k < |steps| ==> more[k] == steps[k];
    assert more[|steps|] == Read(pid, ok) && more[..p.started] == steps[..p.started];
  }

  /** Any other step of its own only moves the process to a stage that fits what was told before. */
  lemma LaterStage(steps: seq<Step>, step: Step, pid: Pid, p: Process, q: Process)
    requires Told(steps, pid, p) && !step.Spawn? && !step.Collect? && !step.Read?
    requires q.job == p.job && q.started == p.started && q.reading == p.reading && !p.stage.Finished?
    requires q.stage.Finished? || (HasBegun(q) == HasBegun(p) && HasReading(q) == HasReading(p))
    ensures Told(steps + [step], pid, q)
  {
    var more := steps + [step];
    assert forall k :: 0 <= k < |steps| ==> more[k] == steps[k];
    if HasBegun(q) {
      assert more[..p.started] == steps[..p.started];
    }
    if HasReading(q) {
      var a :| p.started < a < |steps| && steps[a] == Read(pid, p.reading.Good?);
      assert more[a] == steps[a];
    }
  }

  lemma StageFollows(s: State, step: Step)
    requires Enabled(s, step) && Moves(step) && !step.Spawn? && !step.Collect? && !step.Read?
    ensures var p, q := s.procs[step.pid], NextProcess(s, step);
            && q.job == p.job && q.started == p.started && q.reading == p.reading && !p.stage.Finished?
            && (q.stage.Finished? || (HasBegun(q) == HasBegun(p) && HasReading(q) == HasReading(p)))
  {
  }

  lemma OwnStepTells(steps: seq<Step>, s: State, step: Step)
    requires Chronicle(steps, s) && Enabled(s, step) && Moves(step)
    ensures Told(steps + [step], step.pid, NextProcess(s, step))
  {
    if step.Spawn? {
      SpawnTells(steps, s, step.pid, step.job);
    } else if step.Collect? {
      CollectTells(steps, s, step.pid);
    } else if step.Read? {
      ReadTells(steps, s, step.pid, step.ok);
    } else {
      StageFollows(s, step);
      assert Told(steps, step.pid, s.procs[step.pid]);
      LaterStage(steps, step, step.pid, s.procs[step.pid], NextProcess(s, step));
    }
  }

  lemma ChronicleGoesOn(steps: seq<Step>, s: State, step: Step)
    requires Chronicle(steps, s) && Enabled(s, step)
    ensures Chronicle(steps + [step], Next(s, step))
  {
    var more, t := steps + [step], Next(s, step);
    NextProcs(s, step);
    forall pid <- t.procs ensures Told(more, pid, t.procs[pid]) {
      if OwnStep(step, pid) {
        OwnStepTells(steps, s, step);
      } else {
        OthersTellNothing(steps, step, pid, s.procs[pid]);
      }
    }
    forall k | 0 <= k < |more| && Moves(more[k]) ensures more[k].pid in t.procs {
      assert k < |steps| ==> more[k] == steps[k];
    }
  }

  lemma ChronicleOfFresh(servers: map<Id, Server>)
    ensures Chronicle([], Fresh(servers))
  {
  }

  lemma ChronicleOfLonger(s: State, steps: seq<Step>)
    requires ValidRun(s, steps) && steps != [] && ValidRun(s, steps[..|steps| - 1])
    requires Chronicle(steps[..|steps| - 1], After(s, steps[..|steps| - 1]))
    ensures Chronicle(steps, After(s, steps))
  {
    var n := |steps| - 1;
    SplitRun(s, steps);
    ChronicleGoesOn(steps[..n], After(s, steps[..n]), steps[n]);
    assert steps[..n] + [steps[n]] == steps;
  }

  lemma {:induction false} ChronicleHolds(servers: map<Id, Server>, steps: seq<Step>)
    requires ValidRun(Fresh(servers), steps)
    ensures Chronicle(steps, After(Fresh(servers), steps))
    decreases |steps|
  {
    if steps == [] {
      ChronicleOfFresh(servers);
    } else {
      SplitRun(Fresh(servers), steps);
      ChronicleHolds(servers, steps[..|steps| - 1]);
      ChronicleOfLonger(Fresh(servers), steps);
    }
  }

  // ---- Which rows are stored ----

  /** Step `k` removes the row: history is cleared, retention drops it, or its removed server is cleaned up. */
  predicate Dropping(steps: seq<Step>, k: nat, r: Row)
    requires k < |steps|
  {
    match steps[k]
    case Empty(_, ok) => ok
    case Prune(keep) => r !in keep
    case Release(q, cleaned) => cleaned && Spawn(q, Delete(r.origin.server.id)) in steps[..k]
    case _ => false
  }

  /** A sampler spawned for the row's ticket began collecting at its start, read well at `a` and recorded at `b`. */
  predicate StoredBy(steps: seq<Step>, r: Row, pid: Pid, a: nat, b: nat) {
    && r.started < a < b < |steps|
    && Spawn(pid, Sample(r.origin)) in steps[..r.started] && steps[r.started] == Collect(pid)
    && steps[a] == Read(pid, true) && steps[b] == Record(pid, true)
  }

  predicate Stands(steps: seq<Step>, r: Row, b: nat) {
    forall k :: b < k < |steps| ==> !Dropping(steps, k, r)
  }

  ghost predicate Kept(steps: seq<Step>, r: Row) {
    exists pid, a, b :: StoredBy(steps, r, pid, a, b) && Stands(steps, r, b)
  }

  /** A sampler ready to record has read what its steps say. */
  lemma RecordsWhatWasRead(steps: seq<Step>, s: State, pid: Pid, r: Row)
    requires Chronicle(steps, s) && Enabled(s, Record(pid, true))
    ensures var p := s.procs[pid];
            p.reading.Good? && r == Row(p.job.ticket, p.started) <==>
              exists a :: StoredBy(steps + [Record(pid, true)], r, pid, a, |steps|)
  {
    var more, p := steps + [Record(pid, true)], s.procs[pid];
    assert Told(steps, pid, p);
    assert forall k :: 0 <= k < |steps| ==> more[k] == steps[k];
    assert more[|steps|] == Record(pid, true);
    if p.reading.Good? && r == Row(p.job.ticket, p.started) {
      var a :| p.started < a < |steps| && steps[a] == Read(pid, p.reading.Good?);
      assert more[..p.started] == steps[..p.started];
      assert StoredBy(more, r, pid, a, |steps|);
    }
    if a: nat :| StoredBy(more, r, pid, a, |steps|) {
      assert steps[r.started] == Collect(pid) && steps[a] == Read(pid, true);
      assert more[..r.started] == steps[..r.started];
      assert Spawn(pid, Sample(r.origin)) in steps;
    }
  }

  /** The job of a process that releases its locks is the one it was spawned with. */
  lemma ReleasesItsJob(steps: seq<Step>, s: State, pid: Pid, job: Job)
    requires Chronicle(steps, s) && pid in s.procs
    ensures s.procs[pid].job == job <==> Spawn(pid, job) in steps
  {
    assert Told(steps, pid, s.procs[pid]);
  }

  lemma RecordRowStep(steps: seq<Step>, s: State, pid: Pid, stored: bool, r: Row)
    requires Chronicle(steps, s) && Enabled(s, Record(pid, stored))
    ensures r in Effect(s, Record(pid, stored)).rows <==>
              r in s.data.rows || exists a :: StoredBy(steps + [Record(pid, stored)], r, pid, a, |steps|)
  {
    if stored {
      RecordsWhatWasRead(steps, s, pid, r);
    } else {
      assert (steps + [Record(pid, stored)])[|steps|] == Record(pid, stored);
    }
  }

  lemma ReleaseRowStep(steps: seq<Step>, s: State, pid: Pid, cleaned: bool, r: Row)
    requires Chronicle(steps, s) && Enabled(s, Release(pid, cleaned))
    ensures r in Effect(s, Release(pid, cleaned)).rows <==>
              r in s.data.rows && !(cleaned && Spawn(pid, Delete(r.origin.server.id)) in steps)
  {
    ReleaseEffect(s, pid, cleaned);
    ReleasesItsJob(steps, s, pid, Delete(r.origin.server.id));
  }

  lemma RowStep(steps: seq<Step>, s: State, step: Step, r: Row)
    requires Chronicle(steps, s) && Enabled(s, step)
    ensures var more := steps + [step];
            r in Effect(s, step).rows <==>
              (step.Record? && exists a :: StoredBy(more, r, step.pid, a, |steps|))
              || (r in s.data.rows && !Dropping(more, |steps|, r))
  {
    var more := steps + [step];
    assert more[|steps|] == step && more[..|steps|] == steps;
    if step.Record? {
      RecordRowStep(steps, s, step.pid, step.stored, r);
    } else if step.Release? {
      ReleaseRowStep(steps, s, step.pid, step.cleaned, r);
    } else {
      OtherRows(s, step, r);
    }
  }

  lemma OtherRows(s: State, step: Step, r: Row)
    requires Enabled(s, step) && !step.Record? && !step.Release?
    ensures r in Effect(s, step).rows <==>
              r in s.data.rows && (step.Empty? ==> !step.ok) && (step.Prune? ==> r in step.keep)
  {
  }

  lemma DroppingLonger(steps: seq<Step>, step: Step, k: nat, r: Row)
    requires k < |steps|
    ensures Dropping(steps + [step], k, r) == Dropping(steps, k, r)
  {
    assert (steps + [step])[k] == steps[k] && (steps + [step])[..k] == steps[..k];
  }

  lemma StoredLonger(steps: seq<Step>, step: Step, r: Row, pid: Pid, a: nat, b: nat)
    requires b < |steps|
    ensures StoredBy(steps + [step], r, pid, a, b) == StoredBy(steps, r, pid, a, b)
  {
    var more := steps + [step];
    if r.started < a < b {
      assert more[..r.started] == steps[..r.started];
    }
  }

  lemma StandsLonger(steps: seq<Step>, step: Step, r: Row, b: nat)
    requires b < |steps|
    ensures Stands(steps + [step], r, b) <==> Stands(steps, r, b) && !Dropping(steps + [step], |steps|, r)
  {
    forall k: nat | k < |steps| ensures Dropping(steps + [step], k, r) == Dropping(steps, k, r) {
      DroppingLonger(steps, step, k, r);
    }
  }

  lemma KeptLonger(steps: seq<Step>, step: Step, r: Row)
    ensures var more := steps + [step];
            Kept(more, r) <==>
              (exists pid, a :: StoredBy(more, r, pid, a, |steps|)) || (Kept(steps, r) && !Dropping(more, |steps|, r))
  {
    var more := steps + [step];
    if pid: Pid, a: nat, b: nat :| StoredBy(more, r, pid, a, b) && Stands(more, r, b) {
      if b < |steps| {
        StoredLonger(steps, step, r, pid, a, b);
        StandsLonger(steps, step, r, b);
        assert StoredBy(steps, r, pid, a, b) && Stands(steps, r, b);
      }
    }
    if pid: Pid, a: nat :| StoredBy(more, r, pid, a, |steps|) {
      assert Stands(more, r, |steps|);
    }
    if Kept(steps, r) && !Dropping(more, |steps|, r) {
      var pid, a, b :| StoredBy(steps, r, pid, a, b) && Stands(steps, r, b);
      StoredLonger(steps, step, r, pid, a, b);
      StandsLonger(steps, step, r, b);
      assert StoredBy(more, r, pid, a, b) && Stands(more, r, b);
    }
  }

  lemma OnlyRecordStores(steps: seq<Step>, step: Step, r: Row, pid: Pid, a: nat)
    requires StoredBy(steps + [step], r, pid, a, |steps|)
    ensures step == Record(pid, true)
  {
    assert (steps + [step])[|steps|] == step;
  }

  lemma RowsOfLonger(s: State, steps: seq<Step>, r: Row)
    requires ValidRun(s, steps) && steps != [] && ValidRun(s, steps[..|steps| - 1])
    requires Chronicle(steps[..|steps| - 1], After(s, steps[..|steps| - 1]))
    requires r in After(s, steps[..|steps| - 1]).data.rows <==> Kept(steps[..|steps| - 1], r)
    ensures r in After(s, steps).data.rows <==> Kept(steps, r)
  {
    var n := |steps| - 1;
    var before, step := steps[..n], steps[n];
    assert before + [step] == steps;
    SplitRun(s, steps);
    NextProcs(After(s, before), step);
    RowStep(before, After(s, before), step, r);
    KeptLonger(before, step, r);
    if pid: Pid, a: nat :| StoredBy(steps, r, pid, a, n) {
      OnlyRecordStores(before, step, r, pid, a);
    }
  }

  /**
   * In every run the stored rows are exactly the good readings that were recorded
   * and not dropped since: each row comes from a sampler spawned for its ticket,
   * whose collection began at the row's start, whose read succeeded and whose
   * record was accepted; and each such reading is there until history is cleared,
   * retention drops it, or its server's removal is cleaned up.
   */
  lemma {:induction false} RowsAreTheRecordedReadings(servers: map<Id, Server>, steps: seq<Step>, r: Row)
    requires ValidRun(Fresh(servers), steps)
    ensures r in After(Fresh(servers), steps).data.rows <==> Kept(steps, r)
    decreases |steps|
  {
    if steps != [] {
      var before := steps[..|steps| - 1];
      SplitRun(Fresh(servers), steps);
      ChronicleHolds(servers, before);
      RowsAreTheRecordedReadings(servers, before, r);
      RowsOfLonger(Fresh(servers), steps, r);
    }
  }

  // ---- What is shown ----

  /** `pid` was spawned for `t`, began collecting at step `c` and its read came back as `ok`. */
  ghost predicate HasRead(steps: seq<Step>, pid: Pid, t: Ticket, c: nat, ok: bool) {
    && Spawn(pid, Sample(t)) in steps && c < |steps| && steps[c] == Collect(pid)
    && Read(pid, ok) in steps
  }

  lemma PublisherHasRead(steps: seq<Step>, s: State, pid: Pid, t: Ticket, c: nat, ok: bool)
    requires Chronicle(steps, s) && Enabled(s, Publish(pid)) && HasRead(steps, pid, t, c, ok)
    ensures s.procs[pid].job == Sample(t)
    ensures if ok then s.procs[pid].reading == Good(t, c, false) else s.procs[pid].reading.Bad?
  {
    assert Told(steps, pid, s.procs[pid]);
    var a :| 0 <= a < |steps| && steps[a] == Read(pid, ok);
  }

  /** What the cache holds for a server after a refresh of it. */
  predicate Refreshed(before: map<Id, Cached>, after: map<Id, Cached>, t: Ticket, c: nat, ok: bool) {
    var id := t.server.id;
    && after.Keys == before.Keys + {id}
    && (forall other <- before :: other != id ==> after[other] == before[other])
    && after[id].server == t.server && after[id].revision == t.revision
    && after[id].reading ==
         if ok then Good(t, c, false)
         else if id in before && before[id].reading.Good? && before[id].server.connection == t.server.connection
                 && before[id].revision == t.revision
         then before[id].reading.(collectionError := true)
         else Bad
  }

  /**
   * What a refresh publishes: a good read replaces the cached reading; a failed one
   * keeps the last good reading of the same connection and revision, marked with
   * the error, and otherwise shows the failure. Whoever waits for the first reading
   * is given it. Other servers' readings stay.
   */
  lemma PublishedIsWhatWasRead(servers: map<Id, Server>, steps: seq<Step>, s: State, pid: Pid, t: Ticket, c: nat, ok: bool)
    requires ValidRun(Fresh(servers), steps) && s == After(Fresh(servers), steps)
    requires Enabled(s, Publish(pid)) && HasRead(steps, pid, t, c, ok)
    ensures var after := Next(s, Publish(pid)).data;
            && Refreshed(s.data.latest, after.latest, t, c, ok)
            && FirstReading(after, t.server, t.revision) == Some(after.latest[t.server.id].reading)
  {
    ChronicleHolds(servers, steps);
    PublisherHasRead(steps, s, pid, t, c, ok);
    PublishRefreshes(s, pid, t, c, ok);
    NextProcs(s, Publish(pid));
  }

  lemma PublishRefreshes(s: State, pid: Pid, t: Ticket, c: nat, ok: bool)
    requires Enabled(s, Publish(pid)) && s.procs[pid].job == Sample(t)
    requires if ok then s.procs[pid].reading == Good(t, c, false) else s.procs[pid].reading.Bad?
    ensures var after := Effect(s, Publish(pid));
            && Refreshed(s.data.latest, after.latest, t, c, ok)
            && FirstReading(after, t.server, t.revision) == Some(after.latest[t.server.id].reading)
  {
  }
}
