/**
 What every interleaving of samplers with profile edits, removals and cache
 clearing keeps: locks are exclusive, readings are stored and published only for
 the current connection, a removed server's earlier readings never come back,
 refreshed results are never overwritten by older reads, and nothing deadlocks.
 */
module SamplingProofs {
  import opened Common
  import opened Sampling

  // ---- Locks ----

  predicate StageOk(p: Process) {
    match p.job
    case Sample(_) => !p.stage.Locked? && !p.stage.Committed?
    case Save(_, _) => p.stage.Called? || p.stage.Cloned? || p.stage.Barred? || p.stage.Locked? || p.stage.Committed? || p.stage.Finished?
    case Delete(_) => p.stage.Called? || p.stage.Cloned? || p.stage.Barred? || p.stage.Locked? || p.stage.Committed? || p.stage.Finished?
    case Clear => p.stage.Called? || p.stage.Cloned? || p.stage.Barred? || p.stage.Finished?
  }

  predicate LockOk(s: State, pid: Pid)
    requires pid in s.procs
  {
    var p := s.procs[pid];
    && StageOk(p)
    && (HoldsBarrier(p) <==> s.barrier == Some(pid))
    && (HoldsManager(p) <==> s.manager == Some(pid))
    && (InGate(p) ==> p.gate in s.entered && s.entered[p.gate] == pid)
  }

  predicate Locks(s: State) {
    && (forall pid <- s.procs :: LockOk(s, pid))
    && (s.barrier.Some? ==> s.barrier.value in s.procs)
    && (s.manager.Some? ==> s.manager.value in s.procs)
    && (forall g <- s.entered :: s.entered[g] in s.procs && InGate(s.procs[s.entered[g]]) && s.procs[s.entered[g]].gate == g)
  }

  /** `t` is `s` with process `pid` become `q`, locks following, whatever the data. */
  predicate Became(s: State, t: State, pid: Pid, q: Process) {
    && t.procs == s.procs[pid := q]
    && t.barrier == (if HoldsBarrier(q) then Some(pid) else if s.barrier == Some(pid) then None else s.barrier)
    && t.manager == (if HoldsManager(q) then Some(pid) else if s.manager == Some(pid) then None else s.manager)
    && t.entered == (if InGate(q) then s.entered[q.gate := pid]
                     else map g | g in s.entered && s.entered[g] != pid :: s.entered[g])
  }

  lemma BecomeKeepsLocks(s: State, t: State, pid: Pid, q: Process)
    requires Locks(s) && Became(s, t, pid, q) && StageOk(q)
    requires HoldsBarrier(q) ==> s.barrier.None? || s.barrier == Some(pid)
    requires HoldsManager(q) ==> s.manager.None? || s.manager == Some(pid)
    requires InGate(q) ==> q.gate !in s.entered || s.entered[q.gate] == pid
    requires pid in s.procs && InGate(s.procs[pid]) && InGate(q) ==> s.procs[pid].gate == q.gate
    ensures Locks(t)
  {
    forall other <- t.procs ensures LockOk(t, other) {
      if other != pid {
        assert LockOk(s, other);
      }
    }
    forall g <- t.entered
      ensures t.entered[g] in t.procs && InGate(t.procs[t.entered[g]]) && t.procs[t.entered[g]].gate == g
    {
    }
  }

  lemma NextBecomes(s: State, step: Step)
    requires Enabled(s, step) && Moves(step)
    ensures Became(s, Next(s, step), step.pid, NextProcess(s, step))
  {
  }

  lemma SameLocks(s: State, t: State)
    requires Locks(s)
    requires t.procs == s.procs && t.barrier == s.barrier && t.manager == s.manager && t.entered == s.entered
    ensures Locks(t)
  {
    forall pid <- t.procs ensures LockOk(t, pid) {
      assert LockOk(s, pid);
    }
  }

  lemma NextProcessFollowsLocks(s: State, step: Step)
    requires Locks(s) && Enabled(s, step) && Moves(step)
    ensures var pid, q := step.pid, NextProcess(s, step);
            && StageOk(q)
            && (HoldsBarrier(q) ==> s.barrier.None? || s.barrier == Some(pid))
            && (HoldsManager(q) ==> s.manager.None? || s.manager == Some(pid))
            && (InGate(q) ==> q.gate !in s.entered || s.entered[q.gate] == pid)
            && (pid in s.procs && InGate(s.procs[pid]) && InGate(q) ==> s.procs[pid].gate == q.gate)
  {
    if step.pid in s.procs {
      assert LockOk(s, step.pid);
    }
  }

  lemma StepKeepsLocks(s: State, step: Step)
    requires Locks(s) && Enabled(s, step)
    ensures Locks(Next(s, step))
  {
    if Moves(step) {
      NextProcessFollowsLocks(s, step);
      NextBecomes(s, step);
      BecomeKeepsLocks(s, Next(s, step), step.pid, NextProcess(s, step));
    } else {
      SameLocks(s, Next(s, step));
    }
  }

  // ---- What a step changes ----

  predicate IsConfirmed(p: Process) {
    p.job.Sample? && (p.stage.Confirmed? || p.stage.Recorded? || p.stage.Published?)
  }

  /** Between starting a collection and publishing it. */
  predicate InFlight(p: Process) {
    InGate(p) && !p.stage.Entered? && !p.stage.Checked? && !p.stage.Published?
  }

  /** How a process relates to the one it was. */
  predicate Succeeds(d: Shared, step: Step, p: Process, q: Process) {
    && q.job == p.job
    && (!step.TakeGate? ==> q.gate == p.gate && (RefersToGate(q) ==> RefersToGate(p)))
    && (!step.Read? ==> q.reading == p.reading)
    && (!step.Collect? ==> q.started == p.started && (InFlight(q) ==> InFlight(p)))
    && (IsConfirmed(q) ==>
          IsConfirmed(p) || MatchesConnection(d, q.job.ticket.server, q.job.ticket.revision))
  }

  lemma NextSucceeds(s: State, step: Step)
    requires Enabled(s, step) && Moves(step) && !step.Spawn?
    ensures step.pid in s.procs && Succeeds(s.data, step, s.procs[step.pid], NextProcess(s, step))
  {
  }

  lemma NextProcs(s: State, step: Step)
    requires Enabled(s, step)
    ensures var t := Next(s, step);
            && t.now == s.now + 1 && t.data == Effect(s, step)
            && t.procs == if Moves(step) then s.procs[step.pid := NextProcess(s, step)] else s.procs
  {
  }

  /** Which shared fields a step leaves alone. */
  lemma Frame(s: State, step: Step)
    requires Enabled(s, step)
    ensures var d, e := s.data, Effect(s, step);
            && (!step.TakeGate? && !step.Reap? ==> e.gates == d.gates)
            && (!step.Capture? ==> e.tickets == d.tickets)
            && (!step.Publish? && !step.Empty? && !step.Evict? ==> e.latest == d.latest)
            && (!step.Publish? ==> e.published == d.published)
  {
  }

  lemma FrameConfig(s: State, step: Step)
    requires Enabled(s, step) && !step.Commit?
    ensures var d, e := s.data, Effect(s, step);
            && e.servers == d.servers && e.revisions == d.revisions
            && e.nextRevision == d.nextRevision && e.deletedAt == d.deletedAt
  {
  }

  lemma FrameRows(s: State, step: Step)
    requires Enabled(s, step) && !step.Release?
    ensures var d, e := s.data, Effect(s, step);
            && (!step.Record? && !step.Empty? && !step.Prune? ==> e.rows == d.rows)
            && e.purgedAt == d.purgedAt
  {
  }

  // ---- Gates ----

  predicate GateOk(d: Shared, p: Process) {
    RefersToGate(p) ==> p.job.ticket.server.id in d.gates && d.gates[p.job.ticket.server.id] == p.gate
  }

  predicate Gates(s: State) {
    forall pid <- s.procs :: GateOk(s.data, s.procs[pid])
  }

  lemma TakeGateKeepsGates(s: State, pid: Pid)
    requires Gates(s) && Enabled(s, TakeGate(pid))
    ensures Gates(Next(s, TakeGate(pid)))
  {
    var t := Next(s, TakeGate(pid));
    forall other <- t.procs ensures GateOk(t.data, t.procs[other]) {
      if other != pid {
        assert GateOk(s.data, s.procs[other]);
      }
    }
  }

  lemma ReapKeepsGates(s: State, id: Id)
    requires Gates(s) && Enabled(s, Reap(id))
    ensures Gates(Next(s, Reap(id)))
  {
    var t := Next(s, Reap(id));
    forall pid <- t.procs ensures GateOk(t.data, t.procs[pid]) {
      assert GateOk(s.data, s.procs[pid]);
    }
  }

  lemma SpawnedIsInert(s: State, step: Step)
    requires Enabled(s, step) && step.Spawn?
    ensures var q := NextProcess(s, step);
            && q.job == step.job && q.stage.Called? && q.reading.Bad?
            && (q.job.Sample? ==> q.job.ticket in s.data.tickets)
  {
  }

  lemma MovedKeepsGates(s: State, t: State, step: Step, pid: Pid, q: Process)
    requires Gates(s) && t.data.gates == s.data.gates && t.procs == s.procs[pid := q] && !step.TakeGate?
    requires q.stage.Called? || (pid in s.procs && Succeeds(s.data, step, s.procs[pid], q))
    ensures Gates(t)
  {
    forall other <- t.procs ensures GateOk(t.data, t.procs[other]) {
      if other in s.procs {
        assert GateOk(s.data, s.procs[other]);
      }
    }
  }

  lemma StepKeepsGates(s: State, step: Step)
    requires Gates(s) && Enabled(s, step)
    ensures Gates(Next(s, step))
  {
    Frame(s, step);
    NextProcs(s, step);
    if step.TakeGate? {
      TakeGateKeepsGates(s, step.pid);
    } else if step.Reap? {
      ReapKeepsGates(s, step.id);
    } else if Moves(step) {
      if step.Spawn? {
        SpawnedIsInert(s, step);
      } else {
        NextSucceeds(s, step);
      }
      MovedKeepsGates(s, Next(s, step), step, step.pid, NextProcess(s, step));
    } else {
      SameGates(s, Next(s, step));
    }
  }

  lemma SameGates(s: State, t: State)
    requires Gates(s) && t.procs == s.procs && t.data.gates == s.data.gates
    ensures Gates(t)
  {
    forall pid <- t.procs ensures GateOk(t.data, t.procs[pid]) {
      assert GateOk(s.data, s.procs[pid]);
    }
  }

  /** Two samplers of one server are never inside the gate together. */
  lemma OneInsideTheGate(s: State, a: Pid, b: Pid)
    requires Locks(s) && Gates(s) && a in s.procs && b in s.procs
    requires InGate(s.procs[a]) && InGate(s.procs[b])
    requires s.procs[a].job.ticket.server.id == s.procs[b].job.ticket.server.id
    ensures a == b
  {
    assert LockOk(s, a) && LockOk(s, b);
    assert GateOk(s.data, s.procs[a]) && GateOk(s.data, s.procs[b]);
  }

  // ---- Tickets and the configuration ----

  /** A ticket taken before the last removal of its server can never match again. */
  predicate TicketOk(d: Shared, now: Time, t: Ticket) {
    var id := t.server.id;
    && t.asked < now
    && t.revision <= Revision(d, id)
    && (id in d.deletedAt && t.asked <= d.deletedAt[id] ==> id !in d.servers || t.revision < Revision(d, id))
  }

  predicate ConfigOk(d: Shared, now: Time) {
    && (forall t <- d.tickets :: TicketOk(d, now, t))
    && (forall id <- d.servers :: d.servers[id].id == id)
    && (forall id <- d.revisions :: d.revisions[id] <= d.nextRevision)
    && (forall id <- d.deletedAt :: d.deletedAt[id] < now)
  }

  lemma SavedKeepsConfig(d: Shared, now: Time, server: Server, newPassword: bool)
    requires ConfigOk(d, now)
    ensures ConfigOk(Saved(d, server, newPassword), now + 1)
  {
    var e := Saved(d, server, newPassword);
    SavedKeepsIds(d, server, newPassword);
    SavedKeepsRevisions(d, server, newPassword);
    forall t <- e.tickets ensures TicketOk(e, now + 1, t) {
      SavedKeepsTicket(d, now, server, newPassword, t);
    }
  }

  lemma SavedKeepsIds(d: Shared, server: Server, newPassword: bool)
    requires forall id <- d.servers :: d.servers[id].id == id
    ensures var e := Saved(d, server, newPassword); forall id <- e.servers :: e.servers[id].id == id
  {
    var e := Saved(d, server, newPassword);
    forall id <- e.servers ensures e.servers[id].id == id {
    }
  }

  lemma SavedKeepsRevisions(d: Shared, server: Server, newPassword: bool)
    requires forall id <- d.revisions :: d.revisions[id] <= d.nextRevision
    ensures var e := Saved(d, server, newPassword); forall id <- e.revisions :: e.revisions[id] <= e.nextRevision
  {
    var e := Saved(d, server, newPassword);
    forall id <- e.revisions ensures e.revisions[id] <= e.nextRevision {
    }
  }

  lemma SavedKeepsTicket(d: Shared, now: Time, server: Server, newPassword: bool, t: Ticket)
    requires TicketOk(d, now, t)
    requires forall id <- d.revisions :: d.revisions[id] <= d.nextRevision
    ensures TicketOk(Saved(d, server, newPassword), now + 1, t)
  {
  }

  lemma RemovedKeepsConfig(d: Shared, now: Time, id: Id)
    requires ConfigOk(d, now)
    ensures ConfigOk(Removed(d, id, now), now + 1)
  {
    var e := Removed(d, id, now);
    forall t <- e.tickets ensures TicketOk(e, now + 1, t) {
      assert TicketOk(d, now, t);
    }
  }

  lemma CapturedKeepsConfig(d: Shared, now: Time, id: Id)
    requires ConfigOk(d, now) && id in d.servers
    ensures ConfigOk(d.(tickets := d.tickets + {Ticket(d.servers[id], Revision(d, id), now)}), now + 1)
  {
    var e := d.(tickets := d.tickets + {Ticket(d.servers[id], Revision(d, id), now)});
    forall t <- e.tickets ensures TicketOk(e, now + 1, t) {
      if t in d.tickets {
        assert TicketOk(d, now, t);
      }
    }
  }

  lemma SameConfigOk(d: Shared, e: Shared, now: Time)
    requires ConfigOk(d, now)
    requires e.servers == d.servers && e.revisions == d.revisions && e.nextRevision == d.nextRevision
    requires e.deletedAt == d.deletedAt && e.tickets == d.tickets
    ensures ConfigOk(e, now + 1)
  {
    forall t <- e.tickets ensures TicketOk(e, now + 1, t) {
      assert TicketOk(d, now, t);
    }
  }

  lemma CommitEffect(s: State, pid: Pid, stored: bool)
    requires Enabled(s, Commit(pid, stored))
    ensures var e := Effect(s, Commit(pid, stored));
            || e == s.data
            || (s.procs[pid].job.Save? && e == Saved(s.data, s.procs[pid].job.server, s.procs[pid].job.newPassword))
            || (s.procs[pid].job.Delete? && e == Removed(s.data, s.procs[pid].job.id, s.now))
  {
  }

  lemma StepKeepsConfig(s: State, step: Step)
    requires ConfigOk(s.data, s.now) && Enabled(s, step)
    ensures ConfigOk(Next(s, step).data, Next(s, step).now)
  {
    NextProcs(s, step);
    if step.Commit? {
      CommitEffect(s, step.pid, step.stored);
      CommittedKeepsConfig(s, Next(s, step).data, step.pid);
    } else if step.Capture? {
      CapturedKeepsConfig(s.data, s.now, step.id);
    } else {
      Frame(s, step);
      FrameConfig(s, step);
      SameConfigOk(s.data, Next(s, step).data, s.now);
    }
  }

  lemma CommittedKeepsConfig(s: State, e: Shared, pid: Pid)
    requires ConfigOk(s.data, s.now) && pid in s.procs
    requires || e == s.data
             || (s.procs[pid].job.Save? && e == Saved(s.data, s.procs[pid].job.server, s.procs[pid].job.newPassword))
             || (s.procs[pid].job.Delete? && e == Removed(s.data, s.procs[pid].job.id, s.now))
    ensures ConfigOk(e, s.now + 1)
  {
    if e == s.data {
      SameConfigOk(s.data, e, s.now);
    } else if s.procs[pid].job.Save? {
      SavedKeepsConfig(s.data, s.now, s.procs[pid].job.server, s.procs[pid].job.newPassword);
    } else {
      RemovedKeepsConfig(s.data, s.now, s.procs[pid].job.id);
    }
  }

  predicate Ticketed(d: Shared, p: Process) {
    p.job.Sample? ==> p.job.ticket in d.tickets
  }

  predicate Tickets(s: State) {
    ConfigOk(s.data, s.now) && forall pid <- s.procs :: Ticketed(s.data, s.procs[pid])
  }

  lemma StepKeepsTickets(s: State, step: Step)
    requires Tickets(s) && Enabled(s, step)
    ensures Tickets(Next(s, step))
  {
    StepKeepsConfig(s, step);
    NextProcs(s, step);
    TicketsGrow(s, step);
    if Moves(step) {
      if step.Spawn? {
        SpawnedIsInert(s, step);
      } else {
        NextSucceeds(s, step);
      }
      MovedKeepsTicketed(s, Next(s, step), step.pid, NextProcess(s, step));
    } else {
      SameTicketed(s, Next(s, step));
    }
  }

  lemma TicketsGrow(s: State, step: Step)
    requires Enabled(s, step)
    ensures s.data.tickets <= Effect(s, step).tickets
  {
  }

  lemma MovedKeepsTicketed(s: State, t: State, pid: Pid, q: Process)
    requires forall k <- s.procs :: Ticketed(s.data, s.procs[k])
    requires s.data.tickets <= t.data.tickets && t.procs == s.procs[pid := q]
    requires if pid in s.procs then q.job == s.procs[pid].job else Ticketed(s.data, q)
    ensures forall k <- t.procs :: Ticketed(t.data, t.procs[k])
  {
    forall k <- t.procs ensures Ticketed(t.data, t.procs[k]) {
      if k in s.procs {
        assert Ticketed(s.data, s.procs[k]);
      }
    }
  }

  lemma SameTicketed(s: State, t: State)
    requires forall k <- s.procs :: Ticketed(s.data, s.procs[k])
    requires s.data.tickets <= t.data.tickets && t.procs == s.procs
    ensures forall k <- t.procs :: Ticketed(t.data, t.procs[k])
  {
    forall k <- t.procs ensures Ticketed(t.data, t.procs[k]) {
      assert Ticketed(s.data, s.procs[k]);
    }
  }

  // ---- Confirmed samplers ----

  predicate CurrentOk(d: Shared, p: Process) {
    IsConfirmed(p) ==> MatchesConnection(d, p.job.ticket.server, p.job.ticket.revision)
  }

  predicate Current(s: State) {
    forall pid <- s.procs :: CurrentOk(s.data, s.procs[pid])
  }

  /** Whoever commits holds the barrier, so no sampler is between confirming and finishing. */
  lemma NobodyConfirmed(s: State, t: State, pid: Pid, q: Process)
    requires Locks(s) && pid in s.procs && HoldsManager(s.procs[pid])
    requires t.procs == s.procs[pid := q] && q.job == s.procs[pid].job
    ensures Current(t)
  {
    assert LockOk(s, pid);
    forall other <- t.procs ensures CurrentOk(t.data, t.procs[other]) {
      if other in s.procs {
        assert LockOk(s, other);
      }
    }
  }

  lemma MovedKeepsCurrent(s: State, t: State, step: Step, pid: Pid, q: Process)
    requires Current(s) && t.procs == s.procs[pid := q]
    requires t.data.servers == s.data.servers && t.data.revisions == s.data.revisions
    requires q.stage.Called? || (pid in s.procs && Succeeds(s.data, step, s.procs[pid], q))
    ensures Current(t)
  {
    forall other <- t.procs ensures CurrentOk(t.data, t.procs[other]) {
      if other in s.procs {
        assert CurrentOk(s.data, s.procs[other]);
      }
    }
  }

  lemma SameCurrent(s: State, t: State)
    requires Current(s) && t.procs == s.procs
    requires t.data.servers == s.data.servers && t.data.revisions == s.data.revisions
    ensures Current(t)
  {
    forall pid <- t.procs ensures CurrentOk(t.data, t.procs[pid]) {
      assert CurrentOk(s.data, s.procs[pid]);
    }
  }

  lemma StepKeepsCurrent(s: State, step: Step)
    requires Locks(s) && Current(s) && Enabled(s, step)
    ensures Current(Next(s, step))
  {
    NextProcs(s, step);
    if step.Commit? {
      NextSucceeds(s, step);
      NobodyConfirmed(s, Next(s, step), step.pid, NextProcess(s, step));
    } else {
      FrameConfig(s, step);
      if !Moves(step) {
        SameCurrent(s, Next(s, step));
      } else {
        if step.Spawn? {
          SpawnedIsInert(s, step);
        } else {
          NextSucceeds(s, step);
        }
        MovedKeepsCurrent(s, Next(s, step), step, step.pid, NextProcess(s, step));
      }
    }
  }

  // ---- Stored rows ----

  predicate RowOk(d: Shared, r: Row) {
    r.origin.server.id in d.purgedAt ==> d.purgedAt[r.origin.server.id] < r.origin.asked
  }

  predicate RowsOk(d: Shared) {
    && (forall r <- d.rows :: RowOk(d, r))
    && (forall id <- d.purgedAt :: id in d.deletedAt && d.purgedAt[id] <= d.deletedAt[id])
  }

  /** What a confirmed sampler writes was asked for after the last removal of its server. */
  lemma ConfirmedAfterDelete(s: State, pid: Pid)
    requires Tickets(s) && Current(s) && pid in s.procs && IsConfirmed(s.procs[pid])
    ensures var t := s.procs[pid].job.ticket;
            && MatchesConnection(s.data, t.server, t.revision)
            && (t.server.id in s.data.deletedAt ==> s.data.deletedAt[t.server.id] < t.asked)
  {
    assert CurrentOk(s.data, s.procs[pid]);
    assert Ticketed(s.data, s.procs[pid]);
    assert TicketOk(s.data, s.now, s.procs[pid].job.ticket);
  }

  lemma RecordKeepsRows(s: State, pid: Pid, stored: bool)
    requires Tickets(s) && Current(s) && RowsOk(s.data) && Enabled(s, Record(pid, stored))
    ensures RowsOk(Next(s, Record(pid, stored)).data)
  {
    ConfirmedAfterDelete(s, pid);
    var e := Next(s, Record(pid, stored)).data;
    forall r <- e.rows ensures RowOk(e, r) {
      if r in s.data.rows {
        assert RowOk(s.data, r);
      }
    }
  }

  lemma PurgeKeepsRows(d: Shared, id: Id)
    requires RowsOk(d)
    ensures RowsOk(Purged(d, id))
  {
    var e := Purged(d, id);
    forall r <- e.rows ensures RowOk(e, r) {
      assert RowOk(d, r);
    }
  }

  lemma FewerRows(d: Shared, e: Shared)
    requires RowsOk(d) && e.rows <= d.rows && e.purgedAt == d.purgedAt
    requires forall id <- d.deletedAt :: id in e.deletedAt && d.deletedAt[id] <= e.deletedAt[id]
    ensures RowsOk(e)
  {
    forall r <- e.rows ensures RowOk(e, r) {
      assert RowOk(d, r);
    }
  }

  lemma CommitOnlyDates(s: State, e: Shared, pid: Pid)
    requires ConfigOk(s.data, s.now) && pid in s.procs
    requires || e == s.data
             || (s.procs[pid].job.Save? && e == Saved(s.data, s.procs[pid].job.server, s.procs[pid].job.newPassword))
             || (s.procs[pid].job.Delete? && e == Removed(s.data, s.procs[pid].job.id, s.now))
    ensures e.rows == s.data.rows && e.purgedAt == s.data.purgedAt
    ensures forall id <- s.data.deletedAt :: id in e.deletedAt && s.data.deletedAt[id] <= e.deletedAt[id]
  {
  }

  lemma ReleaseEffect(s: State, pid: Pid, cleaned: bool)
    requires Enabled(s, Release(pid, cleaned))
    ensures var e := Effect(s, Release(pid, cleaned));
            if cleaned && s.procs[pid].job.Delete? then e == Purged(s.data, s.procs[pid].job.id) else e == s.data
  {
  }

  lemma RowsShrink(s: State, step: Step)
    requires Enabled(s, step) && (step.Empty? || step.Prune?)
    ensures Effect(s, step).rows <= s.data.rows
  {
  }

  lemma StepKeepsRows(s: State, step: Step)
    requires Tickets(s) && Current(s) && RowsOk(s.data) && Enabled(s, step)
    ensures RowsOk(Next(s, step).data)
  {
    NextProcs(s, step);
    if step.Record? {
      RecordKeepsRows(s, step.pid, step.stored);
    } else if step.Release? {
      ReleaseEffect(s, step.pid, step.cleaned);
      PurgeKeepsRows(s.data, if s.procs[step.pid].job.Delete? then s.procs[step.pid].job.id else 0);
    } else if step.Commit? {
      CommitEffect(s, step.pid, step.stored);
      CommitOnlyDates(s, Next(s, step).data, step.pid);
      FewerRows(s.data, Next(s, step).data);
    } else {
      FrameConfig(s, step);
      FrameRows(s, step);
      if step.Empty? || step.Prune? {
        RowsShrink(s, step);
      }
      FewerRows(s.data, Next(s, step).data);
    }
  }

  /** A removal that has committed has its date on record until it releases its locks. */
  predicate DatedOk(d: Shared, p: Process) {
    p.job.Delete? && p.stage.Committed? ==> p.job.id in d.deletedAt
  }

  predicate Dated(s: State) {
    forall pid <- s.procs :: DatedOk(s.data, s.procs[pid])
  }

  lemma DatesGrow(s: State, step: Step)
    requires ConfigOk(s.data, s.now) && Enabled(s, step)
    ensures forall id <- s.data.deletedAt :: id in Effect(s, step).deletedAt
  {
    if step.Commit? {
      CommitEffect(s, step.pid, step.stored);
      CommitOnlyDates(s, Effect(s, step), step.pid);
    } else {
      FrameConfig(s, step);
    }
  }

  lemma NextDated(s: State, step: Step)
    requires Enabled(s, step) && Moves(step)
    ensures DatedOk(Effect(s, step), NextProcess(s, step))
  {
  }

  lemma MovedKeepsDated(s: State, t: State, pid: Pid, q: Process)
    requires Dated(s) && t.procs == s.procs[pid := q] && DatedOk(t.data, q)
    requires forall id <- s.data.deletedAt :: id in t.data.deletedAt
    ensures Dated(t)
  {
    forall k <- t.procs ensures DatedOk(t.data, t.procs[k]) {
      if k in s.procs {
        assert DatedOk(s.data, s.procs[k]);
      }
    }
  }

  lemma StepKeepsDated(s: State, step: Step)
    requires ConfigOk(s.data, s.now) && Dated(s) && Enabled(s, step)
    ensures Dated(Next(s, step))
  {
    NextProcs(s, step);
    DatesGrow(s, step);
    if Moves(step) {
      NextDated(s, step);
      MovedKeepsDated(s, Next(s, step), step.pid, NextProcess(s, step));
    } else {
      forall k <- s.procs ensures DatedOk(Next(s, step).data, s.procs[k]) {
        assert DatedOk(s.data, s.procs[k]);
      }
    }
  }

  /** Purge dates never go back. */
  lemma PurgesGrow(s: State, step: Step, id: Id)
    requires RowsOk(s.data) && Enabled(s, step) && id in s.data.purgedAt
    ensures id in Effect(s, step).purgedAt && s.data.purgedAt[id] <= Effect(s, step).purgedAt[id]
  {
    if step.Release? {
      ReleaseEffect(s, step.pid, step.cleaned);
    } else {
      FrameRows(s, step);
    }
  }

  // ---- The cache ----

  predicate CacheOk(id: Id, c: Cached) {
    && c.server.id == id
    && (c.reading.Good? ==>
          && c.reading.origin.server.id == id && SameConnection(c.reading.origin.server, c.server)
          && c.reading.origin.revision == c.revision)
  }

  predicate ReadingOk(p: Process) {
    p.job.Sample? && p.reading.Good? ==> p.reading.origin == p.job.ticket
  }

  predicate Cache(s: State) {
    && (forall id <- s.data.latest :: CacheOk(id, s.data.latest[id]))
    && (forall pid <- s.procs :: ReadingOk(s.procs[pid]))
  }

  lemma ToCacheOk(d: Shared, t: Ticket, reading: Reading)
    requires forall id <- d.latest :: CacheOk(id, d.latest[id])
    requires reading.Good? ==> reading.origin == t
    ensures CacheOk(t.server.id, ToCache(d, t, reading))
  {
    if t.server.id in d.latest {
      assert CacheOk(t.server.id, d.latest[t.server.id]);
    }
  }

  lemma PublishEffect(s: State, pid: Pid)
    requires Enabled(s, Publish(pid))
    ensures var p, t := s.procs[pid], Next(s, Publish(pid));
            && t.data.latest == s.data.latest[p.job.ticket.server.id := ToCache(s.data, p.job.ticket, p.reading)]
            && t.data.published == s.data.published + [Publication(p.job.ticket.server.id, p.started, s.now)]
            && t.procs == s.procs[pid := p.(stage := Published)] && t.now == s.now + 1
  {
  }

  lemma CacheShrinks(s: State, step: Step)
    requires Enabled(s, step) && (step.Empty? || step.Evict?)
    ensures var e := Effect(s, step);
            forall id <- e.latest :: id in s.data.latest && e.latest[id] == s.data.latest[id]
  {
  }

  lemma StepKeepsCached(s: State, step: Step)
    requires Cache(s) && Enabled(s, step)
    ensures var e := Next(s, step).data; forall id <- e.latest :: CacheOk(id, e.latest[id])
  {
    NextProcs(s, step);
    if step.Publish? {
      var p := s.procs[step.pid];
      assert ReadingOk(p);
      ToCacheOk(s.data, p.job.ticket, p.reading);
      PublishEffect(s, step.pid);
    } else if step.Empty? || step.Evict? {
      CacheShrinks(s, step);
    } else {
      Frame(s, step);
    }
  }

  lemma NextReading(s: State, step: Step)
    requires Enabled(s, step) && Moves(step)
    requires step.pid in s.procs ==> ReadingOk(s.procs[step.pid])
    ensures ReadingOk(NextProcess(s, step))
  {
  }

  lemma StepKeepsCache(s: State, step: Step)
    requires Cache(s) && Enabled(s, step)
    ensures Cache(Next(s, step))
  {
    StepKeepsCached(s, step);
    NextProcs(s, step);
    if Moves(step) {
      NextReading(s, step);
      MovedKeepsReadings(s, Next(s, step), step.pid, NextProcess(s, step));
    }
  }

  lemma MovedKeepsReadings(s: State, t: State, pid: Pid, q: Process)
    requires forall k <- s.procs :: ReadingOk(s.procs[k])
    requires t.procs == s.procs[pid := q] && ReadingOk(q)
    ensures forall k <- t.procs :: ReadingOk(t.procs[k])
  {
    forall k <- t.procs ensures ReadingOk(t.procs[k]) {
      if k in s.procs {
        assert ReadingOk(s.procs[k]);
      }
    }
  }

  // ---- Publication order ----

  predicate FlightOk(published: seq<Publication>, now: Time, p: Process) {
    InFlight(p) ==>
      && p.started < now
      && forall k :: 0 <= k < |published| && published[k].id == p.job.ticket.server.id ==> published[k].at < p.started
  }

  /** Readings of one server are published in the order their collection began, one after the other. */
  predicate Ordered(published: seq<Publication>) {
    forall a, b :: 0 <= a < b < |published| && published[a].id == published[b].id ==>
      published[a].at < published[b].started
  }

  predicate Order(s: State) {
    && (forall pid <- s.procs :: FlightOk(s.data.published, s.now, s.procs[pid]))
    && Ordered(s.data.published)
    && (forall k :: 0 <= k < |s.data.published| ==> s.data.published[k].started < s.data.published[k].at < s.now)
  }

  lemma PublishKeepsOrder(s: State, pid: Pid)
    requires Locks(s) && Gates(s) && Order(s) && Enabled(s, Publish(pid))
    ensures Order(Next(s, Publish(pid)))
  {
    PublishEffect(s, pid);
    var p := s.procs[pid];
    assert FlightOk(s.data.published, s.now, p);
    forall other <- s.procs | other != pid
      ensures InFlight(s.procs[other]) ==> s.procs[other].job.ticket.server.id != p.job.ticket.server.id
    {
      if InFlight(s.procs[other]) && s.procs[other].job.ticket.server.id == p.job.ticket.server.id {
        OneInsideTheGate(s, pid, other);
      }
    }
    PublishedInOrder(s, Next(s, Publish(pid)), pid, p);
  }

  lemma PublishedInOrder(s: State, t: State, pid: Pid, p: Process)
    requires Order(s) && pid in s.procs && s.procs[pid] == p && InFlight(p)
    requires t.procs == s.procs[pid := p.(stage := Published)] && t.now == s.now + 1
    requires t.data.published == s.data.published + [Publication(p.job.ticket.server.id, p.started, s.now)]
    requires forall other <- s.procs | other != pid ::
               InFlight(s.procs[other]) ==> s.procs[other].job.ticket.server.id != p.job.ticket.server.id
    ensures Order(t)
  {
    assert FlightOk(s.data.published, s.now, p);
    forall other <- t.procs ensures FlightOk(t.data.published, t.now, t.procs[other]) {
      if other != pid {
        assert FlightOk(s.data.published, s.now, s.procs[other]);
      }
    }
  }

  lemma MovedKeepsOrder(s: State, t: State, step: Step, pid: Pid, q: Process)
    requires Order(s) && t.procs == s.procs[pid := q] && t.now == s.now + 1
    requires t.data.published == s.data.published
    requires || q.stage.Called? || (step.Collect? && q.started == s.now)
             || (pid in s.procs && !step.Collect? && Succeeds(s.data, step, s.procs[pid], q))
    ensures Order(t)
  {
    forall other <- t.procs ensures FlightOk(t.data.published, t.now, t.procs[other]) {
      if other in s.procs {
        assert FlightOk(s.data.published, s.now, s.procs[other]);
      }
    }
  }

  lemma LaterKeepsOrder(s: State, t: State)
    requires Order(s) && t.procs == s.procs && t.now == s.now + 1 && t.data.published == s.data.published
    ensures Order(t)
  {
    forall pid <- t.procs ensures FlightOk(t.data.published, t.now, t.procs[pid]) {
      assert FlightOk(s.data.published, s.now, s.procs[pid]);
    }
  }

  lemma CollectStartsNow(s: State, pid: Pid)
    requires Enabled(s, Collect(pid))
    ensures NextProcess(s, Collect(pid)).started == s.now
  {
  }

  lemma StepKeepsOrder(s: State, step: Step)
    requires Locks(s) && Gates(s) && Order(s) && Enabled(s, step)
    ensures Order(Next(s, step))
  {
    NextProcs(s, step);
    Frame(s, step);
    if step.Publish? {
      PublishKeepsOrder(s, step.pid);
    } else if !Moves(step) {
      LaterKeepsOrder(s, Next(s, step));
    } else {
      if step.Spawn? {
        SpawnedIsInert(s, step);
      } else if step.Collect? {
        CollectStartsNow(s, step.pid);
      } else {
        NextSucceeds(s, step);
      }
      MovedKeepsOrder(s, Next(s, step), step, step.pid, NextProcess(s, step));
    }
  }

  // ---- All together ----

  predicate Inv(s: State) {
    Locks(s) && Gates(s) && Tickets(s) && Current(s) && RowsOk(s.data) && Dated(s) && Cache(s) && Order(s)
  }

  lemma FreshInv(servers: map<Id, Server>)
    requires ById(servers)
    ensures Inv(Fresh(servers))
  {
  }

  lemma StepKeepsInv(s: State, step: Step)
    requires Inv(s) && Enabled(s, step)
    ensures Inv(Next(s, step))
  {
    StepKeepsLocks(s, step);
    StepKeepsGates(s, step);
    StepKeepsTickets(s, step);
    StepKeepsCurrent(s, step);
    StepKeepsRows(s, step);
    StepKeepsDated(s, step);
    StepKeepsCache(s, step);
    StepKeepsOrder(s, step);
  }

  lemma {:induction false} RunKeepsInv(s: State, steps: seq<Step>)
    requires Inv(s) && ValidRun(s, steps)
    ensures Inv(After(s, steps))
    decreases |steps|
  {
    if steps != [] {
      StepKeepsInv(s, steps[0]);
      RunKeepsInv(Next(s, steps[0]), steps[1..]);
    }
  }

  // ---- Main results ----

  predicate ById(servers: map<Id, Server>) {
    forall id <- servers :: servers[id].id == id
  }

  lemma ReachableInv(servers: map<Id, Server>, steps: seq<Step>)
    requires ById(servers) && ValidRun(Fresh(servers), steps)
    ensures Inv(After(Fresh(servers), steps))
  {
    FreshInv(servers);
    RunKeepsInv(Fresh(servers), steps);
  }

  /**
   In every interleaving a reading is stored or published only while the profile
   and revision it was asked for are still the configured ones, and only if it
   was asked for after the last removal of that server.
   */
  lemma StoredOnlyWhileCurrent(servers: map<Id, Server>, steps: seq<Step>, step: Step)
    requires ById(servers) && ValidRun(Fresh(servers), steps)
    requires Enabled(After(Fresh(servers), steps), step) && (step.Record? || step.Publish?)
    ensures var s := After(Fresh(servers), steps);
            var t := s.procs[step.pid].job.ticket;
            && MatchesConnection(s.data, t.server, t.revision)
            && (t.server.id in s.data.deletedAt ==> s.data.deletedAt[t.server.id] < t.asked)
  {
    ReachableInv(servers, steps);
    ConfirmedAfterDelete(After(Fresh(servers), steps), step.pid);
  }

  lemma {:induction false} RowsStayPurged(s: State, steps: seq<Step>, id: Id)
    requires Inv(s) && ValidRun(s, steps) && id in s.data.purgedAt
    ensures forall r <- After(s, steps).data.rows :: r.origin.server.id == id ==> s.data.purgedAt[id] < r.origin.asked
    decreases |steps|
  {
    if steps == [] {
      forall r <- s.data.rows | r.origin.server.id == id ensures s.data.purgedAt[id] < r.origin.asked {
        assert RowOk(s.data, r);
      }
    } else {
      StepKeepsInv(s, steps[0]);
      NextProcs(s, steps[0]);
      PurgesGrow(s, steps[0], id);
      RowsStayPurged(Next(s, steps[0]), steps[1..], id);
    }
  }

  /**
   Once a removal has cleaned up, no later state of any continuation holds a
   reading that was asked for before the removal, even if the same id is saved
   again and sampled anew.
   */
  lemma DeletedReadingsNeverReturn(servers: map<Id, Server>, before: seq<Step>, pid: Pid, later: seq<Step>)
    requires ById(servers) && ValidRun(Fresh(servers), before)
    requires Enabled(After(Fresh(servers), before), Release(pid, true))
    requires After(Fresh(servers), before).procs[pid].job.Delete?
    requires ValidRun(Next(After(Fresh(servers), before), Release(pid, true)), later)
    ensures var s := After(Fresh(servers), before);
            var id := s.procs[pid].job.id;
            && id in s.data.deletedAt
            && forall r <- After(Next(s, Release(pid, true)), later).data.rows ::
                 r.origin.server.id == id ==> s.data.deletedAt[id] < r.origin.asked
  {
    ReachableInv(servers, before);
    var s := After(Fresh(servers), before);
    assert DatedOk(s.data, s.procs[pid]);
    StepKeepsInv(s, Release(pid, true));
    NextProcs(s, Release(pid, true));
    ReleaseEffect(s, pid, true);
    RowsStayPurged(Next(s, Release(pid, true)), later, s.procs[pid].job.id);
  }

  /**
   The readings of one server are published one after the other: each began only
   after the one before it was out, so an older background read never replaces a
   refreshed result.
   */
  lemma RefreshesAreNotOverwritten(servers: map<Id, Server>, steps: seq<Step>)
    requires ById(servers) && ValidRun(Fresh(servers), steps)
    ensures Ordered(After(Fresh(servers), steps).data.published)
  {
    ReachableInv(servers, steps);
  }

  /** A cached value never crosses servers, connections or revisions, not even one kept through later failures. */
  lemma CachedReadingsMatchTheirCaller(servers: map<Id, Server>, steps: seq<Step>, server: Server, revision: nat)
    requires ById(servers) && ValidRun(Fresh(servers), steps)
    ensures var r := FirstReading(After(Fresh(servers), steps).data, server, revision);
            r.Some? && r.value.Good? ==>
              && r.value.origin.server.id == server.id && SameConnection(r.value.origin.server, server)
              && r.value.origin.revision == revision
  {
    ReachableInv(servers, steps);
    var d := After(Fresh(servers), steps).data;
    if server.id in d.latest {
      assert CacheOk(server.id, d.latest[server.id]);
    }
  }

  /** A process with both global locks free, and not queueing for a gate, can step. */
  lemma FreeProcessSteps(s: State, pid: Pid) returns (step: Step)
    requires Locks(s) && s.manager.None? && s.barrier.None?
    requires pid in s.procs && !s.procs[pid].stage.Finished? && !s.procs[pid].stage.Queued?
    ensures Enabled(s, step) && Moves(step) && !step.Spawn? && !step.Cancel?
  {
    assert LockOk(s, pid);
    match s.procs[pid].stage {
      case Called => step := if s.procs[pid].job.Sample? then TakeGate(pid) else Clone(pid);
      case Entered => step := Check(pid);
      case Checked => step := if CanShare(s, pid) then Share(pid) else Collect(pid);
      case Collecting => step := Read(pid, true);
      case Collected => step := Clone(pid);
      case Cloned => step := TakeBarrier(pid);
    }
  }

  lemma HolderSteps(s: State, pid: Pid) returns (step: Step)
    requires Locks(s) && pid in s.procs && HoldsBarrier(s.procs[pid])
    requires s.manager.None? || HoldsManager(s.procs[pid])
    ensures Enabled(s, step) && Moves(step) && !step.Spawn? && !step.Cancel?
  {
    assert LockOk(s, pid);
    match s.procs[pid].stage {
      case Barred =>
        step := match s.procs[pid].job
          case Sample(_) => Confirm(pid)
          case Clear => Empty(pid, true)
          case _ => Lock(pid);
      case Confirmed => step := Record(pid, true);
      case Recorded => step := Publish(pid);
      case Published => step := Complete(pid);
      case Locked => step := Commit(pid, true);
      case Committed => step := Release(pid, true);
    }
  }

  /** The locks are always taken gate, barrier, manager, so some unfinished process can always step. */
  lemma NoDeadlock(servers: map<Id, Server>, steps: seq<Step>, pid: Pid) returns (step: Step)
    requires ById(servers) && ValidRun(Fresh(servers), steps)
    requires pid in After(Fresh(servers), steps).procs && !After(Fresh(servers), steps).procs[pid].stage.Finished?
    ensures Enabled(After(Fresh(servers), steps), step) && Moves(step) && !step.Spawn? && !step.Cancel?
  {
    ReachableInv(servers, steps);
    step := SomeProcessSteps(After(Fresh(servers), steps), pid);
  }

  lemma SomeProcessSteps(s: State, pid: Pid) returns (step: Step)
    requires Inv(s) && pid in s.procs && !s.procs[pid].stage.Finished?
    ensures Enabled(s, step) && Moves(step) && !step.Spawn? && !step.Cancel?
  {
    if s.manager.Some? {
      assert LockOk(s, s.manager.value);
      step := HolderSteps(s, s.manager.value);
    } else if s.barrier.Some? {
      assert LockOk(s, s.barrier.value);
      step := HolderSteps(s, s.barrier.value);
    } else if !s.procs[pid].stage.Queued? {
      step := FreeProcessSteps(s, pid);
    } else {
      assert LockOk(s, pid);
      var g := s.procs[pid].gate;
      if g in s.entered {
        step := FreeProcessSteps(s, s.entered[g]);
      } else {
        step := Enter(pid);
      }
    }
  }
}
