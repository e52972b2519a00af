/** When a refresh shares another one's result, and which readings an edit retires. */
module SamplingShared {
  import opened Common
  import opened Sampling
  import opened SamplingProofs
  import opened SamplingRows

  // ---- Dates of requests, gates and completions ----

  /** A request is dated by its spawning; the gate comes later, and completing is the end. */
  predicate Timed(steps: seq<Step>, pid: Pid, p: Process) {
    && p.requested < |steps| && steps[p.requested] == Spawn(pid, p.job)
    && (forall i :: 0 <= i < |steps| && steps[i] == TakeGate(pid) ==> p.requested < i && !p.stage.Called?)
    && (RefersToGate(p) ==> TakeGate(pid) in steps)
    && (Complete(pid) in steps ==> p.stage.Finished? && p.job.Sample? && TakeGate(pid) in steps)
  }

  ghost predicate AllTimed(steps: seq<Step>, s: State) {
    forall pid <- s.procs :: Timed(steps, pid, s.procs[pid])
  }

  lemma OthersKeepTime(steps: seq<Step>, step: Step, pid: Pid, p: Process)
    requires Timed(steps, pid, p) && !OwnStep(step, pid)
    ensures Timed(steps + [step], pid, p)
  {
    var more := steps + [step];
    assert forall k :: 0 <= k < |steps| ==> more[k] == steps[k];
    assert more[|steps|] == step;
  }

  lemma NewcomerIsTimed(steps: seq<Step>, s: State, pid: Pid, job: Job)
    requires Chronicle(steps, s) && Enabled(s, Spawn(pid, job))
    ensures Timed(steps + [Spawn(pid, job)], pid, NextProcess(s, Spawn(pid, job)))
  {
    var more := steps + [Spawn(pid, job)];
    assert forall k :: 0 <= k < |steps| ==> more[k] == steps[k];
    assert more[|steps|] == Spawn(pid, job);
  }

  lemma GateStage(s: State, step: Step)
    requires Enabled(s, step) && Moves(step) && !step.Spawn?
    ensures var p, q := s.procs[step.pid], NextProcess(s, step);
            && q.job == p.job && q.requested == p.requested && !p.stage.Finished? && !q.stage.Called?
            && (RefersToGate(q) ==> RefersToGate(p) || step.TakeGate?)
            && (step.TakeGate? ==> p.stage.Called?)
            && (step.Complete? ==> q.stage.Finished? && RefersToGate(p))
  {
  }

  lemma MoverIsTimed(steps: seq<Step>, step: Step, pid: Pid, p: Process, q: Process)
    requires Timed(steps, pid, p) && Moves(step) && !step.Spawn? && step.pid == pid
    requires q.job == p.job && q.requested == p.requested && !p.stage.Finished? && !q.stage.Called?
    requires RefersToGate(q) ==> RefersToGate(p) || step.TakeGate?
    requires step.Complete? ==> q.stage.Finished? && RefersToGate(p)
    ensures Timed(steps + [step], pid, q)
  {
    var more := steps + [step];
    assert forall k :: 0 <= k < |steps| ==> more[k] == steps[k];
    assert more[|steps|] == step;
  }

  lemma TimedLonger(steps: seq<Step>, s: State, step: Step)
    requires Chronicle(steps, s) && AllTimed(steps, s) && Enabled(s, step)
    ensures AllTimed(steps + [step], Next(s, step))
  {
    var t := Next(s, step);
    NextProcs(s, step);
    forall pid <- t.procs ensures Timed(steps + [step], pid, t.procs[pid]) {
      if !OwnStep(step, pid) {
        OthersKeepTime(steps, step, pid, s.procs[pid]);
      } else if step.Spawn? {
        NewcomerIsTimed(steps, s, pid, step.job);
      } else {
        GateStage(s, step);
        MoverIsTimed(steps, step, pid, s.procs[pid], NextProcess(s, step));
      }
    }
  }

  // ---- Whose gate it is ----

  /** Each gate ever handed out belongs to one server. */
  ghost predicate OwnedBy(steps: seq<Step>, s: State, owner: map<GateId, Id>) {
    && (forall g <- owner :: g < s.data.nextGate)
    && (forall id <- s.data.gates :: s.data.gates[id] in owner && owner[s.data.gates[id]] == id)
    && (forall pid <- s.procs :: OwnerOk(steps, pid, s.procs[pid], owner))
  }

  predicate OwnerOk(steps: seq<Step>, pid: Pid, p: Process, owner: map<GateId, Id>) {
    TakeGate(pid) in steps ==> p.job.Sample? && p.gate in owner && owner[p.gate] == p.job.ticket.server.id
  }

  lemma GateHandedOut(s: State, step: Step)
    requires Enabled(s, step)
    ensures var e := Effect(s, step);
            if step.TakeGate? then
              && e.nextGate == s.data.nextGate + 1
              && e.gates == s.data.gates[s.procs[step.pid].job.ticket.server.id := NextProcess(s, step).gate]
              && NextProcess(s, step).gate == NextGate(s.data, s.procs[step.pid].job.ticket.server.id)
            else
              e.nextGate == s.data.nextGate
              && (forall id <- e.gates :: id in s.data.gates && e.gates[id] == s.data.gates[id])
              && (Moves(step) && !step.Spawn? ==> NextProcess(s, step).gate == s.procs[step.pid].gate)
  {
  }

  lemma OwnersAfterTake(steps: seq<Step>, s: State, pid: Pid, owner: map<GateId, Id>) returns (next: map<GateId, Id>)
    requires OwnedBy(steps, s, owner) && Enabled(s, TakeGate(pid))
    ensures OwnedBy(steps + [TakeGate(pid)], Next(s, TakeGate(pid)), next)
  {
    var step := TakeGate(pid);
    var id := s.procs[pid].job.ticket.server.id;
    next := owner[NextGate(s.data, id) := id];
    var t := Next(s, step);
    NextProcs(s, step);
    GateHandedOut(s, step);
    forall other <- t.procs ensures OwnerOk(steps + [step], other, t.procs[other], next) {
      if other != pid {
        assert OwnerOk(steps, other, s.procs[other], owner);
      }
    }
  }

  lemma OwnerStays(steps: seq<Step>, step: Step, pid: Pid, p: Process, q: Process, owner: map<GateId, Id>)
    requires OwnerOk(steps, pid, p, owner) && q.job == p.job && q.gate == p.gate && !step.TakeGate?
    ensures OwnerOk(steps + [step], pid, q, owner)
  {
  }

  /** Steps other than taking a gate leave jobs and gates alone. */
  lemma SameJobsAndGates(s: State, step: Step, pid: Pid)
    requires Enabled(s, step) && !step.TakeGate? && pid in s.procs
    ensures pid in Next(s, step).procs
    ensures Next(s, step).procs[pid].job == s.procs[pid].job && Next(s, step).procs[pid].gate == s.procs[pid].gate
  {
    NextProcs(s, step);
    if OwnStep(step, pid) {
      NextSucceeds(s, step);
    }
  }

  lemma OwnersStay(steps: seq<Step>, s: State, step: Step, owner: map<GateId, Id>)
    requires Chronicle(steps, s) && OwnedBy(steps, s, owner) && Enabled(s, step) && !step.TakeGate?
    ensures OwnedBy(steps + [step], Next(s, step), owner)
  {
    var t := Next(s, step);
    NextProcs(s, step);
    GateHandedOut(s, step);
    forall pid <- t.procs ensures OwnerOk(steps + [step], pid, t.procs[pid], owner) {
      if pid in s.procs {
        SameJobsAndGates(s, step, pid);
        OwnerStays(steps, step, pid, s.procs[pid], t.procs[pid], owner);
      } else {
        assert TakeGate(pid) !in steps;
      }
    }
  }

  // ---- Completions ----

  /** A gate's completion date is the step at which the last read on it completed. */
  ghost predicate CompletedBy(steps: seq<Step>, s: State, g: GateId) {
    && g in s.data.completed && s.data.completed[g] < |steps|
    && var step := steps[s.data.completed[g]];
       step.Complete? && step.pid in s.procs && s.procs[step.pid].gate == g
  }

  ghost predicate Completions(steps: seq<Step>, s: State) {
    forall g <- s.data.completed :: CompletedBy(steps, s, g)
  }

  lemma CompletedEffect(s: State, step: Step)
    requires Enabled(s, step)
    ensures Effect(s, step).completed ==
              if step.Complete? then s.data.completed[s.procs[step.pid].gate := s.now] else s.data.completed
  {
  }

  lemma CompletionsGoOn(steps: seq<Step>, s: State, step: Step)
    requires Chronicle(steps, s) && AllTimed(steps, s) && Completions(steps, s) && Enabled(s, step)
    ensures Completions(steps + [step], Next(s, step))
  {
    var more, t := steps + [step], Next(s, step);
    NextProcs(s, step);
    CompletedEffect(s, step);
    forall g <- t.data.completed ensures CompletedBy(more, t, g) {
      if step.Complete? && g == s.procs[step.pid].gate {
        GateHandedOut(s, step);
        assert more[|steps|] == step;
      } else {
        CompletionStays(steps, s, step, g);
      }
    }
  }

  lemma CompletionStays(steps: seq<Step>, s: State, step: Step, g: GateId)
    requires Chronicle(steps, s) && AllTimed(steps, s) && CompletedBy(steps, s, g) && Enabled(s, step)
    requires g in Effect(s, step).completed && Effect(s, step).completed[g] == s.data.completed[g]
    ensures CompletedBy(steps + [step], Next(s, step), g)
  {
    var k := s.data.completed[g];
    var q := steps[k].pid;
    NextProcs(s, step);
    assert (steps + [step])[k] == steps[k];
    assert steps[k] == Complete(q) && Timed(steps, q, s.procs[q]);
    if OwnStep(step, q) {
      StepsBeforeFinish(s, step);
    }
  }

  lemma StepsBeforeFinish(s: State, step: Step)
    requires Enabled(s, step) && Moves(step)
    ensures step.pid in s.procs ==> !s.procs[step.pid].stage.Finished?
  {
  }

  // ---- The record of a whole run ----

  ghost predicate Book(steps: seq<Step>, s: State, owner: map<GateId, Id>) {
    Chronicle(steps, s) && AllTimed(steps, s) && OwnedBy(steps, s, owner) && Completions(steps, s)
  }

  lemma BookOfFresh(servers: map<Id, Server>)
    ensures Book([], Fresh(servers), map[])
  {
  }

  lemma BookGoesOn(steps: seq<Step>, s: State, step: Step, owner: map<GateId, Id>) returns (next: map<GateId, Id>)
    requires Book(steps, s, owner) && Enabled(s, step)
    ensures Book(steps + [step], Next(s, step), next)
  {
    ChronicleGoesOn(steps, s, step);
    TimedLonger(steps, s, step);
    CompletionsGoOn(steps, s, step);
    if step.TakeGate? {
      next := OwnersAfterTake(steps, s, step.pid, owner);
    } else {
      OwnersStay(steps, s, step, owner);
      next := owner;
    }
  }

  ghost predicate Leads(s: State, steps: seq<Step>, t: State) {
    ValidRun(s, steps) && t == After(s, steps)
  }

  ghost predicate Reached(servers: map<Id, Server>, steps: seq<Step>, s: State) {
    Leads(Fresh(servers), steps, s)
  }

  lemma LastStepOf(s: State, steps: seq<Step>, t: State) returns (before: seq<Step>, w: State, step: Step)
    requires Leads(s, steps, t) && steps != []
    ensures Leads(s, before, w) && Enabled(w, step) && t == Next(w, step)
    ensures steps == before + [step] && before == steps[..|steps| - 1] && step == steps[|steps| - 1]
  {
    SplitRun(s, steps);
    before, step := steps[..|steps| - 1], steps[|steps| - 1];
    w := After(s, before);
  }

  /** The last step of a run. */
  lemma LastStep(servers: map<Id, Server>, steps: seq<Step>, s: State) returns (before: seq<Step>, w: State, step: Step)
    requires Reached(servers, steps, s) && steps != []
    ensures Reached(servers, before, w) && Enabled(w, step) && s == Next(w, step)
    ensures steps == before + [step] && before == steps[..|steps| - 1] && step == steps[|steps| - 1]
  {
    before, w, step := LastStepOf(Fresh(servers), steps, s);
  }

  lemma {:induction false} BookHolds(servers: map<Id, Server>, steps: seq<Step>, s: State) returns (owner: map<GateId, Id>)
    requires Reached(servers, steps, s)
    ensures Book(steps, s, owner)
    decreases |steps|
  {
    if steps == [] {
      BookOfFresh(servers);
      owner := map[];
    } else {
      var before, w, step := LastStep(servers, steps, s);
      owner := BookHolds(servers, before, w);
      owner := BookGoesOn(before, w, step, owner);
    }
  }

  // ---- Sharing ----

  /** The cache holds a reading of this connection and revision. */
  predicate CachedFor(d: Shared, t: Ticket) {
    && t.server.id in d.latest
    && d.latest[t.server.id].server.connection == t.server.connection && d.latest[t.server.id].revision == t.revision
  }

  /** `pid` asked at step `j`, and a read of the same server by `q` completed at step `k` after that. */
  predicate ReadSince(steps: seq<Step>, pid: Pid, t: Ticket, j: nat, k: nat, q: Pid, u: Ticket) {
    && j < k < |steps| && steps[j] == Spawn(pid, Sample(t)) && steps[k] == Complete(q)
    && Spawn(q, Sample(u)) in steps && u.server.id == t.server.id
  }

  /**
   * In every run a refresh shares a result only if a read of the same server
   * completed after the refresh was asked for, and the cache holds a reading of
   * its own connection and revision.
   */
  lemma SharedReadsAreFresh(servers: map<Id, Server>, steps: seq<Step>, s: State, pid: Pid, t: Ticket)
      returns (j: nat, k: nat, q: Pid, u: Ticket)
    requires Reached(servers, steps, s) && Enabled(s, Share(pid)) && s.procs[pid].job == Sample(t)
    ensures CachedFor(s.data, t)
    ensures ReadSince(steps, pid, t, j, k, q, u)
  {
    var owner := BookHolds(servers, steps, s);
    j, k, q, u := SharedSince(steps, s, owner, pid, t);
  }

  /** What the books say about the read that completed on a gate. */
  lemma CompleterOf(steps: seq<Step>, s: State, owner: map<GateId, Id>, g: GateId) returns (q: Pid)
    requires Book(steps, s, owner) && g in s.data.completed
    ensures s.data.completed[g] < |steps| && steps[s.data.completed[g]] == Complete(q)
    ensures q in s.procs && s.procs[q].job.Sample? && Spawn(q, s.procs[q].job) in steps
    ensures g in owner && owner[g] == s.procs[q].job.ticket.server.id
  {
    assert CompletedBy(steps, s, g);
    q := steps[s.data.completed[g]].pid;
    var p := s.procs[q];
    assert Timed(steps, q, p) && Told(steps, q, p) && OwnerOk(steps, q, p, owner);
  }

  /** What the books say about a process at its gate. */
  lemma AskerAt(steps: seq<Step>, s: State, owner: map<GateId, Id>, pid: Pid)
    requires Book(steps, s, owner) && pid in s.procs && RefersToGate(s.procs[pid])
    ensures var p := s.procs[pid];
            && p.requested < |steps| && steps[p.requested] == Spawn(pid, p.job)
            && p.gate in owner && owner[p.gate] == p.job.ticket.server.id
  {
    assert Timed(steps, pid, s.procs[pid]) && OwnerOk(steps, pid, s.procs[pid], owner);
  }

  lemma SharedSince(steps: seq<Step>, s: State, owner: map<GateId, Id>, pid: Pid, t: Ticket)
      returns (j: nat, k: nat, q: Pid, u: Ticket)
    requires Book(steps, s, owner) && pid in s.procs && RefersToGate(s.procs[pid]) && s.procs[pid].job == Sample(t)
    requires s.procs[pid].gate in s.data.completed && s.data.completed[s.procs[pid].gate] >= s.procs[pid].requested
    ensures ReadSince(steps, pid, t, j, k, q, u)
  {
    AskerAt(steps, s, owner, pid);
    j, k := s.procs[pid].requested, s.data.completed[s.procs[pid].gate];
    q := CompleterOf(steps, s, owner, s.procs[pid].gate);
    u := s.procs[q].job.ticket;
    AskedThenRead(steps, pid, t, j, k, q, u);
  }

  lemma AskedThenRead(steps: seq<Step>, pid: Pid, t: Ticket, j: nat, k: nat, q: Pid, u: Ticket)
    requires j <= k < |steps| && steps[j] == Spawn(pid, Sample(t)) && steps[k] == Complete(q)
    requires Spawn(q, Sample(u)) in steps && u.server.id == t.server.id
    ensures ReadSince(steps, pid, t, j, k, q, u)
  {
  }

  /** Both refer to the gate of `pid`, on which the last read completed no earlier than `k`. */
  predicate Waited(s: State, pid: Pid, q: Pid, k: nat) {
    && pid in s.procs && q in s.procs && s.procs[pid].gate == s.procs[q].gate
    && s.procs[q].gate in s.data.completed && s.data.completed[s.procs[q].gate] >= k
  }

  lemma SameGate(s: State, pid: Pid, q: Pid)
    requires Gates(s) && pid in s.procs && q in s.procs && RefersToGate(s.procs[pid]) && RefersToGate(s.procs[q])
    requires s.procs[q].job.ticket.server.id == s.procs[pid].job.ticket.server.id
    ensures s.procs[pid].gate == s.procs[q].gate
  {
    assert GateOk(s.data, s.procs[pid]) && GateOk(s.data, s.procs[q]);
  }

  /** What a completion does to the gates and dates. */
  lemma CompleteStep(s: State, q: Pid)
    requires Enabled(s, Complete(q))
    ensures var t := Next(s, Complete(q));
            && t.procs == s.procs[q := NextProcess(s, Complete(q))] && t.procs[q].gate == s.procs[q].gate
            && t.data.completed == s.data.completed[s.procs[q].gate := s.now]
    ensures RefersToGate(s.procs[q])
  {
    NextProcs(s, Complete(q));
    CompletedEffect(s, Complete(q));
  }

  /** A waiter's gate is the one on which a read of its server completed while it waited. */
  lemma MetOnGate(s: State, pid: Pid, q: Pid)
    requires Gates(s) && Enabled(s, Complete(q)) && pid in s.procs && RefersToGate(s.procs[pid])
    requires s.procs[q].job.ticket.server.id == s.procs[pid].job.ticket.server.id
    ensures Waited(Next(s, Complete(q)), pid, q, s.now)
  {
    CompleteStep(s, q);
    SameGate(s, pid, q);
  }

  lemma NoLongerCalled(steps: seq<Step>, s: State, pid: Pid)
    requires Chronicle(steps, s) && AllTimed(steps, s) && TakeGate(pid) in steps
    ensures pid in s.procs && !s.procs[pid].stage.Called?
  {
    assert pid in s.procs && Timed(steps, pid, s.procs[pid]);
  }

  lemma GateStays(s: State, step: Step, pid: Pid)
    requires Enabled(s, step) && pid in s.procs && !s.procs[pid].stage.Called?
    ensures pid in Next(s, step).procs && Next(s, step).procs[pid].gate == s.procs[pid].gate
  {
    NextProcs(s, step);
    if OwnStep(step, pid) {
      GateHandedOut(s, step);
    }
  }

  lemma CompletionsMoveOn(s: State, step: Step, g: GateId, k: nat)
    requires Enabled(s, step) && g in s.data.completed && s.data.completed[g] >= k && k <= s.now
    ensures g in Next(s, step).data.completed && Next(s, step).data.completed[g] >= k
  {
    NextProcs(s, step);
    CompletedEffect(s, step);
  }

  lemma WaitedLonger(steps: seq<Step>, s: State, pid: Pid, q: Pid, k: nat, step: Step)
    requires Chronicle(steps, s) && AllTimed(steps, s) && Enabled(s, step) && Waited(s, pid, q, k) && k < |steps|
    requires TakeGate(pid) in steps && TakeGate(q) in steps
    ensures Waited(Next(s, step), pid, q, k)
  {
    NoLongerCalled(steps, s, pid);
    NoLongerCalled(steps, s, q);
    GateStays(s, step, pid);
    GateStays(s, step, q);
    CompletionsMoveOn(s, step, s.procs[q].gate, k);
  }

  lemma RefersBefore(steps: seq<Step>, s: State, step: Step, pid: Pid)
    requires AllTimed(steps, s) && Enabled(s, step) && pid in s.procs && TakeGate(pid) in steps
    requires RefersToGate(Next(s, step).procs[pid])
    ensures RefersToGate(s.procs[pid])
  {
    NextProcs(s, step);
    assert Timed(steps, pid, s.procs[pid]);
    if OwnStep(step, pid) {
      GateStage(s, step);
    }
  }

  /** Takes its gate at `i`, before `q` of the same server completes at `k`. */
  predicate Waiting(steps: seq<Step>, pid: Pid, t: Ticket, i: nat, k: nat, q: Pid, u: Ticket) {
    && i < k < |steps| && steps[i] == TakeGate(pid) && steps[k] == Complete(q)
    && Spawn(pid, Sample(t)) in steps[..i] && Spawn(q, Sample(u)) in steps[..k] && u.server.id == t.server.id
  }

  lemma WaitingBefore(steps: seq<Step>, pid: Pid, t: Ticket, i: nat, k: nat, q: Pid, u: Ticket)
    requires Waiting(steps, pid, t, i, k, q, u)
    ensures var before := steps[..|steps| - 1];
            && TakeGate(pid) in before && Spawn(pid, Sample(t)) in before && Spawn(q, Sample(u)) in before
            && (k < |steps| - 1 ==> Waiting(before, pid, t, i, k, q, u) && Complete(q) in before)
  {
    var before := steps[..|steps| - 1];
    assert before[i] == steps[i] && before[..i] == steps[..i];
    if k < |steps| - 1 {
      assert before[k] == steps[k] && before[..k] == steps[..k];
    } else {
      assert before == steps[..k];
    }
  }

  lemma CompleterTook(steps: seq<Step>, s: State, q: Pid)
    requires Chronicle(steps, s) && AllTimed(steps, s) && Complete(q) in steps
    ensures TakeGate(q) in steps
  {
    assert q in s.procs && Timed(steps, q, s.procs[q]);
  }

  lemma {:induction false} WaitersMeet(servers: map<Id, Server>, steps: seq<Step>, s: State, pid: Pid, t: Ticket,
                                       i: nat, k: nat, q: Pid, u: Ticket)
    requires ById(servers) && Reached(servers, steps, s) && Waiting(steps, pid, t, i, k, q, u)
    requires pid in s.procs && RefersToGate(s.procs[pid])
    ensures Waited(s, pid, q, k)
    decreases |steps|
  {
    var before, w, step := LastStep(servers, steps, s);
    WaitingBefore(steps, pid, t, i, k, q, u);
    var _ := BookHolds(servers, before, w);
    SpawnedJobs(before, w, pid, q, t, u);
    RefersBefore(before, w, step, pid);
    if k == |steps| - 1 {
      ReachableInv(servers, before);
      MetOnGate(w, pid, q);
    } else {
      WaitersMeet(servers, before, w, pid, t, i, k, q, u);
      CompleterTook(before, w, q);
      WaitedLonger(before, w, pid, q, k, step);
    }
  }

  lemma SpawnedJobs(steps: seq<Step>, s: State, pid: Pid, q: Pid, t: Ticket, u: Ticket)
    requires Chronicle(steps, s) && Spawn(pid, Sample(t)) in steps && Spawn(q, Sample(u)) in steps
    ensures pid in s.procs && s.procs[pid].job == Sample(t) && q in s.procs && s.procs[q].job == Sample(u)
  {
    assert pid in s.procs && q in s.procs;
    assert Told(steps, pid, s.procs[pid]) && Told(steps, q, s.procs[q]);
  }

  /**
   * A refresh that was waiting at the gate while another read of its server
   * completed never reads again by itself, unless the cache has nothing for its
   * connection and revision: it shares the result.
   */
  lemma WaitersShareTheRead(servers: map<Id, Server>, steps: seq<Step>, s: State, pid: Pid, t: Ticket,
                            i: nat, k: nat, q: Pid, u: Ticket)
    requires ById(servers) && Reached(servers, steps, s)
    requires SampleAt(s, pid, Checked) && Waiting(steps, pid, t, i, k, q, u)
    ensures Enabled(s, Share(pid)) <==> CachedFor(s.data, t)
    ensures Enabled(s, Collect(pid)) <==> !CachedFor(s.data, t)
  {
    var _ := BookHolds(servers, steps, s);
    WaitersMeet(servers, steps, s, pid, t, i, k, q, u);
    AskedBefore(steps, s, pid, t, i);
    WaitedDecides(s, pid, t, q, k);
  }

  lemma WaitedDecides(s: State, pid: Pid, t: Ticket, q: Pid, k: nat)
    requires SampleAt(s, pid, Checked) && s.procs[pid].job == Sample(t) && s.procs[pid].requested <= k
    requires Waited(s, pid, q, k)
    ensures Enabled(s, Share(pid)) <==> CachedFor(s.data, t)
    ensures Enabled(s, Collect(pid)) <==> !CachedFor(s.data, t)
  {
  }

  lemma AskedBefore(steps: seq<Step>, s: State, pid: Pid, t: Ticket, i: nat)
    requires Chronicle(steps, s) && AllTimed(steps, s) && i < |steps| && steps[i] == TakeGate(pid)
    requires Spawn(pid, Sample(t)) in steps[..i]
    ensures pid in s.procs && s.procs[pid].requested < i && s.procs[pid].job == Sample(t)
  {
    assert steps[i].pid in s.procs;
    assert Timed(steps, pid, s.procs[pid]) && Told(steps, pid, s.procs[pid]);
  }

  // ---- Edits ----

  /** The edit makes readings of the stored profile worthless. */
  predicate Invalidates(servers: map<Id, Server>, server: Server, newPassword: bool) {
    newPassword || (server.id in servers ==> servers[server.id].connection != server.connection)
  }

  /** What a stored edit leaves: the profile as saved, the others alone, and old tickets good exactly if it was quiet. */
  lemma EditIsStored(s: State, pid: Pid, server: Server, newPassword: bool)
    requires Tickets(s) && Enabled(s, Commit(pid, true)) && s.procs[pid].job == Save(server, newPassword)
    ensures var d, e := s.data, Next(s, Commit(pid, true)).data;
            && e.servers == d.servers[server.id := server]
            && (forall u <- d.tickets :: u.server.id != server.id ==>
                  (MatchesConnection(e, u.server, u.revision) <==> MatchesConnection(d, u.server, u.revision)))
            && (forall u <- d.tickets :: u.server.id == server.id ==>
                  (MatchesConnection(e, u.server, u.revision) <==>
                     MatchesConnection(d, u.server, u.revision) && !Invalidates(d.servers, server, newPassword)))
  {
    var d, e := s.data, Next(s, Commit(pid, true)).data;
    SavedEffect(s, pid, server, newPassword);
    forall u <- d.tickets ensures TicketOk(d, s.now, u) {
    }
  }

  lemma SavedEffect(s: State, pid: Pid, server: Server, newPassword: bool)
    requires Enabled(s, Commit(pid, true)) && s.procs[pid].job == Save(server, newPassword)
    ensures Next(s, Commit(pid, true)).data == Saved(s.data, server, newPassword)
  {
    NextProcs(s, Commit(pid, true));
  }

  /** A removal takes the server out of the profile and nothing else; of a server that is gone it ends at once. */
  lemma RemovalIsStored(s: State, pid: Pid, id: Id)
    requires Enabled(s, Commit(pid, true)) && s.procs[pid].job == Delete(id)
    ensures var t := Next(s, Commit(pid, true));
            && t.data.servers == s.data.servers - {id} && t.data.revisions == s.data.revisions && t.data.rows == s.data.rows
            && t.procs[pid].stage == if id in s.data.servers then Committed else Finished
  {
    NextProcs(s, Commit(pid, true));
  }

  /** A command that is not stored changes nothing and ends. */
  lemma UnstoredChangesNothing(s: State, pid: Pid)
    requires Enabled(s, Commit(pid, false))
    ensures Next(s, Commit(pid, false)).data == s.data && Next(s, Commit(pid, false)).procs[pid].stage == Finished
  {
    NextProcs(s, Commit(pid, false));
  }

  /** No ticket for `id` of step `c` or before has a revision that counts. */
  predicate Retired(s: State, id: Id, floor: nat, c: Time) {
    && c < s.now && floor <= Revision(s.data, id) <= s.data.nextRevision
    && forall u <- s.data.tickets :: u.server.id == id && u.asked <= c ==> u.revision < floor
  }

  lemma RevisionsGrow(s: State, step: Step, id: Id)
    requires Tickets(s) && Enabled(s, step)
    ensures var e := Effect(s, step); Revision(s.data, id) <= Revision(e, id)
  {
    if step.Commit? {
      CommitEffect(s, step.pid, step.stored);
    } else {
      FrameConfig(s, step);
    }
  }

  lemma RevisionBounded(s: State, id: Id)
    requires Tickets(s)
    ensures Revision(s.data, id) <= s.data.nextRevision
  {
  }

  lemma NewTickets(s: State, step: Step)
    requires Enabled(s, step)
    ensures forall u <- Effect(s, step).tickets :: u in s.data.tickets || u.asked == s.now
  {
  }

  lemma StaysRetired(s: State, step: Step, id: Id, floor: nat, c: Time)
    requires Inv(s) && Enabled(s, step) && Retired(s, id, floor, c)
    ensures Retired(Next(s, step), id, floor, c)
  {
    NextProcs(s, step);
    RevisionsGrow(s, step, id);
    StepKeepsInv(s, step);
    RevisionBounded(Next(s, step), id);
    NewTickets(s, step);
  }

  lemma {:induction false} RunStaysRetired(s: State, steps: seq<Step>, id: Id, floor: nat, c: Time)
    requires Inv(s) && ValidRun(s, steps) && Retired(s, id, floor, c)
    ensures Inv(After(s, steps)) && Retired(After(s, steps), id, floor, c)
    decreases |steps|
  {
    if steps != [] {
      StaysRetired(s, steps[0], id, floor, c);
      StepKeepsInv(s, steps[0]);
      RunStaysRetired(Next(s, steps[0]), steps[1..], id, floor, c);
    }
  }

  lemma EditRetires(s: State, pid: Pid, server: Server, newPassword: bool)
    requires Inv(s) && EditInvalidates(s, pid, server, newPassword)
    ensures var t := Next(s, Commit(pid, true)); Retired(t, server.id, t.data.nextRevision, s.now)
  {
    NextProcs(s, Commit(pid, true));
    SavedEffect(s, pid, server, newPassword);
    forall u <- s.data.tickets | u.server.id == server.id ensures u.revision <= s.data.nextRevision {
      assert TicketOk(s.data, s.now, u);
      RevisionBounded(s, server.id);
    }
  }

  /** The step records or publishes a reading asked for with ticket `u`. */
  predicate Stores(s: State, step: Step, u: Ticket) {
    && (step.Record? || step.Publish?) && Enabled(s, step)
    && step.pid in s.procs && s.procs[step.pid].job == Sample(u)
  }

  lemma RetiredNeverStores(s: State, step: Step, u: Ticket, floor: nat, c: Time)
    requires Inv(s) && Stores(s, step, u) && Retired(s, u.server.id, floor, c)
    ensures c < u.asked
  {
    assert CurrentOk(s.data, s.procs[step.pid]) && Ticketed(s.data, s.procs[step.pid]);
  }

  /** The stored edit `Save(server, newPassword)` of process `pid` makes earlier readings worthless. */
  predicate EditInvalidates(s: State, pid: Pid, server: Server, newPassword: bool) {
    && Enabled(s, Commit(pid, true)) && pid in s.procs && s.procs[pid].job == Save(server, newPassword)
    && Invalidates(s.data.servers, server, newPassword)
  }

  /**
   * Once an edit that changes the connection or the password of a server is stored,
   * no later step of any run records or publishes a reading asked for before it.
   */
  lemma EditedConnectionsNeverStore(servers: map<Id, Server>, before: seq<Step>, s: State, pid: Pid, server: Server,
                                    newPassword: bool, later: seq<Step>, t: State, step: Step, u: Ticket)
    requires ById(servers) && Reached(servers, before, s) && EditInvalidates(s, pid, server, newPassword)
    requires Leads(Next(s, Commit(pid, true)), later, t) && Stores(t, step, u) && u.server.id == server.id
    ensures s.now < u.asked
  {
    ReachableInv(servers, before);
    var edited := Next(s, Commit(pid, true));
    EditRetires(s, pid, server, newPassword);
    StepKeepsInv(s, Commit(pid, true));
    RunStaysRetired(edited, later, server.id, edited.data.nextRevision, s.now);
    RetiredNeverStores(t, step, u, edited.data.nextRevision, s.now);
  }
}
