/**
 The sampling protocol: samplers, profile edits, removals and cache clearing
 interleaved over the per-server gate, the history barrier, the manager lock and
 the connection revisions. Each process moves through stages, one atomic step at
 a time; the locks it holds follow from its stage. Time is the step count.
 */
module Sampling {
  import opened Common

  type Id = nat
  type Pid = nat
  type GateId = nat
  type Time = nat

  /** `connection` stands for every field that `same_connection` compares. */
  datatype Server = Server(id: Id, connection: nat, name: string)

  predicate SameConnection(a: Server, b: Server) {
    a.connection == b.connection
  }

  /** A profile and revision read together from the manager at time `asked`. */
  datatype Ticket = Ticket(server: Server, revision: nat, asked: Time)

  datatype Reading = Good(origin: Ticket, started: Time, collectionError: bool) | Bad

  datatype Cached = Cached(server: Server, revision: nat, reading: Reading)

  datatype Row = Row(origin: Ticket, started: Time)

  datatype Publication = Publication(id: Id, started: Time, at: Time)

  datatype Job = Sample(ticket: Ticket) | Save(server: Server, newPassword: bool) | Delete(id: Id) | Clear

  datatype Stage =
    | Called | Queued | Entered | Checked | Collecting | Collected
    | Cloned | Barred | Confirmed | Recorded | Published
    | Locked | Committed | Finished

  datatype Process = Process(job: Job, stage: Stage, requested: Time, gate: GateId, started: Time, reading: Reading)

  /** What the locks protect. */
  datatype Shared = Shared(
    tickets: set<Ticket>,
    servers: map<Id, Server>,
    revisions: map<Id, nat>,
    nextRevision: nat,
    gates: map<Id, GateId>,
    nextGate: GateId,
    completed: map<GateId, Time>,
    latest: map<Id, Cached>,
    rows: set<Row>,
    published: seq<Publication>,
    deletedAt: map<Id, Time>,
    purgedAt: map<Id, Time>)

  datatype State = State(
    now: Time,
    procs: map<Pid, Process>,
    entered: map<GateId, Pid>,
    barrier: Option<Pid>,
    manager: Option<Pid>,
    data: Shared)

  function Fresh(servers: map<Id, Server>): State {
    State(0, map[], map[], None, None,
          Shared({}, servers, map[], 0, map[], 0, map[], map[], {}, [], map[], map[]))
  }

  function Revision(d: Shared, id: Id): nat {
    if id in d.revisions then d.revisions[id] else 0
  }

  predicate MatchesConnection(d: Shared, server: Server, revision: nat) {
    && Revision(d, server.id) == revision
    && server.id in d.servers && SameConnection(d.servers[server.id], server)
  }

  // ---- What each stage holds ----

  predicate HoldsBarrier(p: Process) {
    p.stage.Barred? || p.stage.Confirmed? || p.stage.Recorded? || p.stage.Published? || p.stage.Locked? || p.stage.Committed?
  }

  predicate HoldsManager(p: Process) {
    p.stage.Locked? || p.stage.Committed?
  }

  predicate InGate(p: Process) {
    p.job.Sample? && !p.stage.Called? && !p.stage.Queued? && !p.stage.Finished?
  }

  /** Keeps a clone of the gate alive. */
  predicate RefersToGate(p: Process) {
    p.job.Sample? && !p.stage.Called? && !p.stage.Finished?
  }

  /** `pid` becomes `q`; the locks follow its stage. */
  function Become(s: State, pid: Pid, q: Process): State {
    s.(procs := s.procs[pid := q],
       barrier := if HoldsBarrier(q) then Some(pid) else if s.barrier == Some(pid) then None else s.barrier,
       manager := if HoldsManager(q) then Some(pid) else if s.manager == Some(pid) then None else s.manager,
       entered := if InGate(q) then s.entered[q.gate := pid]
                  else map g | g in s.entered && s.entered[g] != pid :: s.entered[g])
  }

  // ---- Steps ----

  datatype Step =
    | Capture(id: Id)
    | Spawn(pid: Pid, job: Job)
    | TakeGate(pid: Pid)
    | Enter(pid: Pid)
    | Check(pid: Pid)
    | Share(pid: Pid)
    | Collect(pid: Pid)
    | Read(pid: Pid, ok: bool)
    | Clone(pid: Pid)
    | TakeBarrier(pid: Pid)
    | Confirm(pid: Pid)
    | Record(pid: Pid, stored: bool)
    | Publish(pid: Pid)
    | Complete(pid: Pid)
    | Lock(pid: Pid)
    | Commit(pid: Pid, stored: bool)
    | Release(pid: Pid, cleaned: bool)
    | Empty(pid: Pid, ok: bool)
    | Cancel(pid: Pid)
    | Evict(ids: set<Id>)
    | Reap(id: Id)
    | Prune(keep: set<Row>)

  predicate At(s: State, pid: Pid, stage: Stage) {
    pid in s.procs && s.procs[pid].stage == stage
  }

  predicate SampleAt(s: State, pid: Pid, stage: Stage) {
    At(s, pid, stage) && s.procs[pid].job.Sample?
  }

  /** A read completed on this gate since the request was made, and its result is still cached. */
  predicate CanShare(s: State, pid: Pid)
    requires SampleAt(s, pid, Checked)
  {
    var p := s.procs[pid];
    var t := p.job.ticket;
    && p.gate in s.data.completed && s.data.completed[p.gate] >= p.requested
    && t.server.id in s.data.latest
    && SameConnection(s.data.latest[t.server.id].server, t.server) && s.data.latest[t.server.id].revision == t.revision
  }

  predicate Enabled(s: State, step: Step) {
    match step
    case Capture(id) => s.manager.None? && id in s.data.servers
    case Spawn(pid, job) => pid !in s.procs && (job.Sample? ==> job.ticket in s.data.tickets)
    case TakeGate(pid) => SampleAt(s, pid, Called)
    case Enter(pid) => SampleAt(s, pid, Queued) && s.procs[pid].gate !in s.entered
    case Check(pid) => SampleAt(s, pid, Entered) && s.manager.None?
    case Share(pid) => SampleAt(s, pid, Checked) && CanShare(s, pid)
    case Collect(pid) => SampleAt(s, pid, Checked) && !CanShare(s, pid)
    case Read(pid, _) => SampleAt(s, pid, Collecting)
    case Clone(pid) =>
      (SampleAt(s, pid, Collected) || (At(s, pid, Called) && !s.procs[pid].job.Sample?)) && s.manager.None?
    case TakeBarrier(pid) => At(s, pid, Cloned) && s.barrier.None?
    case Confirm(pid) => SampleAt(s, pid, Barred) && s.manager.None?
    case Record(pid, _) => SampleAt(s, pid, Confirmed)
    case Publish(pid) => SampleAt(s, pid, Recorded)
    case Complete(pid) => SampleAt(s, pid, Published)
    case Lock(pid) => At(s, pid, Barred) && (s.procs[pid].job.Save? || s.procs[pid].job.Delete?) && s.manager.None?
    case Commit(pid, _) => At(s, pid, Locked)
    case Release(pid, _) => At(s, pid, Committed)
    case Empty(pid, _) => At(s, pid, Barred) && s.procs[pid].job.Clear?
    case Cancel(pid) => pid in s.procs && s.procs[pid].job.Sample? && !s.procs[pid].stage.Finished?
    case Evict(_) => true
    case Reap(id) =>
      && id in s.data.gates
      && forall pid <- s.procs :: RefersToGate(s.procs[pid]) ==> s.procs[pid].job.ticket.server.id != id
    case Prune(_) => true
  }

  /** The stage a step moves its process to. */
  function NextStage(s: State, step: Step): Stage
    requires Enabled(s, step)
  {
    match step
    case TakeGate(_) => Queued
    case Enter(_) => Entered
    case Check(pid) => if Fits(s, pid) then Checked else Finished
    case Collect(_) => Collecting
    case Read(_, _) => Collected
    case Clone(_) => Cloned
    case TakeBarrier(_) => Barred
    case Confirm(pid) => if Fits(s, pid) then Confirmed else Finished
    case Record(_, _) => Recorded
    case Publish(_) => Published
    case Lock(_) => Locked
    case Commit(pid, stored) => if stored && CanCommit(s, pid) then Committed else Finished
    case _ => Finished
  }

  predicate Fits(s: State, pid: Pid)
    requires pid in s.procs && s.procs[pid].job.Sample?
  {
    MatchesConnection(s.data, s.procs[pid].job.ticket.server, s.procs[pid].job.ticket.revision)
  }

  /** Removing a server fails if it is already gone. */
  predicate CanCommit(s: State, pid: Pid)
    requires pid in s.procs
  {
    s.procs[pid].job.Delete? ==> s.procs[pid].job.id in s.data.servers
  }

  function NextGate(d: Shared, id: Id): GateId {
    if id in d.gates then d.gates[id] else d.nextGate
  }

  /** The process after a step of its own. */
  function NextProcess(s: State, step: Step): Process
    requires Enabled(s, step) && Moves(step)
  {
    if step.Spawn? then Process(step.job, Called, s.now, 0, 0, Bad)
    else
      var p := s.procs[step.pid];
      Process(
        p.job, NextStage(s, step), p.requested,
        if step.TakeGate? then NextGate(s.data, p.job.ticket.server.id) else p.gate,
        if step.Collect? then s.now else p.started,
        if step.Read? then (if step.ok then Good(p.job.ticket, p.started, false) else Bad) else p.reading)
  }

  predicate Moves(step: Step) {
    !step.Capture? && !step.Evict? && !step.Reap? && !step.Prune?
  }

  /** The cache keeps the last good reading of the same connection through a failure. */
  function ToCache(d: Shared, t: Ticket, reading: Reading): Cached {
    var id := t.server.id;
    if reading.Bad? && id in d.latest && d.latest[id].reading.Good?
       && SameConnection(d.latest[id].server, t.server) && d.latest[id].revision == t.revision
    then Cached(t.server, t.revision, d.latest[id].reading.(collectionError := true))
    else Cached(t.server, t.revision, reading)
  }

  /** What a waiting caller is given for its profile and revision. */
  function FirstReading(d: Shared, server: Server, revision: nat): Option<Reading> {
    if server.id in d.latest && SameConnection(d.latest[server.id].server, server)
       && d.latest[server.id].revision == revision
    then Some(d.latest[server.id].reading)
    else None
  }

  /** `upsert_server` and, for a new id, changed connection or new password, a fresh revision. */
  function Saved(d: Shared, server: Server, newPassword: bool): Shared {
    var next := if Reconnects(d, server, newPassword) then d.nextRevision + 1 else d.nextRevision;
    d.(servers := d.servers[server.id := server],
       nextRevision := next,
       revisions := if Reconnects(d, server, newPassword) then d.revisions[server.id := next] else d.revisions)
  }

  predicate Reconnects(d: Shared, server: Server, newPassword: bool) {
    newPassword || server.id !in d.servers || !SameConnection(d.servers[server.id], server)
  }

  function Removed(d: Shared, id: Id, now: Time): Shared {
    d.(servers := d.servers - {id}, deletedAt := d.deletedAt[id := now])
  }

  function Purged(d: Shared, id: Id): Shared {
    d.(rows := (set r | r in d.rows && r.origin.server.id != id),
       purgedAt := if id in d.deletedAt then d.purgedAt[id := d.deletedAt[id]] else d.purgedAt)
  }

  function Committing(s: State, pid: Pid): Shared
    requires pid in s.procs
  {
    match s.procs[pid].job
    case Save(server, newPassword) => Saved(s.data, server, newPassword)
    case Delete(id) => Removed(s.data, id, s.now)
    case _ => s.data
  }

  /** Profiles, revisions and removal dates change only when a command commits. */
  function ConfigAfter(s: State, step: Step): Shared
    requires Enabled(s, step)
  {
    if step.Commit? && step.stored && CanCommit(s, step.pid) then Committing(s, step.pid) else s.data
  }

  /** A removal that is not blocked purges the stored rows of its server. */
  function PurgeAfter(s: State, step: Step): Shared
    requires Enabled(s, step)
  {
    if step.Release? && step.cleaned && s.procs[step.pid].job.Delete? then Purged(s.data, s.procs[step.pid].job.id)
    else s.data
  }

  function RowsAfter(s: State, step: Step): set<Row>
    requires Enabled(s, step)
  {
    match step
    case Record(pid, stored) =>
      var p := s.procs[pid];
      if stored && p.reading.Good? then s.data.rows + {Row(p.job.ticket, p.started)} else s.data.rows
    case Empty(_, ok) => if ok then {} else s.data.rows
    case Prune(keep) => s.data.rows * keep
    case _ => PurgeAfter(s, step).rows
  }

  function LatestAfter(s: State, step: Step): map<Id, Cached>
    requires Enabled(s, step)
  {
    match step
    case Publish(pid) =>
      var p := s.procs[pid];
      s.data.latest[p.job.ticket.server.id := ToCache(s.data, p.job.ticket, p.reading)]
    case Empty(_, _) => map[]
    case Evict(ids) => s.data.latest - ids
    case _ => s.data.latest
  }

  function GatesAfter(s: State, step: Step): map<Id, GateId>
    requires Enabled(s, step)
  {
    match step
    case TakeGate(pid) =>
      var id := s.procs[pid].job.ticket.server.id;
      s.data.gates[id := NextGate(s.data, id)]
    case Reap(id) => s.data.gates - {id}
    case _ => s.data.gates
  }

  function PublishedAfter(s: State, step: Step): seq<Publication>
    requires Enabled(s, step)
  {
    if step.Publish? then
      var p := s.procs[step.pid];
      s.data.published + [Publication(p.job.ticket.server.id, p.started, s.now)]
    else s.data.published
  }

  /** The shared data after a step, field by field. */
  function Effect(s: State, step: Step): Shared
    requires Enabled(s, step)
  {
    var d, c := s.data, ConfigAfter(s, step);
    Shared(
      if step.Capture? then d.tickets + {Ticket(d.servers[step.id], Revision(d, step.id), s.now)} else d.tickets,
      c.servers, c.revisions, c.nextRevision,
      GatesAfter(s, step),
      if step.TakeGate? then d.nextGate + 1 else d.nextGate,
      if step.Complete? then d.completed[s.procs[step.pid].gate := s.now] else d.completed,
      LatestAfter(s, step),
      RowsAfter(s, step),
      PublishedAfter(s, step),
      c.deletedAt,
      PurgeAfter(s, step).purgedAt)
  }

  function Next(s: State, step: Step): State
    requires Enabled(s, step)
  {
    var t := s.(now := s.now + 1, data := Effect(s, step));
    if Moves(step) then Become(t, step.pid, NextProcess(s, step)) else t
  }

  ghost predicate ValidRun(s: State, steps: seq<Step>)
    decreases |steps|
  {
    steps == [] || (Enabled(s, steps[0]) && ValidRun(Next(s, steps[0]), steps[1..]))
  }

  ghost function After(s: State, steps: seq<Step>): State
    requires ValidRun(s, steps)
    decreases |steps|
  {
    if steps == [] then s else After(Next(s, steps[0]), steps[1..])
  }
}
