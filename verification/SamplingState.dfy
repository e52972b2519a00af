/**
 * What the sampler, the manager and the metric store keep between steps, changed
 * in place. Each method is the effect of one step of module Sampling; the ghost
 * state says where the processes stand and who holds the locks.
 */
module SamplingState {
  import opened Common
  import opened Sampling

  class SharedObject {
    ghost var tickets: set<Ticket>
    var servers: map<Id, Server>
    var revisions: map<Id, nat>
    var nextRevision: nat
    var gates: map<Id, GateId>
    var nextGate: GateId
    var completed: map<GateId, Time>
    var latest: map<Id, Cached>
    var rows: set<Row>
    ghost var published: seq<Publication>
    ghost var deletedAt: map<Id, Time>
    ghost var purgedAt: map<Id, Time>

    ghost function View(): Shared
      reads this
    {
      Shared(tickets, servers, revisions, nextRevision, gates, nextGate, completed, latest, rows,
             published, deletedAt, purgedAt)
    }

    constructor (servers: map<Id, Server>)
      ensures View() == Fresh(servers).data
    {
      this.servers, revisions, nextRevision := servers, map[], 0;
      gates, nextGate, completed, latest, rows := map[], 0, map[], map[], {};
      tickets, published, deletedAt, purgedAt := {}, [], map[], map[];
    }

    method ConnectionRevision(id: Id) returns (revision: nat)
      ensures revision == Revision(View(), id)
    {
      return if id in revisions then revisions[id] else 0;
    }

    /** A profile and its revision, read under the manager lock. */
    method ReadProfile(ghost s: State, id: Id) returns (server: Server, revision: nat)
      requires View() == s.data && Enabled(s, Capture(id))
      modifies this`tickets
      ensures View() == Effect(s, Capture(id))
      ensures Ticket(server, revision, s.now) in tickets && server == servers[id]
    {
      server := servers[id];
      revision := ConnectionRevision(id);
      tickets := tickets + {Ticket(server, revision, s.now)};
    }

    method Matches(server: Server, revision: nat) returns (current: bool)
      ensures current <==> MatchesConnection(View(), server, revision)
    {
      var now := ConnectionRevision(server.id);
      return now == revision && server.id in servers && SameConnection(servers[server.id], server);
    }

    /** The gate of a server, made on first use. */
    method GateOf(ghost s: State, ghost pid: Pid, id: Id) returns (gate: GateId)
      requires View() == s.data && Enabled(s, TakeGate(pid)) && id == s.procs[pid].job.ticket.server.id
      modifies this`gates, this`nextGate
      ensures View() == Effect(s, TakeGate(pid))
      ensures gate == NextProcess(s, TakeGate(pid)).gate
    {
      gate := if id in gates then gates[id] else nextGate;
      gates := gates[id := gate];
      nextGate := nextGate + 1;
    }

    /** Whether a read finished on the gate since the request, with its result still cached. */
    method SharedResult(ghost s: State, ghost pid: Pid, t: Ticket, gate: GateId, requested: Time) returns (shared: Option<Reading>)
      requires View() == s.data && SampleAt(s, pid, Checked)
      requires t == s.procs[pid].job.ticket && gate == s.procs[pid].gate && requested == s.procs[pid].requested
      ensures shared.Some? <==> CanShare(s, pid)
      ensures shared.Some? ==> shared == Some(latest[t.server.id].reading)
    {
      if gate in completed && completed[gate] >= requested && t.server.id in latest {
        var c := latest[t.server.id];
        if SameConnection(c.server, t.server) && c.revision == t.revision {
          return Some(c.reading);
        }
      }
      return None;
    }

    method RecordReading(ghost s: State, ghost pid: Pid, t: Ticket, started: Time, reading: Reading, stored: bool)
      requires View() == s.data && Enabled(s, Record(pid, stored))
      requires t == s.procs[pid].job.ticket && started == s.procs[pid].started && reading == s.procs[pid].reading
      modifies this`rows
      ensures View() == Effect(s, Record(pid, stored))
    {
      if reading.Good? && stored {
        rows := rows + {Row(t, started)};
      }
    }

    /** A failure keeps the last good reading of the same connection, marked with the error. */
    method CacheEntry(t: Ticket, reading: Reading) returns (cached: Cached)
      ensures cached == ToCache(View(), t, reading)
    {
      if reading.Bad? && t.server.id in latest {
        var before := latest[t.server.id];
        if before.reading.Good? && SameConnection(before.server, t.server) && before.revision == t.revision {
          return Cached(t.server, t.revision, before.reading.(collectionError := true));
        }
      }
      return Cached(t.server, t.revision, reading);
    }

    method PublishReading(ghost s: State, ghost pid: Pid, t: Ticket, reading: Reading)
      requires View() == s.data && Enabled(s, Publish(pid))
      requires t == s.procs[pid].job.ticket && reading == s.procs[pid].reading
      modifies this`latest, this`published
      ensures View() == Effect(s, Publish(pid))
    {
      PublicationEffect(s, pid);
      var cached := CacheEntry(t, reading);
      latest := latest[t.server.id := cached];
      published := published + [Publication(t.server.id, s.procs[pid].started, s.now)];
    }

    method CompleteRead(ghost s: State, ghost pid: Pid, gate: GateId, now: Time)
      requires View() == s.data && Enabled(s, Complete(pid)) && gate == s.procs[pid].gate && now == s.now
      modifies this`completed
      ensures View() == Effect(s, Complete(pid))
    {
      completed := completed[gate := now];
    }

    /** An edit; a new id, a changed connection or a new password gets a fresh revision. */
    method PutProfile(server: Server, newPassword: bool)
      modifies this`servers, this`revisions, this`nextRevision
      ensures View() == Saved(old(View()), server, newPassword)
    {
      var isNew := server.id !in servers;
      var reconnect := newPassword || (!isNew && !SameConnection(servers[server.id], server));
      servers := servers[server.id := server];
      if reconnect || isNew {
        nextRevision := nextRevision + 1;
        revisions := revisions[server.id := nextRevision];
      }
    }

    method SaveProfile(ghost s: State, ghost pid: Pid, server: Server, newPassword: bool, stored: bool)
      requires View() == s.data && Enabled(s, Commit(pid, stored)) && s.procs[pid].job == Save(server, newPassword)
      modifies this
      ensures View() == Effect(s, Commit(pid, stored))
    {
      SaveEffect(s, pid, server, newPassword, stored);
      if stored {
        PutProfile(server, newPassword);
      }
    }

    method RemoveProfile(ghost s: State, ghost pid: Pid, id: Id, stored: bool) returns (removed: bool)
      requires View() == s.data && Enabled(s, Commit(pid, stored)) && s.procs[pid].job == Delete(id)
      modifies this
      ensures View() == Effect(s, Commit(pid, stored))
      ensures removed <==> stored && id in old(servers)
    {
      if id !in servers || !stored {
        return false;
      }
      servers := servers - {id};
      deletedAt := deletedAt[id := s.now];
      return true;
    }

    /** Drop the stored rows of a removed server. */
    method Purge(id: Id)
      modifies this`rows, this`purgedAt
      ensures View() == Purged(old(View()), id)
    {
      rows := set r | r in rows && r.origin.server.id != id;
      purgedAt := if id in deletedAt then purgedAt[id := deletedAt[id]] else purgedAt;
    }

    method DeleteRows(ghost s: State, ghost pid: Pid, id: Id)
      requires View() == s.data && Enabled(s, Release(pid, true)) && s.procs[pid].job == Delete(id)
      modifies this`rows, this`purgedAt
      ensures View() == Effect(s, Release(pid, true))
    {
      CleanEffect(s, pid, id);
      Purge(id);
    }

    method ClearHistory(ghost s: State, ghost pid: Pid, ok: bool)
      requires View() == s.data && Enabled(s, Empty(pid, ok))
      modifies this`rows, this`latest
      ensures View() == Effect(s, Empty(pid, ok))
    {
      if ok {
        rows := {};
      }
      latest := map[];
    }

    /** What a waiting caller with this profile and revision is handed. */
    method ReadingFor(server: Server, revision: nat) returns (reading: Option<Reading>)
      ensures reading == FirstReading(View(), server, revision)
    {
      if server.id in latest {
        var c := latest[server.id];
        if SameConnection(c.server, server) && c.revision == revision {
          return Some(c.reading);
        }
      }
      return None;
    }
  }

  lemma PublicationEffect(s: State, pid: Pid)
    requires Enabled(s, Publish(pid))
    ensures var p := s.procs[pid];
            Effect(s, Publish(pid)) == s.data.(
              latest := s.data.latest[p.job.ticket.server.id := ToCache(s.data, p.job.ticket, p.reading)],
              published := s.data.published + [Publication(p.job.ticket.server.id, p.started, s.now)])
  {
  }

  lemma SaveEffect(s: State, pid: Pid, server: Server, newPassword: bool, stored: bool)
    requires Enabled(s, Commit(pid, stored)) && s.procs[pid].job == Save(server, newPassword)
    ensures Effect(s, Commit(pid, stored)) == if stored then Saved(s.data, server, newPassword) else s.data
  {
  }

  lemma CleanEffect(s: State, pid: Pid, id: Id)
    requires Enabled(s, Release(pid, true)) && s.procs[pid].job == Delete(id)
    ensures Effect(s, Release(pid, true)) == Purged(s.data, id)
  {
  }
}
