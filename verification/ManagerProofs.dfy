/** What every run of commands keeps, and what consent means over a whole run. */
module ManagerProofs {
  import opened Common
  import opened Keyed
  import opened Profiles
  import opened Manager

  // ---- The invariant ----

  /** Every live task runs its tunnel exactly as saved. */
  ghost predicate LiveIsSaved(tunnels: seq<Tunnel>, live: map<nat, Running>) {
    forall id :: id in live ==> live[id].tunnel.id == id && live[id].tunnel in tunnels
  }

  predicate Current(servers: seq<Server>, r: Running) {
    match Find(servers, ServerKey, r.tunnel.server)
    case None => false
    case Some(s) => r.server.id == s.id && SameConnection(r.server, s)
  }

  /** Every live task outside `due` uses its server's saved connection. */
  ghost predicate LiveIsCurrent(servers: seq<Server>, live: map<nat, Running>, due: set<nat>) {
    forall id :: id in live && id !in due ==> Current(servers, live[id])
  }

  ghost predicate StatusTellsLive(live: map<nat, Running>, status: map<nat, Status>) {
    forall id :: (id in status && Active(status[id])) <==> id in live
  }

  ghost predicate PortsDisjoint(rules: Rules, live: map<nat, Running>) {
    forall a, b :: a in live && b in live && a != b ==> !Clash(rules, live[a].tunnel, live[b].tunnel)
  }

  /** A running integration has its server's saved connection and switches, and one of them is on. */
  predicate Consented(servers: seq<Server>, id: nat, running: Server) {
    match Find(servers, ServerKey, id)
    case None => false
    case Some(s) =>
      running.id == id && SameConnection(running, s) && running.clipboard == s.clipboard && running.browser == s.browser
      && (s.clipboard || s.browser)
  }

  ghost predicate IntegrationsConsented(servers: seq<Server>, integrations: map<nat, Server>) {
    forall id :: id in integrations ==> Consented(servers, id, integrations[id])
  }

  /** The invariant, except that the tasks in `due` still have to be restarted. */
  ghost predicate InvBut(rules: Rules, w: World, due: set<nat>) {
    && ValidConfig(rules, w.config)
    && LiveIsSaved(w.config.tunnels, w.live)
    && LiveIsCurrent(w.config.servers, w.live, due)
    && StatusTellsLive(w.live, w.status)
    && PortsDisjoint(rules, w.live)
    && IntegrationsConsented(w.config.servers, w.integrations)
  }

  ghost predicate Inv(rules: Rules, w: World) {
    InvBut(rules, w, {})
  }

  // ---- Tunnels ----

  lemma ClashIsSymmetric(rules: Rules, a: Tunnel, b: Tunnel)
    ensures Clash(rules, a, b) == Clash(rules, b, a)
  {
    if Pairs(rules, a).Ok? && Pairs(rules, b).Ok? {
      ClashIffOverlap(rules, a, b);
      ClashIffOverlap(rules, b, a);
    }
  }

  lemma DisconnectKeeps(rules: Rules, w: World, id: nat, due: set<nat>)
    requires InvBut(rules, w, due)
    ensures InvBut(rules, DisconnectTunnel(w, id), due - {id})
  {
  }

  predicate InTheWay(rules: Rules, w: World, t: Tunnel, other: Tunnel) {
    other.id != t.id && other.id in w.live && Clash(rules, t, other)
  }

  ghost predicate PortsTaken(rules: Rules, w: World, t: Tunnel) {
    exists i :: 0 <= i < |w.config.tunnels| && InTheWay(rules, w, t, w.config.tunnels[i])
  }

  lemma {:induction false} ObstacleMeans(rules: Rules, w: World, t: Tunnel, others: seq<Tunnel>)
    requires forall o :: o in others ==> Pairs(rules, o).Ok?
    ensures Obstacle(rules, w, t, others)
         == if exists i :: 0 <= i < |others| && InTheWay(rules, w, t, others[i]) then Some(ActiveOverlap) else None
    decreases |others|
  {
    if others != [] {
      ObstacleMeans(rules, w, t, others[1..]);
      assert Pairs(rules, others[0]).Ok?;
      if i: nat :| i < |others| && InTheWay(rules, w, t, others[i]) {
        assert i > 0 ==> others[1..][i - 1] == others[i];
      }
    }
  }

  /** In a valid profile the only obstacle to a connection is a taken port. */
  lemma OnlyPortsStandInTheWay(rules: Rules, w: World, t: Tunnel)
    requires ValidTunnels(rules, w.config.servers, w.config.tunnels)
    ensures Obstacle(rules, w, t, w.config.tunnels) == if PortsTaken(rules, w, t) then Some(ActiveOverlap) else None
  {
    ObstacleMeans(rules, w, t, w.config.tunnels);
  }

  /** A saved tunnel in nobody's way clashes with no live one. */
  lemma NobodyInTheWay(rules: Rules, w: World, t: Tunnel, other: nat)
    requires !PortsTaken(rules, w, t) && LiveIsSaved(w.config.tunnels, w.live) && other in w.live && other != t.id
    ensures !Clash(rules, t, w.live[other].tunnel)
  {
    var i :| 0 <= i < |w.config.tunnels| && w.config.tunnels[i] == w.live[other].tunnel;
    assert !InTheWay(rules, w, t, w.config.tunnels[i]);
  }

  /** Adding a task for a saved tunnel in nobody's way keeps the ports disjoint. */
  lemma ConnectKeepsPorts(rules: Rules, w: World, server: Server, t: Tunnel)
    requires !PortsTaken(rules, w, t) && LiveIsSaved(w.config.tunnels, w.live) && PortsDisjoint(rules, w.live)
    ensures PortsDisjoint(rules, w.live[t.id := Running(server, t)])
  {
    var live := w.live[t.id := Running(server, t)];
    forall a, b | a in live && b in live && a != b ensures !Clash(rules, live[a].tunnel, live[b].tunnel) {
      if a == t.id {
        NobodyInTheWay(rules, w, t, b);
      } else if b == t.id {
        NobodyInTheWay(rules, w, t, a);
        ClashIsSymmetric(rules, t, live[a].tunnel);
      }
    }
  }

  lemma ConnectKeeps(rules: Rules, w: World, id: nat, due: set<nat>)
    requires InvBut(rules, w, due)
    ensures InvBut(rules, ConnectTunnel(rules, w, id).world, due)
  {
    FindMeans(w.config.tunnels, TunnelKey, id);
    if ConnectTunnel(rules, w, id).refusal.None? && id !in w.live {
      var t := Find(w.config.tunnels, TunnelKey, id).value;
      FindMeans(w.config.servers, ServerKey, t.server);
      OnlyPortsStandInTheWay(rules, w, t);
      ConnectKeepsPorts(rules, w, Find(w.config.servers, ServerKey, t.server).value, t);
    }
  }

  /** `u` has the profile, the integrations and the set of live tunnels of `w`. */
  ghost predicate SameTasks(w: World, u: World) {
    u.config == w.config && u.integrations == w.integrations && u.live.Keys == w.live.Keys
  }

  function Restart(rules: Rules, w: World, id: nat): Reply {
    ConnectTunnel(rules, DisconnectTunnel(w, id), id)
  }

  /** A live tunnel that is disconnected can be connected again at once. */
  lemma Reconnects(rules: Rules, w: World, id: nat, due: set<nat>)
    requires InvBut(rules, w, due) && id in w.live
    ensures Restart(rules, w, id).refusal.None? && SameTasks(w, Restart(rules, w, id).world)
  {
    var u, t := DisconnectTunnel(w, id), w.live[id].tunnel;
    FindsItself(w.config.tunnels, TunnelKey, t);
    assert Pairs(rules, t).Ok? && HasServer(w.config.servers, t.server);
    forall i | 0 <= i < |w.config.tunnels| ensures !InTheWay(rules, u, t, w.config.tunnels[i]) {
      var other := w.config.tunnels[i];
      if other.id != id && other.id in w.live {
        FindsItself(w.config.tunnels, TunnelKey, other);
        FindsItself(w.config.tunnels, TunnelKey, w.live[other.id].tunnel);
        assert w.live[other.id].tunnel == other;
      }
    }
    assert !PortsTaken(rules, u, t);
    OnlyPortsStandInTheWay(rules, u, t);
  }

  lemma RestartKeeps(rules: Rules, w: World, id: nat, due: set<nat>)
    requires InvBut(rules, w, due) && id in w.live
    ensures var r := Restart(rules, w, id);
            r.refusal.None? && InvBut(rules, r.world, due - {id}) && SameTasks(w, r.world)
  {
    Reconnects(rules, w, id, due);
    DisconnectKeeps(rules, w, id, due);
    ConnectKeeps(rules, DisconnectTunnel(w, id), id, due - {id});
  }

  /** Restarting live tunnels one after the other never fails and brings them all up to date. */
  lemma {:induction false} ReconnectAllKeeps(rules: Rules, w: World, ids: seq<nat>, due: set<nat>)
    requires InvBut(rules, w, due)
    requires (forall id :: id in ids ==> id in w.live) && (forall id :: id in due ==> id in ids)
    ensures var r := ReconnectAll(rules, w, ids);
            r.refusal.None? && Inv(rules, r.world) && SameTasks(w, r.world)
    decreases |ids|
  {
    if ids == [] {
      assert due == {};
    } else {
      RestartKeeps(rules, w, ids[0], due);
      var v := Restart(rules, w, ids[0]).world;
      forall id | id in ids[1..] ensures id in v.live { assert id in w.live.Keys; }
      ReconnectAllKeeps(rules, v, ids[1..], due - {ids[0]});
    }
  }

  // ---- Integrations ----

  lemma StartKeeps(rules: Rules, w: World, id: nat, identified: bool)
    requires Inv(rules, w)
    ensures Inv(rules, StartIntegration(w, id, identified).world)
  {
    FindMeans(w.config.servers, ServerKey, id);
  }

  lemma StopKeeps(rules: Rules, w: World, id: nat, due: set<nat>)
    requires InvBut(rules, w, due)
    ensures InvBut(rules, StopIntegration(w, id), due)
  {
  }

  lemma StartIfOnKeeps(rules: Rules, w: World, id: nat, identified: bool)
    requires Inv(rules, w)
    ensures Inv(rules, StartIntegrationIfOn(w, id, identified).world)
  {
    StartKeeps(rules, w, id, identified);
    StopKeeps(rules, w, id, {});
  }

  // ---- Editing a server ----

  lemma {:induction false} ActiveOfMeans(tunnels: seq<Tunnel>, live: map<nat, Running>, server: nat, id: nat)
    ensures id in ActiveOf(tunnels, live, server) <==>
              id in live && exists t :: t in tunnels && t.server == server && t.id == id
    decreases |tunnels|
  {
    if tunnels != [] {
      ActiveOfMeans(tunnels[1..], live, server, id);
      assert forall t :: t in tunnels <==> t == tunnels[0] || t in tunnels[1..];
    }
  }

  /** A server edit that keeps the connection leaves every task and integration current. */
  lemma QuietEditKeeps(rules: Rules, w: World, servers: seq<Server>, server: Server)
    requires Inv(rules, w) && ValidConfig(rules, Config(servers, w.config.tunnels)) && servers == Upserted(w.config.servers, server)
    requires var found := Find(w.config.servers, ServerKey, server.id);
             found.None? || SameConnection(found.value, server)
    ensures Inv(rules, w.(config := Config(servers, w.config.tunnels)))
  {
    var found := Find(w.config.servers, ServerKey, server.id);
    var u := w.(config := Config(servers, w.config.tunnels));
    forall id ensures Find(servers, ServerKey, id)
                   == if id == server.id then Some(WithConsent(found, server)) else Find(w.config.servers, ServerKey, id) {
      PutFinds(w.config.servers, ServerKey, WithConsent(found, server), id);
    }
    FindMeans(w.config.servers, ServerKey, server.id);
    forall id | id in u.live ensures Current(servers, u.live[id]) {
      assert Current(w.config.servers, w.live[id]);
    }
    forall id | id in u.integrations ensures Consented(servers, id, u.integrations[id]) {
      assert Consented(w.config.servers, id, w.integrations[id]);
    }
  }

  /** After any edit only the tasks of that server have to be restarted. */
  lemma EditLeavesOthers(rules: Rules, w: World, servers: seq<Server>, server: Server)
    requires Inv(rules, w) && ValidConfig(rules, Config(servers, w.config.tunnels)) && servers == Upserted(w.config.servers, server)
    ensures var ids := ActiveOf(w.config.tunnels, w.live, server.id);
            InvBut(rules, StopIntegration(w.(config := Config(servers, w.config.tunnels)), server.id), set id | id in ids)
  {
    var found := Find(w.config.servers, ServerKey, server.id);
    var ids := ActiveOf(w.config.tunnels, w.live, server.id);
    var u := StopIntegration(w.(config := Config(servers, w.config.tunnels)), server.id);
    forall id | id != server.id ensures Find(servers, ServerKey, id) == Find(w.config.servers, ServerKey, id) {
      PutFinds(w.config.servers, ServerKey, WithConsent(found, server), id);
    }
    forall id | id in u.live && id !in ids ensures Current(servers, u.live[id]) {
      assert Current(w.config.servers, w.live[id]);
      ActiveOfMeans(w.config.tunnels, w.live, server.id, id);
    }
    forall id | id in u.integrations ensures Consented(servers, id, u.integrations[id]) {
      assert Consented(w.config.servers, id, w.integrations[id]);
    }
  }

  lemma RestartServerKeeps(rules: Rules, w: World, servers: seq<Server>, server: Server, identified: bool)
    requires Inv(rules, w) && ValidConfig(rules, Config(servers, w.config.tunnels)) && servers == Upserted(w.config.servers, server)
    ensures var r := RestartServer(rules, w.(config := Config(servers, w.config.tunnels)), server.id, identified);
            && Inv(rules, r.world) && r.world.live.Keys == w.live.Keys
            && (r.refusal.None? || (!identified && r.refusal == Some(NotIdentified)))
  {
    var ids := ActiveOf(w.config.tunnels, w.live, server.id);
    var u := w.(config := Config(servers, w.config.tunnels));
    EditLeavesOthers(rules, w, servers, server);
    forall id | id in ids ensures id in w.live { ActiveOfMeans(w.config.tunnels, w.live, server.id, id); }
    ReconnectAllKeeps(rules, StopIntegration(u, server.id), ids, set id | id in ids);
    StartKeeps(rules, ReconnectAll(rules, StopIntegration(u, server.id), ids).world, server.id, identified);
    PutFinds(w.config.servers, ServerKey, WithConsent(Find(w.config.servers, ServerKey, server.id), server), server.id);
  }

  // ---- The other commands ----

  lemma StillFound(servers: seq<Server>, keep: Server -> bool, id: nat)
    requires Unique(servers, ServerKey) && Find(servers, ServerKey, id).Some? && keep(Find(servers, ServerKey, id).value)
    ensures Find(Keep(servers, keep), ServerKey, id) == Find(servers, ServerKey, id)
  {
    FindMeans(servers, ServerKey, id);
    KeepMeans(servers, ServerKey, keep);
    FindsItself(Keep(servers, keep), ServerKey, Find(servers, ServerKey, id).value);
  }

  lemma DeleteServerKeeps(rules: Rules, w: World, id: nat, stored: bool)
    requires Inv(rules, w) && ValidConfig(rules, WithoutServer(w.config, id))
    ensures Inv(rules, Applied(rules, w, w.(config := WithoutServer(w.config, id)), DeleteServer(id, stored)).world)
  {
    var c := WithoutServer(w.config, id);
    var u := Applied(rules, w, w.(config := c), DeleteServer(id, stored)).world;
    KeepMeans(w.config.tunnels, TunnelKey, OnOtherServer(id));
    forall other | other in u.live ensures Current(c.servers, u.live[other]) && u.live[other].tunnel in c.tunnels {
      assert Current(w.config.servers, w.live[other]);
      FindMeans(w.config.servers, ServerKey, w.live[other].tunnel.server);
      StillFound(w.config.servers, OtherServer(id), w.live[other].tunnel.server);
    }
    forall other | other in u.integrations ensures Consented(c.servers, other, u.integrations[other]) {
      assert Consented(w.config.servers, other, w.integrations[other]);
      FindMeans(w.config.servers, ServerKey, other);
      StillFound(w.config.servers, OtherServer(id), other);
    }
  }

  lemma DeleteTunnelKeeps(rules: Rules, w: World, id: nat, stored: bool)
    requires Inv(rules, w) && ValidConfig(rules, WithoutTunnel(w.config, id))
    ensures Inv(rules, Applied(rules, w, w.(config := WithoutTunnel(w.config, id)), DeleteTunnel(id, stored)).world)
  {
    KeepMeans(w.config.tunnels, TunnelKey, OtherTunnel(id));
  }

  /** Saving a tunnel that is not live disturbs nothing. */
  lemma TunnelSavedKeeps(rules: Rules, w: World, t: Tunnel, tunnels: seq<Tunnel>)
    requires Inv(rules, w) && tunnels == Put(w.config.tunnels, TunnelKey, t) && ValidConfig(rules, Config(w.config.servers, tunnels))
    requires t.id !in w.live
    ensures Inv(rules, w.(config := Config(w.config.servers, tunnels)))
  {
    PutMeans(w.config.tunnels, TunnelKey, t);
  }

  lemma SaveTunnelKeeps(rules: Rules, w: World, t: Tunnel, stored: bool)
    requires Inv(rules, w) && ValidConfig(rules, Config(w.config.servers, Put(w.config.tunnels, TunnelKey, t)))
    ensures var saved := w.(config := Config(w.config.servers, Put(w.config.tunnels, TunnelKey, t)));
            Inv(rules, Applied(rules, w, saved, SaveTunnel(t, stored)).world)
  {
    var tunnels := Put(w.config.tunnels, TunnelKey, t);
    var saved := w.(config := Config(w.config.servers, tunnels));
    if t.id in w.live {
      DisconnectKeeps(rules, w, t.id, {});
      TunnelSavedKeeps(rules, DisconnectTunnel(w, t.id), t, tunnels);
      assert DisconnectTunnel(w, t.id).(config := saved.config) == DisconnectTunnel(saved, t.id);
      ConnectKeeps(rules, DisconnectTunnel(saved, t.id), t.id, {});
    } else {
      TunnelSavedKeeps(rules, w, t, tunnels);
    }
  }

  lemma ToggleKeeps(rules: Rules, w: World, s: Server, browser: bool, enabled: bool, servers: seq<Server>)
    requires Inv(rules, w) && Find(w.config.servers, ServerKey, s.id) == Some(s)
    requires servers == Put(w.config.servers, ServerKey, Toggled(s, browser, enabled))
    requires ValidConfig(rules, Config(servers, w.config.tunnels))
    ensures Inv(rules, StopIntegration(w.(config := Config(servers, w.config.tunnels)), s.id))
  {
    var u := StopIntegration(w.(config := Config(servers, w.config.tunnels)), s.id);
    forall id ensures Find(servers, ServerKey, id)
                   == if id == s.id then Some(Toggled(s, browser, enabled)) else Find(w.config.servers, ServerKey, id) {
      PutFinds(w.config.servers, ServerKey, Toggled(s, browser, enabled), id);
    }
    forall id | id in u.live ensures Current(servers, u.live[id]) {
      assert Current(w.config.servers, w.live[id]);
    }
    forall id | id in u.integrations ensures Consented(servers, id, u.integrations[id]) {
      assert Consented(w.config.servers, id, w.integrations[id]);
    }
  }

  lemma SetIntegrationKeeps(rules: Rules, w: World, step: Step)
    requires Inv(rules, w) && step.SetIntegration? && Saves(rules, w, step)
    ensures Inv(rules, Applied(rules, w, w.(config := Wanted(rules, w, step).value), step).world)
  {
    var c := Wanted(rules, w, step).value;
    FindMeans(w.config.servers, ServerKey, step.id);
    ToggleKeeps(rules, w, Find(w.config.servers, ServerKey, step.id).value, step.browser, step.enabled, c.servers);
    StartIfOnKeeps(rules, StopIntegration(w.(config := c), step.id), step.id, step.identified);
  }

  lemma SaveServerKeeps(rules: Rules, w: World, step: Step)
    requires Inv(rules, w) && step.SaveServer? && Saves(rules, w, step)
    ensures var r := Applied(rules, w, w.(config := Wanted(rules, w, step).value), step);
            && Inv(rules, r.world) && r.world.live.Keys == w.live.Keys
            && (r.refusal.None? || (!step.identified && r.refusal == Some(NotIdentified)))
  {
    var servers := Upserted(w.config.servers, step.server);
    assert Wanted(rules, w, step) == Some(Config(servers, w.config.tunnels));
    var found := Find(w.config.servers, ServerKey, step.server.id);
    if step.newPassword || (found.Some? && !SameConnection(found.value, step.server)) {
      RestartServerKeeps(rules, w, servers, step.server, step.identified);
    } else {
      QuietEditKeeps(rules, w, servers, step.server);
    }
  }

  lemma SavedStepKeeps(rules: Rules, w: World, step: Step)
    requires Inv(rules, w) && Saves(rules, w, step)
    ensures Inv(rules, Applied(rules, w, w.(config := Wanted(rules, w, step).value), step).world)
  {
    match step
    case SaveServer(_, _, _, _) => SaveServerKeeps(rules, w, step);
    case DeleteServer(id, stored) => DeleteServerKeeps(rules, w, id, stored);
    case SaveTunnel(t, stored) => SaveTunnelKeeps(rules, w, t, stored);
    case DeleteTunnel(id, stored) => DeleteTunnelKeeps(rules, w, id, stored);
    case SetIntegration(_, _, _, _, _) => SetIntegrationKeeps(rules, w, step);
  }

  lemma SavingKeeps(rules: Rules, w: World, step: Step)
    requires Inv(rules, w)
    ensures Inv(rules, NextSaving(rules, w, step).world)
  {
    if AlreadySet(w, step) {
      StartIfOnKeeps(rules, w, step.id, step.identified);
    } else if Saves(rules, w, step) {
      SavedStepKeeps(rules, w, step);
    }
  }

  lemma ProgressKeeps(rules: Rules, w: World, id: nat, status: Status)
    requires Inv(rules, w) && Enabled(w, Progress(id, status))
    ensures Inv(rules, Next(rules, w, Progress(id, status)).world)
  {
  }

  lemma TaskFailsKeeps(rules: Rules, w: World, id: nat)
    requires Inv(rules, w) && Enabled(w, TaskFails(id))
    ensures Inv(rules, Next(rules, w, TaskFails(id)).world)
  {
  }

  lemma StepKeepsInv(rules: Rules, w: World, step: Step)
    requires Inv(rules, w) && Enabled(w, step)
    ensures Inv(rules, Next(rules, w, step).world)
  {
    match step
    case SetConnected(id, connected) =>
      if connected { ConnectKeeps(rules, w, id, {}); } else { DisconnectKeeps(rules, w, id, {}); }
    case Resume(id, identified) => StartKeeps(rules, w, id, identified);
    case IntegrationEnds(id) => StopKeeps(rules, w, id, {});
    case Progress(id, status) => ProgressKeeps(rules, w, id, status);
    case TaskFails(id) => TaskFailsKeeps(rules, w, id);
    case _ => SavingKeeps(rules, w, step);
  }

  lemma {:induction false} RunKeepsInv(rules: Rules, w: World, steps: seq<Step>)
    requires Inv(rules, w) && ValidRun(rules, w, steps)
    ensures Inv(rules, After(rules, w, steps))
    decreases |steps|
  {
    if steps != [] {
      StepKeepsInv(rules, w, steps[0]);
      RunKeepsInv(rules, Next(rules, w, steps[0]).world, steps[1..]);
    }
  }

  // ---- What a user can rely on ----

  /**
   * From any stored profile, after any run of commands: live tunnels are saved
   * ones, run exactly as saved and to the saved connection of their server, listen
   * on pairwise different local ports, and show an active status, as no other does.
   */
  lemma LiveTunnelsMatchTheProfile(rules: Rules, config: Config, steps: seq<Step>)
    requires ValidConfig(rules, config) && ValidRun(rules, Fresh(config), steps)
    ensures var w := After(rules, Fresh(config), steps);
            && (forall id :: id in w.live ==> Find(w.config.tunnels, TunnelKey, id) == Some(w.live[id].tunnel))
            && (forall id :: id in w.live ==> Current(w.config.servers, w.live[id]))
            && (forall a, b :: a in w.live && b in w.live && a != b ==> !LocalsOverlap(w.live[a].tunnel, w.live[b].tunnel))
            && (forall id :: (id in w.status && Active(w.status[id])) <==> id in w.live)
  {
    var w := After(rules, Fresh(config), steps);
    RunKeepsInv(rules, Fresh(config), steps);
    forall id | id in w.live ensures Find(w.config.tunnels, TunnelKey, id) == Some(w.live[id].tunnel) {
      FindsItself(w.config.tunnels, TunnelKey, w.live[id].tunnel);
    }
    forall a, b | a in w.live && b in w.live && a != b ensures !LocalsOverlap(w.live[a].tunnel, w.live[b].tunnel) {
      ClashIffOverlap(rules, w.live[a].tunnel, w.live[b].tunnel);
    }
  }

  /** Saving a server loses none of its live tunnels: their reconnection is never refused. */
  lemma EditingAServerKeepsTunnels(rules: Rules, w: World, step: Step)
    requires Inv(rules, w) && step.SaveServer?
    ensures var r := Next(rules, w, step);
            r.world.live.Keys == w.live.Keys && r.refusal in {None, Some(InvalidServer), Some(NotStored), Some(NotIdentified)}
  {
    if Saves(rules, w, step) {
      SaveServerKeeps(rules, w, step);
    }
  }

  /** A tunnel apart from all others, just saved and disconnected, can be connected. */
  lemma SavedTunnelConnects(rules: Rules, w: World, t: Tunnel, tunnels: seq<Tunnel>)
    requires Unique(w.config.tunnels, TunnelKey) && tunnels == Put(w.config.tunnels, TunnelKey, t)
    requires ValidTunnels(rules, w.config.servers, tunnels)
    requires UniqueError(rules, t, w.config.tunnels).None? && HasServer(w.config.servers, t.server)
    ensures var r := ConnectTunnel(rules, DisconnectTunnel(w.(config := Config(w.config.servers, tunnels)), t.id), t.id);
            r.refusal.None? && t.id in r.world.live && r.world.live[t.id].tunnel == t
            && r.world.live.Keys == w.live.Keys + {t.id}
  {
    var u := DisconnectTunnel(w.(config := Config(w.config.servers, tunnels)), t.id);
    PutMeans(w.config.tunnels, TunnelKey, t);
    NoOverlapMeans(rules, t, w.config.tunnels);
    FindsItself(tunnels, TunnelKey, t);
    forall i | 0 <= i < |tunnels| ensures !InTheWay(rules, u, t, tunnels[i]) {
      assert tunnels[i] in tunnels;
      ApartDoNotClash(rules, t, tunnels[i]);
    }
    assert !PortsTaken(rules, u, t);
    OnlyPortsStandInTheWay(rules, u, t);
  }

  lemma SaveTunnelStep(rules: Rules, w: World, t: Tunnel, stored: bool)
    requires StatusTellsLive(w.live, w.status)
    ensures var r := Next(rules, w, SaveTunnel(t, stored));
            var saved := w.(config := Config(w.config.servers, Put(w.config.tunnels, TunnelKey, t)));
            if !Saves(rules, w, SaveTunnel(t, stored)) then r.world == w
            else r == if t.id in w.live then ConnectTunnel(rules, DisconnectTunnel(saved, t.id), t.id) else Reply(saved, None)
  {
    assert (t.id in w.status && Active(w.status[t.id])) <==> t.id in w.live;
  }

  /** Saving a tunnel never fails to bring its live task back, and then it runs the new definition. */
  lemma EditingATunnelKeepsIt(rules: Rules, w: World, t: Tunnel, stored: bool)
    requires StatusTellsLive(w.live, w.status) && Unique(w.config.tunnels, TunnelKey)
    ensures var r := Next(rules, w, SaveTunnel(t, stored));
            && r.world.live.Keys == w.live.Keys
            && (Saves(rules, w, SaveTunnel(t, stored)) ==> r.refusal.None? && (t.id in w.live ==> r.world.live[t.id].tunnel == t))
  {
    SaveTunnelStep(rules, w, t, stored);
    if Saves(rules, w, SaveTunnel(t, stored)) && t.id in w.live {
      SavedTunnelConnects(rules, w, t, Put(w.config.tunnels, TunnelKey, t));
      assert w.live.Keys + {t.id} == w.live.Keys;
    }
  }

  // ---- Profiles built by saving tunnels ----

  lemma ApartDoNotClash(rules: Rules, a: Tunnel, b: Tunnel)
    ensures Apart(rules, a, b) ==> !Clash(rules, a, b)
  {
    if Pairs(rules, a).Ok? && Pairs(rules, b).Ok? {
      ClashIffOverlap(rules, a, b);
    }
  }

  /** No two saved tunnels share a local port, nor a remote port of one forwarded host. */
  ghost predicate AllApart(rules: Rules, tunnels: seq<Tunnel>) {
    forall a, b :: a in tunnels && b in tunnels && a.id != b.id ==> Apart(rules, a, b)
  }

  lemma SavedTunnelStaysApart(rules: Rules, tunnels: seq<Tunnel>, t: Tunnel)
    requires AllApart(rules, tunnels) && Unique(tunnels, TunnelKey) && FirstOverlap(rules, t, tunnels).None?
    ensures AllApart(rules, Put(tunnels, TunnelKey, t))
  {
    PutMeans(tunnels, TunnelKey, t);
    NoOverlapMeans(rules, t, tunnels);
  }

  lemma StepKeepsApart(rules: Rules, w: World, step: Step)
    requires Inv(rules, w) && Enabled(w, step) && AllApart(rules, w.config.tunnels)
    ensures AllApart(rules, Next(rules, w, step).world.config.tunnels)
  {
    StepStores(rules, w, step);
    match step
    case SaveTunnel(t, _) =>
      if Saves(rules, w, step) { SavedTunnelStaysApart(rules, w.config.tunnels, t); }
    case DeleteTunnel(id, _) => KeepMeans(w.config.tunnels, TunnelKey, OtherTunnel(id));
    case DeleteServer(id, _) => KeepMeans(w.config.tunnels, TunnelKey, OnOtherServer(id));
    case _ =>
  }

  lemma {:induction false} ReconnectKeepsConfig(rules: Rules, w: World, ids: seq<nat>)
    ensures ReconnectAll(rules, w, ids).world.config == w.config
    decreases |ids|
  {
    if ids != [] && Restart(rules, w, ids[0]).refusal.None? {
      ReconnectKeepsConfig(rules, Restart(rules, w, ids[0]).world, ids[1..]);
    }
  }

  /** A step changes the stored profile exactly when it saves, and then to the wanted one. */
  lemma StepStores(rules: Rules, w: World, step: Step)
    ensures Next(rules, w, step).world.config
         == if Saves(rules, w, step) && !AlreadySet(w, step) then Wanted(rules, w, step).value else w.config
  {
    if step.SaveServer? && Saves(rules, w, step) {
      var saved := w.(config := Wanted(rules, w, step).value);
      ReconnectKeepsConfig(rules, StopIntegration(saved, step.server.id), ActiveOf(saved.config.tunnels, saved.live, step.server.id));
    }
  }

  lemma {:induction false} RunKeepsApart(rules: Rules, w: World, steps: seq<Step>)
    requires Inv(rules, w) && AllApart(rules, w.config.tunnels) && ValidRun(rules, w, steps)
    ensures AllApart(rules, After(rules, w, steps).config.tunnels)
    decreases |steps|
  {
    if steps != [] {
      StepKeepsInv(rules, w, steps[0]);
      StepKeepsApart(rules, w, steps[0]);
      RunKeepsApart(rules, Next(rules, w, steps[0]).world, steps[1..]);
    }
  }

  lemma NoObstacleWhenApart(rules: Rules, w: World, t: Tunnel)
    requires ValidTunnels(rules, w.config.servers, w.config.tunnels) && AllApart(rules, w.config.tunnels)
    requires t in w.config.tunnels
    ensures Obstacle(rules, w, t, w.config.tunnels).None?
  {
    OnlyPortsStandInTheWay(rules, w, t);
    forall i | 0 <= i < |w.config.tunnels| ensures !InTheWay(rules, w, t, w.config.tunnels[i]) {
      ApartDoNotClash(rules, t, w.config.tunnels[i]);
    }
    assert !PortsTaken(rules, w, t);
  }

  /**
   * In a profile built from nothing by commands the saved ranges never overlap, so
   * connecting a saved tunnel is never refused, for ports or anything else.
   */
  lemma ConnectIsNeverRefused(rules: Rules, steps: seq<Step>, id: nat)
    requires ValidRun(rules, Fresh(Empty), steps)
    ensures var w := After(rules, Fresh(Empty), steps);
            && AllApart(rules, w.config.tunnels)
            && ConnectTunnel(rules, w, id).refusal
               == if id in w.live || Find(w.config.tunnels, TunnelKey, id).Some? then None else Some(Missing)
  {
    var w := After(rules, Fresh(Empty), steps);
    RunKeepsApart(rules, Fresh(Empty), steps);
    RunKeepsInv(rules, Fresh(Empty), steps);
    FindMeans(w.config.tunnels, TunnelKey, id);
    match Find(w.config.tunnels, TunnelKey, id) {
      case None =>
      case Some(t) =>
        NoObstacleWhenApart(rules, w, t);
        assert Pairs(rules, t).Ok? && HasServer(w.config.servers, t.server);
    }
  }
}
