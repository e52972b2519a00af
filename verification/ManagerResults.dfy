/** What each command has done once it returns: to the profile, to the tasks it is about, and to all others. */
module ManagerResults {
  import opened Common
  import opened Keyed
  import opened Profiles
  import opened Manager
  import opened ManagerProofs

  function ServerAt(w: World, id: nat): Option<Server> {
    Find(w.config.servers, ServerKey, id)
  }

  function TunnelAt(w: World, id: nat): Option<Tunnel> {
    Find(w.config.tunnels, TunnelKey, id)
  }

  /** Validating a server does not look at its integration switches. */
  ghost predicate IgnoresSwitches(rules: Rules) {
    forall s: Server, c: bool, b: bool :: rules.serverOk(s.(clipboard := c, browser := b)) == rules.serverOk(s)
  }

  // ---- The profile afterwards ----

  /** A saved server has the name, destination and login that were asked for; nothing else in the profile changes. */
  lemma SavedServerIsFound(rules: Rules, w: World, step: Step, id: nat)
    requires step.SaveServer? && Saves(rules, w, step)
    ensures var u, s := Next(rules, w, step).world, step.server;
            && u.config.tunnels == w.config.tunnels
            && if id == s.id then
                 && ServerAt(u, id).Some? && ServerAt(u, id).value.id == s.id && ServerAt(u, id).value.name == s.name
                 && ServerAt(u, id).value.destination == s.destination && ServerAt(u, id).value.login == s.login
               else ServerAt(u, id) == ServerAt(w, id)
  {
    var s := step.server;
    StepStores(rules, w, step);
    PutFinds(w.config.servers, ServerKey, WithConsent(ServerAt(w, s.id), s), id);
  }

  lemma SavedTunnelIsFound(rules: Rules, w: World, step: Step, id: nat)
    requires step.SaveTunnel? && Saves(rules, w, step)
    ensures var u := Next(rules, w, step).world;
            && u.config.servers == w.config.servers
            && TunnelAt(u, id) == if id == step.tunnel.id then Some(step.tunnel) else TunnelAt(w, id)
  {
    StepStores(rules, w, step);
    PutFinds(w.config.tunnels, TunnelKey, step.tunnel, id);
  }

  lemma DeletedTunnelIsGone(rules: Rules, w: World, step: Step, id: nat)
    requires step.DeleteTunnel? && Saves(rules, w, step)
    ensures var u := Next(rules, w, step).world;
            && u.config.servers == w.config.servers
            && TunnelAt(u, id) == if id == step.id then None else TunnelAt(w, id)
  {
    var u, keep := Next(rules, w, step).world, OtherTunnel(step.id);
    StepStores(rules, w, step);
    if id == step.id {
      FindMeans(u.config.tunnels, TunnelKey, id);
      KeepMeans(w.config.tunnels, TunnelKey, keep);
    } else {
      KeepFinds(w.config.tunnels, TunnelKey, keep, id);
    }
  }

  /** A removed server takes its tunnels along; all other servers and tunnels stay. */
  lemma DeletedServerIsGone(rules: Rules, w: World, step: Step, id: nat)
    requires step.DeleteServer? && Saves(rules, w, step) && Unique(w.config.tunnels, TunnelKey)
    ensures var u := Next(rules, w, step).world;
            && ServerAt(u, id) == (if id == step.id then None else ServerAt(w, id))
            && TunnelAt(u, id) == (if TunnelAt(w, id).Some? && TunnelAt(w, id).value.server == step.id then None else TunnelAt(w, id))
  {
    var u := Next(rules, w, step).world;
    StepStores(rules, w, step);
    ServersWithout(w.config.servers, step.id, id);
    TunnelsWithout(w.config.tunnels, step.id, id);
  }

  lemma ServersWithout(servers: seq<Server>, gone: nat, id: nat)
    ensures Find(Keep(servers, OtherServer(gone)), ServerKey, id) == if id == gone then None else Find(servers, ServerKey, id)
  {
    if id == gone {
      FindMeans(Keep(servers, OtherServer(gone)), ServerKey, id);
      KeepMeans(servers, ServerKey, OtherServer(gone));
    } else {
      KeepFinds(servers, ServerKey, OtherServer(gone), id);
    }
  }

  lemma TunnelsWithout(tunnels: seq<Tunnel>, gone: nat, id: nat)
    requires Unique(tunnels, TunnelKey)
    ensures var found := Find(tunnels, TunnelKey, id);
            Find(Keep(tunnels, OnOtherServer(gone)), TunnelKey, id) == if found.Some? && found.value.server == gone then None else found
  {
    var found, kept := Find(tunnels, TunnelKey, id), Keep(tunnels, OnOtherServer(gone));
    FindMeans(tunnels, TunnelKey, id);
    FindMeans(kept, TunnelKey, id);
    KeepMeans(tunnels, TunnelKey, OnOtherServer(gone));
    if found.Some? && Find(kept, TunnelKey, id).Some? {
      FindsItself(tunnels, TunnelKey, Find(kept, TunnelKey, id).value);
    }
  }

  /** A toggle changes one switch of one server and nothing else in the profile. */
  lemma ToggleChangesOneSwitch(rules: Rules, w: World, step: Step, id: nat)
    requires step.SetIntegration? && Saves(rules, w, step)
    ensures var u := Next(rules, w, step).world;
            && u.config.tunnels == w.config.tunnels
            && if id == step.id then
                 && ServerAt(w, id).Some? && ServerAt(u, id).Some?
                 && var before, after := ServerAt(w, id).value, ServerAt(u, id).value;
                    && after.name == before.name && after.destination == before.destination && after.login == before.login
                    && On(after, step.browser) == step.enabled && On(after, !step.browser) == On(before, !step.browser)
               else ServerAt(u, id) == ServerAt(w, id)
  {
    StepStores(rules, w, step);
    FindMeans(w.config.servers, ServerKey, step.id);
    PutFinds(w.config.servers, ServerKey, Toggled(ServerAt(w, step.id).value, step.browser, step.enabled), id);
  }

  /** Steps that ask for something to be stored. */
  predicate Stores(step: Step) {
    step.SaveServer? || step.DeleteServer? || step.SaveTunnel? || step.DeleteTunnel? || step.SetIntegration?
  }

  /** A command that is not stored reports it and changes nothing at all. */
  lemma RefusedChangesNothing(rules: Rules, w: World, step: Step)
    requires Stores(step) && !Saves(rules, w, step) && !AlreadySet(w, step)
    ensures Next(rules, w, step).world == w && Next(rules, w, step).refusal.Some?
  {
  }

  // ---- Exactly which commands are stored ----

  /** What a command needs besides storage. */
  ghost predicate Acceptable(rules: Rules, w: World, step: Step) {
    match step
    case SaveServer(s, _, _, _) => rules.serverOk(s)
    case DeleteServer(id, _) => ServerAt(w, id).Some?
    case SaveTunnel(t, _) =>
      && Pairs(rules, t).Ok? && ServerAt(w, t.server).Some?
      && forall o :: o in w.config.tunnels && o.id != t.id ==> Apart(rules, t, o)
    case DeleteTunnel(_, _) => true
    case SetIntegration(id, _, _, _, _) => ServerAt(w, id).Some?
    case _ => false
  }

  lemma PutServerKeepsValid(rules: Rules, c: Config, s: Server)
    requires ValidConfig(rules, c) && rules.serverOk(s)
    ensures ValidConfig(rules, c.(servers := Put(c.servers, ServerKey, s)))
  {
    PutMeans(c.servers, ServerKey, s);
    forall t | t in c.tunnels ensures HasServer(Put(c.servers, ServerKey, s), t.server) {
      PutFinds(c.servers, ServerKey, s, t.server);
    }
  }

  lemma PutTunnelKeepsValid(rules: Rules, c: Config, t: Tunnel)
    requires ValidConfig(rules, c) && Pairs(rules, t).Ok? && HasServer(c.servers, t.server)
    ensures ValidConfig(rules, c.(tunnels := Put(c.tunnels, TunnelKey, t)))
  {
    PutMeans(c.tunnels, TunnelKey, t);
  }

  lemma WithoutServerIsValid(rules: Rules, c: Config, id: nat)
    requires ValidConfig(rules, c)
    ensures ValidConfig(rules, WithoutServer(c, id))
  {
    KeepMeans(c.servers, ServerKey, OtherServer(id));
    KeepMeans(c.tunnels, TunnelKey, OnOtherServer(id));
    forall t | t in WithoutServer(c, id).tunnels ensures HasServer(WithoutServer(c, id).servers, t.server) {
      ServersWithout(c.servers, id, t.server);
    }
  }

  lemma WithoutTunnelIsValid(rules: Rules, c: Config, id: nat)
    requires ValidConfig(rules, c)
    ensures ValidConfig(rules, WithoutTunnel(c, id))
  {
    KeepMeans(c.tunnels, TunnelKey, OtherTunnel(id));
  }

  /** Checking the whole profile again before writing never refuses an acceptable command: only storage itself can. */
  lemma StoredExactlyIfAcceptable(rules: Rules, w: World, step: Step)
    requires ValidConfig(rules, w.config) && IgnoresSwitches(rules) && Stores(step)
    ensures Saves(rules, w, step) <==> Acceptable(rules, w, step) && step.stored
  {
    match step
    case SaveServer(s, _, _, _) =>
      var saved := WithConsent(ServerAt(w, s.id), s);
      assert saved == s.(clipboard := saved.clipboard, browser := saved.browser);
      if rules.serverOk(s) { PutServerKeepsValid(rules, w.config, saved); }
    case DeleteServer(id, _) => WithoutServerIsValid(rules, w.config, id);
    case SaveTunnel(t, _) =>
      NoOverlapMeans(rules, t, w.config.tunnels);
      if Pairs(rules, t).Ok? && HasServer(w.config.servers, t.server) { PutTunnelKeepsValid(rules, w.config, t); }
    case DeleteTunnel(id, _) => WithoutTunnelIsValid(rules, w.config, id);
    case SetIntegration(id, browser, enabled, _, _) =>
      FindMeans(w.config.servers, ServerKey, id);
      if ServerAt(w, id).Some? {
        var toggled := Toggled(ServerAt(w, id).value, browser, enabled);
        assert toggled == ServerAt(w, id).value.(clipboard := toggled.clipboard, browser := toggled.browser);
        PutServerKeepsValid(rules, w.config, toggled);
      }
  }

  // ---- The tasks afterwards ----

  /** Tunnel `o` is saved for this server. */
  predicate Belongs(w: World, o: nat, server: nat) {
    TunnelAt(w, o).Some? && TunnelAt(w, o).value.server == server
  }

  /** The tunnels whose tasks a step may touch. */
  predicate Concerns(w: World, step: Step, o: nat) {
    match step
    case SaveServer(s, _, _, _) => Belongs(w, o, s.id)
    case DeleteServer(id, _) => Belongs(w, o, id)
    case SaveTunnel(t, _) => o == t.id
    case DeleteTunnel(id, _) => o == id
    case SetConnected(id, _) => o == id
    case Progress(id, _) => o == id
    case TaskFails(id) => o == id
    case _ => false
  }

  /** The servers whose integration a step may touch. */
  predicate ConcernsIntegration(step: Step, id: nat) {
    match step
    case SaveServer(s, _, _, _) => id == s.id
    case DeleteServer(i, _) => id == i
    case SetIntegration(i, _, _, _, _) => id == i
    case Resume(i, _) => id == i
    case IntegrationEnds(i) => id == i
    case _ => false
  }

  ghost predicate SameAt<V>(before: map<nat, V>, after: map<nat, V>, id: nat) {
    (id in after <==> id in before) && (id in before ==> after[id] == before[id])
  }

  ghost predicate SameTask(w: World, u: World, o: nat) {
    SameAt(w.live, u.live, o) && SameAt(w.status, u.status, o)
  }

  lemma {:induction false} ReconnectLeavesOthers(rules: Rules, w: World, ids: seq<nat>, o: nat)
    requires o !in ids
    ensures SameTask(w, ReconnectAll(rules, w, ids).world, o)
    ensures ReconnectAll(rules, w, ids).world.integrations == w.integrations
    decreases |ids|
  {
    if ids != [] {
      var r := Restart(rules, w, ids[0]);
      assert SameTask(w, r.world, o) && r.world.integrations == w.integrations;
      if r.refusal.None? {
        ReconnectLeavesOthers(rules, r.world, ids[1..], o);
      }
    }
  }

  lemma ActiveOnesBelong(w: World, server: nat, o: nat)
    requires Unique(w.config.tunnels, TunnelKey) && o in ActiveOf(w.config.tunnels, w.live, server)
    ensures Belongs(w, o, server)
  {
    ActiveOfMeans(w.config.tunnels, w.live, server, o);
    var t :| t in w.config.tunnels && t.server == server && t.id == o;
    FindsItself(w.config.tunnels, TunnelKey, t);
  }

  lemma {:induction false} ReconnectKeepsIntegrations(rules: Rules, w: World, ids: seq<nat>)
    ensures ReconnectAll(rules, w, ids).world.integrations == w.integrations
    decreases |ids|
  {
    if ids != [] && Restart(rules, w, ids[0]).refusal.None? {
      ReconnectKeepsIntegrations(rules, Restart(rules, w, ids[0]).world, ids[1..]);
    }
  }

  lemma RestartLeavesOthers(rules: Rules, w: World, server: nat, identified: bool, o: nat, id: nat)
    ensures var u := RestartServer(rules, w, server, identified).world;
            && (o !in ActiveOf(w.config.tunnels, w.live, server) ==> SameTask(w, u, o))
            && (id != server ==> SameAt(w.integrations, u.integrations, id))
  {
    var stopped, ids := StopIntegration(w, server), ActiveOf(w.config.tunnels, w.live, server);
    ReconnectKeepsIntegrations(rules, stopped, ids);
    if o !in ids {
      ReconnectLeavesOthers(rules, stopped, ids, o);
    }
  }

  lemma SaveServerLeavesOthers(rules: Rules, w: World, step: Step, o: nat, id: nat)
    requires step.SaveServer? && Unique(w.config.tunnels, TunnelKey)
    ensures !Belongs(w, o, step.server.id) ==> SameTask(w, Next(rules, w, step).world, o)
    ensures id != step.server.id ==> SameAt(w.integrations, Next(rules, w, step).world.integrations, id)
  {
    if Saves(rules, w, step) {
      if o in ActiveOf(w.config.tunnels, w.live, step.server.id) {
        ActiveOnesBelong(w, step.server.id, o);
      }
      RestartLeavesOthers(rules, w.(config := Wanted(rules, w, step).value), step.server.id, step.identified, o, id);
    }
  }

  lemma DeleteServerLeavesOthers(rules: Rules, w: World, step: Step, o: nat)
    requires step.DeleteServer? && Unique(w.config.tunnels, TunnelKey) && !Belongs(w, o, step.id)
    ensures SameTask(w, Next(rules, w, step).world, o)
  {
    if t: Tunnel :| t in w.config.tunnels && t.server == step.id && t.id == o {
      FindsItself(w.config.tunnels, TunnelKey, t);
    }
  }

  lemma SaveTunnelLeavesOthers(rules: Rules, w: World, t: Tunnel, stored: bool, o: nat)
    requires o != t.id
    ensures var u := Next(rules, w, SaveTunnel(t, stored)).world; SameTask(w, u, o) && u.integrations == w.integrations
  {
  }

  lemma DeleteTunnelLeavesOthers(rules: Rules, w: World, id: nat, stored: bool, o: nat)
    requires o != id
    ensures var u := Next(rules, w, DeleteTunnel(id, stored)).world; SameTask(w, u, o) && u.integrations == w.integrations
  {
  }

  lemma TunnelStepLeavesOthers(rules: Rules, w: World, step: Step, o: nat)
    requires (step.SaveTunnel? || step.DeleteTunnel?) && !Concerns(w, step, o)
    ensures SameTask(w, Next(rules, w, step).world, o) && Next(rules, w, step).world.integrations == w.integrations
  {
    if step.SaveTunnel? {
      SaveTunnelLeavesOthers(rules, w, step.tunnel, step.stored, o);
    } else {
      DeleteTunnelLeavesOthers(rules, w, step.id, step.stored, o);
    }
  }

  lemma StartLeavesOthers(w: World, i: nat, identified: bool, id: nat)
    ensures var u := StartIntegrationIfOn(w, i, identified).world;
            u.live == w.live && u.status == w.status && (id != i ==> SameAt(w.integrations, u.integrations, id))
  {
  }

  lemma ToggleLeavesOthers(rules: Rules, w: World, step: Step, o: nat, id: nat)
    requires step.SetIntegration?
    ensures SameTask(w, Next(rules, w, step).world, o)
    ensures id != step.id ==> SameAt(w.integrations, Next(rules, w, step).world.integrations, id)
  {
    if AlreadySet(w, step) {
      StartLeavesOthers(w, step.id, step.identified, id);
    } else if Saves(rules, w, step) {
      StartLeavesOthers(StopIntegration(w.(config := Wanted(rules, w, step).value), step.id), step.id, step.identified, id);
    }
  }

  lemma PlainStepLeavesOthers(rules: Rules, w: World, step: Step, o: nat, id: nat)
    requires !Stores(step)
    ensures !Concerns(w, step, o) ==> SameTask(w, Next(rules, w, step).world, o)
    ensures !ConcernsIntegration(step, id) ==> SameAt(w.integrations, Next(rules, w, step).world.integrations, id)
  {
  }

  lemma DeleteServerLeavesIntegrations(rules: Rules, w: World, step: Step, id: nat)
    requires step.DeleteServer? && id != step.id
    ensures SameAt(w.integrations, Next(rules, w, step).world.integrations, id)
  {
  }

  /** No step disturbs what runs for a tunnel it is not about. */
  lemma OtherTunnelsAreUndisturbed(rules: Rules, w: World, step: Step, o: nat)
    requires Unique(w.config.tunnels, TunnelKey) && !Concerns(w, step, o)
    ensures SameTask(w, Next(rules, w, step).world, o)
  {
    if !Stores(step) {
      PlainStepLeavesOthers(rules, w, step, o, 0);
    } else if step.SaveServer? {
      SaveServerLeavesOthers(rules, w, step, o, 0);
    } else if step.DeleteServer? {
      DeleteServerLeavesOthers(rules, w, step, o);
    } else if step.SetIntegration? {
      ToggleLeavesOthers(rules, w, step, o, 0);
    } else {
      TunnelStepLeavesOthers(rules, w, step, o);
    }
  }

  /** No step disturbs the integration of a server it is not about. */
  lemma OtherIntegrationsAreUndisturbed(rules: Rules, w: World, step: Step, id: nat)
    requires Unique(w.config.tunnels, TunnelKey) && !ConcernsIntegration(step, id)
    ensures SameAt(w.integrations, Next(rules, w, step).world.integrations, id)
  {
    if !Stores(step) {
      PlainStepLeavesOthers(rules, w, step, 0, id);
    } else if step.SaveServer? {
      SaveServerLeavesOthers(rules, w, step, 0, id);
    } else if step.DeleteServer? {
      DeleteServerLeavesIntegrations(rules, w, step, id);
    } else if step.SetIntegration? {
      ToggleLeavesOthers(rules, w, step, 0, id);
    } else {
      assert !Concerns(w, step, 0) || !Concerns(w, step, 1);
      TunnelStepLeavesOthers(rules, w, step, if Concerns(w, step, 0) then 1 else 0);
    }
  }

  /** A connect command that is not refused leaves the tunnel live, as saved and to its server as saved if it was not live before. */
  lemma ConnectedTunnelRuns(rules: Rules, w: World, id: nat)
    requires Next(rules, w, SetConnected(id, true)).refusal.None?
    ensures var u := Next(rules, w, SetConnected(id, true)).world;
            && id in u.live
            && (id in w.live ==> u == w)
            && (id !in w.live ==>
                  && TunnelAt(w, id) == Some(u.live[id].tunnel) && ServerAt(w, u.live[id].tunnel.server) == Some(u.live[id].server)
                  && id in u.status && u.status[id] == Connecting)
  {
  }

  /** Disconnecting, a failing task, and removing a tunnel or its server stop the tunnel and say so in its status. */
  lemma EndedTunnelsAreNotLive(rules: Rules, w: World, step: Step, o: nat)
    requires Unique(w.config.tunnels, TunnelKey)
    requires match step
             case SetConnected(id, connected) => !connected && o == id
             case TaskFails(id) => o == id
             case DeleteTunnel(id, _) => o == id && Saves(rules, w, step)
             case DeleteServer(id, _) => Belongs(w, o, id) && Saves(rules, w, step)
             case _ => false
    ensures var u := Next(rules, w, step).world;
            && o !in u.live
            && (step.SetConnected? ==> o in u.status && u.status[o] == Disconnected)
            && (step.TaskFails? ==> o in u.status && u.status[o] == Failed)
            && (step.DeleteTunnel? || step.DeleteServer? ==> o !in u.status)
  {
    if step.DeleteServer? {
      FindMeans(w.config.tunnels, TunnelKey, o);
      assert TunnelAt(w, o).value in w.config.tunnels;
      assert o in TunnelsOf(w.config.tunnels, step.id);
    }
  }

  /** An edit that keeps destination, login and password restarts nothing. */
  lemma QuietEditRestartsNothing(rules: Rules, w: World, step: Step)
    requires step.SaveServer? && !step.newPassword
    requires ServerAt(w, step.server.id).Some? ==>
               ServerAt(w, step.server.id).value.destination == step.server.destination
               && ServerAt(w, step.server.id).value.login == step.server.login
    ensures var u := Next(rules, w, step).world;
            u.live == w.live && u.status == w.status && u.integrations == w.integrations
  {
  }

  /** After any stored edit the live tunnels of the server run to the destination and with the login just saved. */
  lemma EditedServerIsRun(rules: Rules, w: World, step: Step, o: nat)
    requires Inv(rules, w) && step.SaveServer? && Saves(rules, w, step)
    ensures var u := Next(rules, w, step).world;
            o in u.live && u.live[o].tunnel.server == step.server.id ==>
              u.live[o].server.destination == step.server.destination && u.live[o].server.login == step.server.login
  {
    var u := Next(rules, w, step).world;
    StepKeepsInv(rules, w, step);
    SavedServerIsFound(rules, w, step, step.server.id);
    if o in u.live {
      assert Current(u.config.servers, u.live[o]);
    }
  }

  /** After a toggle that is not refused the integration runs exactly if one of its switches is on now. */
  lemma ToggleTakesEffect(rules: Rules, w: World, step: Step)
    requires Inv(rules, w) && step.SetIntegration? && Next(rules, w, step).refusal.None?
    ensures var u := Next(rules, w, step).world;
            && ServerAt(u, step.id).Some? && On(ServerAt(u, step.id).value, step.browser) == step.enabled
            && (step.id in u.integrations <==> ServerAt(u, step.id).value.clipboard || ServerAt(u, step.id).value.browser)
  {
    var u := Next(rules, w, step).world;
    if !AlreadySet(w, step) {
      ToggleChangesOneSwitch(rules, w, step, step.id);
      StepStores(rules, w, step);
    }
  }

  /** The step may start this integration, and the client's identity file was there. */
  predicate IdentifiedStart(step: Step, id: nat) {
    match step
    case SaveServer(s, _, _, identified) => s.id == id && identified
    case SetIntegration(i, _, _, _, identified) => i == id && identified
    case Resume(i, identified) => i == id && identified
    case _ => false
  }

  lemma StartNeedsIdentity(w: World, i: nat, identified: bool, id: nat)
    requires id in StartIntegration(w, i, identified).world.integrations
    ensures SameAt(w.integrations, StartIntegration(w, i, identified).world.integrations, id) || (i == id && identified)
  {
  }

  lemma RestartNeedsIdentity(rules: Rules, w: World, server: nat, identified: bool)
    requires server in RestartServer(rules, w, server, identified).world.integrations
    ensures identified
  {
    var stopped, ids := StopIntegration(w, server), ActiveOf(w.config.tunnels, w.live, server);
    ReconnectKeepsIntegrations(rules, stopped, ids);
    var r := ReconnectAll(rules, stopped, ids);
    if r.refusal.None? {
      StartNeedsIdentity(r.world, server, identified, server);
    }
  }

  lemma ToggleNeedsIdentity(rules: Rules, w: World, step: Step)
    requires step.SetIntegration? && step.id in Next(rules, w, step).world.integrations
    ensures SameAt(w.integrations, Next(rules, w, step).world.integrations, step.id) || step.identified
  {
  }

  lemma SaveServerNeedsIdentity(rules: Rules, w: World, step: Step)
    requires step.SaveServer? && step.server.id in Next(rules, w, step).world.integrations
    ensures SameAt(w.integrations, Next(rules, w, step).world.integrations, step.server.id) || step.identified
  {
    if Saves(rules, w, step) && RestartsServer(w, step) {
      RestartNeedsIdentity(rules, w.(config := Wanted(rules, w, step).value), step.server.id, step.identified);
    }
  }

  predicate RestartsServer(w: World, step: Step)
    requires step.SaveServer?
  {
    var found := ServerAt(w, step.server.id);
    step.newPassword || (found.Some? && !SameConnection(found.value, step.server))
  }

  /** Nothing starts or replaces an integration without the client's identity file. */
  lemma IntegrationsNeedIdentity(rules: Rules, w: World, step: Step, id: nat)
    requires Unique(w.config.tunnels, TunnelKey) && id in Next(rules, w, step).world.integrations
    ensures SameAt(w.integrations, Next(rules, w, step).world.integrations, id) || IdentifiedStart(step, id)
  {
    if !ConcernsIntegration(step, id) {
      OtherIntegrationsAreUndisturbed(rules, w, step, id);
    } else if step.SaveServer? {
      SaveServerNeedsIdentity(rules, w, step);
    } else if step.SetIntegration? {
      ToggleNeedsIdentity(rules, w, step);
    } else if step.Resume? {
      StartNeedsIdentity(w, step.id, step.identified, id);
    } else {
      EndedIntegration(rules, w, step, id);
    }
  }

  lemma EndedIntegration(rules: Rules, w: World, step: Step, id: nat)
    requires (step.DeleteServer? || step.IntegrationEnds?) && step.id == id
    ensures SameAt(w.integrations, Next(rules, w, step).world.integrations, id) || id !in Next(rules, w, step).world.integrations
  {
  }
}
