/**
 * Tunnels and integrations under the manager lock. A command is one step, and so
 * is a tunnel task that fails: it ends and its status becomes failed. A task that
 * has ended is no longer in `live`.
 */
module Manager {
  import opened Common
  import opened Keyed
  import opened Profiles

  datatype Status = Disconnected | Connecting | Connected | Reconnecting | Failed

  /** What a tunnel task was started with. */
  datatype Running = Running(server: Server, tunnel: Tunnel)

  datatype World = World(
    config: Config, live: map<nat, Running>, status: map<nat, Status>, integrations: map<nat, Server>)

  datatype Reply = Reply(world: World, refusal: Option<Refusal>)

  /** The application just started on a stored profile. */
  function Fresh(config: Config): World {
    World(config, map[], map[], map[])
  }

  const Empty := Config([], [])

  predicate Active(s: Status) {
    s == Connecting || s == Connected || s == Reconnecting
  }

  // ---- Tunnels and integrations ----

  /** What the first live tunnel in the way reports: bad ports of its own, or a shared local port. */
  function Obstacle(rules: Rules, w: World, t: Tunnel, others: seq<Tunnel>): Option<Refusal> {
    if others == [] then None
    else
      var other := others[0];
      if other.id != t.id && other.id in w.live && Pairs(rules, other).Err? then Some(Pairs(rules, other).error)
      else if other.id != t.id && other.id in w.live && Clash(rules, t, other) then Some(ActiveOverlap)
      else Obstacle(rules, w, t, others[1..])
  }

  function ConnectTunnel(rules: Rules, w: World, id: nat): Reply {
    if id in w.live then Reply(w, None)
    else match Find(w.config.tunnels, TunnelKey, id)
      case None => Reply(w, Some(Missing))
      case Some(t) =>
        if Pairs(rules, t).Err? then Reply(w, Some(Pairs(rules, t).error))
        else match Find(w.config.servers, ServerKey, t.server)
          case None => Reply(w, Some(Missing))
          case Some(s) =>
            var obstacle := Obstacle(rules, w, t, w.config.tunnels);
            if obstacle.Some? then Reply(w, obstacle)
            else Reply(w.(live := w.live[id := Running(s, t)], status := w.status[id := Connecting]), None)
  }

  function DisconnectTunnel(w: World, id: nat): World {
    w.(live := w.live - {id}, status := w.status[id := Disconnected])
  }

  function StartIntegration(w: World, id: nat, identified: bool): Reply {
    if id in w.integrations then Reply(w, None)
    else match Find(w.config.servers, ServerKey, id)
      case None => Reply(w, Some(Missing))
      case Some(s) =>
        if !s.clipboard && !s.browser then Reply(w, None)
        else if !identified then Reply(w, Some(NotIdentified))
        else Reply(w.(integrations := w.integrations[id := s]), None)
  }

  function StopIntegration(w: World, id: nat): World {
    w.(integrations := w.integrations - {id})
  }

  // ---- Saving a server ----

  /** Consent survives an edit only while the destination stays the same. */
  function Upserted(servers: seq<Server>, server: Server): seq<Server> {
    Put(servers, ServerKey, WithConsent(Find(servers, ServerKey, server.id), server))
  }

  function WithConsent(saved: Option<Server>, server: Server): Server {
    match saved
    case None => server.(clipboard := false, browser := false)
    case Some(kept) =>
      var same := kept.destination == server.destination;
      server.(clipboard := kept.clipboard && same, browser := kept.browser && same)
  }

  function ActiveOf(tunnels: seq<Tunnel>, live: map<nat, Running>, server: nat): seq<nat> {
    if tunnels == [] then []
    else (if tunnels[0].server == server && tunnels[0].id in live then [tunnels[0].id] else [])
         + ActiveOf(tunnels[1..], live, server)
  }

  function ReconnectAll(rules: Rules, w: World, ids: seq<nat>): Reply
    decreases |ids|
  {
    if ids == [] then Reply(w, None)
    else
      var r := ConnectTunnel(rules, DisconnectTunnel(w, ids[0]), ids[0]);
      if r.refusal.Some? then r else ReconnectAll(rules, r.world, ids[1..])
  }

  function RestartServer(rules: Rules, w: World, id: nat, identified: bool): Reply {
    var r := ReconnectAll(rules, StopIntegration(w, id), ActiveOf(w.config.tunnels, w.live, id));
    if r.refusal.Some? then r else StartIntegration(r.world, id, identified)
  }

  // ---- Steps ----

  /** `stored` and `identified` say whether storage and the client identity file are available. */
  datatype Step =
    | SaveServer(server: Server, newPassword: bool, stored: bool, identified: bool)
    | DeleteServer(id: nat, stored: bool)
    | SaveTunnel(tunnel: Tunnel, stored: bool)
    | DeleteTunnel(id: nat, stored: bool)
    | SetConnected(id: nat, connected: bool)
    | SetIntegration(id: nat, browser: bool, enabled: bool, stored: bool, identified: bool)
    | Resume(id: nat, identified: bool)
    | IntegrationEnds(id: nat)
    | Progress(id: nat, status: Status)
    | TaskFails(id: nat)

  predicate Enabled(w: World, step: Step) {
    match step
    case Progress(id, status) => id in w.live && Active(status)
    case TaskFails(id) => id in w.live
    case _ => true
  }

  function OtherServer(id: nat): Server -> bool { (s: Server) => s.id != id }

  function OtherTunnel(id: nat): Tunnel -> bool { (t: Tunnel) => t.id != id }

  function OnOtherServer(id: nat): Tunnel -> bool { (t: Tunnel) => t.server != id }

  function OnServer(id: nat): Tunnel -> bool { (t: Tunnel) => t.server == id }

  function WithoutServer(c: Config, id: nat): Config {
    Config(Keep(c.servers, OtherServer(id)), Keep(c.tunnels, OnOtherServer(id)))
  }

  function WithoutTunnel(c: Config, id: nat): Config {
    c.(tunnels := Keep(c.tunnels, OtherTunnel(id)))
  }

  function TunnelsOf(tunnels: seq<Tunnel>, server: nat): (ids: set<nat>)
    ensures forall id :: id in ids <==> exists t :: t in tunnels && t.server == server && t.id == id
  {
    set t | t in tunnels && t.server == server :: t.id
  }

  function Toggled(s: Server, browser: bool, enabled: bool): Server {
    if browser then s.(browser := enabled) else s.(clipboard := enabled)
  }

  predicate On(s: Server, browser: bool) {
    if browser then s.browser else s.clipboard
  }

  /** The profile a step asks to store, if it gets that far. */
  function Wanted(rules: Rules, w: World, step: Step): Option<Config> {
    match step
    case SaveServer(server, _, _, _) =>
      if rules.serverOk(server) then Some(w.config.(servers := Upserted(w.config.servers, server))) else None
    case DeleteServer(id, _) =>
      if HasServer(w.config.servers, id) then Some(WithoutServer(w.config, id)) else None
    case SaveTunnel(t, _) =>
      if HasServer(w.config.servers, t.server) && UniqueError(rules, t, w.config.tunnels).None?
      then Some(w.config.(tunnels := Put(w.config.tunnels, TunnelKey, t))) else None
    case DeleteTunnel(id, _) => Some(WithoutTunnel(w.config, id))
    case SetIntegration(id, browser, enabled, _, _) =>
      (match Find(w.config.servers, ServerKey, id)
       case None => None
       case Some(s) => Some(w.config.(servers := Put(w.config.servers, ServerKey, Toggled(s, browser, enabled)))))
    case _ => None
  }

  predicate Writable(step: Step) {
    match step
    case SaveServer(_, _, stored, _) => stored
    case DeleteServer(_, stored) => stored
    case SaveTunnel(_, stored) => stored
    case DeleteTunnel(_, stored) => stored
    case SetIntegration(_, _, _, stored, _) => stored
    case _ => false
  }

  /** Storage checks the whole profile again before it writes. */
  ghost predicate Saves(rules: Rules, w: World, step: Step) {
    var wanted := Wanted(rules, w, step);
    wanted.Some? && Writable(step) && ValidConfig(rules, wanted.value)
  }

  /** Why nothing was saved. */
  function SaveRefusal(rules: Rules, w: World, step: Step): Refusal {
    match step
    case SaveServer(server, _, _, _) => if rules.serverOk(server) then NotStored else InvalidServer
    case DeleteServer(id, _) => if HasServer(w.config.servers, id) then NotStored else Missing
    case SaveTunnel(t, _) =>
      if Pairs(rules, t).Err? then Pairs(rules, t).error
      else if !HasServer(w.config.servers, t.server) then Missing
      else if UniqueError(rules, t, w.config.tunnels).Some? then UniqueError(rules, t, w.config.tunnels).value
      else NotStored
    case SetIntegration(id, _, _, _, _) => if HasServer(w.config.servers, id) then NotStored else Missing
    case _ => NotStored
  }

  /** What follows once the profile of a step is saved. */
  function Applied(rules: Rules, w: World, saved: World, step: Step): Reply {
    match step
    case SaveServer(server, newPassword, _, identified) =>
      var found := Find(w.config.servers, ServerKey, server.id);
      if newPassword || (found.Some? && !SameConnection(found.value, server))
      then RestartServer(rules, saved, server.id, identified)
      else Reply(saved, None)
    case DeleteServer(id, _) =>
      var ids := TunnelsOf(w.config.tunnels, id);
      Reply(StopIntegration(saved.(live := saved.live - ids, status := saved.status - ids), id), None)
    case SaveTunnel(t, _) =>
      if t.id in w.status && Active(w.status[t.id])
      then ConnectTunnel(rules, DisconnectTunnel(saved, t.id), t.id)
      else Reply(saved, None)
    case DeleteTunnel(id, _) => Reply(saved.(live := saved.live - {id}, status := saved.status - {id}), None)
    case SetIntegration(id, browser, enabled, _, identified) =>
      StartIntegrationIfOn(StopIntegration(saved, id), id, identified)
    case _ => Reply(saved, None)
  }

  function StartIntegrationIfOn(w: World, id: nat, identified: bool): Reply {
    match Find(w.config.servers, ServerKey, id)
    case None => Reply(w, Some(Missing))
    case Some(s) => if s.clipboard || s.browser then StartIntegration(w, id, identified) else Reply(StopIntegration(w, id), None)
  }

  /** The toggle already has the wanted value: nothing is stored and a running integration goes on. */
  predicate AlreadySet(w: World, step: Step) {
    step.SetIntegration? &&
    (match Find(w.config.servers, ServerKey, step.id)
     case None => false
     case Some(s) => On(s, step.browser) == step.enabled)
  }

  ghost function NextSaving(rules: Rules, w: World, step: Step): Reply {
    if AlreadySet(w, step) then StartIntegrationIfOn(w, step.id, step.identified)
    else if Saves(rules, w, step) then Applied(rules, w, w.(config := Wanted(rules, w, step).value), step)
    else Reply(w, Some(SaveRefusal(rules, w, step)))
  }

  ghost function Next(rules: Rules, w: World, step: Step): Reply {
    match step
    case SetConnected(id, connected) =>
      if connected then ConnectTunnel(rules, w, id) else Reply(DisconnectTunnel(w, id), None)
    case Resume(id, identified) => StartIntegration(w, id, identified)
    case IntegrationEnds(id) => Reply(StopIntegration(w, id), None)
    case Progress(id, status) => Reply(w.(status := w.status[id := status]), None)
    case TaskFails(id) => Reply(w.(live := w.live - {id}, status := w.status[id := Failed]), None)
    case _ => NextSaving(rules, w, step)
  }

  ghost predicate ValidRun(rules: Rules, w: World, steps: seq<Step>)
    decreases |steps|
  {
    steps == [] || (Enabled(w, steps[0]) && ValidRun(rules, Next(rules, w, steps[0]).world, steps[1..]))
  }

  ghost function After(rules: Rules, w: World, steps: seq<Step>): World
    requires ValidRun(rules, w, steps)
    decreases |steps|
  {
    if steps == [] then w else After(rules, Next(rules, w, steps[0]).world, steps[1..])
  }
}
