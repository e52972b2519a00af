/** Saved servers and tunnels: port ranges, overlap rules and whole-profile validation. */
module Profiles {
  import opened Common
  import opened Keyed

  type Port = p: int | 0 <= p < 65536

  datatype Destination = Destination(host: string, port: Port, user: string)

  datatype Login = Login(
    identityFile: Option<string>, agent: Option<string>, fingerprint: Option<string>, password: bool)

  datatype Server = Server(
    id: nat, name: string, destination: Destination, login: Login, clipboard: bool, browser: bool)

  datatype Tunnel = Tunnel(
    id: nat, name: string, server: nat,
    local: Port, localEnd: Option<Port>, host: string, remote: Port, remoteEnd: Option<Port>)

  datatype Config = Config(servers: seq<Server>, tunnels: seq<Tunnel>)

  datatype Refusal =
    | BadPorts | UnequalRanges | TooManyPorts | BadHost | InvalidServer
    | LocalOverlap | RemoteOverlap | ActiveOverlap
    | Missing | Duplicate | NotStored | NotIdentified

  /** Host names are checked and normalised by library parsers. */
  datatype Rules = Rules(serverOk: Server -> bool, hostOk: string -> bool, canonical: string -> string)

  function ServerKey(s: Server): nat { s.id }

  function TunnelKey(t: Tunnel): nat { t.id }

  predicate SameConnection(a: Server, b: Server) {
    a.destination == b.destination && a.login == b.login
  }

  function LocalEnd(t: Tunnel): Port {
    if t.localEnd.Some? then t.localEnd.value else t.local
  }

  function RemoteEnd(t: Tunnel): Port {
    if t.remoteEnd.Some? then t.remoteEnd.value else t.remote
  }

  // ---- Port pairs ----

  function Pairs(rules: Rules, t: Tunnel): Result<seq<(Port, Port)>, Refusal> {
    var le, re := LocalEnd(t), RemoteEnd(t);
    if t.local == 0 || t.remote == 0 || le < t.local || re < t.remote then Err(BadPorts)
    else if le - t.local != re - t.remote then Err(UnequalRanges)
    else if le - t.local >= 256 then Err(TooManyPorts)
    else if !rules.hostOk(t.host) then Err(BadHost)
    else Ok(seq(le - t.local + 1, i requires 0 <= i <= le - t.local => (t.local + i, t.remote + i)))
  }

  /** Each port of the local range is forwarded once, to the port as far into the remote range. */
  lemma PairsMeaning(rules: Rules, t: Tunnel, p: int, q: int)
    requires Pairs(rules, t).Ok?
    ensures 1 <= |Pairs(rules, t).value| <= 256
    ensures (p, q) in Pairs(rules, t).value <==> t.local <= p <= LocalEnd(t) && t.remote <= q <= RemoteEnd(t) && p - t.local == q - t.remote
    ensures forall i, j :: 0 <= i < j < |Pairs(rules, t).value| ==> Pairs(rules, t).value[i].0 < Pairs(rules, t).value[j].0
  {
    var pairs := Pairs(rules, t).value;
    if t.local <= p <= LocalEnd(t) && p - t.local == q - t.remote {
      assert pairs[p - t.local] == (p, q);
    }
  }

  /** Two tunnels want to listen on the same local port. */
  predicate Clash(rules: Rules, a: Tunnel, b: Tunnel) {
    && Pairs(rules, a).Ok? && Pairs(rules, b).Ok?
    && exists i, j ::
         0 <= i < |Pairs(rules, a).value| && 0 <= j < |Pairs(rules, b).value|
         && Pairs(rules, a).value[i].0 == Pairs(rules, b).value[j].0
  }

  predicate LocalsOverlap(a: Tunnel, b: Tunnel) {
    a.local <= LocalEnd(b) && b.local <= LocalEnd(a)
  }

  predicate RemotesOverlap(rules: Rules, a: Tunnel, b: Tunnel) {
    && a.remote <= RemoteEnd(b) && b.remote <= RemoteEnd(a)
    && a.server == b.server && rules.canonical(a.host) == rules.canonical(b.host)
  }

  /** Comparing range ends decides exactly whether some port is in both lists. */
  lemma ClashIffOverlap(rules: Rules, a: Tunnel, b: Tunnel)
    requires Pairs(rules, a).Ok? && Pairs(rules, b).Ok?
    ensures Clash(rules, a, b) <==> LocalsOverlap(a, b)
  {
    if LocalsOverlap(a, b) {
      var p := if a.local <= b.local then b.local else a.local;
      assert Pairs(rules, a).value[p - a.local].0 == p && Pairs(rules, b).value[p - b.local].0 == p;
    }
  }

  /** Which tunnels have good ports, told from their fields. */
  lemma PairsAccepts(rules: Rules, t: Tunnel)
    ensures var le := if t.localEnd.Some? then t.localEnd.value else t.local;
            var re := if t.remoteEnd.Some? then t.remoteEnd.value else t.remote;
            Pairs(rules, t).Ok? <==>
              && 1 <= t.local <= le <= 65535 && 1 <= t.remote <= re <= 65535
              && le - t.local == re - t.remote && le - t.local + 1 <= 256 && rules.hostOk(t.host)
  {
  }

  /** Some remote port is in both lists. */
  predicate SharesRemote(rules: Rules, a: Tunnel, b: Tunnel) {
    && Pairs(rules, a).Ok? && Pairs(rules, b).Ok?
    && exists i, j ::
         0 <= i < |Pairs(rules, a).value| && 0 <= j < |Pairs(rules, b).value|
         && Pairs(rules, a).value[i].1 == Pairs(rules, b).value[j].1
  }

  /** Two good tunnels are apart exactly if no local port is in both lists, and no remote port of one host of one server. */
  lemma ApartMeansNoSharedPort(rules: Rules, a: Tunnel, b: Tunnel)
    requires Pairs(rules, a).Ok? && Pairs(rules, b).Ok?
    ensures Apart(rules, a, b) <==>
              && !Clash(rules, a, b)
              && !(a.server == b.server && rules.canonical(a.host) == rules.canonical(b.host) && SharesRemote(rules, a, b))
  {
    ClashIffOverlap(rules, a, b);
    if a.remote <= RemoteEnd(b) && b.remote <= RemoteEnd(a) {
      var p := if a.remote <= b.remote then b.remote else a.remote;
      assert Pairs(rules, a).value[p - a.remote].1 == p && Pairs(rules, b).value[p - b.remote].1 == p;
    }
  }

  // ---- New and edited tunnels ----

  /** What the first saved tunnel in the way is in the way of. */
  function FirstOverlap(rules: Rules, t: Tunnel, saved: seq<Tunnel>): Option<Refusal> {
    if saved == [] then None
    else if saved[0].id != t.id && LocalsOverlap(t, saved[0]) then Some(LocalOverlap)
    else if saved[0].id != t.id && RemotesOverlap(rules, t, saved[0]) then Some(RemoteOverlap)
    else FirstOverlap(rules, t, saved[1..])
  }

  function UniqueError(rules: Rules, t: Tunnel, saved: seq<Tunnel>): Option<Refusal> {
    if Pairs(rules, t).Err? then Some(Pairs(rules, t).error) else FirstOverlap(rules, t, saved)
  }

  predicate Apart(rules: Rules, a: Tunnel, b: Tunnel) {
    !LocalsOverlap(a, b) && !RemotesOverlap(rules, a, b)
  }

  lemma {:induction false} NoOverlapMeans(rules: Rules, t: Tunnel, saved: seq<Tunnel>)
    ensures FirstOverlap(rules, t, saved).None? <==> forall o :: o in saved && o.id != t.id ==> Apart(rules, t, o)
  {
    if saved != [] {
      NoOverlapMeans(rules, t, saved[1..]);
      assert forall o :: o in saved <==> o == saved[0] || o in saved[1..];
    }
  }

  /** A tunnel passes exactly when its ports are good and it is apart from every other saved tunnel. */
  method ValidateUnique(rules: Rules, t: Tunnel, saved: seq<Tunnel>) returns (refusal: Option<Refusal>)
    ensures refusal == UniqueError(rules, t, saved)
    ensures refusal.None? <==> Pairs(rules, t).Ok? && forall o :: o in saved && o.id != t.id ==> Apart(rules, t, o)
  {
    NoOverlapMeans(rules, t, saved);
    if Pairs(rules, t).Err? {
      return Some(Pairs(rules, t).error);
    }
    for i := 0 to |saved|
      invariant FirstOverlap(rules, t, saved) == FirstOverlap(rules, t, saved[i..])
    {
      var other := saved[i];
      assert saved[i..][1..] == saved[i + 1..];
      if other.id != t.id {
        var localOverlap := t.local <= LocalEnd(other) && other.local <= LocalEnd(t);
        if localOverlap {
          return Some(LocalOverlap);
        }
        var remoteOverlap := t.remote <= RemoteEnd(other) && other.remote <= RemoteEnd(t);
        if t.server == other.server && rules.canonical(t.host) == rules.canonical(other.host) && remoteOverlap {
          return Some(RemoteOverlap);
        }
      }
    }
    return None;
  }

  // ---- Whole profiles ----

  ghost predicate ValidServers(rules: Rules, servers: seq<Server>) {
    (forall s :: s in servers ==> rules.serverOk(s)) && Unique(servers, ServerKey)
  }

  predicate HasServer(servers: seq<Server>, id: nat) {
    Find(servers, ServerKey, id).Some?
  }

  ghost predicate ValidTunnels(rules: Rules, servers: seq<Server>, tunnels: seq<Tunnel>) {
    && (forall t :: t in tunnels ==> Pairs(rules, t).Ok? && HasServer(servers, t.server))
    && Unique(tunnels, TunnelKey)
  }

  ghost predicate ValidConfig(rules: Rules, c: Config) {
    ValidServers(rules, c.servers) && ValidTunnels(rules, c.servers, c.tunnels)
  }

  /** Server ids not yet seen are unique among themselves and new. */
  ghost predicate ServersRest(rules: Rules, rest: seq<Server>, seen: set<nat>) {
    ValidServers(rules, rest) && forall s :: s in rest ==> s.id !in seen
  }

  ghost predicate TunnelsRest(rules: Rules, servers: seq<Server>, rest: seq<Tunnel>, seen: set<nat>) {
    ValidTunnels(rules, servers, rest) && forall t :: t in rest ==> t.id !in seen
  }

  lemma ServersStep(rules: Rules, rest: seq<Server>, seen: set<nat>)
    requires rest != []
    ensures ServersRest(rules, rest, seen) <==>
              rules.serverOk(rest[0]) && rest[0].id !in seen && ServersRest(rules, rest[1..], seen + {rest[0].id})
  {
    assert forall s :: s in rest <==> s == rest[0] || s in rest[1..];
  }

  lemma TunnelsStep(rules: Rules, servers: seq<Server>, rest: seq<Tunnel>, seen: set<nat>)
    requires rest != []
    ensures TunnelsRest(rules, servers, rest, seen) <==>
              && Pairs(rules, rest[0]).Ok? && HasServer(servers, rest[0].server) && rest[0].id !in seen
              && TunnelsRest(rules, servers, rest[1..], seen + {rest[0].id})
  {
    assert forall t :: t in rest <==> t == rest[0] || t in rest[1..];
  }

  /** `ids` are the ids of the first `n` servers. */
  ghost predicate IdsOfFirst(servers: seq<Server>, n: nat, ids: set<nat>)
    requires n <= |servers|
  {
    forall id :: id in ids <==> exists k :: 0 <= k < n && servers[k].id == id
  }

  lemma IdsOfAll(servers: seq<Server>, ids: set<nat>, id: nat)
    requires IdsOfFirst(servers, |servers|, ids)
    ensures id in ids <==> HasServer(servers, id)
  {
    FindMeans(servers, ServerKey, id);
    if id in ids {
      var k :| 0 <= k < |servers| && servers[k].id == id;
      assert servers[k] in servers && ServerKey(servers[k]) == id;
    }
  }

  method ValidateServers(rules: Rules, servers: seq<Server>) returns (ids: set<nat>, refusal: Option<Refusal>)
    ensures refusal.None? <==> ValidServers(rules, servers)
    ensures refusal.None? ==> forall id :: id in ids <==> HasServer(servers, id)
  {
    ids := {};
    for i := 0 to |servers|
      invariant ValidServers(rules, servers) <==> ServersRest(rules, servers[i..], ids)
      invariant IdsOfFirst(servers, i, ids)
    {
      ServersStep(rules, servers[i..], ids);
      assert servers[i..][1..] == servers[i + 1..];
      if !rules.serverOk(servers[i]) {
        return ids, Some(InvalidServer);
      }
      if servers[i].id in ids {
        return ids, Some(Duplicate);
      }
      ids := ids + {servers[i].id};
    }
    forall id ensures id in ids <==> HasServer(servers, id) {
      IdsOfAll(servers, ids, id);
    }
    return ids, None;
  }

  /** The profile check accepts exactly the profiles with unique ids, good ports and no dangling tunnel. */
  method Validate(rules: Rules, c: Config) returns (refusal: Option<Refusal>)
    ensures refusal.None? <==> ValidConfig(rules, c)
  {
    var ids, bad := ValidateServers(rules, c.servers);
    if bad.Some? {
      return bad;
    }
    var tunnels: set<nat> := {};
    for i := 0 to |c.tunnels|
      invariant ValidTunnels(rules, c.servers, c.tunnels) <==> TunnelsRest(rules, c.servers, c.tunnels[i..], tunnels)
    {
      var t := c.tunnels[i];
      TunnelsStep(rules, c.servers, c.tunnels[i..], tunnels);
      assert c.tunnels[i..][1..] == c.tunnels[i + 1..];
      if Pairs(rules, t).Err? {
        return Some(Pairs(rules, t).error);
      }
      if t.server !in ids {
        return Some(Missing);
      }
      if t.id in tunnels {
        return Some(Duplicate);
      }
      tunnels := tunnels + {t.id};
    }
    return None;
  }
}
