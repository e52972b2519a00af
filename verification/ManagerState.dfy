/** The manager object behind its lock: its fields change in place, as the commands of module Manager say. */
module ManagerState {
  import opened Common
  import opened Keyed
  import opened Profiles
  import opened Manager

  method Lookup<T>(xs: seq<T>, key: T -> nat, id: nat) returns (found: Option<T>)
    ensures found == Find(xs, key, id)
  {
    for i := 0 to |xs|
      invariant Find(xs, key, id) == Find(xs[i..], key, id)
    {
      if key(xs[i]) == id {
        return Some(xs[i]);
      }
      assert xs[i..][1..] == xs[i + 1..];
    }
    return None;
  }

  lemma Regroup<T>(whole: seq<T>, front: seq<T>, next: seq<T>, rest: seq<T>)
    requires whole == front + (next + rest)
    ensures whole == (front + next) + rest
  {
  }

  lemma KeepNext<T>(xs: seq<T>, keep: T -> bool, i: nat)
    requires i < |xs|
    ensures Keep(xs[i..], keep) == if keep(xs[i]) then [xs[i]] + Keep(xs[i + 1..], keep) else Keep(xs[i + 1..], keep)
  {
    var tail := xs[i..];
    assert tail[1..] == xs[i + 1..];
    assert [] + Keep(tail[1..], keep) == Keep(tail[1..], keep);
  }

  lemma KeepPasses<T>(xs: seq<T>, keep: T -> bool, kept: seq<T>, i: nat)
    requires i < |xs| && Keep(xs, keep) == kept + Keep(xs[i..], keep)
    ensures Keep(xs, keep) == (if keep(xs[i]) then kept + [xs[i]] else kept) + Keep(xs[i + 1..], keep)
  {
    KeepNext(xs, keep, i);
    if keep(xs[i]) {
      Regroup(Keep(xs, keep), kept, [xs[i]], Keep(xs[i + 1..], keep));
    }
  }

  method Retain<T>(xs: seq<T>, keep: T -> bool) returns (kept: seq<T>)
    ensures kept == Keep(xs, keep)
  {
    kept := [];
    for i := 0 to |xs|
      invariant Keep(xs, keep) == kept + Keep(xs[i..], keep)
    {
      KeepPasses(xs, keep, kept, i);
      if keep(xs[i]) {
        kept := kept + [xs[i]];
      }
    }
  }

  lemma PutNext<T>(xs: seq<T>, key: T -> nat, x: T, i: nat)
    requires i < |xs|
    ensures Put(xs[i..], key, x) == if key(xs[i]) == key(x) then [x] + xs[i + 1..] else [xs[i]] + Put(xs[i + 1..], key, x)
  {
    assert xs[i..][1..] == xs[i + 1..];
  }

  lemma PutPasses<T>(xs: seq<T>, key: T -> nat, x: T, i: nat)
    requires i < |xs| && key(xs[i]) != key(x) && Put(xs, key, x) == xs[..i] + Put(xs[i..], key, x)
    ensures Put(xs, key, x) == xs[..i + 1] + Put(xs[i + 1..], key, x)
  {
    PutNext(xs, key, x, i);
    Regroup(Put(xs, key, x), xs[..i], [xs[i]], Put(xs[i + 1..], key, x));
    assert xs[..i + 1] == xs[..i] + [xs[i]];
  }

  lemma PutLands<T>(xs: seq<T>, key: T -> nat, x: T, i: nat)
    requires i < |xs| && key(xs[i]) == key(x) && Put(xs, key, x) == xs[..i] + Put(xs[i..], key, x)
    ensures Put(xs, key, x) == xs[i := x]
  {
    PutNext(xs, key, x, i);
  }

  /** Overwrite the element with the same key where it stands, or push. */
  method Replace<T>(xs: seq<T>, key: T -> nat, x: T) returns (r: seq<T>)
    ensures r == Put(xs, key, x)
  {
    for i := 0 to |xs|
      invariant Put(xs, key, x) == xs[..i] + Put(xs[i..], key, x)
    {
      if key(xs[i]) == key(x) {
        PutLands(xs, key, x, i);
        return xs[i := x];
      }
      PutPasses(xs, key, x, i);
    }
    return xs + [x];
  }

  class ManagerObject {
    const rules: Rules
    var config: Config
    var tunnels: map<nat, Running>
    var status: map<nat, Status>
    var integrations: map<nat, Server>

    function View(): World
      reads this
    {
      World(config, tunnels, status, integrations)
    }

    constructor (rules: Rules, config: Config)
      ensures this.rules == rules && View() == Fresh(config)
    {
      this.rules, this.config := rules, config;
      tunnels, status, integrations := map[], map[], map[];
    }

    /** All or nothing: the profile changes only if storage took it. */
    method Save(wanted: Config, stored: bool) returns (saved: bool)
      modifies this`config
      ensures saved <==> stored && ValidConfig(rules, wanted)
      ensures config == if saved then wanted else old(config)
    {
      var refusal := Validate(rules, wanted);
      saved := stored && refusal.None?;
      if saved {
        config := wanted;
      }
    }

    /** Why a live tunnel stands in the way of this one, if any does. */
    method OverlapsActive(tunnel: Tunnel) returns (refusal: Option<Refusal>)
      ensures refusal == Obstacle(rules, View(), tunnel, config.tunnels)
    {
      for i := 0 to |config.tunnels|
        invariant Obstacle(rules, View(), tunnel, config.tunnels) == Obstacle(rules, View(), tunnel, config.tunnels[i..])
      {
        var other := config.tunnels[i];
        assert config.tunnels[i..][1..] == config.tunnels[i + 1..];
        if other.id != tunnel.id && other.id in tunnels {
          if Pairs(rules, other).Err? {
            return Some(Pairs(rules, other).error);
          }
          var taken := SharesPort(tunnel, other);
          if taken {
            return Some(ActiveOverlap);
          }
        }
      }
      return None;
    }

    method Connect(id: nat) returns (refusal: Option<Refusal>)
      modifies this`tunnels, this`status
      ensures Reply(View(), refusal) == ConnectTunnel(rules, old(View()), id)
    {
      if id in tunnels {
        return None;
      }
      var found := Lookup(config.tunnels, TunnelKey, id);
      if found.None? {
        return Some(Missing);
      }
      var tunnel := found.value;
      FindMeans(config.tunnels, TunnelKey, id);
      if Pairs(rules, tunnel).Err? {
        return Some(Pairs(rules, tunnel).error);
      }
      var server := Lookup(config.servers, ServerKey, tunnel.server);
      if server.None? {
        return Some(Missing);
      }
      var obstacle := OverlapsActive(tunnel);
      if obstacle.Some? {
        return obstacle;
      }
      status := status[id := Connecting];
      tunnels := tunnels[id := Running(server.value, tunnel)];
      return None;
    }

    /** Compare the two port lists entry by entry. */
    method SharesPort(a: Tunnel, b: Tunnel) returns (shares: bool)
      ensures shares <==> Clash(rules, a, b)
    {
      if Pairs(rules, a).Err? || Pairs(rules, b).Err? {
        return false;
      }
      var p, q := Pairs(rules, a).value, Pairs(rules, b).value;
      for i := 0 to |p|
        invariant forall k, j :: 0 <= k < i && 0 <= j < |q| ==> p[k].0 != q[j].0
      {
        for j := 0 to |q|
          invariant forall k :: 0 <= k < j ==> p[i].0 != q[k].0
        {
          if p[i].0 == q[j].0 {
            return true;
          }
        }
      }
      return false;
    }

    method Disconnect(id: nat)
      modifies this`tunnels, this`status
      ensures View() == DisconnectTunnel(old(View()), id)
    {
      tunnels := tunnels - {id};
      status := status[id := Disconnected];
    }

    method ActiveTunnels(server: nat) returns (ids: seq<nat>)
      ensures ids == ActiveOf(config.tunnels, tunnels, server)
    {
      ids := [];
      for i := 0 to |config.tunnels|
        invariant ActiveOf(config.tunnels, tunnels, server) == ids + ActiveOf(config.tunnels[i..], tunnels, server)
      {
        assert config.tunnels[i..][1..] == config.tunnels[i + 1..];
        if config.tunnels[i].server == server && config.tunnels[i].id in tunnels {
          ids := ids + [config.tunnels[i].id];
        }
      }
    }

    method Start(id: nat, identified: bool) returns (refusal: Option<Refusal>)
      modifies this`integrations
      ensures Reply(View(), refusal) == StartIntegration(old(View()), id, identified)
    {
      if id in integrations {
        return None;
      }
      var server := Lookup(config.servers, ServerKey, id);
      if server.None? {
        return Some(Missing);
      }
      if !server.value.clipboard && !server.value.browser {
        return None;
      }
      if !identified {
        return Some(NotIdentified);
      }
      integrations := integrations[id := server.value];
      return None;
    }

    method Stop(id: nat)
      modifies this`integrations
      ensures View() == StopIntegration(old(View()), id)
    {
      integrations := integrations - {id};
    }

    method SaveServerCommand(server: Server, newPassword: bool, stored: bool, identified: bool) returns (refusal: Option<Refusal>)
      modifies this
      ensures Reply(View(), refusal) == Next(rules, old(View()), SaveServer(server, newPassword, stored, identified))
    {
      if !rules.serverOk(server) {
        return Some(InvalidServer);
      }
      var found := Lookup(config.servers, ServerKey, server.id);
      var reconnect := newPassword || (found.Some? && !SameConnection(found.value, server));
      var servers := Replace(config.servers, ServerKey, WithConsent(found, server));
      var saved := Save(config.(servers := servers), stored);
      if !saved {
        return Some(NotStored);
      }
      if reconnect {
        refusal := RestartAll(server.id, identified);
      } else {
        refusal := None;
      }
    }

    method RestartAll(id: nat, identified: bool) returns (refusal: Option<Refusal>)
      modifies this
      ensures Reply(View(), refusal) == RestartServer(rules, old(View()), id, identified)
    {
      var active := ActiveTunnels(id);
      Stop(id);
      ghost var stopped := View();
      for i := 0 to |active|
        invariant ReconnectAll(rules, stopped, active) == ReconnectAll(rules, View(), active[i..])
      {
        assert active[i..][1..] == active[i + 1..];
        Disconnect(active[i]);
        refusal := Connect(active[i]);
        if refusal.Some? {
          return;
        }
      }
      refusal := Start(id, identified);
    }

    /** Stop the tasks of removed tunnels and drop their status. */
    method Forget(gone: seq<Tunnel>)
      modifies this`tunnels, this`status
      ensures tunnels == old(tunnels) - IdsOf(gone) && status == old(status) - IdsOf(gone)
    {
      for i := 0 to |gone|
        invariant tunnels == old(tunnels) - IdsOf(gone[..i])
        invariant status == old(status) - IdsOf(gone[..i])
      {
        Disconnect(gone[i].id);
        status := status - {gone[i].id};
        assert gone[..i + 1] == gone[..i] + [gone[i]];
        assert IdsOf(gone[..i + 1]) == IdsOf(gone[..i]) + {gone[i].id};
      }
      assert gone[..|gone|] == gone;
    }

    method DeleteServerCommand(id: nat, stored: bool) returns (refusal: Option<Refusal>)
      modifies this
      ensures Reply(View(), refusal) == Next(rules, old(View()), DeleteServer(id, stored))
    {
      var found := Lookup(config.servers, ServerKey, id);
      if found.None? {
        return Some(Missing);
      }
      ghost var before := config;
      var servers := Retain(config.servers, OtherServer(id));
      var kept := Retain(config.tunnels, OnOtherServer(id));
      var gone := Retain(config.tunnels, OnServer(id));
      var saved := Save(Config(servers, kept), stored);
      if !saved {
        return Some(NotStored);
      }
      IdsOnServer(before.tunnels, id);
      Forget(gone);
      Stop(id);
      return None;
    }

    method SaveTunnelCommand(tunnel: Tunnel, stored: bool) returns (refusal: Option<Refusal>)
      modifies this
      ensures Reply(View(), refusal) == Next(rules, old(View()), SaveTunnel(tunnel, stored))
    {
      if Pairs(rules, tunnel).Err? {
        return Some(Pairs(rules, tunnel).error);
      }
      var server := Lookup(config.servers, ServerKey, tunnel.server);
      if server.None? {
        return Some(Missing);
      }
      var inTheWay := ValidateUnique(rules, tunnel, config.tunnels);
      if inTheWay.Some? {
        return inTheWay;
      }
      var active := tunnel.id in status && Active(status[tunnel.id]);
      var changed := Replace(config.tunnels, TunnelKey, tunnel);
      var saved := Save(config.(tunnels := changed), stored);
      if !saved {
        return Some(NotStored);
      }
      if active {
        Disconnect(tunnel.id);
        refusal := Connect(tunnel.id);
      } else {
        refusal := None;
      }
    }

    method DeleteTunnelCommand(id: nat, stored: bool) returns (refusal: Option<Refusal>)
      modifies this
      ensures Reply(View(), refusal) == Next(rules, old(View()), DeleteTunnel(id, stored))
    {
      var kept := Retain(config.tunnels, OtherTunnel(id));
      var saved := Save(config.(tunnels := kept), stored);
      if !saved {
        return Some(NotStored);
      }
      SetThenDropped(status, id, Disconnected);
      Disconnect(id);
      status := status - {id};
      return None;
    }

    method SetConnectedCommand(id: nat, connected: bool) returns (refusal: Option<Refusal>)
      modifies this
      ensures Reply(View(), refusal) == Next(rules, old(View()), SetConnected(id, connected))
    {
      if connected {
        refusal := Connect(id);
      } else {
        Disconnect(id);
        refusal := None;
      }
    }

    method Remember(id: nat, browser: bool, enabled: bool, stored: bool) returns (refusal: Option<Refusal>)
      modifies this`config
      ensures var step := SetIntegration(id, browser, enabled, stored, true);
              var w := old(View());
              if AlreadySet(w, step) then config == old(config) && refusal.None?
              else if Saves(rules, w, step) then config == Wanted(rules, w, step).value && refusal.None?
              else config == old(config) && refusal == Some(SaveRefusal(rules, w, step))
    {
      var server := Lookup(config.servers, ServerKey, id);
      if server.None? {
        return Some(Missing);
      }
      if On(server.value, browser) == enabled {
        return None;
      }
      var servers := Replace(config.servers, ServerKey, Toggled(server.value, browser, enabled));
      var saved := Save(config.(servers := servers), stored);
      return if saved then None else Some(NotStored);
    }

    method SetIntegrationCommand(id: nat, browser: bool, enabled: bool, stored: bool, identified: bool)
      returns (refusal: Option<Refusal>)
      modifies this
      ensures Reply(View(), refusal) == Next(rules, old(View()), SetIntegration(id, browser, enabled, stored, identified))
    {
      var before := Lookup(config.servers, ServerKey, id);
      if before.None? {
        return Some(Missing);
      }
      refusal := Remember(id, browser, enabled, stored);
      if refusal.Some? {
        return;
      }
      FindMeans(old(config).servers, ServerKey, id);
      PutFinds(old(config).servers, ServerKey, Toggled(before.value, browser, enabled), id);
      var after := Lookup(config.servers, ServerKey, id);
      if before.value.clipboard != after.value.clipboard || before.value.browser != after.value.browser {
        Stop(id);
      }
      if after.value.clipboard || after.value.browser {
        refusal := Start(id, identified);
      } else {
        Stop(id);
      }
    }
  }

  lemma SetThenDropped<V>(m: map<nat, V>, id: nat, v: V)
    ensures m[id := v] - {id} == m - {id}
  {
  }

  lemma IdsOnServer(tunnels: seq<Tunnel>, id: nat)
    ensures IdsOf(Keep(tunnels, OnServer(id))) == TunnelsOf(tunnels, id)
  {
    KeepMeans(tunnels, TunnelKey, OnServer(id));
  }

  function IdsOf(tunnels: seq<Tunnel>): set<nat> {
    set t | t in tunnels :: t.id
  }
}
