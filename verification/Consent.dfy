/** When an integration is switched on, told from the commands given since the profile was empty. */
module Consent {
  import opened Common
  import opened History
  import opened Keyed
  import opened Profiles
  import opened Manager
  import opened ManagerProofs

  predicate IsOn(w: World, id: nat, browser: bool) {
    match Find(w.config.servers, ServerKey, id)
    case None => false
    case Some(s) => On(s, browser)
  }

  function DestinationOf(w: World, id: nat): Option<Destination> {
    match Find(w.config.servers, ServerKey, id)
    case None => None
    case Some(s) => Some(s.destination)
  }

  /** The user switches the integration on for this server, and the switch is stored. */
  ghost predicate Grants(rules: Rules, w: World, step: Step, id: nat, browser: bool) {
    && step.SetIntegration? && step.id == id && step.browser == browser && step.enabled
    && (AlreadySet(w, step) || Saves(rules, w, step))
  }

  /** A stored switch-off, removal, or edit that moves the server to another host, port or user. */
  ghost predicate Revokes(rules: Rules, w: World, step: Step, id: nat, browser: bool) {
    && Saves(rules, w, step)
    && match step
       case SetIntegration(i, b, enabled, _, _) => i == id && b == browser && !enabled
       case DeleteServer(i, _) => i == id
       case SaveServer(server, _, _, _) => server.id == id && DestinationOf(w, id) != Some(server.destination)
       case _ => false
  }

  // ---- One step ----

  lemma DeletedServer(servers: seq<Server>, gone: nat, id: nat)
    requires Unique(servers, ServerKey)
    ensures Find(Keep(servers, OtherServer(gone)), ServerKey, id)
         == if id == gone then None else Find(servers, ServerKey, id)
  {
    var keep := OtherServer(gone);
    FindMeans(servers, ServerKey, id);
    FindMeans(Keep(servers, keep), ServerKey, id);
    KeepMeans(servers, ServerKey, keep);
    if id != gone && Find(servers, ServerKey, id).Some? {
      StillFound(servers, keep, id);
    }
  }

  lemma SavedConsent(rules: Rules, w: World, step: Step, id: nat, browser: bool)
    requires Unique(w.config.servers, ServerKey) && Saves(rules, w, step) && !AlreadySet(w, step)
    ensures var u := w.(config := Wanted(rules, w, step).value);
            && (IsOn(u, id, browser) <==> Grants(rules, w, step, id, browser) || (IsOn(w, id, browser) && !Revokes(rules, w, step, id, browser)))
            && (IsOn(u, id, browser) ==> DestinationOf(u, id) == DestinationOf(w, id))
  {
    match step
    case SaveServer(server, _, _, _) =>
      PutFinds(w.config.servers, ServerKey, WithConsent(Find(w.config.servers, ServerKey, server.id), server), id);
    case DeleteServer(gone, _) => DeletedServer(w.config.servers, gone, id);
    case SetIntegration(i, b, enabled, _, _) =>
      FindMeans(w.config.servers, ServerKey, i);
      PutFinds(w.config.servers, ServerKey, Toggled(Find(w.config.servers, ServerKey, i).value, b, enabled), id);
    case _ =>
  }

  /** After a step an integration is on if the step granted it, or it was on and the step did not revoke it. */
  lemma StepConsent(rules: Rules, w: World, step: Step, id: nat, browser: bool)
    requires Unique(w.config.servers, ServerKey)
    ensures var u := Next(rules, w, step).world;
            && Unique(u.config.servers, ServerKey)
            && (IsOn(u, id, browser) <==> Grants(rules, w, step, id, browser) || (IsOn(w, id, browser) && !Revokes(rules, w, step, id, browser)))
            && (IsOn(u, id, browser) ==> DestinationOf(u, id) == DestinationOf(w, id))
  {
    StepStores(rules, w, step);
    if Saves(rules, w, step) && !AlreadySet(w, step) {
      SavedConsent(rules, w, step, id, browser);
    }
  }

  // ---- Whole runs ----

  ghost function Advance(rules: Rules): (World, Step) -> World {
    (w: World, s: Step) => Next(rules, w, s).world
  }

  /** The switch of one integration, with the destination of its server as the value. */
  ghost function IntegrationSwitch(rules: Rules, id: nat, browser: bool): Switch<World, Step, Option<Destination>> {
    Switch(
      Advance(rules),
      (w: World) => Unique(w.config.servers, ServerKey),
      (w: World) => IsOn(w, id, browser),
      (w: World, s: Step) => Grants(rules, w, s, id, browser),
      (w: World, s: Step) => Revokes(rules, w, s, id, browser),
      (w: World) => DestinationOf(w, id))
  }

  lemma SwitchIsLawful(rules: Rules, id: nat, browser: bool)
    ensures IntegrationSwitch(rules, id, browser).Lawful()
  {
    forall w: World, s: Step | Unique(w.config.servers, ServerKey)
      ensures var u := Next(rules, w, s).world;
              && Unique(u.config.servers, ServerKey)
              && (IsOn(u, id, browser) <==> Grants(rules, w, s, id, browser) || (IsOn(w, id, browser) && !Revokes(rules, w, s, id, browser)))
              && (IsOn(u, id, browser) ==> DestinationOf(u, id) == DestinationOf(w, id))
    {
      StepConsent(rules, w, s, id, browser);
    }
  }

  /** The state before step `k`. */
  ghost function At(rules: Rules, w: World, steps: seq<Step>, k: nat): World
    requires k <= |steps|
  {
    Trace(Advance(rules), w, steps, k)
  }

  lemma {:induction false} AtIsAfter(rules: Rules, w: World, steps: seq<Step>)
    requires ValidRun(rules, w, steps)
    ensures At(rules, w, steps, |steps|) == After(rules, w, steps)
    decreases |steps|
  {
    if steps != [] {
      assert Advance(rules)(w, steps[0]) == Next(rules, w, steps[0]).world;
      TraceLater(Advance(rules), w, steps, |steps|);
      AtIsAfter(rules, Next(rules, w, steps[0]).world, steps[1..]);
    }
  }

  /** Step `k` switched the integration on, and nothing later in the run took it back. */
  ghost predicate ConsentSince(rules: Rules, steps: seq<Step>, k: nat, id: nat, browser: bool) {
    && k < |steps| && Grants(rules, At(rules, Fresh(Empty), steps, k), steps[k], id, browser)
    && forall j :: k < j < |steps| ==> !Revokes(rules, At(rules, Fresh(Empty), steps, j), steps[j], id, browser)
  }

  lemma ConsentSinceMeans(rules: Rules, steps: seq<Step>, k: nat, id: nat, browser: bool)
    ensures ConsentSince(rules, steps, k, id, browser) <==>
              IntegrationSwitch(rules, id, browser).Since(Fresh(Empty), steps, k, |steps|)
  {
  }

  /** At the end of the run the integration is on exactly after a consent that stands. */
  lemma OnAtTheEnd(rules: Rules, steps: seq<Step>, id: nat, browser: bool)
    requires ValidRun(rules, Fresh(Empty), steps)
    ensures IsOn(After(rules, Fresh(Empty), steps), id, browser) <==> exists k :: ConsentSince(rules, steps, k, id, browser)
  {
    var switch := IntegrationSwitch(rules, id, browser);
    SwitchIsLawful(rules, id, browser);
    AtIsAfter(rules, Fresh(Empty), steps);
    switch.LastWord(Fresh(Empty), steps, |steps|);
    forall k: nat ensures ConsentSince(rules, steps, k, id, browser) <==> switch.Since(Fresh(Empty), steps, k, |steps|) {
      ConsentSinceMeans(rules, steps, k, id, browser);
    }
  }

  lemma DestinationSince(rules: Rules, steps: seq<Step>, k: nat, id: nat, browser: bool)
    requires ValidRun(rules, Fresh(Empty), steps) && ConsentSince(rules, steps, k, id, browser)
    ensures DestinationOf(After(rules, Fresh(Empty), steps), id) == DestinationOf(At(rules, Fresh(Empty), steps, k), id)
  {
    SwitchIsLawful(rules, id, browser);
    AtIsAfter(rules, Fresh(Empty), steps);
    ConsentSinceMeans(rules, steps, k, id, browser);
    IntegrationSwitch(rules, id, browser).SameSince(Fresh(Empty), steps, k, |steps|);
  }

  /**
   * Consent over a whole run from an empty profile: an integration is on exactly
   * when some step switched it on and none since switched it off, removed the
   * server or moved it, so it was given for the host, port and user the server has now.
   */
  lemma ConsentIsExact(rules: Rules, steps: seq<Step>, id: nat, browser: bool)
    requires ValidRun(rules, Fresh(Empty), steps)
    ensures IsOn(After(rules, Fresh(Empty), steps), id, browser) <==> exists k :: ConsentSince(rules, steps, k, id, browser)
    ensures forall k :: ConsentSince(rules, steps, k, id, browser) ==>
              DestinationOf(After(rules, Fresh(Empty), steps), id) == DestinationOf(At(rules, Fresh(Empty), steps, k), id)
  {
    OnAtTheEnd(rules, steps, id, browser);
    forall k: nat | ConsentSince(rules, steps, k, id, browser)
      ensures DestinationOf(After(rules, Fresh(Empty), steps), id) == DestinationOf(At(rules, Fresh(Empty), steps, k), id)
    {
      DestinationSince(rules, steps, k, id, browser);
    }
  }

  /** An integration that is running was consented to, for the destination it was started with. */
  lemma IntegrationsRunWithConsent(rules: Rules, steps: seq<Step>, id: nat)
    requires ValidRun(rules, Fresh(Empty), steps) && id in After(rules, Fresh(Empty), steps).integrations
    ensures var running := After(rules, Fresh(Empty), steps).integrations[id];
            exists browser, k :: On(running, browser) && ConsentSince(rules, steps, k, id, browser)
              && DestinationOf(At(rules, Fresh(Empty), steps, k), id) == Some(running.destination)
  {
    var w := After(rules, Fresh(Empty), steps);
    RunKeepsInv(rules, Fresh(Empty), steps);
    assert Consented(w.config.servers, id, w.integrations[id]);
    var browser := w.integrations[id].browser;
    ConsentIsExact(rules, steps, id, browser);
    assert IsOn(w, id, browser);
    var k: nat :| ConsentSince(rules, steps, k, id, browser);
    assert On(w.integrations[id], browser);
  }
}
