/** Which connection the requests of a Git session use: dialled once, shared, and let go exactly when it failed. */
module GitSessionConnections {
  import opened Common
  import opened GitSessions
  import opened GitSessionProofs
  import opened GitSessionResults

  /** The attempt that a request in or before its native call belongs to. */
  predicate Uses(s: Session, i: nat, c: nat) {
    && i < |s.requests|
    && (s.requests[i].phase == Registering(Some(c)) || s.requests[i].phase == Native(Some(c)))
  }

  /** The step reports that the connection its request used has failed. */
  predicate ReportsFailure(s: Session, step: Step, c: nat) {
    match step
    case Return(i, reply) =>
      && Uses(s, i, c) && !AbortedAt(s, i)
      && (match reply
          case Success => s.closed && s.requests[i].mutation
          case Failure(code) => code.Some? && Fatal(code.value))
    case RegisterFails(i, code) => Uses(s, i, c) && !AbortedAt(s, i) && code.Some? && Fatal(code.value)
    case _ => false
  }

  /** The step lets go of connection `c`, the current one. */
  predicate Drops(s: Session, step: Step, c: nat) {
    step.Forget? || step == ConnectionSettles(c, false) || ReportsFailure(s, step, c)
  }

  predicate Dials(s: Session, step: Step) {
    step.Connect? && !s.closed && s.connection.None?
  }

  /** The connection after a step: kept unless dropped, and dialled anew only when there is none. */
  ghost predicate ConnectionFollows(s: Session, step: Step, t: Session) {
    && t.connection == (match s.connection
         case Some(c) => if Drops(s, step, c) then None else Some(c)
         case None => if Dials(s, step) then Some(|s.connections|) else None)
    && |t.connections| == |s.connections| + if Dials(s, step) then 1 else 0
  }

  lemma EarlyConnections(s: Session, i: nat, supported: bool)
    ensures Enabled(s, Begin(i)) ==> ConnectionFollows(s, Begin(i), AfterBegin(s, i))
    ensures Enabled(s, Connect(i)) ==> ConnectionFollows(s, Connect(i), AfterConnect(s, i))
    ensures Enabled(s, Attach(i, supported)) ==> ConnectionFollows(s, Attach(i, supported), AfterAttach(s, i, supported))
    ensures Enabled(s, Dispatch(i)) ==> ConnectionFollows(s, Dispatch(i), AfterDispatch(s, i))
  {
  }

  lemma RegisterFailsConnection(s: Session, i: nat, code: Option<Code>)
    requires Enabled(s, RegisterFails(i, code))
    ensures ConnectionFollows(s, RegisterFails(i, code), AfterRegisterFails(s, i, code))
  {
  }

  lemma ReturnConnection(s: Session, i: nat, reply: Reply)
    requires Enabled(s, Return(i, reply))
    ensures ConnectionFollows(s, Return(i, reply), AfterReturn(s, i, reply))
  {
  }

  lemma AsideConnection(s: Session, step: Step)
    requires Enabled(s, step) && !MovesRequest(step)
    ensures ConnectionFollows(s, step, Next(s, step))
  {
  }

  /** Every step treats the connection so, whatever else it does. */
  lemma StepConnection(s: Session, step: Step)
    requires Enabled(s, step)
    ensures ConnectionFollows(s, step, Next(s, step))
  {
    match step {
      case Begin(i) => EarlyConnections(s, i, true);
      case Connect(i) => EarlyConnections(s, i, true);
      case Attach(i, supported) => EarlyConnections(s, i, supported);
      case Dispatch(i) => EarlyConnections(s, i, true);
      case RegisterFails(i, code) => RegisterFailsConnection(s, i, code);
      case Return(i, reply) => ReturnConnection(s, i, reply);
      case _ => AsideConnection(s, step);
    }
  }

  /** No step of the run drops connection `c`. */
  ghost predicate NeverDrops(s: Session, steps: seq<Step>, c: nat)
    requires ValidRun(s, steps)
    decreases |steps|
  {
    steps == [] || (!Drops(s, steps[0], c) && NeverDrops(Next(s, steps[0]), steps[1..], c))
  }

  /** One connection is shared by all requests: while it is not dropped, it stays and no other is dialled. */
  lemma {:induction false} ConnectionIsShared(s: Session, steps: seq<Step>, c: nat)
    requires s.connection == Some(c) && ValidRun(s, steps) && NeverDrops(s, steps, c)
    ensures After(s, steps).connection == Some(c) && |After(s, steps).connections| == |s.connections|
    decreases |steps|
  {
    if steps != [] {
      StepConnection(s, steps[0]);
      ConnectionIsShared(Next(s, steps[0]), steps[1..], c);
    }
  }

  lemma {:induction false} GoneForGood(s: Session, steps: seq<Step>, c: nat)
    requires ValidRun(s, steps) && c < |s.connections| && s.connection != Some(c)
    ensures After(s, steps).connection != Some(c)
    decreases |steps|
  {
    if steps != [] {
      StepConnection(s, steps[0]);
      GoneForGood(Next(s, steps[0]), steps[1..], c);
    }
  }

  /** A dropped connection never comes back: later requests dial a new one. */
  lemma DroppedForGood(before: seq<Step>, step: Step, later: seq<Step>, c: nat)
    requires ValidRun(Fresh, before) && Enabled(After(Fresh, before), step)
    requires ValidRun(Next(After(Fresh, before), step), later)
    requires After(Fresh, before).connection == Some(c) && Drops(After(Fresh, before), step, c)
    ensures After(Next(After(Fresh, before), step), later).connection != Some(c)
  {
    FreshInv();
    RunKeepsInv(Fresh, before);
    StepConnection(After(Fresh, before), step);
    GoneForGood(Next(After(Fresh, before), step), later, c);
  }

  /** A request that gets past its connection belongs to the connection current then. */
  lemma AttachUsesCurrent(s: Session, i: nat, supported: bool, c: nat)
    requires Enabled(s, Attach(i, supported))
    ensures var t := Next(s, Attach(i, supported));
            && (Uses(t, i, c) ==> s.connection == Some(c))
            && (!t.requests[i].phase.Settled? && s.connection == Some(c) ==> Uses(t, i, c))
  {
  }

  lemma UseShape(s: Session, step: Step, t: Session, i: nat, c: nat)
    requires Shape(s, step, t) && Uses(s, i, c) && !(MovesRequest(step) && step.id == i)
    ensures Uses(t, i, c)
  {
    assert step.Enqueue? && |t.requests| > |s.requests| ==> t.requests[..|s.requests|][i] == t.requests[i];
  }

  lemma UseStep(s: Session, step: Step, i: nat, c: nat)
    requires Enabled(s, step) && Uses(s, i, c)
    ensures Uses(Next(s, step), i, c) || SettledAt(Next(s, step).requests, i)
  {
    if MovesRequest(step) && step.id == i {
      OwnStepKeepsUse(s, step, c);
    } else {
      StepShape(s, step);
      UseShape(s, step, Next(s, step), i, c);
    }
  }

  lemma OwnStepKeepsUse(s: Session, step: Step, c: nat)
    requires Enabled(s, step) && MovesRequest(step) && Uses(s, step.id, c)
    ensures Uses(Next(s, step), step.id, c) || SettledAt(Next(s, step).requests, step.id)
  {
  }

  /** From then on until it settles it belongs to that connection, whatever others do meanwhile. */
  lemma {:induction false} UseLasts(s: Session, steps: seq<Step>, i: nat, c: nat)
    requires ValidRun(s, steps) && Uses(s, i, c)
    ensures Uses(After(s, steps), i, c) || SettledAt(After(s, steps).requests, i)
    decreases |steps|
  {
    if steps != [] {
      var t := Next(s, steps[0]);
      UseStep(s, steps[0], i, c);
      if SettledAt(t.requests, i) {
        SettledForGood(t, steps[1..], i);
      } else {
        UseLasts(t, steps[1..], i, c);
      }
    }
  }

  /**
   * A fatal failure lets go of the connection its request was attached to, and
   * only if that is still the current one: afterwards it is gone and a disconnect runs.
   */
  lemma FatalFailureLetsGo(s: Session, i: nat, supported: bool, middle: seq<Step>, code: Code, c: nat)
    requires Enabled(s, Attach(i, supported)) && s.connection == Some(c)
    requires ValidRun(Next(s, Attach(i, supported)), middle)
    requires var u := After(Next(s, Attach(i, supported)), middle);
             Enabled(u, Return(i, Failure(Some(code)))) && !AbortedAt(u, i)
    ensures var u := After(Next(s, Attach(i, supported)), middle);
            var t := Next(u, Return(i, Failure(Some(code))));
            && (u.connection == Some(c) && Fatal(code) ==> t.connection.None? && t.resetting.Some?)
            && (u.connection != Some(c) || !Fatal(code) ==> t.connection == u.connection && t.resetting == u.resetting)
  {
    var t0 := Next(s, Attach(i, supported));
    var u := After(t0, middle);
    AttachUsesCurrent(s, i, supported, c);
    if SettledAt(t0.requests, i) {
      SettledForGood(t0, middle, i);
    } else {
      UseLasts(t0, middle, i, c);
    }
    FailureLetsGo(u, i, code, c);
  }

  lemma FailureLetsGo(u: Session, i: nat, code: Code, c: nat)
    requires Enabled(u, Return(i, Failure(Some(code)))) && !AbortedAt(u, i) && Uses(u, i, c)
    ensures var t := Next(u, Return(i, Failure(Some(code))));
            && (u.connection == Some(c) && Fatal(code) ==> t.connection.None? && t.resetting.Some?)
            && (u.connection != Some(c) || !Fatal(code) ==> t.connection == u.connection && t.resetting == u.resetting)
  {
  }
}
