/** What callers of a Git session are told, when requests may start, and which connection they use, told from the steps of a run. */
module GitSessionResults {
  import opened Common
  import opened GitSessions
  import opened GitSessionProofs

  // ---- What a step does to the requests ----

  /** Request `i`, not settled before, is in another phase; nothing else changes in the queue. */
  predicate Rephased(s: Session, t: Session, i: nat) {
    && i < |s.requests| && !s.requests[i].phase.Settled? && |t.requests| == |s.requests|
    && t.requests == s.requests[i := s.requests[i].(phase := t.requests[i].phase)]
    && t.closed == s.closed
  }

  predicate Shape(s: Session, step: Step, t: Session) {
    if MovesRequest(step) then Rephased(s, t, step.id)
    else match step
      case Enqueue(mutation, cancellable) =>
        && t.closed == s.closed
        && if mutation && cancellable then t.requests == s.requests
           else
             && |t.requests| == |s.requests| + 1 && t.requests[..|s.requests|] == s.requests
             && var r := t.requests[|s.requests|];
                r.mutation == mutation && r.cancellable == cancellable && !r.aborted && r.phase == Waiting
      case Abort(i) => i < |s.requests| && t.requests == s.requests[i := s.requests[i].(aborted := true)] && t.closed == s.closed
      case Dispose => t.requests == s.requests && t.closed
      case _ => t.requests == s.requests && t.closed == s.closed
  }

  lemma EarlyShape(s: Session, i: nat, supported: bool)
    ensures Enabled(s, Begin(i)) ==> Rephased(s, AfterBegin(s, i), i)
    ensures Enabled(s, Connect(i)) ==> Rephased(s, AfterConnect(s, i), i)
    ensures Enabled(s, Attach(i, supported)) ==> Rephased(s, AfterAttach(s, i, supported), i)
  {
  }

  lemma LateShape(s: Session, i: nat, code: Option<Code>)
    ensures Enabled(s, Dispatch(i)) ==> Rephased(s, AfterDispatch(s, i), i)
    ensures Enabled(s, RegisterFails(i, code)) ==> Rephased(s, AfterRegisterFails(s, i, code), i)
  {
  }

  lemma ReturnShape(s: Session, i: nat, reply: Reply)
    requires Enabled(s, Return(i, reply))
    ensures Rephased(s, AfterReturn(s, i, reply), i)
  {
  }

  lemma StepShape(s: Session, step: Step)
    requires Enabled(s, step)
    ensures Shape(s, step, Next(s, step))
  {
    match step {
      case Begin(i) => EarlyShape(s, i, true);
      case Connect(i) => EarlyShape(s, i, true);
      case Attach(i, supported) => EarlyShape(s, i, supported);
      case Dispatch(i) => LateShape(s, i, None);
      case RegisterFails(i, code) => LateShape(s, i, code);
      case Return(i, reply) => ReturnShape(s, i, reply);
      case Enqueue(mutation, cancellable) => EnqueueShape(s, mutation, cancellable);
      case _ =>
    }
  }

  lemma EnqueueShape(s: Session, mutation: bool, cancellable: bool)
    ensures Shape(s, Enqueue(mutation, cancellable), AfterEnqueue(s, mutation, cancellable))
  {
  }

  // ---- Flags and kinds come from the steps ----

  predicate AbortedAt(s: Session, i: nat) {
    i < |s.requests| && s.requests[i].aborted
  }

  lemma FlagShape(s: Session, step: Step, t: Session, i: nat)
    requires Shape(s, step, t)
    ensures t.closed <==> s.closed || step == Step.Dispose
    ensures AbortedAt(t, i) <==> AbortedAt(s, i) || step == Abort(i)
  {
    if step.Enqueue? && i < |s.requests| && |t.requests| > |s.requests| {
      assert t.requests[..|s.requests|][i] == t.requests[i];
    }
  }

  lemma FlagStep(s: Session, step: Step, i: nat)
    requires Enabled(s, step)
    ensures Next(s, step).closed <==> s.closed || step == Step.Dispose
    ensures AbortedAt(Next(s, step), i) <==> AbortedAt(s, i) || step == Abort(i)
  {
    StepShape(s, step);
    FlagShape(s, step, Next(s, step), i);
  }

  lemma {:induction false} FlagsFromSteps(s: Session, steps: seq<Step>, i: nat)
    requires ValidRun(s, steps)
    ensures After(s, steps).closed <==> s.closed || Step.Dispose in steps
    ensures AbortedAt(After(s, steps), i) <==> AbortedAt(s, i) || Abort(i) in steps
    decreases |steps|
  {
    if steps != [] {
      FlagStep(s, steps[0], i);
      FlagsFromSteps(Next(s, steps[0]), steps[1..], i);
      assert forall step :: step in steps <==> step == steps[0] || step in steps[1..];
    }
  }

  /** The requests taken on, in order: whether each writes and whether it can be cancelled. */
  function TakenOn(steps: seq<Step>): seq<(bool, bool)> {
    if steps == [] then []
    else
      (if steps[0].Enqueue? && !(steps[0].mutation && steps[0].cancellable)
       then [(steps[0].mutation, steps[0].cancellable)] else [])
      + TakenOn(steps[1..])
  }

  function Kinds(requests: seq<Request>): (r: seq<(bool, bool)>)
    ensures |r| == |requests|
  {
    seq(|requests|, i requires 0 <= i < |requests| => (requests[i].mutation, requests[i].cancellable))
  }

  lemma KindShape(s: Session, step: Step, t: Session)
    requires Shape(s, step, t)
    ensures Kinds(t.requests) == Kinds(s.requests) + TakenOn([step])
  {
    assert [step][1..] == [];
    if step.Enqueue? && |t.requests| > |s.requests| {
      assert forall i :: 0 <= i < |s.requests| ==> t.requests[..|s.requests|][i] == t.requests[i];
    }
  }

  lemma KindStep(s: Session, step: Step)
    requires Enabled(s, step)
    ensures Kinds(Next(s, step).requests) == Kinds(s.requests) + TakenOn([step])
  {
    StepShape(s, step);
    KindShape(s, step, Next(s, step));
  }

  lemma TakenOnFirst(steps: seq<Step>)
    requires steps != []
    ensures TakenOn(steps) == TakenOn([steps[0]]) + TakenOn(steps[1..])
  {
    assert [steps[0]][1..] == [];
  }

  lemma Regroup(a: seq<(bool, bool)>, b: seq<(bool, bool)>, c: seq<(bool, bool)>)
    ensures (a + b) + c == a + (b + c)
  {
  }

  /** A request is known by its place among the requests taken on; only cancellable writes are turned away. */
  lemma {:induction false} KindsFromSteps(s: Session, steps: seq<Step>)
    requires ValidRun(s, steps)
    ensures Kinds(After(s, steps).requests) == Kinds(s.requests) + TakenOn(steps)
    decreases |steps|
  {
    if steps != [] {
      KindStep(s, steps[0]);
      KindsFromSteps(Next(s, steps[0]), steps[1..]);
      TakenOnFirst(steps);
      Regroup(Kinds(s.requests), TakenOn([steps[0]]), TakenOn(steps[1..]));
    }
  }

  // ---- What a settled promise says ----

  lemma SettledShape(s: Session, step: Step, t: Session, i: nat)
    requires Shape(s, step, t) && SettledAt(s.requests, i)
    ensures SettledAt(t.requests, i) && t.requests[i].phase == s.requests[i].phase
  {
    if step.Enqueue? && |t.requests| > |s.requests| {
      assert t.requests[..|s.requests|][i] == t.requests[i];
    }
  }

  lemma SettledStep(s: Session, step: Step, i: nat)
    requires Enabled(s, step) && SettledAt(s.requests, i)
    ensures SettledAt(Next(s, step).requests, i) && Next(s, step).requests[i].phase == s.requests[i].phase
  {
    StepShape(s, step);
    SettledShape(s, step, Next(s, step), i);
  }

  /** A promise settles once. */
  lemma {:induction false} SettledForGood(s: Session, steps: seq<Step>, i: nat)
    requires ValidRun(s, steps) && SettledAt(s.requests, i)
    ensures SettledAt(After(s, steps).requests, i) && After(s, steps).requests[i].phase == s.requests[i].phase
    decreases |steps|
  {
    if steps != [] {
      SettledStep(s, steps[0], i);
      SettledForGood(Next(s, steps[0]), steps[1..], i);
    }
  }

  /** The codes after which the connection cannot be used. */
  predicate Fatal(code: Code) {
    code in {TransportError, ProtocolError, Cancelled, StaleConnection, SessionNotFound, OutcomeUnknown}
  }

  /** What a request must be told when its native call comes back. */
  function Told(mutation: bool, aborted: bool, disposed: bool, reply: Reply): Outcome {
    if aborted then Aborted
    else match reply
      case Success => if !disposed then Value else if mutation then Operation(OutcomeUnknown) else Closed
      case Failure(code) =>
        if !mutation then ReadFailed(code)
        else if code.None? || Fatal(code.value) then Operation(OutcomeUnknown)
        else Operation(code.value)
  }

  lemma ReturnTells(s: Session, i: nat, reply: Reply)
    requires Enabled(s, Return(i, reply))
    ensures SettledAt(Next(s, Return(i, reply)).requests, i)
    ensures Next(s, Return(i, reply)).requests[i].phase.outcome == Told(s.requests[i].mutation, s.requests[i].aborted, s.closed, reply)
  {
  }

  /**
   * What the native call reported is what the caller is told, for good. Unless it
   * was aborted, a request settles as a value exactly if its call succeeded while
   * the session was not disposed of; a failed read settles with the reported code,
   * a failed write with that code, or as unknown outcome if the code is fatal or missing.
   */
  lemma ReplyIsTold(before: seq<Step>, i: nat, reply: Reply, later: seq<Step>)
    requires ValidRun(Fresh, before) && Enabled(After(Fresh, before), Return(i, reply))
    requires ValidRun(Next(After(Fresh, before), Return(i, reply)), later)
    ensures i < |TakenOn(before)|
    ensures var end := After(Next(After(Fresh, before), Return(i, reply)), later);
            && SettledAt(end.requests, i)
            && end.requests[i].phase.outcome == Told(TakenOn(before)[i].0, Abort(i) in before, Step.Dispose in before, reply)
  {
    var s := After(Fresh, before);
    FlagsFromSteps(Fresh, before, i);
    KindsFromSteps(Fresh, before);
    assert Kinds(Fresh.requests) == [];
    assert Kinds(s.requests)[i] == TakenOn(before)[i];
    ReturnTells(s, i, reply);
    SettledForGood(Next(s, Return(i, reply)), later, i);
  }

  /** Some dial of the run was refused. */
  predicate DialRefused(steps: seq<Step>) {
    exists k :: 0 <= k < |steps| && steps[k].ConnectionSettles? && !steps[k].ok
  }

  predicate HasRefused(s: Session) {
    exists c :: 0 <= c < |s.connections| && s.connections[c].Refused?
  }

  /** What must have happened, in state `s` or in the steps after it, for request `i` to settle this way. */
  ghost predicate Explained(s: Session, steps: seq<Step>, i: nat, o: Outcome) {
    match o
    case Value => Return(i, Success) in steps
    case Aborted => AbortedAt(s, i) || Abort(i) in steps
    case Closed => s.closed || Step.Dispose in steps
    case Unavailable => Attach(i, false) in steps || HasRefused(s) || DialRefused(steps)
    case ReadFailed(code) => Return(i, Failure(code)) in steps || RegisterFails(i, code) in steps
    case Operation(_) => exists reply :: Return(i, reply) in steps
  }

  lemma OthersDoNotSettle(s: Session, step: Step, t: Session, i: nat)
    requires Shape(s, step, t) && !(MovesRequest(step) && step.id == i) && SettledAt(t.requests, i)
    ensures SettledAt(s.requests, i)
  {
    assert step.Enqueue? && |t.requests| > |s.requests| && i < |s.requests| ==> t.requests[..|s.requests|][i] == t.requests[i];
  }

  /** Only a step of its own settles a request. */
  lemma SettlesByItself(s: Session, step: Step, t: Session, i: nat)
    requires Shape(s, step, t) && !SettledAt(s.requests, i) && SettledAt(t.requests, i)
    ensures MovesRequest(step) && step.id == i
  {
    if !(MovesRequest(step) && step.id == i) {
      OthersDoNotSettle(s, step, t, i);
    }
  }

  lemma EarlyExplained(s: Session, i: nat, supported: bool)
    ensures Enabled(s, Begin(i)) && AfterBegin(s, i).requests[i].phase.Settled? ==>
              Explained(s, [Begin(i)], i, AfterBegin(s, i).requests[i].phase.outcome)
    ensures Enabled(s, Connect(i)) && AfterConnect(s, i).requests[i].phase.Settled? ==>
              Explained(s, [Connect(i)], i, AfterConnect(s, i).requests[i].phase.outcome)
    ensures Enabled(s, Attach(i, supported)) && AfterAttach(s, i, supported).requests[i].phase.Settled? ==>
              Explained(s, [Attach(i, supported)], i, AfterAttach(s, i, supported).requests[i].phase.outcome)
  {
    if Enabled(s, Attach(i, supported)) {
      assert s.connections[s.requests[i].phase.dial].Refused? ==> HasRefused(s);
    }
  }

  lemma LateExplained(s: Session, i: nat, code: Option<Code>)
    ensures Enabled(s, Dispatch(i)) && AfterDispatch(s, i).requests[i].phase.Settled? ==>
              Explained(s, [Dispatch(i)], i, AfterDispatch(s, i).requests[i].phase.outcome)
    ensures Enabled(s, RegisterFails(i, code)) && AfterRegisterFails(s, i, code).requests[i].phase.Settled? ==>
              Explained(s, [RegisterFails(i, code)], i, AfterRegisterFails(s, i, code).requests[i].phase.outcome)
  {
  }

  lemma ReturnExplained(s: Session, i: nat, reply: Reply)
    requires Enabled(s, Return(i, reply))
    ensures Explained(s, [Return(i, reply)], i, Next(s, Return(i, reply)).requests[i].phase.outcome)
  {
    ReturnTells(s, i, reply);
    assert Return(i, reply) in [Return(i, reply)];
  }

  lemma StepExplains(s: Session, step: Step, i: nat)
    requires Enabled(s, step) && !SettledAt(s.requests, i) && SettledAt(Next(s, step).requests, i)
    ensures Explained(s, [step], i, Next(s, step).requests[i].phase.outcome)
  {
    StepShape(s, step);
    SettlesByItself(s, step, Next(s, step), i);
    if step.Begin? || step.Connect? {
      EarlyExplained(s, i, true);
    } else if step.Attach? {
      EarlyExplained(s, i, step.supported);
    } else if step.RegisterFails? {
      LateExplained(s, i, step.code);
    } else if step.Dispatch? {
      LateExplained(s, i, None);
    } else {
      ReturnExplained(s, i, step.reply);
    }
  }

  lemma RefusedStep(s: Session, step: Step)
    requires Enabled(s, step) && HasRefused(Next(s, step))
    ensures HasRefused(s) || DialRefused([step])
  {
    var t := Next(s, step);
    var c :| 0 <= c < |t.connections| && t.connections[c].Refused?;
    if step.ConnectionSettles? && !step.ok {
      assert [step][0] == step;
    } else {
      assert s.connections[c].Refused?;
    }
  }

  lemma ExplainedEarlier(s: Session, steps: seq<Step>, i: nat, o: Outcome)
    requires steps != [] && Enabled(s, steps[0]) && Explained(Next(s, steps[0]), steps[1..], i, o)
    ensures Explained(s, steps, i, o)
  {
    FlagStep(s, steps[0], i);
    assert forall step :: step in steps <==> step == steps[0] || step in steps[1..];
    if o.Unavailable? {
      if HasRefused(Next(s, steps[0])) {
        RefusedStep(s, steps[0]);
        if DialRefused([steps[0]]) {
          assert steps[0].ConnectionSettles? && !steps[0].ok;
        }
      } else if DialRefused(steps[1..]) {
        var k :| 0 <= k < |steps[1..]| && steps[1..][k].ConnectionSettles? && !steps[1..][k].ok;
        assert steps[k + 1] == steps[1..][k];
      }
    }
  }

  lemma {:induction false} SettledIsExplained(s: Session, steps: seq<Step>, i: nat)
    requires ValidRun(s, steps) && !SettledAt(s.requests, i) && SettledAt(After(s, steps).requests, i)
    ensures Explained(s, steps, i, After(s, steps).requests[i].phase.outcome)
    decreases |steps|
  {
    var t := Next(s, steps[0]);
    if SettledAt(t.requests, i) {
      SettledForGood(t, steps[1..], i);
      StepExplains(s, steps[0], i);
      ExplainedLonger(s, steps, i, t.requests[i].phase.outcome);
    } else {
      SettledIsExplained(t, steps[1..], i);
      ExplainedEarlier(s, steps, i, After(s, steps).requests[i].phase.outcome);
    }
  }

  lemma ExplainedLonger(s: Session, steps: seq<Step>, i: nat, o: Outcome)
    requires steps != [] && Explained(s, [steps[0]], i, o)
    ensures Explained(s, steps, i, o)
  {
    assert forall step :: step in [steps[0]] ==> step in steps;
    if DialRefused([steps[0]]) {
      assert steps[0].ConnectionSettles? && !steps[0].ok;
    }
  }

  /** The steps of a run that can make request `i` settle this way. */
  ghost predicate Caused(steps: seq<Step>, i: nat, o: Outcome) {
    match o
    case Value => Return(i, Success) in steps
    case Aborted => Abort(i) in steps
    case Closed => Step.Dispose in steps
    case Unavailable => Attach(i, false) in steps || DialRefused(steps)
    case ReadFailed(code) => Return(i, Failure(code)) in steps || RegisterFails(i, code) in steps
    case Operation(_) => exists reply :: Return(i, reply) in steps
  }

  /** Every way a request of a new session can settle has its cause among the steps of the run. */
  lemma NothingSettlesWithoutCause(steps: seq<Step>, i: nat)
    requires ValidRun(Fresh, steps) && SettledAt(After(Fresh, steps).requests, i)
    ensures Caused(steps, i, After(Fresh, steps).requests[i].phase.outcome)
  {
    SettledIsExplained(Fresh, steps, i);
  }

  /** What an aborted request can still settle as. */
  predicate Quietly(o: Outcome) {
    o.Aborted? || o.Closed? || o.Unavailable?
  }

  lemma AbortedMove(s: Session, i: nat, supported: bool, code: Option<Code>, reply: Reply)
    requires AbortedAt(s, i)
    ensures Enabled(s, Begin(i)) ==> Quiets(AfterBegin(s, i), i)
    ensures Enabled(s, Connect(i)) ==> Quiets(AfterConnect(s, i), i)
    ensures Enabled(s, Attach(i, supported)) ==> Quiets(AfterAttach(s, i, supported), i)
    ensures Enabled(s, Dispatch(i)) ==> Quiets(AfterDispatch(s, i), i)
    ensures Enabled(s, RegisterFails(i, code)) ==> Quiets(AfterRegisterFails(s, i, code), i)
    ensures Enabled(s, Return(i, reply)) ==> Quiets(AfterReturn(s, i, reply), i)
  {
  }

  predicate Quiets(t: Session, i: nat) {
    SettledAt(t.requests, i) ==> Quietly(t.requests[i].phase.outcome)
  }

  lemma AbortedStep(s: Session, step: Step, i: nat)
    requires Enabled(s, step) && AbortedAt(s, i) && !SettledAt(s.requests, i)
    ensures SettledAt(Next(s, step).requests, i) ==> Quietly(Next(s, step).requests[i].phase.outcome)
  {
    StepShape(s, step);
    if SettledAt(Next(s, step).requests, i) {
      SettlesByItself(s, step, Next(s, step), i);
      AbortedMove(s, i, step.Attach? && step.supported, if step.RegisterFails? then step.code else None,
                  if step.Return? then step.reply else Success);
    }
  }

  /** Once aborted, an unsettled request never yields a value or an error of its call. */
  lemma {:induction false} AbortIsHonoured(s: Session, steps: seq<Step>, i: nat)
    requires ValidRun(s, steps) && AbortedAt(s, i) && !SettledAt(s.requests, i) && SettledAt(After(s, steps).requests, i)
    ensures Quietly(After(s, steps).requests[i].phase.outcome)
    decreases |steps|
  {
    var t := Next(s, steps[0]);
    AbortedStep(s, steps[0], i);
    FlagStep(s, steps[0], i);
    if SettledAt(t.requests, i) {
      SettledForGood(t, steps[1..], i);
    } else {
      AbortIsHonoured(t, steps[1..], i);
    }
  }

  // ---- What goes out ----

  /** The call of request `i` has gone out, or only its registration is awaited. */
  predicate Dispatched(s: Session, i: nat) {
    Start(i) in s.log || (i < |s.requests| && (s.requests[i].phase.Registering? || s.requests[i].phase.Native?))
  }

  lemma EarlyDispatch(s: Session, k: nat, supported: bool, i: nat)
    ensures Enabled(s, Begin(k)) && Dispatched(AfterBegin(s, k), i) ==> Dispatched(s, i)
    ensures Enabled(s, Connect(k)) && Dispatched(AfterConnect(s, k), i) ==> Dispatched(s, i)
    ensures Enabled(s, Attach(k, supported)) && Dispatched(AfterAttach(s, k, supported), i) ==>
              Dispatched(s, i) || (k == i && supported)
  {
  }

  lemma DispatchDispatch(s: Session, k: nat, i: nat)
    requires Enabled(s, Dispatch(k)) && Dispatched(AfterDispatch(s, k), i)
    ensures Dispatched(s, i)
  {
  }

  lemma RegisterFailsDispatch(s: Session, k: nat, code: Option<Code>, i: nat)
    requires Enabled(s, RegisterFails(k, code)) && Dispatched(AfterRegisterFails(s, k, code), i)
    ensures Dispatched(s, i)
  {
  }

  lemma ReturnLog(s: Session, k: nat, reply: Reply)
    requires Enabled(s, Return(k, reply))
    ensures AfterReturn(s, k, reply).log == s.log + [End(k)]
  {
  }

  lemma ReturnDispatch(s: Session, k: nat, reply: Reply, i: nat)
    requires Enabled(s, Return(k, reply)) && Dispatched(AfterReturn(s, k, reply), i)
    ensures Dispatched(s, i)
  {
    ReturnLog(s, k, reply);
    ReturnShape(s, k, reply);
  }

  lemma EnqueueDispatch(s: Session, mutation: bool, cancellable: bool, i: nat)
    requires Dispatched(AfterEnqueue(s, mutation, cancellable), i)
    ensures Dispatched(s, i)
  {
  }

  lemma DispatchStep(s: Session, step: Step, i: nat)
    requires Enabled(s, step) && Dispatched(Next(s, step), i)
    ensures Dispatched(s, i) || step == Attach(i, true)
  {
    match step {
      case Begin(k) => EarlyDispatch(s, k, true, i);
      case Connect(k) => EarlyDispatch(s, k, true, i);
      case Attach(k, supported) => EarlyDispatch(s, k, supported, i);
      case Dispatch(k) => DispatchDispatch(s, k, i);
      case RegisterFails(k, code) => RegisterFailsDispatch(s, k, code, i);
      case Return(k, reply) => ReturnDispatch(s, k, reply, i);
      case Enqueue(mutation, cancellable) => EnqueueDispatch(s, mutation, cancellable, i);
      case _ =>
    }
  }

  lemma {:induction false} DispatchedWasSupported(s: Session, steps: seq<Step>, i: nat)
    requires ValidRun(s, steps) && Dispatched(After(s, steps), i)
    ensures Dispatched(s, i) || Attach(i, true) in steps
    decreases |steps|
  {
    if steps != [] {
      DispatchedWasSupported(Next(s, steps[0]), steps[1..], i);
      if Dispatched(Next(s, steps[0]), i) {
        DispatchStep(s, steps[0], i);
      }
    }
  }

  /** In every run a call goes out only after the agent was found to support its method. */
  lemma OnlySupportedCallsGoOut(steps: seq<Step>, i: nat)
    requires ValidRun(Fresh, steps) && Start(i) in After(Fresh, steps).log
    ensures Attach(i, true) in steps
  {
    DispatchedWasSupported(Fresh, steps, i);
  }

  // ---- Exactly when a request begins ----

  /** A barrier names only requests that conflict. */
  ghost predicate Tight(requests: seq<Request>) {
    forall j :: 0 <= j < |requests| ==> TightAt(requests, j)
  }

  ghost predicate TightAt(requests: seq<Request>, j: nat)
    requires j < |requests|
  {
    forall b <- requests[j].barrier :: b < j && (requests[b].mutation || requests[j].mutation)
  }

  /** Kinds and barriers of the requests already there do not change. */
  ghost predicate SameBarriers(before: seq<Request>, after: seq<Request>) {
    && |before| <= |after|
    && forall j :: 0 <= j < |before| ==> after[j].barrier == before[j].barrier && after[j].mutation == before[j].mutation
  }

  lemma TightStays(before: seq<Request>, after: seq<Request>, j: nat)
    requires Tight(before) && SameBarriers(before, after) && j < |before|
    ensures TightAt(after, j)
  {
    assert TightAt(before, j);
  }

  lemma ShapeKeepsBarriers(s: Session, step: Step, t: Session)
    requires Shape(s, step, t)
    ensures SameBarriers(s.requests, t.requests)
  {
    if step.Enqueue? && |t.requests| > |s.requests| {
      assert forall j :: 0 <= j < |s.requests| ==> t.requests[..|s.requests|][j] == t.requests[j];
    }
  }

  lemma NewIsTight(s: Session, mutation: bool, cancellable: bool)
    requires Registers(s) && !(mutation && cancellable)
    ensures TightAt(AfterEnqueue(s, mutation, cancellable).requests, |s.requests|)
  {
    var t := AfterEnqueue(s, mutation, cancellable);
    assert forall j :: 0 <= j < |s.requests| ==> t.requests[j] == s.requests[j];
  }

  lemma StepKeepsTight(s: Session, step: Step)
    requires Inv(s) && Tight(s.requests) && Enabled(s, step)
    ensures Tight(Next(s, step).requests)
  {
    var t := Next(s, step);
    StepShape(s, step);
    ShapeKeepsBarriers(s, step, t);
    forall j | 0 <= j < |t.requests| ensures TightAt(t.requests, j) {
      if j < |s.requests| {
        TightStays(s.requests, t.requests, j);
      } else {
        NewIsTight(s, step.mutation, step.cancellable);
      }
    }
  }

  lemma {:induction false} RunKeepsTight(s: Session, steps: seq<Step>)
    requires Inv(s) && Tight(s.requests) && ValidRun(s, steps)
    ensures Tight(After(s, steps).requests)
    decreases |steps|
  {
    if steps != [] {
      StepKeepsInv(s, steps[0]);
      StepKeepsTight(s, steps[0]);
      RunKeepsTight(Next(s, steps[0]), steps[1..]);
    }
  }

  /** With its barrier settled, every earlier conflicting request is settled. */
  lemma ReadyConflictsSettled(requests: seq<Request>, i: nat, j: nat)
    requires BarriersOk(requests) && i < j < |requests| && Conflict(requests, i, j) && CanBegin(requests, j)
    ensures requests[i].phase.Settled?
  {
    assert BarrierOk(requests, j);
    if requests[i].mutation {
      var w := CoveringWrite(requests, i, j);
      assert SettledAt(requests, w);
      if i < w {
        EarlierConflictsSettled(requests, i, w);
      }
    } else {
      assert i in requests[j].barrier ==> SettledAt(requests, i);
    }
  }

  /**
   * In every reachable state a waiting request may begin exactly if every earlier
   * request it conflicts with is settled: reads overlap freely, and nothing waits
   * longer than for the writes before it, or as a write for everything before it.
   */
  lemma BeginsExactlyWhenFree(steps: seq<Step>, j: nat)
    requires ValidRun(Fresh, steps)
    ensures var s := After(Fresh, steps);
            Enabled(s, Begin(j)) <==>
              && j < |s.requests| && s.requests[j].phase.Waiting?
              && forall i :: 0 <= i < j && Conflict(s.requests, i, j) ==> SettledAt(s.requests, i)
  {
    FreshInv();
    RunKeepsInv(Fresh, steps);
    RunKeepsTight(Fresh, steps);
    var s := After(Fresh, steps);
    if j < |s.requests| && s.requests[j].phase.Waiting? {
      assert TightAt(s.requests, j);
      if CanBegin(s.requests, j) {
        forall i | 0 <= i < j && Conflict(s.requests, i, j) ensures SettledAt(s.requests, i) {
          ReadyConflictsSettled(s.requests, i, j);
        }
      }
    }
  }
}
