/**
 What every run of a Git session keeps: conflicting native calls run one after
 the other in enqueue order, nothing is sent twice, disposal stops dispatch, and
 a queue whose native calls settle always drains.
 */
module GitSessionProofs {
  import opened Common
  import opened GitSessions

  predicate Begun(r: Request) {
    !r.phase.Waiting?
  }

  /** Two requests that may not run side by side: at least one writes. */
  predicate Conflict(requests: seq<Request>, i: nat, j: nat)
    requires i < |requests| && j < |requests|
  {
    requests[i].mutation || requests[j].mutation
  }

  // ---- One step of one request ----

  function Weight(phase: Phase): nat {
    match phase
    case Waiting => 7
    case AwaitReset(_) => 6
    case AwaitConnection(_) => 4
    case Registering(_) => 3
    case Native(_) => 2
    case Settled(_) => 0
  }

  function EventsOf(was: Phase, p: Phase, i: nat): seq<Event> {
    if p.Native? then [Start(i)] else if was.Native? then [End(i)] else []
  }

  predicate PhaseOk(s: Session, phase: Phase, mutation: bool) {
    match phase
    case AwaitReset(r) => r.Some? ==> r.value < |s.resets|
    case AwaitConnection(c) => c < |s.connections|
    case Registering(a) => !mutation
    case _ => true
  }

  /** Outcomes that a request may settle with, given whether its native call went out. */
  predicate OutcomeOk(r: Request, sent: bool) {
    r.phase.Settled? ==>
      var o := r.phase.outcome;
      && (o.Value? ==> sent)
      && (o.Operation? ==> r.mutation && (Terminal(Some(o.operation)) ==> o.operation == OutcomeUnknown))
      && (r.mutation ==> (sent <==> o.Value? || o.Operation?))
  }

  predicate RequestOk(r: Request) {
    (r.mutation ==> !r.cancellable) && (r.aborted ==> r.cancellable)
  }

  predicate CanBegin(requests: seq<Request>, i: nat)
    requires i < |requests|
  {
    forall b <- requests[i].barrier :: SettledAt(requests, b)
  }

  /** Request `i` advanced to phase `p`: nothing else in the queue changed, the log and the costs are accounted for. */
  predicate Moved(s: Session, t: Session, i: nat, p: Phase) {
    && i < |s.requests|
    && t.requests == s.requests[i := s.requests[i].(phase := p)]
    && t.writeBarrier == s.writeBarrier && t.openReads == s.openReads
    && t.closed == s.closed && t.disposal == s.disposal
    && t.log == s.log + EventsOf(s.requests[i].phase, p, i)
    && (t.connections == s.connections || t.connections == s.connections + [Pending])
    && (t.resets == s.resets || t.resets == s.resets + [false])
    && Weight(p) + (|t.connections| - |s.connections|) + (|t.resets| - |s.resets|) < Weight(s.requests[i].phase)
    && (s.requests[i].phase.Waiting? ==> CanBegin(s.requests, i))
    && (s.requests[i].phase.Native? ==> p.Settled?)
    && PhaseOk(t, p, s.requests[i].mutation)
    && OutcomeOk(s.requests[i].(phase := p), s.requests[i].phase.Native?)
    && (s.closed ==> !p.Native? && !(p.Settled? && p.outcome.Value?))
  }

  /** At most one reset is outstanding, and the connection in use is the newest one opened. */
  predicate Links(s: Session) {
    && (s.connection.Some? ==>
          s.connection.value + 1 == |s.connections| && !s.connections[s.connection.value].Refused?)
    && (forall r :: 0 <= r < |s.resets| ==> (!s.resets[r] <==> s.resetting == Some(r)))
    && (s.resetting.Some? ==> s.resetting.value < |s.resets|)
    && (s.disposal <==> s.closed)
  }

  lemma ForgottenLinks(s: Session)
    requires Links(s)
    ensures Links(Forgotten(s))
  {
  }

  lemma BeginMoves(s: Session, i: nat)
    requires Enabled(s, Begin(i)) && Links(s)
    ensures var t := AfterBegin(s, i); Moved(s, t, i, t.requests[i].phase) && Links(t)
  {
    assert CanBegin(s.requests, i);
  }

  lemma ConnectMoves(s: Session, i: nat)
    requires Enabled(s, Connect(i)) && Links(s)
    ensures var t := AfterConnect(s, i); Moved(s, t, i, t.requests[i].phase) && Links(t)
  {
  }

  /** A request that is not in a native call moves on or settles; nothing else changes. */
  lemma PhaseMoves(s: Session, i: nat, p: Phase)
    requires Links(s) && i < |s.requests| && !s.requests[i].phase.Waiting? && !s.requests[i].phase.Native?
    requires Weight(p) < Weight(s.requests[i].phase) && PhaseOk(s, p, s.requests[i].mutation) && !p.Native?
    requires OutcomeOk(s.requests[i].(phase := p), false) && (s.closed && p.Settled? ==> !p.outcome.Value?)
    ensures Moved(s, AtPhase(s, i, p), i, p) && Links(AtPhase(s, i, p))
  {
    assert s.log + [] == s.log;
  }

  lemma StartMoves(s: Session, i: nat, attempt: Option<nat>)
    requires Links(s) && i < |s.requests| && !s.closed
    requires s.requests[i].phase.AwaitConnection? || s.requests[i].phase.Registering?
    ensures Moved(s, Started(s, i, attempt), i, Native(attempt)) && Links(Started(s, i, attempt))
  {
  }

  lemma AttachMoves(s: Session, i: nat, supported: bool)
    requires Enabled(s, Attach(i, supported)) && Links(s) && RequestOk(s.requests[i])
    ensures var t := AfterAttach(s, i, supported); Moved(s, t, i, t.requests[i].phase) && Links(t)
  {
    var r := s.requests[i];
    if s.connections[r.phase.dial].Refused? {
      PhaseMoves(s, i, Settled(Unavailable));
    } else if r.aborted {
      PhaseMoves(s, i, Settled(Aborted));
    } else if s.closed {
      PhaseMoves(s, i, Settled(Closed));
    } else if !supported {
      PhaseMoves(s, i, Settled(Unavailable));
    } else if r.cancellable {
      PhaseMoves(s, i, Registering(s.connection));
    } else {
      StartMoves(s, i, s.connection);
    }
  }

  lemma DispatchMoves(s: Session, i: nat)
    requires Enabled(s, Dispatch(i)) && Links(s) && !s.requests[i].mutation
    ensures var t := AfterDispatch(s, i); Moved(s, t, i, t.requests[i].phase) && Links(t)
  {
    if s.requests[i].aborted {
      PhaseMoves(s, i, Settled(Aborted));
    } else if s.closed {
      PhaseMoves(s, i, Settled(Closed));
    } else {
      StartMoves(s, i, s.requests[i].phase.attempt);
    }
  }

  /** `b` differs from `s` at most in its log, its connection and one more reset. */
  predicate Beside(s: Session, b: Session) {
    && b.requests == s.requests && b.writeBarrier == s.writeBarrier && b.openReads == s.openReads
    && b.closed == s.closed && b.disposal == s.disposal && b.connections == s.connections
    && (b.resets == s.resets || b.resets == s.resets + [false])
    && Links(b)
  }

  lemma FailureBeside(s: Session, attempt: Option<nat>, code: Option<Code>)
    requires Links(s)
    ensures Beside(s, AfterFailure(s, attempt, code)) && AfterFailure(s, attempt, code).log == s.log
  {
    ForgottenLinks(s);
  }

  lemma SettlesBeside(s: Session, b: Session, i: nat, o: Outcome)
    requires i < |s.requests| && (s.requests[i].phase.Registering? || s.requests[i].phase.Native?) && Beside(s, b)
    requires b.log == s.log + EventsOf(s.requests[i].phase, Settled(o), i)
    requires OutcomeOk(s.requests[i].(phase := Settled(o)), s.requests[i].phase.Native?) && (s.closed ==> !o.Value?)
    ensures Moved(s, AtPhase(b, i, Settled(o)), i, Settled(o)) && Links(AtPhase(b, i, Settled(o)))
  {
  }

  lemma RegisterFailsMoves(s: Session, i: nat, code: Option<Code>)
    requires Enabled(s, RegisterFails(i, code)) && Links(s) && !s.requests[i].mutation
    ensures var t := AfterRegisterFails(s, i, code); Moved(s, t, i, t.requests[i].phase) && Links(t)
  {
    var attempt := s.requests[i].phase.attempt;
    assert s.log + [] == s.log;
    if s.requests[i].aborted {
      SettlesBeside(s, s, i, Aborted);
    } else {
      FailureBeside(s, attempt, code);
      SettlesBeside(s, AfterFailure(s, attempt, code), i, ReadFailed(code));
    }
  }

  function Ended(s: Session, i: nat): Session {
    s.(log := s.log + [End(i)])
  }

  lemma EndedBeside(s: Session, i: nat)
    requires Links(s)
    ensures Beside(s, Ended(s, i))
  {
  }

  /** A failure reported by a native call, or a success that came after disposal. */
  lemma ReturnFails(s: Session, i: nat, code: Option<Code>)
    requires i < |s.requests| && s.requests[i].phase.Native? && Links(s)
    ensures var o := if s.requests[i].mutation then Operation(OperationCode(code)) else ReadFailed(code);
            var t := AtPhase(AfterFailure(Ended(s, i), s.requests[i].phase.attempt, code), i, Settled(o));
            Moved(s, t, i, Settled(o)) && Links(t)
  {
    EndedBeside(s, i);
    FailureBeside(Ended(s, i), s.requests[i].phase.attempt, code);
    var o := if s.requests[i].mutation then Operation(OperationCode(code)) else ReadFailed(code);
    SettlesBeside(s, AfterFailure(Ended(s, i), s.requests[i].phase.attempt, code), i, o);
  }

  /** A call that ends without a failure of its own. */
  lemma ReturnSettles(s: Session, i: nat, o: Outcome)
    requires i < |s.requests| && s.requests[i].phase.Native? && Links(s)
    requires OutcomeOk(s.requests[i].(phase := Settled(o)), true) && (s.closed ==> !o.Value?)
    ensures Moved(s, AtPhase(Ended(s, i), i, Settled(o)), i, Settled(o)) && Links(AtPhase(Ended(s, i), i, Settled(o)))
  {
    EndedBeside(s, i);
    SettlesBeside(s, Ended(s, i), i, o);
  }

  lemma ReturnMoves(s: Session, i: nat, reply: Reply)
    requires Enabled(s, Return(i, reply)) && Links(s) && RequestOk(s.requests[i])
    ensures var t := AfterReturn(s, i, reply); Moved(s, t, i, t.requests[i].phase) && Links(t)
  {
    var r := s.requests[i];
    if r.aborted {
      ReturnSettles(s, i, Aborted);
    } else if reply.Success? && !s.closed {
      ReturnSettles(s, i, Value);
    } else if reply.Success? && !r.mutation {
      ReturnSettles(s, i, Closed);
    } else {
      ReturnFails(s, i, if reply.Success? then Some(OutcomeUnknown) else reply.code);
    }
  }

  predicate MovesRequest(step: Step) {
    step.Begin? || step.Connect? || step.Attach? || step.Dispatch? || step.RegisterFails? || step.Return?
  }

  // ---- The barrier invariant ----

  predicate WriteAtOrAfter(requests: seq<Request>, j: nat, i: nat)
    requires j < |requests|
  {
    exists w :: w in requests[j].barrier && i <= w < |requests| && requests[w].mutation
  }

  /** The recorded barrier of `j` reaches back to every earlier write. */
  predicate CoversWrites(requests: seq<Request>, j: nat)
    requires j < |requests|
  {
    forall i :: 0 <= i < j && requests[i].mutation ==> WriteAtOrAfter(requests, j, i)
  }

  predicate CoversReads(requests: seq<Request>, j: nat)
    requires j < |requests|
  {
    requests[j].mutation ==>
      forall i :: 0 <= i < j && !requests[i].mutation && !requests[i].phase.Settled? ==> i in requests[j].barrier
  }

  predicate BarrierOk(requests: seq<Request>, j: nat)
    requires j < |requests|
  {
    && (forall b <- requests[j].barrier :: b < j)
    && CoversWrites(requests, j)
    && CoversReads(requests, j)
    && (Begun(requests[j]) ==> CanBegin(requests, j))
    && RequestOk(requests[j])
  }

  predicate BarriersOk(requests: seq<Request>) {
    forall j :: 0 <= j < |requests| ==> BarrierOk(requests, j)
  }

  predicate Registers(s: Session) {
    && (s.writeBarrier.None? ==> forall i :: 0 <= i < |s.requests| ==> !s.requests[i].mutation)
    && (s.writeBarrier.Some? ==>
          && s.writeBarrier.value < |s.requests| && s.requests[s.writeBarrier.value].mutation
          && forall i :: s.writeBarrier.value < i < |s.requests| ==> !s.requests[i].mutation)
    && (forall i <- s.openReads :: i < |s.requests| && !s.requests[i].mutation)
    && (forall i :: 0 <= i < |s.requests| && !s.requests[i].mutation && !s.requests[i].phase.Settled? ==> i in s.openReads)
  }

  /** The write that the barrier of `j` names at or after the write `i`. */
  lemma CoveringWrite(requests: seq<Request>, i: nat, j: nat) returns (w: nat)
    requires i < j < |requests| && BarrierOk(requests, j) && requests[i].mutation
    ensures i <= w < j && w in requests[j].barrier && requests[w].mutation
  {
    assert WriteAtOrAfter(requests, j, i);
    w :| w in requests[j].barrier && i <= w < |requests| && requests[w].mutation;
  }

  /** A request that has begun has every earlier conflicting request settled. */
  lemma {:induction false} EarlierConflictsSettled(requests: seq<Request>, i: nat, j: nat)
    requires BarriersOk(requests) && i < j < |requests|
    requires Conflict(requests, i, j) && Begun(requests[j])
    ensures requests[i].phase.Settled?
    decreases j
  {
    assert BarrierOk(requests, j) && CanBegin(requests, j);
    if requests[i].mutation {
      var w := CoveringWrite(requests, i, j);
      assert SettledAt(requests, w);
      if i < w {
        EarlierConflictsSettled(requests, i, w);
      }
    } else {
      assert i in requests[j].barrier ==> SettledAt(requests, i);
    }
  }

  /** Requests only ever advance: kind and barrier are fixed, and settling is final. */
  predicate Advances(before: seq<Request>, after: seq<Request>) {
    && |before| == |after|
    && forall i :: 0 <= i < |before| ==> AdvancesAt(before[i], after[i])
  }

  predicate AdvancesAt(before: Request, after: Request) {
    && after.mutation == before.mutation && after.cancellable == before.cancellable
    && after.barrier == before.barrier
    && (before.phase.Settled? ==> after.phase == before.phase)
    && (Begun(before) ==> Begun(after))
    && (RequestOk(before) ==> RequestOk(after))
  }

  lemma AdvanceKeepsBarrier(before: seq<Request>, after: seq<Request>, j: nat)
    requires j < |before| && BarrierOk(before, j) && Advances(before, after)
    requires Begun(after[j]) && !Begun(before[j]) ==> CanBegin(before, j)
    ensures BarrierOk(after, j)
  {
    assert AdvancesAt(before[j], after[j]);
    forall i | 0 <= i < j && after[i].mutation ensures WriteAtOrAfter(after, j, i) {
      assert AdvancesAt(before[i], after[i]);
      assert WriteAtOrAfter(before, j, i);
      var w :| w in before[j].barrier && i <= w < |before| && before[w].mutation;
      assert AdvancesAt(before[w], after[w]);
      assert w in after[j].barrier && after[w].mutation;
    }
    forall i | 0 <= i < j && !after[i].mutation && !after[i].phase.Settled? && after[j].mutation
      ensures i in after[j].barrier
    {
      assert AdvancesAt(before[i], after[i]);
    }
    if Begun(after[j]) {
      forall b <- after[j].barrier ensures SettledAt(after, b) {
        assert SettledAt(before, b);
        assert AdvancesAt(before[b], after[b]);
      }
    }
  }

  lemma AdvanceKeepsRegisters(s: Session, t: Session)
    requires Registers(s) && Advances(s.requests, t.requests)
    requires t.writeBarrier == s.writeBarrier && t.openReads <= s.openReads
    requires forall i <- s.openReads - t.openReads :: SettledAt(s.requests, i)
    ensures Registers(t)
  {
    forall i | 0 <= i < |s.requests|
      ensures t.requests[i].mutation == s.requests[i].mutation
      ensures !t.requests[i].mutation && !t.requests[i].phase.Settled? ==> i in t.openReads
    {
      assert AdvancesAt(s.requests[i], t.requests[i]);
      if i in s.openReads - t.openReads {
        assert SettledAt(s.requests, i);
      }
    }
  }

  lemma EnqueueKeepsBarrier(s: Session, mutation: bool, cancellable: bool, j: nat)
    requires BarriersOk(s.requests) && Registers(s)
    requires j < |AfterEnqueue(s, mutation, cancellable).requests|
    ensures BarrierOk(AfterEnqueue(s, mutation, cancellable).requests, j)
  {
    var before, after := s.requests, AfterEnqueue(s, mutation, cancellable).requests;
    var n := |before|;
    if j < n {
      assert BarrierOk(before, j);
      forall i | 0 <= i < j && after[i].mutation ensures WriteAtOrAfter(after, j, i) {
        assert before[i] == after[i];
        assert WriteAtOrAfter(before, j, i);
        var w :| w in before[j].barrier && i <= w < |before| && before[w].mutation;
        assert w in after[j].barrier && after[w].mutation;
      }
      if Begun(after[j]) {
        forall b <- after[j].barrier ensures SettledAt(after, b) {
          assert SettledAt(before, b);
        }
      }
    } else {
      forall i | 0 <= i < n && after[i].mutation ensures WriteAtOrAfter(after, n, i) {
        assert before[i] == after[i];
        var w := s.writeBarrier.value;
        assert w in after[n].barrier && i <= w && after[w].mutation;
      }
    }
  }

  lemma EnqueueKeepsRegisters(s: Session, mutation: bool, cancellable: bool)
    requires Registers(s)
    ensures Registers(AfterEnqueue(s, mutation, cancellable))
  {
    var t := AfterEnqueue(s, mutation, cancellable);
    assert forall i :: 0 <= i < |s.requests| ==> t.requests[i] == s.requests[i];
  }

  // ---- The log ----

  /** The log agrees with where each request stands and with what it settled as. */
  predicate LogOk(log: seq<Event>, r: Request, i: nat) {
    && (Start(i) in log ==> r.phase.Native? || r.phase.Settled?)
    && (r.phase.Native? ==> Start(i) in log)
    && (End(i) in log <==> Start(i) in log && r.phase.Settled?)
    && OutcomeOk(r, Start(i) in log)
  }

  /** Events of conflicting requests stand in enqueue order; each call starts once and then ends once. */
  predicate InOrder(requests: seq<Request>, e: Event, f: Event)
    requires e.id < |requests| && f.id < |requests|
  {
    if e.id == f.id then e.Start? && f.End?
    else Conflict(requests, e.id, f.id) ==> e.id < f.id
  }

  predicate LogOrdered(requests: seq<Request>, log: seq<Event>) {
    && (forall p :: 0 <= p < |log| ==> log[p].id < |requests|)
    && (forall p, q :: 0 <= p < q < |log| ==> InOrder(requests, log[p], log[q]))
  }

  predicate Inv(s: Session) {
    && BarriersOk(s.requests)
    && Registers(s)
    && Links(s)
    && LogOrdered(s.requests, s.log)
    && (forall i :: 0 <= i < |s.requests| ==> LogOk(s.log, s.requests[i], i))
    && (forall i :: 0 <= i < |s.requests| ==> PhaseOk(s, s.requests[i].phase, s.requests[i].mutation))
  }

  lemma FreshInv()
    ensures Inv(Fresh)
  {
  }

  lemma OrderIgnoresPhases(before: seq<Request>, after: seq<Request>, log: seq<Event>)
    requires LogOrdered(before, log) && |before| <= |after|
    requires forall i :: 0 <= i < |before| ==> after[i].mutation == before[i].mutation
    ensures LogOrdered(after, log)
  {
    forall p, q | 0 <= p < q < |log| ensures InOrder(after, log[p], log[q]) {
      assert InOrder(before, log[p], log[q]);
    }
  }

  /** A call that starts or ends comes after all events of earlier conflicting requests, and later ones have none. */
  lemma NewEventInOrder(requests: seq<Request>, log: seq<Event>, i: nat, e: Event, p: nat)
    requires BarriersOk(requests) && i < |requests| && e.id == i && p < |log| && log[p].id < |requests|
    requires LogOk(log, requests[log[p].id], log[p].id) && LogOk(log, requests[i], i)
    requires !requests[i].phase.Settled?
    requires e.Start? ==> Start(i) !in log
    ensures InOrder(requests, log[p], e)
  {
    var j := log[p].id;
    assert log[p] in log;
    assert log[p] == Start(j) || log[p] == End(j);
    if i < j && Conflict(requests, j, i) {
      EarlierConflictsSettled(requests, i, j);
    }
  }

  lemma AppendKeepsOrder(requests: seq<Request>, log: seq<Event>, i: nat, e: Event)
    requires BarriersOk(requests) && LogOrdered(requests, log)
    requires forall k :: 0 <= k < |requests| ==> LogOk(log, requests[k], k)
    requires i < |requests| && e.id == i && !requests[i].phase.Settled?
    requires e.Start? ==> Start(i) !in log
    ensures LogOrdered(requests, log + [e])
  {
    var longer := log + [e];
    forall p | 0 <= p < |log| ensures InOrder(requests, log[p], e) {
      NewEventInOrder(requests, log, i, e, p);
    }
    forall p, q | 0 <= p < q < |longer| ensures InOrder(requests, longer[p], longer[q]) {
      assert longer[p] == log[p];
      if q < |log| {
        assert longer[q] == log[q];
        assert InOrder(requests, log[p], log[q]);
      }
    }
  }

  // ---- Every step keeps the invariant ----

  lemma MoveAdvances(s: Session, t: Session, i: nat, p: Phase)
    requires Moved(s, t, i, p)
    ensures Advances(s.requests, t.requests)
  {
    forall k | 0 <= k < |s.requests| ensures AdvancesAt(s.requests[k], t.requests[k]) {
    }
  }

  lemma MoveKeepsLog(s: Session, t: Session, i: nat, p: Phase)
    requires Inv(s) && Moved(s, t, i, p)
    ensures LogOrdered(t.requests, t.log)
    ensures forall k :: 0 <= k < |t.requests| ==> LogOk(t.log, t.requests[k], k)
  {
    assert LogOk(s.log, s.requests[i], i);
    var events := EventsOf(s.requests[i].phase, p, i);
    if events != [] {
      AppendKeepsOrder(s.requests, s.log, i, events[0]);
    }
    assert t.log == s.log + events;
    OrderIgnoresPhases(s.requests, t.requests, t.log);
    forall k | 0 <= k < |t.requests| ensures LogOk(t.log, t.requests[k], k) {
      assert LogOk(s.log, s.requests[k], k);
    }
  }

  lemma MoveKeepsInv(s: Session, t: Session, i: nat, p: Phase)
    requires Inv(s) && Moved(s, t, i, p) && Links(t)
    ensures Inv(t)
  {
    MoveAdvances(s, t, i, p);
    forall j | 0 <= j < |t.requests| ensures BarrierOk(t.requests, j) {
      assert BarrierOk(s.requests, j);
      AdvanceKeepsBarrier(s.requests, t.requests, j);
    }
    AdvanceKeepsRegisters(s, t);
    MoveKeepsLog(s, t, i, p);
    forall k | 0 <= k < |t.requests| ensures PhaseOk(t, t.requests[k].phase, t.requests[k].mutation) {
      assert PhaseOk(s, s.requests[k].phase, s.requests[k].mutation);
    }
  }

  lemma StepMoves(s: Session, step: Step) returns (p: Phase)
    requires Inv(s) && Enabled(s, step) && MovesRequest(step)
    ensures Moved(s, Next(s, step), step.id, p) && Links(Next(s, step))
  {
    var i := step.id;
    assert BarrierOk(s.requests, i) && PhaseOk(s, s.requests[i].phase, s.requests[i].mutation);
    p := OneMove(s, step);
  }

  lemma OneMove(s: Session, step: Step) returns (p: Phase)
    requires Links(s) && Enabled(s, step) && MovesRequest(step)
    requires RequestOk(s.requests[step.id]) && PhaseOk(s, s.requests[step.id].phase, s.requests[step.id].mutation)
    ensures Moved(s, Next(s, step), step.id, p) && Links(Next(s, step))
  {
    p := Next(s, step).requests[step.id].phase;
    if step.Begin? {
      BeginMoves(s, step.id);
    } else if step.Connect? {
      ConnectMoves(s, step.id);
    } else if step.Attach? {
      AttachMoves(s, step.id, step.supported);
    } else {
      p := LateMove(s, step);
    }
  }

  lemma LateMove(s: Session, step: Step) returns (p: Phase)
    requires Links(s) && Enabled(s, step) && (step.Dispatch? || step.RegisterFails? || step.Return?)
    requires RequestOk(s.requests[step.id]) && PhaseOk(s, s.requests[step.id].phase, s.requests[step.id].mutation)
    ensures Moved(s, Next(s, step), step.id, p) && Links(Next(s, step))
  {
    p := Next(s, step).requests[step.id].phase;
    match step {
      case Dispatch(i) => DispatchMoves(s, i);
      case RegisterFails(i, code) => RegisterFailsMoves(s, i, code);
      case Return(i, reply) => ReturnMoves(s, i, reply);
    }
  }

  lemma EnqueueKeepsInv(s: Session, mutation: bool, cancellable: bool)
    requires Inv(s)
    ensures Inv(AfterEnqueue(s, mutation, cancellable))
  {
    var t := AfterEnqueue(s, mutation, cancellable);
    var n := |s.requests|;
    assert forall k :: 0 <= k < n ==> t.requests[k] == s.requests[k];
    forall j | 0 <= j < |t.requests| ensures BarrierOk(t.requests, j) {
      EnqueueKeepsBarrier(s, mutation, cancellable, j);
    }
    EnqueueKeepsRegisters(s, mutation, cancellable);
    OrderIgnoresPhases(s.requests, t.requests, t.log);
    forall k | 0 <= k < |t.requests|
      ensures LogOk(t.log, t.requests[k], k)
      ensures PhaseOk(t, t.requests[k].phase, t.requests[k].mutation)
    {
      if k < n {
        assert LogOk(s.log, s.requests[k], k);
        assert PhaseOk(s, s.requests[k].phase, s.requests[k].mutation);
      } else {
        assert Start(n) !in s.log && End(n) !in s.log;
      }
    }
  }

  /** No request moves: at most one is marked aborted, settled reads are cleared, shared promises settle. */
  predicate StandsStill(s: Session, t: Session) {
    && t.log == s.log && t.writeBarrier == s.writeBarrier && t.openReads <= s.openReads
    && (forall i <- s.openReads - t.openReads :: SettledAt(s.requests, i))
    && |t.connections| == |s.connections| && |t.resets| >= |s.resets|
    && Advances(s.requests, t.requests)
    && (forall k :: 0 <= k < |s.requests| ==> t.requests[k].phase == s.requests[k].phase)
  }

  lemma StandingKeepsInv(s: Session, t: Session)
    requires Inv(s) && StandsStill(s, t) && Links(t)
    ensures Inv(t)
  {
    forall k | 0 <= k < |s.requests|
      ensures LogOk(t.log, t.requests[k], k)
      ensures PhaseOk(t, t.requests[k].phase, t.requests[k].mutation)
      ensures BarrierOk(t.requests, k)
    {
      assert LogOk(s.log, s.requests[k], k) && BarrierOk(s.requests, k) && AdvancesAt(s.requests[k], t.requests[k]);
      assert PhaseOk(s, s.requests[k].phase, s.requests[k].mutation);
      AdvanceKeepsBarrier(s.requests, t.requests, k);
    }
    AdvanceKeepsRegisters(s, t);
    OrderIgnoresPhases(s.requests, t.requests, t.log);
  }

  /** Aborting, forgetting, disposing, clearing and settling of shared promises. */
  predicate Aside(step: Step) {
    !MovesRequest(step) && !step.Enqueue?
  }

  lemma OtherStepStandsStill(s: Session, step: Step)
    requires Enabled(s, step) && Aside(step)
    ensures StandsStill(s, Next(s, step))
  {
    var t := Next(s, step);
    assert forall k :: 0 <= k < |s.requests| ==> AdvancesAt(s.requests[k], t.requests[k]);
  }

  lemma OtherStepKeepsInv(s: Session, step: Step)
    requires Inv(s) && Enabled(s, step) && Aside(step)
    ensures Inv(Next(s, step)) && StandsStill(s, Next(s, step))
  {
    OtherStepStandsStill(s, step);
    OtherStepKeepsLinks(s, step);
    StandingKeepsInv(s, Next(s, step));
  }

  lemma OtherStepKeepsLinks(s: Session, step: Step)
    requires Links(s) && Enabled(s, step) && Aside(step)
    ensures Links(Next(s, step))
  {
    if step.Forget? {
      ForgottenLinks(s);
    } else if step.ConnectionSettles? {
      SettledConnectionLinks(s, step.dial, step.ok);
    } else if step.ResetSettles? {
      SettledResetLinks(s, step.reset);
    }
  }

  lemma SettledConnectionLinks(s: Session, c: nat, ok: bool)
    requires Links(s) && c < |s.connections|
    ensures Links(AfterConnectionSettles(s, c, ok))
  {
  }

  lemma SettledResetLinks(s: Session, r: nat)
    requires Links(s) && r < |s.resets| && !s.resets[r]
    ensures Links(AfterResetSettles(s, r))
  {
  }

  lemma StepKeepsInv(s: Session, step: Step)
    requires Inv(s) && Enabled(s, step)
    ensures Inv(Next(s, step))
  {
    if step.Enqueue? {
      EnqueueKeepsInv(s, step.mutation, step.cancellable);
    } else if MovesRequest(step) {
      var p := StepMoves(s, step);
      MoveKeepsInv(s, Next(s, step), step.id, p);
    } else {
      OtherStepKeepsInv(s, step);
    }
  }

  lemma {:induction false} RunKeepsInv(s: Session, steps: seq<Step>)
    requires Inv(s) && ValidRun(s, steps)
    ensures Inv(After(s, steps))
    decreases |steps|
  {
    if steps != [] {
      StepKeepsInv(s, steps[0]);
      RunKeepsInv(Next(s, steps[0]), steps[1..]);
    }
  }

  // ---- Serialisation ----

  /** For every started call, each earlier conflicting request is wholly in the past: ended, or never to start. */
  predicate Serialised(requests: seq<Request>, log: seq<Event>, q: nat, i: nat)
    requires q < |log| && i < |requests|
  {
    && requests[i].phase.Settled?
    && (Start(i) in log ==> End(i) in log[..q])
    && (forall p :: 0 <= p < |log| && log[p].id == i ==> p < q)
  }

  lemma StartedAfterConflicts(s: Session, q: nat, i: nat)
    requires Inv(s) && q < |s.log| && s.log[q].Start? && i < s.log[q].id < |s.requests|
    requires Conflict(s.requests, i, s.log[q].id)
    ensures Serialised(s.requests, s.log, q, i)
  {
    var j := s.log[q].id;
    assert s.log[q] in s.log && s.log[q] == Start(j);
    assert LogOk(s.log, s.requests[j], j) && LogOk(s.log, s.requests[i], i);
    EarlierConflictsSettled(s.requests, i, j);
    forall p | 0 <= p < |s.log| && s.log[p].id == i ensures p < q {
    }
    if Start(i) in s.log {
      var p :| 0 <= p < |s.log| && s.log[p] == End(i);
      assert s.log[..q][p] == End(i);
    }
  }

  /**
   In every run the native calls of two requests, at least one of which writes,
   go out in enqueue order and never overlap, and no call goes out or comes back
   twice.
   */
  lemma NativeCallsAreSerialised(steps: seq<Step>)
    requires ValidRun(Fresh, steps)
    ensures var s := After(Fresh, steps);
            && (forall q, i | 0 <= q < |s.log| && s.log[q].Start? && 0 <= i < s.log[q].id < |s.requests|
                              && Conflict(s.requests, i, s.log[q].id) :: Serialised(s.requests, s.log, q, i))
            && (forall p, q :: 0 <= p < q < |s.log| ==> s.log[p] != s.log[q])
  {
    FreshInv();
    RunKeepsInv(Fresh, steps);
    var s := After(Fresh, steps);
    forall q, i | 0 <= q < |s.log| && s.log[q].Start? && 0 <= i < s.log[q].id < |s.requests|
                  && Conflict(s.requests, i, s.log[q].id)
      ensures Serialised(s.requests, s.log, q, i)
    {
      StartedAfterConflicts(s, q, i);
    }
    forall p, q | 0 <= p < q < |s.log| ensures s.log[p] != s.log[q] {
      assert InOrder(s.requests, s.log[p], s.log[q]);
    }
  }

  /**
   What callers are told is what happened: a write settles as a value or an
   operation error exactly when its native call went out, and a terminal code
   is reported only as an unknown outcome.
   */
  lemma SettledWritesAreHonest(steps: seq<Step>, i: nat)
    requires ValidRun(Fresh, steps)
    requires i < |After(Fresh, steps).requests|
    requires After(Fresh, steps).requests[i].mutation && After(Fresh, steps).requests[i].phase.Settled?
    ensures var s := After(Fresh, steps);
            var o := s.requests[i].phase.outcome;
            && (Start(i) in s.log <==> o.Value? || o.Operation?)
            && (o.Operation? && Terminal(Some(o.operation)) ==> o.operation == OutcomeUnknown)
  {
    FreshInv();
    RunKeepsInv(Fresh, steps);
    assert LogOk(After(Fresh, steps).log, After(Fresh, steps).requests[i], i);
  }

  // ---- Disposal ----

  /** What one step after disposal can do to one request. */
  lemma ClosedStep(s: Session, step: Step, i: nat)
    requires Inv(s) && s.closed && Enabled(s, step)
    ensures var t := Next(s, step);
            && t.closed && |s.requests| <= |t.requests|
            && (Start(i) in t.log ==> Start(i) in s.log)
            && (i < |s.requests| && s.requests[i].phase.Settled? ==> t.requests[i].phase == s.requests[i].phase)
            && (i < |t.requests| && !SettledAt(s.requests, i) && t.requests[i].phase.Settled? ==>
                  !t.requests[i].phase.outcome.Value?)
  {
    if MovesRequest(step) {
      var p := StepMoves(s, step);
    } else if !step.Enqueue? {
      OtherStepKeepsInv(s, step);
    }
  }

  /** After disposal nothing more is sent and no pending promise resolves to a value. */
  lemma {:induction false} DisposedSessionsStaySilent(s: Session, steps: seq<Step>, i: nat)
    requires Inv(s) && s.closed && ValidRun(s, steps)
    requires SettledAt(s.requests, i) ==> !s.requests[i].phase.outcome.Value?
    ensures var t := After(s, steps);
            && t.closed
            && (Start(i) in t.log ==> Start(i) in s.log)
            && (SettledAt(t.requests, i) ==> !t.requests[i].phase.outcome.Value?)
    decreases |steps|
  {
    if steps != [] {
      ClosedStep(s, steps[0], i);
      StepKeepsInv(s, steps[0]);
      DisposedSessionsStaySilent(Next(s, steps[0]), steps[1..], i);
    }
  }

  // ---- Progress ----

  /** Steps the event loop takes by itself once the native calls settle. */
  predicate Internal(step: Step) {
    !step.Enqueue? && !step.Abort? && !step.Forget? && !step.Dispose?
  }

  predicate Quiet(s: Session) {
    (forall i :: 0 <= i < |s.requests| ==> s.requests[i].phase.Settled?) && s.openReads == {}
  }

  function Work(requests: seq<Request>): nat {
    if requests == [] then 0 else Work(requests[..|requests| - 1]) + Weight(requests[|requests| - 1].phase)
  }

  function PendingCount(fates: seq<Fate>): nat {
    if fates == [] then 0 else PendingCount(fates[..|fates| - 1]) + if fates[|fates| - 1].Pending? then 1 else 0
  }

  function OpenResets(resets: seq<bool>): nat {
    if resets == [] then 0 else OpenResets(resets[..|resets| - 1]) + if resets[|resets| - 1] then 0 else 1
  }

  function Measure(s: Session): nat {
    Work(s.requests) + |s.openReads| + PendingCount(s.connections) + OpenResets(s.resets)
  }

  lemma {:induction false} WorkUpdate(requests: seq<Request>, i: nat, r: Request)
    requires i < |requests|
    ensures Work(requests[i := r]) + Weight(requests[i].phase) == Work(requests) + Weight(r.phase)
  {
    var n := |requests| - 1;
    if i < n {
      WorkUpdate(requests[..n], i, r);
      assert requests[i := r][..n] == requests[..n][i := r];
    } else {
      assert requests[i := r][..n] == requests[..n];
    }
  }

  lemma {:induction false} PendingUpdate(fates: seq<Fate>, c: nat, f: Fate)
    requires c < |fates| && fates[c].Pending? && !f.Pending?
    ensures PendingCount(fates[c := f]) + 1 == PendingCount(fates)
  {
    var n := |fates| - 1;
    if c < n {
      PendingUpdate(fates[..n], c, f);
      assert fates[c := f][..n] == fates[..n][c := f];
    } else {
      assert fates[c := f][..n] == fates[..n];
    }
  }

  lemma {:induction false} ResetUpdate(resets: seq<bool>, r: nat)
    requires r < |resets| && !resets[r]
    ensures OpenResets(resets[r := true]) + 1 == OpenResets(resets)
  {
    var n := |resets| - 1;
    if r < n {
      ResetUpdate(resets[..n], r);
      assert resets[r := true][..n] == resets[..n][r := true];
    } else {
      assert resets[r := true][..n] == resets[..n];
    }
  }

  lemma MoveDecreases(s: Session, t: Session, i: nat, p: Phase)
    requires Moved(s, t, i, p)
    ensures Measure(t) < Measure(s)
  {
    WorkUpdate(s.requests, i, s.requests[i].(phase := p));
    assert (s.connections + [Pending])[..|s.connections|] == s.connections;
    assert (s.resets + [false])[..|s.resets|] == s.resets;
  }

  lemma SettlingDecreases(s: Session, step: Step)
    requires Enabled(s, step) && (step.ClearRead? || step.ConnectionSettles? || step.ResetSettles?)
    ensures Measure(Next(s, step)) < Measure(s)
  {
    match step {
      case ClearRead(i) =>
        assert s.openReads == (s.openReads - {i}) + {i};
      case ConnectionSettles(c, ok) =>
        PendingUpdate(s.connections, c, if ok then Opened else Refused);
      case ResetSettles(r) =>
        ResetUpdate(s.resets, r);
    }
  }

  /** Every step of the loop uses up work, whichever way a call or a check turns out. */
  lemma InternalStepsDecrease(s: Session, step: Step)
    requires Inv(s) && Enabled(s, step) && Internal(step)
    ensures Measure(Next(s, step)) < Measure(s)
  {
    if MovesRequest(step) {
      var p := StepMoves(s, step);
      MoveDecreases(s, Next(s, step), step.id, p);
    } else {
      SettlingDecreases(s, step);
    }
  }

  lemma FirstUnsettled(s: Session) returns (i: nat)
    requires exists j :: 0 <= j < |s.requests| && !s.requests[j].phase.Settled?
    ensures i < |s.requests| && !s.requests[i].phase.Settled?
    ensures forall j :: 0 <= j < i ==> s.requests[j].phase.Settled?
  {
    i := 0;
    while s.requests[i].phase.Settled?
      invariant i < |s.requests|
      invariant forall j :: 0 <= j < i ==> s.requests[j].phase.Settled?
      decreases |s.requests| - i
    {
      assert exists j :: i < j < |s.requests| && !s.requests[j].phase.Settled?;
      i := i + 1;
    }
  }

  /**
   Waits point only to earlier requests, so an unfinished queue can always take
   a step of its own: the oldest unsettled request runs, can start, or awaits a
   native call that has yet to settle.
   */
  lemma SomeStepIsPossible(s: Session) returns (step: Step)
    requires Inv(s) && !Quiet(s)
    ensures Internal(step) && Enabled(s, step)
  {
    if exists j :: 0 <= j < |s.requests| && !s.requests[j].phase.Settled? {
      var i := FirstUnsettled(s);
      assert PhaseOk(s, s.requests[i].phase, s.requests[i].mutation) && BarrierOk(s.requests, i);
      match s.requests[i].phase {
        case Waiting => step := Begin(i);
        case AwaitReset(r) =>
          step := if r.Some? && !s.resets[r.value] then ResetSettles(r.value) else Connect(i);
        case AwaitConnection(c) =>
          step := if s.connections[c].Pending? then ConnectionSettles(c, true) else Attach(i, true);
        case Registering(_) => step := Dispatch(i);
        case Native(_) => step := Return(i, Success);
      }
    } else {
      var i :| i in s.openReads;
      step := ClearRead(i);
    }
  }

  /** No schedule of the loop's own steps is longer than the work that is left. */
  lemma {:induction false} InternalRunsAreBounded(s: Session, steps: seq<Step>)
    requires Inv(s) && ValidRun(s, steps) && forall k :: 0 <= k < |steps| ==> Internal(steps[k])
    ensures |steps| <= Measure(s)
    ensures Measure(After(s, steps)) + |steps| <= Measure(s)
    decreases |steps|
  {
    if steps != [] {
      InternalStepsDecrease(s, steps[0]);
      StepKeepsInv(s, steps[0]);
      InternalRunsAreBounded(Next(s, steps[0]), steps[1..]);
    }
  }

  /** From every reachable state the loop alone reaches an empty queue. */
  lemma {:induction false} QueueDrains(s: Session) returns (steps: seq<Step>)
    requires Inv(s)
    ensures ValidRun(s, steps) && Quiet(After(s, steps))
    ensures forall k :: 0 <= k < |steps| ==> Internal(steps[k])
    decreases Measure(s)
  {
    if Quiet(s) {
      steps := [];
    } else {
      var step := SomeStepIsPossible(s);
      StepKeepsInv(s, step);
      InternalStepsDecrease(s, step);
      var rest := QueueDrains(Next(s, step));
      steps := [step] + rest;
      assert steps[1..] == rest;
    }
  }

  /** Every run of a new session, however its requests fail, abort or are disposed of, can still drain and cannot stall. */
  lemma EveryRunDrains(steps: seq<Step>, more: seq<Step>)
    requires ValidRun(Fresh, steps) && ValidRun(After(Fresh, steps), more)
    requires forall k :: 0 <= k < |more| ==> Internal(more[k])
    requires forall step :: Internal(step) ==> !Enabled(After(After(Fresh, steps), more), step)
    ensures Quiet(After(After(Fresh, steps), more))
    ensures |more| <= Measure(After(Fresh, steps))
  {
    FreshInv();
    RunKeepsInv(Fresh, steps);
    var s := After(Fresh, steps);
    RunKeepsInv(s, more);
    InternalRunsAreBounded(s, more);
    if !Quiet(After(s, more)) {
      var step := SomeStepIsPossible(After(s, more));
      assert false;
    }
  }
}
