/**
 The request queue of one Git session: readers and writers ordered by recorded
 barriers over settle promises, one lazily opened connection, and disposal. A
 request is known by its position in enqueue order. The session is a value
 `Session` stepped by `Next`; the class updates its fields step by step and each
 method is tied to the corresponding step.
 */
module GitSessions {
  import opened Common

  datatype Code = TransportError | ProtocolError | Cancelled | StaleConnection | SessionNotFound
                | OutcomeUnknown | OtherCode(text: string)

  /** Codes that end the connection they came over. */
  predicate Terminal(code: Option<Code>) {
    code.Some? && !code.value.OtherCode?
  }

  /** How the promise handed to the caller settles. */
  datatype Outcome = Value | Aborted | Closed | Unavailable | ReadFailed(code: Option<Code>) | Operation(operation: Code)

  /** What a native call reports. */
  datatype Reply = Success | Failure(code: Option<Code>)

  datatype Phase =
    | Waiting
    | AwaitReset(reset: Option<nat>)
    | AwaitConnection(dial: nat)
    | Registering(attempt: Option<nat>)
    | Native(attempt: Option<nat>)
    | Settled(outcome: Outcome)

  datatype Request = Request(mutation: bool, cancellable: bool, barrier: set<nat>, phase: Phase, aborted: bool)

  datatype Fate = Pending | Opened | Refused

  /** A native `git_request` leaves and comes back. */
  datatype Event = Start(id: nat) | End(id: nat)

  datatype Session = Session(
    requests: seq<Request>,
    writeBarrier: Option<nat>,
    openReads: set<nat>,
    connection: Option<nat>,
    connections: seq<Fate>,
    resetting: Option<nat>,
    resets: seq<bool>,
    closed: bool,
    disposal: bool,
    log: seq<Event>)

  const Fresh := Session([], None, {}, None, [], None, [], false, false, [])

  datatype Step =
    | Enqueue(mutation: bool, cancellable: bool)
    | Begin(id: nat)
    | Connect(id: nat)
    | Attach(id: nat, supported: bool)
    | Dispatch(id: nat)
    | RegisterFails(id: nat, code: Option<Code>)
    | Return(id: nat, reply: Reply)
    | ClearRead(id: nat)
    | ConnectionSettles(dial: nat, ok: bool)
    | ResetSettles(reset: nat)
    | Abort(id: nat)
    | Forget
    | Dispose

  // ---- The steps ----

  predicate SettledAt(requests: seq<Request>, i: nat) {
    i < |requests| && requests[i].phase.Settled?
  }

  function AtPhase(s: Session, i: nat, phase: Phase): Session
    requires i < |s.requests|
  {
    s.(requests := s.requests[i := s.requests[i].(phase := phase)])
  }

  function Forgotten(s: Session): Session {
    if s.resetting.None? then
      s.(connection := None, resetting := Some(|s.resets|), resets := s.resets + [false])
    else
      s.(connection := None)
  }

  /** A terminal failure lets go of the connection only if it is still the one this request used. */
  function AfterFailure(s: Session, attempt: Option<nat>, code: Option<Code>): Session {
    if Terminal(code) && attempt.Some? && s.connection == attempt then Forgotten(s) else s
  }

  function AfterEnqueue(s: Session, mutation: bool, cancellable: bool): Session {
    var id := |s.requests|;
    var last := if s.writeBarrier.Some? then {s.writeBarrier.value} else {};
    if mutation && cancellable then s
    else if mutation then
      s.(requests := s.requests + [Request(true, false, last + s.openReads, Waiting, false)], writeBarrier := Some(id))
    else
      s.(requests := s.requests + [Request(false, cancellable, last, Waiting, false)], openReads := s.openReads + {id})
  }

  function AfterBegin(s: Session, i: nat): Session
    requires i < |s.requests|
  {
    if s.requests[i].aborted then AtPhase(s, i, Settled(Aborted))
    else if s.closed then AtPhase(s, i, Settled(Closed))
    else AtPhase(s, i, AwaitReset(s.resetting))
  }

  function AfterConnect(s: Session, i: nat): Session
    requires i < |s.requests|
  {
    if s.closed then AtPhase(s, i, Settled(Closed))
    else if s.connection.Some? then AtPhase(s, i, AwaitConnection(s.connection.value))
    else
      var c := |s.connections|;
      AtPhase(s.(connection := Some(c), connections := s.connections + [Pending]), i, AwaitConnection(c))
  }

  function Started(s: Session, i: nat, attempt: Option<nat>): Session
    requires i < |s.requests|
  {
    AtPhase(s, i, Native(attempt)).(log := s.log + [Start(i)])
  }

  function AfterAttach(s: Session, i: nat, supported: bool): Session
    requires i < |s.requests| && s.requests[i].phase.AwaitConnection?
    requires s.requests[i].phase.dial < |s.connections|
  {
    var r := s.requests[i];
    if s.connections[r.phase.dial].Refused? then AtPhase(s, i, Settled(Unavailable))
    else if r.aborted then AtPhase(s, i, Settled(Aborted))
    else if s.closed then AtPhase(s, i, Settled(Closed))
    else if !supported then AtPhase(s, i, Settled(Unavailable))
    else if r.cancellable then AtPhase(s, i, Registering(s.connection))
    else Started(s, i, s.connection)
  }

  function AfterDispatch(s: Session, i: nat): Session
    requires i < |s.requests| && s.requests[i].phase.Registering?
  {
    if s.requests[i].aborted then AtPhase(s, i, Settled(Aborted))
    else if s.closed then AtPhase(s, i, Settled(Closed))
    else Started(s, i, s.requests[i].phase.attempt)
  }

  function AfterRegisterFails(s: Session, i: nat, code: Option<Code>): Session
    requires i < |s.requests| && s.requests[i].phase.Registering?
  {
    if s.requests[i].aborted then AtPhase(s, i, Settled(Aborted))
    else AtPhase(AfterFailure(s, s.requests[i].phase.attempt, code), i, Settled(ReadFailed(code)))
  }

  /** A write never reports a terminal failure as final: its outcome is unknown. */
  function OperationCode(code: Option<Code>): Code {
    if code.None? || Terminal(code) then OutcomeUnknown else code.value
  }

  function AfterReturn(s: Session, i: nat, reply: Reply): Session
    requires i < |s.requests| && s.requests[i].phase.Native?
  {
    var r := s.requests[i];
    var ended := s.(log := s.log + [End(i)]);
    var code := if reply.Success? then Some(OutcomeUnknown) else reply.code;
    if r.aborted then AtPhase(ended, i, Settled(Aborted))
    else if reply.Success? && !s.closed then AtPhase(ended, i, Settled(Value))
    else if r.mutation then
      AtPhase(AfterFailure(ended, r.phase.attempt, code), i, Settled(Operation(OperationCode(code))))
    else if reply.Success? then AtPhase(ended, i, Settled(Closed))
    else AtPhase(AfterFailure(ended, r.phase.attempt, code), i, Settled(ReadFailed(code)))
  }

  function AfterConnectionSettles(s: Session, c: nat, ok: bool): Session
    requires c < |s.connections|
  {
    var t := s.(connections := s.connections[c := if ok then Opened else Refused]);
    if !ok && s.connection == Some(c) then t.(connection := None) else t
  }

  function AfterResetSettles(s: Session, r: nat): Session
    requires r < |s.resets|
  {
    var t := s.(resets := s.resets[r := true]);
    if s.resetting == Some(r) then t.(resetting := None) else t
  }

  /** When the event loop may take a step. */
  predicate Enabled(s: Session, step: Step) {
    match step
    case Enqueue(_, _) => true
    case Begin(i) =>
      i < |s.requests| && s.requests[i].phase.Waiting? && forall b <- s.requests[i].barrier :: SettledAt(s.requests, b)
    case Connect(i) =>
      && i < |s.requests| && s.requests[i].phase.AwaitReset?
      && (s.requests[i].phase.reset.Some? ==>
            s.requests[i].phase.reset.value < |s.resets| && s.resets[s.requests[i].phase.reset.value])
    case Attach(i, _) =>
      && i < |s.requests| && s.requests[i].phase.AwaitConnection?
      && s.requests[i].phase.dial < |s.connections| && !s.connections[s.requests[i].phase.dial].Pending?
    case Dispatch(i) => i < |s.requests| && s.requests[i].phase.Registering?
    case RegisterFails(i, _) => i < |s.requests| && s.requests[i].phase.Registering?
    case Return(i, _) => i < |s.requests| && s.requests[i].phase.Native?
    case ClearRead(i) => i in s.openReads && SettledAt(s.requests, i)
    case ConnectionSettles(c, _) => c < |s.connections| && s.connections[c].Pending?
    case ResetSettles(r) => r < |s.resets| && !s.resets[r]
    case Abort(i) => i < |s.requests| && s.requests[i].cancellable
    case Forget => true
    case Dispose => true
  }

  function Next(s: Session, step: Step): Session
    requires Enabled(s, step)
  {
    match step
    case Enqueue(mutation, cancellable) => AfterEnqueue(s, mutation, cancellable)
    case Begin(i) => AfterBegin(s, i)
    case Connect(i) => AfterConnect(s, i)
    case Attach(i, supported) => AfterAttach(s, i, supported)
    case Dispatch(i) => AfterDispatch(s, i)
    case RegisterFails(i, code) => AfterRegisterFails(s, i, code)
    case Return(i, reply) => AfterReturn(s, i, reply)
    case ClearRead(i) => s.(openReads := s.openReads - {i})
    case ConnectionSettles(c, ok) => AfterConnectionSettles(s, c, ok)
    case ResetSettles(r) => AfterResetSettles(s, r)
    case Abort(i) => s.(requests := s.requests[i := s.requests[i].(aborted := true)])
    case Forget => Forgotten(s)
    case Dispose => s.(closed := true, disposal := true)
  }

  ghost predicate ValidRun(s: Session, steps: seq<Step>)
    decreases |steps|
  {
    steps == [] || (Enabled(s, steps[0]) && ValidRun(Next(s, steps[0]), steps[1..]))
  }

  ghost function After(s: Session, steps: seq<Step>): Session
    requires ValidRun(s, steps)
    decreases |steps|
  {
    if steps == [] then s else After(Next(s, steps[0]), steps[1..])
  }

  // ---- The session object ----

  class GitSession {
    var requests: seq<Request>
    var writeBarrier: Option<nat>
    var openReads: set<nat>
    var connection: Option<nat>
    var connections: seq<Fate>
    var resetting: Option<nat>
    var resets: seq<bool>
    var closed: bool
    var disposal: bool
    ghost var log: seq<Event>

    ghost function View(): Session
      reads this
    {
      Session(requests, writeBarrier, openReads, connection, connections, resetting, resets, closed, disposal, log)
    }

    constructor ()
      ensures View() == Fresh
    {
      requests, writeBarrier, openReads := [], None, {};
      connection, connections, resetting, resets := None, [], None, [];
      closed, disposal, log := false, false, [];
    }

    /** Captures the barrier at enqueue time; a cancellable write is rejected on the spot. */
    method Submit(mutation: bool, cancellable: bool) returns (accepted: bool)
      modifies this
      ensures View() == Next(old(View()), Enqueue(mutation, cancellable))
      ensures accepted <==> |requests| == |old(requests)| + 1
    {
      if cancellable && mutation {
        return false;
      }
      var id := |requests|;
      var barrier := if writeBarrier.Some? then {writeBarrier.value} else {};
      if mutation {
        barrier := barrier + openReads;
      }
      requests := requests + [Request(mutation, cancellable, barrier, Waiting, false)];
      if mutation {
        writeBarrier := Some(id);
      } else {
        openReads := openReads + {id};
      }
      return true;
    }

    method SetPhase(i: nat, phase: Phase)
      requires i < |requests|
      modifies this`requests
      ensures View() == AtPhase(old(View()), i, phase)
    {
      requests := requests[i := requests[i].(phase := phase)];
    }

    /** The barrier of a waiting request has settled: its body runs. */
    method BarrierSettled(i: nat)
      requires Enabled(View(), Begin(i))
      modifies this
      ensures View() == Next(old(View()), Begin(i))
    {
      if requests[i].aborted {
        SetPhase(i, Settled(Aborted));
      } else if closed {
        SetPhase(i, Settled(Closed));
      } else {
        SetPhase(i, AwaitReset(resetting));
      }
    }

    /** `connect` after its awaited reset: one connection is shared by all callers. */
    method ConnectAfterReset(i: nat)
      requires Enabled(View(), Connect(i))
      modifies this
      ensures View() == Next(old(View()), Connect(i))
    {
      if closed {
        SetPhase(i, Settled(Closed));
        return;
      }
      if connection.None? {
        connection := Some(|connections|);
        connections := connections + [Pending];
      }
      SetPhase(i, AwaitConnection(connection.value));
    }

    method Connected(i: nat, supported: bool)
      requires Enabled(View(), Attach(i, supported))
      modifies this
      ensures View() == Next(old(View()), Attach(i, supported))
    {
      var request := requests[i];
      if connections[request.phase.dial].Refused? {
        SetPhase(i, Settled(Unavailable));
      } else if request.aborted {
        SetPhase(i, Settled(Aborted));
      } else if closed {
        SetPhase(i, Settled(Closed));
      } else if !supported {
        SetPhase(i, Settled(Unavailable));
      } else if request.cancellable {
        SetPhase(i, Registering(connection));
      } else {
        SetPhase(i, Native(connection));
        log := log + [Start(i)];
      }
    }

    method Registered(i: nat)
      requires Enabled(View(), Dispatch(i))
      modifies this
      ensures View() == Next(old(View()), Dispatch(i))
    {
      if requests[i].aborted {
        SetPhase(i, Settled(Aborted));
      } else if closed {
        SetPhase(i, Settled(Closed));
      } else {
        SetPhase(i, Native(requests[i].phase.attempt));
        log := log + [Start(i)];
      }
    }

    method RegistrationFailed(i: nat, code: Option<Code>)
      requires Enabled(View(), RegisterFails(i, code))
      modifies this
      ensures View() == Next(old(View()), RegisterFails(i, code))
    {
      if requests[i].aborted {
        SetPhase(i, Settled(Aborted));
        return;
      }
      var attempt := requests[i].phase.attempt;
      if Terminal(code) && attempt.Some? && connection == attempt {
        Forget();
      }
      SetPhase(i, Settled(ReadFailed(code)));
    }

    method NativeReturned(i: nat, reply: Reply)
      requires Enabled(View(), Return(i, reply))
      modifies this
      ensures View() == Next(old(View()), Return(i, reply))
    {
      var request := requests[i];
      log := log + [End(i)];
      if request.aborted {
        SetPhase(i, Settled(Aborted));
        return;
      }
      var code := Some(OutcomeUnknown);
      match reply {
        case Success =>
          if !closed {
            SetPhase(i, Settled(Value));
            return;
          }
          if !request.mutation {
            SetPhase(i, Settled(Closed));
            return;
          }
        case Failure(reported) =>
          code := reported;
      }
      if Terminal(code) && request.phase.attempt.Some? && connection == request.phase.attempt {
        Forget();
      }
      SetPhase(i, Settled(if request.mutation then Operation(OperationCode(code)) else ReadFailed(code)));
    }

    method ReadSettled(i: nat)
      requires Enabled(View(), ClearRead(i))
      modifies this
      ensures View() == Next(old(View()), ClearRead(i))
    {
      openReads := openReads - {i};
    }

    method ConnectionSettled(c: nat, ok: bool)
      requires Enabled(View(), ConnectionSettles(c, ok))
      modifies this
      ensures View() == Next(old(View()), ConnectionSettles(c, ok))
    {
      connections := connections[c := if ok then Opened else Refused];
      if !ok && connection == Some(c) {
        connection := None;
      }
    }

    method ResetSettled(r: nat)
      requires Enabled(View(), ResetSettles(r))
      modifies this
      ensures View() == Next(old(View()), ResetSettles(r))
    {
      resets := resets[r := true];
      if resetting == Some(r) {
        resetting := None;
      }
    }

    method AbortRead(i: nat)
      requires Enabled(View(), Abort(i))
      modifies this
      ensures View() == Next(old(View()), Abort(i))
    {
      requests := requests[i := requests[i].(aborted := true)];
    }

    method Forget()
      modifies this
      ensures View() == Next(old(View()), Step.Forget)
      ensures requests == old(requests)
    {
      connection := None;
      if resetting.None? {
        resetting := Some(|resets|);
        resets := resets + [false];
      }
    }

    method Dispose()
      modifies this
      ensures View() == Next(old(View()), Step.Dispose)
    {
      closed := true;
      disposal := true;
    }
  }
}
