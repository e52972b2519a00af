/**
 The clipboard reply scheduler: at most eight reads and replies at a time, one
 frame per turn, round robin, and cancellation when the clipboard revision moves
 on. A request is known by its arrival number, its ticket. Compression is a
 parameter with its inverse.
 */
module Clipboard {
  import opened Common

  type Byte = b: int | 0 <= b < 256
  type Bytes = seq<Byte>

  const LIMIT: nat := 8
  /** Status of a frame that ends a reply without its data. */
  const FAILED := 1

  datatype Chunk = Chunk(status: int, bytes: Bytes)

  /** `done` marks the last frame of a ticket. */
  datatype Frame = Frame(ticket: nat, chunk: Chunk, done: bool)

  datatype Reply = Reply(ticket: nat, revision: int, chunks: Option<seq<Chunk>>)

  datatype Loop = Loop(
    revisions: seq<int>,
    pending: set<nat>,
    replies: seq<Reply>,
    sent: seq<Frame>,
    refused: set<nat>,
    prepared: map<nat, Option<seq<Chunk>>>,
    stale: set<nat>)

  const Idle := Loop([], {}, [], [], {}, map[], {})

  const Failure := Chunk(FAILED, [])

  // ---- Preparing a reply ----

  datatype Codec = Codec(compress: Bytes -> Chunk, expand: Chunk -> Bytes) {
    ghost predicate Inverse() {
      && (forall b :: expand(compress(b)) == b && compress(b).status != FAILED)
      && expand(Chunk(0, [])) == []
    }
  }

  /** The bytes cut into pieces of at most `size`. */
  function Pieces(bytes: Bytes, size: nat): seq<Bytes>
    requires size > 0
    decreases |bytes|
  {
    if bytes == [] then []
    else if |bytes| <= size then [bytes]
    else [bytes[..size]] + Pieces(bytes[size..], size)
  }

  function Compressed(codec: Codec, pieces: seq<Bytes>): (r: seq<Chunk>)
    ensures |r| == |pieces|
  {
    if pieces == [] then [] else [codec.compress(pieces[0])] + Compressed(codec, pieces[1..])
  }

  /** What a successful read is sent as; even an empty clipboard takes one frame. */
  function Prepare(codec: Codec, bytes: Bytes, size: nat): (r: seq<Chunk>)
    requires size > 0
    ensures |r| > 0
  {
    if bytes == [] then [Chunk(0, [])] else Compressed(codec, Pieces(bytes, size))
  }

  function Expanded(codec: Codec, chunks: seq<Chunk>): Bytes {
    if chunks == [] then [] else codec.expand(chunks[0]) + Expanded(codec, chunks[1..])
  }

  lemma ExpandFirst(codec: Codec, first: Bytes, rest: seq<Bytes>)
    requires codec.Inverse()
    ensures Expanded(codec, Compressed(codec, [first] + rest)) == first + Expanded(codec, Compressed(codec, rest))
  {
    assert ([first] + rest)[1..] == rest;
    assert Compressed(codec, [first] + rest)[1..] == Compressed(codec, rest);
  }

  lemma {:induction false} ExpandCompressed(codec: Codec, bytes: Bytes, size: nat)
    requires codec.Inverse() && size > 0
    ensures Expanded(codec, Compressed(codec, Pieces(bytes, size))) == bytes
    decreases |bytes|
  {
    if |bytes| > size {
      ExpandCompressed(codec, bytes[size..], size);
      ExpandFirst(codec, bytes[..size], Pieces(bytes[size..], size));
      assert bytes == bytes[..size] + bytes[size..];
    } else if bytes != [] {
      ExpandFirst(codec, bytes, []);
      assert [bytes] + [] == [bytes];
    }
  }

  /** Expanding what was prepared gives back the clipboard. */
  lemma ExpandPrepared(codec: Codec, bytes: Bytes, size: nat)
    requires codec.Inverse() && size > 0
    ensures Expanded(codec, Prepare(codec, bytes, size)) == bytes
  {
    if bytes == [] {
      assert [Chunk(0, [])][1..] == [];
    } else {
      ExpandCompressed(codec, bytes, size);
    }
  }

  // ---- Steps ----

  /** A request arrives, a read finishes, or the loop takes a turn while the clipboard is at `current`. */
  datatype Step =
    | Arrive(revision: int)
    | Finish(ticket: nat, chunks: Option<seq<Chunk>>)
    | Turn(current: Option<int>)

  predicate Enabled(s: Loop, step: Step) {
    match step
    case Arrive(_) => true
    case Finish(t, chunks) => t in s.pending && t < |s.revisions| && (chunks.Some? ==> chunks.value != [])
    case Turn(_) => s.replies != []
  }

  function AfterArrive(s: Loop, revision: int): Loop {
    var t := |s.revisions|;
    var u := s.(revisions := s.revisions + [revision]);
    if |s.pending| + |s.replies| >= LIMIT then
      u.(sent := s.sent + [Frame(t, Failure, true)], refused := s.refused + {t})
    else
      u.(pending := s.pending + {t})
  }

  /** The chunks still good for sending: none once the clipboard has moved on. */
  function Usable(r: Reply, current: Option<int>): Option<seq<Chunk>> {
    if current == Some(r.revision) then r.chunks else None
  }

  function NextFrame(r: Reply, current: Option<int>): Frame {
    var chunks := Usable(r, current);
    if chunks.None? || chunks.value == [] then Frame(r.ticket, Failure, true)
    else Frame(r.ticket, chunks.value[0], |chunks.value| == 1)
  }

  function AfterTurn(s: Loop, current: Option<int>): Loop
    requires s.replies != []
  {
    var r := s.replies[0];
    var frame := NextFrame(r, current);
    var rest := if frame.done then s.replies[1..]
                else s.replies[1..] + [r.(chunks := Some(r.chunks.value[1..]))];
    s.(sent := s.sent + [frame], replies := rest,
       stale := if current == Some(r.revision) then s.stale else s.stale + {r.ticket})
  }

  function Next(s: Loop, step: Step): Loop
    requires Enabled(s, step)
  {
    match step
    case Arrive(revision) => AfterArrive(s, revision)
    case Finish(t, chunks) =>
      s.(pending := s.pending - {t}, replies := s.replies + [Reply(t, s.revisions[t], chunks)],
         prepared := s.prepared[t := chunks])
    case Turn(current) => AfterTurn(s, current)
  }

  ghost predicate ValidRun(s: Loop, steps: seq<Step>)
    decreases |steps|
  {
    steps == [] || (Enabled(s, steps[0]) && ValidRun(Next(s, steps[0]), steps[1..]))
  }

  ghost function After(s: Loop, steps: seq<Step>): Loop
    requires ValidRun(s, steps)
    decreases |steps|
  {
    if steps == [] then s else After(Next(s, steps[0]), steps[1..])
  }

  // ---- The loop's own state ----

  class Integration {
    var revisions: seq<int>
    var openReads: set<nat>
    var replies: seq<Reply>
    ghost var sent: seq<Frame>
    ghost var refused: set<nat>
    ghost var prepared: map<nat, Option<seq<Chunk>>>
    ghost var stale: set<nat>

    ghost function View(): Loop
      reads this
    {
      Loop(revisions, openReads, replies, sent, refused, prepared, stale)
    }

    constructor ()
      ensures View() == Idle
    {
      revisions, openReads, replies := [], {}, [];
      sent, refused, prepared, stale := [], {}, map[], {};
    }

    /** A clipboard request: refused at once, with the frame returned, or handed to a reader. */
    method OnRequest(revision: int) returns (frame: Option<Frame>)
      modifies this
      ensures View() == Next(old(View()), Arrive(revision))
      ensures sent == old(sent) + (if frame.Some? then [frame.value] else [])
    {
      var ticket := |revisions|;
      revisions := revisions + [revision];
      if |openReads| + |replies| >= LIMIT {
        frame := Some(Frame(ticket, Failure, true));
        sent, refused := sent + [frame.value], refused + {ticket};
      } else {
        frame := None;
        openReads := openReads + {ticket};
      }
    }

    method OnRead(ticket: nat, chunks: Option<seq<Chunk>>)
      requires Enabled(View(), Finish(ticket, chunks))
      modifies this
      ensures View() == Next(old(View()), Finish(ticket, chunks))
    {
      openReads := openReads - {ticket};
      replies := replies + [Reply(ticket, revisions[ticket], chunks)];
      prepared := prepared[ticket := chunks];
    }

    /** A turn of the loop: the reply at the front sends one frame. */
    method SendOne(current: Option<int>) returns (frame: Frame)
      requires Enabled(View(), Turn(current))
      modifies this
      ensures View() == Next(old(View()), Turn(current))
      ensures sent == old(sent) + [frame]
    {
      var reply := replies[0];
      replies := replies[1..];
      if current != Some(reply.revision) {
        reply := reply.(chunks := None);
        stale := stale + {reply.ticket};
      }
      if reply.chunks.Some? && reply.chunks.value != [] {
        var chunk := reply.chunks.value[0];
        reply := reply.(chunks := Some(reply.chunks.value[1..]));
        frame := Frame(reply.ticket, chunk, reply.chunks.value == []);
      } else {
        frame := Frame(reply.ticket, Failure, true);
      }
      sent := sent + [frame];
      if !frame.done {
        replies := replies + [reply];
      }
    }
  }

  // ---- What has been sent for one ticket ----

  function FramesOf(sent: seq<Frame>, t: nat): seq<Frame> {
    if sent == [] then []
    else
      var last := sent[|sent| - 1];
      FramesOf(sent[..|sent| - 1], t) + if last.ticket == t then [last] else []
  }

  lemma FramesOfMore(sent: seq<Frame>, f: Frame, t: nat)
    ensures FramesOf(sent + [f], t) == FramesOf(sent, t) + if f.ticket == t then [f] else []
  {
    assert (sent + [f])[..|sent|] == sent;
  }

  /** The first `n` chunks, none of them final. */
  function Opening(t: nat, chunks: seq<Chunk>, n: nat): (r: seq<Frame>)
    requires n <= |chunks|
    ensures |r| == n && forall i :: 0 <= i < n ==> r[i] == Frame(t, chunks[i], false)
  {
    seq(n, i requires 0 <= i < n => Frame(t, chunks[i], false))
  }

  /** All chunks, the last one final. */
  predicate SentAll(frames: seq<Frame>, t: nat, chunks: seq<Chunk>) {
    && chunks != []
    && frames == Opening(t, chunks, |chunks| - 1) + [Frame(t, chunks[|chunks| - 1], true)]
  }

  /** The first `n` chunks, not all of them, then a final failure frame. */
  predicate CutAt(frames: seq<Frame>, t: nat, chunks: seq<Chunk>, n: nat) {
    n < |chunks| && frames == Opening(t, chunks, n) + [Frame(t, Failure, true)]
  }

  predicate SentPart(frames: seq<Frame>, t: nat, chunks: seq<Chunk>) {
    exists n :: 0 <= n < |chunks| && CutAt(frames, t, chunks, n)
  }

  /** `rest` of the chunks is still to be sent; a failed read has sent nothing yet. */
  predicate Unfinished(frames: seq<Frame>, r: Reply, prepared: Option<seq<Chunk>>) {
    match prepared
    case None => r.chunks.None? && frames == []
    case Some(all) =>
      && r.chunks.Some? && r.chunks.value != [] && |r.chunks.value| <= |all|
      && r.chunks.value == all[|all| - |r.chunks.value|..]
      && frames == Opening(r.ticket, all, |all| - |r.chunks.value|)
  }

  predicate Finished(s: Loop, t: nat) {
    var frames := FramesOf(s.sent, t);
    if t in s.refused then t !in s.prepared && t !in s.stale && frames == [Frame(t, Failure, true)]
    else
      && t in s.prepared
      && (s.prepared[t].None? ==> frames == [Frame(t, Failure, true)])
      && (s.prepared[t].Some? ==>
            if t in s.stale then SentPart(frames, t, s.prepared[t].value) else SentAll(frames, t, s.prepared[t].value))
  }

  /** The place of a ticket's reply in the queue. */
  predicate QueuedAt(s: Loop, p: nat, t: nat) {
    p < |s.replies| && s.replies[p].ticket == t
  }

  ghost predicate Queued(s: Loop, t: nat) {
    exists p :: QueuedAt(s, p, t)
  }

  predicate ReplyOk(s: Loop, r: Reply) {
    && r.ticket < |s.revisions| && r.revision == s.revisions[r.ticket]
    && r.ticket !in s.pending && r.ticket !in s.refused && r.ticket !in s.stale
    && r.ticket in s.prepared
    && Unfinished(FramesOf(s.sent, r.ticket), r, s.prepared[r.ticket])
  }

  /** Nothing is known of a ticket that is being read or has not arrived. */
  ghost predicate Untouched(s: Loop, t: nat) {
    FramesOf(s.sent, t) == [] && t !in s.refused && t !in s.prepared && t !in s.stale && !Queued(s, t)
  }

  ghost predicate TicketOk(s: Loop, t: nat) {
    if t in s.pending then t < |s.revisions| && Untouched(s, t)
    else if t >= |s.revisions| then Untouched(s, t)
    else Queued(s, t) || Finished(s, t)
  }

  ghost predicate OneReplyEach(replies: seq<Reply>) {
    forall p, q :: 0 <= p < q < |replies| ==> replies[p].ticket != replies[q].ticket
  }

  ghost predicate Inv(s: Loop) {
    && |s.pending| + |s.replies| <= LIMIT
    && OneReplyEach(s.replies)
    && (forall p :: 0 <= p < |s.replies| ==> ReplyOk(s, s.replies[p]))
    && (forall t: nat :: TicketOk(s, t))
  }

  // ---- Every step keeps the invariant ----

  /** Nothing about ticket `t` alone has changed. */
  ghost predicate SameFor(s: Loop, u: Loop, t: nat) {
    && FramesOf(u.sent, t) == FramesOf(s.sent, t)
    && (t in u.refused <==> t in s.refused)
    && (t in u.prepared <==> t in s.prepared)
    && (t in s.prepared ==> u.prepared[t] == s.prepared[t])
    && (t in u.stale <==> t in s.stale)
    && (t in u.pending <==> t in s.pending)
    && s.revisions <= u.revisions
  }

  lemma KeepsReply(s: Loop, u: Loop, r: Reply)
    requires ReplyOk(s, r) && SameFor(s, u, r.ticket)
    ensures ReplyOk(u, r)
  {
  }

  lemma KeepsTicket(s: Loop, u: Loop, t: nat)
    requires TicketOk(s, t) && SameFor(s, u, t) && (Queued(s, t) <==> Queued(u, t))
    requires t < |s.revisions| || t >= |u.revisions|
    ensures TicketOk(u, t)
  {
  }

  lemma ArriveKeepsInv(s: Loop, revision: int)
    requires Inv(s)
    ensures Inv(AfterArrive(s, revision))
  {
    var u, t0 := AfterArrive(s, revision), |s.revisions|;
    assert TicketOk(s, t0);
    forall t | t != t0 ensures SameFor(s, u, t) {
      FramesOfMore(s.sent, Frame(t0, Failure, true), t);
    }
    forall p | 0 <= p < |u.replies| ensures ReplyOk(u, u.replies[p]) {
      KeepsReply(s, u, s.replies[p]);
    }
    forall t: nat ensures TicketOk(u, t) {
      assert TicketOk(s, t);
      assert forall p :: QueuedAt(u, p, t) <==> QueuedAt(s, p, t);
      if t != t0 {
        KeepsTicket(s, u, t);
      } else {
        FramesOfMore(s.sent, Frame(t0, Failure, true), t);
      }
    }
  }

  lemma FinishKeepsInv(s: Loop, t0: nat, chunks: Option<seq<Chunk>>)
    requires Inv(s) && Enabled(s, Finish(t0, chunks))
    ensures Inv(Next(s, Finish(t0, chunks)))
  {
    var u := Next(s, Finish(t0, chunks));
    var added := Reply(t0, s.revisions[t0], chunks);
    assert TicketOk(s, t0);
    forall t | t != t0 ensures SameFor(s, u, t) {}
    forall p | 0 <= p < |u.replies| ensures ReplyOk(u, u.replies[p]) && (p < |s.replies| ==> u.replies[p].ticket != t0) {
      if p < |s.replies| {
        assert QueuedAt(s, p, s.replies[p].ticket);
        KeepsReply(s, u, s.replies[p]);
      } else {
        assert u.replies[p] == added;
      }
    }
    forall t: nat ensures TicketOk(u, t) {
      assert TicketOk(s, t);
      if t == t0 {
        assert QueuedAt(u, |s.replies|, t);
      } else {
        assert forall p :: QueuedAt(u, p, t) <==> QueuedAt(s, p, t);
        KeepsTicket(s, u, t);
      }
    }
  }

  /** After the first `n` chunks and a failure frame, part has been sent. */
  lemma CutShort(frames: seq<Frame>, t: nat, all: seq<Chunk>, n: nat)
    requires n < |all| && frames == Opening(t, all, n) + [Frame(t, Failure, true)]
    ensures SentPart(frames, t, all)
  {
    assert CutAt(frames, t, all, n);
  }

  lemma Completed(frames: seq<Frame>, t: nat, all: seq<Chunk>)
    requires all != [] && frames == Opening(t, all, |all| - 1) + [Frame(t, all[|all| - 1], true)]
    ensures SentAll(frames, t, all)
  {
  }

  lemma OneMore(t: nat, all: seq<Chunk>, n: nat)
    requires n < |all|
    ensures Opening(t, all, n + 1) == Opening(t, all, n) + [Frame(t, all[n], false)]
  {
  }

  /** What a ticket knows after the turn of its reply, but for its new frame and its staleness, is what it knew. */
  lemma TurnOfFirst(s: Loop, current: Option<int>)
    requires s.replies != [] && ReplyOk(s, s.replies[0])
    ensures var u, t := AfterTurn(s, current), s.replies[0].ticket;
            && FramesOf(u.sent, t) == FramesOf(s.sent, t) + [NextFrame(s.replies[0], current)]
            && u.revisions == s.revisions && u.pending == s.pending && u.refused == s.refused && u.prepared == s.prepared
            && (t in u.stale <==> current != Some(s.replies[0].revision))
  {
    FramesOfMore(s.sent, NextFrame(s.replies[0], current), s.replies[0].ticket);
  }

  /** The frames of the reply at the front are the first chunks, and the rest is still there to send. */
  lemma FirstOfRest(all: seq<Chunk>, rest: seq<Chunk>)
    requires rest != [] && |rest| <= |all| && rest == all[|all| - |rest|..]
    ensures rest[0] == all[|all| - |rest|] && rest[1..] == all[|all| - |rest| + 1..]
  {
  }

  lemma StaleTurn(s: Loop, current: Option<int>)
    requires s.replies != [] && ReplyOk(s, s.replies[0]) && current != Some(s.replies[0].revision)
    ensures Finished(AfterTurn(s, current), s.replies[0].ticket)
  {
    var r := s.replies[0];
    TurnOfFirst(s, current);
    if s.prepared[r.ticket].Some? {
      var all := s.prepared[r.ticket].value;
      CutShort(FramesOf(AfterTurn(s, current).sent, r.ticket), r.ticket, all, |all| - |r.chunks.value|);
    }
  }

  lemma FailedTurn(s: Loop, current: Option<int>)
    requires s.replies != [] && ReplyOk(s, s.replies[0])
    requires current == Some(s.replies[0].revision) && s.replies[0].chunks.None?
    ensures Finished(AfterTurn(s, current), s.replies[0].ticket)
  {
    TurnOfFirst(s, current);
  }

  lemma LastTurn(s: Loop, current: Option<int>)
    requires s.replies != [] && ReplyOk(s, s.replies[0]) && current == Some(s.replies[0].revision)
    requires s.replies[0].chunks.Some? && |s.replies[0].chunks.value| == 1
    ensures Finished(AfterTurn(s, current), s.replies[0].ticket)
  {
    var r := s.replies[0];
    var t, all := r.ticket, s.prepared[r.ticket].value;
    TurnOfFirst(s, current);
    FirstOfRest(all, r.chunks.value);
    assert NextFrame(r, current) == Frame(t, all[|all| - 1], true);
    Completed(FramesOf(AfterTurn(s, current).sent, t), t, all);
  }

  lemma MiddleTurn(s: Loop, current: Option<int>)
    requires s.replies != [] && ReplyOk(s, s.replies[0]) && current == Some(s.replies[0].revision)
    requires s.replies[0].chunks.Some? && |s.replies[0].chunks.value| > 1
    ensures var r := s.replies[0]; ReplyOk(AfterTurn(s, current), r.(chunks := Some(r.chunks.value[1..])))
  {
    var r := s.replies[0];
    var all, rest := s.prepared[r.ticket].value, r.chunks.value;
    TurnOfFirst(s, current);
    FirstOfRest(all, rest);
    OneMore(r.ticket, all, |all| - |rest|);
  }

  /** Which turn is a reply's last. */
  lemma LastFrameWhen(r: Reply, current: Option<int>)
    ensures NextFrame(r, current).done <==>
              current != Some(r.revision) || r.chunks.None? || |r.chunks.value| <= 1
  {
  }

  lemma FinalTurn(s: Loop, current: Option<int>)
    requires s.replies != [] && ReplyOk(s, s.replies[0]) && NextFrame(s.replies[0], current).done
    ensures Finished(AfterTurn(s, current), s.replies[0].ticket)
  {
    LastFrameWhen(s.replies[0], current);
    if current != Some(s.replies[0].revision) {
      StaleTurn(s, current);
    } else if s.replies[0].chunks.None? {
      FailedTurn(s, current);
    } else {
      LastTurn(s, current);
    }
  }

  /** The frame a turn sends either leaves its reply unfinished or finishes its ticket. */
  lemma OneTurn(s: Loop, current: Option<int>)
    requires s.replies != [] && ReplyOk(s, s.replies[0])
    ensures var u := AfterTurn(s, current);
            var r := s.replies[0];
            if NextFrame(r, current).done then Finished(u, r.ticket)
            else r.chunks.Some? && r.chunks.value != [] && ReplyOk(u, r.(chunks := Some(r.chunks.value[1..])))
  {
    LastFrameWhen(s.replies[0], current);
    if NextFrame(s.replies[0], current).done {
      FinalTurn(s, current);
    } else {
      MiddleTurn(s, current);
    }
  }

  lemma TurnMoves(s: Loop, current: Option<int>, t: nat)
    requires s.replies != [] && OneReplyEach(s.replies)
    ensures var u := AfterTurn(s, current);
            var frame := NextFrame(s.replies[0], current);
            Queued(u, t) <==> (if t == s.replies[0].ticket then !frame.done else Queued(s, t))
  {
    var u, t0 := AfterTurn(s, current), s.replies[0].ticket;
    if t == t0 {
      assert !NextFrame(s.replies[0], current).done ==> QueuedAt(u, |s.replies| - 1, t);
    } else {
      forall p: nat ensures QueuedAt(u, p, t) <==> QueuedAt(s, p + 1, t) {}
      if Queued(s, t) {
        var p: nat :| QueuedAt(s, p, t);
        assert QueuedAt(u, p - 1, t);
      }
    }
  }

  lemma TurnIsLocal(s: Loop, current: Option<int>, t: nat)
    requires s.replies != [] && t != s.replies[0].ticket
    ensures SameFor(s, AfterTurn(s, current), t)
  {
    FramesOfMore(s.sent, NextFrame(s.replies[0], current), t);
  }

  lemma TurnKeepsReplies(s: Loop, current: Option<int>, p: nat)
    requires Inv(s) && Enabled(s, Turn(current)) && p < |AfterTurn(s, current).replies|
    ensures ReplyOk(AfterTurn(s, current), AfterTurn(s, current).replies[p])
  {
    var u, r := AfterTurn(s, current), s.replies[0];
    if p < |s.replies| - 1 {
      assert u.replies[p] == s.replies[p + 1];
      TurnIsLocal(s, current, s.replies[p + 1].ticket);
      KeepsReply(s, u, s.replies[p + 1]);
    } else {
      OneTurn(s, current);
      assert u.replies[p] == r.(chunks := Some(r.chunks.value[1..]));
    }
  }

  lemma TurnKeepsTickets(s: Loop, current: Option<int>, t: nat)
    requires Inv(s) && Enabled(s, Turn(current))
    ensures TicketOk(AfterTurn(s, current), t)
  {
    var u, r := AfterTurn(s, current), s.replies[0];
    assert TicketOk(s, t);
    TurnMoves(s, current, t);
    if t != r.ticket {
      TurnIsLocal(s, current, t);
      KeepsTicket(s, u, t);
    } else {
      OneTurn(s, current);
    }
  }

  lemma TurnKeepsPlaces(s: Loop, current: Option<int>)
    requires s.replies != [] && OneReplyEach(s.replies)
    ensures OneReplyEach(AfterTurn(s, current).replies) && |AfterTurn(s, current).replies| <= |s.replies|
  {
    var u, r := AfterTurn(s, current), s.replies[0];
    forall p, q | 0 <= p < q < |u.replies| ensures u.replies[p].ticket != u.replies[q].ticket {
      assert u.replies[p] == s.replies[p + 1];
      assert q < |s.replies| - 1 ==> u.replies[q] == s.replies[q + 1];
      assert q == |s.replies| - 1 ==> u.replies[q].ticket == r.ticket;
    }
  }

  lemma TurnKeepsInv(s: Loop, current: Option<int>)
    requires Inv(s) && Enabled(s, Turn(current))
    ensures Inv(AfterTurn(s, current))
  {
    var u := AfterTurn(s, current);
    forall p | 0 <= p < |u.replies| ensures ReplyOk(u, u.replies[p]) { TurnKeepsReplies(s, current, p); }
    forall t: nat ensures TicketOk(u, t) { TurnKeepsTickets(s, current, t); }
    TurnKeepsPlaces(s, current);
  }

  lemma StepKeepsInv(s: Loop, step: Step)
    requires Inv(s) && Enabled(s, step)
    ensures Inv(Next(s, step))
  {
    match step
    case Arrive(revision) => ArriveKeepsInv(s, revision);
    case Finish(t, chunks) => FinishKeepsInv(s, t, chunks);
    case Turn(current) => TurnKeepsInv(s, current);
  }

  /** At every moment of every run at most eight requests are being read or answered. */
  lemma {:induction false} RunKeepsInv(s: Loop, steps: seq<Step>)
    requires Inv(s) && ValidRun(s, steps)
    ensures Inv(After(s, steps))
    ensures |After(s, steps).pending| + |After(s, steps).replies| <= LIMIT
    decreases |steps|
  {
    if steps != [] {
      StepKeepsInv(s, steps[0]);
      RunKeepsInv(Next(s, steps[0]), steps[1..]);
    }
  }

  lemma IdleInv()
    ensures Inv(Idle)
  {
  }

  // ---- What the receiver of one ticket sees ----

  predicate Closed(frames: seq<Frame>) {
    frames != [] && frames[|frames| - 1].done
  }

  function ChunksOf(frames: seq<Frame>): (r: seq<Chunk>)
    ensures |r| == |frames| && forall i :: 0 <= i < |r| ==> r[i] == frames[i].chunk
  {
    seq(|frames|, i requires 0 <= i < |frames| => frames[i].chunk)
  }

  /** The ticket cannot get all its chunks: it was refused, went stale or its read failed. */
  predicate Failing(s: Loop, t: nat) {
    t in s.refused || t in s.stale || (t in s.prepared && s.prepared[t].None?)
  }

  function PreparedFor(s: Loop, t: nat): seq<Chunk> {
    if t in s.prepared && s.prepared[t].Some? then s.prepared[t].value else []
  }

  /**
   * A prefix of `all`, at most the last frame final; once final, all of it, or on
   * failure a part of it and one failure frame.
   */
  predicate Received(frames: seq<Frame>, t: nat, all: seq<Chunk>, failing: bool) {
    && (forall i :: 0 <= i < |frames| ==> frames[i].ticket == t)
    && (forall i :: 0 <= i < |frames| - 1 ==> !frames[i].done)
    && (!Closed(frames) ==> frames == [] || ChunksOf(frames) < all)
    && (Closed(frames) && !failing ==> ChunksOf(frames) == all)
    && (Closed(frames) && failing ==>
          frames[|frames| - 1].chunk == Failure && ChunksOf(frames[..|frames| - 1]) <= all)
  }

  lemma ReceivedQueued(s: Loop, r: Reply)
    requires ReplyOk(s, r)
    ensures var frames := FramesOf(s.sent, r.ticket);
            Received(frames, r.ticket, PreparedFor(s, r.ticket), Failing(s, r.ticket)) && !Closed(frames)
  {
    var frames, all := FramesOf(s.sent, r.ticket), PreparedFor(s, r.ticket);
    if s.prepared[r.ticket].Some? {
      assert ChunksOf(frames) == all[..|frames|];
    }
  }

  lemma ReceivedPart(frames: seq<Frame>, t: nat, all: seq<Chunk>)
    requires SentPart(frames, t, all)
    ensures Received(frames, t, all, true) && Closed(frames)
  {
    var n: nat :| n < |all| && CutAt(frames, t, all, n);
    assert |frames| == |Opening(t, all, n)| + 1;
    assert frames[..n] == Opening(t, all, n);
    assert ChunksOf(frames[..n]) == all[..n];
  }

  lemma ReceivedAll(frames: seq<Frame>, t: nat, all: seq<Chunk>)
    requires SentAll(frames, t, all)
    ensures Received(frames, t, all, false) && Closed(frames)
  {
    assert ChunksOf(frames) == all;
  }

  lemma ReceivedFinished(s: Loop, t: nat)
    requires Finished(s, t)
    ensures var frames := FramesOf(s.sent, t);
            Received(frames, t, PreparedFor(s, t), Failing(s, t)) && Closed(frames)
  {
    var frames := FramesOf(s.sent, t);
    if t in s.refused || s.prepared[t].None? {
      assert ChunksOf(frames[..0]) == [];
    } else if t in s.stale {
      ReceivedPart(frames, t, s.prepared[t].value);
    } else {
      ReceivedAll(frames, t, s.prepared[t].value);
    }
  }

  /**
   * In every run the frames of one ticket, picked out of the interleaving, are a
   * prefix of its chunks; a final frame comes last, comes once, and is there
   * exactly when the ticket is no longer being read or queued. A ticket that
   * failed ends in a failure frame, any other gets all its chunks.
   */
  lemma RepliesArriveInOrder(steps: seq<Step>, t: nat)
    requires ValidRun(Idle, steps) && t < |After(Idle, steps).revisions|
    ensures var s := After(Idle, steps);
            var frames := FramesOf(s.sent, t);
            && Received(frames, t, PreparedFor(s, t), Failing(s, t))
            && (Closed(frames) <==> t !in s.pending && !Queued(s, t))
  {
    IdleInv();
    RunKeepsInv(Idle, steps);
    var s := After(Idle, steps);
    assert TicketOk(s, t);
    if Queued(s, t) {
      var p: nat :| QueuedAt(s, p, t);
      ReceivedQueued(s, s.replies[p]);
    } else if t !in s.pending {
      ReceivedFinished(s, t);
    }
  }

  /** A finished ticket that did not fail expands to exactly the clipboard that was read. */
  lemma ClipboardArrives(steps: seq<Step>, t: nat, codec: Codec, bytes: Bytes, size: nat)
    requires ValidRun(Idle, steps) && t < |After(Idle, steps).revisions|
    requires codec.Inverse() && size > 0
    requires var s := After(Idle, steps);
             && t !in s.pending && !Queued(s, t) && !Failing(s, t)
             && PreparedFor(s, t) == Prepare(codec, bytes, size)
    ensures Expanded(codec, ChunksOf(FramesOf(After(Idle, steps).sent, t))) == bytes
  {
    RepliesArriveInOrder(steps, t);
    ExpandPrepared(codec, bytes, size);
  }

  /** A run during which the clipboard stays at one revision, the one every request asks for. */
  predicate Steady(steps: seq<Step>, revision: int) {
    forall i :: 0 <= i < |steps| ==> !steps[i].Finish? ==>
      steps[i] == Arrive(revision) || steps[i] == Turn(Some(revision))
  }

  ghost predicate AllAt(s: Loop, revision: int) {
    && s.stale == {}
    && (forall i :: 0 <= i < |s.revisions| ==> s.revisions[i] == revision)
    && (forall p :: 0 <= p < |s.replies| ==> s.replies[p].revision == revision)
  }

  lemma {:induction false} SteadyRun(s: Loop, steps: seq<Step>, revision: int)
    requires ValidRun(s, steps) && Steady(steps, revision) && AllAt(s, revision)
    ensures AllAt(After(s, steps), revision)
    decreases |steps|
  {
    if steps != [] {
      SteadyRun(Next(s, steps[0]), steps[1..], revision);
    }
  }

  /** While the clipboard does not change, no reply is ever abandoned half way. */
  lemma SteadyClipboard(steps: seq<Step>, revision: int)
    requires ValidRun(Idle, steps) && Steady(steps, revision)
    ensures After(Idle, steps).stale == {}
  {
    SteadyRun(Idle, steps, revision);
  }

  /** End to end: while the clipboard stays as it is, a finished request whose read succeeded expands to what was read. */
  lemma SteadyClipboardArrives(steps: seq<Step>, revision: int, t: nat, codec: Codec, bytes: Bytes, size: nat)
    requires ValidRun(Idle, steps) && Steady(steps, revision) && t < |After(Idle, steps).revisions|
    requires codec.Inverse() && size > 0
    requires var s := After(Idle, steps);
             && t !in s.pending && !Queued(s, t) && t !in s.refused
             && t in s.prepared && s.prepared[t] == Some(Prepare(codec, bytes, size))
    ensures Expanded(codec, ChunksOf(FramesOf(After(Idle, steps).sent, t))) == bytes
  {
    SteadyClipboard(steps, revision);
    ClipboardArrives(steps, t, codec, bytes, size);
  }

  // ---- Turns are shared fairly ----

  /** How many frames in `sent[lo..hi]` came from queued replies, not counting refusals. */
  function Taken(sent: seq<Frame>, refused: set<nat>, lo: nat, hi: nat): nat
    requires hi <= |sent|
  {
    if hi <= lo then 0
    else Taken(sent, refused, lo, hi - 1) + if sent[hi - 1].ticket in refused then 0 else 1
  }

  lemma {:induction false} TakenSame(sent: seq<Frame>, more: seq<Frame>, before: set<nat>, after: set<nat>, lo: nat, hi: nat)
    requires hi <= |sent| && sent <= more
    requires forall i :: 0 <= i < |sent| ==> (sent[i].ticket in before <==> sent[i].ticket in after)
    ensures Taken(more, after, lo, hi) == Taken(sent, before, lo, hi)
    decreases hi
  {
    if hi > lo {
      TakenSame(sent, more, before, after, lo, hi - 1);
    }
  }

  /** Frame `i` is the last one before `k` with its ticket. */
  predicate LastBefore(sent: seq<Frame>, i: nat, k: nat) {
    i < k <= |sent| && forall j :: i < j < k ==> sent[j].ticket != sent[i].ticket
  }

  /** The reply at place `p` last sent frame `i`; the turns of others since then and those still to come are at most seven. */
  predicate WaitsShortly(s: Loop, p: nat, i: nat) {
    i < |s.sent| && LastBefore(s.sent, i, |s.sent|) && QueuedAt(s, p, s.sent[i].ticket) ==>
      Taken(s.sent, s.refused, i + 1, |s.sent|) + p < LIMIT
  }

  predicate GapIsShort(sent: seq<Frame>, refused: set<nat>, i: nat, k: nat) {
    k < |sent| && LastBefore(sent, i, k) && sent[i].ticket == sent[k].ticket ==>
      Taken(sent, refused, i + 1, k) < LIMIT
  }

  ghost predicate Fair(s: Loop) {
    && (forall p: nat, i: nat :: WaitsShortly(s, p, i))
    && (forall i: nat, k: nat :: GapIsShort(s.sent, s.refused, i, k))
  }

  lemma {:induction false} NoFrames(sent: seq<Frame>, t: nat)
    requires FramesOf(sent, t) == []
    ensures forall i :: 0 <= i < |sent| ==> sent[i].ticket != t
    decreases |sent|
  {
    if sent != [] {
      NoFrames(sent[..|sent| - 1], t);
    }
  }

  /** A frame of ticket `t0` is added; whether earlier tickets were refused stays the same. */
  ghost predicate Adds(s: Loop, u: Loop, t0: nat) {
    && (exists f: Frame :: f.ticket == t0 && u.sent == s.sent + [f])
    && (forall i :: 0 <= i < |s.sent| ==> (s.sent[i].ticket in s.refused <==> s.sent[i].ticket in u.refused))
  }

  lemma OldGaps(s: Loop, u: Loop, t0: nat, i: nat, k: nat)
    requires Adds(s, u, t0) && k < |s.sent| && GapIsShort(s.sent, s.refused, i, k)
    ensures GapIsShort(u.sent, u.refused, i, k)
  {
    if LastBefore(u.sent, i, k) {
      assert forall j :: i <= j < k ==> u.sent[j] == s.sent[j];
      TakenSame(s.sent, u.sent, s.refused, u.refused, i + 1, k);
    }
  }

  lemma OldWaits(s: Loop, u: Loop, t0: nat, i: nat)
    requires Adds(s, u, t0) && i < |s.sent| && LastBefore(u.sent, i, |u.sent|)
    ensures LastBefore(s.sent, i, |s.sent|) && u.sent[i].ticket == s.sent[i].ticket && u.sent[i].ticket != t0
    ensures Taken(u.sent, u.refused, i + 1, |u.sent|)
         == Taken(s.sent, s.refused, i + 1, |s.sent|) + if t0 in u.refused then 0 else 1
  {
    TakenSame(s.sent, u.sent, s.refused, u.refused, i + 1, |s.sent|);
    assert u.sent[|s.sent|].ticket == t0;
    assert forall j :: i < j < |s.sent| ==> u.sent[j] == s.sent[j];
  }

  lemma ArriveIsFair(s: Loop, revision: int)
    requires Inv(s) && Fair(s)
    ensures Fair(AfterArrive(s, revision))
  {
    var u, t0 := AfterArrive(s, revision), |s.revisions|;
    assert TicketOk(s, t0);
    NoFrames(s.sent, t0);
    if |s.pending| + |s.replies| >= LIMIT {
      assert u.sent == s.sent + [Frame(t0, Failure, true)];
      assert Adds(s, u, t0);
      forall p: nat, i: nat ensures WaitsShortly(u, p, i) {
        assert WaitsShortly(s, p, i);
        assert QueuedAt(u, p, t0) ==> QueuedAt(s, p, t0);
        if i < |s.sent| && LastBefore(u.sent, i, |u.sent|) { OldWaits(s, u, t0, i); }
      }
      forall i: nat, k: nat ensures GapIsShort(u.sent, u.refused, i, k) {
        assert GapIsShort(s.sent, s.refused, i, k);
        if k < |s.sent| { OldGaps(s, u, t0, i, k); }
      }
    } else {
      forall p: nat, i: nat ensures WaitsShortly(u, p, i) { assert WaitsShortly(s, p, i); }
    }
  }

  lemma FinishIsFair(s: Loop, t0: nat, chunks: Option<seq<Chunk>>)
    requires Inv(s) && Fair(s) && Enabled(s, Finish(t0, chunks))
    ensures Fair(Next(s, Finish(t0, chunks)))
  {
    var u := Next(s, Finish(t0, chunks));
    assert TicketOk(s, t0);
    NoFrames(s.sent, t0);
    forall p: nat, i: nat ensures WaitsShortly(u, p, i) { assert WaitsShortly(s, p, i); }
  }

  lemma TurnIsFair(s: Loop, current: Option<int>)
    requires Inv(s) && Fair(s) && Enabled(s, Turn(current))
    ensures Fair(AfterTurn(s, current))
  {
    var u, t0 := AfterTurn(s, current), s.replies[0].ticket;
    var frame := NextFrame(s.replies[0], current);
    assert u.sent == s.sent + [frame] && ReplyOk(s, s.replies[0]) && QueuedAt(s, 0, t0);
    assert Adds(s, u, t0);
    TurnKeepsPlaces(s, current);
    forall p: nat, i: nat ensures WaitsShortly(u, p, i) {
      assert WaitsShortly(s, p + 1, i);
      if i < |s.sent| && LastBefore(u.sent, i, |u.sent|) && QueuedAt(u, p, u.sent[i].ticket) {
        OldWaits(s, u, t0, i);
        assert QueuedAt(s, p + 1, s.sent[i].ticket);
      }
    }
    forall i: nat, k: nat ensures GapIsShort(u.sent, u.refused, i, k) {
      assert GapIsShort(s.sent, s.refused, i, k);
      assert WaitsShortly(s, 0, i);
      if k < |s.sent| {
        OldGaps(s, u, t0, i, k);
      } else if k == |s.sent| && LastBefore(u.sent, i, k) && u.sent[i].ticket == u.sent[k].ticket {
        assert forall j :: i <= j < k ==> u.sent[j] == s.sent[j];
        TakenSame(s.sent, u.sent, s.refused, u.refused, i + 1, k);
      }
    }
  }

  lemma {:induction false} RunIsFair(s: Loop, steps: seq<Step>)
    requires Inv(s) && Fair(s) && ValidRun(s, steps)
    ensures Fair(After(s, steps))
    decreases |steps|
  {
    if steps != [] {
      var step := steps[0];
      match step {
        case Arrive(revision) => ArriveIsFair(s, revision);
        case Finish(t, chunks) => FinishIsFair(s, t, chunks);
        case Turn(current) => TurnIsFair(s, current);
      }
      StepKeepsInv(s, step);
      RunIsFair(Next(s, step), steps[1..]);
    }
  }

  /** Between two consecutive frames of one reply the other queued replies send at most seven. */
  lemma TurnsAreShared(steps: seq<Step>, i: nat, k: nat)
    requires ValidRun(Idle, steps)
    requires var sent := After(Idle, steps).sent;
             k < |sent| && LastBefore(sent, i, k) && sent[i].ticket == sent[k].ticket
    ensures Taken(After(Idle, steps).sent, After(Idle, steps).refused, i + 1, k) <= 7
  {
    IdleInv();
    RunIsFair(Idle, steps);
    assert GapIsShort(After(Idle, steps).sent, After(Idle, steps).refused, i, k);
  }

  // ---- The queue drains ----

  /** Frames still to be sent at most: a failed reply takes one. */
  function Unsent(replies: seq<Reply>): nat {
    if replies == [] then 0
    else Weight(replies[0].chunks) + Unsent(replies[1..])
  }

  function Weight(chunks: Option<seq<Chunk>>): nat {
    if chunks.Some? && chunks.value != [] then |chunks.value| else 1
  }

  lemma {:induction false} UnsentMore(replies: seq<Reply>, r: Reply)
    ensures Unsent(replies + [r]) == Unsent(replies) + Weight(r.chunks)
    decreases |replies|
  {
    if replies == [] {
      assert (replies + [r])[1..] == [];
    } else {
      UnsentMore(replies[1..], r);
      assert (replies + [r])[1..] == replies[1..] + [r];
    }
  }

  /** Frames the reads that finish during a run bring in. */
  function Brought(steps: seq<Step>): nat {
    if steps == [] then 0
    else (if steps[0].Finish? then Weight(steps[0].chunks) else 0) + Brought(steps[1..])
  }

  function Turns(steps: seq<Step>): nat {
    if steps == [] then 0 else (if steps[0].Turn? then 1 else 0) + Turns(steps[1..])
  }

  lemma StepDrains(s: Loop, step: Step)
    requires Enabled(s, step) && !step.Arrive?
    ensures step.Turn? ==> Unsent(Next(s, step).replies) < Unsent(s.replies)
    ensures step.Finish? ==> Unsent(Next(s, step).replies) == Unsent(s.replies) + Weight(step.chunks)
  {
    if step.Turn? {
      var r := s.replies[0];
      if !NextFrame(r, step.current).done {
        UnsentMore(s.replies[1..], r.(chunks := Some(r.chunks.value[1..])));
      }
    } else {
      UnsentMore(s.replies, Reply(step.ticket, s.revisions[step.ticket], step.chunks));
    }
  }

  /** Without new requests every turn takes from a fixed supply of frames, so turns come to an end. */
  lemma {:induction false} TurnsComeToAnEnd(s: Loop, steps: seq<Step>)
    requires ValidRun(s, steps) && forall i :: 0 <= i < |steps| ==> !steps[i].Arrive?
    ensures Turns(steps) + Unsent(After(s, steps).replies) <= Unsent(s.replies) + Brought(steps)
    decreases |steps|
  {
    if steps != [] {
      StepDrains(s, steps[0]);
      TurnsComeToAnEnd(Next(s, steps[0]), steps[1..]);
    }
  }

  function TurnsAt(currents: seq<Option<int>>): (r: seq<Step>)
    ensures |r| == |currents|
  {
    seq(|currents|, i requires 0 <= i < |currents| => Turn(currents[i]))
  }

  /** Turns alone empty the queue after no more turns than frames are unsent, whatever the clipboard does meanwhile. */
  lemma {:induction false} QueueEmpties(s: Loop, currents: seq<Option<int>>) returns (n: nat)
    requires |currents| >= Unsent(s.replies)
    ensures n <= Unsent(s.replies)
    ensures ValidRun(s, TurnsAt(currents[..n])) && After(s, TurnsAt(currents[..n])).replies == []
    decreases Unsent(s.replies)
  {
    if s.replies == [] {
      n := 0;
    } else {
      var step := Turn(currents[0]);
      StepDrains(s, step);
      var m := QueueEmpties(Next(s, step), currents[1..]);
      n := m + 1;
      assert TurnsAt(currents[..n])[1..] == TurnsAt(currents[1..][..m]);
    }
  }
}
