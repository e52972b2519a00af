/** What the reply scheduler sends, told from the requests, reads and turns of the run. */
module ClipboardMeaning {
  import opened Common
  import opened Clipboard

  // ---- Chunks ----

  function Joined(pieces: seq<Bytes>): Bytes {
    if pieces == [] then [] else pieces[0] + Joined(pieces[1..])
  }

  /** All pieces are full, but for the last one, which is not empty. */
  predicate WellCut(pieces: seq<Bytes>, size: nat) {
    && (forall i :: 0 <= i < |pieces| - 1 ==> |pieces[i]| == size)
    && (forall i :: 0 <= i < |pieces| ==> 0 < |pieces[i]| <= size)
  }

  /** The clipboard is cut into full pieces, and a last one with what remains. */
  lemma {:induction false} PiecesMeaning(bytes: Bytes, size: nat)
    requires size > 0
    ensures WellCut(Pieces(bytes, size), size) && Joined(Pieces(bytes, size)) == bytes
    decreases |bytes|
  {
    if |bytes| > size {
      PiecesMeaning(bytes[size..], size);
      CutOff(bytes[..size], Pieces(bytes[size..], size), size);
      assert bytes[..size] + bytes[size..] == bytes;
    } else if bytes != [] {
      assert Joined([bytes]) == bytes + Joined([]);
    }
  }

  lemma CutOff(first: Bytes, rest: seq<Bytes>, size: nat)
    requires WellCut(rest, size) && |first| == size && size > 0
    ensures WellCut([first] + rest, size) && Joined([first] + rest) == first + Joined(rest)
  {
    var all := [first] + rest;
    assert all[1..] == rest;
    forall i | 0 <= i < |all| ensures 0 < |all[i]| <= size && (i < |all| - 1 ==> |all[i]| == size) {
      assert i > 0 ==> all[i] == rest[i - 1];
    }
  }

  lemma {:induction false} CompressedAt(codec: Codec, pieces: seq<Bytes>, i: nat)
    requires i < |pieces|
    ensures Compressed(codec, pieces)[i] == codec.compress(pieces[i])
  {
    if i > 0 {
      CompressedAt(codec, pieces[1..], i - 1);
    }
  }

  /** No chunk carries more than `size` bytes, and only the last one of several can carry fewer. */
  lemma ChunksAreBounded(codec: Codec, bytes: Bytes, size: nat, i: nat)
    requires codec.Inverse() && size > 0 && i < |Prepare(codec, bytes, size)|
    ensures var chunks := Prepare(codec, bytes, size);
            && |codec.expand(chunks[i])| <= size && (i < |chunks| - 1 ==> |codec.expand(chunks[i])| == size)
            && (bytes != [] ==> codec.expand(chunks[i]) != [])
  {
    if bytes != [] {
      PiecesMeaning(bytes, size);
      CompressedAt(codec, Pieces(bytes, size), i);
    }
  }

  // ---- Requests and reads of a run ----

  function Asked(step: Step): seq<int> {
    if step.Arrive? then [step.revision] else []
  }

  /** The clipboard revisions asked for, in order of arrival. */
  function Requests(steps: seq<Step>): seq<int> {
    if steps == [] then [] else Asked(steps[0]) + Requests(steps[1..])
  }

  lemma RequestsOfStep(s: Loop, step: Step, rest: seq<int>)
    requires Enabled(s, step)
    ensures Next(s, step).revisions + rest == s.revisions + (Asked(step) + rest)
  {
    assert Next(s, step).revisions == s.revisions + Asked(step);
  }

  lemma {:induction false} RequestsOfRun(s: Loop, steps: seq<Step>)
    requires ValidRun(s, steps)
    ensures After(s, steps).revisions == s.revisions + Requests(steps)
    decreases |steps|
  {
    if steps != [] {
      RequestsOfRun(Next(s, steps[0]), steps[1..]);
      RequestsOfStep(s, steps[0], Requests(steps[1..]));
    }
  }

  lemma StaysPrepared(s: Loop, step: Step, t: nat)
    requires Inv(s) && Enabled(s, step) && t in s.prepared
    ensures t in Next(s, step).prepared && Next(s, step).prepared[t] == s.prepared[t]
  {
    assert TicketOk(s, t);
  }

  lemma {:induction false} ReadBefore(s: Loop, steps: seq<Step>, t: nat)
    requires Inv(s) && ValidRun(s, steps) && t in s.prepared
    ensures t in After(s, steps).prepared && After(s, steps).prepared[t] == s.prepared[t]
    decreases |steps|
  {
    if steps != [] {
      StaysPrepared(s, steps[0], t);
      StepKeepsInv(s, steps[0]);
      ReadBefore(Next(s, steps[0]), steps[1..], t);
    }
  }

  predicate PreparedAs(s: Loop, t: nat, chunks: Option<seq<Chunk>>) {
    t in s.prepared && s.prepared[t] == chunks
  }

  /** Each ticket is read at most once, and what was read is what is sent. */
  lemma {:induction false} ReadOnce(s: Loop, steps: seq<Step>, t: nat, chunks: Option<seq<Chunk>>)
    requires Inv(s) && ValidRun(s, steps)
    ensures PreparedAs(After(s, steps), t, chunks) <==> PreparedAs(s, t, chunks) || Finish(t, chunks) in steps
    decreases |steps|
  {
    if steps != [] {
      StepKeepsInv(s, steps[0]);
      ReadOnce(Next(s, steps[0]), steps[1..], t, chunks);
      if t in s.prepared {
        StaysPrepared(s, steps[0], t);
      }
    }
  }

  // ---- Admission ----

  /** Requests that have not had their last frame. */
  function Open(s: Loop, requests: nat): set<nat> {
    set t: nat | t < requests && !Closed(FramesOf(s.sent, t))
  }

  function QueuedTickets(replies: seq<Reply>): set<nat> {
    if replies == [] then {} else QueuedTickets(replies[..|replies| - 1]) + {replies[|replies| - 1].ticket}
  }

  predicate HasReply(replies: seq<Reply>, t: nat) {
    exists p :: 0 <= p < |replies| && replies[p].ticket == t
  }

  lemma OneMoreReply(front: seq<Reply>, last: Reply, t: nat)
    ensures HasReply(front + [last], t) <==> HasReply(front, t) || t == last.ticket
  {
    var all := front + [last];
    assert all[|front|] == last;
    if HasReply(front, t) {
      var p :| 0 <= p < |front| && front[p].ticket == t;
      assert all[p].ticket == t;
    }
  }

  lemma {:induction false} QueuedTicketsAre(replies: seq<Reply>)
    ensures forall t: nat :: t in QueuedTickets(replies) <==> HasReply(replies, t)
  {
    if replies != [] {
      var front, last := replies[..|replies| - 1], replies[|replies| - 1];
      assert replies == front + [last];
      QueuedTicketsAre(front);
      forall t: nat ensures HasReply(replies, t) <==> HasReply(front, t) || t == last.ticket {
        OneMoreReply(front, last, t);
      }
    }
  }

  lemma {:induction false} QueuedTicketsCount(replies: seq<Reply>)
    requires OneReplyEach(replies)
    ensures |QueuedTickets(replies)| == |replies|
  {
    if replies != [] {
      var n := |replies| - 1;
      QueuedTicketsCount(replies[..n]);
      QueuedTicketsAre(replies[..n]);
      assert !HasReply(replies[..n], replies[n].ticket);
    }
  }

  lemma QueuedHasReply(s: Loop, t: nat)
    ensures Queued(s, t) <==> HasReply(s.replies, t)
  {
    if Queued(s, t) {
      var p :| QueuedAt(s, p, t);
    }
    if HasReply(s.replies, t) {
      var p :| 0 <= p < |s.replies| && s.replies[p].ticket == t;
      assert QueuedAt(s, p, t);
    }
  }

  ghost predicate Reached(steps: seq<Step>, s: Loop) {
    ValidRun(Idle, steps) && s == After(Idle, steps)
  }

  lemma ReachedInv(steps: seq<Step>, s: Loop)
    requires Reached(steps, s)
    ensures Inv(s) && s.revisions == Requests(steps)
  {
    IdleInv();
    RunKeepsInv(Idle, steps);
    RequestsOfRun(Idle, steps);
  }

  lemma OpenIsBusy(steps: seq<Step>, s: Loop, t: nat)
    requires Reached(steps, s)
    ensures t in Open(s, |s.revisions|) <==> t in s.pending || HasReply(s.replies, t)
  {
    ReachedInv(steps, s);
    QueuedHasReply(s, t);
    if t < |s.revisions| {
      RepliesArriveInOrder(steps, t);
    } else {
      assert TicketOk(s, t);
    }
  }

  lemma NotBoth(s: Loop, t: nat)
    requires Inv(s) && t in s.pending
    ensures !HasReply(s.replies, t)
  {
    assert TicketOk(s, t);
    QueuedHasReply(s, t);
  }

  /** As many requests are open as are being read or wait to be sent. */
  lemma OpenCount(steps: seq<Step>, s: Loop)
    requires Reached(steps, s)
    ensures |Open(s, |Requests(steps)|)| == |s.pending| + |s.replies|
  {
    ReachedInv(steps, s);
    QueuedTicketsCount(s.replies);
    QueuedTicketsAre(s.replies);
    forall t ensures t in Open(s, |Requests(steps)|) <==> t in s.pending || t in QueuedTickets(s.replies) {
      OpenIsBusy(steps, s, t);
    }
    forall t | t in s.pending ensures t !in QueuedTickets(s.replies) {
      NotBoth(s, t);
    }
    DisjointCount(Open(s, |Requests(steps)|), s.pending, QueuedTickets(s.replies));
  }

  lemma DisjointCount(all: set<nat>, a: set<nat>, b: set<nat>)
    requires forall t :: t in all <==> t in a || t in b
    requires forall t | t in a :: t !in b
    ensures |all| == |a| + |b|
  {
    assert a !! b && all == a + b;
  }

  /**
   * In every run a new request is refused, with one final failure frame, exactly
   * if eight earlier requests have not had their last frame. Otherwise nothing is
   * sent yet, and its read is awaited.
   */
  lemma AdmissionIsExact(steps: seq<Step>, s: Loop, revision: int)
    requires Reached(steps, s)
    ensures var t, full := |Requests(steps)|, |Open(s, |Requests(steps)|)| >= 8;
            var u := Next(s, Arrive(revision));
            && u.sent == s.sent + (if full then [Frame(t, Chunk(1, []), true)] else [])
            && (Enabled(u, Finish(t, None)) <==> !full)
  {
    ReachedInv(steps, s);
    OpenCount(steps, s);
    assert TicketOk(s, |s.revisions|);
  }

  // ---- A turn ----

  /** The `n`-th frame for a request of revision `wanted` whose read gave `read`. */
  predicate IsFrame(f: Frame, wanted: int, read: Option<seq<Chunk>>, n: nat, current: Option<int>) {
    if current != Some(wanted) || read.None? then f.chunk == Chunk(1, []) && f.done
    else n < |read.value| && f.chunk == read.value[n] && (f.done <==> n == |read.value| - 1)
  }

  lemma FrameOfReply(s: Loop, r: Reply, current: Option<int>)
    requires ReplyOk(s, r)
    ensures var f := NextFrame(r, current);
            && f.ticket == r.ticket && !Closed(FramesOf(s.sent, r.ticket))
            && IsFrame(f, r.revision, s.prepared[r.ticket], |FramesOf(s.sent, r.ticket)|, current)
  {
    ReceivedQueued(s, r);
  }

  /**
   * In every run a turn sends one frame of one open request: the next chunk of
   * what was read for it, the last one marked, as long as the clipboard still has
   * the revision asked for and the read succeeded; and otherwise a failure that
   * ends the reply.
   */
  lemma TurnMeaning(steps: seq<Step>, s: Loop, current: Option<int>) returns (f: Frame, read: Option<seq<Chunk>>)
    requires Reached(steps, s) && Enabled(s, Turn(current))
    ensures Next(s, Turn(current)).sent == s.sent + [f]
    ensures f.ticket < |Requests(steps)| && Finish(f.ticket, read) in steps && !Closed(FramesOf(s.sent, f.ticket))
    ensures IsFrame(f, Requests(steps)[f.ticket], read, |FramesOf(s.sent, f.ticket)|, current)
  {
    ReachedInv(steps, s);
    var r := s.replies[0];
    f, read := NextFrame(r, current), s.prepared[r.ticket];
    FrameOfReply(s, r, current);
    IdleInv();
    ReadOnce(Idle, steps, r.ticket, read);
  }

  /** A request whose read is over stays in turn until its last frame: some turn is possible while one is open and read. */
  lemma OpenReadsAreInTurn(steps: seq<Step>, s: Loop, t: nat, read: Option<seq<Chunk>>)
    requires Reached(steps, s) && Finish(t, read) in steps
    ensures t < |Requests(steps)|
    ensures Closed(FramesOf(s.sent, t)) <==> !HasReply(s.replies, t)
  {
    ReachedInv(steps, s);
    IdleInv();
    ReadOnce(Idle, steps, t, read);
    assert TicketOk(s, t);
    RepliesArriveInOrder(steps, t);
    QueuedHasReply(s, t);
  }
}
