/** Runs that reach the states in which a server stream does less than its comments say. */
module ServerWitnesses {
  import opened Codec
  import opened StatusCodes
  import opened Server
  import opened ServerWire
  import opened ServerCallbacks
  import opened ServerReads
  import opened ServerWrites
  import opened ServerConn

  /** A stream that has just been opened. */
  function Opened(form: Form, limit: nat, ms: nat): Stream {
    OnHeaders(Init(), true, Some(form), limit, ms)
  }

  /** Finish after two writes: the second message and the status are never sent. */
  lemma DeferredFinishHappens() returns (s: Stream)
    ensures Reachable(s) && s.phase.Live? && s.output.finish == Some(OK)
    ensures |s.accepted| == 2 && |DataFrames(s.wire)| == 1
    ensures forall after :: Run(s, after).wire == s.wire
  {
    var s1 := Opened(Bidi, 0, 0);
    NewReachable(true, Some(Bidi), 0, 0);
    hide Reachable, Run, Frame;
    var s2 := WriteMessage(s1, []);
    StepReachable(s1, WriteStep([]));
    var s3 := WriteMessage(s2, []);
    StepReachable(s2, WriteStep([]));
    s := FinishStream(s3, OK);
    StepReachable(s3, FinishStep(OK));
    assert s.wire == [] + [Headers] + [Data(Frame([]))];
    DataFramesAppend([], Headers);
    DataFramesAppend([] + [Headers], Data(Frame([])));
    forall after ensures Run(s, after).wire == s.wire { StuckRun(s, after); }
  }

  lemma BadFlag(limit: nat)
    ensures FeedError(NewDecoder(limit), [1, 0, 0, 0, 0]) == Some(CompressedFlag)
  {
    var data: Bytes := [1, 0, 0, 0, 0];
    assert NewDecoder(limit).Residue() + data == data;
  }

  /** A framing error in the first chunk: the client never hears a status. */
  lemma FramingErrorHappens() returns (s: Stream)
    ensures Reachable(s) && s.phase.Live? && s.output.responded
    ensures forall after :: Run(s, after).wire == []
  {
    var s1 := Opened(Bidi, 0, 0);
    NewReachable(true, Some(Bidi), 0, 0);
    hide Reachable, Run;
    var data: Bytes := [1, 0, 0, 0, 0];
    BadFlag(0);
    s := OnChunk(s1, data);
    StepReachable(s1, ChunkStep(data));
    hide Feed, FeedError;
    forall after ensures Run(s, after).wire == [] { FramingErrorIsSilent(s1, data, after); }
  }

  /** The decoder of a fresh stream after a chunk of whole frames. */
  lemma FedFrames(s: Stream, limit: nat, msgs: seq<Bytes>)
    requires s.Present() && !s.input.requestDone && s.input.decoder == NewDecoder(limit)
    requires msgs != [] && forall m :: m in msgs ==> Encodable(limit, m)
    ensures Frames(msgs) != []
    ensures OnChunk(s, Frames(msgs)) == s.(input := s.input.(decoder := NewDecoder(limit).(messages := msgs)))
  {
    FramesRoundTrip(limit, msgs);
    var d := NewDecoder(limit);
    assert [] + Frames(msgs) == Frames(msgs);
    assert d.messages + msgs == msgs;
    assert |Frames(msgs)| >= |Frame(msgs[0])| > 0;
  }

  /** One message has been taken off the decoder and no read is armed. */
  lemma OneUnread() returns (s: Stream)
    ensures Reachable(s) && s.arrived == [[]] && s.readLog == [] && s.input.decoder.messages == []
    ensures s.phase.Live? && s.info.form.Bidi? && s.info.hasHandler && s.info.dispatched
    ensures !s.input.requestDone && !s.input.finished && !s.input.armed
  {
    var s1 := Opened(Bidi, 0, 0);
    NewReachable(true, Some(Bidi), 0, 0);
    hide Reachable;
    var msgs: seq<Bytes> := [[]];
    FedFrames(s1, 0, msgs);
    hide OnChunk, Frames;
    var s2 := OnChunk(s1, Frames(msgs));
    StepReachable(s1, ChunkStep(Frames(msgs)));
    s := TakeRequest(s2);
    StepReachable(s2, TakeStep);
    assert s.arrived == [[]];
  }

  /** A message arrives, no read is armed, the request ends: the handler never gets it. */
  lemma LostBacklogHappens() returns (s: Stream)
    ensures Reachable(s) && s.arrived == [[]] && !Ended(s.readLog)
    ensures forall after :: Delivered(Run(s, after).readLog) == []
  {
    hide Reachable, Run;
    var s3 := OneUnread();
    s := FinishRequest(s3);
    StepReachable(s3, EndStep);
    assert s.input.finished && s.readLog == [] && s.arrived == [[]];
    WireOf(s);
    hide FinishRequest, WireInv;
    forall after ensures Delivered(Run(s, after).readLog) == [] { FinishedRun(s, after); }
  }

  lemma WireOf(s: Stream)
    requires Reachable(s)
    ensures WireInv(s)
  {
    var steps :| Reaches(steps, s);
    WireRun(Init(), steps);
  }

  // ---- a message dropped after a deadline -----------------------------------------------------

  /** A call whose deadline has responded, with `pending` unread messages and `msgs` in the decoder. */
  predicate Filling(s: Stream, pending: seq<Bytes>, msgs: seq<Bytes>) {
    && s.phase.Live? && s.info.form.Bidi? && s.info.ctx == StreamCtx(None) && s.output.responded
    && !s.input.requestDone && !s.input.finished && !s.input.armed && !s.input.halfClosed
    && s.input.pending == pending && s.input.decoder.messages == msgs && s.readLog == []
  }

  lemma {:induction false} Fill(s: Stream, pending: seq<Bytes>, msgs: seq<Bytes>, n: nat) returns (t: Stream)
    requires Reachable(s) && Filling(s, pending, msgs) && n <= |msgs| && |pending| + n <= QUEUE_BOUND
    ensures Reachable(t) && Filling(t, pending + msgs[..n], msgs[n..]) && t.arrived == s.arrived + msgs[..n]
    decreases n
  {
    hide Reachable;
    if n == 0 {
      assert pending + msgs[..0] == pending && s.arrived + msgs[..0] == s.arrived;
      t := s;
    } else {
      var u := Fill(s, pending, msgs, n - 1);
      t := TakeRequest(u);
      StepReachable(u, TakeStep);
      assert msgs[n - 1..][0] == msgs[n - 1] && msgs[n - 1..][1..] == msgs[n..];
      assert msgs[..n] == msgs[..n - 1] + [msgs[n - 1]];
      Assoc(pending, msgs[..n - 1], [msgs[n - 1]]);
      Assoc(s.arrived, msgs[..n - 1], [msgs[n - 1]]);
    }
  }

  /** The deadline has responded, and a chunk with `msgs` has been decoded. */
  lemma Overdue(msgs: seq<Bytes>) returns (s: Stream)
    requires msgs != [] && forall m :: m in msgs ==> Encodable(1, m)
    ensures Reachable(s) && Filling(s, [], msgs) && s.arrived == []
  {
    var s1 := Opened(Bidi, 1, 1);
    NewReachable(true, Some(Bidi), 1, 1);
    hide Reachable;
    FedFrames(s1, 1, msgs);
    hide OnChunk, Frames;
    var s2 := OnChunk(s1, Frames(msgs));
    StepReachable(s1, ChunkStep(Frames(msgs)));
    var s3 := DeadlineFires(s2);
    StepReachable(s2, DeadlineStep);
    s := DeadlineResponds(s3);
    StepReachable(s3, DeadlineRespondStep);
  }

  /** With 64 messages unread the next is dropped, and after one read the one behind it is kept: a gap. */
  lemma DropAfterDeadlineHappens() returns (s: Stream)
    ensures Reachable(s) && s.phase.Live? && !s.input.finished
    ensures !(Kept(s) <= s.arrived)
  {
    var full: seq<Bytes> := seq(QUEUE_BOUND, i => []);
    var x: Bytes, y: Bytes := [1], [2];
    var msgs := full + [x, y];
    var s0 := Overdue(msgs);
    hide Reachable;
    var s1 := Fill(s0, [], msgs, QUEUE_BOUND);
    assert msgs[..QUEUE_BOUND] == full && msgs[QUEUE_BOUND..] == [x, y] && [] + full == full;
    s := Gap(s1, full, x, y);
  }

  lemma Gap(s1: Stream, full: seq<Bytes>, x: Bytes, y: Bytes) returns (s: Stream)
    requires Reachable(s1) && Filling(s1, full, [x, y]) && s1.arrived == full && |full| == QUEUE_BOUND && x != y
    ensures Reachable(s) && s.phase.Live? && !s.input.finished && !(Kept(s) <= s.arrived)
  {
    hide Reachable, Kept;
    var s2 := TakeRequest(s1);
    StepReachable(s1, TakeStep);
    assert [x, y][1..] == [y];
    assert Filling(s2, full, [y]) && s2.arrived == full + [x];
    s := ReadThenTake(s2, full, y);
    GapShows(s, full, x, y);
  }

  lemma ReadThenTake(s2: Stream, full: seq<Bytes>, y: Bytes) returns (s: Stream)
    requires Reachable(s2) && Filling(s2, full, [y]) && |full| == QUEUE_BOUND
    ensures Reachable(s) && s.phase.Live? && !s.input.finished && s.info.ctx == StreamCtx(None)
    ensures s.arrived == s2.arrived + [y] && s.input.pending == full[1..] + [y]
    ensures s.readLog == [ReadEvent(OK, false, full[0])]
  {
    hide Reachable;
    var s3 := ReadMessage(s2);
    StepReachable(s2, ReadStep);
    s := TakeRequest(s3);
    StepReachable(s3, TakeStep);
  }

  lemma GapShows(s: Stream, full: seq<Bytes>, x: Bytes, y: Bytes)
    requires |full| == QUEUE_BOUND && x != y && s.info.ctx == StreamCtx(None) && s.arrived == full + [x] + [y]
    requires s.input.pending == full[1..] + [y] && s.readLog == [ReadEvent(OK, false, full[0])]
    ensures !(Kept(s) <= s.arrived)
  {
    var log: seq<ReadEvent> := [];
    DeliveredAppend(log, ReadEvent(OK, false, full[0]));
    assert s.readLog == log + [ReadEvent(OK, false, full[0])];
    assert Delivered(s.readLog) == [full[0]];
    hide Delivered;
    assert Unread(s) == full[1..] + [y];
    assert Kept(s)[QUEUE_BOUND] == y && s.arrived[QUEUE_BOUND] == x;
  }

  /** Two messages in a unary request: the first is handled, and nothing refuses the second. */
  lemma SecondMessageHappens() returns (s: Stream)
    ensures Reachable(s) && s.handled == [[]] && s.input.decoder.messages == [[]] && s.wire == []
  {
    var s1 := Opened(Unary, 0, 0);
    NewReachable(true, Some(Unary), 0, 0);
    hide Reachable;
    var msgs: seq<Bytes> := [[], []];
    FedFrames(s1, 0, msgs);
    hide OnChunk, Frames;
    var s2 := OnChunk(s1, Frames(msgs));
    StepReachable(s1, ChunkStep(Frames(msgs)));
    s := FinishRequest(s2);
    StepReachable(s2, EndStep);
  }

  // ---- writes that are never resolved ---------------------------------------------------------

  /** A stream has closed and its cancel callbacks run. */
  lemma Cancelled() returns (s: Stream)
    ensures Reachable(s) && s.phase.Cancelling? && s.info.ctx.StreamCtx? && s.writes == 0 && s.accepted == []
    ensures s.output == Output([], false, false, false, false, None) && s.hold == Hold(false, false)
  {
    var s1 := Opened(Bidi, 0, 0);
    NewReachable(true, Some(Bidi), 0, 0);
    hide Reachable;
    var s2 := OnStreamClose(s1, StreamClosed(false));
    StepReachable(s1, CloseStep(StreamClosed(false)));
    s := FireCancel(s2);
    StepReachable(s2, CancelStep);
  }

  /** Two writes from a cancel callback of a closed stream: both are accepted and never resolved. */
  lemma CancelCallbackLosesWrites() returns (s: Stream)
    ensures Reachable(s) && |s.accepted| == 2 && NeverResolved(s, 0) && NeverResolved(s, 1)
  {
    hide Reachable, NeverResolved;
    var s3 := Cancelled();
    s := WriteTwiceAndErase(s3);
    GoneExactly(s, 0);
    GoneExactly(s, 1);
  }

  lemma WriteTwiceAndErase(s3: Stream) returns (s: Stream)
    requires Reachable(s3) && s3.phase.Cancelling? && s3.info.ctx.StreamCtx? && s3.writes == 0 && s3.accepted == []
    requires s3.output == Output([], false, false, false, false, None) && s3.hold == Hold(false, false)
    ensures Reachable(s) && s.phase.Gone? && s.writes == 2 && |s.accepted| == 2
    ensures QueueIds(s.output.queue) == [1] && BodyIds(s.body) == [0] && s.hold.dead
  {
    hide Reachable, Frame;
    var s4 := WriteMessage(s3, []);
    StepReachable(s3, WriteStep([]));
    var s5 := WriteMessage(s4, []);
    StepReachable(s4, WriteStep([]));
    s := Erase(s5);
    StepReachable(s5, EraseStep);
  }

  /** A live call with write 0 in flight and write 1 queued. */
  lemma TwoWrites() returns (s: Stream)
    ensures Reachable(s) && s.phase.Live? && s.info.ctx.StreamCtx? && s.writes == 2 && |s.accepted| == 2
    ensures QueueIds(s.output.queue) == [1] && BodyIds(s.body) == [0] && s.output.inflight
    ensures s.hold == Hold(true, false)
  {
    var s1 := Opened(Bidi, 0, 0);
    NewReachable(true, Some(Bidi), 0, 0);
    hide Reachable, Frame;
    var s2 := WriteMessage(s1, []);
    StepReachable(s1, WriteStep([]));
    s := WriteMessage(s2, []);
    StepReachable(s2, WriteStep([]));
  }

  /** Two writes on a call that shutdown abandons: neither is ever resolved. */
  lemma AbandonLosesWrites() returns (s: Stream)
    ensures Reachable(s) && |s.accepted| == 2 && NeverResolved(s, 0) && NeverResolved(s, 1)
  {
    hide Reachable, NeverResolved;
    var s3 := TwoWrites();
    var s4 := FireCancel(s3);
    StepReachable(s3, AbandonStep);
    s := Erase(s4);
    StepReachable(s4, EraseStep);
    GoneExactly(s, 0);
    GoneExactly(s, 1);
  }

  /** A stream closes under a body in flight: its write is never resolved, though it was submitted. */
  lemma CloseLosesWriteHappens() returns (s: Stream)
    ensures Reachable(s) && NeverResolved(s, 0) && !NeverResolved(s, 1)
  {
    hide Reachable, NeverResolved, Closed;
    var s3 := TwoWrites();
    s := Closed(s3, StreamClosed(false));
    ClosedReachable(s3, StreamClosed(false));
    CloseLosesInFlight(s3, StreamClosed(false), 0);
    CloseLosesInFlight(s3, StreamClosed(false), 1);
  }

  /** WriteDone over a queued message: it is never sent, although nothing finished the call. */
  lemma WriteDoneStrandsHappens() returns (s: Stream)
    ensures Reachable(s) && s.phase.Live? && !s.output.responded && QueueIds(s.output.queue) == [1] && |s.accepted| == 2
    ensures forall after :: DataFrames(Run(s, after).wire) == DataFrames(s.wire) && |DataFrames(s.wire)| == 1
  {
    hide Reachable, Run, Frame;
    var s1 := Opened(Bidi, 0, 0);
    NewReachable(true, Some(Bidi), 0, 0);
    var s2 := WriteMessage(s1, []);
    StepReachable(s1, WriteStep([]));
    var s3 := WriteMessage(s2, []);
    StepReachable(s2, WriteStep([]));
    s := WriteDone(s3);
    StepReachable(s3, WriteDoneStep);
    assert s.wire == [] + [Headers] + [Data(Frame([]))];
    DataFramesAppend([], Headers);
    DataFramesAppend([] + [Headers], Data(Frame([])));
    assert WritesOver(s);
    hide DataFrames;
    forall after ensures DataFrames(Run(s, after).wire) == DataFrames(s.wire) { OverRun(s, after); }
  }
}
