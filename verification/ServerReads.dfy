/** What a server handler reads, over every run. */
module ServerReads {
  import opened Codec
  import opened StatusCodes
  import opened Server
  import opened ServerWire

  predicate IsMessage(e: ReadEvent) {
    e.code == OK && !e.eos
  }

  predicate IsEos(e: ReadEvent) {
    e.code == OK && e.eos
  }

  /** The messages that read callbacks were given. */
  function Delivered(log: seq<ReadEvent>): seq<Bytes> {
    if log == [] then []
    else
      var e := log[|log| - 1];
      Delivered(log[..|log| - 1]) + if IsMessage(e) then [e.msg] else []
  }

  lemma DeliveredAppend(log: seq<ReadEvent>, e: ReadEvent)
    ensures Delivered(log + [e]) == Delivered(log) + if IsMessage(e) then [e.msg] else []
  {
    assert (log + [e])[..|log|] == log;
  }

  function Stash(c: Ctx): seq<Bytes> {
    if c.StreamCtx? && c.first.Some? then [c.first.value] else []
  }

  /** Messages a handler can still read, in order. */
  function Unread(s: Stream): seq<Bytes> {
    Stash(s.info.ctx) + s.input.pending
  }

  /** Messages handed to reads, then the unread ones. */
  function Kept(s: Stream): seq<Bytes> {
    Delivered(s.readLog) + Unread(s)
  }

  predicate ReadOpen(s: Stream) {
    s.Present() && !s.input.finished && !s.output.responded
  }

  /** While the read side is open no message is lost or reordered. */
  predicate OrderlyReads(s: Stream) {
    ReadOpen(s) ==> Kept(s) == s.arrived
  }

  /** A waiting read means no message is unread; the backlog is bounded. */
  predicate ShapeInv(s: Stream) {
    var i := s.input;
    && (i.armed ==> Stash(s.info.ctx) == [] && i.pending == [])
    && |i.pending| <= QUEUE_BOUND
    && (s.info.form.ServerStreaming? ==> i.pending == [])
    && (s.info.form.Unary? && !i.requestDone ==> i.decoder.count == 0)
    && (!s.info.dispatched ==> s.arrived == [] && s.readLog == [] && i.pending == [] && !i.armed)
  }

  /** An OK end of stream was delivered. */
  predicate Ended(log: seq<ReadEvent>) {
    log != [] && (IsEos(log[|log| - 1]) || Ended(log[..|log| - 1]))
  }

  /** After an OK end of stream, reads only fail. */
  predicate EosIsLast(log: seq<ReadEvent>) {
    log != [] ==> EosIsLast(log[..|log| - 1]) && (log[|log| - 1].code == OK ==> !Ended(log[..|log| - 1]))
  }

  predicate EosInv(s: Stream) {
    && EosIsLast(s.readLog)
    && (Ended(s.readLog) ==> s.input.finished)
    && (s.input.halfClosed ==> s.input.requestDone && (s.info.dispatched ==> s.input.finished))
    && (!s.info.dispatched ==> s.readLog == [])
  }

  predicate ReadInv(s: Stream) {
    OrderlyReads(s) && ShapeInv(s) && EosInv(s)
  }

  // ---- one step -------------------------------------------------------------------------------

  /** A step of the write side or the clock: it may close the read side, and touches no message. */
  predicate QuietReads(s: Stream, t: Stream) {
    && (t.Present() ==> s.Present())
    && t.info == s.info
    && t.input == s.input.(finished := t.input.finished, decoder := t.input.decoder)
    && t.input.decoder.count == s.input.decoder.count
    && (s.input.finished ==> t.input.finished) && (s.output.responded ==> t.output.responded)
    && t.arrived == s.arrived && t.readLog == s.readLog
  }

  predicate ReadsStep(step: Step) {
    step.HeadersStep? || step.TakeStep? || step.EndStep? || step.ReadStep? || step.CloseStep?
  }

  lemma OthersAreQuiet(s: Stream, step: Step)
    requires !ReadsStep(step)
    ensures QuietReads(s, Apply(s, step))
  {
    hide WriteMessage, OnChunk, Frame;
    match step
    case WriteStep(p) => WriteIsQuiet(s, p);
    case ChunkStep(data) => ChunkIsQuiet(s, data);
    case _ =>
  }

  lemma ChunkIsQuiet(s: Stream, data: Bytes)
    ensures QuietReads(s, OnChunk(s, data))
  {
    hide Parse, FeedError;
  }

  lemma WriteIsQuiet(s: Stream, p: Bytes)
    ensures QuietReads(s, WriteMessage(s, p))
  {
  }

  lemma QuietKeepsReads(s: Stream, t: Stream)
    requires ReadInv(s) && QuietReads(s, t)
    ensures ReadInv(t)
  {
    hide Delivered, EosIsLast, Ended;
  }

  lemma ToldKept(s: Stream, i: Input, e: ReadEvent)
    ensures Kept(Told(s, i, e))
         == Delivered(s.readLog) + ((if IsMessage(e) then [e.msg] else []) + (Stash(s.info.ctx) + i.pending))
  {
    DeliveredAppend(s.readLog, e);
    hide Delivered;
    Assoc(Delivered(s.readLog), if IsMessage(e) then [e.msg] else [], Stash(s.info.ctx) + i.pending);
  }

  /** A read gives the callback what it takes from the unread messages. */
  lemma ReadKept(s: Stream)
    requires s.info.ctx.StreamCtx? && s.Present() && !s.input.finished
    ensures Kept(ReadMessage(s)) == Kept(s)
  {
    hide Delivered;
    var i, c := s.input, s.info.ctx;
    if c.first.Some? {
      ToldKept(s.(info := s.info.(ctx := StreamCtx(None))), i, ReadEvent(OK, false, c.first.value));
      assert [] + i.pending == i.pending;
    } else if i.pending != [] {
      ToldKept(s, i.(pending := i.pending[1..]), ReadEvent(OK, false, i.pending[0]));
      assert [i.pending[0]] + ([] + i.pending[1..]) == [] + i.pending;
    } else if i.halfClosed {
      ToldKept(s, i.(finished := true), ReadEvent(OK, true, []));
    } else if i.armed {
      ToldKept(s, i, ReadEvent(INTERNAL, false, []));
    }
  }

  /** A message goes to the waiting read, or behind the unread ones. */
  lemma DeliverKept(s: Stream, m: Bytes)
    requires ShapeInv(s) && s.Present() && !s.input.finished && (s.input.armed || |s.input.pending| < QUEUE_BOUND)
    ensures Kept(DeliverRead(s, m)) == Kept(s) + [m]
  {
    hide Delivered;
    var d, i := Delivered(s.readLog), s.input;
    if i.armed {
      ToldKept(s, i.(armed := false), ReadEvent(OK, false, m));
      assert d + ([m] + ([] + [])) == (d + ([] + [])) + [m];
    } else {
      assert Stash(s.info.ctx) + (i.pending + [m]) == Unread(s) + [m];
      Assoc(d, Unread(s), [m]);
    }
  }

  lemma TakeKeepsReads(s: Stream)
    requires ReadInv(s) && FormInv(s) && s.input.decoder.messages != []
    ensures ReadInv(TakeRequest(s))
  {
    if s.Present() && !s.input.requestDone && !s.info.form.Unary? {
      var m := s.input.decoder.messages[0];
      var t := Take(s).(arrived := s.arrived + [m]);
      hide EosIsLast, Ended;
      if !s.info.form.ServerStreaming? {
        hide Delivered;
        DeliverKeepsReads(t, m);
      } else if !s.info.dispatched {
        var u := DispatchStream(t, Some(m));
        assert Delivered(u.readLog) == [] && u.arrived == [m] && Unread(u) == [m];
      }
    }
  }

  lemma DeliverKeepsReads(t: Stream, m: Bytes)
    requires ShapeInv(t) && EosInv(t) && t.info.dispatched && !t.info.form.Unary? && !t.info.form.ServerStreaming?
    requires ReadOpen(t) ==> Kept(t) + [m] == t.arrived
    ensures ReadInv(DeliverRead(t, m))
  {
    var u := DeliverRead(t, m);
    assert EosInv(u) by { LogKeeps(t, u); }
    hide EosInv, Kept;
    if ReadOpen(u) { DeliverKept(t, m); }
  }

  /** The log is unchanged, or gained one event that the read side allows. */
  lemma LogKeeps(s: Stream, t: Stream)
    requires EosInv(s) && s.info.dispatched && t.info.dispatched && (s.input.finished ==> t.input.finished)
    requires t.input.halfClosed ==> t.input.finished && t.input.requestDone
    requires t.readLog == s.readLog || (t.readLog != [] && t.readLog == s.readLog + [t.readLog[|t.readLog| - 1]])
    requires t.readLog != s.readLog && t.readLog != [] ==>
               var e := t.readLog[|t.readLog| - 1];
               (e.code == OK ==> !s.input.finished) && (IsEos(e) ==> t.input.finished)
    ensures EosInv(t)
  {
    if t.readLog != s.readLog { assert t.readLog[..|t.readLog| - 1] == s.readLog; }
  }

  lemma ReadKeepsReads(s: Stream)
    requires ReadInv(s) && FormInv(s) && s.info.ctx.StreamCtx?
    ensures ReadInv(ReadMessage(s))
  {
    var t := ReadMessage(s);
    LogKeeps(s, t);
    hide EosInv, Kept;
    if ReadOpen(s) { ReadKept(s); }
  }

  lemma EndKeepsReads(s: Stream)
    requires ReadInv(s) && FormInv(s) && (s.info.form.Unary? || s.input.decoder.messages == [])
    ensures ReadInv(FinishRequest(s))
  {
    var t := FinishRequest(s);
    if s.Present() && !s.input.requestDone && s.info.dispatched {
      LogKeeps(s, t);
    }
    hide Delivered, EosIsLast, Ended;
  }

  lemma CloseKeepsReads(s: Stream, cause: Cause)
    requires ReadInv(s) && FormInv(s) && s.phase.Live?
    ensures ReadInv(OnStreamClose(s, cause))
  {
    if s.info.dispatched { LogKeeps(s, OnStreamClose(s, cause)); }
    hide Delivered, EosIsLast, Ended;
  }

  lemma HeadersKeepsReads(s: Stream, ok: bool, route: Option<Form>, limit: nat, ms: nat)
    requires s == Init()
    ensures ReadInv(OnHeaders(s, ok, route, limit, ms))
  {
  }

  lemma ReadStepKeeps(s: Stream, step: Step)
    requires ReadInv(s) && WireInv(s)
    ensures ReadInv(Apply(s, step))
  {
    assert FormInv(s);
    hide ReadInv, WireInv, FormInv, OnHeaders, OnChunk, TakeRequest, FinishRequest, ReadMessage, WriteMessage,
      WriteDone, FinishStream, Respond, Consumed, PumpOut, MaybeSendDeferredFinish, DeadlineFires, DeadlineResponds,
      OnStreamClose, FailQueued, FireCancel, Erase;
    if !ReadsStep(step) {
      OthersAreQuiet(s, step);
      hide Apply, QuietReads;
      QuietKeepsReads(s, Apply(s, step));
    } else if Enabled(s, step) {
      match step
      case HeadersStep(ok, route, limit, ms) =>
        assert s == Init() by { IdleIsInit(s); }
        HeadersKeepsReads(s, ok, route, limit, ms);
      case TakeStep => TakeKeepsReads(s);
      case EndStep => EndKeepsReads(s);
      case ReadStep => ReadKeepsReads(s);
      case CloseStep(cause) => CloseKeepsReads(s, cause);
    }
  }

  lemma IdleIsInit(s: Stream)
    requires FormInv(s) && s.phase.Idle?
    ensures s == Init()
  {
  }

  lemma {:induction false} ReadRun(s: Stream, steps: seq<Step>)
    requires ReadInv(s) && WireInv(s)
    ensures ReadInv(Run(s, steps)) && WireInv(Run(s, steps))
    decreases |steps|
  {
    hide ReadInv, WireInv, Apply;
    if steps != [] {
      ReadStepKeeps(s, steps[0]);
      WireStep(s, steps[0]);
      ReadRun(Apply(s, steps[0]), steps[1..]);
    }
  }

  // ---- messages that are discarded -------------------------------------------------------------

  /**
   A message is taken off the decoder and discarded while the read side stays open: the call has been
   responded to, by its deadline or after a framing error, and the backlog is full or the method
   wanted one message only.
   */
  predicate Discards(s: Stream, step: Step) {
    && step.TakeStep? && Enabled(s, step) && s.Present() && !s.input.requestDone && !s.info.form.Unary?
    && !s.input.finished && s.output.responded
    && if s.info.form.ServerStreaming? then s.info.dispatched else !s.input.armed && |s.input.pending| >= QUEUE_BOUND
  }

  /** How many messages a run discards. */
  function Discarded(s: Stream, steps: seq<Step>): nat
    decreases |steps|
  {
    if steps == [] then 0
    else (if Discards(s, steps[0]) then 1 else 0) + Discarded(Apply(s, steps[0]), steps[1..])
  }

  /** `n` messages have been discarded: what is kept falls short of what arrived by exactly that. */
  predicate GapInv(s: Stream, n: nat) {
    && (n == 0 ==> Kept(s) <= s.arrived)
    && (s.Present() && !s.input.finished ==> |Kept(s)| + n == |s.arrived|)
    && (s.phase.Idle? ==> n == 0)
  }

  lemma QuietKeepsGap(s: Stream, n: nat, t: Stream)
    requires GapInv(s, n) && QuietReads(s, t) && (t.phase.Idle? ==> s.phase.Idle?)
    ensures GapInv(t, n)
  {
    hide Delivered;
  }

  lemma DeliverKeepsGap(s: Stream, n: nat, m: Bytes, t: Stream)
    requires GapInv(s, n) && ShapeInv(s) && s.Present() && s.info.dispatched && s.input.decoder.messages != []
    requires t == Take(s).(arrived := s.arrived + [m]) && !s.info.form.Unary?
    ensures var d := !s.input.finished && s.output.responded && !s.input.armed && |s.input.pending| >= QUEUE_BOUND;
            GapInv(DeliverRead(t, m), if d then n + 1 else n)
  {
    assert Kept(t) == Kept(s) by { hide Delivered; }
    hide Kept;
    if !s.input.finished && (s.input.armed || |s.input.pending| < QUEUE_BOUND) {
      DeliverKept(t, m);
    } else {
      assert Kept(DeliverRead(t, m)) == Kept(t) by { DropKept(t, m); }
    }
  }

  lemma DropKept(s: Stream, m: Bytes)
    requires s.input.finished || (!s.input.armed && |s.input.pending| >= QUEUE_BOUND)
    ensures Kept(DeliverRead(s, m)) == Kept(s) && DeliverRead(s, m).arrived == s.arrived
  {
    hide Delivered;
  }

  lemma TakeKeepsGap(s: Stream, n: nat)
    requires GapInv(s, n) && ShapeInv(s) && FormInv(s) && s.input.decoder.messages != []
    ensures GapInv(TakeRequest(s), if Discards(s, TakeStep) then n + 1 else n)
  {
    if s.Present() && !s.input.requestDone && !s.info.form.Unary? {
      var m := s.input.decoder.messages[0];
      var t := Take(s).(arrived := s.arrived + [m]);
      if !s.info.form.ServerStreaming? {
        hide Kept, DeliverRead;
        DeliverKeepsGap(s, n, m, t);
      } else if s.info.dispatched {
        assert Kept(FinishStream(t, INTERNAL)) == Kept(s) by { hide Delivered; }
        hide Kept;
      } else {
        var u := DispatchStream(t, Some(m));
        assert Delivered(u.readLog) == [] && u.arrived == [m] && Unread(u) == [m];
        assert Kept(s) == [];
      }
    }
  }

  lemma ReadKeepsGap(s: Stream, n: nat)
    requires GapInv(s, n) && s.info.ctx.StreamCtx?
    ensures GapInv(ReadMessage(s), n)
  {
    var t := ReadMessage(s);
    assert Kept(t) == Kept(s) && t.arrived == s.arrived by {
      if s.Present() && !s.input.finished {
        ReadKept(s);
      } else {
        ToldKept(s, s.input, ReadEvent(UNAVAILABLE, s.Present() && s.input.halfClosed, []));
      }
      hide Delivered;
    }
    hide Kept;
  }

  predicate SameKept(s: Stream, t: Stream) {
    && Kept(t) == Kept(s) && t.arrived == s.arrived && t.phase == s.phase
    && (s.input.finished ==> t.input.finished)
  }

  lemma HalfCloseKept(s: Stream)
    requires s.info.dispatched || s.input.decoder.messages == []
    ensures SameKept(s, HalfClose(s))
  {
    ToldKept(s, s.input.(finished := true, armed := false), ReadEvent(OK, true, []));
    hide Delivered;
  }

  lemma EndKept(s: Stream)
    requires FormInv(s) && (s.info.form.Unary? || s.input.decoder.messages == [])
    ensures SameKept(s, FinishRequest(s))
  {
    var t := s.(input := s.input.(requestDone := true));
    if !s.info.form.Unary? { HalfCloseKept(t); }
    hide Delivered, HalfClose;
  }

  lemma EndKeepsGap(s: Stream, n: nat)
    requires GapInv(s, n) && FormInv(s) && (s.info.form.Unary? || s.input.decoder.messages == [])
    ensures GapInv(FinishRequest(s), n)
  {
    hide FinishRequest, Kept;
    EndKept(s);
  }

  lemma CloseKeepsGap(s: Stream, n: nat, cause: Cause)
    requires GapInv(s, n)
    ensures GapInv(OnStreamClose(s, cause), n)
  {
    ToldKept(s, s.input.(armed := false), ReadEvent(UNAVAILABLE, false, []));
    hide Delivered;
    assert Kept(OnStreamClose(s, cause)) == Kept(s);
  }

  lemma GapStep(s: Stream, n: nat, step: Step)
    requires GapInv(s, n) && ReadInv(s) && WireInv(s)
    ensures GapInv(Apply(s, step), if Discards(s, step) then n + 1 else n)
  {
    assert FormInv(s) && ShapeInv(s);
    hide GapInv, ReadInv, ShapeInv, WireInv, FormInv, OnHeaders, OnChunk, TakeRequest, FinishRequest, ReadMessage,
      WriteMessage, WriteDone, FinishStream, Respond, Consumed, PumpOut, MaybeSendDeferredFinish, DeadlineFires,
      DeadlineResponds, OnStreamClose, FailQueued, FireCancel, Erase;
    if !ReadsStep(step) {
      OthersAreQuiet(s, step);
      StaysIdle(s, step);
      hide Apply, QuietReads;
      QuietKeepsGap(s, n, Apply(s, step));
    } else if Enabled(s, step) {
      match step
      case HeadersStep(ok, route, limit, ms) =>
        IdleIsInit(s);
        HeadersKeepGap(s, n, ok, route, limit, ms);
      case TakeStep => TakeKeepsGap(s, n);
      case EndStep => EndKeepsGap(s, n);
      case ReadStep => ReadKeepsGap(s, n);
      case CloseStep(cause) => CloseKeepsGap(s, n, cause);
    }
  }

  lemma HeadersKeepGap(s: Stream, n: nat, ok: bool, route: Option<Form>, limit: nat, ms: nat)
    requires s == Init() && GapInv(s, n)
    ensures GapInv(OnHeaders(s, ok, route, limit, ms), n)
  {
  }

  lemma StaysIdle(s: Stream, step: Step)
    requires !ReadsStep(step)
    ensures Apply(s, step).phase.Idle? ==> s.phase.Idle?
  {
    hide Feed, FeedError;
  }

  lemma {:induction false} GapRun(s: Stream, n: nat, steps: seq<Step>)
    requires GapInv(s, n) && ReadInv(s) && WireInv(s)
    ensures GapInv(Run(s, steps), n + Discarded(s, steps))
    decreases |steps|
  {
    hide GapInv, ReadInv, WireInv, Apply, Discards;
    if steps != [] {
      GapStep(s, n, steps[0]);
      ReadStepKeeps(s, steps[0]);
      WireStep(s, steps[0]);
      GapRun(Apply(s, steps[0]), if Discards(s, steps[0]) then n + 1 else n, steps[1..]);
    }
  }

  // ---- whole runs -----------------------------------------------------------------------------

  /**
   In every run, while the read side is open, the messages given to read callbacks followed by the
   unread ones are the arrived ones in order if and only if none was discarded, which cannot happen
   before a response; later they stay a prefix. A waiting read and an unread message never coexist;
   at most 64 messages are unread; after an OK end of stream reads fail.
   */
  lemma ReadsInOrder(steps: seq<Step>)
    ensures var s := Run(Init(), steps);
            && (s.Present() && !s.input.finished ==>
                  && |Kept(s)| + Discarded(Init(), steps) == |s.arrived|
                  && (Kept(s) == s.arrived <==> Discarded(Init(), steps) == 0)
                  && (!s.output.responded ==> Discarded(Init(), steps) == 0))
            && (Discarded(Init(), steps) == 0 ==> Kept(s) <= s.arrived)
            && (s.input.armed ==> Unread(s) == [])
            && |s.input.pending| <= QUEUE_BOUND
            && EosIsLast(s.readLog)
  {
    ReadRun(Init(), steps);
    GapRun(Init(), 0, steps);
    hide Run, Discarded;
  }

  /**
   The next message reaches the handler's side if and only if a read waits or the backlog has room.
   When it does not, an open call is ended; a call that a deadline already ended drops the message
   and goes on reading.
   */
  lemma OverflowExactly(s: Stream, m: Bytes)
    requires ShapeInv(s) && s.Present() && !s.input.finished
    ensures var t := DeliverRead(s, m);
            && (Kept(t) == Kept(s) + [m] <==> s.input.armed || |s.input.pending| < QUEUE_BOUND)
            && (!s.input.armed && |s.input.pending| == QUEUE_BOUND ==>
                  if s.output.responded then t == s else t.output.responded && t.input.finished)
  {
    var t := DeliverRead(s, m);
    if s.input.armed || |s.input.pending| < QUEUE_BOUND {
      DeliverKept(s, m);
    } else {
      assert Kept(t) == Kept(s) by { hide Delivered; }
      assert |Kept(s) + [m]| == |Kept(s)| + 1;
    }
  }

  /** The read side is finished, and no message has been handed out since `s`. */
  predicate StaysFinished(s: Stream, t: Stream) {
    t.input.finished && Delivered(t.readLog) == Delivered(s.readLog)
  }

  lemma TakeStaysFinished(s: Stream)
    requires s.input.finished && s.input.decoder.messages != []
    ensures StaysFinished(s, TakeRequest(s))
  {
    hide Delivered;
  }

  lemma EndStaysFinished(s: Stream)
    requires s.input.finished
    ensures StaysFinished(s, FinishRequest(s))
  {
    hide Delivered;
  }

  lemma ReadStaysFinished(s: Stream)
    requires s.input.finished && s.info.ctx.StreamCtx?
    ensures StaysFinished(s, ReadMessage(s))
  {
    DeliveredAppend(s.readLog, ReadEvent(UNAVAILABLE, s.Present() && s.input.halfClosed, []));
    hide Delivered;
  }

  lemma CloseStaysFinished(s: Stream, cause: Cause)
    requires s.input.finished
    ensures StaysFinished(s, OnStreamClose(s, cause))
  {
    DeliveredAppend(s.readLog, ReadEvent(UNAVAILABLE, false, []));
    hide Delivered;
  }

  /** The read side stays finished, and a finished read side hands out no message. */
  lemma FinishedStep(s: Stream, step: Step)
    requires s.input.finished && FormInv(s)
    ensures StaysFinished(s, Apply(s, step))
  {
    assert !s.phase.Idle?;
    hide FormInv, OnHeaders, OnChunk, TakeRequest, FinishRequest, ReadMessage, WriteMessage, WriteDone, FinishStream,
      Respond, Consumed, PumpOut, MaybeSendDeferredFinish, DeadlineFires, DeadlineResponds, OnStreamClose, FailQueued,
      FireCancel, Erase, Delivered;
    if !ReadsStep(step) {
      OthersAreQuiet(s, step);
    } else if Enabled(s, step) {
      hide StaysFinished;
      match step
      case TakeStep => TakeStaysFinished(s);
      case EndStep => EndStaysFinished(s);
      case ReadStep => ReadStaysFinished(s);
      case CloseStep(cause) => CloseStaysFinished(s, cause);
    }
  }

  lemma {:induction false} FinishedRun(s: Stream, steps: seq<Step>)
    requires s.input.finished && WireInv(s)
    ensures Delivered(Run(s, steps).readLog) == Delivered(s.readLog)
    decreases |steps|
  {
    hide Apply, Delivered;
    if steps != [] {
      FinishedStep(s, steps[0]);
      WireStep(s, steps[0]);
      hide WireInv;
      FinishedRun(Apply(s, steps[0]), steps[1..]);
    }
  }

  /**
   Half-close, exactly: the handler is told OK end of stream if and only if a read waits at that
   moment, and what is unread then is never delivered.
   */
  lemma HalfCloseExactly(s: Stream, steps: seq<Step>)
    requires WireInv(s) && ReadInv(s) && s.Present() && s.info.dispatched
    requires !s.input.requestDone && !s.input.finished
    ensures var t := FinishRequest(s);
            && (Ended(t.readLog) <==> s.input.armed)
            && Delivered(Run(t, steps).readLog) == Delivered(s.readLog)
  {
    var t := FinishRequest(s);
    var e := ReadEvent(OK, true, []);
    assert t.input.finished && t.readLog == if s.input.armed then s.readLog + [e] else s.readLog by {
      hide Delivered, Ended, EosIsLast;
    }
    DeliveredAppend(s.readLog, e);
    assert (s.readLog + [e])[|s.readLog|] == e;
    FinishRequestKeeps(s);
    hide WireInv, Delivered;
    FinishedRun(t, steps);
  }

  // ---- a handler that keeps up ----------------------------------------------------------------

  /** A client-streaming or bidirectional call whose handler has a read armed. */
  predicate Waiting(s: Stream) {
    && s.phase.Live? && s.info.hasHandler && s.info.dispatched && (s.info.form.ClientStreaming? || s.info.form.Bidi?)
    && s.info.ctx == StreamCtx(None) && s.input.pending == []
    && s.input.armed && !s.input.finished && !s.input.requestDone && !s.input.halfClosed
  }

  /** Everything but the end of the request, of the call or of the stream. */
  predicate GoesOn(step: Step) {
    !step.EndStep? && !step.FinishStep? && !step.CloseStep? && !step.AbandonStep?
  }

  /** Whenever a message reaches the handler, it reads again. */
  function Turn(s: Stream, step: Step): Stream {
    if step.TakeStep? && Enabled(s, step) then Apply(Apply(s, TakeStep), ReadStep) else Apply(s, step)
  }

  function KeepUp(s: Stream, steps: seq<Step>): Stream
    decreases |steps|
  {
    if steps == [] then s else KeepUp(Turn(s, steps[0]), steps[1..])
  }

  /** The DATA bytes that arrive in the course of the steps. */
  function Fed(steps: seq<Step>): Bytes
    decreases |steps|
  {
    if steps == [] then [] else (if steps[0].ChunkStep? then steps[0].data else []) + Fed(steps[1..])
  }

  /** The decoder and the messages taken off it are the parse of the bytes that arrived. */
  ghost predicate ParsedInv(s: Stream, limit: nat, fed: Bytes) {
    var d, p := s.input.decoder, Parse(limit, fed);
    d.limit == limit && d.Residue() == p.rest && s.arrived + d.messages == p.messages
  }

  /** The handler has seen every message taken off the decoder, and no end of stream. */
  ghost predicate UpToDate(s: Stream, limit: nat, fed: Bytes) {
    && Waiting(s) && Delivered(s.readLog) == s.arrived && !Ended(s.readLog)
    && ParsedInv(s, limit, fed) && WireInv(s) && ReadInv(s)
  }

  lemma ChunkParsed(s: Stream, limit: nat, fed: Bytes, data: Bytes)
    requires ParsedInv(s, limit, fed) && s.Present() && !s.input.requestDone
    ensures ParsedInv(OnChunk(s, data), limit, fed + data)
  {
    hide Parse, Feed, FeedError, Decoder.Residue;
    if data == [] {
      assert fed + data == fed;
    } else {
      var d := s.input.decoder;
      FeedExtends(d, fed, data);
      Assoc(s.arrived, d.messages, Parse(limit, d.Residue() + data).messages);
    }
  }

  lemma TakeParsed(s: Stream, limit: nat, fed: Bytes)
    requires ParsedInv(s, limit, fed) && s.input.decoder.messages != []
    ensures ParsedInv(TakeRequest(s), limit, fed)
  {
    hide Parse;
    var d := s.input.decoder;
    assert s.arrived + [d.messages[0]] + d.messages[1..] == s.arrived + d.messages;
    assert Take(s).input.decoder.Residue() == d.Residue();
  }

  /** What a step that is neither DATA, nor a message, nor a read leaves alone. */
  lemma InputStays(s: Stream, step: Step)
    requires Waiting(s) && GoesOn(step) && !step.ChunkStep? && !step.TakeStep? && !step.ReadStep?
    requires FormInv(s)
    ensures var t := Apply(s, step);
            && t.input == s.input && t.info == s.info && t.phase == s.phase
            && t.arrived == s.arrived && t.readLog == s.readLog
  {
    hide Frame;
  }

  lemma ChunkStays(s: Stream, data: Bytes)
    requires Waiting(s)
    ensures var t := OnChunk(s, data);
            Waiting(t) && t.arrived == s.arrived && t.readLog == s.readLog
  {
    hide Feed, FeedError;
  }

  lemma TakeThenRearm(s: Stream)
    requires Waiting(s) && s.input.decoder.messages != []
    ensures var m, t := s.input.decoder.messages[0], Apply(Apply(s, TakeStep), ReadStep);
            && Waiting(t) && t.input.decoder == Take(s).input.decoder && t.arrived == s.arrived + [m]
            && t.readLog == s.readLog + [ReadEvent(OK, false, m)]
            && t == TakeRequest(s).(input := t.input)
  {
  }

  lemma MessageLogged(log: seq<ReadEvent>, e: ReadEvent)
    requires !IsEos(e) && !Ended(log)
    ensures !Ended(log + [e]) && Delivered(log + [e]) == Delivered(log) + if IsMessage(e) then [e.msg] else []
  {
    DeliveredAppend(log, e);
    assert (log + [e])[..|log|] == log;
  }

  lemma TakeTurn(s: Stream, limit: nat, fed: Bytes)
    requires UpToDate(s, limit, fed) && s.input.decoder.messages != []
    ensures UpToDate(Turn(s, TakeStep), limit, fed)
  {
    var t := Apply(s, TakeStep);
    var m := s.input.decoder.messages[0];
    WireStep(s, TakeStep);
    ReadStepKeeps(s, TakeStep);
    WireStep(t, ReadStep);
    ReadStepKeeps(t, ReadStep);
    TakeThenRearm(s);
    TakeParsed(s, limit, fed);
    MessageLogged(s.readLog, ReadEvent(OK, false, m));
    hide WireInv, ReadInv, Apply, Parse, Delivered, Ended, TakeRequest, Waiting;
  }

  lemma OtherTurn(s: Stream, limit: nat, fed: Bytes, step: Step)
    requires UpToDate(s, limit, fed) && GoesOn(step) && !(step.TakeStep? && Enabled(s, step))
    ensures UpToDate(Apply(s, step), limit, fed + if step.ChunkStep? then step.data else [])
  {
    var t := Apply(s, step);
    WireStep(s, step);
    ReadStepKeeps(s, step);
    assert FormInv(s);
    hide WireInv, ReadInv, Parse, Delivered, Ended;
    assert fed + [] == fed;
    if step.ChunkStep? {
      ChunkParsed(s, limit, fed, step.data);
      ChunkStays(s, step.data);
      hide OnChunk, ParsedInv;
    } else if step.ReadStep? {
      MessageLogged(s.readLog, ReadEvent(INTERNAL, false, []));
    } else if !step.TakeStep? {
      InputStays(s, step);
      hide Apply;
    }
  }

  lemma {:induction false} KeepsUp(s: Stream, limit: nat, fed: Bytes, steps: seq<Step>)
    requires UpToDate(s, limit, fed) && forall x :: x in steps ==> GoesOn(x)
    ensures UpToDate(KeepUp(s, steps), limit, fed + Fed(steps))
    decreases |steps|
  {
    if steps == [] {
      assert fed + [] == fed;
    } else {
      var more := if steps[0].ChunkStep? then steps[0].data else [];
      assert UpToDate(Turn(s, steps[0]), limit, fed + more) by {
        if steps[0].TakeStep? && Enabled(s, steps[0]) {
          TakeTurn(s, limit, fed);
          assert fed + more == fed;
        } else {
          OtherTurn(s, limit, fed, steps[0]);
        }
      }
      hide UpToDate, Turn, GoesOn;
      KeepsUp(Turn(s, steps[0]), limit, fed + more, steps[1..]);
      Assoc(fed, more, Fed(steps[1..]));
    }
  }

  /** The stream opens and its handler reads. */
  function Armed(form: Form, limit: nat, ms: nat): Stream {
    Apply(Apply(Init(), HeadersStep(true, Some(form), limit, ms)), ReadStep)
  }

  lemma ArmedUpToDate(form: Form, limit: nat, ms: nat)
    requires form.ClientStreaming? || form.Bidi?
    ensures UpToDate(Armed(form, limit, ms), limit, [])
  {
    var open := HeadersStep(true, Some(form), limit, ms);
    WireRun(Init(), []);
    ReadRun(Init(), []);
    WireStep(Init(), open);
    ReadStepKeeps(Init(), open);
    WireStep(Apply(Init(), open), ReadStep);
    ReadStepKeeps(Apply(Init(), open), ReadStep);
    hide WireInv, ReadInv;
  }

  /**
   A handler that reads again after every message: in every run, with any DATA, writes, consumption
   and deadline in between, it has been given, in order, exactly the messages of the bytes that
   arrived, save those still in the decoder, and no end of stream. When the request then ends, it is
   given one OK end of stream; it has seen every message, and no message or second end ever follows.
   */
  lemma RearmingHandlerSeesAll(form: Form, limit: nat, ms: nat, steps: seq<Step>)
    requires (form.ClientStreaming? || form.Bidi?) && forall x :: x in steps ==> GoesOn(x)
    ensures var s := KeepUp(Armed(form, limit, ms), steps);
            var all := Parse(limit, Fed(steps)).messages;
            && Waiting(s) && !Ended(s.readLog) && Delivered(s.readLog) + s.input.decoder.messages == all
            && (s.input.decoder.messages == [] ==>
                  var t := FinishRequest(s);
                  && t.readLog == s.readLog + [ReadEvent(OK, true, [])]
                  && forall after :: Delivered(Run(t, after).readLog) == all && EosIsLast(Run(t, after).readLog))
  {
    ArmedUpToDate(form, limit, ms);
    hide Armed;
    KeepsUp(Armed(form, limit, ms), limit, [], steps);
    var s := KeepUp(Armed(form, limit, ms), steps);
    assert [] + Fed(steps) == Fed(steps);
    if s.input.decoder.messages == [] { EndOnce(s, limit, Fed(steps)); }
  }

  lemma EndOnce(s: Stream, limit: nat, fed: Bytes)
    requires UpToDate(s, limit, fed) && s.input.decoder.messages == []
    ensures var t := FinishRequest(s);
            && t.readLog == s.readLog + [ReadEvent(OK, true, [])]
            && forall after :: Delivered(Run(t, after).readLog) == Parse(limit, fed).messages
                               && EosIsLast(Run(t, after).readLog)
  {
    var t := FinishRequest(s);
    assert t == Apply(s, EndStep);
    WireStep(s, EndStep);
    ReadStepKeeps(s, EndStep);
    assert t.readLog == s.readLog + [ReadEvent(OK, true, [])] && t.input.finished by {
      hide WireInv, ReadInv, ParsedInv;
    }
    DeliveredAppend(s.readLog, ReadEvent(OK, true, []));
    assert s.arrived + [] == s.arrived;
    assert Delivered(t.readLog) == Parse(limit, fed).messages;
    hide FinishRequest, Apply;
    forall after
      ensures Delivered(Run(t, after).readLog) == Parse(limit, fed).messages && EosIsLast(Run(t, after).readLog)
    {
      FinishedRun(t, after);
      ReadRun(t, after);
    }
  }

  /** The "multiple request messages" test of unary calls cannot fire: the first message is handled. */
  lemma UnaryTakesFirst(steps: seq<Step>)
    ensures var s := Run(Init(), steps);
            s.Present() && s.info.form.Unary? && s.info.hasHandler && !s.input.requestDone
              && s.input.decoder.messages != [] ==>
              && FinishRequest(s).handled == s.handled + [s.input.decoder.messages[0]]
              && FinishRequest(s).info.ctx.UnaryCtx? && FinishRequest(s).wire == s.wire
  {
    ReadRun(Init(), steps);
  }
}
