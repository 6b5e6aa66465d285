/** What a server stream submits to HTTP/2, over every run. */
module ServerWire {
  import opened Codec
  import opened StatusCodes
  import opened Server

  // ---- the shape of a response ----------------------------------------------------------------

  /** A response that may still grow: nothing, or headers and any number of messages. */
  predicate OpenForm(w: seq<Wire>) {
    w != [] ==> w[0].Headers? && forall i :: 1 <= i < |w| ==> w[i].Data?
  }

  predicate Terminal(x: Wire) {
    x.Trailers? || x.TrailersOnly?
  }

  /** A prefix of HEADERS DATA* TRAILERS, or one trailers-only block (RFC 9113, section 8.1). */
  predicate Grammar(w: seq<Wire>) {
    || OpenForm(w)
    || (|w| == 1 && w[0].TrailersOnly?)
    || (|w| >= 2 && OpenForm(w[..|w| - 1]) && w[|w| - 1].Trailers?)
  }

  predicate OkEnded(w: seq<Wire>) {
    w != [] && Terminal(w[|w| - 1]) && w[|w| - 1].code == OK
  }

  /** The framed messages in a response, in order. */
  function DataFrames(w: seq<Wire>): seq<Bytes> {
    if w == [] then []
    else
      var x := w[|w| - 1];
      DataFrames(w[..|w| - 1]) + if x.Data? then [x.framed] else []
  }

  function FrameEach(msgs: seq<Bytes>): (r: seq<Bytes>)
    ensures |r| == |msgs|
  {
    seq(|msgs|, i requires 0 <= i < |msgs| => Frame(msgs[i]))
  }

  function QueueFrames(q: seq<OutMsg>): (r: seq<Bytes>)
    ensures |r| == |q|
  {
    seq(|q|, i requires 0 <= i < |q| => q[i].framed)
  }

  lemma DataFramesAppend(w: seq<Wire>, x: Wire)
    ensures DataFrames(w + [x]) == DataFrames(w) + if x.Data? then [x.framed] else []
  {
    assert (w + [x])[..|w|] == w;
  }

  // ---- the invariant --------------------------------------------------------------------------

  /** A context belongs to the kind of call it was made for; without one nothing was ever written. */
  predicate FormInv(s: Stream) {
    var i, o := s.info, s.output;
    && (i.ctx.StreamCtx? <==> i.dispatched)
    && (i.dispatched ==> !i.form.Unary?)
    && (i.ctx.UnaryCtx? ==> i.form.Unary?)
    && (!i.form.Unary? ==> i.hasHandler)
    && (i.form.ClientStreaming? || i.form.Bidi? ==> i.dispatched)
    && (!i.dispatched ==> o.queue == [] && !o.inflight && !o.headersSent && o.finish.None?)
    && (!i.dispatched && !o.responded ==> s.accepted == [])
    && (s.phase.Idle? ==> s == Init())
  }

  /** The flags agree with what was submitted. */
  predicate FlagInv(s: Stream) {
    var o := s.output;
    && (o.finish.Some? ==> o.responded && o.closed)
    && (s.Present() ==> (o.inflight <==> s.body.Some?))
    && (s.phase.Live? ==> s.hold == Hold(true, false)) && (s.hold.dead ==> s.body.Some?)
    && |o.queue| <= QUEUE_BOUND
    && (s.phase.Live? && !o.responded ==> OpenForm(s.wire) && (o.headersSent <==> s.wire != []))
    && (s.phase.Live? && o.finish.Some? ==> OpenForm(s.wire) && s.wire != [])
  }

  /** Response headers precede anything that waits. */
  predicate HeadersFirst(s: Stream) {
    s.Present() && (s.output.queue != [] || s.output.inflight) ==> s.output.headersSent
  }

  /** Submitted messages, then queued ones, are the accepted ones. */
  predicate OrderInv(s: Stream) {
    && (s.phase.Live? ==> DataFrames(s.wire) + QueueFrames(s.output.queue) == FrameEach(s.accepted))
    && DataFrames(s.wire) <= FrameEach(s.accepted)
    && (OkEnded(s.wire) ==> DataFrames(s.wire) == FrameEach(s.accepted) && (s.Present() ==> s.output.responded))
  }

  predicate WireInv(s: Stream) {
    FormInv(s) && FlagInv(s) && HeadersFirst(s) && Grammar(s.wire) && OrderInv(s)
  }

  // ---- one step -------------------------------------------------------------------------------

  /** A step of the read or request side: it submits, queues and consumes nothing. */
  predicate Quiet(s: Stream, t: Stream) {
    && !s.phase.Idle?
    && t.phase == s.phase && t.wire == s.wire && t.accepted == s.accepted && t.body == s.body && t.hold == s.hold
    && t.info.form == s.info.form && t.info.hasHandler == s.info.hasHandler
    && t.info.dispatched == s.info.dispatched && t.info.ctx.StreamCtx? == s.info.ctx.StreamCtx?
    && (t.info.ctx.UnaryCtx? ==> s.info.ctx.UnaryCtx? || s.info.form.Unary?)
    && t.output == s.output.(responded := t.output.responded, closed := t.output.closed)
    && (s.output.responded ==> t.output.responded) && (s.output.closed ==> t.output.closed)
  }

  lemma QuietKeeps(s: Stream, t: Stream)
    requires WireInv(s) && Quiet(s, t)
    ensures WireInv(t)
  {
  }

  /** Submitting one more item in a place where the response is still open. */
  lemma OpenGrows(w: seq<Wire>, x: Wire)
    requires OpenForm(w)
    requires if w == [] then x.Headers? || x.TrailersOnly? else x.Data? || x.Trailers?
    ensures Grammar(w + [x])
    ensures !Terminal(x) ==> OpenForm(w + [x])
  {
    if w != [] { assert (w + [x])[..|w|] == w; }
  }

  /** Ending an open response: when the status is OK, everything accepted must be in it. */
  lemma EndKeeps(s: Stream, t: Stream, x: Wire)
    requires WireInv(s) && s.phase.Live? && OpenForm(s.wire)
    requires Terminal(x) && (x.TrailersOnly? <==> s.wire == [])
    requires x.code == OK ==> s.output.queue == []
    requires t.output.responded && t.output.finish.None?
    requires t.output == s.output.(responded := true, closed := t.output.closed, finish := None)
    requires t == s.(output := t.output, input := t.input, clock := t.clock, wire := s.wire + [x])
    ensures WireInv(t)
  {
    OpenGrows(s.wire, x);
    DataFramesAppend(s.wire, x);
  }

  /** Also for a message just queued, which the pump takes at once when nothing is in flight. */
  lemma QueuedPumpKeeps(s: Stream)
    requires FormInv(s) && FlagInv(s) && Grammar(s.wire) && OrderInv(s)
    requires HeadersFirst(s) || (!s.output.inflight && !s.output.responded && !s.output.closed)
    ensures WireInv(PumpOut(s))
  {
    hide Grammar, OpenForm, DataFrames;
    var o := s.output;
    if s.phase.Live? && !o.inflight && o.queue != [] && !o.responded && !o.closed {
      var x := Data(o.queue[0].framed);
      assert QueueFrames(o.queue) == [x.framed] + QueueFrames(o.queue[1..]);
      var w := if o.headersSent then s.wire else s.wire + [Headers];
      if !o.headersSent {
        OpenGrows(s.wire, Headers);
        DataFramesAppend(s.wire, Headers);
      }
      OpenGrows(w, x);
      DataFramesAppend(w, x);
      assert PumpOut(s).wire == w + [x];
    }
  }

  lemma PumpKeeps(s: Stream)
    requires WireInv(s)
    ensures WireInv(PumpOut(s))
  {
    QueuedPumpKeeps(s);
  }

  /** Deferring a finish behind what is outstanding. */
  lemma DeferKeeps(s: Stream, t: Stream, code: int)
    requires WireInv(s) && s.Present() && !s.output.responded && (s.output.inflight || s.output.queue != [])
    requires t == s.(output := s.output.(responded := true, closed := true, finish := Some(code)),
                     input := t.input, clock := t.clock)
    ensures WireInv(t)
  {
  }

  lemma FinishKeeps(s: Stream, code: int)
    requires WireInv(s) && (s.info.dispatched || s.info.ctx.StreamCtx?)
    ensures WireInv(FinishStream(s, code))
  {
    hide Grammar, OpenForm, OrderInv;
    var o, t := s.output, FinishStream(s, code);
    if s.phase.Live? && !o.responded && !o.inflight && o.queue == [] {
      EndKeeps(s, t, if o.headersSent then Trailers(code) else TrailersOnly(code));
    } else if s.Present() && !o.responded && (o.inflight || o.queue != []) {
      DeferKeeps(s, t, code);
    } else {
      QuietKeeps(s, t);
    }
  }

  lemma EnqueueKeeps(s: Stream, payload: Bytes)
    requires WireInv(s) && s.Present() && s.info.dispatched
    requires !s.output.responded && !s.output.closed && |s.output.queue| < QUEUE_BOUND
    ensures var t := Enqueue(s, payload); FormInv(t) && FlagInv(t) && OrderInv(t)
  {
    var q, m := s.output.queue, OutMsg(s.writes, Frame(payload));
    assert QueueFrames(q + [m]) == QueueFrames(q) + [m.framed];
    assert FrameEach(s.accepted + [payload]) == FrameEach(s.accepted) + [m.framed];
  }

  lemma WriteKeeps(s: Stream, payload: Bytes)
    requires WireInv(s) && s.info.ctx.StreamCtx?
    ensures WireInv(WriteMessage(s, payload))
  {
    var o := s.output;
    if s.Present() && !o.responded && !o.closed && |o.queue| < QUEUE_BOUND {
      EnqueueKeeps(s, payload);
      QueuedPumpKeeps(Enqueue(s, payload));
    }
  }

  lemma TrailersOnlyKeeps(s: Stream, code: int)
    requires WireInv(s) && !s.output.headersSent && code != OK
    ensures WireInv(TrailersOnlyResponse(s, code))
  {
    hide Grammar, OpenForm, OrderInv;
    var t := TrailersOnlyResponse(s, code);
    if s.phase.Live? && !s.output.responded { EndKeeps(s, t, TrailersOnly(code)); }
    else if s.Present() { QuietKeeps(s, t); }
  }

  lemma RespondKeeps(s: Stream, code: int, payload: Bytes)
    requires WireInv(s) && s.info.ctx.UnaryCtx?
    ensures WireInv(Respond(s, code, payload))
  {
    var t := Respond(s, code, payload);
    if s.Present() && !s.output.responded && code == OK {
      RespondOkKeeps(s, t, payload);
    } else {
      hide Grammar, OpenForm, OrderInv;
      if s.phase.Live? && !s.output.responded { EndKeeps(s, t, TrailersOnly(code)); }
      else { QuietKeeps(s, t); }
    }
  }

  lemma UnaryWire(framed: Bytes)
    ensures var w := [Headers, Data(framed), Trailers(OK)]; Grammar(w) && DataFrames(w) == [framed]
  {
    var d := Data(framed);
    var w := [Headers, d, Trailers(OK)];
    assert w[..2] == [Headers, d];
    DataFramesAppend([], Headers);
    DataFramesAppend([Headers], d);
    DataFramesAppend(w[..2], Trailers(OK));
    assert [Headers] + [d] == w[..2] && w[..2] + [Trailers(OK)] == w;
  }

  lemma RespondOkKeeps(s: Stream, t: Stream, payload: Bytes)
    requires WireInv(s) && s.info.ctx.UnaryCtx? && s.Present() && !s.output.responded
    requires s.phase.Live? ==> t.wire == [Headers, Data(Frame(payload)), Trailers(OK)]
    requires !s.phase.Live? ==> t.wire == s.wire
    requires t == Settled(s).(accepted := s.accepted + [payload], wire := t.wire)
    ensures WireInv(t)
  {
    hide Grammar, OpenForm, DataFrames, Frame;
    UnaryWire(Frame(payload));
    assert FrameEach(t.accepted) == FrameEach(s.accepted) + [Frame(payload)];
  }

  lemma DeadlineKeeps(s: Stream)
    requires WireInv(s) && s.clock.due
    ensures WireInv(DeadlineResponds(s))
  {
    hide Grammar, OpenForm, OrderInv;
    var o, t := s.output, DeadlineResponds(s);
    if s.phase.Live? && !o.responded {
      EndKeeps(s, t, if o.headersSent then Trailers(DEADLINE_EXCEEDED) else TrailersOnly(DEADLINE_EXCEEDED));
    } else {
      QuietKeeps(s, t);
    }
  }

  lemma DeferredKeeps(s: Stream)
    requires WireInv(s)
    ensures WireInv(MaybeSendDeferredFinish(s))
  {
    hide Grammar, OpenForm;
    var o, t := s.output, MaybeSendDeferredFinish(s);
    if s.phase.Live? && o.finish.Some? && !o.inflight && o.queue == [] {
      EndKeeps(s, t, Trailers(o.finish.value));
    }
  }

  lemma DispatchKeeps(s: Stream, first: Option<Bytes>)
    requires WireInv(s) && s.Present() && !s.info.form.Unary?
    ensures WireInv(DispatchStream(s, first))
  {
  }

  lemma DeliverKeeps(s: Stream, msg: Bytes)
    requires WireInv(s) && s.Present() && s.info.dispatched
    ensures WireInv(DeliverRead(s, msg))
  {
    hide WireInv;
    if !s.input.finished && !s.input.armed && |s.input.pending| >= QUEUE_BOUND {
      FinishKeeps(s, RESOURCE_EXHAUSTED);
    } else {
      QuietKeeps(s, DeliverRead(s, msg));
    }
  }

  lemma TakeKeeps(s: Stream)
    requires WireInv(s) && s.input.decoder.messages != []
    ensures WireInv(TakeRequest(s))
  {
    var i := s.info;
    assert i.form.ClientStreaming? || i.form.Bidi? ==> i.dispatched;
    hide WireInv, DeliverRead, FinishStream, DispatchStream;
    if s.Present() && !s.input.requestDone && !i.form.Unary? {
      var m := s.input.decoder.messages[0];
      var t := Take(s).(arrived := s.arrived + [m]);
      QuietKeeps(s, t);
      if !i.form.ServerStreaming? { DeliverKeeps(t, m); }
      else if i.dispatched { FinishKeeps(t, INTERNAL); }
      else { DispatchKeeps(t, Some(m)); }
    }
  }

  lemma FinishRequestKeeps(s: Stream)
    requires WireInv(s)
    ensures WireInv(FinishRequest(s))
  {
    assert !s.info.hasHandler ==> s.info.form.Unary?;
    assert s.info.form.Unary? ==> !s.output.headersSent;
    hide WireInv, TrailersOnlyResponse, HalfClose;
    if s.Present() && !s.input.requestDone {
      var t := s.(input := s.input.(requestDone := true));
      QuietKeeps(s, t);
      if !s.info.form.Unary? {
        HalfCloseKeeps(t);
      } else {
        TrailersOnlyKeeps(t, UNIMPLEMENTED);
        TrailersOnlyKeeps(t, INTERNAL);
        if s.info.hasHandler && s.input.decoder.count == 0 && s.input.decoder.messages != [] {
          QuietKeeps(t, FinishRequest(s));
        }
      }
    }
  }

  lemma HalfCloseKeeps(s: Stream)
    requires WireInv(s) && s.Present() && !s.info.form.Unary?
    ensures WireInv(HalfClose(s))
  {
    var d, t := s.input.decoder, s.(input := s.input.(halfClosed := true));
    assert s.info.form.ClientStreaming? || s.info.form.Bidi? ==> s.info.dispatched;
    assert !s.info.dispatched ==> !s.output.headersSent;
    hide WireInv, TrailersOnlyResponse, DispatchStream;
    QuietKeeps(s, t);
    if s.info.dispatched {
      QuietKeeps(t, DeliverEos(t));
    } else if d.messages == [] {
      TrailersOnlyKeeps(t, INTERNAL);
    } else {
      var u := Take(t).(arrived := t.arrived + [d.messages[0]]);
      QuietKeeps(t, u);
      DispatchKeeps(u, Some(d.messages[0]));
    }
  }

  lemma ChunkKeeps(s: Stream, data: Bytes)
    requires WireInv(s)
    ensures WireInv(OnChunk(s, data))
  {
    hide WireInv, Feed, FeedError;
    if s.Present() { QuietKeeps(s, OnChunk(s, data)); }
  }

  lemma ReadKeeps(s: Stream)
    requires WireInv(s) && s.info.ctx.StreamCtx?
    ensures WireInv(ReadMessage(s))
  {
    assert !s.phase.Idle?;
    hide WireInv;
    QuietKeeps(s, ReadMessage(s));
  }

  lemma WriteDoneKeeps(s: Stream)
    requires WireInv(s)
    ensures WireInv(WriteDone(s))
  {
    hide WireInv;
    if s.Present() { QuietKeeps(s, WriteDone(s)); }
  }

  lemma DeadlineFiresKeeps(s: Stream)
    requires WireInv(s)
    ensures WireInv(DeadlineFires(s))
  {
    hide WireInv;
    if s.Present() { QuietKeeps(s, DeadlineFires(s)); }
  }

  lemma ConsumedKeeps(s: Stream)
    requires WireInv(s) && s.body.Some? && !s.hold.dead
    ensures WireInv(Consumed(s))
  {
  }

  /** Leaving the live phase: nothing can be submitted any more. */
  lemma LeaveKeeps(s: Stream, t: Stream)
    requires WireInv(s) && s.Present() && !t.phase.Idle? && !t.phase.Live?
    requires t == s.(phase := t.phase, output := s.output.(queue := t.output.queue), input := t.input, clock := t.clock,
                     fired := t.fired, readLog := t.readLog, hold := t.hold)
    requires t.output.queue == s.output.queue || (s.output.queue != [] && t.output.queue == s.output.queue[1..])
    requires t.hold.dead ==> s.body.Some?
    ensures WireInv(t)
  {
  }

  lemma DeadIsBody(s: Stream)
    requires WireInv(s)
    ensures s.hold.dead ==> s.body.Some?
  {
  }

  lemma CloseKeeps(s: Stream, cause: Cause)
    requires WireInv(s) && s.Present()
    ensures WireInv(OnStreamClose(s, cause)) && WireInv(FireCancel(s)) && WireInv(Erase(s))
    ensures s.phase.Failing? && s.output.queue != [] ==> WireInv(FailQueued(s))
  {
    hide WireInv;
    DeadIsBody(s);
    LeaveKeeps(s, OnStreamClose(s, cause));
    LeaveKeeps(s, FireCancel(s));
    LeaveKeeps(s, Erase(s));
    if s.phase.Failing? && s.output.queue != [] { LeaveKeeps(s, FailQueued(s)); }
  }

  lemma HeadersKeeps(s: Stream, ok: bool, route: Option<Form>, limit: nat, ms: nat)
    requires WireInv(s) && s.phase.Idle?
    ensures WireInv(OnHeaders(s, ok, route, limit, ms))
  {
    DataFramesAppend([], TrailersOnly(INTERNAL));
  }

  lemma WireStep(s: Stream, step: Step)
    requires WireInv(s)
    ensures WireInv(Apply(s, step))
  {
    hide WireInv, OnHeaders, OnChunk, TakeRequest, FinishRequest, ReadMessage, WriteMessage, WriteDone, FinishStream,
      Respond, Consumed, PumpOut, MaybeSendDeferredFinish, DeadlineFires, DeadlineResponds, OnStreamClose, FailQueued,
      FireCancel, Erase;
    if Enabled(s, step) {
      match step
      case HeadersStep(ok, route, limit, ms) => HeadersKeeps(s, ok, route, limit, ms);
      case ChunkStep(data) => ChunkKeeps(s, data);
      case TakeStep => TakeKeeps(s);
      case EndStep => FinishRequestKeeps(s);
      case ReadStep => ReadKeeps(s);
      case WriteStep(p) => WriteKeeps(s, p);
      case WriteDoneStep => WriteDoneKeeps(s);
      case FinishStep(code) => FinishKeeps(s, code);
      case RespondStep(code, p) => RespondKeeps(s, code, p);
      case ConsumedStep => ConsumedKeeps(s);
      case PumpStep => PumpKeeps(s);
      case DeferredStep => DeferredKeeps(s);
      case DeadlineStep => DeadlineFiresKeeps(s);
      case DeadlineRespondStep => DeadlineKeeps(s);
      case CloseStep(cause) => CloseKeeps(s, cause);
      case FailStep => CloseKeeps(s, ConnectionLost);
      case CancelStep => CloseKeeps(s, ConnectionLost);
      case EraseStep => CloseKeeps(s, ConnectionLost);
      case AbandonStep => CloseKeeps(s, ConnectionLost);
    }
  }

  // ---- whole runs -----------------------------------------------------------------------------

  lemma {:induction false} WireRun(s: Stream, steps: seq<Step>)
    requires WireInv(s)
    ensures WireInv(Run(s, steps))
    decreases |steps|
  {
    if steps != [] {
      WireStep(s, steps[0]);
      WireRun(Apply(s, steps[0]), steps[1..]);
    }
  }

  /**
   In every run the submissions follow the response grammar, the messages among them are the first
   accepted ones in order, and an OK terminal means all of them.
   */
  lemma ServerWireGrammar(steps: seq<Step>)
    ensures var s := Run(Init(), steps);
            && Grammar(s.wire)
            && DataFrames(s.wire) <= FrameEach(s.accepted)
            && (OkEnded(s.wire) ==> DataFrames(s.wire) == FrameEach(s.accepted))
            && |s.output.queue| <= QUEUE_BOUND
  {
    WireRun(Init(), steps);
  }

  /** No submission is possible any more: the stream closed, or its terminal state is behind it. */
  predicate Frozen(s: Stream) {
    !s.phase.Idle? && (s.phase.Live? ==> s.output.responded && s.output.finish.None?)
  }

  /** A finish waits behind messages that the pump refuses to send. */
  predicate Stuck(s: Stream) {
    s.phase.Live? && s.output.responded && s.output.closed && s.output.finish.Some? && s.output.queue != []
  }

  lemma FrozenStep(s: Stream, step: Step)
    requires Frozen(s)
    ensures Frozen(Apply(s, step)) && Apply(s, step).wire == s.wire
  {
    hide Feed, FeedError;
  }

  lemma StuckStep(s: Stream, step: Step)
    requires Stuck(s)
    ensures var t := Apply(s, step);
            t.wire == s.wire && !t.phase.Idle? && (t.phase.Live? ==> Stuck(t) && t.output.queue == s.output.queue)
  {
    hide Feed, FeedError;
  }

  /** Nothing follows a terminal, and nothing follows a close, whatever happens next. */
  lemma {:induction false} FrozenRun(s: Stream, steps: seq<Step>)
    requires Frozen(s)
    ensures Run(s, steps).wire == s.wire
    decreases |steps|
  {
    if steps != [] {
      FrozenStep(s, steps[0]);
      FrozenRun(Apply(s, steps[0]), steps[1..]);
    }
  }

  /** A finish deferred over queued messages: neither they nor the trailers are ever submitted. */
  lemma {:induction false} StuckRun(s: Stream, steps: seq<Step>)
    requires Stuck(s)
    ensures Run(s, steps).wire == s.wire
    ensures Run(s, steps).phase.Live? ==> Run(s, steps).output.queue == s.output.queue
    decreases |steps|
  {
    if steps != [] {
      var t := Apply(s, steps[0]);
      StuckStep(s, steps[0]);
      if t.phase.Live? {
        StuckRun(t, steps[1..]);
      } else {
        FrozenRun(t, steps[1..]);
        NotLiveRun(t, steps[1..]);
      }
    }
  }

  lemma ClosedStep(s: Stream, step: Step)
    requires !s.phase.Idle? && !s.phase.Live?
    ensures !Apply(s, step).phase.Idle? && !Apply(s, step).phase.Live?
  {
    hide Feed, FeedError;
  }

  lemma {:induction false} NotLiveRun(s: Stream, steps: seq<Step>)
    requires !s.phase.Idle? && !s.phase.Live?
    ensures !Run(s, steps).phase.Idle? && !Run(s, steps).phase.Live?
    decreases |steps|
  {
    if steps != [] {
      ClosedStep(s, steps[0]);
      hide Apply;
      NotLiveRun(Apply(s, steps[0]), steps[1..]);
    }
  }

  /** A finish waits for the body in flight, and for nothing else. */
  predicate Deferred(s: Stream, code: int) {
    s.phase.Live? && s.output.responded && s.output.closed && s.output.finish == Some(code) && s.output.queue == []
  }

  lemma DeferredStepKeeps(s: Stream, code: int, step: Step)
    requires Deferred(s, code)
    ensures var t := Apply(s, step);
            || (Deferred(t, code) && t.wire == s.wire)
            || (Frozen(t) && !t.phase.Live? && t.wire == s.wire)
            || (Frozen(t) && t.wire == s.wire + [Trailers(code)])
    ensures !s.output.inflight ==> Apply(s, DeferredStep).wire == s.wire + [Trailers(code)]
  {
    hide Feed, FeedError;
  }

  /** What has become of a deferred finish: sent, or due at the next deferred step with nothing in flight. */
  predicate FinishHolds(before: seq<Wire>, code: int, s: Stream) {
    || s.wire == before + [Trailers(code)]
    || (s.wire == before && !s.phase.Live?)
    || (s.wire == before && Deferred(s, code)
        && (!s.output.inflight ==> Apply(s, DeferredStep).wire == before + [Trailers(code)]))
  }

  lemma {:induction false} DeferredRun(s: Stream, code: int, steps: seq<Step>)
    requires Deferred(s, code)
    ensures FinishHolds(s.wire, code, Run(s, steps))
    decreases |steps|
  {
    if steps == [] {
      DeferredStepKeeps(s, code, DeferredStep);
    } else {
      var t := Apply(s, steps[0]);
      DeferredStepKeeps(s, code, steps[0]);
      hide Apply;
      if Deferred(t, code) && t.wire == s.wire {
        DeferredRun(t, code, steps[1..]);
      } else {
        FrozenRun(t, steps[1..]);
        if !t.phase.Live? { NotLiveRun(t, steps[1..]); }
      }
    }
  }

  /**
   The deferred finish, exactly. A finish on an open stream ends the response in some continuation
   if and only if no message is queued. With one queued, no continuation submits anything. With only
   a body in flight, every continuation has ended the response with the status, or has closed the
   stream, or still holds the status and submits it as soon as the body is consumed. With nothing
   outstanding, the response is ended at once and for good.
   */
  lemma DeferredFinish(s: Stream, code: int)
    requires WireInv(s) && s.phase.Live? && s.info.dispatched && !s.output.responded
    ensures var t := FinishStream(s, code);
            (exists steps :: Ends(s.wire, t, steps, code)) <==> s.output.queue == []
    ensures var t := FinishStream(s, code);
            && (s.output.queue != [] ==> forall steps :: Run(t, steps).wire == s.wire)
            && (s.output.queue == [] && s.output.inflight ==> forall steps :: FinishHolds(s.wire, code, Run(t, steps)))
            && (s.output.queue == [] && !s.output.inflight ==> forall steps :: Ends(s.wire, t, steps, code))
  {
    var t := FinishStream(s, code);
    if s.output.queue != [] {
      forall steps ensures Run(t, steps).wire == s.wire && !Ends(s.wire, t, steps, code) {
        StuckRun(t, steps);
      }
    } else if s.output.inflight {
      assert Deferred(t, code) && t.wire == s.wire;
      forall steps ensures FinishHolds(s.wire, code, Run(t, steps)) {
        DeferredRun(t, code, steps);
      }
      var u := Apply(t, ConsumedStep);
      var v := Apply(u, DeferredStep);
      assert v.wire == s.wire + [Trailers(code)];
      TwoSteps(t, ConsumedStep, DeferredStep);
      var steps := [ConsumedStep, DeferredStep];
      assert Ends(s.wire, t, steps, code);
    } else {
      assert Frozen(t);
      var none: seq<Step> := [];
      forall steps ensures Ends(s.wire, t, steps, code) {
        FrozenRun(t, steps);
      }
      assert Ends(s.wire, t, none, code);
    }
  }

  /** After `steps` the response `before` has been ended with `code`. */
  predicate Ends(before: seq<Wire>, t: Stream, steps: seq<Step>, code: int) {
    var after := Run(t, steps).wire;
    after == before + [Trailers(code)] || after == before + [TrailersOnly(code)]
  }

  lemma TwoSteps(s: Stream, a: Step, b: Step)
    ensures Run(s, [a, b]) == Apply(Apply(s, a), b)
  {
    hide Apply;
    assert [a, b][1..] == [b] && [b][1..] == [];
    assert Run(s, [a, b]) == Run(Apply(s, a), [b]);
    assert Run(Apply(s, a), [b]) == Run(Apply(Apply(s, a), b), []);
  }

  /** A framing error settles the call and submits nothing, then or ever: the client hears no status. */
  lemma {:induction false} FramingErrorIsSilent(s: Stream, data: Bytes, steps: seq<Step>)
    requires s.phase.Live? && !s.output.responded && s.output.finish.None? && !s.input.requestDone
    requires data != [] && FeedError(s.input.decoder, data).Some?
    ensures Run(OnChunk(s, data), steps).wire == s.wire
  {
    hide Feed, FeedError;
    FrozenRun(OnChunk(s, data), steps);
  }
}
