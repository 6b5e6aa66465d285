/**
 A server connection: its table of calls, updated in place. Each method is proved to take exactly the
 step of the same name on its own stream and to leave every other stream alone, so that every stream
 of a connection is always in a state that some run of the per-stream machine reaches. A user
 callback is recorded where it would run.
 */
module ServerConn {
  import opened Codec
  import opened StatusCodes
  import opened Server
  import ServerAnswers
  import ServerCallbacks
  import ServerReads
  import ServerWire
  import ServerWrites

  /** Hands decoded messages over until none is left, or a second one ends a single-request call. */
  function DrainRequests(s: Stream): Stream
    requires s.Present() && !s.input.requestDone && !s.info.form.Unary?
    decreases |s.input.decoder.messages|
  {
    if s.input.decoder.messages == [] then s
    else if Stops(s) then TakeRequest(s)
    else
      TakeKeeps(s);
      DrainRequests(TakeRequest(s))
  }

  predicate Stops(s: Stream) {
    s.info.form.ServerStreaming? && s.info.dispatched
  }

  lemma TakeKeeps(s: Stream)
    requires s.input.decoder.messages != [] && s.Present() && !s.input.requestDone && !s.info.form.Unary?
    ensures var t := TakeRequest(s);
            && t.input.decoder == Take(s).input.decoder && t.phase == s.phase
            && t.info.form == s.info.form && t.input.requestDone == s.input.requestDone
  {
  }

  /** Whether the drain ends the whole DATA event. */
  predicate DrainStops(s: Stream)
    requires s.Present() && !s.input.requestDone && !s.info.form.Unary?
    decreases |s.input.decoder.messages|
  {
    s.input.decoder.messages != []
    && (Stops(s) || (TakeKeeps(s); DrainStops(TakeRequest(s))))
  }

  /** A DATA event. */
  function Received(s: Stream, data: Bytes, endStream: bool): Stream {
    if !s.Present() || s.input.requestDone then s
    else
      var t := OnChunk(s, data);
      if data != [] && FeedError(s.input.decoder, data).Some? then t
      else if s.info.form.Unary? then if endStream then FinishRequest(t) else t
      else
        var u := DrainRequests(t);
        if DrainStops(t) || !endStream then u else FinishRequest(u)
  }

  function TakeSteps(n: nat): seq<Step> {
    seq(n, i => TakeStep)
  }

  /** One event is a run of the call's steps. */
  lemma {:induction false} DrainIsRun(s: Stream) returns (n: nat)
    requires s.Present() && !s.input.requestDone && !s.info.form.Unary?
    ensures Run(s, TakeSteps(n)) == DrainRequests(s)
    ensures !DrainStops(s) ==> DrainRequests(s).input.decoder.messages == []
    ensures DrainStops(s) ==> s.info.form.ServerStreaming? && DrainRequests(s).output.responded
    decreases |s.input.decoder.messages|
  {
    if s.input.decoder.messages == [] {
      n := 0;
    } else if Stops(s) {
      n := 1;
      RunTake(s, 1);
    } else {
      TakeKeeps(s);
      hide TakeRequest;
      n := DrainIsRun(TakeRequest(s));
      n := n + 1;
      RunTake(s, n);
    }
  }

  lemma RunTake(s: Stream, n: nat)
    requires n > 0 && s.input.decoder.messages != []
    ensures Run(s, TakeSteps(n)) == Run(TakeRequest(s), TakeSteps(n - 1))
  {
    hide TakeRequest;
    assert TakeSteps(n)[1..] == TakeSteps(n - 1);
  }

  /** The steps of a DATA event: the bytes, `n` messages taken, and the end of the request if `ended`. */
  function EventSteps(data: Bytes, n: nat, ended: bool): seq<Step> {
    [ChunkStep(data)] + TakeSteps(n) + if ended then [EndStep] else []
  }

  /** The event, `r` being the state it leaves, dealt with everything it brought. */
  predicate EventDone(s: Stream, r: Stream, endStream: bool, ended: bool) {
    var refused := s.info.form.ServerStreaming? && r.output.responded;
    && (ended ==> endStream)
    && (endStream && !ended ==> refused)
    && (r.input.decoder.messages != [] ==> s.info.form.Unary? || refused)
  }

  /**
   A DATA event is a run of the call's steps, so what holds over every run holds across events: the
   bytes; then, unless they are malformed, every message they completed, and the end of the request if
   the event carries it. Only a call that takes a single request and was refused stops before that.
   */
  lemma ReceivedIsRun(s: Stream, data: Bytes, endStream: bool) returns (n: nat, ended: bool)
    ensures !s.Present() || s.input.requestDone ==> Received(s, data, endStream) == s
    ensures s.Present() && !s.input.requestDone ==>
              var r := Received(s, data, endStream);
              && Run(s, EventSteps(data, n, ended)) == r
              && (data != [] && FeedError(s.input.decoder, data).Some? ==> n == 0 && !ended)
              && (data == [] || FeedError(s.input.decoder, data).None? ==> EventDone(s, r, endStream, ended))
  {
    n, ended := 0, false;
    if !s.Present() || s.input.requestDone { return; }
    var t := OnChunk(s, data);
    var chunk := [ChunkStep(data)];
    ServerCallbacks.RunCons(s, ChunkStep(data), []);
    assert chunk == [ChunkStep(data)] + [];
    assert Run(s, chunk) == t;
    ChunkLeaves(s, data);
    hide Run, OnChunk, FinishRequest, Feed, FeedError, DrainRequests, DrainStops;
    assert chunk + TakeSteps(0) == chunk && chunk + [] == chunk;
    if data != [] && FeedError(s.input.decoder, data).Some? { return; }
    if s.info.form.Unary? {
      ended := endStream;
      if endStream { EndIsRun(s, chunk, t); }
      return;
    }
    n := DrainIsRun(t);
    ServerCallbacks.RunAppend(s, chunk, TakeSteps(n));
    assert chunk + TakeSteps(n) + [] == chunk + TakeSteps(n);
    ended := endStream && !DrainStops(t);
    if ended {
      DrainLeaves(t);
      EndIsRun(s, chunk + TakeSteps(n), DrainRequests(t));
      EndLeaves(DrainRequests(t));
    }
  }

  lemma EndLeaves(s: Stream)
    requires !s.info.form.Unary? && s.input.decoder.messages == []
    ensures FinishRequest(s).input.decoder.messages == []
  {
  }

  lemma ChunkLeaves(s: Stream, data: Bytes)
    ensures var t := OnChunk(s, data);
            t.Present() == s.Present() && t.input.requestDone == s.input.requestDone && t.info == s.info
  {
    hide Feed, FeedError;
  }

  lemma {:induction false} DrainLeaves(s: Stream)
    requires s.Present() && !s.input.requestDone && !s.info.form.Unary?
    ensures DrainRequests(s).info.form == s.info.form
    decreases |s.input.decoder.messages|
  {
    if s.input.decoder.messages != [] {
      TakeKeeps(s);
      hide TakeRequest;
      if !Stops(s) { DrainLeaves(TakeRequest(s)); }
    }
  }

  lemma EndIsRun(s: Stream, steps: seq<Step>, t: Stream)
    requires Run(s, steps) == t && (t.info.form.Unary? || t.input.decoder.messages == [])
    ensures Run(s, steps + [EndStep]) == FinishRequest(t)
  {
    ServerCallbacks.RunAppend(s, steps, [EndStep]);
    ServerCallbacks.RunCons(t, EndStep, []);
    assert [EndStep] == [EndStep] + [];
    hide FinishRequest;
    assert Run(FinishRequest(t), []) == FinishRequest(t);
  }

  function FailAll(s: Stream): Stream
    decreases |s.output.queue|
  {
    if s.output.queue == [] then s else FailAll(FailQueued(s))
  }

  /** Every queued write is failed, once, in order. */
  lemma {:induction false} FailAllFails(s: Stream)
    ensures var t := FailAll(s); t.output.queue == [] && t.fired == s.fired + Failed(s.output.queue)
    decreases |s.output.queue|
  {
    if s.output.queue == [] {
      assert s.fired + Failed([]) == s.fired;
    } else {
      var q := s.output.queue;
      FailAllFails(FailQueued(s));
      assert Failed(q) == [Fire(q[0].id, UNAVAILABLE)] + Failed(q[1..]);
      Assoc(s.fired, [Fire(q[0].id, UNAVAILABLE)], Failed(q[1..]));
    }
  }

  function Failed(q: seq<OutMsg>): (f: seq<Fire>)
    ensures |f| == |q|
  {
    seq(|q|, i requires 0 <= i < |q| => Fire(q[i].id, UNAVAILABLE))
  }

  // ---- reachable streams ----------------------------------------------------------------------

  predicate Reaches(steps: seq<Step>, s: Stream) {
    Run(Init(), steps) == s
  }

  ghost predicate Reachable(s: Stream) {
    exists steps :: Reaches(steps, s)
  }

  lemma RunReachable(s: Stream, steps: seq<Step>)
    requires Reachable(s)
    ensures Reachable(Run(s, steps))
  {
    var before :| Reaches(before, s);
    ServerCallbacks.RunAppend(Init(), before, steps);
    assert Reaches(before + steps, Run(s, steps));
  }

  lemma StepReachable(s: Stream, step: Step)
    requires Reachable(s)
    ensures Reachable(Apply(s, step))
  {
    hide Apply;
    RunReachable(s, [step]);
    ServerCallbacks.RunCons(s, step, []);
    assert [step] == [step] + [];
  }

  lemma NewReachable(ok: bool, route: Option<Form>, limit: nat, ms: nat)
    ensures Reachable(OnHeaders(Init(), ok, route, limit, ms))
  {
    var none: seq<Step> := [];
    assert Reaches(none, Init());
    hide Run;
    StepReachable(Init(), HeadersStep(ok, route, limit, ms));
  }

  lemma {:induction false} FailAllReachable(s: Stream)
    requires Reachable(s) && s.phase.Failing?
    ensures Reachable(FailAll(s)) && FailAll(s).phase.Failing? && FailAll(s).output.queue == []
    decreases |s.output.queue|
  {
    hide Reachable;
    if s.output.queue != [] {
      StepReachable(s, FailStep);
      FailAllReachable(FailQueued(s));
    }
  }

  /** The stream, or its connection, ended: the whole of `OnStreamClose`. */
  function Closed(s: Stream, cause: Cause): Stream {
    Erase(FireCancel(FailAll(OnStreamClose(s, cause))))
  }

  lemma ClosedReachable(s: Stream, cause: Cause)
    requires Reachable(s) && s.phase.Live?
    ensures Reachable(Closed(s, cause))
  {
    hide Reachable;
    StepReachable(s, CloseStep(cause));
    var t := OnStreamClose(s, cause);
    FailAllReachable(t);
    hide FailAll;
    StepReachable(FailAll(t), CancelStep);
    StepReachable(FireCancel(FailAll(t)), EraseStep);
  }

  lemma {:induction false} FailAllKeeps(s: Stream)
    ensures var t := FailAll(s);
            t.body == s.body && t.hold == s.hold && t.writes == s.writes && t.output.inflight == s.output.inflight
    decreases |s.output.queue|
  {
    if s.output.queue != [] { FailAllKeeps(FailQueued(s)); }
  }

  /**
   When a stream or its connection closes and the handler writes nothing more, exactly the body in
   flight is never resolved, and not even that one if its notification was queued before the close.
   */
  lemma CloseLosesInFlight(s: Stream, cause: Cause, id: nat)
    requires Reachable(s) && s.phase.Live? && id < s.writes
    ensures ServerWrites.NeverResolved(Closed(s, cause), id)
       <==> ServerCallbacks.BodyIds(s.body) == [id] && cause != StreamClosed(true)
  {
    hide Reachable, ServerWrites.NeverResolved;
    var t := Closed(s, cause);
    LiveHold(s);
    FailAllKeeps(OnStreamClose(s, cause));
    FailAllFails(OnStreamClose(s, cause));
    ClosedReachable(s, cause);
    hide FailAll;
    assert t.phase.Gone? && t.output.queue == [] && t.body == s.body && t.writes == s.writes;
    GoneExactly(t, id);
  }

  lemma AnswersExactly(s: Stream, step: Step)
    requires Reachable(s)
    ensures s.phase.Live? ==> ServerAnswers.Exactly(s, step, Apply(s, step))
    ensures s.info.ctx.UnaryCtx? && s.phase.Live? && !s.output.responded ==> s.wire == []
  {
    var steps :| Reaches(steps, s);
    ServerReads.ReadRun(Init(), steps);
    hide Run, Apply, ServerAnswers.Exactly;
    if s.phase.Live? { ServerAnswers.StepAnswers(s, step); }
  }

  lemma DeadlineExactly(s: Stream)
    requires Reachable(s) && s.clock.armed
    ensures s.phase.Live? && !s.output.responded ==>
              DeadlineResponds(DeadlineFires(s)).wire ==
                s.wire + [if s.wire == [] then TrailersOnly(4) else Trailers(4)]
  {
    StepReachable(s, DeadlineStep);
    hide Reachable;
    AnswersExactly(Apply(s, DeadlineStep), DeadlineRespondStep);
  }

  lemma LiveHold(s: Stream)
    requires Reachable(s) && s.phase.Live?
    ensures s.hold == Hold(true, false)
  {
    var steps :| Reaches(steps, s);
    ServerWire.WireRun(Init(), steps);
  }

  lemma GoneExactly(s: Stream, id: nat)
    requires Reachable(s) && s.phase.Gone? && id < s.writes
    ensures ServerWrites.NeverResolved(s, id) <==> ServerWrites.Lost(s, id)
  {
    var steps :| Reaches(steps, s);
    hide Run, ServerWrites.NeverResolved, ServerWrites.Lost;
    ServerWrites.NeverResolvedExactly(steps, id);
  }

  // ---- the connection -------------------------------------------------------------------------

  class Conn {
    var calls: map<int, Stream>   // with the history of the streams whose record was erased

    ghost predicate Valid()
      reads this
    {
      forall sid :: sid in calls ==> Reachable(calls[sid])
    }

    constructor ()
      ensures Valid() && calls == map[]
    {
      calls := map[];
    }

    method Store(sid: int, call: Stream)
      requires Valid() && Reachable(call)
      modifies this
      ensures Valid() && calls == old(calls)[sid := call]
    {
      calls := calls[sid := call];
    }

    method OnHeadersComplete(sid: int, wellFormed: bool, route: Option<Form>, limit: nat, timeoutMs: nat,
        endStream: bool)
      requires Valid() && sid !in calls
      modifies this
      ensures Valid()
      ensures var s := OnHeaders(Init(), wellFormed, route, limit, timeoutMs);
              calls == old(calls)[sid := if endStream then FinishRequest(s) else s]
    {
      ghost var start := OnHeaders(Init(), wellFormed, route, limit, timeoutMs);
      NewReachable(wellFormed, route, limit, timeoutMs);
      hide Reachable, FinishRequest;
      if !wellFormed {
        var refused := Init().(phase := Gone, wire := [TrailersOnly(INTERNAL)]);
        assert Init().wire + [TrailersOnly(INTERNAL)] == refused.wire;
        assert refused == start;
        Store(sid, refused);
        if endStream { FinishGone(calls[sid]); }
        return;
      }
      var call := NewStream(Live, if route.Some? then route.value else Unary, route.Some?, limit, timeoutMs > 0);
      if call.info.form.ClientStreaming? || call.info.form.Bidi? {
        call := call.(info := call.info.(dispatched := true, ctx := StreamCtx(None)));
      }
      assert call == start;
      Store(sid, call);
      if endStream { EndRequest(sid); }
    }

    method Respond(sid: int, code: int, payload: Bytes)
      requires Valid() && sid in calls && calls[sid].info.ctx.UnaryCtx?
      modifies this
      ensures Valid() && calls == old(calls)[sid := Server.Respond(old(calls[sid]), code, payload)]
      ensures old(calls[sid]).phase.Live? && !old(calls[sid]).output.responded ==>
                calls[sid].wire ==
                  if code == 0 then [Headers, Data(Frame(payload)), Trailers(0)] else [TrailersOnly(code)]
    {
      var call := calls[sid];
      AnswersExactly(call, RespondStep(code, payload));
      StepReachable(call, RespondStep(code, payload));
      hide Reachable;
      if !call.Present() || call.output.responded { return; }
      call := call.(output := call.output.(responded := true), clock := call.clock.(armed := false));
      if code == OK {
        call := call.(accepted := call.accepted + [payload]);
        var framed := EncodeFrame(payload, []);
        assert framed == Frame(payload);
        call := Send(call, Headers);
        call := Send(call, Data(framed));
        call := Send(call, Trailers(OK));
      } else {
        call := Send(call, TrailersOnly(code));
      }
      Store(sid, call);
    }

    method PumpOut(sid: int)
      requires Valid() && sid in calls
      modifies this
      ensures Valid() && calls == old(calls)[sid := Server.PumpOut(old(calls[sid]))]
    {
      StepReachable(calls[sid], PumpStep);
      hide Reachable;
      var call := Pumped(calls[sid]);
      Store(sid, call);
    }

    /** The pump's work on a call, for the two methods that run it. */
    method Pumped(c: Stream) returns (call: Stream)
      ensures call == Server.PumpOut(c)
    {
      call := c;
      var o := call.output;
      if !call.Present() || o.inflight || o.queue == [] || o.responded || o.closed { return; }
      var out := o.queue[0];
      call := call.(output := o.(queue := o.queue[1..], inflight := true));
      call := call.(body := Some(out), handed := call.handed + [out], hold := call.hold.(dead := !call.hold.attached));
      if !call.output.headersSent {
        call := call.(output := call.output.(headersSent := true));
        call := Send(call, Headers);
      }
      call := Send(call, Data(out.framed));
    }

    method WriteMessage(sid: int, payload: Bytes)
      requires Valid() && sid in calls && calls[sid].info.ctx.StreamCtx?
      modifies this
      ensures Valid() && calls == old(calls)[sid := Server.WriteMessage(old(calls[sid]), payload)]
    {
      var call := calls[sid];
      StepReachable(call, WriteStep(payload));
      hide Reachable;
      var id := call.writes;
      call := call.(writes := id + 1);
      if !call.Present() {
        call := call.(fired := call.fired + [Fire(id, UNAVAILABLE)]);
      } else if call.output.responded || call.output.closed {
        call := call.(fired := call.fired + [Fire(id, INTERNAL)]);
      } else if |call.output.queue| >= QUEUE_BOUND {
        call := call.(fired := call.fired + [Fire(id, RESOURCE_EXHAUSTED)]);
      } else {
        var framed := EncodeFrame(payload, []);
        assert framed == Frame(payload);
        call := call.(accepted := call.accepted + [payload]);
        call := call.(output := call.output.(queue := call.output.queue + [OutMsg(id, framed)]));
        call := Pumped(call);
      }
      Store(sid, call);
    }

    /** The session took the whole body: callback first, then a deferred finish. */
    method OnConsumed(sid: int)
      requires Valid() && sid in calls && Enabled(calls[sid], ConsumedStep)
      modifies this
      ensures Valid() && calls == old(calls)[sid := MaybeSendDeferredFinish(Consumed(old(calls[sid])))]
    {
      var call := calls[sid];
      StepReachable(call, ConsumedStep);
      StepReachable(Consumed(call), DeferredStep);
      hide Reachable;
      var id := call.body.value.id;
      if call.Present() { call := call.(output := call.output.(inflight := false)); }
      call := call.(body := None, fired := call.fired + [Fire(id, OK)]);
      if call.Present() && call.output.finish.Some? && !call.output.inflight && call.output.queue == [] {
        var code := call.output.finish.value;
        call := call.(output := call.output.(finish := None));
        call := Send(call, Trailers(code));
      }
      Store(sid, call);
    }

    method FinishStream(sid: int, code: int)
      requires Valid() && sid in calls && calls[sid].info.ctx.StreamCtx?
      modifies this
      ensures Valid() && calls == old(calls)[sid := Server.FinishStream(old(calls[sid]), code)]
    {
      StepReachable(calls[sid], FinishStep(code));
      hide Reachable;
      var call := Finished(calls[sid], code);
      Store(sid, call);
    }

    method Finished(c: Stream, code: int) returns (call: Stream)
      ensures call == Server.FinishStream(c, code)
    {
      call := c;
      if !call.Present() || call.output.responded { return; }
      call := call.(output := call.output.(responded := true, closed := true));
      call := call.(input := call.input.(finished := true), clock := call.clock.(armed := false));
      if call.output.inflight || call.output.queue != [] {
        call := call.(output := call.output.(finish := Some(code)));
      } else if !call.output.headersSent {
        call := Send(call, TrailersOnly(code));
      } else {
        call := Send(call, Trailers(code));
      }
    }

    method ReadMessage(sid: int)
      requires Valid() && sid in calls && calls[sid].info.ctx.StreamCtx?
      modifies this
      ensures Valid() && calls == old(calls)[sid := Server.ReadMessage(old(calls[sid]))]
    {
      StepReachable(calls[sid], ReadStep);
      hide Reachable;
      var call := Read(calls[sid]);
      Store(sid, call);
    }

    method Read(c: Stream) returns (call: Stream)
      requires c.info.ctx.StreamCtx?
      ensures call == Server.ReadMessage(c)
    {
      call := c;
      var i := call.input;
      var e: ReadEvent;
      if !call.Present() || i.finished {
        e := ReadEvent(UNAVAILABLE, call.Present() && i.halfClosed, []);
      } else if call.info.ctx.first.Some? {
        e := ReadEvent(OK, false, call.info.ctx.first.value);
        call := call.(info := call.info.(ctx := StreamCtx(None)));
      } else if i.pending != [] {
        e := ReadEvent(OK, false, i.pending[0]);
        call := call.(input := i.(pending := i.pending[1..]));
      } else if i.halfClosed {
        e := ReadEvent(OK, true, []);
        call := call.(input := i.(finished := true));
      } else if i.armed {
        e := ReadEvent(INTERNAL, false, []);
      } else {
        call := call.(input := i.(armed := true));
        return;
      }
      call := call.(readLog := call.readLog + [e]);
    }

    method Deliver(c: Stream, msg: Bytes) returns (call: Stream)
      ensures call == DeliverRead(c, msg)
    {
      call := c;
      if !call.Present() || call.input.finished { return; }
      if call.input.armed {
        call := call.(input := call.input.(armed := false));
        call := call.(readLog := call.readLog + [ReadEvent(OK, false, msg)]);
      } else if |call.input.pending| >= QUEUE_BOUND {
        call := Finished(call, RESOURCE_EXHAUSTED);
      } else {
        call := call.(input := call.input.(pending := call.input.pending + [msg]));
      }
    }

    /** One turn of the loop in `OnData`. */
    method TakeOne(c: Stream) returns (call: Stream)
      requires c.input.decoder.messages != [] && c.Present() && !c.input.requestDone && !c.info.form.Unary?
      ensures call == TakeRequest(c)
    {
      var msg := c.input.decoder.messages[0];
      call := Take(c).(arrived := c.arrived + [msg]);
      if call.info.form.ServerStreaming? {
        if call.info.dispatched {
          call := Finished(call, INTERNAL);
        } else {
          call := DispatchStream(call, Some(msg));
        }
      } else {
        call := Deliver(call, msg);
      }
    }

    method OnData(sid: int, data: Bytes, endStream: bool)
      requires Valid() && sid in calls
      modifies this
      ensures Valid() && calls == old(calls)[sid := Received(old(calls[sid]), data, endStream)]
    {
      var call := calls[sid];
      ghost var n, ended := ReceivedIsRun(call, data, endStream);
      ghost var steps := if call.Present() && !call.input.requestDone then EventSteps(data, n, ended) else [];
      RunReachable(call, steps);
      hide Reachable, Run;
      if !call.Present() || call.input.requestDone { return; }
      ChunkLeaves(call, data);
      ghost var s, t := call, OnChunk(call, data);
      if data != [] {
        var st := FeedError(call.input.decoder, data);
        call := call.(input := call.input.(decoder := Feed(call.input.decoder, data)));
        if st.Some? {
          call := RespondError(call, ErrorCode(st.value));
          Store(sid, call);
          return;
        }
      }
      assert call == t;
      hide Feed, FeedError, OnChunk, FinishRequest;
      if !call.info.form.Unary? {
        var stopped := false;
        call, stopped := TakeAll(call);
        if stopped {
          Store(sid, call);
          return;
        }
      }
      if endStream { call := FinishRequest(call); }
      Store(sid, call);
    }

    method TakeAll(c: Stream) returns (call: Stream, stopped: bool)
      requires c.Present() && !c.input.requestDone && !c.info.form.Unary?
      ensures call == DrainRequests(c) && stopped == DrainStops(c)
    {
      hide TakeRequest;
      call := c;
      while call.input.decoder.messages != []
        invariant call.Present() && !call.input.requestDone && !call.info.form.Unary?
        invariant DrainRequests(call) == DrainRequests(c) && DrainStops(call) == DrainStops(c)
        decreases |call.input.decoder.messages|
      {
        var last := call.info.form.ServerStreaming? && call.info.dispatched;
        TakeKeeps(call);
        call := TakeOne(call);
        if last { return call, true; }
      }
      stopped := false;
    }

    method EndRequest(sid: int)
      requires Valid() && sid in calls && (calls[sid].info.form.Unary? || calls[sid].input.decoder.messages == [])
      modifies this
      ensures Valid() && calls == old(calls)[sid := FinishRequest(old(calls[sid]))]
    {
      var call := calls[sid];
      StepReachable(call, EndStep);
      hide Reachable;
      call := Ended(call);
      Store(sid, call);
    }

    /** END_STREAM on the request. */
    method Ended(c: Stream) returns (call: Stream)
      ensures call == FinishRequest(c)
    {
      call := c;
      if !call.Present() || call.input.requestDone { return; }
      call := call.(input := call.input.(requestDone := true));
      if !call.info.hasHandler {
        call := TrailersOnlyResponse(call, UNIMPLEMENTED);
      } else if !call.info.form.Unary? {
        call := HalfClosed(call);
      } else if call.input.decoder.count != 0 || call.input.decoder.messages == [] {
        call := TrailersOnlyResponse(call, INTERNAL);
      } else {
        var request := call.input.decoder.messages[0];
        call := Take(call);
        call := call.(info := call.info.(ctx := UnaryCtx), handled := call.handled + [request]);
      }
    }

    method HalfClosed(c: Stream) returns (call: Stream)
      ensures call == HalfClose(c)
    {
      call := c.(input := c.input.(halfClosed := true));
      if call.info.form.ServerStreaming? && !call.info.dispatched {
        if call.input.decoder.messages == [] {
          call := TrailersOnlyResponse(call, INTERNAL);
          return;
        }
        var msg := call.input.decoder.messages[0];
        call := Take(call).(arrived := call.arrived + [msg]);
        call := DispatchStream(call, Some(msg));
      } else if !call.info.dispatched {
        call := TrailersOnlyResponse(call, UNIMPLEMENTED);
      } else {
        if !call.Present() || call.input.finished { return; }
        call := call.(input := call.input.(finished := true));
        if call.input.armed {
          call := call.(input := call.input.(armed := false), readLog := call.readLog + [ReadEvent(OK, true, [])]);
        }
      }
    }

    /** The deadline timer fires. */
    method OnDeadline(sid: int)
      requires Valid() && sid in calls && calls[sid].clock.armed
      modifies this
      ensures Valid()
      ensures var s := old(calls[sid]);
              calls == old(calls)[sid := if s.Present() then DeadlineResponds(DeadlineFires(s)) else s]
      ensures var s := old(calls[sid]);
              s.phase.Live? && !s.output.responded ==>
                calls[sid].wire == s.wire + [if s.wire == [] then TrailersOnly(4) else Trailers(4)]
    {
      var call := calls[sid];
      DeadlineExactly(call);
      StepReachable(call, DeadlineStep);
      StepReachable(DeadlineFires(call), DeadlineRespondStep);
      hide Reachable;
      if !call.Present() { return; }
      call := call.(clock := Clock(false, false, true));
      if !call.output.responded {
        call := call.(output := call.output.(responded := true));
        if !call.info.form.Unary? && call.output.headersSent {
          call := Send(call, Trailers(DEADLINE_EXCEEDED));
        } else {
          call := Send(call, TrailersOnly(DEADLINE_EXCEEDED));
        }
      }
      Store(sid, call);
    }

    /** The HTTP/2 stream closed, or the connection ended and this is one of its calls. */
    method OnStreamClose(sid: int, cause: Cause)
      requires Valid() && sid in calls && calls[sid].phase.Live?
      modifies this
      ensures Valid() && calls == old(calls)[sid := Closed(old(calls[sid]), cause)]
    {
      var call := calls[sid];
      ClosedReachable(call, cause);
      hide Reachable;
      if cause.StreamClosed? { call := call.(hold := Hold(false, call.body.Some? && !cause.notified)); }
      call := CancelStreamIo(call, cause);
      call := call.(clock := call.clock.(cancelFired := true));
      call := call.(phase := Gone, clock := call.clock.(armed := false));
      if call.hold.attached { call := call.(hold := Hold(false, call.body.Some?)); }
      Store(sid, call);
    }

    /** A waiting reader is told, then every queued write is failed. */
    method CancelStreamIo(c: Stream, cause: Cause) returns (call: Stream)
      requires cause.StreamClosed? ==> c.hold == Hold(false, c.body.Some? && !cause.notified)
      ensures call == FailAll(Server.OnStreamClose(c, cause))
    {
      call := c.(phase := Failing, input := c.input.(finished := true));
      if call.input.armed {
        call := call.(input := call.input.(armed := false));
        call := call.(readLog := call.readLog + [ReadEvent(UNAVAILABLE, false, [])]);
      }
      while call.output.queue != []
        invariant FailAll(call) == FailAll(Server.OnStreamClose(c, cause))
        decreases |call.output.queue|
      {
        var id := call.output.queue[0].id;
        call := call.(output := call.output.(queue := call.output.queue[1..]));
        call := call.(fired := call.fired + [Fire(id, UNAVAILABLE)]);
      }
    }

    /**
     What every run promises, every stream of the connection keeps: the grammar and the completeness
     of its response, one callback for each write and what OK tells, and the order of its reads.
     */
    lemma EveryStreamIsOrderly(sid: int, write: nat)
      requires Valid() && sid in calls
      ensures var s := calls[sid];
              && ServerWire.Grammar(s.wire)
              && ServerWire.DataFrames(s.wire) <= ServerWire.FrameEach(s.accepted)
              && (ServerWire.OkEnded(s.wire) ==> ServerWire.DataFrames(s.wire) == ServerWire.FrameEach(s.accepted))
              && |s.output.queue| <= QUEUE_BOUND
      ensures var s := calls[sid];
              && (write < s.writes ==>
                    ServerCallbacks.Runs(s, write) == (if ServerCallbacks.Waits(s, write) then 0 else 1))
              && ServerWrites.OkIds(s.fired) + ServerCallbacks.BodyIds(s.body) == ServerCallbacks.QueueIds(s.handed)
      ensures var s := calls[sid];
              && (ServerReads.ReadOpen(s) ==> ServerReads.Kept(s) == s.arrived)
              && (s.input.armed ==> ServerReads.Unread(s) == []) && |s.input.pending| <= QUEUE_BOUND
              && ServerReads.EosIsLast(s.readLog)
    {
      hide Run, ServerWire.Grammar, ServerWire.OkEnded, ServerCallbacks.Runs, ServerWrites.OkIds, ServerReads.Kept,
        ServerReads.EosIsLast, ServerReads.Discarded;
      var steps :| Reaches(steps, calls[sid]);
      ServerWire.ServerWireGrammar(steps);
      ServerCallbacks.WriteCallbacksConserved(steps, write);
      ServerWrites.OkMeansHanded(steps);
      ServerReads.ReadsInOrder(steps);
    }
  }

  lemma FinishGone(s: Stream)
    requires !s.Present()
    ensures FinishRequest(s) == s
  {
  }
}
