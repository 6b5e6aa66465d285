/** What a write callback's status means, and which callbacks never run. */
module ServerWrites {
  import opened Codec
  import opened StatusCodes
  import opened Server
  import opened ServerWire
  import opened ServerCallbacks

  // ---- what OK means --------------------------------------------------------------------------

  /** The writes told OK, in order. */
  function OkIds(f: seq<Fire>): seq<nat> {
    if f == [] then []
    else
      var x := f[|f| - 1];
      OkIds(f[..|f| - 1]) + if x.code == OK then [x.id] else []
  }

  lemma OkIdsAppend(f: seq<Fire>, x: Fire)
    ensures OkIds(f + [x]) == OkIds(f) + if x.code == OK then [x.id] else []
  {
    assert (f + [x])[..|f|] == f;
  }

  /** Bodies given to the session are those told OK and then the one in flight; with the queue, all that were taken. */
  predicate HandedInv(s: Stream) {
    && OkIds(s.fired) + BodyIds(s.body) == QueueIds(s.handed)
    && (s.info.dispatched && s.phase.Live? ==>
          QueueFrames(s.handed) + QueueFrames(s.output.queue) == FrameEach(s.accepted))
    && (!s.info.dispatched ==> s.handed == [] && s.output.queue == [])
    && (!s.info.dispatched && !s.info.form.Unary? ==> s.accepted == [])
    && (s.info.dispatched ==> !s.info.form.Unary?)
  }

  /** Steps that take nothing and hand nothing over. */
  predicate SameHanded(s: Stream, t: Stream) {
    && t.handed == s.handed && (t.accepted == s.accepted || s.info.form.Unary?)
    && t.info.form == s.info.form && (s.info.dispatched ==> t.info.dispatched)
    && (t.info.dispatched ==> s.info.dispatched || !s.info.form.Unary?)
    && (t.phase.Live? ==> s.phase.Live?)
  }

  predicate Moves(step: Step) {
    step.HeadersStep? || step.WriteStep? || step.PumpStep? || step.ConsumedStep? || step.FailStep?
  }

  lemma OthersHandNothing(s: Stream, step: Step)
    requires FormInv(s) && !Moves(step)
    ensures SameHanded(s, Apply(s, step))
  {
    hide Feed, FeedError, Frame;
  }

  lemma SameKeepsHanded(s: Stream, t: Stream)
    requires HandedInv(s) && SamePlaces(s, t) && SameHanded(s, t)
    ensures HandedInv(t)
  {
    hide OkIds, FrameEach;
    if !s.info.dispatched && t.info.dispatched {
      assert QueueFrames(t.handed) + QueueFrames(t.output.queue) == FrameEach(t.accepted) by {
        assert FrameEach([]) == [];
      }
    }
  }

  lemma PumpKeepsHanded(s: Stream)
    requires HandedInv(s) && (s.Present() ==> (s.output.inflight <==> s.body.Some?))
    ensures HandedInv(PumpOut(s))
  {
    hide OkIds, FrameEach;
    var o := s.output;
    if s.Present() && !o.inflight && o.queue != [] && !o.responded && !o.closed {
      var m := o.queue[0];
      assert QueueIds(s.handed + [m]) == QueueIds(s.handed) + [m.id];
      assert QueueFrames(s.handed + [m]) + QueueFrames(o.queue[1..]) == QueueFrames(s.handed) + QueueFrames(o.queue);
    }
  }

  lemma RejectKeepsHanded(s: Stream, code: int)
    requires HandedInv(s) && code != OK
    ensures HandedInv(Reject(s, code))
  {
    hide FrameEach;
    OkIdsAppend(s.fired, Fire(s.writes, code));
  }

  lemma EnqueueKeepsHanded(s: Stream, payload: Bytes)
    requires HandedInv(s) && s.info.dispatched
    ensures HandedInv(Enqueue(s, payload))
  {
    hide OkIds;
    var q, m := s.output.queue, OutMsg(s.writes, Frame(payload));
    assert QueueFrames(q + [m]) == QueueFrames(q) + [m.framed];
    assert FrameEach(s.accepted + [payload]) == FrameEach(s.accepted) + [m.framed];
    Assoc(QueueFrames(s.handed), QueueFrames(q), [m.framed]);
  }

  lemma WriteKeepsHanded(s: Stream, payload: Bytes)
    requires HandedInv(s) && s.info.dispatched && (s.Present() ==> (s.output.inflight <==> s.body.Some?))
    ensures HandedInv(WriteMessage(s, payload))
  {
    hide HandedInv, PumpOut, Reject;
    RejectKeepsHanded(s, UNAVAILABLE);
    RejectKeepsHanded(s, INTERNAL);
    RejectKeepsHanded(s, RESOURCE_EXHAUSTED);
    EnqueueKeepsHanded(s, payload);
    PumpKeepsHanded(Enqueue(s, payload));
  }

  lemma FireKeepsHanded(s: Stream)
    requires HandedInv(s)
    ensures s.body.Some? ==> HandedInv(Consumed(s))
    ensures s.output.queue != [] && s.phase.Failing? ==> HandedInv(FailQueued(s))
  {
    hide FrameEach;
    if s.body.Some? {
      OkIdsAppend(s.fired, Fire(s.body.value.id, OK));
      assert OkIds(s.fired) + [s.body.value.id] + [] == OkIds(s.fired) + [s.body.value.id];
    }
    if s.output.queue != [] { OkIdsAppend(s.fired, Fire(s.output.queue[0].id, UNAVAILABLE)); }
  }

  lemma HeadersKeepHanded(ok: bool, route: Option<Form>, limit: nat, ms: nat)
    ensures HandedInv(OnHeaders(Init(), ok, route, limit, ms))
  {
  }

  lemma HandedStep(s: Stream, step: Step)
    requires HandedInv(s) && WireInv(s)
    ensures HandedInv(Apply(s, step))
  {
    assert (s.Present() ==> (s.output.inflight <==> s.body.Some?)) && (s.phase.Idle? ==> s == Init());
    assert FormInv(s);
    hide WireInv, HandedInv, OnHeaders, WriteMessage, PumpOut, Consumed, FailQueued;
    match step
    case HeadersStep(ok, route, limit, ms) => HeadersKeepHanded(ok, route, limit, ms);
    case WriteStep(p) => if s.info.ctx.StreamCtx? { Dispatched(s); WriteKeepsHanded(s, p); }
    case PumpStep => PumpKeepsHanded(s);
    case ConsumedStep => FireKeepsHanded(s);
    case FailStep => FireKeepsHanded(s);
    case _ =>
      hide Apply, FormInv;
      OthersHandNothing(s, step);
      if step.ChunkStep? || step.TakeStep? || step.EndStep? { RequestPlaces(s, step); } else { OtherPlaces(s, step); }
      SameKeepsHanded(s, Apply(s, step));
  }

  lemma Dispatched(s: Stream)
    requires FormInv(s) && s.info.ctx.StreamCtx?
    ensures s.info.dispatched
  {
  }

  lemma {:induction false} HandedRun(s: Stream, steps: seq<Step>)
    requires HandedInv(s) && WireInv(s)
    ensures HandedInv(Run(s, steps)) && WireInv(Run(s, steps))
    decreases |steps|
  {
    hide HandedInv, WireInv, Apply;
    if steps != [] {
      HandedStep(s, steps[0]);
      WireStep(s, steps[0]);
      HandedRun(Apply(s, steps[0]), steps[1..]);
    }
  }

  /**
   In every run the writes told OK, then the one in flight, are exactly the bodies given to the
   session, in order; on a live stream these bodies are the DATA submitted, and the frames of the
   first messages taken.
   */
  lemma OkMeansHanded(steps: seq<Step>)
    ensures var s := Run(Init(), steps);
            && OkIds(s.fired) + BodyIds(s.body) == QueueIds(s.handed)
            && (s.info.dispatched && s.phase.Live? ==>
                  && DataFrames(s.wire) == QueueFrames(s.handed)
                  && QueueFrames(s.handed) <= FrameEach(s.accepted))
  {
    HandedRun(Init(), steps);
    var s := Run(Init(), steps);
    hide Run, OkIds, DataFrames;
    if s.info.dispatched && s.phase.Live? {
      var h, q, d := QueueFrames(s.handed), QueueFrames(s.output.queue), DataFrames(s.wire);
      assert h + q == d + q;
      assert h == (h + q)[..|h|] && d == (d + q)[..|d|];
    }
  }

  /**
   A write is taken, with its own payload, and told nothing yet; or refused at once: UNAVAILABLE when
   the call is gone, INTERNAL when it is settled or the write side closed, RESOURCE_EXHAUSTED when 64
   messages are queued.
   */
  lemma TakenOrRefused(s: Stream, payload: Bytes)
    ensures var t := WriteMessage(s, payload);
            var over := s.output.responded || s.output.closed;
            var refused := !s.Present() || over || |s.output.queue| >= 64;
            && t.writes == s.writes + 1
            && (refused ==> t.accepted == s.accepted && t.handed == s.handed && t.wire == s.wire
                            && t.fired == s.fired
                                 + [Fire(s.writes, if !s.Present() then 14 else if over then 13 else 8)])
            && (!refused ==> t.accepted == s.accepted + [payload] && t.fired == s.fired)
  {
  }

  // ---- callbacks that never run ---------------------------------------------------------------

  /** No continuation runs the write's callback. */
  ghost predicate NeverResolved(s: Stream, id: nat) {
    forall after :: Runs(Run(s, after), id) == 0
  }

  /**
   The write waits and nothing is left that would tell it: it is queued, or its body was dropped at
   the close of its stream, or given to a stream that had closed, or destroyed with its session.
   */
  predicate Lost(s: Stream, id: nat) {
    id in QueueIds(s.output.queue) || (BodyIds(s.body) == [id] && s.hold.dead)
  }

  lemma GoneStep(s: Stream, step: Step)
    requires s.phase.Gone?
    ensures var t := Apply(s, step);
            && t.phase.Gone? && t.output.queue == s.output.queue
            && (s.hold.dead ==> t.body == s.body && t.hold == s.hold)
  {
    hide Feed, FeedError;
  }

  lemma {:induction false} GoneRun(s: Stream, steps: seq<Step>)
    requires s.phase.Gone?
    ensures var t := Run(s, steps);
            && t.phase.Gone? && t.output.queue == s.output.queue
            && (s.hold.dead ==> t.body == s.body && t.hold == s.hold)
    decreases |steps|
  {
    if steps != [] {
      GoneStep(s, steps[0]);
      hide Apply;
      GoneRun(Apply(s, steps[0]), steps[1..]);
    }
  }

  lemma ConsumedRuns(before: seq<Step>, id: nat)
    requires var s := Run(Init(), before); BodyIds(s.body) == [id] && !s.hold.dead
    ensures Runs(Run(Run(Init(), before), [ConsumedStep]), id) == 1
  {
    var s := Run(Init(), before);
    var t := Consumed(s);
    RunCons(s, ConsumedStep, []);
    assert [ConsumedStep] == [ConsumedStep] + [];
    assert Run(s, [ConsumedStep]) == t by { hide Consumed; }
    RunAppend(Init(), before, [ConsumedStep]);
    hide Run, Consumed;
    WriteCallbacksConserved(before, id);
    WriteCallbacksConserved(before + [ConsumedStep], id);
    assert t.body.None? && t.output.queue == s.output.queue && t.writes == s.writes by { Spent(s); }
    assert Waits(s, id);
    AtMostOnePlace(before, id);
  }

  lemma Spent(s: Stream)
    requires s.body.Some?
    ensures var t := Consumed(s); t.body.None? && t.output.queue == s.output.queue && t.writes == s.writes
  {
  }

  lemma AtMostOnePlace(steps: seq<Step>, id: nat)
    requires BodyIds(Run(Init(), steps).body) == [id]
    ensures id < Run(Init(), steps).writes && id !in QueueIds(Run(Init(), steps).output.queue)
  {
    var s0 := Init();
    assert FiredIds(s0.fired) == [] && QueueIds(s0.output.queue) == [];
    CallbackRun(s0, steps);
    var s := Run(s0, steps);
    var q: seq<nat>, b: seq<nat> := QueueIds(s.output.queue), BodyIds(s.body);
    assert UpTo(s.writes)[id] == Runs(s, id) + multiset(q)[id] + multiset(b)[id];
    assert multiset(b)[id] == 1;
    assert id in q ==> multiset(q)[id] > 0;
  }

  lemma LostNeverRuns(before: seq<Step>, id: nat, after: seq<Step>)
    requires var s := Run(Init(), before); s.phase.Gone? && id < s.writes && Lost(s, id)
    ensures Runs(Run(Run(Init(), before), after), id) == 0
  {
    var s := Run(Init(), before);
    GoneRun(s, after);
    RunAppend(Init(), before, after);
    hide Run;
    WriteCallbacksConserved(before + after, id);
  }

  /**
   On a call that has left the table a write's callback never runs, in any continuation, if and only
   if the write is queued, or its body is one the session will not notify.
   */
  lemma NeverResolvedExactly(before: seq<Step>, id: nat)
    requires Run(Init(), before).phase.Gone? && id < Run(Init(), before).writes
    ensures NeverResolved(Run(Init(), before), id) <==> Lost(Run(Init(), before), id)
  {
    var s := Run(Init(), before);
    WriteCallbacksConserved(before, id);
    if Lost(s, id) {
      forall after ensures Runs(Run(s, after), id) == 0 { LostNeverRuns(before, id, after); }
    } else if id in BodyIds(s.body) {
      assert BodyIds(s.body) == [id];
      ConsumedRuns(before, id);
    } else {
      var none: seq<Step> := [];
      assert Run(s, none) == s && Runs(Run(s, none), id) == 1;
    }
  }

  // ---- how many are lost ----------------------------------------------------------------------

  /** What a handler may do from a cancel callback. */
  predicate HandlerCall(step: Step) {
    step.WriteStep? || step.ReadStep? || step.WriteDoneStep? || step.FinishStep?
  }

  /** The writes that wait, save one whose notification is queued at the session. */
  function Outstanding(s: Stream): nat {
    |s.output.queue| + if s.output.inflight && (s.hold.attached || s.hold.dead) then 1 else 0
  }

  lemma CallKeepsWaiting(s: Stream, step: Step)
    requires s.Present() && HandlerCall(step) && s.info.ctx.StreamCtx?
    ensures var t := Apply(s, step);
            && t.phase == s.phase && t.info.ctx.StreamCtx?
            && s.accepted <= t.accepted && Outstanding(t) == Outstanding(s) + |t.accepted| - |s.accepted|
  {
    if step.WriteStep? { WriteKeepsWaiting(s, step.payload); }
    hide WriteMessage, Frame;
  }

  lemma WriteKeepsWaiting(s: Stream, payload: Bytes)
    requires s.Present()
    ensures var t := WriteMessage(s, payload);
            && t.phase == s.phase && t.info == s.info
            && s.accepted <= t.accepted && Outstanding(t) == Outstanding(s) + |t.accepted| - |s.accepted|
  {
    hide Frame;
  }

  /** How many writes wait after any calls of the handler. */
  lemma {:induction false} CallsKeepWaiting(s: Stream, calls: seq<Step>)
    requires s.Present() && s.info.ctx.StreamCtx? && forall c :: c in calls ==> HandlerCall(c)
    ensures var t := Run(s, calls);
            && t.phase == s.phase && s.accepted <= t.accepted
            && Outstanding(t) == Outstanding(s) + |t.accepted| - |s.accepted|
    decreases |calls|
  {
    if calls != [] {
      CallKeepsWaiting(s, calls[0]);
      hide Apply, HandlerCall, Outstanding;
      CallsKeepWaiting(Apply(s, calls[0]), calls[1..]);
    }
  }

  /** Erasing the record loses all that is outstanding. */
  lemma EraseLoses(s: Stream)
    requires WireInv(s) && s.Present()
    ensures var t := Erase(s); Outstanding(s) == |t.output.queue| + if t.hold.dead then 1 else 0
  {
  }

  lemma ReachedWire(before: seq<Step>)
    ensures WireInv(Run(Init(), before))
  {
    WireRun(Init(), before);
  }

  lemma ThenErase(before: seq<Step>, calls: seq<Step>)
    requires Run(Run(Init(), before), calls).phase.Cancelling?
    ensures Run(Init(), before + (calls + [EraseStep])) == Erase(Run(Run(Init(), before), calls))
  {
    var s := Run(Init(), before);
    var u := Run(s, calls);
    RunAppend(Init(), before, calls + [EraseStep]);
    RunAppend(s, calls, [EraseStep]);
    RunCons(u, EraseStep, []);
    assert [EraseStep] == [EraseStep] + [];
    assert Run(Apply(u, EraseStep), []) == Apply(u, EraseStep);
  }

  /**
   The writes lost with a call, exactly. `before` leads to the point where cancel callbacks run, after
   a close or when shutdown abandons the call; `calls` is what the handler does there. When the record
   is erased, a callback never runs if and only if its write is queued or its body dead; and their
   number is what was outstanding before and every write that the handler had taken there.
   */
  lemma LostWritesExactly(before: seq<Step>, calls: seq<Step>, id: nat)
    requires var s := Run(Init(), before);
             s.phase.Cancelling? && s.info.ctx.StreamCtx? && forall c :: c in calls ==> HandlerCall(c)
    requires id < Run(Init(), before + (calls + [EraseStep])).writes
    ensures var s, t := Run(Init(), before), Run(Init(), before + (calls + [EraseStep]));
            && t.phase.Gone?
            && (NeverResolved(t, id) <==> Lost(t, id))
            && s.accepted <= t.accepted
            && |t.output.queue| + (if t.hold.dead then 1 else 0) == Outstanding(s) + |t.accepted| - |s.accepted|
  {
    hide WireInv, Outstanding, HandlerCall, NeverResolved, Lost, Run;
    var s := Run(Init(), before);
    CallsKeepWaiting(s, calls);
    ReachedWire(before);
    WireRun(s, calls);
    var u := Run(s, calls);
    EraseLoses(u);
    ThenErase(before, calls);
    NeverResolvedExactly(before + (calls + [EraseStep]), id);
  }

  /** When shutdown abandons a live call, exactly the writes queued or in flight then are never resolved. */
  lemma AbandonLosesOutstanding(before: seq<Step>, id: nat)
    requires Run(Init(), before).phase.Live? && id < Run(Init(), before).writes
    ensures NeverResolved(Run(Init(), before + [AbandonStep, EraseStep]), id) <==> Waits(Run(Init(), before), id)
  {
    hide Run, NeverResolved, Lost, WireInv;
    var s := Run(Init(), before);
    ReachedWire(before);
    RunAppend(Init(), before, [AbandonStep, EraseStep]);
    TwoSteps(s, AbandonStep, EraseStep);
    AbandonedLoses(s, id);
    NeverResolvedExactly(before + [AbandonStep, EraseStep], id);
  }

  lemma AbandonedLoses(s: Stream, id: nat)
    requires WireInv(s) && s.phase.Live?
    ensures var t := Apply(Apply(s, AbandonStep), EraseStep);
            t.phase.Gone? && t.writes == s.writes && (Lost(t, id) <==> Waits(s, id))
  {
  }

  // ---- WriteDone ------------------------------------------------------------------------------

  /** The write side of a stream is closed, by WriteDone or by a finish. */
  predicate WritesOver(s: Stream) {
    s.output.closed && !s.phase.Idle? && s.info.dispatched && !s.info.ctx.UnaryCtx? && !s.info.form.Unary?
  }

  lemma OverStep(s: Stream, step: Step)
    requires WritesOver(s)
    ensures WritesOver(Apply(s, step)) && NoMessage(s, Apply(s, step))
  {
    hide Feed, FeedError, Frame, OnChunk, TakeRequest, FinishRequest, WriteMessage, PumpOut, FinishStream,
      MaybeSendDeferredFinish, DeadlineResponds;
    match step
    case ChunkStep(data) => OverChunk(s, data);
    case TakeStep => if s.input.decoder.messages != [] { OverTake(s); }
    case EndStep => OverEnd(s);
    case WriteStep(p) => OverWrite(s, p);
    case PumpStep => OverWrite(s, []);
    case FinishStep(code) => OverSubmit(s, code);
    case DeferredStep => OverSubmit(s, OK);
    case DeadlineRespondStep => OverSubmit(s, OK);
    case _ =>
  }

  lemma OverChunk(s: Stream, data: Bytes)
    requires WritesOver(s)
    ensures WritesOver(OnChunk(s, data)) && NoMessage(s, OnChunk(s, data))
  {
    hide Feed, FeedError;
  }

  lemma OverWrite(s: Stream, p: Bytes)
    requires WritesOver(s)
    ensures WritesOver(WriteMessage(s, p)) && NoMessage(s, WriteMessage(s, p)) && PumpOut(s) == s
  {
    hide Frame;
  }

  lemma OverSubmit(s: Stream, code: int)
    requires WritesOver(s)
    ensures WritesOver(FinishStream(s, code)) && NoMessage(s, FinishStream(s, code))
    ensures WritesOver(MaybeSendDeferredFinish(s)) && NoMessage(s, MaybeSendDeferredFinish(s))
    ensures WritesOver(DeadlineResponds(s)) && NoMessage(s, DeadlineResponds(s))
  {
  }

  /** Nothing is handed over, and at most a terminal is submitted. */
  predicate NoMessage(s: Stream, t: Stream) {
    && t.handed == s.handed
    && (t.wire == s.wire || (t.wire != [] && !t.wire[|t.wire| - 1].Data? && t.wire == s.wire + [t.wire[|t.wire| - 1]]))
  }

  lemma OverTake(s: Stream)
    requires WritesOver(s) && s.input.decoder.messages != []
    ensures WritesOver(TakeRequest(s)) && NoMessage(s, TakeRequest(s))
  {
  }

  lemma OverEnd(s: Stream)
    requires WritesOver(s)
    ensures WritesOver(FinishRequest(s)) && NoMessage(s, FinishRequest(s))
  {
  }

  lemma {:induction false} OverRun(s: Stream, steps: seq<Step>)
    requires WritesOver(s)
    ensures Run(s, steps).handed == s.handed && DataFrames(Run(s, steps).wire) == DataFrames(s.wire)
    decreases |steps|
  {
    if steps != [] {
      var t := Apply(s, steps[0]);
      OverStep(s, steps[0]);
      if t.wire != s.wire { DataFramesAppend(s.wire, t.wire[|t.wire| - 1]); }
      hide Apply, DataFrames;
      OverRun(t, steps[1..]);
    }
  }

  /** After the continuation, the message of write `id` has been handed over. */
  predicate Submits(t: Stream, id: nat, after: seq<Step>) {
    id in QueueIds(Run(t, after).handed)
  }

  /**
   After WriteDone no continuation submits a message: one that was taken is submitted, now or later,
   if and only if it has been handed to the session already. What is queued stays queued.
   */
  lemma WriteDoneStops(before: seq<Step>, id: nat)
    requires var s := Run(Init(), before); s.Present() && s.info.ctx.StreamCtx?
    ensures var s := Run(Init(), before);
            var t := WriteDone(s);
            && (forall after :: DataFrames(Run(t, after).wire) == DataFrames(s.wire))
            && ((exists after :: Submits(t, id, after)) <==> id in QueueIds(s.handed))
            && t.output.queue == s.output.queue
  {
    var s := Run(Init(), before);
    var t := WriteDone(s);
    WireRun(Init(), before);
    assert WritesOver(t);
    hide WireInv, DataFrames;
    forall after ensures DataFrames(Run(t, after).wire) == DataFrames(s.wire) && Run(t, after).handed == s.handed {
      OverRun(t, after);
    }
    if id in QueueIds(s.handed) {
      var none: seq<Step> := [];
      assert Run(t, none) == t;
      assert Submits(t, id, none);
    }
  }
}
