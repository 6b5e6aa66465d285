/** With which status a server stream ends a call, and what ends it: over every run. */
module ServerAnswers {
  import opened Codec
  import opened StatusCodes
  import opened Server
  import opened ServerWire
  import opened ServerReads
  import ServerCallbacks

  /** The numbers are gRPC's. */
  lemma GrpcCodes()
    ensures OK == 0 && DEADLINE_EXCEEDED == 4 && RESOURCE_EXHAUSTED == 8
    ensures UNIMPLEMENTED == 12 && INTERNAL == 13 && UNAVAILABLE == 14
  {
  }

  /** The request message that comes next is one too many, or finds no room. */
  function Refusal(s: Stream): Option<int> {
    if s.info.form.ServerStreaming? then if s.info.dispatched then Some(13) else None
    else if !s.input.finished && !s.input.armed && |s.input.pending| == 64 then Some(8)
    else None
  }

  /** What the end of the request finds missing. */
  function Missing(s: Stream): Option<int> {
    if !s.info.hasHandler then Some(12)
    else if s.input.decoder.messages != [] then None
    else if s.info.form.Unary? || (s.info.form.ServerStreaming? && !s.info.dispatched) then Some(13)
    else None
  }

  /** The status with which a step settles a live call that nothing has settled before. */
  function Closes(s: Stream, step: Step): Option<int> {
    if s.output.responded || !Enabled(s, step) then None
    else
      match step
      case FinishStep(code) => Some(code)
      case RespondStep(code, _) => Some(code)
      case DeadlineRespondStep => Some(4)
      case TakeStep => if s.input.requestDone || s.info.form.Unary? then None else Refusal(s)
      case EndStep => if s.input.requestDone then None else Missing(s)
      case _ => None
  }

  /** A finish, by the handler or for a request that went wrong, waits for what is outstanding. */
  predicate Waits(s: Stream, step: Step) {
    (step.FinishStep? || step.TakeStep?) && (s.output.inflight || s.output.queue != [])
  }

  /** A framing error settles a call without a word. */
  predicate Silences(s: Stream, step: Step) {
    step.ChunkStep? && step.data != [] && !s.input.requestDone && FeedError(s.input.decoder, step.data).Some?
  }

  /** What a step submits to end the response: in trailers if it has begun, else alone. */
  function Ending(s: Stream, step: Step): seq<Wire> {
    var code := Closes(s, step);
    if code.Some? && Waits(s, step) then []
    else if code == Some(0) && step.RespondStep? then [Headers, Data(Frame(step.payload)), Trailers(0)]
    else if code.Some? then [if s.wire == [] then TrailersOnly(code.value) else Trailers(code.value)]
    else if step.DeferredStep? && s.output.finish.Some? && !s.output.inflight && s.output.queue == []
    then [Trailers(s.output.finish.value)]
    else []
  }

  /** Steps that submit messages. */
  predicate Pumps(step: Step) {
    step.WriteStep? || step.PumpStep?
  }

  ghost predicate Exactly(s: Stream, step: Step, t: Stream) {
    && (!Pumps(step) ==> t.wire == s.wire + Ending(s, step))
    && (t.output.responded <==> s.output.responded || Closes(s, step).Some? || Silences(s, step))
    && (t.output.finish == if Closes(s, step).Some? && Waits(s, step) then Closes(s, step)
                           else if step.DeferredStep? && Ending(s, step) != [] then None else s.output.finish)
  }

  lemma FinishAnswers(s: Stream, code: int)
    requires WireInv(s) && s.phase.Live? && !s.output.responded
    ensures var t := FinishStream(s, code);
            && t.output.responded && t.phase == s.phase
            && (if s.output.inflight || s.output.queue != []
                then t.wire == s.wire && t.output.finish == Some(code)
                else t.output.finish == s.output.finish
                     && t.wire == s.wire + [if s.wire == [] then TrailersOnly(code) else Trailers(code)])
  {
    hide Grammar, OrderInv, FormInv;
  }

  lemma FinishStepAnswers(s: Stream, code: int)
    requires WireInv(s) && s.phase.Live?
    ensures Exactly(s, FinishStep(code), Apply(s, FinishStep(code)))
  {
    assert s.output.finish.Some? ==> s.output.responded;
    if !s.output.responded { FinishAnswers(s, code); }
    hide WireInv;
  }

  lemma RespondStepAnswers(s: Stream, code: int, payload: Bytes)
    requires WireInv(s) && s.phase.Live?
    ensures Exactly(s, RespondStep(code, payload), Apply(s, RespondStep(code, payload)))
  {
    GrpcCodes();
    assert s.info.ctx.UnaryCtx? && !s.output.responded ==> s.wire == [];
    assert s.wire + [] == s.wire;
    hide WireInv, Frame;
  }

  lemma DeadlineStepAnswers(s: Stream)
    requires WireInv(s) && s.phase.Live?
    ensures Exactly(s, DeadlineRespondStep, Apply(s, DeadlineRespondStep))
  {
    assert !s.output.responded ==> (s.output.headersSent <==> s.wire != []);
    assert s.info.form.Unary? ==> !s.output.headersSent;
    hide WireInv;
  }

  lemma DeferredStepAnswers(s: Stream)
    requires WireInv(s) && s.phase.Live?
    ensures Exactly(s, DeferredStep, Apply(s, DeferredStep))
  {
    assert s.output.finish.Some? ==> s.output.responded;
    hide WireInv;
  }

  lemma TakeStepAnswers(s: Stream)
    requires WireInv(s) && ShapeInv(s) && s.phase.Live?
    ensures Exactly(s, TakeStep, Apply(s, TakeStep))
  {
    assert s.wire + [] == s.wire;
    assert s.output.finish.Some? ==> s.output.responded;
    if s.input.decoder.messages != [] && !s.input.requestDone && !s.info.form.Unary? {
      var m := s.input.decoder.messages[0];
      var t := Take(s).(arrived := s.arrived + [m]);
      assert WireInv(t) by { QuietKeeps(s, t); }
      assert s.info.form.ClientStreaming? || s.info.form.Bidi? ==> s.info.dispatched;
      if !s.output.responded {
        FinishAnswers(t, INTERNAL);
        FinishAnswers(t, RESOURCE_EXHAUSTED);
      }
      hide WireInv, FinishStream;
    }
  }

  lemma HalfCloseAnswers(s: Stream)
    requires WireInv(s) && s.phase.Live? && !s.info.form.Unary? && s.input.decoder.messages == []
    ensures var t := HalfClose(s);
            var missing := s.info.form.ServerStreaming? && !s.info.dispatched && !s.output.responded;
            && t.wire == (if missing then [TrailersOnly(13)] else s.wire) && t.output.finish == s.output.finish
            && (t.output.responded <==> s.output.responded || missing)
  {
    assert !s.info.dispatched && !s.output.responded ==> s.wire == [];
    assert s.info.form.ClientStreaming? || s.info.form.Bidi? ==> s.info.dispatched;
    hide WireInv;
  }

  lemma EndStepAnswers(s: Stream)
    requires WireInv(s) && ShapeInv(s) && s.phase.Live?
    ensures Exactly(s, EndStep, Apply(s, EndStep))
  {
    assert s.wire + [] == s.wire;
    assert s.info.form.Unary? && !s.output.responded ==> s.wire == [];
    assert !s.info.form.Unary? ==> s.info.hasHandler;
    var t := s.(input := s.input.(requestDone := true));
    if !s.input.requestDone && !s.info.form.Unary? && s.input.decoder.messages == [] {
      assert !s.info.dispatched && !s.output.responded ==> s.wire == [];
      assert WireInv(t) by { QuietKeeps(s, t); }
      HalfCloseAnswers(t);
    }
    hide WireInv, HalfClose;
  }

  lemma OtherStepAnswers(s: Stream, step: Step)
    requires s.phase.Live? && !step.FinishStep? && !step.RespondStep? && !step.DeadlineRespondStep?
    requires !step.DeferredStep? && !step.TakeStep? && !step.EndStep?
    ensures Exactly(s, step, Apply(s, step))
  {
    assert s.wire + [] == s.wire;
    hide Feed, FeedError, Frame;
  }

  /**
   The whole table. Every step of a live stream submits exactly the ending its cause calls for, and
   settles the call exactly when there is a cause: a finish or a response with the handler's status, a
   deadline, a request that is one message too long, too many to hold, without a message, or for no
   method. A finish behind outstanding messages keeps its status for later.
   */
  lemma StepAnswers(s: Stream, step: Step)
    requires WireInv(s) && ReadInv(s) && s.phase.Live?
    ensures Exactly(s, step, Apply(s, step))
  {
    assert ShapeInv(s);
    hide WireInv, ReadInv, ShapeInv, Exactly, Apply;
    match step
    case FinishStep(code) => FinishStepAnswers(s, code);
    case RespondStep(code, p) => RespondStepAnswers(s, code, p);
    case DeadlineRespondStep => DeadlineStepAnswers(s);
    case DeferredStep => DeferredStepAnswers(s);
    case TakeStep => TakeStepAnswers(s);
    case EndStep => EndStepAnswers(s);
    case _ => OtherStepAnswers(s, step);
  }

  // ---- every ending has its cause -------------------------------------------------------------

  /** The `i`th step settles the call with `code`. */
  predicate Causes(steps: seq<Step>, i: nat, code: int) {
    i < |steps|
    && var s := Run(Init(), steps[..i]);
       || (s.phase.Idle? && steps[i].HeadersStep? && !steps[i].wellFormed && code == 13)
       || (s.phase.Live? && Closes(s, steps[i]) == Some(code))
  }

  ghost predicate HasCause(steps: seq<Step>, code: int) {
    exists i: nat :: Causes(steps, i, code)
  }

  predicate EndedWith(w: seq<Wire>, code: int) {
    w != [] && Terminal(w[|w| - 1]) && w[|w| - 1].code == code
  }

  ghost predicate Explained(steps: seq<Step>, s: Stream) {
    && (forall code :: EndedWith(s.wire, code) ==> HasCause(steps, code))
    && (s.phase.Live? && s.output.finish.Some? ==> HasCause(steps, s.output.finish.value))
  }

  lemma CauseStays(steps: seq<Step>, x: Step, code: int)
    requires HasCause(steps, code)
    ensures HasCause(steps + [x], code)
  {
    var i: nat :| Causes(steps, i, code);
    assert (steps + [x])[..i] == steps[..i];
    assert Causes(steps + [x], i, code);
  }

  lemma NewCause(steps: seq<Step>, x: Step, code: int)
    requires var s := Run(Init(), steps);
             || (s.phase.Idle? && x.HeadersStep? && !x.wellFormed && code == 13)
             || (s.phase.Live? && Closes(s, x) == Some(code))
    ensures HasCause(steps + [x], code)
  {
    assert (steps + [x])[..|steps|] == steps;
    assert Causes(steps + [x], |steps|, code);
  }

  lemma PumpEndsNothing(s: Stream, step: Step, code: int)
    requires WireInv(s) && s.phase.Live? && Pumps(step) && EndedWith(Apply(s, step).wire, code)
    ensures EndedWith(s.wire, code)
  {
    hide Grammar, OrderInv, FormInv, Frame;
  }

  lemma IdleSteps(s: Stream, step: Step)
    requires s == Init()
    ensures var t := Apply(s, step);
            && t.output.finish.None?
            && (t.wire == [] || (step.HeadersStep? && !step.wellFormed && t.wire == [TrailersOnly(13)]))
  {
    hide Feed, FeedError;
  }

  lemma LiveExplained(steps: seq<Step>, s: Stream, x: Step)
    requires s == Run(Init(), steps) && s.phase.Live? && WireInv(s) && ReadInv(s) && Explained(steps, s)
    ensures Explained(steps + [x], Apply(s, x))
  {
    hide WireInv, ReadInv, HasCause, Apply, Closes, Run;
    var t := Apply(s, x);
    StepAnswers(s, x);
    if Closes(s, x).Some? { NewCause(steps, x, Closes(s, x).value); }
    if s.output.finish.Some? { CauseStays(steps, x, s.output.finish.value); }
    forall code | EndedWith(t.wire, code) ensures HasCause(steps + [x], code) {
      if Pumps(x) { PumpEndsNothing(s, x, code); }
      if EndedWith(s.wire, code) { CauseStays(steps, x, code); }
    }
  }

  lemma {:induction false} RunExplained(steps: seq<Step>)
    ensures Explained(steps, Run(Init(), steps))
    decreases |steps|
  {
    if steps != [] {
      var front, x := steps[..|steps| - 1], steps[|steps| - 1];
      assert steps == front + [x];
      RunExplained(front);
      var s := Run(Init(), front);
      ServerCallbacks.RunAppend(Init(), front, [x]);
      ServerCallbacks.RunCons(s, x, []);
      assert [x] == [x] + [] && Run(Apply(s, x), []) == Apply(s, x);
      ReadRun(Init(), front);
      hide Run, Apply, HasCause;
      if s.phase.Live? {
        LiveExplained(front, s, x);
      } else {
        RestExplained(front, s, x);
      }
    }
  }

  lemma RestExplained(steps: seq<Step>, s: Stream, x: Step)
    requires s == Run(Init(), steps) && !s.phase.Live? && WireInv(s) && Explained(steps, s)
    ensures Explained(steps + [x], Apply(s, x))
  {
    var t := Apply(s, x);
    if s.phase.Idle? {
      assert s == Init();
      IdleSteps(s, x);
      if t.wire != [] { NewCause(steps, x, 13); }
      hide Run, Apply, HasCause;
    } else {
      FrozenStep(s, x);
      ClosedStep(s, x);
      hide Run, Apply, HasCause;
      forall code | EndedWith(t.wire, code) ensures HasCause(steps + [x], code) { CauseStays(steps, x, code); }
    }
  }

  /**
   In every run, a response that has ended carries the status of the step that settled the call: the
   handler's own, or that of its deadline or of what was wrong with the request.
   */
  lemma EndingHasCause(steps: seq<Step>, code: int)
    requires EndedWith(Run(Init(), steps).wire, code)
    ensures HasCause(steps, code)
  {
    hide Run;
    RunExplained(steps);
  }

  lemma SettledStays(s: Stream, step: Step)
    requires !s.phase.Idle? && (s.output.responded || !s.phase.Live?)
    ensures var t := Apply(s, step); !t.phase.Idle? && (t.output.responded || !t.phase.Live?)
  {
    hide Feed, FeedError, Frame;
  }

  lemma {:induction false} SettledRun(s: Stream, steps: seq<Step>)
    requires !s.phase.Idle? && (s.output.responded || !s.phase.Live?)
    ensures var t := Run(s, steps); !t.phase.Idle? && (t.output.responded || !t.phase.Live?)
    decreases |steps|
  {
    if steps != [] {
      SettledStays(s, steps[0]);
      hide Apply;
      SettledRun(Apply(s, steps[0]), steps[1..]);
    }
  }

  lemma CauseSettles(steps: seq<Step>, i: nat, code: int)
    requires Causes(steps, i, code)
    ensures var t := Apply(Run(Init(), steps[..i]), steps[i]); !t.phase.Idle? && (t.output.responded || !t.phase.Live?)
  {
    var s := Run(Init(), steps[..i]);
    ReadRun(Init(), steps[..i]);
    hide Run, WireInv, ReadInv;
    if s.phase.Live? {
      hide Apply, Closes;
      StepAnswers(s, steps[i]);
      LiveStays(s, steps[i]);
    }
  }

  lemma LiveStays(s: Stream, step: Step)
    requires s.phase.Live?
    ensures !Apply(s, step).phase.Idle?
  {
    hide Feed, FeedError, Frame;
  }

  /** And there is only one such step. */
  lemma CauseIsOnly(steps: seq<Step>, i: nat, a: int, j: nat, b: int)
    requires Causes(steps, i, a) && Causes(steps, j, b)
    ensures i == j && a == b
  {
    if i < j { EarlierCause(steps, i, a, j, b); }
    if j < i { EarlierCause(steps, j, b, i, a); }
  }

  lemma EarlierCause(steps: seq<Step>, i: nat, a: int, j: nat, b: int)
    requires Causes(steps, i, a) && i < j < |steps|
    ensures !Causes(steps, j, b)
  {
    var s := Run(Init(), steps[..i]);
    CauseSettles(steps, i, a);
    var middle := steps[i + 1..j];
    assert steps[..j] == steps[..i] + ([steps[i]] + middle);
    ServerCallbacks.RunAppend(Init(), steps[..i], [steps[i]] + middle);
    ServerCallbacks.RunCons(s, steps[i], middle);
    SettledRun(Apply(s, steps[i]), middle);
    hide Run, Apply;
  }

  /**
   How a call begins: headers that are not a request's are answered INTERNAL and leave no call; others
   open one, with the handler's context at once exactly if the handler takes a stream of requests. A
   path with no handler is taken for unary.
   */
  lemma OpeningExactly(wellFormed: bool, route: Option<Form>, limit: nat, ms: nat)
    ensures var t := Apply(Init(), HeadersStep(wellFormed, route, limit, ms));
            if !wellFormed then t.phase.Gone? && t.wire == [TrailersOnly(13)]
            else
              && t.phase.Live? && t.wire == [] && t.input.decoder == NewDecoder(limit) && (t.clock.armed <==> ms > 0)
              && t.info.hasHandler == route.Some? && t.info.form == (if route.Some? then route.value else Unary)
              && t.info.ctx == (if t.info.form.ClientStreaming? || t.info.form.Bidi? then StreamCtx(None) else NoCtx)
  {
    assert [] + [TrailersOnly(13)] == [TrailersOnly(13)];
  }

  /** A handler of one request is given the first message, whether it comes alone or is found at the end. */
  lemma FirstRequestGiven(s: Stream)
    requires s.Present() && s.info.form.ServerStreaming? && s.info.hasHandler && !s.info.dispatched
    requires !s.input.requestDone && s.input.decoder.messages != []
    ensures TakeRequest(s).info.ctx == StreamCtx(Some(s.input.decoder.messages[0]))
    ensures FinishRequest(s).info.ctx == StreamCtx(Some(s.input.decoder.messages[0]))
  {
  }

  // ---- the deadline ---------------------------------------------------------------------------

  /** A deadline that finds its call live and unanswered ends it, once and for good, as status 4. */
  lemma DeadlineAnswers(before: seq<Step>)
    requires var s := Run(Init(), before); s.phase.Live? && s.clock.due
    ensures var s := Run(Init(), before);
            var t := Apply(s, DeadlineRespondStep);
            var last := if s.wire == [] then TrailersOnly(4) else Trailers(4);
            && t.wire == (if s.output.responded then s.wire else s.wire + [last])
            && (!s.output.responded ==> forall after :: Run(t, after).wire == s.wire + [last])
  {
    var s := Run(Init(), before);
    ReadRun(Init(), before);
    StepAnswers(s, DeadlineRespondStep);
    var t := Apply(s, DeadlineRespondStep);
    assert s.wire + [] == s.wire;
    if !s.output.responded {
      assert Frozen(t);
      hide Run, WireInv, Apply;
      forall after ensures Run(t, after).wire == t.wire { FrozenRun(t, after); }
    }
  }

  /** While the call is live, its timer runs until it fires or something settles the call. */
  predicate TimerInv(s: Stream, timed: bool) {
    && !s.phase.Idle?
    && (s.phase.Live? ==> (s.clock.armed <==> timed && !s.output.responded && !s.clock.cancelFired))
    && (s.phase.Live? && s.clock.cancelFired ==> s.clock.due || s.output.responded)
    && (s.phase.Cancelling? || s.phase.Gone? ==> s.clock.cancelFired)
  }

  lemma TimerStep(s: Stream, timed: bool, step: Step)
    requires TimerInv(s, timed)
    ensures TimerInv(Apply(s, step), timed)
  {
    hide OnHeaders, OnChunk, FinishRequest, TakeRequest, WriteMessage, ReadMessage, FinishStream, Respond, PumpOut,
      MaybeSendDeferredFinish, OnStreamClose;
    match step
    case ChunkStep(data) => ChunkTimer(s, timed, data);
    case TakeStep => if s.input.decoder.messages != [] { TakeTimer(s, timed); }
    case EndStep => EndTimer(s, timed);
    case ReadStep => if s.info.ctx.StreamCtx? { ReadTimer(s, timed); }
    case WriteStep(p) => WriteTimer(s, timed, p);
    case PumpStep => WriteTimer(s, timed, []);
    case FinishStep(code) => SubmitTimer(s, timed, code, []);
    case RespondStep(code, p) => SubmitTimer(s, timed, code, p);
    case DeferredStep => SubmitTimer(s, timed, OK, []);
    case CloseStep(cause) => CloseTimer(s, cause);
    case _ =>
  }

  lemma CloseTimer(s: Stream, cause: Cause)
    ensures OnStreamClose(s, cause).phase.Failing?
  {
  }

  lemma ChunkTimer(s: Stream, timed: bool, data: Bytes)
    requires TimerInv(s, timed)
    ensures TimerInv(OnChunk(s, data), timed)
  {
    hide Feed, FeedError;
  }

  lemma ReadTimer(s: Stream, timed: bool)
    requires TimerInv(s, timed) && s.info.ctx.StreamCtx?
    ensures TimerInv(ReadMessage(s), timed)
  {
  }

  lemma SubmitTimer(s: Stream, timed: bool, code: int, p: Bytes)
    requires TimerInv(s, timed)
    ensures TimerInv(FinishStream(s, code), timed) && TimerInv(Respond(s, code, p), timed)
    ensures TimerInv(MaybeSendDeferredFinish(s), timed)
  {
    hide Frame;
  }

  lemma HalfCloseTimer(s: Stream, timed: bool)
    requires TimerInv(s, timed)
    ensures TimerInv(HalfClose(s), timed)
  {
  }

  lemma EndTimer(s: Stream, timed: bool)
    requires TimerInv(s, timed)
    ensures TimerInv(FinishRequest(s), timed)
  {
    HalfCloseTimer(s.(input := s.input.(requestDone := true)), timed);
    hide HalfClose;
  }

  lemma TakeTimer(s: Stream, timed: bool)
    requires TimerInv(s, timed) && s.input.decoder.messages != []
    ensures TimerInv(TakeRequest(s), timed)
  {
  }

  lemma WriteTimer(s: Stream, timed: bool, p: Bytes)
    requires TimerInv(s, timed)
    ensures TimerInv(WriteMessage(s, p), timed) && TimerInv(PumpOut(s), timed)
  {
    hide Frame;
  }

  lemma {:induction false} TimerRun(s: Stream, timed: bool, steps: seq<Step>)
    requires TimerInv(s, timed)
    ensures TimerInv(Run(s, steps), timed)
    decreases |steps|
  {
    if steps != [] {
      TimerStep(s, timed, steps[0]);
      hide Apply, TimerInv;
      TimerRun(Apply(s, steps[0]), timed, steps[1..]);
    }
  }

  /**
   In every run of a call opened with a timeout of `ms` milliseconds, while it is live: its timer runs
   if and only if the timeout is not zero, the timer has not fired and the call is not settled; and
   once it has fired the call is settled, or about to be by the deadline. No call is erased before its
   cancel callbacks have run.
   */
  lemma TimerRunsExactly(route: Option<Form>, limit: nat, ms: nat, steps: seq<Step>)
    ensures var s := Run(OnHeaders(Init(), true, route, limit, ms), steps);
            s.phase.Live? ==>
              && (s.clock.armed <==> ms > 0 && !s.output.responded && !s.clock.cancelFired)
              && (s.clock.cancelFired ==> s.clock.due || s.output.responded)
              && (s.clock.armed ==> Apply(s, DeadlineStep).clock.due && Apply(s, DeadlineStep).clock.cancelFired)
    ensures var s := Run(OnHeaders(Init(), true, route, limit, ms), steps); s.phase.Gone? ==> s.clock.cancelFired
  {
    var s0 := OnHeaders(Init(), true, route, limit, ms);
    assert TimerInv(s0, ms > 0);
    TimerRun(s0, ms > 0, steps);
  }

  // ---- what reads are told --------------------------------------------------------------------

  /** A read that waits when its stream or connection closes is told UNAVAILABLE, and nothing else is told then. */
  lemma CloseTellsReader(s: Stream, cause: Cause)
    ensures var t := OnStreamClose(s, cause);
            && t.readLog == s.readLog + (if s.input.armed then [ReadEvent(14, false, [])] else [])
            && !t.input.armed && t.input.finished
  {
    assert s.readLog + [] == s.readLog;
  }

  /**
   What a read is told: the oldest unread message; end of stream once the request has ended; that a
   read waits already; that the read side is finished; or nothing yet, and it waits.
   */
  lemma ReadTold(s: Stream)
    requires s.info.ctx.StreamCtx?
    ensures var t := ReadMessage(s);
            var open := s.Present() && !s.input.finished;
            && (!open ==> t.readLog == s.readLog + [ReadEvent(14, s.Present() && s.input.halfClosed, [])])
            && (open && Unread(s) != [] ==>
                  t.readLog == s.readLog + [ReadEvent(0, false, Unread(s)[0])] && Unread(t) == Unread(s)[1..])
            && (open && Unread(s) == [] && s.input.halfClosed ==>
                  t.readLog == s.readLog + [ReadEvent(0, true, [])] && t.input.finished)
            && (open && Unread(s) == [] && !s.input.halfClosed && s.input.armed ==>
                  t.readLog == s.readLog + [ReadEvent(13, false, [])])
            && (open && Unread(s) == [] && !s.input.halfClosed && !s.input.armed ==>
                  t.readLog == s.readLog && t.input.armed)
  {
  }

  /** The status that a framing error stands for. */
  lemma FramingCodes(e: FrameError)
    ensures ErrorCode(e) == if e.CompressedFlag? then 13 else 8
  {
  }
}
