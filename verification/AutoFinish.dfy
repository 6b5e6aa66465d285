/** The typed server-streaming layer over a core stream: when it finishes a stream on its own. */
module AutoFinish {
  import opened Codec
  import opened StatusCodes
  import opened Server
  import opened ServerWire
  import opened ServerCallbacks
  import ServerAnswers

  datatype Typed = Typed(
    core: Stream,
    wrote: bool,
    finished: bool,
    inFlight: int,
    returned: bool,          // the handler's wrapper ran to its end
    handlerReturned: bool,   // and left finishing to the last delivery
    completed: set<nat>)     // writes whose delivery callback ran to its end

  function Opened(core: Stream): Typed {
    Typed(core, false, false, 0, false, false, {})
  }

  function Write(t: Typed, payload: Bytes): Typed {
    if t.finished then t
    else t.(wrote := true, inFlight := t.inFlight + 1, core := WriteMessage(t.core, payload))
  }

  function MaybeAutoFinish(t: Typed): Typed {
    if t.inFlight != 0 || !t.handlerReturned || t.finished then t
    else t.(finished := true, core := FinishStream(t.core, OK))
  }

  /** The end of a delivery callback, after the user's part of it. */
  function OnDelivered(t: Typed, id: nat): Typed {
    var u := t.(inFlight := t.inFlight - 1, completed := t.completed + {id});
    if t.inFlight == 1 then MaybeAutoFinish(u) else u
  }

  function Finish(t: Typed, code: int): Typed {
    if t.finished then t else t.(finished := true, core := FinishStream(t.core, code))
  }

  /** What the registration wrapper does once the handler returned. */
  function HandlerReturns(t: Typed): Typed {
    var u := t.(returned := true);
    if u.finished then u
    else if !u.wrote then u.(core := FinishStream(u.core, UNIMPLEMENTED))
    else MaybeAutoFinish(u.(handlerReturned := true))
  }

  datatype TypedStep =
    | CoreStep(step: Step)
    | TypedWrite(payload: Bytes)
    | TypedFinish(code: int)
    | Returns
    | Delivered(id: nat)

  predicate Fired(s: Stream, id: nat) {
    id in FiredIds(s.fired)
  }

  /** The context's write side belongs to the typed layer. */
  predicate Ready(t: Typed, step: TypedStep) {
    match step
    case CoreStep(s) => !s.WriteStep? && !s.WriteDoneStep? && !s.FinishStep? && !s.HeadersStep?
    case TypedWrite(_) => true
    case TypedFinish(_) => true
    case Returns => !t.returned
    case Delivered(id) => Fired(t.core, id) && id !in t.completed
  }

  function TypedApply(t: Typed, step: TypedStep): Typed {
    if !Ready(t, step) then t else
    match step
    case CoreStep(s) => t.(core := Apply(t.core, s))
    case TypedWrite(p) => Write(t, p)
    case TypedFinish(code) => Finish(t, code)
    case Returns => HandlerReturns(t)
    case Delivered(id) => OnDelivered(t, id)
  }

  function TypedRun(t: Typed, steps: seq<TypedStep>): Typed
    decreases |steps|
  {
    if steps == [] then t else TypedRun(TypedApply(t, steps[0]), steps[1..])
  }

  // ---- the counter ----------------------------------------------------------------------------

  /** The counter is the number of writes whose delivery callback has not completed. */
  ghost predicate CountInv(t: Typed) {
    && t.inFlight == t.core.writes - |t.completed|
    && (forall id :: id in t.completed ==> id < t.core.writes && Fired(t.core, id))
    && (t.handlerReturned ==> t.wrote)
    && (t.wrote <==> t.core.writes > 0)
  }

  /** Nothing but a terminal state closes the write side, so the first write was accepted. */
  predicate OpenInv(t: Typed) {
    && t.core.info.ctx.StreamCtx?
    && (!t.core.output.responded ==> !t.core.output.closed)
    && (t.core.phase.Live? && !t.core.output.responded && t.core.writes > 0 ==> t.core.accepted != [])
  }

  ghost predicate TypedInv(t: Typed) {
    WireInv(t.core) && CallbackInv(t.core) && CountInv(t) && OpenInv(t)
  }

  lemma SubsetOfRange(s: set<nat>, n: nat)
    requires forall i :: i in s ==> i < n
    ensures |s| <= n
    ensures |s| == n ==> forall i: nat :: i < n ==> i in s
  {
    if n > 0 {
      SubsetOfRange(s - {n - 1}, n - 1);
      if n - 1 !in s { assert s - {n - 1} == s; }
    }
  }

  /** When the counter is zero, nothing is queued and nothing is in flight. */
  lemma ZeroMeansDrained(t: Typed)
    requires TypedInv(t) && t.inFlight == 0
    ensures t.core.output.queue == [] && t.core.body.None?
  {
    var s := t.core;
    SubsetOfRange(t.completed, s.writes);
    if s.output.queue != [] {
      assert QueueIds(s.output.queue)[0] == s.output.queue[0].id;
      NotFired(s, s.output.queue[0].id);
    } else if s.body.Some? {
      NotFired(s, s.body.value.id);
    }
  }

  lemma NotFired(s: Stream, id: nat)
    requires CallbackInv(s) && (id in QueueIds(s.output.queue) || id in BodyIds(s.body))
    ensures id < s.writes && !Fired(s, id)
  {
    var f: seq<nat>, q: seq<nat>, b: seq<nat> := FiredIds(s.fired), QueueIds(s.output.queue), BodyIds(s.body);
    assert multiset(f)[id] + multiset(q)[id] + multiset(b)[id] == UpTo(s.writes)[id];
    assert id in f ==> multiset(f)[id] > 0;
    assert id in q ==> multiset(q)[id] > 0;
    assert id in b ==> multiset(b)[id] > 0;
  }

  // ---- one step -------------------------------------------------------------------------------

  /** What a core operation may do as far as the typed layer can tell. */
  predicate CoreFrame(s: Stream, t: Stream) {
    && s.fired <= t.fired
    && t.info.ctx.StreamCtx? == s.info.ctx.StreamCtx?
    && (!t.output.responded ==> !s.output.responded && t.output.closed == s.output.closed)
    && (t.phase.Live? ==> s.phase.Live?)
    && s.accepted <= t.accepted
  }

  lemma CoreKeepsFrame(s: Stream, step: Step)
    requires s.info.ctx.StreamCtx? && s.info.dispatched && !s.info.form.Unary?
    requires !step.WriteStep? && !step.WriteDoneStep? && !step.FinishStep? && !step.HeadersStep?
    ensures CoreFrame(s, Apply(s, step)) && Apply(s, step).writes == s.writes
  {
    if step.EndStep? || step.TakeStep? || step.ChunkStep? {
      RequestKeepsFrame(s, step);
    } else {
      hide TakeRequest, FinishRequest, OnChunk;
    }
  }

  lemma RequestKeepsFrame(s: Stream, step: Step)
    requires s.info.ctx.StreamCtx? && s.info.dispatched && !s.info.form.Unary?
    requires step.EndStep? || step.TakeStep? || step.ChunkStep?
    ensures CoreFrame(s, Apply(s, step)) && Apply(s, step).writes == s.writes
  {
    hide Feed, FeedError, ReadMessage, WriteMessage, DeadlineResponds, PumpOut, OnHeaders;
  }

  lemma FinishKeepsFrame(s: Stream, code: int)
    ensures CoreFrame(s, FinishStream(s, code)) && FinishStream(s, code).writes == s.writes
    ensures FinishStream(s, code).fired == s.fired && FinishStream(s, code).body == s.body
    ensures FinishStream(s, code).output.queue == s.output.queue
  {
  }

  lemma WriteKeepsFrame(s: Stream, payload: Bytes)
    requires WireInv(s) && s.info.ctx.StreamCtx?
    ensures var t := WriteMessage(s, payload);
            && CoreFrame(s, t) && t.writes == s.writes + 1
            && (t.phase.Live? && !t.output.responded && !t.output.closed ==> t.accepted != [])
  {
    if s.phase.Live? && |s.output.queue| >= QUEUE_BOUND {
      assert |FrameEach(s.accepted)| == |DataFrames(s.wire)| + |s.output.queue|;
    }
    hide WireInv, Frame;
  }

  lemma FiredMonotone(s: Stream, t: Stream, id: nat)
    requires s.fired <= t.fired && Fired(s, id)
    ensures Fired(t, id)
  {
    var i :| 0 <= i < |s.fired| && s.fired[i].id == id;
    assert FiredIds(t.fired)[i] == id;
  }

  lemma FrameKeeps(t: Typed, u: Typed)
    requires CountInv(t) && OpenInv(t) && CoreFrame(t.core, u.core)
    requires u == t.(core := u.core, wrote := u.wrote, inFlight := u.inFlight, finished := u.finished,
                     returned := u.returned, handlerReturned := u.handlerReturned)
    requires u.inFlight - t.inFlight == u.core.writes - t.core.writes >= 0
    requires (u.wrote <==> u.core.writes > 0) && (u.handlerReturned ==> u.wrote)
    requires u.core.phase.Live? && !u.core.output.responded && u.core.writes > t.core.writes ==> u.core.accepted != []
    ensures CountInv(u) && OpenInv(u)
  {
    forall id | id in u.completed ensures Fired(u.core, id) { FiredMonotone(t.core, u.core, id); }
  }

  lemma FinishKeepsCallbacks(s: Stream, code: int)
    requires CallbackInv(s)
    ensures CallbackInv(FinishStream(s, code))
  {
    FinishKeepsFrame(s, code);
    hide FinishStream;
  }

  lemma FinishKeepsTyped(t: Typed, code: int, u: Typed)
    requires TypedInv(t)
    requires u == t.(core := FinishStream(t.core, code), finished := u.finished, returned := u.returned)
    ensures TypedInv(u)
  {
    FinishKeeps(t.core, code);
    FinishKeepsCallbacks(t.core, code);
    FinishKeepsFrame(t.core, code);
    hide WireInv, CallbackInv, FinishStream;
    FrameKeeps(t, u);
  }

  lemma AutoFinishKeepsTyped(t: Typed)
    requires TypedInv(t)
    ensures TypedInv(MaybeAutoFinish(t))
  {
    if MaybeAutoFinish(t) != t { FinishKeepsTyped(t, OK, MaybeAutoFinish(t)); }
  }

  lemma CoreKeepsTyped(t: Typed, s: Step)
    requires TypedInv(t) && Ready(t, CoreStep(s))
    ensures TypedInv(t.(core := Apply(t.core, s)))
  {
    assert t.core.info.dispatched && !t.core.info.form.Unary?;
    CoreKeepsFrame(t.core, s);
    hide WireInv, CallbackInv, Apply;
    WireStep(t.core, s);
    CallbackStep(t.core, s);
    FrameKeeps(t, t.(core := Apply(t.core, s)));
  }

  lemma ReturnsKeepsTyped(t: Typed)
    requires TypedInv(t)
    ensures TypedInv(HandlerReturns(t))
  {
    hide WireInv, CallbackInv, FinishStream;
    var u := t.(returned := true);
    FinishKeepsTyped(t, UNIMPLEMENTED, u.(core := FinishStream(u.core, UNIMPLEMENTED)));
    if t.wrote { AutoFinishKeepsTyped(u.(handlerReturned := true)); }
  }

  lemma TypedStepKeeps(t: Typed, step: TypedStep)
    requires TypedInv(t)
    ensures TypedInv(TypedApply(t, step))
  {
    hide TypedInv, Apply, Write, FinishStream, HandlerReturns, OnDelivered;
    if Ready(t, step) {
      match step
      case CoreStep(s) => CoreKeepsTyped(t, s);
      case TypedWrite(p) => WriteKeepsTyped(t, p);
      case TypedFinish(code) => FinishKeepsTyped(t, code, t.(core := FinishStream(t.core, code), finished := true));
      case Returns => ReturnsKeepsTyped(t);
      case Delivered(id) => DeliveredKeepsTyped(t, id);
    }
  }

  lemma WriteKeepsTyped(t: Typed, p: Bytes)
    requires TypedInv(t)
    ensures TypedInv(Write(t, p))
  {
    if !t.finished {
      WriteKeepsFrame(t.core, p);
      WriteKeeps(t.core, p);
      assert t.core.Present() ==> (t.core.output.inflight <==> t.core.body.Some?);
      hide WireInv, CallbackInv, WriteMessage;
      WriteCallbacks(t.core, p);
      FrameKeeps(t, Write(t, p));
    }
  }

  lemma DeliveredCounts(t: Typed, id: nat)
    requires TypedInv(t) && Fired(t.core, id) && id !in t.completed
    ensures TypedInv(t.(inFlight := t.inFlight - 1, completed := t.completed + {id}))
  {
    FiredIsIssued(t.core, id);
    hide WireInv, CallbackInv;
  }

  lemma DeliveredKeepsTyped(t: Typed, id: nat)
    requires TypedInv(t) && Fired(t.core, id) && id !in t.completed
    ensures TypedInv(OnDelivered(t, id))
  {
    DeliveredCounts(t, id);
    hide TypedInv;
    AutoFinishKeepsTyped(t.(inFlight := t.inFlight - 1, completed := t.completed + {id}));
  }

  lemma FiredIsIssued(s: Stream, id: nat)
    requires CallbackInv(s) && Fired(s, id)
    ensures id < s.writes
  {
    var f: seq<nat> := FiredIds(s.fired);
    assert multiset(f)[id] > 0;
    assert UpTo(s.writes)[id] >= multiset(f)[id];
  }

  lemma {:induction false} TypedRunKeeps(t: Typed, steps: seq<TypedStep>)
    requires TypedInv(t)
    ensures TypedInv(TypedRun(t, steps))
    decreases |steps|
  {
    hide TypedInv, TypedApply;
    if steps != [] {
      TypedStepKeeps(t, steps[0]);
      TypedRunKeeps(TypedApply(t, steps[0]), steps[1..]);
    }
  }

  // ---- what auto-finish sends -----------------------------------------------------------------

  function DataItems(framed: seq<Bytes>): (w: seq<Wire>)
    ensures |w| == |framed|
  {
    seq(|framed|, i requires 0 <= i < |framed| => Data(framed[i]))
  }

  /** Headers and the messages so far. */
  function OpenResponse(payloads: seq<Bytes>): seq<Wire> {
    [Headers] + DataItems(FrameEach(payloads))
  }

  /** Headers, every message, OK trailers. */
  function FullResponse(payloads: seq<Bytes>): seq<Wire> {
    OpenResponse(payloads) + [Trailers(OK)]
  }

  lemma {:induction false} OpenFormShape(w: seq<Wire>)
    requires OpenForm(w) && w != []
    ensures w == [Headers] + DataItems(DataFrames(w))
    decreases |w|
  {
    if |w| == 1 {
      DataFramesAppend([], w[0]);
      assert [] + [w[0]] == w;
    } else {
      var v, x := w[..|w| - 1], w[|w| - 1];
      OpenFormShape(v);
      assert w == v + [x];
      DataFramesAppend(v, x);
      assert DataItems(DataFrames(v) + [x.framed]) == DataItems(DataFrames(v)) + [x];
    }
  }

  /** A stream whose handler was given its context and has written nothing yet. */
  predicate Handed(core: Stream) {
    core.info.ctx.StreamCtx? && core.writes == 0 && (core.output.closed ==> core.output.responded)
  }

  lemma HandedTyped(before: seq<Step>)
    requires Handed(Run(Init(), before))
    ensures TypedInv(Opened(Run(Init(), before)))
  {
    WireRun(Init(), before);
    InitCallbacks();
    CallbackRun(Init(), before);
  }

  lemma InitCallbacks()
    ensures CallbackInv(Init())
  {
  }

  /** With nothing in flight, finishing an open stream OK completes the response. */
  lemma DrainedFinish(t: Typed)
    requires TypedInv(t) && t.inFlight == 0 && t.wrote && t.core.phase.Live? && !t.core.output.responded
    ensures t.core.output.queue == [] && t.core.body.None?
    ensures FinishStream(t.core, OK).wire == FullResponse(t.core.accepted)
  {
    var s := t.core;
    ZeroMeansDrained(t);
    assert s.wire != [] && QueueFrames(s.output.queue) == [] by {
      assert |FrameEach(s.accepted)| > 0;
      assert DataFrames(s.wire) + [] == DataFrames(s.wire);
    }
    OpenFormShape(s.wire);
    assert DataFrames(s.wire) == FrameEach(s.accepted);
  }

  /** If the stream was open, nothing was outstanding and the response became whole. */
  predicate SentWhole(before: Stream, after: Stream) {
    before.phase.Live? && !before.output.responded ==>
      before.output.queue == [] && before.body.None? && after.wire == FullResponse(before.accepted)
  }

  /** The step may finish the stream on the typed layer's own account. */
  predicate MayFinish(t: Typed, step: TypedStep) {
    Ready(t, step) && !t.finished && (step.Delivered? || (step.Returns? && t.wrote))
  }

  /** A delivery ends, or the handler returns: when that finishes the stream, and what is sent then. */
  lemma FinishingStep(t: Typed, step: TypedStep)
    requires TypedInv(t) && MayFinish(t, step)
    ensures var u := TypedApply(t, step);
            && (u.finished <==> u.handlerReturned && |u.completed| == u.core.writes)
            && (u.finished ==> SentWhole(t.core, u.core))
  {
    var u := TypedApply(t, step);
    FinishKeepsFrame(t.core, OK);
    hide FullResponse, FinishStream;
    if step.Delivered? {
      var v := t.(inFlight := t.inFlight - 1, completed := t.completed + {step.id});
      DeliveredCounts(t, step.id);
      if u.finished && t.core.phase.Live? && !t.core.output.responded { DrainedFinish(v); }
    } else {
      var v := t.(returned := true, handlerReturned := true);
      ReturnCounts(t);
      if u.finished && t.core.phase.Live? && !t.core.output.responded { DrainedFinish(v); }
    }
  }

  /**
   Drain-aware auto-finish. In every run the counter is the number of writes whose delivery has not
   completed; a delivery, or the handler's return, finishes the stream if and only if the handler has
   returned and every delivery has completed; and when that finds the stream open, the core queue is
   empty, nothing is in flight, and the response becomes exactly headers, every accepted message in
   order, OK trailers.
   */
  lemma AutoFinishIsComplete(before: seq<Step>, steps: seq<TypedStep>, step: TypedStep)
    requires Handed(Run(Init(), before)) && MayFinish(TypedRun(Opened(Run(Init(), before)), steps), step)
    ensures var t := TypedRun(Opened(Run(Init(), before)), steps);
            var u := TypedApply(t, step);
            && t.inFlight == t.core.writes - |t.completed|
            && (u.finished <==> u.handlerReturned && |u.completed| == u.core.writes)
            && (u.finished ==> SentWhole(t.core, u.core))
  {
    HandedTyped(before);
    hide Run, SentWhole, TypedApply;
    var core := Run(Init(), before);
    TypedRunKeeps(Opened(core), steps);
    FinishingStep(TypedRun(Opened(core), steps), step);
  }

  // ---- a producer that chains each write on the previous delivery -------------------------------

  /** `sent` has been submitted, its last message is in flight, and finishing is left to deliveries. */
  predicate Chained(t: Typed, sent: seq<Bytes>) {
    var s := t.core;
    && sent != []
    && s.phase.Live? && s.info.ctx.StreamCtx? && !s.output.responded && !s.output.closed && s.output.headersSent
    && s.output.queue == [] && s.output.inflight && s.body.Some? && s.body.value.id == |sent| - 1
    && s.hold == Hold(true, false)
    && s.writes == |sent| && s.wire == OpenResponse(sent)
    && !t.finished && t.handlerReturned && t.inFlight == 1 && |sent| - 1 !in t.completed
    && (forall id :: id in t.completed ==> id < |sent|)
  }

  /** The session takes the body; the user's part of the callback writes the next message; the rest runs. */
  function ChainNext(t: Typed, payload: Bytes, id: nat): Typed {
    TypedApply(TypedApply(TypedApply(t, CoreStep(ConsumedStep)), TypedWrite(payload)), Delivered(id))
  }

  lemma OpenResponseAppend(sent: seq<Bytes>, p: Bytes)
    ensures OpenResponse(sent + [p]) == OpenResponse(sent) + [Data(Frame(p))]
  {
    assert FrameEach(sent + [p]) == FrameEach(sent) + [Frame(p)];
    assert DataItems(FrameEach(sent) + [Frame(p)]) == DataItems(FrameEach(sent)) + [Data(Frame(p))];
  }

  lemma JustFired(s: Stream, id: nat, code: int)
    requires s.fired != [] && s.fired[|s.fired| - 1] == Fire(id, code)
    ensures Fired(s, id)
  {
    assert FiredIds(s.fired)[|s.fired| - 1] == id;
  }

  lemma ChainKeeps(t: Typed, sent: seq<Bytes>, p: Bytes)
    requires Chained(t, sent)
    ensures Chained(ChainNext(t, p, |sent| - 1), sent + [p])
  {
    OpenResponseAppend(sent, p);
    hide OpenResponse, Frame;
    var id := |sent| - 1;
    var a := TypedApply(t, CoreStep(ConsumedStep));
    JustFired(a.core, id, OK);
    var b := TypedApply(a, TypedWrite(p));
    assert b.core.fired == a.core.fired && b.inFlight == 2 && !b.core.output.responded;
    assert b.core.wire == OpenResponse(sent + [p]);
    FiredMonotone(a.core, b.core, id);
  }

  lemma ChainEnds(t: Typed, sent: seq<Bytes>)
    requires Chained(t, sent)
    ensures TypedApply(TypedApply(t, CoreStep(ConsumedStep)), Delivered(|sent| - 1)).core.wire == FullResponse(sent)
  {
    hide OpenResponse;
    var a := TypedApply(t, CoreStep(ConsumedStep));
    JustFired(a.core, |sent| - 1, OK);
  }

  function ChainSteps(msgs: seq<Bytes>, id: nat): seq<TypedStep> {
    if msgs == [] then [CoreStep(ConsumedStep), Delivered(id)]
    else [CoreStep(ConsumedStep), TypedWrite(msgs[0]), Delivered(id)] + ChainSteps(msgs[1..], id + 1)
  }

  lemma TypedRunThree(t: Typed, a: TypedStep, b: TypedStep, c: TypedStep, rest: seq<TypedStep>)
    ensures TypedRun(t, [a, b, c] + rest) == TypedRun(TypedApply(TypedApply(TypedApply(t, a), b), c), rest)
  {
    hide TypedApply;
    var all := [a, b, c] + rest;
    assert all[1..] == [b, c] + rest && ([b, c] + rest)[1..] == [c] + rest && ([c] + rest)[1..] == rest;
    assert TypedRun(t, all) == TypedRun(TypedApply(t, a), [b, c] + rest);
    assert TypedRun(TypedApply(t, a), [b, c] + rest) == TypedRun(TypedApply(TypedApply(t, a), b), [c] + rest);
  }

  lemma TypedRunTwo(t: Typed, a: TypedStep, b: TypedStep)
    ensures TypedRun(t, [a, b]) == TypedApply(TypedApply(t, a), b)
  {
    hide TypedApply;
    assert [a, b][1..] == [b] && [b][1..] == [];
    assert TypedRun(t, [a, b]) == TypedRun(TypedApply(t, a), [b]);
    assert TypedRun(TypedApply(t, a), [b]) == TypedRun(TypedApply(TypedApply(t, a), b), []);
  }

  lemma {:induction false} ChainRun(t: Typed, sent: seq<Bytes>, msgs: seq<Bytes>)
    requires Chained(t, sent)
    ensures TypedRun(t, ChainSteps(msgs, |sent| - 1)).core.wire == FullResponse(sent + msgs)
    decreases |msgs|
  {
    hide FullResponse, OpenResponse, TypedApply;
    if msgs == [] {
      ChainEnds(t, sent);
      TypedRunTwo(t, CoreStep(ConsumedStep), Delivered(|sent| - 1));
      assert sent + msgs == sent;
    } else {
      var id := |sent| - 1;
      ChainKeeps(t, sent, msgs[0]);
      hide Chained;
      TypedRunThree(t, CoreStep(ConsumedStep), TypedWrite(msgs[0]), Delivered(id), ChainSteps(msgs[1..], id + 1));
      ChainRun(ChainNext(t, msgs[0], id), sent + [msgs[0]], msgs[1..]);
      assert sent + [msgs[0]] + msgs[1..] == sent + msgs;
    }
  }

  /**
   A handler that writes one message, returns, and writes each further one from the delivery of the
   previous: for every number of messages the response is headers, all of them, OK trailers.
   */
  lemma ChainingProducer(core: Stream, first: Bytes, msgs: seq<Bytes>)
    requires core.phase.Live? && core.info.ctx.StreamCtx? && core.wire == [] && core.writes == 0
    requires core.output == Output([], false, false, false, false, None) && core.hold == Hold(true, false)
    ensures var t := TypedApply(TypedApply(Opened(core), TypedWrite(first)), Returns);
            TypedRun(t, ChainSteps(msgs, 0)).core.wire == FullResponse([first] + msgs)
  {
    var t := TypedApply(TypedApply(Opened(core), TypedWrite(first)), Returns);
    assert t.core.wire == OpenResponse([first]) by {
      OpenResponseAppend([], first);
      assert [] + [first] == [first];
    }
    ChainRun(t, [first], msgs);
  }

  // ---- the shared state, updated in place -----------------------------------------------------

  class ServerWriteState {
    var core: Stream
    var wrote: bool
    var finished: bool
    var inFlight: int
    var handlerReturned: bool
    ghost var returned: bool
    ghost var completed: set<nat>

    ghost function Value(): Typed
      reads this
    {
      Typed(core, wrote, finished, inFlight, returned, handlerReturned, completed)
    }

    /** The counter is the writes whose delivery has not completed; the core keeps its invariants. */
    ghost predicate Valid()
      reads this
    {
      TypedInv(Value())
    }

    constructor (core: Stream)
      requires TypedInv(Opened(core))
      ensures Valid() && Value() == Opened(core)
    {
      this.core := core;
      wrote, finished, inFlight, handlerReturned, returned, completed := false, false, 0, false, false, {};
    }

    method WriteNext(payload: Bytes) returns (taken: bool)
      requires Valid()
      modifies this
      ensures Valid() && Value() == Write(old(Value()), payload)
      ensures taken == !old(finished) && inFlight == core.writes - |completed|
      ensures core.writes == old(core).writes + if taken then 1 else 0
      ensures taken && old(core).phase.Live? && !old(core).output.responded && |old(core).output.queue| < 64 ==>
                core.accepted == old(core).accepted + [payload]
    {
      hide TypedInv, WriteMessage, DataFrames, QueueFrames, FrameEach;
      WriteTakes(Value(), payload);
      WriteKeepsTyped(Value(), payload);
      OneMoreWrite(core, payload);
      CounterIsOutstanding(Write(Value(), payload));
      if finished { return false; }
      wrote := true;
      inFlight := inFlight + 1;
      core := WriteMessage(core, payload);
      return true;
    }

    /** Finishes exactly when the handler has returned and nothing is outstanding. */
    method FinishWhenDrained()
      requires Valid()
      modifies this
      ensures Valid() && Value() == MaybeAutoFinish(old(Value()))
      ensures !old(finished) ==> (finished <==> handlerReturned && |completed| == core.writes)
      ensures finished && !old(finished) ==> SentWhole(old(core), core)
    {
      AutoFinishKeepsTyped(Value());
      FinishKeepsFrame(core, OK);
      if inFlight == 0 && handlerReturned && !finished && core.phase.Live? && !core.output.responded {
        DrainedFinish(Value());
      }
      CounterIsOutstanding(Value());
      hide TypedInv, FinishStream, FullResponse;
      if inFlight != 0 { return; }
      if !handlerReturned { return; }
      if finished { return; }
      finished := true;
      core := FinishStream(core, OK);
    }

    /** The end of a delivery callback: the last one finishes the stream, with the whole response sent. */
    method DeliveryEnds(id: nat)
      requires Valid() && Fired(core, id) && id !in completed
      modifies this
      ensures Valid() && Value() == OnDelivered(old(Value()), id) && completed == old(completed) + {id}
      ensures !old(finished) ==> (finished <==> handlerReturned && |completed| == core.writes)
      ensures finished && !old(finished) ==> SentWhole(old(core), core)
    {
      hide TypedInv, FinishStream, SentWhole;
      DeliveredCounts(Value(), id);
      completed := completed + {id};
      inFlight := inFlight - 1;
      CounterIsOutstanding(Value());
      if inFlight == 0 { FinishWhenDrained(); }
    }

    /** An explicit finish: the first ends the call, later ones change nothing. */
    method FinishWith(code: int) returns (first: bool)
      requires Valid()
      modifies this
      ensures Valid() && Value() == Finish(old(Value()), code)
      ensures first == !old(finished) && finished
      ensures first && core.Present() ==> core.output.responded
      ensures first && old(core).phase.Live? && !old(core).output.responded ==> Ended(old(core), code, core)
      ensures !first ==> Value() == old(Value())
    {
      hide TypedInv, FinishStream, Ended;
      FinishKeepsTyped(Value(), code, Value().(core := FinishStream(core, code), finished := true));
      FinishCloses(Value(), code);
      if core.phase.Live? && !core.output.responded { FinishEnds(Value(), code); }
      if finished { return false; }
      finished := true;
      core := FinishStream(core, code);
      return true;
    }

    /** After the handler: UNIMPLEMENTED when nothing was written, else the last delivery finishes. */
    method WrapperEnds()
      requires Valid() && !returned
      modifies this
      ensures Valid() && Value() == HandlerReturns(old(Value()))
      ensures !old(finished) && wrote ==> (finished <==> |completed| == core.writes)
      ensures finished && !old(finished) ==> SentWhole(old(core), core)
      ensures !old(finished) && !wrote && core.Present() ==> core.output.responded
      ensures !old(finished) && !wrote && old(core).phase.Live? && !old(core).output.responded ==>
                old(core).output.queue == [] && old(core).body.None? && Ended(old(core), 12, core)
    {
      hide TypedInv, FinishStream, SentWhole, Ended;
      if !wrote {
        NothingWritten(Value());
        if core.phase.Live? && !core.output.responded { FinishEnds(Value(), 12); }
      }
      ReturnsKeepsTyped(Value());
      FinishCloses(Value(), UNIMPLEMENTED);
      if wrote { ReturnCounts(Value()); }
      returned := true;
      if finished { return; }
      if !wrote {
        core := FinishStream(core, UNIMPLEMENTED);
        return;
      }
      handlerReturned := true;
      FinishWhenDrained();
    }
  }

  /** A finish with `code` took the open stream from `s` to `t`. */
  ghost predicate Ended(s: Stream, code: int, t: Stream) {
    if s.output.queue != [] then forall steps :: Run(t, steps).wire == s.wire
    else if s.body.Some? then forall steps :: FinishHolds(s.wire, code, Run(t, steps))
    else t.wire == s.wire + [if s.wire == [] then TrailersOnly(code) else Trailers(code)]
  }

  /**
   The status given is the status sent: at once with nothing outstanding; behind a body in flight, as
   soon as it is consumed; behind queued messages, never.
   */
  lemma FinishEnds(t: Typed, code: int)
    requires TypedInv(t) && t.core.phase.Live? && !t.core.output.responded
    ensures Ended(t.core, code, FinishStream(t.core, code))
  {
    ServerAnswers.FinishAnswers(t.core, code);
    DeferredFinish(t.core, code);
    assert t.core.output.inflight <==> t.core.body.Some?;
    hide WireInv, FinishStream, FinishHolds, Run;
  }

  lemma NothingWritten(t: Typed)
    requires TypedInv(t) && !t.wrote
    ensures t.core.output.queue == [] && t.core.body.None?
  {
    SubsetOfRange(t.completed, 0);
    ZeroMeansDrained(t);
  }

  /** A write on an open stream with room takes the payload; it goes out behind everything taken before. */
  lemma WriteTakes(t: Typed, payload: Bytes)
    requires TypedInv(t)
    ensures var s, u := t.core, WriteMessage(t.core, payload);
            var taken := s.phase.Live? && !s.output.responded && |s.output.queue| < 64;
            && (taken ==> u.accepted == s.accepted + [payload]
                          && DataFrames(u.wire) + QueueFrames(u.output.queue) == FrameEach(s.accepted + [payload]))
            && (s.phase.Live? && !taken ==> u.accepted == s.accepted && u.wire == s.wire)
  {
    WriteKeeps(t.core, payload);
    hide Frame;
  }

  lemma ReturnCounts(t: Typed)
    requires TypedInv(t) && t.wrote
    ensures TypedInv(t.(returned := true, handlerReturned := true))
  {
    hide WireInv, CallbackInv;
  }

  lemma OneMoreWrite(s: Stream, payload: Bytes)
    ensures WriteMessage(s, payload).writes == s.writes + 1
  {
    hide Frame;
  }

  lemma CounterIsOutstanding(t: Typed)
    requires TypedInv(t)
    ensures t.inFlight == t.core.writes - |t.completed|
  {
  }

  lemma FinishCloses(t: Typed, code: int)
    requires TypedInv(t)
    ensures var s := FinishStream(t.core, code);
            s.Present() ==> s.output.responded
  {
  }
}
