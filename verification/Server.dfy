/** The gRPC status codes uRPC uses; any other integer may come from a handler or a peer. */
module StatusCodes {
  const OK := 0
  const DEADLINE_EXCEEDED := 4
  const RESOURCE_EXHAUSTED := 8
  const UNIMPLEMENTED := 12
  const INTERNAL := 13
  const UNAVAILABLE := 14
}

/**
 One stream of a server connection: the call record, what was submitted to HTTP/2 for it, and what
 its callbacks saw.

 Every operation runs up to the first user callback it makes; what the source does after that
 callback is an operation of its own, so user code may act in between. An operation on a call that
 is no longer in the table does nothing, as in the source.
 */
module Server {
  import opened Codec
  import opened StatusCodes

  const QUEUE_BOUND := 64

  datatype Form = Unary | ClientStreaming | ServerStreaming | Bidi

  /** One submission to the HTTP/2 session. */
  datatype Wire = Headers | Data(framed: Bytes) | Trailers(code: int) | TrailersOnly(code: int)

  datatype OutMsg = OutMsg(id: nat, framed: Bytes)

  /** The context object a handler holds; a stream's may carry the stashed first message. */
  datatype Ctx = NoCtx | UnaryCtx | StreamCtx(first: Option<Bytes>)

  /** A write callback, and a read callback, that ran. */
  datatype Fire = Fire(id: nat, code: int)
  datatype ReadEvent = ReadEvent(code: int, eos: bool, msg: Bytes)

  /**
   Idle: no header block yet. Live: in the call table, stream open. Failing: the stream closed and
   queued writes are being failed. Cancelling: cancel callbacks run. Gone: not in the table.
   */
  datatype Phase = Idle | Live | Failing | Cancelling | Gone

  /**
   Why a stream leaves the live phase. Its HTTP/2 stream closed, and the session drops the body it
   holds unless that body has been read and its notification is queued already; or the connection
   ended under it, and the session lasts until the call is erased.
   */
  datatype Cause = StreamClosed(notified: bool) | ConnectionLost

  /** `attached`: the session reads bodies it is given. `dead`: it will not notify the outstanding body. */
  datatype Hold = Hold(attached: bool, dead: bool)

  /** The parts of a call record that each side of the machine owns. */
  datatype Info = Info(form: Form, hasHandler: bool, dispatched: bool, ctx: Ctx)

  datatype Clock = Clock(
    armed: bool,        // the deadline timer runs
    due: bool,          // it fired and its cancel callbacks ran; the response is next
    cancelFired: bool)

  datatype Input = Input(
    decoder: Decoder,
    requestDone: bool,
    halfClosed: bool,
    finished: bool,     // end of stream, or an error, was delivered
    armed: bool,        // a read waits for a message
    pending: seq<Bytes>)

  datatype Output = Output(
    queue: seq<OutMsg>,
    inflight: bool,
    headersSent: bool,
    closed: bool,
    responded: bool,
    finish: Option<int>)   // a terminal status deferred until the queue drains

  datatype Stream = Stream(
    phase: Phase,
    info: Info,
    clock: Clock,
    input: Input,
    output: Output,
    body: Option<OutMsg>,       // the body whose consumed-callback has not run
    handed: seq<OutMsg>,        // every body given to the session, in order
    hold: Hold,                 // what the session does with them
    wire: seq<Wire>,
    writes: nat,                // WriteMessage calls so far; each call's callback has its number
    accepted: seq<Bytes>,       // payloads taken for sending, in order
    fired: seq<Fire>,
    arrived: seq<Bytes>,        // request messages taken off the decoder for a streaming handler
    readLog: seq<ReadEvent>,
    handled: seq<Bytes>)        // requests handed to a unary handler
  {
    predicate Present() {
      phase.Live? || phase.Failing? || phase.Cancelling?
    }
  }

  function NewStream(phase: Phase, form: Form, hasHandler: bool, limit: nat, deadline: bool): Stream {
    Stream(phase, Info(form, hasHandler, false, NoCtx), Clock(deadline, false, false),
           Input(NewDecoder(limit), false, false, false, false, []), Output([], false, false, false, false, None),
           None, [], Hold(true, false), [], 0, [], [], [], [], [])
  }

  function Init(): Stream {
    NewStream(Idle, Unary, false, 0, false)
  }

  // ---- submissions ----------------------------------------------------------------------------

  /** Submitting on a stream that closed, or whose connection ended, reaches nobody. */
  function Send(s: Stream, w: Wire): Stream {
    if s.phase.Live? then s.(wire := s.wire + [w]) else s
  }

  /** The call takes its terminal state: no second one, no deadline. */
  function Settled(s: Stream): Stream {
    s.(output := s.output.(responded := true), clock := s.clock.(armed := false))
  }

  function TrailersOnlyResponse(s: Stream, code: int): Stream {
    if !s.Present() || s.output.responded then s else Send(Settled(s), TrailersOnly(code))
  }

  /** Settles the call, then calls the operation that refuses settled calls. */
  function RespondError(s: Stream, code: int): Stream {
    if !s.Present() || s.output.responded then s else TrailersOnlyResponse(Settled(s), code)
  }

  function Respond(s: Stream, code: int, payload: Bytes): Stream {
    if !s.Present() || s.output.responded then s
    else if code == OK then
      var t := Settled(s).(accepted := s.accepted + [payload]);
      Send(Send(Send(t, Headers), Data(Frame(payload))), Trailers(OK))
    else Send(Settled(s), TrailersOnly(code))
  }

  // ---- the write side -------------------------------------------------------------------------

  function PumpOut(s: Stream): Stream {
    var o := s.output;
    if !s.Present() || o.inflight || o.queue == [] || o.responded || o.closed then s
    else
      var out := o.queue[0];
      var t := s.(output := o.(queue := o.queue[1..], inflight := true, headersSent := true), body := Some(out),
                  handed := s.handed + [out], hold := s.hold.(dead := !s.hold.attached));
      Send(if o.headersSent then t else Send(t, Headers), Data(out.framed))
  }

  function WriteMessage(s: Stream, payload: Bytes): Stream {
    if !s.Present() then Reject(s, UNAVAILABLE)
    else if s.output.responded || s.output.closed then Reject(s, INTERNAL)
    else if |s.output.queue| >= QUEUE_BOUND then Reject(s, RESOURCE_EXHAUSTED)
    else PumpOut(Enqueue(s, payload))
  }

  function Reject(s: Stream, code: int): Stream {
    s.(writes := s.writes + 1, fired := s.fired + [Fire(s.writes, code)])
  }

  function Enqueue(s: Stream, payload: Bytes): Stream {
    s.(writes := s.writes + 1,
       output := s.output.(queue := s.output.queue + [OutMsg(s.writes, Frame(payload))]),
       accepted := s.accepted + [payload])
  }

  /** The session took the whole body, and notifies: the first half of the consumed-callback. */
  function Consumed(s: Stream): Stream
    requires s.body.Some?
  {
    s.(output := if s.Present() then s.output.(inflight := false) else s.output,
       body := None,
       fired := s.fired + [Fire(s.body.value.id, OK)])
  }

  function MaybeSendDeferredFinish(s: Stream): Stream {
    var o := s.output;
    if !s.Present() || o.finish.None? || o.inflight || o.queue != [] then s
    else Send(s.(output := o.(finish := None)), Trailers(o.finish.value))
  }

  function FinishStream(s: Stream, code: int): Stream {
    var o := s.output;
    if !s.Present() || o.responded then s
    else
      var t := s.(output := o.(responded := true, closed := true), clock := s.clock.(armed := false),
                  input := s.input.(finished := true));
      if o.inflight || o.queue != [] then t.(output := t.output.(finish := Some(code)))
      else Send(t, if o.headersSent then Trailers(code) else TrailersOnly(code))
  }

  function WriteDone(s: Stream): Stream {
    if s.Present() then s.(output := s.output.(closed := true)) else s
  }

  // ---- the read side --------------------------------------------------------------------------

  function Told(s: Stream, input: Input, e: ReadEvent): Stream {
    s.(input := input, readLog := s.readLog + [e])
  }

  function DeliverRead(s: Stream, msg: Bytes): Stream {
    var i := s.input;
    if !s.Present() || i.finished then s
    else if i.armed then Told(s, i.(armed := false), ReadEvent(OK, false, msg))
    else if |i.pending| >= QUEUE_BOUND then FinishStream(s, RESOURCE_EXHAUSTED)
    else s.(input := i.(pending := i.pending + [msg]))
  }

  function DeliverEos(s: Stream): Stream {
    var i := s.input;
    if !s.Present() || i.finished then s
    else if i.armed then Told(s, i.(finished := true, armed := false), ReadEvent(OK, true, []))
    else s.(input := i.(finished := true))
  }

  function ReadMessage(s: Stream): Stream
    requires s.info.ctx.StreamCtx?
  {
    var i := s.input;
    if !s.Present() || i.finished then Told(s, i, ReadEvent(UNAVAILABLE, s.Present() && i.halfClosed, []))
    else if s.info.ctx.first.Some? then
      Told(s.(info := s.info.(ctx := StreamCtx(None))), i, ReadEvent(OK, false, s.info.ctx.first.value))
    else if i.pending != [] then Told(s, i.(pending := i.pending[1..]), ReadEvent(OK, false, i.pending[0]))
    else if i.halfClosed then Told(s, i.(finished := true), ReadEvent(OK, true, []))
    else if i.armed then Told(s, i, ReadEvent(INTERNAL, false, []))
    else s.(input := i.(armed := true))
  }

  // ---- the request side -----------------------------------------------------------------------

  function DispatchStream(s: Stream, first: Option<Bytes>): Stream {
    if !s.Present() || s.info.dispatched then s
    else s.(info := s.info.(dispatched := true, ctx := StreamCtx(first)))
  }

  /** The request header block; `route` is what the router knows of the path. */
  function OnHeaders(s: Stream, wellFormed: bool, route: Option<Form>, limit: nat, timeoutMs: nat): Stream
    requires s.phase.Idle?
  {
    if !wellFormed then s.(phase := Gone, wire := s.wire + [TrailersOnly(INTERNAL)])
    else
      var form := if route.Some? then route.value else Unary;
      var t := NewStream(Live, form, route.Some?, limit, timeoutMs > 0);
      if form.ClientStreaming? || form.Bidi? then DispatchStream(t, None) else t
  }

  function ErrorCode(e: FrameError): int {
    match e case CompressedFlag => INTERNAL case OverLimit(_) => RESOURCE_EXHAUSTED
  }

  /** DATA bytes reach the decoder. */
  function OnChunk(s: Stream, data: Bytes): Stream {
    if !s.Present() || s.input.requestDone || data == [] then s
    else
      var t := s.(input := s.input.(decoder := Feed(s.input.decoder, data)));
      var e := FeedError(s.input.decoder, data);
      if e.Some? then RespondError(t, ErrorCode(e.value)) else t
  }

  function Take(s: Stream): Stream
    requires s.input.decoder.messages != []
  {
    var d := s.input.decoder;
    s.(input := s.input.(decoder := d.(messages := d.messages[1..], count := d.count + 1)))
  }

  /** One turn of the loop that hands decoded messages to a streaming handler. */
  function TakeRequest(s: Stream): Stream
    requires s.input.decoder.messages != []
  {
    if !s.Present() || s.input.requestDone || s.info.form.Unary? then s
    else
      var m := s.input.decoder.messages[0];
      var t := Take(s).(arrived := s.arrived + [m]);
      if !s.info.form.ServerStreaming? then DeliverRead(t, m)
      else if s.info.dispatched then FinishStream(t, INTERNAL)
      else DispatchStream(t, Some(m))
  }

  /** END_STREAM on the request. */
  function FinishRequest(s: Stream): Stream {
    var d := s.input.decoder;
    if !s.Present() || s.input.requestDone then s
    else
      var t := s.(input := s.input.(requestDone := true));
      if !s.info.hasHandler then TrailersOnlyResponse(t, UNIMPLEMENTED)
      else if !s.info.form.Unary? then HalfClose(t)
      else if d.count != 0 || d.messages == [] then TrailersOnlyResponse(t, INTERNAL)
      else Take(t).(info := t.info.(ctx := UnaryCtx), handled := t.handled + [d.messages[0]])
  }

  function HalfClose(s: Stream): Stream {
    var t := s.(input := s.input.(halfClosed := true));
    var d := s.input.decoder;
    if s.info.dispatched then DeliverEos(t)
    else if !s.info.form.ServerStreaming? then TrailersOnlyResponse(t, UNIMPLEMENTED)
    else if d.messages == [] then TrailersOnlyResponse(t, INTERNAL)
    else DispatchStream(Take(t).(arrived := t.arrived + [d.messages[0]]), Some(d.messages[0]))
  }

  // ---- deadline and close ---------------------------------------------------------------------

  /** The deadline timer fires: cancel callbacks run first. */
  function DeadlineFires(s: Stream): Stream {
    if !s.Present() then s else s.(clock := Clock(false, true, true))
  }

  function DeadlineResponds(s: Stream): Stream {
    var o := s.output;
    var t := s.(clock := s.clock.(due := false));
    if !s.Present() || o.responded then t
    else Send(Settled(t), if !s.info.form.Unary? && o.headersSent then Trailers(DEADLINE_EXCEEDED)
                          else TrailersOnly(DEADLINE_EXCEEDED))
  }

  /** The stream, or its connection, closed: a waiting read is told, then queued writes are failed. */
  function OnStreamClose(s: Stream, cause: Cause): Stream {
    var hold := if cause.ConnectionLost? then s.hold else Hold(false, s.body.Some? && !cause.notified);
    var t := s.(phase := Failing, input := s.input.(finished := true), hold := hold);
    if s.input.armed then Told(t, t.input.(armed := false), ReadEvent(UNAVAILABLE, false, [])) else t
  }

  function FailQueued(s: Stream): Stream
    requires s.output.queue != []
  {
    s.(output := s.output.(queue := s.output.queue[1..]), fired := s.fired + [Fire(s.output.queue[0].id, UNAVAILABLE)])
  }

  function FireCancel(s: Stream): Stream {
    s.(phase := Cancelling, clock := s.clock.(cancelFired := true))
  }

  /** The record goes; with an ended connection, so does the session, and the body it holds. */
  function Erase(s: Stream): Stream {
    s.(phase := Gone, clock := s.clock.(armed := false),
       hold := if s.hold.attached then Hold(false, s.body.Some?) else s.hold)
  }

  // ---- runs -----------------------------------------------------------------------------------

  datatype Step =
    | HeadersStep(wellFormed: bool, route: Option<Form>, limit: nat, timeoutMs: nat)
    | ChunkStep(data: Bytes)
    | TakeStep
    | EndStep
    | ReadStep
    | WriteStep(payload: Bytes)
    | WriteDoneStep
    | FinishStep(code: int)
    | RespondStep(code: int, payload: Bytes)
    | ConsumedStep
    | PumpStep
    | DeferredStep
    | DeadlineStep
    | DeadlineRespondStep
    | CloseStep(cause: Cause)
    | FailStep
    | CancelStep
    | EraseStep
    | AbandonStep   // shutdown's grace period ended: cancel callbacks, no queued write is failed

  /** When a step can happen; handler calls need the handler's context. */
  predicate Enabled(s: Stream, step: Step) {
    match step
    case HeadersStep(_, _, _, _) => s.phase.Idle?
    case ChunkStep(_) => true
    case TakeStep => s.input.decoder.messages != []
    case EndStep => s.info.form.Unary? || s.input.decoder.messages == []
    case ReadStep => s.info.ctx.StreamCtx?
    case WriteStep(_) => s.info.ctx.StreamCtx?
    case WriteDoneStep => s.info.ctx.StreamCtx?
    case FinishStep(_) => s.info.ctx.StreamCtx?
    case RespondStep(_, _) => s.info.ctx.UnaryCtx?
    case ConsumedStep => s.body.Some? && !s.hold.dead
    case PumpStep => true
    case DeferredStep => true
    case DeadlineStep => s.clock.armed
    case DeadlineRespondStep => s.clock.due
    case CloseStep(_) => s.phase.Live?
    case FailStep => s.phase.Failing? && s.output.queue != []
    case CancelStep => s.phase.Failing? && s.output.queue == []
    case EraseStep => s.phase.Cancelling?
    case AbandonStep => s.phase.Live?
  }

  function Apply(s: Stream, step: Step): Stream {
    if !Enabled(s, step) then s else
    match step
    case HeadersStep(ok, route, limit, ms) => OnHeaders(s, ok, route, limit, ms)
    case ChunkStep(data) => OnChunk(s, data)
    case TakeStep => TakeRequest(s)
    case EndStep => FinishRequest(s)
    case ReadStep => ReadMessage(s)
    case WriteStep(p) => WriteMessage(s, p)
    case WriteDoneStep => WriteDone(s)
    case FinishStep(code) => FinishStream(s, code)
    case RespondStep(code, p) => Respond(s, code, p)
    case ConsumedStep => Consumed(s)
    case PumpStep => PumpOut(s)
    case DeferredStep => MaybeSendDeferredFinish(s)
    case DeadlineStep => DeadlineFires(s)
    case DeadlineRespondStep => DeadlineResponds(s)
    case CloseStep(cause) => OnStreamClose(s, cause)
    case FailStep => FailQueued(s)
    case CancelStep => FireCancel(s)
    case EraseStep => Erase(s)
    case AbandonStep => FireCancel(s)
  }

  /** A run: the steps that are enabled happen, in order. */
  function Run(s: Stream, steps: seq<Step>): Stream
    decreases |steps|
  {
    if steps == [] then s else Run(Apply(s, steps[0]), steps[1..])
  }
}
