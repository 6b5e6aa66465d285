/**
 A unary call from the server's handler to the caller's completion: a server stream, the HTTP/2 pipe
 that carries its response, and the client's channel with every other call and stream on it.
 */
module UnaryEndToEnd {
  import opened Codec
  import opened StatusCodes
  import opened ChannelCallView
  import Channel
  import ChannelCalls
  import Server
  import ServerWire
  import EndToEnd

  // ---- a unary response has one message -------------------------------------------------------

  /** A unary stream accepts at most its one response, and ends OK only with it. */
  predicate OneResponse(s: Server.Stream) {
    s.info.form.Unary? ==>
      && |s.accepted| <= 1
      && (s.Present() && !s.output.responded ==> s.wire == [])
      && (ServerWire.OkEnded(s.wire) ==> s.accepted != [])
  }

  lemma RespondOnce(s: Server.Stream, code: int, payload: Bytes)
    requires ServerWire.WireInv(s) && OneResponse(s) && s.info.ctx.UnaryCtx?
    ensures OneResponse(Server.Respond(s, code, payload))
  {
    hide Frame, ServerWire.Grammar, ServerWire.OrderInv;
  }

  /** No other step of a unary stream accepts a message or ends it OK. */
  lemma OthersRespondNothing(s: Server.Stream, step: Server.Step)
    requires ServerWire.WireInv(s) && OneResponse(s) && !step.RespondStep?
    ensures OneResponse(Server.Apply(s, step))
  {
    hide ServerWire.Grammar, ServerWire.OrderInv, Server.OnHeaders, Server.OnChunk, Server.TakeRequest,
      Server.FinishRequest, Server.WriteMessage, Server.FinishStream, Server.PumpOut, Server.MaybeSendDeferredFinish,
      Server.DeadlineResponds;
    match step
    case HeadersStep(ok, route, limit, ms) => if s.phase.Idle? { OpenRespondsNothing(ok, route, limit, ms); }
    case ChunkStep(data) => ChunkRespondsNothing(s, data);
    case TakeStep => if s.input.decoder.messages != [] { TakeRespondsNothing(s); }
    case EndStep => EndRespondsNothing(s);
    case WriteStep(p) => WriteRespondsNothing(s, p);
    case FinishStep(code) => WriteRespondsNothing(s, []);
    case PumpStep => PumpRespondsNothing(s);
    case DeferredStep => PumpRespondsNothing(s);
    case DeadlineRespondStep => PumpRespondsNothing(s);
    case _ =>
  }

  lemma OpenRespondsNothing(ok: bool, route: Option<Server.Form>, limit: nat, ms: nat)
    ensures OneResponse(Server.OnHeaders(Server.Init(), ok, route, limit, ms))
  {
  }

  lemma ChunkRespondsNothing(s: Server.Stream, data: Bytes)
    requires OneResponse(s)
    ensures OneResponse(Server.OnChunk(s, data))
  {
    hide Feed, FeedError;
  }

  lemma TakeRespondsNothing(s: Server.Stream)
    requires OneResponse(s) && s.input.decoder.messages != []
    ensures OneResponse(Server.TakeRequest(s))
  {
    if !s.info.form.Unary? { FormStays(s); }
    hide Server.DeliverRead, Server.FinishStream, Server.DispatchStream;
  }

  lemma FormStays(s: Server.Stream)
    requires s.input.decoder.messages != []
    ensures Server.TakeRequest(s).info.form == s.info.form
  {
  }

  lemma EndRespondsNothing(s: Server.Stream)
    requires OneResponse(s) && (s.info.form.Unary? ==> !s.info.dispatched)
    ensures OneResponse(Server.FinishRequest(s))
  {
  }

  /** A unary stream has no streaming context to write or finish with. */
  lemma WriteRespondsNothing(s: Server.Stream, p: Bytes)
    requires ServerWire.FormInv(s)
    ensures s.info.ctx.StreamCtx? ==> !Server.WriteMessage(s, p).info.form.Unary?
    ensures s.info.ctx.StreamCtx? ==> forall code :: !Server.FinishStream(s, code).info.form.Unary?
  {
    hide Frame;
  }

  lemma PumpRespondsNothing(s: Server.Stream)
    requires ServerWire.FormInv(s) && OneResponse(s)
    ensures OneResponse(Server.PumpOut(s)) && OneResponse(Server.MaybeSendDeferredFinish(s))
    ensures OneResponse(Server.DeadlineResponds(s))
  {
  }

  lemma {:induction false} OneResponseRun(s: Server.Stream, steps: seq<Server.Step>)
    requires ServerWire.WireInv(s) && OneResponse(s)
    ensures ServerWire.WireInv(Server.Run(s, steps)) && OneResponse(Server.Run(s, steps))
    decreases |steps|
  {
    hide ServerWire.WireInv, OneResponse, Server.Apply;
    if steps != [] {
      OneResponseStep(s, steps[0]);
      OneResponseRun(Server.Apply(s, steps[0]), steps[1..]);
    }
  }

  lemma OneResponseStep(s: Server.Stream, step: Server.Step)
    requires ServerWire.WireInv(s) && OneResponse(s)
    ensures ServerWire.WireInv(Server.Apply(s, step)) && OneResponse(Server.Apply(s, step))
  {
    hide ServerWire.WireInv, OneResponse;
    ServerWire.WireStep(s, step);
    if step.RespondStep? {
      if s.info.ctx.UnaryCtx? { RespondOnce(s, step.code, step.payload); }
    } else {
      hide Server.Apply;
      OthersRespondNothing(s, step);
    }
  }

  // ---- the world ------------------------------------------------------------------------------

  /** `id` is the call and `sid` its stream. */
  datatype World = World(server: Server.Stream, got: Bytes, ended: bool, channel: Channel.Channel, id: nat, sid: int)

  datatype Step =
    | ServerStep(server: Server.Step)
    | HeadersArrive
    | DataArrives(len: nat)
    | TrailersArrive
    | ChannelStep(step: Channel.Step)    // any step that is not an answer to this call

  predicate Enabled(w: World, step: Step) {
    var wire, ready := w.server.wire, w.channel.conn.Ready?;
    match step
    case ServerStep(_) => true
    case HeadersArrive => ready && wire != [] && wire[0].Headers?
    case DataArrives(n) => ready && !w.ended && |w.got| + n <= |EndToEnd.SentBytes(wire)|
    case TrailersArrive =>
      ready && wire != [] && ServerWire.Terminal(wire[|wire| - 1]) && !w.ended && w.got == EndToEnd.SentBytes(wire)
    case ChannelStep(s) => !((s.HeadersStep? || s.DataStep?) && s.sid == w.sid)
  }

  ghost function Apply(w: World, step: Step): World {
    if !Enabled(w, step) then w else
    var wire := w.server.wire;
    match step
    case ServerStep(s) => w.(server := Server.Apply(w.server, s))
    case HeadersArrive => w.(channel := Channel.Apply(w.channel, Channel.HeadersStep(w.sid, None, true)))
    case DataArrives(n) =>
      var data := EndToEnd.SentBytes(wire)[|w.got|..|w.got| + n];
      w.(got := w.got + data, channel := Channel.Apply(w.channel, Channel.DataStep(w.sid, data)))
    case TrailersArrive =>
      var status := Some(wire[|wire| - 1].code);
      w.(ended := true, channel := Channel.Apply(w.channel, Channel.HeadersStep(w.sid, status, true)))
    case ChannelStep(s) => w.(channel := Channel.Apply(w.channel, s))
  }

  ghost function Run(w: World, steps: seq<Step>): World
    decreases |steps|
  {
    if steps == [] then w else Run(Apply(w, steps[0]), steps[1..])
  }

  // ---- what holds -----------------------------------------------------------------------------

  /** While the call is open, its decoder holds the messages of the bytes that arrived. */
  ghost predicate OpenInv(w: World, limit: nat) {
    && Submitted(w.channel, w.id, w.sid)
    && var d, p := w.channel.unary.calls[w.id].decoder, Parse(limit, w.got);
       p.error.None? && d.messages == p.messages && d.limit == limit && d.Residue() == p.rest
  }

  function First(msgs: seq<Bytes>): Bytes {
    if msgs == [] then [] else msgs[0]
  }

  function Ends(w: World): seq<Channel.Done> {
    Completions(w.channel.unary.done, w.id)
  }

  /** An OK completion carries the first message the server accepted. */
  ghost predicate DoneInv(ends: seq<Channel.Done>, s: Server.Stream) {
    && |ends| <= 1
    && (ends != [] && ends[0].code == OK ==>
          ServerWire.OkEnded(s.wire) && (EndToEnd.Sayable(s.accepted) ==> ends[0].payload == First(s.accepted)))
  }

  ghost predicate ServerInv(w: World) {
    ServerWire.WireInv(w.server) && OneResponse(w.server) && w.got <= EndToEnd.SentBytes(w.server.wire)
  }

  ghost predicate Inv(w: World, limit: nat) {
    && ServerInv(w) && ChannelCalls.CallsInv(w.channel) && DoneInv(Ends(w), w.server)
    && (Ends(w) == [] ==> OpenInv(w, limit))
  }

  lemma ServerKeeps(w: World, limit: nat, step: Server.Step)
    requires Inv(w, limit)
    ensures Inv(w.(server := Server.Apply(w.server, step)), limit)
  {
    hide Server.Apply, OneResponse, ChannelCalls.CallsInv, Submitted, Parse, Completions;
    var s, t := w.server, Server.Apply(w.server, step);
    EndToEnd.ServerGrows(s, step);
    OneResponseStep(s, step);
    EndToEnd.SentGrows(s.wire, t.wire);
    hide EndToEnd.SentBytes;
    assert Ends(w.(server := t)) == Ends(w);
    if ServerWire.OkEnded(s.wire) {
      EndToEnd.NothingAfterOk(s, t);
      EndToEnd.TerminalIsLast(s.wire, t.wire);
    }
    hide ServerWire.WireInv, ServerWire.OkEnded;
  }

  /** A decoder that keeps its messages: after `data` it holds those of all the bytes. */
  lemma FeedMore(d: Decoder, limit: nat, got: Bytes, data: Bytes)
    requires d.limit == limit && d.Residue() == Parse(limit, got).rest && d.messages == Parse(limit, got).messages
    ensures var e, p := Feed(d, data), Parse(limit, got + data);
            FeedError(d, data) == p.error && e.limit == limit && e.Residue() == p.rest && e.messages == p.messages
  {
    hide Parse;
    FeedExtends(d, got, data);
  }

  /** What the channel makes of an answer to the call. */
  lemma AnswerView(ch: Channel.Channel, id: nat, sid: int, status: Option<int>, http200: bool, data: Bytes)
    requires ch.conn.Ready? && Submitted(ch, id, sid)
    ensures var call, t := ch.unary.calls[id], Channel.Apply(ch, Channel.HeadersStep(sid, status, http200));
            && t.streams == ch.streams && t.lastSid == ch.lastSid && t.conn == ch.conn
            && (status.None? && http200 ==> t == ch)
            && (status.None? && !http200 ==> t.unary.done == ch.unary.done + [Channel.Done(id, 14, [])])
            && (status.Some? ==>
                  t.unary.done == ch.unary.done + [Channel.Done(id, status.value, First(call.decoder.messages))])
    ensures var call, t := ch.unary.calls[id], Channel.Apply(ch, Channel.DataStep(sid, data));
            && t.streams == ch.streams && t.lastSid == ch.lastSid && t.conn == ch.conn
            && (data == [] ==> t == ch)
            && (data != [] ==>
                  var e := FeedError(call.decoder, data);
                  if e.Some? then t.unary.done == ch.unary.done + [Channel.Done(id, Server.ErrorCode(e.value), [])]
                  else t.unary.done == ch.unary.done
                       && t.unary.calls == ch.unary.calls[id := call.(decoder := Feed(call.decoder, data))]
                       && t.unary.byStream == ch.unary.byStream)
  {
    hide Feed, FeedError;
  }

  lemma ChannelStays(ch: Channel.Channel, step: Channel.Step)
    requires ChannelCalls.CallsInv(ch)
    ensures ChannelCalls.CallsInv(Channel.Apply(ch, step))
  {
    ChannelCalls.CallsStep(ch, step);
  }

  lemma EndsAppend(w: World, v: World, d: Channel.Done)
    requires v.id == w.id && v.channel.unary.done == w.channel.unary.done + [d] && d.id == w.id && Ends(w) == []
    ensures Ends(v) == [d]
  {
    CompletionsAppend(w.channel.unary.done, d, w.id);
  }

  lemma DataKeeps(w: World, limit: nat, n: nat)
    requires Inv(w, limit) && Enabled(w, DataArrives(n))
    ensures Inv(Apply(w, DataArrives(n)), limit)
  {
    hide ServerWire.WireInv, OneResponse, EndToEnd.SentBytes, Completions, Parse, Feed, FeedError, Channel.Apply,
      ChannelCalls.CallsInv;
    var v, ch := Apply(w, DataArrives(n)), w.channel;
    var sent := EndToEnd.SentBytes(w.server.wire);
    var data := sent[|w.got|..|w.got| + n];
    assert v.got == w.got + data <= sent;
    ChannelStays(ch, Channel.DataStep(w.sid, data));
    if Ends(w) != [] {
      CompletedStays(ch, w.id, Channel.DataStep(w.sid, data));
    } else {
      AnswerView(ch, w.id, w.sid, None, true, data);
      if data == [] {
        assert v == w;
      } else {
        var call := ch.unary.calls[w.id];
        FeedMore(call.decoder, limit, w.got, data);
        var e := FeedError(call.decoder, data);
        if e.Some? { EndsAppend(w, v, Channel.Done(w.id, Server.ErrorCode(e.value), [])); }
      }
    }
  }

  lemma TrailersKeep(w: World, limit: nat)
    requires Inv(w, limit) && Enabled(w, TrailersArrive)
    ensures Inv(Apply(w, TrailersArrive), limit)
  {
    hide ServerWire.WireInv, OneResponse, EndToEnd.SentBytes, Completions, Parse, Channel.Apply, ChannelCalls.CallsInv;
    var v, ch, wire := Apply(w, TrailersArrive), w.channel, w.server.wire;
    var status := Some(wire[|wire| - 1].code);
    ChannelStays(ch, Channel.HeadersStep(w.sid, status, true));
    if Ends(w) != [] {
      CompletedStays(ch, w.id, Channel.HeadersStep(w.sid, status, true));
    } else {
      AnswerView(ch, w.id, w.sid, status, true, []);
      var payload := First(ch.unary.calls[w.id].decoder.messages);
      EndsAppend(w, v, Channel.Done(w.id, status.value, payload));
      if EndToEnd.Sayable(w.server.accepted) { EndToEnd.ArrivedIsPrefix(w.server, limit, w.got); }
    }
  }

  lemma OtherKeeps(w: World, limit: nat, step: Step)
    requires Inv(w, limit) && Enabled(w, step) && (step.ChannelStep? || step.HeadersArrive?)
    ensures Inv(Apply(w, step), limit)
  {
    hide ServerWire.WireInv, OneResponse, EndToEnd.SentBytes, Completions, Parse, Channel.Apply, ChannelCalls.CallsInv;
    var v, ch := Apply(w, step), w.channel;
    var event := if step.ChannelStep? then step.step else Channel.HeadersStep(w.sid, None, true);
    ChannelStays(ch, event);
    if Ends(w) != [] {
      CompletedStays(ch, w.id, event);
    } else if step.ChannelStep? {
      CallStepView(ch, w.id, w.sid, event);
    } else {
      AnswerView(ch, w.id, w.sid, None, true, []);
    }
  }

  lemma StepKeeps(w: World, limit: nat, step: Step)
    requires Inv(w, limit)
    ensures Inv(Apply(w, step), limit)
  {
    hide Inv, Server.Apply, Channel.Apply;
    if Enabled(w, step) {
      match step
      case ServerStep(s) => ServerKeeps(w, limit, s);
      case DataArrives(n) => DataKeeps(w, limit, n);
      case TrailersArrive => TrailersKeep(w, limit);
      case _ => OtherKeeps(w, limit, step);
    }
  }

  lemma {:induction false} RunKeeps(w: World, limit: nat, steps: seq<Step>)
    requires Inv(w, limit)
    ensures Inv(Run(w, steps), limit) && Run(w, steps).id == w.id
    decreases |steps|
  {
    hide Inv;
    if steps != [] {
      StepKeeps(w, limit, steps[0]);
      assert Apply(w, steps[0]).id == w.id;
      hide Apply;
      RunKeeps(Apply(w, steps[0]), limit, steps[1..]);
    }
  }

  /** A state a channel reaches, with the call submitted on `sid` and nothing of its answer arrived. */
  ghost predicate Asked(ch: Channel.Channel, limit: nat, before: seq<Channel.Step>, id: nat, sid: int) {
    && ch == Channel.Run(Channel.Init(limit), before)
    && Submitted(ch, id, sid) && ch.unary.calls[id].decoder == NewDecoder(limit)
  }

  lemma AskedKeeps(ch: Channel.Channel, limit: nat, before: seq<Channel.Step>, id: nat, sid: int)
    requires Asked(ch, limit, before, id, sid)
    ensures Inv(World(Server.Init(), [], false, ch, id, sid), limit)
  {
    ServerWire.WireRun(Server.Init(), []);
    assert OneResponse(Server.Init());
    ChannelCalls.InitKeeps(limit);
    ChannelCalls.CallsRun(Channel.Init(limit), before);
    ChannelCalls.UnaryExactlyOnce(limit, before, id);
    CompletionsCount(ch.unary.done, id);
    IssuedCall(ch.unary, ch.lastSid, id);
    hide Channel.Run, Completions, ServerWire.WireInv, OneResponse;
  }

  /**
   From any state a channel reaches with a unary call submitted, in every run, with every other call
   and stream of the channel, every deadline, cancellation, reset and loss: the call completes at
   most once, and an OK completion carries the first message the server accepted; when the server's
   method is unary that is its only one, exactly the payload the handler responded with.
   */
  lemma UnaryResponseArrives(ch: Channel.Channel, limit: nat, before: seq<Channel.Step>, id: nat, sid: int,
      steps: seq<Step>)
    requires Asked(ch, limit, before, id, sid)
    requires EndToEnd.Sayable(Run(World(Server.Init(), [], false, ch, id, sid), steps).server.accepted)
    ensures var w := Run(World(Server.Init(), [], false, ch, id, sid), steps);
            var c := Completions(w.channel.unary.done, id);
            && |c| <= 1
            && (c != [] && c[0].code == OK ==>
                  && c[0].payload == First(w.server.accepted)
                  && (w.server.info.form.Unary? ==> w.server.accepted == [c[0].payload]))
  {
    AskedKeeps(ch, limit, before, id, sid);
    hide Asked, Run, Completions, ServerWire.WireInv, ChannelCalls.CallsInv;
    RunKeeps(World(Server.Init(), [], false, ch, id, sid), limit, steps);
  }
}
