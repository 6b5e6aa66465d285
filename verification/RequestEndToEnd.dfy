/**
 A request from the caller's `StreamSend` to the server handler's reads: a stream of a channel, the
 HTTP/2 pipe that carries its DATA, and a server stream.
 */
module RequestEndToEnd {
  import opened Codec
  import opened StatusCodes
  import opened ClientStream
  import opened ChannelStreams
  import opened ChannelView
  import opened ServerReads
  import Channel
  import Server
  import ServerWire
  import EndToEnd

  /** `payloads` are the messages the stream took, `discards` those the server read side threw away. */
  datatype World = World(
    channel: Channel.Channel,
    id: nat,
    payloads: seq<Bytes>,
    got: Bytes,
    server: Server.Stream,
    discards: nat)

  function Client(w: World): Sending
    requires Channel.Known(w.channel.streams, w.id)
  {
    Channel.ViewOf(w.channel.streams, w.id).sending
  }

  /** Nothing follows END_STREAM on the wire. */
  function Wired(sent: seq<OutMsg>): seq<OutMsg> {
    if sent == [] then []
    else if sent[0].close then [sent[0]]
    else [sent[0]] + Wired(sent[1..])
  }

  function RequestBytes(g: Sending): Bytes {
    Flatten(Bodies(Wired(g.sent)))
  }

  datatype Step =
    | SendMessage(payload: Bytes, close: bool)
    | ChannelStep(step: Channel.Step)     // any other step of the channel
    | DataArrives(len: nat)
    | EndArrives
    | ServerStep(server: Server.Step)     // any other step of the server stream

  predicate Enabled(w: World, step: Step)
    requires Channel.Known(w.channel.streams, w.id)
  {
    match step
    case SendMessage(_, _) => true
    case ChannelStep(s) => !(s.SendStep? && s.id == w.id)
    case DataArrives(n) => w.server.Present() && !w.server.input.requestDone && |w.got| + n <= |RequestBytes(Client(w))|
    case EndArrives => Client(w).closed && w.got == RequestBytes(Client(w)) && Server.Enabled(w.server, Server.EndStep)
    case ServerStep(s) => !s.ChunkStep? && !s.EndStep?
  }

  ghost function OnChannel(w: World, step: Channel.Step): World {
    w.(channel := Channel.Apply(w.channel, step))
  }

  /** The stream took one more message. */
  predicate Takes(w: World, v: World)
    requires Channel.Known(w.channel.streams, w.id)
  {
    Channel.Known(v.channel.streams, v.id) && |Client(v).accepted| > |Client(w).accepted|
  }

  function OnServer(w: World, step: Server.Step): World {
    w.(server := Server.Apply(w.server, step), discards := w.discards + if Discards(w.server, step) then 1 else 0)
  }

  ghost function Apply(w: World, step: Step): World
    requires Channel.Known(w.channel.streams, w.id)
  {
    if !Enabled(w, step) then w else
    match step
    case SendMessage(m, close) =>
      var v := OnChannel(w, Channel.SendStep(w.id, Frame(m), close));
      v.(payloads := if Takes(w, v) then w.payloads + [m] else w.payloads)
    case ChannelStep(s) => OnChannel(w, s)
    case DataArrives(n) =>
      var data := RequestBytes(Client(w))[|w.got|..|w.got| + n];
      OnServer(w, Server.ChunkStep(data)).(got := w.got + data)
    case EndArrives => OnServer(w, Server.EndStep)
    case ServerStep(s) => OnServer(w, s)
  }

  ghost function Run(w: World, steps: seq<Step>): World
    decreases |steps|
  {
    if steps == [] || !Channel.Known(w.channel.streams, w.id) then w else Run(Apply(w, steps[0]), steps[1..])
  }

  // ---- the client's side ----------------------------------------------------------------------

  lemma {:induction false} FlattenAppend(chunks: seq<Bytes>, x: Bytes)
    ensures Flatten(chunks + [x]) == Flatten(chunks) + x
  {
    if chunks == [] {
      assert chunks + [x] == [x] && [x][1..] == [] && x + [] == x;
    } else {
      FlattenAppend(chunks[1..], x);
      assert (chunks + [x])[1..] == chunks[1..] + [x];
      Assoc(chunks[0], Flatten(chunks[1..]), x);
    }
  }

  lemma {:induction false} WiredPrefix(sent: seq<OutMsg>)
    ensures Wired(sent) <= sent
    ensures CloseIsLast(sent) ==> Wired(sent) == sent
  {
    if sent != [] && !sent[0].close {
      var rest := sent[1..];
      WiredPrefix(rest);
      assert sent == [sent[0]] + rest;
      if CloseIsLast(sent) {
        forall i | 0 <= i < |rest| - 1 ensures !rest[i].close { assert rest[i] == sent[i + 1]; }
      }
    }
  }

  lemma {:induction false} WiredGrows(a: seq<OutMsg>, b: seq<OutMsg>)
    requires a <= b
    ensures Wired(a) <= Wired(b)
    decreases |b|
  {
    if a != [] && !a[0].close { WiredGrows(a[1..], b[1..]); }
  }

  lemma BytesGrow(g: Sending, h: Sending)
    requires g.sent <= h.sent
    ensures RequestBytes(g) <= RequestBytes(h)
  {
    WiredGrows(g.sent, h.sent);
    assert Bodies(Wired(g.sent)) <= Bodies(Wired(h.sent));
    EndToEnd.FlattenPrefix(Bodies(Wired(g.sent)), Bodies(Wired(h.sent)));
  }

  /** The bytes on the wire are a prefix of the frames taken, and all of them behind a close that nothing followed. */
  lemma BytesAreTaken(g: Sending)
    requires SentInv(g)
    ensures RequestBytes(g) <= Flatten(g.accepted)
    ensures g.closed && !g.late ==> RequestBytes(g) == Flatten(g.accepted)
  {
    WiredPrefix(g.sent);
    assert Bodies(Wired(g.sent)) <= Bodies(g.sent) <= g.accepted;
    EndToEnd.FlattenPrefix(Bodies(Wired(g.sent)), g.accepted);
  }

  lemma SendSends(g: Sending, framed: Bytes, close: bool)
    ensures var h := StreamSend(g, framed, close);
            g.sent <= h.sent && (h.accepted == g.accepted || h.accepted == g.accepted + [framed])
    ensures g.sent <= Pump(g).sent && Pump(g).accepted == g.accepted
  {
  }

  lemma CloseSends(g: Sending)
    ensures var h := StreamCloseSend(g);
            g.sent <= h.sent && (h.accepted == g.accepted || h.accepted == g.accepted + [[]])
  {
    hide MarkLast;
  }

  /** What a step does to the sending side of a stream. */
  lemma SendingView(st: Stream, id: nat, held: bool, step: Channel.Step)
    ensures var g, h := st.sending, ViewStep(st, id, held, step).sending;
            && g.sent <= h.sent
            && (h.accepted == g.accepted
                || (step.CloseSendStep? && h.accepted == g.accepted + [[]])
                || (step.SendStep? && step.id == id && h.accepted == g.accepted + [step.framed]))
  {
    if step.SendStep? || step.PumpStep? {
      SendSends(st.sending, if step.SendStep? then step.framed else [], step.SendStep? && step.close);
    }
    CloseSends(st.sending);
    hide Feed, FeedError, Answers, StreamSend, StreamCloseSend, Pump;
  }

  ghost predicate ClientInv(w: World) {
    && ChannelInv(w.channel) && Channel.Known(w.channel.streams, w.id)
    && Flatten(Client(w).accepted) == Frames(w.payloads)
    && w.got <= RequestBytes(Client(w))
  }

  lemma ChannelKeeps(w: World, s: Channel.Step, m: Bytes, v: World)
    requires ClientInv(w) && v.id == w.id && v.got == w.got && v.channel == Channel.Apply(w.channel, s)
    requires !(s.SendStep? && s.id == w.id) ==> v.payloads == w.payloads
    requires s.SendStep? && s.id == w.id ==>
               s.framed == Frame(m) && v.payloads == if Takes(w, v) then w.payloads + [m] else w.payloads
    ensures ClientInv(v)
  {
    hide Channel.Apply, ViewStep, Frame, ChannelInv;
    StreamsStep(w.channel, s);
    StepView(w.channel, w.id, s);
    var st, held := Channel.ViewOf(w.channel.streams, w.id), Channel.Held(w.channel, w.id);
    SendingView(st, w.id, held, s);
    var g, h := Client(w), Client(v);
    BytesGrow(g, h);
    hide RequestBytes;
    if h.accepted == g.accepted + [[]] && s.CloseSendStep? {
      FlattenAppend(g.accepted, []);
      assert Flatten(g.accepted) + [] == Flatten(g.accepted);
    } else if s.SendStep? && s.id == w.id && h.accepted == g.accepted + [s.framed] {
      FlattenAppend(g.accepted, s.framed);
      FramesAppend(w.payloads, [m]);
      assert Frames([m]) == Frame(m) by { assert [m][1..] == [] && Frame(m) + [] == Frame(m); }
    }
  }

  // ---- the server's side ----------------------------------------------------------------------

  /** What the server took off its decoder, and what is still in it, are the messages of the bytes that arrived. */
  ghost predicate ArrivedInv(s: Server.Stream, got: Bytes) {
    var limit := s.input.decoder.limit;
    && (s.phase.Idle? ==> got == [])
    && (!s.phase.Idle? && !s.input.requestDone ==> ParsedInv(s, limit, got))
    && s.arrived <= Parse(limit, got).messages
    && (!s.phase.Idle? && Parse(limit, got).error.Some? ==> s.output.responded)
  }

  ghost predicate ServerInv(w: World) {
    && ServerWire.WireInv(w.server) && ReadInv(w.server) && GapInv(w.server, w.discards) && ArrivedInv(w.server, w.got)
  }

  ghost predicate Inv(w: World) {
    ClientInv(w) && ServerInv(w)
  }

  predicate SameInput(s: Server.Stream, t: Server.Stream) {
    && t.input.decoder == s.input.decoder && t.input.requestDone == s.input.requestDone && t.arrived == s.arrived
    && (t.phase.Idle? <==> s.phase.Idle?) && (s.output.responded ==> t.output.responded)
  }

  lemma WriteArrived(s: Server.Stream, p: Bytes)
    ensures SameInput(s, Server.WriteMessage(s, p))
  {
    hide Frame;
  }

  lemma RespondArrived(s: Server.Stream, code: int, p: Bytes)
    ensures SameInput(s, Server.Respond(s, code, p)) && SameInput(s, Server.PumpOut(s))
  {
    hide Frame;
  }

  lemma FinishArrived(s: Server.Stream, code: int)
    ensures SameInput(s, Server.FinishStream(s, code)) && SameInput(s, Server.MaybeSendDeferredFinish(s))
    ensures SameInput(s, Server.DeadlineResponds(s))
  {
  }

  lemma QuietArrived(s: Server.Stream, step: Server.Step)
    requires !step.HeadersStep? && !step.ChunkStep? && !step.TakeStep? && !step.EndStep?
    ensures SameInput(s, Server.Apply(s, step))
  {
    hide Server.WriteMessage, Server.OnHeaders, Server.OnChunk, Server.TakeRequest, Server.FinishRequest,
      Server.Respond, Server.PumpOut, Server.FinishStream, Server.MaybeSendDeferredFinish, Server.DeadlineResponds;
    match step
    case WriteStep(p) => WriteArrived(s, p);
    case RespondStep(code, p) => RespondArrived(s, code, p);
    case PumpStep => RespondArrived(s, OK, []);
    case FinishStep(code) => FinishArrived(s, code);
    case DeferredStep => FinishArrived(s, OK);
    case DeadlineRespondStep => FinishArrived(s, OK);
    case _ =>
  }

  lemma OpensArrived(ok: bool, route: Option<Server.Form>, limit: nat, ms: nat)
    ensures ArrivedInv(Server.OnHeaders(Server.Init(), ok, route, limit, ms), [])
  {
  }

  lemma DeliverFrame(s: Server.Stream, m: Bytes)
    ensures var t := Server.DeliverRead(s, m);
            && t.input.decoder == s.input.decoder && t.input.requestDone == s.input.requestDone
            && t.phase == s.phase && (s.output.responded ==> t.output.responded) && t.arrived == s.arrived
  {
  }

  lemma TakeFrame(s: Server.Stream)
    requires s.input.decoder.messages != []
    ensures var t := Server.TakeRequest(s);
            && t.input.decoder.limit == s.input.decoder.limit && t.input.requestDone == s.input.requestDone
            && t.phase == s.phase && (s.output.responded ==> t.output.responded) && s.arrived <= t.arrived
            && (s.input.requestDone ==> t == s)
  {
    var m := s.input.decoder.messages[0];
    DeliverFrame(Server.Take(s).(arrived := s.arrived + [m]), m);
    hide Server.DeliverRead;
  }

  lemma TakeArrived(s: Server.Stream, got: Bytes)
    requires ArrivedInv(s, got) && !s.phase.Idle? && s.input.decoder.messages != []
    ensures ArrivedInv(Server.TakeRequest(s), got)
  {
    hide Parse;
    TakeFrame(s);
    if !s.input.requestDone { TakeParsed(s, s.input.decoder.limit, got); }
    hide Server.TakeRequest, Decoder.Residue;
  }

  lemma EndArrived(s: Server.Stream, got: Bytes)
    requires ArrivedInv(s, got) && (s.info.form.Unary? || s.input.decoder.messages == [])
    ensures ArrivedInv(Server.FinishRequest(s), got)
  {
    hide Parse;
    EndFrame(s);
    hide Server.FinishRequest, Decoder.Residue;
  }

  predicate EndedInput(s: Server.Stream, t: Server.Stream) {
    && t.phase == s.phase && t.arrived == s.arrived && (s.output.responded ==> t.output.responded)
    && t.input.decoder.limit == s.input.decoder.limit
  }

  lemma HalfCloseFrame(s: Server.Stream)
    requires s.input.decoder.messages == [] && s.input.requestDone
    ensures EndedInput(s, Server.HalfClose(s)) && Server.HalfClose(s).input.requestDone
  {
  }

  lemma EndFrame(s: Server.Stream)
    requires s.info.form.Unary? || s.input.decoder.messages == []
    ensures EndedInput(s, Server.FinishRequest(s))
    ensures Server.FinishRequest(s) == s || Server.FinishRequest(s).input.requestDone
  {
    if s.input.decoder.messages == [] { HalfCloseFrame(s.(input := s.input.(requestDone := true))); }
    hide Server.HalfClose;
  }

  lemma ChunkArrived(s: Server.Stream, got: Bytes, data: Bytes)
    requires ArrivedInv(s, got) && s.Present() && !s.input.requestDone
    ensures ArrivedInv(Server.OnChunk(s, data), got + data)
  {
    var t, limit := Server.OnChunk(s, data), s.input.decoder.limit;
    ChunkParsed(s, limit, got, data);
    ChunkFrame(s, data);
    hide Server.OnChunk;
    if data == [] {
      assert got + data == got;
    } else {
      FeedExtends(s.input.decoder, got, data);
    }
    hide Parse, Feed, FeedError, Decoder.Residue;
  }

  lemma ChunkFrame(s: Server.Stream, data: Bytes)
    requires s.Present() && !s.input.requestDone
    ensures var t := Server.OnChunk(s, data);
            && t.phase == s.phase && t.arrived == s.arrived && !t.input.requestDone
            && t.input.decoder.limit == s.input.decoder.limit && (s.output.responded ==> t.output.responded)
            && (data == [] ==> t == s)
            && (data != [] && FeedError(s.input.decoder, data).Some? ==> t.output.responded)
  {
    hide Parse, FeedError;
  }

  lemma ServerKeeps(w: World, s: Server.Step, v: World)
    requires ServerInv(w) && v == OnServer(w, s).(got := v.got)
    requires s.ChunkStep? ==> w.server.Present() && !w.server.input.requestDone && v.got == w.got + s.data
    requires !s.ChunkStep? ==> v.got == w.got
    ensures ServerInv(v)
  {
    hide ServerWire.WireInv, ReadInv, GapInv, Discards, ArrivedInv, SameInput, Server.OnHeaders, Server.OnChunk,
      Server.TakeRequest, Server.FinishRequest, Server.ReadMessage, Server.WriteMessage, Server.WriteDone,
      Server.FinishStream, Server.Respond, Server.Consumed, Server.PumpOut, Server.MaybeSendDeferredFinish,
      Server.DeadlineFires, Server.DeadlineResponds, Server.OnStreamClose, Server.FailQueued, Server.FireCancel,
      Server.Erase;
    var a := w.server;
    ServerWire.WireStep(a, s);
    ReadStepKeeps(a, s);
    GapStep(a, w.discards, s);
    IdleServer(a);
    match s
    case ChunkStep(data) => ChunkArrived(a, w.got, data);
    case HeadersStep(ok, route, limit, ms) =>
      if a.phase.Idle? {
        IdleGot(a, w.got);
        OpensArrived(ok, route, limit, ms);
      }
    case TakeStep => if a.input.decoder.messages != [] { IdleIsEmpty(a); TakeArrived(a, w.got); }
    case EndStep => if Server.Enabled(a, s) { EndArrived(a, w.got); }
    case _ =>
      QuietArrived(a, s);
      hide Server.Apply;
      SameArrived(a, Server.Apply(a, s), w.got);
  }

  lemma IdleServer(s: Server.Stream)
    requires ServerWire.WireInv(s)
    ensures s.phase.Idle? ==> s == Server.Init()
  {
  }

  lemma IdleIsEmpty(s: Server.Stream)
    requires s.phase.Idle? ==> s == Server.Init()
    ensures s.input.decoder.messages != [] ==> !s.phase.Idle?
  {
  }

  lemma IdleGot(s: Server.Stream, got: Bytes)
    requires ArrivedInv(s, got) && s.phase.Idle?
    ensures got == []
  {
  }

  lemma SameArrived(s: Server.Stream, t: Server.Stream, got: Bytes)
    requires ArrivedInv(s, got) && SameInput(s, t)
    ensures ArrivedInv(t, got)
  {
    hide Parse, Decoder.Residue;
  }

  // ---- whole runs -----------------------------------------------------------------------------

  lemma StepKeeps(w: World, step: Step)
    requires Inv(w)
    ensures Inv(Apply(w, step))
  {
    hide ServerInv, ChannelInv, Channel.Apply, Server.Apply, RequestBytes, Discards, Frame;
    if Enabled(w, step) {
      var v := Apply(w, step);
      match step
      case SendMessage(m, close) =>
        ChannelKeeps(w, Channel.SendStep(w.id, Frame(m), close), m, v);
        SameServer(w, v);
      case ChannelStep(s) =>
        ChannelKeeps(w, s, [], v);
        SameServer(w, v);
      case DataArrives(n) =>
        var bytes := RequestBytes(Client(w));
        var data := bytes[|w.got|..|w.got| + n];
        assert w.got + data <= bytes;
        ServerKeeps(w, Server.ChunkStep(data), v);
      case EndArrives => ServerKeeps(w, Server.EndStep, v);
      case ServerStep(s) => ServerKeeps(w, s, v);
    }
  }

  lemma SameServer(w: World, v: World)
    requires ServerInv(w) && v.server == w.server && v.got == w.got && v.discards == w.discards
    ensures ServerInv(v)
  {
    hide ServerWire.WireInv, ReadInv, GapInv, ArrivedInv;
  }

  lemma {:induction false} RunKeeps(w: World, steps: seq<Step>)
    requires Inv(w)
    ensures Inv(Run(w, steps))
    decreases |steps|
  {
    hide ServerInv, ChannelInv, Apply, RequestBytes;
    if steps != [] {
      StepKeeps(w, steps[0]);
      RunKeeps(Apply(w, steps[0]), steps[1..]);
    }
  }

  /** A state a channel reaches with the stream open; `taken` are the messages it took so far. */
  ghost predicate Begun(ch: Channel.Channel, limit: nat, before: seq<Channel.Step>, id: nat, taken: seq<Bytes>) {
    && ch == Channel.Run(Channel.Init(limit), before)
    && Channel.Known(ch.streams, id) && Flatten(Channel.ViewOf(ch.streams, id).sending.accepted) == Frames(taken)
  }

  function Start(ch: Channel.Channel, id: nat, taken: seq<Bytes>): World {
    World(ch, id, taken, [], Server.Init(), 0)
  }

  lemma BegunKeeps(ch: Channel.Channel, limit: nat, before: seq<Channel.Step>, id: nat, taken: seq<Bytes>)
    requires Begun(ch, limit, before, id, taken)
    ensures Inv(Start(ch, id, taken))
  {
    hide Channel.Run, ChannelInv, Flatten, RequestBytes;
    RunOk(limit, before);
    ServerStarts();
    hide ServerWire.WireInv, ReadInv;
  }

  lemma ServerStarts()
    ensures ServerWire.WireInv(Server.Init()) && ReadInv(Server.Init()) && GapInv(Server.Init(), 0)
    ensures ArrivedInv(Server.Init(), [])
  {
    ServerWire.WireRun(Server.Init(), []);
  }

  /** What arrived at the server is a prefix of what the stream took. */
  lemma ArrivedIsPrefix(w: World)
    requires Inv(w) && EndToEnd.Sayable(w.payloads)
    ensures Parse(w.server.input.decoder.limit, w.got).messages <= w.payloads
    ensures w.server.arrived <= w.payloads
  {
    hide ServerWire.WireInv, ReadInv, GapInv, ChannelInv, RequestBytes, Flatten, SentInv;
    var limit := w.server.input.decoder.limit;
    SentOk(w);
    BytesAreTaken(Client(w));
    CutParsesPrefix(limit, w.payloads, |w.got|);
    assert w.got == Frames(w.payloads)[..|w.got|];
  }

  lemma SentOk(w: World)
    requires ClientInv(w)
    ensures SentInv(Client(w))
  {
    hide StreamOk, PastOk, ParkedOk, RequestBytes, Flatten, SentInv;
    OkMeans(Channel.ViewOf(w.channel.streams, w.id));
  }

  /**
   In every run, with every other call and stream of the channel and however the DATA is cut, the
   messages the handler was given, and then the unread ones, are the first of those the stream took,
   in order, unless the read side has discarded one; which it has not as long as it is open and the
   call has not been responded to.
   */
  lemma RequestInOrder(ch: Channel.Channel, limit: nat, before: seq<Channel.Step>, id: nat, taken: seq<Bytes>,
      steps: seq<Step>)
    requires Begun(ch, limit, before, id, taken)
    requires EndToEnd.Sayable(Run(Start(ch, id, taken), steps).payloads)
    ensures var w := Run(Start(ch, id, taken), steps);
            && (w.discards == 0 ==> Kept(w.server) <= w.payloads && Delivered(w.server.readLog) <= w.payloads)
            && (w.server.Present() && !w.server.input.finished && !w.server.output.responded ==> w.discards == 0)
  {
    BegunKeeps(ch, limit, before, id, taken);
    hide Begun, Start, Run, Delivered, ChannelInv, ServerWire.WireInv, ArrivedInv, RequestBytes, Flatten, Frames;
    RunKeeps(Start(ch, id, taken), steps);
    var w := Run(Start(ch, id, taken), steps);
    ArrivedIsPrefix(w);
    KeptIsPrefix(w);
  }

  lemma KeptIsPrefix(w: World)
    requires ReadInv(w.server) && GapInv(w.server, w.discards) && w.server.arrived <= w.payloads
    ensures w.discards == 0 ==> Kept(w.server) <= w.payloads && Delivered(w.server.readLog) <= w.payloads
    ensures w.server.Present() && !w.server.input.finished && !w.server.output.responded ==> w.discards == 0
  {
    hide Delivered, ShapeInv, EosInv;
    assert Delivered(w.server.readLog) <= Kept(w.server);
  }

  /** All of the stream's messages fit the server's limit. */
  predicate Fits(w: World) {
    forall m :: m in w.payloads ==> |m| <= w.server.input.decoder.limit
  }

  /** At the end of the request, everything that was taken has arrived. */
  lemma EndHasAll(w: World)
    requires Inv(w) && EndToEnd.Sayable(w.payloads) && Enabled(w, EndArrives) && !Client(w).late
    requires !w.server.phase.Idle? && !w.server.input.requestDone && !w.server.info.form.Unary?
    ensures w.server.arrived == w.payloads <==> Fits(w)
    ensures w.server.arrived <= w.payloads
    ensures !w.server.output.responded ==> Fits(w)
  {
    hide ServerWire.WireInv, ReadInv, GapInv, ChannelInv, RequestBytes, Flatten, Frames, Parse, SentInv;
    ArrivedIsPrefix(w);
    SentOk(w);
    BytesAreTaken(Client(w));
    FramesFit(w.server.input.decoder.limit, w.payloads);
    assert w.server.arrived + [] == w.server.arrived;
  }

  lemma EndsExactly(w: World, after: seq<Server.Step>)
    requires Inv(w) && EndToEnd.Sayable(w.payloads) && Enabled(w, EndArrives) && !Client(w).late
    requires var s := w.server;
             s.Present() && !s.input.requestDone && s.info.dispatched && s.input.armed && !s.input.finished
    ensures var t := Apply(w, EndArrives).server;
            && t.readLog == w.server.readLog + [Server.ReadEvent(OK, true, [])]
            && (Delivered(Server.Run(t, after).readLog) == w.payloads <==> Fits(w) && w.discards == 0)
            && (!w.server.output.responded ==> Delivered(Server.Run(t, after).readLog) == w.payloads)
  {
    hide ChannelInv, ServerWire.WireInv, ReadInv, GapInv, ArrivedInv, RequestBytes, Flatten, Fits, EndToEnd.Sayable,
      Server.FinishRequest, Delivered, Kept, Server.Run, Discards;
    Streaming(w.server);
    EndHasAll(w);
    EndDelivers(w.server, w.discards, after);
    assert Apply(w, EndArrives).server == Server.FinishRequest(w.server);
  }

  /** The handler has then been given what the read side kept: all that arrived, if nothing was discarded. */
  lemma EndDelivers(s: Server.Stream, n: nat, after: seq<Server.Step>)
    requires ServerWire.WireInv(s) && ReadInv(s) && GapInv(s, n) && Server.Enabled(s, Server.EndStep)
    requires s.Present() && !s.input.requestDone && s.info.dispatched && s.input.armed && !s.input.finished
    ensures var t := Server.FinishRequest(s);
            && t.readLog == s.readLog + [Server.ReadEvent(OK, true, [])]
            && Delivered(Server.Run(t, after).readLog) == Kept(s)
            && |Kept(s)| + n == |s.arrived| && (n == 0 ==> Kept(s) == s.arrived)
            && (!s.output.responded ==> n == 0)
  {
    var t, e := Server.FinishRequest(s), Server.ReadEvent(OK, true, []);
    EndTold(s);
    assert ServerWire.WireInv(t) by { ServerWire.FinishRequestKeeps(s); }
    hide ServerWire.WireInv, Server.FinishRequest, Server.Run;
    FinishedRun(t, after);
    DeliveredAppend(s.readLog, e);
    hide Delivered;
    assert Delivered(s.readLog) + [] == Delivered(s.readLog);
  }

  lemma Streaming(s: Server.Stream)
    requires ServerWire.WireInv(s) && s.info.dispatched
    ensures !s.info.form.Unary? && s.info.hasHandler
  {
  }

  lemma EndTold(s: Server.Stream)
    requires ServerWire.WireInv(s) && s.Present() && !s.input.requestDone && s.info.dispatched && s.input.armed
    requires !s.input.finished
    ensures var t := Server.FinishRequest(s);
            t.readLog == s.readLog + [Server.ReadEvent(OK, true, [])] && t.input.finished
  {
    Streaming(s);
    hide ServerWire.WireInv;
  }

  /** END_STREAM finds a read waiting, on a stream that took nothing after closing. */
  predicate EndsWaiting(w: World)
    requires Channel.Known(w.channel.streams, w.id)
  {
    var s := w.server;
    && Enabled(w, EndArrives) && !Client(w).late
    && s.Present() && !s.input.requestDone && s.info.dispatched && s.input.armed && !s.input.finished
  }

  /**
   The end of the request, exactly. In every run, when END_STREAM finds a read waiting, on a stream that took
   nothing after closing, the handler is told OK end of stream; it has then been given every message
   the stream took, and always will have been, if and only if each fits the server's limit and none
   was discarded. On a call that has not been responded to, that is always so.
   */
  lemma RequestEndsExactly(ch: Channel.Channel, limit: nat, before: seq<Channel.Step>, id: nat, taken: seq<Bytes>,
      steps: seq<Step>, after: seq<Server.Step>)
    requires Begun(ch, limit, before, id, taken)
    requires var w := Run(Start(ch, id, taken), steps);
             Channel.Known(w.channel.streams, w.id) && EndToEnd.Sayable(w.payloads) && EndsWaiting(w)
    ensures var w := Run(Start(ch, id, taken), steps);
            var t := Apply(w, EndArrives).server;
            && t.readLog == w.server.readLog + [Server.ReadEvent(OK, true, [])]
            && (Delivered(Server.Run(t, after).readLog) == w.payloads <==> Fits(w) && w.discards == 0)
            && (!w.server.output.responded ==> Delivered(Server.Run(t, after).readLog) == w.payloads)
  {
    BegunKeeps(ch, limit, before, id, taken);
    hide Begun, Start, Run, Inv, Apply, Delivered, Server.Run, Fits, EndToEnd.Sayable, RequestBytes;
    RunKeeps(Start(ch, id, taken), steps);
    EndsExactly(Run(Start(ch, id, taken), steps), after);
  }
}
