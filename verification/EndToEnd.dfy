/**
 A response from the server's handler to the caller's `Read`: a server stream, the HTTP/2 pipe that
 carries its submissions in order and cuts its DATA as it likes, a client stream, and a reader.
 */
module EndToEnd {
  import opened Codec
  import opened StatusCodes
  import opened ClientStream
  import opened ClientReader
  import Server
  import ServerWire

  /** How much of the response the client has been given. */
  datatype Pipe = Pipe(headers: bool, got: Bytes, ended: bool)

  datatype World = World(
    server: Server.Stream,
    pipe: Pipe,
    client: Stream,
    reader: Reader,
    heard: nat)         // client events the reader's callbacks have run for

  /** The DATA bytes the server submitted. */
  function SentBytes(wire: seq<Server.Wire>): Bytes {
    Flatten(ServerWire.DataFrames(wire))
  }

  datatype Step =
    | ServerStep(step: Server.Step)
    | HeadersArrive
    | DataArrives(len: nat)
    | TrailersArrive
    | ClientFails(code: int)     // deadline, close or loss at the client
    | CallbackRuns
    | ReadCalled

  predicate Enabled(w: World, step: Step) {
    var wire := w.server.wire;
    match step
    case ServerStep(_) => true
    case HeadersArrive => wire != [] && wire[0].Headers? && !w.pipe.headers
    case DataArrives(n) => w.pipe.headers && !w.pipe.ended && |w.pipe.got| + n <= |SentBytes(wire)|
    case TrailersArrive =>
      wire != [] && ServerWire.Terminal(wire[|wire| - 1]) && !w.pipe.ended && w.pipe.got == SentBytes(wire)
    case ClientFails(code) => code == UNAVAILABLE || code == DEADLINE_EXCEEDED
    case CallbackRuns => w.heard < |w.client.events|
    case ReadCalled => true
  }

  function Apply(w: World, step: Step): World {
    if !Enabled(w, step) then w else
    var wire := w.server.wire;
    match step
    case ServerStep(s) => w.(server := Server.Apply(w.server, s))
    case HeadersArrive => w.(pipe := w.pipe.(headers := true), client := ReceiveHeaders(w.client, None, true))
    case DataArrives(n) =>
      var data := SentBytes(wire)[|w.pipe.got|..|w.pipe.got| + n];
      w.(pipe := w.pipe.(got := w.pipe.got + data), client := ReceiveData(w.client, data))
    case TrailersArrive =>
      w.(pipe := w.pipe.(ended := true), client := ReceiveHeaders(w.client, Some(wire[|wire| - 1].code), true))
    case ClientFails(code) => w.(client := CompleteStream(w.client, code))
    case CallbackRuns => w.(reader := Hear(w.reader, w.client.events[w.heard]), heard := w.heard + 1)
    case ReadCalled => w.(reader := AfterRead(w.reader))
  }

  function Run(w: World, steps: seq<Step>): World
    decreases |steps|
  {
    if steps == [] then w else Run(Apply(w, steps[0]), steps[1..])
  }

  function NewClient(limit: nat): Stream {
    Stream(0, false, NewDecoder(limit), false, false, NewSending(), [])
  }

  function Init(limit: nat): World {
    World(Server.Init(), Pipe(false, [], false), NewClient(limit), NewReader(), 0)
  }

  // ---- what the client holds ------------------------------------------------------------------

  function Payloads(events: seq<Event>): seq<Bytes> {
    if events == [] then []
    else
      var e := events[|events| - 1];
      Payloads(events[..|events| - 1]) + if e.Message? then [e.payload] else []
  }

  lemma PayloadsAppend(events: seq<Event>, e: Event)
    ensures Payloads(events + [e]) == Payloads(events) + if e.Message? then [e.payload] else []
  {
    assert (events + [e])[..|events|] == events;
  }

  lemma MessagesAppend(msgs: seq<Bytes>, m: Bytes)
    ensures Messages(msgs + [m]) == Messages(msgs) + [Message(m)]
  {
  }

  lemma {:induction false} PayloadsMessages(events: seq<Event>, msgs: seq<Bytes>)
    ensures Payloads(events + Messages(msgs)) == Payloads(events) + msgs
  {
    if msgs == [] {
      assert events + Messages(msgs) == events;
    } else {
      hide Payloads, Messages;
      var init, last := msgs[..|msgs| - 1], msgs[|msgs| - 1];
      assert msgs == init + [last];
      PayloadsMessages(events, init);
      MessagesAppend(init, last);
      PayloadsAppend(events + Messages(init), Message(last));
      Assoc(events, Messages(init), [Message(last)]);
      Assoc(Payloads(events), init, [last]);
    }
  }

  lemma {:induction false} PayloadsPrefix(events: seq<Event>, k: nat)
    requires k <= |events|
    ensures Payloads(events[..k]) <= Payloads(events)
  {
    if k < |events| {
      var init := events[..|events| - 1];
      PayloadsPrefix(init, k);
      assert init[..k] == events[..k];
    } else {
      assert events[..k] == events;
    }
  }

  /** Every accepted payload has a length that 32 bits can say. */
  predicate Sayable(msgs: seq<Bytes>) {
    forall m :: m in msgs ==> |m| < TWO_TO_THE_32
  }

  /** While the call is open, the events are exactly the messages of the bytes that arrived. */
  ghost predicate OpenInv(client: Stream, limit: nat, got: Bytes) {
    var p := Parse(limit, got);
    && p.error.None? && Payloads(client.events) == p.messages
    && client.decoder.messages == [] && client.decoder.limit == limit && client.decoder.Residue() == p.rest
  }

  /** The events are a prefix of what was accepted, and an OK completion means all of it. */
  ghost predicate EventsInv(client: Stream, accepted: seq<Bytes>) {
    && Payloads(client.events) <= accepted
    && (EndedOk(client) ==> Payloads(client.events) == accepted)
  }

  ghost predicate PipeInv(w: World) {
    var wire := w.server.wire;
    && w.pipe.got <= SentBytes(wire)
    && (w.pipe.ended ==> wire != [] && ServerWire.Terminal(wire[|wire| - 1]) && w.client.completed)
    && (EndedOk(w.client) ==> ServerWire.OkEnded(wire))
  }

  predicate EndedOk(client: Stream) {
    client.events != [] && client.events[|client.events| - 1] == Complete(OK)
  }

  ghost predicate ClientInv(w: World, limit: nat) {
    && (!w.client.completed ==> OpenInv(w.client, limit, w.pipe.got))
    && EventsInv(w.client, w.server.accepted)
  }

  ghost predicate ReaderInv(w: World) {
    && w.heard <= |w.client.events|
    && w.reader.returned + w.reader.messages == Payloads(w.client.events[..w.heard])
    && (w.reader.terminal.Some? ==> w.heard == |w.client.events| && w.client.completed && w.heard > 0
                                     && w.client.events[w.heard - 1] == Complete(w.reader.terminal.value))
  }

  ghost predicate Inv(w: World, limit: nat) {
    && ServerWire.WireInv(w.server) && TraceInv(w.client) && PipeInv(w) && ReaderInv(w)
    && (Sayable(w.server.accepted) ==> ClientInv(w, limit))
  }

  // ---- the server's side of the pipe ----------------------------------------------------------

  lemma {:induction false} FlattenFrames(msgs: seq<Bytes>)
    ensures Flatten(ServerWire.FrameEach(msgs)) == Frames(msgs)
  {
    hide Frame;
    if msgs != [] {
      FlattenFrames(msgs[1..]);
      assert ServerWire.FrameEach(msgs)[1..] == ServerWire.FrameEach(msgs[1..]);
    }
  }

  lemma {:induction false} FlattenPrefix(a: seq<Bytes>, b: seq<Bytes>)
    requires a <= b
    ensures Flatten(a) <= Flatten(b)
  {
    if a != [] { FlattenPrefix(a[1..], b[1..]); }
  }

  lemma {:induction false} DataFramesPrefix(a: seq<Server.Wire>, b: seq<Server.Wire>)
    requires a <= b
    ensures ServerWire.DataFrames(a) <= ServerWire.DataFrames(b)
    decreases |b|
  {
    if a != b { DataFramesPrefix(a, b[..|b| - 1]); }
  }

  lemma SentGrows(a: seq<Server.Wire>, b: seq<Server.Wire>)
    requires a <= b
    ensures SentBytes(a) <= SentBytes(b)
  {
    DataFramesPrefix(a, b);
    FlattenPrefix(ServerWire.DataFrames(a), ServerWire.DataFrames(b));
  }

  /** The bytes sent are the frames of the first accepted messages. */
  lemma SentIsFrames(s: Server.Stream)
    requires ServerWire.WireInv(s)
    ensures var k := |ServerWire.DataFrames(s.wire)|; k <= |s.accepted| && SentBytes(s.wire) == Frames(s.accepted[..k])
    ensures ServerWire.OkEnded(s.wire) ==> SentBytes(s.wire) == Frames(s.accepted)
  {
    var d := ServerWire.DataFrames(s.wire);
    assert d <= ServerWire.FrameEach(s.accepted);
    assert d == ServerWire.FrameEach(s.accepted[..|d|]);
    FlattenFrames(s.accepted[..|d|]);
    FlattenFrames(s.accepted);
  }

  /** Whatever part of them arrived parses to a prefix of the accepted messages. */
  lemma ArrivedIsPrefix(s: Server.Stream, limit: nat, got: Bytes)
    requires ServerWire.WireInv(s) && Sayable(s.accepted) && got <= SentBytes(s.wire)
    ensures Parse(limit, got).messages <= s.accepted
    ensures ServerWire.OkEnded(s.wire) && got == SentBytes(s.wire) && Parse(limit, got).error.None? ==>
              Parse(limit, got).messages == s.accepted
  {
    SentIsFrames(s);
    hide ServerWire.WireInv;
    var sent := s.accepted[..|ServerWire.DataFrames(s.wire)|];
    CutParsesPrefix(limit, sent, |got|);
    assert got == Frames(sent)[..|got|];
    FramesParsePrefix(limit, s.accepted);
  }

  lemma ServerGrows(s: Server.Stream, step: Server.Step)
    requires ServerWire.WireInv(s)
    ensures s.wire <= Server.Apply(s, step).wire && s.accepted <= Server.Apply(s, step).accepted
  {
    assert s.phase.Idle? ==> s.wire == [] && s.accepted == [];
    WireGrows(s, step);
    AcceptedGrows(s, step);
  }

  lemma WireGrows(s: Server.Stream, step: Server.Step)
    requires s.phase.Idle? ==> s.wire == []
    ensures s.wire <= Server.Apply(s, step).wire
  {
    hide Server.OnHeaders, Server.OnChunk, Server.TakeRequest, Server.FinishRequest, Server.WriteMessage,
      Server.PumpOut, Server.FinishStream, Server.Respond, Server.MaybeSendDeferredFinish, Server.DeadlineResponds;
    match step
    case HeadersStep(ok, route, limit, ms) =>
      if s.phase.Idle? { HeadersWireGrows(s, ok, route, limit, ms); }
    case ChunkStep(data) => ChunkWireGrows(s, data);
    case TakeStep => if s.input.decoder.messages != [] { TakeWireGrows(s); }
    case EndStep => EndWireGrows(s);
    case WriteStep(p) => WriteWireGrows(s, p);
    case PumpStep => WriteWireGrows(s, []);
    case FinishStep(code) => SubmitWireGrows(s, code, []);
    case RespondStep(code, p) => SubmitWireGrows(s, code, p);
    case DeferredStep => SubmitWireGrows(s, OK, []);
    case DeadlineRespondStep => SubmitWireGrows(s, OK, []);
    case _ =>
  }

  lemma HeadersWireGrows(s: Server.Stream, ok: bool, route: Option<Server.Form>, limit: nat, ms: nat)
    requires s.phase.Idle? && s.wire == []
    ensures s.wire <= Server.OnHeaders(s, ok, route, limit, ms).wire
  {
  }

  lemma ChunkWireGrows(s: Server.Stream, data: Bytes)
    ensures s.wire <= Server.OnChunk(s, data).wire
  {
    hide Feed, FeedError;
  }

  lemma SubmitWireGrows(s: Server.Stream, code: int, payload: Bytes)
    ensures s.wire <= Server.FinishStream(s, code).wire && s.wire <= Server.Respond(s, code, payload).wire
    ensures s.wire <= Server.MaybeSendDeferredFinish(s).wire && s.wire <= Server.DeadlineResponds(s).wire
  {
    hide Frame;
  }

  lemma WriteWireGrows(s: Server.Stream, payload: Bytes)
    ensures s.wire <= Server.WriteMessage(s, payload).wire && s.wire <= Server.PumpOut(s).wire
  {
    hide Frame;
  }

  lemma EndWireGrows(s: Server.Stream)
    ensures s.wire <= Server.FinishRequest(s).wire
  {
  }

  lemma TakeWireGrows(s: Server.Stream)
    requires s.input.decoder.messages != []
    ensures s.wire <= Server.TakeRequest(s).wire
  {
  }

  lemma AcceptedGrows(s: Server.Stream, step: Server.Step)
    requires s.phase.Idle? ==> s.accepted == []
    ensures s.accepted <= Server.Apply(s, step).accepted
  {
    hide Feed, FeedError, Frame;
  }

  /** Nothing follows a terminal. */
  lemma TerminalIsLast(a: seq<Server.Wire>, b: seq<Server.Wire>)
    requires a <= b && ServerWire.Grammar(b) && a != [] && ServerWire.Terminal(a[|a| - 1])
    ensures a == b
  {
    assert b[|a| - 1] == a[|a| - 1];
  }

  lemma ServerKeepsPipe(w: World, t: Server.Stream)
    requires PipeInv(w) && ServerWire.Grammar(t.wire) && w.server.wire <= t.wire
    ensures PipeInv(w.(server := t))
  {
    hide ServerWire.Grammar;
    var s := w.server;
    SentGrows(s.wire, t.wire);
    hide SentBytes;
    if s.wire != [] && ServerWire.Terminal(s.wire[|s.wire| - 1]) { TerminalIsLast(s.wire, t.wire); }
  }

  /** Once the response has ended OK, nothing more is accepted. */
  lemma NothingAfterOk(s: Server.Stream, t: Server.Stream)
    requires ServerWire.WireInv(s) && ServerWire.WireInv(t) && s.wire <= t.wire && s.accepted <= t.accepted
    requires ServerWire.OkEnded(s.wire)
    ensures t.accepted == s.accepted
  {
    hide ServerWire.Grammar, ServerWire.FormInv, ServerWire.FlagInv;
    TerminalIsLast(s.wire, t.wire);
    assert |s.accepted| == |ServerWire.DataFrames(s.wire)| == |t.accepted|;
  }

  lemma ServerKeeps(w: World, limit: nat, step: Server.Step)
    requires Inv(w, limit)
    ensures Inv(w.(server := Server.Apply(w.server, step)), limit)
  {
    var s, t := w.server, Server.Apply(w.server, step);
    hide Server.Apply;
    ServerGrows(s, step);
    ServerWire.WireStep(s, step);
    ServerKeepsPipe(w, t);
    if ServerWire.OkEnded(s.wire) {
      hide ServerWire.WireInv;
      NothingAfterOk(s, t);
    }
    hide ServerWire.WireInv, OpenInv, TraceInv, ServerWire.OkEnded;
    assert EndedOk(w.client) ==> t.accepted == s.accepted;
    hide PipeInv, EndedOk;
    assert Sayable(t.accepted) ==> Sayable(s.accepted);
  }

  // ---- the client's side ----------------------------------------------------------------------

  /** A decoder that holds the leftovers of `got` decodes what `data` adds to it. */
  lemma FeedAfter(d: Decoder, limit: nat, got: Bytes, data: Bytes)
    requires d.messages == [] && d.limit == limit && d.Residue() == Parse(limit, got).rest
    ensures var e, p := Feed(d, data), Parse(limit, got + data);
            && FeedError(d, data) == p.error && e.limit == limit && e.Residue() == p.rest
            && Parse(limit, got).messages + e.messages == p.messages
  {
    hide Parse;
    FeedExtends(d, got, data);
    var q := Parse(limit, d.Residue() + data);
    assert [] + q.messages == q.messages;
  }

  /** One more chunk: the decoder and the events stay those of all the bytes. */
  lemma ChunkKeepsOpen(client: Stream, limit: nat, got: Bytes, data: Bytes)
    requires OpenInv(client, limit, got) && !client.completed
    ensures var c := ReceiveData(client, data);
            if c.completed then Payloads(c.events) == Payloads(client.events) && !EndedOk(c)
            else OpenInv(c, limit, got + data)
  {
    hide Parse, Feed, FeedError, Payloads;
    if data == [] {
      assert got + data == got;
    } else {
      var d := client.decoder;
      FeedAfter(d, limit, got, data);
      var e := FeedError(d, data);
      if e.Some? {
        PayloadsAppend(client.events, Complete(Server.ErrorCode(e.value)));
      } else {
        PayloadsMessages(client.events, Feed(d, data).messages);
      }
    }
  }

  /** The client's events grow; the reader has heard the same part of them. */
  lemma HeardKeeps(w: World, v: World)
    requires ReaderInv(w) && TraceInv(w.client)
    requires v.reader == w.reader && v.heard == w.heard && w.client.events <= v.client.events
    requires w.client.completed ==> v.client == w.client
    ensures ReaderInv(v)
  {
    assert v.client.events[..w.heard] == w.client.events[..w.heard];
  }

  lemma DataGrows(client: Stream, data: Bytes)
    ensures var c := ReceiveData(client, data);
            && client.events <= c.events && (client.completed ==> c == client)
            && (TraceInv(client) ==> (!client.completed ==> !EndedOk(c)))
  {
    hide Feed, FeedError;
  }

  lemma DataEvents(w: World, limit: nat, data: Bytes)
    requires ServerWire.WireInv(w.server) && TraceInv(w.client) && ClientInv(w, limit) && Sayable(w.server.accepted)
    requires w.pipe.got + data <= SentBytes(w.server.wire)
    ensures ClientInv(w.(client := ReceiveData(w.client, data), pipe := w.pipe.(got := w.pipe.got + data)), limit)
  {
    hide ServerWire.WireInv, SentBytes, Payloads, ReceiveData;
    var c := ReceiveData(w.client, data);
    DataGrows(w.client, data);
    hide TraceInv;
    if !w.client.completed {
      ChunkKeepsOpen(w.client, limit, w.pipe.got, data);
      ArrivedIsPrefix(w.server, limit, w.pipe.got + data);
      hide Parse;
    }
  }

  lemma DataKeeps(w: World, limit: nat, n: nat)
    requires Inv(w, limit) && Enabled(w, DataArrives(n))
    ensures Inv(Apply(w, DataArrives(n)), limit)
  {
    hide ServerWire.WireInv, TraceInv, ReceiveData, SentBytes, ClientInv;
    var v := Apply(w, DataArrives(n));
    var sent, got := SentBytes(w.server.wire), w.pipe.got;
    var data := sent[|got|..|got| + n];
    assert v.pipe.got == got + data <= sent;
    DataGrows(w.client, data);
    HeardKeeps(w, v);
    ReceiveKeeps(w.client, data, None, true);
    hide ReaderInv;
    if Sayable(w.server.accepted) { DataEvents(w, limit, data); }
  }

  /** Trailers follow all the data: an OK one finds every accepted message delivered. */
  lemma EndHasAll(w: World, limit: nat, code: int)
    requires ServerWire.WireInv(w.server) && ClientInv(w, limit) && Sayable(w.server.accepted) && !w.client.completed
    requires w.pipe.got == SentBytes(w.server.wire) && (code == OK ==> ServerWire.OkEnded(w.server.wire))
    ensures EventsInv(CompleteStream(w.client, code), w.server.accepted)
  {
    ArrivedIsPrefix(w.server, limit, w.pipe.got);
    PayloadsAppend(w.client.events, Complete(code));
    hide ServerWire.WireInv, SentBytes, Parse;
  }

  lemma EndKeeps(w: World, limit: nat)
    requires Inv(w, limit) && Enabled(w, TrailersArrive)
    ensures Inv(Apply(w, TrailersArrive), limit)
  {
    hide ServerWire.WireInv, SentBytes, EventsInv, OpenInv, Payloads, DropQueue, Sayable;
    var v := Apply(w, TrailersArrive);
    var wire := w.server.wire;
    var code := wire[|wire| - 1].code;
    assert v.client == CompleteStream(w.client, code);
    HeardKeeps(w, v);
    CompleteKeeps(w.client, code);
    hide TraceInv, ReaderInv;
    if Sayable(w.server.accepted) && !w.client.completed { EndHasAll(w, limit, code); }
  }

  lemma FailKeeps(w: World, limit: nat, code: int)
    requires Inv(w, limit) && code != OK
    ensures Inv(w.(client := CompleteStream(w.client, code)), limit)
  {
    var v := w.(client := CompleteStream(w.client, code));
    HeardKeeps(w, v);
    CompleteKeeps(w.client, code);
    if !w.client.completed { PayloadsAppend(w.client.events, Complete(code)); }
    hide ServerWire.WireInv, TraceInv, SentBytes, ReaderInv, OpenInv;
  }

  /** What the caller sends, and the stream's timer, are not the response's concern. */
  lemma SameKeeps(w: World, limit: nat, client: Stream)
    requires Inv(w, limit) && client.events == w.client.events && client.completed == w.client.completed
    requires client.decoder == w.client.decoder
    ensures Inv(w.(client := client), limit)
  {
    hide ServerWire.WireInv, Parse, SentBytes, Payloads;
  }

  lemma HearKeeps(w: World)
    requires ReaderInv(w) && TraceInv(w.client) && w.heard < |w.client.events|
    ensures ReaderInv(Apply(w, CallbackRuns))
  {
    hide Payloads;
    var e, k := w.client.events, w.heard;
    PayloadsAppend(e[..k], e[k]);
    assert e[..k + 1] == e[..k] + [e[k]];
  }

  lemma ReadKeeps(w: World)
    requires ReaderInv(w)
    ensures ReaderInv(Apply(w, ReadCalled))
  {
    ReadConserves(w.reader);
  }

  lemma StepKeeps(w: World, limit: nat, step: Step)
    requires Inv(w, limit)
    ensures Inv(Apply(w, step), limit)
  {
    if Enabled(w, step) {
      match step
      case ServerStep(s) => ServerKeeps(w, limit, s);
      case HeadersArrive => assert Apply(w, step) == w.(pipe := w.pipe.(headers := true));
      case DataArrives(n) => DataKeeps(w, limit, n);
      case TrailersArrive => EndKeeps(w, limit);
      case ClientFails(code) => FailKeeps(w, limit, code);
      case CallbackRuns => HearKeeps(w);
      case ReadCalled => ReadKeeps(w);
    }
  }

  lemma {:induction false} RunKeeps(w: World, limit: nat, steps: seq<Step>)
    requires Inv(w, limit)
    ensures Inv(Run(w, steps), limit)
    decreases |steps|
  {
    hide Inv, Apply;
    if steps != [] {
      StepKeeps(w, limit, steps[0]);
      RunKeeps(Apply(w, steps[0]), limit, steps[1..]);
    }
  }

  lemma InitKeeps(limit: nat)
    ensures Inv(Init(limit), limit)
  {
    ServerWire.WireRun(Server.Init(), []);
  }

  /**
   No silent truncation. In every run, however the DATA is cut and whatever fails, the payloads that
   `Read` returned are the first of those the server accepted, in order; and an OK end of stream
   says that they are all of them.
   */
  lemma NoSilentTruncation(limit: nat, steps: seq<Step>)
    requires Sayable(Run(Init(limit), steps).server.accepted)
    ensures var w := Run(Init(limit), steps);
            && w.reader.returned + w.reader.messages <= w.server.accepted
            && w.reader.returned <= w.server.accepted
            && (w.reader.terminal == Some(OK) ==> w.reader.returned + w.reader.messages == w.server.accepted)
            && (ReadAnswer(w.reader).EndOfStream? ==> w.reader.returned == w.server.accepted)
            && (ReadAnswer(w.reader).Payload? ==>
                  w.reader.returned + [ReadAnswer(w.reader).payload] <= w.server.accepted)
  {
    InitKeeps(limit);
    hide Inv, Init, Apply, ReadAnswer;
    RunKeeps(Init(limit), limit, steps);
    ReadsAccepted(Run(Init(limit), steps), limit);
  }

  lemma ReadsAccepted(w: World, limit: nat)
    requires Inv(w, limit) && Sayable(w.server.accepted)
    ensures w.reader.returned + w.reader.messages <= w.server.accepted
    ensures w.reader.returned <= w.server.accepted
    ensures w.reader.terminal == Some(OK) ==> w.reader.returned + w.reader.messages == w.server.accepted
    ensures ReadAnswer(w.reader).EndOfStream? ==> w.reader.returned == w.server.accepted
    ensures ReadAnswer(w.reader).Payload? ==> w.reader.returned + [ReadAnswer(w.reader).payload] <= w.server.accepted
  {
    hide ServerWire.WireInv, TraceInv, OpenInv, PipeInv, Payloads;
    var r := w.reader;
    PayloadsPrefix(w.client.events, w.heard);
    assert r.returned <= r.returned + r.messages;
    if r.terminal.Some? { assert w.client.events[..w.heard] == w.client.events; }
    if r.messages == [] { assert r.returned + r.messages == r.returned; }
  }

  // ---- a whole response -----------------------------------------------------------------------

  function ReceiveAll(st: Stream, chunks: seq<Bytes>): Stream
    decreases |chunks|
  {
    if chunks == [] then st else ReceiveAll(ReceiveData(st, chunks[0]), chunks[1..])
  }

  lemma {:induction false} AllKeepsOpen(st: Stream, limit: nat, got: Bytes, chunks: seq<Bytes>)
    requires OpenInv(st, limit, got) && !st.completed && Parse(limit, got + Flatten(chunks)).error.None?
    ensures var c := ReceiveAll(st, chunks); !c.completed && OpenInv(c, limit, got + Flatten(chunks))
    decreases |chunks|
  {
    if chunks == [] {
      assert got + Flatten(chunks) == got;
    } else {
      var data, rest := chunks[0], Flatten(chunks[1..]);
      var c := ReceiveData(st, data);
      Assoc(got, data, rest);
      ChunkKeepsOpen(st, limit, got, data);
      assert !c.completed by { NoErrorYet(st, limit, got, data, rest); }
      hide OpenInv, ReceiveData;
      AllKeepsOpen(c, limit, got + data, chunks[1..]);
    }
  }

  lemma NoErrorYet(st: Stream, limit: nat, got: Bytes, data: Bytes, rest: Bytes)
    requires OpenInv(st, limit, got) && !st.completed && Parse(limit, got + data + rest).error.None?
    ensures !ReceiveData(st, data).completed
  {
    hide Parse;
    ParseAppend(limit, got, data);
    if Parse(limit, got + data).error.Some? { ErrorIsSticky(limit, got + data, rest); }
  }

  /**
   A response that ended OK and fits the client's limit arrives whole: under every chunking the
   caller sees every accepted message, in order, and then one OK completion.
   */
  lemma WholeResponse(s: Server.Stream, limit: nat, chunks: seq<Bytes>)
    requires ServerWire.WireInv(s) && ServerWire.OkEnded(s.wire)
    requires forall m :: m in s.accepted ==> Encodable(limit, m)
    requires Flatten(chunks) == SentBytes(s.wire)
    ensures var c := ReceiveHeaders(ReceiveAll(ReceiveHeaders(NewClient(limit), None, true), chunks), Some(OK), true);
            Payloads(c.events) == s.accepted && c.completed && EndedOk(c)
  {
    var st := NewClient(limit);
    var c := ReceiveAll(st, chunks);
    SentIsFrames(s);
    FramesRoundTrip(limit, s.accepted);
    assert [] + Flatten(chunks) == Flatten(chunks);
    AllKeepsOpen(st, limit, [], chunks);
    PayloadsAppend(c.events, Complete(OK));
  }
}
