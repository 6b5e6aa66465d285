/**
 A response from the server's handler to the caller's `Read`, on a channel that carries any other
 calls and streams besides: the whole client in place of the one stream of `EndToEnd`.
 */
module ChannelEndToEnd {
  import opened Codec
  import opened StatusCodes
  import opened ClientStream
  import opened ClientReader
  import opened ChannelStreams
  import opened ChannelView
  import Channel
  import Server
  import ServerWire
  import EndToEnd

  /** `id` is the call; its stream is in the channel. */
  datatype World = World(
    server: Server.Stream,
    pipe: EndToEnd.Pipe,
    channel: Channel.Channel,
    id: nat,
    reader: Reader,
    heard: nat)

  function Client(w: World): Stream
    requires Channel.Known(w.channel.streams, w.id)
  {
    Channel.ViewOf(w.channel.streams, w.id)
  }

  /** The call alone. */
  function Alone(w: World): EndToEnd.World
    requires Channel.Known(w.channel.streams, w.id)
  {
    EndToEnd.World(w.server, w.pipe, Client(w), w.reader, w.heard)
  }

  /** Either an arrival of the response, a step of the server or the reader, or any step of the channel. */
  datatype Step = CallStep(call: EndToEnd.Step) | ChannelStep(step: Channel.Step)

  predicate Enabled(w: World, step: Step)
    requires Channel.Known(w.channel.streams, w.id)
  {
    match step
    case CallStep(s) =>
      && !s.ClientFails? && EndToEnd.Enabled(Alone(w), s)
      && (s.HeadersArrive? || s.DataArrives? || s.TrailersArrive? ==> w.channel.conn.Ready?)
    case ChannelStep(s) => !((s.HeadersStep? || s.DataStep?) && s.sid == Client(w).sid)
  }

  ghost function Arrive(w: World, event: Channel.Step): World {
    w.(channel := Channel.Apply(w.channel, event))
  }

  ghost function Apply(w: World, step: Step): World
    requires Channel.Known(w.channel.streams, w.id)
  {
    if !Enabled(w, step) then w else
    var wire, sid := w.server.wire, Client(w).sid;
    match step
    case ChannelStep(s) => Arrive(w, s)
    case CallStep(s) =>
      var alone := EndToEnd.Apply(Alone(w), s);
      var v := w.(server := alone.server, pipe := alone.pipe, reader := alone.reader, heard := alone.heard);
      match s
      case HeadersArrive => Arrive(v, Channel.HeadersStep(sid, None, true))
      case DataArrives(n) =>
        Arrive(v, Channel.DataStep(sid, EndToEnd.SentBytes(wire)[|w.pipe.got|..|w.pipe.got| + n]))
      case TrailersArrive => Arrive(v, Channel.HeadersStep(sid, Some(wire[|wire| - 1].code), true))
      case _ => v
  }

  ghost predicate Inv(w: World, limit: nat) {
    ChannelInv(w.channel) && Channel.Known(w.channel.streams, w.id) && EndToEnd.Inv(Alone(w), limit)
  }

  ghost predicate Running(w: World) {
    ChannelInv(w.channel) && Channel.Known(w.channel.streams, w.id)
  }

  lemma RunningStep(w: World, step: Step)
    requires Running(w)
    ensures Running(Apply(w, step)) && Apply(w, step).id == w.id
  {
    hide ChannelInv, EndToEnd.Apply, EndToEnd.Enabled, Channel.Apply, EndToEnd.SentBytes;
    if Enabled(w, step) {
      var event := EventOf(w, step);
      if event.Some? {
        StreamsStep(w.channel, event.value);
        StepView(w.channel, w.id, event.value);
      }
    }
  }

  /** The channel's part of a step. */
  ghost function EventOf(w: World, step: Step): Option<Channel.Step>
    requires Channel.Known(w.channel.streams, w.id) && Enabled(w, step)
  {
    var wire, sid := w.server.wire, Client(w).sid;
    match step
    case ChannelStep(s) => Some(s)
    case CallStep(HeadersArrive) => Some(Channel.HeadersStep(sid, None, true))
    case CallStep(DataArrives(n)) =>
      Some(Channel.DataStep(sid, EndToEnd.SentBytes(wire)[|w.pipe.got|..|w.pipe.got| + n]))
    case CallStep(TrailersArrive) => Some(Channel.HeadersStep(sid, Some(wire[|wire| - 1].code), true))
    case _ => None
  }

  /** A run, as long as the channel knows the stream, which it always does. */
  ghost function Run(w: World, steps: seq<Step>): World
    decreases |steps|
  {
    if steps == [] || !Channel.Known(w.channel.streams, w.id) then w else Run(Apply(w, steps[0]), steps[1..])
  }

  /** A step of the call is the step of the call alone. */
  lemma CallAlone(w: World, s: EndToEnd.Step)
    requires Running(w) && Enabled(w, CallStep(s))
    ensures Running(Apply(w, CallStep(s))) && Alone(Apply(w, CallStep(s))) == EndToEnd.Apply(Alone(w), s)
  {
    hide ChannelInv, Channel.Apply, EndToEnd.SentBytes, ReceiveData, ReceiveHeaders, Server.Apply, Hear, AfterRead,
      ViewStep;
    RunningStep(w, CallStep(s));
    var event := EventOf(w, CallStep(s));
    if event.Some? {
      var st, held := Client(w), Channel.Held(w.channel, w.id);
      StepView(w.channel, w.id, event.value);
      ArrivalView(st, w.id, held, event.value);
    }
  }

  lemma ArrivalView(st: Stream, id: nat, held: bool, s: Channel.Step)
    requires (s.HeadersStep? || s.DataStep?) && s.sid == st.sid
    ensures s.HeadersStep? ==> ViewStep(st, id, held, s) == ReceiveHeaders(st, s.status, s.http200)
    ensures s.DataStep? ==> ViewStep(st, id, held, s) == ReceiveData(st, s.data)
  {
    hide ReceiveData, ReceiveHeaders;
  }

  /** Any other step of the channel leaves the response alone, or fails the call. */
  lemma OthersAlone(st: Stream, id: nat, held: bool, s: Channel.Step)
    requires !((s.HeadersStep? || s.DataStep?) && s.sid == st.sid)
    ensures var t := ViewStep(st, id, held, s);
            || (t.events == st.events && t.completed == st.completed && t.decoder == st.decoder)
            || t == CompleteStream(st, UNAVAILABLE)
            || t == CompleteStream(st.(rstPending := true), DEADLINE_EXCEEDED)
  {
    hide StreamSend, StreamCloseSend, Pump, DropQueue;
  }

  lemma ChannelKeeps(w: World, limit: nat, s: Channel.Step)
    requires Inv(w, limit) && Enabled(w, ChannelStep(s))
    ensures Inv(Apply(w, ChannelStep(s)), limit)
  {
    RunningStep(w, ChannelStep(s));
    StepView(w.channel, w.id, s);
    var st := Client(w);
    OthersAlone(st, w.id, Channel.Held(w.channel, w.id), s);
    var v := Apply(w, ChannelStep(s));
    hide ChannelInv, EndToEnd.Inv, Channel.Apply, ViewStep, CompleteStream;
    var t := Client(v);
    assert Alone(v) == Alone(w).(client := t);
    if t == CompleteStream(st, UNAVAILABLE) {
      EndToEnd.FailKeeps(Alone(w), limit, UNAVAILABLE);
    } else if t == CompleteStream(st.(rstPending := true), DEADLINE_EXCEEDED) {
      EndToEnd.SameKeeps(Alone(w), limit, st.(rstPending := true));
      EndToEnd.FailKeeps(Alone(w).(client := st.(rstPending := true)), limit, DEADLINE_EXCEEDED);
    } else {
      EndToEnd.SameKeeps(Alone(w), limit, t);
    }
  }

  lemma StepKeeps(w: World, limit: nat, step: Step)
    requires Inv(w, limit)
    ensures Inv(Apply(w, step), limit)
  {
    hide ChannelInv, EndToEnd.Inv;
    if Enabled(w, step) {
      match step
      case ChannelStep(s) => ChannelKeeps(w, limit, s);
      case CallStep(s) =>
        CallAlone(w, s);
        hide Apply, EndToEnd.Apply;
        EndToEnd.StepKeeps(Alone(w), limit, s);
    }
  }

  lemma {:induction false} RunKeeps(w: World, limit: nat, steps: seq<Step>)
    requires Inv(w, limit)
    ensures Inv(Run(w, steps), limit)
    decreases |steps|
  {
    hide ChannelInv, EndToEnd.Inv, Apply;
    if steps != [] {
      StepKeeps(w, limit, steps[0]);
      RunKeeps(Apply(w, steps[0]), limit, steps[1..]);
    }
  }

  /** Of the channel's stream nothing has arrived yet. */
  predicate Unanswered(s: Channel.Streams, id: nat, limit: nat) {
    id in s.table && s.table[id].events == [] && !s.table[id].completed && s.table[id].decoder == NewDecoder(limit)
  }

  function Start(ch: Channel.Channel, id: nat): World {
    World(Server.Init(), EndToEnd.Pipe(false, [], false), ch, id, NewReader(), 0)
  }

  lemma StartKeeps(limit: nat, before: seq<Channel.Step>, id: nat)
    requires Unanswered(Channel.Run(Channel.Init(limit), before).streams, id, limit)
    ensures Inv(Start(Channel.Run(Channel.Init(limit), before), id), limit)
  {
    hide Channel.Run, ChannelInv;
    RunOk(limit, before);
    EndToEnd.InitKeeps(limit);
    var w := Start(Channel.Run(Channel.Init(limit), before), id);
    var alone := EndToEnd.Init(limit);
    assert Alone(w) == alone.(client := Client(w));
    hide EndToEnd.Inv;
    EndToEnd.SameKeeps(alone, limit, Client(w));
  }

  /**
   No silent truncation, on a channel. From any state a channel reaches with a stream that has had no
   answer, in every run, with every other call and stream of the channel, every deadline, reset and
   loss, and however the DATA is cut: the payloads that `Read` returned are the first of those the
   server accepted, in order; and an OK end of stream says that they are all of them.
   */
  lemma NoSilentTruncation(limit: nat, before: seq<Channel.Step>, id: nat, steps: seq<Step>)
    requires Unanswered(Channel.Run(Channel.Init(limit), before).streams, id, limit)
    requires EndToEnd.Sayable(Run(Start(Channel.Run(Channel.Init(limit), before), id), steps).server.accepted)
    ensures var w := Run(Start(Channel.Run(Channel.Init(limit), before), id), steps);
            && w.reader.returned + w.reader.messages <= w.server.accepted
            && w.reader.returned <= w.server.accepted
            && (w.reader.terminal == Some(OK) ==> w.reader.returned + w.reader.messages == w.server.accepted)
            && (ReadAnswer(w.reader).EndOfStream? ==> w.reader.returned == w.server.accepted)
            && (ReadAnswer(w.reader).Payload? ==>
                  w.reader.returned + [ReadAnswer(w.reader).payload] <= w.server.accepted)
  {
    StartKeeps(limit, before, id);
    hide Channel.Run, Unanswered, Start, EndToEnd.Inv, ChannelInv, ReadAnswer, Apply;
    var w := Start(Channel.Run(Channel.Init(limit), before), id);
    RunKeeps(w, limit, steps);
    EndToEnd.ReadsAccepted(Alone(Run(w, steps)), limit);
  }
}
