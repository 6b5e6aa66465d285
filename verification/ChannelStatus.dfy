/** The same on a whole channel: what ends one of its streams, and with which status. */
module ChannelStatus {
  import opened Codec
  import opened ClientStream
  import opened ClientReader
  import opened ChannelStreams
  import opened ChannelView
  import opened StreamStatus
  import Channel
  import EndToEnd
  import ServerWire
  import C = ChannelEndToEnd

  // ---- any step of a channel ------------------------------------------------------------------

  /** The status that a step of a channel gives the open stream `id`. */
  function StepEnds(st: Stream, id: nat, step: Channel.Step): Option<int> {
    match step
    case StreamTimeoutStep(i, _, _) => if i == id && st.timer then Some(4) else None
    case ClosedStep(sid, _) => if sid == st.sid then Some(14) else None
    case LostStep => Some(14)
    case HeadersStep(sid, status, http200) =>
      if sid != st.sid then None
      else if status.Some? then status
      else if http200 then None else Some(14)
    case DataStep(sid, data) =>
      if sid != st.sid || data == [] then None else Framing(FeedError(st.decoder, data))
    case _ => None
  }

  lemma ViewEnds(st: Stream, id: nat, held: bool, step: Channel.Step)
    ensures var t := ViewStep(st, id, held, step);
            && (!st.completed ==> EndsWith(st, StepEnds(st, id, step), t))
            && (st.completed ==> t.completed && t.events == st.events)
  {
    hide StreamSend, StreamCloseSend, Pump, Consumed, DropQueue, ReceiveData, FeedError;
    if step.DataStep? && !st.completed {
      DataEnds(st, step.data);
    } else if step.DataStep? {
      DoneIgnores(st, step.data);
    }
  }

  lemma DoneIgnores(st: Stream, data: Bytes)
    requires st.completed
    ensures ReceiveData(st, data) == st
  {
  }

  /**
   In every reachable channel, every step ends an open stream exactly as the table says: its trailers
   with their status, its deadline as 4, its close and the loss of the connection as 14, DATA that
   cannot be decoded as 13 or 8, and nothing else at all. A stream that has ended hears no more.
   */
  lemma ChannelStepEnds(limit: nat, before: seq<Channel.Step>, id: nat, step: Channel.Step)
    requires Channel.Known(Channel.Run(Channel.Init(limit), before).streams, id)
    ensures var ch := Channel.Run(Channel.Init(limit), before);
            var next := Channel.Apply(ch, step);
            && Channel.Known(next.streams, id)
            && var st, t := Channel.ViewOf(ch.streams, id), Channel.ViewOf(next.streams, id);
               && (!st.completed ==> EndsWith(st, StepEnds(st, id, step), t))
               && (st.completed ==> t.completed && t.events == st.events)
  {
    hide Channel.Run, Channel.Apply, ChannelInv, ViewStep, StepEnds, EndsWith;
    var ch := Channel.Run(Channel.Init(limit), before);
    RunOk(limit, before);
    StepView(ch, id, step);
    ViewEnds(Channel.ViewOf(ch.streams, id), id, Channel.Held(ch, id), step);
  }

  // ---- a response on a channel ----------------------------------------------------------------

  /** The status that a step gives a call that has none yet. */
  ghost function Gives(w: C.World, limit: nat, step: C.Step): Option<int>
    requires Channel.Known(w.channel.streams, w.id)
  {
    if C.Client(w).completed || !C.Enabled(w, step) then None
    else
      match step
      case CallStep(s) => StreamStatus.Gives(C.Alone(w), limit, s)
      case ChannelStep(s) => StepEnds(C.Client(w), w.id, s)
  }

  ghost predicate Aware(w: C.World, limit: nat) {
    C.Inv(w, limit) && StreamStatus.Aware(C.Alone(w), limit)
  }

  lemma OthersAware(w: C.World, limit: nat, s: Channel.Step)
    requires Aware(w, limit) && C.Enabled(w, C.ChannelStep(s))
    ensures var v := C.Apply(w, C.ChannelStep(s));
            && C.Running(v) && StreamStatus.Aware(C.Alone(v), limit)
            && (!C.Client(w).completed ==> EndsWith(C.Client(w), StepEnds(C.Client(w), w.id, s), C.Client(v)))
            && (C.Client(w).completed ==> C.Client(v).completed && C.Client(v).events == C.Client(w).events)
  {
    hide ChannelInv, EndToEnd.Inv, Channel.Apply, ViewStep, StepEnds, EndToEnd.OpenInv, EndToEnd.SentBytes;
    C.RunningStep(w, C.ChannelStep(s));
    StepView(w.channel, w.id, s);
    var st, held := C.Client(w), Channel.Held(w.channel, w.id);
    var v := C.Apply(w, C.ChannelStep(s));
    ViewEnds(st, w.id, held, s);
    C.OthersAlone(st, w.id, held, s);
    if !C.Client(v).completed { SameDecoding(st, C.Client(v), limit, w.pipe.got); }
  }

  lemma SameDecoding(st: Stream, t: Stream, limit: nat, got: Bytes)
    requires EndToEnd.OpenInv(st, limit, got) && t.events == st.events && t.decoder == st.decoder
    ensures EndToEnd.OpenInv(t, limit, got)
  {
  }

  lemma CallAware(w: C.World, limit: nat, s: EndToEnd.Step)
    requires Aware(w, limit) && C.Enabled(w, C.CallStep(s))
    ensures var v := C.Apply(w, C.CallStep(s));
            && C.Running(v) && StreamStatus.Aware(C.Alone(v), limit)
            && (!C.Client(w).completed ==>
                  EndsWith(C.Client(w), StreamStatus.Gives(C.Alone(w), limit, s), C.Client(v)))
            && (C.Client(w).completed ==> C.Client(v) == C.Client(w))
  {
    hide ChannelInv, C.Apply, EndToEnd.Apply, StreamStatus.Gives, StreamStatus.Aware, ServerWire.WireInv;
    C.CallAlone(w, s);
    StreamStatus.StepGives(C.Alone(w), limit, s);
  }

  /** Every step ends the call exactly as the table says, and only if the call had no status yet. */
  lemma StepGives(w: C.World, limit: nat, step: C.Step)
    requires Aware(w, limit)
    ensures var v := C.Apply(w, step);
            && Aware(v, limit)
            && (!C.Client(w).completed ==> EndsWith(C.Client(w), Gives(w, limit, step), C.Client(v)))
            && (C.Client(w).completed ==> C.Client(v).completed && C.Client(v).events == C.Client(w).events)
  {
    hide ChannelInv, EndToEnd.Inv, StreamStatus.Aware, StepEnds, StreamStatus.Gives;
    C.StepKeeps(w, limit, step);
    if C.Enabled(w, step) {
      match step
      case CallStep(s) => CallAware(w, limit, s);
      case ChannelStep(s) => OthersAware(w, limit, s);
    }
  }

  // ---- every run ------------------------------------------------------------------------------

  /** The `i`th step gave the call its status. */
  ghost predicate GivenBy(w: C.World, limit: nat, steps: seq<C.Step>, i: nat, code: int) {
    i < |steps|
    && var v := C.Run(w, steps[..i]);
       Channel.Known(v.channel.streams, v.id) && Gives(v, limit, steps[i]) == Some(code)
  }

  ghost predicate Given(w: C.World, limit: nat, steps: seq<C.Step>, code: int) {
    exists i: nat :: GivenBy(w, limit, steps, i, code)
  }

  ghost predicate StatusInv(w: C.World, limit: nat, steps: seq<C.Step>, v: C.World) {
    && Aware(v, limit)
    && (forall code :: C.Client(v).completed && EndedAs(C.Client(v), code) ==> Given(w, limit, steps, code))
  }

  lemma {:induction false} RunSnoc(w: C.World, limit: nat, steps: seq<C.Step>, x: C.Step)
    requires C.Inv(w, limit)
    ensures C.Running(C.Run(w, steps)) && C.Run(w, steps + [x]) == C.Apply(C.Run(w, steps), x)
    decreases |steps|
  {
    hide C.Apply, EndToEnd.Inv, ChannelInv;
    if steps == [] {
      assert [] + [x] == [x] && [x][1..] == [];
      C.StepKeeps(w, limit, x);
      assert C.Run(w, [x]) == C.Run(C.Apply(w, x), []);
    } else {
      C.StepKeeps(w, limit, steps[0]);
      assert (steps + [x])[1..] == steps[1..] + [x];
      RunSnoc(C.Apply(w, steps[0]), limit, steps[1..], x);
    }
  }

  lemma GivenStays(w: C.World, limit: nat, steps: seq<C.Step>, x: C.Step, code: int)
    requires Given(w, limit, steps, code)
    ensures Given(w, limit, steps + [x], code)
  {
    hide C.Run, Gives;
    var i: nat :| GivenBy(w, limit, steps, i, code);
    assert (steps + [x])[..i] == steps[..i];
    assert GivenBy(w, limit, steps + [x], i, code);
  }

  lemma GivenNow(w: C.World, limit: nat, steps: seq<C.Step>, x: C.Step, code: int)
    requires var v := C.Run(w, steps); Channel.Known(v.channel.streams, v.id) && Gives(v, limit, x) == Some(code)
    ensures Given(w, limit, steps + [x], code)
  {
    hide C.Run, Gives;
    assert (steps + [x])[..|steps|] == steps;
    assert GivenBy(w, limit, steps + [x], |steps|, code);
  }

  lemma StatusStep(w: C.World, limit: nat, steps: seq<C.Step>, x: C.Step)
    requires C.Inv(w, limit) && StatusInv(w, limit, steps, C.Run(w, steps))
    ensures StatusInv(w, limit, steps + [x], C.Run(w, steps + [x]))
  {
    hide C.Apply, C.Run, Gives, Given, StreamStatus.Aware, EndToEnd.Inv, ChannelInv;
    var v := C.Run(w, steps);
    RunSnoc(w, limit, steps, x);
    StepGives(v, limit, x);
    var u := C.Apply(v, x);
    forall code | C.Client(u).completed && EndedAs(C.Client(u), code) ensures Given(w, limit, steps + [x], code) {
      if C.Client(v).completed {
        GivenStays(w, limit, steps, x, code);
      } else {
        GivenNow(w, limit, steps, x, code);
      }
    }
  }

  lemma {:induction false} StatusRun(w: C.World, limit: nat, steps: seq<C.Step>)
    requires Aware(w, limit) && !C.Client(w).completed
    ensures StatusInv(w, limit, steps, C.Run(w, steps))
    decreases |steps|
  {
    hide StreamStatus.Aware, EndToEnd.Inv, ChannelInv;
    if steps != [] {
      hide StatusInv, C.Run;
      var front := steps[..|steps| - 1];
      assert steps == front + [steps[|steps| - 1]];
      StatusRun(w, limit, front);
      StatusStep(w, limit, front, steps[|steps| - 1]);
    }
  }

  lemma StartAware(limit: nat, before: seq<Channel.Step>, id: nat)
    requires C.Unanswered(Channel.Run(Channel.Init(limit), before).streams, id, limit)
    ensures var w := C.Start(Channel.Run(Channel.Init(limit), before), id);
            Aware(w, limit) && !C.Client(w).completed
  {
    hide Channel.Run, ChannelInv, EndToEnd.Inv;
    C.StartKeeps(limit, before, id);
  }

  /**
   Every status has its cause, on a channel. From any state a channel reaches with a stream that has
   had no answer, in every run with every other call and stream: the status the reader holds was given
   by the stream's own trailers, with the status of the server's terminal; by its deadline; by its
   close or the loss of the connection; or by DATA that cannot be decoded.
   */
  lemma StatusHasCause(limit: nat, before: seq<Channel.Step>, id: nat, steps: seq<C.Step>, code: int)
    requires C.Unanswered(Channel.Run(Channel.Init(limit), before).streams, id, limit)
    requires var r := C.Run(C.Start(Channel.Run(Channel.Init(limit), before), id), steps).reader;
             r.terminal == Some(code) || ReadAnswer(r) == Failed(code) || (ReadAnswer(r).EndOfStream? && code == 0)
    ensures Given(C.Start(Channel.Run(Channel.Init(limit), before), id), limit, steps, code)
  {
    hide C.Run, C.Start, C.Unanswered, Channel.Run, Given, StreamStatus.Aware, ChannelInv, EndToEnd.Inv, ReadAnswer;
    StartAware(limit, before, id);
    var w := C.Start(Channel.Run(Channel.Init(limit), before), id);
    StatusRun(w, limit, steps);
    ReaderKnows(C.Alone(C.Run(w, steps)), limit, code);
  }

  lemma ReaderKnows(w: EndToEnd.World, limit: nat, code: int)
    requires EndToEnd.Inv(w, limit)
    requires var r := w.reader;
             r.terminal == Some(code) || ReadAnswer(r) == Failed(code) || (ReadAnswer(r).EndOfStream? && code == 0)
    ensures w.client.completed && EndedAs(w.client, code)
  {
    assert EndToEnd.ReaderInv(w);
    hide EndToEnd.Inv;
  }
}
