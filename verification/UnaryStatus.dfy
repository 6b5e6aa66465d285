/** With which status and payload a unary call completes at the caller, and what completed it: over every run. */
module UnaryStatus {
  import opened Codec
  import opened ChannelCallView
  import opened UnaryEndToEnd
  import Channel
  import ChannelCalls
  import EndToEnd
  import Server
  import ServerAnswers
  import ServerCallbacks
  import ServerWire
  import StreamStatus

  /** The completion that a step brings a call that has none yet. */
  ghost function Completes(w: World, limit: nat, step: Step): Option<Channel.Done> {
    if Ends(w) != [] || !Enabled(w, step) || w.id !in w.channel.unary.calls then None
    else
      match step
      case TrailersArrive =>
        Some(Channel.Done(w.id, w.server.wire[|w.server.wire| - 1].code, First(Parse(limit, w.got).messages)))
      case DataArrives(n) =>
        Bare(w.id, StreamStatus.Framing(Parse(limit, EndToEnd.SentBytes(w.server.wire)[..|w.got| + n]).error))
      case ChannelStep(s) => Bare(w.id, OwnEnd(w.channel.unary.calls[w.id], w.id, w.sid, s))
      case _ => None
  }

  /** A completion without a payload. */
  function Bare(id: nat, code: Option<int>): Option<Channel.Done> {
    if code.Some? then Some(Channel.Done(id, code.value, [])) else None
  }

  ghost predicate CompletedBy(w: World, done: Option<Channel.Done>, v: World) {
    Ends(v) == Ends(w) + if done.Some? then [done.value] else []
  }

  lemma DataCompletes(w: World, limit: nat, n: nat)
    requires Inv(w, limit) && Ends(w) == [] && Enabled(w, DataArrives(n))
    ensures CompletedBy(w, Completes(w, limit, DataArrives(n)), Apply(w, DataArrives(n)))
  {
    hide ServerWire.WireInv, OneResponse, EndToEnd.SentBytes, Completions, Parse, Feed, FeedError, Channel.Apply,
      ChannelCalls.CallsInv;
    var v, ch := Apply(w, DataArrives(n)), w.channel;
    var sent := EndToEnd.SentBytes(w.server.wire);
    var data := sent[|w.got|..|w.got| + n];
    assert w.got + data == sent[..|w.got| + n];
    AnswerView(ch, w.id, w.sid, None, true, data);
    if data == [] {
      assert w.got + data == w.got;
    } else {
      FeedMore(ch.unary.calls[w.id].decoder, limit, w.got, data);
      var e := FeedError(ch.unary.calls[w.id].decoder, data);
      if e.Some? { EndsAppend(w, v, Channel.Done(w.id, Server.ErrorCode(e.value), [])); }
    }
  }

  lemma TrailersComplete(w: World, limit: nat)
    requires Inv(w, limit) && Ends(w) == [] && Enabled(w, TrailersArrive)
    ensures CompletedBy(w, Completes(w, limit, TrailersArrive), Apply(w, TrailersArrive))
  {
    hide ServerWire.WireInv, OneResponse, EndToEnd.SentBytes, Completions, Parse, Channel.Apply, ChannelCalls.CallsInv;
    var wire := w.server.wire;
    var status := Some(wire[|wire| - 1].code);
    AnswerView(w.channel, w.id, w.sid, status, true, []);
    var payload := First(w.channel.unary.calls[w.id].decoder.messages);
    EndsAppend(w, Apply(w, TrailersArrive), Channel.Done(w.id, status.value, payload));
  }

  lemma OtherCompletes(w: World, limit: nat, step: Step)
    requires Inv(w, limit) && Ends(w) == [] && Enabled(w, step) && (step.ChannelStep? || step.HeadersArrive?)
    ensures CompletedBy(w, Completes(w, limit, step), Apply(w, step))
  {
    hide ServerWire.WireInv, OneResponse, EndToEnd.SentBytes, Completions, Parse, Channel.Apply, ChannelCalls.CallsInv;
    if step.ChannelStep? {
      CallStepView(w.channel, w.id, w.sid, step.step);
    } else {
      AnswerView(w.channel, w.id, w.sid, None, true, []);
    }
  }

  lemma DoneStays(w: World, limit: nat, step: Step)
    requires Inv(w, limit) && Ends(w) != []
    ensures Ends(Apply(w, step)) == Ends(w)
  {
    hide ServerWire.WireInv, OneResponse, EndToEnd.SentBytes, Completions, Parse, Channel.Apply, ChannelCalls.CallsInv,
      Server.Apply;
    var wire := w.server.wire;
    if Enabled(w, step) {
      match step
      case HeadersArrive => CompletedStays(w.channel, w.id, Channel.HeadersStep(w.sid, None, true));
      case DataArrives(n) =>
        CompletedStays(w.channel, w.id, Channel.DataStep(w.sid, EndToEnd.SentBytes(wire)[|w.got|..|w.got| + n]));
      case TrailersArrive =>
        CompletedStays(w.channel, w.id, Channel.HeadersStep(w.sid, Some(wire[|wire| - 1].code), true));
      case ChannelStep(s) => CompletedStays(w.channel, w.id, s);
      case _ =>
    }
  }

  /** Every step completes the call exactly as the table says, and only if it had not completed. */
  lemma StepCompletes(w: World, limit: nat, step: Step)
    requires Inv(w, limit)
    ensures CompletedBy(w, Completes(w, limit, step), Apply(w, step))
  {
    if Ends(w) != [] {
      hide Inv, Apply;
      DoneStays(w, limit, step);
    } else if Enabled(w, step) {
      hide Inv, Server.Apply, Channel.Apply;
      match step
      case ServerStep(_) =>
      case DataArrives(n) => DataCompletes(w, limit, n);
      case TrailersArrive => TrailersComplete(w, limit);
      case _ => OtherCompletes(w, limit, step);
    }
  }

  // ---- every run ------------------------------------------------------------------------------

  /** The `i`th step completed the call. */
  ghost predicate DoneAt(w: World, limit: nat, steps: seq<Step>, i: nat, done: Channel.Done) {
    i < |steps| && Completes(Run(w, steps[..i]), limit, steps[i]) == Some(done)
  }

  ghost predicate HasAuthor(w: World, limit: nat, steps: seq<Step>, done: Channel.Done) {
    exists i: nat :: DoneAt(w, limit, steps, i, done)
  }

  lemma {:induction false} RunSnoc(w: World, steps: seq<Step>, x: Step)
    ensures Run(w, steps + [x]) == Apply(Run(w, steps), x)
    decreases |steps|
  {
    hide Apply;
    if steps == [] {
      assert [] + [x] == [x] && [x][1..] == [];
      assert Run(w, [x]) == Run(Apply(w, x), []);
    } else {
      assert (steps + [x])[1..] == steps[1..] + [x];
      RunSnoc(Apply(w, steps[0]), steps[1..], x);
    }
  }

  lemma AuthorStays(w: World, limit: nat, steps: seq<Step>, x: Step, done: Channel.Done)
    requires HasAuthor(w, limit, steps, done)
    ensures HasAuthor(w, limit, steps + [x], done)
  {
    hide Run, Completes;
    var i: nat :| DoneAt(w, limit, steps, i, done);
    assert (steps + [x])[..i] == steps[..i];
    assert DoneAt(w, limit, steps + [x], i, done);
  }

  lemma AuthorNow(w: World, limit: nat, steps: seq<Step>, x: Step, done: Channel.Done)
    requires Completes(Run(w, steps), limit, x) == Some(done)
    ensures HasAuthor(w, limit, steps + [x], done)
  {
    hide Run, Completes;
    assert (steps + [x])[..|steps|] == steps;
    assert DoneAt(w, limit, steps + [x], |steps|, done);
  }

  /** A completion was brought by one of the run's steps. */
  lemma {:induction false} DoneHasAuthor(w: World, limit: nat, steps: seq<Step>, done: Channel.Done)
    requires Inv(w, limit) && Ends(w) == [] && done in Ends(Run(w, steps))
    ensures HasAuthor(w, limit, steps, done)
    decreases |steps|
  {
    hide Inv, Apply, Completes, Ends, HasAuthor;
    if steps != [] {
      var front, x := steps[..|steps| - 1], steps[|steps| - 1];
      assert steps == front + [x];
      RunSnoc(w, front, x);
      RunKeeps(w, limit, front);
      hide Run;
      var v := Run(w, front);
      StepCompletes(v, limit, x);
      if done in Ends(v) {
        DoneHasAuthor(w, limit, front, done);
        AuthorStays(w, limit, front, x, done);
      } else {
        AuthorNow(w, limit, front, x, done);
      }
    }
  }

  /** A state a channel reaches with the call submitted; the server has seen nothing of it. */
  function Begin(ch: Channel.Channel, id: nat, sid: int): World {
    World(Server.Init(), [], false, ch, id, sid)
  }

  lemma NotDoneYet(ch: Channel.Channel, limit: nat, before: seq<Channel.Step>, id: nat, sid: int)
    requires Asked(ch, limit, before, id, sid)
    ensures Inv(Begin(ch, id, sid), limit) && Ends(Begin(ch, id, sid)) == []
  {
    AskedKeeps(ch, limit, before, id, sid);
    ChannelCalls.UnaryExactlyOnce(limit, before, id);
    CompletionsCount(ch.unary.done, id);
    hide Channel.Run, Completions, Inv;
  }

  /**
   Every completion has its cause. From any state a channel reaches with a unary call submitted, in
   every run with every other call and stream: the call's completion was brought by its trailers, with
   the status of the server's terminal and the first message that arrived; by its deadline as 4; by a
   cancellation, its close or the loss of the connection as 14; or by DATA that cannot be decoded.
   */
  lemma CompletionHasCause(ch: Channel.Channel, limit: nat, before: seq<Channel.Step>, id: nat, sid: int,
      steps: seq<Step>, done: Channel.Done)
    requires Asked(ch, limit, before, id, sid) && done in Ends(Run(Begin(ch, id, sid), steps))
    ensures HasAuthor(Begin(ch, id, sid), limit, steps, done)
  {
    hide Asked, Run, Begin, Ends, Inv, HasAuthor;
    NotDoneYet(ch, limit, before, id, sid);
    DoneHasAuthor(Begin(ch, id, sid), limit, steps, done);
  }

  // ---- from the server's handler to the caller's completion -------------------------------------

  /** What the server did in a run. */
  function ServerSteps(steps: seq<Step>): seq<Server.Step> {
    if steps == [] then []
    else
      var x := steps[|steps| - 1];
      ServerSteps(steps[..|steps| - 1]) + if x.ServerStep? then [x.server] else []
  }

  lemma {:induction false} ServerRuns(w: World, steps: seq<Step>)
    ensures Run(w, steps).server == Server.Run(w.server, ServerSteps(steps))
    decreases |steps|
  {
    if steps != [] {
      var front, x := steps[..|steps| - 1], steps[|steps| - 1];
      assert steps == front + [x];
      ServerRuns(w, front);
      RunSnoc(w, front, x);
      var before := ServerSteps(front);
      hide Run, Server.Run, Server.Apply, Channel.Apply, EndToEnd.SentBytes;
      if x.ServerStep? {
        ServerCallbacks.RunAppend(w.server, before, [x.server]);
        ServerCallbacks.RunCons(Server.Run(w.server, before), x.server, []);
        assert [x.server] + [] == [x.server];
        StreamStatus.ServerRunNone(Server.Apply(Server.Run(w.server, before), x.server));
      } else {
        assert before + [] == before;
      }
    }
  }

  /** The `j`th step is the handler's response, and found the call live and unanswered. */
  predicate Responds(steps: seq<Server.Step>, j: nat, code: int, payload: Bytes) {
    && j < |steps| && steps[j] == Server.RespondStep(code, payload)
    && var s := Server.Run(Server.Init(), steps[..j]);
       s.phase.Live? && s.info.ctx.UnaryCtx? && !s.output.responded
  }

  lemma {:induction false} ServerOnlyGrows(s: Server.Stream, steps: seq<Server.Step>)
    requires ServerWire.WireInv(s)
    ensures var t := Server.Run(s, steps); ServerWire.WireInv(t) && s.wire <= t.wire && s.accepted <= t.accepted
    decreases |steps|
  {
    if steps != [] {
      hide Server.Apply, ServerWire.WireInv;
      EndToEnd.ServerGrows(s, steps[0]);
      ServerWire.WireStep(s, steps[0]);
      ServerOnlyGrows(Server.Apply(s, steps[0]), steps[1..]);
    }
  }

  /** The response is the whole answer, for good. */
  lemma ResponseStands(steps: seq<Server.Step>, j: nat, code: int, payload: Bytes)
    requires Responds(steps, j, code, payload)
    ensures var s := Server.Run(Server.Init(), steps);
            if code == 0 then ServerAnswers.EndedWith(s.wire, 0) && s.accepted == [payload]
            else s.wire == [Server.TrailersOnly(code)]
  {
    var s, rest := Server.Run(Server.Init(), steps[..j]), steps[j + 1..];
    assert steps == steps[..j] + ([steps[j]] + rest);
    ServerCallbacks.RunAppend(Server.Init(), steps[..j], [steps[j]] + rest);
    ServerCallbacks.RunCons(s, steps[j], rest);
    ServerWire.WireRun(Server.Init(), steps[..j]);
    RespondAnswers(s, code, payload);
    hide Server.Run, Server.Apply, ServerWire.WireInv, Frame;
    var t := Server.Apply(s, steps[j]);
    ServerOnlyGrows(t, rest);
    var u := Server.Run(t, rest);
    TerminalStays(t, u);
    if code == 0 { EndToEnd.NothingAfterOk(t, u); }
  }

  lemma TerminalStays(t: Server.Stream, u: Server.Stream)
    requires ServerWire.WireInv(u) && t.wire <= u.wire && t.wire != [] && ServerWire.Terminal(t.wire[|t.wire| - 1])
    ensures u.wire == t.wire
  {
    EndToEnd.TerminalIsLast(t.wire, u.wire);
  }

  lemma RespondAnswers(s: Server.Stream, code: int, payload: Bytes)
    requires ServerWire.WireInv(s) && s.phase.Live? && s.info.ctx.UnaryCtx? && !s.output.responded
    ensures var t := Server.Apply(s, Server.RespondStep(code, payload));
            && ServerWire.WireInv(t)
            && (if code == 0 then t.accepted == [payload] && ServerWire.OkEnded(t.wire)
                else t.wire == [Server.TrailersOnly(code)])
            && ServerAnswers.EndedWith(t.wire, code)
  {
    assert s.accepted == [] && s.wire == [];
    ServerWire.WireStep(s, Server.RespondStep(code, payload));
    hide ServerWire.WireInv, Frame;
  }

  /**
   From handler to caller. If the handler responded before anything else settled the call, then a
   completion that trailers bring carries exactly the status it responded with; with OK, exactly its
   payload too.
   */
  lemma HandlerDecides(ch: Channel.Channel, limit: nat, before: seq<Channel.Step>, id: nat, sid: int,
      steps: seq<Step>, i: nat, done: Channel.Done, j: nat, code: int, payload: Bytes)
    requires Asked(ch, limit, before, id, sid)
    requires DoneAt(Begin(ch, id, sid), limit, steps, i, done) && steps[i].TrailersArrive?
    requires Responds(ServerSteps(steps[..i]), j, code, payload)
    ensures done.code == code
    ensures code == 0 && |payload| < TWO_TO_THE_32 ==> done.payload == payload
    ensures code != 0 ==> done.payload == []
  {
    hide Asked, Run, Begin, Ends, Server.Run, Responds;
    var w := Run(Begin(ch, id, sid), steps[..i]);
    NotDoneYet(ch, limit, before, id, sid);
    RunKeeps(Begin(ch, id, sid), limit, steps[..i]);
    ServerRuns(Begin(ch, id, sid), steps[..i]);
    Begun(ch, id, sid);
    ResponseStands(ServerSteps(steps[..i]), j, code, payload);
    PayloadArrives(w, limit, code, payload);
  }

  lemma Begun(ch: Channel.Channel, id: nat, sid: int)
    ensures Begin(ch, id, sid).server == Server.Init()
  {
  }

  lemma PayloadArrives(w: World, limit: nat, code: int, payload: Bytes)
    requires Inv(w, limit) && Ends(w) == [] && Enabled(w, TrailersArrive)
    requires if code == 0 then ServerAnswers.EndedWith(w.server.wire, 0) && w.server.accepted == [payload]
             else w.server.wire == [Server.TrailersOnly(code)]
    ensures code != 0 ==> First(Parse(limit, w.got).messages) == []
    ensures code == 0 && |payload| < TWO_TO_THE_32 ==> First(Parse(limit, w.got).messages) == payload
  {
    hide ServerWire.WireInv, ChannelCalls.CallsInv, Completions, EndToEnd.SentBytes, Submitted, OneResponse, Parse;
    if code != 0 {
      NoBytes(limit, code);
    } else if |payload| < TWO_TO_THE_32 {
      EndToEnd.ArrivedIsPrefix(w.server, limit, w.got);
    }
  }

  lemma NoBytes(limit: nat, code: int)
    ensures EndToEnd.SentBytes([Server.TrailersOnly(code)]) == [] && Parse(limit, []).messages == []
  {
    var none: seq<Server.Wire> := [];
    ServerWire.DataFramesAppend(none, Server.TrailersOnly(code));
    assert none + [Server.TrailersOnly(code)] == [Server.TrailersOnly(code)];
  }

  /** And whatever settled the call on the server: a completion that trailers bring carries its status. */
  lemma TrailersHaveCause(ch: Channel.Channel, limit: nat, before: seq<Channel.Step>, id: nat, sid: int,
      steps: seq<Step>, i: nat, done: Channel.Done)
    requires Asked(ch, limit, before, id, sid)
    requires DoneAt(Begin(ch, id, sid), limit, steps, i, done) && steps[i].TrailersArrive?
    ensures ServerAnswers.HasCause(ServerSteps(steps[..i]), done.code)
  {
    hide Asked, Run, Begin, Ends, Server.Run, ServerAnswers.HasCause;
    ServerRuns(Begin(ch, id, sid), steps[..i]);
    Begun(ch, id, sid);
    ServerAnswers.EndingHasCause(ServerSteps(steps[..i]), done.code);
  }
}
