/** With which status a streaming call ends at the caller, and what ended it: over every run. */
module StreamStatus {
  import opened Codec
  import opened ClientStream
  import opened ClientReader
  import opened EndToEnd
  import Server
  import ServerAnswers
  import ServerCallbacks
  import ServerReads
  import ServerWire

  /** What the client makes of bytes it cannot decode. */
  function Framing(e: Option<FrameError>): Option<int> {
    match e
    case None => None
    case Some(CompressedFlag) => Some(13)
    case Some(OverLimit(_)) => Some(8)
  }

  // ---- one event at the client ----------------------------------------------------------------

  /** The event gave an open stream the status `end`, or none, and completed it exactly if it did. */
  predicate EndsWith(st: Stream, end: Option<int>, t: Stream) {
    && (end.Some? ==> t.completed && t.events == st.events + [Complete(end.value)])
    && (end.None? ==> !t.completed && st.events <= t.events)
  }

  /** A header block with a status ends the stream with that status; one without must be HTTP 200. */
  lemma HeadersEnd(st: Stream, status: Option<int>, http200: bool)
    requires !st.completed
    ensures EndsWith(st, if status.Some? then status else if http200 then None else Some(14),
                     ReceiveHeaders(st, status, http200))
  {
  }

  /** DATA that cannot be decoded ends it; other DATA delivers the messages it completed. */
  lemma DataEnds(st: Stream, data: Bytes)
    requires !st.completed
    ensures var bad := if data == [] then None else FeedError(st.decoder, data);
            var t := ReceiveData(st, data);
            && EndsWith(st, Framing(bad), t)
            && (bad.None? && data != [] ==> t.events == st.events + Messages(Feed(st.decoder, data).messages))
  {
    hide Feed, FeedError, DropQueue;
  }

  // ---- one step of the call -------------------------------------------------------------------

  /** The status that a step gives a call that has none yet. */
  function Gives(w: World, limit: nat, step: Step): Option<int> {
    if w.client.completed || !Enabled(w, step) then None
    else
      match step
      case TrailersArrive => Some(w.server.wire[|w.server.wire| - 1].code)
      case ClientFails(code) => Some(code)
      case DataArrives(n) => Framing(Parse(limit, SentBytes(w.server.wire)[..|w.pipe.got| + n]).error)
      case _ => None
  }

  /** The client decodes all of what arrived, and the reader knows of a completion it has been told of. */
  ghost predicate Aware(w: World, limit: nat) {
    && (!w.client.completed ==> OpenInv(w.client, limit, w.pipe.got))
    && w.pipe.got <= SentBytes(w.server.wire)
    && w.heard <= |w.client.events|
    && (w.heard > 0 && w.client.events[w.heard - 1].Complete? ==>
          w.reader.terminal == Some(w.client.events[w.heard - 1].code))
  }

  lemma DataGives(w: World, limit: nat, n: nat)
    requires Aware(w, limit) && Enabled(w, DataArrives(n)) && !w.client.completed
    ensures var v := Apply(w, DataArrives(n));
            EndsWith(w.client, Gives(w, limit, DataArrives(n)), v.client) && Aware(v, limit)
  {
    hide SentBytes, Parse, ReceiveData, OpenInv;
    var sent, got := SentBytes(w.server.wire), w.pipe.got;
    var data := sent[|got|..|got| + n];
    assert got + data == sent[..|got| + n];
    ChunkEnds(w.client, limit, got, data);
  }

  lemma ChunkEnds(client: Stream, limit: nat, got: Bytes, data: Bytes)
    requires OpenInv(client, limit, got) && !client.completed
    ensures var c := ReceiveData(client, data);
            && EndsWith(client, Framing(Parse(limit, got + data).error), c)
            && (!c.completed ==> OpenInv(c, limit, got + data))
  {
    hide Parse, Feed, FeedError, ReceiveData, Payloads;
    DataEnds(client, data);
    ChunkKeepsOpen(client, limit, got, data);
    FeedAfter(client.decoder, limit, got, data);
    if data == [] { assert got + data == got; }
  }

  lemma ServerAware(w: World, limit: nat, s: Server.Step)
    requires Aware(w, limit) && ServerWire.WireInv(w.server)
    ensures Aware(w.(server := Server.Apply(w.server, s)), limit)
  {
    hide Server.Apply, OpenInv, ServerWire.WireInv;
    ServerGrows(w.server, s);
    SentGrows(w.server.wire, Server.Apply(w.server, s).wire);
  }

  /** Every step ends the call exactly as the table says, and only if the call had no status yet. */
  lemma StepGives(w: World, limit: nat, step: Step)
    requires Aware(w, limit) && ServerWire.WireInv(w.server)
    ensures Aware(Apply(w, step), limit)
    ensures !w.client.completed ==> EndsWith(w.client, Gives(w, limit, step), Apply(w, step).client)
    ensures w.client.completed ==> Apply(w, step).client == w.client
  {
    hide ServerWire.WireInv, SentBytes, Parse, OpenInv, Server.Apply, DropQueue;
    if Enabled(w, step) {
      match step
      case ServerStep(s) => ServerAware(w, limit, s);
      case DataArrives(n) => if !w.client.completed { DataGives(w, limit, n); }
      case _ =>
    }
  }

  // ---- every run ------------------------------------------------------------------------------

  /** The `i`th step gave the call its status. */
  predicate GivenBy(limit: nat, steps: seq<Step>, i: nat, code: int) {
    i < |steps| && Gives(Run(Init(limit), steps[..i]), limit, steps[i]) == Some(code)
  }

  ghost predicate Given(limit: nat, steps: seq<Step>, code: int) {
    exists i: nat :: GivenBy(limit, steps, i, code)
  }

  predicate EndedAs(client: Stream, code: int) {
    client.events != [] && client.events[|client.events| - 1] == Complete(code)
  }

  /** The call has a status exactly if some step gave it that. */
  ghost predicate StatusInv(limit: nat, steps: seq<Step>, w: World) {
    && Aware(w, limit) && Inv(w, limit)
    && (forall code :: w.client.completed && EndedAs(w.client, code) ==> Given(limit, steps, code))
  }

  lemma {:induction false} RunSnoc(w: World, steps: seq<Step>, x: Step)
    ensures Run(w, steps + [x]) == Apply(Run(w, steps), x)
    decreases |steps|
  {
    hide Apply;
    if steps == [] {
      assert [] + [x] == [x] && [x][1..] == [];
      assert Run(w, [x]) == Run(Apply(w, x), []);
    } else {
      assert (steps + [x])[1..] == steps[1..] + [x];
      RunSnoc(Apply(w, steps[0]), steps[1..], x);
    }
  }

  lemma GivenStays(limit: nat, steps: seq<Step>, x: Step, code: int)
    requires Given(limit, steps, code)
    ensures Given(limit, steps + [x], code)
  {
    hide Run;
    var i: nat :| GivenBy(limit, steps, i, code);
    assert (steps + [x])[..i] == steps[..i];
    assert GivenBy(limit, steps + [x], i, code);
  }

  lemma GivenNow(limit: nat, steps: seq<Step>, x: Step, code: int)
    requires Gives(Run(Init(limit), steps), limit, x) == Some(code)
    ensures Given(limit, steps + [x], code)
  {
    hide Run;
    assert (steps + [x])[..|steps|] == steps;
    assert GivenBy(limit, steps + [x], |steps|, code);
  }

  lemma StatusStep(limit: nat, steps: seq<Step>, x: Step)
    requires StatusInv(limit, steps, Run(Init(limit), steps))
    ensures StatusInv(limit, steps + [x], Run(Init(limit), steps + [x]))
  {
    hide Apply, Run, Init, Gives, Given, Aware;
    var w := Run(Init(limit), steps);
    RunSnoc(Init(limit), steps, x);
    assert ServerWire.WireInv(w.server);
    StepKeeps(w, limit, x);
    StepGives(w, limit, x);
    hide Inv, ServerWire.WireInv;
    var v := Apply(w, x);
    forall code | v.client.completed && EndedAs(v.client, code) ensures Given(limit, steps + [x], code) {
      if w.client.completed {
        GivenStays(limit, steps, x, code);
      } else {
        GivenNow(limit, steps, x, code);
      }
    }
  }

  lemma {:induction false} StatusRun(limit: nat, steps: seq<Step>)
    ensures StatusInv(limit, steps, Run(Init(limit), steps))
    decreases |steps|
  {
    if steps == [] {
      InitKeeps(limit);
    } else {
      hide StatusInv, Run;
      var front := steps[..|steps| - 1];
      assert steps == front + [steps[|steps| - 1]];
      StatusRun(limit, front);
      StatusStep(limit, front, steps[|steps| - 1]);
    }
  }

  /**
   Every status has its cause. In every run, the status the reader holds, and so the one `Read` fails
   with, was given by a step: by trailers, with the status of the server's terminal; by a failure at
   the client, with that failure's; or by DATA that cannot be decoded.
   */
  lemma StatusHasCause(limit: nat, steps: seq<Step>, code: int)
    requires var r := Run(Init(limit), steps).reader;
             r.terminal == Some(code) || ReadAnswer(r) == Failed(code) || (ReadAnswer(r).EndOfStream? && code == 0)
    ensures Given(limit, steps, code)
  {
    hide Run, Init, Given, Aware;
    StatusRun(limit, steps);
    var w := Run(Init(limit), steps);
    assert ReaderInv(w);
    hide Inv;
  }

  /** Once the caller's callbacks have all run, the reader holds the status that the call was given. */
  lemma StatusReachesReader(limit: nat, steps: seq<Step>)
    ensures var w := Run(Init(limit), steps);
            w.client.completed && w.heard == |w.client.events| ==>
              w.reader.terminal.Some? && Given(limit, steps, w.reader.terminal.value)
  {
    hide Run, Init, Given;
    StatusRun(limit, steps);
    var w := Run(Init(limit), steps);
    assert TraceInv(w.client);
    hide Inv, OpenInv;
  }

  // ---- from the server's handler to the caller's status -----------------------------------------

  /** What the server did in a run. */
  function ServerSteps(steps: seq<Step>): seq<Server.Step> {
    if steps == [] then []
    else
      var x := steps[|steps| - 1];
      ServerSteps(steps[..|steps| - 1]) + if x.ServerStep? then [x.step] else []
  }

  lemma {:induction false} ServerRuns(limit: nat, steps: seq<Step>)
    ensures Run(Init(limit), steps).server == Server.Run(Server.Init(), ServerSteps(steps))
    decreases |steps|
  {
    if steps != [] {
      var front, x := steps[..|steps| - 1], steps[|steps| - 1];
      assert steps == front + [x];
      ServerRuns(limit, front);
      RunSnoc(Init(limit), front, x);
      var before := ServerSteps(front);
      hide Run, Server.Run, Server.Apply, ReceiveData, ReceiveHeaders, SentBytes;
      if x.ServerStep? {
        ServerCallbacks.RunAppend(Server.Init(), before, [x.step]);
        ServerCallbacks.RunCons(Server.Run(Server.Init(), before), x.step, []);
        assert [x.step] + [] == [x.step];
        ServerRunNone(Server.Apply(Server.Run(Server.Init(), before), x.step));
      } else {
        assert before + [] == before;
      }
    }
  }

  lemma ServerRunNone(s: Server.Stream)
    ensures Server.Run(s, []) == s
  {
  }

  /** A status given by trailers is the code of the server's terminal, then and ever after. */
  lemma {:induction false} TrailersStay(w: World, limit: nat, code: int, steps: seq<Step>)
    requires Inv(w, limit) && ServerAnswers.EndedWith(w.server.wire, code)
    ensures ServerAnswers.EndedWith(Run(w, steps).server.wire, code)
    decreases |steps|
  {
    if steps != [] {
      var v := Apply(w, steps[0]);
      StepKeeps(w, limit, steps[0]);
      assert v.server.wire == w.server.wire by {
        if steps[0].ServerStep? {
          ServerGrows(w.server, steps[0].step);
          TerminalIsLast(w.server.wire, v.server.wire);
        }
      }
      hide Apply, Inv;
      TrailersStay(v, limit, code, steps[1..]);
    }
  }

  lemma {:induction false} RunSplit(w: World, a: seq<Step>, b: seq<Step>)
    ensures Run(w, a + b) == Run(Run(w, a), b)
    decreases |a|
  {
    hide Apply;
    if a == [] {
      assert a + b == b;
    } else {
      assert (a + b)[1..] == a[1..] + b;
      RunSplit(Apply(w, a[0]), a[1..], b);
    }
  }

  lemma ByTrailers(w: World, limit: nat, step: Step, code: int)
    requires Gives(w, limit, step) == Some(code) && code != 4 && code != 8 && code != 13 && code != 14
    ensures step.TrailersArrive? && ServerAnswers.EndedWith(w.server.wire, code)
  {
    hide Parse, SentBytes;
  }

  /**
   From handler to caller. In every run, a status other than those the client gives of its own accord
   is the one the response ended with, and the step of the server that settled the call said it: a
   finish with that status, or a request for no method.
   */
  lemma StatusIsTheServers(limit: nat, steps: seq<Step>, code: int)
    requires Run(Init(limit), steps).reader.terminal == Some(code)
    requires code != 4 && code != 8 && code != 13 && code != 14
    ensures ServerAnswers.EndedWith(Run(Init(limit), steps).server.wire, code)
    ensures ServerAnswers.HasCause(ServerSteps(steps), code)
  {
    hide Run, Init, Server.Run, ServerAnswers.HasCause;
    StatusHasCause(limit, steps, code);
    var i: nat :| GivenBy(limit, steps, i, code);
    var w := Run(Init(limit), steps[..i]);
    StatusRun(limit, steps[..i]);
    hide Inv, Aware, Given;
    ByTrailers(w, limit, steps[i], code);
    TrailersStay(w, limit, code, steps[i..]);
    RunSplit(Init(limit), steps[..i], steps[i..]);
    assert steps[..i] + steps[i..] == steps;
    ServerRuns(limit, steps);
    ServerAnswers.EndingHasCause(ServerSteps(steps), code);
  }
}
