/** What an OK answer to a StreamSend says: over every run of a channel. */
module SendAnswers {
  import opened Codec
  import opened ClientStream
  import opened Channel
  import opened ChannelStreams
  import opened StreamStatus

  /** The send's message was submitted. */
  predicate Submitted(sent: seq<OutMsg>, send: nat) {
    exists i :: 0 <= i < |sent| && sent[i].send == Some(send)
  }

  /** Sends told OK were submitted, unless `excused`; the body in flight was. */
  predicate OkIsTrue(g: Sending, excused: bool) {
    && (forall i :: 0 <= i < |g.flushed| && g.flushed[i].code == 0 ==> Submitted(g.sent, g.flushed[i].send) || excused)
    && (g.body.Some? ==> Submitted(g.sent, g.body.value))
  }

  predicate EndedOk(st: Stream) {
    st.completed && EndedAs(st, 0)
  }

  predicate Truthful(st: Stream) {
    OkIsTrue(st.sending, EndedOk(st))
  }

  predicate AllTruthful(s: Streams) {
    && (forall id :: id in s.table ==> Truthful(s.table[id]))
    && (forall id :: id in s.past ==> Truthful(s.past[id]))
    && (forall i :: 0 <= i < |s.parked| ==> OkIsTrue(s.parked[i].sending, false))
  }

  // ---- one stream -----------------------------------------------------------------------------

  lemma SentMore(a: seq<OutMsg>, b: seq<OutMsg>, send: nat)
    requires a <= b && Submitted(a, send)
    ensures Submitted(b, send)
  {
    var i :| 0 <= i < |a| && a[i].send == Some(send);
    assert b[i] == a[i];
  }

  /** More is submitted and one more callback, or none, is answered. */
  lemma GrowsTrue(g: Sending, h: Sending, excused: bool)
    requires OkIsTrue(g, excused) && g.sent <= h.sent && g.flushed <= h.flushed && |h.flushed| <= |g.flushed| + 1
    requires |h.flushed| > |g.flushed| && h.flushed[|g.flushed|].code == 0 ==>
               g.body == Some(h.flushed[|g.flushed|].send)
    requires h.body == g.body || h.body.None? || Submitted(h.sent, h.body.value)
    ensures OkIsTrue(h, excused)
  {
    if g.body.Some? { SentMore(g.sent, h.sent, g.body.value); }
    forall i | 0 <= i < |h.flushed| && h.flushed[i].code == 0
      ensures Submitted(h.sent, h.flushed[i].send) || excused {
      if i < |g.flushed| {
        assert h.flushed[i] == g.flushed[i];
        if !excused { SentMore(g.sent, h.sent, g.flushed[i].send); }
      }
    }
  }

  lemma PumpTrue(g: Sending, excused: bool)
    requires OkIsTrue(g, excused)
    ensures OkIsTrue(Pump(g), excused)
  {
    var h := Pump(g);
    if h != g && h.body.Some? { assert h.sent[|g.sent|].send == h.body; }
    GrowsTrue(g, h, excused);
  }

  lemma SendTrue(g: Sending, excused: bool, framed: Bytes, close: bool)
    requires OkIsTrue(g, excused)
    ensures OkIsTrue(StreamSend(g, framed, close), excused) && OkIsTrue(ParkSend(g, framed, close), excused)
  {
    GrowsTrue(g, Refuse(g, 13), excused);
    GrowsTrue(g, Refuse(g, 8), excused);
    GrowsTrue(g, Enqueue(g, framed, close), excused);
    hide Pump, OkIsTrue;
    PumpTrue(Enqueue(g, framed, close), excused);
  }

  lemma CloseTrue(g: Sending, excused: bool)
    requires OkIsTrue(g, excused)
    ensures OkIsTrue(StreamCloseSend(g), excused) && OkIsTrue(ParkClose(g), excused) && OkIsTrue(Seed(g), excused)
  {
    GrowsTrue(g, StreamCloseSend(g), excused);
    GrowsTrue(g, ParkClose(g), excused);
    GrowsTrue(g, Seed(g), excused);
  }

  lemma ConsumedTrue(g: Sending, excused: bool)
    requires OkIsTrue(g, excused)
    ensures OkIsTrue(Consumed(g), excused)
  {
    GrowsTrue(g, Consumed(g), excused);
  }

  /** A completion tells the queued sends its own status: OK only if the stream ends OK. */
  lemma {:induction false} AnswersCode(q: seq<OutMsg>, code: int)
    ensures forall i :: 0 <= i < |Answers(q, code)| ==> Answers(q, code)[i].code == code
    decreases |q|
  {
    if q != [] { AnswersCode(q[1..], code); }
  }

  lemma CompleteTrue(st: Stream, code: int)
    requires Truthful(st)
    ensures Truthful(CompleteStream(st, code))
  {
    if !st.completed {
      var g := st.sending;
      AnswersCode(g.queue, code);
      var f := g.flushed + Answers(g.queue, code);
      forall i | 0 <= i < |f| && f[i].code == 0 ensures Submitted(g.sent, f[i].send) || code == 0 {
        if i < |g.flushed| { assert f[i] == g.flushed[i]; }
      }
      hide Submitted, Answers;
    }
  }

  lemma EventTrue(st: Stream, status: Option<int>, http200: bool, data: Bytes)
    requires Truthful(st)
    ensures Truthful(ReceiveHeaders(st, status, http200)) && Truthful(ReceiveData(st, data))
  {
    hide Feed, FeedError, CompleteStream, OkIsTrue, Server.ErrorCode;
    if status.Some? { CompleteTrue(st, status.value); }
    CompleteTrue(st, 14);
    if !st.completed {
      var d, e := Feed(st.decoder, data), FeedError(st.decoder, data);
      if e.Some? { CompleteTrue(st.(decoder := d), Server.ErrorCode(e.value)); }
    }
  }

  // ---- the table of streams -------------------------------------------------------------------

  lemma PutTrue(s: Streams, id: nat, st: Stream)
    requires AllTruthful(s) && Truthful(st)
    ensures AllTruthful(Put(s, id, st))
  {
    hide Truthful, OkIsTrue;
  }

  lemma HeadersTrue(s: Streams, sid: int, status: Option<int>, http200: bool, data: Bytes)
    requires AllTruthful(s)
    ensures AllTruthful(StreamHeaders(s, sid, status, http200)) && AllTruthful(StreamData(s, sid, data))
  {
    hide Truthful, OkIsTrue, ReceiveHeaders, ReceiveData, Put;
    if sid in s.bySid && s.bySid[sid] in s.table {
      var id := s.bySid[sid];
      EventTrue(s.table[id], status, http200, data);
      PutTrue(s, id, ReceiveHeaders(s.table[id], status, http200));
      PutTrue(s, id, ReceiveData(s.table[id], data));
    }
  }

  lemma ClosedTrue(s: Streams, sid: int)
    requires AllTruthful(s)
    ensures AllTruthful(StreamClosed(s, sid))
  {
    hide Truthful, OkIsTrue, CompleteStream, Put;
    if sid in s.bySid && s.bySid[sid] in s.table {
      var id := s.bySid[sid];
      CompleteTrue(s.table[id], 14);
      PutTrue(s, id, CompleteStream(s.table[id], 14));
    }
  }

  lemma ResetTrue(st: Stream)
    requires Truthful(st)
    ensures Truthful(st.(rstPending := true))
  {
  }

  lemma TimeoutTrue(s: Streams, id: nat, r: bool, noted: bool)
    requires AllTruthful(s)
    ensures AllTruthful(TimeoutAndDrop(s, id, r, noted))
  {
    hide Truthful, OkIsTrue, CompleteStream, StreamClosed;
    if id in s.table && !s.table[id].completed {
      var st := s.table[id].(rstPending := true);
      var a := s.(table := s.table[id := st]);
      ResetTrue(s.table[id]);
      ClosedTrue(a, st.sid);
      var b := if st.sid != 0 && r then StreamClosed(a, st.sid) else a;
      if id in b.table { CompleteTrue(b.table[id], 4); }
    }
  }

  lemma SendOnTrue(s: Streams, id: nat, framed: Bytes, close: bool)
    requires AllTruthful(s)
    ensures AllTruthful(SendOn(s, id, framed, close)) && AllTruthful(CloseSendOn(s, id))
  {
    hide OkIsTrue, StreamSend, StreamCloseSend, ParkSend, ParkClose, ParkedAt;
    ParkedAtValid(s.parked, id);
    var k := ParkedAt(s.parked, id);
    if Live(s, id) {
      SendTrue(s.table[id].sending, EndedOk(s.table[id]), framed, close);
      CloseTrue(s.table[id].sending, EndedOk(s.table[id]));
    } else if k.Some? {
      SendTrue(s.parked[k.value].sending, false, framed, close);
      CloseTrue(s.parked[k.value].sending, false);
    }
  }

  lemma PumpStreamTrue(s: Streams, id: nat)
    requires AllTruthful(s)
    ensures AllTruthful(PumpStream(s, id)) && AllTruthful(BodyConsumed(s, id))
  {
    hide OkIsTrue, Pump, Consumed;
    if id in s.table {
      PumpTrue(s.table[id].sending, EndedOk(s.table[id]));
      ConsumedTrue(s.table[id].sending, EndedOk(s.table[id]));
    } else if id in s.past {
      ConsumedTrue(s.past[id].sending, EndedOk(s.past[id]));
    }
  }

  lemma OpenNowTrue(s: Streams, p: PendingStream, sid: int, limit: nat)
    requires AllTruthful(s) && OkIsTrue(p.sending, false)
    ensures AllTruthful(OpenStreamNow(s, p, sid, limit))
  {
    hide OkIsTrue, Pump, Seed, CompleteStream;
    CompleteTrue(NewStream(p.sending, limit), 14);
    CloseTrue(p.sending, false);
    PumpTrue(Seed(p.sending), false);
  }

  lemma {:induction false} StartTrue(s: Streams, sids: seq<int>, limit: nat)
    requires AllTruthful(s) && |sids| == |s.parked|
    ensures AllTruthful(StartParked(s, sids, limit))
    decreases |s.parked|
  {
    if s.parked != [] {
      var t := s.(parked := s.parked[1..]);
      assert AllTruthful(t);
      OpenNowTrue(t, s.parked[0], sids[0], limit);
      hide AllTruthful, OpenStreamNow;
      OpenLeavesParked(t, s.parked[0], sids[0], limit);
      StartTrue(OpenStreamNow(t, s.parked[0], sids[0], limit), sids[1..], limit);
    }
  }

  lemma OpenLeavesParked(s: Streams, p: PendingStream, sid: int, limit: nat)
    ensures OpenStreamNow(s, p, sid, limit).parked == s.parked
  {
    hide Pump, Seed, CompleteStream;
  }

  lemma ShellTrue(limit: nat)
    ensures Truthful(CompleteStream(NewStream(NewSending(), limit), 14)) && OkIsTrue(NewSending(), false)
  {
    CompleteTrue(NewStream(NewSending(), limit), 14);
  }

  lemma {:induction false} LoseParkedTrue(s: Streams)
    requires AllTruthful(s)
    ensures AllTruthful(LoseParked(s))
    decreases |s.parked|
  {
    if s.parked != [] {
      ShellTrue(0);
      hide Truthful, OkIsTrue, CompleteStream;
      var end := CompleteStream(NewStream(NewSending(), 0), 14);
      LoseParkedTrue(s.(parked := s.parked[1..], past := s.past[s.parked[0].id := end]));
    }
  }

  lemma LoseTrue(s: Streams)
    requires AllTruthful(s)
    ensures AllTruthful(LoseStreams(s))
  {
    hide Truthful, OkIsTrue, CompleteStream, LoseParked;
    forall id | id in s.table ensures Truthful(CompleteStream(s.table[id], 14)) { CompleteTrue(s.table[id], 14); }
    var failed := map id | id in s.table :: CompleteStream(s.table[id], 14);
    LoseParkedTrue(s.(table := map[], bySid := map[], past := s.past + failed));
  }

  lemma OpenTrue(ch: Channel, id: nat, timed: bool, sid: int)
    requires AllTruthful(ch.streams)
    ensures AllTruthful(OpenStream(ch, id, timed, sid).streams)
  {
    ShellTrue(ch.limit);
    hide Truthful, OkIsTrue, CompleteStream, OpenStreamNow;
    var s := ch.streams.(begun := ch.streams.begun + {id});
    OpenNowTrue(s, PendingStream(id, timed, NewSending()), sid, ch.limit);
  }

  lemma StepTrue(ch: Channel, step: Step)
    requires AllTruthful(ch.streams)
    ensures AllTruthful(Apply(ch, step).streams)
  {
    hide Truthful, OkIsTrue, OpenStream, SendOn, CloseSendOn, BodyConsumed, PumpStream, StartParked, LoseStreams,
      CallNow, ResetCall, UnaryTimeout, UnaryHeaders, UnaryData, UnaryClosed, LoseCalls, FailPending, StartPending,
      StreamHeaders, StreamData, StreamClosed, TimeoutAndDrop, FreshSids;
    var s := ch.streams;
    if Enabled(ch, step) {
      match step
      case OpenStep(id, timed, sid) => OpenTrue(ch, id, timed, sid);
      case SendStep(id, framed, close) => SendOnTrue(s, id, framed, close);
      case CloseSendStep(id) => SendOnTrue(s, id, [], false);
      case ConsumedStep(id) => PumpStreamTrue(s, id);
      case PumpStep(id) => PumpStreamTrue(s, id);
      case StreamTimeoutStep(id, r, noted) => TimeoutTrue(s, id, r, noted);
      case ConnectedStep(a, b) => StartTrue(s, b, ch.limit);
      case HeadersStep(sid, status, http200) => HeadersTrue(s, sid, status, http200, []);
      case DataStep(sid, data) => HeadersTrue(s, sid, None, true, data);
      case ClosedStep(sid, noted) => ClosedTrue(s, sid);
      case LostStep => LoseTrue(s);
      case _ =>
    }
  }

  lemma {:induction false} RunTrue(ch: Channel, steps: seq<Step>)
    requires AllTruthful(ch.streams)
    ensures AllTruthful(Run(ch, steps).streams)
    decreases |steps|
  {
    if steps != [] {
      hide AllTruthful, Apply;
      StepTrue(ch, steps[0]);
      RunTrue(Apply(ch, steps[0]), steps[1..]);
    }
  }

  /**
   In every run of a channel, a StreamSend that is told OK had its message submitted, unless its stream
   ended OK: a message still queued then is dropped, and its callback is told OK like the caller.
   */
  lemma OkMeansSubmitted(limit: nat, steps: seq<Step>, id: nat, i: nat)
    requires Known(Run(Init(limit), steps).streams, id)
    requires var g := ViewOf(Run(Init(limit), steps).streams, id).sending; i < |g.flushed| && g.flushed[i].code == 0
    ensures var st := ViewOf(Run(Init(limit), steps).streams, id);
            Submitted(st.sending.sent, st.sending.flushed[i].send) || EndedOk(st)
  {
    hide Run, Submitted;
    RunTrue(Init(limit), steps);
  }
}
