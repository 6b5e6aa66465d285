/** Which streams of a channel have a deadline, from the open that asked for one to the end of the stream. */
module StreamDeadlines {
  import opened Codec
  import opened ClientStream
  import opened Channel
  import opened ChannelStreams

  /** Wherever the stream is, waiting or open, its deadline is the one it was opened with. */
  predicate Timed(s: Streams, id: nat, on: bool) {
    && id in s.begun
    && (Live(s, id) ==> s.table[id].timer == on)
    && (forall i :: 0 <= i < |s.parked| && s.parked[i].id == id ==> s.parked[i].timed == on)
  }

  /** Streams leave the table, complete, or keep their timers; nothing changes for those that wait. */
  predicate KeepsTimers(s: Streams, t: Streams, id: nat) {
    && t.parked == s.parked && t.begun == s.begun
    && (Live(t, id) ==> Live(s, id) && t.table[id].timer == s.table[id].timer)
  }

  lemma EventTimers(s: Streams, id: nat, sid: int, status: Option<int>, http200: bool, data: Bytes)
    ensures KeepsTimers(s, StreamHeaders(s, sid, status, http200), id)
    ensures KeepsTimers(s, StreamData(s, sid, data), id)
  {
    hide Feed, FeedError, DropQueue;
  }

  lemma CloseTimers(s: Streams, id: nat, sid: int, noted: bool)
    ensures KeepsTimers(s, StreamClosed(s, sid), id)
    ensures KeepsTimers(s, DropBody(StreamClosed(s, sid), sid, noted), id)
  {
    hide DropQueue;
  }

  lemma TimeoutTimers(s: Streams, id: nat, i: nat, r: bool, noted: bool)
    ensures KeepsTimers(s, TimeoutAndDrop(s, i, r, noted), id)
  {
    hide StreamClosed, CompleteStream;
    if i in s.table {
      var st := s.table[i].(rstPending := true);
      CloseTimers(s.(table := s.table[i := st]), id, st.sid, noted);
    }
  }

  lemma SendTimers(s: Streams, id: nat, on: bool, i: nat, framed: Bytes, close: bool)
    requires Timed(s, id, on)
    ensures Timed(SendOn(s, i, framed, close), id, on) && Timed(CloseSendOn(s, i), id, on)
    ensures Timed(BodyConsumed(s, i), id, on) && Timed(PumpStream(s, i), id, on)
  {
    ParkedAtValid(s.parked, i);
    hide StreamSend, StreamCloseSend, ParkSend, ParkClose, Pump, Consumed, ParkedAt;
  }

  lemma OpenNowTimed(s: Streams, id: nat, on: bool, p: PendingStream, sid: int, limit: nat)
    requires Timed(s, id, on) && (p.id == id ==> p.timed == on)
    ensures Timed(OpenStreamNow(s, p, sid, limit), id, on)
  {
    hide Pump, Seed, CompleteStream;
  }

  lemma {:induction false} StartTimed(s: Streams, id: nat, on: bool, sids: seq<int>, limit: nat)
    requires Timed(s, id, on) && |sids| == |s.parked|
    ensures Timed(StartParked(s, sids, limit), id, on)
    decreases |s.parked|
  {
    if s.parked != [] {
      var t := s.(parked := s.parked[1..]);
      assert Timed(t, id, on);
      OpenNowTimed(t, id, on, s.parked[0], sids[0], limit);
      hide Timed;
      StartTimed(OpenStreamNow(t, s.parked[0], sids[0], limit), id, on, sids[1..], limit);
    }
  }

  lemma {:induction false} LostTimed(s: Streams, id: nat, on: bool)
    requires Timed(s, id, on)
    ensures Timed(LoseParked(s), id, on)
    decreases |s.parked|
  {
    if s.parked != [] {
      var end := CompleteStream(NewStream(NewSending(), 0), 14);
      LostTimed(s.(parked := s.parked[1..], past := s.past[s.parked[0].id := end]), id, on);
    }
  }

  lemma OpenTimed(ch: Channel, id: nat, on: bool, i: nat, timed: bool, sid: int)
    requires Timed(ch.streams.(begun := ch.streams.begun + {i}), id, on) && (i == id ==> timed == on)
    ensures Timed(OpenStream(ch, i, timed, sid).streams, id, on)
  {
    var s := ch.streams.(begun := ch.streams.begun + {i});
    OpenNowTimed(s, id, on, PendingStream(i, timed, NewSending()), sid, ch.limit);
    hide OpenStreamNow, CompleteStream;
  }

  lemma TimedStep(ch: Channel, id: nat, on: bool, step: Step)
    requires Timed(ch.streams, id, on)
    ensures Timed(Apply(ch, step).streams, id, on)
  {
    hide OpenStream, SendOn, CloseSendOn, BodyConsumed, PumpStream, StartParked, LoseParked, CallNow, ResetCall,
      UnaryTimeout, UnaryHeaders, UnaryData, UnaryClosed, LoseCalls, FailPending, StartPending, StreamHeaders,
      StreamData, StreamClosed, TimeoutAndDrop, FreshSids, DropBody;
    var s := ch.streams;
    if Enabled(ch, step) {
      match step
      case OpenStep(i, timed, sid) => OpenTimed(ch, id, on, i, timed, sid);
      case SendStep(i, framed, close) => SendTimers(s, id, on, i, framed, close);
      case CloseSendStep(i) => SendTimers(s, id, on, i, [], false);
      case ConsumedStep(i) => SendTimers(s, id, on, i, [], false);
      case PumpStep(i) => SendTimers(s, id, on, i, [], false);
      case StreamTimeoutStep(i, r, noted) => TimeoutTimers(s, id, i, r, noted);
      case ConnectedStep(a, b) => StartTimed(s, id, on, b, ch.limit);
      case HeadersStep(sid, status, http200) => EventTimers(s, id, sid, status, http200, []);
      case DataStep(sid, data) => EventTimers(s, id, sid, None, true, data);
      case ClosedStep(sid, noted) => CloseTimers(s, id, sid, noted);
      case LostStep => LoseTimed(s, id, on);
      case _ =>
    }
  }

  lemma LoseTimed(s: Streams, id: nat, on: bool)
    requires Timed(s, id, on)
    ensures Timed(LoseStreams(s), id, on)
  {
    hide LoseParked, CompleteStream;
    var failed := map i | i in s.table :: CompleteStream(s.table[i], 14);
    LostTimed(s.(table := map[], bySid := map[], past := s.past + failed), id, on);
  }

  lemma {:induction false} TimedRun(ch: Channel, id: nat, on: bool, steps: seq<Step>)
    requires Timed(ch.streams, id, on)
    ensures Timed(Run(ch, steps).streams, id, on)
    decreases |steps|
  {
    if steps != [] {
      hide Timed, Apply;
      TimedStep(ch, id, on, steps[0]);
      TimedRun(Apply(ch, steps[0]), id, on, steps[1..]);
    }
  }

  lemma NotOpenYet(s: Streams, last: nat, id: nat, on: bool)
    requires StreamsInv(s, last) && id !in s.begun
    ensures Timed(s.(begun := s.begun + {id}), id, on)
  {
    hide ContentInv, IndexInv;
    var p: seq<nat> := ParkedIds(s.parked);
    assert multiset(s.begun)[id] == multiset(p)[id] + multiset(s.table.Keys)[id] + multiset(s.past.Keys)[id];
    forall i | 0 <= i < |s.parked| ensures s.parked[i].id != id {
      assert p[i] == s.parked[i].id && multiset(p)[p[i]] > 0;
    }
  }

  /**
   A stream opened with a timeout has its timer armed as long as it is open, however long it waited for
   the connection, in every run; one opened without never has a deadline.
   */
  lemma StreamTimerExactly(limit: nat, before: seq<Step>, id: nat, timed: bool, sid: int, steps: seq<Step>)
    requires Enabled(Run(Init(limit), before), OpenStep(id, timed, sid))
    ensures var ch := Run(Apply(Run(Init(limit), before), OpenStep(id, timed, sid)), steps);
            Live(ch.streams, id) ==>
              forall reentrant, noted :: Enabled(ch, StreamTimeoutStep(id, reentrant, noted)) <==> timed
  {
    var ch := Run(Init(limit), before);
    RunOk(limit, before);
    NotOpenYet(ch.streams, ch.lastSid, id, timed);
    OpenTimed(ch, id, timed, id, timed, sid);
    var next := Apply(ch, OpenStep(id, timed, sid));
    assert Timed(next.streams, id, timed);
    hide Run, Apply, StreamsInv, ChannelInv;
    TimedRun(next, id, timed, steps);
  }
}
