/** What the steps of a channel do to one of its streams: each stream is a machine of its own. */
module ChannelView {
  import opened Codec
  import opened StatusCodes
  import opened ClientStream
  import opened Channel
  import opened ChannelStreams
  import ChannelCalls

  /** The effect of a step on a stream; `held` says that the session has its body in flight. */
  function ViewStep(st: Stream, id: nat, held: bool, step: Step): Stream {
    match step
    case SendStep(i, framed, close) =>
      if i == id && !st.completed then st.(sending := StreamSend(st.sending, framed, close)) else st
    case CloseSendStep(i) => if i == id && !st.completed then st.(sending := StreamCloseSend(st.sending)) else st
    case ConsumedStep(i) =>
      if i == id && held then st.(sending := Consumed(st.sending)) else st
    case PumpStep(i) => if i == id && !st.completed then st.(sending := Pump(st.sending)) else st
    case StreamTimeoutStep(i, _, _) =>
      if i == id && !st.completed && st.timer then CompleteStream(st.(rstPending := true), DEADLINE_EXCEEDED) else st
    case HeadersStep(sid, status, http200) => if sid == st.sid then ReceiveHeaders(st, status, http200) else st
    case DataStep(sid, data) => if sid == st.sid then ReceiveData(st, data) else st
    case ClosedStep(sid, _) => if sid == st.sid then CompleteStream(st, UNAVAILABLE) else st
    case LostStep => CompleteStream(st, UNAVAILABLE)
    case _ => st
  }

  /** The view of stream `id` after the step is the step on its view. */
  predicate Follows(s: Streams, id: nat, held: bool, step: Step, t: Streams)
    requires Known(s, id)
  {
    Known(t, id) && ViewOf(t, id) == ViewStep(ViewOf(s, id), id, held, step)
  }

  /** Where a known stream is: not parked; in the table and indexed unless it has completed. */
  predicate Placed(s: Streams, id: nat) {
    && Known(s, id) && id !in ParkedIds(s.parked) && (id in s.table ==> id !in s.past)
    && (id in s.past ==> s.past[id].completed)
    && (id in s.table ==>
          var st := s.table[id];
          && st.sid != 0 && !st.rstPending
          && (if st.completed then st.sid !in s.bySid else st.sid in s.bySid && s.bySid[st.sid] == id))
  }

  /** An index entry belongs to a stream in the table. */
  predicate Indexed(s: Streams, id: nat, sid: int) {
    sid in s.bySid ==>
      && s.bySid[sid] in s.table && s.table[s.bySid[sid]].sid == sid && !s.table[s.bySid[sid]].completed
      && (s.bySid[sid] != id ==> !(id in s.table && s.table[id].sid == sid))
  }

  lemma KnownIsPlaced(s: Streams, last: nat, id: nat, sid: int)
    requires StreamsInv(s, last) && Known(s, id)
    ensures Placed(s, id) && Indexed(s, id, sid) && id in s.begun
    ensures id in s.table ==> 0 < s.table[id].sid <= last
  {
    hide StreamOk, PastOk, ParkedOk;
    var p: seq<nat> := ParkedIds(s.parked);
    assert multiset(s.begun)[id] == multiset(p)[id] + multiset(s.table.Keys)[id] + multiset(s.past.Keys)[id];
    assert id in p ==> multiset(p)[id] > 0;
    if id in s.past { PastIsCompleted(s.past[id]); }
    if id in s.table { NotResetting(s.table[id]); }
  }

  lemma NotResetting(st: Stream)
    requires StreamOk(st)
    ensures !st.rstPending
  {
  }

  // ---- each kind of step ----------------------------------------------------------------------

  lemma SendView(s: Streams, id: nat, held: bool, i: nat, framed: Bytes, close: bool)
    requires Placed(s, id)
    ensures Follows(s, id, held, SendStep(i, framed, close), SendOn(s, i, framed, close))
    ensures Follows(s, id, held, CloseSendStep(i), CloseSendOn(s, i))
  {
    NotAt(s.parked, id);
    ParkedAtValid(s.parked, i);
    hide ParkedIds, ParkedAt, StreamSend, StreamCloseSend, ParkSend, ParkClose;
  }

  lemma PumpView(s: Streams, id: nat, held: bool, i: nat)
    requires Placed(s, id)
    ensures i != id || held ==> Follows(s, id, held, ConsumedStep(i), BodyConsumed(s, i))
    ensures Follows(s, id, held, PumpStep(i), PumpStream(s, i))
  {
    hide ParkedIds, Pump, Consumed;
  }

  lemma {:induction false} NotAt(parked: seq<PendingStream>, id: nat)
    requires id !in ParkedIds(parked)
    ensures ParkedAt(parked, id).None?
    decreases |parked|
  {
    if parked != [] {
      assert ParkedIds(parked)[0] == parked[0].id;
      assert ParkedIds(parked)[1..] == ParkedIds(parked[1..]);
      NotAt(parked[1..], id);
    }
  }

  lemma EventView(s: Streams, id: nat, held: bool, sid: int, status: Option<int>, http200: bool, data: Bytes)
    requires Placed(s, id) && Indexed(s, id, sid)
    ensures Follows(s, id, held, HeadersStep(sid, status, http200), StreamHeaders(s, sid, status, http200))
    ensures Follows(s, id, held, DataStep(sid, data), StreamData(s, sid, data))
  {
    hide ParkedIds, Feed, FeedError, DropQueue;
  }

  lemma ClosedView(s: Streams, id: nat, held: bool, sid: int, noted: bool)
    requires Placed(s, id) && Indexed(s, id, sid)
    ensures Follows(s, id, held, ClosedStep(sid, noted), DropBody(StreamClosed(s, sid), sid, noted))
  {
    hide ParkedIds, DropQueue;
  }

  lemma TimeoutView(s: Streams, id: nat, held: bool, i: nat, reentrant: bool, noted: bool)
    requires Placed(s, id) && i in s.table && s.table[i].timer && Placed(s, i)
    ensures Follows(s, id, held, StreamTimeoutStep(i, reentrant, noted), TimeoutAndDrop(s, i, reentrant, noted))
  {
    hide ParkedIds, DropQueue;
  }

  lemma LostView(s: Streams, id: nat, held: bool)
    requires Placed(s, id) && s.parked == []
    ensures Follows(s, id, held, LostStep, LoseStreams(s))
  {
    hide ParkedIds, DropQueue;
  }

  lemma OpenView(s: Streams, id: nat, p: PendingStream, sid: int, limit: nat)
    requires Known(s, id) && p.id != id
    ensures var t := OpenStreamNow(s, p, sid, limit); Known(t, id) && ViewOf(t, id) == ViewOf(s, id)
    ensures var t := OpenStreamNow(s, p, sid, limit); id in t.table <==> id in s.table
  {
    hide Pump, Seed, CompleteStream;
  }

  lemma {:induction false} StartView(s: Streams, id: nat, sids: seq<int>, limit: nat)
    requires Known(s, id) && id !in ParkedIds(s.parked) && |sids| == |s.parked|
    ensures var t := StartParked(s, sids, limit); Known(t, id) && ViewOf(t, id) == ViewOf(s, id)
    decreases |s.parked|
  {
    if s.parked != [] {
      var p, t := s.parked[0], s.(parked := s.parked[1..]);
      assert ParkedIds(s.parked)[0] == p.id;
      assert ParkedIds(s.parked)[1..] == ParkedIds(t.parked);
      assert ViewOf(t, id) == ViewOf(s, id);
      OpenView(t, id, p, sids[0], limit);
      OpenLeaves(t, p, sids[0], limit);
      hide OpenStreamNow, ViewOf, Known, ParkedIds;
      StartView(OpenStreamNow(t, p, sids[0], limit), id, sids[1..], limit);
    }
  }

  lemma OtherView(ch: Channel, id: nat, step: Step)
    requires Known(ch.streams, id)
    requires step.CallStep? || step.CancelStep? || step.TimeoutStep? || step.ConnectFailedStep?
    ensures Follows(ch.streams, id, Held(ch, id), step, Apply(ch, step).streams)
  {
    CallStepsLeaveStreams(ch, step);
    hide Apply;
  }

  lemma DisabledView(ch: Channel, id: nat, step: Step)
    requires ConnInv(ch) && Placed(ch.streams, id) && !Enabled(ch, step)
    requires id in ch.streams.table ==> 0 < ch.streams.table[id].sid <= ch.lastSid
    ensures Follows(ch.streams, id, Held(ch, id), step, ch.streams)
  {
    hide ParkedIds, FreshSids, TimerArmed, DropQueue, Feed, FeedError;
  }

  lemma OpenStepView(ch: Channel, id: nat, i: nat, timed: bool, sid: int)
    requires Known(ch.streams, id) && i != id
    ensures Follows(ch.streams, id, Held(ch, id), OpenStep(i, timed, sid), OpenStream(ch, i, timed, sid).streams)
  {
    var s := ch.streams.(begun := ch.streams.begun + {i});
    assert ViewOf(s, id) == ViewOf(ch.streams, id);
    OpenView(s, id, PendingStream(i, timed, NewSending()), sid, ch.limit);
    hide OpenStreamNow, CompleteStream;
  }

  /**
   Every step of a channel acts on each of its streams as if the stream were alone: by its own sends,
   by the events of its own HTTP/2 stream, by its own deadline, and by the loss of the connection.
   */
  lemma StepView(ch: Channel, id: nat, step: Step)
    requires ChannelInv(ch) && Known(ch.streams, id)
    ensures Follows(ch.streams, id, Held(ch, id), step, Apply(ch, step).streams)
  {
    hide StreamsInv, Placed, Indexed, Follows, Known, IssueCall, ResetCall, UnaryTimeout, UnaryHeaders, UnaryData,
      UnaryClosed, LoseCalls, FailPending, StartPending, OpenStream, SendOn, CloseSendOn, StreamTimeout, LoseStreams,
      StartParked, StreamHeaders, StreamData, StreamClosed, BodyConsumed, PumpStream, FreshSids, TimerArmed, ParkedIds;
    var s, held := ch.streams, Held(ch, id);
    var sid := if step.HeadersStep? || step.DataStep? || step.ClosedStep? then step.sid else 0;
    KnownIsPlaced(s, ch.lastSid, id, sid);
    if !Enabled(ch, step) {
      DisabledView(ch, id, step);
    } else {
      match step
      case OpenStep(i, timed, d) => OpenStepView(ch, id, i, timed, d);
      case SendStep(i, framed, close) => SendView(s, id, held, i, framed, close);
      case CloseSendStep(i) => SendView(s, id, held, i, [], false);
      case StreamTimeoutStep(i, r, noted) =>
        InTableIsKnown(s, i);
        KnownIsPlaced(s, ch.lastSid, i, 0);
        TimeoutView(s, id, held, i, r, noted);
      case ConsumedStep(i) => PumpView(s, id, held, i);
      case PumpStep(i) => PumpView(s, id, held, i);
      case ConnectedStep(a, b) => ConnectedView(s, id, held, a, b, ch.limit);
      case HeadersStep(d, status, http200) =>
        EventView(s, id, held, d, status, http200, []);
        if d !in s.bySid { NoEntry(s, id, d, status, http200, []); }
      case DataStep(d, data) =>
        EventView(s, id, held, d, None, true, data);
        if d !in s.bySid { NoEntry(s, id, d, None, true, data); }
      case ClosedStep(d, noted) => ClosedView(s, id, held, d, noted);
      case LostStep => LostView(s, id, held);
      case _ => OtherView(ch, id, step);
    }
  }

  lemma InTableIsKnown(s: Streams, id: nat)
    requires id in s.table
    ensures Known(s, id)
  {
  }

  lemma ConnectedView(s: Streams, id: nat, held: bool, a: seq<int>, b: seq<int>, limit: nat)
    requires Known(s, id) && Placed(s, id) && |b| == |s.parked|
    ensures Follows(s, id, held, ConnectedStep(a, b), StartParked(s, b, limit))
  {
    hide ParkedIds, StartParked;
    StartView(s, id, b, limit);
  }

  lemma NoEntry(s: Streams, id: nat, sid: int, status: Option<int>, http200: bool, data: Bytes)
    requires sid !in s.bySid
    ensures StreamHeaders(s, sid, status, http200) == s && StreamData(s, sid, data) == s
  {
  }
}
