/**
 The channel's tables, updated in place. Each method is proved to take the step of the channel machine
 that it stands for, so that the channel is always in a state that some run of the machine reaches.
 A completion is recorded where its callback would run; the stream ids a session answers with, and
 whether a reset reports its close from inside, are parameters.
 */
module ChannelImpl {
  import opened Codec
  import opened StatusCodes
  import opened ClientStream
  import opened Channel
  import Server
  import ChannelCalls
  import StreamStatus
  import opened ClientFlushes
  import opened ChannelStreams

  ghost predicate Reaches(limit: nat, steps: seq<Step>, ch: Channel) {
    Run(Init(limit), steps) == ch
  }

  ghost predicate Reachable(ch: Channel) {
    exists limit, steps :: Reaches(limit, steps, ch)
  }

  lemma {:induction false} RunSnoc(ch: Channel, steps: seq<Step>, step: Step)
    ensures Run(ch, steps + [step]) == Apply(Run(ch, steps), step)
    decreases |steps|
  {
    hide Apply;
    if steps == [] {
      assert [] + [step] == [step] && [step][1..] == [];
    } else {
      RunSnoc(Apply(ch, steps[0]), steps[1..], step);
      assert (steps + [step])[1..] == steps[1..] + [step];
    }
  }

  lemma StepReachable(ch: Channel, step: Step)
    requires Reachable(ch)
    ensures Reachable(Apply(ch, step))
  {
    var limit, steps :| Reaches(limit, steps, ch);
    RunSnoc(Init(limit), steps, step);
    hide Apply;
    assert Reaches(limit, steps + [step], Apply(ch, step));
  }

  lemma InitReachable(limit: nat)
    ensures Reachable(Init(limit))
  {
    var none: seq<Step> := [];
    assert Reaches(limit, none, Init(limit));
  }

  lemma AscendingTurn(ids: set<nat>, id: nat)
    requires id in ids && forall j :: j in ids ==> id <= j
    ensures Ascending(ids) == [id] + Ascending(ids - {id})
  {
    hide Least;
    assert Least(ids) == id;
  }

  lemma LostTurn(ids: set<nat>, id: nat)
    requires id in ids && forall j :: j in ids ==> id <= j
    ensures LostCalls(Ascending(ids)) == [Done(id, UNAVAILABLE, [])] + LostCalls(Ascending(ids - {id}))
  {
    AscendingTurn(ids, id);
    LostCons(id, Ascending(ids - {id}));
    hide Ascending, LostCalls;
  }

  lemma LostCons(id: nat, rest: seq<nat>)
    ensures LostCalls([id] + rest) == [Done(id, UNAVAILABLE, [])] + LostCalls(rest)
  {
  }

  class Impl {
    const limit: nat
    var conn: Conn
    var lastSid: nat
    var unary: Unary
    var streams: Streams

    function Value(): Channel
      reads this
    {
      Channel(conn, lastSid, limit, unary, streams)
    }

    ghost predicate Valid()
      reads this
    {
      Reachable(Value())
    }

    constructor (limit: nat)
      ensures Valid() && Value() == Init(limit)
    {
      this.limit := limit;
      conn, lastSid := Idle, 0;
      unary := Unary(map[], map[], [], {}, []);
      streams := Streams(map[], map[], [], {}, map[], {});
      new;
      InitReachable(limit);
    }

    // ---- unary calls --------------------------------------------------------------------------

    /** Ends a call, in the table or not. */
    method Complete(id: nat, call: Call, code: int, payload: Bytes)
      modifies this`unary
      ensures unary == CompleteCall(old(unary), id, call, code, payload)
    {
      if call.completed { return; }
      if call.sid != 0 { unary := unary.(byStream := unary.byStream - {call.sid}); }
      unary := unary.(calls := unary.calls - {id});
      unary := unary.(done := unary.done + [Done(id, code, payload)]);
    }

    method SubmitCall(id: nat, timer: bool, sid: int)
      modifies this`unary
      ensures unary == CallNow(old(unary), id, timer, sid, limit)
    {
      var call := NewCall(timer, limit);
      if sid < 0 {
        Complete(id, call, UNAVAILABLE, []);
        return;
      }
      call := call.(sid := sid);
      unary := unary.(byStream := unary.byStream[sid := id]);
      unary := unary.(calls := unary.calls[id := call]);
    }

    method FailWaiting(code: int)
      modifies this`unary
      ensures unary == FailPending(old(unary), code)
    {
      hide CompleteCall;
      while unary.pending != []
        invariant FailPending(unary, code) == FailPending(old(unary), code)
        decreases |unary.pending|
      {
        var p := unary.pending[0];
        unary := unary.(pending := unary.pending[1..]);
        CompleteLeaves(unary, p.id, NewCall(p.timer, 0), code, []);
        Complete(p.id, NewCall(p.timer, 0), code, []);
      }
    }

    method StartWaiting(sids: seq<int>)
      requires |sids| == |unary.pending|
      modifies this`unary
      ensures unary == StartPending(old(unary), sids, limit)
    {
      hide CallNow;
      var i := 0;
      assert sids[0..] == sids;
      while unary.pending != []
        invariant 0 <= i && |unary.pending| == |sids| - i
        invariant StartPending(unary, sids[i..], limit) == StartPending(old(unary), sids, limit)
        decreases |unary.pending|
      {
        var p := unary.pending[0];
        assert sids[i..][1..] == sids[i + 1..];
        unary := unary.(pending := unary.pending[1..]);
        StartLeaves(unary, p.id, p.timer, sids[i], limit);
        SubmitCall(p.id, p.timer, sids[i]);
        i := i + 1;
      }
    }

    method Issue(id: nat, timed: bool, sid: int)
      requires Valid() && Enabled(Value(), CallStep(id, timed, sid))
      modifies this
      ensures Valid() && Value() == IssueCall(old(Value()), id, timed, sid)
    {
      StepReachable(Value(), CallStep(id, timed, sid));
      hide Reachable;
      unary := unary.(issued := unary.issued + {id});
      if conn == Ready {
        SubmitCall(id, timed, sid);
        lastSid := LastSid(lastSid, [sid]);
      } else if conn == Broken {
        Complete(id, NewCall(timed, limit), UNAVAILABLE, []);
      } else {
        unary := unary.(pending := unary.pending + [PendingCall(id, timed)]);
        if conn == Idle { conn := Connecting; }
      }
    }

    /** A deadline or a cancellation resets the call's stream; the close it may report finds the call completed. */
    method Reset(id: nat, code: int, reentrant: bool)
      modifies this`unary
      ensures unary == ResetCall(old(unary), id, code, reentrant)
    {
      if id !in unary.calls || unary.calls[id].completed { return; }
      var sid := unary.calls[id].sid;
      unary := unary.(calls := unary.calls[id := unary.calls[id].(completed := true)]);
      if sid != 0 {
        if reentrant { CallClosed(sid); }
        unary := unary.(byStream := unary.byStream - {sid});
      }
      unary := unary.(calls := unary.calls - {id});
      unary := unary.(done := unary.done + [Done(id, code, [])]);
    }

    method CallClosed(sid: int)
      modifies this`unary
      ensures unary == UnaryClosed(old(unary), sid)
    {
      if sid !in unary.byStream { return; }
      var id := unary.byStream[sid];
      if id in unary.calls && !unary.calls[id].completed {
        Complete(id, unary.calls[id], UNAVAILABLE, []);
      }
      unary := unary.(byStream := unary.byStream - {sid});
    }

    method OnTimeout(id: nat, reentrant: bool)
      requires Valid() && Enabled(Value(), TimeoutStep(id, reentrant))
      modifies this
      ensures Valid() && Value() == old(Value()).(unary := UnaryTimeout(old(unary), id, reentrant))
    {
      StepReachable(Value(), TimeoutStep(id, reentrant));
      hide Reachable, ResetCall;
      if id in unary.calls {
        Reset(id, DEADLINE_EXCEEDED, reentrant);
      } else {
        unary := unary.(pending := Disarm(unary.pending, id));
      }
    }

    method Cancel(id: nat, reentrant: bool)
      requires Valid()
      modifies this
      ensures Valid() && Value() == old(Value()).(unary := ResetCall(old(unary), id, UNAVAILABLE, reentrant))
    {
      StepReachable(Value(), CancelStep(id, reentrant));
      hide Reachable, ResetCall;
      Reset(id, UNAVAILABLE, reentrant);
    }

    // ---- streams ------------------------------------------------------------------------------

    /** Drops the queue, telling each message's callback in order, and then reports the terminal status. */
    method CompleteOne(st: Stream, code: int) returns (r: Stream)
      ensures r == CompleteStream(st, code)
      ensures !st.completed ==> r.completed && !r.timer && r.events == st.events + [Event.Complete(code)]
    {
      r := st;
      if r.completed { return; }
      r := r.(completed := true, timer := false);
      while r.sending.queue != []
        invariant DropQueue(r.sending, code) == DropQueue(st.sending, code)
        invariant r == st.(completed := true, timer := false, sending := r.sending)
        decreases |r.sending.queue|
      {
        var m, rest, told := r.sending.queue[0], r.sending.queue[1..], r.sending.flushed;
        if m.send.Some? {
          Assoc(told, [Flush(m.send.value, code)], Answers(rest, code));
          told := told + [Flush(m.send.value, code)];
        } else {
          assert Answers(r.sending.queue, code) == Answers(rest, code);
        }
        r := r.(sending := r.sending.(queue := rest, flushed := told));
      }
      assert r.sending.flushed + [] == r.sending.flushed;
      r := r.(events := r.events + [Event.Complete(code)]);
    }

    method PumpOne(g: Sending) returns (r: Sending)
      ensures r == Pump(g)
    {
      r := g;
      if r.inflight || r.queue == [] { return; }
      var out := r.queue[0];
      r := r.(queue := r.queue[1..], inflight := true, body := out.send);
      if out.close { r := r.(closed := true); }
      r := r.(sent := r.sent + [out]);
    }

    method OpenNow(p: PendingStream, sid: int)
      modifies this`streams
      ensures streams == OpenStreamNow(old(streams), p, sid, limit)
    {
      var g := p.sending;
      var seedClosed := false;
      var i := 0;
      while i < |g.queue|
        invariant 0 <= i <= |g.queue|
        invariant seedClosed <==> HasClose(g.queue[..i])
        invariant streams == old(streams)
      {
        if g.queue[i].close {
          seedClosed := true;
          assert g.queue[..i + 1][i].close;
        }
        HasCloseNext(g.queue, i);
        i := i + 1;
      }
      assert g.queue[..i] == g.queue;
      var st := NewStream(g, limit);
      if sid < 0 {
        hide CompleteStream;
        st := CompleteOne(st, UNAVAILABLE);
        streams := streams.(past := streams.past[p.id := st]);
        return;
      }
      if seedClosed && !g.queue[|g.queue| - 1].close { g := g.(queue := MarkLast(g.queue)); }
      g := PumpOne(g);
      st := st.(sid := sid, timer := p.timed, sending := g);
      streams := streams.(bySid := streams.bySid[sid := p.id]);
      streams := streams.(table := streams.table[p.id := st]);
    }

    method StartPendingStreams(sids: seq<int>)
      requires |sids| == |streams.parked|
      modifies this`streams
      ensures streams == StartParked(old(streams), sids, limit)
    {
      hide OpenStreamNow;
      var i := 0;
      assert sids[0..] == sids;
      while streams.parked != []
        invariant 0 <= i && |streams.parked| == |sids| - i
        invariant StartParked(streams, sids[i..], limit) == StartParked(old(streams), sids, limit)
        decreases |streams.parked|
      {
        var p := streams.parked[0];
        assert sids[i..][1..] == sids[i + 1..];
        streams := streams.(parked := streams.parked[1..]);
        ChannelStreams.OpenLeaves(streams, p, sids[i], limit);
        OpenNow(p, sids[i]);
        i := i + 1;
      }
    }

    method Open(id: nat, timed: bool, sid: int)
      requires Valid() && Enabled(Value(), OpenStep(id, timed, sid))
      modifies this
      ensures Valid() && Value() == OpenStream(old(Value()), id, timed, sid)
    {
      StepReachable(Value(), OpenStep(id, timed, sid));
      hide Reachable, OpenStreamNow, CompleteStream;
      streams := streams.(begun := streams.begun + {id});
      var p := PendingStream(id, timed, NewSending());
      if conn == Ready {
        OpenNow(p, sid);
        lastSid := LastSid(lastSid, [sid]);
      } else if conn == Broken {
        var st := CompleteOne(NewStream(NewSending(), limit), UNAVAILABLE);
        streams := streams.(past := streams.past[id := st]);
      } else {
        streams := streams.(parked := streams.parked + [p]);
        if conn == Idle { conn := Connecting; }
      }
    }

    /** The index of a parked stream, or None. */
    method FindParked(id: nat) returns (k: Option<nat>)
      ensures k == ParkedAt(streams.parked, id)
    {
      var parked := streams.parked;
      var i := 0;
      assert parked[0..] == parked;
      while i < |parked|
        invariant 0 <= i <= |parked|
        invariant var r := ParkedAt(parked[i..], id);
                  ParkedAt(parked, id) == if r.Some? then Some(i + r.value) else None
      {
        if parked[i].id == id { return Some(i); }
        assert parked[i..][1..] == parked[i + 1..];
        i := i + 1;
      }
      return None;
    }

    method StreamSend(id: nat, framed: Bytes, close: bool)
      requires Valid()
      modifies this
      ensures Valid() && Value() == old(Value()).(streams := SendOn(old(streams), id, framed, close))
    {
      StepReachable(Value(), SendStep(id, framed, close));
      hide Reachable;
      if !Live(streams, id) {
        var k := FindParked(id);
        ParkedAtValid(streams.parked, id);
        if k.Some? {
          var g := streams.parked[k.value].sending;
          g := if |g.queue| >= QUEUE_BOUND then Refuse(g, RESOURCE_EXHAUSTED) else Enqueue(g, framed, close);
          streams := WithParked(streams, k.value, g);
        }
        return;
      }
      var g := streams.table[id].sending;
      if g.closed {
        g := Refuse(g, INTERNAL);
      } else if |g.queue| >= QUEUE_BOUND {
        g := Refuse(g, RESOURCE_EXHAUSTED);
      } else {
        g := Enqueue(g, framed, close);
        g := PumpOne(g);
      }
      streams := WithSending(streams, id, g);
    }

    method StreamCloseSend(id: nat)
      requires Valid()
      modifies this
      ensures Valid() && Value() == old(Value()).(streams := CloseSendOn(old(streams), id))
    {
      StepReachable(Value(), CloseSendStep(id));
      hide Reachable;
      if !Live(streams, id) {
        var k := FindParked(id);
        ParkedAtValid(streams.parked, id);
        if k.Some? { streams := WithParked(streams, k.value, ParkClose(streams.parked[k.value].sending)); }
        return;
      }
      var g := streams.table[id].sending;
      if g.closed { return; }
      g := g.(asked := true);
      if g.queue == [] {
        g := g.(closed := true, accepted := g.accepted + [[]], sent := g.sent + [OutMsg([], true, None)]);
      } else {
        g := g.(queue := MarkLast(g.queue));
      }
      streams := WithSending(streams, id, g);
    }

    method PumpNow(id: nat)
      requires Valid()
      modifies this
      ensures Valid() && Value() == old(Value()).(streams := PumpStream(old(streams), id))
    {
      StepReachable(Value(), PumpStep(id));
      hide Reachable;
      if !Live(streams, id) { return; }
      var g := PumpOne(streams.table[id].sending);
      streams := WithSending(streams, id, g);
    }

    /** The session took a whole body; the pump runs as a task of its own. */
    method OnConsumed(id: nat)
      requires Valid() && Enabled(Value(), ConsumedStep(id))
      modifies this
      ensures Valid() && Value() == old(Value()).(streams := BodyConsumed(old(streams), id))
    {
      StepReachable(Value(), ConsumedStep(id));
      hide Reachable;
      var g := ViewOf(streams, id).sending;
      if g.body.Some? { g := g.(flushed := g.flushed + [Flush(g.body.value, OK)], body := None); }
      g := g.(inflight := false);
      if id in streams.table {
        streams := WithSending(streams, id, g);
      } else {
        streams := streams.(past := streams.past[id := streams.past[id].(sending := g)]);
      }
    }

    /** A stream's deadline: it resets its own stream, which may report the close from inside. */
    method OnStreamTimeout(id: nat, reentrant: bool, noted: bool)
      requires Valid() && Enabled(Value(), StreamTimeoutStep(id, reentrant, noted))
      modifies this
      ensures Valid() && Value() == old(Value()).(streams := TimeoutAndDrop(old(streams), id, reentrant, noted))
    {
      StepReachable(Value(), StreamTimeoutStep(id, reentrant, noted));
      hide Reachable, CompleteStream;
      if id !in streams.table || streams.table[id].completed { return; }
      var st := streams.table[id].(rstPending := true);
      streams := streams.(table := streams.table[id := st]);
      if st.sid != 0 {
        if reentrant { StreamCloses(st.sid); }
        streams := streams.(bySid := streams.bySid - {st.sid});
      }
      if id in streams.table {
        st := CompleteOne(streams.table[id], DEADLINE_EXCEEDED);
        streams := Put(streams, id, st);
      }
      streams := streams.(table := streams.table - {id}, past := streams.past[id := st]);
      if reentrant { streams := DropBody(streams, st.sid, noted); }
    }

    method StreamCloses(sid: int)
      modifies this`streams
      ensures streams == StreamClosed(old(streams), sid)
    {
      hide CompleteStream;
      if sid !in streams.bySid { return; }
      var id := streams.bySid[sid];
      if id in streams.table && !streams.table[id].completed && !streams.table[id].rstPending {
        var st := CompleteOne(streams.table[id], UNAVAILABLE);
        streams := Put(streams, id, st);
      }
      streams := streams.(bySid := streams.bySid - {sid});
    }

    // ---- what the session reports -------------------------------------------------------------

    method OnHeadersComplete(sid: int, status: Option<int>, http200: bool)
      requires Valid() && conn == Ready
      modifies this
      ensures Valid() && Value() == Apply(old(Value()), HeadersStep(sid, status, http200))
      ensures sid in old(streams).bySid && Live(old(streams), old(streams).bySid[sid]) ==>
                var id := old(streams).bySid[sid];
                && id in streams.table
                && StreamStatus.EndsWith(old(streams).table[id],
                                         if status.Some? then status else if http200 then None else Some(14),
                                         streams.table[id])
    {
      StepReachable(Value(), HeadersStep(sid, status, http200));
      hide Reachable, CompleteStream;
      if sid in streams.bySid {
        var id := streams.bySid[sid];
        if id !in streams.table || streams.table[id].completed { return; }
        var st := streams.table[id];
        if status.Some? {
          st := CompleteOne(st, status.value);
        } else if !http200 {
          st := CompleteOne(st, UNAVAILABLE);
        }
        streams := Put(streams, id, st);
        return;
      }
      if sid !in unary.byStream || unary.byStream[sid] !in unary.calls { return; }
      var id := unary.byStream[sid];
      var call := unary.calls[id];
      if status.Some? {
        Complete(id, call, status.value, if call.decoder.messages != [] then call.decoder.messages[0] else []);
      } else if !http200 {
        Complete(id, call, UNAVAILABLE, []);
      }
    }

    /** DATA for a stream: decoded messages are delivered one by one. */
    method StreamReceives(st: Stream, data: Bytes) returns (r: Stream)
      ensures r == ReceiveData(st, data)
    {
      hide Feed, FeedError, CompleteStream, Messages, Server.ErrorCode;
      r := st;
      if r.completed || data == [] { return; }
      var error := FeedError(r.decoder, data);
      r := r.(decoder := Feed(r.decoder, data));
      if error.Some? {
        r := CompleteOne(r, Server.ErrorCode(error.value));
        return;
      }
      ghost var d := r.decoder;
      var i := 0;
      assert d.messages[..0] == [] && st.events + Messages([]) == st.events by { NoMessages(st.events); }
      while r.decoder.messages != []
        invariant 0 <= i <= |d.messages| && r.decoder.messages == d.messages[i..]
        invariant r == st.(decoder := d.(messages := d.messages[i..], count := d.count + i),
                           events := st.events + Messages(d.messages[..i]))
        decreases |r.decoder.messages|
      {
        var m := r.decoder.messages[0];
        MessagesNext(st.events, d.messages, i);
        r := r.(decoder := r.decoder.(messages := r.decoder.messages[1..], count := r.decoder.count + 1));
        r := r.(events := r.events + [Message(m)]);
        i := i + 1;
      }
      assert d.messages[..i] == d.messages;
    }

    method OnData(sid: int, data: Bytes)
      requires Valid() && conn == Ready
      modifies this
      ensures Valid() && Value() == Apply(old(Value()), DataStep(sid, data))
    {
      StepReachable(Value(), DataStep(sid, data));
      hide Reachable, ReceiveData, Feed, FeedError;
      if sid in streams.bySid {
        var id := streams.bySid[sid];
        if id !in streams.table || streams.table[id].completed { return; }
        var st := StreamReceives(streams.table[id], data);
        streams := Put(streams, id, st);
        return;
      }
      if sid !in unary.byStream || unary.byStream[sid] !in unary.calls { return; }
      var id := unary.byStream[sid];
      if unary.calls[id].completed || data == [] { return; }
      var error := FeedError(unary.calls[id].decoder, data);
      var call := unary.calls[id].(decoder := Feed(unary.calls[id].decoder, data));
      unary := unary.(calls := unary.calls[id := call]);
      if error.Some? { Complete(id, call, Server.ErrorCode(error.value), []); }
    }

    method OnStreamClose(sid: int, noted: bool)
      requires Valid() && Enabled(Value(), ClosedStep(sid, noted))
      modifies this
      ensures Valid() && Value() == Apply(old(Value()), ClosedStep(sid, noted))
    {
      StepReachable(Value(), ClosedStep(sid, noted));
      hide Reachable, StreamClosed, UnaryClosed;
      StreamCloses(sid);
      streams := DropBody(streams, sid, noted);
      CallClosed(sid);
    }

    /** The connection stands; `callSids` and `streamSids` are the session's answers. */
    method OnConnected(callSids: seq<int>, streamSids: seq<int>)
      requires Valid() && Enabled(Value(), ConnectedStep(callSids, streamSids))
      modifies this
      ensures Valid() && Value() == Apply(old(Value()), ConnectedStep(callSids, streamSids))
    {
      StepReachable(Value(), ConnectedStep(callSids, streamSids));
      hide Reachable, StartPending, StartParked;
      conn := Ready;
      lastSid := LastSid(lastSid, callSids + streamSids);
      StartWaiting(callSids);
      StartPendingStreams(streamSids);
    }

    method OnConnectFailed(code: int)
      requires Valid() && conn == Connecting
      modifies this
      ensures Valid() && Value() == Apply(old(Value()), ConnectFailedStep(code))
    {
      StepReachable(Value(), ConnectFailedStep(code));
      hide Reachable, FailPending;
      conn := Broken;
      FailWaiting(code);
    }

    /** Calls in the table fail in the order of their ids. */
    method FailCalls()
      modifies this`unary
      ensures unary == LoseCalls(old(unary))
    {
      var ids := LiveIds(unary);
      unary := unary.(calls := map[], byStream := map[]);
      ghost var all := old(unary).done + LostCalls(Ascending(ids));
      FailEach(ids);
      assert unary.done == all;
      hide FailPending;
      FailWaiting(UNAVAILABLE);
    }

    method FailEach(live: set<nat>)
      modifies this`unary
      ensures unary == old(unary).(done := old(unary).done + LostCalls(Ascending(live)))
    {
      var ids := live;
      ghost var all := unary.done + LostCalls(Ascending(live));
      while ids != {}
        invariant unary == old(unary).(done := unary.done)
        invariant unary.done + LostCalls(Ascending(ids)) == all
        decreases |ids|
      {
        ghost var least := Least(ids);
        var id :| id in ids && forall j :: j in ids ==> id <= j;
        LostTurn(ids, id);
        Assoc(unary.done, [Done(id, UNAVAILABLE, [])], LostCalls(Ascending(ids - {id})));
        unary := unary.(done := unary.done + [Done(id, UNAVAILABLE, [])]);
        ids := ids - {id};
      }
      assert LostCalls(Ascending({})) == [];
    }

    /** Every stream in the table completes, then every parked one. */
    method FailStreams()
      modifies this`streams
      ensures streams == LoseStreams(old(streams))
    {
      var lost := streams.table;
      var failed := map id | id in lost :: CompleteStream(lost[id], UNAVAILABLE);
      streams := streams.(table := map[], bySid := map[], past := streams.past + failed);
      ghost var s := streams;
      while streams.parked != []
        invariant LoseParked(streams) == LoseParked(s)
        decreases |streams.parked|
      {
        var p := streams.parked[0];
        var st := CompleteOne(NewStream(NewSending(), 0), UNAVAILABLE);
        streams := streams.(parked := streams.parked[1..], past := streams.past[p.id := st]);
      }
    }

    method OnConnectionLost()
      requires Valid() && conn == Ready
      modifies this
      ensures Valid() && Value() == Apply(old(Value()), LostStep)
    {
      StepReachable(Value(), LostStep);
      hide Reachable, LoseCalls, LoseStreams;
      conn := Broken;
      FailStreams();
      FailCalls();
    }

    /**
     What every run promises holds of the channel between any two of its tasks: of every unary call
     it is in one place and done at most once, and of every stream the order of its callbacks, the
     order and the end of what it sends, and one answer for each send.
     */
    lemma AlwaysOrderly(id: nat, send: nat)
      requires Valid()
      ensures ChannelCalls.TimesDone(unary, id) + multiset(ChannelCalls.PendingIds(unary.pending))[id]
              + (if id in unary.calls then 1 else 0) == (if id in unary.issued then 1 else 0)
      ensures conn == Broken && id in unary.issued ==> ChannelCalls.TimesDone(unary, id) == 1
      ensures forall i :: i in unary.calls ==>
                unary.calls[i].sid in unary.byStream && unary.byStream[unary.calls[i].sid] == i
      ensures forall sid :: sid in unary.byStream ==>
                unary.byStream[sid] in unary.calls && unary.calls[unary.byStream[sid]].sid == sid
      ensures Known(streams, id) ==> Orderly(ViewOf(streams, id).events)
      ensures id in streams.past ==> streams.past[id].events != [] && Last(streams.past[id].events).Complete?
      ensures id in streams.table ==> (!streams.table[id].completed <==> streams.table[id].sid in streams.bySid)
      ensures Live(streams, id) ==>
                var g := streams.table[id].sending;
                && Bodies(g.sent) + Bodies(g.queue) == g.accepted && |g.queue| <= QUEUE_BOUND
                && (CloseIsLast(g.sent + g.queue) <==> !g.late)
      ensures Known(streams, id) && send < ViewOf(streams, id).sending.sends ==>
                var st := ViewOf(streams, id);
                && Ran(st.sending, send) == (if Pending(st.sending, send) then 0 else 1)
                && (st.completed ==> Ran(st.sending, send) == 1 || st.sending.body == Some(send))
    {
      hide Run, Init, ChannelCalls.TimesDone, Orderly, CloseIsLast, HasClose, Ran, Pending;
      var limit, steps :| Reaches(limit, steps, Value());
      ChannelCalls.UnaryExactlyOnce(limit, steps, id);
      ChannelStreams.StreamTraces(limit, steps);
      if Live(streams, id) { ChannelStreams.SendsInOrder(limit, steps, id); }
      if Known(streams, id) && send < ViewOf(streams, id).sending.sends {
        ChannelStreams.FlushesConserved(limit, steps, id, send);
      }
    }
  }

  function Last(events: seq<Event>): Event
    requires events != []
  {
    events[|events| - 1]
  }

  lemma CompleteLeaves(u: Unary, id: nat, call: Call, code: int, payload: Bytes)
    ensures CompleteCall(u, id, call, code, payload).pending == u.pending
  {
  }

  lemma StartLeaves(u: Unary, id: nat, timer: bool, sid: int, limit: nat)
    ensures CallNow(u, id, timer, sid, limit).pending == u.pending
  {
  }

  lemma HasCloseNext(q: seq<OutMsg>, i: nat)
    requires i < |q|
    ensures HasClose(q[..i + 1]) <==> HasClose(q[..i]) || q[i].close
  {
    var a, b := q[..i], q[..i + 1];
    assert forall k :: 0 <= k < i ==> a[k] == b[k];
    if HasClose(a) {
      var k :| 0 <= k < |a| && a[k].close;
      assert b[k].close;
    }
    if q[i].close { assert b[i].close; }
  }

  lemma NoMessages(events: seq<Event>)
    ensures events + Messages([]) == events
  {
  }

  lemma MessagesNext(events: seq<Event>, msgs: seq<Bytes>, i: nat)
    requires i < |msgs|
    ensures events + Messages(msgs[..i + 1]) == events + Messages(msgs[..i]) + [Message(msgs[i])]
  {
  }
}
