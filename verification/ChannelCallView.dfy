/** What the steps of a channel do to one of its unary calls. */
module ChannelCallView {
  import opened Codec
  import opened StatusCodes
  import opened Channel
  import opened ClientStream
  import ChannelCalls
  import Server

  // ---- the completions of one call ------------------------------------------------------------

  /** The completions of the call so far. */
  function Completions(done: seq<Done>, id: nat): seq<Done> {
    if done == [] then []
    else
      var d := done[|done| - 1];
      Completions(done[..|done| - 1], id) + if d.id == id then [d] else []
  }

  lemma CompletionsAppend(done: seq<Done>, d: Done, id: nat)
    ensures Completions(done + [d], id) == Completions(done, id) + if d.id == id then [d] else []
  {
    assert (done + [d])[..|done|] == done;
  }

  lemma {:induction false} CompletionsCount(done: seq<Done>, id: nat)
    ensures |Completions(done, id)| == multiset(ChannelCalls.DoneIds(done))[id]
  {
    if done != [] {
      var front, d := done[..|done| - 1], done[|done| - 1];
      CompletionsCount(front, id);
      assert ChannelCalls.DoneIds(done) == ChannelCalls.DoneIds(front) + [d.id];
    }
  }

  lemma {:induction false} CompletionsPrefix(a: seq<Done>, b: seq<Done>, id: nat)
    requires a <= b
    ensures Completions(a, id) <= Completions(b, id)
    decreases |b|
  {
    if a != b { CompletionsPrefix(a, b[..|b| - 1], id); }
  }

  lemma {:induction false} LostCompletions(done: seq<Done>, ids: seq<nat>, id: nat)
    ensures Completions(done + LostCalls(ids), id) == Completions(done, id) + Repeated(multiset(ids)[id], id)
    decreases |ids|
  {
    if ids == [] {
      assert done + LostCalls(ids) == done;
    } else {
      var front, last := ids[..|ids| - 1], ids[|ids| - 1];
      LostCompletions(done, front, id);
      assert ids == front + [last];
      assert LostCalls(ids) == LostCalls(front) + [Done(last, UNAVAILABLE, [])];
      Assoc(done, LostCalls(front), [Done(last, UNAVAILABLE, [])]);
      CompletionsAppend(done + LostCalls(front), Done(last, UNAVAILABLE, []), id);
      hide Completions;
    }
  }

  ghost function Repeated(n: nat, id: nat): (r: seq<Done>)
    ensures |r| == n
  {
    seq(n, i => Done(id, UNAVAILABLE, []))
  }

  // ---- what a step of the channel does to a call that is not its own ---------------------------

  /** The call is submitted and nothing has ended it: in the table and in its index, and in no other. */
  predicate Submitted(ch: Channel, id: nat, sid: int) {
    var u := ch.unary;
    && id in u.calls && u.calls[id].sid == sid && !u.calls[id].completed
    && sid in u.byStream && u.byStream[sid] == id && 0 < sid <= ch.lastSid && sid !in ch.streams.bySid
  }

  predicate Kept(u: Unary, v: Unary, id: nat, sid: int) {
    && id in u.calls && id in v.calls && v.calls[id] == u.calls[id]
    && sid in v.byStream && v.byStream[sid] == id && Completions(v.done, id) == Completions(u.done, id)
  }

  /** With which status a step of the channel that is no answer to the submitted call ends it. */
  function OwnEnd(call: Call, id: nat, sid: int, step: Step): Option<int> {
    match step
    case CancelStep(i, _) => if i == id then Some(14) else None
    case TimeoutStep(i, _) => if i == id && call.timer then Some(4) else None
    case ClosedStep(s, _) => if s == sid then Some(14) else None
    case LostStep => Some(14)
    case _ => None
  }

  /** The call completes with the status `end` and no payload, or stays as it is. */
  predicate Shown(u: Unary, v: Unary, id: nat, sid: int, end: Option<int>) {
    if end.Some? then Completions(v.done, id) == Completions(u.done, id) + [Done(id, end.value, [])]
    else Kept(u, v, id, sid)
  }

  lemma EndedView(u: Unary, v: Unary, id: nat, sid: int, i: nat, code: int, payload: Bytes)
    requires id in u.calls && u.calls[id].sid == sid && sid in u.byStream && u.byStream[sid] == id
    requires i in u.calls && (i != id ==> u.calls[i].sid != sid)
    requires v.calls == u.calls - {i} && v.byStream == u.byStream - {u.calls[i].sid}
    requires v.done == u.done + [Done(i, code, payload)] && (i == id ==> payload == [])
    ensures Shown(u, v, id, sid, if i == id then Some(code) else None)
  {
    hide Completions;
    CompletionsAppend(u.done, Done(i, code, payload), id);
  }

  lemma ResetView(u: Unary, last: nat, id: nat, sid: int, i: nat, code: int, r: bool)
    requires ChannelCalls.UnaryInv(u, last) && id in u.calls && u.calls[id].sid == sid
    ensures Shown(u, ResetCall(u, i, code, r), id, sid, if i == id then Some(code) else None)
  {
    var v := ResetCall(u, i, code, r);
    if i in u.calls {
      assert v.byStream == u.byStream - {u.calls[i].sid} && v.calls == u.calls - {i};
      assert v.done == u.done + [Done(i, code, [])];
      hide ResetCall, Shown;
      EndedView(u, v, id, sid, i, code, []);
    }
  }

  lemma TimeoutCallView(u: Unary, last: nat, id: nat, sid: int, i: nat, r: bool)
    requires ChannelCalls.UnaryInv(u, last) && id in u.calls && u.calls[id].sid == sid
    ensures Shown(u, UnaryTimeout(u, i, r), id, sid, if i == id then Some(DEADLINE_EXCEEDED) else None)
  {
    if i in u.calls {
      hide ResetCall;
      ResetView(u, last, id, sid, i, DEADLINE_EXCEEDED, r);
    }
  }

  lemma EventCallView(u: Unary, last: nat, id: nat, sid: int, other: int, status: Option<int>, http200: bool,
      data: Bytes)
    requires ChannelCalls.UnaryInv(u, last) && id in u.calls && u.calls[id].sid == sid && other != sid
    ensures Shown(u, UnaryHeaders(u, other, status, http200), id, sid, None)
    ensures Shown(u, UnaryData(u, other, data), id, sid, None)
  {
    hide Feed, FeedError, Completions;
    if other in u.byStream {
      var i := u.byStream[other];
      var call := u.calls[i];
      var m := if call.decoder.messages != [] then call.decoder.messages[0] else [];
      var end := if status.Some? then Done(i, status.value, m) else Done(i, UNAVAILABLE, []);
      CompletionsAppend(u.done, end, id);
      if FeedError(call.decoder, data).Some? {
        CompletionsAppend(u.done, Done(i, Server.ErrorCode(FeedError(call.decoder, data).value), []), id);
      }
    }
  }

  lemma ClosedCallView(u: Unary, last: nat, id: nat, sid: int, other: int)
    requires ChannelCalls.UnaryInv(u, last) && id in u.calls && u.calls[id].sid == sid
    ensures Shown(u, UnaryClosed(u, other), id, sid, if other == sid then Some(UNAVAILABLE) else None)
  {
    if other in u.byStream {
      var i, v := u.byStream[other], UnaryClosed(u, other);
      assert v.calls == u.calls - {i} && v.byStream == u.byStream - {other};
      assert v.done == u.done + [Done(i, UNAVAILABLE, [])];
      hide Shown;
      EndedView(u, v, id, sid, i, UNAVAILABLE, []);
    }
  }

  lemma LostCallView(u: Unary, last: nat, id: nat, sid: int)
    requires ChannelCalls.UnaryInv(u, last) && id in u.calls && u.calls[id].sid == sid && u.pending == []
    ensures Shown(u, LoseCalls(u), id, sid, Some(UNAVAILABLE))
  {
    var ids: seq<nat> := Ascending(LiveIds(u));
    assert multiset(ids)[id] == 1;
    LostCompletions(u.done, ids, id);
    hide Completions, Ascending;
    assert Repeated(1, id) == [Done(id, UNAVAILABLE, [])];
    assert Completions(LoseCalls(u).done, id) == Completions(u.done, id) + [Done(id, UNAVAILABLE, [])];
  }

  lemma IssueCallView(ch: Channel, id: nat, sid: int, i: nat, timed: bool, d: int)
    requires Submitted(ch, id, sid) && i != id && FreshSids(ch.lastSid, [d])
    ensures Shown(ch.unary, IssueCall(ch, i, timed, d).unary, id, sid, None)
  {
    hide Completions;
    CompletionsAppend(ch.unary.done, Done(i, UNAVAILABLE, []), id);
  }

  lemma OpenIndexStays(ch: Channel, id: nat, timed: bool, d: int, sid: int)
    requires ch.conn.Ready? && 0 < sid <= ch.lastSid && sid !in ch.streams.bySid && FreshSids(ch.lastSid, [d])
    ensures sid !in OpenStream(ch, id, timed, d).streams.bySid
  {
    hide Pump, Seed, CompleteStream;
  }

  lemma EventIndexStays(s: Streams, sid: int, other: int, status: Option<int>, http200: bool, data: Bytes)
    requires sid !in s.bySid
    ensures sid !in StreamHeaders(s, other, status, http200).bySid && sid !in StreamData(s, other, data).bySid
    ensures sid !in StreamClosed(s, other).bySid
  {
    hide Feed, FeedError, DropQueue;
  }

  lemma SendIndexStays(s: Streams, id: nat, framed: Bytes, close: bool, r: bool)
    ensures SendOn(s, id, framed, close).bySid == s.bySid && CloseSendOn(s, id).bySid == s.bySid
    ensures BodyConsumed(s, id).bySid == s.bySid && PumpStream(s, id).bySid == s.bySid
    ensures StreamTimeout(s, id, r).bySid.Keys <= s.bySid.Keys
  {
    hide StreamSend, StreamCloseSend, ParkSend, ParkClose, Pump, Consumed, DropQueue, ParkedAt;
  }

  /** Stream ids are handed out once: no stream takes the id of a call. */
  lemma IndexStays(ch: Channel, step: Step, sid: int)
    requires ch.conn.Ready? && 0 < sid <= ch.lastSid && sid !in ch.streams.bySid
    ensures sid !in Apply(ch, step).streams.bySid && Apply(ch, step).lastSid >= ch.lastSid
  {
    var s := ch.streams;
    if (step.CallStep? || step.OpenStep?) && Enabled(ch, step) { ChannelCalls.LastGrows(ch.lastSid, [step.sid]); }
    hide ResetCall, UnaryTimeout, UnaryHeaders, UnaryData, UnaryClosed, LoseCalls, StreamHeaders, StreamData,
      StreamClosed, StreamTimeout, SendOn, CloseSendOn, BodyConsumed, PumpStream, LoseParked;
    match step
    case OpenStep(id, timed, d) => if Enabled(ch, step) { OpenIndexStays(ch, id, timed, d, sid); }
    case HeadersStep(d, status, http200) => EventIndexStays(s, sid, d, status, http200, []);
    case DataStep(d, data) => EventIndexStays(s, sid, d, None, true, data);
    case ClosedStep(d, _) => EventIndexStays(s, sid, d, None, true, []);
    case SendStep(id, framed, close) => SendIndexStays(s, id, framed, close, false);
    case CloseSendStep(id) => SendIndexStays(s, id, [], false, false);
    case ConsumedStep(id) => SendIndexStays(s, id, [], false, false);
    case PumpStep(id) => SendIndexStays(s, id, [], false, false);
    case StreamTimeoutStep(id, r, _) => SendIndexStays(s, id, [], false, r);
    case LostStep => LoseParkedIndex(s.(table := map[], bySid := map[], past := AllFailed(s)));
    case _ =>
  }

  function AllFailed(s: Streams): map<nat, Stream> {
    s.past + map id | id in s.table :: CompleteStream(s.table[id], UNAVAILABLE)
  }

  lemma {:induction false} LoseParkedIndex(s: Streams)
    ensures LoseParked(s).bySid == s.bySid
    decreases |s.parked|
  {
    if s.parked != [] {
      var end := CompleteStream(NewStream(NewSending(), 0), UNAVAILABLE);
      LoseParkedIndex(s.(parked := s.parked[1..], past := s.past[s.parked[0].id := end]));
    }
  }

  /** Any step but the answers to the call itself keeps the call, or ends it exactly as the table says. */
  lemma CallStepView(ch: Channel, id: nat, sid: int, step: Step)
    requires ChannelCalls.CallsInv(ch) && Submitted(ch, id, sid)
    requires !((step.HeadersStep? || step.DataStep?) && step.sid == sid)
    ensures Shown(ch.unary, Apply(ch, step).unary, id, sid, OwnEnd(ch.unary.calls[id], id, sid, step))
    ensures sid !in Apply(ch, step).streams.bySid && Apply(ch, step).lastSid >= ch.lastSid
  {
    var u, last := ch.unary, ch.lastSid;
    assert ch.conn.Ready? && u.pending == [];
    IndexStays(ch, step, sid);
    if step.CallStep? { IssuedCall(u, last, id); }
    assert Shown(u, u, id, sid, None);
    hide ChannelCalls.UnaryInv, Shown, Completions, IssueCall, ResetCall, UnaryTimeout, UnaryHeaders, UnaryData,
      UnaryClosed, LoseCalls, FailPending, StartPending, OpenStream, SendOn, CloseSendOn, StreamTimeout, LoseStreams,
      StartParked, StreamHeaders, StreamData, StreamClosed, BodyConsumed, PumpStream;
    if Enabled(ch, step) {
      match step
      case CallStep(i, timed, d) => IssueCallView(ch, id, sid, i, timed, d);
      case CancelStep(i, r) => ResetView(u, last, id, sid, i, UNAVAILABLE, r);
      case TimeoutStep(i, r) => TimeoutCallView(u, last, id, sid, i, r);
      case HeadersStep(d, status, http200) => EventCallView(u, last, id, sid, d, status, http200, []);
      case DataStep(d, data) => EventCallView(u, last, id, sid, d, None, true, data);
      case ClosedStep(d, _) => ClosedCallView(u, last, id, sid, d);
      case LostStep => LostCallView(u, last, id, sid);
      case _ =>
        if step.OpenStep? || step.SendStep? || step.CloseSendStep? || step.StreamTimeoutStep? || step.ConsumedStep?
           || step.PumpStep? { ChannelCalls.StreamStepsLeaveCalls(ch, step); }
    }
  }

  lemma IssuedCall(u: Unary, last: nat, id: nat)
    requires ChannelCalls.UnaryInv(u, last) && id in u.calls
    ensures id in u.issued
  {
    assert multiset(u.issued)[id] >= multiset(u.calls.Keys)[id];
  }

  // ---- completions are never taken back -------------------------------------------------------

  lemma {:induction false} FailGrows(u: Unary, code: int)
    ensures u.done <= FailPending(u, code).done
    decreases |u.pending|
  {
    if u.pending != [] {
      var p, v := u.pending[0], u.(pending := u.pending[1..]);
      FailGrows(CompleteCall(v, p.id, NewCall(p.timer, 0), code, []), code);
    }
  }

  lemma {:induction false} StartGrows(u: Unary, sids: seq<int>, limit: nat)
    requires |sids| == |u.pending|
    ensures u.done <= StartPending(u, sids, limit).done
    decreases |u.pending|
  {
    if u.pending != [] {
      var p, v := u.pending[0], u.(pending := u.pending[1..]);
      StartGrows(CallNow(v, p.id, p.timer, sids[0], limit), sids[1..], limit);
    }
  }

  lemma DoneGrows(ch: Channel, step: Step)
    ensures ch.unary.done <= Apply(ch, step).unary.done
  {
    var u := ch.unary;
    hide Feed, FeedError, FailPending, StartPending, StartParked, LoseStreams, StreamHeaders, StreamData, StreamClosed;
    match step
    case ConnectedStep(a, b) => if |a| == |u.pending| { StartGrows(u, a, ch.limit); }
    case ConnectFailedStep(code) => FailGrows(u, code);
    case LostStep =>
      FailGrows(u.(calls := map[], byStream := map[], done := u.done + LostCalls(Ascending(LiveIds(u)))), UNAVAILABLE);
    case _ =>
      if step.OpenStep? || step.SendStep? || step.CloseSendStep? || step.StreamTimeoutStep? || step.ConsumedStep?
         || step.PumpStep? { ChannelCalls.StreamStepsLeaveCalls(ch, step); }
  }

  /** A call that has completed once stays so: its completions never change again. */
  lemma CompletedStays(ch: Channel, id: nat, step: Step)
    requires ChannelCalls.CallsInv(ch) && Completions(ch.unary.done, id) != []
    ensures Completions(Apply(ch, step).unary.done, id) == Completions(ch.unary.done, id)
    ensures |Completions(ch.unary.done, id)| == 1
  {
    var t := Apply(ch, step);
    DoneGrows(ch, step);
    ChannelCalls.CallsStep(ch, step);
    hide Apply;
    CompletionsPrefix(ch.unary.done, t.unary.done, id);
    AtMostOnce(ch, id);
    AtMostOnce(t, id);
  }

  lemma AtMostOnce(ch: Channel, id: nat)
    requires ChannelCalls.CallsInv(ch)
    ensures |Completions(ch.unary.done, id)| <= 1
  {
    var u := ch.unary;
    CompletionsCount(u.done, id);
    hide Completions;
    assert multiset(u.issued)[id] >= multiset(ChannelCalls.DoneIds(u.done))[id];
  }

  // ---- calls that wait ------------------------------------------------------------------------

  /** One completion for each waiting call, in order. */
  function FailedAll(pending: seq<PendingCall>, code: int): (d: seq<Done>)
    ensures |d| == |pending|
  {
    seq(|pending|, i requires 0 <= i < |pending| => Done(pending[i].id, code, []))
  }

  /** A failed connect tells every waiting call the same status, in the order they came. */
  lemma {:induction false} FailTells(u: Unary, code: int)
    ensures FailPending(u, code).done == u.done + FailedAll(u.pending, code) && FailPending(u, code).pending == []
    decreases |u.pending|
  {
    if u.pending == [] {
      assert u.done + [] == u.done;
    } else {
      var p, rest := u.pending[0], u.pending[1..];
      FailTells(CompleteCall(u.(pending := rest), p.id, NewCall(p.timer, 0), code, []), code);
      assert FailedAll(u.pending, code) == [Done(p.id, code, [])] + FailedAll(rest, code);
      Assoc(u.done, [Done(p.id, code, [])], FailedAll(rest, code));
    }
  }

  /** The waiting calls the session refuses, in order. */
  function Refused(pending: seq<PendingCall>, sids: seq<int>): seq<Done>
    requires |sids| == |pending|
  {
    if pending == [] then []
    else (if sids[0] < 0 then [Done(pending[0].id, 14, [])] else []) + Refused(pending[1..], sids[1..])
  }

  /** A connect that succeeds submits the waiting calls; those the session refuses end as UNAVAILABLE. */
  lemma {:induction false} StartTells(u: Unary, sids: seq<int>, limit: nat)
    requires |sids| == |u.pending|
    ensures StartPending(u, sids, limit).done == u.done + Refused(u.pending, sids)
    ensures StartPending(u, sids, limit).pending == []
    decreases |u.pending|
  {
    if u.pending == [] {
      assert u.done + [] == u.done;
    } else {
      var p, v := u.pending[0], u.(pending := u.pending[1..]);
      var rest := Refused(v.pending, sids[1..]);
      StartTells(CallNow(v, p.id, p.timer, sids[0], limit), sids[1..], limit);
      if sids[0] < 0 {
        Assoc(u.done, [Done(p.id, 14, [])], rest);
      } else {
        assert [] + rest == rest;
      }
    }
  }

  /**
   A new call is submitted with its timer; or it waits, with its timer, while the channel connects; or
   the session refuses it or the channel is broken, and it ends as UNAVAILABLE at once.
   */
  lemma IssueTells(ch: Channel, id: nat, timed: bool, sid: int)
    requires Enabled(ch, CallStep(id, timed, sid))
    ensures var u, t := ch.unary, Apply(ch, CallStep(id, timed, sid));
            if ch.conn.Broken? || (ch.conn.Ready? && sid < 0) then t.unary.done == u.done + [Done(id, 14, [])]
            else if ch.conn.Ready? then
              && t.unary.done == u.done && id in t.unary.calls && sid in t.unary.byStream
              && t.unary.byStream[sid] == id && t.unary.calls[id] == Call(sid, timed, NewDecoder(ch.limit), false)
            else t.unary.done == u.done && t.conn.Connecting? && t.unary.pending == u.pending + [PendingCall(id, timed)]
  {
  }
}
