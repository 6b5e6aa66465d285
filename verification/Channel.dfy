/**
 The client channel: its connection state, the table of unary calls and the table of streams, each
 with a reverse index by HTTP/2 stream id. Every step is one task or event on the loop thread.
 */
module Channel {
  import opened Codec
  import opened StatusCodes
  import opened ClientStream
  import Server

  // ---- unary calls ----------------------------------------------------------------------------

  datatype Call = Call(sid: int, timer: bool, decoder: Decoder, completed: bool)

  datatype PendingCall = PendingCall(id: nat, timer: bool)

  datatype Done = Done(id: nat, code: int, payload: Bytes)

  datatype Unary = Unary(
    calls: map<nat, Call>,
    byStream: map<int, nat>,
    pending: seq<PendingCall>,
    issued: set<nat>,       // calls whose task ran
    done: seq<Done>)        // completions, in order

  /** Ends a call, whether or not it is in the table. */
  function CompleteCall(u: Unary, id: nat, call: Call, code: int, payload: Bytes): Unary {
    if call.completed then u
    else u.(byStream := if call.sid != 0 then u.byStream - {call.sid} else u.byStream,
            calls := u.calls - {id},
            done := u.done + [Done(id, code, payload)])
  }

  function NewCall(timer: bool, limit: nat): Call {
    Call(0, timer, NewDecoder(limit), false)
  }

  /** Submits a request; `sid` is what the session answered. */
  function CallNow(u: Unary, id: nat, timer: bool, sid: int, limit: nat): Unary {
    if sid < 0 then CompleteCall(u, id, NewCall(timer, limit), UNAVAILABLE, [])
    else u.(byStream := u.byStream[sid := id], calls := u.calls[id := NewCall(timer, limit).(sid := sid)])
  }

  function FailPending(u: Unary, code: int): Unary
    decreases |u.pending|
  {
    if u.pending == [] then u
    else
      var p := u.pending[0];
      FailPending(CompleteCall(u.(pending := u.pending[1..]), p.id, NewCall(p.timer, 0), code, []), code)
  }

  function StartPending(u: Unary, sids: seq<int>, limit: nat): Unary
    requires |sids| == |u.pending|
    decreases |u.pending|
  {
    if u.pending == [] then u
    else
      var p := u.pending[0];
      StartPending(CallNow(u.(pending := u.pending[1..]), p.id, p.timer, sids[0], limit), sids[1..], limit)
  }

  function UnaryHeaders(u: Unary, sid: int, status: Option<int>, http200: bool): Unary {
    if sid !in u.byStream || u.byStream[sid] !in u.calls then u
    else
      var id := u.byStream[sid];
      var call := u.calls[id];
      if status.Some? then
        CompleteCall(u, id, call, status.value, if call.decoder.messages != [] then call.decoder.messages[0] else [])
      else if !http200 then CompleteCall(u, id, call, UNAVAILABLE, [])
      else u
  }

  function UnaryData(u: Unary, sid: int, data: Bytes): Unary {
    if sid !in u.byStream || u.byStream[sid] !in u.calls || u.calls[u.byStream[sid]].completed || data == [] then u
    else
      var id := u.byStream[sid];
      var call := u.calls[id].(decoder := Feed(u.calls[id].decoder, data));
      var e := FeedError(u.calls[id].decoder, data);
      var v := u.(calls := u.calls[id := call]);
      if e.Some? then CompleteCall(v, id, call, Server.ErrorCode(e.value), []) else v
  }

  function UnaryClosed(u: Unary, sid: int): Unary {
    if sid !in u.byStream then u
    else
      var id := u.byStream[sid];
      var v := if id in u.calls && !u.calls[id].completed then CompleteCall(u, id, u.calls[id], UNAVAILABLE, []) else u;
      v.(byStream := v.byStream - {sid})
  }

  /** Ends a call with `code` by resetting its stream, which may report the close from inside the reset. */
  function ResetCall(u: Unary, id: nat, code: int, reentrant: bool): Unary {
    if id !in u.calls || u.calls[id].completed then u
    else
      var call := u.calls[id].(completed := true);
      var v := u.(calls := u.calls[id := call]);
      var w := if call.sid != 0 && reentrant then UnaryClosed(v, call.sid) else v;
      w.(byStream := if call.sid != 0 then w.byStream - {call.sid} else w.byStream,
         calls := w.calls - {id},
         done := w.done + [Done(id, code, [])])
  }

  /** A call's timer fires; for a call that still waits for the connection that has no effect but to spend it. */
  function UnaryTimeout(u: Unary, id: nat, reentrant: bool): Unary {
    if id in u.calls then ResetCall(u, id, DEADLINE_EXCEEDED, reentrant)
    else u.(pending := Disarm(u.pending, id))
  }

  function Disarm(pending: seq<PendingCall>, id: nat): (r: seq<PendingCall>)
    ensures |r| == |pending|
  {
    seq(|pending|, i requires 0 <= i < |pending| =>
      if pending[i].id == id then pending[i].(timer := false) else pending[i])
  }

  /** Smallest first, as the ordered map is walked. */
  ghost function Ascending(ids: set<nat>): (s: seq<nat>)
    ensures multiset(s) == multiset(ids)
  {
    if ids == {} then [] else
    var least := Least(ids);
    assert ids == {least} + (ids - {least});
    [least] + Ascending(ids - {least})
  }

  ghost function Least(ids: set<nat>): (least: nat)
    requires ids != {}
    ensures least in ids && forall i :: i in ids ==> least <= i
  {
    var x :| x in ids;
    if forall i :: i in ids ==> x <= i then x
    else
      var rest := ids - {x};
      var y :| y in ids && y < x;
      assert y in rest;
      var l := Least(rest);
      assert forall i :: i in ids ==> i == x || i in rest;
      if l <= x then l else x
  }

  ghost function LostCalls(ids: seq<nat>): (d: seq<Done>)
    ensures |d| == |ids|
  {
    seq(|ids|, i requires 0 <= i < |ids| => Done(ids[i], UNAVAILABLE, []))
  }

  /** The connection is lost: calls in the table fail, then waiting ones. */
  ghost function LoseCalls(u: Unary): Unary {
    FailPending(u.(calls := map[], byStream := map[], done := u.done + LostCalls(Ascending(LiveIds(u)))), UNAVAILABLE)
  }

  function LiveIds(u: Unary): set<nat> {
    set id | id in u.calls && !u.calls[id].completed
  }

  // ---- streams --------------------------------------------------------------------------------

  datatype PendingStream = PendingStream(id: nat, timed: bool, sending: Sending)

  datatype Streams = Streams(
    table: map<nat, Stream>,
    bySid: map<int, nat>,
    parked: seq<PendingStream>,
    begun: set<nat>,             // streams whose task ran
    past: map<nat, Stream>,      // streams that have left the table
    ended: set<int>)             // HTTP/2 streams that closed over a body not read to its end

  function NewStream(sending: Sending, limit: nat): Stream {
    Stream(0, false, NewDecoder(limit), false, false, sending, [])
  }

  function OpenStreamNow(s: Streams, p: PendingStream, sid: int, limit: nat): Streams {
    if sid < 0 then s.(past := s.past[p.id := CompleteStream(NewStream(p.sending, limit), UNAVAILABLE)])
    else s.(bySid := s.bySid[sid := p.id],
            table := s.table[p.id := NewStream(Pump(Seed(p.sending)), limit).(sid := sid, timer := p.timed)])
  }

  function StartParked(s: Streams, sids: seq<int>, limit: nat): Streams
    requires |sids| == |s.parked|
    decreases |s.parked|
  {
    if s.parked == [] then s
    else StartParked(OpenStreamNow(s.(parked := s.parked[1..]), s.parked[0], sids[0], limit), sids[1..], limit)
  }

  /** Replaces a stream, dropping it from the index once it is completed. */
  function Put(s: Streams, id: nat, st: Stream): Streams {
    s.(table := s.table[id := st], bySid := if st.completed && st.sid != 0 then s.bySid - {st.sid} else s.bySid)
  }

  function StreamHeaders(s: Streams, sid: int, status: Option<int>, http200: bool): Streams {
    if sid !in s.bySid || s.bySid[sid] !in s.table || s.table[s.bySid[sid]].completed then s
    else Put(s, s.bySid[sid], ReceiveHeaders(s.table[s.bySid[sid]], status, http200))
  }

  function StreamData(s: Streams, sid: int, data: Bytes): Streams {
    if sid !in s.bySid || s.bySid[sid] !in s.table || s.table[s.bySid[sid]].completed then s
    else Put(s, s.bySid[sid], ReceiveData(s.table[s.bySid[sid]], data))
  }

  function StreamClosed(s: Streams, sid: int): Streams {
    if sid !in s.bySid then s
    else
      var id := s.bySid[sid];
      var t := if id in s.table && !s.table[id].completed && !s.table[id].rstPending
               then Put(s, id, CompleteStream(s.table[id], UNAVAILABLE)) else s;
      t.(bySid := t.bySid - {sid})
  }

  /** The stream's deadline: it resets its own stream, which may report the close from inside the reset. */
  function StreamTimeout(s: Streams, id: nat, reentrant: bool): Streams {
    if id !in s.table || s.table[id].completed then s
    else
      var st := s.table[id].(rstPending := true);
      var a := s.(table := s.table[id := st]);
      var b := if st.sid != 0 && reentrant then StreamClosed(a, st.sid) else a;
      var c := b.(bySid := if st.sid != 0 then b.bySid - {st.sid} else b.bySid);
      var last := if id in c.table then CompleteStream(c.table[id], DEADLINE_EXCEEDED) else st;
      var d := if id in c.table then Put(c, id, last) else c;
      d.(table := d.table - {id}, past := d.past[id := last])
  }

  function ParkedAt(parked: seq<PendingStream>, id: nat): Option<nat> {
    if parked == [] then None
    else if parked[0].id == id then Some(0)
    else
      var r := ParkedAt(parked[1..], id);
      if r.Some? then Some(r.value + 1) else None
  }

  lemma ParkedAtValid(parked: seq<PendingStream>, id: nat)
    ensures ParkedAt(parked, id).Some? ==>
              ParkedAt(parked, id).value < |parked| && parked[ParkedAt(parked, id).value].id == id
  {
  }

  predicate Live(s: Streams, id: nat) {
    id in s.table && !s.table[id].completed
  }

  function WithSending(s: Streams, id: nat, sending: Sending): Streams
    requires id in s.table
  {
    s.(table := s.table[id := s.table[id].(sending := sending)])
  }

  function WithParked(s: Streams, k: nat, sending: Sending): Streams
    requires k < |s.parked|
  {
    s.(parked := s.parked[k := s.parked[k].(sending := sending)])
  }

  function SendOn(s: Streams, id: nat, framed: Bytes, close: bool): Streams {
    if Live(s, id) then WithSending(s, id, StreamSend(s.table[id].sending, framed, close))
    else
      var k := ParkedAt(s.parked, id);
      ParkedAtValid(s.parked, id);
      if k.Some? then WithParked(s, k.value, ParkSend(s.parked[k.value].sending, framed, close)) else s
  }

  function CloseSendOn(s: Streams, id: nat): Streams {
    if Live(s, id) then WithSending(s, id, StreamCloseSend(s.table[id].sending))
    else
      var k := ParkedAt(s.parked, id);
      ParkedAtValid(s.parked, id);
      if k.Some? then WithParked(s, k.value, ParkClose(s.parked[k.value].sending)) else s
  }

  /** The stream, wherever it is: in the table, or past. */
  predicate Known(s: Streams, id: nat) {
    id in s.table || id in s.past
  }

  function ViewOf(s: Streams, id: nat): Stream
    requires Known(s, id)
  {
    if id in s.table then s.table[id] else s.past[id]
  }

  /** The session notifies a body: its callback runs, whether or not the stream is still in the table. */
  function BodyConsumed(s: Streams, id: nat): Streams {
    if id in s.table then WithSending(s, id, Consumed(s.table[id].sending))
    else if id in s.past then s.(past := s.past[id := s.past[id].(sending := Consumed(s.past[id].sending))])
    else s
  }

  /** An HTTP/2 stream closed: the session drops its body, unless the notification is queued already. */
  function DropBody(s: Streams, sid: int, noted: bool): Streams {
    if noted then s else s.(ended := s.ended + {sid})
  }

  /** The stream's deadline, and what a close that its reset reports does to the body in flight. */
  function TimeoutAndDrop(s: Streams, id: nat, reentrant: bool, noted: bool): Streams {
    var t := StreamTimeout(s, id, reentrant);
    if id in s.table && !s.table[id].completed && reentrant then DropBody(t, s.table[id].sid, noted) else t
  }

  function PumpStream(s: Streams, id: nat): Streams {
    if !Live(s, id) then s else WithSending(s, id, Pump(s.table[id].sending))
  }

  /** The connection is lost: every stream in the table completes, and every parked one. */
  function LoseStreams(s: Streams): Streams {
    var failed := map id | id in s.table :: CompleteStream(s.table[id], UNAVAILABLE);
    LoseParked(s.(table := map[], bySid := map[], past := s.past + failed))
  }

  function LoseParked(s: Streams): Streams
    decreases |s.parked|
  {
    if s.parked == [] then s
    else LoseParked(s.(parked := s.parked[1..],
                       past := s.past[s.parked[0].id := CompleteStream(NewStream(NewSending(), 0), UNAVAILABLE)]))
  }

  // ---- the channel ----------------------------------------------------------------------------

  datatype Conn = Idle | Connecting | Ready | Broken

  /** The session exists exactly while the channel is ready. */
  datatype Channel = Channel(conn: Conn, lastSid: nat, limit: nat, unary: Unary, streams: Streams)

  function Init(limit: nat): Channel {
    Channel(Idle, 0, limit, Unary(map[], map[], [], {}, []), Streams(map[], map[], [], {}, map[], {}))
  }

  datatype Step =
    | CallStep(id: nat, timed: bool, sid: int)
    | CancelStep(id: nat, reentrant: bool)
    | TimeoutStep(id: nat, reentrant: bool)
    | OpenStep(id: nat, timed: bool, sid: int)
    | SendStep(id: nat, framed: Bytes, close: bool)
    | CloseSendStep(id: nat)
    | StreamTimeoutStep(id: nat, reentrant: bool, noted: bool)
    | ConsumedStep(id: nat)
    | PumpStep(id: nat)
    | ConnectedStep(callSids: seq<int>, streamSids: seq<int>)
    | ConnectFailedStep(code: int)
    | HeadersStep(sid: int, status: Option<int>, http200: bool)
    | DataStep(sid: int, data: Bytes)
    | ClosedStep(sid: int, noted: bool)
    | LostStep

  /** Stream ids the session answers with: refusals, or ids above every earlier one. */
  predicate FreshSids(last: nat, sids: seq<int>)
    decreases |sids|
  {
    sids == [] || (if sids[0] < 0 then FreshSids(last, sids[1..]) else sids[0] > last && FreshSids(sids[0], sids[1..]))
  }

  function LastSid(last: nat, sids: seq<int>): nat
    decreases |sids|
  {
    if sids == [] then last else LastSid(if sids[0] < 0 then last else sids[0], sids[1..])
  }

  predicate TimerArmed(u: Unary, id: nat) {
    (id in u.calls && u.calls[id].timer) || exists i :: 0 <= i < |u.pending| && u.pending[i] == PendingCall(id, true)
  }

  /** The session still has the stream's body in flight, or its notification. */
  predicate Held(ch: Channel, id: nat) {
    && ch.conn.Ready? && Known(ch.streams, id)
    && ViewOf(ch.streams, id).sending.inflight && ViewOf(ch.streams, id).sid !in ch.streams.ended
  }

  predicate Enabled(ch: Channel, step: Step) {
    match step
    case CallStep(id, _, sid) => id !in ch.unary.issued && id !in ch.streams.begun && FreshSids(ch.lastSid, [sid])
    case OpenStep(id, _, sid) => id !in ch.unary.issued && id !in ch.streams.begun && FreshSids(ch.lastSid, [sid])
    case TimeoutStep(id, _) => TimerArmed(ch.unary, id)
    case StreamTimeoutStep(id, _, _) => id in ch.streams.table && ch.streams.table[id].timer
    case ConsumedStep(id) => Held(ch, id)
    case ConnectedStep(a, b) =>
      ch.conn.Connecting? && |a| == |ch.unary.pending| && |b| == |ch.streams.parked| && FreshSids(ch.lastSid, a + b)
    case ConnectFailedStep(_) => ch.conn.Connecting?
    case HeadersStep(_, _, _) => ch.conn.Ready?
    case DataStep(_, _) => ch.conn.Ready?
    case ClosedStep(sid, _) => ch.conn.Ready? && 0 < sid <= ch.lastSid
    case LostStep => ch.conn.Ready?
    case CancelStep(_, _) => true
    case SendStep(_, _, _) => true
    case CloseSendStep(_) => true
    case PumpStep(_) => true
  }

  function IssueCall(ch: Channel, id: nat, timed: bool, sid: int): Channel {
    var u := ch.unary.(issued := ch.unary.issued + {id});
    match ch.conn
    case Ready => ch.(unary := CallNow(u, id, timed, sid, ch.limit), lastSid := LastSid(ch.lastSid, [sid]))
    case Broken => ch.(unary := CompleteCall(u, id, NewCall(timed, ch.limit), UNAVAILABLE, []))
    case _ => ch.(conn := Connecting, unary := u.(pending := u.pending + [PendingCall(id, timed)]))
  }

  function OpenStream(ch: Channel, id: nat, timed: bool, sid: int): Channel {
    var s := ch.streams.(begun := ch.streams.begun + {id});
    var p := PendingStream(id, timed, NewSending());
    match ch.conn
    case Ready => ch.(streams := OpenStreamNow(s, p, sid, ch.limit), lastSid := LastSid(ch.lastSid, [sid]))
    case Broken =>
      ch.(streams := s.(past := s.past[id := CompleteStream(NewStream(NewSending(), ch.limit), UNAVAILABLE)]))
    case _ => ch.(conn := Connecting, streams := s.(parked := s.parked + [p]))
  }

  ghost function Apply(ch: Channel, step: Step): Channel {
    if !Enabled(ch, step) then ch else
    match step
    case CallStep(id, timed, sid) => IssueCall(ch, id, timed, sid)
    case CancelStep(id, r) => ch.(unary := ResetCall(ch.unary, id, UNAVAILABLE, r))
    case TimeoutStep(id, r) => ch.(unary := UnaryTimeout(ch.unary, id, r))
    case OpenStep(id, timed, sid) => OpenStream(ch, id, timed, sid)
    case SendStep(id, framed, close) => ch.(streams := SendOn(ch.streams, id, framed, close))
    case CloseSendStep(id) => ch.(streams := CloseSendOn(ch.streams, id))
    case StreamTimeoutStep(id, r, noted) => ch.(streams := TimeoutAndDrop(ch.streams, id, r, noted))
    case ConsumedStep(id) => ch.(streams := BodyConsumed(ch.streams, id))
    case PumpStep(id) => ch.(streams := PumpStream(ch.streams, id))
    case ConnectedStep(a, b) =>
      ch.(conn := Ready, lastSid := LastSid(ch.lastSid, a + b),
          unary := StartPending(ch.unary, a, ch.limit), streams := StartParked(ch.streams, b, ch.limit))
    case ConnectFailedStep(code) => ch.(conn := Broken, unary := FailPending(ch.unary, code))
    case HeadersStep(sid, status, http200) =>
      if sid in ch.streams.bySid then ch.(streams := StreamHeaders(ch.streams, sid, status, http200))
      else ch.(unary := UnaryHeaders(ch.unary, sid, status, http200))
    case DataStep(sid, data) =>
      if sid in ch.streams.bySid then ch.(streams := StreamData(ch.streams, sid, data))
      else ch.(unary := UnaryData(ch.unary, sid, data))
    case ClosedStep(sid, noted) =>
      ch.(streams := DropBody(StreamClosed(ch.streams, sid), sid, noted), unary := UnaryClosed(ch.unary, sid))
    case LostStep =>
      ch.(conn := Broken, unary := LoseCalls(ch.unary), streams := LoseStreams(ch.streams))
  }

  ghost function Run(ch: Channel, steps: seq<Step>): Channel
    decreases |steps|
  {
    if steps == [] then ch else Run(Apply(ch, steps[0]), steps[1..])
  }
}
