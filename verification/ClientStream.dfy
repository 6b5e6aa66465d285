/**
 One streaming call on the client: what its callbacks see and what it submits. The channel holds a
 table of these.
 */
module ClientStream {
  import opened Codec
  import opened StatusCodes
  import Server

  const QUEUE_BOUND := 64

  datatype Event = Message(payload: Bytes) | Complete(code: int)

  /** `send` is the StreamSend call whose callback the message carries; close markers carry none. */
  datatype OutMsg = OutMsg(framed: Bytes, close: bool, send: Option<nat>)

  /** An on_flushed callback that ran. */
  datatype Flush = Flush(send: nat, code: int)

  datatype Sending = Sending(
    closed: bool,             // END_STREAM was submitted
    queue: seq<OutMsg>,
    inflight: bool,
    body: Option<nat>,        // the callback of the body in flight
    sends: nat,               // StreamSend calls so far on this stream
    flushed: seq<Flush>,
    accepted: seq<Bytes>,     // message bodies taken for sending, and empty close markers, in order
    sent: seq<OutMsg>,        // submitted
    asked: bool,              // the caller asked to half-close
    late: bool)               // and a later message was still taken

  datatype Stream = Stream(
    sid: int,
    timer: bool,
    decoder: Decoder,
    completed: bool,
    rstPending: bool,
    sending: Sending,
    events: seq<Event>)

  function NewSending(): Sending {
    Sending(false, [], false, None, 0, [], [], [], false, false)
  }

  // ---- receiving ------------------------------------------------------------------------------

  /** The callbacks of the messages, answered with `code`, in order. */
  function Answers(q: seq<OutMsg>, code: int): seq<Flush> {
    if q == [] then []
    else (if q[0].send.Some? then [Flush(q[0].send.value, code)] else []) + Answers(q[1..], code)
  }

  /** Still-queued messages are dropped, and their callbacks told so. */
  function DropQueue(s: Sending, code: int): Sending {
    s.(queue := [], flushed := s.flushed + Answers(s.queue, code))
  }

  /** The terminal event. */
  function CompleteStream(st: Stream, code: int): Stream {
    if st.completed then st
    else st.(completed := true, timer := false, sending := DropQueue(st.sending, code),
             events := st.events + [Complete(code)])
  }

  function Messages(msgs: seq<Bytes>): (e: seq<Event>)
    ensures |e| == |msgs|
  {
    seq(|msgs|, i requires 0 <= i < |msgs| => Message(msgs[i]))
  }

  /** DATA for a stream: every message decoded so far is delivered, unless the bytes are bad. */
  function ReceiveData(st: Stream, data: Bytes): Stream {
    if st.completed || data == [] then st
    else
      var d := Feed(st.decoder, data);
      var e := FeedError(st.decoder, data);
      if e.Some? then CompleteStream(st.(decoder := d), Server.ErrorCode(e.value))
      else st.(decoder := d.(messages := [], count := d.count + |d.messages|),
               events := st.events + Messages(d.messages))
  }

  /** A header block: trailers carry a status, initial headers must be HTTP 200. */
  function ReceiveHeaders(st: Stream, status: Option<int>, http200: bool): Stream {
    if st.completed then st
    else if status.Some? then CompleteStream(st, status.value)
    else if !http200 then CompleteStream(st, UNAVAILABLE)
    else st
  }

  // ---- sending --------------------------------------------------------------------------------

  function Pump(s: Sending): Sending {
    if s.inflight || s.queue == [] then s
    else s.(queue := s.queue[1..], inflight := true, body := s.queue[0].send, closed := s.closed || s.queue[0].close,
            sent := s.sent + [s.queue[0]])
  }

  /** The session took the whole body in flight, and its callback runs. */
  function Consumed(s: Sending): Sending {
    s.(inflight := false, body := None,
       flushed := if s.body.Some? then s.flushed + [Flush(s.body.value, OK)] else s.flushed)
  }

  /** A StreamSend call that is refused hears so at once. */
  function Refuse(s: Sending, code: int): Sending {
    s.(sends := s.sends + 1, flushed := s.flushed + [Flush(s.sends, code)])
  }

  /** Taking a message; `close` asks for END_STREAM on it. */
  function Enqueue(s: Sending, framed: Bytes, close: bool): Sending {
    s.(queue := s.queue + [OutMsg(framed, close, Some(s.sends))], sends := s.sends + 1,
       accepted := s.accepted + [framed], asked := s.asked || close, late := s.late || s.asked)
  }

  function StreamSend(s: Sending, framed: Bytes, close: bool): Sending {
    if s.closed then Refuse(s, INTERNAL)
    else if |s.queue| >= QUEUE_BOUND then Refuse(s, RESOURCE_EXHAUSTED)
    else Pump(Enqueue(s, framed, close))
  }

  predicate HasClose(q: seq<OutMsg>) {
    exists i :: 0 <= i < |q| && q[i].close
  }

  function MarkLast(q: seq<OutMsg>): seq<OutMsg>
    requires q != []
  {
    q[..|q| - 1] + [q[|q| - 1].(close := true)]
  }

  /** Half-close: on the last queued message, or with an empty DATA of its own. */
  function StreamCloseSend(s: Sending): Sending {
    if s.closed then s
    else if s.queue == [] then
      s.(closed := true, accepted := s.accepted + [[]], sent := s.sent + [OutMsg([], true, None)], asked := true)
    else s.(queue := MarkLast(s.queue), asked := true)
  }

  /** The same two operations on a stream that waits for its connection. */
  function ParkSend(s: Sending, framed: Bytes, close: bool): Sending {
    if |s.queue| >= QUEUE_BOUND then Refuse(s, RESOURCE_EXHAUSTED) else Enqueue(s, framed, close)
  }

  function ParkClose(s: Sending): Sending {
    if s.queue == [] then s.(queue := [OutMsg([], true, None)], accepted := s.accepted + [[]], asked := true)
    else s.(queue := MarkLast(s.queue), asked := true)
  }

  /** Opening a parked stream: a close among the parked messages moves to the last of them as well. */
  function Seed(s: Sending): Sending {
    if HasClose(s.queue) && !s.queue[|s.queue| - 1].close
    then s.(queue := MarkLast(s.queue)) else s
  }

  // ---- what holds of a stream -----------------------------------------------------------------

  /** Messages, then at most one completion. */
  predicate TraceInv(st: Stream) {
    && (forall i :: 0 <= i < |st.events| - 1 ==> st.events[i].Message?)
    && (st.completed <==> st.events != [] && st.events[|st.events| - 1].Complete?)
  }

  function Bodies(q: seq<OutMsg>): (b: seq<Bytes>)
    ensures |b| == |q|
  {
    seq(|q|, i requires 0 <= i < |q| => q[i].framed)
  }

  /** Everything submitted, then everything queued. */
  function Line(s: Sending): seq<OutMsg> {
    s.sent + s.queue
  }

  /** No message follows one that carries END_STREAM. */
  predicate CloseIsLast(q: seq<OutMsg>) {
    forall i :: 0 <= i < |q| - 1 ==> !q[i].close
  }

  /** The line is what the caller handed over, and END_STREAM ends it unless a message came later. */
  predicate LineInv(line: seq<OutMsg>, accepted: seq<Bytes>, asked: bool, late: bool) {
    && Bodies(line) == accepted
    && (asked <==> HasClose(line))
    && (late <==> !CloseIsLast(line))
  }

  predicate SendInv(s: Sending) {
    && LineInv(Line(s), s.accepted, s.asked, s.late)
    && |s.queue| <= QUEUE_BOUND
    && (s.closed <==> HasClose(s.sent))
  }

  lemma LineAppend(line: seq<OutMsg>, accepted: seq<Bytes>, asked: bool, late: bool, m: OutMsg)
    requires LineInv(line, accepted, asked, late)
    ensures LineInv(line + [m], accepted + [m.framed], asked || m.close, late || asked)
  {
    var l := line + [m];
    assert forall i :: 0 <= i < |line| ==> l[i] == line[i];
    assert l[|line|] == m;
    if asked {
      var i :| 0 <= i < |line| && line[i].close;
      assert l[i].close;
    }
    if m.close { assert l[|line|].close; }
    if HasClose(l) && !m.close {
      var i :| 0 <= i < |l| && l[i].close;
      assert line[i].close;
    }
    if !CloseIsLast(l) {
      var i :| 0 <= i < |l| - 1 && l[i].close;
      assert line[i].close;
    }
  }

  lemma LineMark(line: seq<OutMsg>, accepted: seq<Bytes>, asked: bool, late: bool)
    requires LineInv(line, accepted, asked, late) && line != []
    ensures LineInv(MarkLast(line), accepted, true, late)
  {
    var l := MarkLast(line);
    assert forall i :: 0 <= i < |l| - 1 ==> l[i] == line[i];
    assert l[|l| - 1].close;
  }

  lemma MarkInLine(sent: seq<OutMsg>, queue: seq<OutMsg>)
    requires queue != []
    ensures sent + MarkLast(queue) == MarkLast(sent + queue)
  {
  }

  lemma PumpKeeps(s: Sending)
    requires SendInv(s)
    ensures SendInv(Pump(s)) && Line(Pump(s)) == Line(s)
  {
    if !s.inflight && s.queue != [] {
      var m, t := s.queue[0], Pump(s);
      assert s.sent + [m] + s.queue[1..] == s.sent + s.queue;
      if s.closed {
        var i :| 0 <= i < |s.sent| && s.sent[i].close;
        assert t.sent[i].close;
      }
      if m.close { assert t.sent[|s.sent|].close; }
      if HasClose(t.sent) && !m.close {
        var i :| 0 <= i < |t.sent| && t.sent[i].close;
        assert s.sent[i].close;
      }
    }
  }

  lemma EnqueueKeeps(s: Sending, framed: Bytes, close: bool)
    requires SendInv(s) && |s.queue| < QUEUE_BOUND
    ensures SendInv(Enqueue(s, framed, close))
  {
    hide LineInv;
    var m := OutMsg(framed, close, Some(s.sends));
    LineAppend(Line(s), s.accepted, s.asked, s.late, m);
    Assoc(s.sent, s.queue, [m]);
  }

  lemma CloseSendKeeps(s: Sending)
    requires SendInv(s)
    ensures SendInv(StreamCloseSend(s))
  {
    if !s.closed && s.queue == [] {
      var marker := OutMsg([], true, None);
      assert !s.asked by { assert Line(s) == s.sent; }
      LineAppend(Line(s), s.accepted, s.asked, s.late, marker);
      assert s.sent + [marker] + [] == Line(s) + [marker];
      assert (s.sent + [marker])[|s.sent|].close;
    } else if !s.closed {
      hide LineInv;
      LineMark(Line(s), s.accepted, s.asked, s.late);
      MarkInLine(s.sent, s.queue);
    }
  }

  lemma ParkCloseKeeps(s: Sending)
    requires SendInv(s) && s.sent == []
    ensures SendInv(ParkClose(s))
  {
    if s.queue == [] {
      LineAppend(Line(s), s.accepted, s.asked, s.late, OutMsg([], true, None));
    } else {
      hide LineInv;
      LineMark(Line(s), s.accepted, s.asked, s.late);
      MarkInLine(s.sent, s.queue);
    }
  }

  lemma SeedKeeps(s: Sending)
    requires SendInv(s) && s.sent == []
    ensures SendInv(Seed(s)) && Seed(s).sent == []
  {
    if HasClose(s.queue) && !s.queue[|s.queue| - 1].close {
      assert Line(s) == s.queue;
      LineMark(Line(s), s.accepted, s.asked, s.late);
      MarkInLine(s.sent, s.queue);
    }
  }

  lemma SendKeeps(s: Sending, framed: Bytes, close: bool)
    requires SendInv(s)
    ensures SendInv(StreamSend(s, framed, close))
  {
    if !s.closed && |s.queue| < QUEUE_BOUND {
      EnqueueKeeps(s, framed, close);
      PumpKeeps(Enqueue(s, framed, close));
    }
  }

  /**
   Half-close, exactly: END_STREAM is submitted at most once and on the last submission of the
   stream, with nothing left queued, if and only if the caller had no message taken after closing.
   */
  lemma EndStreamExactly(s: Sending)
    requires SendInv(s)
    ensures CloseIsLast(Line(s)) <==> !s.late
    ensures !s.late && s.closed ==> s.queue == [] && s.sent[|s.sent| - 1].close && CloseIsLast(s.sent)
  {
    var l := Line(s);
    if !s.late && s.closed {
      var i :| 0 <= i < |s.sent| && s.sent[i].close;
      assert l[i].close;
      assert i == |l| - 1;
      forall k | 0 <= k < |s.sent| - 1 ensures !s.sent[k].close { assert l[k] == s.sent[k]; }
    }
  }

  // ---- receiving keeps the trace --------------------------------------------------------------

  lemma CompleteKeeps(st: Stream, code: int)
    requires TraceInv(st)
    ensures TraceInv(CompleteStream(st, code)) && CompleteStream(st, code).completed
  {
  }

  lemma ReceiveKeeps(st: Stream, data: Bytes, status: Option<int>, http200: bool)
    requires TraceInv(st)
    ensures TraceInv(ReceiveData(st, data)) && TraceInv(ReceiveHeaders(st, status, http200))
  {
    hide Feed, FeedError;
  }
}
