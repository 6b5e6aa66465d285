/**
 What the steps of a channel do for the messages a caller sends on one of its streams: which are
 submitted, what each callback is told, and whether the stream has a deadline.
 */
module ChannelSends {
  import opened Codec
  import opened ClientStream
  import opened ChannelStreams
  import opened ChannelView
  import opened ChannelStatus
  import opened Channel

  // ---- what callbacks are told ----------------------------------------------------------------

  /** The sends whose messages wait, in order. */
  function SendsOf(q: seq<OutMsg>): seq<nat> {
    if q == [] then []
    else
      var m := q[|q| - 1];
      SendsOf(q[..|q| - 1]) + if m.send.Some? then [m.send.value] else []
  }

  function AllTold(sends: seq<nat>, code: int): (f: seq<Flush>)
    ensures |f| == |sends|
  {
    seq(|sends|, i requires 0 <= i < |sends| => Flush(sends[i], code))
  }

  lemma {:induction false} SendsCons(m: OutMsg, q: seq<OutMsg>)
    ensures SendsOf([m] + q) == (if m.send.Some? then [m.send.value] else []) + SendsOf(q)
    decreases |q|
  {
    var all := [m] + q;
    if q == [] {
      assert all[..0] == [];
    } else {
      assert all[..|q|] == [m] + q[..|q| - 1];
      SendsCons(m, q[..|q| - 1]);
    }
  }

  /** Dropped messages: each callback is told the status, in order. */
  lemma {:induction false} DroppedTold(q: seq<OutMsg>, code: int)
    ensures Answers(q, code) == AllTold(SendsOf(q), code)
    decreases |q|
  {
    if q != [] {
      DroppedTold(q[1..], code);
      assert q == [q[0]] + q[1..];
      SendsCons(q[0], q[1..]);
      hide SendsOf;
    }
  }

  /** What a step tells the callbacks of the sends on stream `id`. */
  function Tells(st: Stream, id: nat, held: bool, step: Step): seq<Flush> {
    var s := st.sending;
    match step
    case SendStep(i, _, _) =>
      if i != id || st.completed then []
      else if s.closed then [Flush(s.sends, 13)]
      else if |s.queue| >= 64 then [Flush(s.sends, 8)]
      else []
    case ConsumedStep(i) => if i == id && held && s.body.Some? then [Flush(s.body.value, 0)] else []
    case _ =>
      var end := StepEnds(st, id, step);
      if !st.completed && end.Some? then AllTold(SendsOf(s.queue), end.value) else []
  }

  lemma EventDrops(st: Stream, id: nat, held: bool, step: Step)
    requires step.StreamTimeoutStep? || step.HeadersStep? || step.DataStep? || step.ClosedStep? || step.LostStep?
    ensures var end := StepEnds(st, id, step);
            ViewStep(st, id, held, step).sending ==
              if !st.completed && end.Some? then DropQueue(st.sending, end.value) else st.sending
    ensures ViewStep(st, id, held, step).completed <==> st.completed || StepEnds(st, id, step).Some?
  {
    hide Feed, FeedError, DropQueue;
  }

  lemma EventTells(st: Stream, id: nat, held: bool, step: Step)
    requires step.StreamTimeoutStep? || step.HeadersStep? || step.DataStep? || step.ClosedStep? || step.LostStep?
    ensures ViewStep(st, id, held, step).sending.flushed == st.sending.flushed + Tells(st, id, held, step)
    ensures ViewStep(st, id, held, step).sending.sent == st.sending.sent
    ensures !ViewStep(st, id, held, step).completed ==> ViewStep(st, id, held, step).sending == st.sending
  {
    hide SendsOf, Answers, AllTold, ViewStep, StepEnds;
    assert st.sending.flushed + [] == st.sending.flushed;
    EventDrops(st, id, held, step);
    var end := StepEnds(st, id, step);
    if end.Some? { DroppedTold(st.sending.queue, end.value); }
  }

  lemma SendTells(st: Stream, id: nat, held: bool, step: Step)
    requires !(step.StreamTimeoutStep? || step.HeadersStep? || step.DataStep? || step.ClosedStep? || step.LostStep?)
    ensures ViewStep(st, id, held, step).sending.flushed == st.sending.flushed + Tells(st, id, held, step)
  {
    assert st.sending.flushed + [] == st.sending.flushed;
  }

  // ---- what is submitted ----------------------------------------------------------------------

  /** A StreamSend that is taken. */
  predicate Taken(st: Stream, id: nat, step: Step) {
    step.SendStep? && step.id == id && !st.completed && !st.sending.closed && |st.sending.queue| < 64
  }

  /** A half-close that finds the request side open. */
  predicate Closes(st: Stream, id: nat, step: Step) {
    step.CloseSendStep? && step.id == id && !st.completed && !st.sending.closed
  }

  /** All messages of the stream, submitted and queued, after the step. */
  function NextLine(st: Stream, id: nat, step: Step): seq<OutMsg> {
    var s := st.sending;
    if Taken(st, id, step) then Line(s) + [OutMsg(step.framed, step.close, Some(s.sends))]
    else if Closes(st, id, step) && s.queue == [] then Line(s) + [OutMsg([], true, None)]
    else if Closes(st, id, step) then
      var m := s.queue[|s.queue| - 1];
      Line(s)[..|Line(s)| - 1] + [OutMsg(m.framed, true, m.send)]
    else Line(s)
  }

  /** How many of them are submitted: one more if the step lets the next one go, or closes with an empty DATA. */
  function NextSent(st: Stream, id: nat, step: Step): nat {
    var s := st.sending;
    var goes := Taken(st, id, step) || (step.PumpStep? && step.id == id && !st.completed && s.queue != []);
    |s.sent| + if (goes && !s.inflight) || (Closes(st, id, step) && s.queue == []) then 1 else 0
  }

  predicate Advances(st: Stream, id: nat, step: Step, t: Stream) {
    && (!t.completed ==> Line(t.sending) == NextLine(st, id, step))
    && |t.sending.sent| == NextSent(st, id, step) && t.sending.sent <= NextLine(st, id, step)
    && (|t.sending.sent| > |st.sending.sent| && !Closes(st, id, step) ==>
          t.sending.inflight && t.sending.body == t.sending.sent[|st.sending.sent|].send)
  }

  lemma PumpAdvances(s: Sending)
    ensures Line(Pump(s)) == Line(s) && Pump(s).sent <= Line(s)
    ensures |Pump(s).sent| == |s.sent| + if !s.inflight && s.queue != [] then 1 else 0
    ensures |Pump(s).sent| > |s.sent| ==> Pump(s).inflight && Pump(s).body == Pump(s).sent[|s.sent|].send
  {
    if s.queue != [] { assert s.sent + [s.queue[0]] + s.queue[1..] == s.sent + s.queue; }
  }

  lemma SendAdvances(st: Stream, id: nat, held: bool, step: Step)
    requires step.SendStep?
    ensures Advances(st, id, step, ViewStep(st, id, held, step))
  {
    hide StreamSend;
    SendLine(st.sending, step.framed, step.close);
  }

  lemma SendLine(s: Sending, framed: Bytes, close: bool)
    ensures var t := StreamSend(s, framed, close);
            if !s.closed && |s.queue| < 64 then
              && Line(t) == Line(s) + [OutMsg(framed, close, Some(s.sends))] && t.sent <= Line(t)
              && |t.sent| == |s.sent| + (if s.inflight then 0 else 1)
              && (!s.inflight ==> t.inflight && t.body == t.sent[|s.sent|].send)
            else t.sent == s.sent && Line(t) == Line(s)
  {
    hide Pump;
    PumpAdvances(Enqueue(s, framed, close));
    Assoc(s.sent, s.queue, [OutMsg(framed, close, Some(s.sends))]);
  }

  lemma NextAdvances(st: Stream, id: nat, held: bool, step: Step)
    requires step.PumpStep?
    ensures Advances(st, id, step, ViewStep(st, id, held, step))
  {
    hide Pump;
    PumpAdvances(st.sending);
  }

  lemma CloseAdvances(st: Stream, id: nat, held: bool, step: Step)
    requires step.CloseSendStep?
    ensures Advances(st, id, step, ViewStep(st, id, held, step))
  {
    var s := st.sending;
    if s.queue == [] {
      assert s.sent + [OutMsg([], true, None)] + [] == Line(s) + [OutMsg([], true, None)];
    } else {
      MarkInLine(s.sent, s.queue);
    }
  }

  lemma RestAdvances(st: Stream, id: nat, held: bool, step: Step)
    requires !step.SendStep? && !step.PumpStep? && !step.CloseSendStep?
    ensures Advances(st, id, step, ViewStep(st, id, held, step))
  {
    if step.StreamTimeoutStep? || step.HeadersStep? || step.DataStep? || step.ClosedStep? || step.LostStep? {
      EventTells(st, id, held, step);
      hide ViewStep;
    }
  }

  /**
   In every reachable channel, every step, for every stream: the callbacks are told exactly what the
   table says, so that a send dropped by the end of its stream hears the status of that end; and the
   line of messages grows, is closed and is submitted exactly as the table says.
   */
  lemma StepSends(limit: nat, before: seq<Step>, id: nat, step: Step)
    requires Known(Run(Init(limit), before).streams, id)
    ensures var ch := Run(Init(limit), before);
            Known(Apply(ch, step).streams, id)
            && var st, t := ViewOf(ch.streams, id), ViewOf(Apply(ch, step).streams, id);
               && t.sending.flushed == st.sending.flushed + Tells(st, id, Held(ch, id), step)
               && Advances(st, id, step, t)
  {
    hide Run, Apply, ChannelInv, ViewStep, Tells, Advances;
    var ch := Run(Init(limit), before);
    RunOk(limit, before);
    StepView(ch, id, step);
    var st, held := ViewOf(ch.streams, id), Held(ch, id);
    if step.StreamTimeoutStep? || step.HeadersStep? || step.DataStep? || step.ClosedStep? || step.LostStep? {
      EventTells(st, id, held, step);
    } else {
      SendTells(st, id, held, step);
    }
    if step.SendStep? {
      SendAdvances(st, id, held, step);
    } else if step.PumpStep? {
      NextAdvances(st, id, held, step);
    } else if step.CloseSendStep? {
      CloseAdvances(st, id, held, step);
    } else {
      RestAdvances(st, id, held, step);
    }
  }

  // ---- streams that wait ----------------------------------------------------------------------

  /** The messages of a waiting stream after a half-close. */
  function Ended(q: seq<OutMsg>): seq<OutMsg> {
    if q == [] then [OutMsg([], true, None)]
    else q[..|q| - 1] + [OutMsg(q[|q| - 1].framed, true, q[|q| - 1].send)]
  }

  /** `g` is the sending side of the stream at place `k` of those that wait; nothing else changed. */
  predicate OnlyAt(s: Streams, k: nat, g: Sending, t: Streams) {
    k < |s.parked| && t == s.(parked := s.parked[k := PendingStream(s.parked[k].id, s.parked[k].timed, g)])
  }

  lemma {:induction false} FoundAt(parked: seq<PendingStream>, id: nat, k: nat)
    requires k < |parked| && parked[k].id == id && forall j :: 0 <= j < k ==> parked[j].id != id
    ensures ParkedAt(parked, id) == Some(k)
    decreases |parked|
  {
    if k > 0 { FoundAt(parked[1..], id, k - 1); }
  }

  /**
   On a stream that waits for the connection: a send with room is queued behind the others, one without
   is told RESOURCE_EXHAUSTED, and a half-close rides on the last message or on an empty one of its own.
   */
  lemma ParkedSends(s: Streams, id: nat, k: nat, framed: Bytes, close: bool)
    requires k < |s.parked| && s.parked[k].id == id && !Live(s, id)
    requires forall j :: 0 <= j < k ==> s.parked[j].id != id
    ensures var g, t := s.parked[k].sending, SendOn(s, id, framed, close);
            && k < |t.parked| && OnlyAt(s, k, t.parked[k].sending, t)
            && var h := t.parked[k].sending;
               if |g.queue| < 64
               then h.queue == g.queue + [OutMsg(framed, close, Some(g.sends))] && h.flushed == g.flushed
               else h.queue == g.queue && h.flushed == g.flushed + [Flush(g.sends, 8)]
    ensures var g, t := s.parked[k].sending, CloseSendOn(s, id);
            k < |t.parked| && OnlyAt(s, k, t.parked[k].sending, t) && t.parked[k].sending.queue == Ended(g.queue)
  {
    FoundAt(s.parked, id, k);
    hide ParkedAt;
  }

  /**
   When a stream that waited is opened, its messages make up its line, closed at the end if any of them
   asked for that, and the first goes out at once; when opening it is refused, it ends as UNAVAILABLE
   and every waiting send hears that.
   */
  lemma OpeningSends(s: Streams, p: PendingStream, sid: int, limit: nat)
    requires ParkedOk(p)
    ensures var q, t := p.sending.queue, OpenStreamNow(s, p, sid, limit);
            if sid < 0 then
              && p.id in t.past && t.past[p.id].completed && t.past[p.id].events == [Complete(14)]
              && t.past[p.id].sending.flushed == p.sending.flushed + AllTold(SendsOf(q), 14)
            else
              && p.id in t.table && t.table[p.id].sid == sid && t.table[p.id].timer == p.timed
              && t.table[p.id].events == [] && !t.table[p.id].completed
              && Line(t.table[p.id].sending) == (if HasClose(q) then Ended(q) else q)
              && |t.table[p.id].sending.sent| == if q == [] then 0 else 1
  {
    DroppedTold(p.sending.queue, 14);
    PumpAdvances(Seed(p.sending));
    SeedEnds(p.sending);
    hide Pump, Seed, SendsOf, Answers, AllTold, HasClose, SendInv;
    var g := Seed(p.sending);
    assert g.sent == [] && !g.inflight && Line(g) == g.queue;
    assert [] + [Complete(14)] == [Complete(14)];
  }

  lemma SeedEnds(g: Sending)
    ensures Seed(g) == g.(queue := if HasClose(g.queue) then Ended(g.queue) else g.queue)
    ensures Seed(g).queue == [] <==> g.queue == []
  {
    if HasClose(g.queue) {
      var q := g.queue;
      assert q == q[..|q| - 1] + [q[|q| - 1]];
    }
  }

  /** A stream opened on a broken channel, or refused by the session, ends as UNAVAILABLE at once. */
  lemma RefusedAtOnce(ch: Channel, id: nat, timed: bool, sid: int)
    requires Enabled(ch, OpenStep(id, timed, sid)) && (ch.conn.Broken? || (ch.conn.Ready? && sid < 0))
    ensures var t := Apply(ch, OpenStep(id, timed, sid));
            id in t.streams.past && t.streams.past[id].completed && t.streams.past[id].events == [Complete(14)]
  {
  }
}
