/** Runs that reach the states in which a channel does less than its comments say. */
module ChannelWitnesses {
  import opened Codec
  import opened StatusCodes
  import opened ClientStream
  import opened Channel
  import opened ChannelStreams
  import opened ChannelImpl
  import ChannelCalls
  import ChannelDeadlines
  import ChannelFlushes
  import ChannelView
  import SendAnswers

  /** A stream is opened, the connection cannot be made: the stream never completes. */
  lemma StrandedStreamHappens() returns (ch: Channel)
    ensures Reachable(ch) && ch.conn.Broken? && ch.streams.begun == {1} && ch.streams.past == map[]
    ensures forall after :: ParkedIds(Run(ch, after).streams.parked) == [1]
  {
    InitReachable(0);
    hide Reachable, Run;
    var c0 := Init(0);
    assert [-1][1..] == [];
    var c1 := OpenStream(c0, 1, false, -1);
    StepReachable(c0, OpenStep(1, false, -1));
    ch := c1.(conn := Broken);
    StepReachable(c1, ConnectFailedStep(UNAVAILABLE));
    assert ParkedIds(ch.streams.parked) == [1];
    forall after ensures ParkedIds(Run(ch, after).streams.parked) == [1] { BrokenIsFinal(ch, after); }
  }

  /** A call with a deadline, whose timer fires before the connection stands: it never has one again. */
  lemma SpentDeadlineHappens() returns (ch: Channel)
    ensures Reachable(ch) && ch.unary.pending == [PendingCall(1, false)] && ch.unary.done == []
    ensures forall after :: !TimerArmed(Run(ch, after).unary, 1)
  {
    InitReachable(0);
    ChannelCalls.InitKeeps(0);
    hide Reachable, Run;
    var c0 := Init(0);
    assert [-1][1..] == [];
    var c1 := IssueCall(c0, 1, true, -1);
    StepReachable(c0, CallStep(1, true, -1));
    ChannelCalls.CallsStep(c0, CallStep(1, true, -1));
    hide ChannelCalls.CallsInv;
    assert c1.unary.pending[0] == PendingCall(1, true);
    assert TimerArmed(c1.unary, 1);
    StepReachable(c1, TimeoutStep(1, false));
    ch := Apply(c1, TimeoutStep(1, false));
    assert ch.unary.pending == [PendingCall(1, false)];
    ChannelDeadlines.CallDeadlineExactly(c1, 1, false);
  }

  /** A message taken after a close that still waits in the queue follows END_STREAM. */
  lemma LateMessageFollowsEnd(g: Sending) returns (h: Sending)
    requires g == NewSending()
    ensures h.sent == [OutMsg([], false, Some(0)), OutMsg([], true, Some(1)), OutMsg([], false, Some(2))] && h.late
    ensures h == Pump(Consumed(Pump(Consumed(StreamSend(StreamSend(StreamSend(g, [], false), [], true), [], false)))))
  {
    var a := StreamSend(g, [], false);
    var b := StreamSend(a, [], true);
    var c := StreamSend(b, [], false);
    assert c.queue == [OutMsg([], true, Some(1)), OutMsg([], false, Some(2))];
    var d := Pump(Consumed(c));
    h := Pump(Consumed(d));
  }

  lemma OnStream(ch: Channel, step: Step, g: Sending) returns (t: Channel)
    requires Reachable(ch) && ch.conn.Ready? && Live(ch.streams, 1) && ch.streams.ended == {}
    requires var s := ch.streams.table[1].sending;
             match step
             case SendStep(id, framed, close) => id == 1 && g == StreamSend(s, framed, close)
             case ConsumedStep(id) => id == 1 && s.inflight && g == Consumed(s)
             case PumpStep(id) => id == 1 && g == Pump(s)
             case _ => false
    ensures Reachable(t) && t.conn.Ready? && Live(t.streams, 1) && t.streams.table[1].sending == g
    ensures t.streams.ended == {} && t.lastSid == ch.lastSid && t.streams.table[1].sid == ch.streams.table[1].sid
  {
    StepReachable(ch, step);
    hide Reachable, StreamSend, Consumed, Pump;
    t := Apply(ch, step);
  }

  /** And a channel gets there: END_STREAM is not on the last submission of its stream. */
  lemma MessageAfterEndHappens() returns (ch: Channel)
    ensures Reachable(ch) && Live(ch.streams, 1)
    ensures var sent := ch.streams.table[1].sending.sent; |sent| == 3 && sent[1].close && !CloseIsLast(sent)
  {
    var c := OpenedStream();
    hide Reachable;
    var g0 := NewSending();
    var h := LateMessageFollowsEnd(g0);
    var g1 := StreamSend(g0, [], false);
    var g2 := StreamSend(g1, [], true);
    var g3 := StreamSend(g2, [], false);
    assert g3.inflight && Pump(Consumed(g3)).inflight;
    hide StreamSend, Consumed, Pump;
    c := OnStream(c, SendStep(1, [], false), g1);
    c := OnStream(c, SendStep(1, [], true), g2);
    c := OnStream(c, SendStep(1, [], false), g3);
    c := OnStream(c, ConsumedStep(1), Consumed(g3));
    c := OnStream(c, PumpStep(1), Pump(Consumed(g3)));
    c := OnStream(c, ConsumedStep(1), Consumed(Pump(Consumed(g3))));
    ch := OnStream(c, PumpStep(1), h);
    assert h.sent[1].close;
  }

  lemma OpenedStream() returns (ch: Channel)
    ensures Reachable(ch) && ch.conn.Ready? && Live(ch.streams, 1) && ch.streams.table[1].sending == NewSending()
    ensures ch.streams.ended == {} && ch.lastSid == 1 && ch.streams.table[1].sid == 1
  {
    InitReachable(0);
    hide Reachable;
    var c0 := Init(0);
    assert [-1][1..] == [] && [1][1..] == [] && [] + [1] == [1];
    var c1 := OpenStream(c0, 1, false, -1);
    StepReachable(c0, OpenStep(1, false, -1));
    StepReachable(c1, ConnectedStep([], [1]));
    ch := Apply(c1, ConnectedStep([], [1]));
    assert c1.streams.parked == [PendingStream(1, false, NewSending())];
    var s := c1.streams.(parked := []);
    assert c1.streams.parked[1..] == [];
    var p := PendingStream(1, false, NewSending());
    assert ch.streams == StartParked(c1.streams, [1], 0) == OpenStreamNow(s, p, 1, 0);
  }

  /** A stream closes over the body of its first send: that callback never runs. */
  lemma LostFlushHappens() returns (ch: Channel)
    ensures Reachable(ch) && Known(ch.streams, 1) && ViewOf(ch.streams, 1).sending.sends == 1
    ensures ChannelFlushes.NeverFlushed(ch, 1, 0)
  {
    var c := OpenedStream();
    hide Reachable, ChannelFlushes.NeverFlushed;
    var g := StreamSend(NewSending(), [], false);
    assert g.inflight && g.body == Some(0) && g.sends == 1;
    c := OnStream(c, SendStep(1, [], false), g);
    StepReachable(c, ClosedStep(1, false));
    ch := Apply(c, ClosedStep(1, false));
    ClosedOver(c, g);
    Orphan(ch);
  }

  lemma ClosedOver(c: Channel, g: Sending)
    requires Reachable(c) && c.conn.Ready? && Live(c.streams, 1) && c.lastSid == 1 && c.streams.table[1].sid == 1
    requires c.streams.table[1].sending == g && g.body == Some(0) && g.sends == 1
    ensures ChannelFlushes.Orphaned(Apply(c, ClosedStep(1, false)), 1, 0)
    ensures ViewOf(Apply(c, ClosedStep(1, false)).streams, 1).sending.sends == 1
  {
    var limit, steps :| Reaches(limit, steps, c);
    hide Run, ChannelInv, Answers;
    RunOk(limit, steps);
    ChannelView.StepView(c, 1, ClosedStep(1, false));
  }

  lemma Orphan(ch: Channel)
    requires Reachable(ch) && ChannelFlushes.Orphaned(ch, 1, 0) && ViewOf(ch.streams, 1).sending.sends == 1
    ensures ChannelFlushes.NeverFlushed(ch, 1, 0)
  {
    var limit, steps :| Reaches(limit, steps, ch);
    hide Run, ChannelFlushes.NeverFlushed, ChannelFlushes.Orphaned;
    assert Known(ch.streams, 1) by { OrphanIsKnown(ch); }
    ChannelFlushes.NeverFlushedExactly(limit, steps, 1, 0);
  }

  lemma OrphanIsKnown(ch: Channel)
    requires ChannelFlushes.Orphaned(ch, 1, 0)
    ensures Known(ch.streams, 1)
  {
  }

  /** A send parked on a stream that connect failure strands is never answered. */
  lemma StrandedSendHappens() returns (ch: Channel)
    ensures Reachable(ch) && ch.conn.Broken? && |ch.streams.parked| == 1 && ChannelFlushes.NeverAnswered(ch, 0, 0)
  {
    InitReachable(0);
    hide Reachable, ChannelFlushes.NeverAnswered;
    var c0 := Init(0);
    assert [-1][1..] == [];
    var c1 := OpenStream(c0, 1, false, -1);
    StepReachable(c0, OpenStep(1, false, -1));
    var c2 := c1.(streams := SendOn(c1.streams, 1, [], false));
    StepReachable(c1, SendStep(1, [], false));
    ch := c2.(conn := Broken);
    StepReachable(c2, ConnectFailedStep(UNAVAILABLE));
    var g := Enqueue(NewSending(), [], false);
    assert ch.streams.parked[0].sending == g;
    assert g.queue[0].send == Some(0) && g.sends == 1;
    Stranded(ch);
  }

  lemma Stranded(ch: Channel)
    requires Reachable(ch) && ch.conn.Broken? && |ch.streams.parked| == 1
    requires var g := ch.streams.parked[0].sending; g.sends == 1 && g.queue != [] && g.queue[0].send == Some(0)
    ensures ChannelFlushes.NeverAnswered(ch, 0, 0)
  {
    var limit, steps :| Reaches(limit, steps, ch);
    hide Run, ChannelFlushes.NeverAnswered;
    ChannelFlushes.StrandedSendsExactly(limit, steps, 0, 0);
  }

  /** A send still queued when its stream ends OK is told OK, though its message was never submitted. */
  lemma DroppedToldOkHappens() returns (ch: Channel)
    ensures Reachable(ch) && Known(ch.streams, 1)
    ensures var g := ViewOf(ch.streams, 1).sending;
            g.flushed == [Flush(1, 0)] && !SendAnswers.Submitted(g.sent, 1) && g.queue == []
  {
    hide Reachable, StreamSend, Apply;
    var c := OpenedStream();
    var g1, g2 := TwoSends();
    c := OnStream(c, SendStep(1, [], false), g1);
    c := OnStream(c, SendStep(1, [], false), g2);
    StepReachable(c, HeadersStep(1, Some(0), true));
    ch := Apply(c, HeadersStep(1, Some(0), true));
    EndedOver(c, g2);
  }

  lemma TwoSends() returns (g: Sending, h: Sending)
    ensures g == StreamSend(NewSending(), [], false) && h == StreamSend(g, [], false)
    ensures h.sent == [OutMsg([], false, Some(0))] && h.queue == [OutMsg([], false, Some(1))] && h.flushed == []
  {
    g := StreamSend(NewSending(), [], false);
    h := StreamSend(g, [], false);
  }

  lemma EndedOver(c: Channel, g: Sending)
    requires Reachable(c) && c.conn.Ready? && Live(c.streams, 1) && c.streams.table[1].sid == 1
    requires c.streams.table[1].sending == g && g.queue == [OutMsg([], false, Some(1))]
    ensures var t := Apply(c, HeadersStep(1, Some(0), true));
            Known(t.streams, 1) && ViewOf(t.streams, 1).sending == g.(queue := [], flushed := g.flushed + [Flush(1, 0)])
  {
    hide Run, ChannelInv, Apply, Answers, ChannelView.ViewStep;
    var limit, steps :| Reaches(limit, steps, c);
    RunOk(limit, steps);
    ChannelView.StepView(c, 1, HeadersStep(1, Some(0), true));
    TrailersDrop(c.streams.table[1], Held(c, 1));
  }

  lemma TrailersDrop(st: Stream, held: bool)
    requires !st.completed && st.sid == 1 && st.sending.queue == [OutMsg([], false, Some(1))]
    ensures var g := st.sending;
            ChannelView.ViewStep(st, 1, held, HeadersStep(1, Some(0), true)).sending ==
              g.(queue := [], flushed := g.flushed + [Flush(1, 0)])
  {
    var q := st.sending.queue;
    assert q[1..] == [] && Answers(q, 0) == [Flush(1, 0)];
  }
}
