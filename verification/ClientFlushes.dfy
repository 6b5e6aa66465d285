/** Every StreamSend callback runs at most once; after a stream completes, all but one have run. */
module ClientFlushes {
  import opened Codec
  import opened StatusCodes
  import opened ClientStream
  import opened ServerCallbacks

  ghost function One(send: Option<nat>): multiset<nat> {
    if send.Some? then multiset{send.value} else multiset{}
  }

  ghost function QueuedSends(q: seq<OutMsg>): multiset<nat> {
    if q == [] then multiset{} else One(q[0].send) + QueuedSends(q[1..])
  }

  ghost function FlushedSends(f: seq<Flush>): multiset<nat> {
    if f == [] then multiset{} else FlushedSends(f[..|f| - 1]) + multiset{f[|f| - 1].send}
  }

  /** Each send so far has been answered, or is queued, or is in flight: exactly one of them. */
  ghost predicate FlushInv(s: Sending) {
    && FlushedSends(s.flushed) + QueuedSends(s.queue) + One(s.body) == UpTo(s.sends)
    && (s.body.Some? ==> s.inflight)
  }

  lemma {:induction false} QueuedAppend(q: seq<OutMsg>, m: OutMsg)
    ensures QueuedSends(q + [m]) == QueuedSends(q) + One(m.send)
    decreases |q|
  {
    if q == [] {
      assert q + [m] == [m] && [m][1..] == [];
    } else {
      QueuedAppend(q[1..], m);
      assert (q + [m])[1..] == q[1..] + [m];
    }
  }

  lemma FlushedAppend(f: seq<Flush>, x: Flush)
    ensures FlushedSends(f + [x]) == FlushedSends(f) + multiset{x.send}
  {
    assert (f + [x])[..|f|] == f;
  }

  lemma {:induction false} AnswersAll(f: seq<Flush>, q: seq<OutMsg>, code: int)
    ensures FlushedSends(f + Answers(q, code)) == FlushedSends(f) + QueuedSends(q)
    decreases |q|
  {
    hide FlushedSends;
    if q == [] {
      assert f + [] == f;
    } else {
      var rest := Answers(q[1..], code);
      if q[0].send.Some? {
        var x := Flush(q[0].send.value, code);
        AnswersAll(f + [x], q[1..], code);
        FlushedAppend(f, x);
        Assoc(f, [x], rest);
      } else {
        AnswersAll(f, q[1..], code);
        assert Answers(q, code) == rest;
      }
    }
  }

  lemma MarkKeepsSends(q: seq<OutMsg>)
    requires q != []
    ensures QueuedSends(MarkLast(q)) == QueuedSends(q)
  {
    var front, m := q[..|q| - 1], q[|q| - 1];
    QueuedAppend(front, m.(close := true));
    QueuedAppend(front, m);
    assert q == front + [m];
  }

  lemma NewFlushes()
    ensures FlushInv(NewSending())
  {
  }

  lemma PumpFlushes(s: Sending)
    requires FlushInv(s)
    ensures FlushInv(Pump(s))
  {
    hide FlushedSends, UpTo;
  }

  lemma ConsumedFlushes(s: Sending)
    requires FlushInv(s)
    ensures FlushInv(Consumed(s))
  {
    hide FlushedSends, QueuedSends, UpTo;
    if s.body.Some? { FlushedAppend(s.flushed, Flush(s.body.value, OK)); }
  }

  lemma RefuseFlushes(s: Sending, code: int)
    requires FlushInv(s)
    ensures FlushInv(Refuse(s, code))
  {
    hide FlushedSends, QueuedSends, UpTo;
    UpToNext(s.sends);
    FlushedAppend(s.flushed, Flush(s.sends, code));
  }

  lemma EnqueueFlushes(s: Sending, framed: Bytes, close: bool)
    requires FlushInv(s)
    ensures FlushInv(Enqueue(s, framed, close))
  {
    hide FlushedSends, QueuedSends, UpTo;
    UpToNext(s.sends);
    QueuedAppend(s.queue, OutMsg(framed, close, Some(s.sends)));
  }

  lemma SendFlushes(s: Sending, framed: Bytes, close: bool)
    requires FlushInv(s)
    ensures FlushInv(StreamSend(s, framed, close)) && FlushInv(ParkSend(s, framed, close))
  {
    hide FlushInv, Pump, Refuse;
    RefuseFlushes(s, INTERNAL);
    RefuseFlushes(s, RESOURCE_EXHAUSTED);
    EnqueueFlushes(s, framed, close);
    PumpFlushes(Enqueue(s, framed, close));
  }

  lemma CloseFlushes(s: Sending)
    requires FlushInv(s)
    ensures FlushInv(StreamCloseSend(s)) && FlushInv(ParkClose(s)) && FlushInv(Seed(s))
  {
    if s.queue == [] {
      QueuedAppend([], OutMsg([], true, None));
      assert [] + [OutMsg([], true, None)] == [OutMsg([], true, None)];
    } else {
      MarkKeepsSends(s.queue);
    }
    hide FlushedSends, QueuedSends, UpTo, MarkLast;
  }

  lemma CompleteFlushes(st: Stream, code: int)
    requires FlushInv(st.sending)
    ensures FlushInv(CompleteStream(st, code).sending)
    ensures !st.completed ==> CompleteStream(st, code).sending.queue == []
  {
    hide UpTo;
    AnswersAll(st.sending.flushed, st.sending.queue, code);
  }

  /** How often a send's callback ran, and whether it still may. */
  ghost function Ran(s: Sending, send: nat): nat {
    FlushedSends(s.flushed)[send]
  }

  ghost predicate Pending(s: Sending, send: nat) {
    send in QueuedSends(s.queue) || s.body == Some(send)
  }

  /** Each send was answered once or is pending, never both; with an empty queue only one can be pending. */
  lemma FlushedOnce(s: Sending, send: nat)
    requires FlushInv(s)
    ensures send < s.sends ==> Ran(s, send) == if Pending(s, send) then 0 else 1
    ensures s.queue == [] && Pending(s, send) ==> s.inflight && s.body == Some(send)
  {
    hide FlushedSends;
    var q := QueuedSends(s.queue);
    assert UpTo(s.sends)[send] == Ran(s, send) + q[send] + One(s.body)[send];
  }
}
