/** What every stream of the channel shows its caller and submits, over every run. */
module ChannelStreams {
  import opened Codec
  import opened StatusCodes
  import opened ClientStream
  import opened Channel
  import opened ClientFlushes
  import ChannelCalls
  import Server

  /** The stream index holds exactly the streams that have not completed. */
  ghost predicate IndexInv(s: Streams, last: nat) {
    && (forall sid :: sid in s.bySid ==>
          && 0 < sid <= last && s.bySid[sid] in s.table
          && s.table[s.bySid[sid]].sid == sid && !s.table[s.bySid[sid]].completed)
    && (forall id :: id in s.table ==>
          0 < s.table[id].sid <= last
          && (!s.table[id].completed ==> s.table[id].sid in s.bySid && s.bySid[s.table[id].sid] == id))
    && (forall i, j :: i in s.table && j in s.table && s.table[i].sid == s.table[j].sid ==> i == j)
    && (forall sid :: sid in s.ended ==> 0 < sid <= last && sid !in s.bySid)
  }

  ghost predicate StreamOk(st: Stream) {
    TraceInv(st) && !st.rstPending && (!st.completed ==> SendInv(st.sending)) && EndInv(st)
  }

  /** What was submitted was taken, in order; a close that nothing followed came after all of it. */
  predicate SentInv(g: Sending) {
    && Bodies(g.sent) <= g.accepted
    && (g.closed && !g.late ==> Bodies(g.sent) == g.accepted && CloseIsLast(g.sent))
  }

  /** Sends are answered once, and a completed stream has none queued. */
  ghost predicate EndInv(st: Stream) {
    FlushInv(st.sending) && (st.completed ==> st.sending.queue == []) && SentInv(st.sending)
  }

  ghost predicate PastOk(st: Stream) {
    TraceInv(st) && st.completed && EndInv(st)
  }

  ghost predicate ParkedOk(p: PendingStream) {
    SendInv(p.sending) && p.sending.sent == [] && !p.sending.inflight && FlushInv(p.sending)
  }

  // ---- one stream -----------------------------------------------------------------------------

  lemma OkReceives(st: Stream, data: Bytes, status: Option<int>, http200: bool)
    requires StreamOk(st)
    ensures StreamOk(ReceiveHeaders(st, status, http200)) && StreamOk(ReceiveData(st, data))
  {
    ReceiveKeeps(st, data, status, http200);
    if !st.completed {
      OkCompletes(st, if status.Some? then status.value else UNAVAILABLE);
      var d := Feed(st.decoder, data);
      if FeedError(st.decoder, data).Some? {
        OkCompletes(st.(decoder := d), Server.ErrorCode(FeedError(st.decoder, data).value));
      }
    }
    hide TraceInv, SendInv, FlushInv, Feed, FeedError, DropQueue;
  }

  lemma OkCompletes(st: Stream, code: int)
    requires StreamOk(st)
    ensures StreamOk(CompleteStream(st, code)) && PastOk(CompleteStream(st, code))
    ensures PastOk(CompleteStream(st.(rstPending := true), code)) && !st.rstPending
  {
    CompleteKeeps(st, code);
    CompleteFlushes(st, code);
    hide TraceInv, SendInv, FlushInv, DropQueue;
  }

  lemma SentIsTaken(g: Sending)
    requires SendInv(g)
    ensures SentInv(g)
  {
    assert Bodies(g.sent) + Bodies(g.queue) == Bodies(Line(g));
    if g.closed && !g.late {
      EndStreamExactly(g);
      assert Bodies(g.sent) + [] == Bodies(g.sent);
    }
  }

  /** A sending state that the caller's operations on a live stream produce. */
  lemma OkSending(st: Stream, g: Sending)
    requires StreamOk(st) && !st.completed && SendInv(g) && FlushInv(g)
    ensures StreamOk(st.(sending := g))
  {
    SentIsTaken(g);
    hide SendInv, FlushInv;
  }

  lemma OkSends(st: Stream, framed: Bytes, close: bool)
    requires StreamOk(st) && !st.completed
    ensures StreamOk(st.(sending := StreamSend(st.sending, framed, close)))
    ensures StreamOk(st.(sending := StreamCloseSend(st.sending)))
    ensures StreamOk(st.(sending := Pump(st.sending)))
  {
    var g := st.sending;
    assert SendInv(g) && FlushInv(g);
    hide StreamOk, SendInv, FlushInv, StreamSend, StreamCloseSend, Pump;
    SendKeeps(g, framed, close);
    CloseSendKeeps(g);
    PumpKeeps(g);
    SendFlushes(g, framed, close);
    CloseFlushes(g);
    PumpFlushes(g);
    OkSending(st, StreamSend(g, framed, close));
    OkSending(st, StreamCloseSend(g));
    OkSending(st, Pump(g));
  }

  lemma OkConsumes(st: Stream)
    requires StreamOk(st)
    ensures StreamOk(st.(sending := Consumed(st.sending)))
  {
    ConsumedFlushes(st.sending);
    hide FlushInv;
  }

  lemma OkConsumesPast(st: Stream)
    requires PastOk(st)
    ensures PastOk(st.(sending := Consumed(st.sending)))
  {
    ConsumedFlushes(st.sending);
    hide FlushInv;
  }

  lemma OkParks(p: PendingStream, framed: Bytes, close: bool)
    requires ParkedOk(p)
    ensures ParkedOk(p.(sending := ParkSend(p.sending, framed, close)))
    ensures ParkedOk(p.(sending := ParkClose(p.sending)))
  {
    var g := p.sending;
    ParkCloseKeeps(g);
    if |g.queue| < QUEUE_BOUND { EnqueueKeeps(g, framed, close); }
    SendFlushes(g, framed, close);
    CloseFlushes(g);
    assert |g.queue| >= QUEUE_BOUND ==> SendInv(Refuse(g, RESOURCE_EXHAUSTED)) by { hide FlushInv; }
    hide SendInv, FlushInv;
  }

  lemma OkFresh(id: nat, timed: bool)
    ensures ParkedOk(PendingStream(id, timed, NewSending()))
  {
    NewFlushes();
    hide FlushInv;
  }

  lemma OkFails(sending: Sending, limit: nat, code: int)
    requires FlushInv(sending) && sending.sent == [] && !sending.closed
    ensures PastOk(CompleteStream(NewStream(sending, limit), code))
  {
    var st := NewStream(sending, limit);
    CompleteKeeps(st, code);
    CompleteFlushes(st, code);
    hide FlushInv;
    assert SentInv(sending);
  }

  lemma OkOpens(p: PendingStream, sid: int, limit: nat)
    requires ParkedOk(p)
    ensures StreamOk(NewStream(Pump(Seed(p.sending)), limit).(sid := sid, timer := p.timed))
    ensures PastOk(CompleteStream(NewStream(p.sending, limit), UNAVAILABLE))
  {
    var g := p.sending;
    assert !g.closed;
    SeedKeeps(g);
    PumpKeeps(Seed(g));
    CloseFlushes(g);
    PumpFlushes(Seed(g));
    SentIsTaken(Pump(Seed(g)));
    hide SendInv, FlushInv, Seed, Pump;
    OkFails(g, limit, UNAVAILABLE);
  }

  // ---- the tables -----------------------------------------------------------------------------

  ghost predicate ContentInv(s: Streams) {
    && (forall id :: id in s.table ==> StreamOk(s.table[id]))
    && (forall id :: id in s.past ==> PastOk(s.past[id]))
    && (forall k :: 0 <= k < |s.parked| ==> ParkedOk(s.parked[k]))
  }

  function ParkedIds(p: seq<PendingStream>): (ids: seq<nat>)
    ensures |ids| == |p|
  {
    seq(|p|, i requires 0 <= i < |p| => p[i].id)
  }

  /** Parked, in the table, past, or one of `extra`: every opened stream, exactly once. */
  ghost predicate CountInv(s: Streams, extra: multiset<nat>) {
    multiset(ParkedIds(s.parked)) + multiset(s.table.Keys) + multiset(s.past.Keys) + extra == multiset(s.begun)
  }

  ghost predicate StreamsInv(s: Streams, last: nat) {
    IndexInv(s, last) && ContentInv(s) && CountInv(s, multiset{})
  }

  // ---- operations on a stream in the table ----------------------------------------------------

  lemma PutIndex(s: Streams, last: nat, id: nat, st: Stream)
    requires IndexInv(s, last) && id in s.table && st.sid == s.table[id].sid
    requires s.table[id].completed ==> st.completed
    ensures IndexInv(Put(s, id, st), last)
  {
    hide StreamOk, PastOk, ParkedOk;
  }

  lemma PutKeeps(s: Streams, last: nat, id: nat, st: Stream)
    requires StreamsInv(s, last) && id in s.table && StreamOk(st) && st.sid == s.table[id].sid
    requires s.table[id].completed ==> st.completed
    ensures StreamsInv(Put(s, id, st), last)
  {
    hide StreamOk, PastOk, ParkedOk;
    hide IndexInv, ParkedIds;
    PutIndex(s, last, id, st);
    assert Put(s, id, st).table.Keys == s.table.Keys;
  }

  lemma SendingKeeps(s: Streams, last: nat, id: nat, sending: Sending)
    requires StreamsInv(s, last) && id in s.table && StreamOk(s.table[id].(sending := sending))
    ensures StreamsInv(WithSending(s, id, sending), last)
  {
    hide StreamOk, PastOk, ParkedOk;
    var st := s.table[id].(sending := sending);
    PutKeeps(s, last, id, st);
    assert st.completed ==> st.sid !in s.bySid by { hide ContentInv, CountInv; }
    assert WithSending(s, id, sending) == Put(s, id, st);
  }

  lemma EventKeeps(s: Streams, last: nat, sid: int, data: Bytes, status: Option<int>, http200: bool)
    requires StreamsInv(s, last)
    ensures StreamsInv(StreamHeaders(s, sid, status, http200), last)
    ensures StreamsInv(StreamData(s, sid, data), last)
  {
    hide StreamOk, PastOk, ParkedOk;
    hide Feed, FeedError, DropQueue;
    if sid in s.bySid {
      var id := s.bySid[sid];
      var st := s.table[id];
      assert StreamOk(st) && !st.completed;
      hide StreamsInv;
      OkReceives(st, data, status, http200);
      PutKeeps(s, last, id, ReceiveHeaders(st, status, http200));
      PutKeeps(s, last, id, ReceiveData(st, data));
    }
  }

  lemma ClosedKeeps(s: Streams, last: nat, sid: int)
    requires StreamsInv(s, last)
    ensures StreamsInv(StreamClosed(s, sid), last)
  {
    hide StreamOk, PastOk, ParkedOk;
    if sid in s.bySid {
      var id := s.bySid[sid];
      var st := s.table[id];
      assert StreamOk(st) && st.sid == sid && sid > 0;
      OkCompletes(st, UNAVAILABLE);
      var done := CompleteStream(st, UNAVAILABLE);
      assert done.completed && done.sid == sid && !st.rstPending;
      hide StreamsInv, CompleteStream;
      var t := Put(s, id, done);
      PutKeeps(s, last, id, done);
      assert t.bySid - {sid} == t.bySid;
      assert !st.completed ==> StreamClosed(s, sid) == t;
    }
  }

  lemma RetireIndex(s: Streams, last: nat, id: nat, t: Streams)
    requires IndexInv(s, last) && id in s.table
    requires t.table == s.table - {id} && t.bySid == s.bySid - {s.table[id].sid} && t.ended == s.ended
    ensures IndexInv(t, last)
  {
  }

  /** A stream leaves the table completed. */
  lemma RetireKeeps(s: Streams, last: nat, id: nat, st: Stream, t: Streams)
    requires StreamsInv(s, last) && id in s.table && PastOk(st)
    requires t == s.(table := s.table - {id}, bySid := s.bySid - {s.table[id].sid}, past := s.past[id := st])
    ensures StreamsInv(t, last)
  {
    hide IndexInv, StreamOk, PastOk, ParkedOk, ParkedIds;
    RetireIndex(s, last, id, t);
    InOnePlace(s, id);
    assert t.table.Keys == s.table.Keys - {id} && s.table.Keys == t.table.Keys + {id};
    assert t.past.Keys == s.past.Keys + {id};
  }

  lemma InOnePlace(s: Streams, id: nat)
    requires CountInv(s, multiset{}) && id in s.table
    ensures id !in s.past
  {
    hide ParkedIds;
    assert multiset(s.begun)[id] <= 1;
    assert multiset(s.table.Keys)[id] == 1;
    assert multiset(s.past.Keys)[id] + multiset(s.table.Keys)[id] <= multiset(s.begun)[id];
  }

  /**
   A fired deadline completes its stream as DEADLINE_EXCEEDED, even when the reset it sends reports
   the stream's close before returning.
   */
  lemma DeadlineCompletes(s: Streams, last: nat, id: nat, reentrant: bool)
    requires StreamsInv(s, last) && Live(s, id)
    ensures var t := StreamTimeout(s, id, reentrant);
            && id in t.past && t.past[id].events == s.table[id].events + [Complete(DEADLINE_EXCEEDED)]
            && id !in t.table && s.table[id].sid !in t.bySid
            && StreamsInv(t, last)
  {
    hide StreamOk, PastOk, ParkedOk;
    var st, sid := s.table[id], s.table[id].sid;
    assert StreamOk(st) && sid > 0 && s.bySid[sid] == id;
    var t := StreamTimeout(s, id, reentrant);
    var end := CompleteStream(st.(rstPending := true), DEADLINE_EXCEEDED);
    OkCompletes(st, DEADLINE_EXCEEDED);
    hide DropQueue;
    assert t.past == s.past[id := end] && t.table == s.table - {id} && t.bySid == s.bySid - {sid} by {
      hide StreamsInv;
    }
    RetireKeeps(s, last, id, end, t);
  }

  // ---- opening, parking, losing ---------------------------------------------------------------

  lemma ParkedKeeps(s: Streams, last: nat, k: nat, sending: Sending)
    requires StreamsInv(s, last) && k < |s.parked| && ParkedOk(s.parked[k].(sending := sending))
    ensures StreamsInv(WithParked(s, k, sending), last)
  {
    hide StreamOk, PastOk, ParkedOk;
    assert ParkedIds(WithParked(s, k, sending).parked) == ParkedIds(s.parked);
    hide ParkedIds;
  }

  lemma NewId(s: Streams, id: nat)
    requires CountInv(s, multiset{id})
    ensures id !in s.table && id !in s.past
  {
    hide ParkedIds;
    assert multiset(s.begun)[id] <= 1;
    assert multiset(s.past.Keys)[id] + multiset(s.table.Keys)[id] + 1 <= multiset(s.begun)[id];
  }

  lemma FailNewKeeps(s: Streams, last: nat, id: nat, st: Stream)
    requires IndexInv(s, last) && ContentInv(s) && CountInv(s, multiset{id}) && PastOk(st)
    ensures StreamsInv(s.(past := s.past[id := st]), last)
  {
    hide StreamOk, PastOk, ParkedOk, ParkedIds;
    NewId(s, id);
    var t := s.(past := s.past[id := st]);
    assert t.past.Keys == s.past.Keys + {id};
    assert CountInv(t, multiset{}) by { hide IndexInv, ContentInv; }
    assert ContentInv(t) by { hide IndexInv, CountInv; }
    assert IndexInv(t, last) by { hide ContentInv, CountInv; }
  }

  lemma OpenIndex(s: Streams, last: nat, id: nat, st: Stream, t: Streams)
    requires IndexInv(s, last) && id !in s.table && st.sid > last && !st.completed
    requires t.table == s.table[id := st] && t.bySid == s.bySid[st.sid := id] && t.ended == s.ended
    ensures IndexInv(t, st.sid)
  {
    hide StreamOk, PastOk, ParkedOk;
  }

  /** A new stream enters the table. */
  lemma EnterKeeps(s: Streams, last: nat, id: nat, st: Stream, t: Streams)
    requires IndexInv(s, last) && ContentInv(s) && CountInv(s, multiset{id})
    requires StreamOk(st) && st.sid > last && !st.completed
    requires t == s.(table := s.table[id := st], bySid := s.bySid[st.sid := id])
    ensures StreamsInv(t, st.sid)
  {
    hide StreamOk, PastOk, ParkedOk, ParkedIds;
    NewId(s, id);
    OpenIndex(s, last, id, st, t);
    hide IndexInv;
    assert t.table.Keys == s.table.Keys + {id};
    assert CountInv(t, multiset{}) by { hide ContentInv; }
    assert ContentInv(t) by { hide CountInv; }
  }

  lemma OpenKeeps(s: Streams, last: nat, p: PendingStream, sid: int, limit: nat)
    requires IndexInv(s, last) && ContentInv(s) && CountInv(s, multiset{p.id}) && ParkedOk(p) && FreshSids(last, [sid])
    ensures StreamsInv(OpenStreamNow(s, p, sid, limit), LastSid(last, [sid]))
  {
    hide StreamOk, PastOk, ParkedOk, IndexInv, ContentInv, CountInv, Seed, Pump, CompleteStream;
    assert [sid][1..] == [];
    OkOpens(p, sid, limit);
    if sid < 0 {
      FailNewKeeps(s, last, p.id, CompleteStream(NewStream(p.sending, limit), UNAVAILABLE));
    } else {
      var st := NewStream(Pump(Seed(p.sending)), limit).(sid := sid, timer := p.timed);
      EnterKeeps(s, last, p.id, st, OpenStreamNow(s, p, sid, limit));
    }
  }

  lemma ParkedAppend(p: seq<PendingStream>, x: PendingStream)
    ensures ParkedIds(p + [x]) == ParkedIds(p) + [x.id]
  {
  }

  lemma ParkedPop(p: seq<PendingStream>)
    requires p != []
    ensures multiset(ParkedIds(p)) == multiset{p[0].id} + multiset(ParkedIds(p[1..]))
  {
    assert ParkedIds(p) == [p[0].id] + ParkedIds(p[1..]);
  }

  lemma Unpark(s: Streams, last: nat)
    requires StreamsInv(s, last) && s.parked != []
    ensures var t := s.(parked := s.parked[1..]);
            IndexInv(t, last) && ContentInv(t) && CountInv(t, multiset{s.parked[0].id}) && ParkedOk(s.parked[0])
  {
    hide StreamOk, PastOk, ParkedOk, ParkedIds;
    var t := s.(parked := s.parked[1..]);
    ParkedPop(s.parked);
    assert CountInv(t, multiset{s.parked[0].id}) by { hide IndexInv, ContentInv; }
    assert ContentInv(t) by { hide IndexInv, CountInv; }
    assert IndexInv(t, last) by { hide ContentInv, CountInv; }
  }

  lemma {:induction false} StartParkedKeeps(s: Streams, last: nat, sids: seq<int>, limit: nat)
    requires StreamsInv(s, last) && |sids| == |s.parked| && FreshSids(last, sids)
    ensures StreamsInv(StartParked(s, sids, limit), LastSid(last, sids)) && StartParked(s, sids, limit).parked == []
    decreases |s.parked|
  {
    hide StreamOk, PastOk, ParkedOk;
    if s.parked != [] {
      Unpark(s, last);
      assert [sids[0]][1..] == [];
      hide IndexInv, ContentInv, CountInv;
      var t := s.(parked := s.parked[1..]);
      OpenKeeps(t, last, s.parked[0], sids[0], limit);
      StartParkedKeeps(OpenStreamNow(t, s.parked[0], sids[0], limit), LastSid(last, [sids[0]]), sids[1..], limit);
    }
  }

  lemma {:induction false} LoseParkedKeeps(s: Streams, last: nat)
    requires StreamsInv(s, last)
    ensures StreamsInv(LoseParked(s), last) && LoseParked(s).parked == [] && LoseParked(s).table == s.table
    decreases |s.parked|
  {
    hide StreamOk, PastOk, ParkedOk;
    if s.parked != [] {
      Unpark(s, last);
      NewFlushes();
      OkFails(NewSending(), 0, UNAVAILABLE);
      hide IndexInv, ContentInv, CountInv, FlushInv, CompleteStream;
      var t := s.(parked := s.parked[1..]);
      FailNewKeeps(t, last, s.parked[0].id, CompleteStream(NewStream(NewSending(), 0), UNAVAILABLE));
      var end := CompleteStream(NewStream(NewSending(), 0), UNAVAILABLE);
      LoseParkedKeeps(t.(past := t.past[s.parked[0].id := end]), last);
    }
  }

  lemma LoseKeeps(s: Streams, last: nat)
    requires StreamsInv(s, last)
    ensures StreamsInv(LoseStreams(s), last) && LoseStreams(s).parked == [] && LoseStreams(s).table == map[]
  {
    hide StreamOk, PastOk, ParkedOk;
    var failed := map id | id in s.table :: CompleteStream(s.table[id], UNAVAILABLE);
    var t := s.(table := map[], bySid := map[], past := s.past + failed);
    assert t.past.Keys == s.past.Keys + s.table.Keys && t.table.Keys == {};
    assert s.past.Keys !! s.table.Keys by {
      forall id | id in s.table ensures id !in s.past { InOnePlace(s, id); }
    }
    assert multiset(t.past.Keys) == multiset(s.past.Keys) + multiset(s.table.Keys);
    assert CountInv(t, multiset{}) by { hide IndexInv, ContentInv, ParkedIds; }
    assert ContentInv(t) by {
      forall id | id in s.table ensures PastOk(CompleteStream(s.table[id], UNAVAILABLE)) {
        assert StreamOk(s.table[id]);
        OkCompletes(s.table[id], UNAVAILABLE);
      }
      hide IndexInv, CountInv, CompleteStream;
    }
    hide StreamsInv;
    assert StreamsInv(t, last) by { EmptyIndex(t, last); }
    LoseParkedKeeps(t, last);
  }

  lemma EmptyIndex(t: Streams, last: nat)
    requires ContentInv(t) && CountInv(t, multiset{}) && t.table == map[] && t.bySid == map[]
    requires forall sid :: sid in t.ended ==> 0 < sid <= last
    ensures StreamsInv(t, last)
  {
    hide ContentInv, CountInv;
  }

  // ---- the whole channel ----------------------------------------------------------------------

  ghost predicate ConnInv(ch: Channel) {
    && (ch.conn.Ready? || ch.streams.table == map[])
    && (ch.conn.Ready? || ch.conn.Idle? ==> ch.streams.parked == [])
    && (ch.conn.Ready? || ch.conn.Broken? || ch.streams.past == map[])
  }

  ghost predicate ChannelInv(ch: Channel) {
    StreamsInv(ch.streams, ch.lastSid) && ConnInv(ch)
  }

  lemma BeginCount(s: Streams, id: nat, t: Streams)
    requires CountInv(s, multiset{}) && id !in s.begun && t == s.(begun := s.begun + {id})
    ensures CountInv(t, multiset{id})
  {
    hide ParkedIds;
    ChannelCalls.SetAdd(s.begun, id);
  }

  lemma ParkKeeps(s: Streams, last: nat, p: PendingStream)
    requires IndexInv(s, last) && ContentInv(s) && CountInv(s, multiset{p.id}) && ParkedOk(p)
    ensures StreamsInv(s.(parked := s.parked + [p]), last)
  {
    hide StreamOk, PastOk, ParkedOk, ParkedIds;
    var t := s.(parked := s.parked + [p]);
    ParkedAppend(s.parked, p);
    assert CountInv(t, multiset{}) by { hide IndexInv, ContentInv; }
    assert ContentInv(t) by { hide IndexInv, CountInv; }
    assert IndexInv(t, last) by { hide ContentInv, CountInv; }
  }

  lemma OpenStreamKeeps(ch: Channel, id: nat, timed: bool, sid: int)
    requires ChannelInv(ch) && Enabled(ch, OpenStep(id, timed, sid))
    ensures ChannelInv(OpenStream(ch, id, timed, sid))
  {
    hide IndexInv, ContentInv, CountInv, ParkedOk, PastOk, CompleteStream, NewStream, OpenStreamNow, FlushInv;
    var s := ch.streams.(begun := ch.streams.begun + {id});
    var p := PendingStream(id, timed, NewSending());
    BeginCount(ch.streams, id, s);
    BeginRest(ch.streams, ch.lastSid, id, s);
    OkFresh(id, timed);
    match ch.conn
    case Ready =>
      OpenKeeps(s, ch.lastSid, p, sid, ch.limit);
      OpenLeaves(s, p, sid, ch.limit);
    case Broken =>
      NewFlushes();
      OkFails(NewSending(), ch.limit, UNAVAILABLE);
      FailNewKeeps(s, ch.lastSid, id, CompleteStream(NewStream(NewSending(), ch.limit), UNAVAILABLE));
    case _ =>
      ParkKeeps(s, ch.lastSid, p);
  }

  lemma BeginRest(s: Streams, last: nat, id: nat, t: Streams)
    requires IndexInv(s, last) && ContentInv(s) && t == s.(begun := s.begun + {id})
    ensures IndexInv(t, last) && ContentInv(t)
  {
    hide StreamOk, PastOk, ParkedOk;
  }

  lemma OpenLeaves(s: Streams, p: PendingStream, sid: int, limit: nat)
    ensures OpenStreamNow(s, p, sid, limit).parked == s.parked
  {
  }

  lemma SendOnKeeps(s: Streams, last: nat, id: nat, framed: Bytes, close: bool)
    requires StreamsInv(s, last)
    ensures StreamsInv(SendOn(s, id, framed, close), last) && StreamsInv(CloseSendOn(s, id), last)
    ensures var t := SendOn(s, id, framed, close);
            t.table.Keys == s.table.Keys && |t.parked| == |s.parked| && t.past == s.past
    ensures var t := CloseSendOn(s, id); t.table.Keys == s.table.Keys && |t.parked| == |s.parked| && t.past == s.past
  {
    hide StreamOk, PastOk, ParkedOk;
    var k := ParkedAt(s.parked, id);
    ParkedAtValid(s.parked, id);
    if Live(s, id) {
      var g := s.table[id].sending;
      OkSends(s.table[id], framed, close);
      hide StreamsInv;
      SendingKeeps(s, last, id, StreamSend(g, framed, close));
      SendingKeeps(s, last, id, StreamCloseSend(g));
    } else if k.Some? {
      var p := s.parked[k.value];
      assert ParkedOk(p);
      OkParks(p, framed, close);
      hide StreamsInv;
      ParkedKeeps(s, last, k.value, ParkSend(p.sending, framed, close));
      ParkedKeeps(s, last, k.value, ParkClose(p.sending));
    }
  }

  lemma PastConsumedKeeps(s: Streams, last: nat, id: nat)
    requires StreamsInv(s, last) && id !in s.table && id in s.past
    ensures StreamsInv(BodyConsumed(s, id), last)
  {
    hide StreamOk, PastOk, ParkedOk, ParkedIds;
    var t := BodyConsumed(s, id);
    OkConsumesPast(s.past[id]);
    hide Consumed;
    assert t.past.Keys == s.past.Keys;
    assert CountInv(t, multiset{}) by { hide IndexInv, ContentInv; }
    assert ContentInv(t) by { hide IndexInv, CountInv; }
    assert IndexInv(t, last) by { hide ContentInv, CountInv; }
  }

  /** The session drops the body of an HTTP/2 stream that is not, or no longer, in the index. */
  lemma DropKeepsStreams(s: Streams, last: nat, sid: int, noted: bool)
    requires StreamsInv(s, last) && sid !in s.bySid && 0 < sid <= last
    ensures StreamsInv(DropBody(s, sid, noted), last)
  {
    hide StreamOk, PastOk, ParkedOk, ParkedIds;
    var t := DropBody(s, sid, noted);
    assert CountInv(t, multiset{}) by { hide IndexInv, ContentInv; }
    assert ContentInv(t) by { hide IndexInv, CountInv; }
    assert IndexInv(t, last) by { hide ContentInv, CountInv; }
  }

  lemma PumpOnKeeps(s: Streams, last: nat, id: nat)
    requires StreamsInv(s, last) && id in s.table
    ensures StreamsInv(BodyConsumed(s, id), last) && StreamsInv(PumpStream(s, id), last)
  {
    hide StreamOk, PastOk, ParkedOk;
    var st := s.table[id];
    OkConsumes(st);
    if Live(s, id) { OkSends(st, [], false); }
    hide StreamsInv;
    SendingKeeps(s, last, id, Consumed(st.sending));
    if Live(s, id) { SendingKeeps(s, last, id, Pump(st.sending)); }
  }

  lemma EventsLeave(s: Streams, sid: int, data: Bytes, status: Option<int>, http200: bool)
    ensures StreamHeaders(s, sid, status, http200).parked == s.parked && StreamData(s, sid, data).parked == s.parked
    ensures StreamClosed(s, sid).parked == s.parked && sid !in StreamClosed(s, sid).bySid
  {
  }

  lemma LaterSid(s: Streams, last: nat, next: nat)
    requires StreamsInv(s, last) && last <= next
    ensures StreamsInv(s, next)
  {
  }

  /** The steps that concern unary calls leave the streams, and the last stream id grows. */
  lemma CallStepsLeaveStreams(ch: Channel, step: Step)
    requires step.CallStep? || step.CancelStep? || step.TimeoutStep? || step.ConnectFailedStep?
    ensures var t := Apply(ch, step);
            && t.streams == ch.streams && t.lastSid >= ch.lastSid
            && (t.conn == ch.conn || (ch.conn.Idle? && t.conn.Connecting?) || (ch.conn.Connecting? && t.conn.Broken?))
  {
    if step.CallStep? && Enabled(ch, step) { ChannelCalls.LastGrows(ch.lastSid, [step.sid]); }
  }

  lemma StreamsStep(ch: Channel, step: Step)
    requires ChannelInv(ch)
    ensures ChannelInv(Apply(ch, step))
  {
    var s, last := ch.streams, ch.lastSid;
    hide StreamsInv, IssueCall, ResetCall, UnaryTimeout, UnaryHeaders, UnaryData, UnaryClosed, LoseCalls, FailPending,
      StartPending, OpenStream, SendOn, CloseSendOn, StreamTimeout, LoseStreams, StartParked, StreamHeaders, StreamData,
      StreamClosed, BodyConsumed, PumpStream;
    if Enabled(ch, step) {
      match step
      case OpenStep(id, timed, sid) => OpenStreamKeeps(ch, id, timed, sid);
      case SendStep(id, framed, close) => SendOnKeeps(s, last, id, framed, close);
      case CloseSendStep(id) => SendOnKeeps(s, last, id, [], false);
      case StreamTimeoutStep(id, r, noted) => TimeoutKeeps(ch, id, r, noted);
      case ConsumedStep(id) => PumpKeepsChannel(ch, id);
      case PumpStep(id) => PumpKeepsChannel(ch, id);
      case ConnectedStep(a, b) =>
        ChannelCalls.FreshSplit(last, a, b);
        LaterSid(s, last, LastSid(last, a));
        StartParkedKeeps(s, LastSid(last, a), b, ch.limit);
      case HeadersStep(sid, status, http200) =>
        EventKeeps(s, last, sid, [], status, http200);
        EventsLeave(s, sid, [], status, http200);
      case DataStep(sid, data) =>
        EventKeeps(s, last, sid, data, None, true);
        EventsLeave(s, sid, data, None, true);
      case ClosedStep(sid, noted) =>
        ClosedKeeps(s, last, sid);
        EventsLeave(s, sid, [], None, true);
        DropKeepsStreams(StreamClosed(s, sid), last, sid, noted);
      case LostStep => LoseKeeps(s, last);
      case _ =>
        CallStepsLeaveStreams(ch, step);
        LaterSid(s, last, Apply(ch, step).lastSid);
    }
  }

  lemma TimeoutKeeps(ch: Channel, id: nat, r: bool, noted: bool)
    requires ChannelInv(ch)
    ensures ChannelInv(ch.(streams := TimeoutAndDrop(ch.streams, id, r, noted)))
  {
    hide StreamsInv;
    if Live(ch.streams, id) {
      DeadlineCompletes(ch.streams, ch.lastSid, id, r);
      TimeoutLeaves(ch.streams, id, r);
      SidInRange(ch.streams, ch.lastSid, id);
      hide StreamTimeout;
      DropKeepsStreams(StreamTimeout(ch.streams, id, r), ch.lastSid, ch.streams.table[id].sid, noted);
    }
  }

  lemma SidInRange(s: Streams, last: nat, id: nat)
    requires StreamsInv(s, last) && id in s.table
    ensures 0 < s.table[id].sid <= last
  {
    hide ContentInv, CountInv;
  }

  lemma TimeoutLeaves(s: Streams, id: nat, r: bool)
    ensures StreamTimeout(s, id, r).parked == s.parked && StreamTimeout(s, id, r).table.Keys <= s.table.Keys
  {
  }

  lemma PumpKeepsChannel(ch: Channel, id: nat)
    requires ChannelInv(ch)
    ensures ChannelInv(ch.(streams := BodyConsumed(ch.streams, id)))
    ensures ChannelInv(ch.(streams := PumpStream(ch.streams, id)))
  {
    hide StreamsInv;
    if id in ch.streams.table {
      PumpOnKeeps(ch.streams, ch.lastSid, id);
    } else if id in ch.streams.past {
      PastConsumedKeeps(ch.streams, ch.lastSid, id);
    }
  }

  lemma {:induction false} StreamsRun(ch: Channel, steps: seq<Step>)
    requires ChannelInv(ch)
    ensures ChannelInv(Run(ch, steps))
    decreases |steps|
  {
    hide ChannelInv, Apply;
    if steps != [] {
      StreamsStep(ch, steps[0]);
      StreamsRun(Apply(ch, steps[0]), steps[1..]);
    }
  }

  lemma InitKeeps(limit: nat)
    ensures ChannelInv(Init(limit))
  {
    assert ParkedIds(Init(limit).streams.parked) == [];
  }

  /** Messages, then at most one completion and nothing after it. */
  predicate Orderly(events: seq<Event>) {
    forall i :: 0 <= i < |events| - 1 ==> events[i].Message?
  }

  lemma RunOk(limit: nat, steps: seq<Step>)
    ensures ChannelInv(Run(Init(limit), steps))
  {
    InitKeeps(limit);
    StreamsRun(Init(limit), steps);
  }

  lemma OkMeans(st: Stream)
    requires StreamOk(st) || PastOk(st)
    ensures Orderly(st.events) && EndInv(st) && (!st.completed ==> SendInv(st.sending))
    ensures st.completed <==> st.events != [] && st.events[|st.events| - 1].Complete?
  {
  }

  /**
   In every run each stream's callbacks are messages and then at most one completion, which every
   stream outside the table has had; the stream index holds exactly the uncompleted streams.
   */
  lemma StreamTraces(limit: nat, steps: seq<Step>)
    ensures var s := Run(Init(limit), steps).streams;
            && (forall id :: id in s.table ==> Orderly(s.table[id].events))
            && (forall id :: id in s.past ==> Orderly(s.past[id].events) && s.past[id].events != []
                                              && s.past[id].events[|s.past[id].events| - 1].Complete?)
            && (forall id :: id in s.table ==> (!s.table[id].completed <==> s.table[id].sid in s.bySid))
            && (forall sid :: sid in s.bySid ==> s.bySid[sid] in s.table && s.table[s.bySid[sid]].sid == sid)
  {
    hide StreamOk, PastOk, ParkedOk, Orderly, EndInv, SendInv, Run;
    RunOk(limit, steps);
    var s := Run(Init(limit), steps).streams;
    forall id | id in s.table ensures Orderly(s.table[id].events) { OkMeans(s.table[id]); }
    forall id | id in s.past
      ensures var e := s.past[id].events; Orderly(e) && e != [] && e[|e| - 1].Complete?
    {
      OkMeans(s.past[id]);
      PastIsCompleted(s.past[id]);
    }
  }

  lemma PastIsCompleted(st: Stream)
    requires PastOk(st)
    ensures st.completed
  {
  }

  /**
   In every run, for every live stream, the bodies submitted followed by the queued ones are what the
   caller handed over, in order, and at most 64 are queued. Unless the caller had a message taken
   after closing, and only then, END_STREAM comes at most once, on the last of them; and once it has
   been submitted, it was on the last submission and nothing is queued.
   */
  lemma SendsInOrder(limit: nat, steps: seq<Step>, id: nat)
    requires Live(Run(Init(limit), steps).streams, id)
    ensures var g := Run(Init(limit), steps).streams.table[id].sending;
            && Bodies(g.sent) + Bodies(g.queue) == g.accepted
            && |g.queue| <= QUEUE_BOUND
            && (CloseIsLast(g.sent + g.queue) <==> !g.late)
            && (g.closed <==> HasClose(g.sent))
            && (g.closed && !g.late ==> g.queue == [] && g.sent[|g.sent| - 1].close && CloseIsLast(g.sent))
  {
    hide StreamOk, PastOk, ParkedOk, Run, SendInv, CloseIsLast, HasClose, EndInv;
    RunOk(limit, steps);
    var st := Run(Init(limit), steps).streams.table[id];
    OkMeans(st);
    LineIsAccepted(st.sending);
    EndStreamExactly(st.sending);
  }

  lemma LineIsAccepted(g: Sending)
    requires SendInv(g)
    ensures Bodies(g.sent) + Bodies(g.queue) == g.accepted && |g.queue| <= QUEUE_BOUND
    ensures (g.closed <==> HasClose(g.sent)) && (g.closed ==> g.sent != [])
  {
    assert Bodies(g.sent) + Bodies(g.queue) == Bodies(Line(g));
  }

  /**
   In every run, each StreamSend on a stream has had its callback run once, or is queued, or is in
   flight, and only one of these; once the stream has completed, every callback has run but that of
   the body in flight, if any.
   */
  lemma FlushesConserved(limit: nat, steps: seq<Step>, id: nat, send: nat)
    requires Known(Run(Init(limit), steps).streams, id)
    requires send < ViewOf(Run(Init(limit), steps).streams, id).sending.sends
    ensures var st := ViewOf(Run(Init(limit), steps).streams, id);
            && Ran(st.sending, send) == (if Pending(st.sending, send) then 0 else 1)
            && (st.completed ==> Ran(st.sending, send) == 1 || (st.sending.inflight && st.sending.body == Some(send)))
  {
    hide StreamOk, PastOk, ParkedOk, Run, FlushInv, SendInv, Orderly;
    RunOk(limit, steps);
    var st := ViewOf(Run(Init(limit), steps).streams, id);
    OkMeans(st);
    FlushedOnce(st.sending, send);
  }

  /**
   On a broken channel a stream has completed if and only if it is not parked: streams that waited
   when the connection could not be made are never told.
   */
  lemma BrokenStrandsParked(limit: nat, steps: seq<Step>, id: nat)
    requires var ch := Run(Init(limit), steps); ch.conn.Broken? && id in ch.streams.begun
    ensures var s := Run(Init(limit), steps).streams;
            (id in s.past && s.past[id].completed) <==> id !in ParkedIds(s.parked)
  {
    hide StreamOk, PastOk, ParkedOk, Run;
    RunOk(limit, steps);
    var s := Run(Init(limit), steps).streams;
    var p: seq<nat> := ParkedIds(s.parked);
    assert multiset(p)[id] + multiset(s.table.Keys)[id] + multiset(s.past.Keys)[id] == multiset(s.begun)[id];
    assert multiset(s.begun)[id] == 1 && multiset(s.table.Keys)[id] == 0;
    assert id in p <==> multiset(p)[id] > 0;
    if id in s.past { PastIsCompleted(s.past[id]); }
  }

  /** And they stay parked whatever happens next. */
  lemma {:induction false} BrokenIsFinal(ch: Channel, steps: seq<Step>)
    requires ch.conn.Broken?
    ensures Run(ch, steps).conn.Broken? && ParkedIds(Run(ch, steps).streams.parked) == ParkedIds(ch.streams.parked)
    decreases |steps|
  {
    if steps != [] {
      BrokenStep(ch, steps[0]);
      hide Apply;
      BrokenIsFinal(Apply(ch, steps[0]), steps[1..]);
    }
  }

  lemma BrokenStep(ch: Channel, step: Step)
    requires ch.conn.Broken?
    ensures Apply(ch, step).conn.Broken? && ParkedIds(Apply(ch, step).streams.parked) == ParkedIds(ch.streams.parked)
  {
    hide StreamTimeout, ResetCall, UnaryTimeout, SendOn, CloseSendOn, ParkedIds;
    match step
    case StreamTimeoutStep(id, r, _) => TimeoutLeaves(ch.streams, id, r);
    case SendStep(id, framed, close) => SendLeavesIds(ch.streams, id, framed, close);
    case CloseSendStep(id) => SendLeavesIds(ch.streams, id, [], false);
    case _ =>
  }

  lemma SendLeavesIds(s: Streams, id: nat, framed: Bytes, close: bool)
    ensures ParkedIds(SendOn(s, id, framed, close).parked) == ParkedIds(s.parked)
    ensures ParkedIds(CloseSendOn(s, id).parked) == ParkedIds(s.parked)
  {
    var k := ParkedAt(s.parked, id);
    ParkedAtValid(s.parked, id);
    if !Live(s, id) && k.Some? {
      WithParkedIds(s, k.value, ParkSend(s.parked[k.value].sending, framed, close));
      WithParkedIds(s, k.value, ParkClose(s.parked[k.value].sending));
    }
  }

  lemma WithParkedIds(s: Streams, k: nat, sending: Sending)
    requires k < |s.parked|
    ensures ParkedIds(WithParked(s, k, sending).parked) == ParkedIds(s.parked)
  {
  }
}
