/** Which StreamSend callbacks never run. */
module ChannelFlushes {
  import opened Codec
  import opened StatusCodes
  import opened ClientStream
  import opened ClientFlushes
  import opened Channel
  import opened ChannelStreams
  import opened ChannelView
  import opened ServerCallbacks

  /** How often the callback of a send on the stream has run. */
  ghost function RanOn(ch: Channel, id: nat, send: nat): nat {
    if Known(ch.streams, id) then Ran(ViewOf(ch.streams, id).sending, send) else 0
  }

  /** No continuation runs the callback. */
  ghost predicate NeverFlushed(ch: Channel, id: nat, send: nat) {
    forall after :: RanOn(Run(ch, after), id, send) == 0
  }

  /**
   The send's body was submitted, its stream has completed, and the session no longer has the body:
   its HTTP/2 stream closed over it, or the connection was lost.
   */
  predicate Orphaned(ch: Channel, id: nat, send: nat) {
    Known(ch.streams, id) && ViewOf(ch.streams, id).completed && ViewOf(ch.streams, id).sending.body == Some(send)
    && !Held(ch, id)
  }

  // ---- an orphaned callback stays so ----------------------------------------------------------

  lemma CompletedView(st: Stream, id: nat, step: Step)
    requires st.completed
    ensures ViewStep(st, id, false, step) == st
  {
    hide Feed, FeedError;
  }

  lemma {:induction false} StartKeepsEnded(s: Streams, sids: seq<int>, limit: nat)
    requires |sids| == |s.parked|
    ensures StartParked(s, sids, limit).ended == s.ended
    decreases |s.parked|
  {
    if s.parked != [] {
      hide CompleteStream, Pump, Seed;
      StartKeepsEnded(OpenStreamNow(s.(parked := s.parked[1..]), s.parked[0], sids[0], limit), sids[1..], limit);
    }
  }

  lemma {:induction false} LoseKeepsEnded(s: Streams)
    ensures LoseParked(s).ended == s.ended
    decreases |s.parked|
  {
    if s.parked != [] {
      hide CompleteStream;
      LoseKeepsEnded(s.(parked := s.parked[1..],
                        past := s.past[s.parked[0].id := CompleteStream(NewStream(NewSending(), 0), UNAVAILABLE)]));
    }
  }

  lemma EndedGrows(ch: Channel, step: Step)
    ensures ch.streams.ended <= Apply(ch, step).streams.ended
    ensures ch.conn.Broken? ==> Apply(ch, step).conn.Broken?
  {
    var s := ch.streams;
    match step
    case ConnectedStep(a, b) => if |b| == |s.parked| { StartKeepsEnded(s, b, ch.limit); }
    case LostStep =>
      var failed := map id | id in s.table :: CompleteStream(s.table[id], UNAVAILABLE);
      LoseKeepsEnded(s.(table := map[], bySid := map[], past := s.past + failed));
    case _ =>
      hide Feed, FeedError, Pump, Seed, DropQueue, ParkedAt, ResetCall, UnaryTimeout, UnaryHeaders, UnaryData,
        UnaryClosed, FailPending, StreamSend, StreamCloseSend, ParkSend, ParkClose;
  }

  lemma BodyInFlight(ch: Channel, id: nat)
    requires ChannelInv(ch) && Known(ch.streams, id)
    ensures var g := ViewOf(ch.streams, id).sending; FlushInv(g) && (g.body.Some? ==> g.inflight)
    ensures !ch.conn.Ready? ==> ch.conn.Broken?
    ensures ViewOf(ch.streams, id).completed ==> ViewOf(ch.streams, id).sending.queue == []
    ensures !ViewOf(ch.streams, id).completed ==> ch.conn.Ready? && ViewOf(ch.streams, id).sid !in ch.streams.ended
  {
    hide StreamOk, PastOk, ParkedOk, FlushInv, Orderly, SendInv, SentInv;
    OkMeans(ViewOf(ch.streams, id));
    BodyFlies(ViewOf(ch.streams, id).sending);
    if id in ch.streams.past { PastIsCompleted(ch.streams.past[id]); }
  }

  lemma BodyFlies(g: Sending)
    requires FlushInv(g)
    ensures g.body.Some? ==> g.inflight
  {
  }

  lemma OrphanedStep(ch: Channel, id: nat, send: nat, step: Step)
    requires ChannelInv(ch) && Orphaned(ch, id, send)
    ensures Orphaned(Apply(ch, step), id, send)
  {
    BodyInFlight(ch, id);
    hide ChannelInv, Apply, FlushInv;
    StepView(ch, id, step);
    CompletedView(ViewOf(ch.streams, id), id, step);
    EndedGrows(ch, step);
  }

  lemma {:induction false} OrphanedRun(ch: Channel, id: nat, send: nat, steps: seq<Step>)
    requires ChannelInv(ch) && Orphaned(ch, id, send)
    ensures ChannelInv(Run(ch, steps)) && Orphaned(Run(ch, steps), id, send)
    decreases |steps|
  {
    hide ChannelInv, Apply, Orphaned;
    if steps != [] {
      StreamsStep(ch, steps[0]);
      OrphanedStep(ch, id, send, steps[0]);
      OrphanedRun(Apply(ch, steps[0]), id, send, steps[1..]);
    }
  }

  // ---- every other callback can run -----------------------------------------------------------

  /** A send that waits in one place waits in no other. */
  lemma OnePlace(g: Sending, send: nat)
    requires FlushInv(g)
    ensures send in QueuedSends(g.queue) ==> g.body != Some(send) && send < g.sends
    ensures g.body == Some(send) ==> send !in QueuedSends(g.queue) && send < g.sends
  {
    hide FlushedSends;
    assert UpTo(g.sends)[send] == FlushedSends(g.flushed)[send] + QueuedSends(g.queue)[send] + One(g.body)[send];
  }

  lemma RunOne(ch: Channel, step: Step)
    ensures Run(ch, [step]) == Apply(ch, step)
  {
    hide Apply;
    assert [step][1..] == [];
  }

  /** Notifying the body in flight answers it. */
  lemma ConsumedRan(ch: Channel, id: nat, send: nat)
    requires ChannelInv(ch) && Held(ch, id) && ViewOf(ch.streams, id).sending.body == Some(send)
    ensures RanOn(Run(ch, [ConsumedStep(id)]), id, send) == 1
  {
    hide ChannelInv, Apply, Run, FlushInv, QueuedSends, Ran;
    var g, t := ViewOf(ch.streams, id).sending, Apply(ch, ConsumedStep(id));
    BodyInFlight(ch, id);
    OnePlace(g, send);
    StepView(ch, id, ConsumedStep(id));
    StreamsStep(ch, ConsumedStep(id));
    RunOne(ch, ConsumedStep(id));
    BodyInFlight(t, id);
    FlushedOnce(ViewOf(t.streams, id).sending, send);
  }

  lemma NothingQueued(st: Stream, send: nat)
    ensures st.sending.queue == [] ==> send !in QueuedSends(st.sending.queue)
  {
  }

  lemma CompletedSending(st: Stream)
    ensures var g := CompleteStream(st, UNAVAILABLE).sending;
            g.body == st.sending.body && g.sends == st.sending.sends && (!st.completed ==> g.queue == [])
  {
  }

  /** Losing the connection answers everything that is queued. */
  lemma LostRan(ch: Channel, id: nat, send: nat)
    requires ChannelInv(ch) && Known(ch.streams, id) && send in QueuedSends(ViewOf(ch.streams, id).sending.queue)
    ensures RanOn(Run(ch, [LostStep]), id, send) == 1
  {
    hide ChannelInv, Apply, Run, FlushInv, Ran, QueuedSends, CompleteStream;
    var st, t := ViewOf(ch.streams, id), Apply(ch, LostStep);
    BodyInFlight(ch, id);
    OnePlace(st.sending, send);
    NothingQueued(st, send);
    CompletedSending(st);
    StepView(ch, id, LostStep);
    StreamsStep(ch, LostStep);
    RunOne(ch, LostStep);
    BodyInFlight(t, id);
    NothingQueued(ViewOf(t.streams, id), send);
    FlushedOnce(ViewOf(t.streams, id).sending, send);
  }

  /**
   A send's callback never runs, in any continuation, if and only if its stream has completed with the
   send's body in flight and the session no longer has that body.
   */
  lemma NeverFlushedExactly(limit: nat, before: seq<Step>, id: nat, send: nat)
    requires var ch := Run(Init(limit), before);
             Known(ch.streams, id) && send < ViewOf(ch.streams, id).sending.sends
    ensures var ch := Run(Init(limit), before); NeverFlushed(ch, id, send) <==> Orphaned(ch, id, send)
  {
    var ch := Run(Init(limit), before);
    RunOk(limit, before);
    BodyInFlight(ch, id);
    FlushedOnce(ViewOf(ch.streams, id).sending, send);
    hide ChannelInv, FlushInv, QueuedSends, FlushedSends, Run;
    var g := ViewOf(ch.streams, id).sending;
    if Orphaned(ch, id, send) {
      forall after ensures RanOn(Run(ch, after), id, send) == 0 { OrphanedNeverRuns(ch, id, send, after); }
    } else if !Pending(g, send) {
      Unmoved(ch);
      assert RanOn(Run(ch, []), id, send) == 1;
    } else if g.body == Some(send) {
      ConsumedRan(ch, id, send);
    } else {
      LostRan(ch, id, send);
    }
  }

  lemma Unmoved(ch: Channel)
    ensures Run(ch, []) == ch
  {
  }

  lemma OrphanedNeverRuns(ch: Channel, id: nat, send: nat, after: seq<Step>)
    requires ChannelInv(ch) && Orphaned(ch, id, send)
    ensures RanOn(Run(ch, after), id, send) == 0
  {
    hide ChannelInv, Run, FlushInv, QueuedSends;
    OrphanedRun(ch, id, send, after);
    var t := Run(ch, after);
    BodyInFlight(t, id);
    OnePlace(ViewOf(t.streams, id).sending, send);
    FlushedOnce(ViewOf(t.streams, id).sending, send);
  }

  // ---- sends parked on a stream that is stranded ----------------------------------------------

  /** The `k`th parked stream still holds the send. */
  ghost predicate Parks(s: Streams, k: nat, send: nat) {
    k < |s.parked| && send in QueuedSends(s.parked[k].sending.queue)
  }

  lemma ParkingKeeps(g: Sending, framed: Bytes, close: bool)
    ensures QueuedSends(g.queue) <= QueuedSends(ParkSend(g, framed, close).queue)
    ensures QueuedSends(g.queue) <= QueuedSends(ParkClose(g).queue)
  {
    hide QueuedSends, MarkLast;
    QueuedAppend(g.queue, OutMsg(framed, close, Some(g.sends)));
    if g.queue != [] {
      MarkKeepsSends(g.queue);
    } else {
      QueuedAppend(g.queue, OutMsg([], true, None));
      assert g.queue + [OutMsg([], true, None)] == [OutMsg([], true, None)];
    }
  }

  lemma SendKeepsParked(s: Streams, k: nat, send: nat, id: nat, framed: Bytes, close: bool)
    requires Parks(s, k, send)
    ensures Parks(SendOn(s, id, framed, close), k, send) && Parks(CloseSendOn(s, id), k, send)
  {
    hide QueuedSends, ParkedAt, ParkSend, ParkClose, StreamSend, StreamCloseSend;
    var at := ParkedAt(s.parked, id);
    ParkedAtValid(s.parked, id);
    if at.Some? && at.value == k { ParkingKeeps(s.parked[k].sending, framed, close); }
  }

  lemma BrokenKeepsParked(ch: Channel, k: nat, send: nat, step: Step)
    requires ch.conn.Broken? && Parks(ch.streams, k, send)
    ensures Parks(Apply(ch, step).streams, k, send) && Apply(ch, step).conn.Broken?
  {
    hide StreamTimeout, ResetCall, UnaryTimeout, SendOn, CloseSendOn, QueuedSends;
    match step
    case StreamTimeoutStep(id, r, _) => TimeoutLeaves(ch.streams, id, r);
    case SendStep(id, framed, close) => SendKeepsParked(ch.streams, k, send, id, framed, close);
    case CloseSendStep(id) => SendKeepsParked(ch.streams, k, send, id, [], false);
    case _ =>
  }

  lemma {:induction false} BrokenRunKeepsParked(ch: Channel, k: nat, send: nat, steps: seq<Step>)
    requires ch.conn.Broken? && Parks(ch.streams, k, send) && ChannelInv(ch)
    ensures Parks(Run(ch, steps).streams, k, send) && ChannelInv(Run(ch, steps))
    decreases |steps|
  {
    hide ChannelInv, Apply, Parks;
    if steps != [] {
      BrokenKeepsParked(ch, k, send, steps[0]);
      StreamsStep(ch, steps[0]);
      BrokenRunKeepsParked(Apply(ch, steps[0]), k, send, steps[1..]);
    }
  }

  /** How often the callback of a send parked on the `k`th waiting stream has run. */
  ghost function RanParked(ch: Channel, k: nat, send: nat): nat {
    if k < |ch.streams.parked| then Ran(ch.streams.parked[k].sending, send) else 0
  }

  ghost predicate NeverAnswered(ch: Channel, k: nat, send: nat) {
    forall after :: RanParked(Run(ch, after), k, send) == 0
  }

  /**
   On a broken channel, a send on a stream left parked is never answered, in any continuation, if and
   only if it was taken: only refused sends ever hear.
   */
  lemma StrandedSendsExactly(limit: nat, before: seq<Step>, k: nat, send: nat)
    requires var ch := Run(Init(limit), before);
             ch.conn.Broken? && k < |ch.streams.parked| && send < ch.streams.parked[k].sending.sends
    ensures var ch := Run(Init(limit), before); NeverAnswered(ch, k, send) <==> Parks(ch.streams, k, send)
  {
    var ch := Run(Init(limit), before);
    RunOk(limit, before);
    ParkedFlushes(ch, k, send);
    hide ChannelInv, Run, QueuedSends;
    if Parks(ch.streams, k, send) {
      forall after ensures RanParked(Run(ch, after), k, send) == 0 {
        BrokenRunKeepsParked(ch, k, send, after);
        ParkedFlushes(Run(ch, after), k, send);
      }
    } else {
      Unmoved(ch);
      assert RanParked(Run(ch, []), k, send) == 1;
    }
  }

  lemma ParkedFlushes(ch: Channel, k: nat, send: nat)
    requires ChannelInv(ch) && k < |ch.streams.parked|
    ensures Parks(ch.streams, k, send) ==> RanParked(ch, k, send) == 0
    ensures !Parks(ch.streams, k, send) && send < ch.streams.parked[k].sending.sends ==> RanParked(ch, k, send) == 1
  {
    hide StreamOk, PastOk, ParkedOk, QueuedSends, FlushedSends;
    var p := ch.streams.parked[k];
    ParkedMeans(p);
    OnePlace(p.sending, send);
    FlushedOnce(p.sending, send);
  }

  lemma ParkedMeans(p: PendingStream)
    requires ParkedOk(p)
    ensures FlushInv(p.sending) && p.sending.body.None?
  {
    hide SendInv;
  }
}
