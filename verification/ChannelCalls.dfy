/** Every unary call completes exactly once, over every run of the channel. */
module ChannelCalls {
  import opened Codec
  import opened StatusCodes
  import opened Channel

  function DoneIds(d: seq<Done>): (ids: seq<nat>)
    ensures |ids| == |d|
  {
    seq(|d|, i requires 0 <= i < |d| => d[i].id)
  }

  function PendingIds(p: seq<PendingCall>): (ids: seq<nat>)
    ensures |ids| == |p|
  {
    seq(|p|, i requires 0 <= i < |p| => p[i].id)
  }

  /** Done, waiting, in the table, or one of `extra`: every issued call, exactly once. */
  ghost predicate CountInv(u: Unary, extra: multiset<nat>) {
    multiset(DoneIds(u.done)) + multiset(PendingIds(u.pending)) + multiset(u.calls.Keys) + extra == multiset(u.issued)
  }

  /** The table and its index by stream are inverse; only calls in progress are in them. */
  ghost predicate IndexInv(u: Unary, last: nat) {
    && (forall sid :: sid in u.byStream ==>
          0 < sid <= last && u.byStream[sid] in u.calls && u.calls[u.byStream[sid]].sid == sid)
    && (forall id :: id in u.calls ==>
          !u.calls[id].completed && u.calls[id].sid in u.byStream && u.byStream[u.calls[id].sid] == id)
  }

  ghost predicate UnaryInv(u: Unary, last: nat) {
    CountInv(u, multiset{}) && IndexInv(u, last)
  }

  lemma DoneAppend(d: seq<Done>, x: Done)
    ensures multiset(DoneIds(d + [x])) == multiset(DoneIds(d)) + multiset{x.id}
  {
    assert DoneIds(d + [x]) == DoneIds(d) + [x.id];
  }

  /** A call that is in the table ends. */
  lemma EndInTable(u: Unary, last: nat, id: nat, v: Unary, code: int, payload: Bytes)
    requires UnaryInv(u, last) && id in u.calls
    requires v == u.(calls := u.calls - {id}, byStream := u.byStream - {u.calls[id].sid},
                     done := u.done + [Done(id, code, payload)])
    ensures UnaryInv(v, last)
  {
    DoneAppend(u.done, Done(id, code, payload));
    assert v.calls.Keys == u.calls.Keys - {id};
    assert u.calls.Keys == v.calls.Keys + {id};
    hide DoneIds, PendingIds;
  }

  /** A call that is in no table ends. */
  lemma EndOutside(u: Unary, last: nat, id: nat, v: Unary, code: int)
    requires CountInv(u, multiset{id}) && IndexInv(u, last)
    requires v == u.(calls := u.calls - {id}, done := u.done + [Done(id, code, [])])
    ensures UnaryInv(v, last)
  {
    NotInTable(u, id);
    assert v.calls == u.calls;
    DoneAppend(u.done, Done(id, code, []));
    hide DoneIds, PendingIds;
  }

  lemma NotInTable(u: Unary, id: nat)
    requires CountInv(u, multiset{id})
    ensures id !in u.calls
  {
    assert multiset(u.issued)[id] <= 1;
    assert multiset(u.calls.Keys)[id] + 1 <= multiset(u.issued)[id];
  }

  lemma CallNowKeeps(u: Unary, last: nat, id: nat, timer: bool, sid: int, limit: nat)
    requires CountInv(u, multiset{id}) && IndexInv(u, last) && FreshSids(last, [sid])
    ensures UnaryInv(CallNow(u, id, timer, sid, limit), LastSid(last, [sid]))
  {
    var v := CallNow(u, id, timer, sid, limit);
    assert [sid][1..] == [];
    NotInTable(u, id);
    if sid < 0 {
      EndOutside(u, last, id, v, UNAVAILABLE);
    } else {
      assert v.calls.Keys == u.calls.Keys + {id};
      hide DoneIds, PendingIds, NewCall;
    }
  }

  lemma PendingPop(p: seq<PendingCall>)
    requires p != []
    ensures multiset(PendingIds(p)) == multiset{p[0].id} + multiset(PendingIds(p[1..]))
  {
    assert PendingIds(p) == [p[0].id] + PendingIds(p[1..]);
  }

  lemma {:induction false} FailPendingKeeps(u: Unary, last: nat, code: int)
    requires UnaryInv(u, last)
    ensures UnaryInv(FailPending(u, code), last) && FailPending(u, code).pending == []
    ensures FailPending(u, code).issued == u.issued && FailPending(u, code).calls == u.calls
    decreases |u.pending|
  {
    if u.pending != [] {
      var p := u.pending[0];
      var v := u.(pending := u.pending[1..]);
      PendingPop(u.pending);
      assert CountInv(v, multiset{p.id}) by { hide DoneIds, PendingIds; }
      NotInTable(v, p.id);
      var w := CompleteCall(v, p.id, NewCall(p.timer, 0), code, []);
      assert v.calls - {p.id} == v.calls;
      EndOutside(v, last, p.id, w, code);
      FailPendingKeeps(w, last, code);
    }
  }

  lemma {:induction false} StartPendingKeeps(u: Unary, last: nat, sids: seq<int>, limit: nat)
    requires UnaryInv(u, last) && |sids| == |u.pending| && FreshSids(last, sids)
    ensures UnaryInv(StartPending(u, sids, limit), LastSid(last, sids)) && StartPending(u, sids, limit).pending == []
    decreases |u.pending|
  {
    if u.pending != [] {
      var p := u.pending[0];
      var v := u.(pending := u.pending[1..]);
      PendingPop(u.pending);
      assert CountInv(v, multiset{p.id}) by { hide DoneIds, PendingIds; }
      assert [sids[0]][1..] == [];
      CallNowKeeps(v, last, p.id, p.timer, sids[0], limit);
      hide UnaryInv;
      StartPendingKeeps(CallNow(v, p.id, p.timer, sids[0], limit), LastSid(last, [sids[0]]), sids[1..], limit);
    }
  }

  /** Resetting a call ends it with the code given, even if the reset reports the stream's close at once. */
  lemma ResetKeeps(u: Unary, last: nat, id: nat, code: int, reentrant: bool)
    requires UnaryInv(u, last)
    ensures UnaryInv(ResetCall(u, id, code, reentrant), last)
    ensures id in u.calls ==>
              var v := ResetCall(u, id, code, reentrant);
              v.done == u.done + [Done(id, code, [])] && id !in v.calls && u.calls[id].sid !in v.byStream
  {
    if id in u.calls {
      var sid := u.calls[id].sid;
      var v := ResetCall(u, id, code, reentrant);
      assert v.byStream == u.byStream - {sid};
      assert v.calls == u.calls - {id};
      EndInTable(u, last, id, v, code, []);
    }
  }

  lemma DisarmKeeps(u: Unary, last: nat, id: nat)
    requires UnaryInv(u, last)
    ensures UnaryInv(u.(pending := Disarm(u.pending, id)), last)
  {
    assert PendingIds(Disarm(u.pending, id)) == PendingIds(u.pending);
  }

  lemma TimeoutKeeps(u: Unary, last: nat, id: nat, reentrant: bool)
    requires UnaryInv(u, last)
    ensures UnaryInv(UnaryTimeout(u, id, reentrant), last)
    ensures (u.calls == map[] ==> UnaryTimeout(u, id, reentrant).calls == map[])
            && (u.pending == [] ==> UnaryTimeout(u, id, reentrant).pending == [])
  {
    hide UnaryInv, ResetCall;
    if id in u.calls { ResetKeeps(u, last, id, DEADLINE_EXCEEDED, reentrant); } else { DisarmKeeps(u, last, id); }
    ResetLeaves(u, id, DEADLINE_EXCEEDED, reentrant);
  }

  lemma ResetLeaves(u: Unary, id: nat, code: int, reentrant: bool)
    ensures ResetCall(u, id, code, reentrant).pending == u.pending
    ensures ResetCall(u, id, code, reentrant).calls.Keys <= u.calls.Keys
  {
  }

  lemma EventKeeps(u: Unary, last: nat, sid: int, status: Option<int>, http200: bool)
    requires UnaryInv(u, last)
    ensures UnaryInv(UnaryHeaders(u, sid, status, http200), last)
    ensures UnaryInv(UnaryClosed(u, sid), last)
    ensures UnaryHeaders(u, sid, status, http200).pending == u.pending && UnaryClosed(u, sid).pending == u.pending
  {
    if sid in u.byStream {
      var id := u.byStream[sid];
      var v := UnaryHeaders(u, sid, status, http200);
      if v != u { EndInTable(u, last, id, v, v.done[|u.done|].code, v.done[|u.done|].payload); }
      var w := UnaryClosed(u, sid);
      assert w.byStream == u.byStream - {sid};
      EndInTable(u, last, id, w, UNAVAILABLE, []);
    }
  }

  lemma DataKeeps(u: Unary, last: nat, sid: int, data: Bytes)
    requires UnaryInv(u, last)
    ensures UnaryInv(UnaryData(u, sid, data), last) && UnaryData(u, sid, data).pending == u.pending
  {
    hide Feed, FeedError;
    if sid in u.byStream && data != [] {
      var id := u.byStream[sid];
      var call := u.calls[id].(decoder := Feed(u.calls[id].decoder, data));
      var v := u.(calls := u.calls[id := call]);
      assert v.calls.Keys == u.calls.Keys;
      assert UnaryInv(v, last) by { hide DoneIds, PendingIds; }
      var w := UnaryData(u, sid, data);
      if w != v { EndInTable(v, last, id, w, w.done[|u.done|].code, []); }
    }
  }

  lemma LoseKeeps(u: Unary, last: nat)
    requires UnaryInv(u, last)
    ensures UnaryInv(LoseCalls(u), last)
    ensures LoseCalls(u).calls == map[] && LoseCalls(u).pending == [] && LoseCalls(u).issued == u.issued
  {
    var ids := Ascending(u.calls.Keys);
    assert LiveIds(u) == u.calls.Keys by { hide CountInv; }
    var v := u.(calls := map[], byStream := map[], done := u.done + LostCalls(ids));
    EmptyTable(u, last, ids, v);
    hide UnaryInv, Ascending, LostCalls, LiveIds;
    FailPendingKeeps(v, last, UNAVAILABLE);
  }

  lemma EmptyTable(u: Unary, last: nat, ids: seq<nat>, v: Unary)
    requires UnaryInv(u, last) && multiset(ids) == multiset(u.calls.Keys)
    requires v == u.(calls := map[], byStream := map[], done := u.done + LostCalls(ids))
    ensures UnaryInv(v, last)
  {
    assert DoneIds(v.done) == DoneIds(u.done) + ids;
    assert v.calls.Keys == {};
    hide DoneIds, PendingIds, LostCalls;
  }

  // ---- the whole channel ----------------------------------------------------------------------

  /** What each connection state leaves in the unary tables. */
  ghost predicate ConnInv(ch: Channel) {
    && (ch.conn.Ready? || ch.unary.calls == map[])
    && (ch.conn.Ready? || ch.conn.Broken? ==> ch.unary.pending == [])
    && (ch.conn.Idle? ==> ch.unary.pending == [])
  }

  ghost predicate CallsInv(ch: Channel) {
    UnaryInv(ch.unary, ch.lastSid) && ConnInv(ch)
  }

  lemma SetAdd(s: set<nat>, x: nat)
    requires x !in s
    ensures multiset(s + {x}) == multiset(s) + multiset{x}
  {
  }

  lemma IssueKeeps(ch: Channel, id: nat, timed: bool, sid: int)
    requires CallsInv(ch) && Enabled(ch, CallStep(id, timed, sid))
    ensures CallsInv(IssueCall(ch, id, timed, sid))
  {
    var u := ch.unary.(issued := ch.unary.issued + {id});
    var v := IssueCall(ch, id, timed, sid).unary;
    assert CountInv(u, multiset{id}) by {
      SetAdd(ch.unary.issued, id);
      hide DoneIds, PendingIds;
    }
    match ch.conn
    case Ready =>
      hide CountInv, IndexInv;
      CallNowKeeps(u, ch.lastSid, id, timed, sid, ch.limit);
    case Broken =>
      NotInTable(u, id);
      hide CountInv, IndexInv;
      EndOutside(u, ch.lastSid, id, v, UNAVAILABLE);
    case _ =>
      hide CountInv, IndexInv;
      ParkKeeps(u, id, timed);
  }

  lemma ParkKeeps(u: Unary, id: nat, timed: bool)
    requires CountInv(u, multiset{id})
    ensures CountInv(u.(pending := u.pending + [PendingCall(id, timed)]), multiset{})
  {
    assert PendingIds(u.pending + [PendingCall(id, timed)]) == PendingIds(u.pending) + [id];
    hide DoneIds, PendingIds;
  }

  lemma LaterSid(u: Unary, last: nat, next: nat)
    requires UnaryInv(u, last) && last <= next
    ensures UnaryInv(u, next)
  {
  }

  /** The steps that concern streams leave the unary side, and the last stream id grows. */
  lemma StreamStepsLeaveCalls(ch: Channel, step: Step)
    requires step.OpenStep? || step.SendStep? || step.CloseSendStep? || step.StreamTimeoutStep? || step.ConsumedStep?
             || step.PumpStep?
    ensures var t := Apply(ch, step);
            && t.unary == ch.unary && t.lastSid >= ch.lastSid
            && (t.conn == ch.conn || (ch.conn.Idle? && t.conn.Connecting?))
  {
    if step.OpenStep? && Enabled(ch, step) { LastGrows(ch.lastSid, [step.sid]); }
  }

  lemma {:induction false} FreshSplit(last: nat, a: seq<int>, b: seq<int>)
    requires FreshSids(last, a + b)
    ensures FreshSids(last, a) && FreshSids(LastSid(last, a), b)
    ensures LastSid(last, a + b) == LastSid(LastSid(last, a), b) >= LastSid(last, a) >= last
    decreases |a|
  {
    if a == [] {
      assert a + b == b;
      LastGrows(last, b);
    } else {
      assert (a + b)[1..] == a[1..] + b;
      FreshSplit(if a[0] < 0 then last else a[0], a[1..], b);
    }
  }

  lemma {:induction false} LastGrows(last: nat, b: seq<int>)
    requires FreshSids(last, b)
    ensures LastSid(last, b) >= last
    decreases |b|
  {
    if b != [] { LastGrows(if b[0] < 0 then last else b[0], b[1..]); }
  }

  lemma CallsStep(ch: Channel, step: Step)
    requires CallsInv(ch)
    ensures CallsInv(Apply(ch, step))
  {
    hide UnaryInv, IssueCall, ResetCall, UnaryTimeout, UnaryHeaders, UnaryData, UnaryClosed, LoseCalls, FailPending,
      StartPending, SendOn, CloseSendOn, StreamTimeout, LoseStreams, StartParked, StreamHeaders, StreamData,
      StreamClosed;
    if Enabled(ch, step) {
      match step
      case CallStep(id, timed, sid) => IssueKeeps(ch, id, timed, sid);
      case CancelStep(id, r) =>
        ResetKeeps(ch.unary, ch.lastSid, id, UNAVAILABLE, r);
        ResetLeaves(ch.unary, id, UNAVAILABLE, r);
      case TimeoutStep(id, r) => TimeoutKeeps(ch.unary, ch.lastSid, id, r);
      case ConnectedStep(a, b) =>
        FreshSplit(ch.lastSid, a, b);
        StartPendingKeeps(ch.unary, ch.lastSid, a, ch.limit);
        LaterSid(StartPending(ch.unary, a, ch.limit), LastSid(ch.lastSid, a), LastSid(ch.lastSid, a + b));
      case ConnectFailedStep(code) => FailPendingKeeps(ch.unary, ch.lastSid, code);
      case HeadersStep(sid, status, http200) => EventKeeps(ch.unary, ch.lastSid, sid, status, http200);
      case DataStep(sid, data) => DataKeeps(ch.unary, ch.lastSid, sid, data);
      case ClosedStep(sid, _) => EventKeeps(ch.unary, ch.lastSid, sid, None, true);
      case LostStep => LoseKeeps(ch.unary, ch.lastSid);
      case _ =>
        StreamStepsLeaveCalls(ch, step);
        LaterSid(ch.unary, ch.lastSid, Apply(ch, step).lastSid);
    }
  }

  lemma {:induction false} CallsRun(ch: Channel, steps: seq<Step>)
    requires CallsInv(ch)
    ensures CallsInv(Run(ch, steps))
    decreases |steps|
  {
    hide CallsInv, Apply;
    if steps != [] {
      CallsStep(ch, steps[0]);
      CallsRun(Apply(ch, steps[0]), steps[1..]);
    }
  }

  lemma InitKeeps(limit: nat)
    ensures CallsInv(Init(limit))
  {
    var u := Init(limit).unary;
    assert DoneIds(u.done) == [] && PendingIds(u.pending) == [];
  }

  function TimesDone(u: Unary, id: nat): nat {
    multiset(DoneIds(u.done))[id]
  }

  /**
   Exactly once: in every run an issued call is waiting, or in the table, or has completed once, and
   only one of these; the stream index is the inverse of the table; on a broken channel every issued
   call has completed once.
   */
  lemma UnaryExactlyOnce(limit: nat, steps: seq<Step>, id: nat)
    ensures var ch := Run(Init(limit), steps);
            var u := ch.unary;
            && TimesDone(u, id) + multiset(PendingIds(u.pending))[id] + (if id in u.calls then 1 else 0)
               == (if id in u.issued then 1 else 0)
            && (forall i :: i in u.calls ==> u.calls[i].sid in u.byStream && u.byStream[u.calls[i].sid] == i)
            && (forall sid :: sid in u.byStream ==> u.byStream[sid] in u.calls && u.calls[u.byStream[sid]].sid == sid)
            && (ch.conn.Broken? && id in u.issued ==> TimesDone(u, id) == 1)
  {
    var ch0 := Init(limit);
    InitKeeps(limit);
    CallsRun(ch0, steps);
    var u := Run(ch0, steps).unary;
    assert multiset(u.calls.Keys)[id] == if id in u.calls then 1 else 0;
    assert multiset(u.issued)[id] == if id in u.issued then 1 else 0;
  }
}
