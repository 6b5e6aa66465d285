/** When a unary call's timer ends the call, and when it is spent for nothing. */
module ChannelDeadlines {
  import opened Codec
  import opened StatusCodes
  import opened Channel
  import opened ChannelCalls

  /** Wherever the call is, its timer runs, or wherever it is, none does. */
  predicate Timed(u: Unary, id: nat, on: bool) {
    && (id in u.calls ==> u.calls[id].timer == on)
    && (forall i :: 0 <= i < |u.pending| && u.pending[i].id == id ==> u.pending[i].timer == on)
  }

  /** The call waits for the connection or has been submitted. */
  predicate Open(u: Unary, id: nat) {
    id in u.calls || id in PendingIds(u.pending)
  }

  lemma TimedExactly(u: Unary, id: nat, on: bool)
    requires Timed(u, id, on)
    ensures TimerArmed(u, id) <==> on && Open(u, id)
  {
    if on && id !in u.calls && Open(u, id) {
      var i :| 0 <= i < |u.pending| && PendingIds(u.pending)[i] == id;
      assert u.pending[i] == PendingCall(id, true);
    }
    if i :| 0 <= i < |u.pending| && u.pending[i] == PendingCall(id, true) {
      assert PendingIds(u.pending)[i] == id;
    }
  }

  predicate Fires(step: Step, id: nat) {
    step.TimeoutStep? && step.id == id
  }

  /** Entries only leave, or change in other ways than their timer. */
  predicate Fewer(u: Unary, v: Unary) {
    && v.pending == u.pending
    && (forall i :: i in v.calls ==> i in u.calls && v.calls[i].timer == u.calls[i].timer)
  }

  lemma FewerTimed(u: Unary, v: Unary, id: nat, on: bool)
    requires Timed(u, id, on) && Fewer(u, v)
    ensures Timed(v, id, on)
  {
  }

  lemma ResetFewer(u: Unary, id: nat, code: int, r: bool)
    ensures Fewer(u, ResetCall(u, id, code, r))
  {
  }

  lemma HeadersFewer(u: Unary, sid: int, status: Option<int>, http200: bool)
    ensures Fewer(u, UnaryHeaders(u, sid, status, http200)) && Fewer(u, UnaryClosed(u, sid))
  {
  }

  lemma DataFewer(u: Unary, sid: int, data: Bytes)
    ensures Fewer(u, UnaryData(u, sid, data))
  {
    hide Feed, FeedError;
  }

  lemma PopTimed(u: Unary, id: nat, on: bool)
    requires Timed(u, id, on) && u.pending != []
    ensures Timed(u.(pending := u.pending[1..]), id, on)
    ensures u.pending[0].id == id ==> u.pending[0].timer == on
  {
  }

  lemma CallNowTimed(u: Unary, id: nat, on: bool, other: nat, timer: bool, sid: int, limit: nat)
    requires Timed(u, id, on) && (other == id ==> timer == on)
    ensures Timed(CallNow(u, other, timer, sid, limit), id, on)
  {
  }

  lemma {:induction false} StartTimed(u: Unary, id: nat, on: bool, sids: seq<int>, limit: nat)
    requires Timed(u, id, on) && |sids| == |u.pending|
    ensures Timed(StartPending(u, sids, limit), id, on)
    decreases |u.pending|
  {
    if u.pending != [] {
      PopTimed(u, id, on);
      hide Timed;
      var p, v := u.pending[0], u.(pending := u.pending[1..]);
      CallNowTimed(v, id, on, p.id, p.timer, sids[0], limit);
      StartTimed(CallNow(v, p.id, p.timer, sids[0], limit), id, on, sids[1..], limit);
    }
  }

  lemma {:induction false} FailTimed(u: Unary, id: nat, on: bool, code: int)
    requires Timed(u, id, on)
    ensures Timed(FailPending(u, code), id, on)
    decreases |u.pending|
  {
    if u.pending != [] {
      PopTimed(u, id, on);
      var p, v := u.pending[0], u.(pending := u.pending[1..]);
      FailTimed(CompleteCall(v, p.id, NewCall(p.timer, 0), code, []), id, on, code);
    }
  }

  lemma TimeoutTimed(u: Unary, id: nat, on: bool, other: nat, r: bool)
    requires Timed(u, id, on) && (on ==> other != id)
    ensures Timed(UnaryTimeout(u, other, r), id, on)
  {
    ResetFewer(u, other, DEADLINE_EXCEEDED, r);
    hide ResetCall;
  }

  lemma IssueTimed(ch: Channel, id: nat, on: bool, other: nat, timed: bool, sid: int)
    requires Timed(ch.unary, id, on) && (other == id ==> timed == on)
    ensures Timed(IssueCall(ch, other, timed, sid).unary, id, on)
  {
  }

  /** Nothing but its firing stops a call's timer while the call is open, and nothing starts one. */
  lemma TimedStep(ch: Channel, step: Step, id: nat, on: bool)
    requires id in ch.unary.issued && Timed(ch.unary, id, on) && (on ==> !Fires(step, id))
    ensures Timed(Apply(ch, step).unary, id, on)
  {
    var u := ch.unary;
    hide Timed, Fewer, IssueCall, ResetCall, UnaryTimeout, UnaryHeaders, UnaryData, UnaryClosed, FailPending,
      StartPending, LoseCalls;
    if Enabled(ch, step) {
      match step
      case CallStep(other, timed, sid) => IssueTimed(ch, id, on, other, timed, sid);
      case CancelStep(other, r) =>
        ResetFewer(u, other, UNAVAILABLE, r);
        FewerTimed(u, ResetCall(u, other, UNAVAILABLE, r), id, on);
      case TimeoutStep(other, r) => TimeoutTimed(u, id, on, other, r);
      case ConnectedStep(a, b) => StartTimed(u, id, on, a, ch.limit);
      case ConnectFailedStep(code) => FailTimed(u, id, on, code);
      case HeadersStep(sid, status, http200) =>
        HeadersFewer(u, sid, status, http200);
        FewerTimed(u, UnaryHeaders(u, sid, status, http200), id, on);
      case DataStep(sid, data) =>
        DataFewer(u, sid, data);
        FewerTimed(u, UnaryData(u, sid, data), id, on);
      case ClosedStep(sid, _) =>
        HeadersFewer(u, sid, None, true);
        FewerTimed(u, UnaryClosed(u, sid), id, on);
      case LostStep => LostTimed(u, id, on);
      case _ => StreamStepsLeaveCalls(ch, step);
    }
  }

  lemma LostTimed(u: Unary, id: nat, on: bool)
    requires Timed(u, id, on)
    ensures Timed(LoseCalls(u), id, on)
  {
    var v := u.(calls := map[], byStream := map[], done := u.done + LostCalls(Ascending(LiveIds(u))));
    FailTimed(v, id, on, UNAVAILABLE);
  }

  lemma {:induction false} IssuedFailPending(u: Unary, code: int)
    ensures FailPending(u, code).issued == u.issued
    decreases |u.pending|
  {
    if u.pending != [] {
      var p, v := u.pending[0], u.(pending := u.pending[1..]);
      IssuedFailPending(CompleteCall(v, p.id, NewCall(p.timer, 0), code, []), code);
    }
  }

  lemma {:induction false} IssuedStart(u: Unary, sids: seq<int>, limit: nat)
    requires |sids| == |u.pending|
    ensures StartPending(u, sids, limit).issued == u.issued
    decreases |u.pending|
  {
    if u.pending != [] {
      var p, v := u.pending[0], u.(pending := u.pending[1..]);
      IssuedStart(CallNow(v, p.id, p.timer, sids[0], limit), sids[1..], limit);
    }
  }

  lemma IssuedStays(ch: Channel, step: Step, id: nat)
    requires id in ch.unary.issued
    ensures id in Apply(ch, step).unary.issued
  {
    var u := ch.unary;
    match step
    case ConnectedStep(a, b) => if |a| == |u.pending| { IssuedStart(u, a, ch.limit); }
    case ConnectFailedStep(code) => IssuedFailPending(u, code);
    case LostStep =>
      var v := u.(calls := map[], byStream := map[], done := u.done + LostCalls(Ascending(LiveIds(u))));
      IssuedFailPending(v, UNAVAILABLE);
    case _ =>
      if step.OpenStep? || step.SendStep? || step.CloseSendStep? || step.StreamTimeoutStep? || step.ConsumedStep?
         || step.PumpStep? { StreamStepsLeaveCalls(ch, step); }
  }

  lemma {:induction false} TimedRun(ch: Channel, steps: seq<Step>, id: nat, on: bool)
    requires id in ch.unary.issued && Timed(ch.unary, id, on)
    requires on ==> forall i :: 0 <= i < |steps| ==> !Fires(steps[i], id)
    ensures Timed(Run(ch, steps).unary, id, on)
    decreases |steps|
  {
    if steps != [] {
      TimedStep(ch, steps[0], id, on);
      IssuedStays(ch, steps[0], id);
      hide Apply, Timed;
      TimedRun(Apply(ch, steps[0]), steps[1..], id, on);
    }
  }

  lemma DisarmUnarms(u: Unary, id: nat)
    requires id !in u.calls
    ensures Timed(u.(pending := Disarm(u.pending, id)), id, false)
  {
  }

  lemma ArmedIsIssued(u: Unary, last: nat, id: nat)
    requires UnaryInv(u, last) && TimerArmed(u, id)
    ensures id in u.issued
  {
    var waiting: seq<nat> := PendingIds(u.pending);
    if id !in u.calls {
      var i :| 0 <= i < |u.pending| && u.pending[i] == PendingCall(id, true);
      assert waiting[i] == id;
      assert multiset(waiting)[id] > 0;
    }
    assert multiset(u.issued)[id] >= multiset(waiting)[id] + multiset(u.calls.Keys)[id];
  }

  /**
   A call's timer ends the call as DEADLINE_EXCEEDED if and only if the call has been submitted. One
   that fires while the call waits for the connection reports nothing, and the call has no deadline
   from then on, in every continuation.
   */
  lemma CallDeadlineExactly(ch: Channel, id: nat, reentrant: bool)
    requires CallsInv(ch) && Enabled(ch, TimeoutStep(id, reentrant))
    ensures var t := Apply(ch, TimeoutStep(id, reentrant));
            && (t.unary.done == ch.unary.done + [Done(id, DEADLINE_EXCEEDED, [])] <==> id in ch.unary.calls)
            && (id !in ch.unary.calls ==>
                  t.unary.done == ch.unary.done && forall steps :: !TimerArmed(Run(t, steps).unary, id))
  {
    var t := Apply(ch, TimeoutStep(id, reentrant));
    var u := ch.unary;
    if id in u.calls {
      hide ResetCall;
      ResetKeeps(u, ch.lastSid, id, DEADLINE_EXCEEDED, reentrant);
    } else {
      ArmedIsIssued(u, ch.lastSid, id);
      DisarmUnarms(u, id);
      assert |u.done + [Done(id, DEADLINE_EXCEEDED, [])]| == |u.done| + 1;
      forall steps ensures !TimerArmed(Run(t, steps).unary, id) {
        TimedRun(t, steps, id, false);
        TimedExactly(Run(t, steps).unary, id, false);
      }
    }
  }

  lemma NotOpenYet(ch: Channel, id: nat)
    requires CallsInv(ch) && id !in ch.unary.issued
    ensures Timed(ch.unary, id, false) && Timed(ch.unary, id, true)
  {
    var u := ch.unary;
    var waiting: seq<nat> := PendingIds(u.pending);
    assert multiset(u.issued)[id] >= multiset(waiting)[id] + multiset(u.calls.Keys)[id];
    forall i | 0 <= i < |u.pending| ensures u.pending[i].id != id {
      assert waiting[i] == u.pending[i].id && multiset(waiting)[waiting[i]] > 0;
    }
  }

  /**
   The timer of a call issued with a timeout runs until it fires or the call ends, whether the call is
   submitted at once, waits, or is submitted later; without a timeout there is none.
   */
  lemma CallTimerExactly(ch: Channel, id: nat, timed: bool, sid: int, steps: seq<Step>)
    requires CallsInv(ch) && Enabled(ch, CallStep(id, timed, sid))
    requires forall i :: 0 <= i < |steps| ==> !Fires(steps[i], id)
    ensures var u := Run(Apply(ch, CallStep(id, timed, sid)), steps).unary;
            TimerArmed(u, id) <==> timed && Open(u, id)
  {
    NotOpenYet(ch, id);
    IssueTimed(ch, id, timed, id, timed, sid);
    var t := Apply(ch, CallStep(id, timed, sid));
    hide CallsInv, Timed, Open, TimerArmed;
    TimedRun(t, steps, id, timed);
    TimedExactly(Run(t, steps).unary, id, timed);
  }
}
