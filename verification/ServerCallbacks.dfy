/** Every WriteMessage callback runs at most once; which ones never run. */
module ServerCallbacks {
  import opened Codec
  import opened StatusCodes
  import opened Server
  import opened ServerWire

  function FiredIds(f: seq<Fire>): (ids: seq<nat>)
    ensures |ids| == |f|
  {
    seq(|f|, i requires 0 <= i < |f| => f[i].id)
  }

  function QueueIds(q: seq<OutMsg>): (ids: seq<nat>)
    ensures |ids| == |q|
  {
    seq(|q|, i requires 0 <= i < |q| => q[i].id)
  }

  function BodyIds(b: Option<OutMsg>): seq<nat> {
    if b.Some? then [b.value.id] else []
  }

  ghost function UpTo(n: nat): (m: multiset<nat>)
    ensures forall i: nat :: m[i] == if i < n then 1 else 0
  {
    if n == 0 then multiset{} else UpTo(n - 1) + multiset{n - 1}
  }

  /** Every write made so far has run its callback, or is queued, or is in flight: exactly one of them. */
  ghost predicate CallbackInv(s: Stream) {
    multiset(FiredIds(s.fired)) + multiset(QueueIds(s.output.queue)) + multiset(BodyIds(s.body)) == UpTo(s.writes)
  }

  lemma FiredAppend(f: seq<Fire>, x: Fire)
    ensures multiset(FiredIds(f + [x])) == multiset(FiredIds(f)) + multiset{x.id}
  {
    assert FiredIds(f + [x]) == FiredIds(f) + [x.id];
  }

  lemma QueuePop(q: seq<OutMsg>)
    requires q != []
    ensures multiset(QueueIds(q)) == multiset{q[0].id} + multiset(QueueIds(q[1..]))
  {
    assert QueueIds(q) == [q[0].id] + QueueIds(q[1..]);
  }

  lemma QueuePush(q: seq<OutMsg>, m: OutMsg)
    ensures multiset(QueueIds(q + [m])) == multiset(QueueIds(q)) + multiset{m.id}
  {
    assert QueueIds(q + [m]) == QueueIds(q) + [m.id];
  }

  lemma PumpCallbacks(s: Stream)
    requires CallbackInv(s) && (s.Present() ==> (s.output.inflight <==> s.body.Some?))
    ensures CallbackInv(PumpOut(s))
  {
    hide FiredIds, QueueIds, UpTo;
    if s.output.queue != [] { QueuePop(s.output.queue); }
  }

  lemma UpToNext(n: nat)
    ensures UpTo(n + 1) == UpTo(n) + multiset{n}
  {
  }

  lemma RejectCallbacks(s: Stream, code: int)
    requires CallbackInv(s)
    ensures CallbackInv(Reject(s, code))
  {
    hide FiredIds, QueueIds, UpTo;
    UpToNext(s.writes);
    FiredAppend(s.fired, Fire(s.writes, code));
  }

  lemma EnqueueCallbacks(s: Stream, payload: Bytes)
    requires CallbackInv(s)
    ensures CallbackInv(Enqueue(s, payload))
  {
    hide FiredIds, QueueIds, UpTo;
    UpToNext(s.writes);
    QueuePush(s.output.queue, OutMsg(s.writes, Frame(payload)));
  }

  lemma WriteCallbacks(s: Stream, payload: Bytes)
    requires CallbackInv(s) && (s.Present() ==> (s.output.inflight <==> s.body.Some?))
    ensures CallbackInv(WriteMessage(s, payload))
  {
    hide CallbackInv, PumpOut, Reject;
    RejectCallbacks(s, UNAVAILABLE);
    RejectCallbacks(s, INTERNAL);
    RejectCallbacks(s, RESOURCE_EXHAUSTED);
    EnqueueCallbacks(s, payload);
    PumpCallbacks(Enqueue(s, payload));
  }

  /** The steps that neither write, nor pump, nor consume, nor fail a write touch none of the three places. */
  predicate SamePlaces(s: Stream, t: Stream) {
    t.fired == s.fired && t.output.queue == s.output.queue && t.body == s.body && t.writes == s.writes
  }

  lemma RequestPlaces(s: Stream, step: Step)
    requires step.HeadersStep? || step.ChunkStep? || step.TakeStep? || step.EndStep?
    requires s.phase.Idle? ==> s == Init()
    ensures SamePlaces(s, Apply(s, step))
  {
    EndPlaces(s);
    hide Feed, FeedError, FinishRequest;
  }

  lemma EndPlaces(s: Stream)
    ensures SamePlaces(s, FinishRequest(s))
  {
    HalfClosePlaces(s.(input := s.input.(requestDone := true)));
    hide HalfClose;
  }

  lemma HalfClosePlaces(s: Stream)
    ensures SamePlaces(s, HalfClose(s))
  {
  }

  lemma OtherPlaces(s: Stream, step: Step)
    requires !step.HeadersStep? && !step.ChunkStep? && !step.TakeStep? && !step.EndStep?
    requires !step.WriteStep? && !step.ConsumedStep? && !step.FailStep? && !step.PumpStep?
    ensures SamePlaces(s, Apply(s, step))
  {
  }

  lemma ConsumedCallbacks(s: Stream)
    requires CallbackInv(s) && s.body.Some?
    ensures CallbackInv(Consumed(s))
  {
    hide FiredIds, QueueIds, UpTo;
    FiredAppend(s.fired, Fire(s.body.value.id, OK));
  }

  lemma FailCallbacks(s: Stream)
    requires CallbackInv(s) && s.output.queue != []
    ensures CallbackInv(FailQueued(s))
  {
    hide FiredIds, QueueIds, UpTo;
    QueuePop(s.output.queue);
    FiredAppend(s.fired, Fire(s.output.queue[0].id, UNAVAILABLE));
  }

  lemma WriteStepKeeps(s: Stream, payload: Bytes)
    requires CallbackInv(s) && WireInv(s)
    ensures CallbackInv(Apply(s, WriteStep(payload)))
  {
    assert s.Present() ==> (s.output.inflight <==> s.body.Some?);
    hide WireInv, CallbackInv, WriteMessage;
    WriteCallbacks(s, payload);
  }

  lemma PumpStepKeeps(s: Stream)
    requires CallbackInv(s) && WireInv(s)
    ensures CallbackInv(Apply(s, PumpStep))
  {
    assert s.Present() ==> (s.output.inflight <==> s.body.Some?);
    hide WireInv, CallbackInv, PumpOut;
    PumpCallbacks(s);
  }

  lemma ConsumedStepKeeps(s: Stream)
    requires CallbackInv(s)
    ensures CallbackInv(Apply(s, ConsumedStep))
  {
    hide CallbackInv, Consumed;
    if s.body.Some? { ConsumedCallbacks(s); }
  }

  lemma FailStepKeeps(s: Stream)
    requires CallbackInv(s)
    ensures CallbackInv(Apply(s, FailStep))
  {
    hide CallbackInv, FailQueued;
    if s.output.queue != [] { FailCallbacks(s); }
  }

  lemma OtherStepKeeps(s: Stream, step: Step)
    requires CallbackInv(s) && WireInv(s)
    requires !step.WriteStep? && !step.PumpStep? && !step.ConsumedStep? && !step.FailStep?
    ensures CallbackInv(Apply(s, step))
  {
    assert s.phase.Idle? ==> s == Init();
    hide WireInv, Apply, FiredIds, QueueIds, UpTo;
    if step.HeadersStep? || step.ChunkStep? || step.TakeStep? || step.EndStep? {
      RequestPlaces(s, step);
    } else {
      OtherPlaces(s, step);
    }
  }

  lemma CallbackStep(s: Stream, step: Step)
    requires CallbackInv(s) && WireInv(s)
    ensures CallbackInv(Apply(s, step))
  {
    hide WireInv, CallbackInv, Apply;
    match step
    case WriteStep(p) => WriteStepKeeps(s, p);
    case PumpStep => PumpStepKeeps(s);
    case ConsumedStep => ConsumedStepKeeps(s);
    case FailStep => FailStepKeeps(s);
    case _ => OtherStepKeeps(s, step);
  }

  lemma {:induction false} CallbackRun(s: Stream, steps: seq<Step>)
    requires CallbackInv(s) && WireInv(s)
    ensures CallbackInv(Run(s, steps)) && WireInv(Run(s, steps))
    decreases |steps|
  {
    hide CallbackInv, WireInv, Apply;
    if steps != [] {
      CallbackStep(s, steps[0]);
      WireStep(s, steps[0]);
      CallbackRun(Apply(s, steps[0]), steps[1..]);
    }
  }

  /** How often the callback of write `id` ran. */
  function Runs(s: Stream, id: nat): nat {
    multiset(FiredIds(s.fired))[id]
  }

  predicate Waits(s: Stream, id: nat) {
    id in QueueIds(s.output.queue) || id in BodyIds(s.body)
  }

  /** In every run a write's callback has run once or the write still waits, never both, never twice. */
  lemma WriteCallbacksConserved(steps: seq<Step>, id: nat)
    ensures var s := Run(Init(), steps);
            if id < s.writes then Runs(s, id) == (if Waits(s, id) then 0 else 1)
            else Runs(s, id) == 0 && !Waits(s, id)
  {
    var s0 := Init();
    assert FiredIds(s0.fired) == [] && QueueIds(s0.output.queue) == [];
    CallbackRun(s0, steps);
    var s := Run(s0, steps);
    var q: seq<nat>, b: seq<nat> := QueueIds(s.output.queue), BodyIds(s.body);
    assert UpTo(s.writes)[id] == Runs(s, id) + multiset(q)[id] + multiset(b)[id];
    assert id in q <==> multiset(q)[id] > 0;
    assert id in b <==> multiset(b)[id] > 0;
  }

  // ---- which callbacks never run --------------------------------------------------------------

  /** The queue holds only writes numbered `n` and later. */
  predicate QueuedSince(s: Stream, n: nat) {
    && (s.phase.Cancelling? || s.phase.Gone?)
    && n <= s.writes
    && forall i :: 0 <= i < |s.output.queue| ==> s.output.queue[i].id >= n
  }

  lemma QueuedSinceStep(s: Stream, n: nat, step: Step)
    requires QueuedSince(s, n)
    ensures QueuedSince(Apply(s, step), n)
  {
    if step.HeadersStep? || step.ChunkStep? || step.TakeStep? || step.EndStep? {
      RequestPlaces(s, step);
      hide Feed, FeedError;
    } else if !step.WriteStep? && !step.ConsumedStep? && !step.FailStep? && !step.PumpStep? {
      OtherPlaces(s, step);
    }
  }

  lemma {:induction false} QueuedSinceRun(s: Stream, n: nat, steps: seq<Step>)
    requires QueuedSince(s, n)
    ensures QueuedSince(Run(s, steps), n)
    decreases |steps|
  {
    hide QueuedSince, Apply;
    if steps != [] {
      QueuedSinceStep(s, n, steps[0]);
      QueuedSinceRun(Apply(s, steps[0]), n, steps[1..]);
    }
  }

  /**
   On close, every write made before the cancel callbacks run has its callback run exactly once,
   save at most the one in flight. `before` leads to the point where queued writes have been failed.
   */
  lemma CloseResolvesWrites(before: seq<Step>, after: seq<Step>, id: nat)
    requires var s := Run(Init(), before); Enabled(s, CancelStep) && id < s.writes
    ensures var t := Run(Run(Init(), before), [CancelStep] + after);
            Runs(t, id) == 1 || (Runs(t, id) == 0 && BodyIds(t.body) == [id])
  {
    var s := Run(Init(), before);
    var t := Run(s, [CancelStep] + after);
    assert t == Run(Apply(s, CancelStep), after) by { RunCons(s, CancelStep, after); }
    QueuedSinceRun(Apply(s, CancelStep), s.writes, after);
    assert id !in QueueIds(t.output.queue);
    RunAppend(Init(), before, [CancelStep] + after);
    WriteCallbacksConserved(before + ([CancelStep] + after), id);
    assert id < t.writes;
  }

  lemma RunCons(s: Stream, a: Step, rest: seq<Step>)
    ensures Run(s, [a] + rest) == Run(Apply(s, a), rest)
  {
    hide Apply;
    assert ([a] + rest)[1..] == rest;
  }

  lemma {:induction false} RunAppend(s: Stream, a: seq<Step>, b: seq<Step>)
    ensures Run(s, a + b) == Run(Run(s, a), b)
    decreases |a|
  {
    hide Apply;
    if a == [] {
      assert a + b == b;
    } else {
      RunAppend(Apply(s, a[0]), a[1..], b);
      assert (a + b)[1..] == a[1..] + b;
    }
  }
}
