/**
 Starting and draining a server: the listener, the set of live connections, the grace timer, and the
 `drained` flag that `Shutdown` and `Wait` block on. Each step is one task or event on the loop
 thread, under the server's mutex, except the request that posts the drain task.
 */
module Shutdown {
  /** A live connection; a busy one has calls in its table. */
  datatype Conn = Conn(id: nat, busy: bool, closed: bool)

  datatype State = State(
    started: bool,          // Start's task ran
    listening: bool,
    requested: bool,
    posted: bool,           // the drain task waits in the loop
    grace: bool,            // the grace timer runs
    closing: bool,          // the listener's close callback waits
    drained: bool,
    conns: seq<Conn>,
    closes: nat,            // times the listener was closed
    hung: bool)             // the loop thread waits for a mutex it holds

  function Init(): State {
    State(false, false, false, false, false, false, false, [], 0, false)
  }

  function StartTask(s: State, ok: bool): State {
    s.(listening := ok, started := true)
  }

  function Accept(s: State, id: nat): State {
    s.(conns := s.conns + [Conn(id, false, false)])
  }

  function SetBusy(conns: seq<Conn>, id: nat, busy: bool): (r: seq<Conn>)
    ensures |r| == |conns|
  {
    seq(|conns|, i requires 0 <= i < |conns| => if conns[i].id == id then conns[i].(busy := busy) else conns[i])
  }

  function SetClosed(conns: seq<Conn>, id: nat): (r: seq<Conn>)
    ensures |r| == |conns|
  {
    seq(|conns|, i requires 0 <= i < |conns| => if conns[i].id == id then conns[i].(closed := true) else conns[i])
  }

  function Open(conns: seq<Conn>): (r: seq<Conn>) {
    if conns == [] then [] else (if conns[0].closed then [] else [conns[0]]) + Open(conns[1..])
  }

  function Busy(conns: seq<Conn>): (r: seq<Conn>) {
    if conns == [] then [] else (if conns[0].busy then [conns[0]] else []) + Busy(conns[1..])
  }

  /** The listener is told to close; its callback comes later. */
  function CloseListener(s: State): State {
    s.(listening := false, closing := true, closes := s.closes + 1)
  }

  /** Drops finished connections; the last one to go during shutdown closes the listener. */
  function OnConnIdle(s: State): State {
    var t := s.(conns := Open(s.conns));
    if t.requested && t.conns == [] && !t.drained && t.listening then CloseListener(t) else t
  }

  /** A connection's read side ended. */
  function ConnEnds(s: State, id: nat): State {
    OnConnIdle(s.(conns := SetClosed(s.conns, id)))
  }

  function CloseCallback(s: State): State {
    s.(closing := false, drained := true)
  }

  function Request(s: State): State {
    if !s.started || s.requested then s else s.(requested := true, posted := true)
  }

  /** Idle connections go at once; busy ones get the grace period. */
  function DrainTask(s: State): State {
    var t := s.(posted := false, conns := Busy(s.conns));
    if t.conns != [] then t.(grace := true)
    else if t.listening then CloseListener(t)
    else t.(hung := true)
  }

  /** The grace period ended. */
  function FinishShutdown(s: State): State {
    var t := s.(grace := false);
    if t.drained then t
    else if t.listening then CloseListener(t.(conns := []))
    else t.(conns := [], drained := true)
  }

  // ---- runs -----------------------------------------------------------------------------------

  datatype Step =
    | StartStep(ok: bool)
    | AcceptStep(id: nat)
    | BusyStep(id: nat, busy: bool)
    | EndStep(id: nat)
    | RequestStep
    | DrainStep
    | GraceStep
    | ClosedStep

  predicate Enabled(s: State, step: Step) {
    !s.hung &&
    match step
    case StartStep(_) => !s.started
    case AcceptStep(_) => s.listening
    case BusyStep(_, _) => true
    case EndStep(id) => exists c :: c in s.conns && c.id == id
    case RequestStep => true
    case DrainStep => s.posted
    case GraceStep => s.grace
    case ClosedStep => s.closing
  }

  function Apply(s: State, step: Step): State {
    if !Enabled(s, step) then s else
    match step
    case StartStep(ok) => StartTask(s, ok)
    case AcceptStep(id) => Accept(s, id)
    case BusyStep(id, busy) => s.(conns := SetBusy(s.conns, id, busy))
    case EndStep(id) => ConnEnds(s, id)
    case RequestStep => Request(s)
    case DrainStep => DrainTask(s)
    case GraceStep => FinishShutdown(s)
    case ClosedStep => CloseCallback(s)
  }

  function Run(s: State, steps: seq<Step>): State
    decreases |steps|
  {
    if steps == [] then s else Run(Apply(s, steps[0]), steps[1..])
  }

  // ---- the invariant --------------------------------------------------------------------------

  predicate AllOpen(conns: seq<Conn>) {
    forall c :: c in conns ==> !c.closed
  }

  predicate Inv(s: State) {
    && AllOpen(s.conns)
    && (s.listening ==> s.started && s.closes == 0 && !s.closing && !s.drained)
    && (!s.listening ==> s.conns == [] && s.closes <= 1)
    && (s.closing ==> s.closes == 1)
    && (!s.started ==> !s.requested && s.closes == 0)
    && (s.posted || s.grace || s.closing || s.drained || s.hung ==> s.requested)
    && (s.requested && !s.posted && !s.drained && !s.hung ==> s.closing || (s.grace && s.listening))
    && (s.posted ==> !s.grace && !s.hung)
    && (s.drained || s.grace ==> s.listening || s.closes == 1)
  }

  lemma {:induction false} OpenIsOpen(conns: seq<Conn>)
    ensures AllOpen(Open(conns)) && |Open(conns)| <= |conns| && multiset(Open(conns)) <= multiset(conns)
  {
    if conns != [] {
      OpenIsOpen(conns[1..]);
      assert conns == [conns[0]] + conns[1..];
    }
  }

  lemma {:induction false} BusyKeepsOpen(conns: seq<Conn>)
    ensures AllOpen(conns) ==> AllOpen(Busy(conns))
    ensures |Busy(conns)| <= |conns| && multiset(Busy(conns)) <= multiset(conns)
  {
    if conns != [] {
      BusyKeepsOpen(conns[1..]);
      assert conns == [conns[0]] + conns[1..];
    }
  }

  lemma EndKeeps(s: State, id: nat)
    requires Inv(s)
    ensures Inv(ConnEnds(s, id))
  {
    var conns := SetClosed(s.conns, id);
    OpenIsOpen(conns);
    hide AllOpen, SetClosed, Open;
    if s.conns == [] { assert Open(conns) == [] by { assert conns == []; } }
  }

  lemma DrainKeeps(s: State)
    requires Inv(s) && s.posted
    ensures Inv(DrainTask(s))
  {
    BusyKeepsOpen(s.conns);
    hide AllOpen, Busy;
  }

  lemma SmallSteps(s: State, step: Step)
    requires Inv(s) && (step.StartStep? || step.RequestStep? || step.GraceStep? || step.ClosedStep?)
    ensures Inv(Apply(s, step))
  {
  }

  lemma ConnSteps(s: State, step: Step)
    requires Inv(s) && (step.AcceptStep? || step.BusyStep?)
    ensures Inv(Apply(s, step))
  {
    if step.BusyStep? {
      var r := SetBusy(s.conns, step.id, step.busy);
      assert forall i :: 0 <= i < |r| ==> s.conns[i] in s.conns && r[i].closed == s.conns[i].closed;
      assert AllOpen(r);
    }
  }

  lemma InvStep(s: State, step: Step)
    requires Inv(s)
    ensures Inv(Apply(s, step))
  {
    hide Inv, ConnEnds, DrainTask, FinishShutdown, CloseCallback, Accept, SetBusy, StartTask, Request;
    match step
    case EndStep(id) => EndKeeps(s, id);
    case DrainStep => if s.posted { DrainKeeps(s); }
    case AcceptStep(_) => ConnSteps(s, step);
    case BusyStep(_, _) => ConnSteps(s, step);
    case _ => SmallSteps(s, step);
  }

  lemma {:induction false} InvRun(s: State, steps: seq<Step>)
    requires Inv(s)
    ensures Inv(Run(s, steps))
    decreases |steps|
  {
    hide Inv, Apply;
    if steps != [] {
      InvStep(s, steps[0]);
      InvRun(Apply(s, steps[0]), steps[1..]);
    }
  }

  /**
   Over all interleavings: the listener is closed at most once, a drained server listens to nothing
   and holds no connection, and no connection that ended stays in the set.
   */
  lemma DrainIsSafe(steps: seq<Step>)
    ensures var s := Run(Init(), steps);
            && s.closes <= 1
            && (s.drained ==> s.conns == [] && !s.listening && s.closes == 1)
            && (s.closes == 1 ==> !s.listening && s.conns == [])
            && AllOpen(s.conns)
  {
    InvRun(Init(), steps);
  }

  /** Once the server has stopped listening its set of connections never grows again. */
  lemma {:induction false} NoNewConnections(s: State, steps: seq<Step>)
    requires Inv(s) && s.started && !s.listening
    ensures !Run(s, steps).listening && Run(s, steps).conns == []
    decreases |steps|
  {
    if steps != [] {
      InvStep(s, steps[0]);
      StaysDeaf(s, steps[0]);
      hide Inv, Apply;
      NoNewConnections(Apply(s, steps[0]), steps[1..]);
    }
  }

  lemma StaysDeaf(s: State, step: Step)
    requires s.started && !s.listening
    ensures Apply(s, step).started && !Apply(s, step).listening
  {
  }

  /** How far a requested shutdown has come: requested, past its task, past the grace period, over. */
  predicate Stage(k: nat, s: State) {
    && Inv(s) && s.requested
    && (k >= 1 ==> !s.posted || s.hung)
    && (k >= 2 ==> s.closing || s.drained || s.hung)
    && (k >= 3 ==> s.drained || s.hung)
  }

  lemma StageStep(k: nat, s: State, step: Step)
    requires Stage(k, s)
    ensures Stage(k, Apply(s, step))
    ensures k == 0 && step.DrainStep? ==> Stage(1, Apply(s, step))
    ensures k == 1 && step.GraceStep? ==> Stage(2, Apply(s, step))
    ensures k == 2 && step.ClosedStep? ==> Stage(3, Apply(s, step))
  {
    InvStep(s, step);
    hide AllOpen, Open, Busy, SetBusy, SetClosed;
  }

  lemma {:induction false} StageRun(k: nat, s: State, steps: seq<Step>)
    requires Stage(k, s)
    ensures Stage(k, Run(s, steps))
    decreases |steps|
  {
    hide Stage, Apply;
    if steps != [] {
      StageStep(k, s, steps[0]);
      StageRun(k, Apply(s, steps[0]), steps[1..]);
    }
  }

  lemma {:induction false} RunAppend(s: State, a: seq<Step>, b: seq<Step>)
    ensures Run(s, a + b) == Run(Run(s, a), b)
    decreases |a|
  {
    hide Apply;
    if a == [] {
      assert a + b == b;
    } else {
      RunAppend(Apply(s, a[0]), a[1..], b);
      assert (a + b)[1..] == a[1..] + b;
    }
  }

  /** The steps `a`, then the event that ends stage `k`, then `b`. */
  lemma StageEnds(k: nat, s: State, a: seq<Step>, step: Step, b: seq<Step>)
    requires Stage(k, s) && k < 3
    requires match k case 0 => step.DrainStep? case 1 => step.GraceStep? case _ => step.ClosedStep?
    ensures var t := Apply(Run(s, a), step); Stage(k + 1, t) && Run(s, a + ([step] + b)) == Run(t, b)
  {
    StageRun(k, s, a);
    RunAppend(s, a, [step] + b);
    StageStep(k, Run(s, a), step);
    RunCons(Run(s, a), step, b);
  }

  /**
   A requested shutdown cannot stall. Whatever else happens, once its task has run, then the grace
   period has ended, then the listener's close callback has run, the server is drained, or the loop
   thread hangs; an event that was not due does nothing.
   */
  lemma ShutdownCompletes(s: State, a: seq<Step>, b: seq<Step>, c: seq<Step>, d: seq<Step>)
    requires Inv(s) && s.requested
    ensures var t := Run(s, a + ([DrainStep] + (b + ([GraceStep] + (c + ([ClosedStep] + d))))));
            t.hung || (t.drained && t.conns == [] && !t.listening && t.closes == 1)
  {
    var tail := c + ([ClosedStep] + d);
    StageEnds(0, s, a, DrainStep, b + ([GraceStep] + tail));
    var t1 := Apply(Run(s, a), DrainStep);
    hide Stage, Run, Apply;
    StageEnds(1, t1, b, GraceStep, tail);
    var t2 := Apply(Run(t1, b), GraceStep);
    StageEnds(2, t2, c, ClosedStep, d);
    StageRun(3, Apply(Run(t2, c), ClosedStep), d);
    StageOver(Run(Apply(Run(t2, c), ClosedStep), d));
  }

  lemma StageOver(t: State)
    requires Stage(3, t)
    ensures t.hung || (t.drained && t.conns == [] && !t.listening && t.closes == 1)
  {
    hide AllOpen;
  }

  // ---- where the comments promise more --------------------------------------------------------

  /** The server is reported drained while the listener's close callback is still to come. */
  predicate Early(s: State) {
    s.drained && s.closing
  }

  /**
   `drained` precedes the listener's close callback exactly when the grace timer fires between the
   listener's close and that callback; then it stays so until the callback.
   */
  lemma DrainedEarlyExactly(s: State, step: Step)
    requires Inv(s)
    ensures Early(Apply(s, step)) <==>
              (Early(s) && (step.ClosedStep? ==> s.hung)) || (!s.hung && step.GraceStep? && s.grace && s.closing)
  {
    hide Open, Busy, SetBusy, SetClosed, AllOpen;
  }

  lemma RunCons(s: State, step: Step, rest: seq<Step>)
    ensures Run(s, [step] + rest) == Run(Apply(s, step), rest)
  {
    assert ([step] + rest)[1..] == rest;
  }

  /** A started server with one connection and a shutdown request whose task waits. */
  function Waiting(c: Conn): State {
    State(true, true, true, true, false, false, false, [c], 0, false)
  }

  lemma ReachWaiting(busy: bool, rest: seq<Step>)
    ensures var steps := [StartStep(true)] + ([AcceptStep(0)] + ([BusyStep(0, busy)] + ([RequestStep] + rest)));
            Run(Init(), steps) == Run(Waiting(Conn(0, busy, false)), rest)
  {
    var c := Conn(0, busy, false);
    var r4 := [RequestStep] + rest;
    var r3 := [BusyStep(0, busy)] + r4;
    var r2 := [AcceptStep(0)] + r3;
    var s1 := StartTask(Init(), true);
    var s2 := Accept(s1, 0);
    var s3 := s2.(conns := [c]);
    assert SetBusy(s2.conns, 0, busy) == [c];
    assert Request(s3) == Waiting(c);
    RunCons(Init(), StartStep(true), r2);
    RunCons(s1, AcceptStep(0), r3);
    RunCons(s2, BusyStep(0, busy), r4);
    RunCons(s3, RequestStep, rest);
  }

  lemma LastEnds(s: State, c: Conn)
    requires s.conns == [c] && s.requested && !s.drained && s.listening && !s.hung
    ensures Apply(s, EndStep(c.id)) == CloseListener(s.(conns := []))
  {
    assert c in s.conns;
    var d := c.(closed := true);
    assert SetClosed([c], c.id) == [d];
    assert Open([d]) == [] by { assert [d][1..] == []; }
  }

  /** And that happens: a connection that was busy ends by itself, then its grace period ends. */
  lemma DrainedEarlyHappens()
    ensures exists steps :: Early(Run(Init(), steps))
  {
    var c := Conn(0, true, false);
    var last := [GraceStep];
    var tail := [DrainStep] + ([EndStep(0)] + last);
    ReachWaiting(true, tail);
    EarlyFromWaiting(c, tail, last);
  }

  lemma EarlyFromWaiting(c: Conn, tail: seq<Step>, last: seq<Step>)
    requires c == Conn(0, true, false) && last == [GraceStep] && tail == [DrainStep] + ([EndStep(0)] + last)
    ensures Early(Run(Waiting(c), tail))
  {
    var s4 := Waiting(c);
    var s5 := s4.(posted := false, grace := true);
    var s6 := CloseListener(s5.(conns := []));
    assert Busy([c]) == [c] by { assert [c][1..] == []; }
    assert Apply(s4, DrainStep) == s5;
    assert Early(Apply(s6, GraceStep));
    LastEnds(s5, c);
    hide Apply;
    RunCons(s4, DrainStep, [EndStep(0)] + last);
    RunCons(s5, EndStep(0), last);
    assert last == [GraceStep] + [];
    RunCons(s6, GraceStep, []);
  }

  /** The loop thread hangs although the listener has been closed: Start had succeeded. */
  predicate HungAfterStart(s: State) {
    s.hung && s.closes == 1
  }

  /** Shutdown hangs on a server that started: its one connection ends before the drain task runs. */
  lemma DrainHangHappens()
    ensures exists steps :: HungAfterStart(Run(Init(), steps))
  {
    var c := Conn(0, false, false);
    var last := [DrainStep];
    var tail := [EndStep(0)] + last;
    ReachWaiting(false, tail);
    HangFromWaiting(c, tail, last);
  }

  lemma HangFromWaiting(c: Conn, tail: seq<Step>, last: seq<Step>)
    requires c == Conn(0, false, false) && last == [DrainStep] && tail == [EndStep(0)] + last
    ensures HungAfterStart(Run(Waiting(c), tail))
  {
    var s4 := Waiting(c);
    var s5 := CloseListener(s4.(conns := []));
    LastEnds(s4, c);
    assert HungAfterStart(Apply(s5, DrainStep));
    hide Apply;
    RunCons(s4, EndStep(0), last);
    assert last == [DrainStep] + [];
    RunCons(s5, DrainStep, []);
  }

  /**
   The drain task locks the mutex it already holds exactly when it finds the listener closed: Start
   had failed, or the last connection ended between the request and the task.
   */
  lemma DrainHangsExactly(s: State)
    requires Inv(s) && s.posted && !s.hung
    ensures Apply(s, DrainStep).hung <==> !s.listening
  {
    BusyKeepsOpen(s.conns);
    hide AllOpen, Busy;
  }

  // ---- the class ------------------------------------------------------------------------------

  class Impl {
    var started: bool
    var listening: bool
    var shutdownRequested: bool
    var posted: bool
    var grace: bool
    var closing: bool
    var drained: bool
    var conns: seq<Conn>
    var hung: bool
    ghost var closes: nat

    ghost function Value(): State
      reads this
    {
      State(started, listening, shutdownRequested, posted, grace, closing, drained, conns, closes, hung)
    }

    /** The listener is closed at most once, and a drained server is deaf and empty. */
    ghost predicate Valid()
      reads this
    {
      Inv(Value())
    }

    constructor ()
      ensures Valid() && Value() == Init()
    {
      started, listening, shutdownRequested, posted, grace := false, false, false, false, false;
      closing, drained, conns, hung, closes := false, false, [], false, 0;
    }

    method Close()
      modifies this
      ensures Value() == CloseListener(old(Value()))
    {
      listening, closing, closes := false, true, closes + 1;
    }

    method DropClosed()
      modifies this`conns
      ensures conns == Open(old(conns))
    {
      hide Without;
      var i := 0;
      assert conns[..0] + Open(conns[0..]) == Open(conns) by { assert conns[0..] == conns; }
      while i < |conns|
        invariant 0 <= i <= |conns|
        invariant conns[..i] + Open(conns[i..]) == Open(old(conns))
        decreases |conns| - i
      {
        hide Open;
        WithoutParts(conns, i);
        OpenTurn(conns, i);
        if conns[i].closed {
          conns := Without(conns, i);
        } else {
          i := i + 1;
        }
      }
      assert conns[..i] + Open(conns[i..]) == conns;
    }

    method ConnIdle()
      modifies this
      ensures Value() == OnConnIdle(old(Value()))
    {
      DropClosed();
      if shutdownRequested && conns == [] && !drained && listening {
        Close();
      }
    }

    /**
     A connection's socket ended: exactly its entry goes, and the listener is closed if it was the
     last one of a server that is shutting down.
     */
    method OnReadEnd(id: nat)
      requires Valid()
      modifies this
      ensures Valid() && Value() == ConnEnds(old(Value()), id)
      ensures forall c :: c in conns <==> c in old(conns) && c.id != id
      ensures listening == (old(listening) && !(shutdownRequested && conns == []))
      ensures closes <= 1 && (drained ==> conns == [] && !listening)
    {
      EndKeeps(Value(), id);
      EndedExactly(conns, id);
      hide AllOpen, Open, SetClosed;
      conns := SetClosed(conns, id);
      ConnIdle();
    }

    /** The drain task is posted by the first request after the start, and by no other. */
    method RequestShutdown()
      requires Valid() && !hung
      modifies this
      ensures Valid() && Value() == Request(old(Value()))
      ensures posted == (old(posted) || (started && !old(shutdownRequested)))
      ensures shutdownRequested == (old(shutdownRequested) || started)
    {
      SmallSteps(Value(), RequestStep);
      hide AllOpen;
      if !started || shutdownRequested { return; }
      shutdownRequested, posted := true, true;
    }

    method DropIdle()
      modifies this`conns
      ensures conns == Busy(old(conns))
    {
      hide Without;
      var i := 0;
      assert conns[..0] + Busy(conns[0..]) == Busy(conns) by { assert conns[0..] == conns; }
      while i < |conns|
        invariant 0 <= i <= |conns|
        invariant conns[..i] + Busy(conns[i..]) == Busy(old(conns))
        decreases |conns| - i
      {
        hide Busy;
        WithoutParts(conns, i);
        BusyTurn(conns, i);
        if !conns[i].busy {
          conns := Without(conns, i);
        } else {
          i := i + 1;
        }
      }
      assert conns[..i] + Busy(conns[i..]) == conns;
    }

    /** Only busy connections are waited for; with none the listener is closed, unless it already was. */
    method Drain()
      requires Valid() && posted && !hung
      modifies this
      ensures Valid() && Value() == DrainTask(old(Value()))
      ensures forall c :: c in conns <==> c in old(conns) && c.busy
      ensures (hung <==> !old(listening)) && (grace <==> conns != [])
      ensures conns == [] && !hung ==> closing && closes == 1 && !listening
    {
      DrainKeeps(Value());
      BusyExactly(conns);
      hide AllOpen, Busy;
      posted := false;
      DropIdle();
      if conns != [] {
        grace := true;
      } else if listening {
        Close();
      } else {
        hung := true;
      }
    }

    /** After the grace period nothing is left open; `drained` is early if the close callback is still due. */
    method OnGrace()
      requires Valid() && grace && !hung
      modifies this
      ensures Valid() && Value() == FinishShutdown(old(Value()))
      ensures conns == [] && !listening && closes == 1 && (closing || drained)
      ensures drained && closing <==> old(closing)
    {
      SmallSteps(Value(), GraceStep);
      hide AllOpen;
      grace := false;
      if drained { return; }
      conns := [];
      if listening { Close(); } else { drained := true; }
    }

    method OnListenerClosed()
      requires Valid() && closing && !hung
      modifies this
      ensures Valid() && Value() == CloseCallback(old(Value()))
      ensures drained && conns == [] && !listening && closes == 1
    {
      SmallSteps(Value(), ClosedStep);
      hide AllOpen;
      closing := false;
      if !drained { drained := true; }
    }
  }

  lemma {:induction false} OpenExactly(conns: seq<Conn>)
    ensures forall c :: c in Open(conns) <==> c in conns && !c.closed
  {
    if conns != [] {
      OpenExactly(conns[1..]);
      assert conns == [conns[0]] + conns[1..];
    }
  }

  lemma {:induction false} BusyExactly(conns: seq<Conn>)
    ensures forall c :: c in Busy(conns) <==> c in conns && c.busy
  {
    if conns != [] {
      BusyExactly(conns[1..]);
      assert conns == [conns[0]] + conns[1..];
    }
  }

  lemma {:induction false} BusyAppend(conns: seq<Conn>, c: Conn)
    ensures Busy(conns + [c]) == Busy(conns) + if c.busy then [c] else []
    decreases |conns|
  {
    if conns == [] {
      assert [] + [c] == [c] && [c][1..] == [];
    } else {
      assert (conns + [c])[1..] == conns[1..] + [c];
      BusyAppend(conns[1..], c);
    }
  }

  /**
   Starting decides whether the server listens. A new connection joins the others, open, and a drain
   would not wait for it; call traffic changes that for the one connection it is on.
   */
  lemma TrafficExactly(s: State, step: Step)
    requires Enabled(s, step) && (step.StartStep? || step.AcceptStep? || step.BusyStep?)
    ensures var t := Apply(s, step);
            && (step.StartStep? ==> t.started && t.listening == step.ok && t.conns == s.conns)
            && (step.AcceptStep? ==>
                  && |t.conns| == |s.conns| + 1 && s.conns <= t.conns && t.conns[|s.conns|].id == step.id
                  && !t.conns[|s.conns|].closed && Busy(t.conns) == Busy(s.conns))
            && (step.BusyStep? ==>
                  && |t.conns| == |s.conns|
                  && forall i :: 0 <= i < |s.conns| ==>
                       var c := s.conns[i];
                       t.conns[i] == Conn(c.id, if c.id == step.id then step.busy else c.busy, c.closed))
  {
    if step.AcceptStep? { BusyAppend(s.conns, Conn(step.id, false, false)); }
  }

  lemma EndedExactly(conns: seq<Conn>, id: nat)
    requires AllOpen(conns)
    ensures forall c :: c in Open(SetClosed(conns, id)) <==> c in conns && c.id != id
  {
    var marked := SetClosed(conns, id);
    OpenExactly(marked);
    forall c | c in conns && c.id != id ensures c in marked && !c.closed {
      var i :| 0 <= i < |conns| && conns[i] == c;
      assert marked[i] == c;
    }
    forall c | c in marked && !c.closed ensures c in conns && c.id != id {
      var i :| 0 <= i < |marked| && marked[i] == c;
      assert conns[i] == c;
    }
  }

  function Without(conns: seq<Conn>, i: nat): seq<Conn>
    requires i < |conns|
  {
    conns[..i] + conns[i + 1..]
  }

  lemma WithoutParts(conns: seq<Conn>, i: nat)
    requires i < |conns|
    ensures Without(conns, i)[..i] == conns[..i] && Without(conns, i)[i..] == conns[i..][1..]
    ensures conns[..i + 1] == conns[..i] + [conns[i]] && conns[i..][1..] == conns[i + 1..]
    ensures |Without(conns, i)| == |conns| - 1
  {
  }

  lemma OpenTurn(conns: seq<Conn>, i: nat)
    requires i < |conns|
    ensures var w := Without(conns, i);
            if conns[i].closed then w[..i] + Open(w[i..]) == conns[..i] + Open(conns[i..])
            else conns[..i + 1] + Open(conns[i + 1..]) == conns[..i] + Open(conns[i..])
  {
    WithoutParts(conns, i);
    hide Without;
    assert conns[i..][0] == conns[i];
  }

  lemma BusyTurn(conns: seq<Conn>, i: nat)
    requires i < |conns|
    ensures var w := Without(conns, i);
            if !conns[i].busy then w[..i] + Busy(w[i..]) == conns[..i] + Busy(conns[i..])
            else conns[..i + 1] + Busy(conns[i + 1..]) == conns[..i] + Busy(conns[i..])
  {
    WithoutParts(conns, i);
    hide Without;
    assert conns[i..][0] == conns[i];
  }
}
