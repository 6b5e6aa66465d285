/** With which status the typed layer ends a call, and which step of the handler ends it. */
module TypedAnswers {
  import opened Codec
  import opened Server
  import opened ServerWire
  import opened ServerAnswers
  import opened AutoFinish
  import ServerCallbacks
  import ServerReads

  /** The status with which a step of the typed layer settles a live call that nothing has settled before. */
  function TypedCloses(t: Typed, step: TypedStep): Option<int> {
    if !Ready(t, step) || t.core.output.responded then None
    else
      match step
      case CoreStep(s) => Closes(t.core, s)
      case TypedWrite(_) => None
      case TypedFinish(code) => if t.finished then None else Some(code)
      case Returns =>
        if t.finished then None
        else if !t.wrote then Some(12)
        else if |t.completed| == t.core.writes then Some(0) else None
      case Delivered(_) =>
        if !t.finished && t.handlerReturned && |t.completed| + 1 == t.core.writes then Some(0) else None
  }

  /** What a step of the typed layer asks of the core. */
  function CoreOf(t: Typed, step: TypedStep): seq<Step> {
    if !Ready(t, step) then []
    else if step.CoreStep? then [step.step]
    else if step.TypedWrite? then if t.finished then [] else [WriteStep(step.payload)]
    else if TypedCloses(t, step).Some? then [FinishStep(TypedCloses(t, step).value)]
    else []
  }

  lemma OneStep(s: Stream, x: Step)
    ensures Run(s, [x]) == Apply(s, x)
  {
    hide Apply;
    assert [x][1..] == [];
    assert Run(s, [x]) == Run(Apply(s, x), []);
  }

  lemma FinishIs(s: Stream, code: int)
    requires s.info.ctx.StreamCtx?
    ensures Apply(s, FinishStep(code)) == FinishStream(s, code)
    ensures Closes(s, FinishStep(code)) == if s.output.responded then None else Some(code)
    ensures s.output.responded ==> FinishStream(s, code) == s
  {
  }

  lemma WriteIs(s: Stream, payload: Bytes)
    requires s.info.ctx.StreamCtx?
    ensures Apply(s, WriteStep(payload)) == WriteMessage(s, payload) && Closes(s, WriteStep(payload)).None?
  {
    hide WriteMessage;
  }

  ghost predicate IsCore(t: Typed, step: TypedStep) {
    && TypedApply(t, step).core == Run(t.core, CoreOf(t, step))
    && if CoreOf(t, step) == [] then TypedCloses(t, step).None?
       else CoreOf(t, step) == [CoreOf(t, step)[0]] && TypedCloses(t, step) == Closes(t.core, CoreOf(t, step)[0])
  }

  lemma FinishIsCore(t: Typed, step: TypedStep)
    requires t.core.info.ctx.StreamCtx? && t.inFlight == t.core.writes - |t.completed|
    requires step.TypedFinish? || step.Returns? || step.Delivered?
    ensures IsCore(t, step)
  {
    assert Run(t.core, []) == t.core;
    hide FinishStream, Run, Fired, Apply, Closes;
    FinishIs(t.core, 0);
    FinishIs(t.core, 12);
    OneStep(t.core, FinishStep(0));
    OneStep(t.core, FinishStep(12));
    if step.TypedFinish? {
      FinishIs(t.core, step.code);
      OneStep(t.core, FinishStep(step.code));
    }
  }

  lemma OwnIsCore(t: Typed, s: Step)
    ensures IsCore(t, CoreStep(s))
  {
    assert Run(t.core, []) == t.core;
    hide Run, Apply, Closes;
    OneStep(t.core, s);
    if t.core.output.responded { SettledCloses(t.core, s); }
  }

  lemma WriteIsCore(t: Typed, p: Bytes)
    requires t.core.info.ctx.StreamCtx?
    ensures IsCore(t, TypedWrite(p))
  {
    assert Run(t.core, []) == t.core;
    hide WriteMessage, Run, Apply, Closes;
    OneStep(t.core, WriteStep(p));
    WriteIs(t.core, p);
  }

  /** Every step of the typed layer is a step of the core, or none, and settles the call just when that does. */
  lemma TypedIsCore(t: Typed, step: TypedStep)
    requires TypedInv(t)
    ensures IsCore(t, step)
  {
    assert t.core.info.ctx.StreamCtx? && t.inFlight == t.core.writes - |t.completed|;
    hide TypedInv, IsCore;
    match step
    case CoreStep(s) => OwnIsCore(t, s);
    case TypedWrite(p) => WriteIsCore(t, p);
    case _ => FinishIsCore(t, step);
  }

  lemma SettledCloses(s: Stream, step: Step)
    requires s.output.responded
    ensures Closes(s, step).None?
  {
  }

  // ---- every ending has its cause -------------------------------------------------------------

  function After(core: Stream, steps: seq<TypedStep>): Typed {
    TypedRun(Opened(core), steps)
  }

  /** The `i`th step settles the call with `code`. */
  predicate Settles(core: Stream, steps: seq<TypedStep>, i: nat, code: int) {
    i < |steps|
    && var t := After(core, steps[..i]);
       t.core.phase.Live? && TypedCloses(t, steps[i]) == Some(code)
  }

  ghost predicate IsSettled(core: Stream, steps: seq<TypedStep>, code: int) {
    exists i: nat :: Settles(core, steps, i, code)
  }

  /** The call was settled before the handler was given it. */
  predicate Was(core: Stream, code: int) {
    EndedWith(core.wire, code) || core.output.finish == Some(code)
  }

  ghost predicate Accounted(core: Stream, steps: seq<TypedStep>, s: Stream) {
    forall code :: EndedWith(s.wire, code) || (s.phase.Live? && s.output.finish == Some(code)) ==>
      Was(core, code) || IsSettled(core, steps, code)
  }

  lemma SettledBefore(core: Stream, steps: seq<TypedStep>, x: TypedStep, code: int)
    requires IsSettled(core, steps, code)
    ensures IsSettled(core, steps + [x], code)
  {
    hide After;
    var i: nat :| Settles(core, steps, i, code);
    assert (steps + [x])[..i] == steps[..i];
    assert Settles(core, steps + [x], i, code);
  }

  lemma SettledNow(core: Stream, steps: seq<TypedStep>, x: TypedStep, code: int)
    requires var t := After(core, steps); t.core.phase.Live? && TypedCloses(t, x) == Some(code)
    ensures IsSettled(core, steps + [x], code)
  {
    hide After;
    assert (steps + [x])[..|steps|] == steps;
    assert Settles(core, steps + [x], |steps|, code);
  }

  lemma StepAccounted(core: Stream, steps: seq<TypedStep>, x: TypedStep)
    requires var t := After(core, steps);
             TypedInv(t) && ServerReads.ReadInv(t.core) && !t.core.phase.Idle? && Accounted(core, steps, t.core)
    ensures var t := After(core, steps); Accounted(core, steps + [x], TypedApply(t, x).core)
  {
    var t := After(core, steps);
    var s := t.core;
    TypedIsCore(t, x);
    assert WireInv(s);
    assert Run(s, []) == s;
    hide After, TypedInv, WireInv, Apply, TypedApply, Run, Closes, TypedCloses, Was, IsSettled, CoreOf,
      ServerReads.ReadInv;
    var ops := CoreOf(t, x);
    forall code | Was(core, code) || IsSettled(core, steps, code)
      ensures Was(core, code) || IsSettled(core, steps + [x], code) {
      if IsSettled(core, steps, code) { SettledBefore(core, steps, x, code); }
    }
    if ops != [] {
      OneStep(s, ops[0]);
      CoreAccounts(s, ops[0]);
      if s.phase.Live? && TypedCloses(t, x).Some? { SettledNow(core, steps, x, TypedCloses(t, x).value); }
    }
  }

  /** A core step ends the response, or keeps a status for later, only if it settles the call or that was so before. */
  lemma CoreAccounts(s: Stream, x: Step)
    requires WireInv(s) && ServerReads.ReadInv(s) && !s.phase.Idle?
    ensures var t := Apply(s, x);
            forall code :: EndedWith(t.wire, code) || (t.phase.Live? && t.output.finish == Some(code)) ==>
              || EndedWith(s.wire, code) || (s.phase.Live? && s.output.finish == Some(code))
              || (s.phase.Live? && Closes(s, x) == Some(code))
  {
    hide WireInv, Apply, Closes, ServerReads.ReadInv;
    var t := Apply(s, x);
    if s.phase.Live? {
      StepAnswers(s, x);
      forall code | EndedWith(t.wire, code) && Pumps(x) ensures EndedWith(s.wire, code) { PumpEndsNothing(s, x, code); }
    } else {
      FrozenStep(s, x);
      ClosedStep(s, x);
    }
  }

  lemma {:induction false} RunAccounted(before: seq<Step>, steps: seq<TypedStep>)
    requires Handed(Run(Init(), before))
    ensures var core := Run(Init(), before);
            var t := After(core, steps);
            TypedInv(t) && ServerReads.ReadInv(t.core) && !t.core.phase.Idle? && Accounted(core, steps, t.core)
    decreases |steps|
  {
    var core := Run(Init(), before);
    if steps == [] {
      HandedTyped(before);
      ServerReads.ReadRun(Init(), before);
    } else {
      var front, x := steps[..|steps| - 1], steps[|steps| - 1];
      assert steps == front + [x];
      RunAccounted(before, front);
      StepAccounted(core, front, x);
      hide TypedInv, TypedApply, ServerReads.ReadInv, Accounted;
      TypedRunSnoc(Opened(core), front, x);
      StepReads(After(core, front), x);
    }
  }

  lemma {:induction false} TypedRunSnoc(t: Typed, steps: seq<TypedStep>, x: TypedStep)
    ensures TypedRun(t, steps + [x]) == TypedApply(TypedRun(t, steps), x)
    decreases |steps|
  {
    hide TypedApply;
    if steps == [] {
      assert [] + [x] == [x] && [x][1..] == [];
      assert TypedRun(t, [x]) == TypedRun(TypedApply(t, x), []);
    } else {
      assert (steps + [x])[1..] == steps[1..] + [x];
      TypedRunSnoc(TypedApply(t, steps[0]), steps[1..], x);
    }
  }

  lemma StepReads(t: Typed, x: TypedStep)
    requires TypedInv(t) && ServerReads.ReadInv(t.core) && !t.core.phase.Idle?
    ensures var u := TypedApply(t, x); TypedInv(u) && ServerReads.ReadInv(u.core) && !u.core.phase.Idle?
  {
    TypedIsCore(t, x);
    hide TypedApply, Run, ServerReads.ReadInv, CoreOf, WireInv, ServerCallbacks.CallbackInv;
    TypedStepKeeps(t, x);
    ServerReads.ReadRun(t.core, CoreOf(t, x));
    assert !TypedApply(t, x).core.phase.Idle? by { NeverIdle(t.core, CoreOf(t, x)); }
  }

  lemma {:induction false} NeverIdle(s: Stream, steps: seq<Step>)
    requires !s.phase.Idle?
    ensures !Run(s, steps).phase.Idle?
    decreases |steps|
  {
    if steps != [] {
      hide Apply;
      StaysBusy(s, steps[0]);
      NeverIdle(Apply(s, steps[0]), steps[1..]);
    }
  }

  lemma StaysBusy(s: Stream, step: Step)
    requires !s.phase.Idle?
    ensures !Apply(s, step).phase.Idle?
  {
    hide Feed, FeedError, Frame;
  }

  /**
   In every run of a handler from the moment it is given the stream, a response that has ended carries
   the status of the step that settled the call.
   */
  lemma TypedEndingHasCause(before: seq<Step>, steps: seq<TypedStep>, code: int)
    requires Handed(Run(Init(), before)) && EndedWith(After(Run(Init(), before), steps).core.wire, code)
    ensures Was(Run(Init(), before), code) || IsSettled(Run(Init(), before), steps, code)
  {
    hide Run, After, Was, IsSettled;
    RunAccounted(before, steps);
  }

  /** The handler said so, or the layer found the handler returned and every message delivered. */
  predicate SaysOk(t: Typed, step: TypedStep) {
    && !t.finished && !t.core.output.responded
    && match step
       case TypedFinish(code) => code == 0
       case Returns => !t.returned && t.wrote && |t.completed| == t.core.writes
       case Delivered(id) => t.handlerReturned && |t.completed + {id}| == t.core.writes
       case _ => false
  }

  predicate OkAt(core: Stream, steps: seq<TypedStep>, i: nat) {
    i < |steps| && SaysOk(After(core, steps[..i]), steps[i])
  }

  lemma NotYet(before: seq<Step>)
    requires var core := Run(Init(), before); !core.output.responded && core.phase.Live?
    ensures !Was(Run(Init(), before), 0)
  {
    WireRun(Init(), before);
  }

  lemma CoreNeverOk(s: Stream, step: Step)
    requires s.info.ctx.StreamCtx? && !step.FinishStep?
    ensures Closes(s, step) != Some(0)
  {
  }

  /**
   An OK ending comes only from an explicit finish with OK or from an auto-finish: never from an error,
   a deadline, or a handler that wrote nothing.
   */
  lemma OkHasAuthor(before: seq<Step>, steps: seq<TypedStep>)
    requires var core := Run(Init(), before);
             Handed(core) && !core.output.responded && core.phase.Live? && EndedWith(After(core, steps).core.wire, 0)
    ensures exists i: nat :: OkAt(Run(Init(), before), steps, i)
  {
    var core := Run(Init(), before);
    NotYet(before);
    hide Run, After, Handed;
    TypedEndingHasCause(before, steps, 0);
    var i: nat :| Settles(core, steps, i, 0);
    RunAccounted(before, steps[..i]);
    var t := After(core, steps[..i]);
    assert t.core.info.ctx.StreamCtx?;
    hide TypedInv, Accounted, IsSettled, Closes, Fired, ServerReads.ReadInv;
    if steps[i].CoreStep? { CoreNeverOk(t.core, steps[i].step); }
    assert OkAt(core, steps, i);
  }
}
