/** When an operation that got into its body ends the way it was asked to. */
module LifecycleOutcome {
  import opened Text
  import opened Commands
  import opened Context
  import opened Lifecycle
  import opened LifecycleInv
  import opened LifecycleSteps
  import opened LifecycleProgress
  import opened LifecycleHolder
  import opened LifecycleCancel

  /** The ending that was asked for. */
  function Wanted(op: Op): Ending {
    match op
    case Load(_, _, _) => Loaded
    case Unload(_) => Unloaded
    case Fetch => Fetched
  }

  /** The tables take the new generation once the old one is off. */
  predicate Takes(s: State, prev: Option<nat>, ctx: nat, refuses: set<Handler>)
    requires ctx in s.ctxs && (prev.Some? ==> prev.value in s.ctxs)
  {
    Accepts(if prev.Some? then SwitchOff(s, prev.value) else s, ctx, refuses)
  }

  /** A step of the task's own goes on, and if it is the exchange, the new generation is taken. */
  predicate GoesWell(s: State, step: Step, t: nat)
    requires Enabled(s, step)
  {
    IsStepOf(step, t) ==>
      && step.outcome.Goes?
      && var phase := s.tasks[t].pc.phase; phase.Preparing? ==> Takes(s, phase.prev, phase.ctx, step.refuses)
  }

  /** All of its own steps do. */
  ghost predicate AllGoesWell(s: State, run: seq<Step>, t: nat)
    requires Until(s, run, t)
    decreases |run|
  {
    GoesWell(s, run[0], t) && (|run| > 1 ==> AllGoesWell(Next(s, run[0]), run[1..], t))
  }

  /** Where the task can be, by whether all went well so far. */
  predicate Fits(pc: Pc, op: Op, well: bool) {
    match pc
    case Body(phase) =>
      if phase.Fetching? then op.Fetch? && well
      else if phase.Removing? || phase.RecordingUnload? then op.Unload? && well
      else op.Load? && (well <==> !phase.RollbackPending? && !phase.RollingBack? && !phase.RecordingFailure?)
    case Done(ending) =>
      (ending == Wanted(op) || ending.Failed? || ending.Cancelled?) && (well <==> ending == Wanted(op))
    case _ => false
  }

  ghost predicate TaskFits(s: State, t: nat, op: Op, well: bool) {
    t in s.tasks && s.tasks[t].op == op && Fits(s.tasks[t].pc, op, well)
  }

  lemma SuspendFits(s: State, t: nat, phase: Phase, well: bool)
    requires t in s.tasks && Fits(Body(phase), s.tasks[t].op, well)
    ensures TaskFits(Suspend(s, t, phase), t, s.tasks[t].op, well)
  {}

  lemma LeaveFits(s: State, t: nat, ending: Ending, well: bool)
    requires t in s.tasks && Fits(Done(ending), s.tasks[t].op, well)
    ensures TaskFits(Leave(s, t, ending), t, s.tasks[t].op, well)
  {}

  lemma FinishUndoFits(s: State, t: nat, u: Undo, refuses: set<Handler>)
    requires t in s.tasks && s.tasks[t].op.Load? && (u.prev.Some? ==> u.prev.value in s.ctxs)
    ensures TaskFits(FinishUndo(s, t, u, refuses), t, s.tasks[t].op, false)
  {
    hide Activated, Suspend, Leave, TaskFits;
    var s1 :=
      if u.prev.Some? && u.deactivated && !u.restored && u.prev.value in s.runtimes.Values
      then SwitchOn(s, u.prev.value, refuses)
      else s;
    LeaveFits(s1, t, Cancelled, false);
    SuspendFits(s1, t, RecordingFailure, false);
  }

  lemma UndoFits(s: State, t: nat, phase: Phase, outcome: Outcome, refuses: set<Handler>)
    requires t in s.tasks && PhaseCtxs(s, phase) && Possible(phase, outcome) && s.tasks[t].op.Load?
    requires phase.RollbackPending? || phase.RollingBack? || phase.RecordingFailure?
    ensures TaskFits(Resume(s, t, phase, outcome, refuses), t, s.tasks[t].op, false)
  {
    hide Deactivated, Activated, Suspend, Leave, FinishUndo, TaskFits;
    match phase
    case RollbackPending(u) =>
      if !outcome.Goes? {
        SuspendFits(s, t, RollbackPending(u.(attempts := u.attempts + 1)), false);
      } else if u.ctx.None? {
        FinishUndoFits(s, t, u, refuses);
      } else {
        var s1 := SwitchOff(s, u.ctx.value);
        SuspendFits(s1, t, RollingBack(u, s1.ctxs[u.ctx.value].stopped), false);
      }
    case RollingBack(u, closing) =>
      LeaveFits(s, t, Cancelled, false);
      SuspendFits(s, t, RollingBack(u.(attempts := u.attempts + 1), closing), false);
      SuspendFits(MarkStopped(s, u.ctx.value), t, RollingBack(u, true), false);
      FinishUndoFits(s, t, u, refuses);
    case RecordingFailure => LeaveFits(s, t, EndingOf(outcome, Failed), false);
  }

  lemma SwapFits(s: State, t: nat, prev: Option<nat>, ctx: nat, refuses: set<Handler>)
    requires t in s.tasks && s.tasks[t].op.Load? && ctx in s.ctxs && (prev.Some? ==> prev.value in s.ctxs)
    ensures TaskFits(Swap(s, t, prev, ctx, refuses), t, s.tasks[t].op, Takes(s, prev, ctx, refuses))
  {
    hide Activated, Deactivated;
  }

  lemma BuildFits(s: State, t: nat, prev: Option<nat>)
    requires t in s.tasks && s.tasks[t].op.Load?
    ensures TaskFits(Build(s, t, prev), t, s.tasks[t].op, true)
  {}

  /** A load on its way forward. */
  lemma ForwardFits(s: State, t: nat, phase: Phase, outcome: Outcome, refuses: set<Handler>)
    requires t in s.tasks && PhaseCtxs(s, phase) && Possible(phase, outcome) && s.tasks[t].op.Load?
    requires phase.LoadingModule? || phase.BuildingContext? || phase.Preparing? || phase.Retiring? || phase.Recording?
    ensures TaskFits(Resume(s, t, phase, outcome, refuses), t, s.tasks[t].op,
                     outcome.Goes? && (phase.Preparing? ==> Takes(s, phase.prev, phase.ctx, refuses)))
  {
    hide Suspend, Leave, Swap, Takes, TaskFits;
    var cut := outcome.IsCancelled?;
    match phase
    case LoadingModule(prev) =>
      if outcome.Goes? { SuspendFits(s, t, BuildingContext(prev), true); }
      else { SuspendFits(s, t, RollbackPending(Undo(prev, None, false, false, cut, 1)), false); }
    case BuildingContext(prev) =>
      if outcome.Goes? { BuildFits(s, t, prev); }
      else { SuspendFits(s, t, RollbackPending(Undo(prev, None, false, false, cut, 1)), false); }
    case Preparing(prev, ctx) =>
      if outcome.Goes? { SwapFits(s, t, prev, ctx, refuses); }
      else { SuspendFits(s, t, RollbackPending(Undo(prev, Some(ctx), false, false, cut, 1)), false); }
    case Retiring(p, ctx, closing) =>
      if cut { SuspendFits(s, t, RollbackPending(Undo(Some(p), Some(ctx), true, false, true, 1)), false); }
      else if closing { SuspendFits(Publish(s, t, ctx), t, Recording(Some(p), ctx), true); }
      else { SuspendFits(MarkStopped(s, p), t, Retiring(p, ctx, true), true); }
    case Recording(prev, ctx) =>
      if outcome.Goes? { LeaveFits(s, t, Loaded, true); }
      else { SuspendFits(s, t, RollbackPending(Undo(prev, Some(ctx), prev.Some?, false, cut, 1)), false); }
  }

  lemma OtherFits(s: State, t: nat, phase: Phase, outcome: Outcome, refuses: set<Handler>)
    requires t in s.tasks && PhaseCtxs(s, phase) && Possible(phase, outcome)
    requires ((phase.Removing? || phase.RecordingUnload?) && s.tasks[t].op.Unload?) ||
        (phase.Fetching? && s.tasks[t].op.Fetch?)
    ensures TaskFits(Resume(s, t, phase, outcome, refuses), t, s.tasks[t].op, outcome.Goes?)
  {
    hide Suspend, Leave, TaskFits;
    match phase
    case Removing(ctx, closing) =>
      if !outcome.Goes? { LeaveFits(s, t, Cancelled, false); }
      else if closing { SuspendFits(s, t, RecordingUnload, true); }
      else { SuspendFits(MarkStopped(s, ctx), t, Removing(ctx, true), true); }
    case RecordingUnload => LeaveFits(s, t, EndingOf(outcome, Unloaded), outcome.Goes?);
    case Fetching => LeaveFits(s, t, EndingOf(outcome, Fetched), outcome.Goes?);
  }

  lemma OwnFits(s: State, step: Step, t: nat, op: Op, well: bool)
    requires Enabled(s, step) && IsStepOf(step, t) && TaskFits(s, t, op, well)
    ensures TaskFits(Next(s, step), t, op, well && GoesWell(s, step, t))
  {
    var phase := s.tasks[t].pc.phase;
    hide Resume, Takes;
    if phase.RollbackPending? || phase.RollingBack? || phase.RecordingFailure? {
      UndoFits(s, t, phase, step.outcome, step.refuses);
    } else if op.Load? {
      ForwardFits(s, t, phase, step.outcome, step.refuses);
    } else {
      OtherFits(s, t, phase, step.outcome, step.refuses);
    }
  }

  lemma StepFits(s: State, step: Step, t: nat, op: Op, well: bool)
    requires Inv(s) && s.lock == Some(t) && Enabled(s, step) && TaskFits(s, t, op, well)
    ensures TaskFits(Next(s, step), t, op, well && GoesWell(s, step, t))
  {
    if IsStepOf(step, t) { OwnFits(s, step, t, op, well); } else { OthersStand(s, step, t); }
  }

  lemma {:induction false} RunFits(s: State, run: seq<Step>, t: nat, op: Op, well: bool)
    requires Inv(s) && Until(s, run, t) && TaskFits(s, t, op, well) && Exec(s, run).Some?
    ensures TaskFits(Exec(s, run).value, t, op, well && AllGoesWell(s, run, t))
            && Exec(s, run).value.tasks[t].pc.Done?
    decreases |run|
  {
    hide Inv, Next, Enabled, TaskFits, GoesWell;
    HolderIs(s, t);
    StepFits(s, run[0], t, op, well);
    StepInv(s, run[0]);
    var s1 := Next(s, run[0]);
    if |run| == 1 {
      assert run[1..] == [] && Exec(s1, []) == Some(s1);
    } else {
      RunFits(s1, run[1..], t, op, well && GoesWell(s, run[0], t));
    }
  }

  lemma StartFits(s: State, t: nat)
    requires Inv(s) && t in s.tasks && s.tasks[t].pc.Body?
    requires !s.tasks[t].pc.phase.RollbackPending? && !s.tasks[t].pc.phase.RollingBack?
        && !s.tasks[t].pc.phase.RecordingFailure?
    ensures TaskFits(s, t, s.tasks[t].op, true)
  {
    HolderIs(s, t);
  }

  /**
   * An operation that is in its body and has met no failure there ends as it was asked to if and only if
   * every later step of its own goes on and, for a load, the tables take the new generation; otherwise it
   * ends as failed or cancelled, whatever the other tasks do.
   */
  lemma {:induction false} EndsAsAskedExactly(s: State, run: seq<Step>, t: nat)
    requires Inv(s) && t in s.tasks && s.tasks[t].pc.Body? && Until(s, run, t)
    requires !s.tasks[t].pc.phase.RollbackPending? && !s.tasks[t].pc.phase.RollingBack?
        && !s.tasks[t].pc.phase.RecordingFailure?
    ensures Exec(s, run).Some? && t in Exec(s, run).value.tasks && Exec(s, run).value.tasks[t].pc.Done?
    ensures var ending, wanted := Exec(s, run).value.tasks[t].pc.ending, Wanted(s.tasks[t].op);
            && (ending == wanted <==> AllGoesWell(s, run, t))
            && (ending == wanted || ending.Failed? || ending.Cancelled?)
  {
    UntilRuns(s, run, t);
    StartFits(s, t);
    hide Inv, Until, Exec, AllGoesWell;
    RunFits(s, run, t, s.tasks[t].op, true);
  }
}
