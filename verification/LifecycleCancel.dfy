/** What an operation that got into its body tells its caller: a cancellation is never lost and never made up. */
module LifecycleCancel {
  import opened Text
  import opened Commands
  import opened Context
  import opened Lifecycle
  import opened LifecycleInv
  import opened LifecycleSteps
  import opened LifecycleProgress
  import opened LifecycleHolder

  /** The task is cancelled in this step of its own, or its stop hook raises the cancellation. */
  predicate Cuts(step: Step, t: nat) {
    IsStepOf(step, t) && (step.outcome.IsCancelled? || step.outcome.HookCancels?)
  }

  predicate Cut(run: seq<Step>, t: nat) {
    exists i :: 0 <= i < |run| && Cuts(run[i], t)
  }

  predicate UndoMarked(u: Undo, cut: bool) {
    u.attempts >= 1 && (cut <==> u.cancelled || u.attempts > 1)
  }

  /** What the program counter remembers of a cancellation. */
  predicate Marked(pc: Pc, cut: bool) {
    match pc
    case Body(RollbackPending(u)) => UndoMarked(u, cut)
    case Body(RollingBack(u, _)) => UndoMarked(u, cut)
    case Body(_) => !cut
    case Done(ending) => cut <==> ending.Cancelled?
    case _ => true
  }

  ghost predicate TaskMarked(s: State, t: nat, cut: bool) {
    t in s.tasks && Marked(s.tasks[t].pc, cut)
  }

  lemma SuspendMarks(s: State, t: nat, phase: Phase, cut: bool)
    requires t in s.tasks && Marked(Body(phase), cut)
    ensures TaskMarked(Suspend(s, t, phase), t, cut)
  {}

  lemma LeaveMarks(s: State, t: nat, ending: Ending, cut: bool)
    requires t in s.tasks && (cut <==> ending.Cancelled?)
    ensures TaskMarked(Leave(s, t, ending), t, cut)
  {}

  lemma FinishUndoMarks(s: State, t: nat, u: Undo, refuses: set<Handler>, cut: bool)
    requires t in s.tasks && (u.prev.Some? ==> u.prev.value in s.ctxs) && UndoMarked(u, cut)
    ensures TaskMarked(FinishUndo(s, t, u, refuses), t, cut)
  {
    hide Activated, Suspend, Leave, TaskMarked;
    var s1 :=
      if u.prev.Some? && u.deactivated && !u.restored && u.prev.value in s.runtimes.Values
      then SwitchOn(s, u.prev.value, refuses)
      else s;
    if cut { LeaveMarks(s1, t, Cancelled, cut); } else { SuspendMarks(s1, t, RecordingFailure, cut); }
  }

  lemma StartUndoMarks(s: State, t: nat, u: Undo, outcome: Outcome, refuses: set<Handler>, cut: bool)
    requires t in s.tasks && PhaseCtxs(s, RollbackPending(u)) && Possible(RollbackPending(u), outcome)
        && UndoMarked(u, cut)
    ensures TaskMarked(StartUndo(s, t, u, outcome, refuses), t, cut || !outcome.Goes?)
  {
    hide Deactivated, Suspend, FinishUndo, TaskMarked;
    if !outcome.Goes? {
      SuspendMarks(s, t, RollbackPending(u.(attempts := u.attempts + 1)), true);
    } else if u.ctx.None? {
      FinishUndoMarks(s, t, u, refuses, cut);
    } else {
      var s1 := SwitchOff(s, u.ctx.value);
      SuspendMarks(s1, t, RollingBack(u, s1.ctxs[u.ctx.value].stopped), cut);
    }
  }

  lemma ContinueUndoMarks(s: State, t: nat, u: Undo, closing: bool, outcome: Outcome, refuses: set<Handler>, cut: bool)
    requires t in s.tasks && PhaseCtxs(s, RollingBack(u, closing)) && Possible(RollingBack(u, closing), outcome)
    requires UndoMarked(u, cut)
    ensures TaskMarked(ContinueUndo(s, t, u, closing, outcome, refuses), t, cut || !outcome.Goes?)
  {
    hide Suspend, Leave, FinishUndo, TaskMarked;
    if !outcome.Goes? {
      LeaveMarks(s, t, Cancelled, true);
      SuspendMarks(s, t, RollingBack(u.(attempts := u.attempts + 1), closing), true);
    } else if !closing {
      SuspendMarks(MarkStopped(s, u.ctx.value), t, RollingBack(u, true), cut);
    } else {
      FinishUndoMarks(s, t, u, refuses, cut);
    }
  }

  lemma SwapMarks(s: State, t: nat, prev: Option<nat>, ctx: nat, refuses: set<Handler>)
    requires t in s.tasks && s.tasks[t].op.Load? && ctx in s.ctxs && (prev.Some? ==> prev.value in s.ctxs)
    ensures TaskMarked(Swap(s, t, prev, ctx, refuses), t, false)
  {
    hide Activated, Deactivated;
  }

  /** Before a rollback the phase remembers nothing, because the first cancellation starts one or ends the task. */
  lemma FirstMarks(s: State, t: nat, phase: Phase, outcome: Outcome, refuses: set<Handler>)
    requires t in s.tasks && PhaseCtxs(s, phase) && Possible(phase, outcome)
        && (IsLoadPhase(phase) ==> s.tasks[t].op.Load?)
    requires !phase.RollbackPending? && !phase.RollingBack?
    ensures TaskMarked(Resume(s, t, phase, outcome, refuses), t, outcome.IsCancelled?)
  {
    hide Suspend, Leave, Swap, TaskMarked;
    var cut := outcome.IsCancelled?;
    match phase
    case LoadingModule(prev) =>
      if outcome.Goes? { SuspendMarks(s, t, BuildingContext(prev), cut); }
      else { SuspendMarks(s, t, RollbackPending(Undo(prev, None, false, false, cut, 1)), cut); }
    case BuildingContext(prev) =>
      if outcome.Goes? { BuildMarks(s, t, prev); }
      else { SuspendMarks(s, t, RollbackPending(Undo(prev, None, false, false, cut, 1)), cut); }
    case Preparing(prev, ctx) =>
      if outcome.Goes? { SwapMarks(s, t, prev, ctx, refuses); }
      else { SuspendMarks(s, t, RollbackPending(Undo(prev, Some(ctx), false, false, cut, 1)), cut); }
    case Retiring(p, ctx, closing) =>
      if cut { SuspendMarks(s, t, RollbackPending(Undo(Some(p), Some(ctx), true, false, true, 1)), cut); }
      else if closing { SuspendMarks(Publish(s, t, ctx), t, Recording(Some(p), ctx), cut); }
      else { SuspendMarks(MarkStopped(s, p), t, Retiring(p, ctx, true), cut); }
    case Recording(prev, ctx) =>
      if outcome.Goes? { LeaveMarks(s, t, Loaded, cut); }
      else { SuspendMarks(s, t, RollbackPending(Undo(prev, Some(ctx), prev.Some?, false, cut, 1)), cut); }
    case Removing(ctx, closing) =>
      if cut { LeaveMarks(s, t, Cancelled, cut); }
      else if closing { SuspendMarks(s, t, RecordingUnload, cut); }
      else { SuspendMarks(MarkStopped(s, ctx), t, Removing(ctx, true), cut); }
    case RecordingFailure => LeaveMarks(s, t, EndingOf(outcome, Failed), cut);
    case RecordingUnload => LeaveMarks(s, t, EndingOf(outcome, Unloaded), cut);
    case Fetching => LeaveMarks(s, t, EndingOf(outcome, Fetched), cut);
  }

  lemma BuildMarks(s: State, t: nat, prev: Option<nat>)
    requires t in s.tasks && s.tasks[t].op.Load?
    ensures TaskMarked(Build(s, t, prev), t, false)
  {}

  lemma OwnMarks(s: State, step: Step, t: nat, cut: bool)
    requires Enabled(s, step) && IsStepOf(step, t) && TaskMarked(s, t, cut)
    ensures TaskMarked(Next(s, step), t, cut || Cuts(step, t))
  {
    var phase := s.tasks[t].pc.phase;
    hide Resume, TaskMarked;
    if phase.RollbackPending? {
      StartUndoMarks(s, t, phase.undo, step.outcome, step.refuses, cut);
      ResumeIs(s, t, phase, step.outcome, step.refuses);
    } else if phase.RollingBack? {
      ContinueUndoMarks(s, t, phase.undo, phase.closing, step.outcome, step.refuses, cut);
      ResumeIs(s, t, phase, step.outcome, step.refuses);
    } else {
      FirstMarks(s, t, phase, step.outcome, step.refuses);
    }
  }

  lemma ResumeIs(s: State, t: nat, phase: Phase, outcome: Outcome, refuses: set<Handler>)
    requires t in s.tasks && PhaseCtxs(s, phase) && Possible(phase, outcome)
        && (IsLoadPhase(phase) ==> s.tasks[t].op.Load?)
    ensures phase.RollbackPending? ==>
              Resume(s, t, phase, outcome, refuses) == StartUndo(s, t, phase.undo, outcome, refuses)
    ensures phase.RollingBack? ==>
              Resume(s, t, phase, outcome, refuses) == ContinueUndo(s, t, phase.undo, phase.closing, outcome, refuses)
  {
    hide StartUndo, ContinueUndo;
  }

  lemma StepMarks(s: State, step: Step, t: nat, cut: bool)
    requires Inv(s) && s.lock == Some(t) && Enabled(s, step) && TaskMarked(s, t, cut)
    ensures TaskMarked(Next(s, step), t, cut || Cuts(step, t))
  {
    if IsStepOf(step, t) { OwnMarks(s, step, t, cut); } else { OthersStand(s, step, t); }
  }

  /** In the body, what the program counter remembers is whether the task was cancelled since it got there. */
  lemma {:induction false} RunMarks(s: State, run: seq<Step>, t: nat, cut: bool)
    requires Inv(s) && Until(s, run, t) && TaskMarked(s, t, cut) && Exec(s, run).Some?
    ensures TaskMarked(Exec(s, run).value, t, cut || Cut(run, t)) && Exec(s, run).value.tasks[t].pc.Done?
    decreases |run|
  {
    hide Inv, Next, Enabled, TaskMarked, Cuts;
    HolderIs(s, t);
    StepMarks(s, run[0], t, cut);
    StepInv(s, run[0]);
    CutCons(run, t);
    var s1 := Next(s, run[0]);
    if |run| == 1 {
      assert run[1..] == [] && Exec(s1, []) == Some(s1);
    } else {
      RunMarks(s1, run[1..], t, cut || Cuts(run[0], t));
    }
  }

  lemma HolderIs(s: State, t: nat)
    requires Inv(s) && t in s.tasks && s.tasks[t].pc.Body?
    ensures s.lock == Some(t)
  {}

  lemma CutCons(run: seq<Step>, t: nat)
    requires run != []
    ensures Cut(run, t) <==> Cuts(run[0], t) || Cut(run[1..], t)
  {
    if i :| 0 <= i < |run[1..]| && Cuts(run[1..][i], t) { assert run[i + 1] == run[1..][i]; }
    if i :| 0 <= i < |run| && Cuts(run[i], t) { assert i > 0 ==> run[1..][i - 1] == run[i]; }
  }

  /**
   * An operation that is in its body and was not cancelled there yet ends as cancelled if and only if
   * it is cancelled in a step of its own: no rollback swallows a cancellation, and no failure is
   * passed off as one.
   */
  lemma {:induction false} CancelledExactly(s: State, run: seq<Step>, t: nat)
    requires Inv(s) && t in s.tasks && s.tasks[t].pc.Body? && Until(s, run, t)
    requires !s.tasks[t].pc.phase.RollbackPending? && !s.tasks[t].pc.phase.RollingBack?
    ensures Exec(s, run).Some? && t in Exec(s, run).value.tasks
    ensures Exec(s, run).value.tasks[t].pc == Done(Cancelled) <==> Cut(run, t)
  {
    UntilRuns(s, run, t);
    assert TaskMarked(s, t, false);
    hide Inv, Until, Exec;
    RunMarks(s, run, t, false);
  }
}
