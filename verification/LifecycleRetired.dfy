/** A generation that was replaced or unloaded is over: it never goes live again. */
module LifecycleRetired {
  import opened Text
  import opened Commands
  import opened Context
  import opened Lifecycle
  import opened LifecycleInv
  import opened LifecycleSteps
  import opened LifecycleSafety

  /** Stopped and switched off. */
  predicate Over(s: State, c: nat) {
    c in s.ctxs && s.ctxs[c].stopped && !s.ctxs[c].active
  }

  /** It takes no more commands and handlers. */
  predicate SameBuffers(c: Ctx, c': Ctx) {
    c'.commands == c.commands && c'.handlers == c.handlers
  }

  /** What is over stays over. */
  ghost predicate Keeps(s: State, s': State) {
    forall c :: Over(s, c) ==> Over(s', c) && SameBuffers(s.ctxs[c], s'.ctxs[c])
  }

  lemma SameCtxsKeeps(s: State, s': State)
    requires s'.ctxs == s.ctxs
    ensures Keeps(s, s')
  {}

  lemma KeepsTwice(s: State, s1: State, s2: State)
    requires Keeps(s, s1) && Keeps(s1, s2)
    ensures Keeps(s, s2)
  {}

  lemma SuspendKeeps(s: State, s1: State, t: nat, phase: Phase)
    requires Keeps(s, s1) && t in s1.tasks
    ensures Keeps(s, Suspend(s1, t, phase))
  {}

  lemma LeaveKeeps(s: State, s1: State, t: nat, ending: Ending)
    requires Keeps(s, s1) && t in s1.tasks
    ensures Keeps(s, Leave(s1, t, ending))
  {}

  lemma SwitchOffKeeps(s: State, c: nat)
    requires c in s.ctxs
    ensures Keeps(s, SwitchOff(s, c)) && SwitchOff(s, c).tasks == s.tasks && SwitchOff(s, c).ctxs.Keys == s.ctxs.Keys
  {}

  /** A stopped context refuses to be switched on. */
  lemma SwitchOnKeeps(s: State, c: nat, refuses: set<Handler>)
    requires c in s.ctxs
    ensures Keeps(s, SwitchOn(s, c, refuses)) && SwitchOn(s, c, refuses).tasks == s.tasks
    ensures SwitchOn(s, c, refuses).ctxs.Keys == s.ctxs.Keys
  {
    var a := Activated(s.world, s.ctxs[c], refuses);
    assert s.ctxs[c].stopped ==> a.ctx == s.ctxs[c];
    hide Activated;
  }

  lemma MarkStoppedKeeps(s: State, c: nat)
    requires c in s.ctxs
    ensures Keeps(s, MarkStopped(s, c)) && MarkStopped(s, c).tasks == s.tasks
  {}

  lemma SwapKeeps(s: State, t: nat, prev: Option<nat>, ctx: nat, refuses: set<Handler>)
    requires t in s.tasks && s.tasks[t].op.Load? && ctx in s.ctxs && (prev.Some? ==> prev.value in s.ctxs)
    ensures Keeps(s, Swap(s, t, prev, ctx, refuses))
  {
    var s1 := if prev.Some? then SwitchOff(s, prev.value) else s;
    if prev.Some? { SwitchOffKeeps(s, prev.value); }
    SwitchOnKeeps(s1, ctx, refuses);
    var s2 := SwitchOn(s1, ctx, refuses);
    if prev.Some? { SwitchOnKeeps(s2, prev.value, refuses); }
    SameCtxsKeeps(s2, Publish(s2, t, ctx));
    hide SwitchOff, SwitchOn, Accepts, Suspend, Over;
    var closing := prev.Some? && s2.ctxs[prev.value].stopped;
    if Accepts(s1, ctx, refuses) {
      if prev.None? {
        SuspendKeeps(s, Publish(s2, t, ctx), t, Recording(None, ctx));
      } else {
        SuspendKeeps(s, s2, t, Retiring(prev.value, ctx, closing));
      }
    } else if prev.None? {
      SuspendKeeps(s, s2, t, RollbackPending(Undo(None, Some(ctx), false, false, false, 1)));
    } else {
      SuspendKeeps(s, SwitchOn(s2, prev.value, refuses), t,
                   RollbackPending(Undo(prev, Some(ctx), true, Accepts(s2, prev.value, refuses), false, 1)));
    }
  }

  lemma FinishUndoKeeps(s: State, t: nat, undo: Undo, refuses: set<Handler>)
    requires t in s.tasks && (undo.prev.Some? ==> undo.prev.value in s.ctxs)
    ensures Keeps(s, FinishUndo(s, t, undo, refuses))
  {
    var restores := undo.prev.Some? && undo.deactivated && !undo.restored && undo.prev.value in s.runtimes.Values;
    if restores { SwitchOnKeeps(s, undo.prev.value, refuses); }
    var s1 := if restores then SwitchOn(s, undo.prev.value, refuses) else s;
    hide SwitchOn, Suspend, Leave, Over;
    LeaveKeeps(s, s1, t, Cancelled);
    SuspendKeeps(s, s1, t, RecordingFailure);
  }

  lemma StartUndoKeeps(s: State, t: nat, u: Undo, outcome: Outcome, refuses: set<Handler>)
    requires t in s.tasks && (u.ctx.Some? ==> u.ctx.value in s.ctxs) && (u.prev.Some? ==> u.prev.value in s.ctxs)
    ensures Keeps(s, StartUndo(s, t, u, outcome, refuses))
  {
    FinishUndoKeeps(s, t, u, refuses);
    SuspendKeeps(s, s, t, RollbackPending(u.(attempts := u.attempts + 1)));
    if u.ctx.Some? {
      SwitchOffKeeps(s, u.ctx.value);
      var s1 := SwitchOff(s, u.ctx.value);
      SuspendKeeps(s, s1, t, RollingBack(u, s1.ctxs[u.ctx.value].stopped));
    }
    hide SwitchOff, FinishUndo, Suspend, Keeps;
  }

  lemma ContinueUndoKeeps(s: State, t: nat, u: Undo, closing: bool, outcome: Outcome, refuses: set<Handler>)
    requires t in s.tasks && u.ctx.Some? && u.ctx.value in s.ctxs && (u.prev.Some? ==> u.prev.value in s.ctxs)
    ensures Keeps(s, ContinueUndo(s, t, u, closing, outcome, refuses))
  {
    FinishUndoKeeps(s, t, u, refuses);
    MarkStoppedKeeps(s, u.ctx.value);
    hide MarkStopped, FinishUndo, Suspend, Leave, Over;
    SuspendKeeps(s, MarkStopped(s, u.ctx.value), t, RollingBack(u, true));
    SuspendKeeps(s, s, t, RollingBack(u.(attempts := u.attempts + 1), closing));
    LeaveKeeps(s, s, t, Cancelled);
  }

  lemma RetireKeeps(s: State, t: nat, outgoing: nat, ctx: nat, closing: bool, outcome: Outcome)
    requires t in s.tasks && s.tasks[t].op.Load? && outgoing in s.ctxs
    ensures Keeps(s, Retire(s, t, outgoing, ctx, closing, outcome))
  {
    MarkStoppedKeeps(s, outgoing);
    SameCtxsKeeps(s, Publish(s, t, ctx));
    hide MarkStopped, Suspend, Over;
    SuspendKeeps(s, s, t, RollbackPending(Undo(Some(outgoing), Some(ctx), true, false, true, 1)));
    SuspendKeeps(s, MarkStopped(s, outgoing), t, Retiring(outgoing, ctx, true));
    SuspendKeeps(s, Publish(s, t, ctx), t, Recording(Some(outgoing), ctx));
  }

  lemma RemoveKeeps(s: State, t: nat, ctx: nat, closing: bool, outcome: Outcome)
    requires t in s.tasks && ctx in s.ctxs
    ensures Keeps(s, Remove(s, t, ctx, closing, outcome))
  {
    MarkStoppedKeeps(s, ctx);
    hide MarkStopped, Suspend, Leave, Over;
    LeaveKeeps(s, s, t, Cancelled);
    SuspendKeeps(s, MarkStopped(s, ctx), t, Removing(ctx, true));
    SuspendKeeps(s, s, t, RecordingUnload);
  }

  lemma BuildKeeps(s: State, t: nat, prev: Option<nat>)
    requires t in s.tasks && s.tasks[t].op.Load? && s.nextCtx !in s.ctxs
    ensures Keeps(s, Build(s, t, prev))
  {}

  /** Moving a task touches no context. */
  lemma MoveKeeps(s: State, t: nat)
    requires t in s.tasks
    ensures forall next: Phase :: Keeps(s, Suspend(s, t, next))
    ensures forall ending: Ending :: Keeps(s, Leave(s, t, ending))
  {}

  lemma ResumeKeeps(s: State, t: nat, phase: Phase, outcome: Outcome, refuses: set<Handler>)
    requires t in s.tasks && (IsLoadPhase(phase) ==> s.tasks[t].op.Load?) && s.nextCtx !in s.ctxs
    requires PhaseCtxs(s, phase) && Possible(phase, outcome)
    ensures Keeps(s, Resume(s, t, phase, outcome, refuses))
  {
    MoveKeeps(s, t);
    hide Swap, Build, Retire, StartUndo, ContinueUndo, Remove, Keeps, Suspend, Leave;
    match phase
    case BuildingContext(prev) => if outcome.Goes? { BuildKeeps(s, t, prev); }
    case Preparing(prev, ctx) => SwapKeeps(s, t, prev, ctx, refuses);
    case Retiring(outgoing, ctx, closing) => RetireKeeps(s, t, outgoing, ctx, closing, outcome);
    case RollbackPending(u) => StartUndoKeeps(s, t, u, outcome, refuses);
    case RollingBack(u, closing) => ContinueUndoKeeps(s, t, u, closing, outcome, refuses);
    case Removing(ctx, closing) => RemoveKeeps(s, t, ctx, closing, outcome);
    case _ =>
  }

  lemma EnterKeeps(s: State, t: nat)
    requires Enabled(s, TakeLock(t))
    ensures Keeps(s, Enter(s, t))
  {
    SameCtxsKeeps(s, s);
    match s.tasks[t].op
    case Unload(name) =>
      if name in s.runtimes {
        var popped := s.(runtimes := s.runtimes - {name});
        SameCtxsKeeps(s, popped);
        SwitchOffKeeps(popped, s.runtimes[name]);
        KeepsTwice(s, popped, SwitchOff(popped, s.runtimes[name]));
        hide SwitchOff, Over;
      }
    case _ => hide Over;
  }

  lemma RegistrationKeeps(s: State, step: Step)
    requires Enabled(s, step) && (step.PluginCommand? || step.PluginHandler?)
    ensures Keeps(s, Next(s, step))
  {}

  lemma OtherStepKeepsCtxs(s: State, step: Step)
    requires Enabled(s, step) && !step.Advance? && !step.TakeLock? && !step.PluginCommand? && !step.PluginHandler?
    ensures Next(s, step).ctxs == s.ctxs
  {}

  lemma StepKeeps(s: State, step: Step)
    requires Inv(s) && Enabled(s, step)
    ensures Keeps(s, Next(s, step))
  {
    assert s.nextCtx !in s.ctxs;
    hide Inv, Keeps;
    if step.Advance? {
      hide Resume;
      ResumeKeeps(s, step.task, s.tasks[step.task].pc.phase, step.outcome, step.refuses);
    } else if step.TakeLock? {
      hide Enter;
      EnterKeeps(s, step.task);
    } else {
      hide Next, Enabled;
      if step.PluginCommand? || step.PluginHandler? {
        RegistrationKeeps(s, step);
      } else {
        OtherStepKeepsCtxs(s, step);
        SameCtxsKeeps(s, Next(s, step));
      }
    }
  }

  /** Over once, over in every later state: never switched on, never taking anything more, and no handler of it live. */
  lemma {:induction false} OverForGood(s: State, run: seq<Step>, c: nat)
    requires Inv(s) && Over(s, c) && Exec(s, run).Some?
    ensures Over(Exec(s, run).value, c) && SameBuffers(s.ctxs[c], Exec(s, run).value.ctxs[c])
    ensures forall h :: h in Exec(s, run).value.world.live && h.Guarded? ==> h.ctx != c
    decreases |run|
  {
    if run == [] {
      forall h | h in s.world.live && h.Guarded? ensures h.ctx != c { OwnerIsActive(s, h); }
    } else {
      StepInv(s, run[0]);
      StepKeeps(s, run[0]);
      hide Inv, Next, Enabled;
      OverForGood(Next(s, run[0]), run[1..], c);
    }
  }

  /** The generation a finished reload replaced is over, whatever happens later. */
  lemma ReplacedForGood(s: State, t: nat, outgoing: nat, c: nat, refuses: set<Handler>, run: seq<Step>, end: State)
    requires Inv(s) && s.lock == Some(t) && s.tasks[t].pc == Body(Recording(Some(outgoing), c))
    requires Exec(s, [Advance(t, Goes, refuses)] + run) == Some(end)
    ensures Over(end, outgoing) && forall h :: h in end.world.live && h.Guarded? ==> h.ctx != outgoing
  {
    assert Over(s, outgoing) by { assert PhaseOk(s, s.tasks[t].op, Recording(Some(outgoing), c)); }
    hide Inv;
    OverForGood(s, [Advance(t, Goes, refuses)] + run, outgoing);
  }

  /** So is the one an unload has stopped. */
  lemma RemovedForGood(s: State, t: nat, c: nat, run: seq<Step>, end: State)
    requires Inv(s) && s.lock == Some(t) && s.tasks[t].pc == Body(Removing(c, true))
    requires Exec(s, run) == Some(end)
    ensures Over(end, c) && forall h :: h in end.world.live && h.Guarded? ==> h.ctx != c
  {
    assert Over(s, c) by { assert PhaseOk(s, s.tasks[t].op, Removing(c, true)); }
    hide Inv;
    OverForGood(s, run, c);
  }
}
