/** What the end of an operation says about the state it leaves. */
module LifecycleEndings {
  import opened Text
  import opened Commands
  import opened Context
  import opened Lifecycle
  import opened LifecycleInv
  import opened LifecycleSteps
  import opened LifecycleProgress
  import opened LifecycleSafety

  /** Everything the generation `c` has live is its plugin's, and nothing else of the plugin is live. */
  ghost predicate LiveAlone(s: State, plugin: string, c: nat) {
    PublishedFor(s, plugin, c) && SoleGeneration(s, plugin, c)
  }

  /** Nothing of the plugin is published or live. */
  ghost predicate Gone(s: State, plugin: string) {
    && plugin !in s.runtimes && Absent(s.world.table, plugin)
    && forall h :: h in s.world.live && h.Guarded? ==> !CtxOf(s, h.ctx, plugin)
  }

  lemma PublishedLiveIsAlone(s: State, plugin: string, c: nat)
    requires Inv(s) && s.lock.None? && PublishedFor(s, plugin, c) && s.ctxs[c].active
    ensures LiveAlone(s, plugin, c)
  {
    assert LiveAs(s.ctxs, c, plugin) && CtxValid(s.world, s.ctxs[c]);
    forall h | h in s.world.live && h.Guarded? && CtxOf(s, h.ctx, plugin) ensures h.ctx == c {
      OwnerIsActive(s, h);
      assert LiveAs(s.ctxs, h.ctx, plugin);
    }
  }

  lemma UnpublishedIsGone(s: State, plugin: string)
    requires Inv(s) && s.lock.None? && plugin !in s.runtimes && plugin != CORE
    ensures Gone(s, plugin)
  {
    forall c ensures !LiveAs(s.ctxs, c, plugin) {
      if LiveAs(s.ctxs, c, plugin) { assert false; }
    }
    NobodyLiveMeansAbsent(s.world, s.ctxs, s.nextCtx, plugin);
    forall h | h in s.world.live && h.Guarded? ensures !CtxOf(s, h.ctx, plugin) { OwnerIsActive(s, h); }
  }

  /** `t` has not ended as loaded or as unloaded. */
  predicate Quiet(s: State, t: nat) {
    t in s.tasks && s.tasks[t].pc != Done(Loaded) && s.tasks[t].pc != Done(Unloaded)
  }

  lemma SuspendQuiet(s: State, t: nat, phase: Phase)
    requires t in s.tasks
    ensures Quiet(Suspend(s, t, phase), t)
  {}

  lemma LeaveEnds(s: State, t: nat, ending: Ending)
    requires t in s.tasks
    ensures var s' := Leave(s, t, ending);
            t in s'.tasks && s'.tasks[t].pc == Done(ending) && s'.lock.None? && s'.runtimes == s.runtimes
                && s'.ctxs == s.ctxs
  {}

  lemma FinishUndoQuiet(s: State, t: nat, undo: Undo, refuses: set<Handler>)
    requires t in s.tasks && (undo.prev.Some? ==> undo.prev.value in s.ctxs)
    ensures Quiet(FinishUndo(s, t, undo, refuses), t)
  {
    var s1 :=
      if undo.prev.Some? && undo.deactivated && !undo.restored && undo.prev.value in s.runtimes.Values
      then SwitchOn(s, undo.prev.value, refuses)
      else s;
    assert s1.tasks == s.tasks by { hide Activated; }
    hide SwitchOn, Suspend, Leave;
    SuspendQuiet(s1, t, RecordingFailure);
    LeaveEnds(s1, t, Cancelled);
  }

  lemma SwapQuiet(s: State, t: nat, prev: Option<nat>, ctx: nat, refuses: set<Handler>)
    requires t in s.tasks && s.tasks[t].op.Load? && ctx in s.ctxs && (prev.Some? ==> prev.value in s.ctxs)
    ensures Quiet(Swap(s, t, prev, ctx, refuses), t)
  {
    hide Activated, Deactivated, Accepts;
  }

  /** Only recording a load can end it as loaded. */
  lemma ForwardQuiet(s: State, t: nat, phase: Phase, outcome: Outcome, refuses: set<Handler>)
    requires t in s.tasks && s.tasks[t].op.Load? && Forward(phase)
    requires PhaseCtxs(s, phase) && Possible(phase, outcome)
    ensures (phase.Recording? && outcome.Goes?) || Quiet(Resume(s, t, phase, outcome, refuses), t)
  {
    if phase.Preparing? { SwapQuiet(s, t, phase.prev, phase.ctx, refuses); }
    hide Swap;
  }

  /** Only recording an unload can end it as unloaded. */
  lemma BackwardQuiet(s: State, t: nat, phase: Phase, outcome: Outcome, refuses: set<Handler>)
    requires t in s.tasks && !Forward(phase) && (IsLoadPhase(phase) ==> s.tasks[t].op.Load?)
    requires PhaseCtxs(s, phase) && Possible(phase, outcome)
    ensures (phase.RecordingUnload? && outcome.Goes?) || Quiet(Resume(s, t, phase, outcome, refuses), t)
  {
    hide StartUndo, ContinueUndo, Remove, Leave;
    match phase
    case RollbackPending(u) => StartQuiet(s, t, u, outcome, refuses);
    case RollingBack(u, closing) => ContinueQuiet(s, t, u, closing, outcome, refuses);
    case Removing(ctx, closing) => RemoveQuiet(s, t, ctx, closing, outcome);
    case RecordingFailure => LeaveEnds(s, t, EndingOf(outcome, Failed));
    case RecordingUnload => LeaveEnds(s, t, EndingOf(outcome, Unloaded));
    case Fetching => LeaveEnds(s, t, EndingOf(outcome, Fetched));
  }

  lemma RemoveQuiet(s: State, t: nat, ctx: nat, closing: bool, outcome: Outcome)
    requires t in s.tasks && ctx in s.ctxs
    ensures Quiet(Remove(s, t, ctx, closing, outcome), t)
  {}

  lemma StartQuiet(s: State, t: nat, u: Undo, outcome: Outcome, refuses: set<Handler>)
    requires t in s.tasks && (u.ctx.Some? ==> u.ctx.value in s.ctxs) && (u.prev.Some? ==> u.prev.value in s.ctxs)
    ensures Quiet(StartUndo(s, t, u, outcome, refuses), t)
  {
    FinishUndoQuiet(s, t, u, refuses);
    hide FinishUndo, Deactivated;
  }

  lemma ContinueQuiet(s: State, t: nat, u: Undo, closing: bool, outcome: Outcome, refuses: set<Handler>)
    requires t in s.tasks && u.ctx.Some? && u.ctx.value in s.ctxs && (u.prev.Some? ==> u.prev.value in s.ctxs)
    ensures Quiet(ContinueUndo(s, t, u, closing, outcome, refuses), t)
  {
    FinishUndoQuiet(s, t, u, refuses);
    hide FinishUndo;
  }

  predicate EndedAs(s: State, t: nat, ending: Ending) {
    t in s.tasks && s.tasks[t].pc == Done(ending)
  }

  lemma AdvanceShape(s: State, t: nat, outcome: Outcome, refuses: set<Handler>)
    requires Inv(s) && Enabled(s, Advance(t, outcome, refuses))
    ensures var s', phase := Next(s, Advance(t, outcome, refuses)), s.tasks[t].pc.phase;
            && s.lock == Some(t)
            && (phase.Recording? && outcome.Goes? ==> s' == Leave(s, t, Loaded))
            && (phase.RecordingUnload? && outcome.Goes? ==> s' == Leave(s, t, Unloaded))
            && (((phase.Recording? || phase.RecordingUnload?) && outcome.Goes?) || Quiet(s', t))
  {
    assert s.lock == Some(t);
    HolderPhase(s);
    hide Held, RuntimesOk, Leave;
    if Forward(s.tasks[t].pc.phase) {
      ForwardQuiet(s, t, s.tasks[t].pc.phase, outcome, refuses);
    } else {
      BackwardQuiet(s, t, s.tasks[t].pc.phase, outcome, refuses);
    }
    hide Inv, PhaseOk, Swap, Build, FailEarly, Retire, StartUndo, ContinueUndo, Remove;
  }

  lemma RecordingFacts(s: State, t: nat, outcome: Outcome, refuses: set<Handler>)
    requires Inv(s) && Enabled(s, Advance(t, outcome, refuses)) && !s.tasks[t].op.Fetch?
    ensures var name, phase := s.tasks[t].op.name, s.tasks[t].pc.phase;
            && name != CORE
            && (phase.Recording? ==> PublishedFor(s, name, phase.ctx) && s.ctxs[phase.ctx].active)
            && (phase.RecordingUnload? ==> name !in s.runtimes)
  {
    assert s.lock == Some(t) && PhaseOk(s, s.tasks[t].op, s.tasks[t].pc.phase) && NamesOk(s.tasks);
    hide Inv;
  }

  /**
   * A load that ends as loaded leaves the new generation published, and all the plugin has live
   * is that generation's; an unload that ends as unloaded leaves nothing of the plugin.
   */
  lemma EndingsAreTrue(s: State, t: nat, outcome: Outcome, refuses: set<Handler>)
    requires Inv(s) && Enabled(s, Advance(t, outcome, refuses)) && !s.tasks[t].op.Fetch?
    ensures var s', name := Next(s, Advance(t, outcome, refuses)), s.tasks[t].op.name;
            && (EndedAs(s', t, Loaded) ==> exists c :: LiveAlone(s', name, c))
            && (EndedAs(s', t, Unloaded) ==> Gone(s', name))
  {
    var s', name, phase := Next(s, Advance(t, outcome, refuses)), s.tasks[t].op.name, s.tasks[t].pc.phase;
    StepInv(s, Advance(t, outcome, refuses));
    AdvanceShape(s, t, outcome, refuses);
    RecordingFacts(s, t, outcome, refuses);
    hide Inv, Next, Enabled, LiveAlone, Gone, Leave;
    LeaveEnds(s, t, Loaded);
    LeaveEnds(s, t, Unloaded);
    if phase.Recording? && outcome.Goes? {
      PublishedLiveIsAlone(s', name, phase.ctx);
    } else if phase.RecordingUnload? && outcome.Goes? {
      UnpublishedIsGone(s', name);
    }
  }

  /** Asking for an unload of a name that is not published ends as unloaded at once, with nothing of it there. */
  lemma UnloadOfNothing(s: State, t: nat)
    requires Inv(s) && Enabled(s, TakeLock(t)) && s.tasks[t].op.Unload? && s.tasks[t].op.name !in s.runtimes
    ensures var s' := Next(s, TakeLock(t)); s'.tasks[t].pc == Done(Unloaded) && Gone(s', s.tasks[t].op.name)
  {
    StepInv(s, TakeLock(t));
    LeaveEnds(s, t, Unloaded);
    hide Inv, Gone, Leave;
    UnpublishedIsGone(Leave(s, t, Unloaded), s.tasks[t].op.name);
  }
}
