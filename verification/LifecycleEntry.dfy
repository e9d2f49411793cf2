/**
 * Who gets in: which loads start a generation and which are turned away, because their name is
 * disabled, because the program is shutting down, or because the plugin runs already.
 */
module LifecycleEntry {
  import opened Text
  import opened Commands
  import opened Context
  import opened Lifecycle
  import opened LifecycleInv
  import opened LifecycleProgress

  /** Nothing a plugin has is touched: both tables, every context, what is published, and the count of generations. */
  predicate SameOthers(s: State, s': State) {
    && s'.world == s.world && s'.ctxs == s.ctxs && s'.runtimes == s.runtimes && s'.generation == s.generation
    && s'.nextCtx == s.nextCtx
  }

  // ---------------------------------------------------------------- one step

  /** A disabled name is turned away when the load is called or enters its operation, and only then. */
  lemma DisabledExactly(s: State, t: nat)
    requires Enabled(s, TakeOp(t)) && s.tasks[t].op.Load?
    ensures var s', name := Next(s, TakeOp(t)), s.tasks[t].op.name;
            && (s'.tasks[t].pc == Done(Disabled) <==> name in s.disabled)
            && (s'.tasks[t].pc == WaitLock <==> name !in s.disabled)
            && SameOthers(s, s') && (name in s.disabled ==> name !in s'.opLocks && s'.inflight == s.inflight)
  {}

  lemma DisabledAtOnceExactly(s: State, t: nat, op: Op)
    requires Enabled(s, Spawn(t, op)) && op.Load? && !op.guarded
    ensures var s' := Next(s, Spawn(t, op));
            && (s'.tasks[t].pc == Done(Disabled) <==> op.name in s.disabled)
            && (s'.tasks[t].pc == WaitLock <==> op.name !in s.disabled) && SameOthers(s, s')
  {}

  /** At the lock the load may go on: the flag is down, and it is forced or the name is not published. */
  predicate Admits(s: State, t: nat) {
    t in s.tasks && s.tasks[t].op.Load? && !s.shuttingDown && (s.tasks[t].op.force || s.tasks[t].op.name !in s.runtimes)
  }

  /**
   * A load that takes the lock returns the runtime that is there exactly if the flag is down, the name
   * is published and it is not forced; fails exactly if the flag is up; and starts a generation
   * otherwise. Turned away, it leaves everything of every plugin as it was.
   */
  lemma EnterExactly(s: State, t: nat)
    requires Enabled(s, TakeLock(t)) && s.tasks[t].op.Load?
    ensures var s', op := Next(s, TakeLock(t)), s.tasks[t].op;
            && (s'.tasks[t].pc == Done(Existing) <==> !s.shuttingDown && op.name in s.runtimes && !op.force)
            && (s'.tasks[t].pc == Done(Failed) <==> s.shuttingDown)
            && (s'.tasks[t].pc.Body? <==> Admits(s, t))
            && (Admits(s, t) ==>
                  && s'.tasks[t].pc == Body(LoadingModule(Lookup(s.runtimes, op.name)))
                  && s' == s.(tasks := s'.tasks, lock := Some(t), generation := s.generation + 1))
            && (!Admits(s, t) ==> SameOthers(s, s') && s'.lock.None?)
  {
    hide StartUnload, SwitchOff;
    assert Next(s, TakeLock(t)) == Enter(s, t);
    hide Next, Enabled;
  }

  /** An unload of what is not published ends at once; otherwise the name is withdrawn, and no other. */
  lemma UnloadEntersExactly(s: State, t: nat)
    requires Enabled(s, TakeLock(t)) && s.tasks[t].op.Unload?
    ensures var s', name := Next(s, TakeLock(t)), s.tasks[t].op.name;
            if name in s.runtimes then
              && s'.tasks[t].pc.Body? && s'.tasks[t].pc.phase.Removing? && s'.tasks[t].pc.phase.ctx == s.runtimes[name]
              && s'.runtimes == s.runtimes - {name} && s'.generation == s.generation
            else s'.tasks[t].pc == Done(Unloaded) && SameOthers(s, s')
  {
    hide Deactivated, Activated;
    assert Next(s, TakeLock(t)) == Enter(s, t);
    if s.tasks[t].op.name in s.runtimes {
      assert Enter(s, t) == StartUnload(s, t, s.tasks[t].op.name);
      hide Enter, Next;
    }
  }

  /** Every way an operation that still waits can be over, each with its one reason. */
  lemma WaitingEndsExactly(s: State, step: Step, t: nat)
    requires Enabled(s, step) && t in s.tasks && !s.tasks[t].pc.Body? && !s.tasks[t].pc.Done?
    ensures t in Next(s, step).tasks
    ensures var pc, op := Next(s, step).tasks[t].pc, s.tasks[t].op;
            && (pc == Done(Cancelled) <==> step == GiveUp(t))
            && (pc == Done(Disabled) <==> step == TakeOp(t) && op.Load? && op.name in s.disabled)
            && (pc == Done(Failed) <==> step == TakeLock(t) && op.Load? && s.shuttingDown)
            && (pc == Done(Existing) <==>
                  step == TakeLock(t) && op.Load? && !s.shuttingDown && op.name in s.runtimes && !op.force)
            && (pc == Done(Unloaded) <==> step == TakeLock(t) && op.Unload? && op.name !in s.runtimes)
            && pc != Done(Loaded) && pc != Done(Fetched)
  {
    if step == TakeLock(t) {
      StepIsCloser(s, step, t);
      if s.tasks[t].op.Fetch? { FetchEnters(s, t); }
      hide Next, Enabled;
      if s.tasks[t].op.Load? { EnterExactly(s, t); }
      if s.tasks[t].op.Unload? { UnloadEntersExactly(s, t); }
    } else if step == TakeOp(t) || step == GiveUp(t) {
      WaitingStep(s, step, t);
      hide Next, Enabled;
      if step == TakeOp(t) && s.tasks[t].op.Load? { DisabledExactly(s, t); }
    } else {
      hide Next, Enabled;
      OthersKeepTask(s, step, t);
    }
  }

  lemma FetchEnters(s: State, t: nat)
    requires Enabled(s, TakeLock(t)) && s.tasks[t].op.Fetch?
    ensures Next(s, TakeLock(t)) == Suspend(s, t, Fetching)
  {}

  lemma WaitingStep(s: State, step: Step, t: nat)
    requires Enabled(s, step) && (step == TakeOp(t) || step == GiveUp(t))
    ensures t in Next(s, step).tasks
    ensures step == GiveUp(t) ==> Next(s, step).tasks[t].pc == Done(Cancelled)
    ensures step == TakeOp(t) && !s.tasks[t].op.Load? ==> Next(s, step).tasks[t].pc == WaitLock
  {}

  // ---------------------------------------------------------------- whole runs

  predicate Speaks(step: Step, name: string) {
    step.SetDisabled? && step.name == name
  }

  ghost predicate Silent(run: seq<Step>, name: string) {
    forall step :: step in run ==> !Speaks(step, name)
  }

  /** Moving a task, switching a context and publishing leave the disabled names alone. */
  lemma MoveKeepsDisabled(s: State, t: nat, phase: Phase, ending: Ending)
    requires t in s.tasks
    ensures Suspend(s, t, phase).disabled == s.disabled && Leave(s, t, ending).disabled == s.disabled
  {}

  lemma SwitchKeepsDisabled(s: State, c: nat, refuses: set<Handler>)
    requires c in s.ctxs
    ensures SwitchOff(s, c).disabled == s.disabled && SwitchOff(s, c).tasks == s.tasks
    ensures SwitchOn(s, c, refuses).disabled == s.disabled && SwitchOn(s, c, refuses).tasks == s.tasks
    ensures MarkStopped(s, c).disabled == s.disabled && MarkStopped(s, c).tasks == s.tasks
    ensures SwitchOff(s, c).ctxs.Keys == SwitchOn(s, c, refuses).ctxs.Keys == s.ctxs.Keys
  {
    hide Deactivated, Activated;
  }

  lemma SwapKeepsDisabled(s: State, t: nat, prev: Option<nat>, ctx: nat, refuses: set<Handler>)
    requires t in s.tasks && s.tasks[t].op.Load? && ctx in s.ctxs && (prev.Some? ==> prev.value in s.ctxs)
    ensures Swap(s, t, prev, ctx, refuses).disabled == s.disabled
  {
    var s1 := if prev.Some? then SwitchOff(s, prev.value) else s;
    if prev.Some? { SwitchKeepsDisabled(s, prev.value, refuses); }
    SwitchKeepsDisabled(s1, ctx, refuses);
    var s2 := SwitchOn(s1, ctx, refuses);
    if prev.Some? { SwitchKeepsDisabled(s2, prev.value, refuses); }
    var published := Publish(s2, t, ctx);
    assert published.disabled == s2.disabled && published.tasks == s2.tasks;
    hide SwitchOff, SwitchOn, Accepts, Suspend, Publish;
    if Accepts(s1, ctx, refuses) {
      if prev.None? {
        MoveKeepsDisabled(published, t, Recording(None, ctx), Failed);
      } else {
        MoveKeepsDisabled(s2, t, Retiring(prev.value, ctx, s2.ctxs[prev.value].stopped), Failed);
      }
    } else if prev.None? {
      MoveKeepsDisabled(s2, t, RollbackPending(Undo(None, Some(ctx), false, false, false, 1)), Failed);
    } else {
      var undo := Undo(prev, Some(ctx), true, Accepts(s2, prev.value, refuses), false, 1);
      MoveKeepsDisabled(SwitchOn(s2, prev.value, refuses), t, RollbackPending(undo), Failed);
    }
  }

  lemma FinishUndoKeepsDisabled(s: State, t: nat, u: Undo, refuses: set<Handler>)
    requires t in s.tasks && (u.prev.Some? ==> u.prev.value in s.ctxs)
    ensures FinishUndo(s, t, u, refuses).disabled == s.disabled
  {
    var restores := u.prev.Some? && u.deactivated && !u.restored && u.prev.value in s.runtimes.Values;
    if restores { SwitchKeepsDisabled(s, u.prev.value, refuses); }
    hide SwitchOn, Suspend, Leave;
    MoveKeepsDisabled(if restores then SwitchOn(s, u.prev.value, refuses) else s, t, RecordingFailure, Cancelled);
  }

  lemma RollbackKeepsDisabled(s: State, t: nat, phase: Phase, outcome: Outcome, refuses: set<Handler>)
    requires t in s.tasks && PhaseCtxs(s, phase) && Possible(phase, outcome) && s.tasks[t].op.Load?
    requires phase.RollbackPending? || phase.RollingBack?
    ensures Resume(s, t, phase, outcome, refuses).disabled == s.disabled
  {
    var u := phase.undo;
    FinishUndoKeepsDisabled(s, t, u, refuses);
    if u.ctx.Some? { SwitchKeepsDisabled(s, u.ctx.value, refuses); }
    hide SwitchOff, MarkStopped, FinishUndo, Suspend, Leave;
    if phase.RollbackPending? {
      MoveKeepsDisabled(s, t, RollbackPending(u.(attempts := u.attempts + 1)), Cancelled);
      if u.ctx.Some? {
        var s1 := SwitchOff(s, u.ctx.value);
        MoveKeepsDisabled(s1, t, RollingBack(u, s1.ctxs[u.ctx.value].stopped), Cancelled);
      }
    } else {
      MoveKeepsDisabled(s, t, RollingBack(u.(attempts := u.attempts + 1), phase.closing), Cancelled);
      MoveKeepsDisabled(MarkStopped(s, u.ctx.value), t, RollingBack(u, true), Cancelled);
    }
  }

  lemma ForwardKeepsDisabled(s: State, t: nat, phase: Phase, outcome: Outcome, refuses: set<Handler>)
    requires t in s.tasks && (IsLoadPhase(phase) ==> s.tasks[t].op.Load?)
    requires PhaseCtxs(s, phase) && Possible(phase, outcome) && !phase.RollbackPending? && !phase.RollingBack?
    ensures Resume(s, t, phase, outcome, refuses).disabled == s.disabled
  {
    match phase
    case Preparing(prev, ctx) =>
      SwapKeepsDisabled(s, t, prev, ctx, refuses);
      hide Swap;
    case Retiring(outgoing, _, _) => SwitchKeepsDisabled(s, outgoing, refuses); hide MarkStopped;
    case Removing(ctx, _) => SwitchKeepsDisabled(s, ctx, refuses); hide MarkStopped;
    case _ =>
  }

  lemma EnterKeepsDisabled(s: State, t: nat)
    requires Enabled(s, TakeLock(t))
    ensures Enter(s, t).disabled == s.disabled
  {
    MoveKeepsDisabled(s, t, Fetching, Failed);
    MoveKeepsDisabled(s, t, Fetching, Existing);
    MoveKeepsDisabled(s, t, Fetching, Unloaded);
    if s.tasks[t].op.Load? {
      var prev := Lookup(s.runtimes, s.tasks[t].op.name);
      MoveKeepsDisabled(s.(generation := s.generation + 1), t, LoadingModule(prev), Failed);
    }
    if s.tasks[t].op.Unload? && s.tasks[t].op.name in s.runtimes {
      var name := s.tasks[t].op.name;
      var c, popped := s.runtimes[name], s.(runtimes := s.runtimes - {name});
      SwitchKeepsDisabled(popped, c, {});
      MoveKeepsDisabled(SwitchOff(popped, c), t, Removing(c, SwitchOff(popped, c).ctxs[c].stopped), Failed);
    }
    hide SwitchOff, Suspend, Leave;
  }

  lemma WaitingKeepsDisabled(s: State, t: nat)
    requires t in s.tasks
    ensures StopWaiting(s, t).disabled == s.disabled
    ensures s.tasks[t].op.TakesOp() ==> EnterOp(s, t).disabled == s.disabled
  {}

  lemma RegistrationKeepsDisabled(s: State, step: Step)
    requires Enabled(s, step) && (step.PluginCommand? || step.PluginHandler?)
    ensures Next(s, step).disabled == s.disabled
  {
    hide CommandRegistered, HandlerRegistered;
  }

  lemma OtherStepsKeepDisabled(s: State, step: Step)
    requires Enabled(s, step) && !step.Advance? && !step.TakeLock? && !step.SetDisabled?
    ensures Next(s, step).disabled == s.disabled
  {
    match step
    case TakeOp(t) => WaitingKeepsDisabled(s, t); hide EnterOp;
    case GiveUp(t) => WaitingKeepsDisabled(s, t); hide StopWaiting;
    case PluginCommand(_, _) => RegistrationKeepsDisabled(s, step); hide Next, Enabled;
    case PluginHandler(_, _, _) => RegistrationKeepsDisabled(s, step); hide Next, Enabled;
    case _ =>
  }

  lemma OnlySettingDisables(s: State, step: Step, name: string)
    requires Enabled(s, step)
    ensures name in Next(s, step).disabled <==> if Speaks(step, name) then step.off else name in s.disabled
  {
    hide Resume, Enter;
    match step
    case Advance(t, outcome, refuses) =>
      var phase := s.tasks[t].pc.phase;
      if phase.RollbackPending? || phase.RollingBack? {
        RollbackKeepsDisabled(s, t, phase, outcome, refuses);
      } else {
        ForwardKeepsDisabled(s, t, phase, outcome, refuses);
      }
    case TakeLock(t) => EnterKeepsDisabled(s, t);
    case SetDisabled(_, _) =>
    case _ => OtherStepsKeepDisabled(s, step);
  }

  /** A name is disabled as it was last set, whatever else goes on. */
  lemma {:induction false} DisabledAsLastSet(s: State, run: seq<Step>, name: string, i: nat)
    requires Exec(s, run).Some?
    ensures Silent(run, name) ==> (name in Exec(s, run).value.disabled <==> name in s.disabled)
    ensures i < |run| && Speaks(run[i], name) && Silent(run[i + 1..], name) ==>
              (name in Exec(s, run).value.disabled <==> run[i].off)
    decreases |run|
  {
    if run != [] {
      var first, rest := run[0], run[1..];
      OnlySettingDisables(s, first, name);
      hide Next, Enabled, Speaks;
      assert run == [first] + rest;
      DisabledAsLastSet(Next(s, first), rest, name, if i > 0 then i - 1 else 0);
      if 0 < i < |run| { assert rest[i - 1] == run[i] && rest[i..] == run[i + 1..]; }
    }
  }

  /** The load is admitted somewhere in the run. */
  ghost predicate Admitted(s: State, run: seq<Step>, t: nat)
    requires Exec(s, run).Some?
    decreases |run|
  {
    run != [] && ((run[0] == TakeLock(t) && Admits(s, t)) || Admitted(Next(s, run[0]), run[1..], t))
  }

  /** None of its steps in the run touches anything of any plugin. */
  ghost predicate LeavesNoTrace(s: State, run: seq<Step>, t: nat)
    requires Exec(s, run).Some?
    decreases |run|
  {
    run != [] ==>
      && (By(run[0], t) ==> SameOthers(s, Next(s, run[0])))
      && LeavesNoTrace(Next(s, run[0]), run[1..], t)
  }

  lemma OthersKeepTask(s: State, step: Step, t: nat)
    requires t in s.tasks && Enabled(s, step) && !By(step, t)
    ensures t in Next(s, step).tasks && Next(s, step).tasks[t] == s.tasks[t]
  {
    if IsTaskStep(step) { StepIsCloser(s, step, step.task); }
  }

  /** A load outside its body stays outside with every step except being admitted. */
  lemma StaysOutside(s: State, step: Step, t: nat)
    requires Enabled(s, step) && t in s.tasks && s.tasks[t].op.Load? && !s.tasks[t].pc.Body?
    ensures t in Next(s, step).tasks && Next(s, step).tasks[t].op == s.tasks[t].op
    ensures Next(s, step).tasks[t].pc.Body? <==> step == TakeLock(t) && Admits(s, t)
    ensures By(step, t) ==> (SameOthers(s, Next(s, step)) <==> !(step == TakeLock(t) && Admits(s, t)))
  {
    if step == TakeLock(t) {
      EnterExactly(s, t);
      StepIsCloser(s, step, t);
    } else if step == TakeOp(t) {
      DisabledExactly(s, t);
      StepIsCloser(s, step, t);
    } else if step == GiveUp(t) {
      StepIsCloser(s, step, t);
    } else {
      OthersKeepTask(s, step, t);
    }
  }

  /**
   * Over any run, a load that is not in its body yet leaves no trace if and only if it is never
   * admitted; turned away, it never enters its body. So a load of a name that is disabled when it
   * is asked for, or an unforced one of a name that is published when it takes the lock, does nothing.
   */
  lemma {:induction false} TurnedAwayExactly(s: State, run: seq<Step>, t: nat)
    requires t in s.tasks && s.tasks[t].op.Load? && !s.tasks[t].pc.Body? && Exec(s, run).Some?
    ensures LeavesNoTrace(s, run, t) || Admitted(s, run, t)
    ensures !(LeavesNoTrace(s, run, t) && Admitted(s, run, t))
    ensures !Admitted(s, run, t) ==> t in Exec(s, run).value.tasks && !Exec(s, run).value.tasks[t].pc.Body?
    decreases |run|
  {
    if run != [] {
      StaysOutside(s, run[0], t);
      hide Next, Enabled, SameOthers, Admits;
      if !(run[0] == TakeLock(t) && Admits(s, t)) {
        TurnedAwayExactly(Next(s, run[0]), run[1..], t);
      }
    }
  }

  /** A load of a name that is disabled when it enters its operation is over, and never does anything. */
  lemma {:induction false} DisabledLeavesNoTrace(s: State, run: seq<Step>, t: nat)
    requires Enabled(s, TakeOp(t)) && s.tasks[t].op.Load? && s.tasks[t].op.name in s.disabled
    requires Exec(Next(s, TakeOp(t)), run).Some?
    ensures SameOthers(s, Next(s, TakeOp(t))) && LeavesNoTrace(Next(s, TakeOp(t)), run, t)
    ensures t in Exec(Next(s, TakeOp(t)), run).value.tasks
    ensures Exec(Next(s, TakeOp(t)), run).value.tasks[t].pc == Done(Disabled)
  {
    DisabledExactly(s, t);
    hide Next, Enabled;
    OverLeavesNoTrace(Next(s, TakeOp(t)), run, t);
  }

  lemma {:induction false} OverLeavesNoTrace(s: State, run: seq<Step>, t: nat)
    requires t in s.tasks && s.tasks[t].pc.Done? && Exec(s, run).Some?
    ensures LeavesNoTrace(s, run, t)
    ensures t in Exec(s, run).value.tasks && Exec(s, run).value.tasks[t] == s.tasks[t]
    decreases |run|
  {
    if run != [] {
      assert !By(run[0], t);
      OthersKeepTask(s, run[0], t);
      hide Next, Enabled, SameOthers;
      OverLeavesNoTrace(Next(s, run[0]), run[1..], t);
    }
  }
}
