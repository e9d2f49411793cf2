/**
 * `shutdown` is final if no load that can still publish a new name is past the flag check as the
 * flag goes up; `LifecycleShutdownGap` has the converse.
 */
module LifecycleShutdown {
  import opened Text
  import opened Commands
  import opened Context
  import opened ContextLaws
  import opened Lifecycle
  import opened LifecycleInv
  import opened LifecycleSteps
  import opened LifecycleProgress
  import opened LifecycleHolder

  predicate FreshPhase(phase: Phase) {
    match phase
    case LoadingModule(prev) => prev.None?
    case BuildingContext(prev) => prev.None?
    case Preparing(prev, _) => prev.None?
    case _ => false
  }

  /** A first load past the check of the shutdown flag, and the tables would take what it has buffered so far. */
  predicate WillPublish(s: State, t: nat) {
    && s.lock == Some(t) && t in s.tasks && s.tasks[t].op.Load?
    && match s.tasks[t].pc
       case Body(LoadingModule(prev)) => prev.None?
       case Body(BuildingContext(prev)) => prev.None?
       case Body(Preparing(prev, c)) => prev.None? && c in s.ctxs && Accepts(s, c, {})
       case _ => false
  }

  predicate CanGoLive(s: State) {
    s.lock.Some? && WillPublish(s, s.lock.value)
  }

  /** No plugin is published and nothing of a plugin is live. */
  ghost predicate Silent(s: State) {
    && s.runtimes == map[]
    && (forall key :: key in s.world.table ==> s.world.table[key].plugin == CORE)
    && (forall h :: h in s.world.live ==> h.Foreign?)
  }

  /** The gathered unload of `n` that has not started its body. */
  predicate Pending(s: State, t: nat, n: string) {
    && t in s.tasks && s.tasks[t].child && s.tasks[t].op == Unload(n)
    && (s.tasks[t].pc.WaitOp? || s.tasks[t].pc.WaitLock?)
  }

  /** The flag is up, nobody can publish a new name, and every published name has an unload coming. */
  ghost predicate ClosingDown(s: State) {
    && s.shuttingDown && !CanGoLive(s)
    && match s.shutdown
       case NotCalled => false
       case WaitingIdle => true
       case Gathering(children) => forall n :: n in s.runtimes ==> exists t :: t in children && Pending(s, t, n)
       case Returned => s.runtimes == map[]
       case Abandoned => true
  }

  /** Fewer names published, still nobody publishing a new one. */
  ghost predicate Shrinks(s: State, s': State) {
    s'.runtimes.Keys <= s.runtimes.Keys && !CanGoLive(s') && s'.shuttingDown && s'.shutdown == s.shutdown
  }

  lemma SuspendShrinks(s: State, s1: State, t: nat, phase: Phase)
    requires t in s.tasks && s1.tasks == s.tasks && s1.runtimes.Keys <= s.runtimes.Keys
    requires s1.shuttingDown && s1.shutdown == s.shutdown && !FreshPhase(phase)
    ensures Shrinks(s, Suspend(s1, t, phase))
  {}

  lemma LeaveShrinks(s: State, s1: State, t: nat, ending: Ending)
    requires t in s.tasks && s1.tasks == s.tasks && s1.runtimes.Keys <= s.runtimes.Keys
    requires s1.shuttingDown && s1.shutdown == s.shutdown
    ensures Shrinks(s, Leave(s1, t, ending))
  {}

  lemma ForwardShrinks(s: State, t: nat, phase: Phase, outcome: Outcome, refuses: set<Handler>)
    requires t in s.tasks && s.tasks[t].op.Load? && s.shuttingDown
    requires Forward(phase) && !FreshPhase(phase) && PhaseOk(s, s.tasks[t].op, phase)
    requires PhaseCtxs(s, phase) && Possible(phase, outcome)
    ensures Shrinks(s, Resume(s, t, phase, outcome, refuses))
  {
    hide Activated, Deactivated, Shrinks, Suspend, Leave;
    var fail := outcome.IsCancelled?;
    match phase
    case LoadingModule(prev) =>
      SuspendShrinks(s, s, t, BuildingContext(prev));
      SuspendShrinks(s, s, t, RollbackPending(Undo(prev, None, false, false, fail, 1)));
    case BuildingContext(prev) =>
      BuildShrinks(s, t, prev);
      SuspendShrinks(s, s, t, RollbackPending(Undo(prev, None, false, false, fail, 1)));
    case Preparing(prev, ctx) =>
      SwapShrinks(s, t, prev.value, ctx, refuses);
      SuspendShrinks(s, s, t, RollbackPending(Undo(prev, Some(ctx), false, false, fail, 1)));
    case Retiring(outgoing, ctx, closing) =>
      SuspendShrinks(s, s, t, RollbackPending(Undo(Some(outgoing), Some(ctx), true, false, true, 1)));
      SuspendShrinks(s, MarkStopped(s, outgoing), t, Retiring(outgoing, ctx, true));
      SuspendShrinks(s, Publish(s, t, ctx), t, Recording(Some(outgoing), ctx));
    case Recording(prev, ctx) =>
      LeaveShrinks(s, s, t, Loaded);
      SuspendShrinks(s, s, t, RollbackPending(Undo(prev, Some(ctx), prev.Some?, false, fail, 1)));
  }

  lemma BuildShrinks(s: State, t: nat, prev: Option<nat>)
    requires t in s.tasks && s.tasks[t].op.Load? && s.shuttingDown && prev.Some?
    ensures Shrinks(s, Build(s, t, prev))
  {}

  lemma SwapShrinks(s: State, t: nat, outgoing: nat, ctx: nat, refuses: set<Handler>)
    requires t in s.tasks && s.tasks[t].op.Load? && s.shuttingDown && ctx in s.ctxs && outgoing in s.ctxs
    ensures Shrinks(s, Swap(s, t, Some(outgoing), ctx, refuses))
  {
    hide Activated, Deactivated, Shrinks, Suspend, Accepts;
    var s2 := SwitchOn(SwitchOff(s, outgoing), ctx, refuses);
    SuspendShrinks(s, s2, t, Retiring(outgoing, ctx, s2.ctxs[outgoing].stopped));
    SuspendShrinks(s, SwitchOn(s2, outgoing, refuses), t,
                   RollbackPending(Undo(Some(outgoing), Some(ctx), true, Accepts(s2, outgoing, refuses), false, 1)));
  }

  lemma FinishShrinks(s: State, t: nat, undo: Undo, refuses: set<Handler>)
    requires t in s.tasks && s.shuttingDown && (undo.prev.Some? ==> undo.prev.value in s.ctxs)
    ensures Shrinks(s, FinishUndo(s, t, undo, refuses))
  {
    hide Activated, Deactivated, Shrinks, Suspend, Leave;
    var s1 :=
      if undo.prev.Some? && undo.deactivated && !undo.restored && undo.prev.value in s.runtimes.Values
      then SwitchOn(s, undo.prev.value, refuses)
      else s;
    LeaveShrinks(s, s1, t, Cancelled);
    SuspendShrinks(s, s1, t, RecordingFailure);
  }

  lemma BackwardShrinks(s: State, t: nat, phase: Phase, outcome: Outcome, refuses: set<Handler>)
    requires t in s.tasks && s.shuttingDown && !Forward(phase) && (IsLoadPhase(phase) ==> s.tasks[t].op.Load?)
    requires PhaseCtxs(s, phase) && Possible(phase, outcome)
    ensures Shrinks(s, Resume(s, t, phase, outcome, refuses))
  {
    hide Deactivated, Shrinks, Suspend, Leave, FinishUndo;
    LeaveShrinks(s, s, t, Cancelled);
    match phase
    case RollbackPending(u) =>
      SuspendShrinks(s, s, t, RollbackPending(u.(attempts := u.attempts + 1)));
      FinishShrinks(s, t, u, refuses);
      if u.ctx.Some? {
        var s1 := SwitchOff(s, u.ctx.value);
        SuspendShrinks(s, s1, t, RollingBack(u, s1.ctxs[u.ctx.value].stopped));
      }
    case RollingBack(u, closing) =>
      SuspendShrinks(s, s, t, RollingBack(u.(attempts := u.attempts + 1), closing));
      SuspendShrinks(s, MarkStopped(s, u.ctx.value), t, RollingBack(u, true));
      FinishShrinks(s, t, u, refuses);
    case Removing(ctx, closing) =>
      SuspendShrinks(s, MarkStopped(s, ctx), t, Removing(ctx, true));
      SuspendShrinks(s, s, t, RecordingUnload);
    case RecordingFailure => LeaveShrinks(s, s, t, EndingOf(outcome, Failed));
    case RecordingUnload => LeaveShrinks(s, s, t, EndingOf(outcome, Unloaded));
    case Fetching => LeaveShrinks(s, s, t, EndingOf(outcome, Fetched));
  }

  lemma EnterShrinks(s: State, t: nat)
    requires Enabled(s, TakeLock(t)) && s.shuttingDown
    ensures Shrinks(s, Enter(s, t))
    ensures s.tasks[t].op.Unload? ==> s.tasks[t].op.name !in Enter(s, t).runtimes
  {
    match s.tasks[t].op
    case Load(_, _, _) => LeaveShrinks(s, s, t, Failed);
    case Unload(name) =>
      LeaveShrinks(s, s, t, Unloaded);
      if name in s.runtimes {
        var c := s.runtimes[name];
        var s1 := SwitchOff(s.(runtimes := s.runtimes - {name}), c);
        SuspendShrinks(s, s1, t, Removing(c, s1.ctxs[c].stopped));
      }
    case Fetch => SuspendShrinks(s, s, t, Fetching);
  }

  // ---------------------------------------------------------------- a load that cannot go live

  /** What a prepared first load needs of the tables. */
  lemma PreparedAccepts(s: State, t: nat, c: nat, refuses: set<Handler>)
    requires Inv(s) && s.lock == Some(t) && s.tasks[t].pc == Body(Preparing(None, c))
    ensures c in s.ctxs && (Accepts(s, c, refuses) <==>
              && !s.ctxs[c].stopped && Consistent(s.ctxs[c].commands) && Free(s.world.table, s.ctxs[c].commands)
              && forall h :: h in s.ctxs[c].handlers ==> h !in refuses)
  {
    HolderPhase(s);
    FirstHalf(s, t, None, c);
    NobodyLiveMeansAbsent(s.world, s.ctxs, s.nextCtx, s.tasks[t].op.name);
    ActivationExact(s.world, s.ctxs[c], refuses);
    hide LocksOk, CtxValid, Activated, RuntimesOk;
  }

  /** Registrations only ever add: rows to the table, and commands behind those a context has buffered. */
  ghost predicate Grows(s: State, s': State) {
    && SubTable(s.world.table, s'.world.table)
    && forall c :: c in s.ctxs ==> c in s'.ctxs && s.ctxs[c].commands <= s'.ctxs[c].commands
  }

  lemma CommandGrows(s: State, c: nat, reg: CommandReg)
    requires c in s.ctxs && CtxValid(s.world, s.ctxs[c])
    ensures Grows(s, RegisterCommand(s, c, reg))
  {
    CommandRegisteredIsValid(s.world, s.ctxs[c], reg);
    assert CommandRegistered(s.world, s.ctxs[c], reg).ctx.commands == s.ctxs[c].commands + [reg];
    hide CommandRegistered, CtxValid;
  }

  lemma HandlerGrows(s: State, c: nat, event: int, refuses: set<Handler>)
    requires c in s.ctxs
    ensures Grows(s, RegisterHandler(s, c, event, refuses))
  {}

  lemma OthersGrow(s: State, step: Step, t: nat)
    requires Inv(s) && s.lock == Some(t) && Enabled(s, step) && !IsStepOf(step, t)
    ensures Grows(s, Next(s, step))
  {
    NobodyElseInside(s, step, t);
    assert forall c :: c in s.ctxs ==> CtxValid(s.world, s.ctxs[c]);
    hide Inv, Grows, CtxValid;
    if step.PluginCommand? {
      CommandGrows(s, step.ctx, step.reg);
    } else if step.PluginHandler? {
      HandlerGrows(s, step.ctx, step.event, step.refuses);
    } else {
      if step.TakeOp? { EnterOpMoves(s, step.task); }
      if step.GiveUp? { StopWaitingMoves(s, step.task); }
      SameTablesGrow(s, Next(s, step));
    }
  }

  lemma SameTablesGrow(s: State, s': State)
    requires s'.world == s.world && s'.ctxs == s.ctxs
    ensures Grows(s, s')
  {}

  /** What collided in a smaller table collides in a bigger one, whatever is buffered behind it. */
  lemma CollisionsStay(table: Table, table': Table, regs: seq<CommandReg>, regs': seq<CommandReg>)
    requires SubTable(table, table') && regs <= regs' && Consistent(regs') && Free(table', regs')
    ensures Consistent(regs) && Free(table, regs)
  {
    forall i | 0 <= i < |regs| ensures Usable(regs[i]) && RegKeys(regs[i]) !! table.Keys {
      assert regs[i] == regs'[i];
    }
    forall i, j | 0 <= i < j < |regs| ensures RegKeys(regs[i]) !! RegKeys(regs[j]) {
      assert regs[i] == regs'[i] && regs[j] == regs'[j];
    }
  }

  /** While the task inside the lock cannot go live, no step of anybody else makes it able to. */
  lemma OthersDoNotHelp(s: State, step: Step, t: nat)
    requires Inv(s) && s.lock == Some(t) && !CanGoLive(s) && Enabled(s, step) && !IsStepOf(step, t)
    ensures !CanGoLive(Next(s, step))
  {
    var s' := Next(s, step);
    OthersStand(s, step, t);
    OthersGrow(s, step, t);
    StepInv(s, step);
    hide Next, Enabled, Accepts;
    if CanGoLive(s') {
      HolderPhase(s);
      hide Inv, Held, RuntimesOk;
      if s.tasks[t].pc.phase.Preparing? {
        var c := s.tasks[t].pc.phase.ctx;
        PreparedAccepts(s, t, c, {});
        PreparedAccepts(s', t, c, {});
        CollisionsStay(s.world.table, s'.world.table, s.ctxs[c].commands, s'.ctxs[c].commands);
      }
    }
  }

  /** The exchange of a first load that cannot go live fails. */
  lemma HopelessShrinks(s: State, t: nat, c: nat, outcome: Outcome, refuses: set<Handler>)
    requires Inv(s) && s.lock == Some(t) && s.tasks[t].pc == Body(Preparing(None, c)) && !CanGoLive(s) && s.shuttingDown
    requires Enabled(s, Advance(t, outcome, refuses))
    ensures Shrinks(s, Next(s, Advance(t, outcome, refuses)))
  {
    PreparedAccepts(s, t, c, {});
    PreparedAccepts(s, t, c, refuses);
    assert !Accepts(s, c, refuses);
    hide Inv, Accepts, Shrinks, SwitchOn, Suspend, Consistent, Free;
    SuspendShrinks(s, s, t, RollbackPending(Undo(None, Some(c), false, false, outcome.IsCancelled?, 1)));
    SuspendShrinks(s, SwitchOn(s, c, refuses), t, RollbackPending(Undo(None, Some(c), false, false, false, 1)))
      by { SwitchOnElsewhere(s, c, refuses); }
  }

  lemma TaskStepShrinks(s: State, step: Step)
    requires Inv(s) && s.shuttingDown && !CanGoLive(s) && Enabled(s, step) && IsTaskStep(step)
    ensures Shrinks(s, Next(s, step))
  {
    var t := step.task;
    match step
    case Advance(_, outcome, refuses) =>
      assert s.lock == Some(t) && PhaseOk(s, s.tasks[t].op, s.tasks[t].pc.phase);
      hide Inv, Shrinks, Resume, Accepts;
      if FreshPhase(s.tasks[t].pc.phase) {
        HopelessShrinks(s, t, s.tasks[t].pc.phase.ctx, outcome, refuses);
      } else if Forward(s.tasks[t].pc.phase) {
        ForwardShrinks(s, t, s.tasks[t].pc.phase, outcome, refuses);
      } else {
        BackwardShrinks(s, t, s.tasks[t].pc.phase, outcome, refuses);
      }
    case TakeLock(_) => EnterShrinks(s, t);
    case TakeOp(_) => WaitingShrinks(s, EnterOp(s, t), t) by { EnterOpMoves(s, t); }
    case GiveUp(_) => WaitingShrinks(s, StopWaiting(s, t), t) by { StopWaitingMoves(s, t); }
  }

  lemma SameTablesAccept(s: State, s': State)
    requires s'.world == s.world && s'.ctxs == s.ctxs
    ensures forall c :: c in s.ctxs ==> Accepts(s', c, {}) == Accepts(s, c, {})
  {
    hide Activated;
  }

  lemma SameChances(s: State, s': State)
    requires s'.world == s.world && s'.ctxs == s.ctxs && s'.lock == s.lock
    requires s.lock.Some? ==> s.lock.value in s.tasks && s.lock.value in s'.tasks
                              && s'.tasks[s.lock.value] == s.tasks[s.lock.value]
    ensures CanGoLive(s') == CanGoLive(s)
  {
    SameTablesAccept(s, s');
    hide Accepts;
  }

  lemma WaitingShrinks(s: State, s': State, t: nat)
    requires Inv(s) && t in s.tasks && !s.tasks[t].pc.Body? && s.shuttingDown && !CanGoLive(s) && MovesTask(s, s', t)
    ensures Shrinks(s, s')
  {
    assert s.lock != Some(t) && (s.lock.Some? ==> s.lock.value in s.tasks);
    SameChances(s, s');
    hide WillPublish;
  }

  // ---------------------------------------------------------------- finality

  lemma PendingSurvives(s: State, step: Step, u: nat, n: string)
    requires Inv(s) && s.shuttingDown && Enabled(s, step) && IsTaskStep(step)
    requires Pending(s, u, n) && !s.shutdown.Abandoned? && n in Next(s, step).runtimes
    ensures Pending(Next(s, step), u, n)
  {
    StepIsCloser(s, step, step.task);
    hide Inv, EnterOp, Enter;
    if step == TakeOp(u) {
      assert Next(s, step) == EnterOp(s, u);
      TakenIsPending(s, u, n);
    } else if step == TakeLock(u) {
      EnterShrinks(s, u);
      assert false;
    }
  }

  lemma TakenIsPending(s: State, u: nat, n: string)
    requires Pending(s, u, n)
    ensures Pending(EnterOp(s, u), u, n)
  {}

  lemma ClosingDownTask(s: State, step: Step)
    requires Inv(s) && ClosingDown(s) && Enabled(s, step) && IsTaskStep(step)
    ensures ClosingDown(Next(s, step))
  {
    TaskStepShrinks(s, step);
    var s' := Next(s, step);
    hide Inv, Next, Enabled;
    if s.shutdown.Gathering? {
      var children := s.shutdown.children;
      forall n | n in s'.runtimes ensures exists t :: t in children && Pending(s', t, n) {
        var t :| t in children && Pending(s, t, n);
        PendingSurvives(s, step, t, n);
      }
    }
  }

  lemma ClosingDownSnapshot(s: State, children: map<nat, string>)
    requires Inv(s) && ClosingDown(s) && Enabled(s, Snapshot(children))
    ensures ClosingDown(SpawnChildren(s, children))
  {
    var s' := SpawnChildren(s, children);
    assert s'.shuttingDown && s'.shutdown == Gathering(children) && s'.runtimes == s.runtimes;
    assert s.lock.Some? ==> s.lock.value in s.tasks && s'.tasks[s.lock.value] == s.tasks[s.lock.value];
    SameChances(s, s');
    SnapshotCovers(s, children);
    hide WillPublish, Inv, CanGoLive, Pending, Enabled, SpawnChildren;
  }

  lemma SnapshotCovers(s: State, children: map<nat, string>)
    requires children.Values == s.runtimes.Keys
    ensures forall n :: n in s.runtimes ==> exists t :: t in children && Pending(SpawnChildren(s, children), t, n)
  {
    forall n | n in s.runtimes ensures exists t :: t in children && Pending(SpawnChildren(s, children), t, n) {
      assert n in children.Values;
      var t :| t in children && children[t] == n;
      assert Pending(SpawnChildren(s, children), t, n);
    }
  }

  lemma ClosingDownFinish(s: State)
    requires ClosingDown(s) && Enabled(s, FinishShutdown) && (s.lock.Some? ==> s.lock.value in s.tasks)
    ensures ClosingDown(s.(shutdown := Returned))
  {
    assert forall t, n :: t in s.shutdown.children && Finished(s, t) ==> !Pending(s, t, n);
    SameChances(s, s.(shutdown := Returned));
    hide WillPublish;
  }

  /** Steps that leave the tasks that exist, the lock, the runtime map and the shutdown alone. */
  predicate Aside(s: State, s': State) {
    && s'.lock == s.lock && s'.runtimes == s.runtimes && s'.shuttingDown == s.shuttingDown && s'.shutdown == s.shutdown
    && forall t :: t in s.tasks ==> t in s'.tasks && s'.tasks[t] == s.tasks[t]
  }

  lemma ClosingDownAside(s: State, s': State)
    requires ClosingDown(s) && Aside(s, s') && (s.lock.Some? ==> s.lock.value in s.tasks) && !CanGoLive(s')
    ensures ClosingDown(s')
  {
    if s.shutdown.Gathering? {
      forall n | n in s'.runtimes ensures exists t :: t in s'.shutdown.children && Pending(s', t, n) {
        var t :| t in s.shutdown.children && Pending(s, t, n);
        assert Pending(s', t, n);
      }
    }
  }

  lemma OtherStepAside(s: State, step: Step)
    requires Enabled(s, step)
    requires step.Spawn? || step.PluginCommand? || step.PluginHandler? || step.SetDisabled?
    ensures Aside(s, Next(s, step))
  {
    hide CommandRegistered, HandlerRegistered;
  }

  lemma ClosingDownOther(s: State, step: Step)
    requires Inv(s) && ClosingDown(s) && Enabled(s, step) && !IsTaskStep(step) && !step.Snapshot?
    ensures ClosingDown(Next(s, step))
  {
    assert !step.BeginShutdown? && (s.lock.Some? ==> s.lock.value in s.tasks);
    if step.FinishShutdown? {
      ClosingDownFinish(s);
    } else if step.AbandonShutdown? {
      SameChances(s, s.(shutdown := Abandoned));
      hide WillPublish;
    } else {
      if s.lock.Some? { OthersDoNotHelp(s, step, s.lock.value); }
      hide Inv, Next, Enabled, Aside, WillPublish;
      OtherStepAside(s, step);
      hide ClosingDown;
      ClosingDownAside(s, Next(s, step));
    }
  }

  lemma {:induction false} ClosingDownRun(s: State, run: seq<Step>)
    requires Inv(s) && ClosingDown(s) && Exec(s, run).Some?
    ensures Inv(Exec(s, run).value) && ClosingDown(Exec(s, run).value)
    decreases |run|
  {
    if run != [] {
      StepInv(s, run[0]);
      if IsTaskStep(run[0]) {
        ClosingDownTask(s, run[0]);
      } else if run[0].Snapshot? {
        ClosingDownSnapshot(s, run[0].children);
      } else {
        ClosingDownOther(s, run[0]);
      }
      hide Inv, ClosingDown, Next, Enabled;
      ClosingDownRun(Next(s, run[0]), run[1..]);
    }
  }

  lemma NothingPublishedMeansSilent(s: State)
    requires Inv(s) && s.runtimes == map[]
    ensures Silent(s)
  {
    forall c | c in s.ctxs ensures !s.ctxs[c].active {
      if s.ctxs[c].active { assert false; }
    }
    forall h | h in s.world.live ensures h.Foreign? {
      if h.Guarded? { assert false; }
    }
    forall key | key in s.world.table ensures s.world.table[key].plugin == CORE {
      if s.world.table[key].plugin != CORE { assert false; }
    }
  }

  /** Under this schedule nothing of a plugin is left once `shutdown` has returned. */
  ghost predicate FinalUnder(s: State, run: seq<Step>) {
    var end := Exec(s, [BeginShutdown] + run);
    end.Some? && end.value.shutdown.Returned? ==> Silent(end.value)
  }

  /**
   * Shutdown is final: if no load that can still publish a new name is past the flag check when
   * the flag goes up, then whatever is scheduled afterwards, once `shutdown` has returned no
   * plugin is published or live, in that state and in every later one.
   */
  lemma ShutdownIsFinal(s: State, run: seq<Step>)
    requires Inv(s) && s.shutdown.NotCalled? && !CanGoLive(s)
    ensures FinalUnder(s, run)
  {
    var s1 := RaiseFlag(s);
    ExecCons(s, BeginShutdown, run);
    FlagStepInv(s, BeginShutdown);
    SameChances(s, s1) by { assert s.lock.Some? ==> s.lock.value in s.tasks; }
    hide Inv, WillPublish;
    if Exec(s1, run).Some? {
      ClosingDownRun(s1, run);
      hide ClosingDown;
      if Exec(s1, run).value.shutdown.Returned? {
        assert ClosingDown(Exec(s1, run).value);
        EmptyOnReturn(Exec(s1, run).value);
      }
    }
  }

  lemma EmptyOnReturn(s: State)
    requires Inv(s) && ClosingDown(s) && s.shutdown.Returned?
    ensures Silent(s)
  {
    NothingPublishedMeansSilent(s);
  }
}
