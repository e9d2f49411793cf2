/** Neither deadlock nor livelock: some task can always go on, and no task can go on for ever. */
module LifecycleProgress {
  import opened Text
  import opened Commands
  import opened Context
  import opened Lifecycle
  import opened LifecycleInv
  import opened LifecycleSteps

  function AttemptsLeft(undo: Undo): nat {
    if undo.attempts <= MAX_ATTEMPTS then MAX_ATTEMPTS + 1 - undo.attempts else 0
  }

  /** How many more segments a task can possibly run. */
  function Rank(pc: Pc): nat {
    match pc
    case Done(_) => 0
    case Body(phase) =>
      (match phase
       case RecordingUnload => 1
       case RecordingFailure => 1
       case Fetching => 1
       case Removing(_, closing) => if closing then 2 else 3
       case RollingBack(undo, closing) => AttemptsLeft(undo) + (if closing then 2 else 12)
       case RollbackPending(undo) => 30 + (if undo.attempts <= 1 then 1 else 0)
       case Recording(_, _) => 32
       case Retiring(_, _, closing) => if closing then 33 else 34
       case Preparing(_, _) => 35
       case BuildingContext(_) => 36
       case LoadingModule(_) => 37)
    case WaitLock => 38
    case WaitOp => 39
  }

  predicate IsTaskStep(step: Step) {
    step.TakeOp? || step.TakeLock? || step.GiveUp? || step.Advance?
  }

  predicate By(step: Step, t: nat) {
    IsTaskStep(step) && step.task == t
  }

  /** The rest of the state moves on, but no other task does, and `t` gets closer to its end. */
  predicate Closer(s: State, s': State, t: nat) {
    && t in s.tasks && s'.tasks.Keys == s.tasks.Keys
    && (forall u :: u in s.tasks && u != t ==> s'.tasks[u] == s.tasks[u])
    && s'.tasks[t].op == s.tasks[t].op && s'.tasks[t].child == s.tasks[t].child
    && Rank(s'.tasks[t].pc) < Rank(s.tasks[t].pc)
  }

  lemma SuspendCloser(s: State, s1: State, t: nat, phase: Phase)
    requires t in s.tasks && s1.tasks == s.tasks && Rank(Body(phase)) < Rank(s.tasks[t].pc)
    ensures Closer(s, Suspend(s1, t, phase), t)
  {}

  lemma LeaveCloser(s: State, s1: State, t: nat, ending: Ending)
    requires t in s.tasks && s1.tasks == s.tasks && !s.tasks[t].pc.Done?
    ensures Closer(s, Leave(s1, t, ending), t)
  {}

  lemma FinishUndoCloser(s: State, t: nat, undo: Undo, refuses: set<Handler>)
    requires t in s.tasks && (undo.prev.Some? ==> undo.prev.value in s.ctxs)
    requires Rank(s.tasks[t].pc) > 1
    ensures Closer(s, FinishUndo(s, t, undo, refuses), t)
  {
    hide Activated, Deactivated, Closer;
    var s1 :=
      if undo.prev.Some? && undo.deactivated && !undo.restored && undo.prev.value in s.runtimes.Values
      then SwitchOn(s, undo.prev.value, refuses)
      else s;
    assert s1.tasks == s.tasks;
    LeaveCloser(s, s1, t, Cancelled);
    SuspendCloser(s, s1, t, RecordingFailure);
  }

  lemma SwapCloser(s: State, t: nat, prev: Option<nat>, ctx: nat, refuses: set<Handler>)
    requires t in s.tasks && s.tasks[t].op.Load? && s.tasks[t].pc == Body(Preparing(prev, ctx))
    requires ctx in s.ctxs && (prev.Some? ==> prev.value in s.ctxs)
    ensures Closer(s, Swap(s, t, prev, ctx, refuses), t)
  {
    hide Activated, Deactivated, Closer, Accepts;
    var s1 := if prev.Some? then SwitchOff(s, prev.value) else s;
    var s2 := SwitchOn(s1, ctx, refuses);
    if Accepts(s1, ctx, refuses) {
      match prev
      case None => SuspendCloser(s, Publish(s2, t, ctx), t, Recording(None, ctx));
      case Some(p) => SuspendCloser(s, s2, t, Retiring(p, ctx, s2.ctxs[p].stopped));
    } else {
      match prev
      case None => SuspendCloser(s, s2, t, RollbackPending(Undo(None, Some(ctx), false, false, false, 1)));
      case Some(p) =>
        SuspendCloser(s, SwitchOn(s2, p, refuses), t,
                      RollbackPending(Undo(prev, Some(ctx), true, Accepts(s2, p, refuses), false, 1)));
    }
  }

  lemma RollbackCloser(s: State, t: nat, outcome: Outcome, refuses: set<Handler>)
    requires Enabled(s, Advance(t, outcome, refuses))
    requires s.tasks[t].pc.phase.RollbackPending? || s.tasks[t].pc.phase.RollingBack?
    ensures Closer(s, Next(s, Advance(t, outcome, refuses)), t)
  {
    hide Activated, Deactivated, Closer, FinishUndo;
    match s.tasks[t].pc.phase
    case RollbackPending(undo) =>
      if !outcome.Goes? {
        SuspendCloser(s, s, t, RollbackPending(undo.(attempts := undo.attempts + 1)));
      } else if undo.ctx.None? {
        FinishUndoCloser(s, t, undo, refuses);
      } else {
        var s1 := SwitchOff(s, undo.ctx.value);
        SuspendCloser(s, s1, t, RollingBack(undo, s1.ctxs[undo.ctx.value].stopped));
      }
    case RollingBack(undo, closing) =>
      LeaveCloser(s, s, t, Cancelled);
      if outcome.IsCancelled? {
        if undo.attempts + 1 <= MAX_ATTEMPTS {
          SuspendCloser(s, s, t, RollingBack(undo.(attempts := undo.attempts + 1), closing));
        }
      } else if outcome.Goes? {
        if !closing {
          SuspendCloser(s, MarkStopped(s, undo.ctx.value), t, RollingBack(undo, true));
        } else {
          FinishUndoCloser(s, t, undo, refuses);
        }
      }
  }

  lemma LoadCloser(s: State, t: nat, outcome: Outcome, refuses: set<Handler>)
    requires Enabled(s, Advance(t, outcome, refuses)) && Forward(s.tasks[t].pc.phase)
    ensures Closer(s, Next(s, Advance(t, outcome, refuses)), t)
  {
    hide Activated, Deactivated, Closer, Swap, Suspend, Leave;
    var fail := outcome.IsCancelled?;
    match s.tasks[t].pc.phase
    case LoadingModule(prev) =>
      SuspendCloser(s, s, t, BuildingContext(prev));
      SuspendCloser(s, s, t, RollbackPending(Undo(prev, None, false, false, fail, 1)));
    case BuildingContext(prev) =>
      SuspendCloser(s, s.(ctxs := s.ctxs[s.nextCtx := NewCtx(s.nextCtx, s.tasks[t].op.name)], nextCtx := s.nextCtx + 1),
                    t, Preparing(prev, s.nextCtx));
      SuspendCloser(s, s, t, RollbackPending(Undo(prev, None, false, false, fail, 1)));
    case Preparing(prev, ctx) =>
      SwapCloser(s, t, prev, ctx, refuses);
      SuspendCloser(s, s, t, RollbackPending(Undo(prev, Some(ctx), false, false, fail, 1)));
    case Retiring(outgoing, ctx, closing) =>
      SuspendCloser(s, s, t, RollbackPending(Undo(Some(outgoing), Some(ctx), true, false, true, 1)));
      if !closing { SuspendCloser(s, MarkStopped(s, outgoing), t, Retiring(outgoing, ctx, true)); }
      SuspendCloser(s, Publish(s, t, ctx), t, Recording(Some(outgoing), ctx));
    case Recording(prev, ctx) =>
      LeaveCloser(s, s, t, Loaded);
      SuspendCloser(s, s, t, RollbackPending(Undo(prev, Some(ctx), prev.Some?, false, fail, 1)));
  }

  lemma EndCloser(s: State, t: nat, outcome: Outcome, refuses: set<Handler>)
    requires Enabled(s, Advance(t, outcome, refuses)) && !Forward(s.tasks[t].pc.phase)
    requires !s.tasks[t].pc.phase.RollbackPending? && !s.tasks[t].pc.phase.RollingBack?
    ensures Closer(s, Next(s, Advance(t, outcome, refuses)), t)
  {
    hide Closer, Suspend, Leave;
    match s.tasks[t].pc.phase
    case Removing(ctx, closing) =>
      LeaveCloser(s, s, t, Cancelled);
      if !closing { SuspendCloser(s, MarkStopped(s, ctx), t, Removing(ctx, true)); }
      SuspendCloser(s, s, t, RecordingUnload);
    case RecordingFailure => LeaveCloser(s, s, t, EndingOf(outcome, Failed));
    case RecordingUnload => LeaveCloser(s, s, t, EndingOf(outcome, Unloaded));
    case Fetching => LeaveCloser(s, s, t, EndingOf(outcome, Fetched));
  }

  lemma EnterCloser(s: State, t: nat)
    requires Enabled(s, TakeLock(t))
    ensures Closer(s, Enter(s, t), t)
  {
    hide Deactivated;
    match s.tasks[t].op
    case Load(name, force, _) =>
      LeaveCloser(s, s, t, Failed);
      LeaveCloser(s, s, t, Existing);
      SuspendCloser(s, s.(generation := s.generation + 1), t, LoadingModule(Lookup(s.runtimes, name)));
    case Unload(name) =>
      LeaveCloser(s, s, t, Unloaded);
      if name in s.runtimes {
        var c := s.runtimes[name];
        var s1 := SwitchOff(s.(runtimes := s.runtimes - {name}), c);
        SuspendCloser(s, s1, t, Removing(c, s1.ctxs[c].stopped));
      }
    case Fetch => SuspendCloser(s, s, t, Fetching);
  }

  /** Every step a task takes, whatever its outcome, brings it closer to its end. */
  lemma StepIsCloser(s: State, step: Step, t: nat)
    requires Enabled(s, step) && By(step, t)
    ensures Closer(s, Next(s, step), t)
  {
    hide Closer, Resume, Enter, EnterOp, StopWaiting;
    match step
    case Advance(_, outcome, refuses) =>
      if s.tasks[t].pc.phase.RollbackPending? || s.tasks[t].pc.phase.RollingBack? {
        RollbackCloser(s, t, outcome, refuses);
      } else if Forward(s.tasks[t].pc.phase) {
        LoadCloser(s, t, outcome, refuses);
      } else {
        EndCloser(s, t, outcome, refuses);
      }
    case TakeLock(_) => EnterCloser(s, t);
    case TakeOp(_) => EnterOpCloser(s, t);
    case GiveUp(_) => StopWaitingCloser(s, t);
  }

  lemma EnterOpCloser(s: State, t: nat)
    requires t in s.tasks && s.tasks[t].pc.WaitOp? && s.tasks[t].op.TakesOp()
    ensures Closer(s, EnterOp(s, t), t)
  {}

  lemma StopWaitingCloser(s: State, t: nat)
    requires t in s.tasks && (s.tasks[t].pc.WaitOp? || s.tasks[t].pc.WaitLock?)
    ensures Closer(s, StopWaiting(s, t), t)
  {}

  // ---------------------------------------------------------------- no livelock

  ghost function TotalRank(tasks: map<nat, Task>): nat
    decreases |tasks|
  {
    if tasks == map[] then 0
    else
      var t :| t in tasks;
      Rank(tasks[t].pc) + TotalRank(tasks - {t})
  }

  lemma {:induction false} TotalRankAt(tasks: map<nat, Task>, t: nat)
    requires t in tasks
    ensures TotalRank(tasks) == Rank(tasks[t].pc) + TotalRank(tasks - {t})
    decreases |tasks|
  {
    var u :| u in tasks && TotalRank(tasks) == Rank(tasks[u].pc) + TotalRank(tasks - {u});
    if u != t {
      TotalRankAt(tasks - {u}, t);
      TotalRankAt(tasks - {t}, u);
      assert tasks - {u} - {t} == tasks - {t} - {u};
    }
  }

  lemma CloserLowersTotal(s: State, s': State, t: nat)
    requires Closer(s, s', t)
    ensures TotalRank(s'.tasks) < TotalRank(s.tasks)
  {
    TotalRankAt(s.tasks, t);
    TotalRankAt(s'.tasks, t);
    assert s.tasks - {t} == s'.tasks - {t};
  }

  ghost predicate OnlyTaskSteps(run: seq<Step>) {
    forall i :: 0 <= i < |run| ==> IsTaskStep(run[i])
  }

  /** No livelock: however tasks are scheduled, cancelled or failed, they take a bounded number of steps. */
  lemma {:induction false} TaskStepsAreBounded(s: State, run: seq<Step>)
    requires Exec(s, run).Some? && OnlyTaskSteps(run)
    ensures |run| <= TotalRank(s.tasks)
    decreases |run|
  {
    if run != [] {
      assert IsTaskStep(run[0]);
      StepIsCloser(s, run[0], run[0].task);
      CloserLowersTotal(s, Next(s, run[0]), run[0].task);
      hide Next, Enabled, Closer;
      TaskStepsAreBounded(Next(s, run[0]), run[1..]);
    }
  }

  // ---------------------------------------------------------------- no deadlock

  lemma HolderCanAdvance(s: State, t: nat)
    requires Inv(s) && s.lock == Some(t)
    ensures Enabled(s, Advance(t, Goes, {}))
  {
    assert PhaseOk(s, s.tasks[t].op, s.tasks[t].pc.phase);
    assert forall n :: n in s.runtimes ==> CtxOf(s, s.runtimes[n], n);
  }

  /** No deadlock: as long as some task is unfinished, some task can take a step other than giving up. */
  lemma SomeTaskCanMove(s: State, unfinished: nat) returns (step: Step, t: nat)
    requires Inv(s) && unfinished in s.tasks && !s.tasks[unfinished].pc.Done?
    ensures Enabled(s, step) && By(step, t) && !step.GiveUp?
  {
    if s.lock.Some? {
      HolderCanAdvance(s, s.lock.value);
      return Advance(s.lock.value, Goes, {}), s.lock.value;
    }
    assert forall n :: n in s.runtimes ==> CtxOf(s, s.runtimes[n], n);
    if s.tasks[unfinished].pc.WaitLock? { return TakeLock(unfinished), unfinished; }
    var name := s.tasks[unfinished].op.name;
    if name !in s.opLocks { return TakeOp(unfinished), unfinished; }
    var holder := s.opLocks[name];
    assert InOp(s.tasks[holder]);
    return TakeLock(holder), holder;
  }

  lemma OneTaskMoves(s: State, unfinished: nat) returns (step: Step, next: State)
    requires Inv(s) && unfinished in s.tasks && !s.tasks[unfinished].pc.Done?
    ensures IsTaskStep(step) && Leads(s, step, next) && Inv(next)
    ensures next.tasks.Keys == s.tasks.Keys && TotalRank(next.tasks) < TotalRank(s.tasks)
  {
    hide Inv, Next, Enabled;
    var t;
    step, t := SomeTaskCanMove(s, unfinished);
    next := Next(s, step);
    StepIsCloser(s, step, t);
    CloserLowersTotal(s, next, t);
    StepInv(s, step);
  }

  lemma ExecNothing(s: State)
    ensures Exec(s, []) == Some(s)
  {}

  /** From every reachable state the pending operations can all run to their end. */
  lemma {:induction false} EveryOperationCanFinish(s: State) returns (run: seq<Step>, s': State)
    requires Inv(s)
    ensures Exec(s, run) == Some(s') && OnlyTaskSteps(run)
    ensures s'.tasks.Keys == s.tasks.Keys && forall t :: t in s'.tasks ==> s'.tasks[t].pc.Done?
    decreases TotalRank(s.tasks)
  {
    hide Inv, Enabled, Next, Exec;
    if t :| t in s.tasks && !s.tasks[t].pc.Done? {
      var step, next := OneTaskMoves(s, t);
      var rest;
      rest, s' := EveryOperationCanFinish(next);
      ExecLink(s, step, next, rest, s');
      run := [step] + rest;
    } else {
      ExecNothing(s);
      run, s' := [], s;
    }
  }
}
