/**
 * The background tasks of a generation. Its task group is closed when its `shutdown` begins and never
 * opened again, so a generation that a rollback brings back can be live and unable to start tasks.
 */
module LifecycleTasks {
  import opened Text
  import opened Commands
  import opened Context
  import opened Lifecycle
  import opened LifecycleInv
  import opened LifecycleSteps
  import opened LifecycleProgress
  import opened LifecycleHolder
  import opened LifecycleRoutes

  /** `shutdown` closes the group of a context that has not stopped yet. */
  function Group(s: State, c: nat): set<nat>
    requires c in s.ctxs
  {
    if s.ctxs[c].stopped then {} else {c}
  }

  /**
   * What a segment of a load closes: the outgoing context's group past the exchange, the failed one's
   * in a rollback.
   */
  function SegmentCloses(s: State, phase: Phase, outcome: Outcome, refuses: set<Handler>): set<nat>
    requires PhaseCtxs(s, phase)
  {
    match phase
    case Preparing(prev, ctx) =>
      if outcome.Goes? && prev.Some? && Accepts(SwitchOff(s, prev.value), ctx, refuses) then Group(s, prev.value)
      else {}
    case RollbackPending(u) => if outcome.Goes? && u.ctx.Some? then Group(s, u.ctx.value) else {}
    case _ => {}
  }

  /** The groups one step closes. */
  function Closes(s: State, step: Step): set<nat>
    requires Enabled(s, step)
  {
    match step
    case TakeLock(t) =>
      var op := s.tasks[t].op;
      if op.Unload? && op.name in s.runtimes then Group(s, s.runtimes[op.name]) else {}
    case Advance(t, outcome, refuses) => SegmentCloses(s, s.tasks[t].pc.phase, outcome, refuses)
    case _ => {}
  }

  ghost function ClosedAfter(s: State, run: seq<Step>, closed: set<nat>): set<nat>
    requires Exec(s, run).Some?
    decreases |run|
  {
    if run == [] then closed else ClosedAfter(Next(s, run[0]), run[1..], closed + Closes(s, run[0]))
  }

  // ---------------------------------------------------------------- what a route says about the groups

  /** The shutdown of the old generation has not begun on this route. */
  predicate LeavesOpen(r: Route) {
    r.Ahead? || r.FailedEarly? || r.PutBack? || r.Refused? || (r.Reopened? && r.from.Refused?)
  }

  predicate Closing(r: Route) {
    r == CutShort(false) || r == Reopened(CutShort(false))
  }

  /** The context this load has made, as long as it is on its way up. */
  function Coming(pc: Pc): Option<nat> {
    match pc
    case Body(Preparing(_, c)) => Some(c)
    case Body(Retiring(_, c, _)) => Some(c)
    case Body(Recording(_, c)) => Some(c)
    case _ => None
  }

  ghost predicate Numbered(closed: set<nat>, next: nat) {
    forall c :: c in closed ==> c < next
  }

  /** `was` are the groups closed when the load began. */
  ghost predicate Groups(s: State, t: nat, prev: nat, was: set<nat>, closed: set<nat>, r: Route) {
    && t in s.tasks && s.tasks[t].op.Load? && Numbered(closed, s.nextCtx)
    && (LeavesOpen(r) ==> (prev in closed <==> prev in was))
    && (Closing(r) ==> prev in closed)
    && (r.Exchanged? && s.tasks[t].pc.Body? && s.tasks[t].pc.phase.Retiring? && !s.tasks[t].pc.phase.closing ==>
          prev in closed)
    && (Coming(s.tasks[t].pc).Some? ==> Coming(s.tasks[t].pc).value !in closed)
    && (r.Succeeded? ==> Lookup(s.runtimes, s.tasks[t].op.name).Some?
                         && Lookup(s.runtimes, s.tasks[t].op.name).value !in closed)
  }

  lemma StandsGroups(s: State, s': State, t: nat, prev: nat, was: set<nat>, closed: set<nat>, r: Route)
    requires Groups(s, t, prev, was, closed, r) && Stands(s, s', t)
    ensures Groups(s', t, prev, was, closed, r)
  {}

  /** Suspending somewhere else, with nothing newly closed. */
  lemma SuspendGroups(s: State, t: nat, phase: Phase, prev: nat, was: set<nat>, closed: set<nat>, r: Route)
    requires t in s.tasks && s.tasks[t].op.Load? && Numbered(closed, s.nextCtx) && !r.Succeeded?
    requires LeavesOpen(r) ==> (prev in closed <==> prev in was)
    requires Closing(r) || (r.Exchanged? && phase.Retiring? && !phase.closing) ==> prev in closed
    requires Coming(Body(phase)).Some? ==> Coming(Body(phase)).value !in closed
    ensures Groups(Suspend(s, t, phase), t, prev, was, closed, r)
  {}

  lemma LeaveGroups(s: State, t: nat, ending: Ending, prev: nat, was: set<nat>, closed: set<nat>, r: Route)
    requires t in s.tasks && s.tasks[t].op.Load? && Numbered(closed, s.nextCtx)
    requires LeavesOpen(r) ==> (prev in closed <==> prev in was)
    requires Closing(r) ==> prev in closed
    requires r.Succeeded? ==> Lookup(s.runtimes, s.tasks[t].op.name).Some?
                              && Lookup(s.runtimes, s.tasks[t].op.name).value !in closed
    ensures Groups(Leave(s, t, ending), t, prev, was, closed, r)
  {}

  lemma StillRunning(s: State, c: nat)
    requires c in s.ctxs
    ensures SwitchOff(s, c).ctxs[c].stopped == s.ctxs[c].stopped
  {}

  lemma AheadMeans(s: State, t: nat, prev: nat, ctx: nat, was: set<nat>, closed: set<nat>)
    requires Groups(s, t, prev, was, closed, Ahead) && s.tasks[t].pc == Body(Preparing(Some(prev), ctx))
    ensures Numbered(closed, s.nextCtx) && ctx !in closed && (prev in closed <==> prev in was)
  {}

  lemma SwapGroups(s: State, t: nat, prev: nat, ctx: nat, refuses: set<Handler>, was: set<nat>, closed: set<nat>)
    requires t in s.tasks && s.tasks[t].op.Load? && prev in s.ctxs && ctx in s.ctxs && prev != ctx && prev < s.nextCtx
    requires s.tasks[t].pc == Body(Preparing(Some(prev), ctx)) && Groups(s, t, prev, was, closed, Ahead)
    ensures var more := closed + SegmentCloses(s, Preparing(Some(prev), ctx), Goes, refuses);
            Groups(Swap(s, t, Some(prev), ctx, refuses), t, prev, was, more, Exchange(s, Some(prev), ctx, refuses))
  {
    hide Activated, Deactivated, Groups, Suspend;
    StillRunning(s, prev);
    AheadMeans(s, t, prev, ctx, was, closed);
    var s1 := SwitchOff(s, prev);
    var s2 := SwitchOn(s1, ctx, refuses);
    if Accepts(s1, ctx, refuses) {
      SuspendGroups(s2, t, Retiring(prev, ctx, s2.ctxs[prev].stopped), prev, was, closed + Group(s, prev), Exchanged);
    } else {
      var back := Accepts(s2, prev, refuses);
      SuspendGroups(SwitchOn(s2, prev, refuses), t, RollbackPending(Undo(Some(prev), Some(ctx), true, back, false, 1)),
                    prev, was, closed + {}, if back then PutBack else Refused);
    }
  }

  lemma RetireGroups(s: State, t: nat, prev: nat, ctx: nat, closing: bool, outcome: Outcome,
                     was: set<nat>, closed: set<nat>)
    requires t in s.tasks && prev in s.ctxs && s.tasks[t].pc == Body(Retiring(prev, ctx, closing))
    requires Groups(s, t, prev, was, closed, Exchanged)
    ensures Groups(Retire(s, t, prev, ctx, closing, outcome), t, prev, was, closed,
                   if !outcome.Goes? then CutShort(closing) else if closing then Published else Exchanged)
  {
    hide Suspend;
    if !outcome.Goes? {
      SuspendGroups(s, t, RollbackPending(Undo(Some(prev), Some(ctx), true, false, true, 1)), prev, was, closed,
                    CutShort(closing));
    } else if !closing {
      SuspendGroups(MarkStopped(s, prev), t, Retiring(prev, ctx, true), prev, was, closed, Exchanged);
    } else {
      SuspendGroups(Publish(s, t, ctx), t, Recording(Some(prev), ctx), prev, was, closed, Published);
    }
  }

  lemma RecordGroups(s: State, t: nat, prev: nat, ctx: nat, outcome: Outcome, was: set<nat>, closed: set<nat>)
    requires t in s.tasks && s.tasks[t].pc == Body(Recording(Some(prev), ctx))
    requires Groups(s, t, prev, was, closed, Published) && Lookup(s.runtimes, s.tasks[t].op.name) == Some(ctx)
    ensures Groups(Record(s, t, Some(prev), ctx, outcome), t, prev, was, closed,
                   if outcome.Goes? then Succeeded else Unrecorded)
  {
    hide Suspend, Leave;
    LeaveGroups(s, t, Loaded, prev, was, closed, if outcome.Goes? then Succeeded else Unrecorded);
    SuspendGroups(s, t, RollbackPending(Undo(Some(prev), Some(ctx), true, false, outcome.IsCancelled?, 1)), prev, was,
                  closed, Unrecorded);
  }

  lemma FinishUndoGroups(s: State, t: nat, u: Undo, refuses: set<Handler>,
                         prev: nat, was: set<nat>, closed: set<nat>, r: Route)
    requires t in s.tasks && s.tasks[t].op.Load? && (u.prev.Some? ==> u.prev.value in s.ctxs) && Over(r)
    requires Numbered(closed, s.nextCtx) && (LeavesOpen(r) ==> (prev in closed <==> prev in was))
    requires Closing(r) ==> prev in closed
    ensures Groups(FinishUndo(s, t, u, refuses), t, prev, was, closed, r)
  {
    hide Activated, Groups, Suspend, Leave;
    var s1 := if Tries(s, u) then SwitchOn(s, u.prev.value, refuses) else s;
    LeaveGroups(s1, t, Cancelled, prev, was, closed, r);
    SuspendGroups(s1, t, RecordingFailure, prev, was, closed, r);
  }

  lemma StartUndoGroups(s: State, t: nat, u: Undo, outcome: Outcome, refuses: set<Handler>,
                        prev: nat, was: set<nat>, closed: set<nat>, r: Route)
    requires t in s.tasks && PhaseCtxs(s, RollbackPending(u)) && Undoing(r)
    requires s.tasks[t].pc == Body(RollbackPending(u)) && Groups(s, t, prev, was, closed, r)
    requires u.ctx.Some? ==> u.ctx.value != prev && u.ctx.value < s.nextCtx
    ensures Groups(StartUndo(s, t, u, outcome, refuses), t, prev, was,
                   closed + SegmentCloses(s, RollbackPending(u), outcome, refuses), r)
  {
    assert Numbered(closed, s.nextCtx);
    hide Activated, Deactivated, Suspend, FinishUndo;
    var more := closed + SegmentCloses(s, RollbackPending(u), outcome, refuses);
    if !outcome.Goes? {
      SuspendGroups(s, t, RollbackPending(u.(attempts := u.attempts + 1)), prev, was, more, r);
    } else if u.ctx.None? {
      FinishUndoGroups(s, t, u, refuses, prev, was, more, r);
    } else {
      var s1 := SwitchOff(s, u.ctx.value);
      SuspendGroups(s1, t, RollingBack(u, s1.ctxs[u.ctx.value].stopped), prev, was, more, r);
    }
  }

  lemma ContinueUndoGroups(s: State, t: nat, u: Undo, closing: bool, outcome: Outcome, refuses: set<Handler>,
                           prev: nat, was: set<nat>, closed: set<nat>, r: Route)
    requires t in s.tasks && PhaseCtxs(s, RollingBack(u, closing)) && Undoing(r)
    requires s.tasks[t].pc == Body(RollingBack(u, closing)) && Groups(s, t, prev, was, closed, r)
    ensures Groups(ContinueUndo(s, t, u, closing, outcome, refuses), t, prev, was, closed,
                   if outcome.Goes? && closing && Reopens(s, u, refuses) then Reopened(r) else r)
  {
    if outcome.Goes? && closing {
      FinishUndoGroups(s, t, u, refuses, prev, was, closed, r);
      FinishUndoGroups(s, t, u, refuses, prev, was, closed, Reopened(r));
      hide Groups, FinishUndo, Reopens;
    } else {
      StillUndoingGroups(s, t, u, closing, prev, was, closed, r);
      hide Groups, Suspend, Leave, MarkStopped;
    }
  }

  lemma StillUndoingGroups(s: State, t: nat, u: Undo, closing: bool,
                           prev: nat, was: set<nat>, closed: set<nat>, r: Route)
    requires t in s.tasks && PhaseCtxs(s, RollingBack(u, closing)) && Undoing(r)
    requires s.tasks[t].pc == Body(RollingBack(u, closing)) && Groups(s, t, prev, was, closed, r)
    ensures Groups(Absorb(s, t, u, closing), t, prev, was, closed, r)
    ensures Groups(Leave(s, t, Cancelled), t, prev, was, closed, r)
    ensures Groups(Suspend(MarkStopped(s, u.ctx.value), t, RollingBack(u, true)), t, prev, was, closed, r)
  {
    assert Numbered(closed, s.nextCtx);
    hide Suspend, Leave, Numbered;
    LeaveGroups(s, t, Cancelled, prev, was, closed, r);
    SuspendGroups(s, t, RollingBack(u.(attempts := u.attempts + 1), closing), prev, was, closed, r);
    SuspendGroups(MarkStopped(s, u.ctx.value), t, RollingBack(u, true), prev, was, closed, r);
  }

  lemma EarlyGroups(s: State, t: nat, phase: Phase, outcome: Outcome, refuses: set<Handler>,
                    prev: nat, was: set<nat>, closed: set<nat>)
    requires t in s.tasks && s.tasks[t].op.Load? && s.tasks[t].pc == Body(phase) && PhaseCtxs(s, phase)
    requires phase == LoadingModule(Some(prev)) || phase == BuildingContext(Some(prev))
             || (phase.Preparing? && phase.prev == Some(prev) && !outcome.Goes?)
    requires Possible(phase, outcome) && Groups(s, t, prev, was, closed, Ahead)
    ensures Groups(Resume(s, t, phase, outcome, refuses), t, prev, was, closed,
                   OwnTurn(s, Ahead, phase, outcome, refuses))
  {}

  // ---------------------------------------------------------------- whole loads

  lemma ForwardGroups(s: State, t: nat, phase: Phase, outcome: Outcome, refuses: set<Handler>,
                      prev: nat, live: bool, known: set<nat>, was: set<nat>, closed: set<nat>, r: Route)
    requires Along(s, t, Some(prev), live, known, r) && s.tasks[t].pc == Body(phase) && PhaseCtxs(s, phase)
    requires Forward(phase) && Possible(phase, outcome) && PhaseOk(s, s.tasks[t].op, phase) && prev < s.nextCtx
    requires Groups(s, t, prev, was, closed, r)
    ensures Groups(Resume(s, t, phase, outcome, refuses), t, prev, was,
                   closed + SegmentCloses(s, phase, outcome, refuses), OwnTurn(s, r, phase, outcome, refuses))
  {
    AlongIs(s, t, Some(prev), live, known, r);
    assert closed + {} == closed;
    hide Along, Stage, Groups, Swap, Retire, Record, FailEarly, Build, Suspend, Exchange, Accepts, SwitchOff;
    match phase
    case LoadingModule(_) => EarlyGroups(s, t, phase, outcome, refuses, prev, was, closed);
    case BuildingContext(_) => EarlyGroups(s, t, phase, outcome, refuses, prev, was, closed);
    case Preparing(_, ctx) =>
      if outcome.Goes? { SwapGroups(s, t, prev, ctx, refuses, was, closed); }
      else { EarlyGroups(s, t, phase, outcome, refuses, prev, was, closed); }
    case Retiring(_, ctx, closing) => RetireGroups(s, t, prev, ctx, closing, outcome, was, closed);
    case Recording(_, ctx) => RecordGroups(s, t, prev, ctx, outcome, was, closed);
  }

  lemma BackwardGroups(s: State, t: nat, phase: Phase, outcome: Outcome, refuses: set<Handler>,
                       prev: nat, live: bool, known: set<nat>, was: set<nat>, closed: set<nat>, r: Route)
    requires Along(s, t, Some(prev), live, known, r) && s.tasks[t].pc == Body(phase) && PhaseCtxs(s, phase)
    requires !Forward(phase) && Possible(phase, outcome) && (IsLoadPhase(phase) ==> s.tasks[t].op.Load?)
    requires forall c :: c in s.ctxs ==> c < s.nextCtx
    requires Groups(s, t, prev, was, closed, r)
    ensures Groups(Resume(s, t, phase, outcome, refuses), t, prev, was,
                   closed + SegmentCloses(s, phase, outcome, refuses), OwnTurn(s, r, phase, outcome, refuses))
  {
    AlongIs(s, t, Some(prev), live, known, r);
    assert closed + {} == closed;
    if phase.RecordingFailure? { LeaveGroups(s, t, EndingOf(outcome, Failed), prev, was, closed, r); }
    hide Along, Stage, Groups, StartUndo, ContinueUndo, Leave, Reopens;
    match phase
    case RollbackPending(u) => StartUndoGroups(s, t, u, outcome, refuses, prev, was, closed, r);
    case RollingBack(u, closing) => ContinueUndoGroups(s, t, u, closing, outcome, refuses, prev, was, closed, r);
    case RecordingFailure =>
  }

  lemma TurnGroups(s: State, step: Step, t: nat, prev: nat, live: bool, known: set<nat>,
                   was: set<nat>, closed: set<nat>, r: Route)
    requires Inv(s) && s.lock == Some(t) && Enabled(s, step) && Along(s, t, Some(prev), live, known, r)
    requires prev in s.ctxs && Groups(s, t, prev, was, closed, r)
    ensures Groups(Next(s, step), t, prev, was, closed + Closes(s, step), Turn(s, r, step, t))
  {
    if IsStepOf(step, t) {
      OwnGroups(s, t, step.outcome, step.refuses, prev, live, known, was, closed, r);
    } else {
      NobodyElseInside(s, step, t);
      OthersStand(s, step, t);
      assert closed + Closes(s, step) == closed;
      hide Inv, Next, Along, Enabled, Stands, Groups;
      StandsGroups(s, Next(s, step), t, prev, was, closed, r);
    }
  }

  lemma OwnGroups(s: State, t: nat, outcome: Outcome, refuses: set<Handler>, prev: nat, live: bool, known: set<nat>,
                  was: set<nat>, closed: set<nat>, r: Route)
    requires Inv(s) && Enabled(s, Advance(t, outcome, refuses)) && Along(s, t, Some(prev), live, known, r)
    requires prev in s.ctxs && Groups(s, t, prev, was, closed, r)
    ensures var step := Advance(t, outcome, refuses);
            Groups(Next(s, step), t, prev, was, closed + Closes(s, step), Turn(s, r, step, t))
  {
    var phase := s.tasks[t].pc.phase;
    assert s.lock == Some(t) && forall c :: c in s.ctxs ==> c < s.nextCtx;
    HolderPhase(s);
    hide Inv, Held, RuntimesOk, PhaseOk, Along, Groups, Resume, OwnTurn, SegmentCloses;
    if Forward(phase) {
      ForwardGroups(s, t, phase, outcome, refuses, prev, live, known, was, closed, r);
    } else {
      BackwardGroups(s, t, phase, outcome, refuses, prev, live, known, was, closed, r);
    }
  }

  lemma PrevIsThere(s: State, t: nat, prev: nat, live: bool, known: set<nat>, r: Route)
    requires Inv(s) && s.lock == Some(t) && Along(s, t, Some(prev), live, known, r)
    ensures prev in s.ctxs
  {
    AlongIs(s, t, Some(prev), live, known, r);
    hide Inv, Along, UndoFits;
  }

  lemma {:induction false} RunGroups(s: State, run: seq<Step>, t: nat, prev: nat, live: bool, known: set<nat>,
                                     was: set<nat>, closed: set<nat>, r: Route)
    requires Inv(s) && Until(s, run, t) && Along(s, t, Some(prev), live, known, r)
    requires Groups(s, t, prev, was, closed, r) && Exec(s, run).Some?
    ensures Groups(Exec(s, run).value, t, prev, was, ClosedAfter(s, run, closed), RouteOf(s, run, t, r))
    decreases |run|
  {
    hide Inv, Next, Enabled, Along, Turn, Groups, Closes;
    BodyHoldsLock(s, t);
    OneTurn(s, run[0], t, prev, live, known, was, closed, r);
    var s1, more := Next(s, run[0]), closed + Closes(s, run[0]);
    assert ClosedAfter(s, run, closed) == ClosedAfter(s1, run[1..], more);
    if |run| == 1 {
      assert run[1..] == [] && Exec(s1, []) == Some(s1);
      assert ClosedAfter(s1, [], more) == more;
    } else {
      RunGroups(s1, run[1..], t, prev, live, known, was, more, Turn(s, r, run[0], t));
    }
  }

  lemma BodyHoldsLock(s: State, t: nat)
    requires Inv(s) && t in s.tasks && s.tasks[t].pc.Body?
    ensures s.lock == Some(t)
  {}

  lemma OneTurn(s: State, step: Step, t: nat, prev: nat, live: bool, known: set<nat>,
                was: set<nat>, closed: set<nat>, r: Route)
    requires Inv(s) && s.lock == Some(t) && Enabled(s, step) && Along(s, t, Some(prev), live, known, r)
    requires Groups(s, t, prev, was, closed, r)
    ensures Inv(Next(s, step)) && Along(Next(s, step), t, Some(prev), live, known, Turn(s, r, step, t))
    ensures Groups(Next(s, step), t, prev, was, closed + Closes(s, step), Turn(s, r, step, t))
  {
    hide Inv, Next, Enabled, Along, Turn, Groups, Closes;
    PrevIsThere(s, t, prev, live, known, r);
    StepInv(s, step);
    TurnAlong(s, step, t, Some(prev), live, known, r);
    TurnGroups(s, step, t, prev, live, known, was, closed, r);
  }

  /**
   * Of what a reload leaves live, the new generation can start tasks, and the old one can exactly if
   * its group was open before and its shutdown had not begun: brought back after a cancellation that
   * cut that shutdown short, it is live and every task it starts is refused.
   */
  lemma TasksAfterReload(s: State, run: seq<Step>, t: nat, prev: nat, closed: set<nat>)
    requires Inv(s) && Starting(s, t, Some(prev)) && Until(s, run, t) && Numbered(closed, s.nextCtx)
    ensures Exec(s, run).Some?
    ensures var end, r, name := Exec(s, run).value, RouteOf(s, run, t, Ahead), s.tasks[t].op.name;
            && name in end.runtimes && end.runtimes[name] in end.ctxs
            && (end.ctxs[end.runtimes[name]].active ==>
                  (end.runtimes[name] !in ClosedAfter(s, run, closed)
                   <==> r.Succeeded? || (prev !in closed && !(r.Reopened? && r.from.CutShort?))))
  {
    hide Inv, Until, RouteOf, Along, Exec, ClosedAfter;
    StartsAhead(s, t, Some(prev));
    var live, known := s.ctxs[prev].active, s.ctxs.Keys;
    assert Groups(s, t, prev, closed, closed, Ahead);
    LiveAfterReload(s, run, t, prev);
    RunAlong(s, run, t, Some(prev), live, known, Ahead);
    RunGroups(s, run, t, prev, live, known, closed, closed, Ahead);
  }
}
