/**
 * Which way a load went decides what is live when it is over. Of every run of a load, with whatever
 * else happens meanwhile, its route says exactly whether the context published under its name is
 * switched on at its end, and which context that is.
 */
module LifecycleRoutes {
  import opened Text
  import opened Commands
  import opened Context
  import opened Lifecycle
  import opened LifecycleInv
  import opened LifecycleSteps
  import opened LifecycleSafety
  import opened LifecycleProgress
  import opened LifecycleHolder

  datatype Route =
    | Ahead                     // not at the exchange yet
    | FailedEarly               // failed before the exchange
    | PutBack                   // the exchange failed, and the old generation was accepted again at once
    | Refused                   // the exchange failed, and nothing was put back
    | Exchanged                 // the new generation is up, the old one is being stopped
    | CutShort(stopped: bool)   // cancelled there, before or after the old one was marked stopped
    | Published                 // the new generation is published, recording is under way
    | Succeeded
    | Unrecorded                // recording failed
    | Reopened(from: Route)     // the end of the rollback brought the old generation back

  /** The last segment of this rollback finds the old generation still published, and the tables take it again. */
  predicate Reopens(s: State, u: Undo, refuses: set<Handler>)
    requires u.prev.Some? ==> u.prev.value in s.ctxs
  {
    Tries(s, u) && Accepts(s, u.prev.value, refuses)
  }

  predicate Tries(s: State, u: Undo) {
    u.prev.Some? && u.deactivated && !u.restored && u.prev.value in s.runtimes.Values
  }

  /** How the exchange goes. */
  function Exchange(s: State, prev: Option<nat>, ctx: nat, refuses: set<Handler>): Route
    requires ctx in s.ctxs && (prev.Some? ==> prev.value in s.ctxs)
  {
    var s1 := if prev.Some? then SwitchOff(s, prev.value) else s;
    if Accepts(s1, ctx, refuses) then if prev.Some? then Exchanged else Published
    else if prev.Some? && Accepts(SwitchOn(s1, ctx, refuses), prev.value, refuses) then PutBack
    else Refused
  }

  function OwnTurn(s: State, r: Route, phase: Phase, outcome: Outcome, refuses: set<Handler>): Route
    requires PhaseCtxs(s, phase)
  {
    match phase
    case LoadingModule(_) => if outcome.Goes? then r else FailedEarly
    case BuildingContext(_) => if outcome.Goes? then r else FailedEarly
    case Preparing(prev, ctx) => if outcome.Goes? then Exchange(s, prev, ctx, refuses) else FailedEarly
    case Retiring(_, _, closing) => if !outcome.Goes? then CutShort(closing) else if closing then Published else r
    case Recording(_, _) => if outcome.Goes? then Succeeded else Unrecorded
    case RollingBack(u, closing) => if outcome.Goes? && closing && Reopens(s, u, refuses) then Reopened(r) else r
    case _ => r
  }

  function Turn(s: State, r: Route, step: Step, t: nat): Route
    requires Enabled(s, step)
  {
    if IsStepOf(step, t) then OwnTurn(s, r, s.tasks[t].pc.phase, step.outcome, step.refuses) else r
  }

  /** The route of `t` through a run, from where it is. */
  ghost function RouteOf(s: State, run: seq<Step>, t: nat, r: Route): Route
    requires Until(s, run, t)
    decreases |run|
  {
    var r' := Turn(s, r, run[0], t);
    if |run| == 1 then r' else RouteOf(Next(s, run[0]), run[1..], t, r')
  }

  // ---------------------------------------------------------------- what a route says

  predicate UndoFits(u: Undo, r: Route, prev: Option<nat>, known: set<nat>) {
    && u.prev == prev && (u.ctx.Some? ==> u.ctx.value !in known)
    && match r
       case FailedEarly => !u.deactivated
       case PutBack => u.restored
       case Refused => !u.restored && u.deactivated == prev.Some?
       case CutShort(_) => !u.restored && u.deactivated == prev.Some?
       case Unrecorded => u.ctx.Some?
       case _ => false
  }

  /** Where the task can be on this route. `known` are the contexts there were before the load. */
  predicate PcFits(pc: Pc, r: Route, prev: Option<nat>, known: set<nat>) {
    match pc
    case Body(LoadingModule(q)) => r.Ahead? && q == prev
    case Body(BuildingContext(q)) => r.Ahead? && q == prev
    case Body(Preparing(q, c)) => r.Ahead? && q == prev && c !in known
    case Body(Retiring(p, c, _)) => r.Exchanged? && prev == Some(p) && c !in known
    case Body(Recording(q, c)) => r.Published? && q == prev && c !in known
    case Body(RollbackPending(u)) => UndoFits(u, r, prev, known)
    case Body(RollingBack(u, _)) => UndoFits(u, r, prev, known)
    case Body(RecordingFailure) => Over(r)
    case Done(ending) => if ending.Loaded? then r.Succeeded? else Over(r)
    case _ => false
  }

  predicate Over(r: Route) {
    r.FailedEarly? || r.PutBack? || r.Refused? || r.CutShort? || r.Unrecorded? || r.Reopened?
  }

  /** The previous generation is still the published one. */
  predicate StillOld(s: State, name: string, prev: Option<nat>, known: set<nat>) {
    && Lookup(s.runtimes, name) == prev && known <= s.ctxs.Keys && (prev.Some? ==> prev.value in known)
  }

  predicate OldIs(s: State, prev: Option<nat>, on: bool) {
    prev.Some? ==> prev.value in s.ctxs && s.ctxs[prev.value].active == on
  }

  /** A context made by this load is published. */
  predicate NewIs(s: State, name: string, known: set<nat>) {
    name in s.runtimes && s.runtimes[name] in s.ctxs && s.runtimes[name] !in known && known <= s.ctxs.Keys
  }

  /** What is published under the name, and whether it is on; `live` says whether the previous generation was. */
  predicate Stage(s: State, name: string, prev: Option<nat>, live: bool, known: set<nat>, r: Route, pc: Pc) {
    match r
    case Ahead => StillOld(s, name, prev, known) && OldIs(s, prev, live)
    case FailedEarly => StillOld(s, name, prev, known) && OldIs(s, prev, live)
    case PutBack => prev.Some? && StillOld(s, name, prev, known) && OldIs(s, prev, true)
    case Refused => StillOld(s, name, prev, known) && OldIs(s, prev, false)
    case Exchanged => prev.Some? && StillOld(s, name, prev, known) && OldIs(s, prev, false)
    case CutShort(stopped) =>
      && prev.Some? && StillOld(s, name, prev, known) && OldIs(s, prev, false)
      && (stopped ==> s.ctxs[prev.value].stopped)
    case Published => NewIs(s, name, known) && (pc.Body? && pc.phase.Recording? ==> pc.phase.ctx == s.runtimes[name])
    case Succeeded => NewIs(s, name, known) && s.ctxs[s.runtimes[name]].active
    case Unrecorded =>
      && NewIs(s, name, known)
      && (if pc.Body? && pc.phase.RollbackPending? then pc.phase.undo.ctx == Some(s.runtimes[name])
          else !s.ctxs[s.runtimes[name]].active)
    case Reopened(from) =>
      && prev.Some? && StillOld(s, name, prev, known) && OldIs(s, prev, true)
      && (from.Refused? || from == CutShort(false))
  }

  ghost predicate Along(s: State, t: nat, prev: Option<nat>, live: bool, known: set<nat>, r: Route) {
    && t in s.tasks && s.tasks[t].op.Load? && (prev.Some? ==> prev.value in known)
    && PcFits(s.tasks[t].pc, r, prev, known)
    && Stage(s, s.tasks[t].op.name, prev, live, known, r, s.tasks[t].pc)
  }

  lemma StandsAlong(s: State, s': State, t: nat, prev: Option<nat>, live: bool, known: set<nat>, r: Route)
    requires Along(s, t, prev, live, known, r) && Stands(s, s', t)
    ensures Along(s', t, prev, live, known, r)
  {}

  // ---------------------------------------------------------------- one segment at a time

  /** Suspending in the next phase, after a change of the contexts only. */
  lemma SuspendAlong(s: State, t: nat, phase: Phase, prev: Option<nat>, live: bool, known: set<nat>, r: Route)
    requires prev.Some? ==> prev.value in known
    requires t in s.tasks && s.tasks[t].op.Load? && PcFits(Body(phase), r, prev, known)
    requires Stage(s, s.tasks[t].op.name, prev, live, known, r, Body(phase))
    ensures Along(Suspend(s, t, phase), t, prev, live, known, r)
  {}

  lemma LeaveAlong(s: State, t: nat, ending: Ending, prev: Option<nat>, live: bool, known: set<nat>, r: Route)
    requires prev.Some? ==> prev.value in known
    requires t in s.tasks && s.tasks[t].op.Load? && PcFits(Done(ending), r, prev, known)
    requires Stage(s, s.tasks[t].op.name, prev, live, known, r, Done(ending))
    ensures Along(Leave(s, t, ending), t, prev, live, known, r)
  {}

  lemma FailEarlyAlong(s: State, t: nat, prev: Option<nat>, ctx: Option<nat>, outcome: Outcome, live: bool,
      known: set<nat>)
    requires Along(s, t, prev, live, known, Ahead) && (ctx.Some? ==> ctx.value !in known)
    ensures Along(FailEarly(s, t, prev, ctx, outcome), t, prev, live, known, FailedEarly)
  {
    hide Suspend;
    SuspendAlong(s, t, RollbackPending(Undo(prev, ctx, false, false, outcome.IsCancelled?, 1)), prev, live, known,
        FailedEarly);
  }

  lemma BuildAlong(s: State, t: nat, prev: Option<nat>, live: bool, known: set<nat>)
    requires Along(s, t, prev, live, known, Ahead) && s.nextCtx !in s.ctxs
    ensures Along(Build(s, t, prev), t, prev, live, known, Ahead)
  {}

  /** What the exchange does to the switches, told by its route. */
  lemma SwapAlong(s: State, t: nat, prev: Option<nat>, ctx: nat, refuses: set<Handler>, live: bool, known: set<nat>)
    requires Held(s, t) && RuntimesOk(s, None) && PhaseOk(s, s.tasks[t].op, Preparing(prev, ctx))
    requires Along(s, t, prev, live, known, Ahead) && ctx !in known && prev != Some(ctx)
    requires PrevOf(s, prev, s.tasks[t].op.name)
    ensures Along(Swap(s, t, prev, ctx, refuses), t, prev, live, known, Exchange(s, prev, ctx, refuses))
  {
    FirstHalf(s, t, prev, ctx);
    hide Along;
    AlongIs(s, t, prev, live, known, Ahead);
    var s1 := if prev.Some? then SwitchOff(s, prev.value) else s;
    assert StillOld(s, s.tasks[t].op.name, prev, known);
    hide Held, RuntimesOk, PhaseOk, SwitchOff, SwitchOn, Accepts, Suspend;
    SwitchOnHeld(s1, t, ctx, refuses);
    var s2 := SwitchOn(s1, ctx, refuses);
    if Accepts(s1, ctx, refuses) {
      if prev.None? {
        SuspendAlong(Publish(s2, t, ctx), t, Recording(None, ctx), prev, live, known, Published);
      } else {
        SuspendAlong(s2, t, Retiring(prev.value, ctx, s2.ctxs[prev.value].stopped), prev, live, known, Exchanged);
      }
    } else if prev.None? {
      SuspendAlong(s2, t, RollbackPending(Undo(None, Some(ctx), false, false, false, 1)), prev, live, known, Refused);
    } else {
      PutBackAlong(s2, t, prev.value, ctx, refuses, live, known);
    }
  }

  lemma PutBackAlong(s: State, t: nat, p: nat, ctx: nat, refuses: set<Handler>, live: bool, known: set<nat>)
    requires Held(s, t) && s.tasks[t].op.Load? && StillOld(s, s.tasks[t].op.name, Some(p), known) && ctx !in known
    requires s.ctxs[p].plugin == s.tasks[t].op.name && !s.ctxs[p].active
    requires forall d :: !LiveAs(s.ctxs, d, s.tasks[t].op.name)
    ensures var back := Accepts(s, p, refuses);
            Along(Suspend(SwitchOn(s, p, refuses), t, RollbackPending(Undo(Some(p), Some(ctx), true, back, false, 1))),
                  t, Some(p), live, known, if back then PutBack else Refused)
  {
    SwitchOnHeld(s, t, p, refuses);
    hide Held, SwitchOn, Accepts, Suspend, Along;
    var back := Accepts(s, p, refuses);
    SuspendAlong(SwitchOn(s, p, refuses), t, RollbackPending(Undo(Some(p), Some(ctx), true, back, false, 1)),
                 Some(p), live, known, if back then PutBack else Refused);
  }

  lemma RetireAlong(s: State, t: nat, p: nat, ctx: nat, closing: bool, outcome: Outcome, live: bool, known: set<nat>)
    requires t in s.tasks && PhaseOk(s, s.tasks[t].op, Retiring(p, ctx, closing))
             && s.tasks[t].pc == Body(Retiring(p, ctx, closing))
    requires Along(s, t, Some(p), live, known, Exchanged)
    ensures Along(Retire(s, t, p, ctx, closing, outcome), t, Some(p), live, known,
                  if !outcome.Goes? then CutShort(closing) else if closing then Published else Exchanged)
  {
    var prev := Some(p);
    assert StillOld(s, s.tasks[t].op.name, prev, known);
    hide Suspend, Along;
    if !outcome.Goes? {
      SuspendAlong(s, t, RollbackPending(Undo(prev, Some(ctx), true, false, true, 1)), prev, live, known,
          CutShort(closing));
    } else if !closing {
      SuspendAlong(MarkStopped(s, p), t, Retiring(p, ctx, true), prev, live, known, Exchanged);
    } else {
      SuspendAlong(Publish(s, t, ctx), t, Recording(prev, ctx), prev, live, known, Published);
    }
  }

  lemma RecordAlong(s: State, t: nat, prev: Option<nat>, ctx: nat, outcome: Outcome, live: bool, known: set<nat>)
    requires t in s.tasks && PhaseOk(s, s.tasks[t].op, Recording(prev, ctx))
             && s.tasks[t].pc == Body(Recording(prev, ctx))
    requires Along(s, t, prev, live, known, Published)
    ensures Along(Record(s, t, prev, ctx, outcome), t, prev, live, known,
                  if outcome.Goes? then Succeeded else Unrecorded)
  {
    hide Suspend, Leave;
    if outcome.Goes? {
      LeaveAlong(s, t, Loaded, prev, live, known, Succeeded);
    } else {
      SuspendAlong(s, t, RollbackPending(Undo(prev, Some(ctx), prev.Some?, false, outcome.IsCancelled?, 1)),
                   prev, live, known, Unrecorded);
    }
  }

  predicate Undoing(r: Route) {
    r.FailedEarly? || r.PutBack? || r.Refused? || r.CutShort? || r.Unrecorded?
  }

  /** Switching the failed context off does not touch the old generation, and silences an unrecorded new one. */
  lemma StartUndoAlong(s: State, t: nat, u: Undo, outcome: Outcome, refuses: set<Handler>,
                       prev: Option<nat>, live: bool, known: set<nat>, r: Route)
    requires Held(s, t) && s.tasks[t].pc == Body(RollbackPending(u)) && PhaseOk(s, s.tasks[t].op, RollbackPending(u))
    requires Along(s, t, prev, live, known, r)
    ensures Along(StartUndo(s, t, u, outcome, refuses), t, prev, live, known, r)
  {
    assert Undoing(r) && UndoFits(u, r, prev, known);
    hide Along;
    if !outcome.Goes? {
      assert Stage(s, s.tasks[t].op.name, prev, live, known, r, s.tasks[t].pc)
        by { AlongIs(s, t, prev, live, known, r); }
      SuspendAlong(s, t, RollbackPending(u.(attempts := u.attempts + 1)), prev, live, known, r);
    } else if u.ctx.None? {
      NothingToFinish(s, t, u, refuses, prev, live, known, r);
    } else {
      SwitchOffHeld(s, t, u.ctx.value);
      AlongIs(s, t, prev, live, known, r);
      hide Held, PhaseOk, SwitchOff, Suspend;
      var s1 := SwitchOff(s, u.ctx.value);
      SuspendAlong(s1, t, RollingBack(u, s1.ctxs[u.ctx.value].stopped), prev, live, known, r);
    }
  }

  lemma AlongIs(s: State, t: nat, prev: Option<nat>, live: bool, known: set<nat>, r: Route)
    requires Along(s, t, prev, live, known, r)
    ensures t in s.tasks && s.tasks[t].op.Load? && PcFits(s.tasks[t].pc, r, prev, known)
    ensures prev.Some? ==> prev.value in known
    ensures Stage(s, s.tasks[t].op.name, prev, live, known, r, s.tasks[t].pc)
  {}

  /** A rollback without a context had not deactivated anything, so its end puts nothing back. */
  lemma NothingToFinish(s: State, t: nat, u: Undo, refuses: set<Handler>, prev: Option<nat>, live: bool,
      known: set<nat>, r: Route)
    requires t in s.tasks && s.tasks[t].pc == Body(RollbackPending(u)) && PhaseOk(s, s.tasks[t].op, RollbackPending(u))
    requires Along(s, t, prev, live, known, r) && u.ctx.None? && (u.prev.Some? ==> u.prev.value in s.ctxs)
    ensures Along(FinishUndo(s, t, u, refuses), t, prev, live, known, r)
  {
    assert !Tries(s, u) && !r.Unrecorded?;
    FinishUndoAlong(s, s, t, u, refuses, prev, live, known, r, r);
  }

  /** The last segment of a rollback, once it is known what it leaves on. */
  lemma FinishUndoAlong(s: State, s1: State, t: nat, u: Undo, refuses: set<Handler>,
                        prev: Option<nat>, live: bool, known: set<nat>, r: Route, r': Route)
    requires t in s.tasks && s.tasks[t].op.Load? && (u.prev.Some? ==> u.prev.value in s.ctxs)
    requires s1 == (if Tries(s, u) then SwitchOn(s, u.prev.value, refuses) else s)
    requires s1.tasks == s.tasks && Over(r') && (prev.Some? ==> prev.value in known)
    requires Stage(s1, s.tasks[t].op.name, prev, live, known, r', Body(RecordingFailure))
    ensures Along(FinishUndo(s, t, u, refuses), t, prev, live, known, r')
  {
    hide SwitchOn, Suspend, Leave, Along;
    if u.cancelled || u.attempts > 1 {
      assert Stage(s1, s.tasks[t].op.name, prev, live, known, r', Done(Cancelled));
      LeaveAlong(s1, t, Cancelled, prev, live, known, r');
    } else {
      SuspendAlong(s1, t, RecordingFailure, prev, live, known, r');
    }
  }

  /** Putting the old generation back at the end of a rollback: the tables take it, or nothing changes. */
  lemma TrySwitches(s: State, t: nat, p: nat, name: string, refuses: set<Handler>)
    requires Held(s, t) && RuntimesOk(s, None) && CtxOf(s, p, name)
    requires Lookup(s.runtimes, name) == Some(p)
    ensures var s1 := SwitchOn(s, p, refuses);
            && s1.tasks == s.tasks && s1.runtimes == s.runtimes && s1.ctxs.Keys == s.ctxs.Keys
            && (Accepts(s, p, refuses) ==> s1.ctxs[p].active) && (!Accepts(s, p, refuses) ==> s1 == s)
  {
    forall d | LiveAs(s.ctxs, d, name) ensures d == p { OnlyPublishedLive(s, name, d); }
    SwitchOnHeld(s, t, p, refuses);
    hide Held, RuntimesOk, SwitchOn, Accepts;
  }

  lemma TriedStage(s: State, s1: State, name: string, prev: Option<nat>, live: bool, known: set<nat>, r: Route,
      pc: Pc, back: bool)
    requires Stage(s, name, prev, live, known, r, pc) && (r.Refused? || r.CutShort?) && prev.Some?
    requires s1.runtimes == s.runtimes && s1.ctxs.Keys == s.ctxs.Keys
    requires if back then s1.ctxs[prev.value].active && !(r.CutShort? && r.stopped) else s1 == s
    ensures Stage(s1, name, prev, live, known, if back then Reopened(r) else r, Body(RecordingFailure))
  {}

  lemma TryStage(s: State, t: nat, u: Undo, refuses: set<Handler>,
                 prev: Option<nat>, live: bool, known: set<nat>, r: Route, pc: Pc)
    requires Held(s, t) && RuntimesOk(s, None) && s.tasks[t].op.Load?
    requires u.prev.Some? ==> CtxOf(s, u.prev.value, s.tasks[t].op.name)
    requires u.prev == prev && Tries(s, u) && (r.Refused? || r.CutShort?)
    requires Stage(s, s.tasks[t].op.name, prev, live, known, r, pc)
    ensures var s1 := SwitchOn(s, u.prev.value, refuses);
            && s1.tasks == s.tasks
            && Stage(s1, s.tasks[t].op.name, prev, live, known,
                     if Accepts(s, u.prev.value, refuses) then Reopened(r) else r, Body(RecordingFailure))
  {
    var p, name := u.prev.value, s.tasks[t].op.name;
    assert StillOld(s, name, prev, known) && (r.CutShort? && r.stopped ==> s.ctxs[p].stopped);
    if s.ctxs[p].stopped { StoppedIsRefused(s, p, refuses); }
    TrySwitches(s, t, p, name, refuses);
    hide Held, RuntimesOk, SwitchOn, Accepts, Stage;
    TriedStage(s, SwitchOn(s, p, refuses), name, prev, live, known, r, pc, Accepts(s, p, refuses));
  }

  /** The end of a rollback brings the old generation back exactly if it tries and the tables take it. */
  lemma ReopenAlong(s: State, t: nat, u: Undo, refuses: set<Handler>,
                    prev: Option<nat>, live: bool, known: set<nat>, r: Route)
    requires Held(s, t) && RuntimesOk(s, None) && PhaseOk(s, s.tasks[t].op, RollingBack(u, true))
    requires s.tasks[t].pc == Body(RollingBack(u, true)) && Along(s, t, prev, live, known, r)
    ensures u.prev.Some? ==> u.prev.value in s.ctxs
    ensures Along(FinishUndo(s, t, u, refuses), t, prev, live, known, if Reopens(s, u, refuses) then Reopened(r) else r)
  {
    AlongIs(s, t, prev, live, known, r);
    assert (u.prev.Some? ==> CtxOf(s, u.prev.value, s.tasks[t].op.name)) && Undoing(r) && u.prev == prev;
    assert r.FailedEarly? || r.PutBack? ==> !Tries(s, u);
    if r.Unrecorded? { UnrecordedTriesNothing(s, t, u, known); }
    hide Held, RuntimesOk, PhaseOk, SwitchOn, Accepts, Along, Stage;
    if Tries(s, u) {
      TryStage(s, t, u, refuses, prev, live, known, r, s.tasks[t].pc);
    } else {
      SameStage(s, s.tasks[t].op.name, prev, live, known, r, s.tasks[t].pc);
    }
    var s1 := if Tries(s, u) then SwitchOn(s, u.prev.value, refuses) else s;
    FinishUndoAlong(s, s1, t, u, refuses, prev, live, known, r, if Reopens(s, u, refuses) then Reopened(r) else r);
  }

  lemma SameStage(s: State, name: string, prev: Option<nat>, live: bool, known: set<nat>, r: Route, pc: Pc)
    requires Stage(s, name, prev, live, known, r, pc) && Undoing(r) && pc.Body? && pc.phase.RollingBack?
    ensures Stage(s, name, prev, live, known, r, Body(RecordingFailure))
  {}

  lemma StoppedIsRefused(s: State, p: nat, refuses: set<Handler>)
    requires p in s.ctxs && s.ctxs[p].stopped
    ensures !Accepts(s, p, refuses)
  {}

  /** Once the new generation is published, the old one is published nowhere. */
  lemma UnrecordedTriesNothing(s: State, t: nat, u: Undo, known: set<nat>)
    requires Held(s, t) && RuntimesOk(s, None) && PhaseOk(s, s.tasks[t].op, RollingBack(u, true))
    requires NewIs(s, s.tasks[t].op.name, known) && (u.prev.Some? ==> u.prev.value in known)
    ensures !Tries(s, u)
  {
    var name := s.tasks[t].op.name;
    if u.prev.Some? {
      forall n | n in s.runtimes ensures s.runtimes[n] != u.prev.value { assert CtxOf(s, s.runtimes[n], n); }
    }
  }

  lemma ContinueUndoAlong(s: State, t: nat, u: Undo, closing: bool, outcome: Outcome, refuses: set<Handler>,
                          prev: Option<nat>, live: bool, known: set<nat>, r: Route)
    requires PhaseCtxs(s, RollingBack(u, closing))
    requires Held(s, t) && RuntimesOk(s, None) && PhaseOk(s, s.tasks[t].op, RollingBack(u, closing))
    requires s.tasks[t].pc == Body(RollingBack(u, closing)) && Along(s, t, prev, live, known, r)
    ensures Along(ContinueUndo(s, t, u, closing, outcome, refuses), t, prev, live, known,
                  if outcome.Goes? && closing && Reopens(s, u, refuses) then Reopened(r) else r)
  {
    assert t in s.tasks && u.ctx.Some?;
    hide Held, RuntimesOk, PhaseOk, Along, FinishUndo, Absorb, Leave, Suspend, Reopens;
    if outcome.Goes? && closing {
      ReopenAlong(s, t, u, refuses, prev, live, known, r);
    } else {
      AbsorbAlong(s, t, u, closing, outcome, prev, live, known, r);
    }
  }

  lemma AbsorbAlong(s: State, t: nat, u: Undo, closing: bool, outcome: Outcome,
                    prev: Option<nat>, live: bool, known: set<nat>, r: Route)
    requires t in s.tasks && u.ctx.Some? && u.ctx.value in s.ctxs
    requires s.tasks[t].pc == Body(RollingBack(u, closing)) && Along(s, t, prev, live, known, r)
    ensures Along(Absorb(s, t, u, closing), t, prev, live, known, r)
    ensures Along(Leave(s, t, Cancelled), t, prev, live, known, r)
    ensures Along(Suspend(MarkStopped(s, u.ctx.value), t, RollingBack(u, true)), t, prev, live, known, r)
  {
    hide Along, Stage, Suspend, Leave;
    AlongIs(s, t, prev, live, known, r);
    assert Undoing(r) && UndoFits(u, r, prev, known);
    assert UndoFits(u.(attempts := u.attempts + 1), r, prev, known);
    StageElsewhere(s, u, s.tasks[t].op.name, prev, live, known, r, closing);
    hide MarkStopped, UndoFits;
    LeaveAlong(s, t, Cancelled, prev, live, known, r);
    SuspendAlong(s, t, RollingBack(u.(attempts := u.attempts + 1), closing), prev, live, known, r);
    SuspendAlong(MarkStopped(s, u.ctx.value), t, RollingBack(u, true), prev, live, known, r);
  }

  /** Absorbing a cancellation, giving up, or stopping the failed context leaves what the route says. */
  lemma StageElsewhere(s: State, u: Undo, name: string, prev: Option<nat>, live: bool, known: set<nat>, r: Route,
      closing: bool)
    requires Stage(s, name, prev, live, known, r, Body(RollingBack(u, closing))) && Undoing(r)
    requires u.ctx.Some? && u.ctx.value in s.ctxs && u.ctx.value !in known
    ensures forall v, b :: Stage(s, name, prev, live, known, r, Body(RollingBack(v, b)))
    ensures Stage(s, name, prev, live, known, r, Done(Cancelled))
    ensures Stage(MarkStopped(s, u.ctx.value), name, prev, live, known, r, Body(RollingBack(u, true)))
    ensures MarkStopped(s, u.ctx.value).tasks == s.tasks
  {}

  lemma ForwardAlong(s: State, t: nat, phase: Phase, outcome: Outcome, refuses: set<Handler>,
                     prev: Option<nat>, live: bool, known: set<nat>, r: Route)
    requires Held(s, t) && s.nextCtx !in s.ctxs && RuntimesOk(s, IncomingOf(phase)) && PhaseOk(s, s.tasks[t].op, phase)
    requires s.tasks[t].pc == Body(phase) && Forward(phase) && PhaseCtxs(s, phase) && Possible(phase, outcome)
    requires Along(s, t, prev, live, known, r)
    ensures Along(Resume(s, t, phase, outcome, refuses), t, prev, live, known, OwnTurn(s, r, phase, outcome, refuses))
  {
    AlongIs(s, t, prev, live, known, r);
    if phase.Preparing? {
      PreparedAlong(s, t, prev, phase.ctx, outcome, refuses, live, known);
      hide Held, RuntimesOk, PhaseOk, Along, Stage, Swap, FailEarly, Exchange;
    } else {
      hide Held, RuntimesOk, Along, Stage, Build, Retire, Record, FailEarly, Suspend;
      match phase
      case LoadingModule(q) =>
        ToBuildingAlong(s, t, prev, live, known);
        FailEarlyAlong(s, t, prev, None, outcome, live, known);
      case BuildingContext(q) =>
        BuildAlong(s, t, prev, live, known);
        FailEarlyAlong(s, t, prev, None, outcome, live, known);
      case Retiring(p, ctx, closing) => RetireAlong(s, t, p, ctx, closing, outcome, live, known);
      case Recording(q, ctx) => RecordAlong(s, t, prev, ctx, outcome, live, known);
    }
  }

  lemma PreparedAlong(s: State, t: nat, prev: Option<nat>, ctx: nat, outcome: Outcome, refuses: set<Handler>,
                      live: bool, known: set<nat>)
    requires Held(s, t) && RuntimesOk(s, None) && PhaseOk(s, s.tasks[t].op, Preparing(prev, ctx))
    requires s.tasks[t].pc == Body(Preparing(prev, ctx)) && PhaseCtxs(s, Preparing(prev, ctx))
    requires Along(s, t, prev, live, known, Ahead)
    ensures outcome.Goes? ==>
        Along(Swap(s, t, prev, ctx, refuses), t, prev, live, known, Exchange(s, prev, ctx, refuses))
    ensures !outcome.Goes? ==> Along(FailEarly(s, t, prev, Some(ctx), outcome), t, prev, live, known, FailedEarly)
  {
    PrevIsCtx(s, s.tasks[t].op.name);
    AlongIs(s, t, prev, live, known, Ahead);
    hide Held, RuntimesOk, Along, Stage, Swap, FailEarly, Exchange;
    if outcome.Goes? {
      SwapAlong(s, t, prev, ctx, refuses, live, known);
    } else {
      FailEarlyAlong(s, t, prev, Some(ctx), outcome, live, known);
    }
  }

  lemma ToBuildingAlong(s: State, t: nat, prev: Option<nat>, live: bool, known: set<nat>)
    requires Along(s, t, prev, live, known, Ahead)
    ensures Along(Suspend(s, t, BuildingContext(prev)), t, prev, live, known, Ahead)
  {
    hide Suspend;
    SuspendAlong(s, t, BuildingContext(prev), prev, live, known, Ahead);
  }

  lemma BackwardAlong(s: State, t: nat, phase: Phase, outcome: Outcome, refuses: set<Handler>,
                      prev: Option<nat>, live: bool, known: set<nat>, r: Route)
    requires Held(s, t) && RuntimesOk(s, IncomingOf(phase)) && PhaseOk(s, s.tasks[t].op, phase)
    requires s.tasks[t].pc == Body(phase) && !Forward(phase) && PhaseCtxs(s, phase) && Possible(phase, outcome)
    requires Along(s, t, prev, live, known, r)
    ensures IsLoadPhase(phase)
    ensures Along(Resume(s, t, phase, outcome, refuses), t, prev, live, known, OwnTurn(s, r, phase, outcome, refuses))
  {
    hide Held, RuntimesOk, PhaseOk, Along, Stage, UndoFits, Possible, StartUndo, ContinueUndo, Leave, Reopens;
    AlongIs(s, t, prev, live, known, r);
    if phase.RollbackPending? {
      StartUndoAlong(s, t, phase.undo, outcome, refuses, prev, live, known, r);
    } else if phase.RollingBack? {
      ContinueUndoAlong(s, t, phase.undo, phase.closing, outcome, refuses, prev, live, known, r);
    } else {
      FailureRecordedAlong(s, t, outcome, prev, live, known, r);
    }
  }

  lemma FailureRecordedAlong(s: State, t: nat, outcome: Outcome, prev: Option<nat>, live: bool, known: set<nat>,
      r: Route)
    requires t in s.tasks && s.tasks[t].pc == Body(RecordingFailure) && Along(s, t, prev, live, known, r)
    ensures Along(Leave(s, t, EndingOf(outcome, Failed)), t, prev, live, known, r)
  {
    AlongIs(s, t, prev, live, known, r);
    hide Leave, Along;
    LeaveAlong(s, t, EndingOf(outcome, Failed), prev, live, known, r);
  }

  lemma OwnAlong(s: State, t: nat, outcome: Outcome, refuses: set<Handler>, prev: Option<nat>, live: bool,
      known: set<nat>, r: Route)
    requires Inv(s) && Enabled(s, Advance(t, outcome, refuses)) && Along(s, t, prev, live, known, r)
    ensures var step := Advance(t, outcome, refuses);
            Along(Next(s, step), t, prev, live, known, Turn(s, r, step, t))
  {
    var phase := s.tasks[t].pc.phase;
    assert s.lock == Some(t) && s.nextCtx !in s.ctxs;
    HolderPhase(s);
    hide Inv, Held, RuntimesOk, PhaseOk, Along, Resume, OwnTurn;
    if Forward(phase) {
      ForwardAlong(s, t, phase, outcome, refuses, prev, live, known, r);
    } else {
      BackwardAlong(s, t, phase, outcome, refuses, prev, live, known, r);
    }
  }

  lemma TurnAlong(s: State, step: Step, t: nat, prev: Option<nat>, live: bool, known: set<nat>, r: Route)
    requires Inv(s) && s.lock == Some(t) && Enabled(s, step) && Along(s, t, prev, live, known, r)
    ensures Along(Next(s, step), t, prev, live, known, Turn(s, r, step, t))
  {
    if IsStepOf(step, t) {
      hide Inv, Next, Along, Turn, Enabled;
      OwnAlong(s, t, step.outcome, step.refuses, prev, live, known, r);
    } else {
      OthersStand(s, step, t);
      hide Inv, Next, Along, Enabled, Stands;
      StandsAlong(s, Next(s, step), t, prev, live, known, r);
    }
  }

  // ---------------------------------------------------------------- whole loads

  lemma SameOp(s: State, step: Step, t: nat)
    requires Inv(s) && s.lock == Some(t) && Enabled(s, step)
    ensures t in s.tasks && t in Next(s, step).tasks && Next(s, step).tasks[t].op == s.tasks[t].op
  {
    assert t in s.tasks;
    if IsStepOf(step, t) {
      StepIsCloser(s, step, t);
    } else {
      OthersStand(s, step, t);
    }
  }

  lemma {:induction false} RunAlong(s: State, run: seq<Step>, t: nat, prev: Option<nat>, live: bool,
      known: set<nat>, r: Route)
    requires Inv(s) && Until(s, run, t) && Along(s, t, prev, live, known, r)
    ensures Exec(s, run).Some?
    ensures var end := Exec(s, run).value;
            Inv(end) && Along(end, t, prev, live, known, RouteOf(s, run, t, r)) && end.tasks[t].pc.Done?
            && end.tasks[t].op == s.tasks[t].op
    decreases |run|
  {
    assert s.lock == Some(t);
    UntilRuns(s, run, t);
    StepInv(s, run[0]);
    TurnAlong(s, run[0], t, prev, live, known, r);
    SameOp(s, run[0], t);
    hide Inv, Next, Enabled, Along, Turn;
    var s1 := Next(s, run[0]);
    if |run| == 1 {
      assert run[1..] == [] && Exec(s1, []) == Some(s1);
    } else {
      RunAlong(s1, run[1..], t, prev, live, known, Turn(s, r, run[0], t));
    }
  }

  predicate Starting(s: State, t: nat, prev: Option<nat>) {
    t in s.tasks && s.tasks[t].pc == Body(LoadingModule(prev))
  }

  /** `prev` is the context published under the name when the load begins. */
  lemma StartsAhead(s: State, t: nat, prev: Option<nat>)
    requires Inv(s) && Starting(s, t, prev)
    ensures s.tasks[t].op.Load? && Lookup(s.runtimes, s.tasks[t].op.name) == prev
    ensures prev.Some? ==> prev.value in s.ctxs
    ensures forall live | live == (prev.Some? && s.ctxs[prev.value].active) ::
              Along(s, t, prev, live, s.ctxs.Keys, Ahead)
  {
    HolderPhase(s);
    assert prev.Some? ==> CtxOf(s, prev.value, s.tasks[t].op.name);
  }

  lemma ReloadOver(end: State, t: nat, prev: nat, live: bool, known: set<nat>, r: Route)
    requires Along(end, t, Some(prev), live, known, r) && end.tasks[t].pc.Done?
    ensures var name := end.tasks[t].op.name;
            && name in end.runtimes && end.runtimes[name] in end.ctxs
            && (end.ctxs[end.runtimes[name]].active <==>
                 r.Succeeded? || (r.FailedEarly? && live) || r.PutBack? || r.Reopened?)
            && (r.Succeeded? <==> end.tasks[t].pc == Done(Loaded))
            && (r.Reopened? ==> r.from.Refused? || r.from == CutShort(false))
            && (if r.Succeeded? || r.Unrecorded? then end.runtimes[name] !in known else end.runtimes[name] == prev)
  {
    AlongIs(end, t, Some(prev), live, known, r);
    assert r.Succeeded? || Over(r);
    hide Along, PcFits, UndoFits;
  }

  /**
   * A load over a published generation, with anything else going on meanwhile: the name is
   * published at its end, and what is published there is live if and only if the load succeeded,
   * failed before the exchange with the old one live, or the tables took the old one back.
   */
  lemma LiveAfterReload(s: State, run: seq<Step>, t: nat, prev: nat)
    requires Inv(s) && Starting(s, t, Some(prev)) && Until(s, run, t)
    ensures Exec(s, run).Some? && prev in s.ctxs
    ensures var end, r, name := Exec(s, run).value, RouteOf(s, run, t, Ahead), s.tasks[t].op.name;
            && name in end.runtimes && end.runtimes[name] in end.ctxs
            && (end.ctxs[end.runtimes[name]].active <==>
                 r.Succeeded? || (r.FailedEarly? && s.ctxs[prev].active) || r.PutBack? || r.Reopened?)
            && t in end.tasks && (r.Succeeded? <==> end.tasks[t].pc == Done(Loaded))
            && (r.Reopened? ==> r.from.Refused? || r.from == CutShort(false))
            && (if r.Succeeded? || r.Unrecorded? then end.runtimes[name] !in s.ctxs else end.runtimes[name] == prev)
  {
    StartsAhead(s, t, Some(prev));
    hide Inv, Until, RouteOf, Along, Exec;
    var live, known := s.ctxs[prev].active, s.ctxs.Keys;
    RunAlong(s, run, t, Some(prev), live, known, Ahead);
    ReloadOver(Exec(s, run).value, t, prev, live, known, RouteOf(s, run, t, Ahead));
  }

  /**
   * A first load publishes the name exactly if it came as far as recording, and leaves it live exactly
   * if it succeeded.
   */
  lemma LiveAfterFirstLoad(s: State, run: seq<Step>, t: nat)
    requires Inv(s) && Starting(s, t, None) && Until(s, run, t)
    ensures Exec(s, run).Some?
    ensures var end, r, name := Exec(s, run).value, RouteOf(s, run, t, Ahead), s.tasks[t].op.name;
            && (name in end.runtimes <==> r.Succeeded? || r.Unrecorded?)
            && (name in end.runtimes ==> end.runtimes[name] in end.ctxs && end.runtimes[name] !in s.ctxs)
            && (name in end.runtimes && end.ctxs[end.runtimes[name]].active <==> r.Succeeded?)
            && t in end.tasks && (r.Succeeded? <==> end.tasks[t].pc == Done(Loaded))
  {
    StartsAhead(s, t, None);
    hide Inv, Until, RouteOf, Along, Exec;
    RunAlong(s, run, t, None, false, s.ctxs.Keys, Ahead);
    AlongIs(Exec(s, run).value, t, None, false, s.ctxs.Keys, RouteOf(s, run, t, Ahead));
  }
}
