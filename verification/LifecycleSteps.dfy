/** Every segment of the lifecycle protocol keeps the invariant. */
module LifecycleSteps {
  import opened Text
  import opened Commands
  import opened Context
  import opened ContextLaws
  import opened Lifecycle
  import opened LifecycleInv

  /** `s` is `t`'s body in progress: the locks are in order and the tables are consistent. */
  ghost predicate Held(s: State, t: nat) {
    && LocksOk(s) && TablesOk(s.world, s.ctxs, s.nextCtx)
    && t in s.tasks && (s.lock == Some(t) || s.lock.None?)
    && (s.tasks[t].pc.WaitLock? || s.tasks[t].pc.Body?)
  }

  /** Only the two tables and the contexts differ. */
  predicate TouchesTables(s: State, s': State) {
    s' == s.(world := s'.world, ctxs := s'.ctxs) && s'.ctxs.Keys == s.ctxs.Keys
  }

  lemma SuspendInv(s: State, t: nat, phase: Phase)
    requires Held(s, t) && RuntimesOk(s, IncomingOf(phase)) && PhaseOk(s, s.tasks[t].op, phase)
    ensures Inv(Suspend(s, t, phase))
  {
    SuspendKeepsLocks(s, t, phase);
  }

  /** What the invariant says about the task inside the lock. */
  lemma HolderPhase(s: State)
    requires Inv(s) && s.lock.Some?
    ensures s.lock.value in s.tasks && s.tasks[s.lock.value].pc.Body? && Held(s, s.lock.value)
    ensures PhaseOk(s, s.tasks[s.lock.value].op, s.tasks[s.lock.value].pc.phase)
    ensures RuntimesOk(s, IncomingOf(s.tasks[s.lock.value].pc.phase))
  {
    hide TablesOk, OpsOk, NamesOk, PhaseOk, RuntimesOk;
  }

  lemma LeaveInv(s: State, t: nat, ending: Ending)
    requires Held(s, t) && RuntimesOk(s, None)
    ensures Inv(Leave(s, t, ending))
  {
    LeaveKeepsLocks(s, t, ending);
  }

  lemma SwitchOffHeld(s: State, t: nat, c: nat)
    requires Held(s, t) && c in s.ctxs
    ensures var s' := SwitchOff(s, c);
            && Held(s', t) && TouchesTables(s, s') && !s'.ctxs[c].active
            && s'.ctxs[c].plugin == s.ctxs[c].plugin
            && (forall d :: d in s.ctxs && d != c ==> s'.ctxs[d] == s.ctxs[d])
            && (!s.ctxs[c].active ==> s' == s)
  {
    SwitchOffKeepsTables(s.world, s.ctxs, s.nextCtx, c);
    hide TablesOk, HolderOk, OpsOk, NamesOk, CtxValid;
    assert s.ctxs[c := s.ctxs[c]] == s.ctxs;
  }

  /** Switching a context on is a matter of the tables and of that context. */
  lemma SwitchOnElsewhere(s: State, c: nat, refuses: set<Handler>)
    requires c in s.ctxs
    ensures var a, s' := Activated(s.world, s.ctxs[c], refuses), SwitchOn(s, c, refuses);
            && TouchesTables(s, s') && s'.world == a.world && s'.ctxs == s.ctxs[c := a.ctx]
            && Accepts(s, c, refuses) == a.ok
            && (a.world == s.world && a.ctx == s.ctxs[c] ==> s' == s)
  {
    hide Activated;
    assert s.ctxs[c := s.ctxs[c]] == s.ctxs;
  }

  lemma SwitchOnHeld(s: State, t: nat, c: nat, refuses: set<Handler>)
    requires Held(s, t) && c in s.ctxs
    requires forall d :: LiveAs(s.ctxs, d, s.ctxs[c].plugin) ==> d == c
    ensures var s' := SwitchOn(s, c, refuses);
            && Held(s', t) && TouchesTables(s, s')
            && s'.ctxs[c].plugin == s.ctxs[c].plugin
            && (forall d :: d in s.ctxs && d != c ==> s'.ctxs[d] == s.ctxs[d])
            && (Accepts(s, c, refuses) ==> s'.ctxs[c].active)
            && (!Accepts(s, c, refuses) ==> s' == s)
  {
    SwitchOnKeepsTables(s.world, s.ctxs, s.nextCtx, c, refuses);
    SwitchOnElsewhere(s, c, refuses);
    hide TablesOk, LocksOk, CtxValid, Activated, SwitchOn, LiveAs;
    LocksElsewhere(s, SwitchOn(s, c, refuses));
  }

  lemma MarkStoppedHeld(s: State, t: nat, c: nat)
    requires Held(s, t) && c in s.ctxs
    ensures var s' := MarkStopped(s, c);
            && Held(s', t) && TouchesTables(s, s')
            && s'.ctxs[c] == s.ctxs[c].(stopped := true)
            && (forall d :: d in s.ctxs && d != c ==> s'.ctxs[d] == s.ctxs[d])
  {
    StopKeepsTables(s.world, s.ctxs, s.nextCtx, c);
  }

  lemma EnterUnloadInv(s: State, t: nat, name: string)
    requires Held(s, t) && RuntimesOk(s, None) && s.tasks[t].op == Unload(name) && name in s.runtimes
    ensures Inv(StartUnload(s, t, name))
  {
    hide TablesOk, OpsOk, HolderOk, NamesOk, SwitchOff;
    var c := s.runtimes[name];
    var popped := s.(runtimes := s.runtimes - {name});
    SwitchOffHeld(popped, t, c);
    var s1 := SwitchOff(popped, c);
    SuspendInv(s1, t, Removing(c, s1.ctxs[c].stopped));
  }

  lemma EnterLoadInv(s: State, t: nat, name: string)
    requires Held(s, t) && RuntimesOk(s, None) && s.tasks[t].op.Load? && s.tasks[t].op.name == name
    ensures Inv(StartLoad(s, t, Lookup(s.runtimes, name)))
  {
    hide TablesOk, OpsOk, HolderOk, NamesOk;
    SuspendInv(s.(generation := s.generation + 1), t, LoadingModule(Lookup(s.runtimes, name)));
  }

  lemma EnterInv(s: State, t: nat)
    requires Inv(s) && t in s.tasks && s.tasks[t].pc.WaitLock? && s.lock.None?
    ensures Inv(Enter(s, t))
  {
    assert Held(s, t) && RuntimesOk(s, None);
    hide Inv, Held, RuntimesOk, LocksOk, TablesOk, Suspend, Leave, StartLoad, StartUnload;
    match s.tasks[t].op
    case Load(name, force, _) =>
      if s.shuttingDown { LeaveInv(s, t, Failed); }
      else if name in s.runtimes && !force { LeaveInv(s, t, Existing); }
      else { EnterLoadInv(s, t, name); }
    case Unload(name) =>
      if name in s.runtimes { EnterUnloadInv(s, t, name); } else { LeaveInv(s, t, Unloaded); }
    case Fetch => SuspendInv(s, t, Fetching);
  }

  /** Only the published context of a plugin can be live when no load of it is past the exchange. */
  lemma OnlyPublishedLive(s: State, plugin: string, c: nat)
    requires RuntimesOk(s, None) && LiveAs(s.ctxs, c, plugin)
    ensures Lookup(s.runtimes, plugin) == Some(c)
  {}

  /** Before the exchange nobody of this plugin is live once the published generation is off. */
  lemma FirstHalf(s: State, t: nat, prev: Option<nat>, ctx: nat)
    requires Held(s, t) && RuntimesOk(s, None)
    requires PhaseOk(s, s.tasks[t].op, Preparing(prev, ctx))
    ensures var s1 := if prev.Some? then SwitchOff(s, prev.value) else s;
            && Held(s1, t) && TouchesTables(s, s1) && RuntimesOk(s1, None)
                && PhaseOk(s1, s1.tasks[t].op, Preparing(prev, ctx))
            && PrevOf(s1, prev, s1.tasks[t].op.name)
            && (prev.Some? ==> !s1.ctxs[prev.value].active)
            && forall d :: !LiveAs(s1.ctxs, d, s.tasks[t].op.name)
  {
    hide TablesOk, OpsOk, HolderOk, NamesOk, SwitchOff, SwitchOn, Accepts, MarkStopped;
    var name := s.tasks[t].op.name;
    var s1 := if prev.Some? then SwitchOff(s, prev.value) else s;
    if prev.Some? { SwitchOffHeld(s, t, prev.value); }
    forall d ensures !LiveAs(s1.ctxs, d, name) {
      if LiveAs(s1.ctxs, d, name) { OnlyPublishedLive(s, name, d); }
    }
  }

  /** The new generation went live: it is published at once, or after the old one has stopped. */
  lemma SwapGoesInv(s: State, t: nat, prev: Option<nat>, ctx: nat)
    requires Held(s, t) && s.tasks[t].op.Load? && RuntimesOk(s, Some(ctx)) && CtxOf(s, ctx, s.tasks[t].op.name)
    requires s.ctxs[ctx].active
    requires Lookup(s.runtimes, s.tasks[t].op.name) == prev && prev != Some(ctx)
    requires PrevOf(s, prev, s.tasks[t].op.name) && (prev.Some? ==> !s.ctxs[prev.value].active)
    ensures prev.None? ==> Inv(Suspend(Publish(s, t, ctx), t, Recording(None, ctx)))
    ensures prev.Some? ==> Inv(Suspend(s, t, Retiring(prev.value, ctx, s.ctxs[prev.value].stopped)))
  {
    hide TablesOk, OpsOk, HolderOk, NamesOk, SwitchOff, SwitchOn, Accepts, MarkStopped;
    if prev.None? {
      SuspendInv(Publish(s, t, ctx), t, Recording(None, ctx));
    } else {
      SuspendInv(s, t, Retiring(prev.value, ctx, s.ctxs[prev.value].stopped));
    }
  }

  /** The new generation did not go live: the old one is put back if the tables allow it. */
  lemma SwapFailsInv(s: State, t: nat, prev: Option<nat>, ctx: nat, refuses: set<Handler>)
    requires Held(s, t) && RuntimesOk(s, None)
    requires PhaseOk(s, s.tasks[t].op, Preparing(prev, ctx)) && PrevOf(s, prev, s.tasks[t].op.name)
    requires forall d :: !LiveAs(s.ctxs, d, s.tasks[t].op.name)
    ensures prev.None? ==> Inv(Suspend(s, t, RollbackPending(Undo(None, Some(ctx), false, false, false, 1))))
    ensures prev.Some? ==> forall restored :: Inv(Suspend(SwitchOn(s, prev.value, refuses), t,
                             RollbackPending(Undo(prev, Some(ctx), true, restored, false, 1))))
  {
    hide TablesOk, OpsOk, HolderOk, NamesOk, SwitchOff, SwitchOn, Accepts, MarkStopped;
    if prev.None? {
      SuspendInv(s, t, RollbackPending(Undo(None, Some(ctx), false, false, false, 1)));
    } else {
      SwitchOnHeld(s, t, prev.value, refuses);
      var s1 := SwitchOn(s, prev.value, refuses);
      forall restored
        ensures Inv(Suspend(s1, t, RollbackPending(Undo(prev, Some(ctx), true, restored, false, 1))))
      {
        SuspendInv(s1, t, RollbackPending(Undo(prev, Some(ctx), true, restored, false, 1)));
      }
    }
  }

  lemma SwapInv(s: State, t: nat, prev: Option<nat>, ctx: nat, refuses: set<Handler>)
    requires Held(s, t) && s.lock == Some(t) && RuntimesOk(s, None)
    requires PhaseOk(s, s.tasks[t].op, Preparing(prev, ctx)) && PrevOf(s, prev, s.tasks[t].op.name)
    ensures Inv(Swap(s, t, prev, ctx, refuses))
  {
    hide TablesOk, OpsOk, HolderOk, NamesOk, SwitchOff, SwitchOn, Accepts, Suspend, Inv, Publish;
    FirstHalf(s, t, prev, ctx);
    var s1 := if prev.Some? then SwitchOff(s, prev.value) else s;
    SwitchOnHeld(s1, t, ctx, refuses);
    var s2 := SwitchOn(s1, ctx, refuses);
    if Accepts(s1, ctx, refuses) {
      SwapGoesInv(s2, t, prev, ctx);
    } else {
      SwapFailsInv(s2, t, prev, ctx, refuses);
    }
  }

  /** The state with one context more, nothing registered by it yet. */
  function Grown(s: State, plugin: string): State {
    s.(ctxs := s.ctxs[s.nextCtx := NewCtx(s.nextCtx, plugin)], nextCtx := s.nextCtx + 1)
  }

  lemma GrownIsHeld(s: State, t: nat)
    requires Held(s, t) && s.tasks[t].op.Load?
    ensures s.nextCtx !in s.ctxs && Held(Grown(s, s.tasks[t].op.name), t)
  {
    assert s.tasks[t].op.name != CORE && s.nextCtx !in s.ctxs;
    NewContextKeepsTables(s.world, s.ctxs, s.nextCtx, s.tasks[t].op.name);
    hide TablesOk, LocksOk;
    LocksElsewhere(s, Grown(s, s.tasks[t].op.name));
  }

  lemma GrownIsPlaced(s: State, op: Op, prev: Option<nat>)
    requires RuntimesOk(s, None) && s.nextCtx !in s.ctxs && PhaseOk(s, op, BuildingContext(prev))
    ensures RuntimesOk(Grown(s, op.name), None) && PhaseOk(Grown(s, op.name), op, Preparing(prev, s.nextCtx))
  {
    FreshIsUnpublished(s, Grown(s, op.name));
  }

  lemma BuildInv(s: State, t: nat, prev: Option<nat>)
    requires Held(s, t) && RuntimesOk(s, None)
    requires PhaseOk(s, s.tasks[t].op, BuildingContext(prev))
    ensures Inv(Build(s, t, prev))
  {
    GrownIsHeld(s, t);
    GrownIsPlaced(s, s.tasks[t].op, prev);
    hide Held, RuntimesOk, PhaseOk, Inv, Suspend;
    SuspendInv(Grown(s, s.tasks[t].op.name), t, Preparing(prev, s.nextCtx));
  }

  /** The locks do not depend on the tables or the contexts. */
  lemma LocksElsewhere(s: State, s': State)
    requires LocksOk(s) && s'.tasks == s.tasks && s'.lock == s.lock && s'.opLocks == s.opLocks
    requires s'.inflight == s.inflight && s'.idle == s.idle
    ensures LocksOk(s')
  {}

  lemma FreshIsUnpublished(s: State, s1: State)
    requires RuntimesOk(s, None) && s.nextCtx !in s.ctxs
    requires exists plugin :: s1.ctxs == s.ctxs[s.nextCtx := NewCtx(s.nextCtx, plugin)]
    requires s1.runtimes == s.runtimes
    ensures RuntimesOk(s1, None) && forall n :: n in s.runtimes ==> s.runtimes[n] != s.nextCtx
  {
    forall n | n in s.runtimes ensures CtxOf(s1, s1.runtimes[n], n) && s.runtimes[n] != s.nextCtx {
      assert CtxOf(s, s.runtimes[n], n);
    }
  }

  lemma RetireInv(s: State, t: nat, outgoing: nat, ctx: nat, closing: bool, outcome: Outcome)
    requires Held(s, t) && RuntimesOk(s, Some(ctx))
    requires PhaseOk(s, s.tasks[t].op, Retiring(outgoing, ctx, closing))
    ensures Inv(Retire(s, t, outgoing, ctx, closing, outcome))
  {
    hide TablesOk, OpsOk, HolderOk, NamesOk, SwitchOff, SwitchOn, Accepts, MarkStopped;
    if !outcome.Goes? {
      SuspendInv(s, t, RollbackPending(Undo(Some(outgoing), Some(ctx), true, false, true, 1)));
    } else if !closing {
      MarkStoppedHeld(s, t, outgoing);
      SuspendInv(MarkStopped(s, outgoing), t, Retiring(outgoing, ctx, true));
    } else {
      SuspendInv(Publish(s, t, ctx), t, Recording(Some(outgoing), ctx));
    }
  }

  lemma FinishUndoInv(s: State, t: nat, undo: Undo, refuses: set<Handler>)
    requires Held(s, t) && s.tasks[t].op.Load? && RuntimesOk(s, None) && PrevOf(s, undo.prev, s.tasks[t].op.name)
    ensures Inv(FinishUndo(s, t, undo, refuses))
  {
    hide TablesOk, OpsOk, HolderOk, NamesOk, SwitchOff, SwitchOn, Accepts, MarkStopped;
    var restores := undo.prev.Some? && undo.deactivated && !undo.restored && undo.prev.value in s.runtimes.Values;
    var s1 := if restores then SwitchOn(s, undo.prev.value, refuses) else s;
    if restores {
      var p := undo.prev.value;
      var n :| n in s.runtimes && s.runtimes[n] == p;
      assert CtxOf(s, p, n);
      forall d | LiveAs(s.ctxs, d, s.ctxs[p].plugin) ensures d == p { OnlyPublishedLive(s, s.ctxs[p].plugin, d); }
      SwitchOnHeld(s, t, p, refuses);
      assert RuntimesOk(s1, None);
    }
    if undo.cancelled || undo.attempts > 1 {
      LeaveInv(s1, t, Cancelled);
    } else {
      SuspendInv(s1, t, RecordingFailure);
    }
  }

  lemma StartUndoInv(s: State, t: nat, undo: Undo, outcome: Outcome, refuses: set<Handler>)
    requires Held(s, t) && RuntimesOk(s, undo.ctx)
    requires PhaseOk(s, s.tasks[t].op, RollbackPending(undo))
    ensures Inv(StartUndo(s, t, undo, outcome, refuses))
  {
    hide TablesOk, OpsOk, HolderOk, NamesOk, SwitchOff, SwitchOn, Accepts, MarkStopped;
    if !outcome.Goes? {
      SuspendInv(s, t, RollbackPending(undo.(attempts := undo.attempts + 1)));
    } else if undo.ctx.None? {
      FinishUndoInv(s, t, undo, refuses);
    } else {
      var c := undo.ctx.value;
      SwitchOffHeld(s, t, c);
      var s1 := SwitchOff(s, c);
      SuspendInv(s1, t, RollingBack(undo, s1.ctxs[c].stopped));
    }
  }

  lemma ContinueUndoInv(s: State, t: nat, undo: Undo, closing: bool, outcome: Outcome, refuses: set<Handler>)
    requires Held(s, t) && RuntimesOk(s, None)
    requires PhaseOk(s, s.tasks[t].op, RollingBack(undo, closing))
    ensures Inv(ContinueUndo(s, t, undo, closing, outcome, refuses))
  {
    hide TablesOk, OpsOk, HolderOk, NamesOk, SwitchOff, SwitchOn, Accepts, MarkStopped;
    if outcome.IsCancelled? {
      if undo.attempts + 1 > MAX_ATTEMPTS {
        LeaveInv(s, t, Cancelled);
      } else {
        SuspendInv(s, t, RollingBack(undo.(attempts := undo.attempts + 1), closing));
      }
    } else if !outcome.Goes? {
      LeaveInv(s, t, Cancelled);
    } else if !closing {
      MarkStoppedHeld(s, t, undo.ctx.value);
      SuspendInv(MarkStopped(s, undo.ctx.value), t, RollingBack(undo, true));
    } else {
      FinishUndoInv(s, t, undo, refuses);
    }
  }

  lemma RemoveInv(s: State, t: nat, ctx: nat, closing: bool, outcome: Outcome)
    requires Held(s, t) && RuntimesOk(s, None)
    requires PhaseOk(s, s.tasks[t].op, Removing(ctx, closing))
    ensures Inv(Remove(s, t, ctx, closing, outcome))
  {
    hide TablesOk, OpsOk, HolderOk, NamesOk, SwitchOff, SwitchOn, Accepts, MarkStopped;
    if !outcome.Goes? {
      LeaveInv(s, t, Cancelled);
    } else if !closing {
      MarkStoppedHeld(s, t, ctx);
      SuspendInv(MarkStopped(s, ctx), t, Removing(ctx, true));
    } else {
      SuspendInv(s, t, RecordingUnload);
    }
  }

  lemma FailEarlyInv(s: State, t: nat, prev: Option<nat>, ctx: Option<nat>, outcome: Outcome)
    requires Held(s, t) && RuntimesOk(s, None) && s.tasks[t].op.Load? && PrevOf(s, prev, s.tasks[t].op.name)
    requires Lookup(s.runtimes, s.tasks[t].op.name) == prev
    requires ctx.Some? ==> PhaseOk(s, s.tasks[t].op, Preparing(prev, ctx.value))
    ensures Inv(FailEarly(s, t, prev, ctx, outcome))
  {
    hide TablesOk, OpsOk, HolderOk, NamesOk, SwitchOff, SwitchOn, Accepts, MarkStopped;
    SuspendInv(s, t, RollbackPending(Undo(prev, ctx, false, false, outcome.IsCancelled?, 1)));
  }

  lemma RecordInv(s: State, t: nat, prev: Option<nat>, ctx: nat, outcome: Outcome)
    requires Held(s, t) && RuntimesOk(s, None)
    requires PhaseOk(s, s.tasks[t].op, Recording(prev, ctx))
    ensures Inv(Record(s, t, prev, ctx, outcome))
  {
    hide TablesOk, OpsOk, HolderOk, NamesOk, SwitchOff, SwitchOn, Accepts, MarkStopped;
    if outcome.Goes? {
      LeaveInv(s, t, Loaded);
    } else {
      SuspendInv(s, t, RollbackPending(Undo(prev, Some(ctx), prev.Some?, false, outcome.IsCancelled?, 1)));
    }
  }

  predicate Forward(phase: Phase) {
    phase.LoadingModule? || phase.BuildingContext? || phase.Preparing? || phase.Retiring? || phase.Recording?
  }

  lemma ForwardInv(s: State, t: nat, phase: Phase, outcome: Outcome, refuses: set<Handler>)
    requires t in s.tasks && Held(s, t) && s.lock == Some(t) && Forward(phase)
    requires RuntimesOk(s, IncomingOf(phase)) && PhaseOk(s, s.tasks[t].op, phase)
    requires PhaseCtxs(s, phase) && Possible(phase, outcome)
    ensures Inv(Resume(s, t, phase, outcome, refuses))
  {
    hide TablesOk, OpsOk, HolderOk, NamesOk, Possible, Inv, Held, RuntimesOk;
    hide Swap, Build, Retire, Record, StartUndo, ContinueUndo, Remove, FailEarly, Leave, Suspend;
    match phase
    case LoadingModule(prev) =>
      PrevIsCtx(s, s.tasks[t].op.name);
      if outcome.Goes? { ToBuilding(s, t, prev); } else { FailEarlyInv(s, t, prev, None, outcome); }
    case BuildingContext(prev) =>
      PrevIsCtx(s, s.tasks[t].op.name);
      if outcome.Goes? { BuildInv(s, t, prev); } else { FailEarlyInv(s, t, prev, None, outcome); }
    case Preparing(prev, ctx) =>
      PrevIsCtx(s, s.tasks[t].op.name);
      if outcome.Goes? { SwapInv(s, t, prev, ctx, refuses); } else { FailEarlyInv(s, t, prev, Some(ctx), outcome); }
    case Retiring(outgoing, ctx, closing) => RetireInv(s, t, outgoing, ctx, closing, outcome);
    case Recording(prev, ctx) => RecordInv(s, t, prev, ctx, outcome);
  }

  lemma ToBuilding(s: State, t: nat, prev: Option<nat>)
    requires Held(s, t) && RuntimesOk(s, None) && PhaseOk(s, s.tasks[t].op, LoadingModule(prev))
    ensures Inv(Suspend(s, t, BuildingContext(prev)))
  {
    SuspendInv(s, t, BuildingContext(prev));
  }

  lemma PrevIsCtx(s: State, name: string)
    requires RuntimesOk(s, None)
    ensures PrevOf(s, Lookup(s.runtimes, name), name)
  {}

  lemma BackwardInv(s: State, t: nat, phase: Phase, outcome: Outcome, refuses: set<Handler>)
    requires t in s.tasks && Held(s, t) && s.lock == Some(t) && !Forward(phase)
    requires RuntimesOk(s, IncomingOf(phase)) && PhaseOk(s, s.tasks[t].op, phase)
    requires PhaseCtxs(s, phase) && Possible(phase, outcome) && (IsLoadPhase(phase) ==> s.tasks[t].op.Load?)
    ensures Inv(Resume(s, t, phase, outcome, refuses))
  {
    hide TablesOk, OpsOk, HolderOk, NamesOk, Possible, Inv, Held, RuntimesOk;
    hide StartUndo, ContinueUndo, Remove, Leave, Suspend;
    match phase
    case RollbackPending(undo) => StartUndoInv(s, t, undo, outcome, refuses);
    case RollingBack(undo, closing) => ContinueUndoInv(s, t, undo, closing, outcome, refuses);
    case Removing(ctx, closing) => RemoveInv(s, t, ctx, closing, outcome);
    case RecordingFailure => LeaveInv(s, t, EndingOf(outcome, Failed));
    case RecordingUnload => LeaveInv(s, t, EndingOf(outcome, Unloaded));
    case Fetching => LeaveInv(s, t, EndingOf(outcome, Fetched));
  }

  lemma ResumeInv(s: State, t: nat, outcome: Outcome, refuses: set<Handler>)
    requires Inv(s) && Enabled(s, Advance(t, outcome, refuses))
    ensures Inv(Next(s, Advance(t, outcome, refuses)))
  {
    var phase := s.tasks[t].pc.phase;
    assert s.lock == Some(t) && Held(s, t) && RuntimesOk(s, IncomingOf(phase)) && PhaseOk(s, s.tasks[t].op, phase);
    hide TablesOk, OpsOk, HolderOk, NamesOk, Inv, Held, RuntimesOk, PhaseOk, Resume;
    if Forward(phase) {
      ForwardInv(s, t, phase, outcome, refuses);
    } else {
      BackwardInv(s, t, phase, outcome, refuses);
    }
  }

  lemma PluginCommandInv(s: State, c: nat, reg: CommandReg)
    requires Inv(s) && c in s.ctxs
    ensures Inv(RegisterCommand(s, c, reg))
  {
    if !s.ctxs[c].stopped {
      var a := CommandRegistered(s.world, s.ctxs[c], reg);
      CommandRegisteredIsValid(s.world, s.ctxs[c], reg);
      RegisteredInv(s, c, a.world, a.ctx);
    }
  }

  lemma PluginHandlerInv(s: State, c: nat, event: int, refuses: set<Handler>)
    requires Inv(s) && c in s.ctxs
    ensures Inv(RegisterHandler(s, c, event, refuses))
  {
    if !s.ctxs[c].stopped {
      var a := HandlerRegistered(s.world, s.ctxs[c], event, refuses);
      HandlerRegisteredIsValid(s.world, s.ctxs[c], event, refuses);
      RegisteredInv(s, c, a.world, a.ctx);
    }
  }

  lemma RegisteredInv(s: State, c: nat, w': World, c': Ctx)
    requires Inv(s) && c in s.ctxs
    requires CtxValid(w', c') && c'.active == s.ctxs[c].active && c'.id == c && SameShape(s.ctxs[c], c')
    requires AddsOwn(s.world, w', c')
    ensures Inv(s.(world := w', ctxs := s.ctxs[c := c']))
  {
    RegistrationKeepsTables(s.world, s.ctxs, s.nextCtx, c, w', c');
    hide TablesOk, OpsOk, HolderOk, NamesOk;
    SameShapeInv(s, s.(world := w', ctxs := s.ctxs[c := c']));
  }

  predicate SameShape(c: Ctx, c': Ctx) {
    c'.plugin == c.plugin && c'.active == c.active && c'.stopped == c.stopped
  }

  /** Contexts that keep their plugin and their switches keep their place. */
  lemma SameShapeInv(s: State, s': State)
    requires Inv(s) && TouchesTables(s, s') && TablesOk(s'.world, s'.ctxs, s'.nextCtx)
    requires forall c :: c in s.ctxs ==> SameShape(s.ctxs[c], s'.ctxs[c])
    ensures Inv(s')
  {
    assert s.lock.Some? ==> s.lock.value in s.tasks && s.tasks[s.lock.value].pc.Body?;
    hide TablesOk, OpsOk, HolderOk, NamesOk;
    if s.lock.Some? { SameShapePhase(s, s', s.tasks[s.lock.value].op, s.tasks[s.lock.value].pc.phase); }
  }

  lemma SameShapePhase(s: State, s': State, op: Op, phase: Phase)
    requires TouchesTables(s, s') && PhaseOk(s, op, phase)
    requires forall c :: c in s.ctxs ==> SameShape(s.ctxs[c], s'.ctxs[c])
    ensures PhaseOk(s', op, phase)
  {}

  /** Steps that only move tasks outside the body. */
  lemma OutsideInv(s: State, s': State)
    requires Inv(s) && LocksOk(s')
    requires s'.world == s.world && s'.ctxs == s.ctxs && s'.nextCtx == s.nextCtx && s'.runtimes == s.runtimes
    requires s'.lock == s.lock
    requires s.lock.Some? ==> s'.tasks[s.lock.value] == s.tasks[s.lock.value]
    ensures Inv(s')
  {
    hide TablesOk, OpsOk, HolderOk, NamesOk;
  }

  /** Only the task `t` and the per-name bookkeeping differ. */
  predicate MovesTask(s: State, s': State, t: nat) {
    && s' == s.(tasks := s'.tasks, opLocks := s'.opLocks, inflight := s'.inflight, idle := s'.idle)
    && forall u :: u in s.tasks && u != t ==> u in s'.tasks && s'.tasks[u] == s.tasks[u]
  }

  lemma MovesTaskInv(s: State, s': State, t: nat)
    requires Inv(s) && LocksOk(s') && MovesTask(s, s', t) && s.lock != Some(t)
    ensures Inv(s')
  {
    assert s.lock.Some? ==> s.lock.value in s.tasks;
    hide TablesOk, Placed, LocksOk;
    OutsideInv(s, s');
  }

  /** The task a spawn adds: outside every lock. */
  lemma SpawnedTask(s: State, t: nat, op: Op) returns (added: map<nat, Task>)
    requires t !in s.tasks && (op.Fetch? || op.name != CORE)
    ensures SpawnTask(s, t, op) == s.(tasks := s.tasks + added) && added.Keys == {t}
    ensures NamesOk(added) && !InOp(added[t]) && !added[t].pc.Body?
  {
    added := map[t := SpawnTask(s, t, op).tasks[t]];
    assert s.tasks + added == SpawnTask(s, t, op).tasks;
  }

  lemma SpawnInv(s: State, t: nat, op: Op)
    requires Inv(s) && t !in s.tasks && (op.Fetch? || op.name != CORE)
    ensures Inv(SpawnTask(s, t, op))
  {
    assert s.lock != Some(t) && LocksOk(s);
    hide Inv, LocksOk, SpawnTask, InOp, NamesOk;
    var added := SpawnedTask(s, t, op);
    AddKeepsLocks(s, added);
    MovesTaskInv(s, SpawnTask(s, t, op), t);
  }

  lemma EnterOpMoves(s: State, t: nat)
    requires t in s.tasks && s.tasks[t].op.TakesOp()
    ensures MovesTask(s, EnterOp(s, t), t)
  {}

  lemma StopWaitingMoves(s: State, t: nat)
    requires t in s.tasks
    ensures MovesTask(s, StopWaiting(s, t), t)
  {}

  lemma TakeOpInv(s: State, t: nat)
    requires Inv(s) && t in s.tasks && s.tasks[t].pc.WaitOp? && s.tasks[t].op.name !in s.opLocks
    ensures Inv(EnterOp(s, t))
  {
    assert s.lock != Some(t) && s.tasks[t].op.TakesOp();
    TakeOpKeepsLocks(s, t);
    EnterOpMoves(s, t);
    hide EnterOp, LocksOk, MovesTask, Inv;
    MovesTaskInv(s, EnterOp(s, t), t);
  }

  lemma GiveUpInv(s: State, t: nat)
    requires Inv(s) && t in s.tasks && (s.tasks[t].pc.WaitOp? || s.tasks[t].pc.WaitLock?)
    ensures Inv(StopWaiting(s, t))
  {
    assert s.lock != Some(t);
    GiveUpKeepsLocks(s, t);
    StopWaitingMoves(s, t);
    hide StopWaiting, LocksOk, MovesTask, Inv;
    MovesTaskInv(s, StopWaiting(s, t), t);
  }

  lemma SnapshotInv(s: State, children: map<nat, string>)
    requires Inv(s) && Enabled(s, Snapshot(children))
    ensures Inv(SpawnChildren(s, children))
  {
    var added := map t | t in children :: Task(Unload(children[t]), WaitOp, true);
    forall t | t in added ensures added[t].op.name != CORE {
      assert children[t] in s.runtimes;
    }
    AddKeepsLocks(s, added);
    OutsideInv(s, SpawnChildren(s, children));
  }

  lemma FlagStepInv(s: State, step: Step)
    requires Inv(s) && Enabled(s, step)
    requires step.BeginShutdown? || step.FinishShutdown? || step.AbandonShutdown? || step.SetDisabled?
    ensures Inv(Next(s, step))
  {
    OutsideInv(s, Next(s, step));
  }

  /** Every step of every task, of the plugins and of `shutdown` keeps the invariant. */
  lemma StepInv(s: State, step: Step)
    requires Inv(s) && Enabled(s, step)
    ensures Inv(Next(s, step))
  {
    hide Inv, Resume, Enter, RegisterCommand, RegisterHandler, SpawnTask, EnterOp, StopWaiting, SpawnChildren;
    match step
    case Advance(t, outcome, refuses) => ResumeInv(s, t, outcome, refuses);
    case TakeLock(t) => EnterInv(s, t);
    case PluginCommand(c, reg) => PluginCommandInv(s, c, reg);
    case PluginHandler(c, event, refuses) => PluginHandlerInv(s, c, event, refuses);
    case Spawn(t, op) => SpawnInv(s, t, op);
    case TakeOp(t) => TakeOpInv(s, t);
    case GiveUp(t) => GiveUpInv(s, t);
    case Snapshot(children) => SnapshotInv(s, children);
    case _ => FlagStepInv(s, step);
  }

  lemma {:induction false} RunInv(s: State, steps: seq<Step>)
    requires Inv(s) && Exec(s, steps).Some?
    ensures Inv(Exec(s, steps).value)
    decreases |steps|
  {
    if steps != [] {
      StepInv(s, steps[0]);
      RunInv(Next(s, steps[0]), steps[1..]);
    }
  }
}
