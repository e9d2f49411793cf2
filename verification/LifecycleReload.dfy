/** A reload that fails before the new generation is live leaves no trace. */
module LifecycleReload {
  import opened Text
  import opened Commands
  import opened Context
  import opened ContextLaws
  import opened Lifecycle
  import opened LifecycleInv
  import opened LifecycleSteps
  import opened LifecycleProgress
  import opened LifecycleHolder

  /** What the rest of the program can see of the plugins: both tables and the runtime map. */
  predicate SameOutside(s: State, s': State) {
    s'.world == s.world && s'.runtimes == s.runtimes
  }

  /** `t` is reloading over the published `outgoing`, and has not got past the exchange. */
  predicate Reloading(s: State, t: nat, outgoing: nat) {
    && t in s.tasks && s.tasks[t].op.Load? && outgoing in s.ctxs
    && match s.tasks[t].pc
       case Body(LoadingModule(prev)) => prev == Some(outgoing)
       case Body(BuildingContext(prev)) => prev == Some(outgoing)
       case Body(Preparing(prev, _)) => prev == Some(outgoing)
       case Body(RollbackPending(u)) => Harmless(s, u)
       case Body(RollingBack(u, _)) => Harmless(s, u)
       case Body(RecordingFailure) => true
       case _ => false
  }

  /** This rollback has nothing live to take down and nothing to put back. */
  predicate Harmless(s: State, u: Undo) {
    && (u.deactivated ==> u.restored)
    && (u.ctx.Some? ==> u.ctx.value in s.ctxs && !s.ctxs[u.ctx.value].active)
  }

  predicate FailedFor(s: State, t: nat) {
    t in s.tasks && (s.tasks[t].pc == Done(Failed) || s.tasks[t].pc == Done(Cancelled))
  }

  /** The outgoing generation can be put back: everything it buffered is live and the client takes it again. */
  ghost predicate Restorable(s: State, outgoing: nat, refuses: set<Handler>) {
    && outgoing in s.ctxs && FullyLive(s.world, s.ctxs[outgoing])
    && forall h :: h in s.ctxs[outgoing].handlers ==> h !in refuses
  }

  /** `t` is about to roll back, and the failed context has nothing live. */
  predicate PutBack(s: State, s': State, t: nat, outgoing: nat, u: Undo) {
    && t in s.tasks && s'.tasks == s.tasks[t := s.tasks[t].(pc := Body(RollbackPending(u)))]
    && outgoing in s'.ctxs && u.ctx.Some? && u.ctx.value in s'.ctxs && !s'.ctxs[u.ctx.value].active
  }

  lemma PutBackReloads(s: State, s': State, t: nat, outgoing: nat, u: Undo)
    requires PutBack(s, s', t, outgoing, u) && u.restored && s.tasks[t].op.Load?
    ensures Reloading(s', t, outgoing)
  {}

  /** Shape of a failed exchange: both tables after putting the outgoing generation back. */
  lemma FailedSwapShape(s: State, t: nat, outgoing: nat, ctx: nat, refuses: set<Handler>)
    requires Inv(s) && s.lock == Some(t) && s.tasks[t].pc == Body(Preparing(Some(outgoing), ctx))
    requires outgoing in s.ctxs && !Accepts(SwitchOff(s, outgoing), ctx, refuses)
    ensures var s1 := SwitchOff(s, outgoing);
            Swap(s, t, Some(outgoing), ctx, refuses)
            == Suspend(SwitchOn(s1, outgoing, refuses), t,
                       RollbackPending(Undo(Some(outgoing), Some(ctx), true, Accepts(s1, outgoing, refuses), false, 1)))
    ensures ctx in s.ctxs && ctx != outgoing && !s.ctxs[ctx].active
  {
    assert PhaseOk(s, s.tasks[t].op, Preparing(Some(outgoing), ctx)) && Held(s, t) && RuntimesOk(s, None);
    FirstHalf(s, t, Some(outgoing), ctx);
    hide Inv, Held, RuntimesOk, TablesOk, CtxValid, SwitchOff, SwitchOn, Accepts;
    var s1 := SwitchOff(s, outgoing);
    SwitchOnHeld(s1, t, ctx, refuses);
    assert SwitchOn(s1, ctx, refuses) == s1;
  }

  /** Taking the outgoing generation down and up again: the tables are the same exactly if it was restorable. */
  lemma RestoredExactly(s: State, outgoing: nat, refuses: set<Handler>)
    requires TablesOk(s.world, s.ctxs, s.nextCtx) && outgoing in s.ctxs
    requires s.ctxs[outgoing].active && !s.ctxs[outgoing].stopped
    ensures var s1 := SwitchOff(s, outgoing);
            SwitchOn(s1, outgoing, refuses).world == s.world && Accepts(s1, outgoing, refuses)
            <==> Restorable(s, outgoing, refuses)
  {
    ReactivationExact(s.world, s.ctxs[outgoing], refuses);
  }

  /**
   * When the new generation cannot go live, the exchange leaves the tables as they were and
   * reports the old generation as restored, exactly when everything it had buffered was live.
   */
  lemma FailedSwapIsInvisible(s: State, t: nat, outgoing: nat, ctx: nat, refuses: set<Handler>)
    requires Inv(s) && s.lock == Some(t) && s.tasks[t].pc == Body(Preparing(Some(outgoing), ctx))
    requires outgoing in s.ctxs && !Accepts(SwitchOff(s, outgoing), ctx, refuses)
    requires s.ctxs[outgoing].active && !s.ctxs[outgoing].stopped
    ensures var s' := Swap(s, t, Some(outgoing), ctx, refuses);
            var restored := Accepts(SwitchOff(s, outgoing), outgoing, refuses);
            && PutBack(s, s', t, outgoing, Undo(Some(outgoing), Some(ctx), true, restored, false, 1))
            && (SameOutside(s, s') && restored <==> Restorable(s, outgoing, refuses))
  {
    assert t in s.tasks && s.tasks[t].op.Load?;
    FailedSwapShape(s, t, outgoing, ctx, refuses);
    RestoredExactly(s, outgoing, refuses);
    SwapBackShape(s, t, outgoing, ctx, refuses);
    hide Inv, PutBack, Restorable, Swap, SwitchOn, SwitchOff, Accepts, Suspend;
  }

  lemma SwapBackShape(s: State, t: nat, outgoing: nat, ctx: nat, refuses: set<Handler>)
    requires t in s.tasks && s.tasks[t].op.Load? && outgoing in s.ctxs
    requires ctx in s.ctxs && ctx != outgoing && !s.ctxs[ctx].active
    ensures var s2 := SwitchOn(SwitchOff(s, outgoing), outgoing, refuses);
            forall restored ::
              var u := Undo(Some(outgoing), Some(ctx), true, restored, false, 1);
              var s' := Suspend(s2, t, RollbackPending(u));
              PutBack(s, s', t, outgoing, u) && (SameOutside(s, s') <==> s2.world == s.world)
  {
    hide Deactivated, Activated;
  }

  /** One segment of a failing reload. The exchange, if it is reached, fails with a restorable old generation. */
  ghost predicate FailsHere(s: State, t: nat, outgoing: nat, outcome: Outcome, refuses: set<Handler>)
    requires Enabled(s, Advance(t, outcome, refuses)) && outgoing in s.ctxs
  {
    s.tasks[t].pc.phase.Preparing? && outcome.Goes? ==>
      !Accepts(SwitchOff(s, outgoing), s.tasks[t].pc.phase.ctx, refuses) && Restorable(s, outgoing, refuses)
  }

  lemma FinishIsInvisible(s: State, t: nat, outgoing: nat, u: Undo, refuses: set<Handler>)
    requires t in s.tasks && s.tasks[t].op.Load? && outgoing in s.ctxs
    requires (u.prev.Some? ==> u.prev.value in s.ctxs) && (u.deactivated ==> u.restored)
    ensures var s' := FinishUndo(s, t, u, refuses);
            SameOutside(s, s') && (Reloading(s', t, outgoing) || FailedFor(s', t))
  {}

  lemma StartIsInvisible(s: State, t: nat, outgoing: nat, u: Undo, outcome: Outcome, refuses: set<Handler>)
    requires t in s.tasks && s.tasks[t].op.Load? && outgoing in s.ctxs && Harmless(s, u)
    requires u.prev.Some? ==> u.prev.value in s.ctxs
    ensures var s' := StartUndo(s, t, u, outcome, refuses);
            SameOutside(s, s') && (Reloading(s', t, outgoing) || FailedFor(s', t))
  {
    if outcome.Goes? {
      if u.ctx.None? { FinishIsInvisible(s, t, outgoing, u, refuses); }
      hide FinishUndo;
    }
  }

  lemma AbsorbIsInvisible(s: State, t: nat, outgoing: nat, u: Undo, closing: bool)
    requires t in s.tasks && s.tasks[t].op.Load? && outgoing in s.ctxs && Harmless(s, u)
    ensures var s' := Absorb(s, t, u, closing);
            SameOutside(s, s') && (Reloading(s', t, outgoing) || FailedFor(s', t))
  {}

  lemma StopIsInvisible(s: State, t: nat, outgoing: nat, u: Undo)
    requires t in s.tasks && s.tasks[t].op.Load? && outgoing in s.ctxs && Harmless(s, u) && u.ctx.Some?
    ensures var s' := Suspend(MarkStopped(s, u.ctx.value), t, RollingBack(u, true));
            SameOutside(s, s') && Reloading(s', t, outgoing)
  {}

  lemma ContinueIsInvisible(s: State, t: nat, outgoing: nat, u: Undo, closing: bool, outcome: Outcome,
      refuses: set<Handler>)
    requires t in s.tasks && s.tasks[t].op.Load? && outgoing in s.ctxs && Harmless(s, u)
    requires u.ctx.Some? && (u.prev.Some? ==> u.prev.value in s.ctxs)
    ensures var s' := ContinueUndo(s, t, u, closing, outcome, refuses);
            SameOutside(s, s') && (Reloading(s', t, outgoing) || FailedFor(s', t))
  {
    hide FinishUndo, Absorb, Suspend, MarkStopped, Reloading;
    AbsorbIsInvisible(s, t, outgoing, u, closing);
    StopIsInvisible(s, t, outgoing, u);
    FinishIsInvisible(s, t, outgoing, u, refuses);
  }

  lemma UndoIsInvisible(s: State, t: nat, outgoing: nat, outcome: Outcome, refuses: set<Handler>)
    requires Reloading(s, t, outgoing) && Enabled(s, Advance(t, outcome, refuses))
    requires !Forward(s.tasks[t].pc.phase)
    ensures var s' := Next(s, Advance(t, outcome, refuses));
            SameOutside(s, s') && (Reloading(s', t, outgoing) || FailedFor(s', t))
  {
    hide StartUndo, ContinueUndo;
    match s.tasks[t].pc.phase
    case RollbackPending(u) => StartIsInvisible(s, t, outgoing, u, outcome, refuses);
    case RollingBack(u, closing) => ContinueIsInvisible(s, t, outgoing, u, closing, outcome, refuses);
    case RecordingFailure =>
  }

  lemma ExchangeIsInvisible(s: State, t: nat, outgoing: nat, ctx: nat, refuses: set<Handler>)
    requires Inv(s) && s.lock == Some(t) && s.tasks[t].pc == Body(Preparing(Some(outgoing), ctx)) && s.tasks[t].op.Load?
    requires outgoing in s.ctxs && !Accepts(SwitchOff(s, outgoing), ctx, refuses) && Restorable(s, outgoing, refuses)
    ensures var s' := Swap(s, t, Some(outgoing), ctx, refuses);
            SameOutside(s, s') && Reloading(s', t, outgoing)
  {
    assert s.ctxs[outgoing].active && !s.ctxs[outgoing].stopped;
    hide Inv, Swap, SwitchOff, Accepts, Restorable, PutBack, Reloading;
    FailedSwapIsInvisible(s, t, outgoing, ctx, refuses);
    PutBackReloads(s, Swap(s, t, Some(outgoing), ctx, refuses), t, outgoing,
                   Undo(Some(outgoing), Some(ctx), true, true, false, 1));
  }

  lemma EarlyFailureIsInvisible(s: State, t: nat, outgoing: nat, ctx: Option<nat>, outcome: Outcome)
    requires t in s.tasks && s.tasks[t].op.Load? && outgoing in s.ctxs
    requires ctx.Some? ==> ctx.value in s.ctxs && !s.ctxs[ctx.value].active
    ensures var s' := FailEarly(s, t, Some(outgoing), ctx, outcome);
            SameOutside(s, s') && Reloading(s', t, outgoing)
  {}

  lemma BuildIsInvisible(s: State, t: nat, outgoing: nat)
    requires t in s.tasks && s.tasks[t].op.Load? && outgoing in s.ctxs
    ensures var s' := Build(s, t, Some(outgoing));
            SameOutside(s, s') && Reloading(s', t, outgoing)
  {}

  lemma ToBuildingIsInvisible(s: State, t: nat, outgoing: nat)
    requires t in s.tasks && s.tasks[t].op.Load? && outgoing in s.ctxs
    ensures var s' := Suspend(s, t, BuildingContext(Some(outgoing)));
            SameOutside(s, s') && Reloading(s', t, outgoing)
  {}

  lemma PrepareIsInvisible(s: State, t: nat, outgoing: nat, outcome: Outcome, refuses: set<Handler>)
    requires Inv(s) && Reloading(s, t, outgoing) && Enabled(s, Advance(t, outcome, refuses))
    requires Forward(s.tasks[t].pc.phase) && FailsHere(s, t, outgoing, outcome, refuses)
    ensures var s' := Next(s, Advance(t, outcome, refuses));
            SameOutside(s, s') && Reloading(s', t, outgoing)
  {
    assert s.lock == Some(t) && PhaseOk(s, s.tasks[t].op, s.tasks[t].pc.phase);
    hide Inv, Swap, Build, FailEarly, Suspend, Accepts, SwitchOff, Restorable;
    match s.tasks[t].pc.phase
    case LoadingModule(_) =>
      ToBuildingIsInvisible(s, t, outgoing);
      EarlyFailureIsInvisible(s, t, outgoing, None, outcome);
    case BuildingContext(_) =>
      BuildIsInvisible(s, t, outgoing);
      EarlyFailureIsInvisible(s, t, outgoing, None, outcome);
    case Preparing(_, ctx) =>
      if outcome.Goes? { ExchangeIsInvisible(s, t, outgoing, ctx, refuses); }
      else { EarlyFailureIsInvisible(s, t, outgoing, Some(ctx), outcome); }
  }

  /** A run of any steps, those of `t` being the segments of a failing reload. */
  ghost predicate FailsEarly(s: State, run: seq<Step>, t: nat, outgoing: nat)
    decreases |run|
  {
    run != [] ==>
      && Enabled(s, run[0]) && outgoing in s.ctxs
      && (IsStepOf(run[0], t) ==> FailsHere(s, t, outgoing, run[0].outcome, run[0].refuses))
      && FailsEarly(Next(s, run[0]), run[1..], t, outgoing)
  }

  /** Every step of `t` in the run leaves the outside as it was just before that step. */
  ghost predicate OnlyOthersChange(s: State, run: seq<Step>, t: nat)
    decreases |run|
  {
    run != [] ==>
      && Enabled(s, run[0])
      && (IsStepOf(run[0], t) ==> SameOutside(s, Next(s, run[0])))
      && OnlyOthersChange(Next(s, run[0]), run[1..], t)
  }

  /** The reload is still on its way to failing, or has failed. */
  predicate OnTheWay(s: State, t: nat, outgoing: nat) {
    Reloading(s, t, outgoing) || FailedFor(s, t)
  }

  lemma OwnStepIsInvisible(s: State, step: Step, t: nat, outgoing: nat)
    requires Inv(s) && OnTheWay(s, t, outgoing) && Enabled(s, step) && IsStepOf(step, t)
    requires FailsHere(s, t, outgoing, step.outcome, step.refuses)
    ensures SameOutside(s, Next(s, step)) && OnTheWay(Next(s, step), t, outgoing)
  {
    assert Reloading(s, t, outgoing);
    hide Inv, Next;
    if Forward(s.tasks[t].pc.phase) {
      PrepareIsInvisible(s, t, outgoing, step.outcome, step.refuses);
    } else {
      UndoIsInvisible(s, t, outgoing, step.outcome, step.refuses);
    }
  }

  /** Whatever anybody else does, the reload is where it was: it holds the lock, or it is over. */
  lemma OtherStepKeepsTheWay(s: State, step: Step, t: nat, outgoing: nat)
    requires Inv(s) && OnTheWay(s, t, outgoing) && Enabled(s, step) && !IsStepOf(step, t)
    ensures OnTheWay(Next(s, step), t, outgoing)
  {
    if FailedFor(s, t) {
      OverStays(s, step, t);
    } else {
      assert s.lock == Some(t);
      OthersStand(s, step, t);
      hide Inv, Next, Enabled;
      StandsReloading(s, Next(s, step), t, outgoing);
    }
  }

  lemma StandsReloading(s: State, s': State, t: nat, outgoing: nat)
    requires Reloading(s, t, outgoing) && Stands(s, s', t)
    ensures Reloading(s', t, outgoing)
  {}

  lemma OverStays(s: State, step: Step, t: nat)
    requires t in s.tasks && s.tasks[t].pc.Done? && Enabled(s, step)
    ensures t in Next(s, step).tasks && Next(s, step).tasks[t] == s.tasks[t]
  {
    if IsTaskStep(step) {
      StepIsCloser(s, step, step.task);
    }
  }

  /**
   * A failed reload is invisible: if the new generation fails to load, to validate, to prepare or
   * to activate, or the task is cancelled before the exchange, then whatever else goes on meanwhile
   * (the old generation and other plugins may register, other operations may wait, start and end),
   * none of the reload's own steps changes the command table, the handlers or the runtime map, so
   * that what they are at the end is the doing of the other steps alone.
   */
  lemma {:induction false} FailedReloadIsInvisible(s: State, run: seq<Step>, t: nat, outgoing: nat)
    requires Inv(s) && OnTheWay(s, t, outgoing)
    requires FailsEarly(s, run, t, outgoing)
    ensures Exec(s, run).Some? && OnlyOthersChange(s, run, t)
    ensures OnTheWay(Exec(s, run).value, t, outgoing)
    decreases |run|
  {
    if run != [] {
      hide Inv, Next, Enabled, OnTheWay, FailsHere, SameOutside;
      StepInv(s, run[0]);
      if IsStepOf(run[0], t) {
        OwnStepIsInvisible(s, run[0], t, outgoing);
      } else {
        OtherStepKeepsTheWay(s, run[0], t, outgoing);
      }
      FailedReloadIsInvisible(Next(s, run[0]), run[1..], t, outgoing);
    }
  }
}
