/** `run_uninterruptible` of `src/userbot/task_registry.py`: cleanup that absorbs cancellations. */
module Uninterruptible {
  import opened Text
  import opened Context
  import opened Lifecycle
  import opened LifecycleProgress

  datatype Fate = Returned | Raised | CancelledInside

  /**
   * Why one `await shield(task)` comes back: the caller was cancelled while the cleanup goes on,
   * the cleanup ended, or both at once.
   */
  datatype Wakeup = Interrupted | InterruptedAtTheEnd(fate: Fate) | Ended(fate: Fate)

  /** How many cancellations arrive before the cleanup has ended. */
  function Leading(wakeups: seq<Wakeup>): (n: nat)
    ensures n <= |wakeups|
    ensures forall i :: 0 <= i < n ==> wakeups[i].Interrupted?
    ensures n < |wakeups| ==> !wakeups[n].Interrupted?
  {
    if wakeups != [] && wakeups[0].Interrupted? then 1 + Leading(wakeups[1..]) else 0
  }

  predicate Absorbs(w: Wakeup) {
    !w.Ended? || w.fate.CancelledInside?
  }

  /**
   * The cleanup runs to its end exactly when fewer than `maxAttempts` cancellations arrive before
   * it has; otherwise it is abandoned. The caller sees a cancellation exactly when one was
   * absorbed, and never sees the cleanup's own error.
   */
  method RunUninterruptible(wakeups: seq<Wakeup>, maxAttempts: nat) returns (fate: Option<Fate>, cancelled: bool)
    requires Leading(wakeups) < |wakeups| || maxAttempts <= |wakeups|
    ensures fate.Some? <==> Leading(wakeups) < maxAttempts
    ensures fate.Some? ==> fate.value == wakeups[Leading(wakeups)].fate
    ensures cancelled <==> maxAttempts > 0 && Absorbs(wakeups[0])
  {
    ghost var n := Leading(wakeups);
    fate, cancelled := None, false;
    var attempts := 0;
    while fate.None?
      invariant attempts <= maxAttempts
      invariant fate.None? ==> attempts <= n && cancelled == (attempts > 0)
      invariant fate.Some? ==> n < maxAttempts && fate == Some(wakeups[n].fate)
                               && cancelled == (n > 0 || Absorbs(wakeups[n]))
      decreases fate.None?, maxAttempts - attempts
    {
      if attempts + 1 > maxAttempts { break; }
      var w := wakeups[attempts];
      attempts := attempts + 1;
      if !w.Interrupted? { fate := Some(w.fate); }
      if Absorbs(w) { cancelled := true; }
    }
  }

  /**
   * A rollback that is stopping the failed context is over with a step, and over as cancelled, exactly if
   * the hook raises the cancellation itself, the attempts are used up, or it comes to its end after a
   * cancellation. Abandoned in one of the first two ways, it switches and publishes nothing any more.
   */
  lemma RollbackStepExactly(s: State, t: nat, u: Undo, closing: bool, outcome: Outcome, refuses: set<Handler>)
    requires Enabled(s, Advance(t, outcome, refuses)) && s.tasks[t].pc == Body(RollingBack(u, closing))
    ensures var s' := Next(s, Advance(t, outcome, refuses));
            var abandoned := outcome.HookCancels? || (outcome.IsCancelled? && u.attempts >= MAX_ATTEMPTS);
            && (s'.tasks[t].pc == Done(Cancelled) <==>
                  abandoned || (outcome.Goes? && closing && (u.cancelled || u.attempts > 1)))
            && (s'.tasks[t].pc == Body(RecordingFailure) <==>
                  outcome.Goes? && closing && !u.cancelled && u.attempts <= 1)
            && (abandoned || outcome.IsCancelled? ==>
                  s'.world == s.world && s'.ctxs == s.ctxs && s'.runtimes == s.runtimes)
  {
    hide Activated, FinishUndo, Absorb, Suspend, Leave, MarkStopped;
    assert Next(s, Advance(t, outcome, refuses)) == ContinueUndo(s, t, u, closing, outcome, refuses);
    hide Next, Enabled;
    FinishUndoLeaves(s, t, u, refuses);
    AbsorbLeaves(s, t, u, closing);
    Moved(s, t, RollingBack(u, true), Cancelled);
    StoppedTasks(s, u.ctx.value);
    Moved(MarkStopped(s, u.ctx.value), t, RollingBack(u, true), Cancelled);
  }

  lemma FinishUndoLeaves(s: State, t: nat, u: Undo, refuses: set<Handler>)
    requires t in s.tasks && (u.prev.Some? ==> u.prev.value in s.ctxs)
    ensures t in FinishUndo(s, t, u, refuses).tasks
    ensures FinishUndo(s, t, u, refuses).tasks[t].pc
            == if u.cancelled || u.attempts > 1 then Done(Cancelled) else Body(RecordingFailure)
  {
    hide Activated, Suspend, Leave, SwitchOn;
    var restores := u.prev.Some? && u.deactivated && !u.restored && u.prev.value in s.runtimes.Values;
    if restores { SwitchedOnTasks(s, u.prev.value, refuses); }
    var s1 := if restores then SwitchOn(s, u.prev.value, refuses) else s;
    Moved(s1, t, RecordingFailure, Cancelled);
  }

  lemma StoppedTasks(s: State, c: nat)
    requires c in s.ctxs
    ensures MarkStopped(s, c).tasks == s.tasks
  {}

  lemma SwitchedOnTasks(s: State, c: nat, refuses: set<Handler>)
    requires c in s.ctxs
    ensures SwitchOn(s, c, refuses).tasks == s.tasks
  {
    hide Activated;
  }

  /** Moving a task moves that task, and switches and publishes nothing. */
  lemma Moved(s: State, t: nat, phase: Phase, ending: Ending)
    requires t in s.tasks
    ensures var s' := Suspend(s, t, phase);
            && t in s'.tasks && s'.tasks[t].pc == Body(phase)
            && s'.world == s.world && s'.ctxs == s.ctxs && s'.runtimes == s.runtimes
    ensures var s' := Leave(s, t, ending);
            && t in s'.tasks && s'.tasks[t].pc == Done(ending)
            && s'.world == s.world && s'.ctxs == s.ctxs && s'.runtimes == s.runtimes
  {}

  lemma AbsorbLeaves(s: State, t: nat, u: Undo, closing: bool)
    requires t in s.tasks
    ensures var s' := Absorb(s, t, u, closing);
            && t in s'.tasks && s'.world == s.world && s'.ctxs == s.ctxs && s'.runtimes == s.runtimes
            && if u.attempts >= MAX_ATTEMPTS then s'.tasks[t].pc == Done(Cancelled)
               else s'.tasks[t].pc.Body? && s'.tasks[t].pc.phase.RollingBack?
  {
    Moved(s, t, RollingBack(u.(attempts := u.attempts + 1), closing), Cancelled);
    hide Suspend, Leave;
  }

  /** The rollback of a load, cancelled `n` times in a row while it stops the failed context. */
  function CancelledTimes(t: nat, n: nat): seq<Step> {
    if n == 0 then [] else [Advance(t, IsCancelled, {})] + CancelledTimes(t, n - 1)
  }

  lemma AbsorbStep(s: State, t: nat, undo: Undo, closing: bool)
    requires t in s.tasks && s.tasks[t].op.Load? && s.tasks[t].pc == Body(RollingBack(undo, closing))
    requires PhaseCtxs(s, RollingBack(undo, closing))
    ensures Leads(s, Advance(t, IsCancelled, {}), Absorb(s, t, undo, closing))
  {}

  lemma MovedTwice(s: State, t: nat, first: Phase, second: Phase)
    requires t in s.tasks
    ensures Suspend(Suspend(s, t, first), t, second) == Suspend(s, t, second)
    ensures s.lock == Some(t) ==> Leave(Suspend(s, t, first), t, Cancelled) == Leave(s, t, Cancelled)
  {
    forall pc: Pc ensures s.tasks[t := s.tasks[t].(pc := Body(first))][t := s.tasks[t].(pc := pc)]
                          == s.tasks[t := s.tasks[t].(pc := pc)] {}
  }

  /**
   * The lifecycle model counts attempts the same way: a rollback is still at work after `n`
   * cancellations as long as the attempts last, and the cancellation after that ends it.
   */
  lemma {:induction false} RollbackAbsorbs(s: State, t: nat, undo: Undo, closing: bool, n: nat)
    requires t in s.tasks && s.tasks[t].op.Load? && s.tasks[t].pc == Body(RollingBack(undo, closing))
    requires PhaseCtxs(s, RollingBack(undo, closing)) && s.lock == Some(t)
    ensures undo.attempts + n <= MAX_ATTEMPTS ==>
      Exec(s, CancelledTimes(t, n)) == Some(Suspend(s, t, RollingBack(undo.(attempts := undo.attempts + n), closing)))
    ensures n > 0 && undo.attempts + n == MAX_ATTEMPTS + 1 ==>
      Exec(s, CancelledTimes(t, n)) == Some(Leave(s, t, Cancelled))
    decreases n
  {
    assert n == 0 ==> s.tasks[t := s.tasks[t]] == s.tasks;
    assert Exec(s, []) == Some(s);
    if n > 0 {
      var go := Advance(t, IsCancelled, {});
      var s1 := Absorb(s, t, undo, closing);
      AbsorbStep(s, t, undo, closing);
      hide Leads, Exec, LeaveOp;
      if undo.attempts < MAX_ATTEMPTS {
        RollbackAbsorbs(s1, t, undo.(attempts := undo.attempts + 1), closing, n - 1);
        MovedTwice(s, t, RollingBack(undo.(attempts := undo.attempts + 1), closing),
                   RollingBack(undo.(attempts := undo.attempts + n), closing));
        if undo.attempts + n <= MAX_ATTEMPTS + 1 {
          ExecLink(s, go, s1, CancelledTimes(t, n - 1), Exec(s1, CancelledTimes(t, n - 1)).value);
        }
      } else if n == 1 {
        ExecNothing(s1);
        ExecLink(s, go, s1, [], s1);
      }
    }
  }
}
