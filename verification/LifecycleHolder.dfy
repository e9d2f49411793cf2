/** What the other tasks and the plugins can do while a task holds the manager lock: nothing that decides its course. */
module LifecycleHolder {
  import opened Text
  import opened Commands
  import opened Context
  import opened ContextLaws
  import opened Lifecycle
  import opened LifecycleInv
  import opened LifecycleSteps

  predicate IsStepOf(step: Step, t: nat) {
    step.Advance? && step.task == t
  }

  /** `t` is where it was, no name is published or withdrawn, no context is made, switched or stopped. */
  ghost predicate Stands(s: State, s': State, t: nat) {
    && s'.lock == s.lock && s'.runtimes == s.runtimes && s'.nextCtx == s.nextCtx
    && t in s.tasks && t in s'.tasks && s'.tasks[t] == s.tasks[t]
    && SameSwitches(s.ctxs, s'.ctxs)
  }

  ghost predicate SameSwitches(ctxs: map<nat, Ctx>, ctxs': map<nat, Ctx>) {
    ctxs'.Keys == ctxs.Keys && forall c :: c in ctxs ==> SameShape(ctxs[c], ctxs'[c])
  }

  lemma RegistrationStands(s: State, step: Step, t: nat)
    requires t in s.tasks && Enabled(s, step) && (step.PluginCommand? || step.PluginHandler?)
    ensures Stands(s, Next(s, step), t)
  {}

  lemma MovesStands(s: State, s': State, t: nat, u: nat)
    requires t in s.tasks && u != t && MovesTask(s, s', u)
    ensures Stands(s, s', t)
  {}

  lemma SpawnStands(s: State, u: nat, op: Op, t: nat)
    requires t in s.tasks && u !in s.tasks
    ensures Stands(s, SpawnTask(s, u, op), t)
  {}

  lemma SnapshotStands(s: State, children: map<nat, string>, t: nat)
    requires t in s.tasks && t !in children
    ensures Stands(s, SpawnChildren(s, children), t)
  {}

  lemma FlagStands(s: State, step: Step, t: nat)
    requires t in s.tasks && Enabled(s, step)
    requires step.BeginShutdown? || step.FinishShutdown? || step.AbandonShutdown? || step.SetDisabled?
    ensures Stands(s, Next(s, step), t)
  {}

  lemma NobodyElseInside(s: State, step: Step, t: nat)
    requires Inv(s) && s.lock == Some(t) && Enabled(s, step) && !IsStepOf(step, t)
    ensures !step.Advance? && !step.TakeLock?
  {}

  /** Every step of anybody else leaves the task inside the lock its ground. */
  lemma OthersStand(s: State, step: Step, t: nat)
    requires Inv(s) && s.lock == Some(t) && Enabled(s, step) && !IsStepOf(step, t)
    ensures Stands(s, Next(s, step), t)
  {
    assert t in s.tasks && s.tasks[t].pc.Body?;
    NobodyElseInside(s, step, t);
    hide Inv, Stands;
    match step
    case Spawn(u, op) => SpawnStands(s, u, op, t);
    case TakeOp(u) => EnterOpMoves(s, u); MovesStands(s, EnterOp(s, u), t, u);
    case GiveUp(u) => StopWaitingMoves(s, u); MovesStands(s, StopWaiting(s, u), t, u);
    case Snapshot(children) => SnapshotStands(s, children, t);
    case PluginCommand(_, _) => RegistrationStands(s, step, t);
    case PluginHandler(_, _, _) => RegistrationStands(s, step, t);
    case _ => FlagStands(s, step, t);
  }

  /** A run of any steps in which `t` is inside its body throughout and whose last step, its own, ends it. */
  ghost predicate Until(s: State, run: seq<Step>, t: nat)
    decreases |run|
  {
    && run != [] && Enabled(s, run[0]) && t in s.tasks && s.tasks[t].pc.Body?
    && var s' := Next(s, run[0]);
    && if |run| == 1 then IsStepOf(run[0], t) && t in s'.tasks && s'.tasks[t].pc.Done? else Until(s', run[1..], t)
  }

  lemma {:induction false} UntilRuns(s: State, run: seq<Step>, t: nat)
    requires Until(s, run, t)
    ensures Exec(s, run).Some?
    decreases |run|
  {
    hide Next, Enabled;
    if |run| == 1 {
      assert run[1..] == [] && Exec(Next(s, run[0]), []).Some?;
    } else {
      UntilRuns(Next(s, run[0]), run[1..], t);
    }
  }
}
