/** The loads and the unload an adoption awaits are those of the lifecycle protocol: what they leave published. */
module AdoptionLoads {
  import opened Text
  import opened Commands
  import opened Context
  import opened Lifecycle
  import opened LifecycleInv
  import opened LifecycleSteps
  import opened LifecycleHolder
  import opened LifecycleRoutes
  import Adoption

  /** The tree every context was loaded from. */
  type Origins = nat -> Adoption.Tree

  function RuntimeOf(s: State, name: string, origins: Origins): Adoption.Runtime {
    if name in s.runtimes && s.runtimes[name] in s.ctxs
    then Adoption.Runtime.Published(origins(s.runtimes[name]), s.ctxs[s.runtimes[name]].active)
    else Adoption.NotPublished
  }

  /** The contexts there were keep their trees; one made since comes from `tree`. */
  ghost predicate Extends(before: Origins, after: Origins, known: set<nat>, tree: Adoption.Tree) {
    forall c: nat :: after(c) == if c in known then before(c) else tree
  }

  lemma ReloadLeaves(s: State, end: State, name: string, r: Route, cancelled: bool, prev: nat,
                     before: Origins, after: Origins, tree: Adoption.Tree)
    requires Lookup(s.runtimes, name) == Some(prev) && prev in s.ctxs && Extends(before, after, s.ctxs.Keys, tree)
    requires name in end.runtimes && end.runtimes[name] in end.ctxs
    requires end.ctxs[end.runtimes[name]].active <==>
               r.Succeeded? || (r.FailedEarly? && s.ctxs[prev].active) || r.PutBack? || r.Reopened?
    requires if r.Succeeded? || r.Unrecorded? then end.runtimes[name] !in s.ctxs else end.runtimes[name] == prev
    ensures RuntimeOf(end, name, after)
            == Adoption.EndRuntime(RuntimeOf(s, name, before), Adoption.Entered(r, cancelled), tree)
  {}

  lemma FirstLoadLeaves(s: State, end: State, name: string, r: Route, cancelled: bool,
                        before: Origins, after: Origins, tree: Adoption.Tree)
    requires name !in s.runtimes && Extends(before, after, s.ctxs.Keys, tree)
    requires name in end.runtimes <==> r.Succeeded? || r.Unrecorded?
    requires name in end.runtimes ==> end.runtimes[name] in end.ctxs && end.runtimes[name] !in s.ctxs
    requires name in end.runtimes && end.ctxs[end.runtimes[name]].active <==> r.Succeeded?
    ensures RuntimeOf(end, name, after)
            == Adoption.EndRuntime(RuntimeOf(s, name, before), Adoption.Entered(r, cancelled), tree)
  {}

  /** A load that gets to its body leaves published what its route says. */
  lemma LoadLeaves(s: State, run: seq<Step>, t: nat, prev: Option<nat>, before: Origins, after: Origins,
      tree: Adoption.Tree)
    requires Inv(s) && Starting(s, t, prev) && Until(s, run, t) && Extends(before, after, s.ctxs.Keys, tree)
    ensures Exec(s, run).Some? && s.tasks[t].op.Load? && t in Exec(s, run).value.tasks
    ensures var end, name, r := Exec(s, run).value, s.tasks[t].op.name, RouteOf(s, run, t, Ahead);
            var a := Adoption.Entered(r, end.tasks[t].pc == Done(Cancelled));
            && RuntimeOf(end, name, after) == Adoption.EndRuntime(RuntimeOf(s, name, before), a, tree)
            && (Adoption.Succeeds(a) <==> end.tasks[t].pc == Done(Loaded))
  {
    StartsAhead(s, t, prev);
    hide Inv, Until, RouteOf, Along, Exec, RuntimeOf, Extends, Adoption.EndRuntime;
    if prev.Some? {
      LiveAfterReload(s, run, t, prev.value);
      var end := Exec(s, run).value;
      ReloadLeaves(s, end, s.tasks[t].op.name, RouteOf(s, run, t, Ahead), end.tasks[t].pc == Done(Cancelled),
                   prev.value, before, after, tree);
    } else {
      LiveAfterFirstLoad(s, run, t);
      var end := Exec(s, run).value;
      FirstLoadLeaves(s, end, s.tasks[t].op.name, RouteOf(s, run, t, Ahead), end.tasks[t].pc == Done(Cancelled),
                      before, after, tree);
    }
  }

  /** Until a forced load is inside its body, none of its steps changes what is published. */
  lemma NotEnteredLeavesAll(s: State, step: Step, t: nat)
    requires Enabled(s, step) && (step == TakeOp(t) || step == TakeLock(t) || step == GiveUp(t))
    requires s.tasks[t].op.Load? && s.tasks[t].op.force
    ensures var s' := Next(s, step);
            && s'.runtimes == s.runtimes && s'.ctxs == s.ctxs && t in s'.tasks
            && match s'.tasks[t].pc
               case WaitOp => false
               case WaitLock => step == TakeOp(t)
               case Done(ending) => ending.Disabled? || ending.Failed? || ending.Cancelled?
               case Body(phase) => Starting(s', t, Lookup(s.runtimes, s.tasks[t].op.name))
  {
    match step
    case TakeOp(_) => assert Next(s, step) == EnterOp(s, t); hide Next, Enabled;
    case TakeLock(_) => assert Next(s, step) == Enter(s, t); hide Next, Enabled;
    case GiveUp(_) => assert Next(s, step) == StopWaiting(s, t); hide Next, Enabled;
  }

  /** The name is withdrawn in the segment that takes the lock, before anything can fail. */
  lemma UnloadWithdraws(s: State, t: nat)
    requires Inv(s) && Enabled(s, TakeLock(t)) && s.tasks[t].op.Unload?
    ensures s.tasks[t].op.name !in Next(s, TakeLock(t)).runtimes
  {}

  lemma RemovalPublishesNothing(s: State, t: nat, outcome: Outcome, refuses: set<Handler>)
    requires Enabled(s, Advance(t, outcome, refuses)) && s.tasks[t].op.Unload?
    requires PhaseOk(s, s.tasks[t].op, s.tasks[t].pc.phase)
    ensures Next(s, Advance(t, outcome, refuses)).runtimes == s.runtimes
  {
    assert s.tasks[t].pc.phase.Removing? || s.tasks[t].pc.phase.RecordingUnload?;
    hide PhaseOk, StartUndo, ContinueUndo, Swap, Build, Retire, Record, FailEarly;
  }

  lemma UnloadStep(s: State, step: Step, t: nat)
    requires Inv(s) && Enabled(s, step) && s.lock == Some(t) && s.tasks[t].op.Unload?
    requires s.tasks[t].op.name !in s.runtimes
    ensures Next(s, step).runtimes == s.runtimes
  {
    if IsStepOf(step, t) {
      HolderPhase(s);
      RemovalPublishesNothing(s, t, step.outcome, step.refuses);
    } else {
      OthersStand(s, step, t);
    }
  }

  /** However it ends, an unload does not publish the name again. */
  lemma {:induction false} UnloadKeepsItOut(s: State, run: seq<Step>, t: nat)
    requires Inv(s) && Until(s, run, t) && s.tasks[t].op.Unload? && s.tasks[t].op.name !in s.runtimes
    ensures Exec(s, run).Some? && Exec(s, run).value.runtimes == s.runtimes
    decreases |run|
  {
    assert s.lock == Some(t);
    UntilRuns(s, run, t);
    StepInv(s, run[0]);
    UnloadStep(s, run[0], t);
    SameOp(s, run[0], t);
    hide Inv, Next, Enabled;
    var s1 := Next(s, run[0]);
    if |run| == 1 {
      assert run[1..] == [] && Exec(s1, []) == Some(s1);
    } else {
      UnloadKeepsItOut(s1, run[1..], t);
    }
  }
}
