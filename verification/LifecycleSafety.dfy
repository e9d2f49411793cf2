/** Safety of the lifecycle protocol in every reachable state. */
module LifecycleSafety {
  import opened Text
  import opened Commands
  import opened Context
  import opened ContextLaws
  import opened Lifecycle
  import opened LifecycleInv
  import opened LifecycleSteps

  /** Some run from a fresh manager, over the given core commands and foreign handlers, ends in `s`. */
  ghost predicate Reaches(core: Table, foreign: multiset<Handler>, steps: seq<Step>, s: State) {
    InitialTables(core, foreign) && Exec(Init(core, foreign), steps) == Some(s)
  }

  lemma ReachableInv(core: Table, foreign: multiset<Handler>, steps: seq<Step>, s: State)
    requires Reaches(core, foreign, steps, s)
    ensures Inv(s)
  {
    RunInv(Init(core, foreign), steps);
  }

  /** The context published under a name, if there is one. */
  ghost predicate PublishedFor(s: State, plugin: string, c: nat) {
    Lookup(s.runtimes, plugin) == Some(c) && c in s.ctxs && s.ctxs[c].plugin == plugin
  }

  /** A row or handler of a plugin belongs to the generation published under its name. */
  ghost predicate NoZombie(s: State) {
    && (forall key :: key in s.world.table && s.world.table[key].plugin != CORE ==>
          exists c :: PublishedFor(s, s.world.table[key].plugin, c) && s.ctxs[c].active
                      && Named(s.ctxs[c].activeNames, key)
                      && Contributed(s.ctxs[c].commands, s.ctxs[c].plugin, key, s.world.table[key]))
    && (forall h :: h in s.world.live && h.Guarded? ==>
          && h.ctx in s.ctxs && PublishedFor(s, s.ctxs[h.ctx].plugin, h.ctx)
          && s.world.live[h] == 1 && h in s.ctxs[h.ctx].wrappers)
  }

  /**
   * No zombies: whenever the manager lock is free, after any interleaving of loads, reloads,
   * unloads, failures, cancellations and registrations, everything a plugin has live belongs to
   * its published generation.
   */
  lemma NoZombies(core: Table, foreign: multiset<Handler>, steps: seq<Step>, s: State)
    requires Reaches(core, foreign, steps, s) && s.lock.None?
    ensures NoZombie(s)
  {
    ReachableInv(core, foreign, steps, s);
    forall key | key in s.world.table && s.world.table[key].plugin != CORE
      ensures exists c :: PublishedFor(s, s.world.table[key].plugin, c) && s.ctxs[c].active
                          && Named(s.ctxs[c].activeNames, key)
                          && Contributed(s.ctxs[c].commands, s.ctxs[c].plugin, key, s.world.table[key])
    {
      var c :| LiveAs(s.ctxs, c, s.world.table[key].plugin);
      assert RowsAccounted(s.world.table, s.ctxs[c]);
      assert PublishedFor(s, s.world.table[key].plugin, c);
    }
    forall h | h in s.world.live && h.Guarded?
      ensures h.ctx in s.ctxs && PublishedFor(s, s.ctxs[h.ctx].plugin, h.ctx)
              && s.world.live[h] == 1 && h in s.ctxs[h.ctx].wrappers
    {
      OwnerIsActive(s, h);
    }
  }

  lemma OwnerIsActive(s: State, h: Handler)
    requires Inv(s) && h in s.world.live && h.Guarded?
    ensures h.ctx in s.ctxs && s.ctxs[h.ctx].active && s.world.live[h] == 1 && h in s.ctxs[h.ctx].wrappers
  {
    assert CtxValid(s.world, s.ctxs[h.ctx]);
  }

  /** Everything `plugin` has live comes from context `c`. */
  ghost predicate SoleGeneration(s: State, plugin: string, c: nat) {
    && LiveAs(s.ctxs, c, plugin)
    && (forall key :: key in s.world.table && s.world.table[key].plugin == plugin ==>
          Contributed(s.ctxs[c].commands, plugin, key, s.world.table[key]))
    && (forall h :: h in s.world.live && h.Guarded? && CtxOf(s, h.ctx, plugin) ==> h.ctx == c)
  }

  /**
   * At every moment, also in the middle of a reload, all the rows and handlers one plugin has
   * live come from a single generation, and other owners' rows are never touched.
   */
  lemma OneGenerationAtATime(core: Table, foreign: multiset<Handler>, steps: seq<Step>, s: State, plugin: string)
    requires Reaches(core, foreign, steps, s) && plugin != CORE
    ensures Absent(s.world.table, plugin) || exists c :: SoleGeneration(s, plugin, c)
  {
    ReachableInv(core, foreign, steps, s);
    if !Absent(s.world.table, plugin) {
      var key :| key in s.world.table && s.world.table[key].plugin == plugin;
      var c :| LiveAs(s.ctxs, c, plugin);
      assert RowsAccounted(s.world.table, s.ctxs[c]);
      forall h | h in s.world.live && h.Guarded? && CtxOf(s, h.ctx, plugin) ensures h.ctx == c {
        OwnerIsActive(s, h);
        assert LiveAs(s.ctxs, h.ctx, plugin);
      }
      assert SoleGeneration(s, plugin, c);
    }
  }

  predicate InOpOf(s: State, t: nat, u: nat) {
    && t in s.tasks && u in s.tasks && InOp(s.tasks[t]) && InOp(s.tasks[u])
    && s.tasks[t].op.name == s.tasks[u].op.name
  }

  /** Load and unload bodies exclude each other, per-name locks have one holder, and `_idle` says nobody is inside. */
  lemma BodiesExcludeEachOther(core: Table, foreign: multiset<Handler>, steps: seq<Step>, s: State)
    requires Reaches(core, foreign, steps, s)
    ensures forall t, u :: t in s.tasks && u in s.tasks && s.tasks[t].pc.Body? && s.tasks[u].pc.Body? ==> t == u
    ensures forall t, u :: InOpOf(s, t, u) ==> t == u
    ensures s.inflight == |set t | t in s.tasks && InOp(s.tasks[t])|
    ensures s.idle <==> forall t :: t in s.tasks ==> !InOp(s.tasks[t])
  {
    ReachableInv(core, foreign, steps, s);
    var inside := set t | t in s.tasks && InOp(s.tasks[t]);
    CountInside(s.tasks, s.opLocks, inside);
    assert s.idle <==> inside == {};
    if s.idle { forall t | t in s.tasks ensures !InOp(s.tasks[t]) { assert t !in inside; } }
    if forall t :: t in s.tasks ==> !InOp(s.tasks[t]) { assert inside == {}; }
  }

  /** The per-name locks are in one-to-one correspondence with the tasks past them. */
  lemma CountInside(tasks: map<nat, Task>, opLocks: map<string, nat>, inside: set<nat>)
    requires OpsOk(tasks, opLocks) && inside == set t | t in tasks && InOp(tasks[t])
    ensures |inside| == |opLocks|
    decreases |opLocks|
  {
    if opLocks != map[] {
      var n :| n in opLocks;
      var t := opLocks[n];
      LeaveKeepsOps(tasks, opLocks, t, Cancelled);
      var tasks' := tasks[t := tasks[t].(pc := Done(Cancelled))];
      assert (set u | u in tasks' && InOp(tasks'[u])) == inside - {t};
      CountInside(tasks', opLocks - {n}, inside - {t});
      assert inside == (inside - {t}) + {t};
    } else {
      forall t | t in tasks ensures !InOp(tasks[t]) {
        if InOp(tasks[t]) { assert false; }
      }
      assert inside == {};
    }
  }

  /** Task `t` alone, `n` suspensions in a row going well. */
  function Undisturbed(t: nat, n: nat): seq<Step> {
    if n == 0 then [] else [Advance(t, Goes, {})] + Undisturbed(t, n - 1)
  }

  /**
   * The inclusion is not an equality. When recording a load fails after the new generation was
   * published, the rollback stops that generation and cannot bring the previous one back: if
   * nothing else interferes the load ends with the name published, stopped and silent.
   */
  lemma FailedRecordingLeavesItPublishedButStopped(s: State, t: nat, prev: Option<nat>, c: nat, outcome: Outcome)
    returns (n: nat, s': State)
    requires Inv(s) && s.lock == Some(t) && s.tasks[t].pc == Body(Recording(prev, c))
    requires outcome.Raises? || outcome.IsCancelled?
    requires !s.ctxs[c].stopped
    ensures Exec(s, [Advance(t, outcome, {})] + Undisturbed(t, n)) == Some(s')
    ensures s'.lock.None? && PublishedFor(s', s.tasks[t].op.name, c) && !s'.ctxs[c].active && s'.ctxs[c].stopped
  {
    assert PhaseOk(s, s.tasks[t].op, Recording(prev, c)) && RuntimesOk(s, None);
    PrevIsNotPublished(s, s.tasks[t].op.name, prev, c);
    hide Inv, RuntimesOk, Leads;
    var go := Advance(t, Goes, {});
    var undo := Undo(prev, Some(c), prev.Some?, false, outcome.IsCancelled?, 1);
    var s1, s2, s3 := UndoSteps(s, t, undo, c);
    RecordingFails(s, t, prev, c, outcome, s1);
    var s4, s5 := LastSteps(s3, t, undo);
    s', n := s5, if outcome.Raises? then 4 else 3;
    ChainUndo(s, Advance(t, outcome, {}), t, s1, s2, s3, s4, s5, outcome.Raises?);
  }

  lemma ChainUndo(s: State, first: Step, t: nat, s1: State, s2: State, s3: State, s4: State, s5: State, recorded: bool)
    requires Leads(s, first, s1) && Leads(s1, Advance(t, Goes, {}), s2) && Leads(s2, Advance(t, Goes, {}), s3)
    requires if recorded then Leads(s3, Advance(t, Goes, {}), s4) && Leads(s4, Advance(t, Goes, {}), s5)
             else Leads(s3, Advance(t, Goes, {}), s5)
    ensures Exec(s, [first] + Undisturbed(t, if recorded then 4 else 3)) == Some(s5)
  {
    assert Exec(s5, Undisturbed(t, 0)) == Some(s5);
    hide Leads, Exec;
    var go := Advance(t, Goes, {});
    var n := if recorded then 4 else 3;
    if recorded {
      ExecLink(s4, go, s5, Undisturbed(t, 0), s5);
      ExecLink(s3, go, s4, Undisturbed(t, 1), s5);
    } else {
      ExecLink(s3, go, s5, Undisturbed(t, 0), s5);
    }
    ExecLink(s2, go, s3, Undisturbed(t, n - 2), s5);
    ExecLink(s1, go, s2, Undisturbed(t, n - 1), s5);
    ExecLink(s, first, s1, Undisturbed(t, n), s5);
  }

  lemma RecordingFails(s: State, t: nat, prev: Option<nat>, c: nat, outcome: Outcome, s1: State)
    requires t in s.tasks && s.tasks[t].op.Load? && s.tasks[t].pc == Body(Recording(prev, c)) && c in s.ctxs
    requires (outcome.Raises? || outcome.IsCancelled?) && (prev.Some? ==> prev.value in s.ctxs)
    requires s1 == Suspend(s, t, RollbackPending(Undo(prev, Some(c), prev.Some?, false, outcome.IsCancelled?, 1)))
    ensures Leads(s, Advance(t, outcome, {}), s1)
  {}

  /** The end of a rollback that has nothing to put back. */
  lemma LastSteps(s3: State, t: nat, undo: Undo) returns (s4: State, s5: State)
    requires t in s3.tasks && s3.tasks[t].op.Load? && s3.tasks[t].pc == Body(RollingBack(undo, true))
    requires undo.ctx.Some? && undo.ctx.value in s3.ctxs && undo.attempts == 1
    requires undo.prev.Some? ==> undo.prev.value in s3.ctxs && undo.prev.value !in s3.runtimes.Values
    ensures if undo.cancelled then Leads(s3, Advance(t, Goes, {}), s5)
            else Leads(s3, Advance(t, Goes, {}), s4) && Leads(s4, Advance(t, Goes, {}), s5)
    ensures s5.lock.None? && s5.runtimes == s3.runtimes && s5.ctxs == s3.ctxs
  {
    s4 := Suspend(s3, t, RecordingFailure);
    s5 := if undo.cancelled then Leave(s3, t, Cancelled) else Leave(s4, t, Failed);
  }

  lemma PrevIsNotPublished(s: State, name: string, prev: Option<nat>, c: nat)
    requires forall n :: n in s.runtimes ==> CtxOf(s, s.runtimes[n], n)
    requires PrevOf(s, prev, name) && Lookup(s.runtimes, name) == Some(c) && prev != Some(c)
    ensures prev.Some? ==> prev.value !in s.runtimes.Values
  {
    if prev.Some? {
      forall n | n in s.runtimes ensures s.runtimes[n] != prev.value { assert CtxOf(s, s.runtimes[n], n); }
    }
  }

  lemma UndoSteps(s: State, t: nat, undo: Undo, c: nat) returns (s1: State, s2: State, s3: State)
    requires t in s.tasks && s.tasks[t].op.Load? && undo.ctx == Some(c) && c in s.ctxs && !s.ctxs[c].stopped
    requires undo.prev.Some? ==> undo.prev.value in s.ctxs
    ensures s1 == Suspend(s, t, RollbackPending(undo))
    ensures Leads(s1, Advance(t, Goes, {}), s2) && Leads(s2, Advance(t, Goes, {}), s3)
    ensures s3.tasks == s.tasks[t := s.tasks[t].(pc := Body(RollingBack(undo, true)))] && s3.lock == Some(t)
    ensures s3.runtimes == s.runtimes && s3.ctxs.Keys == s.ctxs.Keys
    ensures !s3.ctxs[c].active && s3.ctxs[c].stopped && s3.ctxs[c].plugin == s.ctxs[c].plugin
  {
    s1 := Suspend(s, t, RollbackPending(undo));
    s2 := Suspend(SwitchOff(s1, c), t, RollingBack(undo, false));
    s3 := Suspend(MarkStopped(s2, c), t, RollingBack(undo, true));
  }
}
