/**
 * The converse of `ShutdownIsFinal`: a first load that is past the flag check when the flag goes up,
 * and that the tables would take, can publish its plugin and leave it live after `shutdown` has
 * returned. Together: `shutdown` is final under every schedule exactly if there is no such load.
 */
module LifecycleShutdownGap {
  import opened Text
  import opened Commands
  import opened Context
  import opened Lifecycle
  import opened LifecycleInv
  import opened LifecycleSteps
  import opened LifecycleProgress
  import opened LifecycleShutdown

  /** `name` is published, and its context `c` is switched on. */
  predicate Up(s: State, name: string, c: nat) {
    Lookup(s.runtimes, name) == Some(c) && CtxOf(s, c, name) && s.ctxs[c].active
  }

  predicate SameShutdown(s: State, s': State) {
    s'.shuttingDown == s.shuttingDown && s'.shutdown == s.shutdown
  }

  // ---------------------------------------------------------------- the load goes through

  lemma BuildStep(s: State, t: nat) returns (s': State)
    requires Inv(s) && WillPublish(s, t) && s.tasks[t].pc == Body(BuildingContext(None))
    ensures Leads(s, Advance(t, Goes, {}), s') && Inv(s') && WillPublish(s', t) && s'.tasks[t].pc.phase.Preparing?
    ensures SameShutdown(s, s') && s'.tasks[t].op == s.tasks[t].op && Closer(s, s', t)
  {
    s' := Build(s, t, None);
    StepInv(s, Advance(t, Goes, {}));
    StepIsCloser(s, Advance(t, Goes, {}), t);
    NewContextActivates(s.world, s.nextCtx, s.tasks[t].op.name);
    hide Inv, Activated;
  }

  /** A context with nothing buffered always goes live. */
  lemma NewContextActivates(w: World, id: nat, plugin: string)
    ensures Activated(w, NewCtx(id, plugin), {}).ok
  {}

  lemma PublishStep(s: State, t: nat) returns (s': State, c: nat)
    requires Inv(s) && WillPublish(s, t) && s.tasks[t].pc.phase.Preparing?
    ensures Leads(s, Advance(t, Goes, {}), s') && Inv(s') && Up(s', s.tasks[t].op.name, c)
    ensures s'.tasks[t].pc == Body(Recording(None, c)) && s'.lock == Some(t)
    ensures SameShutdown(s, s') && s'.tasks[t].op == s.tasks[t].op && Closer(s, s', t)
  {
    c := s.tasks[t].pc.phase.ctx;
    s' := Suspend(Publish(SwitchOn(s, c, {}), t, c), t, Recording(None, c));
    HolderPhase(s);
    PublishLeads(s, t, c);
    FirstHalf(s, t, None, c);
    SwitchOnHeld(s, t, c, {});
    hide Inv, Held, RuntimesOk, SwitchOn, Accepts, Next, Enabled, Closer;
    StepInv(s, Advance(t, Goes, {}));
    StepIsCloser(s, Advance(t, Goes, {}), t);
  }

  lemma PublishLeads(s: State, t: nat, c: nat)
    requires t in s.tasks && s.tasks[t].op.Load? && s.tasks[t].pc == Body(Preparing(None, c))
    requires c in s.ctxs && Accepts(s, c, {})
    ensures Leads(s, Advance(t, Goes, {}), Suspend(Publish(SwitchOn(s, c, {}), t, c), t, Recording(None, c)))
  {
    hide SwitchOn, Accepts, Suspend, Publish;
  }

  lemma RecordedStep(s: State, t: nat, name: string, c: nat) returns (s': State)
    requires Inv(s) && s.lock == Some(t) && s.tasks[t].pc == Body(Recording(None, c)) && s.tasks[t].op.Load?
    requires Up(s, name, c)
    ensures Leads(s, Advance(t, Goes, {}), s') && Inv(s') && Up(s', name, c) && s'.lock.None?
    ensures SameShutdown(s, s') && Closer(s, s', t)
  {
    HolderPhase(s);
    s' := Leave(s, t, Loaded);
    RecordedLeads(s, t, c);
    hide Inv, Held, Next, Enabled, Closer;
    StepInv(s, Advance(t, Goes, {}));
    StepIsCloser(s, Advance(t, Goes, {}), t);
  }

  lemma RecordedLeads(s: State, t: nat, c: nat)
    requires t in s.tasks && s.tasks[t].op.Load? && s.tasks[t].pc == Body(Recording(None, c)) && c in s.ctxs
    ensures Leads(s, Advance(t, Goes, {}), Leave(s, t, Loaded))
  {
    hide Leave;
  }

  /** Undisturbed, a first load past the check publishes its plugin and releases the lock. */
  lemma LoadGoesThrough(s: State, t: nat) returns (run: seq<Step>, s': State, c: nat)
    requires Inv(s) && WillPublish(s, t)
    ensures Exec(s, run) == Some(s') && Inv(s') && Up(s', s.tasks[t].op.name, c) && s'.lock.None?
    ensures SameShutdown(s, s') && s'.tasks.Keys == s.tasks.Keys
    ensures forall u :: u in s.tasks && u != t ==> s'.tasks[u] == s.tasks[u]
    decreases Rank(s.tasks[t].pc)
  {
    var go := Advance(t, Goes, {});
    hide Inv, Leads, Exec;
    match s.tasks[t].pc.phase
    case LoadingModule(_) =>
      var s1 := Suspend(s, t, BuildingContext(None));
      ToBuildingStep(s, t);
      var rest;
      rest, s', c := LoadGoesThrough(s1, t);
      ExecLink(s, go, s1, rest, s');
      run := [go] + rest;
    case BuildingContext(_) =>
      var s1 := BuildStep(s, t);
      var rest;
      rest, s', c := LoadGoesThrough(s1, t);
      ExecLink(s, go, s1, rest, s');
      run := [go] + rest;
    case Preparing(_, _) =>
      var s1;
      s1, c := PublishStep(s, t);
      s' := RecordedStep(s1, t, s.tasks[t].op.name, c);
      ExecNothing(s');
      ExecLink(s1, go, s', [], s');
      ExecLink(s, go, s1, [go] + [], s');
      run := [go] + ([go] + []);
  }

  lemma ToBuildingStep(s: State, t: nat)
    requires Inv(s) && WillPublish(s, t) && s.tasks[t].pc == Body(LoadingModule(None))
    ensures var s' := Suspend(s, t, BuildingContext(None));
            Leads(s, Advance(t, Goes, {}), s') && Inv(s') && WillPublish(s', t)
  {
    StepInv(s, Advance(t, Goes, {}));
    hide Inv;
  }

  // ---------------------------------------------------------------- the other plugins are unloaded

  /** `u` operates on another name and can run its body to the end from here. */
  predicate CanRun(s: State, u: nat, name: string) {
    && u in s.tasks && s.tasks[u].op.TakesOp() && s.tasks[u].op.name != name
    && match s.tasks[u].pc
       case WaitLock => s.lock.None?
       case Body(phase) => s.lock == Some(u) && (phase.Removing? || phase.RecordingUnload?)
       case Done(_) => s.lock.None?
       case _ => false
  }

  /** `name` stays up, the shutdown is where it was, and `u` can go on or is done. */
  predicate Runs(s: State, s': State, u: nat, name: string, c: nat) {
    Up(s', name, c) && CanRun(s', u, name) && SameShutdown(s, s')
  }

  lemma LeaveRuns(s: State, u: nat, ending: Ending, name: string, c: nat)
    requires Up(s, name, c) && u in s.tasks && s.tasks[u].op.TakesOp() && s.tasks[u].op.name != name
    ensures Runs(s, Leave(s, u, ending), u, name, c)
  {}

  lemma SuspendRuns(s: State, s1: State, u: nat, phase: Phase, name: string, c: nat)
    requires Up(s1, name, c) && u in s.tasks && s.tasks[u].op.TakesOp() && s.tasks[u].op.name != name
    requires s1.tasks == s.tasks && SameShutdown(s, s1) && (phase.Removing? || phase.RecordingUnload?)
    ensures Runs(s, Suspend(s1, u, phase), u, name, c)
  {}

  lemma OtherRuntime(s: State, name: string, c: nat, m: string)
    requires RuntimesOk(s, None) && Up(s, name, c) && m in s.runtimes && m != name
    ensures CtxOf(s, s.runtimes[m], m) && s.runtimes[m] != c
  {}

  lemma StartUnloadRuns(s: State, u: nat, name: string, c: nat)
    requires Held(s, u) && RuntimesOk(s, None) && Up(s, name, c)
    requires s.tasks[u].op.Unload? && s.tasks[u].op.name != name && s.tasks[u].op.name in s.runtimes
    ensures s.runtimes[s.tasks[u].op.name] in s.ctxs
    ensures Runs(s, StartUnload(s, u, s.tasks[u].op.name), u, name, c)
  {
    var m := s.tasks[u].op.name;
    var d := s.runtimes[m];
    OtherRuntime(s, name, c, m);
    var popped := s.(runtimes := s.runtimes - {m});
    assert Held(popped, u);
    hide Held, RuntimesOk, SwitchOff;
    SwitchOffHeld(popped, u, d);
    var s1 := SwitchOff(popped, d);
    assert Lookup(popped.runtimes, name) == Lookup(s.runtimes, name);
    assert s1.ctxs[c] == popped.ctxs[c];
    assert Up(s1, name, c);
    hide Up;
    SuspendRuns(s, s1, u, Removing(d, s1.ctxs[d].stopped), name, c);
  }

  lemma EnterRemoval(s: State, u: nat, name: string, c: nat)
    requires Inv(s) && s.shuttingDown && Up(s, name, c) && CanRun(s, u, name) && s.tasks[u].pc.WaitLock?
    ensures Enabled(s, TakeLock(u)) && Runs(s, Enter(s, u), u, name, c)
  {
    assert Held(s, u) && RuntimesOk(s, None);
    assert forall n :: n in s.runtimes ==> CtxOf(s, s.runtimes[n], n);
    hide Inv, Held, RuntimesOk, Runs, StartUnload, Leave;
    if s.tasks[u].op.Load? {
      LeaveRuns(s, u, Failed, name, c);
    } else if s.tasks[u].op.name in s.runtimes {
      StartUnloadRuns(s, u, name, c);
    } else {
      LeaveRuns(s, u, Unloaded, name, c);
    }
  }

  lemma BodyRemoval(s: State, u: nat, name: string, c: nat)
    requires Inv(s) && Up(s, name, c) && CanRun(s, u, name) && s.tasks[u].pc.Body?
    ensures Enabled(s, Advance(u, Goes, {})) && Runs(s, Next(s, Advance(u, Goes, {})), u, name, c)
  {
    assert u in s.tasks && s.tasks[u].op.TakesOp() && s.tasks[u].op.name != name;
    assert s.tasks[u].pc.phase.Removing? || s.tasks[u].pc.phase.RecordingUnload?;
    RemovalIsPossible(s, u, name, c);
    NextRemoval(s, u);
    hide Next, Resume, CanRun, Enabled, Up, Swap, Build, Retire, FailEarly, StartUndo, ContinueUndo, Record;
    hide Inv, Runs, Leave, Suspend, Remove;
    match s.tasks[u].pc.phase
    case Removing(d, closing) => RemoveRuns(s, u, d, closing, name, c);
    case RecordingUnload => LeaveRuns(s, u, Unloaded, name, c);
  }

  lemma NextRemoval(s: State, u: nat)
    requires Enabled(s, Advance(u, Goes, {}))
    ensures var s' := Next(s, Advance(u, Goes, {}));
            match s.tasks[u].pc.phase
            case Removing(d, closing) => s' == Remove(s, u, d, closing, Goes)
            case RecordingUnload => s' == Leave(s, u, Unloaded)
            case _ => true
  {}

  lemma RemovalIsPossible(s: State, u: nat, name: string, c: nat)
    requires Inv(s) && Up(s, name, c) && CanRun(s, u, name) && s.tasks[u].pc.Body?
    ensures Enabled(s, Advance(u, Goes, {}))
    ensures var phase := s.tasks[u].pc.phase; phase.Removing? ==> phase.ctx in s.ctxs && phase.ctx != c
  {
    assert s.lock == Some(u);
    HolderPhase(s);
    hide Inv, Held, RuntimesOk;
  }

  lemma RemoveRuns(s: State, u: nat, d: nat, closing: bool, name: string, c: nat)
    requires Up(s, name, c) && u in s.tasks && s.tasks[u].op.TakesOp() && s.tasks[u].op.name != name
    requires d in s.ctxs && d != c
    ensures Runs(s, Remove(s, u, d, closing, Goes), u, name, c)
  {
    if closing {
      SuspendRuns(s, s, u, RecordingUnload, name, c);
    } else {
      SuspendRuns(s, MarkStopped(s, d), u, Removing(d, true), name, c);
    }
  }

  lemma RemovalStep(s: State, u: nat, name: string, c: nat) returns (step: Step, s': State)
    requires Inv(s) && s.shuttingDown && Up(s, name, c) && CanRun(s, u, name) && !s.tasks[u].pc.Done?
    ensures Leads(s, step, s') && Inv(s') && Up(s', name, c) && CanRun(s', u, name)
    ensures SameShutdown(s, s') && Closer(s, s', u)
  {
    hide Inv, Closer, Enter, Resume;
    if s.tasks[u].pc.WaitLock? {
      step := TakeLock(u);
      EnterRemoval(s, u, name, c);
    } else {
      step := Advance(u, Goes, {});
      BodyRemoval(s, u, name, c);
    }
    s' := Next(s, step);
    StepInv(s, step);
    StepIsCloser(s, step, u);
  }

  lemma FinishTask(s: State, u: nat, name: string, c: nat) returns (run: seq<Step>, s': State)
    requires Inv(s) && s.shuttingDown && Up(s, name, c) && CanRun(s, u, name)
    ensures Exec(s, run) == Some(s') && Inv(s') && Up(s', name, c) && s'.lock.None?
    ensures SameShutdown(s, s') && s'.tasks.Keys == s.tasks.Keys && s'.tasks[u].pc.Done?
    ensures s'.tasks[u].op == s.tasks[u].op
    ensures forall t :: t in s.tasks && t != u ==> s'.tasks[t] == s.tasks[t]
    decreases Rank(s.tasks[u].pc)
  {
    hide Inv, Leads, Exec, Up;
    if s.tasks[u].pc.Done? {
      ExecNothing(s);
      run, s' := [], s;
    } else {
      var step, s1 := RemovalStep(s, u, name, c);
      var rest;
      rest, s' := FinishTask(s1, u, name, c);
      ExecLink(s, step, s1, rest, s');
      run := [step] + rest;
    }
  }

  /** Whoever holds the lock of `m` is brought to its end, so that the lock is free. */
  lemma FreeLock(s: State, m: string, name: string, c: nat) returns (run: seq<Step>, s': State)
    requires Inv(s) && s.shuttingDown && s.lock.None? && Up(s, name, c) && m != name
    ensures Exec(s, run) == Some(s') && Inv(s') && Up(s', name, c) && s'.lock.None? && m !in s'.opLocks
    ensures SameShutdown(s, s') && s'.tasks.Keys == s.tasks.Keys
    ensures forall u :: u in s.tasks && !InOp(s.tasks[u]) ==> s'.tasks[u] == s.tasks[u]
  {
    if m in s.opLocks {
      var holder := s.opLocks[m];
      assert InOp(s.tasks[holder]) && s.tasks[holder].op.name == m && s.tasks[holder].pc.WaitLock?;
      run, s' := FinishTask(s, holder, name, c);
      LockIsFree(s, s', m);
    } else {
      ExecNothing(s);
      run, s' := [], s;
    }
  }

  /** Once its holder is done, the lock of `m` is free: nobody else was past the wait for it. */
  lemma LockIsFree(s: State, s': State, m: string)
    requires Inv(s) && Inv(s') && s'.tasks.Keys == s.tasks.Keys
    requires m in s.opLocks && s'.tasks[s.opLocks[m]].pc.Done?
    requires forall u :: u in s.tasks && u != s.opLocks[m] ==> s'.tasks[u] == s.tasks[u]
    ensures m !in s'.opLocks
  {
    var holder := s.opLocks[m];
    assert forall u :: u in s.tasks && InOp(s.tasks[u]) && s.tasks[u].op.name == m ==> u == holder;
    assert forall u :: u in s'.tasks && InOp(s'.tasks[u]) ==> s'.tasks[u].op.name != m;
  }

  lemma UnloadTakesOp(s: State, t: nat, name: string, c: nat) returns (s': State)
    requires Inv(s) && s.lock.None? && Up(s, name, c)
    requires t in s.tasks && s.tasks[t].pc.WaitOp? && s.tasks[t].op.Unload? && s.tasks[t].op.name != name
    requires s.tasks[t].op.name !in s.opLocks
    ensures Leads(s, TakeOp(t), s') && Inv(s') && Up(s', name, c) && CanRun(s', t, name) && SameShutdown(s, s')
    ensures s'.tasks == s.tasks[t := s.tasks[t].(pc := WaitLock)]
  {
    hide Inv;
    s' := EnterOp(s, t);
    TakeOpInv(s, t);
  }

  /** The gathered unload `t` of another plugin runs to its end. */
  lemma DrainChild(s: State, t: nat, name: string, c: nat) returns (run: seq<Step>, s': State)
    requires Inv(s) && s.shuttingDown && s.lock.None? && Up(s, name, c)
    requires t in s.tasks && s.tasks[t].pc.WaitOp? && s.tasks[t].op.Unload? && s.tasks[t].op.name != name
    ensures Exec(s, run) == Some(s') && Inv(s') && Up(s', name, c) && s'.lock.None?
    ensures SameShutdown(s, s') && s'.tasks.Keys == s.tasks.Keys
    ensures s'.tasks[t].pc.Done? && s'.tasks[t].op == s.tasks[t].op
    ensures forall u :: u in s.tasks && u != t && !InOp(s.tasks[u]) ==> s'.tasks[u] == s.tasks[u]
  {
    hide Inv, Exec, Leads, Up, LocksOk;
    var first, s1 := FreeLock(s, s.tasks[t].op.name, name, c);
    var s2 := UnloadTakesOp(s1, t, name, c);
    var last;
    last, s' := FinishTask(s2, t, name, c);
    ExecLink(s1, TakeOp(t), s2, last, s');
    ExecAppend(s, first, [TakeOp(t)] + last);
    run := first + ([TakeOp(t)] + last);
  }

  /** The gathered unloads are waiting or finished, and none of them is for `name`. */
  ghost predicate Gathered(s: State, children: map<nat, string>, name: string) {
    && s.shutdown == Gathering(children) && s.shuttingDown
    && forall t :: t in children ==>
         && t in s.tasks && s.tasks[t].op.Unload? && s.tasks[t].op.name != name
         && (s.tasks[t].pc.WaitOp? || s.tasks[t].pc.Done?)
  }

  function Unfinished(s: State, children: map<nat, string>): set<nat> {
    set t | t in children && !(t in s.tasks && s.tasks[t].pc.Done?)
  }

  /** All gathered unloads can run to their end while `name` stays up. */
  lemma {:induction false} DrainAll(s: State, children: map<nat, string>, name: string, c: nat)
    returns (run: seq<Step>, s': State)
    requires Inv(s) && s.lock.None? && Up(s, name, c) && Gathered(s, children, name)
    ensures Exec(s, run) == Some(s') && Inv(s') && Up(s', name, c) && Gathered(s', children, name)
    ensures Unfinished(s', children) == {}
    decreases |Unfinished(s, children)|
  {
    hide Inv, Exec, Up, InOp;
    if t :| t in Unfinished(s, children) {
      var first, s1 := DrainChild(s, t, name, c);
      StillGathered(s, s1, children, name, t);
      var rest;
      rest, s' := DrainAll(s1, children, name, c);
      ExecAppend(s, first, rest);
      run := first + rest;
    } else {
      ExecNothing(s);
      run, s' := [], s;
    }
  }

  lemma StillGathered(s: State, s1: State, children: map<nat, string>, name: string, t: nat)
    requires Gathered(s, children, name) && t in Unfinished(s, children)
    requires SameShutdown(s, s1) && s1.tasks.Keys == s.tasks.Keys && s1.tasks[t].pc.Done?
    requires s1.tasks[t].op == s.tasks[t].op
    requires forall u :: u in s.tasks && u != t && !InOp(s.tasks[u]) ==> s1.tasks[u] == s.tasks[u]
    ensures Gathered(s1, children, name) && |Unfinished(s1, children)| < |Unfinished(s, children)|
  {
    forall u | u in children && u != t ensures s1.tasks[u] == s.tasks[u] {
      assert !InOp(s.tasks[u]);
    }
    assert Unfinished(s1, children) == Unfinished(s, children) - {t};
  }

  // ---------------------------------------------------------------- the counterexample

  lemma {:induction false} IdsAbove(ids: set<nat>) returns (bound: nat)
    ensures forall t :: t in ids ==> t < bound
    decreases |ids|
  {
    if ids == {} { return 0; }
    var t :| t in ids;
    var rest := IdsAbove(ids - {t});
    bound := if rest <= t then t + 1 else rest;
    forall u | u in ids ensures u < bound {
      if u != t { assert u in ids - {t}; }
    }
  }

  /** Task ids for one unload per name, none of them taken yet. */
  lemma {:induction false} FreshChildren(names: set<string>, bound: nat) returns (children: map<nat, string>)
    ensures children.Values == names && forall t :: t in children ==> t >= bound
    ensures forall t, u :: t in children && u in children && children[t] == children[u] ==> t == u
    decreases |names|
  {
    if names == {} { return map[]; }
    var n :| n in names;
    var rest := FreshChildren(names - {n}, bound + 1);
    children := rest[bound := n];
    assert children.Values == rest.Values + {n} by {
      assert children[bound] == n;
      forall m | m in rest.Values ensures m in children.Values {
        var t :| t in rest && rest[t] == m;
        assert children[t] == m;
      }
    }
    forall t, u | t in children && u in children && children[t] == children[u] ensures t == u {
      if t != bound { assert rest[t] in rest.Values; }
      if u != bound { assert rest[u] in rest.Values; }
    }
  }

  /** From the flag to the gathering of the unloads, without disturbing the load. */
  lemma RaiseAndGather(s: State, t: nat) returns (run: seq<Step>, s': State, children: map<nat, string>)
    requires Inv(s) && WillPublish(s, t) && s.shutdown.NotCalled?
    ensures Exec(s, [BeginShutdown] + run) == Some(s') && Inv(s') && WillPublish(s', t) && s'.tasks[t] == s.tasks[t]
    ensures if s.runtimes == map[] then s'.shutdown.Returned?
            else t !in children && Gathered(s', children, s.tasks[t].op.name)
  {
    var s1 := RaiseFlag(s);
    FlagStepInv(s, BeginShutdown);
    StillPublishes(s, s1, t);
    assert Leads(s, BeginShutdown, s1) && t in s.tasks;
    hide Inv, WillPublish, Leads, Exec, Gathered;
    children := map[];
    run, s' := [], s1;
    if s.runtimes == map[] {
      ExecNothing(s1);
    } else {
      s', children := Gather(s1, t);
      run := [Snapshot(children)];
    }
    ExecLink(s, BeginShutdown, s1, run, s');
  }

  lemma Gather(s: State, t: nat) returns (s': State, children: map<nat, string>)
    requires Inv(s) && WillPublish(s, t) && s.shutdown.WaitingIdle? && s.shuttingDown
    ensures Exec(s, [Snapshot(children)]) == Some(s') && Inv(s') && WillPublish(s', t) && s'.tasks[t] == s.tasks[t]
    ensures t !in children && Gathered(s', children, s.tasks[t].op.name)
  {
    var bound := IdsAbove(s.tasks.Keys);
    children := FreshChildren(s.runtimes.Keys, bound);
    s' := SpawnChildren(s, children);
    hide Inv, WillPublish, Leads, Exec, Gathered;
    GatherStep(s, s', children, t);
    ExecNothing(s');
    ExecLink(s, Snapshot(children), s', [], s');
    assert [Snapshot(children)] + [] == [Snapshot(children)];
  }

  lemma GatherStep(s: State, s': State, children: map<nat, string>, t: nat)
    requires Inv(s) && WillPublish(s, t) && s.shutdown.WaitingIdle? && s.shuttingDown
    requires children.Values == s.runtimes.Keys && forall u :: u in children ==> u !in s.tasks
    requires forall u, v :: u in children && v in children && children[u] == children[v] ==> u == v
    requires s' == SpawnChildren(s, children)
    ensures Leads(s, Snapshot(children), s') && Inv(s') && WillPublish(s', t) && s'.tasks[t] == s.tasks[t]
    ensures t !in children && Gathered(s', children, s.tasks[t].op.name)
  {
    SnapshotLeads(s, children);
    FreshNameIsNotPublished(s, t);
    assert t in s.tasks && t !in children;
    hide Inv, WillPublish, Leads;
    ChildrenAreGathered(s, children, s.tasks[t].op.name);
    StillPublishes(s, s', t);
  }

  lemma SnapshotLeads(s: State, children: map<nat, string>)
    requires Inv(s) && s.shutdown.WaitingIdle?
    requires children.Values == s.runtimes.Keys && forall u :: u in children ==> u !in s.tasks
    requires forall u, v :: u in children && v in children && children[u] == children[v] ==> u == v
    ensures Leads(s, Snapshot(children), SpawnChildren(s, children)) && Inv(SpawnChildren(s, children))
  {
    hide Inv;
    assert Enabled(s, Snapshot(children));
    SnapshotInv(s, children);
  }

  lemma ChildrenAreGathered(s: State, children: map<nat, string>, name: string)
    requires s.shuttingDown && name !in children.Values
    ensures Gathered(SpawnChildren(s, children), children, name)
  {
    forall u | u in children ensures children[u] != name {
      assert children[u] in children.Values;
    }
  }

  lemma StillPublishes(s: State, s': State, t: nat)
    requires WillPublish(s, t) && s'.world == s.world && s'.ctxs == s.ctxs && s'.lock == s.lock
    requires t in s'.tasks && s'.tasks[t] == s.tasks[t]
    ensures WillPublish(s', t)
  {
    SameTablesAccept(s, s');
    hide Accepts;
  }

  lemma FreshNameIsNotPublished(s: State, t: nat)
    requires Inv(s) && WillPublish(s, t)
    ensures s.tasks[t].op.name !in s.runtimes
  {
    HolderPhase(s);
  }

  /**
   * The condition of `ShutdownIsFinal` cannot be dropped. From every state in which a first load
   * is past the flag check and the tables would take it, there is a schedule in which the flag goes up,
   * `shutdown` returns, and that plugin is published and switched on all the same.
   */
  lemma ShutdownIsNotFinal(s: State, t: nat) returns (run: seq<Step>, s': State, c: nat)
    requires Inv(s) && s.shutdown.NotCalled? && WillPublish(s, t)
    ensures Exec(s, [BeginShutdown] + run) == Some(s')
    ensures s'.shutdown.Returned? && Up(s', s.tasks[t].op.name, c)
  {
    hide Inv, Exec, Leads, Up;
    var name := s.tasks[t].op.name;
    var raise, s1, children := RaiseAndGather(s, t);
    var load, s2;
    load, s2, c := LoadGoesThrough(s1, t);
    ExecAppend(s, [BeginShutdown] + raise, load);
    assert [BeginShutdown] + raise + load == [BeginShutdown] + (raise + load);
    if s.runtimes == map[] {
      run, s' := raise + load, s2;
    } else {
      assert Gathered(s2, children, name);
      var drain, s3 := DrainAll(s2, children, name, c);
      ExecAppend(s, [BeginShutdown] + (raise + load), drain);
      s' := FinishStep(s3, children, name, c);
      assert Exec(s, [BeginShutdown] + (raise + load) + drain) == Some(s3);
      ExecSnocLeads(s, [BeginShutdown] + (raise + load) + drain, s3, FinishShutdown, s');
      run := raise + load + drain + [FinishShutdown];
      assert [BeginShutdown] + run == [BeginShutdown] + (raise + load) + drain + [FinishShutdown];
    }
  }

  /** Shutdown is final under every schedule exactly if no load past the flag check can still publish a new name. */
  lemma ShutdownFinalExactly(s: State)
    requires Inv(s) && s.shutdown.NotCalled?
    ensures (forall run :: FinalUnder(s, run)) <==> !CanGoLive(s)
  {
    hide Inv, Exec, Accepts, Silent, Up;
    if CanGoLive(s) {
      var run, s', c := ShutdownIsNotFinal(s, s.lock.value);
      UpIsNotSilent(s', s.tasks[s.lock.value].op.name, c);
      assert !FinalUnder(s, run);
    } else {
      forall run ensures FinalUnder(s, run) { ShutdownIsFinal(s, run); }
    }
  }

  lemma UpIsNotSilent(s: State, name: string, c: nat)
    requires Up(s, name, c)
    ensures !Silent(s)
  {
    assert name in s.runtimes;
  }

  lemma FinishStep(s: State, children: map<nat, string>, name: string, c: nat) returns (s': State)
    requires Gathered(s, children, name) && Unfinished(s, children) == {} && Up(s, name, c)
    ensures Leads(s, FinishShutdown, s') && s'.shutdown.Returned? && Up(s', name, c)
  {
    s' := s.(shutdown := Returned);
    forall t | t in children ensures Finished(s, t) {
      assert t !in Unfinished(s, children);
    }
  }

  lemma ExecSnocLeads(s: State, run: seq<Step>, s1: State, step: Step, s': State)
    requires Exec(s, run) == Some(s1) && Leads(s1, step, s')
    ensures Exec(s, run + [step]) == Some(s')
  {
    ExecNothing(s');
    ExecLink(s1, step, s', [], s');
    assert [step] + [] == [step];
    ExecAppend(s, run, [step]);
  }
}
