/** The invariant of the lifecycle protocol, and the proof that every step keeps it. */
module LifecycleInv {
  import opened Text
  import opened Commands
  import opened Context
  import opened ContextLaws
  import opened Lifecycle

  // ---------------------------------------------------------------- tables

  ghost predicate LiveAs(ctxs: map<nat, Ctx>, c: nat, plugin: string) {
    c in ctxs && ctxs[c].active && ctxs[c].plugin == plugin
  }

  /**
   * Every context is valid for the tables, every plugin row and every guarded handler belongs to
   * a live context, and no plugin has two live contexts.
   */
  ghost predicate TablesOk(w: World, ctxs: map<nat, Ctx>, next: nat) {
    && (forall c :: c in ctxs ==> c < next && ctxs[c].id == c && CtxValid(w, ctxs[c]))
    && (forall key :: key in w.table && w.table[key].plugin != CORE ==>
          exists c :: LiveAs(ctxs, c, w.table[key].plugin))
    && (forall h :: h in w.live && h.Guarded? ==> h.ctx in ctxs)
    && (forall c, d, p :: LiveAs(ctxs, c, p) && LiveAs(ctxs, d, p) ==> c == d)
  }

  lemma NobodyLiveMeansAbsent(w: World, ctxs: map<nat, Ctx>, next: nat, plugin: string)
    requires TablesOk(w, ctxs, next) && plugin != CORE
    requires forall c :: !LiveAs(ctxs, c, plugin)
    ensures Absent(w.table, plugin)
  {}

  lemma SwitchOffKeepsTables(w: World, ctxs: map<nat, Ctx>, next: nat, c: nat)
    requires TablesOk(w, ctxs, next) && c in ctxs
    ensures var (w', c') := Deactivated(w, ctxs[c]);
            && TablesOk(w', ctxs[c := c'], next)
            && !c'.active && c'.id == c && c'.plugin == ctxs[c].plugin && c'.stopped == ctxs[c].stopped
            && (!ctxs[c].active ==> w' == w && c' == ctxs[c])
  {
    var (w', c') := Deactivated(w, ctxs[c]);
    DeactivationExact(w, ctxs[c]);
    var ctxs' := ctxs[c := c'];
    forall d | d in ctxs' ensures CtxValid(w', ctxs'[d]) {
      if d != c { Untouched(w, w', ctxs[d]); }
    }
    forall key | key in w'.table && w'.table[key].plugin != CORE
      ensures exists d :: LiveAs(ctxs', d, w'.table[key].plugin)
    {
      var d :| LiveAs(ctxs, d, w.table[key].plugin);
      assert LiveAs(ctxs', d, w'.table[key].plugin);
    }
    forall a, b, p | LiveAs(ctxs', a, p) && LiveAs(ctxs', b, p) ensures a == b {
      assert LiveAs(ctxs, a, p) && LiveAs(ctxs, b, p);
    }
  }

  lemma SwitchOnKeepsTables(w: World, ctxs: map<nat, Ctx>, next: nat, c: nat, refuses: set<Handler>)
    requires TablesOk(w, ctxs, next) && c in ctxs
    requires forall d :: LiveAs(ctxs, d, ctxs[c].plugin) ==> d == c
    ensures var a := Activated(w, ctxs[c], refuses);
            && TablesOk(a.world, ctxs[c := a.ctx], next)
            && a.ctx.id == c && a.ctx.plugin == ctxs[c].plugin && a.ctx.stopped == ctxs[c].stopped
            && (a.ok ==> a.ctx.active)
            && (!a.ok ==> a.world == w && a.ctx == ctxs[c])
  {
    var ctx := ctxs[c];
    var a := Activated(w, ctx, refuses);
    if !ctx.active && !ctx.stopped {
      NobodyLiveMeansAbsent(w, ctxs, next, ctx.plugin);
      ActivationExact(w, ctx, refuses);
      if a.ok { WentLive(w, ctxs, next, c, a); }
    }
    assert ctxs[c := ctx] == ctxs;
  }

  lemma WentLive(w: World, ctxs: map<nat, Ctx>, next: nat, c: nat, a: Activation)
    requires TablesOk(w, ctxs, next) && c in ctxs
    requires forall d :: !LiveAs(ctxs, d, ctxs[c].plugin)
    requires CtxValid(a.world, a.ctx) && a.ctx.active && a.ctx.id == c && a.ctx.plugin == ctxs[c].plugin
    requires a.ctx.handlers == ctxs[c].handlers
    requires Deactivated(a.world, a.ctx).0 == w && a.world.live == w.live + multiset(ctxs[c].handlers)
    ensures TablesOk(a.world, ctxs[c := a.ctx], next)
  {
    var ctxs' := ctxs[c := a.ctx];
    HandlersAreDistinct(a.ctx, |a.ctx.handlers|);
    forall d | d in ctxs' ensures CtxValid(a.world, ctxs'[d]) {
      if d != c {
        forall h | Own(ctxs[d], h) ensures a.world.live[h] == w.live[h] {
          assert h !in ctxs[c].handlers;
        }
        if ctxs[d].active { assert LiveAs(ctxs, d, ctxs[d].plugin); }
        Untouched(w, a.world, ctxs[d]);
      }
    }
    forall key | key in a.world.table && a.world.table[key].plugin != CORE
      ensures exists d :: LiveAs(ctxs', d, a.world.table[key].plugin)
    {
      if a.world.table[key].plugin == a.ctx.plugin {
        assert LiveAs(ctxs', c, a.ctx.plugin);
      } else {
        assert key in w.table;
        var d :| LiveAs(ctxs, d, w.table[key].plugin);
        assert LiveAs(ctxs', d, w.table[key].plugin);
      }
    }
    forall x, y, p | LiveAs(ctxs', x, p) && LiveAs(ctxs', y, p) ensures x == y {
      if x != c { assert LiveAs(ctxs, x, p); }
      if y != c { assert LiveAs(ctxs, y, p); }
    }
    forall h | h in a.world.live && h.Guarded? ensures h.ctx in ctxs' {
      if h !in w.live { assert h in a.ctx.handlers; }
    }
  }

  /** What a registration by context `c` may do to the tables: add live rows and handlers of its own. */
  ghost predicate AddsOwn(w: World, w': World, c': Ctx) {
    && SubTable(w.table, w'.table)
    && (forall key :: key in w'.table && key !in w.table ==> c'.active && w'.table[key].plugin == c'.plugin)
    && (forall h :: !Own(c', h) ==> w'.live[h] == w.live[h])
  }

  lemma OthersStayValid(w: World, ctxs: map<nat, Ctx>, next: nat, c: nat, w': World, c': Ctx, d: nat)
    requires TablesOk(w, ctxs, next) && c in ctxs && d in ctxs && d != c
    requires c'.active == ctxs[c].active && c'.id == c && c'.plugin == ctxs[c].plugin && AddsOwn(w, w', c')
    ensures CtxValid(w', ctxs[d])
  {
    if ctxs[d].active {
      forall key | key in w'.table && w'.table[key].plugin == ctxs[d].plugin ensures key in w.table {
        if key !in w.table {
          assert LiveAs(ctxs, d, ctxs[d].plugin) && LiveAs(ctxs, c, ctxs[d].plugin);
        }
      }
    }
    Untouched(w, w', ctxs[d]);
  }

  lemma RegistrationKeepsTables(w: World, ctxs: map<nat, Ctx>, next: nat, c: nat, w': World, c': Ctx)
    requires TablesOk(w, ctxs, next) && c in ctxs
    requires CtxValid(w', c') && c'.active == ctxs[c].active && c'.id == c && c'.plugin == ctxs[c].plugin
    requires AddsOwn(w, w', c')
    ensures TablesOk(w', ctxs[c := c'], next)
  {
    var ctxs' := ctxs[c := c'];
    forall d | d in ctxs' ensures CtxValid(w', ctxs'[d]) {
      if d != c { OthersStayValid(w, ctxs, next, c, w', c', d); }
    }
    hide CtxValid;
    forall key | key in w'.table && w'.table[key].plugin != CORE
      ensures exists d :: LiveAs(ctxs', d, w'.table[key].plugin)
    {
      if key in w.table {
        var d :| LiveAs(ctxs, d, w.table[key].plugin);
        assert LiveAs(ctxs', d, w'.table[key].plugin);
      } else {
        assert LiveAs(ctxs', c, w'.table[key].plugin);
      }
    }
    forall x, y, p | LiveAs(ctxs', x, p) && LiveAs(ctxs', y, p) ensures x == y {
      assert LiveAs(ctxs, x, p) && LiveAs(ctxs, y, p);
    }
    forall h | h in w'.live && h.Guarded? ensures h.ctx in ctxs' {
      if !Own(c', h) { assert h in w.live; }
    }
  }

  lemma StopKeepsTables(w: World, ctxs: map<nat, Ctx>, next: nat, c: nat)
    requires TablesOk(w, ctxs, next) && c in ctxs
    ensures TablesOk(w, ctxs[c := ctxs[c].(stopped := true)], next)
  {
    var c' := ctxs[c].(stopped := true);
    assert CtxValid(w, c');
    RegistrationKeepsTables(w, ctxs, next, c, w, c');
  }

  lemma NewContextKeepsTables(w: World, ctxs: map<nat, Ctx>, next: nat, plugin: string)
    requires TablesOk(w, ctxs, next) && plugin != CORE
    ensures TablesOk(w, ctxs[next := NewCtx(next, plugin)], next + 1)
  {
    var ctxs' := ctxs[next := NewCtx(next, plugin)];
    assert CtxValid(w, ctxs'[next]);
    forall key | key in w.table && w.table[key].plugin != CORE
      ensures exists d :: LiveAs(ctxs', d, w.table[key].plugin)
    {
      var d :| LiveAs(ctxs, d, w.table[key].plugin);
      assert LiveAs(ctxs', d, w.table[key].plugin);
    }
    forall x, y, p | LiveAs(ctxs', x, p) && LiveAs(ctxs', y, p) ensures x == y {
      assert LiveAs(ctxs, x, p) && LiveAs(ctxs, y, p);
    }
  }

  // ---------------------------------------------------------------- locks

  predicate InOp(task: Task) {
    task.op.TakesOp() && (task.pc.WaitLock? || task.pc.Body?)
  }

  /** The manager lock is held by the one task inside a body. */
  ghost predicate HolderOk(tasks: map<nat, Task>, lock: Option<nat>) {
    && (lock.Some? ==> lock.value in tasks)
    && (forall t :: t in tasks ==> (tasks[t].pc.Body? <==> lock == Some(t)))
  }

  /** A per-name lock is held by the one task of that name past the wait for it. */
  ghost predicate OpsOk(tasks: map<nat, Task>, opLocks: map<string, nat>) {
    && (forall t :: t in tasks && InOp(tasks[t]) ==> Lookup(opLocks, tasks[t].op.name) == Some(t))
    && (forall n :: n in opLocks ==>
          opLocks[n] in tasks && InOp(tasks[opLocks[n]]) && tasks[opLocks[n]].op.name == n)
  }

  ghost predicate NamesOk(tasks: map<nat, Task>) {
    forall t :: t in tasks ==>
      && (tasks[t].pc.WaitOp? ==> tasks[t].op.TakesOp())
      && (!tasks[t].op.Fetch? ==> tasks[t].op.name != CORE)
  }

  ghost predicate LocksOk(s: State) {
    && HolderOk(s.tasks, s.lock) && OpsOk(s.tasks, s.opLocks) && NamesOk(s.tasks)
    && s.inflight == |s.opLocks| && (s.idle <==> s.inflight == 0)
  }

  // ---------------------------------------------------------------- placement

  /** The context that may be live without being published, while its load holds the lock. */
  function IncomingOf(phase: Phase): Option<nat> {
    match phase
    case Retiring(_, ctx, _) => Some(ctx)
    case RollbackPending(u) => u.ctx
    case _ => None
  }

  function Incoming(s: State): Option<nat>
    requires s.lock.Some? ==> s.lock.value in s.tasks
  {
    if s.lock.Some? && s.tasks[s.lock.value].pc.Body? then IncomingOf(s.tasks[s.lock.value].pc.phase) else None
  }

  predicate CtxOf(s: State, c: nat, plugin: string) {
    c in s.ctxs && s.ctxs[c].plugin == plugin
  }

  predicate PrevOf(s: State, prev: Option<nat>, plugin: string) {
    prev.Some? ==> CtxOf(s, prev.value, plugin)
  }

  /** A context still outside the runtime map; if it is live, the published one is switched off. */
  predicate Unpublished(s: State, prev: Option<nat>, c: nat, plugin: string) {
    && Lookup(s.runtimes, plugin) == prev && prev != Some(c)
    && (c in s.ctxs && s.ctxs[c].active ==> prev.Some? && prev.value in s.ctxs && !s.ctxs[prev.value].active)
  }

  predicate PhaseOk(s: State, op: Op, phase: Phase) {
    match phase
    case LoadingModule(prev) => op.Load? && Lookup(s.runtimes, op.name) == prev
    case BuildingContext(prev) => op.Load? && Lookup(s.runtimes, op.name) == prev
    case Preparing(prev, c) =>
      op.Load? && CtxOf(s, c, op.name) && !s.ctxs[c].active && Unpublished(s, prev, c, op.name)
    case Retiring(outgoing, c, closing) =>
      && (closing ==> outgoing in s.ctxs && s.ctxs[outgoing].stopped)
      && op.Load? && CtxOf(s, c, op.name) && CtxOf(s, outgoing, op.name)
      && Unpublished(s, Some(outgoing), c, op.name) && !s.ctxs[outgoing].active && s.ctxs[c].active
    case Recording(prev, c) =>
      && op.Load? && CtxOf(s, c, op.name) && PrevOf(s, prev, op.name)
      && Lookup(s.runtimes, op.name) == Some(c) && prev != Some(c) && s.ctxs[c].active
      && (prev.Some? ==> s.ctxs[prev.value].stopped && !s.ctxs[prev.value].active)
    case RollbackPending(u) =>
      && op.Load? && PrevOf(s, u.prev, op.name)
      && (u.ctx.None? ==> !u.deactivated && Lookup(s.runtimes, op.name) == u.prev)
      && (u.ctx.Some? ==>
            && CtxOf(s, u.ctx.value, op.name)
            && (Lookup(s.runtimes, op.name) == u.ctx || Unpublished(s, u.prev, u.ctx.value, op.name)))
    case RollingBack(u, closing) =>
      && (closing && u.ctx.Some? && u.ctx.value in s.ctxs ==> s.ctxs[u.ctx.value].stopped)
      && op.Load? && PrevOf(s, u.prev, op.name)
      && u.ctx.Some? && CtxOf(s, u.ctx.value, op.name) && !s.ctxs[u.ctx.value].active
    case RecordingFailure => op.Load?
    case Removing(c, closing) =>
      && op.Unload? && CtxOf(s, c, op.name) && !s.ctxs[c].active && op.name !in s.runtimes
      && (closing ==> s.ctxs[c].stopped)
    case RecordingUnload => op.Unload? && op.name !in s.runtimes
    case Fetching => op.Fetch?
  }

  /** Published names point at contexts of that plugin, and live contexts are published or incoming. */
  ghost predicate RuntimesOk(s: State, incoming: Option<nat>) {
    && (forall n :: n in s.runtimes ==> CtxOf(s, s.runtimes[n], n))
    && (forall c :: c in s.ctxs && s.ctxs[c].active ==>
          Lookup(s.runtimes, s.ctxs[c].plugin) == Some(c) || incoming == Some(c))
  }

  ghost predicate Placed(s: State)
    requires LocksOk(s)
  {
    && RuntimesOk(s, Incoming(s))
    && (s.lock.Some? ==> PhaseOk(s, s.tasks[s.lock.value].op, s.tasks[s.lock.value].pc.phase))
  }

  ghost predicate Inv(s: State) {
    LocksOk(s) && TablesOk(s.world, s.ctxs, s.nextCtx) && Placed(s)
  }

  // ---------------------------------------------------------------- lock steps

  lemma OneKeyLess(m: map<string, nat>, key: string)
    requires key in m
    ensures |m - {key}| == |m| - 1
  {
    assert (m - {key}).Keys == m.Keys - {key};
    assert |m.Keys - {key}| == |m.Keys| - 1;
  }

  lemma LeaveKeepsOps(tasks: map<nat, Task>, opLocks: map<string, nat>, t: nat, ending: Ending)
    requires OpsOk(tasks, opLocks) && t in tasks && InOp(tasks[t])
    ensures OpsOk(tasks[t := tasks[t].(pc := Done(ending))], opLocks - {tasks[t].op.name})
    ensures |opLocks - {tasks[t].op.name}| == |opLocks| - 1
  {
    var opLocks' := opLocks - {tasks[t].op.name};
    OneKeyLess(opLocks, tasks[t].op.name);
    forall u | u in tasks && u != t && InOp(tasks[u]) ensures Lookup(opLocks', tasks[u].op.name) == Some(u) {
      assert Lookup(opLocks, tasks[u].op.name) == Some(u);
    }
  }

  lemma MoveKeepsOps(tasks: map<nat, Task>, opLocks: map<string, nat>, t: nat, pc: Pc)
    requires OpsOk(tasks, opLocks) && t in tasks
    requires InOp(tasks[t].(pc := pc)) <==> InOp(tasks[t])
    ensures OpsOk(tasks[t := tasks[t].(pc := pc)], opLocks)
  {
    var tasks' := tasks[t := tasks[t].(pc := pc)];
    forall u | u in tasks' && InOp(tasks'[u]) ensures Lookup(opLocks, tasks'[u].op.name) == Some(u) {
      assert InOp(tasks[u]);
    }
  }

  lemma MoveKeepsHolder(tasks: map<nat, Task>, lock: Option<nat>, t: nat, pc: Pc, lock': Option<nat>)
    requires HolderOk(tasks, lock) && NamesOk(tasks) && t in tasks && (lock == Some(t) || lock.None?)
    requires lock' == if pc.Body? then Some(t) else None
    requires pc.WaitOp? ==> tasks[t].op.TakesOp()
    ensures HolderOk(tasks[t := tasks[t].(pc := pc)], lock') && NamesOk(tasks[t := tasks[t].(pc := pc)])
  {}

  lemma OutsideKeepsHolder(tasks: map<nat, Task>, lock: Option<nat>, t: nat, pc: Pc)
    requires HolderOk(tasks, lock) && NamesOk(tasks) && t in tasks && !tasks[t].pc.Body? && !pc.Body? && !pc.WaitOp?
    ensures HolderOk(tasks[t := tasks[t].(pc := pc)], lock) && NamesOk(tasks[t := tasks[t].(pc := pc)])
  {}

  lemma LeaveOpKeepsLocks(s: State, t: nat, ending: Ending)
    requires t in s.tasks && OpsOk(s.tasks, s.opLocks) && s.inflight == |s.opLocks| && (s.idle <==> s.inflight == 0)
    requires InOp(s.tasks[t]) || !s.tasks[t].op.TakesOp()
    requires HolderOk(s.tasks[t := s.tasks[t].(pc := Done(ending))], s.lock)
    requires NamesOk(s.tasks[t := s.tasks[t].(pc := Done(ending))])
    ensures LocksOk(LeaveOp(s, t, ending))
  {
    if s.tasks[t].op.TakesOp() {
      LeaveKeepsOps(s.tasks, s.opLocks, t, ending);
      var n := s.tasks[t].op.name;
      var s' := LeaveOp(s, t, ending);
      assert s'.opLocks == s.opLocks - {n} && s'.inflight == |s.opLocks - {n}|;
    } else {
      MoveKeepsOps(s.tasks, s.opLocks, t, Done(ending));
    }
  }

  lemma LeaveKeepsLocks(s: State, t: nat, ending: Ending)
    requires LocksOk(s) && t in s.tasks && (s.lock == Some(t) || s.lock.None?)
    requires s.tasks[t].pc.WaitLock? || s.tasks[t].pc.Body?
    ensures LocksOk(Leave(s, t, ending))
  {
    MoveKeepsHolder(s.tasks, s.lock, t, Done(ending), None);
    LeaveOpKeepsLocks(s.(lock := None), t, ending);
  }

  lemma SuspendKeepsLocks(s: State, t: nat, phase: Phase)
    requires LocksOk(s) && t in s.tasks && (s.lock == Some(t) || s.lock.None?)
    requires s.tasks[t].pc.WaitLock? || s.tasks[t].pc.Body?
    ensures LocksOk(Suspend(s, t, phase))
  {
    MoveKeepsOps(s.tasks, s.opLocks, t, Body(phase));
  }

  lemma GiveUpKeepsLocks(s: State, t: nat)
    requires LocksOk(s) && t in s.tasks && (s.tasks[t].pc.WaitOp? || s.tasks[t].pc.WaitLock?)
    ensures LocksOk(StopWaiting(s, t))
  {
    OutsideKeepsHolder(s.tasks, s.lock, t, Done(Cancelled));
    if s.tasks[t].pc.WaitLock? {
      LeaveOpKeepsLocks(s, t, Cancelled);
    } else {
      MoveKeepsOps(s.tasks, s.opLocks, t, Done(Cancelled));
    }
  }

  lemma TakeOpKeepsLocks(s: State, t: nat)
    requires LocksOk(s) && t in s.tasks && s.tasks[t].pc.WaitOp? && s.tasks[t].op.name !in s.opLocks
    ensures LocksOk(EnterOp(s, t))
  {
    var name := s.tasks[t].op.name;
    var waiting := s.(tasks := s.tasks[t := s.tasks[t].(pc := WaitLock)], opLocks := s.opLocks[name := t],
                      inflight := s.inflight + 1, idle := false);
    TakenOpIsOk(s.tasks, s.opLocks, t);
    OutsideKeepsHolder(s.tasks, s.lock, t, WaitLock);
    OutsideKeepsHolder(waiting.tasks, s.lock, t, Done(Disabled));
    if s.tasks[t].op.Load? && name in s.disabled {
      LeaveOpKeepsLocks(waiting, t, Disabled);
    }
  }

  lemma TakenOpIsOk(tasks: map<nat, Task>, opLocks: map<string, nat>, t: nat)
    requires OpsOk(tasks, opLocks) && t in tasks && tasks[t].op.TakesOp() && tasks[t].op.name !in opLocks
    ensures OpsOk(tasks[t := tasks[t].(pc := WaitLock)], opLocks[tasks[t].op.name := t])
    ensures |opLocks[tasks[t].op.name := t]| == |opLocks| + 1
  {
    var tasks', opLocks' := tasks[t := tasks[t].(pc := WaitLock)], opLocks[tasks[t].op.name := t];
    forall u | u in tasks' && InOp(tasks'[u]) ensures Lookup(opLocks', tasks'[u].op.name) == Some(u) {
      if u != t { assert InOp(tasks[u]); }
    }
  }

  lemma AddKeepsLocks(s: State, added: map<nat, Task>)
    requires LocksOk(s) && s.tasks.Keys !! added.Keys
    requires NamesOk(added) && forall t :: t in added ==> !InOp(added[t]) && !added[t].pc.Body?
    ensures LocksOk(s.(tasks := s.tasks + added))
  {
    var tasks := s.tasks + added;
    forall u | u in tasks && InOp(tasks[u]) ensures Lookup(s.opLocks, tasks[u].op.name) == Some(u) {
      assert u in s.tasks && InOp(s.tasks[u]);
    }
  }
}
