/**
 * The load, rollback, unload and shutdown protocol of `src/userbot/manager.py`, as a
 * transition system whose steps are cut at the suspension points of the coroutines.
 *
 * Everything a coroutine does between two suspension points is one step, so the exchange of
 * two generations of a plugin (`Swap`) is atomic, while the stop hook of the outgoing one
 * (`Retiring`) is not. Foreign code appears as the outcome of a suspension: it goes on, raises,
 * or the task is cancelled there.
 */
module Lifecycle {
  import opened Text
  import opened Commands
  import opened Context

  /** `max_attempts` of `run_uninterruptible`. */
  const MAX_ATTEMPTS := 8

  /** One manager operation. A guarded load runs inside `_operation(name)`; an unload always does. */
  datatype Op = Load(name: string, force: bool, guarded: bool) | Unload(name: string) | Fetch {
    predicate TakesOp() { Unload? || (Load? && guarded) }
  }

  datatype Ending = Loaded | Existing | Disabled | Failed | Cancelled | Unloaded | Fetched

  /** What `_rollback_load` is told, and how often `run_uninterruptible` has gone round. */
  datatype Undo = Undo(prev: Option<nat>, ctx: Option<nat>, deactivated: bool, restored: bool,
                       cancelled: bool, attempts: nat)

  /** Where the task that holds the manager lock is suspended. */
  datatype Phase =
    | LoadingModule(prev: Option<nat>)
    | BuildingContext(prev: Option<nat>)
    | Preparing(prev: Option<nat>, ctx: nat)
    | Retiring(outgoing: nat, ctx: nat, closing: bool)
    | Recording(prev: Option<nat>, ctx: nat)
    | RollbackPending(undo: Undo)
    | RollingBack(undo: Undo, closing: bool)
    | RecordingFailure
    | Removing(ctx: nat, closing: bool)
    | RecordingUnload
    | Fetching

  datatype Pc = WaitOp | WaitLock | Body(phase: Phase) | Done(ending: Ending)

  /** `child` marks the unloads `shutdown` gathers. */
  datatype Task = Task(op: Op, pc: Pc, child: bool)

  datatype Shutdown = NotCalled | WaitingIdle | Gathering(children: map<nat, string>) | Returned | Abandoned

  datatype State = State(
    world: World, ctxs: map<nat, Ctx>, nextCtx: nat, runtimes: map<string, nat>,
    disabled: set<string>, generation: nat,
    tasks: map<nat, Task>, lock: Option<nat>, opLocks: map<string, nat>, inflight: int, idle: bool,
    shuttingDown: bool, shutdown: Shutdown)

  datatype Outcome = Goes | Raises | IsCancelled | HookCancels

  datatype Step =
    | Spawn(task: nat, op: Op)
    | TakeOp(task: nat)
    | TakeLock(task: nat)
    | GiveUp(task: nat)
    | Advance(task: nat, outcome: Outcome, refuses: set<Handler>)
    | BeginShutdown
    | Snapshot(children: map<nat, string>)
    | FinishShutdown
    | AbandonShutdown
    | PluginCommand(ctx: nat, reg: CommandReg)
    | PluginHandler(ctx: nat, event: int, refuses: set<Handler>)
    | SetDisabled(name: string, off: bool)

  function Lookup(m: map<string, nat>, name: string): Option<nat> {
    if name in m then Some(m[name]) else None
  }

  function Init(core: Table, foreign: multiset<Handler>): State {
    State(World(core, foreign), map[], 0, map[], {}, 0, map[], None, map[], 0, true, false, NotCalled)
  }

  /** Nothing in the tables belongs to a plugin yet. */
  predicate InitialTables(core: Table, foreign: multiset<Handler>) {
    && (forall key :: key in core ==> core[key].plugin == CORE)
    && (forall h :: h in foreign ==> h.Foreign?)
  }

  // ---------------------------------------------------------------- locks

  function SetPc(s: State, t: nat, pc: Pc): State
    requires t in s.tasks
  {
    s.(tasks := s.tasks[t := s.tasks[t].(pc := pc)])
  }

  /** Leaving `_operation`: the per-name lock is released and the in-flight count goes down. */
  function LeaveOp(s: State, t: nat, ending: Ending): State
    requires t in s.tasks
  {
    var s' := SetPc(s, t, Done(ending));
    if s.tasks[t].op.TakesOp() then
      s'.(opLocks := s.opLocks - {s.tasks[t].op.name}, inflight := s.inflight - 1,
          idle := s.idle || s.inflight - 1 == 0)
    else s'
  }

  /** Leaving the body: the manager lock, then the operation. */
  function Leave(s: State, t: nat, ending: Ending): State
    requires t in s.tasks
  {
    LeaveOp(s.(lock := None), t, ending)
  }

  function Suspend(s: State, t: nat, phase: Phase): State
    requires t in s.tasks
  {
    SetPc(s.(lock := Some(t)), t, Body(phase))
  }

  // ---------------------------------------------------------------- segments

  function SwitchOff(s: State, c: nat): State
    requires c in s.ctxs
  {
    var (w, c') := Deactivated(s.world, s.ctxs[c]);
    s.(world := w, ctxs := s.ctxs[c := c'])
  }

  function SwitchOn(s: State, c: nat, refuses: set<Handler>): State
    requires c in s.ctxs
  {
    var a := Activated(s.world, s.ctxs[c], refuses);
    s.(world := a.world, ctxs := s.ctxs[c := a.ctx])
  }

  function Accepts(s: State, c: nat, refuses: set<Handler>): bool
    requires c in s.ctxs
  {
    Activated(s.world, s.ctxs[c], refuses).ok
  }

  function MarkStopped(s: State, c: nat): State
    requires c in s.ctxs
  {
    s.(ctxs := s.ctxs[c := s.ctxs[c].(stopped := true)])
  }

  function StartLoad(s: State, t: nat, prev: Option<nat>): State
    requires t in s.tasks
  {
    Suspend(s.(generation := s.generation + 1), t, LoadingModule(prev))
  }

  /** The runtime is popped and its context switched off before anything can interrupt. */
  function StartUnload(s: State, t: nat, name: string): State
    requires t in s.tasks && name in s.runtimes && s.runtimes[name] in s.ctxs
  {
    var c := s.runtimes[name];
    var s1 := SwitchOff(s.(runtimes := s.runtimes - {name}), c);
    Suspend(s1, t, Removing(c, s1.ctxs[c].stopped))
  }

  /** From the lock to the first suspension of the body. */
  function Enter(s: State, t: nat): State
    requires t in s.tasks
    requires forall n :: n in s.runtimes ==> s.runtimes[n] in s.ctxs
  {
    match s.tasks[t].op
    case Load(name, force, _) =>
      if s.shuttingDown then Leave(s, t, Failed)
      else
        var prev := Lookup(s.runtimes, name);
        if prev.Some? && !force then Leave(s, t, Existing)
        else StartLoad(s, t, prev)
    case Unload(name) =>
      if name !in s.runtimes then Leave(s, t, Unloaded) else StartUnload(s, t, name)
    case Fetch => Suspend(s, t, Fetching)
  }

  /** `prepare` returned: take the old generation down and put the new one up, or put the old one back. */
  function Swap(s: State, t: nat, prev: Option<nat>, ctx: nat, refuses: set<Handler>): State
    requires t in s.tasks && s.tasks[t].op.Load?
    requires ctx in s.ctxs && (prev.Some? ==> prev.value in s.ctxs)
  {
    var s1 := if prev.Some? then SwitchOff(s, prev.value) else s;
    var s2 := SwitchOn(s1, ctx, refuses);
    if Accepts(s1, ctx, refuses) then
      match prev
      case None => Suspend(Publish(s2, t, ctx), t, Recording(None, ctx))
      case Some(p) => Suspend(s2, t, Retiring(p, ctx, s2.ctxs[p].stopped))
    else
      match prev
      case None => Suspend(s2, t, RollbackPending(Undo(None, Some(ctx), false, false, false, 1)))
      case Some(p) =>
        Suspend(SwitchOn(s2, p, refuses), t,
                RollbackPending(Undo(prev, Some(ctx), true, Accepts(s2, p, refuses), false, 1)))
  }

  function Publish(s: State, t: nat, ctx: nat): State
    requires t in s.tasks && s.tasks[t].op.Load?
  {
    s.(runtimes := s.runtimes[s.tasks[t].op.name := ctx])
  }

  /** The last segment of `_rollback_load`: the old generation comes back if it is still the published one. */
  function FinishUndo(s: State, t: nat, undo: Undo, refuses: set<Handler>): State
    requires t in s.tasks
    requires undo.prev.Some? ==> undo.prev.value in s.ctxs
  {
    var s1 :=
      if undo.prev.Some? && undo.deactivated && !undo.restored && undo.prev.value in s.runtimes.Values
      then SwitchOn(s, undo.prev.value, refuses)
      else s;
    if undo.cancelled || undo.attempts > 1 then Leave(s1, t, Cancelled)
    else Suspend(s1, t, RecordingFailure)
  }

  /** A cancellation while the rollback runs is absorbed, until the attempts are used up. */
  function Absorb(s: State, t: nat, undo: Undo, closing: bool): State
    requires t in s.tasks
  {
    if undo.attempts + 1 > MAX_ATTEMPTS then Leave(s, t, Cancelled)
    else Suspend(s, t, RollingBack(undo.(attempts := undo.attempts + 1), closing))
  }

  predicate PhaseCtxs(s: State, phase: Phase) {
    match phase
    case Preparing(prev, ctx) => ctx in s.ctxs && (prev.Some? ==> prev.value in s.ctxs)
    case Retiring(outgoing, ctx, _) => outgoing in s.ctxs && ctx in s.ctxs
    case Recording(prev, ctx) => ctx in s.ctxs && (prev.Some? ==> prev.value in s.ctxs)
    case RollbackPending(u) => (u.ctx.Some? ==> u.ctx.value in s.ctxs) && (u.prev.Some? ==> u.prev.value in s.ctxs)
    case RollingBack(u, _) =>
      u.ctx.Some? && u.ctx.value in s.ctxs && (u.prev.Some? ==> u.prev.value in s.ctxs)
    case Removing(ctx, _) => ctx in s.ctxs
    case _ => true
  }

  /** Which outcomes a suspension can have. */
  predicate Possible(phase: Phase, outcome: Outcome) {
    match phase
    case Retiring(_, _, _) => outcome.Goes? || outcome.IsCancelled?
    case Removing(_, _) => outcome.Goes? || outcome.IsCancelled?
    case RollbackPending(u) => outcome.Goes? || (outcome.IsCancelled? && u.attempts == 1)
    case RollingBack(_, closing) => outcome.Goes? || outcome.IsCancelled? || (outcome.HookCancels? && !closing)
    case _ => !outcome.HookCancels?
  }

  predicate IsLoadPhase(phase: Phase) {
    !phase.Removing? && !phase.RecordingUnload? && !phase.Fetching?
  }

  /** A load that fails before it has touched anything shared. */
  function FailEarly(s: State, t: nat, prev: Option<nat>, ctx: Option<nat>, outcome: Outcome): State
    requires t in s.tasks
  {
    Suspend(s, t, RollbackPending(Undo(prev, ctx, false, false, outcome.IsCancelled?, 1)))
  }

  /** `create_plugin_storage` returned: the context exists from here on. */
  function Build(s: State, t: nat, prev: Option<nat>): State
    requires t in s.tasks && s.tasks[t].op.Load?
  {
    var c := NewCtx(s.nextCtx, s.tasks[t].op.name);
    Suspend(s.(ctxs := s.ctxs[s.nextCtx := c], nextCtx := s.nextCtx + 1), t, Preparing(prev, s.nextCtx))
  }

  /** Inside the outgoing context's `shutdown`, with the new one already live. */
  function Retire(s: State, t: nat, outgoing: nat, ctx: nat, closing: bool, outcome: Outcome): State
    requires t in s.tasks && s.tasks[t].op.Load? && outgoing in s.ctxs
  {
    if !outcome.Goes? then Suspend(s, t, RollbackPending(Undo(Some(outgoing), Some(ctx), true, false, true, 1)))
    else if !closing then Suspend(MarkStopped(s, outgoing), t, Retiring(outgoing, ctx, true))
    else Suspend(Publish(s, t, ctx), t, Recording(Some(outgoing), ctx))
  }

  /** Inside `upsert_plugin_state(name, "active")`: published already, so a failure here is not undone by name. */
  function Record(s: State, t: nat, prev: Option<nat>, ctx: nat, outcome: Outcome): State
    requires t in s.tasks
  {
    if outcome.Goes? then Leave(s, t, Loaded)
    else Suspend(s, t, RollbackPending(Undo(prev, Some(ctx), prev.Some?, false, outcome.IsCancelled?, 1)))
  }

  /** The first segment of `_rollback_load`: whatever the failed context has live is taken down. */
  function StartUndo(s: State, t: nat, undo: Undo, outcome: Outcome, refuses: set<Handler>): State
    requires t in s.tasks
    requires (undo.ctx.Some? ==> undo.ctx.value in s.ctxs) && (undo.prev.Some? ==> undo.prev.value in s.ctxs)
  {
    if !outcome.Goes? then Suspend(s, t, RollbackPending(undo.(attempts := undo.attempts + 1)))
    else if undo.ctx.None? then FinishUndo(s, t, undo, refuses)
    else
      var s1 := SwitchOff(s, undo.ctx.value);
      Suspend(s1, t, RollingBack(undo, s1.ctxs[undo.ctx.value].stopped))
  }

  /** Inside the failed context's `shutdown`, shielded from cancellation. */
  function ContinueUndo(s: State, t: nat, undo: Undo, closing: bool, outcome: Outcome, refuses: set<Handler>): State
    requires t in s.tasks
    requires undo.ctx.Some? && undo.ctx.value in s.ctxs && (undo.prev.Some? ==> undo.prev.value in s.ctxs)
  {
    if outcome.IsCancelled? then Absorb(s, t, undo, closing)
    else if !outcome.Goes? then Leave(s, t, Cancelled)
    else if !closing then Suspend(MarkStopped(s, undo.ctx.value), t, RollingBack(undo, true))
    else FinishUndo(s, t, undo, refuses)
  }

  /** Inside the `shutdown` of an unloaded context. */
  function Remove(s: State, t: nat, ctx: nat, closing: bool, outcome: Outcome): State
    requires t in s.tasks && ctx in s.ctxs
  {
    if !outcome.Goes? then Leave(s, t, Cancelled)
    else if !closing then Suspend(MarkStopped(s, ctx), t, Removing(ctx, true))
    else Suspend(s, t, RecordingUnload)
  }

  function EndingOf(outcome: Outcome, good: Ending): Ending {
    if outcome.Goes? then good else if outcome.IsCancelled? then Cancelled else Failed
  }

  function Resume(s: State, t: nat, phase: Phase, outcome: Outcome, refuses: set<Handler>): State
    requires t in s.tasks && (IsLoadPhase(phase) ==> s.tasks[t].op.Load?)
    requires PhaseCtxs(s, phase) && Possible(phase, outcome)
  {
    match phase
    case LoadingModule(prev) =>
      if outcome.Goes? then Suspend(s, t, BuildingContext(prev)) else FailEarly(s, t, prev, None, outcome)
    case BuildingContext(prev) =>
      if outcome.Goes? then Build(s, t, prev) else FailEarly(s, t, prev, None, outcome)
    case Preparing(prev, ctx) =>
      if outcome.Goes? then Swap(s, t, prev, ctx, refuses) else FailEarly(s, t, prev, Some(ctx), outcome)
    case Retiring(outgoing, ctx, closing) => Retire(s, t, outgoing, ctx, closing, outcome)
    case Recording(prev, ctx) => Record(s, t, prev, ctx, outcome)
    case RollbackPending(undo) => StartUndo(s, t, undo, outcome, refuses)
    case RollingBack(undo, closing) => ContinueUndo(s, t, undo, closing, outcome, refuses)
    case RecordingFailure => Leave(s, t, EndingOf(outcome, Failed))
    case Removing(ctx, closing) => Remove(s, t, ctx, closing, outcome)
    case RecordingUnload => Leave(s, t, EndingOf(outcome, Unloaded))
    case Fetching => Leave(s, t, EndingOf(outcome, Fetched))
  }

  // ---------------------------------------------------------------- steps

  predicate Enabled(s: State, step: Step) {
    match step
    case Spawn(t, op) => t !in s.tasks && (op.Fetch? || op.name != CORE)
    case TakeOp(t) => t in s.tasks && s.tasks[t].pc.WaitOp? && s.tasks[t].op.TakesOp()
        && s.tasks[t].op.name !in s.opLocks
    case TakeLock(t) =>
      && t in s.tasks && s.tasks[t].pc.WaitLock? && s.lock.None?
      && forall n :: n in s.runtimes ==> s.runtimes[n] in s.ctxs
    case GiveUp(t) =>
      && t in s.tasks && (s.tasks[t].pc.WaitOp? || s.tasks[t].pc.WaitLock?)
      && (s.tasks[t].child ==> s.shutdown.Abandoned?)
    case Advance(t, outcome, _) =>
      && t in s.tasks && s.tasks[t].pc.Body?
      && (IsLoadPhase(s.tasks[t].pc.phase) ==> s.tasks[t].op.Load?)
      && PhaseCtxs(s, s.tasks[t].pc.phase) && Possible(s.tasks[t].pc.phase, outcome)
    case BeginShutdown => s.shutdown.NotCalled?
    case Snapshot(children) =>
      && s.shutdown.WaitingIdle? && children.Values == s.runtimes.Keys
      && (forall t :: t in children ==> t !in s.tasks)
      && (forall t, u :: t in children && u in children && children[t] == children[u] ==> t == u)
    case FinishShutdown =>
      s.shutdown.Gathering? && forall t :: t in s.shutdown.children ==> Finished(s, t)
    case AbandonShutdown => s.shutdown.WaitingIdle? || s.shutdown.Gathering?
    case PluginCommand(c, _) => c in s.ctxs
    case PluginHandler(c, _, _) => c in s.ctxs
    case SetDisabled(_, _) => true
  }

  predicate Finished(s: State, t: nat) {
    t in s.tasks && s.tasks[t].pc.Done?
  }

  function SpawnTask(s: State, t: nat, op: Op): State {
    var pc := if op.TakesOp() then WaitOp
              else if op.Load? && op.name in s.disabled then Done(Disabled)
              else WaitLock;
    s.(tasks := s.tasks[t := Task(op, pc, false)])
  }

  /** Entering `_operation`, and the check of the disabled set that follows without suspending. */
  function EnterOp(s: State, t: nat): State
    requires t in s.tasks && s.tasks[t].op.TakesOp()
  {
    var op := s.tasks[t].op;
    var s1 := SetPc(s.(opLocks := s.opLocks[op.name := t], inflight := s.inflight + 1, idle := false), t, WaitLock);
    if op.Load? && op.name in s.disabled then LeaveOp(s1, t, Disabled) else s1
  }

  /** Cancelled while waiting for a lock. */
  function StopWaiting(s: State, t: nat): State
    requires t in s.tasks
  {
    if s.tasks[t].pc.WaitOp? then SetPc(s, t, Done(Cancelled)) else LeaveOp(s, t, Cancelled)
  }

  function RaiseFlag(s: State): State {
    s.(shuttingDown := true, shutdown := if s.runtimes == map[] then Returned else WaitingIdle)
  }

  function SpawnChildren(s: State, children: map<nat, string>): State {
    s.(shutdown := Gathering(children),
       tasks := s.tasks + (map t | t in children :: Task(Unload(children[t]), WaitOp, true)))
  }

  function RegisterCommand(s: State, c: nat, reg: CommandReg): State
    requires c in s.ctxs
  {
    if s.ctxs[c].stopped then s
    else
      var a := CommandRegistered(s.world, s.ctxs[c], reg);
      s.(world := a.world, ctxs := s.ctxs[c := a.ctx])
  }

  function RegisterHandler(s: State, c: nat, event: int, refuses: set<Handler>): State
    requires c in s.ctxs
  {
    if s.ctxs[c].stopped then s
    else
      var a := HandlerRegistered(s.world, s.ctxs[c], event, refuses);
      s.(world := a.world, ctxs := s.ctxs[c := a.ctx])
  }

  function Next(s: State, step: Step): State
    requires Enabled(s, step)
  {
    match step
    case Spawn(t, op) => SpawnTask(s, t, op)
    case TakeOp(t) => EnterOp(s, t)
    case TakeLock(t) => Enter(s, t)
    case GiveUp(t) => StopWaiting(s, t)
    case Advance(t, outcome, refuses) => Resume(s, t, s.tasks[t].pc.phase, outcome, refuses)
    case BeginShutdown => RaiseFlag(s)
    case Snapshot(children) => SpawnChildren(s, children)
    case FinishShutdown => s.(shutdown := Returned)
    case AbandonShutdown => s.(shutdown := Abandoned)
    case PluginCommand(c, reg) => RegisterCommand(s, c, reg)
    case PluginHandler(c, event, refuses) => RegisterHandler(s, c, event, refuses)
    case SetDisabled(name, off) =>
      s.(disabled := if off then s.disabled + {name} else s.disabled - {name})
  }

  /** The state after a whole run, if every step of it is possible in turn. */
  function Exec(s: State, steps: seq<Step>): Option<State>
    decreases |steps|
  {
    if steps == [] then Some(s)
    else if Enabled(s, steps[0]) then Exec(Next(s, steps[0]), steps[1..])
    else None
  }

  lemma ExecCons(s: State, step: Step, rest: seq<Step>)
    requires Enabled(s, step)
    ensures Exec(s, [step] + rest) == Exec(Next(s, step), rest)
  {
    assert ([step] + rest)[1..] == rest;
  }

  /** Runs compose. */
  lemma {:induction false} ExecAppend(s: State, first: seq<Step>, second: seq<Step>)
    requires Exec(s, first).Some?
    ensures Exec(s, first + second) == Exec(Exec(s, first).value, second)
    decreases |first|
  {
    if first == [] {
      assert first + second == second;
    } else {
      assert first + second == [first[0]] + (first[1..] + second);
      ExecCons(s, first[0], first[1..] + second);
      ExecAppend(Next(s, first[0]), first[1..], second);
    }
  }

  predicate Leads(s: State, step: Step, s': State) {
    Enabled(s, step) && Next(s, step) == s'
  }

  /** One step in front of a run. */
  lemma ExecLink(s: State, step: Step, s': State, rest: seq<Step>, end: State)
    requires Leads(s, step, s') && Exec(s', rest) == Some(end)
    ensures Exec(s, [step] + rest) == Some(end)
  {
    ExecCons(s, step, rest);
  }
}
