/**
 * `PluginManager` of `src/userbot/manager.py` over real objects: the coroutine segments update
 * the manager, its contexts, the dispatcher and the client in place, and each of them is the
 * step of `Lifecycle` it stands for.
 */
module Manager {
  import opened Text
  import opened Commands
  import opened Context
  import opened ContextLaws
  import opened PluginContexts
  import opened Lifecycle
  import opened LifecycleInv
  import opened LifecycleSteps

  class PluginManager {
    const dispatcher: CommandDispatcher
    const client: TelegramClient
    /** Every generation made so far; the runtime map and the suspended coroutines refer to them by id. */
    var contexts: map<nat, PluginContext>
    var nextCtx: nat
    var runtimes: map<string, nat>
    var disabled: set<string>
    var generation: nat
    var tasks: map<nat, Task>
    var lock: Option<nat>
    var opLocks: map<string, nat>
    var inflight: int
    var idle: bool
    var shuttingDown: bool
    var shutdownStage: Shutdown

    /** All contexts share the manager's dispatcher and client, and are filed under their id. */
    ghost predicate Wired()
      reads this
    {
      forall c :: c in contexts ==>
        contexts[c].id == c && contexts[c].dispatcher == dispatcher && contexts[c].client == client
    }

    function Tables(): World
      reads dispatcher, client
    {
      World(dispatcher.commands, client.live)
    }

    function Ctxs(): map<nat, Ctx>
      reads `contexts, contexts.Values
    {
      map c | c in contexts :: contexts[c].View()
    }

    function View(): State
      reads this, dispatcher, client, contexts.Values
    {
      State(Tables(), Ctxs(), nextCtx, runtimes, disabled, generation,
            tasks, lock, opLocks, inflight, idle, shuttingDown, shutdownStage)
    }

    constructor (dispatcher: CommandDispatcher, client: TelegramClient)
      ensures this.dispatcher == dispatcher && this.client == client && Wired()
      ensures View() == Init(dispatcher.commands, client.live)
    {
      this.dispatcher, this.client := dispatcher, client;
      contexts, nextCtx, runtimes, disabled, generation := map[], 0, map[], {}, 0;
      tasks, lock, opLocks, inflight, idle := map[], None, map[], 0, true;
      shuttingDown, shutdownStage := false, NotCalled;
    }

    // -------------------------------------------------------------- one context at a time

    method TakeDown(c: nat)
      requires Wired() && c in contexts && CtxValid(Tables(), contexts[c].View())
      modifies contexts[c], dispatcher`commands, client`live
      ensures View() == SwitchOff(old(View()), c)
    {
      ghost var was := Ctxs();
      hide CtxValid, Deactivated;
      contexts[c].Deactivate();
      assert Ctxs() == was[c := contexts[c].View()];
    }

    method PutUp(c: nat) returns (ok: bool)
      requires Wired() && c in contexts && Ready(View(), c)
      modifies contexts[c], dispatcher`commands, client`live
      ensures View() == SwitchOn(old(View()), c, client.refuses) && ok == Accepts(old(View()), c, client.refuses)
    {
      ghost var was := Ctxs();
      hide CtxValid, Absent, Activated;
      ok := contexts[c].Activate();
      assert Ctxs() == was[c := contexts[c].View()];
    }

    method MarkStopped(c: nat)
      requires Wired() && c in contexts
      modifies contexts[c]
      ensures View() == Lifecycle.MarkStopped(old(View()), c)
    {
      ghost var was := Ctxs();
      contexts[c].stopped := true;
      assert Ctxs() == was[c := contexts[c].View()];
    }

    // -------------------------------------------------------------- locks

    method SetPc(t: nat, pc: Pc)
      requires t in tasks
      modifies `tasks
      ensures View() == Lifecycle.SetPc(old(View()), t, pc)
    {
      tasks := tasks[t := tasks[t].(pc := pc)];
    }

    method Suspend(t: nat, phase: Phase)
      requires t in tasks
      modifies `tasks, `lock
      ensures View() == Lifecycle.Suspend(old(View()), t, phase)
    {
      lock := Some(t);
      SetPc(t, Body(phase));
    }

    /** The `finally` of `_operation`. */
    method LeaveOp(t: nat, ending: Ending)
      requires t in tasks
      modifies `tasks, `opLocks, `inflight, `idle
      ensures View() == Lifecycle.LeaveOp(old(View()), t, ending)
    {
      hide Ctxs, Tables;
      var op := tasks[t].op;
      if op.TakesOp() {
        inflight := inflight - 1;
        if inflight == 0 { idle := true; }
        opLocks := opLocks - {op.name};
      }
      tasks := tasks[t := tasks[t].(pc := Done(ending))];
    }

    method Leave(t: nat, ending: Ending)
      requires t in tasks
      modifies `tasks, `lock, `opLocks, `inflight, `idle
      ensures View() == Lifecycle.Leave(old(View()), t, ending)
    {
      lock := None;
      LeaveOp(t, ending);
    }

    /** `_operation` up to its `yield`, and what the body checks before it waits for the manager lock. */
    method TakeOp(t: nat)
      requires t in tasks && tasks[t].op.TakesOp()
      modifies `tasks, `opLocks, `inflight, `idle
      ensures View() == EnterOp(old(View()), t)
    {
      hide Lifecycle.LeaveOp;
      var op := tasks[t].op;
      opLocks := opLocks[op.name := t];
      inflight := inflight + 1;
      idle := false;
      SetPc(t, WaitLock);
      if op.Load? && op.name in disabled { LeaveOp(t, Disabled); }
    }

    method GiveUp(t: nat)
      requires t in tasks
      modifies `tasks, `opLocks, `inflight, `idle
      ensures View() == StopWaiting(old(View()), t)
    {
      if tasks[t].pc.WaitOp? { SetPc(t, Done(Cancelled)); } else { LeaveOp(t, Cancelled); }
    }

    /** Inside the manager lock, up to the first suspension. */
    method TakeLock(t: nat)
      requires Wired() && t in tasks && PublishedValid(View())
      modifies this, contexts.Values, dispatcher`commands, client`live
      ensures Wired() && contexts == old(contexts)
      ensures View() == Enter(old(View()), t)
    {
      hide Tables, CtxValid, StartLoad, StartUnload, Lifecycle.Suspend, Lifecycle.Leave;
      match tasks[t].op
      case Load(name, force, _) => EnterLoad(t, name, force);
      case Unload(name) => EnterUnload(t, name);
      case Fetch => Suspend(t, Fetching);
    }

    method EnterLoad(t: nat, name: string, force: bool)
      requires t in tasks
      modifies this
      ensures contexts == old(contexts)
      ensures View() == if old(shuttingDown) then Lifecycle.Leave(old(View()), t, Failed)
                        else if name in old(runtimes) && !force then Lifecycle.Leave(old(View()), t, Existing)
                        else StartLoad(old(View()), t, Lookup(old(runtimes), name))
    {
      if shuttingDown { Leave(t, Failed); return; }
      var previous := Lookup(runtimes, name);
      if previous.Some? && !force { Leave(t, Existing); return; }
      generation := generation + 1;
      Suspend(t, LoadingModule(previous));
    }

    /** `_unload_locked` up to the first suspension of the context's `shutdown`. */
    method EnterUnload(t: nat, name: string)
      requires Wired() && t in tasks
      requires name in runtimes ==> runtimes[name] in contexts && CtxValid(Tables(), Ctxs()[runtimes[name]])
      modifies this, contexts.Values, dispatcher`commands, client`live
      ensures Wired() && contexts == old(contexts)
      ensures View() == if name in old(runtimes) then StartUnload(old(View()), t, name)
                        else Lifecycle.Leave(old(View()), t, Unloaded)
    {
      if name !in runtimes { Leave(t, Unloaded); return; }
      hide CtxValid, SwitchOff, Lifecycle.Suspend;
      var c := runtimes[name];
      runtimes := runtimes - {name};
      assert View() == old(View()).(runtimes := old(runtimes) - {name});
      TakeDown(c);
      assert Ctxs()[c].stopped == contexts[c].stopped;
      Suspend(t, Removing(c, contexts[c].stopped));
    }

    // -------------------------------------------------------------- a load

    /** Files a context under its id. */
    method File(context: PluginContext)
      requires Wired() && nextCtx !in contexts
      requires context.id == nextCtx && context.dispatcher == dispatcher && context.client == client
      modifies `contexts, `nextCtx
      ensures Wired() && contexts == old(contexts)[old(nextCtx) := context]
      ensures View() == old(View()).(ctxs := old(Ctxs())[old(nextCtx) := context.View()], nextCtx := old(nextCtx) + 1)
    {
      hide Tables;
      ghost var was := Ctxs();
      contexts := contexts[nextCtx := context];
      assert Ctxs() == was[nextCtx := context.View()];
      nextCtx := nextCtx + 1;
    }

    /** `_build_context`: a new generation with nothing registered yet. */
    method NewContext(plugin: string)
      requires Wired() && nextCtx !in contexts
      modifies `contexts, `nextCtx
      ensures Wired() && fresh(contexts.Values - old(contexts.Values)) && old(nextCtx) in contexts
      ensures View() == Grown(old(View()), plugin)
    {
      hide Tables, Ctxs;
      var context := new PluginContext(nextCtx, plugin, dispatcher, client);
      File(context);
    }

    method Build(t: nat, prev: Option<nat>)
      requires Wired() && t in tasks && tasks[t].op.Load? && nextCtx !in contexts
      modifies `contexts, `nextCtx, `tasks, `lock
      ensures Wired() && fresh(contexts.Values - old(contexts.Values))
      ensures View() == Lifecycle.Build(old(View()), t, prev)
    {
      hide Lifecycle.Suspend;
      var id := nextCtx;
      NewContext(tasks[t].op.name);
      Suspend(t, Preparing(prev, id));
    }

    /** From the return of `prepare` to the next suspension: the exchange of the two generations. */
    method Exchange(t: nat, prev: Option<nat>, ctx: nat)
      requires Wired() && t in tasks && tasks[t].op.Load? && ctx in contexts && (prev.Some? ==> prev.value in contexts)
      requires Exchangeable(View(), prev, ctx, client.refuses)
      modifies this, contexts.Values, dispatcher`commands, client`live
      ensures Wired() && contexts == old(contexts)
      ensures View() == Swap(old(View()), t, prev, ctx, client.refuses)
    {
      hide CtxValid, Ready, SwitchOn, Accepts, SwitchOff, Lifecycle.Suspend, Lifecycle.Publish;
      if prev.Some? { TakeDown(prev.value); }
      var ok := PutUp(ctx);
      if ok { Exchanged(t, prev, ctx); } else { NotExchanged(t, prev, ctx); }
    }

    method Exchanged(t: nat, prev: Option<nat>, ctx: nat)
      requires Wired() && t in tasks && tasks[t].op.Load? && ctx in contexts && (prev.Some? ==> prev.value in contexts)
      modifies `tasks, `lock, `runtimes
      ensures View() == match prev
                        case None => Lifecycle.Suspend(Lifecycle.Publish(old(View()), t, ctx), t, Recording(None, ctx))
                        case Some(p) => Lifecycle.Suspend(old(View()), t, Retiring(p, ctx, old(View()).ctxs[p].stopped))
    {
      match prev
      case None =>
        Publish(t, ctx);
        Suspend(t, Recording(None, ctx));
      case Some(p) =>
        assert Ctxs()[p].stopped == contexts[p].stopped;
        Suspend(t, Retiring(p, ctx, contexts[p].stopped));
    }

    method NotExchanged(t: nat, prev: Option<nat>, ctx: nat)
      requires Wired() && t in tasks && (prev.Some? ==> prev.value in contexts && Ready(View(), prev.value))
      modifies this, contexts.Values, dispatcher`commands, client`live
      ensures Wired() && contexts == old(contexts)
      ensures View() == match prev
                        case None => Lifecycle.Suspend(old(View()), t, RollbackPending(Undo(None, Some(ctx), false,
                            false, false, 1)))
                        case Some(p) =>
                          Lifecycle.Suspend(SwitchOn(old(View()), p, client.refuses), t, RollbackPending(
                            Undo(prev, Some(ctx), true, Accepts(old(View()), p, client.refuses), false, 1)))
    {
      hide Ready, SwitchOn, Accepts, Lifecycle.Suspend;
      var restored := false;
      if prev.Some? { restored := PutUp(prev.value); }
      Suspend(t, RollbackPending(Undo(prev, Some(ctx), prev.Some?, restored, false, 1)));
    }

    method Publish(t: nat, ctx: nat)
      requires t in tasks && tasks[t].op.Load?
      modifies `runtimes
      ensures View() == Lifecycle.Publish(old(View()), t, ctx)
    {
      runtimes := runtimes[tasks[t].op.name := ctx];
    }

    /** Between the two halves of the outgoing context's `shutdown`, and from its end to the publication. */
    method Retire(t: nat, outgoing: nat, ctx: nat, closing: bool, outcome: Outcome)
      requires Wired() && t in tasks && tasks[t].op.Load? && outgoing in contexts
      modifies this, contexts.Values
      ensures Wired() && contexts == old(contexts)
      ensures View() == Lifecycle.Retire(old(View()), t, outgoing, ctx, closing, outcome)
    {
      hide Lifecycle.Suspend, Lifecycle.Publish, Lifecycle.MarkStopped;
      if !outcome.Goes? {
        Suspend(t, RollbackPending(Undo(Some(outgoing), Some(ctx), true, false, true, 1)));
      } else if !closing {
        MarkStopped(outgoing);
        Suspend(t, Retiring(outgoing, ctx, true));
      } else {
        Publish(t, ctx);
        Suspend(t, Recording(Some(outgoing), ctx));
      }
    }

    method Record(t: nat, prev: Option<nat>, ctx: nat, outcome: Outcome)
      requires t in tasks
      modifies this
      ensures contexts == old(contexts)
      ensures View() == Lifecycle.Record(old(View()), t, prev, ctx, outcome)
    {
      hide Lifecycle.Suspend, Lifecycle.Leave;
      if outcome.Goes? {
        Leave(t, Loaded);
      } else {
        Suspend(t, RollbackPending(Undo(prev, Some(ctx), prev.Some?, false, outcome.IsCancelled?, 1)));
      }
    }

    // -------------------------------------------------------------- a rollback

    method StartUndo(t: nat, undo: Undo, outcome: Outcome)
      requires Wired() && t in tasks && UndoCtxs(undo)
      requires undo.ctx.Some? ==> CtxValid(Tables(), Ctxs()[undo.ctx.value])
      requires undo.ctx.None? ==> CanRestore(View(), undo)
      modifies this, contexts.Values, dispatcher`commands, client`live
      ensures Wired() && contexts == old(contexts)
      ensures View() == Lifecycle.StartUndo(old(View()), t, undo, outcome, client.refuses)
    {
      hide CtxValid, CanRestore, SwitchOff, Lifecycle.Suspend, Lifecycle.FinishUndo;
      if !outcome.Goes? {
        Suspend(t, RollbackPending(undo.(attempts := undo.attempts + 1)));
      } else if undo.ctx.None? {
        FinishUndo(t, undo);
      } else {
        TakeDown(undo.ctx.value);
        assert Ctxs()[undo.ctx.value].stopped == contexts[undo.ctx.value].stopped;
        Suspend(t, RollingBack(undo, contexts[undo.ctx.value].stopped));
      }
    }

    method ContinueUndo(t: nat, undo: Undo, closing: bool, outcome: Outcome)
      requires Wired() && t in tasks && UndoCtxs(undo) && undo.ctx.Some? && CanRestore(View(), undo)
      modifies this, contexts.Values, dispatcher`commands, client`live
      ensures Wired() && contexts == old(contexts)
      ensures View() == Lifecycle.ContinueUndo(old(View()), t, undo, closing, outcome, client.refuses)
    {
      hide CanRestore, Lifecycle.Suspend, Lifecycle.Leave, Lifecycle.FinishUndo, Lifecycle.MarkStopped;
      if outcome.IsCancelled? {
        if undo.attempts + 1 > MAX_ATTEMPTS {
          Leave(t, Cancelled);
        } else {
          Suspend(t, RollingBack(undo.(attempts := undo.attempts + 1), closing));
        }
      } else if !outcome.Goes? {
        Leave(t, Cancelled);
      } else if !closing {
        MarkStopped(undo.ctx.value);
        Suspend(t, RollingBack(undo, true));
      } else {
        FinishUndo(t, undo);
      }
    }

    /** The last segment of `_rollback_load`: the previous generation comes back if it is still published. */
    method FinishUndo(t: nat, undo: Undo)
      requires Wired() && t in tasks && UndoCtxs(undo) && CanRestore(View(), undo)
      modifies this, contexts.Values, dispatcher`commands, client`live
      ensures Wired() && contexts == old(contexts)
      ensures View() == Lifecycle.FinishUndo(old(View()), t, undo, client.refuses)
    {
      hide Ready, SwitchOn, Accepts, Lifecycle.Suspend, Lifecycle.Leave;
      if undo.prev.Some? && undo.deactivated && !undo.restored && undo.prev.value in runtimes.Values {
        var _ := PutUp(undo.prev.value);
      }
      if undo.cancelled || undo.attempts > 1 {
        Leave(t, Cancelled);
      } else {
        Suspend(t, RecordingFailure);
      }
    }

    ghost predicate UndoCtxs(undo: Undo)
      reads this
    {
      (undo.ctx.Some? ==> undo.ctx.value in contexts) && (undo.prev.Some? ==> undo.prev.value in contexts)
    }

    // -------------------------------------------------------------- an unload

    method Remove(t: nat, ctx: nat, closing: bool, outcome: Outcome)
      requires Wired() && t in tasks && ctx in contexts
      modifies this, contexts.Values
      ensures Wired() && contexts == old(contexts)
      ensures View() == Lifecycle.Remove(old(View()), t, ctx, closing, outcome)
    {
      hide Lifecycle.Suspend, Lifecycle.Leave, Lifecycle.MarkStopped;
      if !outcome.Goes? {
        Leave(t, Cancelled);
      } else if !closing {
        MarkStopped(ctx);
        Suspend(t, Removing(ctx, true));
      } else {
        Suspend(t, RecordingUnload);
      }
    }

    // -------------------------------------------------------------- whole steps

    /** The task inside the lock runs from one suspension point to the next. */
    method Advance(t: nat, outcome: Outcome)
      requires Wired() && Inv(View()) && Enabled(View(), Step.Advance(t, outcome, client.refuses))
      modifies this, contexts.Values, dispatcher`commands, client`live
      ensures Wired() && fresh(contexts.Values - old(contexts.Values)) && Inv(View())
      ensures View() == Next(old(View()), Step.Advance(t, outcome, client.refuses))
    {
      ghost var s := View();
      var phase := tasks[t].pc.phase;
      AdvanceIsResume(s, t, outcome, client.refuses);
      hide Inv, Next, Enabled, Resume, PhaseReady, PhaseCtxs, Possible;
      Segment(t, phase, outcome);
    }

    method Segment(t: nat, phase: Phase, outcome: Outcome)
      requires Wired() && t in tasks && PhaseCtxs(View(), phase) && Possible(phase, outcome)
      requires (IsLoadPhase(phase) ==> tasks[t].op.Load?) && PhaseReady(View(), phase, client.refuses)
      modifies this, contexts.Values, dispatcher`commands, client`live
      ensures Wired() && fresh(contexts.Values - old(contexts.Values))
      ensures View() == Resume(old(View()), t, phase, outcome, client.refuses)
    {
      hide Resume, PhaseReady, PhaseCtxs, Possible;
      if Forward(phase) { AdvanceLoad(t, phase, outcome); } else { AdvanceOther(t, phase, outcome); }
    }

    method AdvanceLoad(t: nat, phase: Phase, outcome: Outcome)
      requires Wired() && t in tasks && tasks[t].op.Load? && PhaseCtxs(View(), phase) && Possible(phase, outcome)
      requires Forward(phase) && PhaseReady(View(), phase, client.refuses)
      modifies this, contexts.Values, dispatcher`commands, client`live
      ensures Wired() && fresh(contexts.Values - old(contexts.Values))
      ensures View() == Resume(old(View()), t, phase, outcome, client.refuses)
    {
      hide Exchangeable, Swap, Lifecycle.Build, Lifecycle.Retire, Lifecycle.Record, Lifecycle.Suspend;
      match phase
      case LoadingModule(prev) =>
        if outcome.Goes? { Suspend(t, BuildingContext(prev)); } else { FailEarly(t, prev, None, outcome); }
      case BuildingContext(prev) =>
        if outcome.Goes? { Build(t, prev); } else { FailEarly(t, prev, None, outcome); }
      case Preparing(prev, ctx) =>
        if outcome.Goes? { Exchange(t, prev, ctx); } else { FailEarly(t, prev, Some(ctx), outcome); }
      case Retiring(outgoing, ctx, closing) => Retire(t, outgoing, ctx, closing, outcome);
      case Recording(prev, ctx) => Record(t, prev, ctx, outcome);
    }

    method FailEarly(t: nat, prev: Option<nat>, ctx: Option<nat>, outcome: Outcome)
      requires t in tasks
      modifies `tasks, `lock
      ensures View() == Lifecycle.FailEarly(old(View()), t, prev, ctx, outcome)
    {
      Suspend(t, RollbackPending(Undo(prev, ctx, false, false, outcome.IsCancelled?, 1)));
    }

    method AdvanceOther(t: nat, phase: Phase, outcome: Outcome)
      requires Wired() && t in tasks && PhaseCtxs(View(), phase) && Possible(phase, outcome)
      requires (IsLoadPhase(phase) ==> tasks[t].op.Load?) && !Forward(phase)
          && PhaseReady(View(), phase, client.refuses)
      modifies this, contexts.Values, dispatcher`commands, client`live
      ensures Wired() && contexts == old(contexts)
      ensures View() == Resume(old(View()), t, phase, outcome, client.refuses)
    {
      hide CtxValid, CanRestore, Lifecycle.StartUndo, Lifecycle.ContinueUndo, Lifecycle.Remove, Lifecycle.Leave;
      match phase
      case RollbackPending(undo) => StartUndo(t, undo, outcome);
      case RollingBack(undo, closing) => ContinueUndo(t, undo, closing, outcome);
      case RecordingFailure => Leave(t, EndingOf(outcome, Failed));
      case Removing(ctx, closing) => Remove(t, ctx, closing, outcome);
      case RecordingUnload => Leave(t, EndingOf(outcome, Unloaded));
      case Fetching => Leave(t, EndingOf(outcome, Fetched));
    }

    /** `register_command` of a context; what it is asked for may be rejected before it is buffered. */
    method RegisterCommand(c: nat, name: string, callback: Callback, helpText: string, aliases: seq<string>)
      returns (ok: bool)
      requires Wired() && c in contexts
      modifies contexts[c], dispatcher`commands
      ensures var request := Request(name, callback, helpText, aliases);
              View() == if request.None? then old(View()) else Lifecycle.RegisterCommand(old(View()), c, request.value)
      ensures old(Inv(View())) ==> Inv(View())
    {
      hide CommandRegistered, Request, Inv;
      ghost var s, was, request := View(), Ctxs(), Request(name, callback, helpText, aliases);
      ok := contexts[c].RegisterCommand(name, callback, helpText, aliases);
      assert Ctxs() == was[c := contexts[c].View()];
      assert View() == if request.None? then s else Lifecycle.RegisterCommand(s, c, request.value);
      hide Lifecycle.RegisterCommand, Ctxs, Tables;
      if Inv(s) && request.Some? { PluginCommandInv(s, c, request.value); }
    }

    method RegisterHandler(c: nat, event: int) returns (ok: bool)
      requires Wired() && c in contexts
      modifies contexts[c], client`live
      ensures View() == Lifecycle.RegisterHandler(old(View()), c, event, client.refuses)
      ensures old(Inv(View())) ==> Inv(View())
    {
      hide HandlerRegistered, Inv;
      ghost var s, was := View(), Ctxs();
      if Inv(s) { PluginHandlerInv(s, c, event, client.refuses); }
      ok := contexts[c].RegisterHandler(event);
      assert Ctxs() == was[c := contexts[c].View()];
    }

    // -------------------------------------------------------------- shutdown

    /** `shutdown` up to its first suspension: with nothing published it returns at once. */
    method BeginShutdown()
      modifies `shuttingDown, `shutdownStage
      ensures View() == RaiseFlag(old(View()))
    {
      shuttingDown := true;
      shutdownStage := if runtimes == map[] then Returned else WaitingIdle;
    }

    method SpawnUnloads(children: map<nat, string>)
      modifies `tasks
      ensures tasks == old(tasks) + map t | t in children :: Task(Unload(children[t]), WaitOp, true)
    {
      var pending := children.Keys;
      ghost var was := tasks;
      while pending != {}
        invariant pending <= children.Keys
        invariant tasks == was + map t | t in children && t !in pending :: Task(Unload(children[t]), WaitOp, true)
      {
        var t :| t in pending;
        tasks := tasks[t := Task(Unload(children[t]), WaitOp, true)];
        pending := pending - {t};
      }
    }

    /** The names are taken again, and one unload per name is gathered. */
    method GatherUnloads(children: map<nat, string>)
      requires shutdownStage.WaitingIdle? && children.Values == runtimes.Keys
      modifies `tasks, `shutdownStage
      ensures View() == SpawnChildren(old(View()), children)
    {
      SpawnUnloads(children);
      shutdownStage := Gathering(children);
    }

    // -------------------------------------------------------------- whole steps outside the lock

    /** A call of one of the three operations; a load of a disabled name is over at once. */
    method Spawn(t: nat, op: Op)
      modifies `tasks
      ensures View() == SpawnTask(old(View()), t, op)
    {
      var pc := if op.TakesOp() then WaitOp else if op.Load? && op.name in disabled then Done(Disabled) else WaitLock;
      tasks := tasks[t := Task(op, pc, false)];
    }

    method SetDisabled(name: string, off: bool)
      modifies `disabled
      ensures View() == old(View()).(disabled := if off then old(disabled) + {name} else old(disabled) - {name})
    {
      disabled := if off then disabled + {name} else disabled - {name};
    }

    method SetShutdown(stage: Shutdown)
      modifies `shutdownStage
      ensures View() == old(View()).(shutdown := stage)
    {
      shutdownStage := stage;
    }

    /** Every step that is no segment inside the lock and no registration by a plugin: the invariant holds after it. */
    method Serve(step: Step)
      requires Wired() && Inv(View()) && Enabled(View(), step)
      requires !step.Advance? && !step.PluginCommand? && !step.PluginHandler?
      modifies this, contexts.Values, dispatcher`commands, client`live
      ensures Wired() && contexts == old(contexts) && Inv(View())
      ensures View() == Next(old(View()), step)
    {
      hide Inv, PublishedValid, Next, Enabled, Ctxs, Tables;
      hide Enter, EnterOp, StopWaiting, SpawnTask, SpawnChildren, RaiseFlag;
      ghost var s := View();
      StepInv(s, step);
      InvMeansPublishedValid(s);
      ServedIs(s, step);
      match step
      case Spawn(t, op) => Spawn(t, op);
      case TakeOp(t) => TakeOp(t);
      case TakeLock(t) => TakeLock(t);
      case GiveUp(t) => GiveUp(t);
      case BeginShutdown => BeginShutdown();
      case Snapshot(children) => GatherUnloads(children);
      case FinishShutdown => SetShutdown(Returned);
      case AbandonShutdown => SetShutdown(Abandoned);
      case SetDisabled(name, off) => SetDisabled(name, off);
    }
  }

  /** What a step outside the lock starts from, and what it comes to. */
  lemma ServedIs(s: State, step: Step)
    requires Enabled(s, step) && !step.Advance? && !step.PluginCommand? && !step.PluginHandler?
    ensures match step
            case Spawn(t, op) => Next(s, step) == SpawnTask(s, t, op)
            case TakeOp(t) => t in s.tasks && s.tasks[t].op.TakesOp() && Next(s, step) == EnterOp(s, t)
            case TakeLock(t) =>
              && t in s.tasks && (forall n :: n in s.runtimes ==> s.runtimes[n] in s.ctxs)
              && Next(s, step) == Enter(s, t)
            case GiveUp(t) => t in s.tasks && Next(s, step) == StopWaiting(s, t)
            case BeginShutdown => Next(s, step) == RaiseFlag(s)
            case Snapshot(children) =>
              && s.shutdown.WaitingIdle? && children.Values == s.runtimes.Keys
              && Next(s, step) == SpawnChildren(s, children)
            case FinishShutdown => Next(s, step) == s.(shutdown := Returned)
            case AbandonShutdown => Next(s, step) == s.(shutdown := Abandoned)
            case SetDisabled(name, off) =>
              Next(s, step) == s.(disabled := if off then s.disabled + {name} else s.disabled - {name})
            case _ => true
  {
    hide Enter, EnterOp, StopWaiting, SpawnTask, SpawnChildren, RaiseFlag;
  }

  /** Every published context exists and accounts for what it has live. */
  ghost predicate PublishedValid(s: State) {
    forall n :: n in s.runtimes ==> s.runtimes[n] in s.ctxs && CtxValid(s.world, s.ctxs[s.runtimes[n]])
  }

  lemma InvMeansPublishedValid(s: State)
    requires Inv(s)
    ensures PublishedValid(s)
  {
    forall n | n in s.runtimes ensures CtxOf(s, s.runtimes[n], n) {}
  }

  /** What the invariant gives the next segment of a body to work with. */
  ghost predicate PhaseReady(s: State, phase: Phase, refuses: set<Handler>)
    requires PhaseCtxs(s, phase)
  {
    match phase
    case BuildingContext(_) => s.nextCtx !in s.ctxs
    case Preparing(prev, ctx) => Exchangeable(s, prev, ctx, refuses)
    case RollbackPending(u) =>
      (u.ctx.Some? ==> CtxValid(s.world, s.ctxs[u.ctx.value])) && (u.ctx.None? ==> CanRestore(s, u))
    case RollingBack(u, _) => CanRestore(s, u)
    case _ => true
  }

  lemma PhaseIsReady(s: State, t: nat, phase: Phase, refuses: set<Handler>)
    requires Held(s, t) && RuntimesOk(s, IncomingOf(phase)) && PhaseOk(s, s.tasks[t].op, phase) && PhaseCtxs(s, phase)
    ensures PhaseReady(s, phase, refuses)
  {
    match phase
    case Preparing(prev, ctx) =>
      PrevIsCtx(s, s.tasks[t].op.name);
      PreparedIsExchangeable(s, t, prev, ctx, refuses);
    case RollingBack(undo, _) => PublishedCanRestore(s, t, undo);
    case _ =>
  }

  /** Everything the next segment of the task inside the lock starts from. */
  lemma AdvanceIsResume(s: State, t: nat, outcome: Outcome, refuses: set<Handler>)
    requires Inv(s) && Enabled(s, Step.Advance(t, outcome, refuses))
    ensures t in s.tasks && s.tasks[t].pc.Body?
    ensures var phase := s.tasks[t].pc.phase;
            && PhaseCtxs(s, phase) && Possible(phase, outcome) && (IsLoadPhase(phase) ==> s.tasks[t].op.Load?)
            && PhaseReady(s, phase, refuses)
            && Next(s, Step.Advance(t, outcome, refuses)) == Resume(s, t, phase, outcome, refuses)
            && Inv(Resume(s, t, phase, outcome, refuses))
  {
    StepInv(s, Step.Advance(t, outcome, refuses));
    assert s.lock == Some(t);
    HolderPhase(s);
    PhaseIsReady(s, t, s.tasks[t].pc.phase, refuses);
    hide Inv, Held, RuntimesOk, PhaseOk, PhaseReady, Resume;
  }

  /** The generation a rollback puts back is the published one, so no other is live by then. */
  lemma PublishedCanRestore(s: State, t: nat, undo: Undo)
    requires Held(s, t) && RuntimesOk(s, None) && (undo.prev.Some? ==> undo.prev.value in s.ctxs)
    ensures CanRestore(s, undo)
  {
    if undo.prev.Some? && undo.prev.value in s.runtimes.Values {
      var p := undo.prev.value;
      var n :| n in s.runtimes && s.runtimes[n] == p;
      assert CtxOf(s, p, n);
      forall d | LiveAs(s.ctxs, d, s.ctxs[p].plugin) ensures d == p { OnlyPublishedLive(s, s.ctxs[p].plugin, d); }
      NobodyElseMeansReady(s, t, p);
    }
  }

  ghost predicate CanRestore(s: State, undo: Undo) {
    undo.prev.Some? && undo.deactivated && !undo.restored && undo.prev.value in s.runtimes.Values ==>
      Ready(s, undo.prev.value)
  }

  /** The context can be switched on: it accounts for its rows, and no other generation of its plugin is live. */
  ghost predicate Ready(s: State, c: nat) {
    c in s.ctxs && CtxValid(s.world, s.ctxs[c]) && (!s.ctxs[c].active ==> Absent(s.world.table, s.ctxs[c].plugin))
  }

  lemma NobodyElseMeansReady(s: State, t: nat, c: nat)
    requires Held(s, t) && c in s.ctxs
    requires forall d :: LiveAs(s.ctxs, d, s.ctxs[c].plugin) ==> d == c
    ensures Ready(s, c)
  {
    assert CtxValid(s.world, s.ctxs[c]);
    if !s.ctxs[c].active { NobodyLiveMeansAbsent(s.world, s.ctxs, s.nextCtx, s.ctxs[c].plugin); }
  }

  /** What the exchange of two generations relies on at each of its switches. */
  ghost predicate Exchangeable(s: State, prev: Option<nat>, ctx: nat, refuses: set<Handler>) {
    && (prev.Some? ==> prev.value in s.ctxs && CtxValid(s.world, s.ctxs[prev.value]))
    && var s1 := if prev.Some? then SwitchOff(s, prev.value) else s;
    && Ready(s1, ctx)
    && (prev.Some? && !Accepts(s1, ctx, refuses) ==> Ready(SwitchOn(s1, ctx, refuses), prev.value))
  }

  lemma PreparedIsExchangeable(s: State, t: nat, prev: Option<nat>, ctx: nat, refuses: set<Handler>)
    requires Held(s, t) && RuntimesOk(s, None)
    requires PhaseOk(s, s.tasks[t].op, Preparing(prev, ctx)) && PrevOf(s, prev, s.tasks[t].op.name)
    ensures Exchangeable(s, prev, ctx, refuses)
  {
    if prev.Some? { assert CtxValid(s.world, s.ctxs[prev.value]); }
    var s1 := if prev.Some? then SwitchOff(s, prev.value) else s;
    FirstHalf(s, t, prev, ctx);
    hide Held, RuntimesOk, CtxValid, Absent, SwitchOff, SwitchOn, Accepts;
    NobodyElseMeansReady(s1, t, ctx);
    SwitchOnHeld(s1, t, ctx, refuses);
    if prev.Some? { NobodyElseMeansReady(s1, t, prev.value); }
  }
}
