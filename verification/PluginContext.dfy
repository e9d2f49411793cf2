/** The objects behind the context laws: the client, and one generation of a plugin, updated in place. */
module PluginContexts {
  import opened Text
  import opened Commands
  import opened Context
  import opened ContextLaws

  /** The part of the Telegram client a context uses. `refuses` is whatever the network side decides. */
  class TelegramClient {
    var live: multiset<Handler>
    var refuses: set<Handler>

    constructor ()
      ensures live == multiset{} && refuses == {}
    {
      live, refuses := multiset{}, {};
    }

    method AddEventHandler(h: Handler) returns (ok: bool)
      modifies `live
      ensures ok == (h !in refuses)
      ensures live == if ok then old(live) + multiset{h} else old(live)
    {
      ok := h !in refuses;
      if ok { live := live + multiset{h}; }
    }

    /** Drops every entry for this callback. */
    method RemoveEventHandler(h: Handler)
      modifies `live
      ensures live == old(live)[h := 0]
    {
      live := live[h := 0];
    }
  }

  class PluginContext {
    const id: nat
    const plugin: string
    const dispatcher: CommandDispatcher
    const client: TelegramClient
    var commands: seq<CommandReg>
    var handlers: seq<Handler>
    var activeNames: set<string>
    var wrappers: seq<Handler>
    var active: bool
    var stopped: bool

    function View(): Ctx
      reads this
    {
      Ctx(id, plugin, commands, handlers, activeNames, wrappers, active, stopped)
    }

    function Tables(): World
      reads dispatcher, client
    {
      World(dispatcher.commands, client.live)
    }

    /** What every step of the manager keeps true of a context. */
    ghost predicate Sound()
      reads this, dispatcher, client
    {
      CtxValid(Tables(), View()) && (!active ==> Absent(dispatcher.commands, plugin))
    }

    constructor (id: nat, plugin: string, dispatcher: CommandDispatcher, client: TelegramClient)
      ensures View() == NewCtx(id, plugin)
      ensures this.dispatcher == dispatcher && this.client == client
    {
      this.id, this.plugin, this.dispatcher, this.client := id, plugin, dispatcher, client;
      commands, handlers, activeNames, wrappers := [], [], {}, [];
      active, stopped := false, false;
    }

    method ActivateCommand(r: CommandReg) returns (ok: bool)
      modifies `activeNames, dispatcher`commands
      ensures match Registered(old(dispatcher.commands), r.name, r.callback, r.helpText, r.aliases, plugin)
              case Ok(table) => ok && dispatcher.commands == table && activeNames == old(activeNames) + RegNames(r)
              case Err(_) => !ok && dispatcher.commands == old(dispatcher.commands) && activeNames == old(activeNames)
    {
      var error := dispatcher.Register(r.name, r.callback, r.helpText, r.aliases, plugin);
      if error.Some? { return false; }
      activeNames := activeNames + {r.name} + Elems(r.aliases);
      ok := true;
    }

    method ActivateHandler(h: Handler) returns (ok: bool)
      modifies `wrappers, client`live
      ensures ok == (h !in client.refuses)
      ensures client.live == if ok then old(client.live) + multiset{h} else old(client.live)
      ensures wrappers == if ok then old(wrappers) + [h] else old(wrappers)
    {
      ok := client.AddEventHandler(h);
      if ok { wrappers := wrappers + [h]; }
    }

    /** Loop over the buffered commands, stopping at the first that is refused. */
    method ActivateCommands() returns (ok: bool)
      modifies `activeNames, dispatcher`commands
      ensures RunCommands(old(dispatcher.commands), old(activeNames), commands, plugin)
              == CommandRun(dispatcher.commands, activeNames, ok)
    {
      for i := 0 to |commands|
        invariant RunCommands(old(dispatcher.commands), old(activeNames), commands, plugin)
                  == RunCommands(dispatcher.commands, activeNames, commands[i..], plugin)
      {
        assert commands[i..][0] == commands[i] && commands[i..][1..] == commands[i + 1..];
        ok := ActivateCommand(commands[i]);
        if !ok { return; }
      }
      ok := true;
    }

    method ActivateHandlers() returns (ok: bool)
      modifies `wrappers, client`live
      ensures RunHandlers(old(client.live), old(wrappers), handlers, client.refuses)
              == HandlerRun(client.live, wrappers, ok)
    {
      for i := 0 to |handlers|
        invariant RunHandlers(old(client.live), old(wrappers), handlers, client.refuses)
                  == RunHandlers(client.live, wrappers, handlers[i..], client.refuses)
      {
        assert handlers[i..][0] == handlers[i] && handlers[i..][1..] == handlers[i + 1..];
        ok := ActivateHandler(handlers[i]);
        if !ok { return; }
      }
      ok := true;
    }

    /** The active names are unregistered in no particular order, which is returned as `order`. */
    method UnregisterNames() returns (ghost order: seq<string>)
      modifies `activeNames, dispatcher`commands
      ensures activeNames == {}
      ensures dispatcher.commands == UnregisteredAll(old(dispatcher.commands), order, plugin)
      ensures forall n :: n in old(activeNames) ==> n in order
    {
      var todo := activeNames;
      order := [];
      while todo != {}
        invariant dispatcher.commands == UnregisteredAll(old(dispatcher.commands), order, plugin)
        invariant forall n :: n in old(activeNames) ==> n in order || n in todo
        decreases todo
      {
        var n :| n in todo;
        dispatcher.Unregister(n, plugin);
        todo := todo - {n};
        assert (order + [n])[..|order|] == order;
        order := order + [n];
      }
      activeNames := {};
    }

    method RemoveWrappers()
      modifies `wrappers, client`live
      ensures wrappers == [] && client.live == RemoveAll(old(client.live), old(wrappers))
    {
      var pending := wrappers;
      for i := 0 to |pending|
        invariant RemoveAll(old(client.live), pending) == RemoveAll(client.live, pending[i..])
      {
        assert pending[i..][0] == pending[i] && pending[i..][1..] == pending[i + 1..];
        client.RemoveEventHandler(pending[i]);
      }
      wrappers := [];
    }

    method Deactivate()
      modifies `activeNames, `wrappers, `active, dispatcher`commands, client`live
      ensures !active && (old(active) ==> activeNames == {} && wrappers == [])
      ensures client.live == if old(active) then RemoveAll(old(client.live), old(wrappers)) else old(client.live)
      ensures old(CtxValid(Tables(), View())) ==> (Tables(), View()) == old(Deactivated(Tables(), View()))
    {
      if active {
        ghost var before, c := Tables(), View();
        ghost var order := UnregisterNames();
        if CtxValid(before, c) { DeactivationAnyOrder(before, c, order); }
        RemoveWrappers();
        active := false;
      }
    }

    method Activate() returns (ok: bool)
      modifies `activeNames, `wrappers, `active, dispatcher`commands, client`live
      ensures old(Sound()) ==> Activation(Tables(), View(), ok) == old(Activated(Tables(), View(), client.refuses))
    {
      if stopped { return false; }
      if active { return true; }
      ghost var before, c := Tables(), View();
      active := true;
      ok := ActivateCommands();
      if ok { ok := ActivateHandlers(); }
      if !ok {
        if CtxValid(before, c) && Absent(before.table, plugin) {
          HalfwayIsValid(before, c, Tables(), View(), client.refuses);
        }
        Deactivate();
      }
    }

    method RegisterCommand(name: string, callback: Callback, helpText: string, aliases: seq<string>)
      returns (ok: bool)
      modifies `commands, `activeNames, dispatcher`commands
      ensures var request := Request(name, callback, helpText, aliases);
              if old(stopped) || request.None? then !ok && Tables() == old(Tables()) && View() == old(View())
              else Activation(Tables(), View(), ok) == old(CommandRegistered(Tables(), View(), request.value))
    {
      if stopped { return false; }
      var normalized := Normalize(name);
      if normalized == "" || !callback.callable { return false; }
      var r := CommandReg(normalized, callback, helpText, NormalizeEach(aliases));
      commands := commands + [r];
      ok := true;
      if active { ok := ActivateCommand(r); }
    }

    method RegisterHandler(event: int) returns (ok: bool)
      modifies `handlers, `wrappers, client`live
      ensures if old(stopped) then !ok && Tables() == old(Tables()) && View() == old(View())
              else Activation(Tables(), View(), ok) == old(HandlerRegistered(Tables(), View(), event, client.refuses))
    {
      if stopped { return false; }
      var h := Guarded(id, |handlers|, event);
      handlers := handlers + [h];
      ok := true;
      if active { ok := ActivateHandler(h); }
    }
  }

  /** Where a failing activation stops, the active names still account for every row taken so far. */
  lemma HalfwayIsValid(before: World, c: Ctx, now: World, half: Ctx, refuses: set<Handler>)
    requires CtxValid(before, c) && !c.active && Absent(before.table, c.plugin)
    requires half == c.(active := true, activeNames := half.activeNames, wrappers := half.wrappers)
    requires CommandRun(now.table, half.activeNames, RunCommands(before.table, {}, c.commands, c.plugin).ok)
             == RunCommands(before.table, {}, c.commands, c.plugin)
    requires || (now.live == before.live && half.wrappers == [])
             || exists ok :: RunHandlers(before.live, [], c.handlers, refuses)
                 == HandlerRun(now.live, half.wrappers, ok)
    ensures CtxValid(now, half)
  {
    var run := RunCommands(before.table, {}, c.commands, c.plugin);
    RunCommandsRows(before.table, {}, c.commands, c.plugin);
    if !(now.live == before.live && half.wrappers == []) {
      var p := Accepted(c.handlers, refuses);
      RunHandlersPrefix(before.live, [], c.handlers, refuses);
      HandlersAreDistinct(c, p);
      DistinctOnce(c.handlers[..p]);
      assert [] + c.handlers[..p] == c.handlers[..p];
    }
  }
}
