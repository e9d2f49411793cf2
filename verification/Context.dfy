/**
 * `PluginContext` of `src/userbot/plugin_api.py`: what one generation of a plugin has
 * registered, and how it is switched on and off as a whole.
 */
module Context {
  import opened Text
  import opened Commands

  /** A client handler: either somebody else's, or the guarded wrapper a context made for its n-th one. */
  datatype Handler = Foreign(id: nat) | Guarded(ctx: nat, index: nat, event: int)

  /** The two tables every context writes to: the command registry and the client's handlers. */
  datatype World = World(table: Table, live: multiset<Handler>)

  datatype CommandReg = CommandReg(name: string, callback: Callback, helpText: string, aliases: seq<string>)

  datatype Ctx = Ctx(id: nat, plugin: string, commands: seq<CommandReg>, handlers: seq<Handler>,
                     activeNames: set<string>, wrappers: seq<Handler>, active: bool, stopped: bool)

  function NewCtx(id: nat, plugin: string): Ctx {
    Ctx(id, plugin, [], [], {}, [], false, false)
  }

  function RegRows(r: CommandReg, plugin: string): Table {
    RowsOf(r.name, r.callback, r.helpText, r.aliases, plugin)
  }

  function RegKeys(r: CommandReg): set<string> {
    ClaimedKeys(r.name, r.aliases)
  }

  function RegNames(r: CommandReg): set<string> {
    {r.name} + Elems(r.aliases)
  }

  // ---------------------------------------------------------------- activation

  /** Progress of `activate` through the buffered commands. */
  datatype CommandRun = CommandRun(table: Table, names: set<string>, ok: bool)

  function RunCommands(table: Table, names: set<string>, regs: seq<CommandReg>, plugin: string): CommandRun
    decreases |regs|
  {
    if regs == [] then CommandRun(table, names, true)
    else
      var r := regs[0];
      match Registered(table, r.name, r.callback, r.helpText, r.aliases, plugin)
      case Err(_) => CommandRun(table, names, false)
      case Ok(next) => RunCommands(next, names + RegNames(r), regs[1..], plugin)
  }

  datatype HandlerRun = HandlerRun(live: multiset<Handler>, wrappers: seq<Handler>, ok: bool)

  /** The client refuses to add the handlers in `refuses`; without a client that is all of them. */
  function RunHandlers(live: multiset<Handler>, wrappers: seq<Handler>, handlers: seq<Handler>,
                       refuses: set<Handler>): HandlerRun
    decreases |handlers|
  {
    if handlers == [] then HandlerRun(live, wrappers, true)
    else if handlers[0] in refuses then HandlerRun(live, wrappers, false)
    else RunHandlers(live + multiset{handlers[0]}, wrappers + [handlers[0]], handlers[1..], refuses)
  }

  function RemoveAll(live: multiset<Handler>, wrappers: seq<Handler>): multiset<Handler> {
    if wrappers == [] then live else RemoveAll(live[wrappers[0] := 0], wrappers[1..])
  }

  /** `deactivate(cancel_tasks=False)`, for a context whose active names cover its plugin's rows. */
  function Deactivated(w: World, c: Ctx): (World, Ctx) {
    if !c.active then (w, c)
    else (World(DropOwner(w.table, c.plugin), RemoveAll(w.live, c.wrappers)),
          c.(activeNames := {}, wrappers := [], active := false))
  }

  datatype Activation = Activation(world: World, ctx: Ctx, ok: bool)

  /** `activate`: everything buffered goes live, or nothing does. */
  function Activated(w: World, c: Ctx, refuses: set<Handler>): Activation {
    if c.stopped then Activation(w, c, false)
    else if c.active then Activation(w, c, true)
    else
      var commands := RunCommands(w.table, c.activeNames, c.commands, c.plugin);
      var c1 := c.(active := true, activeNames := commands.names);
      if !commands.ok then
        var (w', c') := Deactivated(w.(table := commands.table), c1);
        Activation(w', c', false)
      else
        var handlers := RunHandlers(w.live, c.wrappers, c.handlers, refuses);
        var c2 := c1.(wrappers := handlers.wrappers);
        if !handlers.ok then
          var (w', c') := Deactivated(World(commands.table, handlers.live), c2);
          Activation(w', c', false)
        else
          Activation(World(commands.table, handlers.live), c2, true)
  }

  /** The aliases a context keeps: empty ones dropped, the rest normalised once. */
  function NormalizeEach(aliases: seq<string>): seq<string> {
    if aliases == [] then []
    else (if aliases[0] == "" then [] else [Normalize(aliases[0])]) + NormalizeEach(aliases[1..])
  }

  /** What a plugin's request is buffered as; nothing if the context rejects it outright. */
  function Request(name: string, callback: Callback, helpText: string, aliases: seq<string>): Option<CommandReg> {
    if Normalize(name) == "" || !callback.callable then None
    else Some(CommandReg(Normalize(name), callback, helpText, NormalizeEach(aliases)))
  }

  /**
   * `register_command`: buffered first, then registered at once if the context is live.
   * A conflict therefore leaves a buffered command that is not live.
   */
  function CommandRegistered(w: World, c: Ctx, r: CommandReg): Activation {
    var buffered := c.(commands := c.commands + [r]);
    if !c.active then Activation(w, buffered, true)
    else
      match Registered(w.table, r.name, r.callback, r.helpText, r.aliases, c.plugin)
      case Err(_) => Activation(w, buffered, false)
      case Ok(table) => Activation(w.(table := table), buffered.(activeNames := c.activeNames + RegNames(r)), true)
  }

  function HandlerRegistered(w: World, c: Ctx, event: int, refuses: set<Handler>): Activation {
    var h := Guarded(c.id, |c.handlers|, event);
    var buffered := c.(handlers := c.handlers + [h]);
    if !c.active then Activation(w, buffered, true)
    else if h in refuses then Activation(w, buffered, false)
    else Activation(w.(live := w.live + multiset{h}), buffered.(wrappers := c.wrappers + [h]), true)
  }

  // ---------------------------------------------------------------- what a context keeps true

  /** Handler tokens are the context's own, in order of registration. */
  predicate OwnHandlers(c: Ctx) {
    forall i :: 0 <= i < |c.handlers| ==>
      c.handlers[i].Guarded? && c.handlers[i].ctx == c.id && c.handlers[i].index == i
  }

  ghost predicate Named(names: set<string>, key: string) {
    exists n :: n in names && Normalize(n) == key
  }

  ghost predicate Contributed(regs: seq<CommandReg>, plugin: string, key: string, row: Registration) {
    exists r :: r in regs && key in RegRows(r, plugin) && RegRows(r, plugin)[key] == row
  }

  ghost predicate RowsAccounted(table: Table, c: Ctx) {
    forall key :: key in table && table[key].plugin == c.plugin ==>
      Named(c.activeNames, key) && Contributed(c.commands, c.plugin, key, table[key])
  }

  /** The context's share of the client's handlers is its wrapper list, each present once. */
  ghost predicate WrappersLive(live: multiset<Handler>, c: Ctx) {
    && (forall i, j :: 0 <= i < j < |c.wrappers| ==> c.wrappers[i] != c.wrappers[j])
    && (forall h :: h in c.wrappers ==> h in c.handlers)
    && (forall h :: h in live && h.Guarded? && h.ctx == c.id ==> h in c.wrappers)
    && (forall h :: h in c.wrappers ==> live[h] == 1)
  }

  /** A context that is off owns nothing; one that is on accounts for every row of its plugin. */
  ghost predicate CtxValid(w: World, c: Ctx) {
    && c.plugin != CORE
    && OwnHandlers(c)
    && WrappersLive(w.live, c)
    && (!c.active ==> c.activeNames == {} && c.wrappers == [])
    && (c.active ==> RowsAccounted(w.table, c))
  }

  /** Nothing in the table belongs to this plugin. */
  ghost predicate Absent(table: Table, plugin: string) {
    forall key :: key in table ==> table[key].plugin != plugin
  }

  // ---------------------------------------------------------------- commands

  predicate Usable(r: CommandReg) {
    Normalize(r.name) != "" && r.callback.callable
  }

  /** The buffered commands do not collide with each other. */
  ghost predicate Consistent(regs: seq<CommandReg>) {
    && (forall i :: 0 <= i < |regs| ==> Usable(regs[i]))
    && (forall i, j :: 0 <= i < j < |regs| ==> RegKeys(regs[i]) !! RegKeys(regs[j]))
  }

  ghost predicate Free(table: Table, regs: seq<CommandReg>) {
    forall i :: 0 <= i < |regs| ==> RegKeys(regs[i]) !! table.Keys
  }

  ghost predicate AllIn(table: Table, regs: seq<CommandReg>, plugin: string) {
    forall i :: 0 <= i < |regs| ==> SubTable(RegRows(regs[i], plugin), table)
  }

  ghost predicate SubTable(rows: Table, table: Table) {
    forall key :: key in rows ==> key in table && table[key] == rows[key]
  }

  lemma OneMore(table: Table, r: CommandReg, plugin: string, key: string)
    requires Registered(table, r.name, r.callback, r.helpText, r.aliases, plugin).Ok?
    ensures var next := Registered(table, r.name, r.callback, r.helpText, r.aliases, plugin).value;
            && SubTable(table, next) && SubTable(RegRows(r, plugin), next)
            && next.Keys == table.Keys + RegKeys(r) && RegKeys(r) !! table.Keys
            && (key in next && key !in table ==>
                  && next[key].plugin == plugin
                  && Named(RegNames(r), key)
                  && key in RegRows(r, plugin) && next[key] == RegRows(r, plugin)[key])
  {
    RegisteredRows(table, r.name, r.callback, r.helpText, r.aliases, plugin);
    if key in RegKeys(r) {
      if key == Normalize(r.name) {
        assert r.name in RegNames(r);
      } else {
        var a :| a in r.aliases && Normalize(a) == key;
        assert a in RegNames(r);
      }
    }
  }

  /** Activation only adds rows, each of them named by an active name and put there by a buffered command. */
  lemma {:induction false} RunCommandsRows(table: Table, names: set<string>, regs: seq<CommandReg>, plugin: string)
    ensures var run := RunCommands(table, names, regs, plugin);
            && names <= run.names
            && SubTable(table, run.table)
            && (forall key :: key in run.table && key !in table ==>
                  && run.table[key].plugin == plugin
                  && Named(run.names, key)
                  && Contributed(regs, plugin, key, run.table[key]))
    decreases |regs|
  {
    if regs != [] {
      var r := regs[0];
      var step := Registered(table, r.name, r.callback, r.helpText, r.aliases, plugin);
      if step.Ok? {
        var run := RunCommands(table, names, regs, plugin);
        RunCommandsRows(step.value, names + RegNames(r), regs[1..], plugin);
        OneMore(table, r, plugin, "");
        forall key | key in run.table && key !in table
          ensures run.table[key].plugin == plugin && Named(run.names, key)
                  && Contributed(regs, plugin, key, run.table[key])
        {
          OneMore(table, r, plugin, key);
          if key in step.value {
            var n :| n in RegNames(r) && Normalize(n) == key;
            assert n in run.names;
            assert r in regs;
          } else {
            var r' :| r' in regs[1..] && key in RegRows(r', plugin) && RegRows(r', plugin)[key] == run.table[key];
            assert r' in regs;
          }
        }
      }
    }
  }

  /** A batch of commands goes through exactly when it is consistent and all its keys are free. */
  lemma {:induction false} RunCommandsExactly(table: Table, names: set<string>, regs: seq<CommandReg>, plugin: string)
    ensures RunCommands(table, names, regs, plugin).ok <==> Consistent(regs) && Free(table, regs)
    ensures RunCommands(table, names, regs, plugin).ok ==>
        AllIn(RunCommands(table, names, regs, plugin).table, regs, plugin)
    decreases |regs|
  {
    if regs != [] {
      var r := regs[0];
      var step := Registered(table, r.name, r.callback, r.helpText, r.aliases, plugin);
      RegisteredExactly(table, r.name, r.callback, r.helpText, r.aliases, plugin);
      if step.Ok? {
        OneMore(table, r, plugin, "");
        RunCommandsExactly(step.value, names + RegNames(r), regs[1..], plugin);
        RunCommandsRows(step.value, names + RegNames(r), regs[1..], plugin);
        SplitBatch(table, step.value, regs);
        var run := RunCommands(table, names, regs, plugin);
        if run.ok {
          forall i | 0 <= i < |regs| ensures SubTable(RegRows(regs[i], plugin), run.table) {
            if i > 0 { assert regs[i] == regs[1..][i - 1]; }
          }
        }
      }
    }
  }

  lemma SplitBatch(table: Table, next: Table, regs: seq<CommandReg>)
    requires regs != [] && next.Keys == table.Keys + RegKeys(regs[0])
    requires Usable(regs[0]) && RegKeys(regs[0]) !! table.Keys
    ensures Consistent(regs) && Free(table, regs) <==> Consistent(regs[1..]) && Free(next, regs[1..])
  {
    var rest := regs[1..];
    if Consistent(regs) && Free(table, regs) {
      forall i | 0 <= i < |rest| ensures Usable(rest[i]) && RegKeys(rest[i]) !! next.Keys {
        assert rest[i] == regs[i + 1];
        assert RegKeys(regs[0]) !! RegKeys(regs[i + 1]);
      }
    }
    if Consistent(rest) && Free(next, rest) {
      forall i | 0 <= i < |regs| ensures Usable(regs[i]) && RegKeys(regs[i]) !! table.Keys {
        if i > 0 { assert regs[i] == rest[i - 1]; }
      }
      forall i, j | 0 <= i < j < |regs| ensures RegKeys(regs[i]) !! RegKeys(regs[j]) {
        assert regs[j] == rest[j - 1];
        if i > 0 { assert regs[i] == rest[i - 1]; }
      }
    }
  }

  /** Forgetting the rows a batch added gives back the table it started from. */
  lemma {:induction false} RunCommandsUndone(table: Table, names: set<string>, regs: seq<CommandReg>, plugin: string)
    requires Absent(table, plugin)
    ensures DropOwner(RunCommands(table, names, regs, plugin).table, plugin) == table
  {
    RunCommandsRows(table, names, regs, plugin);
  }

  // ---------------------------------------------------------------- handlers

  /** How many handlers the client takes before its first refusal. */
  function Accepted(handlers: seq<Handler>, refuses: set<Handler>): nat
    ensures Accepted(handlers, refuses) <= |handlers|
    ensures Accepted(handlers, refuses) == |handlers| <==> forall h :: h in handlers ==> h !in refuses
    decreases |handlers|
  {
    if handlers == [] || handlers[0] in refuses then 0 else 1 + Accepted(handlers[1..], refuses)
  }

  lemma {:induction false} RunHandlersPrefix(live: multiset<Handler>, wrappers: seq<Handler>, handlers: seq<Handler>,
                                             refuses: set<Handler>)
    ensures var p := Accepted(handlers, refuses);
            RunHandlers(live, wrappers, handlers, refuses)
            == HandlerRun(live + multiset(handlers[..p]), wrappers + handlers[..p], p == |handlers|)
    decreases |handlers|
  {
    var p := Accepted(handlers, refuses);
    if p > 0 {
      RunHandlersPrefix(live + multiset{handlers[0]}, wrappers + [handlers[0]], handlers[1..], refuses);
      assert handlers[..p] == [handlers[0]] + handlers[1..][..p - 1];
    }
  }

  lemma {:induction false} RemoveAllAt(live: multiset<Handler>, wrappers: seq<Handler>, h: Handler)
    ensures RemoveAll(live, wrappers)[h] == if h in wrappers then 0 else live[h]
    decreases |wrappers|
  {
    if wrappers != [] { RemoveAllAt(live[wrappers[0] := 0], wrappers[1..], h); }
  }

  lemma RemoveAllExact(live: multiset<Handler>, wrappers: seq<Handler>)
    requires forall h :: h in wrappers ==> h !in live
    ensures RemoveAll(live + multiset(wrappers), wrappers) == live
  {
    forall h ensures RemoveAll(live + multiset(wrappers), wrappers)[h] == live[h] {
      RemoveAllAt(live + multiset(wrappers), wrappers, h);
    }
  }

  lemma DistinctOnce(s: seq<Handler>)
    requires forall i, j :: 0 <= i < j < |s| ==> s[i] != s[j]
    ensures forall h :: h in s ==> multiset(s)[h] == 1
    decreases |s|
  {
    if s != [] {
      DistinctOnce(s[1..]);
      assert s == [s[0]] + s[1..];
    }
  }
}
