/** What a plugin's `register_command` comes to in the end: which names call which callback. */
module ContextRequests {
  import opened Text
  import opened Commands
  import opened Context
  import opened ContextLaws

  /** The context normalises a name once and the registry once more. */
  function Key(name: string): string {
    Normalize(Normalize(name))
  }

  /** The keys of a request: the one of its name, and those of its aliases that have something left. */
  function Keys(name: string, aliases: seq<string>): set<string> {
    {Key(name)} + set a | a in aliases && Key(a) != "" :: Key(a)
  }

  lemma {:induction false} KeptOnce(aliases: seq<string>, k: string)
    ensures k in NormalizeEach(aliases) <==> exists a :: a in aliases && a != "" && Normalize(a) == k
    decreases |aliases|
  {
    if aliases != [] {
      KeptOnce(aliases[1..], k);
      hide Normalize;
      assert forall a :: a in aliases <==> a == aliases[0] || a in aliases[1..];
    }
  }

  lemma NothingIsLeft()
    ensures Key("") == ""
  {
    assert Normalize("") == "";
  }

  lemma {:induction false} RequestKeys(name: string, callback: Callback, helpText: string, aliases: seq<string>)
    requires Request(name, callback, helpText, aliases).Some?
    ensures RegKeys(Request(name, callback, helpText, aliases).value) == Keys(name, aliases)
  {
    var r := Request(name, callback, helpText, aliases).value;
    NothingIsLeft();
    hide Normalize, NormalizeEach;
    forall k ensures k in RegKeys(r) <==> k in Keys(name, aliases) {
      if b :| b in r.aliases && Normalize(b) != "" && Normalize(b) == k {
        KeptOnce(aliases, b);
        var a :| a in aliases && a != "" && Normalize(a) == b;
        assert Key(a) == k;
      }
      if a :| a in aliases && Key(a) != "" && Key(a) == k {
        KeptOnce(aliases, Normalize(a));
        assert Normalize(a) in r.aliases;
      }
    }
  }

  /** The row a request puts under a key; only the row of the name itself lists aliases. */
  ghost predicate IsRowOf(row: Registration, key: string, name: string, callback: Callback, helpText: string,
                          plugin: string)
  {
    && row.name == Key(name) && row.callback == callback && row.helpText == helpText && row.plugin == plugin
    && (key != Key(name) ==> row.aliases == [])
  }

  /** Every key of the request calls its callback, and every other row is as it was. */
  ghost predicate Serves(table: Table, table': Table, name: string, callback: Callback, helpText: string,
                         aliases: seq<string>, plugin: string)
  {
    && Keys(name, aliases) !! table.Keys && table'.Keys == table.Keys + Keys(name, aliases)
    && forall key :: key in table' ==>
         if key in table then table'[key] == table[key]
         else IsRowOf(table'[key], key, name, callback, helpText, plugin)
  }

  /**
   * A live context takes a command if and only if its callback can be called, its name has something
   * left after both normalisations, and none of its keys is taken; then exactly these keys are new, and
   * each calls the callback. Otherwise the registry is as it was.
   */
  lemma {:induction false} LiveCommandExactly(w: World, c: Ctx, name: string, callback: Callback, helpText: string,
                                              aliases: seq<string>)
    requires c.active
    ensures var request := Request(name, callback, helpText, aliases);
            && (request.Some? <==> Normalize(name) != "" && callback.callable)
            && (request.Some? ==>
                  var a := CommandRegistered(w, c, request.value);
                  && (a.ok <==> Key(name) != "" && Keys(name, aliases) !! w.table.Keys)
                  && a.world.live == w.live
                  && (a.ok ==> Serves(w.table, a.world.table, name, callback, helpText, aliases, c.plugin))
                  && (!a.ok ==> a.world.table == w.table)
                  && a.ctx.commands == c.commands + [request.value])
  {
    var request := Request(name, callback, helpText, aliases);
    if request.Some? {
      var r := request.value;
      RequestKeys(name, callback, helpText, aliases);
      RegisteredExactly(w.table, r.name, r.callback, r.helpText, r.aliases, c.plugin);
      hide Normalize, NormalizeEach, NormalAliases, Registered, ClaimedKeys, Keys;
      if Registered(w.table, r.name, r.callback, r.helpText, r.aliases, c.plugin).Ok? {
        RegisteredRows(w.table, r.name, r.callback, r.helpText, r.aliases, c.plugin);
      }
    }
  }

  /**
   * Whatever becomes of a handler at once, it is buffered: a live context that the client lets have it has
   * it live and no other handler changes, and every later activation that goes through has it live.
   */
  lemma {:induction false} HandlerIsNotLost(w: World, c: Ctx, event: int, refuses: set<Handler>, later: World,
                                            refuses': set<Handler>)
    requires CtxValid(w, c)
    ensures var h, a := Guarded(c.id, |c.handlers|, event), HandlerRegistered(w, c, event, refuses);
            && (a.ok <==> !c.active || h !in refuses) && a.world.table == w.table
            && a.world.live == w.live + (if c.active && h !in refuses then multiset{h} else multiset{})
            && var off := Deactivated(a.world, a.ctx).1;
               (CtxValid(later, off) && Absent(later.table, c.plugin) && Activated(later, off, refuses').ok ==>
                  h in Activated(later, off, refuses').world.live)
  {
    var h, a := Guarded(c.id, |c.handlers|, event), HandlerRegistered(w, c, event, refuses);
    var off := Deactivated(a.world, a.ctx).1;
    assert off.handlers == c.handlers + [h] && off.plugin == c.plugin && !off.active;
    hide Activated, Deactivated, HandlerRegistered;
    if CtxValid(later, off) && Absent(later.table, c.plugin) {
      ActivationExact(later, off, refuses');
      assert h in off.handlers;
    }
  }

  /** The same for a command, whether or not it collided when it was registered. */
  lemma {:induction false} CommandIsNotLost(w: World, c: Ctx, r: CommandReg, later: World, refuses: set<Handler>)
    ensures var off := Deactivated(CommandRegistered(w, c, r).world, CommandRegistered(w, c, r).ctx).1;
            CtxValid(later, off) && Absent(later.table, c.plugin) && Activated(later, off, refuses).ok ==>
              SubTable(RegRows(r, c.plugin), Activated(later, off, refuses).world.table)
  {
    var a := CommandRegistered(w, c, r);
    var off := Deactivated(a.world, a.ctx).1;
    assert off.commands == c.commands + [r] && off.plugin == c.plugin && !off.active;
    hide Activated, Deactivated, CommandRegistered, SubTable;
    if CtxValid(later, off) && Absent(later.table, c.plugin) {
      ActivationExact(later, off, refuses);
      assert off.commands[|c.commands|] == r;
    }
  }
}
