/** What switching a context on and off means for the shared tables, for every buffered list and every failure. */
module ContextLaws {
  import opened Text
  import opened Commands
  import opened Context

  predicate Own(c: Ctx, h: Handler) {
    h.Guarded? && h.ctx == c.id
  }

  /** `deactivate` leaves the other owners' rows and the other contexts' handlers, and nothing else. */
  lemma DeactivationExact(w: World, c: Ctx)
    requires CtxValid(w, c)
    ensures var (w', c') := Deactivated(w, c);
            && c' == c.(activeNames := {}, wrappers := [], active := false)
            && w'.table == (if c.active then DropOwner(w.table, c.plugin) else w.table)
            && (forall h :: w'.live[h] == if Own(c, h) then 0 else w.live[h])
            && CtxValid(w', c')
  {
    var (w', c') := Deactivated(w, c);
    forall h ensures w'.live[h] == if Own(c, h) then 0 else w.live[h] {
      RemoveAllAt(w.live, c.wrappers, h);
    }
  }

  /** Every enumeration of the active names takes the context's rows down, whatever the order. */
  lemma DeactivationAnyOrder(w: World, c: Ctx, order: seq<string>)
    requires CtxValid(w, c) && c.active
    requires forall n :: n in c.activeNames ==> n in order
    ensures UnregisteredAll(w.table, order, c.plugin) == Deactivated(w, c).0.table
  {
    UnregisterOrderIrrelevant(w.table, c.activeNames, order, c.plugin);
  }

  lemma HandlersAreDistinct(c: Ctx, p: nat)
    requires OwnHandlers(c) && p <= |c.handlers|
    ensures forall i, j :: 0 <= i < j < p ==> c.handlers[..p][i] != c.handlers[..p][j]
    ensures forall h :: h in c.handlers ==> Own(c, h)
  {
    forall i, j | 0 <= i < j < p ensures c.handlers[..p][i] != c.handlers[..p][j] {
      assert c.handlers[i].index != c.handlers[j].index;
    }
  }

  /**
   * `activate` is all or nothing. It goes through exactly when the context has not stopped,
   * the buffered commands are consistent and free, and the client takes every handler.
   * When it fails the world and the context are what they were; when it goes through,
   * deactivating undoes it, and the rows of other owners never change.
   */
  lemma {:induction false} ActivationExact(w: World, c: Ctx, refuses: set<Handler>)
    requires CtxValid(w, c) && !c.active && Absent(w.table, c.plugin)
    ensures var a := Activated(w, c, refuses);
            && (a.ok <==> !c.stopped && Consistent(c.commands) && Free(w.table, c.commands)
                          && forall h :: h in c.handlers ==> h !in refuses)
            && (!a.ok ==> a.world == w && a.ctx == c)
            && (a.ok ==> && a.ctx.active && CtxValid(a.world, a.ctx)
                         && a.ctx == c.(active := true, activeNames := a.ctx.activeNames, wrappers := c.handlers)
                         && Deactivated(a.world, a.ctx) == (w, c)
                         && AllIn(a.world.table, c.commands, c.plugin)
                         && a.world.live == w.live + multiset(c.handlers))
  {
    if !c.stopped {
      var p := Accepted(c.handlers, refuses);
      RunCommandsExactly(w.table, {}, c.commands, c.plugin);
      RunCommandsUndone(w.table, {}, c.commands, c.plugin);
      RunHandlersPrefix(w.live, [], c.handlers, refuses);
      HandlersAreDistinct(c, p);
      assert [] + c.handlers[..p] == c.handlers[..p];
      RemoveAllExact(w.live, c.handlers[..p]);
      var run := RunCommands(w.table, {}, c.commands, c.plugin);
      if run.ok && p == |c.handlers| {
        assert c.handlers[..p] == c.handlers;
        ActivatedIsValid(w, c, run);
      }
    }
  }

  lemma ActivatedIsValid(w: World, c: Ctx, run: CommandRun)
    requires CtxValid(w, c) && !c.active && Absent(w.table, c.plugin)
    requires run == RunCommands(w.table, {}, c.commands, c.plugin)
    ensures CtxValid(World(run.table, w.live + multiset(c.handlers)),
                     c.(active := true, activeNames := run.names, wrappers := c.handlers))
  {
    RunCommandsRows(w.table, {}, c.commands, c.plugin);
    HandlersAreDistinct(c, |c.handlers|);
    assert c.handlers[..|c.handlers|] == c.handlers;
    DistinctOnce(c.handlers);
  }

  /** Every buffered registration is live, and they do not collide with each other. */
  ghost predicate FullyLive(w: World, c: Ctx) {
    && c.active && !c.stopped
    && Consistent(c.commands) && AllIn(w.table, c.commands, c.plugin)
    && forall h :: h in c.handlers ==> h in c.wrappers
  }

  /**
   * Taking a live context down and putting it back restores both tables exactly when every
   * buffered registration was live and the client takes the handlers again.
   */
  lemma ReactivationExact(w: World, c: Ctx, refuses: set<Handler>)
    requires CtxValid(w, c) && c.active && !c.stopped
    ensures var (w1, c1) := Deactivated(w, c);
            var a := Activated(w1, c1, refuses);
            a.ok && a.world == w <==> FullyLive(w, c) && forall h :: h in c.handlers ==> h !in refuses
  {
    var (w1, c1) := Deactivated(w, c);
    var a := Activated(w1, c1, refuses);
    DeactivationExact(w, c);
    ActivationExact(w1, c1, refuses);
    HandlersAreDistinct(c, |c.handlers|);
    assert c.handlers[..|c.handlers|] == c.handlers;
    DistinctOnce(c.handlers);
    if FullyLive(w, c) && forall h :: h in c.handlers ==> h !in refuses {
      LiveKeysBecomeFree(w, c);
      assert a.ok;
      RunCommandsRows(w1.table, {}, c.commands, c.plugin);
      SameRows(w, c, a.world.table);
      forall h ensures a.world.live[h] == w.live[h] {
        if Own(c, h) { assert h in w.live ==> h in c.wrappers; }
      }
    }
    if a.ok && a.world == w {
      forall h | h in c.handlers ensures h in c.wrappers {
        assert h in a.world.live;
      }
    }
  }

  lemma LiveKeysBecomeFree(w: World, c: Ctx)
    requires AllIn(w.table, c.commands, c.plugin)
    ensures Free(DropOwner(w.table, c.plugin), c.commands)
  {
    forall i | 0 <= i < |c.commands| ensures RegKeys(c.commands[i]) !! DropOwner(w.table, c.plugin).Keys {
      var r := c.commands[i];
      NormalAliasesAreClaimed(r.name, r.aliases);
      assert SubTable(RegRows(r, c.plugin), w.table);
      forall key | key in RegKeys(r) ensures key !in DropOwner(w.table, c.plugin) {
        assert key in RegRows(r, c.plugin);
      }
    }
  }

  /** Two tables that both hold a plugin's full batch, and agree on the other owners, agree. */
  lemma SameRows(w: World, c: Ctx, table: Table)
    requires CtxValid(w, c) && c.active && AllIn(w.table, c.commands, c.plugin)
    requires table == RunCommands(DropOwner(w.table, c.plugin), {}, c.commands, c.plugin).table
    requires AllIn(table, c.commands, c.plugin)
    ensures table == w.table
  {
    var base := DropOwner(w.table, c.plugin);
    RunCommandsRows(base, {}, c.commands, c.plugin);
    forall key | key in table ensures key in w.table && w.table[key] == table[key] {
      if key !in base { ContributedIsIn(w.table, c, key, table[key]); }
    }
    forall key | key in w.table ensures key in table {
      if w.table[key].plugin == c.plugin {
        ContributedIsIn(table, c, key, w.table[key]);
      } else {
        assert key in base;
      }
    }
  }

  lemma ContributedIsIn(table: Table, c: Ctx, key: string, row: Registration)
    requires AllIn(table, c.commands, c.plugin) && Contributed(c.commands, c.plugin, key, row)
    ensures key in table && table[key] == row
  {
    var r :| r in c.commands && key in RegRows(r, c.plugin) && RegRows(r, c.plugin)[key] == row;
    assert SubTable(RegRows(r, c.plugin), table);
  }

  /** Registering while live or buffered keeps the context's account of the tables straight. */
  lemma CommandRegisteredIsValid(w: World, c: Ctx, r: CommandReg)
    requires CtxValid(w, c)
    ensures var a := CommandRegistered(w, c, r);
            && CtxValid(a.world, a.ctx) && a.ctx.active == c.active && a.ctx.stopped == c.stopped
            && a.ctx.id == c.id && a.ctx.plugin == c.plugin
            && a.world.live == w.live && SubTable(w.table, a.world.table)
            && (forall key :: key in a.world.table && key !in w.table ==>
                  c.active && a.world.table[key].plugin == c.plugin)
            && (!c.active ==> a.world == w)
  {
    var a := CommandRegistered(w, c, r);
    if c.active && a.ok { OneMore(w.table, r, c.plugin, ""); }
    forall key | key in a.world.table && a.world.table[key].plugin == c.plugin && c.active
      ensures Named(a.ctx.activeNames, key) && Contributed(a.ctx.commands, c.plugin, key, a.world.table[key])
    {
      if key in w.table {
        var r' :| r' in c.commands && key in RegRows(r', c.plugin) && RegRows(r', c.plugin)[key] == w.table[key];
        assert r' in a.ctx.commands;
        var n :| n in c.activeNames && Normalize(n) == key;
        assert n in a.ctx.activeNames;
      } else {
        OneMore(w.table, r, c.plugin, key);
        var n :| n in RegNames(r) && Normalize(n) == key;
        assert n in a.ctx.activeNames;
        assert r in a.ctx.commands;
      }
    }
    if c.active && a.ok {
      forall key | key in a.world.table && key !in w.table ensures a.world.table[key].plugin == c.plugin {
        OneMore(w.table, r, c.plugin, key);
      }
    }
  }

  lemma HandlerRegisteredIsValid(w: World, c: Ctx, event: int, refuses: set<Handler>)
    requires CtxValid(w, c)
    ensures var a := HandlerRegistered(w, c, event, refuses);
            && CtxValid(a.world, a.ctx) && a.ctx.active == c.active && a.ctx.stopped == c.stopped
            && a.ctx.id == c.id && a.ctx.plugin == c.plugin
            && a.world.table == w.table
            && (forall h :: !Own(c, h) ==> a.world.live[h] == w.live[h])
            && (!c.active ==> a.world == w)
  {
    HandlersAreDistinct(c, |c.handlers|);
    var h := Guarded(c.id, |c.handlers|, event);
    assert h !in c.handlers;
  }

  /** A context that another context's step did not touch stays valid. */
  lemma Untouched(w: World, w': World, d: Ctx)
    requires CtxValid(w, d)
    requires forall h :: Own(d, h) ==> w'.live[h] == w.live[h]
    requires d.active ==> forall key :: key in w'.table && w'.table[key].plugin == d.plugin ==>
                                          key in w.table && w'.table[key] == w.table[key]
    ensures CtxValid(w', d)
  {
    forall h | h in w'.live && Own(d, h) ensures h in d.wrappers {
      assert h in w.live;
    }
    forall h | h in d.wrappers ensures w'.live[h] == 1 {
      assert h in w.live;
      assert h in d.handlers;
    }
  }
}
