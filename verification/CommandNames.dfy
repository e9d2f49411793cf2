/** Which spellings name one command, and what the registry answers to a second one. */
module CommandNames {
  import opened Text
  import opened Commands

  // ---------------------------------------------------------------- normal forms

  predicate AllSpace(s: string) {
    forall i :: 0 <= i < |s| ==> IsSpace(s[i])
  }

  predicate AllMarks(s: string) {
    forall i :: 0 <= i < |s| ==> s[i] == '/' || s[i] == '.'
  }

  /** A written name is white space, slashes and dots, the name itself, and white space. */
  ghost predicate IsWritten(written: string, u: string, marks: string, name: string, v: string) {
    && written == u + (marks + name) + v && AllSpace(u) && AllSpace(v) && AllMarks(marks)
    && (name != "" ==> name[0] != '/' && name[0] != '.' && !IsSpace(name[|name| - 1]))
    && (marks == "" && name != "" ==> !IsSpace(name[0]))
  }

  lemma {:induction false} LowerAppend(a: string, b: string)
    ensures Lower(a + b) == Lower(a) + Lower(b)
  {}

  /** However it is written, a command is filed under the name itself in lower case. */
  lemma {:induction false} NormalizeExactly(written: string, u: string, marks: string, name: string, v: string)
    requires IsWritten(written, u, marks, name, v)
    ensures Normalize(written) == Lower(name)
  {
    var core := marks + name;
    assert core != "" ==> core[0] == (if marks != "" then marks[0] else name[0])
                          && core[|core| - 1] == if name != "" then name[|name| - 1] else marks[|marks| - 1];
    StripExactly(u, core, v);
    LowerAppend(marks, name);
    forall i | 0 <= i < |marks| ensures IsPrefixMark(Lower(marks)[i]) { LowerKeepsKind(marks[i]); }
    DropFront(Lower(marks), Lower(name), IsPrefixMark);
    if name != "" { LowerKeepsKind(name[0]); }
  }

  lemma PiecesFit(written: string, u: string, rest: string, core: string, marks: string, name: string, v: string)
    requires written == u + rest && rest == core + v && core == marks + name
    ensures written == u + (marks + name) + v
    ensures name != "" ==> name[|name| - 1] == core[|core| - 1]
    ensures marks == "" ==> name == core
    ensures core != "" ==> rest != "" && rest[0] == core[0]
  {}

  /** Every string is such a written name. */
  lemma {:induction false} EveryStringIsWritten(written: string)
    returns (u: string, marks: string, name: string, v: string)
    ensures IsWritten(written, u, marks, name, v)
  {
    u := Stripped(written, IsSpace);
    var rest := LStrip(written, IsSpace);
    v := RStripped(rest, IsSpace);
    var core := RStrip(rest, IsSpace);
    RStripEnds(rest, IsSpace);
    RStripPrefix(rest, IsSpace);
    marks := Stripped(core, IsPrefixMark);
    name := LStrip(core, IsPrefixMark);
    PiecesFit(written, u, rest, core, marks, name, v);
    hide LStrip, RStrip, IsSpace;
  }

  lemma {:induction false} StripLower(s: string)
    ensures LStrip(Lower(s), IsSpace) == Lower(LStrip(s, IsSpace))
    ensures RStrip(Lower(s), IsSpace) == Lower(RStrip(s, IsSpace))
    decreases |s|
  {
    if s != "" {
      LowerKeepsKind(s[0]);
      LowerKeepsKind(s[|s| - 1]);
      assert Lower(s)[1..] == Lower(s[1..]) && Lower(s)[..|s| - 1] == Lower(s[..|s| - 1]);
      StripLower(s[1..]);
      StripLower(s[..|s| - 1]);
    }
  }

  /** Case does not matter, and a normal form has none. */
  lemma {:induction false} CaseDoesNotMatter(a: string, b: string)
    requires Lower(a) == Lower(b)
    ensures Normalize(a) == Normalize(b)
    ensures Lower(Normalize(a)) == Normalize(a)
  {
    StripLower(a);
    StripLower(b);
    StripLower(LStrip(a, IsSpace));
    StripLower(LStrip(b, IsSpace));
    assert Lower(Strip(a)) == Strip(Lower(a)) == Strip(Lower(b)) == Lower(Strip(b));
    LStripLower(Strip(a));
    LowerTwice(LStrip(Strip(a), IsPrefixMark));
  }

  // ---------------------------------------------------------------- what the registry answers

  /** Once a command is registered, no spelling of it in other letters can be, and each of them finds its row. */
  lemma {:induction false} OneCommandForAllCases(table: Table, a: string, callback: Callback, helpText: string,
      aliases: seq<string>, plugin: string, b: string, callback': Callback, helpText': string, aliases': seq<string>,
      plugin': string)
    requires Registered(table, a, callback, helpText, aliases, plugin).Ok? && Lower(a) == Lower(b)
    ensures var table' := Registered(table, a, callback, helpText, aliases, plugin).value;
            && Registered(table', b, callback', helpText', aliases', plugin') == Err(AlreadyRegistered(Normalize(a)))
            && Normalize(b) in table'
            && var row := table'[Normalize(b)];
               row.name == Normalize(a) && row.callback == callback && row.helpText == helpText && row.plugin == plugin
  {
    CaseDoesNotMatter(a, b);
    RegisteredRows(table, a, callback, helpText, aliases, plugin);
    hide Normalize, NormalAliases;
  }

  /** The first of the keys, in order, that is taken. */
  predicate IsFirstTaken(table: Table, keys: seq<string>, i: int) {
    0 <= i < |keys| && keys[i] in table && forall j :: 0 <= j < i ==> keys[j] !in table
  }

  ghost predicate TakenFirst(table: Table, keys: seq<string>, key: string) {
    exists i :: IsFirstTaken(table, keys, i) && keys[i] == key
  }

  lemma {:induction false} FirstTakenExactly(table: Table, keys: seq<string>, key: string)
    ensures FirstTaken(table, keys) == Some(key) <==> TakenFirst(table, keys, key)
    decreases |keys|
  {
    if keys != [] {
      FirstTakenExactly(table, keys[1..], key);
      if keys[0] in table {
        assert IsFirstTaken(table, keys, 0);
      } else {
        if i :| IsFirstTaken(table, keys[1..], i) && keys[1..][i] == key {
          assert IsFirstTaken(table, keys, i + 1) && keys[i + 1] == key;
        }
        if i :| IsFirstTaken(table, keys, i) && keys[i] == key {
          assert i > 0 && IsFirstTaken(table, keys[1..], i - 1) && keys[1..][i - 1] == key;
        }
      }
    }
  }

  /**
   * Why a registration fails, in the order in which the reasons are looked at: a blank name, its
   * own key, a callback that cannot be called, and the first of its aliases that is taken.
   */
  lemma {:induction false} RefusedExactly(table: Table, name: string, callback: Callback, helpText: string,
      aliases: seq<string>, plugin: string, key: string)
    ensures var r, main := Registered(table, name, callback, helpText, aliases, plugin), Normalize(name);
            var taken := TakenFirst(table, NormalAliases(aliases, main), key);
            && (r == Err(EmptyName) <==> main == "")
            && (r == Err(NotCallable) <==> main != "" && main !in table && !callback.callable)
            && (r == Err(AlreadyRegistered(key)) <==>
                  main != "" && (if main in table then key == main else callback.callable && taken))
  {
    FirstTakenExactly(table, NormalAliases(aliases, Normalize(name)), key);
    hide Normalize, NormalAliases, FirstTaken, TakenFirst;
  }

  /**
   * The aliases a registration keeps: the usable normal forms, once each, in the order of their
   * first mentions, which stand at `at`.
   */
  lemma {:induction false} AliasesInOrder(aliases: seq<string>, main: string) returns (at: seq<nat>)
    ensures var kept := NormalAliases(aliases, main);
            && |at| == |kept|
            && (forall i :: 0 <= i < |at| ==> at[i] < |aliases| && Normalize(aliases[at[i]]) == kept[i])
            && (forall i, j :: 0 <= i < j < |at| ==> at[i] < at[j] && kept[i] != kept[j])
            && (forall k :: k in kept ==> k != "" && k != main)
            && (forall m :: 0 <= m < |aliases| && Normalize(aliases[m]) != "" && Normalize(aliases[m]) != main ==>
                  MentionedBy(kept, at, Normalize(aliases[m]), m))
    decreases |aliases|
  {
    if aliases == [] { return []; }
    var init, last := aliases[..|aliases| - 1], |aliases| - 1;
    var before := AliasesInOrder(init, main);
    var kept, was, k := NormalAliases(aliases, main), NormalAliases(init, main), Normalize(aliases[last]);
    assert kept == if k != "" && k != main && k !in was then was + [k] else was;
    hide Normalize, NormalAliases;
    at := if k != "" && k != main && k !in was then before + [last] else before;
    OneAliasMore(aliases, main, was, before, kept, at);
  }

  lemma OneAliasMore(aliases: seq<string>, main: string, was: seq<string>, before: seq<nat>, kept: seq<string>,
      at: seq<nat>)
    requires aliases != [] && |before| == |was|
    requires var init, k := aliases[..|aliases| - 1], Normalize(aliases[|aliases| - 1]);
             && (forall i :: 0 <= i < |before| ==> before[i] < |init| && Normalize(init[before[i]]) == was[i])
             && (forall m :: 0 <= m < |init| && Normalize(init[m]) != "" && Normalize(init[m]) != main ==>
                   MentionedBy(was, before, Normalize(init[m]), m))
             && (if k != "" && k != main && k !in was then kept == was + [k] && at == before + [|aliases| - 1]
                 else kept == was && at == before)
    ensures forall i :: 0 <= i < |at| ==> at[i] < |aliases| && Normalize(aliases[at[i]]) == kept[i]
    ensures forall m :: 0 <= m < |aliases| && Normalize(aliases[m]) != "" && Normalize(aliases[m]) != main ==>
              MentionedBy(kept, at, Normalize(aliases[m]), m)
  {
    hide Normalize;
    var init, last := aliases[..|aliases| - 1], |aliases| - 1;
    var k := Normalize(aliases[last]);
    assert forall m :: 0 <= m < |init| ==> init[m] == aliases[m];
    forall m | 0 <= m < |aliases| && Normalize(aliases[m]) != "" && Normalize(aliases[m]) != main
      ensures MentionedBy(kept, at, Normalize(aliases[m]), m)
    {
      if m < last {
        assert MentionedBy(was, before, Normalize(init[m]), m);
        StillMentioned(was, before, kept, at, Normalize(aliases[m]), m);
      } else if k in was {
        var i :| 0 <= i < |was| && was[i] == k;
        assert kept[i] == k && at[i] <= m;
      } else {
        assert kept[|was|] == k && at[|was|] == m;
      }
    }
  }

  ghost predicate MentionedBy(kept: seq<string>, at: seq<nat>, k: string, m: int) {
    |at| == |kept| && exists i :: 0 <= i < |kept| && kept[i] == k && at[i] <= m
  }

  lemma StillMentioned(kept: seq<string>, at: seq<nat>, kept': seq<string>, at': seq<nat>, k: string, m: int)
    requires MentionedBy(kept, at, k, m) && |at'| == |kept'| && kept <= kept' && at <= at'
    ensures MentionedBy(kept', at', k, m)
  {
    var i :| 0 <= i < |kept| && kept[i] == k && at[i] <= m;
    assert kept'[i] == k && at'[i] <= m;
  }

  /** Unregistering an alias takes the alias and the command itself, and leaves its other aliases. */
  lemma {:induction false} UnregisteringAnAlias(table: Table, name: string, callback: Callback, helpText: string,
      aliases: seq<string>, plugin: string, alias: string)
    requires Registered(table, name, callback, helpText, aliases, plugin).Ok?
    requires Normalize(alias) in ClaimedKeys(name, aliases) && Normalize(alias) != Normalize(name)
    ensures var table' := Registered(table, name, callback, helpText, aliases, plugin).value;
            Unregistered(table', alias, plugin) == table' - {Normalize(alias), Normalize(name)}
  {
    RegisteredRows(table, name, callback, helpText, aliases, plugin);
    hide Normalize, NormalAliases, Unregistered;
    var table' := Registered(table, name, callback, helpText, aliases, plugin).value;
    DropsRowAndName(table', alias, Normalize(name), plugin);
  }

  lemma DropsRowAndName(table: Table, alias: string, main: string, plugin: string)
    requires Normalize(alias) in table && main in table && table[Normalize(alias)].name == main
    requires table[Normalize(alias)].aliases == []
    requires table[Normalize(alias)].plugin == plugin && table[main].plugin == plugin
    ensures Unregistered(table, alias, plugin) == table - {Normalize(alias), main}
  {
    hide Normalize;
    assert Elems([]) == {};
  }
}
