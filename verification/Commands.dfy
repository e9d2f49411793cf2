/** The command registry of `src/userbot/commands.py`: which name belongs to which plugin. */
module Commands {
  import opened Text

  /** Owner of the commands the application registers for itself. */
  const CORE := "core"

  datatype Callback = Callback(id: nat, callable: bool)

  datatype Registration = Registration(name: string, callback: Callback, helpText: string,
                                       aliases: seq<string>, plugin: string)

  type Table = map<string, Registration>

  datatype RegisterError = EmptyName | AlreadyRegistered(key: string) | NotCallable

  predicate IsPrefixMark(c: char) {
    c == '/' || c == '.'
  }

  function Normalize(name: string): string {
    LStrip(Lower(Strip(name)), IsPrefixMark)
  }

  /** Normalisation is not idempotent: the context normalises once and the registry once more. */
  lemma NormalizeIsNotIdempotent()
    ensures Normalize("/ x") == " x" && Normalize(Normalize("/ x")) == "x"
  {
    assert Strip("/ x") == "/ x";
    assert Lower("/ x") == "/ x";
    assert LStrip(" x", IsSpace) == LStrip("x", IsSpace) == "x";
    assert Strip(" x") == "x";
    assert Lower("x") == "x";
    assert LStrip("/ x", IsPrefixMark) == LStrip(" x", IsPrefixMark);
  }

  lemma LowerKeepsKind(c: char)
    ensures IsSpace(LowerChar(c)) == IsSpace(c) && IsPrefixMark(LowerChar(c)) == IsPrefixMark(c)
    ensures LowerChar(LowerChar(c)) == LowerChar(c)
  {}

  lemma {:induction false} LStripLower(s: string)
    ensures LStrip(Lower(s), IsPrefixMark) == Lower(LStrip(s, IsPrefixMark))
    decreases |s|
  {
    if s != "" {
      LowerKeepsKind(s[0]);
      if IsPrefixMark(s[0]) {
        assert Lower(s)[1..] == Lower(s[1..]);
        LStripLower(s[1..]);
      }
    }
  }

  lemma {:induction false} NormalStays(u: string)
    requires u == "" || (!IsSpace(u[0]) && !IsSpace(u[|u| - 1]) && !IsPrefixMark(u[0]))
    requires Lower(u) == u
    ensures Normalize(u) == u
  {}

  lemma {:induction false} SpaceGoes(u: string)
    requires u != "" && IsSpace(u[0])
    ensures |Normalize(u)| < |u|
  {
    LStripIsSuffix(u, IsSpace);
    RStripEnds(LStrip(u, IsSpace), IsSpace);
    LStripIsSuffix(Lower(Strip(u)), IsPrefixMark);
  }

  lemma LowerTwice(s: string)
    ensures Lower(Lower(s)) == Lower(s)
  {
    forall i | 0 <= i < |s| ensures LowerChar(LowerChar(s[i])) == LowerChar(s[i]) { LowerKeepsKind(s[i]); }
  }

  /**
   * Normalising twice is normalising once exactly if no white space follows the slashes and dots in
   * front of the trimmed name.
   */
  lemma {:induction false} NormalizeTwiceExactly(name: string)
    ensures Normalize(Normalize(name)) == Normalize(name)
            <==> var rest := LStrip(Strip(name), IsPrefixMark); rest == "" || !IsSpace(rest[0])
  {
    var rest := LStrip(Strip(name), IsPrefixMark);
    LStripLower(Strip(name));
    RStripEnds(LStrip(name, IsSpace), IsSpace);
    LStripIsSuffix(Strip(name), IsPrefixMark);
    LowerTwice(rest);
    var once := Normalize(name);
    assert once == Lower(rest) && (once == "" || !IsPrefixMark(once[0]));
    hide LStrip, RStrip, Normalize;
    if rest != "" {
      LowerKeepsKind(rest[0]);
      LowerKeepsKind(rest[|rest| - 1]);
    }
    if rest != "" && IsSpace(rest[0]) { SpaceGoes(once); } else { NormalStays(once); }
  }

  /** Aliases as they enter the table: normalised, non-empty, not the name itself, first mention wins. */
  function NormalAliases(aliases: seq<string>, main: string): seq<string> {
    if aliases == [] then []
    else
      var kept := NormalAliases(aliases[..|aliases| - 1], main);
      var alias := Normalize(aliases[|aliases| - 1]);
      if alias != "" && alias != main && alias !in kept then kept + [alias] else kept
  }

  function Elems(s: seq<string>): set<string> {
    set a | a in s
  }

  lemma ElemsOfAppend(s: seq<string>, i: nat)
    requires i < |s|
    ensures Elems(s[..i + 1]) == Elems(s[..i]) + {s[i]}
  {
    assert s[..i + 1] == s[..i] + [s[i]];
  }

  /** Every key a registration claims: the normal form of its name and of its non-blank aliases. */
  function ClaimedKeys(name: string, aliases: seq<string>): set<string> {
    {Normalize(name)} + (set a | a in aliases && Normalize(a) != "" :: Normalize(a))
  }

  lemma {:induction false} NormalAliasesAreClaimed(name: string, aliases: seq<string>)
    ensures var main := Normalize(name);
            && main !in NormalAliases(aliases, main)
            && {main} + Elems(NormalAliases(aliases, main)) == ClaimedKeys(name, aliases)
  {
    if aliases != [] {
      var init, last := aliases[..|aliases| - 1], aliases[|aliases| - 1];
      NormalAliasesAreClaimed(name, init);
      assert forall a :: a in aliases <==> a in init || a == last;
    }
  }

  /** The table rows one registration adds: its own, plus one without aliases per alias. */
  function Rows(main: string, callback: Callback, helpText: string, aliases: seq<string>,
                keys: set<string>, plugin: string): Table
  {
    map key | key in keys :: Registration(main, callback, helpText, if key == main then aliases else [], plugin)
  }

  lemma AddRow(table: Table, main: string, callback: Callback, helpText: string, aliases: seq<string>,
               keys: set<string>, alias: string, plugin: string)
    requires alias != main
    ensures (table + Rows(main, callback, helpText, aliases, keys, plugin))
              [alias := Registration(main, callback, helpText, [], plugin)]
            == table + Rows(main, callback, helpText, aliases, keys + {alias}, plugin)
  {}

  function RowsOf(name: string, callback: Callback, helpText: string, aliases: seq<string>, plugin: string): Table {
    var main := Normalize(name);
    var normal := NormalAliases(aliases, main);
    Rows(main, callback, helpText, normal, {main} + Elems(normal), plugin)
  }

  function FirstTaken(table: Table, keys: seq<string>): Option<string> {
    if keys == [] then None
    else if keys[0] in table then Some(keys[0])
    else FirstTaken(table, keys[1..])
  }

  lemma {:induction false} FirstTakenNone(table: Table, keys: seq<string>)
    ensures FirstTaken(table, keys).None? <==> forall key :: key in keys ==> key !in table
  {
    if keys != [] {
      FirstTakenNone(table, keys[1..]);
      assert forall key :: key in keys <==> key == keys[0] || key in keys[1..];
    }
  }

  /** What `register` does to the table, or how it refuses. */
  function Registered(table: Table, name: string, callback: Callback, helpText: string,
                      aliases: seq<string>, plugin: string): Result<Table, RegisterError>
  {
    var main := Normalize(name);
    if main == "" then Err(EmptyName)
    else if main in table then Err(AlreadyRegistered(main))
    else if !callback.callable then Err(NotCallable)
    else
      var normal := NormalAliases(aliases, main);
      match FirstTaken(table, normal)
      case Some(key) => Err(AlreadyRegistered(key))
      case None => Ok(table + RowsOf(name, callback, helpText, aliases, plugin))
  }

  /** The table without the rows of `keys` that belong to `plugin`. */
  function Drop(table: Table, keys: set<string>, plugin: string): Table {
    map key | key in table && !(key in keys && table[key].plugin == plugin) :: table[key]
  }

  /** The table without any row of `plugin`. */
  function DropOwner(table: Table, plugin: string): Table {
    map key | key in table && table[key].plugin != plugin :: table[key]
  }

  function Unregistered(table: Table, name: string, plugin: string): Table {
    var key := Normalize(name);
    if key !in table || table[key].plugin != plugin then table
    else Drop(table, {key, table[key].name} + Elems(table[key].aliases), plugin)
  }

  function UnregisteredAll(table: Table, names: seq<string>, plugin: string): Table {
    if names == [] then table
    else Unregistered(UnregisteredAll(table, names[..|names| - 1], plugin), names[|names| - 1], plugin)
  }

  /** Unregistering a batch only takes rows of `plugin`, and takes the row of every listed name. */
  lemma {:induction false} UnregisteredAllFrame(table: Table, names: seq<string>, plugin: string)
    ensures forall key :: key in UnregisteredAll(table, names, plugin) ==>
              key in table && UnregisteredAll(table, names, plugin)[key] == table[key]
    ensures forall key :: key in table && table[key].plugin != plugin ==>
              key in UnregisteredAll(table, names, plugin)
    ensures forall name :: name in names ==>
              var key := Normalize(name);
              key in UnregisteredAll(table, names, plugin) ==> table[key].plugin != plugin
  {
    if names != [] {
      var init := names[..|names| - 1];
      UnregisteredAllFrame(table, init, plugin);
      forall name | name in names
        ensures var key := Normalize(name);
                key in UnregisteredAll(table, names, plugin) ==> table[key].plugin != plugin
      {
        assert name in init || name == names[|names| - 1];
      }
    }
  }

  /** Every row of `plugin` sits under the normal form of one of `names`. */
  predicate CoveredBy(table: Table, names: set<string>, plugin: string) {
    forall key :: key in table && table[key].plugin == plugin ==> exists n :: n in names && Normalize(n) == key
  }

  /**
   * The order in which a set of names is unregistered does not matter: as long as the
   * names cover the plugin's rows, every enumeration leaves exactly the other owners' rows.
   */
  lemma UnregisterOrderIrrelevant(table: Table, names: set<string>, order: seq<string>, plugin: string)
    requires CoveredBy(table, names, plugin)
    requires forall n :: n in names ==> n in order
    ensures UnregisteredAll(table, order, plugin) == DropOwner(table, plugin)
  {
    UnregisteredAllFrame(table, order, plugin);
    var result := UnregisteredAll(table, order, plugin);
    forall key | key in table && table[key].plugin == plugin
      ensures key !in result
    {
      var n :| n in names && Normalize(n) == key;
      assert n in order;
    }
  }

  /** A registration leaves every existing row alone and claims fresh keys only, for its own plugin. */
  lemma {:induction false} RegisteredRows(table: Table, name: string, callback: Callback, helpText: string,
                       aliases: seq<string>, plugin: string)
    requires Registered(table, name, callback, helpText, aliases, plugin).Ok?
    ensures var keys := ClaimedKeys(name, aliases);
            && keys !! table.Keys
            && Registered(table, name, callback, helpText, aliases, plugin).value
               == table + RowsOf(name, callback, helpText, aliases, plugin)
            && RowsOf(name, callback, helpText, aliases, plugin).Keys == keys
  {
    NormalAliasesAreClaimed(name, aliases);
    FirstTakenNone(table, NormalAliases(aliases, Normalize(name)));
  }

  /** A registration goes through exactly when its name is usable and every key it claims is free. */
  lemma RegisteredExactly(table: Table, name: string, callback: Callback, helpText: string,
                          aliases: seq<string>, plugin: string)
    ensures Registered(table, name, callback, helpText, aliases, plugin).Ok?
            <==> Normalize(name) != "" && callback.callable && ClaimedKeys(name, aliases) !! table.Keys
  {
    NormalAliasesAreClaimed(name, aliases);
    FirstTakenNone(table, NormalAliases(aliases, Normalize(name)));
  }

  /** Undo: unregistering the name just registered restores the table, whoever owned other rows. */
  lemma RegisterThenUnregister(table: Table, name: string, callback: Callback, helpText: string,
                               aliases: seq<string>, plugin: string)
    requires Registered(table, name, callback, helpText, aliases, plugin).Ok?
    ensures Unregistered(Registered(table, name, callback, helpText, aliases, plugin).value, name, plugin) == table
  {
    var main := Normalize(name);
    RegisteredRows(table, name, callback, helpText, aliases, plugin);
    NormalAliasesAreClaimed(name, aliases);
  }

  /** The dispatcher's registry, updated in place. */
  class CommandDispatcher {
    var commands: Table

    constructor ()
      ensures commands == map[]
    {
      commands := map[];
    }

    static method DistinctAliases(aliases: seq<string>, main: string) returns (normal: seq<string>)
      ensures normal == NormalAliases(aliases, main)
    {
      normal := [];
      for i := 0 to |aliases|
        invariant normal == NormalAliases(aliases[..i], main)
      {
        assert aliases[..i + 1][..i] == aliases[..i];
        var alias := Normalize(aliases[i]);
        if alias != "" && alias != main && alias !in normal { normal := normal + [alias]; }
      }
      assert aliases[..|aliases|] == aliases;
    }

    method FindTaken(candidates: seq<string>) returns (taken: Option<string>)
      ensures taken == FirstTaken(commands, candidates)
    {
      for i := 0 to |candidates|
        invariant FirstTaken(commands, candidates) == FirstTaken(commands, candidates[i..])
      {
        if candidates[i] in commands { return Some(candidates[i]); }
      }
      taken := None;
    }

    method Insert(main: string, callback: Callback, helpText: string, normal: seq<string>, plugin: string)
      requires main !in normal
      modifies `commands
      ensures commands == old(commands) + Rows(main, callback, helpText, normal, {main} + Elems(normal), plugin)
    {
      commands := commands[main := Registration(main, callback, helpText, normal, plugin)];
      assert {main} + Elems(normal[..0]) == {main};
      for k := 0 to |normal|
        invariant commands == old(commands) + Rows(main, callback, helpText, normal, {main} + Elems(normal[..k]),
            plugin)
      {
        ElemsOfAppend(normal, k);
        assert {main} + Elems(normal[..k + 1]) == {main} + Elems(normal[..k]) + {normal[k]};
        AddRow(old(commands), main, callback, helpText, normal, {main} + Elems(normal[..k]), normal[k], plugin);
        commands := commands[normal[k] := Registration(main, callback, helpText, [], plugin)];
      }
      assert normal[..|normal|] == normal;
    }

    method Register(name: string, callback: Callback, helpText: string, aliases: seq<string>, plugin: string)
      returns (error: Option<RegisterError>)
      modifies `commands
      ensures match Registered(old(commands), name, callback, helpText, aliases, plugin)
              case Ok(table) => error == None && commands == table
              case Err(e) => error == Some(e) && commands == old(commands)
    {
      var main := Normalize(name);
      if main == "" { return Some(EmptyName); }
      if main in commands { return Some(AlreadyRegistered(main)); }
      if !callback.callable { return Some(NotCallable); }
      var normal := DistinctAliases(aliases, main);
      var taken := FindTaken([main] + normal);
      assert ([main] + normal)[1..] == normal;
      if taken.Some? { return Some(AlreadyRegistered(taken.value)); }
      NormalAliasesAreClaimed(name, aliases);
      Insert(main, callback, helpText, normal, plugin);
      error := None;
    }

    method Unregister(name: string, plugin: string)
      modifies `commands
      ensures commands == Unregistered(old(commands), name, plugin)
    {
      var key := Normalize(name);
      if key !in commands || commands[key].plugin != plugin { return; }
      var registration := commands[key];
      commands := commands - {key};
      var candidates := [registration.name] + registration.aliases;
      for i := 0 to |candidates|
        invariant commands == Drop(old(commands), {key} + Elems(candidates[..i]), plugin)
      {
        var candidate := candidates[i];
        ElemsOfAppend(candidates, i);
        if candidate in commands && commands[candidate].plugin == plugin {
          commands := commands - {candidate};
        }
      }
      assert candidates[..|candidates|] == candidates;
      assert Elems(candidates) == {registration.name} + Elems(registration.aliases);
      assert {key} + Elems(candidates) == {key, registration.name} + Elems(registration.aliases);
    }
  }
}
