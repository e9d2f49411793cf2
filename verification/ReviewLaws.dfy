/** What the review notes without refusing, how it puts split texts together, and how far it follows an import. */
module ReviewLaws {
  import opened Text
  import opened Review
  import opened Alarms

  // ---------------------------------------------------------------- what is noted without refusing

  const NOTED_METHODS := {"system", "popen", "disconnect", "disconnect_", "send_file", "Delete"}

  /** A call of one of these on anything is put down, and does not refuse the module. */
  function Notes(node: Node): seq<Finding> {
    if node.Call? && node.func.Attribute? && node.func.attr in NOTED_METHODS
    then [Finding(node.line, Medium, DangerousMethod(node.func.attr), Dotted(node.func))] else []
  }

  function NotesOf(nodes: seq<Node>): seq<Finding> {
    if nodes == [] then [] else NotesOf(nodes[..|nodes| - 1]) + Notes(nodes[|nodes| - 1])
  }

  function Mediums(findings: seq<Finding>): seq<Finding> {
    if findings == [] then []
    else
      var init, f := findings[..|findings| - 1], findings[|findings| - 1];
      Mediums(init) + if f.severity.Medium? then [f] else []
  }

  lemma {:induction false} NotesAppend(a: seq<Node>, b: seq<Node>)
    ensures NotesOf(a + b) == NotesOf(a) + NotesOf(b)
    decreases |b|
  {
    if b == [] {
      assert a + b == a;
    } else {
      assert (a + b)[..|a + b| - 1] == a + b[..|b| - 1];
      NotesAppend(a, b[..|b| - 1]);
    }
  }

  lemma {:induction false} MediumsAppend(a: seq<Finding>, b: seq<Finding>)
    ensures Mediums(a + b) == Mediums(a) + Mediums(b)
    decreases |b|
  {
    if b == [] {
      assert a + b == a;
    } else {
      assert (a + b)[..|a + b| - 1] == a + b[..|b| - 1];
      MediumsAppend(a, b[..|b| - 1]);
    }
  }

  lemma {:induction false} NoMediums(findings: seq<Finding>)
    requires forall f :: f in findings ==> f.severity.High?
    ensures Mediums(findings) == []
    decreases |findings|
  {
    if findings != [] { NoMediums(findings[..|findings| - 1]); }
  }

  lemma OneNote(node: Node)
    ensures NotesOf([node]) == Notes(node)
  {
    assert [node][..0] == [];
  }

  lemma OneMedium(f: Finding)
    ensures Mediums([f]) == if f.severity.Medium? then [f] else []
  {
    assert [f][..0] == [];
  }

  lemma NotedOrRefused(attr: string)
    ensures attr in NOTED_METHODS <==>
              attr in DANGEROUS_METHODS && attr !in NETWORK_CALLS && attr !in {"rmtree", "unlink", "rmdir"}
    ensures attr in {"rmtree", "unlink", "rmdir"} || attr in NOTED_METHODS ==> attr !in NETWORK_CALLS
  {}

  lemma {:induction false} MemberNotes(node: Node, target: seq<string>)
    requires node.Call?
    ensures Mediums(MemberFindings(node.line, node.func, target, Dotted(node.func))) == Notes(node)
  {
    hide Mediums, Dotted;
    var member := MemberFindings(node.line, node.func, target, Dotted(node.func));
    assert |member| <= 1;
    if node.func.Attribute? { NotedOrRefused(node.func.attr); }
    if member == [] {
      NoMediums(member);
      assert Notes(node) == [];
    } else {
      OneMedium(member[0]);
      assert member == [member[0]];
      var attr := node.func.attr;
      assert node.func.Attribute?;
      if attr in NETWORK_CALLS {
        assert attr !in NOTED_METHODS;
        assert attr !in {"rmtree", "unlink", "rmdir"};
        assert member[0].severity.High?;
      } else {
        assert member[0].severity.Medium? <==> attr !in {"rmtree", "unlink", "rmdir"};
      }
    }
  }

  lemma {:induction false} CallNotes(aliases: Aliases, node: Node)
    requires node.Call?
    ensures Mediums(CallFindings(aliases, node.line, node.func)) == Notes(node)
  {
    var written := Dotted(node.func);
    var target := Resolve(aliases, written);
    var reach, bare := ReachFindings(node.line, target, written), BareFindings(node.line, node.func);
    var member := MemberFindings(node.line, node.func, target, written);
    ReachIsHigh(node.line, target, written);
    BareIsHigh(node.line, node.func);
    hide Dotted, Resolve, ReachFindings, BareFindings, MemberFindings, Notes, Mediums;
    MemberNotes(node, target);
    NoMediums(reach);
    NoMediums(bare);
    MediumsAppend(reach, bare);
    MediumsAppend(reach + bare, member);
    assert [] + Mediums(member) == Mediums(member);
    assert reach + bare + member == CallFindings(aliases, node.line, node.func);
  }

  lemma ReachIsHigh(line: nat, target: seq<string>, written: seq<string>)
    ensures forall f :: f in ReachFindings(line, target, written) ==> f.severity.High?
  {}

  lemma BareIsHigh(line: nat, func: Node)
    ensures forall f :: f in BareFindings(line, func) ==> f.severity.High?
  {}

  lemma {:induction false} ImportsNote(s: State, line: nat, names: seq<ImportName>)
    ensures Mediums(WithImports(s, line, names).findings) == Mediums(s.findings)
    decreases |names|
  {
    if names != [] {
      var found := ModuleFindings(line, names[0].Path());
      MediumsAppend(s.findings, found);
      NoMediums(found);
      ImportsNote(WithImport(s, line, names[0]), line, names[1..]);
    }
  }

  lemma {:induction false} FromsNote(s: State, line: nat, mod: seq<string>, names: seq<FromName>)
    ensures Mediums(WithFroms(s, line, mod, names).findings) == Mediums(s.findings)
    decreases |names|
  {
    if names != [] {
      var found := ModuleFindings(line, if mod == [] then [names[0].name] else mod);
      MediumsAppend(s.findings, found);
      NoMediums(found);
      FromsNote(WithFrom(s, line, mod, names[0]), line, mod, names[1..]);
    }
  }

  ghost predicate Noted(s: State, r: State, nodes: seq<Node>) {
    Mediums(r.findings) == Mediums(s.findings) + NotesOf(nodes)
  }

  lemma {:induction false} AtNodeNotes(s: State, node: Node)
    ensures Noted(s, AtNode(s, node), [node])
  {
    OneNote(node);
    hide NotesOf, CallFindings, SessionFindings, JoinedConstants, EndsWith, Dotted, WithImports, WithFroms;
    match node
    case Import(line, names) => ImportsNote(s, line, names);
    case ImportFrom(line, level, mod, names) => if level == 0 { FromsNote(s, line, mod, names); }
    case Attribute(line, _, attr) =>
      var found := if attr in DANGEROUS_ATTRIBUTES then [Finding(line, High, DangerousAttribute(attr), [])] else [];
      MediumsAppend(s.findings, found);
      NoMediums(found);
    case Call(line, func, _) =>
      MediumsAppend(s.findings, CallFindings(s.aliases, line, func));
      CallNotes(s.aliases, node);
    case Constant(line, text) => if text.Some? { SessionNotes(s, line, text.value); }
    case Add(line, _, _) => SessionNotes(s, line, JoinedConstants(node));
    case _ =>
  }

  lemma {:induction false} SessionNotes(s: State, line: nat, text: string)
    ensures Mediums(s.findings + SessionFindings(line, text)) == Mediums(s.findings)
  {
    MediumsAppend(s.findings, SessionFindings(line, text));
    NoMediums(SessionFindings(line, text));
  }

  lemma NotedAppend(s: State, s1: State, s2: State, first: seq<Node>, second: seq<Node>)
    requires Noted(s, s1, first) && Noted(s1, s2, second)
    ensures Noted(s, s2, first + second)
  {
    NotesAppend(first, second);
  }

  lemma {:induction false} VisitNotes(s: State, node: Node)
    ensures Noted(s, Visit(s, node), Preorder(node))
    decreases node
  {
    hide Noted, WithImports, WithFroms, CallFindings, SessionFindings, JoinedConstants;
    var s1, s2 := AtNode(s, node), Visit(s, node);
    AtNodeNotes(s, node);
    NotedNothing(s1);
    match node
    case Attribute(_, value, _) =>
      VisitNotes(s1, value);
      NotedAppend(s, s1, s2, [node], Preorder(value));
    case Call(_, func, args) =>
      var mid := Visit(s1, func);
      VisitNotes(s1, func);
      VisitAllNotes(mid, args);
      NotedAppend(s1, mid, s2, Preorder(func), PreorderAll(args));
      NotedAppend(s, s1, s2, [node], Preorder(func) + PreorderAll(args));
    case JoinedStr(_, parts) =>
      VisitAllNotes(s1, parts);
      NotedAppend(s, s1, s2, [node], PreorderAll(parts));
    case Add(_, left, right) =>
      var mid := Visit(s1, left);
      VisitNotes(s1, left);
      VisitNotes(mid, right);
      NotedAppend(s1, mid, s2, Preorder(left), Preorder(right));
      NotedAppend(s, s1, s2, [node], Preorder(left) + Preorder(right));
    case Other(_, children) =>
      VisitAllNotes(s1, children);
      NotedAppend(s, s1, s2, [node], PreorderAll(children));
    case _ => NotedAppend(s, s1, s2, [node], []);
  }

  lemma NotedNothing(s: State)
    ensures Noted(s, s, [])
  {}

  lemma {:induction false} VisitAllNotes(s: State, nodes: Nodes)
    ensures Noted(s, VisitAll(s, nodes), PreorderAll(nodes))
    decreases nodes
  {
    hide Noted;
    match nodes
    case Nil => NotedNothing(s);
    case Cons(head, tail) =>
      VisitNotes(s, head);
      VisitAllNotes(Visit(s, head), tail);
      NotedAppend(s, Visit(s, head), VisitAll(s, nodes), Preorder(head), PreorderAll(tail));
  }

  /** The findings that do not refuse are one for each call of a noted method, in order, whatever is imported. */
  lemma {:induction false} NotedExactly(tree: Node)
    ensures Mediums(Findings(tree)) == NotesOf(Preorder(tree))
  {
    hide Preorder, NotesOf, Mediums, Visit, Noted;
    VisitNotes(State([], map[]), tree);
    NotedFromNothing(Visit(State([], map[]), tree), Preorder(tree));
  }

  lemma {:induction false} NotedFromNothing(r: State, nodes: seq<Node>)
    requires Noted(State([], map[]), r, nodes)
    ensures Mediums(r.findings) == NotesOf(nodes)
  {
    assert Mediums([]) == [] && [] + NotesOf(nodes) == NotesOf(nodes);
  }

  // ---------------------------------------------------------------- split texts

  /** The operands of a `+` chain from left to right, however it is bracketed; an f-string stands for its parts. */
  function Operands(node: Node): seq<Node>
    decreases node
  {
    match node
    case Add(_, left, right) => Operands(left) + Operands(right)
    case JoinedStr(_, parts) => Listed(parts)
    case _ => [node]
  }

  function Listed(nodes: Nodes): seq<Node>
    decreases nodes
  {
    match nodes
    case Nil => []
    case Cons(head, tail) => [head] + Listed(tail)
  }

  /** The constant texts among some nodes, one after the other. */
  function TextOf(nodes: seq<Node>): string {
    if nodes == [] then ""
    else (if nodes[0].Constant? && nodes[0].text.Some? then nodes[0].text.value else "") + TextOf(nodes[1..])
  }

  lemma {:induction false} TextAppend(a: seq<Node>, b: seq<Node>)
    ensures TextOf(a + b) == TextOf(a) + TextOf(b)
  {
    if a == [] {
      assert a + b == b;
    } else {
      assert (a + b)[0] == a[0] && (a + b)[1..] == a[1..] + b;
      TextAppend(a[1..], b);
    }
  }

  lemma {:induction false} PartsInOrder(parts: Nodes)
    ensures ConstantParts(parts) == TextOf(Listed(parts))
    decreases parts
  {
    match parts
    case Nil =>
    case Cons(head, tail) =>
      PartsInOrder(tail);
      assert ([head] + Listed(tail))[1..] == Listed(tail);
  }

  /** A chain is read as its constant texts from left to right: the brackets and what is unknown do not matter. */
  lemma {:induction false} JoinsInOrder(node: Node)
    ensures JoinedConstants(node) == TextOf(Operands(node))
    decreases node
  {
    match node
    case Add(_, left, right) =>
      JoinsInOrder(left);
      JoinsInOrder(right);
      TextAppend(Operands(left), Operands(right));
    case JoinedStr(_, parts) => PartsInOrder(parts);
    case _ => assert [node][0] == node && [node][1..] == [];
  }

  /** A module in which a chain of fragments ends in the session file does not pass. */
  lemma {:induction false} SplitPathIsRefused(tree: Node, node: Node)
    requires node in Preorder(tree) && node.Add?
    requires exists front :: TextOf(Operands(node)) == front + SESSION_FILE
    ensures !Passes(Findings(tree))
  {
    JoinsInOrder(node);
    hide Preorder, Operands, TextOf, JoinedConstants;
    var front :| TextOf(Operands(node)) == front + SESSION_FILE;
    assert (front + SESSION_FILE)[|front|..] == SESSION_FILE;
    assert AlarmsInItself(node);
    NothingIsOverlooked(tree);
  }

  // ---------------------------------------------------------------- imports

  predicate BindsName(n: ImportName, name: string) {
    match n.asname
    case Some(local) => local == name
    case None => n.first == name
  }

  predicate BindsFrom(n: FromName, name: string) {
    match n.asname
    case Some(local) => local == name
    case None => n.name == name
  }

  ghost predicate Introduces(node: Node, name: string) {
    match node
    case Import(_, names) => exists n :: n in names && BindsName(n, name)
    case ImportFrom(_, level, _, names) => level == 0 && exists n :: n in names && BindsFrom(n, name)
    case _ => false
  }

  /** By the last of the names that binds it: `a.b` after `import a.b as name`, `name` after `import name.b`. */
  predicate ImportsAs(names: seq<ImportName>, name: string, path: seq<string>) {
    && names != []
    && var init, last := names[..|names| - 1], names[|names| - 1];
       if BindsName(last, name) then path == (if last.asname.Some? then [last.first] + last.rest else [name])
       else ImportsAs(init, name, path)
  }

  /** After `from a import f as name` it is `a.f`. */
  predicate FromAs(mod: seq<string>, names: seq<FromName>, name: string, path: seq<string>) {
    && names != []
    && var init, last := names[..|names| - 1], names[|names| - 1];
       if BindsFrom(last, name) then path == mod + [last.name] else FromAs(mod, init, name, path)
  }

  predicate Means(node: Node, name: string, path: seq<string>) {
    match node
    case Import(_, names) => ImportsAs(names, name, path)
    case ImportFrom(_, level, mod, names) => level == 0 && FromAs(mod, names, name, path)
    case _ => false
  }

  /** What the name stands for under these imports; a name that is not bound stands for itself. */
  predicate StandsFor(aliases: Aliases, name: string, path: seq<string>) {
    path == if name in aliases then aliases[name] else [name]
  }

  lemma {:induction false} ImportsBindTo(aliases: Aliases, names: seq<ImportName>, name: string, path: seq<string>)
    ensures ImportsAs(names, name, path) ==> StandsFor(ImportsBind(aliases, names), name, path)
    ensures (forall n :: n in names ==> !BindsName(n, name)) && StandsFor(aliases, name, path) ==>
              StandsFor(ImportsBind(aliases, names), name, path)
    decreases |names|
  {
    if names != [] { ImportsBindTo(aliases, names[..|names| - 1], name, path); }
  }

  lemma {:induction false} FromsBindTo(aliases: Aliases, mod: seq<string>, names: seq<FromName>, name: string,
                                       path: seq<string>)
    ensures FromAs(mod, names, name, path) ==> StandsFor(FromsBind(aliases, mod, names), name, path)
    ensures (forall n :: n in names ==> !BindsFrom(n, name)) && StandsFor(aliases, name, path) ==>
              StandsFor(FromsBind(aliases, mod, names), name, path)
    decreases |names|
  {
    if names != [] { FromsBindTo(aliases, mod, names[..|names| - 1], name, path); }
  }

  lemma {:induction false} NodeBindsTo(aliases: Aliases, node: Node, name: string, path: seq<string>)
    ensures Means(node, name, path) ==> StandsFor(Binds(aliases, node), name, path)
    ensures !Introduces(node, name) && StandsFor(aliases, name, path) ==> StandsFor(Binds(aliases, node), name, path)
  {
    match node
    case Import(_, names) => ImportsBindTo(aliases, names, name, path);
    case ImportFrom(_, _, mod, names) => FromsBindTo(aliases, mod, names, name, path);
    case _ =>
  }

  /** A name stands for what the last node that binds it says. */
  lemma {:induction false} LastImportCounts(aliases: Aliases, nodes: seq<Node>, i: nat, name: string, path: seq<string>)
    requires i < |nodes| && Means(nodes[i], name, path)
    requires forall k :: i < k < |nodes| ==> !Introduces(nodes[k], name)
    ensures StandsFor(BoundBy(aliases, nodes), name, path)
    decreases |nodes|
  {
    hide Means, StandsFor, Introduces, Binds;
    var init, last := nodes[..|nodes| - 1], nodes[|nodes| - 1];
    NodeBindsTo(BoundBy(aliases, init), last, name, path);
    if i < |init| { LastImportCounts(aliases, init, i, name, path); }
  }

  /** A name that no node binds stands for itself. */
  lemma {:induction false} UnboundIsItself(nodes: seq<Node>, name: string)
    requires forall node :: node in nodes ==> !Introduces(node, name)
    ensures StandsFor(BoundBy(map[], nodes), name, [name])
    decreases |nodes|
  {
    if nodes != [] {
      hide Introduces, Binds, Means;
      UnboundIsItself(nodes[..|nodes| - 1], name);
      NodeBindsTo(BoundBy(map[], nodes[..|nodes| - 1]), nodes[|nodes| - 1], name, [name]);
    }
  }

  /**
   * No import hides a refused call: a call whose name begins with one that the last import in front of it binds
   * to a path is refused if that path, with the rest of the name, is.
   */
  lemma {:induction false} ImportsAreFollowed(tree: Node, i: nat, j: nat, name: string, path: seq<string>,
                                              rest: seq<string>)
    requires var nodes := Preorder(tree);
             && i < j < |nodes| && Means(nodes[i], name, path)
             && (forall k :: i < k < j ==> !Introduces(nodes[k], name))
             && nodes[j].Call? && IsChain(nodes[j].func, name, rest) && BadTarget(nodes[j].func, path + rest)
    ensures !Passes(Findings(tree))
  {
    hide Preorder, Means, Introduces, BadTarget, BoundBy, IsChain;
    var nodes := Preorder(tree);
    LastImportCounts(map[], nodes[..j], i, name, path);
    CallAlarms(BoundBy(map[], nodes[..j]), nodes[j], name, path, rest);
    PassesExactly(tree);
  }

  /** Nor does a call need an import to be refused by its own name. */
  lemma {:induction false} UnboundCallsAreFollowed(tree: Node, j: nat, name: string, rest: seq<string>)
    requires var nodes := Preorder(tree);
             && j < |nodes| && (forall node :: node in nodes[..j] ==> !Introduces(node, name))
             && nodes[j].Call? && IsChain(nodes[j].func, name, rest) && BadTarget(nodes[j].func, [name] + rest)
    ensures !Passes(Findings(tree))
  {
    hide Preorder, Introduces, BadTarget, BoundBy, IsChain;
    var nodes := Preorder(tree);
    UnboundIsItself(nodes[..j], name);
    CallAlarms(BoundBy(map[], nodes[..j]), nodes[j], name, [name], rest);
    PassesExactly(tree);
  }

  /** `name.r0.r1` and so on, as the syntax tree has it: the last attribute outside. */
  predicate IsChain(node: Node, name: string, rest: seq<string>) {
    match node
    case Name(_, id) => id == name && rest == []
    case Attribute(_, value, attr) =>
      rest != [] && rest[|rest| - 1] == attr && IsChain(value, name, rest[..|rest| - 1])
    case _ => false
  }

  lemma {:induction false} ChainIsDotted(node: Node, name: string, rest: seq<string>)
    requires IsChain(node, name, rest)
    ensures Dotted(node) == [name] + rest
  {
    if node.Attribute? {
      var init := rest[..|rest| - 1];
      ChainIsDotted(node.value, name, init);
      assert rest == init + [node.attr];
      assert [name] + init + [node.attr] == [name] + rest;
    } else {
      assert [name] + [] == [name];
    }
  }

  lemma CallAlarms(aliases: Aliases, node: Node, name: string, path: seq<string>, rest: seq<string>)
    requires node.Call? && IsChain(node.func, name, rest) && BadTarget(node.func, path + rest)
    requires StandsFor(aliases, name, path)
    ensures AlarmsUnder(aliases, node)
  {
    hide BadTarget, Dotted, IsChain;
    ChainIsDotted(node.func, name, rest);
    assert ([name] + rest)[0] == name && ([name] + rest)[1..] == rest;
    assert Resolve(aliases, Dotted(node.func)) == path + rest;
  }
}
