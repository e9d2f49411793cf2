/** Exactly which modules pass the review: those without an alarm at any node, under the imports in front of it. */
module Alarms {
  import opened Text
  import opened Review

  type Aliases = map<string, seq<string>>

  // ---------------------------------------------------------------- what alarms

  predicate BadModule(mod: seq<string>) {
    mod != [] && (mod[0] in DANGEROUS_MODULES || mod in NETWORK_MODULES || [mod[0]] in NETWORK_MODULES)
  }

  /** A call that is refused for the name it ends in, whatever it is called on. */
  predicate BadCall(func: Node) {
    || (func.Name? && func.id in DANGEROUS_BUILTINS)
    || (func.Attribute? && func.attr in {"rmtree", "unlink", "rmdir"})
  }

  /** A call that is refused for the name it resolves to. */
  predicate BadTarget(func: Node, target: seq<string>) {
    && |target| > 1
    && var head, last := target[..|target| - 1], target[|target| - 1];
       || (head in {["os"], ["os", "path"]} && last in DANGEROUS_OS)
       || head in {["subprocess"], ["pty"]}
       || (head == ["builtins"] && last in DANGEROUS_BUILTINS)
       || (target[0] == "asyncio" && func.Attribute? && func.attr in NETWORK_CALLS)
  }

  /** A node that alarms in itself: a listed import, attribute or call, or the session file named. */
  predicate AlarmsInItself(node: Node) {
    match node
    case Import(_, names) => exists n :: n in names && BadModule(n.Path())
    case ImportFrom(_, level, mod, names) =>
      level == 0 && exists n :: n in names && BadModule(if mod == [] then [n.name] else mod)
    case Attribute(_, _, attr) => attr in DANGEROUS_ATTRIBUTES
    case Call(_, func, _) => BadCall(func)
    case Constant(_, text) => text.Some? && EndsWith(text.value, SESSION_FILE)
    case Add(_, _, _) => EndsWith(JoinedConstants(node), SESSION_FILE)
    case _ => false
  }

  /** A node that alarms under these imports. */
  predicate AlarmsUnder(aliases: Aliases, node: Node) {
    AlarmsInItself(node) || (node.Call? && BadTarget(node.func, Resolve(aliases, Dotted(node.func))))
  }

  // ---------------------------------------------------------------- nodes in order

  /** All nodes of a tree, each in front of those inside it. */
  function Preorder(node: Node): seq<Node>
    decreases node
  {
    [node] + match node
             case Attribute(_, value, _) => Preorder(value)
             case Call(_, func, args) => Preorder(func) + PreorderAll(args)
             case JoinedStr(_, parts) => PreorderAll(parts)
             case Add(_, left, right) => Preorder(left) + Preorder(right)
             case Other(_, children) => PreorderAll(children)
             case _ => []
  }

  function PreorderAll(nodes: Nodes): seq<Node>
    decreases nodes
  {
    match nodes
    case Nil => []
    case Cons(head, tail) => Preorder(head) + PreorderAll(tail)
  }

  function ImportsBind(aliases: Aliases, names: seq<ImportName>): Aliases {
    if names == [] then aliases
    else ImportsBind(aliases, names[..|names| - 1])[names[|names| - 1].Bound() := names[|names| - 1].Meaning()]
  }

  function FromsBind(aliases: Aliases, mod: seq<string>, names: seq<FromName>): Aliases {
    if names == [] then aliases
    else FromsBind(aliases, mod, names[..|names| - 1])[names[|names| - 1].Bound() := mod + [names[|names| - 1].name]]
  }

  function Binds(aliases: Aliases, node: Node): Aliases {
    match node
    case Import(_, names) => ImportsBind(aliases, names)
    case ImportFrom(_, level, mod, names) => if level > 0 then aliases else FromsBind(aliases, mod, names)
    case _ => aliases
  }

  /** What is bound after some nodes; the last import of a name wins. */
  function BoundBy(aliases: Aliases, nodes: seq<Node>): Aliases {
    if nodes == [] then aliases else Binds(BoundBy(aliases, nodes[..|nodes| - 1]), nodes[|nodes| - 1])
  }

  /** Some node alarms under the imports in front of it. */
  ghost predicate AlarmSomewhere(aliases: Aliases, nodes: seq<Node>) {
    exists i :: 0 <= i < |nodes| && AlarmsUnder(BoundBy(aliases, nodes[..i]), nodes[i])
  }

  lemma {:induction false} BoundByAppend(aliases: Aliases, first: seq<Node>, second: seq<Node>)
    ensures BoundBy(aliases, first + second) == BoundBy(BoundBy(aliases, first), second)
    decreases |second|
  {
    if second == [] {
      assert first + second == first;
    } else {
      assert (first + second)[..|first + second| - 1] == first + second[..|second| - 1];
      BoundByAppend(aliases, first, second[..|second| - 1]);
    }
  }

  lemma {:induction false} AlarmAppend(aliases: Aliases, first: seq<Node>, second: seq<Node>)
    ensures AlarmSomewhere(aliases, first + second)
            <==> AlarmSomewhere(aliases, first) || AlarmSomewhere(BoundBy(aliases, first), second)
  {
    var all := first + second;
    forall i | 0 <= i < |first| ensures all[..i] == first[..i] && all[i] == first[i] {}
    forall i | 0 <= i < |second|
      ensures BoundBy(aliases, all[..|first| + i]) == BoundBy(BoundBy(aliases, first), second[..i])
    {
      assert all[..|first| + i] == first + second[..i];
      BoundByAppend(aliases, first, second[..i]);
    }
    hide BoundBy, AlarmsUnder;
    if i :| 0 <= i < |all| && AlarmsUnder(BoundBy(aliases, all[..i]), all[i]) {
      if i >= |first| { assert all[i] == second[i - |first|] && |first| + (i - |first|) == i; }
    }
    if i :| 0 <= i < |second| && AlarmsUnder(BoundBy(BoundBy(aliases, first), second[..i]), second[i]) {
      assert all[|first| + i] == second[i];
    }
  }

  lemma AlarmOne(aliases: Aliases, node: Node)
    ensures AlarmSomewhere(aliases, [node]) <==> AlarmsUnder(aliases, node)
    ensures BoundBy(aliases, [node]) == Binds(aliases, node)
  {
    assert [node][..0] == [] && [node][0] == node && [node][..|[node]| - 1] == [];
  }

  // ---------------------------------------------------------------- findings

  ghost predicate Raised(findings: seq<Finding>) {
    exists f :: f in findings && f.severity.High?
  }

  lemma RaisedAppend(a: seq<Finding>, b: seq<Finding>)
    ensures Raised(a + b) <==> Raised(a) || Raised(b)
  {
    if f :| f in a && f.severity.High? { assert f in a + b; }
    if f :| f in b && f.severity.High? { assert f in a + b; }
  }

  lemma ModuleRaises(line: nat, mod: seq<string>)
    requires mod != []
    ensures Raised(ModuleFindings(line, mod)) <==> BadModule(mod)
  {
    if BadModule(mod) { assert ModuleFindings(line, mod)[0] in ModuleFindings(line, mod); }
  }

  lemma SessionRaises(line: nat, text: string)
    ensures Raised(SessionFindings(line, text)) <==> EndsWith(text, SESSION_FILE)
  {
    if EndsWith(text, SESSION_FILE) { assert SessionFindings(line, text)[0] in SessionFindings(line, text); }
  }

  lemma OneFinding(f: Finding)
    ensures Raised([f]) <==> f.severity.High?
  {
    assert f in [f];
  }

  lemma ReachRaises(line: nat, func: Node, target: seq<string>, written: seq<string>)
    ensures var own := if func.Name? then BareFindings(line, func) else MemberFindings(line, func, target, written);
            Raised(ReachFindings(line, target, written)) || Raised(own) <==> BadCall(func) || BadTarget(func, target)
  {
    var reach := ReachFindings(line, target, written);
    var own := if func.Name? then BareFindings(line, func) else MemberFindings(line, func, target, written);
    assert |reach| <= 1 && |own| <= 1;
    if reach != [] { assert reach == [reach[0]]; OneFinding(reach[0]); }
    if own != [] { assert own == [own[0]]; OneFinding(own[0]); }
  }

  lemma CallRaises(aliases: Aliases, line: nat, func: Node)
    ensures Raised(CallFindings(aliases, line, func))
            <==> BadCall(func) || BadTarget(func, Resolve(aliases, Dotted(func)))
  {
    var written := Dotted(func);
    var target := Resolve(aliases, written);
    var reach, bare := ReachFindings(line, target, written), BareFindings(line, func);
    var member := MemberFindings(line, func, target, written);
    ReachRaises(line, func, target, written);
    RaisedAppend(reach, bare);
    RaisedAppend(reach + bare, member);
    assert func.Name? ==> member == [];
    assert !func.Name? ==> bare == [];
  }

  lemma {:induction false} ImportsRaise(s: State, line: nat, names: seq<ImportName>)
    ensures var r := WithImports(s, line, names);
            && (Raised(r.findings) <==> Raised(s.findings) || exists n :: n in names && BadModule(n.Path()))
            && r.aliases == ImportsBind(s.aliases, names)
    decreases |names|
  {
    if names == [] { return; }
    var first, rest := names[0], names[1..];
    RaisedAppend(s.findings, ModuleFindings(line, first.Path()));
    ModuleRaises(line, first.Path());
    ImportsRaise(WithImport(s, line, first), line, rest);
    ImportsBindFirst(s.aliases, names);
    assert forall n :: n in names <==> n == first || n in rest;
  }

  lemma {:induction false} ImportsBindFirst(aliases: Aliases, names: seq<ImportName>)
    requires names != []
    ensures ImportsBind(aliases, names) == ImportsBind(aliases[names[0].Bound() := names[0].Meaning()], names[1..])
    decreases |names|
  {
    if |names| == 1 {
      assert names[..0] == [] && names[1..] == [];
    } else {
      var init, tail := names[..|names| - 1], names[1..];
      ImportsBindFirst(aliases, init);
      assert init[1..] == tail[..|tail| - 1] && tail[|tail| - 1] == names[|names| - 1];
    }
  }

  lemma {:induction false} FromsRaise(s: State, line: nat, mod: seq<string>, names: seq<FromName>)
    ensures var r := WithFroms(s, line, mod, names);
            && (Raised(r.findings)
                <==> Raised(s.findings) || exists n :: n in names && BadModule(if mod == [] then [n.name] else mod))
            && r.aliases == FromsBind(s.aliases, mod, names)
    decreases |names|
  {
    if names == [] { return; }
    var first, rest := names[0], names[1..];
    var checked := if mod == [] then [first.name] else mod;
    RaisedAppend(s.findings, ModuleFindings(line, checked));
    ModuleRaises(line, checked);
    FromsRaise(WithFrom(s, line, mod, first), line, mod, rest);
    FromsBindFirst(s.aliases, mod, names);
    assert forall n :: n in names <==> n == first || n in rest;
  }

  lemma {:induction false} FromsBindFirst(aliases: Aliases, mod: seq<string>, names: seq<FromName>)
    requires names != []
    ensures FromsBind(aliases, mod, names)
            == FromsBind(aliases[names[0].Bound() := mod + [names[0].name]], mod, names[1..])
    decreases |names|
  {
    if |names| == 1 {
      assert names[..0] == [] && names[1..] == [];
    } else {
      var init, tail := names[..|names| - 1], names[1..];
      FromsBindFirst(aliases, mod, init);
      assert init[1..] == tail[..|tail| - 1] && tail[|tail| - 1] == names[|names| - 1];
    }
  }

  // ---------------------------------------------------------------- the visit

  /** `s'` is `s` after these nodes. */
  ghost predicate Visited(s: State, s': State, nodes: seq<Node>) {
    && s'.aliases == BoundBy(s.aliases, nodes)
    && (Raised(s'.findings) <==> Raised(s.findings) || AlarmSomewhere(s.aliases, nodes))
  }

  lemma VisitedAppend(s: State, s1: State, s2: State, first: seq<Node>, second: seq<Node>)
    requires Visited(s, s1, first) && Visited(s1, s2, second)
    ensures Visited(s, s2, first + second)
  {
    BoundByAppend(s.aliases, first, second);
    AlarmAppend(s.aliases, first, second);
  }

  lemma VisitedNothing(s: State)
    ensures Visited(s, s, [])
  {}

  /** What the visitor does at the node itself. */
  function AtNode(s: State, node: Node): State {
    match node
    case Import(line, names) => WithImports(s, line, names)
    case ImportFrom(line, level, mod, names) => if level > 0 then s else WithFroms(s, line, mod, names)
    case Attribute(line, _, attr) =>
      var found := if attr in DANGEROUS_ATTRIBUTES then [Finding(line, High, DangerousAttribute(attr), [])] else [];
      s.(findings := s.findings + found)
    case Call(line, func, _) => s.(findings := s.findings + CallFindings(s.aliases, line, func))
    case Constant(line, text) =>
      if text.Some? then s.(findings := s.findings + SessionFindings(line, text.value)) else s
    case Add(line, _, _) => s.(findings := s.findings + SessionFindings(line, JoinedConstants(node)))
    case _ => s
  }

  lemma AtNodeRaises(s: State, node: Node)
    ensures Visited(s, AtNode(s, node), [node])
  {
    AlarmOne(s.aliases, node);
    hide AlarmSomewhere, BoundBy, Raised, ModuleFindings, CallFindings, SessionFindings, BadCall, BadTarget;
    match node
    case Import(line, names) => ImportsRaise(s, line, names);
    case ImportFrom(line, level, mod, names) => if level == 0 { FromsRaise(s, line, mod, names); }
    case Attribute(line, _, attr) =>
      var found := Finding(line, High, DangerousAttribute(attr), []);
      RaisedAppend(s.findings, [found]);
      OneFinding(found);
      assert s.findings + [] == s.findings;
    case Call(line, func, _) =>
      RaisedAppend(s.findings, CallFindings(s.aliases, line, func));
      CallRaises(s.aliases, line, func);
    case Constant(line, text) =>
      if text.Some? {
        RaisedAppend(s.findings, SessionFindings(line, text.value));
        SessionRaises(line, text.value);
      }
    case Add(line, _, _) =>
      RaisedAppend(s.findings, SessionFindings(line, JoinedConstants(node)));
      SessionRaises(line, JoinedConstants(node));
    case _ =>
  }

  lemma {:induction false} VisitRaises(s: State, node: Node)
    ensures Visited(s, Visit(s, node), Preorder(node))
    decreases node
  {
    hide Visited, WithImports, WithFroms, CallFindings, SessionFindings, JoinedConstants;
    var s1, s2 := AtNode(s, node), Visit(s, node);
    AtNodeRaises(s, node);
    VisitedNothing(s1);
    match node
    case Attribute(_, value, _) =>
      VisitRaises(s1, value);
      VisitedAppend(s, s1, s2, [node], Preorder(value));
    case Call(_, func, args) =>
      var mid := Visit(s1, func);
      VisitRaises(s1, func);
      VisitAllRaises(mid, args);
      VisitedAppend(s1, mid, s2, Preorder(func), PreorderAll(args));
      VisitedAppend(s, s1, s2, [node], Preorder(func) + PreorderAll(args));
    case JoinedStr(_, parts) =>
      VisitAllRaises(s1, parts);
      VisitedAppend(s, s1, s2, [node], PreorderAll(parts));
    case Add(_, left, right) =>
      var mid := Visit(s1, left);
      VisitRaises(s1, left);
      VisitRaises(mid, right);
      VisitedAppend(s1, mid, s2, Preorder(left), Preorder(right));
      VisitedAppend(s, s1, s2, [node], Preorder(left) + Preorder(right));
    case Other(_, children) =>
      VisitAllRaises(s1, children);
      VisitedAppend(s, s1, s2, [node], PreorderAll(children));
    case _ => VisitedAppend(s, s1, s2, [node], []);
  }

  lemma {:induction false} VisitAllRaises(s: State, nodes: Nodes)
    ensures Visited(s, VisitAll(s, nodes), PreorderAll(nodes))
    decreases nodes
  {
    hide Visited;
    match nodes
    case Nil => VisitedNothing(s);
    case Cons(head, tail) =>
      VisitRaises(s, head);
      VisitAllRaises(Visit(s, head), tail);
      VisitedAppend(s, Visit(s, head), VisitAll(s, nodes), Preorder(head), PreorderAll(tail));
  }

  /**
   * A module passes exactly if no node in it alarms, neither in itself nor, for a call, by what its
   * name stands for under the imports that come before it.
   */
  lemma PassesExactly(tree: Node)
    ensures Passes(Findings(tree)) <==> !AlarmSomewhere(map[], Preorder(tree))
  {
    VisitRaises(State([], map[]), tree);
  }

  /** A module with a node that alarms in itself does not pass, whatever it imports under whatever names. */
  lemma NothingIsOverlooked(tree: Node)
    ensures (exists n :: n in Preorder(tree) && AlarmsInItself(n)) ==> !Passes(Findings(tree))
  {
    PassesExactly(tree);
    var nodes := Preorder(tree);
    if n :| n in nodes && AlarmsInItself(n) {
      var i :| 0 <= i < |nodes| && nodes[i] == n;
      assert AlarmsUnder(BoundBy(map[], nodes[..i]), nodes[i]);
    }
  }
}
