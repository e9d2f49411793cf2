/** The static review of `src/userbot/safety.py`, over the syntax tree nodes it looks at. */
module Review {
  import opened Text

  /** `import a.b.c as d`: the first component, the others, and the local name if one is given. */
  datatype ImportName = ImportName(first: string, rest: seq<string>, asname: Option<string>) {
    function Path(): seq<string> {
      [first] + rest
    }

    function Bound(): string {
      if asname.Some? then asname.value else first
    }

    /** What the local name stands for. */
    function Meaning(): seq<string> {
      if asname.Some? then Path() else [first]
    }
  }

  datatype FromName = FromName(name: string, asname: Option<string>) {
    function Bound(): string {
      if asname.Some? then asname.value else name
    }
  }

  datatype Nodes = Nil | Cons(head: Node, tail: Nodes)

  datatype Node =
    | Import(line: nat, names: seq<ImportName>)
    | ImportFrom(line: nat, level: nat, mod: seq<string>, imported: seq<FromName>)
    | Name(line: nat, id: string)
    | Attribute(line: nat, value: Node, attr: string)
    | Call(line: nat, func: Node, args: Nodes)
    | Constant(line: nat, text: Option<string>)
    | JoinedStr(line: nat, parts: Nodes)
    | Add(line: nat, left: Node, right: Node)
    | Other(line: nat, children: Nodes)

  const DANGEROUS_MODULES := {
    "subprocess", "multiprocessing", "ctypes", "cffi", "curses", "pty", "resource", "signal", "gc",
    "importlib", "imp", "pickle", "cPickle", "marshal", "dill", "shelve"}
  const NETWORK_MODULES := {
    ["socket"], ["socketserver"], ["http"], ["urllib"], ["urllib3"], ["requests"], ["httpx"],
    ["aiohttp"], ["websockets"], ["ftplib"], ["smtplib"], ["telnetlib"], ["asyncio", "streams"]}
  const DANGEROUS_BUILTINS := {
    "eval", "exec", "compile", "__import__", "globals", "locals", "vars", "breakpoint", "input"}
  const DANGEROUS_ATTRIBUTES := {
    "__globals__", "__builtins__", "__subclasses__", "__bases__", "__code__", "__closure__",
    "__reduce__", "__reduce_ex__", "__getattribute__", "__init_subclass__", "f_globals", "f_locals",
    "__dict__", "__getattr__", "__mro__"}
  const DANGEROUS_OS := {
    "system", "popen", "execv", "execve", "execvp", "execvpe", "spawnv", "spawnve", "spawnl", "spawnle",
    "fork", "posix_spawn", "remove", "unlink", "rmdir", "removedirs", "truncate", "chmod", "chown",
    "kill", "killpg"}
  const NETWORK_CALLS := {"open_connection", "open_unix_connection", "start_server", "create_datagram_endpoint"}
  const DANGEROUS_METHODS := {
    "rmtree", "unlink", "rmdir", "system", "popen", "disconnect", "disconnect_", "send_file", "Delete"}
  const SESSION_FILE := "session.session"

  /** Why something is flagged; the reason text is made of this and of the name as written. */
  datatype Kind =
    | DangerousImport(mod: seq<string>) | NetworkImport(mod: seq<string>)
    | OsCall(member: string) | ProcessCall(member: string) | BuiltinsCall(member: string) | BareBuiltin(member: string)
    | NetworkCall | DangerousMethod(member: string) | DangerousAttribute(member: string) | SessionFile(text: string)

  datatype Severity = High | Medium

  datatype Finding = Finding(line: nat, severity: Severity, kind: Kind, written: seq<string>)

  datatype State = State(findings: seq<Finding>, aliases: map<string, seq<string>>)

  // ---------------------------------------------------------------- names

  /** The parts of `a.b.c`, or nothing if the chain does not start at a name. */
  function Dotted(node: Node): seq<string> {
    match node
    case Name(_, id) => [id]
    case Attribute(_, value, attr) => if Dotted(value) == [] then [] else Dotted(value) + [attr]
    case _ => []
  }

  /** The written name with its first part replaced by what it was imported as. */
  function Resolve(aliases: map<string, seq<string>>, written: seq<string>): seq<string> {
    if written == [] then []
    else (if written[0] in aliases then aliases[written[0]] else [written[0]]) + written[1..]
  }

  /** Every constant fragment of a `+` chain, joined; an unknown operand is skipped. */
  function JoinedConstants(node: Node): string {
    match node
    case Constant(_, text) => if text.Some? then text.value else ""
    case JoinedStr(_, parts) => ConstantParts(parts)
    case Add(_, left, right) => JoinedConstants(left) + JoinedConstants(right)
    case _ => ""
  }

  function ConstantParts(parts: Nodes): string {
    match parts
    case Nil => ""
    case Cons(head, tail) => (if head.Constant? && head.text.Some? then head.text.value else "") + ConstantParts(tail)
  }

  predicate EndsWith(s: string, suffix: string) {
    |suffix| <= |s| && s[|s| - |suffix|..] == suffix
  }

  // ---------------------------------------------------------------- the visitor

  function ModuleFindings(line: nat, mod: seq<string>): seq<Finding>
    requires mod != []
  {
    if mod[0] in DANGEROUS_MODULES then [Finding(line, High, DangerousImport(mod), [])]
    else if mod in NETWORK_MODULES || [mod[0]] in NETWORK_MODULES then [Finding(line, High, NetworkImport(mod), [])]
    else []
  }

  function WithImport(s: State, line: nat, n: ImportName): State {
    State(s.findings + ModuleFindings(line, n.Path()), s.aliases[n.Bound() := n.Meaning()])
  }

  function WithImports(s: State, line: nat, names: seq<ImportName>): State
    decreases |names|
  {
    if names == [] then s else WithImports(WithImport(s, line, names[0]), line, names[1..])
  }

  function WithFrom(s: State, line: nat, mod: seq<string>, n: FromName): State {
    var checked := if mod == [] then [n.name] else mod;
    State(s.findings + ModuleFindings(line, checked), s.aliases[n.Bound() := mod + [n.name]])
  }

  function WithFroms(s: State, line: nat, mod: seq<string>, names: seq<FromName>): State
    decreases |names|
  {
    if names == [] then s else WithFroms(WithFrom(s, line, mod, names[0]), line, mod, names[1..])
  }

  /** The first check of a call: what its resolved name reaches. */
  function ReachFindings(line: nat, target: seq<string>, written: seq<string>): seq<Finding> {
    if |target| < 2 then []
    else
      var head, last := target[..|target| - 1], target[|target| - 1];
      if (head == ["os"] || head == ["os", "path"])
          && last in DANGEROUS_OS then [Finding(line, High, OsCall(last), written)]
      else if head == ["subprocess"] || head == ["pty"] then [Finding(line, High, ProcessCall(last), written)]
      else if head == ["builtins"] && last in DANGEROUS_BUILTINS then [Finding(line, High, BuiltinsCall(last), written)]
      else []
  }

  /** The second check: a listed builtin by its bare name. */
  function BareFindings(line: nat, func: Node): seq<Finding> {
    if func.Name? && func.id in DANGEROUS_BUILTINS then [Finding(line, High, BareBuiltin(func.id), [])] else []
  }

  /** The third check: a raw socket through `asyncio`, or a method that destroys or executes. */
  function MemberFindings(line: nat, func: Node, target: seq<string>, written: seq<string>): seq<Finding> {
    if func.Attribute? && func.attr in NETWORK_CALLS && |target| > 1 && target[0] == "asyncio" then
      [Finding(line, High, NetworkCall, written)]
    else if func.Attribute? && func.attr in DANGEROUS_METHODS then
      [Finding(line, if func.attr in {"rmtree", "unlink", "rmdir"} then High
          else Medium, DangerousMethod(func.attr), written)]
    else []
  }

  function CallFindings(aliases: map<string, seq<string>>, line: nat, func: Node): seq<Finding> {
    var written := Dotted(func);
    var target := Resolve(aliases, written);
    ReachFindings(line, target, written) + BareFindings(line, func) + MemberFindings(line, func, target, written)
  }

  function SessionFindings(line: nat, text: string): seq<Finding> {
    if EndsWith(text, SESSION_FILE) then [Finding(line, High, SessionFile(text), [])] else []
  }

  function Visit(s: State, node: Node): State
    decreases node
  {
    match node
    case Import(line, names) => WithImports(s, line, names)
    case ImportFrom(line, level, mod, names) => if level > 0 then s else WithFroms(s, line, mod, names)
    case Name(_, _) => s
    case Attribute(line, value, attr) =>
      var found := if attr in DANGEROUS_ATTRIBUTES then [Finding(line, High, DangerousAttribute(attr), [])] else [];
      Visit(s.(findings := s.findings + found), value)
    case Call(line, func, args) =>
      VisitAll(Visit(s.(findings := s.findings + CallFindings(s.aliases, line, func)), func), args)
    case Constant(line, text) =>
      if text.Some? then s.(findings := s.findings + SessionFindings(line, text.value)) else s
    case JoinedStr(_, parts) => VisitAll(s, parts)
    case Add(line, left, right) =>
      Visit(Visit(s.(findings := s.findings + SessionFindings(line, JoinedConstants(node))), left), right)
    case Other(_, children) => VisitAll(s, children)
  }

  function VisitAll(s: State, nodes: Nodes): State
    decreases nodes
  {
    match nodes
    case Nil => s
    case Cons(head, tail) => VisitAll(Visit(s, head), tail)
  }

  /** The findings of one module. */
  function Findings(tree: Node): seq<Finding> {
    Visit(State([], map[]), tree).findings
  }

  /** Adoption may proceed unless something is blocking. */
  predicate Passes(findings: seq<Finding>) {
    forall f :: f in findings ==> !f.severity.High?
  }

  // ---------------------------------------------------------------- the reviewer, updated in place

  class Reviewer {
    var findings: seq<Finding>
    var aliases: map<string, seq<string>>

    function View(): State
      reads this
    {
      State(findings, aliases)
    }

    constructor ()
      ensures View() == State([], map[])
    {
      findings, aliases := [], map[];
    }

    /** `_dotted`: the chain is walked from its last attribute inwards. */
    static method DottedName(node: Node) returns (parts: seq<string>)
      ensures parts == Dotted(node)
    {
      parts := [];
      var current := node;
      while current.Attribute?
        invariant Dotted(node) == if Dotted(current) == [] then [] else Dotted(current) + parts
        decreases current
      {
        parts := [current.attr] + parts;
        current := current.value;
      }
      if current.Name? { parts := [current.id] + parts; } else { parts := []; }
    }

    method VisitImport(line: nat, names: seq<ImportName>)
      modifies this
      ensures View() == WithImports(old(View()), line, names)
    {
      for i := 0 to |names|
        invariant WithImports(old(View()), line, names) == WithImports(View(), line, names[i..])
      {
        assert names[i..][0] == names[i] && names[i..][1..] == names[i + 1..];
        aliases := aliases[names[i].Bound() := names[i].Meaning()];
        findings := findings + ModuleFindings(line, names[i].Path());
      }
    }

    method VisitImportFrom(line: nat, mod: seq<string>, names: seq<FromName>)
      modifies this
      ensures View() == WithFroms(old(View()), line, mod, names)
    {
      for i := 0 to |names|
        invariant WithFroms(old(View()), line, mod, names) == WithFroms(View(), line, mod, names[i..])
      {
        assert names[i..][0] == names[i] && names[i..][1..] == names[i + 1..];
        aliases := aliases[names[i].Bound() := mod + [names[i].name]];
        findings := findings + ModuleFindings(line, if mod == [] then [names[i].name] else mod);
      }
    }

    method VisitCall(line: nat, func: Node)
      modifies `findings
      ensures View() == old(View()).(findings := old(findings) + CallFindings(old(aliases), line, func))
    {
      var written := DottedName(func);
      hide ReachFindings, Resolve, Dotted;
      var target := Resolve(aliases, written);
      var found := ReachFindings(line, target, written);
      if func.Name? && func.id in DANGEROUS_BUILTINS {
        found := found + [Finding(line, High, BareBuiltin(func.id), [])];
      }
      if func.Attribute? && func.attr in NETWORK_CALLS && |target| > 1 && target[0] == "asyncio" {
        found := found + [Finding(line, High, NetworkCall, written)];
      } else if func.Attribute? && func.attr in DANGEROUS_METHODS {
        var severity := if func.attr in {"rmtree", "unlink", "rmdir"} then High else Medium;
        found := found + [Finding(line, severity, DangerousMethod(func.attr), written)];
      }
      findings := findings + found;
    }

    method VisitNode(node: Node)
      modifies this
      ensures View() == Visit(old(View()), node)
      decreases node
    {
      match node
      case Import(line, names) => VisitImport(line, names);
      case ImportFrom(line, level, mod, names) =>
        if level > 0 { return; }
        VisitImportFrom(line, mod, names);
      case Name(_, _) =>
      case Attribute(line, value, attr) =>
        if attr in DANGEROUS_ATTRIBUTES { findings := findings + [Finding(line, High, DangerousAttribute(attr), [])]; }
        assert old(findings) + [] == old(findings);
        VisitNode(value);
      case Call(line, func, args) =>
        VisitCall(line, func);
        VisitNode(func);
        VisitNodes(args);
      case Constant(line, text) =>
        if text.Some? { findings := findings + SessionFindings(line, text.value); }
      case JoinedStr(_, parts) => VisitNodes(parts);
      case Add(line, left, right) =>
        findings := findings + SessionFindings(line, JoinedConstants(node));
        VisitNode(left);
        VisitNode(right);
      case Other(_, children) => VisitNodes(children);
    }

    method VisitNodes(nodes: Nodes)
      modifies this
      ensures View() == VisitAll(old(View()), nodes)
      decreases nodes
    {
      match nodes
      case Nil =>
      case Cons(head, tail) =>
        VisitNode(head);
        VisitNodes(tail);
    }
  }
}
