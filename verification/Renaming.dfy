/** The review judges what a name means, not how it is spelled: findings survive a consistent renaming of an import. */
module Renaming {
  import opened Text
  import opened Review

  // ---------------------------------------------------------------- renaming

  function RenamedImport(n: ImportName, was: string, now: string): ImportName {
    if n.Bound() == was then n.(asname := Some(now)) else n
  }

  function RenamedImports(names: seq<ImportName>, was: string, now: string): seq<ImportName> {
    seq(|names|, i requires 0 <= i < |names| => RenamedImport(names[i], was, now))
  }

  function RenamedFrom(n: FromName, was: string, now: string): FromName {
    if n.Bound() == was then n.(asname := Some(now)) else n
  }

  function RenamedFroms(names: seq<FromName>, was: string, now: string): seq<FromName> {
    seq(|names|, i requires 0 <= i < |names| => RenamedFrom(names[i], was, now))
  }

  /** Every binding of `was` by an import, and every use of it, renamed to `now`. */
  function Renamed(node: Node, was: string, now: string): Node {
    match node
    case Import(line, names) => Import(line, RenamedImports(names, was, now))
    case ImportFrom(line, level, mod, names) => ImportFrom(line, level, mod, RenamedFroms(names, was, now))
    case Name(line, id) => Name(line, if id == was then now else id)
    case Attribute(line, value, attr) => Attribute(line, Renamed(value, was, now), attr)
    case Call(line, func, args) => Call(line, Renamed(func, was, now), RenamedAll(args, was, now))
    case Constant(_, _) => node
    case JoinedStr(line, parts) => JoinedStr(line, RenamedAll(parts, was, now))
    case Add(line, left, right) => Add(line, Renamed(left, was, now), Renamed(right, was, now))
    case Other(line, children) => Other(line, RenamedAll(children, was, now))
  }

  function RenamedAll(nodes: Nodes, was: string, now: string): Nodes {
    match nodes
    case Nil => Nil
    case Cons(head, tail) => Cons(Renamed(head, was, now), RenamedAll(tail, was, now))
  }

  // ---------------------------------------------------------------- what makes a renaming consistent

  /** `now` is not bound by an import and not used. */
  predicate Fresh(node: Node, now: string) {
    match node
    case Import(_, names) => forall n :: n in names ==> n.Bound() != now
    case ImportFrom(_, _, _, names) => forall n :: n in names ==> n.Bound() != now
    case Name(_, id) => id != now
    case Attribute(_, value, _) => Fresh(value, now)
    case Call(_, func, args) => Fresh(func, now) && FreshAll(args, now)
    case Constant(_, _) => true
    case JoinedStr(_, parts) => FreshAll(parts, now)
    case Add(_, left, right) => Fresh(left, now) && Fresh(right, now)
    case Other(_, children) => FreshAll(children, now)
  }

  predicate FreshAll(nodes: Nodes, now: string) {
    match nodes
    case Nil => true
    case Cons(head, tail) => Fresh(head, now) && FreshAll(tail, now)
  }

  /** An import that binds `was` can be given another local name: it is absolute, and undotted or bound with `as`. */
  predicate CanRename(node: Node, was: string) {
    match node
    case Import(_, names) => forall n :: n in names && n.Bound() == was ==> n.rest == [] || n.asname.Some?
    case ImportFrom(_, level, _, names) => level > 0 ==> forall n :: n in names ==> n.Bound() != was
    case Name(_, _) => true
    case Attribute(_, value, _) => CanRename(value, was)
    case Call(_, func, args) => CanRename(func, was) && CanRenameAll(args, was)
    case Constant(_, _) => true
    case JoinedStr(_, parts) => CanRenameAll(parts, was)
    case Add(_, left, right) => CanRename(left, was) && CanRename(right, was)
    case Other(_, children) => CanRenameAll(children, was)
  }

  predicate CanRenameAll(nodes: Nodes, was: string) {
    match nodes
    case Nil => true
    case Cons(head, tail) => CanRename(head, was) && CanRenameAll(tail, was)
  }

  /** Somewhere in the node an absolute import binds `was`. */
  predicate Binds(node: Node, was: string) {
    match node
    case Import(_, names) => exists n :: n in names && n.Bound() == was
    case ImportFrom(_, level, _, names) => level == 0 && exists n :: n in names && n.Bound() == was
    case Name(_, _) => false
    case Attribute(_, value, _) => Binds(value, was)
    case Call(_, func, args) => Binds(func, was) || BindsAny(args, was)
    case Constant(_, _) => false
    case JoinedStr(_, parts) => BindsAny(parts, was)
    case Add(_, left, right) => Binds(left, was) || Binds(right, was)
    case Other(_, children) => BindsAny(children, was)
  }

  predicate BindsAny(nodes: Nodes, was: string) {
    match nodes
    case Nil => false
    case Cons(head, tail) => Binds(head, was) || BindsAny(tail, was)
  }

  /** Every use of `was` comes after a binding of it, in the order of the visit. */
  predicate BoundFirst(node: Node, was: string, bound: bool) {
    match node
    case Import(_, _) => true
    case ImportFrom(_, _, _, _) => true
    case Name(_, id) => id == was ==> bound
    case Attribute(_, value, _) => BoundFirst(value, was, bound)
    case Call(_, func, args) => BoundFirst(func, was, bound) && BoundFirstAll(args, was, bound || Binds(func, was))
    case Constant(_, _) => true
    case JoinedStr(_, parts) => BoundFirstAll(parts, was, bound)
    case Add(_, left, right) => BoundFirst(left, was, bound) && BoundFirst(right, was, bound || Binds(left, was))
    case Other(_, children) => BoundFirstAll(children, was, bound)
  }

  predicate BoundFirstAll(nodes: Nodes, was: string, bound: bool) {
    match nodes
    case Nil => true
    case Cons(head, tail) => BoundFirst(head, was, bound) && BoundFirstAll(tail, was, bound || Binds(head, was))
  }

  // ---------------------------------------------------------------- what stays the same

  function RenamedParts(written: seq<string>, was: string, now: string): seq<string> {
    if written != [] && written[0] == was then [now] + written[1..] else written
  }

  /** The same finding, the written name aside. */
  function Respelled(f: Finding, was: string, now: string): Finding {
    f.(written := RenamedParts(f.written, was, now))
  }

  function RespelledAll(findings: seq<Finding>, was: string, now: string): seq<Finding> {
    seq(|findings|, i requires 0 <= i < |findings| => Respelled(findings[i], was, now))
  }

  lemma RespelledAppend(a: seq<Finding>, b: seq<Finding>, was: string, now: string)
    ensures RespelledAll(a + b, was, now) == RespelledAll(a, was, now) + RespelledAll(b, was, now)
  {}

  /** The two alias tables differ in the name of one entry. */
  ghost predicate SameAliases(a: map<string, seq<string>>, b: map<string, seq<string>>, was: string, now: string) {
    && now !in a && was !in b
    && (was in a <==> now in b) && (was in a ==> a[was] == b[now])
    && forall k :: k != was && k != now ==> (k in a <==> k in b) && (k in a ==> a[k] == b[k])
  }

  /** Two names a renaming may exchange: different, and neither is a builtin the review lists. */
  predicate Exchangeable(was: string, now: string) {
    was != now && was !in DANGEROUS_BUILTINS && now !in DANGEROUS_BUILTINS
  }

  lemma {:induction false} DottedRenamed(node: Node, was: string, now: string)
    ensures Dotted(Renamed(node, was, now)) == RenamedParts(Dotted(node), was, now)
    decreases node
  {
    if node.Attribute? { DottedRenamed(node.value, was, now); }
  }

  /** The chain starts at the old name. */
  predicate StartsAt(node: Node, was: string) {
    Dotted(node) != [] && Dotted(node)[0] == was
  }

  /** The head of a written chain is not the fresh name. */
  lemma {:induction false} HeadIsNotFresh(node: Node, now: string)
    requires Fresh(node, now)
    ensures !StartsAt(node, now)
    decreases node
  {
    if node.Attribute? { HeadIsNotFresh(node.value, now); }
  }

  /** Both spellings of a name resolve to the same meaning, if it is bound or not the renamed one. */
  lemma SameMeaning(s: State, t: State, node: Node, was: string, now: string)
    requires SameAliases(s.aliases, t.aliases, was, now) && Fresh(node, now)
    requires StartsAt(node, was) ==> was in s.aliases
    ensures Resolve(s.aliases, Dotted(node)) == Resolve(t.aliases, Dotted(Renamed(node, was, now)))
  {
    DottedRenamed(node, was, now);
    HeadIsNotFresh(node, now);
  }

  // ---------------------------------------------------------------- what gives a renaming away

  /** The call is judged differently under its two spellings when nothing is imported. */
  predicate Tells(line: nat, func: Node, was: string, now: string) {
    CallFindings(map[], line, Renamed(func, was, now)) != RespelledAll(CallFindings(map[], line, func), was, now)
  }

  /** Somewhere a call by the old name, before the visit reaches a binding of it, is judged by its spelling. */
  predicate GivenAway(node: Node, was: string, now: string, bound: bool) {
    match node
    case Attribute(_, value, _) => GivenAway(value, was, now, bound)
    case Call(line, func, args) =>
      || (!bound && StartsAt(func, was) && Tells(line, func, was, now))
      || GivenAway(func, was, now, bound) || GivenAwayAny(args, was, now, bound || Binds(func, was))
    case JoinedStr(_, parts) => GivenAwayAny(parts, was, now, bound)
    case Add(_, left, right) =>
      GivenAway(left, was, now, bound) || GivenAway(right, was, now, bound || Binds(left, was))
    case Other(_, children) => GivenAwayAny(children, was, now, bound)
    case _ => false
  }

  predicate GivenAwayAny(nodes: Nodes, was: string, now: string, bound: bool) {
    match nodes
    case Nil => false
    case Cons(head, tail) => GivenAway(head, was, now, bound) || GivenAwayAny(tail, was, now, bound || Binds(head, was))
  }

  /** The checks that go by the first part of a resolved name, by the name they go by. */
  datatype Class = OfOs | OfProcess | OfBuiltins | OfNetwork | OfNothing

  function KindClass(k: Kind): Class {
    match k
    case OsCall(_) => OfOs
    case ProcessCall(_) => OfProcess
    case BuiltinsCall(_) => OfBuiltins
    case NetworkCall => OfNetwork
    case _ => OfNothing
  }

  function NameClass(name: string): Class {
    if name == "os" then OfOs
    else if name == "subprocess" || name == "pty" then OfProcess
    else if name == "builtins" then OfBuiltins
    else if name == "asyncio" then OfNetwork
    else OfNothing
  }

  function Count(findings: seq<Finding>, c: Class): nat {
    if findings == [] then 0
    else Count(findings[..|findings| - 1], c)
         + if c != OfNothing && KindClass(findings[|findings| - 1].kind) == c then 1 else 0
  }

  lemma {:induction false} CountAppend(a: seq<Finding>, b: seq<Finding>, c: Class)
    ensures Count(a + b, c) == Count(a, c) + Count(b, c)
    decreases |b|
  {
    if b == [] {
      assert a + b == a;
    } else {
      assert (a + b)[..|a + b| - 1] == a + b[..|b| - 1];
      CountAppend(a, b[..|b| - 1], c);
    }
  }

  lemma {:induction false} CountRespelled(findings: seq<Finding>, was: string, now: string, c: Class)
    ensures Count(RespelledAll(findings, was, now), c) == Count(findings, c)
    decreases |findings|
  {
    if findings != [] {
      var init := findings[..|findings| - 1];
      CountRespelled(init, was, now, c);
      assert RespelledAll(findings, was, now)[..|findings| - 1] == RespelledAll(init, was, now);
    }
  }

  /** How many findings the old spelling has that the new one has not, and the other way round. */
  function Gap(found: seq<Finding>, renamed: seq<Finding>, was: string, now: string): int {
    Count(found, NameClass(was)) - Count(renamed, NameClass(was))
    + Count(renamed, NameClass(now)) - Count(found, NameClass(now))
  }

  lemma GapAppend(a: seq<Finding>, b: seq<Finding>, found: seq<Finding>, renamed: seq<Finding>, was: string,
      now: string)
    ensures Gap(a + found, b + renamed, was, now) == Gap(a, b, was, now) + Gap(found, renamed, was, now)
  {
    CountAppend(a, found, NameClass(was));
    CountAppend(a, found, NameClass(now));
    CountAppend(b, renamed, NameClass(was));
    CountAppend(b, renamed, NameClass(now));
  }

  lemma NoGap(found: seq<Finding>, was: string, now: string)
    ensures Gap(found, RespelledAll(found, was, now), was, now) == 0
  {
    CountRespelled(found, was, now, NameClass(was));
    CountRespelled(found, was, now, NameClass(now));
  }

  // ---------------------------------------------------------------- one call

  /**
   * From one pair of states to the next: the gap never closes, and it opens exactly where the renaming
   * is given away.
   */
  ghost predicate Follows(s: State, t: State, s': State, t': State, was: string, now: string, given: bool) {
    && SameAliases(s'.aliases, t'.aliases, was, now)
    && Gap(s'.findings, t'.findings, was, now) >= Gap(s.findings, t.findings, was, now)
    && (given ==> Gap(s'.findings, t'.findings, was, now) > Gap(s.findings, t.findings, was, now))
    && (!given && t.findings == RespelledAll(s.findings, was, now) ==>
          t'.findings == RespelledAll(s'.findings, was, now))
  }

  lemma FollowsOn(s: State, t: State, s1: State, t1: State, s2: State, t2: State, was: string, now: string,
      first: bool, second: bool)
    requires Follows(s, t, s1, t1, was, now, first) && Follows(s1, t1, s2, t2, was, now, second)
    ensures Follows(s, t, s2, t2, was, now, first || second)
  {
    hide Gap, RespelledAll;
  }

  lemma NothingFollows(s: State, t: State, was: string, now: string)
    requires SameAliases(s.aliases, t.aliases, was, now)
    ensures Follows(s, t, s, t, was, now, false)
  {
    hide Gap, RespelledAll;
  }

  /** Findings that are the same up to the written name leave the gap as it is. */
  lemma AppendFollows(s: State, t: State, found: seq<Finding>, was: string, now: string)
    requires SameAliases(s.aliases, t.aliases, was, now)
    ensures Follows(s, t, s.(findings := s.findings + found),
                    t.(findings := t.findings + RespelledAll(found, was, now)), was, now, false)
  {
    hide Gap, RespelledAll;
    RespelledAppend(s.findings, found, was, now);
    GapAppend(s.findings, t.findings, found, RespelledAll(found, was, now), was, now);
    NoGap(found, was, now);
  }

  lemma {:induction false} ConstantsRenamed(node: Node, was: string, now: string)
    ensures JoinedConstants(Renamed(node, was, now)) == JoinedConstants(node)
    decreases node
  {
    match node
    case Add(_, left, right) =>
      ConstantsRenamed(left, was, now);
      ConstantsRenamed(right, was, now);
    case JoinedStr(_, parts) => PartsRenamed(parts, was, now);
    case _ =>
  }

  lemma {:induction false} PartsRenamed(parts: Nodes, was: string, now: string)
    ensures ConstantParts(RenamedAll(parts, was, now)) == ConstantParts(parts)
    decreases parts
  {
    if parts.Cons? { PartsRenamed(parts.tail, was, now); }
  }

  lemma CallFollows(s: State, t: State, line: nat, func: Node, was: string, now: string)
    requires Exchangeable(was, now) && SameAliases(s.aliases, t.aliases, was, now) && Fresh(func, now)
    ensures var found, renamed := CallFindings(s.aliases, line, func), CallFindings(t.aliases, line, Renamed(func,
        was, now));
            Follows(s, t, s.(findings := s.findings + found), t.(findings := t.findings + renamed), was, now,
                    was !in s.aliases && StartsAt(func, was) && Tells(line, func, was, now))
  {
    var found, renamed := CallFindings(s.aliases, line, func), CallFindings(t.aliases, line, Renamed(func, was, now));
    if StartsAt(func, was) && was !in s.aliases {
      UnboundCall(s, t, line, func, was, now);
      hide CallFindings, Gap, RespelledAll;
      GapAppend(s.findings, t.findings, found, renamed, was, now);
      RespelledAppend(s.findings, found, was, now);
    } else {
      CallAlike(s, t, line, func, was, now);
      AppendFollows(s, t, found, was, now);
    }
  }

  lemma CallAlike(s: State, t: State, line: nat, func: Node, was: string, now: string)
    requires Exchangeable(was, now) && SameAliases(s.aliases, t.aliases, was, now) && Fresh(func, now)
    requires StartsAt(func, was) ==> was in s.aliases
    ensures CallFindings(t.aliases, line, Renamed(func, was, now))
            == RespelledAll(CallFindings(s.aliases, line, func), was, now)
  {
    SameMeaning(s, t, func, was, now);
    DottedRenamed(func, was, now);
    var written, target := Dotted(func), Resolve(s.aliases, Dotted(func));
    PiecesRespelled(line, func, target, written, was, now);
    hide ReachFindings, BareFindings, MemberFindings, Dotted, Resolve, RespelledAll, RenamedParts;
    RespelledAppend(ReachFindings(line, target, written), BareFindings(line, func), was, now);
    RespelledAppend(ReachFindings(line, target, written) + BareFindings(line, func),
                    MemberFindings(line, func, target, written), was, now);
  }

  lemma PiecesRespelled(line: nat, func: Node, target: seq<string>, written: seq<string>, was: string, now: string)
    requires Exchangeable(was, now)
    ensures ReachFindings(line, target, RenamedParts(written, was, now))
            == RespelledAll(ReachFindings(line, target, written), was, now)
    ensures BareFindings(line, Renamed(func, was, now)) == RespelledAll(BareFindings(line, func), was, now)
    ensures MemberFindings(line, Renamed(func, was, now), target, RenamedParts(written, was, now))
            == RespelledAll(MemberFindings(line, func, target, written), was, now)
  {
    hide RenamedParts;
    assert RenamedParts([], was, now) == [] by { NothingToRename(was, now); }
  }

  lemma NothingToRename(was: string, now: string)
    ensures RenamedParts([], was, now) == []
  {}

  /** A call by a name that is not bound is judged by its spelling, and if that tells, the gap opens. */
  lemma UnboundCall(s: State, t: State, line: nat, func: Node, was: string, now: string)
    requires Exchangeable(was, now) && SameAliases(s.aliases, t.aliases, was, now) && Fresh(func, now)
    requires StartsAt(func, was) && was !in s.aliases
    ensures CallFindings(s.aliases, line, func) == CallFindings(map[], line, func)
    ensures CallFindings(t.aliases, line, Renamed(func, was, now)) == CallFindings(map[], line, Renamed(func, was, now))
    ensures var gap := Gap(CallFindings(map[], line, func), CallFindings(map[], line, Renamed(func, was, now)), was,
        now);
            if Tells(line, func, was, now) then gap > 0 else gap == 0
  {
    DottedRenamed(func, was, now);
    var written := Dotted(func);
    var renamed := [now] + written[1..];
    assert Resolve(map[], written) == written == Resolve(s.aliases, written);
    assert Resolve(map[], renamed) == renamed == Resolve(t.aliases, renamed);
    hide CallFindings, Gap, Tells, RespelledAll;
    TellingCall(line, func, was, now);
  }

  /** Nothing, or one finding of the class of the name. */
  predicate AtMostOne(found: seq<Finding>, name: string) {
    |found| <= 1 && (found != [] ==> NameClass(name) != OfNothing && KindClass(found[0].kind) == NameClass(name))
  }

  lemma CountAtMostOne(found: seq<Finding>, name: string, c: Class)
    requires AtMostOne(found, name)
    ensures Count(found, c) == if c == NameClass(name) then |found| else 0
  {
    if found != [] { assert found[..0] == [] && Count(found[..0], c) == 0; }
  }

  /** Two spellings differ in one check exactly if the gap opens there. */
  lemma {:induction false} PieceTells(found: seq<Finding>, renamed: seq<Finding>, was: string, now: string)
    requires AtMostOne(found, was) && AtMostOne(renamed, now)
    requires NameClass(was) == NameClass(now) ==> renamed == RespelledAll(found, was, now)
    ensures Gap(found, renamed, was, now) >= 0
    ensures Gap(found, renamed, was, now) == 0 <==> renamed == RespelledAll(found, was, now)
  {
    CountAtMostOne(found, was, NameClass(was));
    CountAtMostOne(found, was, NameClass(now));
    CountAtMostOne(renamed, now, NameClass(was));
    CountAtMostOne(renamed, now, NameClass(now));
    if renamed == RespelledAll(found, was, now) { NoGap(found, was, now); }
  }

  lemma ReachTells(line: nat, written: seq<string>, was: string, now: string)
    requires Exchangeable(was, now) && written != [] && written[0] == was
    ensures var renamed := [now] + written[1..];
            var a, b := ReachFindings(line, written, written), ReachFindings(line, renamed, renamed);
            Gap(a, b, was, now) >= 0 && (Gap(a, b, was, now) == 0 <==> b == RespelledAll(a, was, now))
  {
    hide Gap, Count;
    var renamed := [now] + written[1..];
    ReachIsOfTheHead(line, written);
    ReachIsOfTheHead(line, renamed);
    var a, b := ReachFindings(line, written, written), ReachFindings(line, renamed, renamed);
    if NameClass(was) == NameClass(now) && |written| > 1 {
      var n := |written| - 1;
      assert renamed[..n] == [now] + written[1..n] && renamed[n] == written[n];
      assert written[..n] == [was] + written[1..n];
      assert b == RespelledAll(a, was, now);
    }
    PieceTells(a, b, was, now);
  }

  lemma ReachIsOfTheHead(line: nat, target: seq<string>)
    requires target != []
    ensures AtMostOne(ReachFindings(line, target, target), target[0])
  {
    if |target| > 1 { assert target[..|target| - 1][0] == target[0]; }
  }

  /** The third check: only the raw socket goes by the head. */
  lemma MemberTells(line: nat, func: Node, written: seq<string>, was: string, now: string)
    requires Exchangeable(was, now) && written != [] && written[0] == was
    ensures var renamed := [now] + written[1..];
            var c, d := MemberFindings(line, func, written, written),
                        MemberFindings(line, Renamed(func, was, now), renamed, renamed);
            Gap(c, d, was, now) >= 0 && (Gap(c, d, was, now) == 0 <==> d == RespelledAll(c, was, now))
  {
    var renamed := [now] + written[1..];
    var other := Renamed(func, was, now);
    var c, d := MemberFindings(line, func, written, written), MemberFindings(line, other, renamed, renamed);
    assert |c| <= 1 && |d| <= 1;
    if func.Attribute? && func.attr in NETWORK_CALLS && |written| > 1 {
      PieceTells(c, d, was, now);
    } else {
      assert d == RespelledAll(c, was, now);
      NoGap(c, was, now);
    }
  }

  /** The findings of a call by an unbound name, and of its other spelling, differ in the class of either name only. */
  lemma TellingCall(line: nat, func: Node, was: string, now: string)
    requires Exchangeable(was, now) && StartsAt(func, was)
    ensures var gap := Gap(CallFindings(map[], line, func), CallFindings(map[], line, Renamed(func, was, now)), was,
        now);
            if Tells(line, func, was, now) then gap > 0 else gap == 0
  {
    DottedRenamed(func, was, now);
    var written := Dotted(func);
    var renamed := [now] + written[1..];
    var other := Renamed(func, was, now);
    assert Resolve(map[], written) == written && Resolve(map[], renamed) == renamed;
    assert BareFindings(line, func) == [] && BareFindings(line, other) == [];
    var a, b := ReachFindings(line, written, written), ReachFindings(line, renamed, renamed);
    var c, d := MemberFindings(line, func, written, written), MemberFindings(line, other, renamed, renamed);
    assert CallFindings(map[], line, func) == a + c && CallFindings(map[], line, other) == b + d;
    GapAppend(a, b, c, d, was, now);
    ReachTells(line, written, was, now);
    MemberTells(line, func, written, was, now);
    hide CallFindings, ReachFindings, MemberFindings, Gap, RespelledAll;
    RespelledAppend(a, c, was, now);
    NoGap(a + c, was, now);
  }

  // ---------------------------------------------------------------- imports

  lemma OneImportFollows(s: State, t: State, line: nat, n: ImportName, was: string, now: string)
    requires SameAliases(s.aliases, t.aliases, was, now) && was != now && n.Bound() != now
    requires n.Bound() == was ==> n.rest == [] || n.asname.Some?
    ensures Follows(s, t, WithImport(s, line, n), WithImport(t, line, RenamedImport(n, was, now)), was, now, false)
  {
    hide SameAliases, RespelledAll, ModuleFindings, Follows;
    ModulesFollow(s, t, line, n.Path(), was, now);
    var m := RenamedImport(n, was, now);
    BindingFollows(s, t, ModuleFindings(line, n.Path()), n.Bound(), n.Meaning(), was, now);
    assert m.Path() == n.Path() && m.Meaning() == n.Meaning();
    assert m.Bound() == if n.Bound() == was then now else n.Bound();
  }

  lemma BindsHere(s: State, line: nat, n: ImportName, was: string)
    ensures was in WithImport(s, line, n).aliases <==> was in s.aliases || n.Bound() == was
  {}

  lemma ModulesFollow(s: State, t: State, line: nat, mod: seq<string>, was: string, now: string)
    requires SameAliases(s.aliases, t.aliases, was, now) && mod != []
    ensures var found := ModuleFindings(line, mod);
            Follows(s, t, s.(findings := s.findings + found), t.(findings := t.findings + found), was, now, false)
  {
    SameRespelled(ModuleFindings(line, mod), was, now);
    AppendFollows(s, t, ModuleFindings(line, mod), was, now);
  }

  /** Both visits bind the same meaning, one of them under the new name if it was the old one. */
  lemma BindingFollows(s: State, t: State, found: seq<Finding>, bound: string, meaning: seq<string>,
      was: string, now: string)
    requires SameAliases(s.aliases, t.aliases, was, now) && was != now && bound != now
    requires Follows(s, t, s.(findings := s.findings + found), t.(findings := t.findings + found), was, now, false)
    ensures Follows(s, t, State(s.findings + found, s.aliases[bound := meaning]),
                    State(t.findings + found, t.aliases[(if bound == was then now
                        else bound) := meaning]), was, now, false)
  {
    hide Gap, RespelledAll;
  }

  lemma {:induction false} ImportsFollow(s: State, t: State, line: nat, names: seq<ImportName>, was: string,
      now: string)
    requires SameAliases(s.aliases, t.aliases, was, now) && was != now
    requires forall n :: n in names ==> n.Bound() != now && (n.Bound() == was ==> n.rest == [] || n.asname.Some?)
    ensures Follows(s, t, WithImports(s, line, names), WithImports(t, line, RenamedImports(names, was, now)), was,
        now, false)
    ensures was in WithImports(s, line, names).aliases
            <==> was in s.aliases || exists n :: n in names && n.Bound() == was
    decreases |names|
  {
    hide Follows, WithImport, RenamedImport;
    if names == [] {
      NothingFollows(s, t, was, now);
    } else {
      var s1, t1 := WithImport(s, line, names[0]), WithImport(t, line, RenamedImport(names[0], was, now));
      OneImportFollows(s, t, line, names[0], was, now);
      FollowsAliases(s, t, s1, t1, was, now, false);
      BindsHere(s, line, names[0], was);
      ImportsFollow(s1, t1, line, names[1..], was, now);
      assert RenamedImports(names, was, now)[1..] == RenamedImports(names[1..], was, now);
      assert forall n :: n in names <==> n == names[0] || n in names[1..];
      FollowsOn(s, t, s1, t1, WithImports(s, line, names), WithImports(t, line, RenamedImports(names, was, now)),
                was, now, false, false);
    }
  }

  lemma OneFromFollows(s: State, t: State, line: nat, mod: seq<string>, n: FromName, was: string, now: string)
    requires SameAliases(s.aliases, t.aliases, was, now) && was != now && n.Bound() != now
    ensures Follows(s, t, WithFrom(s, line, mod, n), WithFrom(t, line, mod, RenamedFrom(n, was, now)), was, now, false)
  {
    hide SameAliases, RespelledAll, ModuleFindings, Follows;
    var checked := if mod == [] then [n.name] else mod;
    ModulesFollow(s, t, line, checked, was, now);
    BindingFollows(s, t, ModuleFindings(line, checked), n.Bound(), mod + [n.name], was, now);
  }

  lemma {:induction false} FromsFollow(s: State, t: State, line: nat, mod: seq<string>, names: seq<FromName>,
      was: string, now: string)
    requires SameAliases(s.aliases, t.aliases, was, now) && was != now && forall n :: n in names ==> n.Bound() != now
    ensures Follows(s, t, WithFroms(s, line, mod, names), WithFroms(t, line, mod, RenamedFroms(names, was, now)),
                    was, now, false)
    ensures was in WithFroms(s, line, mod, names).aliases
            <==> was in s.aliases || exists n :: n in names && n.Bound() == was
    decreases |names|
  {
    if names == [] {
      NothingFollows(s, t, was, now);
    } else {
      var s1, t1 := WithFrom(s, line, mod, names[0]), WithFrom(t, line, mod, RenamedFrom(names[0], was, now));
      OneFromFollows(s, t, line, mod, names[0], was, now);
      FromsFollow(s1, t1, line, mod, names[1..], was, now);
      assert RenamedFroms(names, was, now)[1..] == RenamedFroms(names[1..], was, now);
      assert forall n :: n in names <==> n == names[0] || n in names[1..];
      FollowsOn(s, t, s1, t1, WithFroms(s, line, mod, names), WithFroms(t, line, mod, RenamedFroms(names, was, now)),
                was, now, false, false);
    }
  }

  // ---------------------------------------------------------------- the visit

  /** What a renaming of `was` to `now` asks of a node. */
  ghost predicate Consistent(node: Node, was: string, now: string) {
    Exchangeable(was, now) && Fresh(node, now) && CanRename(node, was)
  }

  ghost predicate ConsistentAll(nodes: Nodes, was: string, now: string) {
    Exchangeable(was, now) && FreshAll(nodes, now) && CanRenameAll(nodes, was)
  }

  lemma {:induction false} VisitFollows(s: State, t: State, node: Node, was: string, now: string)
    requires SameAliases(s.aliases, t.aliases, was, now) && Consistent(node, was, now)
    ensures Follows(s, t, Visit(s, node), Visit(t, Renamed(node, was, now)), was, now,
                    GivenAway(node, was, now, was in s.aliases))
    ensures was in Visit(s, node).aliases <==> was in s.aliases || Binds(node, was)
    decreases node
  {
    hide Follows, CallFindings, RespelledAll, Tells, SessionFindings;
    var s2, t2 := Visit(s, node), Visit(t, Renamed(node, was, now));
    match node
    case Import(line, names) => ImportsFollow(s, t, line, names, was, now);
    case ImportFrom(line, level, mod, names) =>
      if level == 0 { FromsFollow(s, t, line, mod, names, was, now); } else { NothingFollows(s, t, was, now); }
    case Name(_, _) => NothingFollows(s, t, was, now);
    case Attribute(line, value, attr) =>
      var found := if attr in DANGEROUS_ATTRIBUTES then [Finding(line, High, DangerousAttribute(attr), [])] else [];
      SameRespelled(found, was, now);
      AppendFollows(s, t, found, was, now);
      var s1, t1 := s.(findings := s.findings + found), t.(findings := t.findings + found);
      VisitFollows(s1, t1, value, was, now);
      FollowsOn(s, t, s1, t1, s2, t2, was, now, false, GivenAway(value, was, now, was in s.aliases));
    case Call(line, func, args) =>
      CallFollows(s, t, line, func, was, now);
      var s1 := s.(findings := s.findings + CallFindings(s.aliases, line, func));
      var t1 := t.(findings := t.findings + CallFindings(t.aliases, line, Renamed(func, was, now)));
      CallVisitFollows(s, t, s1, t1, node, was, now);
    case Constant(line, text) =>
      if text.Some? {
        PlainFollows(s, t, line, text.value, was, now);
      } else {
        NothingFollows(s, t, was, now);
      }
    case JoinedStr(_, parts) => VisitAllFollows(s, t, parts, was, now);
    case Add(line, left, right) =>
      ConstantsRenamed(node, was, now);
      PlainFollows(s, t, line, JoinedConstants(node), was, now);
      AddVisitFollows(s, t, node, was, now);
    case Other(_, children) => VisitAllFollows(s, t, children, was, now);
  }

  lemma SameRespelled(found: seq<Finding>, was: string, now: string)
    requires forall f :: f in found ==> f.written == []
    ensures RespelledAll(found, was, now) == found
  {}

  lemma PlainFollows(s: State, t: State, line: nat, text: string, was: string, now: string)
    requires SameAliases(s.aliases, t.aliases, was, now)
    ensures var found := SessionFindings(line, text);
            Follows(s, t, s.(findings := s.findings + found), t.(findings := t.findings + found), was, now, false)
  {
    SameRespelled(SessionFindings(line, text), was, now);
    AppendFollows(s, t, SessionFindings(line, text), was, now);
  }

  lemma {:induction false} CallVisitFollows(s: State, t: State, s1: State, t1: State, node: Node, was: string,
      now: string)
    requires node.Call? && Consistent(node, was, now) && s1.aliases == s.aliases
    requires Follows(s, t, s1, t1, was, now, was !in s.aliases && StartsAt(node.func, was)
                                             && Tells(node.line, node.func, was, now))
    ensures Follows(s, t, VisitAll(Visit(s1, node.func), node.args),
                    VisitAll(Visit(t1, Renamed(node.func, was, now)), RenamedAll(node.args, was, now)), was, now,
                    GivenAway(node, was, now, was in s.aliases))
    ensures was in VisitAll(Visit(s1, node.func), node.args).aliases <==> was in s.aliases || Binds(node, was)
    decreases node, 0
  {
    var func, args := node.func, node.args;
    var bound := was in s.aliases;
    var told := !bound && StartsAt(func, was) && Tells(node.line, func, was, now);
    assert SameAliases(s1.aliases, t1.aliases, was, now);
    hide Follows, Tells, StartsAt;
    var s2, t2 := Visit(s1, func), Visit(t1, Renamed(func, was, now));
    VisitFollows(s1, t1, func, was, now);
    FollowsOn(s, t, s1, t1, s2, t2, was, now, told, GivenAway(func, was, now, bound));
    FollowsAliases(s1, t1, s2, t2, was, now, GivenAway(func, was, now, bound));
    VisitAllFollows(s2, t2, args, was, now);
    FollowsOn(s, t, s2, t2, VisitAll(s2, args), VisitAll(t2, RenamedAll(args, was, now)), was, now,
              told || GivenAway(func, was, now, bound), GivenAwayAny(args, was, now, was in s2.aliases));
  }

  lemma FollowsAliases(s: State, t: State, s': State, t': State, was: string, now: string, given: bool)
    requires Follows(s, t, s', t', was, now, given)
    ensures SameAliases(s'.aliases, t'.aliases, was, now)
  {}

  lemma {:induction false} AddVisitFollows(s: State, t: State, node: Node, was: string, now: string)
    requires node.Add? && Consistent(node, was, now) && SameAliases(s.aliases, t.aliases, was, now)
    requires JoinedConstants(Renamed(node, was, now)) == JoinedConstants(node)
    ensures Follows(s, t, Visit(s, node), Visit(t, Renamed(node, was, now)), was, now,
                    GivenAway(node, was, now, was in s.aliases))
    ensures was in Visit(s, node).aliases <==> was in s.aliases || Binds(node, was)
    decreases node, 0
  {
    var left, right, bound := node.left, node.right, was in s.aliases;
    var found := SessionFindings(node.line, JoinedConstants(node));
    PlainFollows(s, t, node.line, JoinedConstants(node), was, now);
    hide Follows, SessionFindings, JoinedConstants;
    var s1, t1 := s.(findings := s.findings + found), t.(findings := t.findings + found);
    var s2, t2 := Visit(s1, left), Visit(t1, Renamed(left, was, now));
    VisitFollows(s1, t1, left, was, now);
    FollowsOn(s, t, s1, t1, s2, t2, was, now, false, GivenAway(left, was, now, bound));
    FollowsAliases(s1, t1, s2, t2, was, now, GivenAway(left, was, now, bound));
    VisitFollows(s2, t2, right, was, now);
    FollowsOn(s, t, s2, t2, Visit(s2, right), Visit(t2, Renamed(right, was, now)), was, now,
              GivenAway(left, was, now, bound), GivenAway(right, was, now, was in s2.aliases));
  }

  lemma {:induction false} VisitAllFollows(s: State, t: State, nodes: Nodes, was: string, now: string)
    requires SameAliases(s.aliases, t.aliases, was, now) && ConsistentAll(nodes, was, now)
    ensures Follows(s, t, VisitAll(s, nodes), VisitAll(t, RenamedAll(nodes, was, now)), was, now,
                    GivenAwayAny(nodes, was, now, was in s.aliases))
    ensures was in VisitAll(s, nodes).aliases <==> was in s.aliases || BindsAny(nodes, was)
    decreases nodes
  {
    hide Follows;
    if nodes == Nil {
      NothingFollows(s, t, was, now);
    } else {
      var head, tail := nodes.head, nodes.tail;
      var s1, t1 := Visit(s, head), Visit(t, Renamed(head, was, now));
      VisitFollows(s, t, head, was, now);
      FollowsAliases(s, t, s1, t1, was, now, GivenAway(head, was, now, was in s.aliases));
      VisitAllFollows(s1, t1, tail, was, now);
      FollowsOn(s, t, s1, t1, VisitAll(s1, tail), VisitAll(t1, RenamedAll(tail, was, now)), was, now,
                GivenAway(head, was, now, was in s.aliases), GivenAwayAny(tail, was, now, was in s1.aliases));
    }
  }

  // ---------------------------------------------------------------- the review

  /**
   * A consistent renaming leaves the findings as they are, reasons equal up to the written name, if
   * and only if no call by the old name that comes before its binding is judged by its spelling.
   */
  lemma {:induction false} ReviewSurvivesExactly(tree: Node, was: string, now: string)
    requires Exchangeable(was, now) && Fresh(tree, now) && CanRename(tree, was)
    ensures Findings(Renamed(tree, was, now)) == RespelledAll(Findings(tree), was, now)
            <==> !GivenAway(tree, was, now, false)
  {
    var s := State([], map[]);
    assert RespelledAll([], was, now) == [];
    assert Gap([], [], was, now) == 0;
    VisitFollows(s, s, tree, was, now);
    NoGap(Findings(tree), was, now);
    hide Gap, RespelledAll, Visit;
  }

  /** Nothing is given away where every use comes after a binding. */
  lemma {:induction false} BoundFirstHides(node: Node, was: string, now: string, bound: bool)
    requires BoundFirst(node, was, bound)
    ensures !GivenAway(node, was, now, bound)
    ensures StartsAt(node, was) ==> bound
    decreases node
  {
    hide Tells;
    match node
    case Attribute(_, value, _) => BoundFirstHides(value, was, now, bound);
    case Call(_, func, args) =>
      BoundFirstHides(func, was, now, bound);
      BoundFirstHidesAll(args, was, now, bound || Binds(func, was));
    case JoinedStr(_, parts) => BoundFirstHidesAll(parts, was, now, bound);
    case Add(_, left, right) =>
      BoundFirstHides(left, was, now, bound);
      BoundFirstHides(right, was, now, bound || Binds(left, was));
    case Other(_, children) => BoundFirstHidesAll(children, was, now, bound);
    case _ =>
  }

  lemma {:induction false} BoundFirstHidesAll(nodes: Nodes, was: string, now: string, bound: bool)
    requires BoundFirstAll(nodes, was, bound)
    ensures !GivenAwayAny(nodes, was, now, bound)
    decreases nodes
  {
    if nodes.Cons? {
      BoundFirstHides(nodes.head, was, now, bound);
      BoundFirstHidesAll(nodes.tail, was, now, bound || Binds(nodes.head, was));
    }
  }

  /**
   * Renaming the local name of an import consistently leaves the review as it is: the same
   * findings on the same lines with the same severity, reasons equal up to the written name.
   */
  lemma ReviewSurvivesRenaming(tree: Node, was: string, now: string)
    requires Exchangeable(was, now) && Fresh(tree, now) && CanRename(tree, was) && BoundFirst(tree, was, false)
    ensures Findings(Renamed(tree, was, now)) == RespelledAll(Findings(tree), was, now)
    ensures Passes(Findings(Renamed(tree, was, now))) <==> Passes(Findings(tree))
  {
    BoundFirstHides(tree, was, now, false);
    ReviewSurvivesExactly(tree, was, now);
    SamePassing(Findings(tree), was, now);
  }

  lemma SamePassing(findings: seq<Finding>, was: string, now: string)
    ensures Passes(RespelledAll(findings, was, now)) <==> Passes(findings)
  {
    var respelled := RespelledAll(findings, was, now);
    if Passes(respelled) {
      forall f | f in findings ensures !f.severity.High? {
        var i :| 0 <= i < |findings| && findings[i] == f;
        assert respelled[i] in respelled;
      }
    }
  }

  /** `name.fork()`. */
  function ForkCall(name: string): Node {
    Call(1, Attribute(1, Name(1, name), "fork"), Nil)
  }

  function ImportOs(asname: Option<string>): Node {
    Import(2, [ImportName("os", [], asname)])
  }

  /** A module that uses a name before it imports `os` under it. */
  function UseFirst(name: string, asname: Option<string>): Node {
    Other(0, Cons(ForkCall(name), Cons(ImportOs(asname), Nil)))
  }

  lemma {:induction false} ForkBeforeImports(name: string)
    requires name == "os" || name == "o"
    ensures Visit(State([], map[]), ForkCall(name)).aliases == map[]
    ensures |Visit(State([], map[]), ForkCall(name)).findings| == if name == "os" then 1 else 0
  {
    var func := Attribute(1, Name(1, name), "fork");
    assert Dotted(Name(1, name)) == [name];
    assert Dotted(func) == [name, "fork"];
    assert Resolve(map[], [name, "fork"]) == [name, "fork"];
    assert [name, "fork"][..1] == [name];
    var s := State([] + CallFindings(map[], 1, func), map[]);
    assert s.findings + [] == s.findings;
    assert Visit(s, func) == s by { assert Visit(s, Name(1, name)) == s; }
    assert VisitAll(s, Nil) == s;
  }

  lemma {:induction false} OsIsHarmless(s: State, asname: Option<string>)
    ensures Visit(s, ImportOs(asname)).findings == s.findings
  {
    var n := ImportName("os", [], asname);
    assert n.Path() == ["os"];
    assert WithImports(s, 2, [n]) == WithImports(WithImport(s, 2, n), 2, [n][1..]) && [n][1..] == [];
  }

  lemma {:induction false} FindingsOfUseFirst(name: string, asname: Option<string>)
    requires name == "os" || name == "o"
    ensures |Findings(UseFirst(name, asname))| == if name == "os" then 1 else 0
  {
    var s := Visit(State([], map[]), ForkCall(name));
    ForkBeforeImports(name);
    OsIsHarmless(s, asname);
    hide Visit, CallFindings;
    assert VisitAll(s, Cons(ImportOs(asname), Nil)) == VisitAll(Visit(s, ImportOs(asname)), Nil);
    assert VisitAll(State([], map[]), Cons(ForkCall(name), Cons(ImportOs(asname), Nil)))
        == VisitAll(s, Cons(ImportOs(asname), Nil));
    VisitOther(State([], map[]), Cons(ForkCall(name), Cons(ImportOs(asname), Nil)));
  }

  lemma VisitOther(s: State, children: Nodes)
    ensures Visit(s, Other(0, children)) == VisitAll(s, children)
  {}

  /** A use the visit reaches before the binding is judged by its spelling, so there the condition is needed. */
  lemma {:induction false} UseBeforeBindingIsJudgedBySpelling()
    ensures var tree := UseFirst("os", None);
            Fresh(tree, "o") && CanRename(tree, "os") && |Findings(tree)| == 1
    ensures |Findings(Renamed(UseFirst("os", None), "os", "o"))| == 0
  {
    FindingsOfUseFirst("os", None);
    FindingsOfUseFirst("o", Some("o"));
    assert |"o"| != |"os"|;
    assert RenamedImports([ImportName("os", [], None)], "os", "o") == [ImportName("os", [], Some("o"))];
    assert Renamed(ImportOs(None), "os", "o") == ImportOs(Some("o"));
    assert Renamed(ForkCall("os"), "os", "o") == ForkCall("o") by {
        assert Renamed(Name(1, "os"), "os", "o") == Name(1, "o"); }
    hide Findings, Visit;
    assert RenamedAll(Cons(ImportOs(None), Nil), "os", "o") == Cons(ImportOs(Some("o")), Nil);
    assert Renamed(UseFirst("os", None), "os", "o") == UseFirst("o", Some("o"));
    assert Fresh(ForkCall("os"), "o") by { assert Fresh(Name(1, "os"), "o"); }
    assert CanRename(ForkCall("os"), "os") by { assert CanRename(Name(1, "os"), "os"); }
  }
}
