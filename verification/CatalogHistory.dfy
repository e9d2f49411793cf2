/** What the catalogue knows after any operations, read off the operations themselves. */
module CatalogHistory {
  import opened Text
  import opened Catalog

  // ---------------------------------------------------------------- flags

  predicate Names(mentions: seq<Mention>, name: string) {
    exists m :: m in mentions && m.name == name
  }

  predicate Stars(mentions: seq<Mention>, name: string) {
    exists m :: m in mentions && m.name == name && m.starred
  }

  predicate Holds(f: Flags, kind: Kind) {
    match kind
    case IsWorking => f.working
    case IsDenied => f.denied
    case IsListed => f.listed
  }

  /** The model is in the table with this flag. */
  predicate Has(s: State, key: ModelKey, kind: Kind) {
    key in s.models && Holds(s.models[key].flags, kind)
  }

  predicate HasStar(s: State, key: ModelKey) {
    key in s.models && s.models[key].flags.starred
  }

  /** The operation says this of the model: a post by the list it is in, a check by the endpoint's own answer. */
  predicate Says(op: Op, key: ModelKey, kind: Kind) {
    match op
    case Ingest(post) =>
      post.at == key.at && (match kind
                            case IsWorking => Names(post.working, key.name)
                            case IsDenied => Names(post.denied, key.name)
                            case IsListed => Names(post.listed, key.name))
    case Check(at, _, apiModels) => kind.IsListed? && at == key.at && apiModels.Some? && key.name in apiModels.value
    case _ => false
  }

  predicate SaysStar(op: Op, key: ModelKey) {
    && op.Ingest? && op.post.at == key.at
    && (Stars(op.post.working, key.name) || Stars(op.post.denied, key.name) || Stars(op.post.listed, key.name))
  }

  predicate IsTold(op: Op, key: ModelKey) {
    exists kind :: Says(op, key, kind)
  }

  // ---------------------------------------------------------------- one operation

  ghost predicate Among(facts: seq<Fact>, key: ModelKey, kind: Kind) {
    exists f :: f in facts && f.key == key && Holds(f.flags, kind)
  }

  ghost predicate StarAmong(facts: seq<Fact>, key: ModelKey) {
    exists f :: f in facts && f.key == key && f.flags.starred
  }

  ghost predicate IsMarked(facts: seq<Fact>, key: ModelKey) {
    exists f :: f in facts && f.key == key
  }

  lemma OneMore(init: seq<Fact>, f: Fact, key: ModelKey, kind: Kind)
    ensures Among(init + [f], key, kind) <==> Among(init, key, kind) || (f.key == key && Holds(f.flags, kind))
    ensures StarAmong(init + [f], key) <==> StarAmong(init, key) || (f.key == key && f.flags.starred)
    ensures IsMarked(init + [f], key) <==> IsMarked(init, key) || f.key == key
    ensures Among(init, key, kind) || StarAmong(init, key) ==> IsMarked(init, key)
  {
    assert forall g :: g in init + [f] <==> g in init || g == f;
  }

  /** What marking facts adds is what they say, and nothing of what was known is lost. */
  lemma {:induction false} MarkAllSays(models: map<ModelKey, Model>, facts: seq<Fact>, key: ModelKey, kind: Kind)
    ensures var r := MarkAll(models, facts);
            && (key in r <==> key in models || IsMarked(facts, key))
            && (key in r && Holds(r[key].flags, kind)
                <==> (key in models && Holds(models[key].flags, kind)) || Among(facts, key, kind))
            && (key in r && r[key].flags.starred
                <==> (key in models && models[key].flags.starred) || StarAmong(facts, key))
            && (key in r ==> r[key].cooldown == if key in models then models[key].cooldown else None)
    decreases |facts|
  {
    if facts != [] {
      var init, f := facts[..|facts| - 1], facts[|facts| - 1];
      MarkAllSays(models, init, key, kind);
      assert facts == init + [f] && MarkAll(models, facts) == Marked(MarkAll(models, init), f);
      OneMore(init, f, key, kind);
      hide Among, StarAmong, IsMarked, MarkAll;
    }
  }

  /** The facts of a list of mentions are about the models it names, with the one flag of the list. */
  lemma {:induction false} FactsOfSay(at: Address, mentions: seq<Mention>, list: Kind, key: ModelKey, kind: Kind)
    ensures var facts := FactsOf(at, mentions, list);
            && (IsMarked(facts, key) <==> at == key.at && Names(mentions, key.name))
            && (Among(facts, key, kind) <==> list == kind && at == key.at && Names(mentions, key.name))
            && (StarAmong(facts, key) <==> at == key.at && Stars(mentions, key.name))
  {
    var facts := FactsOf(at, mentions, list);
    assert forall f :: f in facts ==>
        exists m :: m in mentions && f == Fact(ModelKey(at, m.name), FlagsOf(list, m.starred));
    forall m | m in mentions ensures Fact(ModelKey(at, m.name), FlagsOf(list, m.starred)) in facts {
      var i :| 0 <= i < |mentions| && mentions[i] == m;
      assert facts[i] == Fact(ModelKey(at, m.name), FlagsOf(list, m.starred));
    }
  }

  lemma SayAppend(first: seq<Fact>, second: seq<Fact>, key: ModelKey, kind: Kind)
    ensures Among(first + second, key, kind) <==> Among(first, key, kind) || Among(second, key, kind)
    ensures StarAmong(first + second, key) <==> StarAmong(first, key) || StarAmong(second, key)
    ensures IsMarked(first + second, key) <==> IsMarked(first, key) || IsMarked(second, key)
  {
    assert forall f :: f in first + second <==> f in first || f in second;
  }

  lemma {:induction false} PostSays(post: Post, key: ModelKey, kind: Kind)
    ensures Among(Facts(post), key, kind) <==> Says(Ingest(post), key, kind)
    ensures StarAmong(Facts(post), key) <==> SaysStar(Ingest(post), key)
    ensures IsMarked(Facts(post), key) <==> IsTold(Ingest(post), key)
  {
    var working, denied := FactsOf(post.at, post.working, IsWorking), FactsOf(post.at, post.denied, IsDenied);
    var listed := FactsOf(post.at, post.listed, IsListed);
    FactsOfSay(post.at, post.working, IsWorking, key, kind);
    FactsOfSay(post.at, post.denied, IsDenied, key, kind);
    FactsOfSay(post.at, post.listed, IsListed, key, kind);
    SayAppend(working, denied, key, kind);
    SayAppend(working + denied, listed, key, kind);
    hide Among, StarAmong, IsMarked, FactsOf, Names, Stars;
    assert IsTold(Ingest(post), key) <==> Says(Ingest(post), key, IsWorking) || Says(Ingest(post), key, IsDenied)
                                          || Says(Ingest(post), key, IsListed);
  }

  lemma {:induction false} CheckSays(at: Address, alive: bool, names: seq<string>, key: ModelKey, kind: Kind)
    ensures var facts, op := ListedFacts(at, names), Check(at, alive, Some(names));
            && (Among(facts, key, kind) <==> Says(op, key, kind)) && !StarAmong(facts, key)
            && (IsMarked(facts, key) <==> IsTold(op, key))
  {
    var facts, op := ListedFacts(at, names), Check(at, alive, Some(names));
    forall n | n in names ensures Fact(ModelKey(at, n), FlagsOf(IsListed, false)) in facts {
      var i :| 0 <= i < |names| && names[i] == n;
      assert facts[i] == Fact(ModelKey(at, n), FlagsOf(IsListed, false));
    }
    assert IsTold(op, key) <==> Says(op, key, IsListed);
  }

  /** One operation adds what it says and nothing else. */
  lemma {:induction false} OneOpSays(s: State, op: Op, key: ModelKey, kind: Kind)
    ensures var r := Apply(s, op);
            && (Has(r, key, kind) <==> Has(s, key, kind) || Says(op, key, kind))
            && (HasStar(r, key) <==> HasStar(s, key) || SaysStar(op, key))
            && (key in r.models <==> key in s.models || IsTold(op, key))
  {
    hide Among, StarAmong, IsMarked, MarkAll, Facts, ListedFacts, Holds;
    match op
    case Ingest(post) =>
      PostSays(post, key, kind);
      MarkAllSays(s.models, Facts(post), key, kind);
    case Check(at, alive, Some(names)) =>
      CheckSays(at, alive, names, key, kind);
      MarkAllSays(s.models, ListedFacts(at, names), key, kind);
    case _ =>
  }

  /**
   * After any operations a model is working, denied or listed if and only if it was, or one of them said so; the
   * same holds for its star, and it has a row if and only if it had one or was mentioned.
   */
  lemma {:induction false} FlagsExactly(s: State, ops: seq<Op>, key: ModelKey, kind: Kind)
    ensures var r := ApplyAll(s, ops);
            && (Has(r, key, kind) <==> Has(s, key, kind) || exists op :: op in ops && Says(op, key, kind))
            && (HasStar(r, key) <==> HasStar(s, key) || exists op :: op in ops && SaysStar(op, key))
            && (key in r.models <==> key in s.models || exists op :: op in ops && IsTold(op, key))
    decreases |ops|
  {
    if ops != [] {
      hide Has, HasStar, Says, SaysStar, IsTold, Apply;
      OneOpSays(s, ops[0], key, kind);
      FlagsExactly(Apply(s, ops[0]), ops[1..], key, kind);
      assert forall op :: op in ops <==> op == ops[0] || op in ops[1..];
    }
  }

  // ---------------------------------------------------------------- observations

  predicate Fails(op: Op, at: Address) {
    (op.Check? && op.at == at && !op.alive) || (op.CoolEndpoint? && op.at == at)
  }

  /** The endpoint answered: the failures are forgotten. */
  predicate Answers(op: Op, at: Address) {
    (op.Check? && op.at == at && op.alive) || (op.Success? && op.key.at == at)
  }

  function Failures(ops: seq<Op>, at: Address): nat
    decreases |ops|
  {
    if ops == [] then 0 else Failures(ops[1..], at) + if Fails(ops[0], at) then 1 else 0
  }

  ghost predicate LastAnswer(ops: seq<Op>, at: Address, i: nat) {
    i < |ops| && Answers(ops[i], at) && NoAnswer(ops[i + 1..], at)
  }

  ghost predicate NoAnswer(ops: seq<Op>, at: Address) {
    forall op :: op in ops ==> !Answers(op, at)
  }

  predicate IsCheck(op: Op, at: Address) {
    op.Check? && op.at == at
  }

  ghost predicate NoCheck(ops: seq<Op>, at: Address) {
    forall op :: op in ops ==> !IsCheck(op, at)
  }

  ghost predicate NoCooling(ops: seq<Op>, at: Address) {
    forall op :: op in ops ==> !(op.CoolEndpoint? && op.at == at)
  }

  /** What one operation does to what was observed about an endpoint. */
  lemma OneOpObserves(s: State, op: Op, at: Address)
    requires at in s.endpoints
    ensures at in Apply(s, op).endpoints
    ensures var e, r := s.endpoints[at], Apply(s, op).endpoints[at];
            && r.failCount == (if Answers(op, at) then 0 else if Fails(op, at) then e.failCount + 1 else e.failCount)
            && r.checked == (e.checked || IsCheck(op, at))
            && r.alive == (if IsCheck(op, at) then op.alive else e.alive)
            && r.cooldown == (if op.CoolEndpoint? && op.at == at then Some(op.till) else e.cooldown)
  {
    hide MarkAll, Facts, ListedFacts;
  }

  /** The fail count is the number of failures since the endpoint last answered. */
  lemma {:induction false} FailuresExactly(s: State, ops: seq<Op>, at: Address, i: nat)
    requires at in s.endpoints
    ensures at in ApplyAll(s, ops).endpoints
    ensures var n := ApplyAll(s, ops).endpoints[at].failCount;
            && (NoAnswer(ops, at) ==> n == s.endpoints[at].failCount + Failures(ops, at))
            && (LastAnswer(ops, at, i) ==> n == Failures(ops[i + 1..], at))
    decreases |ops|
  {
    if ops != [] {
      var first, rest := ops[0], ops[1..];
      OneOpObserves(s, first, at);
      hide Apply, Answers, Fails;
      assert ops == [first] + rest;
      FailuresExactly(Apply(s, first), rest, at, if i > 0 then i - 1 else 0);
      if LastAnswer(ops, at, i) && i > 0 { assert rest[i - 1] == ops[i] && rest[i..] == ops[i + 1..]; }
    }
  }

  /** An endpoint is checked once it was, alive if the last check said so, and cools down as it was last told to. */
  lemma {:induction false} ChecksExactly(s: State, ops: seq<Op>, at: Address, i: nat)
    requires at in s.endpoints
    ensures at in ApplyAll(s, ops).endpoints
    ensures var e, r := s.endpoints[at], ApplyAll(s, ops).endpoints[at];
            && (r.checked <==> e.checked || !NoCheck(ops, at))
            && (NoCheck(ops, at) ==> r.alive == e.alive)
            && (NoCooling(ops, at) ==> r.cooldown == e.cooldown)
            && (i < |ops| && IsCheck(ops[i], at) && NoCheck(ops[i + 1..], at) ==> r.alive == ops[i].alive)
            && (i < |ops| && ops[i].CoolEndpoint? && ops[i].at == at && NoCooling(ops[i + 1..], at) ==>
                  r.cooldown == Some(ops[i].till))
    decreases |ops|
  {
    if ops != [] {
      var first, rest := ops[0], ops[1..];
      OneOpObserves(s, first, at);
      hide Apply, IsCheck;
      assert ops == [first] + rest;
      ChecksExactly(Apply(s, first), rest, at, if i > 0 then i - 1 else 0);
      if 0 < i < |ops| { assert rest[i - 1] == ops[i] && rest[i..] == ops[i + 1..]; }
    }
  }

  ghost predicate Touches(op: Op, key: ModelKey) {
    (op.CoolModel? || op.Success?) && op.key == key
  }

  ghost predicate Untouched(ops: seq<Op>, key: ModelKey) {
    forall op :: op in ops ==> !Touches(op, key)
  }

  /** A model cools down as it was last told to, unless it has answered since. */
  lemma {:induction false} ModelCooldownExactly(s: State, ops: seq<Op>, key: ModelKey, i: nat)
    requires key in s.models
    ensures key in ApplyAll(s, ops).models
    ensures var till := ApplyAll(s, ops).models[key].cooldown;
            && (Untouched(ops, key) ==> till == s.models[key].cooldown)
            && (i < |ops| && Touches(ops[i], key) && Untouched(ops[i + 1..], key) ==>
                  till == if ops[i].CoolModel? then Some(ops[i].till) else None)
    decreases |ops|
  {
    if ops != [] {
      var first, rest := ops[0], ops[1..];
      OneOpCools(s, first, key);
      hide Apply, Touches;
      assert ops == [first] + rest;
      ModelCooldownExactly(Apply(s, first), rest, key, if i > 0 then i - 1 else 0);
      if 0 < i < |ops| { assert rest[i - 1] == ops[i] && rest[i..] == ops[i + 1..]; }
    }
  }

  lemma {:induction false} OneOpCools(s: State, op: Op, key: ModelKey)
    requires key in s.models
    ensures key in Apply(s, op).models
    ensures Apply(s, op).models[key].cooldown
            == if !Touches(op, key) then s.models[key].cooldown else if op.CoolModel? then Some(op.till) else None
  {
    hide MarkAll, Facts, ListedFacts;
    match op
    case Ingest(post) => MarkAllSays(s.models, Facts(post), key, IsListed);
    case Check(at, alive, Some(names)) => MarkAllSays(s.models, ListedFacts(at, names), key, IsListed);
    case _ =>
  }

  // ---------------------------------------------------------------- what the channel says

  function PostsOnly(ops: seq<Op>): seq<Op>
    decreases |ops|
  {
    if ops == [] then [] else (if ops[0].Ingest? then [ops[0]] else []) + PostsOnly(ops[1..])
  }

  /** The same endpoints with the same ids, and the same said about them. */
  ghost predicate SameRows(s: State, r: State) {
    && s.endpoints.Keys == r.endpoints.Keys && s.nextId == r.nextId
    && forall at :: at in s.endpoints && at in r.endpoints ==> SameRow(s.endpoints[at], r.endpoints[at])
  }

  predicate SameRow(e: Endpoint, f: Endpoint) {
    && e.id == f.id && e.provider == f.provider && e.tier == f.tier
    && e.postId == f.postId && e.postDate == f.postDate
  }

  lemma OneOpOnRows(s: State, r: State, op: Op)
    requires SameRows(s, r)
    ensures if op.Ingest? then SameRows(Apply(s, op), Apply(r, op)) else SameRows(Apply(s, op), r)
  {
    hide MarkAll, Facts, ListedFacts;
  }

  /** Checks, cooldowns and successes leave alone what the posts said about an endpoint. */
  lemma {:induction false} ChecksLeaveTheRows(s: State, r: State, ops: seq<Op>)
    requires SameRows(s, r)
    ensures SameRows(ApplyAll(s, ops), ApplyAll(r, PostsOnly(ops)))
    decreases |ops|
  {
    if ops != [] {
      var first, rest := ops[0], ops[1..];
      OneOpOnRows(s, r, first);
      hide SameRows, Apply;
      assert first.Ingest? ==> PostsOnly(ops)[0] == first && PostsOnly(ops)[1..] == PostsOnly(rest);
      assert !first.Ingest? ==> PostsOnly(ops) == PostsOnly(rest);
      ChecksLeaveTheRows(Apply(s, first), if first.Ingest? then Apply(r, first) else r, rest);
    }
  }
}
