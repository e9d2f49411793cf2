/** The key catalogue of `plugins/api/_catalog.py`: posts are merged in, and what a post denied stays denied. */
module Catalog {
  import opened Text

  /** An endpoint is identified by its base URL and key. */
  datatype Address = Address(baseUrl: string, apiKey: string)

  datatype Endpoint = Endpoint(id: nat, provider: string, tier: Option<string>, postId: Option<int>,
                               postDate: Option<string>, checked: bool, alive: bool, failCount: nat,
                                   cooldown: Option<int>)

  datatype Flags = Flags(working: bool, denied: bool, listed: bool, starred: bool)

  datatype Model = Model(flags: Flags, cooldown: Option<int>)

  datatype ModelKey = ModelKey(at: Address, name: string)

  datatype State = State(endpoints: map<Address, Endpoint>, models: map<ModelKey, Model>, nextId: nat)

  datatype Mention = Mention(name: string, starred: bool)

  datatype Post = Post(at: Address, provider: string, tier: Option<string>, postDate: Option<string>,
      postId: Option<int>,
                       working: seq<Mention>, denied: seq<Mention>, listed: seq<Mention>)

  /** One thing said about one model. */
  datatype Fact = Fact(key: ModelKey, flags: Flags)

  // ---------------------------------------------------------------- flags

  function Join(f: Flags, g: Flags): Flags {
    Flags(f.working || g.working, f.denied || g.denied, f.listed || g.listed, f.starred || g.starred)
  }

  /** `INSERT ... ON CONFLICT DO UPDATE` with `MAX` on every flag. */
  function Marked(models: map<ModelKey, Model>, fact: Fact): map<ModelKey, Model> {
    models[fact.key := if fact.key in models then models[fact.key].(flags := Join(models[fact.key].flags, fact.flags))
                       else Model(fact.flags, None)]
  }

  function MarkAll(models: map<ModelKey, Model>, facts: seq<Fact>): map<ModelKey, Model> {
    if facts == [] then models else Marked(MarkAll(models, facts[..|facts| - 1]), facts[|facts| - 1])
  }

  datatype Kind = IsWorking | IsDenied | IsListed

  function FlagsOf(kind: Kind, starred: bool): Flags {
    Flags(kind.IsWorking?, kind.IsDenied?, kind.IsListed?, starred)
  }

  function FactsOf(at: Address, mentions: seq<Mention>, kind: Kind): seq<Fact> {
    seq(|mentions|, i requires 0 <= i < |mentions| =>
      Fact(ModelKey(at, mentions[i].name), FlagsOf(kind, mentions[i].starred)))
  }

  function Facts(post: Post): seq<Fact> {
    FactsOf(post.at, post.working, IsWorking) + FactsOf(post.at, post.denied, IsDenied) + FactsOf(post.at,
        post.listed, IsListed)
  }

  lemma {:induction false} MarkAllAppend(models: map<ModelKey, Model>, first: seq<Fact>, second: seq<Fact>)
    ensures MarkAll(models, first + second) == MarkAll(MarkAll(models, first), second)
  {
    if second == [] {
      assert first + second == first;
    } else {
      var all := first + second;
      assert all[..|all| - 1] == first + second[..|second| - 1];
      MarkAllAppend(models, first, second[..|second| - 1]);
    }
  }

  // ---------------------------------------------------------------- endpoints

  function OrElse<T>(latest: Option<T>, prior: Option<T>): Option<T> {
    if latest.Some? then latest else prior
  }

  function IntOr0(v: Option<int>): int {
    if v.Some? then v.value else 0
  }

  function Max(x: int, y: int): int {
    if x >= y then x else y
  }

  /** The endpoint row of a post: inserted, or brought up to date without forgetting what is known. */
  function Refreshed(s: State, post: Post): Endpoint {
    if post.at in s.endpoints then
      var e := s.endpoints[post.at];
      e.(provider := post.provider, tier := OrElse(post.tier, e.tier),
         postId := Some(Max(IntOr0(e.postId), IntOr0(post.postId))), postDate := OrElse(post.postDate, e.postDate))
    else Endpoint(s.nextId, post.provider, post.tier, post.postId, post.postDate, false, false, 0, None)
  }

  function Upserted(s: State, post: Post): State {
    State(s.endpoints[post.at := Refreshed(s, post)], MarkAll(s.models, Facts(post)),
          if post.at in s.endpoints then s.nextId else s.nextId + 1)
  }

  function Ingested(s: State, posts: seq<Post>): State {
    if posts == [] then s else Upserted(Ingested(s, posts[..|posts| - 1]), posts[|posts| - 1])
  }

  // ---------------------------------------------------------------- the merge is a join

  function AllFacts(posts: seq<Post>): seq<Fact> {
    if posts == [] then [] else AllFacts(posts[..|posts| - 1]) + Facts(posts[|posts| - 1])
  }

  /** What a set of facts says about a model, on top of what was known. */
  ghost function Told(models: map<ModelKey, Model>, facts: set<Fact>, key: ModelKey): Flags {
    var known := if key in models then models[key].flags else Flags(false, false, false, false);
    Flags(known.working || exists f :: f in facts && f.key == key && f.flags.working,
          known.denied || exists f :: f in facts && f.key == key && f.flags.denied,
          known.listed || exists f :: f in facts && f.key == key && f.flags.listed,
          known.starred || exists f :: f in facts && f.key == key && f.flags.starred)
  }

  function KeysOf(facts: set<Fact>): set<ModelKey> {
    set f | f in facts :: f.key
  }

  ghost function Joined(models: map<ModelKey, Model>, facts: set<Fact>): map<ModelKey, Model> {
    map key | key in models.Keys + KeysOf(facts) ::
      Model(Told(models, facts, key), if key in models then models[key].cooldown else None)
  }

  function AsSet(facts: seq<Fact>): set<Fact> {
    set f | f in facts
  }

  lemma ToldOneMore(models: map<ModelKey, Model>, facts: set<Fact>, f: Fact, key: ModelKey)
    ensures Told(models, facts + {f}, key)
            == if f.key == key then Join(Told(models, facts, key), f.flags) else Told(models, facts, key)
  {
    assert forall g :: g in facts + {f} <==> g in facts || g == f;
  }

  /** Marking one fact after the other computes the join with the set of all of them. */
  lemma {:induction false} MarkAllIsJoin(models: map<ModelKey, Model>, facts: seq<Fact>)
    ensures MarkAll(models, facts) == Joined(models, AsSet(facts))
    decreases |facts|
  {
    if facts == [] {
      assert AsSet(facts) == {};
      forall key | key in models ensures Joined(models, {})[key] == models[key] {}
    } else {
      var init, f := facts[..|facts| - 1], facts[|facts| - 1];
      MarkAllIsJoin(models, init);
      assert facts == init + [f] && AsSet(facts) == AsSet(init) + {f};
      JoinOneMore(models, AsSet(init), f);
    }
  }

  lemma JoinOneMore(models: map<ModelKey, Model>, facts: set<Fact>, f: Fact)
    ensures Marked(Joined(models, facts), f) == Joined(models, facts + {f})
  {
    var left, right := Marked(Joined(models, facts), f), Joined(models, facts + {f});
    KeysOneMore(facts, f);
    hide Told, KeysOf;
    forall key | key in right ensures left[key] == right[key] { JoinOneKey(models, facts, f, key); }
  }

  lemma JoinOneKey(models: map<ModelKey, Model>, facts: set<Fact>, f: Fact, key: ModelKey)
    requires key in Joined(models, facts + {f}) && key in Marked(Joined(models, facts), f)
    ensures Marked(Joined(models, facts), f)[key] == Joined(models, facts + {f})[key]
  {
    ToldOneMore(models, facts, f, key);
    if f.key !in Joined(models, facts) { ToldNothing(models, facts, f.key); }
    hide Told;
  }

  lemma KeysOneMore(facts: set<Fact>, f: Fact)
    ensures KeysOf(facts + {f}) == KeysOf(facts) + {f.key}
  {
    forall key | key in KeysOf(facts) + {f.key} ensures key in KeysOf(facts + {f}) {
      var g :| (g in facts || g == f) && g.key == key;
      assert g in facts + {f};
    }
  }

  lemma ToldNothing(models: map<ModelKey, Model>, facts: set<Fact>, key: ModelKey)
    requires key !in models && key !in KeysOf(facts)
    ensures Told(models, facts, key) == Flags(false, false, false, false)
  {}

  lemma {:induction false} IngestMarksAll(s: State, posts: seq<Post>)
    ensures Ingested(s, posts).models == MarkAll(s.models, AllFacts(posts))
    decreases |posts|
  {
    if posts != [] {
      IngestMarksAll(s, posts[..|posts| - 1]);
      MarkAllAppend(s.models, AllFacts(posts[..|posts| - 1]), Facts(posts[|posts| - 1]));
    }
  }

  /** The model table after ingesting posts depends on what they said, not on how often or in which order. */
  lemma {:induction false} IngestDependsOnFactsOnly(s: State, first: seq<Post>, second: seq<Post>)
    requires AsSet(AllFacts(first)) == AsSet(AllFacts(second))
    ensures Ingested(s, first).models == Ingested(s, second).models
  {
    IngestMarksAll(s, first);
    IngestMarksAll(s, second);
    MarkAllIsJoin(s.models, AllFacts(first));
    MarkAllIsJoin(s.models, AllFacts(second));
  }

  /**
   * Ingesting posts forgets nothing: a known tier or date stays known, the post id is never below
   * any post's, and what was observed about the endpoint is left alone.
   */
  lemma {:induction false} NothingIsForgotten(s: State, posts: seq<Post>, at: Address)
    requires at in s.endpoints
    ensures at in Ingested(s, posts).endpoints
    ensures var e, r := s.endpoints[at], Ingested(s, posts).endpoints[at];
            && r.id == e.id && r.checked == e.checked && r.alive == e.alive && r.failCount == e.failCount
                && r.cooldown == e.cooldown
            && (e.tier.Some? ==> r.tier.Some?) && (e.postDate.Some? ==> r.postDate.Some?)
            && IntOr0(r.postId) >= IntOr0(e.postId)
            && forall i :: 0 <= i < |posts| && posts[i].at == at ==>
                 && IntOr0(r.postId) >= IntOr0(posts[i].postId)
                 && (posts[i].tier.Some? ==> r.tier.Some?) && (posts[i].postDate.Some? ==> r.postDate.Some?)
    decreases |posts|
  {
    if posts != [] {
      var init := posts[..|posts| - 1];
      NothingIsForgotten(s, init, at);
      assert forall i :: 0 <= i < |init| ==> posts[i] == init[i];
    }
  }

  lemma {:induction false} TwoPosts(s: State, p: Post, q: Post)
    ensures Ingested(s, [p, q]) == Upserted(Upserted(s, p), q)
  {
    assert [p, q][..1] == [p] && [p][..0] == [];
    assert Ingested(s, []) == s;
    assert Ingested(s, [p]) == Upserted(s, p);
  }

  /** The endpoint table does depend on the order: the last date said wins. */
  lemma {:induction false} DatesDependOnOrder(s: State, at: Address)
    ensures var p := Post(at, "", None, Some("a"), None, [], [], []);
            var q := Post(at, "", None, Some("b"), None, [], [], []);
            Ingested(s, [p, q]).endpoints[at].postDate != Ingested(s, [q, p]).endpoints[at].postDate
  {
    var p := Post(at, "", None, Some("a"), None, [], [], []);
    var q := Post(at, "", None, Some("b"), None, [], [], []);
    TwoPosts(s, p, q);
    TwoPosts(s, q, p);
  }

  // ---------------------------------------------------------------- every operation

  datatype Op =
    | Ingest(post: Post)
    | Check(at: Address, alive: bool, apiModels: Option<seq<string>>)
    | CoolEndpoint(at: Address, till: int)
    | CoolModel(key: ModelKey, till: int)
    | Success(key: ModelKey)

  function ListedFacts(at: Address, names: seq<string>): seq<Fact> {
    seq(|names|, i requires 0 <= i < |names| => Fact(ModelKey(at, names[i]), FlagsOf(IsListed, false)))
  }

  function Checked(s: State, at: Address, alive: bool, apiModels: Option<seq<string>>): State {
    var endpoints :=
      if at in s.endpoints then
        var e := s.endpoints[at];
        s.endpoints[at := e.(checked := true, alive := alive, failCount := if alive then 0 else e.failCount + 1)]
      else s.endpoints;
    s.(endpoints := endpoints,
       models := if apiModels.Some? then MarkAll(s.models, ListedFacts(at, apiModels.value)) else s.models)
  }

  function CooledEndpoint(s: State, at: Address, till: int): State {
    if at !in s.endpoints then s
    else s.(endpoints := s.endpoints[at := s.endpoints[at].(cooldown := Some(till),
        failCount := s.endpoints[at].failCount + 1)])
  }

  function WithModelCooldown(s: State, key: ModelKey, till: Option<int>): State {
    if key !in s.models then s else s.(models := s.models[key := s.models[key].(cooldown := till)])
  }

  function Succeeded(s: State, key: ModelKey): State {
    var s1 :=
      if key.at in s.endpoints then s.(endpoints := s.endpoints[key.at := s.endpoints[key.at].(failCount := 0)])
      else s;
    WithModelCooldown(s1, key, None)
  }

  function Apply(s: State, op: Op): State {
    match op
    case Ingest(post) => Upserted(s, post)
    case Check(at, alive, apiModels) => Checked(s, at, alive, apiModels)
    case CoolEndpoint(at, till) => CooledEndpoint(s, at, till)
    case CoolModel(key, till) => WithModelCooldown(s, key, Some(till))
    case Success(key) => Succeeded(s, key)
  }

  function ApplyAll(s: State, ops: seq<Op>): State
    decreases |ops|
  {
    if ops == [] then s else ApplyAll(Apply(s, ops[0]), ops[1..])
  }

  predicate IsDeniedModel(s: State, key: ModelKey) {
    key in s.models && s.models[key].flags.denied
  }

  lemma {:induction false} MarkingKeepsDenied(models: map<ModelKey, Model>, facts: seq<Fact>, key: ModelKey)
    requires key in models && models[key].flags.denied
    ensures var r := MarkAll(models, facts); key in r && r[key].flags.denied
    decreases |facts|
  {
    if facts != [] { MarkingKeepsDenied(models, facts[..|facts| - 1], key); }
  }

  /** Once denied, always denied: no later operation clears it. */
  lemma {:induction false} DeniedForever(s: State, ops: seq<Op>, key: ModelKey)
    requires IsDeniedModel(s, key)
    ensures IsDeniedModel(ApplyAll(s, ops), key)
    decreases |ops|
  {
    if ops != [] {
      match ops[0] {
        case Ingest(post) => MarkingKeepsDenied(s.models, Facts(post), key);
        case Check(at, _, Some(names)) => MarkingKeepsDenied(s.models, ListedFacts(at, names), key);
        case _ =>
      }
      DeniedForever(Apply(s, ops[0]), ops[1..], key);
    }
  }

  /** Endpoint ids are fresh and never shared. */
  ghost predicate IdsOk(s: State) {
    && (forall a :: a in s.endpoints ==> s.endpoints[a].id < s.nextId)
    && (forall a, b :: a in s.endpoints && b in s.endpoints && s.endpoints[a].id == s.endpoints[b].id ==> a == b)
  }

  lemma {:induction false} IdsStayOk(s: State, ops: seq<Op>)
    requires IdsOk(s)
    ensures IdsOk(ApplyAll(s, ops))
    decreases |ops|
  {
    if ops != [] {
      OneOpKeepsIds(s, ops[0]);
      IdsStayOk(Apply(s, ops[0]), ops[1..]);
    }
  }

  lemma OneOpKeepsIds(s: State, op: Op)
    requires IdsOk(s)
    ensures IdsOk(Apply(s, op))
  {
    hide MarkAll;
    match op
    case Ingest(post) => SameIds(s, Upserted(s, post), post.at);
    case Check(at, alive, apiModels) => SameIds(s, Checked(s, at, alive, apiModels), at);
    case CoolEndpoint(at, till) => SameIds(s, CooledEndpoint(s, at, till), at);
    case CoolModel(key, till) => SameIds(s, WithModelCooldown(s, key, Some(till)), key.at);
    case Success(key) => SameIds(s, Succeeded(s, key), key.at);
  }

  /** Only the endpoint at `at` may differ, and it keeps its id or gets the next one. */
  lemma SameIds(s: State, r: State, at: Address)
    requires IdsOk(s) && r.endpoints.Keys <= s.endpoints.Keys + {at} && r.nextId >= s.nextId
    requires forall a :: a in s.endpoints && a != at ==> a in r.endpoints && r.endpoints[a] == s.endpoints[a]
    requires at in r.endpoints ==>
      if at in s.endpoints then r.endpoints[at].id == s.endpoints[at].id
      else r.endpoints[at].id == s.nextId && r.nextId > s.nextId
    ensures IdsOk(r)
  {}

  // ---------------------------------------------------------------- the catalogue

  class Store {
    var endpoints: map<Address, Endpoint>
    var models: map<ModelKey, Model>
    var nextId: nat

    function View(): State
      reads this
    {
      State(endpoints, models, nextId)
    }

    method MarkModels(at: Address, mentions: seq<Mention>, kind: Kind)
      modifies `models
      ensures models == MarkAll(old(models), FactsOf(at, mentions, kind))
    {
      ghost var facts := FactsOf(at, mentions, kind);
      for i := 0 to |mentions|
        invariant models == MarkAll(old(models), facts[..i])
      {
        assert facts[..i + 1][..i] == facts[..i];
        models := Marked(models, Fact(ModelKey(at, mentions[i].name), FlagsOf(kind, mentions[i].starred)));
      }
      assert facts[..|mentions|] == facts;
    }

    method UpsertPost(post: Post) returns (id: nat, created: bool)
      modifies this
      ensures View() == Upserted(old(View()), post)
      ensures created == (post.at !in old(endpoints)) && id == endpoints[post.at].id
    {
      created := post.at !in endpoints;
      ghost var s := View();
      if created {
        endpoints := endpoints[post.at := Endpoint(nextId, post.provider, post.tier, post.postId, post.postDate,
                                                   false, false, 0, None)];
        nextId := nextId + 1;
      } else {
        var e := endpoints[post.at];
        endpoints := endpoints[post.at := e.(provider := post.provider, tier := OrElse(post.tier, e.tier),
                                             postId := Some(Max(IntOr0(e.postId), IntOr0(post.postId))),
                                             postDate := OrElse(post.postDate, e.postDate))];
      }
      id := endpoints[post.at].id;
      MarkModels(post.at, post.working, IsWorking);
      MarkModels(post.at, post.denied, IsDenied);
      MarkModels(post.at, post.listed, IsListed);
      MarkAllAppend(s.models, FactsOf(post.at, post.working, IsWorking), FactsOf(post.at, post.denied, IsDenied));
      MarkAllAppend(s.models, FactsOf(post.at, post.working, IsWorking) + FactsOf(post.at, post.denied, IsDenied),
                    FactsOf(post.at, post.listed, IsListed));
    }

    method MarkChecked(at: Address, alive: bool, apiModels: Option<seq<string>>)
      modifies this
      ensures View() == Checked(old(View()), at, alive, apiModels)
    {
      if at in endpoints {
        var e := endpoints[at];
        endpoints := endpoints[at := e.(checked := true, alive := alive, failCount := if alive then 0
            else e.failCount + 1)];
      }
      if apiModels.Some? {
        var names := apiModels.value;
        ghost var facts := ListedFacts(at, names);
        ghost var was := models;
        for i := 0 to |names|
          invariant models == MarkAll(was, facts[..i])
          invariant endpoints == old(Checked(View(), at, alive, apiModels)).endpoints && nextId == old(nextId)
        {
          assert facts[..i + 1][..i] == facts[..i];
          models := Marked(models, Fact(ModelKey(at, names[i]), FlagsOf(IsListed, false)));
        }
        assert facts[..|names|] == facts;
      }
    }
  }
}
