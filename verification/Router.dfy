/** `ModelRouter` of `src/userbot/gemini.py`: a fallback chain of models that remembers who answered last. */
module Router {
  import opened Text

  predicate Distinct(s: seq<string>) {
    forall i, j :: 0 <= i < j < |s| ==> s[i] != s[j]
  }

  /** The configured names, stripped, without blanks and repetitions. */
  function Chain(names: seq<string>): (r: seq<string>)
    ensures Distinct(r)
    ensures forall m :: m in r <==> m != "" && exists n :: n in names && Strip(n) == m
  {
    if names == [] then []
    else
      var init, name := names[..|names| - 1], names[|names| - 1];
      assert forall n :: n in names <==> n in init || n == name;
      var kept := Chain(init);
      if Strip(name) != "" && Strip(name) !in kept then kept + [Strip(name)] else kept
  }

  /** What a router has learned. */
  datatype Memory = Memory(active: Option<string>, exhausted: set<string>, waits: map<string, int>)

  function Others(models: seq<string>, m: string): seq<string> {
    if models == [] then [] else (if models[0] != m then [models[0]] else []) + Others(models[1..], m)
  }

  /** The remembered model first, then the rest in configured order. */
  function Ordered(models: seq<string>, mem: Memory): seq<string> {
    if mem.active.Some? && mem.active.value in models then [mem.active.value] + Others(models, mem.active.value)
    else models
  }

  lemma DistinctCons(m: string, rest: seq<string>)
    requires Distinct(rest) && m !in rest
    ensures Distinct([m] + rest)
  {}

  lemma {:induction false} InOthers(models: seq<string>, m: string, x: string)
    ensures x in Others(models, m) <==> x in models && x != m
  {
    if models != [] { InOthers(models[1..], m, x); }
  }

  lemma {:induction false} OthersAreDistinct(models: seq<string>, m: string)
    requires Distinct(models)
    ensures Distinct(Others(models, m)) && m !in Others(models, m)
  {
    if models != [] {
      var rest := Others(models[1..], m);
      OthersAreDistinct(models[1..], m);
      InOthers(models[1..], m, models[0]);
      assert models[0] !in models[1..];
      DistinctCons(models[0], rest);
    }
  }

  lemma {:induction false} OthersAreTheRest(models: seq<string>, m: string)
    requires Distinct(models)
    ensures multiset(models) == multiset(Others(models, m)) + if m in models then multiset{m} else multiset{}
  {
    if models != [] {
      OthersAreTheRest(models[1..], m);
      assert models == [models[0]] + models[1..] && models[0] !in models[1..];
      hide Distinct;
    }
  }

  /** Every call asks in an order that is a permutation of the chain, so no model is asked twice. */
  lemma OrderIsAPermutation(models: seq<string>, mem: Memory)
    requires Distinct(models)
    ensures var order := Ordered(models, mem);
            Distinct(order) && multiset(order) == multiset(models)
    ensures mem.active.Some? && mem.active.value in models ==> Ordered(models, mem)[0] == mem.active.value
  {
    if mem.active.Some? && mem.active.value in models {
      var m := mem.active.value;
      OthersAreDistinct(models, m);
      OthersAreTheRest(models, m);
      DistinctCons(m, Others(models, m));
    }
  }

  // ---------------------------------------------------------------- one answer

  /** How the API takes one request. */
  datatype Answer = Reply(text: string) | Quota(wait: Option<int>) | Broken

  datatype Outcome = Answered(model: string, text: string) | AllExhausted | Failed(model: string)

  datatype Call = Call(mem: Memory, outcome: Outcome, tried: seq<string>)

  function Refused(mem: Memory, model: string, wait: Option<int>): Memory {
    Memory(if mem.active == Some(model) then None else mem.active,
           mem.exhausted + {model},
           if wait.Some? then mem.waits[model := wait.value] else mem.waits)
  }

  function Ask(mem: Memory, order: seq<string>, answers: string -> Answer): Call
    decreases |order|
  {
    if order == [] then Call(mem, AllExhausted, [])
    else
      match answers(order[0])
      case Reply(text) => Call(mem.(active := Some(order[0])), Answered(order[0], text), [order[0]])
      case Broken => Call(mem, Failed(order[0]), [order[0]])
      case Quota(wait) =>
        var rest := Ask(Refused(mem, order[0], wait), order[1..], answers);
        rest.(tried := [order[0]] + rest.tried)
  }

  function Routed(models: seq<string>, mem: Memory, answers: string -> Answer): Call {
    Ask(mem, Ordered(models, mem), answers)
  }

  /** The models tried are the ones up to the first that does not refuse for quota, and that one decides. */
  lemma {:induction false} AskExactly(mem: Memory, order: seq<string>, answers: string -> Answer)
    ensures var c := Ask(mem, order, answers);
            && c.tried <= order
            && (forall i :: 0 <= i < |c.tried| - 1 ==> answers(c.tried[i]).Quota?)
            && (c.outcome.AllExhausted? <==> forall m :: m in order ==> answers(m).Quota?)
            && (!c.outcome.AllExhausted? ==>
                  && c.tried != [] && c.outcome.model == c.tried[|c.tried| - 1]
                  && !answers(c.outcome.model).Quota?)
            && (c.outcome.AllExhausted? ==> c.tried == order)
            && (c.outcome.Failed? ==> answers(c.outcome.model).Broken?)
            && (c.outcome.Answered? ==>
                  c.mem.active == Some(c.outcome.model) && answers(c.outcome.model) == Reply(c.outcome.text))
    decreases |order|
  {
    if order != [] && answers(order[0]).Quota? {
      AskExactly(Refused(mem, order[0], answers(order[0]).wait), order[1..], answers);
      hide Refused, Ask;
      assert order == [order[0]] + order[1..];
    }
  }

  /** The models put down as exhausted are exactly the ones that refused. */
  lemma {:induction false} ExhaustedExactly(mem: Memory, order: seq<string>, answers: string -> Answer)
    ensures var c := Ask(mem, order, answers);
            c.mem.exhausted == mem.exhausted + set m | m in c.tried && answers(m).Quota?
    decreases |order|
  {
    if order != [] && answers(order[0]).Quota? {
      ExhaustedExactly(Refused(mem, order[0], answers(order[0]).wait), order[1..], answers);
    }
  }

  // ---------------------------------------------------------------- amortised probing

  /** The answers of a time when exactly the models in `good` have quota and nothing else goes wrong. */
  ghost predicate Steady(models: seq<string>, good: set<string>, answers: string -> Answer) {
    forall m :: m in models ==> if m in good then answers(m).Reply? else answers(m).Quota?
  }

  function Requests(models: seq<string>, mem: Memory, calls: seq<string -> Answer>): nat
    decreases |calls|
  {
    if calls == [] then 0
    else
      var c := Routed(models, mem, calls[0]);
      |c.tried| + Requests(models, c.mem, calls[1..])
  }

  /** Whatever the order, the models asked before the one that answers are without quota. */
  lemma {:induction false} OneAsk(mem: Memory, order: seq<string>, good: set<string>, g: string,
      answers: string -> Answer)
    requires Distinct(order) && Steady(order, good, answers) && g in good && g in order
    ensures var c := Ask(mem, order, answers);
            && c.tried != [] && c.mem.active.Some? && c.mem.active.value in good
            && Distinct(c.tried[..|c.tried| - 1])
            && (forall i :: 0 <= i < |c.tried| - 1 ==> c.tried[i] in order && c.tried[i] !in good)
            && (order[0] in good ==> |c.tried| == 1)
    decreases |order|
  {
    var c := Ask(mem, order, answers);
    AskExactly(mem, order, answers);
    hide Ask;
    assert answers(g).Reply? && !c.outcome.AllExhausted?;
    var n := |c.tried| - 1;
    assert c.tried == order[..n + 1] && c.tried[n] in order;
    if n > 0 { assert c.tried[0] == order[0] && answers(order[0]).Quota?; }
  }

  /** A call probes at most the models without quota before one that has it, and remembers that one. */
  lemma OneProbe(models: seq<string>, good: set<string>, mem: Memory, answers: string -> Answer)
    requires Distinct(models) && good != {} && (forall m :: m in good ==> m in models) && Steady(models, good, answers)
    ensures var c := Routed(models, mem, answers);
            && c.mem.active.Some? && c.mem.active.value in good
            && |c.tried| <= |models| - |good| + 1
            && (mem.active.Some? && mem.active.value in good ==> |c.tried| == 1)
  {
    var order := Ordered(models, mem);
    var c := Ask(mem, order, answers);
    OrderIsAPermutation(models, mem);
    SameMembers(models, order);
    SteadyOrder(models, order, good, answers);
    hide Ask, Ordered, Distinct, Steady;
    var g :| g in good;
    OneAsk(mem, order, good, g, answers);
    RefusedCount(models, good, c.tried[..|c.tried| - 1]);
  }

  lemma SteadyOrder(models: seq<string>, order: seq<string>, good: set<string>, answers: string -> Answer)
    requires Steady(models, good, answers) && forall m :: m in models <==> m in order
    ensures Steady(order, good, answers)
  {}

  lemma SameMembers(first: seq<string>, second: seq<string>)
    requires multiset(first) == multiset(second)
    ensures forall m :: m in first <==> m in second
  {
    forall m ensures m in first <==> m in second {
      assert m in multiset(first) <==> m in multiset(second);
    }
  }

  lemma RefusedCount(models: seq<string>, good: set<string>, refused: seq<string>)
    requires Distinct(models) && Distinct(refused) && forall m :: m in good ==> m in models
    requires forall i :: 0 <= i < |refused| ==> refused[i] in models && refused[i] !in good
    ensures |refused| <= |models| - |good|
  {
    var all := set m | m in models;
    SizeOf(models);
    CountDistinct(refused, all - good);
    assert all == (all - good) + good;
  }

  lemma {:induction false} SizeOf(s: seq<string>)
    requires Distinct(s)
    ensures |set m | m in s| == |s|
  {
    if s != [] {
      SizeOf(s[1..]);
      assert (set m | m in s) == {s[0]} + set m | m in s[1..];
    }
  }

  lemma CountDistinct(s: seq<string>, all: set<string>)
    requires Distinct(s) && forall m :: m in s ==> m in all
    ensures |s| <= |all|
  {
    SizeOf(s);
    var mine := set m | m in s;
    assert mine <= all && |mine| + |all - mine| == |all|;
  }

  /**
   * Probing is amortised: while a fixed set of models has quota, n calls make at most one request
   * each, plus one for every model without quota, once.
   */
  lemma {:induction false} ProbingIsAmortised(models: seq<string>, good: set<string>, mem: Memory,
      calls: seq<string -> Answer>)
    requires Distinct(models) && good != {} && (forall m :: m in good ==> m in models)
    requires forall i :: 0 <= i < |calls| ==> Steady(models, good, calls[i])
    ensures Requests(models, mem, calls) <= |calls| + |models| - |good|
    ensures mem.active.Some? && mem.active.value in good ==> Requests(models, mem, calls) == |calls|
    decreases |calls|
  {
    if calls == [] {
      SizeOf(models);
      assert good <= set m | m in models;
      CountSubset(good, set m | m in models);
    } else {
      OneProbe(models, good, mem, calls[0]);
      ProbingIsAmortised(models, good, Routed(models, mem, calls[0]).mem, calls[1..]);
    }
  }

  lemma CountSubset(small: set<string>, large: set<string>)
    requires small <= large
    ensures |small| <= |large|
  {
    assert |small| + |large - small| == |large|;
  }

  // ---------------------------------------------------------------- streaming

  datatype End = Complete | OutOfQuota(wait: Option<int>) | Interrupted

  /** What one model's stream yields, and how it ends. */
  datatype Feed = Feed(pieces: seq<string>, end: End)

  /** One piece of a streamed answer, marked with where it came from. */
  datatype Piece = Piece(model: string, text: string)

  datatype Ending = Finished | Exhausted | QuotaMidStream(model: string) | Raised(model: string)

  datatype Streamed = Streamed(mem: Memory, pieces: seq<Piece>, ending: Ending, tried: seq<string>)

  function Marked(model: string, pieces: seq<string>): seq<Piece> {
    seq(|pieces|, i requires 0 <= i < |pieces| => Piece(model, pieces[i]))
  }

  function AskStream(mem: Memory, order: seq<string>, feeds: string -> Feed): Streamed
    decreases |order|
  {
    if order == [] then Streamed(mem, [], Exhausted, [])
    else
      var feed := feeds(order[0]);
      var mem1 := if feed.pieces == [] then mem else mem.(active := Some(order[0]));
      match feed.end
      case Complete => Streamed(mem1, Marked(order[0], feed.pieces), Finished, [order[0]])
      case Interrupted => Streamed(mem1, Marked(order[0], feed.pieces), Raised(order[0]), [order[0]])
      case OutOfQuota(wait) =>
        if feed.pieces != [] then Streamed(mem1, Marked(order[0], feed.pieces), QuotaMidStream(order[0]), [order[0]])
        else
          var rest := AskStream(Refused(mem, order[0], wait), order[1..], feeds);
          rest.(tried := [order[0]] + rest.tried)
  }

  /**
   * Nothing is spliced: all text one call streams is one model's, complete and in order, and every
   * model tried before it had refused without a single piece.
   */
  lemma {:induction false} NothingIsSpliced(mem: Memory, order: seq<string>, feeds: string -> Feed)
    ensures var r := AskStream(mem, order, feeds);
            && r.tried <= order
            && (forall i :: 0 <= i < |r.tried| - 1 ==>
                  feeds(r.tried[i]).pieces == [] && feeds(r.tried[i]).end.OutOfQuota?)
            && (r.ending.Exhausted? ==> r.pieces == [] && r.tried == order)
            && (!r.ending.Exhausted? ==>
                  && r.tried != []
                  && r.pieces == Marked(r.tried[|r.tried| - 1], feeds(r.tried[|r.tried| - 1]).pieces)
                  && (r.pieces != [] ==> r.mem.active == Some(r.tried[|r.tried| - 1])))
    decreases |order|
  {
    if order != [] && feeds(order[0]).end.OutOfQuota? && feeds(order[0]).pieces == [] {
      NothingIsSpliced(Refused(mem, order[0], feeds(order[0]).end.wait), order[1..], feeds);
      assert order == [order[0]] + order[1..];
    }
  }

  // ---------------------------------------------------------------- the router

  class ModelRouter {
    const models: seq<string>
    var active: Option<string>
    var exhausted: set<string>
    var waits: map<string, int>

    function View(): Memory
      reads this
    {
      Memory(active, exhausted, waits)
    }

    constructor (names: seq<string>)
      requires Chain(names) != []
      ensures models == Chain(names) && View() == Memory(None, {}, map[])
    {
      models, active, exhausted, waits := Chain(names), None, {}, map[];
    }

    method Reset()
      modifies this
      ensures View() == Memory(None, {}, map[])
    {
      active, exhausted, waits := None, {}, map[];
    }

    method Refuse(model: string, wait: Option<int>)
      modifies this
      ensures View() == Refused(old(View()), model, wait)
    {
      exhausted := exhausted + {model};
      if wait.Some? { waits := waits[model := wait.value]; }
      if active == Some(model) { active := None; }
    }

    method Generate(answers: string -> Answer) returns (outcome: Outcome, tried: seq<string>)
      modifies this
      ensures Call(View(), outcome, tried) == Routed(models, old(View()), answers)
    {
      hide Refused, Ordered;
      var order := Ordered(models, View());
      tried := [];
      for i := 0 to |order|
        invariant Ask(old(View()), order, answers)
                  == (var rest := Ask(View(), order[i..], answers); rest.(tried := tried + rest.tried))
      {
        assert order[i..][0] == order[i] && order[i..][1..] == order[i + 1..];
        tried := tried + [order[i]];
        match answers(order[i])
        case Reply(text) =>
          active := Some(order[i]);
          return Answered(order[i], text), tried;
        case Broken =>
          return Failed(order[i]), tried;
        case Quota(wait) =>
          Refuse(order[i], wait);
      }
      outcome := AllExhausted;
    }

    /** One model's stream, piece by piece; the first piece makes it the remembered one. */
    method Forward(model: string, pieces: seq<string>) returns (sent: seq<Piece>)
      modifies `active
      ensures sent == Marked(model, pieces)
      ensures active == if pieces == [] then old(active) else Some(model)
    {
      sent := [];
      for k := 0 to |pieces|
        invariant sent == Marked(model, pieces)[..k]
        invariant active == if k == 0 then old(active) else Some(model)
      {
        active := Some(model);
        sent := sent + [Piece(model, pieces[k])];
      }
    }

    method Stream(feeds: string -> Feed) returns (pieces: seq<Piece>, ending: Ending, tried: seq<string>)
      modifies this
      ensures Streamed(View(), pieces, ending, tried) == AskStream(old(View()), Ordered(models, old(View())), feeds)
    {
      hide Refused, Ordered;
      var order := Ordered(models, View());
      tried, pieces := [], [];
      for i := 0 to |order|
        invariant pieces == []
        invariant AskStream(old(View()), order, feeds)
                  == (var rest := AskStream(View(), order[i..], feeds); rest.(tried := tried + rest.tried))
      {
        assert order[i..][0] == order[i] && order[i..][1..] == order[i + 1..];
        var model := order[i];
        var feed := feeds(model);
        tried := tried + [model];
        pieces := Forward(model, feed.pieces);
        hide Marked;
        match feed.end
        case Complete => return pieces, Finished, tried;
        case Interrupted => return pieces, Raised(model), tried;
        case OutOfQuota(wait) =>
          if pieces != [] { return pieces, QuotaMidStream(model), tried; }
          Refuse(model, wait);
      }
      ending := Exhausted;
    }
  }

  // ---------------------------------------------------------------- keys

  /** The key of the `n`-th request, counted from the start of the client. */
  function KeyAt(keys: seq<string>, n: nat): string
    requires keys != []
  {
    keys[n % |keys|]
  }

  function KeysFrom(keys: seq<string>, n: nat): seq<string>
    requires keys != []
  {
    seq(|keys|, i requires 0 <= i < |keys| => KeyAt(keys, n + i))
  }

  lemma Wraps(n: nat, i: nat, k: nat)
    requires 0 < k && i < k
    ensures (n + i) % k == if n % k + i < k then n % k + i else n % k + i - k
  {
    var q := n / k;
    assert n + i == q * k + (n % k + i);
    if n % k + i < k {
      Remainder(q, n % k + i, k);
    } else {
      assert q * k + k == (q + 1) * k;
      assert n + i == (q + 1) * k + (n % k + i - k);
      Remainder(q + 1, n % k + i - k, k);
    }
  }

  lemma Remainder(q: nat, r: nat, k: nat)
    requires r < k
    ensures (q * k + r) % k == r
  {
    var x := q * k + r;
    var p := x / k;
    assert x == p * k + x % k;
    assert (q - p) * k == q * k - p * k;
    if q > p { AtLeastOne(q - p, k); }
    if q < p { AtLeastOne(p - q, k); }
  }

  lemma AtLeastOne(d: nat, k: nat)
    requires d > 0
    ensures d * k >= k
  {
    assert d * k == (d - 1) * k + k;
  }

  /** Wherever the rotation stands, as many requests as there are keys use every key once. */
  lemma KeysTakeTurns(keys: seq<string>, n: nat)
    requires keys != []
    ensures multiset(KeysFrom(keys, n)) == multiset(keys)
  {
    var r := n % |keys|;
    forall i | 0 <= i < |keys| ensures KeysFrom(keys, n)[i] == (keys[r..] + keys[..r])[i] {
      Wraps(n, i, |keys|);
    }
    assert KeysFrom(keys, n) == keys[r..] + keys[..r];
    assert keys == keys[..r] + keys[r..];
  }

  /** They come in the configured order, over and over. */
  lemma KeysInOrder(keys: seq<string>, round: nat, i: nat)
    requires i < |keys|
    ensures KeyAt(keys, round * |keys| + i) == keys[i]
  {
    Remainder(round, i, |keys|);
  }

  class KeyRing {
    const keys: seq<string>
    var keyIndex: nat

    constructor (keys: seq<string>)
      ensures this.keys == keys && keyIndex == 0
    {
      this.keys, keyIndex := keys, 0;
    }

    /** No key is an error; otherwise the next one in turn. */
    method NextKey() returns (key: Option<string>)
      modifies this
      ensures keys == [] ==> key.None? && keyIndex == old(keyIndex)
      ensures keys != [] ==> key == Some(KeyAt(keys, old(keyIndex))) && keyIndex == old(keyIndex) + 1
    {
      if keys == [] { return None; }
      key := Some(keys[keyIndex % |keys|]);
      keyIndex := keyIndex + 1;
    }
  }
}
