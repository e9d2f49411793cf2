/** In which order a router asks: as configured, but for the model it remembers. */
module RouterOrder {
  import opened Text
  import opened Router

  ghost predicate InFront(s: seq<string>, x: string, y: string) {
    exists i, j :: 0 <= i < j < |s| && s[i] == x && s[j] == y
  }

  lemma InFrontCons(a: string, s: seq<string>, x: string, y: string)
    ensures InFront([a] + s, x, y) <==> (a == x && y in s) || InFront(s, x, y)
  {
    var all := [a] + s;
    if i, j :| 0 <= i < j < |s| && s[i] == x && s[j] == y { assert all[i + 1] == x && all[j + 1] == y; }
    if a == x && y in s {
      var j :| 0 <= j < |s| && s[j] == y;
      assert all[0] == x && all[j + 1] == y;
    }
    if i, j :| 0 <= i < j < |all| && all[i] == x && all[j] == y {
      assert s[j - 1] == y;
      if i > 0 { assert s[i - 1] == x; }
    }
  }

  lemma {:induction false} OthersKeepOrder(models: seq<string>, m: string, x: string, y: string)
    ensures InFront(Others(models, m), x, y) <==> x != m && y != m && InFront(models, x, y)
    decreases |models|
  {
    if models != [] {
      var first, rest := models[0], models[1..];
      assert models == [first] + rest;
      assert Others(models, m) == (if first != m then [first] else []) + Others(rest, m);
      hide Others, InFront;
      OthersKeepOrder(rest, m, x, y);
      InFrontCons(first, rest, x, y);
      if first == m { assert [] + Others(rest, m) == Others(rest, m); }
      InFrontCons(first, Others(rest, m), x, y);
      InOthers(rest, m, y);
    }
  }

  /** One model is asked before another if and only if it is remembered, or the other is not and it comes first. */
  lemma {:induction false} AskedInConfiguredOrder(models: seq<string>, mem: Memory, x: string, y: string)
    requires Distinct(models) && x in models && y in models && x != y
    ensures InFront(Ordered(models, mem), x, y)
            <==> mem.active == Some(x) || (mem.active != Some(y) && InFront(models, x, y))
  {
    if mem.active.Some? && mem.active.value in models {
      var m := mem.active.value;
      hide InFront;
      OthersKeepOrder(models, m, x, y);
      InFrontCons(m, Others(models, m), x, y);
      InOthers(models, m, y);
    }
  }

  predicate FirstMention(names: seq<string>, k: nat, model: string) {
    k < |names| && Strip(names[k]) == model && forall j :: 0 <= j < k ==> Strip(names[j]) != model
  }

  ghost predicate Places(names: seq<string>, chain: seq<string>, at: seq<nat>) {
    && |at| == |chain|
    && (forall i :: 0 <= i < |at| ==> FirstMention(names, at[i], chain[i]))
    && (forall i, j :: 0 <= i < j < |at| ==> at[i] < at[j])
  }

  /** The chain lists every name where it is mentioned first; these places are `at`. */
  lemma {:induction false} ChainInOrder(names: seq<string>) returns (at: seq<nat>)
    ensures Places(names, Chain(names), at)
    decreases |names|
  {
    hide Chain, Strip;
    if names == [] { ChainOneMore(names); return []; }
    var init, name := names[..|names| - 1], names[|names| - 1];
    var before := ChainInOrder(init);
    var kept, more := Chain(init), Strip(name) != "" && Strip(name) !in Chain(init);
    ChainOneMore(names);
    if more { NewMention(init, name); }
    assert names == init + [name];
    hide *;
    StillPlaces(init, name, kept, before);
    if more {
      OnePlaceMore(names, |init|, kept, before, Strip(name));
      at := before + [|init|];
    } else {
      at := before;
    }
  }

  lemma {:induction false} ChainOneMore(names: seq<string>)
    ensures names == [] ==> Chain(names) == []
    ensures names != [] ==>
              var kept, model := Chain(names[..|names| - 1]), Strip(names[|names| - 1]);
              Chain(names) == if model != "" && model !in kept then kept + [model] else kept
  {}

  lemma StillPlaces(init: seq<string>, name: string, chain: seq<string>, at: seq<nat>)
    requires Places(init, chain, at)
    ensures Places(init + [name], chain, at) && forall i :: 0 <= i < |at| ==> at[i] < |init|
  {
    hide FirstMention;
    forall i | 0 <= i < |at| ensures FirstMention(init + [name], at[i], chain[i]) && at[i] < |init| {
      StillFirst(init, name, at[i], chain[i]);
    }
  }

  lemma OnePlaceMore(names: seq<string>, k: nat, chain: seq<string>, at: seq<nat>, model: string)
    requires Places(names, chain, at) && (forall i :: 0 <= i < |at| ==> at[i] < k) && FirstMention(names, k, model)
    ensures Places(names, chain + [model], at + [k])
  {
    hide FirstMention;
  }

  lemma StillFirst(init: seq<string>, name: string, k: nat, model: string)
    requires FirstMention(init, k, model)
    ensures FirstMention(init + [name], k, model) && k < |init|
  {
    hide Strip;
  }

  lemma {:induction false} NewMention(init: seq<string>, name: string)
    requires Strip(name) != "" && Strip(name) !in Chain(init)
    ensures FirstMention(init + [name], |init|, Strip(name))
  {
    hide Strip;
    forall j | 0 <= j < |init| ensures Strip(init[j]) != Strip(name) { assert init[j] in init; }
  }
}
