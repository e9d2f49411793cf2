/** `candidates` and `_rank` of `plugins/api/_catalog.py`: a ranking that does not depend on the order of the rows. */
module Ranking {
  import opened Text
  import opened Catalog

  datatype Candidate = Candidate(endpointId: nat, provider: string, model: string, alive: bool, working: bool,
                                 starred: bool, postDate: Option<string>, failCount: nat)

  /** One question to the catalogue, with the helpers whose code is not modelled. */
  datatype Query = Query(
    role: string, now: int, priority: seq<string>, pinned: string,
    capable: (string, string) -> bool,
    timestamp: string -> Option<int>)

  predicate CoolsDown(till: Option<int>, now: int) {
    till.Some? && till.value > now
  }

  /** `{name: index for index, name in enumerate(priority)}`: the last mention of a name counts. */
  function PriorityMap(names: seq<string>): map<string, int> {
    if names == [] then map[] else PriorityMap(names[..|names| - 1])[names[|names| - 1] := |names| - 1]
  }

  // ---------------------------------------------------------------- rows

  /** The rows the query joins and keeps. */
  predicate IsRow(s: State, key: ModelKey) {
    && key in s.models && key.at in s.endpoints
    && var f := s.models[key].flags;
    && !f.denied && (f.working || f.listed)
  }

  /** The database may return the rows in any order. */
  ghost predicate IsListing(s: State, rows: seq<ModelKey>) {
    && (forall key :: IsRow(s, key) <==> key in rows)
    && (forall i, j :: 0 <= i < j < |rows| ==> rows[i] != rows[j])
  }

  predicate Keeps(s: State, q: Query, key: ModelKey)
    requires IsRow(s, key)
  {
    && q.capable(q.role, key.name)
    && !CoolsDown(s.endpoints[key.at].cooldown, q.now) && !CoolsDown(s.models[key].cooldown, q.now)
  }

  function CandidateOf(s: State, key: ModelKey): Candidate
    requires IsRow(s, key)
  {
    var e, f := s.endpoints[key.at], s.models[key].flags;
    Candidate(e.id, e.provider, key.name, e.alive, f.working, f.starred, e.postDate, e.failCount)
  }

  function Kept(s: State, q: Query, rows: seq<ModelKey>): seq<Candidate>
    requires forall key :: key in rows ==> IsRow(s, key)
  {
    if rows == [] then []
    else
      var init, key := rows[..|rows| - 1], rows[|rows| - 1];
      if Keeps(s, q, key) then Kept(s, q, init) + [CandidateOf(s, key)] else Kept(s, q, init)
  }

  // ---------------------------------------------------------------- ranks

  function Codes(s: string): seq<int> {
    seq(|s|, i requires 0 <= i < |s| => s[i] as int)
  }

  function Flag(b: bool): int {
    if b then 1 else 0
  }

  function Stamp(q: Query, c: Candidate): Option<int> {
    if c.postDate.None? || c.postDate.value == "" then None else q.timestamp(c.postDate.value)
  }

  predicate Newer(q: Query, c: Candidate, d: Candidate) {
    Stamp(q, c).Some? && (Stamp(q, d).Some? ==> Stamp(q, c).value > Stamp(q, d).value)
  }

  /** The numeric part of the key; an unknown date sorts behind every known one. */
  function Numbers(q: Query, c: Candidate): (r: seq<int>)
    ensures |r| == 9
  {
    var order := PriorityMap(q.priority);
    var stamp := Stamp(q, c);
    [ Flag(q.pinned != "" && c.model != q.pinned && c.provider != q.pinned),
      if c.provider in order then order[c.provider] else |order|,
      Flag(!c.alive), Flag(!c.working), Flag(!c.starred),
      Flag(stamp.None?), if stamp.Some? then -stamp.value else 0,
      c.failCount, c.endpointId ]
  }

  /** Python compares the key tuples position by position, the model name last and by code points. */
  function Rank(q: Query, c: Candidate): seq<int> {
    Numbers(q, c) + Codes(c.model)
  }

  predicate Less(a: seq<int>, b: seq<int>) {
    b != [] && (a == [] || a[0] < b[0] || (a[0] == b[0] && Less(a[1..], b[1..])))
  }

  lemma {:induction false} LessIsTotal(a: seq<int>, b: seq<int>)
    ensures Less(a, b) || Less(b, a) || a == b
    ensures !(Less(a, b) && Less(b, a)) && !Less(a, a)
    decreases |a| + |b|
  {
    if a != [] && b != [] && a[0] == b[0] {
      LessIsTotal(a[1..], b[1..]);
      assert a == [a[0]] + a[1..] && b == [b[0]] + b[1..];
    }
    LessIsIrreflexive(a);
  }

  lemma {:induction false} LessIsIrreflexive(a: seq<int>)
    ensures !Less(a, a)
    decreases |a|
  {
    if a != [] { LessIsIrreflexive(a[1..]); }
  }

  lemma {:induction false} LessIsTransitive(a: seq<int>, b: seq<int>, c: seq<int>)
    requires Less(a, b) && Less(b, c)
    ensures Less(a, c)
    decreases |a| + |b| + |c|
  {
    if a != [] && a[0] == b[0] && b[0] == c[0] { LessIsTransitive(a[1..], b[1..], c[1..]); }
  }

  lemma {:induction false} LessAt(a: seq<int>, b: seq<int>, k: nat)
    requires k < |a| && k < |b| && a[..k] == b[..k] && a[k] < b[k]
    ensures Less(a, b)
    decreases k
  {
    if k > 0 {
      assert a[0] == a[..k][0] == b[..k][0] == b[0];
      assert a[1..][..k - 1] == a[..k][1..] && b[1..][..k - 1] == b[..k][1..];
      LessAt(a[1..], b[1..], k - 1);
    }
  }

  predicate IsPinned(q: Query, c: Candidate) {
    q.pinned == "" || c.model == q.pinned || c.provider == q.pinned
  }

  function NamesIn(names: seq<string>): set<string> {
    set n | n in names
  }

  predicate LastMention(names: seq<string>, i: nat, name: string) {
    i < |names| && names[i] == name && forall j :: i < j < |names| ==> names[j] != name
  }

  lemma {:induction false} PriorityAt(names: seq<string>, i: nat, name: string)
    requires LastMention(names, i, name)
    ensures name in PriorityMap(names) && PriorityMap(names)[name] == i
    decreases |names|
  {
    if i < |names| - 1 { PriorityAt(names[..|names| - 1], i, name); }
  }

  /** A pinned choice comes before everything else. */
  lemma PinnedFirst(q: Query, c: Candidate, d: Candidate)
    requires IsPinned(q, c) && !IsPinned(q, d)
    ensures Before(q, c, d)
  {
    LessAt(Rank(q, c), Rank(q, d), 0);
  }

  /** Then the provider mentioned earlier in the priority list; of a name that is repeated the last mention counts. */
  lemma PriorityNext(q: Query, c: Candidate, d: Candidate, i: nat, j: nat)
    requires IsPinned(q, c) == IsPinned(q, d) && i < j
    requires LastMention(q.priority, i, c.provider) && LastMention(q.priority, j, d.provider)
    ensures Before(q, c, d)
  {
    PriorityAt(q.priority, i, c.provider);
    PriorityAt(q.priority, j, d.provider);
    assert Rank(q, c)[..1] == Rank(q, d)[..1];
    LessAt(Rank(q, c), Rank(q, d), 1);
  }

  /** What was observed decides among candidates of one provider: alive, then working, then starred, then newer. */
  lemma ObservedNext(q: Query, c: Candidate, d: Candidate)
    requires IsPinned(q, c) == IsPinned(q, d) && c.provider == d.provider
    ensures c.alive && !d.alive ==> Before(q, c, d)
    ensures c.alive == d.alive && c.working && !d.working ==> Before(q, c, d)
    ensures c.alive == d.alive && c.working == d.working && c.starred && !d.starred ==> Before(q, c, d)
    ensures c.alive == d.alive && c.working == d.working && c.starred == d.starred && Newer(q, c, d) ==> Before(q, c, d)
  {
    var a, b := Rank(q, c), Rank(q, d);
    assert a[..2] == b[..2];
    if c.alive != d.alive {
      if c.alive { LessAt(a, b, 2); }
    } else if c.working != d.working {
      assert a[..3] == b[..3];
      if c.working { LessAt(a, b, 3); }
    } else if c.starred != d.starred {
      assert a[..4] == b[..4];
      if c.starred { LessAt(a, b, 4); }
    } else if Newer(q, c, d) {
      assert a[..5] == b[..5];
      if Stamp(q, d).None? { LessAt(a, b, 5); } else { assert a[..6] == b[..6]; LessAt(a, b, 6); }
    }
  }

  /**
   * A provider that is not in the list has the place after as many as there are different names in it: behind
   * every listed one if no name is repeated, but in front of one whose last mention is further back.
   */
  lemma {:induction false} UnlistedNext(q: Query, c: Candidate, d: Candidate, i: nat)
    requires IsPinned(q, c) == IsPinned(q, d) && LastMention(q.priority, i, c.provider) && d.provider !in q.priority
    ensures i < |NamesIn(q.priority)| ==> Before(q, c, d)
    ensures |NamesIn(q.priority)| < i ==> Before(q, d, c)
    ensures NoRepeats(q.priority) ==> Before(q, c, d)
  {
    hide *;
    Places(q, c, d, i);
    var a, b := Rank(q, c), Rank(q, d);
    if NoRepeats(q.priority) { DistinctNames(q.priority); }
    if a[1] < b[1] { LessAt(a, b, 1); BeforeIs(q, c, d); }
    if b[1] < a[1] { LessAt(b, a, 1); BeforeIs(q, d, c); }
  }

  lemma BeforeIs(q: Query, c: Candidate, d: Candidate)
    ensures Before(q, c, d) == Less(Rank(q, c), Rank(q, d))
  {}

  lemma {:induction false} Places(q: Query, c: Candidate, d: Candidate, i: nat)
    requires IsPinned(q, c) == IsPinned(q, d) && LastMention(q.priority, i, c.provider) && d.provider !in q.priority
    ensures i < |q.priority| && |Rank(q, c)| >= 9 && |Rank(q, d)| >= 9 && Rank(q, c)[..1] == Rank(q, d)[..1]
    ensures Rank(q, c)[1] == i && Rank(q, d)[1] == |NamesIn(q.priority)|
  {
    hide PriorityMap, NamesIn;
    PriorityAt(q.priority, i, c.provider);
    PriorityKeys(q.priority);
    InNames(q.priority, d.provider);
    assert d.provider !in PriorityMap(q.priority).Keys;
  }

  lemma InNames(names: seq<string>, name: string)
    ensures name in NamesIn(names) <==> name in names
  {}

  lemma {:induction false} PriorityKeys(names: seq<string>)
    ensures PriorityMap(names).Keys == NamesIn(names) && |PriorityMap(names)| == |NamesIn(names)|
    decreases |names|
  {
    if names != [] {
      var init, last := names[..|names| - 1], names[|names| - 1];
      PriorityKeys(init);
      assert PriorityMap(names) == PriorityMap(init)[last := |init|];
      hide PriorityMap;
      NamesInMore(init, last);
      assert names == init + [last];
      assert PriorityMap(names).Keys == PriorityMap(init).Keys + {last};
    }
    assert |PriorityMap(names)| == |PriorityMap(names).Keys|;
  }

  predicate NoRepeats(names: seq<string>) {
    forall k, l :: 0 <= k < l < |names| ==> names[k] != names[l]
  }

  lemma NamesInMore(init: seq<string>, last: string)
    ensures NamesIn(init + [last]) == NamesIn(init) + {last}
  {}

  lemma NoRepeatsFront(init: seq<string>, last: string)
    requires NoRepeats(init + [last])
    ensures NoRepeats(init) && last !in init
  {
    var names := init + [last];
    assert forall k :: 0 <= k < |init| ==> init[k] == names[k];
    assert names[|init|] == last;
  }

  lemma {:induction false} DistinctNames(names: seq<string>)
    requires NoRepeats(names)
    ensures |NamesIn(names)| == |names|
    decreases |names|
  {
    hide NoRepeats;
    if names != [] {
      var init, last := names[..|names| - 1], names[|names| - 1];
      assert names == init + [last];
      NoRepeatsFront(init, last);
      DistinctNames(init);
      NamesInMore(init, last);
      InNames(init, last);
      hide NamesIn;
    }
  }

  /** Everything that is asked before the failures is the same. */
  predicate Tied(q: Query, c: Candidate, d: Candidate) {
    && IsPinned(q, c) == IsPinned(q, d) && c.provider == d.provider
    && c.alive == d.alive && c.working == d.working && c.starred == d.starred && Stamp(q, c) == Stamp(q, d)
  }

  /** Among equals the one that failed less, then the older endpoint, then the model name. */
  lemma FailuresNext(q: Query, c: Candidate, d: Candidate)
    requires Tied(q, c, d)
    ensures c.failCount < d.failCount ==> Before(q, c, d)
    ensures c.failCount == d.failCount && c.endpointId < d.endpointId ==> Before(q, c, d)
    ensures c.failCount == d.failCount && c.endpointId == d.endpointId ==>
              (Before(q, c, d) <==> Less(Codes(c.model), Codes(d.model)))
  {
    var a, b := Rank(q, c), Rank(q, d);
    assert a[..7] == b[..7] && a[7] == c.failCount && b[7] == d.failCount;
    if c.failCount < d.failCount { LessAt(a, b, 7); }
    if c.failCount == d.failCount {
      assert a[..8] == b[..8] && a[8] == c.endpointId && b[8] == d.endpointId;
      if c.endpointId < d.endpointId { LessAt(a, b, 8); }
      if c.endpointId == d.endpointId { LessBehind(Numbers(q, c), Codes(c.model), Codes(d.model)); }
    }
  }

  lemma {:induction false} LessBehind(front: seq<int>, a: seq<int>, b: seq<int>)
    ensures Less(front + a, front + b) <==> Less(a, b)
  {
    if front == [] {
      assert front + a == a && front + b == b;
    } else {
      assert (front + a)[1..] == front[1..] + a && (front + b)[1..] == front[1..] + b;
      LessBehind(front[1..], a, b);
    }
  }

  // ---------------------------------------------------------------- sorting

  predicate Before(q: Query, c: Candidate, d: Candidate) {
    Less(Rank(q, c), Rank(q, d))
  }

  predicate Sorted(q: Query, cs: seq<Candidate>) {
    forall i, j :: 0 <= i < j < |cs| ==> Before(q, cs[i], cs[j])
  }

  function Insert(q: Query, c: Candidate, cs: seq<Candidate>): seq<Candidate> {
    if cs == [] || Before(q, c, cs[0]) then [c] + cs else [cs[0]] + Insert(q, c, cs[1..])
  }

  function Sort(q: Query, cs: seq<Candidate>): seq<Candidate> {
    if cs == [] then [] else Insert(q, cs[|cs| - 1], Sort(q, cs[..|cs| - 1]))
  }

  ghost predicate RanksDiffer(q: Query, cs: seq<Candidate>) {
    forall i, j :: 0 <= i < j < |cs| ==> Rank(q, cs[i]) != Rank(q, cs[j])
  }

  lemma {:induction false} InsertMembers(q: Query, c: Candidate, cs: seq<Candidate>, d: Candidate)
    ensures d in Insert(q, c, cs) <==> d == c || d in cs
  {
    if cs != [] && !Before(q, c, cs[0]) { InsertMembers(q, c, cs[1..], d); }
  }

  lemma {:induction false} InsertKeepsSorted(q: Query, c: Candidate, cs: seq<Candidate>)
    requires Sorted(q, cs) && forall d :: d in cs ==> Rank(q, d) != Rank(q, c)
    ensures Sorted(q, Insert(q, c, cs))
  {
    if cs == [] {
    } else if Before(q, c, cs[0]) {
      forall d | d in cs ensures Before(q, c, d) {
        if d != cs[0] {
          var k :| 0 < k < |cs| && cs[k] == d;
          LessIsTransitive(Rank(q, c), Rank(q, cs[0]), Rank(q, cs[k]));
        }
      }
      SortedCons(q, c, cs);
    } else {
      InsertKeepsSorted(q, c, cs[1..]);
      LessIsTotal(Rank(q, c), Rank(q, cs[0]));
      forall d | d in Insert(q, c, cs[1..]) ensures Before(q, cs[0], d) {
        InsertMembers(q, c, cs[1..], d);
        if d != c {
          var k :| 0 < k < |cs| && cs[k] == d;
        }
      }
      SortedCons(q, cs[0], Insert(q, c, cs[1..]));
    }
  }

  lemma SortedCons(q: Query, c: Candidate, cs: seq<Candidate>)
    requires Sorted(q, cs) && forall d :: d in cs ==> Before(q, c, d)
    ensures Sorted(q, [c] + cs)
  {}

  lemma {:induction false} SortMembers(q: Query, cs: seq<Candidate>, d: Candidate)
    ensures d in Sort(q, cs) <==> d in cs
    decreases |cs|
  {
    if cs != [] {
      var init, c := cs[..|cs| - 1], cs[|cs| - 1];
      SortMembers(q, init, d);
      InsertMembers(q, c, Sort(q, init), d);
      assert d in cs <==> d in init || d == c;
    }
  }

  lemma {:induction false} SortSorts(q: Query, cs: seq<Candidate>)
    requires RanksDiffer(q, cs)
    ensures Sorted(q, Sort(q, cs))
    decreases |cs|
  {
    if cs != [] {
      var init, c := cs[..|cs| - 1], cs[|cs| - 1];
      SortSorts(q, init);
      forall d | d in Sort(q, init) ensures Rank(q, d) != Rank(q, c) {
        SortMembers(q, init, d);
        var k :| 0 <= k < |init| && init[k] == d;
      }
      hide Sorted, Insert, Rank;
      InsertKeepsSorted(q, c, Sort(q, init));
    }
  }

  /** A strictly sorted list is determined by its members. */
  lemma {:induction false} SortedIsUnique(q: Query, a: seq<Candidate>, b: seq<Candidate>)
    requires Sorted(q, a) && Sorted(q, b) && forall d :: d in a <==> d in b
    ensures a == b
    decreases |a|
  {
    assert b == [] || b[0] in a;
    if a != [] {
      assert a[0] in b;
      if a[0] != b[0] {
        var i :| 0 < i < |b| && b[i] == a[0];
        var j :| 0 < j < |a| && a[j] == b[0];
        LessIsTotal(Rank(q, a[0]), Rank(q, b[0]));
        assert false;
      }
      forall d ensures d in a[1..] <==> d in b[1..] { TailMembers(q, a, d); TailMembers(q, b, d); }
      SortedIsUnique(q, a[1..], b[1..]);
    }
  }

  lemma TailMembers(q: Query, a: seq<Candidate>, d: Candidate)
    requires a != [] && Sorted(q, a)
    ensures d in a[1..] <==> d in a && d != a[0]
  {
    LessIsTotal(Rank(q, a[0]), Rank(q, a[0]));
  }

  // ---------------------------------------------------------------- the ranking is canonical

  function Candidates(s: State, q: Query, rows: seq<ModelKey>): seq<Candidate>
    requires forall key :: key in rows ==> IsRow(s, key)
  {
    Sort(q, Kept(s, q, rows))
  }

  lemma SameRankSameRow(s: State, q: Query, k: ModelKey, l: ModelKey)
    requires IdsOk(s) && IsRow(s, k) && IsRow(s, l)
    requires Rank(q, CandidateOf(s, k)) == Rank(q, CandidateOf(s, l))
    ensures k == l
  {
    var c, d := CandidateOf(s, k), CandidateOf(s, l);
    var r, t := Rank(q, c), Rank(q, d);
    assert r[8] == c.endpointId && t[8] == d.endpointId;
    assert r[9..] == Codes(c.model) && t[9..] == Codes(d.model);
    assert |c.model| == |d.model|;
    forall i | 0 <= i < |c.model| ensures c.model[i] == d.model[i] { assert Codes(c.model)[i] == Codes(d.model)[i]; }
  }

  lemma {:induction false} KeptMembers(s: State, q: Query, rows: seq<ModelKey>, c: Candidate)
    requires forall key :: key in rows ==> IsRow(s, key)
    ensures c in Kept(s, q, rows) <==> exists key :: key in rows && Keeps(s, q, key) && CandidateOf(s, key) == c
    decreases |rows|
  {
    if rows != [] {
      var init, key := rows[..|rows| - 1], rows[|rows| - 1];
      KeptMembers(s, q, init, c);
      assert forall k :: k in rows <==> k in init || k == key;
    }
  }

  lemma {:induction false} KeptRanksDiffer(s: State, q: Query, rows: seq<ModelKey>)
    requires IdsOk(s) && (forall key :: key in rows ==> IsRow(s, key))
    requires forall i, j :: 0 <= i < j < |rows| ==> rows[i] != rows[j]
    ensures RanksDiffer(q, Kept(s, q, rows))
    decreases |rows|
  {
    if rows != [] {
      var init, key := rows[..|rows| - 1], rows[|rows| - 1];
      KeptRanksDiffer(s, q, init);
      if Keeps(s, q, key) {
        var before := Kept(s, q, init);
        forall i | 0 <= i < |before| ensures Rank(q, before[i]) != Rank(q, CandidateOf(s, key)) {
          KeptMembers(s, q, init, before[i]);
          var k :| k in init && Keeps(s, q, k) && CandidateOf(s, k) == before[i];
          if Rank(q, before[i]) == Rank(q, CandidateOf(s, key)) { SameRankSameRow(s, q, k, key); }
        }
      }
    }
  }

  /** The ranked list is the same for every order in which the database returns the rows. */
  lemma {:induction false} RowOrderIsIrrelevant(s: State, q: Query, first: seq<ModelKey>, second: seq<ModelKey>)
    requires IdsOk(s) && IsListing(s, first) && IsListing(s, second)
    ensures RanksDiffer(q, Kept(s, q, first)) && Sorted(q, Candidates(s, q, first))
    ensures Candidates(s, q, first) == Candidates(s, q, second)
  {
    KeptRanksDiffer(s, q, first);
    KeptRanksDiffer(s, q, second);
    SortSorts(q, Kept(s, q, first));
    SortSorts(q, Kept(s, q, second));
    forall c ensures c in Candidates(s, q, first) <==> c in Candidates(s, q, second) {
      SortMembers(q, Kept(s, q, first), c);
      SortMembers(q, Kept(s, q, second), c);
      KeptMembers(s, q, first, c);
      KeptMembers(s, q, second, c);
    }
    SortedIsUnique(q, Candidates(s, q, first), Candidates(s, q, second));
  }

  /** What the catalogue knows of a model makes it a candidate at this time. */
  ghost predicate Offers(s: State, q: Query, key: ModelKey, c: Candidate) {
    && key in s.models && key.at in s.endpoints
    && var e, m := s.endpoints[key.at], s.models[key];
    && !m.flags.denied && (m.flags.working || m.flags.listed) && q.capable(q.role, key.name)
    && (e.cooldown.Some? ==> e.cooldown.value <= q.now) && (m.cooldown.Some? ==> m.cooldown.value <= q.now)
    && (c.endpointId, c.provider, c.model, c.alive) == (e.id, e.provider, key.name, e.alive)
    && (c.working, c.starred, c.postDate, c.failCount) == (m.flags.working, m.flags.starred, e.postDate, e.failCount)
  }

  /**
   * The candidates are exactly the models that are working or listed, not denied, capable of the role, and
   * neither cooling down themselves nor on an endpoint that is; a cooldown ends at the moment it names.
   */
  lemma {:induction false} CandidatesExactly(s: State, q: Query, rows: seq<ModelKey>, c: Candidate)
    requires IsListing(s, rows)
    ensures c in Candidates(s, q, rows) <==> exists key :: Offers(s, q, key, c)
  {
    hide Kept, Sort;
    SortMembers(q, Kept(s, q, rows), c);
    KeptMembers(s, q, rows, c);
    if key :| key in rows && Keeps(s, q, key) && CandidateOf(s, key) == c { assert Offers(s, q, key, c); }
    if key :| Offers(s, q, key, c) { assert IsRow(s, key) && Keeps(s, q, key) && CandidateOf(s, key) == c; }
  }

  /** A denied model is never a candidate again, in whatever order the rows come and whatever happens before. */
  lemma DeniedIsNeverACandidate(s: State, ops: seq<Op>, key: ModelKey, q: Query, rows: seq<ModelKey>, c: Candidate)
    requires IdsOk(s) && IsDeniedModel(s, key) && IsListing(ApplyAll(s, ops), rows)
    requires c in Candidates(ApplyAll(s, ops), q, rows)
    ensures !(key.at in ApplyAll(s, ops).endpoints && c.endpointId == ApplyAll(s, ops).endpoints[key.at].id
        && c.model == key.name)
  {
    var s' := ApplyAll(s, ops);
    DeniedForever(s, ops, key);
    IdsStayOk(s, ops);
    SortMembers(q, Kept(s', q, rows), c);
    KeptMembers(s', q, rows, c);
    var k :| k in rows && Keeps(s', q, k) && CandidateOf(s', k) == c;
    assert IsRow(s', k);
  }

  /** Collecting the rows, then sorting them. */
  method Collect(s: State, q: Query, rows: seq<ModelKey>) returns (results: seq<Candidate>)
    requires forall key :: key in rows ==> IsRow(s, key)
    ensures results == Candidates(s, q, rows)
  {
    results := [];
    for i := 0 to |rows|
      invariant results == Kept(s, q, rows[..i])
    {
      assert rows[..i + 1][..i] == rows[..i];
      var key := rows[i];
      assert IsRow(s, key);
      if !q.capable(q.role, key.name) { continue; }
      if CoolsDown(s.endpoints[key.at].cooldown, q.now) || CoolsDown(s.models[key].cooldown, q.now) { continue; }
      results := results + [CandidateOf(s, key)];
    }
    assert rows[..|rows|] == rows;
    results := Sort(q, results);
  }
}
