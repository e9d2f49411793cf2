/** A bounded map in order of use: setting a key moves it to the end, and the oldest keys fall out. */
module Clock {
  import opened Text

  datatype Entry<K(==)> = Entry(key: K, time: int)

  /** The oldest entry first. */
  type Entries<K(==)> = seq<Entry<K>>

  function Keys<K>(entries: Entries<K>): set<K> {
    set e | e in entries :: e.key
  }

  function Lookup<K(==)>(entries: Entries<K>, key: K): Option<int> {
    if entries == [] then None
    else if entries[0].key == key then Some(entries[0].time)
    else Lookup(entries[1..], key)
  }

  function Without<K(==)>(entries: Entries<K>, key: K): (r: Entries<K>)
    ensures Keys(r) == Keys(entries) - {key} && |r| <= |entries|
  {
    if entries == [] then []
    else
      assert Keys(entries) == {entries[0].key} + Keys(entries[1..]);
      if entries[0].key == key then Without(entries[1..], key)
      else
        var r := [entries[0]] + Without(entries[1..], key);
        assert Keys(r) == {entries[0].key} + Keys(r[1..]);
        r
  }

  /** The newest `cap` entries. */
  function Newest<K>(entries: Entries<K>, cap: nat): Entries<K> {
    if |entries| <= cap then entries else entries[|entries| - cap..]
  }

  /** Set the key, move it to the end, and drop the oldest entries beyond `cap`. */
  function Put<K(==)>(entries: Entries<K>, e: Entry<K>, cap: nat): Entries<K> {
    Newest(Without(entries, e.key) + [e], cap)
  }

  /** The map after a whole history of settings, starting empty. */
  function After<K(==)>(history: Entries<K>, cap: nat): Entries<K> {
    if history == [] then []
    else Put(After(history[..|history| - 1], cap), history[|history| - 1], cap)
  }

  /** The same without a bound: every key once, in order of its last setting. */
  function Recency<K(==)>(history: Entries<K>): Entries<K> {
    if history == [] then []
    else Without(Recency(history[..|history| - 1]), history[|history| - 1].key) + [history[|history| - 1]]
  }

  ghost predicate Distinct<K(!new)>(entries: Entries<K>) {
    forall i, j :: 0 <= i < j < |entries| ==> entries[i].key != entries[j].key
  }

  lemma {:induction false} WithoutSplits<K>(first: Entries<K>, second: Entries<K>, key: K)
    ensures Without(first + second, key) == Without(first, key) + Without(second, key)
    decreases |first|
  {
    if first == [] {
      assert first + second == second;
    } else {
      assert (first + second)[1..] == first[1..] + second;
      WithoutSplits(first[1..], second, key);
    }
  }

  lemma {:induction false} WithoutAbsent<K>(entries: Entries<K>, key: K)
    requires key !in Keys(entries)
    ensures Without(entries, key) == entries
    decreases |entries|
  {
    if entries != [] {
      assert Keys(entries) == {entries[0].key} + Keys(entries[1..]);
      WithoutAbsent(entries[1..], key);
    }
  }

  /** Where a key sits. */
  lemma FindKey<K>(entries: Entries<K>, key: K) returns (i: nat)
    requires key in Keys(entries)
    ensures i < |entries| && entries[i].key == key
  {
    var e :| e in entries && e.key == key;
    i :| 0 <= i < |entries| && entries[i] == e;
  }

  lemma KeysOf<K>(first: Entries<K>, second: Entries<K>)
    ensures Keys(first + second) == Keys(first) + Keys(second)
  {
    forall k | k in Keys(first) + Keys(second) ensures k in Keys(first + second) {
      var e :| (e in first || e in second) && e.key == k;
      assert e in first + second;
    }
  }

  /** In a list of distinct keys, taking one out removes one entry. */
  lemma {:induction false} WithoutPresent<K>(first: Entries<K>, e: Entry<K>, second: Entries<K>)
    requires e.key !in Keys(first) && e.key !in Keys(second)
    ensures Without(first + [e] + second, e.key) == first + second
  {
    assert first + [e] + second == first + ([e] + second);
    WithoutSplits(first, [e] + second, e.key);
    WithoutSplits([e], second, e.key);
    WithoutAbsent(first, e.key);
    WithoutAbsent(second, e.key);
    assert Without([e], e.key) == [];
  }

  lemma SplitDistinct<K(!new)>(entries: Entries<K>, i: nat)
    requires i < |entries| && Distinct(entries)
    ensures entries == entries[..i] + [entries[i]] + entries[i + 1..]
    ensures entries[i].key !in Keys(entries[..i]) && entries[i].key !in Keys(entries[i + 1..])
  {}

  lemma DistinctAppend<K(!new)>(entries: Entries<K>, e: Entry<K>)
    requires Distinct(entries) && e.key !in Keys(entries)
    ensures Distinct(entries + [e])
  {
    var all := entries + [e];
    forall i, j | 0 <= i < j < |all| ensures all[i].key != all[j].key {
      if j == |entries| { assert all[i] in entries; }
    }
  }

  lemma DistinctInit<K(!new)>(entries: Entries<K>)
    requires entries != [] && Distinct(entries)
    ensures Distinct(entries[..|entries| - 1]) && entries[|entries| - 1].key !in Keys(entries[..|entries| - 1])
  {}

  lemma {:induction false} RecencyDistinct<K(!new)>(history: Entries<K>)
    ensures Distinct(Recency(history)) && Keys(Recency(history)) == Keys(history)
    decreases |history|
  {
    if history != [] {
      var init, last := history[..|history| - 1], history[|history| - 1];
      RecencyDistinct(init);
      DistinctWithout(Recency(init), last.key);
      DistinctAppend(Without(Recency(init), last.key), last);
      assert history == init + [last];
      KeysOf(init, [last]);
      OneKey(last);
      KeysOf(Without(Recency(init), last.key), [last]);
    }
  }

  lemma {:induction false} DistinctWithout<K(!new)>(entries: Entries<K>, key: K)
    requires Distinct(entries)
    ensures Distinct(Without(entries, key))
  {
    if key in Keys(entries) {
      var i := FindKey(entries, key);
      SplitDistinct(entries, i);
      WithoutPresent(entries[..i], entries[i], entries[i + 1..]);
      var r := Without(entries, key);
      assert r == entries[..i] + entries[i + 1..];
      assert forall j :: 0 <= j < |r| ==> r[j] == entries[if j < i then j else j + 1];
    } else {
      WithoutAbsent(entries, key);
    }
  }

  /** The bounded map is the newest part of the unbounded one. */
  lemma {:induction false} BoundKeepsNewest<K(!new)>(history: Entries<K>, cap: nat)
    requires cap > 0
    ensures After(history, cap) == Newest(Recency(history), cap)
    decreases |history|
  {
    if history != [] {
      var init, last := history[..|history| - 1], history[|history| - 1];
      BoundKeepsNewest(init, cap);
      RecencyDistinct(init);
      PutOnNewest(Recency(init), last, cap);
    }
  }

  lemma {:induction false} PutOnNewest<K(!new)>(all: Entries<K>, e: Entry<K>, cap: nat)
    requires cap > 0 && Distinct(all)
    ensures Put(Newest(all, cap), e, cap) == Newest(Without(all, e.key) + [e], cap)
  {
    if |all| > cap {
      var stale, kept := all[..|all| - cap], all[|all| - cap..];
      assert all == stale + kept;
      WithoutSplits(stale, kept, e.key);
      if e.key in Keys(kept) {
        WithoutKept(stale, kept, e.key);
      } else {
        WithoutAbsent(kept, e.key);
      }
      hide Without, Distinct, Keys;
      assert Without(all, e.key) + [e] == Without(stale, e.key) + (Without(kept, e.key) + [e]);
      NewestOfLonger(Without(stale, e.key), Without(kept, e.key) + [e], cap);
    }
  }

  /** Taking a key out of the kept part leaves one entry less there and the stale part alone. */
  lemma {:induction false} WithoutKept<K(!new)>(stale: Entries<K>, kept: Entries<K>, key: K)
    requires Distinct(stale + kept) && key in Keys(kept)
    ensures Without(stale, key) == stale && |Without(kept, key)| == |kept| - 1
  {
    var i := FindKey(kept, key);
    var all := stale + kept;
    assert forall j :: 0 <= j < |kept| ==> kept[j] == all[|stale| + j];
    SplitDistinct(kept, i);
    WithoutPresent(kept[..i], kept[i], kept[i + 1..]);
    forall e | e in stale ensures e.key != key {
      var a :| 0 <= a < |stale| && stale[a] == e;
      assert all[a] == e && all[|stale| + i] == kept[i];
    }
    WithoutAbsent(stale, key);
  }

  /** The front part does not matter once the back part alone is long enough. */
  lemma NewestOfLonger<K>(first: Entries<K>, second: Entries<K>, cap: nat)
    requires |second| >= cap
    ensures Newest(first + second, cap) == Newest(second, cap)
  {}

  lemma OneKey<K>(e: Entry<K>)
    ensures Keys([e]) == {e.key}
  {}

  lemma {:induction false} DistinctCount<K(!new)>(entries: Entries<K>)
    requires Distinct(entries)
    ensures |Keys(entries)| == |entries|
  {
    if entries != [] {
      var init, last := entries[..|entries| - 1], entries[|entries| - 1];
      DistinctInit(entries);
      hide Distinct, Keys;
      DistinctCount(init);
      assert entries == init + [last];
      KeysOf(init, [last]);
      assert Keys([last]) == {last.key} by { OneKey(last); }
    }
  }

  /** After its last setting, a key has exactly the keys set since behind it. */
  lemma {:induction false} BehindIt<K(!new)>(before: Entries<K>, e: Entry<K>, since: Entries<K>)
    returns (older: Entries<K>, newer: Entries<K>)
    requires e.key !in Keys(since)
    ensures Recency(before + [e] + since) == older + [e] + newer
    ensures e.key !in Keys(older) && Keys(newer) == Keys(since)
    decreases |since|
  {
    var history := before + [e] + since;
    if since == [] {
      assert history[..|history| - 1] == before;
      older, newer := Without(Recency(before), e.key), [];
    } else {
      var init, last := since[..|since| - 1], since[|since| - 1];
      assert history[..|history| - 1] == before + [e] + init && since == init + [last];
      KeysOf(init, [last]);
      var o, n := BehindIt(before, e, init);
      WithoutSplits(o + [e], n, last.key);
      WithoutSplits(o, [e], last.key);
      WithoutAbsent([e], last.key);
      older, newer := Without(o, last.key), Without(n, last.key) + [last];
      assert Recency(history) == older + [e] + newer;
      KeysOf(Without(n, last.key), [last]);
    }
  }

  lemma {:induction false} LookupAt<K(!new)>(older: Entries<K>, e: Entry<K>, newer: Entries<K>)
    requires e.key !in Keys(older)
    ensures Lookup(older + [e] + newer, e.key) == Some(e.time)
    decreases |older|
  {
    var all := older + [e] + newer;
    if older != [] {
      assert all[1..] == older[1..] + [e] + newer;
      assert Keys(older) == {older[0].key} + Keys(older[1..]);
      LookupAt(older[1..], e, newer);
    }
  }

  lemma {:induction false} LookupAbsent<K>(entries: Entries<K>, key: K)
    ensures Lookup(entries, key).None? <==> key !in Keys(entries)
    decreases |entries|
  {
    if entries != [] {
      assert Keys(entries) == {entries[0].key} + Keys(entries[1..]);
      LookupAbsent(entries[1..], key);
    }
  }

  /**
   * What the bounded map remembers: the last time a key was set is still there exactly when fewer
   * than `cap` other keys have been set since.
   */
  lemma {:induction false} Remembers<K(!new)>(before: Entries<K>, e: Entry<K>, since: Entries<K>, cap: nat)
    requires cap > 0 && e.key !in Keys(since)
    ensures Lookup(After(before + [e] + since, cap), e.key) == if |Keys(since)| < cap then Some(e.time) else None
  {
    var history := before + [e] + since;
    var older, newer := BehindIt(before, e, since);
    var all := Recency(history);
    BoundKeepsNewest(history, cap);
    RecencyDistinct(history);
    assert Distinct(newer) by { assert newer == all[|older| + 1..]; }
    DistinctCount(newer);
    if |newer| < cap {
      var dropped := if |all| <= cap then 0 else |all| - cap;
      assert Newest(all, cap) == older[dropped..] + [e] + newer;
      LookupAt(older[dropped..], e, newer);
    } else {
      assert Newest(all, cap) == newer[|newer| - cap..];
      LookupAbsent(Newest(all, cap), e.key);
    }
  }

  /** A key that was never set is not there. */
  lemma {:induction false} NeverSet<K(!new)>(history: Entries<K>, key: K, cap: nat)
    requires cap > 0 && key !in Keys(history)
    ensures Lookup(After(history, cap), key) == None
  {
    BoundKeepsNewest(history, cap);
    RecencyDistinct(history);
    LookupAbsent(Newest(Recency(history), cap), key);
  }

  /** The map never exceeds its bound. */
  lemma {:induction false} Bounded<K(!new)>(history: Entries<K>, cap: nat)
    requires cap > 0
    ensures |After(history, cap)| <= cap
  {
    BoundKeepsNewest(history, cap);
  }

  // ---------------------------------------------------------------- stretches of a history

  /** The last setting of the `i`-th key before the `j`-th setting. */
  lemma LastBefore<K>(r: Entries<K>, i: nat, j: nat) returns (m: nat)
    requires i < j <= |r|
    ensures i <= m < j && r[m].key == r[i].key && forall k :: m < k < j ==> r[k].key != r[i].key
  {
    m := j - 1;
    while r[m].key != r[i].key
      invariant i <= m < j
      invariant forall k :: m < k < j ==> r[k].key != r[i].key
      decreases m
    {
      m := m - 1;
    }
  }

  /** The keys other than the `i`-th one set strictly between the `i`-th and the `j`-th setting. */
  function OthersBetween<K(==)>(r: Entries<K>, i: nat, j: nat): set<K>
    requires i < j <= |r|
  {
    Keys(r[i + 1..j]) - {r[i].key}
  }

  /** A shorter stretch mentions no more other keys. */
  lemma Fewer<K(!new)>(r: Entries<K>, i: nat, m: nat, j: nat, cap: nat)
    requires i <= m < j <= |r| && |OthersBetween(r, i, j)| < cap && r[m].key == r[i].key
    requires forall k :: m < k < j ==> r[k].key != r[i].key
    ensures |Keys(r[m + 1..j])| < cap
    ensures i < m ==> |OthersBetween(r, i, m)| < cap
  {
    var all := OthersBetween(r, i, j);
    forall e | e in r[m + 1..j] ensures e.key in all {
      var k :| m < k < j && r[k] == e;
      assert e == r[i + 1..j][k - (i + 1)];
    }
    SmallerSet(Keys(r[m + 1..j]), all);
    if i < m {
      assert r[i + 1..m] <= r[i + 1..j];
      SmallerSet(OthersBetween(r, i, m), all);
    }
  }

  lemma {:induction false} SmallerSet<K>(small: set<K>, large: set<K>)
    requires small <= large
    ensures |small| <= |large|
  {
    if small != {} {
      var x :| x in small;
      SmallerSet(small - {x}, large - {x});
    }
  }
}
