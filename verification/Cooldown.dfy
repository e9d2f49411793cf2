/**
 * The gate of `CommandDispatcher.handle_event`: owners, cooldowns, and one invocation at a time per
 * sender and command.
 */
module Cooldown {
  import opened Text
  import opened Clock

  datatype Key = Key(sender: int, command: string)

  datatype Claim = Claim(key: Key, now: int)

  /** A claim is refused while the remembered one is younger than the cooldown. */
  predicate Refused(last: Option<int>, now: int, cooldown: nat) {
    last.Some? && now - last.value < cooldown
  }

  /** What the map records for each claim of a run: a refused one moves its key to the end and keeps its time. */
  function Records(claims: seq<Claim>, cooldown: nat, cap: nat): (r: Entries<Key>)
    ensures |r| == |claims| && forall i :: 0 <= i < |r| ==> r[i].key == claims[i].key
  {
    if claims == [] then []
    else
      var past := Records(claims[..|claims| - 1], cooldown, cap);
      var c := claims[|claims| - 1];
      var last := Lookup(After(past, cap), c.key);
      past + [Entry(c.key, if Refused(last, c.now, cooldown) then last.value else c.now)]
  }

  /** Whether the `j`-th claim of a run is granted. */
  predicate Granted(claims: seq<Claim>, cooldown: nat, cap: nat, j: nat)
    requires j < |claims|
  {
    !Refused(Lookup(After(Records(claims, cooldown, cap)[..j], cap), claims[j].key), claims[j].now, cooldown)
  }

  lemma {:induction false} RecordsPrefix(claims: seq<Claim>, cooldown: nat, cap: nat, n: nat)
    requires n <= |claims|
    ensures Records(claims[..n], cooldown, cap) == Records(claims, cooldown, cap)[..n]
    decreases |claims|
  {
    if n < |claims| {
      var init := claims[..|claims| - 1];
      RecordsPrefix(init, cooldown, cap, n);
      assert init[..n] == claims[..n];
    } else {
      assert claims[..n] == claims;
    }
  }

  /** A granted claim records its own time, a refused one what was remembered. */
  lemma {:induction false} OneRecord(claims: seq<Claim>, cooldown: nat, cap: nat, j: nat)
    requires j < |claims|
    ensures var r := Records(claims, cooldown, cap);
            var last := Lookup(After(r[..j], cap), claims[j].key);
            r[j].time == if Granted(claims, cooldown, cap, j) then claims[j].now else last.value
  {
    var r := Records(claims, cooldown, cap);
    RecordsPrefix(claims, cooldown, cap, j + 1);
    RecordsPrefix(claims, cooldown, cap, j);
    assert claims[..j + 1][..j] == claims[..j];
    assert r[..j + 1][j] == r[j];
    hide After, Lookup;
  }

  /**
   * Between two claims of a key, with none of it in between, the first is remembered while fewer than
   * `cap` others came.
   */
  lemma {:induction false} LastClaim(claims: seq<Claim>, cooldown: nat, cap: nat, i: nat, j: nat)
    requires cap > 0 && i < j < |claims| && claims[i].key == claims[j].key
    requires forall k :: i < k < j ==> claims[k].key != claims[j].key
    ensures var r := Records(claims, cooldown, cap);
            Lookup(After(r[..j], cap), claims[j].key) == if |Keys(r[i + 1..j])| < cap then Some(r[i].time) else None
  {
    hide After, Lookup, Records;
    var r := Records(claims, cooldown, cap);
    assert r[..j] == r[..i] + [r[i]] + r[i + 1..j];
    forall e | e in r[i + 1..j] ensures e.key != claims[j].key {
      var k :| i < k < j && r[k] == e;
    }
    Remembers(r[..i], r[i], r[i + 1..j], cap);
  }

  /** The first claim of a key is granted. */
  lemma {:induction false} FirstClaimIsGranted(claims: seq<Claim>, cooldown: nat, cap: nat, j: nat)
    requires cap > 0 && j < |claims| && forall k :: 0 <= k < j ==> claims[k].key != claims[j].key
    ensures Granted(claims, cooldown, cap, j)
  {
    var history := Records(claims, cooldown, cap)[..j];
    forall e | e in history ensures e.key != claims[j].key {
      var k :| 0 <= k < j && history[k] == e;
    }
    NeverSet(history, claims[j].key, cap);
  }

  /**
   * A later claim is granted exactly if the record of the one before it is as old as the cooldown, or
   * was pushed out by other keys.
   */
  lemma {:induction false} GrantedExactly(claims: seq<Claim>, cooldown: nat, cap: nat, i: nat, j: nat)
    requires cap > 0 && i < j < |claims| && claims[i].key == claims[j].key
    requires forall k :: i < k < j ==> claims[k].key != claims[j].key
    ensures var r := Records(claims, cooldown, cap);
            Granted(claims, cooldown, cap, j)
            <==> claims[j].now >= r[i].time + cooldown || |Keys(r[i + 1..j])| >= cap
  {
    LastClaim(claims, cooldown, cap, i, j);
  }

  /** What is recorded for a claim is the time of a granted one of its key, itself or an earlier one. */
  lemma {:induction false} RecordIsAGrant(claims: seq<Claim>, cooldown: nat, cap: nat, j: nat) returns (g: nat)
    requires cap > 0 && j < |claims|
    ensures g <= j && claims[g].key == claims[j].key && Granted(claims, cooldown, cap, g)
    ensures Records(claims, cooldown, cap)[j].time == claims[g].now
    decreases j
  {
    var r := Records(claims, cooldown, cap);
    OneRecord(claims, cooldown, cap, j);
    hide Records, Granted;
    if Granted(claims, cooldown, cap, j) {
      g := j;
    } else if k :| 0 <= k < j && claims[k].key == claims[j].key {
      var before := LastBefore(r, k, j);
      LastClaim(claims, cooldown, cap, before, j);
      RefusedIsRemembered(claims, cooldown, cap, j);
      g := RecordIsAGrant(claims, cooldown, cap, before);
    } else {
      FirstClaimIsGranted(claims, cooldown, cap, j);
    }
  }

  lemma RefusedIsRemembered(claims: seq<Claim>, cooldown: nat, cap: nat, j: nat)
    requires j < |claims| && !Granted(claims, cooldown, cap, j)
    ensures Lookup(After(Records(claims, cooldown, cap)[..j], cap), claims[j].key).Some?
  {}

  /** Once the cooldown is over for every granted claim of its key before it, a claim is granted. */
  lemma {:induction false} GrantedOnceOver(claims: seq<Claim>, cooldown: nat, cap: nat, j: nat)
    requires cap > 0 && j < |claims|
    requires forall g :: 0 <= g < j && claims[g].key == claims[j].key && Granted(claims, cooldown, cap, g) ==>
               claims[j].now >= claims[g].now + cooldown
    ensures Granted(claims, cooldown, cap, j)
  {
    hide Records, Granted;
    if k :| 0 <= k < j && claims[k].key == claims[j].key {
      var before := LastBefore(Records(claims, cooldown, cap), k, j);
      var g := RecordIsAGrant(claims, cooldown, cap, before);
      GrantedExactly(claims, cooldown, cap, before, j);
    } else {
      FirstClaimIsGranted(claims, cooldown, cap, j);
    }
  }

  predicate InOrder(claims: seq<Claim>) {
    forall i, j :: 0 <= i <= j < |claims| ==> claims[i].now <= claims[j].now
  }

  /** While a granted claim is remembered, what is recorded for its key is never older. */
  lemma {:induction false} KeepsTime(claims: seq<Claim>, cooldown: nat, cap: nat, i: nat, m: nat)
    requires cap > 0 && InOrder(claims) && i <= m < |claims| && claims[i].key == claims[m].key
    requires Granted(claims, cooldown, cap, i)
    requires i < m ==> |OthersBetween(Records(claims, cooldown, cap), i, m)| < cap
    ensures Records(claims, cooldown, cap)[m].time >= claims[i].now
    decreases m
  {
    hide Records, OthersBetween, Granted;
    var r := Records(claims, cooldown, cap);
    OneRecord(claims, cooldown, cap, m);
    if i < m && !Granted(claims, cooldown, cap, m) {
      var before := LastBefore(r, i, m);
      Fewer(r, i, before, m, cap);
      LastClaim(claims, cooldown, cap, before, m);
      KeepsTime(claims, cooldown, cap, i, before);
    }
  }

  /**
   * The cooldown over whole runs: two granted claims of a key closer together than the cooldown
   * mean that at least `cap` other keys were claimed in between.
   */
  lemma {:induction false} CooldownOverRuns(claims: seq<Claim>, cooldown: nat, cap: nat, i: nat, j: nat)
    requires cap > 0 && InOrder(claims) && i < j < |claims| && claims[i].key == claims[j].key
    requires Granted(claims, cooldown, cap, i) && Granted(claims, cooldown, cap, j)
    requires claims[j].now - claims[i].now < cooldown
    ensures |OthersBetween(Records(claims, cooldown, cap), i, j)| >= cap
  {
    var r := Records(claims, cooldown, cap);
    if |OthersBetween(r, i, j)| < cap {
      var m := LastBefore(r, i, j);
      Fewer(r, i, m, j, cap);
      LastClaim(claims, cooldown, cap, m, j);
      KeepsTime(claims, cooldown, cap, i, m);
      assert false;
    }
  }

  // ---------------------------------------------------------------- the gate

  datatype Body = NotACommand | UnknownCommand | Known(name: string)

  datatype Decision = Ignored | Unknown | TooSoon | AlreadyRunning | Runs(key: Key)

  class CommandGate {
    const owners: set<int>
    const cooldown: nat
    const maxEntries: nat
    var cooldowns: Entries<Key>
    var running: set<Key>
    ghost var claims: seq<Claim>
    ghost var inFlight: multiset<Key>

    /**
     * The map is what the claims so far make it, and an invocation is in flight once, exactly while
     * its key is marked.
     */
    ghost predicate Valid()
      reads this
    {
      && maxEntries > 0
      && cooldowns == After(Records(claims, cooldown, maxEntries), maxEntries)
      && forall k :: inFlight[k] == if k in running then 1 else 0
    }

    constructor (owners: set<int>, cooldown: nat, maxEntries: nat)
      ensures Valid() && claims == [] && inFlight == multiset{}
      ensures this.owners == owners && this.cooldown == cooldown
      ensures this.maxEntries == if maxEntries >= 1 then maxEntries else 1
    {
      this.owners, this.cooldown, this.maxEntries := owners, cooldown, if maxEntries >= 1 then maxEntries else 1;
      cooldowns, running, claims, inFlight := [], {}, [], multiset{};
    }

    method ClaimCooldown(key: Key, now: int) returns (granted: bool)
      requires Valid()
      modifies `cooldowns, `claims
      ensures Valid() && claims == old(claims) + [Claim(key, now)]
      ensures granted == Granted(claims, cooldown, maxEntries, |claims| - 1)
    {
      hide After, Records, Without, Lookup, Keys;
      ghost var c := Claim(key, now);
      OneMore(claims, c, cooldown, maxEntries);
      var previous := Lookup(cooldowns, key);
      granted := !Refused(previous, now, cooldown);
      var time := if granted then now else previous.value;
      cooldowns := Newest(Without(cooldowns, key) + [Entry(key, time)], maxEntries);
      claims := claims + [c];
    }

    /** `handle_event` up to the invocation. */
    method Admit(sender: Option<int>, body: Body, now: int) returns (d: Decision)
      requires Valid()
      modifies `cooldowns, `claims, `running, `inFlight
      ensures Valid()
      ensures d.Ignored? <==> sender.None? || sender.value !in owners || body.NotACommand?
      ensures d.Unknown? <==> sender.Some? && sender.value in owners && body.UnknownCommand?
      ensures d.Ignored? || d.Unknown? ==> claims == old(claims)
      ensures !d.Ignored? && !d.Unknown? ==>
                var key := Key(sender.value, body.name);
                && claims == (if cooldown > 0 then old(claims) + [Claim(key, now)] else old(claims))
                && (d.TooSoon? <==> cooldown > 0 && !Granted(claims, cooldown, maxEntries, |claims| - 1))
                && (d.AlreadyRunning? <==> !d.TooSoon? && key in old(inFlight))
                && (d.Runs? ==> d.key == key && inFlight == old(inFlight) + multiset{key})
      ensures !d.Runs? ==> inFlight == old(inFlight)
    {
      hide Granted, Records, After;
      if sender.None? || sender.value !in owners { return Ignored; }
      match body
      case NotACommand => return Ignored;
      case UnknownCommand => return Unknown;
      case Known(name) =>
        var key := Key(sender.value, name);
        if cooldown > 0 {
          var granted := ClaimCooldown(key, now);
          if !granted { return TooSoon; }
        }
        if key in running { return AlreadyRunning; }
        running := running + {key};
        inFlight := inFlight + multiset{key};
        return Runs(key);
    }

    /** The `finally` of `handle_event`, however the invocation ended. */
    method Finish(key: Key)
      requires Valid() && key in inFlight
      modifies `running, `inFlight
      ensures Valid() && inFlight == old(inFlight) - multiset{key}
    {
      running := running - {key};
      inFlight := inFlight - multiset{key};
    }
  }

  lemma {:induction false} OneMore(claims: seq<Claim>, c: Claim, cooldown: nat, cap: nat)
    requires cap > 0
    ensures var past := Records(claims, cooldown, cap);
            var last := Lookup(After(past, cap), c.key);
            var e := Entry(c.key, if Refused(last, c.now, cooldown) then last.value else c.now);
            && Records(claims + [c], cooldown, cap) == past + [e]
            && Records(claims + [c], cooldown, cap)[..|claims|] == past
            && After(past + [e], cap) == Put(After(past, cap), e, cap)
  {
    var past := Records(claims, cooldown, cap);
    assert (claims + [c])[..|claims|] == claims;
    forall e: Entry<Key> ensures (past + [e])[..|past|] == past
        && After(past + [e], cap) == Put(After(past, cap), e, cap) {
      assert (past + [e])[..|past|] == past;
    }
  }
}
