/** `RateLimiter` of `src/userbot/rate_limit.py`: reserved start slots per key, and permits. */
module RateLimit {
  import opened Text
  import opened Clock

  const MAX_TRACKED_KEYS := 1024

  datatype Request = Request(key: string, now: int)

  /** The slot a request gets, given what is remembered of its key. */
  function Slot(last: Option<int>, now: int, interval: nat): int {
    match last
    case None => now
    case Some(previous) => if now >= previous + interval then now else previous + interval
  }

  /** All slots handed out by a run of requests, in order. */
  function Reservations(requests: seq<Request>, interval: nat): (r: Entries<string>)
    ensures |r| == |requests| && forall i :: 0 <= i < |r| ==> r[i].key == requests[i].key
  {
    if requests == [] then []
    else
      var past := Reservations(requests[..|requests| - 1], interval);
      var r := requests[|requests| - 1];
      past + [Entry(r.key, Slot(Lookup(After(past, MAX_TRACKED_KEYS), r.key), r.now, interval))]
  }

  lemma {:induction false} ReservationsPrefix(requests: seq<Request>, interval: nat, n: nat)
    requires n <= |requests|
    ensures Reservations(requests[..n], interval) == Reservations(requests, interval)[..n]
    decreases |requests|
  {
    if n < |requests| {
      var init := requests[..|requests| - 1];
      ReservationsPrefix(init, interval, n);
      assert init[..n] == requests[..n];
    } else {
      assert requests[..n] == requests;
    }
  }

  /** What one request gets depends on the reservations before it only. */
  lemma {:induction false} OneReservation(requests: seq<Request>, interval: nat, j: nat)
    requires j < |requests|
    ensures var r := Reservations(requests, interval);
            r[j].time == Slot(Lookup(After(r[..j], MAX_TRACKED_KEYS), requests[j].key), requests[j].now, interval)
  {
    var r := Reservations(requests, interval);
    ReservationsPrefix(requests, interval, j + 1);
    ReservationsPrefix(requests, interval, j);
    assert requests[..j + 1][..j] == requests[..j];
    assert r[..j + 1][j] == r[j];
    hide After, Lookup;
  }

  /** A slot may be given out for `x`: that is not in the past, and the key is free by then. */
  predicate MayStart(x: int, now: int, free: int) {
    x >= now && x >= free
  }

  ghost predicate IsEarliest(x: int, now: int, free: int) {
    MayStart(x, now, free) && forall y :: MayStart(y, now, free) ==> y >= x
  }

  lemma EarliestIsOneOfThem(x: int, now: int, free: int)
    ensures IsEarliest(x, now, free) <==> x == if now >= free then now else free
  {
    if IsEarliest(x, now, free) {
      var y := if now >= free then now else free;
      assert MayStart(y, now, free);
    }
  }

  /**
   * Every reservation is the earliest the remembered history allows: the previous one of the
   * same key holds it back exactly when fewer than 1024 other keys were reserved in between.
   */
  lemma {:induction false} ReservedExactly(requests: seq<Request>, interval: nat, i: nat, j: nat)
    requires i < j < |requests| && requests[i].key == requests[j].key
    requires forall k :: i < k < j ==> requests[k].key != requests[j].key
    ensures var r := Reservations(requests, interval);
            if |Keys(r[i + 1..j])| < MAX_TRACKED_KEYS then IsEarliest(r[j].time, requests[j].now, r[i].time + interval)
            else r[j].time == requests[j].now
  {
    hide After, Lookup, Reservations;
    var r := Reservations(requests, interval);
    OneReservation(requests, interval, j);
    assert r[..j] == r[..i] + [r[i]] + r[i + 1..j];
    forall e | e in r[i + 1..j] ensures e.key != requests[j].key {
      var k :| i < k < j && r[k] == e;
    }
    Remembers(r[..i], r[i], r[i + 1..j], MAX_TRACKED_KEYS);
    EarliestIsOneOfThem(r[j].time, requests[j].now, r[i].time + interval);
  }

  /** The first reservation of a key starts at once. */
  lemma {:induction false} FirstReservation(requests: seq<Request>, interval: nat, j: nat)
    requires j < |requests| && forall k :: 0 <= k < j ==> requests[k].key != requests[j].key
    ensures Reservations(requests, interval)[j].time == requests[j].now
  {
    OneReservation(requests, interval, j);
    NeverSet(Reservations(requests, interval)[..j], requests[j].key, MAX_TRACKED_KEYS);
  }

  /** How many of the requests after the `i`-th, up to the `j`-th, are for this key. */
  function Uses(requests: seq<Request>, key: string, i: nat, j: nat): nat
    requires i <= j < |requests|
    decreases j
  {
    if i == j then 0 else (if requests[j].key == key then 1 else 0) + Uses(requests, key, i, j - 1)
  }

  lemma {:induction false} UsesSplit(requests: seq<Request>, key: string, i: nat, m: nat, j: nat)
    requires i <= m <= j < |requests|
    ensures Uses(requests, key, i, j) == Uses(requests, key, i, m) + Uses(requests, key, m, j)
    decreases j
  {
    if m < j { UsesSplit(requests, key, i, m, j - 1); }
  }

  lemma {:induction false} UsesOne(requests: seq<Request>, key: string, i: nat, j: nat)
    requires i < j < |requests| && requests[j].key == key && forall k :: i < k < j ==> requests[k].key != key
    ensures Uses(requests, key, i, j) == 1
  {
    NoUses(requests, key, i, j - 1);
  }

  lemma UsesNone(requests: seq<Request>, key: string, i: nat)
    requires i < |requests|
    ensures Uses(requests, key, i, i) == 0
  {}

  lemma {:induction false} NoUses(requests: seq<Request>, key: string, i: nat, j: nat)
    requires i <= j < |requests| && forall k :: i < k <= j ==> requests[k].key != key
    ensures Uses(requests, key, i, j) == 0
    decreases j
  {
    if i < j { NoUses(requests, key, i, j - 1); }
  }

  /**
   * Spacing over whole runs: unless 1024 other keys were reserved in between, two slots of a key
   * are at least `interval` apart for every reservation of that key from one to the other.
   */
  lemma {:induction false} SpacedOverRuns(requests: seq<Request>, interval: nat, i: nat, j: nat)
    requires i < j < |requests| && requests[i].key == requests[j].key
    requires |OthersBetween(Reservations(requests, interval), i, j)| < MAX_TRACKED_KEYS
    ensures var r := Reservations(requests, interval);
            r[j].time >= r[i].time + interval * Uses(requests, requests[i].key, i, j)
    decreases j - i
  {
    hide Reservations, OthersBetween, Uses;
    var r := Reservations(requests, interval);
    var key := requests[i].key;
    var m := LastBefore(r, i, j);
    Fewer(r, i, m, j, MAX_TRACKED_KEYS);
    ReservedExactly(requests, interval, m, j);
    UsesOne(requests, key, m, j);
    UsesSplit(requests, key, i, m, j);
    var n := Uses(requests, key, i, m);
    OneMoreInterval(interval, n);
    if i < m {
      SpacedOverRuns(requests, interval, i, m);
    } else {
      assert n == 0 by { UsesNone(requests, key, i); }
    }
  }

  lemma OneMoreInterval(interval: nat, n: nat)
    ensures interval * (n + 1) == interval * n + interval && interval * 0 == 0
  {}

  /** The limiter, with its whole history for the specification. */
  class RateLimiter {
    const minInterval: nat
    var lastStarted: Entries<string>
    ghost var requests: seq<Request>

    ghost predicate Valid()
      reads this
    {
      lastStarted == After(Reservations(requests, minInterval), MAX_TRACKED_KEYS)
    }

    constructor (minInterval: nat)
      ensures Valid() && requests == [] && this.minInterval == minInterval
    {
      this.minInterval := minInterval;
      lastStarted, requests := [], [];
    }

    /** Drops the oldest keys beyond the bound. */
    static method Trim(entries: Entries<string>) returns (r: Entries<string>)
      ensures r == Newest(entries, MAX_TRACKED_KEYS)
    {
      r := entries;
      while |r| > MAX_TRACKED_KEYS
        invariant Newest(r, MAX_TRACKED_KEYS) == Newest(entries, MAX_TRACKED_KEYS)
      {
        r := r[1..];
      }
    }

    /** Reserves the next start of this key before anybody sleeps; the delay is the wait for it. */
    method WaitTurn(key: string, now: int) returns (delay: nat)
      requires Valid()
      modifies `lastStarted, `requests
      ensures Valid() && requests == old(requests) + [Request(key, now)]
      ensures now + delay == Reservations(requests, minInterval)[|requests| - 1].time
      // It waits exactly if a remembered slot of this key is younger than the interval, and until it no longer is.
      ensures delay > 0 <==> exists e :: e in old(lastStarted) && e.key == key && e.time + minInterval > now
      ensures forall e :: e in old(lastStarted) && e.key == key && e.time + minInterval > now ==>
                delay == e.time + minInterval - now
    {
      RememberedSlot(requests, minInterval, key);
      hide After, Reservations, Without, Clock.Lookup, Newest, Keys;
      ghost var r := Request(key, now);
      OneMore(requests, r, minInterval);
      var reserved := Slot(Clock.Lookup(lastStarted, key), now, minInterval);
      lastStarted := Trim(Without(lastStarted, key) + [Entry(key, reserved)]);
      requests := requests + [r];
      assert Reservations(requests, minInterval)[|requests| - 1].time == reserved;
      delay := reserved - now;
    }
  }

  /** At most one slot of a key is remembered, and it is the one that is looked up. */
  lemma {:induction false} RememberedSlot(requests: seq<Request>, interval: nat, key: string)
    ensures var entries := After(Reservations(requests, interval), MAX_TRACKED_KEYS);
            && (Clock.Lookup(entries, key).Some? ==> Entry(key, Clock.Lookup(entries, key).value) in entries)
            && (forall e :: e in entries && e.key == key ==> Clock.Lookup(entries, key) == Some(e.time))
  {
    var history := Reservations(requests, interval);
    var entries := After(history, MAX_TRACKED_KEYS);
    BoundKeepsNewest(history, MAX_TRACKED_KEYS);
    RecencyDistinct(history);
    hide After, Recency, Clock.Lookup, Reservations;
    assert Distinct(entries);
    LookupAbsent(entries, key);
    if key in Clock.Keys(entries) {
      var i := FindKey(entries, key);
      SplitDistinct(entries, i);
      LookupAt(entries[..i], entries[i], entries[i + 1..]);
      assert entries[i] in entries;
    }
  }

  lemma {:induction false} OneMore(requests: seq<Request>, r: Request, interval: nat)
    ensures var past := Reservations(requests, interval);
            var e := Entry(r.key, Slot(Lookup(After(past, MAX_TRACKED_KEYS), r.key), r.now, interval));
            && Reservations(requests + [r], interval) == past + [e]
            && After(past + [e], MAX_TRACKED_KEYS) == Put(After(past, MAX_TRACKED_KEYS), e, MAX_TRACKED_KEYS)
  {
    var past := Reservations(requests, interval);
    var e := Entry(r.key, Slot(Lookup(After(past, MAX_TRACKED_KEYS), r.key), r.now, interval));
    assert (requests + [r])[..|requests|] == requests;
    assert (past + [e])[..|past|] == past;
    hide Lookup, Without;
  }

  // ---------------------------------------------------------------- permits

  /** Where a caller of `slot` is suspended; past `Acquiring` it holds a permit. */
  datatype Stage = Acquiring | TakingTurn | Sleeping | Inside

  datatype Slots = Slots(free: nat, callers: map<nat, Stage>)

  datatype SlotStep =
    | Arrive(t: nat)
    | Acquire(t: nat)
    | Abort(t: nat)                 // cancelled while waiting for a permit
    | Reserve(t: nat, delay: nat)
    | TurnFails(t: nat)             // an error or a cancellation in `_wait_turn`
    | Wake(t: nat)
    | SleepCancelled(t: nat)
    | BodyReturns(t: nat)
    | BodyRaises(t: nat)            // an error or a cancellation in the caller's block

  predicate CanStep(s: Slots, step: SlotStep) {
    match step
    case Arrive(t) => t !in s.callers
    case Acquire(t) => t in s.callers && s.callers[t].Acquiring? && s.free > 0
    case Abort(t) => t in s.callers && s.callers[t].Acquiring?
    case Reserve(t, _) => t in s.callers && s.callers[t].TakingTurn?
    case TurnFails(t) => t in s.callers && s.callers[t].TakingTurn?
    case Wake(t) => t in s.callers && s.callers[t].Sleeping?
    case SleepCancelled(t) => t in s.callers && s.callers[t].Sleeping?
    case BodyReturns(t) => t in s.callers && s.callers[t].Inside?
    case BodyRaises(t) => t in s.callers && s.callers[t].Inside?
  }

  function SlotsAfter(s: Slots, step: SlotStep): Slots
    requires CanStep(s, step)
  {
    match step
    case Arrive(t) => s.(callers := s.callers[t := Acquiring])
    case Acquire(t) => Slots(s.free - 1, s.callers[t := TakingTurn])
    case Abort(t) => s.(callers := s.callers - {t})
    case Reserve(t, delay) => s.(callers := s.callers[t := if delay > 0 then Sleeping else Inside])
    case TurnFails(t) => Released(s, t)
    case Wake(t) => s.(callers := s.callers[t := Inside])
    case SleepCancelled(t) => Released(s, t)
    case BodyReturns(t) => Released(s, t)
    case BodyRaises(t) => Released(s, t)
  }

  /** The `finally` clause. */
  function Released(s: Slots, t: nat): Slots {
    Slots(s.free + 1, s.callers - {t})
  }

  function Holders(s: Slots): set<nat> {
    set t | t in s.callers && !s.callers[t].Acquiring?
  }

  ghost predicate SlotRun(s: Slots, steps: seq<SlotStep>, end: Slots)
    decreases |steps|
  {
    if steps == [] then s == end else CanStep(s, steps[0]) && SlotRun(SlotsAfter(s, steps[0]), steps[1..], end)
  }

  predicate About(step: SlotStep, t: nat) {
    step.t == t
  }

  /** Taking its turn without a delay, or waking up from it, lets a caller in. */
  predicate LetsIn(step: SlotStep) {
    step.Wake? || (step.Reserve? && step.delay == 0)
  }

  ghost predicate NoneAbout(steps: seq<SlotStep>, t: nat) {
    forall step :: step in steps ==> !About(step, t)
  }

  /** A caller is inside if and only if its last step let it in: nobody gets in before its delay is over. */
  lemma {:induction false} InsideExactly(s: Slots, steps: seq<SlotStep>, end: Slots, t: nat, i: nat)
    requires SlotRun(s, steps, end)
    ensures NoneAbout(steps, t) ==> (IsInside(end, t) <==> IsInside(s, t))
    ensures i < |steps| && About(steps[i], t) && NoneAbout(steps[i + 1..], t) ==>
              (IsInside(end, t) <==> LetsIn(steps[i]))
    decreases |steps|
  {
    if steps != [] {
      var first, rest := steps[0], steps[1..];
      OneStepInside(s, first, t);
      hide CanStep, SlotsAfter, IsInside, LetsIn;
      assert steps == [first] + rest;
      InsideExactly(SlotsAfter(s, first), rest, end, t, if i > 0 then i - 1 else 0);
      if 0 < i < |steps| { assert rest[i - 1] == steps[i] && rest[i..] == steps[i + 1..]; }
    }
  }

  predicate IsInside(s: Slots, t: nat) {
    t in s.callers && s.callers[t].Inside?
  }

  lemma OneStepInside(s: Slots, step: SlotStep, t: nat)
    requires CanStep(s, step)
    ensures IsInside(SlotsAfter(s, step), t) <==> if About(step, t) then LetsIn(step) else IsInside(s, t)
  {}

  lemma HoldersAfterMove(s: Slots, free: nat, t: nat, stage: Stage)
    ensures Holders(Slots(free, s.callers[t := stage])) == if stage.Acquiring? then Holders(s) - {t}
        else Holders(s) + {t}
    ensures Holders(Slots(free, s.callers - {t})) == Holders(s) - {t}
  {}

  lemma StepKeepsPermits(s: Slots, step: SlotStep)
    requires CanStep(s, step)
    ensures SlotsAfter(s, step).free + |Holders(SlotsAfter(s, step))| == s.free + |Holders(s)|
  {
    var t := step.t;
    assert t in Holders(s) <==> t in s.callers && !s.callers[t].Acquiring?;
    hide Holders;
    var free := SlotsAfter(s, step).free;
    var stage := if t in SlotsAfter(s, step).callers then SlotsAfter(s, step).callers[t] else Acquiring;
    HoldersAfterMove(s, free, t, stage);
    assert t !in Holders(s) ==> Holders(s) - {t} == Holders(s);
    assert t in Holders(s) ==> Holders(s) + {t} == Holders(s);
  }

  /** Permits are conserved over every run, so never more than `cap` slots are held. */
  lemma {:induction false} PermitsAreConserved(s: Slots, steps: seq<SlotStep>, end: Slots, cap: nat)
    requires s.free + |Holders(s)| == cap && SlotRun(s, steps, end)
    ensures end.free + |Holders(end)| == cap
    decreases |steps|
  {
    if steps != [] {
      StepKeepsPermits(s, steps[0]);
      PermitsAreConserved(SlotsAfter(s, steps[0]), steps[1..], end, cap);
    }
  }
}
