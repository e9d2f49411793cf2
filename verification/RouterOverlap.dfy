/** Calls of one `ModelRouter` that overlap: each takes its order when it begins, from what the others have learned. */
module RouterOverlap {
  import opened Text
  import opened Router

  /** A call: the models it has still to ask, the one it is waiting for first, and how many it has asked so far. */
  datatype Progress = Progress(rest: seq<string>, asked: nat, early: bool)

  /** `early` marks the calls that began while no model in quota was remembered. */
  datatype System = System(mem: Memory, calls: seq<Progress>)

  datatype Step = Begin | Settle(call: nat, wait: Option<int>)

  predicate Remembers(mem: Memory, good: set<string>) {
    mem.active.Some? && mem.active.value in good
  }

  predicate Enabled(s: System, step: Step) {
    step.Settle? ==> step.call < |s.calls| && s.calls[step.call].rest != []
  }

  /** The models in `good` have quota: a call that waits for one of them ends, any other goes on to its next model. */
  function Next(models: seq<string>, good: set<string>, s: System, step: Step): System
    requires Enabled(s, step)
  {
    match step
    case Begin =>
      var order := Ordered(models, s.mem);
      s.(calls := s.calls + [Progress(order, if order == [] then 0 else 1, !Remembers(s.mem, good))])
    case Settle(i, wait) =>
      var c := s.calls[i];
      if c.rest[0] in good then
        System(s.mem.(active := Some(c.rest[0])), s.calls[i := c.(rest := [])])
      else
        System(Refused(s.mem, c.rest[0], wait),
               s.calls[i := c.(rest := c.rest[1..], asked := if |c.rest| == 1 then c.asked else c.asked + 1)])
  }

  function InFlight(calls: seq<Progress>): nat {
    if calls == [] then 0
    else InFlight(calls[..|calls| - 1]) + if calls[|calls| - 1].rest != [] then 1 else 0
  }

  function Early(calls: seq<Progress>): nat {
    if calls == [] then 0
    else Early(calls[..|calls| - 1]) + if calls[|calls| - 1].early then 1 else 0
  }

  function Requests(calls: seq<Progress>): nat {
    if calls == [] then 0 else Requests(calls[..|calls| - 1]) + calls[|calls| - 1].asked
  }

  /** A run in which never more than `k` calls overlap. */
  ghost predicate Runs(models: seq<string>, good: set<string>, s: System, steps: seq<Step>, end: System, k: nat)
    decreases |steps|
  {
    && InFlight(s.calls) <= k
    && if steps == [] then s == end
       else Enabled(s, steps[0]) && Runs(models, good, Next(models, good, s, steps[0]), steps[1..], end, k)
  }

  // ---------------------------------------------------------------- one call

  /** How many models without quota stand before the first that has it. */
  function DeadAhead(order: seq<string>, good: set<string>): nat {
    if order == [] || order[0] in good then 0 else 1 + DeadAhead(order[1..], good)
  }

  predicate HasGood(order: seq<string>, good: set<string>) {
    exists m :: m in order && m in good
  }

  /** What a call has asked and has still to ask for nothing stays within its share. */
  predicate WithinShare(c: Progress, good: set<string>, dead: nat) {
    && (c.rest != [] ==> HasGood(c.rest, good))
    && c.asked + DeadAhead(c.rest, good) <= 1 + if c.early then dead else 0
  }

  lemma {:induction false} DeadAheadIsPrefix(order: seq<string>, good: set<string>)
    ensures var n := DeadAhead(order, good);
            n <= |order| && forall i :: 0 <= i < n ==> order[i] !in good
    decreases |order|
  {
    if order != [] && order[0] !in good {
      DeadAheadIsPrefix(order[1..], good);
      var n := DeadAhead(order[1..], good);
      forall i | 0 <= i < n + 1 ensures order[i] !in good {
        if i > 0 { assert order[i] == order[1..][i - 1]; }
      }
    }
  }

  predicate Fleet(models: seq<string>, good: set<string>) {
    Distinct(models) && good != {} && forall m :: m in good ==> m in models
  }

  lemma BeginIsWithinShare(models: seq<string>, good: set<string>, mem: Memory)
    requires Fleet(models, good)
    ensures |models| >= |good| && Ordered(models, mem) != []
    ensures WithinShare(Progress(Ordered(models, mem), 1, !Remembers(mem, good)), good, |models| - |good|)
  {
    var order := Ordered(models, mem);
    OrderIsAPermutation(models, mem);
    SameMembers(models, order);
    DeadAheadIsPrefix(order, good);
    hide Ordered, DeadAhead;
    var n := DeadAhead(order, good);
    forall i, j | 0 <= i < j < n ensures order[..n][i] != order[..n][j] {
      assert order[i] != order[j];
    }
    RefusedCount(models, good, order[..n]);
    var g :| g in good;
    assert g in order;
    if Remembers(mem, good) { FirstIsGood(order, good); }
  }

  lemma FirstIsGood(order: seq<string>, good: set<string>)
    requires order != [] && order[0] in good
    ensures DeadAhead(order, good) == 0
  {}

  lemma {:induction false} GoesOnWithinShare(c: Progress, good: set<string>, dead: nat)
    requires WithinShare(c, good, dead) && c.rest != [] && c.rest[0] !in good
    ensures |c.rest| > 1
    ensures WithinShare(c.(rest := c.rest[1..], asked := c.asked + 1), good, dead)
  {
    var m :| m in c.rest && m in good;
    assert m in c.rest[1..];
  }

  // ---------------------------------------------------------------- all calls

  /** Every call keeps within its share; before anything good is remembered, all of them are early and under way. */
  ghost predicate Inv(models: seq<string>, good: set<string>, s: System, k: nat) {
    && |models| >= |good|
    && (forall i :: 0 <= i < |s.calls| ==> WithinShare(s.calls[i], good, |models| - |good|))
    && (!Remembers(s.mem, good) ==> forall i :: 0 <= i < |s.calls| ==> s.calls[i].rest != [])
    && Early(s.calls) <= k
  }

  lemma {:induction false} AllInFlight(calls: seq<Progress>)
    requires forall i :: 0 <= i < |calls| ==> calls[i].rest != []
    ensures Early(calls) <= InFlight(calls)
    decreases |calls|
  {
    if calls != [] { AllInFlight(calls[..|calls| - 1]); }
  }

  lemma {:induction false} SameEarly(calls: seq<Progress>, i: nat, c: Progress)
    requires i < |calls| && c.early == calls[i].early
    ensures Early(calls[i := c]) == Early(calls)
    decreases |calls|
  {
    var last := |calls| - 1;
    if i < last {
      SameEarly(calls[..last], i, c);
      assert calls[i := c][..last] == calls[..last][i := c];
    } else {
      assert calls[i := c][..last] == calls[..last];
    }
  }

  lemma OneMoreCall(calls: seq<Progress>, c: Progress)
    ensures Early(calls + [c]) == Early(calls) + if c.early then 1 else 0
  {
    assert (calls + [c])[..|calls|] == calls;
  }

  lemma {:induction false} StepKeepsShares(models: seq<string>, good: set<string>, s: System, step: Step, k: nat)
    requires Fleet(models, good) && Inv(models, good, s, k) && Enabled(s, step)
    requires InFlight(Next(models, good, s, step).calls) <= k
    ensures Inv(models, good, Next(models, good, s, step), k)
  {
    var s' := Next(models, good, s, step);
    match step
    case Begin =>
      BeginIsWithinShare(models, good, s.mem);
      hide Ordered, WithinShare;
      var c := s'.calls[|s.calls|];
      assert s'.calls == s.calls + [c];
      OneMoreCall(s.calls, c);
      if !Remembers(s.mem, good) { AllInFlight(s'.calls); }
    case Settle(i, wait) =>
      var c := s.calls[i];
      SameEarly(s.calls, i, s'.calls[i]);
      if c.rest[0] !in good { GoesOnWithinShare(c, good, |models| - |good|); }
      hide DeadAhead;
  }

  lemma {:induction false} RunKeepsShares(models: seq<string>, good: set<string>, s: System, steps: seq<Step>,
      end: System, k: nat)
    requires Fleet(models, good) && Inv(models, good, s, k) && Runs(models, good, s, steps, end, k)
    ensures Inv(models, good, end, k)
    decreases |steps|
  {
    if steps != [] {
      var s' := Next(models, good, s, steps[0]);
      assert InFlight(s'.calls) <= k;
      StepKeepsShares(models, good, s, steps[0], k);
      hide Next, Inv;
      RunKeepsShares(models, good, s', steps[1..], end, k);
    }
  }

  lemma {:induction false} SharesAddUp(calls: seq<Progress>, good: set<string>, dead: nat)
    requires forall i :: 0 <= i < |calls| ==> WithinShare(calls[i], good, dead)
    ensures Requests(calls) <= |calls| + Early(calls) * dead
    decreases |calls|
  {
    if calls != [] {
      var last := calls[|calls| - 1];
      SharesAddUp(calls[..|calls| - 1], good, dead);
      assert last.asked <= 1 + if last.early then dead else 0;
      if last.early {
        assert Early(calls) * dead == Early(calls[..|calls| - 1]) * dead + dead;
      }
    }
  }

  lemma FewerTimes(a: nat, b: nat, n: nat)
    requires a <= b
    ensures a * n <= b * n
  {
    assert b * n == a * n + (b - a) * n;
  }

  /**
   * While a fixed set of models has quota and never more than `k` calls overlap, any number of calls
   * makes at most one request each, plus one for every model without quota and every one of `k`
   * calls; and a call that begins once a model in quota is remembered makes no more than one.
   */
  lemma {:induction false} OverlapIsAmortised(models: seq<string>, good: set<string>, mem: Memory, steps: seq<Step>,
      end: System, k: nat)
    requires Fleet(models, good) && Runs(models, good, System(mem, []), steps, end, k)
    ensures |models| >= |good| && Requests(end.calls) <= |end.calls| + k * (|models| - |good|)
    ensures forall i :: 0 <= i < |end.calls| && !end.calls[i].early ==> end.calls[i].asked <= 1
  {
    BeginIsWithinShare(models, good, mem);
    RunKeepsShares(models, good, System(mem, []), steps, end, k);
    SharesAddUp(end.calls, good, |models| - |good|);
    FewerTimes(Early(end.calls), k, |models| - |good|);
  }
}
