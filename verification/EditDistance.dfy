/** `_edit_distance` and `nearest_mode` of `plugins/ai/plugin.py`. */
module EditDistance {
  import opened Text

  function Min(x: nat, y: nat): nat {
    if x <= y then x else y
  }

  function Max(x: nat, y: nat): nat {
    if x >= y then x else y
  }

  function Init<T>(s: seq<T>): seq<T>
    requires s != []
  {
    s[..|s| - 1]
  }

  function Last<T>(s: seq<T>): T
    requires s != []
  {
    s[|s| - 1]
  }

  /** Cost of turning one last character into another. */
  function Differ(x: char, y: char): nat {
    if x != y then 1 else 0
  }

  /** The recurrence: drop a last character, add one, or pair the two last ones. */
  function Distance(a: string, b: string): nat
    decreases |a| + |b|
  {
    if a == [] then |b|
    else if b == [] then |a|
    else
      Min(Min(Distance(Init(a), b) + 1, Distance(a, Init(b)) + 1),
          Distance(Init(a), Init(b)) + Differ(Last(a), Last(b)))
  }

  // ---------------------------------------------------------------- the two-row loop

  /** The distances of one prefix of `a` to the first prefixes of `b`. */
  ghost predicate IsRow(row: seq<nat>, a: string, b: string, width: nat)
    requires width <= |b|
  {
    |row| == width + 1 && forall j :: 0 <= j <= width ==> row[j] == Distance(a, b[..j])
  }

  lemma {:induction false} Unfold(a: string, b: string)
    requires a != [] && b != []
    ensures Distance(a, b) == Min(Min(Distance(Init(a), b) + 1, Distance(a, Init(b)) + 1),
                                  Distance(Init(a), Init(b)) + Differ(Last(a), Last(b)))
  {}

  lemma {:induction false} NextCell(a: string, i: nat, b: string, j: nat)
    requires i < |a| && j < |b|
    ensures Distance(a[..i + 1], b[..j + 1])
            == Min(Min(Distance(a[..i], b[..j + 1]) + 1, Distance(a[..i + 1], b[..j]) + 1),
                   Distance(a[..i], b[..j]) + Differ(a[i], b[j]))
  {
    hide Distance, Min, Differ;
    Unfold(a[..i + 1], b[..j + 1]);
    assert Init(a[..i + 1]) == a[..i] && Init(b[..j + 1]) == b[..j];
  }

  lemma FirstCell(a: string, b: string)
    ensures IsRow([|a|], a, b, 0)
  {
    assert b[..0] == [];
  }

  lemma GrowRow(previous: seq<nat>, row: seq<nat>, a: string, i: nat, b: string, j: nat)
    requires i < |a| && j < |b| && IsRow(previous, a[..i], b, |b|) && IsRow(row, a[..i + 1], b, j)
    ensures |previous| == |b| + 1 && |row| == j + 1
    ensures IsRow(row + [Min(Min(previous[j + 1] + 1, row[j] + 1), previous[j] + Differ(a[i], b[j]))],
                  a[..i + 1], b, j + 1)
  {
    hide Distance, Min, Differ;
    var cell := Min(Min(previous[j + 1] + 1, row[j] + 1), previous[j] + Differ(a[i], b[j]));
    assert cell == Distance(a[..i + 1], b[..j + 1]) by { NextCell(a, i, b, j); }
    forall k | 0 <= k <= j + 1 ensures (row + [cell])[k] == Distance(a[..i + 1], b[..k]) {
      if k <= j { assert (row + [cell])[k] == row[k]; }
    }
  }

  method NextRow(previous: seq<nat>, a: string, i: nat, b: string) returns (current: seq<nat>)
    requires i < |a| && IsRow(previous, a[..i], b, |b|)
    ensures IsRow(current, a[..i + 1], b, |b|)
  {
    FirstCell(a[..i + 1], b);
    current := [i + 1];
    hide IsRow, Min, Differ;
    for j := 0 to |b|
      invariant IsRow(current, a[..i + 1], b, j)
    {
      GrowRow(previous, current, a, i, b, j);
      current := current + [Min(Min(previous[j + 1] + 1, current[j] + 1), previous[j] + Differ(a[i], b[j]))];
    }
  }

  /** Only the previous row is kept; the last cell of the last row is the distance. */
  method ComputeDistance(a: string, b: string) returns (d: nat)
    ensures d == Distance(a, b)
  {
    var previous: seq<nat> := seq(|b| + 1, j => j);
    for i := 0 to |a|
      invariant IsRow(previous, a[..i], b, |b|)
    {
      previous := NextRow(previous, a, i, b);
    }
    assert a[..|a|] == a && b[..|b|] == b;
    d := previous[|previous| - 1];
  }

  // ---------------------------------------------------------------- a metric

  lemma {:induction false} DistanceToItself(a: string)
    ensures Distance(a, a) == 0
    decreases |a|
  {
    if a != [] { DistanceToItself(Init(a)); }
  }

  lemma {:induction false} DistanceZero(a: string, b: string)
    requires Distance(a, b) == 0
    ensures a == b
    decreases |a|
  {
    if a != [] && b != [] {
      DistanceZero(Init(a), Init(b));
      assert a == Init(a) + [Last(a)] && b == Init(b) + [Last(b)];
    }
  }

  /** Two strings are at distance zero exactly when they are equal. */
  lemma {:induction false} ZeroMeansEqual(a: string, b: string)
    ensures Distance(a, b) == 0 <==> a == b
  {
    DistanceToItself(a);
    if Distance(a, b) == 0 { DistanceZero(a, b); }
  }

  lemma {:induction false} Symmetric(a: string, b: string)
    ensures Distance(a, b) == Distance(b, a)
    decreases |a| + |b|
  {
    if a != [] && b != [] {
      Symmetric(Init(a), b);
      Symmetric(a, Init(b));
      Symmetric(Init(a), Init(b));
    }
  }

  lemma {:induction false} LengthGap(a: string, b: string)
    ensures |a| - |b| <= Distance(a, b) && |b| - |a| <= Distance(a, b) <= |a| + |b|
    decreases |a| + |b|
  {
    if a != [] && b != [] {
      LengthGap(Init(a), b);
      LengthGap(a, Init(b));
      LengthGap(Init(a), Init(b));
    }
  }

  lemma {:induction false} Triangle(a: string, b: string, c: string)
    ensures Distance(a, c) <= Distance(a, b) + Distance(b, c)
    decreases |a| + |b| + |c|
  {
    LengthGap(a, b);
    LengthGap(b, c);
    LengthGap(a, c);
    if a != [] && b != [] && c != [] {
      Triangle(Init(a), b, c);
      Triangle(a, b, Init(c));
      Triangle(a, Init(b), c);
      Triangle(a, Init(b), Init(c));
      Triangle(Init(a), Init(b), c);
      Triangle(Init(a), Init(b), Init(c));
    }
  }

  // ---------------------------------------------------------------- shortest edit scripts

  datatype Edit = Insert(at: nat, c: char) | Delete(at: nat) | Replace(at: nat, c: char)

  predicate Fits(s: string, e: Edit) {
    e.at < |s| || (e.Insert? && e.at == |s|)
  }

  function Apply(s: string, e: Edit): string
    requires Fits(s, e)
  {
    match e
    case Insert(at, c) => s[..at] + [c] + s[at..]
    case Delete(at) => s[..at] + s[at + 1..]
    case Replace(at, c) => s[..at] + [c] + s[at + 1..]
  }

  function Run(s: string, script: seq<Edit>): Option<string>
    decreases |script|
  {
    if script == [] then Some(s)
    else if Fits(s, script[0]) then Run(Apply(s, script[0]), script[1..])
    else None
  }

  lemma {:induction false} SameTail(s: string, t: string, tail: string)
    ensures Distance(s + tail, t + tail) <= Distance(s, t)
    decreases |tail|
  {
    if tail == [] {
      assert s + tail == s && t + tail == t;
    } else {
      SameTail(s, t, Init(tail));
      assert Init(s + tail) == s + Init(tail) && Init(t + tail) == t + Init(tail);
    }
  }

  lemma {:induction false} OneMore(u: string, c: char)
    ensures Distance(u, u + [c]) <= 1 && Distance(u + [c], u) <= 1
  {
    DistanceToItself(u);
    assert Init(u + [c]) == u;
  }

  lemma {:induction false} OneChanged(u: string, c: char, d: char)
    ensures Distance(u + [c], u + [d]) <= 1
  {
    DistanceToItself(u);
    assert Init(u + [c]) == u && Init(u + [d]) == u;
  }

  /** One edit moves a string by at most one. */
  lemma {:induction false} OneEdit(s: string, e: Edit)
    requires Fits(s, e)
    ensures Distance(s, Apply(s, e)) <= 1
  {
    var u := s[..e.at];
    assert u + s[e.at..] == s;
    assert e.at < |s| ==> u + [s[e.at]] + s[e.at + 1..] == s;
    hide Distance;
    match e
    case Insert(at, c) =>
      OneMore(u, c);
      SameTail(u, u + [c], s[at..]);
    case Delete(at) =>
      OneMore(u, s[at]);
      SameTail(u + [s[at]], u, s[at + 1..]);
    case Replace(at, c) =>
      OneChanged(u, s[at], c);
      SameTail(u + [s[at]], u + [c], s[at + 1..]);
  }

  /** No script is shorter than the distance. */
  lemma {:induction false} NoShorterScript(a: string, b: string, script: seq<Edit>)
    requires Run(a, script) == Some(b)
    ensures Distance(a, b) <= |script|
    decreases |script|
  {
    if script == [] {
      DistanceToItself(a);
    } else {
      var s := Apply(a, script[0]);
      NoShorterScript(s, b, script[1..]);
      OneEdit(a, script[0]);
      Triangle(a, s, b);
    }
  }

  lemma {:induction false} RunAppend(s: string, first: seq<Edit>, second: seq<Edit>)
    requires Run(s, first).Some?
    ensures Run(s, first + second) == Run(Run(s, first).value, second)
    decreases |first|
  {
    if first == [] {
      assert first + second == second;
    } else {
      assert (first + second)[1..] == first[1..] + second;
      RunAppend(Apply(s, first[0]), first[1..], second);
    }
  }

  /** A script works on the front of a longer string. */
  lemma {:induction false} RunInFront(s: string, tail: string, script: seq<Edit>)
    requires Run(s, script).Some?
    ensures Run(s + tail, script) == Some(Run(s, script).value + tail)
    decreases |script|
  {
    if script != [] {
      assert Apply(s + tail, script[0]) == Apply(s, script[0]) + tail;
      RunInFront(Apply(s, script[0]), tail, script[1..]);
    }
  }

  lemma {:induction false} RunFirst(s: string, e: Edit, rest: seq<Edit>)
    requires Fits(s, e)
    ensures Run(s, [e] + rest) == Run(Apply(s, e), rest)
  {
    assert ([e] + rest)[1..] == rest;
  }

  lemma {:induction false} AddLast(a: string, b: string, rest: seq<Edit>)
    requires b != [] && Run(a, rest) == Some(Init(b))
    ensures Run(a, rest + [Insert(|b| - 1, Last(b))]) == Some(b)
  {
    var last := Insert(|b| - 1, Last(b));
    RunAppend(a, rest, [last]);
    assert Apply(Init(b), last) == b && Run(b, [last][1..]) == Some(b);
  }

  lemma {:induction false} DropLast(a: string, b: string, rest: seq<Edit>)
    requires a != [] && Run(Init(a), rest) == Some(b)
    ensures Run(a, [Delete(|a| - 1)] + rest) == Some(b)
  {
    RunFirst(a, Delete(|a| - 1), rest);
    hide Run;
    assert Apply(a, Delete(|a| - 1)) == Init(a);
  }

  lemma InitAndLast(s: string, c: char)
    requires s != []
    ensures Apply(s, Replace(|s| - 1, c)) == Init(s) + [c] && Init(s) + [Last(s)] == s
  {}

  lemma {:induction false} PairLast(a: string, b: string, rest: seq<Edit>)
    requires a != [] && b != [] && Run(Init(a), rest) == Some(Init(b))
    ensures Last(a) == Last(b) ==> Run(a, rest) == Some(b)
    ensures Run(a, [Replace(|a| - 1, Last(b))] + rest) == Some(b)
  {
    hide Run, Apply, Init, Last;
    RunInFront(Init(a), [Last(b)], rest);
    RunFirst(a, Replace(|a| - 1, Last(b)), rest);
    InitAndLast(a, Last(a));
    InitAndLast(a, Last(b));
    InitAndLast(b, Last(b));
  }

  /** A script of exactly that length exists. */
  lemma {:induction false} ShortestScript(a: string, b: string) returns (script: seq<Edit>)
    ensures |script| == Distance(a, b) && Run(a, script) == Some(b)
    decreases |a| + |b|
  {
    assert Run(a, []) == Some(a);
    hide Run;
    if a == [] && b == [] {
      script := [];
    } else if b != [] && (a == [] || Distance(a, b) == Distance(a, Init(b)) + 1) {
      var rest := ShortestScript(a, Init(b));
      AddLast(a, b, rest);
      script := rest + [Insert(|b| - 1, Last(b))];
    } else if b == [] || Distance(a, b) == Distance(Init(a), b) + 1 {
      var rest := ShortestScript(Init(a), b);
      DropLast(a, b, rest);
      script := [Delete(|a| - 1)] + rest;
    } else {
      var rest := ShortestScript(Init(a), Init(b));
      PairLast(a, b, rest);
      script := (if Last(a) == Last(b) then [] else [Replace(|a| - 1, Last(b))]) + rest;
      assert [] + rest == rest;
    }
  }

  // ---------------------------------------------------------------- the nearest mode

  const MODE_TYPO_DISTANCE := 1
  const MODE_MIN_LENGTH := 3
  const PRO := "pro"
  const FAST := "fast"
  const MODES := {PRO, FAST}

  /** The modes by distance, equal distances by name. */
  function Scored(target: string): seq<(nat, string)> {
    var pro, fast := Distance(target, PRO), Distance(target, FAST);
    if pro < fast then [(pro, PRO), (fast, FAST)] else [(fast, FAST), (pro, PRO)]
  }

  function NearestMode(word: string): Option<string> {
    var target := Lower(word);
    if target in MODES then Some(target)
    else if |target| < MODE_MIN_LENGTH then None
    else
      var scored := Scored(target);
      if scored[0].0 > MODE_TYPO_DISTANCE then None
      else if |scored| > 1 && scored[1].0 == scored[0].0 then None
      else Some(scored[0].1)
  }

  /** Strings without a character in common are as far apart as the longer one is long. */
  lemma {:induction false} NothingInCommon(a: string, b: string)
    requires forall i, j :: 0 <= i < |a| && 0 <= j < |b| ==> a[i] != b[j]
    ensures Distance(a, b) == Max(|a|, |b|)
    decreases |a| + |b|
  {
    if a != [] && b != [] {
      NothingInCommon(Init(a), b);
      NothingInCommon(a, Init(b));
      NothingInCommon(Init(a), Init(b));
    }
  }

  /** No word is a typo of both modes, so the tie branch never decides anything. */
  lemma {:induction false} TieNeverFires(target: string)
    ensures Distance(target, PRO) > MODE_TYPO_DISTANCE || Distance(target, FAST) > MODE_TYPO_DISTANCE
  {
    hide Distance;
    NothingInCommon(PRO, FAST);
    Triangle(PRO, target, FAST);
    Symmetric(PRO, target);
  }

  /** The result is the mode itself, or the one mode a long enough word is within one edit of. */
  lemma {:induction false} NearestModeExactly(word: string, mode: string)
    requires mode in MODES
    ensures NearestMode(word) == Some(mode) <==>
      Lower(word) == mode
      || (|word| >= MODE_MIN_LENGTH && Distance(Lower(word), mode) <= MODE_TYPO_DISTANCE)
  {
    hide Distance;
    var target := Lower(word);
    TieNeverFires(target);
    ZeroMeansEqual(target, PRO);
    ZeroMeansEqual(target, FAST);
  }

  /** The result is always one of the modes. */
  lemma {:induction false} NearestModeIsAMode(word: string)
    ensures NearestMode(word).Some? ==> NearestMode(word).value in MODES
  {}
}
