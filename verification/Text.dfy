/** Option and result types, and the parts of Python's `str` the modelled code relies on. */
module Text {

  datatype Option<+T> = None | Some(value: T)

  datatype Result<+T, +E> = Ok(value: T) | Err(error: E)

  /** `str.isspace` for one character, which is also what `\s` matches in a `str` pattern. */
  predicate IsSpace(c: char) {
    var n := c as int;
    || 0x09 <= n <= 0x0D || 0x1C <= n <= 0x20 || n == 0x85 || n == 0xA0 || n == 0x1680
    || 0x2000 <= n <= 0x200A || n == 0x2028 || n == 0x2029 || n == 0x202F || n == 0x205F || n == 0x3000
  }

  /** Lower-casing of the ASCII letters; every other character is its own lower case. */
  function LowerChar(c: char): char {
    if 'A' <= c <= 'Z' then ((c as int) + 32) as char else c
  }

  function Lower(s: string): string {
    seq(|s|, i requires 0 <= i < |s| => LowerChar(s[i]))
  }

  /** `s.lstrip()` with an explicit character class. */
  function LStrip(s: string, drop: char -> bool): (r: string)
    ensures r == "" || !drop(r[0])
  {
    if s != "" && drop(s[0]) then LStrip(s[1..], drop) else s
  }

  /** `s.rstrip()` with an explicit character class. */
  function RStrip(s: string, drop: char -> bool): string {
    if s != "" && drop(s[|s| - 1]) then RStrip(s[..|s| - 1], drop) else s
  }

  function Strip(s: string): string {
    RStrip(LStrip(s, IsSpace), IsSpace)
  }

  // ---------------------------------------------------------------- stripping

  lemma {:induction false} DropFirst(c: char, s: string, drop: char -> bool)
    requires drop(c)
    ensures LStrip([c] + s, drop) == LStrip(s, drop)
  {
    assert ([c] + s)[1..] == s;
  }

  lemma {:induction false} DropFront(p: string, s: string, drop: char -> bool)
    requires forall i :: 0 <= i < |p| ==> drop(p[i])
    ensures LStrip(p + s, drop) == LStrip(s, drop)
    decreases |p|
  {
    if p == "" {
      assert p + s == s;
    } else {
      assert p + s == [p[0]] + (p[1..] + s);
      DropFirst(p[0], p[1..] + s, drop);
      DropFront(p[1..], s, drop);
    }
  }

  lemma {:induction false} RStripAppend(p: string, s: string, drop: char -> bool)
    ensures RStrip(p + s, drop) == if RStrip(s, drop) != "" then p + RStrip(s, drop) else RStrip(p, drop)
    decreases |s|
  {
    if s == "" {
      assert p + s == p;
    } else if drop(s[|s| - 1]) {
      assert (p + s)[..|p + s| - 1] == p + s[..|s| - 1];
      RStripAppend(p, s[..|s| - 1], drop);
    }
  }

  lemma {:induction false} RStripPrefix(s: string, drop: char -> bool)
    ensures |RStrip(s, drop)| <= |s| && RStrip(s, drop) == s[..|RStrip(s, drop)|]
    ensures forall j :: |RStrip(s, drop)| <= j < |s| ==> drop(s[j])
    decreases |s|
  {
    if s != "" && drop(s[|s| - 1]) {
      RStripPrefix(s[..|s| - 1], drop);
      forall j | |RStrip(s, drop)| <= j < |s| ensures drop(s[j]) {
        if j < |s| - 1 { assert s[..|s| - 1][j] == s[j]; }
      }
    }
  }

  lemma {:induction false} Stripped(s: string, drop: char -> bool) returns (p: string)
    ensures s == p + LStrip(s, drop) && forall i :: 0 <= i < |p| ==> drop(p[i])
    decreases |s|
  {
    if s != "" && drop(s[0]) {
      var rest := Stripped(s[1..], drop);
      p := [s[0]] + rest;
    } else {
      p := "";
    }
  }

  lemma {:induction false} LStripIsSuffix(s: string, drop: char -> bool)
    ensures |LStrip(s, drop)| <= |s| && LStrip(s, drop) == s[|s| - |LStrip(s, drop)|..]
    ensures s != "" && drop(s[0]) ==> |LStrip(s, drop)| < |s|
    decreases |s|
  {
    if s != "" && drop(s[0]) { LStripIsSuffix(s[1..], drop); }
  }

  lemma {:induction false} RStripEnds(s: string, drop: char -> bool)
    ensures |RStrip(s, drop)| <= |s|
    ensures var r := RStrip(s, drop); r != "" ==> !drop(r[|r| - 1])
    decreases |s|
  {
    if s != "" && drop(s[|s| - 1]) { RStripEnds(s[..|s| - 1], drop); }
  }

  lemma {:induction false} RStripped(s: string, drop: char -> bool) returns (v: string)
    ensures s == RStrip(s, drop) + v && forall i :: 0 <= i < |v| ==> drop(v[i])
    decreases |s|
  {
    if s != "" && drop(s[|s| - 1]) {
      var rest := RStripped(s[..|s| - 1], drop);
      v := rest + [s[|s| - 1]];
    } else {
      v := "";
    }
  }

  lemma {:induction false} DropBack(s: string, v: string, drop: char -> bool)
    requires forall i :: 0 <= i < |v| ==> drop(v[i])
    ensures RStrip(s + v, drop) == RStrip(s, drop)
    decreases |v|
  {
    if v == "" {
      assert s + v == s;
    } else {
      assert (s + v)[..|s + v| - 1] == s + v[..|v| - 1];
      DropBack(s, v[..|v| - 1], drop);
    }
  }

  /** `strip` takes the white space at both ends and nothing else. */
  lemma {:induction false} StripExactly(u: string, core: string, v: string)
    requires (forall i :: 0 <= i < |u| ==> IsSpace(u[i])) && forall i :: 0 <= i < |v| ==> IsSpace(v[i])
    requires core == "" || (!IsSpace(core[0]) && !IsSpace(core[|core| - 1]))
    ensures Strip(u + core + v) == core
  {
    assert u + core + v == u + (core + v);
    DropFront(u, core + v, IsSpace);
    if core == "" {
      assert core + v == v && v == v + "";
      DropFront(v, "", IsSpace);
    } else {
      assert (core + v)[0] == core[0];
      DropBack(core, v, IsSpace);
    }
  }

  /** Lower-casing maps the capital letters to the small ones, one to one and in order, and no other character. */
  lemma LettersFold()
    ensures Lower("ABCDEFGHIJKLMNOPQRSTUVWXYZ") == "abcdefghijklmnopqrstuvwxyz"
    ensures forall c :: c !in "ABCDEFGHIJKLMNOPQRSTUVWXYZ" ==> LowerChar(c) == c
  {
    var capitals := "ABCDEFGHIJKLMNOPQRSTUVWXYZ";
    forall c | 'A' <= c <= 'Z' ensures c in capitals {
      assert capitals[c as int - 'A' as int] == c;
    }
  }
}
