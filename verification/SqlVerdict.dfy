/** The verdict of the SQL guard, told from the text alone: which texts are forbidden, stacked and accepted. */
module SqlVerdict {
  import opened Text
  import opened SqlComments
  import opened SqlGuard

  predicate AllBlank(u: string) {
    forall i :: 0 <= i < |u| ==> IsSpace(u[i]) || u[i] == BOM
  }

  /** One of the four words, in any case. */
  predicate IsForbiddenWord(p: string) {
    Lower(p) in {"attach", "detach", "pragma", "vacuum"}
  }

  /** The word ends here. */
  predicate EndsWord(v: string, word: char -> bool) {
    v == "" || !word(v[0])
  }

  /** Behind its leading blanks the text has one of the four words, and no byte order mark is in the way. */
  predicate IsForbiddenText(s: string, u: string, p: string, v: string, word: char -> bool) {
    s == u + p + v && AllBlank(u) && !BomAfterSpace(s, false) && IsForbiddenWord(p) && EndsWord(v, word)
  }

  lemma WordsAreLetters(p: string)
    requires IsForbiddenWord(p)
    ensures |p| == 6 && forall i :: 0 <= i < |p| ==> 'a' <= p[i] <= 'z' || 'A' <= p[i] <= 'Z'
  {
    assert |Lower(p)| == |p|;
    forall i | 0 <= i < |p| ensures 'a' <= p[i] <= 'z' || 'A' <= p[i] <= 'Z' {
      assert LowerChar(p[i]) == Lower(p)[i];
    }
  }

  lemma {:induction false} TextForbids(s: string, u: string, p: string, v: string, word: char -> bool)
    requires IsForbiddenText(s, u, p, v, word)
    ensures IsForbidden(LStrip(s, IsDropped), word)
  {
    LookedExactly(s);
    WordsAreLetters(p);
    assert s == u + (p + v) && (p + v)[0] == p[0];
    DropFront(u, p + v, IsBlankChar);
    hide LStrip, BomAfterSpace;
    var t := Looked(s);
    assert t == LStrip(p + v, IsBlankChar);
    NothingToDrop(p + v, IsBlankChar);
    assert t[..|p|] == p && KeywordAt(t, Lower(p), word);
  }

  lemma {:induction false} NothingToDrop(s: string, drop: char -> bool)
    requires s == "" || !drop(s[0])
    ensures LStrip(s, drop) == s
  {}

  lemma {:induction false} ForbiddenHasWord(s: string, word: char -> bool) returns (u: string, p: string, v: string)
    requires IsForbidden(LStrip(s, IsDropped), word)
    ensures IsForbiddenText(s, u, p, v, word)
  {
    LookedExactly(s);
    var t := Looked(s);
    u := Stripped(s, IsBlankChar);
    hide LStrip, BomAfterSpace;
    if BomAfterSpace(s, false) { BomHidesKeyword(t, word); }
    var k :| k in FORBIDDEN_STATEMENTS && KeywordAt(t, k, word);
    p, v := t[..|k|], t[|k|..];
    assert t == p + v && s == u + p + v;
  }

  /**
   * A text is forbidden if and only if, with its comments gone, one of the four words, in any case and
   * up to its end, stands behind the leading blanks, and no byte order mark among them hides it.
   */
  lemma {:induction false} ForbiddenExactly(sql: string, word: char -> bool)
    ensures Guard(sql, word) == Forbidden <==> exists u, p, v :: IsForbiddenText(Outside(sql), u, p, v, word)
  {
    var s := Outside(sql);
    assert Guard(sql, word) == Forbidden <==> IsForbidden(LStrip(s, IsDropped), word);
    hide Outside, Guard, BomAfterSpace, LStrip, IsForbidden, IsForbiddenText;
    if IsForbidden(LStrip(s, IsDropped), word) {
      var u, p, v := ForbiddenHasWord(s, word);
      assert IsForbiddenText(Outside(sql), u, p, v, word);
    } else if u, p, v :| IsForbiddenText(s, u, p, v, word) {
      TextForbids(s, u, p, v, word);
    }
  }

  /** Text without quotes, dashes and slashes is left alone, whatever follows. */
  lemma {:induction false} PlainInFront(p: string, rest: string)
    requires forall i :: 0 <= i < |p| ==> !IsQuote(p[i]) && p[i] != '-' && p[i] != '/'
    ensures Outside(p + rest) == p + Outside(rest)
    decreases |p|
  {
    if p == "" {
      assert p + rest == rest;
    } else {
      assert (p + rest)[1..] == p[1..] + rest;
      PlainInFront(p[1..], rest);
    }
  }

  lemma {:induction false} NoBomBehind(p: string, s: string)
    requires (forall i :: 0 <= i < |p| ==> IsDropped(p[i])) && (s == "" || !IsBlankChar(s[0]))
    ensures !BomAfterSpace(p + s, false)
    decreases |p|
  {
    if p == "" {
      assert p + s == s;
    } else {
      assert (p + s)[1..] == p[1..] + s;
      NoBomBehind(p[1..], s);
    }
  }

  /**
   * Nothing written in front hides one of the four words: behind any sequence of complete comments,
   * dropped white space and byte order marks, in any case, it is forbidden.
   */
  lemma {:induction false} WordIsForbidden(pieces: seq<Piece>, p: string, rest: string, word: char -> bool)
    requires AllComplete(pieces) && forall i :: 0 <= i < |pieces| ==> IsDropped(pieces[i].Shown())
    requires IsForbiddenWord(p) && EndsWord(Outside(rest), word)
    ensures Guard(Front(pieces) + (p + rest), word) == Forbidden
  {
    var u, v := ShownFront(pieces), Outside(rest);
    var sql := Front(pieces) + (p + rest);
    FrontOfWord(pieces, p, rest);
    hide Outside, Guard, Front, ShownFront, BomAfterSpace, IsForbiddenWord;
    assert IsForbiddenText(Outside(sql), u, p, v, word);
    ForbiddenExactly(sql, word);
  }

  lemma {:induction false} FrontOfWord(pieces: seq<Piece>, p: string, rest: string)
    requires AllComplete(pieces) && (forall i :: 0 <= i < |pieces| ==> IsDropped(pieces[i].Shown()))
        && IsForbiddenWord(p)
    ensures var s, u := Outside(Front(pieces) + (p + rest)), ShownFront(pieces);
            s == u + p + Outside(rest) && AllBlank(u) && !BomAfterSpace(s, false)
  {
    WordsAreLetters(p);
    PlainInFront(p, rest);
    BehindFront(pieces, p + rest);
    ShownDropped(pieces);
    hide Outside, Front, ShownFront, IsForbiddenWord, BomAfterSpace;
    var u, v := ShownFront(pieces), Outside(rest);
    assert (p + v)[0] == p[0];
    NoBomBehind(u, p + v);
    assert u + (p + v) == u + p + v;
  }

  // ---------------------------------------------------------------- literals

  /** A text as it is written inside quotes: every such quote in it doubled. */
  function Doubled(text: string, q: char): string {
    if text == "" then ""
    else (if text[0] == q then [q, q] else [text[0]]) + Doubled(text[1..], q)
  }

  lemma {:induction false} InsideIsVerbatim(q: char, text: string, rest: string)
    requires rest == "" || rest[0] != q
    ensures Inside(q, Doubled(text, q) + [q] + rest) == Doubled(text, q) + [q] + Outside(rest)
    decreases |text|
  {
    var tail := Doubled(text, q) + [q] + rest;
    if text == "" {
      assert tail == [q] + rest && tail[1..] == rest;
    } else {
      var more := Doubled(text[1..], q) + [q] + rest;
      InsideIsVerbatim(q, text[1..], rest);
      if text[0] == q {
        assert tail == [q, q] + more && tail[2..] == more;
      } else {
        assert tail == [text[0]] + more && tail[1..] == more;
      }
    }
  }

  /** Whatever is written between single or double quotes stays as it is, dashes, stars and slashes included. */
  lemma {:induction false} QuotedIsVerbatim(q: char, text: string, rest: string)
    requires q == '\'' || q == '"'
    requires rest == "" || rest[0] != q
    ensures var literal := [q] + Doubled(text, q) + [q];
            Outside(literal + rest) == literal + Outside(rest)
  {
    var body := Doubled(text, q) + [q] + rest;
    assert [q] + Doubled(text, q) + [q] + rest == [q] + body && ([q] + body)[1..] == body;
    InsideIsVerbatim(q, text, rest);
  }

  // ---------------------------------------------------------------- accepted and stacked

  predicate AllSpace(s: string) {
    forall i :: 0 <= i < |s| ==> IsSpace(s[i])
  }

  predicate AllSemicolons(s: string) {
    forall i :: 0 <= i < |s| ==> s[i] == ';'
  }

  /**
   * One statement and what may follow it: perhaps a semicolon with white space behind it, then
   * semicolons, then white space.
   */
  predicate IsSingle(s: string, b: string, m: string, n: string, v: string) {
    && s == b + m + n + v && (forall i :: 0 <= i < |b| ==> b[i] != ';') && AllSemicolons(n) && AllSpace(v)
    && (m == "" || (|m| > 1 && m[0] == ';' && AllSpace(m[1..])))
  }

  lemma NoSemicolonNotStacked(b: string)
    requires forall i :: 0 <= i < |b| ==> b[i] != ';'
    ensures !IsStacked(b)
  {}

  lemma SpaceBehindNotStacked(b: string, m: string)
    requires (forall i :: 0 <= i < |b| ==> b[i] != ';') && |m| > 1 && m[0] == ';' && AllSpace(m[1..])
    ensures !IsStacked(b + m)
  {
    var t := b + m;
    assert t[|b|] == ';';
    forall j | |b| < j < |t| ensures IsSpace(t[j]) { assert t[j] == m[1..][j - |b| - 1]; }
  }

  lemma {:induction false} SingleIsNotStacked(s: string, b: string, m: string, n: string, v: string)
    requires IsSingle(s, b, m, n, v)
    ensures !IsStacked(Trimmed(s))
  {
    DropBack(b + m + n, v, IsSpace);
    hide IsStacked, StackedAt;
    if n != "" {
      RStripAppend(b + m, n, IsSpace);
      assert RStrip(n, IsSpace) == n;
      DropBack(b + m, n, IsSemicolon);
      assert Trimmed(s) == RStrip(b + m, IsSemicolon);
      if m == "" {
        assert b + m == b;
        NoSemicolonNotStacked(b);
      } else {
        assert (b + m)[|b + m| - 1] == m[1..][|m| - 2];
        SpaceBehindNotStacked(b, m);
      }
    } else {
      assert b + m + n == b + m;
      OnlySpaceBehind(b, m);
    }
  }

  lemma {:induction false} OnlySpaceBehind(b: string, m: string)
    requires forall i :: 0 <= i < |b| ==> b[i] != ';'
    requires m == "" || (|m| > 1 && m[0] == ';' && AllSpace(m[1..]))
    ensures !IsStacked(RStrip(RStrip(b + m, IsSpace), IsSemicolon))
  {
    var t := RStrip(b + m, IsSpace);
    if m == "" {
      assert b + m == b;
      RStripPrefix(b, IsSpace);
    } else {
      assert b + m == b + [';'] + m[1..];
      DropBack(b + [';'], m[1..], IsSpace);
      assert t == b + [';'];
      DropBack(b, [';'], IsSemicolon);
      RStripPrefix(b, IsSemicolon);
    }
    RStripPrefix(t, IsSemicolon);
    NoSemicolonNotStacked(RStrip(t, IsSemicolon));
  }

  lemma {:induction false} FirstSemicolon(t: string) returns (i: nat)
    ensures i <= |t| && (i < |t| ==> t[i] == ';') && forall j :: 0 <= j < i ==> t[j] != ';'
  {
    if t == "" || t[0] == ';' { return 0; }
    var k := FirstSemicolon(t[1..]);
    assert forall j :: 0 < j < k + 1 ==> t[j] == t[1..][j - 1];
    i := k + 1;
  }

  lemma {:induction false} NotStackedIsSingle(s: string) returns (b: string, m: string, n: string, v: string)
    requires !IsStacked(Trimmed(s))
    ensures IsSingle(s, b, m, n, v)
  {
    var inner, t := RStrip(s, IsSpace), Trimmed(s);
    v := RStripped(s, IsSpace);
    n := RStripped(inner, IsSemicolon);
    RStripEnds(inner, IsSemicolon);
    var i := FirstSemicolon(t);
    b, m := t[..i], t[i..];
    if i < |t| {
      assert t[|t| - 1] != ';' && |m| > 1;
      forall j | 0 <= j < |m[1..]| ensures IsSpace(m[1..][j]) {
        assert m[1..][j] == t[i + 1 + j];
        if !IsSpace(t[i + 1 + j]) { FirstNonSpace(t, i, i + 1 + j); }
      }
    }
    assert t == b + m && inner == t + n && s == inner + v;
  }

  /** A text that is not forbidden is accepted if and only if its statement is a single one in this form. */
  lemma {:induction false} AcceptedExactly(sql: string, word: char -> bool)
    requires Guard(sql, word) != Forbidden
    ensures Guard(sql, word) == Accepted <==> exists b, m, n, v :: IsSingle(Statement(sql), b, m, n, v)
  {
    var s := Statement(sql);
    hide Statement, IsForbidden, IsStacked, Trimmed;
    if Guard(sql, word) == Accepted {
      var b, m, n, v := NotStackedIsSingle(s);
    }
    if b, m, n, v :| IsSingle(s, b, m, n, v) {
      SingleIsNotStacked(s, b, m, n, v);
    }
  }
}
