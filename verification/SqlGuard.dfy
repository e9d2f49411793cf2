/**
 * `guard_sandbox_sql` of `src/userbot/storage.py`: what comments in front cannot hide, and what
 * acceptance promises.
 */
module SqlGuard {
  import opened Text
  import opened SqlComments
  import opened SqlTokens

  datatype Verdict = Accepted | Forbidden | Stacked

  const BOM := '\U{FEFF}'
  const FORBIDDEN_STATEMENTS := {"attach", "detach", "pragma", "vacuum"}

  predicate IsPlainSpace(c: char) {
    c == ' ' || c == '\t' || c == '\r' || c == '\n'
  }

  /** The characters the guard strips from the front itself. */
  predicate IsDropped(c: char) {
    c == BOM || IsPlainSpace(c)
  }

  function Statement(sql: string): string {
    LStrip(Outside(sql), IsDropped)
  }

  /** The keyword, in any case, up to a word boundary. `word` says which characters `\w` matches. */
  predicate KeywordAt(s: string, keyword: string, word: char -> bool) {
    |keyword| <= |s| && Lower(s[..|keyword|]) == keyword && (|s| == |keyword| || !word(s[|keyword|]))
  }

  /** `FORBIDDEN_SQL`: optional white space, then one of the keywords. */
  predicate IsForbidden(s: string, word: char -> bool) {
    exists k :: k in FORBIDDEN_STATEMENTS && KeywordAt(LStrip(s, IsSpace), k, word)
  }

  /** `STACKED_STATEMENT`: a semicolon, white space, then something else. */
  predicate IsStacked(s: string) {
    exists i, j :: 0 <= i < j < |s| && StackedAt(s, i, j)
  }

  predicate StackedAt(s: string, i: nat, j: nat)
    requires i < j < |s|
  {
    s[i] == ';' && !IsSpace(s[j]) && forall k :: i < k < j ==> IsSpace(s[k])
  }

  predicate IsSemicolon(c: char) {
    c == ';'
  }

  /** The statement without trailing white space and the semicolons before it. */
  function Trimmed(s: string): string {
    RStrip(RStrip(s, IsSpace), IsSemicolon)
  }

  function Guard(sql: string, word: char -> bool): Verdict {
    var statement := Statement(sql);
    if IsForbidden(statement, word) then Forbidden
    else if IsStacked(Trimmed(statement)) then Stacked
    else Accepted
  }

  // ---------------------------------------------------------------- what stands in front of a statement

  datatype Piece = Blank(c: char) | Block(body: string) | Line(body: string) {
    function Source(): string {
      match this
      case Blank(c) => [c]
      case Block(body) => "/*" + body
      case Line(body) => "--" + body
    }

    /** A blank character, a block comment closed by its first star-slash, or a line comment with its newline. */
    predicate Complete() {
      match this
      case Blank(c) => IsBlankChar(c)
      case Block(body) => Closes(body)
      case Line(body) => body != "" && LineEnd(body) == |body| - 1
    }

    /** What is left of it when the comments are gone. */
    function Shown(): char {
      match this
      case Blank(c) => c
      case Block(_) => ' '
      case Line(_) => '\n'
    }
  }

  /** White space of any kind, or a byte order mark. */
  predicate IsBlankChar(c: char) {
    IsSpace(c) || c == BOM
  }

  predicate Closes(body: string) {
    && |body| >= 2 && StartsWith(body[|body| - 2..], '*', '/')
    && forall i :: 0 <= i < |body| - 2 ==> !(body[i] == '*' && body[i + 1] == '/')
  }

  lemma {:induction false} CloseEndIs(body: string, tail: string)
    requires Closes(body)
    ensures CloseEnd(body + tail) == |body|
    decreases |body|
  {
    var s := body + tail;
    assert s[0] == body[0] && s[1] == body[1];
    if |body| > 2 {
      assert body[1..][|body| - 3..] == body[|body| - 2..];
      assert s[1..] == body[1..] + tail;
      forall i | 0 <= i < |body[1..]| - 2 ensures !(body[1..][i] == '*' && body[1..][i + 1] == '/') {
        assert body[1..][i] == body[i + 1] && body[1..][i + 1] == body[i + 2];
      }
      CloseEndIs(body[1..], tail);
    }
  }

  lemma {:induction false} LineEndIs(body: string, tail: string)
    requires body != "" && LineEnd(body) == |body| - 1
    ensures LineEnd("--" + body + tail) == |body| + 1
  {
    var s := "--" + body + tail;
    var n := LineEnd(s);
    assert s[|body| + 1] == body[|body| - 1] == '\n';
    forall i | 0 <= i < |body| + 1 ensures s[i] != '\n' {
      if i >= 2 { assert s[i] == body[i - 2]; }
    }
  }

  lemma {:induction false} BehindBlock(body: string, sql: string)
    requires Closes(body)
    ensures Outside("/*" + body + sql) == [' '] + Outside(sql)
  {
    var s := "/*" + body + sql;
    CloseEndIs(body, sql);
    assert s[2..] == body + sql && s[2 + |body|..] == sql;
    hide CloseEnd, Inside;
  }

  lemma {:induction false} BehindLine(body: string, sql: string)
    requires body != "" && LineEnd(body) == |body| - 1
    ensures Outside("--" + body + sql) == ['\n'] + Outside(sql)
  {
    var s := "--" + body + sql;
    LineEndIs(body, sql);
    assert s[|body| + 1] == body[|body| - 1];
    assert s[|body| + 1..] == ['\n'] + sql && (['\n'] + sql)[1..] == sql;
    hide LineEnd, Inside;
    assert Outside(s) == Outside(s[|body| + 1..]);
  }

  lemma {:induction false} BehindPiece(p: Piece, sql: string)
    requires p.Complete()
    ensures IsBlankChar(p.Shown()) && Outside(p.Source() + sql) == [p.Shown()] + Outside(sql)
  {
    match p
    case Blank(blank) => assert ([blank] + sql)[1..] == sql;
    case Block(body) => BehindBlock(body, sql);
    case Line(body) => BehindLine(body, sql);
  }

  function Front(pieces: seq<Piece>): string {
    if pieces == [] then "" else pieces[0].Source() + Front(pieces[1..])
  }

  function ShownFront(pieces: seq<Piece>): string {
    if pieces == [] then "" else [pieces[0].Shown()] + ShownFront(pieces[1..])
  }

  predicate AllComplete(pieces: seq<Piece>) {
    forall i :: 0 <= i < |pieces| ==> pieces[i].Complete()
  }

  /** In front of a statement, a piece is one blank character to the guard. */
  lemma {:induction false} BehindFront(pieces: seq<Piece>, sql: string)
    requires AllComplete(pieces)
    ensures Outside(Front(pieces) + sql) == ShownFront(pieces) + Outside(sql)
    ensures forall i :: 0 <= i < |ShownFront(pieces)| ==> IsBlankChar(ShownFront(pieces)[i])
    decreases |pieces|
  {
    if pieces == [] {
      assert Front(pieces) + sql == sql;
    } else {
      var rest := Front(pieces[1..]) + sql;
      BehindFront(pieces[1..], sql);
      assert Front(pieces) + sql == pieces[0].Source() + rest;
      hide Outside, Front;
      BehindPiece(pieces[0], rest);
    }
  }

  lemma {:induction false} ShownDropped(pieces: seq<Piece>)
    requires forall i :: 0 <= i < |pieces| ==> IsDropped(pieces[i].Shown())
    ensures forall i :: 0 <= i < |ShownFront(pieces)| ==> IsDropped(ShownFront(pieces)[i])
    decreases |pieces|
  {
    if pieces != [] { ShownDropped(pieces[1..]); }
  }

  /** Comments and dropped white space in front of a statement never change the statement the guard looks at. */
  lemma {:induction false} FrontIsTransparent(pieces: seq<Piece>, sql: string)
    requires AllComplete(pieces) && forall i :: 0 <= i < |pieces| ==> IsDropped(pieces[i].Shown())
    ensures Statement(Front(pieces) + sql) == Statement(sql)
  {
    BehindFront(pieces, sql);
    ShownDropped(pieces);
    DropFront(ShownFront(pieces), Outside(sql), IsDropped);
  }

  /** Hence the verdict does not change either. */
  lemma {:induction false} VerdictBehindComments(pieces: seq<Piece>, sql: string, word: char -> bool)
    requires AllComplete(pieces) && forall i :: 0 <= i < |pieces| ==> IsDropped(pieces[i].Shown())
    ensures Guard(Front(pieces) + sql, word) == Guard(sql, word)
  {
    FrontIsTransparent(pieces, sql);
  }

  // ---------------------------------------------------------------- other white space in front

  /** Among the leading blanks, a byte order mark follows white space that the guard does not drop itself. */
  predicate BomAfterSpace(s: string, seen: bool) {
    && s != "" && IsBlankChar(s[0])
    && ((seen && s[0] == BOM) || BomAfterSpace(s[1..], seen || !IsDropped(s[0])))
  }

  /** Where the pattern looks for a keyword in a text the guard has stripped. */
  function Looked(s: string): string {
    LStrip(LStrip(s, IsDropped), IsSpace)
  }

  lemma {:induction false} BehindUndropped(s: string)
    ensures var t := LStrip(s, IsSpace);
            if BomAfterSpace(s, true) then t != "" && t[0] == BOM else t == LStrip(s, IsBlankChar)
    decreases |s|
  {
    if s != "" && IsSpace(s[0]) { BehindUndropped(s[1..]); }
  }

  /** The pattern gets behind all the leading blanks unless such a byte order mark stops it. */
  lemma {:induction false} LookedExactly(s: string)
    ensures var t := Looked(s);
            if BomAfterSpace(s, false) then t != "" && t[0] == BOM else t == LStrip(s, IsBlankChar)
    decreases |s|
  {
    if s != "" && IsDropped(s[0]) {
      LookedExactly(s[1..]);
    } else if s != "" && IsSpace(s[0]) {
      BehindUndropped(s[1..]);
      BehindUndropped(s);
    }
  }

  lemma {:induction false} SeenMatters(s: string, seen: bool)
    requires BomAfterSpace(s, false)
    ensures BomAfterSpace(s, seen)
    decreases |s|
  {
    if BomAfterSpace(s[1..], !IsDropped(s[0])) && seen {
      if IsDropped(s[0]) { SeenMatters(s[1..], true); }
    }
  }

  lemma {:induction false} StopsBehindFront(p: string, s: string, seen: bool)
    requires BomAfterSpace(s, false) && forall i :: 0 <= i < |p| ==> IsBlankChar(p[i])
    ensures BomAfterSpace(p + s, seen)
    decreases |p|
  {
    if p == "" {
      assert p + s == s;
      SeenMatters(s, seen);
    } else {
      assert (p + s)[1..] == p[1..] + s;
      StopsBehindFront(p[1..], s, seen || !IsDropped(p[0]));
    }
  }

  /** Behind a byte order mark nothing is a keyword to the pattern. */
  lemma BomHidesKeyword(t: string, word: char -> bool)
    requires t != "" && t[0] == BOM
    ensures forall k :: k in FORBIDDEN_STATEMENTS ==> !KeywordAt(t, k, word)
  {
    forall k | k in FORBIDDEN_STATEMENTS ensures !KeywordAt(t, k, word) {
      if |k| <= |t| { assert Lower(t[..|k|])[0] == LowerChar(t[0]); }
    }
  }

  lemma StackedShifted(p: string, s: string)
    requires forall i :: 0 <= i < |p| ==> p[i] != ';'
    ensures IsStacked(p + s) == IsStacked(s)
  {
    var t := p + s;
    if i, j :| 0 <= i < j < |t| && StackedAt(t, i, j) {
      assert i >= |p|;
      assert s[i - |p|] == t[i] && s[j - |p|] == t[j];
      forall k | i - |p| < k < j - |p| ensures IsSpace(s[k]) { assert s[k] == t[k + |p|]; }
      assert StackedAt(s, i - |p|, j - |p|);
    }
    if i, j :| 0 <= i < j < |s| && StackedAt(s, i, j) {
      forall k | i + |p| < k < j + |p| ensures IsSpace(t[k]) { assert t[k] == s[k - |p|]; }
      assert StackedAt(t, i + |p|, j + |p|);
    }
  }

  /** Text without a semicolon in front of a statement does not change whether something is stacked behind it. */
  lemma StackedBehind(p: string, s: string)
    requires forall i :: 0 <= i < |p| ==> p[i] != ';'
    ensures IsStacked(Trimmed(p + s)) == IsStacked(Trimmed(s))
  {
    var inner := RStrip(s, IsSpace);
    RStripAppend(p, s, IsSpace);
    RStripAppend(p, inner, IsSemicolon);
    if inner != "" && Trimmed(s) != "" {
      StackedShifted(p, Trimmed(s));
    } else {
      RStripPrefix(p, IsSpace);
      RStripPrefix(p, IsSemicolon);
      RStripPrefix(RStrip(p, IsSpace), IsSemicolon);
      StackedShifted(Trimmed(p + s), "");
      assert Trimmed(p + s) + "" == Trimmed(p + s);
    }
  }

  lemma NoSemicolons(p: string)
    requires forall i :: 0 <= i < |p| ==> IsBlankChar(p[i])
    ensures forall i :: 0 <= i < |p| ==> p[i] != ';'
  {}

  /** What blanks in front do to the two patterns. */
  lemma {:induction false} BlanksInFront(p: string, s: string, word: char -> bool)
    requires forall i :: 0 <= i < |p| ==> IsBlankChar(p[i])
    ensures IsForbidden(LStrip(p + s, IsDropped), word)
            <==> IsForbidden(LStrip(s, IsDropped), word) && !BomAfterSpace(p + s, false)
    ensures IsStacked(Trimmed(LStrip(p + s, IsDropped))) == IsStacked(Trimmed(LStrip(s, IsDropped)))
  {
    KeywordsBehindBlanks(p, s, word);
    hide LStrip, IsStacked, IsForbidden, BomAfterSpace, Trimmed;
    NoSemicolons(p);
    StackedBehind(p, s);
    var q := Stripped(p + s, IsDropped);
    NoSemicolons(q);
    StackedBehind(q, LStrip(p + s, IsDropped));
    var r := Stripped(s, IsDropped);
    NoSemicolons(r);
    StackedBehind(r, LStrip(s, IsDropped));
  }

  lemma {:induction false} KeywordsBehindBlanks(p: string, s: string, word: char -> bool)
    requires forall i :: 0 <= i < |p| ==> IsBlankChar(p[i])
    ensures IsForbidden(LStrip(p + s, IsDropped), word)
            <==> IsForbidden(LStrip(s, IsDropped), word) && !BomAfterSpace(p + s, false)
  {
    LookedExactly(p + s);
    LookedExactly(s);
    if BomAfterSpace(p + s, false) { BomHidesKeyword(Looked(p + s), word); }
    if BomAfterSpace(s, false) {
      StopsBehindFront(p, s, false);
      BomHidesKeyword(Looked(s), word);
    }
    DropFront(p, s, IsBlankChar);
    hide LStrip, KeywordAt;
  }

  /**
   * White space of any kind, byte order marks and comments in front of a text, in any order, change
   * its verdict if and only if the text is forbidden and, with the comments gone, a byte order mark
   * comes to stand behind white space that the guard does not drop.
   */
  lemma {:induction false} VerdictBehindBlanks(pieces: seq<Piece>, sql: string, word: char -> bool)
    requires AllComplete(pieces)
    ensures Guard(Front(pieces) + sql, word) == Guard(sql, word)
            <==> !(IsForbidden(Statement(sql), word) && BomAfterSpace(Outside(Front(pieces) + sql), false))
  {
    BehindFront(pieces, sql);
    hide Front, ShownFront, IsStacked, IsForbidden, Outside;
    BlanksInFront(ShownFront(pieces), Outside(sql), word);
  }

  lemma {:induction false} NothingToStrip(s: string)
    requires forall i :: 0 <= i < |s| ==> !IsQuote(s[i]) && s[i] != '-' && s[i] != '/'
    ensures Outside(s) == s
    decreases |s|
  {
    if s != "" { NothingToStrip(s[1..]); }
  }

  lemma {:induction false} AttachIsForbidden(word: char -> bool)
    ensures IsForbidden("attach", word)
  {
    assert LStrip("attach", IsSpace) == "attach";
    assert "attach"[..6] == "attach" && Lower("attach") == "attach";
    assert KeywordAt(LStrip("attach", IsSpace), "attach", word);
  }

  lemma {:induction false} BehindBom()
    ensures Statement([BOM] + "attach") == "attach"
    ensures BomAfterSpace(Outside(['\U{A0}'] + ([BOM] + "attach")), false)
  {
    var sql := [BOM] + "attach";
    var s := ['\U{A0}'] + sql;
    NothingToStrip(sql);
    NothingToStrip(s);
    assert sql[1..] == "attach" && s[1..] == sql;
    assert LStrip(sql, IsDropped) == LStrip(sql[1..], IsDropped) == "attach";
    assert BomAfterSpace(sql, true);
  }

  /** A no-break space in front of a byte order mark does change the verdict. */
  lemma {:induction false} OtherSpaceCanChangeTheVerdict(word: char -> bool)
    ensures Guard([BOM] + "attach", word) == Forbidden
    ensures Guard(['\U{A0}'] + ([BOM] + "attach"), word) != Forbidden
  {
    AttachIsForbidden(word);
    BehindBom();
    assert Front([Blank('\U{A0}')]) == ['\U{A0}'];
    hide Front, Outside, LStrip, IsStacked, IsForbidden, BomAfterSpace, Statement;
    VerdictBehindBlanks([Blank('\U{A0}')], [BOM] + "attach", word);
  }

  // ---------------------------------------------------------------- what acceptance promises

  /** The tokens between semicolons that are not inside a literal. */
  function Segments(tokens: seq<Token>): (r: seq<seq<Token>>)
    ensures r != []
  {
    if tokens == [] then [[]]
    else
      var rest := Segments(tokens[1..]);
      if tokens[0] == Plain(';') then [[]] + rest else [[tokens[0]] + rest[0]] + rest[1..]
  }

  predicate IsBlank(segment: seq<Token>) {
    forall t :: t in segment ==> t.Plain? && IsSpace(t.c)
  }

  predicate EndsAt(s: string, i: nat) {
    forall j :: i < j < |s| ==> s[j] == ';' || IsSpace(s[j])
  }

  /** Behind any semicolon of a statement that is not stacked there is only white space and more semicolons. */
  lemma NothingBehind(s: string, i: nat)
    requires !IsStacked(Trimmed(s)) && i < |s| && s[i] == ';'
    ensures EndsAt(s, i)
  {
    var inner, t := RStrip(s, IsSpace), Trimmed(s);
    RStripPrefix(s, IsSpace);
    RStripPrefix(inner, IsSemicolon);
    forall j | i < j < |s| ensures s[j] == ';' || IsSpace(s[j]) {
      if j < |t| {
        assert t[i] == s[i];
        assert s[j] == t[j];
        if !IsSpace(t[j]) { FirstNonSpace(t, i, j); }
      } else if j < |inner| {
        assert s[j] == inner[j];
      }
    }
  }

  lemma {:induction false} FirstNonSpace(t: string, i: nat, j: nat)
    requires i < j < |t| && t[i] == ';' && !IsSpace(t[j])
    ensures IsStacked(t)
    decreases j
  {
    if k :| i < k < j && !IsSpace(t[k]) {
      FirstNonSpace(t, i, k);
    } else {
      assert StackedAt(t, i, j);
    }
  }

  /** Blank tokens make blank segments only. */
  lemma {:induction false} BlankSegments(tokens: seq<Token>)
    requires forall i :: 0 <= i < |tokens| ==> tokens[i] == Plain(';') || (tokens[i].Plain? && IsSpace(tokens[i].c))
    ensures forall k :: 0 <= k < |Segments(tokens)| ==> IsBlank(Segments(tokens)[k])
  {
    if tokens != [] { BlankSegments(tokens[1..]); }
  }

  lemma {:induction false} BlankTokens(s: string)
    requires forall j :: 0 <= j < |s| ==> s[j] == ';' || IsSpace(s[j])
    ensures |Tokens(s)| == |s| && forall j :: 0 <= j < |s| ==> Tokens(s)[j] == Plain(s[j])
    decreases |s|
  {
    if s != "" {
      assert FirstToken(s) == Plain(s[0]);
      assert Tokens(s) == [Plain(s[0])] + Tokens(s[1..]);
      BlankTokens(s[1..]);
      hide Tokens, FirstToken, IsSpace;
    }
  }

  lemma BlankTail(s: string)
    requires forall j :: 0 <= j < |s| ==> s[j] == ';' || IsSpace(s[j])
    ensures forall k :: 0 <= k < |Segments(Tokens(s))| ==> IsBlank(Segments(Tokens(s))[k])
  {
    BlankTokens(s);
    hide Tokens, IsSpace;
    BlankSegments(Tokens(s));
  }

  lemma TailOf(s: string)
    requires s != "" && EndsAt(s, 0)
    ensures forall j :: 0 <= j < |s[1..]| ==> s[1..][j] == ';' || IsSpace(s[1..][j])
  {}

  lemma EndsAtShifted(s: string, n: nat, i: nat)
    requires i + n < |s| && EndsAt(s, i + n)
    ensures EndsAt(s[n..], i)
  {}

  /** From the second on, the segments of a token list are segments of the rest. */
  lemma {:induction false} LaterSegments(t: Token, rest: seq<Token>)
    ensures var shift := if t == Plain(';') then 1 else 0;
            && |Segments([t] + rest)| == |Segments(rest)| + shift
            && forall k :: 1 <= k < |Segments([t] + rest)| ==> Segments([t] + rest)[k] == Segments(rest)[k - shift]
  {
    assert ([t] + rest)[1..] == rest;
  }

  lemma {:induction false} OneSegment(s: string)
    requires forall i :: 0 <= i < |s| && s[i] == ';' ==> EndsAt(s, i)
    ensures forall k :: 1 <= k < |Segments(Tokens(s))| ==> IsBlank(Segments(Tokens(s))[k])
    decreases |s|
  {
    if s != "" {
      var t := FirstToken(s);
      var n := |t.Source()|;
      assert Tokens(s) == [t] + Tokens(s[n..]) && Tokens(s)[1..] == Tokens(s[n..]);
      hide Tokens, FirstToken, EndsAt, Segments, IsBlank;
      LaterSegments(t, Tokens(s[n..]));
      if t == Plain(';') {
        assert s[0] == ';' && n == 1;
        TailOf(s);
        BlankTail(s[1..]);
      } else {
        forall i | 0 <= i < |s[n..]| && s[n..][i] == ';' ensures EndsAt(s[n..], i) {
          EndsAtShifted(s, n, i);
        }
        OneSegment(s[n..]);
      }
    }
  }

  /**
   * An accepted text is one statement: split at the semicolons outside its literals, all but the first
   * part are blank.
   */
  lemma AcceptedIsOneStatement(sql: string, word: char -> bool)
    requires Guard(sql, word) == Accepted
    ensures var parts := Segments(Tokens(Statement(sql)));
            forall k :: 1 <= k < |parts| ==> IsBlank(parts[k])
  {
    var s := Statement(sql);
    forall i | 0 <= i < |s| && s[i] == ';' ensures EndsAt(s, i) { NothingBehind(s, i); }
    OneSegment(s);
  }
}
