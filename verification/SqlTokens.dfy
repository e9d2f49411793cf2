/** The comment stripper against a tokenizer: what is kept, what is dropped, and that nothing new appears. */
module SqlTokens {
  import opened Text
  import opened SqlComments

  datatype Token = Literal(text: string) | LineComment(text: string) | BlockComment(text: string) | Plain(c: char)
  {
    function Source(): string {
      if Plain? then [c] else text
    }
  }

  /** How many characters after an opening quote belong to the literal. */
  function LiteralEnd(quote: char, s: string): (n: nat)
    ensures n <= |s|
    decreases |s|
  {
    if s == "" then 0
    else if s[0] != quote then 1 + LiteralEnd(quote, s[1..])
    else if StartsWith(s, quote, quote) then 2 + LiteralEnd(quote, s[2..])
    else 1
  }

  function FirstToken(s: string): (t: Token)
    requires s != ""
    ensures 0 < |t.Source()| <= |s| && t.Source() == s[..|t.Source()|]
  {
    if IsQuote(s[0]) then Literal(s[..1 + LiteralEnd(s[0], s[1..])])
    else if StartsWith(s, '-', '-') then LineComment(s[..LineEnd(s)])
    else if StartsWith(s, '/', '*') then BlockComment(s[..2 + CloseEnd(s[2..])])
    else Plain(s[0])
  }

  function Tokens(s: string): seq<Token>
    decreases |s|
  {
    if s == "" then [] else [FirstToken(s)] + Tokens(s[|FirstToken(s).Source()|..])
  }

  function Render(tokens: seq<Token>): string {
    if tokens == [] then "" else tokens[0].Source() + Render(tokens[1..])
  }

  /** The tokenizer loses nothing: reading the tokens off again gives the input. */
  lemma {:induction false} TokensAreLossless(s: string)
    ensures Render(Tokens(s)) == s
    decreases |s|
  {
    if s != "" {
      hide FirstToken;
      var t := FirstToken(s);
      var rest := s[|t.Source()|..];
      assert Tokens(s) == [t] + Tokens(rest);
      hide Tokens;
      TokensAreLossless(rest);
      assert ([t] + Tokens(rest))[1..] == Tokens(rest);
      assert s == t.Source() + rest;
    }
  }

  /** What becomes of one token: a literal is kept, a block comment is a space, a line comment is nothing. */
  function Cleaned(t: Token): seq<Token> {
    match t
    case LineComment(_) => []
    case BlockComment(_) => [Plain(' ')]
    case _ => [t]
  }

  function CleanText(t: Token): string {
    match t
    case LineComment(_) => ""
    case BlockComment(_) => " "
    case _ => t.Source()
  }

  lemma RenderCleaned(t: Token)
    ensures Render(Cleaned(t)) == CleanText(t)
  {
    assert Render([]) == "";
    if Cleaned(t) != [] { assert Cleaned(t)[1..] == []; }
  }

  function Clean(tokens: seq<Token>): seq<Token> {
    if tokens == [] then [] else Cleaned(tokens[0]) + Clean(tokens[1..])
  }

  lemma {:induction false} RenderAppend(first: seq<Token>, second: seq<Token>)
    ensures Render(first + second) == Render(first) + Render(second)
  {
    if first == [] {
      assert first + second == second;
    } else {
      assert (first + second)[1..] == first[1..] + second;
      RenderAppend(first[1..], second);
    }
  }

  lemma Reassemble(s: string, k: nat, n: nat)
    requires k <= n <= |s|
    ensures s[k..][n - k..] == s[n..] && s[..k] + s[k..][..n - k] == s[..n]
  {}

  lemma {:induction false} InsideIsLiteral(quote: char, s: string)
    ensures Inside(quote, s) == s[..LiteralEnd(quote, s)] + Outside(s[LiteralEnd(quote, s)..])
    decreases |s|
  {
    if s != "" {
      var n := LiteralEnd(quote, s);
      var k := if s[0] == quote && StartsWith(s, quote, quote) then 2 else 1;
      if s[0] == quote && k == 1 {
        assert s[..1] == [quote];
      } else {
        assert s[..k] == if k == 1 then [s[0]] else [quote, quote];
        assert Inside(quote, s) == s[..k] + Inside(quote, s[k..]) && n == k + LiteralEnd(quote, s[k..]);
        hide Inside, Outside, LiteralEnd;
        InsideIsLiteral(quote, s[k..]);
        Reassemble(s, k, n);
      }
    }
  }

  /** One token at the front of the input is one token's worth at the front of the output. */
  lemma {:induction false} OneToken(s: string)
    requires s != ""
    ensures var t := FirstToken(s);
            Outside(s) == CleanText(t) + Outside(s[|t.Source()|..])
  {
    hide Inside, LiteralEnd, LineEnd, CloseEnd;
    if IsQuote(s[0]) {
      OneLiteral(s);
    } else if StartsWith(s, '-', '-') {
      assert "" + Outside(s[LineEnd(s)..]) == Outside(s[LineEnd(s)..]);
    }
  }

  lemma {:induction false} OneLiteral(s: string)
    requires s != "" && IsQuote(s[0])
    ensures var n := 1 + LiteralEnd(s[0], s[1..]);
            Outside(s) == s[..n] + Outside(s[n..])
  {
    var n := LiteralEnd(s[0], s[1..]);
    assert Outside(s) == s[..1] + Inside(s[0], s[1..]);
    InsideIsLiteral(s[0], s[1..]);
    hide Inside, Outside, LiteralEnd;
    Reassemble(s, 1, 1 + n);
  }

  /** The stripper refines the tokenizer: it renders the cleaned tokens. */
  lemma {:induction false} StripsTokens(s: string)
    ensures Outside(s) == Render(Clean(Tokens(s)))
    decreases |s|
  {
    if s != "" {
      var t := FirstToken(s);
      var rest := s[|t.Source()|..];
      OneToken(s);
      StripsTokens(rest);
      assert Tokens(s)[1..] == Tokens(rest);
      RenderCleaned(t);
      RenderAppend(Cleaned(t), Clean(Tokens(rest)));
    }
  }

  // ---------------------------------------------------------------- reading the output again

  /** The output starts with what the input starts with, or with the trace of a comment. */
  lemma {:induction false} FirstChar(s: string)
    ensures Outside(s) != "" ==> s != "" && (Outside(s)[0] == s[0] || Outside(s)[0] == ' ' || Outside(s)[0] == '\n')
    decreases |s|
  {
    if s != "" && !IsQuote(s[0]) && StartsWith(s, '-', '-') { FirstChar(s[LineEnd(s)..]); }
  }

  /** A literal ends where it ended, whatever comes after it, as long as that is not its own quote. */
  lemma {:induction false} LiteralStays(quote: char, s: string, tail: string)
    requires tail == "" || (LiteralEnd(quote, s) < |s| && tail[0] != quote)
    ensures LiteralEnd(quote, s[..LiteralEnd(quote, s)] + tail) == LiteralEnd(quote, s)
    decreases |s|
  {
    var n := LiteralEnd(quote, s);
    if s == "" {
      assert s[..n] + tail == "";
    } else if s[0] != quote {
      LiteralStays(quote, s[1..], tail);
      assert (s[..n] + tail)[1..] == s[1..][..n - 1] + tail;
    } else if StartsWith(s, quote, quote) {
      LiteralStays(quote, s[2..], tail);
      assert (s[..n] + tail)[2..] == s[2..][..n - 2] + tail;
    }
  }

  /** What follows a closed literal does not start with its quote. */
  lemma {:induction false} AfterLiteral(quote: char, s: string)
    requires LiteralEnd(quote, s) < |s|
    ensures s[LiteralEnd(quote, s)] != quote
    decreases |s|
  {
    if s[0] != quote {
      AfterLiteral(quote, s[1..]);
    } else if StartsWith(s, quote, quote) {
      AfterLiteral(quote, s[2..]);
    }
  }

  lemma {:induction false} LiteralAgain(s: string)
    requires s != "" && IsQuote(s[0])
    ensures var t := FirstToken(s);
            var out := t.text + Outside(s[|t.text|..]);
            out != "" && FirstToken(out) == t
  {
    var quote, body := s[0], s[1..];
    var n := LiteralEnd(quote, body);
    var rest := Outside(s[1 + n..]);
    FirstChar(s[1 + n..]);
    if n < |body| { AfterLiteral(quote, body); }
    LiteralStays(quote, body, rest);
    assert (s[..1 + n] + rest)[1..] == body[..n] + rest;
  }

  lemma {:induction false} PlainAgain(s: string)
    requires s != "" && FirstToken(s).Plain?
    ensures FirstToken([s[0]] + Outside(s[1..])) == Plain(s[0])
  {
    FirstChar(s[1..]);
  }

  /** One more token at the front of a string. */
  lemma {:induction false} TokensFront(t: Token, rest: string)
    requires t.Source() != "" && FirstToken(t.Source() + rest) == t
    ensures Tokens(t.Source() + rest) == [t] + Tokens(rest)
  {
    assert (t.Source() + rest)[|t.Source()|..] == rest;
  }

  /** One cleaned token at the front of the output is read as that token again. */
  lemma {:induction false} TokenAgain(s: string)
    requires s != ""
    ensures var t := FirstToken(s);
            var rest := Outside(s[|t.Source()|..]);
            Tokens(CleanText(t) + rest) == Cleaned(t) + Tokens(rest)
  {
    var t := FirstToken(s);
    var rest := Outside(s[|t.Source()|..]);
    match t
    case Literal(_) =>
      LiteralAgain(s);
      TokensFront(t, rest);
    case Plain(_) =>
      PlainAgain(s);
      TokensFront(t, rest);
    case LineComment(_) => assert "" + rest == rest;
    case BlockComment(_) =>
      TokensFront(Plain(' '), rest);
  }

  /**
   * Tokenizing the output gives the cleaned tokens of the input: every literal is there,
   * verbatim and in order, and no comment opens that was not one, terminated or not.
   */
  lemma {:induction false} OutputTokens(s: string)
    ensures Tokens(Outside(s)) == Clean(Tokens(s))
    decreases |s|
  {
    if s != "" {
      var t := FirstToken(s);
      var rest := s[|t.Source()|..];
      OneToken(s);
      OutputTokens(rest);
      assert Tokens(s) == [t] + Tokens(rest) && ([t] + Tokens(rest))[1..] == Tokens(rest);
      TokenAgain(s);
      hide Outside, Tokens, FirstToken;
    }
  }

  predicate IsComment(t: Token) {
    t.LineComment? || t.BlockComment?
  }

  predicate HasComment(tokens: seq<Token>) {
    exists i :: 0 <= i < |tokens| && IsComment(tokens[i])
  }

  lemma {:induction false} CleanHasNone(tokens: seq<Token>)
    ensures !HasComment(Clean(tokens))
  {
    if tokens != [] {
      CleanHasNone(tokens[1..]);
      var first, rest := Cleaned(tokens[0]), Clean(tokens[1..]);
      forall i | 0 <= i < |first + rest| ensures !IsComment((first + rest)[i]) {
        if i >= |first| { assert (first + rest)[i] == rest[i - |first|]; }
      }
    }
  }

  /** Nothing is left to clean when there is no comment. */
  lemma {:induction false} CleanOfClean(tokens: seq<Token>)
    requires !HasComment(tokens)
    ensures Clean(tokens) == tokens
  {
    if tokens != [] {
      assert !IsComment(tokens[0]);
      forall i | 0 <= i < |tokens[1..]| ensures !IsComment(tokens[1..][i]) {
        assert tokens[1..][i] == tokens[i + 1];
      }
      CleanOfClean(tokens[1..]);
    }
  }

  /** No comment is left in the output, and stripping again changes nothing. */
  lemma {:induction false} StripIsIdempotent(s: string)
    ensures !HasComment(Tokens(Outside(s))) && Outside(Outside(s)) == Outside(s)
  {
    OutputTokens(s);
    CleanHasNone(Tokens(s));
    CleanOfClean(Clean(Tokens(s)));
    StripsTokens(Outside(s));
    StripsTokens(s);
  }
}
