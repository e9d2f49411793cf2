/**
 * `strip_sql_comments` of `src/userbot/storage.py`: the loop, the recursion it computes, and what that
 * means for tokens.
 */
module SqlComments {
  import opened Text

  predicate IsQuote(c: char) {
    c == '\'' || c == '"'
  }

  predicate StartsWith(s: string, c: char, d: char) {
    |s| > 1 && s[0] == c && s[1] == d
  }

  /** `s.find("\n")`, or the end. */
  function LineEnd(s: string): (n: nat)
    ensures n <= |s| && (n < |s| ==> s[n] == '\n') && forall i :: 0 <= i < n ==> s[i] != '\n'
  {
    if s == "" || s[0] == '\n' then 0 else 1 + LineEnd(s[1..])
  }

  /** The end of the first star-slash, or the end. */
  function CloseEnd(s: string): (n: nat)
    ensures n <= |s|
  {
    if s == "" then 0 else if StartsWith(s, '*', '/') then 2 else 1 + CloseEnd(s[1..])
  }

  // ---------------------------------------------------------------- the recursion

  /** What is left of `s` outside a literal. */
  function Outside(s: string): string
    decreases |s|
  {
    if s == "" then ""
    else if IsQuote(s[0]) then [s[0]] + Inside(s[0], s[1..])
    else if StartsWith(s, '-', '-') then Outside(s[LineEnd(s)..])
    else if StartsWith(s, '/', '*') then " " + Outside(s[2 + CloseEnd(s[2..])..])
    else [s[0]] + Outside(s[1..])
  }

  /** What is left of `s` inside a literal opened by `quote`. */
  function Inside(quote: char, s: string): string
    decreases |s|
  {
    if s == "" then ""
    else if s[0] != quote then [s[0]] + Inside(quote, s[1..])
    else if StartsWith(s, quote, quote) then [quote, quote] + Inside(quote, s[2..])
    else [quote] + Outside(s[1..])
  }

  function Rest(quote: Option<char>, s: string): string {
    match quote
    case None => Outside(s)
    case Some(q) => Inside(q, s)
  }

  lemma {:induction false} InsideStep(quote: char, sql: string, i: nat)
    requires i < |sql|
    ensures Inside(quote, sql[i..]) ==
      if sql[i] != quote then [sql[i]] + Inside(quote, sql[i + 1..])
      else if i + 1 < |sql| && sql[i + 1] == quote then [quote, quote] + Inside(quote, sql[i + 2..])
      else [quote] + Outside(sql[i + 1..])
  {
    assert sql[i..][1..] == sql[i + 1..];
    if i + 1 < |sql| { assert sql[i..][2..] == sql[i + 2..]; }
  }

  lemma {:induction false} OutsideStep(sql: string, i: nat)
    requires i < |sql|
    ensures Outside(sql[i..]) ==
      if IsQuote(sql[i]) then [sql[i]] + Inside(sql[i], sql[i + 1..])
      else if StartsWith(sql[i..], '-', '-') then Outside(sql[i + LineEnd(sql[i..])..])
      else if StartsWith(sql[i..], '/', '*') then " " + Outside(sql[i + 2 + CloseEnd(sql[i + 2..])..])
      else [sql[i]] + Outside(sql[i + 1..])
  {
    assert sql[i..][1..] == sql[i + 1..];
    assert sql[i..][LineEnd(sql[i..])..] == sql[i + LineEnd(sql[i..])..];
    if i + 1 < |sql| {
      assert sql[i..][2..] == sql[i + 2..];
      assert sql[i..][2 + CloseEnd(sql[i + 2..])..] == sql[i + 2 + CloseEnd(sql[i + 2..])..];
    }
  }

  /** One round of the loop: what it emits, and where it leaves the index and the quote. */
  method Scan(sql: string, index: nat, quote: Option<char>) returns (piece: string, next: nat, inside: Option<char>)
    requires index < |sql|
    ensures index < next <= |sql|
    ensures Rest(quote, sql[index..]) == piece + Rest(inside, sql[next..])
  {
    hide Outside, Inside;
    var c := sql[index];
    piece, next, inside := [c], index + 1, quote;
    if quote.Some? {
      InsideStep(quote.value, sql, index);
      if c == quote.value {
        if index + 1 < |sql| && sql[index + 1] == quote.value {
          piece, next := piece + [sql[index + 1]], index + 2;
        } else {
          inside := None;
        }
      }
      return;
    }
    OutsideStep(sql, index);
    if IsQuote(c) {
      inside := Some(c);
    } else if StartsWith(sql[index..], '-', '-') {
      piece, next := "", index + LineEnd(sql[index..]);
    } else if StartsWith(sql[index..], '/', '*') {
      piece, next := " ", index + 2 + CloseEnd(sql[index + 2..]);
    }
  }

  method StripComments(sql: string) returns (out: string)
    ensures out == Outside(sql)
  {
    out := "";
    var index := 0;
    var quote: Option<char> := None;
    assert sql[0..] == sql;
    while index < |sql|
      invariant index <= |sql|
      invariant Outside(sql) == out + Rest(quote, sql[index..])
    {
      var piece;
      piece, index, quote := Scan(sql, index, quote);
      out := out + piece;
    }
    assert Rest(quote, sql[index..]) == "";
  }
}
