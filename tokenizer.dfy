/** The character stream the parser reads and the whitespace tokenizer over it
    (IESParser.GetNextToken), stated as functions of the text and a cursor. */
module Tokenizer {
  import opened Wrappers

  /** char.IsWhiteSpace, restricted to the ASCII whitespace characters. */
  predicate IsWhiteSpace(c: char) {
    c == ' ' || c == '\t' || c == '\n' || c == '\U{B}' || c == '\U{C}' || c == '\r'
  }

  /** char.IsDigit, restricted to the ASCII decimal digits. */
  predicate IsDigit(c: char) {
    '0' <= c <= '9'
  }

  predicate IsLineBreak(c: char) {
    c == '\n' || c == '\r'
  }

  /** The first position at or after `pos` that does not hold whitespace (|s| if none). */
  function SkipWhiteSpace(s: string, pos: nat): (k: nat)
    requires pos <= |s|
    ensures pos <= k <= |s|
    ensures forall i :: pos <= i < k ==> IsWhiteSpace(s[i])
    ensures k < |s| ==> !IsWhiteSpace(s[k])
    decreases |s| - pos
  {
    if pos < |s| && IsWhiteSpace(s[pos]) then SkipWhiteSpace(s, pos + 1) else pos
  }

  /** The first position at or after `pos` that holds whitespace (|s| if none). */
  function TokenEnd(s: string, pos: nat): (k: nat)
    requires pos <= |s|
    ensures pos <= k <= |s|
    ensures forall i :: pos <= i < k ==> !IsWhiteSpace(s[i])
    ensures k < |s| ==> IsWhiteSpace(s[k])
    decreases |s| - pos
  {
    if pos < |s| && !IsWhiteSpace(s[pos]) then TokenEnd(s, pos + 1) else pos
  }

  /** A token and the cursor position after reading it. */
  datatype Lexeme = Lexeme(token: string, next: nat)

  /** The rest of a token whose characters so far were read before `pos`: the
      whitespace-free run from `pos`, and the cursor just past the whitespace
      character that ends it (or at the end of the stream). */
  function RestOfToken(s: string, pos: nat): (r: Lexeme)
    requires pos <= |s|
    ensures pos <= r.next <= |s|
    decreases |s| - pos
  {
    if pos == |s| then Lexeme("", pos)
    else if IsWhiteSpace(s[pos]) then Lexeme("", pos + 1)
    else
      var rest := RestOfToken(s, pos + 1);
      Lexeme([s[pos]] + rest.token, rest.next)
  }

  /** What GetNextToken returns, and where it leaves the cursor, when called at
      `pos`: leading whitespace is skipped, then the token is read.
      NextTokenIsMaximalRun states what the token is. */
  function NextToken(s: string, pos: nat): (r: Lexeme)
    requires pos <= |s|
    ensures pos <= r.next <= |s|
    ensures pos < |s| ==> pos < r.next
    decreases |s| - pos
  {
    if pos < |s| && IsWhiteSpace(s[pos]) then NextToken(s, pos + 1) else RestOfToken(s, pos)
  }

  /** The run read by RestOfToken is s[pos..TokenEnd(s, pos)]. */
  lemma {:induction false} RestOfTokenIsRun(s: string, pos: nat)
    requires pos <= |s|
    ensures var r, b := RestOfToken(s, pos), TokenEnd(s, pos);
      && r.token == s[pos..b]
      && r.next == (if b < |s| then b + 1 else b)
    decreases |s| - pos
  {
    if pos < |s| && !IsWhiteSpace(s[pos]) {
      RestOfTokenIsRun(s, pos + 1);
      assert s[pos..TokenEnd(s, pos)] == [s[pos]] + s[pos + 1..TokenEnd(s, pos + 1)];
    }
  }

  /** With `a` the position of the first non-whitespace character at or after
      `pos`: everything before `a` is whitespace, the token is the maximal
      whitespace-free run that starts at `a`, and exactly one character after
      the run (the whitespace that ends it) is consumed as well.  The token is ""
      exactly when only whitespace remains, and then the cursor is at the end. */
  lemma {:induction false} NextTokenIsMaximalRun(s: string, pos: nat)
    requires pos <= |s|
    ensures var r, a := NextToken(s, pos), SkipWhiteSpace(s, pos);
      && (forall i :: pos <= i < a ==> IsWhiteSpace(s[i]))
      && a + |r.token| <= |s|
      && r.token == s[a..a + |r.token|]
      && (forall i :: 0 <= i < |r.token| ==> !IsWhiteSpace(r.token[i]))
      && (a + |r.token| < |s| ==> IsWhiteSpace(s[a + |r.token|]))
      && r.next == (if a + |r.token| < |s| then a + |r.token| + 1 else |s|)
      && (r.token == "" <==> forall i :: pos <= i < |s| ==> IsWhiteSpace(s[i]))
    decreases |s| - pos
  {
    if pos < |s| && IsWhiteSpace(s[pos]) {
      NextTokenIsMaximalRun(s, pos + 1);
    } else {
      RestOfTokenIsRun(s, pos);
    }
  }

  /** At the end of the stream the token is "" and the cursor stays put; an
      empty token leaves the cursor at the end. */
  lemma {:induction false} EmptyTokenAtEnd(s: string, pos: nat)
    requires pos <= |s|
    ensures pos == |s| ==> NextToken(s, pos) == Lexeme("", |s|)
    ensures NextToken(s, pos).token == "" ==> NextToken(s, pos).next == |s|
  {
    NextTokenIsMaximalRun(s, pos);
  }

  /** The cursor after reading `n` tokens from `pos`. */
  function Advance(s: string, pos: nat, n: nat): (k: nat)
    requires pos <= |s|
    ensures pos <= k <= |s|
  {
    if n == 0 then pos else NextToken(s, Advance(s, pos, n - 1)).next
  }

  /** The token at index `i` (counting from 0) of the token sequence that starts at `pos`. */
  function NthToken(s: string, pos: nat, i: nat): string
    requires pos <= |s|
  {
    NextToken(s, Advance(s, pos, i)).token
  }

  /** Reading m tokens and then n more is reading m + n tokens. */
  lemma {:induction false} AdvanceAdd(s: string, pos: nat, m: nat, n: nat)
    requires pos <= |s|
    ensures Advance(s, pos, m + n) == Advance(s, Advance(s, pos, m), n)
    decreases n
  {
    if n > 0 {
      var k := m + (n - 1);
      AdvanceAdd(s, pos, m, n - 1);
      assert Advance(s, pos, k + 1) == NextToken(s, Advance(s, pos, k)).next;
      assert k + 1 == m + n;
    }
  }

  /** Once the tokenizer has returned "", every later token is "" too: the end of
      the stream is sticky and never fails. */
  lemma {:induction false} ExhaustedStaysExhausted(s: string, pos: nat, i: nat, j: nat)
    requires pos <= |s|
    requires i <= j
    requires NthToken(s, pos, i) == ""
    ensures NthToken(s, pos, j) == ""
    ensures j > i ==> Advance(s, pos, j) == |s|
    decreases j
  {
    if j > i {
      ExhaustedStaysExhausted(s, pos, i, j - 1);
      EmptyTokenAtEnd(s, Advance(s, pos, j - 1));
      EmptyTokenAtEnd(s, Advance(s, pos, j));
    }
  }

  /** The whitespace-separated tokens from `pos` to the end of the text, in the
      order GetNextToken returns them; none of them is "". */
  function Tokens(s: string, pos: nat): (ts: seq<string>)
    requires pos <= |s|
    ensures forall i :: 0 <= i < |ts| ==> ts[i] != ""
    decreases |s| - pos
  {
    var t := NextToken(s, pos);
    if t.token == "" then []
    else
      EmptyTokenAtEnd(s, pos);
      [t.token] + Tokens(s, t.next)
  }

  /** Token `i` of a token list, or "" once the list is exhausted: what
      GetNextToken returns at the end of the stream. */
  function TokenAt(ts: seq<string>, i: nat): string {
    if i < |ts| then ts[i] else ""
  }

  /** The `i`-th call of the tokenizer returns token `i` of the token list, and
      "" once the list is exhausted. */
  lemma {:induction false} NthTokenIsTokenAt(s: string, pos: nat, i: nat)
    requires pos <= |s|
    ensures NthToken(s, pos, i) == TokenAt(Tokens(s, pos), i)
    decreases i
  {
    var t := NextToken(s, pos);
    if i > 0 {
      if t.token == "" {
        ExhaustedStaysExhausted(s, pos, 0, i);
      } else {
        AdvanceAdd(s, pos, 1, i - 1);
        assert Advance(s, pos, 1) == t.next;
        NthTokenIsTokenAt(s, t.next, i - 1);
      }
    }
  }

  /** The cursor before each of the first n + 1 tokens read from `pos`. */
  ghost function Cursors(s: string, pos: nat, n: nat): (cs: seq<nat>)
    requires pos <= |s|
    ensures |cs| == n + 1
    ensures forall j :: 0 <= j <= n ==> cs[j] == Advance(s, pos, j)
  {
    seq(n + 1, j requires 0 <= j <= n => Advance(s, pos, j))
  }

  /** Reading a token at `cursors[j]` returns `toks[j]` and leaves the cursor
      at `cursors[j + 1]`. */
  ghost predicate TokenChain(s: string, cursors: seq<nat>, toks: seq<string>) {
    && (forall j :: 0 <= j < |cursors| ==> cursors[j] <= |s|)
    && (forall j {:trigger NextToken(s, cursors[j])} :: 0 <= j < |cursors| - 1 ==>
          cursors[j] <= |s| && NextToken(s, cursors[j]) == Lexeme(TokenAt(toks, j), cursors[j + 1]))
  }

  /** The cursors of the token list form a chain. */
  lemma CursorsChain(s: string, pos: nat, n: nat)
    requires pos <= |s|
    ensures TokenChain(s, Cursors(s, pos, n), Tokens(s, pos))
  {
    var cs, toks := Cursors(s, pos, n), Tokens(s, pos);
    forall j | 0 <= j < n
      ensures NextToken(s, cs[j]) == Lexeme(TokenAt(toks, j), cs[j + 1])
    {
      NthTokenIsTokenAt(s, pos, j);
    }
  }

  /** The first line break at or after `pos` (|s| if none). */
  function LineBreakAt(s: string, pos: nat): (k: nat)
    requires pos <= |s|
    ensures pos <= k <= |s|
    ensures forall i :: pos <= i < k ==> !IsLineBreak(s[i])
    ensures k < |s| ==> IsLineBreak(s[k])
    decreases |s| - pos
  {
    if pos < |s| && !IsLineBreak(s[pos]) then LineBreakAt(s, pos + 1) else pos
  }

  /** Where StreamReader.ReadLine leaves the cursor: just past the next "\n", "\r"
      or "\r\n", or at the end of the stream when no line break follows. */
  function LineEnd(s: string, pos: nat): (k: nat)
    requires pos <= |s|
    ensures pos <= k <= |s|
    ensures pos < |s| ==> pos < k
    ensures k < |s| ==> IsLineBreak(s[k - 1])
    ensures forall i :: pos <= i < k - 1 ==> !IsLineBreak(s[i]) || (i == k - 2 && s[i] == '\r' && s[k - 1] == '\n')
    ensures pos < k < |s| && s[k - 1] == '\r' ==> s[k] != '\n'
  {
    var b := LineBreakAt(s, pos);
    if b == |s| then b
    else if s[b] == '\r' && b + 1 < |s| && s[b + 1] == '\n' then b + 2
    else b + 1
  }

  /** A System.IO.StreamReader over an in-memory text: the text and a cursor. */
  class StreamReader {
    const text: string
    var pos: nat

    ghost predicate Valid()
      reads this
    {
      pos <= |text|
    }

    constructor (text: string)
      ensures Valid() && this.text == text && pos == 0
    {
      this.text := text;
      pos := 0;
    }

    /** `reader.EndOfStream`: no character is left to read. */
    predicate EndOfStream(): (b: bool)
      reads this
      ensures Valid() ==> (b <==> pos == |text|)
    {
      pos >= |text|
    }

    /** Returns the next character and advances, or None (C#'s -1) at the end. */
    method Read() returns (c: Option<char>)
      requires Valid()
      modifies this
      ensures Valid()
      ensures old(pos) < |text| ==> c == Some(text[old(pos)]) && pos == old(pos) + 1
      ensures old(pos) == |text| ==> c == None && pos == old(pos)
    {
      if pos < |text| {
        c := Some(text[pos]);
        pos := pos + 1;
      } else {
        c := None;
      }
    }

    /** Discards the rest of the current line, and its line break. */
    method ReadLine()
      requires Valid()
      modifies this
      ensures Valid()
      ensures pos == LineEnd(text, old(pos))
    {
      pos := LineEnd(text, pos);
    }
  }
}
