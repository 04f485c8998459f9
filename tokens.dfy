/**
 * Tokens and the token stream. The source represents a token as a two-element
 * string slice `[kind, lexeme]` and the stream as a slice of those; here a
 * token is a datatype, so the lexeme of every token exists and `Join` cannot
 * index out of range. Callers edit a stream in place through its backing
 * array.
 */
module Tokens {

  datatype Kind = Word | Whitespace | Char | Number

  /** The kind names a token carries in the source. */
  function Name(k: Kind): (name: string)
    ensures name in {"WORD", "WHITESPACE", "CHAR", "NUMBER"}
  {
    match k
    case Word => "WORD"
    case Whitespace => "WHITESPACE"
    case Char => "CHAR"
    case Number => "NUMBER"
  }

  /** Different kinds have different names, so a name identifies its kind. */
  lemma NamesDistinct(k1: Kind, k2: Kind)
    ensures Name(k1) == Name(k2) <==> k1 == k2
  {
  }

  datatype Token = Token(kind: Kind, lexeme: string)

  /** The lexemes of a stream, concatenated in stream order. */
  function Concat(toks: seq<Token>): (joined: string) {
    if toks == [] then "" else toks[0].lexeme + Concat(toks[1..])
  }

  /** A prefix of a text followed by the text after it is the text. */
  lemma Rejoin(s: string, prefix: string, suffix: string)
    requires |prefix| <= |s| && prefix == s[..|prefix|] && suffix == s[|prefix|..]
    ensures prefix + suffix == s
  {
  }

  /** A token in front of a stream puts its lexeme in front of the join. */
  lemma ConcatCons(t: Token, toks: seq<Token>)
    ensures Concat([t] + toks) == t.lexeme + Concat(toks)
  {
    assert ([t] + toks)[1..] == toks;
  }

  /** Concatenation distributes over splitting the stream. */
  lemma {:induction false} ConcatAppend(a: seq<Token>, b: seq<Token>)
    ensures Concat(a + b) == Concat(a) + Concat(b)
    decreases |a|
  {
    if a == [] {
      assert a + b == b;
    } else {
      assert (a + b)[1..] == a[1..] + b;
      ConcatAppend(a[1..], b);
    }
  }

  /** The lexeme at index `i` sits between the lexemes before it and those after it. */
  lemma {:induction false} ConcatAround(toks: seq<Token>, i: nat)
    requires i < |toks|
    ensures Concat(toks) == Concat(toks[..i]) + toks[i].lexeme + Concat(toks[i + 1..])
  {
    assert toks == toks[..i] + ([toks[i]] + toks[i + 1..]);
    ConcatAppend(toks[..i], [toks[i]] + toks[i + 1..]);
    assert ([toks[i]] + toks[i + 1..])[1..] == toks[i + 1..];
  }

  /** The lexeme after slot `k`, empty after the last slot. */
  function NextLexeme(toks: seq<Token>, k: nat): (next: string)
    requires k < |toks|
  {
    if k + 1 < |toks| then toks[k + 1].lexeme else ""
  }

  /**
   * Overwriting the lexeme at index `i` changes the joined text only in that
   * slot: the new lexeme replaces the old one between unchanged neighbours.
   */
  lemma {:induction false} ConcatReplace(toks: seq<Token>, i: nat, lexeme: string)
    requires i < |toks|
    ensures Concat(toks[i := Token(toks[i].kind, lexeme)])
         == Concat(toks[..i]) + lexeme + Concat(toks[i + 1..])
  {
    var edited := toks[i := Token(toks[i].kind, lexeme)];
    ConcatAround(edited, i);
    assert edited[..i] == toks[..i];
    assert edited[i + 1..] == toks[i + 1..];
  }

  /**
   * `Join`: appends the lexeme of the first token to the result and drops that
   * token from the stream until the stream is empty.
   */
  method Join(s: seq<Token>) returns (joined: string)
    ensures joined == Concat(s)
  {
    joined := "";
    var rest := s;
    while |rest| > 0
      invariant joined + Concat(rest) == Concat(s)
    {
      joined := joined + rest[0].lexeme;
      rest := rest[1..];
    }
  }

  /**
   * The caller's in-place edit `s[i][1] = lexeme`: the slot keeps its kind and
   * takes the new lexeme; every other slot is untouched.
   */
  method SetLexeme(a: array<Token>, i: nat, lexeme: string)
    requires i < a.Length
    modifies a
    ensures a[..] == old(a[..])[i := Token(old(a[i].kind), lexeme)]
  {
    a[i] := Token(a[i].kind, lexeme);
  }
}
