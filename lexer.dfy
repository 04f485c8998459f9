/**
 * The older tokenizer: the `LexerMap` rule table, whose WORD pattern knows
 * only folded ASCII letters and digits, and `Lexer.Parse`'s type switch over
 * the shared match loop.
 */
module Lexer {
  import opened CharClasses
  import opened Matchers
  import opened Tokens
  import opened Engine

  /** WORD, WHITESPACE, CHAR, NUMBER, in priority order. */
  const LexerMap: seq<Rule> := [
    Rule(LetterWord, Word),
    Rule(Spaces, Whitespace),
    Rule(NonDigit, Char),
    Rule(Digits, Number)
  ]

  /** The rules carry the type strings WORD, WHITESPACE, CHAR and NUMBER, in table order. */
  lemma LexerKindNames()
    ensures |LexerMap| == 4
    ensures Name(LexerMap[0].kind) == "WORD" && Name(LexerMap[1].kind) == "WHITESPACE"
    ensures Name(LexerMap[2].kind) == "CHAR" && Name(LexerMap[3].kind) == "NUMBER"
  {
  }

  const TypeErrorMessage: string := "Lexer.Parse only accepts []byte and string types."

  /**
   * `Parse`: a byte slice or a string is tokenized by the match loop; any
   * other value yields the type error and an empty stream.
   */
  method Parse(data: Input) returns (err: Option<ParseError>, toks: seq<Token>)
    ensures err.Some? <==> data.Other?
    ensures data.Other? ==> err == Some(TypeError(TypeErrorMessage)) && toks == []
    ensures !data.Other? ==> toks == Tokenize(LexerMap, TextOf(data))
    ensures !data.Other? ==> Concat(toks) == TextOf(data)
  {
    toks := [];
    if data.Other? {
      return Some(TypeError(TypeErrorMessage)), toks;
    }
    toks := ParseText(LexerMap, TextOf(data));
    RoundTrip(LexerMap, TextOf(data));
    err := None;
  }

  /** The lexer WORD pattern can match: a folded letter, then a letter or digit. */
  predicate StartsWord(s: string) {
    |s| >= 2 && IsLetter(s[0]) && IsLetterOrDigit(s[1])
  }

  /**
   * What the lexer table yields at the start of a non-empty text: WORD when a
   * letter is followed by a letter or digit; otherwise WHITESPACE (the maximal
   * run) at whitespace, CHAR (one codepoint) at any other non-digit, and
   * NUMBER (the maximal digit run) at a digit.
   */
  lemma {:induction false} LexerClassify(s: string)
    requires s != []
    ensures var t := Classify(LexerMap, s).value;
      && (StartsWord(s) ==> t == Token(Word, s[..MatchLen(LetterWord, s)]))
      && (IsSpace(s[0]) ==> t == Token(Whitespace, s[..MatchLen(Spaces, s)]))
      && (!StartsWord(s) && !IsSpace(s[0]) && !IsDigit(s[0]) ==> t == Token(Char, s[..1]))
      && (IsDigit(s[0]) ==> t == Token(Number, s[..MatchLen(Digits, s)]))
  {
    MatchLenSpec(LetterWord, s);
    MatchLenSpec(Spaces, s);
    MatchLenSpec(NonDigit, s);
    MatchLenSpec(Digits, s);
    ClassesDisjoint(s[0]);
    if StartsWord(s) {
      FirstRuleUnique(LexerMap, s, 0);
    } else if IsSpace(s[0]) {
      FirstRuleUnique(LexerMap, s, 1);
    } else if !IsDigit(s[0]) {
      FirstRuleUnique(LexerMap, s, 2);
    } else {
      FirstRuleUnique(LexerMap, s, 3);
    }
  }

  /**
   * Token `t` is what the lexer table yields on `t`'s lexeme followed by a
   * text that begins like `next`: the lexeme has the shape of its kind, no
   * earlier rule matches there, and a greedy pattern could not have gone on
   * into `next`.
   */
  predicate LexerLocal(t: Token, next: string) {
    var lex := t.lexeme;
    match t.kind
    case Word =>
      && |lex| >= 2 && IsLetter(lex[0])
      && (forall i :: 1 <= i < |lex| ==> IsLetterOrDigit(lex[i]))
      && (next != [] ==> !IsLetterOrDigit(next[0]))
    case Whitespace =>
      && lex != []
      && (forall i :: 0 <= i < |lex| ==> IsSpace(lex[i]))
      && (next != [] ==> !IsSpace(next[0]))
    case Char =>
      && |lex| == 1 && !IsDigit(lex[0]) && !IsSpace(lex[0])
      && (IsLetter(lex[0]) && next != [] ==> !IsLetterOrDigit(next[0]))
    case Number =>
      && lex != []
      && (forall i :: 0 <= i < |lex| ==> IsDigit(lex[i]))
      && (next != [] ==> !IsDigit(next[0]))
  }

  /** The token the lexer table yields is local to the text that follows it. */
  lemma {:induction false} LexerClassifyLocal(s: string)
    requires s != []
    ensures var t := Classify(LexerMap, s).value; LexerLocal(t, s[|t.lexeme|..])
  {
    LexerClassify(s);
    MatchLenSpec(LetterWord, s);
    MatchLenSpec(Spaces, s);
    MatchLenSpec(Digits, s);
    var t := Classify(LexerMap, s).value;
    var n := |t.lexeme|;
    if StartsWord(s) {
      forall i | 1 <= i < n ensures IsLetterOrDigit(t.lexeme[i]) {
        assert t.lexeme[i] == s[1..][i - 1];
      }
      assert n < |s| ==> s[n..][0] == s[1..][n - 1];
    }
  }

  /** A lexeme with the local property is exactly what the lexer table yields. */
  lemma {:induction false} LexerLocalClassify(t: Token, rest: string)
    requires LexerLocal(t, rest)
    ensures Classify(LexerMap, t.lexeme + rest) == Some(t)
  {
    var s := t.lexeme + rest;
    var n := |t.lexeme|;
    LexerClassify(s);
    MatchLenSpec(LetterWord, s);
    MatchLenSpec(Spaces, s);
    MatchLenSpec(Digits, s);
    assert s[..n] == t.lexeme;
    match t.kind
    case Word =>
      assert MaximalRun(CharClass.LetterOrDigit, s[1..], n - 1);
      MaximalRunUnique(CharClass.LetterOrDigit, s[1..], MatchLen(LetterWord, s) - 1, n - 1);
    case Whitespace =>
      MaximalRunUnique(Space, s, MatchLen(Spaces, s), n);
    case Char =>
      assert !StartsWord(s);
    case Number =>
      MaximalRunUnique(Digit, s, MatchLen(Digits, s), n);
  }

  /**
   * Locality of a lexer token: the table yields `t` on its lexeme followed by
   * `rest` exactly when `t` has the shape of its kind and cannot extend into
   * `rest`.
   */
  lemma {:induction false} LexerLocalIff(t: Token, rest: string)
    ensures Classify(LexerMap, t.lexeme + rest) == Some(t) <==> LexerLocal(t, rest)
  {
    if LexerLocal(t, rest) {
      LexerLocalClassify(t, rest);
    }
    if Classify(LexerMap, t.lexeme + rest) == Some(t) {
      LexerClassifyLocal(t.lexeme + rest);
      assert (t.lexeme + rest)[|t.lexeme|..] == rest;
    }
  }

  /** A local token heads the lexer stream of its lexeme followed by `rest`. */
  lemma {:induction false} LexerStep(t: Token, rest: string)
    requires LexerLocal(t, rest)
    ensures Tokenize(LexerMap, t.lexeme + rest) == [t] + Tokenize(LexerMap, rest)
  {
    LexerLocalClassify(t, rest);
    TokenizeCons(LexerMap, t, rest);
  }

  /** Locality looks only at whether a next codepoint exists and which it is. */
  lemma LexerLocalHead(t: Token, a: string, b: string)
    requires (a == []) == (b == []) && (a != [] ==> a[0] == b[0])
    ensures LexerLocal(t, a) == LexerLocal(t, b)
  {
  }

  /** Every token of `toks` is local to the lexeme after it. */
  predicate LexerStream(toks: seq<Token>)
    decreases |toks|
  {
    toks != [] ==> LexerLocal(toks[0], NextLexeme(toks, 0)) && LexerStream(toks[1..])
  }

  /** The lexer stream of any text is a stream of local tokens. */
  lemma {:induction false} TokenizeIsLexerStream(s: string)
    ensures LexerStream(Tokenize(LexerMap, s))
    decreases |s|
  {
    if s != [] {
      var t := Classify(LexerMap, s).value;
      var rest := s[|t.lexeme|..];
      var tail := Tokenize(LexerMap, rest);
      var toks := [t] + tail;
      assert Tokenize(LexerMap, s) == toks;
      assert toks[0] == t && toks[1..] == tail;
      LexerClassifyLocal(s);
      TokenizeIsLexerStream(rest);
      if tail != [] {
        var u := Classify(LexerMap, rest).value;
        assert tail[0] == u;
        assert rest[0] == u.lexeme[0];
      }
      LexerLocalHead(t, rest, NextLexeme(toks, 0));
    }
  }

  /** The head of a local stream is local to the whole join of the tokens after it. */
  lemma LexerStreamHead(toks: seq<Token>)
    requires toks != [] && LexerStream(toks)
    ensures LexerLocal(toks[0], Concat(toks[1..])) && LexerStream(toks[1..])
  {
    var tail := toks[1..];
    if tail != [] {
      assert LexerLocal(tail[0], NextLexeme(tail, 0));
      assert Concat(tail) == tail[0].lexeme + Concat(tail[1..]);
    }
    LexerLocalHead(toks[0], NextLexeme(toks, 0), Concat(tail));
  }

  /** A stream of local tokens is the lexer stream of its own join. */
  lemma {:induction false} LexerStreamTokenize(toks: seq<Token>)
    requires LexerStream(toks)
    ensures Tokenize(LexerMap, Concat(toks)) == toks
    decreases |toks|
  {
    if toks != [] {
      LexerStreamHead(toks);
      var t, tail := toks[0], toks[1..];
      assert Concat(toks) == t.lexeme + Concat(tail);
      LexerLocalClassify(t, Concat(tail));
      TokenizeCons(LexerMap, t, Concat(tail));
      LexerStreamTokenize(tail);
    }
  }

  /**
   * The lexer stream of a text is the one token list that joins back to the
   * text and whose every token is local to the next one.
   */
  lemma {:induction false} LexerStreamIff(s: string, toks: seq<Token>)
    ensures Tokenize(LexerMap, s) == toks <==> Concat(toks) == s && LexerStream(toks)
  {
    if Tokenize(LexerMap, s) == toks {
      RoundTrip(LexerMap, s);
      TokenizeIsLexerStream(s);
    }
    if Concat(toks) == s && LexerStream(toks) {
      LexerStreamTokenize(toks);
    }
  }
}
