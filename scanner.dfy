/**
 * The current tokenizer: the `ScannerMap` rule table, whose WORD pattern is
 * extended with the Unicode range table, and `Scanner.Parse`'s type switch
 * over the shared match loop.
 */
module Scanner {
  import opened CharClasses
  import opened Matchers
  import opened Tokens
  import opened Engine

  /** WORD, WHITESPACE, CHAR, NUMBER, in priority order. */
  const ScannerMap: seq<Rule> := [
    Rule(ScriptWord, Word),
    Rule(Spaces, Whitespace),
    Rule(NonDigit, Char),
    Rule(Digits, Number)
  ]

  /** The rules carry the type strings WORD, WHITESPACE, CHAR and NUMBER, in table order. */
  lemma ScannerKindNames()
    ensures |ScannerMap| == 4
    ensures Name(ScannerMap[0].kind) == "WORD" && Name(ScannerMap[1].kind) == "WHITESPACE"
    ensures Name(ScannerMap[2].kind) == "CHAR" && Name(ScannerMap[3].kind) == "NUMBER"
  {
  }

  const TypeErrorMessage: string := "Scanner.Parse only accepts []byte and string types."

  /**
   * `Parse`: a byte slice or a string is tokenized by the match loop; any
   * other value yields the type error and an empty stream.
   */
  method Parse(data: Input) returns (err: Option<ParseError>, toks: seq<Token>)
    ensures err.Some? <==> data.Other?
    ensures data.Other? ==> err == Some(TypeError(TypeErrorMessage)) && toks == []
    ensures !data.Other? ==> toks == Tokenize(ScannerMap, TextOf(data))
    ensures !data.Other? ==> Concat(toks) == TextOf(data)
  {
    toks := [];
    if data.Other? {
      return Some(TypeError(TypeErrorMessage)), toks;
    }
    toks := ParseText(ScannerMap, TextOf(data));
    RoundTrip(ScannerMap, TextOf(data));
    err := None;
  }

  /**
   * What the scanner table yields at the start of a non-empty text: WORD
   * whenever the WORD pattern matches; otherwise WHITESPACE (the maximal run)
   * at whitespace, CHAR (one codepoint) at any other non-digit, and NUMBER at
   * a digit, where the NUMBER lexeme is that single digit, because any
   * codepoint the NUMBER pattern could extend over would have let WORD match.
   */
  lemma {:induction false} ScannerClassify(s: string)
    requires s != []
    ensures var t := Classify(ScannerMap, s).value; var w := MatchLen(ScriptWord, s);
      && (w > 0 ==> t == Token(Word, s[..w]))
      && (w == 0 && IsSpace(s[0]) ==> t == Token(Whitespace, s[..MatchLen(Spaces, s)]))
      && (w == 0 && !IsSpace(s[0]) && !IsDigit(s[0]) ==> t == Token(Char, s[..1]))
      && (w == 0 && IsDigit(s[0]) ==> t == Token(Number, s[..1]))
  {
    MatchLenSpec(ScriptWord, s);
    MatchLenSpec(Spaces, s);
    MatchLenSpec(NonDigit, s);
    MatchLenSpec(Digits, s);
    ClassesDisjoint(s[0]);
    if MatchLen(ScriptWord, s) > 0 {
      FirstRuleUnique(ScannerMap, s, 0);
    } else if IsSpace(s[0]) {
      FirstRuleUnique(ScannerMap, s, 1);
    } else if !IsDigit(s[0]) {
      FirstRuleUnique(ScannerMap, s, 2);
    } else {
      assert !FirstAlternative(s);
      assert |s| > 1 ==> !IsDigit(s[1]);
      MaximalRunUnique(Digit, s, MatchLen(Digits, s), 1);
      FirstRuleUnique(ScannerMap, s, 3);
    }
  }

  /**
   * Token `t` is what the scanner table yields on `t`'s lexeme followed by a
   * text that begins like `next`. A WORD is either the first alternative, a
   * letter or digit followed by a maximal run of the tail class, or, where the
   * first alternative cannot match, a maximal run of table codepoints. The
   * single-codepoint kinds need the WORD pattern to fail there, and a NUMBER
   * is a single digit because a following digit would let WORD match.
   */
  predicate ScannerLocal(t: Token, next: string) {
    var lex := t.lexeme;
    match t.kind
    case Word =>
      || (&& |lex| >= 2 && IsLetterOrDigit(lex[0])
          && (forall i :: 1 <= i < |lex| ==> IsWordTail(lex[i]))
          && (next != [] ==> !IsWordTail(next[0])))
      || (&& lex != [] && !FirstAlternative(lex + next)
          && (forall i :: 0 <= i < |lex| ==> IsRangeLetter(lex[i]))
          && (next != [] ==> !IsRangeLetter(next[0])))
    case Whitespace =>
      && lex != []
      && (forall i :: 0 <= i < |lex| ==> IsSpace(lex[i]))
      && (next != [] ==> !IsSpace(next[0]))
    case Char =>
      && |lex| == 1 && !IsDigit(lex[0]) && !IsSpace(lex[0]) && !IsRangeLetter(lex[0])
      && !FirstAlternative(lex + next)
    case Number =>
      |lex| == 1 && IsDigit(lex[0]) && !FirstAlternative(lex + next)
  }

  /** The token the scanner table yields is local to the text that follows it. */
  lemma {:induction false} ScannerClassifyLocal(s: string)
    requires s != []
    ensures var t := Classify(ScannerMap, s).value; ScannerLocal(t, s[|t.lexeme|..])
  {
    var t := Classify(ScannerMap, s).value;
    ScannerClassify(s);
    if MatchLen(ScriptWord, s) > 0 {
      ScannerWordLocal(s, t.lexeme);
    } else {
      assert t.lexeme + s[|t.lexeme|..] == s;
      ScannerSingleLocal(s, t);
    }
  }

  /** Where WORD fails, the WHITESPACE, CHAR or NUMBER token is local. */
  lemma {:induction false} ScannerSingleLocal(s: string, t: Token)
    requires s != [] && MatchLen(ScriptWord, s) == 0
    requires |t.lexeme| <= |s| && t.lexeme + s[|t.lexeme|..] == s
    requires IsSpace(s[0]) ==> t == Token(Whitespace, s[..MatchLen(Spaces, s)])
    requires !IsSpace(s[0]) && !IsDigit(s[0]) ==> t == Token(Char, s[..1])
    requires IsDigit(s[0]) ==> t == Token(Number, s[..1])
    ensures ScannerLocal(t, s[|t.lexeme|..])
  {
    MatchLenSpec(ScriptWord, s);
    MatchLenSpec(Spaces, s);
    ClassesDisjoint(s[0]);
    if IsDigit(s[0]) {
      AsciiRangeLetters(s[0]);
    }
  }

  /** A WORD the scanner table matches satisfies one of the two word shapes. */
  lemma {:induction false} ScannerWordLocal(s: string, lex: string)
    requires MatchLen(ScriptWord, s) > 0 && lex == s[..MatchLen(ScriptWord, s)]
    ensures ScannerLocal(Token(Word, lex), s[|lex|..])
  {
    MatchLenSpec(ScriptWord, s);
    var n := |lex|;
    if FirstAlternative(s) {
      forall i | 1 <= i < n ensures IsWordTail(lex[i]) {
        assert lex[i] == s[1..][i - 1];
      }
      assert n < |s| ==> s[n..][0] == s[1..][n - 1];
    } else {
      Rejoin(s, lex, s[n..]);
    }
  }

  /** A lexeme with the local property is exactly what the scanner table yields. */
  lemma {:induction false} ScannerLocalClassify(t: Token, rest: string)
    requires ScannerLocal(t, rest)
    ensures Classify(ScannerMap, t.lexeme + rest) == Some(t)
  {
    var s := t.lexeme + rest;
    var n := |t.lexeme|;
    ScannerClassify(s);
    assert s[..n] == t.lexeme;
    if t.kind == Word {
      ScannerLocalWord(t.lexeme, rest);
    } else {
      MatchLenSpec(ScriptWord, s);
      ClassesDisjoint(s[0]);
      if t.kind == Whitespace {
        MatchLenSpec(Spaces, s);
        MaximalRunUnique(Space, s, MatchLen(Spaces, s), n);
      } else if t.kind == Number {
        AsciiRangeLetters(s[0]);
      }
      assert MaximalRun(RangeLetter, s, 0);
    }
  }

  /** A lexeme of either word shape is exactly what the WORD pattern matches. */
  lemma {:induction false} ScannerLocalWord(lex: string, rest: string)
    requires ScannerLocal(Token(Word, lex), rest)
    ensures MatchLen(ScriptWord, lex + rest) == |lex|
  {
    var s := lex + rest;
    var n := |lex|;
    MatchLenSpec(ScriptWord, s);
    if |lex| >= 2 && IsLetterOrDigit(lex[0]) && (forall i :: 1 <= i < n ==> IsWordTail(lex[i]))
      && (rest != [] ==> !IsWordTail(rest[0]))
    {
      assert FirstAlternative(s);
      assert MaximalRun(WordTail, s[1..], n - 1);
      MaximalRunUnique(WordTail, s[1..], MatchLen(ScriptWord, s) - 1, n - 1);
    } else {
      assert MaximalRun(RangeLetter, s, n);
      MaximalRunUnique(RangeLetter, s, MatchLen(ScriptWord, s), n);
    }
  }

  /**
   * Locality of a scanner token: the table yields `t` on its lexeme followed
   * by `rest` exactly when `t` has the shape of its kind and neither an
   * earlier rule nor a longer match was possible there.
   */
  lemma {:induction false} ScannerLocalIff(t: Token, rest: string)
    ensures Classify(ScannerMap, t.lexeme + rest) == Some(t) <==> ScannerLocal(t, rest)
  {
    if ScannerLocal(t, rest) {
      ScannerLocalClassify(t, rest);
    }
    if Classify(ScannerMap, t.lexeme + rest) == Some(t) {
      ScannerClassifyLocal(t.lexeme + rest);
      assert (t.lexeme + rest)[|t.lexeme|..] == rest;
    }
  }

  /** A local token heads the scanner stream of its lexeme followed by `rest`. */
  lemma {:induction false} ScannerStep(t: Token, rest: string)
    requires ScannerLocal(t, rest)
    ensures Tokenize(ScannerMap, t.lexeme + rest) == [t] + Tokenize(ScannerMap, rest)
  {
    ScannerLocalClassify(t, rest);
    TokenizeCons(ScannerMap, t, rest);
  }

  /** Locality looks only at whether a next codepoint exists and which it is. */
  lemma ScannerLocalHead(t: Token, a: string, b: string)
    requires (a == []) == (b == []) && (a != [] ==> a[0] == b[0])
    ensures ScannerLocal(t, a) == ScannerLocal(t, b)
  {
    var lex := t.lexeme;
    if lex != [] {
      assert FirstAlternative(lex + a) == FirstAlternative(lex + b) by {
        if |lex| == 1 && a != [] {
          assert (lex + a)[1] == a[0] && (lex + b)[1] == b[0];
        } else if |lex| >= 2 {
          assert (lex + a)[1] == lex[1] == (lex + b)[1];
        } else {
          assert lex + a == lex + b;
        }
      }
    }
  }

  /** Every token of `toks` is local to the lexeme after it. */
  predicate ScannerStream(toks: seq<Token>)
    decreases |toks|
  {
    toks != [] ==> ScannerLocal(toks[0], NextLexeme(toks, 0)) && ScannerStream(toks[1..])
  }

  /** The scanner stream of any text is a stream of local tokens. */
  lemma {:induction false} TokenizeIsScannerStream(s: string)
    ensures ScannerStream(Tokenize(ScannerMap, s))
    decreases |s|
  {
    if s != [] {
      var t := Classify(ScannerMap, s).value;
      var rest := s[|t.lexeme|..];
      var tail := Tokenize(ScannerMap, rest);
      var toks := [t] + tail;
      assert Tokenize(ScannerMap, s) == toks;
      assert toks[0] == t && toks[1..] == tail;
      ScannerClassifyLocal(s);
      TokenizeIsScannerStream(rest);
      if tail != [] {
        var u := Classify(ScannerMap, rest).value;
        assert tail[0] == u;
        assert rest[0] == u.lexeme[0];
      }
      ScannerLocalHead(t, rest, NextLexeme(toks, 0));
    }
  }

  /** The head of a local stream is local to the whole join of the tokens after it. */
  lemma ScannerStreamHead(toks: seq<Token>)
    requires toks != [] && ScannerStream(toks)
    ensures ScannerLocal(toks[0], Concat(toks[1..])) && ScannerStream(toks[1..])
  {
    var tail := toks[1..];
    if tail != [] {
      assert ScannerLocal(tail[0], NextLexeme(tail, 0));
      assert Concat(tail) == tail[0].lexeme + Concat(tail[1..]);
    }
    ScannerLocalHead(toks[0], NextLexeme(toks, 0), Concat(tail));
  }

  /** A stream of local tokens is the scanner stream of its own join. */
  lemma {:induction false} ScannerStreamTokenize(toks: seq<Token>)
    requires ScannerStream(toks)
    ensures Tokenize(ScannerMap, Concat(toks)) == toks
    decreases |toks|
  {
    if toks != [] {
      ScannerStreamHead(toks);
      var t, tail := toks[0], toks[1..];
      assert Concat(toks) == t.lexeme + Concat(tail);
      ScannerLocalClassify(t, Concat(tail));
      TokenizeCons(ScannerMap, t, Concat(tail));
      ScannerStreamTokenize(tail);
    }
  }

  /**
   * The scanner stream of a text is the one token list that joins back to the
   * text and whose every token is local to the next one.
   */
  lemma {:induction false} ScannerStreamIff(s: string, toks: seq<Token>)
    ensures Tokenize(ScannerMap, s) == toks <==> Concat(toks) == s && ScannerStream(toks)
  {
    if Tokenize(ScannerMap, s) == toks {
      RoundTrip(ScannerMap, s);
      TokenizeIsScannerStream(s);
    }
    if Concat(toks) == s && ScannerStream(toks) {
      ScannerStreamTokenize(toks);
    }
  }
}
