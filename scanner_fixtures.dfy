/**
 * Concrete streams of the scanner table: the manipulation test's input, the
 * case-folding corner of the WORD pattern, runs of table codepoints (Greek
 * letters, the Unicode spaces the table holds) and lone codepoints outside it.
 */
module ScannerFixtures {
  import opened UnicodeRanges
  import opened CharClasses
  import opened Matchers
  import opened Tokens
  import opened Engine
  import opened Scanner

  /** A local token in front of a scanner stream extends it, and the join grows by its lexeme. */
  lemma ScannerStreamCons(t: Token, toks: seq<Token>)
    requires ScannerLocal(t, if toks == [] then "" else toks[0].lexeme)
    requires ScannerStream(toks)
    ensures ScannerStream([t] + toks)
    ensures Concat([t] + toks) == t.lexeme + Concat(toks)
  {
    assert ([t] + toks)[1..] == toks;
  }

  const ThreeWords: string := "test test test"

  const ThreeWordsStream: seq<Token> := [
    Token(Word, "test"), Token(Whitespace, " "), Token(Word, "test"),
    Token(Whitespace, " "), Token(Word, "test")]

  /** The manipulation input, token by token, is the scanner stream of its join. */
  lemma ThreeWordsChain()
    ensures Tokenize(ScannerMap, "test" + (" " + ("test" + (" " + ("test" + "")))))
         == [Token(Word, "test")] + ([Token(Whitespace, " ")] + ([Token(Word, "test")]
          + ([Token(Whitespace, " ")] + ([Token(Word, "test")] + []))))
  {
    AsciiRangeLetters(' ');
    var r4 := [Token(Word, "test")] + [];
    ScannerStreamCons(Token(Word, "test"), []);
    var r3 := [Token(Whitespace, " ")] + r4;
    ScannerStreamCons(Token(Whitespace, " "), r4);
    var r2 := [Token(Word, "test")] + r3;
    ScannerStreamCons(Token(Word, "test"), r3);
    var r1 := [Token(Whitespace, " ")] + r2;
    ScannerStreamCons(Token(Whitespace, " "), r2);
    var r0 := [Token(Word, "test")] + r1;
    ScannerStreamCons(Token(Word, "test"), r1);
    ScannerStreamTokenize(r0);
  }

  /** The piece-by-piece forms are the manipulation test's literals. */
  lemma ThreeWordsLiterals()
    ensures "test" + (" " + ("test" + (" " + ("test" + "")))) == ThreeWords
    ensures [Token(Word, "test")] + ([Token(Whitespace, " ")] + ([Token(Word, "test")]
      + ([Token(Whitespace, " ")] + ([Token(Word, "test")] + [])))) == ThreeWordsStream
  {
  }

  /** The scanner splits "test test test" into three words and the two spaces between them. */
  lemma ScannerThreeWords()
    ensures Tokenize(ScannerMap, ThreeWords) == ThreeWordsStream
  {
    ThreeWordsChain();
    ThreeWordsLiterals();
  }

  /** The manipulation test's stream after slot 2 takes the lexeme `test2`. */
  const EditedStream: seq<Token> := [
    Token(Word, "test"), Token(Whitespace, " "), Token(Word, "test2"),
    Token(Whitespace, " "), Token(Word, "test")]

  /** The edited stream, piece by piece, is its literal, and so is its join. */
  lemma EditedStreamLiterals()
    ensures [Token(Word, "test")] + ([Token(Whitespace, " ")] + ([Token(Word, "test2")]
      + ([Token(Whitespace, " ")] + ([Token(Word, "test")] + [])))) == EditedStream
    ensures "test" + (" " + ("test2" + (" " + ("test" + "")))) == "test test2 test"
  {
  }

  /** Setting slot 2's lexeme to `test2` gives the edited stream, which joins to "test test2 test". */
  lemma EditedStreamJoin()
    ensures ThreeWordsStream[2 := Token(ThreeWordsStream[2].kind, "test2")] == EditedStream
    ensures Concat(EditedStream) == "test test2 test"
  {
    var r4 := [Token(Word, "test")] + [];
    ConcatCons(Token(Word, "test"), []);
    var r3 := [Token(Whitespace, " ")] + r4;
    ConcatCons(Token(Whitespace, " "), r4);
    var r2 := [Token(Word, "test2")] + r3;
    ConcatCons(Token(Word, "test2"), r3);
    var r1 := [Token(Whitespace, " ")] + r2;
    ConcatCons(Token(Whitespace, " "), r2);
    var r0 := [Token(Word, "test")] + r1;
    ConcatCons(Token(Word, "test"), r1);
    EditedStreamLiterals();
  }

  /**
   * Parse a text, overwrite the lexeme of slot `i` through the stream's
   * backing array, and join the edited stream: the array holds the parsed
   * stream with only slot `i`'s lexeme replaced, and the joined text is the
   * original text with that one lexeme swapped.
   */
  method EditAndJoin(text: string, i: nat, lexeme: string) returns (a: array<Token>, joined: string)
    requires i < |Tokenize(ScannerMap, text)|
    ensures var toks := Tokenize(ScannerMap, text);
      && a[..] == toks[i := Token(toks[i].kind, lexeme)]
      && joined == Concat(toks[..i]) + lexeme + Concat(toks[i + 1..])
    ensures Concat(a[..]) == joined
  {
    var err, toks := Parse(Str(text));
    a := new Token[|toks|](k requires 0 <= k < |toks| => toks[k]);
    assert a[..] == toks;
    SetLexeme(a, i, lexeme);
    joined := Join(a[..]);
    ConcatReplace(toks, i, lexeme);
  }

  /**
   * The manipulation test: "test test test" with slot 2 set to `test2` keeps
   * every kind and joins to "test test2 test".
   */
  method ScannerManipulation() returns (a: array<Token>, joined: string)
    ensures a[..] == EditedStream
    ensures joined == "test test2 test"
  {
    ScannerThreeWords();
    EditedStreamJoin();
    a, joined := EditAndJoin(ThreeWords, 2, "test2");
  }

  /** A token local to the end of the text is the whole stream of its lexeme. */
  lemma OneToken(t: Token)
    requires ScannerLocal(t, "")
    ensures Tokenize(ScannerMap, t.lexeme) == [t]
  {
    ScannerLocalClassify(t, "");
    TokenizeCons(ScannerMap, t, "");
    assert t.lexeme + "" == t.lexeme;
  }

  /**
   * Case folding reaches the table class: a lone `s` folds to LONG S, which the
   * table holds, so it is a WORD by the second alternative.
   */
  lemma ScannerLoneS()
    ensures Tokenize(ScannerMap, "s") == [Token(Word, "s")]
  {
    AsciiRangeLetters('s');
    OneToken(Token(Word, "s"));
  }

  /**
   * No other ASCII letter folds into the table class: a lone ASCII letter
   * other than K, S, k and s is a CHAR.
   */
  lemma ScannerLoneAsciiLetter(c: char)
    requires 'a' <= c <= 'z' || 'A' <= c <= 'Z'
    requires c != 'K' && c != 'S' && c != 'k' && c != 's'
    ensures Tokenize(ScannerMap, [c]) == [Token(Char, [c])]
  {
    AsciiRangeLetters(c);
    OneToken(Token(Char, [c]));
  }

  /** A digit followed by digits is taken by WORD's first alternative before NUMBER is tried. */
  lemma ScannerDigitsAreWord()
    ensures Tokenize(ScannerMap, "1000") == [Token(Word, "1000")]
  {
    OneToken(Token(Word, "1000"));
  }

  /**
   * A run of codepoints of the folded table class is one WORD: by the first
   * alternative when it starts with a letter (s, k, U+017F, U+212A and their
   * capitals) and goes on, by the second otherwise.
   */
  lemma ScannerTableRun(w: string)
    requires w != []
    requires forall c :: c in w ==> IsRangeLetter(c)
    ensures Tokenize(ScannerMap, w) == [Token(Word, w)]
  {
    TableRunLocal(w);
    OneToken(Token(Word, w));
  }

  /** A run of the folded table class is a WORD local to the end of the text. */
  lemma TableRunLocal(w: string)
    requires w != []
    requires forall c :: c in w ==> IsRangeLetter(c)
    ensures ScannerLocal(Token(Word, w), "")
  {
    assert forall i :: 0 <= i < |w| ==> w[i] in w;
    if FirstAlternative(w) {
      assert forall i :: 1 <= i < |w| ==> IsWordTail(w[i]);
    } else {
      assert w + "" == w;
    }
  }

  /**
   * LONG S and KELVIN SIGN are table codepoints and folded `[a-z]` letters at
   * once, so followed by `-` they start WORD's first alternative.
   */
  lemma ScannerFoldedLetterHyphen(c: char)
    requires c == '\U{017F}' || c == '\U{212A}'
    ensures Tokenize(ScannerMap, [c, '-']) == [Token(Word, [c, '-'])]
  {
    FoldedLettersInTable(c);
    OneToken(Token(Word, [c, '-']));
  }

  /**
   * Any other codepoint of the folded table class takes the second
   * alternative, which stops before `-`: the pair is a WORD and a CHAR.
   */
  lemma ScannerTableHyphen(c: char)
    requires IsRangeLetter(c) && !IsLetterOrDigit(c)
    ensures Tokenize(ScannerMap, [c, '-']) == [Token(Word, [c]), Token(Char, "-")]
  {
    AsciiRangeLetters('-');
    ScannerStreamCons(Token(Char, "-"), []);
    ScannerStreamCons(Token(Word, [c]), [Token(Char, "-")] + []);
    assert [Token(Word, [c])] + ([Token(Char, "-")] + []) == [Token(Word, [c]), Token(Char, "-")];
    assert [c] + ("-" + Concat([])) == [c, '-'];
    ScannerStreamTokenize([Token(Word, [c]), Token(Char, "-")]);
  }

  /** Any run of letters from the Greek and Coptic block is one WORD. */
  lemma ScannerGreekWord(w: string)
    requires w != []
    requires forall c :: c in w ==> 0x0370 <= c as int <= 0x03FF
    ensures Tokenize(ScannerMap, w) == [Token(Word, w)]
  {
    forall c | c in w ensures IsRangeLetter(c) {
      ScriptBlocksInTable(c as int);
    }
    ScannerTableRun(w);
  }

  /**
   * The Unicode spaces that lie in blocks of the table are WORDs, not
   * WHITESPACE: NO-BREAK SPACE, OGHAM SPACE MARK, the General Punctuation
   * spaces and separators, and IDEOGRAPHIC SPACE.
   */
  lemma ScannerTableSpaces(c: char)
    requires || c == '\U{00A0}' || c == '\U{1680}' || '\U{2000}' <= c <= '\U{200A}'
             || c == '\U{2028}' || c == '\U{2029}' || c == '\U{202F}' || c == '\U{205F}'
             || c == '\U{3000}'
    ensures Tokenize(ScannerMap, [c]) == [Token(Word, [c])]
  {
    SpaceBlocksInTable(c as int);
    ScannerTableRun([c]);
  }

  /** U+000B and U+0085 are neither ASCII `\s`, nor digits, nor in the folded table class. */
  lemma OtherSpacesOutside(c: char)
    requires c == '\U{000B}' || c == '\U{0085}'
    ensures !IsSpace(c) && !IsDigit(c) && !IsLetterOrDigit(c) && !IsRangeLetter(c)
  {
    AsciiRangeLetters(c);
  }

  /** Spaces outside Go's `\s` and outside the table, such as U+000B and U+0085, are CHARs. */
  lemma ScannerOtherSpaces(c: char)
    requires c == '\U{000B}' || c == '\U{0085}'
    ensures Tokenize(ScannerMap, [c]) == [Token(Char, [c])]
  {
    OtherSpacesOutside(c);
    OneToken(Token(Char, [c]));
  }
}
