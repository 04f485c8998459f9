/**
 * What the scanner table makes of the basics test's input. The test lists the
 * lexer's 21 tokens; under the scanner's WORD pattern `test-1` and `1000` are
 * single words and a digit standing alone is a one-digit NUMBER, 19 tokens in
 * all.
 */
module ScannerBasics {
  import opened CharClasses
  import opened Tokens
  import opened Engine
  import opened Scanner
  import opened ScannerFixtures
  import opened LexerFixtures

  const ScannerBasicsStream: seq<Token> := [
    Token(Word, "test-1"), Token(Whitespace, " "), Token(Word, "test"), Token(Whitespace, " "),
    Token(Char, "+"), Token(Whitespace, " "), Token(Number, "1"), Token(Whitespace, " "),
    Token(Word, "test"), Token(Char, "+"), Token(Number, "1"), Token(Whitespace, " "),
    Token(Char, "-"), Token(Number, "1"), Token(Whitespace, " "), Token(Word, "1000"),
    Token(Whitespace, " "), Token(Char, "-"), Token(Word, "1000")]

  /**
   * A WORD of the first alternative, followed by a codepoint outside the
   * tail class, extends a scanner stream.
   */
  lemma WordCons(lex: string, toks: seq<Token>)
    requires |lex| >= 2 && IsLetterOrDigit(lex[0])
    requires forall i :: 1 <= i < |lex| ==> IsWordTail(lex[i])
    requires toks != [] ==> toks[0].lexeme != [] && !IsWordTail(toks[0].lexeme[0])
    requires ScannerStream(toks)
    ensures ScannerStream([Token(Word, lex)] + toks)
    ensures Concat([Token(Word, lex)] + toks) == lex + Concat(toks)
  {
    ScannerStreamCons(Token(Word, lex), toks);
  }

  /** A single space, followed by a codepoint that is not whitespace, extends a scanner stream. */
  lemma SpaceCons(toks: seq<Token>)
    requires toks != [] ==> toks[0].lexeme != [] && !IsSpace(toks[0].lexeme[0])
    requires ScannerStream(toks)
    ensures ScannerStream([Token(Whitespace, " ")] + toks)
    ensures Concat([Token(Whitespace, " ")] + toks) == " " + Concat(toks)
  {
    ScannerStreamCons(Token(Whitespace, " "), toks);
  }

  /** A lone punctuation codepoint, which no WORD can start, extends a scanner stream as a CHAR. */
  lemma CharCons(c: char, toks: seq<Token>)
    requires !IsDigit(c) && !IsSpace(c) && !IsRangeLetter(c) && !IsLetterOrDigit(c)
    requires ScannerStream(toks)
    ensures ScannerStream([Token(Char, [c])] + toks)
    ensures Concat([Token(Char, [c])] + toks) == [c] + Concat(toks)
  {
    ScannerStreamCons(Token(Char, [c]), toks);
  }

  /** Space, `+` and `-` are neither table codepoints nor folded into the table. */
  lemma AsciiPunctuation()
    ensures !IsRangeLetter(' ') && !IsRangeLetter('+') && !IsRangeLetter('-')
  {
    AsciiRangeLetters(' ');
    AsciiRangeLetters('+');
    AsciiRangeLetters('-');
  }

  /** Tokens 0 to 1 of the scanner stream lead a scanner stream. */
  lemma ScannerBasicsPart0(rest: seq<Token>)
    requires ScannerStream(rest) && rest != [] && rest[0].lexeme != [] && rest[0].lexeme[0] == 't'
    ensures ScannerStream([Token(Word, "test-1")] + ([Token(Whitespace, " ")] + (rest)))
    ensures Concat([Token(Word, "test-1")] + ([Token(Whitespace, " ")] + (rest)))
         == "test-1" + (" " + (Concat(rest)))
  {
    AsciiPunctuation();
    SpaceCons(rest);
    var r1 := [Token(Whitespace, " ")] + rest;
    WordCons("test-1", r1);
  }

  /** Tokens 2 to 3 of the scanner stream lead a scanner stream. */
  lemma ScannerBasicsPart2(rest: seq<Token>)
    requires ScannerStream(rest) && rest != [] && rest[0].lexeme != [] && rest[0].lexeme[0] == '+'
    ensures ScannerStream([Token(Word, "test")] + ([Token(Whitespace, " ")] + (rest)))
    ensures Concat([Token(Word, "test")] + ([Token(Whitespace, " ")] + (rest)))
         == "test" + (" " + (Concat(rest)))
  {
    AsciiPunctuation();
    SpaceCons(rest);
    var r3 := [Token(Whitespace, " ")] + rest;
    WordCons("test", r3);
  }

  /** Tokens 4 to 5 of the scanner stream lead a scanner stream. */
  lemma ScannerBasicsPart4(rest: seq<Token>)
    requires ScannerStream(rest) && rest != [] && rest[0].lexeme != [] && rest[0].lexeme[0] == '1'
    ensures ScannerStream([Token(Char, "+")] + ([Token(Whitespace, " ")] + (rest)))
    ensures Concat([Token(Char, "+")] + ([Token(Whitespace, " ")] + (rest)))
         == "+" + (" " + (Concat(rest)))
  {
    AsciiPunctuation();
    SpaceCons(rest);
    var r5 := [Token(Whitespace, " ")] + rest;
    CharCons('+', r5);
  }

  /** Tokens 6 to 7 of the scanner stream lead a scanner stream. */
  lemma ScannerBasicsPart6(rest: seq<Token>)
    requires ScannerStream(rest) && rest != [] && rest[0].lexeme != [] && rest[0].lexeme[0] == 't'
    ensures ScannerStream([Token(Number, "1")] + ([Token(Whitespace, " ")] + (rest)))
    ensures Concat([Token(Number, "1")] + ([Token(Whitespace, " ")] + (rest)))
         == "1" + (" " + (Concat(rest)))
  {
    AsciiPunctuation();
    SpaceCons(rest);
    var r7 := [Token(Whitespace, " ")] + rest;
    ScannerStreamCons(Token(Number, "1"), r7);
  }

  /** Tokens 8 to 9 of the scanner stream lead a scanner stream. */
  lemma ScannerBasicsPart8(rest: seq<Token>)
    requires ScannerStream(rest) && rest != [] && rest[0].lexeme != [] && rest[0].lexeme[0] == '1'
    ensures ScannerStream([Token(Word, "test")] + ([Token(Char, "+")] + (rest)))
    ensures Concat([Token(Word, "test")] + ([Token(Char, "+")] + (rest)))
         == "test" + ("+" + (Concat(rest)))
  {
    AsciiPunctuation();
    CharCons('+', rest);
    var r9 := [Token(Char, "+")] + rest;
    WordCons("test", r9);
  }

  /** Tokens 10 to 11 of the scanner stream lead a scanner stream. */
  lemma ScannerBasicsPart10(rest: seq<Token>)
    requires ScannerStream(rest) && rest != [] && rest[0].lexeme != [] && rest[0].lexeme[0] == '-'
    ensures ScannerStream([Token(Number, "1")] + ([Token(Whitespace, " ")] + (rest)))
    ensures Concat([Token(Number, "1")] + ([Token(Whitespace, " ")] + (rest)))
         == "1" + (" " + (Concat(rest)))
  {
    AsciiPunctuation();
    SpaceCons(rest);
    var r11 := [Token(Whitespace, " ")] + rest;
    ScannerStreamCons(Token(Number, "1"), r11);
  }

  /** Tokens 12 to 13 of the scanner stream lead a scanner stream. */
  lemma ScannerBasicsPart12(rest: seq<Token>)
    requires ScannerStream(rest) && rest != [] && rest[0].lexeme != [] && rest[0].lexeme[0] == ' '
    ensures ScannerStream([Token(Char, "-")] + ([Token(Number, "1")] + (rest)))
    ensures Concat([Token(Char, "-")] + ([Token(Number, "1")] + (rest)))
         == "-" + ("1" + (Concat(rest)))
  {
    AsciiPunctuation();
    ScannerStreamCons(Token(Number, "1"), rest);
    var r13 := [Token(Number, "1")] + rest;
    CharCons('-', r13);
  }

  /** Tokens 14 to 15 of the scanner stream lead a scanner stream. */
  lemma ScannerBasicsPart14(rest: seq<Token>)
    requires ScannerStream(rest) && rest != [] && rest[0].lexeme != [] && rest[0].lexeme[0] == ' '
    ensures ScannerStream([Token(Whitespace, " ")] + ([Token(Word, "1000")] + (rest)))
    ensures Concat([Token(Whitespace, " ")] + ([Token(Word, "1000")] + (rest)))
         == " " + ("1000" + (Concat(rest)))
  {
    AsciiPunctuation();
    WordCons("1000", rest);
    var r15 := [Token(Word, "1000")] + rest;
    SpaceCons(r15);
  }

  /** Tokens 16 to 18 of the scanner stream form a scanner stream. */
  lemma ScannerBasicsPart16()
    ensures ScannerStream([Token(Whitespace, " ")] + ([Token(Char, "-")] + ([Token(Word, "1000")] + ([]))))
    ensures Concat([Token(Whitespace, " ")] + ([Token(Char, "-")] + ([Token(Word, "1000")] + ([]))))
         == " " + ("-" + ("1000" + ("")))
  {
    AsciiPunctuation();
    WordCons("1000", []);
    var r18 := [Token(Word, "1000")] + [];
    CharCons('-', r18);
    var r17 := [Token(Char, "-")] + r18;
    SpaceCons(r17);
  }

  /** The scanner's stream of the basics input, token by token. */
  lemma ScannerBasicsChain()
    ensures Tokenize(ScannerMap, "test-1" + (" " + ("test" + (" " + ("+" + (" " + ("1" + (" " + ("test" + ("+" + ("1" + (" " + ("-" + ("1" + (" " + ("1000" + (" " + ("-" + ("1000" + (""))))))))))))))))))))
         == [Token(Word, "test-1")] + ([Token(Whitespace, " ")] + ([Token(Word, "test")] + ([Token(Whitespace, " ")] + ([Token(Char, "+")] + ([Token(Whitespace, " ")] + ([Token(Number, "1")] + ([Token(Whitespace, " ")] + ([Token(Word, "test")] + ([Token(Char, "+")] + ([Token(Number, "1")] + ([Token(Whitespace, " ")] + ([Token(Char, "-")] + ([Token(Number, "1")] + ([Token(Whitespace, " ")] + ([Token(Word, "1000")] + ([Token(Whitespace, " ")] + ([Token(Char, "-")] + ([Token(Word, "1000")] + ([])))))))))))))))))))
  {
    ScannerBasicsPart16();
    var n16 := [Token(Whitespace, " ")] + ([Token(Char, "-")] + ([Token(Word, "1000")] + ([])));
    ScannerBasicsPart14(n16);
    var n14 := [Token(Whitespace, " ")] + ([Token(Word, "1000")] + (n16));
    ScannerBasicsPart12(n14);
    var n12 := [Token(Char, "-")] + ([Token(Number, "1")] + (n14));
    ScannerBasicsPart10(n12);
    var n10 := [Token(Number, "1")] + ([Token(Whitespace, " ")] + (n12));
    ScannerBasicsPart8(n10);
    var n8 := [Token(Word, "test")] + ([Token(Char, "+")] + (n10));
    ScannerBasicsPart6(n8);
    var n6 := [Token(Number, "1")] + ([Token(Whitespace, " ")] + (n8));
    ScannerBasicsPart4(n6);
    var n4 := [Token(Char, "+")] + ([Token(Whitespace, " ")] + (n6));
    ScannerBasicsPart2(n4);
    var n2 := [Token(Word, "test")] + ([Token(Whitespace, " ")] + (n4));
    ScannerBasicsPart0(n2);
    var n0 := [Token(Word, "test-1")] + ([Token(Whitespace, " ")] + (n2));
    ScannerStreamTokenize(n0);
  }

  /** The lexeme-by-lexeme form is the basics input. */
  lemma ScannerBasicsInputLiteral()
    ensures "test-1" + (" " + ("test" + (" " + ("+" + (" " + ("1" + (" " + ("test" + ("+" + ("1" + (" " + ("-" + ("1" + (" " + ("1000" + (" " + ("-" + ("1000" + (""))))))))))))))))))) == BasicsInput
  {
  }

  /** The token-by-token form is the literal stream. */
  lemma ScannerBasicsStreamLiteral()
    ensures [Token(Word, "test-1")] + ([Token(Whitespace, " ")] + ([Token(Word, "test")] + ([Token(Whitespace, " ")] + ([Token(Char, "+")] + ([Token(Whitespace, " ")] + ([Token(Number, "1")] + ([Token(Whitespace, " ")] + ([Token(Word, "test")] + ([Token(Char, "+")] + ([Token(Number, "1")] + ([Token(Whitespace, " ")] + ([Token(Char, "-")] + ([Token(Number, "1")] + ([Token(Whitespace, " ")] + ([Token(Word, "1000")] + ([Token(Whitespace, " ")] + ([Token(Char, "-")] + ([Token(Word, "1000")] + ([]))))))))))))))))))) == ScannerBasicsStream
  {
  }

  /**
   * The scanner turns the basics input into 19 tokens: WORD `test-1` and
   * WORD `1000` where the test expects WORD, CHAR, NUMBER and NUMBER.
   */
  lemma ScannerBasicsTokens()
    ensures Tokenize(ScannerMap, BasicsInput) == ScannerBasicsStream
    ensures Tokenize(ScannerMap, BasicsInput) != BasicsExpected
  {
    ScannerBasicsChain();
    ScannerBasicsInputLiteral();
    ScannerBasicsStreamLiteral();
    assert ScannerBasicsStream[0] != BasicsExpected[0];
  }
}
