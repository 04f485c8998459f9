/**
 * The token stream that the basics test at scanner_test.go expects, proved
 * against the lexer table. The test itself targets a scanner interface that
 * does not exist in scanner.go; under the lexer table every expectation holds.
 */
module LexerFixtures {
  import opened Tokens
  import opened Engine
  import opened Lexer

  const BasicsInput: string := "test-1 test + 1 test+1 -1 1000 -1000"

  const BasicsExpected: seq<Token> := [
      Token(Word, "test"), Token(Char, "-"), Token(Number, "1"), Token(Whitespace, " "),
      Token(Word, "test"), Token(Whitespace, " "), Token(Char, "+"), Token(Whitespace, " "),
      Token(Number, "1"), Token(Whitespace, " "), Token(Word, "test"), Token(Char, "+"),
      Token(Number, "1"), Token(Whitespace, " "), Token(Char, "-"), Token(Number, "1"),
      Token(Whitespace, " "), Token(Number, "1000"), Token(Whitespace, " "), Token(Char, "-"),
      Token(Number, "1000")]

  /** A local token in front of a lexer stream extends it, and the join grows by its lexeme. */
  lemma LexerStreamCons(t: Token, toks: seq<Token>)
    requires LexerLocal(t, if toks == [] then "" else toks[0].lexeme)
    requires LexerStream(toks)
    ensures LexerStream([t] + toks)
    ensures Concat([t] + toks) == t.lexeme + Concat(toks)
  {
    assert ([t] + toks)[1..] == toks;
  }

  /** Tokens 0 to 1 of the fixture lead a lexer stream. */
  lemma BasicsPart0(rest: seq<Token>)
    requires LexerStream(rest)
    ensures LexerStream([Token(Word, "test")] + ([Token(Char, "-")] + (rest)))
    ensures Concat([Token(Word, "test")] + ([Token(Char, "-")] + (rest)))
         == "test" + ("-" + (Concat(rest)))
  {
    LexerStreamCons(Token(Char, "-"), rest);
    var r1 := [Token(Char, "-")] + rest;
    LexerStreamCons(Token(Word, "test"), r1);
  }

  /** Tokens 2 to 6 of the fixture lead a lexer stream. */
  lemma BasicsPart2(rest: seq<Token>)
    requires LexerStream(rest)
    ensures LexerStream([Token(Number, "1")] + ([Token(Whitespace, " ")] + ([Token(Word, "test")] + ([Token(Whitespace, " ")] + ([Token(Char, "+")] + (rest))))))
    ensures Concat([Token(Number, "1")] + ([Token(Whitespace, " ")] + ([Token(Word, "test")] + ([Token(Whitespace, " ")] + ([Token(Char, "+")] + (rest))))))
         == "1" + (" " + ("test" + (" " + ("+" + (Concat(rest))))))
  {
    LexerStreamCons(Token(Char, "+"), rest);
    var r6 := [Token(Char, "+")] + rest;
    LexerStreamCons(Token(Whitespace, " "), r6);
    var r5 := [Token(Whitespace, " ")] + r6;
    LexerStreamCons(Token(Word, "test"), r5);
    var r4 := [Token(Word, "test")] + r5;
    LexerStreamCons(Token(Whitespace, " "), r4);
    var r3 := [Token(Whitespace, " ")] + r4;
    LexerStreamCons(Token(Number, "1"), r3);
  }

  /** Tokens 7 to 11 of the fixture lead a lexer stream. */
  lemma BasicsPart7(rest: seq<Token>)
    requires LexerStream(rest)
    ensures LexerStream([Token(Whitespace, " ")] + ([Token(Number, "1")] + ([Token(Whitespace, " ")] + ([Token(Word, "test")] + ([Token(Char, "+")] + (rest))))))
    ensures Concat([Token(Whitespace, " ")] + ([Token(Number, "1")] + ([Token(Whitespace, " ")] + ([Token(Word, "test")] + ([Token(Char, "+")] + (rest))))))
         == " " + ("1" + (" " + ("test" + ("+" + (Concat(rest))))))
  {
    LexerStreamCons(Token(Char, "+"), rest);
    var r11 := [Token(Char, "+")] + rest;
    LexerStreamCons(Token(Word, "test"), r11);
    var r10 := [Token(Word, "test")] + r11;
    LexerStreamCons(Token(Whitespace, " "), r10);
    var r9 := [Token(Whitespace, " ")] + r10;
    LexerStreamCons(Token(Number, "1"), r9);
    var r8 := [Token(Number, "1")] + r9;
    LexerStreamCons(Token(Whitespace, " "), r8);
  }

  /** Tokens 12 to 14 of the fixture lead a lexer stream. */
  lemma BasicsPart12(rest: seq<Token>)
    requires LexerStream(rest)
    ensures LexerStream([Token(Number, "1")] + ([Token(Whitespace, " ")] + ([Token(Char, "-")] + (rest))))
    ensures Concat([Token(Number, "1")] + ([Token(Whitespace, " ")] + ([Token(Char, "-")] + (rest))))
         == "1" + (" " + ("-" + (Concat(rest))))
  {
    LexerStreamCons(Token(Char, "-"), rest);
    var r14 := [Token(Char, "-")] + rest;
    LexerStreamCons(Token(Whitespace, " "), r14);
    var r13 := [Token(Whitespace, " ")] + r14;
    LexerStreamCons(Token(Number, "1"), r13);
  }

  /** Tokens 15 to 20 of the fixture form a lexer stream. */
  lemma BasicsPart15()
    ensures LexerStream([Token(Number, "1")] + ([Token(Whitespace, " ")] + ([Token(Number, "1000")] + ([Token(Whitespace, " ")] + ([Token(Char, "-")] + ([Token(Number, "1000")] + ([])))))))
    ensures Concat([Token(Number, "1")] + ([Token(Whitespace, " ")] + ([Token(Number, "1000")] + ([Token(Whitespace, " ")] + ([Token(Char, "-")] + ([Token(Number, "1000")] + ([])))))))
         == "1" + (" " + ("1000" + (" " + ("-" + ("1000" + (""))))))
  {
    LexerStreamCons(Token(Number, "1000"), []);
    var r20 := [Token(Number, "1000")] + [];
    LexerStreamCons(Token(Char, "-"), r20);
    var r19 := [Token(Char, "-")] + r20;
    LexerStreamCons(Token(Whitespace, " "), r19);
    var r18 := [Token(Whitespace, " ")] + r19;
    LexerStreamCons(Token(Number, "1000"), r18);
    var r17 := [Token(Number, "1000")] + r18;
    LexerStreamCons(Token(Whitespace, " "), r17);
    var r16 := [Token(Whitespace, " ")] + r17;
    LexerStreamCons(Token(Number, "1"), r16);
  }

  /** The whole fixture, token by token, is the lexer stream of its join. */
  lemma BasicsChain()
    ensures Tokenize(LexerMap, "test" + ("-" + ("1" + (" " + ("test" + (" " + ("+" + (" " + ("1" + (" " + ("test" + ("+" + ("1" + (" " + ("-" + ("1" + (" " + ("1000" + (" " + ("-" + ("1000" + (""))))))))))))))))))))))
         == [Token(Word, "test")] + ([Token(Char, "-")] + ([Token(Number, "1")] + ([Token(Whitespace, " ")] + ([Token(Word, "test")] + ([Token(Whitespace, " ")] + ([Token(Char, "+")] + ([Token(Whitespace, " ")] + ([Token(Number, "1")] + ([Token(Whitespace, " ")] + ([Token(Word, "test")] + ([Token(Char, "+")] + ([Token(Number, "1")] + ([Token(Whitespace, " ")] + ([Token(Char, "-")] + ([Token(Number, "1")] + ([Token(Whitespace, " ")] + ([Token(Number, "1000")] + ([Token(Whitespace, " ")] + ([Token(Char, "-")] + ([Token(Number, "1000")] + ([])))))))))))))))))))))
  {
    BasicsPart15();
    var n15 := [Token(Number, "1")] + ([Token(Whitespace, " ")] + ([Token(Number, "1000")] + ([Token(Whitespace, " ")] + ([Token(Char, "-")] + ([Token(Number, "1000")] + ([]))))));
    BasicsPart12(n15);
    var n12 := [Token(Number, "1")] + ([Token(Whitespace, " ")] + ([Token(Char, "-")] + (n15)));
    BasicsPart7(n12);
    var n7 := [Token(Whitespace, " ")] + ([Token(Number, "1")] + ([Token(Whitespace, " ")] + ([Token(Word, "test")] + ([Token(Char, "+")] + (n12)))));
    BasicsPart2(n7);
    var n2 := [Token(Number, "1")] + ([Token(Whitespace, " ")] + ([Token(Word, "test")] + ([Token(Whitespace, " ")] + ([Token(Char, "+")] + (n7)))));
    BasicsPart0(n2);
    var n0 := [Token(Word, "test")] + ([Token(Char, "-")] + (n2));
    LexerStreamTokenize(n0);
  }

  /** The lexeme-by-lexeme form of the fixture input is its literal. */
  lemma BasicsInputLiteral()
    ensures "test" + ("-" + ("1" + (" " + ("test" + (" " + ("+" + (" " + ("1" + (" " + ("test" + ("+" + ("1" + (" " + ("-" + ("1" + (" " + ("1000" + (" " + ("-" + ("1000" + (""))))))))))))))))))))) == BasicsInput
  {
  }

  /** The token-by-token form of the expected stream is its literal. */
  lemma BasicsExpectedLiteral()
    ensures [Token(Word, "test")] + ([Token(Char, "-")] + ([Token(Number, "1")] + ([Token(Whitespace, " ")] + ([Token(Word, "test")] + ([Token(Whitespace, " ")] + ([Token(Char, "+")] + ([Token(Whitespace, " ")] + ([Token(Number, "1")] + ([Token(Whitespace, " ")] + ([Token(Word, "test")] + ([Token(Char, "+")] + ([Token(Number, "1")] + ([Token(Whitespace, " ")] + ([Token(Char, "-")] + ([Token(Number, "1")] + ([Token(Whitespace, " ")] + ([Token(Number, "1000")] + ([Token(Whitespace, " ")] + ([Token(Char, "-")] + ([Token(Number, "1000")] + ([]))))))))))))))))))))) == BasicsExpected
  {
  }

  /** The lexer turns the basics input into exactly the 21 expected tokens. */
  lemma LexerBasics()
    ensures Tokenize(LexerMap, BasicsInput) == BasicsExpected
  {
    BasicsChain();
    BasicsInputLiteral();
    BasicsExpectedLiteral();
  }

  /**
   * Every codepoint at or above U+0080 is a lone CHAR under the lexer table;
   * so is every Unicode space outside Go's ASCII `\s`. U+017F and U+212A fold
   * into `[a-z]`, but they start a WORD only when a letter or digit follows.
   */
  lemma LexerNonAsciiChar(c: char)
    requires c as int >= 0x80
    ensures Tokenize(LexerMap, [c]) == [Token(Char, [c])]
  {
    LexerStep(Token(Char, [c]), "");
    assert [c] + "" == [c];
  }
}
