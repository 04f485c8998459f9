/**
 * The tokenizer engine shared by the scanner and the lexer: an ordered rule
 * table, anchored first-match classification of the remaining text, and the
 * loop that turns the whole text into a token stream.
 */
module Engine {
  import opened CharClasses
  import opened Matchers
  import opened Tokens

  datatype Option<T> = None | Some(value: T)

  /** One entry of a rule table: a pattern and the kind of token it yields. */
  datatype Rule = Rule(matcher: Matcher, kind: Kind)

  /**
   * A table the loop can always make progress with: it holds the CHAR pattern,
   * which matches any first codepoint that is not a digit, and the NUMBER
   * pattern, which matches a first codepoint that is.
   */
  predicate Total(rules: seq<Rule>) {
    Rule(NonDigit, Char) in rules && Rule(Digits, Number) in rules
  }

  /**
   * Index of the first rule, at or after `from`, whose pattern matches a
   * non-empty prefix of `s`; `|rules|` when none does.
   */
  function FirstRuleFrom(rules: seq<Rule>, s: string, from: nat): (i: nat)
    requires from <= |rules|
    ensures from <= i <= |rules|
    ensures forall j :: from <= j < i ==> MatchLen(rules[j].matcher, s) == 0
    ensures i < |rules| ==> MatchLen(rules[i].matcher, s) > 0
    decreases |rules| - from
  {
    if from == |rules| then from
    else if MatchLen(rules[from].matcher, s) > 0 then from
    else FirstRuleFrom(rules, s, from + 1)
  }

  /**
   * Rule priority: the winning rule is the earliest in table order that
   * matches; every rule before it fails to match.
   */
  function FirstRule(rules: seq<Rule>, s: string): (i: nat)
    ensures i <= |rules|
    ensures forall j :: 0 <= j < i ==> MatchLen(rules[j].matcher, s) == 0
    ensures i < |rules| ==> MatchLen(rules[i].matcher, s) > 0
  {
    FirstRuleFrom(rules, s, 0)
  }

  /** The rule index is determined by the priority property alone. */
  lemma {:induction false} FirstRuleUnique(rules: seq<Rule>, s: string, i: nat)
    requires i < |rules|
    requires forall j :: 0 <= j < i ==> MatchLen(rules[j].matcher, s) == 0
    requires MatchLen(rules[i].matcher, s) > 0
    ensures FirstRule(rules, s) == i
  {
  }

  /** Some rule of a total table matches any non-empty text. */
  lemma {:induction false} TotalMatches(rules: seq<Rule>, s: string)
    requires Total(rules) && s != []
    ensures FirstRule(rules, s) < |rules|
  {
    var i :| 0 <= i < |rules| && rules[i] == Rule(NonDigit, Char);
    var j :| 0 <= j < |rules| && rules[j] == Rule(Digits, Number);
    var k := if IsDigit(s[0]) then j else i;
    MatchLenSpec(rules[k].matcher, s);
    assert MatchLen(rules[k].matcher, s) > 0;
  }

  /**
   * The token the first matching rule yields at the start of `s`: its kind and
   * the prefix the pattern matched. A total table always yields one on
   * non-empty text.
   */
  function Classify(rules: seq<Rule>, s: string): (r: Option<Token>)
    ensures r.Some? <==> FirstRule(rules, s) < |rules|
    ensures r.Some? ==> r.value.lexeme != [] && |r.value.lexeme| <= |s| && r.value.lexeme == s[..|r.value.lexeme|]
    ensures r.Some? ==> var i := FirstRule(rules, s);
      r.value.kind == rules[i].kind && |r.value.lexeme| == MatchLen(rules[i].matcher, s)
    ensures Total(rules) && s != [] ==> r.Some?
  {
    var i := FirstRule(rules, s);
    if i < |rules| then
      Some(Token(rules[i].kind, s[..MatchLen(rules[i].matcher, s)]))
    else
      if Total(rules) && s != [] then TotalMatches(rules, s); None else None
  }

  /**
   * The token stream of `s`: classify at the cursor, emit the token, advance
   * past its lexeme, until no text remains.
   */
  function Tokenize(rules: seq<Rule>, s: string): (toks: seq<Token>)
    requires Total(rules)
    ensures forall k :: 0 <= k < |toks| ==> toks[k].lexeme != []
    ensures |toks| <= |s|
    decreases |s|
  {
    if s == [] then []
    else
      var t := Classify(rules, s).value;
      [t] + Tokenize(rules, s[|t.lexeme|..])
  }

  /**
   * One turn of the loop: the stream of a non-empty text is its first token
   * followed by the stream of what comes after that token's lexeme.
   */
  lemma TokenizeStep(rules: seq<Rule>, s: string)
    requires Total(rules) && s != []
    ensures var t := Classify(rules, s).value;
      Tokenize(rules, s) == [t] + Tokenize(rules, s[|t.lexeme|..])
  {
  }

  /** Losslessness: joining the stream gives back the text exactly. */
  lemma {:induction false} RoundTrip(rules: seq<Rule>, s: string)
    requires Total(rules)
    ensures Concat(Tokenize(rules, s)) == s
    decreases |s|
  {
    if s != [] {
      var t := Classify(rules, s).value;
      var n := |t.lexeme|;
      var tail := Tokenize(rules, s[n..]);
      TokenizeStep(rules, s);
      RoundTrip(rules, s[n..]);
      ConcatCons(t, tail);
      Rejoin(s, t.lexeme, Concat(tail));
    }
  }

  /**
   * Every token of the stream is what the rule table yields at that token's
   * cursor, the offset reached by the lexemes before it. With `FirstRule`,
   * this is first-match priority for every token of the stream.
   */
  lemma {:induction false} TokenAtCursor(rules: seq<Rule>, s: string, k: nat)
    requires Total(rules)
    requires k < |Tokenize(rules, s)|
    ensures |Concat(Tokenize(rules, s)[..k])| < |s|
    ensures Classify(rules, s[|Concat(Tokenize(rules, s)[..k])|..]) == Some(Tokenize(rules, s)[k])
    decreases |s|
  {
    var toks := Tokenize(rules, s);
    var t := Classify(rules, s).value;
    var rest := s[|t.lexeme|..];
    assert toks == [t] + Tokenize(rules, rest);
    if k == 0 {
      assert toks[..0] == [];
    } else {
      TokenAtCursor(rules, rest, k - 1);
      var before := Tokenize(rules, rest)[..k - 1];
      assert toks[..k] == [t] + before;
      assert Concat(toks[..k]) == t.lexeme + Concat(before);
      assert s[|Concat(toks[..k])|..] == rest[|Concat(before)|..];
    }
  }

  /**
   * When the table yields `t` on a text that starts with `t`'s lexeme, the
   * stream of that text is `t` followed by the stream of what comes after.
   */
  lemma {:induction false} TokenizeCons(rules: seq<Rule>, t: Token, rest: string)
    requires Total(rules)
    requires Classify(rules, t.lexeme + rest) == Some(t)
    ensures Tokenize(rules, t.lexeme + rest) == [t] + Tokenize(rules, rest)
  {
    assert (t.lexeme + rest)[|t.lexeme|..] == rest;
  }

  /**
   * `toks` is a chain of `rules`: every token is what the table yields on the
   * text that starts with that token.
   */
  ghost predicate Chained(rules: seq<Rule>, toks: seq<Token>) {
    forall k :: 0 <= k < |toks| ==> Classify(rules, Concat(toks[k..])) == Some(toks[k])
  }

  /**
   * The stream of a text is the one token list that joins back to the text
   * and in which every token is the table's choice where it starts.
   */
  lemma {:induction false} StreamIsChain(rules: seq<Rule>, s: string, toks: seq<Token>)
    requires Total(rules)
    ensures Tokenize(rules, s) == toks <==> Concat(toks) == s && Chained(rules, toks)
  {
    if Tokenize(rules, s) == toks {
      RoundTrip(rules, s);
      forall k | 0 <= k < |toks| ensures Classify(rules, Concat(toks[k..])) == Some(toks[k]) {
        StreamSuffixClassify(rules, s, k);
      }
    }
    if Concat(toks) == s && Chained(rules, toks) {
      ChainTokenize(rules, toks);
    }
  }

  /** The text from the `k`-th token of a stream on starts with the table's choice, that token. */
  lemma StreamSuffixClassify(rules: seq<Rule>, s: string, k: nat)
    requires Total(rules) && k < |Tokenize(rules, s)|
    ensures Classify(rules, Concat(Tokenize(rules, s)[k..])) == Some(Tokenize(rules, s)[k])
  {
    var toks := Tokenize(rules, s);
    TokenAtCursor(rules, s, k);
    RoundTrip(rules, s);
    assert toks[..k] + toks[k..] == toks;
    ConcatAppend(toks[..k], toks[k..]);
    assert Concat(toks[k..]) == s[|Concat(toks[..k])|..];
  }

  /** A chain is the stream of its own join. */
  lemma {:induction false} ChainTokenize(rules: seq<Rule>, toks: seq<Token>)
    requires Total(rules) && Chained(rules, toks)
    ensures Tokenize(rules, Concat(toks)) == toks
    decreases |toks|
  {
    if toks != [] {
      var t, tail := toks[0], toks[1..];
      assert toks[0..] == toks;
      assert Concat(toks) == t.lexeme + Concat(tail);
      TokenizeCons(rules, t, Concat(tail));
      forall k | 0 <= k < |tail| ensures Classify(rules, Concat(tail[k..])) == Some(tail[k]) {
        assert tail[k..] == toks[k + 1..];
      }
      ChainTokenize(rules, tail);
    }
  }

  /** The two shapes the source accepts, and anything else. */
  datatype Input =
    | ByteSlice(decoded: string)  // []byte, already read as a sequence of codepoints
    | Str(text: string)           // string
    | Other                       // any other dynamic type

  datatype ParseError = TypeError(message: string)

  /** The text a byte slice or a string carries. */
  function TextOf(data: Input): (text: string)
    requires !data.Other?
  {
    match data
    case ByteSlice(decoded) => decoded
    case Str(text) => text
  }

  /**
   * The match loop: while text remains, try the rules in order; the first
   * whose pattern matches a non-empty prefix appends `[kind, prefix]`, the
   * prefix is cut from the text, and the rule scan stops.
   */
  method ParseText(rules: seq<Rule>, text: string) returns (toks: seq<Token>)
    requires Total(rules)
    ensures toks == Tokenize(rules, text)
  {
    toks := [];
    var data := text;
    while |data| > 0
      invariant toks + Tokenize(rules, data) == Tokenize(rules, text)
      decreases |data|
    {
      ghost var before := data;
      ghost var emitted := toks;
      var found := false;
      for i := 0 to |rules|
        invariant data == before && toks == emitted && !found
        invariant forall j :: 0 <= j < i ==> MatchLen(rules[j].matcher, data) == 0
      {
        var str := data[..MatchLen(rules[i].matcher, data)];
        if |str| > 0 {
          FirstRuleUnique(rules, data, i);
          toks := toks + [Token(rules[i].kind, str)];
          data := data[|str|..];
          found := true;
          break;
        }
      }
      if !found {
        TotalMatches(rules, data);
        assert false;
      }
      TokenizeStep(rules, before);
    }
  }
}
