/**
 * The four kinds of anchored pattern the rule tables use, written as greedy
 * scanners over character classes. `MatchLen(m, s)` is the length of the text
 * that `regexp.FindString` returns for the pattern `m` on the remaining text
 * `s`, with 0 meaning no match (every pattern begins with `^`).
 */
module Matchers {
  import opened CharClasses

  /** A class a greedy `+` or `*` loop runs over. */
  datatype CharClass = LetterOrDigit | Space | Digit | WordTail | RangeLetter

  predicate In(cls: CharClass, c: char) {
    match cls
    case LetterOrDigit => IsLetterOrDigit(c)
    case Space => IsSpace(c)
    case Digit => IsDigit(c)
    case WordTail => IsWordTail(c)
    case RangeLetter => IsRangeLetter(c)
  }

  /** The first `n` codepoints of `s` are in `cls` and the next one, if any, is not. */
  ghost predicate MaximalRun(cls: CharClass, s: string, n: nat) {
    && n <= |s|
    && (forall i :: 0 <= i < n ==> In(cls, s[i]))
    && (n < |s| ==> !In(cls, s[n]))
  }

  /** A maximal run is unique: the greedy length is determined by the text. */
  lemma MaximalRunUnique(cls: CharClass, s: string, n1: nat, n2: nat)
    requires MaximalRun(cls, s, n1) && MaximalRun(cls, s, n2)
    ensures n1 == n2
  {
  }

  /** The greedy loop `[cls]*` at the start of `s`. */
  function Run(cls: CharClass, s: string): (n: nat)
    ensures MaximalRun(cls, s, n)
    decreases |s|
  {
    if s == [] || !In(cls, s[0]) then 0
    else
      var n := 1 + Run(cls, s[1..]);
      assert forall i :: 1 <= i < n ==> s[i] == s[1..][i - 1];
      n
  }

  /** The patterns of the two rule tables. */
  datatype Matcher =
    | LetterWord  // ^(?i)[a-z][a-z0-9]+            (lexer WORD)
    | ScriptWord  // ^(?i)([a-z0-9][a-z0-9\-'R]+|[R]+), R the Unicode table (scanner WORD)
    | Spaces      // ^\s+                            (WHITESPACE)
    | NonDigit    // ^(?i)([a-z]|[^0-9])             (CHAR)
    | Digits      // ^[0-9]+                         (NUMBER)

  /**
   * The scanner WORD pattern's first alternative can match: an ASCII letter or
   * digit followed by at least one codepoint of the tail class.
   */
  predicate FirstAlternative(s: string) {
    |s| >= 2 && IsLetterOrDigit(s[0]) && IsWordTail(s[1])
  }

  /**
   * Length of the leftmost-first match of `m` anchored at the start of `s`,
   * 0 when the pattern does not match.
   */
  function MatchLen(m: Matcher, s: string): (n: nat)
    ensures n <= |s|
  {
    match m
    case LetterWord =>
      if s != [] && IsLetter(s[0]) then
        var tail := Run(CharClass.LetterOrDigit, s[1..]);
        if tail > 0 then 1 + tail else 0
      else 0
    case ScriptWord =>
      // leftmost-first: the second alternative is tried only when the first fails
      var first := if s != [] && IsLetterOrDigit(s[0]) then Run(WordTail, s[1..]) else 0;
      if first > 0 then 1 + first else Run(RangeLetter, s)
    case Spaces => Run(Space, s)
    case NonDigit => if s != [] && (IsLetter(s[0]) || !IsDigit(s[0])) then 1 else 0
    case Digits => Run(Digit, s)
  }

  /**
   * What each pattern matches: the lexer WORD is a folded letter followed by a
   * maximal non-empty run of letters and digits; the scanner WORD takes its
   * first alternative whenever that can match, and otherwise the maximal run
   * of table codepoints; WHITESPACE and NUMBER are maximal runs; CHAR is
   * exactly one codepoint that is not a digit.
   */
  lemma MatchLenSpec(m: Matcher, s: string)
    ensures var n := MatchLen(m, s);
      m == LetterWord ==>
        && (n > 0 <==> |s| >= 2 && IsLetter(s[0]) && IsLetterOrDigit(s[1]))
        && (n > 0 ==> n >= 2 && MaximalRun(CharClass.LetterOrDigit, s[1..], n - 1))
    ensures var n := MatchLen(m, s);
      m == ScriptWord ==>
        if FirstAlternative(s) then n >= 2 && MaximalRun(WordTail, s[1..], n - 1)
        else MaximalRun(RangeLetter, s, n)
    ensures m == Spaces ==> MaximalRun(Space, s, MatchLen(m, s))
    ensures m == NonDigit ==> MatchLen(m, s) == if s != [] && !IsDigit(s[0]) then 1 else 0
    ensures m == Digits ==> MaximalRun(Digit, s, MatchLen(m, s))
  {
    match m
    case LetterWord =>
      if s != [] && IsLetter(s[0]) {
        var tail := Run(CharClass.LetterOrDigit, s[1..]);
        assert tail > 0 <==> |s| >= 2 && IsLetterOrDigit(s[1]);
      }
    case ScriptWord =>
      if s != [] && IsLetterOrDigit(s[0]) {
        var first := Run(WordTail, s[1..]);
        assert first > 0 <==> FirstAlternative(s);
      }
    case Spaces =>
    case NonDigit =>
      if s != [] {
        ClassesDisjoint(s[0]);
      }
    case Digits =>
  }
}
