/**
 * The character classes that the rule patterns of the scanner and the lexer
 * use, with the meaning Go's regexp package gives them. Under `(?i)` Go closes
 * every class under simple case folding, so `[a-z]` also admits U+017F and
 * U+212A, and the class of the Unicode table also admits s, S, k and K.
 */
module CharClasses {
  import opened UnicodeRanges

  /** `[0-9]`: an ASCII digit (no other codepoint folds to a digit). */
  predicate IsDigit(c: char) {
    '0' <= c <= '9'
  }

  /** `(?i)[a-z]`: an ASCII letter of either case, LONG S (U+017F) or KELVIN SIGN (U+212A). */
  predicate IsLetter(c: char) {
    'a' <= c <= 'z' || 'A' <= c <= 'Z' || c == '\U{017F}' || c == '\U{212A}'
  }

  /** `(?i)[a-z0-9]` */
  predicate IsLetterOrDigit(c: char) {
    IsLetter(c) || IsDigit(c)
  }

  /** Go's `\s`, which is ASCII only: tab, newline, form feed, carriage return and space. */
  predicate IsSpace(c: char) {
    c == '\t' || c == '\n' || c == '\U{000C}' || c == '\r' || c == ' '
  }

  /** `(?i)[<Unicode>]`: a codepoint of the table, or one that folding adds to it. */
  predicate IsRangeLetter(c: char) {
    InTable(Unicode, c as int) || InTable(FoldExtras, c as int)
  }

  /** `(?i)[a-z0-9\-'<Unicode>]`: what may follow the first codepoint of a scanner word. */
  predicate IsWordTail(c: char) {
    IsLetterOrDigit(c) || c == '-' || c == '\'' || IsRangeLetter(c)
  }

  /**
   * Below U+00A0 (ASCII and the C1 controls) the folded table class holds
   * exactly K, S, k and s.
   */
  lemma {:induction false} AsciiRangeLetters(c: char)
    requires c as int < 0xA0
    ensures IsRangeLetter(c) <==> c == 'K' || c == 'S' || c == 'k' || c == 's'
  {
    BelowTableNotInTable(c as int);
    if c as int < 0x80 {
      FoldExtrasAscii(c as int);
    } else {
      FoldExtrasC1(c as int);
    }
  }

  /** LONG S and KELVIN SIGN are both `(?i)[a-z]` letters and members of the table. */
  lemma {:induction false} FoldedLettersInTable(c: char)
    requires c == '\U{017F}' || c == '\U{212A}'
    ensures IsLetter(c) && IsRangeLetter(c)
  {
    ScriptBlocksInTable(c as int);
  }

  /** The rule classes never overlap where the rule order matters. */
  lemma ClassesDisjoint(c: char)
    ensures IsDigit(c) ==> !IsSpace(c) && !IsLetter(c)
    ensures IsSpace(c) ==> !IsWordTail(c)
  {
    if IsSpace(c) {
      AsciiRangeLetters(c);
    }
  }
}
