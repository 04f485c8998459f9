/**
 * The table of inclusive codepoint ranges that the scanner's WORD rule accepts
 * besides ASCII letters and digits, and the case-folding closure that Go's
 * regexp package adds to that class under the `(?i)` flag.
 *
 * The table is compiled into the WORD pattern once, at package initialisation,
 * so the model treats it as an immutable value.
 */
module UnicodeRanges {

  /** One inclusive interval of codepoints, `\x{lo}-\x{hi}` inside a character class. */
  datatype CodepointRange = Range(lo: int, hi: int)

  /**
   * The exported `Unicode` table, in source order. It is written as seven
   * consecutive groups of at most twenty blocks; `Unicode` is their
   * concatenation, 121 ranges in all.
   */
  const Unicode: seq<CodepointRange> :=
    Blocks0 + Blocks1 + Blocks2 + Blocks3 + Blocks4 + Blocks5 + Blocks6

  const Blocks0: seq<CodepointRange> := [
    Range(0x2580, 0x259F), // Block Elements
    Range(0x00A0, 0x00FF), // Latin-1 Supplement
    Range(0x25A0, 0x25FF), // Geometric Shapes
    Range(0x0100, 0x017F), // Latin Extended-A
    Range(0x2600, 0x26FF), // Miscellaneous Symbols
    Range(0x0180, 0x024F), // Latin Extended-B
    Range(0x2700, 0x27BF), // Dingbats
    Range(0x0250, 0x02AF), // IPA Extensions
    Range(0x27C0, 0x27EF), // Miscellaneous Mathematical Symbols-A
    Range(0x02B0, 0x02FF), // Spacing Modifier Letters
    Range(0x27F0, 0x27FF), // Supplemental Arrows-A
    Range(0x0300, 0x036F), // Combining Diacritical Marks
    Range(0x2800, 0x28FF), // Braille Patterns
    Range(0x0370, 0x03FF), // Greek and Coptic
    Range(0x2900, 0x297F), // Supplemental Arrows-B
    Range(0x0400, 0x04FF), // Cyrillic
    Range(0x2980, 0x29FF), // Miscellaneous Mathematical Symbols-B
    Range(0x0500, 0x052F), // Cyrillic Supplementary
    Range(0x2A00, 0x2AFF), // Supplemental Mathematical Operators
    Range(0x0530, 0x058F) // Armenian
  ]

  const Blocks1: seq<CodepointRange> := [
    Range(0x2B00, 0x2BFF), // Miscellaneous Symbols and Arrows
    Range(0x0590, 0x05FF), // Hebrew
    Range(0x2E80, 0x2EFF), // CJK Radicals Supplement
    Range(0x0600, 0x06FF), // Arabic
    Range(0x2F00, 0x2FDF), // Kangxi Radicals
    Range(0x0700, 0x074F), // Syriac
    Range(0x2FF0, 0x2FFF), // Ideographic Description Characters
    Range(0x0780, 0x07BF), // Thaana
    Range(0x3000, 0x303F), // CJK Symbols and Punctuation
    Range(0x0900, 0x097F), // Devanagari
    Range(0x3040, 0x309F), // Hiragana
    Range(0x0980, 0x09FF), // Bengali
    Range(0x30A0, 0x30FF), // Katakana
    Range(0x0A00, 0x0A7F), // Gurmukhi
    Range(0x3100, 0x312F), // Bopomofo
    Range(0x0A80, 0x0AFF), // Gujarati
    Range(0x3130, 0x318F), // Hangul Compatibility Jamo
    Range(0x0B00, 0x0B7F), // Oriya
    Range(0x3190, 0x319F), // Kanbun
    Range(0x0B80, 0x0BFF) // Tamil
  ]

  const Blocks2: seq<CodepointRange> := [
    Range(0x31A0, 0x31BF), // Bopomofo Extended
    Range(0x0C00, 0x0C7F), // Telugu
    Range(0x31F0, 0x31FF), // Katakana Phonetic Extensions
    Range(0x0C80, 0x0CFF), // Kannada
    Range(0x3200, 0x32FF), // Enclosed CJK Letters and Months
    Range(0x0D00, 0x0D7F), // Malayalam
    Range(0x3300, 0x33FF), // CJK Compatibility
    Range(0x0D80, 0x0DFF), // Sinhala
    Range(0x3400, 0x4DBF), // CJK Unified Ideographs Extension A
    Range(0x0E00, 0x0E7F), // Thai
    Range(0x4DC0, 0x4DFF), // Yijing Hexagram Symbols
    Range(0x0E80, 0x0EFF), // Lao
    Range(0x4E00, 0x9FFF), // CJK Unified Ideographs
    Range(0x0F00, 0x0FFF), // Tibetan
    Range(0xA000, 0xA48F), // Yi Syllables
    Range(0x1000, 0x109F), // Myanmar
    Range(0xA490, 0xA4CF), // Yi Radicals
    Range(0x10A0, 0x10FF), // Georgian
    Range(0xAC00, 0xD7AF), // Hangul Syllables
    Range(0x1100, 0x11FF) // Hangul Jamo
  ]

  const Blocks3: seq<CodepointRange> := [
    Range(0xD800, 0xDB7F), // High Surrogates
    Range(0x1200, 0x137F), // Ethiopic
    Range(0xDB80, 0xDBFF), // High Private Use Surrogates
    Range(0x13A0, 0x13FF), // Cherokee
    Range(0xDC00, 0xDFFF), // Low Surrogates
    Range(0x1400, 0x167F), // Unified Canadian Aboriginal Syllabics
    Range(0xE000, 0xF8FF), // Private Use Area
    Range(0x1680, 0x169F), // Ogham
    Range(0xF900, 0xFAFF), // CJK Compatibility Ideographs
    Range(0x16A0, 0x16FF), // Runic
    Range(0xFB00, 0xFB4F), // Alphabetic Presentation Forms
    Range(0x1700, 0x171F), // Tagalog
    Range(0xFB50, 0xFDFF), // Arabic Presentation Forms-A
    Range(0x1720, 0x173F), // Hanunoo
    Range(0xFE00, 0xFE0F), // Variation Selectors
    Range(0x1740, 0x175F), // Buhid
    Range(0xFE20, 0xFE2F), // Combining Half Marks
    Range(0x1760, 0x177F), // Tagbanwa
    Range(0xFE30, 0xFE4F), // CJK Compatibility Forms
    Range(0x1780, 0x17FF) // Khmer
  ]

  const Blocks4: seq<CodepointRange> := [
    Range(0xFE50, 0xFE6F), // Small Form Variants
    Range(0x1800, 0x18AF), // Mongolian
    Range(0xFE70, 0xFEFF), // Arabic Presentation Forms-B
    Range(0x1900, 0x194F), // Limbu
    Range(0xFF00, 0xFFEF), // Halfwidth and Fullwidth Forms
    Range(0x1950, 0x197F), // Tai Le
    Range(0xFFF0, 0xFFFF), // Specials
    Range(0x19E0, 0x19FF), // Khmer Symbols
    Range(0x10000, 0x1007F), // Linear B Syllabary
    Range(0x1D00, 0x1D7F), // Phonetic Extensions
    Range(0x10080, 0x100FF), // Linear B Ideograms
    Range(0x1E00, 0x1EFF), // Latin Extended Additional
    Range(0x10100, 0x1013F), // Aegean Numbers
    Range(0x1F00, 0x1FFF), // Greek Extended
    Range(0x10300, 0x1032F), // Old Italic
    Range(0x2000, 0x206F), // General Punctuation
    Range(0x10330, 0x1034F), // Gothic
    Range(0x2070, 0x209F), // Superscripts and Subscripts
    Range(0x10380, 0x1039F), // Ugaritic
    Range(0x20A0, 0x20CF) // Currency Symbols
  ]

  const Blocks5: seq<CodepointRange> := [
    Range(0x10400, 0x1044F), // Deseret
    Range(0x20D0, 0x20FF), // Combining Diacritical Marks for Symbols
    Range(0x10450, 0x1047F), // Shavian
    Range(0x2100, 0x214F), // Letterlike Symbols
    Range(0x10480, 0x104AF), // Osmanya
    Range(0x2150, 0x218F), // Number Forms
    Range(0x10800, 0x1083F), // Cypriot Syllabary
    Range(0x2190, 0x21FF), // Arrows
    Range(0x1D000, 0x1D0FF), // Byzantine Musical Symbols
    Range(0x2200, 0x22FF), // Mathematical Operators
    Range(0x1D100, 0x1D1FF), // Musical Symbols
    Range(0x2300, 0x23FF), // Miscellaneous Technical
    Range(0x1D300, 0x1D35F), // Tai Xuan Jing Symbols
    Range(0x2400, 0x243F), // Control Pictures
    Range(0x1D400, 0x1D7FF), // Mathematical Alphanumeric Symbols
    Range(0x2440, 0x245F), // Optical Character Recognition
    Range(0x20000, 0x2A6DF), // CJK Unified Ideographs Extension B
    Range(0x2460, 0x24FF), // Enclosed Alphanumerics
    Range(0x2F800, 0x2FA1F), // CJK Compatibility Ideographs Supplement
    Range(0x2500, 0x257F) // Box Drawing
  ]

  const Blocks6: seq<CodepointRange> := [
    Range(0xE0000, 0xE007F) // Tags
  ]

  /**
   * Codepoints outside `Unicode` that the `(?i)` flag adds to the class
   * `[<Unicode>]`: Go closes a case-insensitive class under simple case folding
   * (Unicode 15.0 folding orbits). The ASCII entries come from U+017F (LATIN
   * SMALL LETTER LONG S, which folds with s and S) and U+212A (KELVIN SIGN,
   * which folds with k and K); the others are the partners of letters in the
   * Latin Extended-B, IPA, Cyrillic, Georgian, Cherokee and Phonetic
   * Extensions blocks of the table.
   */
  const FoldExtras: seq<CodepointRange> := [
    Range(0x4B, 0x4B),     // K, folds with U+212A
    Range(0x53, 0x53),     // S, folds with U+017F
    Range(0x6B, 0x6B),     // k, folds with U+212A
    Range(0x73, 0x73),     // s, folds with U+017F
    Range(0x1C80, 0x1C87), // Cyrillic Extended-C, folds with Cyrillic letters
    Range(0x1C90, 0x1CBA), // Georgian Mtavruli, folds with U+10D0-U+10FA
    Range(0x1CBD, 0x1CBF), // Georgian Mtavruli, folds with U+10FD-U+10FF
    Range(0x2C62, 0x2C66), // Latin Extended-C, folds with IPA / Latin Extended-B letters
    Range(0x2C6D, 0x2C70), // Latin Extended-C, folds with IPA letters
    Range(0x2C7E, 0x2C7F), // Latin Extended-C, folds with U+023F, U+0240
    Range(0x2D00, 0x2D25), // Georgian Supplement, folds with U+10A0-U+10C5
    Range(0x2D27, 0x2D27), // Georgian Supplement, folds with U+10C7
    Range(0x2D2D, 0x2D2D), // Georgian Supplement, folds with U+10CD
    Range(0xA77D, 0xA77D), // Latin Extended-D, folds with U+1D79
    Range(0xA78D, 0xA78D), // Latin Extended-D, folds with U+0265
    Range(0xA7AA, 0xA7AE), // Latin Extended-D, folds with IPA letters
    Range(0xA7B0, 0xA7B2), // Latin Extended-D, folds with IPA letters
    Range(0xA7C5, 0xA7C5), // Latin Extended-D, folds with U+0282
    Range(0xAB70, 0xABBF)  // Cherokee Supplement, folds with U+13A0-U+13EF
  ]

  /** Membership of a codepoint in a list of ranges (what a class of concatenated ranges matches). */
  function InTable(table: seq<CodepointRange>, cp: int): (b: bool)
    ensures b <==> exists i :: 0 <= i < |table| && table[i].lo <= cp <= table[i].hi
  {
    if table == [] then false
    else if table[0].lo <= cp <= table[0].hi then true
    else
      var b := InTable(table[1..], cp);
      assert b ==> exists i :: 0 <= i < |table[1..]| && table[1..][i].lo <= cp <= table[1..][i].hi;
      b
  }

  /** A range is well formed and lies above ASCII and the C1 controls. */
  predicate AboveAscii(r: CodepointRange) {
    0xA0 <= r.lo <= r.hi <= 0x10FFFF
  }

  /** Every range of the table is well formed and lies above ASCII and the C1 controls. */
  lemma UnicodeTableShape()
    ensures |Unicode| == 121
    ensures forall i :: 0 <= i < |Unicode| ==> AboveAscii(Unicode[i])
  {
    assert forall i :: 0 <= i < |Blocks0| ==> AboveAscii(Blocks0[i]);
    assert forall i :: 0 <= i < |Blocks1| ==> AboveAscii(Blocks1[i]);
    assert forall i :: 0 <= i < |Blocks2| ==> AboveAscii(Blocks2[i]);
    assert forall i :: 0 <= i < |Blocks3| ==> AboveAscii(Blocks3[i]);
    assert forall i :: 0 <= i < |Blocks4| ==> AboveAscii(Blocks4[i]);
    assert forall i :: 0 <= i < |Blocks5| ==> AboveAscii(Blocks5[i]);
    assert forall i :: 0 <= i < |Blocks6| ==> AboveAscii(Blocks6[i]);
  }

  /** No codepoint below U+00A0 is in the table itself: only folding brings ASCII letters in. */
  lemma {:induction false} BelowTableNotInTable(cp: int)
    requires cp < 0xA0
    ensures !InTable(Unicode, cp)
  {
    UnicodeTableShape();
  }

  /**
   * Greek, Cyrillic, Arabic, the combining diacritical marks, Latin
   * Extended-A (which holds U+017F) and the letterlike symbols (which hold
   * U+212A) are blocks of the table.
   */
  lemma {:induction false} ScriptBlocksInTable(cp: int)
    requires || 0x0100 <= cp <= 0x017F
             || 0x0300 <= cp <= 0x04FF
             || 0x0600 <= cp <= 0x06FF
             || 0x2100 <= cp <= 0x214F
    ensures InTable(Unicode, cp)
  {
    assert Unicode[3] == Range(0x0100, 0x017F);
    assert Unicode[11] == Range(0x0300, 0x036F);
    assert Unicode[13] == Range(0x0370, 0x03FF);
    assert Unicode[15] == Range(0x0400, 0x04FF);
    assert Unicode[23] == Range(0x0600, 0x06FF);
    assert Unicode[103] == Range(0x2100, 0x214F);
  }

  /**
   * Latin-1 Supplement (which holds NO-BREAK SPACE), Ogham (OGHAM SPACE MARK),
   * General Punctuation (the typographic spaces and the line and paragraph
   * separators) and CJK Symbols and Punctuation (IDEOGRAPHIC SPACE) are blocks
   * of the table.
   */
  lemma {:induction false} SpaceBlocksInTable(cp: int)
    requires || 0x00A0 <= cp <= 0x00FF
             || 0x1680 <= cp <= 0x169F
             || 0x2000 <= cp <= 0x206F
             || 0x3000 <= cp <= 0x303F
    ensures InTable(Unicode, cp)
  {
    assert Unicode[1] == Range(0x00A0, 0x00FF);
    assert Unicode[28] == Range(0x3000, 0x303F);
    assert Unicode[67] == Range(0x1680, 0x169F);
    assert Unicode[95] == Range(0x2000, 0x206F);
  }

  /** Among ASCII codepoints, folding adds exactly K, S, k and s. */
  lemma FoldExtrasAscii(cp: int)
    requires 0 <= cp < 0x80
    ensures InTable(FoldExtras, cp) <==> cp == 0x4B || cp == 0x53 || cp == 0x6B || cp == 0x73
  {
    assert forall i :: 4 <= i < |FoldExtras| ==> FoldExtras[i].lo >= 0x1C80;
  }

  /** Folding adds none of the C1 controls U+0080 to U+009F. */
  lemma FoldExtrasC1(cp: int)
    requires 0x80 <= cp < 0xA0
    ensures !InTable(FoldExtras, cp)
  {
    assert forall i :: 0 <= i < |FoldExtras| ==> FoldExtras[i].hi < 0x80 || FoldExtras[i].lo >= 0x1C80;
  }
}
