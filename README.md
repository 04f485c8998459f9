# Southern/scanner tokenizer, modelled in Dafny

This project models the tokenizer at the heart of Southern/scanner. `Parse` takes a
`[]byte` or a `string`, and any other value is a type error. It walks the text from
the front. At each cursor it tries an ordered table of anchored patterns (WORD,
WHITESPACE, CHAR, NUMBER). The first pattern that matches a non-empty prefix emits
a token `[kind, lexeme]`, and the cursor moves past that lexeme. `Join` concatenates
the lexemes back into text. Callers may overwrite a lexeme in place before joining.

The repository has two rule tables over the same loop:

- `scanner.go`, modelled by module `Scanner`. Its WORD pattern is extended with the
  exported `Unicode` table of codepoint ranges.
- `lexer.go`, modelled by module `Lexer`. It is the older table, whose WORD knows
  only ASCII letters and digits.

Modules:

- `UnicodeRanges` (unicode_ranges.dfy): the 121 ranges of `Unicode`, in source
  order. It also holds the extra codepoints that Go's case folding adds to that
  class under `(?i)`.
- `CharClasses` (char_classes.dfy): the character classes of the patterns, with
  Go's regexp meaning:
  - `\s` is ASCII only;
  - `(?i)[a-z]` also admits U+017F and U+212A;
  - the folded table class also admits `s`, `S`, `k` and `K`.
- `Matchers` (matchers.dfy): the five pattern shapes (four per table) as greedy
  scanners over those classes. `MatchLen` is the length of what `FindString` returns.
- `Tokens` (tokens.dfy): kinds, tokens, the join, the `Join` loop, and the in-place
  lexeme edit on an array.
- `Engine` (engine.dfy): the shared machinery.
  - rule priority (`FirstRule`) and classification at the cursor (`Classify`);
  - the token stream as a function (`Tokenize`);
  - the nested match loop with its early `break` (`ParseText`), proved equal to
    `Tokenize`;
  - losslessness and the characterisation of a stream as a chain of first-match
    choices.
- `Scanner` and `Lexer` (scanner.dfy, lexer.dfy): each has its rule table and
  `Parse` with the type switch. Each also gives an exact local characterisation of
  the tokens its table emits. A token list is the stream of a text exactly when it
  joins back to the text and every token is local to the one after it.
- `ScannerFixtures`, `LexerFixtures` and `ScannerBasics` (scanner_fixtures.dfy,
  lexer_fixtures.dfy, scanner_basics.dfy): the concrete inputs of the tests and of
  the documentation comments, proved against the tables.

The patterns of scanner.go:414-424 and lexer.go:23-28 read naturally in ways
that Go's regexp package does not follow. The model follows what Go does with
them:

- **Which codepoints start the first WORD alternative.** It starts only with
  `[a-z0-9]`, folded. A text that starts with any other table codepoint (every
  one except U+017F and U+212A) takes the second alternative, a run of the
  folded table class. So `é-` is WORD `é` followed by CHAR `-`
  (`ScannerFixtures.ScannerTableHyphen`). U+017F and U+212A are also folded
  `[a-z]` letters, so `ſ-` is one WORD (`ScannerFixtures.ScannerFoldedLetterHyphen`).
- **What counts as whitespace.** WHITESPACE is Go's ASCII `\s`: tab, newline,
  form feed, carriage return and space. Other Unicode spaces are never
  WHITESPACE, and what they become depends on the table:
  - Under the scanner table, spaces that lie in blocks of `Unicode` are WORDs.
    These are NO-BREAK SPACE, OGHAM SPACE MARK, the General Punctuation spaces
    and separators, and IDEOGRAPHIC SPACE (`ScannerFixtures.ScannerTableSpaces`).
  - Under the scanner table, spaces outside the table, such as U+000B and
    U+0085, are CHARs (`ScannerFixtures.ScannerOtherSpaces`).
  - Under the lexer table every non-ASCII space, like every other lone
    non-ASCII codepoint, is a CHAR (`LexerFixtures.LexerNonAsciiChar`).
- **How long a NUMBER is.** Under the scanner table every NUMBER lexeme is a
  single digit. A digit followed by a digit, letter, `-`, `'` or table codepoint
  is taken by WORD first, so `1000` is one WORD (`Scanner.ScannerClassify`).
- **What happens when no rule matches.** Nothing fatal is raised: the loop would
  simply not advance. For both tables the model proves that this cannot happen
  (`Engine.TotalMatches`).
- **Whether callers can extend the `Unicode` table.** They cannot affect
  matching. `ScannerMap` is compiled once at package initialisation, so the table
  is an immutable value here.

## Model

| member | source | states |
|---|---|---|
| UnicodeRanges.Unicode | scanner.go:38-401 | the exported table: its 121 inclusive codepoint ranges, in source order |
| UnicodeRanges.FoldExtras | scanner.go:416 | the codepoints outside the table that `(?i)` adds to the table class, by Unicode simple case folding |
| UnicodeRanges.InTable | scanner.go:403-405 | a codepoint is in the class built by joining the ranges exactly when some range of the list contains it |
| UnicodeRanges.UnicodeTableShape | scanner.go:38-401 | the table has 121 ranges, each well formed and lying at or above U+00A0 |
| UnicodeRanges.BelowTableNotInTable | scanner.go:38-401 | no ASCII or C1 codepoint is a table member |
| UnicodeRanges.ScriptBlocksInTable | scanner.go:38-401 | Latin Extended-A, the combining marks, Greek, Cyrillic, Arabic and the letterlike symbols are table blocks |
| UnicodeRanges.SpaceBlocksInTable | scanner.go:38-401 | Latin-1 Supplement, Ogham, General Punctuation and CJK Symbols and Punctuation, the blocks that hold the non-ASCII spaces, are table blocks |
| UnicodeRanges.FoldExtrasAscii | scanner.go:416 | among ASCII codepoints, case folding adds exactly K, S, k and s to the table class |
| UnicodeRanges.FoldExtrasC1 | scanner.go:416 | case folding adds none of the C1 controls U+0080 to U+009F to the table class |
| CharClasses.IsDigit | scanner.go:423 | `[0-9]`: an ASCII digit; no other codepoint folds to one |
| CharClasses.IsLetter | lexer.go:24 | `(?i)[a-z]`: an ASCII letter of either case, U+017F or U+212A |
| CharClasses.IsLetterOrDigit | scanner.go:416 | `(?i)[a-z0-9]`, the first codepoint of WORD's first alternative |
| CharClasses.IsSpace | scanner.go:419 | Go's `\s`: tab, newline, form feed, carriage return and space, and nothing else |
| CharClasses.IsRangeLetter | scanner.go:416 | `(?i)[<table>]`: a table codepoint or one that folding adds to the table class |
| CharClasses.IsWordTail | scanner.go:416 | `(?i)[a-z0-9\-'<table>]`, what may follow the first codepoint of WORD's first alternative |
| CharClasses.AsciiRangeLetters | scanner.go:416 | a codepoint below U+00A0 is in the folded table class if and only if it is K, S, k or s |
| CharClasses.FoldedLettersInTable | scanner.go:416 | U+017F and U+212A are both folded `[a-z]` letters and table members |
| CharClasses.ClassesDisjoint | scanner.go:415-423 | a digit is neither whitespace nor a letter, and whitespace never continues a WORD |
| Matchers.Run | scanner.go:419 | the greedy `[c]+` loop stops at the first codepoint outside the class: its length is a maximal run |
| Matchers.MaximalRunUnique | scanner.go:419 | a maximal run has one length, so a greedy match is determined by the text |
| Matchers.MatchLen | scanner.go:415-423 | the length of what `FindString` returns for each of the five patterns (the four scanner patterns and the lexer WORD of lexer.go:24) is never longer than the text, with 0 for no match; what each pattern matches is stated by `MatchLenSpec` |
| Matchers.MatchLenSpec | scanner.go:415-423 | the match of each pattern, one case per pattern: (1) lexer WORD matches exactly when a letter is followed by a letter or digit, and is then a maximal run; (2) scanner WORD takes the first alternative whenever it can match, and otherwise a maximal run of table codepoints; (3) WHITESPACE and NUMBER are maximal runs; (4) CHAR is one codepoint exactly when that codepoint is not a digit |
| Tokens.Name | scanner.go:415-423 | every kind carries one of the four names WORD, WHITESPACE, CHAR, NUMBER |
| Tokens.NamesDistinct | scanner.go:415-423 | two kinds have the same name if and only if they are the same kind |
| Tokens.Concat | scanner.go:461-470 | the text `Join` returns: the lexemes of the stream, concatenated in stream order; the lexer's `Join` (lexer.go:65-74) is the same |
| Tokens.ConcatAppend | scanner.go:461-470 | the join of two streams placed end to end is the join of the first followed by the join of the second |
| Tokens.ConcatAround | scanner.go:461-470 | a stream's join is the lexemes before slot i, then slot i's lexeme, then the lexemes after it |
| Tokens.ConcatReplace | scanner.go:500 | overwriting slot i's lexeme changes the join only in that slot |
| Tokens.Join | scanner.go:461-470 | the accumulate-and-reslice loop returns the concatenation of all lexemes in order; the lexer's `Join` (lexer.go:65-74) is the same loop |
| Tokens.SetLexeme | scanner.go:500 | `s[i][1] = lexeme` keeps slot i's kind and sets its lexeme, and leaves every other slot unchanged |
| Engine.FirstRuleFrom | scanner.go:525-531 | the scan of the `range` loop from index `from`: every rule it skips fails to match, and the rule it stops at matches, or it runs off the end of the table |
| Engine.FirstRule | scanner.go:525-531 | the winning rule is the earliest in table order that matches; every rule before it fails |
| Engine.FirstRuleUnique | scanner.go:525-531 | a rule that matches while all earlier ones fail is the winning rule |
| Engine.TotalMatches | scanner.go:420-423 | with the CHAR and NUMBER patterns in the table, some rule matches every non-empty text, so the loop never stalls |
| Engine.Classify | scanner.go:525-531 | the token is present exactly when some rule matches; its kind is that of the first matching rule and its lexeme is the non-empty prefix that rule's pattern matches; it is always present for a total table on non-empty text |
| Engine.Tokenize | scanner.go:524-534 | every lexeme of the stream is non-empty, and the stream has at most as many tokens as the text has codepoints |
| Engine.TokenizeStep | scanner.go:524-534 | one turn of the loop: the first token, then the stream of the text after its lexeme |
| Engine.RoundTrip | lexer.go:88-98 | losslessness: joining the stream of any text gives the text back |
| Engine.TokenAtCursor | scanner.go:524-534 | the k-th token is the table's first-match choice at the offset reached by the lexemes before it |
| Engine.TokenizeCons | scanner.go:526-531 | when the table yields t on t's lexeme followed by more text, the stream is t followed by the stream of the rest |
| Engine.StreamSuffixClassify | scanner.go:524-534 | the text from any token of the stream on starts with the table's choice, that token |
| Engine.StreamIsChain | scanner.go:524-534 | a token list is the stream of a text if and only if it joins to the text and each token is the table's choice at its own start |
| Engine.ChainTokenize | scanner.go:524-534 | a list of first-match choices is the stream of its own join |
| Engine.TextOf | scanner.go:512-522 | the text of a byte slice or a string, the two cases of `Parse`'s type switch; `Engine.Input` adds the default case |
| Engine.ParseText | scanner.go:524-534 | the nested loop with its early `break` yields exactly the token stream of the text; the lexer's loop (lexer.go:88-98) is the same loop over its own table |
| Scanner.ScannerMap | scanner.go:414-424 | the scanner's table: WORD (the pattern with the `Unicode` class), WHITESPACE, CHAR, NUMBER, in this priority order; every call of `Tokenize` on it checks that it holds the CHAR and NUMBER rules |
| Scanner.ScannerKindNames | scanner.go:414-424 | the four scanner rules carry the type strings WORD, WHITESPACE, CHAR and NUMBER, in that order |
| Scanner.TypeErrorMessage | scanner.go:521 | the message of the error `Scanner.Parse` returns for a value that is neither bytes nor a string |
| Scanner.Parse | scanner.go:512-537 | bytes or a string give no error and the stream of the text, which joins back to it; any other value gives the type error and an empty stream |
| Scanner.ScannerClassify | scanner.go:414-424 | the scanner's choice at the cursor: (1) WORD whenever the WORD pattern matches; (2) otherwise the WHITESPACE run at whitespace; (3) one CHAR at any other non-digit; (4) a one-digit NUMBER at a digit |
| Scanner.ScannerClassifyLocal | scanner.go:414-424 | every token the scanner table emits is local to the text after it |
| Scanner.ScannerSingleLocal | scanner.go:419-423 | where WORD fails, the WHITESPACE, CHAR or NUMBER token emitted is local |
| Scanner.ScannerWordLocal | scanner.go:415-418 | a WORD match has one of the two word shapes and cannot be extended into the next codepoint |
| Scanner.ScannerLocalClassify | scanner.go:414-424 | a token with the local property is exactly what the scanner table yields there |
| Scanner.ScannerLocalWord | scanner.go:415-418 | a lexeme of either word shape is the whole WORD match |
| Scanner.ScannerLocalIff | scanner.go:414-424 | the scanner yields t on t's lexeme followed by a text if and only if t is local to that text |
| Scanner.ScannerStep | scanner.go:524-534 | a local token heads the scanner stream of its lexeme followed by the rest |
| Scanner.ScannerLocalHead | scanner.go:414-424 | locality depends only on whether a next codepoint exists and which it is |
| Scanner.TokenizeIsScannerStream | scanner.go:524-534 | the scanner stream of any text has every token local to the next lexeme |
| Scanner.ScannerStreamHead | scanner.go:524-534 | the head of a local stream is local to the join of the tokens after it |
| Scanner.ScannerStreamTokenize | scanner.go:524-534 | a list of local tokens is the scanner stream of its own join |
| Scanner.ScannerStreamIff | scanner.go:524-534 | a token list is the scanner stream of a text if and only if it joins to the text and is a local stream |
| Lexer.LexerMap | lexer.go:23-28 | the lexer's table: WORD (ASCII letters and digits only), WHITESPACE, CHAR, NUMBER, in this priority order |
| Lexer.LexerKindNames | lexer.go:23-28 | the four lexer rules carry the type strings WORD, WHITESPACE, CHAR and NUMBER, in that order |
| Lexer.TypeErrorMessage | lexer.go:85 | the message of the error `Lexer.Parse` returns for a value that is neither bytes nor a string |
| Lexer.Parse | lexer.go:76-101 | bytes or a string give no error and the stream of the text, which joins back to it; any other value gives the type error and an empty stream |
| Lexer.LexerClassify | lexer.go:23-28 | the lexer's choice at the cursor: (1) WORD, a maximal letter-and-digit run, when a letter is followed by a letter or digit; (2) otherwise the WHITESPACE run; (3) one CHAR at any other non-digit; (4) the maximal NUMBER run at a digit |
| Lexer.LexerClassifyLocal | lexer.go:23-28 | every token the lexer table emits is local to the text after it |
| Lexer.LexerLocalClassify | lexer.go:23-28 | a token with the local property is exactly what the lexer table yields there |
| Lexer.LexerLocalIff | lexer.go:23-28 | the lexer yields t on t's lexeme followed by a text if and only if t is local to that text |
| Lexer.LexerStep | lexer.go:88-98 | a local token heads the lexer stream of its lexeme followed by the rest |
| Lexer.LexerLocalHead | lexer.go:23-28 | locality depends only on whether a next codepoint exists and which it is |
| Lexer.TokenizeIsLexerStream | lexer.go:88-98 | the lexer stream of any text has every token local to the next lexeme |
| Lexer.LexerStreamHead | lexer.go:88-98 | the head of a local stream is local to the join of the tokens after it |
| Lexer.LexerStreamTokenize | lexer.go:88-98 | a list of local tokens is the lexer stream of its own join |
| Lexer.LexerStreamIff | lexer.go:88-98 | a token list is the lexer stream of a text if and only if it joins to the text and is a local stream |
| ScannerFixtures.ScannerStreamCons | scanner.go:414-424 | a local token in front of a scanner stream extends it |
| ScannerFixtures.ScannerThreeWords | scanner.go:482-490 | the scanner splits "test test test" into WORD, WHITESPACE, WORD, WHITESPACE, WORD |
| ScannerFixtures.EditedStreamJoin | scanner.go:500-509 | setting slot 2 to `test2` gives the expected edited stream, which joins to "test test2 test" |
| ScannerFixtures.EditAndJoin | scanner.go:492-509 | parse, edit slot i in place, then join: the array is the parsed stream with only slot i's lexeme replaced, and the joined text is the original with that lexeme swapped |
| ScannerFixtures.ScannerManipulation | scanner_test.go:57-86 | the manipulation test's stream after the edit equals its expectation and joins to "test test2 test" |
| ScannerFixtures.OneToken | scanner.go:524-534 | a token local to the end of the text is the whole stream of its lexeme |
| ScannerFixtures.ScannerLoneS | scanner.go:416 | a lone `s` folds into the table class and is a WORD |
| ScannerFixtures.ScannerLoneAsciiLetter | scanner.go:416 | every lone ASCII letter other than K, S, k and s is a CHAR |
| ScannerFixtures.ScannerDigitsAreWord | scanner.go:416 | `1000` is one WORD, because WORD is tried before NUMBER |
| ScannerFixtures.ScannerTableRun | scanner.go:415-418 | any non-empty run of codepoints of the folded table class is one WORD |
| ScannerFixtures.TableRunLocal | scanner.go:415-418 | such a run has one of the two word shapes and is local to the end of the text |
| ScannerFixtures.ScannerFoldedLetterHyphen | scanner.go:416 | U+017F or U+212A followed by `-` is one WORD, by the first alternative |
| ScannerFixtures.ScannerTableHyphen | scanner.go:415-422 | a codepoint of the folded table class that is not a folded `[a-z0-9]` codepoint, followed by `-`, is a WORD of that codepoint and then a CHAR `-` |
| ScannerFixtures.ScannerGreekWord | scanner.go:415-418 | any non-empty run of codepoints of the Greek and Coptic block is one WORD |
| ScannerFixtures.ScannerTableSpaces | scanner.go:415-418 | NO-BREAK SPACE, OGHAM SPACE MARK, U+2000 to U+200A, U+2028, U+2029, U+202F, U+205F and IDEOGRAPHIC SPACE each form a WORD on their own |
| ScannerFixtures.OtherSpacesOutside | scanner.go:415-422 | U+000B and U+0085 are not ASCII whitespace, not digits, not letters and not in the folded table class |
| ScannerFixtures.ScannerOtherSpaces | scanner.go:419-422 | U+000B and U+0085 on their own are each a CHAR |
| LexerFixtures.LexerStreamCons | lexer.go:23-28 | a local token in front of a lexer stream extends it |
| LexerFixtures.LexerNonAsciiChar | lexer.go:24-26 | every lone codepoint at or above U+0080, U+017F and U+212A included, is a CHAR under the lexer table |
| LexerFixtures.LexerBasics | scanner_test.go:12-36 | the lexer turns the basics input into exactly the 21 expected tokens |
| ScannerBasics.WordCons | scanner.go:416 | a WORD of the first alternative, followed by a codepoint outside its tail class, extends a scanner stream |
| ScannerBasics.SpaceCons | scanner.go:419 | a space followed by a non-space codepoint extends a scanner stream |
| ScannerBasics.CharCons | scanner.go:420-422 | a lone punctuation codepoint that no WORD can start extends a scanner stream as a CHAR |
| ScannerBasics.ScannerBasicsTokens | scanner_test.go:12-36 | the scanner turns the basics input into 19 tokens, including WORD `test-1` and WORD `1000`, which differ from the 21 tokens the test expects |

## Left out

- `ReadFile` (scanner.go:545-552, lexer.go:103-110) is file I/O. Its only behaviour beyond `Parse` is passing the operating system's error through.
- UTF-8 decoding is not modelled. A `[]byte` input is taken as already decoded into codepoints, so it and a `string` give the same text. Invalid UTF-8, which Go reads as U+FFFD one byte at a time, is out of scope. So is the difference between byte offsets and codepoint offsets when the loop re-slices the text.
- Go's regexp engine is not modelled as such. The four patterns are written as the greedy, leftmost-first character-class scanners they compile to. General regular expressions and backtracking are not modelled.
- The fold closure of the table class lists the codepoints that Unicode simple case folding adds to it, in `UnicodeRanges.FoldExtras`. That list is transcribed from the Unicode 15.0 folding tables, not derived inside the model. A Go release built on other folding tables would give a different list.
- Appending to the exported `Unicode` variable at run time is not modelled, because it has no effect on the compiled `ScannerMap`.
- The in-memory token is a datatype rather than a two-element string slice. So the out-of-range panic `Join` would raise on a slice shorter than two elements cannot occur here.
- The cost of `Join`'s repeated string concatenation, which is quadratic, is not modelled.
- The test harness is left out: `Status` logging and the walks over the testdata directory.
- The basics test in scanner_test.go targets a constructor, a `Tokens` field and a `(Scanner, error)` result that scanner.go does not have. Its expectation is proved against the lexer table (`LexerFixtures.LexerBasics`). `ScannerBasics.ScannerBasicsTokens` states what the scanner table yields on the same input.
