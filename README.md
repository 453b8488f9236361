# Text tokenizer scanner, modelled in Dafny

This project models the logic of a small desktop "String Tokenizer" (`Main.py`).
The model covers two parts:

- **The scanner** (`tokenize`). It makes one left-to-right pass over the input with an integer cursor. At each position it classifies the current character in a fixed priority order:
  1. `:` gives a one-character Delimiter.
  2. A newline gives a LineBreak whose value is the two characters backslash and `n`.
  3. A letter starts a maximal run of letters, emitted as a Word.
  4. Any other letter-or-digit starts a maximal run of letters and digits. That run is labelled Alphanumeric, Numeric or Word.
  5. A punctuation character starts a maximal Punctuator run.
  6. A space starts a maximal Whitespace run.
  7. Any other character is skipped.
- **The granular breakdown formatter** (`granular_breakdown`). It gives one display line per token, listing the token's characters.

Files and modules:

- `char_class.dfy` (`CharClass`): the character classes and the punctuation set.
- `tokens.dfy` (`Tokens`): the token kinds, the token record, its printed form, and the shape of a well-formed token.
- `scanner.dfy` (`Scanner`): the scan as functions. `RunEnd` is a maximal run. `ClassifyRun` labels an alphanumeric run. `StepAt` is one cursor position. `ScanFrom` and `Scan` give the token sequence.
- `scanner_properties.dfy` (`ScannerProperties`): what the scan guarantees, plus the worked examples.
- `tokenizer.dfy` (`Tokenizer`): the imperative cursor loop `Tokenize`, proved to compute `Scan`.
- `breakdown.dfy` (`Breakdown`): the breakdown formatter and the layout of its lines.

Modelling assumption: Python's `str.isalpha`, `str.isdigit` and `str.isalnum` are modelled as ASCII predicates (`A-Z a-z`, `0-9`, and letter-or-digit). Under this assumption the alphanumeric branch only ever starts at a digit, so its Word fallback (Main.py line 63) is unreachable. `StepAtDigit` proves this.

Two behaviours of the code that one might not expect:

- Re-scanning the concatenated token values of an input does not always give the same tokens, even when no character was dropped. This fails for every input that has a newline: the LineBreak value (backslash, `n`) holds no newline, so the re-scan has no LineBreak token at all, one fewer per newline (`RescanDropsLineBreaks`). `RescanBreaksOnNewline` concludes that the tokens differ for every such input. For an isolated newline, the backslash re-scans as a Punctuator and the `n` as a Word (`RescanNewline`); next to other punctuation or letters they merge into the neighbouring runs. `RescanIdempotent` proves the property for inputs with neither newlines nor skipped characters.
- A breakdown line is written as `Token: "abc" --> 'a', 'b', 'c'`: a colon after `Token`, the value in double quotes, and a two-dash arrow.

## Model

| member | source | states |
|---|---|---|
| Tokens.Label | Main.py:10-17 | each kind's display name is non-empty and holds no tab and no single quote |
| Tokens.LabelInjective | Main.py:10-17 | distinct kinds have distinct display names |
| Tokens.Repr | Main.py:25-26 | the printed form: `Token: '`, the value, `' `, two tabs, ` Type: '`, the kind's label, `'`; its properties are stated by `ReprFirstTab` and `ReprInjective` |
| Tokens.ReprFirstTab | Main.py:25-26 | in a token's printed form, the first tab comes two characters after the value (when the value has no tab) |
| Tokens.ReprInjective | Main.py:25-26 | two tokens without tabs in their values print the same only if they are equal |
| Tokens.WellFormedValue | Main.py:33-80 | a well-formed token's value is non-empty and holds no tab |
| CharClass.IsAlpha | Main.py:46-48 | ASCII letters `A-Z a-z`, standing for `str.isalpha` under the ASCII assumption above |
| CharClass.IsDigit | Main.py:58-60 | ASCII digits `0-9`, standing for `str.isdigit` under the ASCII assumption |
| CharClass.IsAlnum | Main.py:53-55 | a letter or a digit, standing for `str.isalnum` under the ASCII assumption |
| CharClass.IsPunct | Main.py:65-67 | membership in the punctuation literal; `PunctuationDisjoint` states what it excludes |
| CharClass.PunctuationDisjoint | Main.py:65 | the punctuation set holds no letter, no digit, no `:`, no newline, no space, no `$` and no tab |
| Scanner.RunEnd | Main.py:46-77 | a run is maximal: every character from its start up to its end is in the class, and the next character (if any) is not |
| Scanner.ClassifyRun | Main.py:58-63 | Alphanumeric exactly when the run has a digit and a letter; for a non-empty alphanumeric run, Numeric exactly when it is all digits and Word exactly when it is all letters |
| Scanner.StepAt | Main.py:33-80 | each position advances the cursor by at least one; the character is skipped exactly when it is unclassified, and then by exactly one; every emitted token is well formed |
| Scanner.ScanFrom | Main.py:33-82 | the tokens produced from cursor position i on, one `StepAt` at a time; its properties are stated by `ScanFromWellFormed`, `ScanFromLength`, `ScanFromRenders` and `ScanFromCounts` |
| Scanner.Scan | Main.py:29-82 | the tokens of the whole input, the specification `Tokenizer.Tokenize` is proved to compute; its properties are stated by `ScanWellFormed`, `ScanRenders`, `ScanCounts` and the re-scan lemmas |
| ScannerProperties.StepAtSingles | Main.py:36-80 | `:` gives Delimiter `":"` and a newline gives LineBreak backslash-n, each advancing by one; an unclassified character is skipped |
| ScannerProperties.StepAtLetter | Main.py:46-51 | a letter starts one Word made of letters only, and the character after it is not a letter |
| ScannerProperties.StepAtDigit | Main.py:53-63 | a digit starts one maximal letter-and-digit run; it is Numeric iff all digits, Alphanumeric iff it holds a letter, and never Word |
| ScannerProperties.StepAtPunct | Main.py:65-70 | a punctuation character starts one maximal Punctuator run |
| ScannerProperties.StepAtSpace | Main.py:72-77 | a space starts one maximal Whitespace run of spaces only |
| ScannerProperties.ScanFromWellFormed | Main.py:33-82 | every token emitted from any cursor position on is well formed |
| ScannerProperties.ScanFromLength | Main.py:33-80 | there are never more tokens than characters left to scan |
| ScannerProperties.ScanWellFormed | Main.py:29-82 | every token of a scan is well formed, non-empty and tab-free, and there are at most as many tokens as input characters |
| ScannerProperties.StepRenders | Main.py:36-80 | the characters one step consumes render exactly as the token it emits, or as nothing when it skips |
| ScannerProperties.ScanFromRenders | Main.py:33-82 | the tokens from any cursor position on spell the rest of the input, rendered |
| ScannerProperties.ScanRenders | Main.py:29-82 | the concatenated token values equal the input with each newline replaced by backslash-n and each unclassified character deleted |
| ScannerProperties.RescanIdempotent | Main.py:29-82 | for input without newlines and unclassified characters, scanning the concatenated token values again gives the same tokens |
| ScannerProperties.RescanNewline | Main.py:41-44 | a lone newline scans as LineBreak backslash-n, but backslash-n scans as a Punctuator and a Word |
| ScannerProperties.RenderNoNewline | Main.py:41-44 | the rendered input never holds a newline |
| ScannerProperties.RescanDropsLineBreaks | Main.py:41-44 | a scan has one LineBreak per newline, and re-scanning its concatenated token values gives no LineBreak at all |
| ScannerProperties.RescanBreaksOnNewline | Main.py:29-82 | for every input with a newline, re-scanning the concatenated token values gives different tokens |
| ScannerProperties.StepCounts | Main.py:36-44 | only a Delimiter step consumes a `:` and only a LineBreak step consumes a newline, one each |
| ScannerProperties.ScanFromCounts | Main.py:33-82 | from any position on, there are as many Delimiter tokens as `:` characters and as many LineBreak tokens as newlines |
| ScannerProperties.ScanCounts | Main.py:29-82 | a scan has as many Delimiter tokens as `:` characters and as many LineBreak tokens as newlines |
| ScannerProperties.RunEndAt | Main.py:48-50 | a run ends exactly where its characters stop belonging to the class |
| ScannerProperties.ExampleDelimiters | Main.py:36-39 | the empty input gives no tokens; `":"` gives one Delimiter; `"::"` gives two |
| ScannerProperties.ExampleLineBreak | Main.py:41-44 | `"a\n b"` gives Word a, LineBreak backslash-n, Whitespace, Word b |
| ScannerProperties.ExampleLetterFirst | Main.py:46-61 | `"abc123"` gives Word `abc` then Numeric `123` |
| ScannerProperties.ExampleLetterThenMixed | Main.py:46-59 | `"a1b"` gives Word `a` then Alphanumeric `1b` |
| ScannerProperties.ExampleDigitFirst | Main.py:53-59 | `"12ab"` gives the single Alphanumeric `12ab` |
| ScannerProperties.ExamplePunctuationAndSpaces | Main.py:65-77 | `"!!  @@"` gives Punctuator, Whitespace, Punctuator |
| ScannerProperties.ExampleSkipped | Main.py:79-80 | tab and `$` leave no token: `"a\tb$"` gives Word a, Word b |
| Tokenizer.ScanRun | Main.py:48-50 | the inner run loop stops exactly at the end of the maximal run and returns the run's characters |
| Tokenizer.Tokenize | Main.py:29-82 | the cursor loop returns exactly `Scan(input)`: all tokens well formed, values spelling the rendered input, one Delimiter per `:` and one LineBreak per newline |
| Breakdown.Quote | Main.py:88 | a character between single quotes; entries of the list, placed by `CharListLayout` |
| Breakdown.Join | Main.py:88 | the parts with the separator between each two, as `', '.join` does; unfolded by `CharListCons` |
| Breakdown.CharList | Main.py:88 | the quoted characters of a value joined by `", "`; `CharListLayout` gives its layout and `CharListRoundTrip` its inverse |
| Breakdown.BreakdownLine | Main.py:89 | the line `Token: "<value>" --> <list>`; `BreakdownLineLayout` and `BreakdownLineEntries` state its layout |
| Breakdown.GranularBreakdown | Main.py:85-90 | one line per token, in the same order (so none for no tokens), line k being the breakdown line of token k |
| Breakdown.CharListCons | Main.py:88 | the character list of a value is the first quoted character, `", "`, then the list of the rest |
| Breakdown.CharListLayout | Main.py:88 | the list has 5n-2 characters for n > 0 characters (none for n = 0); entry k is the quoted k-th character at offset 5k, followed by `", "` unless it is the last |
| Breakdown.CharListRoundTrip | Main.py:88 | reading the quoted characters back out of the list gives the value |
| Breakdown.BreakdownLineLayout | Main.py:89 | a line is `Token: "`, the value, `" --> `, then exactly the character list of the value; its length is 14 + n plus the list's length |
| Breakdown.BreakdownLineEntries | Main.py:88-89 | in a line, character k of the value appears in single quotes at offset 14 + n + 5k (the character itself at 15 + n + 5k), each entry but the last followed by `", "` |
| Breakdown.ListAfter | Main.py:88-89 | after any prefix of length m, the list entries sit at offset m + 5k, quoted, separated by `", "` |
| Breakdown.ExampleBreakdown | Main.py:88-89 | the token `ab` gives `Token: "ab" --> 'a', 'b'` |
| Breakdown.ExampleBreakdownOfScan | Main.py:85-90 | scanning `"ab"` gives the single Word `ab`, whose breakdown line is `Token: "ab" --> 'a', 'b'` |

## Left out

- `TokenizerApp` (window, labels, text boxes, button, image loading through PIL, the `emoji` call) and the module-level theme setup and event loop: presentation and I/O, not scanner logic.
- The `.strip()` the window applies to the input before calling the scanner: it belongs to the presentation layer. The scanner is modelled on whatever string it is given.
- Full Unicode behaviour of `str.isalpha`, `str.isdigit` and `str.isalnum`: these use library tables that are not part of this model. The model is ASCII only. Non-ASCII letters and digits are therefore skipped here rather than scanned, and the Word fallback of the alphanumeric branch cannot occur.
- Tokenizer.ScanRun: the four inner loops of `tokenize` (for letters, letters-and-digits, punctuation and spaces) differ only in the class test. They are modelled as this one method, which takes the class as a parameter.
- The punctuation string literal is modelled as the set of its thirty characters, because the scanner only tests membership in it.
- Printing the printed form and the breakdown lines into the window's text boxes is not modelled. Only the strings themselves are.
