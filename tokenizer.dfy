/**
 * The cursor loop of Main.py's tokenize, proved to compute Scan and hence to
 * keep every promise proved about Scan.
 */
module Tokenizer {
  import opened CharClass
  import opened Tokens
  import opened Scanner
  import opened ScannerProperties

  /** The scan loop's invariant survives one step: the step's token, if any, is the next one of Scan(s). */
  lemma ScanAdvance(s: string, i: nat, done: seq<Token>)
    requires i < |s|
    requires done + ScanFrom(s, i) == Scan(s)
    ensures StepAt(s, i).Emit? ==> (done + [StepAt(s, i).token]) + ScanFrom(s, StepAt(s, i).next) == Scan(s)
    ensures StepAt(s, i).Skip? ==> done + ScanFrom(s, StepAt(s, i).next) == Scan(s)
  {
  }

  /**
   * The inner loop shared by the four run branches of tokenize: extend the
   * run from start while the current character is in cs, appending each one.
   */
  method ScanRun(input: string, start: nat, cs: CharSet) returns (run: string, i: nat)
    requires start <= |input|
    ensures i == RunEnd(input, start, cs)
    ensures run == input[start..i]
  {
    run := "";
    i := start;
    while i < |input| && In(input[i], cs)
      invariant start <= i <= RunEnd(input, start, cs)
      invariant run == input[start..i]
    {
      run := run + [input[i]];
      i := i + 1;
    }
  }

  /** The cursor loop of Main.py's tokenize. */
  method Tokenize(input: string) returns (tokens: seq<Token>)
    ensures tokens == Scan(input)
    ensures forall t :: t in tokens ==> WellFormed(t)
    ensures Text(tokens) == Render(input)
    ensures CountKind(tokens, Delimiter) == multiset(input)[':']
    ensures CountKind(tokens, LineBreak) == multiset(input)['\n']
  {
    tokens := [];
    var i: nat := 0;
    while i < |input|
      invariant i <= |input|
      invariant tokens + ScanFrom(input, i) == Scan(input)
      decreases |input| - i
    {
      var ch := input[i];
      ScanAdvance(input, i, tokens);
      if ch == ':' {
        var delimiter := [ch];
        i := i + 1;
        tokens := tokens + [Token(Delimiter, delimiter)];
      } else if ch == '\n' {
        var lineBreak := LineBreakText;
        tokens := tokens + [Token(LineBreak, lineBreak)];
        i := i + 1;
      } else if IsAlpha(ch) {
        var word;
        word, i := ScanRun(input, i, Letters);
        tokens := tokens + [Token(Word, word)];
      } else if IsAlnum(ch) {
        var alphanumeric;
        alphanumeric, i := ScanRun(input, i, Alnums);
        tokens := tokens + [Token(ClassifyRun(alphanumeric), alphanumeric)];
      } else if IsPunct(ch) {
        var punctuator;
        punctuator, i := ScanRun(input, i, Puncts);
        tokens := tokens + [Token(Punctuator, punctuator)];
      } else if ch == ' ' {
        var whitespace;
        whitespace, i := ScanRun(input, i, Spaces);
        tokens := tokens + [Token(Whitespace, whitespace)];
      } else {
        i := i + 1;
      }
    }
    ScanWellFormed(input);
    ScanRenders(input);
    ScanCounts(input);
  }
}
