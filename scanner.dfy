/**
 * The scanner of Main.py: one left-to-right pass with a cursor that, at each
 * position, classifies the current character in a fixed priority order and
 * either emits one token for a maximal run or skips the character.
 *
 * StepAt is the state-free classification of one position; ScanFrom and Scan
 * are the token sequence it gives, which the cursor loop in module Tokenizer
 * is proved to compute.
 */
module Scanner {
  import opened CharClass
  import opened Tokens

  /** The run starting at j cannot be extended: j is the end of the input or s[j] is outside cs. */
  predicate MaximalAt(s: string, j: nat, cs: CharSet) {
    j >= |s| || !In(s[j], cs)
  }

  /** The end of the longest run of characters of cs that starts at i. */
  function RunEnd(s: string, i: nat, cs: CharSet): (j: nat)
    requires i <= |s|
    ensures i <= j <= |s|
    ensures forall k :: i <= k < j ==> In(s[k], cs)
    ensures MaximalAt(s, j, cs)
    decreases |s| - i
  {
    if i < |s| && In(s[i], cs) then RunEnd(s, i + 1, cs) else i
  }

  /** The label of a run taken by the alphanumeric branch (Main.py lines 58-63). */
  function ClassifyRun(w: string): (k: TokenType)
    ensures k in {Alphanumeric, Numeric, Word}
    ensures k == Alphanumeric <==> HasDigit(w) && HasAlpha(w)
    ensures |w| > 0 && AllIn(w, Alnums) ==> (k == Numeric <==> AllIn(w, Digits))
    ensures |w| > 0 && AllIn(w, Alnums) ==> (k == Word <==> AllIn(w, Letters))
  {
    if HasDigit(w) && HasAlpha(w) then Alphanumeric
    else if |w| > 0 && AllIn(w, Digits) then
      assert !IsAlpha(w[0]);
      Numeric
    else
      assert |w| > 0 && AllIn(w, Letters) ==> !AllIn(w, Digits) by {
        if |w| > 0 && AllIn(w, Letters) { assert !IsDigit(w[0]); }
      }
      Word
  }

  /** What the scanner does at position i: skip the character, or emit a token and move past it. */
  datatype Step = Skip(next: nat) | Emit(token: Token, next: nat)

  function StepAt(s: string, i: nat): (st: Step)
    requires i < |s|
    ensures i < st.next <= |s|
    ensures st.Skip? <==> !Classified(s[i])
    ensures st.Skip? ==> st.next == i + 1
    ensures st.Emit? ==> WellFormed(st.token)
  {
    var ch := s[i];
    if ch == ':' then Emit(Token(Delimiter, [ch]), i + 1)
    else if ch == '\n' then Emit(Token(LineBreak, LineBreakText), i + 1)
    else if IsAlpha(ch) then
      var j := RunEnd(s, i, Letters);
      Emit(Token(Word, s[i..j]), j)
    else if IsAlnum(ch) then
      var j := RunEnd(s, i, Alnums);
      var w := s[i..j];
      assert IsDigit(w[0]) && HasDigit(w);
      Emit(Token(ClassifyRun(w), w), j)
    else if IsPunct(ch) then
      var j := RunEnd(s, i, Puncts);
      Emit(Token(Punctuator, s[i..j]), j)
    else if ch == ' ' then
      var j := RunEnd(s, i, Spaces);
      Emit(Token(Whitespace, s[i..j]), j)
    else Skip(i + 1)
  }

  /** The tokens the scanner emits from position i to the end of the input. */
  function ScanFrom(s: string, i: nat): (ts: seq<Token>)
    requires i <= |s|
    decreases |s| - i
  {
    if i == |s| then []
    else match StepAt(s, i)
      case Skip(j) => ScanFrom(s, j)
      case Emit(t, j) => [t] + ScanFrom(s, j)
  }

  /** The tokens of a whole input. */
  function Scan(s: string): seq<Token> {
    ScanFrom(s, 0)
  }
}
