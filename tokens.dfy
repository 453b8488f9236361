/**
 * The token kinds and the token record of Main.py, with the string form that
 * the token list view prints for each token.
 */
module Tokens {
  import opened CharClass

  /** The closed set of token kinds. */
  datatype TokenType = Delimiter | LineBreak | Word | Alphanumeric | Punctuator | Numeric | Whitespace

  /** An immutable (kind, value) pair. */
  datatype Token = Token(kind: TokenType, value: string)

  /** The two-character value of every LineBreak token: a backslash followed by 'n'. */
  const LineBreakText: string := "\\n"

  /** The display name of each kind; Punctuator is shown as "Punctuation", LineBreak as "Line Break". */
  function Label(k: TokenType): (l: string)
    ensures |l| > 0
    ensures forall i :: 0 <= i < |l| ==> l[i] != '\t' && l[i] != '\''
  {
    match k
    case Delimiter => "Delimiter"
    case LineBreak => "Line Break"
    case Word => "Word"
    case Alphanumeric => "Alphanumeric"
    case Punctuator => "Punctuation"
    case Numeric => "Numeric"
    case Whitespace => "Whitespace"
  }

  lemma LabelInjective(a: TokenType, b: TokenType)
    ensures Label(a) == Label(b) ==> a == b
  {
  }

  /** The printed form of a token: the value in single quotes, two tabs, then the kind's label in single quotes. */
  function Repr(t: Token): string {
    "Token: '" + t.value + "' \t\t Type: '" + Label(t.kind) + "'"
  }

  predicate NoTab(w: string) {
    forall i :: 0 <= i < |w| ==> w[i] != '\t'
  }

  /** When the value holds no tab, the first tab of the printed form comes two characters after the value. */
  lemma ReprFirstTab(t: Token)
    requires NoTab(t.value)
    ensures |Repr(t)| > |t.value| + 10 && Repr(t)[|t.value| + 10] == '\t'
    ensures forall m :: 0 <= m < |t.value| + 10 ==> Repr(t)[m] != '\t'
  {
  }

  /**
   * Distinct tokens print differently as long as their values hold no tab
   * (which no scanned token does): the first tab of the printed form marks
   * where the value ends.
   */
  lemma ReprInjective(t1: Token, t2: Token)
    requires NoTab(t1.value) && NoTab(t2.value)
    ensures Repr(t1) == Repr(t2) ==> t1 == t2
  {
    if Repr(t1) == Repr(t2) {
      var r := Repr(t1);
      var n := |t1.value|;
      ReprFirstTab(t1);
      ReprFirstTab(t2);
      assert n == |t2.value|;
      assert t1.value == r[8..8 + n] == t2.value;
      assert Label(t1.kind) == r[n + 20..|r| - 1] == Label(t2.kind);
      LabelInjective(t1.kind, t2.kind);
    }
  }

  /**
   * The shape every token produced by the scanner has: a Delimiter is ":",
   * a LineBreak is backslash-n, and every run kind is a non-empty string of
   * its own class. An Alphanumeric run mixes digits and letters and starts
   * with a digit.
   */
  predicate WellFormed(t: Token) {
    match t.kind
    case Delimiter => t.value == ":"
    case LineBreak => t.value == LineBreakText
    case Word => |t.value| > 0 && AllIn(t.value, Letters)
    case Alphanumeric =>
      |t.value| > 0 && AllIn(t.value, Alnums) && IsDigit(t.value[0]) && HasDigit(t.value) && HasAlpha(t.value)
    case Numeric => |t.value| > 0 && AllIn(t.value, Digits)
    case Punctuator => |t.value| > 0 && AllIn(t.value, Puncts)
    case Whitespace => |t.value| > 0 && AllIn(t.value, Spaces)
  }

  /** A well-formed token has a non-empty value without tabs, so ReprInjective applies to it. */
  lemma WellFormedValue(t: Token)
    requires WellFormed(t)
    ensures |t.value| > 0 && NoTab(t.value)
  {
  }
}
