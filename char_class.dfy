/**
 * Character classes used by the scanner in Main.py.
 *
 * Python's str.isalpha, str.isdigit and str.isalnum consult the Unicode
 * tables; this model restricts them to ASCII letters and digits.
 */
module CharClass {

  /**
   * The fixed punctuation set of the scanner: the thirty characters of the
   * string literal that tokenize tests membership in. It holds neither ':' nor '$'.
   */
  const PunctuationSet: set<char> := {
    '!', '@', '#', '%', '^', '&', '*', '(', ')', '-', '_', '=', '+', '[', '{',
    ']', '}', '\\', '|', ';', '\'', '"', ',', '<', '.', '>', '/', '?', '~', '`'
  }

  predicate IsAlpha(c: char) { 'A' <= c <= 'Z' || 'a' <= c <= 'z' }

  predicate IsDigit(c: char) { '0' <= c <= '9' }

  predicate IsAlnum(c: char) { IsAlpha(c) || IsDigit(c) }

  predicate IsPunct(c: char) { c in PunctuationSet }

  /** A character the scanner turns into (part of) a token; every other one is skipped. */
  predicate Classified(c: char) {
    c == ':' || c == '\n' || IsAlpha(c) || IsAlnum(c) || IsPunct(c) || c == ' '
  }

  /** The sets of characters that a run may be made of. */
  datatype CharSet = Letters | Digits | Alnums | Puncts | Spaces

  predicate In(c: char, cs: CharSet) {
    match cs
    case Letters => IsAlpha(c)
    case Digits => IsDigit(c)
    case Alnums => IsAlnum(c)
    case Puncts => IsPunct(c)
    case Spaces => c == ' '
  }

  /** Every character of w belongs to cs. */
  predicate AllIn(w: string, cs: CharSet) {
    forall k :: 0 <= k < |w| ==> In(w[k], cs)
  }

  predicate HasDigit(w: string) {
    exists k :: 0 <= k < |w| && IsDigit(w[k])
  }

  predicate HasAlpha(w: string) {
    exists k :: 0 <= k < |w| && IsAlpha(w[k])
  }

  /** The punctuation set is disjoint from the other classes, and excludes ':', '$' and tab. */
  lemma PunctuationDisjoint(c: char)
    requires IsPunct(c)
    ensures !IsAlnum(c) && c != ':' && c != '\n' && c != ' ' && c != '$' && c != '\t'
  {
  }

  /** A character of any run class is classified, and none of them is ':' or a newline. */
  lemma RunCharClassified(c: char, cs: CharSet)
    requires In(c, cs)
    ensures Classified(c) && c != ':' && c != '\n' && c != '\t'
  {
  }
}
