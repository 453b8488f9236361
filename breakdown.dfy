/**
 * The granular breakdown of Main.py: one display line per token, naming the
 * token's value and then listing each of its characters in single quotes,
 * separated by ", ".
 */
module Breakdown {
  import opened CharClass
  import opened Tokens
  import opened Scanner
  import opened ScannerProperties

  /** A character between single quotes. */
  function Quote(c: char): string {
    ['\'', c, '\'']
  }

  /** The parts with sep between each two neighbours, as Python's str.join does. */
  function Join(sep: string, parts: seq<string>): string {
    if |parts| == 0 then ""
    else if |parts| == 1 then parts[0]
    else parts[0] + sep + Join(sep, parts[1..])
  }

  /** The quoted characters of v, joined by ", ". */
  function CharList(v: string): string {
    Join(", ", seq(|v|, k requires 0 <= k < |v| => Quote(v[k])))
  }

  /** The display line of one token. */
  function BreakdownLine(t: Token): string {
    "Token: \"" + t.value + "\" --> " + CharList(t.value)
  }

  /** One line per token, in token order. */
  method GranularBreakdown(tokens: seq<Token>) returns (breakdown: seq<string>)
    ensures |breakdown| == |tokens|
    ensures forall k :: 0 <= k < |tokens| ==> breakdown[k] == BreakdownLine(tokens[k])
  {
    breakdown := [];
    for n := 0 to |tokens|
      invariant |breakdown| == n
      invariant forall k :: 0 <= k < n ==> breakdown[k] == BreakdownLine(tokens[k])
    {
      var token := tokens[n];
      var chars := CharList(token.value);
      breakdown := breakdown + ["Token: \"" + token.value + "\" --> " + chars];
    }
  }

  /** Peeling the first character off a value of two or more characters. */
  lemma CharListCons(v: string)
    requires |v| >= 2
    ensures CharList(v) == Quote(v[0]) + ", " + CharList(v[1..])
  {
    var parts := seq(|v|, k requires 0 <= k < |v| => Quote(v[k]));
    assert parts[1..] == seq(|v| - 1, k requires 0 <= k < |v| - 1 => Quote(v[1..][k]));
  }

  /**
   * The character list has five characters per character of the value, less
   * the separator after the last one: entry k sits at 5 * k, quoted, and is
   * followed by ", " unless it is the last.
   */
  lemma {:induction false} CharListLayout(v: string)
    ensures |CharList(v)| == if |v| == 0 then 0 else 5 * |v| - 2
    ensures forall k :: 0 <= k < |v| ==> CharList(v)[5 * k .. 5 * k + 3] == Quote(v[k])
    ensures forall k :: 0 <= k < |v| - 1 ==> CharList(v)[5 * k + 3 .. 5 * k + 5] == ", "
  {
    if |v| >= 2 {
      CharListCons(v);
      CharListLayout(v[1..]);
      var rest := CharList(v[1..]);
      forall k | 1 <= k < |v|
        ensures CharList(v)[5 * k .. 5 * k + 3] == Quote(v[k])
      {
        assert CharList(v)[5 * k .. 5 * k + 3] == rest[5 * (k - 1) .. 5 * (k - 1) + 3];
        assert v[1..][k - 1] == v[k];
      }
      forall k | 1 <= k < |v| - 1
        ensures CharList(v)[5 * k + 3 .. 5 * k + 5] == ", "
      {
        assert CharList(v)[5 * k + 3 .. 5 * k + 5] == rest[5 * (k - 1) + 3 .. 5 * (k - 1) + 5];
      }
    }
  }

  /** Reads a character list back: the character inside each quoted entry. */
  function UnlistChars(list: string): string
    decreases |list|
  {
    if |list| < 3 then ""
    else if |list| < 5 then [list[1]]
    else [list[1]] + UnlistChars(list[5..])
  }

  /** Listing the characters of a value loses nothing: reading the list back gives the value. */
  lemma {:induction false} CharListRoundTrip(v: string)
    ensures UnlistChars(CharList(v)) == v
  {
    if |v| == 1 {
      assert CharList(v) == Quote(v[0]);
    } else if |v| >= 2 {
      CharListCons(v);
      var list := CharList(v);
      assert list[5..] == CharList(v[1..]);
      CharListRoundTrip(v[1..]);
      CharListLayout(v[1..]);
      assert v == [v[0]] + v[1..];
    }
  }

  /** A line opens with the value in double quotes and an arrow, then lists the value's characters. */
  lemma BreakdownLineLayout(t: Token)
    ensures var line := BreakdownLine(t); var n := |t.value|;
      && |line| == 14 + n + (if n == 0 then 0 else 5 * n - 2)
      && line[..8] == "Token: \"" && line[8..8 + n] == t.value && line[8 + n..14 + n] == "\" --> "
      && line[14 + n..] == CharList(t.value)
  {
    CharListLayout(t.value);
  }

  /**
   * In a line, character k of the value appears in single quotes at offset
   * 14 + n + 5 * k, and every entry but the last is followed by ", ".
   */
  lemma BreakdownLineEntries(t: Token)
    ensures var line := BreakdownLine(t); var n := |t.value|;
      && |line| == 14 + n + (if n == 0 then 0 else 5 * n - 2)
      && (forall k :: 0 <= k < n ==> line[14 + n + 5 * k .. 14 + n + 5 * k + 3] == Quote(t.value[k]))
      && (forall k :: 0 <= k < n - 1 ==> line[14 + n + 5 * k + 3 .. 14 + n + 5 * k + 5] == ", ")
      && (forall k :: 0 <= k < n ==> line[14 + n + 5 * k + 1] == t.value[k])
  {
    var head := "Token: \"" + t.value + "\" --> ";
    assert |head| == 14 + |t.value| && BreakdownLine(t) == head + CharList(t.value);
    ListAfter(head, t.value);
  }

  /** The layout of a character list carries over, shifted, to any text placed in front of it. */
  lemma ListAfter(head: string, v: string)
    ensures var line := head + CharList(v); var m := |head|;
      && |line| == m + (if |v| == 0 then 0 else 5 * |v| - 2)
      && (forall k :: 0 <= k < |v| ==> line[m + 5 * k .. m + 5 * k + 3] == Quote(v[k]))
      && (forall k :: 0 <= k < |v| - 1 ==> line[m + 5 * k + 3 .. m + 5 * k + 5] == ", ")
      && (forall k :: 0 <= k < |v| ==> line[m + 5 * k + 1] == v[k])
  {
    var list := CharList(v);
    var m := |head|;
    CharListLayout(v);
    forall k | 0 <= k < |v|
      ensures (head + list)[m + 5 * k .. m + 5 * k + 3] == Quote(v[k])
      ensures (head + list)[m + 5 * k + 1] == v[k]
    {
      SliceAfter(head, list, 5 * k, 5 * k + 3);
    }
    forall k | 0 <= k < |v| - 1
      ensures (head + list)[m + 5 * k + 3 .. m + 5 * k + 5] == ", "
    {
      SliceAfter(head, list, 5 * k + 3, 5 * k + 5);
    }
  }

  /** A slice that lies past the first part of a concatenation is a slice of the second part. */
  lemma SliceAfter(p: string, q: string, a: nat, b: nat)
    requires a <= b <= |q|
    ensures (p + q)[|p| + a .. |p| + b] == q[a..b]
  {
  }

  lemma ExampleBreakdown()
    ensures BreakdownLine(Token(Word, "ab")) == "Token: \"ab\" --> 'a', 'b'"
  {
    CharListCons("ab");
  }

  /** The breakdown of the scan of "ab": a single line listing 'a' and 'b'. */
  lemma ExampleBreakdownOfScan()
    ensures Scan("ab") == [Token(Word, "ab")]
    ensures BreakdownLine(Scan("ab")[0]) == "Token: \"ab\" --> 'a', 'b'"
  {
    var s := "ab";
    RunEndAt(s, 0, 2, Letters);
    ScanFromEmit(s, 0, Token(Word, "ab"), 2);
    ExampleBreakdown();
  }
}
