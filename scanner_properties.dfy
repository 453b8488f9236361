/**
 * What the scanner guarantees: how each position is classified, that every
 * token is well formed, that the token values spell the input back (with
 * newlines written as backslash-n and unclassified characters dropped), how
 * many Delimiter and LineBreak tokens there are, and worked examples.
 */
module ScannerProperties {
  import opened CharClass
  import opened Tokens
  import opened Scanner

  // ---------------------------------------------------------------------
  // One position

  /** ':' and a newline each give a one-token step that advances by exactly one character. */
  lemma StepAtSingles(s: string, i: nat)
    requires i < |s|
    ensures s[i] == ':' ==> StepAt(s, i) == Emit(Token(Delimiter, ":"), i + 1)
    ensures s[i] == '\n' ==> StepAt(s, i) == Emit(Token(LineBreak, LineBreakText), i + 1)
    ensures !Classified(s[i]) ==> StepAt(s, i) == Skip(i + 1)
  {
  }

  /** A letter starts a maximal run of letters, emitted as one Word. */
  lemma StepAtLetter(s: string, i: nat)
    requires i < |s| && IsAlpha(s[i])
    ensures var st := StepAt(s, i);
      && st == Emit(Token(Word, s[i..st.next]), st.next)
      && AllIn(s[i..st.next], Letters) && MaximalAt(s, st.next, Letters)
  {
  }

  /**
   * A digit starts a maximal run of letters and digits. The run is Numeric
   * when it is all digits and Alphanumeric otherwise; it is never a Word.
   */
  lemma StepAtDigit(s: string, i: nat)
    requires i < |s| && IsDigit(s[i])
    ensures var st := StepAt(s, i);
      && st.Emit? && st.token.value == s[i..st.next]
      && AllIn(s[i..st.next], Alnums) && MaximalAt(s, st.next, Alnums)
      && (st.token.kind == Numeric <==> AllIn(st.token.value, Digits))
      && (st.token.kind == Alphanumeric <==> HasAlpha(st.token.value))
      && st.token.kind != Word
  {
  }

  /** A punctuation character starts a maximal run of punctuation, emitted as one Punctuator. */
  lemma StepAtPunct(s: string, i: nat)
    requires i < |s| && IsPunct(s[i])
    ensures var st := StepAt(s, i);
      && st == Emit(Token(Punctuator, s[i..st.next]), st.next)
      && AllIn(s[i..st.next], Puncts) && MaximalAt(s, st.next, Puncts)
  {
  }

  /** A space starts a maximal run of spaces, emitted as one Whitespace. */
  lemma StepAtSpace(s: string, i: nat)
    requires i < |s| && s[i] == ' '
    ensures var st := StepAt(s, i);
      && st == Emit(Token(Whitespace, s[i..st.next]), st.next)
      && AllIn(s[i..st.next], Spaces) && MaximalAt(s, st.next, Spaces)
  {
  }

  /** A run ends exactly where its characters stop belonging to the class. */
  lemma RunEndAt(s: string, i: nat, j: nat, cs: CharSet)
    requires i <= j <= |s|
    requires forall k :: i <= k < j ==> In(s[k], cs)
    requires MaximalAt(s, j, cs)
    ensures RunEnd(s, i, cs) == j
  {
  }

  // ---------------------------------------------------------------------
  // The whole scan

  /** Every token the scanner emits is well formed, in particular non-empty. */
  lemma {:induction false} ScanFromWellFormed(s: string, i: nat)
    requires i <= |s|
    ensures forall t :: t in ScanFrom(s, i) ==> WellFormed(t)
    decreases |s| - i
  {
    if i < |s| {
      ScanFromWellFormed(s, StepAt(s, i).next);
    }
  }

  /** Each token consumes at least one input character, so there are never more tokens than characters. */
  lemma {:induction false} ScanFromLength(s: string, i: nat)
    requires i <= |s|
    ensures |ScanFrom(s, i)| <= |s| - i
    decreases |s| - i
  {
    if i < |s| {
      ScanFromLength(s, StepAt(s, i).next);
    }
  }

  lemma ScanWellFormed(s: string)
    ensures |Scan(s)| <= |s|
    ensures forall t :: t in Scan(s) ==> WellFormed(t) && |t.value| > 0 && NoTab(t.value)
  {
    ScanFromLength(s, 0);
    ScanFromWellFormed(s, 0);
    forall t | t in Scan(s) ensures |t.value| > 0 && NoTab(t.value) {
      WellFormedValue(t);
    }
  }

  // ---------------------------------------------------------------------
  // Reconstruction

  /** What the scanner keeps of one character: a newline becomes backslash-n, an unclassified character disappears. */
  function RenderChar(c: char): string {
    if c == '\n' then LineBreakText else if Classified(c) then [c] else []
  }

  /** The input as the token values spell it, defined character by character. */
  function Render(s: string): string {
    if |s| == 0 then [] else RenderChar(s[0]) + Render(s[1..])
  }

  /** The in-order concatenation of the token values. */
  function Text(ts: seq<Token>): string {
    if |ts| == 0 then [] else ts[0].value + Text(ts[1..])
  }

  lemma {:induction false} RenderAppend(a: string, b: string)
    ensures Render(a + b) == Render(a) + Render(b)
  {
    if |a| == 0 {
      assert a + b == b;
    } else {
      assert (a + b)[0] == a[0] && (a + b)[1..] == a[1..] + b;
      RenderAppend(a[1..], b);
      calc {
        Render(a + b);
        RenderChar(a[0]) + Render(a[1..] + b);
        RenderChar(a[0]) + (Render(a[1..]) + Render(b));
      }
    }
  }

  /** A string without newlines and unclassified characters is rendered as itself. */
  lemma {:induction false} RenderPlain(w: string)
    requires forall k :: 0 <= k < |w| ==> Classified(w[k]) && w[k] != '\n'
    ensures Render(w) == w
  {
    if |w| > 0 {
      RenderPlain(w[1..]);
    }
  }

  /** The characters a step consumes render exactly as the token it emits, or as nothing when it skips. */
  lemma StepRenders(s: string, i: nat)
    requires i < |s|
    ensures var st := StepAt(s, i);
      Render(s[i..st.next]) == if st.Emit? then st.token.value else []
  {
    var st := StepAt(s, i);
    var w := s[i..st.next];
    if s[i] == ':' || s[i] == '\n' || !Classified(s[i]) {
      assert w == [s[i]];
      assert Render(w) == RenderChar(s[i]) + Render([]);
    } else {
      var cs := if IsAlpha(s[i]) then Letters else if IsAlnum(s[i]) then Alnums else if IsPunct(s[i]) then Puncts else Spaces;
      assert st.next == RunEnd(s, i, cs);
      forall k | 0 <= k < |w| ensures Classified(w[k]) && w[k] != '\n' {
        RunCharClassified(w[k], cs);
      }
      RenderPlain(w);
    }
  }

  lemma {:induction false} ScanFromRenders(s: string, i: nat)
    requires i <= |s|
    ensures Text(ScanFrom(s, i)) == Render(s[i..])
    decreases |s| - i
  {
    if i == |s| {
      assert s[i..] == [];
    } else {
      var st := StepAt(s, i);
      var j := st.next;
      assert s[i..] == s[i..j] + s[j..];
      RenderAppend(s[i..j], s[j..]);
      StepRenders(s, i);
      ScanFromRenders(s, j);
      if st.Emit? {
        var ts := [st.token] + ScanFrom(s, j);
        assert ts[1..] == ScanFrom(s, j);
      }
    }
  }

  /**
   * The token values, concatenated in order, are the input with every
   * newline replaced by backslash-n and every unclassified character deleted.
   */
  lemma ScanRenders(s: string)
    ensures Text(Scan(s)) == Render(s)
  {
    assert s[0..] == s;
    ScanFromRenders(s, 0);
  }

  /**
   * When nothing was dropped and no newline was rewritten, scanning the
   * concatenated token values again gives the same tokens.
   */
  lemma RescanIdempotent(s: string)
    requires forall k :: 0 <= k < |s| ==> Classified(s[k]) && s[k] != '\n'
    ensures Scan(Text(Scan(s))) == Scan(s)
  {
    ScanRenders(s);
    RenderPlain(s);
  }

  /** With a newline the re-scan differs: backslash-n scans as a Punctuator and a Word. */
  lemma RescanNewline()
    ensures Scan("\n") == [Token(LineBreak, "\\n")]
    ensures Text(Scan("\n")) == "\\n"
    ensures Scan("\\n") == [Token(Punctuator, "\\"), Token(Word, "n")]
  {
    var s := "\\n";
    assert IsPunct(s[0]) && !IsPunct(s[1]);
    assert RunEnd(s, 1, Puncts) == 1;
    assert RunEnd(s, 0, Puncts) == 1;
    assert StepAt(s, 0) == Emit(Token(Punctuator, "\\"), 1);
    assert StepAt(s, 1) == Emit(Token(Word, "n"), 2);
    assert ScanFrom(s, 1) == [Token(Word, "n")];
  }

  /** Rendering never leaves a newline behind. */
  lemma {:induction false} RenderNoNewline(s: string)
    ensures multiset(Render(s))['\n'] == 0
  {
    if |s| > 0 {
      RenderNoNewline(s[1..]);
      assert multiset(Render(s)) == multiset(RenderChar(s[0])) + multiset(Render(s[1..]));
    }
  }

  /**
   * A scan has one LineBreak token per newline, but the rendered text has
   * no newline left, so its re-scan has no LineBreak token at all.
   */
  lemma RescanDropsLineBreaks(s: string)
    ensures CountKind(Scan(s), LineBreak) == multiset(s)['\n']
    ensures CountKind(Scan(Text(Scan(s))), LineBreak) == 0
  {
    ScanCounts(s);
    ScanRenders(s);
    RenderNoNewline(s);
    ScanCounts(Render(s));
  }

  /** Hence any input with a newline re-scans to different tokens. */
  lemma RescanBreaksOnNewline(s: string)
    requires '\n' in s
    ensures Scan(Text(Scan(s))) != Scan(s)
  {
    RescanDropsLineBreaks(s);
    assert multiset(s)['\n'] > 0;
  }

  // ---------------------------------------------------------------------
  // Delimiters and line breaks

  /** The number of tokens of kind k. */
  function CountKind(ts: seq<Token>, k: TokenType): nat {
    if |ts| == 0 then 0 else (if ts[0].kind == k then 1 else 0) + CountKind(ts[1..], k)
  }

  /** The one token kind a step's characters can hold ':' or a newline for. */
  lemma StepCounts(s: string, i: nat)
    requires i < |s|
    ensures var st := StepAt(s, i);
      && multiset(s[i..st.next])[':'] == (if st.Emit? && st.token.kind == Delimiter then 1 else 0)
      && multiset(s[i..st.next])['\n'] == (if st.Emit? && st.token.kind == LineBreak then 1 else 0)
  {
    var st := StepAt(s, i);
    var j := st.next;
    if s[i] == ':' || s[i] == '\n' || !Classified(s[i]) {
      assert s[i..j] == [s[i]];
    } else {
      var cs := if IsAlpha(s[i]) then Letters else if IsAlnum(s[i]) then Alnums else if IsPunct(s[i]) then Puncts else Spaces;
      assert j == RunEnd(s, i, cs);
      forall k | i <= k < j ensures s[k] != ':' && s[k] != '\n' {
        RunCharClassified(s[k], cs);
      }
      assert ':' !in s[i..j] && '\n' !in s[i..j];
    }
  }

  lemma {:induction false} ScanFromCounts(s: string, i: nat)
    requires i <= |s|
    ensures CountKind(ScanFrom(s, i), Delimiter) == multiset(s[i..])[':']
    ensures CountKind(ScanFrom(s, i), LineBreak) == multiset(s[i..])['\n']
    decreases |s| - i
  {
    if i == |s| {
      assert s[i..] == [];
    } else {
      var st := StepAt(s, i);
      var j := st.next;
      assert s[i..] == s[i..j] + s[j..];
      assert multiset(s[i..]) == multiset(s[i..j]) + multiset(s[j..]);
      StepCounts(s, i);
      ScanFromCounts(s, j);
      if st.Emit? {
        var ts := [st.token] + ScanFrom(s, j);
        assert ts[0] == st.token && ts[1..] == ScanFrom(s, j);
      }
    }
  }

  /** Each ':' gives exactly one Delimiter token and each newline exactly one LineBreak token. */
  lemma ScanCounts(s: string)
    ensures CountKind(Scan(s), Delimiter) == multiset(s)[':']
    ensures CountKind(Scan(s), LineBreak) == multiset(s)['\n']
  {
    assert s[0..] == s;
    ScanFromCounts(s, 0);
  }

  // ---------------------------------------------------------------------
  // Worked examples

  lemma ScanFromEmit(s: string, i: nat, t: Token, j: nat)
    requires i < |s| && StepAt(s, i) == Emit(t, j)
    ensures ScanFrom(s, i) == [t] + ScanFrom(s, j)
  {
  }

  lemma ExampleDelimiters()
    ensures Scan("") == []
    ensures Scan(":") == [Token(Delimiter, ":")]
    ensures Scan("::") == [Token(Delimiter, ":"), Token(Delimiter, ":")]
  {
  }

  lemma ExampleLineBreak()
    ensures Scan("a\n b") == [Token(Word, "a"), Token(LineBreak, "\\n"), Token(Whitespace, " "), Token(Word, "b")]
  {
    var s := "a\n b";
    RunEndAt(s, 3, 4, Letters);
    ScanFromEmit(s, 3, Token(Word, "b"), 4);
    assert !IsAlnum(s[2]) && !IsPunct(s[2]);
    RunEndAt(s, 2, 3, Spaces);
    ScanFromEmit(s, 2, Token(Whitespace, " "), 3);
    ScanFromEmit(s, 1, Token(LineBreak, "\\n"), 2);
    RunEndAt(s, 0, 1, Letters);
    ScanFromEmit(s, 0, Token(Word, "a"), 1);
  }

  /** A run that starts with a letter stops at the first digit; one that starts with a digit takes letters too. */
  lemma ExampleLetterFirst()
    ensures Scan("abc123") == [Token(Word, "abc"), Token(Numeric, "123")]
  {
    var s := "abc123";
    assert s[3..6] == "123";
    RunEndAt(s, 3, 6, Alnums);
    assert !HasAlpha(s[3..6]);
    ScanFromEmit(s, 3, Token(Numeric, "123"), 6);
    RunEndAt(s, 0, 3, Letters);
    ScanFromEmit(s, 0, Token(Word, "abc"), 3);
  }

  lemma ExampleLetterThenMixed()
    ensures Scan("a1b") == [Token(Word, "a"), Token(Alphanumeric, "1b")]
  {
    var s := "a1b";
    assert s[1..3] == "1b";
    RunEndAt(s, 1, 3, Alnums);
    assert IsDigit(s[1..3][0]) && IsAlpha(s[1..3][1]);
    ScanFromEmit(s, 1, Token(Alphanumeric, "1b"), 3);
    RunEndAt(s, 0, 1, Letters);
    ScanFromEmit(s, 0, Token(Word, "a"), 1);
  }

  lemma ExampleDigitFirst()
    ensures Scan("12ab") == [Token(Alphanumeric, "12ab")]
  {
    var s := "12ab";
    RunEndAt(s, 0, 4, Alnums);
    assert s[0..4] == s;
    assert IsDigit(s[0]) && IsAlpha(s[2]);
    ScanFromEmit(s, 0, Token(Alphanumeric, "12ab"), 4);
  }

  lemma ExamplePunctuationAndSpaces()
    ensures Scan("!!  @@") == [Token(Punctuator, "!!"), Token(Whitespace, "  "), Token(Punctuator, "@@")]
  {
    var s := "!!  @@";
    assert ScanFrom(s, 4) == [Token(Punctuator, "@@")] by {
      assert IsPunct(s[4]) && IsPunct(s[5]);
      RunEndAt(s, 4, 6, Puncts);
      ScanFromEmit(s, 4, Token(Punctuator, "@@"), 6);
    }
    assert ScanFrom(s, 2) == [Token(Whitespace, "  ")] + ScanFrom(s, 4) by {
      assert !IsPunct(s[2]);
      RunEndAt(s, 2, 4, Spaces);
      ScanFromEmit(s, 2, Token(Whitespace, "  "), 4);
    }
    assert ScanFrom(s, 0) == [Token(Punctuator, "!!")] + ScanFrom(s, 2) by {
      assert IsPunct(s[0]) && IsPunct(s[1]) && !IsPunct(s[2]);
      RunEndAt(s, 0, 2, Puncts);
      ScanFromEmit(s, 0, Token(Punctuator, "!!"), 2);
    }
  }

  /** Tab and '$' belong to no class and leave no token behind. */
  lemma ExampleSkipped()
    ensures Scan("a\tb$") == [Token(Word, "a"), Token(Word, "b")]
  {
    var s := "a\tb$";
    assert !IsPunct(s[1]) && !IsPunct(s[3]);
    assert ScanFrom(s, 3) == [];
    RunEndAt(s, 2, 3, Letters);
    ScanFromEmit(s, 2, Token(Word, "b"), 3);
    assert ScanFrom(s, 1) == ScanFrom(s, 2);
    RunEndAt(s, 0, 1, Letters);
    ScanFromEmit(s, 0, Token(Word, "a"), 1);
  }
}
