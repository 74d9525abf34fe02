/** The scanner's behaviour on the sample document of the project's test
    suite: every token with the line:column reported for it, derived from
    `RtfLexeme.Trace`. */
module RtfScenarios {
  import opened RtfLexeme
  import opened RtfTokenize

  /** The sample document: six lines, with an escaped line feed on the third. */
  const Sample: string :=
    "{\\rtf1\\ansi\n"
    + "{\\*\\cxs TEFT}\n"
    + "escaped newline: line\\\n"
    + "break\n"
    + "\\test1 ing\\test2;\n"
    + "}\n"

  /** What one scan returns, from the lexeme it finds. */
  lemma ScanFinds(text: string, cursor: nat, lnumNext: nat, cnumNext: nat, lx: Lexeme, token: string)
    requires cursor <= |text| && LexemeAt(text, cursor) == lx
    requires lx.len > 0 && text[lx.start..lx.start + lx.len] == token
    ensures var breaks := CountIn(text, cursor, lx.start, '\n');
            var lnum := lnumNext + breaks;
            var cnum := if breaks == 0 then cnumNext else 0;
            Scan(text, cursor, lnumNext, cnumNext)
            == Step(Some(token), lx, lnum, cnum, if lx.escapedNewline then lnum + 1 else lnum,
                    if lx.escapedNewline then 0 else cnum + (lx.next - lx.start))
  {
  }

  /** A scan that returns a token is followed by the scans from where it
      stopped. */
  lemma TraceAfter(text: string, cursor: nat, lnumNext: nat, cnumNext: nat, st: Step)
    requires cursor <= |text| && Scan(text, cursor, lnumNext, cnumNext) == st && st.token.Some?
    ensures Trace(text, cursor, lnumNext, cnumNext)
            == [Reported(st.token, st.lnum, st.cnum)] + Trace(text, st.lexeme.next, st.lnumNext, st.cnumNext)
  {
    TraceUnfold(text, cursor, lnumNext, cnumNext);
  }

  /** One scan that returns a token, unfolded from the lexeme it finds. */
  lemma TraceStep(text: string, cursor: nat, lnumNext: nat, cnumNext: nat, lx: Lexeme, token: string)
    requires cursor <= |text| && LexemeAt(text, cursor) == lx
    requires lx.len > 0 && text[lx.start..lx.start + lx.len] == token
    ensures var breaks := CountIn(text, cursor, lx.start, '\n');
            var lnum := lnumNext + breaks;
            var cnum := if breaks == 0 then cnumNext else 0;
            Trace(text, cursor, lnumNext, cnumNext)
            == [Reported(Some(token), lnum, cnum)]
               + Trace(text, lx.next, if lx.escapedNewline then lnum + 1 else lnum,
                       if lx.escapedNewline then 0 else cnum + (lx.next - lx.start))
  {
    ScanFinds(text, cursor, lnumNext, cnumNext, lx, token);
    TraceAfter(text, cursor, lnumNext, cnumNext, Scan(text, cursor, lnumNext, cnumNext));
  }

  /** The scan that finds nothing but breaks up to the end of the text. */
  lemma TraceLast(text: string, cursor: nat, lnumNext: nat, cnumNext: nat, lx: Lexeme)
    requires cursor <= |text| && LexemeAt(text, cursor) == lx && lx.len == 0
    ensures var breaks := CountIn(text, cursor, lx.start, '\n');
            Trace(text, cursor, lnumNext, cnumNext)
            == [Reported(None, lnumNext + breaks, if breaks == 0 then cnumNext else 0)]
  {
  }

  /** The lexemes the scans find in `{\rtf1 Hello}`. */
  lemma GroupWordTextLexemes(text: string)
    requires text == "{\\rtf1 Hello}"
    ensures LexemeAt(text, 0) == Lexeme(0, 1, 1, false)
            && LexemeAt(text, 1) == Lexeme(1, 5, 7, false)
            && LexemeAt(text, 7) == Lexeme(7, 5, 12, false)
            && LexemeAt(text, 12) == Lexeme(12, 1, 13, false)
            && LexemeAt(text, 13) == Lexeme(13, 0, 13, false)
  {
    assert text[0] == '{' && text[1] == '\\' && text[2] == 'r' && text[3] == 't' && text[4] == 'f'
           && text[5] == '1' && text[6] == ' ' && text[7] == 'H' && text[8] == 'e' && text[9] == 'l'
           && text[10] == 'l' && text[11] == 'o' && text[12] == '}';
    assert RunEnd(text, 0, Breaks) == 0;
    assert LexemeAt(text, 0) == Lexeme(0, 1, 1, false);
    assert RunEnd(text, 1, Breaks) == 1;
    assert RunEnd(text, 5, Letters) == 5;
    assert RunEnd(text, 4, Letters) == 5;
    assert RunEnd(text, 3, Letters) == 5;
    assert RunEnd(text, 2, Letters) == 5;
    assert RunEnd(text, 6, Digits) == 6;
    assert LexemeAt(text, 1) == Lexeme(1, 5, 7, false);
    assert RunEnd(text, 7, Breaks) == 7;
    assert RunEnd(text, 12, PlainText) == 12;
    assert RunEnd(text, 11, PlainText) == 12;
    assert RunEnd(text, 10, PlainText) == 12;
    assert RunEnd(text, 9, PlainText) == 12;
    assert RunEnd(text, 8, PlainText) == 12;
    assert LexemeAt(text, 7) == Lexeme(7, 5, 12, false);
    assert RunEnd(text, 12, Breaks) == 12;
    assert LexemeAt(text, 12) == Lexeme(12, 1, 13, false);
    assert RunEnd(text, 13, Breaks) == 13;
    assert LexemeAt(text, 13) == Lexeme(13, 0, 13, false);
  }

  /** A group holding a control word with its delimiter space and a plain-text run. */
  lemma GroupWordText(text: string)
    requires text == "{\\rtf1 Hello}"
    ensures Trace(text, 0, 0, 0)
            == [Reported(Some("{"), 0, 0),
                Reported(Some("\\rtf1"), 0, 1),
                Reported(Some("Hello"), 0, 7),
                Reported(Some("}"), 0, 12),
                Reported(None, 0, 13)]
  {
    GroupWordTextLexemes(text);
    TraceLast(text, 13, 0, 13, Lexeme(13, 0, 13, false));
    assert Trace(text, 13, 0, 13)
           == [Reported(None, 0, 13)];
    TraceStep(text, 12, 0, 12, Lexeme(12, 1, 13, false), "}");
    assert Trace(text, 12, 0, 12)
           == [Reported(Some("}"), 0, 12),
               Reported(None, 0, 13)];
    TraceStep(text, 7, 0, 7, Lexeme(7, 5, 12, false), "Hello");
    assert Trace(text, 7, 0, 7)
           == [Reported(Some("Hello"), 0, 7),
               Reported(Some("}"), 0, 12),
               Reported(None, 0, 13)];
    TraceStep(text, 1, 0, 1, Lexeme(1, 5, 7, false), "\\rtf1");
    assert Trace(text, 1, 0, 1)
           == [Reported(Some("\\rtf1"), 0, 1),
               Reported(Some("Hello"), 0, 7),
               Reported(Some("}"), 0, 12),
               Reported(None, 0, 13)];
    TraceStep(text, 0, 0, 0, Lexeme(0, 1, 1, false), "{");
  }

  /** The lexemes the scans find in `\~`. */
  lemma SymbolOnlyLexemes(text: string)
    requires text == "\\~"
    ensures LexemeAt(text, 0) == Lexeme(0, 2, 2, false)
            && LexemeAt(text, 2) == Lexeme(2, 0, 2, false)
  {
    assert text[0] == '\\' && text[1] == '~';
    assert RunEnd(text, 0, Breaks) == 0;
    assert RunEnd(text, 1, Letters) == 1;
    assert LexemeAt(text, 0) == Lexeme(0, 2, 2, false);
    assert RunEnd(text, 2, Breaks) == 2;
    assert LexemeAt(text, 2) == Lexeme(2, 0, 2, false);
  }

  /** A control symbol is the backslash and the one character after it. */
  lemma SymbolOnly(text: string)
    requires text == "\\~"
    ensures Trace(text, 0, 0, 0)
            == [Reported(Some("\\~"), 0, 0),
                Reported(None, 0, 2)]
  {
    SymbolOnlyLexemes(text);
    TraceLast(text, 2, 0, 2, Lexeme(2, 0, 2, false));
    assert Trace(text, 2, 0, 2)
           == [Reported(None, 0, 2)];
    TraceStep(text, 0, 0, 0, Lexeme(0, 2, 2, false), "\\~");
  }

  /** The lexemes the scans find in `\foo-12 bar`. */
  lemma SignedParameterLexemes(text: string)
    requires text == "\\foo-12 bar"
    ensures LexemeAt(text, 0) == Lexeme(0, 7, 8, false)
            && LexemeAt(text, 8) == Lexeme(8, 3, 11, false)
            && LexemeAt(text, 11) == Lexeme(11, 0, 11, false)
  {
    assert text[0] == '\\' && text[1] == 'f' && text[2] == 'o' && text[3] == 'o' && text[4] == '-'
           && text[5] == '1' && text[6] == '2' && text[7] == ' ' && text[8] == 'b' && text[9] == 'a'
           && text[10] == 'r';
    assert RunEnd(text, 0, Breaks) == 0;
    assert RunEnd(text, 4, Letters) == 4;
    assert RunEnd(text, 3, Letters) == 4;
    assert RunEnd(text, 2, Letters) == 4;
    assert RunEnd(text, 1, Letters) == 4;
    assert RunEnd(text, 7, Digits) == 7;
    assert RunEnd(text, 6, Digits) == 7;
    assert RunEnd(text, 5, Digits) == 7;
    assert LexemeAt(text, 0) == Lexeme(0, 7, 8, false);
    assert RunEnd(text, 8, Breaks) == 8;
    assert RunEnd(text, 11, PlainText) == 11;
    assert RunEnd(text, 10, PlainText) == 11;
    assert RunEnd(text, 9, PlainText) == 11;
    assert LexemeAt(text, 8) == Lexeme(8, 3, 11, false);
    assert RunEnd(text, 11, Breaks) == 11;
    assert LexemeAt(text, 11) == Lexeme(11, 0, 11, false);
  }

  /** A control word with a negative parameter; the space after it is swallowed. */
  lemma SignedParameter(text: string)
    requires text == "\\foo-12 bar"
    ensures Trace(text, 0, 0, 0)
            == [Reported(Some("\\foo-12"), 0, 0),
                Reported(Some("bar"), 0, 8),
                Reported(None, 0, 11)]
  {
    SignedParameterLexemes(text);
    TraceLast(text, 11, 0, 11, Lexeme(11, 0, 11, false));
    assert Trace(text, 11, 0, 11)
           == [Reported(None, 0, 11)];
    TraceStep(text, 8, 0, 8, Lexeme(8, 3, 11, false), "bar");
    assert Trace(text, 8, 0, 8)
           == [Reported(Some("bar"), 0, 8),
               Reported(None, 0, 11)];
    TraceStep(text, 0, 0, 0, Lexeme(0, 7, 8, false), "\\foo-12");
  }

  /** The lexemes the scans find in `\foo- x`. */
  lemma SignWithoutDigitsLexemes(text: string)
    requires text == "\\foo- x"
    ensures LexemeAt(text, 0) == Lexeme(0, 5, 6, false)
            && LexemeAt(text, 6) == Lexeme(6, 1, 7, false)
            && LexemeAt(text, 7) == Lexeme(7, 0, 7, false)
  {
    assert text[0] == '\\' && text[1] == 'f' && text[2] == 'o' && text[3] == 'o' && text[4] == '-'
           && text[5] == ' ' && text[6] == 'x';
    assert RunEnd(text, 0, Breaks) == 0;
    assert RunEnd(text, 4, Letters) == 4;
    assert RunEnd(text, 3, Letters) == 4;
    assert RunEnd(text, 2, Letters) == 4;
    assert RunEnd(text, 1, Letters) == 4;
    assert RunEnd(text, 5, Digits) == 5;
    assert LexemeAt(text, 0) == Lexeme(0, 5, 6, false);
    assert RunEnd(text, 6, Breaks) == 6;
    assert RunEnd(text, 7, PlainText) == 7;
    assert LexemeAt(text, 6) == Lexeme(6, 1, 7, false);
    assert RunEnd(text, 7, Breaks) == 7;
    assert LexemeAt(text, 7) == Lexeme(7, 0, 7, false);
  }

  /** A `-` with no digits after it still belongs to the control word. */
  lemma SignWithoutDigits(text: string)
    requires text == "\\foo- x"
    ensures Trace(text, 0, 0, 0)
            == [Reported(Some("\\foo-"), 0, 0),
                Reported(Some("x"), 0, 6),
                Reported(None, 0, 7)]
  {
    SignWithoutDigitsLexemes(text);
    TraceLast(text, 7, 0, 7, Lexeme(7, 0, 7, false));
    assert Trace(text, 7, 0, 7)
           == [Reported(None, 0, 7)];
    TraceStep(text, 6, 0, 6, Lexeme(6, 1, 7, false), "x");
    assert Trace(text, 6, 0, 6)
           == [Reported(Some("x"), 0, 6),
               Reported(None, 0, 7)];
    TraceStep(text, 0, 0, 0, Lexeme(0, 5, 6, false), "\\foo-");
  }

  /** The lexemes the scans find in `a\`. */
  lemma LoneBackslashLexemes(text: string)
    requires text == "a\\"
    ensures LexemeAt(text, 0) == Lexeme(0, 1, 1, false)
            && LexemeAt(text, 1) == Lexeme(1, 1, 2, false)
            && LexemeAt(text, 2) == Lexeme(2, 0, 2, false)
  {
    assert text[0] == 'a' && text[1] == '\\';
    assert RunEnd(text, 0, Breaks) == 0;
    assert RunEnd(text, 1, PlainText) == 1;
    assert LexemeAt(text, 0) == Lexeme(0, 1, 1, false);
    assert RunEnd(text, 1, Breaks) == 1;
    assert RunEnd(text, 2, Letters) == 2;
    assert LexemeAt(text, 1) == Lexeme(1, 1, 2, false);
    assert RunEnd(text, 2, Breaks) == 2;
    assert LexemeAt(text, 2) == Lexeme(2, 0, 2, false);
  }

  /** A backslash at end of text is a one-character token. */
  lemma LoneBackslash(text: string)
    requires text == "a\\"
    ensures Trace(text, 0, 0, 0)
            == [Reported(Some("a"), 0, 0),
                Reported(Some("\\"), 0, 1),
                Reported(None, 0, 2)]
  {
    LoneBackslashLexemes(text);
    TraceLast(text, 2, 0, 2, Lexeme(2, 0, 2, false));
    assert Trace(text, 2, 0, 2)
           == [Reported(None, 0, 2)];
    TraceStep(text, 1, 0, 1, Lexeme(1, 1, 2, false), "\\");
    assert Trace(text, 1, 0, 1)
           == [Reported(Some("\\"), 0, 1),
               Reported(None, 0, 2)];
    TraceStep(text, 0, 0, 0, Lexeme(0, 1, 1, false), "a");
  }

  /** The lexemes the scans find in `a\r\nb`. */
  lemma CrLfLexemes(text: string)
    requires text == "a\r\nb"
    ensures LexemeAt(text, 0) == Lexeme(0, 1, 1, false)
            && LexemeAt(text, 1) == Lexeme(3, 1, 4, false)
            && CountIn(text, 1, 3, '\n') == 1
            && LexemeAt(text, 4) == Lexeme(4, 0, 4, false)
  {
    assert text[0] == 'a' && text[1] == '\r' && text[2] == '\n' && text[3] == 'b';
    assert RunEnd(text, 0, Breaks) == 0;
    assert RunEnd(text, 1, PlainText) == 1;
    assert LexemeAt(text, 0) == Lexeme(0, 1, 1, false);
    assert RunEnd(text, 3, Breaks) == 3;
    assert RunEnd(text, 2, Breaks) == 3;
    assert RunEnd(text, 1, Breaks) == 3;
    assert RunEnd(text, 4, PlainText) == 4;
    assert LexemeAt(text, 1) == Lexeme(3, 1, 4, false);
    assert CountIn(text, 1, 3, '\n') == 1;
    assert RunEnd(text, 4, Breaks) == 4;
    assert LexemeAt(text, 4) == Lexeme(4, 0, 4, false);
  }

  /** CR and LF are skipped; only the LF moves to the next line. */
  lemma CrLf(text: string)
    requires text == "a\r\nb"
    ensures Trace(text, 0, 0, 0)
            == [Reported(Some("a"), 0, 0),
                Reported(Some("b"), 1, 0),
                Reported(None, 1, 1)]
  {
    CrLfLexemes(text);
    TraceLast(text, 4, 1, 1, Lexeme(4, 0, 4, false));
    assert Trace(text, 4, 1, 1)
           == [Reported(None, 1, 1)];
    TraceStep(text, 1, 0, 1, Lexeme(3, 1, 4, false), "b");
    assert Trace(text, 1, 0, 1)
           == [Reported(Some("b"), 1, 0),
               Reported(None, 1, 1)];
    TraceStep(text, 0, 0, 0, Lexeme(0, 1, 1, false), "a");
  }

  /** The lexemes the scans find in `ab\\ncd`. */
  lemma EscapedLineFeedLexemes(text: string)
    requires text == "ab\\\ncd"
    ensures LexemeAt(text, 0) == Lexeme(0, 2, 2, false)
            && LexemeAt(text, 2) == Lexeme(2, 2, 4, true)
            && LexemeAt(text, 4) == Lexeme(4, 2, 6, false)
            && LexemeAt(text, 6) == Lexeme(6, 0, 6, false)
  {
    assert text[0] == 'a' && text[1] == 'b' && text[2] == '\\' && text[3] == '\n' && text[4] == 'c'
           && text[5] == 'd';
    assert RunEnd(text, 0, Breaks) == 0;
    assert RunEnd(text, 2, PlainText) == 2;
    assert RunEnd(text, 1, PlainText) == 2;
    assert LexemeAt(text, 0) == Lexeme(0, 2, 2, false);
    assert RunEnd(text, 2, Breaks) == 2;
    assert RunEnd(text, 3, Letters) == 3;
    assert LexemeAt(text, 2) == Lexeme(2, 2, 4, true);
    assert RunEnd(text, 4, Breaks) == 4;
    assert RunEnd(text, 6, PlainText) == 6;
    assert RunEnd(text, 5, PlainText) == 6;
    assert LexemeAt(text, 4) == Lexeme(4, 2, 6, false);
    assert RunEnd(text, 6, Breaks) == 6;
    assert LexemeAt(text, 6) == Lexeme(6, 0, 6, false);
  }

  /** An escaped line feed is a two-character token after which column 0 of the next line follows. */
  lemma EscapedLineFeed(text: string)
    requires text == "ab\\\ncd"
    ensures Trace(text, 0, 0, 0)
            == [Reported(Some("ab"), 0, 0),
                Reported(Some("\\\n"), 0, 2),
                Reported(Some("cd"), 1, 0),
                Reported(None, 1, 2)]
  {
    EscapedLineFeedLexemes(text);
    TraceLast(text, 6, 1, 2, Lexeme(6, 0, 6, false));
    assert Trace(text, 6, 1, 2)
           == [Reported(None, 1, 2)];
    TraceStep(text, 4, 1, 0, Lexeme(4, 2, 6, false), "cd");
    assert Trace(text, 4, 1, 0)
           == [Reported(Some("cd"), 1, 0),
               Reported(None, 1, 2)];
    TraceStep(text, 2, 0, 2, Lexeme(2, 2, 4, true), "\\\n");
    assert Trace(text, 2, 0, 2)
           == [Reported(Some("\\\n"), 0, 2),
               Reported(Some("cd"), 1, 0),
               Reported(None, 1, 2)];
    TraceStep(text, 0, 0, 0, Lexeme(0, 2, 2, false), "ab");
  }

  /** The lexemes the scans find in ``. */
  lemma EmptyTextLexemes(text: string)
    requires text == ""
    ensures LexemeAt(text, 0) == Lexeme(0, 0, 0, false)
  {
    assert RunEnd(text, 0, Breaks) == 0;
    assert LexemeAt(text, 0) == Lexeme(0, 0, 0, false);
  }

  /** An empty text yields `None` straight away. */
  lemma EmptyText(text: string)
    requires text == ""
    ensures Trace(text, 0, 0, 0)
            == [Reported(None, 0, 0)]
  {
    EmptyTextLexemes(text);
    TraceLast(text, 0, 0, 0, Lexeme(0, 0, 0, false));
  }

  // ---------------------------------------------------------------------------
  // The sample document of the test suite, in three layers:
  //   - `LexemesOfLine0` .. `LexemesOfLine6` evaluate `LexemeAt` on `Sample`
  //     at each cursor, one document line at a time;
  //   - `TraceOfLexemes` takes those facts about any 75-character text as
  //     requires, and uses `SampleScan0` .. `SampleScan16` (one scan each) and
  //     `TraceOfScans` (the chaining) to derive its reports;
  //   - `SampleDocument` joins the two layers for `Sample` itself.
  // The split is deliberate. Evaluating all seventeen scans, or unfolding
  // `Trace` seventeen times, in one proof is more than the solver can do
  // within a small budget. Each lemma here unfolds one scan or one line of
  // scans, the chaining lemma works on plain sequence variables, and
  // `TraceOfLexemes` names a parameter rather than `Sample` so that the
  // seventy-five characters of the constant stay out of its proof.
  // ---------------------------------------------------------------------------

  /** The lexemes of the scans whose tokens start on line 0. */
  lemma LexemesOfLine0()
    ensures LexemeAt(Sample, 0) == Lexeme(0, 1, 1, false)
            && CountIn(Sample, 0, 0, '\n') == 0
            && Sample[0..1] == "{"
            && LexemeAt(Sample, 1) == Lexeme(1, 5, 6, false)
            && CountIn(Sample, 1, 1, '\n') == 0
            && Sample[1..6] == "\\rtf1"
            && LexemeAt(Sample, 6) == Lexeme(6, 5, 11, false)
            && CountIn(Sample, 6, 6, '\n') == 0
            && Sample[6..11] == "\\ansi"
  {
    assert Sample[0] == '{';
    assert Sample[1] == '\\';
    assert Sample[2] == 'r';
    assert Sample[3] == 't';
    assert Sample[4] == 'f';
    assert Sample[5] == '1';
    assert Sample[6] == '\\';
    assert Sample[7] == 'a';
    assert Sample[8] == 'n';
    assert Sample[9] == 's';
    assert Sample[10] == 'i';
    assert Sample[11] == '\n';
    assert RunEnd(Sample, 0, Breaks) == 0;
    assert LexemeAt(Sample, 0) == Lexeme(0, 1, 1, false);
    assert CountIn(Sample, 0, 0, '\n') == 0;
    assert Sample[0..1] == "{";
    assert RunEnd(Sample, 1, Breaks) == 1;
    assert RunEnd(Sample, 5, Letters) == 5;
    assert RunEnd(Sample, 4, Letters) == 5;
    assert RunEnd(Sample, 3, Letters) == 5;
    assert RunEnd(Sample, 2, Letters) == 5;
    assert RunEnd(Sample, 6, Digits) == 6;
    assert LexemeAt(Sample, 1) == Lexeme(1, 5, 6, false);
    assert CountIn(Sample, 1, 1, '\n') == 0;
    assert Sample[1..6] == "\\rtf1";
    assert RunEnd(Sample, 6, Breaks) == 6;
    assert RunEnd(Sample, 11, Letters) == 11;
    assert RunEnd(Sample, 10, Letters) == 11;
    assert RunEnd(Sample, 9, Letters) == 11;
    assert RunEnd(Sample, 8, Letters) == 11;
    assert RunEnd(Sample, 7, Letters) == 11;
    assert LexemeAt(Sample, 6) == Lexeme(6, 5, 11, false);
    assert CountIn(Sample, 6, 6, '\n') == 0;
    assert Sample[6..11] == "\\ansi";
  }

  /** The lexemes of the scans whose tokens start on line 1. */
  lemma LexemesOfLine1()
    ensures LexemeAt(Sample, 11) == Lexeme(12, 1, 13, false)
            && CountIn(Sample, 11, 12, '\n') == 1
            && Sample[12..13] == "{"
            && LexemeAt(Sample, 13) == Lexeme(13, 2, 15, false)
            && CountIn(Sample, 13, 13, '\n') == 0
            && Sample[13..15] == "\\*"
            && LexemeAt(Sample, 15) == Lexeme(15, 4, 20, false)
            && CountIn(Sample, 15, 15, '\n') == 0
            && Sample[15..19] == "\\cxs"
            && LexemeAt(Sample, 20) == Lexeme(20, 4, 24, false)
            && CountIn(Sample, 20, 20, '\n') == 0
            && Sample[20..24] == "TEFT"
            && LexemeAt(Sample, 24) == Lexeme(24, 1, 25, false)
            && CountIn(Sample, 24, 24, '\n') == 0
            && Sample[24..25] == "}"
  {
    assert Sample[11] == '\n';
    assert Sample[12] == '{';
    assert Sample[13] == '\\';
    assert Sample[14] == '*';
    assert Sample[15] == '\\';
    assert Sample[16] == 'c';
    assert Sample[17] == 'x';
    assert Sample[18] == 's';
    assert Sample[19] == ' ';
    assert Sample[20] == 'T';
    assert Sample[21] == 'E';
    assert Sample[22] == 'F';
    assert Sample[23] == 'T';
    assert Sample[24] == '}';
    assert Sample[25] == '\n';
    assert RunEnd(Sample, 12, Breaks) == 12;
    assert RunEnd(Sample, 11, Breaks) == 12;
    assert LexemeAt(Sample, 11) == Lexeme(12, 1, 13, false);
    assert CountIn(Sample, 11, 12, '\n') == 1;
    assert Sample[12..13] == "{";
    assert RunEnd(Sample, 13, Breaks) == 13;
    assert RunEnd(Sample, 14, Letters) == 14;
    assert LexemeAt(Sample, 13) == Lexeme(13, 2, 15, false);
    assert CountIn(Sample, 13, 13, '\n') == 0;
    assert Sample[13..15] == "\\*";
    assert RunEnd(Sample, 15, Breaks) == 15;
    assert RunEnd(Sample, 19, Letters) == 19;
    assert RunEnd(Sample, 18, Letters) == 19;
    assert RunEnd(Sample, 17, Letters) == 19;
    assert RunEnd(Sample, 16, Letters) == 19;
    assert LexemeAt(Sample, 15) == Lexeme(15, 4, 20, false);
    assert CountIn(Sample, 15, 15, '\n') == 0;
    assert Sample[15..19] == "\\cxs";
    assert RunEnd(Sample, 20, Breaks) == 20;
    assert RunEnd(Sample, 24, PlainText) == 24;
    assert RunEnd(Sample, 23, PlainText) == 24;
    assert RunEnd(Sample, 22, PlainText) == 24;
    assert RunEnd(Sample, 21, PlainText) == 24;
    assert LexemeAt(Sample, 20) == Lexeme(20, 4, 24, false);
    assert CountIn(Sample, 20, 20, '\n') == 0;
    assert Sample[20..24] == "TEFT";
    assert RunEnd(Sample, 24, Breaks) == 24;
    assert LexemeAt(Sample, 24) == Lexeme(24, 1, 25, false);
    assert CountIn(Sample, 24, 24, '\n') == 0;
    assert Sample[24..25] == "}";
  }

  /** The lexemes of the scans whose tokens start on line 2. */
  lemma LexemesOfLine2()
    ensures LexemeAt(Sample, 25) == Lexeme(26, 21, 47, false)
            && CountIn(Sample, 25, 26, '\n') == 1
            && Sample[26..47] == "escaped newline: line"
            && LexemeAt(Sample, 47) == Lexeme(47, 2, 49, true)
            && CountIn(Sample, 47, 47, '\n') == 0
            && Sample[47..49] == "\\\n"
  {
    assert Sample[25] == '\n';
    assert Sample[26] == 'e';
    assert Sample[27] == 's';
    assert Sample[28] == 'c';
    assert Sample[29] == 'a';
    assert Sample[30] == 'p';
    assert Sample[31] == 'e';
    assert Sample[32] == 'd';
    assert Sample[33] == ' ';
    assert Sample[34] == 'n';
    assert Sample[35] == 'e';
    assert Sample[36] == 'w';
    assert Sample[37] == 'l';
    assert Sample[38] == 'i';
    assert Sample[39] == 'n';
    assert Sample[40] == 'e';
    assert Sample[41] == ':';
    assert Sample[42] == ' ';
    assert Sample[43] == 'l';
    assert Sample[44] == 'i';
    assert Sample[45] == 'n';
    assert Sample[46] == 'e';
    assert Sample[47] == '\\';
    assert Sample[48] == '\n';
    assert Sample[49] == 'b';
    assert RunEnd(Sample, 26, Breaks) == 26;
    assert RunEnd(Sample, 25, Breaks) == 26;
    assert RunEnd(Sample, 47, PlainText) == 47;
    assert RunEnd(Sample, 46, PlainText) == 47;
    assert RunEnd(Sample, 45, PlainText) == 47;
    assert RunEnd(Sample, 44, PlainText) == 47;
    assert RunEnd(Sample, 43, PlainText) == 47;
    assert RunEnd(Sample, 42, PlainText) == 47;
    assert RunEnd(Sample, 41, PlainText) == 47;
    assert RunEnd(Sample, 40, PlainText) == 47;
    assert RunEnd(Sample, 39, PlainText) == 47;
    assert RunEnd(Sample, 38, PlainText) == 47;
    assert RunEnd(Sample, 37, PlainText) == 47;
    assert RunEnd(Sample, 36, PlainText) == 47;
    assert RunEnd(Sample, 35, PlainText) == 47;
    assert RunEnd(Sample, 34, PlainText) == 47;
    assert RunEnd(Sample, 33, PlainText) == 47;
    assert RunEnd(Sample, 32, PlainText) == 47;
    assert RunEnd(Sample, 31, PlainText) == 47;
    assert RunEnd(Sample, 30, PlainText) == 47;
    assert RunEnd(Sample, 29, PlainText) == 47;
    assert RunEnd(Sample, 28, PlainText) == 47;
    assert RunEnd(Sample, 27, PlainText) == 47;
    assert LexemeAt(Sample, 25) == Lexeme(26, 21, 47, false);
    assert CountIn(Sample, 25, 26, '\n') == 1;
    assert Sample[26..47] == "escaped newline: line";
    assert RunEnd(Sample, 47, Breaks) == 47;
    assert RunEnd(Sample, 48, Letters) == 48;
    assert LexemeAt(Sample, 47) == Lexeme(47, 2, 49, true);
    assert CountIn(Sample, 47, 47, '\n') == 0;
    assert Sample[47..49] == "\\\n";
  }

  /** The lexemes of the scans whose tokens start on line 3. */
  lemma LexemesOfLine3()
    ensures LexemeAt(Sample, 49) == Lexeme(49, 5, 54, false)
            && CountIn(Sample, 49, 49, '\n') == 0
            && Sample[49..54] == "break"
  {
    assert Sample[49] == 'b';
    assert Sample[50] == 'r';
    assert Sample[51] == 'e';
    assert Sample[52] == 'a';
    assert Sample[53] == 'k';
    assert Sample[54] == '\n';
    assert RunEnd(Sample, 49, Breaks) == 49;
    assert RunEnd(Sample, 54, PlainText) == 54;
    assert RunEnd(Sample, 53, PlainText) == 54;
    assert RunEnd(Sample, 52, PlainText) == 54;
    assert RunEnd(Sample, 51, PlainText) == 54;
    assert RunEnd(Sample, 50, PlainText) == 54;
    assert LexemeAt(Sample, 49) == Lexeme(49, 5, 54, false);
    assert CountIn(Sample, 49, 49, '\n') == 0;
    assert Sample[49..54] == "break";
  }

  /** The lexemes of the scans whose tokens start on line 4. */
  lemma LexemesOfLine4()
    ensures LexemeAt(Sample, 54) == Lexeme(55, 6, 62, false)
            && CountIn(Sample, 54, 55, '\n') == 1
            && Sample[55..61] == "\\test1"
            && LexemeAt(Sample, 62) == Lexeme(62, 3, 65, false)
            && CountIn(Sample, 62, 62, '\n') == 0
            && Sample[62..65] == "ing"
            && LexemeAt(Sample, 65) == Lexeme(65, 6, 71, false)
            && CountIn(Sample, 65, 65, '\n') == 0
            && Sample[65..71] == "\\test2"
            && LexemeAt(Sample, 71) == Lexeme(71, 1, 72, false)
            && CountIn(Sample, 71, 71, '\n') == 0
            && Sample[71..72] == ";"
  {
    assert Sample[54] == '\n';
    assert Sample[55] == '\\';
    assert Sample[56] == 't';
    assert Sample[57] == 'e';
    assert Sample[58] == 's';
    assert Sample[59] == 't';
    assert Sample[60] == '1';
    assert Sample[61] == ' ';
    assert Sample[62] == 'i';
    assert Sample[63] == 'n';
    assert Sample[64] == 'g';
    assert Sample[65] == '\\';
    assert Sample[66] == 't';
    assert Sample[67] == 'e';
    assert Sample[68] == 's';
    assert Sample[69] == 't';
    assert Sample[70] == '2';
    assert Sample[71] == ';';
    assert Sample[72] == '\n';
    assert RunEnd(Sample, 55, Breaks) == 55;
    assert RunEnd(Sample, 54, Breaks) == 55;
    assert RunEnd(Sample, 60, Letters) == 60;
    assert RunEnd(Sample, 59, Letters) == 60;
    assert RunEnd(Sample, 58, Letters) == 60;
    assert RunEnd(Sample, 57, Letters) == 60;
    assert RunEnd(Sample, 56, Letters) == 60;
    assert RunEnd(Sample, 61, Digits) == 61;
    assert LexemeAt(Sample, 54) == Lexeme(55, 6, 62, false);
    assert CountIn(Sample, 54, 55, '\n') == 1;
    assert Sample[55..61] == "\\test1";
    assert RunEnd(Sample, 62, Breaks) == 62;
    assert RunEnd(Sample, 65, PlainText) == 65;
    assert RunEnd(Sample, 64, PlainText) == 65;
    assert RunEnd(Sample, 63, PlainText) == 65;
    assert LexemeAt(Sample, 62) == Lexeme(62, 3, 65, false);
    assert CountIn(Sample, 62, 62, '\n') == 0;
    assert Sample[62..65] == "ing";
    assert RunEnd(Sample, 65, Breaks) == 65;
    assert RunEnd(Sample, 70, Letters) == 70;
    assert RunEnd(Sample, 69, Letters) == 70;
    assert RunEnd(Sample, 68, Letters) == 70;
    assert RunEnd(Sample, 67, Letters) == 70;
    assert RunEnd(Sample, 66, Letters) == 70;
    assert RunEnd(Sample, 71, Digits) == 71;
    assert LexemeAt(Sample, 65) == Lexeme(65, 6, 71, false);
    assert CountIn(Sample, 65, 65, '\n') == 0;
    assert Sample[65..71] == "\\test2";
    assert RunEnd(Sample, 71, Breaks) == 71;
    assert RunEnd(Sample, 72, PlainText) == 72;
    assert LexemeAt(Sample, 71) == Lexeme(71, 1, 72, false);
    assert CountIn(Sample, 71, 71, '\n') == 0;
    assert Sample[71..72] == ";";
  }

  /** The lexemes of the scans whose tokens start on line 5. */
  lemma LexemesOfLine5()
    ensures LexemeAt(Sample, 72) == Lexeme(73, 1, 74, false)
            && CountIn(Sample, 72, 73, '\n') == 1
            && Sample[73..74] == "}"
  {
    assert Sample[72] == '\n';
    assert Sample[73] == '}';
    assert Sample[74] == '\n';
    assert RunEnd(Sample, 73, Breaks) == 73;
    assert RunEnd(Sample, 72, Breaks) == 73;
    assert LexemeAt(Sample, 72) == Lexeme(73, 1, 74, false);
    assert CountIn(Sample, 72, 73, '\n') == 1;
    assert Sample[73..74] == "}";
  }

  /** The lexemes of the scans whose tokens start on line 6. */
  lemma LexemesOfLine6()
    ensures LexemeAt(Sample, 74) == Lexeme(75, 0, 75, false)
            && CountIn(Sample, 74, 75, '\n') == 1
  {
    assert Sample[74] == '\n';
    assert RunEnd(Sample, 75, Breaks) == 75;
    assert RunEnd(Sample, 74, Breaks) == 75;
    assert LexemeAt(Sample, 74) == Lexeme(75, 0, 75, false);
    assert CountIn(Sample, 74, 75, '\n') == 1;
  }

  /** Every token of the sample document with the line:column reported for
      it, and the final `None` one line below the last token. */
  const SampleReports: seq<Reported> :=
    [Reported(Some("{"), 0, 0),
      Reported(Some("\\rtf1"), 0, 1),
      Reported(Some("\\ansi"), 0, 6),
      Reported(Some("{"), 1, 0),
      Reported(Some("\\*"), 1, 1),
      Reported(Some("\\cxs"), 1, 3),
      Reported(Some("TEFT"), 1, 8),
      Reported(Some("}"), 1, 12),
      Reported(Some("escaped newline: line"), 2, 0),
      Reported(Some("\\\n"), 2, 21),
      Reported(Some("break"), 3, 0),
      Reported(Some("\\test1"), 4, 0),
      Reported(Some("ing"), 4, 7),
      Reported(Some("\\test2"), 4, 10),
      Reported(Some(";"), 4, 16),
      Reported(Some("}"), 5, 0),
      Reported(None, 6, 0)]

  /** Any text on which the scans find the lexemes of the sample document
      reports `SampleReports`. */
  lemma TraceOfLexemes(text: string)
    requires |text| == 75
    requires LexemeAt(text, 0) == Lexeme(0, 1, 1, false)
    requires CountIn(text, 0, 0, '\n') == 0
    requires text[0..1] == "{"
    requires LexemeAt(text, 1) == Lexeme(1, 5, 6, false)
    requires CountIn(text, 1, 1, '\n') == 0
    requires text[1..6] == "\\rtf1"
    requires LexemeAt(text, 6) == Lexeme(6, 5, 11, false)
    requires CountIn(text, 6, 6, '\n') == 0
    requires text[6..11] == "\\ansi"
    requires LexemeAt(text, 11) == Lexeme(12, 1, 13, false)
    requires CountIn(text, 11, 12, '\n') == 1
    requires text[12..13] == "{"
    requires LexemeAt(text, 13) == Lexeme(13, 2, 15, false)
    requires CountIn(text, 13, 13, '\n') == 0
    requires text[13..15] == "\\*"
    requires LexemeAt(text, 15) == Lexeme(15, 4, 20, false)
    requires CountIn(text, 15, 15, '\n') == 0
    requires text[15..19] == "\\cxs"
    requires LexemeAt(text, 20) == Lexeme(20, 4, 24, false)
    requires CountIn(text, 20, 20, '\n') == 0
    requires text[20..24] == "TEFT"
    requires LexemeAt(text, 24) == Lexeme(24, 1, 25, false)
    requires CountIn(text, 24, 24, '\n') == 0
    requires text[24..25] == "}"
    requires LexemeAt(text, 25) == Lexeme(26, 21, 47, false)
    requires CountIn(text, 25, 26, '\n') == 1
    requires text[26..47] == "escaped newline: line"
    requires LexemeAt(text, 47) == Lexeme(47, 2, 49, true)
    requires CountIn(text, 47, 47, '\n') == 0
    requires text[47..49] == "\\\n"
    requires LexemeAt(text, 49) == Lexeme(49, 5, 54, false)
    requires CountIn(text, 49, 49, '\n') == 0
    requires text[49..54] == "break"
    requires LexemeAt(text, 54) == Lexeme(55, 6, 62, false)
    requires CountIn(text, 54, 55, '\n') == 1
    requires text[55..61] == "\\test1"
    requires LexemeAt(text, 62) == Lexeme(62, 3, 65, false)
    requires CountIn(text, 62, 62, '\n') == 0
    requires text[62..65] == "ing"
    requires LexemeAt(text, 65) == Lexeme(65, 6, 71, false)
    requires CountIn(text, 65, 65, '\n') == 0
    requires text[65..71] == "\\test2"
    requires LexemeAt(text, 71) == Lexeme(71, 1, 72, false)
    requires CountIn(text, 71, 71, '\n') == 0
    requires text[71..72] == ";"
    requires LexemeAt(text, 72) == Lexeme(73, 1, 74, false)
    requires CountIn(text, 72, 73, '\n') == 1
    requires text[73..74] == "}"
    requires LexemeAt(text, 74) == Lexeme(75, 0, 75, false)
    requires CountIn(text, 74, 75, '\n') == 1
    ensures Trace(text, 0, 0, 0) == SampleReports
  {
    SampleScan0(text);
    SampleScan1(text);
    SampleScan2(text);
    SampleScan3(text);
    SampleScan4(text);
    SampleScan5(text);
    SampleScan6(text);
    SampleScan7(text);
    SampleScan8(text);
    SampleScan9(text);
    SampleScan10(text);
    SampleScan11(text);
    SampleScan12(text);
    SampleScan13(text);
    SampleScan14(text);
    SampleScan15(text);
    SampleScan16(text);
    TraceOfScans(Trace(text, 0, 0, 0),
                 Trace(text, 1, 0, 1),
                 Trace(text, 6, 0, 6),
                 Trace(text, 11, 0, 11),
                 Trace(text, 13, 1, 1),
                 Trace(text, 15, 1, 3),
                 Trace(text, 20, 1, 8),
                 Trace(text, 24, 1, 12),
                 Trace(text, 25, 1, 13),
                 Trace(text, 47, 2, 21),
                 Trace(text, 49, 3, 0),
                 Trace(text, 54, 3, 5),
                 Trace(text, 62, 4, 7),
                 Trace(text, 65, 4, 10),
                 Trace(text, 71, 4, 16),
                 Trace(text, 72, 4, 17),
                 Trace(text, 74, 5, 1));
  }

  /** The reports of successive scans of the sample document, chained:
      `tk` stands for what the scans from scan `k` onwards report. */
  lemma TraceOfScans(t0: seq<Reported>, t1: seq<Reported>, t2: seq<Reported>, t3: seq<Reported>,
                     t4: seq<Reported>, t5: seq<Reported>, t6: seq<Reported>, t7: seq<Reported>,
                     t8: seq<Reported>, t9: seq<Reported>, t10: seq<Reported>, t11: seq<Reported>,
                     t12: seq<Reported>, t13: seq<Reported>, t14: seq<Reported>, t15: seq<Reported>,
                     t16: seq<Reported>)
    requires t0 == [Reported(Some("{"), 0, 0)] + t1
    requires t1 == [Reported(Some("\\rtf1"), 0, 1)] + t2
    requires t2 == [Reported(Some("\\ansi"), 0, 6)] + t3
    requires t3 == [Reported(Some("{"), 1, 0)] + t4
    requires t4 == [Reported(Some("\\*"), 1, 1)] + t5
    requires t5 == [Reported(Some("\\cxs"), 1, 3)] + t6
    requires t6 == [Reported(Some("TEFT"), 1, 8)] + t7
    requires t7 == [Reported(Some("}"), 1, 12)] + t8
    requires t8 == [Reported(Some("escaped newline: line"), 2, 0)] + t9
    requires t9 == [Reported(Some("\\\n"), 2, 21)] + t10
    requires t10 == [Reported(Some("break"), 3, 0)] + t11
    requires t11 == [Reported(Some("\\test1"), 4, 0)] + t12
    requires t12 == [Reported(Some("ing"), 4, 7)] + t13
    requires t13 == [Reported(Some("\\test2"), 4, 10)] + t14
    requires t14 == [Reported(Some(";"), 4, 16)] + t15
    requires t15 == [Reported(Some("}"), 5, 0)] + t16
    requires t16 == [Reported(None, 6, 0)]
    ensures t0 == SampleReports
  {
  }

  /** Scan 0 of the sample document. */
  lemma SampleScan0(text: string)
    requires |text| == 75
    requires LexemeAt(text, 0) == Lexeme(0, 1, 1, false)
    requires CountIn(text, 0, 0, '\n') == 0
    requires text[0..1] == "{"
    ensures Trace(text, 0, 0, 0) == [Reported(Some("{"), 0, 0)] + Trace(text, 1, 0, 1)
  {
    TraceStep(text, 0, 0, 0, Lexeme(0, 1, 1, false), "{");
  }

  /** Scan 1 of the sample document. */
  lemma SampleScan1(text: string)
    requires |text| == 75
    requires LexemeAt(text, 1) == Lexeme(1, 5, 6, false)
    requires CountIn(text, 1, 1, '\n') == 0
    requires text[1..6] == "\\rtf1"
    ensures Trace(text, 1, 0, 1) == [Reported(Some("\\rtf1"), 0, 1)] + Trace(text, 6, 0, 6)
  {
    TraceStep(text, 1, 0, 1, Lexeme(1, 5, 6, false), "\\rtf1");
  }

  /** Scan 2 of the sample document. */
  lemma SampleScan2(text: string)
    requires |text| == 75
    requires LexemeAt(text, 6) == Lexeme(6, 5, 11, false)
    requires CountIn(text, 6, 6, '\n') == 0
    requires text[6..11] == "\\ansi"
    ensures Trace(text, 6, 0, 6) == [Reported(Some("\\ansi"), 0, 6)] + Trace(text, 11, 0, 11)
  {
    TraceStep(text, 6, 0, 6, Lexeme(6, 5, 11, false), "\\ansi");
  }

  /** Scan 3 of the sample document. */
  lemma SampleScan3(text: string)
    requires |text| == 75
    requires LexemeAt(text, 11) == Lexeme(12, 1, 13, false)
    requires CountIn(text, 11, 12, '\n') == 1
    requires text[12..13] == "{"
    ensures Trace(text, 11, 0, 11) == [Reported(Some("{"), 1, 0)] + Trace(text, 13, 1, 1)
  {
    TraceStep(text, 11, 0, 11, Lexeme(12, 1, 13, false), "{");
  }

  /** Scan 4 of the sample document. */
  lemma SampleScan4(text: string)
    requires |text| == 75
    requires LexemeAt(text, 13) == Lexeme(13, 2, 15, false)
    requires CountIn(text, 13, 13, '\n') == 0
    requires text[13..15] == "\\*"
    ensures Trace(text, 13, 1, 1) == [Reported(Some("\\*"), 1, 1)] + Trace(text, 15, 1, 3)
  {
    TraceStep(text, 13, 1, 1, Lexeme(13, 2, 15, false), "\\*");
  }

  /** Scan 5 of the sample document. */
  lemma SampleScan5(text: string)
    requires |text| == 75
    requires LexemeAt(text, 15) == Lexeme(15, 4, 20, false)
    requires CountIn(text, 15, 15, '\n') == 0
    requires text[15..19] == "\\cxs"
    ensures Trace(text, 15, 1, 3) == [Reported(Some("\\cxs"), 1, 3)] + Trace(text, 20, 1, 8)
  {
    TraceStep(text, 15, 1, 3, Lexeme(15, 4, 20, false), "\\cxs");
  }

  /** Scan 6 of the sample document. */
  lemma SampleScan6(text: string)
    requires |text| == 75
    requires LexemeAt(text, 20) == Lexeme(20, 4, 24, false)
    requires CountIn(text, 20, 20, '\n') == 0
    requires text[20..24] == "TEFT"
    ensures Trace(text, 20, 1, 8) == [Reported(Some("TEFT"), 1, 8)] + Trace(text, 24, 1, 12)
  {
    TraceStep(text, 20, 1, 8, Lexeme(20, 4, 24, false), "TEFT");
  }

  /** Scan 7 of the sample document. */
  lemma SampleScan7(text: string)
    requires |text| == 75
    requires LexemeAt(text, 24) == Lexeme(24, 1, 25, false)
    requires CountIn(text, 24, 24, '\n') == 0
    requires text[24..25] == "}"
    ensures Trace(text, 24, 1, 12) == [Reported(Some("}"), 1, 12)] + Trace(text, 25, 1, 13)
  {
    TraceStep(text, 24, 1, 12, Lexeme(24, 1, 25, false), "}");
  }

  /** Scan 8 of the sample document. */
  lemma SampleScan8(text: string)
    requires |text| == 75
    requires LexemeAt(text, 25) == Lexeme(26, 21, 47, false)
    requires CountIn(text, 25, 26, '\n') == 1
    requires text[26..47] == "escaped newline: line"
    ensures Trace(text, 25, 1, 13) == [Reported(Some("escaped newline: line"), 2, 0)] + Trace(text, 47, 2, 21)
  {
    TraceStep(text, 25, 1, 13, Lexeme(26, 21, 47, false), "escaped newline: line");
  }

  /** Scan 9 of the sample document. */
  lemma SampleScan9(text: string)
    requires |text| == 75
    requires LexemeAt(text, 47) == Lexeme(47, 2, 49, true)
    requires CountIn(text, 47, 47, '\n') == 0
    requires text[47..49] == "\\\n"
    ensures Trace(text, 47, 2, 21) == [Reported(Some("\\\n"), 2, 21)] + Trace(text, 49, 3, 0)
  {
    TraceStep(text, 47, 2, 21, Lexeme(47, 2, 49, true), "\\\n");
  }

  /** Scan 10 of the sample document. */
  lemma SampleScan10(text: string)
    requires |text| == 75
    requires LexemeAt(text, 49) == Lexeme(49, 5, 54, false)
    requires CountIn(text, 49, 49, '\n') == 0
    requires text[49..54] == "break"
    ensures Trace(text, 49, 3, 0) == [Reported(Some("break"), 3, 0)] + Trace(text, 54, 3, 5)
  {
    TraceStep(text, 49, 3, 0, Lexeme(49, 5, 54, false), "break");
  }

  /** Scan 11 of the sample document. */
  lemma SampleScan11(text: string)
    requires |text| == 75
    requires LexemeAt(text, 54) == Lexeme(55, 6, 62, false)
    requires CountIn(text, 54, 55, '\n') == 1
    requires text[55..61] == "\\test1"
    ensures Trace(text, 54, 3, 5) == [Reported(Some("\\test1"), 4, 0)] + Trace(text, 62, 4, 7)
  {
    TraceStep(text, 54, 3, 5, Lexeme(55, 6, 62, false), "\\test1");
  }

  /** Scan 12 of the sample document. */
  lemma SampleScan12(text: string)
    requires |text| == 75
    requires LexemeAt(text, 62) == Lexeme(62, 3, 65, false)
    requires CountIn(text, 62, 62, '\n') == 0
    requires text[62..65] == "ing"
    ensures Trace(text, 62, 4, 7) == [Reported(Some("ing"), 4, 7)] + Trace(text, 65, 4, 10)
  {
    TraceStep(text, 62, 4, 7, Lexeme(62, 3, 65, false), "ing");
  }

  /** Scan 13 of the sample document. */
  lemma SampleScan13(text: string)
    requires |text| == 75
    requires LexemeAt(text, 65) == Lexeme(65, 6, 71, false)
    requires CountIn(text, 65, 65, '\n') == 0
    requires text[65..71] == "\\test2"
    ensures Trace(text, 65, 4, 10) == [Reported(Some("\\test2"), 4, 10)] + Trace(text, 71, 4, 16)
  {
    TraceStep(text, 65, 4, 10, Lexeme(65, 6, 71, false), "\\test2");
  }

  /** Scan 14 of the sample document. */
  lemma SampleScan14(text: string)
    requires |text| == 75
    requires LexemeAt(text, 71) == Lexeme(71, 1, 72, false)
    requires CountIn(text, 71, 71, '\n') == 0
    requires text[71..72] == ";"
    ensures Trace(text, 71, 4, 16) == [Reported(Some(";"), 4, 16)] + Trace(text, 72, 4, 17)
  {
    TraceStep(text, 71, 4, 16, Lexeme(71, 1, 72, false), ";");
  }

  /** Scan 15 of the sample document. */
  lemma SampleScan15(text: string)
    requires |text| == 75
    requires LexemeAt(text, 72) == Lexeme(73, 1, 74, false)
    requires CountIn(text, 72, 73, '\n') == 1
    requires text[73..74] == "}"
    ensures Trace(text, 72, 4, 17) == [Reported(Some("}"), 5, 0)] + Trace(text, 74, 5, 1)
  {
    TraceStep(text, 72, 4, 17, Lexeme(73, 1, 74, false), "}");
  }

  /** Scan 16 of the sample document. */
  lemma SampleScan16(text: string)
    requires |text| == 75
    requires LexemeAt(text, 74) == Lexeme(75, 0, 75, false)
    requires CountIn(text, 74, 75, '\n') == 1
    ensures Trace(text, 74, 5, 1) == [Reported(None, 6, 0)]
  {
    TraceLast(text, 74, 5, 1, Lexeme(75, 0, 75, false));
  }

  /** Scanning the sample document from its start reports exactly
      `SampleReports`. */
  lemma SampleDocument()
    ensures Trace(Sample, 0, 0, 0) == SampleReports
  {
    LexemesOfLine0();
    LexemesOfLine1();
    LexemesOfLine2();
    LexemesOfLine3();
    LexemesOfLine4();
    LexemesOfLine5();
    LexemesOfLine6();
    TraceOfLexemes(Sample);
  }

  /** The sample document holds no NUL character. */
  lemma SampleNulFree()
    ensures NulFree(Sample)
  {
    var lines := ["{\\rtf1\\ansi\n", "{\\*\\cxs TEFT}\n", "escaped newline: line\\\n",
                  "break\n", "\\test1 ing\\test2;\n", "}\n"];
    forall k | 0 <= k < |lines|
      ensures NulFree(lines[k])
    {
      forall i | 0 <= i < |lines[k]|
        ensures lines[k][i] != '\0'
      {
        assert lines[k][i] in lines[k];
      }
    }
    NulFreeAppend(lines[0], lines[1]);
    NulFreeAppend(lines[0] + lines[1], lines[2]);
    NulFreeAppend(lines[0] + lines[1] + lines[2], lines[3]);
    NulFreeAppend(lines[0] + lines[1] + lines[2] + lines[3], lines[4]);
    NulFreeAppend(lines[0] + lines[1] + lines[2] + lines[3] + lines[4], lines[5]);
  }

  lemma NulFreeAppend(a: string, b: string)
    requires NulFree(a) && NulFree(b)
    ensures NulFree(a + b)
  {
    forall i | 0 <= i < |a + b|
      ensures (a + b)[i] != '\0'
    {
      if i >= |a| { assert (a + b)[i] == b[i - |a|]; }
    }
  }

  /** Rewinding two strings onto an empty stack and reading twice returns
      them last-in first-out and leaves the scanner where it was. */
  method RewindTwice(t: Tokenizer, first: string, second: string) returns (a: Option<string>, b: Option<string>)
    requires t.Valid() && t.rewindCount == 0
    modifies t, t.rewindBuffer
    ensures t.Valid() && a == Some(second) && b == Some(first) && t.rewindCount == 0
    ensures t.cursor == old(t.cursor) && t.lnum == old(t.lnum) && t.cnum == old(t.cnum)
    ensures t.lnumNext == old(t.lnumNext) && t.cnumNext == old(t.cnumNext)
  {
    var status := t.RewindToken(HostString(first));
    status := t.RewindToken(HostString(second));
    assert t.Rewound() == [Some(first), Some(second)];
    a := t.NextToken();
    b := t.NextToken();
  }

  /** Two scans of the sample document, two unrelated strings rewound, and
      three more calls: the rewound strings come back last-in first-out at
      the position of the last scanned token, and scanning then resumes where
      it stopped. */
  method RewindScenario() returns (reports: seq<Reported>)
    ensures reports == [Reported(Some("{"), 0, 0), Reported(Some("\\rtf1"), 0, 1),
                        Reported(Some("wind"), 0, 1), Reported(Some("re"), 0, 1),
                        Reported(Some("\\ansi"), 0, 6)]
  {
    SampleNulFree();
    var t := new Tokenizer(Sample);
    LexemesOfLine0();
    ScanFinds(t.text, 0, 0, 0, Lexeme(0, 1, 1, false), "{");
    var token := t.NextToken();
    assert token == Some("{") && t.lnum == 0 && t.cnum == 0;
    assert t.cursor == 1 && t.lnumNext == 0 && t.cnumNext == 1;
    reports := [Reported(token, t.lnum, t.cnum)];
    ScanFinds(t.text, 1, 0, 1, Lexeme(1, 5, 6, false), "\\rtf1");
    token := t.NextToken();
    assert token == Some("\\rtf1") && t.lnum == 0 && t.cnum == 1;
    assert t.cursor == 6 && t.lnumNext == 0 && t.cnumNext == 6;
    reports := reports + [Reported(token, t.lnum, t.cnum)];
    var wind, re := RewindTwice(t, "re", "wind");
    reports := reports + [Reported(wind, t.lnum, t.cnum), Reported(re, t.lnum, t.cnum)];
    assert t.rewindCount == 0 && t.cursor == 6 && t.lnumNext == 0 && t.cnumNext == 6;
    ScanFinds(t.text, 6, 0, 6, Lexeme(6, 5, 11, false), "\\ansi");
    token := t.NextToken();
    reports := reports + [Reported(token, t.lnum, t.cnum)];
  }
}
