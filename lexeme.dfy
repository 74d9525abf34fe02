/** The lexical rules of the RTF tokenizer, as pure functions over the text:
    what one call of the scanner skips, which lexeme it classifies, how far it
    moves the cursor and which line:column it reports. The imperative scanner
    in module RtfTokenize is proved against `Scan`. */
module RtfLexeme {

  datatype Option<T> = None | Some(value: T)

  // ---------------------------------------------------------------------------
  // Character classes

  /** A bare line break: skipped between tokens. */
  predicate IsBreak(c: char) { c == '\n' || c == '\r' }

  predicate IsLetter(c: char) { ('a' <= c <= 'z') || ('A' <= c <= 'Z') }

  predicate IsDigit(c: char) { '0' <= c <= '9' }

  /** A character that may continue a plain-text run. */
  predicate IsPlain(c: char) { c != '\\' && c != '{' && c != '}' && !IsBreak(c) }

  /** The tokenizer keeps its own copy of a C string: it holds no NUL. */
  predicate NulFree(text: string) { forall i :: 0 <= i < |text| ==> text[i] != '\0' }

  /** The classes the scanner runs over, one per loop of the scanner. */
  datatype Run = Breaks | Letters | Digits | PlainText

  predicate InRun(c: char, k: Run)
  {
    match k
    case Breaks => IsBreak(c)
    case Letters => IsLetter(c)
    case Digits => IsDigit(c)
    case PlainText => IsPlain(c)
  }

  /** End of the maximal run of class `k` that starts at `i`. */
  function RunEnd(text: string, i: nat, k: Run): (j: nat)
    requires i <= |text|
    ensures i <= j <= |text|
    ensures forall m :: i <= m < j ==> InRun(text[m], k)
    ensures j == |text| || !InRun(text[j], k)
    decreases |text| - i
  {
    if i == |text| || !InRun(text[i], k) then i else RunEnd(text, i + 1, k)
  }

  // ---------------------------------------------------------------------------
  // One scan step

  /** Where a scan finds its lexeme: it starts at `start`, the token is the
      `len` characters from there, and the cursor moves on to `next` (one past
      the token when a control word's delimiter space is consumed).
      `len == 0` means end of text. */
  datatype Lexeme = Lexeme(start: nat, len: nat, next: nat, escapedNewline: bool)

  /** The lexeme found by a scan from `cursor`: skip bare breaks, then
      classify what follows. */
  function LexemeAt(text: string, cursor: nat): (lx: Lexeme)
    requires cursor <= |text|
    ensures cursor <= lx.start <= lx.start + lx.len <= lx.next <= |text|
    ensures forall m :: cursor <= m < lx.start ==> IsBreak(text[m])
    ensures lx.start == RunEnd(text, cursor, Breaks)
  {
    ClassifyAt(text, RunEnd(text, cursor, Breaks))
  }

  /** The lexeme that starts at `s`, where no bare break stands. */
  function ClassifyAt(text: string, s: nat): (lx: Lexeme)
    requires s <= |text|
    requires s == |text| || !IsBreak(text[s])
    ensures lx.start == s
    ensures s + lx.len <= lx.next <= |text|
    ensures lx.next <= s + lx.len + 1
    ensures lx.len == 0 <==> s == |text|
    ensures lx.len == 0 ==> lx.next == s
    ensures lx.escapedNewline ==> lx.len == 2 && lx.next == s + 2 && text[s] == '\\' && text[s + 1] == '\n'
    ensures !lx.escapedNewline ==> forall m :: s <= m < lx.next ==> text[m] != '\n'
  {
    if s == |text| then Lexeme(s, 0, s, false)
    else if text[s] == '{' || text[s] == '}' then Lexeme(s, 1, s + 1, false)
    else if text[s] == '\\' then
      var j := RunEnd(text, s + 1, Letters);
      var escaped := s + 1 < |text| && text[s + 1] == '\n';
      if j == s + 1 then
        // control symbol, or a lone backslash at end of text
        if j < |text| then Lexeme(s, 2, s + 2, escaped) else Lexeme(s, 1, s + 1, escaped)
      else
        // control word: optional '-' or digit, then digits, then one delimiter space
        var e := if j < |text| && (text[j] == '-' || IsDigit(text[j])) then RunEnd(text, j + 1, Digits) else j;
        Lexeme(s, e - s, if e < |text| && text[e] == ' ' then e + 1 else e, escaped)
    else
      var e := RunEnd(text, s + 1, PlainText);
      Lexeme(s, e - s, e, false)
  }

  /** A scanned slice as `next_token` returns it: `None` for the empty slice
      found at end of text, the slice itself otherwise. */
  function TokenText(slice: string): (t: Option<string>)
    ensures t.None? <==> slice == []
    ensures t.Some? ==> t.value == slice
  {
    if slice == [] then None else Some(slice)
  }

  /** Everything one scan computes: the token, the lexeme, the reported
      position and the position prepared for the following scan. */
  datatype Step = Step(token: Option<string>, lexeme: Lexeme, lnum: nat, cnum: nat, lnumNext: nat, cnumNext: nat)

  /** One scan from `cursor`, given the next-position left by the previous scan. */
  function Scan(text: string, cursor: nat, lnumNext: nat, cnumNext: nat): (st: Step)
    requires cursor <= |text|
    ensures st.lexeme == LexemeAt(text, cursor)
    ensures st.token.None? <==> st.lexeme.len == 0
    ensures st.lnum == lnumNext + CountIn(text, cursor, st.lexeme.start, '\n')
    ensures st.cnum == if st.lnum == lnumNext then cnumNext else 0
    ensures st.lnumNext == st.lnum || (st.lnumNext == st.lnum + 1 && st.cnumNext == 0)
  {
    var lx := LexemeAt(text, cursor);
    var breaks := CountIn(text, cursor, lx.start, '\n');
    var lnum := lnumNext + breaks;
    var cnum := if breaks == 0 then cnumNext else 0;
    Step(TokenText(text[lx.start..lx.start + lx.len]), lx, lnum, cnum,
         if lx.escapedNewline then lnum + 1 else lnum,
         if lx.escapedNewline then 0 else cnum + (lx.next - lx.start))
  }

  // ---------------------------------------------------------------------------
  // Line and column of an offset, independent of the scanner

  /** Number of occurrences of `c` in `text[lo..hi]`. */
  function CountIn(text: string, lo: nat, hi: nat, c: char): nat
    requires lo <= hi <= |text|
    decreases hi - lo
  {
    if hi == lo then 0 else CountIn(text, lo, hi - 1, c) + (if text[hi - 1] == c then 1 else 0)
  }

  /** Offset of the first character of the line that holds offset `p`. */
  function LineStart(text: string, p: nat): (ls: nat)
    requires p <= |text|
    ensures ls <= p
    ensures ls == 0 || text[ls - 1] == '\n'
    ensures forall m :: ls <= m < p ==> text[m] != '\n'
  {
    if p == 0 then 0 else if text[p - 1] == '\n' then p else LineStart(text, p - 1)
  }

  /** `(line, col)` is a position the tokenizer may report for offset `p`: the
      line is the number of line feeds before `p`; the column is the offset
      from the start of that line, less some of the carriage returns on that
      line (those skipped as bare breaks are not counted). */
  ghost predicate PositionAt(text: string, p: nat, line: nat, col: nat)
    requires p <= |text|
  {
    var ls := LineStart(text, p);
    line == CountIn(text, 0, p, '\n')
    && p - ls - CountIn(text, ls, p, '\r') <= col <= p - ls
  }

  lemma {:induction false} CountSplit(text: string, lo: nat, mid: nat, hi: nat, c: char)
    requires lo <= mid <= hi <= |text|
    ensures CountIn(text, lo, hi, c) == CountIn(text, lo, mid, c) + CountIn(text, mid, hi, c)
    decreases hi - mid
  {
    if hi > mid {
      CountSplit(text, lo, mid, hi - 1, c);
    }
  }

  lemma {:induction false} CountAbsent(text: string, lo: nat, hi: nat, c: char)
    requires lo <= hi <= |text|
    requires forall m :: lo <= m < hi ==> text[m] != c
    ensures CountIn(text, lo, hi, c) == 0
    decreases hi - lo
  {
    if hi > lo {
      CountAbsent(text, lo, hi - 1, c);
    }
  }

  lemma {:induction false} CountBounded(text: string, lo: nat, hi: nat, c: char)
    requires lo <= hi <= |text|
    ensures CountIn(text, lo, hi, c) <= hi - lo
    decreases hi - lo
  {
    if hi > lo {
      CountBounded(text, lo, hi - 1, c);
    }
  }

  /** Line starts do not move across characters that are not line feeds. */
  lemma {:induction false} LineStartStable(text: string, p: nat, q: nat)
    requires p <= q <= |text|
    requires forall m :: p <= m < q ==> text[m] != '\n'
    ensures LineStart(text, q) == LineStart(text, p)
    decreases q - p
  {
    if q > p {
      LineStartStable(text, p, q - 1);
    }
  }

  /** Skipping one bare break keeps a valid position valid: a line feed moves
      to the start of the next line, a carriage return leaves it as it is. */
  lemma SkipBreakPosition(text: string, p: nat, line: nat, col: nat)
    requires p < |text| && IsBreak(text[p])
    requires PositionAt(text, p, line, col)
    ensures text[p] == '\n' ==> PositionAt(text, p + 1, line + 1, 0)
    ensures text[p] == '\r' ==> PositionAt(text, p + 1, line, col)
  {
    if text[p] == '\r' {
      LineStartStable(text, p, p + 1);
      CountSplit(text, LineStart(text, p), p, p + 1, '\r');
    }
  }

  /** Skipping a run of bare breaks, as the scanner's skip loop does. */
  lemma {:induction false} SkipBreaksPosition(text: string, p: nat, q: nat, line: nat, col: nat)
    requires p <= q <= |text|
    requires forall m :: p <= m < q ==> IsBreak(text[m])
    requires PositionAt(text, p, line, col)
    ensures PositionAt(text, q, line + CountIn(text, p, q, '\n'),
                       if CountIn(text, p, q, '\n') == 0 then col else 0)
    decreases q - p
  {
    if q > p {
      var n := CountIn(text, p, q - 1, '\n');
      SkipBreaksPosition(text, p, q - 1, line, col);
      SkipBreakPosition(text, q - 1, line + n, if n == 0 then col else 0);
    }
  }

  /** Consuming `k` characters that hold no line feed advances the column by `k`. */
  lemma ConsumePosition(text: string, p: nat, q: nat, line: nat, col: nat)
    requires p <= q <= |text|
    requires forall m :: p <= m < q ==> text[m] != '\n'
    requires PositionAt(text, p, line, col)
    ensures PositionAt(text, q, line, col + (q - p))
  {
    var ls := LineStart(text, p);
    LineStartStable(text, p, q);
    CountAbsent(text, p, q, '\n');
    CountSplit(text, 0, p, q, '\n');
    CountSplit(text, ls, p, q, '\r');
    CountBounded(text, p, q, '\r');
  }

  // ---------------------------------------------------------------------------
  // Properties of one scan

  /** Each scan starts where the previous left off, skips only bare breaks,
      returns a contiguous slice of the text and never moves the cursor back
      or past the end; what it consumes beyond the token is at most one space. */
  lemma ScanSlices(text: string, cursor: nat, lnumNext: nat, cnumNext: nat)
    requires cursor <= |text|
    ensures var st := Scan(text, cursor, lnumNext, cnumNext);
            var lx := st.lexeme;
            cursor <= lx.start <= lx.next <= |text|
            && (forall m :: cursor <= m < lx.start ==> IsBreak(text[m]))
            && (lx.start == |text| || !IsBreak(text[lx.start]))
            && (st.token.Some? ==> st.token.value == text[lx.start..lx.start + lx.len] && cursor < lx.next)
            && (lx.next == lx.start + lx.len || (lx.next == lx.start + lx.len + 1 && text[lx.start + lx.len] == ' '))
  {
  }

  /** `None` is returned exactly when nothing but bare breaks remains; the
      cursor is then at end of text. */
  lemma {:induction false} ScanNone(text: string, cursor: nat, lnumNext: nat, cnumNext: nat)
    requires cursor <= |text|
    ensures var st := Scan(text, cursor, lnumNext, cnumNext);
            st.token.None? <==> (forall m :: cursor <= m < |text| ==> IsBreak(text[m]))
    ensures var st := Scan(text, cursor, lnumNext, cnumNext);
            st.token.None? ==> st.lexeme.next == |text|
  {
    var lx := LexemeAt(text, cursor);
    if lx.start < |text| {
      assert !IsBreak(text[lx.start]);
    }
  }

  /** At end of text every further scan returns `None` and leaves the
      position where it is. */
  lemma EndIsStable(text: string, lnumNext: nat, cnumNext: nat)
    ensures Scan(text, |text|, lnumNext, cnumNext)
            == Step(None, Lexeme(|text|, 0, |text|, false), lnumNext, cnumNext, lnumNext, cnumNext)
  {
  }

  /** A brace is a token of its own. */
  lemma GroupToken(text: string, cursor: nat, lnumNext: nat, cnumNext: nat)
    requires cursor <= |text|
    requires var s := RunEnd(text, cursor, Breaks); s < |text| && (text[s] == '{' || text[s] == '}')
    ensures var st := Scan(text, cursor, lnumNext, cnumNext);
            var s := st.lexeme.start;
            st.token == Some([text[s]]) && st.lexeme.next == s + 1
  {
    var s := RunEnd(text, cursor, Breaks);
    assert text[s..s + 1] == [text[s]];
  }

  /** A plain-text run is non-empty, holds only plain characters and is
      maximal: it ends at end of text or before `\`, `{`, `}`, CR or LF. */
  lemma PlainRun(text: string, cursor: nat, lnumNext: nat, cnumNext: nat)
    requires cursor <= |text|
    requires var s := RunEnd(text, cursor, Breaks); s < |text| && IsPlain(text[s])
    ensures var st := Scan(text, cursor, lnumNext, cnumNext);
            var lx := st.lexeme;
            st.token.Some? && lx.len >= 1 && lx.next == lx.start + lx.len
            && (forall m :: lx.start <= m < lx.next ==> IsPlain(text[m]))
            && (lx.next == |text| || text[lx.next] in {'\\', '{', '}', '\r', '\n'})
  {
  }

  /** A backslash followed by a non-letter is a two-character control symbol
      (even a line feed, a brace or a digit); a backslash at end of text is
      a one-character token. */
  lemma ControlSymbol(text: string, cursor: nat, lnumNext: nat, cnumNext: nat)
    requires cursor <= |text|
    requires var s := RunEnd(text, cursor, Breaks); s < |text| && text[s] == '\\'
    requires var s := RunEnd(text, cursor, Breaks); s + 1 == |text| || !IsLetter(text[s + 1])
    ensures var st := Scan(text, cursor, lnumNext, cnumNext);
            var s := st.lexeme.start;
            (s + 1 < |text| ==> st.token == Some(text[s..s + 2]) && st.lexeme.next == s + 2)
            && (s + 1 == |text| ==> st.token == Some("\\") && st.lexeme.next == s + 1)
  {
    var s := RunEnd(text, cursor, Breaks);
    assert text[s..s + 1] == [text[s]];
  }

  /** A backslash followed by letters is a control word: the letters, then
      optionally a `-` or digit followed by more digits; one space right after
      it is consumed but not part of the token. */
  lemma ControlWord(text: string, cursor: nat, lnumNext: nat, cnumNext: nat)
    requires cursor <= |text|
    requires var s := RunEnd(text, cursor, Breaks); s + 1 < |text| && text[s] == '\\' && IsLetter(text[s + 1])
    ensures var st := Scan(text, cursor, lnumNext, cnumNext);
            var lx := st.lexeme;
            var s, e := lx.start, lx.start + lx.len;
            var j := RunEnd(text, s + 1, Letters);
            st.token == Some(text[s..e]) && text[s] == '\\'
            && s + 2 <= j <= e
            && (forall m :: s + 1 <= m < j ==> IsLetter(text[m]))
            && (j == |text| || !IsLetter(text[j]))
            && (j == e ==> j == |text| || (text[j] != '-' && !IsDigit(text[j])))
            && (j < e ==> (text[j] == '-' || IsDigit(text[j]))
                          && (forall m :: j < m < e ==> IsDigit(text[m]))
                          && (e == |text| || !IsDigit(text[e])))
            && (lx.next == e + 1 <==> e < |text| && text[e] == ' ')
            && (lx.next == e || lx.next == e + 1)
  {
  }

  /** The position prepared for the next scan: after an escaped line feed
      (`\` LF) it is column 0 of the following line; after any other lexeme it
      is on the same line, advanced by every character consumed, including a
      delimiter space. */
  lemma NextPosition(text: string, cursor: nat, lnumNext: nat, cnumNext: nat)
    requires cursor <= |text|
    ensures var st := Scan(text, cursor, lnumNext, cnumNext);
            var s := st.lexeme.start;
            var escaped := s + 1 < |text| && text[s] == '\\' && text[s + 1] == '\n';
            (escaped ==> st.token == Some("\\\n") && st.lexeme.next == s + 2
                         && st.lnumNext == st.lnum + 1 && st.cnumNext == 0)
            && (!escaped ==> st.lnumNext == st.lnum && st.cnumNext == st.cnum + (st.lexeme.next - s))
  {
    var lx := LexemeAt(text, cursor);
    var s := lx.start;
    if s + 1 < |text| && text[s] == '\\' && text[s + 1] == '\n' {
      assert RunEnd(text, s + 1, Letters) == s + 1;
      assert text[s..s + 2] == "\\\n";
    }
  }

  /** The two positions of a scan, stated over the offsets it visits: bare
      breaks from `cursor` to `start`, then a lexeme up to `next` that is
      either an escaped line feed or holds no line feed. */
  lemma StepPosition(text: string, cursor: nat, start: nat, next: nat, escaped: bool, line: nat, col: nat)
    requires cursor <= start <= next <= |text|
    requires forall m :: cursor <= m < start ==> IsBreak(text[m])
    requires escaped ==> next == start + 2 && text[start] == '\\' && text[start + 1] == '\n'
    requires !escaped ==> forall m :: start <= m < next ==> text[m] != '\n'
    requires PositionAt(text, cursor, line, col)
    ensures var breaks := CountIn(text, cursor, start, '\n');
            var lnum := line + breaks;
            var cnum := if breaks == 0 then col else 0;
            PositionAt(text, start, lnum, cnum)
            && PositionAt(text, next, if escaped then lnum + 1 else lnum, if escaped then 0 else cnum + (next - start))
  {
    var breaks := CountIn(text, cursor, start, '\n');
    var lnum := line + breaks;
    var cnum := if breaks == 0 then col else 0;
    SkipBreaksPosition(text, cursor, start, line, col);
    if escaped {
      ConsumePosition(text, start, start + 1, lnum, cnum);
      SkipBreakPosition(text, start + 1, lnum, cnum + 1);
    } else {
      ConsumePosition(text, start, next, lnum, cnum);
    }
  }

  /** The two positions a scan reports agree with the line:column reference:
      the reported one for where the token starts, the next one for where the
      cursor stops. An escaped line feed `\` LF moves to column 0 of the
      following line. */
  lemma ScanPosition(text: string, cursor: nat, lnumNext: nat, cnumNext: nat)
    requires cursor <= |text|
    requires PositionAt(text, cursor, lnumNext, cnumNext)
    ensures var st := Scan(text, cursor, lnumNext, cnumNext);
            PositionAt(text, st.lexeme.start, st.lnum, st.cnum)
            && PositionAt(text, st.lexeme.next, st.lnumNext, st.cnumNext)
  {
    var lx := LexemeAt(text, cursor);
    StepPosition(text, cursor, lx.start, lx.next, lx.escapedNewline, lnumNext, cnumNext);
  }

  // ---------------------------------------------------------------------------
  // Scanning a whole text

  /** A token as a caller sees it, with the line and column reported for it. */
  datatype Reported = Reported(token: Option<string>, line: nat, col: nat)

  /** What successive scans from `cursor` report, up to and including the
      first `None`. */
  function Trace(text: string, cursor: nat, lnumNext: nat, cnumNext: nat): (tr: seq<Reported>)
    requires cursor <= |text|
    ensures |tr| >= 1 && tr[|tr| - 1].token.None?
    decreases |text| - cursor
  {
    var st := Scan(text, cursor, lnumNext, cnumNext);
    var r := Reported(st.token, st.lnum, st.cnum);
    if st.token.None? then [r] else [r] + Trace(text, st.lexeme.next, st.lnumNext, st.cnumNext)
  }

  /** What one scan consumes: the bare breaks it skips, the token it returns
      and the delimiter space it swallows. */
  datatype Piece = Piece(skipped: string, token: string, delimiter: string)

  /** The piece of the scan from `cursor`. */
  function PieceOf(text: string, cursor: nat): Piece
    requires cursor <= |text|
  {
    var lx := LexemeAt(text, cursor);
    Piece(text[cursor..lx.start], text[lx.start..lx.start + lx.len], text[lx.start + lx.len..lx.next])
  }

  /** The pieces of successive scans from `cursor` up to and including the
      one that returns `None`. */
  function Pieces(text: string, cursor: nat): seq<Piece>
    requires cursor <= |text|
    decreases |text| - cursor
  {
    var lx := LexemeAt(text, cursor);
    if lx.len == 0 then [PieceOf(text, cursor)] else [PieceOf(text, cursor)] + Pieces(text, lx.next)
  }

  function Join(ps: seq<Piece>): string
  {
    if ps == [] then [] else ps[0].skipped + ps[0].token + ps[0].delimiter + Join(ps[1..])
  }

  predicate AllBreaks(s: string) { forall i :: 0 <= i < |s| ==> IsBreak(s[i]) }

  /** `Pieces` unfolded by one scan. */
  lemma PiecesUnfold(text: string, cursor: nat)
    requires cursor <= |text|
    ensures var lx := LexemeAt(text, cursor);
            Pieces(text, cursor) == [PieceOf(text, cursor)] + (if lx.len == 0 then [] else Pieces(text, lx.next))
  {
  }

  /** One scan's piece covers the text from `cursor` to where the next scan starts. */
  lemma PieceTile(text: string, cursor: nat)
    requires cursor <= |text|
    ensures var p, lx := PieceOf(text, cursor), LexemeAt(text, cursor);
            p.skipped + p.token + p.delimiter + text[lx.next..] == text[cursor..]
  {
    var lx := LexemeAt(text, cursor);
    var a, b, c := lx.start, lx.start + lx.len, lx.next;
    assert PieceOf(text, cursor) == Piece(text[cursor..a], text[a..b], text[b..c]);
    SliceSplit3(text, cursor, a, b, c);
  }

  lemma JoinCons(p: Piece, ps: seq<Piece>)
    ensures Join([p] + ps) == p.skipped + p.token + p.delimiter + Join(ps)
  {
    assert ([p] + ps)[1..] == ps;
  }

  /** One scan extends a tiling of what follows it to a tiling from `cursor`. */
  lemma PiecesTileStep(text: string, cursor: nat)
    requires cursor <= |text|
    ensures var lx, ps := LexemeAt(text, cursor), Pieces(text, cursor);
            (lx.len == 0 ==> Join(ps) == text[cursor..])
            && (lx.len > 0 && Join(Pieces(text, lx.next)) == text[lx.next..] ==> Join(ps) == text[cursor..])
  {
    var lx, p := LexemeAt(text, cursor), PieceOf(text, cursor);
    PiecesUnfold(text, cursor);
    PieceTile(text, cursor);
    if lx.len == 0 {
      JoinCons(p, []);
      assert text[lx.next..] == [];
    } else {
      JoinCons(p, Pieces(text, lx.next));
    }
  }

  /** Successive scans tile the text: skipped breaks, tokens and delimiter
      spaces, in order, with no gap and no overlap. */
  lemma {:induction false} PiecesTile(text: string, cursor: nat)
    requires cursor <= |text|
    ensures Join(Pieces(text, cursor)) == text[cursor..]
    decreases |text| - cursor
  {
    PiecesTileStep(text, cursor);
    var lx := LexemeAt(text, cursor);
    if lx.len > 0 {
      PiecesTile(text, lx.next);
    }
  }

  /** Four adjacent slices make up the suffix they start. */
  lemma SliceSplit3(s: string, i: nat, j: nat, k: nat, l: nat)
    requires i <= j <= k <= l <= |s|
    ensures s[i..] == s[i..j] + s[j..k] + s[k..l] + s[l..]
  {
    SliceSplit(s, i, j);
    SliceSplit(s, j, k);
    SliceSplit(s, k, l);
  }

  lemma SliceSplit(s: string, i: nat, j: nat)
    requires i <= j <= |s|
    ensures s[i..] == s[i..j] + s[j..]
  {
  }

  /** What one scan may consume around its token: bare breaks before it and
      at most one space after it. */
  predicate PieceOk(p: Piece)
  {
    AllBreaks(p.skipped) && (p.delimiter == [] || p.delimiter == " ")
  }

  /** The piece of a single scan: breaks, then the token, then at most one
      space; the token is empty exactly at end of text. */
  lemma PieceShape(text: string, cursor: nat)
    requires cursor <= |text|
    ensures var p := PieceOf(text, cursor);
            PieceOk(p) && (p.token == [] <==> LexemeAt(text, cursor).len == 0)
  {
    var lx := LexemeAt(text, cursor);
    ScanSlices(text, cursor, 0, 0);
    assert |text[lx.start..lx.start + lx.len]| == lx.len;
    if lx.next == lx.start + lx.len + 1 {
      assert text[lx.start + lx.len..lx.next] == [text[lx.start + lx.len]];
    }
  }

  /** Every scan before the last returns a non-empty token, the last returns
      none, and every scan consumes only what `PieceOk` allows. */
  predicate WellShaped(ps: seq<Piece>)
  {
    |ps| >= 1 && ps[|ps| - 1].token == []
    && (forall i :: 0 <= i < |ps| - 1 ==> ps[i].token != [])
    && (forall i :: 0 <= i < |ps| ==> PieceOk(ps[i]))
  }

  lemma ShapedCons(p: Piece, ps: seq<Piece>)
    requires PieceOk(p) && p.token != [] && WellShaped(ps)
    ensures WellShaped([p] + ps)
  {
    var ps' := [p] + ps;
    forall i | 0 <= i < |ps'|
      ensures (i < |ps'| - 1 ==> ps'[i].token != []) && PieceOk(ps'[i])
    {
      if i > 0 { assert ps'[i] == ps[i - 1]; }
    }
  }

  /** One scan extends a well-shaped tiling of what follows it. */
  lemma PiecesShapeStep(text: string, cursor: nat)
    requires cursor <= |text|
    ensures var lx, ps := LexemeAt(text, cursor), Pieces(text, cursor);
            (lx.len == 0 ==> WellShaped(ps))
            && (lx.len > 0 && WellShaped(Pieces(text, lx.next)) ==> WellShaped(ps))
  {
    var lx := LexemeAt(text, cursor);
    var p := PieceOf(text, cursor);
    PieceShape(text, cursor);
    PiecesUnfold(text, cursor);
    if lx.len > 0 {
      var rest := Pieces(text, lx.next);
      if WellShaped(rest) {
        ShapedCons(p, rest);
      }
    }
  }

  /** Every scan before the final `None` returns a non-empty token, and every
      scan skips only bare breaks and swallows at most one space. */
  lemma {:induction false} PiecesShape(text: string, cursor: nat)
    requires cursor <= |text|
    ensures WellShaped(Pieces(text, cursor))
    decreases |text| - cursor
  {
    PiecesShapeStep(text, cursor);
    var lx := LexemeAt(text, cursor);
    if lx.len > 0 {
      PiecesShape(text, lx.next);
    }
  }

  /** `Trace` unfolded by one scan. */
  lemma TraceUnfold(text: string, cursor: nat, lnumNext: nat, cnumNext: nat)
    requires cursor <= |text|
    ensures var st := Scan(text, cursor, lnumNext, cnumNext);
            Trace(text, cursor, lnumNext, cnumNext)
            == [Reported(st.token, st.lnum, st.cnum)]
               + (if st.token.None? then [] else Trace(text, st.lexeme.next, st.lnumNext, st.cnumNext))
  {
  }

  /** Reported tokens and pieces agree one for one. */
  predicate Agree(tr: seq<Reported>, ps: seq<Piece>)
  {
    |tr| == |ps| && (tr == [] || (tr[0].token == TokenText(ps[0].token) && Agree(tr[1..], ps[1..])))
  }

  /** `Agree`, index by index. */
  lemma {:induction false} AgreeAt(tr: seq<Reported>, ps: seq<Piece>)
    requires Agree(tr, ps)
    ensures |tr| == |ps| && forall i :: 0 <= i < |tr| ==> tr[i].token == TokenText(ps[i].token)
    decreases |tr|
  {
    if tr != [] {
      AgreeAt(tr[1..], ps[1..]);
      forall i | 0 <= i < |tr|
        ensures tr[i].token == TokenText(ps[i].token)
      {
        if i > 0 { assert tr[i] == tr[1..][i - 1] && ps[i] == ps[1..][i - 1]; }
      }
    }
  }

  lemma AgreeCons(r: Reported, p: Piece, tr: seq<Reported>, ps: seq<Piece>)
    requires r.token == TokenText(p.token)
    requires Agree(tr, ps)
    ensures Agree([r] + tr, [p] + ps)
  {
    assert ([r] + tr)[1..] == tr && ([p] + ps)[1..] == ps;
  }

  /** One scan reports the token of its piece. */
  lemma ScanPiece(text: string, cursor: nat, lnumNext: nat, cnumNext: nat)
    requires cursor <= |text|
    ensures var st := Scan(text, cursor, lnumNext, cnumNext);
            st.lexeme == LexemeAt(text, cursor) && st.token == TokenText(PieceOf(text, cursor).token)
  {
    var lx := LexemeAt(text, cursor);
    assert |text[lx.start..lx.start + lx.len]| == lx.len;
  }

  /** One scan extends agreement of what follows it to the whole trace. */
  lemma TracePiecesStep(text: string, cursor: nat, lnumNext: nat, cnumNext: nat)
    requires cursor <= |text|
    ensures var st := Scan(text, cursor, lnumNext, cnumNext);
            var tr, ps := Trace(text, cursor, lnumNext, cnumNext), Pieces(text, cursor);
            st.lexeme.next <= |text|
            && (st.token.None? ==> Agree(tr, ps))
            && (st.token.Some? && Agree(Trace(text, st.lexeme.next, st.lnumNext, st.cnumNext), Pieces(text, st.lexeme.next))
                ==> Agree(tr, ps))
  {
    var st := Scan(text, cursor, lnumNext, cnumNext);
    var r := Reported(st.token, st.lnum, st.cnum);
    var p := PieceOf(text, cursor);
    ScanPiece(text, cursor, lnumNext, cnumNext);
    TraceUnfold(text, cursor, lnumNext, cnumNext);
    PiecesUnfold(text, cursor);
    if st.token.None? {
      AgreeCons(r, p, [], []);
    } else {
      var trRest, psRest := Trace(text, st.lexeme.next, st.lnumNext, st.cnumNext), Pieces(text, st.lexeme.next);
      if Agree(trRest, psRest) {
        AgreeCons(r, p, trRest, psRest);
      }
    }
  }

  /** The tokens the scans report are the token pieces of the tiling, one
      for one, whatever position the scanning starts from. */
  lemma {:induction false} TracePieces(text: string, cursor: nat, lnumNext: nat, cnumNext: nat)
    requires cursor <= |text|
    ensures Agree(Trace(text, cursor, lnumNext, cnumNext), Pieces(text, cursor))
    decreases |text| - cursor
  {
    TracePiecesStep(text, cursor, lnumNext, cnumNext);
    var st := Scan(text, cursor, lnumNext, cnumNext);
    if st.token.Some? {
      TracePieces(text, st.lexeme.next, st.lnumNext, st.cnumNext);
    }
  }
}
