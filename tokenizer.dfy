/** The RTF tokenizer object: an owned copy of the text, a cursor into it,
    the two-phase position (reported and next) and a growable stack of
    rewound tokens that are handed back before anything is scanned. */
module RtfTokenize {
  import opened RtfLexeme

  /** Initial capacity of the rewind stack, and the amount it grows by. */
  const RewindIncrement: nat := 8

  /** A value the host language passes to `RewindToken`. */
  datatype HostValue = HostNone | HostString(s: string) | HostOther

  datatype Status = Done | TypeError

  /** The scanner's locals after the skip loop and the classification: the
      break run ends at `start`, the lexeme there is the one classified, and
      `lnum`/`cnum` count the line feeds skipped from `cursor`. */
  ghost predicate ScannedFrom(text: string, cursor: nat, lnumNext: nat, cnumNext: nat,
                              start: nat, len: nat, next: nat, lnum: nat, cnum: nat, linc: nat, cinc: int)
  {
    cursor <= |text|
    && start == RunEnd(text, cursor, Breaks)
    && Classified(ClassifyAt(text, start), start, len, next, linc, cinc, cnum)
    && lnum == lnumNext + CountIn(text, cursor, start, '\n')
    && cnum == (if CountIn(text, cursor, start, '\n') == 0 then cnumNext else 0)
  }

  /** The scanner's locals are the fields of the specification's `Scan`. */
  lemma ScanMatches(text: string, cursor: nat, lnumNext: nat, cnumNext: nat,
                    start: nat, len: nat, next: nat, lnum: nat, cnum: nat, linc: nat, cinc: int)
    requires ScannedFrom(text, cursor, lnumNext, cnumNext, start, len, next, lnum, cnum, linc, cinc)
    ensures start + len <= next <= |text| && cnum + cinc + (next - start) >= 0
    ensures var st := Scan(text, cursor, lnumNext, cnumNext);
            st.token == (if len == 0 then None else Some(text[start..start + len]))
            && st.lexeme.start == start && st.lexeme.next == next
            && st.lnum == lnum && st.cnum == cnum
            && st.lnumNext == lnum + linc && st.cnumNext == cnum + cinc + (next - start)
  {
    assert LexemeAt(text, cursor) == ClassifyAt(text, start);
  }

  /** The positions the scanner stores are valid line:column positions. */
  lemma ClassifiedPosition(text: string, cursor: nat, lnumNext: nat, cnumNext: nat,
                           start: nat, len: nat, next: nat, lnum: nat, cnum: nat, linc: nat, cinc: int)
    requires ScannedFrom(text, cursor, lnumNext, cnumNext, start, len, next, lnum, cnum, linc, cinc)
    requires PositionAt(text, cursor, lnumNext, cnumNext)
    ensures start <= next <= |text| && cnum + cinc + (next - start) >= 0
    ensures PositionAt(text, start, lnum, cnum)
            && PositionAt(text, next, lnum + linc, cnum + cinc + (next - start))
  {
    var lx := ClassifyAt(text, start);
    StepPosition(text, cursor, start, next, lx.escapedNewline, lnumNext, cnumNext);
  }

  /** The scanner's local state after classification agrees with the lexeme
      the specification finds. */
  ghost predicate Classified(lx: Lexeme, start: nat, len: nat, next: nat, linc: nat, cinc: int, cnum: nat)
  {
    start == lx.start && len == lx.len && next == lx.next
    && linc == (if lx.escapedNewline then 1 else 0)
    && cinc == (if lx.escapedNewline then -2 - cnum else 0)
  }

  class Tokenizer {
    const text: string
    var cursor: nat
    var lnum: nat
    var cnum: nat
    var lnumNext: nat
    var cnumNext: nat
    var rewindBuffer: array<Option<string>>
    var rewindCount: nat
    var rewindSize: nat
    /** Where the last scanned token started (the offset `lnum:cnum` names). */
    ghost var tokenStart: nat

    ghost predicate Valid()
      reads this
    {
      NulFree(text)
      && tokenStart <= cursor <= |text|
      && rewindSize == rewindBuffer.Length
      && rewindCount <= rewindSize
      && rewindSize >= RewindIncrement && rewindSize % RewindIncrement == 0
      && PositionAt(text, cursor, lnumNext, cnumNext)
      && PositionAt(text, tokenStart, lnum, cnum)
    }

    /** The rewound tokens, bottom first: the last one is returned next. */
    ghost function Rewound(): seq<Option<string>>
      reads this, rewindBuffer
      requires Valid()
    {
      rewindBuffer[..rewindCount]
    }

    constructor (text: string)
      requires NulFree(text)
      ensures Valid() && fresh(rewindBuffer)
      ensures this.text == text && cursor == 0 && tokenStart == 0
      ensures lnum == 0 && cnum == 0 && lnumNext == 0 && cnumNext == 0
      ensures Rewound() == [] && rewindSize == RewindIncrement
    {
      this.text := text;
      cursor := 0;
      tokenStart := 0;
      lnum, cnum, lnumNext, cnumNext := 0, 0, 0, 0;
      rewindSize := RewindIncrement;
      rewindBuffer := new Option<string>[RewindIncrement](_ => None);
      rewindCount := 0;
    }

    /** Returns the last rewound token if there is one; otherwise scans the
        next token from the cursor (`None` at end of text). */
    method NextToken() returns (token: Option<string>)
      requires Valid()
      modifies this
      ensures Valid()
      ensures rewindBuffer == old(rewindBuffer) && rewindSize == old(rewindSize)
      ensures old(rewindCount) > 0 ==>
                token == old(Rewound())[old(rewindCount) - 1]
                && Rewound() == old(Rewound())[..old(rewindCount) - 1]
                && cursor == old(cursor) && tokenStart == old(tokenStart)
                && lnum == old(lnum) && cnum == old(cnum)
                && lnumNext == old(lnumNext) && cnumNext == old(cnumNext)
      ensures old(rewindCount) == 0 ==>
                var st := Scan(text, old(cursor), old(lnumNext), old(cnumNext));
                token == st.token && rewindCount == 0
                && cursor == st.lexeme.next && tokenStart == st.lexeme.start
                && lnum == st.lnum && cnum == st.cnum
                && lnumNext == st.lnumNext && cnumNext == st.cnumNext
    {
      if rewindCount > 0 {
        rewindCount := rewindCount - 1;
        token := rewindBuffer[rewindCount];
      } else {
        token := ScanToken();
      }
    }

    /** Scans one token from the cursor: skips bare breaks, counting line
        feeds into the reported position, classifies the lexeme, moves the
        cursor past it and prepares the next position. */
    method ScanToken() returns (token: Option<string>)
      requires Valid()
      modifies this`cursor, this`tokenStart, this`lnum, this`cnum, this`lnumNext, this`cnumNext
      ensures Valid()
      ensures var st := Scan(text, old(cursor), old(lnumNext), old(cnumNext));
              token == st.token
              && cursor == st.lexeme.next && tokenStart == st.lexeme.start
              && lnum == st.lnum && cnum == st.cnum
              && lnumNext == st.lnumNext && cnumNext == st.cnumNext
    {
      ghost var from, lineFrom, colFrom := cursor, lnumNext, cnumNext;
      ghost var skipEnd := RunEnd(text, from, Breaks);

      var line, col := lnumNext, cnumNext;
      var start, next, len := cursor, cursor, 0;
      var linc: nat, cinc: int := 0, 0;

      while start < |text|
        invariant from <= start <= skipEnd && next == start
        invariant len == 0 && linc == 0 && cinc == 0
        invariant line == lineFrom + CountIn(text, from, start, '\n')
        invariant col == if CountIn(text, from, start, '\n') == 0 then colFrom else 0
      {
        var c := text[start];
        if c == '\n' || c == '\r' {
          if c == '\n' {
            line := line + 1;
            col := 0;
          }
          next := next + 1;
          start := next;
          continue;
        }
        len, next, linc, cinc := ClassifyFrom(start, col);
        break;
      }

      ScanMatches(text, from, lineFrom, colFrom, start, len, next, line, col, linc, cinc);
      ClassifiedPosition(text, from, lineFrom, colFrom, start, len, next, line, col, linc, cinc);
      token := if len == 0 then None else Some(text[start..start + len]);
      Store(start, next, line, col, line + linc, col + cinc + (next - start));
    }

    /** Stores the position of the token just scanned and the cursor and
        position the next scan starts from. */
    method Store(start: nat, next: nat, line: nat, col: nat, lineNext: nat, colNext: nat)
      requires Valid()
      requires start <= next <= |text|
      requires PositionAt(text, start, line, col) && PositionAt(text, next, lineNext, colNext)
      modifies this`cursor, this`tokenStart, this`lnum, this`cnum, this`lnumNext, this`cnumNext
      ensures Valid()
      ensures cursor == next && tokenStart == start && lnum == line && cnum == col
      ensures lnumNext == lineNext && cnumNext == colNext
    {
      lnum, cnum, tokenStart := line, col, start;
      cursor, lnumNext, cnumNext := next, lineNext, colNext;
    }

    /** Classifies the lexeme that starts at `start`, where no bare break
        stands: a brace, a control word or symbol, or a plain-text run. Returns
        the token length, the offset the cursor moves to, and the line and
        column corrections for an escaped line feed, which discards the
        current column `cnum`. */
    method ClassifyFrom(start: nat, col: nat) returns (len: nat, next: nat, linc: nat, cinc: int)
      requires start < |text| && !IsBreak(text[start])
      ensures Classified(ClassifyAt(text, start), start, len, next, linc, cinc, col)
    {
      var c := text[start];
      next, linc, cinc := start, 0, 0;
      if c == '{' || c == '}' {
        len := 1;
        next := next + 1;
        return;
      }
      if c == '\\' {
        next := next + 1;
        while next < |text| && IsLetter(text[next])
          invariant start + 1 <= next <= RunEnd(text, start + 1, Letters)
        {
          next := next + 1;
        }
        if start + 1 < |text| && text[start + 1] == '\n' {
          linc := 1;
          cinc := -2 - col;
        }
        len := next - start;
        if len == 1 {
          if next < |text| {
            next := next + 1;
            len := len + 1;
          }
          return;
        }
        if next < |text| && (text[next] == '-' || IsDigit(text[next])) {
          ghost var sign := next;
          next := next + 1;
          while next < |text| && IsDigit(text[next])
            invariant sign + 1 <= next <= RunEnd(text, sign + 1, Digits)
          {
            next := next + 1;
          }
        }
        len := next - start;
        if next < |text| && text[next] == ' ' {
          next := next + 1;
        }
        return;
      }
      next := next + 1;
      while next < |text| && IsPlain(text[next])
        invariant start + 1 <= next <= RunEnd(text, start + 1, PlainText)
      {
        next := next + 1;
      }
      len := next - start;
    }

    /** Pushes `value` so that the next `NextToken` returns it; any string or
        `None` is accepted, anything else is a type error that changes nothing.
        A full stack first grows by `RewindIncrement`. */
    method RewindToken(value: HostValue) returns (status: Status)
      requires Valid()
      modifies this, rewindBuffer
      ensures Valid()
      ensures cursor == old(cursor) && tokenStart == old(tokenStart)
      ensures lnum == old(lnum) && cnum == old(cnum)
      ensures lnumNext == old(lnumNext) && cnumNext == old(cnumNext)
      ensures value.HostOther? ==>
                status == TypeError && rewindBuffer == old(rewindBuffer)
                && rewindCount == old(rewindCount) && rewindSize == old(rewindSize)
                && Rewound() == old(Rewound())
      ensures !value.HostOther? ==>
                status == Done
                && Rewound() == old(Rewound()) + [if value.HostNone? then None else Some(value.s)]
                && rewindSize == (if old(rewindCount) == old(rewindSize) then old(rewindSize) + RewindIncrement
                                  else old(rewindSize))
      ensures rewindBuffer != old(rewindBuffer) ==> fresh(rewindBuffer)
    {
      if value.HostOther? {
        return TypeError;
      }
      if rewindCount == rewindSize {
        var newSize := rewindSize + RewindIncrement;
        var newBuffer := new Option<string>[newSize](_ => None);
        forall i | 0 <= i < rewindCount {
          newBuffer[i] := rewindBuffer[i];
        }
        rewindSize := newSize;
        rewindBuffer := newBuffer;
      }
      rewindBuffer[rewindCount] := if value.HostNone? then None else Some(value.s);
      rewindCount := rewindCount + 1;
      status := Done;
    }
  }
}
