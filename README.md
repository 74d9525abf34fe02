# rtf_tokenize in Dafny

A model of the RTF lexer of `rtf_tokenize`, a Python extension written in C.
A `RtfTokenizer` owns a copy of an RTF text and hands out one token per
`next_token` call. Each token is a group brace, a control word (with any
numeric parameter), a control symbol or a run of plain text. `next_token`
returns `None` at end of text. Each call records the line and column where
the token starts (`lnum`, `cnum`). It also prepares the position where the
following scan starts (`lnum_next`, `cnum_next`). `rewind_token` pushes any
string or `None` back onto a LIFO stack that grows by 8 entries at a time.
`next_token` hands the pushed values back before it scans any further.

The project has three modules:

- `RtfLexeme` (`lexeme.dfy`) states one scan as pure functions over the text:
  - `RunEnd` gives maximal runs of one character class;
  - `LexemeAt` and `ClassifyAt` skip bare breaks and classify the lexeme;
  - `Scan` gives the token and both positions;
  - `Trace` is the sequence of reports from successive scans.

  It also gives a line:column reference (`CountIn`, `LineStart`,
  `PositionAt`) that does not depend on the scanner. A tiling (`Pieces`,
  `Join`) shows that the scans consume the text exactly.
- `RtfTokenize` (`tokenizer.dfy`) is the tokenizer object as a class. Its
  fields are the text, the cursor (`text_ptr`), the two positions and the
  rewind stack, an array with a count and a size. `NextToken`, `ScanToken`
  and `ClassifyFrom` follow the skip loop and the letter, digit and
  plain-text loops of the C code. They are proved against `RtfLexeme.Scan`.
  `RewindToken` pushes in place and grows the array by 8 when it is full.
- `RtfScenarios` (`scenarios.dfy`) derives the whole token and location
  table of the project's test document from `Trace`. It also drives the
  class through the rewind test, and covers one small text per lexeme form.

## Model

| member | source | states |
|---|---|---|
| RtfLexeme.RunEnd | rtf_tokenize.c:95-120 | the scan loops stop at the end of a maximal run of letters, digits or plain-text characters: every character before the end is in the class, and the end is at end of text or on a character outside it |
| RtfLexeme.LexemeAt | rtf_tokenize.c:75-88 | the lexeme starts at the end of the maximal run of bare CR/LF from the cursor (`RunEnd` over breaks), and start <= token end <= next cursor <= end of text |
| RtfLexeme.ClassifyAt | rtf_tokenize.c:89-123 | a lexeme is empty exactly at end of text; the cursor moves past the token by at most one character; an escaped line feed is the two characters `\` LF; any other lexeme holds no line feed |
| RtfLexeme.Scan | rtf_tokenize.c:72-134 | the lexeme is the one `LexemeAt` finds and the token is `None` exactly when it is empty; the reported line is the incoming next line plus the LFs skipped; the reported column is the incoming next column when no LF was skipped and 0 otherwise; the next position is on the reported line, or at column 0 of the line after it |
| RtfLexeme.ScanSlices | rtf_tokenize.c:75-134 | the token is the contiguous slice of the text where the cursor lands after skipping breaks; the skip is maximal, so the token starts at end of text or on a character that is not CR or LF; the cursor never moves back and never passes end of text; it moves forward whenever a token is returned; at most one space is consumed after the token |
| RtfLexeme.ScanNone | rtf_tokenize.c:79-132 | `None` is returned exactly when only CR/LF remain from the cursor, and the cursor is then at end of text |
| RtfLexeme.EndIsStable | rtf_tokenize.c:72-132 | a scan at end of text returns `None` and leaves the cursor and the next position where they are |
| RtfLexeme.GroupToken | rtf_tokenize.c:89-93 | `{` or `}` is a one-character token |
| RtfLexeme.PlainRun | rtf_tokenize.c:117-122 | a plain-text token is non-empty, holds only plain characters and stops at end of text or before `\`, `{`, `}`, CR or LF |
| RtfLexeme.ControlSymbol | rtf_tokenize.c:94-108 | a backslash followed by a non-letter, even LF, a brace or a digit, is a two-character token; a backslash at end of text is the token `\` |
| RtfLexeme.ControlWord | rtf_tokenize.c:94-116 | a backslash followed by letters is a token made of the letters and then an optional `-` or digit followed by digits; one space right after it is consumed but not returned |
| RtfLexeme.NextPosition | rtf_tokenize.c:98-129 | after `\` LF the next position is column 0 of the following line; after any other lexeme it is on the same line, advanced by every character consumed, including the delimiter space |
| RtfLexeme.SkipBreaksPosition | rtf_tokenize.c:83-88 | skipping bare breaks keeps a position valid: each LF adds a line and zeroes the column, and a CR changes nothing |
| RtfLexeme.ConsumePosition | rtf_tokenize.c:129 | consuming characters that are not line feeds advances the column by their number |
| RtfLexeme.StepPosition | rtf_tokenize.c:72-129 | over the offsets one scan visits, the reported and next positions are valid line:column positions for the token start and the new cursor |
| RtfLexeme.ScanPosition | rtf_tokenize.c:72-129 | if the incoming next position is a valid position of the cursor, both positions a scan produces are valid positions of the token start and of the new cursor |
| RtfLexeme.Trace | rtf_tokenize.c:61-135 | the reports of successive scans are never empty and end with a `None` report (the earlier ones are tokens, by `TracePieces` and `PiecesShape`) |
| RtfLexeme.PiecesTile | rtf_tokenize.c:75-129 | the skipped breaks, tokens and delimiter spaces of successive scans, joined in order, are the text from the cursor: no gap and no overlap |
| RtfLexeme.PiecesShape | rtf_tokenize.c:79-132 | every scan before the last returns a non-empty token, the last returns none, each scan skips only bare breaks, and each swallows at most one space |
| RtfLexeme.TracePieces | rtf_tokenize.c:127-134 | the tokens reported by successive scans are, one for one, the token pieces of the tiling, and `None` for the final empty piece (`AgreeAt` restates this index by index) |
| RtfTokenize.ScanMatches | rtf_tokenize.c:127-134 | when the scanner's locals match the lexeme and the skipped line feeds (`ScannedFrom`), the token, cursor and both positions it stores are the fields of `Scan`, and the next column `cnum + cinc + consumed` is not negative |
| RtfTokenize.ClassifiedPosition | rtf_tokenize.c:98-129 | under the same match (`ScannedFrom`), and given a valid incoming next position, the positions the scanner stores, computed with `linc`/`cinc`, are valid line:column positions |
| RtfTokenize.Tokenizer.constructor | rtf_tokenize.c:23-51 | a new tokenizer holds the text, the cursor at offset 0, both positions at 0:0 and an empty rewind stack of capacity 8 |
| RtfTokenize.Tokenizer.NextToken | rtf_tokenize.c:61-135 | with a non-empty rewind stack it pops the top entry and leaves the cursor and all four position fields unchanged; otherwise it returns the token of `Scan` and stores its cursor and both positions |
| RtfTokenize.Tokenizer.ScanToken | rtf_tokenize.c:72-134 | the skip loop and the classification store exactly the token, cursor, reported position and next position of `Scan`, and keep the object valid |
| RtfTokenize.Tokenizer.Store | rtf_tokenize.c:127-129 | storing the new cursor and the two positions keeps the object valid |
| RtfTokenize.Tokenizer.ClassifyFrom | rtf_tokenize.c:89-123 | the brace, backslash and plain-text branches compute the lexeme of `ClassifyAt`; for `\` LF they compute `linc` = 1 and `cinc` = -2 - `cnum` |
| RtfTokenize.Tokenizer.RewindToken | rtf_tokenize.c:137-166 | a value other than a string or `None` is a type error that changes nothing; otherwise the value goes on top of the stack, the entries below keep their order, a full stack grows by exactly 8, and the cursor and positions are unchanged |
| RtfScenarios.SampleDocument | test/test_tokenizer.py:17-50 | the sixteen tokens of the test document with their line:column locations, then `None` at column 0 of the line after the last token |
| RtfScenarios.RewindScenario | test/test_tokenizer.py:53-70 | after two scans, pushing `re` and `wind` hands back `wind`, then `re`, both at the location of `\rtf1`, and scanning then continues with `\ansi` at 0:6 |
| RtfScenarios.RewindTwice | test/test_tokenizer.py:60-67 | two pushes are returned in reverse order, and the cursor and positions are unchanged |
| RtfScenarios.GroupWordText | rtf_tokenize.c:89-122 | `{\rtf1 Hello}` scans to `{`, `\rtf1`, `Hello`, `}` with their columns; the delimiter space counts in the column |
| RtfScenarios.SymbolOnly | rtf_tokenize.c:102-108 | `\~` is one control-symbol token |
| RtfScenarios.SignedParameter | rtf_tokenize.c:110-116 | `\foo-12 bar` gives `\foo-12`, then `bar` at column 8 |
| RtfScenarios.SignWithoutDigits | rtf_tokenize.c:110-116 | `\foo- x` keeps the `-` in the token `\foo-` |
| RtfScenarios.LoneBackslash | rtf_tokenize.c:103-108 | a backslash at end of text is the one-character token `\` |
| RtfScenarios.CrLf | rtf_tokenize.c:83-88 | in `a` CR LF `b` the CR is skipped and only the LF moves `b` to line 1, column 0 |
| RtfScenarios.EscapedLineFeed | rtf_tokenize.c:98-101 | the token `\` LF is followed by column 0 of the next line |
| RtfScenarios.EmptyText | rtf_tokenize.c:131-132 | an empty text yields `None` at 0:0 |

The class invariant `Tokenizer.Valid` says several things:

- the text holds no NUL;
- the rewind count never exceeds the size;
- the size is a positive multiple of 8 equal to the array length;
- the next position is a valid line:column position of the cursor;
- the reported position is valid for the start of the last token.

A valid position has these parts:

- the line is the number of LFs before the offset;
- the column is the distance from the start of that line, less some of the
  CRs on that line. The scanner skips a bare CR without counting it. A
  plain-text run stops before a CR (rtf_tokenize.c:118-119). So the only CR
  the column counts is the second character of the control symbol `\` CR
  (rtf_tokenize.c:103-107).

Notes on the C code:

- The escaped line feed is handled in the backslash branch for every
  backslash token, by checking the character after the backslash. Because LF
  is not a letter, only the two-character control symbol `\` LF ever sets
  `linc`/`cinc`.
- `rewind_token` accepts any string, not only tokens this tokenizer produced.
- No parsed integer parameter or delimiter flag is ever built: a control
  word's parameter stays part of the token text.
- The position fields and `rewind_count` are not set in the init function.
  They are zero because a new object's memory is zero-filled on allocation.
  The constructor sets them to 0, so it models the first construction of an
  object only.

## Left out

- Python C-API glue is not modelled: argument parsing, the `"s"` format, reference counting (`Py_INCREF`/`Py_DECREF`), the dealloc function, the member and method tables, the type object and module init. The constructor instead requires a NUL-free text, which is what the `"s"` format guarantees. End of text is `cursor == |text|` rather than a NUL sentinel.
- Allocation failures (`PyErr_NoMemory` on the text copy and on growing the stack) are not modelled, because allocation always succeeds in Dafny. Growth allocates a fresh array and copies the entries.
- The conversion of the returned slice to a Python string is left out; the token is the `seq<char>` slice.
- The text is one `char` per byte of the UTF-8 encoding that the `"s"` format hands over (rtf_tokenize.c:28, 31), so columns count bytes. A backslash followed by a non-ASCII character gives a two-byte control symbol that splits the character, and the next token starts with continuation bytes. The C code then fails in the string conversion (rtf_tokenize.c:134) with a `UnicodeDecodeError`, after it has already stored the cursor and the positions (rtf_tokenize.c:127-129). These decode failures are not modelled: the model returns the byte slice as the token.
- Calling `__init__` again on an existing object is not modelled. In C (rtf_tokenize.c:23-45) that replaces the text copy and the stack buffer and resets `rewind_size` to 8. It keeps `rewind_count` and the four position fields, so a pop pending from before the call reads an entry of the new buffer that was never written.
- Host values passed to `rewind_token` are the datatype `HostValue`: `None`, a string, or anything else.
- `RtfTokenize.Tokenizer.ScanToken` uses mathematical integers for the `size_t` and `int` arithmetic of `cinc = -2 - cnum` and `cnum + cinc + consumed`. It proves the escaped line feed's next column is 0. It does not model truncation of `cnum` to `int`, which only matters for columns of 2^31 or more.
- `RtfTokenize.Tokenizer.ScanToken` keeps the running line and column in locals and stores them after classification. The C code updates `lnum`/`cnum` in the object inside the skip loop. Nothing can observe the difference, because the call does not return until both are stored.
- `RtfTokenize.Tokenizer.NextToken`'s pop returns the stored `Option<string>` itself. The transfer of the Python reference is not modelled.
- The column reference `PositionAt` does not fix a column exactly when a line holds carriage returns. It bounds the column between the distance from the line start less that line's CRs and the distance itself. Exact values are pinned down by the scenarios.
