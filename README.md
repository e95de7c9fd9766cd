# capture-screen, modelled in Dafny

capture-screen reads a stream of text that mixes printable characters with
ANSI / ECMA-48 control sequences. From it, it rebuilds the terminal screen
that the stream would have drawn, as a list of lines. Its behaviour is pinned
down by the test file `main_test.go`, which uses four operations:

- `Len(s)`: the visual width of a line. A complete control sequence
  (`ESC [` parameters, then a final letter; section 5.4 of ECMA-48) takes no
  columns, and every other code point takes one.
- `Pos(s, col)`: the byte offset in the UTF-8 encoding of `s` at which visual
  column `col` starts.
- `Print(screen, text, col, row)`: writes `text` into row `row` from visual
  column `col` on. It adds empty rows below the screen and pads the row with
  spaces where needed.
- `Capture(reader)`: reads the input line by line. It moves a cursor, changes
  the screen and tracks the active SGR style (section 8.3.117 of ECMA-48). It
  understands:
  - cursor up, down, forward, back and position (CUU, CUD, CUF, CUB, CUP;
    sections 8.3.22, 8.3.19, 8.3.20, 8.3.18 and 8.3.21);
  - erase in line (EL, 8.3.41) and erase in display (ED, 8.3.39).

The project is split into modules:

| file | module | what it holds |
|---|---|---|
| `ansi.dfy` | `Ansi` | the syntax of a control sequence and how long the one at the head of a line is |
| `offsets.dfy` | `Offsets` | visible characters, visual length, column-to-index and column-to-byte maps, and the `Len` and `Pos` scans |
| `compositor.dfy` | `Compositor` | `Print`, specified by a splice on the visible characters |
| `tokenizer.dfy` | `Tokenizer` | splitting a line into text runs and commands, and decoding commands with their numeric parameters |
| `style.dfy` | `Style` | SGR sequences and the active-style list |
| `terminal.dfy` | `Terminal` | the state (cursor, screen, style) and what each text run and command does to it |
| `capture.dfy` | `Capture` | chunking the input into lines, the `Session` class that `Capture` drives, and theorems about whole inputs |
| `scenarios.dfy` | `Scenarios` | the concrete inputs and outputs of the plain-text, style, width and position tests, and single terminal steps the whole-input scenarios build on |
| `capture_scenarios.dfy` | `CaptureScenarios` | whole inputs of the style, cursor-movement, cursor-position and erase tests, each rendered from the raw input |

Modelling choices:

- A line is a `seq<char>` of code points. `Utf8Width` gives each code point's
  encoded size (1 to 4 bytes), so `Pos` returns byte offsets.
- A control sequence is `ESC`, `[`, then any digits and `;`, then one letter.
  An `ESC` that does not start a complete sequence is an ordinary
  one-column character.
- An SGR sequence (final letter `m`) stays inside the text run around it.
  It is written into the line verbatim and takes no columns. Every other
  control sequence is a command that changes the state and writes nothing.
- When a text run is written into a row that does not exist yet, the
  concatenation of the active SGR sequences is written in front of it. This
  is the style re-emission the tests check.
- A reset sequence (`ESC[m` or `ESC[0m`) replaces the active style. Any
  other SGR sequence is appended to it.
- Count parameters that are 0 or absent mean 1. Cursor positions are
  1-based in the input and 0-based in the state. Moving up or left stops at 0.
- The newline at the end of a line moves the cursor to the start of the next
  row. It never adds a row; only writing text does.
- `Capture` is a class `Session` with fields `row`, `col`, `screen` and
  `style`. Its methods update them in place, and the `Capture` method loops
  over the lines of the input. Each method is proved equal to a function on
  the state value `Term`, and the properties are proved about those
  functions.

`Pos` at the end of a line does not always give the byte length of the
line. The tests expect `Pos("foo\x1b[m", 3) == 3` (main_test.go:322-328): the
offset of the last column stops before a trailing control sequence. The
model follows the tests, and `Offsets.ColumnToOffsetShape` states which
offsets are exactly the byte length: those of columns past the end.

## Model

| member | source | states |
|---|---|---|
| Offsets.Len | main_test.go:268-314 | the loop returns the number of visible characters: the line's length once every complete control sequence is removed |
| Offsets.PlainVisible | main_test.go:268-298 | a line without ESC is all visible, so its width is its length (TestLenEmpty, TestLenString, TestLenUnicode) |
| Offsets.VisibleAppend | main_test.go:284-314 | the visible characters of a concatenation are those of the parts, so widths add up across control sequences |
| Offsets.Pos | main_test.go:316-356 | the loop returns the byte offset of visual column `col`: the UTF-8 size of the line up to just after the col-th visible character |
| Offsets.ColumnToOffsetShape | main_test.go:316-352 | column 0 is at offset 0; every column past the end is at the byte length; offsets never decrease with the column and strictly increase within the line's width |
| Offsets.ColumnIndexPlain | main_test.go:322-328 | on a line without ESC, column `col` is at index `col`, or at the end of the line |
| Offsets.PlainThen | main_test.go:322-328 | text without ESC in front of a line is visible as it is, and a column inside it is at that same index, one past it continues into the rest |
| Offsets.CsiThen | main_test.go:284-290 | a complete control sequence in front of a line adds nothing visible, and every positive column moves right by exactly its length |
| Offsets.ColumnIndexBeyond | main_test.go:77-80 | a column past the visual length is at the end of the line |
| Offsets.ColumnIndexStopsAfterGlyph | main_test.go:322-335 | a column inside the width stops right after that column's visible character, never inside or after a following control sequence |
| Offsets.ColumnIndexMonotone | main_test.go:337-352 | the index of a column is monotone in the column, and strictly so within the width |
| Offsets.SplitAtColumn | main_test.go:51-81 | cutting a line at a column splits its visible characters at that column, and cuts no control sequence in half |
| Offsets.ByteLenAppend | main_test.go:354-356 | the byte size of a concatenation is the sum of the sizes |
| Offsets.AsciiByteLen | main_test.go:330-335 | an ASCII line takes one byte per character |
| Offsets.SplitBeforeOutside | main_test.go:94-132 | cutting a line without stray ESC before a character that cannot belong to a control sequence leaves both halves without stray ESC |
| Ansi.ScanCsiSpec | main_test.go:284-290 | the scan stops exactly after the first final letter that follows a run of parameter characters |
| Ansi.CsiLenIsCsi | main_test.go:284-290 | what is measured at the head of a line is one complete control sequence |
| Ansi.CsiLenUnique | main_test.go:300-306 | a line that starts with a complete control sequence is measured as exactly that sequence |
| Compositor.Print | main_test.go:32-81 | the result has `max(len(screen), row+1)` rows; every other row is unchanged, or empty if it is new; row `row` is the old row overwritten by the text at `col` |
| Compositor.SplicePointwise | main_test.go:51-81 | character by character, the splice holds the text at columns `[col, col+len)`, the old line elsewhere, and spaces in any gap |
| Compositor.OverwriteVisible | main_test.go:51-81 | the visible characters of an overwritten line are the splice of the old line's and the text's visible characters; no control sequence is broken |
| Compositor.PadToVisible | main_test.go:77-80 | padding a line adds spaces up to the column and keeps its control sequences whole |
| Compositor.OverwriteWidth | main_test.go:61-81 | the new width is the larger of the old width and `col` plus the text's width |
| Compositor.SpliceLength | main_test.go:61-81 | the splice is as long as the larger of the old line and `col` plus the text |
| Compositor.SpliceIdempotent | main_test.go:51-59 | writing the same text at the same column twice gives the same line as once |
| Compositor.OverwriteIdempotent | main_test.go:51-59 | the same for lines with control sequences, on their visible characters |
| Compositor.OverwritePlain | main_test.go:51-81 | on lines without ESC, overwriting is exactly the splice |
| Compositor.OverwriteNoEsc | main_test.go:51-81 | overwriting lines without ESC gives a line without ESC |
| Compositor.OverwriteEmpty | main_test.go:40-49 | writing into an empty row gives `col` spaces and then the text |
| Compositor.PrintDownExample | main_test.go:40-49 | writing `hello` into row 2 of an empty screen gives `["", "", "hello"]` |
| Compositor.PrintOverExample | main_test.go:51-59 | `world` over `hello` at column 0 gives `world` |
| Compositor.PrintOverPartlyExample | main_test.go:61-72 | `world` over `hello` at column 4 gives `hellworld`, and `hi, ` printed over that result at column 0 gives `hi, world` |
| Compositor.PrintOverMiddleExample | main_test.go:73-76 | `owdy ` over `hello world` at column 1 gives `howdy world` |
| Compositor.PrintPastEndExample | main_test.go:77-80 | `world` over `hello` at column 10 gives `hello     world` |
| Tokenizer.ControlLen | main_test.go:94-132 | a command found at the head of a line is a complete control sequence that does not end in `m` |
| Tokenizer.RunEnd | main_test.go:94-132 | a text run extends to the next command or to the end of the line, and holds no command |
| Tokenizer.TokenizeSound | main_test.go:94-132 | the pieces put back together are the line; every piece is well formed; no two text runs are adjacent |
| Tokenizer.TokenizeOneRun | main_test.go:10-30 | a line without commands is a single text run |
| Tokenizer.PlainNoCommands | main_test.go:10-30 | a line without ESC holds no command |
| Tokenizer.TokenizeLead | main_test.go:103-110 | a line that starts with a command is tokenized as that command, decoded, followed by the rest |
| Tokenizer.NumberDigits | main_test.go:146-161 | reading back the decimal digits of a number gives the number |
| Tokenizer.FieldsJoin | main_test.go:134-144 | splitting the parameters at `;` and joining them back gives the parameters |
| Tokenizer.FieldsAreNumbers | main_test.go:134-144 | every parameter field is a string of digits |
| Tokenizer.Count | main_test.go:94-132 | a count is at least 1, and equals the parameter when the parameter is not 0 |
| Tokenizer.DecodeEncode | main_test.go:94-161 | every command, written out as a control sequence, decodes back to itself |
| Tokenizer.DecodeCsi | main_test.go:94-266 | a control sequence decodes by its parameter fields and its final letter |
| Tokenizer.DecodeHomeZeros | main_test.go:134-144 | `ESC[0;0H` goes to the top-left corner |
| Tokenizer.DecodeHomeNoRow | main_test.go:134-144 | `ESC[;1H` goes to the top-left corner |
| Tokenizer.DecodeHomeRowOnly | main_test.go:134-144 | `ESC[1H` goes to the top-left corner |
| Style.SgrCodes | main_test.go:358-394 | the SGR sequences found in a run are all SGR sequences |
| Style.SgrCodesPlain | main_test.go:358-364 | a run without ESC holds no SGR sequence |
| Style.TrackAll | main_test.go:366-394 | the loop returns the active style after the run's SGR sequences |
| Style.TrackKeepsStyleOk | main_test.go:366-394 | the active style only ever holds SGR sequences, with a reset at most in first place |
| Style.TrackAccumulates | main_test.go:366-374 | without a reset, the sequences are appended to the active style |
| Style.TrackAfterReset | main_test.go:376-394 | after a reset, the active style is the reset and the sequences that follow it |
| Style.CsiInvisible | main_test.go:284-290 | a control sequence has no visible characters |
| Style.ConcatInvisible | main_test.go:358-364 | the re-emitted style takes no columns and breaks no control sequence |
| Style.AccumulateExample | main_test.go:366-374 | red, then bold, leaves both active |
| Style.ResetExample | main_test.go:376-384 | red, then reset, leaves only the reset active |
| Terminal.MovesUndo | main_test.go:112-132 | going down then up by the same count, or right then left, returns to the same state |
| Terminal.MovesKeepScreen | main_test.go:94-144 | cursor commands leave the screen and the style alone; up and down keep the column; forward and back keep the row; up and back move by exactly their count when there is room, and otherwise stop at row or column 0 |
| Terminal.ClearLineVisible | main_test.go:178-209 | EL 0 keeps the visible characters before the cursor; EL 1 blanks them and keeps the rest; EL 2 keeps none; no control sequence is broken |
| Terminal.ClearLineWidth | main_test.go:178-209 | after EL 0 the width is at most the cursor column; after EL 1 it is at least the cursor column |
| Terminal.EraseLineShape | main_test.go:178-209 | EL changes only the cursor's row, and only when that row exists |
| Terminal.EraseToEnd | main_test.go:221-249 | ED 0 keeps the rows above, cuts the cursor's row at the cursor, and drops every row below |
| Terminal.EraseToStart | main_test.go:235-266 | ED 1 keeps the row count, empties the rows above, blanks the cursor's row up to the cursor and leaves the rows below |
| Terminal.ApplyNeverGrows | main_test.go:178-244 | no command adds rows, and every command but ED keeps the row count |
| Terminal.WriteShape | main_test.go:94-132 | a text run moves the cursor right by its width, and only the cursor's row changes (the screen grows to reach it) |
| Terminal.WriteVisible | main_test.go:124-132 | the visible characters of the written row are the splice of the old row's and the run's |
| Terminal.WriteNewRow | main_test.go:358-364 | a run written into a new row is preceded by `col` spaces and the active style |
| Terminal.WriteKeepsOk | main_test.go:358-394 | writing keeps every row free of broken control sequences and the style well formed |
| Terminal.ApplyKeepsOk | main_test.go:94-266 | every command keeps every row free of broken control sequences and the style well formed |
| Terminal.EraseLineKeepsOk | main_test.go:178-209 | EL keeps the rows free of broken control sequences |
| Terminal.EraseDisplayKeepsOk | main_test.go:211-259 | ED keeps the rows free of broken control sequences |
| Terminal.TokenizeClean | main_test.go:94-266 | every text run the tokenizer cuts from a line without stray ESC is itself without stray ESC |
| Terminal.RunKeepsOk | main_test.go:94-266 | running any sequence of such pieces keeps every row free of broken control sequences and the style well formed |
| Capture.SplitJoin | main_test.go:10-30 | splitting the input into lines loses nothing: joining the lines back gives the input, and the lines are well formed |
| Capture.JoinSplit | main_test.go:10-30 | splitting well-formed lines joined together gives back the same lines |
| Capture.NewlineOnlyMoves | main_test.go:10-30 | the newline at the end of a line changes neither the screen nor the style; it moves the cursor to the start of the next row |
| Capture.FeedFreshRow | main_test.go:358-364 | a line without commands, fed below the screen, adds one row: the active style and then the line |
| Capture.RestyledSnoc | main_test.go:358-394 | the style after one more line is the old style tracked through it, and that line is shown behind the old style |
| Capture.LinesState | main_test.go:358-394 | after lines without commands, each row is its line preceded by the style active when it began |
| Capture.RenderTextLines | main_test.go:358-394 | an input of lines without commands renders as those lines, each preceded by the style in force when it began |
| Capture.PlainStyle | main_test.go:10-30 | lines without ESC leave no style and are shown unchanged |
| Capture.RenderPlainLines | main_test.go:10-30 | an input of non-empty lines without ESC renders as exactly those lines |
| Capture.FeedKeepsOk | main_test.go:94-266 | feeding one line without stray ESC, commands included, keeps the screen and style well formed |
| Capture.FeedAllKeepsOk | main_test.go:94-266 | feeding any number of such lines keeps the screen and style well formed |
| Capture.SplitClean | main_test.go:10-30 | the lines an input without stray ESC is cut into are each without stray ESC |
| Capture.RenderOk | main_test.go:94-266 | every row captured from an input without stray ESC is free of broken control sequences, and the style left at the end is well formed |
| Capture.Session.constructor | main_test.go:10-16 | a new session has the cursor at the top left, no rows and no style |
| Capture.Session.WriteRun | main_test.go:94-132 | writing a run updates the fields exactly as `Terminal.Write` prescribes |
| Capture.Session.Execute | main_test.go:94-266 | executing a command updates the fields exactly as `Terminal.Apply` prescribes |
| Capture.Session.Feed | main_test.go:94-266 | the loop over a line's pieces leaves the fields as the pieces, taken in order, prescribe, then handles the newline |
| Capture.Capture | main_test.go:10-30 | the loop over the input's lines returns the rendered screen of the whole input |
| CaptureScenarios.DownLine | main_test.go:94-101 | text, one row down, text: the second text starts a new row, blank up to the column the first text reached |
| CaptureScenarios.DownCapture | main_test.go:94-101 | `helloESC[Bhi` renders as `hello` and `     hi` |
| CaptureScenarios.RightLeftLine | main_test.go:124-132 | right `n` columns, text, back `k` columns, text: the row is `n` blanks and the first text, with the second text spliced in `k` columns before its end |
| CaptureScenarios.LeftRightCapture | main_test.go:124-132 | `ESC[10C world ESC[14D hello,` renders as `    hello, world ` |
| Scenarios.WriteInRow | main_test.go:124-132 | writing into an existing row without ESC splices the run into it |
| CaptureScenarios.EraseStartLine | main_test.go:190-200 | text, EL 1, text: the first text is blanked and the second follows the blanks |
| CaptureScenarios.EraseInLineCapture | main_test.go:190-200 | `Hello, ESC[1K world!` renders as `        world!` |
| CaptureScenarios.CutAtPosition | main_test.go:202-211 | text, a cursor position in the same row, EL: the row is cut at the column of the cursor |
| CaptureScenarios.EraseInLineEndCapture | main_test.go:202-211 | `Hello, world! ESC[1;6HESC[K` renders as `Hello` |
| CaptureScenarios.EraseAllLines | main_test.go:213-222 | a line, then text and ED 2, renders as no rows |
| CaptureScenarios.EraseInDisplayCapture | main_test.go:213-222 | `Hello,\n world! ESC[2J` renders as no rows |
| CaptureScenarios.EraseBelowLines | main_test.go:246-255 | a line, then text, back `k`, up one row and ED 0: only the first row is left, cut at the column reached |
| CaptureScenarios.EraseInDisplayToEndCapture | main_test.go:246-255 | `Howdy, earth\nHello, world ESC[7DESC[AESC[0J` renders as `Howdy,` |
| CaptureScenarios.EraseAboveLines | main_test.go:257-266 | a line, then text and ED 1: the first row is emptied and the text blanked |
| CaptureScenarios.EraseInDisplayToBeginningCapture | main_test.go:257-266 | `Hello,\nworldESC[1J` renders as an empty row and `     ` |
| Scenarios.TwoLines | main_test.go:17-23 | two newline-terminated lines without ESC render as two rows |
| Scenarios.TwoLinesExample | main_test.go:17-23 | `hello\nworld\n` renders as `hello` and `world` |
| Scenarios.NoNewlineExample | main_test.go:25-30 | `hello` without a newline renders as `hello` |
| Scenarios.StyleCarries | main_test.go:358-364 | a non-reset SGR sequence at the start of the first line is repeated at the start of the second |
| Scenarios.PrintStyleExample | main_test.go:358-364 | `ESC[31mRED\nHello` renders as `ESC[31mRED` and `ESC[31mHello` |
| Scenarios.UpThenWrite | main_test.go:103-110 | a line, then one row up and a shorter text, overwrites the start of the line |
| Scenarios.UpExample | main_test.go:103-110 | `hello\nESC[Aansi\n` renders as `ansio` |
| Scenarios.LenColoredExample | main_test.go:284-290 | `One ESC[0m two` is 8 columns wide |
| Scenarios.LenColored2Example | main_test.go:300-306 | `ESC[31mOne ESC[0m two` is 8 columns wide |
| Scenarios.StyledRuns | main_test.go:308-314 | three pairs of a control sequence and plain text show exactly the three texts, then what the rest shows |
| Scenarios.LenGitLogExample | main_test.go:308-314 | the colored `git log` line of TestLenColoredBug is 43 columns wide |
| Scenarios.ThreeRuns | main_test.go:337-352 | behind three control sequence and text pairs, columns in the first text skip the first sequence, in the second text both, and the first column of the third text all three |
| Scenarios.PosComplexExample | main_test.go:337-352 | in the colored `git log` line, columns 0, 1, 3, 4, 5, 6, 10, 11 and 12 are at bytes 0, 4, 6, 7, 13, 14, 18, 19 and 23 |
| Scenarios.PosAfterLeadingSgrExample | main_test.go:330-335 | in `ESC[mABC`, columns 0, 1 and 2 are at bytes 0, 4 and 5 |
| Scenarios.PosBeforeTrailingSgrExample | main_test.go:322-328 | in `fooESC[m`, column 3 is at byte 3 |
| Scenarios.PosUnicodeExample | main_test.go:354-356 | `↑ ` is 2 columns wide, and column 1 is at byte 3 |
| CaptureScenarios.TwoStyledLines | main_test.go:358-394 | two lines without commands render as the first line, then the style it leaves followed by the second |
| CaptureScenarios.AccumulateLines | main_test.go:366-374 | two non-reset SGR sequences in the first line are both re-emitted, in order, at the start of the second |
| CaptureScenarios.AccumulateCapture | main_test.go:366-374 | `ESC[31mREESC[1mD\nHello` renders its second row as `ESC[31mESC[1mHello` |
| CaptureScenarios.ResetLines | main_test.go:376-384 | an SGR sequence followed by a reset in the first line: the second line starts with the reset alone |
| CaptureScenarios.ResetCapture | main_test.go:376-384 | `ESC[31mREDESC[0m\nHello` renders as `ESC[31mREDESC[0m` and `ESC[0mHello` |
| CaptureScenarios.ResetOptimizeLines | main_test.go:386-394 | a colour switched on and straight off again leaves only the reset for the next line |
| CaptureScenarios.ResetOptimizeCapture | main_test.go:386-394 | `Foo ESC[31mESC[0m \n bar` renders its second row as `ESC[0m bar` |
| CaptureScenarios.UpDownLine | main_test.go:112-122 | text, two rows down, text, two rows up, text: the first row continues at the column reached, a blank row is left between, and the lower row is padded to the column |
| CaptureScenarios.UpDownExample | main_test.go:112-122 | `one ESC[2B two ESC[2A three` renders as `one       three`, an empty row and `     two ` |
| CaptureScenarios.HomeThenText | main_test.go:134-144 | a command that goes to the top-left corner, then text, renders as that text alone |
| CaptureScenarios.CursorPositionExample | main_test.go:134-144 | `ESC[0;0H`, `ESC[;1H` and `ESC[1H` before `one` each render as `one` |
| CaptureScenarios.PlaceUpwards | main_test.go:146-162 | three cursor positions into rows 4, 3 and 2, each followed by the same text at column 2, leave the first row empty and the other three holding a blank and the text |
| CaptureScenarios.CursorPosition2Example | main_test.go:146-162 | `ESC[4;2Ho ESC[3;2Ho ESC[2;2Ho` renders as an empty row and three rows ` o` |
| CaptureScenarios.PrintIntoRowAbove | main_test.go:164-176 | after three rows of text below an empty row, a cursor position into the row above, past the end of its text, pads that row and writes there; the other rows keep their text |
| CaptureScenarios.CursorPositionAndPrintExample | main_test.go:164-176 | `\n o\n o\n oESC[3;4Hz\n` renders as an empty row, ` o`, ` o z` and ` o` |
| CaptureScenarios.CommandOnly | main_test.go:178-244 | a line holding one command and nothing else renders as no rows |
| CaptureScenarios.TextThenErase | main_test.go:178-188 | text then EL in the same line leaves that text cleared as the mode says |
| CaptureScenarios.EraseInLineAllExample | main_test.go:178-188 | `Hi ESC[1K` renders as three blanks and `Yo ESC[2K` as an empty row |
| CaptureScenarios.EraseOnlyExample | main_test.go:178-188 | an empty line, and `ESC[1K`, `ESC[2K`, `ESC[0K` and `ESC[K` alone, render as no rows |
| CaptureScenarios.EraseInDisplayEmptyExample | main_test.go:224-244 | `ESC[0J` and `ESC[1J` alone on a line render as no rows |

## Left out

- Reading the input (`StrReader`, main_test.go:406-408, and the buffered
  reader behind `Capture`) is not modelled as I/O. The input is a string,
  and `Capture.SplitChunks` cuts it into the lines a reader would deliver.
  Each line is flagged by whether a newline ended it.
- The assertion helpers `AssertEquals` and `AssertEqualsStr`
  (main_test.go:410-420) are test scaffolding.
- `FixTestPrintBug` and `FixTestPrintStyleBug` (main_test.go:83-92, 396-404)
  are not run by Go, because their names lack the `Test` prefix. They expect
  a leading control sequence to survive an overwrite at column 0, which
  contradicts `Pos(s, 0) == 0` together with the splice rule. The model keeps
  the behaviour the other tests fix.
- main.go, the implementation, is not part of this model. Behaviour that no
  test fixes is chosen as follows:
  - erasing on a row that does not exist changes nothing;
  - EL and ED with a mode other than 0, 1 or 2 change nothing;
  - ED 2 leaves the cursor where it was;
  - control sequences with other final letters (`f`, `S`, `T`, …) are read
    and ignored;
  - only `ESC[m` and `ESC[0m` count as a reset.
- Capture.RenderOk: holds only for inputs in which every ESC starts a
  complete control sequence. A stray ESC is copied into a row as it is, so
  such rows are not claimed to be well formed.
- Process spawning, the pseudo-terminal and the command line are outside
  the test file.
- Double-width and combining characters: every code point takes one column.
- Code points are modelled, not bytes. A line is never invalid UTF-8.
