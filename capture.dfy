/** The capture driver: the input read line by line and fed to a terminal
    session, whose rows at the end are the captured screen.

    The input arrives in chunks, each one line of input with or without
    its terminating newline (only the last chunk can lack one).  A chunk
    is cut into pieces by the tokenizer and the pieces are applied in
    order; the newline at its end moves the cursor to the start of the
    next row and writes nothing, so only text creates rows.
 */
module Capture {
  import opened Ansi
  import opened Offsets
  import opened Compositor
  import opened Tokenizer
  import opened Style
  import opened Terminal

  const NL: char := '\n'

  /** One line of input as the reader delivers it. */
  datatype Chunk = Chunk(text: Line, newline: bool)

  /** The input cut after every newline; a last line without a newline is
      a chunk of its own when it is not empty. */
  function SplitChunks(input: Line): seq<Chunk>
    decreases |input|
  {
    if input == [] then []
    else if NL in input then
      var k := IndexOf(input, NL);
      [Chunk(input[..k], true)] + SplitChunks(input[k + 1..])
    else
      [Chunk(input, false)]
  }

  /** The characters a chunk was read from. */
  function Unchunk(c: Chunk): Line {
    c.text + (if c.newline then [NL] else [])
  }

  function JoinChunks(cs: seq<Chunk>): Line {
    if cs == [] then [] else Unchunk(cs[0]) + JoinChunks(cs[1..])
  }

  /** Chunks as a reader delivers them: no newline inside a chunk, every
      chunk but the last ends in a newline, and a last chunk without one
      is not empty. */
  predicate ChunksOk(cs: seq<Chunk>) {
    && (forall i :: 0 <= i < |cs| ==> NL !in cs[i].text)
    && (forall i :: 0 <= i < |cs| - 1 ==> cs[i].newline)
    && (cs != [] && !cs[|cs| - 1].newline ==> cs[|cs| - 1].text != [])
  }

  /** Reading loses nothing and delivers well-formed chunks. */
  lemma {:induction false} SplitJoin(input: Line)
    ensures ChunksOk(SplitChunks(input))
    ensures JoinChunks(SplitChunks(input)) == input
    decreases |input|
  {
    if input != [] && NL in input {
      var k := IndexOf(input, NL);
      var rest := input[k + 1..];
      var c := Chunk(input[..k], true);
      SplitStep(input, k, rest, c);
      SplitJoin(rest);
      ChunkCons(c, SplitChunks(rest));
    }
  }

  lemma {:induction false} SplitStep(input: Line, k: nat, rest: Line, c: Chunk)
    requires input != [] && NL in input && k == IndexOf(input, NL) && rest == input[k + 1..]
    requires c == Chunk(input[..k], true)
    ensures SplitChunks(input) == [c] + SplitChunks(rest)
    ensures input == Unchunk(c) + rest && NL !in c.text
  {
    assert input == input[..k] + [NL] + rest;
  }

  lemma {:induction false} ChunkCons(c: Chunk, cs: seq<Chunk>)
    requires NL !in c.text && c.newline && ChunksOk(cs)
    ensures ChunksOk([c] + cs)
    ensures JoinChunks([c] + cs) == Unchunk(c) + JoinChunks(cs)
  {
    var all := [c] + cs;
    assert all[1..] == cs;
    assert forall i :: 0 < i < |all| ==> all[i] == cs[i - 1];
  }

  lemma {:induction false} JoinPair(c1: Chunk, c2: Chunk)
    ensures JoinChunks([c1, c2]) == Unchunk(c1) + Unchunk(c2)
  {
    assert [c1, c2][1..] == [c2];
    assert [c2][1..] == [];
    assert JoinChunks([c2]) == Unchunk(c2) + JoinChunks([]);
    assert JoinChunks([c2]) == Unchunk(c2);
  }

  /** Conversely, well-formed chunks are read back exactly. */
  lemma {:induction false} JoinSplit(cs: seq<Chunk>)
    requires ChunksOk(cs)
    ensures SplitChunks(JoinChunks(cs)) == cs
    decreases |cs|
  {
    if cs != [] {
      var c, rest := cs[0], cs[1..];
      var input := JoinChunks(cs);
      ChunksOkTail(cs, c, rest);
      if c.newline {
        JoinSplit(rest);
        var tail := JoinChunks(rest);
        FirstNewline(input, c.text, tail);
        assert [Chunk(c.text, true)] + rest == cs;
      } else {
        assert input == c.text;
      }
    }
  }

  lemma {:induction false} ChunksOkTail(cs: seq<Chunk>, c: Chunk, rest: seq<Chunk>)
    requires ChunksOk(cs) && cs != [] && c == cs[0] && rest == cs[1..]
    ensures ChunksOk(rest) && NL !in c.text
    ensures JoinChunks(cs) == c.text + (if c.newline then [NL] else []) + JoinChunks(rest)
    ensures !c.newline ==> rest == [] && c.text != []
  {
    assert forall i :: 0 <= i < |rest| ==> rest[i] == cs[i + 1];
  }

  /** The first newline of `a` NL `b`, when `a` has none, ends `a`. */
  lemma {:induction false} FirstNewline(input: Line, a: Line, b: Line)
    requires NL !in a && input == a + [NL] + b
    ensures NL in input && IndexOf(input, NL) == |a|
    ensures input[..|a|] == a && input[|a| + 1..] == b
  {
    assert input[|a|] == NL;
  }

  /** What one chunk does: its pieces in order, then the newline, if any. */
  function FeedChunk(t: Term, c: Chunk): Term {
    var u := Run(t, Tokenize(c.text));
    if c.newline then NewLine(u) else u
  }

  /** The state after a list of chunks, taken in order. */
  function FeedAll(t: Term, cs: seq<Chunk>): Term {
    if cs == [] then t else FeedChunk(FeedAll(t, cs[..|cs| - 1]), cs[|cs| - 1])
  }

  /** The captured screen of an input. */
  function Render(input: Line): seq<Line> {
    FeedAll(Blank, SplitChunks(input)).screen
  }

  /** An input of one newline-terminated line renders as what the pieces
      of that line, taken in order from the blank state, leave on screen. */
  lemma {:induction false} RenderLine(line: Line)
    requires NL !in line
    ensures Render(line + [NL]) == Run(Blank, Tokenize(line)).screen
  {
    var c := Chunk(line, true);
    OneChunk(line, c);
    FeedOne(Blank, c);
    NewlineOnlyMoves(Blank, line);
  }

  lemma {:induction false} OneChunk(line: Line, c: Chunk)
    requires NL !in line && c == Chunk(line, true)
    ensures SplitChunks(line + [NL]) == [c]
  {
    assert [c][1..] == [];
    assert JoinChunks([c]) == line + [NL];
    JoinSplit([c]);
  }

  lemma {:induction false} FeedOne(t: Term, c: Chunk)
    ensures FeedAll(t, [c]) == FeedChunk(t, c)
  {
    assert [c][..0] == [];
  }

  /** A newline moves the cursor to the start of the next row and leaves the
      screen and the style alone: it never adds a row. */
  lemma {:induction false} NewlineOnlyMoves(t: Term, text: Line)
    ensures FeedChunk(t, Chunk(text, true)).screen == FeedChunk(t, Chunk(text, false)).screen
    ensures FeedChunk(t, Chunk(text, true)).style == FeedChunk(t, Chunk(text, false)).style
    ensures FeedChunk(t, Chunk(text, true)).row == FeedChunk(t, Chunk(text, false)).row + 1
    ensures FeedChunk(t, Chunk(text, true)).col == 0
  {
  }

  /** The texts of a list of chunks. */
  function Texts(cs: seq<Chunk>): seq<Line> {
    seq(|cs|, i requires 0 <= i < |cs| => cs[i].text)
  }

  /** The style in force after the given lines have been written. */
  function StyleAfter(ls: seq<Line>): seq<Line> {
    if ls == [] then [] else Track(StyleAfter(ls[..|ls| - 1]), SgrCodes(ls[|ls| - 1]))
  }

  /** The lines as a capture shows them: each preceded by the style in
      force when it began. */
  function Restyled(ls: seq<Line>): seq<Line> {
    seq(|ls|, i requires 0 <= i < |ls| => Concat(StyleAfter(ls[..i])) + ls[i])
  }

  /** Chunks holding text and SGR sequences but no command, none of them empty. */
  predicate TextOnly(cs: seq<Chunk>) {
    forall i :: 0 <= i < |cs| ==> cs[i].text != [] && NoCommands(cs[i].text)
  }

  /** A chunk without commands, fed at the start of a row below the
      screen, adds one row: the active style followed by the chunk. */
  lemma {:induction false} FeedFreshRow(t: Term, c: Chunk)
    requires t.row == |t.screen| && t.col == 0 && c.text != [] && NoCommands(c.text)
    ensures FeedChunk(t, c).screen == t.screen + [Concat(t.style) + c.text]
    ensures FeedChunk(t, c).style == Track(t.style, SgrCodes(c.text))
    ensures c.newline ==> FeedChunk(t, c).row == t.row + 1 && FeedChunk(t, c).col == 0
  {
    var x := c.text;
    TokenizeOneRun(x);
    var w := Write(t, x);
    assert Run(t, [Text(x)]) == w by {
      assert [Text(x)][..0] == [];
    }
    WriteShape(t, x);
    WriteNewRow(t, x);
    var row := Concat(t.style) + x;
    assert w.screen[t.row] == row by {
      assert Spaces(0) == [];
    }
    assert w.screen == t.screen + [row];
  }

  /** One more line for `StyleAfter` and `Restyled`. */
  lemma {:induction false} RestyledSnoc(ls: seq<Line>, front: seq<Line>, last: Line)
    requires ls == front + [last]
    ensures StyleAfter(ls) == Track(StyleAfter(front), SgrCodes(last))
    ensures Restyled(ls) == Restyled(front) + [Concat(StyleAfter(front)) + last]
  {
    assert ls[..|ls| - 1] == front;
    forall i | 0 <= i < |front|
      ensures ls[..i] == front[..i]
    {
    }
  }

  /** Lines of text and colours without commands are captured one row
      each, every row preceded by the style in force when it began, and
      the style at the end is the one the lines leave behind. */
  lemma {:induction false} LinesState(cs: seq<Chunk>)
    requires forall i :: 0 <= i < |cs| - 1 ==> cs[i].newline
    requires TextOnly(cs)
    ensures FeedAll(Blank, cs).screen == Restyled(Texts(cs))
    ensures FeedAll(Blank, cs).style == StyleAfter(Texts(cs))
    ensures (cs == [] || cs[|cs| - 1].newline) ==> FeedAll(Blank, cs).row == |cs| && FeedAll(Blank, cs).col == 0
    decreases |cs|
  {
    if cs != [] {
      var front, last := cs[..|cs| - 1], cs[|cs| - 1];
      ChunksSnoc(cs, front, last);
      LinesState(front);
      var t := FeedAll(Blank, front);
      FeedFreshRow(t, last);
      RestyledSnoc(Texts(cs), Texts(front), last.text);
    }
  }

  /** The last chunk split off: what the rest satisfies and how the fold and the texts unfold. */
  lemma {:induction false} ChunksSnoc(cs: seq<Chunk>, front: seq<Chunk>, last: Chunk)
    requires cs != [] && front == cs[..|cs| - 1] && last == cs[|cs| - 1]
    requires forall i :: 0 <= i < |cs| - 1 ==> cs[i].newline
    requires TextOnly(cs)
    ensures forall i :: 0 <= i < |front| ==> front[i].newline
    ensures TextOnly(front) && last.text != [] && NoCommands(last.text)
    ensures FeedAll(Blank, cs) == FeedChunk(FeedAll(Blank, front), last)
    ensures Texts(cs) == Texts(front) + [last.text]
  {
    forall i | 0 <= i < |front|
      ensures front[i] == cs[i]
    {
    }
    TextsSnoc(cs, front, last);
  }

  lemma {:induction false} TextsSnoc(cs: seq<Chunk>, front: seq<Chunk>, last: Chunk)
    requires cs == front + [last]
    ensures Texts(cs) == Texts(front) + [last.text]
  {
  }

  /** Capturing lines of text and colours: the screen is the lines, each
      preceded by the style in force when it began. */
  lemma {:induction false} RenderTextLines(cs: seq<Chunk>)
    requires ChunksOk(cs) && TextOnly(cs)
    ensures Render(JoinChunks(cs)) == Restyled(Texts(cs))
  {
    JoinSplit(cs);
    LinesState(cs);
  }

  /** Lines without ESC set no style. */
  lemma {:induction false} PlainStyle(ls: seq<Line>)
    requires forall i :: 0 <= i < |ls| ==> ESC !in ls[i]
    ensures StyleAfter(ls) == [] && Restyled(ls) == ls
    decreases |ls|
  {
    if ls != [] {
      var front, last := ls[..|ls| - 1], ls[|ls| - 1];
      PlainStyle(front);
      SgrCodesPlain(last);
      assert ls == front + [last];
      RestyledSnoc(ls, front, last);
      assert Track([], []) == [];
      assert Concat([]) + last == last;
    }
  }

  /** Capturing plain lines gives them back, one row each. */
  lemma {:induction false} RenderPlainLines(cs: seq<Chunk>)
    requires ChunksOk(cs)
    requires forall i :: 0 <= i < |cs| ==> cs[i].text != [] && ESC !in cs[i].text
    ensures Render(JoinChunks(cs)) == Texts(cs)
  {
    forall i | 0 <= i < |cs|
      ensures NoCommands(cs[i].text)
    {
      PlainNoCommands(cs[i].text);
    }
    RenderTextLines(cs);
    PlainStyle(Texts(cs));
  }

  /** Feeding a chunk without stray ESC keeps the invariant of the
      terminal, whatever commands the chunk holds. */
  lemma {:induction false} FeedKeepsOk(t: Term, c: Chunk)
    requires TermOk(t) && NoStrayEsc(c.text)
    ensures TermOk(FeedChunk(t, c))
  {
    TokenizeClean(c.text);
    RunKeepsOk(t, Tokenize(c.text));
  }

  lemma {:induction false} FeedAllKeepsOk(t: Term, cs: seq<Chunk>)
    requires TermOk(t) && CleanChunks(cs)
    ensures TermOk(FeedAll(t, cs))
    decreases |cs|
  {
    if cs != [] {
      var front := cs[..|cs| - 1];
      assert forall i :: 0 <= i < |front| ==> front[i] == cs[i];
      FeedAllKeepsOk(t, front);
      FeedKeepsOk(FeedAll(t, front), cs[|cs| - 1]);
    }
  }

  /** Every chunk is without stray ESC. */
  predicate CleanChunks(cs: seq<Chunk>) {
    forall i :: 0 <= i < |cs| ==> NoStrayEsc(cs[i].text)
  }

  /** Cutting an input without stray ESC at its newlines gives chunks
      without stray ESC: no control sequence holds a newline. */
  lemma {:induction false} SplitClean(input: Line)
    requires NoStrayEsc(input)
    ensures CleanChunks(SplitChunks(input))
    decreases |input|
  {
    if input != [] && NL in input {
      var k := IndexOf(input, NL);
      var rest := input[k + 1..];
      var c := Chunk(input[..k], true);
      SplitStep(input, k, rest, c);
      NewlineCut(input, k, rest);
      SplitClean(rest);
      ChunksCons(c, SplitChunks(rest), SplitChunks(input));
    }
  }

  lemma {:induction false} NewlineCut(input: Line, k: nat, rest: Line)
    requires NoStrayEsc(input) && k < |input| && input[k] == NL && rest == input[k + 1..]
    ensures NoStrayEsc(input[..k]) && NoStrayEsc(rest)
  {
    SplitBeforeOutside(input, k);
    var tail := input[k..];
    assert tail[0] == NL && CsiLen(tail) == 0;
    assert tail[1..] == rest;
  }

  lemma {:induction false} ChunksCons(c: Chunk, cs: seq<Chunk>, ds: seq<Chunk>)
    requires ds == [c] + cs && NoStrayEsc(c.text) && CleanChunks(cs)
    ensures CleanChunks(ds)
  {
    forall i | 0 <= i < |ds|
      ensures NoStrayEsc(ds[i].text)
    {
      if i > 0 {
        assert ds[i] == cs[i - 1];
      }
    }
  }

  /** Capturing an input without stray ESC leaves every row free of
      stray ESC and a well-formed style, with cursor and erase commands
      anywhere in the input. */
  lemma {:induction false} RenderOk(input: Line)
    requires NoStrayEsc(input)
    ensures ScreenOk(Render(input))
    ensures TermOk(FeedAll(Blank, SplitChunks(input)))
  {
    SplitClean(input);
    assert TermOk(Blank);
    FeedAllKeepsOk(Blank, SplitChunks(input));
  }

  /** A terminal session: the cursor, the rows written so far and the
      active style, updated in place as input is fed. */
  class Session {
    var row: nat
    var col: nat
    var screen: seq<Line>
    var style: seq<Line>

    /** The session's state as a value. */
    function State(): Term
      reads this
    {
      Term(row, col, screen, style)
    }

    constructor ()
      ensures State() == Blank
    {
      row, col, screen, style := 0, 0, [], [];
    }

    /** Writes a text run at the cursor and takes in its SGR sequences. */
    method WriteRun(run: Line)
      modifies this
      ensures State() == Write(old(State()), run)
    {
      ghost var t := State();
      var width := Len(run);
      var rows := Print(screen, Emitted(State(), run), col, row);
      var active := TrackAll(style, SgrCodes(run));
      WriteIs(t, run, width, rows, active);
      screen, col, style := rows, col + width, active;
    }

    /** Carries out a cursor or erase command. */
    method Execute(cmd: Command)
      modifies this
      ensures State() == Apply(old(State()), cmd)
    {
      match cmd
      case CursorUp(n) => row := Retreat(row, n);
      case CursorDown(n) => row := row + n;
      case CursorForward(n) => col := col + n;
      case CursorBack(n) => col := Retreat(col, n);
      case CursorPosition(r, c) => row, col := r, c;
      case EraseInLine(m) => screen := EraseLine(screen, row, col, m);
      case EraseInDisplay(m) => screen := EraseDisplay(screen, row, col, m);
      case Ignored =>
    }

    /** Feeds one chunk: its pieces in order, then its newline. */
    method Feed(chunk: Chunk)
      modifies this
      ensures State() == FeedChunk(old(State()), chunk)
    {
      ghost var start := State();
      var pieces := Tokenize(chunk.text);
      var i := 0;
      while i < |pieces|
        invariant i <= |pieces|
        invariant State() == Run(start, pieces[..i])
      {
        ghost var before := State();
        var p := pieces[i];
        if p.Text? {
          WriteRun(p.run);
        } else {
          Execute(p.cmd);
        }
        assert State() == Step(before, p);
        RunStep(start, pieces, i, before);
        i := i + 1;
      }
      assert pieces[..i] == pieces;
      ghost var u := State();
      if chunk.newline {
        row, col := row + 1, 0;
      }
      FeedChunkIs(start, chunk, pieces, u);
    }
  }

  lemma {:induction false} FeedChunkIs(t: Term, c: Chunk, pieces: seq<Piece>, u: Term)
    requires pieces == Tokenize(c.text) && u == Run(t, pieces)
    ensures FeedChunk(t, c) == if c.newline then NewLine(u) else u
  {
  }

  lemma {:induction false} WriteIs(t: Term, run: Line, width: nat, rows: seq<Line>, active: seq<Line>)
    requires width == VisualLength(run) && rows == Print(t.screen, Emitted(t, run), t.col, t.row)
    requires active == Track(t.style, SgrCodes(run))
    ensures Write(t, run) == Term(t.row, t.col + width, rows, active)
  {
  }

  /** One more piece: the state after the first `i + 1` pieces is the
      state after the first `i` with the next piece applied. */
  lemma {:induction false} RunStep(t: Term, ps: seq<Piece>, i: nat, before: Term)
    requires i < |ps| && before == Run(t, ps[..i])
    ensures Run(t, ps[..i + 1]) == Step(before, ps[i])
  {
    assert ps[..i + 1][..i] == ps[..i];
  }

  /** Captures an input: feeds it chunk by chunk to a fresh session and
      returns the rows of the screen. */
  method Capture(input: Line) returns (lines: seq<Line>)
    ensures lines == Render(input)
  {
    var chunks := SplitChunks(input);
    var session := new Session();
    var i := 0;
    while i < |chunks|
      invariant i <= |chunks|
      invariant session.State() == FeedAll(Blank, chunks[..i])
    {
      assert chunks[..i + 1][..i] == chunks[..i];
      session.Feed(chunks[i]);
      i := i + 1;
    }
    assert chunks[..i] == chunks;
    lines := session.screen;
  }
}
